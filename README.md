# commons-cli-wrapper, modelled in Dafny

A model of the two pieces of logic of phorest's wrapper around Apache Commons CLI:

- **`OptionBuilder.RealOptionBuilder`**: a mutable builder with nine fields (long name,
  short name, description, argument name, required flag, number of arguments, type,
  optional-argument flag, value separator). Its chainable setters each assign their
  own field(s) and return the builder. `create()` fails with `IllegalStateException`
  when no long name is set. Otherwise it makes an `Option` whose argument name
  defaults to the long name in upper case. The static factories of `OptionBuilder`
  wrap a fresh builder and one setter.
- **`OptionHandler`**: a list of options that starts with a registered `help` option,
  the command line of the last successful parse, and a `helpRequested` flag. Its parser
  overrides `checkRequiredOptions()` so that `help` sets the flag and throws
  `HelpRequestedException` (a `MissingOptionException`) before the library checks
  required options. The queries throw `IllegalStateException` until a parse has
  succeeded. `error` and `errorOrHelp` print a fixed header, the message and the usage.

Files:

- `lang.dfy` (`Lang`): Java nulls (`Nullable`), thrown exceptions as values (`Result`, `Outcome`), `String.toUpperCase` (`ToUpper`), and `PrintWriter` as the lines written to it.
- `commons_cli.dfy` (`CommonsCli`): the library's `Option` as a record, `CommandLine` as a map from option name to values, the parse exceptions, and the parser `GnuParser` as two functions the model does not look inside. `process` is everything `Parser.parse` does before its call of `checkRequiredOptions()`. `checkRequiredOptions` is the library's own required-option check. Both may throw only `LibraryException`, which is every `ParseException` except `HelpRequestedException`. That class's constructor is private (OptionHandler.java lines 141-143), so only the wrapper's overridden check can throw it.
- `option_builder.dfy` (`OptionBuilder`): the builder's fields as a value `Settings`, each setter as a `Setter` applied by `Apply`, `create()` as `Build`, lemmas about any chain of setter calls, the class `RealOptionBuilder` proved against these, and the static factories.
- `option_handler.dfy` (`OptionHandler`): the handler's fields as a value `HandlerState` with one step function per operation (`AddStep`, `AddBuilderStep`, `ParseStep`), `Run` over a sequence of calls, lemmas about single parses and whole sequences, the output blocks, and the class `OptionHandler` proved against the step functions.
- `scenarios.dfy` (`Scenarios`): client code in the shape of the unit tests, proved from the contracts alone.

Java `String` parameters may be null, so every string setter takes a `Nullable<string>`.
`withName(null)` is legal Java and leaves the builder unable to `create()`.

Two points about what the code does and does not do:

- `helpRequested` is only ever assigned `true` (OptionHandler.java line 132), so nothing clears it. `RunMonotone` proves that the flag, once set, stays on.
- `hasArgs(int)` and `hasOptionalArgs(int)` store the count unchecked (OptionBuilder.java lines 352-355 and 382-386). Zero and negative counts reach `create()` as given.

## Model

| member | source | states |
|---|---|---|
| `Lang.ToUpper` | src/main/java/com/phorest/commons/cli/OptionBuilder.java:431 | the default argument name upper-cases the name character by character, keeping its length |
| `Lang.ToUpperIdempotent` | src/main/java/com/phorest/commons/cli/OptionBuilder.java:431 | an upper-cased name has no lower-case letter left, so upper-casing it again changes nothing |
| `OptionBuilder.Fresh` | src/main/java/com/phorest/commons/cli/OptionBuilder.java:198-238 | a new builder has no names, description, argument name or type, `required = false`, `optionalArg = false`, `numberOfArgs = UNINITIALIZED` and separator `'\0'` |
| `OptionBuilder.Apply` | src/main/java/com/phorest/commons/cli/OptionBuilder.java:246-409 | one setter call: every field outside the setter's `Touches` set keeps its value (as `ApplyFrame`, `UntouchedFieldKept` and `LastWriterWins` state for chains), and `optionalArg` ends on exactly when it was on or the setter is an optional-argument one |
| `OptionBuilder.Build` | src/main/java/com/phorest/commons/cli/OptionBuilder.java:417-434 | `create()` fails with `IllegalStateException` exactly when the name is null; otherwise the option copies long name, short name, description, required, optionalArg, numberOfArgs, type and separator, and its argument name is the explicit one or else the upper-cased name |
| `OptionBuilder.BuildRoundTrip` | src/main/java/com/phorest/commons/cli/OptionBuilder.java:422-433 | the settings can be read back from the created option, apart from whether the argument name was defaulted; rebuilding from them gives the same option |
| `OptionBuilder.BuildSurjective` | src/main/java/com/phorest/commons/cli/OptionBuilder.java:422-433 | every option with a long name is what some builder creates |
| `OptionBuilder.ApplyFrame` | src/main/java/com/phorest/commons/cli/OptionBuilder.java:246-409 | a setter leaves every field it does not write unchanged, and what it writes does not depend on the state before |
| `OptionBuilder.DisjointSettersCommute` | src/main/java/com/phorest/commons/cli/OptionBuilder.java:246-409 | setters that write different fields can be called in either order |
| `OptionBuilder.LaterSetterOverrides` | src/main/java/com/phorest/commons/cli/OptionBuilder.java:246-409 | a later setter that writes every field an earlier one wrote overrides it (same setter twice, `hasArg` then `hasArgs`, `hasArgs` then `hasOptionalArgs`) |
| `OptionBuilder.UntouchedFieldKept` | src/main/java/com/phorest/commons/cli/OptionBuilder.java:246-409 | over any chain of calls, a field no call writes keeps its value |
| `OptionBuilder.LastWriterWins` | src/main/java/com/phorest/commons/cli/OptionBuilder.java:246-409 | over any chain of calls, the last call that writes a field decides its value |
| `OptionBuilder.OptionalArgNeverCleared` | src/main/java/com/phorest/commons/cli/OptionBuilder.java:382-386 | once `optionalArg` is true, no chain of setters makes it false |
| `OptionBuilder.OptionalArgExactly` | src/main/java/com/phorest/commons/cli/OptionBuilder.java:362-386 | after a chain, `optionalArg` is true exactly when it was before or an optional-argument setter was called |
| `OptionBuilder.CreateFailsWithoutName` | src/main/java/com/phorest/commons/cli/OptionBuilder.java:417-420 | a fresh builder on which `withName` is never called fails to create, with the fixed message |
| `OptionBuilder.CreateUsesLastName` | src/main/java/com/phorest/commons/cli/OptionBuilder.java:246-249 | `create()` succeeds with the name of the last `withName` call when it is non-null; with no `withArgName` call the argument name is that name upper-cased |
| `OptionBuilder.CreateExamples` | src/test/java/com/phorest/commons/cli/OptionBuilderTest.java:37-107 | the seven unit-test chains: no name fails; `withName("longName")` alone, and with `withShortName("shortName")`, gives argument name `LONGNAME`, not required, no description (and the short name); `hasArg()` gives one argument; `hasArgs()` gives `UNLIMITED_VALUES`; the optional-arg and optional-args options carry their settings |
| `OptionBuilder.RealOptionBuilder.constructor` | src/main/java/com/phorest/commons/cli/OptionBuilder.java:198-238 | a new builder's fields are `Fresh()` |
| `OptionBuilder.RealOptionBuilder.WithName` | src/main/java/com/phorest/commons/cli/OptionBuilder.java:246-249 | sets the long name only, returns the same builder |
| `OptionBuilder.RealOptionBuilder.WithShortName` | src/main/java/com/phorest/commons/cli/OptionBuilder.java:257-260 | sets the short name only, returns the same builder |
| `OptionBuilder.RealOptionBuilder.HasArg` | src/main/java/com/phorest/commons/cli/OptionBuilder.java:267-269 | the same as `hasArg(true)`: one argument, `optionalArg` untouched |
| `OptionBuilder.RealOptionBuilder.HasArgFlag` | src/main/java/com/phorest/commons/cli/OptionBuilder.java:278-281 | `numberOfArgs` becomes 1 when true and `UNINITIALIZED` when false; nothing else changes |
| `OptionBuilder.RealOptionBuilder.WithArgName` | src/main/java/com/phorest/commons/cli/OptionBuilder.java:289-292 | sets the argument name only, returns the same builder |
| `OptionBuilder.RealOptionBuilder.IsRequired` | src/main/java/com/phorest/commons/cli/OptionBuilder.java:299-301 | the same as `isRequired(true)` |
| `OptionBuilder.RealOptionBuilder.WithValueSeparator` | src/main/java/com/phorest/commons/cli/OptionBuilder.java:320-323 | sets the separator only, returns the same builder |
| `OptionBuilder.RealOptionBuilder.IsRequiredFlag` | src/main/java/com/phorest/commons/cli/OptionBuilder.java:332-335 | sets the required flag only, returns the same builder |
| `OptionBuilder.RealOptionBuilder.HasArgs` | src/main/java/com/phorest/commons/cli/OptionBuilder.java:342-344 | the same as `hasArgs(UNLIMITED_VALUES)` |
| `OptionBuilder.RealOptionBuilder.HasArgsCount` | src/main/java/com/phorest/commons/cli/OptionBuilder.java:352-355 | `numberOfArgs` becomes exactly the count given, unchecked; nothing else changes |
| `OptionBuilder.RealOptionBuilder.HasOptionalArg` | src/main/java/com/phorest/commons/cli/OptionBuilder.java:362-364 | the same as `hasOptionalArgs(1)` |
| `OptionBuilder.RealOptionBuilder.HasOptionalArgs` | src/main/java/com/phorest/commons/cli/OptionBuilder.java:371-373 | the same as `hasOptionalArgs(UNLIMITED_VALUES)` |
| `OptionBuilder.RealOptionBuilder.HasOptionalArgsCount` | src/main/java/com/phorest/commons/cli/OptionBuilder.java:382-386 | `numberOfArgs` becomes the count and `optionalArg` true; nothing else changes |
| `OptionBuilder.RealOptionBuilder.WithType` | src/main/java/com/phorest/commons/cli/OptionBuilder.java:395-398 | sets the type only, returns the same builder |
| `OptionBuilder.RealOptionBuilder.WithDescription` | src/main/java/com/phorest/commons/cli/OptionBuilder.java:406-409 | sets the description only, returns the same builder |
| `OptionBuilder.RealOptionBuilder.Create` | src/main/java/com/phorest/commons/cli/OptionBuilder.java:417-434 | returns `Build` of the builder's fields and modifies nothing |
| `OptionBuilder.WithName` | src/main/java/com/phorest/commons/cli/OptionBuilder.java:41-43 | a fresh builder after `withName` |
| `OptionBuilder.WithShortName` | src/main/java/com/phorest/commons/cli/OptionBuilder.java:51-53 | a fresh builder after `withShortName` |
| `OptionBuilder.HasArg` | src/main/java/com/phorest/commons/cli/OptionBuilder.java:60-62 | a fresh builder after `hasArg()` |
| `OptionBuilder.HasArgFlag` | src/main/java/com/phorest/commons/cli/OptionBuilder.java:71-73 | a fresh builder after `hasArg(b)` |
| `OptionBuilder.WithArgName` | src/main/java/com/phorest/commons/cli/OptionBuilder.java:81-83 | a fresh builder after `withArgName` |
| `OptionBuilder.IsRequired` | src/main/java/com/phorest/commons/cli/OptionBuilder.java:90-92 | a fresh builder after `isRequired()` |
| `OptionBuilder.WithValueSeparator` | src/main/java/com/phorest/commons/cli/OptionBuilder.java:110-112 | a fresh builder after `withValueSeparator` |
| `OptionBuilder.IsRequiredFlag` | src/main/java/com/phorest/commons/cli/OptionBuilder.java:121-123 | a fresh builder after `isRequired(b)` |
| `OptionBuilder.HasArgs` | src/main/java/com/phorest/commons/cli/OptionBuilder.java:130-132 | a fresh builder after `hasArgs()` |
| `OptionBuilder.HasArgsCount` | src/main/java/com/phorest/commons/cli/OptionBuilder.java:140-142 | a fresh builder after `hasArgs(n)` |
| `OptionBuilder.HasOptionalArg` | src/main/java/com/phorest/commons/cli/OptionBuilder.java:149-151 | a fresh builder after `hasOptionalArg()` |
| `OptionBuilder.HasOptionalArgs` | src/main/java/com/phorest/commons/cli/OptionBuilder.java:158-160 | a fresh builder after `hasOptionalArgs()` |
| `OptionBuilder.HasOptionalArgsCount` | src/main/java/com/phorest/commons/cli/OptionBuilder.java:169-171 | a fresh builder after `hasOptionalArgs(n)` |
| `OptionBuilder.WithType` | src/main/java/com/phorest/commons/cli/OptionBuilder.java:180-182 | a fresh builder after `withType` |
| `OptionBuilder.WithDescription` | src/main/java/com/phorest/commons/cli/OptionBuilder.java:190-192 | a fresh builder after `withDescription` |
| `OptionHandler.HelpOption` | src/main/java/com/phorest/commons/cli/OptionHandler.java:26 | the registered `help` option is built by the builder: long name `help`, no short name, argument name `HELP`, no argument, not required, description "print this help message" |
| `OptionHandler.Initial` | src/main/java/com/phorest/commons/cli/OptionHandler.java:23-27 | a new handler has exactly the `help` option, no command line and `helpRequested = false` |
| `OptionHandler.AddStep` | src/main/java/com/phorest/commons/cli/OptionHandler.java:29-32 | `add` appends exactly one option at the end and changes nothing else |
| `OptionHandler.AddBuilderStep` | src/main/java/com/phorest/commons/cli/OptionHandler.java:38-40 | `add(builder)` succeeds exactly when the builder has a name, and then appends the created option, carrying that name; otherwise it throws the builder's `IllegalStateException` and leaves the handler unchanged |
| `OptionHandler.CheckRequired` | src/main/java/com/phorest/commons/cli/OptionHandler.java:130-136 | the overridden check: the flag ends set exactly when it was set or `help` is on the command line; with `help` it throws `HelpRequestedException`, otherwise the outcome is the library's own check; options and stored command line are untouched |
| `OptionHandler.ParseStep` | src/main/java/com/phorest/commons/cli/OptionHandler.java:46-49 | a parse keeps the options, sets the flag exactly when `help` reached the check, and on success returns what the library produced and stores it; on failure the stored command line is kept (case by case in `ParseCases`) |
| `OptionHandler.ParseCases` | src/main/java/com/phorest/commons/cli/OptionHandler.java:46-49 | a parse never changes the options or clears the flag; the flag is set exactly when `help` reached the check; a parse throws `HelpRequestedException` exactly when `help` reached the check, and the flag is then set; success happens exactly when processing succeeds, `help` is absent and the library check passes, and only then is the command line replaced; any other failure of the library, in processing or in its own check, is passed through unchanged and leaves the handler as it was |
| `OptionHandler.HelpIgnoresRequiredCheck` | src/main/java/com/phorest/commons/cli/OptionHandler.java:130-135 | with `help` present the outcome does not depend on the library's required-option check, and the exception is a `MissingOptionException` |
| `OptionHandler.MissingRequiredPassesThrough` | src/main/java/com/phorest/commons/cli/OptionHandler.java:135 | without `help`, the library's `MissingOptionException` comes through unchanged and nothing is stored |
| `OptionHandler.RunMonotone` | src/main/java/com/phorest/commons/cli/OptionHandler.java:21 | over any sequence of adds and parses: options are only appended, `helpRequested` once true stays true, and a stored command line is never dropped |
| `OptionHandler.HelpAlwaysRegistered` | src/main/java/com/phorest/commons/cli/OptionHandler.java:23-32 | whatever is called after construction, the `help` option stays at index 0 of the option list; in the model's append-only list a later option also keyed `help` does not displace it (the library's keyed replacement is under ## Left out) |
| `OptionHandler.NoParseNoCommandLine` | src/main/java/com/phorest/commons/cli/OptionHandler.java:51-56 | a sequence of calls with no parse leaves the stored command line and the flag as they were, so the queries stay illegal on a new handler |
| `OptionHandler.ErrorLines` | src/main/java/com/phorest/commons/cli/OptionHandler.java:76-85 | the error block is the header, then a blank line and the message only when the message is non-null, then a blank line |
| `OptionHandler.ErrorLinesRoundTrip` | src/main/java/com/phorest/commons/cli/OptionHandler.java:78-81 | the message (null, empty or not) can be read back from the error block |
| `OptionHandler.ErrorOrHelpLines` | src/main/java/com/phorest/commons/cli/OptionHandler.java:112-118 | the output ends with the usage; it is the usage alone when help was requested and the error block before the usage otherwise |
| `OptionHandler.OptionHandler.constructor` | src/main/java/com/phorest/commons/cli/OptionHandler.java:23-27 | registers `help` through the builder and leaves the handler in `Initial()` |
| `OptionHandler.OptionHandler.Add` | src/main/java/com/phorest/commons/cli/OptionHandler.java:29-32 | appends the option and returns the same handler |
| `OptionHandler.OptionHandler.AddBuilder` | src/main/java/com/phorest/commons/cli/OptionHandler.java:38-40 | `add(builder.create())`: a builder without a name throws `IllegalStateException` and nothing is added |
| `OptionHandler.OptionHandler.Parse` | src/main/java/com/phorest/commons/cli/OptionHandler.java:42-44 | the same as `parse(args, false)` |
| `OptionHandler.OptionHandler.ParseStopping` | src/main/java/com/phorest/commons/cli/OptionHandler.java:46-49 | the state and result are those of `ParseStep`; the command line is stored only when the parser returns |
| `OptionHandler.OptionHandler.CheckRequiredOptions` | src/main/java/com/phorest/commons/cli/OptionHandler.java:128-138 | with `help` present: sets `helpRequested` and throws `HelpRequestedException`; otherwise runs the library's check and changes nothing |
| `OptionHandler.OptionHandler.GetCommandLine` | src/main/java/com/phorest/commons/cli/OptionHandler.java:51-56 | throws `IllegalStateException("Parse command line first.")` exactly when no parse has succeeded, else returns the stored command line |
| `OptionHandler.OptionHandler.IsHelpRequested` | src/main/java/com/phorest/commons/cli/OptionHandler.java:58-60 | returns the handler's `helpRequested` flag, which `RunMonotone` shows never goes back to false once a parse met `help` |
| `OptionHandler.OptionHandler.GetOptionValue` | src/main/java/com/phorest/commons/cli/OptionHandler.java:120-122 | illegal exactly when no parse has succeeded; otherwise the first value of the option, or null when it has none |
| `OptionHandler.OptionHandler.HasOption` | src/main/java/com/phorest/commons/cli/OptionHandler.java:124-126 | illegal exactly when no parse has succeeded; otherwise whether the option is on the command line |
| `OptionHandler.OptionHandler.Usage` | src/main/java/com/phorest/commons/cli/OptionHandler.java:96-100 | prints the formatter's block for the registered options |
| `OptionHandler.OptionHandler.Error` | src/main/java/com/phorest/commons/cli/OptionHandler.java:76-85 | prints the error block and then the usage, in that order |
| `OptionHandler.OptionHandler.ErrorOrHelp` | src/main/java/com/phorest/commons/cli/OptionHandler.java:112-118 | prints the usage alone when help was requested, the error block and usage otherwise |
| `Scenarios.CreateChain` | src/test/java/com/phorest/commons/cli/OptionBuilderTest.java:63-75 | `withName("longName").withDescription("description").isRequired().hasArg()` creates the option the test expects, and a second `create()` gives the same option |
| `Scenarios.QueryBeforeParse` | src/test/java/com/phorest/commons/cli/OptionHandlerTest.java:83-87 | before any parse, `getCommandLine`, `getOptionValue` and `hasOption` throw `IllegalStateException` |
| `Scenarios.ParseThenQuery` | src/test/java/com/phorest/commons/cli/OptionHandlerTest.java:74-81 | after a parse that binds `domain` to `eu-west-1`, `hasOption("domain")` is true, `getOptionValue("domain")` is `eu-west-1` and help was not requested |
| `Scenarios.HelpRequested` | src/test/java/com/phorest/commons/cli/OptionHandlerTest.java:63-72 | after `add(withName("domain").create())`, parsing `--help` throws `HelpRequestedException`, sets `helpRequested`, stores nothing, and `errorOrHelp` then prints the usage only |

## Left out

- Argument tokenising, unknown options, missing argument values and the library's own required-option check belong to Commons CLI's `GnuParser`. They are the two functions of `CommonsCli.GnuParser`, passed to each parse. So how `parse(null)` behaves is up to the library. The handler's own `parser` field is not modelled; the parser is a parameter of each parse instead.
- The layout of the help text (`HelpFormatter.printHelp`, OptionHandler.java lines 97-98) is a `Formatter` parameter that maps the command syntax and options to lines. The model does not show that the usage contains each option's description.
- Output plumbing is left out: the `OutputStream` and `System.out` overloads of `error`, `usage` and `errorOrHelp`, creating and flushing `PrintWriter`s, and the two-argument `error`. A writer is the list of lines printed to it.
- The validation in the library's `Option` constructor and `Options.addOption` is left out. This covers legal short names and what registering the same name twice does. Options are a plain list. `CommonsCli.NewOption` gives the library's defaults only for fields `create()` overwrites anyway.
- The library's refusal of a null or empty command syntax is not modelled. `HelpFormatter.printHelp` throws `IllegalArgumentException` for one, after `error` has already printed its header lines (OptionHandler.java lines 77-84 and 98). Here the syntax is a plain `string` and the `Formatter` is total.
- `getOptions()` is a plain getter of the option list and has no member of its own.
- `Lang.ToUpper`: does not model locale-dependent `String.toUpperCase`. Only the ASCII letters a-z change.
- The `type` field is an opaque `Object`, carried as an uninterpreted `TypeTag`.
- Java's 32-bit `int` for `numberOfArgs` is a Dafny `int`. The model does no arithmetic on it, so the width does not matter.
- `OptionBuilderSampleApp.java` is a console program and is not part of this model.
