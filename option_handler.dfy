/** `OptionHandler`: a list of options that always starts with `help`, a parser
    whose required-option check gives way to `--help`, the command line of the
    last successful parse, and the error and usage output built on them.

    The handler's state is also given as a value (`HandlerState`) with one step
    function per operation, so that lemmas can speak of whole sequences of calls;
    the class's methods are proved against those step functions. */
module OptionHandler {
  import opened Lang
  import opened CommonsCli
  import OptionBuilder

  const HELP_OPTION: string := "help"
  const HELP_DESCRIPTION: string := "print this help message"
  const PARSE_FIRST: string := "Parse command line first."
  const FAILED_TO_PARSE: string := "Failed to parse command line."
  /** The message of a `HelpRequestedException`. */
  const HELP_WAS_PROVIDED: string := "--help was provided"

  /** The settings the constructor gives the `help` option. */
  function HelpSettings(): OptionBuilder.Settings
  {
    OptionBuilder.Apply(OptionBuilder.Apply(OptionBuilder.Fresh(), OptionBuilder.SetName(NonNull(HELP_OPTION))),
                        OptionBuilder.SetDescription(NonNull(HELP_DESCRIPTION)))
  }

  /** The option the constructor registers: named `help`, no argument, not
      required, with its fixed description. */
  function HelpOption(): (o: Option)
    ensures OptionBuilder.Build(HelpSettings()) == Success(o)
    ensures o.longOpt == NonNull(HELP_OPTION) && o.opt.Null?
    ensures o.description == NonNull(HELP_DESCRIPTION) && o.argName == "HELP"
    ensures o.numberOfArgs == UNINITIALIZED && !o.optionalArg && !o.required
  {
    assert ToUpper(HELP_OPTION) == "HELP";
    OptionBuilder.Build(HelpSettings()).value
  }

  /** The fields of an `OptionHandler` (the parser is passed to each parse). */
  datatype HandlerState = HandlerState(
    options: seq<Option>,
    commandLine: Nullable<CommandLine>,
    helpRequested: bool)

  /** The state right after `new OptionHandler()`. */
  function Initial(): (st: HandlerState)
    ensures st.options == [HelpOption()] && st.commandLine.Null? && !st.helpRequested
  {
    HandlerState([HelpOption()], Null, false)
  }

  /** The overridden `checkRequiredOptions()`: `help` on the command line sets
      the flag and throws before the library's own check gets to run. */
  function CheckRequired(st: HandlerState, parser: GnuParser, cmd: CommandLine): (r: (HandlerState, Outcome<ParseException>))
    ensures r.0.options == st.options && r.0.commandLine == st.commandLine
    ensures r.0.helpRequested <==> st.helpRequested || cmd.HasOption(HELP_OPTION)
    ensures cmd.HasOption(HELP_OPTION) ==> r.1 == Fail(HelpRequestedException(HELP_WAS_PROVIDED))
    ensures !cmd.HasOption(HELP_OPTION) ==> r.1 == parser.checkRequiredOptions(st.options, cmd)
  {
    if cmd.HasOption(HELP_OPTION) then
      (st.(helpRequested := true), Fail(HelpRequestedException(HELP_WAS_PROVIDED)))
    else
      (st, parser.checkRequiredOptions(st.options, cmd))
  }

  /** `parse(args, stopAtNonOption)`: the library processes the arguments, the
      overridden check runs, and only a parse that gets through both is stored. */
  function ParseStep(st: HandlerState, parser: GnuParser, args: Nullable<seq<string>>, stopAtNonOption: bool)
    : (r: (HandlerState, Result<CommandLine, ParseException>))
    ensures r.0.options == st.options
    ensures r.0.helpRequested <==> st.helpRequested || SawHelp(st, parser, args, stopAtNonOption)
    ensures r.1.Success? ==> parser.process(st.options, args, stopAtNonOption) == r.1
    ensures r.1.Success? ==> r.0.commandLine == NonNull(r.1.value)
    ensures r.1.Failure? ==> r.0.commandLine == st.commandLine
  {
    match parser.process(st.options, args, stopAtNonOption)
    case Failure(e) => (st, Failure(e))
    case Success(cmd) =>
      var (st', check) := CheckRequired(st, parser, cmd);
      match check
      case Fail(e) => (st', Failure(e))
      case Pass => (st'.(commandLine := NonNull(cmd)), Success(cmd))
  }

  /** `add(option)`: the option goes at the end of the list. */
  function AddStep(st: HandlerState, o: Option): (st': HandlerState)
    ensures st'.options == st.options + [o]
    ensures st'.commandLine == st.commandLine && st'.helpRequested == st.helpRequested
  {
    st.(options := st.options + [o])
  }

  /** `add(builder)`: the option `create()` gives, or its exception and no change. */
  function AddBuilderStep(st: HandlerState, settings: OptionBuilder.Settings)
    : (r: (HandlerState, Outcome<IllegalStateException>))
    ensures r.1.Pass? <==> settings.optionName.NonNull?
    ensures r.1.Pass? ==> r.0 == AddStep(st, OptionBuilder.Build(settings).value) && r.0.options[|st.options|].longOpt == settings.optionName
    ensures r.1.Fail? ==> r.0 == st && r.1.error == IllegalStateException(OptionBuilder.NAME_NOT_PROVIDED)
  {
    match OptionBuilder.Build(settings)
    case Failure(e) => (st, Fail(e))
    case Success(o) => (AddStep(st, o), Pass)
  }

  /** Whether a parse that reached the overridden check found `help` there. */
  predicate SawHelp(st: HandlerState, parser: GnuParser, args: Nullable<seq<string>>, stopAtNonOption: bool)
  {
    var p := parser.process(st.options, args, stopAtNonOption);
    p.Success? && p.value.HasOption(HELP_OPTION)
  }

  /** What a parse does, case by case: a failure of the library's processing
      changes nothing; `help` sets the flag and throws `HelpRequestedException`
      whatever the library's required check would say; otherwise the library's
      required check decides, and only success stores the command line. The
      options never change, and the flag is never cleared. Since the library
      never throws `HelpRequestedException`, a parse throws it exactly when
      `help` reached the check, and then the flag is set. Any other failure of
      the library, in processing or in its own check, reaches the caller
      unchanged and leaves the handler as it was. */
  lemma ParseCases(st: HandlerState, parser: GnuParser, args: Nullable<seq<string>>, stopAtNonOption: bool)
    ensures var (st', r) := ParseStep(st, parser, args, stopAtNonOption);
      && st'.options == st.options
      && (st'.helpRequested <==> st.helpRequested || SawHelp(st, parser, args, stopAtNonOption))
      && (SawHelp(st, parser, args, stopAtNonOption) ==>
            r == Failure(HelpRequestedException(HELP_WAS_PROVIDED)) && st'.commandLine == st.commandLine)
      && (r.Success? <==>
            parser.process(st.options, args, stopAtNonOption).Success? &&
            !SawHelp(st, parser, args, stopAtNonOption) &&
            parser.checkRequiredOptions(st.options, parser.process(st.options, args, stopAtNonOption).value).Pass?)
      && (r.Success? ==>
            r.value == parser.process(st.options, args, stopAtNonOption).value &&
            st'.commandLine == NonNull(r.value))
      && (r.Failure? ==> st'.commandLine == st.commandLine)
      && (r.Failure? && r.error.HelpRequestedException? <==> SawHelp(st, parser, args, stopAtNonOption))
      && (r.Failure? && r.error.HelpRequestedException? ==> st'.helpRequested)
      && (parser.process(st.options, args, stopAtNonOption).Failure? ==>
            r == Failure(parser.process(st.options, args, stopAtNonOption).error) && st' == st)
      && (parser.process(st.options, args, stopAtNonOption).Success? && !SawHelp(st, parser, args, stopAtNonOption) &&
          parser.checkRequiredOptions(st.options, parser.process(st.options, args, stopAtNonOption).value).Fail? ==>
            r == Failure(parser.checkRequiredOptions(st.options, parser.process(st.options, args, stopAtNonOption).value).error) &&
            st' == st)
  {
  }

  /** `help` wins over every required option: two parsers that process the
      arguments alike give the same outcome when `help` is present, however
      their required-option checks differ. */
  lemma HelpIgnoresRequiredCheck(st: HandlerState, p1: GnuParser, p2: GnuParser,
                                 args: Nullable<seq<string>>, stopAtNonOption: bool)
    requires p1.process(st.options, args, stopAtNonOption) == p2.process(st.options, args, stopAtNonOption)
    requires SawHelp(st, p1, args, stopAtNonOption)
    ensures ParseStep(st, p1, args, stopAtNonOption) == ParseStep(st, p2, args, stopAtNonOption)
    ensures ParseStep(st, p1, args, stopAtNonOption).1.error.IsMissingOption()
  {
  }

  /** Without `help`, a missing required option reported by the library comes
      through unchanged, and it is not a `HelpRequestedException`. */
  lemma MissingRequiredPassesThrough(st: HandlerState, parser: GnuParser, args: Nullable<seq<string>>,
                                     stopAtNonOption: bool, missing: seq<string>)
    requires parser.process(st.options, args, stopAtNonOption).Success?
    requires !SawHelp(st, parser, args, stopAtNonOption)
    requires parser.checkRequiredOptions(st.options, parser.process(st.options, args, stopAtNonOption).value)
             == Fail(MissingOptionException(missing))
    ensures ParseStep(st, parser, args, stopAtNonOption) == (st, Failure(MissingOptionException(missing)))
  {
  }

  // ---------------------------------------------------------------------------
  // Sequences of calls

  datatype HandlerCall =
    | AddCall(option: Option)
    | AddBuilderCall(settings: OptionBuilder.Settings)
    | ParseCall(args: Nullable<seq<string>>, stopAtNonOption: bool)

  function Step(st: HandlerState, parser: GnuParser, c: HandlerCall): HandlerState
  {
    match c
    case AddCall(o) => AddStep(st, o)
    case AddBuilderCall(settings) => AddBuilderStep(st, settings).0
    case ParseCall(args, stop) => ParseStep(st, parser, args, stop).0
  }

  function Run(st: HandlerState, parser: GnuParser, calls: seq<HandlerCall>): HandlerState
    decreases |calls|
  {
    if calls == [] then st else Run(Step(st, parser, calls[0]), parser, calls[1..])
  }

  /** Over any sequence of calls: options are only appended, `helpRequested`
      once true stays true, and once a parse has succeeded there is always a
      stored command line. */
  lemma {:induction false} RunMonotone(st: HandlerState, parser: GnuParser, calls: seq<HandlerCall>)
    ensures st.options <= Run(st, parser, calls).options
    ensures st.helpRequested ==> Run(st, parser, calls).helpRequested
    ensures st.commandLine.NonNull? ==> Run(st, parser, calls).commandLine.NonNull?
    decreases |calls|
  {
    if calls != [] {
      var st1 := Step(st, parser, calls[0]);
      if calls[0].ParseCall? {
        ParseCases(st, parser, calls[0].args, calls[0].stopAtNonOption);
      }
      RunMonotone(st1, parser, calls[1..]);
    }
  }

  /** Whatever is called after construction, `help` stays the first option. */
  lemma HelpAlwaysRegistered(parser: GnuParser, calls: seq<HandlerCall>)
    ensures |Run(Initial(), parser, calls).options| >= 1
    ensures Run(Initial(), parser, calls).options[0] == HelpOption()
  {
    RunMonotone(Initial(), parser, calls);
  }

  /** A sequence without a successful parse leaves the stored command line as it
      was, so the queries stay illegal on a new handler. */
  lemma {:induction false} NoParseNoCommandLine(st: HandlerState, parser: GnuParser, calls: seq<HandlerCall>)
    requires forall j :: 0 <= j < |calls| ==> !calls[j].ParseCall?
    ensures Run(st, parser, calls).commandLine == st.commandLine
    ensures Run(st, parser, calls).helpRequested == st.helpRequested
    decreases |calls|
  {
    if calls != [] {
      assert !calls[0].ParseCall?;
      NoParseNoCommandLine(Step(st, parser, calls[0]), parser, calls[1..]);
    }
  }

  // ---------------------------------------------------------------------------
  // Output

  /** The lines `error` prints before the usage: the header, then a blank line
      and the message when there is one, then a blank line. */
  function ErrorLines(errorMessage: Nullable<string>): (lines: seq<string>)
    ensures |lines| >= 2 && lines[0] == FAILED_TO_PARSE && lines[|lines| - 1] == ""
    ensures errorMessage.Null? ==> |lines| == 2
    ensures errorMessage.NonNull? ==> |lines| == 4 && lines[1] == "" && lines[2] == errorMessage.value
  {
    [FAILED_TO_PARSE] + (if errorMessage.NonNull? then ["", errorMessage.value] else []) + [""]
  }

  /** The message an error block reports, read back from its lines. */
  function MessageOf(lines: seq<string>): Nullable<string>
  {
    if |lines| == 4 then NonNull(lines[2]) else Null
  }

  /** The error block tells a missing message apart from every message, the
      empty one included. */
  lemma ErrorLinesRoundTrip(errorMessage: Nullable<string>)
    ensures MessageOf(ErrorLines(errorMessage)) == errorMessage
  {
  }

  /** What `errorOrHelp` prints: the usage alone once help was requested,
      otherwise the error block followed by the usage. */
  function ErrorOrHelpLines(helpRequested: bool, errorMessage: Nullable<string>, usage: seq<string>): (lines: seq<string>)
    ensures |usage| <= |lines| && lines[|lines| - |usage|..] == usage
    ensures helpRequested ==> lines == usage
    ensures !helpRequested ==> lines[..|lines| - |usage|] == ErrorLines(errorMessage)
  {
    if helpRequested then usage else ErrorLines(errorMessage) + usage
  }

  /** `HelpFormatter.printHelp(pw, 80, syntax, "\nOptions:", options, 0, 0, null, false)`:
      the layout belongs to the library, so it is a parameter. */
  type Formatter = (string, seq<Option>) -> seq<string>

  // ---------------------------------------------------------------------------
  // The handler object

  class OptionHandler {
    var options: seq<Option>
    var commandLine: Nullable<CommandLine>
    var helpRequested: bool

    function State(): HandlerState
      reads this
    {
      HandlerState(options, commandLine, helpRequested)
    }

    /** Registers `help` through the builder, as `add(withName("help").withDescription(...))`. */
    constructor ()
      ensures State() == Initial()
    {
      options := [];
      commandLine := Null;
      helpRequested := false;
      new;
      var b := OptionBuilder.WithName(NonNull(HELP_OPTION));
      b := b.WithDescription(NonNull(HELP_DESCRIPTION));
      var added := AddBuilder(b);
    }

    /** `add(Option)`. */
    method Add(option: Option) returns (h: OptionHandler)
      modifies this
      ensures h == this
      ensures State() == AddStep(old(State()), option)
    {
      options := options + [option];
      h := this;
    }

    /** `add(RealOptionBuilder)`: `add(builder.create())`, so a builder without
        a name throws here and nothing is added. */
    method AddBuilder(builder: OptionBuilder.RealOptionBuilder) returns (r: Result<OptionHandler, IllegalStateException>)
      modifies this
      ensures (State(), if r.Success? then Pass else Fail(r.error)) == AddBuilderStep(old(State()), builder.State())
      ensures r.Success? ==> r.value == this
    {
      var created := builder.Create();
      if created.Failure? {
        return Failure(created.error);
      }
      var h := Add(created.value);
      r := Success(h);
    }

    /** `parse(args)`: the same as `parse(args, false)`. */
    method Parse(parser: GnuParser, args: Nullable<seq<string>>) returns (r: Result<CommandLine, ParseException>)
      modifies this
      ensures (State(), r) == ParseStep(old(State()), parser, args, false)
    {
      r := ParseStopping(parser, args, false);
    }

    /** `parse(args, stopAtNonOption)`: the command line is assigned only when the
        parser returns. */
    method ParseStopping(parser: GnuParser, args: Nullable<seq<string>>, stopAtNonOption: bool)
      returns (r: Result<CommandLine, ParseException>)
      modifies this
      ensures (State(), r) == ParseStep(old(State()), parser, args, stopAtNonOption)
      ensures old(helpRequested) ==> helpRequested
    {
      var processed := parser.process(options, args, stopAtNonOption);
      if processed.Failure? {
        return Failure(processed.error);
      }
      var check := CheckRequiredOptions(parser, processed.value);
      if check.Fail? {
        return Failure(check.error);
      }
      commandLine := NonNull(processed.value);
      r := Success(processed.value);
    }

    /** `OptionParser.checkRequiredOptions()`. */
    method CheckRequiredOptions(parser: GnuParser, cmd: CommandLine) returns (o: Outcome<ParseException>)
      modifies this
      ensures (State(), o) == CheckRequired(old(State()), parser, cmd)
    {
      if cmd.HasOption(HELP_OPTION) {
        helpRequested := true;
        return Fail(HelpRequestedException(HELP_WAS_PROVIDED));
      }
      o := parser.checkRequiredOptions(options, cmd);
    }

    /** `getCommandLine()`: illegal until a parse has succeeded. */
    function GetCommandLine(): (r: Result<CommandLine, IllegalStateException>)
      reads this
      ensures r.Failure? <==> commandLine.Null?
      ensures r.Failure? ==> r.error == IllegalStateException(PARSE_FIRST)
      ensures r.Success? ==> commandLine == NonNull(r.value)
    {
      if commandLine.Null? then Failure(IllegalStateException(PARSE_FIRST)) else Success(commandLine.value)
    }

    /** `isHelpRequested()`: whether a parse has met `help` on its command line. */
    function IsHelpRequested(): (r: bool)
      reads this
      ensures r == helpRequested
    {
      helpRequested
    }

    /** `getOptionValue(name)`: the first value of `name` on the stored command
        line; illegal until a parse has succeeded. */
    function GetOptionValue(name: string): (r: Result<Nullable<string>, IllegalStateException>)
      reads this
      ensures r.Failure? <==> commandLine.Null?
      ensures r.Failure? ==> r.error == IllegalStateException(PARSE_FIRST)
      ensures r.Success? && r.value.NonNull? ==>
        name in commandLine.value.values && commandLine.value.values[name] != [] &&
        r.value.value == commandLine.value.values[name][0]
      ensures r.Success? && r.value.Null? ==>
        name !in commandLine.value.values || commandLine.value.values[name] == []
    {
      match GetCommandLine()
      case Failure(e) => Failure(e)
      case Success(cmd) => Success(cmd.GetOptionValue(name))
    }

    /** `hasOption(name)`: whether `name` is on the stored command line; illegal
        until a parse has succeeded. */
    function HasOption(name: string): (r: Result<bool, IllegalStateException>)
      reads this
      ensures r.Failure? <==> commandLine.Null?
      ensures r.Failure? ==> r.error == IllegalStateException(PARSE_FIRST)
      ensures r.Success? ==> (r.value <==> name in commandLine.value.values)
    {
      match GetCommandLine()
      case Failure(e) => Failure(e)
      case Success(cmd) => Success(cmd.HasOption(name))
    }

    /** `usage(pw, commandSyntax)`. */
    method Usage(pw: PrintWriter, commandSyntax: string, formatter: Formatter)
      modifies pw
      ensures pw.lines == old(pw.lines) + formatter(commandSyntax, options)
    {
      pw.PrintLines(formatter(commandSyntax, options));
    }

    /** `error(pw, commandSyntax, errorMessage)`. */
    method Error(pw: PrintWriter, commandSyntax: string, errorMessage: Nullable<string>, formatter: Formatter)
      modifies pw
      ensures pw.lines == old(pw.lines) + ErrorLines(errorMessage) + formatter(commandSyntax, options)
    {
      pw.Println(FAILED_TO_PARSE);
      if errorMessage.NonNull? {
        pw.Println("");
        pw.Println(errorMessage.value);
      }
      pw.Println("");
      Usage(pw, commandSyntax, formatter);
    }

    /** `errorOrHelp(pw, commandSyntax, errorMessage)`. */
    method ErrorOrHelp(pw: PrintWriter, commandSyntax: string, errorMessage: Nullable<string>, formatter: Formatter)
      modifies pw
      ensures pw.lines == old(pw.lines) + ErrorOrHelpLines(helpRequested, errorMessage, formatter(commandSyntax, options))
    {
      if IsHelpRequested() {
        Usage(pw, commandSyntax, formatter);
      } else {
        Error(pw, commandSyntax, errorMessage, formatter);
      }
    }
  }
}
