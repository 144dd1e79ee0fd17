/** The parts of Apache Commons CLI the wrapper hands work to, reduced to values:
    an option is a plain record, a parsed command line is a map from option
    names to their values, and the parser is a pair of functions whose insides
    belong to the library. */
module CommonsCli {
  import opened Lang

  /** `Option.UNINITIALIZED`: the option takes no argument. */
  const UNINITIALIZED: int := -1
  /** `Option.UNLIMITED_VALUES`: the option takes any number of arguments. */
  const UNLIMITED_VALUES: int := -2

  /** Stands for the `Object` an option carries as its type; nothing looks inside it. */
  datatype TypeTag = TypeTag(id: nat)

  /** `org.apache.commons.cli.Option`, as a record of what the builder sets. */
  datatype Option = Option(
    opt: Nullable<string>,
    longOpt: Nullable<string>,
    description: Nullable<string>,
    argName: string,
    required: bool,
    optionalArg: bool,
    numberOfArgs: int,
    optionType: Nullable<TypeTag>,
    valueSeparator: char)

  /** `new Option(opt, description)`: everything else at the library's defaults. */
  function NewOption(opt: Nullable<string>, description: Nullable<string>): Option
  {
    Option(opt, Null, description, "arg", false, false, UNINITIALIZED, Null, '\0')
  }

  /** `org.apache.commons.cli.CommandLine`: the options present, each with its values. */
  datatype CommandLine = CommandLine(values: map<string, seq<string>>)
  {
    predicate HasOption(name: string) {
      name in values
    }

    /** The first value of `name`, or null when it is absent or has none. */
    function GetOptionValue(name: string): Nullable<string> {
      if name in values && values[name] != [] then NonNull(values[name][0]) else Null
    }
  }

  /** The checked exceptions a parse may throw. `HelpRequestedException` is the
      wrapper's own subclass of `MissingOptionException`. */
  datatype ParseException =
    | HelpRequestedException(message: string)
    | MissingOptionException(missing: seq<string>)
    | OtherParseException(message: string)
  {
    /** Whether a `catch (MissingOptionException e)` catches it. */
    predicate IsMissingOption() {
      HelpRequestedException? || MissingOptionException?
    }
  }

  /** What the library itself throws. `HelpRequestedException` has a private
      constructor and only the wrapper's overridden check creates it, so the
      library never reports one. */
  type LibraryException = e: ParseException | !e.HelpRequestedException? witness OtherParseException("")

  /** A parser of the library. `process` is the whole of `Parser.parse` up to
      its call of `checkRequiredOptions()` (tokenising, unknown options, missing
      values); `checkRequiredOptions` is the library's own required-option check,
      which the wrapper's subclass may run after its own test. */
  datatype GnuParser = GnuParser(
    process: (seq<Option>, Nullable<seq<string>>, bool) -> Result<CommandLine, LibraryException>,
    checkRequiredOptions: (seq<Option>, CommandLine) -> Outcome<LibraryException>)
}
