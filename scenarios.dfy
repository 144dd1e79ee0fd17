/** Client code in the shape of the unit tests: what a caller of the builder and
    the handler can prove from their contracts alone, given how the library's
    parser treats the arguments. */
module Scenarios {
  import opened Lang
  import opened CommonsCli
  import OptionBuilder
  import opened OptionHandler

  /** `withName("domain").hasArg()` created, as the tests register it. */
  function DomainOption(): (o: Option)
    ensures o.longOpt == NonNull("domain") && o.numberOfArgs == 1
  {
    OptionBuilder.Build(OptionBuilder.Apply(OptionBuilder.Apply(OptionBuilder.Fresh(),
      OptionBuilder.SetName(NonNull("domain"))), OptionBuilder.SetHasArg(true))).value
  }

  /** `withName("domain").create()`, as the help test registers it: no argument. */
  function PlainDomainOption(): (o: Option)
    ensures o.longOpt == NonNull("domain") && o.numberOfArgs == UNINITIALIZED
  {
    OptionBuilder.Build(OptionBuilder.Apply(OptionBuilder.Fresh(), OptionBuilder.SetName(NonNull("domain")))).value
  }

  /** A fluent chain and then `create()` twice: the option carries every setting
      of the chain, and the second `create()` gives the same option. */
  method CreateChain() returns (first: Result<Option, IllegalStateException>, second: Result<Option, IllegalStateException>)
    ensures first == second
    ensures first.Success? && first.value.longOpt == NonNull("longName")
    ensures first.value.required && first.value.numberOfArgs == 1 && !first.value.optionalArg
    ensures first.value.description == NonNull("description") && first.value.argName == "LONGNAME"
  {
    var b := OptionBuilder.WithName(NonNull("longName"));
    b := b.WithDescription(NonNull("description"));
    b := b.IsRequired();
    b := b.HasArg();
    assert ToUpper("longName") == "LONGNAME";
    first := b.Create();
    second := b.Create();
  }

  /** Before any parse the queries throw `IllegalStateException`, and no help
      has been requested. */
  method QueryBeforeParse() returns (cmd: Result<CommandLine, IllegalStateException>,
                                     value: Result<Nullable<string>, IllegalStateException>,
                                     present: Result<bool, IllegalStateException>,
                                     help: bool)
    ensures cmd == Failure(IllegalStateException(PARSE_FIRST))
    ensures value == Failure(IllegalStateException(PARSE_FIRST))
    ensures present == Failure(IllegalStateException(PARSE_FIRST))
    ensures !help
  {
    var handler := new OptionHandler();
    var domain := OptionBuilder.WithName(NonNull("domain"));
    domain := domain.HasArg();
    var added := handler.AddBuilder(domain);
    cmd := handler.GetCommandLine();
    value := handler.GetOptionValue("unknown");
    present := handler.HasOption("domain");
    help := handler.IsHelpRequested();
  }

  /** `parse(["--domain", "eu-west-1"])` with a parser that binds the value:
      the value is available afterwards and help was not requested. */
  method ParseThenQuery(parser: GnuParser) returns (help: bool, present: Result<bool, IllegalStateException>,
                                                   value: Result<Nullable<string>, IllegalStateException>)
    requires parser.process([HelpOption(), DomainOption()], NonNull(["--domain", "eu-west-1"]), false)
             == Success(CommandLine(map["domain" := ["eu-west-1"]]))
    requires parser.checkRequiredOptions([HelpOption(), DomainOption()], CommandLine(map["domain" := ["eu-west-1"]])) == Pass
    ensures !help
    ensures present == Success(true)
    ensures value == Success(NonNull("eu-west-1"))
  {
    var handler := new OptionHandler();
    var domain := OptionBuilder.WithName(NonNull("domain"));
    domain := domain.HasArg();
    var added := handler.AddBuilder(domain);
    assert handler.options == [HelpOption(), DomainOption()];
    ghost var cl := CommandLine(map["domain" := ["eu-west-1"]]);
    assert !cl.HasOption(HELP_OPTION);
    var parsed := handler.Parse(parser, NonNull(["--domain", "eu-west-1"]));
    assert handler.commandLine == NonNull(cl);
    help := handler.IsHelpRequested();
    present := handler.HasOption("domain");
    value := handler.GetOptionValue("domain");
  }

  /** `add(withName("domain").create())` and then `parse(["--help"])` with a
      parser that reports `help` present: the parse throws
      `HelpRequestedException`, a `MissingOptionException`, help is flagged,
      nothing is stored, and `errorOrHelp` then prints only the usage. */
  method HelpRequested(parser: GnuParser, formatter: Formatter)
    returns (parsed: Result<CommandLine, ParseException>, help: bool,
             cmd: Result<CommandLine, IllegalStateException>, output: seq<string>)
    requires parser.process([HelpOption(), PlainDomainOption()], NonNull(["--help"]), false)
             == Success(CommandLine(map["help" := []]))
    ensures parsed.Failure? && parsed.error.HelpRequestedException? && parsed.error.IsMissingOption()
    ensures help
    ensures cmd.Failure?
    ensures output == formatter("syntax", [HelpOption(), PlainDomainOption()])
  {
    var handler := new OptionHandler();
    var b := OptionBuilder.WithName(NonNull("domain"));
    var domain := b.Create();
    var added := handler.Add(domain.value);
    assert handler.options == [HelpOption(), PlainDomainOption()];
    assert CommandLine(map["help" := []]).HasOption(HELP_OPTION);
    parsed := handler.Parse(parser, NonNull(["--help"]));
    help := handler.IsHelpRequested();
    cmd := handler.GetCommandLine();
    var pw := new PrintWriter();
    handler.ErrorOrHelp(pw, "syntax", NonNull("message"), formatter);
    output := pw.lines;
  }
}
