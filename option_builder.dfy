/** `OptionBuilder` and its `RealOptionBuilder`: a mutable accumulator of option
    settings with chainable setters, finished by `create()`.

    The accumulated state is given as a value (`Settings`), every setter as a
    `Setter` applied to it, and `create()` as `Build`; the class's methods are
    proved against these, and the lemmas below state what any chain of setter
    calls leads to. */
module OptionBuilder {
  import opened Lang
  import opened CommonsCli

  const NAME_NOT_PROVIDED: string := "Option name not provided (must call withName())"

  /** The nine fields of a `RealOptionBuilder`. */
  datatype Settings = Settings(
    optionName: Nullable<string>,
    shortName: Nullable<string>,
    description: Nullable<string>,
    argumentName: Nullable<string>,
    required: bool,
    numberOfArgs: int,
    optionType: Nullable<TypeTag>,
    optionalArg: bool,
    valueSeparator: char)

  /** The field values of `new RealOptionBuilder()`: Java's defaults, except
      that `numberOfArgs` starts at `UNINITIALIZED`. */
  function Fresh(): (s: Settings)
    ensures s.optionName.Null? && s.shortName.Null? && s.description.Null?
    ensures s.argumentName.Null? && s.optionType.Null? && s.valueSeparator == '\0'
    ensures !s.required && !s.optionalArg && s.numberOfArgs == UNINITIALIZED
  {
    Settings(Null, Null, Null, Null, false, UNINITIALIZED, Null, false, '\0')
  }

  /** The primitive setters. The overloads without arguments are these with a
      fixed argument: `hasArg()` is `SetHasArg(true)`, `isRequired()` is
      `SetRequired(true)`, `hasArgs()` is `SetArgs(UNLIMITED_VALUES)`,
      `hasOptionalArg()` is `SetOptionalArgs(1)` and `hasOptionalArgs()` is
      `SetOptionalArgs(UNLIMITED_VALUES)`. */
  datatype Setter =
    | SetName(name: Nullable<string>)
    | SetShortName(shortName: Nullable<string>)
    | SetHasArg(hasArg: bool)
    | SetArgName(argName: Nullable<string>)
    | SetRequired(newRequired: bool)
    | SetValueSeparator(sep: char)
    | SetArgs(num: int)
    | SetOptionalArgs(numArgs: int)
    | SetType(newType: Nullable<TypeTag>)
    | SetDescription(newDescription: Nullable<string>)

  /** What one setter call does to the builder's fields. */
  function Apply(s: Settings, c: Setter): (r: Settings)
    ensures forall f :: f !in Touches(c) ==> Get(r, f) == Get(s, f)
    ensures r.optionalArg <==> s.optionalArg || c.SetOptionalArgs?
  {
    match c
    case SetName(name) => s.(optionName := name)
    case SetShortName(shortName) => s.(shortName := shortName)
    case SetHasArg(hasArg) => s.(numberOfArgs := if hasArg then 1 else UNINITIALIZED)
    case SetArgName(name) => s.(argumentName := name)
    case SetRequired(newRequired) => s.(required := newRequired)
    case SetValueSeparator(sep) => s.(valueSeparator := sep)
    case SetArgs(num) => s.(numberOfArgs := num)
    case SetOptionalArgs(numArgs) => s.(numberOfArgs := numArgs, optionalArg := true)
    case SetType(newType) => s.(optionType := newType)
    case SetDescription(newDescription) => s.(description := newDescription)
  }

  /** A chain of setter calls, left to right. */
  function ApplyAll(s: Settings, cs: seq<Setter>): Settings
    decreases |cs|
  {
    if cs == [] then s else ApplyAll(Apply(s, cs[0]), cs[1..])
  }

  /** `create()`: fails when no name was given; otherwise a new option carrying
      the short name and description, then the long name, required flag,
      optional-argument flag, argument count, type, separator and argument name. */
  function Build(s: Settings): (r: Result<Option, IllegalStateException>)
    ensures r.Failure? <==> s.optionName.Null?
    ensures r.Failure? ==> r.error == IllegalStateException(NAME_NOT_PROVIDED)
    ensures r.Success? ==>
      var o := r.value;
      o.longOpt == s.optionName && o.opt == s.shortName && o.description == s.description &&
      o.required == s.required && o.optionalArg == s.optionalArg &&
      o.numberOfArgs == s.numberOfArgs && o.optionType == s.optionType &&
      o.valueSeparator == s.valueSeparator
    ensures r.Success? && s.argumentName.NonNull? ==> r.value.argName == s.argumentName.value
    ensures r.Success? && s.argumentName.Null? ==> r.value.argName == ToUpper(s.optionName.value)
  {
    if s.optionName.Null? then
      Failure(IllegalStateException(NAME_NOT_PROVIDED))
    else
      var name := s.optionName.value;
      var o := NewOption(s.shortName, s.description);
      Success(o.(longOpt := s.optionName, required := s.required, optionalArg := s.optionalArg,
                 numberOfArgs := s.numberOfArgs, optionType := s.optionType,
                 valueSeparator := s.valueSeparator,
                 argName := if s.argumentName.NonNull? then s.argumentName.value else ToUpper(name)))
  }

  /** The settings an option records, with its argument name as if set explicitly. */
  function SettingsOf(o: Option): Settings
  {
    Settings(o.longOpt, o.opt, o.description, NonNull(o.argName), o.required,
             o.numberOfArgs, o.optionType, o.optionalArg, o.valueSeparator)
  }

  /** `create()` loses nothing but whether the argument name was defaulted: the
      settings can be read back from the option, and setting the defaulted name
      explicitly builds the same option. */
  lemma BuildRoundTrip(s: Settings)
    requires s.optionName.NonNull?
    ensures Build(s).Success?
    ensures SettingsOf(Build(s).value) == s.(argumentName := NonNull(Build(s).value.argName))
    ensures Build(SettingsOf(Build(s).value)) == Build(s)
  {
  }

  /** Every option with a long name is what some builder creates. */
  lemma BuildSurjective(o: Option)
    requires o.longOpt.NonNull?
    ensures Build(SettingsOf(o)) == Success(o)
  {
  }

  // ---------------------------------------------------------------------------
  // Which fields a setter writes

  datatype Field =
    | OptionName | ShortName | Description | ArgumentName | Required
    | NumberOfArgs | OptionType | OptionalArg | ValueSeparator

  datatype FieldValue =
    | Text(text: Nullable<string>)
    | Flag(flag: bool)
    | Count(count: int)
    | TypeValue(tag: Nullable<TypeTag>)
    | CharValue(ch: char)

  function Get(s: Settings, f: Field): FieldValue
  {
    match f
    case OptionName => Text(s.optionName)
    case ShortName => Text(s.shortName)
    case Description => Text(s.description)
    case ArgumentName => Text(s.argumentName)
    case Required => Flag(s.required)
    case NumberOfArgs => Count(s.numberOfArgs)
    case OptionType => TypeValue(s.optionType)
    case OptionalArg => Flag(s.optionalArg)
    case ValueSeparator => CharValue(s.valueSeparator)
  }

  /** The fields a setter assigns. Only the optional-argument setters write two. */
  function Touches(c: Setter): set<Field>
  {
    match c
    case SetName(_) => {OptionName}
    case SetShortName(_) => {ShortName}
    case SetHasArg(_) => {NumberOfArgs}
    case SetArgName(_) => {ArgumentName}
    case SetRequired(_) => {Required}
    case SetValueSeparator(_) => {ValueSeparator}
    case SetArgs(_) => {NumberOfArgs}
    case SetOptionalArgs(_) => {NumberOfArgs, OptionalArg}
    case SetType(_) => {OptionType}
    case SetDescription(_) => {Description}
  }

  /** A setter leaves every field it does not touch as it was, and what it
      writes to a field it touches does not depend on the state before. */
  lemma ApplyFrame(s: Settings, t: Settings, c: Setter, f: Field)
    ensures f !in Touches(c) ==> Get(Apply(s, c), f) == Get(s, f)
    ensures f in Touches(c) ==> Get(Apply(s, c), f) == Get(Apply(t, c), f)
  {
  }

  /** Two setters that write disjoint fields can be called in either order. */
  lemma DisjointSettersCommute(s: Settings, c1: Setter, c2: Setter)
    requires Touches(c1) !! Touches(c2)
    ensures Apply(Apply(s, c1), c2) == Apply(Apply(s, c2), c1)
  {
  }

  /** A later setter that writes every field an earlier one wrote overrides it. */
  lemma LaterSetterOverrides(s: Settings, c1: Setter, c2: Setter)
    requires Touches(c1) <= Touches(c2)
    ensures Apply(Apply(s, c1), c2) == Apply(s, c2)
  {
  }

  /** A field no call in the chain touches keeps its value. */
  lemma {:induction false} UntouchedFieldKept(s: Settings, cs: seq<Setter>, f: Field)
    requires forall j :: 0 <= j < |cs| ==> f !in Touches(cs[j])
    ensures Get(ApplyAll(s, cs), f) == Get(s, f)
    decreases |cs|
  {
    if cs != [] {
      ApplyFrame(s, s, cs[0], f);
      UntouchedFieldKept(Apply(s, cs[0]), cs[1..], f);
    }
  }

  /** The last setter call that writes a field decides its value. */
  lemma {:induction false} LastWriterWins(s: Settings, cs: seq<Setter>, i: nat, f: Field)
    requires i < |cs| && f in Touches(cs[i])
    requires forall j :: i < j < |cs| ==> f !in Touches(cs[j])
    ensures Get(ApplyAll(s, cs), f) == Get(Apply(s, cs[i]), f)
    decreases |cs|
  {
    if i == 0 {
      UntouchedFieldKept(Apply(s, cs[0]), cs[1..], f);
    } else {
      LastWriterWins(Apply(s, cs[0]), cs[1..], i - 1, f);
      ApplyFrame(Apply(s, cs[0]), s, cs[i], f);
    }
  }

  /** Once switched on, `optionalArg` stays on whatever setters follow. */
  lemma {:induction false} OptionalArgNeverCleared(s: Settings, cs: seq<Setter>)
    requires s.optionalArg
    ensures ApplyAll(s, cs).optionalArg
    decreases |cs|
  {
    if cs != [] {
      OptionalArgNeverCleared(Apply(s, cs[0]), cs[1..]);
    }
  }

  /** After a chain of calls `optionalArg` is on exactly when it was on before
      or one of the optional-argument setters was called. */
  lemma {:induction false} OptionalArgExactly(s: Settings, cs: seq<Setter>)
    ensures ApplyAll(s, cs).optionalArg <==>
      s.optionalArg || exists j :: 0 <= j < |cs| && cs[j].SetOptionalArgs?
    decreases |cs|
  {
    if cs != [] {
      OptionalArgExactly(Apply(s, cs[0]), cs[1..]);
      if cs[0].SetOptionalArgs? {
        OptionalArgNeverCleared(Apply(s, cs[0]), cs[1..]);
      }
      if exists j :: 0 <= j < |cs[1..]| && cs[1..][j].SetOptionalArgs? {
        var j :| 0 <= j < |cs[1..]| && cs[1..][j].SetOptionalArgs?;
        assert cs[j + 1].SetOptionalArgs?;
      }
      if exists j :: 0 <= j < |cs| && cs[j].SetOptionalArgs? {
        var j :| 0 <= j < |cs| && cs[j].SetOptionalArgs?;
        if j > 0 {
          assert cs[1..][j - 1].SetOptionalArgs?;
        }
      }
    }
  }

  /** `create()` after a chain of calls that never calls `withName` fails. */
  lemma CreateFailsWithoutName(cs: seq<Setter>)
    requires forall j :: 0 <= j < |cs| ==> !cs[j].SetName?
    ensures Build(ApplyAll(Fresh(), cs)) == Failure(IllegalStateException(NAME_NOT_PROVIDED))
  {
    forall j | 0 <= j < |cs|
      ensures OptionName !in Touches(cs[j])
    {
      assert !cs[j].SetName?;
    }
    UntouchedFieldKept(Fresh(), cs, OptionName);
  }

  /** `create()` after a chain whose last `withName` call gave a name succeeds,
      with that name as the option's long name; with no later `withArgName`, the
      argument name is that name in upper case. */
  lemma CreateUsesLastName(s: Settings, cs: seq<Setter>, i: nat, name: string)
    requires i < |cs| && cs[i] == SetName(NonNull(name))
    requires forall j :: i < j < |cs| ==> !cs[j].SetName?
    ensures Build(ApplyAll(s, cs)).Success?
    ensures Build(ApplyAll(s, cs)).value.longOpt == NonNull(name)
    ensures (forall j :: 0 <= j < |cs| ==> !cs[j].SetArgName?) && s.argumentName.Null? ==>
      Build(ApplyAll(s, cs)).value.argName == ToUpper(name)
  {
    forall j | i < j < |cs|
      ensures OptionName !in Touches(cs[j])
    {
      assert !cs[j].SetName?;
    }
    LastWriterWins(s, cs, i, OptionName);
    if (forall j :: 0 <= j < |cs| ==> !cs[j].SetArgName?) && s.argumentName.Null? {
      forall j | 0 <= j < |cs|
        ensures ArgumentName !in Touches(cs[j])
      {
        assert !cs[j].SetArgName?;
      }
      UntouchedFieldKept(s, cs, ArgumentName);
    }
  }

  /** The chains the unit tests build, and the options they expect. */
  lemma CreateExamples()
    ensures Build(Apply(Fresh(), SetShortName(NonNull("foo")))).Failure?
    ensures
      var o := Build(Apply(Fresh(), SetName(NonNull("longName"))));
      o.Success? && o.value.longOpt == NonNull("longName") && o.value.argName == "LONGNAME" &&
      !o.value.required && o.value.description.Null?
    ensures
      var o := Build(Apply(Apply(Apply(Apply(Fresh(), SetName(NonNull("longName"))),
                     SetDescription(NonNull("description"))), SetRequired(true)), SetHasArg(true)));
      o.Success? && o.value.required && o.value.description == NonNull("description") &&
      o.value.numberOfArgs == 1
    ensures
      var o := Build(Apply(Apply(Apply(Apply(Fresh(), SetName(NonNull("longName"))),
                     SetArgName(NonNull("NAME"))), SetValueSeparator(':')), SetOptionalArgs(1)));
      o.Success? && o.value.optionalArg && o.value.argName == "NAME" && o.value.valueSeparator == ':'
    ensures
      var o := Build(Apply(Apply(Fresh(), SetName(NonNull("longName"))), SetOptionalArgs(UNLIMITED_VALUES)));
      o.Success? && o.value.optionalArg && o.value.numberOfArgs == UNLIMITED_VALUES
    ensures
      var o := Build(Apply(Apply(Fresh(), SetName(NonNull("longName"))), SetShortName(NonNull("shortName"))));
      o.Success? && o.value.longOpt == NonNull("longName") && o.value.opt == NonNull("shortName") &&
      o.value.argName == "LONGNAME" && !o.value.required && o.value.description.Null?
    ensures
      var o := Build(Apply(Apply(Fresh(), SetName(NonNull("longName"))), SetArgs(UNLIMITED_VALUES)));
      o.Success? && o.value.longOpt == NonNull("longName") && o.value.numberOfArgs == UNLIMITED_VALUES
  {
    assert ToUpper("longName") == "LONGNAME";
  }

  // ---------------------------------------------------------------------------
  // The builder object

  class RealOptionBuilder {
    var optionName: Nullable<string>
    var shortName: Nullable<string>
    var description: Nullable<string>
    var argumentName: Nullable<string>
    var required: bool
    var numberOfArgs: int
    var optionType: Nullable<TypeTag>
    var optionalArg: bool
    var valueSeparator: char

    /** The builder's fields as a value. */
    function State(): Settings
      reads this
    {
      Settings(optionName, shortName, description, argumentName, required,
               numberOfArgs, optionType, optionalArg, valueSeparator)
    }

    constructor ()
      ensures State() == Fresh()
    {
      numberOfArgs := UNINITIALIZED;
      optionName, shortName, description, argumentName := Null, Null, Null, Null;
      required, optionalArg := false, false;
      optionType := Null;
      valueSeparator := '\0';
    }

    method WithName(name: Nullable<string>) returns (b: RealOptionBuilder)
      modifies this
      ensures b == this && State() == Apply(old(State()), SetName(name))
    {
      optionName := name;
      b := this;
    }

    method WithShortName(name: Nullable<string>) returns (b: RealOptionBuilder)
      modifies this
      ensures b == this && State() == Apply(old(State()), SetShortName(name))
    {
      shortName := name;
      b := this;
    }

    /** `hasArg()`: the same as `hasArg(true)`. */
    method HasArg() returns (b: RealOptionBuilder)
      modifies this
      ensures b == this && State() == Apply(old(State()), SetHasArg(true))
      ensures numberOfArgs == 1 && optionalArg == old(optionalArg)
    {
      b := HasArgFlag(true);
    }

    /** `hasArg(boolean)`. */
    method HasArgFlag(hasArg: bool) returns (b: RealOptionBuilder)
      modifies this
      ensures b == this && State() == Apply(old(State()), SetHasArg(hasArg))
      ensures numberOfArgs == (if hasArg then 1 else UNINITIALIZED)
      ensures optionalArg == old(optionalArg)
    {
      numberOfArgs := if hasArg then 1 else UNINITIALIZED;
      b := this;
    }

    method WithArgName(name: Nullable<string>) returns (b: RealOptionBuilder)
      modifies this
      ensures b == this && State() == Apply(old(State()), SetArgName(name))
    {
      argumentName := name;
      b := this;
    }

    /** `isRequired()`: the same as `isRequired(true)`. */
    method IsRequired() returns (b: RealOptionBuilder)
      modifies this
      ensures b == this && State() == Apply(old(State()), SetRequired(true))
    {
      b := IsRequiredFlag(true);
    }

    /** `isRequired(boolean)`. */
    method IsRequiredFlag(newRequired: bool) returns (b: RealOptionBuilder)
      modifies this
      ensures b == this && State() == Apply(old(State()), SetRequired(newRequired))
    {
      required := newRequired;
      b := this;
    }

    method WithValueSeparator(sep: char) returns (b: RealOptionBuilder)
      modifies this
      ensures b == this && State() == Apply(old(State()), SetValueSeparator(sep))
    {
      valueSeparator := sep;
      b := this;
    }

    /** `hasArgs()`: the same as `hasArgs(UNLIMITED_VALUES)`. */
    method HasArgs() returns (b: RealOptionBuilder)
      modifies this
      ensures b == this && State() == Apply(old(State()), SetArgs(UNLIMITED_VALUES))
    {
      b := HasArgsCount(UNLIMITED_VALUES);
    }

    /** `hasArgs(int)`: stores the count as given, without checking it. */
    method HasArgsCount(num: int) returns (b: RealOptionBuilder)
      modifies this
      ensures b == this && State() == Apply(old(State()), SetArgs(num))
      ensures numberOfArgs == num && optionalArg == old(optionalArg)
    {
      numberOfArgs := num;
      b := this;
    }

    /** `hasOptionalArg()`: the same as `hasOptionalArgs(1)`. */
    method HasOptionalArg() returns (b: RealOptionBuilder)
      modifies this
      ensures b == this && State() == Apply(old(State()), SetOptionalArgs(1))
    {
      b := HasOptionalArgsCount(1);
    }

    /** `hasOptionalArgs()`: the same as `hasOptionalArgs(UNLIMITED_VALUES)`. */
    method HasOptionalArgs() returns (b: RealOptionBuilder)
      modifies this
      ensures b == this && State() == Apply(old(State()), SetOptionalArgs(UNLIMITED_VALUES))
    {
      b := HasOptionalArgsCount(UNLIMITED_VALUES);
    }

    /** `hasOptionalArgs(int)`: the count, and the optional-argument flag on. */
    method HasOptionalArgsCount(numArgs: int) returns (b: RealOptionBuilder)
      modifies this
      ensures b == this && State() == Apply(old(State()), SetOptionalArgs(numArgs))
      ensures numberOfArgs == numArgs && optionalArg
    {
      numberOfArgs := numArgs;
      optionalArg := true;
      b := this;
    }

    method WithType(newType: Nullable<TypeTag>) returns (b: RealOptionBuilder)
      modifies this
      ensures b == this && State() == Apply(old(State()), SetType(newType))
    {
      optionType := newType;
      b := this;
    }

    method WithDescription(newDescription: Nullable<string>) returns (b: RealOptionBuilder)
      modifies this
      ensures b == this && State() == Apply(old(State()), SetDescription(newDescription))
    {
      description := newDescription;
      b := this;
    }

    /** `create()`: reads the fields, changes none of them. */
    method Create() returns (r: Result<Option, IllegalStateException>)
      ensures r == Build(State())
    {
      if optionName.Null? {
        return Failure(IllegalStateException(NAME_NOT_PROVIDED));
      }
      var option := NewOption(shortName, description);
      option := option.(longOpt := optionName);
      option := option.(required := required);
      option := option.(optionalArg := optionalArg);
      option := option.(numberOfArgs := numberOfArgs);
      option := option.(optionType := optionType);
      option := option.(valueSeparator := valueSeparator);
      option := option.(argName := if argumentName.NonNull? then argumentName.value
                                   else ToUpper(optionName.value));
      r := Success(option);
    }
  }

  // ---------------------------------------------------------------------------
  // The static factories of `OptionBuilder`: a fresh builder, then one setter

  method WithName(name: Nullable<string>) returns (b: RealOptionBuilder)
    ensures fresh(b) && b.State() == Apply(Fresh(), SetName(name))
  {
    b := new RealOptionBuilder();
    b := b.WithName(name);
  }

  method WithShortName(shortName: Nullable<string>) returns (b: RealOptionBuilder)
    ensures fresh(b) && b.State() == Apply(Fresh(), SetShortName(shortName))
  {
    b := new RealOptionBuilder();
    b := b.WithShortName(shortName);
  }

  method HasArg() returns (b: RealOptionBuilder)
    ensures fresh(b) && b.State() == Apply(Fresh(), SetHasArg(true))
  {
    b := new RealOptionBuilder();
    b := b.HasArg();
  }

  method HasArgFlag(hasArg: bool) returns (b: RealOptionBuilder)
    ensures fresh(b) && b.State() == Apply(Fresh(), SetHasArg(hasArg))
  {
    b := new RealOptionBuilder();
    b := b.HasArgFlag(hasArg);
  }

  method WithArgName(name: Nullable<string>) returns (b: RealOptionBuilder)
    ensures fresh(b) && b.State() == Apply(Fresh(), SetArgName(name))
  {
    b := new RealOptionBuilder();
    b := b.WithArgName(name);
  }

  method IsRequired() returns (b: RealOptionBuilder)
    ensures fresh(b) && b.State() == Apply(Fresh(), SetRequired(true))
  {
    b := new RealOptionBuilder();
    b := b.IsRequired();
  }

  method WithValueSeparator(separator: char) returns (b: RealOptionBuilder)
    ensures fresh(b) && b.State() == Apply(Fresh(), SetValueSeparator(separator))
  {
    b := new RealOptionBuilder();
    b := b.WithValueSeparator(separator);
  }

  method IsRequiredFlag(optionRequiredSetting: bool) returns (b: RealOptionBuilder)
    ensures fresh(b) && b.State() == Apply(Fresh(), SetRequired(optionRequiredSetting))
  {
    b := new RealOptionBuilder();
    b := b.IsRequiredFlag(optionRequiredSetting);
  }

  method HasArgs() returns (b: RealOptionBuilder)
    ensures fresh(b) && b.State() == Apply(Fresh(), SetArgs(UNLIMITED_VALUES))
  {
    b := new RealOptionBuilder();
    b := b.HasArgs();
  }

  method HasArgsCount(numberOfArguments: int) returns (b: RealOptionBuilder)
    ensures fresh(b) && b.State() == Apply(Fresh(), SetArgs(numberOfArguments))
  {
    b := new RealOptionBuilder();
    b := b.HasArgsCount(numberOfArguments);
  }

  method HasOptionalArg() returns (b: RealOptionBuilder)
    ensures fresh(b) && b.State() == Apply(Fresh(), SetOptionalArgs(1))
  {
    b := new RealOptionBuilder();
    b := b.HasOptionalArg();
  }

  method HasOptionalArgs() returns (b: RealOptionBuilder)
    ensures fresh(b) && b.State() == Apply(Fresh(), SetOptionalArgs(UNLIMITED_VALUES))
  {
    b := new RealOptionBuilder();
    b := b.HasOptionalArgs();
  }

  method HasOptionalArgsCount(numberOfArguments: int) returns (b: RealOptionBuilder)
    ensures fresh(b) && b.State() == Apply(Fresh(), SetOptionalArgs(numberOfArguments))
  {
    b := new RealOptionBuilder();
    b := b.HasOptionalArgsCount(numberOfArguments);
  }

  method WithType(newType: Nullable<TypeTag>) returns (b: RealOptionBuilder)
    ensures fresh(b) && b.State() == Apply(Fresh(), SetType(newType))
  {
    b := new RealOptionBuilder();
    b := b.WithType(newType);
  }

  method WithDescription(description: Nullable<string>) returns (b: RealOptionBuilder)
    ensures fresh(b) && b.State() == Apply(Fresh(), SetDescription(description))
  {
    b := new RealOptionBuilder();
    b := b.WithDescription(description);
  }
}
