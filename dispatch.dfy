/**
 * `Application#build_case_modifier` and `Application#build_number_injector`:
 * a mode named on the command line becomes a modifier, an unknown name aborts
 * with an error, and an option left at its default (`None`: the `NullModifier`
 * of `default_options`, which is not a Symbol) is passed through unchanged.
 */
module Dispatch {
  import opened Base
  import opened CaseModifiers
  import opened NumberInjectors

  /** The case modes `build_case_modifier` knows. */
  datatype CaseMode = UpperMode | LowerMode | CapitalizeMode | RandomMode | AlternateMode

  /** The name of a case mode's symbol. */
  function CaseModeName(m: CaseMode): string
  {
    match m
    case UpperMode => "upper"
    case LowerMode => "lower"
    case CapitalizeMode => "capitalize"
    case RandomMode => "random"
    case AlternateMode => "alternate"
  }

  /** The `case mode.to_sym` of `build_case_modifier`, with the message of its `raise`. */
  function ParseCaseMode(name: string): (r: Result<CaseMode>)
    ensures r.Err? ==> r.error == "Unknown case mode " + name
  {
    if name == "upper" then Ok(UpperMode)
    else if name == "lower" then Ok(LowerMode)
    else if name == "capitalize" then Ok(CapitalizeMode)
    else if name == "random" then Ok(RandomMode)
    else if name == "alternate" then Ok(AlternateMode)
    else Err("Unknown case mode " + name)
  }

  /** Every mode is found by its own name, and a name is accepted exactly when it is a mode's name. */
  lemma CaseModeRoundTrip(m: CaseMode, name: string)
    ensures ParseCaseMode(CaseModeName(m)) == Ok(m)
    ensures ParseCaseMode(name).Ok? <==> exists k :: CaseModeName(k) == name
    ensures ParseCaseMode(name).Ok? ==> CaseModeName(ParseCaseMode(name).value) == name
  {
    assert "lower"[0] != "upper"[0];
    if exists k :: CaseModeName(k) == name {
      var k :| CaseModeName(k) == name;
      assert ParseCaseMode(name) == Ok(k);
    }
    if ParseCaseMode(name).Ok? {
      assert CaseModeName(ParseCaseMode(name).value) == name;
    }
  }

  /** The modifier object a mode builds: a fresh `AlternateCaseModifier` for "alternate". */
  predicate BuiltFor(m: CaseMode, cm: CaseModifier)
  {
    match m
    case UpperMode => cm == UpCase
    case LowerMode => cm == DownCase
    case CapitalizeMode => cm == CapitalizeCase
    case RandomMode => cm == RandomWordCase
    case AlternateMode => cm.AlternateCase?
  }

  /** `build_case_modifier(mode)`. */
  method BuildCaseModifier(mode: Option<string>) returns (r: Result<CaseModifier>)
    ensures mode.None? ==> r == Ok(NullCase)
    ensures mode.Some? && ParseCaseMode(mode.value).Err? ==> r == Err(ParseCaseMode(mode.value).error)
    ensures mode.Some? && ParseCaseMode(mode.value).Ok? ==> r.Ok? && BuiltFor(ParseCaseMode(mode.value).value, r.value)
    ensures r.Ok? && r.value.AlternateCase? ==> fresh(r.value.alternate) && r.value.alternate.upcase.None?
  {
    if mode.None? {
      return Ok(NullCase);
    }
    var parsed := ParseCaseMode(mode.value);
    if parsed.Err? {
      return Err(parsed.error);
    }
    match parsed.value
    case UpperMode => r := Ok(UpCase);
    case LowerMode => r := Ok(DownCase);
    case CapitalizeMode => r := Ok(CapitalizeCase);
    case RandomMode => r := Ok(RandomWordCase);
    case AlternateMode =>
      var alternate := new AlternateCaseModifier();
      r := Ok(AlternateCase(alternate));
  }

  /** The number injection modes `build_number_injector` knows. */
  datatype NumberMode = BetweenMode | InsideMode

  function NumberModeName(m: NumberMode): string
  {
    match m
    case BetweenMode => "between"
    case InsideMode => "inside"
  }

  /** The `case mode` of `build_number_injector`, with the message of its `raise`. */
  function ParseNumberMode(name: string): (r: Result<NumberMode>)
    ensures r.Err? ==> r.error == "Unknown number inject mode " + name
  {
    if name == "between" then Ok(BetweenMode)
    else if name == "inside" then Ok(InsideMode)
    else Err("Unknown number inject mode " + name)
  }

  /** Every mode is found by its own name, and a name is accepted exactly when it is a mode's name. */
  lemma NumberModeRoundTrip(m: NumberMode, name: string)
    ensures ParseNumberMode(NumberModeName(m)) == Ok(m)
    ensures ParseNumberMode(name).Ok? <==> exists k :: NumberModeName(k) == name
    ensures ParseNumberMode(name).Ok? ==> NumberModeName(ParseNumberMode(name).value) == name
  {
    if exists k :: NumberModeName(k) == name {
      var k :| NumberModeName(k) == name;
      assert ParseNumberMode(name) == Ok(k);
    }
    if ParseNumberMode(name).Ok? {
      assert NumberModeName(ParseNumberMode(name).value) == name;
    }
  }

  /** `build_number_injector(mode, number_count)`. */
  function BuildNumberInjector(mode: Option<string>, count: nat): (r: Result<NumberInjector>)
    ensures mode.None? ==> r == Ok(NoNumbers)
    ensures mode.Some? ==> (r.Err? <==> ParseNumberMode(mode.value).Err?)
    ensures mode.Some? && r.Err? ==> r.error == "Unknown number inject mode " + mode.value
    ensures mode.Some? && r.Ok? ==> r.value == if mode.value == "between" then Between(count) else Inside(count)
  {
    if mode.None? then Ok(NoNumbers)
    else
      match ParseNumberMode(mode.value)
      case Err(e) => Err(e)
      case Ok(BetweenMode) => Ok(Between(count))
      case Ok(InsideMode) => Ok(Inside(count))
  }
}
