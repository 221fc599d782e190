/** The ease directives a chart attaches to storyboard timestamps and lane steps: a named
    function with a mode, or a cubic Bézier curve. Only their identity and text are modelled,
    not their evaluation. */
module Easing {
  import opened Results
  import opened Text
  import opened Numbers

  datatype EaseMode = In | Out | InOut

  datatype EaseFunction =
    Linear | Sine | Quadratic | Cubic | Quartic | Quintic | Exponential | Circle | Back | Elastic | Bounce

  /** The modes in declaration order. */
  const MODES: seq<EaseMode> := [In, Out, InOut]

  /** The functions in declaration order. */
  const FUNCTIONS: seq<EaseFunction> :=
    [Linear, Sine, Quadratic, Cubic, Quartic, Quintic, Exponential, Circle, Back, Elastic, Bounce]

  /** The underlying value of a mode: its position in the declaration. */
  function ModeOrdinal(m: EaseMode): (r: nat)
    ensures r < |MODES| && MODES[r] == m
  {
    match m
    case In => 0
    case Out => 1
    case InOut => 2
  }

  /** The underlying value of a function: its position in the declaration. */
  function FunctionOrdinal(f: EaseFunction): (r: nat)
    ensures r < |FUNCTIONS| && FUNCTIONS[r] == f
  {
    match f
    case Linear => 0
    case Sine => 1
    case Quadratic => 2
    case Cubic => 3
    case Quartic => 4
    case Quintic => 5
    case Exponential => 6
    case Circle => 7
    case Back => 8
    case Elastic => 9
    case Bounce => 10
  }

  /** There are exactly three modes and eleven functions, each at one position. */
  lemma EnumerationsAreExact()
    ensures |MODES| == 3 && |FUNCTIONS| == 11
    ensures forall i, j :: 0 <= i < j < |MODES| ==> MODES[i] != MODES[j]
    ensures forall i, j :: 0 <= i < j < |FUNCTIONS| ==> FUNCTIONS[i] != FUNCTIONS[j]
    ensures forall i :: 0 <= i < |FUNCTIONS| ==> FunctionOrdinal(FUNCTIONS[i]) == i
    ensures forall i :: 0 <= i < |MODES| ==> ModeOrdinal(MODES[i]) == i
  {
  }

  /** The enum member name, as `ToString` and string interpolation render it. */
  function ModeName(m: EaseMode): string {
    match m
    case In => "In"
    case Out => "Out"
    case InOut => "InOut"
  }

  function FunctionName(f: EaseFunction): string {
    match f
    case Linear => "Linear"
    case Sine => "Sine"
    case Quadratic => "Quadratic"
    case Cubic => "Cubic"
    case Quartic => "Quartic"
    case Quintic => "Quintic"
    case Exponential => "Exponential"
    case Circle => "Circle"
    case Back => "Back"
    case Elastic => "Elastic"
    case Bounce => "Bounce"
  }

  /** `Enum.Parse(typeof(EaseMode), s)`, exact member names only. */
  function ParseMode(s: string): (r: Parsed<EaseMode>)
    ensures r.Ok? ==> ModeName(r.value) == s
    ensures r.Err? ==> r.error == UnknownName(s) && forall m :: ModeName(m) != s
  {
    if s == "In" then Ok(In)
    else if s == "Out" then Ok(Out)
    else if s == "InOut" then Ok(InOut)
    else Err(UnknownName(s))
  }

  /** `Enum.Parse(typeof(EaseFunction), s)`, exact member names only. */
  function ParseFunction(s: string): (r: Parsed<EaseFunction>)
    ensures r.Ok? ==> FunctionName(r.value) == s
    ensures r.Err? ==> r.error == UnknownName(s) && forall f :: FunctionName(f) != s
  {
    if s == "Linear" then Ok(Linear)
    else if s == "Sine" then Ok(Sine)
    else if s == "Quadratic" then Ok(Quadratic)
    else if s == "Cubic" then Ok(Cubic)
    else if s == "Quartic" then Ok(Quartic)
    else if s == "Quintic" then Ok(Quintic)
    else if s == "Exponential" then Ok(Exponential)
    else if s == "Circle" then Ok(Circle)
    else if s == "Back" then Ok(Back)
    else if s == "Elastic" then Ok(Elastic)
    else if s == "Bounce" then Ok(Bounce)
    else Err(UnknownName(s))
  }

  /** Member names read back as their members. */
  lemma ParseModeName(m: EaseMode)
    ensures ParseMode(ModeName(m)) == Ok(m)
  {
  }

  lemma ParseFunctionName(f: EaseFunction)
    ensures ParseFunction(FunctionName(f)) == Ok(f)
  {
  }

  /** Member names are single words: no space, separator or line break. */
  lemma NamesAreWords(f: EaseFunction, m: EaseMode)
    ensures FunctionName(f) != [] && ModeName(m) != []
    ensures ' ' !in FunctionName(f) && '/' !in FunctionName(f) && '\n' !in FunctionName(f)
    ensures ' ' !in ModeName(m) && '/' !in ModeName(m) && '\n' !in ModeName(m)
    ensures !IsWhiteSpace(FunctionName(f)[0])
  {
    FunctionNameIsWord(f);
    ModeNameIsWord(m);
  }

  lemma FunctionNameIsWord(f: EaseFunction)
    ensures FunctionName(f) != [] && !IsWhiteSpace(FunctionName(f)[0])
    ensures ' ' !in FunctionName(f) && '/' !in FunctionName(f) && '\n' !in FunctionName(f)
  {
    match f
    case Linear =>
    case Sine =>
    case Quadratic =>
    case Cubic =>
    case Quartic =>
    case Quintic =>
    case Exponential =>
    case Circle =>
    case Back =>
    case Elastic =>
    case Bounce =>
  }

  lemma ModeNameIsWord(m: EaseMode)
    ensures ModeName(m) != []
    ensures ' ' !in ModeName(m) && '/' !in ModeName(m) && '\n' !in ModeName(m)
  {
    match m
    case In =>
    case Out =>
    case InOut =>
  }

  // ---------------------------------------------------------------- directives

  /** `BasicEaseDirective(function, mode)` or `CubicBezierEaseDirective(point1, point2)`. */
  datatype EaseDirective =
    | Basic(fn: EaseFunction, mode: EaseMode)
    | CubicBezier(point1: Vec2, point2: Vec2)

  /** The short mode spelling of `BasicEaseDirective.ToString`. */
  function ShortModeName(m: EaseMode): string {
    match m
    case In => "I"
    case Out => "O"
    case InOut => "IO"
  }

  /** `BasicEaseDirective.ToString`. */
  function BasicToString(fn: EaseFunction, mode: EaseMode): (r: string)
  {
    if fn == Linear then "Linear" else FunctionName(fn) + "/" + ShortModeName(mode)
  }

  /** A linear directive prints the same whatever its mode. */
  lemma LinearIgnoresMode(m1: EaseMode, m2: EaseMode)
    ensures BasicToString(Linear, m1) == BasicToString(Linear, m2) == "Linear"
  {
  }

  /** Every other directive prints its function, a slash and one of `I`, `O`, `IO`, and the
      text determines both parts. */
  lemma BasicToStringShape(f: EaseFunction, m: EaseMode)
    requires f != Linear
    ensures var s := BasicToString(f, m);
      && IndexOfChar(s, '/') == |FunctionName(f)|
      && s[..|FunctionName(f)|] == FunctionName(f)
      && s[|FunctionName(f)| + 1..] in {"I", "O", "IO"}
  {
    var n := FunctionName(f);
    var s := BasicToString(f, m);
    assert s == n + "/" + ShortModeName(m);
    NamesAreWords(f, m);
    assert s[|n|] == '/' && s[..|n|] == n;
    assert s[|n| + 1..] == ShortModeName(m);
  }

  lemma BasicToStringInjective(f1: EaseFunction, m1: EaseMode, f2: EaseFunction, m2: EaseMode)
    requires f1 != Linear && f2 != Linear
    requires BasicToString(f1, m1) == BasicToString(f2, m2)
    ensures f1 == f2 && m1 == m2
  {
    BasicToStringShape(f1, m1);
    BasicToStringShape(f2, m2);
    var s := BasicToString(f1, m1);
    assert FunctionName(f1) == s[..IndexOfChar(s, '/')] == FunctionName(f2);
    ParseFunctionName(f1);
    ParseFunctionName(f2);
    assert ShortModeName(m1) == s[IndexOfChar(s, '/') + 1..] == ShortModeName(m2);
  }

  /** `Validate`: a control point is refused when its x is below 0 or above 1. A NaN x is
      neither, so it is accepted; y is unconstrained. */
  function Validate(point: Vec2): (r: Result<Vec2, Cause>)
    ensures r.Ok? ==> r.value == point
    ensures r.Err? ==> r.error == ControlPointOutOfRange
  {
    if IsNegative(point.x) || IsAboveOne(point.x) then Err(ControlPointOutOfRange) else Ok(point)
  }

  /** A control point is accepted iff its x is NaN or a number in [0, 1]. */
  lemma ValidateAccepts(point: Vec2)
    ensures Validate(point).Ok? <==>
      (point.x.NaN? || (point.x.Finite? && 0 <= point.x.mantissa <= Pow10(point.x.exponent)))
  {
  }

  /** The y coordinate never decides acceptance. */
  lemma ValidateIgnoresY(x: Float, y1: Float, y2: Float)
    ensures Validate(Vec2(x, y1)).Ok? == Validate(Vec2(x, y2)).Ok?
  {
  }

  /** The `CubicBezierEaseDirective(point1, point2)` constructor: validates the first point,
      then the second, and stores both unchanged. */
  function NewCubicBezier(point1: Vec2, point2: Vec2): (r: Parsed<EaseDirective>)
    ensures r.Ok? <==> Validate(point1).Ok? && Validate(point2).Ok?
    ensures r.Ok? ==> r.value == CubicBezier(point1, point2)
    ensures r.Err? ==> r.error == ControlPointOutOfRange
  {
    var p1 :- Validate(point1);
    var p2 :- Validate(point2);
    Ok(CubicBezier(p1, p2))
  }

  /** A directive value as the source can hold one: a Bézier curve exists only once its
      constructor accepted it. */
  predicate IsConstructible(d: EaseDirective) {
    d.CubicBezier? ==> Validate(d.point1).Ok? && Validate(d.point2).Ok?
  }

  lemma NewCubicBezierIsConstructible(point1: Vec2, point2: Vec2)
    requires NewCubicBezier(point1, point2).Ok?
    ensures IsConstructible(NewCubicBezier(point1, point2).value)
  {
  }

  /** `CubicBezierEaseDirective.ToString`: a constant name, whatever the control points. */
  const CUBIC_BEZIER_NAME: string := "CubicBézier"

  /** `ToString` of either directive. */
  function DirectiveToString(d: EaseDirective): (r: string)
    ensures d.CubicBezier? ==> r == CUBIC_BEZIER_NAME
  {
    match d
    case Basic(f, m) => BasicToString(f, m)
    case CubicBezier(_, _) => CUBIC_BEZIER_NAME
  }

  /** The Bézier name is neither `Linear` nor slash-separated, so it never collides with the
      text of a basic directive. */
  lemma BezierNameIsDistinct(f: EaseFunction, m: EaseMode)
    ensures BasicToString(f, m) != CUBIC_BEZIER_NAME
    ensures '/' !in CUBIC_BEZIER_NAME
  {
    if f != Linear {
      BasicToStringShape(f, m);
      assert '/' in BasicToString(f, m);
    }
  }
}
