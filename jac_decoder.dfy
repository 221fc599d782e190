/** `JACDecoder`: reads JANOARG chart text (`.jac`) into a chart.

    The text is split at line breaks and read in one pass. Each line, with its leading white
    space removed, is a section header `[NAME]`, a storyboard line `$ ...`, an object line
    `+ Kind ...`, a metadata line `Key: value`, or anything else (only looked at inside the
    VERSION section). The parser remembers the section, the object metadata lines apply to, the
    storyboard `$` lines append to, and the lane the `LaneStep` and `Hit` lines append to. */
module JACDecoder {
  import opened Results
  import opened Text
  import opened Numbers
  import opened Easing
  import opened ChartInfo
  import opened LineFold
  import opened Values

  const FORMAT_VERSION: int := 2

  // ---------------------------------------------------------------- token parsers

  /** `ParseVector`: the first three space-separated numbers; any further ones are ignored. */
  function ParseVector(s: string): (r: Parsed<Vec3>)
    ensures r.Ok? ==> |Split(s, ' ')| >= 3
  {
    var tokens := Split(s, ' ');
    var x :- FloatAt(tokens, 0);
    var y :- FloatAt(tokens, 1);
    var z :- FloatAt(tokens, 2);
    Ok(Vec3(x, y, z))
  }

  /** `ParseEasing`: `Linear`, `Bezier/x1;y1;x2;y2` or `Function/Mode` by member name. */
  function ParseEasing(s: string): (r: Parsed<EaseDirective>)
    ensures r.Ok? ==> IsConstructible(r.value)
    ensures s == "Linear" ==> r == Ok(Basic(Linear, In))
    ensures s != "Linear" && |Split(s, '/')| != 2 ==> r == Err(InvalidEasing)
    ensures r.Ok? && r.value.Basic? && s != "Linear" ==>
              s == FunctionName(r.value.fn) + "/" + ModeName(r.value.mode)
  {
    if s == "Linear" then Ok(Basic(Linear, In))
    else
      var segments := Split(s, '/');
      if |segments| == 2 then
        if segments[0] == "Bezier" then
          var nums := Split(segments[1], ';');
          var x1 :- FloatAt(nums, 0);
          var y1 :- FloatAt(nums, 1);
          var x2 :- FloatAt(nums, 2);
          var y2 :- FloatAt(nums, 3);
          NewCubicBezier(Vec2(x1, y1), Vec2(x2, y2))
        else
          var f :- ParseFunction(segments[0]);
          var m :- ParseMode(segments[1]);
          JoinSplit(s, '/');
          assert s == segments[0] + "/" + segments[1] by {
            assert Join(segments, '/') == segments[0] + ['/'] + Join(segments[1..], '/');
          }
          Ok(Basic(f, m))
      else Err(InvalidEasing)
  }

  /** `ParseTime`: with a `/`, whole beats before the `b`, then numerator and denominator, the
      numerator negated (with 32-bit wrap-around) when the text starts with `-`; without a
      `/`, a float with `b` in place of the decimal point. */
  function ParseTime(s: string): (r: Parsed<BeatPosition>)
    ensures r.Ok? ==> (r.value.Fraction? <==> '/' in s)
    ensures r.Ok? && r.value.Fraction? ==> 'b' in s
  {
    var slash := IndexOfChar(s, '/');
    if slash >= 0 then
      var b := IndexOfChar(s, 'b');
      if b < 0 then Err(IndexOutOfRange)
      else
        var whole :- ParseInt(s[..b]);
        var sign := if s[0] == '-' then -1 else 1;
        if slash < b + 1 then Err(IndexOutOfRange)
        else
          var numerator :- ParseInt(s[b + 1..slash]);
          var denominator :- ParseInt(s[slash + 1..]);
          Ok(Fraction(whole, Wrap32(numerator * sign), denominator))
    else
      var f :- ParseFloat(ReplaceChar(s, 'b', '.'));
      Ok(FromFloat(f))
  }

  // ---------------------------------------------------------------- parser state

  /** What `currentObject` or `currentStoryboard` refers to. Objects inside the chart are named
      by their position, which stays valid because the decoder only ever appends. */
  datatype Target =
    | Nothing
    | VersionString
    | ChartObject
    | CameraObject
    | PaletteObject
    | GroupList
    | LaneList
    | GroupAt(i: nat)
    | LaneStyleAt(i: nat)
    | HitStyleAt(i: nat)
    | LaneAt(i: nat)
    | LaneStepAt(lane: nat, i: nat)
    | HitObjectAt(lane: nat, i: nat)

  /** The targets that own a storyboard. */
  predicate HasStoryboard(t: Target) {
    || t.CameraObject? || t.PaletteObject? || t.GroupAt? || t.LaneStyleAt? || t.HitStyleAt?
    || t.LaneAt? || t.LaneStepAt? || t.HitObjectAt?
  }

  /** The target names an object that exists in `c`. */
  predicate Exists(c: Chart, t: Target) {
    match t
    case GroupAt(i) => i < |c.groups|
    case LaneStyleAt(i) => i < |c.palette.laneStyles|
    case HitStyleAt(i) => i < |c.palette.hitStyles|
    case LaneAt(i) => i < |c.lanes|
    case LaneStepAt(l, i) => l < |c.lanes| && i < |c.lanes[l].laneSteps|
    case HitObjectAt(l, i) => l < |c.lanes| && i < |c.lanes[l].objects|
    case _ => true
  }

  /** `c2` holds at least the objects of `c1`, at the same positions. */
  predicate Grows(c1: Chart, c2: Chart) {
    && |c1.groups| <= |c2.groups|
    && |c1.palette.laneStyles| <= |c2.palette.laneStyles|
    && |c1.palette.hitStyles| <= |c2.palette.hitStyles|
    && |c1.lanes| <= |c2.lanes|
    && forall l :: 0 <= l < |c1.lanes| ==>
         |c1.lanes[l].laneSteps| <= |c2.lanes[l].laneSteps| && |c1.lanes[l].objects| <= |c2.lanes[l].objects|
  }

  lemma GrowsKeepsTargets(c1: Chart, c2: Chart, t: Target)
    requires Grows(c1, c2) && Exists(c1, t)
    ensures Exists(c2, t)
  {
  }

  datatype State = State(
    chart: Chart,
    mode: string,
    currentObject: Target,
    currentStoryboard: Target,
    currentLane: Option<nat>)

  /** Every reference of the parser state names an existing object, and the storyboard
      reference names an owner of a storyboard (or nothing, the source's null). */
  predicate Valid(st: State) {
    && Exists(st.chart, st.currentObject)
    && Exists(st.chart, st.currentStoryboard)
    && (st.currentStoryboard == Nothing || HasStoryboard(st.currentStoryboard))
    && (st.currentLane.Some? ==> st.currentLane.value < |st.chart.lanes|)
  }

  /** Growing the chart keeps every reference valid. */
  lemma GrowsKeepsValid(st: State, c: Chart)
    requires Valid(st) && Grows(st.chart, c)
    ensures Valid(st.(chart := c))
  {
    GrowsKeepsTargets(st.chart, c, st.currentObject);
    GrowsKeepsTargets(st.chart, c, st.currentStoryboard);
  }

  /** The state before the first line: a new chart with its style lists cleared, and every
      reference null. */
  function Initial(blanks: Blanks): (st: State)
    ensures Valid(st)
    ensures st.chart.palette.laneStyles == [] && st.chart.palette.hitStyles == []
  {
    var c := blanks.chart;
    State(c.(palette := c.palette.(laneStyles := [], hitStyles := [])), "", Nothing, Nothing, None)
  }

  // ---------------------------------------------------------------- storyboards

  /** The storyboard owned by `t`. */
  function StoryboardOf(c: Chart, t: Target): Storyboard
    requires Exists(c, t) && HasStoryboard(t)
  {
    match t
    case CameraObject => c.camera.storyboard
    case PaletteObject => c.palette.storyboard
    case GroupAt(i) => c.groups[i].storyboard
    case LaneStyleAt(i) => c.palette.laneStyles[i].storyboard
    case HitStyleAt(i) => c.palette.hitStyles[i].storyboard
    case LaneAt(i) => c.lanes[i].storyboard
    case LaneStepAt(l, i) => c.lanes[l].laneSteps[i].storyboard
    case HitObjectAt(l, i) => c.lanes[l].objects[i].storyboard
  }

  /** The two charts hold objects at exactly the same positions. */
  predicate SameShape(c1: Chart, c2: Chart) {
    Grows(c1, c2) && Grows(c2, c1)
  }

  /** `c` with the storyboard owned by `t` replaced by `sb`. */
  function WithStoryboard(c: Chart, t: Target, sb: Storyboard): (r: Chart)
    requires Exists(c, t) && HasStoryboard(t)
    ensures SameShape(c, r)
  {
    match t
    case CameraObject => c.(camera := c.camera.(storyboard := sb))
    case PaletteObject => c.(palette := c.palette.(storyboard := sb))
    case GroupAt(i) => c.(groups := c.groups[i := c.groups[i].(storyboard := sb)])
    case LaneStyleAt(i) =>
      c.(palette := c.palette.(laneStyles := c.palette.laneStyles[i := c.palette.laneStyles[i].(storyboard := sb)]))
    case HitStyleAt(i) =>
      c.(palette := c.palette.(hitStyles := c.palette.hitStyles[i := c.palette.hitStyles[i].(storyboard := sb)]))
    case LaneAt(i) => c.(lanes := c.lanes[i := c.lanes[i].(storyboard := sb)])
    case LaneStepAt(l, i) =>
      var lane := c.lanes[l];
      c.(lanes := c.lanes[l := lane.(laneSteps := lane.laneSteps[i := lane.laneSteps[i].(storyboard := sb)])])
    case HitObjectAt(l, i) =>
      var lane := c.lanes[l];
      c.(lanes := c.lanes[l := lane.(objects := lane.objects[i := lane.objects[i].(storyboard := sb)])])
  }

  /** `currentStoryboard.Add(ts)`: the timestamp goes at the end of the storyboard. */
  function AppendTimestamp(c: Chart, t: Target, ts: Timestamp): (r: Chart)
    requires Exists(c, t) && HasStoryboard(t)
    ensures SameShape(c, r)
  {
    WithStoryboard(c, t, StoryboardOf(c, t) + [ts])
  }

  // ---------------------------------------------------------------- section headers

  /** A section header selects the object and storyboard from a fixed table; GROUPS and
      OBJECTS clear the storyboard, VERSION and METADATA keep it. */
  function ApplySection(st: State, mode: string): (r: Parsed<State>)
    requires Valid(st)
    ensures r.Ok? ==> Valid(r.value)
  {
    var st := st.(mode := mode);
    if mode == "VERSION" then Ok(st.(currentObject := VersionString))
    else if mode == "METADATA" then Ok(st.(currentObject := ChartObject))
    else if mode == "CAMERA" then Ok(st.(currentObject := CameraObject, currentStoryboard := CameraObject))
    else if mode == "PALLETE" then Ok(st.(currentObject := PaletteObject, currentStoryboard := PaletteObject))
    else if mode == "GROUPS" then Ok(st.(currentObject := GroupList, currentStoryboard := Nothing))
    else if mode == "OBJECTS" then Ok(st.(currentObject := LaneList, currentStoryboard := Nothing))
    else Err(InvalidMode(mode))
  }

  // ---------------------------------------------------------------- storyboard lines

  /** The timestamp of a `$ id offset duration target from easing` line, its fields read in
      that order; `_` as the from value stands for NaN. */
  function ParseTimestamp(tokens: seq<string>, names: EnumNames): (r: Parsed<Timestamp>)
    requires |tokens| >= 6
    ensures r.Ok? ==> |tokens| >= 7 && r.value.id == tokens[1] && r.value.id in names.timestampIds
    ensures r.Ok? && tokens[5] == "_" ==> r.value.from == NaN
  {
    var id :- ParseEnum(tokens[1], names.timestampIds);
    var offset :- ParseTime(tokens[2]);
    var duration :- ParseFloat(tokens[3]);
    var target :- ParseFloat(tokens[4]);
    var from :- if tokens[5] == "_" then Ok(NAN) else ParseFloat(tokens[5]);
    var easingToken :- TokenAt(tokens, 6);
    var easing :- ParseEasing(easingToken);
    Ok(Timestamp(id, offset, duration, target, from, easing))
  }

  /** A `$` line appends one timestamp to the current storyboard and changes nothing else. */
  function ApplyStoryboard(st: State, tokens: seq<string>, names: EnumNames): (r: Parsed<State>)
    requires Valid(st)
    ensures r.Ok? ==> Valid(r.value)
  {
    if |tokens| < 6 then Err(NotEnoughTokens(6, |tokens|))
    else
      var ts :- ParseTimestamp(tokens, names);
      if st.currentStoryboard == Nothing then Err(NullReference)
      else
        var c := AppendTimestamp(st.chart, st.currentStoryboard, ts);
        GrowsKeepsValid(st, c);
        Ok(st.(chart := c))
  }

  // ---------------------------------------------------------------- object lines

  /** Three floats from `tokens[i..i+3]`, read in order. */
  function Vec3At(tokens: seq<string>, i: nat): Parsed<Vec3> {
    var x :- FloatAt(tokens, i);
    var y :- FloatAt(tokens, i + 1);
    var z :- FloatAt(tokens, i + 2);
    Ok(Vec3(x, y, z))
  }

  function Vec2At(tokens: seq<string>, i: nat): Parsed<Vec2> {
    var x :- FloatAt(tokens, i);
    var y :- FloatAt(tokens, i + 1);
    Ok(Vec2(x, y))
  }

  function ColorAt(tokens: seq<string>, i: nat): Parsed<Color> {
    var red :- FloatAt(tokens, i);
    var green :- FloatAt(tokens, i + 1);
    var blue :- FloatAt(tokens, i + 2);
    var alpha :- FloatAt(tokens, i + 3);
    Ok(Color(red, green, blue, alpha))
  }

  function EasingAt(tokens: seq<string>, i: nat): Parsed<EaseDirective> {
    var t :- TokenAt(tokens, i);
    ParseEasing(t)
  }

  /** `+ Group px py pz rx ry rz`. */
  function ParseGroup(tokens: seq<string>, blank: LaneGroup): Parsed<LaneGroup> {
    var position :- Vec3At(tokens, 2);
    var rotation :- Vec3At(tokens, 5);
    Ok(blank.(position := position, rotation := rotation))
  }

  /** `+ LaneStyle <lane colour> <judge colour>`. */
  function ParseLaneStyle(tokens: seq<string>, blank: LaneStyle): Parsed<LaneStyle> {
    var laneColor :- ColorAt(tokens, 2);
    var judgeColor :- ColorAt(tokens, 6);
    Ok(blank.(laneColor := laneColor, judgeColor := judgeColor))
  }

  /** `+ HitStyle <hold tail colour> <normal colour> <catch colour>`. */
  function ParseHitStyle(tokens: seq<string>, blank: HitStyle): Parsed<HitStyle> {
    var holdTail :- ColorAt(tokens, 2);
    var normal :- ColorAt(tokens, 6);
    var catchColor :- ColorAt(tokens, 10);
    Ok(blank.(holdTailColor := holdTail, normalColor := normal, catchColor := catchColor))
  }

  /** `+ Lane px py pz rx ry rz styleIndex`. */
  function ParseLane(tokens: seq<string>, blank: Lane): Parsed<Lane> {
    var position :- Vec3At(tokens, 2);
    var rotation :- Vec3At(tokens, 5);
    var style :- TokenAt(tokens, 8);
    var styleIndex :- ParseInt(style);
    Ok(blank.(position := position, rotation := rotation, styleIndex := styleIndex))
  }

  /** `+ LaneStep offset sx sy startEaseX startEaseY ex ey endEaseX endEaseY speed`. */
  function ParseLaneStep(tokens: seq<string>, blank: LaneStep): Parsed<LaneStep> {
    var offsetToken :- TokenAt(tokens, 2);
    var offset :- ParseTime(offsetToken);
    var start :- Vec2At(tokens, 3);
    var startEaseX :- EasingAt(tokens, 5);
    var startEaseY :- EasingAt(tokens, 6);
    var end :- Vec2At(tokens, 7);
    var endEaseX :- EasingAt(tokens, 9);
    var endEaseY :- EasingAt(tokens, 10);
    var speed :- FloatAt(tokens, 11);
    Ok(blank.(offset := offset, startPoint := start, startEaseX := startEaseX, startEaseY := startEaseY,
              endPoint := end, endEaseX := endEaseX, endEaseY := endEaseY, speed := speed))
  }

  /** `+ Hit type offset position length holdLength flick styleIndex fake`: the hit is
      flickable iff the flick token starts with `F`, whose remainder (if any) is the direction;
      the hit is fake iff the last token is `_`. An empty flick token throws. */
  function ParseHitObject(tokens: seq<string>, names: EnumNames, blank: HitObject): (r: Parsed<HitObject>)
    requires |tokens| >= 10
    ensures r.Ok? ==> tokens[7] != [] && (r.value.flickable <==> tokens[7][0] == 'F')
    ensures r.Ok? && |tokens[7]| <= 1 ==> r.value.flickDirection == NaN
    ensures r.Ok? ==> (r.value.isFake <==> tokens[9] == "_") && r.value.hitType in names.hitTypes
  {
    var hitType :- ParseEnum(tokens[2], names.hitTypes);
    var offset :- ParseTime(tokens[3]);
    var position :- ParseFloat(tokens[4]);
    var length :- ParseFloat(tokens[5]);
    var holdLength :- ParseFloat(tokens[6]);
    var flick := tokens[7];
    if flick == [] then Err(IndexOutOfRange)
    else
      var direction :- if |flick| > 1 then ParseFloat(flick[1..]) else Ok(NAN);
      var styleIndex :- ParseInt(tokens[8]);
      Ok(blank.(hitType := hitType, offset := offset, position := position, length := length,
                holdLength := holdLength, flickable := flick[0] == 'F', flickDirection := direction,
                styleIndex := styleIndex, isFake := tokens[9] == "_"))
  }

  /** The fewest tokens each object kind accepts, and the minimum its error message states. */
  function MinimumTokens(kind: string): nat {
    if kind == "Group" then 8
    else if kind == "LaneStyle" then 10
    else if kind == "HitStyle" then 14
    else if kind == "Lane" then 9
    else if kind == "LaneStep" then 12
    else if kind == "Hit" then 10
    else 0
  }

  function StatedMinimum(kind: string): nat {
    if kind == "Hit" then 9 else MinimumTokens(kind)
  }

  predicate IsObjectKind(kind: string) {
    kind in {"Group", "LaneStyle", "HitStyle", "Lane", "LaneStep", "Hit"}
  }

  /** `lane.LaneSteps.Add(step)` on lane `l`. */
  function AppendLaneStep(c: Chart, l: nat, step: LaneStep): (r: Chart)
    requires l < |c.lanes|
    ensures Grows(c, r)
  {
    c.(lanes := c.lanes[l := c.lanes[l].(laneSteps := c.lanes[l].laneSteps + [step])])
  }

  /** `lane.Objects.Add(hit)` on lane `l`. */
  function AppendHitObject(c: Chart, l: nat, hit: HitObject): (r: Chart)
    requires l < |c.lanes|
    ensures Grows(c, r)
  {
    c.(lanes := c.lanes[l := c.lanes[l].(objects := c.lanes[l].objects + [hit])])
  }

  /** A `+` line: checks the token count of its kind, builds the object from a blank one,
      appends it to its list and makes it the current object and storyboard. A Lane also
      becomes the current lane; a LaneStep or Hit goes into the current lane, and throws when
      there is none. */
  function ApplyObject(st: State, tokens: seq<string>, names: EnumNames, blanks: Blanks): (r: Parsed<State>)
    requires Valid(st)
    ensures r.Ok? ==> Valid(r.value)
  {
    if |tokens| < 2 then Err(MissingObjectToken)
    else
      var kind := tokens[1];
      var c := st.chart;
      if !IsObjectKind(kind) then Err(InvalidObject(kind))
      else if |tokens| < MinimumTokens(kind) then Err(NotEnoughTokens(StatedMinimum(kind), |tokens|))
      else if kind == "Group" then
        var group :- ParseGroup(tokens, blanks.group);
        var t := GroupAt(|c.groups|);
        var c' := c.(groups := c.groups + [group]);
        GrowsKeepsValid(st, c');
        Ok(st.(chart := c', currentObject := t, currentStoryboard := t))
      else if kind == "LaneStyle" then
        var style :- ParseLaneStyle(tokens, blanks.laneStyle);
        var t := LaneStyleAt(|c.palette.laneStyles|);
        var c' := c.(palette := c.palette.(laneStyles := c.palette.laneStyles + [style]));
        GrowsKeepsValid(st, c');
        Ok(st.(chart := c', currentObject := t, currentStoryboard := t))
      else if kind == "HitStyle" then
        var style :- ParseHitStyle(tokens, blanks.hitStyle);
        var t := HitStyleAt(|c.palette.hitStyles|);
        var c' := c.(palette := c.palette.(hitStyles := c.palette.hitStyles + [style]));
        GrowsKeepsValid(st, c');
        Ok(st.(chart := c', currentObject := t, currentStoryboard := t))
      else if kind == "Lane" then
        var lane :- ParseLane(tokens, blanks.lane);
        var t := LaneAt(|c.lanes|);
        var c' := c.(lanes := c.lanes + [lane]);
        GrowsKeepsValid(st, c');
        Ok(st.(chart := c', currentObject := t, currentStoryboard := t, currentLane := Some(|c.lanes|)))
      else if kind == "LaneStep" then
        var step :- ParseLaneStep(tokens, blanks.laneStep);
        match st.currentLane
        case None => Err(NullReference)
        case Some(l) =>
          var t := LaneStepAt(l, |c.lanes[l].laneSteps|);
          var c' := AppendLaneStep(c, l, step);
          GrowsKeepsValid(st, c');
          Ok(st.(chart := c', currentObject := t, currentStoryboard := t))
      else
        var hit :- ParseHitObject(tokens, names, blanks.hitObject);
        match st.currentLane
        case None => Err(NullReference)
        case Some(l) =>
          var t := HitObjectAt(l, |c.lanes[l].objects|);
          var c' := AppendHitObject(c, l, hit);
          GrowsKeepsValid(st, c');
          Ok(st.(chart := c', currentObject := t, currentStoryboard := t))
  }

  // ---------------------------------------------------------------- metadata lines

  /** The keys each kind of object reads; every other key is ignored. */
  function KeysOf(t: Target): set<string> {
    match t
    case ChartObject => {"Index", "Name", "Charter", "Alt Charter", "Level", "Constant"}
    case CameraObject => {"Pivot", "Rotation", "Distance"}
    case PaletteObject => {"Background", "Interface"}
    case GroupAt(_) => {"Name", "Group"}
    case LaneStyleAt(_) => {"Name", "Lane Material", "Lane Target", "Judge Material", "Judge Target"}
    case HitStyleAt(_) => {"Name", "Main Material", "Main Target", "Hold Tail Material", "Hold Tail Target"}
    case LaneAt(_) => {"Name", "Group"}
    case _ => {}
  }

  function SetChartField(c: Chart, key: string, value: string): Parsed<Chart> {
    if key == "Index" then var i :- ParseInt(value); Ok(c.(difficultyIndex := i))
    else if key == "Name" then Ok(c.(difficultyName := value))
    else if key == "Charter" then Ok(c.(charterName := value))
    else if key == "Alt Charter" then Ok(c.(altCharterName := value))
    else if key == "Level" then Ok(c.(difficultyLevel := value))
    else if key == "Constant" then var f :- ParseFloat(value); Ok(c.(chartConstant := f))
    else Ok(c)
  }

  function SetCameraField(cam: CameraController, key: string, value: string): Parsed<CameraController> {
    if key == "Pivot" then var v :- ParseVector(value); Ok(cam.(pivot := v))
    else if key == "Rotation" then var v :- ParseVector(value); Ok(cam.(rotation := v))
    else if key == "Distance" then var f :- ParseFloat(value); Ok(cam.(distance := f))
    else Ok(cam)
  }

  function SetPaletteField(p: Palette, key: string, value: string): Parsed<Palette> {
    if key == "Background" then var col :- ParseColor(value); Ok(p.(backgroundColor := col))
    else if key == "Interface" then var col :- ParseColor(value); Ok(p.(interfaceColor := col))
    else Ok(p)
  }

  function SetGroupField(g: LaneGroup, key: string, value: string): LaneGroup {
    if key == "Name" then g.(name := value)
    else if key == "Group" then g.(group := value)
    else g
  }

  function SetLaneStyleField(s: LaneStyle, key: string, value: string): LaneStyle {
    if key == "Name" then s.(name := value)
    else if key == "Lane Material" then s.(laneMaterial := value)
    else if key == "Lane Target" then s.(laneColorTarget := value)
    else if key == "Judge Material" then s.(judgeMaterial := value)
    else if key == "Judge Target" then s.(judgeColorTarget := value)
    else s
  }

  function SetHitStyleField(s: HitStyle, key: string, value: string): HitStyle {
    if key == "Name" then s.(name := value)
    else if key == "Main Material" then s.(mainMaterial := value)
    else if key == "Main Target" then s.(mainColorTarget := value)
    else if key == "Hold Tail Material" then s.(holdTailMaterial := value)
    else if key == "Hold Tail Target" then s.(holdTailColorTarget := value)
    else s
  }

  function SetLaneField(lane: Lane, key: string, value: string): Lane {
    if key == "Name" then lane.(name := value)
    else if key == "Group" then lane.(group := value)
    else lane
  }

  /** The `switch (currentObject)` of a metadata line: the field `key` names in the table of
      the target's kind. */
  function SetField(c: Chart, t: Target, key: string, value: string): (r: Parsed<Chart>)
    requires Exists(c, t)
    ensures r.Ok? ==> SameShape(c, r.value)
  {
    match t
    case ChartObject => SetChartField(c, key, value)
    case CameraObject => var cam :- SetCameraField(c.camera, key, value); Ok(c.(camera := cam))
    case PaletteObject => var p :- SetPaletteField(c.palette, key, value); Ok(c.(palette := p))
    case GroupAt(i) => Ok(c.(groups := c.groups[i := SetGroupField(c.groups[i], key, value)]))
    case LaneStyleAt(i) =>
      Ok(c.(palette := c.palette.(laneStyles := c.palette.laneStyles[i := SetLaneStyleField(c.palette.laneStyles[i], key, value)])))
    case HitStyleAt(i) =>
      Ok(c.(palette := c.palette.(hitStyles := c.palette.hitStyles[i := SetHitStyleField(c.palette.hitStyles[i], key, value)])))
    case LaneAt(i) => Ok(c.(lanes := c.lanes[i := SetLaneField(c.lanes[i], key, value)]))
    case _ => Ok(c)
  }

  /** A `Key: value` line: the key is what precedes the first `": "`, the value what follows
      it, trimmed. */
  function ApplyMetadata(st: State, line: string): (r: Parsed<State>)
    requires Valid(st)
    ensures r.Ok? ==> Valid(r.value)
  {
    var pos := IndexOf(line, ": ");
    if pos < 0 then Ok(st)
    else
      var key := line[..pos];
      var value := Trim(line[pos + 2..]);
      var c :- SetField(st.chart, st.currentObject, key, value);
      GrowsKeepsValid(st, c);
      Ok(st.(chart := c))
  }

  // ---------------------------------------------------------------- version lines

  /** A line inside VERSION: blank lines and lines that are not integers are skipped; a
      version above FORMAT_VERSION throws. */
  function ApplyVersion(st: State, line: string): (r: Parsed<State>)
  {
    if IsNullOrWhiteSpace(line) then Ok(st)
    else
      match ParseInt(line)
      case Err(_) => Ok(st)
      case Ok(version) => if version > FORMAT_VERSION then Err(NewerVersion) else Ok(st)
  }

  // ---------------------------------------------------------------- lines

  datatype LineKind = SectionHeader | StoryboardLine | ObjectLine | MetadataLine | OtherLine

  /** The classification of a (left-trimmed) line, in the decoder's order of precedence. */
  function Classify(line: string): (k: LineKind)
    ensures k == SectionHeader <==> StartsWith(line, "[") && EndsWith(line, "]")
    ensures k == SectionHeader ==> |line| >= 2  // no one character both opens and closes it
  {
    assert StartsWith(line, "[") && EndsWith(line, "]") ==> |line| >= 2 by {
      if StartsWith(line, "[") && EndsWith(line, "]") {
        assert line[..1][0] == line[0] && line[|line| - 1..][0] == line[|line| - 1];
      }
    }
    if StartsWith(line, "[") && EndsWith(line, "]") then SectionHeader
    else if StartsWith(line, "$") then StoryboardLine
    else if StartsWith(line, "+") then ObjectLine
    else if Contains(line, ": ") then MetadataLine
    else OtherLine
  }

  /** A parser state whose references are all valid: the states the loop passes through. */
  type ValidState = st: State | Valid(st)
    witness State(
      Chart(0, "", "", "", "", NAN, CameraController(Vec3(NAN, NAN, NAN), Vec3(NAN, NAN, NAN), NAN, []), [],
        Palette(Color(NAN, NAN, NAN, NAN), Color(NAN, NAN, NAN, NAN), [], [], []), []),
      "", Nothing, Nothing, None)

  /** One iteration of the decoding loop: the line is trimmed at the start, then handled by
      its kind. */
  function Step(st: State, raw: string, names: EnumNames, blanks: Blanks): (r: Parsed<State>)
    requires Valid(st)
    ensures r.Ok? ==> Valid(r.value)
  {
    StepTrimmed(st, TrimStart(raw), names, blanks)
  }

  /** A left-trimmed line, by its kind. */
  function StepTrimmed(st: State, line: string, names: EnumNames, blanks: Blanks): (r: Parsed<State>)
    requires Valid(st)
    ensures r.Ok? ==> Valid(r.value)
  {
    match Classify(line)
    case SectionHeader =>
      ApplySection(st, line[1..|line| - 1])
    case StoryboardLine => ApplyStoryboard(st, Split(line, ' '), names)
    case ObjectLine => ApplyObject(st, Split(line, ' '), names, blanks)
    case MetadataLine => ApplyMetadata(st, line)
    case OtherLine => if st.currentObject == VersionString then ApplyVersion(st, line) else Ok(st)
  }

  /** A result of `Step`, on the states the decoder keeps valid. */
  function AsValid(r: Parsed<State>): Parsed<ValidState>
    requires r.Ok? ==> Valid(r.value)
  {
    if r.Ok? then Ok(r.value) else Err(r.error)
  }

  /** The step of the decoding loop, for the given enum names and blank objects. */
  function Stepper(names: EnumNames, blanks: Blanks): (ValidState, string) -> Parsed<ValidState> {
    (st: ValidState, line: string) => AsValid(Step(st, line, names, blanks))
  }

  /** The decoding loop over `lines`, from `st`. */
  function Run(st: ValidState, lines: seq<string>, names: EnumNames, blanks: Blanks): Result<ValidState, Failure> {
    Fold(Stepper(names, blanks), st, lines)
  }

  /** What `Decode(str)` returns or throws. */
  function DecodeText(str: string, names: EnumNames, blanks: Blanks): Result<Chart, DecodeError> {
    var lines := Split(str, '\n');
    match Run(Initial(blanks), lines, names, blanks)
    case Ok(st) => Ok(st.chart)
    case Err(Failure(i, cause)) => Err(DecodeError(i + 1, lines[i], cause))
  }

  /** `JACDecoder.Decode`: the loop over the lines, with the four pieces of parser state. */
  method Decode(str: string, names: EnumNames, blanks: Blanks) returns (r: Result<Chart, DecodeError>)
    ensures r == DecodeText(str, names, blanks)
  {
    var init: ValidState := Initial(blanks);
    var chart := init.chart;
    var mode := "";
    var currentLane: Option<nat> := None;
    var currentObject := Nothing;
    var currentStoryboard := Nothing;
    var lines := Split(str, '\n');
    var index := 0;
    while index < |lines|
      invariant 0 <= index <= |lines|
      invariant Run(init, lines[..index], names, blanks) == Ok(State(chart, mode, currentObject, currentStoryboard, currentLane))
    {
      var st := State(chart, mode, currentObject, currentStoryboard, currentLane);
      FoldNext(Stepper(names, blanks), init, lines, index);
      var next := Step(st, lines[index], names, blanks);
      if next.Err? {
        FoldStopsAtFailure(Stepper(names, blanks), init, lines, index + 1);
        return Err(DecodeError(index + 1, lines[index], next.error));
      }
      chart, mode := next.value.chart, next.value.mode;
      currentObject, currentStoryboard, currentLane := next.value.currentObject, next.value.currentStoryboard, next.value.currentLane;
      index := index + 1;
    }
    assert lines[..index] == lines;
    return Ok(chart);
  }
}
