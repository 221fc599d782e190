/** Reading back what the chart encoder writes, one line at a time: each record line and each
    storyboard line the encoder writes is read by the decoder as the object or timestamp it
    was written from, up to what the format does not carry. */
module ChartRecords {
  import opened Results
  import opened Text
  import opened Numbers
  import opened Easing
  import opened ChartInfo
  import opened Values
  import opened JACDecoder
  import opened JACDecoderProperties
  import E = JACEncoder

  // ---------------------------------------------------------------- what is read back

  /** A linear directive is written without its mode, so it reads back with mode `In`. */
  function EaseReadBack(d: EaseDirective): EaseDirective {
    if d.Basic? && d.fn == Linear then Basic(Linear, In) else d
  }

  /** A flick direction is written only for a flickable hit, and only when it is finite;
      otherwise it reads back as NaN. */
  function FlickReadBack(hit: HitObject): Float {
    if hit.flickable && IsFinite(hit.flickDirection) then hit.flickDirection else NAN
  }

  /** A timestamp whose from value is not finite is written with `_`, which reads back as NaN. */
  function TimestampReadBack(ts: Timestamp): Timestamp {
    ts.(from := if IsFinite(ts.from) then ts.from else NAN, easing := EaseReadBack(ts.easing))
  }

  /** A group's record line carries its position and rotation; the rest is the blank's. */
  function GroupRecordReadBack(g: LaneGroup, blank: LaneGroup): LaneGroup {
    blank.(position := g.position, rotation := g.rotation)
  }

  function LaneStyleRecordReadBack(s: LaneStyle, blank: LaneStyle): LaneStyle {
    blank.(laneColor := s.laneColor, judgeColor := s.judgeColor)
  }

  function HitStyleRecordReadBack(s: HitStyle, blank: HitStyle): HitStyle {
    blank.(holdTailColor := s.holdTailColor, normalColor := s.normalColor, catchColor := s.catchColor)
  }

  function LaneRecordReadBack(lane: Lane, blank: Lane): Lane {
    blank.(position := lane.position, rotation := lane.rotation, styleIndex := lane.styleIndex)
  }

  /** A lane step's record line carries every field but the storyboard. */
  function LaneStepRecordReadBack(step: LaneStep, blank: LaneStep): LaneStep {
    blank.(offset := step.offset, startPoint := step.startPoint,
           startEaseX := EaseReadBack(step.startEaseX), startEaseY := EaseReadBack(step.startEaseY),
           endPoint := step.endPoint, endEaseX := EaseReadBack(step.endEaseX), endEaseY := EaseReadBack(step.endEaseY),
           speed := step.speed)
  }

  /** A hit's record line carries every field but the storyboard; it has no token for
      `IsFake`, so the hit reads back as real. */
  function HitRecordReadBack(hit: HitObject, blank: HitObject): HitObject {
    blank.(hitType := hit.hitType, offset := hit.offset, position := hit.position, length := hit.length,
           holdLength := hit.holdLength, flickable := hit.flickable, flickDirection := FlickReadBack(hit),
           styleIndex := hit.styleIndex, isFake := false)
  }

  /** The beat renderer writes `b` as a single token that reads back as `b`. */
  predicate BeatReadsBack(beat: E.BeatText, b: BeatPosition) {
    ' ' !in beat(b) && '\n' !in beat(b) && ParseTime(beat(b)) == Ok(b)
  }

  /** All four eases of a lane step are directives the source can hold. */
  predicate StepEasesConstructible(step: LaneStep) {
    && IsConstructible(step.startEaseX) && IsConstructible(step.startEaseY)
    && IsConstructible(step.endEaseX) && IsConstructible(step.endEaseY)
  }

  // ---------------------------------------------------------------- tokens

  /** A number is a single token: it holds no separator of either format and is not the
      `_` sentinel. */
  lemma NumberToken(f: Float)
    ensures var s := FormatFloat(f);
      s != [] && s != "_" && ' ' !in s && '\n' !in s && '/' !in s && ';' !in s
  {
    var s := FormatFloat(f);
    FormatFloatIsNumberText(f);
    forall i | 0 <= i < |s| ensures s[i] != ' ' && s[i] != '\n' && s[i] != '/' && s[i] != ';' && s[i] != '_' {
      NumeralIsNotSeparator(s[i]);
    }
    assert s[0] != "_"[0];
  }

  /** The space between two pieces of a record line splits them apart. */
  lemma Around(a: string, b: string)
    ensures Split(a + " " + b, ' ') == Split(a, ' ') + Split(b, ' ')
  {
    assert " " == [' '];
    SplitConcat(a, b, ' ');
  }

  /** A last token behind a space. */
  lemma Behind(a: string, t: string)
    requires ' ' !in t
    ensures Split(a + " " + t, ' ') == Split(a, ' ') + [t]
  {
    Around(a, t);
    SplitSingle(t, ' ');
  }

  /** `+`, the kind, then the rest of a record line. */
  lemma RecordHead(lit: string, kind: string, rest: string)
    requires lit == "+ " + kind + " " && ' ' !in kind
    ensures Split(lit + rest, ' ') == ["+", kind] + Split(rest, ' ')
  {
    assert lit + rest == "+" + [' '] + (kind + [' '] + rest);
    SplitConcatFirst("+", kind + [' '] + rest, ' ');
    SplitConcatFirst(kind, rest, ' ');
  }

  lemma GroupHead(rest: string)
    ensures Split("+ Group " + rest, ' ') == ["+", "Group"] + Split(rest, ' ')
  {
    RecordHead("+ Group ", "Group", rest);
  }

  lemma LaneStyleHead(rest: string)
    ensures Split("+ LaneStyle " + rest, ' ') == ["+", "LaneStyle"] + Split(rest, ' ')
  {
    RecordHead("+ LaneStyle ", "LaneStyle", rest);
  }

  lemma HitStyleHead(rest: string)
    ensures Split("+ HitStyle " + rest, ' ') == ["+", "HitStyle"] + Split(rest, ' ')
  {
    RecordHead("+ HitStyle ", "HitStyle", rest);
  }

  lemma LaneHead(rest: string)
    ensures Split("+ Lane " + rest, ' ') == ["+", "Lane"] + Split(rest, ' ')
  {
    RecordHead("+ Lane ", "Lane", rest);
  }

  lemma VectorTokens(v: Vec3)
    ensures Split(E.EncodeVector(v), ' ') == [FormatFloat(v.x), FormatFloat(v.y), FormatFloat(v.z)]
  {
    var x, y, z := FormatFloat(v.x), FormatFloat(v.y), FormatFloat(v.z);
    NumberToken(v.x);
    NumberToken(v.y);
    NumberToken(v.z);
    Behind(x + " " + y, z);
    Behind(x, y);
    SplitSingle(x, ' ');
  }

  /** Four numbers separated by `;`, the control points of a Bézier curve. */
  lemma FourNumbers(a: string, b: string, c: string, d: string)
    requires ';' !in a && ';' !in b && ';' !in c && ';' !in d
    ensures Split(a + ";" + b + ";" + c + ";" + d, ';') == [a, b, c, d]
  {
    assert ";" == [';'];
    SplitSnoc(a + ";" + b + ";" + c, d, ';');
    SplitSnoc(a + ";" + b, c, ';');
    SplitSnoc(a, b, ';');
    SplitSingle(a, ';');
  }

  lemma BezierText(a: string, b: string, c: string, d: string)
    ensures "Bezier/" + a + ";" + b + ";" + c + ";" + d == "Bezier" + ['/'] + (a + ";" + b + ";" + c + ";" + d)
  {
    assert "Bezier/" == "Bezier" + ['/'];
  }

  /** The text of a Bézier directive: `Bezier`, a slash, and four numbers. */
  lemma BezierPieces(p1: Vec2, p2: Vec2)
    ensures var s := E.EncodeEase(CubicBezier(p1, p2));
      var a, b, c, d := FormatFloat(p1.x), FormatFloat(p1.y), FormatFloat(p2.x), FormatFloat(p2.y);
      && ' ' !in s && '\n' !in s && s != "Linear"
      && Split(s, '/') == ["Bezier", a + ";" + b + ";" + c + ";" + d]
      && Split(a + ";" + b + ";" + c + ";" + d, ';') == [a, b, c, d]
  {
    var a, b, c, d := FormatFloat(p1.x), FormatFloat(p1.y), FormatFloat(p2.x), FormatFloat(p2.y);
    NumberToken(p1.x);
    NumberToken(p1.y);
    NumberToken(p2.x);
    NumberToken(p2.y);
    BezierText(a, b, c, d);
    BezierSplit(a, b, c, d);
    FourNumbers(a, b, c, d);
  }

  /** Four numbers behind `Bezier/` make a single slash-separated pair, not `Linear`, without
      spaces or line breaks. */
  lemma BezierSplit(a: string, b: string, c: string, d: string)
    requires ' ' !in a && ' ' !in b && ' ' !in c && ' ' !in d
    requires '\n' !in a && '\n' !in b && '\n' !in c && '\n' !in d
    requires '/' !in a && '/' !in b && '/' !in c && '/' !in d
    ensures var nums := a + ";" + b + ";" + c + ";" + d;
      var s := "Bezier" + ['/'] + nums;
      && ' ' !in s && '\n' !in s && s != "Linear"
      && Split(s, '/') == ["Bezier", nums]
  {
    var nums := a + ";" + b + ";" + c + ";" + d;
    var s := "Bezier" + ['/'] + nums;
    SplitConcatFirst("Bezier", nums, '/');
    SplitSingle(nums, '/');
    assert s[0] == 'B';
  }

  /** `ParseEasing` on text shaped like a Bézier directive. */
  lemma BezierParse(s: string, nums: string, a: string, b: string, c: string, d: string, p1: Vec2, p2: Vec2)
    requires Validate(p1).Ok? && Validate(p2).Ok? && s != "Linear"
    requires Split(s, '/') == ["Bezier", nums] && Split(nums, ';') == [a, b, c, d]
    requires ParseFloat(a) == Ok(p1.x) && ParseFloat(b) == Ok(p1.y)
    requires ParseFloat(c) == Ok(p2.x) && ParseFloat(d) == Ok(p2.y)
    ensures ParseEasing(s) == Ok(CubicBezier(p1, p2))
  {
    assert Vec2(p1.x, p1.y) == p1 && Vec2(p2.x, p2.y) == p2;
  }

  /** A Bézier directive the constructor accepts reads back as itself. */
  lemma BezierToken(p1: Vec2, p2: Vec2)
    requires Validate(p1).Ok? && Validate(p2).Ok?
    ensures var s := E.EncodeEase(CubicBezier(p1, p2));
      ' ' !in s && '\n' !in s && ParseEasing(s) == Ok(CubicBezier(p1, p2))
  {
    var a, b, c, d := FormatFloat(p1.x), FormatFloat(p1.y), FormatFloat(p2.x), FormatFloat(p2.y);
    BezierPieces(p1, p2);
    ParseFormatFloat(p1.x);
    ParseFormatFloat(p1.y);
    ParseFormatFloat(p2.x);
    ParseFormatFloat(p2.y);
    BezierParse(E.EncodeEase(CubicBezier(p1, p2)), a + ";" + b + ";" + c + ";" + d, a, b, c, d, p1, p2);
  }

  /** An ease directive is written as one token, which reads back as the directive, a linear
      one with mode `In`. */
  lemma EaseToken(d: EaseDirective)
    requires IsConstructible(d)
    ensures var s := E.EncodeEase(d);
      ' ' !in s && '\n' !in s && ParseEasing(s) == Ok(EaseReadBack(d))
  {
    match d
    case Basic(f, m) =>
      NamesAreWords(f, m);
      if f != Linear {
        EasingByName(f, m);
      }
    case CubicBezier(p1, p2) =>
      BezierToken(p1, p2);
  }

  /** The flick token: it starts with `F` exactly for a flickable hit, and what follows the
      `F`, when anything does, reads back as the direction. */
  lemma FlickToken(hit: HitObject)
    ensures var t := E.FlickFlag(hit);
      && t != [] && ' ' !in t && '\n' !in t
      && (t[0] == 'F' <==> hit.flickable)
      && (if |t| > 1 then ParseFloat(t[1..]) == Ok(FlickReadBack(hit)) else FlickReadBack(hit) == NaN)
  {
    if hit.flickable && IsFinite(hit.flickDirection) {
      var s := FormatFloat(hit.flickDirection);
      NumberToken(hit.flickDirection);
      assert ("F" + s)[1..] == s;
      ParseFormatFloat(hit.flickDirection);
    }
  }

  lemma GroupTokens(g: LaneGroup)
    ensures Split(E.GroupRecord(g), ' ') ==
      ["+", "Group"] + Split(E.EncodeVector(g.position), ' ') + Split(E.EncodeVector(g.rotation), ' ')
  {
    Around("+ Group " + E.EncodeVector(g.position), E.EncodeVector(g.rotation));
    GroupHead(E.EncodeVector(g.position));
  }

  lemma LaneStyleTokens(s: LaneStyle)
    ensures Split(E.LaneStyleRecord(s), ' ') ==
      ["+", "LaneStyle"] + Split(EncodeColor(s.laneColor), ' ') + Split(EncodeColor(s.judgeColor), ' ')
  {
    Around("+ LaneStyle " + EncodeColor(s.laneColor), EncodeColor(s.judgeColor));
    LaneStyleHead(EncodeColor(s.laneColor));
  }

  lemma HitStyleTokens(s: HitStyle)
    ensures Split(E.HitStyleRecord(s), ' ') ==
      ["+", "HitStyle"] + Split(EncodeColor(s.holdTailColor), ' ') + Split(EncodeColor(s.normalColor), ' ')
        + Split(EncodeColor(s.catchColor), ' ')
  {
    var front := "+ HitStyle " + EncodeColor(s.holdTailColor);
    Around(front + " " + EncodeColor(s.normalColor), EncodeColor(s.catchColor));
    Around(front, EncodeColor(s.normalColor));
    HitStyleHead(EncodeColor(s.holdTailColor));
  }

  lemma LaneTokens(lane: Lane)
    ensures Split(E.LaneRecord(lane), ' ') ==
      ["+", "Lane"] + Split(E.EncodeVector(lane.position), ' ') + Split(E.EncodeVector(lane.rotation), ' ')
        + [FormatInt(lane.styleIndex)]
  {
    var front := "+ Lane " + E.EncodeVector(lane.position);
    IntHasNoSpace(lane.styleIndex);
    Behind(front + " " + E.EncodeVector(lane.rotation), FormatInt(lane.styleIndex));
    Around(front, E.EncodeVector(lane.rotation));
    LaneHead(E.EncodeVector(lane.position));
  }

  // ---------------------------------------------------------------- record lines

  /** A line that starts with `+` is an object line. */
  lemma PlusLineIsObject(body: string)
    requires body != [] && body[0] == '+'
    ensures Classify(body) == ObjectLine
  {
    assert body[..1] == "+";
  }

  /** An indented line that starts with `+` is an object line, read from its tokens. */
  lemma RecordStep(st: ValidState, depth: nat, body: string, names: EnumNames, blanks: Blanks)
    requires body != [] && body[0] == '+'
    ensures Step(st, Spaces(depth) + body, names, blanks) == ApplyObject(st, Split(body, ' '), names, blanks)
  {
    TrimStartIndented(Spaces(depth), body);
    PlusLineIsObject(body);
    StepIsTrimmed(st, Spaces(depth) + body, names, blanks);
    ObjectTrimmed(st, body, names, blanks);
  }

  /** The object table for a group, a style and a lane, over tokens whose fields parse. */
  lemma GroupLine(st: ValidState, tokens: seq<string>, names: EnumNames, blanks: Blanks, g: LaneGroup)
    requires |tokens| >= 8 && tokens[1] == "Group" && ParseGroup(tokens, blanks.group) == Ok(g)
    ensures var c := st.chart; var t := GroupAt(|c.groups|);
      ApplyObject(st, tokens, names, blanks) == Ok(st.(chart := c.(groups := c.groups + [g]), currentObject := t, currentStoryboard := t))
  {
  }

  lemma LaneStyleLine(st: ValidState, tokens: seq<string>, names: EnumNames, blanks: Blanks, s: LaneStyle)
    requires |tokens| >= 10 && tokens[1] == "LaneStyle" && ParseLaneStyle(tokens, blanks.laneStyle) == Ok(s)
    ensures var c := st.chart; var t := LaneStyleAt(|c.palette.laneStyles|);
      ApplyObject(st, tokens, names, blanks) ==
        Ok(st.(chart := c.(palette := c.palette.(laneStyles := c.palette.laneStyles + [s])), currentObject := t, currentStoryboard := t))
  {
  }

  lemma HitStyleLine(st: ValidState, tokens: seq<string>, names: EnumNames, blanks: Blanks, s: HitStyle)
    requires |tokens| >= 14 && tokens[1] == "HitStyle" && ParseHitStyle(tokens, blanks.hitStyle) == Ok(s)
    ensures var c := st.chart; var t := HitStyleAt(|c.palette.hitStyles|);
      ApplyObject(st, tokens, names, blanks) ==
        Ok(st.(chart := c.(palette := c.palette.(hitStyles := c.palette.hitStyles + [s])), currentObject := t, currentStoryboard := t))
  {
  }

  lemma LaneLine(st: ValidState, tokens: seq<string>, names: EnumNames, blanks: Blanks, lane: Lane)
    requires |tokens| >= 9 && tokens[1] == "Lane" && ParseLane(tokens, blanks.lane) == Ok(lane)
    ensures var c := st.chart; var t := LaneAt(|c.lanes|);
      ApplyObject(st, tokens, names, blanks) ==
        Ok(st.(chart := c.(lanes := c.lanes + [lane]), currentObject := t, currentStoryboard := t, currentLane := Some(|c.lanes|)))
  {
  }

  /** The fields of each record, read from the tokens the encoder writes. */
  lemma GroupFields(g: LaneGroup, blank: LaneGroup, tokens: seq<string>)
    requires tokens == ["+", "Group"] + [FormatFloat(g.position.x), FormatFloat(g.position.y), FormatFloat(g.position.z)]
      + [FormatFloat(g.rotation.x), FormatFloat(g.rotation.y), FormatFloat(g.rotation.z)]
    ensures ParseGroup(tokens, blank) == Ok(GroupRecordReadBack(g, blank))
  {
    ParseFormatFloat(g.position.x);
    ParseFormatFloat(g.position.y);
    ParseFormatFloat(g.position.z);
    ParseFormatFloat(g.rotation.x);
    ParseFormatFloat(g.rotation.y);
    ParseFormatFloat(g.rotation.z);
  }

  /** The four tokens of a colour, read from position `i`. */
  lemma ColorRead(tokens: seq<string>, i: nat, c: Color)
    requires i + 4 <= |tokens| && tokens[i..i + 4] == Split(EncodeColor(c), ' ')
    ensures ColorAt(tokens, i) == Ok(c)
  {
    ColorTokens(c);
    assert tokens[i] == tokens[i..i + 4][0] && tokens[i + 1] == tokens[i..i + 4][1];
    assert tokens[i + 2] == tokens[i..i + 4][2] && tokens[i + 3] == tokens[i..i + 4][3];
    ParseFormatFloat(c.r);
    ParseFormatFloat(c.g);
    ParseFormatFloat(c.b);
    ParseFormatFloat(c.a);
  }

  /** Where the colour blocks of a style record sit among its tokens. */
  lemma ColorSlices(h: seq<string>, x: seq<string>, y: seq<string>, z: seq<string>)
    requires |h| == 2 && |x| == 4 && |y| == 4
    ensures (h + x + y)[2..6] == x && (h + x + y)[6..10] == y
    ensures (h + x + y + z)[2..6] == x && (h + x + y + z)[6..10] == y && (h + x + y + z)[10..10 + |z|] == z
  {
  }

  lemma LaneStyleReads(tokens: seq<string>, blank: LaneStyle, lane: Color, judge: Color)
    requires ColorAt(tokens, 2) == Ok(lane) && ColorAt(tokens, 6) == Ok(judge)
    ensures ParseLaneStyle(tokens, blank) == Ok(blank.(laneColor := lane, judgeColor := judge))
  {
  }

  lemma HitStyleReads(tokens: seq<string>, blank: HitStyle, holdTail: Color, normal: Color, catchColor: Color)
    requires ColorAt(tokens, 2) == Ok(holdTail) && ColorAt(tokens, 6) == Ok(normal) && ColorAt(tokens, 10) == Ok(catchColor)
    ensures ParseHitStyle(tokens, blank) == Ok(blank.(holdTailColor := holdTail, normalColor := normal, catchColor := catchColor))
  {
  }

  lemma LaneStyleFields(s: LaneStyle, blank: LaneStyle, tokens: seq<string>)
    requires tokens == ["+", "LaneStyle"] + Split(EncodeColor(s.laneColor), ' ') + Split(EncodeColor(s.judgeColor), ' ')
    ensures ParseLaneStyle(tokens, blank) == Ok(LaneStyleRecordReadBack(s, blank))
  {
    ColorTokens(s.laneColor);
    ColorTokens(s.judgeColor);
    ColorSlices(["+", "LaneStyle"], Split(EncodeColor(s.laneColor), ' '), Split(EncodeColor(s.judgeColor), ' '), []);
    ColorRead(tokens, 2, s.laneColor);
    ColorRead(tokens, 6, s.judgeColor);
    LaneStyleReads(tokens, blank, s.laneColor, s.judgeColor);
  }

  lemma HitStyleFields(s: HitStyle, blank: HitStyle, tokens: seq<string>)
    requires tokens == ["+", "HitStyle"] + Split(EncodeColor(s.holdTailColor), ' ') + Split(EncodeColor(s.normalColor), ' ')
      + Split(EncodeColor(s.catchColor), ' ')
    ensures ParseHitStyle(tokens, blank) == Ok(HitStyleRecordReadBack(s, blank))
  {
    ColorTokens(s.holdTailColor);
    ColorTokens(s.normalColor);
    ColorTokens(s.catchColor);
    ColorSlices(["+", "HitStyle"], Split(EncodeColor(s.holdTailColor), ' '), Split(EncodeColor(s.normalColor), ' '),
      Split(EncodeColor(s.catchColor), ' '));
    ColorRead(tokens, 2, s.holdTailColor);
    ColorRead(tokens, 6, s.normalColor);
    ColorRead(tokens, 10, s.catchColor);
    HitStyleReads(tokens, blank, s.holdTailColor, s.normalColor, s.catchColor);
  }

  lemma LaneFields(lane: Lane, blank: Lane, tokens: seq<string>)
    requires tokens == ["+", "Lane"] + [FormatFloat(lane.position.x), FormatFloat(lane.position.y), FormatFloat(lane.position.z)]
      + [FormatFloat(lane.rotation.x), FormatFloat(lane.rotation.y), FormatFloat(lane.rotation.z)] + [FormatInt(lane.styleIndex)]
    ensures ParseLane(tokens, blank) == Ok(LaneRecordReadBack(lane, blank))
  {
    ParseFormatFloat(lane.position.x);
    ParseFormatFloat(lane.position.y);
    ParseFormatFloat(lane.position.z);
    ParseFormatFloat(lane.rotation.x);
    ParseFormatFloat(lane.rotation.y);
    ParseFormatFloat(lane.rotation.z);
    ParseFormatInt(lane.styleIndex);
  }

  /** A group's record line appends a group with the written position and rotation, which
      becomes the current object and storyboard. */
  lemma GroupRecordStep(st: ValidState, g: LaneGroup, depth: nat, names: EnumNames, blanks: Blanks)
    ensures var c := st.chart; var t := GroupAt(|c.groups|);
      Step(st, Spaces(depth) + E.GroupRecord(g), names, blanks) ==
        Ok(st.(chart := c.(groups := c.groups + [GroupRecordReadBack(g, blanks.group)]),
               currentObject := t, currentStoryboard := t))
  {
    var tokens := Split(E.GroupRecord(g), ' ');
    GroupTokens(g);
    VectorTokens(g.position);
    VectorTokens(g.rotation);
    GroupFields(g, blanks.group, tokens);
    GroupLine(st, tokens, names, blanks, GroupRecordReadBack(g, blanks.group));
    RecordStep(st, depth, E.GroupRecord(g), names, blanks);
  }

  /** A lane style's record line appends a style with the two written colours. */
  lemma LaneStyleRecordStep(st: ValidState, s: LaneStyle, depth: nat, names: EnumNames, blanks: Blanks)
    ensures var c := st.chart; var t := LaneStyleAt(|c.palette.laneStyles|);
      Step(st, Spaces(depth) + E.LaneStyleRecord(s), names, blanks) ==
        Ok(st.(chart := c.(palette := c.palette.(laneStyles := c.palette.laneStyles + [LaneStyleRecordReadBack(s, blanks.laneStyle)])),
               currentObject := t, currentStoryboard := t))
  {
    var tokens := Split(E.LaneStyleRecord(s), ' ');
    LaneStyleTokens(s);
    ColorTokens(s.laneColor);
    ColorTokens(s.judgeColor);
    LaneStyleFields(s, blanks.laneStyle, tokens);
    LaneStyleLine(st, tokens, names, blanks, LaneStyleRecordReadBack(s, blanks.laneStyle));
    RecordStep(st, depth, E.LaneStyleRecord(s), names, blanks);
  }

  /** A hit style's record line appends a style with the three written colours. */
  lemma HitStyleRecordStep(st: ValidState, s: HitStyle, depth: nat, names: EnumNames, blanks: Blanks)
    ensures var c := st.chart; var t := HitStyleAt(|c.palette.hitStyles|);
      Step(st, Spaces(depth) + E.HitStyleRecord(s), names, blanks) ==
        Ok(st.(chart := c.(palette := c.palette.(hitStyles := c.palette.hitStyles + [HitStyleRecordReadBack(s, blanks.hitStyle)])),
               currentObject := t, currentStoryboard := t))
  {
    var tokens := Split(E.HitStyleRecord(s), ' ');
    HitStyleTokens(s);
    ColorTokens(s.holdTailColor);
    ColorTokens(s.normalColor);
    ColorTokens(s.catchColor);
    HitStyleFields(s, blanks.hitStyle, tokens);
    HitStyleLine(st, tokens, names, blanks, HitStyleRecordReadBack(s, blanks.hitStyle));
    RecordStep(st, depth, E.HitStyleRecord(s), names, blanks);
  }

  /** The tokens of a lane's record line: the marker, the kind, six numbers and the style. */
  lemma LaneRecordTokens(lane: Lane)
    ensures Split(E.LaneRecord(lane), ' ') == ["+", "Lane"]
      + [FormatFloat(lane.position.x), FormatFloat(lane.position.y), FormatFloat(lane.position.z)]
      + [FormatFloat(lane.rotation.x), FormatFloat(lane.rotation.y), FormatFloat(lane.rotation.z)]
      + [FormatInt(lane.styleIndex)]
  {
    LaneTokens(lane);
    VectorTokens(lane.position);
    VectorTokens(lane.rotation);
  }

  /** A lane's record line appends a lane with the written position, rotation and style,
      which becomes the current lane, object and storyboard. */
  lemma LaneRecordStep(st: ValidState, lane: Lane, depth: nat, names: EnumNames, blanks: Blanks)
    ensures var c := st.chart; var t := LaneAt(|c.lanes|);
      Step(st, Spaces(depth) + E.LaneRecord(lane), names, blanks) ==
        Ok(st.(chart := c.(lanes := c.lanes + [LaneRecordReadBack(lane, blanks.lane)]),
               currentObject := t, currentStoryboard := t, currentLane := Some(|c.lanes|)))
  {
    var tokens := Split(E.LaneRecord(lane), ' ');
    LaneRecordTokens(lane);
    LaneFields(lane, blanks.lane, tokens);
    LaneLine(st, tokens, names, blanks, LaneRecordReadBack(lane, blanks.lane));
    RecordStep(st, depth, E.LaneRecord(lane), names, blanks);
  }

  // ---------------------------------------------------------------- lane steps and hits

  lemma LaneStepHead(rest: string)
    ensures Split("+ LaneStep " + rest, ' ') == ["+", "LaneStep"] + Split(rest, ' ')
  {
    RecordHead("+ LaneStep ", "LaneStep", rest);
  }

  lemma HitHead(rest: string)
    ensures Split("+ Hit " + rest, ' ') == ["+", "Hit"] + Split(rest, ' ')
  {
    RecordHead("+ Hit ", "Hit", rest);
  }

  /** A trailing space leaves an empty last token. */
  lemma Trailing(a: string)
    ensures Split(a + " ", ' ') == Split(a, ' ') + [""]
  {
    assert a + " " == a + " " + "";
    Behind(a, "");
  }

  /** Five space-free tokens behind a head. */
  lemma FiveBehind(h: string, a: string, b: string, c: string, d: string, e: string)
    requires ' ' !in a && ' ' !in b && ' ' !in c && ' ' !in d && ' ' !in e
    ensures Split(h + " " + a + " " + b + " " + c + " " + d + " " + e, ' ') == Split(h, ' ') + [a] + [b] + [c] + [d] + [e]
  {
    var p1 := h + " " + a;
    Behind(h, a);
    var p2 := p1 + " " + b;
    Behind(p1, b);
    var p3 := p2 + " " + c;
    Behind(p2, c);
    var p4 := p3 + " " + d;
    Behind(p3, d);
    Behind(p4, e);
  }

  lemma FlatSeven(x0: string, x1: string, a: string, b: string, c: string, d: string, e: string)
    ensures [x0] + [x1] + [a] + [b] + [c] + [d] + [e] == [x0, x1, a, b, c, d, e]
  {
  }

  lemma FlatLaneStep(x0: string, x1: string, x2: string, v0: string, v1: string, e1: string, e2: string,
                     w0: string, w1: string, e3: string, e4: string, sp: string)
    ensures [x0, x1] + [x2] + [v0, v1] + [e1] + [e2] + [w0, w1] + [e3] + [e4] + [sp] ==
      [x0, x1, x2, v0, v1, e1, e2, w0, w1, e3, e4, sp]
  {
  }

  lemma FlatHit(x0: string, x1: string, x2: string, a: string, b: string, c: string, d: string, e: string, f: string)
    ensures [x0, x1] + [x2] + [a] + [b] + [c] + [d] + [e] + [f] + [""] == [x0, x1, x2, a, b, c, d, e, f, ""]
  {
  }

  /** The shape of a lane step record: two vectors, each followed by two eases, then the speed. */
  lemma LaneStepShape(h: string, v: string, e1: string, e2: string, w: string, e3: string, e4: string, sp: string)
    requires ' ' !in e1 && ' ' !in e2 && ' ' !in e3 && ' ' !in e4 && ' ' !in sp
    ensures Split(h + " " + v + " " + e1 + " " + e2 + " " + w + " " + e3 + " " + e4 + " " + sp, ' ') ==
      Split(h, ' ') + Split(v, ' ') + [e1] + [e2] + Split(w, ' ') + [e3] + [e4] + [sp]
  {
    var p1 := h + " " + v;
    Around(h, v);
    var p2 := p1 + " " + e1;
    Behind(p1, e1);
    var p3 := p2 + " " + e2;
    Behind(p2, e2);
    var p4 := p3 + " " + w;
    Around(p3, w);
    var p5 := p4 + " " + e3;
    Behind(p4, e3);
    var p6 := p5 + " " + e4;
    Behind(p5, e4);
    Behind(p6, sp);
  }

  /** The shape of a hit record: six tokens behind the head, then a trailing space. */
  lemma HitShape(h: string, a: string, b: string, c: string, d: string, e: string, f: string)
    requires ' ' !in a && ' ' !in b && ' ' !in c && ' ' !in d && ' ' !in e && ' ' !in f
    ensures Split(h + " " + a + " " + b + " " + c + " " + d + " " + e + " " + f + " ", ' ') ==
      Split(h, ' ') + [a] + [b] + [c] + [d] + [e] + [f] + [""]
  {
    var p5 := h + " " + a + " " + b + " " + c + " " + d + " " + e;
    FiveBehind(h, a, b, c, d, e);
    Behind(p5, f);
    Trailing(p5 + " " + f);
  }

  lemma LaneStepTokens(step: LaneStep, beat: E.BeatText)
    requires ' ' !in beat(step.offset) && StepEasesConstructible(step)
    ensures Split(E.LaneStepRecord(step, beat), ' ') ==
      ["+", "LaneStep", beat(step.offset), FormatFloat(step.startPoint.x), FormatFloat(step.startPoint.y),
       E.EncodeEase(step.startEaseX), E.EncodeEase(step.startEaseY), FormatFloat(step.endPoint.x), FormatFloat(step.endPoint.y),
       E.EncodeEase(step.endEaseX), E.EncodeEase(step.endEaseY), FormatFloat(step.speed)]
  {
    var b := beat(step.offset);
    EaseToken(step.startEaseX);
    EaseToken(step.startEaseY);
    EaseToken(step.endEaseX);
    EaseToken(step.endEaseY);
    NumberToken(step.speed);
    LaneStepHead(b);
    SplitSingle(b, ' ');
    Vector2Tokens(step.startPoint);
    Vector2Tokens(step.endPoint);
    LaneStepShape("+ LaneStep " + b, EncodeVector2(step.startPoint), E.EncodeEase(step.startEaseX), E.EncodeEase(step.startEaseY),
      EncodeVector2(step.endPoint), E.EncodeEase(step.endEaseX), E.EncodeEase(step.endEaseY), FormatFloat(step.speed));
    FlatLaneStep("+", "LaneStep", b, FormatFloat(step.startPoint.x), FormatFloat(step.startPoint.y),
      E.EncodeEase(step.startEaseX), E.EncodeEase(step.startEaseY), FormatFloat(step.endPoint.x), FormatFloat(step.endPoint.y),
      E.EncodeEase(step.endEaseX), E.EncodeEase(step.endEaseY), FormatFloat(step.speed));
  }

  lemma HitTokens(hit: HitObject, beat: E.BeatText)
    requires ' ' !in hit.hitType && ' ' !in beat(hit.offset)
    ensures Split(E.HitRecord(hit, beat), ' ') ==
      ["+", "Hit", hit.hitType, beat(hit.offset), FormatFloat(hit.position), FormatFloat(hit.length),
       FormatFloat(hit.holdLength), E.FlickFlag(hit), FormatInt(hit.styleIndex), ""]
  {
    NumberToken(hit.position);
    NumberToken(hit.length);
    NumberToken(hit.holdLength);
    FlickToken(hit);
    IntHasNoSpace(hit.styleIndex);
    HitHead(hit.hitType);
    SplitSingle(hit.hitType, ' ');
    HitShape("+ Hit " + hit.hitType, beat(hit.offset), FormatFloat(hit.position), FormatFloat(hit.length),
      FormatFloat(hit.holdLength), E.FlickFlag(hit), FormatInt(hit.styleIndex));
    FlatHit("+", "Hit", hit.hitType, beat(hit.offset), FormatFloat(hit.position), FormatFloat(hit.length),
      FormatFloat(hit.holdLength), E.FlickFlag(hit), FormatInt(hit.styleIndex));
  }

  /** The object table for a lane step and a hit: each goes into the current lane. */
  lemma LaneStepLine(st: ValidState, tokens: seq<string>, names: EnumNames, blanks: Blanks, step: LaneStep)
    requires st.currentLane.Some?
    requires |tokens| >= 12 && tokens[1] == "LaneStep" && ParseLaneStep(tokens, blanks.laneStep) == Ok(step)
    ensures var c, l := st.chart, st.currentLane.value; var t := LaneStepAt(l, |c.lanes[l].laneSteps|);
      ApplyObject(st, tokens, names, blanks) == Ok(st.(chart := AppendLaneStep(c, l, step), currentObject := t, currentStoryboard := t))
  {
  }

  lemma HitLine(st: ValidState, tokens: seq<string>, names: EnumNames, blanks: Blanks, hit: HitObject)
    requires st.currentLane.Some?
    requires |tokens| >= 10 && tokens[1] == "Hit" && ParseHitObject(tokens, names, blanks.hitObject) == Ok(hit)
    ensures var c, l := st.chart, st.currentLane.value; var t := HitObjectAt(l, |c.lanes[l].objects|);
      ApplyObject(st, tokens, names, blanks) == Ok(st.(chart := AppendHitObject(c, l, hit), currentObject := t, currentStoryboard := t))
  {
  }

  lemma Vec2Read(tokens: seq<string>, i: nat, v: Vec2)
    requires i + 1 < |tokens| && tokens[i] == FormatFloat(v.x) && tokens[i + 1] == FormatFloat(v.y)
    ensures Vec2At(tokens, i) == Ok(v)
  {
    ParseFormatFloat(v.x);
    ParseFormatFloat(v.y);
  }

  lemma EaseRead(tokens: seq<string>, i: nat, d: EaseDirective)
    requires IsConstructible(d) && i < |tokens| && tokens[i] == E.EncodeEase(d)
    ensures EasingAt(tokens, i) == Ok(EaseReadBack(d))
  {
    EaseToken(d);
  }

  /** `ParseLaneStep` from what each of its fields reads as. */
  lemma LaneStepReads(tokens: seq<string>, blank: LaneStep, offset: BeatPosition, start: Vec2, end: Vec2,
                      sx: EaseDirective, sy: EaseDirective, ex: EaseDirective, ey: EaseDirective, speed: Float)
    requires |tokens| >= 12 && ParseTime(tokens[2]) == Ok(offset)
    requires Vec2At(tokens, 3) == Ok(start) && Vec2At(tokens, 7) == Ok(end)
    requires EasingAt(tokens, 5) == Ok(sx) && EasingAt(tokens, 6) == Ok(sy)
    requires EasingAt(tokens, 9) == Ok(ex) && EasingAt(tokens, 10) == Ok(ey)
    requires FloatAt(tokens, 11) == Ok(speed)
    ensures ParseLaneStep(tokens, blank) ==
      Ok(blank.(offset := offset, startPoint := start, startEaseX := sx, startEaseY := sy,
                endPoint := end, endEaseX := ex, endEaseY := ey, speed := speed))
  {
  }

  lemma LaneStepFields(step: LaneStep, beat: E.BeatText, blank: LaneStep, tokens: seq<string>)
    requires BeatReadsBack(beat, step.offset) && StepEasesConstructible(step)
    requires |tokens| == 12 && tokens[2] == beat(step.offset)
    requires tokens[3] == FormatFloat(step.startPoint.x) && tokens[4] == FormatFloat(step.startPoint.y)
    requires tokens[5] == E.EncodeEase(step.startEaseX) && tokens[6] == E.EncodeEase(step.startEaseY)
    requires tokens[7] == FormatFloat(step.endPoint.x) && tokens[8] == FormatFloat(step.endPoint.y)
    requires tokens[9] == E.EncodeEase(step.endEaseX) && tokens[10] == E.EncodeEase(step.endEaseY)
    requires tokens[11] == FormatFloat(step.speed)
    ensures ParseLaneStep(tokens, blank) == Ok(LaneStepRecordReadBack(step, blank))
  {
    Vec2Read(tokens, 3, step.startPoint);
    Vec2Read(tokens, 7, step.endPoint);
    EaseRead(tokens, 5, step.startEaseX);
    EaseRead(tokens, 6, step.startEaseY);
    EaseRead(tokens, 9, step.endEaseX);
    EaseRead(tokens, 10, step.endEaseY);
    ParseFormatFloat(step.speed);
    LaneStepReads(tokens, blank, step.offset, step.startPoint, step.endPoint, EaseReadBack(step.startEaseX),
      EaseReadBack(step.startEaseY), EaseReadBack(step.endEaseX), EaseReadBack(step.endEaseY), step.speed);
  }

  /** Reading the twelve tokens of a lane step record by position. */
  lemma LaneStepList(tokens: seq<string>, b: string, sx: string, sy: string, e1: string, e2: string,
                     ex: string, ey: string, e3: string, e4: string, sp: string)
    requires tokens == ["+", "LaneStep", b, sx, sy, e1, e2, ex, ey, e3, e4, sp]
    ensures |tokens| == 12 && tokens[1] == "LaneStep" && tokens[2] == b
    ensures tokens[3] == sx && tokens[4] == sy && tokens[5] == e1 && tokens[6] == e2
    ensures tokens[7] == ex && tokens[8] == ey && tokens[9] == e3 && tokens[10] == e4 && tokens[11] == sp
  {
  }

  /** The lane step record splits into tokens that parse back to the step. */
  lemma LaneStepParsed(step: LaneStep, beat: E.BeatText, blank: LaneStep)
    requires BeatReadsBack(beat, step.offset) && StepEasesConstructible(step)
    ensures var tokens := Split(E.LaneStepRecord(step, beat), ' ');
      |tokens| >= 12 && tokens[1] == "LaneStep" && ParseLaneStep(tokens, blank) == Ok(LaneStepRecordReadBack(step, blank))
  {
    var tokens := Split(E.LaneStepRecord(step, beat), ' ');
    LaneStepTokens(step, beat);
    LaneStepList(tokens, beat(step.offset), FormatFloat(step.startPoint.x), FormatFloat(step.startPoint.y),
      E.EncodeEase(step.startEaseX), E.EncodeEase(step.startEaseY), FormatFloat(step.endPoint.x), FormatFloat(step.endPoint.y),
      E.EncodeEase(step.endEaseX), E.EncodeEase(step.endEaseY), FormatFloat(step.speed));
    LaneStepFields(step, beat, blank, tokens);
  }

  lemma HitFields(hit: HitObject, beat: E.BeatText, names: EnumNames, blank: HitObject, tokens: seq<string>)
    requires hit.hitType in names.hitTypes && BeatReadsBack(beat, hit.offset)
    requires tokens ==
      ["+", "Hit", hit.hitType, beat(hit.offset), FormatFloat(hit.position), FormatFloat(hit.length),
       FormatFloat(hit.holdLength), E.FlickFlag(hit), FormatInt(hit.styleIndex), ""]
    ensures ParseHitObject(tokens, names, blank) == Ok(HitRecordReadBack(hit, blank))
  {
    HitList(tokens, hit.hitType, beat(hit.offset), FormatFloat(hit.position), FormatFloat(hit.length),
            FormatFloat(hit.holdLength), E.FlickFlag(hit), FormatInt(hit.styleIndex));
    ParseFormatFloat(hit.position);
    ParseFormatFloat(hit.length);
    ParseFormatFloat(hit.holdLength);
    ParseFormatInt(hit.styleIndex);
    FlickToken(hit);
    HitReads(tokens, names, blank, hit.hitType, hit.offset, hit.position, hit.length, hit.holdLength,
             FlickReadBack(hit), hit.styleIndex);
  }

  lemma HitList(tokens: seq<string>, t: string, b: string, p: string, l: string, h: string, f: string, i: string)
    requires tokens == ["+", "Hit", t, b, p, l, h, f, i, ""]
    ensures |tokens| == 10 && tokens[2] == t && tokens[3] == b && tokens[4] == p && tokens[5] == l
    ensures tokens[6] == h && tokens[7] == f && tokens[8] == i && tokens[9] == ""
  {
  }

  /** A hit line parses from what each of its fields reads as; an empty last token makes a
      real hit. */
  lemma HitReads(tokens: seq<string>, names: EnumNames, blank: HitObject, hitType: string, offset: BeatPosition,
                 position: Float, length: Float, holdLength: Float, direction: Float, styleIndex: Int32)
    requires |tokens| == 10 && hitType in names.hitTypes && tokens[2] == hitType
    requires ParseTime(tokens[3]) == Ok(offset)
    requires ParseFloat(tokens[4]) == Ok(position) && ParseFloat(tokens[5]) == Ok(length)
    requires ParseFloat(tokens[6]) == Ok(holdLength)
    requires tokens[7] != [] && if |tokens[7]| > 1 then ParseFloat(tokens[7][1..]) == Ok(direction) else direction == NAN
    requires ParseInt(tokens[8]) == Ok(styleIndex) && tokens[9] == ""
    ensures ParseHitObject(tokens, names, blank) ==
      Ok(blank.(hitType := hitType, offset := offset, position := position, length := length,
                holdLength := holdLength, flickable := tokens[7][0] == 'F', flickDirection := direction,
                styleIndex := styleIndex, isFake := false))
  {
  }

  /** The hit record splits into tokens that parse back to the hit. */
  lemma HitParsed(hit: HitObject, beat: E.BeatText, names: EnumNames, blank: HitObject)
    requires hit.hitType in names.hitTypes && ' ' !in hit.hitType && BeatReadsBack(beat, hit.offset)
    ensures var tokens := Split(E.HitRecord(hit, beat), ' ');
      |tokens| >= 10 && tokens[1] == "Hit" && ParseHitObject(tokens, names, blank) == Ok(HitRecordReadBack(hit, blank))
  {
    HitTokens(hit, beat);
    HitFields(hit, beat, names, blank, Split(E.HitRecord(hit, beat), ' '));
  }

  /** A lane step's record line appends the step, with every field written, to the current
      lane, and makes it the current object and storyboard. */
  lemma LaneStepRecordStep(st: ValidState, step: LaneStep, depth: nat, beat: E.BeatText, names: EnumNames, blanks: Blanks)
    requires st.currentLane.Some?
    requires BeatReadsBack(beat, step.offset) && StepEasesConstructible(step)
    ensures var c, l := st.chart, st.currentLane.value; var t := LaneStepAt(l, |c.lanes[l].laneSteps|);
      Step(st, Spaces(depth) + E.LaneStepRecord(step, beat), names, blanks) ==
        Ok(st.(chart := AppendLaneStep(c, l, LaneStepRecordReadBack(step, blanks.laneStep)), currentObject := t, currentStoryboard := t))
  {
    var tokens := Split(E.LaneStepRecord(step, beat), ' ');
    LaneStepParsed(step, beat, blanks.laneStep);
    LaneStepLine(st, tokens, names, blanks, LaneStepRecordReadBack(step, blanks.laneStep));
    RecordStep(st, depth, E.LaneStepRecord(step, beat), names, blanks);
  }

  /** A hit's record line appends the hit, with every field written and as a real hit, to the
      current lane, and makes it the current object and storyboard. */
  lemma HitRecordStep(st: ValidState, hit: HitObject, depth: nat, beat: E.BeatText, names: EnumNames, blanks: Blanks)
    requires st.currentLane.Some?
    requires hit.hitType in names.hitTypes && ' ' !in hit.hitType && BeatReadsBack(beat, hit.offset)
    ensures var c, l := st.chart, st.currentLane.value; var t := HitObjectAt(l, |c.lanes[l].objects|);
      Step(st, Spaces(depth) + E.HitRecord(hit, beat), names, blanks) ==
        Ok(st.(chart := AppendHitObject(c, l, HitRecordReadBack(hit, blanks.hitObject)), currentObject := t, currentStoryboard := t))
  {
    var tokens := Split(E.HitRecord(hit, beat), ' ');
    HitParsed(hit, beat, names, blanks.hitObject);
    HitLine(st, tokens, names, blanks, HitRecordReadBack(hit, blanks.hitObject));
    RecordStep(st, depth, E.HitRecord(hit, beat), names, blanks);
  }

  // ---------------------------------------------------------------- storyboard lines

  lemma TimestampHead(rest: string)
    ensures Split("$ " + rest, ' ') == ["$"] + Split(rest, ' ')
  {
    assert "$ " + rest == "$" + [' '] + rest;
    SplitConcatFirst("$", rest, ' ');
  }

  /** The from token: a number when finite, `_` otherwise. */
  lemma FromToken(f: Float)
    ensures var t := E.TimestampFrom(f);
      && ' ' !in t && '\n' !in t
      && (t == "_" <==> !IsFinite(f))
      && (IsFinite(f) ==> ParseFloat(t) == Ok(f))
  {
    NumberToken(f);
    ParseFormatFloat(f);
  }

  lemma TimestampTokens(ts: Timestamp, beat: E.BeatText)
    requires ' ' !in ts.id && ' ' !in beat(ts.offset) && IsConstructible(ts.easing)
    ensures Split(E.TimestampRecord(ts, beat), ' ') ==
      ["$", ts.id, beat(ts.offset), FormatFloat(ts.duration), FormatFloat(ts.target), E.TimestampFrom(ts.from), E.EncodeEase(ts.easing)]
  {
    NumberToken(ts.duration);
    NumberToken(ts.target);
    FromToken(ts.from);
    EaseToken(ts.easing);
    TimestampHead(ts.id);
    SplitSingle(ts.id, ' ');
    FiveBehind("$ " + ts.id, beat(ts.offset), FormatFloat(ts.duration), FormatFloat(ts.target), E.TimestampFrom(ts.from), E.EncodeEase(ts.easing));
    FlatSeven("$", ts.id, beat(ts.offset), FormatFloat(ts.duration), FormatFloat(ts.target), E.TimestampFrom(ts.from), E.EncodeEase(ts.easing));
  }

  lemma TimestampFields(ts: Timestamp, beat: E.BeatText, names: EnumNames, tokens: seq<string>)
    requires ts.id in names.timestampIds && BeatReadsBack(beat, ts.offset) && IsConstructible(ts.easing)
    requires tokens ==
      ["$", ts.id, beat(ts.offset), FormatFloat(ts.duration), FormatFloat(ts.target), E.TimestampFrom(ts.from), E.EncodeEase(ts.easing)]
    ensures ParseTimestamp(tokens, names) == Ok(TimestampReadBack(ts))
  {
    TimestampList(tokens, ts.id, beat(ts.offset), FormatFloat(ts.duration), FormatFloat(ts.target),
                  E.TimestampFrom(ts.from), E.EncodeEase(ts.easing));
    ParseFormatFloat(ts.duration);
    ParseFormatFloat(ts.target);
    FromToken(ts.from);
    EaseToken(ts.easing);
    var r := TimestampReadBack(ts);
    TimestampReads(tokens, names, r.id, r.offset, r.duration, r.target, r.from, r.easing);
  }

  lemma TimestampList(tokens: seq<string>, id: string, b: string, d: string, t: string, f: string, e: string)
    requires tokens == ["$", id, b, d, t, f, e]
    ensures |tokens| == 7 && tokens[1] == id && tokens[2] == b && tokens[3] == d
    ensures tokens[4] == t && tokens[5] == f && tokens[6] == e
  {
  }

  /** A storyboard line parses from what each of its fields reads as. */
  lemma TimestampReads(tokens: seq<string>, names: EnumNames, id: string, offset: BeatPosition,
                       duration: Float, target: Float, from: Float, easing: EaseDirective)
    requires |tokens| == 7 && tokens[1] == id && id in names.timestampIds
    requires ParseTime(tokens[2]) == Ok(offset)
    requires ParseFloat(tokens[3]) == Ok(duration) && ParseFloat(tokens[4]) == Ok(target)
    requires if tokens[5] == "_" then from == NAN else ParseFloat(tokens[5]) == Ok(from)
    requires ParseEasing(tokens[6]) == Ok(easing)
    ensures ParseTimestamp(tokens, names) == Ok(Timestamp(id, offset, duration, target, from, easing))
  {
  }

  /** A line that starts with `$` is a storyboard line. */
  lemma DollarLineIsStoryboard(body: string)
    requires body != [] && body[0] == '$'
    ensures Classify(body) == StoryboardLine
  {
    assert body[..1] == "$";
  }

  /** An indented line that starts with `$` is read as a storyboard line from its tokens. */
  lemma StoryboardStep(st: ValidState, depth: nat, body: string, names: EnumNames, blanks: Blanks)
    requires body != [] && body[0] == '$'
    ensures Step(st, Spaces(depth) + body, names, blanks) == ApplyStoryboard(st, Split(body, ' '), names)
  {
    TrimStartIndented(Spaces(depth), body);
    DollarLineIsStoryboard(body);
    StepIsTrimmed(st, Spaces(depth) + body, names, blanks);
    StoryboardTrimmed(st, body, names, blanks);
  }

  lemma TimestampApplies(st: ValidState, tokens: seq<string>, names: EnumNames, ts: Timestamp)
    requires st.currentStoryboard != Nothing
    requires |tokens| >= 7 && ParseTimestamp(tokens, names) == Ok(ts)
    ensures ApplyStoryboard(st, tokens, names) == Ok(st.(chart := AppendTimestamp(st.chart, st.currentStoryboard, ts)))
  {
  }

  /** A storyboard line appends the timestamp it was written from, with its from value NaN
      when it was not finite, to the end of the current storyboard, and changes nothing
      else. */
  lemma TimestampStep(st: ValidState, ts: Timestamp, depth: nat, beat: E.BeatText, names: EnumNames, blanks: Blanks)
    requires st.currentStoryboard != Nothing
    requires ts.id in names.timestampIds && ' ' !in ts.id && BeatReadsBack(beat, ts.offset) && IsConstructible(ts.easing)
    ensures Step(st, E.TimestampLine(ts, depth, beat), names, blanks) ==
      Ok(st.(chart := AppendTimestamp(st.chart, st.currentStoryboard, TimestampReadBack(ts))))
  {
    var tokens := Split(E.TimestampRecord(ts, beat), ' ');
    TimestampTokens(ts, beat);
    TimestampFields(ts, beat, names, tokens);
    TimestampApplies(st, tokens, names, TimestampReadBack(ts));
    StoryboardStep(st, depth, E.TimestampRecord(ts, beat), names, blanks);
  }

  // ---------------------------------------------------------------- version and metadata lines

  /** The version the encoder writes is one the decoder accepts: the line leaves the state as
      it was. */
  lemma EncodedVersionAccepted(st: ValidState, names: EnumNames, blanks: Blanks)
    requires st.currentObject == VersionString
    ensures Step(st, FormatInt(E.FORMAT_VERSION), names, blanks) == Ok(st)
  {
    VersionGate(st, E.FORMAT_VERSION, names, blanks);
  }

  lemma AltCharterText(name: string)
    ensures "Alt Charter:  " + name == "" + "Alt Charter" + ": " + (" " + name)
  {
  }

  lemma TrimAfterSpace(name: string)
    ensures Trim(" " + name) == Trim(name)
  {
    TrimStartAfterWhiteSpace(" ", name);
  }

  lemma AltCharterSet(c: Chart, v: string)
    ensures SetField(c, ChartObject, "Alt Charter", v) == Ok(c.(altCharterName := v))
  {
    assert "Alt Charter"[0] != "Index"[0] && "Alt Charter"[0] != "Name"[0] && "Alt Charter"[0] != "Charter"[0];
  }

  lemma AltCharterField(st: ValidState, value: string)
    requires st.currentObject == ChartObject
    ensures ApplyMetadata(st, "Alt Charter" + ": " + value) == Ok(st.(chart := st.chart.(altCharterName := Trim(value))))
  {
    MetadataLineRouting(st, "Alt Charter", value);
    AltCharterSet(st.chart, Trim(value));
  }

  /** The alternative charter line, written with two spaces after its colon, sets the
      alternative charter name to the trimmed name in the metadata section. */
  lemma AltCharterStep(st: ValidState, name: string, names: EnumNames, blanks: Blanks)
    requires st.currentObject == ChartObject
    ensures Step(st, "Alt Charter:  " + name, names, blanks) == Ok(st.(chart := st.chart.(altCharterName := Trim(name))))
  {
    AltCharterText(name);
    IndentedMetadataLine(st, "", "Alt Charter", " " + name, names, blanks);
    AltCharterField(st, " " + name);
    TrimAfterSpace(name);
  }
}
