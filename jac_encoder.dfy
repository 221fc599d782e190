/** `JACEncoder`: writes a chart as JANOARG chart text, the sections in a fixed order and each
    object as a record line followed by its indented metadata lines, its storyboard and, for a
    lane, its steps and hit objects. Optional lines are left out when their value is empty or
    the default. */
module JACEncoder {
  import opened Text
  import opened Numbers
  import opened Easing
  import opened ChartInfo
  import opened Values

  /** The version the encoder writes, below the 2 the decoder accepts. */
  const FORMAT_VERSION: int := 1
  const INDENT_SIZE: nat := 2

  /** How `BeatPosition.ToString(CultureInfo.InvariantCulture)` renders a beat position; the
      source of that type is not part of this model, so the encoder takes the rendering. */
  type BeatText = BeatPosition -> string

  // ---------------------------------------------------------------- values

  function EncodeVector(v: Vec3): string {
    FormatFloat(v.x) + " " + FormatFloat(v.y) + " " + FormatFloat(v.z)
  }

  /** `EncodeEase`: `Linear` for any linear directive, `Function/Mode` by enum member names for
      the other basic ones, `Bezier/x1;y1;x2;y2` for a curve. */
  function EncodeEase(d: EaseDirective): string {
    match d
    case Basic(f, m) => if f == Linear then "Linear" else FunctionName(f) + "/" + ModeName(m)
    case CubicBezier(p1, p2) =>
      "Bezier/" + FormatFloat(p1.x) + ";" + FormatFloat(p1.y) + ";" + FormatFloat(p2.x) + ";" + FormatFloat(p2.y)
  }

  // ---------------------------------------------------------------- storyboards

  /** The from value of a timestamp: its number, or `_` when it is not finite. */
  function TimestampFrom(f: Float): string {
    if IsFinite(f) then FormatFloat(f) else "_"
  }

  /** A `$ id offset duration target from ease` line, behind its indentation. */
  function TimestampRecord(ts: Timestamp, beat: BeatText): string {
    "$ " + ts.id + " " + beat(ts.offset) + " " + FormatFloat(ts.duration) + " "
      + FormatFloat(ts.target) + " " + TimestampFrom(ts.from) + " " + EncodeEase(ts.easing)
  }

  /** One timestamp's line, indented by `depth`. */
  function TimestampLine(ts: Timestamp, depth: nat, beat: BeatText): string {
    Spaces(depth) + TimestampRecord(ts, beat)
  }

  /** The storyboard's lines: one per timestamp, in storage order. */
  function StoryboardLines(sb: Storyboard, depth: nat, beat: BeatText): (r: seq<string>)
    ensures |r| == |sb|
    ensures forall i :: 0 <= i < |sb| ==> r[i] == TimestampLine(sb[i], depth, beat)
  {
    seq(|sb|, i requires 0 <= i < |sb| => TimestampLine(sb[i], depth, beat))
  }

  /** What `EncodeStoryboard` returns: each of the lines behind a line break. */
  function StoryboardText(sb: Storyboard, depth: nat, beat: BeatText): string {
    Lines(StoryboardLines(sb, depth, beat))
  }

  /** `EncodeStoryboard`: appends one line per timestamp. */
  method EncodeStoryboard(sb: Storyboard, depth: nat, beat: BeatText) returns (str: string)
    ensures str == StoryboardText(sb, depth, beat)
  {
    str := "";
    for i := 0 to |sb|
      invariant str == StoryboardText(sb[..i], depth, beat)
    {
      var line := TimestampLine(sb[i], depth, beat);
      StoryboardTextSnoc(sb, i, depth, beat);
      str := str + "\n" + line;
    }
    assert sb[..|sb|] == sb;
  }

  lemma StoryboardTextSnoc(sb: Storyboard, i: nat, depth: nat, beat: BeatText)
    requires i < |sb|
    ensures StoryboardText(sb[..i + 1], depth, beat) == StoryboardText(sb[..i], depth, beat) + "\n" + TimestampLine(sb[i], depth, beat)
  {
    var longer := StoryboardLines(sb[..i + 1], depth, beat);
    var shorter := StoryboardLines(sb[..i], depth, beat);
    assert longer == shorter + [TimestampLine(sb[i], depth, beat)];
    LinesSnoc(shorter, TimestampLine(sb[i], depth, beat));
  }

  // ---------------------------------------------------------------- records

  /** An optional `Key: value` line, written when `present`. */
  function OptionalLine(present: bool, indent: string, key: string, value: string): (r: string)
    ensures r != "" <==> present
    ensures present ==> |r| > |value| && r[0] == '\n' && r[|r| - |value|..] == value
  {
    if present then
      var head := "\n" + indent + key + ": ";
      assert (head + value)[|head|..] == value;
      head + value
    else ""
  }

  /** A value the style encoders write: neither empty nor the default. */
  predicate Overrides(value: string, default: string) {
    value != "" && value != default
  }

  /** The record line of a group, behind its indentation. */
  function GroupRecord(g: LaneGroup): string {
    "+ Group " + EncodeVector(g.position) + " " + EncodeVector(g.rotation)
  }

  /** `EncodeLaneGroup`: the record line and the name always, the parent group when set, then
      the storyboard; the block ends with a line break. */
  function EncodeLaneGroup(g: LaneGroup, depth: nat, beat: BeatText): string {
    var indent := Spaces(depth);
    var indent2 := Spaces(depth + INDENT_SIZE);
    indent + GroupRecord(g) + "\n" + indent2 + "Name: " + g.name
      + OptionalLine(g.group != "", indent2, "Group", g.group) + StoryboardText(g.storyboard, depth + INDENT_SIZE, beat) + "\n"
  }

  function LaneStyleRecord(s: LaneStyle): string {
    "+ LaneStyle " + EncodeColor(s.laneColor) + " " + EncodeColor(s.judgeColor)
  }

  /** `EncodeLaneStyle`: the record line, then each override line whose value is set and not
      the default (`Default` for materials, `_Color` for targets), then the storyboard. */
  function EncodeLaneStyle(s: LaneStyle, depth: nat, beat: BeatText): string {
    var indent := Spaces(depth);
    var indent2 := Spaces(depth + INDENT_SIZE);
    "\n" + indent + LaneStyleRecord(s)
      + OptionalLine(s.name != "", indent2, "Name", s.name)
      + OptionalLine(Overrides(s.laneMaterial, "Default"), indent2, "Lane Material", s.laneMaterial)
      + OptionalLine(Overrides(s.laneColorTarget, "_Color"), indent2, "Lane Target", s.laneColorTarget)
      + OptionalLine(Overrides(s.judgeMaterial, "Default"), indent2, "Judge Material", s.judgeMaterial)
      + OptionalLine(Overrides(s.judgeColorTarget, "_Color"), indent2, "Judge Target", s.judgeColorTarget)
      + StoryboardText(s.storyboard, depth + INDENT_SIZE, beat)
  }

  function HitStyleRecord(s: HitStyle): string {
    "+ HitStyle " + EncodeColor(s.holdTailColor) + " " + EncodeColor(s.normalColor) + " " + EncodeColor(s.catchColor)
  }

  /** `EncodeHitStyle`: as `EncodeLaneStyle`, with three colours and the hit style's keys. */
  function EncodeHitStyle(s: HitStyle, depth: nat, beat: BeatText): string {
    var indent := Spaces(depth);
    var indent2 := Spaces(depth + INDENT_SIZE);
    "\n" + indent + HitStyleRecord(s)
      + OptionalLine(s.name != "", indent2, "Name", s.name)
      + OptionalLine(Overrides(s.mainMaterial, "Default"), indent2, "Main Material", s.mainMaterial)
      + OptionalLine(Overrides(s.mainColorTarget, "_Color"), indent2, "Main Target", s.mainColorTarget)
      + OptionalLine(Overrides(s.holdTailMaterial, "Default"), indent2, "Hold Tail Material", s.holdTailMaterial)
      + OptionalLine(Overrides(s.holdTailColorTarget, "_Color"), indent2, "Hold Tail Target", s.holdTailColorTarget)
      + StoryboardText(s.storyboard, depth + INDENT_SIZE, beat)
  }

  /** The record line of a lane step: offset, start point and its two eases, end point and
      its two eases, speed. */
  function LaneStepRecord(step: LaneStep, beat: BeatText): string {
    "+ LaneStep " + beat(step.offset) + " "
      + EncodeVector2(step.startPoint) + " " + EncodeEase(step.startEaseX) + " " + EncodeEase(step.startEaseY) + " "
      + EncodeVector2(step.endPoint) + " " + EncodeEase(step.endEaseX) + " " + EncodeEase(step.endEaseY) + " "
      + FormatFloat(step.speed)
  }

  /** `EncodeLaneStep`: one record line, then the storyboard. */
  function EncodeLaneStep(step: LaneStep, depth: nat, beat: BeatText): string {
    "\n" + Spaces(depth) + LaneStepRecord(step, beat) + StoryboardText(step.storyboard, depth + INDENT_SIZE, beat)
  }

  /** The flick token of a hit: `F` and the direction when it is finite, or `N`. */
  function FlickFlag(hit: HitObject): string {
    if hit.flickable then "F" + (if IsFinite(hit.flickDirection) then FormatFloat(hit.flickDirection) else "") else "N"
  }

  /** The record line of a hit object, which ends with a space and has no token for
      `IsFake`. */
  function HitRecord(hit: HitObject, beat: BeatText): string {
    "+ Hit " + hit.hitType + " " + beat(hit.offset) + " " + FormatFloat(hit.position) + " "
      + FormatFloat(hit.length) + " " + FormatFloat(hit.holdLength) + " " + FlickFlag(hit) + " "
      + FormatInt(hit.styleIndex) + " "
  }

  /** `EncodeHitObject`: one record line, then the storyboard. */
  function EncodeHitObject(hit: HitObject, depth: nat, beat: BeatText): string {
    "\n" + Spaces(depth) + HitRecord(hit, beat) + StoryboardText(hit.storyboard, depth + INDENT_SIZE, beat)
  }

  function LaneStepBlocks(steps: seq<LaneStep>, depth: nat, beat: BeatText): (r: seq<string>)
    ensures |r| == |steps| && forall i :: 0 <= i < |steps| ==> r[i] == EncodeLaneStep(steps[i], depth, beat)
  {
    seq(|steps|, i requires 0 <= i < |steps| => EncodeLaneStep(steps[i], depth, beat))
  }

  function HitObjectBlocks(hits: seq<HitObject>, depth: nat, beat: BeatText): (r: seq<string>)
    ensures |r| == |hits| && forall i :: 0 <= i < |hits| ==> r[i] == EncodeHitObject(hits[i], depth, beat)
  {
    seq(|hits|, i requires 0 <= i < |hits| => EncodeHitObject(hits[i], depth, beat))
  }

  function LaneRecord(lane: Lane): string {
    "+ Lane " + EncodeVector(lane.position) + " " + EncodeVector(lane.rotation) + " " + FormatInt(lane.styleIndex)
  }

  /** `EncodeLane`: the record line, the name and group when set, the storyboard, then every
      lane step and every hit object, in list order, one level deeper. */
  function EncodeLane(lane: Lane, depth: nat, beat: BeatText): string {
    var indent := Spaces(depth);
    var indent2 := Spaces(depth + INDENT_SIZE);
    "\n" + indent + LaneRecord(lane)
      + OptionalLine(lane.name != "", indent2, "Name", lane.name)
      + OptionalLine(lane.group != "", indent2, "Group", lane.group)
      + StoryboardText(lane.storyboard, depth + INDENT_SIZE, beat)
      + Concat(LaneStepBlocks(lane.laneSteps, depth + INDENT_SIZE, beat))
      + Concat(HitObjectBlocks(lane.objects, depth + INDENT_SIZE, beat))
  }

  // ---------------------------------------------------------------- the chart

  function GroupBlocks(groups: seq<LaneGroup>, beat: BeatText): (r: seq<string>)
    ensures |r| == |groups| && forall i :: 0 <= i < |groups| ==> r[i] == EncodeLaneGroup(groups[i], 0, beat)
  {
    seq(|groups|, i requires 0 <= i < |groups| => EncodeLaneGroup(groups[i], 0, beat))
  }

  function LaneStyleBlocks(styles: seq<LaneStyle>, beat: BeatText): (r: seq<string>)
    ensures |r| == |styles| && forall i :: 0 <= i < |styles| ==> r[i] == EncodeLaneStyle(styles[i], 0, beat)
  {
    seq(|styles|, i requires 0 <= i < |styles| => EncodeLaneStyle(styles[i], 0, beat))
  }

  function HitStyleBlocks(styles: seq<HitStyle>, beat: BeatText): (r: seq<string>)
    ensures |r| == |styles| && forall i :: 0 <= i < |styles| ==> r[i] == EncodeHitStyle(styles[i], 0, beat)
  {
    seq(|styles|, i requires 0 <= i < |styles| => EncodeHitStyle(styles[i], 0, beat))
  }

  function LaneBlocks(lanes: seq<Lane>, beat: BeatText): (r: seq<string>)
    ensures |r| == |lanes| && forall i :: 0 <= i < |lanes| ==> r[i] == EncodeLane(lanes[i], 0, beat)
  {
    seq(|lanes|, i requires 0 <= i < |lanes| => EncodeLane(lanes[i], 0, beat))
  }

  /** `InsertAltCharter`: the line is written when the name is not blank; note the two spaces
      after the colon. */
  function AltCharterLine(name: string): (r: string)
    ensures r != "" <==> !IsNullOrWhiteSpace(name)
    ensures r != "" ==> |r| > |name| && r[0] == '\n' && r[|r| - |name|..] == name
  {
    if !IsNullOrWhiteSpace(name) then
      assert ("\nAlt Charter:  " + name)[15..] == name;
      "\nAlt Charter:  " + name
    else ""
  }

  /** `Encode`'s template, given the text of its loops: the sections VERSION, METADATA,
      CAMERA, GROUPS, PALLETE and OBJECTS in this order. */
  function Template(c: Chart, cameraStoryboard: string, groups: string, paletteStoryboard: string,
                    laneStyles: string, hitStyles: string, lanes: string): string
  {
    "JANOARG Chart Format"
      + Lines(["github.com/FFF40/JANOARG", "", "[VERSION]", FormatInt(FORMAT_VERSION), ""])
      + Lines(["[METADATA]",
               "Index: " + FormatInt(c.difficultyIndex),
               "Name: " + c.difficultyName,
               "Charter: " + c.charterName + AltCharterLine(c.altCharterName),
               "Level: " + c.difficultyLevel,
               "Constant: " + FormatFloat(c.chartConstant),
               ""])
      + Lines(["[CAMERA]",
               "Pivot: " + EncodeVector(c.camera.pivot),
               "Rotation: " + EncodeVector(c.camera.rotation),
               "Distance: " + FormatFloat(c.camera.distance) + cameraStoryboard,
               ""])
      + Lines(["[GROUPS]", groups, ""])
      + Lines(["[PALLETE]",
               "Background: " + EncodeColor(c.palette.backgroundColor),
               "Interface: " + EncodeColor(c.palette.interfaceColor) + paletteStoryboard,
               laneStyles,
               hitStyles,
               ""])
      + Lines(["[OBJECTS]", lanes])
  }

  /** The text `Encode` returns. */
  function ChartText(c: Chart, beat: BeatText): string {
    Template(c, StoryboardText(c.camera.storyboard, 0, beat), Concat(GroupBlocks(c.groups, beat)),
             StoryboardText(c.palette.storyboard, 0, beat), Concat(LaneStyleBlocks(c.palette.laneStyles, beat)),
             Concat(HitStyleBlocks(c.palette.hitStyles, beat)), Concat(LaneBlocks(c.lanes, beat)))
  }

  /** `JACEncoder.Encode`: runs the loops, then fills in the template. */
  method Encode(c: Chart, beat: BeatText) returns (str: string)
    ensures str == ChartText(c, beat)
  {
    var cameraStoryboard := EncodeStoryboard(c.camera.storyboard, 0, beat);
    var groups := AppendAll(GroupBlocks(c.groups, beat));
    var paletteStoryboard := EncodeStoryboard(c.palette.storyboard, 0, beat);
    var laneStyles := AppendAll(LaneStyleBlocks(c.palette.laneStyles, beat));
    var hitStyles := AppendAll(HitStyleBlocks(c.palette.hitStyles, beat));
    var lanes := AppendAll(LaneBlocks(c.lanes, beat));
    str := Template(c, cameraStoryboard, groups, paletteStoryboard, laneStyles, hitStyles, lanes);
  }
}
