/** The chart text line by line: what `JACEncoder.Encode` writes, as the list of lines that
    splitting it at line breaks gives back. */
module ChartLines {
  import opened Text
  import opened Numbers
  import opened Easing
  import opened ChartInfo
  import opened Values
  import E = JACEncoder

  const TITLE: string := "JANOARG Chart Format"

  // ---------------------------------------------------------------- the lines of each block

  /** An optional `Key: value` line, when it is written. */
  function OptionalLines(present: bool, indent: string, key: string, value: string): seq<string> {
    if present then [indent + key + ": " + value] else []
  }

  /** The `Alt Charter` line, when it is written. */
  function AltLines(name: string): seq<string> {
    if !IsNullOrWhiteSpace(name) then ["Alt Charter:  " + name] else []
  }

  /** A group's block: the record line, then its fields and storyboard one level deeper. */
  function GroupLines(g: LaneGroup, beat: E.BeatText): seq<string> {
    [Spaces(0) + E.GroupRecord(g)]
      + ([Spaces(2) + "Name: " + g.name] + OptionalLines(g.group != "", Spaces(2), "Group", g.group)
         + E.StoryboardLines(g.storyboard, 2, beat))
  }

  function LaneStyleLines(s: LaneStyle, beat: E.BeatText): seq<string> {
    [Spaces(0) + E.LaneStyleRecord(s)]
      + OptionalLines(s.name != "", Spaces(2), "Name", s.name)
      + OptionalLines(E.Overrides(s.laneMaterial, "Default"), Spaces(2), "Lane Material", s.laneMaterial)
      + OptionalLines(E.Overrides(s.laneColorTarget, "_Color"), Spaces(2), "Lane Target", s.laneColorTarget)
      + OptionalLines(E.Overrides(s.judgeMaterial, "Default"), Spaces(2), "Judge Material", s.judgeMaterial)
      + OptionalLines(E.Overrides(s.judgeColorTarget, "_Color"), Spaces(2), "Judge Target", s.judgeColorTarget)
      + E.StoryboardLines(s.storyboard, 2, beat)
  }

  function HitStyleLines(s: HitStyle, beat: E.BeatText): seq<string> {
    [Spaces(0) + E.HitStyleRecord(s)]
      + OptionalLines(s.name != "", Spaces(2), "Name", s.name)
      + OptionalLines(E.Overrides(s.mainMaterial, "Default"), Spaces(2), "Main Material", s.mainMaterial)
      + OptionalLines(E.Overrides(s.mainColorTarget, "_Color"), Spaces(2), "Main Target", s.mainColorTarget)
      + OptionalLines(E.Overrides(s.holdTailMaterial, "Default"), Spaces(2), "Hold Tail Material", s.holdTailMaterial)
      + OptionalLines(E.Overrides(s.holdTailColorTarget, "_Color"), Spaces(2), "Hold Tail Target", s.holdTailColorTarget)
      + E.StoryboardLines(s.storyboard, 2, beat)
  }

  /** A lane step's block, inside a lane. */
  function LaneStepLines(step: LaneStep, beat: E.BeatText): seq<string> {
    [Spaces(2) + E.LaneStepRecord(step, beat)] + E.StoryboardLines(step.storyboard, 4, beat)
  }

  /** A hit object's block, inside a lane. */
  function HitLines(hit: HitObject, beat: E.BeatText): seq<string> {
    [Spaces(2) + E.HitRecord(hit, beat)] + E.StoryboardLines(hit.storyboard, 4, beat)
  }

  function LaneStepLists(steps: seq<LaneStep>, beat: E.BeatText): (r: seq<seq<string>>)
    ensures |r| == |steps| && forall i :: 0 <= i < |steps| ==> r[i] == LaneStepLines(steps[i], beat)
  {
    seq(|steps|, i requires 0 <= i < |steps| => LaneStepLines(steps[i], beat))
  }

  function HitLists(hits: seq<HitObject>, beat: E.BeatText): (r: seq<seq<string>>)
    ensures |r| == |hits| && forall i :: 0 <= i < |hits| ==> r[i] == HitLines(hits[i], beat)
  {
    seq(|hits|, i requires 0 <= i < |hits| => HitLines(hits[i], beat))
  }

  /** A lane's block: the record line, its fields and storyboard, then its steps and hits. */
  function LaneLines(lane: Lane, beat: E.BeatText): seq<string> {
    [Spaces(0) + E.LaneRecord(lane)]
      + OptionalLines(lane.name != "", Spaces(2), "Name", lane.name)
      + OptionalLines(lane.group != "", Spaces(2), "Group", lane.group)
      + E.StoryboardLines(lane.storyboard, 2, beat)
      + Flatten(LaneStepLists(lane.laneSteps, beat))
      + Flatten(HitLists(lane.objects, beat))
  }

  function GroupLists(groups: seq<LaneGroup>, beat: E.BeatText): (r: seq<seq<string>>)
    ensures |r| == |groups| && forall i :: 0 <= i < |groups| ==> r[i] == GroupLines(groups[i], beat)
  {
    seq(|groups|, i requires 0 <= i < |groups| => GroupLines(groups[i], beat))
  }

  function LaneStyleLists(styles: seq<LaneStyle>, beat: E.BeatText): (r: seq<seq<string>>)
    ensures |r| == |styles| && forall i :: 0 <= i < |styles| ==> r[i] == LaneStyleLines(styles[i], beat)
  {
    seq(|styles|, i requires 0 <= i < |styles| => LaneStyleLines(styles[i], beat))
  }

  function HitStyleLists(styles: seq<HitStyle>, beat: E.BeatText): (r: seq<seq<string>>)
    ensures |r| == |styles| && forall i :: 0 <= i < |styles| ==> r[i] == HitStyleLines(styles[i], beat)
  {
    seq(|styles|, i requires 0 <= i < |styles| => HitStyleLines(styles[i], beat))
  }

  function LaneLists(lanes: seq<Lane>, beat: E.BeatText): (r: seq<seq<string>>)
    ensures |r| == |lanes| && forall i :: 0 <= i < |lanes| ==> r[i] == LaneLines(lanes[i], beat)
  {
    seq(|lanes|, i requires 0 <= i < |lanes| => LaneLines(lanes[i], beat))
  }

  // ---------------------------------------------------------------- the lines of each section

  function PreambleLines(): seq<string> {
    ["github.com/FFF40/JANOARG", "", "[VERSION]", FormatInt(E.FORMAT_VERSION), ""]
  }

  function MetadataLines(c: Chart): seq<string> {
    ["[METADATA]", "Index: " + FormatInt(c.difficultyIndex), "Name: " + c.difficultyName]
      + (["Charter: " + c.charterName] + AltLines(c.altCharterName))
      + ["Level: " + c.difficultyLevel, "Constant: " + FormatFloat(c.chartConstant), ""]
  }

  function CameraLines(cam: CameraController, beat: E.BeatText): seq<string> {
    ["[CAMERA]", "Pivot: " + E.EncodeVector(cam.pivot), "Rotation: " + E.EncodeVector(cam.rotation)]
      + (["Distance: " + FormatFloat(cam.distance)] + E.StoryboardLines(cam.storyboard, 0, beat))
      + [""]
  }

  /** The lines of a loop's text, which ends with a line break. */
  function LoopLines(lists: seq<seq<string>>): seq<string> {
    Flatten(lists) + [""]
  }

  function GroupsLines(groups: seq<LaneGroup>, beat: E.BeatText): seq<string> {
    ["[GROUPS]"] + LoopLines(GroupLists(groups, beat)) + [""]
  }

  /** The palette section: its colours and storyboard, an empty line, the lane styles, an
      empty line, the hit styles. */
  function PaletteLines(p: Palette, beat: E.BeatText): seq<string> {
    ["[PALLETE]", "Background: " + EncodeColor(p.backgroundColor)]
      + (["Interface: " + EncodeColor(p.interfaceColor)] + E.StoryboardLines(p.storyboard, 0, beat))
      + ([""] + Flatten(LaneStyleLists(p.laneStyles, beat)))
      + ([""] + Flatten(HitStyleLists(p.hitStyles, beat)))
      + [""]
  }

  function ObjectsLines(lanes: seq<Lane>, beat: E.BeatText): seq<string> {
    ["[OBJECTS]"] + ([""] + Flatten(LaneLists(lanes, beat)))
  }

  /** Every line after the title. */
  function ChartLines(c: Chart, beat: E.BeatText): seq<string> {
    PreambleLines() + MetadataLines(c) + CameraLines(c.camera, beat) + GroupsLines(c.groups, beat)
      + PaletteLines(c.palette, beat) + ObjectsLines(c.lanes, beat)
  }

  // ---------------------------------------------------------------- blocks as lines

  lemma OptionalText(present: bool, indent: string, key: string, value: string)
    ensures E.OptionalLine(present, indent, key, value) == Lines(OptionalLines(present, indent, key, value))
  {
    if present {
      LinesOne(indent + key + ": " + value);
    }
  }

  lemma AltText(name: string)
    ensures E.AltCharterLine(name) == Lines(AltLines(name))
  {
    if !IsNullOrWhiteSpace(name) {
      LinesOne("Alt Charter:  " + name);
    }
  }

  /** Four pieces of lines, one after the other. */
  lemma LinesOfFour(a: seq<string>, b: seq<string>, c: seq<string>, d: seq<string>)
    ensures Lines(a + b + c + d) == Lines(a) + Lines(b) + Lines(c) + Lines(d)
  {
    LinesAppend(a + b + c, d);
    LinesAppend(a + b, c);
    LinesAppend(a, b);
  }

  /** The shape of a group's block: the record line, then a field line, more lines, and a
      closing line break. */
  lemma ClosedBlock(nl: string, indent: string, record: string, indent2: string, key: string, value: string,
                    opt: string, sbt: string, optLines: seq<string>, sbLines: seq<string>)
    requires nl == "\n" && opt == Lines(optLines) && sbt == Lines(sbLines)
    ensures indent + record + nl + indent2 + key + value + opt + sbt + nl
         == (indent + record) + Lines([indent2 + key + value] + optLines + sbLines) + "\n"
  {
    LinesAppend([indent2 + key + value] + optLines, sbLines);
    LinesAppend([indent2 + key + value], optLines);
    LinesOne(indent2 + key + value);
  }

  lemma GroupBlock(g: LaneGroup, beat: E.BeatText)
    ensures var ls := GroupLines(g, beat); E.EncodeLaneGroup(g, 0, beat) == ls[0] + Lines(ls[1..]) + "\n"
  {
    var o := OptionalLines(g.group != "", Spaces(2), "Group", g.group);
    var sb := E.StoryboardLines(g.storyboard, 2, beat);
    assert Spaces(0 + E.INDENT_SIZE) == Spaces(2);
    OptionalText(g.group != "", Spaces(2), "Group", g.group);
    ClosedBlock("\n", Spaces(0), E.GroupRecord(g), Spaces(2), "Name: ", g.name,
                E.OptionalLine(g.group != "", Spaces(2), "Group", g.group), E.StoryboardText(g.storyboard, 2, beat), o, sb);
    assert GroupLines(g, beat)[1..] == [Spaces(2) + "Name: " + g.name] + o + sb;
  }

  /** The shape of a style's block: the record line, five optional lines and a storyboard. */
  lemma StyleBlock(nl: string, indent: string, record: string, o1: string, o2: string, o3: string, o4: string,
                   o5: string, sbt: string, l1: seq<string>, l2: seq<string>, l3: seq<string>, l4: seq<string>,
                   l5: seq<string>, sl: seq<string>)
    requires nl == "\n" && o1 == Lines(l1) && o2 == Lines(l2) && o3 == Lines(l3) && o4 == Lines(l4)
    requires o5 == Lines(l5) && sbt == Lines(sl)
    ensures nl + indent + record + o1 + o2 + o3 + o4 + o5 + sbt == Lines([indent + record] + l1 + l2 + l3 + l4 + l5 + sl)
  {
    var r := [indent + record];
    LinesOfFour(r + l1 + l2 + l3, l4, l5, sl);
    LinesOfFour(r, l1, l2, l3);
    LinesOne(indent + record);
  }

  lemma LaneStyleBlock(s: LaneStyle, beat: E.BeatText)
    ensures E.EncodeLaneStyle(s, 0, beat) == Lines(LaneStyleLines(s, beat))
  {
    var p1, p2, p3 := s.name != "", E.Overrides(s.laneMaterial, "Default"), E.Overrides(s.laneColorTarget, "_Color");
    var p4, p5 := E.Overrides(s.judgeMaterial, "Default"), E.Overrides(s.judgeColorTarget, "_Color");
    var i := Spaces(2);
    assert Spaces(0 + E.INDENT_SIZE) == i;
    OptionalText(p1, i, "Name", s.name);
    OptionalText(p2, i, "Lane Material", s.laneMaterial);
    OptionalText(p3, i, "Lane Target", s.laneColorTarget);
    OptionalText(p4, i, "Judge Material", s.judgeMaterial);
    OptionalText(p5, i, "Judge Target", s.judgeColorTarget);
    StyleBlock("\n", Spaces(0), E.LaneStyleRecord(s),
      E.OptionalLine(p1, i, "Name", s.name), E.OptionalLine(p2, i, "Lane Material", s.laneMaterial),
      E.OptionalLine(p3, i, "Lane Target", s.laneColorTarget), E.OptionalLine(p4, i, "Judge Material", s.judgeMaterial),
      E.OptionalLine(p5, i, "Judge Target", s.judgeColorTarget), E.StoryboardText(s.storyboard, 2, beat),
      OptionalLines(p1, i, "Name", s.name), OptionalLines(p2, i, "Lane Material", s.laneMaterial),
      OptionalLines(p3, i, "Lane Target", s.laneColorTarget), OptionalLines(p4, i, "Judge Material", s.judgeMaterial),
      OptionalLines(p5, i, "Judge Target", s.judgeColorTarget), E.StoryboardLines(s.storyboard, 2, beat));
  }

  lemma HitStyleBlock(s: HitStyle, beat: E.BeatText)
    ensures E.EncodeHitStyle(s, 0, beat) == Lines(HitStyleLines(s, beat))
  {
    var p1, p2, p3 := s.name != "", E.Overrides(s.mainMaterial, "Default"), E.Overrides(s.mainColorTarget, "_Color");
    var p4, p5 := E.Overrides(s.holdTailMaterial, "Default"), E.Overrides(s.holdTailColorTarget, "_Color");
    var i := Spaces(2);
    assert Spaces(0 + E.INDENT_SIZE) == i;
    OptionalText(p1, i, "Name", s.name);
    OptionalText(p2, i, "Main Material", s.mainMaterial);
    OptionalText(p3, i, "Main Target", s.mainColorTarget);
    OptionalText(p4, i, "Hold Tail Material", s.holdTailMaterial);
    OptionalText(p5, i, "Hold Tail Target", s.holdTailColorTarget);
    StyleBlock("\n", Spaces(0), E.HitStyleRecord(s),
      E.OptionalLine(p1, i, "Name", s.name), E.OptionalLine(p2, i, "Main Material", s.mainMaterial),
      E.OptionalLine(p3, i, "Main Target", s.mainColorTarget), E.OptionalLine(p4, i, "Hold Tail Material", s.holdTailMaterial),
      E.OptionalLine(p5, i, "Hold Tail Target", s.holdTailColorTarget), E.StoryboardText(s.storyboard, 2, beat),
      OptionalLines(p1, i, "Name", s.name), OptionalLines(p2, i, "Main Material", s.mainMaterial),
      OptionalLines(p3, i, "Main Target", s.mainColorTarget), OptionalLines(p4, i, "Hold Tail Material", s.holdTailMaterial),
      OptionalLines(p5, i, "Hold Tail Target", s.holdTailColorTarget), E.StoryboardLines(s.storyboard, 2, beat));
  }

  /** A block that starts a new line with its record, then more lines. */
  lemma OpenBlock(nl: string, indent: string, record: string, more: seq<string>, text: string)
    requires nl == "\n" && text == Lines(more)
    ensures nl + indent + record + text == Lines([indent + record] + more)
  {
    LinesAppend([indent + record], more);
    LinesOne(indent + record);
  }

  lemma LaneStepBlock(step: LaneStep, beat: E.BeatText)
    ensures E.EncodeLaneStep(step, 2, beat) == Lines(LaneStepLines(step, beat))
  {
    assert 2 + E.INDENT_SIZE == 4;
    OpenBlock("\n", Spaces(2), E.LaneStepRecord(step, beat), E.StoryboardLines(step.storyboard, 4, beat),
              E.StoryboardText(step.storyboard, 4, beat));
  }

  lemma HitBlock(hit: HitObject, beat: E.BeatText)
    ensures E.EncodeHitObject(hit, 2, beat) == Lines(HitLines(hit, beat))
  {
    assert 2 + E.INDENT_SIZE == 4;
    OpenBlock("\n", Spaces(2), E.HitRecord(hit, beat), E.StoryboardLines(hit.storyboard, 4, beat),
              E.StoryboardText(hit.storyboard, 4, beat));
  }

  lemma LaneStepsText(steps: seq<LaneStep>, beat: E.BeatText)
    ensures Concat(E.LaneStepBlocks(steps, 2, beat)) == Lines(Flatten(LaneStepLists(steps, beat)))
  {
    var blocks, lists := E.LaneStepBlocks(steps, 2, beat), LaneStepLists(steps, beat);
    forall i | 0 <= i < |blocks| ensures blocks[i] == Lines(lists[i]) {
      LaneStepBlock(steps[i], beat);
    }
    ConcatOfLines(blocks, lists);
  }

  lemma HitsText(hits: seq<HitObject>, beat: E.BeatText)
    ensures Concat(E.HitObjectBlocks(hits, 2, beat)) == Lines(Flatten(HitLists(hits, beat)))
  {
    var blocks, lists := E.HitObjectBlocks(hits, 2, beat), HitLists(hits, beat);
    forall i | 0 <= i < |blocks| ensures blocks[i] == Lines(lists[i]) {
      HitBlock(hits[i], beat);
    }
    ConcatOfLines(blocks, lists);
  }

  /** The shape of a lane's block: the record line, two optional lines, a storyboard, the
      steps and the hits. */
  lemma LaneShape(nl: string, indent: string, record: string, o1: string, o2: string, sbt: string, st: string,
                  ht: string, l1: seq<string>, l2: seq<string>, sl: seq<string>, stl: seq<string>, hl: seq<string>)
    requires nl == "\n" && o1 == Lines(l1) && o2 == Lines(l2) && sbt == Lines(sl) && st == Lines(stl) && ht == Lines(hl)
    ensures nl + indent + record + o1 + o2 + sbt + st + ht == Lines([indent + record] + l1 + l2 + sl + stl + hl)
  {
    var r := [indent + record];
    LinesOfFour(r + l1 + l2, sl, stl, hl);
    LinesAppend(r + l1, l2);
    LinesAppend(r, l1);
    LinesOne(indent + record);
  }

  lemma LaneBlock(lane: Lane, beat: E.BeatText)
    ensures E.EncodeLane(lane, 0, beat) == Lines(LaneLines(lane, beat))
  {
    var p1, p2 := lane.name != "", lane.group != "";
    var i := Spaces(2);
    assert Spaces(0 + E.INDENT_SIZE) == i && 0 + E.INDENT_SIZE == 2;
    OptionalText(p1, i, "Name", lane.name);
    OptionalText(p2, i, "Group", lane.group);
    LaneStepsText(lane.laneSteps, beat);
    HitsText(lane.objects, beat);
    LaneShape("\n", Spaces(0), E.LaneRecord(lane), E.OptionalLine(p1, i, "Name", lane.name),
      E.OptionalLine(p2, i, "Group", lane.group), E.StoryboardText(lane.storyboard, 2, beat),
      Concat(E.LaneStepBlocks(lane.laneSteps, 2, beat)), Concat(E.HitObjectBlocks(lane.objects, 2, beat)),
      OptionalLines(p1, i, "Name", lane.name), OptionalLines(p2, i, "Group", lane.group),
      E.StoryboardLines(lane.storyboard, 2, beat), Flatten(LaneStepLists(lane.laneSteps, beat)),
      Flatten(HitLists(lane.objects, beat)));
  }

  // ---------------------------------------------------------------- loops as lines

  /** The text of a loop over blocks that each end with a line break, written as one line of
      a section, is the blocks' lines and then one empty line. */
  lemma LoopText(text: string, lists: seq<seq<string>>)
    requires "\n" + text == Lines(Flatten(lists)) + "\n"
    ensures "\n" + text == Lines(LoopLines(lists))
  {
    LinesSnoc(Flatten(lists), "");
    assert Lines(Flatten(lists)) + "\n" + "" == Lines(Flatten(lists)) + "\n";
  }

  lemma GroupsText(groups: seq<LaneGroup>, beat: E.BeatText)
    ensures "\n" + Concat(E.GroupBlocks(groups, beat)) == Lines(LoopLines(GroupLists(groups, beat)))
  {
    var blocks, lists := E.GroupBlocks(groups, beat), GroupLists(groups, beat);
    forall i | 0 <= i < |blocks| ensures lists[i] != [] && blocks[i] == lists[i][0] + Lines(lists[i][1..]) + "\n" {
      GroupBlock(groups[i], beat);
    }
    ConcatOfTerminatedLines(blocks, lists);
    LoopText(Concat(blocks), lists);
  }

  /** Blocks that each start a new line, written as one line of a section, are an empty line
      and the blocks' lines. */
  lemma OpenLoopText(text: string, lists: seq<seq<string>>)
    requires text == Lines(Flatten(lists))
    ensures "\n" + text == Lines([""] + Flatten(lists))
  {
    LinesAppend([""], Flatten(lists));
    LinesOne("");
  }

  lemma LaneStylesText(styles: seq<LaneStyle>, beat: E.BeatText)
    ensures "\n" + Concat(E.LaneStyleBlocks(styles, beat)) == Lines([""] + Flatten(LaneStyleLists(styles, beat)))
  {
    var blocks, lists := E.LaneStyleBlocks(styles, beat), LaneStyleLists(styles, beat);
    forall i | 0 <= i < |blocks| ensures blocks[i] == Lines(lists[i]) {
      LaneStyleBlock(styles[i], beat);
    }
    ConcatOfLines(blocks, lists);
    OpenLoopText(Concat(blocks), lists);
  }

  lemma HitStylesText(styles: seq<HitStyle>, beat: E.BeatText)
    ensures "\n" + Concat(E.HitStyleBlocks(styles, beat)) == Lines([""] + Flatten(HitStyleLists(styles, beat)))
  {
    var blocks, lists := E.HitStyleBlocks(styles, beat), HitStyleLists(styles, beat);
    forall i | 0 <= i < |blocks| ensures blocks[i] == Lines(lists[i]) {
      HitStyleBlock(styles[i], beat);
    }
    ConcatOfLines(blocks, lists);
    OpenLoopText(Concat(blocks), lists);
  }

  lemma LanesText(lanes: seq<Lane>, beat: E.BeatText)
    ensures "\n" + Concat(E.LaneBlocks(lanes, beat)) == Lines([""] + Flatten(LaneLists(lanes, beat)))
  {
    var blocks, lists := E.LaneBlocks(lanes, beat), LaneLists(lanes, beat);
    forall i | 0 <= i < |blocks| ensures blocks[i] == Lines(lists[i]) {
      LaneBlock(lanes[i], beat);
    }
    ConcatOfLines(blocks, lists);
    OpenLoopText(Concat(blocks), lists);
  }

  // ---------------------------------------------------------------- sections as lines

  lemma MetadataText(c: Chart)
    ensures Lines(["[METADATA]",
                   "Index: " + FormatInt(c.difficultyIndex),
                   "Name: " + c.difficultyName,
                   "Charter: " + c.charterName + E.AltCharterLine(c.altCharterName),
                   "Level: " + c.difficultyLevel,
                   "Constant: " + FormatFloat(c.chartConstant),
                   ""]) == Lines(MetadataLines(c))
  {
    var charter := "Charter: " + c.charterName;
    var line := charter + E.AltCharterLine(c.altCharterName);
    var a := ["[METADATA]", "Index: " + FormatInt(c.difficultyIndex), "Name: " + c.difficultyName];
    var b := ["Level: " + c.difficultyLevel, "Constant: " + FormatFloat(c.chartConstant), ""];
    AltText(c.altCharterName);
    LineWithLines(charter, AltLines(c.altCharterName), E.AltCharterLine(c.altCharterName));
    assert ["[METADATA]", a[1], a[2], line, b[0], b[1], ""] == a + [line] + b;
    LinesReplace(a, line, [charter] + AltLines(c.altCharterName), b);
  }

  lemma CameraText(cam: CameraController, beat: E.BeatText)
    ensures Lines(["[CAMERA]",
                   "Pivot: " + E.EncodeVector(cam.pivot),
                   "Rotation: " + E.EncodeVector(cam.rotation),
                   "Distance: " + FormatFloat(cam.distance) + E.StoryboardText(cam.storyboard, 0, beat),
                   ""]) == Lines(CameraLines(cam, beat))
  {
    var distance := "Distance: " + FormatFloat(cam.distance);
    var sb := E.StoryboardLines(cam.storyboard, 0, beat);
    var line := distance + E.StoryboardText(cam.storyboard, 0, beat);
    var a := ["[CAMERA]", "Pivot: " + E.EncodeVector(cam.pivot), "Rotation: " + E.EncodeVector(cam.rotation)];
    LineWithLines(distance, sb, E.StoryboardText(cam.storyboard, 0, beat));
    assert ["[CAMERA]", a[1], a[2], line, ""] == a + [line] + [""];
    LinesReplace(a, line, [distance] + sb, [""]);
  }

  lemma GroupsSectionText(groups: seq<LaneGroup>, beat: E.BeatText)
    ensures Lines(["[GROUPS]", Concat(E.GroupBlocks(groups, beat)), ""]) == Lines(GroupsLines(groups, beat))
  {
    GroupsText(groups, beat);
    MiddleLineReplaced("[GROUPS]", Concat(E.GroupBlocks(groups, beat)), LoopLines(GroupLists(groups, beat)));
  }

  /** The middle line of a section that ends in an empty line, which is itself several lines. */
  lemma MiddleLineReplaced(head: string, x: string, m: seq<string>)
    requires "\n" + x == Lines(m)
    ensures Lines([head, x, ""]) == Lines([head] + m + [""])
  {
    assert [head, x, ""] == [head] + [x] + [""];
    LinesReplace([head], x, m, [""]);
  }

  /** The palette section's shape: a line with more lines behind it, then two loops. */
  lemma PaletteShape(head: string, bg: string, iface: string, sbt: string, ls: string, hs: string,
                     sl: seq<string>, lsl: seq<string>, hsl: seq<string>)
    requires sbt == Lines(sl) && "\n" + ls == Lines(lsl) && "\n" + hs == Lines(hsl)
    ensures Lines([head, bg, iface + sbt, ls, hs, ""]) == Lines([head, bg] + ([iface] + sl) + lsl + hsl + [""])
  {
    var a := [head, bg];
    LineWithLines(iface, sl, sbt);
    assert [head, bg, iface + sbt, ls, hs, ""] == a + [iface + sbt] + [ls, hs, ""];
    LinesReplace(a, iface + sbt, [iface] + sl, [ls, hs, ""]);
    var a2 := a + ([iface] + sl);
    assert a2 + [ls, hs, ""] == a2 + [ls] + [hs, ""];
    LinesReplace(a2, ls, lsl, [hs, ""]);
    assert a2 + lsl + [hs, ""] == (a2 + lsl) + [hs] + [""];
    LinesReplace(a2 + lsl, hs, hsl, [""]);
  }

  lemma PaletteText(p: Palette, beat: E.BeatText)
    ensures Lines(["[PALLETE]",
                   "Background: " + EncodeColor(p.backgroundColor),
                   "Interface: " + EncodeColor(p.interfaceColor) + E.StoryboardText(p.storyboard, 0, beat),
                   Concat(E.LaneStyleBlocks(p.laneStyles, beat)),
                   Concat(E.HitStyleBlocks(p.hitStyles, beat)),
                   ""]) == Lines(PaletteLines(p, beat))
  {
    LaneStylesText(p.laneStyles, beat);
    HitStylesText(p.hitStyles, beat);
    PaletteShape("[PALLETE]", "Background: " + EncodeColor(p.backgroundColor), "Interface: " + EncodeColor(p.interfaceColor),
      E.StoryboardText(p.storyboard, 0, beat), Concat(E.LaneStyleBlocks(p.laneStyles, beat)),
      Concat(E.HitStyleBlocks(p.hitStyles, beat)), E.StoryboardLines(p.storyboard, 0, beat),
      [""] + Flatten(LaneStyleLists(p.laneStyles, beat)), [""] + Flatten(HitStyleLists(p.hitStyles, beat)));
  }

  /** The last line of a section, which is itself several lines. */
  lemma LastLineReplaced(head: string, x: string, m: seq<string>)
    requires "\n" + x == Lines(m)
    ensures Lines([head, x]) == Lines([head] + m)
  {
    LinesReplace([head], x, m, []);
    assert [head] + [x] + [] == [head, x];
    assert [head] + m + [] == [head] + m;
  }

  lemma ObjectsText(lanes: seq<Lane>, beat: E.BeatText)
    ensures Lines(["[OBJECTS]", Concat(E.LaneBlocks(lanes, beat))]) == Lines(ObjectsLines(lanes, beat))
  {
    LanesText(lanes, beat);
    LastLineReplaced("[OBJECTS]", Concat(E.LaneBlocks(lanes, beat)), [""] + Flatten(LaneLists(lanes, beat)));
  }

  /** Six lists of lines, each written behind the title in turn, are the title and all their
      lines. */
  lemma LinesOfSix(t: string, p: seq<string>, m: seq<string>, c: seq<string>, g: seq<string>,
                   pa: seq<string>, o: seq<string>)
    ensures t + Lines(p) + Lines(m) + Lines(c) + Lines(g) + Lines(pa) + Lines(o)
         == t + Lines(p + m + c + g + pa + o)
  {
    PrefixLinesAppend(t, p, m);
    PrefixLinesAppend(t, p + m, c);
    PrefixLinesAppend(t, p + m + c, g);
    PrefixLinesAppend(t, p + m + c + g, pa);
    PrefixLinesAppend(t, p + m + c + g + pa, o);
  }

  /** The encoded text is the title followed by the lines of the chart. */
  lemma ChartTextLines(c: Chart, beat: E.BeatText)
    ensures E.ChartText(c, beat) == TITLE + Lines(ChartLines(c, beat))
  {
    MetadataText(c);
    CameraText(c.camera, beat);
    GroupsSectionText(c.groups, beat);
    PaletteText(c.palette, beat);
    ObjectsText(c.lanes, beat);
    LinesOfSix(TITLE, PreambleLines(), MetadataLines(c), CameraLines(c.camera, beat), GroupsLines(c.groups, beat),
               PaletteLines(c.palette, beat), ObjectsLines(c.lanes, beat));
  }

  // ---------------------------------------------------------------- splitting the text

  /** What the chart text can hold: no text the chart gives the encoder, and no beat the
      renderer writes, holds a line break. */
  predicate OneLine(s: string) {
    '\n' !in s
  }

  predicate TimestampWritable(ts: Timestamp, beat: E.BeatText) {
    OneLine(ts.id) && OneLine(beat(ts.offset))
  }

  predicate StoryboardWritable(sb: Storyboard, beat: E.BeatText) {
    forall i :: 0 <= i < |sb| ==> TimestampWritable(sb[i], beat)
  }

  predicate GroupWritable(g: LaneGroup, beat: E.BeatText) {
    OneLine(g.name) && OneLine(g.group) && StoryboardWritable(g.storyboard, beat)
  }

  predicate LaneStyleWritable(s: LaneStyle, beat: E.BeatText) {
    && OneLine(s.name) && OneLine(s.laneMaterial) && OneLine(s.laneColorTarget)
    && OneLine(s.judgeMaterial) && OneLine(s.judgeColorTarget) && StoryboardWritable(s.storyboard, beat)
  }

  predicate HitStyleWritable(s: HitStyle, beat: E.BeatText) {
    && OneLine(s.name) && OneLine(s.mainMaterial) && OneLine(s.mainColorTarget)
    && OneLine(s.holdTailMaterial) && OneLine(s.holdTailColorTarget) && StoryboardWritable(s.storyboard, beat)
  }

  predicate LaneStepWritable(step: LaneStep, beat: E.BeatText) {
    OneLine(beat(step.offset)) && StoryboardWritable(step.storyboard, beat)
  }

  predicate HitWritable(hit: HitObject, beat: E.BeatText) {
    OneLine(hit.hitType) && OneLine(beat(hit.offset)) && StoryboardWritable(hit.storyboard, beat)
  }

  predicate LaneWritable(lane: Lane, beat: E.BeatText) {
    && OneLine(lane.name) && OneLine(lane.group) && StoryboardWritable(lane.storyboard, beat)
    && (forall i :: 0 <= i < |lane.laneSteps| ==> LaneStepWritable(lane.laneSteps[i], beat))
    && (forall i :: 0 <= i < |lane.objects| ==> HitWritable(lane.objects[i], beat))
  }

  predicate Writable(c: Chart, beat: E.BeatText) {
    && OneLine(c.difficultyName) && OneLine(c.charterName) && OneLine(c.altCharterName)
    && OneLine(c.difficultyLevel) && StoryboardWritable(c.camera.storyboard, beat)
    && (forall i :: 0 <= i < |c.groups| ==> GroupWritable(c.groups[i], beat))
    && StoryboardWritable(c.palette.storyboard, beat)
    && (forall i :: 0 <= i < |c.palette.laneStyles| ==> LaneStyleWritable(c.palette.laneStyles[i], beat))
    && (forall i :: 0 <= i < |c.palette.hitStyles| ==> HitStyleWritable(c.palette.hitStyles[i], beat))
    && (forall i :: 0 <= i < |c.lanes| ==> LaneWritable(c.lanes[i], beat))
  }

  lemma VectorIsOneLine(v: Vec3)
    ensures OneLine(E.EncodeVector(v))
  {
    NumberHasNoSpace(v.x);
    NumberHasNoSpace(v.y);
    NumberHasNoSpace(v.z);
  }

  lemma ColorIsOneLine(c: Color)
    ensures OneLine(EncodeColor(c))
  {
    EncodedValuesHaveNoLineBreak(c, Vec2(c.r, c.g));
  }

  lemma EaseIsOneLine(d: EaseDirective)
    ensures OneLine(E.EncodeEase(d))
  {
    match d
    case Basic(f, m) => NamesAreWords(f, m);
    case CubicBezier(p1, p2) =>
      NumberHasNoSpace(p1.x);
      NumberHasNoSpace(p1.y);
      NumberHasNoSpace(p2.x);
      NumberHasNoSpace(p2.y);
  }

  lemma TimestampIsOneLine(ts: Timestamp, depth: nat, beat: E.BeatText)
    requires TimestampWritable(ts, beat)
    ensures OneLine(E.TimestampLine(ts, depth, beat))
  {
    NumberHasNoSpace(ts.duration);
    NumberHasNoSpace(ts.target);
    NumberHasNoSpace(ts.from);
    EaseIsOneLine(ts.easing);
  }

  lemma StoryboardHasNoBreaks(sb: Storyboard, depth: nat, beat: E.BeatText)
    requires StoryboardWritable(sb, beat)
    ensures NoLineBreaks(E.StoryboardLines(sb, depth, beat))
  {
    forall i | 0 <= i < |sb| ensures OneLine(E.StoryboardLines(sb, depth, beat)[i]) {
      TimestampIsOneLine(sb[i], depth, beat);
    }
  }

  lemma OptionalHasNoBreaks(present: bool, indent: string, key: string, value: string)
    requires OneLine(indent) && OneLine(key) && OneLine(value)
    ensures NoLineBreaks(OptionalLines(present, indent, key, value))
  {
  }

  lemma GroupHasNoBreaks(g: LaneGroup, beat: E.BeatText)
    requires GroupWritable(g, beat)
    ensures NoLineBreaks(GroupLines(g, beat))
  {
    VectorIsOneLine(g.position);
    VectorIsOneLine(g.rotation);
    var r := [Spaces(0) + E.GroupRecord(g)];
    var n := [Spaces(2) + "Name: " + g.name];
    var o := OptionalLines(g.group != "", Spaces(2), "Group", g.group);
    StoryboardHasNoBreaks(g.storyboard, 2, beat);
    OptionalHasNoBreaks(g.group != "", Spaces(2), "Group", g.group);
    NoLineBreaksAppend(n, o);
    NoLineBreaksAppend(n + o, E.StoryboardLines(g.storyboard, 2, beat));
    NoLineBreaksAppend(r, n + o + E.StoryboardLines(g.storyboard, 2, beat));
  }

  /** Seven lists without line breaks, one after the other. */
  lemma NoBreaksOfSeven(a: seq<string>, b: seq<string>, c: seq<string>, d: seq<string>, e: seq<string>,
                        f: seq<string>, g: seq<string>)
    requires NoLineBreaks(a) && NoLineBreaks(b) && NoLineBreaks(c) && NoLineBreaks(d)
    requires NoLineBreaks(e) && NoLineBreaks(f) && NoLineBreaks(g)
    ensures NoLineBreaks(a + b + c + d + e + f + g)
  {
    NoLineBreaksAppend(a, b);
    NoLineBreaksAppend(a + b, c);
    NoLineBreaksAppend(a + b + c, d);
    NoLineBreaksAppend(a + b + c + d, e);
    NoLineBreaksAppend(a + b + c + d + e, f);
    NoLineBreaksAppend(a + b + c + d + e + f, g);
  }

  /** A record line written from values that hold no line break. */
  lemma RecordIsOneLine(indent: string, record: string)
    requires OneLine(indent) && OneLine(record)
    ensures NoLineBreaks([indent + record])
  {
  }

  lemma LaneStyleRecordIsOneLine(s: LaneStyle)
    ensures OneLine(E.LaneStyleRecord(s))
  {
    ColorIsOneLine(s.laneColor);
    ColorIsOneLine(s.judgeColor);
  }

  lemma HitStyleRecordIsOneLine(s: HitStyle)
    ensures OneLine(E.HitStyleRecord(s))
  {
    var a, b, c := EncodeColor(s.holdTailColor), EncodeColor(s.normalColor), EncodeColor(s.catchColor);
    ColorIsOneLine(s.holdTailColor);
    ColorIsOneLine(s.normalColor);
    ColorIsOneLine(s.catchColor);
    OneLineAppend("+ HitStyle ", a);
    OneLineAppend("+ HitStyle " + a, " ");
    OneLineAppend("+ HitStyle " + a + " ", b);
    OneLineAppend("+ HitStyle " + a + " " + b, " ");
    OneLineAppend("+ HitStyle " + a + " " + b + " ", c);
  }

  lemma OneLineAppend(a: string, b: string)
    requires OneLine(a) && OneLine(b)
    ensures OneLine(a + b)
  {
  }

  lemma LaneRecordIsOneLine(lane: Lane)
    ensures OneLine(E.LaneRecord(lane))
  {
    VectorIsOneLine(lane.position);
    VectorIsOneLine(lane.rotation);
    IntHasNoSpace(lane.styleIndex);
  }

  lemma LaneStyleHasNoBreaks(s: LaneStyle, beat: E.BeatText)
    requires LaneStyleWritable(s, beat)
    ensures NoLineBreaks(LaneStyleLines(s, beat))
  {
    var i := Spaces(2);
    LaneStyleRecordIsOneLine(s);
    RecordIsOneLine(Spaces(0), E.LaneStyleRecord(s));
    OptionalHasNoBreaks(s.name != "", i, "Name", s.name);
    OptionalHasNoBreaks(E.Overrides(s.laneMaterial, "Default"), i, "Lane Material", s.laneMaterial);
    OptionalHasNoBreaks(E.Overrides(s.laneColorTarget, "_Color"), i, "Lane Target", s.laneColorTarget);
    OptionalHasNoBreaks(E.Overrides(s.judgeMaterial, "Default"), i, "Judge Material", s.judgeMaterial);
    OptionalHasNoBreaks(E.Overrides(s.judgeColorTarget, "_Color"), i, "Judge Target", s.judgeColorTarget);
    StoryboardHasNoBreaks(s.storyboard, 2, beat);
    NoBreaksOfSeven([Spaces(0) + E.LaneStyleRecord(s)],
      OptionalLines(s.name != "", i, "Name", s.name),
      OptionalLines(E.Overrides(s.laneMaterial, "Default"), i, "Lane Material", s.laneMaterial),
      OptionalLines(E.Overrides(s.laneColorTarget, "_Color"), i, "Lane Target", s.laneColorTarget),
      OptionalLines(E.Overrides(s.judgeMaterial, "Default"), i, "Judge Material", s.judgeMaterial),
      OptionalLines(E.Overrides(s.judgeColorTarget, "_Color"), i, "Judge Target", s.judgeColorTarget),
      E.StoryboardLines(s.storyboard, 2, beat));
  }
  lemma HitStyleHasNoBreaks(s: HitStyle, beat: E.BeatText)
    requires HitStyleWritable(s, beat)
    ensures NoLineBreaks(HitStyleLines(s, beat))
  {
    var i := Spaces(2);
    HitStyleRecordIsOneLine(s);
    RecordIsOneLine(Spaces(0), E.HitStyleRecord(s));
    OptionalHasNoBreaks(s.name != "", i, "Name", s.name);
    OptionalHasNoBreaks(E.Overrides(s.mainMaterial, "Default"), i, "Main Material", s.mainMaterial);
    OptionalHasNoBreaks(E.Overrides(s.mainColorTarget, "_Color"), i, "Main Target", s.mainColorTarget);
    OptionalHasNoBreaks(E.Overrides(s.holdTailMaterial, "Default"), i, "Hold Tail Material", s.holdTailMaterial);
    OptionalHasNoBreaks(E.Overrides(s.holdTailColorTarget, "_Color"), i, "Hold Tail Target", s.holdTailColorTarget);
    StoryboardHasNoBreaks(s.storyboard, 2, beat);
    NoBreaksOfSeven([Spaces(0) + E.HitStyleRecord(s)],
      OptionalLines(s.name != "", i, "Name", s.name),
      OptionalLines(E.Overrides(s.mainMaterial, "Default"), i, "Main Material", s.mainMaterial),
      OptionalLines(E.Overrides(s.mainColorTarget, "_Color"), i, "Main Target", s.mainColorTarget),
      OptionalLines(E.Overrides(s.holdTailMaterial, "Default"), i, "Hold Tail Material", s.holdTailMaterial),
      OptionalLines(E.Overrides(s.holdTailColorTarget, "_Color"), i, "Hold Tail Target", s.holdTailColorTarget),
      E.StoryboardLines(s.storyboard, 2, beat));
  }
  lemma LaneStepHasNoBreaks(step: LaneStep, beat: E.BeatText)
    requires LaneStepWritable(step, beat)
    ensures NoLineBreaks(LaneStepLines(step, beat))
  {
    EncodedValuesHaveNoLineBreak(Color(step.speed, step.speed, step.speed, step.speed), step.startPoint);
    EncodedValuesHaveNoLineBreak(Color(step.speed, step.speed, step.speed, step.speed), step.endPoint);
    EaseIsOneLine(step.startEaseX);
    EaseIsOneLine(step.startEaseY);
    EaseIsOneLine(step.endEaseX);
    EaseIsOneLine(step.endEaseY);
    NumberHasNoSpace(step.speed);
    StoryboardHasNoBreaks(step.storyboard, 4, beat);
    NoLineBreaksAppend([Spaces(2) + E.LaneStepRecord(step, beat)], E.StoryboardLines(step.storyboard, 4, beat));
  }

  lemma HitHasNoBreaks(hit: HitObject, beat: E.BeatText)
    requires HitWritable(hit, beat)
    ensures NoLineBreaks(HitLines(hit, beat))
  {
    NumberHasNoSpace(hit.position);
    NumberHasNoSpace(hit.length);
    NumberHasNoSpace(hit.holdLength);
    NumberHasNoSpace(hit.flickDirection);
    IntHasNoSpace(hit.styleIndex);
    assert OneLine(E.FlickFlag(hit));
    StoryboardHasNoBreaks(hit.storyboard, 4, beat);
    NoLineBreaksAppend([Spaces(2) + E.HitRecord(hit, beat)], E.StoryboardLines(hit.storyboard, 4, beat));
  }

  /** A list of lists without line breaks, flattened. */
  lemma FlatHasNoBreaks(lists: seq<seq<string>>)
    requires forall i :: 0 <= i < |lists| ==> NoLineBreaks(lists[i])
    ensures NoLineBreaks(Flatten(lists))
  {
    NoLineBreaksFlatten(lists);
  }

  lemma StepsHaveNoBreaks(steps: seq<LaneStep>, beat: E.BeatText)
    requires forall i :: 0 <= i < |steps| ==> LaneStepWritable(steps[i], beat)
    ensures NoLineBreaks(Flatten(LaneStepLists(steps, beat)))
  {
    var lists := LaneStepLists(steps, beat);
    forall i | 0 <= i < |lists| ensures NoLineBreaks(lists[i]) {
      LaneStepHasNoBreaks(steps[i], beat);
    }
    FlatHasNoBreaks(lists);
  }

  lemma HitsHaveNoBreaks(hits: seq<HitObject>, beat: E.BeatText)
    requires forall i :: 0 <= i < |hits| ==> HitWritable(hits[i], beat)
    ensures NoLineBreaks(Flatten(HitLists(hits, beat)))
  {
    var lists := HitLists(hits, beat);
    forall i | 0 <= i < |lists| ensures NoLineBreaks(lists[i]) {
      HitHasNoBreaks(hits[i], beat);
    }
    FlatHasNoBreaks(lists);
  }

  lemma LaneHasNoBreaks(lane: Lane, beat: E.BeatText)
    requires LaneWritable(lane, beat)
    ensures NoLineBreaks(LaneLines(lane, beat))
  {
    LaneRecordIsOneLine(lane);
    RecordIsOneLine(Spaces(0), E.LaneRecord(lane));
    OptionalHasNoBreaks(lane.name != "", Spaces(2), "Name", lane.name);
    OptionalHasNoBreaks(lane.group != "", Spaces(2), "Group", lane.group);
    StoryboardHasNoBreaks(lane.storyboard, 2, beat);
    StepsHaveNoBreaks(lane.laneSteps, beat);
    HitsHaveNoBreaks(lane.objects, beat);
    NoBreaksOfSeven([Spaces(0) + E.LaneRecord(lane)], OptionalLines(lane.name != "", Spaces(2), "Name", lane.name),
      OptionalLines(lane.group != "", Spaces(2), "Group", lane.group), E.StoryboardLines(lane.storyboard, 2, beat),
      Flatten(LaneStepLists(lane.laneSteps, beat)), Flatten(HitLists(lane.objects, beat)), []);
    assert LaneLines(lane, beat) ==
      [Spaces(0) + E.LaneRecord(lane)] + OptionalLines(lane.name != "", Spaces(2), "Name", lane.name)
      + OptionalLines(lane.group != "", Spaces(2), "Group", lane.group) + E.StoryboardLines(lane.storyboard, 2, beat)
      + Flatten(LaneStepLists(lane.laneSteps, beat)) + Flatten(HitLists(lane.objects, beat)) + [];
  }
  lemma PreambleHasNoBreaks()
    ensures NoLineBreaks(PreambleLines())
  {
    IntHasNoSpace(E.FORMAT_VERSION);
  }

  lemma MetadataHasNoBreaks(c: Chart)
    requires OneLine(c.difficultyName) && OneLine(c.charterName) && OneLine(c.altCharterName)
    requires OneLine(c.difficultyLevel)
    ensures NoLineBreaks(MetadataLines(c))
  {
    IntHasNoSpace(c.difficultyIndex);
    NumberHasNoSpace(c.chartConstant);
    var head := ["[METADATA]", "Index: " + FormatInt(c.difficultyIndex), "Name: " + c.difficultyName];
    var tail := ["Level: " + c.difficultyLevel, "Constant: " + FormatFloat(c.chartConstant), ""];
    var alt := AltLines(c.altCharterName);
    assert NoLineBreaks(head) && NoLineBreaks(tail) && NoLineBreaks(alt);
    NoLineBreaksAppend(["Charter: " + c.charterName], alt);
    NoLineBreaksAppend(head, ["Charter: " + c.charterName] + alt);
    NoLineBreaksAppend(head + (["Charter: " + c.charterName] + alt), tail);
  }

  lemma CameraHasNoBreaks(cam: CameraController, beat: E.BeatText)
    requires StoryboardWritable(cam.storyboard, beat)
    ensures NoLineBreaks(CameraLines(cam, beat))
  {
    VectorIsOneLine(cam.pivot);
    VectorIsOneLine(cam.rotation);
    NumberHasNoSpace(cam.distance);
    var head := ["[CAMERA]", "Pivot: " + E.EncodeVector(cam.pivot), "Rotation: " + E.EncodeVector(cam.rotation)];
    var sb := E.StoryboardLines(cam.storyboard, 0, beat);
    assert NoLineBreaks(head);
    StoryboardHasNoBreaks(cam.storyboard, 0, beat);
    NoLineBreaksAppend(["Distance: " + FormatFloat(cam.distance)], sb);
    NoLineBreaksAppend(head, ["Distance: " + FormatFloat(cam.distance)] + sb);
    NoLineBreaksAppend(head + (["Distance: " + FormatFloat(cam.distance)] + sb), [""]);
  }

  lemma GroupsHaveNoBreaks(groups: seq<LaneGroup>, beat: E.BeatText)
    requires forall i :: 0 <= i < |groups| ==> GroupWritable(groups[i], beat)
    ensures NoLineBreaks(GroupsLines(groups, beat))
  {
    var lists := GroupLists(groups, beat);
    forall i | 0 <= i < |lists| ensures NoLineBreaks(lists[i]) {
      GroupHasNoBreaks(groups[i], beat);
    }
    NoLineBreaksFlatten(lists);
    NoLineBreaksAppend(Flatten(lists), [""]);
    NoLineBreaksAppend(["[GROUPS]"], LoopLines(lists));
    NoLineBreaksAppend(["[GROUPS]"] + LoopLines(lists), [""]);
  }

  lemma LaneStylesHaveNoBreaks(styles: seq<LaneStyle>, beat: E.BeatText)
    requires forall i :: 0 <= i < |styles| ==> LaneStyleWritable(styles[i], beat)
    ensures NoLineBreaks(Flatten(LaneStyleLists(styles, beat)))
  {
    var lists := LaneStyleLists(styles, beat);
    forall i | 0 <= i < |lists| ensures NoLineBreaks(lists[i]) {
      LaneStyleHasNoBreaks(styles[i], beat);
    }
    FlatHasNoBreaks(lists);
  }

  lemma HitStylesHaveNoBreaks(styles: seq<HitStyle>, beat: E.BeatText)
    requires forall i :: 0 <= i < |styles| ==> HitStyleWritable(styles[i], beat)
    ensures NoLineBreaks(Flatten(HitStyleLists(styles, beat)))
  {
    var lists := HitStyleLists(styles, beat);
    forall i | 0 <= i < |lists| ensures NoLineBreaks(lists[i]) {
      HitStyleHasNoBreaks(styles[i], beat);
    }
    FlatHasNoBreaks(lists);
  }

  /** Two pieces of one line make one line. */
  lemma Joined(a: string, b: string)
    requires OneLine(a) && OneLine(b)
    ensures OneLine(a + b)
  {
  }

  lemma PairHasNoBreaks(a: string, b: string)
    requires OneLine(a) && OneLine(b)
    ensures NoLineBreaks([a, b])
  {
  }

  /** The palette section's shape, without line breaks. */
  lemma PaletteShapeHasNoBreaks(head: seq<string>, iface: string, sb: seq<string>, ls: seq<string>, hs: seq<string>)
    requires NoLineBreaks(head) && OneLine(iface) && NoLineBreaks(sb) && NoLineBreaks(ls) && NoLineBreaks(hs)
    ensures NoLineBreaks(head + ([iface] + sb) + ([""] + ls) + ([""] + hs) + [""])
  {
    NoLineBreaksAppend([iface], sb);
    NoLineBreaksAppend([""], ls);
    NoLineBreaksAppend([""], hs);
    NoLineBreaksAppend(head, [iface] + sb);
    NoLineBreaksAppend(head + ([iface] + sb), [""] + ls);
    NoLineBreaksAppend(head + ([iface] + sb) + ([""] + ls), [""] + hs);
    NoLineBreaksAppend(head + ([iface] + sb) + ([""] + ls) + ([""] + hs), [""]);
  }

  lemma PaletteHasNoBreaks(p: Palette, beat: E.BeatText)
    requires StoryboardWritable(p.storyboard, beat)
    requires forall i :: 0 <= i < |p.laneStyles| ==> LaneStyleWritable(p.laneStyles[i], beat)
    requires forall i :: 0 <= i < |p.hitStyles| ==> HitStyleWritable(p.hitStyles[i], beat)
    ensures NoLineBreaks(PaletteLines(p, beat))
  {
    var head := ["[PALLETE]", "Background: " + EncodeColor(p.backgroundColor)];
    ColorIsOneLine(p.backgroundColor);
    ColorIsOneLine(p.interfaceColor);
    Joined("Background: ", EncodeColor(p.backgroundColor));
    Joined("Interface: ", EncodeColor(p.interfaceColor));
    PairHasNoBreaks("[PALLETE]", "Background: " + EncodeColor(p.backgroundColor));
    StoryboardHasNoBreaks(p.storyboard, 0, beat);
    LaneStylesHaveNoBreaks(p.laneStyles, beat);
    HitStylesHaveNoBreaks(p.hitStyles, beat);
    PaletteShapeHasNoBreaks(head, "Interface: " + EncodeColor(p.interfaceColor), E.StoryboardLines(p.storyboard, 0, beat),
      Flatten(LaneStyleLists(p.laneStyles, beat)), Flatten(HitStyleLists(p.hitStyles, beat)));
  }
  lemma ObjectsHaveNoBreaks(lanes: seq<Lane>, beat: E.BeatText)
    requires forall i :: 0 <= i < |lanes| ==> LaneWritable(lanes[i], beat)
    ensures NoLineBreaks(ObjectsLines(lanes, beat))
  {
    LanesHaveNoBreaks(lanes, beat);
    LoopHasNoBreaks("[OBJECTS]", Flatten(LaneLists(lanes, beat)));
  }

  /** A header, an empty line and lines without breaks hold no line break. */
  lemma LoopHasNoBreaks(head: string, x: seq<string>)
    requires OneLine(head) && NoLineBreaks(x)
    ensures NoLineBreaks([head] + ([""] + x))
  {
    NoLineBreaksAppend([""], x);
    NoLineBreaksAppend([head], [""] + x);
  }

  lemma LanesHaveNoBreaks(lanes: seq<Lane>, beat: E.BeatText)
    requires forall i :: 0 <= i < |lanes| ==> LaneWritable(lanes[i], beat)
    ensures NoLineBreaks(Flatten(LaneLists(lanes, beat)))
  {
    var lists := LaneLists(lanes, beat);
    forall i | 0 <= i < |lists| ensures NoLineBreaks(lists[i]) {
      LaneHasNoBreaks(lanes[i], beat);
    }
    NoLineBreaksFlatten(lists);
  }

  lemma ChartLinesHaveNoBreaks(c: Chart, beat: E.BeatText)
    requires Writable(c, beat)
    ensures NoLineBreaks(ChartLines(c, beat))
  {
    var p, m, ca := PreambleLines(), MetadataLines(c), CameraLines(c.camera, beat);
    var g, pa, o := GroupsLines(c.groups, beat), PaletteLines(c.palette, beat), ObjectsLines(c.lanes, beat);
    PreambleHasNoBreaks();
    MetadataHasNoBreaks(c);
    CameraHasNoBreaks(c.camera, beat);
    GroupsHaveNoBreaks(c.groups, beat);
    PaletteHasNoBreaks(c.palette, beat);
    ObjectsHaveNoBreaks(c.lanes, beat);
    NoLineBreaksAppend(p, m);
    NoLineBreaksAppend(p + m, ca);
    NoLineBreaksAppend(p + m + ca, g);
    NoLineBreaksAppend(p + m + ca + g, pa);
    NoLineBreaksAppend(p + m + ca + g + pa, o);
  }

  /** Splitting the encoded text at line breaks gives the title and the lines of the chart. */
  lemma SplitChartText(c: Chart, beat: E.BeatText)
    requires Writable(c, beat)
    ensures Split(E.ChartText(c, beat), '\n') == [TITLE] + ChartLines(c, beat)
  {
    ChartTextLines(c, beat);
    SplitChartLines(c, beat, E.ChartText(c, beat));
  }

  lemma SplitChartLines(c: Chart, beat: E.BeatText, text: string)
    requires Writable(c, beat) && text == TITLE + Lines(ChartLines(c, beat))
    ensures Split(text, '\n') == [TITLE] + ChartLines(c, beat)
  {
    ChartLinesHaveNoBreaks(c, beat);
    SplitAfterTitle(ChartLines(c, beat), text);
  }

  lemma SplitAfterTitle(ls: seq<string>, text: string)
    requires NoLineBreaks(ls) && text == TITLE + Lines(ls)
    ensures Split(text, '\n') == [TITLE] + ls
  {
    assert '\n' !in TITLE;
    SplitLines(TITLE, ls);
  }
}
