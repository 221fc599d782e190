/** Reading back what the chart encoder writes: the decoder, given the encoder's text, reads
    every line without an error and returns the chart, up to what the format does not carry,
    the trimming of every `Key: value` value, and what the decoder keeps from its blank
    objects. */
module ChartRoundTrip {
  import opened Results
  import opened Text
  import opened Numbers
  import opened Easing
  import opened ChartInfo
  import opened Values
  import opened LineFold
  import opened JACDecoder
  import opened JACDecoderProperties
  import opened ChartRecords
  import CL = ChartLines
  import E = JACEncoder

  // ---------------------------------------------------------------- what is read back

  function TimestampsReadBack(sb: Storyboard): (r: Storyboard)
    ensures |r| == |sb| && forall i :: 0 <= i < |sb| ==> r[i] == TimestampReadBack(sb[i])
  {
    seq(|sb|, i requires 0 <= i < |sb| => TimestampReadBack(sb[i]))
  }

  /** A `Key: value` field the encoder writes only when `written` holds: the decoder reads
      the value trimmed, and otherwise the blank object's value stays. */
  function FieldReadBack(written: bool, value: string, blank: string): string {
    if written then Trim(value) else blank
  }

  /** A group reads back with its record's position and rotation, its name trimmed, its
      parent group trimmed when set, and its timestamps behind the blank group's. */
  function GroupReadBack(g: LaneGroup, blank: LaneGroup): LaneGroup {
    blank.(position := g.position, rotation := g.rotation, name := Trim(g.name),
           group := FieldReadBack(g.group != "", g.group, blank.group),
           storyboard := blank.storyboard + TimestampsReadBack(g.storyboard))
  }

  /** A lane style reads back with its colours, and each name, material and target trimmed
      when it was written (set and not the default). */
  function LaneStyleReadBack(s: LaneStyle, blank: LaneStyle): LaneStyle {
    blank.(laneColor := s.laneColor, judgeColor := s.judgeColor,
           name := FieldReadBack(s.name != "", s.name, blank.name),
           laneMaterial := FieldReadBack(E.Overrides(s.laneMaterial, "Default"), s.laneMaterial, blank.laneMaterial),
           laneColorTarget := FieldReadBack(E.Overrides(s.laneColorTarget, "_Color"), s.laneColorTarget, blank.laneColorTarget),
           judgeMaterial := FieldReadBack(E.Overrides(s.judgeMaterial, "Default"), s.judgeMaterial, blank.judgeMaterial),
           judgeColorTarget := FieldReadBack(E.Overrides(s.judgeColorTarget, "_Color"), s.judgeColorTarget, blank.judgeColorTarget),
           storyboard := blank.storyboard + TimestampsReadBack(s.storyboard))
  }

  function HitStyleReadBack(s: HitStyle, blank: HitStyle): HitStyle {
    blank.(holdTailColor := s.holdTailColor, normalColor := s.normalColor, catchColor := s.catchColor,
           name := FieldReadBack(s.name != "", s.name, blank.name),
           mainMaterial := FieldReadBack(E.Overrides(s.mainMaterial, "Default"), s.mainMaterial, blank.mainMaterial),
           mainColorTarget := FieldReadBack(E.Overrides(s.mainColorTarget, "_Color"), s.mainColorTarget, blank.mainColorTarget),
           holdTailMaterial := FieldReadBack(E.Overrides(s.holdTailMaterial, "Default"), s.holdTailMaterial, blank.holdTailMaterial),
           holdTailColorTarget := FieldReadBack(E.Overrides(s.holdTailColorTarget, "_Color"), s.holdTailColorTarget, blank.holdTailColorTarget),
           storyboard := blank.storyboard + TimestampsReadBack(s.storyboard))
  }

  function LaneStepReadBack(step: LaneStep, blank: LaneStep): LaneStep {
    var r := LaneStepRecordReadBack(step, blank);
    r.(storyboard := r.storyboard + TimestampsReadBack(step.storyboard))
  }

  function HitReadBack(hit: HitObject, blank: HitObject): HitObject {
    var r := HitRecordReadBack(hit, blank);
    r.(storyboard := r.storyboard + TimestampsReadBack(hit.storyboard))
  }

  function GroupsReadBack(groups: seq<LaneGroup>, blank: LaneGroup): (r: seq<LaneGroup>)
    ensures |r| == |groups| && forall i :: 0 <= i < |groups| ==> r[i] == GroupReadBack(groups[i], blank)
  {
    seq(|groups|, i requires 0 <= i < |groups| => GroupReadBack(groups[i], blank))
  }

  function LaneStylesReadBack(styles: seq<LaneStyle>, blank: LaneStyle): (r: seq<LaneStyle>)
    ensures |r| == |styles| && forall i :: 0 <= i < |styles| ==> r[i] == LaneStyleReadBack(styles[i], blank)
  {
    seq(|styles|, i requires 0 <= i < |styles| => LaneStyleReadBack(styles[i], blank))
  }

  function HitStylesReadBack(styles: seq<HitStyle>, blank: HitStyle): (r: seq<HitStyle>)
    ensures |r| == |styles| && forall i :: 0 <= i < |styles| ==> r[i] == HitStyleReadBack(styles[i], blank)
  {
    seq(|styles|, i requires 0 <= i < |styles| => HitStyleReadBack(styles[i], blank))
  }

  function StepsReadBack(steps: seq<LaneStep>, blank: LaneStep): (r: seq<LaneStep>)
    ensures |r| == |steps| && forall i :: 0 <= i < |steps| ==> r[i] == LaneStepReadBack(steps[i], blank)
  {
    seq(|steps|, i requires 0 <= i < |steps| => LaneStepReadBack(steps[i], blank))
  }

  function HitsReadBack(hits: seq<HitObject>, blank: HitObject): (r: seq<HitObject>)
    ensures |r| == |hits| && forall i :: 0 <= i < |hits| ==> r[i] == HitReadBack(hits[i], blank)
  {
    seq(|hits|, i requires 0 <= i < |hits| => HitReadBack(hits[i], blank))
  }

  /** A lane reads back with its record's fields, its name and group trimmed when set, and its
      timestamps, steps and hits behind the blank lane's. */
  function LaneReadBack(lane: Lane, blanks: Blanks): Lane {
    var b := blanks.lane;
    b.(position := lane.position, rotation := lane.rotation, styleIndex := lane.styleIndex,
       name := FieldReadBack(lane.name != "", lane.name, b.name),
       group := FieldReadBack(lane.group != "", lane.group, b.group),
       storyboard := b.storyboard + TimestampsReadBack(lane.storyboard),
       laneSteps := b.laneSteps + StepsReadBack(lane.laneSteps, blanks.laneStep),
       objects := b.objects + HitsReadBack(lane.objects, blanks.hitObject))
  }

  function LanesReadBack(lanes: seq<Lane>, blanks: Blanks): (r: seq<Lane>)
    ensures |r| == |lanes| && forall i :: 0 <= i < |lanes| ==> r[i] == LaneReadBack(lanes[i], blanks)
  {
    seq(|lanes|, i requires 0 <= i < |lanes| => LaneReadBack(lanes[i], blanks))
  }

  /** The chart the decoder returns for the encoder's text of `c`: the numbers and colours as
      written, the names trimmed, the alternative charter only when it is not blank, the
      lists behind the blank chart's, except the style lists, which the decoder clears. */
  function ExpectedChart(c: Chart, blanks: Blanks): Chart {
    var b := blanks.chart;
    Chart(c.difficultyIndex, Trim(c.difficultyName), Trim(c.charterName),
      FieldReadBack(!IsNullOrWhiteSpace(c.altCharterName), c.altCharterName, b.altCharterName),
      Trim(c.difficultyLevel), c.chartConstant,
      CameraController(c.camera.pivot, c.camera.rotation, c.camera.distance,
        b.camera.storyboard + TimestampsReadBack(c.camera.storyboard)),
      b.groups + GroupsReadBack(c.groups, blanks.group),
      Palette(c.palette.backgroundColor, c.palette.interfaceColor,
        LaneStylesReadBack(c.palette.laneStyles, blanks.laneStyle),
        HitStylesReadBack(c.palette.hitStyles, blanks.hitStyle),
        b.palette.storyboard + TimestampsReadBack(c.palette.storyboard)),
      b.lanes + LanesReadBack(c.lanes, blanks))
  }

  // ---------------------------------------------------------------- what can be read back

  /** A timestamp whose id is a known name and a single token, whose beat reads back, and
      whose ease the source can hold. */
  predicate TimestampReadable(ts: Timestamp, beat: E.BeatText, names: EnumNames) {
    && ts.id in names.timestampIds && ' ' !in ts.id && '\n' !in ts.id
    && BeatReadsBack(beat, ts.offset) && IsConstructible(ts.easing)
  }

  predicate StoryboardReadable(sb: Storyboard, beat: E.BeatText, names: EnumNames) {
    forall i :: 0 <= i < |sb| ==> TimestampReadable(sb[i], beat, names)
  }

  predicate GroupReadable(g: LaneGroup, beat: E.BeatText, names: EnumNames) {
    CL.GroupWritable(g, beat) && StoryboardReadable(g.storyboard, beat, names)
  }

  predicate LaneStyleReadable(s: LaneStyle, beat: E.BeatText, names: EnumNames) {
    CL.LaneStyleWritable(s, beat) && StoryboardReadable(s.storyboard, beat, names)
  }

  predicate HitStyleReadable(s: HitStyle, beat: E.BeatText, names: EnumNames) {
    CL.HitStyleWritable(s, beat) && StoryboardReadable(s.storyboard, beat, names)
  }

  predicate LaneStepReadable(step: LaneStep, beat: E.BeatText, names: EnumNames) {
    BeatReadsBack(beat, step.offset) && StepEasesConstructible(step) && StoryboardReadable(step.storyboard, beat, names)
  }

  predicate HitReadable(hit: HitObject, beat: E.BeatText, names: EnumNames) {
    && hit.hitType in names.hitTypes && ' ' !in hit.hitType && '\n' !in hit.hitType
    && BeatReadsBack(beat, hit.offset) && StoryboardReadable(hit.storyboard, beat, names)
  }

  predicate LaneReadable(lane: Lane, beat: E.BeatText, names: EnumNames) {
    && '\n' !in lane.name && '\n' !in lane.group && StoryboardReadable(lane.storyboard, beat, names)
    && (forall i :: 0 <= i < |lane.laneSteps| ==> LaneStepReadable(lane.laneSteps[i], beat, names))
    && (forall i :: 0 <= i < |lane.objects| ==> HitReadable(lane.objects[i], beat, names))
  }

  /** What the chart can hold for its text to read back: single-line strings, timestamp ids
      and hit types that are known names without spaces, beats the renderer writes as a
      token that reads back, and eases the source can hold. */
  predicate Readable(c: Chart, beat: E.BeatText, names: EnumNames) {
    && '\n' !in c.difficultyName && '\n' !in c.charterName && '\n' !in c.altCharterName
    && '\n' !in c.difficultyLevel && StoryboardReadable(c.camera.storyboard, beat, names)
    && (forall i :: 0 <= i < |c.groups| ==> GroupReadable(c.groups[i], beat, names))
    && StoryboardReadable(c.palette.storyboard, beat, names)
    && (forall i :: 0 <= i < |c.palette.laneStyles| ==> LaneStyleReadable(c.palette.laneStyles[i], beat, names))
    && (forall i :: 0 <= i < |c.palette.hitStyles| ==> HitStyleReadable(c.palette.hitStyles[i], beat, names))
    && (forall i :: 0 <= i < |c.lanes| ==> LaneReadable(c.lanes[i], beat, names))
  }

  // ---------------------------------------------------------------- reading line by line

  lemma ReadsNothing(names: EnumNames, blanks: Blanks, st: ValidState)
    ensures Reads(Stepper(names, blanks), st, [], st)
  {
  }

  /** One more line read with `Step` extends what has been read. */
  lemma ReadsNext(names: EnumNames, blanks: Blanks, s1: ValidState, lines: seq<string>, s2: ValidState,
                  line: string, s3: ValidState)
    requires Reads(Stepper(names, blanks), s1, lines, s2) && Step(s2, line, names, blanks) == Ok(s3)
    ensures Reads(Stepper(names, blanks), s1, lines + [line], s3)
  {
    assert Stepper(names, blanks)(s2, line) == Ok(s3);
    FoldSnoc(Stepper(names, blanks), s1, lines, line);
  }

  lemma ReadsLine(names: EnumNames, blanks: Blanks, st: ValidState, line: string, st': ValidState)
    requires Step(st, line, names, blanks) == Ok(st')
    ensures Reads(Stepper(names, blanks), st, [line], st')
  {
    assert Stepper(names, blanks)(st, line) == Ok(st');
    ReadsOne(Stepper(names, blanks), st, line, st');
  }

  lemma ReadsBoth(names: EnumNames, blanks: Blanks, s1: ValidState, a: seq<string>, s2: ValidState,
                  b: seq<string>, s3: ValidState)
    requires Reads(Stepper(names, blanks), s1, a, s2) && Reads(Stepper(names, blanks), s2, b, s3)
    ensures Reads(Stepper(names, blanks), s1, a + b, s3)
  {
    ReadsThen(Stepper(names, blanks), s1, a, s2, b, s3);
  }

  /** Three pieces read one after the other, for any step. */
  lemma ReadsThree<S>(step: (S, string) -> Parsed<S>, s0: S, a: seq<string>, s1: S, b: seq<string>, s2: S,
                      c: seq<string>, s3: S)
    requires Reads(step, s0, a, s1) && Reads(step, s1, b, s2) && Reads(step, s2, c, s3)
    ensures Reads(step, s0, a + b + c, s3)
  {
    ReadsThen(step, s0, a, s1, b, s2);
    ReadsThen(step, s0, a + b, s2, c, s3);
  }

  /** Reading one more empty line. */
  lemma ReadEmpty(names: EnumNames, blanks: Blanks, s0: ValidState, lines: seq<string>, st: ValidState)
    requires Reads(Stepper(names, blanks), s0, lines, st)
    ensures Reads(Stepper(names, blanks), s0, lines + [""], st)
  {
    EmptyLineIsIgnored(st, names, blanks);
    ReadsNext(names, blanks, s0, lines, st, "", st);
  }

  // ---------------------------------------------------------------- storyboards

  lemma TimestampsSnoc(before: Storyboard, sb: Storyboard)
    requires sb != []
    ensures var n := |sb| - 1;
      before + TimestampsReadBack(sb) == before + TimestampsReadBack(sb[..n]) + [TimestampReadBack(sb[n])]
  {
    var n := |sb| - 1;
    Snoc(before, TimestampsReadBack(sb), TimestampsReadBack(sb[..n]), TimestampReadBack(sb[n]));
  }

  /** A list made of the front's elements and one more, behind `before`. */
  lemma Snoc<T>(before: seq<T>, r: seq<T>, front: seq<T>, last: T)
    requires |r| == |front| + 1 && r[|front|] == last
    requires forall i :: 0 <= i < |front| ==> r[i] == front[i]
    ensures before + r == before + front + [last]
  {
    assert r == front + [last];
    SeqAssoc(before, front, [last]);
  }

  /** Appending to a storyboard just written is writing the longer storyboard. */
  lemma AppendAfterPut(c: Chart, t: Target, a: Storyboard, ts: Timestamp)
    requires Exists(c, t) && HasStoryboard(t)
    ensures Exists(WithStoryboard(c, t, a), t)
    ensures AppendTimestamp(WithStoryboard(c, t, a), t, ts) == WithStoryboard(c, t, a + [ts])
  {
    StoryboardPutGet(c, t, a);
    StoryboardPutPut(c, t, a, a + [ts]);
  }

  lemma StoryboardLinesSnoc(sb: Storyboard, depth: nat, beat: E.BeatText)
    requires sb != []
    ensures var n := |sb| - 1;
      E.StoryboardLines(sb, depth, beat) == E.StoryboardLines(sb[..n], depth, beat) + [E.TimestampLine(sb[n], depth, beat)]
  {
  }

  lemma ReadableFront(sb: Storyboard, beat: E.BeatText, names: EnumNames)
    requires sb != [] && StoryboardReadable(sb, beat, names)
    ensures StoryboardReadable(sb[..|sb| - 1], beat, names) && TimestampReadable(sb[|sb| - 1], beat, names)
  {
    var front := sb[..|sb| - 1];
    forall i | 0 <= i < |front| ensures TimestampReadable(front[i], beat, names) {
      assert front[i] == sb[i];
    }
  }

  /** The chart once the timestamps of `sb`, as they read back, are appended one by one to
      the storyboard of `t`. */
  function Extended(c: Chart, t: Target, sb: Storyboard): (r: Chart)
    requires Exists(c, t) && HasStoryboard(t)
    ensures Exists(r, t)
    decreases |sb|
  {
    if sb == [] then c
    else
      var prev := Extended(c, t, sb[..|sb| - 1]);
      var r := AppendTimestamp(prev, t, TimestampReadBack(sb[|sb| - 1]));
      GrowsKeepsTargets(prev, r, t);
      r
  }

  /** Appending the timestamps one by one is appending them all at once. */
  lemma {:induction false} ExtendedAppends(c: Chart, t: Target, sb: Storyboard)
    requires Exists(c, t) && HasStoryboard(t)
    ensures Extended(c, t, sb) == WithStoryboard(c, t, StoryboardOf(c, t) + TimestampsReadBack(sb))
    decreases |sb|
  {
    var before := StoryboardOf(c, t);
    if sb == [] {
      assert before + TimestampsReadBack(sb) == before;
      StoryboardGetPut(c, t);
    } else {
      var front := sb[..|sb| - 1];
      ExtendedAppends(c, t, front);
      AppendAfterPut(c, t, before + TimestampsReadBack(front), TimestampReadBack(sb[|sb| - 1]));
      TimestampsSnoc(before, sb);
    }
  }

  /** A storyboard's lines append its timestamps, as they read back, to the current
      storyboard, and change nothing else. */
  lemma {:induction false} ReadStoryboard(names: EnumNames, blanks: Blanks, st: ValidState, sb: Storyboard,
                                          depth: nat, beat: E.BeatText) returns (st': ValidState)
    requires st.currentStoryboard != Nothing && StoryboardReadable(sb, beat, names)
    ensures Reads(Stepper(names, blanks), st, E.StoryboardLines(sb, depth, beat), st')
    ensures st' == st.(chart := Extended(st.chart, st.currentStoryboard, sb))
    decreases |sb|
  {
    if sb == [] {
      ReadsNothing(names, blanks, st);
      st' := st;
    } else {
      var n := |sb| - 1;
      var front := sb[..n];
      ReadableFront(sb, beat, names);
      var mid := ReadStoryboard(names, blanks, st, front, depth, beat);
      TimestampStep(mid, sb[n], depth, beat, names, blanks);
      st' := mid.(chart := AppendTimestamp(mid.chart, st.currentStoryboard, TimestampReadBack(sb[n])));
      StoryboardLinesSnoc(sb, depth, beat);
      ReadsNext(names, blanks, st, E.StoryboardLines(front, depth, beat), mid, E.TimestampLine(sb[n], depth, beat), st');
    }
  }

  // ---------------------------------------------------------------- `Key: value` lines

  /** A key the decoder routes to `ApplyMetadata`: it starts with no marker of another line
      kind and holds no colon. */
  predicate KeyName(key: string) {
    key != [] && !IsWhiteSpace(key[0]) && key[0] !in "[$+" && ':' !in key
  }

  lemma GroupKeys()
    ensures KeyName("Name") && KeyName("Group")
  {
  }

  /** A line written with the key's prefix is the key, `": "` and the value. */
  lemma PrefixLine(indent: string, prefix: string, key: string, value: string)
    requires prefix == key + ": "
    ensures indent + prefix + value == indent + key + ": " + value
  {
    AppendAssoc(indent, key, ": ");
  }

  /** A field line sets the field its key names on the current object, to the trimmed value. */
  lemma FieldStep(names: EnumNames, blanks: Blanks, st: ValidState, indent: string, key: string, value: string, c': Chart)
    requires IsNullOrWhiteSpace(indent) && KeyName(key)
    requires SetField(st.chart, st.currentObject, key, Trim(value)) == Ok(c')
    ensures Valid(st.(chart := c'))
    ensures Step(st, indent + key + ": " + value, names, blanks) == Ok(st.(chart := c'))
  {
    IndentedMetadataLine(st, indent, key, value, names, blanks);
    MetadataLineRouting(st, key, value);
  }

  /** Reading one more field line. */
  lemma ReadField(names: EnumNames, blanks: Blanks, s0: ValidState, lines: seq<string>, st: ValidState,
                  indent: string, key: string, value: string, c': Chart) returns (st': ValidState)
    requires Reads(Stepper(names, blanks), s0, lines, st)
    requires IsNullOrWhiteSpace(indent) && KeyName(key)
    requires SetField(st.chart, st.currentObject, key, Trim(value)) == Ok(c')
    ensures Reads(Stepper(names, blanks), s0, lines + [indent + key + ": " + value], st')
    ensures st' == st.(chart := c')
  {
    FieldStep(names, blanks, st, indent, key, value, c');
    st' := st.(chart := c');
    ReadsNext(names, blanks, s0, lines, st, indent + key + ": " + value, st');
  }

  /** An optional field line, read on its own. */
  lemma ReadOptionalLine(names: EnumNames, blanks: Blanks, st: ValidState, present: bool, indent: string,
                         key: string, value: string, c': Chart) returns (st': ValidState)
    requires IsNullOrWhiteSpace(indent) && KeyName(key)
    requires SetField(st.chart, st.currentObject, key, Trim(value)) == Ok(c')
    ensures Reads(Stepper(names, blanks), st, CL.OptionalLines(present, indent, key, value), st')
    ensures st' == if present then st.(chart := c') else st
  {
    if present {
      FieldStep(names, blanks, st, indent, key, value, c');
      st' := st.(chart := c');
      ReadsLine(names, blanks, st, indent + key + ": " + value, st');
    } else {
      ReadsNothing(names, blanks, st);
      st' := st;
    }
  }

  // ---------------------------------------------------------------- groups

  /** The state once a group's lines are read: `x` appended to the groups, and current. */
  function AtGroup(st: State, x: LaneGroup): State {
    var t := GroupAt(|st.chart.groups|);
    st.(chart := st.chart.(groups := st.chart.groups + [x]), currentObject := t, currentStoryboard := t)
  }

  lemma GroupLast(st: State, x: LaneGroup, key: string, v: string, sb: Storyboard)
    ensures var c, t := AtGroup(st, x).chart, GroupAt(|st.chart.groups|);
      && SetField(c, t, key, v) == Ok(AtGroup(st, SetGroupField(x, key, v)).chart)
      && StoryboardOf(c, t) == x.storyboard
      && WithStoryboard(c, t, sb) == AtGroup(st, x.(storyboard := sb)).chart
  {
    UpdateLast(st.chart.groups, x, SetGroupField(x, key, v));
    UpdateLast(st.chart.groups, x, x.(storyboard := sb));
  }

  /** Replacing the last element of a list. */
  lemma UpdateLast<T>(a: seq<T>, x: T, y: T)
    ensures (a + [x])[|a| := y] == a + [y]
  {
  }

  /** A group's record line appends the group with the record's fields. */
  lemma ReadGroupRecord(names: EnumNames, blanks: Blanks, st: ValidState, g: LaneGroup) returns (st': ValidState)
    ensures Reads(Stepper(names, blanks), st, [Spaces(0) + E.GroupRecord(g)], st')
    ensures st' == AtGroup(st, GroupRecordReadBack(g, blanks.group))
  {
    GroupRecordStep(st, g, 0, names, blanks);
    st' := AtGroup(st, GroupRecordReadBack(g, blanks.group));
    ReadsLine(names, blanks, st, Spaces(0) + E.GroupRecord(g), st');
  }

  /** A group's record line and its `Name` line. */
  lemma ReadGroupHead(names: EnumNames, blanks: Blanks, st: ValidState, g: LaneGroup) returns (st': ValidState)
    ensures Reads(Stepper(names, blanks), st, [Spaces(0) + E.GroupRecord(g)] + [Spaces(2) + "Name" + ": " + g.name], st')
    ensures st' == AtGroup(st, GroupRecordReadBack(g, blanks.group).(name := Trim(g.name)))
  {
    var x0 := GroupRecordReadBack(g, blanks.group);
    var s1 := ReadGroupRecord(names, blanks, st, g);
    GroupKeys();
    GroupLast(st, x0, "Name", Trim(g.name), []);
    st' := ReadField(names, blanks, st, [Spaces(0) + E.GroupRecord(g)], s1, Spaces(2), "Name", g.name,
                     AtGroup(st, x0.(name := Trim(g.name))).chart);
  }

  /** A group's optional `Group` line and its storyboard, once its record is current. */
  lemma ReadGroupTail(names: EnumNames, blanks: Blanks, st: ValidState, x: LaneGroup, s1: ValidState,
                      g: LaneGroup, beat: E.BeatText) returns (st': ValidState)
    requires s1 == AtGroup(st, x) && StoryboardReadable(g.storyboard, beat, names)
    ensures Reads(Stepper(names, blanks),
                  s1, CL.OptionalLines(g.group != "", Spaces(2), "Group", g.group) + E.StoryboardLines(g.storyboard, 2, beat), st')
    ensures var x' := if g.group != "" then x.(group := Trim(g.group)) else x;
      st' == AtGroup(st, x'.(storyboard := x.storyboard + TimestampsReadBack(g.storyboard)))
  {
    var s2 := ReadGroupOption(names, blanks, st, x, s1, g.group);
    var x' := if g.group != "" then x.(group := Trim(g.group)) else x;
    st' := ReadGroupStoryboard(names, blanks, st, x', s2, g.storyboard, beat);
    ReadsBoth(names, blanks, s1, CL.OptionalLines(g.group != "", Spaces(2), "Group", g.group), s2,
              E.StoryboardLines(g.storyboard, 2, beat), st');
  }

  lemma ReadGroupOption(names: EnumNames, blanks: Blanks, st: ValidState, x: LaneGroup, s1: ValidState, group: string)
    returns (s2: ValidState)
    requires s1 == AtGroup(st, x)
    ensures Reads(Stepper(names, blanks), s1, CL.OptionalLines(group != "", Spaces(2), "Group", group), s2)
    ensures s2 == AtGroup(st, if group != "" then x.(group := Trim(group)) else x)
  {
    GroupKeys();
    GroupLast(st, x, "Group", Trim(group), []);
    s2 := ReadOptionalLine(names, blanks, s1, group != "", Spaces(2), "Group", group,
                           AtGroup(st, x.(group := Trim(group))).chart);
  }

  lemma ReadGroupStoryboard(names: EnumNames, blanks: Blanks, st: ValidState, x: LaneGroup, s1: ValidState,
                            sb: Storyboard, beat: E.BeatText) returns (st': ValidState)
    requires s1 == AtGroup(st, x) && StoryboardReadable(sb, beat, names)
    ensures Reads(Stepper(names, blanks), s1, E.StoryboardLines(sb, 2, beat), st')
    ensures st' == AtGroup(st, x.(storyboard := x.storyboard + TimestampsReadBack(sb)))
  {
    st' := ReadStoryboard(names, blanks, s1, sb, 2, beat);
    ExtendedAppends(s1.chart, s1.currentStoryboard, sb);
    GroupLast(st, x, "", "", x.storyboard + TimestampsReadBack(sb));
  }

  lemma GroupLinesSplit(g: LaneGroup, beat: E.BeatText)
    ensures CL.GroupLines(g, beat) ==
      ([Spaces(0) + E.GroupRecord(g)] + [Spaces(2) + "Name" + ": " + g.name])
        + (CL.OptionalLines(g.group != "", Spaces(2), "Group", g.group) + E.StoryboardLines(g.storyboard, 2, beat))
  {
    PrefixLine(Spaces(2), "Name: ", "Name", g.name);
  }

  /** A group's lines append the group as it reads back, and make it the current object and
      storyboard. */
  lemma ReadGroup(names: EnumNames, blanks: Blanks, st: ValidState, g: LaneGroup, beat: E.BeatText)
    returns (st': ValidState)
    requires GroupReadable(g, beat, names)
    ensures Reads(Stepper(names, blanks), st, CL.GroupLines(g, beat), st')
    ensures st' == AtGroup(st, GroupReadBack(g, blanks.group))
  {
    var s1 := ReadGroupHead(names, blanks, st, g);
    var x := GroupRecordReadBack(g, blanks.group).(name := Trim(g.name));
    st' := ReadGroupTail(names, blanks, st, x, s1, g, beat);
    GroupLinesSplit(g, beat);
    ReadsBoth(names, blanks, st, [Spaces(0) + E.GroupRecord(g)] + [Spaces(2) + "Name" + ": " + g.name], s1,
              CL.OptionalLines(g.group != "", Spaces(2), "Group", g.group) + E.StoryboardLines(g.storyboard, 2, beat), st');
  }

  /** The blocks of a list end with the block of its last element. */
  lemma FlattenSnoc<T>(lists: seq<seq<T>>, front: seq<seq<T>>)
    requires lists != [] && lists[..|lists| - 1] == front
    ensures Flatten(lists) == Flatten(front) + lists[|lists| - 1]
  {
    FlattenLast(lists);
  }

  lemma GroupsFront(gs: seq<LaneGroup>, beat: E.BeatText, names: EnumNames)
    requires gs != [] && forall i :: 0 <= i < |gs| ==> GroupReadable(gs[i], beat, names)
    ensures var n := |gs| - 1;
      && (forall i :: 0 <= i < n ==> GroupReadable(gs[..n][i], beat, names))
      && GroupReadable(gs[n], beat, names)
  {
  }

  lemma GroupLinesSnoc(gs: seq<LaneGroup>, beat: E.BeatText)
    requires gs != []
    ensures var n := |gs| - 1;
      Flatten(CL.GroupLists(gs, beat)) == Flatten(CL.GroupLists(gs[..n], beat)) + CL.GroupLines(gs[n], beat)
  {
    var n := |gs| - 1;
    assert CL.GroupLists(gs, beat)[..n] == CL.GroupLists(gs[..n], beat);
    FlattenSnoc(CL.GroupLists(gs, beat), CL.GroupLists(gs[..n], beat));
  }

  lemma GroupsReadBackSnoc(gs: seq<LaneGroup>, blank: LaneGroup, before: seq<LaneGroup>)
    requires gs != []
    ensures var n := |gs| - 1;
      before + GroupsReadBack(gs, blank) == before + GroupsReadBack(gs[..n], blank) + [GroupReadBack(gs[n], blank)]
  {
    var n := |gs| - 1;
    Snoc(before, GroupsReadBack(gs, blank), GroupsReadBack(gs[..n], blank), GroupReadBack(gs[n], blank));
  }

  /** The groups' blocks append the groups as they read back, and leave the mode and the
      current lane as they were. */
  lemma {:induction false} ReadGroups(names: EnumNames, blanks: Blanks, st: ValidState, gs: seq<LaneGroup>,
                                      beat: E.BeatText) returns (st': ValidState)
    requires forall i :: 0 <= i < |gs| ==> GroupReadable(gs[i], beat, names)
    ensures Reads(Stepper(names, blanks), st, Flatten(CL.GroupLists(gs, beat)), st')
    ensures st'.chart == st.chart.(groups := st.chart.groups + GroupsReadBack(gs, blanks.group))
    ensures st'.mode == st.mode && st'.currentLane == st.currentLane
    decreases |gs|
  {
    if gs == [] {
      ReadsNothing(names, blanks, st);
      assert st.chart.groups + GroupsReadBack(gs, blanks.group) == st.chart.groups;
      st' := st;
    } else {
      var n := |gs| - 1;
      GroupsFront(gs, beat, names);
      GroupLinesSnoc(gs, beat);
      GroupsReadBackSnoc(gs, blanks.group, st.chart.groups);
      var mid := ReadGroups(names, blanks, st, gs[..n], beat);
      st' := ReadGroup(names, blanks, mid, gs[n], beat);
      ReadsBoth(names, blanks, st, Flatten(CL.GroupLists(gs[..n], beat)), mid, CL.GroupLines(gs[n], beat), st');
    }
  }

  // ---------------------------------------------------------------- lane styles

  function AtLaneStyle(st: State, x: LaneStyle): State {
    var c := st.chart;
    var t := LaneStyleAt(|c.palette.laneStyles|);
    st.(chart := c.(palette := c.palette.(laneStyles := c.palette.laneStyles + [x])), currentObject := t, currentStoryboard := t)
  }

  lemma LaneStyleLast(st: State, x: LaneStyle, key: string, v: string, sb: Storyboard)
    ensures var c, t := AtLaneStyle(st, x).chart, LaneStyleAt(|st.chart.palette.laneStyles|);
      && SetField(c, t, key, v) == Ok(AtLaneStyle(st, SetLaneStyleField(x, key, v)).chart)
      && StoryboardOf(c, t) == x.storyboard
      && WithStoryboard(c, t, sb) == AtLaneStyle(st, x.(storyboard := sb)).chart
  {
    UpdateLast(st.chart.palette.laneStyles, x, SetLaneStyleField(x, key, v));
    UpdateLast(st.chart.palette.laneStyles, x, x.(storyboard := sb));
  }

  lemma LaneStyleKeys()
    ensures KeyName("Name") && KeyName("Lane Material") && KeyName("Lane Target")
    ensures KeyName("Judge Material") && KeyName("Judge Target")
  {
  }

  /** The fields of a lane style's optional lines, read over `x`: the name and the lane's
      material and target, then the judgement's. */
  function LaneStyleFieldsRead(s: LaneStyle, x: LaneStyle): LaneStyle {
    var y := x.(name := FieldReadBack(s.name != "", s.name, x.name),
                laneMaterial := FieldReadBack(E.Overrides(s.laneMaterial, "Default"), s.laneMaterial, x.laneMaterial),
                laneColorTarget := FieldReadBack(E.Overrides(s.laneColorTarget, "_Color"), s.laneColorTarget, x.laneColorTarget));
    JudgeFieldsRead(s, y)
  }

  function JudgeFieldsRead(s: LaneStyle, y: LaneStyle): LaneStyle {
    y.(judgeMaterial := FieldReadBack(E.Overrides(s.judgeMaterial, "Default"), s.judgeMaterial, y.judgeMaterial),
       judgeColorTarget := FieldReadBack(E.Overrides(s.judgeColorTarget, "_Color"), s.judgeColorTarget, y.judgeColorTarget))
  }

  /** One optional line of the current lane style. */
  lemma ReadLaneStyleOption(names: EnumNames, blanks: Blanks, st: ValidState, x: LaneStyle, s1: ValidState,
                            present: bool, key: string, value: string) returns (s2: ValidState)
    requires s1 == AtLaneStyle(st, x) && KeyName(key)
    ensures Reads(Stepper(names, blanks), s1, CL.OptionalLines(present, Spaces(2), key, value), s2)
    ensures s2 == AtLaneStyle(st, if present then SetLaneStyleField(x, key, Trim(value)) else x)
  {
    LaneStyleLast(st, x, key, Trim(value), []);
    s2 := ReadOptionalLine(names, blanks, s1, present, Spaces(2), key, value,
                           AtLaneStyle(st, SetLaneStyleField(x, key, Trim(value))).chart);
  }

  /** The lines a lane style writes between its record and its storyboard. */
  function LaneStyleOptions(s: LaneStyle): seq<string> {
    LaneOptions(s) + JudgeOptions(s)
  }

  function LaneOptions(s: LaneStyle): seq<string> {
    CL.OptionalLines(s.name != "", Spaces(2), "Name", s.name)
      + CL.OptionalLines(E.Overrides(s.laneMaterial, "Default"), Spaces(2), "Lane Material", s.laneMaterial)
      + CL.OptionalLines(E.Overrides(s.laneColorTarget, "_Color"), Spaces(2), "Lane Target", s.laneColorTarget)
  }

  function JudgeOptions(s: LaneStyle): seq<string> {
    CL.OptionalLines(E.Overrides(s.judgeMaterial, "Default"), Spaces(2), "Judge Material", s.judgeMaterial)
      + CL.OptionalLines(E.Overrides(s.judgeColorTarget, "_Color"), Spaces(2), "Judge Target", s.judgeColorTarget)
  }

  lemma ReadLaneOptions(names: EnumNames, blanks: Blanks, st: ValidState, x: LaneStyle, s1: ValidState, s: LaneStyle)
    returns (s': ValidState)
    requires s1 == AtLaneStyle(st, x)
    ensures Reads(Stepper(names, blanks), s1, LaneOptions(s), s')
    ensures s' == AtLaneStyle(st, x.(name := FieldReadBack(s.name != "", s.name, x.name),
                laneMaterial := FieldReadBack(E.Overrides(s.laneMaterial, "Default"), s.laneMaterial, x.laneMaterial),
                laneColorTarget := FieldReadBack(E.Overrides(s.laneColorTarget, "_Color"), s.laneColorTarget, x.laneColorTarget)))
  {
    LaneStyleKeys();
    var x1 := if s.name != "" then SetLaneStyleField(x, "Name", Trim(s.name)) else x;
    var a := ReadLaneStyleOption(names, blanks, st, x, s1, s.name != "", "Name", s.name);
    var p2 := E.Overrides(s.laneMaterial, "Default");
    var x2 := if p2 then SetLaneStyleField(x1, "Lane Material", Trim(s.laneMaterial)) else x1;
    var b := ReadLaneStyleOption(names, blanks, st, x1, a, p2, "Lane Material", s.laneMaterial);
    var p3 := E.Overrides(s.laneColorTarget, "_Color");
    s' := ReadLaneStyleOption(names, blanks, st, x2, b, p3, "Lane Target", s.laneColorTarget);
    ReadsThree(Stepper(names, blanks), s1, CL.OptionalLines(s.name != "", Spaces(2), "Name", s.name), a,
               CL.OptionalLines(p2, Spaces(2), "Lane Material", s.laneMaterial), b,
               CL.OptionalLines(p3, Spaces(2), "Lane Target", s.laneColorTarget), s');
  }

  lemma ReadJudgeOptions(names: EnumNames, blanks: Blanks, st: ValidState, x: LaneStyle, s1: ValidState, s: LaneStyle)
    returns (s': ValidState)
    requires s1 == AtLaneStyle(st, x)
    ensures Reads(Stepper(names, blanks), s1, JudgeOptions(s), s')
    ensures s' == AtLaneStyle(st, JudgeFieldsRead(s, x))
  {
    LaneStyleKeys();
    var p4 := E.Overrides(s.judgeMaterial, "Default");
    var x4 := if p4 then SetLaneStyleField(x, "Judge Material", Trim(s.judgeMaterial)) else x;
    var d := ReadLaneStyleOption(names, blanks, st, x, s1, p4, "Judge Material", s.judgeMaterial);
    var p5 := E.Overrides(s.judgeColorTarget, "_Color");
    s' := ReadLaneStyleOption(names, blanks, st, x4, d, p5, "Judge Target", s.judgeColorTarget);
    ReadsBoth(names, blanks, s1, CL.OptionalLines(p4, Spaces(2), "Judge Material", s.judgeMaterial), d,
              CL.OptionalLines(p5, Spaces(2), "Judge Target", s.judgeColorTarget), s');
  }

  lemma ReadLaneStyleRecord(names: EnumNames, blanks: Blanks, st: ValidState, s: LaneStyle) returns (st': ValidState)
    ensures Reads(Stepper(names, blanks), st, [Spaces(0) + E.LaneStyleRecord(s)], st')
    ensures st' == AtLaneStyle(st, LaneStyleRecordReadBack(s, blanks.laneStyle))
  {
    LaneStyleRecordStep(st, s, 0, names, blanks);
    st' := AtLaneStyle(st, LaneStyleRecordReadBack(s, blanks.laneStyle));
    ReadsLine(names, blanks, st, Spaces(0) + E.LaneStyleRecord(s), st');
  }

  /** The storyboard of the current lane style. */
  lemma ReadLaneStyleStoryboard(names: EnumNames, blanks: Blanks, st: ValidState, x: LaneStyle, s1: ValidState,
                                sb: Storyboard, beat: E.BeatText) returns (st': ValidState)
    requires s1 == AtLaneStyle(st, x) && StoryboardReadable(sb, beat, names)
    ensures Reads(Stepper(names, blanks), s1, E.StoryboardLines(sb, 2, beat), st')
    ensures st' == AtLaneStyle(st, x.(storyboard := x.storyboard + TimestampsReadBack(sb)))
  {
    st' := ReadStoryboard(names, blanks, s1, sb, 2, beat);
    ExtendedAppends(s1.chart, s1.currentStoryboard, sb);
    LaneStyleLast(st, x, "", "", x.storyboard + TimestampsReadBack(sb));
  }

  /** Regrouping the seven pieces of a style's block. */
  lemma StyleRegroup<T>(r: seq<T>, a: seq<T>, b: seq<T>, c: seq<T>, d: seq<T>, e: seq<T>, sb: seq<T>)
    ensures r + a + b + c + d + e + sb == r + (a + b + c) + (d + e) + sb
  {
  }

  lemma LaneStyleLinesSplit(s: LaneStyle, beat: E.BeatText)
    ensures CL.LaneStyleLines(s, beat) ==
      [Spaces(0) + E.LaneStyleRecord(s)] + LaneOptions(s) + JudgeOptions(s) + E.StoryboardLines(s.storyboard, 2, beat)
  {
    StyleRegroup([Spaces(0) + E.LaneStyleRecord(s)],
      CL.OptionalLines(s.name != "", Spaces(2), "Name", s.name),
      CL.OptionalLines(E.Overrides(s.laneMaterial, "Default"), Spaces(2), "Lane Material", s.laneMaterial),
      CL.OptionalLines(E.Overrides(s.laneColorTarget, "_Color"), Spaces(2), "Lane Target", s.laneColorTarget),
      CL.OptionalLines(E.Overrides(s.judgeMaterial, "Default"), Spaces(2), "Judge Material", s.judgeMaterial),
      CL.OptionalLines(E.Overrides(s.judgeColorTarget, "_Color"), Spaces(2), "Judge Target", s.judgeColorTarget),
      E.StoryboardLines(s.storyboard, 2, beat));
  }

  lemma LaneStyleReadBackIs(s: LaneStyle, blank: LaneStyle)
    ensures var x := LaneStyleRecordReadBack(s, blank);
      var y := x.(name := FieldReadBack(s.name != "", s.name, x.name),
                  laneMaterial := FieldReadBack(E.Overrides(s.laneMaterial, "Default"), s.laneMaterial, x.laneMaterial),
                  laneColorTarget := FieldReadBack(E.Overrides(s.laneColorTarget, "_Color"), s.laneColorTarget, x.laneColorTarget));
      var z := JudgeFieldsRead(s, y);
      LaneStyleReadBack(s, blank) == z.(storyboard := z.storyboard + TimestampsReadBack(s.storyboard))
  {
  }

  /** A lane style's lines append the style as it reads back, and make it the current object
      and storyboard. */
  lemma ReadLaneStyle(names: EnumNames, blanks: Blanks, st: ValidState, s: LaneStyle, beat: E.BeatText)
    returns (st': ValidState)
    requires LaneStyleReadable(s, beat, names)
    ensures Reads(Stepper(names, blanks), st, CL.LaneStyleLines(s, beat), st')
    ensures st' == AtLaneStyle(st, LaneStyleReadBack(s, blanks.laneStyle))
  {
    var x := LaneStyleRecordReadBack(s, blanks.laneStyle);
    var s1 := ReadLaneStyleRecord(names, blanks, st, s);
    var s2 := ReadLaneOptions(names, blanks, st, x, s1, s);
    var y := x.(name := FieldReadBack(s.name != "", s.name, x.name),
                laneMaterial := FieldReadBack(E.Overrides(s.laneMaterial, "Default"), s.laneMaterial, x.laneMaterial),
                laneColorTarget := FieldReadBack(E.Overrides(s.laneColorTarget, "_Color"), s.laneColorTarget, x.laneColorTarget));
    var s3 := ReadJudgeOptions(names, blanks, st, y, s2, s);
    st' := ReadLaneStyleStoryboard(names, blanks, st, JudgeFieldsRead(s, y), s3, s.storyboard, beat);
    ReadsThree(Stepper(names, blanks), st, [Spaces(0) + E.LaneStyleRecord(s)], s1, LaneOptions(s), s2, JudgeOptions(s), s3);
    ReadsBoth(names, blanks, st, [Spaces(0) + E.LaneStyleRecord(s)] + LaneOptions(s) + JudgeOptions(s), s3,
              E.StoryboardLines(s.storyboard, 2, beat), st');
    LaneStyleLinesSplit(s, beat);
    LaneStyleReadBackIs(s, blanks.laneStyle);
  }
  // ---------------------------------------------------------------- hit styles

  function AtHitStyle(st: State, x: HitStyle): State {
    var c := st.chart;
    var t := HitStyleAt(|c.palette.hitStyles|);
    st.(chart := c.(palette := c.palette.(hitStyles := c.palette.hitStyles + [x])), currentObject := t, currentStoryboard := t)
  }

  lemma HitStyleLast(st: State, x: HitStyle, key: string, v: string, sb: Storyboard)
    ensures var c, t := AtHitStyle(st, x).chart, HitStyleAt(|st.chart.palette.hitStyles|);
      && SetField(c, t, key, v) == Ok(AtHitStyle(st, SetHitStyleField(x, key, v)).chart)
      && StoryboardOf(c, t) == x.storyboard
      && WithStoryboard(c, t, sb) == AtHitStyle(st, x.(storyboard := sb)).chart
  {
    UpdateLast(st.chart.palette.hitStyles, x, SetHitStyleField(x, key, v));
    UpdateLast(st.chart.palette.hitStyles, x, x.(storyboard := sb));
  }

  lemma HitStyleKeys()
    ensures KeyName("Name") && KeyName("Main Material") && KeyName("Main Target")
    ensures KeyName("Hold Tail Material") && KeyName("Hold Tail Target")
  {
  }

  /** The fields of a hit style's optional lines, read over `x`: the name and the main
      material and target, then the hold tail's. */
  function HitStyleFieldsRead(s: HitStyle, x: HitStyle): HitStyle {
    var y := x.(name := FieldReadBack(s.name != "", s.name, x.name),
                mainMaterial := FieldReadBack(E.Overrides(s.mainMaterial, "Default"), s.mainMaterial, x.mainMaterial),
                mainColorTarget := FieldReadBack(E.Overrides(s.mainColorTarget, "_Color"), s.mainColorTarget, x.mainColorTarget));
    HoldTailFieldsRead(s, y)
  }

  function HoldTailFieldsRead(s: HitStyle, y: HitStyle): HitStyle {
    y.(holdTailMaterial := FieldReadBack(E.Overrides(s.holdTailMaterial, "Default"), s.holdTailMaterial, y.holdTailMaterial),
       holdTailColorTarget := FieldReadBack(E.Overrides(s.holdTailColorTarget, "_Color"), s.holdTailColorTarget, y.holdTailColorTarget))
  }

  /** One optional line of the current hit style. */
  lemma ReadHitStyleOption(names: EnumNames, blanks: Blanks, st: ValidState, x: HitStyle, s1: ValidState,
                            present: bool, key: string, value: string) returns (s2: ValidState)
    requires s1 == AtHitStyle(st, x) && KeyName(key)
    ensures Reads(Stepper(names, blanks), s1, CL.OptionalLines(present, Spaces(2), key, value), s2)
    ensures s2 == AtHitStyle(st, if present then SetHitStyleField(x, key, Trim(value)) else x)
  {
    HitStyleLast(st, x, key, Trim(value), []);
    s2 := ReadOptionalLine(names, blanks, s1, present, Spaces(2), key, value,
                           AtHitStyle(st, SetHitStyleField(x, key, Trim(value))).chart);
  }

  /** The lines a hit style writes between its record and its storyboard. */
  function HitStyleOptions(s: HitStyle): seq<string> {
    MainOptions(s) + HoldTailOptions(s)
  }

  function MainOptions(s: HitStyle): seq<string> {
    CL.OptionalLines(s.name != "", Spaces(2), "Name", s.name)
      + CL.OptionalLines(E.Overrides(s.mainMaterial, "Default"), Spaces(2), "Main Material", s.mainMaterial)
      + CL.OptionalLines(E.Overrides(s.mainColorTarget, "_Color"), Spaces(2), "Main Target", s.mainColorTarget)
  }

  function HoldTailOptions(s: HitStyle): seq<string> {
    CL.OptionalLines(E.Overrides(s.holdTailMaterial, "Default"), Spaces(2), "Hold Tail Material", s.holdTailMaterial)
      + CL.OptionalLines(E.Overrides(s.holdTailColorTarget, "_Color"), Spaces(2), "Hold Tail Target", s.holdTailColorTarget)
  }

  lemma ReadMainOptions(names: EnumNames, blanks: Blanks, st: ValidState, x: HitStyle, s1: ValidState, s: HitStyle)
    returns (s': ValidState)
    requires s1 == AtHitStyle(st, x)
    ensures Reads(Stepper(names, blanks), s1, MainOptions(s), s')
    ensures s' == AtHitStyle(st, x.(name := FieldReadBack(s.name != "", s.name, x.name),
                mainMaterial := FieldReadBack(E.Overrides(s.mainMaterial, "Default"), s.mainMaterial, x.mainMaterial),
                mainColorTarget := FieldReadBack(E.Overrides(s.mainColorTarget, "_Color"), s.mainColorTarget, x.mainColorTarget)))
  {
    HitStyleKeys();
    var x1 := if s.name != "" then SetHitStyleField(x, "Name", Trim(s.name)) else x;
    var a := ReadHitStyleOption(names, blanks, st, x, s1, s.name != "", "Name", s.name);
    var p2 := E.Overrides(s.mainMaterial, "Default");
    var x2 := if p2 then SetHitStyleField(x1, "Main Material", Trim(s.mainMaterial)) else x1;
    var b := ReadHitStyleOption(names, blanks, st, x1, a, p2, "Main Material", s.mainMaterial);
    var p3 := E.Overrides(s.mainColorTarget, "_Color");
    s' := ReadHitStyleOption(names, blanks, st, x2, b, p3, "Main Target", s.mainColorTarget);
    ReadsThree(Stepper(names, blanks), s1, CL.OptionalLines(s.name != "", Spaces(2), "Name", s.name), a,
               CL.OptionalLines(p2, Spaces(2), "Main Material", s.mainMaterial), b,
               CL.OptionalLines(p3, Spaces(2), "Main Target", s.mainColorTarget), s');
  }

  lemma ReadHoldTailOptions(names: EnumNames, blanks: Blanks, st: ValidState, x: HitStyle, s1: ValidState, s: HitStyle)
    returns (s': ValidState)
    requires s1 == AtHitStyle(st, x)
    ensures Reads(Stepper(names, blanks), s1, HoldTailOptions(s), s')
    ensures s' == AtHitStyle(st, HoldTailFieldsRead(s, x))
  {
    HitStyleKeys();
    var p4 := E.Overrides(s.holdTailMaterial, "Default");
    var x4 := if p4 then SetHitStyleField(x, "Hold Tail Material", Trim(s.holdTailMaterial)) else x;
    var d := ReadHitStyleOption(names, blanks, st, x, s1, p4, "Hold Tail Material", s.holdTailMaterial);
    var p5 := E.Overrides(s.holdTailColorTarget, "_Color");
    s' := ReadHitStyleOption(names, blanks, st, x4, d, p5, "Hold Tail Target", s.holdTailColorTarget);
    ReadsBoth(names, blanks, s1, CL.OptionalLines(p4, Spaces(2), "Hold Tail Material", s.holdTailMaterial), d,
              CL.OptionalLines(p5, Spaces(2), "Hold Tail Target", s.holdTailColorTarget), s');
  }

  lemma ReadHitStyleRecord(names: EnumNames, blanks: Blanks, st: ValidState, s: HitStyle) returns (st': ValidState)
    ensures Reads(Stepper(names, blanks), st, [Spaces(0) + E.HitStyleRecord(s)], st')
    ensures st' == AtHitStyle(st, HitStyleRecordReadBack(s, blanks.hitStyle))
  {
    HitStyleRecordStep(st, s, 0, names, blanks);
    st' := AtHitStyle(st, HitStyleRecordReadBack(s, blanks.hitStyle));
    ReadsLine(names, blanks, st, Spaces(0) + E.HitStyleRecord(s), st');
  }

  /** The storyboard of the current hit style. */
  lemma ReadHitStyleStoryboard(names: EnumNames, blanks: Blanks, st: ValidState, x: HitStyle, s1: ValidState,
                                sb: Storyboard, beat: E.BeatText) returns (st': ValidState)
    requires s1 == AtHitStyle(st, x) && StoryboardReadable(sb, beat, names)
    ensures Reads(Stepper(names, blanks), s1, E.StoryboardLines(sb, 2, beat), st')
    ensures st' == AtHitStyle(st, x.(storyboard := x.storyboard + TimestampsReadBack(sb)))
  {
    st' := ReadStoryboard(names, blanks, s1, sb, 2, beat);
    ExtendedAppends(s1.chart, s1.currentStoryboard, sb);
    HitStyleLast(st, x, "", "", x.storyboard + TimestampsReadBack(sb));
  }

  lemma HitStyleLinesSplit(s: HitStyle, beat: E.BeatText)
    ensures CL.HitStyleLines(s, beat) ==
      [Spaces(0) + E.HitStyleRecord(s)] + MainOptions(s) + HoldTailOptions(s) + E.StoryboardLines(s.storyboard, 2, beat)
  {
    StyleRegroup([Spaces(0) + E.HitStyleRecord(s)],
      CL.OptionalLines(s.name != "", Spaces(2), "Name", s.name),
      CL.OptionalLines(E.Overrides(s.mainMaterial, "Default"), Spaces(2), "Main Material", s.mainMaterial),
      CL.OptionalLines(E.Overrides(s.mainColorTarget, "_Color"), Spaces(2), "Main Target", s.mainColorTarget),
      CL.OptionalLines(E.Overrides(s.holdTailMaterial, "Default"), Spaces(2), "Hold Tail Material", s.holdTailMaterial),
      CL.OptionalLines(E.Overrides(s.holdTailColorTarget, "_Color"), Spaces(2), "Hold Tail Target", s.holdTailColorTarget),
      E.StoryboardLines(s.storyboard, 2, beat));
  }

  lemma HitStyleReadBackIs(s: HitStyle, blank: HitStyle)
    ensures var x := HitStyleRecordReadBack(s, blank);
      var y := x.(name := FieldReadBack(s.name != "", s.name, x.name),
                  mainMaterial := FieldReadBack(E.Overrides(s.mainMaterial, "Default"), s.mainMaterial, x.mainMaterial),
                  mainColorTarget := FieldReadBack(E.Overrides(s.mainColorTarget, "_Color"), s.mainColorTarget, x.mainColorTarget));
      var z := HoldTailFieldsRead(s, y);
      HitStyleReadBack(s, blank) == z.(storyboard := z.storyboard + TimestampsReadBack(s.storyboard))
  {
  }

  /** A hit style's lines append the style as it reads back, and make it the current object
      and storyboard. */
  lemma ReadHitStyle(names: EnumNames, blanks: Blanks, st: ValidState, s: HitStyle, beat: E.BeatText)
    returns (st': ValidState)
    requires HitStyleReadable(s, beat, names)
    ensures Reads(Stepper(names, blanks), st, CL.HitStyleLines(s, beat), st')
    ensures st' == AtHitStyle(st, HitStyleReadBack(s, blanks.hitStyle))
  {
    var x := HitStyleRecordReadBack(s, blanks.hitStyle);
    var s1 := ReadHitStyleRecord(names, blanks, st, s);
    var s2 := ReadMainOptions(names, blanks, st, x, s1, s);
    var y := x.(name := FieldReadBack(s.name != "", s.name, x.name),
                mainMaterial := FieldReadBack(E.Overrides(s.mainMaterial, "Default"), s.mainMaterial, x.mainMaterial),
                mainColorTarget := FieldReadBack(E.Overrides(s.mainColorTarget, "_Color"), s.mainColorTarget, x.mainColorTarget));
    var s3 := ReadHoldTailOptions(names, blanks, st, y, s2, s);
    st' := ReadHitStyleStoryboard(names, blanks, st, HoldTailFieldsRead(s, y), s3, s.storyboard, beat);
    ReadsThree(Stepper(names, blanks), st, [Spaces(0) + E.HitStyleRecord(s)], s1, MainOptions(s), s2, HoldTailOptions(s), s3);
    ReadsBoth(names, blanks, st, [Spaces(0) + E.HitStyleRecord(s)] + MainOptions(s) + HoldTailOptions(s), s3,
              E.StoryboardLines(s.storyboard, 2, beat), st');
    HitStyleLinesSplit(s, beat);
    HitStyleReadBackIs(s, blanks.hitStyle);
  }

  // ---------------------------------------------------------------- style lists

  lemma LaneStylesFront(ss: seq<LaneStyle>, beat: E.BeatText, names: EnumNames)
    requires ss != [] && forall i :: 0 <= i < |ss| ==> LaneStyleReadable(ss[i], beat, names)
    ensures var n := |ss| - 1;
      && (forall i :: 0 <= i < n ==> LaneStyleReadable(ss[..n][i], beat, names))
      && LaneStyleReadable(ss[n], beat, names)
  {
  }

  lemma LaneStyleLinesSnoc(ss: seq<LaneStyle>, beat: E.BeatText)
    requires ss != []
    ensures var n := |ss| - 1;
      Flatten(CL.LaneStyleLists(ss, beat)) == Flatten(CL.LaneStyleLists(ss[..n], beat)) + CL.LaneStyleLines(ss[n], beat)
  {
    var n := |ss| - 1;
    assert CL.LaneStyleLists(ss, beat)[..n] == CL.LaneStyleLists(ss[..n], beat);
    FlattenSnoc(CL.LaneStyleLists(ss, beat), CL.LaneStyleLists(ss[..n], beat));
  }

  lemma LaneStylesReadBackSnoc(ss: seq<LaneStyle>, blank: LaneStyle, before: seq<LaneStyle>)
    requires ss != []
    ensures var n := |ss| - 1;
      before + LaneStylesReadBack(ss, blank) == before + LaneStylesReadBack(ss[..n], blank) + [LaneStyleReadBack(ss[n], blank)]
  {
    var n := |ss| - 1;
    Snoc(before, LaneStylesReadBack(ss, blank), LaneStylesReadBack(ss[..n], blank), LaneStyleReadBack(ss[n], blank));
  }

  /** The lane styles' blocks append the styles as they read back, and leave the mode and the
      current lane as they were. */
  lemma {:induction false} ReadLaneStyles(names: EnumNames, blanks: Blanks, st: ValidState, ss: seq<LaneStyle>,
                                      beat: E.BeatText) returns (st': ValidState)
    requires forall i :: 0 <= i < |ss| ==> LaneStyleReadable(ss[i], beat, names)
    ensures Reads(Stepper(names, blanks), st, Flatten(CL.LaneStyleLists(ss, beat)), st')
    ensures st'.chart == st.chart.(palette := st.chart.palette.(laneStyles := st.chart.palette.laneStyles + LaneStylesReadBack(ss, blanks.laneStyle)))
    ensures st'.mode == st.mode && st'.currentLane == st.currentLane
    decreases |ss|
  {
    if ss == [] {
      ReadsNothing(names, blanks, st);
      assert st.chart.palette.laneStyles + LaneStylesReadBack(ss, blanks.laneStyle) == st.chart.palette.laneStyles;
      st' := st;
    } else {
      var n := |ss| - 1;
      LaneStylesFront(ss, beat, names);
      LaneStyleLinesSnoc(ss, beat);
      LaneStylesReadBackSnoc(ss, blanks.laneStyle, st.chart.palette.laneStyles);
      var mid := ReadLaneStyles(names, blanks, st, ss[..n], beat);
      st' := ReadLaneStyle(names, blanks, mid, ss[n], beat);
      ReadsBoth(names, blanks, st, Flatten(CL.LaneStyleLists(ss[..n], beat)), mid, CL.LaneStyleLines(ss[n], beat), st');
    }
  }

  lemma HitStylesFront(ss: seq<HitStyle>, beat: E.BeatText, names: EnumNames)
    requires ss != [] && forall i :: 0 <= i < |ss| ==> HitStyleReadable(ss[i], beat, names)
    ensures var n := |ss| - 1;
      && (forall i :: 0 <= i < n ==> HitStyleReadable(ss[..n][i], beat, names))
      && HitStyleReadable(ss[n], beat, names)
  {
  }

  lemma HitStyleLinesSnoc(ss: seq<HitStyle>, beat: E.BeatText)
    requires ss != []
    ensures var n := |ss| - 1;
      Flatten(CL.HitStyleLists(ss, beat)) == Flatten(CL.HitStyleLists(ss[..n], beat)) + CL.HitStyleLines(ss[n], beat)
  {
    var n := |ss| - 1;
    assert CL.HitStyleLists(ss, beat)[..n] == CL.HitStyleLists(ss[..n], beat);
    FlattenSnoc(CL.HitStyleLists(ss, beat), CL.HitStyleLists(ss[..n], beat));
  }

  lemma HitStylesReadBackSnoc(ss: seq<HitStyle>, blank: HitStyle, before: seq<HitStyle>)
    requires ss != []
    ensures var n := |ss| - 1;
      before + HitStylesReadBack(ss, blank) == before + HitStylesReadBack(ss[..n], blank) + [HitStyleReadBack(ss[n], blank)]
  {
    var n := |ss| - 1;
    Snoc(before, HitStylesReadBack(ss, blank), HitStylesReadBack(ss[..n], blank), HitStyleReadBack(ss[n], blank));
  }

  /** The hit styles' blocks append the styles as they read back, and leave the mode and the
      current lane as they were. */
  lemma {:induction false} ReadHitStyles(names: EnumNames, blanks: Blanks, st: ValidState, ss: seq<HitStyle>,
                                      beat: E.BeatText) returns (st': ValidState)
    requires forall i :: 0 <= i < |ss| ==> HitStyleReadable(ss[i], beat, names)
    ensures Reads(Stepper(names, blanks), st, Flatten(CL.HitStyleLists(ss, beat)), st')
    ensures st'.chart == st.chart.(palette := st.chart.palette.(hitStyles := st.chart.palette.hitStyles + HitStylesReadBack(ss, blanks.hitStyle)))
    ensures st'.mode == st.mode && st'.currentLane == st.currentLane
    decreases |ss|
  {
    if ss == [] {
      ReadsNothing(names, blanks, st);
      assert st.chart.palette.hitStyles + HitStylesReadBack(ss, blanks.hitStyle) == st.chart.palette.hitStyles;
      st' := st;
    } else {
      var n := |ss| - 1;
      HitStylesFront(ss, beat, names);
      HitStyleLinesSnoc(ss, beat);
      HitStylesReadBackSnoc(ss, blanks.hitStyle, st.chart.palette.hitStyles);
      var mid := ReadHitStyles(names, blanks, st, ss[..n], beat);
      st' := ReadHitStyle(names, blanks, mid, ss[n], beat);
      ReadsBoth(names, blanks, st, Flatten(CL.HitStyleLists(ss[..n], beat)), mid, CL.HitStyleLines(ss[n], beat), st');
    }
  }


  // ---------------------------------------------------------------- lanes

  /** The state while a lane's lines are read: `x` appended to the lanes as the current lane,
      and `cur` the current object and storyboard. */
  function InLane(st: State, x: Lane, cur: Target): State {
    var c := st.chart;
    st.(chart := c.(lanes := c.lanes + [x]), currentObject := cur, currentStoryboard := cur, currentLane := Some(|c.lanes|))
  }

  lemma LaneLast(st: State, x: Lane, cur: Target, key: string, v: string, sb: Storyboard)
    ensures var c, t := InLane(st, x, cur).chart, LaneAt(|st.chart.lanes|);
      && SetField(c, t, key, v) == Ok(InLane(st, SetLaneField(x, key, v), cur).chart)
      && StoryboardOf(c, t) == x.storyboard
      && WithStoryboard(c, t, sb) == InLane(st, x.(storyboard := sb), cur).chart
  {
    UpdateLast(st.chart.lanes, x, SetLaneField(x, key, v));
    UpdateLast(st.chart.lanes, x, x.(storyboard := sb));
  }

  lemma StepLast(st: State, x: Lane, cur: Target, r: LaneStep, sb: Storyboard)
    ensures var l := |st.chart.lanes|;
      AppendLaneStep(InLane(st, x, cur).chart, l, r) == InLane(st, x.(laneSteps := x.laneSteps + [r]), cur).chart
    ensures var c, t := InLane(st, x.(laneSteps := x.laneSteps + [r]), cur).chart, LaneStepAt(|st.chart.lanes|, |x.laneSteps|);
      && StoryboardOf(c, t) == r.storyboard
      && WithStoryboard(c, t, sb) == InLane(st, x.(laneSteps := x.laneSteps + [r.(storyboard := sb)]), cur).chart
  {
    UpdateLast(st.chart.lanes, x, x.(laneSteps := x.laneSteps + [r]));
    UpdateLast(x.laneSteps, r, r.(storyboard := sb));
    var y := x.(laneSteps := x.laneSteps + [r]);
    UpdateLast(st.chart.lanes, y, y.(laneSteps := x.laneSteps + [r.(storyboard := sb)]));
  }

  lemma HitLast(st: State, x: Lane, cur: Target, r: HitObject, sb: Storyboard)
    ensures var l := |st.chart.lanes|;
      AppendHitObject(InLane(st, x, cur).chart, l, r) == InLane(st, x.(objects := x.objects + [r]), cur).chart
    ensures var c, t := InLane(st, x.(objects := x.objects + [r]), cur).chart, HitObjectAt(|st.chart.lanes|, |x.objects|);
      && StoryboardOf(c, t) == r.storyboard
      && WithStoryboard(c, t, sb) == InLane(st, x.(objects := x.objects + [r.(storyboard := sb)]), cur).chart
  {
    UpdateLast(st.chart.lanes, x, x.(objects := x.objects + [r]));
    UpdateLast(x.objects, r, r.(storyboard := sb));
    var y := x.(objects := x.objects + [r]);
    UpdateLast(st.chart.lanes, y, y.(objects := x.objects + [r.(storyboard := sb)]));
  }

  lemma ReadLaneStepRecord(names: EnumNames, blanks: Blanks, st: ValidState, x: Lane, cur: Target, s0: ValidState,
                           step: LaneStep, beat: E.BeatText) returns (s1: ValidState)
    requires s0 == InLane(st, x, cur) && BeatReadsBack(beat, step.offset) && StepEasesConstructible(step)
    ensures Reads(Stepper(names, blanks), s0, [Spaces(2) + E.LaneStepRecord(step, beat)], s1)
    ensures s1 == InLane(st, x.(laneSteps := x.laneSteps + [LaneStepRecordReadBack(step, blanks.laneStep)]),
                         LaneStepAt(|st.chart.lanes|, |x.laneSteps|))
  {
    var r := LaneStepRecordReadBack(step, blanks.laneStep);
    LaneStepRecordStep(s0, step, 2, beat, names, blanks);
    StepLast(st, x, cur, r, []);
    s1 := InLane(st, x.(laneSteps := x.laneSteps + [r]), LaneStepAt(|st.chart.lanes|, |x.laneSteps|));
    ReadsLine(names, blanks, s0, Spaces(2) + E.LaneStepRecord(step, beat), s1);
  }

  /** A lane step's lines append the step as it reads back to the current lane, and make it
      the current object and storyboard. */
  lemma ReadLaneStep(names: EnumNames, blanks: Blanks, st: ValidState, x: Lane, cur: Target, s0: ValidState,
                     step: LaneStep, beat: E.BeatText) returns (s': ValidState)
    requires s0 == InLane(st, x, cur) && LaneStepReadable(step, beat, names)
    ensures Reads(Stepper(names, blanks), s0, CL.LaneStepLines(step, beat), s')
    ensures s' == InLane(st, x.(laneSteps := x.laneSteps + [LaneStepReadBack(step, blanks.laneStep)]),
                         LaneStepAt(|st.chart.lanes|, |x.laneSteps|))
  {
    var r := LaneStepRecordReadBack(step, blanks.laneStep);
    var s1 := ReadLaneStepRecord(names, blanks, st, x, cur, s0, step, beat);
    s' := ReadStoryboard(names, blanks, s1, step.storyboard, 4, beat);
    ExtendedAppends(s1.chart, s1.currentStoryboard, step.storyboard);
    StepLast(st, x, cur, r, r.storyboard + TimestampsReadBack(step.storyboard));
    ReadsBoth(names, blanks, s0, [Spaces(2) + E.LaneStepRecord(step, beat)], s1, E.StoryboardLines(step.storyboard, 4, beat), s');
  }

  lemma ReadHitRecord(names: EnumNames, blanks: Blanks, st: ValidState, x: Lane, cur: Target, s0: ValidState,
                      hit: HitObject, beat: E.BeatText) returns (s1: ValidState)
    requires s0 == InLane(st, x, cur)
    requires hit.hitType in names.hitTypes && ' ' !in hit.hitType && BeatReadsBack(beat, hit.offset)
    ensures Reads(Stepper(names, blanks), s0, [Spaces(2) + E.HitRecord(hit, beat)], s1)
    ensures s1 == InLane(st, x.(objects := x.objects + [HitRecordReadBack(hit, blanks.hitObject)]),
                         HitObjectAt(|st.chart.lanes|, |x.objects|))
  {
    var r := HitRecordReadBack(hit, blanks.hitObject);
    HitRecordStep(s0, hit, 2, beat, names, blanks);
    HitLast(st, x, cur, r, []);
    s1 := InLane(st, x.(objects := x.objects + [r]), HitObjectAt(|st.chart.lanes|, |x.objects|));
    ReadsLine(names, blanks, s0, Spaces(2) + E.HitRecord(hit, beat), s1);
  }

  /** A hit's lines append the hit as it reads back to the current lane, and make it the
      current object and storyboard. */
  lemma ReadHit(names: EnumNames, blanks: Blanks, st: ValidState, x: Lane, cur: Target, s0: ValidState,
                hit: HitObject, beat: E.BeatText) returns (s': ValidState)
    requires s0 == InLane(st, x, cur) && HitReadable(hit, beat, names)
    ensures Reads(Stepper(names, blanks), s0, CL.HitLines(hit, beat), s')
    ensures s' == InLane(st, x.(objects := x.objects + [HitReadBack(hit, blanks.hitObject)]),
                         HitObjectAt(|st.chart.lanes|, |x.objects|))
  {
    var r := HitRecordReadBack(hit, blanks.hitObject);
    var s1 := ReadHitRecord(names, blanks, st, x, cur, s0, hit, beat);
    s' := ReadStoryboard(names, blanks, s1, hit.storyboard, 4, beat);
    ExtendedAppends(s1.chart, s1.currentStoryboard, hit.storyboard);
    HitLast(st, x, cur, r, r.storyboard + TimestampsReadBack(hit.storyboard));
    ReadsBoth(names, blanks, s0, [Spaces(2) + E.HitRecord(hit, beat)], s1, E.StoryboardLines(hit.storyboard, 4, beat), s');
  }

  lemma StepsFront(steps: seq<LaneStep>, beat: E.BeatText, names: EnumNames)
    requires steps != [] && forall i :: 0 <= i < |steps| ==> LaneStepReadable(steps[i], beat, names)
    ensures var n := |steps| - 1;
      && (forall i :: 0 <= i < n ==> LaneStepReadable(steps[..n][i], beat, names))
      && LaneStepReadable(steps[n], beat, names)
  {
  }

  lemma LaneStepLinesSnoc(steps: seq<LaneStep>, beat: E.BeatText)
    requires steps != []
    ensures var n := |steps| - 1;
      Flatten(CL.LaneStepLists(steps, beat)) == Flatten(CL.LaneStepLists(steps[..n], beat)) + CL.LaneStepLines(steps[n], beat)
  {
    var n := |steps| - 1;
    assert CL.LaneStepLists(steps, beat)[..n] == CL.LaneStepLists(steps[..n], beat);
    FlattenSnoc(CL.LaneStepLists(steps, beat), CL.LaneStepLists(steps[..n], beat));
  }

  lemma StepsReadBackSnoc(steps: seq<LaneStep>, blank: LaneStep, before: seq<LaneStep>)
    requires steps != []
    ensures var n := |steps| - 1;
      before + StepsReadBack(steps, blank) == before + StepsReadBack(steps[..n], blank) + [LaneStepReadBack(steps[n], blank)]
  {
    var n := |steps| - 1;
    Snoc(before, StepsReadBack(steps, blank), StepsReadBack(steps[..n], blank), LaneStepReadBack(steps[n], blank));
  }

  /** A lane's steps append the steps as they read back to the current lane. */
  lemma {:induction false} ReadLaneSteps(names: EnumNames, blanks: Blanks, st: ValidState, x: Lane, cur: Target,
                                         s0: ValidState, steps: seq<LaneStep>, beat: E.BeatText)
    returns (s': ValidState, cur': Target)
    requires s0 == InLane(st, x, cur)
    requires forall i :: 0 <= i < |steps| ==> LaneStepReadable(steps[i], beat, names)
    ensures Reads(Stepper(names, blanks), s0, Flatten(CL.LaneStepLists(steps, beat)), s')
    ensures s' == InLane(st, x.(laneSteps := x.laneSteps + StepsReadBack(steps, blanks.laneStep)), cur')
    decreases |steps|
  {
    if steps == [] {
      ReadsNothing(names, blanks, s0);
      assert x.(laneSteps := x.laneSteps + StepsReadBack(steps, blanks.laneStep)) == x;
      s', cur' := s0, cur;
    } else {
      var n := |steps| - 1;
      StepsFront(steps, beat, names);
      StepsReadBackSnoc(steps, blanks.laneStep, x.laneSteps);
      LaneStepLinesSnoc(steps, beat);
      var mid, c1 := ReadLaneSteps(names, blanks, st, x, cur, s0, steps[..n], beat);
      var x1 := x.(laneSteps := x.laneSteps + StepsReadBack(steps[..n], blanks.laneStep));
      s' := ReadLaneStep(names, blanks, st, x1, c1, mid, steps[n], beat);
      cur' := LaneStepAt(|st.chart.lanes|, |x1.laneSteps|);
      ReadsBoth(names, blanks, s0, Flatten(CL.LaneStepLists(steps[..n], beat)), mid, CL.LaneStepLines(steps[n], beat), s');
    }
  }

  lemma HitsFront(hits: seq<HitObject>, beat: E.BeatText, names: EnumNames)
    requires hits != [] && forall i :: 0 <= i < |hits| ==> HitReadable(hits[i], beat, names)
    ensures var n := |hits| - 1;
      && (forall i :: 0 <= i < n ==> HitReadable(hits[..n][i], beat, names))
      && HitReadable(hits[n], beat, names)
  {
  }

  lemma HitLinesSnoc(hits: seq<HitObject>, beat: E.BeatText)
    requires hits != []
    ensures var n := |hits| - 1;
      Flatten(CL.HitLists(hits, beat)) == Flatten(CL.HitLists(hits[..n], beat)) + CL.HitLines(hits[n], beat)
  {
    var n := |hits| - 1;
    assert CL.HitLists(hits, beat)[..n] == CL.HitLists(hits[..n], beat);
    FlattenSnoc(CL.HitLists(hits, beat), CL.HitLists(hits[..n], beat));
  }

  lemma HitsReadBackSnoc(hits: seq<HitObject>, blank: HitObject, before: seq<HitObject>)
    requires hits != []
    ensures var n := |hits| - 1;
      before + HitsReadBack(hits, blank) == before + HitsReadBack(hits[..n], blank) + [HitReadBack(hits[n], blank)]
  {
    var n := |hits| - 1;
    Snoc(before, HitsReadBack(hits, blank), HitsReadBack(hits[..n], blank), HitReadBack(hits[n], blank));
  }

  /** A lane's hits append the hits as they read back to the current lane. */
  lemma {:induction false} ReadHits(names: EnumNames, blanks: Blanks, st: ValidState, x: Lane, cur: Target,
                                    s0: ValidState, hits: seq<HitObject>, beat: E.BeatText)
    returns (s': ValidState, cur': Target)
    requires s0 == InLane(st, x, cur)
    requires forall i :: 0 <= i < |hits| ==> HitReadable(hits[i], beat, names)
    ensures Reads(Stepper(names, blanks), s0, Flatten(CL.HitLists(hits, beat)), s')
    ensures s' == InLane(st, x.(objects := x.objects + HitsReadBack(hits, blanks.hitObject)), cur')
    decreases |hits|
  {
    if hits == [] {
      ReadsNothing(names, blanks, s0);
      assert x.(objects := x.objects + HitsReadBack(hits, blanks.hitObject)) == x;
      s', cur' := s0, cur;
    } else {
      var n := |hits| - 1;
      HitsFront(hits, beat, names);
      HitsReadBackSnoc(hits, blanks.hitObject, x.objects);
      HitLinesSnoc(hits, beat);
      var mid, c1 := ReadHits(names, blanks, st, x, cur, s0, hits[..n], beat);
      var x1 := x.(objects := x.objects + HitsReadBack(hits[..n], blanks.hitObject));
      s' := ReadHit(names, blanks, st, x1, c1, mid, hits[n], beat);
      cur' := HitObjectAt(|st.chart.lanes|, |x1.objects|);
      ReadsBoth(names, blanks, s0, Flatten(CL.HitLists(hits[..n], beat)), mid, CL.HitLines(hits[n], beat), s');
    }
  }

  lemma ReadLaneRecord(names: EnumNames, blanks: Blanks, st: ValidState, lane: Lane) returns (st': ValidState)
    ensures Reads(Stepper(names, blanks), st, [Spaces(0) + E.LaneRecord(lane)], st')
    ensures st' == InLane(st, LaneRecordReadBack(lane, blanks.lane), LaneAt(|st.chart.lanes|))
  {
    LaneRecordStep(st, lane, 0, names, blanks);
    st' := InLane(st, LaneRecordReadBack(lane, blanks.lane), LaneAt(|st.chart.lanes|));
    ReadsLine(names, blanks, st, Spaces(0) + E.LaneRecord(lane), st');
  }

  /** One optional line of the current lane. */
  lemma ReadLaneOption(names: EnumNames, blanks: Blanks, st: ValidState, x: Lane, s1: ValidState,
                       present: bool, key: string, value: string) returns (s2: ValidState)
    requires s1 == InLane(st, x, LaneAt(|st.chart.lanes|)) && KeyName(key)
    ensures Reads(Stepper(names, blanks), s1, CL.OptionalLines(present, Spaces(2), key, value), s2)
    ensures s2 == InLane(st, if present then SetLaneField(x, key, Trim(value)) else x, LaneAt(|st.chart.lanes|))
  {
    LaneLast(st, x, LaneAt(|st.chart.lanes|), key, Trim(value), []);
    s2 := ReadOptionalLine(names, blanks, s1, present, Spaces(2), key, value,
                               InLane(st, SetLaneField(x, key, Trim(value)), LaneAt(|st.chart.lanes|)).chart);
  }

  /** A lane's record line and its optional `Name` and `Group` lines. */
  lemma ReadLaneHead(names: EnumNames, blanks: Blanks, st: ValidState, lane: Lane) returns (st': ValidState)
    ensures Reads(Stepper(names, blanks), st,
                  [Spaces(0) + E.LaneRecord(lane)] + CL.OptionalLines(lane.name != "", Spaces(2), "Name", lane.name)
                    + CL.OptionalLines(lane.group != "", Spaces(2), "Group", lane.group), st')
    ensures var x := LaneRecordReadBack(lane, blanks.lane);
      st' == InLane(st, x.(name := FieldReadBack(lane.name != "", lane.name, x.name),
                           group := FieldReadBack(lane.group != "", lane.group, x.group)), LaneAt(|st.chart.lanes|))
  {
    GroupKeys();
    var x := LaneRecordReadBack(lane, blanks.lane);
    var s1 := ReadLaneRecord(names, blanks, st, lane);
    var s2 := ReadLaneOption(names, blanks, st, x, s1, lane.name != "", "Name", lane.name);
    var x1 := if lane.name != "" then SetLaneField(x, "Name", Trim(lane.name)) else x;
    st' := ReadLaneOption(names, blanks, st, x1, s2, lane.group != "", "Group", lane.group);
    ReadsThree(Stepper(names, blanks), st, [Spaces(0) + E.LaneRecord(lane)], s1,
               CL.OptionalLines(lane.name != "", Spaces(2), "Name", lane.name), s2,
               CL.OptionalLines(lane.group != "", Spaces(2), "Group", lane.group), st');
  }

  /** The storyboard of the current lane. */
  lemma ReadLaneStoryboard(names: EnumNames, blanks: Blanks, st: ValidState, x: Lane, s1: ValidState,
                           sb: Storyboard, beat: E.BeatText) returns (st': ValidState)
    requires s1 == InLane(st, x, LaneAt(|st.chart.lanes|)) && StoryboardReadable(sb, beat, names)
    ensures Reads(Stepper(names, blanks), s1, E.StoryboardLines(sb, 2, beat), st')
    ensures st' == InLane(st, x.(storyboard := x.storyboard + TimestampsReadBack(sb)), LaneAt(|st.chart.lanes|))
  {
    st' := ReadStoryboard(names, blanks, s1, sb, 2, beat);
    ExtendedAppends(s1.chart, s1.currentStoryboard, sb);
    LaneLast(st, x, LaneAt(|st.chart.lanes|), "", "", x.storyboard + TimestampsReadBack(sb));
  }

  /** A lane's storyboard, steps and hits, once its record is current. */
  lemma ReadLaneBody(names: EnumNames, blanks: Blanks, st: ValidState, x: Lane, s1: ValidState, lane: Lane,
                     beat: E.BeatText) returns (st': ValidState, cur: Target)
    requires s1 == InLane(st, x, LaneAt(|st.chart.lanes|)) && LaneReadable(lane, beat, names)
    ensures Reads(Stepper(names, blanks), s1,
                  E.StoryboardLines(lane.storyboard, 2, beat) + Flatten(CL.LaneStepLists(lane.laneSteps, beat))
                    + Flatten(CL.HitLists(lane.objects, beat)), st')
    ensures st' == InLane(st, x.(storyboard := x.storyboard + TimestampsReadBack(lane.storyboard),
                                 laneSteps := x.laneSteps + StepsReadBack(lane.laneSteps, blanks.laneStep),
                                 objects := x.objects + HitsReadBack(lane.objects, blanks.hitObject)), cur)
  {
    var s2 := ReadLaneStoryboard(names, blanks, st, x, s1, lane.storyboard, beat);
    var x2 := x.(storyboard := x.storyboard + TimestampsReadBack(lane.storyboard));
    var s3, c3 := ReadLaneSteps(names, blanks, st, x2, LaneAt(|st.chart.lanes|), s2, lane.laneSteps, beat);
    var x3 := x2.(laneSteps := x2.laneSteps + StepsReadBack(lane.laneSteps, blanks.laneStep));
    st', cur := ReadHits(names, blanks, st, x3, c3, s3, lane.objects, beat);
    ReadsThree(Stepper(names, blanks), s1, E.StoryboardLines(lane.storyboard, 2, beat), s2,
               Flatten(CL.LaneStepLists(lane.laneSteps, beat)), s3, Flatten(CL.HitLists(lane.objects, beat)), st');
  }

  /** Regrouping the six pieces of a lane's block. */
  lemma LaneRegroup<T>(r: seq<T>, a: seq<T>, b: seq<T>, sb: seq<T>, c: seq<T>, d: seq<T>)
    ensures r + a + b + sb + c + d == (r + a + b) + (sb + c + d)
  {
  }

  /** A lane's lines append the lane as it reads back, with its steps and hits, and leave the
      mode as it was. */
  lemma ReadLane(names: EnumNames, blanks: Blanks, st: ValidState, lane: Lane, beat: E.BeatText)
    returns (st': ValidState)
    requires LaneReadable(lane, beat, names)
    ensures Reads(Stepper(names, blanks), st, CL.LaneLines(lane, beat), st')
    ensures st'.chart == st.chart.(lanes := st.chart.lanes + [LaneReadBack(lane, blanks)]) && st'.mode == st.mode
  {
    var x := LaneRecordReadBack(lane, blanks.lane);
    var s1 := ReadLaneHead(names, blanks, st, lane);
    var y := x.(name := FieldReadBack(lane.name != "", lane.name, x.name),
                group := FieldReadBack(lane.group != "", lane.group, x.group));
    var cur;
    st', cur := ReadLaneBody(names, blanks, st, y, s1, lane, beat);
    var head := [Spaces(0) + E.LaneRecord(lane)] + CL.OptionalLines(lane.name != "", Spaces(2), "Name", lane.name)
                  + CL.OptionalLines(lane.group != "", Spaces(2), "Group", lane.group);
    var body := E.StoryboardLines(lane.storyboard, 2, beat) + Flatten(CL.LaneStepLists(lane.laneSteps, beat))
                  + Flatten(CL.HitLists(lane.objects, beat));
    ReadsBoth(names, blanks, st, head, s1, body, st');
    LaneRegroup([Spaces(0) + E.LaneRecord(lane)], CL.OptionalLines(lane.name != "", Spaces(2), "Name", lane.name),
                CL.OptionalLines(lane.group != "", Spaces(2), "Group", lane.group), E.StoryboardLines(lane.storyboard, 2, beat),
                Flatten(CL.LaneStepLists(lane.laneSteps, beat)), Flatten(CL.HitLists(lane.objects, beat)));
  }

  lemma LanesFront(lanes: seq<Lane>, beat: E.BeatText, names: EnumNames)
    requires lanes != [] && forall i :: 0 <= i < |lanes| ==> LaneReadable(lanes[i], beat, names)
    ensures var n := |lanes| - 1;
      && (forall i :: 0 <= i < n ==> LaneReadable(lanes[..n][i], beat, names))
      && LaneReadable(lanes[n], beat, names)
  {
  }

  lemma LaneLinesSnoc(lanes: seq<Lane>, beat: E.BeatText)
    requires lanes != []
    ensures var n := |lanes| - 1;
      Flatten(CL.LaneLists(lanes, beat)) == Flatten(CL.LaneLists(lanes[..n], beat)) + CL.LaneLines(lanes[n], beat)
  {
    var n := |lanes| - 1;
    assert CL.LaneLists(lanes, beat)[..n] == CL.LaneLists(lanes[..n], beat);
    FlattenSnoc(CL.LaneLists(lanes, beat), CL.LaneLists(lanes[..n], beat));
  }

  lemma LanesReadBackSnoc(lanes: seq<Lane>, blanks: Blanks, before: seq<Lane>)
    requires lanes != []
    ensures var n := |lanes| - 1;
      before + LanesReadBack(lanes, blanks) == before + LanesReadBack(lanes[..n], blanks) + [LaneReadBack(lanes[n], blanks)]
  {
    var n := |lanes| - 1;
    Snoc(before, LanesReadBack(lanes, blanks), LanesReadBack(lanes[..n], blanks), LaneReadBack(lanes[n], blanks));
  }

  /** The lanes' blocks append the lanes as they read back, and leave the mode as it was. */
  lemma {:induction false} ReadLanes(names: EnumNames, blanks: Blanks, st: ValidState, lanes: seq<Lane>,
                                      beat: E.BeatText) returns (st': ValidState)
    requires forall i :: 0 <= i < |lanes| ==> LaneReadable(lanes[i], beat, names)
    ensures Reads(Stepper(names, blanks), st, Flatten(CL.LaneLists(lanes, beat)), st')
    ensures st'.chart == st.chart.(lanes := st.chart.lanes + LanesReadBack(lanes, blanks))
    ensures st'.mode == st.mode
    decreases |lanes|
  {
    if lanes == [] {
      ReadsNothing(names, blanks, st);
      assert st.chart.lanes + LanesReadBack(lanes, blanks) == st.chart.lanes;
      st' := st;
    } else {
      var n := |lanes| - 1;
      LanesFront(lanes, beat, names);
      LaneLinesSnoc(lanes, beat);
      LanesReadBackSnoc(lanes, blanks, st.chart.lanes);
      var mid := ReadLanes(names, blanks, st, lanes[..n], beat);
      st' := ReadLane(names, blanks, mid, lanes[n], beat);
      ReadsBoth(names, blanks, st, Flatten(CL.LaneLists(lanes[..n], beat)), mid, CL.LaneLines(lanes[n], beat), st');
    }
  }

  // ---------------------------------------------------------------- what is read back is written

  lemma StoryboardIsWritable(sb: Storyboard, beat: E.BeatText, names: EnumNames)
    requires StoryboardReadable(sb, beat, names)
    ensures CL.StoryboardWritable(sb, beat)
  {
    forall i | 0 <= i < |sb| ensures CL.TimestampWritable(sb[i], beat) {
      assert TimestampReadable(sb[i], beat, names);
    }
  }

  lemma LaneIsWritable(lane: Lane, beat: E.BeatText, names: EnumNames)
    requires LaneReadable(lane, beat, names)
    ensures CL.LaneWritable(lane, beat)
  {
    StoryboardIsWritable(lane.storyboard, beat, names);
    forall i | 0 <= i < |lane.laneSteps| ensures CL.LaneStepWritable(lane.laneSteps[i], beat) {
      assert LaneStepReadable(lane.laneSteps[i], beat, names);
      StoryboardIsWritable(lane.laneSteps[i].storyboard, beat, names);
    }
    forall i | 0 <= i < |lane.objects| ensures CL.HitWritable(lane.objects[i], beat) {
      assert HitReadable(lane.objects[i], beat, names);
      StoryboardIsWritable(lane.objects[i].storyboard, beat, names);
    }
  }

  /** A chart that reads back has a text of one line per line the encoder writes. */
  lemma ReadableIsWritable(c: Chart, beat: E.BeatText, names: EnumNames)
    requires Readable(c, beat, names)
    ensures CL.Writable(c, beat)
  {
    StoryboardIsWritable(c.camera.storyboard, beat, names);
    StoryboardIsWritable(c.palette.storyboard, beat, names);
    forall i | 0 <= i < |c.lanes| ensures CL.LaneWritable(c.lanes[i], beat) {
      assert LaneReadable(c.lanes[i], beat, names);
      LaneIsWritable(c.lanes[i], beat, names);
    }
  }

  // ---------------------------------------------------------------- section lines

  /** A number's text has no white space at either end, so trimming keeps it. */
  lemma NumberIsTrimmed(s: string)
    requires IsNumberText(s)
    ensures Trim(s) == s
  {
    NumeralIsNotSeparator(s[0]);
    NumeralIsNotSeparator(s[|s| - 1]);
    TrimOfTrimmed(s);
  }

  /** A vector's text survives trimming and parses back to the vector. */
  lemma ParseEncodedVector(v: Vec3)
    ensures Trim(E.EncodeVector(v)) == E.EncodeVector(v)
    ensures ParseVector(E.EncodeVector(v)) == Ok(v)
  {
    VectorIsTrimmed(v);
    VectorTokens(v);
    ParseFormatFloat(v.x);
    ParseFormatFloat(v.y);
    ParseFormatFloat(v.z);
  }

  lemma VectorIsTrimmed(v: Vec3)
    ensures Trim(E.EncodeVector(v)) == E.EncodeVector(v)
  {
    var s, x, z := E.EncodeVector(v), FormatFloat(v.x), FormatFloat(v.z);
    FormatFloatIsNumberText(v.x);
    FormatFloatIsNumberText(v.z);
    NumeralIsNotSeparator(x[0]);
    NumeralIsNotSeparator(z[|z| - 1]);
    assert s[0] == x[0] && s[|s| - 1] == z[|z| - 1];
    TrimOfTrimmed(s);
  }

  /** The camera's vector lines set the vector they hold. */
  lemma VectorFields(c: Chart, v: Vec3)
    ensures SetField(c, CameraObject, "Pivot", Trim(E.EncodeVector(v))) == Ok(c.(camera := c.camera.(pivot := v)))
    ensures SetField(c, CameraObject, "Rotation", Trim(E.EncodeVector(v))) == Ok(c.(camera := c.camera.(rotation := v)))
  {
    ParseEncodedVector(v);
  }

  /** A colour's text survives trimming. */
  lemma ColorIsTrimmed(c: Color)
    ensures Trim(EncodeColor(c)) == EncodeColor(c)
  {
    var s, r, a := EncodeColor(c), FormatFloat(c.r), FormatFloat(c.a);
    FormatFloatIsNumberText(c.r);
    FormatFloatIsNumberText(c.a);
    NumeralIsNotSeparator(r[0]);
    NumeralIsNotSeparator(a[|a| - 1]);
    assert s[0] == r[0] && s[|s| - 1] == a[|a| - 1];
    TrimOfTrimmed(s);
  }

  /** The section keys route to the field lines, and each line starts with its key and
      `": "`. */
  lemma MetadataKeys()
    ensures KeyName("Index") && KeyName("Name") && KeyName("Charter") && KeyName("Level") && KeyName("Constant")
    ensures "Index: " == "Index" + ": " && "Name: " == "Name" + ": " && "Charter: " == "Charter" + ": "
    ensures "Level: " == "Level" + ": " && "Constant: " == "Constant" + ": "
  {
  }

  lemma CameraKeys()
    ensures KeyName("Pivot") && KeyName("Rotation") && KeyName("Distance")
    ensures "Pivot: " == "Pivot" + ": " && "Rotation: " == "Rotation" + ": " && "Distance: " == "Distance" + ": "
  {
  }

  lemma PaletteKeys()
    ensures KeyName("Background") && KeyName("Interface")
    ensures "Background: " == "Background" + ": " && "Interface: " == "Interface" + ": "
  {
  }

  lemma KeyLine(prefix: string, key: string, value: string)
    requires prefix == key + ": "
    ensures prefix + value == "" + key + ": " + value
  {
    PrefixLine("", prefix, key, value);
    assert "" + prefix + value == prefix + value;
  }

  /** A `Key: value` line without indentation sets the field its key names. */
  lemma ReadKey(names: EnumNames, blanks: Blanks, st: ValidState, prefix: string, key: string, value: string,
                c': Chart) returns (st': ValidState)
    requires prefix == key + ": " && KeyName(key)
    requires SetField(st.chart, st.currentObject, key, Trim(value)) == Ok(c')
    ensures Reads(Stepper(names, blanks), st, [prefix + value], st')
    ensures st' == st.(chart := c')
  {
    KeyLine(prefix, key, value);
    FieldStep(names, blanks, st, "", key, value, c');
    st' := st.(chart := c');
    ReadsLine(names, blanks, st, prefix + value, st');
  }

  /** A section header switches to its section. */
  lemma ReadHeader(names: EnumNames, blanks: Blanks, st: ValidState, line: string, name: string)
    returns (st': ValidState)
    requires line == "[" + name + "]"
    requires name in {"VERSION", "METADATA", "CAMERA", "PALLETE", "GROUPS", "OBJECTS"}
    ensures Reads(Stepper(names, blanks), st, [line], st')
    ensures ApplySection(st, name) == Ok(st')
    ensures st'.chart == st.chart && st'.mode == name && st'.currentLane == st.currentLane
  {
    SectionLine(st, name, names, blanks);
    SectionTable(st, name);
    st' := ApplySection(st, name).value;
    ReadsLine(names, blanks, st, line, st');
  }

  /** Outside the version section, a line with no marker, no indentation and no colon is
      read without effect. */
  lemma ReadPlain(names: EnumNames, blanks: Blanks, st: ValidState, line: string)
    requires st.currentObject != VersionString
    requires line != [] && !IsWhiteSpace(line[0]) && line[0] !in "[$+" && ':' !in line
    ensures Reads(Stepper(names, blanks), st, [line], st)
  {
    PlainLineIsIgnored(st, line, names, blanks);
    ReadsLine(names, blanks, st, line, st);
  }

  lemma ReadBlank(names: EnumNames, blanks: Blanks, st: ValidState)
    ensures Reads(Stepper(names, blanks), st, [""], st)
  {
    EmptyLineIsIgnored(st, names, blanks);
    ReadsLine(names, blanks, st, "", st);
  }

  // ---------------------------------------------------------------- sections

  lemma Pair<T>(a: T, b: T)
    ensures [a] + [b] == [a, b]
  {
  }

  lemma Triple<T>(a: T, b: T, c: T)
    ensures [a] + [b] + [c] == [a, b, c] && [a] + ([b] + [c]) == [a, b, c]
  {
  }

  /** Five pieces read one after the other, for any step. */
  lemma ReadsFive<S>(step: (S, string) -> Parsed<S>, s0: S, a: seq<string>, s1: S, b: seq<string>, s2: S,
                     c: seq<string>, s3: S, d: seq<string>, s4: S, e: seq<string>, s5: S)
    requires Reads(step, s0, a, s1) && Reads(step, s1, b, s2) && Reads(step, s2, c, s3)
    requires Reads(step, s3, d, s4) && Reads(step, s4, e, s5)
    ensures Reads(step, s0, a + b + c + d + e, s5)
  {
    ReadsThree(step, s0, a, s1, b, s2, c, s3);
    ReadsThree(step, s0, a + b + c, s3, d, s4, e, s5);
  }

  /** The title line and the six sections read one after the other, for any step. */
  lemma ReadsSeven<S>(step: (S, string) -> Parsed<S>, s0: S, t: seq<string>, s1: S, a: seq<string>, s2: S,
                      b: seq<string>, s3: S, c: seq<string>, s4: S, d: seq<string>, s5: S, e: seq<string>, s6: S,
                      f: seq<string>, s7: S)
    requires Reads(step, s0, t, s1) && Reads(step, s1, a, s2) && Reads(step, s2, b, s3)
    requires Reads(step, s3, c, s4) && Reads(step, s4, d, s5) && Reads(step, s5, e, s6) && Reads(step, s6, f, s7)
    ensures Reads(step, s0, t + (a + b + c + d + e + f), s7)
  {
    ReadsThen(step, s1, a, s2, b, s3);
    ReadsThen(step, s1, a + b, s3, c, s4);
    ReadsThen(step, s1, a + b + c, s4, d, s5);
    ReadsThen(step, s1, a + b + c + d, s5, e, s6);
    ReadsThen(step, s1, a + b + c + d + e, s6, f, s7);
    ReadsThen(step, s0, t, s1, a + b + c + d + e + f, s7);
  }

  /** The title line is read without effect. */
  lemma ReadTitle(names: EnumNames, blanks: Blanks, s0: ValidState)
    requires s0 == Initial(blanks)
    ensures Reads(Stepper(names, blanks), s0, [CL.TITLE], s0)
  {
    ReadPlain(names, blanks, s0, CL.TITLE);
  }

  /** The repository line and the version section leave the chart as it is: the version the
      encoder writes passes the gate. */
  lemma ReadPreamble(names: EnumNames, blanks: Blanks, s0: ValidState) returns (st': ValidState)
    requires s0 == Initial(blanks)
    ensures Reads(Stepper(names, blanks), s0, CL.PreambleLines(), st')
    ensures st'.chart == s0.chart
  {
    var repo, version := "github.com/FFF40/JANOARG", FormatInt(E.FORMAT_VERSION);
    ReadRepository(names, blanks, s0);
    st' := ReadVersion(names, blanks, s0);
    PreambleSplit();
    ReadsBoth(names, blanks, s0, [repo] + [""], s0, ["[VERSION]"] + [version] + [""], st');
  }

  lemma ReadRepository(names: EnumNames, blanks: Blanks, s0: ValidState)
    requires s0 == Initial(blanks)
    ensures Reads(Stepper(names, blanks), s0, ["github.com/FFF40/JANOARG"] + [""], s0)
  {
    ReadPlain(names, blanks, s0, "github.com/FFF40/JANOARG");
    ReadBlank(names, blanks, s0);
    ReadsBoth(names, blanks, s0, ["github.com/FFF40/JANOARG"], s0, [""], s0);
  }

  lemma ReadVersion(names: EnumNames, blanks: Blanks, st: ValidState) returns (st': ValidState)
    ensures Reads(Stepper(names, blanks), st, ["[VERSION]"] + [FormatInt(E.FORMAT_VERSION)] + [""], st')
    ensures st'.chart == st.chart
  {
    var version := FormatInt(E.FORMAT_VERSION);
    st' := ReadHeader(names, blanks, st, "[VERSION]", "VERSION");
    EncodedVersionAccepted(st', names, blanks);
    ReadsLine(names, blanks, st', version, st');
    ReadBlank(names, blanks, st');
    ReadsThree(Stepper(names, blanks), st, ["[VERSION]"], st', [version], st', [""], st');
  }

  lemma PreambleSplit()
    ensures CL.PreambleLines()
         == (["github.com/FFF40/JANOARG"] + [""]) + (["[VERSION]"] + [FormatInt(E.FORMAT_VERSION)] + [""])
  {
  }

  /** The chart's metadata as it reads back over `b`: the numbers as written, the names
      trimmed, the alternative charter only when it is written. */
  function MetadataRead(b: Chart, c: Chart): Chart {
    b.(difficultyIndex := c.difficultyIndex, difficultyName := Trim(c.difficultyName),
       charterName := Trim(c.charterName),
       altCharterName := FieldReadBack(!IsNullOrWhiteSpace(c.altCharterName), c.altCharterName, b.altCharterName),
       difficultyLevel := Trim(c.difficultyLevel), chartConstant := c.chartConstant)
  }

  lemma ReadMetadataHead(names: EnumNames, blanks: Blanks, st: ValidState, c: Chart) returns (st': ValidState)
    ensures Reads(Stepper(names, blanks), st,
                  ["[METADATA]", "Index: " + FormatInt(c.difficultyIndex), "Name: " + c.difficultyName], st')
    ensures st' == st.(chart := st.chart.(difficultyIndex := c.difficultyIndex, difficultyName := Trim(c.difficultyName)),
                       mode := "METADATA", currentObject := ChartObject)
  {
    var index := FormatInt(c.difficultyIndex);
    Triple("[METADATA]", "Index: " + index, "Name: " + c.difficultyName);
    var s1 := ReadHeader(names, blanks, st, "[METADATA]", "METADATA");
    MetadataKeys();
    NumberIsTrimmed(index);
    ParseFormatInt(c.difficultyIndex);
    var s2 := ReadKey(names, blanks, s1, "Index: ", "Index", index, s1.chart.(difficultyIndex := c.difficultyIndex));
    var s3 := ReadKey(names, blanks, s2, "Name: ", "Name", c.difficultyName, s2.chart.(difficultyName := Trim(c.difficultyName)));
    ReadsThree(Stepper(names, blanks), st, ["[METADATA]"], s1, ["Index: " + index], s2, ["Name: " + c.difficultyName], s3);
    st' := s3;
  }

  lemma ReadCharter(names: EnumNames, blanks: Blanks, st: ValidState, c: Chart) returns (st': ValidState)
    requires st.currentObject == ChartObject
    ensures Reads(Stepper(names, blanks), st, ["Charter: " + c.charterName] + CL.AltLines(c.altCharterName), st')
    ensures var alt := c.altCharterName;
      st' == st.(chart := st.chart.(charterName := Trim(c.charterName),
                                    altCharterName := FieldReadBack(!IsNullOrWhiteSpace(alt), alt, st.chart.altCharterName)))
  {
    MetadataKeys();
    var alt := c.altCharterName;
    var s1 := ReadKey(names, blanks, st, "Charter: ", "Charter", c.charterName, st.chart.(charterName := Trim(c.charterName)));
    st' := ReadAltCharter(names, blanks, s1, alt);
    ReadsBoth(names, blanks, st, ["Charter: " + c.charterName], s1, CL.AltLines(alt), st');
  }

  /** The `Alt Charter` line, written only for a name that is not blank, sets the trimmed
      name. */
  lemma ReadAltCharter(names: EnumNames, blanks: Blanks, st: ValidState, alt: string) returns (st': ValidState)
    requires st.currentObject == ChartObject
    ensures Reads(Stepper(names, blanks), st, CL.AltLines(alt), st')
    ensures st' == st.(chart := st.chart.(altCharterName := FieldReadBack(!IsNullOrWhiteSpace(alt), alt, st.chart.altCharterName)))
  {
    if !IsNullOrWhiteSpace(alt) {
      AltCharterStep(st, alt, names, blanks);
      st' := st.(chart := st.chart.(altCharterName := Trim(alt)));
      ReadsLine(names, blanks, st, "Alt Charter:  " + alt, st');
    } else {
      ReadsNothing(names, blanks, st);
      st' := st;
    }
  }

  lemma ReadMetadataTail(names: EnumNames, blanks: Blanks, st: ValidState, c: Chart) returns (st': ValidState)
    requires st.currentObject == ChartObject
    ensures Reads(Stepper(names, blanks), st,
                  ["Level: " + c.difficultyLevel, "Constant: " + FormatFloat(c.chartConstant), ""], st')
    ensures st' == st.(chart := st.chart.(difficultyLevel := Trim(c.difficultyLevel), chartConstant := c.chartConstant))
  {
    var constant := FormatFloat(c.chartConstant);
    Triple("Level: " + c.difficultyLevel, "Constant: " + constant, "");
    MetadataKeys();
    FormatFloatIsNumberText(c.chartConstant);
    NumberIsTrimmed(constant);
    ParseFormatFloat(c.chartConstant);
    var s1 := ReadKey(names, blanks, st, "Level: ", "Level", c.difficultyLevel, st.chart.(difficultyLevel := Trim(c.difficultyLevel)));
    var s2 := ReadKey(names, blanks, s1, "Constant: ", "Constant", constant, s1.chart.(chartConstant := c.chartConstant));
    ReadBlank(names, blanks, s2);
    ReadsThree(Stepper(names, blanks), st, ["Level: " + c.difficultyLevel], s1, ["Constant: " + constant], s2, [""], s2);
    st' := s2;
  }

  /** The metadata section sets the chart's metadata as it reads back. */
  lemma ReadMetadata(names: EnumNames, blanks: Blanks, st: ValidState, c: Chart) returns (st': ValidState)
    ensures Reads(Stepper(names, blanks), st, CL.MetadataLines(c), st')
    ensures st'.chart == MetadataRead(st.chart, c)
  {
    var s1 := ReadMetadataHead(names, blanks, st, c);
    var s2 := ReadCharter(names, blanks, s1, c);
    st' := ReadMetadataTail(names, blanks, s2, c);
    ReadsThree(Stepper(names, blanks),
               st, ["[METADATA]", "Index: " + FormatInt(c.difficultyIndex), "Name: " + c.difficultyName],
               s1, ["Charter: " + c.charterName] + CL.AltLines(c.altCharterName),
               s2, ["Level: " + c.difficultyLevel, "Constant: " + FormatFloat(c.chartConstant), ""], st');
  }

  /** The camera as it reads back over `b`: its numbers as written, its timestamps behind
      the blank's. */
  function CameraRead(b: CameraController, cam: CameraController): CameraController {
    CameraController(cam.pivot, cam.rotation, cam.distance, b.storyboard + TimestampsReadBack(cam.storyboard))
  }

  lemma ReadCameraHead(names: EnumNames, blanks: Blanks, st: ValidState, cam: CameraController) returns (st': ValidState)
    ensures Reads(Stepper(names, blanks), st, ["[CAMERA]", "Pivot: " + E.EncodeVector(cam.pivot),
                                               "Rotation: " + E.EncodeVector(cam.rotation)], st')
    ensures st' == st.(chart := st.chart.(camera := st.chart.camera.(pivot := cam.pivot, rotation := cam.rotation)),
                       mode := "CAMERA", currentObject := CameraObject, currentStoryboard := CameraObject)
  {
    var pivot, rotation := "Pivot: " + E.EncodeVector(cam.pivot), "Rotation: " + E.EncodeVector(cam.rotation);
    Triple("[CAMERA]", pivot, rotation);
    var s1 := ReadHeader(names, blanks, st, "[CAMERA]", "CAMERA");
    var s2 := ReadPivot(names, blanks, s1, cam.pivot);
    st' := ReadRotation(names, blanks, s2, cam.rotation);
    ReadsThree(Stepper(names, blanks), st, ["[CAMERA]"], s1, [pivot], s2, [rotation], st');
  }

  lemma ReadPivot(names: EnumNames, blanks: Blanks, st: ValidState, v: Vec3) returns (st': ValidState)
    requires st.currentObject == CameraObject
    ensures Reads(Stepper(names, blanks), st, ["Pivot: " + E.EncodeVector(v)], st')
    ensures st' == st.(chart := st.chart.(camera := st.chart.camera.(pivot := v)))
  {
    CameraKeys();
    VectorFields(st.chart, v);
    st' := ReadKey(names, blanks, st, "Pivot: ", "Pivot", E.EncodeVector(v), st.chart.(camera := st.chart.camera.(pivot := v)));
  }

  lemma ReadRotation(names: EnumNames, blanks: Blanks, st: ValidState, v: Vec3) returns (st': ValidState)
    requires st.currentObject == CameraObject
    ensures Reads(Stepper(names, blanks), st, ["Rotation: " + E.EncodeVector(v)], st')
    ensures st' == st.(chart := st.chart.(camera := st.chart.camera.(rotation := v)))
  {
    CameraKeys();
    VectorFields(st.chart, v);
    st' := ReadKey(names, blanks, st, "Rotation: ", "Rotation", E.EncodeVector(v), st.chart.(camera := st.chart.camera.(rotation := v)));
  }

  lemma ReadCameraTail(names: EnumNames, blanks: Blanks, st: ValidState, cam: CameraController, beat: E.BeatText)
    returns (st': ValidState)
    requires st.currentObject == CameraObject && st.currentStoryboard == CameraObject
    requires StoryboardReadable(cam.storyboard, beat, names)
    ensures Reads(Stepper(names, blanks), st, ["Distance: " + FormatFloat(cam.distance)] + E.StoryboardLines(cam.storyboard, 0, beat), st')
    ensures st'.chart == st.chart.(camera := st.chart.camera.(distance := cam.distance,
                                     storyboard := st.chart.camera.storyboard + TimestampsReadBack(cam.storyboard)))
  {
    CameraKeys();
    var distance := FormatFloat(cam.distance);
    FormatFloatIsNumberText(cam.distance);
    NumberIsTrimmed(distance);
    ParseFormatFloat(cam.distance);
    var s1 := ReadKey(names, blanks, st, "Distance: ", "Distance", distance,
                      st.chart.(camera := st.chart.camera.(distance := cam.distance)));
    st' := ReadStoryboard(names, blanks, s1, cam.storyboard, 0, beat);
    ExtendedAppends(s1.chart, CameraObject, cam.storyboard);
    ReadsBoth(names, blanks, st, ["Distance: " + distance], s1, E.StoryboardLines(cam.storyboard, 0, beat), st');
  }

  /** The camera section sets the camera as it reads back. */
  lemma ReadCamera(names: EnumNames, blanks: Blanks, st: ValidState, cam: CameraController, beat: E.BeatText)
    returns (st': ValidState)
    requires StoryboardReadable(cam.storyboard, beat, names)
    ensures Reads(Stepper(names, blanks), st, CL.CameraLines(cam, beat), st')
    ensures st'.chart == st.chart.(camera := CameraRead(st.chart.camera, cam))
  {
    var s1 := ReadCameraHead(names, blanks, st, cam);
    st' := ReadCameraTail(names, blanks, s1, cam, beat);
    ReadBlank(names, blanks, st');
    ReadsThree(Stepper(names, blanks),
               st, ["[CAMERA]", "Pivot: " + E.EncodeVector(cam.pivot), "Rotation: " + E.EncodeVector(cam.rotation)],
               s1, ["Distance: " + FormatFloat(cam.distance)] + E.StoryboardLines(cam.storyboard, 0, beat),
               st', [""], st');
  }

  /** The groups section appends the groups as they read back. */
  lemma ReadGroupsSection(names: EnumNames, blanks: Blanks, st: ValidState, gs: seq<LaneGroup>, beat: E.BeatText)
    returns (st': ValidState)
    requires forall i :: 0 <= i < |gs| ==> GroupReadable(gs[i], beat, names)
    ensures Reads(Stepper(names, blanks), st, CL.GroupsLines(gs, beat), st')
    ensures st'.chart == st.chart.(groups := st.chart.groups + GroupsReadBack(gs, blanks.group))
  {
    var s1 := ReadHeader(names, blanks, st, "[GROUPS]", "GROUPS");
    st' := ReadGroups(names, blanks, s1, gs, beat);
    ReadBlank(names, blanks, st');
    var body := Flatten(CL.GroupLists(gs, beat));
    ReadsBoth(names, blanks, s1, body, st', [""], st');
    ReadsThree(Stepper(names, blanks), st, ["[GROUPS]"], s1, body + [""], st', [""], st');
  }

  /** The palette as it reads back over `b`: its colours as written, its styles and
      timestamps behind the blank's. */
  function PaletteRead(b: Palette, p: Palette, blanks: Blanks): Palette {
    Palette(p.backgroundColor, p.interfaceColor,
      b.laneStyles + LaneStylesReadBack(p.laneStyles, blanks.laneStyle),
      b.hitStyles + HitStylesReadBack(p.hitStyles, blanks.hitStyle),
      b.storyboard + TimestampsReadBack(p.storyboard))
  }

  lemma ReadPaletteHead(names: EnumNames, blanks: Blanks, st: ValidState, p: Palette) returns (st': ValidState)
    ensures Reads(Stepper(names, blanks), st, ["[PALLETE]", "Background: " + EncodeColor(p.backgroundColor)], st')
    ensures st' == st.(chart := st.chart.(palette := st.chart.palette.(backgroundColor := p.backgroundColor)),
                       mode := "PALLETE", currentObject := PaletteObject, currentStoryboard := PaletteObject)
  {
    var background := "Background: " + EncodeColor(p.backgroundColor);
    Pair("[PALLETE]", background);
    var s1 := ReadHeader(names, blanks, st, "[PALLETE]", "PALLETE");
    st' := ReadBackground(names, blanks, s1, p.backgroundColor);
    ReadsBoth(names, blanks, st, ["[PALLETE]"], s1, [background], st');
  }

  lemma ReadBackground(names: EnumNames, blanks: Blanks, st: ValidState, color: Color) returns (st': ValidState)
    requires st.currentObject == PaletteObject
    ensures Reads(Stepper(names, blanks), st, ["Background: " + EncodeColor(color)], st')
    ensures st' == st.(chart := st.chart.(palette := st.chart.palette.(backgroundColor := color)))
  {
    PaletteKeys();
    ColorIsTrimmed(color);
    ParseEncodeColor(color);
    st' := ReadKey(names, blanks, st, "Background: ", "Background", EncodeColor(color),
                   st.chart.(palette := st.chart.palette.(backgroundColor := color)));
  }

  lemma ReadPaletteStoryboard(names: EnumNames, blanks: Blanks, st: ValidState, p: Palette, beat: E.BeatText)
    returns (st': ValidState)
    requires st.currentObject == PaletteObject && st.currentStoryboard == PaletteObject
    requires StoryboardReadable(p.storyboard, beat, names)
    ensures Reads(Stepper(names, blanks), st, ["Interface: " + EncodeColor(p.interfaceColor)] + E.StoryboardLines(p.storyboard, 0, beat), st')
    ensures st'.chart == st.chart.(palette := st.chart.palette.(interfaceColor := p.interfaceColor,
                                     storyboard := st.chart.palette.storyboard + TimestampsReadBack(p.storyboard)))
  {
    PaletteKeys();
    ColorIsTrimmed(p.interfaceColor);
    ParseEncodeColor(p.interfaceColor);
    var interface := EncodeColor(p.interfaceColor);
    var s1 := ReadKey(names, blanks, st, "Interface: ", "Interface", interface,
                      st.chart.(palette := st.chart.palette.(interfaceColor := p.interfaceColor)));
    st' := ReadStoryboard(names, blanks, s1, p.storyboard, 0, beat);
    ExtendedAppends(s1.chart, PaletteObject, p.storyboard);
    ReadsBoth(names, blanks, st, ["Interface: " + interface], s1, E.StoryboardLines(p.storyboard, 0, beat), st');
  }

  /** An empty line, then the lane styles. */
  lemma ReadPaletteLaneStyles(names: EnumNames, blanks: Blanks, st: ValidState, ss: seq<LaneStyle>, beat: E.BeatText)
    returns (st': ValidState)
    requires forall i :: 0 <= i < |ss| ==> LaneStyleReadable(ss[i], beat, names)
    ensures Reads(Stepper(names, blanks), st, [""] + Flatten(CL.LaneStyleLists(ss, beat)), st')
    ensures st'.chart == st.chart.(palette := st.chart.palette.(
              laneStyles := st.chart.palette.laneStyles + LaneStylesReadBack(ss, blanks.laneStyle)))
  {
    ReadBlank(names, blanks, st);
    st' := ReadLaneStyles(names, blanks, st, ss, beat);
    ReadsBoth(names, blanks, st, [""], st, Flatten(CL.LaneStyleLists(ss, beat)), st');
  }

  /** An empty line, then the hit styles. */
  lemma ReadPaletteHitStyles(names: EnumNames, blanks: Blanks, st: ValidState, ss: seq<HitStyle>, beat: E.BeatText)
    returns (st': ValidState)
    requires forall i :: 0 <= i < |ss| ==> HitStyleReadable(ss[i], beat, names)
    ensures Reads(Stepper(names, blanks), st, [""] + Flatten(CL.HitStyleLists(ss, beat)), st')
    ensures st'.chart == st.chart.(palette := st.chart.palette.(
              hitStyles := st.chart.palette.hitStyles + HitStylesReadBack(ss, blanks.hitStyle)))
  {
    ReadBlank(names, blanks, st);
    st' := ReadHitStyles(names, blanks, st, ss, beat);
    ReadsBoth(names, blanks, st, [""], st, Flatten(CL.HitStyleLists(ss, beat)), st');
  }

  /** The palette section sets the palette as it reads back. */
  lemma ReadPalette(names: EnumNames, blanks: Blanks, st: ValidState, p: Palette, beat: E.BeatText)
    returns (st': ValidState)
    requires StoryboardReadable(p.storyboard, beat, names)
    requires forall i :: 0 <= i < |p.laneStyles| ==> LaneStyleReadable(p.laneStyles[i], beat, names)
    requires forall i :: 0 <= i < |p.hitStyles| ==> HitStyleReadable(p.hitStyles[i], beat, names)
    ensures Reads(Stepper(names, blanks), st, CL.PaletteLines(p, beat), st')
    ensures st'.chart == st.chart.(palette := PaletteRead(st.chart.palette, p, blanks))
  {
    var s1 := ReadPaletteHead(names, blanks, st, p);
    var s2 := ReadPaletteStoryboard(names, blanks, s1, p, beat);
    var s3 := ReadPaletteLaneStyles(names, blanks, s2, p.laneStyles, beat);
    st' := ReadPaletteHitStyles(names, blanks, s3, p.hitStyles, beat);
    ReadBlank(names, blanks, st');
    ReadsFive(Stepper(names, blanks),
              st, ["[PALLETE]", "Background: " + EncodeColor(p.backgroundColor)],
              s1, ["Interface: " + EncodeColor(p.interfaceColor)] + E.StoryboardLines(p.storyboard, 0, beat),
              s2, [""] + Flatten(CL.LaneStyleLists(p.laneStyles, beat)),
              s3, [""] + Flatten(CL.HitStyleLists(p.hitStyles, beat)),
              st', [""], st');
  }

  /** The objects section appends the lanes as they read back. */
  lemma ReadObjects(names: EnumNames, blanks: Blanks, st: ValidState, lanes: seq<Lane>, beat: E.BeatText)
    returns (st': ValidState)
    requires forall i :: 0 <= i < |lanes| ==> LaneReadable(lanes[i], beat, names)
    ensures Reads(Stepper(names, blanks), st, CL.ObjectsLines(lanes, beat), st')
    ensures st'.chart == st.chart.(lanes := st.chart.lanes + LanesReadBack(lanes, blanks))
  {
    var s1 := ReadHeader(names, blanks, st, "[OBJECTS]", "OBJECTS");
    ReadBlank(names, blanks, s1);
    st' := ReadLanes(names, blanks, s1, lanes, beat);
    var body := Flatten(CL.LaneLists(lanes, beat));
    ReadsBoth(names, blanks, s1, [""], s1, body, st');
    ReadsBoth(names, blanks, st, ["[OBJECTS]"], s1, [""] + body, st');
  }

  // ---------------------------------------------------------------- the whole chart

  /** The chart read from the initial state, section by section. */
  function SectionsRead(c: Chart, blanks: Blanks): Chart {
    var b := Initial(blanks).chart;
    var m := MetadataRead(b, c);
    m.(camera := CameraRead(b.camera, c.camera), groups := b.groups + GroupsReadBack(c.groups, blanks.group),
       palette := PaletteRead(b.palette, c.palette, blanks), lanes := b.lanes + LanesReadBack(c.lanes, blanks))
  }

  /** Reading section by section gives the chart the decoder is expected to return: the
      initial state's style lists are empty. */
  lemma SectionsReadExpected(c: Chart, blanks: Blanks)
    ensures SectionsRead(c, blanks) == ExpectedChart(c, blanks)
  {
    var p := Initial(blanks).chart.palette;
    assert p.laneStyles + LaneStylesReadBack(c.palette.laneStyles, blanks.laneStyle)
        == LaneStylesReadBack(c.palette.laneStyles, blanks.laneStyle);
    assert p.hitStyles + HitStylesReadBack(c.palette.hitStyles, blanks.hitStyle)
        == HitStylesReadBack(c.palette.hitStyles, blanks.hitStyle);
  }

  /** Every line of the chart's text, read from the initial state, leaves the chart as it
      reads back. */
  lemma ReadChartLines(names: EnumNames, blanks: Blanks, s0: ValidState, c: Chart, beat: E.BeatText)
    returns (st': ValidState)
    requires s0 == Initial(blanks) && Readable(c, beat, names)
    ensures Reads(Stepper(names, blanks), s0, [CL.TITLE] + CL.ChartLines(c, beat), st')
    ensures st'.chart == SectionsRead(c, blanks)
  {
    ReadTitle(names, blanks, s0);
    var s1 := ReadPreamble(names, blanks, s0);
    var s2 := ReadMetadata(names, blanks, s1, c);
    var s3 := ReadCamera(names, blanks, s2, c.camera, beat);
    var s4 := ReadGroupsSection(names, blanks, s3, c.groups, beat);
    var s5 := ReadPalette(names, blanks, s4, c.palette, beat);
    st' := ReadObjects(names, blanks, s5, c.lanes, beat);
    ReadsSeven(Stepper(names, blanks), s0, [CL.TITLE], s0, CL.PreambleLines(), s1, CL.MetadataLines(c), s2,
               CL.CameraLines(c.camera, beat), s3, CL.GroupsLines(c.groups, beat), s4,
               CL.PaletteLines(c.palette, beat), s5, CL.ObjectsLines(c.lanes, beat), st');
  }

  /** Decoding the encoder's text of a chart that can be read back succeeds and returns the
      chart as it reads back: every value as written, up to the trimming of `Key: value`
      values, behind what the blank objects hold. */
  lemma DecodeEncodedChart(c: Chart, beat: E.BeatText, names: EnumNames, blanks: Blanks)
    requires Readable(c, beat, names)
    ensures DecodeText(E.ChartText(c, beat), names, blanks) == Ok(ExpectedChart(c, blanks))
  {
    DecodeSections(c, beat, names, blanks);
    SectionsReadExpected(c, blanks);
  }

  lemma DecodeSections(c: Chart, beat: E.BeatText, names: EnumNames, blanks: Blanks)
    requires Readable(c, beat, names)
    ensures DecodeText(E.ChartText(c, beat), names, blanks) == Ok(SectionsRead(c, blanks))
  {
    SplitReadable(c, beat, names);
    var s0: ValidState := Initial(blanks);
    var st := ReadChartLines(names, blanks, s0, c, beat);
    DecodeReads(E.ChartText(c, beat), names, blanks, s0, [CL.TITLE] + CL.ChartLines(c, beat), st);
  }

  /** What the trimming of values loses: in the chart the decoder returns for the encoder's
      text, the name, charter and level are unchanged exactly when neither of their ends is
      white space, so a chart holding one with a leading or trailing space does not come back
      as itself. */
  lemma ExpectedChartTrims(c: Chart, blanks: Blanks)
    ensures var r := ExpectedChart(c, blanks);
      && (r.difficultyName == c.difficultyName <==> IsTrimmed(c.difficultyName))
      && (r.charterName == c.charterName <==> IsTrimmed(c.charterName))
      && (r.difficultyLevel == c.difficultyLevel <==> IsTrimmed(c.difficultyLevel))
      && (!IsTrimmed(c.charterName) ==> r != c)
  {
    var r := ExpectedChart(c, blanks);
    assert r.difficultyName == Trim(c.difficultyName) && r.charterName == Trim(c.charterName)
        && r.difficultyLevel == Trim(c.difficultyLevel);
    TrimUnchanged(c.difficultyName);
    TrimUnchanged(c.charterName);
    TrimUnchanged(c.difficultyLevel);
  }

  /** The text of a chart that can be read back is split into the title and the lines the
      encoder writes. */
  lemma SplitReadable(c: Chart, beat: E.BeatText, names: EnumNames)
    requires Readable(c, beat, names)
    ensures Split(E.ChartText(c, beat), '\n') == [CL.TITLE] + CL.ChartLines(c, beat)
  {
    ReadableIsWritable(c, beat, names);
    CL.SplitChartText(c, beat);
  }

  /** A text whose lines are all read from the initial state decodes to the chart read. */
  lemma DecodeReads(str: string, names: EnumNames, blanks: Blanks, s0: ValidState, lines: seq<string>, st: ValidState)
    requires s0 == Initial(blanks) && Split(str, '\n') == lines && Reads(Stepper(names, blanks), s0, lines, st)
    ensures DecodeText(str, names, blanks) == Ok(st.chart)
  {
  }
}
