/** What the chart decoder promises, line by line and for the whole text. */
module JACDecoderProperties {
  import opened Results
  import opened Text
  import opened Numbers
  import opened Easing
  import opened ChartInfo
  import opened LineFold
  import opened Values
  import opened JACDecoder

  // ---------------------------------------------------------------- the loop

  /** The error `Decode` reports names the 1-based number of the first line that threw, the
      text of that line as it was before trimming, and what it threw; every earlier line was
      read without an error. */
  lemma DecodeErrorPinpointsLine(str: string, names: EnumNames, blanks: Blanks)
    requires DecodeText(str, names, blanks).Err?
    ensures var e := DecodeText(str, names, blanks).error;
      var lines := Split(str, '\n');
      && 1 <= e.line <= |lines|
      && e.content == lines[e.line - 1]
      && Run(Initial(blanks), lines[..e.line - 1], names, blanks).Ok?
      && Stepper(names, blanks)(Run(Initial(blanks), lines[..e.line - 1], names, blanks).value, e.content) == Err(e.cause)
  {
    var lines := Split(str, '\n');
    var init: ValidState := Initial(blanks);
    DecodeTextFailure(str, names, blanks);
    FoldFailureIsFirst(Stepper(names, blanks), init, lines);
  }

  /** An error of `Decode` is the failure of the loop, one-based. */
  lemma DecodeTextFailure(str: string, names: EnumNames, blanks: Blanks)
    requires DecodeText(str, names, blanks).Err?
    ensures var lines := Split(str, '\n');
      var r := Run(Initial(blanks), lines, names, blanks);
      && r.Err?
      && DecodeText(str, names, blanks).error == DecodeError(r.error.index + 1, lines[r.error.index], r.error.cause)
  {
  }

  // ---------------------------------------------------------------- classification

  /** Indentation carries no meaning: white space in front of a line changes nothing. */
  lemma IndentationIgnored(st: State, ws: string, line: string, names: EnumNames, blanks: Blanks)
    requires Valid(st) && IsNullOrWhiteSpace(ws)
    ensures Step(st, ws + line, names, blanks) == Step(st, line, names, blanks)
  {
    TrimStartAfterWhiteSpace(ws, line);
  }

  /** A line whose first character is none of `[`, `$` and `+` is a metadata line when it holds
      `: ` and a version line otherwise. */
  lemma ClassifyByColon(line: string)
    requires line != [] && line[0] !in "[$+"
    ensures Classify(line) == if Contains(line, ": ") then MetadataLine else OtherLine
  {
    assert !StartsWith(line, "[") && !StartsWith(line, "$") && !StartsWith(line, "+") by {
      assert line[..1] == [line[0]];
    }
  }

  /** A line that starts with a visible character other than `[`, `$` and `+`, and without a
      colon, is a version line. */
  lemma PlainLineIsOther(line: string)
    requires line != [] && !IsWhiteSpace(line[0]) && line[0] !in "[$+" && ':' !in line
    ensures TrimStart(line) == line && Classify(line) == OtherLine
  {
    ClassifyByColon(line);
    NotContains(line, ": ");
  }

  // ---------------------------------------------------------------- routing

  /** A line that is no section, storyboard, object or metadata line is read as a version
      line inside VERSION and ignored elsewhere. */
  lemma StepOnOtherLine(st: State, raw: string, names: EnumNames, blanks: Blanks)
    requires Valid(st) && Classify(TrimStart(raw)) == OtherLine
    ensures Step(st, raw, names, blanks) ==
      if st.currentObject == VersionString then ApplyVersion(st, TrimStart(raw)) else Ok(st)
  {
    StepIsTrimmed(st, raw, names, blanks);
    OtherTrimmed(st, TrimStart(raw), names, blanks);
  }

  lemma OtherTrimmed(st: State, t: string, names: EnumNames, blanks: Blanks)
    requires Valid(st) && Classify(t) == OtherLine
    ensures StepTrimmed(st, t, names, blanks) ==
      if st.currentObject == VersionString then ApplyVersion(st, t) else Ok(st)
  {
  }

  /** A section header opens the section named between its brackets. */
  lemma StepOnSectionHeader(st: State, raw: string, names: EnumNames, blanks: Blanks)
    requires Valid(st) && Classify(TrimStart(raw)) == SectionHeader
    ensures var t := TrimStart(raw);
      |t| >= 2 && Step(st, raw, names, blanks) == ApplySection(st, t[1..|t| - 1])
  {
    StepIsTrimmed(st, raw, names, blanks);
    SectionHeaderTrimmed(st, TrimStart(raw), names, blanks);
  }

  lemma StepIsTrimmed(st: State, raw: string, names: EnumNames, blanks: Blanks)
    requires Valid(st)
    ensures Step(st, raw, names, blanks) == StepTrimmed(st, TrimStart(raw), names, blanks)
  {
  }

  lemma ObjectTrimmed(st: State, t: string, names: EnumNames, blanks: Blanks)
    requires Valid(st) && Classify(t) == ObjectLine
    ensures StepTrimmed(st, t, names, blanks) == ApplyObject(st, Split(t, ' '), names, blanks)
  {
  }

  lemma StoryboardTrimmed(st: State, t: string, names: EnumNames, blanks: Blanks)
    requires Valid(st) && Classify(t) == StoryboardLine
    ensures StepTrimmed(st, t, names, blanks) == ApplyStoryboard(st, Split(t, ' '), names)
  {
  }

  lemma SectionHeaderTrimmed(st: State, t: string, names: EnumNames, blanks: Blanks)
    requires Valid(st) && Classify(t) == SectionHeader
    ensures |t| >= 2 && StepTrimmed(st, t, names, blanks) == ApplySection(st, t[1..|t| - 1])
  {
  }

  /** A metadata line is handed, trimmed at the start, to the key table. */
  lemma StepOnMetadataLine(st: State, raw: string, names: EnumNames, blanks: Blanks)
    requires Valid(st) && Classify(TrimStart(raw)) == MetadataLine
    ensures Step(st, raw, names, blanks) == ApplyMetadata(st, TrimStart(raw))
  {
    StepIsTrimmed(st, raw, names, blanks);
    MetadataTrimmed(st, TrimStart(raw), names, blanks);
  }

  /** A blank line never changes the state. */
  lemma EmptyLineIsIgnored(st: State, names: EnumNames, blanks: Blanks)
    requires Valid(st)
    ensures Step(st, "", names, blanks) == Ok(st)
  {
    assert TrimStart("") == "";
    assert Classify("") == OtherLine by {
      assert !StartsWith("", "[") && !StartsWith("", "$") && !StartsWith("", "+") && !Contains("", ": ");
    }
    StepOnOtherLine(st, "", names, blanks);
    assert ApplyVersion(st, "") == Ok(st);
  }

  /** Outside VERSION, a line that fits no other kind is ignored. */
  lemma PlainLineIsIgnored(st: State, line: string, names: EnumNames, blanks: Blanks)
    requires Valid(st) && st.currentObject != VersionString
    requires line != [] && !IsWhiteSpace(line[0]) && line[0] !in "[$+" && ':' !in line
    ensures Step(st, line, names, blanks) == Ok(st)
  {
    PlainLineIsOther(line);
  }

  // ---------------------------------------------------------------- sections

  /** `[name]` is a section header for the section `name`. */
  lemma SectionLine(st: State, name: string, names: EnumNames, blanks: Blanks)
    requires Valid(st)
    ensures Step(st, "[" + name + "]", names, blanks) == ApplySection(st, name)
  {
    var line := "[" + name + "]";
    BracketedLine(name);
    StepIsTrimmed(st, line, names, blanks);
    SectionHeaderTrimmed(st, line, names, blanks);
  }

  lemma BracketedLine(name: string)
    ensures var line := "[" + name + "]";
      TrimStart(line) == line && Classify(line) == SectionHeader && line[1..|line| - 1] == name
  {
    var line := "[" + name + "]";
    assert line[0] == '[' && TrimStart(line) == line;
    assert StartsWith(line, "[") && EndsWith(line, "]");
  }

  /** The section table: the six section names are accepted and any other throws; a header
      never changes the chart or the current lane; VERSION and METADATA keep the storyboard,
      CAMERA and PALLETE select their own, GROUPS and OBJECTS clear it. */
  lemma SectionTable(st: State, name: string)
    requires Valid(st)
    ensures var r := ApplySection(st, name);
      && (r.Ok? <==> name in {"VERSION", "METADATA", "CAMERA", "PALLETE", "GROUPS", "OBJECTS"})
      && (r.Err? ==> r.error == InvalidMode(name))
      && (r.Ok? ==> r.value.chart == st.chart && r.value.mode == name && r.value.currentLane == st.currentLane)
      && (name == "VERSION" ==> r.value.currentObject == VersionString && r.value.currentStoryboard == st.currentStoryboard)
      && (name == "METADATA" ==> r.value.currentObject == ChartObject && r.value.currentStoryboard == st.currentStoryboard)
      && (name == "CAMERA" ==> r.value.currentObject == CameraObject && r.value.currentStoryboard == CameraObject)
      && (name == "PALLETE" ==> r.value.currentObject == PaletteObject && r.value.currentStoryboard == PaletteObject)
      && (name == "GROUPS" ==> r.value.currentObject == GroupList && r.value.currentStoryboard == Nothing)
      && (name == "OBJECTS" ==> r.value.currentObject == LaneList && r.value.currentStoryboard == Nothing)
  {
  }

  // ---------------------------------------------------------------- storyboard lines

  /** Reading back the storyboard just written. */
  lemma StoryboardPutGet(c: Chart, t: Target, sb: Storyboard)
    requires Exists(c, t) && HasStoryboard(t)
    ensures StoryboardOf(WithStoryboard(c, t, sb), t) == sb
  {
  }

  /** Writing a storyboard twice keeps the second. */
  lemma StoryboardPutPut(c: Chart, t: Target, sb1: Storyboard, sb2: Storyboard)
    requires Exists(c, t) && HasStoryboard(t)
    ensures WithStoryboard(WithStoryboard(c, t, sb1), t, sb2) == WithStoryboard(c, t, sb2)
  {
    var c1 := WithStoryboard(c, t, sb1);
    match t
    case LaneStepAt(l, i) =>
      var lane, lane1 := c.lanes[l], c1.lanes[l];
      assert lane1 == lane.(laneSteps := lane.laneSteps[i := lane.laneSteps[i].(storyboard := sb1)]);
      var step2 := lane.laneSteps[i].(storyboard := sb2);
      assert lane1.laneSteps[i].(storyboard := sb2) == step2;
      assert lane1.laneSteps[i := step2] == lane.laneSteps[i := step2];
      assert c1.lanes[l := lane.(laneSteps := lane.laneSteps[i := step2])] == c.lanes[l := lane.(laneSteps := lane.laneSteps[i := step2])];
    case HitObjectAt(l, i) =>
      var lane, lane1 := c.lanes[l], c1.lanes[l];
      assert lane1 == lane.(objects := lane.objects[i := lane.objects[i].(storyboard := sb1)]);
      var hit2 := lane.objects[i].(storyboard := sb2);
      assert lane1.objects[i].(storyboard := sb2) == hit2;
      assert lane1.objects[i := hit2] == lane.objects[i := hit2];
      assert c1.lanes[l := lane.(objects := lane.objects[i := hit2])] == c.lanes[l := lane.(objects := lane.objects[i := hit2])];
    case _ =>
  }

  /** Writing back the storyboard that is there changes nothing. */
  lemma StoryboardGetPut(c: Chart, t: Target)
    requires Exists(c, t) && HasStoryboard(t)
    ensures WithStoryboard(c, t, StoryboardOf(c, t)) == c
  {
    match t
    case GroupAt(i) => assert c.groups[i := c.groups[i]] == c.groups;
    case LaneStyleAt(i) => assert c.palette.laneStyles[i := c.palette.laneStyles[i]] == c.palette.laneStyles;
    case HitStyleAt(i) => assert c.palette.hitStyles[i := c.palette.hitStyles[i]] == c.palette.hitStyles;
    case LaneAt(i) => assert c.lanes[i := c.lanes[i]] == c.lanes;
    case LaneStepAt(l, i) =>
      var lane := c.lanes[l];
      assert lane.laneSteps[i := lane.laneSteps[i]] == lane.laneSteps;
      assert c.lanes[l := lane] == c.lanes;
    case HitObjectAt(l, i) =>
      var lane := c.lanes[l];
      assert lane.objects[i := lane.objects[i]] == lane.objects;
      assert c.lanes[l := lane] == c.lanes;
    case _ =>
  }

  /** A `$` line: fewer than six tokens throw; exactly six throw too, since the easing is the
      seventh; otherwise the line appends exactly one timestamp, with the id of token 1 and
      NaN for a `_` from value, to the end of the current storyboard, which must exist, and
      changes nothing else of the state. */
  lemma StoryboardLineAppends(st: State, tokens: seq<string>, names: EnumNames)
    requires Valid(st)
    ensures var r := ApplyStoryboard(st, tokens, names);
      && (|tokens| < 6 ==> r == Err(NotEnoughTokens(6, |tokens|)))
      && (|tokens| == 6 ==> r.Err?)
      && (r.Ok? ==>
            && |tokens| >= 7 && st.currentStoryboard != Nothing
            && ParseTimestamp(tokens, names).Ok?
            && var ts := ParseTimestamp(tokens, names).value;
            && ts.id == tokens[1]
            && (tokens[5] == "_" ==> ts.from == NaN)
            && r.value == st.(chart := AppendTimestamp(st.chart, st.currentStoryboard, ts))
            && StoryboardOf(r.value.chart, st.currentStoryboard) == StoryboardOf(st.chart, st.currentStoryboard) + [ts])
  {
    var r := ApplyStoryboard(st, tokens, names);
    if r.Ok? {
      var ts := ParseTimestamp(tokens, names).value;
      StoryboardPutGet(st.chart, st.currentStoryboard, StoryboardOf(st.chart, st.currentStoryboard) + [ts]);
    }
  }

  /** After GROUPS or OBJECTS, and before any object, a `$` line has no storyboard to go to. */
  lemma NoStoryboardWithoutOwner(st: State, tokens: seq<string>, names: EnumNames)
    requires Valid(st) && st.currentStoryboard == Nothing
    ensures ApplyStoryboard(st, tokens, names).Err?
  {
  }

  // ---------------------------------------------------------------- object lines

  /** The token gates of a `+` line: fewer than two tokens or an unknown kind throw, and each
      kind needs its minimum; a Hit with nine tokens is refused with a message that states
      nine as the minimum. */
  lemma ObjectTokenGates(st: State, tokens: seq<string>, names: EnumNames, blanks: Blanks)
    requires Valid(st)
    ensures var r := ApplyObject(st, tokens, names, blanks);
      && (|tokens| < 2 ==> r == Err(MissingObjectToken))
      && (|tokens| >= 2 && !IsObjectKind(tokens[1]) ==> r == Err(InvalidObject(tokens[1])))
      && (r.Ok? ==> |tokens| >= 2 && IsObjectKind(tokens[1]) && |tokens| >= MinimumTokens(tokens[1]))
      && (|tokens| == 9 && tokens[1] == "Hit" ==> r == Err(NotEnoughTokens(9, 9)))
  {
  }

  lemma MinimumTokensTable()
    ensures MinimumTokens("Group") == 8 && MinimumTokens("LaneStyle") == 10 && MinimumTokens("HitStyle") == 14
    ensures MinimumTokens("Lane") == 9 && MinimumTokens("LaneStep") == 12 && MinimumTokens("Hit") == 10
    ensures StatedMinimum("Hit") == 9
  {
  }

  /** A Lane line appends exactly one lane, which becomes the current lane, object and
      storyboard; nothing else of the chart changes. */
  lemma LaneLineOpensLane(st: State, tokens: seq<string>, names: EnumNames, blanks: Blanks)
    requires Valid(st) && |tokens| >= 2 && tokens[1] == "Lane"
    ensures var r := ApplyObject(st, tokens, names, blanks);
      r.Ok? ==>
        && ParseLane(tokens, blanks.lane).Ok?
        && var k := |st.chart.lanes|;
        && r.value.chart == st.chart.(lanes := st.chart.lanes + [ParseLane(tokens, blanks.lane).value])
        && r.value.currentLane == Some(k)
        && r.value.currentObject == LaneAt(k) && r.value.currentStoryboard == LaneAt(k)
        && r.value.mode == st.mode
  {
  }

  /** A LaneStep or Hit line goes into the current lane only: that lane gains the object at
      the end of its steps or hit objects, every other lane and the rest of the chart stay as
      they were, and the current lane does not change. Without a current lane it throws. */
  lemma StepAndHitStayInLane(st: State, tokens: seq<string>, names: EnumNames, blanks: Blanks)
    requires Valid(st) && |tokens| >= 2 && tokens[1] in {"LaneStep", "Hit"}
    ensures var r := ApplyObject(st, tokens, names, blanks);
      && (st.currentLane.None? ==> r.Err?)
      && (r.Ok? ==>
            && st.currentLane.Some?
            && var l := st.currentLane.value;
            && var c, c' := st.chart, r.value.chart;
            && r.value.currentLane == st.currentLane && r.value.mode == st.mode
            && c'.groups == c.groups && c'.palette == c.palette && c'.camera == c.camera
            && |c'.lanes| == |c.lanes|
            && (forall j :: 0 <= j < |c.lanes| && j != l ==> c'.lanes[j] == c.lanes[j])
            && (tokens[1] == "LaneStep" ==>
                  && ParseLaneStep(tokens, blanks.laneStep).Ok?
                  && c'.lanes[l] == c.lanes[l].(laneSteps := c.lanes[l].laneSteps + [ParseLaneStep(tokens, blanks.laneStep).value]))
            && (tokens[1] == "Hit" ==>
                  && ParseHitObject(tokens, names, blanks.hitObject).Ok?
                  && c'.lanes[l] == c.lanes[l].(objects := c.lanes[l].objects + [ParseHitObject(tokens, names, blanks.hitObject).value])))
  {
  }

  // ---------------------------------------------------------------- metadata lines

  /** A `key: value` line with a colon-free key: the key is looked up in the table of the
      current object, with the value trimmed. */
  lemma MetadataLineRouting(st: State, key: string, value: string)
    requires Valid(st) && ':' !in key
    ensures var r := ApplyMetadata(st, key + ": " + value);
      var f := SetField(st.chart, st.currentObject, key, Trim(value));
      && (f.Ok? ==> r == Ok(st.(chart := f.value)))
      && (f.Err? ==> r == Err(f.error))
  {
    var line := key + ": " + value;
    IndexOfAfterKey(key, ": ", value);
    assert line[..|key|] == key;
    assert line[|key| + 2..] == value;
  }

  /** Keys outside the current object's table, and objects without a table (lane steps, hit
      objects, the lists, the version), leave the chart as it was. */
  lemma UnknownKeysIgnored(c: Chart, t: Target, key: string, value: string)
    requires Exists(c, t) && key !in KeysOf(t)
    ensures SetField(c, t, key, value) == Ok(c)
  {
    match t
    case GroupAt(i) => assert c.groups[i := c.groups[i]] == c.groups;
    case LaneStyleAt(i) => assert c.palette.laneStyles[i := c.palette.laneStyles[i]] == c.palette.laneStyles;
    case HitStyleAt(i) => assert c.palette.hitStyles[i := c.palette.hitStyles[i]] == c.palette.hitStyles;
    case LaneAt(i) => assert c.lanes[i := c.lanes[i]] == c.lanes;
    case _ =>
  }

  /** A metadata line is found as such behind any indentation, when its key starts with a
      visible character other than `[`, `$` and `+`. */
  lemma IndentedMetadataLine(st: State, indent: string, key: string, value: string, names: EnumNames, blanks: Blanks)
    requires Valid(st) && IsNullOrWhiteSpace(indent)
    requires key != [] && !IsWhiteSpace(key[0]) && key[0] !in "[$+" && ':' !in key
    ensures Step(st, indent + key + ": " + value, names, blanks) == ApplyMetadata(st, key + ": " + value)
  {
    var line := key + ": " + value;
    assert indent + key + ": " + value == indent + line;
    KeyValueLine(key, value);
    TrimStartIndented(indent, line);
    StepIsTrimmed(st, indent + line, names, blanks);
    MetadataTrimmed(st, line, names, blanks);
  }

  lemma KeyValueLine(key: string, value: string)
    requires key != [] && !IsWhiteSpace(key[0]) && key[0] !in "[$+" && ':' !in key
    ensures var line := key + ": " + value;
      line != [] && !IsWhiteSpace(line[0]) && Classify(line) == MetadataLine
  {
    var line := key + ": " + value;
    assert line[0] == key[0];
    IndexOfAfterKey(key, ": ", value);
    ClassifyByColon(line);
  }

  lemma MetadataTrimmed(st: State, t: string, names: EnumNames, blanks: Blanks)
    requires Valid(st) && Classify(t) == MetadataLine
    ensures StepTrimmed(st, t, names, blanks) == ApplyMetadata(st, t)
  {
  }

  // ---------------------------------------------------------------- version lines

  /** In VERSION, an integer line throws exactly when it is above FORMAT_VERSION. */
  lemma VersionGate(st: State, v: Int32, names: EnumNames, blanks: Blanks)
    requires Valid(st) && st.currentObject == VersionString
    ensures Step(st, FormatInt(v), names, blanks) == if v > FORMAT_VERSION then Err(NewerVersion) else Ok(st)
  {
    var line := FormatInt(v);
    IntLineIsPlain(v);
    StepOnOtherLine(st, line, names, blanks);
    VersionNumber(st, v);
  }

  lemma IntLineIsPlain(v: Int32)
    ensures TrimStart(FormatInt(v)) == FormatInt(v) && Classify(FormatInt(v)) == OtherLine
  {
    var line := FormatInt(v);
    assert IsNumeral(line[0]);
    NumeralIsNotSeparator(line[0]);
    assert ':' !in line by {
      forall i | 0 <= i < |line| ensures line[i] != ':' {
        NumeralIsNotSeparator(line[i]);
      }
    }
    PlainLineIsOther(line);
  }

  lemma VersionNumber(st: State, v: Int32)
    ensures ApplyVersion(st, FormatInt(v)) == if v > FORMAT_VERSION then Err(NewerVersion) else Ok(st)
  {
    var line := FormatInt(v);
    assert IsNumeral(line[0]);
    NumeralIsNotSeparator(line[0]);
    ParseFormatInt(v);
  }

  /** In VERSION, blank lines and lines that are not integers are skipped. */
  lemma VersionSkipsNonNumbers(st: State, line: string, names: EnumNames, blanks: Blanks)
    requires Valid(st) && st.currentObject == VersionString
    requires Classify(TrimStart(line)) == OtherLine && !IsIntText(TrimStart(line))
    ensures Step(st, line, names, blanks) == Ok(st)
  {
  }

  // ---------------------------------------------------------------- easing and beats

  /** `a/b` with `a` other than `Bezier` reads as function `a` with mode `b`, the function
      looked up first. */
  lemma EasingPair(a: string, b: string)
    requires '/' !in a && '/' !in b && a != "Bezier"
    ensures ParseEasing(a + "/" + b) ==
      var f := ParseFunction(a);
      if f.Err? then Err(f.error)
      else
        var m := ParseMode(b);
        if m.Err? then Err(m.error) else Ok(Basic(f.value, m.value))
  {
    var s := a + "/" + b;
    assert s == a + ['/'] + b;
    SplitSnoc(a, b, '/');
    SplitSingle(a, '/');
    assert Split(s, '/') == [a, b];
    assert s != "Linear" by {
      assert s[|a|] == '/' && '/' !in "Linear";
    }
  }

  /** Every function and mode, by their member names, reads back. */
  lemma EasingByName(f: EaseFunction, m: EaseMode)
    ensures ParseEasing(FunctionName(f) + "/" + ModeName(m)) == Ok(Basic(f, m))
  {
    NamesAreWords(f, m);
    ParseFunctionName(f);
    ParseModeName(m);
    EasingPair(FunctionName(f), ModeName(m));
  }

  /** `BasicEaseDirective.ToString` does not read back: its mode spellings `I`, `O` and `IO`
      are no member names. */
  lemma ShortModeNamesUnreadable(f: EaseFunction, m: EaseMode)
    requires f != Linear
    ensures ParseEasing(BasicToString(f, m)) == Err(UnknownName(ShortModeName(m)))
  {
    NamesAreWords(f, m);
    ParseFunctionName(f);
    EasingPair(FunctionName(f), ShortModeName(m));
  }

  /** Nor does the Bézier `ToString`, which has no `/`. */
  lemma BezierNameUnreadable()
    ensures ParseEasing(CUBIC_BEZIER_NAME) == Err(InvalidEasing)
  {
    BezierNameIsDistinct(Linear, In);
    SplitSingle(CUBIC_BEZIER_NAME, '/');
  }

  /** Number text holds no `b` and no `/`, so both beat notations find their marks where the
      writer put them. */
  lemma NoBeatMarks(s: string)
    requires IsNumberText(s)
    ensures 'b' !in s && '/' !in s
  {
    forall i | 0 <= i < |s| ensures s[i] != 'b' && s[i] != '/' {
      NumeralIsNotSeparator(s[i]);
    }
  }

  /** A beat `whole b numerator / denominator`: the three integers are read in turn, and the
      numerator takes the sign of the text's first character rather than the whole part's
      value, with 32-bit wrap-around. */
  lemma FractionBeat(w: string, n: string, d: string, whole: Int32, num: Int32, den: Int32)
    requires ParseInt(w) == Ok(whole) && ParseInt(n) == Ok(num) && ParseInt(d) == Ok(den)
    ensures ParseTime(w + "b" + n + "/" + d) == Ok(Fraction(whole, Wrap32(num * (if w[0] == '-' then -1 else 1)), den))
  {
    var s := w + "b" + n + "/" + d;
    NoBeatMarks(w);
    NoBeatMarks(n);
    var slash := |w| + 1 + |n|;
    assert s[..|w|] == w && s[|w|] == 'b';
    assert s[|w| + 1..slash] == n && s[slash] == '/' && s[slash + 1..] == d;
    assert s[..slash] == w + "b" + n;
    IndexOfCharAt(s, 'b', |w|);
    IndexOfCharAt(s, '/', slash);
  }

  /** A fraction written with the invariant integer texts reads back; the numerator is negated
      exactly when the whole part is negative. */
  lemma FractionBeatText(whole: Int32, num: Int32, den: Int32)
    requires num >= 0
    ensures ParseTime(FormatInt(whole) + "b" + FormatInt(num) + "/" + FormatInt(den)) ==
      Ok(Fraction(whole, if whole < 0 then -num else num, den))
  {
    ParseFormatInt(whole);
    ParseFormatInt(num);
    ParseFormatInt(den);
    FractionBeat(FormatInt(whole), FormatInt(num), FormatInt(den), whole, num, den);
    assert FormatInt(whole)[0] == '-' <==> whole < 0 by {
      if whole >= 0 {
        assert IsDigit(NatDigits(whole)[0]);
      }
    }
  }

  /** A whole part written `-0` still negates the numerator: `-0b1/2` is minus one half. */
  lemma NegativeZeroBeat()
    ensures ParseTime("-0b1/2") == Ok(Fraction(0, -1, 2))
  {
    NegativeZeroParts();
    FractionBeat("-0", "1", "2", 0, 1, 2);
  }

  lemma NegativeZeroParts()
    ensures ParseInt("-0") == Ok(0) && ParseInt("1") == Ok(1) && ParseInt("2") == Ok(2)
    ensures "-0" + "b" + "1" + "/" + "2" == "-0b1/2"
  {
    assert "-0"[1..] == "0";
  }

  /** Without a `/`, a beat is the float its text spells with `b` read as the decimal point. */
  lemma DecimalBeat(s: string)
    requires '/' !in s
    ensures var f := ParseFloat(ReplaceChar(s, 'b', '.'));
      ParseTime(s) == if f.Ok? then Ok(FromFloat(f.value)) else Err(f.error)
  {
  }

  /** A float written with `b` in place of its point reads back as that float. */
  lemma DecimalBeatText(f: Float)
    ensures ParseTime(ReplaceChar(FormatFloat(f), '.', 'b')) == Ok(FromFloat(f))
  {
    var t := FormatFloat(f);
    FormatFloatIsNumberText(f);
    NoBeatMarks(t);
    var s := ReplaceChar(t, '.', 'b');
    assert '/' !in s by {
      forall i | 0 <= i < |s| ensures s[i] != '/' {
        assert t[i] != '/';
      }
    }
    assert ReplaceChar(s, 'b', '.') == t;
    ParseFormatFloat(f);
    DecimalBeat(s);
  }
}
