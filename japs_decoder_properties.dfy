/** What the song index decoder promises, line by line. */
module JAPSDecoderProperties {
  import opened Results
  import opened Text
  import opened Numbers
  import opened Easing
  import opened SongInfo
  import opened LineFold
  import opened Values
  import opened JAPSDecoder

  // ---------------------------------------------------------------- the loop

  /** The error `Decode` reports names the 1-based number of the first line that threw, the
      text of that line as it was before trimming, and what it threw; every earlier line was
      read without an error. */
  lemma DecodeErrorPinpointsLine(str: string, blanks: SongBlanks)
    requires DecodeText(str, blanks).Err?
    ensures var e := DecodeText(str, blanks).error;
      var lines := Split(str, '\n');
      && 1 <= e.line <= |lines|
      && e.content == lines[e.line - 1]
      && Run(Initial(blanks), lines[..e.line - 1], blanks).Ok?
      && Stepper(blanks)(Run(Initial(blanks), lines[..e.line - 1], blanks).value, e.content) == Err(e.cause)
  {
    var lines := Split(str, '\n');
    var init: ValidState := Initial(blanks);
    DecodeTextFailure(str, blanks);
    FoldFailureIsFirst(Stepper(blanks), init, lines);
  }

  /** An error of `Decode` is the failure of the loop, one-based. */
  lemma DecodeTextFailure(str: string, blanks: SongBlanks)
    requires DecodeText(str, blanks).Err?
    ensures var lines := Split(str, '\n');
      var r := Run(Initial(blanks), lines, blanks);
      && r.Err?
      && DecodeText(str, blanks).error == DecodeError(r.error.index + 1, lines[r.error.index], r.error.cause)
  {
  }

  // ---------------------------------------------------------------- classification

  /** Indentation carries no meaning: white space in front of a line changes nothing. */
  lemma IndentationIgnored(st: State, ws: string, line: string, blanks: SongBlanks)
    requires Valid(st) && IsNullOrWhiteSpace(ws)
    ensures Step(st, ws + line, blanks) == Step(st, line, blanks)
  {
    TrimStartAfterWhiteSpace(ws, line);
  }

  /** A line whose first character is neither `[` nor `+` is a metadata line when it holds
      `: ` and an other line otherwise. */
  lemma ClassifyByColon(line: string)
    requires line != [] && line[0] !in "[+"
    ensures Classify(line) == if Contains(line, ": ") then MetadataLine else OtherLine
  {
    assert !StartsWith(line, "[") && !StartsWith(line, "+") by {
      assert line[..1] == [line[0]];
    }
  }

  /** A line that starts with a visible character other than `[` and `+`, and without a
      colon, is an other line. */
  lemma PlainLineIsOther(line: string)
    requires line != [] && !IsWhiteSpace(line[0]) && line[0] !in "[+" && ':' !in line
    ensures TrimStart(line) == line && Classify(line) == OtherLine
  {
    ClassifyByColon(line);
    NotContains(line, ": ");
  }

  /** A line starting with `+` is an object line, unless it is also `[`...`]`, which it cannot
      be. */
  lemma ObjectLineIsObject(line: string)
    requires line != [] && line[0] == '+'
    ensures TrimStart(line) == line && Classify(line) == ObjectLine
  {
    assert line[..1] == "+";
  }

  // ---------------------------------------------------------------- routing

  /** A line that is no section, object or metadata line sets the tiling flag under a cover
      layer, is read as a version line inside VERSION, and is ignored elsewhere. */
  lemma StepOnOtherLine(st: State, raw: string, blanks: SongBlanks)
    requires Valid(st) && Classify(TrimStart(raw)) == OtherLine
    ensures Step(st, raw, blanks) ==
      if st.currentObject.LayerAt? then Ok(ApplyTiling(st, st.currentObject.i, TrimStart(raw)))
      else if st.currentObject == VersionString then ApplyVersion(st, TrimStart(raw))
      else Ok(st)
  {
    StepIsTrimmed(st, raw, blanks);
    OtherTrimmed(st, TrimStart(raw), blanks);
  }

  lemma OtherTrimmed(st: State, t: string, blanks: SongBlanks)
    requires Valid(st) && Classify(t) == OtherLine
    ensures StepTrimmed(st, t, blanks) ==
      if st.currentObject.LayerAt? then Ok(ApplyTiling(st, st.currentObject.i, t))
      else if st.currentObject == VersionString then ApplyVersion(st, t)
      else Ok(st)
  {
  }

  /** A section header opens the section named between its brackets. */
  lemma StepOnSectionHeader(st: State, raw: string, blanks: SongBlanks)
    requires Valid(st) && Classify(TrimStart(raw)) == SectionHeader
    ensures var t := TrimStart(raw);
      |t| >= 2 && Step(st, raw, blanks) == ApplySection(st, t[1..|t| - 1])
  {
    StepIsTrimmed(st, raw, blanks);
    SectionHeaderTrimmed(st, TrimStart(raw), blanks);
  }

  lemma StepIsTrimmed(st: State, raw: string, blanks: SongBlanks)
    requires Valid(st)
    ensures Step(st, raw, blanks) == StepTrimmed(st, TrimStart(raw), blanks)
  {
  }

  lemma SectionHeaderTrimmed(st: State, t: string, blanks: SongBlanks)
    requires Valid(st) && Classify(t) == SectionHeader
    ensures |t| >= 2 && StepTrimmed(st, t, blanks) == ApplySection(st, t[1..|t| - 1])
  {
  }

  /** An object line is split at every space. */
  lemma StepOnObjectLine(st: State, raw: string, blanks: SongBlanks)
    requires Valid(st) && Classify(TrimStart(raw)) == ObjectLine
    ensures Step(st, raw, blanks) == ApplyObject(st, Split(TrimStart(raw), ' '), blanks)
  {
    StepIsTrimmed(st, raw, blanks);
    ObjectTrimmed(st, TrimStart(raw), blanks);
  }

  lemma ObjectTrimmed(st: State, t: string, blanks: SongBlanks)
    requires Valid(st) && Classify(t) == ObjectLine
    ensures StepTrimmed(st, t, blanks) == ApplyObject(st, Split(t, ' '), blanks)
  {
  }

  /** A metadata line is handed, trimmed at the start, to the key table. */
  lemma StepOnMetadataLine(st: State, raw: string, blanks: SongBlanks)
    requires Valid(st) && Classify(TrimStart(raw)) == MetadataLine
    ensures Step(st, raw, blanks) == ApplyMetadata(st, TrimStart(raw))
  {
    StepIsTrimmed(st, raw, blanks);
    MetadataTrimmed(st, TrimStart(raw), blanks);
  }

  /** A blank line never changes the state, whatever the current object. */
  lemma EmptyLineIsIgnored(st: State, blanks: SongBlanks)
    requires Valid(st)
    ensures Step(st, "", blanks) == Ok(st)
  {
    assert TrimStart("") == "";
    assert Classify("") == OtherLine by {
      assert !StartsWith("", "[") && !StartsWith("", "+") && !Contains("", ": ");
    }
    StepOnOtherLine(st, "", blanks);
    assert ApplyVersion(st, "") == Ok(st);
    if st.currentObject.LayerAt? {
      assert ApplyTiling(st, st.currentObject.i, "") == st;
    }
  }

  // ---------------------------------------------------------------- sections

  /** `[name]` is a section header for the section `name`. */
  lemma SectionLine(st: State, name: string, blanks: SongBlanks)
    requires Valid(st)
    ensures Step(st, "[" + name + "]", blanks) == ApplySection(st, name)
  {
    var line := "[" + name + "]";
    BracketedLine(name);
    StepIsTrimmed(st, line, blanks);
    SectionHeaderTrimmed(st, line, blanks);
  }

  lemma BracketedLine(name: string)
    ensures var line := "[" + name + "]";
      TrimStart(line) == line && Classify(line) == SectionHeader && line[1..|line| - 1] == name
  {
    var line := "[" + name + "]";
    assert line[0] == '[' && TrimStart(line) == line;
    assert StartsWith(line, "[") && EndsWith(line, "]");
  }

  /** The section table: seven section names are accepted and any other throws; a header
      never changes the song. VERSION selects the version string, METADATA, RESOURCES and
      COLORS the song, COVER its cover, TIMING its tempo map and CHARTS its chart list. */
  lemma SectionTable(st: State, name: string)
    requires Valid(st)
    ensures var r := ApplySection(st, name);
      && (r.Ok? <==> name in {"VERSION", "METADATA", "RESOURCES", "COVER", "COLORS", "TIMING", "CHARTS"})
      && (r.Err? ==> r.error == InvalidMode(name))
      && (r.Ok? ==> r.value.song == st.song && r.value.mode == name)
      && (name == "VERSION" ==> r.value.currentObject == VersionString)
      && (name in {"METADATA", "RESOURCES", "COLORS"} ==> r.value.currentObject == SongObject)
      && (name == "COVER" ==> r.value.currentObject == CoverObject)
      && (name == "TIMING" ==> r.value.currentObject == TimingObject)
      && (name == "CHARTS" ==> r.value.currentObject == ChartList)
  {
  }

  // ---------------------------------------------------------------- object lines

  /** The object table. A bare `+` throws on the missing kind; `Layer` and `BPM` need six
      tokens and throw with the count otherwise; `Chart` always appends a new reference; any
      other kind throws. A success appends exactly one object to the list of its kind, makes
      it the current object, and changes nothing else. */
  lemma ObjectLineTable(st: State, tokens: seq<string>, blanks: SongBlanks)
    requires Valid(st)
    ensures var r := ApplyObject(st, tokens, blanks);
      var s := st.song;
      && (|tokens| < 2 ==> r == Err(IndexOutOfRange))
      && (|tokens| >= 2 && tokens[1] !in {"Layer", "BPM", "Chart"} ==> r == Err(InvalidObject(tokens[1])))
      && (|tokens| >= 2 && tokens[1] in {"Layer", "BPM"} && |tokens| < 6 ==> r == Err(NotEnoughTokens(6, |tokens|)))
      && (|tokens| >= 2 && tokens[1] == "Chart" ==>
            r == Ok(st.(song := s.(charts := s.charts + [blanks.chart]), currentObject := ChartAt(|s.charts|))))
      && (|tokens| >= 6 && tokens[1] == "Layer" ==>
            var p := ParseLayer(tokens, blanks.layer);
            && (p.Err? ==> r == Err(p.error))
            && (p.Ok? ==> r == Ok(st.(song := s.(cover := s.cover.(layers := s.cover.layers + [p.value])),
                                      currentObject := LayerAt(|s.cover.layers|)))))
      && (|tokens| >= 6 && tokens[1] == "BPM" ==>
            var p := ParseStop(tokens);
            && (p.Err? ==> r == Err(p.error))
            && (p.Ok? ==> r == Ok(st.(song := s.(timing := s.timing.(stops := s.timing.stops + [p.value])),
                                      currentObject := StopAt(|s.timing.stops|)))))
  {
  }

  /** A layer line gives scale, position and parallax from tokens 2 to 5, and keeps the
      target and tiling flag of a new layer; any number that does not parse throws. */
  lemma LayerFields(tokens: seq<string>, blank: CoverLayer)
    requires |tokens| >= 6
    ensures var r := ParseLayer(tokens, blank);
      var scale, x, y, parallax := ParseFloat(tokens[2]), ParseFloat(tokens[3]), ParseFloat(tokens[4]), ParseFloat(tokens[5]);
      && (r.Ok? <==> scale.Ok? && x.Ok? && y.Ok? && parallax.Ok?)
      && (r.Ok? ==> r.value == CoverLayer(blank.target, scale.value, Vec2(x.value, y.value), parallax.value, blank.tiling))
  {
  }

  /** A stop line gives offset, bpm and signature from tokens 2 to 4; it is significant
      exactly when token 5 is `S`. The bpm is read first, so a line with two bad numbers
      throws about the bpm. */
  lemma StopFields(tokens: seq<string>)
    requires |tokens| >= 6
    ensures var r := ParseStop(tokens);
      var offset, bpm, sig := ParseFloat(tokens[2]), ParseFloat(tokens[3]), ParseInt(tokens[4]);
      && (r.Ok? <==> offset.Ok? && bpm.Ok? && sig.Ok?)
      && (bpm.Err? ==> r == Err(bpm.error))
      && (r.Ok? ==> r.value == BPMStop(offset.value, bpm.value, sig.value, tokens[5] == "S"))
  {
  }

  // ---------------------------------------------------------------- metadata lines

  /** A `key: value` line with a colon-free key: the key is looked up in the table of the
      current object, with the value exactly as written. */
  lemma MetadataLineRouting(st: State, key: string, value: string)
    requires Valid(st) && ':' !in key
    ensures var r := ApplyMetadata(st, key + ": " + value);
      var f := SetField(st.song, st.currentObject, key, value);
      && (f.Ok? ==> r == Ok(st.(song := f.value)))
      && (f.Err? ==> r == Err(f.error))
  {
    var line := key + ": " + value;
    IndexOfAfterKey(key, ": ", value);
    assert line[..|key|] == key;
    assert line[|key| + 2..] == value;
  }

  /** Keys outside the current object's table, and objects without a table (stops, the
      tempo map, the chart list, the version), leave the song as it was. */
  lemma UnknownKeysIgnored(s: PlayableSong, t: Target, key: string, value: string)
    requires Exists(s, t) && key !in KeysOf(t)
    ensures SetField(s, t, key, value) == Ok(s)
  {
    match t
    case LayerAt(i) => assert s.cover.layers[i := s.cover.layers[i]] == s.cover.layers;
    case ChartAt(i) => assert s.charts[i := s.charts[i]] == s.charts;
    case _ =>
  }

  /** A metadata line is found as such behind any indentation, when its key starts with a
      visible character other than `[` and `+`. */
  lemma IndentedMetadataLine(st: State, indent: string, key: string, value: string, blanks: SongBlanks)
    requires Valid(st) && IsNullOrWhiteSpace(indent)
    requires key != [] && !IsWhiteSpace(key[0]) && key[0] !in "[+" && ':' !in key
    ensures Step(st, indent + key + ": " + value, blanks) == ApplyMetadata(st, key + ": " + value)
  {
    var line := key + ": " + value;
    assert indent + key + ": " + value == indent + line;
    KeyValueLine(key, value);
    TrimStartIndented(indent, line);
    StepIsTrimmed(st, indent + line, blanks);
    MetadataTrimmed(st, line, blanks);
  }

  lemma KeyValueLine(key: string, value: string)
    requires key != [] && !IsWhiteSpace(key[0]) && key[0] !in "[+" && ':' !in key
    ensures var line := key + ": " + value;
      line != [] && !IsWhiteSpace(line[0]) && Classify(line) == MetadataLine
  {
    var line := key + ": " + value;
    assert line[0] == key[0];
    IndexOfAfterKey(key, ": ", value);
    ClassifyByColon(line);
  }

  lemma MetadataTrimmed(st: State, t: string, blanks: SongBlanks)
    requires Valid(st) && Classify(t) == MetadataLine
    ensures StepTrimmed(st, t, blanks) == ApplyMetadata(st, t)
  {
  }

  // ---------------------------------------------------------------- other lines

  /** The word `Tiling` sets the tiling flag of the current cover layer and changes nothing
      else; under any other object it is ignored. */
  lemma TilingLine(st: State, indent: string, blanks: SongBlanks)
    requires Valid(st) && IsNullOrWhiteSpace(indent)
    ensures Step(st, indent + "Tiling", blanks) ==
      match st.currentObject
      case LayerAt(i) =>
        var s := st.song;
        Ok(st.(song := s.(cover := s.cover.(layers := s.cover.layers[i := s.cover.layers[i].(tiling := true)]))))
      case _ => Ok(st)
  {
    match st.currentObject
    case LayerAt(i) =>
      WordStep(st, indent, "Tiling", blanks);
      TilingSetsFlag(st, i);
    case VersionString =>
      WordStep(st, indent, "Tiling", blanks);
      VersionIgnoresTiling(st);
    case _ =>
      WordStep(st, indent, "Tiling", blanks);
  }

  /** An indented word that is no section, object or metadata line is routed as an other
      line. */
  lemma WordStep(st: State, indent: string, word: string, blanks: SongBlanks)
    requires Valid(st) && IsNullOrWhiteSpace(indent)
    requires word != [] && !IsWhiteSpace(word[0]) && word[0] !in "[+" && ':' !in word
    ensures Step(st, indent + word, blanks) ==
      if st.currentObject.LayerAt? then Ok(ApplyTiling(st, st.currentObject.i, word))
      else if st.currentObject == VersionString then ApplyVersion(st, word)
      else Ok(st)
  {
    TrimStartIndented(indent, word);
    PlainLineIsOther(word);
    StepOnOtherLine(st, indent + word, blanks);
  }

  lemma TilingSetsFlag(st: State, i: nat)
    requires Valid(st) && i < |st.song.cover.layers|
    ensures var s := st.song;
      ApplyTiling(st, i, "Tiling") ==
        st.(song := s.(cover := s.cover.(layers := s.cover.layers[i := s.cover.layers[i].(tiling := true)])))
  {
  }

  lemma VersionIgnoresTiling(st: State)
    ensures ApplyVersion(st, "Tiling") == Ok(st)
  {
    var line := "Tiling";
    assert !IsIntText(line) by { assert !IsDigit(line[0]); }
  }

  /** Under a cover layer, an other line that is not exactly `Tiling` changes nothing: the
      flag is never cleared. */
  lemma OnlyTilingSetsTiling(st: State, raw: string, blanks: SongBlanks)
    requires Valid(st) && st.currentObject.LayerAt?
    requires Classify(TrimStart(raw)) == OtherLine && TrimStart(raw) != "Tiling"
    ensures Step(st, raw, blanks) == Ok(st)
  {
    StepOnOtherLine(st, raw, blanks);
  }

  /** In VERSION, an integer line throws exactly when it is above FORMAT_VERSION. */
  lemma VersionGate(st: State, v: Int32, blanks: SongBlanks)
    requires Valid(st) && st.currentObject == VersionString
    ensures Step(st, FormatInt(v), blanks) == if v > FORMAT_VERSION then Err(NewerVersion) else Ok(st)
  {
    var line := FormatInt(v);
    IntLineIsPlain(v);
    StepOnOtherLine(st, line, blanks);
    VersionNumber(st, v);
  }

  lemma IntLineIsPlain(v: Int32)
    ensures TrimStart(FormatInt(v)) == FormatInt(v) && Classify(FormatInt(v)) == OtherLine
  {
    var line := FormatInt(v);
    assert IsNumeral(line[0]);
    NumeralIsNotSeparator(line[0]);
    assert ':' !in line by {
      forall i | 0 <= i < |line| ensures line[i] != ':' {
        NumeralIsNotSeparator(line[i]);
      }
    }
    PlainLineIsOther(line);
  }

  lemma VersionNumber(st: State, v: Int32)
    ensures ApplyVersion(st, FormatInt(v)) == if v > FORMAT_VERSION then Err(NewerVersion) else Ok(st)
  {
    var line := FormatInt(v);
    assert IsNumeral(line[0]);
    NumeralIsNotSeparator(line[0]);
    ParseFormatInt(v);
  }

  /** In VERSION, blank lines and lines that are not integers are skipped. */
  lemma VersionSkipsNonNumbers(st: State, line: string, blanks: SongBlanks)
    requires Valid(st) && st.currentObject == VersionString
    requires Classify(TrimStart(line)) == OtherLine && !IsIntText(TrimStart(line))
    ensures Step(st, line, blanks) == Ok(st)
  {
    StepOnOtherLine(st, line, blanks);
  }

  // ---------------------------------------------------------------- values

  /** Two numbers, as the encoder writes a vector, read back with z = 0. */
  lemma ParseVectorOfTwo(v: Vec2)
    ensures ParseVector(EncodeVector2(v)) == Ok(Vec3(v.x, v.y, ZERO))
  {
    Vector2Tokens(v);
    ParseFormatFloat(v.x);
    ParseFormatFloat(v.y);
  }

  /** Three numbers read back as the three components. */
  lemma ParseVectorOfThree(v: Vec3)
    ensures ParseVector(EncodeVector2(Vec2(v.x, v.y)) + " " + FormatFloat(v.z)) == Ok(v)
  {
    var a := EncodeVector2(Vec2(v.x, v.y));
    Vector2Tokens(Vec2(v.x, v.y));
    NumberHasNoSpace(v.z);
    assert a + " " + FormatFloat(v.z) == a + [' '] + FormatFloat(v.z);
    SplitSnoc(a, FormatFloat(v.z), ' ');
    ParseFormatFloat(v.x);
    ParseFormatFloat(v.y);
    ParseFormatFloat(v.z);
  }

  /** A function and a mode, by their member names, read back. Together with the contract of
      `ParseEasing`, which spells out the text of every result, this makes the two inverse. */
  lemma EasingByName(f: EaseFunction, m: EaseMode)
    ensures ParseEasing(FunctionName(f) + "/" + ModeName(m)) == Ok((f, m))
  {
    var a, b := FunctionName(f), ModeName(m);
    NamesAreWords(f, m);
    ParseFunctionName(f);
    ParseModeName(m);
    assert a + "/" + b == a + ['/'] + b;
    SplitSnoc(a, b, '/');
    SplitSingle(a, '/');
  }
}
