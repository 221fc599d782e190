/** Reading back what the song encoder writes: the decoder, given the encoder's text, reads
    every line without an error and returns the song, up to what the format does not carry
    and what the decoder keeps from its blank objects. */
module SongRoundTrip {
  import opened Results
  import opened Text
  import opened Numbers
  import opened Values
  import opened SongInfo
  import opened LineFold
  import opened JAPSDecoder
  import opened JAPSDecoderProperties
  import opened SongLines
  import E = JAPSEncoder

  // ---------------------------------------------------------------- what is read back

  /** An alternative name is written only when it is not blank; otherwise the blank's stays. */
  function AltOr(written: string, blank: string): string {
    if !IsNullOrWhiteSpace(written) then written else blank
  }

  /** A vector written as two numbers reads back with a zero z. */
  function Flat(v: Vec3): Vec3 {
    Vec3(v.x, v.y, ZERO)
  }

  /** A layer reads back with all its fields; it tiles when it was written tiling or the
      blank layer tiles, since only a `Tiling` line sets the flag. */
  function LayerReadBack(l: CoverLayer, blank: CoverLayer): CoverLayer {
    CoverLayer(l.target, l.scale, l.position, l.parallaxFactor, l.tiling || blank.tiling)
  }

  function LayersReadBack(layers: seq<CoverLayer>, blank: CoverLayer): (r: seq<CoverLayer>)
    ensures |r| == |layers| && forall i :: 0 <= i < |layers| ==> r[i] == LayerReadBack(layers[i], blank)
  {
    seq(|layers|, i requires 0 <= i < |layers| => LayerReadBack(layers[i], blank))
  }

  /** The song the decoder returns for the encoder's text of `s`. The alternative song name
      is not written, so the blank song's stays; the clip path is the clip name written; the
      cover artist carries the space written behind it; the lists are appended to the blank
      song's layers and charts, while its stops are cleared before reading. */
  function ExpectedSong(s: PlayableSong, clipName: string, blanks: SongBlanks): PlayableSong {
    var b := blanks.song;
    PlayableSong(
      s.songName, b.altSongName, s.songArtist, AltOr(s.altSongArtist, b.altSongArtist),
      s.genre, s.location, Flat(s.previewRange), clipName,
      s.backgroundColor, s.interfaceColor,
      Cover(s.cover.artistName + " ", AltOr(s.cover.altArtistName, b.cover.altArtistName),
            s.cover.backgroundColor, s.cover.iconTarget, Flat(s.cover.iconCenter), s.cover.iconSize,
            b.cover.layers + LayersReadBack(s.cover.layers, blanks.layer)),
      TempoMap(s.timing.stops),
      b.charts + s.charts)
  }

  // ---------------------------------------------------------------- reading line by line

  lemma ReadsNothing(blanks: SongBlanks, st: ValidState)
    ensures Reads(Stepper(blanks), st, [], st)
  {
  }

  /** One more line read with `Step` extends what has been read. */
  lemma ReadsNext(blanks: SongBlanks, s1: ValidState, lines: seq<string>, s2: ValidState, line: string, s3: ValidState)
    requires Reads(Stepper(blanks), s1, lines, s2) && Step(s2, line, blanks) == Ok(s3)
    ensures Reads(Stepper(blanks), s1, lines + [line], s3)
  {
    assert Stepper(blanks)(s2, line) == Ok(s3);
    FoldSnoc(Stepper(blanks), s1, lines, line);
  }

  lemma ReadsLine(blanks: SongBlanks, st: ValidState, line: string, st': ValidState)
    requires Step(st, line, blanks) == Ok(st')
    ensures Reads(Stepper(blanks), st, [line], st')
  {
    assert Stepper(blanks)(st, line) == Ok(st');
    ReadsOne(Stepper(blanks), st, line, st');
  }

  lemma ReadsBoth(blanks: SongBlanks, s1: ValidState, a: seq<string>, s2: ValidState, b: seq<string>, s3: ValidState)
    requires Reads(Stepper(blanks), s1, a, s2) && Reads(Stepper(blanks), s2, b, s3)
    ensures Reads(Stepper(blanks), s1, a + b, s3)
  {
    ReadsThen(Stepper(blanks), s1, a, s2, b, s3);
  }

  // ---------------------------------------------------------------- metadata lines

  /** `prefix` is the written `key: ` of a line whose key the decoder reads as written. */
  predicate Key(prefix: string, key: string) {
    && prefix == key + ": "
    && key != [] && !IsWhiteSpace(key[0]) && key[0] !in "[+" && ':' !in key
  }

  lemma SongKeys()
    ensures Key("Name: ", "Name") && Key("Artist: ", "Artist") && Key("Alt Artist: ", "Alt Artist")
    ensures Key("Genre: ", "Genre") && Key("Location: ", "Location")
  {
  }

  lemma MoreSongKeys()
    ensures Key("Preview Range: ", "Preview Range") && Key("Clip: ", "Clip")
    ensures Key("Background: ", "Background") && Key("Interface: ", "Interface")
  {
  }

  lemma CoverKeys()
    ensures Key("Icon: ", "Icon") && Key("Icon Center: ", "Icon Center") && Key("Icon Size: ", "Icon Size")
  {
  }

  lemma ChartKeys()
    ensures Key("Target: ", "Target") && Key("Index: ", "Index") && Key("Charter: ", "Charter")
    ensures Key("Level: ", "Level") && Key("Constant: ", "Constant")
  {
  }

  /** A field line, indented or not, sets the field its key names in the current object. */
  lemma FieldStep(st: ValidState, indent: string, prefix: string, key: string, value: string,
                  blanks: SongBlanks, s': PlayableSong)
    requires IsNullOrWhiteSpace(indent) && Key(prefix, key)
    requires SetField(st.song, st.currentObject, key, value) == Ok(s')
    ensures Valid(st.(song := s'))
    ensures Step(st, indent + prefix + value, blanks) == Ok(st.(song := s'))
  {
    AppendAssoc(indent, key, ": ");
    IndentedMetadataLine(st, indent, key, value, blanks);
    MetadataLineRouting(st, key, value);
  }

  lemma PlainFieldStep(st: ValidState, prefix: string, key: string, value: string,
                       blanks: SongBlanks, s': PlayableSong)
    requires Key(prefix, key)
    requires SetField(st.song, st.currentObject, key, value) == Ok(s')
    ensures Valid(st.(song := s'))
    ensures Step(st, prefix + value, blanks) == Ok(st.(song := s'))
  {
    var line := key + ": " + value;
    assert prefix + value == line;
    assert line[0] == key[0];
    TrimStartIndented("", line);
    assert "" + line == line;
    IndexOfAfterKey(key, ": ", value);
    ClassifyByColon(line);
    StepOnMetadataLine(st, line, blanks);
    MetadataLineRouting(st, key, value);
  }

  /** Replacing the last element of a list. */
  lemma UpdateLast<T>(a: seq<T>, x: T, y: T)
    ensures (a + [x])[|a| := y] == a + [y]
  {
  }

  // ---------------------------------------------------------------- record lines

  lemma SplitAtSpace(x: string, t: string)
    requires ' ' !in t
    ensures Split(x + " " + t, ' ') == Split(x, ' ') + [t]
  {
    assert " " == [' '];
    SplitSnoc(x, t, ' ');
  }

  /** The first three tokens of a record line. */
  lemma HeadTokens(h: string, kind: string, a: string)
    requires ' ' !in h && ' ' !in kind && ' ' !in a
    ensures Split(h + " " + kind + " " + a, ' ') == [h, kind, a]
  {
    SplitAtSpace(h + " " + kind, a);
    SplitAtSpace(h, kind);
    SplitSingle(h, ' ');
  }

  lemma LayerPrefix()
    ensures Spaces(0) + "+ Layer " == "+" + " " + "Layer" + " "
  {
  }

  lemma BPMPrefix()
    ensures Spaces(0) + "+ BPM " == "+" + " " + "BPM" + " "
  {
  }

  /** A record line of six space-free tokens. */
  lemma SixTokens(h: string, kind: string, a: string, b: string, c: string, d: string)
    requires ' ' !in h && ' ' !in kind && ' ' !in a && ' ' !in b && ' ' !in c && ' ' !in d
    ensures Split(h + " " + kind + " " + a + " " + b + " " + c + " " + d, ' ') == [h, kind, a, b, c, d]
  {
    var x := h + " " + kind + " " + a;
    HeadTokens(h, kind, a);
    SplitAtSpace(x, b);
    assert Split(x + " " + b, ' ') == [h, kind, a, b];
    SplitAtSpace(x + " " + b, c);
    assert Split(x + " " + b + " " + c, ' ') == [h, kind, a, b, c];
    SplitAtSpace(x + " " + b + " " + c, d);
  }

  lemma LayerRecordText(l: CoverLayer)
    ensures LayerRecord(l) == "+" + " " + "Layer" + " " + FormatFloat(l.scale) + " " + FormatFloat(l.position.x)
      + " " + FormatFloat(l.position.y) + " " + FormatFloat(l.parallaxFactor)
  {
    var a, b, c, d := FormatFloat(l.scale), FormatFloat(l.position.x), FormatFloat(l.position.y), FormatFloat(l.parallaxFactor);
    var p := "+" + " " + "Layer" + " ";
    LayerPrefix();
    assert EncodeVector2(l.position) == b + " " + c;
    AppendAssoc(p + a + " ", b + " ", c);
    AppendAssoc(p + a + " ", b, " ");
  }

  /** A layer's record line splits into its kind and its four numbers. */
  lemma LayerTokens(l: CoverLayer)
    ensures Split(LayerRecord(l), ' ') ==
      ["+", "Layer", FormatFloat(l.scale), FormatFloat(l.position.x), FormatFloat(l.position.y), FormatFloat(l.parallaxFactor)]
  {
    NumberHasNoSpace(l.scale); NumberHasNoSpace(l.position.x);
    NumberHasNoSpace(l.position.y); NumberHasNoSpace(l.parallaxFactor);
    LayerRecordText(l);
    SixTokens("+", "Layer", FormatFloat(l.scale), FormatFloat(l.position.x), FormatFloat(l.position.y), FormatFloat(l.parallaxFactor));
  }

  lemma StopRecordText(stop: BPMStop)
    ensures StopRecord(stop) == "+" + " " + "BPM" + " " + FormatFloat(stop.offset) + " " + FormatFloat(stop.bpm)
      + " " + FormatInt(stop.signature) + " " + E.SignificantFlag(stop)
  {
    BPMPrefix();
  }

  /** A stop's record line splits into its kind, its three numbers and its flag. */
  lemma StopTokens(stop: BPMStop)
    ensures Split(StopRecord(stop), ' ') ==
      ["+", "BPM", FormatFloat(stop.offset), FormatFloat(stop.bpm), FormatInt(stop.signature), E.SignificantFlag(stop)]
  {
    NumberHasNoSpace(stop.offset); NumberHasNoSpace(stop.bpm); IntHasNoSpace(stop.signature);
    assert ' ' !in E.SignificantFlag(stop);
    StopRecordText(stop);
    SixTokens("+", "BPM", FormatFloat(stop.offset), FormatFloat(stop.bpm), FormatInt(stop.signature), E.SignificantFlag(stop));
  }

  lemma ChartRecordText()
    ensures CHART_RECORD == " " + Spaces(0) + "+ Chart"
    ensures IsNullOrWhiteSpace(" " + Spaces(0))
    ensures Split("+ Chart", ' ') == ["+", "Chart"]
  {
    assert "+ Chart" == "+" + [' '] + "Chart";
    SplitSnoc("+", "Chart", ' ');
    SplitSingle("+", ' ');
  }

  // ---------------------------------------------------------------- blocks

  /** A layer's record line appends a layer with its scale, position and parallax, and the
      blank layer's target and tiling flag, and makes it the current object. */
  lemma LayerRecordStep(blanks: SongBlanks, st: ValidState, l: CoverLayer)
    ensures var s, c := st.song, st.song.cover;
      var l0 := CoverLayer(blanks.layer.target, l.scale, l.position, l.parallaxFactor, blanks.layer.tiling);
      Step(st, LayerRecord(l), blanks) ==
        Ok(st.(song := s.(cover := c.(layers := c.layers + [l0])), currentObject := LayerAt(|c.layers|)))
  {
    var rec := LayerRecord(l);
    var tokens := Split(rec, ' ');
    LayerTokens(l);
    ParseFormatFloat(l.scale); ParseFormatFloat(l.position.x);
    ParseFormatFloat(l.position.y); ParseFormatFloat(l.parallaxFactor);
    LayerFields(tokens, blanks.layer);
    ObjectLineTable(st, tokens, blanks);
    assert rec[0] == '+' by { LayerRecordText(l); }
    ObjectLineIsObject(rec);
    StepOnObjectLine(st, rec, blanks);
  }

  /** The target line of the last layer. */
  lemma LayerTargetStep(blanks: SongBlanks, st: ValidState, layers: seq<CoverLayer>, m: CoverLayer, target: string)
    requires st.currentObject == LayerAt(|layers|) && st.song.cover.layers == layers + [m]
    ensures var s := st.song;
      Step(st, Spaces(2) + "Target: " + target, blanks) ==
        Ok(st.(song := s.(cover := s.cover.(layers := layers + [m.(target := target)]))))
  {
    var s := st.song;
    UpdateLast(layers, m, m.(target := target));
    ChartKeys();
    FieldStep(st, Spaces(2), "Target: ", "Target", target, blanks, s.(cover := s.cover.(layers := layers + [m.(target := target)])));
  }

  /** The tiling line of the last layer. */
  lemma LayerTilingStep(blanks: SongBlanks, st: ValidState, layers: seq<CoverLayer>, m: CoverLayer)
    requires st.currentObject == LayerAt(|layers|) && st.song.cover.layers == layers + [m]
    ensures var s := st.song;
      Step(st, Spaces(2) + "Tiling", blanks) ==
        Ok(st.(song := s.(cover := s.cover.(layers := layers + [m.(tiling := true)]))))
  {
    UpdateLast(layers, m, m.(tiling := true));
    TilingLine(st, Spaces(2), blanks);
  }

  /** A layer block appends one layer, read back with all its fields. */
  lemma ReadLayer(blanks: SongBlanks, st: ValidState, l: CoverLayer) returns (st': ValidState)
    ensures Reads(Stepper(blanks), st, LayerLines(l), st')
    ensures var c := st.song.cover;
      st'.song == st.song.(cover := c.(layers := c.layers + [LayerReadBack(l, blanks.layer)]))
  {
    var s, c := st.song, st.song.cover;
    var l0 := CoverLayer(blanks.layer.target, l.scale, l.position, l.parallaxFactor, blanks.layer.tiling);
    LayerRecordStep(blanks, st, l);
    var st1: ValidState := st.(song := s.(cover := c.(layers := c.layers + [l0])), currentObject := LayerAt(|c.layers|));
    ReadsLine(blanks, st, LayerRecord(l), st1);
    var target := Spaces(2) + "Target: " + l.target;
    LayerTargetStep(blanks, st1, c.layers, l0, l.target);
    var l1 := l0.(target := l.target);
    var st2: ValidState := st1.(song := st1.song.(cover := st1.song.cover.(layers := c.layers + [l1])));
    ReadsLine(blanks, st1, target, st2);
    if l.tiling {
      LayerTilingStep(blanks, st2, c.layers, l1);
      var st3: ValidState := st2.(song := st2.song.(cover := st2.song.cover.(layers := c.layers + [l1.(tiling := true)])));
      ReadsLine(blanks, st2, Spaces(2) + "Tiling", st3);
      ReadsBoth(blanks, st1, [target], st2, TilingLines(l), st3);
      st' := st3;
    } else {
      ReadsNothing(blanks, st2);
      ReadsBoth(blanks, st1, [target], st2, [], st2);
      st' := st2;
    }
    ReadsBoth(blanks, st, [LayerRecord(l)], st1, [target] + TilingLines(l), st');
  }

  /** A stop's record line appends the stop and makes it the current object. */
  lemma StopRecordStep(blanks: SongBlanks, st: ValidState, stop: BPMStop)
    ensures var s := st.song;
      Step(st, StopRecord(stop), blanks) ==
        Ok(st.(song := s.(timing := s.timing.(stops := s.timing.stops + [stop])), currentObject := StopAt(|s.timing.stops|)))
  {
    var rec := StopRecord(stop);
    var tokens := Split(rec, ' ');
    StopTokens(stop);
    ParseFormatFloat(stop.offset); ParseFormatFloat(stop.bpm); ParseFormatInt(stop.signature);
    StopFields(tokens);
    assert (E.SignificantFlag(stop) == "S") == stop.significant;
    assert ParseStop(tokens) == Ok(stop);
    ObjectLineTable(st, tokens, blanks);
    assert rec[0] == '+' by { StopRecordText(stop); }
    ObjectLineIsObject(rec);
    StepOnObjectLine(st, rec, blanks);
  }

  /** A stop block appends the stop. */
  lemma ReadStop(blanks: SongBlanks, st: ValidState, stop: BPMStop) returns (st': ValidState)
    ensures Reads(Stepper(blanks), st, StopLines(stop), st')
    ensures st'.song == st.song.(timing := st.song.timing.(stops := st.song.timing.stops + [stop]))
  {
    var s := st.song;
    StopRecordStep(blanks, st, stop);
    st' := st.(song := s.(timing := s.timing.(stops := s.timing.stops + [stop])), currentObject := StopAt(|s.timing.stops|));
    ReadsLine(blanks, st, StopRecord(stop), st');
  }

  /** A chart's record line appends the blank chart reference and makes it the current
      object. */
  lemma ChartRecordStep(blanks: SongBlanks, st: ValidState)
    ensures var s := st.song;
      Step(st, CHART_RECORD, blanks) ==
        Ok(st.(song := s.(charts := s.charts + [blanks.chart]), currentObject := ChartAt(|s.charts|)))
  {
    ChartRecordText();
    TrimStartIndented(" " + Spaces(0), "+ Chart");
    ObjectLineIsObject("+ Chart");
    StepOnObjectLine(st, CHART_RECORD, blanks);
    ObjectLineTable(st, ["+", "Chart"], blanks);
  }

  /** A field line of the last chart reference. */
  lemma ChartFieldStep(blanks: SongBlanks, st: ValidState, charts: seq<ExternalChartMeta>, m: ExternalChartMeta,
                       prefix: string, key: string, value: string, m': ExternalChartMeta)
    requires st.currentObject == ChartAt(|charts|) && st.song.charts == charts + [m]
    requires Key(prefix, key) && SetChartField(m, key, value) == Ok(m')
    ensures Step(st, Spaces(2) + prefix + value, blanks) == Ok(st.(song := st.song.(charts := charts + [m'])))
  {
    UpdateLast(charts, m, m');
    FieldStep(st, Spaces(2), prefix, key, value, blanks, st.song.(charts := charts + [m']));
  }

  /** Reading one more field line of the last chart reference. */
  lemma ReadChartField(blanks: SongBlanks, s0: ValidState, lines: seq<string>, st: ValidState,
                       charts: seq<ExternalChartMeta>, m: ExternalChartMeta,
                       prefix: string, key: string, value: string, m': ExternalChartMeta)
    returns (st': ValidState)
    requires Reads(Stepper(blanks), s0, lines, st)
    requires st.currentObject == ChartAt(|charts|) && st.song.charts == charts + [m]
    requires Key(prefix, key) && SetChartField(m, key, value) == Ok(m')
    ensures Reads(Stepper(blanks), s0, lines + [Spaces(2) + prefix + value], st')
    ensures st' == st.(song := st.song.(charts := charts + [m']))
  {
    ChartFieldStep(blanks, st, charts, m, prefix, key, value, m');
    st' := st.(song := st.song.(charts := charts + [m']));
    ReadsNext(blanks, s0, lines, st, Spaces(2) + prefix + value, st');
  }

  /** The first three chart fields as their keys set them. */
  lemma ChartHeadFields(m: ExternalChartMeta, c: ExternalChartMeta)
    ensures var m1 := m.(target := c.target); var m2 := m1.(difficultyIndex := c.difficultyIndex);
      && SetChartField(m, "Target", c.target) == Ok(m1)
      && SetChartField(m1, "Index", FormatInt(c.difficultyIndex)) == Ok(m2)
      && SetChartField(m2, "Name", c.difficultyName) == Ok(m2.(difficultyName := c.difficultyName))
  {
    ParseFormatInt(c.difficultyIndex);
  }

  /** The last three chart fields as their keys set them. */
  lemma ChartTailFields(m: ExternalChartMeta, c: ExternalChartMeta)
    ensures var m1 := m.(charterName := c.charterName); var m2 := m1.(difficultyLevel := c.difficultyLevel);
      && SetChartField(m, "Charter", c.charterName) == Ok(m1)
      && SetChartField(m1, "Level", c.difficultyLevel) == Ok(m2)
      && SetChartField(m2, "Constant", FormatFloat(c.chartConstant)) == Ok(m2.(chartConstant := c.chartConstant))
  {
    ParseFormatFloat(c.chartConstant);
  }

  lemma ChartFieldHalves(c: ExternalChartMeta)
    ensures ChartFieldLines(c)[..3] ==
      [] + [Spaces(2) + "Target: " + c.target] + [Spaces(2) + "Index: " + FormatInt(c.difficultyIndex)]
        + [Spaces(2) + "Name: " + c.difficultyName]
    ensures ChartFieldLines(c)[3..] ==
      [] + [Spaces(2) + "Charter: " + c.charterName] + [Spaces(2) + "Level: " + c.difficultyLevel]
        + [Spaces(2) + "Constant: " + FormatFloat(c.chartConstant)]
  {
  }

  /** The first three field lines of a chart reference: its target, index and name. */
  lemma ReadChartHead(blanks: SongBlanks, st: ValidState, charts: seq<ExternalChartMeta>, m: ExternalChartMeta,
                      c: ExternalChartMeta)
    returns (st': ValidState)
    requires st.currentObject == ChartAt(|charts|) && st.song.charts == charts + [m]
    ensures Reads(Stepper(blanks), st, ChartFieldLines(c)[..3], st')
    ensures st' == st.(song := st.song.(charts := charts +
      [m.(target := c.target, difficultyIndex := c.difficultyIndex, difficultyName := c.difficultyName)]))
  {
    SongKeys(); ChartKeys();
    ChartHeadFields(m, c);
    ChartFieldHalves(c);
    var m1 := m.(target := c.target);
    var m2 := m1.(difficultyIndex := c.difficultyIndex);
    ReadsNothing(blanks, st);
    var line1, line2 := Spaces(2) + "Target: " + c.target, Spaces(2) + "Index: " + FormatInt(c.difficultyIndex);
    var st1 := ReadChartField(blanks, st, [], st, charts, m, "Target: ", "Target", c.target, m1);
    var st2 := ReadChartField(blanks, st, [] + [line1], st1, charts, m1, "Index: ", "Index", FormatInt(c.difficultyIndex), m2);
    st' := ReadChartField(blanks, st, [] + [line1] + [line2], st2, charts, m2, "Name: ", "Name", c.difficultyName,
      m2.(difficultyName := c.difficultyName));
  }

  /** The last three field lines of a chart reference: its charter, level and constant. */
  lemma ReadChartTail(blanks: SongBlanks, st: ValidState, charts: seq<ExternalChartMeta>, m: ExternalChartMeta,
                      c: ExternalChartMeta)
    returns (st': ValidState)
    requires st.currentObject == ChartAt(|charts|) && st.song.charts == charts + [m]
    ensures Reads(Stepper(blanks), st, ChartFieldLines(c)[3..], st')
    ensures st' == st.(song := st.song.(charts := charts +
      [m.(charterName := c.charterName, difficultyLevel := c.difficultyLevel, chartConstant := c.chartConstant)]))
  {
    ChartKeys();
    ChartTailFields(m, c);
    ChartFieldHalves(c);
    var m1 := m.(charterName := c.charterName);
    var m2 := m1.(difficultyLevel := c.difficultyLevel);
    ReadsNothing(blanks, st);
    var line1, line2 := Spaces(2) + "Charter: " + c.charterName, Spaces(2) + "Level: " + c.difficultyLevel;
    var st1 := ReadChartField(blanks, st, [], st, charts, m, "Charter: ", "Charter", c.charterName, m1);
    var st2 := ReadChartField(blanks, st, [] + [line1], st1, charts, m1, "Level: ", "Level", c.difficultyLevel, m2);
    st' := ReadChartField(blanks, st, [] + [line1] + [line2], st2, charts, m2, "Constant: ", "Constant",
      FormatFloat(c.chartConstant), m2.(chartConstant := c.chartConstant));
  }

  /** The six field lines of a chart reference set all six of its fields. */
  lemma ReadChartFields(blanks: SongBlanks, st: ValidState, charts: seq<ExternalChartMeta>, m: ExternalChartMeta,
                        c: ExternalChartMeta)
    returns (st': ValidState)
    requires st.currentObject == ChartAt(|charts|) && st.song.charts == charts + [m]
    ensures Reads(Stepper(blanks), st, ChartFieldLines(c), st')
    ensures st'.song == st.song.(charts := charts + [c])
  {
    var st1 := ReadChartHead(blanks, st, charts, m, c);
    var m1 := m.(target := c.target, difficultyIndex := c.difficultyIndex, difficultyName := c.difficultyName);
    st' := ReadChartTail(blanks, st1, charts, m1, c);
    ReadsBoth(blanks, st, ChartFieldLines(c)[..3], st1, ChartFieldLines(c)[3..], st');
    assert ChartFieldLines(c)[..3] + ChartFieldLines(c)[3..] == ChartFieldLines(c);
  }

  /** A chart block appends the chart reference with all six of its fields. */
  lemma ReadChart(blanks: SongBlanks, st: ValidState, c: ExternalChartMeta) returns (st': ValidState)
    ensures Reads(Stepper(blanks), st, ChartLines(c), st')
    ensures st'.song == st.song.(charts := st.song.charts + [c])
  {
    var s := st.song;
    ChartRecordStep(blanks, st);
    var st1: ValidState := st.(song := s.(charts := s.charts + [blanks.chart]), currentObject := ChartAt(|s.charts|));
    ReadsLine(blanks, st, CHART_RECORD, st1);
    st' := ReadChartFields(blanks, st1, s.charts, blanks.chart, c);
    ReadsBoth(blanks, st, [CHART_RECORD], st1, ChartFieldLines(c), st');
  }

  // ---------------------------------------------------------------- loops

  lemma SnocAssoc<T>(a: seq<T>, b: seq<T>)
    requires b != []
    ensures a + b == a + b[..|b| - 1] + [b[|b| - 1]]
  {
    assert b == b[..|b| - 1] + [b[|b| - 1]];
    SeqAssoc(a, b[..|b| - 1], [b[|b| - 1]]);
  }

  lemma LayersSnoc(before: seq<CoverLayer>, layers: seq<CoverLayer>, blank: CoverLayer)
    requires layers != []
    ensures var n := |layers| - 1;
      before + LayersReadBack(layers, blank) ==
        before + LayersReadBack(layers[..n], blank) + [LayerReadBack(layers[n], blank)]
  {
    var n := |layers| - 1;
    assert LayersReadBack(layers, blank) == LayersReadBack(layers[..n], blank) + [LayerReadBack(layers[n], blank)];
    SeqAssoc(before, LayersReadBack(layers[..n], blank), [LayerReadBack(layers[n], blank)]);
  }

  lemma {:induction false} ReadLayers(blanks: SongBlanks, st: ValidState, layers: seq<CoverLayer>) returns (st': ValidState)
    ensures Reads(Stepper(blanks), st, Flatten(LayerLists(layers)), st')
    ensures var c := st.song.cover;
      st'.song == st.song.(cover := c.(layers := c.layers + LayersReadBack(layers, blanks.layer)))
    decreases |layers|
  {
    var c := st.song.cover;
    if layers == [] {
      assert LayerLists(layers) == [];
      ReadsNothing(blanks, st);
      assert c.layers + LayersReadBack(layers, blanks.layer) == c.layers;
      st' := st;
    } else {
      var n := |layers| - 1;
      var front := layers[..n];
      var mid := ReadLayers(blanks, st, front);
      st' := ReadLayer(blanks, mid, layers[n]);
      var lists := LayerLists(layers);
      assert lists[..n] == LayerLists(front);
      FlattenLast(lists);
      ReadsBoth(blanks, st, Flatten(LayerLists(front)), mid, LayerLines(layers[n]), st');
      LayersSnoc(c.layers, layers, blanks.layer);
    }
  }

  lemma {:induction false} ReadStops(blanks: SongBlanks, st: ValidState, stops: seq<BPMStop>) returns (st': ValidState)
    ensures Reads(Stepper(blanks), st, Flatten(StopLists(stops)), st')
    ensures st'.song == st.song.(timing := st.song.timing.(stops := st.song.timing.stops + stops))
    decreases |stops|
  {
    var t := st.song.timing;
    if stops == [] {
      assert StopLists(stops) == [];
      ReadsNothing(blanks, st);
      assert t.stops + stops == t.stops;
      st' := st;
    } else {
      var n := |stops| - 1;
      var front := stops[..n];
      var mid := ReadStops(blanks, st, front);
      st' := ReadStop(blanks, mid, stops[n]);
      var lists := StopLists(stops);
      assert lists[..n] == StopLists(front);
      FlattenLast(lists);
      ReadsBoth(blanks, st, Flatten(StopLists(front)), mid, StopLines(stops[n]), st');
      SnocAssoc(t.stops, stops);
    }
  }

  lemma {:induction false} ReadCharts(blanks: SongBlanks, st: ValidState, charts: seq<ExternalChartMeta>) returns (st': ValidState)
    ensures Reads(Stepper(blanks), st, Flatten(ChartLists(charts)), st')
    ensures st'.song == st.song.(charts := st.song.charts + charts)
    decreases |charts|
  {
    if charts == [] {
      assert ChartLists(charts) == [];
      ReadsNothing(blanks, st);
      assert st.song.charts + charts == st.song.charts;
      st' := st;
    } else {
      var n := |charts| - 1;
      var front := charts[..n];
      var mid := ReadCharts(blanks, st, front);
      st' := ReadChart(blanks, mid, charts[n]);
      var lists := ChartLists(charts);
      assert lists[..n] == ChartLists(front);
      FlattenLast(lists);
      ReadsBoth(blanks, st, Flatten(ChartLists(front)), mid, ChartLines(charts[n]), st');
      SnocAssoc(st.song.charts, charts);
    }
  }

  // ---------------------------------------------------------------- sections

  /** Reading one more `key: value` line of the current object. */
  lemma ReadField(blanks: SongBlanks, s0: ValidState, lines: seq<string>, st: ValidState,
                  prefix: string, key: string, value: string, s': PlayableSong)
    returns (st': ValidState)
    requires Reads(Stepper(blanks), s0, lines, st)
    requires Key(prefix, key) && SetField(st.song, st.currentObject, key, value) == Ok(s')
    ensures Reads(Stepper(blanks), s0, lines + [prefix + value], st')
    ensures st' == st.(song := s')
  {
    PlainFieldStep(st, prefix, key, value, blanks, s');
    st' := st.(song := s');
    ReadsNext(blanks, s0, lines, st, prefix + value, st');
  }

  /** Reading one more empty line. */
  lemma ReadEmpty(blanks: SongBlanks, s0: ValidState, lines: seq<string>, st: ValidState)
    requires Reads(Stepper(blanks), s0, lines, st)
    ensures Reads(Stepper(blanks), s0, lines + [""], st)
  {
    EmptyLineIsIgnored(st, blanks);
    ReadsNext(blanks, s0, lines, st, "", st);
  }

  /** Reading a section header, from any state. */
  lemma ReadSection(blanks: SongBlanks, st: ValidState, name: string, t: Target) returns (st': ValidState)
    requires ApplySection(st, name) == Ok(st.(mode := name, currentObject := t))
    ensures Reads(Stepper(blanks), st, ["[" + name + "]"], st')
    ensures st' == st.(mode := name, currentObject := t)
  {
    SectionLine(st, name, blanks);
    st' := st.(mode := name, currentObject := t);
    ReadsLine(blanks, st, "[" + name + "]", st');
  }

  /** The `Alt Artist` line, when it is written, sets the alternative artist of the current
      object. */
  lemma ReadAlt(blanks: SongBlanks, s0: ValidState, lines: seq<string>, st: ValidState, alt: string, s': PlayableSong)
    returns (st': ValidState)
    requires Reads(Stepper(blanks), s0, lines, st)
    requires SetField(st.song, st.currentObject, "Alt Artist", alt) == Ok(s')
    ensures Reads(Stepper(blanks), s0, lines + AltLines(alt), st')
    ensures st' == if !IsNullOrWhiteSpace(alt) then st.(song := s') else st
  {
    SongKeys();
    if !IsNullOrWhiteSpace(alt) {
      st' := ReadField(blanks, s0, lines, st, "Alt Artist: ", "Alt Artist", alt, s');
    } else {
      assert lines + AltLines(alt) == lines;
      st' := st;
    }
  }

  /** The version section: the title and the repository line are skipped, and the format
      version written is one the decoder accepts. */
  lemma ReadPreamble(blanks: SongBlanks, st: ValidState) returns (st': ValidState)
    requires st.currentObject == Nothing
    ensures Reads(Stepper(blanks), st, [TITLE] + PreambleLines(), st')
    ensures st'.song == st.song
  {
    var repo := "github.com/FFF40/JANOARG";
    PlainWords();
    WordStep(st, "", TITLE, blanks);
    WordStep(st, "", repo, blanks);
    ReadsLine(blanks, st, "" + TITLE, st);
    ReadsNext(blanks, st, ["" + TITLE], st, "" + repo, st);
    ReadEmpty(blanks, st, ["" + TITLE] + ["" + repo], st);
    var lines := ["" + TITLE] + ["" + repo] + [""];
    SectionTable(st, "VERSION");
    var sv := ReadSection(blanks, st, "VERSION", VersionString);
    ReadsBoth(blanks, st, lines, st, ["[" + "VERSION" + "]"], sv);
    VersionGate(sv, E.FORMAT_VERSION, blanks);
    ReadsNext(blanks, st, lines + ["[" + "VERSION" + "]"], sv, FormatInt(E.FORMAT_VERSION), sv);
    ReadEmpty(blanks, st, lines + ["[" + "VERSION" + "]"] + [FormatInt(E.FORMAT_VERSION)], sv);
    st' := sv;
    PreambleList(repo, lines + ["[" + "VERSION" + "]"] + [FormatInt(E.FORMAT_VERSION)] + [""]);
  }

  lemma PlainWords()
    ensures var repo := "github.com/FFF40/JANOARG";
      && TITLE != [] && !IsWhiteSpace(TITLE[0]) && TITLE[0] !in "[+" && ':' !in TITLE
      && repo != [] && !IsWhiteSpace(repo[0]) && repo[0] !in "[+" && ':' !in repo
  {
  }

  lemma PreambleList(repo: string, lines: seq<string>)
    requires repo == "github.com/FFF40/JANOARG"
    requires lines == ["" + TITLE] + ["" + repo] + [""] + ["[" + "VERSION" + "]"] + [FormatInt(E.FORMAT_VERSION)] + [""]
    ensures lines == [TITLE] + PreambleLines()
  {
    assert "" + TITLE == TITLE && "" + repo == repo;
    assert "[" + "VERSION" + "]" == "[VERSION]";
  }

  /** The song fields of METADATA and RESOURCES as their keys set them. */
  lemma SongFields(g: PlayableSong, s: PlayableSong, clipName: string)
    ensures SetField(g, SongObject, "Name", s.songName) == Ok(g.(songName := s.songName))
    ensures SetField(g, SongObject, "Artist", s.songArtist) == Ok(g.(songArtist := s.songArtist))
    ensures SetField(g, SongObject, "Alt Artist", s.altSongArtist) == Ok(g.(altSongArtist := s.altSongArtist))
    ensures SetField(g, SongObject, "Genre", s.genre) == Ok(g.(genre := s.genre))
    ensures SetField(g, SongObject, "Location", s.location) == Ok(g.(location := s.location))
    ensures SetField(g, SongObject, "Clip", clipName) == Ok(g.(clipPath := clipName))
  {
  }

  /** A field whose value is parsed: the key sets it to the parsed value. */
  lemma SetPreviewRange(g: PlayableSong, text: string, v: Vec3)
    requires ParseVector(text) == Ok(v)
    ensures SetField(g, SongObject, "Preview Range", text) == Ok(g.(previewRange := v))
  {
  }

  lemma SetSongBackground(g: PlayableSong, text: string, c: Color)
    requires ParseColor(text) == Ok(c)
    ensures SetField(g, SongObject, "Background", text) == Ok(g.(backgroundColor := c))
  {
  }

  lemma SetSongInterface(g: PlayableSong, text: string, c: Color)
    requires ParseColor(text) == Ok(c)
    ensures SetField(g, SongObject, "Interface", text) == Ok(g.(interfaceColor := c))
  {
  }

  /** METADATA: the song's name and artists. */
  lemma ReadMetadataHead(blanks: SongBlanks, st: ValidState, s: PlayableSong) returns (st': ValidState)
    ensures Reads(Stepper(blanks), st, ["[" + "METADATA" + "]"] + ["Name: " + s.songName] + ["Artist: " + s.songArtist]
      + AltLines(s.altSongArtist), st')
    ensures st'.currentObject == SongObject
    ensures st'.song == st.song.(songName := s.songName, songArtist := s.songArtist,
      altSongArtist := AltOr(s.altSongArtist, st.song.altSongArtist))
  {
    SongKeys();
    SectionTable(st, "METADATA");
    var st1 := ReadSection(blanks, st, "METADATA", SongObject);
    SongFields(st1.song, s, "");
    var L1 := ["[" + "METADATA" + "]"];
    var st2 := ReadField(blanks, st, L1, st1, "Name: ", "Name", s.songName, st1.song.(songName := s.songName));
    var L2 := L1 + ["Name: " + s.songName];
    SongFields(st2.song, s, "");
    var st3 := ReadField(blanks, st, L2, st2, "Artist: ", "Artist", s.songArtist, st2.song.(songArtist := s.songArtist));
    var L3 := L2 + ["Artist: " + s.songArtist];
    SongFields(st3.song, s, "");
    st' := ReadAlt(blanks, st, L3, st3, s.altSongArtist, st3.song.(altSongArtist := s.altSongArtist));
  }

  /** METADATA: the genre, the location and the preview range, read back with a zero z. */
  lemma ReadMetadataTail(blanks: SongBlanks, st: ValidState, s: PlayableSong) returns (st': ValidState)
    requires st.currentObject == SongObject
    ensures Reads(Stepper(blanks), st, [] + ["Genre: " + s.genre] + ["Location: " + s.location]
      + ["Preview Range: " + E.EncodeVector(s.previewRange)] + [""], st')
    ensures st'.song == st.song.(genre := s.genre, location := s.location, previewRange := Flat(s.previewRange))
  {
    SongKeys(); MoreSongKeys();
    ReadsNothing(blanks, st);
    SongFields(st.song, s, "");
    var st1 := ReadField(blanks, st, [], st, "Genre: ", "Genre", s.genre, st.song.(genre := s.genre));
    var L1 := [] + ["Genre: " + s.genre];
    SongFields(st1.song, s, "");
    var st2 := ReadField(blanks, st, L1, st1, "Location: ", "Location", s.location, st1.song.(location := s.location));
    var L2 := L1 + ["Location: " + s.location];
    ParseVectorOfTwo(Vec2(s.previewRange.x, s.previewRange.y));
    SetPreviewRange(st2.song, E.EncodeVector(s.previewRange), Flat(s.previewRange));
    st' := ReadField(blanks, st, L2, st2, "Preview Range: ", "Preview Range", E.EncodeVector(s.previewRange),
      st2.song.(previewRange := Flat(s.previewRange)));
    ReadEmpty(blanks, st, L2 + ["Preview Range: " + E.EncodeVector(s.previewRange)], st');
  }

  lemma MetadataList(s: PlayableSong)
    ensures MetadataLines(s) ==
      (["[" + "METADATA" + "]"] + ["Name: " + s.songName] + ["Artist: " + s.songArtist] + AltLines(s.altSongArtist))
      + ([] + ["Genre: " + s.genre] + ["Location: " + s.location] + ["Preview Range: " + E.EncodeVector(s.previewRange)] + [""])
  {
    assert "[" + "METADATA" + "]" == "[METADATA]";
  }

  /** METADATA sets the song's name, artists, genre, location and preview range. */
  lemma ReadMetadata(blanks: SongBlanks, st: ValidState, s: PlayableSong) returns (st': ValidState)
    ensures Reads(Stepper(blanks), st, MetadataLines(s), st')
    ensures st'.song == st.song.(songName := s.songName, songArtist := s.songArtist,
      altSongArtist := AltOr(s.altSongArtist, st.song.altSongArtist), genre := s.genre, location := s.location,
      previewRange := Flat(s.previewRange))
  {
    var st1 := ReadMetadataHead(blanks, st, s);
    st' := ReadMetadataTail(blanks, st1, s);
    MetadataList(s);
    ReadsBoth(blanks, st, ["[" + "METADATA" + "]"] + ["Name: " + s.songName] + ["Artist: " + s.songArtist]
      + AltLines(s.altSongArtist), st1,
      [] + ["Genre: " + s.genre] + ["Location: " + s.location] + ["Preview Range: " + E.EncodeVector(s.previewRange)] + [""], st');
  }

  /** RESOURCES sets the clip path to the clip name written. */
  lemma ReadResources(blanks: SongBlanks, st: ValidState, clipName: string) returns (st': ValidState)
    ensures Reads(Stepper(blanks), st, ResourcesLines(clipName), st')
    ensures st'.song == st.song.(clipPath := clipName)
  {
    MoreSongKeys();
    SectionTable(st, "RESOURCES");
    var st1 := ReadSection(blanks, st, "RESOURCES", SongObject);
    SongFields(st1.song, st1.song, clipName);
    st' := ReadField(blanks, st, ["[" + "RESOURCES" + "]"], st1, "Clip: ", "Clip", clipName, st1.song.(clipPath := clipName));
    ReadEmpty(blanks, st, ["[" + "RESOURCES" + "]"] + ["Clip: " + clipName], st');
    ResourcesList(clipName);
  }

  lemma ResourcesList(clipName: string)
    ensures ["[" + "RESOURCES" + "]"] + ["Clip: " + clipName] + [""] == ResourcesLines(clipName)
  {
    assert "[" + "RESOURCES" + "]" == "[RESOURCES]";
  }

  /** COLORS sets the song's background and interface colours. */
  lemma ReadColors(blanks: SongBlanks, st: ValidState, s: PlayableSong) returns (st': ValidState)
    ensures Reads(Stepper(blanks), st, ColorsLines(s), st')
    ensures st'.song == st.song.(backgroundColor := s.backgroundColor, interfaceColor := s.interfaceColor)
  {
    MoreSongKeys();
    SectionTable(st, "COLORS");
    var st1 := ReadSection(blanks, st, "COLORS", SongObject);
    var L1 := ["[" + "COLORS" + "]"];
    var bg, fg := EncodeColor(s.backgroundColor), EncodeColor(s.interfaceColor);
    ParseEncodeColor(s.backgroundColor);
    ParseEncodeColor(s.interfaceColor);
    SetSongBackground(st1.song, bg, s.backgroundColor);
    var st2 := ReadField(blanks, st, L1, st1, "Background: ", "Background", bg, st1.song.(backgroundColor := s.backgroundColor));
    var L2 := L1 + ["Background: " + bg];
    SetSongInterface(st2.song, fg, s.interfaceColor);
    st' := ReadField(blanks, st, L2, st2, "Interface: ", "Interface", fg, st2.song.(interfaceColor := s.interfaceColor));
    ReadEmpty(blanks, st, L2 + ["Interface: " + fg], st');
    ColorsList(s, L2 + ["Interface: " + fg] + [""]);
  }

  lemma ColorsList(s: PlayableSong, lines: seq<string>)
    requires lines == ["[" + "COLORS" + "]"] + ["Background: " + EncodeColor(s.backgroundColor)]
      + ["Interface: " + EncodeColor(s.interfaceColor)] + [""]
    ensures lines == ColorsLines(s)
  {
    assert "[" + "COLORS" + "]" == "[COLORS]";
  }

  /** The cover fields as their keys set them. */
  lemma SetCoverText(g: PlayableSong, artist: string, alt: string, icon: string)
    ensures SetField(g, CoverObject, "Artist", artist) == Ok(g.(cover := g.cover.(artistName := artist)))
    ensures SetField(g, CoverObject, "Alt Artist", alt) == Ok(g.(cover := g.cover.(altArtistName := alt)))
    ensures SetField(g, CoverObject, "Icon", icon) == Ok(g.(cover := g.cover.(iconTarget := icon)))
  {
  }

  lemma SetCoverBackground(g: PlayableSong, text: string, c: Color)
    requires ParseColor(text) == Ok(c)
    ensures SetField(g, CoverObject, "Background", text) == Ok(g.(cover := g.cover.(backgroundColor := c)))
  {
  }

  lemma SetIconCenter(g: PlayableSong, text: string, v: Vec3)
    requires ParseVector(text) == Ok(v)
    ensures SetField(g, CoverObject, "Icon Center", text) == Ok(g.(cover := g.cover.(iconCenter := v)))
  {
  }

  lemma SetIconSize(g: PlayableSong, text: string, f: Float)
    requires ParseFloat(text) == Ok(f)
    ensures SetField(g, CoverObject, "Icon Size", text) == Ok(g.(cover := g.cover.(iconSize := f)))
  {
  }

  /** COVER: the artist, with the space written behind it, and the alternative artist. */
  lemma ReadCoverHead(blanks: SongBlanks, st: ValidState, c: Cover) returns (st': ValidState)
    ensures Reads(Stepper(blanks), st, ["[" + "COVER" + "]"] + ["Artist: " + (c.artistName + " ")]
      + AltLines(c.altArtistName), st')
    ensures st'.currentObject == CoverObject
    ensures var k := st.song.cover;
      st'.song == st.song.(cover := k.(artistName := c.artistName + " ",
                                       altArtistName := AltOr(c.altArtistName, k.altArtistName)))
  {
    SongKeys();
    SectionTable(st, "COVER");
    var st1 := ReadSection(blanks, st, "COVER", CoverObject);
    var artist := c.artistName + " ";
    SetCoverText(st1.song, artist, c.altArtistName, "");
    var g := st1.song.(cover := st1.song.cover.(artistName := artist));
    var st2 := ReadField(blanks, st, ["[" + "COVER" + "]"], st1, "Artist: ", "Artist", artist, g);
    SetCoverText(g, artist, c.altArtistName, "");
    st' := ReadAlt(blanks, st, ["[" + "COVER" + "]"] + ["Artist: " + artist], st2, c.altArtistName,
      g.(cover := g.cover.(altArtistName := c.altArtistName)));
  }

  /** COVER: the background colour, the icon, and the icon's centre and size. */
  lemma ReadCoverTail(blanks: SongBlanks, st: ValidState, c: Cover) returns (st': ValidState)
    requires st.currentObject == CoverObject
    ensures Reads(Stepper(blanks), st, [] + ["Background: " + EncodeColor(c.backgroundColor)] + ["Icon: " + c.iconTarget]
      + ["Icon Center: " + E.EncodeVector(c.iconCenter)] + ["Icon Size: " + FormatFloat(c.iconSize)], st')
    ensures st'.song == st.song.(cover := st.song.cover.(backgroundColor := c.backgroundColor, iconTarget := c.iconTarget,
      iconCenter := Flat(c.iconCenter), iconSize := c.iconSize))
  {
    MoreSongKeys(); CoverKeys();
    ReadsNothing(blanks, st);
    var bg, center, size := EncodeColor(c.backgroundColor), E.EncodeVector(c.iconCenter), FormatFloat(c.iconSize);
    ParseEncodeColor(c.backgroundColor);
    SetCoverBackground(st.song, bg, c.backgroundColor);
    var g1 := st.song.(cover := st.song.cover.(backgroundColor := c.backgroundColor));
    var st1 := ReadField(blanks, st, [], st, "Background: ", "Background", bg, g1);
    var L1 := [] + ["Background: " + bg];
    SetCoverText(g1, "", "", c.iconTarget);
    var g2 := g1.(cover := g1.cover.(iconTarget := c.iconTarget));
    var st2 := ReadField(blanks, st, L1, st1, "Icon: ", "Icon", c.iconTarget, g2);
    var L2 := L1 + ["Icon: " + c.iconTarget];
    ParseVectorOfTwo(Vec2(c.iconCenter.x, c.iconCenter.y));
    SetIconCenter(g2, center, Flat(c.iconCenter));
    var g3 := g2.(cover := g2.cover.(iconCenter := Flat(c.iconCenter)));
    var st3 := ReadField(blanks, st, L2, st2, "Icon Center: ", "Icon Center", center, g3);
    ParseFormatFloat(c.iconSize);
    SetIconSize(g3, size, c.iconSize);
    st' := ReadField(blanks, st, L2 + ["Icon Center: " + center], st3, "Icon Size: ", "Icon Size", size,
      g3.(cover := g3.cover.(iconSize := c.iconSize)));
  }

  lemma CoverFieldList(c: Cover)
    ensures CoverFieldLines(c) ==
      (["[" + "COVER" + "]"] + ["Artist: " + (c.artistName + " ")] + AltLines(c.altArtistName))
      + ([] + ["Background: " + EncodeColor(c.backgroundColor)] + ["Icon: " + c.iconTarget]
         + ["Icon Center: " + E.EncodeVector(c.iconCenter)] + ["Icon Size: " + FormatFloat(c.iconSize)])
  {
    assert "[" + "COVER" + "]" == "[COVER]";
    AppendAssoc("Artist: ", c.artistName, " ");
  }

  /** COVER sets the cover's fields and appends its layers. */
  lemma ReadCover(blanks: SongBlanks, st: ValidState, c: Cover) returns (st': ValidState)
    ensures Reads(Stepper(blanks), st, CoverLines(c), st')
    ensures var k := st.song.cover;
      st'.song == st.song.(cover := Cover(c.artistName + " ", AltOr(c.altArtistName, k.altArtistName),
        c.backgroundColor, c.iconTarget, Flat(c.iconCenter), c.iconSize,
        k.layers + LayersReadBack(c.layers, blanks.layer)))
  {
    var st1 := ReadCoverHead(blanks, st, c);
    var st2 := ReadCoverTail(blanks, st1, c);
    CoverFieldList(c);
    ReadsBoth(blanks, st, ["[" + "COVER" + "]"] + ["Artist: " + (c.artistName + " ")] + AltLines(c.altArtistName), st1,
      [] + ["Background: " + EncodeColor(c.backgroundColor)] + ["Icon: " + c.iconTarget]
        + ["Icon Center: " + E.EncodeVector(c.iconCenter)] + ["Icon Size: " + FormatFloat(c.iconSize)], st2);
    var layers := Flatten(LayerLists(c.layers));
    st' := ReadLayers(blanks, st2, c.layers);
    ReadsBoth(blanks, st, CoverFieldLines(c), st2, layers, st');
    ReadEmpty(blanks, st, CoverFieldLines(c) + layers, st');
    ReadEmpty(blanks, st, CoverFieldLines(c) + layers + [""], st');
    SeqAssoc(CoverFieldLines(c), layers, [""]);
  }

  /** TIMING appends the stops. */
  lemma ReadTiming(blanks: SongBlanks, st: ValidState, stops: seq<BPMStop>) returns (st': ValidState)
    ensures Reads(Stepper(blanks), st, TimingLines(stops), st')
    ensures st'.song == st.song.(timing := st.song.timing.(stops := st.song.timing.stops + stops))
  {
    SectionTable(st, "TIMING");
    var st1 := ReadSection(blanks, st, "TIMING", TimingObject);
    var lines := Flatten(StopLists(stops));
    st' := ReadStops(blanks, st1, stops);
    ReadsBoth(blanks, st, ["[" + "TIMING" + "]"], st1, lines, st');
    ReadEmpty(blanks, st, ["[" + "TIMING" + "]"] + lines, st');
    ReadEmpty(blanks, st, ["[" + "TIMING" + "]"] + lines + [""], st');
    TimingList(stops);
  }

  /** CHARTS appends the chart references. */
  lemma ReadChartsSection(blanks: SongBlanks, st: ValidState, charts: seq<ExternalChartMeta>) returns (st': ValidState)
    ensures Reads(Stepper(blanks), st, ChartsLines(charts), st')
    ensures st'.song == st.song.(charts := st.song.charts + charts)
  {
    SectionTable(st, "CHARTS");
    var st1 := ReadSection(blanks, st, "CHARTS", ChartList);
    var lines := Flatten(ChartLists(charts));
    st' := ReadCharts(blanks, st1, charts);
    ReadsBoth(blanks, st, ["[" + "CHARTS" + "]"], st1, lines, st');
    ReadEmpty(blanks, st, ["[" + "CHARTS" + "]"] + lines, st');
    ChartsList(charts);
  }

  lemma TimingList(stops: seq<BPMStop>)
    ensures TimingLines(stops) == ["[" + "TIMING" + "]"] + Flatten(StopLists(stops)) + [""] + [""]
  {
    assert "[" + "TIMING" + "]" == "[TIMING]";
    SeqAssoc(["[TIMING]"], Flatten(StopLists(stops)), [""]);
  }

  lemma ChartsList(charts: seq<ExternalChartMeta>)
    ensures ChartsLines(charts) == ["[" + "CHARTS" + "]"] + Flatten(ChartLists(charts)) + [""]
  {
    assert "[" + "CHARTS" + "]" == "[CHARTS]";
    SeqAssoc(["[CHARTS]"], Flatten(ChartLists(charts)), [""]);
  }

  // ---------------------------------------------------------------- the whole song

  lemma SongListsAssoc(s: PlayableSong, clipName: string)
    ensures [TITLE] + SongLines.SongLines(s, clipName) ==
      [TITLE] + PreambleLines() + MetadataLines(s) + ResourcesLines(clipName) + CoverLines(s.cover)
        + ColorsLines(s) + TimingLines(s.timing.stops) + ChartsLines(s.charts)
  {
    var t, p, m, r := [TITLE], PreambleLines(), MetadataLines(s), ResourcesLines(clipName);
    var cv, co, ti, ch := CoverLines(s.cover), ColorsLines(s), TimingLines(s.timing.stops), ChartsLines(s.charts);
    SeqAssoc(t, p + m + r + cv + co + ti, ch);
    SeqAssoc(t, p + m + r + cv + co, ti);
    SeqAssoc(t, p + m + r + cv, co);
    SeqAssoc(t, p + m + r, cv);
    SeqAssoc(t, p + m, r);
    SeqAssoc(t, p, m);
  }

  /** The song after the first four sections: the version, METADATA, RESOURCES and COVER. */
  function FrontSong(s: PlayableSong, clipName: string, blanks: SongBlanks): PlayableSong {
    var b := blanks.song;
    b.(timing := b.timing.(stops := []),
       songName := s.songName, songArtist := s.songArtist, altSongArtist := AltOr(s.altSongArtist, b.altSongArtist),
       genre := s.genre, location := s.location, previewRange := Flat(s.previewRange), clipPath := clipName,
       cover := Cover(s.cover.artistName + " ", AltOr(s.cover.altArtistName, b.cover.altArtistName),
         s.cover.backgroundColor, s.cover.iconTarget, Flat(s.cover.iconCenter), s.cover.iconSize,
         b.cover.layers + LayersReadBack(s.cover.layers, blanks.layer)))
  }

  lemma ReadSongFront(blanks: SongBlanks, s: PlayableSong, clipName: string, st0: ValidState) returns (st': ValidState)
    requires st0 == Initial(blanks)
    ensures Reads(Stepper(blanks), st0,
      [TITLE] + PreambleLines() + MetadataLines(s) + ResourcesLines(clipName) + CoverLines(s.cover), st')
    ensures st'.song == FrontSong(s, clipName, blanks)
  {
    var st1 := ReadPreamble(blanks, st0);
    var lines := [TITLE] + PreambleLines();
    var st2 := ReadMetadata(blanks, st1, s);
    ReadsBoth(blanks, st0, lines, st1, MetadataLines(s), st2);
    lines := lines + MetadataLines(s);
    var st3 := ReadResources(blanks, st2, clipName);
    ReadsBoth(blanks, st0, lines, st2, ResourcesLines(clipName), st3);
    lines := lines + ResourcesLines(clipName);
    st' := ReadCover(blanks, st3, s.cover);
    ReadsBoth(blanks, st0, lines, st3, CoverLines(s.cover), st');
  }

  lemma ReadSongBack(blanks: SongBlanks, s: PlayableSong, st: ValidState) returns (st': ValidState)
    ensures Reads(Stepper(blanks), st, ColorsLines(s) + TimingLines(s.timing.stops) + ChartsLines(s.charts), st')
    ensures st'.song == st.song.(backgroundColor := s.backgroundColor, interfaceColor := s.interfaceColor,
      timing := st.song.timing.(stops := st.song.timing.stops + s.timing.stops), charts := st.song.charts + s.charts)
  {
    var st1 := ReadColors(blanks, st, s);
    var st2 := ReadTiming(blanks, st1, s.timing.stops);
    ReadsBoth(blanks, st, ColorsLines(s), st1, TimingLines(s.timing.stops), st2);
    st' := ReadChartsSection(blanks, st2, s.charts);
    ReadsBoth(blanks, st, ColorsLines(s) + TimingLines(s.timing.stops), st2, ChartsLines(s.charts), st');
  }

  lemma ExpectedParts(s: PlayableSong, clipName: string, blanks: SongBlanks)
    ensures var g := FrontSong(s, clipName, blanks);
      g.(backgroundColor := s.backgroundColor, interfaceColor := s.interfaceColor,
         timing := g.timing.(stops := g.timing.stops + s.timing.stops), charts := g.charts + s.charts)
      == ExpectedSong(s, clipName, blanks)
  {
    assert [] + s.timing.stops == s.timing.stops;
  }

  /** Reading the lines of the encoder's text from the initial state ends with the expected
      song. */
  lemma ReadSong(blanks: SongBlanks, s: PlayableSong, clipName: string, st0: ValidState) returns (st': ValidState)
    requires st0 == Initial(blanks)
    ensures Reads(Stepper(blanks), st0, [TITLE] + SongLines.SongLines(s, clipName), st')
    ensures st'.song == ExpectedSong(s, clipName, blanks)
  {
    var front := [TITLE] + PreambleLines() + MetadataLines(s) + ResourcesLines(clipName) + CoverLines(s.cover);
    var st1 := ReadSongFront(blanks, s, clipName, st0);
    st' := ReadSongBack(blanks, s, st1);
    ReadsBoth(blanks, st0, front, st1, ColorsLines(s) + TimingLines(s.timing.stops) + ChartsLines(s.charts), st');
    SongListsAssoc(s, clipName);
    SeqAssoc(front, ColorsLines(s) + TimingLines(s.timing.stops), ChartsLines(s.charts));
    SeqAssoc(front, ColorsLines(s), TimingLines(s.timing.stops));
    ExpectedParts(s, clipName, blanks);
  }

  /** The decoder's result for text whose lines are read without an error. */
  lemma DecodeReadLines(text: string, blanks: SongBlanks, st0: ValidState, st: ValidState)
    requires st0 == Initial(blanks) && Reads(Stepper(blanks), st0, Split(text, '\n'), st)
    ensures DecodeText(text, blanks) == Ok(st.song)
  {
  }

  /** Decoding what the encoder writes gives the song back: every field the song index
      carries is read back as written, the preview range and icon centre with a zero z, the
      cover artist with the space written behind it, and the fields the format does not
      carry (the alternative song name, blank alternative artists) and the lists' prefixes
      as the blank song has them. It holds for every song whose strings are single lines. */
  lemma DecodeEncodedSong(s: PlayableSong, clipName: string, blanks: SongBlanks)
    requires Writable(s, clipName)
    ensures DecodeText(E.SongText(s, clipName), blanks) == Ok(ExpectedSong(s, clipName, blanks))
  {
    var text := E.SongText(s, clipName);
    SplitSongText(s, clipName);
    var st0: ValidState := Initial(blanks);
    var st := ReadSong(blanks, s, clipName, st0);
    DecodeReadLines(text, blanks, st0, st);
  }
}
