/** `JAPSDecoder`: reads a JANOARG song index (`.japs`) into a playable song.

    The text is split at line breaks and read in one pass, as the chart decoder does. Each
    line, with its leading white space removed, is a section header `[NAME]`, an object line
    `+ Kind ...`, a metadata line `Key: value`, or anything else: a `Tiling` flag under a cover
    layer, a version number inside VERSION, and ignored elsewhere. The parser remembers the
    section and the object metadata lines apply to. */
module JAPSDecoder {
  import opened Results
  import opened Text
  import opened Numbers
  import opened Easing
  import opened SongInfo
  import opened LineFold
  import opened Values

  const FORMAT_VERSION: int := 2

  // ---------------------------------------------------------------- token parsers

  /** `ParseVector`: two or three space-separated numbers, z being 0 when there are only two;
      any further numbers are ignored. */
  function ParseVector(s: string): (r: Parsed<Vec3>)
    ensures r.Ok? ==> |Split(s, ' ')| >= 2
    ensures r.Ok? && |Split(s, ' ')| == 2 ==> r.value.z == ZERO
  {
    var tokens := Split(s, ' ');
    var x :- FloatAt(tokens, 0);
    var y :- FloatAt(tokens, 1);
    var z :- if |tokens| < 3 then Ok(ZERO) else ParseFloat(tokens[2]);
    Ok(Vec3(x, y, z))
  }

  /** `ParseEasing`: exactly two `/`-separated member names, a function and a mode. No caller
      of it is part of the song index. */
  function ParseEasing(s: string): (r: Parsed<(EaseFunction, EaseMode)>)
    ensures |Split(s, '/')| != 2 ==> r == Err(InvalidEasing)
    ensures r.Ok? ==> s == FunctionName(r.value.0) + "/" + ModeName(r.value.1)
  {
    var tokens := Split(s, '/');
    if |tokens| == 2 then
      var f :- ParseFunction(tokens[0]);
      var m :- ParseMode(tokens[1]);
      JoinCons(tokens[0], [tokens[1]], '/');
      assert [tokens[0]] + [tokens[1]] == tokens;
      JoinSplit(s, '/');
      Ok((f, m))
    else Err(InvalidEasing)
  }

  // ---------------------------------------------------------------- parser state

  /** What `currentObject` refers to. Layers, stops and chart references are named by their
      position, which stays valid because the decoder only ever appends. */
  datatype Target =
    | Nothing
    | VersionString
    | SongObject
    | CoverObject
    | TimingObject
    | ChartList
    | LayerAt(i: nat)
    | StopAt(i: nat)
    | ChartAt(i: nat)

  /** The target names an object that exists in `s`. */
  predicate Exists(s: PlayableSong, t: Target) {
    match t
    case LayerAt(i) => i < |s.cover.layers|
    case StopAt(i) => i < |s.timing.stops|
    case ChartAt(i) => i < |s.charts|
    case _ => true
  }

  datatype State = State(song: PlayableSong, mode: string, currentObject: Target)

  /** The current object exists (or is null, the version string or a section's object). */
  predicate Valid(st: State) {
    Exists(st.song, st.currentObject)
  }

  /** The state before the first line: a new song with its tempo stops cleared, and no
      current object. */
  function Initial(blanks: SongBlanks): (st: State)
    ensures Valid(st) && st.song.timing.stops == []
  {
    var s := blanks.song;
    State(s.(timing := s.timing.(stops := [])), "", Nothing)
  }

  // ---------------------------------------------------------------- section headers

  /** A section header selects the current object from a fixed table. */
  function ApplySection(st: State, mode: string): (r: Parsed<State>)
    requires Valid(st)
    ensures r.Ok? ==> Valid(r.value)
  {
    var st := st.(mode := mode);
    if mode == "VERSION" then Ok(st.(currentObject := VersionString))
    else if mode == "METADATA" || mode == "RESOURCES" || mode == "COLORS" then Ok(st.(currentObject := SongObject))
    else if mode == "COVER" then Ok(st.(currentObject := CoverObject))
    else if mode == "TIMING" then Ok(st.(currentObject := TimingObject))
    else if mode == "CHARTS" then Ok(st.(currentObject := ChartList))
    else Err(InvalidMode(mode))
  }

  // ---------------------------------------------------------------- object lines

  /** The layer of a `+ Layer scale x y parallax` line, its numbers read in that order. */
  function ParseLayer(tokens: seq<string>, blank: CoverLayer): (r: Parsed<CoverLayer>)
    requires |tokens| >= 6
  {
    var scale :- ParseFloat(tokens[2]);
    var x :- ParseFloat(tokens[3]);
    var y :- ParseFloat(tokens[4]);
    var parallax :- ParseFloat(tokens[5]);
    Ok(blank.(scale := scale, position := Vec2(x, y), parallaxFactor := parallax))
  }

  /** The stop of a `+ BPM offset bpm signature flag` line. The constructor's arguments, bpm
      and then offset, are read first; the stop is significant when the flag is `S`. */
  function ParseStop(tokens: seq<string>): (r: Parsed<BPMStop>)
    requires |tokens| >= 6
    ensures r.Ok? ==> r.value.significant == (tokens[5] == "S")
  {
    var bpm :- ParseFloat(tokens[3]);
    var offset :- ParseFloat(tokens[2]);
    var signature :- ParseInt(tokens[4]);
    Ok(BPMStop(offset, bpm, signature, tokens[5] == "S"))
  }

  /** A `+` line: builds the object, appends it to its list and makes it the current object.
      `tokens[1]` is read before the count is checked, so a bare `+` fails on the index. */
  function ApplyObject(st: State, tokens: seq<string>, blanks: SongBlanks): (r: Parsed<State>)
    requires Valid(st)
    ensures r.Ok? ==> Valid(r.value)
  {
    if |tokens| < 2 then Err(IndexOutOfRange)
    else
      var kind := tokens[1];
      var s := st.song;
      if kind == "Layer" then
        if |tokens| < 6 then Err(NotEnoughTokens(6, |tokens|))
        else
          var layer :- ParseLayer(tokens, blanks.layer);
          var s' := s.(cover := s.cover.(layers := s.cover.layers + [layer]));
          Ok(st.(song := s', currentObject := LayerAt(|s.cover.layers|)))
      else if kind == "BPM" then
        if |tokens| < 6 then Err(NotEnoughTokens(6, |tokens|))
        else
          var stop :- ParseStop(tokens);
          var s' := s.(timing := s.timing.(stops := s.timing.stops + [stop]));
          Ok(st.(song := s', currentObject := StopAt(|s.timing.stops|)))
      else if kind == "Chart" then
        var s' := s.(charts := s.charts + [blanks.chart]);
        Ok(st.(song := s', currentObject := ChartAt(|s.charts|)))
      else Err(InvalidObject(kind))
  }

  // ---------------------------------------------------------------- metadata lines

  /** The keys each kind of object reads; every other key is ignored. */
  function KeysOf(t: Target): set<string> {
    match t
    case SongObject =>
      {"Name", "Alt Name", "Artist", "Alt Artist", "Genre", "Location", "Preview Range", "Clip", "Background", "Interface"}
    case CoverObject => {"Artist", "Alt Artist", "Background", "Icon", "Icon Center", "Icon Size"}
    case LayerAt(_) => {"Target"}
    case ChartAt(_) => {"Target", "Index", "Name", "Charter", "Level", "Constant"}
    case _ => {}
  }

  function SetSongField(s: PlayableSong, key: string, value: string): Parsed<PlayableSong> {
    if key == "Name" then Ok(s.(songName := value))
    else if key == "Alt Name" then Ok(s.(altSongName := value))
    else if key == "Artist" then Ok(s.(songArtist := value))
    else if key == "Alt Artist" then Ok(s.(altSongArtist := value))
    else if key == "Genre" then Ok(s.(genre := value))
    else if key == "Location" then Ok(s.(location := value))
    else if key == "Preview Range" then var v :- ParseVector(value); Ok(s.(previewRange := v))
    else if key == "Clip" then Ok(s.(clipPath := value))
    else if key == "Background" then var col :- ParseColor(value); Ok(s.(backgroundColor := col))
    else if key == "Interface" then var col :- ParseColor(value); Ok(s.(interfaceColor := col))
    else Ok(s)
  }

  function SetCoverField(c: Cover, key: string, value: string): Parsed<Cover> {
    if key == "Artist" then Ok(c.(artistName := value))
    else if key == "Alt Artist" then Ok(c.(altArtistName := value))
    else if key == "Background" then var col :- ParseColor(value); Ok(c.(backgroundColor := col))
    else if key == "Icon" then Ok(c.(iconTarget := value))
    else if key == "Icon Center" then var v :- ParseVector(value); Ok(c.(iconCenter := v))
    else if key == "Icon Size" then var f :- ParseFloat(value); Ok(c.(iconSize := f))
    else Ok(c)
  }

  function SetLayerField(layer: CoverLayer, key: string, value: string): CoverLayer {
    if key == "Target" then layer.(target := value) else layer
  }

  function SetChartField(m: ExternalChartMeta, key: string, value: string): Parsed<ExternalChartMeta> {
    if key == "Target" then Ok(m.(target := value))
    else if key == "Index" then var i :- ParseInt(value); Ok(m.(difficultyIndex := i))
    else if key == "Name" then Ok(m.(difficultyName := value))
    else if key == "Charter" then Ok(m.(charterName := value))
    else if key == "Level" then Ok(m.(difficultyLevel := value))
    else if key == "Constant" then var f :- ParseFloat(value); Ok(m.(chartConstant := f))
    else Ok(m)
  }

  /** The lengths of the three lists of a song. */
  predicate SameShape(s1: PlayableSong, s2: PlayableSong) {
    && |s1.cover.layers| == |s2.cover.layers|
    && |s1.timing.stops| == |s2.timing.stops|
    && |s1.charts| == |s2.charts|
  }

  /** The `switch (currentObject)` of a metadata line: the field `key` names in the table of
      the target's kind. */
  function SetField(s: PlayableSong, t: Target, key: string, value: string): (r: Parsed<PlayableSong>)
    requires Exists(s, t)
    ensures r.Ok? ==> SameShape(s, r.value)
  {
    match t
    case SongObject =>
      var s' :- SetSongField(s, key, value);
      assert s'.cover == s.cover && s'.timing == s.timing && s'.charts == s.charts;
      Ok(s')
    case CoverObject =>
      var c :- SetCoverField(s.cover, key, value);
      assert c.layers == s.cover.layers;
      Ok(s.(cover := c))
    case LayerAt(i) => Ok(s.(cover := s.cover.(layers := s.cover.layers[i := SetLayerField(s.cover.layers[i], key, value)])))
    case ChartAt(i) => var m :- SetChartField(s.charts[i], key, value); Ok(s.(charts := s.charts[i := m]))
    case _ => Ok(s)
  }

  /** A `Key: value` line: the key is what precedes the first `": "`, the value all that
      follows it, not trimmed. */
  function ApplyMetadata(st: State, line: string): (r: Parsed<State>)
    requires Valid(st)
    ensures r.Ok? ==> Valid(r.value)
  {
    var pos := IndexOf(line, ": ");
    if pos < 0 then Ok(st)
    else
      var s :- SetField(st.song, st.currentObject, line[..pos], line[pos + 2..]);
      Ok(st.(song := s))
  }

  // ---------------------------------------------------------------- other lines

  /** Under a cover layer, the line `Tiling` sets the layer's tiling flag. */
  function ApplyTiling(st: State, i: nat, line: string): (r: State)
    requires Valid(st) && i < |st.song.cover.layers|
    ensures Valid(r) && r.currentObject == st.currentObject
  {
    if line == "Tiling" then
      var s := st.song;
      st.(song := s.(cover := s.cover.(layers := s.cover.layers[i := s.cover.layers[i].(tiling := true)])))
    else st
  }

  /** A line inside VERSION: blank lines and lines that are not integers are skipped; a
      version above FORMAT_VERSION throws. */
  function ApplyVersion(st: State, line: string): (r: Parsed<State>)
  {
    if IsNullOrWhiteSpace(line) then Ok(st)
    else
      match ParseInt(line)
      case Err(_) => Ok(st)
      case Ok(version) => if version > FORMAT_VERSION then Err(NewerVersion) else Ok(st)
  }

  // ---------------------------------------------------------------- lines

  datatype LineKind = SectionHeader | ObjectLine | MetadataLine | OtherLine

  /** The classification of a (left-trimmed) line, in the decoder's order of precedence. */
  function Classify(line: string): (k: LineKind)
    ensures k == SectionHeader <==> StartsWith(line, "[") && EndsWith(line, "]")
    ensures k == SectionHeader ==> |line| >= 2  // no one character both opens and closes it
  {
    assert StartsWith(line, "[") && EndsWith(line, "]") ==> |line| >= 2 by {
      if StartsWith(line, "[") && EndsWith(line, "]") {
        assert line[..1][0] == line[0] && line[|line| - 1..][0] == line[|line| - 1];
      }
    }
    if StartsWith(line, "[") && EndsWith(line, "]") then SectionHeader
    else if StartsWith(line, "+") then ObjectLine
    else if Contains(line, ": ") then MetadataLine
    else OtherLine
  }

  /** A parser state whose current object exists: the states the loop passes through. */
  type ValidState = st: State | Valid(st)
    witness State(
      PlayableSong("", "", "", "", "", "", Vec3(NAN, NAN, NAN), "", Color(NAN, NAN, NAN, NAN), Color(NAN, NAN, NAN, NAN),
        Cover("", "", Color(NAN, NAN, NAN, NAN), "", Vec3(NAN, NAN, NAN), NAN, []), TempoMap([]), []),
      "", Nothing)

  /** One iteration of the decoding loop: the line is trimmed at the start, then handled by
      its kind. */
  function Step(st: State, raw: string, blanks: SongBlanks): (r: Parsed<State>)
    requires Valid(st)
    ensures r.Ok? ==> Valid(r.value)
  {
    StepTrimmed(st, TrimStart(raw), blanks)
  }

  function StepTrimmed(st: State, line: string, blanks: SongBlanks): (r: Parsed<State>)
    requires Valid(st)
    ensures r.Ok? ==> Valid(r.value)
  {
    match Classify(line)
    case SectionHeader => ApplySection(st, line[1..|line| - 1])
    case ObjectLine => ApplyObject(st, Split(line, ' '), blanks)
    case MetadataLine => ApplyMetadata(st, line)
    case OtherLine =>
      match st.currentObject
      case LayerAt(i) => Ok(ApplyTiling(st, i, line))
      case VersionString => ApplyVersion(st, line)
      case _ => Ok(st)
  }

  function AsValid(r: Parsed<State>): Parsed<ValidState>
    requires r.Ok? ==> Valid(r.value)
  {
    if r.Ok? then Ok(r.value) else Err(r.error)
  }

  /** The step of the decoding loop, for the given blank objects. */
  function Stepper(blanks: SongBlanks): (ValidState, string) -> Parsed<ValidState> {
    (st: ValidState, line: string) => AsValid(Step(st, line, blanks))
  }

  /** The decoding loop over `lines`, from `st`. */
  function Run(st: ValidState, lines: seq<string>, blanks: SongBlanks): Result<ValidState, Failure> {
    Fold(Stepper(blanks), st, lines)
  }

  /** What `Decode(str)` returns or throws. */
  function DecodeText(str: string, blanks: SongBlanks): Result<PlayableSong, DecodeError> {
    var lines := Split(str, '\n');
    match Run(Initial(blanks), lines, blanks)
    case Ok(st) => Ok(st.song)
    case Err(Failure(i, cause)) => Err(DecodeError(i + 1, lines[i], cause))
  }

  /** `JAPSDecoder.Decode`: the loop over the lines, with the song, the section and the
      current object as its state. */
  method Decode(str: string, blanks: SongBlanks) returns (r: Result<PlayableSong, DecodeError>)
    ensures r == DecodeText(str, blanks)
  {
    var init: ValidState := Initial(blanks);
    var song := init.song;
    var mode := "";
    var currentObject := Nothing;
    var lines := Split(str, '\n');
    var index := 0;
    while index < |lines|
      invariant 0 <= index <= |lines|
      invariant Run(init, lines[..index], blanks) == Ok(State(song, mode, currentObject))
    {
      var st := State(song, mode, currentObject);
      FoldNext(Stepper(blanks), init, lines, index);
      var next := Step(st, lines[index], blanks);
      if next.Err? {
        FoldStopsAtFailure(Stepper(blanks), init, lines, index + 1);
        return Err(DecodeError(index + 1, lines[index], next.error));
      }
      song, mode, currentObject := next.value.song, next.value.mode, next.value.currentObject;
      index := index + 1;
    }
    assert lines[..index] == lines;
    return Ok(song);
  }
}
