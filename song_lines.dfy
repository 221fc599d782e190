/** The song index text line by line: what `JAPSEncoder.Encode` writes, as the list of lines
    that splitting it at line breaks gives back. */
module SongLines {
  import opened Text
  import opened Numbers
  import opened SongInfo
  import opened Values
  import E = JAPSEncoder

  const TITLE: string := "JANOARG Playable Song Format"

  // ---------------------------------------------------------------- the lines of each block

  /** The `Alt Artist` line, when it is written. */
  function AltLines(name: string): seq<string> {
    if !IsNullOrWhiteSpace(name) then ["Alt Artist: " + name] else []
  }

  /** The record line of a cover layer. */
  function LayerRecord(l: CoverLayer): string {
    Spaces(0) + "+ Layer " + FormatFloat(l.scale) + " " + EncodeVector2(l.position) + " " + FormatFloat(l.parallaxFactor)
  }

  /** The `Tiling` line, when it is written. */
  function TilingLines(l: CoverLayer): seq<string> {
    if l.tiling then [Spaces(2) + "Tiling"] else []
  }

  function LayerLines(l: CoverLayer): seq<string> {
    [LayerRecord(l)] + ([Spaces(2) + "Target: " + l.target] + TilingLines(l))
  }

  function StopRecord(stop: BPMStop): string {
    Spaces(0) + "+ BPM " + FormatFloat(stop.offset) + " " + FormatFloat(stop.bpm) + " "
      + FormatInt(stop.signature) + " " + E.SignificantFlag(stop)
  }

  function StopLines(stop: BPMStop): seq<string> {
    [StopRecord(stop)]
  }

  /** The field lines of a chart reference, behind its record line. */
  function ChartFieldLines(c: ExternalChartMeta): seq<string> {
    [Spaces(2) + "Target: " + c.target,
     Spaces(2) + "Index: " + FormatInt(c.difficultyIndex),
     Spaces(2) + "Name: " + c.difficultyName,
     Spaces(2) + "Charter: " + c.charterName,
     Spaces(2) + "Level: " + c.difficultyLevel,
     Spaces(2) + "Constant: " + FormatFloat(c.chartConstant)]
  }

  const CHART_RECORD: string := " " + Spaces(0) + "+ Chart"

  function ChartLines(c: ExternalChartMeta): seq<string> {
    [CHART_RECORD] + ChartFieldLines(c)
  }

  function LayerLists(layers: seq<CoverLayer>): (r: seq<seq<string>>)
    ensures |r| == |layers| && forall i :: 0 <= i < |layers| ==> r[i] == LayerLines(layers[i])
  {
    seq(|layers|, i requires 0 <= i < |layers| => LayerLines(layers[i]))
  }

  function StopLists(stops: seq<BPMStop>): (r: seq<seq<string>>)
    ensures |r| == |stops| && forall i :: 0 <= i < |stops| ==> r[i] == StopLines(stops[i])
  {
    seq(|stops|, i requires 0 <= i < |stops| => StopLines(stops[i]))
  }

  function ChartLists(charts: seq<ExternalChartMeta>): (r: seq<seq<string>>)
    ensures |r| == |charts| && forall i :: 0 <= i < |charts| ==> r[i] == ChartLines(charts[i])
  {
    seq(|charts|, i requires 0 <= i < |charts| => ChartLines(charts[i]))
  }

  // ---------------------------------------------------------------- the lines of each section

  function PreambleLines(): seq<string> {
    ["github.com/FFF40/JANOARG", "", "[VERSION]", FormatInt(E.FORMAT_VERSION), ""]
  }

  function MetadataLines(s: PlayableSong): seq<string> {
    ["[METADATA]", "Name: " + s.songName]
      + (["Artist: " + s.songArtist] + AltLines(s.altSongArtist))
      + ["Genre: " + s.genre, "Location: " + s.location, "Preview Range: " + E.EncodeVector(s.previewRange), ""]
  }

  function ResourcesLines(clipName: string): seq<string> {
    ["[RESOURCES]", "Clip: " + clipName, ""]
  }

  /** The cover's own lines, before its layers. */
  function CoverFieldLines(c: Cover): seq<string> {
    ["[COVER]"]
      + (["Artist: " + c.artistName + " "] + AltLines(c.altArtistName))
      + ["Background: " + EncodeColor(c.backgroundColor), "Icon: " + c.iconTarget,
         "Icon Center: " + E.EncodeVector(c.iconCenter), "Icon Size: " + FormatFloat(c.iconSize)]
  }

  /** The lines of a loop's text, which ends with a line break. */
  function LoopLines(lists: seq<seq<string>>): seq<string> {
    Flatten(lists) + [""]
  }

  function CoverLines(c: Cover): seq<string> {
    CoverFieldLines(c) + LoopLines(LayerLists(c.layers)) + [""]
  }

  function ColorsLines(s: PlayableSong): seq<string> {
    ["[COLORS]", "Background: " + EncodeColor(s.backgroundColor), "Interface: " + EncodeColor(s.interfaceColor), ""]
  }

  function TimingLines(stops: seq<BPMStop>): seq<string> {
    ["[TIMING]"] + LoopLines(StopLists(stops)) + [""]
  }

  function ChartsLines(charts: seq<ExternalChartMeta>): seq<string> {
    ["[CHARTS]"] + LoopLines(ChartLists(charts))
  }

  /** Every line after the title. */
  function SongLines(s: PlayableSong, clipName: string): seq<string> {
    PreambleLines() + MetadataLines(s) + ResourcesLines(clipName) + CoverLines(s.cover)
      + ColorsLines(s) + TimingLines(s.timing.stops) + ChartsLines(s.charts)
  }

  // ---------------------------------------------------------------- blocks as lines

  /** The alternative artist, written inside the artist's line, is a line of its own. */
  lemma AltArtistText(alt: string)
    ensures E.AltArtistLine(alt) == Lines(AltLines(alt))
  {
    if !IsNullOrWhiteSpace(alt) {
      LinesOne("Alt Artist: " + alt);
      AppendAssoc("\n", "Alt Artist: ", alt);
    }
  }

  lemma ArtistLines(artist: string, alt: string)
    ensures "\n" + (artist + E.AltArtistLine(alt)) == Lines([artist] + AltLines(alt))
  {
    AltArtistText(alt);
    LineWithLines(artist, AltLines(alt), E.AltArtistLine(alt));
  }

  lemma LayerBlock(l: CoverLayer)
    ensures var ls := LayerLines(l); E.EncodeCoverLayer(l, 0) == ls[0] + Lines(ls[1..]) + "\n"
  {
    var target := Spaces(2) + "Target: " + l.target;
    var flag := if l.tiling then "\n" + Spaces(2) + "Tiling" else "";
    assert Spaces(0 + E.INDENT_SIZE) == Spaces(2);
    assert flag == Lines(TilingLines(l)) by {
      if l.tiling {
        LinesOne(Spaces(2) + "Tiling");
        AppendAssoc("\n", Spaces(2), "Tiling");
      }
    }
    LinesOne(target + flag);
    LineWithLines(target, TilingLines(l), flag);
    assert LayerLines(l)[1..] == [target] + TilingLines(l);
  }

  lemma StopBlock(stop: BPMStop)
    ensures var ls := StopLines(stop); E.EncodeBPMStop(stop, 0) == ls[0] + Lines(ls[1..]) + "\n"
  {
    var r := StopRecord(stop);
    assert StopLines(stop)[1..] == [];
    assert r + "" == r;
  }

  lemma ChartBlock(c: ExternalChartMeta)
    ensures var ls := ChartLines(c); E.EncodeExternalChartMeta(c, 0) == ls[0] + Lines(ls[1..]) + "\n"
  {
    assert ChartLines(c)[1..] == ChartFieldLines(c);
    assert Spaces(0 + E.INDENT_SIZE) == Spaces(2);
  }

  /** The text of a loop over blocks that each end with a line break, written as one line of
      a section, is the blocks' lines and then one empty line. */
  lemma LoopText(text: string, lists: seq<seq<string>>)
    requires "\n" + text == Lines(Flatten(lists)) + "\n"
    ensures "\n" + text == Lines(LoopLines(lists))
  {
    LinesSnoc(Flatten(lists), "");
    assert Lines(Flatten(lists)) + "\n" + "" == Lines(Flatten(lists)) + "\n";
  }

  lemma LayersText(layers: seq<CoverLayer>)
    ensures "\n" + Concat(E.LayerBlocks(layers)) == Lines(LoopLines(LayerLists(layers)))
  {
    var blocks, lists := E.LayerBlocks(layers), LayerLists(layers);
    forall i | 0 <= i < |blocks| ensures lists[i] != [] && blocks[i] == lists[i][0] + Lines(lists[i][1..]) + "\n" {
      LayerBlock(layers[i]);
    }
    ConcatOfTerminatedLines(blocks, lists);
    LoopText(Concat(blocks), lists);
  }

  lemma StopsText(stops: seq<BPMStop>)
    ensures "\n" + Concat(E.StopBlocks(stops)) == Lines(LoopLines(StopLists(stops)))
  {
    var blocks, lists := E.StopBlocks(stops), StopLists(stops);
    forall i | 0 <= i < |blocks| ensures lists[i] != [] && blocks[i] == lists[i][0] + Lines(lists[i][1..]) + "\n" {
      StopBlock(stops[i]);
    }
    ConcatOfTerminatedLines(blocks, lists);
    LoopText(Concat(blocks), lists);
  }

  lemma ChartsText(charts: seq<ExternalChartMeta>)
    ensures "\n" + Concat(E.ChartMetaBlocks(charts)) == Lines(LoopLines(ChartLists(charts)))
  {
    var blocks, lists := E.ChartMetaBlocks(charts), ChartLists(charts);
    forall i | 0 <= i < |blocks| ensures lists[i] != [] && blocks[i] == lists[i][0] + Lines(lists[i][1..]) + "\n" {
      ChartBlock(charts[i]);
    }
    ConcatOfTerminatedLines(blocks, lists);
    LoopText(Concat(blocks), lists);
  }

  // ---------------------------------------------------------------- sections as lines

  lemma MetadataText(s: PlayableSong)
    ensures Lines(["[METADATA]",
                   "Name: " + s.songName,
                   "Artist: " + s.songArtist + E.AltArtistLine(s.altSongArtist),
                   "Genre: " + s.genre,
                   "Location: " + s.location,
                   "Preview Range: " + E.EncodeVector(s.previewRange),
                   ""]) == Lines(MetadataLines(s))
  {
    var artist := "Artist: " + s.songArtist;
    var line := artist + E.AltArtistLine(s.altSongArtist);
    var a := ["[METADATA]", "Name: " + s.songName];
    var b := ["Genre: " + s.genre, "Location: " + s.location, "Preview Range: " + E.EncodeVector(s.previewRange), ""];
    ArtistLines(artist, s.altSongArtist);
    assert ["[METADATA]", "Name: " + s.songName, line, "Genre: " + s.genre, "Location: " + s.location,
            "Preview Range: " + E.EncodeVector(s.previewRange), ""] == a + [line] + b;
    LinesReplace(a, line, [artist] + AltLines(s.altSongArtist), b);
  }

  lemma CoverText(c: Cover)
    ensures Lines(["[COVER]",
                   "Artist: " + c.artistName + " " + E.AltArtistLine(c.altArtistName),
                   "Background: " + EncodeColor(c.backgroundColor),
                   "Icon: " + c.iconTarget,
                   "Icon Center: " + E.EncodeVector(c.iconCenter),
                   "Icon Size: " + FormatFloat(c.iconSize),
                   Concat(E.LayerBlocks(c.layers)),
                   ""]) == Lines(CoverLines(c))
  {
    var artist := "Artist: " + c.artistName + " ";
    var line := artist + E.AltArtistLine(c.altArtistName);
    var b := ["Background: " + EncodeColor(c.backgroundColor), "Icon: " + c.iconTarget,
              "Icon Center: " + E.EncodeVector(c.iconCenter), "Icon Size: " + FormatFloat(c.iconSize)];
    var layers := Concat(E.LayerBlocks(c.layers));
    var fields := ["[COVER]"] + ([artist] + AltLines(c.altArtistName)) + b;
    ArtistLines(artist, c.altArtistName);
    assert ["[COVER]", line, b[0], b[1], b[2], b[3], layers, ""] == ["[COVER]"] + [line] + (b + [layers] + [""]);
    LinesReplace(["[COVER]"], line, [artist] + AltLines(c.altArtistName), b + [layers] + [""]);
    SeqAssoc(["[COVER]"] + ([artist] + AltLines(c.altArtistName)), b + [layers], [""]);
    SeqAssoc(["[COVER]"] + ([artist] + AltLines(c.altArtistName)), b, [layers]);
    assert fields == CoverFieldLines(c);
    LayersText(c.layers);
    LinesReplace(fields, layers, LoopLines(LayerLists(c.layers)), [""]);
  }

  lemma TimingText(stops: seq<BPMStop>)
    ensures Lines(["[TIMING]", Concat(E.StopBlocks(stops)), ""]) == Lines(TimingLines(stops))
  {
    var x := Concat(E.StopBlocks(stops));
    StopsText(stops);
    assert ["[TIMING]", x, ""] == ["[TIMING]"] + [x] + [""];
    LinesReplace(["[TIMING]"], x, LoopLines(StopLists(stops)), [""]);
  }

  lemma ChartsSectionText(charts: seq<ExternalChartMeta>)
    ensures Lines(["[CHARTS]", Concat(E.ChartMetaBlocks(charts))]) == Lines(ChartsLines(charts))
  {
    var x := Concat(E.ChartMetaBlocks(charts));
    ChartsText(charts);
    assert ["[CHARTS]", x] == ["[CHARTS]"] + [x] + [];
    LinesReplace(["[CHARTS]"], x, LoopLines(ChartLists(charts)), []);
    assert ["[CHARTS]"] + LoopLines(ChartLists(charts)) + [] == ChartsLines(charts);
  }

  /** Seven lists of lines, each written behind the title in turn, are the title and all
      their lines. */
  lemma LinesOfSeven(t: string, p: seq<string>, m: seq<string>, r: seq<string>, c: seq<string>,
                     co: seq<string>, ti: seq<string>, ch: seq<string>)
    ensures t + Lines(p) + Lines(m) + Lines(r) + Lines(c) + Lines(co) + Lines(ti) + Lines(ch)
         == t + Lines(p + m + r + c + co + ti + ch)
  {
    PrefixLinesAppend(t, p, m);
    PrefixLinesAppend(t, p + m, r);
    PrefixLinesAppend(t, p + m + r, c);
    PrefixLinesAppend(t, p + m + r + c, co);
    PrefixLinesAppend(t, p + m + r + c + co, ti);
    PrefixLinesAppend(t, p + m + r + c + co + ti, ch);
  }

  /** The encoded text is the title followed by the lines of the song. */
  lemma SongTextLines(s: PlayableSong, clipName: string)
    ensures E.SongText(s, clipName) == TITLE + Lines(SongLines(s, clipName))
  {
    MetadataText(s);
    CoverText(s.cover);
    TimingText(s.timing.stops);
    ChartsSectionText(s.charts);
    LinesOfSeven(TITLE, PreambleLines(), MetadataLines(s), ResourcesLines(clipName), CoverLines(s.cover),
                 ColorsLines(s), TimingLines(s.timing.stops), ChartsLines(s.charts));
  }

  // ---------------------------------------------------------------- splitting the text

  /** What the song index can hold: no text the song gives the encoder holds a line break. */
  predicate OneLine(s: string) {
    '\n' !in s
  }

  predicate Writable(s: PlayableSong, clipName: string) {
    && OneLine(s.songName) && OneLine(s.songArtist) && OneLine(s.altSongArtist) && OneLine(s.genre)
    && OneLine(s.location) && OneLine(clipName)
    && OneLine(s.cover.artistName) && OneLine(s.cover.altArtistName) && OneLine(s.cover.iconTarget)
    && (forall i :: 0 <= i < |s.cover.layers| ==> OneLine(s.cover.layers[i].target))
    && (forall i :: 0 <= i < |s.charts| ==> ChartWritable(s.charts[i]))
  }

  predicate ChartWritable(c: ExternalChartMeta) {
    OneLine(c.target) && OneLine(c.difficultyName) && OneLine(c.charterName) && OneLine(c.difficultyLevel)
  }

  /** Two pieces of one line make one line. */
  lemma Joined(a: string, b: string)
    requires OneLine(a) && OneLine(b)
    ensures OneLine(a + b)
  {
  }

  lemma SpacesAreOneLine(n: nat)
    ensures OneLine(Spaces(n))
  {
  }

  /** An indented `key` and `value` make one line. */
  lemma FieldLine(n: nat, key: string, value: string)
    requires OneLine(key) && OneLine(value)
    ensures OneLine(Spaces(n) + key + value)
  {
    SpacesAreOneLine(n);
    Joined(Spaces(n), key);
    Joined(Spaces(n) + key, value);
  }

  lemma AltLinesHaveNoBreaks(name: string)
    requires OneLine(name)
    ensures NoLineBreaks(AltLines(name))
  {
    if !IsNullOrWhiteSpace(name) {
      Joined("Alt Artist: ", name);
    }
  }

  lemma LayerLinesHaveNoBreaks(l: CoverLayer)
    requires OneLine(l.target)
    ensures NoLineBreaks(LayerLines(l))
  {
    NumberHasNoSpace(l.scale);
    NumberHasNoSpace(l.parallaxFactor);
    EncodedValuesHaveNoLineBreak(Color(l.scale, l.scale, l.scale, l.scale), l.position);
    var record := LayerRecord(l);
    FieldLine(0, "+ Layer ", FormatFloat(l.scale));
    Joined(Spaces(0) + "+ Layer " + FormatFloat(l.scale), " ");
    Joined(Spaces(0) + "+ Layer " + FormatFloat(l.scale) + " ", EncodeVector2(l.position));
    Joined(Spaces(0) + "+ Layer " + FormatFloat(l.scale) + " " + EncodeVector2(l.position), " ");
    Joined(Spaces(0) + "+ Layer " + FormatFloat(l.scale) + " " + EncodeVector2(l.position) + " ", FormatFloat(l.parallaxFactor));
    var target := Spaces(2) + "Target: " + l.target;
    FieldLine(2, "Target: ", l.target);
    FieldLine(2, "Tiling", "");
    assert Spaces(2) + "Tiling" + "" == Spaces(2) + "Tiling";
    assert NoLineBreaks(TilingLines(l));
    NoLineBreaksAppend([target], TilingLines(l));
    NoLineBreaksAppend([record], [target] + TilingLines(l));
  }

  lemma StopLinesHaveNoBreaks(stop: BPMStop)
    ensures NoLineBreaks(StopLines(stop))
  {
    NumberHasNoSpace(stop.offset);
    NumberHasNoSpace(stop.bpm);
    IntHasNoSpace(stop.signature);
    var flag := E.SignificantFlag(stop);
    assert OneLine(flag);
    FieldLine(0, "+ BPM ", FormatFloat(stop.offset));
    var a := Spaces(0) + "+ BPM " + FormatFloat(stop.offset);
    Joined(a, " ");
    Joined(a + " ", FormatFloat(stop.bpm));
    Joined(a + " " + FormatFloat(stop.bpm), " ");
    Joined(a + " " + FormatFloat(stop.bpm) + " ", FormatInt(stop.signature));
    Joined(a + " " + FormatFloat(stop.bpm) + " " + FormatInt(stop.signature), " ");
    Joined(a + " " + FormatFloat(stop.bpm) + " " + FormatInt(stop.signature) + " ", flag);
  }

  lemma ChartLinesHaveNoBreaks(c: ExternalChartMeta)
    requires ChartWritable(c)
    ensures NoLineBreaks(ChartLines(c))
  {
    IntHasNoSpace(c.difficultyIndex);
    NumberHasNoSpace(c.chartConstant);
    FieldLine(2, "Target: ", c.target);
    FieldLine(2, "Index: ", FormatInt(c.difficultyIndex));
    FieldLine(2, "Name: ", c.difficultyName);
    FieldLine(2, "Charter: ", c.charterName);
    FieldLine(2, "Level: ", c.difficultyLevel);
    FieldLine(2, "Constant: ", FormatFloat(c.chartConstant));
    FieldLine(0, " ", "+ Chart");
    assert CHART_RECORD == Spaces(0) + " " + "+ Chart";
    NoLineBreaksAppend([CHART_RECORD], ChartFieldLines(c));
  }

  lemma PreambleHasNoBreaks()
    ensures NoLineBreaks(PreambleLines())
  {
    IntHasNoSpace(E.FORMAT_VERSION);
  }

  lemma MetadataHasNoBreaks(s: PlayableSong)
    requires OneLine(s.songName) && OneLine(s.songArtist) && OneLine(s.altSongArtist)
    requires OneLine(s.genre) && OneLine(s.location)
    ensures NoLineBreaks(MetadataLines(s))
  {
    EncodedValuesHaveNoLineBreak(s.backgroundColor, Vec2(s.previewRange.x, s.previewRange.y));
    AltLinesHaveNoBreaks(s.altSongArtist);
    var name, artist := "Name: " + s.songName, "Artist: " + s.songArtist;
    var genre, location := "Genre: " + s.genre, "Location: " + s.location;
    var preview := "Preview Range: " + E.EncodeVector(s.previewRange);
    Joined("Name: ", s.songName);
    Joined("Artist: ", s.songArtist);
    Joined("Genre: ", s.genre);
    Joined("Location: ", s.location);
    Joined("Preview Range: ", E.EncodeVector(s.previewRange));
    var head, tail := ["[METADATA]", name], [genre, location, preview, ""];
    assert NoLineBreaks(head) && NoLineBreaks(tail);
    NoLineBreaksAppend([artist], AltLines(s.altSongArtist));
    NoLineBreaksAppend(head, [artist] + AltLines(s.altSongArtist));
    NoLineBreaksAppend(head + ([artist] + AltLines(s.altSongArtist)), tail);
  }

  lemma ResourcesHaveNoBreaks(clipName: string)
    requires OneLine(clipName)
    ensures NoLineBreaks(ResourcesLines(clipName))
  {
    Joined("Clip: ", clipName);
    var clip := "Clip: " + clipName;
    assert NoLineBreaks(["[RESOURCES]", clip, ""]);
  }

  lemma ColorsHaveNoBreaks(s: PlayableSong)
    ensures NoLineBreaks(ColorsLines(s))
  {
    EncodedValuesHaveNoLineBreak(s.backgroundColor, Vec2(s.previewRange.x, s.previewRange.y));
    EncodedValuesHaveNoLineBreak(s.interfaceColor, Vec2(s.previewRange.x, s.previewRange.y));
    Joined("Background: ", EncodeColor(s.backgroundColor));
    Joined("Interface: ", EncodeColor(s.interfaceColor));
    var background, interface := "Background: " + EncodeColor(s.backgroundColor), "Interface: " + EncodeColor(s.interfaceColor);
    assert NoLineBreaks(["[COLORS]", background, interface, ""]);
  }

  lemma CoverHasNoBreaks(c: Cover)
    requires OneLine(c.artistName) && OneLine(c.altArtistName) && OneLine(c.iconTarget)
    requires forall i :: 0 <= i < |c.layers| ==> OneLine(c.layers[i].target)
    ensures NoLineBreaks(CoverLines(c))
  {
    EncodedValuesHaveNoLineBreak(c.backgroundColor, Vec2(c.iconCenter.x, c.iconCenter.y));
    NumberHasNoSpace(c.iconSize);
    AltLinesHaveNoBreaks(c.altArtistName);
    var artist := "Artist: " + c.artistName + " ";
    Joined("Artist: ", c.artistName);
    Joined("Artist: " + c.artistName, " ");
    Joined("Background: ", EncodeColor(c.backgroundColor));
    Joined("Icon: ", c.iconTarget);
    Joined("Icon Center: ", E.EncodeVector(c.iconCenter));
    Joined("Icon Size: ", FormatFloat(c.iconSize));
    var fields := ["Background: " + EncodeColor(c.backgroundColor), "Icon: " + c.iconTarget,
                   "Icon Center: " + E.EncodeVector(c.iconCenter), "Icon Size: " + FormatFloat(c.iconSize)];
    assert NoLineBreaks(fields);
    NoLineBreaksAppend([artist], AltLines(c.altArtistName));
    NoLineBreaksAppend(["[COVER]"], [artist] + AltLines(c.altArtistName));
    NoLineBreaksAppend(["[COVER]"] + ([artist] + AltLines(c.altArtistName)), fields);
    var lists := LayerLists(c.layers);
    forall i | 0 <= i < |lists| ensures NoLineBreaks(lists[i]) {
      LayerLinesHaveNoBreaks(c.layers[i]);
    }
    NoLineBreaksFlatten(lists);
    NoLineBreaksAppend(Flatten(lists), [""]);
    NoLineBreaksAppend(CoverFieldLines(c), LoopLines(lists));
    NoLineBreaksAppend(CoverFieldLines(c) + LoopLines(lists), [""]);
  }

  lemma TimingHasNoBreaks(stops: seq<BPMStop>)
    ensures NoLineBreaks(TimingLines(stops))
  {
    var lists := StopLists(stops);
    forall i | 0 <= i < |lists| ensures NoLineBreaks(lists[i]) {
      StopLinesHaveNoBreaks(stops[i]);
    }
    NoLineBreaksFlatten(lists);
    NoLineBreaksAppend(Flatten(lists), [""]);
    NoLineBreaksAppend(["[TIMING]"], LoopLines(lists));
    NoLineBreaksAppend(["[TIMING]"] + LoopLines(lists), [""]);
  }

  lemma ChartsHaveNoBreaks(charts: seq<ExternalChartMeta>)
    requires forall i :: 0 <= i < |charts| ==> ChartWritable(charts[i])
    ensures NoLineBreaks(ChartsLines(charts))
  {
    var lists := ChartLists(charts);
    forall i | 0 <= i < |lists| ensures NoLineBreaks(lists[i]) {
      ChartLinesHaveNoBreaks(charts[i]);
    }
    NoLineBreaksFlatten(lists);
    NoLineBreaksAppend(Flatten(lists), [""]);
    NoLineBreaksAppend(["[CHARTS]"], LoopLines(lists));
  }

  lemma SongLinesHaveNoBreaks(s: PlayableSong, clipName: string)
    requires Writable(s, clipName)
    ensures NoLineBreaks(SongLines(s, clipName))
  {
    var p, m, r, c := PreambleLines(), MetadataLines(s), ResourcesLines(clipName), CoverLines(s.cover);
    var co, t, ch := ColorsLines(s), TimingLines(s.timing.stops), ChartsLines(s.charts);
    PreambleHasNoBreaks();
    MetadataHasNoBreaks(s);
    ResourcesHaveNoBreaks(clipName);
    ColorsHaveNoBreaks(s);
    CoverHasNoBreaks(s.cover);
    TimingHasNoBreaks(s.timing.stops);
    ChartsHaveNoBreaks(s.charts);
    NoLineBreaksAppend(p, m);
    NoLineBreaksAppend(p + m, r);
    NoLineBreaksAppend(p + m + r, c);
    NoLineBreaksAppend(p + m + r + c, co);
    NoLineBreaksAppend(p + m + r + c + co, t);
    NoLineBreaksAppend(p + m + r + c + co + t, ch);
  }

  lemma TitleIsOneLine()
    ensures OneLine(TITLE)
  {
  }

  /** Splitting the encoded text at line breaks gives the title and the lines of the song. */
  lemma SplitSongText(s: PlayableSong, clipName: string)
    requires Writable(s, clipName)
    ensures Split(E.SongText(s, clipName), '\n') == [TITLE] + SongLines(s, clipName)
  {
    SongTextLines(s, clipName);
    SplitSongLines(s, clipName, E.SongText(s, clipName));
  }

  lemma SplitSongLines(s: PlayableSong, clipName: string, text: string)
    requires Writable(s, clipName) && text == TITLE + Lines(SongLines(s, clipName))
    ensures Split(text, '\n') == [TITLE] + SongLines(s, clipName)
  {
    TitleIsOneLine();
    SongLinesHaveNoBreaks(s, clipName);
    SplitLines(TITLE, SongLines(s, clipName));
  }
}
