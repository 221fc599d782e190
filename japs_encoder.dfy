/** `JAPSEncoder`: writes a playable song as a JANOARG song index, the sections in a fixed
    order, each cover layer, tempo stop and chart reference as a block of its own. */
module JAPSEncoder {
  import opened Text
  import opened Numbers
  import opened SongInfo
  import opened Values

  const FORMAT_VERSION: int := 2
  const INDENT_SIZE: nat := 2

  /** `EncodeVector` takes a `Vector2`: a three-component vector passed to it loses its z. */
  function EncodeVector(v: Vec3): string {
    EncodeVector2(Vec2(v.x, v.y))
  }

  /** `InsertAltSongArtist` and `InsertAltCoverArtist`: the line is written when the name is
      not blank. */
  function AltArtistLine(name: string): string {
    if !IsNullOrWhiteSpace(name) then "\nAlt Artist: " + name else ""
  }

  /** `EncodeCoverLayer`: the record line with scale, position and parallax, then a line with
      the target, followed by the `Tiling` line when the layer tiles; the block ends with a line
      break. */
  function EncodeCoverLayer(layer: CoverLayer, depth: nat): string {
    var indent := Spaces(depth);
    var indent2 := Spaces(depth + INDENT_SIZE);
    var tilingFlag := if layer.tiling then "\n" + indent2 + "Tiling" else "";
    indent + "+ Layer " + FormatFloat(layer.scale) + " " + EncodeVector2(layer.position) + " "
      + FormatFloat(layer.parallaxFactor) + Lines([indent2 + "Target: " + layer.target + tilingFlag]) + "\n"
  }

  /** The flag token of a stop: `S` when it is significant, `_` otherwise. */
  function SignificantFlag(stop: BPMStop): string {
    if stop.significant then "S" else "_"
  }

  /** `EncodeBPMStop`: one record line `+ BPM offset bpm signature flag`. */
  function EncodeBPMStop(stop: BPMStop, depth: nat): string {
    Spaces(depth) + "+ BPM " + FormatFloat(stop.offset) + " " + FormatFloat(stop.bpm) + " "
      + FormatInt(stop.signature) + " " + SignificantFlag(stop) + "\n"
  }

  /** `EncodeExternalChartMeta`: the record line, which starts with a space, then all six
      fields, each on its own line. */
  function EncodeExternalChartMeta(chart: ExternalChartMeta, depth: nat): string {
    var indent := Spaces(depth);
    var indent2 := Spaces(depth + INDENT_SIZE);
    " " + indent + "+ Chart"
      + Lines([indent2 + "Target: " + chart.target,
               indent2 + "Index: " + FormatInt(chart.difficultyIndex),
               indent2 + "Name: " + chart.difficultyName,
               indent2 + "Charter: " + chart.charterName,
               indent2 + "Level: " + chart.difficultyLevel,
               indent2 + "Constant: " + FormatFloat(chart.chartConstant)])
      + "\n"
  }

  function LayerBlocks(layers: seq<CoverLayer>): (r: seq<string>)
    ensures |r| == |layers| && forall i :: 0 <= i < |layers| ==> r[i] == EncodeCoverLayer(layers[i], 0)
  {
    seq(|layers|, i requires 0 <= i < |layers| => EncodeCoverLayer(layers[i], 0))
  }

  function StopBlocks(stops: seq<BPMStop>): (r: seq<string>)
    ensures |r| == |stops| && forall i :: 0 <= i < |stops| ==> r[i] == EncodeBPMStop(stops[i], 0)
  {
    seq(|stops|, i requires 0 <= i < |stops| => EncodeBPMStop(stops[i], 0))
  }

  function ChartMetaBlocks(charts: seq<ExternalChartMeta>): (r: seq<string>)
    ensures |r| == |charts| && forall i :: 0 <= i < |charts| ==> r[i] == EncodeExternalChartMeta(charts[i], 0)
  {
    seq(|charts|, i requires 0 <= i < |charts| => EncodeExternalChartMeta(charts[i], 0))
  }

  /** `Encode`'s template, given the text of its loops: the title line, then the sections
      VERSION, METADATA, RESOURCES, COVER, COLORS, TIMING and CHARTS in this order, each a list
      of lines every one of which is written behind a line break. The text of a loop fills one
      such line, and an alternative artist name is written inside the artist's line. The clip
      line writes the `clipName` argument; no `Alt Name` line is written; the cover artist is
      followed by a space. */
  function Template(s: PlayableSong, clipName: string, layers: string, stops: string, charts: string): string {
    "JANOARG Playable Song Format"
      + Lines(["github.com/FFF40/JANOARG", "", "[VERSION]", FormatInt(FORMAT_VERSION), ""])
      + Lines(["[METADATA]",
               "Name: " + s.songName,
               "Artist: " + s.songArtist + AltArtistLine(s.altSongArtist),
               "Genre: " + s.genre,
               "Location: " + s.location,
               "Preview Range: " + EncodeVector(s.previewRange),
               ""])
      + Lines(["[RESOURCES]", "Clip: " + clipName, ""])
      + Lines(["[COVER]",
               "Artist: " + s.cover.artistName + " " + AltArtistLine(s.cover.altArtistName),
               "Background: " + EncodeColor(s.cover.backgroundColor),
               "Icon: " + s.cover.iconTarget,
               "Icon Center: " + EncodeVector(s.cover.iconCenter),
               "Icon Size: " + FormatFloat(s.cover.iconSize),
               layers,
               ""])
      + Lines(["[COLORS]",
               "Background: " + EncodeColor(s.backgroundColor),
               "Interface: " + EncodeColor(s.interfaceColor),
               ""])
      + Lines(["[TIMING]", stops, ""])
      + Lines(["[CHARTS]", charts])
  }

  /** The text `Encode` returns. */
  function SongText(s: PlayableSong, clipName: string): string {
    Template(s, clipName, Concat(LayerBlocks(s.cover.layers)), Concat(StopBlocks(s.timing.stops)),
             Concat(ChartMetaBlocks(s.charts)))
  }

  /** `JAPSEncoder.Encode`: runs the three loops, then fills in the template. */
  method Encode(s: PlayableSong, clipName: string) returns (str: string)
    ensures str == SongText(s, clipName)
  {
    var layers := AppendAll(LayerBlocks(s.cover.layers));
    var stops := AppendAll(StopBlocks(s.timing.stops));
    var charts := AppendAll(ChartMetaBlocks(s.charts));
    str := Template(s, clipName, layers, stops, charts);
  }
}
