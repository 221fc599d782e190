/** The song entities the JANOARG song index (`.japs`) reads and writes. Each is a value here;
    the decoder's in-place updates of them become updates of these values. */
module SongInfo {
  import opened Numbers

  /** One image layer of the cover. */
  datatype CoverLayer = CoverLayer(
    target: string,
    scale: Float,
    position: Vec2,
    parallaxFactor: Float,
    tiling: bool)

  datatype Cover = Cover(
    artistName: string,
    altArtistName: string,
    backgroundColor: Color,
    iconTarget: string,
    iconCenter: Vec3,
    iconSize: Float,
    layers: seq<CoverLayer>)

  /** A tempo change: from `offset` on, `bpm` beats a minute in bars of `signature` beats. */
  datatype BPMStop = BPMStop(
    offset: Float,
    bpm: Float,
    signature: Int32,
    significant: bool)

  datatype TempoMap = TempoMap(stops: seq<BPMStop>)

  /** A reference to one chart of the song, kept in a file of its own. */
  datatype ExternalChartMeta = ExternalChartMeta(
    target: string,
    difficultyIndex: Int32,
    difficultyName: string,
    charterName: string,
    difficultyLevel: string,
    chartConstant: Float)

  datatype PlayableSong = PlayableSong(
    songName: string,
    altSongName: string,
    songArtist: string,
    altSongArtist: string,
    genre: string,
    location: string,
    previewRange: Vec3,
    clipPath: string,
    backgroundColor: Color,
    interfaceColor: Color,
    cover: Cover,
    timing: TempoMap,
    charts: seq<ExternalChartMeta>)

  /** The value each parameterless constructor (`new PlayableSong()`, `new CoverLayer()`,
      `new ExternalChartMeta()`) gives, before the decoder assigns any field. */
  datatype SongBlanks = SongBlanks(
    song: PlayableSong,
    layer: CoverLayer,
    chart: ExternalChartMeta)
}
