/** The chart entities the JANOARG chart codec reads and writes. Each is a value here; the
    decoder's in-place updates of them become updates of these values. */
module ChartInfo {
  import opened Numbers
  import opened Easing

  /** A beat position in either of the two notations the chart text uses: whole beats plus a
      fraction, or a float. */
  datatype BeatPosition =
    | Fraction(whole: Int32, numerator: Int32, denominator: Int32)
    | FromFloat(value: Float)

  /** One storyboard keyframe. `id` is the name of a `TimestampIDs` member. */
  datatype Timestamp = Timestamp(
    id: string,
    offset: BeatPosition,
    duration: Float,
    target: Float,
    from: Float,
    easing: EaseDirective)

  /** A storyboard's timestamps in storage order. */
  type Storyboard = seq<Timestamp>

  datatype CameraController = CameraController(
    pivot: Vec3,
    rotation: Vec3,
    distance: Float,
    storyboard: Storyboard)

  datatype LaneGroup = LaneGroup(
    position: Vec3,
    rotation: Vec3,
    name: string,
    group: string,
    storyboard: Storyboard)

  datatype LaneStyle = LaneStyle(
    laneColor: Color,
    judgeColor: Color,
    name: string,
    laneMaterial: string,
    laneColorTarget: string,
    judgeMaterial: string,
    judgeColorTarget: string,
    storyboard: Storyboard)

  datatype HitStyle = HitStyle(
    holdTailColor: Color,
    normalColor: Color,
    catchColor: Color,
    name: string,
    mainMaterial: string,
    mainColorTarget: string,
    holdTailMaterial: string,
    holdTailColorTarget: string,
    storyboard: Storyboard)

  datatype Palette = Palette(
    backgroundColor: Color,
    interfaceColor: Color,
    laneStyles: seq<LaneStyle>,
    hitStyles: seq<HitStyle>,
    storyboard: Storyboard)

  datatype LaneStep = LaneStep(
    offset: BeatPosition,
    startPoint: Vec2,
    startEaseX: EaseDirective,
    startEaseY: EaseDirective,
    endPoint: Vec2,
    endEaseX: EaseDirective,
    endEaseY: EaseDirective,
    speed: Float,
    storyboard: Storyboard)

  /** A hit object. `hitType` is the name of a `HitObject.HitType` member. */
  datatype HitObject = HitObject(
    hitType: string,
    offset: BeatPosition,
    position: Float,
    length: Float,
    holdLength: Float,
    flickable: bool,
    flickDirection: Float,
    styleIndex: Int32,
    isFake: bool,
    storyboard: Storyboard)

  datatype Lane = Lane(
    position: Vec3,
    rotation: Vec3,
    styleIndex: Int32,
    name: string,
    group: string,
    storyboard: Storyboard,
    laneSteps: seq<LaneStep>,
    objects: seq<HitObject>)

  datatype Chart = Chart(
    difficultyIndex: Int32,
    difficultyName: string,
    charterName: string,
    altCharterName: string,
    difficultyLevel: string,
    chartConstant: Float,
    camera: CameraController,
    groups: seq<LaneGroup>,
    palette: Palette,
    lanes: seq<Lane>)

  /** The member names of the two enums the chart text spells out: `TimestampIDs` and
      `HitObject.HitType`. */
  datatype EnumNames = EnumNames(timestampIds: set<string>, hitTypes: set<string>)

  /** The value each parameterless constructor (`new Chart()`, `new LaneGroup()`, ...) gives,
      before the decoder assigns any field. */
  datatype Blanks = Blanks(
    chart: Chart,
    group: LaneGroup,
    laneStyle: LaneStyle,
    hitStyle: HitStyle,
    lane: Lane,
    laneStep: LaneStep,
    hitObject: HitObject)
}
