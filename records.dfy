/** The nested records the export builds: composition, layers, frames and the
    per-feature data of each frame. */
module Records {
  import opened Wrappers
  import opened Host

  /** The `{x, y}` object the script builds from components [0] and [1] of a
      sampled array; a missing component is `undefined` (None). */
  datatype Point = Point(x: Option<real>, y: Option<real>)

  datatype TransformRecord = TransformRecord(
    position: Point,
    anchorPoint: Point,
    scale: Point,
    rotation: real,
    opacity: real,
    skew: Vec2)

  datatype TrackPointRecord = TrackPointRecord(name: string, position: Sample, confidence: real)

  datatype MeshVertex = MeshVertex(row: nat, col: nat, position: Sample)

  datatype MeshRecord = MeshRecord(rows: nat, columns: nat, vertices: seq<MeshVertex>)

  datatype CornerPinRecord = CornerPinRecord(
    topLeft: Sample,
    topRight: Sample,
    bottomRight: Sample,
    bottomLeft: Sample)

  datatype PuppetPinRecord = PuppetPinRecord(name: string, position: Sample)

  datatype FrameRecord = FrameRecord(
    frame: nat,
    time: real,
    transform: TransformRecord,
    cornerPin: Option<CornerPinRecord>,
    puppetPins: seq<PuppetPinRecord>,
    trackerPoints: seq<TrackPointRecord>,
    meshWarp: Option<MeshRecord>)

  /** `layerType` is the layer's match name (the `type` field of the output). */
  datatype LayerRecord = LayerRecord(name: string, index: int, layerType: string, frames: seq<FrameRecord>)

  datatype CompRecord = CompRecord(
    name: string,
    duration: real,
    frameRate: real,
    width: int,
    height: int,
    layers: seq<LayerRecord>)

  /** The exception that aborts an export: the layer with this index has no
      "Puppet" effect, and the script reads `numProperties` of null. */
  datatype Error = PuppetEffectMissing(layerIndex: int)
}
