/** The part of the After Effects scene graph that the export script reads.
    Every time-varying property is a function from a time in seconds to the
    value `valueAtTime(time, false)` returns; the host's own evaluation of
    those properties is not modelled. */
module Host {
  import opened Wrappers

  /** A property value as the host returns it: an array of numbers. */
  type Sample = seq<real>

  /** A pair of numbers, as the skew of a decomposed transform. */
  datatype Vec2 = Vec2(x: real, y: real)

  /** A motion tracker: `numTrackPoints` points, addressed 1..numTrackPoints,
      each with an attach point and a confidence sampled over time. */
  datatype Tracker = Tracker(
    numTrackPoints: nat,
    attach: (nat, real) -> Sample,
    confidence: (nat, real) -> real)

  /** A mesh-warp grid of `rows` by `columns` vertices; `vertex(r, c, t)` is the
      position of vertex (r, c) at time t. */
  datatype Mesh = Mesh(rows: nat, columns: nat, vertex: (nat, nat, real) -> Sample)

  /** The "Corner Pin" effect with its four corner points. */
  datatype CornerPinEffect = CornerPinEffect(
    topLeft: real -> Sample,
    topRight: real -> Sample,
    bottomRight: real -> Sample,
    bottomLeft: real -> Sample)

  /** One sub-property of the "Puppet" effect: its match name (which tells a
      position pin from other kinds of property), its name and its position. */
  datatype PuppetProperty = PuppetProperty(matchName: string, name: string, position: real -> Sample)

  /** The "Puppet" effect; `properties[i - 1]` is `property(i)`, so
      `numProperties` is `|properties|`. */
  datatype PuppetEffect = PuppetEffect(properties: seq<PuppetProperty>)

  /** A layer: its identity, its transform properties, and four optional
      features, each None when the layer does not carry it. `matrixSkew` is the
      skew that the script's matrix decomposition derives from the layer's
      `transform.value`, which is read without a time argument. */
  datatype Layer = Layer(
    name: string,
    index: int,
    matchName: string,
    position: real -> Sample,
    anchorPoint: real -> Sample,
    scale: real -> Sample,
    rotation: real -> real,
    opacity: real -> real,
    matrixSkew: Vec2,
    tracker: Option<Tracker>,
    mesh: Option<Mesh>,
    cornerPin: Option<CornerPinEffect>,
    puppet: Option<PuppetEffect>)

  /** A composition; `layers[i - 1]` is `layer(i)`, so `numLayers` is `|layers|`. */
  datatype Composition = Composition(
    name: string,
    duration: real,
    frameRate: real,
    width: int,
    height: int,
    layers: seq<Layer>)
}
