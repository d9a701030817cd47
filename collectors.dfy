/** The frame loop of one layer and the layer loop of a composition: the
    records the export hands to its writer. */
module Collectors {
  import opened Wrappers
  import opened Host
  import opened Records
  import opened FeatureSamplers

  // ---------------------------------------------------------------- frames

  /** The last frame index, `Math.floor(duration * frameRate)`. */
  function TotalFrames(comp: Composition): int
  {
    (comp.duration * comp.frameRate).Floor
  }

  /** How many times the frame loop `frame = 0 .. totalFrames` runs. */
  function FrameCount(comp: Composition): nat
  {
    if TotalFrames(comp) < 0 then 0 else TotalFrames(comp) + 1
  }

  /** The time of frame `k`, in seconds. */
  function FrameTime(k: nat, frameRate: real): real
    requires frameRate > 0.0
  {
    k as real / frameRate
  }

  /** Component `i` of a sampled array, None where JavaScript reads `undefined`. */
  function Component(v: Sample, i: nat): Option<real>
  {
    if i < |v| then Some(v[i]) else None
  }

  /** The `{x: v[0], y: v[1]}` object of a sampled array. */
  function XY(v: Sample): Point
  {
    Point(Component(v, 0), Component(v, 1))
  }

  /** The transform record of a layer at `time`. */
  function TransformAt(layer: Layer, time: real): TransformRecord
  {
    TransformRecord(
      XY(layer.position(time)), XY(layer.anchorPoint(time)), XY(layer.scale(time)),
      layer.rotation(time), layer.opacity(time), layer.matrixSkew)
  }

  /** Frame `k` of a layer that has the "Puppet" effect, so that its frame
      loop does not throw. */
  function FrameAt(layer: Layer, frameRate: real, k: nat): FrameRecord
    requires frameRate > 0.0 && layer.puppet.Some?
  {
    var time := FrameTime(k, frameRate);
    FrameRecord(k, time, TransformAt(layer, time), CornerPinData(layer, time), PuppetPinsSpec(layer, time).value,
      TrackerSpec(layer, time), MeshSpec(layer, time))
  }

  /** The record of one layer: its frames 0 .. FrameCount - 1, or the error
      its first frame throws when it has no "Puppet" effect. */
  function LayerSpec(layer: Layer, comp: Composition): Result<LayerRecord, Error>
    requires comp.frameRate > 0.0
  {
    if layer.puppet.None? && FrameCount(comp) > 0 then Err(PuppetEffectMissing(layer.index))
    else Ok(LayerRecord(layer.name, layer.index, layer.matchName,
      seq(FrameCount(comp), k requires 0 <= k < FrameCount(comp) => FrameAt(layer, comp.frameRate, k))))
  }

  /** Samples a layer once per frame and pushes one frame record each. */
  method CollectLayerData(layer: Layer, comp: Composition) returns (r: Result<LayerRecord, Error>)
    requires comp.frameRate > 0.0
    ensures r == LayerSpec(layer, comp)
  {
    var frames: seq<FrameRecord> := [];
    var totalFrames := (comp.duration * comp.frameRate).Floor;
    var frame: nat := 0;
    while frame <= totalFrames
      invariant frame <= FrameCount(comp)
      invariant frame > 0 ==> layer.puppet.Some?
      invariant |frames| == frame
      invariant forall k :: 0 <= k < frame ==> frames[k] == FrameAt(layer, comp.frameRate, k)
    {
      var time := frame as real / comp.frameRate;

      var position := layer.position(time);
      var anchorPoint := layer.anchorPoint(time);
      var scale := layer.scale(time);
      var rotation := layer.rotation(time);
      var opacity := layer.opacity(time);
      var skew := layer.matrixSkew;

      var cornerPin: Option<CornerPinRecord> := None;
      if layer.cornerPin.Some? {
        var effect := layer.cornerPin.value;
        cornerPin := Some(CornerPinRecord(
          effect.topLeft(time), effect.topRight(time), effect.bottomRight(time), effect.bottomLeft(time)));
      }

      var puppetPins := GetPuppetPins(layer, time);
      if puppetPins.Err? {
        return Err(puppetPins.error);
      }
      var trackerPoints := GetTrackerData(layer, time);
      var meshWarp := GetMeshWarpData(layer, time);

      var frameData := FrameRecord(frame, time,
        TransformRecord(XY(position), XY(anchorPoint), XY(scale), rotation, opacity, skew),
        cornerPin, puppetPins.value, trackerPoints, meshWarp);
      assert frameData == FrameAt(layer, comp.frameRate, frame);
      frames := frames + [frameData];
      frame := frame + 1;
    }
    assert frame == FrameCount(comp);
    assert frames == seq(FrameCount(comp), k requires 0 <= k < FrameCount(comp) => FrameAt(layer, comp.frameRate, k));
    r := Ok(LayerRecord(layer.name, layer.index, layer.matchName, frames));
  }

  /** A non-negative duration gives floor(duration * frameRate) + 1 frames. */
  lemma FrameCountOfDuration(comp: Composition)
    requires comp.frameRate > 0.0 && comp.duration >= 0.0
    ensures TotalFrames(comp) >= 0
    ensures FrameCount(comp) == TotalFrames(comp) + 1
  {
  }

  /** A layer's record copies its name, index and match name and holds
      FrameCount frames, frame k numbered k and timed k / frameRate. It fails
      exactly when the layer has no "Puppet" effect and the loop runs. */
  lemma LayerFrames(layer: Layer, comp: Composition)
    requires comp.frameRate > 0.0
    ensures LayerSpec(layer, comp).Err? <==> layer.puppet.None? && FrameCount(comp) > 0
    ensures LayerSpec(layer, comp).Err? ==> LayerSpec(layer, comp).error == PuppetEffectMissing(layer.index)
    ensures LayerSpec(layer, comp).Ok? ==>
      var rec := LayerSpec(layer, comp).value;
      rec.name == layer.name && rec.index == layer.index && rec.layerType == layer.matchName &&
      |rec.frames| == FrameCount(comp) &&
      forall k :: 0 <= k < |rec.frames| ==>
        rec.frames[k].frame == k && rec.frames[k].time == k as real / comp.frameRate
  {
  }

  /** Frame times strictly ascend with the frame index. */
  lemma FrameTimesAscend(layer: Layer, comp: Composition, j: nat, k: nat)
    requires comp.frameRate > 0.0 && LayerSpec(layer, comp).Ok?
    requires j < k < |LayerSpec(layer, comp).value.frames|
    ensures LayerSpec(layer, comp).value.frames[j].time < LayerSpec(layer, comp).value.frames[k].time
  {
    var fr := comp.frameRate;
    assert k as real / fr - j as real / fr == (k - j) as real / fr;
  }

  /** Frame k's transform: x and y of position, anchor point and scale are
      components [0] and [1] of the values sampled at the frame's time,
      rotation and opacity are the sampled values, and skew is the layer's
      matrix skew, the same in every frame. */
  lemma FrameTransform(layer: Layer, comp: Composition, k: nat)
    requires comp.frameRate > 0.0 && LayerSpec(layer, comp).Ok?
    requires k < |LayerSpec(layer, comp).value.frames|
    ensures var tr, t := LayerSpec(layer, comp).value.frames[k].transform, k as real / comp.frameRate;
      tr.position.x == Component(layer.position(t), 0) && tr.position.y == Component(layer.position(t), 1) &&
      tr.anchorPoint.x == Component(layer.anchorPoint(t), 0) && tr.anchorPoint.y == Component(layer.anchorPoint(t), 1) &&
      tr.scale.x == Component(layer.scale(t), 0) && tr.scale.y == Component(layer.scale(t), 1) &&
      tr.rotation == layer.rotation(t) && tr.opacity == layer.opacity(t) &&
      tr.skew == layer.matrixSkew
  {
  }

  /** Frame k's features, all sampled at the frame's time: the corner pin is
      present exactly when the layer has the "Corner Pin" effect, the puppet
      pins are the position pins of the "Puppet" effect, and the tracker and
      mesh data are those of the layer. */
  lemma FrameFeatures(layer: Layer, comp: Composition, k: nat)
    requires comp.frameRate > 0.0 && LayerSpec(layer, comp).Ok?
    requires k < |LayerSpec(layer, comp).value.frames|
    ensures var fr, t := LayerSpec(layer, comp).value.frames[k], k as real / comp.frameRate;
      (fr.cornerPin.Some? <==> layer.cornerPin.Some?) &&
      (fr.cornerPin.Some? ==> fr.cornerPin.value == CornerPinRecord(
        layer.cornerPin.value.topLeft(t), layer.cornerPin.value.topRight(t),
        layer.cornerPin.value.bottomRight(t), layer.cornerPin.value.bottomLeft(t))) &&
      layer.puppet.Some? && fr.puppetPins == PosPins(layer.puppet.value.properties, t) &&
      fr.trackerPoints == TrackerSpec(layer, t) &&
      fr.meshWarp == MeshSpec(layer, t)
  {
  }

  /** A layer with no tracker, mesh or corner pin, and a "Puppet" effect with
      no position pins, has empty or absent feature data in every frame. */
  lemma FeaturelessLayer(layer: Layer, comp: Composition, k: nat)
    requires comp.frameRate > 0.0
    requires layer.tracker.None? && layer.mesh.None? && layer.cornerPin.None? && layer.puppet.Some?
    requires forall i :: 0 <= i < |layer.puppet.value.properties| ==> !IsPosPin(layer.puppet.value.properties[i])
    requires k < FrameCount(comp)
    ensures LayerSpec(layer, comp).Ok?
    ensures var fr := LayerSpec(layer, comp).value.frames[k];
      fr.trackerPoints == [] && fr.meshWarp.None? && fr.cornerPin.None? && fr.puppetPins == []
  {
    PosPinsNone(layer.puppet.value.properties, k as real / comp.frameRate);
  }

  // ---------------------------------------------------------------- layers

  /** The records of `layers`, in order, or the error of the first layer
      that fails. */
  function LayersSpec(comp: Composition, layers: seq<Layer>): Result<seq<LayerRecord>, Error>
    requires comp.frameRate > 0.0
  {
    if layers == [] then Ok([])
    else match LayersSpec(comp, layers[..|layers| - 1])
      case Err(e) => Err(e)
      case Ok(records) =>
        match LayerSpec(layers[|layers| - 1], comp)
        case Err(e) => Err(e)
        case Ok(last) => Ok(records + [last])
  }

  /** The record of a composition. */
  function CompSpec(comp: Composition): Result<CompRecord, Error>
    requires comp.frameRate > 0.0
  {
    match LayersSpec(comp, comp.layers)
    case Err(e) => Err(e)
    case Ok(layers) => Ok(CompRecord(comp.name, comp.duration, comp.frameRate, comp.width, comp.height, layers))
  }

  /** Once a prefix of the layers fails, the whole list fails the same way. */
  lemma {:induction false} LayersErrPersists(comp: Composition, layers: seq<Layer>, n: nat)
    requires comp.frameRate > 0.0
    requires n <= |layers| && LayersSpec(comp, layers[..n]).Err?
    ensures LayersSpec(comp, layers) == LayersSpec(comp, layers[..n])
  {
    if n < |layers| {
      var init := layers[..|layers| - 1];
      assert init[..n] == layers[..n];
      LayersErrPersists(comp, init, n);
    } else {
      assert layers[..n] == layers;
    }
  }

  /** Copies the composition's settings and pushes the record of each layer
      1..numLayers in order. */
  method CollectCompData(comp: Composition) returns (r: Result<CompRecord, Error>)
    requires comp.frameRate > 0.0
    ensures r == CompSpec(comp)
  {
    var layers: seq<LayerRecord> := [];
    var i := 1;
    while i <= |comp.layers|
      invariant 1 <= i <= |comp.layers| + 1
      invariant LayersSpec(comp, comp.layers[..i - 1]) == Ok(layers)
    {
      var layer := comp.layers[i - 1];
      assert comp.layers[..i][..i - 1] == comp.layers[..i - 1];
      var layerData := CollectLayerData(layer, comp);
      if layerData.Err? {
        LayersErrPersists(comp, comp.layers, i);
        return Err(layerData.error);
      }
      layers := layers + [layerData.value];
      i := i + 1;
    }
    assert comp.layers[..i - 1] == comp.layers;
    r := Ok(CompRecord(comp.name, comp.duration, comp.frameRate, comp.width, comp.height, layers));
  }

  /** The layers succeed exactly when every layer does; then record i is the
      record of layer i, and otherwise the error is that of the first layer
      that fails. */
  lemma {:induction false} LayersSpecShape(comp: Composition, layers: seq<Layer>)
    requires comp.frameRate > 0.0
    ensures LayersSpec(comp, layers).Ok? <==> forall i :: 0 <= i < |layers| ==> LayerSpec(layers[i], comp).Ok?
    ensures LayersSpec(comp, layers).Ok? ==>
      |LayersSpec(comp, layers).value| == |layers| &&
      forall i :: 0 <= i < |layers| ==> LayersSpec(comp, layers).value[i] == LayerSpec(layers[i], comp).value
    ensures LayersSpec(comp, layers).Err? ==>
      exists j :: 0 <= j < |layers| && LayerSpec(layers[j], comp).Err? &&
        LayersSpec(comp, layers).error == LayerSpec(layers[j], comp).error &&
        forall i :: 0 <= i < j ==> LayerSpec(layers[i], comp).Ok?
  {
    if layers != [] {
      var init := layers[..|layers| - 1];
      LayersSpecShape(comp, init);
      forall i | 0 <= i < |init| ensures init[i] == layers[i] { }
      if LayersSpec(comp, init).Err? {
        var j :| 0 <= j < |init| && LayerSpec(init[j], comp).Err? &&
          LayersSpec(comp, init).error == LayerSpec(init[j], comp).error &&
          forall i :: 0 <= i < j ==> LayerSpec(init[i], comp).Ok?;
        assert LayerSpec(layers[j], comp).Err?;
      }
    }
  }

  /** The composition record copies name, duration, frame rate, width and
      height and holds one record per layer, in layer order; it fails exactly
      when some layer lacks the "Puppet" effect and the frame loop runs. */
  lemma CompRecordShape(comp: Composition)
    requires comp.frameRate > 0.0
    ensures CompSpec(comp).Ok? <==>
      FrameCount(comp) == 0 || forall i :: 0 <= i < |comp.layers| ==> comp.layers[i].puppet.Some?
    ensures CompSpec(comp).Ok? ==>
      var rec := CompSpec(comp).value;
      rec.name == comp.name && rec.duration == comp.duration && rec.frameRate == comp.frameRate &&
      rec.width == comp.width && rec.height == comp.height &&
      |rec.layers| == |comp.layers| &&
      forall i :: 0 <= i < |comp.layers| ==> rec.layers[i] == LayerSpec(comp.layers[i], comp).value
  {
    LayersSpecShape(comp, comp.layers);
  }
}
