# After Effects tracking data export — record assembly

A Dafny model of the part of the After Effects script
`AfterEffectTrackingDataExportScript.jsx` that walks a composition and builds
the export document: `collectCompData` walks the layers in order,
`collectLayerData` samples each layer once per frame, and each frame record
gathers the layer's transform, its corner pin, its puppet pins, its tracker
points (`getTrackerData`) and its mesh-warp grid (`getMeshWarpData`).

The After Effects host is modelled abstractly (module `Host`): a composition
holds its settings and a sequence of layers; a layer holds its name, index,
match name, one function per transform property from a time in seconds to
the value `valueAtTime(time, false)` gives, and four optional features
(tracker, mesh, "Corner Pin" effect, "Puppet" effect), each an `Option`.
Sampled values stay opaque: no arithmetic is done on them. Position, anchor
point, scale, tracker attach points, mesh vertices, corner points and pin
positions are arrays of reals (`seq<real>`); rotation, opacity and tracker
confidence are single reals. Times are exact reals, `frame / frameRate`.

Every loop of the script that builds a result by `push` is a method with a
`while` loop (`GetTrackerData`, `GetMeshWarpData`, `GetPuppetPins`,
`CollectLayerData`, `CollectCompData`), proved equal to a specification
function (`TrackerSpec`, `MeshSpec`, `PuppetPinsSpec`, `LayerSpec`,
`CompSpec`); the lemmas state what those functions promise.

Modules, leaf first: `Wrappers` (Option, Result), `Host` (the scene graph the
script reads), `Records` (the document), `Decimal` (the decimal rendering
used in track point names), `FeatureSamplers` (tracker, mesh, corner pin,
puppet pins), `Collectors` (frame loop, layer loop).

Behaviour kept from the code:

- The script reads `layer.effect("Puppet").numProperties` without checking
  that the effect exists (line 118), while the corner pin is checked first
  (line 107). A layer without a "Puppet" effect therefore throws in its first
  frame, and the exception leaves `collectCompData` with no record. The model
  returns `Err(PuppetEffectMissing(index))` for that layer, and the
  composition fails with the error of the first such layer. The comment
  "if available" on line 116 suggests an empty pin list was meant; the model
  follows the code.
- The frame loop runs `frame = 0 .. floor(duration * frameRate)`; when that
  floor is negative the loop does not run, the layer has no frames and no
  error is raised even without a "Puppet" effect.
- The skew of every frame comes from `transform.value`, which is read without
  a time argument, so it is one value per layer (`Layer.matrixSkew`), the same
  in every frame.
- `position[0]` of an array with fewer components is `undefined` in
  JavaScript; the model's `Component` gives `None` there.

## Model

| member | source | states |
|---|---|---|
| Decimal.NatToString | AfterEffectTrackingDataExportScript.jsx:41 | the number in a track point name is rendered as one or more decimal digits, without a leading zero, a single digit exactly for numbers below ten |
| Decimal.NatToStringValue | AfterEffectTrackingDataExportScript.jsx:41 | the rendering of a track point number, read back as decimal digits most significant first, is that number |
| Decimal.NatToStringInjective | AfterEffectTrackingDataExportScript.jsx:41 | different track point numbers give different renderings |
| FeatureSamplers.GetTrackerData | AfterEffectTrackingDataExportScript.jsx:33-49 | the loop over track points 1..numTrackPoints builds exactly the tracker specification: nothing without a tracker, else one entry per point in point order |
| FeatureSamplers.TrackerSpecShape | AfterEffectTrackingDataExportScript.jsx:33-48 | no tracker gives []; otherwise numTrackPoints entries, entry i-1 named "Track Point " + i with the attach point and confidence of point i at the given time |
| FeatureSamplers.TrackPointNamesDistinct | AfterEffectTrackingDataExportScript.jsx:38-44 | no two tracker entries of one frame share a name |
| FeatureSamplers.GetMeshWarpData | AfterEffectTrackingDataExportScript.jsx:52-75 | the nested row and column loops build exactly the mesh specification: None without a mesh, else the record with every vertex row-major |
| FeatureSamplers.GridVerticesLength | AfterEffectTrackingDataExportScript.jsx:63-71 | the first n rows of the grid hold n * columns vertices |
| FeatureSamplers.GridVerticesAt | AfterEffectTrackingDataExportScript.jsx:63-70 | vertex (r, c) sits at index r * columns + c and carries row r, column c and the vertex's position at the given time |
| FeatureSamplers.GridVertexIndex | AfterEffectTrackingDataExportScript.jsx:63-70 | every index k of the grid holds vertex (k / columns, k % columns), so each (row, column) pair appears exactly once |
| FeatureSamplers.MeshSpecShape | AfterEffectTrackingDataExportScript.jsx:52-75 | the mesh record is None exactly when the layer has no mesh; otherwise it copies rows and columns and holds rows * columns vertices |
| FeatureSamplers.MeshVertexAt | AfterEffectTrackingDataExportScript.jsx:63-70 | in a present mesh, vertex (r, c) sits at index r * columns + c with row r, column c and the position of vertex (r, c) at the given time |
| FeatureSamplers.MeshEmptyGrid | AfterEffectTrackingDataExportScript.jsx:53-62 | a mesh with no rows or no columns gives a record with no vertices, never None |
| FeatureSamplers.GetPuppetPins | AfterEffectTrackingDataExportScript.jsx:116-129 | the filtering loop over properties 1..numProperties builds exactly the puppet-pin specification, and fails when the layer has no "Puppet" effect |
| FeatureSamplers.PosPinsSubsequence | AfterEffectTrackingDataExportScript.jsx:120-127 | the pins are exactly the properties whose match name is "ADBE FreePin3 PosPin", at ascending indices, each with its name and position at the given time, every such property taken, at most numProperties of them |
| FeatureSamplers.PosPinsAppend | AfterEffectTrackingDataExportScript.jsx:120-127 | the pins of two property lists joined are the pins of the first followed by the pins of the second, so the filter keeps the original order |
| FeatureSamplers.PosPinsNone | AfterEffectTrackingDataExportScript.jsx:118-128 | properties of which none is a position pin, in particular no properties, give no pins |
| FeatureSamplers.PuppetPinsSpecShape | AfterEffectTrackingDataExportScript.jsx:117-129 | the pin list fails exactly when the layer has no "Puppet" effect, and is [] when the effect has no position pins |
| Collectors.CollectLayerData | AfterEffectTrackingDataExportScript.jsx:78-162 | the frame loop builds exactly the layer specification: frames 0..floor(duration * frameRate) each sampled at frame / frameRate, or the puppet error of the first frame |
| Collectors.FrameCountOfDuration | AfterEffectTrackingDataExportScript.jsx:86-88 | with a non-negative duration the loop runs floor(duration * frameRate) + 1 times |
| Collectors.LayerFrames | AfterEffectTrackingDataExportScript.jsx:79-89 | the layer record copies name, index and match name and holds one frame per loop turn, frame k numbered k and timed k / frameRate; it fails exactly when the layer has no "Puppet" effect and the loop runs |
| Collectors.FrameTimesAscend | AfterEffectTrackingDataExportScript.jsx:88-89 | frame times strictly ascend with the frame index |
| Collectors.FrameTransform | AfterEffectTrackingDataExportScript.jsx:92-150 | x and y of position, anchor point and scale are components [0] and [1] of the values sampled at the frame's time, rotation and opacity are the sampled values, skew is the layer's matrix skew in every frame |
| Collectors.FrameFeatures | AfterEffectTrackingDataExportScript.jsx:105-155 | the corner pin is present exactly when the "Corner Pin" effect is, with its four corners sampled at the frame's time; puppet pins, tracker points and mesh data are the samplers' results at the frame's time |
| Collectors.FeaturelessLayer | AfterEffectTrackingDataExportScript.jsx:105-155 | a layer with no tracker, mesh or corner pin and a "Puppet" effect without position pins has [], None, None and [] in every frame |
| Collectors.LayersErrPersists | AfterEffectTrackingDataExportScript.jsx:176-179 | once a layer throws, the layers after it do not change the outcome |
| Collectors.CollectCompData | AfterEffectTrackingDataExportScript.jsx:165-182 | the layer loop over 1..numLayers builds exactly the composition specification |
| Collectors.LayersSpecShape | AfterEffectTrackingDataExportScript.jsx:176-179 | the layer list succeeds exactly when every layer does, record i then being the record of layer i+1; otherwise the error is that of the first failing layer |
| Collectors.CompRecordShape | AfterEffectTrackingDataExportScript.jsx:165-181 | the composition record copies name, duration, frame rate, width and height and holds one record per layer in layer order; it fails exactly when the loop runs and some layer has no "Puppet" effect |

## Left out

- `radiansToDegrees` and `decomposeTransform` (lines 7-30): floating-point square roots and arc tangents; the skew they produce is taken as a given value per layer (`Layer.matrixSkew`).
- `exportToJSON` (lines 185-195): file output and `JSON.stringify`.
- `createUI`, its button callbacks, `getCompNames` and the open-project check (lines 198-254): the ScriptUI dialog and the host project.
- The host's evaluation of properties (`valueAtTime`) and its presence probes (`layer.motionTracker`, `layer.effect.meshWarp`, `layer.effect("Corner Pin")`, `layer.effect("Puppet")`): modelled only as functions of time and `Option` values.
- Floating point: times and frame counts are exact reals and integers, so rounding in `duration * frameRate` and `frame / frameRate` is not modelled.
- Collectors.CollectLayerData: requires a positive frame rate; with a zero frame rate the script divides by zero and produces NaN times, which reals cannot express.
- Collectors.CollectCompData: requires a positive frame rate, for the same reason.
