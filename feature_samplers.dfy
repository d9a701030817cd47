/** The per-feature samplers of one frame: tracker points, the mesh-warp grid,
    the corner pin and the puppet pins of a layer at a given time. Each loop of
    the script is a method proved equal to a specification function; the
    lemmas state what those functions promise. */
module FeatureSamplers {
  import opened Wrappers
  import opened Host
  import opened Records
  import opened Decimal

  // ---------------------------------------------------------------- tracker

  /** Entry for track point `i` (1-based) of a tracker at `time`. */
  function TrackPointAt(t: Tracker, i: nat, time: real): TrackPointRecord
  {
    TrackPointRecord("Track Point " + NatToString(i), t.attach(i, time), t.confidence(i, time))
  }

  /** The tracker data of a layer: one entry per track point, in point order. */
  function TrackerSpec(layer: Layer, time: real): seq<TrackPointRecord>
  {
    match layer.tracker
    case None => []
    case Some(t) => seq(t.numTrackPoints, k requires 0 <= k => TrackPointAt(t, k + 1, time))
  }

  /** Walks track points 1..numTrackPoints and pushes one named entry each. */
  method GetTrackerData(layer: Layer, time: real) returns (trackerData: seq<TrackPointRecord>)
    ensures trackerData == TrackerSpec(layer, time)
  {
    trackerData := [];
    if layer.tracker.Some? {
      var tracker := layer.tracker.value;
      var i := 1;
      while i <= tracker.numTrackPoints
        invariant 1 <= i <= tracker.numTrackPoints + 1
        invariant |trackerData| == i - 1
        invariant forall k :: 0 <= k < i - 1 ==> trackerData[k] == TrackPointAt(tracker, k + 1, time)
      {
        trackerData := trackerData + [TrackPointRecord(
          "Track Point " + NatToString(i), tracker.attach(i, time), tracker.confidence(i, time))];
        i := i + 1;
      }
    }
  }

  /** No tracker gives no entries; a tracker with N points gives N entries,
      entry i - 1 named "Track Point i" and sampled from point i at `time`. */
  lemma TrackerSpecShape(layer: Layer, time: real)
    ensures layer.tracker.None? ==> TrackerSpec(layer, time) == []
    ensures layer.tracker.Some? ==>
      var t := layer.tracker.value;
      |TrackerSpec(layer, time)| == t.numTrackPoints &&
      forall i :: 1 <= i <= t.numTrackPoints ==>
        TrackerSpec(layer, time)[i - 1].name == "Track Point " + NatToString(i) &&
        TrackerSpec(layer, time)[i - 1].position == t.attach(i, time) &&
        TrackerSpec(layer, time)[i - 1].confidence == t.confidence(i, time)
  {
  }

  /** No two tracker entries share a name. */
  lemma TrackPointNamesDistinct(layer: Layer, time: real, j: nat, k: nat)
    requires j < k < |TrackerSpec(layer, time)|
    ensures TrackerSpec(layer, time)[j].name != TrackerSpec(layer, time)[k].name
  {
    var prefix := "Track Point ";
    var nj, nk := NatToString(j + 1), NatToString(k + 1);
    if prefix + nj == prefix + nk {
      assert nj == (prefix + nj)[|prefix|..] == (prefix + nk)[|prefix|..] == nk;
      NatToStringInjective(j + 1, k + 1);
    }
  }

  // ------------------------------------------------------------- mesh warp

  /** The record of vertex (r, c) of a mesh at `time`. */
  function VertexAt(m: Mesh, r: nat, c: nat, time: real): MeshVertex
  {
    MeshVertex(r, c, m.vertex(r, c, time))
  }

  /** The first `n` vertices of row `r`, by column. */
  function RowVertices(m: Mesh, r: nat, n: nat, time: real): seq<MeshVertex>
  {
    seq(n, c requires 0 <= c => VertexAt(m, r, c, time))
  }

  /** All vertices of the first `n` rows, row-major. */
  function GridVertices(m: Mesh, n: nat, time: real): seq<MeshVertex>
  {
    if n == 0 then [] else GridVertices(m, n - 1, time) + RowVertices(m, n - 1, m.columns, time)
  }

  /** The mesh-warp data of a layer: None without a mesh, else the whole grid. */
  function MeshSpec(layer: Layer, time: real): Option<MeshRecord>
  {
    match layer.mesh
    case None => None
    case Some(m) => Some(MeshRecord(m.rows, m.columns, GridVertices(m, m.rows, time)))
  }

  /** Pushes every vertex in nested row and column loops. */
  method GetMeshWarpData(layer: Layer, time: real) returns (meshData: Option<MeshRecord>)
    ensures meshData == MeshSpec(layer, time)
  {
    meshData := None;
    if layer.mesh.Some? {
      var mesh := layer.mesh.value;
      var vertices: seq<MeshVertex> := [];
      var r := 0;
      while r < mesh.rows
        invariant 0 <= r <= mesh.rows
        invariant vertices == GridVertices(mesh, r, time)
      {
        var c := 0;
        while c < mesh.columns
          invariant 0 <= c <= mesh.columns
          invariant vertices == GridVertices(mesh, r, time) + RowVertices(mesh, r, c, time)
        {
          assert RowVertices(mesh, r, c + 1, time) == RowVertices(mesh, r, c, time) + [VertexAt(mesh, r, c, time)];
          vertices := vertices + [MeshVertex(r, c, mesh.vertex(r, c, time))];
          c := c + 1;
        }
        r := r + 1;
      }
      meshData := Some(MeshRecord(mesh.rows, mesh.columns, vertices));
    }
  }

  /** The first `n` rows hold n * columns vertices. */
  lemma {:induction false} GridVerticesLength(m: Mesh, n: nat, time: real)
    ensures |GridVertices(m, n, time)| == n * m.columns
  {
    if n > 0 {
      GridVerticesLength(m, n - 1, time);
    }
  }

  /** Vertex (r, c) of the first `n` rows sits at index r * columns + c. */
  lemma {:induction false} GridVerticesAt(m: Mesh, n: nat, time: real, r: nat, c: nat)
    requires r < n && c < m.columns
    ensures |GridVertices(m, n, time)| == n * m.columns
    ensures r * m.columns + c < n * m.columns
    ensures GridVertices(m, n, time)[r * m.columns + c] == VertexAt(m, r, c, time)
  {
    GridVerticesLength(m, n, time);
    GridVerticesLength(m, n - 1, time);
    var before := (n - 1) * m.columns;
    var i := r * m.columns + c;
    if r < n - 1 {
      GridVerticesAt(m, n - 1, time, r, c);
      assert i < before;
      assert GridVertices(m, n, time)[i] == GridVertices(m, n - 1, time)[i];
    } else {
      assert i == before + c;
    }
  }

  lemma MulMonotone(a: nat, b: nat, c: nat)
    requires a <= b
    ensures a * c <= b * c
  {
  }

  /** Index k of a grid holds vertex (k / columns, k % columns): the row-major
      order covers every (row, column) pair exactly once. */
  lemma GridVertexIndex(m: Mesh, time: real, k: nat)
    requires k < |GridVertices(m, m.rows, time)|
    ensures m.columns > 0
    ensures k / m.columns < m.rows
    ensures GridVertices(m, m.rows, time)[k] == VertexAt(m, k / m.columns, k % m.columns, time)
  {
    GridVerticesLength(m, m.rows, time);
    if m.columns == 0 {
      assert false;
    }
    var r, c := k / m.columns, k % m.columns;
    assert k == r * m.columns + c;
    if r >= m.rows {
      MulMonotone(m.rows, r, m.columns);
    }
    GridVerticesAt(m, m.rows, time, r, c);
  }

  /** No mesh gives None; a present mesh gives its rows and columns and
      rows * columns vertices. */
  lemma MeshSpecShape(layer: Layer, time: real)
    ensures MeshSpec(layer, time).None? <==> layer.mesh.None?
    ensures layer.mesh.Some? ==>
      var m, rec := layer.mesh.value, MeshSpec(layer, time).value;
      rec.rows == m.rows && rec.columns == m.columns && |rec.vertices| == m.rows * m.columns
  {
    if layer.mesh.Some? {
      GridVerticesLength(layer.mesh.value, layer.mesh.value.rows, time);
    }
  }

  /** In a present mesh, vertex (r, c) sits at index r * columns + c and
      carries row r, column c and the vertex's position at `time`. */
  lemma MeshVertexAt(layer: Layer, time: real, r: nat, c: nat)
    requires layer.mesh.Some? && r < layer.mesh.value.rows && c < layer.mesh.value.columns
    ensures var m, rec := layer.mesh.value, MeshSpec(layer, time).value;
      r * m.columns + c < |rec.vertices| && rec.vertices[r * m.columns + c] == VertexAt(m, r, c, time)
  {
    GridVerticesAt(layer.mesh.value, layer.mesh.value.rows, time, r, c);
  }

  /** A present mesh with no rows or no columns is a record with no vertices,
      never None. */
  lemma MeshEmptyGrid(layer: Layer, time: real)
    requires layer.mesh.Some? && (layer.mesh.value.rows == 0 || layer.mesh.value.columns == 0)
    ensures MeshSpec(layer, time).Some? && MeshSpec(layer, time).value.vertices == []
  {
    var m := layer.mesh.value;
    GridVerticesLength(m, m.rows, time);
    assert m.rows * m.columns == 0;
  }

  // ------------------------------------------------------------ corner pin

  /** The corner-pin data of a layer: None without the "Corner Pin" effect,
      else its four corners, all sampled at `time`. */
  function CornerPinData(layer: Layer, time: real): Option<CornerPinRecord>
  {
    match layer.cornerPin
    case None => None
    case Some(e) => Some(CornerPinRecord(e.topLeft(time), e.topRight(time), e.bottomRight(time), e.bottomLeft(time)))
  }

  // ----------------------------------------------------------- puppet pins

  /** The match name of a puppet position pin. */
  const PosPinMatchName: string := "ADBE FreePin3 PosPin"

  predicate IsPosPin(p: PuppetProperty)
  {
    p.matchName == PosPinMatchName
  }

  function PinRecord(p: PuppetProperty, time: real): PuppetPinRecord
  {
    PuppetPinRecord(p.name, p.position(time))
  }

  /** The position pins among `props`, in their order, sampled at `time`. */
  function PosPins(props: seq<PuppetProperty>, time: real): seq<PuppetPinRecord>
  {
    if props == [] then []
    else
      var last := props[|props| - 1];
      PosPins(props[..|props| - 1], time) + (if IsPosPin(last) then [PinRecord(last, time)] else [])
  }

  /** The indices of the position pins among `props`, ascending. */
  function PinIndices(props: seq<PuppetProperty>): seq<nat>
  {
    if props == [] then []
    else
      PinIndices(props[..|props| - 1]) + (if IsPosPin(props[|props| - 1]) then [|props| - 1] else [])
  }

  /** The puppet-pin list of a frame. The script reads `numProperties` of the
      "Puppet" effect without checking that the effect exists, so a layer
      without it throws. */
  function PuppetPinsSpec(layer: Layer, time: real): Result<seq<PuppetPinRecord>, Error>
  {
    match layer.puppet
    case None => Err(PuppetEffectMissing(layer.index))
    case Some(p) => Ok(PosPins(p.properties, time))
  }

  /** Scans properties 1..numProperties and pushes each position pin. */
  method GetPuppetPins(layer: Layer, time: real) returns (r: Result<seq<PuppetPinRecord>, Error>)
    ensures r == PuppetPinsSpec(layer, time)
  {
    if layer.puppet.None? {
      return Err(PuppetEffectMissing(layer.index));
    }
    var puppetPins: seq<PuppetPinRecord> := [];
    var puppet := layer.puppet.value;
    if |puppet.properties| > 0 {
      var i := 1;
      while i <= |puppet.properties|
        invariant 1 <= i <= |puppet.properties| + 1
        invariant puppetPins == PosPins(puppet.properties[..i - 1], time)
      {
        assert puppet.properties[..i][..i - 1] == puppet.properties[..i - 1];
        var prop := puppet.properties[i - 1];
        if prop.matchName == PosPinMatchName {
          puppetPins := puppetPins + [PuppetPinRecord(prop.name, prop.position(time))];
        }
        i := i + 1;
      }
      assert puppet.properties[..i - 1] == puppet.properties;
    }
    return Ok(puppetPins);
  }

  /** The pins are exactly the position-pin subsequence of `props`: at most as
      many as there are properties, each taken from a position pin at an
      ascending index, and every position pin taken. */
  lemma {:induction false} PosPinsSubsequence(props: seq<PuppetProperty>, time: real)
    ensures |PinIndices(props)| == |PosPins(props, time)| <= |props|
    ensures forall j :: 0 <= j < |PinIndices(props)| ==>
      PinIndices(props)[j] < |props| && IsPosPin(props[PinIndices(props)[j]]) &&
      PosPins(props, time)[j] == PinRecord(props[PinIndices(props)[j]], time)
    ensures forall j, k :: 0 <= j < k < |PinIndices(props)| ==> PinIndices(props)[j] < PinIndices(props)[k]
    ensures forall i :: 0 <= i < |props| && IsPosPin(props[i]) ==> i in PinIndices(props)
  {
    if props != [] {
      var init := props[..|props| - 1];
      PosPinsSubsequence(init, time);
      forall i | 0 <= i < |init| ensures init[i] == props[i] { }
    }
  }

  /** Filtering distributes over concatenation: the pins of a + b are the pins
      of a followed by the pins of b. */
  lemma {:induction false} PosPinsAppend(a: seq<PuppetProperty>, b: seq<PuppetProperty>, time: real)
    ensures PosPins(a + b, time) == PosPins(a, time) + PosPins(b, time)
  {
    if b == [] {
      assert a + b == a;
    } else {
      var init := b[..|b| - 1];
      PosPinsAppend(a, init, time);
      assert (a + b)[..|a + b| - 1] == a + init;
    }
  }

  /** Properties without a position pin give no pins. */
  lemma {:induction false} PosPinsNone(props: seq<PuppetProperty>, time: real)
    requires forall i :: 0 <= i < |props| ==> !IsPosPin(props[i])
    ensures PosPins(props, time) == []
  {
    if props != [] {
      PosPinsNone(props[..|props| - 1], time);
    }
  }

  /** No puppet effect is an error; a puppet effect without position pins
      (in particular one with no properties) gives no pins. */
  lemma PuppetPinsSpecShape(layer: Layer, time: real)
    ensures PuppetPinsSpec(layer, time).Err? <==> layer.puppet.None?
    ensures (layer.puppet.Some? &&
             forall i :: 0 <= i < |layer.puppet.value.properties| ==> !IsPosPin(layer.puppet.value.properties[i]))
            ==> PuppetPinsSpec(layer, time) == Ok([])
  {
    if layer.puppet.Some? && forall i :: 0 <= i < |layer.puppet.value.properties| ==>
      !IsPosPin(layer.puppet.value.properties[i])
    {
      PosPinsNone(layer.puppet.value.properties, time);
    }
  }
}
