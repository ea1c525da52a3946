/** The Wireframe object: the volume's extents and sample spacings, and the
    buffers initWireframeBuffers hands to the renderer (the centred vertex
    buffer, the wireframe element buffer and the outline element buffer) with
    the element counts the draw calls use. */
module WireframeMesh {
  import opened Geometry
  import opened GridLayout
  import opened GridSpec
  import opened WireIndices
  import opened WireVertices
  import opened WireBuilders
  import opened Lattice

  /** The extents and spacings give at least two samples on every axis. */
  predicate Buildable(dims: (int, int, int), spacings: (real, real, real))
  {
    NonZeroSpacings(spacings) && ValidCounts(CountsOf(dims, spacings))
  }

  class Wireframe {
    var dims: (int, int, int)
    var spacings: (real, real, real)
    var interior: bool

    /** Contents of the vertex buffer: three coordinates per vertex. */
    var vertices: seq<real>
    /** Contents of the wireframe element buffer: internal lines, then the outline. */
    var indices: seq<int>
    /** Contents of the outline element buffer. */
    var outlineIdx: seq<int>
    var wireframeIdxCount: int
    var outlineIdxCount: int

    /** The buffers are those of the current extents and spacings: vertex k
        is the centred position of the grid point stored at index k, the
        wireframe buffer is the internal lines followed by the outline, and
        the counts are the lengths of the two element buffers. */
    predicate BuffersMatch()
      reads this
    {
      Buildable(dims, spacings) &&
      var c := CountsOf(dims, spacings);
      |vertices| == 3 * VertexCount(c) &&
      (forall k :: 0 <= k < VertexCount(c) ==> VertexAt(vertices, k) == CentredPosition(c, CoordOf(c, k))) &&
      indices == Flatten(InternalWires(c)) + Flatten(OutlineWires(c)) &&
      outlineIdx == Flatten(OutlineWires(c)) &&
      wireframeIdxCount == |indices| && outlineIdxCount == |outlineIdx|
    }

    constructor(xdim: int, ydim: int, zdim: int, xspacing: real, yspacing: real, zspacing: real, interior: bool)
      requires Buildable((xdim, ydim, zdim), (xspacing, yspacing, zspacing))
      ensures dims == (xdim, ydim, zdim) && spacings == (xspacing, yspacing, zspacing)
      ensures this.interior == interior
      ensures BuffersMatch()
    {
      this.interior := interior;
      new;
      SetDimension(xdim, ydim, zdim);
      SetSpacing(xspacing, yspacing, zspacing);
      InitWireframeBuffers();
    }

    /** Records new extents; the buffers are left as they are until rebuilt. */
    method SetDimension(xdim: int, ydim: int, zdim: int)
      modifies this`dims
      ensures dims == (xdim, ydim, zdim)
    {
      dims := (xdim, ydim, zdim);
    }

    /** Records new spacings; the buffers are left as they are until rebuilt. */
    method SetSpacing(xspacing: real, yspacing: real, zspacing: real)
      modifies this`spacings
      ensures spacings == (xspacing, yspacing, zspacing)
    {
      spacings := (xspacing, yspacing, zspacing);
    }

    /** Rebuilds every buffer from the current extents and spacings. */
    method InitWireframeBuffers()
      requires Buildable(dims, spacings)
      modifies this`vertices, this`indices, this`outlineIdx, this`wireframeIdxCount, this`outlineIdxCount
      ensures BuffersMatch()
      ensures var c := CountsOf(dims, spacings);
        wireframeIdxCount == 8 * ((c.x - 2) + (c.y - 2) + (c.z - 2)) + 24 && outlineIdxCount == 24
    {
      var xdim, ydim, zdim := dims.0, dims.1, dims.2;
      var xspacing, yspacing, zspacing := spacings.0, spacings.1, spacings.2;
      var xCount := (xdim as real / xspacing).Floor;
      var yCount := (ydim as real / yspacing).Floor;
      var zCount := (zdim as real / zspacing).Floor;
      var vtxCounts := Counts(xCount, yCount, zCount);
      assert vtxCounts == CountsOf(dims, spacings);
      var dimLength := NormalizedExtent(vtxCounts);

      var gridVertices := GridVertices(vtxCounts);
      var a := new real[|gridVertices|](i => if 0 <= i < |gridVertices| then gridVertices[i] else 0.0);
      assert a[..] == gridVertices;
      CenterVertices(a, dimLength);
      vertices := a[..];
      CentredBuffer(vtxCounts, gridVertices, vertices);

      var internalWireframeIdx := WireframeIndices(vtxCounts);
      var outline := OutlineIndices(vtxCounts);
      indices := internalWireframeIdx + outline;
      outlineIdx := outline;
      wireframeIdxCount := |indices|;
      outlineIdxCount := |outlineIdx|;
    }
  }

  /** Centering the grid positions vertex by vertex gives the centred positions. */
  lemma CentredBuffer(c: Counts, grid: seq<real>, centred: seq<real>)
    requires ValidCounts(c)
    requires |grid| == 3 * VertexCount(c) && |centred| == |grid|
    requires forall k :: 0 <= k < VertexCount(c) ==> VertexAt(grid, k) == GridPosition(c, CoordOf(c, k))
    requires forall k :: 0 <= k < |grid| / 3 ==> VertexAt(centred, k) == Centred(VertexAt(grid, k), NormalizedExtent(c))
    ensures forall k :: 0 <= k < VertexCount(c) ==> VertexAt(centred, k) == CentredPosition(c, CoordOf(c, k))
  {
    assert |grid| / 3 == VertexCount(c);
  }

  /** Every vertex of matching buffers lies in the centred box of the
      normalized extents: half the extent either side of the origin. */
  lemma VerticesInCentredBox(w: Wireframe)
    requires w.BuffersMatch()
    ensures var c := CountsOf(w.dims, w.spacings);
      var len := NormalizedExtent(c);
      forall k :: 0 <= k < |w.vertices| / 3 ==>
        -len.x / 2.0 <= VertexAt(w.vertices, k).x <= len.x / 2.0 &&
        -len.y / 2.0 <= VertexAt(w.vertices, k).y <= len.y / 2.0 &&
        -len.z / 2.0 <= VertexAt(w.vertices, k).z <= len.z / 2.0
  {
    var c := CountsOf(w.dims, w.spacings);
    forall k | 0 <= k < |w.vertices| / 3
      ensures CentredOnAxis(VertexAt(w.vertices, k).x, NormalizedExtent(c).x, CoordOf(c, k).col, c.x)
      ensures CentredOnAxis(VertexAt(w.vertices, k).y, NormalizedExtent(c).y, CoordOf(c, k).row, c.y)
      ensures CentredOnAxis(VertexAt(w.vertices, k).z, NormalizedExtent(c).z, CoordOf(c, k).layer, c.z)
    {
      CoordOfRoundTrip(c, k);
      CentredPositionBounds(c, CoordOf(c, k));
    }
  }

  /** The two vertices a pair of grid indices names are axis-aligned when the
      grid points differ along one axis. */
  lemma PairAligned(w: Wireframe, c: Counts, i: int, j: int)
    requires w.BuffersMatch() && c == CountsOf(w.dims, w.spacings)
    requires 0 <= i < VertexCount(c) && 0 <= j < VertexCount(c)
    requires DiffersInOneAxis(CoordOf(c, i), CoordOf(c, j))
    ensures AxisAligned(VertexAt(w.vertices, i), VertexAt(w.vertices, j))
  {
    CentredPositionAxes(c, CoordOf(c, i), CoordOf(c, j));
  }

  /** An interior line of the wireframe buffer is axis-aligned. */
  lemma InnerPairAligned(w: Wireframe, c: Counts, k: int)
    requires w.BuffersMatch() && c == CountsOf(w.dims, w.spacings)
    requires 0 <= k < |InternalWires(c)|
    ensures var inner := Flatten(InternalWires(c));
      2 * k + 1 < |inner| && 0 <= inner[2 * k] < VertexCount(c) && 0 <= inner[2 * k + 1] < VertexCount(c) &&
      AxisAligned(VertexAt(w.vertices, inner[2 * k]), VertexAt(w.vertices, inner[2 * k + 1]))
  {
    var inner := Flatten(InternalWires(c));
    FlattenPairs(InternalWires(c));
    WireframeIndicesJoinLines(c);
    PairAligned(w, c, inner[2 * k], inner[2 * k + 1]);
  }

  /** An outline edge is axis-aligned. */
  lemma OuterPairAligned(w: Wireframe, c: Counts, m: int)
    requires w.BuffersMatch() && c == CountsOf(w.dims, w.spacings)
    requires 0 <= m < 12
    ensures var outer := Flatten(OutlineWires(c));
      2 * m + 1 < |outer| && 0 <= outer[2 * m] < VertexCount(c) && 0 <= outer[2 * m + 1] < VertexCount(c) &&
      AxisAligned(VertexAt(w.vertices, outer[2 * m]), VertexAt(w.vertices, outer[2 * m + 1]))
  {
    var outer := Flatten(OutlineWires(c));
    OutlineIndicesSound(c);
    PairAligned(w, c, outer[2 * m], outer[2 * m + 1]);
  }

  lemma TwiceIsEven(m: int)
    ensures (2 * m) % 2 == 0
  {
  }

  /** What the draw calls rely on: both element buffers hold whole line pairs,
      every index names a vertex of the vertex buffer, and every line drawn,
      interior or outline, runs parallel to one axis of the volume. */
  lemma BuffersDrawable(w: Wireframe)
    requires w.BuffersMatch()
    ensures |w.indices| % 2 == 0 && |w.outlineIdx| == 24
    ensures forall j :: 0 <= j < |w.indices| ==> 0 <= w.indices[j] < |w.vertices| / 3
    ensures forall j :: 0 <= j < |w.outlineIdx| ==> 0 <= w.outlineIdx[j] < |w.vertices| / 3
    ensures forall k :: 0 <= k < |w.indices| / 2 ==>
      AxisAligned(VertexAt(w.vertices, w.indices[2 * k]), VertexAt(w.vertices, w.indices[2 * k + 1]))
  {
    var c := CountsOf(w.dims, w.spacings);
    var inner, outer := Flatten(InternalWires(c)), Flatten(OutlineWires(c));
    WireframeIndicesInRange(c);
    OutlineIndicesSound(c);
    var n := |InternalWires(c)|;
    assert |inner| == 2 * n && |outer| == 24;
    assert w.indices == inner + outer;
    assert |w.indices| == 2 * (n + 12);
    TwiceIsEven(n + 12);
    assert |w.vertices| / 3 == VertexCount(c);
    forall j | 0 <= j < |w.indices|
      ensures 0 <= w.indices[j] < VertexCount(c)
    {
      if j < |inner| {
        assert w.indices[j] == inner[j];
      } else {
        assert w.indices[j] == outer[j - |inner|];
      }
    }
    forall k | 0 <= k < |w.indices| / 2
      ensures AxisAligned(VertexAt(w.vertices, w.indices[2 * k]), VertexAt(w.vertices, w.indices[2 * k + 1]))
    {
      if k < n {
        InnerPairAligned(w, c, k);
        assert w.indices[2 * k] == inner[2 * k] && w.indices[2 * k + 1] == inner[2 * k + 1];
      } else {
        var m := k - n;
        assert 2 * k == |inner| + 2 * m;
        OuterPairAligned(w, c, m);
        assert w.indices[2 * k] == outer[2 * m] && w.indices[2 * k + 1] == outer[2 * m + 1];
      }
    }
  }
}
