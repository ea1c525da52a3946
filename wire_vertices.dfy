/** The wireframe's vertex buffer, built as the generator builds it: the
    bottom cap face, one corner square per interior layer, the top cap face.
    Each builder is proved to place vertex k at the grid position of the
    point GridLayout.CoordOf(c, k), so the index lemmas of WireIndices speak
    about the vertices this buffer really holds. */
module WireVertices {
  import opened Geometry
  import opened GridLayout
  import opened GridSpec

  /** Vertex `k` of a cap face with `nx` columns and `ny` rows, at height `z`. */
  function CapVertex(nx: int, ny: int, xStep: real, yStep: real, z: real, k: int): Vec3
  {
    Vec3(Scaled(CapCoord(nx, ny, k).0, xStep), Scaled(CapCoord(nx, ny, k).1, yStep), z)
  }

  /** Corner `i` of a square of extent (xLen, yLen) at height `z`, in the order
      (0,0), (xLen,0), (0,yLen), (xLen,yLen). */
  function SquareCorner(xLen: real, yLen: real, z: real, i: int): Vec3
  {
    Vec3(if i % 2 == 0 then 0.0 else xLen, if i % 4 < 2 then 0.0 else yLen, z)
  }

  /** Vertex `m` of the block of interior-layer squares: corner m % 4 of layer m / 4 + 1. */
  function MidVertex(len: Vec3, zStep: real, m: int): Vec3
  {
    SquareCorner(len.x, len.y, Scaled(m / 4 + 1, zStep), m)
  }

  /** The `xCount` points i * xStepLen on the line at (y, z). */
  method LineVtx(xStepLen: real, xCount: int, y: real, z: real) returns (vertices: seq<real>)
    requires xCount >= 0
    ensures |vertices| == 3 * xCount
    ensures forall i :: 0 <= i < xCount ==> VertexAt(vertices, i) == Vec3(Scaled(i, xStepLen), y, z)
  {
    var a := new real[3 * xCount];
    var vtxIdx := 0;
    for i := 0 to xCount
      invariant vtxIdx == 3 * i
      invariant forall k :: 0 <= k < i ==>
        a[3 * k] == Scaled(k, xStepLen) && a[3 * k + 1] == y && a[3 * k + 2] == z
    {
      a[vtxIdx] := i as real * xStepLen;
      a[vtxIdx + 1] := y;
      a[vtxIdx + 2] := z;
      vtxIdx := vtxIdx + 3;
    }
    vertices := a[..];
  }

  /** The points of one cap face, interior left out: the front row (all
      columns), the two ends of every interior row, the back row. */
  method FaceVtxNoInterior(xCount: int, yCount: int, xStepLen: real, yStepLen: real, z: real)
    returns (faceVtx: seq<real>)
    requires xCount >= 0 && yCount >= 2
    ensures |faceVtx| == 3 * (2 * xCount + 2 * (yCount - 2))
    ensures forall k :: 0 <= k < 2 * xCount + 2 * (yCount - 2) ==>
      VertexAt(faceVtx, k) == CapVertex(xCount, yCount, xStepLen, yStepLen, z, k)
  {
    var frontLineVtx := LineVtx(xStepLen, xCount, 0.0, z);
    var midLineVtx: seq<real> := [];
    for j := 1 to yCount - 1
      invariant |midLineVtx| == 6 * (j - 1)
      invariant forall r :: 0 <= r < j - 1 ==>
        VertexAt(midLineVtx, 2 * r) == Vec3(0.0, Scaled(r + 1, yStepLen), z) &&
        VertexAt(midLineVtx, 2 * r + 1) == Vec3(Scaled(xCount - 1, xStepLen), Scaled(r + 1, yStepLen), z)
    {
      var xdimLen := xStepLen * (xCount - 1) as real;
      var tmpMidLineVtx := LineVtx(xdimLen, 2, j as real * yStepLen, z);
      MidLinePair(midLineVtx, tmpMidLineVtx, j - 1, xStepLen, xCount, yStepLen, z);
      midLineVtx := midLineVtx + tmpMidLineVtx;
    }
    var backLineVtx := LineVtx(xStepLen, xCount, (yCount - 1) as real * yStepLen, z);
    faceVtx := frontLineVtx + midLineVtx + backLineVtx;
    FaceAssembly(xCount, yCount, xStepLen, yStepLen, z, frontLineVtx, midLineVtx, backLineVtx);
  }

  /** Appending the two ends of interior row r + 1 keeps the mid-line invariant. */
  lemma MidLinePair(mid: seq<real>, tmp: seq<real>, r: int, xStepLen: real, xCount: int, yStepLen: real, z: real)
    requires r >= 0 && |mid| == 6 * r && |tmp| == 6
    requires forall i :: 0 <= i < 2 ==>
      VertexAt(tmp, i) == Vec3(Scaled(i, xStepLen * (xCount - 1) as real), (r + 1) as real * yStepLen, z)
    ensures VertexAt(mid + tmp, 2 * r) == Vec3(0.0, Scaled(r + 1, yStepLen), z)
    ensures VertexAt(mid + tmp, 2 * r + 1) == Vec3(Scaled(xCount - 1, xStepLen), Scaled(r + 1, yStepLen), z)
    ensures forall q :: 0 <= q < 2 * r ==> VertexAt(mid + tmp, q) == VertexAt(mid, q)
  {
    VertexAtRight(mid, tmp, 2 * r, 2 * r);
    VertexAtRight(mid, tmp, 2 * r, 2 * r + 1);
    assert VertexAt(tmp, 0).x == 0.0 * (xStepLen * (xCount - 1) as real) == 0.0;
    assert VertexAt(tmp, 1).x == 1.0 * (xStepLen * (xCount - 1) as real) == (xCount - 1) as real * xStepLen;
    forall q | 0 <= q < 2 * r
      ensures VertexAt(mid + tmp, q) == VertexAt(mid, q)
    {
      VertexAtLeft(mid, tmp, q);
    }
  }

  /** Position m of the interior-row block is end m % 2 of interior row m / 2 + 1. */
  lemma HalfDecode(m: int)
    requires m >= 0
    ensures m / 2 >= 0 && (m == 2 * (m / 2) || m == 2 * (m / 2) + 1)
    ensures m % 2 == m - 2 * (m / 2)
  {
  }

  /** Front row, interior-row ends and back row, concatenated, are the cap face in CapCoord order. */
  lemma FaceAssembly(xCount: int, yCount: int, xStepLen: real, yStepLen: real, z: real,
                     front: seq<real>, mid: seq<real>, back: seq<real>)
    requires xCount >= 0 && yCount >= 2
    requires |front| == 3 * xCount && |mid| == 6 * (yCount - 2) && |back| == 3 * xCount
    requires forall i :: 0 <= i < xCount ==> VertexAt(front, i) == Vec3(Scaled(i, xStepLen), 0.0, z)
    requires forall r :: 0 <= r < yCount - 2 ==>
      VertexAt(mid, 2 * r) == Vec3(0.0, Scaled(r + 1, yStepLen), z) &&
      VertexAt(mid, 2 * r + 1) == Vec3(Scaled(xCount - 1, xStepLen), Scaled(r + 1, yStepLen), z)
    requires forall i :: 0 <= i < xCount ==>
      VertexAt(back, i) == Vec3(Scaled(i, xStepLen), (yCount - 1) as real * yStepLen, z)
    ensures forall k :: 0 <= k < 2 * xCount + 2 * (yCount - 2) ==>
      VertexAt(front + mid + back, k) == CapVertex(xCount, yCount, xStepLen, yStepLen, z, k)
  {
    var n := xCount + 2 * (yCount - 2);
    forall k | 0 <= k < 2 * xCount + 2 * (yCount - 2)
      ensures VertexAt(front + mid + back, k) == CapVertex(xCount, yCount, xStepLen, yStepLen, z, k)
    {
      if k < n {
        VertexAtLeft(front + mid, back, k);
        if k < xCount {
          VertexAtLeft(front, mid, k);
          assert Scaled(0, yStepLen) == 0.0;
        } else {
          VertexAtRight(front, mid, xCount, k);
          var m := k - xCount;
          HalfDecode(m);
          assert Scaled(0, xStepLen) == 0.0;
          if m % 2 == 0 {
            assert VertexAt(mid, m) == VertexAt(mid, 2 * (m / 2));
          } else {
            assert VertexAt(mid, m) == VertexAt(mid, 2 * (m / 2) + 1);
          }
        }
      } else {
        VertexAtRight(front + mid, back, n, k);
      }
    }
  }

  /** The four corners of a square of extent (xdimLen, ydimLen) at height z. */
  method SquareVtx(xdimLen: real, ydimLen: real, z: real) returns (vertices: seq<real>)
    ensures |vertices| == 12
    ensures forall i :: 0 <= i < 4 ==> VertexAt(vertices, i) == SquareCorner(xdimLen, ydimLen, z, i)
  {
    vertices := [
      0.0, 0.0, z,
      xdimLen, 0.0, z,
      0.0, ydimLen, z,
      xdimLen, ydimLen, z
    ];
    assert VertexAt(vertices, 0) == SquareCorner(xdimLen, ydimLen, z, 0);
    assert VertexAt(vertices, 1) == SquareCorner(xdimLen, ydimLen, z, 1);
    assert VertexAt(vertices, 2) == SquareCorner(xdimLen, ydimLen, z, 2);
    assert VertexAt(vertices, 3) == SquareCorner(xdimLen, ydimLen, z, 3);
  }

  /** Appending the square of interior layer l + 1 keeps the mid-layer invariant. */
  lemma MidSquare(mid: seq<real>, sq: seq<real>, l: int, len: Vec3, zStep: real)
    requires l >= 0 && |mid| == 12 * l && |sq| == 12
    requires forall i :: 0 <= i < 4 ==> VertexAt(sq, i) == SquareCorner(len.x, len.y, (l + 1) as real * zStep, i)
    requires forall m :: 0 <= m < 4 * l ==> VertexAt(mid, m) == MidVertex(len, zStep, m)
    ensures forall m :: 0 <= m < 4 * (l + 1) ==> VertexAt(mid + sq, m) == MidVertex(len, zStep, m)
  {
    forall m | 0 <= m < 4 * (l + 1)
      ensures VertexAt(mid + sq, m) == MidVertex(len, zStep, m)
    {
      if m < 4 * l {
        VertexAtLeft(mid, sq, m);
      } else {
        VertexAtRight(mid, sq, 4 * l, m);
        var i := m - 4 * l;
        MidIndexRoundTrip(l, i % 2, i / 2);
        assert m == 4 * l + i % 2 + 2 * (i / 2);
      }
    }
  }

  /** The vertex buffer before centering: bottom cap, the corner squares of
      the interior layers, top cap.  Vertex k is the grid position of the
      point stored at index k. */
  method GridVertices(c: Counts) returns (vertices: seq<real>)
    requires ValidCounts(c)
    ensures |vertices| == 3 * VertexCount(c)
    ensures forall k :: 0 <= k < VertexCount(c) ==> VertexAt(vertices, k) == GridPosition(c, CoordOf(c, k))
  {
    var dimLength := NormalizedExtent(c);
    var step := StepLength(c);
    var botFaceVertices := FaceVtxNoInterior(c.x, c.y, step.x, step.y, 0.0);
    var topFaceVertices := FaceVtxNoInterior(c.x, c.y, step.x, step.y, dimLength.z);
    var midFaceVertices: seq<real> := [];
    for k := 1 to c.z - 1
      invariant |midFaceVertices| == 12 * (k - 1)
      invariant forall m :: 0 <= m < 4 * (k - 1) ==> VertexAt(midFaceVertices, m) == MidVertex(dimLength, step.z, m)
    {
      var tmpMidFaceVertices := SquareVtx(dimLength.x, dimLength.y, k as real * step.z);
      MidSquare(midFaceVertices, tmpMidFaceVertices, k - 1, dimLength, step.z);
      midFaceVertices := midFaceVertices + tmpMidFaceVertices;
    }
    vertices := botFaceVertices + midFaceVertices + topFaceVertices;
    GridAssembly(c, botFaceVertices, midFaceVertices, topFaceVertices);
  }

  /** Bottom cap, interior squares and top cap, concatenated, hold the grid
      positions of the points in CoordOf order. */
  lemma GridAssembly(c: Counts, bot: seq<real>, mid: seq<real>, top: seq<real>)
    requires ValidCounts(c)
    requires |bot| == 3 * CapSize(c) && |mid| == 12 * (c.z - 2) && |top| == 3 * CapSize(c)
    requires forall k :: 0 <= k < CapSize(c) ==>
      VertexAt(bot, k) == CapVertex(c.x, c.y, StepLength(c).x, StepLength(c).y, 0.0, k)
    requires forall m :: 0 <= m < 4 * (c.z - 2) ==>
      VertexAt(mid, m) == MidVertex(NormalizedExtent(c), StepLength(c).z, m)
    requires forall k :: 0 <= k < CapSize(c) ==>
      VertexAt(top, k) == CapVertex(c.x, c.y, StepLength(c).x, StepLength(c).y, NormalizedExtent(c).z, k)
    ensures |bot + mid + top| == 3 * VertexCount(c)
    ensures forall k :: 0 <= k < VertexCount(c) ==> VertexAt(bot + mid + top, k) == GridPosition(c, CoordOf(c, k))
  {
    forall k | 0 <= k < VertexCount(c)
      ensures VertexAt(bot + mid + top, k) == GridPosition(c, CoordOf(c, k))
    {
      if k < TopCapStart(c) {
        VertexAtLeft(bot + mid, top, k);
        if k < CapSize(c) {
          VertexAtLeft(bot, mid, k);
          BottomVertexPosition(c, k);
        } else {
          VertexAtRight(bot, mid, CapSize(c), k);
          MidVertexPosition(c, k);
        }
      } else {
        VertexAtRight(bot + mid, top, TopCapStart(c), k);
        TopVertexPosition(c, k);
      }
    }
  }

  /** Vertex k of the bottom cap face lies at the grid position of CoordOf(c, k). */
  lemma BottomVertexPosition(c: Counts, k: int)
    requires ValidCounts(c) && 0 <= k < CapSize(c)
    ensures CapVertex(c.x, c.y, StepLength(c).x, StepLength(c).y, 0.0, k) == GridPosition(c, CoordOf(c, k))
  {
    assert Scaled(0, StepLength(c).z) == 0.0;
  }

  /** Vertex m of the interior squares lies at the grid position of CoordOf(c, CapSize(c) + m). */
  lemma MidVertexPosition(c: Counts, k: int)
    requires ValidCounts(c) && CapSize(c) <= k < TopCapStart(c)
    ensures MidVertex(NormalizedExtent(c), StepLength(c).z, k - CapSize(c)) == GridPosition(c, CoordOf(c, k))
  {
    var step, len := StepLength(c), NormalizedExtent(c);
    StepsSpanExtent(c);
    assert Scaled(c.x - 1, step.x) == len.x && Scaled(c.y - 1, step.y) == len.y;
    assert Scaled(0, step.x) == 0.0 && Scaled(0, step.y) == 0.0;
  }

  /** Vertex k of the top cap face lies at the grid position of CoordOf(c, TopCapStart(c) + k). */
  lemma TopVertexPosition(c: Counts, k: int)
    requires ValidCounts(c) && TopCapStart(c) <= k < VertexCount(c)
    ensures CapVertex(c.x, c.y, StepLength(c).x, StepLength(c).y, NormalizedExtent(c).z, k - TopCapStart(c)) ==
            GridPosition(c, CoordOf(c, k))
  {
    StepsSpanExtent(c);
    assert Scaled(c.z - 1, StepLength(c).z) == NormalizedExtent(c).z;
  }
}
