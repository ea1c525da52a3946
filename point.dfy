/** The Point object: the bounding cube of the volume, drawn as twelve
    triangles.  Its buffers are a fixed table of eight corners scaled by the
    normalised extents and centred, a parallel table of 0/1 texture
    coordinates, and a fixed 36-entry triangle index list. */
module PointMesh {
  import opened Geometry
  import opened GridLayout
  import opened GridSpec

  /** The eight corners of the box [0, len.x] x [0, len.y] x [0, len.z]:
      the bottom square anticlockwise from the origin, then the top square. */
  function CornerTable(len: Vec3): (t: seq<real>)
    ensures |t| == 24
  {
    [0.0, 0.0, 0.0,
     len.x, 0.0, 0.0,
     len.x, len.y, 0.0,
     0.0, len.y, 0.0,
     0.0, 0.0, len.z,
     len.x, 0.0, len.z,
     len.x, len.y, len.z,
     0.0, len.y, len.z]
  }

  /** Texture coordinates of the eight corners, in the same order. */
  function CubeTexCoords(): (t: seq<real>)
    ensures |t| == 24
  {
    [0.0, 0.0, 0.0,
     1.0, 0.0, 0.0,
     1.0, 1.0, 0.0,
     0.0, 1.0, 0.0,
     0.0, 0.0, 1.0,
     1.0, 0.0, 1.0,
     1.0, 1.0, 1.0,
     0.0, 1.0, 1.0]
  }

  /** Two triangles per face: bottom, top, front, back, left, right. */
  function CubeIndices(): (t: seq<int>)
    ensures |t| == 36
  {
    [1, 0, 2,  0, 2, 3,
     5, 4, 6,  4, 6, 7,
     1, 0, 5,  0, 5, 4,
     2, 3, 6,  3, 6, 7,
     0, 3, 4,  3, 4, 7,
     1, 2, 5,  2, 5, 6]
  }

  /** Number of indices the draw call consumes. */
  const PointDrawCount := 36

  /** Texture coordinate of corner `i`. */
  function Tex(i: int): Vec3
    requires 0 <= i < 8
  {
    VertexAt(CubeTexCoords(), i)
  }

  /** Component-wise tex * len - len / 2. */
  function FromTex(t: Vec3, len: Vec3): Vec3
  {
    Vec3(t.x * len.x - len.x / 2.0, t.y * len.y - len.y / 2.0, t.z * len.z - len.z / 2.0)
  }

  /** Normalised extents of the cube: count / maxCount per axis. */
  function CubeExtent(dims: (int, int, int), spacings: (real, real, real)): Vec3
    requires NonZeroSpacings(spacings) && MaxCount(CountsOf(dims, spacings)) != 0
  {
    NormalizedExtent(CountsOf(dims, spacings))
  }

  predicate Buildable(dims: (int, int, int), spacings: (real, real, real))
  {
    NonZeroSpacings(spacings) && MaxCount(CountsOf(dims, spacings)) != 0
  }

  class Point {
    var dims: (int, int, int)
    var spacings: (real, real, real)
    /** Contents of the position buffer, three coordinates per corner. */
    var vertices: seq<real>
    /** Contents of the texture-coordinate buffer. */
    var texCoords: seq<real>
    /** Contents of the element buffer. */
    var indices: seq<int>

    /** The buffers are those of the current extents and spacings: the
        corners of the box of normalised extents, centred on the origin. */
    predicate BuffersMatch()
      reads this
    {
      Buildable(dims, spacings) &&
      var len := CubeExtent(dims, spacings);
      |vertices| == 24 &&
      (forall i :: 0 <= i < 8 ==> VertexAt(vertices, i) == Centred(VertexAt(CornerTable(len), i), len)) &&
      texCoords == CubeTexCoords() && indices == CubeIndices()
    }

    constructor(xdim: int, ydim: int, zdim: int, xspacing: real, yspacing: real, zspacing: real)
      requires Buildable((xdim, ydim, zdim), (xspacing, yspacing, zspacing))
      ensures dims == (xdim, ydim, zdim) && spacings == (xspacing, yspacing, zspacing)
      ensures BuffersMatch()
    {
      new;
      SetDimension(xdim, ydim, zdim);
      SetSpacing(xspacing, yspacing, zspacing);
      InitPointBuffers();
    }

    /** Records new extents; the buffers are left as they are until rebuilt. */
    method SetDimension(xdim: int, ydim: int, zdim: int)
      modifies this`dims
      ensures dims == (xdim, ydim, zdim)
    {
      dims := (xdim, ydim, zdim);
    }

    /** Records new spacings; the buffers are left as they are until rebuilt. */
    method SetSpacing(xspacing: real, yspacing: real, zspacing: real)
      modifies this`spacings
      ensures spacings == (xspacing, yspacing, zspacing)
    {
      spacings := (xspacing, yspacing, zspacing);
    }

    /** Rebuilds the three tables; corner i ends up at tex(i) * len - len / 2. */
    method InitPointBuffers()
      requires Buildable(dims, spacings)
      modifies this`vertices, this`texCoords, this`indices
      ensures BuffersMatch()
      ensures forall i :: 0 <= i < 8 ==> VertexAt(vertices, i) == FromTex(Tex(i), CubeExtent(dims, spacings))
    {
      var xdim, ydim, zdim := dims.0, dims.1, dims.2;
      var xspacing, yspacing, zspacing := spacings.0, spacings.1, spacings.2;
      var xCount := (xdim as real / xspacing).Floor;
      var yCount := (ydim as real / yspacing).Floor;
      var zCount := (zdim as real / zspacing).Floor;
      var vtxCounts := Counts(xCount, yCount, zCount);
      assert vtxCounts == CountsOf(dims, spacings);
      var maxCount := MaxCount(vtxCounts);
      var xLen := xCount as real / maxCount as real;
      var yLen := yCount as real / maxCount as real;
      var zLen := zCount as real / maxCount as real;
      var len := Vec3(xLen, yLen, zLen);

      var table := CornerTable(len);
      var a := new real[24](i => if 0 <= i < 24 then table[i] else 0.0);
      assert a[..] == table;
      CenterVertices(a, len);
      vertices := a[..];
      texCoords := CubeTexCoords();
      indices := CubeIndices();
      CornersFromTex(len);
    }
  }

  /** Corner i of the box is tex(i) scaled by the extents; centering it gives tex(i) * len - len / 2. */
  lemma CornersFromTex(len: Vec3)
    ensures forall i :: 0 <= i < 8 ==>
      var t := Tex(i);
      VertexAt(CornerTable(len), i) == Vec3(t.x * len.x, t.y * len.y, t.z * len.z) &&
      Centred(VertexAt(CornerTable(len), i), len) == FromTex(t, len)
  {
    forall i | 0 <= i < 8
      ensures VertexAt(CornerTable(len), i) == Vec3(Tex(i).x * len.x, Tex(i).y * len.y, Tex(i).z * len.z)
      ensures Centred(VertexAt(CornerTable(len), i), len) == FromTex(Tex(i), len)
    {
      CornerFromTex(len, i);
    }
  }

  /** Corner i of the table scales its texture coordinate by the extents. */
  lemma CornerFromTex(len: Vec3, i: int)
    requires 0 <= i < 8
    ensures VertexAt(CornerTable(len), i) == Vec3(Tex(i).x * len.x, Tex(i).y * len.y, Tex(i).z * len.z)
    ensures Centred(VertexAt(CornerTable(len), i), len) == FromTex(Tex(i), len)
  {
    var t := Tex(i);
    TexBinary(i);
    assert t.x * len.x == if t.x == 1.0 then len.x else 0.0;
    assert t.y * len.y == if t.y == 1.0 then len.y else 0.0;
    assert t.z * len.z == if t.z == 1.0 then len.z else 0.0;
  }

  /** Every texture coordinate is 0 or 1, and no two corners share one: the
      table lists the eight corners of the unit cube. */
  lemma TexBinary(i: int)
    requires 0 <= i < 8
    ensures Tex(i).x in {0.0, 1.0} && Tex(i).y in {0.0, 1.0} && Tex(i).z in {0.0, 1.0}
    ensures (Tex(i).x == 1.0 <==> i in {1, 2, 5, 6}) && (Tex(i).x == 0.0 <==> i in {0, 3, 4, 7})
    ensures (Tex(i).y == 1.0 <==> i in {2, 3, 6, 7}) && (Tex(i).y == 0.0 <==> i in {0, 1, 4, 5})
    ensures (Tex(i).z == 1.0 <==> i in {4, 5, 6, 7}) && (Tex(i).z == 0.0 <==> i in {0, 1, 2, 3})
  {
  }

  lemma TexDistinct(i: int, j: int)
    requires 0 <= i < 8 && 0 <= j < 8 && i != j
    ensures Tex(i) != Tex(j)
  {
    TexBinary(i);
    TexBinary(j);
  }

  /** After centering, every coordinate of every corner is -len/2 or +len/2 on its axis. */
  lemma CentredCornerCoordinates(len: Vec3, i: int)
    requires 0 <= i < 8
    ensures FromTex(Tex(i), len).x in {-len.x / 2.0, len.x / 2.0}
    ensures FromTex(Tex(i), len).y in {-len.y / 2.0, len.y / 2.0}
    ensures FromTex(Tex(i), len).z in {-len.z / 2.0, len.z / 2.0}
  {
    TexBinary(i);
  }

  /** Each normalised extent of the cube lies in (0, 1], and the axis with the most samples gets 1. */
  lemma CubeExtentBounds(dims: (int, int, int), spacings: (real, real, real))
    requires NonZeroSpacings(spacings)
    requires var c := CountsOf(dims, spacings); c.x >= 1 && c.y >= 1 && c.z >= 1
    ensures Buildable(dims, spacings)
    ensures var len := CubeExtent(dims, spacings);
      0.0 < len.x <= 1.0 && 0.0 < len.y <= 1.0 && 0.0 < len.z <= 1.0 &&
      (len.x == 1.0 || len.y == 1.0 || len.z == 1.0)
  {
    var c := CountsOf(dims, spacings);
    NormalizedExtentBounds(c);
  }

  /** The index table: 36 entries, as many as the draw call uses, all naming
      one of the 8 corners, in 12 triangles of three different corners. */
  lemma IndexTableWellFormed()
    ensures |CubeIndices()| == PointDrawCount
    ensures forall j :: 0 <= j < |CubeIndices()| ==> 0 <= CubeIndices()[j] < 8
    ensures forall t :: 0 <= t < 12 ==>
      CubeIndices()[3 * t] != CubeIndices()[3 * t + 1] &&
      CubeIndices()[3 * t] != CubeIndices()[3 * t + 2] &&
      CubeIndices()[3 * t + 1] != CubeIndices()[3 * t + 2]
  {
    var ix := CubeIndices();
    forall t | 0 <= t < 12
      ensures ix[3 * t] != ix[3 * t + 1] && ix[3 * t] != ix[3 * t + 2] && ix[3 * t + 1] != ix[3 * t + 2]
    {
      if t < 4 {
        assert t == 0 || t == 1 || t == 2 || t == 3;
      } else if t < 8 {
        assert t == 4 || t == 5 || t == 6 || t == 7;
      } else {
        assert t == 8 || t == 9 || t == 10 || t == 11;
      }
    }
  }

  /** The axis held constant on face f (bottom, top, front, back, left, right): 0 = x, 1 = y, 2 = z. */
  function FaceAxis(f: int): int
  {
    if f < 2 then 2 else if f < 4 then 1 else 0
  }

  /** The texture-coordinate value of that axis on face f: 0 for bottom, front, left; 1 for the others. */
  function FaceLevel(f: int): real
  {
    if f % 2 == 0 then 0.0 else 1.0
  }

  function TexComponent(i: int, axis: int): real
    requires 0 <= i < 8
  {
    if axis == 0 then Tex(i).x else if axis == 1 then Tex(i).y else Tex(i).z
  }

  /** The corners named by the two triangles of face f. */
  function FaceCorners(f: int): set<int>
    requires 0 <= f < 6
  {
    var ix := CubeIndices();
    {ix[6 * f], ix[6 * f + 1], ix[6 * f + 2], ix[6 * f + 3], ix[6 * f + 4], ix[6 * f + 5]}
  }

  /** The four corners of face f, read off the cube: 0-3 at the bottom, 4-7
      at the top, each square anticlockwise from its corner above the origin. */
  function FaceSquare(f: int): set<int>
  {
    if f == 0 then {0, 1, 2, 3} else if f == 1 then {4, 5, 6, 7}
    else if f == 2 then {0, 1, 4, 5} else if f == 3 then {2, 3, 6, 7}
    else if f == 4 then {0, 3, 4, 7} else {1, 2, 5, 6}
  }

  /** The two triangles of face f name exactly the four corners whose
      coordinate on FaceAxis(f) is at FaceLevel(f). */
  lemma FaceTriangles(f: int)
    requires 0 <= f < 6
    ensures FaceCorners(f) == FaceSquare(f) && |FaceCorners(f)| == 4
    ensures forall v :: 0 <= v < 8 ==> (v in FaceCorners(f) <==> TexComponent(v, FaceAxis(f)) == FaceLevel(f))
  {
    FaceCornersListed(f);
    FaceSquareSize(f);
    FaceSquareLevels(f);
  }

  /** The corners of face f are those whose coordinate on FaceAxis(f) is at FaceLevel(f). */
  lemma FaceSquareLevels(f: int)
    requires 0 <= f < 6
    ensures forall v :: 0 <= v < 8 ==> (v in FaceSquare(f) <==> TexComponent(v, FaceAxis(f)) == FaceLevel(f))
  {
    forall v | 0 <= v < 8
      ensures v in FaceSquare(f) <==> TexComponent(v, FaceAxis(f)) == FaceLevel(f)
    {
      TexBinary(v);
    }
  }

  /** The six entries of each face's two triangles, read off the table. */
  lemma FaceCornersListed(f: int)
    requires 0 <= f < 6
    ensures FaceCorners(f) == FaceSquare(f)
  {
    var ix := CubeIndices();
    if f == 0 {
      assert ix[0] == 1 && ix[1] == 0 && ix[2] == 2 && ix[3] == 0 && ix[4] == 2 && ix[5] == 3;
      assert FaceCorners(0) == {0, 1, 2, 3};
    } else if f == 1 {
      assert ix[6] == 5 && ix[7] == 4 && ix[8] == 6 && ix[9] == 4 && ix[10] == 6 && ix[11] == 7;
      assert FaceCorners(1) == {4, 5, 6, 7};
    } else if f == 2 {
      assert ix[12] == 1 && ix[13] == 0 && ix[14] == 5 && ix[15] == 0 && ix[16] == 5 && ix[17] == 4;
      assert FaceCorners(2) == {0, 1, 4, 5};
    } else if f == 3 {
      assert ix[18] == 2 && ix[19] == 3 && ix[20] == 6 && ix[21] == 3 && ix[22] == 6 && ix[23] == 7;
      assert FaceCorners(3) == {2, 3, 6, 7};
    } else if f == 4 {
      assert ix[24] == 0 && ix[25] == 3 && ix[26] == 4 && ix[27] == 3 && ix[28] == 4 && ix[29] == 7;
      assert FaceCorners(4) == {0, 3, 4, 7};
    } else {
      assert ix[30] == 1 && ix[31] == 2 && ix[32] == 5 && ix[33] == 2 && ix[34] == 5 && ix[35] == 6;
      assert FaceCorners(5) == {1, 2, 5, 6};
    }
  }

  lemma FaceSquareSize(f: int)
    ensures |FaceSquare(f)| == 4
  {
    if f == 0 {
      assert |{0, 1, 2, 3}| == 4;
    } else if f == 1 {
      assert |{4, 5, 6, 7}| == 4;
    } else if f == 2 {
      assert |{0, 1, 4, 5}| == 4;
    } else if f == 3 {
      assert |{2, 3, 6, 7}| == 4;
    } else if f == 4 {
      assert |{0, 3, 4, 7}| == 4;
    } else {
      assert |{1, 2, 5, 6}| == 4;
    }
  }
}
