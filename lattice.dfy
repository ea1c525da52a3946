/** The lines the wireframe is meant to draw, described by grid coordinates
    alone: the interior lattice lines of the six faces of the grid's bounding
    cuboid, and the cuboid's twelve edges.  This is the reference the
    stride-based index generators are checked against. */
module Lattice {
  import opened GridLayout

  datatype Axis = AlongX | AlongY | AlongZ

  /** A line segment between two grid points. */
  datatype Segment = Segment(from: GridPt, to: GridPt)

  /** The full lattice line along `axis` whose other two coordinates are `a`
      and `b` (in x, y, z order): it runs from the first sample to the last. */
  function Span(c: Counts, axis: Axis, a: int, b: int): Segment
  {
    match axis
    case AlongX => Segment(GridPt(0, a, b), GridPt(c.x - 1, a, b))
    case AlongY => Segment(GridPt(a, 0, b), GridPt(a, c.y - 1, b))
    case AlongZ => Segment(GridPt(a, b, 0), GridPt(a, b, c.z - 1))
  }

  /** The lines along `axis` whose first other coordinate runs over the
      interior samples 1 .. n-2 and whose second is `b`. */
  function SweepFirst(c: Counts, axis: Axis, n: int, b: int): seq<Segment>
    requires n >= 2
  {
    seq(n - 2, i => Span(c, axis, i + 1, b))
  }

  /** The lines along `axis` whose first other coordinate is `a` and whose
      second runs over the interior samples 1 .. n-2. */
  function SweepSecond(c: Counts, axis: Axis, a: int, n: int): seq<Segment>
    requires n >= 2
  {
    seq(n - 2, i => Span(c, axis, a, i + 1))
  }

  /** Bottom cap: lines along y at each interior column, then lines along x at each interior row. */
  function BottomLines(c: Counts): seq<Segment>
    requires ValidCounts(c)
  {
    SweepFirst(c, AlongY, c.x, 0) + SweepFirst(c, AlongX, c.y, 0)
  }

  /** Top cap: as the bottom cap, on the last layer. */
  function TopLines(c: Counts): seq<Segment>
    requires ValidCounts(c)
  {
    SweepFirst(c, AlongY, c.x, c.z - 1) + SweepFirst(c, AlongX, c.y, c.z - 1)
  }

  /** Left side (column 0): lines along z at each interior row, then lines along y at each interior layer. */
  function LeftLines(c: Counts): seq<Segment>
    requires ValidCounts(c)
  {
    SweepSecond(c, AlongZ, 0, c.y) + SweepSecond(c, AlongY, 0, c.z)
  }

  /** Right side: as the left side, on the last column. */
  function RightLines(c: Counts): seq<Segment>
    requires ValidCounts(c)
  {
    SweepSecond(c, AlongZ, c.x - 1, c.y) + SweepSecond(c, AlongY, c.x - 1, c.z)
  }

  /** Front side (row 0): lines along z at each interior column, then lines along x at each interior layer. */
  function FrontLines(c: Counts): seq<Segment>
    requires ValidCounts(c)
  {
    SweepFirst(c, AlongZ, c.x, 0) + SweepSecond(c, AlongX, 0, c.z)
  }

  /** Back side: as the front side, on the last row. */
  function BackLines(c: Counts): seq<Segment>
    requires ValidCounts(c)
  {
    SweepFirst(c, AlongZ, c.x, c.y - 1) + SweepSecond(c, AlongX, c.y - 1, c.z)
  }

  /** Interior lattice lines of the six faces, in the order top, bottom,
      left, right, front, back. */
  function ReferenceLines(c: Counts): seq<Segment>
    requires ValidCounts(c)
  {
    TopLines(c) + BottomLines(c) + LeftLines(c) + RightLines(c) + FrontLines(c) + BackLines(c)
  }

  /** Of two in-range fixed coordinates, exactly one is on the boundary: the
      line lies on one face of the cuboid and is not one of its edges. */
  predicate OnOneFace(a: int, na: int, b: int, nb: int)
  {
    InRange(a, na) && InRange(b, nb) && (IsEnd(a, na) != IsEnd(b, nb))
  }

  /** `s` is an interior lattice line of one face of the cuboid: it spans one
      axis from end to end, and exactly one of its fixed coordinates is on the
      boundary. */
  predicate IsInternalWire(c: Counts, s: Segment)
  {
    (s == Span(c, AlongX, s.from.row, s.from.layer) && OnOneFace(s.from.row, c.y, s.from.layer, c.z)) ||
    (s == Span(c, AlongY, s.from.col, s.from.layer) && OnOneFace(s.from.col, c.x, s.from.layer, c.z)) ||
    (s == Span(c, AlongZ, s.from.col, s.from.row) && OnOneFace(s.from.col, c.x, s.from.row, c.y))
  }

  /** The two points differ in exactly one coordinate. */
  predicate DiffersInOneAxis(p: GridPt, q: GridPt)
  {
    (p.col != q.col && p.row == q.row && p.layer == q.layer) ||
    (p.col == q.col && p.row != q.row && p.layer == q.layer) ||
    (p.col == q.col && p.row == q.row && p.layer != q.layer)
  }

  /** An interior lattice line joins two stored points that differ along exactly one axis. */
  lemma InternalWireShape(c: Counts, s: Segment)
    requires ValidCounts(c) && IsInternalWire(c, s)
    ensures Stored(c, s.from) && Stored(c, s.to)
    ensures DiffersInOneAxis(s.from, s.to)
  {
  }

  /** A line of a sweep spans its axis at an interior sample of the swept coordinate. */
  lemma SweepMember(c: Counts, axis: Axis, n: int, a: int, b: int, first: bool, s: Segment)
    requires n >= 2
    requires first ==> s in SweepFirst(c, axis, n, b)
    requires !first ==> s in SweepSecond(c, axis, a, n)
    ensures exists i :: 1 <= i <= n - 2 && s == if first then Span(c, axis, i, b) else Span(c, axis, a, i)
  {
    if first {
      var k :| 0 <= k < n - 2 && SweepFirst(c, axis, n, b)[k] == s;
      assert s == Span(c, axis, k + 1, b);
    } else {
      var k :| 0 <= k < n - 2 && SweepSecond(c, axis, a, n)[k] == s;
      assert s == Span(c, axis, a, k + 1);
    }
  }

  /** Every reference line is an interior lattice line of one face. */
  lemma ReferenceLinesSound(c: Counts, s: Segment)
    requires ValidCounts(c) && s in ReferenceLines(c)
    ensures IsInternalWire(c, s)
  {
    var bottom, top := BottomLines(c), TopLines(c);
    var left, right, front, back := LeftLines(c), RightLines(c), FrontLines(c), BackLines(c);
    assert ReferenceLines(c) == top + bottom + left + right + front + back;
    if s in SweepFirst(c, AlongY, c.x, 0) {
      SweepMember(c, AlongY, c.x, 0, 0, true, s);
    } else if s in SweepFirst(c, AlongX, c.y, 0) {
      SweepMember(c, AlongX, c.y, 0, 0, true, s);
    } else if s in SweepFirst(c, AlongY, c.x, c.z - 1) {
      SweepMember(c, AlongY, c.x, 0, c.z - 1, true, s);
    } else if s in SweepFirst(c, AlongX, c.y, c.z - 1) {
      SweepMember(c, AlongX, c.y, 0, c.z - 1, true, s);
    } else if s in SweepSecond(c, AlongZ, 0, c.y) {
      SweepMember(c, AlongZ, c.y, 0, 0, false, s);
    } else if s in SweepSecond(c, AlongY, 0, c.z) {
      SweepMember(c, AlongY, c.z, 0, 0, false, s);
    } else if s in SweepSecond(c, AlongZ, c.x - 1, c.y) {
      SweepMember(c, AlongZ, c.y, c.x - 1, 0, false, s);
    } else if s in SweepSecond(c, AlongY, c.x - 1, c.z) {
      SweepMember(c, AlongY, c.z, c.x - 1, 0, false, s);
    } else if s in SweepFirst(c, AlongZ, c.x, 0) {
      SweepMember(c, AlongZ, c.x, 0, 0, true, s);
    } else if s in SweepSecond(c, AlongX, 0, c.z) {
      SweepMember(c, AlongX, c.z, 0, 0, false, s);
    } else if s in SweepFirst(c, AlongZ, c.x, c.y - 1) {
      SweepMember(c, AlongZ, c.x, 0, c.y - 1, true, s);
    } else {
      assert s in SweepSecond(c, AlongX, c.y - 1, c.z);
      SweepMember(c, AlongX, c.z, c.y - 1, 0, false, s);
    }
  }

  /** Every interior lattice line of a face is a reference line. */
  lemma ReferenceLinesComplete(c: Counts, s: Segment)
    requires ValidCounts(c) && IsInternalWire(c, s)
    ensures s in ReferenceLines(c)
  {
    var bottom, top := BottomLines(c), TopLines(c);
    var left, right, front, back := LeftLines(c), RightLines(c), FrontLines(c), BackLines(c);
    assert ReferenceLines(c) == top + bottom + left + right + front + back;
    var p := s.from;
    if s == Span(c, AlongX, p.row, p.layer) && OnOneFace(p.row, c.y, p.layer, c.z) {
      if p.layer == 0 {
        assert SweepFirst(c, AlongX, c.y, 0)[p.row - 1] == s;
      } else if p.layer == c.z - 1 {
        assert SweepFirst(c, AlongX, c.y, c.z - 1)[p.row - 1] == s;
      } else if p.row == 0 {
        assert SweepSecond(c, AlongX, 0, c.z)[p.layer - 1] == s;
      } else {
        assert SweepSecond(c, AlongX, c.y - 1, c.z)[p.layer - 1] == s;
      }
    } else if s == Span(c, AlongY, p.col, p.layer) && OnOneFace(p.col, c.x, p.layer, c.z) {
      if p.layer == 0 {
        assert SweepFirst(c, AlongY, c.x, 0)[p.col - 1] == s;
      } else if p.layer == c.z - 1 {
        assert SweepFirst(c, AlongY, c.x, c.z - 1)[p.col - 1] == s;
      } else if p.col == 0 {
        assert SweepSecond(c, AlongY, 0, c.z)[p.layer - 1] == s;
      } else {
        assert SweepSecond(c, AlongY, c.x - 1, c.z)[p.layer - 1] == s;
      }
    } else {
      if p.row == 0 {
        assert SweepFirst(c, AlongZ, c.x, 0)[p.col - 1] == s;
      } else if p.row == c.y - 1 {
        assert SweepFirst(c, AlongZ, c.x, c.y - 1)[p.col - 1] == s;
      } else if p.col == 0 {
        assert SweepSecond(c, AlongZ, 0, c.y)[p.row - 1] == s;
      } else {
        assert SweepSecond(c, AlongZ, c.x - 1, c.y)[p.row - 1] == s;
      }
    }
  }

  /** The reference lines are exactly the interior lattice lines of the cuboid's faces. */
  lemma ReferenceLinesExact(c: Counts, s: Segment)
    requires ValidCounts(c)
    ensures s in ReferenceLines(c) <==> IsInternalWire(c, s)
  {
    if s in ReferenceLines(c) {
      ReferenceLinesSound(c, s);
    }
    if IsInternalWire(c, s) {
      ReferenceLinesComplete(c, s);
    }
  }

  /** Every reference line joins two stored points. */
  lemma ReferenceLinesStored(c: Counts)
    requires ValidCounts(c)
    ensures forall s :: s in ReferenceLines(c) ==> Stored(c, s.from) && Stored(c, s.to)
  {
    forall s | s in ReferenceLines(c)
      ensures Stored(c, s.from) && Stored(c, s.to)
    {
      ReferenceLinesExact(c, s);
      InternalWireShape(c, s);
    }
  }

  /** Corner `i` (0..3, anticlockwise from the origin seen from above) of layer `layer`. */
  function Corner(c: Counts, i: int, layer: int): GridPt
  {
    GridPt(if i == 1 || i == 2 then c.x - 1 else 0, if i == 2 || i == 3 then c.y - 1 else 0, layer)
  }

  /** The four edges of the square of corners on layer `layer`, each from corner i to corner i+1 (mod 4). */
  function Square(c: Counts, layer: int): seq<Segment>
  {
    [Segment(Corner(c, 0, layer), Corner(c, 1, layer)), Segment(Corner(c, 1, layer), Corner(c, 2, layer)),
     Segment(Corner(c, 2, layer), Corner(c, 3, layer)), Segment(Corner(c, 3, layer), Corner(c, 0, layer))]
  }

  /** The four vertical edges, each from a bottom corner to the top corner above it. */
  function Pillars(c: Counts): seq<Segment>
  {
    [Segment(Corner(c, 0, 0), Corner(c, 0, c.z - 1)), Segment(Corner(c, 1, 0), Corner(c, 1, c.z - 1)),
     Segment(Corner(c, 2, 0), Corner(c, 2, c.z - 1)), Segment(Corner(c, 3, 0), Corner(c, 3, c.z - 1))]
  }

  /** The bounding cuboid's edges: bottom square, top square, four pillars. */
  function OutlineSegments(c: Counts): seq<Segment>
  {
    Square(c, 0) + Square(c, c.z - 1) + Pillars(c)
  }

  predicate IsCorner(c: Counts, p: GridPt)
  {
    InBox(c, p) && IsEnd(p.col, c.x) && IsEnd(p.row, c.y) && IsEnd(p.layer, c.z)
  }

  /** An edge of the bounding cuboid: two corners that differ along one axis. */
  predicate IsCuboidEdge(c: Counts, p: GridPt, q: GridPt)
  {
    IsCorner(c, p) && IsCorner(c, q) && DiffersInOneAxis(p, q)
  }

  /** Every outline segment is an edge of the cuboid. */
  lemma OutlineSegmentsAreEdges(c: Counts)
    requires ValidCounts(c)
    ensures |OutlineSegments(c)| == 12
    ensures forall k :: 0 <= k < 12 ==> IsCuboidEdge(c, OutlineSegments(c)[k].from, OutlineSegments(c)[k].to)
  {
  }

  /** Every edge of the cuboid is an outline segment, in one direction or the other. */
  lemma OutlineCoversEdges(c: Counts, p: GridPt, q: GridPt)
    requires ValidCounts(c) && IsCuboidEdge(c, p, q)
    ensures Segment(p, q) in OutlineSegments(c) || Segment(q, p) in OutlineSegments(c)
  {
    var j := if p.row == 0 then (if p.col == 0 then 0 else 1) else (if p.col == 0 then 3 else 2);
    if p.layer != q.layer {
      assert Pillars(c)[j] == Segment(p, q) || Pillars(c)[j] == Segment(q, p);
    } else {
      var sq := Square(c, p.layer);
      assert OutlineSegments(c) == Square(c, 0) + Square(c, c.z - 1) + Pillars(c);
      assert sq == Square(c, 0) || sq == Square(c, c.z - 1);
      var e := if p.col != q.col then (if p.row == 0 then 0 else 2) else (if p.col == 0 then 3 else 1);
      assert sq[e] == Segment(p, q) || sq[e] == Segment(q, p);
    }
  }
}
