/** The order in which the wireframe's vertex buffer stores the grid points:
    the bottom cap, one four-corner record per mid layer, then the top cap.
    A cap holds its front row (all columns), the leftmost and rightmost point
    of every interior row, and its back row (all columns).  A mid layer holds
    its corners in the order (0,0), (X-1,0), (0,Y-1), (X-1,Y-1).

    `CoordOf` reads the grid point stored at a buffer index off this order;
    `IndexOf` is the explicit point-to-index lookup.  They are inverse. */
module GridLayout {

  /** Per-axis vertex counts X, Y, Z. */
  datatype Counts = Counts(x: int, y: int, z: int)

  /** The generator needs at least two samples per axis. */
  predicate ValidCounts(c: Counts)
  {
    c.x >= 2 && c.y >= 2 && c.z >= 2
  }

  /** Integer grid coordinate of a sample: column (x), row (y), layer (z). */
  datatype GridPt = GridPt(col: int, row: int, layer: int)

  predicate InRange(v: int, n: int)
  {
    0 <= v < n
  }

  /** `v` is the first or the last of `n` samples. */
  predicate IsEnd(v: int, n: int)
  {
    v == 0 || v == n - 1
  }

  predicate InBox(c: Counts, p: GridPt)
  {
    InRange(p.col, c.x) && InRange(p.row, c.y) && InRange(p.layer, c.z)
  }

  /** The grid points the vertex buffer holds. */
  predicate Stored(c: Counts, p: GridPt)
  {
    InBox(c, p) &&
    if IsEnd(p.layer, c.z) then IsEnd(p.row, c.y) || IsEnd(p.col, c.x)
    else IsEnd(p.row, c.y) && IsEnd(p.col, c.x)
  }

  /** Number of vertices in one cap: X front, 2 per interior row, X back. */
  function CapSize(c: Counts): int
  {
    2 * c.x + 2 * (c.y - 2)
  }

  /** Index of the first vertex of the back row within a cap. */
  function BackRowStart(c: Counts): int
  {
    c.x + 2 * (c.y - 2)
  }

  /** Index of the first vertex of the top cap. */
  function TopCapStart(c: Counts): int
  {
    CapSize(c) + 4 * (c.z - 2)
  }

  /** Length of the vertex buffer, in vertices. */
  function VertexCount(c: Counts): int
  {
    TopCapStart(c) + CapSize(c)
  }

  /** The (column, row) stored at position `k` of a cap. */
  function CapCoord(nx: int, ny: int, k: int): (int, int)
  {
    if k < nx then (k, 0)
    else if k < nx + 2 * (ny - 2) then
      (if (k - nx) % 2 == 0 then 0 else nx - 1, (k - nx) / 2 + 1)
    else (k - nx - 2 * (ny - 2), ny - 1)
  }

  /** The grid point stored at buffer index `k`. */
  function CoordOf(c: Counts, k: int): GridPt
    requires ValidCounts(c) && 0 <= k < VertexCount(c)
  {
    if k < CapSize(c) then
      GridPt(CapCoord(c.x, c.y, k).0, CapCoord(c.x, c.y, k).1, 0)
    else if k < TopCapStart(c) then
      var m := k - CapSize(c);
      GridPt(if m % 2 == 0 then 0 else c.x - 1, if m % 4 < 2 then 0 else c.y - 1, m / 4 + 1)
    else
      var t := k - TopCapStart(c);
      GridPt(CapCoord(c.x, c.y, t).0, CapCoord(c.x, c.y, t).1, c.z - 1)
  }

  /** Position of (col, row) within a cap. */
  function CapIndex(c: Counts, col: int, row: int): int
  {
    if row == 0 then col
    else if row == c.y - 1 then BackRowStart(c) + col
    else c.x + 2 * (row - 1) + (if col == 0 then 0 else 1)
  }

  /** The explicit lookup: the buffer index of a stored grid point. */
  function IndexOf(c: Counts, p: GridPt): int
    requires ValidCounts(c) && Stored(c, p)
  {
    if p.layer == 0 then CapIndex(c, p.col, p.row)
    else if p.layer == c.z - 1 then TopCapStart(c) + CapIndex(c, p.col, p.row)
    else CapSize(c) + 4 * (p.layer - 1) + (if p.col == 0 then 0 else 1) + (if p.row == 0 then 0 else 2)
  }

  /** Every buffer index holds a stored grid point, and looking that point up gives the index back. */
  lemma CoordOfRoundTrip(c: Counts, k: int)
    requires ValidCounts(c) && 0 <= k < VertexCount(c)
    ensures Stored(c, CoordOf(c, k))
    ensures IndexOf(c, CoordOf(c, k)) == k
  {
    if k < CapSize(c) {
      CapCoordRoundTrip(c, k);
    } else if k < TopCapStart(c) {
      MidDecode(k - CapSize(c));
    } else {
      CapCoordRoundTrip(c, k - TopCapStart(c));
    }
  }

  lemma CapCoordRoundTrip(c: Counts, k: int)
    requires ValidCounts(c) && 0 <= k < CapSize(c)
    ensures InRange(CapCoord(c.x, c.y, k).0, c.x) && InRange(CapCoord(c.x, c.y, k).1, c.y)
    ensures IsEnd(CapCoord(c.x, c.y, k).0, c.x) || IsEnd(CapCoord(c.x, c.y, k).1, c.y)
    ensures CapIndex(c, CapCoord(c.x, c.y, k).0, CapCoord(c.x, c.y, k).1) == k
  {
  }

  /** Every stored grid point has an index inside the buffer, and that index holds the point. */
  lemma IndexOfRoundTrip(c: Counts, p: GridPt)
    requires ValidCounts(c) && Stored(c, p)
    ensures 0 <= IndexOf(c, p) < VertexCount(c)
    ensures CoordOf(c, IndexOf(c, p)) == p
  {
    if p.layer == 0 || p.layer == c.z - 1 {
      CapIndexRoundTrip(c, p.col, p.row);
    } else {
      MidIndexRoundTrip(p.layer - 1, if p.col == 0 then 0 else 1, if p.row == 0 then 0 else 1);
    }
  }

  lemma CapIndexRoundTrip(c: Counts, col: int, row: int)
    requires ValidCounts(c) && InRange(col, c.x) && InRange(row, c.y)
    requires IsEnd(row, c.y) || IsEnd(col, c.x)
    ensures 0 <= CapIndex(c, col, row) < CapSize(c)
    ensures CapCoord(c.x, c.y, CapIndex(c, col, row)) == (col, row)
  {
    if row != 0 && row != c.y - 1 {
      var k := CapIndex(c, col, row);
      assert k - c.x == 2 * (row - 1) + (if col == 0 then 0 else 1);
    }
  }

  /** Position `m` of the mid-layer block is corner m % 4 of mid layer m / 4. */
  lemma MidDecode(m: int)
    requires m >= 0
    ensures m / 4 >= 0 && 0 <= m % 2 <= 1
    ensures m == 4 * (m / 4) + m % 2 + (if m % 4 < 2 then 0 else 2)
  {
    var q, r := m / 4, m % 4;
    assert m == 4 * q + r;
    if r == 0 {
      assert m == 2 * (2 * q);
    } else if r == 1 {
      assert m == 2 * (2 * q) + 1;
    } else if r == 2 {
      assert m == 2 * (2 * q + 1);
    } else {
      assert m == 2 * (2 * q + 1) + 1;
    }
  }

  lemma MidIndexRoundTrip(l: int, ex: int, ey: int)
    requires l >= 0 && 0 <= ex <= 1 && 0 <= ey <= 1
    ensures (4 * l + ex + 2 * ey) % 2 == ex
    ensures (4 * l + ex + 2 * ey) % 4 == ex + 2 * ey
    ensures (4 * l + ex + 2 * ey) / 4 == l
  {
    var m := 4 * l + ex + 2 * ey;
    if ey == 0 {
      assert m == 2 * (2 * l) + ex;
    } else {
      assert m == 2 * (2 * l + 1) + ex;
    }
  }
}
