/** From extents and spacings to vertex counts, normalised extents, step
    lengths and vertex positions.  Arithmetic is exact (real numbers). */
module GridSpec {
  import opened GridLayout
  import opened Geometry

  predicate NonZeroSpacings(spacings: (real, real, real))
  {
    spacings.0 != 0.0 && spacings.1 != 0.0 && spacings.2 != 0.0
  }

  /** Samples along one axis: floor(dim / spacing). */
  function CountOf(dim: int, spacing: real): (n: int)
    requires spacing != 0.0
    ensures n as real <= dim as real / spacing < n as real + 1.0
  {
    (dim as real / spacing).Floor
  }

  function CountsOf(dims: (int, int, int), spacings: (real, real, real)): Counts
    requires NonZeroSpacings(spacings)
  {
    Counts(CountOf(dims.0, spacings.0), CountOf(dims.1, spacings.1), CountOf(dims.2, spacings.2))
  }

  /** The largest of the three counts. */
  function MaxCount(c: Counts): (m: int)
    ensures m >= c.x && m >= c.y && m >= c.z
    ensures m == c.x || m == c.y || m == c.z
  {
    if c.x >= c.y && c.x >= c.z then c.x
    else if c.y >= c.z then c.y
    else c.z
  }

  /** Per-axis extent in the shared unit space: count / maxCount. */
  function NormalizedExtent(c: Counts): Vec3
    requires MaxCount(c) != 0
  {
    var m := MaxCount(c) as real;
    Vec3(c.x as real / m, c.y as real / m, c.z as real / m)
  }

  lemma RatioBounds(n: int, m: int)
    requires 1 <= n <= m
    ensures 0.0 < n as real / m as real <= 1.0
    ensures n == m ==> n as real / m as real == 1.0
  {
  }

  /** Every normalised extent lies in (0, 1], and the longest axis gets exactly 1. */
  lemma NormalizedExtentBounds(c: Counts)
    requires c.x >= 1 && c.y >= 1 && c.z >= 1
    ensures MaxCount(c) >= 1
    ensures 0.0 < NormalizedExtent(c).x <= 1.0
    ensures 0.0 < NormalizedExtent(c).y <= 1.0
    ensures 0.0 < NormalizedExtent(c).z <= 1.0
    ensures c.x == MaxCount(c) ==> NormalizedExtent(c).x == 1.0
    ensures c.y == MaxCount(c) ==> NormalizedExtent(c).y == 1.0
    ensures c.z == MaxCount(c) ==> NormalizedExtent(c).z == 1.0
  {
    var m := MaxCount(c);
    RatioBounds(c.x, m);
    RatioBounds(c.y, m);
    RatioBounds(c.z, m);
  }

  /** Distance between neighbouring samples on one axis: extent / (count - 1). */
  function AxisStep(len: real, n: int): real
    requires n >= 2
  {
    len / (n - 1) as real
  }

  function StepLength(c: Counts): Vec3
    requires ValidCounts(c)
  {
    var len := NormalizedExtent(c);
    Vec3(AxisStep(len.x, c.x), AxisStep(len.y, c.y), AxisStep(len.z, c.z))
  }

  /** Coordinate of sample `v` on an axis whose samples are `step` apart. */
  function Scaled(v: int, step: real): real
  {
    v as real * step
  }

  /** Position of a grid point before centering. */
  function GridPosition(c: Counts, p: GridPt): Vec3
    requires ValidCounts(c)
  {
    var step := StepLength(c);
    Vec3(Scaled(p.col, step.x), Scaled(p.row, step.y), Scaled(p.layer, step.z))
  }

  lemma SpanTimesStep(len: real, n: int)
    requires n >= 2
    ensures (n - 1) as real * AxisStep(len, n) == len
  {
  }

  /** count - 1 steps cover the whole extent on every axis. */
  lemma StepsSpanExtent(c: Counts)
    requires ValidCounts(c)
    ensures (c.x - 1) as real * StepLength(c).x == NormalizedExtent(c).x
    ensures (c.y - 1) as real * StepLength(c).y == NormalizedExtent(c).y
    ensures (c.z - 1) as real * StepLength(c).z == NormalizedExtent(c).z
  {
    var len := NormalizedExtent(c);
    SpanTimesStep(len.x, c.x);
    SpanTimesStep(len.y, c.y);
    SpanTimesStep(len.z, c.z);
  }

  /** On one axis with `n` samples and extent `len`, the centred coordinate `q` of
      sample `v` lies in [-len/2, len/2], at the low end for the first sample
      and at the high end for the last. */
  predicate CentredOnAxis(q: real, len: real, v: int, n: int)
  {
    -len / 2.0 <= q <= len / 2.0 &&
    (v == 0 ==> q == -len / 2.0) &&
    (v == n - 1 ==> q == len / 2.0)
  }

  lemma CentredCoordBounds(v: int, n: int, len: real)
    requires n >= 2 && 0 <= v < n && len >= 0.0
    ensures CentredOnAxis(Scaled(v, AxisStep(len, n)) - len / 2.0, len, v, n)
  {
    var step := AxisStep(len, n);
    SpanTimesStep(len, n);
    assert 0.0 <= step;
    assert v as real * step <= (n - 1) as real * step;
  }

  /** Position of a grid point after the centering loop. */
  function CentredPosition(c: Counts, p: GridPt): Vec3
    requires ValidCounts(c)
  {
    Centred(GridPosition(c, p), NormalizedExtent(c))
  }

  lemma CentredComponents(c: Counts, p: GridPt)
    requires ValidCounts(c)
    ensures var q := CentredPosition(c, p);
            var len := NormalizedExtent(c);
            q.x == Scaled(p.col, AxisStep(len.x, c.x)) - len.x / 2.0 &&
            q.y == Scaled(p.row, AxisStep(len.y, c.y)) - len.y / 2.0 &&
            q.z == Scaled(p.layer, AxisStep(len.z, c.z)) - len.z / 2.0
  {
  }

  lemma CentredXBounds(c: Counts, p: GridPt)
    requires ValidCounts(c) && InRange(p.col, c.x)
    ensures CentredOnAxis(CentredPosition(c, p).x, NormalizedExtent(c).x, p.col, c.x)
  {
    NormalizedExtentBounds(c);
    CentredComponents(c, p);
    CentredCoordBounds(p.col, c.x, NormalizedExtent(c).x);
  }

  lemma CentredYBounds(c: Counts, p: GridPt)
    requires ValidCounts(c) && InRange(p.row, c.y)
    ensures CentredOnAxis(CentredPosition(c, p).y, NormalizedExtent(c).y, p.row, c.y)
  {
    NormalizedExtentBounds(c);
    CentredComponents(c, p);
    CentredCoordBounds(p.row, c.y, NormalizedExtent(c).y);
  }

  lemma CentredZBounds(c: Counts, p: GridPt)
    requires ValidCounts(c) && InRange(p.layer, c.z)
    ensures CentredOnAxis(CentredPosition(c, p).z, NormalizedExtent(c).z, p.layer, c.z)
  {
    NormalizedExtentBounds(c);
    CentredComponents(c, p);
    CentredCoordBounds(p.layer, c.z, NormalizedExtent(c).z);
  }

  /** After centering, a grid point lies within half an extent of the origin on
      every axis, at -len/2 on its first sample and +len/2 on its last. */
  lemma CentredPositionBounds(c: Counts, p: GridPt)
    requires ValidCounts(c) && InBox(c, p)
    ensures CentredOnAxis(CentredPosition(c, p).x, NormalizedExtent(c).x, p.col, c.x)
    ensures CentredOnAxis(CentredPosition(c, p).y, NormalizedExtent(c).y, p.row, c.y)
    ensures CentredOnAxis(CentredPosition(c, p).z, NormalizedExtent(c).z, p.layer, c.z)
  {
    CentredXBounds(c, p);
    CentredYBounds(c, p);
    CentredZBounds(c, p);
  }

  /** Distinct samples on an axis with a positive step have distinct coordinates. */
  lemma ScaledInjective(a: int, b: int, step: real)
    requires step > 0.0
    ensures Scaled(a, step) == Scaled(b, step) <==> a == b
  {
    if a != b {
      assert Scaled(a, step) - Scaled(b, step) == (a - b) as real * step;
      if a < b {
        assert (a - b) as real * step < 0.0;
      } else {
        assert (a - b) as real * step > 0.0;
      }
    }
  }

  /** With at least two samples per axis every step is positive. */
  lemma StepLengthPositive(c: Counts)
    requires ValidCounts(c)
    ensures StepLength(c).x > 0.0 && StepLength(c).y > 0.0 && StepLength(c).z > 0.0
  {
    NormalizedExtentBounds(c);
  }

  /** Centred positions agree on an axis exactly when the grid coordinates do. */
  lemma CentredPositionAxes(c: Counts, p: GridPt, q: GridPt)
    requires ValidCounts(c)
    ensures CentredPosition(c, p).x == CentredPosition(c, q).x <==> p.col == q.col
    ensures CentredPosition(c, p).y == CentredPosition(c, q).y <==> p.row == q.row
    ensures CentredPosition(c, p).z == CentredPosition(c, q).z <==> p.layer == q.layer
  {
    var step := StepLength(c);
    StepLengthPositive(c);
    CentredComponents(c, p);
    CentredComponents(c, q);
    ScaledInjective(p.col, q.col, step.x);
    ScaledInjective(p.row, q.row, step.y);
    ScaledInjective(p.layer, q.layer, step.z);
  }
}
