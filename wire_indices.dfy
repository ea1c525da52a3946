/** The wireframe's index generators.  They emit line-segment index pairs from
    hand-derived integer strides only, never looking at the vertices; the
    lemmas below show that those strides agree with the vertex layout of
    GridLayout, so that every index is inside the vertex buffer and every pair
    joins the two ends of one lattice line. */
module WireIndices {
  import opened GridLayout
  import opened Lattice

  // ---------------------------------------------------------------- pairs

  /** The flat index list handed to the renderer: pair k at positions 2k, 2k+1. */
  function Flatten(ps: seq<(int, int)>): (r: seq<int>)
    ensures |r| == 2 * |ps|
  {
    if ps == [] then [] else [ps[0].0, ps[0].1] + Flatten(ps[1..])
  }

  /** Pair k of the list sits at positions 2k and 2k+1 of the flattened list. */
  lemma {:induction false} FlattenPairs(ps: seq<(int, int)>)
    ensures forall k :: 0 <= k < |ps| ==> Flatten(ps)[2 * k] == ps[k].0 && Flatten(ps)[2 * k + 1] == ps[k].1
  {
    if ps != [] {
      FlattenPairs(ps[1..]);
      var r := Flatten(ps);
      assert r == [ps[0].0, ps[0].1] + Flatten(ps[1..]);
      forall k | 1 <= k < |ps|
        ensures r[2 * k] == ps[k].0 && r[2 * k + 1] == ps[k].1
      {
        assert ps[1..][k - 1] == ps[k];
        assert r[2 * k] == Flatten(ps[1..])[2 * (k - 1)];
        assert r[2 * k + 1] == Flatten(ps[1..])[2 * (k - 1) + 1];
      }
    }
  }

  lemma {:induction false} FlattenAppend(a: seq<(int, int)>, b: seq<(int, int)>)
    ensures Flatten(a + b) == Flatten(a) + Flatten(b)
  {
    if a != [] {
      assert (a + b)[0] == a[0];
      assert (a + b)[1..] == a[1..] + b;
      FlattenAppend(a[1..], b);
      calc == {
        Flatten(a + b);
        [a[0].0, a[0].1] + Flatten(a[1..] + b);
        [a[0].0, a[0].1] + (Flatten(a[1..]) + Flatten(b));
        ([a[0].0, a[0].1] + Flatten(a[1..])) + Flatten(b);
        Flatten(a) + Flatten(b);
      }
    } else {
      assert a + b == b;
    }
  }

  /** Every entry of a flattened list is one end of one of its pairs. */
  lemma FlattenEntry(ps: seq<(int, int)>, j: int)
    requires 0 <= j < 2 * |ps|
    ensures Flatten(ps)[j] == if j % 2 == 0 then ps[j / 2].0 else ps[j / 2].1
  {
    FlattenPairs(ps);
    var k := j / 2;
    assert j == 2 * k || j == 2 * k + 1;
  }

  /** Both ends of every segment are stored in the vertex buffer. */
  predicate AllStored(c: Counts, segs: seq<Segment>)
  {
    forall s :: s in segs ==> Stored(c, s.from) && Stored(c, s.to)
  }

  /** The buffer indices of the ends of each segment. */
  function IndexPairs(c: Counts, segs: seq<Segment>): (r: seq<(int, int)>)
    requires ValidCounts(c) && AllStored(c, segs)
  {
    seq(|segs|, i requires 0 <= i < |segs| => (IndexOf(c, segs[i].from), IndexOf(c, segs[i].to)))
  }

  // -------------------------------------------------------------- strides

  const XInternalStep := 1
  const YInternalStep := 2
  const ZInternalStep := 4
  const XEndStep := 1
  const YEndStepMid := 2

  /** Vertices per cap, as the generator computes it: X*Y - (X-2)*(Y-2). */
  function NumTopBotVtx(c: Counts): int
  {
    c.x * c.y - (c.x - 2) * (c.y - 2)
  }

  /** Index increment of a line that crosses the z dimension (bottom cap to top cap). */
  function ZEndStep(c: Counts): int
  {
    c.x * 2 + 2 * (c.y - 2) + 4 * (c.z - 2)
  }

  /** Index increment of a line that crosses the y dimension within a cap. */
  function YEndStepBotTop(c: Counts): int
  {
    c.x + 2 * (c.y - 2)
  }

  /** The strides name the places they are meant to: the cap size is the index
      of the first vertex above the bottom cap, ZEndStep that of the first vertex
      of the top cap, YEndStepBotTop that of the first vertex of the back row. */
  lemma StridesMatchLayout(c: Counts)
    requires ValidCounts(c)
    ensures NumTopBotVtx(c) == CapSize(c) == IndexOf(c, GridPt(0, 0, 1))
    ensures ZEndStep(c) == IndexOf(c, GridPt(0, 0, c.z - 1))
    ensures YEndStepBotTop(c) == IndexOf(c, GridPt(0, c.y - 1, 0))
    ensures VertexCount(c) == 2 * NumTopBotVtx(c) + 4 * (c.z - 2)
  {
    assert c.x * c.y - (c.x - 2) * (c.y - 2) == 2 * c.x + 2 * c.y - 4;
  }

  // ------------------------------------------------ internal wire indices

  /** Lines in one direction on one face, both end lines excluded: line i
      runs from baseIdx + i*internalStep to that plus endStep. */
  function OneDirWires(dimCount: int, baseIdx: int, internalStep: int, endStep: int): seq<(int, int)>
    requires dimCount >= 2
  {
    seq(dimCount - 2, i => (baseIdx + i * internalStep, baseIdx + endStep + i * internalStep))
  }

  /** Lines in both directions on one face: those of the first, then those of the second. */
  function TwoDirWires(dimCount1: int, dimCount2: int, baseIdx1: int, baseIdx2: int,
                       internalStep1: int, internalStep2: int, endStep1: int, endStep2: int): seq<(int, int)>
    requires dimCount1 >= 2 && dimCount2 >= 2
  {
    OneDirWires(dimCount1, baseIdx1, internalStep1, endStep1) +
    OneDirWires(dimCount2, baseIdx2, internalStep2, endStep2)
  }

  function BottomWires(c: Counts): seq<(int, int)>
    requires ValidCounts(c)
  {
    TwoDirWires(c.x, c.y, 1, c.x, XInternalStep, YInternalStep, YEndStepBotTop(c), XEndStep)
  }

  function TopWires(c: Counts): seq<(int, int)>
    requires ValidCounts(c)
  {
    TwoDirWires(c.x, c.y, 1 + ZEndStep(c), c.x + ZEndStep(c), XInternalStep, YInternalStep, YEndStepBotTop(c), XEndStep)
  }

  function LeftWires(c: Counts): seq<(int, int)>
    requires ValidCounts(c)
  {
    TwoDirWires(c.y, c.z, c.x, NumTopBotVtx(c), YInternalStep, ZInternalStep, ZEndStep(c), YEndStepMid)
  }

  function RightWires(c: Counts): seq<(int, int)>
    requires ValidCounts(c)
  {
    TwoDirWires(c.y, c.z, c.x + XEndStep, NumTopBotVtx(c) + XEndStep, YInternalStep, ZInternalStep, ZEndStep(c), YEndStepMid)
  }

  function FrontWires(c: Counts): seq<(int, int)>
    requires ValidCounts(c)
  {
    TwoDirWires(c.x, c.z, 1, NumTopBotVtx(c), XInternalStep, ZInternalStep, ZEndStep(c), XEndStep)
  }

  function BackWires(c: Counts): seq<(int, int)>
    requires ValidCounts(c)
  {
    TwoDirWires(c.x, c.z, 1 + YEndStepBotTop(c), NumTopBotVtx(c) + YEndStepMid, XInternalStep, ZInternalStep, ZEndStep(c), XEndStep)
  }

  /** The internal wires of all six faces, concatenated top, bottom, left,
      right, front, back. */
  function InternalWires(c: Counts): seq<(int, int)>
    requires ValidCounts(c)
  {
    TopWires(c) + BottomWires(c) + LeftWires(c) + RightWires(c) + FrontWires(c) + BackWires(c)
  }

  /** A block of stride-generated lines equals the index pairs of a block of
      segments when each line's ends are the indices of the segment's ends. */
  lemma OneDirMatches(c: Counts, dimCount: int, baseIdx: int, internalStep: int, endStep: int, segs: seq<Segment>)
    requires ValidCounts(c) && dimCount >= 2 && |segs| == dimCount - 2
    requires AllStored(c, segs)
    requires forall i :: 0 <= i < dimCount - 2 ==>
      IndexOf(c, segs[i].from) == baseIdx + i * internalStep &&
      IndexOf(c, segs[i].to) == baseIdx + endStep + i * internalStep
    ensures OneDirWires(dimCount, baseIdx, internalStep, endStep) == IndexPairs(c, segs)
  {
  }

  lemma IndexPairsAppend(c: Counts, a: seq<Segment>, b: seq<Segment>)
    requires ValidCounts(c)
    requires AllStored(c, a) && AllStored(c, b)
    ensures AllStored(c, a + b)
    ensures IndexPairs(c, a + b) == IndexPairs(c, a) + IndexPairs(c, b)
  {
  }

  /** Bottom or top cap, lines along y: line i runs from column i+1 of the
      front row to column i+1 of the back row. */
  lemma CapColumnsMatch(c: Counts, layer: int, base: int)
    requires ValidCounts(c) && (layer == 0 || layer == c.z - 1)
    requires base == if layer == 0 then 0 else ZEndStep(c)
    ensures AllStored(c, SweepFirst(c, AlongY, c.x, layer))
    ensures OneDirWires(c.x, 1 + base, XInternalStep, YEndStepBotTop(c)) == IndexPairs(c, SweepFirst(c, AlongY, c.x, layer))
  {
    var segs := SweepFirst(c, AlongY, c.x, layer);
    forall i | 0 <= i < c.x - 2
      ensures Stored(c, segs[i].from) && Stored(c, segs[i].to)
      ensures IndexOf(c, segs[i].from) == 1 + base + i * XInternalStep
      ensures IndexOf(c, segs[i].to) == 1 + base + YEndStepBotTop(c) + i * XInternalStep
    {
    }
    OneDirMatches(c, c.x, 1 + base, XInternalStep, YEndStepBotTop(c), segs);
  }

  /** Bottom or top cap, lines along x: line i runs from the left to the right end of row i+1. */
  lemma CapRowsMatch(c: Counts, layer: int, base: int)
    requires ValidCounts(c) && (layer == 0 || layer == c.z - 1)
    requires base == if layer == 0 then 0 else ZEndStep(c)
    ensures AllStored(c, SweepFirst(c, AlongX, c.y, layer))
    ensures OneDirWires(c.y, c.x + base, YInternalStep, XEndStep) == IndexPairs(c, SweepFirst(c, AlongX, c.y, layer))
  {
    var segs := SweepFirst(c, AlongX, c.y, layer);
    forall i | 0 <= i < c.y - 2
      ensures Stored(c, segs[i].from) && Stored(c, segs[i].to)
      ensures IndexOf(c, segs[i].from) == c.x + base + i * YInternalStep
      ensures IndexOf(c, segs[i].to) == c.x + base + XEndStep + i * YInternalStep
    {
    }
    OneDirMatches(c, c.y, c.x + base, YInternalStep, XEndStep, segs);
  }

  /** Left or right side, lines along z: line i joins the bottom and top cap ends of row i+1. */
  lemma SideRowsMatch(c: Counts, col: int, offset: int)
    requires ValidCounts(c) && ((col == 0 && offset == 0) || (col == c.x - 1 && offset == XEndStep))
    ensures AllStored(c, SweepSecond(c, AlongZ, col, c.y))
    ensures OneDirWires(c.y, c.x + offset, YInternalStep, ZEndStep(c)) == IndexPairs(c, SweepSecond(c, AlongZ, col, c.y))
  {
    var segs := SweepSecond(c, AlongZ, col, c.y);
    forall i | 0 <= i < c.y - 2
      ensures Stored(c, segs[i].from) && Stored(c, segs[i].to)
      ensures IndexOf(c, segs[i].from) == c.x + offset + i * YInternalStep
      ensures IndexOf(c, segs[i].to) == c.x + offset + ZEndStep(c) + i * YInternalStep
    {
    }
    OneDirMatches(c, c.y, c.x + offset, YInternalStep, ZEndStep(c), segs);
  }

  /** Left or right side, lines along y: line i joins the front and back corner of mid layer i+1. */
  lemma SideLayersMatch(c: Counts, col: int, offset: int)
    requires ValidCounts(c) && ((col == 0 && offset == 0) || (col == c.x - 1 && offset == XEndStep))
    ensures AllStored(c, SweepSecond(c, AlongY, col, c.z))
    ensures OneDirWires(c.z, NumTopBotVtx(c) + offset, ZInternalStep, YEndStepMid) == IndexPairs(c, SweepSecond(c, AlongY, col, c.z))
  {
    StridesMatchLayout(c);
    var segs := SweepSecond(c, AlongY, col, c.z);
    forall i | 0 <= i < c.z - 2
      ensures Stored(c, segs[i].from) && Stored(c, segs[i].to)
      ensures IndexOf(c, segs[i].from) == NumTopBotVtx(c) + offset + i * ZInternalStep
      ensures IndexOf(c, segs[i].to) == NumTopBotVtx(c) + offset + YEndStepMid + i * ZInternalStep
    {
    }
    OneDirMatches(c, c.z, NumTopBotVtx(c) + offset, ZInternalStep, YEndStepMid, segs);
  }

  /** Front or back side, lines along z: line i joins the bottom and top cap entries of column i+1. */
  lemma FrontBackColumnsMatch(c: Counts, row: int, offset: int)
    requires ValidCounts(c) && ((row == 0 && offset == 0) || (row == c.y - 1 && offset == YEndStepBotTop(c)))
    ensures AllStored(c, SweepFirst(c, AlongZ, c.x, row))
    ensures OneDirWires(c.x, 1 + offset, XInternalStep, ZEndStep(c)) == IndexPairs(c, SweepFirst(c, AlongZ, c.x, row))
  {
    var segs := SweepFirst(c, AlongZ, c.x, row);
    forall i | 0 <= i < c.x - 2
      ensures Stored(c, segs[i].from) && Stored(c, segs[i].to)
      ensures IndexOf(c, segs[i].from) == 1 + offset + i * XInternalStep
      ensures IndexOf(c, segs[i].to) == 1 + offset + ZEndStep(c) + i * XInternalStep
    {
    }
    OneDirMatches(c, c.x, 1 + offset, XInternalStep, ZEndStep(c), segs);
  }

  /** Front or back side, lines along x: line i joins the left and right corner of mid layer i+1. */
  lemma FrontBackLayersMatch(c: Counts, row: int, offset: int)
    requires ValidCounts(c) && ((row == 0 && offset == 0) || (row == c.y - 1 && offset == YEndStepMid))
    ensures AllStored(c, SweepSecond(c, AlongX, row, c.z))
    ensures OneDirWires(c.z, NumTopBotVtx(c) + offset, ZInternalStep, XEndStep) == IndexPairs(c, SweepSecond(c, AlongX, row, c.z))
  {
    StridesMatchLayout(c);
    var segs := SweepSecond(c, AlongX, row, c.z);
    forall i | 0 <= i < c.z - 2
      ensures Stored(c, segs[i].from) && Stored(c, segs[i].to)
      ensures IndexOf(c, segs[i].from) == NumTopBotVtx(c) + offset + i * ZInternalStep
      ensures IndexOf(c, segs[i].to) == NumTopBotVtx(c) + offset + XEndStep + i * ZInternalStep
    {
    }
    OneDirMatches(c, c.z, NumTopBotVtx(c) + offset, ZInternalStep, XEndStep, segs);
  }

  /** Two blocks of stride-generated lines, matched block by block, match together. */
  lemma TwoDirMatches(c: Counts, w1: seq<(int, int)>, w2: seq<(int, int)>, a: seq<Segment>, b: seq<Segment>)
    requires ValidCounts(c) && AllStored(c, a) && AllStored(c, b)
    requires w1 == IndexPairs(c, a) && w2 == IndexPairs(c, b)
    ensures AllStored(c, a + b) && w1 + w2 == IndexPairs(c, a + b)
  {
    IndexPairsAppend(c, a, b);
  }

  /** Bottom or top cap: both sweeps together. */
  lemma CapWiresMatch(c: Counts, layer: int, base: int)
    requires ValidCounts(c) && (layer == 0 || layer == c.z - 1)
    requires base == if layer == 0 then 0 else ZEndStep(c)
    ensures AllStored(c, SweepFirst(c, AlongY, c.x, layer) + SweepFirst(c, AlongX, c.y, layer))
    ensures TwoDirWires(c.x, c.y, 1 + base, c.x + base, XInternalStep, YInternalStep, YEndStepBotTop(c), XEndStep) ==
            IndexPairs(c, SweepFirst(c, AlongY, c.x, layer) + SweepFirst(c, AlongX, c.y, layer))
  {
    CapColumnsMatch(c, layer, base);
    CapRowsMatch(c, layer, base);
    TwoDirMatches(c, OneDirWires(c.x, 1 + base, XInternalStep, YEndStepBotTop(c)), OneDirWires(c.y, c.x + base, YInternalStep, XEndStep),
      SweepFirst(c, AlongY, c.x, layer), SweepFirst(c, AlongX, c.y, layer));
  }

  lemma BottomWiresMatch(c: Counts)
    requires ValidCounts(c)
    ensures AllStored(c, BottomLines(c)) && BottomWires(c) == IndexPairs(c, BottomLines(c))
  {
    assert BottomWires(c) == TwoDirWires(c.x, c.y, 1 + 0, c.x + 0, XInternalStep, YInternalStep, YEndStepBotTop(c), XEndStep);
    CapWiresMatch(c, 0, 0);
    assert BottomLines(c) == SweepFirst(c, AlongY, c.x, 0) + SweepFirst(c, AlongX, c.y, 0);
  }

  lemma TopWiresMatch(c: Counts)
    requires ValidCounts(c)
    ensures AllStored(c, TopLines(c)) && TopWires(c) == IndexPairs(c, TopLines(c))
  {
    assert TopWires(c) == TwoDirWires(c.x, c.y, 1 + ZEndStep(c), c.x + ZEndStep(c), XInternalStep, YInternalStep, YEndStepBotTop(c), XEndStep);
    CapWiresMatch(c, c.z - 1, ZEndStep(c));
    assert TopLines(c) == SweepFirst(c, AlongY, c.x, c.z - 1) + SweepFirst(c, AlongX, c.y, c.z - 1);
  }

  lemma LeftWiresMatch(c: Counts)
    requires ValidCounts(c)
    ensures AllStored(c, LeftLines(c)) && LeftWires(c) == IndexPairs(c, LeftLines(c))
  {
    assert LeftWires(c) == OneDirWires(c.y, c.x, YInternalStep, ZEndStep(c)) + OneDirWires(c.z, NumTopBotVtx(c), ZInternalStep, YEndStepMid);
    assert LeftLines(c) == SweepSecond(c, AlongZ, 0, c.y) + SweepSecond(c, AlongY, 0, c.z);
    SideRowsMatch(c, 0, 0);
    SideLayersMatch(c, 0, 0);
    TwoDirMatches(c, OneDirWires(c.y, c.x, YInternalStep, ZEndStep(c)), OneDirWires(c.z, NumTopBotVtx(c), ZInternalStep, YEndStepMid),
      SweepSecond(c, AlongZ, 0, c.y), SweepSecond(c, AlongY, 0, c.z));
  }

  lemma RightWiresMatch(c: Counts)
    requires ValidCounts(c)
    ensures AllStored(c, RightLines(c)) && RightWires(c) == IndexPairs(c, RightLines(c))
  {
    assert RightWires(c) == OneDirWires(c.y, c.x + XEndStep, YInternalStep, ZEndStep(c)) + OneDirWires(c.z, NumTopBotVtx(c) + XEndStep, ZInternalStep, YEndStepMid);
    assert RightLines(c) == SweepSecond(c, AlongZ, c.x - 1, c.y) + SweepSecond(c, AlongY, c.x - 1, c.z);
    SideRowsMatch(c, c.x - 1, XEndStep);
    SideLayersMatch(c, c.x - 1, XEndStep);
    TwoDirMatches(c, OneDirWires(c.y, c.x + XEndStep, YInternalStep, ZEndStep(c)), OneDirWires(c.z, NumTopBotVtx(c) + XEndStep, ZInternalStep, YEndStepMid),
      SweepSecond(c, AlongZ, c.x - 1, c.y), SweepSecond(c, AlongY, c.x - 1, c.z));
  }

  lemma FrontWiresMatch(c: Counts)
    requires ValidCounts(c)
    ensures AllStored(c, FrontLines(c)) && FrontWires(c) == IndexPairs(c, FrontLines(c))
  {
    assert FrontWires(c) == OneDirWires(c.x, 1, XInternalStep, ZEndStep(c)) + OneDirWires(c.z, NumTopBotVtx(c), ZInternalStep, XEndStep);
    assert FrontLines(c) == SweepFirst(c, AlongZ, c.x, 0) + SweepSecond(c, AlongX, 0, c.z);
    FrontBackColumnsMatch(c, 0, 0);
    FrontBackLayersMatch(c, 0, 0);
    TwoDirMatches(c, OneDirWires(c.x, 1, XInternalStep, ZEndStep(c)), OneDirWires(c.z, NumTopBotVtx(c), ZInternalStep, XEndStep),
      SweepFirst(c, AlongZ, c.x, 0), SweepSecond(c, AlongX, 0, c.z));
  }

  lemma BackWiresMatch(c: Counts)
    requires ValidCounts(c)
    ensures AllStored(c, BackLines(c)) && BackWires(c) == IndexPairs(c, BackLines(c))
  {
    assert BackWires(c) == OneDirWires(c.x, 1 + YEndStepBotTop(c), XInternalStep, ZEndStep(c)) + OneDirWires(c.z, NumTopBotVtx(c) + YEndStepMid, ZInternalStep, XEndStep);
    assert BackLines(c) == SweepFirst(c, AlongZ, c.x, c.y - 1) + SweepSecond(c, AlongX, c.y - 1, c.z);
    FrontBackColumnsMatch(c, c.y - 1, YEndStepBotTop(c));
    FrontBackLayersMatch(c, c.y - 1, YEndStepMid);
    TwoDirMatches(c, OneDirWires(c.x, 1 + YEndStepBotTop(c), XInternalStep, ZEndStep(c)), OneDirWires(c.z, NumTopBotVtx(c) + YEndStepMid, ZInternalStep, XEndStep),
      SweepFirst(c, AlongZ, c.x, c.y - 1), SweepSecond(c, AlongX, c.y - 1, c.z));
  }

  /** The central consistency result: the stride-generated internal wires are
      exactly the buffer indices of the ends of the reference lattice lines,
      in the same order. */
  lemma InternalWiresFollowLayout(c: Counts)
    requires ValidCounts(c)
    ensures AllStored(c, ReferenceLines(c))
    ensures InternalWires(c) == IndexPairs(c, ReferenceLines(c))
  {
    var bottom, top := BottomLines(c), TopLines(c);
    var left, right, front, back := LeftLines(c), RightLines(c), FrontLines(c), BackLines(c);
    TopWiresMatch(c);
    BottomWiresMatch(c);
    LeftWiresMatch(c);
    RightWiresMatch(c);
    FrontWiresMatch(c);
    BackWiresMatch(c);
    TwoDirMatches(c, TopWires(c), BottomWires(c), top, bottom);
    TwoDirMatches(c, TopWires(c) + BottomWires(c), LeftWires(c), top + bottom, left);
    TwoDirMatches(c, TopWires(c) + BottomWires(c) + LeftWires(c), RightWires(c), top + bottom + left, right);
    TwoDirMatches(c, TopWires(c) + BottomWires(c) + LeftWires(c) + RightWires(c), FrontWires(c),
      top + bottom + left + right, front);
    TwoDirMatches(c, TopWires(c) + BottomWires(c) + LeftWires(c) + RightWires(c) + FrontWires(c), BackWires(c),
      top + bottom + left + right + front, back);
  }

  /** Wire k joins the buffer indices of the ends of reference line k. */
  lemma WireEnds(c: Counts, k: int)
    requires ValidCounts(c) && 0 <= k < |InternalWires(c)|
    ensures |ReferenceLines(c)| == |InternalWires(c)|
    ensures 0 <= InternalWires(c)[k].0 < VertexCount(c) && 0 <= InternalWires(c)[k].1 < VertexCount(c)
    ensures CoordOf(c, InternalWires(c)[k].0) == ReferenceLines(c)[k].from
    ensures CoordOf(c, InternalWires(c)[k].1) == ReferenceLines(c)[k].to
    ensures IsInternalWire(c, ReferenceLines(c)[k])
  {
    var refs := ReferenceLines(c);
    InternalWiresFollowLayout(c);
    assert refs[k] in refs;
    IndexOfRoundTrip(c, refs[k].from);
    IndexOfRoundTrip(c, refs[k].to);
    ReferenceLinesExact(c, refs[k]);
  }

  /** The internal wireframe has 8((X-2)+(Y-2)+(Z-2)) indices, all inside the vertex buffer. */
  lemma WireframeIndicesInRange(c: Counts)
    requires ValidCounts(c)
    ensures |Flatten(InternalWires(c))| == 8 * ((c.x - 2) + (c.y - 2) + (c.z - 2))
    ensures forall j :: 0 <= j < |Flatten(InternalWires(c))| ==> 0 <= Flatten(InternalWires(c))[j] < VertexCount(c)
  {
    var ws := InternalWires(c);
    forall j | 0 <= j < |Flatten(ws)|
      ensures 0 <= Flatten(ws)[j] < VertexCount(c)
    {
      FlattenEntry(ws, j);
      WireEnds(c, j / 2);
    }
  }

  /** Each pair of the internal wireframe joins the two ends of an interior
      lattice line of one face: two stored points that differ along exactly one axis. */
  lemma WireframeIndicesJoinLines(c: Counts)
    requires ValidCounts(c)
    ensures forall k :: 0 <= k < |InternalWires(c)| ==>
      var w := Flatten(InternalWires(c));
      0 <= w[2 * k] < VertexCount(c) && 0 <= w[2 * k + 1] < VertexCount(c) &&
      IsInternalWire(c, Segment(CoordOf(c, w[2 * k]), CoordOf(c, w[2 * k + 1]))) &&
      DiffersInOneAxis(CoordOf(c, w[2 * k]), CoordOf(c, w[2 * k + 1]))
  {
    var ws := InternalWires(c);
    FlattenPairs(ws);
    forall k | 0 <= k < |ws|
      ensures 0 <= ws[k].0 < VertexCount(c) && 0 <= ws[k].1 < VertexCount(c)
      ensures IsInternalWire(c, Segment(CoordOf(c, ws[k].0), CoordOf(c, ws[k].1)))
      ensures DiffersInOneAxis(CoordOf(c, ws[k].0), CoordOf(c, ws[k].1))
    {
      WireEnds(c, k);
      InternalWireShape(c, ReferenceLines(c)[k]);
    }
  }

  /** Every interior lattice line of every face is drawn: its ends' indices form one of the wires. */
  lemma WireframeComplete(c: Counts, s: Segment)
    requires ValidCounts(c) && IsInternalWire(c, s)
    ensures Stored(c, s.from) && Stored(c, s.to)
    ensures (IndexOf(c, s.from), IndexOf(c, s.to)) in InternalWires(c)
  {
    InternalWireShape(c, s);
    ReferenceLinesExact(c, s);
    InternalWiresFollowLayout(c);
    var refs := ReferenceLines(c);
    var k :| 0 <= k < |refs| && refs[k] == s;
    assert InternalWires(c)[k] == (IndexOf(c, s.from), IndexOf(c, s.to));
  }

  // ------------------------------------------------------ outline indices

  /** The first and last vertex of the bottom cap's front row and back row,
      anticlockwise from the origin. */
  function BotVtxIdx(c: Counts): seq<int>
  {
    [0, c.x - 1, c.x - 1 + YEndStepBotTop(c), YEndStepBotTop(c)]
  }

  /** Bottom square: corner i to corner i+1 (mod 4). */
  function BotSquareWires(c: Counts): seq<(int, int)>
  {
    seq(4, i requires 0 <= i < 4 => (BotVtxIdx(c)[i], BotVtxIdx(c)[(i + 1) % 4]))
  }

  /** Top square: the bottom square shifted by ZEndStep. */
  function TopSquareWires(c: Counts): seq<(int, int)>
  {
    seq(4, i requires 0 <= i < 4 => (BotVtxIdx(c)[i] + ZEndStep(c), BotVtxIdx(c)[(i + 1) % 4] + ZEndStep(c)))
  }

  /** Pillars: bottom corner i to the vertex ZEndStep further on. */
  function PillarWires(c: Counts): seq<(int, int)>
  {
    seq(4, i requires 0 <= i < 4 => (BotVtxIdx(c)[i], BotVtxIdx(c)[i] + ZEndStep(c)))
  }

  function OutlineWires(c: Counts): seq<(int, int)>
  {
    BotSquareWires(c) + TopSquareWires(c) + PillarWires(c)
  }

  /** The corner indices the outline uses are the indices of the cuboid's corners. */
  lemma CornerIndices(c: Counts, i: int)
    requires ValidCounts(c) && 0 <= i < 4
    ensures Stored(c, Corner(c, i, 0)) && Stored(c, Corner(c, i, c.z - 1))
    ensures IndexOf(c, Corner(c, i, 0)) == BotVtxIdx(c)[i]
    ensures IndexOf(c, Corner(c, i, c.z - 1)) == BotVtxIdx(c)[i] + ZEndStep(c)
  {
  }

  /** The outline's bottom square is the index form of the corner square on layer 0. */
  lemma BotSquareMatch(c: Counts)
    requires ValidCounts(c)
    ensures AllStored(c, Square(c, 0)) && BotSquareWires(c) == IndexPairs(c, Square(c, 0))
  {
    CornerIndices(c, 0);
    CornerIndices(c, 1);
    CornerIndices(c, 2);
    CornerIndices(c, 3);
  }

  /** The outline's top square is the index form of the corner square on the last layer. */
  lemma TopSquareMatch(c: Counts)
    requires ValidCounts(c)
    ensures AllStored(c, Square(c, c.z - 1)) && TopSquareWires(c) == IndexPairs(c, Square(c, c.z - 1))
  {
    CornerIndices(c, 0);
    CornerIndices(c, 1);
    CornerIndices(c, 2);
    CornerIndices(c, 3);
  }

  lemma PillarWiresMatch(c: Counts)
    requires ValidCounts(c)
    ensures AllStored(c, Pillars(c)) && PillarWires(c) == IndexPairs(c, Pillars(c))
  {
    CornerIndices(c, 0);
    CornerIndices(c, 1);
    CornerIndices(c, 2);
    CornerIndices(c, 3);
  }

  /** The stride-generated outline is the index form of the cuboid's twelve edges, in order. */
  lemma OutlineWiresFollowLayout(c: Counts)
    requires ValidCounts(c)
    ensures AllStored(c, OutlineSegments(c))
    ensures OutlineWires(c) == IndexPairs(c, OutlineSegments(c))
  {
    BotSquareMatch(c);
    TopSquareMatch(c);
    PillarWiresMatch(c);
    ThreeBlocksMatch(c, BotSquareWires(c), TopSquareWires(c), PillarWires(c), Square(c, 0), Square(c, c.z - 1), Pillars(c),
      OutlineWires(c), OutlineSegments(c));
  }

  /** Three blocks of index pairs, matched block by block, match together. */
  lemma ThreeBlocksMatch(c: Counts, w1: seq<(int, int)>, w2: seq<(int, int)>, w3: seq<(int, int)>,
                         a: seq<Segment>, b: seq<Segment>, d: seq<Segment>, w: seq<(int, int)>, segs: seq<Segment>)
    requires ValidCounts(c) && AllStored(c, a) && AllStored(c, b) && AllStored(c, d)
    requires w1 == IndexPairs(c, a) && w2 == IndexPairs(c, b) && w3 == IndexPairs(c, d)
    requires w == w1 + w2 + w3 && segs == a + b + d
    ensures AllStored(c, segs) && w == IndexPairs(c, segs)
  {
    TwoDirMatches(c, w1, w2, a, b);
    TwoDirMatches(c, w1 + w2, w3, a + b, d);
  }

  /** The outline has 24 indices, all inside the vertex buffer; each pair joins
      two corners of the cuboid along one axis, and every cuboid edge is drawn. */
  lemma OutlineIndicesSound(c: Counts)
    requires ValidCounts(c)
    ensures |Flatten(OutlineWires(c))| == 24
    ensures forall j :: 0 <= j < 24 ==> 0 <= Flatten(OutlineWires(c))[j] < VertexCount(c)
    ensures forall k :: 0 <= k < 12 ==>
      var w := Flatten(OutlineWires(c));
      IsCuboidEdge(c, CoordOf(c, w[2 * k]), CoordOf(c, w[2 * k + 1]))
  {
    var ws, segs := OutlineWires(c), OutlineSegments(c);
    var w := Flatten(ws);
    FlattenPairs(ws);
    OutlineWiresFollowLayout(c);
    OutlineSegmentsAreEdges(c);
    forall k | 0 <= k < 12
      ensures 0 <= ws[k].0 < VertexCount(c) && 0 <= ws[k].1 < VertexCount(c)
      ensures CoordOf(c, ws[k].0) == segs[k].from && CoordOf(c, ws[k].1) == segs[k].to
    {
      assert segs[k] in segs;
      IndexOfRoundTrip(c, segs[k].from);
      IndexOfRoundTrip(c, segs[k].to);
    }
    forall j | 0 <= j < 24
      ensures 0 <= w[j] < VertexCount(c)
    {
      FlattenEntry(ws, j);
    }
  }

  /** Every edge of the cuboid is drawn by the outline, in one direction or the other. */
  lemma OutlineComplete(c: Counts, p: GridPt, q: GridPt)
    requires ValidCounts(c) && IsCuboidEdge(c, p, q)
    ensures Stored(c, p) && Stored(c, q)
    ensures (IndexOf(c, p), IndexOf(c, q)) in OutlineWires(c) || (IndexOf(c, q), IndexOf(c, p)) in OutlineWires(c)
  {
    OutlineCoversEdges(c, p, q);
    OutlineWiresFollowLayout(c);
    var segs := OutlineSegments(c);
    if Segment(p, q) in segs {
      var k :| 0 <= k < |segs| && segs[k] == Segment(p, q);
      assert OutlineWires(c)[k] == (IndexOf(c, p), IndexOf(c, q));
    } else {
      var k :| 0 <= k < |segs| && segs[k] == Segment(q, p);
      assert OutlineWires(c)[k] == (IndexOf(c, q), IndexOf(c, p));
    }
  }
}
