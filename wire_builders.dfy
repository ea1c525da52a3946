/** The wireframe's index generators as the loops that fill the index vectors.
    Each is proved to produce the flattened stride formula of WireIndices, so
    the soundness lemmas proved there apply to what they return. */
module WireBuilders {
  import opened GridLayout
  import opened WireIndices

  /** Lines in one direction on one face, both ends excluded: pair i joins
      base + i*internalStep to base + endStep + i*internalStep.  Fewer than
      two samples would make the vector length negative. */
  method InternalWireIndicesOneDir(dimCount: int, baseIdx: int, internalStep: int, endStep: int)
    returns (indices: seq<int>)
    requires dimCount >= 2
    ensures |indices| == 2 * (dimCount - 2)
    ensures forall i :: 0 <= i < dimCount - 2 ==>
      indices[2 * i] == baseIdx + i * internalStep &&
      indices[2 * i + 1] == baseIdx + endStep + i * internalStep
    ensures indices == Flatten(OneDirWires(dimCount, baseIdx, internalStep, endStep))
  {
    ghost var w := OneDirWires(dimCount, baseIdx, internalStep, endStep);
    var lineCount := dimCount - 2;
    var a := new int[2 * lineCount];
    for i := 0 to lineCount
      invariant forall k :: 0 <= k < i ==> a[2 * k] == w[k].0 && a[2 * k + 1] == w[k].1
    {
      a[i * 2] := baseIdx + i * internalStep;
      a[i * 2 + 1] := baseIdx + endStep + i * internalStep;
    }
    indices := a[..];
    forall i | 0 <= i < lineCount
      ensures indices[2 * i] == w[i].0 && indices[2 * i + 1] == w[i].1
    {
    }
    FlattenFromPairs(w, indices);
  }

  /** A list holding pair k at positions 2k and 2k+1, and nothing else, is the flattened pair list. */
  lemma FlattenFromPairs(ps: seq<(int, int)>, r: seq<int>)
    requires |r| == 2 * |ps|
    requires forall k :: 0 <= k < |ps| ==> r[2 * k] == ps[k].0 && r[2 * k + 1] == ps[k].1
    ensures r == Flatten(ps)
  {
    forall j | 0 <= j < |r|
      ensures r[j] == Flatten(ps)[j]
    {
      FlattenEntry(ps, j);
    }
  }

  /** Lines in two directions on one face: the first direction's pairs, then the second's. */
  method InternalWireIndicesTwoDir(dimCount1: int, dimCount2: int, baseIdx1: int, baseIdx2: int,
                                   internalStep1: int, internalStep2: int, endStep1: int, endStep2: int)
    returns (indices: seq<int>)
    requires dimCount1 >= 2 && dimCount2 >= 2
    ensures |indices| == 2 * (dimCount1 - 2) + 2 * (dimCount2 - 2)
    ensures indices == Flatten(TwoDirWires(dimCount1, dimCount2, baseIdx1, baseIdx2,
                                           internalStep1, internalStep2, endStep1, endStep2))
  {
    var dim1 := InternalWireIndicesOneDir(dimCount1, baseIdx1, internalStep1, endStep1);
    var dim2 := InternalWireIndicesOneDir(dimCount2, baseIdx2, internalStep2, endStep2);
    indices := dim1 + dim2;
    FlattenAppend(OneDirWires(dimCount1, baseIdx1, internalStep1, endStep1),
                  OneDirWires(dimCount2, baseIdx2, internalStep2, endStep2));
  }

  /** All interior face lines: bottom and top (x and y lines), left and right
      (y and z lines), front and back (x and z lines), emitted top, bottom,
      left, right, front, back.  The result has 8((X-2)+(Y-2)+(Z-2)) entries,
      all inside the vertex buffer (WireIndices.WireframeIndicesInRange). */
  method WireframeIndices(c: Counts) returns (indices: seq<int>)
    requires ValidCounts(c)
    ensures |indices| == 8 * ((c.x - 2) + (c.y - 2) + (c.z - 2))
    ensures forall j :: 0 <= j < |indices| ==> 0 <= indices[j] < VertexCount(c)
    ensures indices == Flatten(InternalWires(c))
  {
    var numTopBotVtx := NumTopBotVtx(c);
    var zEndStep := ZEndStep(c);
    var yEndStepBotTop := YEndStepBotTop(c);

    var baseIdx1, baseIdx2 := 1, c.x;
    var bot := InternalWireIndicesTwoDir(c.x, c.y, baseIdx1, baseIdx2,
      XInternalStep, YInternalStep, yEndStepBotTop, XEndStep);
    CapFaceIndices(c, false, baseIdx1, baseIdx2, yEndStepBotTop, bot);
    baseIdx1, baseIdx2 := baseIdx1 + zEndStep, baseIdx2 + zEndStep;
    var top := InternalWireIndicesTwoDir(c.x, c.y, baseIdx1, baseIdx2,
      XInternalStep, YInternalStep, yEndStepBotTop, XEndStep);
    CapFaceIndices(c, true, baseIdx1, baseIdx2, yEndStepBotTop, top);

    baseIdx1, baseIdx2 := c.x, numTopBotVtx;
    var left := InternalWireIndicesTwoDir(c.y, c.z, baseIdx1, baseIdx2,
      YInternalStep, ZInternalStep, zEndStep, YEndStepMid);
    SideFaceIndices(c, false, baseIdx1, baseIdx2, zEndStep, left);
    baseIdx1, baseIdx2 := baseIdx1 + XEndStep, baseIdx2 + XEndStep;
    var right := InternalWireIndicesTwoDir(c.y, c.z, baseIdx1, baseIdx2,
      YInternalStep, ZInternalStep, zEndStep, YEndStepMid);
    SideFaceIndices(c, true, baseIdx1, baseIdx2, zEndStep, right);

    baseIdx1, baseIdx2 := 1, numTopBotVtx;
    var front := InternalWireIndicesTwoDir(c.x, c.z, baseIdx1, baseIdx2,
      XInternalStep, ZInternalStep, zEndStep, XEndStep);
    FrontBackFaceIndices(c, false, baseIdx1, baseIdx2, zEndStep, front);
    baseIdx1, baseIdx2 := baseIdx1 + yEndStepBotTop, baseIdx2 + YEndStepMid;
    var back := InternalWireIndicesTwoDir(c.x, c.z, baseIdx1, baseIdx2,
      XInternalStep, ZInternalStep, zEndStep, XEndStep);
    FrontBackFaceIndices(c, true, baseIdx1, baseIdx2, zEndStep, back);

    indices := top + bot + left + right + front + back;
    AssembleWireframe(c, top, bot, left, right, front, back);
  }

  /** The bottom (or top) face's generator call produces that face's wires. */
  lemma CapFaceIndices(c: Counts, isTop: bool, b1: int, b2: int, yEnd: int, w: seq<int>)
    requires ValidCounts(c) && yEnd == YEndStepBotTop(c)
    requires if isTop then b1 == 1 + ZEndStep(c) && b2 == c.x + ZEndStep(c) else b1 == 1 && b2 == c.x
    requires w == Flatten(TwoDirWires(c.x, c.y, b1, b2, XInternalStep, YInternalStep, yEnd, XEndStep))
    ensures w == Flatten(if isTop then TopWires(c) else BottomWires(c))
  {
  }

  /** The left (or right) face's generator call produces that face's wires. */
  lemma SideFaceIndices(c: Counts, isRight: bool, b1: int, b2: int, zEnd: int, w: seq<int>)
    requires ValidCounts(c) && zEnd == ZEndStep(c)
    requires if isRight then b1 == c.x + XEndStep && b2 == NumTopBotVtx(c) + XEndStep
             else b1 == c.x && b2 == NumTopBotVtx(c)
    requires w == Flatten(TwoDirWires(c.y, c.z, b1, b2, YInternalStep, ZInternalStep, zEnd, YEndStepMid))
    ensures w == Flatten(if isRight then RightWires(c) else LeftWires(c))
  {
  }

  /** The front (or back) face's generator call produces that face's wires. */
  lemma FrontBackFaceIndices(c: Counts, isBack: bool, b1: int, b2: int, zEnd: int, w: seq<int>)
    requires ValidCounts(c) && zEnd == ZEndStep(c)
    requires if isBack then b1 == 1 + YEndStepBotTop(c) && b2 == NumTopBotVtx(c) + YEndStepMid
             else b1 == 1 && b2 == NumTopBotVtx(c)
    requires w == Flatten(TwoDirWires(c.x, c.z, b1, b2, XInternalStep, ZInternalStep, zEnd, XEndStep))
    ensures w == Flatten(if isBack then BackWires(c) else FrontWires(c))
  {
  }

  /** The six faces, concatenated top, bottom, left, right, front, back, are the internal wireframe. */
  lemma AssembleWireframe(c: Counts, top: seq<int>, bot: seq<int>, left: seq<int>, right: seq<int>,
                          front: seq<int>, back: seq<int>)
    requires ValidCounts(c)
    requires top == Flatten(TopWires(c)) && bot == Flatten(BottomWires(c))
    requires left == Flatten(LeftWires(c)) && right == Flatten(RightWires(c))
    requires front == Flatten(FrontWires(c)) && back == Flatten(BackWires(c))
    ensures |top + bot + left + right + front + back| == 8 * ((c.x - 2) + (c.y - 2) + (c.z - 2))
    ensures forall j :: 0 <= j < |top + bot + left + right + front + back| ==>
      0 <= (top + bot + left + right + front + back)[j] < VertexCount(c)
    ensures top + bot + left + right + front + back == Flatten(InternalWires(c))
  {
    FlattenSix(TopWires(c), BottomWires(c), LeftWires(c), RightWires(c), FrontWires(c), BackWires(c));
    WireframeIndicesInRange(c);
  }

  lemma OutlineInRange(c: Counts, indices: seq<int>)
    requires ValidCounts(c) && indices == Flatten(OutlineWires(c))
    ensures forall j :: 0 <= j < 24 ==> 0 <= indices[j] < VertexCount(c)
  {
    OutlineIndicesSound(c);
  }

  lemma FlattenSix(a: seq<(int, int)>, b: seq<(int, int)>, c: seq<(int, int)>,
                   d: seq<(int, int)>, e: seq<(int, int)>, f: seq<(int, int)>)
    ensures Flatten(a + b + c + d + e + f) ==
            Flatten(a) + Flatten(b) + Flatten(c) + Flatten(d) + Flatten(e) + Flatten(f)
  {
    FlattenAppend(a, b);
    FlattenAppend(a + b, c);
    FlattenAppend(a + b + c, d);
    FlattenAppend(a + b + c + d, e);
    FlattenAppend(a + b + c + d + e, f);
  }

  /** The cuboid's outline: the bottom square (corner i to corner i+1 mod 4),
      the top square (the same shifted by zEndStep) and the four pillars
      (corner i to corner i + zEndStep), 24 indices in all.  For any counts of
      at least two, every index is inside the vertex buffer and every pair is
      an edge of the cuboid (WireIndices.OutlineIndicesSound). */
  method OutlineIndices(c: Counts) returns (outlineIdx: seq<int>)
    ensures |outlineIdx| == 24
    ensures ValidCounts(c) ==> forall j :: 0 <= j < 24 ==> 0 <= outlineIdx[j] < VertexCount(c)
    ensures outlineIdx == Flatten(OutlineWires(c))
  {
    var zEndStep := ZEndStep(c);
    var yEndStepBotTop := YEndStepBotTop(c);
    var botVtxIdx := [0, c.x - 1, c.x - 1 + yEndStepBotTop, yEndStepBotTop];
    ghost var bw, tw, pw := BotSquareWires(c), TopSquareWires(c), PillarWires(c);
    assert botVtxIdx == BotVtxIdx(c);
    var botSquareIdx, topSquareIdx, pillarsIdx := seq(8, _ => 0), seq(8, _ => 0), seq(8, _ => 0);
    for i := 0 to 4
      invariant |botSquareIdx| == 8 && |topSquareIdx| == 8 && |pillarsIdx| == 8
      invariant forall k :: 0 <= k < i ==> botSquareIdx[2 * k] == bw[k].0 && botSquareIdx[2 * k + 1] == bw[k].1
      invariant forall k :: 0 <= k < i ==> topSquareIdx[2 * k] == tw[k].0 && topSquareIdx[2 * k + 1] == tw[k].1
      invariant forall k :: 0 <= k < i ==> pillarsIdx[2 * k] == pw[k].0 && pillarsIdx[2 * k + 1] == pw[k].1
    {
      var endVtxIdx := (i + 1) % 4;
      var lineArrayIdx := i * 2;
      assert bw[i] == (botVtxIdx[i], botVtxIdx[endVtxIdx]);
      assert tw[i] == (botVtxIdx[i] + zEndStep, botVtxIdx[endVtxIdx] + zEndStep);
      assert pw[i] == (botVtxIdx[i], botVtxIdx[i] + zEndStep);
      botSquareIdx := botSquareIdx[lineArrayIdx := botVtxIdx[i]][lineArrayIdx + 1 := botVtxIdx[endVtxIdx]];
      topSquareIdx := topSquareIdx[lineArrayIdx := botVtxIdx[i] + zEndStep][lineArrayIdx + 1 := botVtxIdx[endVtxIdx] + zEndStep];
      pillarsIdx := pillarsIdx[lineArrayIdx := botVtxIdx[i]][lineArrayIdx + 1 := botVtxIdx[i] + zEndStep];
    }
    FlattenFromPairs(bw, botSquareIdx);
    FlattenFromPairs(tw, topSquareIdx);
    FlattenFromPairs(pw, pillarsIdx);
    outlineIdx := botSquareIdx + topSquareIdx + pillarsIdx;
    FlattenAppend(BotSquareWires(c), TopSquareWires(c));
    FlattenAppend(BotSquareWires(c) + TopSquareWires(c), PillarWires(c));
    if ValidCounts(c) {
      OutlineInRange(c, outlineIdx);
    }
  }
}
