/** Flat vertex buffers: three reals per vertex, as handed to the renderer,
    and the in-place centering loop shared by the wireframe and the bounding cube. */
module Geometry {

  /** One 3D point (or a per-axis triple such as the normalised extents). */
  datatype Vec3 = Vec3(x: real, y: real, z: real)

  /** Vertex `k` of a flat buffer `v` (components at 3k, 3k+1, 3k+2). */
  function VertexAt(v: seq<real>, k: int): Vec3
    requires 0 <= k && 3 * k + 2 < |v|
  {
    Vec3(v[3 * k], v[3 * k + 1], v[3 * k + 2])
  }

  /** Translation of `p` by minus half of `len` on every axis. */
  function Centred(p: Vec3, len: Vec3): Vec3
  {
    Vec3(p.x - len.x / 2.0, p.y - len.y / 2.0, p.z - len.z / 2.0)
  }

  /** Two points that differ along exactly one axis. */
  predicate AxisAligned(u: Vec3, v: Vec3)
  {
    (u.x != v.x && u.y == v.y && u.z == v.z) ||
    (u.x == v.x && u.y != v.y && u.z == v.z) ||
    (u.x == v.x && u.y == v.y && u.z != v.z)
  }

  /** A vertex of a concatenation lies in the left part ... */
  lemma VertexAtLeft(a: seq<real>, b: seq<real>, k: int)
    requires 0 <= k && 3 * k + 2 < |a|
    ensures VertexAt(a + b, k) == VertexAt(a, k)
  {
  }

  /** ... or, shifted by the left part's vertex count, in the right part. */
  lemma VertexAtRight(a: seq<real>, b: seq<real>, n: int, k: int)
    requires |a| == 3 * n && n <= k && 3 * k + 2 < |a| + |b|
    ensures VertexAt(a + b, k) == VertexAt(b, k - n)
  {
  }

  /** The centering loop: subtracts half the extent on each axis from every
      complete vertex of `a`, in place, and leaves everything else alone. */
  method CenterVertices(a: array<real>, len: Vec3)
    modifies a
    ensures forall k :: 0 <= k < a.Length / 3 ==>
      VertexAt(a[..], k) == Centred(VertexAt(old(a[..]), k), len)
    ensures forall j :: 3 * (a.Length / 3) <= j < a.Length ==> a[j] == old(a[j])
  {
    var n := a.Length / 3;
    for i := 0 to n
      invariant forall k :: 0 <= k < i ==>
        a[3 * k] == old(a[3 * k]) - len.x / 2.0 &&
        a[3 * k + 1] == old(a[3 * k + 1]) - len.y / 2.0 &&
        a[3 * k + 2] == old(a[3 * k + 2]) - len.z / 2.0
      invariant forall j :: 3 * i <= j < a.Length ==> a[j] == old(a[j])
    {
      a[i * 3] := a[i * 3] - len.x / 2.0;
      a[i * 3 + 1] := a[i * 3 + 1] - len.y / 2.0;
      a[i * 3 + 2] := a[i * 3 + 2] - len.z / 2.0;
    }
  }
}
