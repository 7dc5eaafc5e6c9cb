/**
 * The integer side of SampleFramework12's meshes: the index lists of the procedural sphere,
 * cone, box and plane, and the per-mesh parts and buffer views. Vertex positions are
 * floating point and are not modelled.
 */
module Geometry {
  import opened Ints
  import Arith

  // ---- index lists -------------------------------------------------------------------------

  /** `UINT16_MAX`. */
  const U16_MAX: nat := 0xFFFF

  /** Three consecutive entries of an index list. */
  datatype Triangle = Triangle(a: int, b: int, c: int)

  /** The index list of a list of triangles. */
  function Flatten(ts: seq<Triangle>): (r: seq<int>)
    ensures |r| == 3 * |ts|
  {
    if |ts| == 0 then [] else Flatten(ts[..|ts| - 1]) + [ts[|ts| - 1].a, ts[|ts| - 1].b, ts[|ts| - 1].c]
  }

  /** Appending one triangle appends its three indices. */
  lemma FlattenSnoc(ts: seq<Triangle>, t: Triangle)
    ensures Flatten(ts + [t]) == Flatten(ts) + [t.a, t.b, t.c]
  {
    assert (ts + [t])[..|ts|] == ts;
  }

  lemma {:induction false} FlattenAppend(ts: seq<Triangle>, us: seq<Triangle>)
    ensures Flatten(ts + us) == Flatten(ts) + Flatten(us)
    decreases |us|
  {
    if |us| > 0 {
      var us' := us[..|us| - 1];
      var t := us[|us| - 1];
      assert ts + us == (ts + us') + [t];
      assert us == us' + [t];
      FlattenSnoc(ts + us', t);
      FlattenSnoc(us', t);
      FlattenAppend(ts, us');
    } else {
      assert ts + us == ts;
    }
  }

  /** Entries `3j`, `3j + 1` and `3j + 2` of the index list are triangle `j`'s vertices. */
  lemma {:induction false} FlattenTriangle(ts: seq<Triangle>, j: nat)
    requires j < |ts|
    ensures Flatten(ts)[3 * j] == ts[j].a && Flatten(ts)[3 * j + 1] == ts[j].b && Flatten(ts)[3 * j + 2] == ts[j].c
  {
    if j < |ts| - 1 {
      FlattenTriangle(ts[..|ts| - 1], j);
    }
  }

  /** All vertices of all triangles lie below `n`. */
  ghost predicate TrianglesBelow(ts: seq<Triangle>, n: nat)
  {
    forall i :: 0 <= i < |ts| ==> 0 <= ts[i].a < n && 0 <= ts[i].b < n && 0 <= ts[i].c < n
  }

  /** All entries of `s` name one of `n` vertices. */
  ghost predicate IndicesBelow(s: seq<int>, n: nat)
  {
    forall i :: 0 <= i < |s| ==> 0 <= s[i] < n
  }

  /** The index list of triangles below `n` stays below `n`. */
  lemma {:induction false} FlattenBelow(ts: seq<Triangle>, n: nat)
    requires TrianglesBelow(ts, n)
    ensures IndicesBelow(Flatten(ts), n)
  {
    if |ts| > 0 {
      FlattenBelow(ts[..|ts| - 1], n);
    }
  }

  /** The vertex count of a sphere: a top and a bottom vertex and `v - 1` rings of `u`. */
  function SphereVertexCount(uDivisions: nat, vDivisions: nat): nat
    requires vDivisions >= 1
  {
    (vDivisions - 1) * uDivisions + 2
  }

  /** The first `k` triangles of the fan around the top vertex 0 and the first ring. */
  function TopFan(u: nat, k: nat): (r: seq<Triangle>)
    ensures |r| == k
  {
    if k == 0 then [] else TopFan(u, k - 1) + [Triangle(0, k, if k < u then k + 1 else 1)]
  }

  /** The first `k` triangles of the fan around the last vertex `last` and the last ring. */
  function BottomFan(u: nat, last: int, k: nat): (r: seq<Triangle>)
    ensures |r| == k
  {
    if k == 0 then []
    else
      var ringStart := last - u;
      BottomFan(u, last, k - 1) + [Triangle(last, if k < u then ringStart + k else ringStart, ringStart + k - 1)]
  }

  /** The two triangles of quad `c` between the rings starting at `prev` and `curr`. */
  function Quad(u: nat, prev: int, curr: int, c: nat): seq<Triangle>
  {
    var nextBottom := if c + 1 == u then curr else curr + c + 1;
    var nextTop := if c + 1 == u then prev else prev + c + 1;
    [Triangle(prev + c, curr + c, nextBottom), Triangle(nextBottom, nextTop, prev + c)]
  }

  /** The first `c` quads between the rings starting at `prev` and `curr`. */
  function Band(u: nat, prev: int, curr: int, c: nat): (r: seq<Triangle>)
    ensures |r| == 2 * c
  {
    if c == 0 then [] else Band(u, prev, curr, c - 1) + Quad(u, prev, curr, c - 1)
  }

  /** The first vertex of ring `r` (ring 1 follows the top vertex 0). */
  function RingStart(u: nat, r: nat): nat
    requires r >= 1
  {
    1 + (r - 1) * u
  }

  lemma RingStartNext(u: nat, r: nat)
    requires r >= 1
    ensures RingStart(u, r + 1) == RingStart(u, r) + u
  {
  }

  /** Rings 1 to `v - 1` lie between the top vertex and the bottom vertex. */
  lemma RingStartBound(u: nat, r: nat, v: nat)
    requires 1 <= r < v
    ensures RingStart(u, r) + u + 1 <= SphereVertexCount(u, v)
  {
    Arith.MulMonotone(r, v - 1, u);
  }

  /** The bands between rings 1 and `row`. */
  function Rings(u: nat, row: nat): (r: seq<Triangle>)
    requires row >= 1
  {
    if row == 1 then [] else Rings(u, row - 1) + Band(u, RingStart(u, row - 1), RingStart(u, row), u)
  }

  /** The triangles of a sphere, in `MakeSphereGeometry`'s order. */
  function SphereTriangles(u: nat, v: nat): seq<Triangle>
    requires v >= 2
  {
    TopFan(u, u) + Rings(u, v - 1) + BottomFan(u, SphereVertexCount(u, v) - 1, u)
  }

  lemma RingsLengthStep(u: nat, row: nat)
    requires row > 1
    ensures |Rings(u, row)| == |Rings(u, row - 1)| + 2 * u
  {
  }

  /** `Rings(u, row)` holds two triangles per quad, `u` quads per band. */
  lemma {:induction false} RingsLength(u: nat, row: nat)
    requires row >= 1
    ensures |Rings(u, row)| == 2 * u * (row - 1)
  {
    if row > 1 {
      RingsLengthStep(u, row);
      RingsLength(u, row - 1);
      Arith.Distrib(row - 1, 1, 2 * u);
    }
  }

  /**
   * `MakeSphereGeometry`'s index list: a fan around the top vertex, two triangles per quad
   * between consecutive rings, and a fan around the bottom vertex, every index naming one of
   * the sphere's vertices (so no `uint16` conversion truncates).
   */
  method MakeSphereIndices(uDivisions: nat, vDivisions: nat) returns (indices: seq<u16>)
    requires uDivisions >= 3 && vDivisions >= 3
    requires SphereVertexCount(uDivisions, vDivisions) <= U16_MAX
    ensures |indices| == 6 * uDivisions * (vDivisions - 1)
    ensures IndicesBelow(indices, SphereVertexCount(uDivisions, vDivisions))
    ensures indices == Flatten(SphereTriangles(uDivisions, vDivisions))
  {
    var n := SphereVertexCount(uDivisions, vDivisions);
    Arith.MulMonotone(2, vDivisions - 1, uDivisions);
    var top := SphereTopFan(uDivisions, n);
    var rings := SphereRings(uDivisions, vDivisions);
    var bottom := SphereBottomFan(uDivisions, n);
    SphereParts(uDivisions, vDivisions, top, rings, bottom);
    SphereLength(uDivisions, vDivisions);
    IndicesBelowAppend(top, rings, n);
    IndicesBelowAppend(top + rings, bottom, n);
    indices := ToU16(top + rings + bottom, n);
  }

  /** A sphere has `6u(v - 1)` indices: `3u` per fan and `6u` per band. */
  lemma SphereLength(u: nat, v: nat)
    requires v >= 2
    ensures |Flatten(SphereTriangles(u, v))| == 6 * u * (v - 1)
  {
    RingsLength(u, v - 1);
    SphereIndexCount(u, v);
  }

  /** The three parts of the sphere's index list make up the whole. */
  lemma SphereParts(u: nat, v: nat, top: seq<int>, rings: seq<int>, bottom: seq<int>)
    requires v >= 2 && top == Flatten(TopFan(u, u)) && rings == Flatten(Rings(u, v - 1))
    requires bottom == Flatten(BottomFan(u, SphereVertexCount(u, v) - 1, u))
    ensures Flatten(SphereTriangles(u, v)) == top + rings + bottom
  {
    FlattenAppend(TopFan(u, u), Rings(u, v - 1));
    FlattenAppend(TopFan(u, u) + Rings(u, v - 1), BottomFan(u, SphereVertexCount(u, v) - 1, u));
  }

  lemma SphereIndexCount(u: nat, v: nat)
    requires v >= 2
    ensures 6 * u * (v - 1) == 3 * u + 3 * (2 * u * (v - 2)) + 3 * u
  {
  }

  /** Appending a triangle whose vertices lie below `n` keeps the index list below `n`. */
  lemma SnocBelow(acc: seq<int>, ts: seq<Triangle>, t: Triangle, n: nat)
    requires acc == Flatten(ts) && IndicesBelow(acc, n)
    requires 0 <= t.a < n && 0 <= t.b < n && 0 <= t.c < n
    ensures acc + [t.a, t.b, t.c] == Flatten(ts + [t])
    ensures IndicesBelow(acc + [t.a, t.b, t.c], n)
  {
    FlattenSnoc(ts, t);
  }

  /** Triangle `k` of the top fan. */
  function TopTriangle(u: nat, k: nat): (t: Triangle)
    ensures TopFan(u, k + 1) == TopFan(u, k) + [t]
  {
    Triangle(0, k + 1, if k + 1 < u then k + 2 else 1)
  }

  /** Triangle `k` of the bottom fan around `last`. */
  function BottomTriangle(u: nat, last: int, k: nat): (t: Triangle)
    ensures BottomFan(u, last, k + 1) == BottomFan(u, last, k) + [t]
  {
    Triangle(last, if k + 1 < u then last - u + k + 1 else last - u, last - u + k)
  }

  /** The fan around the top vertex. */
  method SphereTopFan(u: nat, n: nat) returns (acc: seq<int>)
    requires u >= 1 && u + 2 <= n
    ensures acc == Flatten(TopFan(u, u)) && IndicesBelow(acc, n)
  {
    acc := [];
    var k: nat := 0;
    while k < u
      invariant k <= u && acc == Flatten(TopFan(u, k)) && IndicesBelow(acc, n)
    {
      var third := if k < u - 1 then k + 2 else 1;
      var t := Triangle(0, k + 1, third);
      assert t == TopTriangle(u, k);
      SnocBelow(acc, TopFan(u, k), t, n);
      acc := acc + [t.a, t.b, t.c];
      k := k + 1;
    }
  }

  /** The fan around the bottom vertex `n - 1` and the last ring. */
  method SphereBottomFan(u: nat, n: nat) returns (acc: seq<int>)
    requires u >= 1 && u + 2 <= n
    ensures acc == Flatten(BottomFan(u, n - 1, u)) && IndicesBelow(acc, n)
  {
    var lastVertIdx := n - 1;
    var lastRingStart := lastVertIdx - u;
    acc := [];
    var k: nat := 0;
    while k < u
      invariant k <= u && acc == Flatten(BottomFan(u, lastVertIdx, k)) && IndicesBelow(acc, n)
    {
      var second := if k < u - 1 then lastRingStart + k + 1 else lastRingStart;
      var t := Triangle(lastVertIdx, second, lastRingStart + k);
      assert t == BottomTriangle(u, lastVertIdx, k);
      SnocBelow(acc, BottomFan(u, lastVertIdx, k), t, n);
      acc := acc + [t.a, t.b, t.c];
      k := k + 1;
    }
  }

  /** The bands between consecutive rings of `MakeSphereGeometry`. */
  method SphereRings(u: nat, vDivisions: nat) returns (acc: seq<int>)
    requires u >= 3 && vDivisions >= 3
    ensures acc == Flatten(Rings(u, vDivisions - 1))
    ensures IndicesBelow(acc, SphereVertexCount(u, vDivisions))
  {
    var n := SphereVertexCount(u, vDivisions);
    acc := [];
    var prevRowStart, currRowStart := 1, u + 1;
    var row: nat := 1;
    while row < vDivisions - 1
      invariant 1 <= row <= vDivisions - 1
      invariant prevRowStart == RingStart(u, row) && currRowStart == prevRowStart + u
      invariant acc == Flatten(Rings(u, row)) && IndicesBelow(acc, n)
    {
      RingStartNext(u, row);
      RingStartBound(u, row + 1, vDivisions);
      var band := SphereBand(u, n, prevRowStart, currRowStart);
      RingsStep(acc, band, u, row, n);
      acc := acc + band;
      prevRowStart := currRowStart;
      currRowStart := currRowStart + u;
      row := row + 1;
      RingStartNext(u, row);
    }
  }

  lemma RingsStep(acc: seq<int>, band: seq<int>, u: nat, row: nat, n: nat)
    requires row >= 1 && acc == Flatten(Rings(u, row)) && IndicesBelow(acc, n)
    requires band == Flatten(Band(u, RingStart(u, row), RingStart(u, row + 1), u)) && IndicesBelow(band, n)
    ensures acc + band == Flatten(Rings(u, row + 1)) && IndicesBelow(acc + band, n)
  {
    FlattenAppend(Rings(u, row), Band(u, RingStart(u, row), RingStart(u, row + 1), u));
    IndicesBelowAppend(acc, band, n);
  }

  /** The quads between the ring at `prevRowStart` and the ring at `currRowStart`. */
  method SphereBand(u: nat, n: nat, prevRowStart: nat, currRowStart: nat) returns (acc: seq<int>)
    requires u >= 1 && currRowStart == prevRowStart + u && currRowStart + u <= n
    ensures acc == Flatten(Band(u, prevRowStart, currRowStart, u))
    ensures IndicesBelow(acc, n)
  {
    acc := [];
    var c: nat := 0;
    while c < u
      invariant c <= u && acc == Flatten(Band(u, prevRowStart, currRowStart, c))
      invariant IndicesBelow(acc, n)
    {
      var quad := QuadIndices(u, prevRowStart, currRowStart, c);
      QuadBelow(u, prevRowStart, currRowStart, c, n);
      BandStep(u, prevRowStart, currRowStart, c);
      IndicesBelowAppend(acc, quad, n);
      acc := acc + quad;
      c := c + 1;
    }
  }

  /** A list of indices below `n <= UINT16_MAX`, stored as `uint16`. */
  function ToU16(s: seq<int>, n: nat): (r: seq<u16>)
    requires IndicesBelow(s, n) && n <= U16_MAX
    ensures r == s
  {
    s
  }

  /** The six indices of quad `c`. */
  function QuadIndices(u: nat, prev: int, curr: int, c: nat): (r: seq<int>)
    ensures r == Flatten(Quad(u, prev, curr, c))
  {
    var nextBottom := if c + 1 == u then curr else curr + c + 1;
    var nextTop := if c + 1 == u then prev else prev + c + 1;
    var t0 := Triangle(prev + c, curr + c, nextBottom);
    var t1 := Triangle(nextBottom, nextTop, prev + c);
    FlattenSnoc([], t0);
    assert [t0] == [] + [t0];
    FlattenSnoc([t0], t1);
    [prev + c, curr + c, nextBottom, nextBottom, nextTop, prev + c]
  }

  lemma QuadBelow(u: nat, prev: nat, curr: nat, c: nat, n: nat)
    requires c < u && curr == prev + u && curr + u <= n
    ensures IndicesBelow(QuadIndices(u, prev, curr, c), n)
  {
  }

  lemma BandStep(u: nat, prev: int, curr: int, c: nat)
    ensures Flatten(Band(u, prev, curr, c + 1)) == Flatten(Band(u, prev, curr, c)) + QuadIndices(u, prev, curr, c)
  {
    FlattenAppend(Band(u, prev, curr, c), Quad(u, prev, curr, c));
  }

  lemma IndicesBelowAppend(s: seq<int>, t: seq<int>, n: nat)
    requires IndicesBelow(s, n) && IndicesBelow(t, n)
    ensures IndicesBelow(s + t, n)
  {
  }

  /** The ring vertex before ring vertex `i` of a cone with `divisions` ring vertices. */
  function PrevRing(i: nat, divisions: nat): nat
    requires i < divisions
  {
    if i == 0 then divisions - 1 else i - 1
  }

  /** The cone's tip, base centre and first ring vertex. */
  const CONE_TIP: nat := 0
  const CONE_CENTER: nat := 1
  const CONE_RING_START: nat := 2

  /** The first `k` triangles from the tip to the ring edges. */
  function TipFan(divisions: nat, k: nat): (r: seq<Triangle>)
    requires k <= divisions
    ensures |r| == k
  {
    if k == 0 then []
    else TipFan(divisions, k - 1) + [Triangle(CONE_TIP, CONE_RING_START + k - 1, CONE_RING_START + PrevRing(k - 1, divisions))]
  }

  /** The first `k` triangles from the ring edges to the centre of the base. */
  function BaseFan(divisions: nat, k: nat): (r: seq<Triangle>)
    requires k <= divisions
    ensures |r| == k
  {
    if k == 0 then []
    else BaseFan(divisions, k - 1) + [Triangle(CONE_RING_START + k - 1, CONE_CENTER, CONE_RING_START + PrevRing(k - 1, divisions))]
  }

  /** The whole tip fan followed by the first `k` base triangles, one triangle at a time. */
  function ConeFan(divisions: nat, k: nat): (r: seq<Triangle>)
    requires k <= divisions
  {
    if k == 0 then TipFan(divisions, divisions)
    else ConeFan(divisions, k - 1) + [Triangle(CONE_RING_START + k - 1, CONE_CENTER, CONE_RING_START + PrevRing(k - 1, divisions))]
  }

  lemma {:induction false} ConeFanSplits(divisions: nat, k: nat)
    requires k <= divisions
    ensures ConeFan(divisions, k) == TipFan(divisions, divisions) + BaseFan(divisions, k)
  {
    if k > 0 {
      ConeFanSplits(divisions, k - 1);
    }
  }

  /**
   * `MakeConeGeometry`'s index array: one triangle from the tip to each ring edge, then one
   * from each ring edge to the centre of the base.
   */
  method MakeConeIndices(divisions: nat) returns (indices: array<u16>)
    requires divisions >= 3 && divisions + 2 <= U16_MAX
    ensures fresh(indices) && indices.Length == 6 * divisions
    ensures IndicesBelow(indices[..], divisions + 2)
    ensures indices[..] == Flatten(TipFan(divisions, divisions) + BaseFan(divisions, divisions))
  {
    indices := new u16[6 * divisions](_ => 0);
    FillTipTriangles(indices, divisions);
    FillBaseTriangles(indices, divisions);
    ConeTrianglesProper(divisions);
    FlattenBelow(TipFan(divisions, divisions) + BaseFan(divisions, divisions), divisions + 2);
  }

  /** The tip-to-ring loop of `MakeConeGeometry`, writing `indices[0..3 * divisions]`. */
  method FillTipTriangles(indices: array<u16>, divisions: nat)
    requires divisions >= 3 && divisions + 2 <= U16_MAX && indices.Length == 6 * divisions
    modifies indices
    ensures indices[..3 * divisions] == Flatten(TipFan(divisions, divisions))
  {
    var currIdx := 0;
    var i := 0;
    while i < divisions
      modifies indices
      invariant i <= divisions && currIdx == 3 * i
      invariant indices[..3 * i] == Flatten(TipFan(divisions, i))
    {
      WriteTipTriangle(indices, divisions, i);
      currIdx, i := currIdx + 3, i + 1;
    }
  }

  /** The ring-to-centre loop of `MakeConeGeometry`, writing `indices[3 * divisions..]`. */
  method FillBaseTriangles(indices: array<u16>, divisions: nat)
    requires divisions >= 3 && divisions + 2 <= U16_MAX && indices.Length == 6 * divisions
    requires indices[..3 * divisions] == Flatten(TipFan(divisions, divisions))
    modifies indices
    ensures indices[..] == Flatten(TipFan(divisions, divisions) + BaseFan(divisions, divisions))
  {
    var currIdx := 3 * divisions;
    var i := 0;
    assert ConeFan(divisions, 0) == TipFan(divisions, divisions);
    while i < divisions
      modifies indices
      invariant i <= divisions && currIdx == 3 * divisions + 3 * i
      invariant indices[..3 * divisions + 3 * i] == Flatten(ConeFan(divisions, i))
    {
      WriteBaseTriangle(indices, divisions, i);
      currIdx, i := currIdx + 3, i + 1;
    }
    assert i == divisions && indices[..] == indices[..3 * divisions + 3 * i];
    ConeFanSplits(divisions, divisions);
  }

  lemma TipStep(divisions: nat, i: nat, t: Triangle)
    requires i < divisions
    requires t == Triangle(CONE_TIP, CONE_RING_START + i, CONE_RING_START + PrevRing(i, divisions))
    ensures Flatten(TipFan(divisions, i + 1)) == Flatten(TipFan(divisions, i)) + [t.a, t.b, t.c]
  {
    FlattenSnoc(TipFan(divisions, i), t);
  }

  lemma BaseStep(divisions: nat, i: nat, t: Triangle)
    requires i < divisions
    requires t == Triangle(CONE_RING_START + i, CONE_CENTER, CONE_RING_START + PrevRing(i, divisions))
    ensures Flatten(ConeFan(divisions, i + 1)) == Flatten(ConeFan(divisions, i)) + [t.a, t.b, t.c]
  {
    FlattenSnoc(ConeFan(divisions, i), t);
  }

  /** One pass of the tip-to-ring loop: triangle `i` after the `i` already written. */
  method WriteTipTriangle(indices: array<u16>, divisions: nat, i: nat)
    requires i < divisions && divisions + 2 <= U16_MAX && indices.Length == 6 * divisions
    requires indices[..3 * i] == Flatten(TipFan(divisions, i))
    modifies indices
    ensures indices[..3 * (i + 1)] == Flatten(TipFan(divisions, i + 1))
  {
    var t := Triangle(CONE_TIP, CONE_RING_START + i, CONE_RING_START + PrevRing(i, divisions));
    TipStep(divisions, i, t);
    WriteTriangle(indices, 3 * i, t);
  }

  /** One pass of the ring-to-centre loop: triangle `i` of the base after the tip fan. */
  method WriteBaseTriangle(indices: array<u16>, divisions: nat, i: nat)
    requires i < divisions && divisions + 2 <= U16_MAX && indices.Length == 6 * divisions
    requires indices[..3 * divisions + 3 * i] == Flatten(ConeFan(divisions, i))
    modifies indices
    ensures indices[..3 * divisions + 3 * (i + 1)] == Flatten(ConeFan(divisions, i + 1))
  {
    var t := Triangle(CONE_RING_START + i, CONE_CENTER, CONE_RING_START + PrevRing(i, divisions));
    BaseStep(divisions, i, t);
    WriteTriangle(indices, 3 * divisions + 3 * i, t);
  }

  /** Three `indices[currIdx++] = ...` writes of one triangle. */
  method WriteTriangle(indices: array<u16>, pos: nat, t: Triangle)
    requires pos + 3 <= indices.Length
    requires 0 <= t.a < TWO_16 && 0 <= t.b < TWO_16 && 0 <= t.c < TWO_16
    modifies indices
    ensures indices[..pos + 3] == old(indices[..pos]) + [t.a, t.b, t.c]
    ensures indices[pos + 3..] == old(indices[pos + 3..])
  {
    indices[pos] := t.a;
    indices[pos + 1] := t.b;
    indices[pos + 2] := t.c;
  }

  /** Every cone triangle is proper (three distinct vertices) and names one of its vertices. */
  lemma ConeTrianglesProper(divisions: nat)
    requires divisions >= 3
    ensures TrianglesBelow(TipFan(divisions, divisions) + BaseFan(divisions, divisions), divisions + 2)
    ensures forall i :: 0 <= i < divisions ==> PrevRing(i, divisions) != i
  {
    TipFanBelow(divisions, divisions);
    BaseFanBelow(divisions, divisions);
  }

  lemma {:induction false} TipFanBelow(divisions: nat, k: nat)
    requires 3 <= divisions && k <= divisions
    ensures TrianglesBelow(TipFan(divisions, k), divisions + 2)
  {
    if k > 0 {
      TipFanBelow(divisions, k - 1);
    }
  }

  lemma {:induction false} BaseFanBelow(divisions: nat, k: nat)
    requires 3 <= divisions && k <= divisions
    ensures TrianglesBelow(BaseFan(divisions, k), divisions + 2)
  {
    if k > 0 {
      BaseFanBelow(divisions, k - 1);
    }
  }

  /** The six indices of face `f` of a box: two triangles over its four vertices. */
  function BoxFace(f: nat): seq<u16>
    requires f < 6
  {
    [4 * f + 0, 4 * f + 1, 4 * f + 2, 4 * f + 2, 4 * f + 3, 4 * f + 0]
  }

  const NUM_BOX_VERTS: nat := 24
  const NUM_BOX_INDICES: nat := 36
  const NUM_PLANE_VERTS: nat := 4
  const NUM_PLANE_INDICES: nat := 6

  /** The indices of faces `0` to `n - 1`, in order. */
  function BoxFaces(n: nat): (r: seq<u16>)
    requires n <= 6
    ensures |r| == 6 * n
  {
    if n == 0 then [] else BoxFaces(n - 1) + BoxFace(n - 1)
  }

  /** The index list of `Mesh::InitBox` and `MakeBoxGeometry`: top, bottom, front, back, left, right. */
  const BOX_INDICES: seq<u16> := BoxFaces(6)

  /** The index list of `Mesh::InitPlane`. */
  const PLANE_INDICES: seq<u16> := BoxFace(0)

  /** Face `f` of a box uses only its own four vertices `4f` to `4f + 3`. */
  lemma BoxFaceVertices(f: nat)
    requires f < 6
    ensures |BoxFace(f)| == 6 && IndicesBelow(BoxFace(f), 4 * f + 4)
    ensures forall i :: 0 <= i < 6 ==> 4 * f <= BoxFace(f)[i]
  {
  }

  lemma SliceOfAppendLeft<T>(a: seq<T>, b: seq<T>, x: nat, y: nat)
    requires x <= y <= |a|
    ensures (a + b)[x..y] == a[x..y]
  {
  }

  /** Entries `6f` to `6f + 5` of the first `n` faces are face `f`. */
  lemma {:induction false} BoxFacesSlice(n: nat, f: nat)
    requires f < n <= 6
    ensures BoxFaces(n)[6 * f..6 * f + 6] == BoxFace(f)
  {
    if f < n - 1 {
      BoxFacesSlice(n - 1, f);
      SliceOfAppendLeft(BoxFaces(n - 1), BoxFace(n - 1), 6 * f, 6 * f + 6);
    } else {
      assert BoxFaces(n)[6 * f..6 * f + 6] == BoxFaces(n)[|BoxFaces(n - 1)|..];
    }
  }

  /** The first `n` faces use only the first `4n` vertices. */
  lemma {:induction false} BoxFacesBelow(n: nat)
    requires n <= 6
    ensures IndicesBelow(BoxFaces(n), 4 * n)
  {
    if n > 0 {
      BoxFacesBelow(n - 1);
      BoxFaceVertices(n - 1);
      IndicesBelowWiden(BoxFaces(n - 1), 4 * (n - 1), 4 * n);
      IndicesBelowAppend(BoxFaces(n - 1), BoxFace(n - 1), 4 * n);
    }
  }

  lemma IndicesBelowWiden(s: seq<int>, n: nat, m: nat)
    requires IndicesBelow(s, n) && n <= m
    ensures IndicesBelow(s, m)
  {
  }

  /** Every box index names one of its 24 vertices, six indices per face in order; the plane is the first face. */
  lemma BoxIndicesPerFace()
    ensures |BOX_INDICES| == NUM_BOX_INDICES && IndicesBelow(BOX_INDICES, NUM_BOX_VERTS)
    ensures forall f :: 0 <= f < 6 ==> BOX_INDICES[6 * f..6 * f + 6] == BoxFace(f)
    ensures |PLANE_INDICES| == NUM_PLANE_INDICES && IndicesBelow(PLANE_INDICES, NUM_PLANE_VERTS)
  {
    BoxFacesBelow(6);
    BoxFaceVertices(0);
    forall f | 0 <= f < 6
      ensures BOX_INDICES[6 * f..6 * f + 6] == BoxFace(f)
    {
      BoxFacesSlice(6, f);
    }
  }

  // ---- meshes ------------------------------------------------------------------------------

  datatype IndexType = Index16Bit | Index32Bit

  /** `Mesh::IndexSize`. */
  function IndexSize(t: IndexType): (r: nat)
    ensures r == 2 || r == 4
  {
    if t == Index32Bit then 4 else 2
  }

  /** `MeshPart`: ranges of vertices and indices drawn with one material. */
  datatype MeshPart = MeshPart(vertexStart: nat, vertexCount: nat, indexStart: nat, indexCount: nat, materialIdx: nat)

  /** The single part of a procedural mesh: all its vertices and indices. */
  function WholeMesh(numVertices: nat, numIndices: nat, materialIdx: nat): (r: MeshPart)
    ensures r.vertexStart == 0 && r.vertexCount == numVertices
    ensures r.indexStart == 0 && r.indexCount == numIndices && r.materialIdx == materialIdx
  {
    MeshPart(0, numVertices, 0, numIndices, materialIdx)
  }

  /** `sizeof(MeshVertex)`: position, normal, tangent and bitangent (`Float3`) and UV (`Float2`). */
  const VERTEX_STRIDE: nat := 56

  class Mesh {
    var numVertices: nat
    var numIndices: nat
    var indexType: IndexType
    var meshParts: seq<MeshPart>
    /** The mesh's first vertex and first index in the model's shared buffers (`uint32`). */
    var vtxOffset: u32
    var idxOffset: u32
    /** The byte offsets and sizes of the mesh's vertex and index buffer views. */
    var vbOffset: nat
    var vbSize: nat
    var ibOffset: nat
    var ibSize: nat

    constructor ()
      ensures numVertices == 0 && numIndices == 0 && meshParts == []
    {
      numVertices, numIndices, indexType, meshParts := 0, 0, Index16Bit, [];
      vtxOffset, idxOffset, vbOffset, vbSize, ibOffset, ibSize := 0, 0, 0, 0, 0, 0;
    }

    /**
     * `InitCommon`: records where the mesh sits in the shared buffers; the element offsets
     * are stored as `uint32`, and the views cover exactly the mesh's own vertices and indices.
     */
    method InitCommon(vbAddress: nat, ibAddress: nat, vtxOffset_: nat, idxOffset_: nat)
      requires |meshParts| > 0
      modifies this
      ensures vtxOffset == vtxOffset_ % TWO_32 && idxOffset == idxOffset_ % TWO_32
      ensures vbOffset == vbAddress && vbSize == VERTEX_STRIDE * numVertices
      ensures ibOffset == ibAddress && ibSize == IndexSize(indexType) * numIndices
      ensures numVertices == old(numVertices) && numIndices == old(numIndices)
      ensures indexType == old(indexType) && meshParts == old(meshParts)
    {
      vtxOffset := vtxOffset_ % TWO_32;
      idxOffset := idxOffset_ % TWO_32;
      vbOffset, vbSize := vbAddress, VERTEX_STRIDE * numVertices;
      ibOffset, ibSize := ibAddress, IndexSize(indexType) * numIndices;
    }

    /** `InitBox`: writes the box's 16-bit indices and makes one part covering them all. */
    method InitBox(materialIdx: nat) returns (dstIndices: seq<u16>)
      modifies this
      ensures dstIndices == BOX_INDICES && IndicesBelow(dstIndices, numVertices)
      ensures indexType == Index16Bit && numVertices == NUM_BOX_VERTS && numIndices == NUM_BOX_INDICES
      ensures meshParts == [WholeMesh(numVertices, numIndices, materialIdx)]
    {
      BoxIndicesPerFace();
      dstIndices := BOX_INDICES;
      indexType := Index16Bit;
      numVertices, numIndices := NUM_BOX_VERTS, NUM_BOX_INDICES;
      meshParts := [WholeMesh(numVertices, numIndices, materialIdx)];
    }

    /** `InitPlane`: writes the plane's 16-bit indices and makes one part covering them all. */
    method InitPlane(materialIdx: nat) returns (dstIndices: seq<u16>)
      modifies this
      ensures dstIndices == PLANE_INDICES && IndicesBelow(dstIndices, numVertices)
      ensures indexType == Index16Bit && numVertices == NUM_PLANE_VERTS && numIndices == NUM_PLANE_INDICES
      ensures meshParts == [WholeMesh(numVertices, numIndices, materialIdx)]
    {
      BoxIndicesPerFace();
      dstIndices := PLANE_INDICES;
      indexType := Index16Bit;
      numVertices, numIndices := NUM_PLANE_VERTS, NUM_PLANE_INDICES;
      meshParts := [WholeMesh(numVertices, numIndices, materialIdx)];
    }
  }
}
