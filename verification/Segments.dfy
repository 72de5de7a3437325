/**
  Physical segments (block/blk-merge.c): how the vectors of a request are grouped into scatterlist entries, and why the
  count kept in nr_phys_segments is always enough for them.
*/
module Segments {

  /** bio_vec. */
  datatype Vec = Vec(page: nat, offset: nat, len: nat)

  /** The queue limits. `mergeable` is BIOVEC_PHYS_MERGEABLE, `inBoundary` BIOVEC_SEG_BOUNDARY, `high` a page above the
      bounce limit; all three are arbitrary. */
  datatype Limits = Limits(cluster: bool, maxSegmentSize: nat, maxSegments: nat, maxSectors: nat,
                           mergeable: (Vec, Vec) -> bool, inBoundary: (Vec, Vec) -> bool, high: Vec -> bool)

  // ----- what a segment is

  predicate Joins(l: Limits, a: Vec, b: Vec) { l.cluster && l.mergeable(a, b) && l.inBoundary(a, b) }

  function Sum(vs: seq<Vec>): nat { if vs == [] then 0 else Sum(vs[..|vs| - 1]) + vs[|vs| - 1].len }

  function Flat(ps: seq<seq<Vec>>): seq<Vec> { if ps == [] then [] else Flat(ps[..|ps| - 1]) + ps[|ps| - 1] }

  /** One vector alone always is a segment; several are one if neighbours join and the size limit holds. */
  ghost predicate IsSegment(l: Limits, s: seq<Vec>) {
    && s != []
    && (|s| > 1 ==> Sum(s) <= l.maxSegmentSize)
    && forall i, j :: 0 <= i < j < |s| && j == i + 1 ==> Joins(l, s[i], s[j])
  }

  ghost predicate IsPartition(l: Limits, vs: seq<Vec>, ps: seq<seq<Vec>>) {
    Flat(ps) == vs && forall i :: 0 <= i < |ps| ==> IsSegment(l, ps[i])
  }

  function Last<T>(s: seq<T>): T
    requires s != []
  {
    s[|s| - 1]
  }

  function Front<T>(s: seq<T>): seq<T>
    requires s != []
  {
    s[..|s| - 1]
  }

  // ----- partitions grow at the end

  lemma {:induction false} FlatSum(ps: seq<seq<Vec>>, qs: seq<seq<Vec>>)
    ensures Flat(ps + qs) == Flat(ps) + Flat(qs)
  {
    if qs == [] {
      assert ps + qs == ps;
    } else {
      FlatSum(ps, Front(qs));
      assert Front(ps + qs) == ps + Front(qs);
    }
  }

  lemma FlatOne(s: seq<Vec>)
    ensures Flat([s]) == s
  {
    assert Front([s]) == [];
  }

  lemma {:induction false} SumPlus(a: seq<Vec>, b: seq<Vec>)
    ensures Sum(a + b) == Sum(a) + Sum(b)
  {
    if b == [] {
      assert a + b == a;
    } else {
      SumPlus(a, Front(b));
      assert Front(a + b) == a + Front(b);
    }
  }

  /** A new segment for the vector `v`. */
  lemma OpenSegment(l: Limits, vs: seq<Vec>, ps: seq<seq<Vec>>, v: Vec)
    requires IsPartition(l, vs, ps)
    ensures IsPartition(l, vs + [v], ps + [[v]])
  {
    FlatSum(ps, [[v]]);
    FlatOne([v]);
  }

  /** The vector `v` joins the last segment. */
  lemma GrowSegment(l: Limits, vs: seq<Vec>, ps: seq<seq<Vec>>, v: Vec)
    requires IsPartition(l, vs, ps) && ps != []
    requires Joins(l, Last(vs), v) && Sum(Last(ps)) + v.len <= l.maxSegmentSize
    ensures vs != [] && IsPartition(l, vs + [v], Front(ps) + [Last(ps) + [v]])
  {
    var s := Last(ps) + [v];
    assert Front(s) == Last(ps);
    assert ps == Front(ps) + [Last(ps)];
    assert Last(vs) == Last(Last(ps));
    var qs := Front(ps) + [s];
    assert Front(qs) == Front(ps);
    forall i, j | 0 <= i < j < |s| && j == i + 1 ensures Joins(l, s[i], s[j]) {
      if j == |s| - 1 {
        assert s[i] == Last(Last(ps)) && s[j] == v;
      } else {
        assert s[i] == Last(ps)[i] && s[j] == Last(ps)[j];
      }
    }
  }

  /** Two adjacent runs of vectors, partitioned separately. */
  lemma ConcatPartitions(l: Limits, vs: seq<Vec>, ps: seq<seq<Vec>>, ws: seq<Vec>, qs: seq<seq<Vec>>)
    requires IsPartition(l, vs, ps) && IsPartition(l, ws, qs)
    ensures IsPartition(l, vs + ws, ps + qs)
  {
    FlatSum(ps, qs);
  }

  lemma JoinSegments(l: Limits, a: seq<Vec>, b: seq<Vec>)
    requires IsSegment(l, a) && IsSegment(l, b) && Joins(l, Last(a), b[0]) && Sum(a) + Sum(b) <= l.maxSegmentSize
    ensures IsSegment(l, a + b) && Sum(a + b) == Sum(a) + Sum(b)
  {
    var s := a + b;
    SumPlus(a, b);
    forall i, j | 0 <= i < j < |s| && j == i + 1 ensures Joins(l, s[i], s[j]) {
      if j < |a| {
        assert s[i] == a[i] && s[j] == a[j];
      } else if i >= |a| {
        assert s[i] == b[i - |a|] && s[j] == b[j - |a|];
      }
    }
  }

  /** The last segment of one run and the first of the next are joined into one. */
  lemma JoinPartitions(l: Limits, vs: seq<Vec>, ps: seq<seq<Vec>>, ws: seq<Vec>, qs: seq<seq<Vec>>)
    requires IsPartition(l, vs, ps) && IsPartition(l, ws, qs) && ps != [] && qs != []
    requires vs != [] && ws != [] && Joins(l, Last(vs), ws[0]) && Sum(Last(ps)) + Sum(qs[0]) <= l.maxSegmentSize
    ensures IsPartition(l, vs + ws, Front(ps) + [Last(ps) + qs[0]] + qs[1..])
    ensures Sum(Last(ps) + qs[0]) == Sum(Last(ps)) + Sum(qs[0])
  {
    FirstVector(l, ws, qs);
    assert Last(vs) == Last(Last(ps));
    JoinSegments(l, Last(ps), qs[0]);
    FlatJoined(Front(ps), Last(ps), qs[0], qs[1..]);
    assert ps == Front(ps) + [Last(ps)] && qs == [qs[0]] + qs[1..];
  }

  lemma FirstVector(l: Limits, ws: seq<Vec>, qs: seq<seq<Vec>>)
    requires IsPartition(l, ws, qs) && qs != []
    ensures ws != [] && ws[0] == qs[0][0]
  {
    assert qs == [qs[0]] + qs[1..];
    FlatSum([qs[0]], qs[1..]);
    FlatOne(qs[0]);
  }

  lemma FlatJoined(ps: seq<seq<Vec>>, a: seq<Vec>, b: seq<Vec>, qs: seq<seq<Vec>>)
    ensures Flat(ps + [a + b] + qs) == Flat(ps + [a]) + Flat([b] + qs)
  {
    FlatSum(ps, [a]);
    FlatSum([b], qs);
    FlatSum(ps, [a + b]);
    FlatSum(ps + [a + b], qs);
    FlatOne(a);
    FlatOne(b);
    FlatOne(a + b);
    calc {
      Flat(ps + [a + b] + qs);
      (Flat(ps) + (a + b)) + Flat(qs);
      (Flat(ps) + a) + (b + Flat(qs));
    }
  }

  // ----- blk_rq_map_sg is greedy, and greedy is best

  /** `ps` uses no more segments than `qs` and, if as many, leaves no more in the last one. */
  predicate NoWorse(ps: seq<seq<Vec>>, qs: seq<seq<Vec>>) {
    |ps| < |qs| || (|ps| == |qs| && (ps == [] || Sum(Last(ps)) <= Sum(Last(qs))))
  }

  ghost predicate Best(l: Limits, vs: seq<Vec>, ps: seq<seq<Vec>>) {
    forall qs :: IsPartition(l, vs, qs) ==> NoWorse(ps, qs)
  }

  /** Taking the last vector out of a partition leaves one of the shorter run. */
  lemma DropVector(l: Limits, vs: seq<Vec>, v: Vec, qs: seq<seq<Vec>>)
    requires IsPartition(l, vs + [v], qs)
    ensures qs != [] && Last(Last(qs)) == v
    ensures |Last(qs)| == 1 ==> Last(qs) == [v] && IsPartition(l, vs, Front(qs))
    ensures |Last(qs)| > 1 ==> vs != [] && Joins(l, Last(vs), v) && IsPartition(l, vs, Front(qs) + [Front(Last(qs))])
    ensures |Last(qs)| > 1 ==> Sum(Front(Last(qs))) + v.len <= l.maxSegmentSize
  {
    assert qs != [];
    var s := Last(qs);
    assert Flat(qs) == Flat(Front(qs)) + s;
    assert (vs + [v])[|vs|] == v == Last(s);
    if |s| > 1 {
      assert vs == (vs + [v])[..|vs|] == (Flat(Front(qs)) + s)[..|vs|] == Flat(Front(qs)) + Front(s);
      ShortenSegment(l, s);
      FlatSum(Front(qs), [Front(s)]);
      FlatOne(Front(s));
    } else {
      assert s == [v];
      assert vs == (vs + [v])[..|vs|] == (Flat(Front(qs)) + s)[..|vs|] == Flat(Front(qs));
    }
  }

  lemma ShortenSegment(l: Limits, s: seq<Vec>)
    requires IsSegment(l, s) && |s| > 1
    ensures IsSegment(l, Front(s)) && Joins(l, Last(Front(s)), Last(s)) && Sum(s) == Sum(Front(s)) + Last(s).len
  {
    var f := Front(s);
    forall i, j | 0 <= i < j < |f| && j == i + 1 ensures Joins(l, f[i], f[j]) {
      assert f[i] == s[i] && f[j] == s[j];
    }
    var i := |s| - 2;
    assert Joins(l, s[i], s[i + 1]);
  }

  predicate MayGrow(l: Limits, vs: seq<Vec>, ps: seq<seq<Vec>>, v: Vec) {
    vs != [] && ps != [] && Joins(l, Last(vs), v) && Sum(Last(ps)) + v.len <= l.maxSegmentSize
  }

  /** One step of the greedy pass keeps the partition best. */
  lemma BestStep(l: Limits, vs: seq<Vec>, ps: seq<seq<Vec>>, v: Vec)
    requires IsPartition(l, vs, ps) && Best(l, vs, ps)
    ensures Best(l, vs + [v], if MayGrow(l, vs, ps, v) then Front(ps) + [Last(ps) + [v]] else ps + [[v]])
  {
    var rs := if MayGrow(l, vs, ps, v) then Front(ps) + [Last(ps) + [v]] else ps + [[v]];
    forall qs | IsPartition(l, vs + [v], qs) ensures NoWorse(rs, qs) {
      DropVector(l, vs, v, qs);
      if MayGrow(l, vs, ps, v) {
        SumPlus(Last(ps), [v]);
      }
      assert Sum([v]) == v.len by { assert Front([v]) == []; }
      if |Last(qs)| == 1 {
        assert NoWorse(ps, Front(qs));
      } else {
        var q := Front(qs) + [Front(Last(qs))];
        assert NoWorse(ps, q);
        SumPlus(Front(Last(qs)), [v]);
        assert Last(qs) == Front(Last(qs)) + [v];
        assert ps == [] ==> Flat(ps) == [];
      }
    }
  }

  ghost function Greedy(l: Limits, vs: seq<Vec>): seq<seq<Vec>>
    decreases |vs|
  {
    if vs == [] then []
    else
      var ps := Greedy(l, Front(vs));
      if MayGrow(l, Front(vs), ps, Last(vs)) then Front(ps) + [Last(ps) + [Last(vs)]] else ps + [[Last(vs)]]
  }

  lemma {:induction false} GreedyBest(l: Limits, vs: seq<Vec>)
    ensures IsPartition(l, vs, Greedy(l, vs)) && Best(l, vs, Greedy(l, vs))
    decreases |vs|
  {
    if vs == [] {
    } else {
      var us, v := Front(vs), Last(vs);
      GreedyBest(l, us);
      var ps := Greedy(l, us);
      BestStep(l, us, ps, v);
      assert vs == us + [v];
      if MayGrow(l, us, ps, v) { GrowSegment(l, us, ps, v); } else { OpenSegment(l, us, ps, v); }
    }
  }

  /** The number of segments of the smallest partition. */
  ghost function Fewest(l: Limits, vs: seq<Vec>): nat { |Greedy(l, vs)| }

  lemma FewestIs(l: Limits, vs: seq<Vec>, ps: seq<seq<Vec>>)
    requires IsPartition(l, vs, ps)
    ensures Fewest(l, vs) <= |ps|
    ensures (forall qs :: IsPartition(l, vs, qs) ==> |ps| <= |qs|) ==> |ps| == Fewest(l, vs)
  {
    GreedyBest(l, vs);
    assert NoWorse(Greedy(l, vs), ps);
  }

  /** blk_rq_map_sg before padding and draining: the lengths of the scatterlist entries. It fits in any count that some
      valid partition has. */
  method MapSg(l: Limits, vs: seq<Vec>) returns (sg: seq<nat>, ghost ps: seq<seq<Vec>>)
    ensures IsPartition(l, vs, ps) && |sg| == |ps| && forall i :: 0 <= i < |sg| ==> sg[i] == Sum(ps[i])
    ensures forall qs :: IsPartition(l, vs, qs) ==> |sg| <= |qs|
  {
    sg, ps := [], [];
    var i := 0;
    assert vs[..0] == [];
    while i < |vs|
      invariant i <= |vs| && IsPartition(l, vs[..i], ps) && Best(l, vs[..i], ps)
      invariant |sg| == |ps| && (i > 0 ==> ps != []) && forall k :: 0 <= k < |sg| ==> sg[k] == Sum(ps[k])
    {
      var v := vs[i];
      BestStep(l, vs[..i], ps, v);
      assert vs[..i] + [v] == vs[..i + 1];
      if i > 0 && l.cluster && sg[|sg| - 1] + v.len <= l.maxSegmentSize && l.mergeable(vs[i - 1], v)
         && l.inBoundary(vs[i - 1], v)
      {
        GrowSegment(l, vs[..i], ps, v);
        SumPlus(Last(ps), [v]);
        assert Sum([v]) == v.len by { assert Front([v]) == []; }
        ps := Front(ps) + [Last(ps) + [v]];
        sg := sg[|sg| - 1 := sg[|sg| - 1] + v.len];
      } else {
        OpenSegment(l, vs[..i], ps, v);
        assert Sum([v]) == v.len by { assert Front([v]) == []; }
        ps, sg := ps + [[v]], sg + [v.len];
      }
      i := i + 1;
    }
    assert vs[..i] == vs;
  }
}
