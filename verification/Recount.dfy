/** Bios, and __blk_recalc_rq_segments (block/blk-merge.c): counting the segments of a chain of bios. */
module Recount {
  import opened Segments

  /** struct bio. `vecs` holds the vectors from bi_idx on, `ff` the failfast bits of bi_rw; `target`
      stands for disk, direction and integrity, which merging compares. A bio that discards is none of these. */
  datatype Bio = Bio(id: nat, sector: nat, size: nat, vecs: seq<Vec>, ff: set<nat>, ahead: bool, uptodate: bool,
                     target: nat, seg: SegInfo)

  /** bi_phys_segments, BIO_SEG_VALID, bi_seg_front_size and bi_seg_back_size. */
  datatype SegInfo = SegInfo(count: nat, valid: bool, front: nat, back: nat)

  function Lives(bs: seq<Bio>): seq<seq<Vec>> { seq(|bs|, i requires 0 <= i < |bs| => bs[i].vecs) }

  /** The vectors of a chain of bios. */
  function Vectors(bs: seq<Bio>): seq<Vec> { Flat(Lives(bs)) }

  lemma VectorsPlus(xs: seq<Bio>, bs: seq<Bio>)
    ensures Vectors(xs + bs) == Vectors(xs) + Vectors(bs)
  {
    assert Lives(xs + bs) == Lives(xs) + Lives(bs);
    FlatSum(Lives(xs), Lives(bs));
  }

  lemma VectorsOne(b: Bio)
    ensures Vectors([b]) == b.vecs
  {
    assert Lives([b]) == [b.vecs];
    FlatOne(b.vecs);
  }

  /** Only the segment bookkeeping of a bio differs, and the size bounds have not shrunk. */
  predicate Recounted(a: Bio, b: Bio) {
    b == a.(seg := b.seg) && a.seg.front <= b.seg.front && a.seg.back <= b.seg.back
  }

  predicate AllRecounted(xs: seq<Bio>, bs: seq<Bio>) {
    |xs| == |bs| && forall i :: 0 <= i < |xs| ==> Recounted(xs[i], bs[i])
  }

  lemma RecountedVectors(xs: seq<Bio>, bs: seq<Bio>)
    requires AllRecounted(xs, bs)
    ensures Vectors(xs) == Vectors(bs)
  {
    forall i | 0 <= i < |xs| ensures xs[i].vecs == bs[i].vecs { assert Recounted(xs[i], bs[i]); }
    assert Lives(xs) == Lives(bs);
  }

  /** `n` is the size of a valid partition of the bios' vectors whose outer segments the outer bios bound. */
  ghost predicate Counted(l: Limits, bs: seq<Bio>, n: nat, ps: seq<seq<Vec>>) {
    && IsPartition(l, Vectors(bs), ps) && n == |ps|
    && (bs != [] && ps != [] ==> Sum(ps[0]) <= bs[0].seg.front && Sum(Last(ps)) <= Last(bs).seg.back)
  }

  /** The limits under which a page above the bounce limit joins nothing, since bouncing may move it. */
  function LowOnly(l: Limits): Limits {
    l.(mergeable := (a, b) => l.mergeable(a, b) && !l.high(a) && !l.high(b))
  }

  lemma LowPartition(l: Limits, vs: seq<Vec>, ps: seq<seq<Vec>>)
    requires IsPartition(LowOnly(l), vs, ps)
    ensures IsPartition(l, vs, ps)
  {
    forall i | 0 <= i < |ps| ensures IsSegment(l, ps[i]) {
      var s := ps[i];
      assert IsSegment(LowOnly(l), s);
      forall j, k | 0 <= j < k < |s| && k == j + 1 ensures Joins(l, s[j], s[k]) {
        assert Joins(LowOnly(l), s[j], s[k]);
      }
    }
  }

  function Max(a: nat, b: nat): nat { if a < b then b else a }

  /** The state of the counting loop: `n` segments so far, the last of `size` bytes ending in `prev`. */
  datatype Tally = Tally(n: nat, size: nat, high: bool, prev: Vec, front: nat)

  ghost predicate Tallied(l: Limits, vs: seq<Vec>, ps: seq<seq<Vec>>, t: Tally, front: nat) {
    && IsPartition(LowOnly(l), vs, ps) && Best(LowOnly(l), vs, ps) && |ps| == t.n
    && (t.n > 0 ==> vs != [] && Last(vs) == t.prev && Sum(Last(ps)) == t.size && t.high == l.high(t.prev))
    && (t.n == 0 ==> t.high && t.size == 0)
    && t.front == if t.n > 1 then Max(front, Sum(ps[0])) else front
  }

  /** The body of the loop, for one vector. */
  method CountVector(l: Limits, ghost vs: seq<Vec>, ghost ps: seq<seq<Vec>>, t: Tally, v: Vec, ghost front: nat)
    returns (t': Tally, ghost ps': seq<seq<Vec>>)
    requires Tallied(l, vs, ps, t, front)
    ensures Tallied(l, vs + [v], ps', t', front)
  {
    var high := l.high(v);
    assert Sum([v]) == v.len by { assert Front([v]) == []; }
    BestStep(LowOnly(l), vs, ps, v);
    if !high && !t.high && l.cluster && t.size + v.len <= l.maxSegmentSize && l.mergeable(t.prev, v)
        && l.inBoundary(t.prev, v) {
      GrowSegment(LowOnly(l), vs, ps, v);
      SumPlus(Last(ps), [v]);
      ps' := Front(ps) + [Last(ps) + [v]];
      t' := t.(size := t.size + v.len, prev := v);
    } else {
      OpenSegment(LowOnly(l), vs, ps, v);
      ps' := ps + [[v]];
      t' := Tally(t.n + 1, v.len, high, v, if t.n == 1 && t.size > t.front then t.size else t.front);
    }
  }

  method CountBio(l: Limits, b: Bio, ghost vs: seq<Vec>, ghost ps: seq<seq<Vec>>, t: Tally, ghost front: nat)
    returns (t': Tally, ghost ps': seq<seq<Vec>>)
    requires Tallied(l, vs, ps, t, front)
    ensures Tallied(l, vs + b.vecs, ps', t', front)
  {
    t', ps' := t, ps;
    var j := 0;
    assert vs + [] == vs;
    while j < |b.vecs|
      invariant j <= |b.vecs| && Tallied(l, vs + b.vecs[..j], ps', t', front)
    {
      t', ps' := CountVector(l, vs + b.vecs[..j], ps', t', b.vecs[j], front);
      assert (vs + b.vecs[..j]) + [b.vecs[j]] == vs + b.vecs[..j + 1];
      j := j + 1;
    }
    assert b.vecs[..j] == b.vecs;
  }

  /** The bios with the bounds that the count leaves on the outer two. */
  function Bounded(bs: seq<Bio>, t: Tally): seq<Bio>
    requires bs != []
  {
    var front := if t.n == 1 && t.size > t.front then t.size else t.front;
    var first := bs[0].(seg := bs[0].seg.(front := front));
    var cs := bs[0 := first];
    var last := Last(cs);
    cs[|bs| - 1 := last.(seg := last.seg.(back := if t.size > last.seg.back then t.size else last.seg.back))]
  }

  /** The front and back sizes have grown to the outer segments, and no further. */
  predicate Sized(bs: seq<Bio>, bs': seq<Bio>, ps: seq<seq<Vec>>)
    requires bs != [] && |bs| == |bs'|
  {
    && bs'[0].seg.front == (if ps == [] then bs[0].seg.front else Max(bs[0].seg.front, Sum(ps[0])))
    && Last(bs').seg.back == (if ps == [] then Last(bs).seg.back else Max(Last(bs).seg.back, Sum(Last(ps))))
  }

  lemma BoundedCounts(l: Limits, bs: seq<Bio>, ps: seq<seq<Vec>>, t: Tally)
    requires bs != [] && Tallied(l, Vectors(bs), ps, t, bs[0].seg.front)
    ensures AllRecounted(bs, Bounded(bs, t)) && Counted(l, Bounded(bs, t), t.n, ps) && Sized(bs, Bounded(bs, t), ps)
  {
    LowPartition(l, Vectors(bs), ps);
    RecountedVectors(bs, Bounded(bs, t));
  }

  /** __blk_recalc_rq_segments: as few segments as there can be when no page above the bounce limit joins another. */
  method RecountSegments(l: Limits, bs: seq<Bio>) returns (bs': seq<Bio>, n: nat, ghost ps: seq<seq<Vec>>)
    ensures AllRecounted(bs, bs') && Counted(l, bs', n, ps) && (bs != [] ==> Sized(bs, bs', ps))
    ensures IsPartition(LowOnly(l), Vectors(bs), ps) && forall qs :: IsPartition(LowOnly(l), Vectors(bs), qs) ==>
            n <= |qs|
  {
    if bs == [] { return bs, 0, []; }
    var t := Tally(0, 0, true, Vec(0, 0, 0), bs[0].seg.front);
    ps := [];
    var i := 0;
    while i < |bs|
      invariant i <= |bs| && Tallied(l, Vectors(bs[..i]), ps, t, bs[0].seg.front)
    {
      t, ps := CountBio(l, bs[i], Vectors(bs[..i]), ps, t, bs[0].seg.front);
      assert bs[..i + 1] == bs[..i] + [bs[i]];
      VectorsPlus(bs[..i], [bs[i]]);
      VectorsOne(bs[i]);
      i := i + 1;
    }
    assert bs[..i] == bs;
    BoundedCounts(l, bs, ps, t);
    return Bounded(bs, t), t.n, ps;
  }
}
