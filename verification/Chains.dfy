/** Facts about the chain of bios of a request: what merging and completing keep. */
module Chains {
  import opened Segments
  import opened Recount
  import opened Completion

  /** The same bio: only its segment bookkeeping and its failfast bits may differ. */
  predicate Kept(a: Bio, b: Bio) { b == a.(seg := b.seg, ff := b.ff) }

  predicate AllKept(xs: seq<Bio>, bs: seq<Bio>) {
    |xs| == |bs| && forall i :: 0 <= i < |xs| ==> Kept(xs[i], bs[i])
  }

  // ----- sectors

  function Sectors(n: nat): nat { n / SECTOR }

  /** Each bio starts where the one before it ends. */
  ghost predicate Contiguous(bs: seq<Bio>) {
    forall i, j :: 0 <= i < j < |bs| && j == i + 1 ==> bs[j].sector == bs[i].sector + Sectors(bs[i].size)
  }

  lemma {:induction false} TotalPlus(xs: seq<Bio>, bs: seq<Bio>)
    ensures Total(xs + bs) == Total(xs) + Total(bs)
  {
    if xs == [] {
      assert xs + bs == bs;
    } else {
      assert (xs + bs)[1..] == xs[1..] + bs;
      TotalPlus(xs[1..], bs);
    }
  }

  lemma SectorsPlus(m: nat, n: nat)
    requires Whole(m) && Whole(n)
    ensures Whole(m + n) && Sectors(m + n) == Sectors(m) + Sectors(n)
  {
  }

  /** A contiguous chain ends after as many sectors as it has bytes for. */
  lemma {:induction false} EndSector(bs: seq<Bio>)
    requires bs != [] && AllConsistent(bs) && Contiguous(bs)
    ensures Whole(Total(bs)) && Last(bs).sector + Sectors(Last(bs).size) == bs[0].sector + Sectors(Total(bs))
  {
    if |bs| > 1 {
      EndSector(bs[1..]);
      SectorsPlus(bs[0].size, Total(bs[1..]));
    } else {
      assert Total(bs[1..]) == 0;
    }
  }

  lemma ContiguousPlus(xs: seq<Bio>, bs: seq<Bio>)
    requires Contiguous(xs) && Contiguous(bs) && xs != [] && bs != [] && AllConsistent(xs)
    requires bs[0].sector == xs[0].sector + Sectors(Total(xs))
    ensures Contiguous(xs + bs)
  {
    EndSector(xs);
  }

  lemma {:induction false} KeptTotal(xs: seq<Bio>, bs: seq<Bio>)
    requires AllKept(xs, bs)
    ensures Total(xs) == Total(bs)
  {
    if xs == [] {
    } else {
      assert Kept(xs[0], bs[0]);
      KeptTotal(xs[1..], bs[1..]);
    }
  }

  lemma KeptVectors(xs: seq<Bio>, bs: seq<Bio>)
    requires AllKept(xs, bs)
    ensures Vectors(xs) == Vectors(bs)
  {
    forall i | 0 <= i < |xs| ensures xs[i].vecs == bs[i].vecs { assert Kept(xs[i], bs[i]); }
    assert Lives(xs) == Lives(bs);
  }

  /** The part of a request's invariant that only looks at sectors, sizes and vectors. */
  ghost predicate WellFormed(bs: seq<Bio>) { AllConsistent(bs) && Contiguous(bs) }

  lemma KeptWellFormed(xs: seq<Bio>, bs: seq<Bio>)
    requires AllKept(xs, bs) && WellFormed(xs)
    ensures WellFormed(bs)
  {
    forall i | 0 <= i < |bs| ensures Consistent(bs[i]) { assert Kept(xs[i], bs[i]); }
    forall i, j | 0 <= i < j < |bs| && j == i + 1 ensures bs[j].sector == bs[i].sector + Sectors(bs[i].size) {
      assert Kept(xs[i], bs[i]) && Kept(xs[j], bs[j]);
    }
  }

  // ----- segment counts

  lemma KeptCounted(l: Limits, xs: seq<Bio>, bs: seq<Bio>, n: nat, ps: seq<seq<Vec>>)
    requires AllKept(xs, bs) && Counted(l, xs, n, ps)
    requires bs != [] && ps != [] ==> xs[0].seg.front <= bs[0].seg.front || Sum(ps[0]) <= bs[0].seg.front
    requires bs != [] && ps != [] ==> Last(xs).seg.back <= Last(bs).seg.back || Sum(Last(ps)) <= Last(bs).seg.back
    ensures Counted(l, bs, n, ps)
  {
    KeptVectors(xs, bs);
  }

  lemma HasVectors(bs: seq<Bio>)
    requires bs != [] && AllConsistent(bs)
    ensures Vectors(bs) != [] && Vectors(bs)[0] == bs[0].vecs[0] && Last(Vectors(bs)) == Last(Last(bs).vecs)
  {
    assert bs == [bs[0]] + bs[1..];
    VectorsPlus([bs[0]], bs[1..]);
    VectorsOne(bs[0]);
    assert bs == Front(bs) + [Last(bs)];
    VectorsPlus(Front(bs), [Last(bs)]);
    VectorsOne(Last(bs));
    assert Consistent(bs[0]) && Consistent(Last(bs));
  }

  lemma CountedNonEmpty(l: Limits, bs: seq<Bio>, n: nat, ps: seq<seq<Vec>>)
    requires bs != [] && AllConsistent(bs) && Counted(l, bs, n, ps)
    ensures ps != []
  {
    HasVectors(bs);
  }

  /** Counts add up when chains are put after one another. */
  lemma CountedConcat(l: Limits, xs: seq<Bio>, m: nat, ps: seq<seq<Vec>>, bs: seq<Bio>, n: nat, qs: seq<seq<Vec>>)
    requires Counted(l, xs, m, ps) && Counted(l, bs, n, qs) && xs != [] && bs != [] && AllConsistent(xs)
             && AllConsistent(bs)
    ensures Counted(l, xs + bs, m + n, ps + qs)
  {
    VectorsPlus(xs, bs);
    ConcatPartitions(l, Vectors(xs), ps, Vectors(bs), qs);
    CountedNonEmpty(l, xs, m, ps);
    CountedNonEmpty(l, bs, n, qs);
  }

  /** blk_phys_contig_segment for bios with data. */
  predicate ContigSegment(l: Limits, a: Bio, b: Bio)
    requires a.vecs != [] && b.vecs != []
  {
    l.cluster && a.seg.back + b.seg.front <= l.maxSegmentSize && l.mergeable(Last(a.vecs), b.vecs[0])
    && l.inBoundary(Last(a.vecs), b.vecs[0])
  }

  /** One fewer when the segments that meet are joined, provided a request of one segment takes over the joint size. */
  lemma CountedJoin(l: Limits, xs: seq<Bio>, m: nat, ps: seq<seq<Vec>>, bs: seq<Bio>, n: nat, qs: seq<seq<Vec>>,
                    cs: seq<Bio>)
    requires Counted(l, xs, m, ps) && Counted(l, bs, n, qs) && xs != [] && bs != [] && AllConsistent(xs)
             && AllConsistent(bs)
    requires Last(xs).vecs != [] && bs[0].vecs != [] && ContigSegment(l, Last(xs), bs[0])
    requires AllKept(xs + bs, cs)
    requires (if m == 1 then Last(xs).seg.back + bs[0].seg.front else xs[0].seg.front) <= cs[0].seg.front
    requires (if n == 1 then Last(xs).seg.back + bs[0].seg.front else Last(bs).seg.back) <= Last(cs).seg.back
    ensures m > 0 && n > 0 && Counted(l, cs, m + n - 1, Front(ps) + [Last(ps) + qs[0]] + qs[1..])
  {
    HasVectors(xs);
    HasVectors(bs);
    CountedNonEmpty(l, xs, m, ps);
    CountedNonEmpty(l, bs, n, qs);
    JoinPartitions(l, Vectors(xs), ps, Vectors(bs), qs);
    VectorsPlus(xs, bs);
    KeptVectors(xs + bs, cs);
    JoinedBounds(l, xs, m, ps, bs, n, qs, cs);
  }

  lemma JoinedBounds(l: Limits, xs: seq<Bio>, m: nat, ps: seq<seq<Vec>>, bs: seq<Bio>, n: nat, qs: seq<seq<Vec>>,
                     cs: seq<Bio>)
    requires xs != [] && bs != [] && m == |ps| > 0 && n == |qs| > 0 && AllKept(xs + bs, cs)
    requires Sum(ps[0]) <= xs[0].seg.front && Sum(Last(ps)) <= Last(xs).seg.back
    requires Sum(qs[0]) <= bs[0].seg.front && Sum(Last(qs)) <= Last(bs).seg.back
    requires (if m == 1 then Last(xs).seg.back + bs[0].seg.front else xs[0].seg.front) <= cs[0].seg.front
    requires (if n == 1 then Last(xs).seg.back + bs[0].seg.front else Last(bs).seg.back) <= Last(cs).seg.back
    ensures var rs := Front(ps) + [Last(ps) + qs[0]] + qs[1..];
            Sum(rs[0]) <= cs[0].seg.front && Sum(Last(rs)) <= Last(cs).seg.back
  {
    var rs := Front(ps) + [Last(ps) + qs[0]] + qs[1..];
    SumPlus(Last(ps), qs[0]);
    assert m > 1 ==> rs[0] == ps[0];
    assert n > 1 ==> Last(rs) == Last(qs);
  }

  /** Where the sizes kept with the bios are exact, two chains are joined exactly if the segments that meet are one
      segment together. */
  lemma JoinsExactly(l: Limits, xs: seq<Bio>, m: nat, ps: seq<seq<Vec>>, bs: seq<Bio>, n: nat, qs: seq<seq<Vec>>)
    requires Counted(l, xs, m, ps) && Counted(l, bs, n, qs) && xs != [] && bs != [] && AllConsistent(xs)
             && AllConsistent(bs)
    requires ps != [] && qs != [] && Sum(Last(ps)) == Last(xs).seg.back && Sum(qs[0]) == bs[0].seg.front
    ensures Last(xs).vecs != [] && bs[0].vecs != []
    ensures ContigSegment(l, Last(xs), bs[0]) <==> IsSegment(l, Last(ps) + qs[0])
  {
    HasVectors(xs);
    HasVectors(bs);
    var a, b := Last(ps), qs[0];
    assert IsSegment(l, a) && IsSegment(l, b);
    FirstVector(l, Vectors(bs), qs);
    assert Last(Vectors(xs)) == Last(a) && Vectors(bs)[0] == b[0] && Consistent(Last(xs)) && Consistent(bs[0]);
    SumPlus(a, b);
    if IsSegment(l, a + b) { assert Joins(l, (a + b)[|a| - 1], (a + b)[|a|]); }
    if ContigSegment(l, Last(xs), bs[0]) {
      forall i, j | 0 <= i < j < |a + b| && j == i + 1 ensures Joins(l, (a + b)[i], (a + b)[j]) {
        if j < |a| { assert Joins(l, a[i], a[j]); } else if i >= |a| { assert Joins(l, b[i - |a|], b[j - |a|]); }
      }
    }
  }

  // ----- failfast bits

  /** A mixed request follows its first bio; in an unmixed one no bio asks for more than the request. */
  predicate FlagsAgree(bs: seq<Bio>, ff: set<nat>, mixed: bool) {
    if mixed then bs != [] ==> bs[0].ff == ff else forall i :: 0 <= i < |bs| ==> bs[i].ff <= ff
  }

  /** The vectors, sectors, bytes and segments of a request. */
  ghost predicate Sound(l: Limits, bs: seq<Bio>, sector: nat, dataLen: nat, n: nat, ps: seq<seq<Vec>>, target: nat) {
    && WellFormed(bs) && dataLen == Total(bs)
    && (bs != [] ==> sector == bs[0].sector && Counted(l, bs, n, ps))
    && forall i :: 0 <= i < |bs| ==> bs[i].target == target
  }

  /** The bounds of the outer segments are still bounds. */
  ghost predicate StillBound(ps: seq<seq<Vec>>, xs: seq<Bio>, bs: seq<Bio>) {
    |xs| == |bs| && (bs != [] && ps != [] ==>
      && (xs[0].seg.front <= bs[0].seg.front || Sum(ps[0]) <= bs[0].seg.front)
      && (Last(xs).seg.back <= Last(bs).seg.back || Sum(Last(ps)) <= Last(bs).seg.back))
  }

  /** The same bios, counted anew. */
  lemma SoundRecounted(l: Limits, xs: seq<Bio>, bs: seq<Bio>, sector: nat, dataLen: nat, n: nat, ps: seq<seq<Vec>>,
                       n': nat, ps': seq<seq<Vec>>, target: nat)
    requires Sound(l, xs, sector, dataLen, n, ps, target) && AllKept(xs, bs) && (bs != [] ==> Counted(l, bs, n', ps'))
    ensures Sound(l, bs, sector, dataLen, n', ps', target)
  {
    KeptWellFormed(xs, bs);
    KeptTotal(xs, bs);
    forall i | 0 <= i < |bs| ensures bs[i].target == target { assert Kept(xs[i], bs[i]); }
    if bs != [] {
      assert Kept(xs[0], bs[0]);
    }
  }

  lemma KeptSound(l: Limits, xs: seq<Bio>, bs: seq<Bio>, sector: nat, dataLen: nat, n: nat, ps: seq<seq<Vec>>,
                  target: nat)
    requires Sound(l, xs, sector, dataLen, n, ps, target) && AllKept(xs, bs) && StillBound(ps, xs, bs)
    ensures Sound(l, bs, sector, dataLen, n, ps, target)
  {
    if bs != [] {
      KeptCounted(l, xs, bs, n, ps);
    }
    SoundRecounted(l, xs, bs, sector, dataLen, n, ps, n, ps, target);
  }

  /** Two adjacent chains of one target in one request. */
  lemma SoundConcat(l: Limits, xs: seq<Bio>, sector: nat, len: nat, m: nat, ps: seq<seq<Vec>>, target: nat,
                    bs: seq<Bio>, len': nat, n: nat, qs: seq<seq<Vec>>)
    requires Sound(l, xs, sector, len, m, ps, target) && Sound(l, bs, sector + Sectors(len), len', n, qs, target)
    requires xs != [] && bs != []
    ensures Sound(l, xs + bs, sector, len + len', m + n, ps + qs, target)
  {
    TotalPlus(xs, bs);
    ContiguousPlus(xs, bs);
    CountedConcat(l, xs, m, ps, bs, n, qs);
  }

  /** The chain with another bi_seg_front_size in its first bio, or bi_seg_back_size in its last. */
  function WithFront(bs: seq<Bio>, size: nat): seq<Bio>
    requires bs != []
  {
    bs[0 := bs[0].(seg := bs[0].seg.(front := size))]
  }

  function WithBack(bs: seq<Bio>, size: nat): seq<Bio>
    requires bs != []
  {
    bs[|bs| - 1 := Last(bs).(seg := Last(bs).seg.(back := size))]
  }

  /** A chain of `m` segments takes the joint size over as its front size if it has but one, and so for the back
      size. */
  ghost predicate TakesOver(xs: seq<Bio>, m: nat, bs: seq<Bio>, n: nat, xs': seq<Bio>, bs': seq<Bio>)
    requires xs != [] && bs != []
  {
    && xs' == (if m == 1 then WithFront(xs, Last(xs).seg.back + bs[0].seg.front) else xs)
    && bs' == (if n == 1 then WithBack(bs, Last(xs).seg.back + bs[0].seg.front) else bs)
  }

  lemma TakenOver(xs: seq<Bio>, m: nat, bs: seq<Bio>, n: nat, xs': seq<Bio>, bs': seq<Bio>)
    requires xs != [] && bs != [] && TakesOver(xs, m, bs, n, xs', bs')
    ensures var cs := xs' + bs';
      && AllKept(xs, xs') && AllKept(bs, bs') && AllKept(xs + bs, cs)
      && (if m == 1 then Last(xs).seg.back + bs[0].seg.front else xs[0].seg.front) <= cs[0].seg.front
      && (if n == 1 then Last(xs).seg.back + bs[0].seg.front else Last(bs).seg.back) <= Last(cs).seg.back
  {
    assert (xs' + bs')[0] == xs'[0] && Last(xs' + bs') == Last(bs');
  }

  /** Two adjacent chains, the segments that meet joined. */
  lemma SoundJoin(l: Limits, xs: seq<Bio>, sector: nat, len: nat, m: nat, ps: seq<seq<Vec>>, target: nat, bs: seq<Bio>,
                  len': nat, n: nat, qs: seq<seq<Vec>>, xs': seq<Bio>, bs': seq<Bio>)
    requires Sound(l, xs, sector, len, m, ps, target) && Sound(l, bs, sector + Sectors(len), len', n, qs, target)
    requires xs != [] && bs != [] && Last(xs).vecs != [] && bs[0].vecs != [] && ContigSegment(l, Last(xs), bs[0])
    requires TakesOver(xs, m, bs, n, xs', bs')
    ensures m > 0 && n > 0 && ps != [] && qs != []
    ensures Sound(l, xs' + bs', sector, len + len', m + n - 1, Front(ps) + [Last(ps) + qs[0]] + qs[1..], target)
  {
    TakenOver(xs, m, bs, n, xs', bs');
    SoundConcat(l, xs, sector, len, m, ps, target, bs, len', n, qs);
    CountedNonEmpty(l, xs, m, ps);
    CountedNonEmpty(l, bs, n, qs);
    JoinChains(l, xs, sector, len, m, ps, target, bs, len', n, qs, xs' + bs');
  }

  lemma JoinChains(l: Limits, xs: seq<Bio>, sector: nat, len: nat, m: nat, ps: seq<seq<Vec>>, target: nat, bs: seq<Bio>,
                   len': nat, n: nat, qs: seq<seq<Vec>>, cs: seq<Bio>)
    requires Counted(l, xs, m, ps) && Counted(l, bs, n, qs) && xs != [] && bs != [] && AllConsistent(xs)
             && AllConsistent(bs)
    requires Last(xs).vecs != [] && bs[0].vecs != [] && ContigSegment(l, Last(xs), bs[0]) && ps != [] && qs != []
    requires AllKept(xs + bs, cs)
    requires (if m == 1 then Last(xs).seg.back + bs[0].seg.front else xs[0].seg.front) <= cs[0].seg.front
    requires (if n == 1 then Last(xs).seg.back + bs[0].seg.front else Last(bs).seg.back) <= Last(cs).seg.back
    requires Sound(l, xs + bs, sector, len + len', m + n, ps + qs, target)
    ensures Sound(l, cs, sector, len + len', m + n - 1, Front(ps) + [Last(ps) + qs[0]] + qs[1..], target)
  {
    CountedJoin(l, xs, m, ps, bs, n, qs, cs);
    SoundRecounted(l, xs + bs, cs, sector, len + len', m + n, ps + qs, m + n - 1,
                   Front(ps) + [Last(ps) + qs[0]] + qs[1..], target);
  }

  /** The bounds moved, but the requests were not merged after all. */
  lemma SoundUnjoined(l: Limits, xs: seq<Bio>, sector: nat, len: nat, m: nat, ps: seq<seq<Vec>>, target: nat,
                      bs: seq<Bio>, sector': nat, len': nat, n: nat, qs: seq<seq<Vec>>, xs': seq<Bio>, bs': seq<Bio>)
    requires Sound(l, xs, sector, len, m, ps, target) && Sound(l, bs, sector', len', n, qs, target) && xs != []
             && bs != []
    requires TakesOver(xs, m, bs, n, xs', bs')
    ensures Sound(l, xs', sector, len, m, ps, target) && Sound(l, bs', sector', len', n, qs, target)
  {
    TakenOver(xs, m, bs, n, xs', bs');
    assert m == 1 ==> ps[0] == Last(ps);
    assert n == 1 ==> qs[0] == Last(qs);
    KeptSound(l, xs, xs', sector, len, m, ps, target);
    KeptSound(l, bs, bs', sector', len', n, qs, target);
  }

  // ----- completion

  /** What is left starts where the bytes done end. */
  lemma {:induction false} AdvanceContiguous(bs: seq<Bio>, n: nat, failed: bool)
    requires WellFormed(bs) && Whole(n)
    ensures var rest := Advance(bs, n, failed).rest;
            && WellFormed(rest) && (rest != [] ==> rest[0].sector == bs[0].sector + Sectors(n))
  {
    AdvanceConsistent(bs, n, failed);
    if bs == [] {
    } else if n < bs[0].size {
      assert Consistent(bs[0]);
      var b := AdvanceBio(bs[0], n, failed);
      var rest := [b] + bs[1..];
      SectorsPlus(n, b.size) by { WholeMinus(bs[0].size, n); }
      forall i, j | 0 <= i < j < |rest| && j == i + 1 ensures rest[j].sector == rest[i].sector + Sectors(rest[i].size) {
        assert rest[j] == bs[j];
      }
    } else {
      assert Consistent(bs[0]);
      WholeMinus(n, bs[0].size);
      AdvanceContiguous(bs[1..], n - bs[0].size, failed);
      SectorsPlus(n - bs[0].size, bs[0].size);
      assert |bs| > 1 ==> bs[1..][0].sector == bs[1].sector == bs[0].sector + Sectors(bs[0].size);
    }
  }

  /** What is left is a suffix of the chain, but for the first bio's progress. */
  lemma {:induction false} AdvanceKeeps(bs: seq<Bio>, n: nat, failed: bool)
    ensures var r := Advance(bs, n, failed);
            && |r.ended| + |r.rest| == |bs|
            && forall i :: 0 <= i < |r.rest| ==> var b := bs[|bs| - |r.rest| + i];
                 r.rest[i].id == b.id && r.rest[i].ff == b.ff && r.rest[i].target == b.target
  {
    if bs == [] || bs[0].size > n {
    } else {
      AdvanceKeeps(bs[1..], n - bs[0].size, failed);
    }
  }
}
