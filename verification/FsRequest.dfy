/** A file system request: built from a bio, grown by merges, shrunk by completions (block/blk-core.c and
    block/blk-merge.c). */
module FsRequest {
  import opened Segments
  import opened Recount
  import opened Completion
  import opened Chains
  import opened EndBytes

  /** REQ_FAILFAST_MASK. */
  const FAILFAST: set<nat> := {0, 1, 2}

  /** A bio handed to the queue: if its segment count is marked valid, it is. */
  ghost predicate Arrives(l: Limits, bio: Bio) {
    && Consistent(bio) && bio.ff <= FAILFAST
    && (bio.seg.valid ==> exists ps :: Counted(l, [bio], bio.seg.count, ps))
  }

  /** The segments of a bio that comes in: those it is marked to have, or as few as there can be when no page above the
      bounce limit joins another. */
  ghost function SegmentsOf(l: Limits, bio: Bio): nat {
    if bio.seg.valid then bio.seg.count else Fewest(LowOnly(l), bio.vecs)
  }

  /** A request of `len` bytes and `segments` segments with a bio more keeps both limits of the queue. */
  ghost predicate Fits(l: Limits, len: nat, segments: nat, bio: Bio) {
    Sectors(len) + Sectors(bio.size) <= l.maxSectors && segments + SegmentsOf(l, bio) <= l.maxSegments
  }

  /** bio_phys_segments and blk_recount_segments. */
  method PhysSegments(l: Limits, bio: Bio) returns (b: Bio, ghost ps: seq<seq<Vec>>)
    requires bio.seg.valid ==> exists ps :: Counted(l, [bio], bio.seg.count, ps)
    ensures Recounted(bio, b) && Counted(l, [b], b.seg.count, ps) && b.seg.count == SegmentsOf(l, bio)
  {
    if bio.seg.valid {
      ps :| Counted(l, [bio], bio.seg.count, ps);
      return bio, ps;
    }
    b, ps := RecountOne(l, bio);
  }

  method RecountOne(l: Limits, bio: Bio) returns (b: Bio, ghost ps: seq<seq<Vec>>)
    ensures Recounted(bio, b) && Counted(l, [b], b.seg.count, ps) && b.seg.count == Fewest(LowOnly(l), bio.vecs)
  {
    var bs, n;
    bs, n, ps := RecountSegments(l, [bio]);
    VectorsOne(bio);
    FewestIs(LowOnly(l), bio.vecs, ps);
    assert Recounted([bio][0], bs[0]);
    b := bs[0].(seg := bs[0].seg.(count := n, valid := true));
    assert AllKept(bs, [b]);
    KeptCounted(l, bs, [b], n, ps);
  }

  predicate SameSegs(xs: seq<Bio>, bs: seq<Bio>) {
    AllKept(xs, bs) && forall i :: 0 <= i < |xs| ==> bs[i].seg == xs[i].seg
  }

  predicate SameButSegs(xs: seq<Bio>, bs: seq<Bio>) {
    |xs| == |bs| && forall i :: 0 <= i < |xs| ==> bs[i] == xs[i].(seg := bs[i].seg)
  }

  lemma HaveVectors(xs: seq<Bio>, bs: seq<Bio>)
    requires AllConsistent(xs) && AllConsistent(bs) && xs != [] && bs != []
    ensures Last(xs).vecs != [] && bs[0].vecs != []
  {
    assert Consistent(Last(xs)) && Consistent(bs[0]);
  }

  function Flags(bs: seq<Bio>): seq<set<nat>> { seq(|bs|, i requires 0 <= i < |bs| => bs[i].ff) }

  /** The failfast bits once those of the request have been given to every bio, if they have. */
  function Spread(bs: seq<Bio>, given: bool, ff: set<nat>): seq<set<nat>> {
    seq(|bs|, i requires 0 <= i < |bs| => if given then bs[i].ff + ff else bs[i].ff)
  }

  lemma FlagsPlus(xs: seq<Bio>, ys: seq<Bio>)
    ensures Flags(xs + ys) == Flags(xs) + Flags(ys)
  {
  }

  lemma SpreadSame(xs: seq<Bio>, ys: seq<Bio>, given: bool, ff: set<nat>)
    requires Flags(xs) == Flags(ys)
    ensures Spread(xs, given, ff) == Spread(ys, given, ff)
  {
    assert |xs| == |Flags(xs)| == |ys|;
    forall i | 0 <= i < |xs| ensures xs[i].ff == ys[i].ff { assert Flags(xs)[i] == Flags(ys)[i]; }
  }

  /** Gives every bio the failfast bits of the request. */
  method SpreadFlags(bs: seq<Bio>, ff: set<nat>) returns (cs: seq<Bio>)
    ensures SameSegs(bs, cs) && Flags(cs) == Spread(bs, true, ff)
  {
    cs := bs;
    var i := 0;
    while i < |cs|
      invariant i <= |cs| == |bs|
      invariant forall k :: 0 <= k < |cs| ==> cs[k] == if k < i then bs[k].(ff := bs[k].ff + ff) else bs[k]
    {
      cs := cs[i := cs[i].(ff := cs[i].ff + ff)];
      i := i + 1;
    }
  }

  lemma SoundOne(l: Limits, b: Bio, ps: seq<seq<Vec>>)
    requires Consistent(b) && Counted(l, [b], b.seg.count, ps)
    ensures Sound(l, [b], b.sector, b.size, b.seg.count, ps, b.target)
  {
    assert Total([b]) == b.size by { assert [b][1..] == []; }
  }

  lemma KeptTrans(xs: seq<Bio>, ys: seq<Bio>, zs: seq<Bio>)
    requires AllKept(xs, ys) && AllKept(ys, zs)
    ensures AllKept(xs, zs)
  {
    forall i | 0 <= i < |xs| ensures Kept(xs[i], zs[i]) { assert Kept(xs[i], ys[i]) && Kept(ys[i], zs[i]); }
  }

  lemma KeptAppend(xs: seq<Bio>, ys: seq<Bio>, zs: seq<Bio>, ws: seq<Bio>)
    requires AllKept(xs, zs) && AllKept(ys, ws)
    ensures AllKept(xs + ys, zs + ws)
  {
  }

  /** A bio linked behind the bios of a request, which were `xs` before the request was marked mixed. */
  lemma Linked(l: Limits, xs: seq<Bio>, bs: seq<Bio>, sector: nat, len: nat, n: nat, ps: seq<seq<Vec>>, target: nat,
               b: Bio, qs: seq<seq<Vec>>)
    requires Sound(l, xs, sector, len, n, ps, target) && SameSegs(xs, bs) && xs != []
    requires Consistent(b) && Counted(l, [b], b.seg.count, qs) && b.target == target
             && b.sector == sector + Sectors(len)
    ensures Sound(l, bs + [b], sector, len + b.size, n + b.seg.count, ps + qs, target)
  {
    KeptSound(l, xs, bs, sector, len, n, ps, target);
    SoundOne(l, b, qs);
    SoundConcat(l, bs, sector, len, n, ps, target, [b], b.size, b.seg.count, qs);
  }

  /** The same in front. */
  lemma LinkedInFront(l: Limits, xs: seq<Bio>, bs: seq<Bio>, sector: nat, len: nat, n: nat, ps: seq<seq<Vec>>,
                      target: nat, b: Bio, qs: seq<seq<Vec>>)
    requires Sound(l, xs, sector, len, n, ps, target) && SameSegs(xs, bs) && xs != []
    requires Consistent(b) && Counted(l, [b], b.seg.count, qs) && b.target == target
             && sector == b.sector + Sectors(b.size)
    ensures Sound(l, [b] + bs, b.sector, len + b.size, n + b.seg.count, qs + ps, target)
  {
    KeptSound(l, xs, bs, sector, len, n, ps, target);
    SoundOne(l, b, qs);
    SoundConcat(l, [b], b.sector, b.size, b.seg.count, qs, target, bs, len, n, ps);
  }

  /** The segments of two requests together: one fewer if the two that meet can be joined. */
  function Joint(l: Limits, xs: seq<Bio>, m: nat, bs: seq<Bio>, n: nat): int
    requires xs != [] && bs != []
  {
    m + n - if Last(xs).vecs != [] && bs[0].vecs != [] && ContigSegment(l, Last(xs), bs[0]) then 1 else 0
  }

  /** Where the sizes kept with the bios are exact, there is one segment fewer exactly if the two that meet are one
      segment together. */
  lemma JointExactly(l: Limits, xs: seq<Bio>, m: nat, ps: seq<seq<Vec>>, bs: seq<Bio>, n: nat, qs: seq<seq<Vec>>)
    requires Counted(l, xs, m, ps) && Counted(l, bs, n, qs) && xs != [] && bs != [] && AllConsistent(xs)
             && AllConsistent(bs)
    requires ps != [] && qs != [] && Sum(Last(ps)) == Last(xs).seg.back && Sum(qs[0]) == bs[0].seg.front
    ensures Joint(l, xs, m, bs, n) == |ps| + |qs| - if IsSegment(l, Last(ps) + qs[0]) then 1 else 0
  {
    JoinsExactly(l, xs, m, ps, bs, n, qs);
  }

  /** The part of ll_merge_requests_fn that counts the segments of two adjacent chains together. */
  method JoinEnds(l: Limits, xs: seq<Bio>, m: nat, bs: seq<Bio>, n: nat, ghost sector: nat, ghost len: nat,
                  ghost len': nat, ghost ps: seq<seq<Vec>>, ghost qs: seq<seq<Vec>>, ghost target: nat)
    returns (xs': seq<Bio>, bs': seq<Bio>, total: nat, ghost rs: seq<seq<Vec>>)
    requires Sound(l, xs, sector, len, m, ps, target) && Sound(l, bs, sector + Sectors(len), len', n, qs, target)
    requires xs != [] && bs != []
    ensures SameButSegs(xs, xs') && SameButSegs(bs, bs')
    ensures Last(xs).vecs != [] && bs[0].vecs != [] && total == Joint(l, xs, m, bs, n)
    ensures Sound(l, xs' + bs', sector, len + len', total, rs, target)
    ensures Sound(l, xs', sector, len, m, ps, target) && Sound(l, bs', sector + Sectors(len), len', n, qs, target)
  {
    HaveVectors(xs, bs);
    var contig := ContigSegment(l, Last(xs), bs[0]);
    if contig {
      xs', bs' := TakeOver(xs, m, bs, n);
      rs := ContigJoined(l, xs, sector, len, m, ps, target, bs, len', n, qs, xs', bs');
      total := m + n - 1;
    } else {
      SoundConcat(l, xs, sector, len, m, ps, target, bs, len', n, qs);
      xs', bs', total, rs := xs, bs, m + n, ps + qs;
    }
  }

  method TakeOver(xs: seq<Bio>, m: nat, bs: seq<Bio>, n: nat) returns (xs': seq<Bio>, bs': seq<Bio>)
    requires xs != [] && bs != []
    ensures TakesOver(xs, m, bs, n, xs', bs') && SameButSegs(xs, xs') && SameButSegs(bs, bs')
  {
    xs', bs' := xs, bs;
    var size := Last(xs).seg.back + bs[0].seg.front;
    if m == 1 { xs' := WithFront(xs, size); }
    if n == 1 { bs' := WithBack(bs, size); }
  }

  lemma ContigJoined(l: Limits, xs: seq<Bio>, sector: nat, len: nat, m: nat, ps: seq<seq<Vec>>, target: nat,
                     bs: seq<Bio>, len': nat, n: nat, qs: seq<seq<Vec>>, xs': seq<Bio>, bs': seq<Bio>)
    returns (rs: seq<seq<Vec>>)
    requires Sound(l, xs, sector, len, m, ps, target) && Sound(l, bs, sector + Sectors(len), len', n, qs, target)
    requires xs != [] && bs != [] && Last(xs).vecs != [] && bs[0].vecs != [] && ContigSegment(l, Last(xs), bs[0])
    requires TakesOver(xs, m, bs, n, xs', bs')
    ensures m > 0 && n > 0 && Sound(l, xs' + bs', sector, len + len', m + n - 1, rs, target)
    ensures Sound(l, xs', sector, len, m, ps, target) && Sound(l, bs', sector + Sectors(len), len', n, qs, target)
  {
    SoundJoin(l, xs, sector, len, m, ps, target, bs, len', n, qs, xs', bs');
    SoundUnjoined(l, xs, sector, len, m, ps, target, bs, sector + Sectors(len), len', n, qs, xs', bs');
    rs := Front(ps) + [Last(ps) + qs[0]] + qs[1..];
  }

  lemma SegsOnly(xs: seq<Bio>, bs: seq<Bio>, ff: set<nat>, mixed: bool)
    requires SameButSegs(xs, bs) && FlagsAgree(xs, ff, mixed)
    ensures AllKept(xs, bs) && FlagsAgree(bs, ff, mixed)
  {
  }

  /** Two chains in one request: `was` and `nextWas` they were, then `xs` and `bs`, and `ys` and `cs` once marked
      mixed. */
  lemma Appended(l: Limits, was: seq<Bio>, nextWas: seq<Bio>, xs: seq<Bio>, bs: seq<Bio>, ys: seq<Bio>, cs: seq<Bio>,
                 sector: nat, len: nat, n: nat, ps: seq<seq<Vec>>, target: nat, ff: set<nat>, mixed: bool)
    requires AllKept(was, xs) && AllKept(nextWas, bs) && SameSegs(xs, ys) && SameSegs(bs, cs) && xs != []
    requires Sound(l, xs + bs, sector, len, n, ps, target)
    requires FlagsAgree(ys, ff, mixed) && (!mixed ==> FlagsAgree(cs, ff, false))
    ensures Sound(l, ys + cs, sector, len, n, ps, target) && AllKept(was + nextWas, ys + cs)
            && FlagsAgree(ys + cs, ff, mixed)
  {
    KeptAppend(xs, bs, ys, cs);
    KeptAppend(was, nextWas, xs, bs);
    KeptTrans(was + nextWas, xs + bs, ys + cs);
    KeptSound(l, xs + bs, ys + cs, sector, len, n, ps, target);
  }

  /** The bios left of a request: its first vector is no longer than what is left of its bytes. */
  ghost predicate Remains(rest: seq<Bio>, len: nat, target: nat)
    requires rest != []
  {
    && AllFilled(rest) && Total(rest) == len && rest[0].vecs != [] && rest[0].vecs[0].len <= len
    && forall i :: 0 <= i < |rest| ==> rest[i].target == target
  }

  lemma LeftOver(bs: seq<Bio>, target: nat, ff: set<nat>, mixed: bool, n: nat, failed: bool)
    requires AllFilled(bs) && FlagsAgree(bs, ff, mixed) && forall i :: 0 <= i < |bs| ==> bs[i].target == target
    ensures var rest := Advance(bs, n, failed).rest;
            rest != [] ==> && n <= Total(bs) && Remains(rest, Total(bs) - n, target)
                           && FlagsAgree(rest, if mixed then rest[0].ff else ff, mixed)
  {
    AdvanceFilled(bs, n, failed);
    AdvanceConserves(bs, n, failed);
    AdvanceKeeps(bs, n, failed);
    var rest := Advance(bs, n, failed).rest;
    if rest != [] {
      assert Filled(rest[0]);
      SumFront(rest[0].vecs);
    }
  }

  lemma Resized(l: Limits, rest: seq<Bio>, bs: seq<Bio>, len: nat, n: nat, ps: seq<seq<Vec>>, target: nat, ff: set<nat>,
                mixed: bool)
    requires rest != [] && Remains(rest, len, target) && AllRecounted(rest, bs) && Counted(l, bs, n, ps)
    requires FlagsAgree(rest, ff, mixed)
    ensures Accounted(l, bs, len, n, ps, target) && FlagsAgree(bs, ff, mixed)
  {
    forall i | 0 <= i < |rest| ensures Kept(rest[i], bs[i]) && bs[i].ff == rest[i].ff {
      assert Recounted(rest[i], bs[i]);
    }
    KeptTotal(rest, bs);
  }

  /** The bytes and segments of a request, wherever in a sector it may start. */
  ghost predicate Accounted(l: Limits, bs: seq<Bio>, dataLen: nat, n: nat, ps: seq<seq<Vec>>, target: nat) {
    && AllFilled(bs) && dataLen == Total(bs) && (bs != [] ==> Counted(l, bs, n, ps))
    && forall i :: 0 <= i < |bs| ==> bs[i].target == target
  }

  lemma SoundAccounted(l: Limits, bs: seq<Bio>, sector: nat, dataLen: nat, n: nat, ps: seq<seq<Vec>>, target: nat)
    ensures Sound(l, bs, sector, dataLen, n, ps, target) <==>
              Accounted(l, bs, dataLen, n, ps, target) && WellFormed(bs) && (bs != [] ==> sector == bs[0].sector)
  {
    assert WellFormed(bs) ==> forall i :: 0 <= i < |bs| ==> Consistent(bs[i]) && Filled(bs[i]);
  }

  /** After n bytes the sectors of a request are in order exactly if whole sectors were done, or everything. */
  lemma StillWellFormed(xs: seq<Bio>, n: nat, failed: bool, bs: seq<Bio>)
    requires WellFormed(xs) && AllRecounted(Advance(xs, n, failed).rest, bs)
    ensures bs != [] ==> (WellFormed(bs) <==> Whole(n)) && (Whole(n) ==> bs[0].sector == xs[0].sector + Sectors(n))
  {
    var rest := Advance(xs, n, failed).rest;
    forall i | 0 <= i < |rest| ensures Kept(rest[i], bs[i]) { assert Recounted(rest[i], bs[i]); }
    AdvanceWhole(xs, n, failed);
    if bs != [] {
      assert Kept(rest[0], bs[0]);
      assert WellFormed(bs) ==> Consistent(bs[0]);
    }
    if Whole(n) {
      AdvanceContiguous(xs, n, failed);
      KeptWellFormed(rest, bs);
    }
  }

  /** blk_rq_cur_bytes. */
  function Current(bs: seq<Bio>): nat {
    if bs == [] then 0 else if bs[0].vecs == [] then bs[0].size else bs[0].vecs[0].len
  }

  /** So many bytes complete the first vector, and nothing else. */
  lemma CurrentEnds(bs: seq<Bio>, failed: bool)
    requires bs != [] && AllFilled(bs) && forall i :: 0 <= i < |bs[0].vecs| ==> bs[0].vecs[i].len > 0
    ensures Vectors(bs) != [] && Vectors(Advance(bs, Current(bs), failed).rest) == Vectors(bs)[1..]
  {
    var b, rest := bs[0], bs[1..];
    assert bs == [b] + rest;
    assert Filled(b) && (rest != [] ==> rest[0] == bs[1] && Filled(bs[1]));
    FirstOfMany(b.vecs);
    HeadVectors(b, rest);
    if |b.vecs| == 1 {
      NothingDone(rest, failed);
      assert Advance(bs, Current(bs), failed).rest == rest;
    } else {
      var a := AdvanceBio(b, b.vecs[0].len, failed);
      HeadVectors(a, rest);
      assert Advance(bs, Current(bs), failed).rest == [a] + rest;
    }
  }

  lemma HeadVectors(b: Bio, rest: seq<Bio>)
    ensures Vectors([b] + rest) == b.vecs + Vectors(rest)
  {
    VectorsPlus([b], rest);
    VectorsOne(b);
  }

  lemma NothingDone(bs: seq<Bio>, failed: bool)
    requires bs != [] ==> bs[0].size > 0
    ensures Advance(bs, 0, failed).rest == bs
  {
  }

  lemma FirstOfMany(vs: seq<Vec>)
    requires vs != [] && forall i :: 0 <= i < |vs| ==> vs[i].len > 0
    ensures if |vs| == 1 then Sum(vs) == vs[0].len else vs[0].len < Sum(vs) && Skip(vs, vs[0].len) == vs[1..]
  {
    SumFront(vs);
    FirstSkipped(vs);
    if |vs| > 1 { SumFront(vs[1..]); } else { assert vs[1..] == []; }
  }

  lemma FirstSkipped(vs: seq<Vec>)
    requires vs != []
    ensures vs[0].len > 0 ==> Skip(vs, vs[0].len) == vs[1..]
  {
    assert Skip(vs[1..], 0) == vs[1..];
  }

  // ----- failing by boundaries

  /** How many bios from the first are as eager to fail as `ff`. */
  function Eager(bs: seq<Bio>, ff: set<nat>): nat {
    if bs == [] || !(ff <= bs[0].ff) then 0 else 1 + Eager(bs[1..], ff)
  }

  lemma {:induction false} EagerBounds(bs: seq<Bio>, ff: set<nat>)
    ensures Eager(bs, ff) <= |bs| && (bs != [] && ff <= bs[0].ff ==> Eager(bs, ff) > 0)
  {
    if bs == [] {
    } else {
      EagerBounds(bs[1..], ff);
    }
  }

  /** All those have every failfast bit of `ff`, and the next has not. */
  lemma {:induction false} EagerExactly(bs: seq<Bio>, ff: set<nat>, k: nat)
    requires k <= |bs|
    ensures k == Eager(bs, ff) <==>
            (forall i :: 0 <= i < k ==> ff <= bs[i].ff) && (k < |bs| ==> !(ff <= bs[k].ff))
  {
    EagerBounds(bs, ff);
    if bs == [] || !(ff <= bs[0].ff) {
    } else if k > 0 {
      EagerExactly(bs[1..], ff, k - 1);
      assert forall i :: 0 < i < |bs| ==> bs[i] == bs[1..][i - 1];
    }
  }

  /** How many bios of a request fail together. */
  function Together(bs: seq<Bio>, ff: set<nat>, mixed: bool): nat { if mixed then Eager(bs, ff) else |bs| }

  /** The bytes that repeated error completion fails, call by call: up to the first bio less eager to fail, and so
      on. */
  function Boundaries(bs: seq<Bio>, ff: set<nat>, mixed: bool): seq<nat>
    decreases |bs|
  {
    var k := Together(bs, ff, mixed);
    if bs == [] || k == 0 || k > |bs| then []
    else [Total(bs[..k])] + Boundaries(bs[k..], if mixed && k < |bs| then bs[k].ff else ff, mixed)
  }

  lemma {:induction false} BoundariesSame(xs: seq<Bio>, bs: seq<Bio>, ff: set<nat>, mixed: bool)
    requires AllRecounted(xs, bs)
    ensures Together(xs, ff, mixed) == Together(bs, ff, mixed) && Boundaries(xs, ff, mixed) == Boundaries(bs, ff, mixed)
    decreases |xs|
  {
    assert forall i :: 0 <= i < |xs| ==> Recounted(xs[i], bs[i]);
    EagerSame(xs, bs, ff);
    var k := Together(xs, ff, mixed);
    if xs == [] || k == 0 || k > |xs| {
    } else {
      KeptTotal(xs[..k], bs[..k]);
      BoundariesSame(xs[k..], bs[k..], if mixed && k < |xs| then xs[k].ff else ff, mixed);
    }
  }

  lemma {:induction false} EagerSame(xs: seq<Bio>, bs: seq<Bio>, ff: set<nat>)
    requires AllRecounted(xs, bs)
    ensures Eager(xs, ff) == Eager(bs, ff)
  {
    if xs == [] {
    } else {
      assert Recounted(xs[0], bs[0]);
      EagerSame(xs[1..], bs[1..], ff);
    }
  }

  /** No more calls than bios. */
  lemma {:induction false} FewBoundaries(bs: seq<Bio>, ff: set<nat>, mixed: bool)
    ensures |Boundaries(bs, ff, mixed)| <= |bs|
    decreases |bs|
  {
    var k := Together(bs, ff, mixed);
    if bs == [] || k == 0 || k > |bs| {
    } else {
      FewBoundaries(bs[k..], if mixed && k < |bs| then bs[k].ff else ff, mixed);
    }
  }

  lemma {:induction false} WholeTotal(bs: seq<Bio>)
    requires AllConsistent(bs)
    ensures Whole(Total(bs)) && (bs != [] ==> Total(bs) > 0)
  {
    if bs == [] {
    } else {
      assert Consistent(bs[0]);
      WholeTotal(bs[1..]);
    }
  }

  lemma KeptIds(xs: seq<Bio>, bs: seq<Bio>)
    requires AllKept(xs, bs)
    ensures Ids(xs) == Ids(bs)
  {
    forall i | 0 <= i < |xs| ensures xs[i].id == bs[i].id { assert Kept(xs[i], bs[i]); }
  }

  lemma RecountedIds(xs: seq<Bio>, bs: seq<Bio>)
    requires AllRecounted(xs, bs)
    ensures Ids(xs) == Ids(bs) && AllKept(xs, bs)
  {
    forall i | 0 <= i < |xs| ensures xs[i].id == bs[i].id && Kept(xs[i], bs[i]) { assert Recounted(xs[i], bs[i]); }
  }

  /** Failing the bytes of the first k bios fails those bios and leaves the others. */
  lemma {:induction false} FailsFirst(bs: seq<Bio>, k: nat)
    requires k <= |bs| && AllFilled(bs)
    ensures Advance(bs, Total(bs[..k]), true).rest == bs[k..]
  {
    if k == 0 {
      assert bs == [] || [bs[0]] + bs[1..] == bs;
    } else {
      assert bs[..k][0] == bs[0] && bs[..k][1..] == bs[1..][..k - 1];
      FailsFirst(bs[1..], k - 1);
    }
  }

  /** One error completion. */
  lemma FailStep(bs: seq<Bio>, ff: set<nat>, mixed: bool, bytes: nat)
    requires AllFilled(bs) && bs != [] && 0 < Together(bs, ff, mixed) <= |bs|
             && bytes == Total(bs[..Together(bs, ff, mixed)])
    ensures var r := Advance(bs, bytes, true);
            && |r.rest| < |bs| && EndedIds(r.ended) + Ids(r.rest) == Ids(bs)
               && (forall i :: 0 <= i < |r.ended| ==> r.ended[i].failed)
            && Boundaries(bs, ff, mixed) == [bytes] + Boundaries(r.rest, if mixed && r.rest != [] then r.rest[0].ff
                                                                 else ff, mixed)
  {
    FailsFirst(bs, Together(bs, ff, mixed));
    AdvanceConserves(bs, bytes, true);
    AllFailed(bs, bytes);
  }

  lemma {:induction false} AllFailed(bs: seq<Bio>, n: nat)
    ensures forall e :: e in Advance(bs, n, true).ended ==> e.failed
  {
    if bs == [] || bs[0].size > n {
    } else {
      AllFailed(bs[1..], n - bs[0].size);
    }
  }

  class Request {
    var bios: seq<Bio>
    var sector: nat
    var dataLen: nat
    var segments: nat
    var ff: set<nat>
    var mixed: bool
    var noMerge: bool
    var special: bool
    var target: nat
    var botched: bool
    var started: bool
    ghost var parts: seq<seq<Vec>>

    /** What every merge and every completion of whole sectors keeps. */
    ghost predicate Valid(l: Limits)
      reads this
    {
      Sound(l, bios, sector, dataLen, segments, parts, target) && FlagsAgree(bios, ff, mixed) && !botched
    }

    /** What every completion keeps. */
    ghost predicate Holds(l: Limits)
      reads this
    {
      Accounted(l, bios, dataLen, segments, parts, target) && FlagsAgree(bios, ff, mixed) && !botched
    }

    lemma Valued(l: Limits)
      requires Valid(l)
      ensures Holds(l)
    {
      SoundAccounted(l, bios, sector, dataLen, segments, parts, target);
    }

    /** init_request_from_bio and blk_rq_bio_prep. */
    constructor (l: Limits, bio: Bio)
      requires Arrives(l, bio)
      ensures Valid(l) && AllKept([bio], bios) && target == bio.target && !noMerge && !special && !mixed && !started
      ensures Flags(bios) == [bio.ff] && ff == if bio.ahead then FAILFAST else bio.ff
    {
      var b;
      ghost var ps;
      b, ps := PhysSegments(l, bio);
      bios, sector, dataLen, segments, parts := [b], b.sector, b.size, b.seg.count, ps;
      ff := if bio.ahead then FAILFAST else bio.ff;
      mixed, noMerge, special, target, botched, started := false, false, false, bio.target, false, false;
      assert Total([b]) == b.size by { assert [b][1..] == []; }
    }

    /** blk_rq_set_mixed_merge. */
    method SetMixedMerge()
      requires FlagsAgree(bios, ff, mixed)
      modifies `bios, `mixed
      ensures mixed && FlagsAgree(bios, ff, true) && SameSegs(old(bios), bios)
              && Flags(bios) == Spread(old(bios), !old(mixed), ff)
    {
      if mixed { return; }
      bios := SpreadFlags(bios, ff);
      assert bios != [] ==> bios[0].ff == Flags(bios)[0];
      mixed := true;
    }

    /** ll_new_hw_segment. */
    method NewHwSegment(l: Limits, count: nat) returns (ok: bool)
      modifies `noMerge, `segments
      ensures ok == (old(segments) + count <= l.maxSegments)
      ensures segments == if ok then old(segments) + count else old(segments)
      ensures noMerge == (old(noMerge) || !ok)
    {
      if segments + count > l.maxSegments {
        noMerge := true;
        return false;
      }
      segments := segments + count;
      return true;
    }

    /** ll_back_merge_fn, and ll_front_merge_fn, which recounts the bio at the other end; on success the segments of the
        bio, `b` with its count, are already counted in. */
    method MayMerge(l: Limits, bio: Bio, back: bool) returns (ok: bool, b: Bio, ghost qs: seq<seq<Vec>>)
      requires Valid(l) && bios != [] && Arrives(l, bio)
      modifies `bios, `noMerge, `segments
      ensures AllKept(old(bios), bios) && FlagsAgree(bios, ff, mixed) && Flags(bios) == old(Flags(bios))
      ensures segments == old(segments) + (if ok then b.seg.count else 0)
      ensures Sound(l, bios, sector, dataLen, old(segments), parts, target)
      ensures Sectors(dataLen) + Sectors(bio.size) <= l.maxSectors ==> Recounted(bio, b)
                                                                       && Counted(l, [b], b.seg.count, qs)
      ensures ok == Fits(l, dataLen, old(segments), bio) && (ok ==> segments <= l.maxSegments)
      ensures noMerge == (old(noMerge) || !ok)
    {
      b, qs := bio, [];
      if Sectors(dataLen) + Sectors(bio.size) > l.maxSectors {
        noMerge := true;
        return false, b, qs;
      }
      var i := if back then |bios| - 1 else 0;
      if !bios[i].seg.valid { RecountAt(l, i); }
      b, qs := PhysSegments(l, bio);
      ok := NewHwSegment(l, b.seg.count);
    }

    /** The back merge of __make_request. */
    method BackMerge(l: Limits, bio: Bio) returns (ok: bool)
      requires Valid(l) && bios != [] && Arrives(l, bio) && bio.target == target
               && bio.sector == sector + Sectors(dataLen)
      modifies `bios, `noMerge, `segments, `mixed, `dataLen, `parts
      ensures Valid(l)
      ensures ok ==> AllKept(old(bios) + [bio], bios) && segments <= l.maxSegments
                     && mixed == (old(mixed) || ff != bio.ff)
                     && Flags(bios) == Spread(old(bios), mixed && !old(mixed), ff) + [bio.ff]
      ensures !ok ==> AllKept(old(bios), bios) && mixed == old(mixed) && Flags(bios) == old(Flags(bios))
      ensures noMerge == (old(noMerge) || !ok) && ok == old(Fits(l, dataLen, segments, bio))
    {
      var b;
      ghost var qs;
      ok, b, qs := MayMerge(l, bio, true);
      if ok {
        SpreadSame(old(bios), bios, !mixed && ff != bio.ff, ff);
        MixAndBack(l, bio, b, qs, old(bios), old(segments));
      }
    }

    method MixAndBack(l: Limits, bio: Bio, b: Bio, ghost qs: seq<seq<Vec>>, ghost was: seq<Bio>, ghost n: nat)
      requires Sound(l, bios, sector, dataLen, n, parts, target) && AllKept(was, bios) && segments == n + b.seg.count
      requires bios != [] && FlagsAgree(bios, ff, mixed) && Recounted(bio, b)
      requires Consistent(b) && Counted(l, [b], b.seg.count, qs) && b.target == target
               && b.sector == sector + Sectors(dataLen)
      modifies `bios, `mixed, `dataLen, `parts
      ensures Sound(l, bios, sector, dataLen, segments, parts, target) && FlagsAgree(bios, ff, mixed)
      ensures AllKept(was + [bio], bios) && mixed == (old(mixed) || ff != bio.ff)
      ensures Flags(bios) == Spread(old(bios), mixed && !old(mixed), ff) + [bio.ff]
    {
      ghost var xs := bios;
      if ff != bio.ff { SetMixedMerge(); }
      FlagsPlus(bios, [b]);
      KeptTrans(was, xs, bios);
      KeptAppend(was, [bio], bios, [b]);
      LinkBack(l, b, qs, xs, n);
    }

    method LinkBack(l: Limits, b: Bio, ghost qs: seq<seq<Vec>>, ghost xs: seq<Bio>, ghost n: nat)
      requires Sound(l, xs, sector, dataLen, n, parts, target) && SameSegs(xs, bios) && segments == n + b.seg.count
      requires bios != [] && FlagsAgree(bios, ff, mixed) && (mixed || b.ff == ff)
      requires Consistent(b) && Counted(l, [b], b.seg.count, qs) && b.target == target
               && b.sector == sector + Sectors(dataLen)
      modifies `bios, `dataLen, `parts
      ensures Sound(l, bios, sector, dataLen, segments, parts, target) && FlagsAgree(bios, ff, mixed)
      ensures bios == old(bios) + [b]
    {
      Linked(l, xs, bios, sector, dataLen, n, parts, target, b, qs);
      bios := bios + [b];
      dataLen := dataLen + b.size;
      parts := parts + qs;
    }

    /** The front merge of __make_request. */
    method FrontMerge(l: Limits, bio: Bio) returns (ok: bool)
      requires Valid(l) && bios != [] && Arrives(l, bio) && bio.target == target
               && sector == bio.sector + Sectors(bio.size)
      modifies `bios, `noMerge, `segments, `mixed, `ff, `sector, `dataLen, `parts
      ensures Valid(l)
      ensures ok ==> AllKept([bio] + old(bios), bios) && segments <= l.maxSegments
                     && mixed == (old(mixed) || old(ff) != bio.ff)
                     && Flags(bios) == [bio.ff] + Spread(old(bios), mixed && !old(mixed), old(ff))
      ensures !ok ==> AllKept(old(bios), bios) && mixed == old(mixed) && Flags(bios) == old(Flags(bios))
      ensures noMerge == (old(noMerge) || !ok) && ok == old(Fits(l, dataLen, segments, bio))
    {
      var b;
      ghost var qs;
      ok, b, qs := MayMerge(l, bio, false);
      if ok {
        SpreadSame(old(bios), bios, !mixed && ff != bio.ff, ff);
        MixAndFront(l, bio, b, qs, old(bios), old(segments));
      }
    }

    method MixAndFront(l: Limits, bio: Bio, b: Bio, ghost qs: seq<seq<Vec>>, ghost was: seq<Bio>, ghost n: nat)
      requires Sound(l, bios, sector, dataLen, n, parts, target) && AllKept(was, bios) && segments == n + b.seg.count
      requires bios != [] && FlagsAgree(bios, ff, mixed) && Recounted(bio, b)
      requires Consistent(b) && Counted(l, [b], b.seg.count, qs) && b.target == target
               && sector == b.sector + Sectors(b.size)
      modifies `bios, `mixed, `ff, `sector, `dataLen, `parts
      ensures Sound(l, bios, sector, dataLen, segments, parts, target) && FlagsAgree(bios, ff, mixed)
      ensures AllKept([bio] + was, bios) && mixed == (old(mixed) || old(ff) != bio.ff)
      ensures Flags(bios) == [bio.ff] + Spread(old(bios), mixed && !old(mixed), old(ff))
    {
      ghost var xs := bios;
      MixFor(bio.ff);
      FrontKept(bio, b, was, xs, bios);
      LinkFront(l, b, qs, xs, n);
    }

    method MixFor(bits: set<nat>)
      requires FlagsAgree(bios, ff, mixed)
      modifies `bios, `mixed
      ensures SameSegs(old(bios), bios) && FlagsAgree(bios, ff, mixed) && (mixed || bits == ff)
      ensures mixed == (old(mixed) || ff != bits) && Flags(bios) == Spread(old(bios), mixed && !old(mixed), ff)
    {
      if ff != bits { SetMixedMerge(); }
    }

    static lemma FrontKept(bio: Bio, b: Bio, was: seq<Bio>, xs: seq<Bio>, bs: seq<Bio>)
      requires Recounted(bio, b) && AllKept(was, xs) && SameSegs(xs, bs)
      ensures AllKept([bio] + was, [b] + bs) && Flags([b] + bs) == [bio.ff] + Flags(bs)
    {
      FlagsPlus([b], bs);
      KeptTrans(was, xs, bs);
      KeptAppend([bio], was, [b], bs);
    }

    static lemma FrontFlags(b: Bio, bs: seq<Bio>, ff: set<nat>, mixed: bool)
      requires FlagsAgree(bs, ff, mixed) && (mixed || b.ff == ff)
      ensures FlagsAgree([b] + bs, b.ff, mixed)
    {
    }

    static lemma InFront(l: Limits, xs: seq<Bio>, bs: seq<Bio>, sector: nat, len: nat, n: nat, ps: seq<seq<Vec>>,
                         target: nat, b: Bio, qs: seq<seq<Vec>>, ff: set<nat>, mixed: bool)
      requires Sound(l, xs, sector, len, n, ps, target) && SameSegs(xs, bs) && xs != []
      requires Consistent(b) && Counted(l, [b], b.seg.count, qs) && b.target == target
               && sector == b.sector + Sectors(b.size)
      requires FlagsAgree(bs, ff, mixed) && (mixed || b.ff == ff)
      ensures Sound(l, [b] + bs, b.sector, len + b.size, n + b.seg.count, qs + ps, target)
      ensures FlagsAgree([b] + bs, b.ff, mixed)
    {
      LinkedInFront(l, xs, bs, sector, len, n, ps, target, b, qs);
      FrontFlags(b, bs, ff, mixed);
    }

    method LinkFront(l: Limits, b: Bio, ghost qs: seq<seq<Vec>>, ghost xs: seq<Bio>, ghost n: nat)
      requires Sound(l, xs, sector, dataLen, n, parts, target) && SameSegs(xs, bios) && segments == n + b.seg.count
      requires bios != [] && FlagsAgree(bios, ff, mixed) && (mixed || b.ff == ff)
      requires Consistent(b) && Counted(l, [b], b.seg.count, qs) && b.target == target
               && sector == b.sector + Sectors(b.size)
      modifies `bios, `ff, `sector, `dataLen, `parts
      ensures Sound(l, bios, sector, dataLen, segments, parts, target) && FlagsAgree(bios, ff, mixed)
      ensures bios == [b] + old(bios)
    {
      InFront(l, xs, bios, sector, dataLen, n, parts, target, b, qs, ff, mixed);
      PutFront(l, b, qs);
    }

    method PutFront(l: Limits, b: Bio, ghost qs: seq<seq<Vec>>)
      requires Sound(l, [b] + bios, b.sector, dataLen + b.size, segments, qs + parts, target)
      requires FlagsAgree([b] + bios, b.ff, mixed)
      modifies `bios, `ff, `sector, `dataLen, `parts
      ensures Sound(l, bios, sector, dataLen, segments, parts, target) && FlagsAgree(bios, ff, mixed)
      ensures bios == [b] + old(bios)
    {
      Become([b] + bios, b.ff, b.sector, dataLen + b.size, qs + parts);
    }

    method Become(bs: seq<Bio>, flags: set<nat>, start: nat, len: nat, ghost ps: seq<seq<Vec>>)
      modifies `bios, `ff, `sector, `dataLen, `parts
      ensures bios == bs && ff == flags && sector == start && dataLen == len && parts == ps
    {
      bios, ff, sector, dataLen, parts := bs, flags, start, len, ps;
    }

    method RecountAt(l: Limits, i: nat)
      requires Valid(l) && i < |bios|
      modifies `bios
      ensures Valid(l) && AllKept(old(bios), bios) && Flags(bios) == old(Flags(bios))
    {
      var b;
      ghost var qs;
      b, qs := RecountOne(l, bios[i]);
      OneRecounted(l, bios, sector, dataLen, segments, parts, target, ff, mixed, i, b);
      bios := bios[i := b];
    }

    static lemma OneRecounted(l: Limits, xs: seq<Bio>, sector: nat, len: nat, n: nat, ps: seq<seq<Vec>>, target: nat,
                              ff: set<nat>, mixed: bool, i: nat, b: Bio)
      requires Sound(l, xs, sector, len, n, ps, target) && FlagsAgree(xs, ff, mixed)
      requires i < |xs| && Recounted(xs[i], b)
      ensures Sound(l, xs[i := b], sector, len, n, ps, target) && FlagsAgree(xs[i := b], ff, mixed)
      ensures AllKept(xs, xs[i := b]) && Flags(xs[i := b]) == Flags(xs)
    {
      KeptSound(l, xs, xs[i := b], sector, len, n, ps, target);
    }

    // ----- request-request merges

    predicate WithinLimits(l: Limits, next: Request)
      requires bios != [] && next.bios != []
      reads this, next
    {
      && !special && !next.special && Sectors(dataLen) + Sectors(next.dataLen) <= l.maxSectors
      && Joint(l, bios, segments, next.bios, next.segments) <= l.maxSegments
    }

    /** ll_merge_requests_fn: both requests take over the joint segment size before the last limit is checked. */
    method MergeSegments(l: Limits, next: Request) returns (ok: bool, ghost rs: seq<seq<Vec>>)
      requires this != next && bios != [] && next.bios != []
      requires Sound(l, bios, sector, dataLen, segments, parts, target)
      requires Sound(l, next.bios, sector + Sectors(dataLen), next.dataLen, next.segments, next.parts, target)
      modifies `bios, `segments, next`bios
      ensures SameButSegs(old(bios), bios) && SameButSegs(old(next.bios), next.bios)
      ensures ok ==> Sound(l, bios + next.bios, sector, dataLen + next.dataLen, segments, rs, target)
      ensures ok == old(WithinLimits(l, next))
      ensures ok ==> segments == old(Joint(l, bios, segments, next.bios, next.segments))
      ensures !ok ==> segments == old(segments) && Sound(l, bios, sector, dataLen, segments, parts, target)
      ensures !ok ==> Sound(l, next.bios, sector + Sectors(dataLen), next.dataLen, next.segments, next.parts, target)
    {
      if special || next.special { return false, []; }
      if Sectors(dataLen) + Sectors(next.dataLen) > l.maxSectors { return false, []; }
      var total;
      total, rs := JoinBoth(l, next);
      if total > l.maxSegments { return false, rs; }
      segments := total;
      return true, rs;
    }

    /** Both requests take over the joint segment size. */
    method JoinBoth(l: Limits, next: Request) returns (total: nat, ghost rs: seq<seq<Vec>>)
      requires this != next && bios != [] && next.bios != []
      requires Sound(l, bios, sector, dataLen, segments, parts, target)
      requires Sound(l, next.bios, sector + Sectors(dataLen), next.dataLen, next.segments, next.parts, target)
      modifies `bios, next`bios
      ensures SameButSegs(old(bios), bios) && SameButSegs(old(next.bios), next.bios)
      ensures total == old(Joint(l, bios, segments, next.bios, next.segments))
      ensures Sound(l, bios + next.bios, sector, dataLen + next.dataLen, total, rs, target)
      ensures Sound(l, bios, sector, dataLen, segments, parts, target)
      ensures Sound(l, next.bios, sector + Sectors(dataLen), next.dataLen, next.segments, next.parts, target)
    {
      var xs, bs;
      xs, bs, total, rs := JoinEnds(l, bios, segments, next.bios, next.segments, sector, dataLen, next.dataLen, parts,
                                    next.parts, target);
      SetBios(next, xs, bs);
    }

    method SetBios(next: Request, xs: seq<Bio>, bs: seq<Bio>)
      requires this != next
      modifies `bios, next`bios
      ensures bios == xs && next.bios == bs
    {
      bios := xs;
      next.bios := bs;
    }

    /** attempt_merge: on success every bio of `next` belongs to this request. */
    method Absorb(l: Limits, next: Request) returns (ok: bool)
      requires this != next && Valid(l) && next.Valid(l) && bios != [] && next.bios != []
      modifies `bios, `segments, `mixed, `dataLen, `parts, next`bios, next`mixed
      ensures Valid(l)
      ensures ok ==> AllKept(old(bios) + old(next.bios), bios) && next.bios == [] && sector == old(sector)
      ensures !ok ==> next.Valid(l) && AllKept(old(bios), bios) && AllKept(old(next.bios), next.bios)
      ensures ok ==> mixed == (old(mixed) || old(next.mixed) || ff != old(next.ff))
                     && Flags(bios) == Spread(old(bios), mixed && !old(mixed), ff)
                                       + Spread(old(next.bios), mixed && !old(next.mixed), old(next.ff))
      ensures ok == old(!noMerge && !next.noMerge && sector + Sectors(dataLen) == next.sector && target == next.target
                        && WithinLimits(l, next))
    {
      if noMerge || next.noMerge { return false; }
      if sector + Sectors(dataLen) != next.sector { return false; }
      if target != next.target || next.special { return false; }
      ok := Combine(l, next);
    }

    method Combine(l: Limits, next: Request) returns (ok: bool)
      requires this != next && bios != [] && next.bios != []
      requires FlagsAgree(bios, ff, mixed) && FlagsAgree(next.bios, next.ff, next.mixed)
      requires Sound(l, bios, sector, dataLen, segments, parts, target)
      requires Sound(l, next.bios, sector + Sectors(dataLen), next.dataLen, next.segments, next.parts, target)
      modifies `bios, `segments, `mixed, `dataLen, `parts, next`bios, next`mixed
      ensures Sound(l, bios, sector, dataLen, segments, parts, target) && FlagsAgree(bios, ff, mixed)
      ensures ok ==> AllKept(old(bios) + old(next.bios), bios) && next.bios == []
      ensures !ok ==> AllKept(old(bios), bios) && AllKept(old(next.bios), next.bios) && dataLen == old(dataLen)
      ensures !ok ==> Sound(l, next.bios, sector + Sectors(dataLen), next.dataLen, next.segments, next.parts, target)
      ensures !ok ==> FlagsAgree(next.bios, next.ff, next.mixed)
      ensures ok == old(WithinLimits(l, next))
      ensures ok ==> mixed == (old(mixed) || old(next.mixed) || ff != next.ff)
                     && Flags(bios) == Spread(old(bios), mixed && !old(mixed), ff)
                                       + Spread(old(next.bios), mixed && !old(next.mixed), next.ff)
    {
      ghost var rs;
      ok, rs := MergeSegments(l, next);
      KeptBySegs(next, old(bios), old(next.bios));
      if ok {
        ghost var mixes := mixed || next.mixed || ff != next.ff;
        SpreadSame(old(bios), bios, mixes && !mixed, ff);
        SpreadSame(old(next.bios), next.bios, mixes && !next.mixed, next.ff);
        Append(l, next, rs, old(bios), old(next.bios));
      }
    }

    lemma KeptBySegs(next: Request, was: seq<Bio>, nextWas: seq<Bio>)
      requires SameButSegs(was, bios) && SameButSegs(nextWas, next.bios)
      requires FlagsAgree(was, ff, mixed) && FlagsAgree(nextWas, next.ff, next.mixed)
      ensures AllKept(was, bios) && AllKept(nextWas, next.bios) && Flags(was) == Flags(bios)
              && Flags(nextWas) == Flags(next.bios)
      ensures FlagsAgree(bios, ff, mixed) && FlagsAgree(next.bios, next.ff, next.mixed)
    {
      SegsOnly(was, bios, ff, mixed);
      SegsOnly(nextWas, next.bios, next.ff, next.mixed);
    }

    method MixBoth(next: Request)
      requires this != next && FlagsAgree(bios, ff, mixed) && FlagsAgree(next.bios, next.ff, next.mixed)
      modifies `bios, `mixed, next`bios, next`mixed
      ensures SameSegs(old(bios), bios) && SameSegs(old(next.bios), next.bios)
      ensures FlagsAgree(bios, ff, mixed) && (!mixed ==> FlagsAgree(next.bios, ff, false))
      ensures mixed == (old(mixed) || old(next.mixed) || ff != next.ff)
      ensures Flags(bios) == Spread(old(bios), mixed && !old(mixed), ff)
      ensures Flags(next.bios) == Spread(old(next.bios), mixed && !old(next.mixed), next.ff)
    {
      if mixed || next.mixed || ff != next.ff {
        SetMixedMerge();
        next.SetMixedMerge();
      }
    }

    method Append(l: Limits, next: Request, ghost rs: seq<seq<Vec>>, ghost was: seq<Bio>, ghost nextWas: seq<Bio>)
      requires this != next && Sound(l, bios + next.bios, sector, dataLen + next.dataLen, segments, rs, target)
               && bios != []
      requires FlagsAgree(bios, ff, mixed) && FlagsAgree(next.bios, next.ff, next.mixed)
      requires AllKept(was, bios) && AllKept(nextWas, next.bios)
      modifies `bios, `mixed, `dataLen, `parts, next`bios, next`mixed
      ensures Sound(l, bios, sector, dataLen, segments, parts, target) && FlagsAgree(bios, ff, mixed)
      ensures AllKept(was + nextWas, bios) && next.bios == []
              && mixed == (old(mixed) || old(next.mixed) || ff != next.ff)
      ensures Flags(bios) == Spread(old(bios), mixed && !old(mixed), ff)
                             + Spread(old(next.bios), mixed && !old(next.mixed), next.ff)
    {
      ghost var xs, bs := bios, next.bios;
      MixBoth(next);
      FlagsPlus(bios, next.bios);
      Appended(l, was, nextWas, xs, bs, bios, next.bios, sector, dataLen + next.dataLen, segments, rs, target, ff,
               mixed);
      bios, dataLen, parts := bios + next.bios, dataLen + next.dataLen, rs;
      next.bios := [];
    }

    // ----- completion

    /** blk_update_request for a file system request, with any number of bytes. */
    method Update(l: Limits, failed: bool, n: nat) returns (more: bool, ended: seq<Ended>)
      requires Holds(l)
      modifies `bios, `dataLen, `sector, `ff, `botched, `segments, `parts
      ensures Holds(l) && more == (bios != []) && ended == Advance(old(bios), n, failed).ended
      ensures AllRecounted(Advance(old(bios), n, failed).rest, bios)
      ensures bios != [] ==> sector == old(sector) + Sectors(n) && ff == if mixed then bios[0].ff else old(ff)
      ensures old(Valid(l)) ==> (Valid(l) <==> Whole(n) || bios == [])
    {
      if bios == [] { return false, []; }
      var rest, total;
      rest, ended, total := EndBios(bios, n, failed);
      LeftOver(bios, target, ff, mixed, n, failed);
      if rest == [] {
        bios, dataLen := [], 0;
        return false, ended;
      }
      Shrink(l, rest, total);
      more := true;
      SoundAccounted(l, old(bios), old(sector), old(dataLen), old(segments), old(parts), target);
      SoundAccounted(l, bios, sector, dataLen, segments, parts, target);
      if WellFormed(old(bios)) { StillWellFormed(old(bios), n, failed, bios); }
    }

    /** The tail of blk_update_request: the state of a request with bios left. */
    method Shrink(l: Limits, rest: seq<Bio>, total: nat)
      requires rest != [] && total <= dataLen && !botched && Remains(rest, dataLen - total, target)
      requires FlagsAgree(rest, if mixed then rest[0].ff else ff, mixed)
      modifies `bios, `dataLen, `sector, `ff, `botched, `segments, `parts
      ensures Accounted(l, bios, dataLen, segments, parts, target) && FlagsAgree(bios, ff, mixed) && !botched
      ensures AllRecounted(rest, bios) && sector == old(sector) + Sectors(total) && ff == if mixed then rest[0].ff
              else old(ff)
    {
      MoveOn(rest, total);
      Recalc(l);
    }

    /** blk_recalc_rq_segments. */
    method Recalc(l: Limits)
      requires bios != [] && Remains(bios, dataLen, target) && FlagsAgree(bios, ff, mixed)
      modifies `bios, `segments, `parts
      ensures Accounted(l, bios, dataLen, segments, parts, target) && FlagsAgree(bios, ff, mixed)
              && AllRecounted(old(bios), bios)
    {
      var bs, n;
      ghost var ps;
      bs, n, ps := RecountSegments(l, bios);
      Resized(l, bios, bs, dataLen, n, ps, target, ff, mixed);
      bios, segments, parts := bs, n, ps;
    }

    method MoveOn(rest: seq<Bio>, total: nat)
      requires rest != [] && total <= dataLen
      modifies `bios, `dataLen, `sector, `ff, `botched
      ensures bios == rest && sector == old(sector) + Sectors(total) && ff == if mixed then rest[0].ff else old(ff)
      ensures CurBytes() <= old(dataLen) - total ==> dataLen == old(dataLen) - total && botched == old(botched)
    {
      bios, dataLen, sector := rest, dataLen - total, sector + Sectors(total);
      if mixed { ff := bios[0].ff; }
      var cur := CurBytes();
      botched, dataLen := botched || dataLen < cur, if dataLen < cur then cur else dataLen;
    }

    function CurBytes(): nat
      reads this
    {
      Current(bios)
    }

    /** blk_rq_err_bytes: whole bios, at least the first, all as eager to fail as the request. */
    method ErrBytes(l: Limits) returns (bytes: nat)
      requires Holds(l)
      ensures var k := Together(bios, ff, mixed);
              k <= |bios| && bytes == Total(bios[..k]) && (bios != [] ==> k > 0 && bytes > 0)
                && (AllConsistent(bios) ==> Whole(bytes))
    {
      EagerBounds(bios, ff);
      ghost var k := Together(bios, ff, mixed);
      assert bios[..|bios|] == bios;
      if AllConsistent(bios) { WholeTotal(bios[..k]); }
      assert bios != [] ==> Filled(bios[0]) && bios[..k][0] == bios[0];
      if !mixed { return dataLen; }
      bytes := EagerBytes(bios, ff);
    }

    static method EagerBytes(bs: seq<Bio>, ff: set<nat>) returns (bytes: nat)
      ensures Eager(bs, ff) <= |bs| && bytes == Total(bs[..Eager(bs, ff)])
    {
      EagerBounds(bs, ff);
      bytes := 0;
      var i := 0;
      while i < |bs| && ff <= bs[i].ff
        invariant i <= |bs| && bytes == Total(bs[..i]) && i + Eager(bs[i..], ff) == Eager(bs, ff)
        decreases |bs| - i
      {
        assert bs[..i + 1] == bs[..i] + [bs[i]];
        TotalPlus(bs[..i], [bs[i]]);
        assert bs[i..][1..] == bs[i + 1..];
        bytes := bytes + bs[i].size;
        i := i + 1;
      }
    }

    /** blk_rq_map_sg: the entries are a valid partition of the vectors, as few as possible and no more than counted. */
    method MapSegments(l: Limits) returns (sg: seq<nat>, ghost ps: seq<seq<Vec>>)
      requires Holds(l)
      ensures IsPartition(l, Vectors(bios), ps) && |sg| == |ps| && forall i :: 0 <= i < |sg| ==> sg[i] == Sum(ps[i])
      ensures (forall qs :: IsPartition(l, Vectors(bios), qs) ==> |sg| <= |qs|) && (bios != [] ==> |sg| <= segments)
    {
      sg, ps := MapSg(l, Vectors(bios));
    }

    /** blk_end_request_err until nothing is left: what each call fails, and that there are no more calls than bios. */
    method FailByBoundaries(l: Limits) returns (calls: seq<nat>, ended: seq<Ended>)
      requires Holds(l)
      modifies `bios, `dataLen, `sector, `ff, `botched, `segments, `parts
      ensures Holds(l) && bios == [] && calls == old(Boundaries(bios, ff, mixed)) && |calls| <= |old(bios)|
      ensures EndedIds(ended) == Ids(old(bios)) && forall i :: 0 <= i < |ended| ==> ended[i].failed
    {
      FewBoundaries(bios, ff, mixed);
      calls, ended := [], [];
      while bios != []
        invariant Holds(l) && calls + Boundaries(bios, ff, mixed) == old(Boundaries(bios, ff, mixed))
        invariant EndedIds(ended) + Ids(bios) == Ids(old(bios)) && forall i :: 0 <= i < |ended| ==> ended[i].failed
        decreases |bios|
      {
        calls, ended := FailOnce(l, calls, ended);
      }
    }

    /** blk_end_request_err: the bios up to the first one less eager to fail. */
    method FailOnce(l: Limits, calls: seq<nat>, ended: seq<Ended>) returns (calls': seq<nat>, ended': seq<Ended>)
      requires Holds(l) && bios != [] && forall i :: 0 <= i < |ended| ==> ended[i].failed
      modifies `bios, `dataLen, `sector, `ff, `botched, `segments, `parts
      ensures Holds(l) && |bios| < |old(bios)|
      ensures calls' + Boundaries(bios, ff, mixed) == calls + old(Boundaries(bios, ff, mixed))
      ensures EndedIds(ended') + Ids(bios) == EndedIds(ended) + Ids(old(bios))
      ensures forall i :: 0 <= i < |ended'| ==> ended'[i].failed
    {
      var bytes := ErrBytes(l);
      FailStep(bios, ff, mixed, bytes);
      var more, es;
      more, es := Update(l, true, bytes);
      ghost var rest := Advance(old(bios), bytes, true).rest;
      BoundariesSame(rest, bios, ff, mixed);
      RecountedIds(rest, bios);
      EndedPlus(ended, es, Ids(bios));
      calls', ended' := calls + [bytes], ended + es;
    }
  }
}
