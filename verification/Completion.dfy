/** Partial completion (blk_update_request and req_bio_endio in block/blk-core.c), as a function of the bytes done. */
module Completion {
  import opened Segments
  import opened Recount

  const SECTOR := 512

  /** A bio with data, as much as its vectors hold. */
  predicate Filled(b: Bio) { b.size > 0 && b.size == Sum(b.vecs) }

  predicate AllFilled(bs: seq<Bio>) { forall i :: 0 <= i < |bs| ==> Filled(bs[i]) }

  /** And that in whole sectors. */
  predicate Consistent(b: Bio) { Filled(b) && Whole(b.size) }

  predicate Whole(n: nat) { n % SECTOR == 0 }

  predicate AllConsistent(bs: seq<Bio>) { forall i :: 0 <= i < |bs| ==> Consistent(bs[i]) }

  function Total(bs: seq<Bio>): nat { if bs == [] then 0 else bs[0].size + Total(bs[1..]) }

  /** bio_endio: the bio and whether it ends in an error. */
  datatype Ended = Ended(id: nat, failed: bool)

  datatype Progress = Progress(rest: seq<Bio>, ended: seq<Ended>)

  /** The vectors after the first n bytes. */
  function Skip(vs: seq<Vec>, n: nat): seq<Vec> {
    if vs == [] || n == 0 then vs
    else if vs[0].len <= n then Skip(vs[1..], n - vs[0].len)
    else [vs[0].(offset := vs[0].offset + n, len := vs[0].len - n)] + vs[1..]
  }

  function AdvanceBio(b: Bio, n: nat, failed: bool): Bio
    requires n < b.size
  {
    if n == 0 then b
    else b.(size := b.size - n, sector := b.sector + n / SECTOR, vecs := Skip(b.vecs, n), uptodate := b.uptodate
            && !failed)
  }

  function End(b: Bio, failed: bool): Ended { Ended(b.id, failed || !b.uptodate) }

  /** What n bytes complete. */
  function Advance(bs: seq<Bio>, n: nat, failed: bool): Progress {
    if bs == [] then Progress([], [])
    else if n < bs[0].size then Progress([AdvanceBio(bs[0], n, failed)] + bs[1..], [])
    else var r := Advance(bs[1..], n - bs[0].size, failed); Progress(r.rest, [End(bs[0], failed)] + r.ended)
  }

  // ----- composition

  lemma {:induction false} SkipTwice(vs: seq<Vec>, m: nat, n: nat)
    ensures Skip(Skip(vs, m), n) == Skip(vs, m + n)
  {
    if vs == [] || m == 0 {
    } else if vs[0].len <= m {
      SkipTwice(vs[1..], m - vs[0].len, n);
    } else {
      var ws := Skip(vs, m);
      assert ws[0].len == vs[0].len - m && ws[1..] == vs[1..];
    }
  }

  lemma {:induction false} SumFront(vs: seq<Vec>)
    requires vs != []
    ensures Sum(vs) == vs[0].len + Sum(vs[1..])
  {
    assert vs == [vs[0]] + vs[1..];
    SumPlus([vs[0]], vs[1..]);
    assert Sum([vs[0]]) == vs[0].len by { assert Front([vs[0]]) == []; }
  }

  lemma {:induction false} SumSkip(vs: seq<Vec>, n: nat)
    requires n <= Sum(vs)
    ensures Sum(Skip(vs, n)) == Sum(vs) - n
  {
    if vs != [] && n > 0 {
      SumFront(vs);
      if vs[0].len <= n {
        SumSkip(vs[1..], n - vs[0].len);
      } else {
        var ws := Skip(vs, n);
        SumFront(ws);
        assert ws[1..] == vs[1..];
      }
    }
  }

  lemma SectorsAdd(m: nat, n: nat)
    ensures m / SECTOR + n / SECTOR == (m + n) / SECTOR <==> m % SECTOR + n % SECTOR < SECTOR
  {
  }

  lemma AdvanceBioTwice(b: Bio, m: nat, n: nat, failed: bool)
    requires m + n < b.size
    ensures AdvanceBio(AdvanceBio(b, m, failed), n, failed) == AdvanceBio(b, m + n, failed)
            <==> m % SECTOR + n % SECTOR < SECTOR
  {
    SkipTwice(b.vecs, m, n);
    SectorsAdd(m, n);
  }

  lemma WholeMinus(m: nat, n: nat)
    requires Whole(n) && n <= m
    ensures (m - n) % SECTOR == m % SECTOR
  {
  }

  /** After m bytes and after n more the chain stops inside one and the same bio. */
  predicate SameBio(bs: seq<Bio>, m: nat, n: nat) {
    bs != [] && if m < bs[0].size then m + n < bs[0].size else SameBio(bs[1..], m - bs[0].size, n)
  }

  /** When two completions add up: they do not meet in the middle of a sector inside a bio. */
  predicate Aligned(bs: seq<Bio>, m: nat, n: nat) { SameBio(bs, m, n) ==> m % SECTOR + n % SECTOR < SECTOR }

  predicate Composes(bs: seq<Bio>, m: nat, n: nat, failed: bool) {
    var first := Advance(bs, m, failed);
    var second := Advance(first.rest, n, failed);
    Advance(bs, m + n, failed) == Progress(second.rest, first.ended + second.ended)
  }

  /** The two halves stop within the first bio, or the second one ends it. */
  lemma ComposesWithin(bs: seq<Bio>, m: nat, n: nat, failed: bool)
    requires bs != [] && m < bs[0].size
    ensures Composes(bs, m, n, failed) <==> (m + n < bs[0].size ==> m % SECTOR + n % SECTOR < SECTOR)
  {
    var b := AdvanceBio(bs[0], m, failed);
    var rest := [b] + bs[1..];
    assert Advance(bs, m, failed).rest == rest && rest[0] == b && rest[1..] == bs[1..];
    var second := Advance(rest, n, failed);
    assert [] + second.ended == second.ended;
    if m + n < bs[0].size {
      AdvanceBioTwice(bs[0], m, n, failed);
      assert second.rest[0] == AdvanceBio(b, n, failed)
             && Advance(bs, m + n, failed).rest[0] == AdvanceBio(bs[0], m + n, failed);
    } else {
      assert End(b, failed) == End(bs[0], failed);
      assert n - b.size == m + n - bs[0].size;
    }
  }

  lemma ComposesAfter(bs: seq<Bio>, m: nat, n: nat, failed: bool)
    requires bs != [] && bs[0].size <= m
    ensures Composes(bs, m, n, failed) <==> Composes(bs[1..], m - bs[0].size, n, failed)
  {
    var e := End(bs[0], failed);
    var first := Advance(bs[1..], m - bs[0].size, failed);
    var second := Advance(first.rest, n, failed);
    var both := Advance(bs[1..], m - bs[0].size + n, failed).ended;
    assert m + n - bs[0].size == m - bs[0].size + n;
    assert ([e] + first.ended) + second.ended == [e] + (first.ended + second.ended);
    assert [e] + both == [e] + (first.ended + second.ended) ==> both == first.ended + second.ended by {
      assert both == ([e] + both)[1..] && first.ended + second.ended == ([e] + (first.ended + second.ended))[1..];
    }
  }

  /** Completing m bytes and then n is completing m + n, exactly if no sector is left half done inside a bio in
      between. */
  lemma {:induction false} CompletionComposes(bs: seq<Bio>, m: nat, n: nat, failed: bool)
    requires AllConsistent(bs)
    ensures Composes(bs, m, n, failed) <==> Aligned(bs, m, n)
  {
    if bs == [] {
    } else if m < bs[0].size {
      ComposesWithin(bs, m, n, failed);
    } else {
      assert Consistent(bs[0]);
      WholeMinus(m, bs[0].size);
      CompletionComposes(bs[1..], m - bs[0].size, n, failed);
      ComposesAfter(bs, m, n, failed);
    }
  }

  /** Two halves of a sector: the whole of it moves the bio on, its halves do not. */
  lemma HalfSectors()
    ensures var bs := [Bio(0, 0, 1024, [Vec(0, 0, 1024)], {}, false, true, 0, SegInfo(1, true, 1024, 1024))];
            AllConsistent(bs) && !Composes(bs, 256, 256, false)
  {
    var bs := [Bio(0, 0, 1024, [Vec(0, 0, 1024)], {}, false, true, 0, SegInfo(1, true, 1024, 1024))];
    assert Sum([Vec(0, 0, 1024)]) == 1024 by { assert Front([Vec(0, 0, 1024)]) == []; }
    CompletionComposes(bs, 256, 256, false);
  }

  // ----- what is left and what has ended

  lemma AdvanceBioConsistent(b: Bio, n: nat, failed: bool)
    requires Consistent(b) && n < b.size && Whole(n)
    ensures Consistent(AdvanceBio(b, n, failed))
  {
    SumSkip(b.vecs, n);
    WholeMinus(b.size, n);
  }

  lemma {:induction false} AdvanceFilled(bs: seq<Bio>, n: nat, failed: bool)
    requires AllFilled(bs)
    ensures AllFilled(Advance(bs, n, failed).rest)
  {
    if bs != [] {
      if n < bs[0].size {
        SumSkip(bs[0].vecs, n);
      } else {
        AdvanceFilled(bs[1..], n - bs[0].size, failed);
      }
    }
  }

  /** What is left of the first bio is in whole sectors exactly if the bytes done are. */
  lemma {:induction false} AdvanceWhole(bs: seq<Bio>, n: nat, failed: bool)
    requires AllConsistent(bs)
    ensures var rest := Advance(bs, n, failed).rest; rest != [] ==> (Whole(rest[0].size) <==> Whole(n))
  {
    if bs != [] {
      assert Consistent(bs[0]);
      if n < bs[0].size {
        WholeSum(n, bs[0].size - n);
      } else {
        WholeMinus(n, bs[0].size);
        AdvanceWhole(bs[1..], n - bs[0].size, failed);
      }
    }
  }

  lemma WholeSum(m: nat, n: nat)
    requires Whole(m + n)
    ensures Whole(m) <==> Whole(n)
  {
  }

  function Min(a: nat, b: nat): nat { if a <= b then a else b }

  function Ids(bs: seq<Bio>): seq<nat> { seq(|bs|, i requires 0 <= i < |bs| => bs[i].id) }

  function EndedIds(es: seq<Ended>): seq<nat> { seq(|es|, i requires 0 <= i < |es| => es[i].id) }

  lemma {:induction false} AdvanceConsistent(bs: seq<Bio>, n: nat, failed: bool)
    requires AllConsistent(bs) && Whole(n)
    ensures AllConsistent(Advance(bs, n, failed).rest)
  {
    if bs != [] {
      if n < bs[0].size {
        AdvanceBioConsistent(bs[0], n, failed);
      } else {
        WholeMinus(n, bs[0].size);
        AdvanceConsistent(bs[1..], n - bs[0].size, failed);
      }
    }
  }

  lemma IdsFirst(b: Bio, bs: seq<Bio>, e: Ended, es: seq<Ended>)
    ensures Ids([b] + bs) == [b.id] + Ids(bs) && EndedIds([e] + es) == [e.id] + EndedIds(es)
  {
  }

  /** The bios ended are the first ones, each once, and those left hold exactly the bytes not done. */
  lemma {:induction false} AdvanceConserves(bs: seq<Bio>, n: nat, failed: bool)
    ensures var r := Advance(bs, n, failed);
            Total(r.rest) == Total(bs) - Min(n, Total(bs)) && EndedIds(r.ended) + Ids(r.rest) == Ids(bs)
  {
    if bs != [] {
      var e, tail := End(bs[0], failed), bs[1..];
      assert bs == [bs[0]] + tail;
      IdsFirst(bs[0], tail, e, []);
      if n < bs[0].size {
        var b := AdvanceBio(bs[0], n, failed);
        assert ([b] + tail)[1..] == tail;
        IdsFirst(b, tail, e, []);
        assert EndedIds([]) + Ids([b] + tail) == Ids([b] + tail);
      } else {
        AdvanceConserves(tail, n - bs[0].size, failed);
        var r := Advance(tail, n - bs[0].size, failed);
        IdsFirst(bs[0], tail, e, r.ended);
        assert ([e.id] + EndedIds(r.ended)) + Ids(r.rest) == [e.id] + (EndedIds(r.ended) + Ids(r.rest));
      }
    }
  }

  /** A bio ends exactly when the bytes done reach its end. */
  lemma {:induction false} EndsWhenCovered(bs: seq<Bio>, n: nat, failed: bool, k: nat)
    requires AllConsistent(bs) && k < |bs|
    ensures k < |Advance(bs, n, failed).ended| <==> Total(bs[..k + 1]) <= n
  {
    assert bs[..k + 1][1..] == bs[1..][..k];
    if n >= bs[0].size && k > 0 {
      EndsWhenCovered(bs[1..], n - bs[0].size, failed, k - 1);
    } else if k > 0 {
      assert bs[..k + 1][0] == bs[0];
    }
  }

  // ----- whole runs

  datatype Step = Step(bytes: nat, failed: bool)

  function Run(bs: seq<Bio>, steps: seq<Step>): Progress {
    if steps == [] then Progress(bs, [])
    else
      var before := Run(bs, Front(steps));
      var r := Advance(before.rest, Last(steps).bytes, Last(steps).failed);
      Progress(r.rest, before.ended + r.ended)
  }

  function Bytes(steps: seq<Step>): nat { if steps == [] then 0 else Bytes(Front(steps)) + Last(steps).bytes }

  lemma EndedPlus(es: seq<Ended>, fs: seq<Ended>, ids: seq<nat>)
    ensures EndedIds(es + fs) + ids == EndedIds(es) + (EndedIds(fs) + ids)
  {
    assert EndedIds(es + fs) == EndedIds(es) + EndedIds(fs);
  }

  /** However a request is completed piece by piece, every bio ends once and in order, and the bytes left add up. */
  lemma {:induction false} RunConserves(bs: seq<Bio>, steps: seq<Step>)
    ensures var r := Run(bs, steps);
            Total(r.rest) == Total(bs) - Min(Bytes(steps), Total(bs)) && EndedIds(r.ended) + Ids(r.rest) == Ids(bs)
  {
    if steps == [] {
      assert EndedIds([]) + Ids(bs) == Ids(bs);
    } else {
      var before := Run(bs, Front(steps));
      RunConserves(bs, Front(steps));
      AdvanceConserves(before.rest, Last(steps).bytes, Last(steps).failed);
      var r := Advance(before.rest, Last(steps).bytes, Last(steps).failed);
      EndedPlus(before.ended, r.ended, Ids(r.rest));
    }
  }

  lemma {:induction false} WholeBytes(steps: seq<Step>)
    requires forall i :: 0 <= i < |steps| ==> Whole(steps[i].bytes)
    ensures Whole(Bytes(steps))
  {
    if steps == [] {
    } else {
      WholeBytes(Front(steps));
    }
  }

  /** And pieces that all succeed, or all fail, leave what one completion of all their bytes would leave. */
  lemma {:induction false} RunComposes(bs: seq<Bio>, steps: seq<Step>, failed: bool)
    requires AllConsistent(bs) && forall i :: 0 <= i < |steps| ==> Whole(steps[i].bytes) && steps[i].failed == failed
    ensures Run(bs, steps) == Advance(bs, Bytes(steps), failed)
  {
    if steps == [] {
      assert bs == [] || [bs[0]] + bs[1..] == bs;
    } else {
      RunComposes(bs, Front(steps), failed);
      WholeBytes(Front(steps));
      assert Whole(Last(steps).bytes) && Last(steps).failed == failed;
      CompletionComposes(bs, Bytes(Front(steps)), Last(steps).bytes, failed);
    }
  }
}
