/** With what status a bio ends (req_bio_endio in block/blk-core.c) when its request is completed piece by piece, some
    of the pieces failed. */
module CompletionStatus {
  import opened Segments
  import opened Recount
  import opened Completion

  /** Where bio k of a chain begins, in bytes from the start of the chain. */
  function From(bs: seq<Bio>, k: nat): nat
    requires k <= |bs|
  {
    Total(bs[..k])
  }

  /** Step j does byte x of the chain. */
  predicate Does(steps: seq<Step>, j: nat, x: nat)
    requires j < |steps|
  {
    Bytes(steps[..j]) <= x < Bytes(steps[..j + 1])
  }

  /** A failed step does some byte from a on and before b. */
  ghost predicate Spoilt(steps: seq<Step>, a: nat, b: nat) {
    exists j: nat, x: nat {:trigger Does(steps, j, x)} ::
      j < |steps| && steps[j].failed && a <= x < b && Does(steps, j, x)
  }

  /** The bio arrived not up to date, or a failed step does one of its bytes. */
  ghost predicate Bad(bs: seq<Bio>, steps: seq<Step>, k: nat)
    requires k < |bs|
  {
    !bs[k].uptodate || Spoilt(steps, From(bs, k), From(bs, k + 1))
  }

  // ----- one step

  lemma TotalFront(bs: seq<Bio>, k: nat)
    requires bs != [] && k < |bs|
    ensures From(bs, k + 1) == bs[0].size + From(bs[1..], k)
  {
    assert bs[..k + 1][1..] == bs[1..][..k];
  }

  lemma {:induction false} FromRises(bs: seq<Bio>, k: nat)
    requires AllFilled(bs) && k < |bs|
    ensures From(bs, k) < From(bs, k + 1)
  {
    assert Filled(bs[0]);
    TotalFront(bs, k);
    if k == 0 {
    } else {
      TotalFront(bs, k - 1);
      FromRises(bs[1..], k - 1);
    }
  }

  lemma {:induction false} FromGrows(bs: seq<Bio>, k: nat, m: nat)
    requires k <= m <= |bs|
    ensures From(bs, k) <= From(bs, m)
  {
    if k == m || k == 0 {
    } else {
      TotalFront(bs, k - 1);
      TotalFront(bs, m - 1);
      FromGrows(bs[1..], k - 1, m - 1);
    }
  }

  lemma {:induction false} AdvanceCounts(bs: seq<Bio>, n: nat, failed: bool)
    ensures var r := Advance(bs, n, failed); |r.ended| + |r.rest| == |bs|
  {
    if bs == [] || n < bs[0].size {
    } else {
      AdvanceCounts(bs[1..], n - bs[0].size, failed);
    }
  }

  /** What is left begins where the bytes done end. */
  lemma {:induction false} AdvanceFrom(bs: seq<Bio>, n: nat, failed: bool, i: nat)
    requires 0 < i <= |Advance(bs, n, failed).rest|
    ensures var r := Advance(bs, n, failed);
            |r.ended| + i <= |bs| && From(r.rest, i) + n == From(bs, |r.ended| + i)
  {
    var r := Advance(bs, n, failed);
    AdvanceCounts(bs, n, failed);
    if n < bs[0].size {
      assert r.rest[1..] == bs[1..];
      TotalFront(r.rest, i - 1);
      TotalFront(bs, i - 1);
    } else {
      AdvanceFrom(bs[1..], n - bs[0].size, failed, i);
      TotalFront(bs, |r.ended| + i - 1);
    }
  }

  lemma {:induction false} RestFrom(bs: seq<Bio>, n: nat, failed: bool)
    ensures var r := Advance(bs, n, failed); |r.ended| <= |bs| && From(bs, |r.ended|) <= n
  {
    if bs == [] || n < bs[0].size {
    } else {
      RestFrom(bs[1..], n - bs[0].size, failed);
      TotalFront(bs, |Advance(bs, n, failed).ended| - 1);
    }
  }

  /** One step: a bio that ends does so with an error if the step failed or it was not up to date; of those left, those
      that the step reached are not up to date if it failed. */
  lemma {:induction false} AdvanceStatus(bs: seq<Bio>, n: nat, failed: bool, k: nat)
    requires AllFilled(bs) && k < |bs|
    ensures var r := Advance(bs, n, failed);
            && |r.ended| + |r.rest| == |bs|
            && (k < |r.ended| ==> r.ended[k] == Ended(bs[k].id, failed || !bs[k].uptodate) && From(bs, k + 1) <= n)
            && (k >= |r.ended| ==> n < From(bs, k + 1)
                                   && r.rest[k - |r.ended|].uptodate ==
                                      (bs[k].uptodate && !(failed && From(bs, k) < n)))
  {
    assert Filled(bs[0]);
    AdvanceCounts(bs, n, failed);
    TotalFront(bs, k);
    if n < bs[0].size {
      if k > 0 { TotalFront(bs, k - 1); }
    } else if k > 0 {
      AdvanceStatus(bs[1..], n - bs[0].size, failed, k - 1);
      TotalFront(bs, k - 1);
    }
  }

  // ----- whole runs

  lemma DoesBefore(steps: seq<Step>, j: nat, x: nat)
    requires j + 1 < |steps|
    ensures Does(steps, j, x) <==> Does(Front(steps), j, x)
  {
    assert steps[..j] == Front(steps)[..j] && steps[..j + 1] == Front(steps)[..j + 1];
  }

  lemma DoesLast(steps: seq<Step>, x: nat)
    requires steps != []
    ensures Does(steps, |steps| - 1, x) <==> Bytes(Front(steps)) <= x < Bytes(Front(steps)) + Last(steps).bytes
  {
    assert steps[..|steps| - 1] == Front(steps) && steps[..|steps|] == steps;
  }

  /** One more step spoils what it does if it fails. */
  lemma SpoiltMore(steps: seq<Step>, a: nat, b: nat)
    requires steps != [] && a < b
    ensures var done, st := Bytes(Front(steps)), Last(steps);
            Spoilt(steps, a, b) <==> Spoilt(Front(steps), a, b)
                                     || (st.failed && st.bytes > 0 && a < done + st.bytes && done < b)
  {
    var front, done, st := Front(steps), Bytes(Front(steps)), Last(steps);
    if Spoilt(steps, a, b) {
      var j: nat, x: nat :| j < |steps| && steps[j].failed && a <= x < b && Does(steps, j, x);
      if j + 1 < |steps| { DoesBefore(steps, j, x); } else { DoesLast(steps, x); }
    }
    if Spoilt(front, a, b) {
      var j: nat, x: nat :| j < |front| && front[j].failed && a <= x < b && Does(front, j, x);
      DoesBefore(steps, j, x);
      assert steps[j].failed && Does(steps, j, x);
    }
    if st.failed && st.bytes > 0 && a < done + st.bytes && done < b {
      var x := if a < done then done else a;
      DoesLast(steps, x);
      assert steps[|steps| - 1].failed && Does(steps, |steps| - 1, x);
    }
  }

  /** The chain after one more step. */
  function Onward(p: Progress, st: Step): Progress {
    var t := Advance(p.rest, st.bytes, st.failed);
    Progress(t.rest, p.ended + t.ended)
  }

  lemma RunOnward(bs: seq<Bio>, steps: seq<Step>)
    requires steps != []
    ensures Run(bs, steps) == Onward(Run(bs, Front(steps)), Last(steps))
  {
  }

  /** What has become of bio k. */
  ghost predicate StatusAt(bs: seq<Bio>, steps: seq<Step>, r: Progress, k: nat)
    requires k < |bs|
  {
    && |r.ended| + |r.rest| == |bs|
    && if k < |r.ended| then r.ended[k].failed == Bad(bs, steps, k) && From(bs, k + 1) <= Bytes(steps)
       else r.rest[k - |r.ended|].uptodate == !Bad(bs, steps, k) && Bytes(steps) < From(bs, k + 1)
  }

  ghost predicate AllStatus(bs: seq<Bio>, steps: seq<Step>, r: Progress) {
    forall k: nat {:trigger StatusAt(bs, steps, r, k)} :: k < |bs| ==> StatusAt(bs, steps, r, k)
  }

  ghost predicate LocatedAt(bs: seq<Bio>, steps: seq<Step>, r: Progress, i: nat)
    requires i <= |r.rest| && |r.ended| + |r.rest| == |bs|
  {
    From(r.rest, i) + Bytes(steps) == From(bs, |r.ended| + i)
  }

  /** Where the bios that are left lie. */
  ghost predicate Located(bs: seq<Bio>, steps: seq<Step>, r: Progress) {
    && |r.ended| + |r.rest| == |bs| && AllFilled(r.rest)
    && (forall i: nat {:trigger LocatedAt(bs, steps, r, i)} :: 0 < i <= |r.rest| ==> LocatedAt(bs, steps, r, i))
    && (r.rest != [] ==> From(bs, |r.ended|) <= Bytes(steps))
  }

  lemma {:induction false} RunLocated(bs: seq<Bio>, steps: seq<Step>)
    requires AllFilled(bs)
    ensures Located(bs, steps, Run(bs, steps))
  {
    if steps == [] {
      forall i: nat {:trigger LocatedAt(bs, steps, Run(bs, steps), i)} | 0 < i <= |bs|
        ensures LocatedAt(bs, steps, Run(bs, steps), i) {}
    } else {
      RunLocated(bs, Front(steps));
      RunOnward(bs, steps);
      LocatedOnward(bs, steps, Run(bs, Front(steps)));
    }
  }

  lemma LocatedOnward(bs: seq<Bio>, steps: seq<Step>, p: Progress)
    requires steps != [] && Located(bs, Front(steps), p)
    ensures Located(bs, steps, Onward(p, Last(steps)))
  {
    var st, r := Last(steps), Onward(p, Last(steps));
    AdvanceCounts(p.rest, st.bytes, st.failed);
    AdvanceFilled(p.rest, st.bytes, st.failed);
    forall i: nat {:trigger LocatedAt(bs, steps, r, i)} | 0 < i <= |r.rest| ensures LocatedAt(bs, steps, r, i) {
      LocatedMoves(bs, steps, p, i);
    }
    if r.rest != [] { RestBegins(bs, steps, p); }
  }

  lemma LocatedMoves(bs: seq<Bio>, steps: seq<Step>, p: Progress, i: nat)
    requires steps != [] && Located(bs, Front(steps), p) && 0 < i <= |Onward(p, Last(steps)).rest|
    ensures var r := Onward(p, Last(steps)); |r.ended| + |r.rest| == |bs| && LocatedAt(bs, steps, r, i)
  {
    var st := Last(steps);
    AdvanceCounts(p.rest, st.bytes, st.failed);
    AdvanceFrom(p.rest, st.bytes, st.failed, i);
    assert LocatedAt(bs, Front(steps), p, |Advance(p.rest, st.bytes, st.failed).ended| + i);
  }

  lemma RestBegins(bs: seq<Bio>, steps: seq<Step>, p: Progress)
    requires steps != [] && Located(bs, Front(steps), p) && Onward(p, Last(steps)).rest != []
    ensures var r := Onward(p, Last(steps)); |r.ended| <= |bs| && From(bs, |r.ended|) <= Bytes(steps)
  {
    var st := Last(steps);
    var e := |Advance(p.rest, st.bytes, st.failed).ended|;
    AdvanceCounts(p.rest, st.bytes, st.failed);
    RestFrom(p.rest, st.bytes, st.failed);
    Begins(bs, Front(steps), p, e, st.bytes);
  }

  lemma Begins(bs: seq<Bio>, steps: seq<Step>, p: Progress, e: nat, n: nat)
    requires Located(bs, steps, p) && e < |p.rest| && From(p.rest, e) <= n
    ensures From(bs, |p.ended| + e) <= Bytes(steps) + n
  {
    if e > 0 { assert LocatedAt(bs, steps, p, e); }
  }

  /** One more step, for a bio that has ended. */
  lemma StatusStays(bs: seq<Bio>, steps: seq<Step>, p: Progress, r: Progress, k: nat)
    requires AllFilled(bs) && steps != [] && k < |bs| && StatusAt(bs, Front(steps), p, k) && k < |p.ended|
    requires p.ended <= r.ended && |r.ended| + |r.rest| == |bs|
    ensures StatusAt(bs, steps, r, k)
  {
    FromRises(bs, k);
    SpoiltMore(steps, From(bs, k), From(bs, k + 1));
  }

  /** Where bio i of the rest lies in the chain. */
  lemma Lies(bs: seq<Bio>, steps: seq<Step>, p: Progress, i: nat)
    requires AllFilled(bs) && Located(bs, steps, p) && i < |p.rest|
    ensures var k, done := |p.ended| + i, Bytes(steps);
            && From(p.rest, i + 1) + done == From(bs, k + 1) && done < From(bs, k + 1)
            && (i > 0 ==> From(p.rest, i) + done == From(bs, k))
               && (i == 0 ==> From(p.rest, i) == 0 && From(bs, k) <= done)
  {
    assert LocatedAt(bs, steps, p, i + 1) && (i > 0 ==> LocatedAt(bs, steps, p, i));
    FromRises(p.rest, i);
    FromGrows(p.rest, 0, i);
  }

  /** And for one that was left. */
  lemma StatusMoves(bs: seq<Bio>, steps: seq<Step>, p: Progress, i: nat)
    requires AllFilled(bs) && steps != [] && Located(bs, Front(steps), p) && i < |p.rest|
    requires StatusAt(bs, Front(steps), p, |p.ended| + i)
    ensures StatusAt(bs, steps, Onward(p, Last(steps)), |p.ended| + i)
  {
    var k, st := |p.ended| + i, Last(steps);
    AdvanceStatus(p.rest, st.bytes, st.failed, i);
    Lies(bs, Front(steps), p, i);
    FromRises(bs, k);
    SpoiltMore(steps, From(bs, k), From(bs, k + 1));
  }

  lemma StatusStep(bs: seq<Bio>, steps: seq<Step>, p: Progress, k: nat)
    requires AllFilled(bs) && steps != [] && k < |bs| && Located(bs, Front(steps), p)
             && StatusAt(bs, Front(steps), p, k)
    ensures StatusAt(bs, steps, Onward(p, Last(steps)), k)
  {
    AdvanceCounts(p.rest, Last(steps).bytes, Last(steps).failed);
    if k < |p.ended| {
      StatusStays(bs, steps, p, Onward(p, Last(steps)), k);
    } else {
      StatusMoves(bs, steps, p, k - |p.ended|);
    }
  }

  lemma {:induction false} RunStatus(bs: seq<Bio>, steps: seq<Step>)
    requires AllFilled(bs)
    ensures AllStatus(bs, steps, Run(bs, steps))
  {
    if steps == [] {
      forall k: nat {:trigger StatusAt(bs, steps, Run(bs, steps), k)} | k < |bs|
        ensures StatusAt(bs, steps, Run(bs, steps), k) {
        FromGrows(bs, 0, k);
        FromRises(bs, k);
      }
    } else {
      RunStatus(bs, Front(steps));
      RunLocated(bs, Front(steps));
      RunOnward(bs, steps);
      AllStep(bs, steps, Run(bs, Front(steps)));
    }
  }

  lemma AllStep(bs: seq<Bio>, steps: seq<Step>, p: Progress)
    requires AllFilled(bs) && steps != [] && Located(bs, Front(steps), p) && AllStatus(bs, Front(steps), p)
    ensures AllStatus(bs, steps, Onward(p, Last(steps)))
  {
    var r := Onward(p, Last(steps));
    forall k: nat {:trigger StatusAt(bs, steps, r, k)} | k < |bs| ensures StatusAt(bs, steps, r, k) {
      assert StatusAt(bs, Front(steps), p, k);
      StatusStep(bs, steps, p, k);
    }
  }

  /** However a request is completed piece by piece, some pieces failed: exactly the bios whose last byte is done have
      ended, in order, and each ended with an error if and only if it arrived not up to date or some failed piece did
      one of its bytes. A bio that is left will remember that. */
  lemma EndsAsItShould(bs: seq<Bio>, steps: seq<Step>, k: nat)
    requires AllFilled(bs) && k < |bs|
    ensures var r := Run(bs, steps);
            && |r.ended| + |r.rest| == |bs| && (k < |r.ended| <==> From(bs, k + 1) <= Bytes(steps))
            && (k < |r.ended| ==> r.ended[k] == Ended(bs[k].id, Bad(bs, steps, k)))
            && (k >= |r.ended| ==> var b := r.rest[k - |r.ended|]; b.id == bs[k].id && b.uptodate == !Bad(bs, steps, k))
  {
    RunStatus(bs, steps);
    var r := Run(bs, steps);
    assert StatusAt(bs, steps, r, k);
    RunConserves(bs, steps);
    assert (EndedIds(r.ended) + Ids(r.rest))[k] == Ids(bs)[k];
  }

  /** A bio of two sectors, the first of which fails. */
  lemma FailsForGood()
    ensures var b := Bio(0, 0, 1024, [Vec(0, 0, 1024)], {}, false, true, 0, SegInfo(1, true, 1024, 1024));
            Run([b], [Step(512, true), Step(512, false)]).ended == [Ended(0, true)]
  {
    var bs := [Bio(0, 0, 1024, [Vec(0, 0, 1024)], {}, false, true, 0, SegInfo(1, true, 1024, 1024))];
    var steps := [Step(512, true), Step(512, false)];
    assert Front(steps) == [Step(512, true)] && Front(Front(steps)) == [];
    assert Run(bs, []) == Progress(bs, []);
    assert Run(bs, Front(steps)).ended == [] + [];
  }
}
