/** elv_dispatch_sort (block/elevator.c) keeps the end of the dispatch queue sorted like a one-way elevator. */
module DispatchSort {

  /** `kind` stands for direction and discard, `stop` for REQ_SOFTBARRIER, REQ_HARDBARRIER or REQ_STARTED. `mark` is
      history that no step reads. */
  datatype Rq = Rq(id: nat, pos: nat, end: nat, kind: nat, stop: bool, mark: Mark)

  /** The boundary a request came in at, how often the boundary had moved by then, and whether the request was put at
      the end without sorting. */
  datatype Mark = Mark(boundary: nat, era: nat, tail: bool)

  /** The order of a one-way elevator at `boundary`: upwards from there, then upwards from the start. */
  predicate Before(boundary: nat, a: Rq, b: Rq) {
    if (a.pos >= boundary) == (b.pos >= boundary) then a.pos < b.pos else a.pos >= boundary
  }

  /** The scan stops behind `pos`. */
  predicate Stops(boundary: nat, rq: Rq, pos: Rq) {
    pos.kind != rq.kind || pos.stop || !Before(boundary, rq, pos)
  }

  /** Where the scan from the end of the queue stops. */
  function Place(queue: seq<Rq>, boundary: nat, rq: Rq): nat {
    if queue == [] || Stops(boundary, rq, queue[|queue| - 1]) then |queue|
    else Place(queue[..|queue| - 1], boundary, rq)
  }

  lemma {:induction false} PlaceIs(queue: seq<Rq>, boundary: nat, rq: Rq, i: nat)
    requires i <= |queue| && (forall k :: i <= k < |queue| ==> !Stops(boundary, rq, queue[k]))
    requires i == 0 || Stops(boundary, rq, queue[i - 1])
    ensures i == Place(queue, boundary, rq)
  {
    if i == |queue| {
    } else {
      PlaceIs(queue[..|queue| - 1], boundary, rq, i);
    }
  }

  lemma {:induction false} PlaceFacts(queue: seq<Rq>, boundary: nat, rq: Rq)
    ensures var i := Place(queue, boundary, rq);
            i <= |queue| && (forall k :: i <= k < |queue| ==> !Stops(boundary, rq, queue[k]))
              && (i == 0 || Stops(boundary, rq, queue[i - 1]))
  {
    if queue == [] || Stops(boundary, rq, queue[|queue| - 1]) {
    } else {
      PlaceFacts(queue[..|queue| - 1], boundary, rq);
    }
  }

  /** The queue with rq put in. */
  function Put(queue: seq<Rq>, boundary: nat, rq: Rq): seq<Rq> {
    PlaceFacts(queue, boundary, rq);
    var i := Place(queue, boundary, rq);
    queue[..i] + [rq] + queue[i..]
  }

  /** elv_dispatch_sort. */
  method Insert(queue: seq<Rq>, boundary: nat, rq: Rq) returns (queue': seq<Rq>)
    ensures queue' == Put(queue, boundary, rq)
  {
    var i: nat := |queue|;
    while i > 0
      invariant i <= |queue| && forall k :: i <= k < |queue| ==> !Stops(boundary, rq, queue[k])
    {
      var pos := queue[i - 1];
      if pos.kind != rq.kind { break; }
      if pos.stop { break; }
      if rq.pos >= boundary {
        if pos.pos < boundary {
          i := i - 1;
          continue;
        }
      } else {
        if pos.pos >= boundary { break; }
      }
      if rq.pos >= pos.pos { break; }
      i := i - 1;
    }
    PlaceIs(queue, boundary, rq, i);
    queue' := queue[..i] + [rq] + queue[i..];
  }

  // ----- the stable sort

  predicate SortedBy(boundary: nat, s: seq<Rq>) {
    forall i, j :: 0 <= i < j < |s| ==> !Before(boundary, s[j], s[i])
  }

  /** The requests at sector x, in order. */
  function SameKey(s: seq<Rq>, x: nat): seq<Rq> {
    if s == [] then []
    else SameKey(s[..|s| - 1], x) + if s[|s| - 1].pos == x then [s[|s| - 1]] else []
  }

  /** `s` is the stable sort of `rs`: sorted, the same requests, and those at one sector still in their order. */
  ghost predicate IsStableSort(boundary: nat, rs: seq<Rq>, s: seq<Rq>) {
    && SortedBy(boundary, s) && multiset(s) == multiset(rs)
    && forall x :: SameKey(s, x) == SameKey(rs, x)
  }

  lemma {:induction false} SameKeyPlus(a: seq<Rq>, b: seq<Rq>, x: nat)
    ensures SameKey(a + b, x) == SameKey(a, x) + SameKey(b, x)
  {
    if b == [] {
      assert a + b == a;
    } else {
      var f := b[..|b| - 1];
      assert (a + b)[..|a + b| - 1] == a + f;
      SameKeyPlus(a, f, x);
    }
  }

  lemma {:induction false} SameKeyNone(s: seq<Rq>, x: nat)
    requires forall r :: r in s ==> r.pos != x
    ensures SameKey(s, x) == []
  {
    if s == [] {
    } else {
      assert s[|s| - 1] in s;
      SameKeyNone(s[..|s| - 1], x);
    }
  }

  /** Inserting behind everything not after it keeps the stable sort. */
  lemma InsertStable(boundary: nat, rs: seq<Rq>, s: seq<Rq>, rq: Rq, i: nat)
    requires IsStableSort(boundary, rs, s) && i <= |s|
    requires forall k :: i <= k < |s| ==> Before(boundary, rq, s[k])
    requires i == 0 || !Before(boundary, rq, s[i - 1])
    ensures IsStableSort(boundary, rs + [rq], s[..i] + [rq] + s[i..])
  {
    var t := s[..i] + [rq] + s[i..];
    assert s == s[..i] + s[i..];
    assert forall k :: i <= k < |s| ==> s[k].pos != rq.pos;
    forall x ensures SameKey(t, x) == SameKey(rs + [rq], x) { InsertSameKey(rs, s, rq, i, x); }
    InsertSorted(boundary, s, rq, i);
  }

  lemma InsertSameKey(rs: seq<Rq>, s: seq<Rq>, rq: Rq, i: nat, x: nat)
    requires i <= |s| && SameKey(s, x) == SameKey(rs, x) && forall k :: i <= k < |s| ==> s[k].pos != rq.pos
    ensures SameKey(s[..i] + [rq] + s[i..], x) == SameKey(rs + [rq], x)
  {
    assert s == s[..i] + s[i..];
    SameKeyPlus(s[..i], s[i..], x);
    SameKeyPlus(s[..i], [rq], x);
    SameKeyPlus(s[..i] + [rq], s[i..], x);
    SameKeyPlus(rs, [rq], x);
    if x == rq.pos { SameKeyNone(s[i..], x); } else { SameKeyOther(rq, x); }
  }

  lemma SameKeyOther(rq: Rq, x: nat)
    requires rq.pos != x
    ensures SameKey([rq], x) == []
  {
    assert [rq][..0] == [];
  }

  lemma InsertSorted(boundary: nat, s: seq<Rq>, rq: Rq, i: nat)
    requires SortedBy(boundary, s) && i <= |s|
    requires forall k :: i <= k < |s| ==> Before(boundary, rq, s[k])
    requires i == 0 || !Before(boundary, rq, s[i - 1])
    ensures SortedBy(boundary, s[..i] + [rq] + s[i..])
  {
    var t := s[..i] + [rq] + s[i..];
    forall j, k | 0 <= j < k < |t| ensures !Before(boundary, t[k], t[j]) {
      if k == i {
        assert t[j] == s[j] && (j == i - 1 || !Before(boundary, s[i - 1], s[j]));
      }
    }
  }

  // ----- requests of several kinds

  /** Everything put in, one after another. */
  function PutAll(queue: seq<Rq>, boundary: nat, rs: seq<Rq>): seq<Rq> {
    if rs == [] then queue else Put(PutAll(queue, boundary, rs[..|rs| - 1]), boundary, rs[|rs| - 1])
  }

  /** The maximal runs of one kind, in the order of arrival. */
  function Runs(rs: seq<Rq>): seq<seq<Rq>> {
    if rs == [] then []
    else AddTo(Runs(rs[..|rs| - 1]), rs[|rs| - 1])
  }

  /** Does a request go on with the last run? */
  predicate GoesOn(runs: seq<seq<Rq>>, x: Rq) {
    runs != [] && runs[|runs| - 1] != [] && runs[|runs| - 1][0].kind == x.kind
  }

  function AddTo(runs: seq<seq<Rq>>, x: Rq): seq<seq<Rq>> {
    if GoesOn(runs, x) then runs[..|runs| - 1] + [runs[|runs| - 1] + [x]] else runs + [[x]]
  }

  /** A run of requests of one kind that may all be passed. */
  predicate IsRun(s: seq<Rq>) { s != [] && forall r :: r in s ==> r.kind == s[0].kind && !r.stop }

  /** Runs, of which neighbours differ in kind. */
  predicate AreRuns(runs: seq<seq<Rq>>) {
    && (forall i :: 0 <= i < |runs| ==> IsRun(runs[i]))
    && (|runs| > 1 ==> runs[|runs| - 2][0].kind != runs[|runs| - 1][0].kind)
  }

  lemma AddedRuns(runs: seq<seq<Rq>>, x: Rq)
    requires AreRuns(runs) && !x.stop
    ensures AreRuns(AddTo(runs, x))
  {
    var rs := AddTo(runs, x);
    if GoesOn(runs, x) {
      assert IsRun(runs[|runs| - 1]);
      forall i | 0 <= i < |rs| ensures IsRun(rs[i]) { assert i < |runs| - 1 ==> rs[i] == runs[i]; }
    } else {
      forall i | 0 <= i < |rs| ensures IsRun(rs[i]) { assert i < |runs| ==> rs[i] == runs[i]; }
      if runs != [] { assert IsRun(runs[|runs| - 1]); }
    }
  }

  lemma {:induction false} RunsAreRuns(rs: seq<Rq>)
    requires forall r :: r in rs ==> !r.stop
    ensures AreRuns(Runs(rs)) && (rs == [] <==> Runs(rs) == [])
  {
    if rs == [] {
    } else {
      RunsAreRuns(rs[..|rs| - 1]);
      assert rs[|rs| - 1] in rs;
      AddedRuns(Runs(rs[..|rs| - 1]), rs[|rs| - 1]);
    }
  }

  function Flat(ps: seq<seq<Rq>>): seq<Rq> { if ps == [] then [] else Flat(ps[..|ps| - 1]) + ps[|ps| - 1] }

  /** Block by block the stable sort of the runs. */
  ghost predicate Blocked(boundary: nat, runs: seq<seq<Rq>>, blocks: seq<seq<Rq>>) {
    |blocks| == |runs| && forall i :: 0 <= i < |runs| ==> IsStableSort(boundary, runs[i], blocks[i])
  }

  /** Nothing inserted into `s` gets past the end of `prefix`. */
  lemma Shifted(prefix: seq<Rq>, s: seq<Rq>, i: nat, rq: Rq)
    requires i <= |s|
    ensures var all := prefix + s; all[..|prefix| + i] + [rq] + all[|prefix| + i..] == prefix + (s[..i] + [rq] + s[i..])
  {
    var all := prefix + s;
    assert all[..|prefix| + i] == prefix + s[..i] && all[|prefix| + i..] == s[i..];
  }

  lemma PlaceAfter(prefix: seq<Rq>, s: seq<Rq>, boundary: nat, rq: Rq)
    requires prefix == [] || Stops(boundary, rq, prefix[|prefix| - 1])
    ensures Put(prefix + s, boundary, rq) == prefix + Put(s, boundary, rq)
  {
    PlaceFacts(s, boundary, rq);
    var i := Place(s, boundary, rq);
    forall k | |prefix| + i <= k < |prefix + s| ensures !Stops(boundary, rq, (prefix + s)[k]) {
      assert (prefix + s)[k] == s[k - |prefix|];
    }
    PlaceIs(prefix + s, boundary, rq, |prefix| + i);
    Shifted(prefix, s, i, rq);
  }

  /** A request put into the block of its kind. */
  lemma PutStable(boundary: nat, run: seq<Rq>, s: seq<Rq>, rq: Rq)
    requires IsRun(run) && rq.kind == run[0].kind && !rq.stop && IsStableSort(boundary, run, s)
    ensures IsStableSort(boundary, run + [rq], Put(s, boundary, rq))
  {
    SameMembers(run, s);
    PlaceFacts(s, boundary, rq);
    var i := Place(s, boundary, rq);
    forall k | 0 <= k < |s| ensures s[k].kind == rq.kind && !s[k].stop { assert s[k] in s; }
    InsertStable(boundary, run, s, rq, i);
  }

  lemma SameMembers(run: seq<Rq>, s: seq<Rq>)
    requires multiset(s) == multiset(run)
    ensures |s| == |run| && forall r :: r in s <==> r in run
  {
    assert |multiset(s)| == |multiset(run)|;
    assert forall r :: r in s <==> r in multiset(s);
    assert forall r :: r in run <==> r in multiset(run);
  }

  lemma StableOne(boundary: nat, rq: Rq)
    ensures IsStableSort(boundary, [rq], [rq])
  {
  }

  /** The queue ends before the requests to come: it is empty, or they may not pass its last one. */
  predicate Ends(queue: seq<Rq>, rs: seq<Rq>) {
    queue == [] || rs == [] || queue[|queue| - 1].stop || queue[|queue| - 1].kind != rs[0].kind
  }

  /** Requests of any kinds, put in one after another behind the end of a queue: what stands behind it is, run by run in
      the order of arrival, the stable one-way elevator sort of each maximal run of one kind, and nothing before it
      moves. */
  lemma {:induction false} SortsRuns(queue: seq<Rq>, boundary: nat, rs: seq<Rq>) returns (blocks: seq<seq<Rq>>)
    requires Ends(queue, rs) && forall r :: r in rs ==> !r.stop
    ensures PutAll(queue, boundary, rs) == queue + Flat(blocks) && Blocked(boundary, Runs(rs), blocks)
  {
    if rs == [] {
      blocks := [];
    } else {
      var before, x := rs[..|rs| - 1], rs[|rs| - 1];
      var bs := SortsRuns(queue, boundary, before);
      blocks := PutInBlocks(queue, boundary, before, x, bs);
    }
  }

  lemma PutInBlocks(queue: seq<Rq>, boundary: nat, rs: seq<Rq>, x: Rq, bs: seq<seq<Rq>>) returns (blocks: seq<seq<Rq>>)
    requires Ends(queue, rs + [x]) && !x.stop && (forall r :: r in rs ==> !r.stop) && Blocked(boundary, Runs(rs), bs)
    ensures Put(queue + Flat(bs), boundary, x) == queue + Flat(blocks) && Blocked(boundary, Runs(rs + [x]), blocks)
  {
    assert (rs + [x])[..|rs|] == rs;
    RunsAreRuns(rs);
    if GoesOn(Runs(rs), x) {
      assert (rs + [x])[0] == rs[0];
      BeforeLast(queue, boundary, rs, x, bs);
      blocks := PutInLast(queue, boundary, Runs(rs), x, bs);
    } else {
      EndOfBlocks(queue, boundary, rs, x, bs);
      blocks := PutBehind(queue, boundary, Runs(rs), x, bs);
    }
  }

  lemma BlockedLast(boundary: nat, runs: seq<seq<Rq>>, bs: seq<seq<Rq>>, x: Rq, block: seq<Rq>)
    requires Blocked(boundary, runs, bs) && GoesOn(runs, x) && IsStableSort(boundary, runs[|runs| - 1] + [x], block)
    ensures Blocked(boundary, AddTo(runs, x), bs[..|bs| - 1] + [block])
  {
    var all, blocks := AddTo(runs, x), bs[..|bs| - 1] + [block];
    forall i | 0 <= i < |all| ensures IsStableSort(boundary, all[i], blocks[i]) {
      if i < |runs| - 1 { assert all[i] == runs[i] && blocks[i] == bs[i]; }
    }
  }

  lemma FlatLast(queue: seq<Rq>, bs: seq<seq<Rq>>, block: seq<Rq>)
    ensures queue + Flat(bs + [block]) == (queue + Flat(bs)) + block
  {
    assert (bs + [block])[..|bs|] == bs;
  }

  lemma PutInLast(queue: seq<Rq>, boundary: nat, runs: seq<seq<Rq>>, x: Rq, bs: seq<seq<Rq>>)
    returns (blocks: seq<seq<Rq>>)
    requires Blocked(boundary, runs, bs) && GoesOn(runs, x) && IsRun(runs[|runs| - 1]) && !x.stop
    requires var q := queue + Flat(bs[..|bs| - 1]); q == [] || Stops(boundary, x, q[|q| - 1])
    ensures Put(queue + Flat(bs), boundary, x) == queue + Flat(blocks) && Blocked(boundary, AddTo(runs, x), blocks)
  {
    var front, last := bs[..|bs| - 1], bs[|bs| - 1];
    assert bs == front + [last];
    PutStable(boundary, runs[|runs| - 1], last, x);
    PlaceAfter(queue + Flat(front), last, boundary, x);
    var block := Put(last, boundary, x);
    FlatLast(queue, front, last);
    FlatLast(queue, front, block);
    BlockedLast(boundary, runs, bs, x, block);
    blocks := front + [block];
  }

  lemma PutBehind(queue: seq<Rq>, boundary: nat, runs: seq<seq<Rq>>, x: Rq, bs: seq<seq<Rq>>)
    returns (blocks: seq<seq<Rq>>)
    requires Blocked(boundary, runs, bs) && !GoesOn(runs, x)
    requires var q := queue + Flat(bs); q == [] || Stops(boundary, x, q[|q| - 1])
    ensures Put(queue + Flat(bs), boundary, x) == queue + Flat(blocks) && Blocked(boundary, AddTo(runs, x), blocks)
  {
    BlockedMore(boundary, runs, bs, x);
    blocks := bs + [[x]];
    PutLast(queue + Flat(bs), boundary, x);
    FlatLast(queue, bs, [x]);
  }

  lemma PutLast(queue: seq<Rq>, boundary: nat, x: Rq)
    requires queue == [] || Stops(boundary, x, queue[|queue| - 1])
    ensures Put(queue, boundary, x) == queue + [x]
  {
    PlaceIs(queue, boundary, x, |queue|);
    assert queue[..|queue|] + [x] + queue[|queue|..] == queue + [x];
  }

  lemma BlockedMore(boundary: nat, runs: seq<seq<Rq>>, bs: seq<seq<Rq>>, x: Rq)
    requires Blocked(boundary, runs, bs)
    ensures Blocked(boundary, runs + [[x]], bs + [[x]])
  {
    StableOne(boundary, x);
    assert forall i :: 0 <= i < |runs| ==> (runs + [[x]])[i] == runs[i] && (bs + [[x]])[i] == bs[i];
  }

  /** The last of some blocks ends in a request of its run. */
  lemma LastOfBlocks(boundary: nat, runs: seq<seq<Rq>>, bs: seq<seq<Rq>>)
    requires Blocked(boundary, runs, bs) && runs != [] && IsRun(runs[|runs| - 1])
    ensures Flat(bs) != [] && Flat(bs)[|Flat(bs)| - 1].kind == runs[|runs| - 1][0].kind
  {
    var last, run := bs[|bs| - 1], runs[|runs| - 1];
    SameMembers(run, last);
    assert last[|last| - 1] in last;
  }

  lemma EndOfBlocks(queue: seq<Rq>, boundary: nat, rs: seq<Rq>, x: Rq, bs: seq<seq<Rq>>)
    requires Ends(queue, rs + [x]) && (forall r :: r in rs ==> !r.stop) && Blocked(boundary, Runs(rs), bs)
    requires !GoesOn(Runs(rs), x)
    ensures var q := queue + Flat(bs); q == [] || Stops(boundary, x, q[|q| - 1])
  {
    RunsAreRuns(rs);
    if Runs(rs) != [] {
      assert IsRun(Runs(rs)[|Runs(rs)| - 1]);
      LastOfBlocks(boundary, Runs(rs), bs);
    }
  }

  /** What stands before the last block stops a request of its kind. */
  lemma BeforeLast(queue: seq<Rq>, boundary: nat, rs: seq<Rq>, x: Rq, bs: seq<seq<Rq>>)
    requires rs != [] && Ends(queue, rs) && (forall r :: r in rs ==> !r.stop) && Blocked(boundary, Runs(rs), bs)
    requires GoesOn(Runs(rs), x)
    ensures var q := queue + Flat(bs[..|bs| - 1]); q == [] || Stops(boundary, x, q[|q| - 1])
  {
    RunsAreRuns(rs);
    var runs: seq<seq<Rq>> := Runs(rs);
    FirstRun(rs);
    if |runs| > 1 {
      assert IsRun(runs[|runs| - 2]);
      LastOfBlocks(boundary, runs[..|runs| - 1], bs[..|bs| - 1]);
    }
  }

  lemma {:induction false} FirstRun(rs: seq<Rq>)
    requires rs != [] && forall r :: r in rs ==> !r.stop
    ensures Runs(rs) != [] && Runs(rs)[0] != [] && Runs(rs)[0][0] == rs[0]
  {
    if |rs| > 1 {
      FirstRun(rs[..|rs| - 1]);
    } else {
      assert rs[..0] == [];
    }
  }

  /** The requests put in, in place. */
  method InsertAll(queue: seq<Rq>, boundary: nat, rs: seq<Rq>) returns (queue': seq<Rq>, ghost blocks: seq<seq<Rq>>)
    requires Ends(queue, rs) && forall r :: r in rs ==> !r.stop
    ensures queue' == queue + Flat(blocks) && Blocked(boundary, Runs(rs), blocks)
  {
    queue' := queue;
    for n := 0 to |rs|
      invariant queue' == PutAll(queue, boundary, rs[..n])
    {
      queue' := Insert(queue', boundary, rs[n]);
      assert rs[..n + 1][..n] == rs[..n];
    }
    assert rs[..|rs|] == rs;
    blocks := SortsRuns(queue, boundary, rs);
  }

  function Plain(id: nat, pos: nat, kind: nat): Rq { Rq(id, pos, pos + 1, kind, false, Mark(0, 0, false)) }

  /** Requests of two kinds are not sorted as a whole. */
  lemma KindsApart()
    ensures var a, b, c := Plain(0, 10, 0), Plain(1, 5, 1), Plain(2, 3, 0);
            PutAll([], 0, [a, b, c]) == [a, b, c] && !SortedBy(0, [a, b, c])
  {
    var a, b, c := Plain(0, 10, 0), Plain(1, 5, 1), Plain(2, 3, 0);
    assert [a, b, c][..2] == [a, b] && [a, b][..1] == [a] && [a][..0] == [];
    PlaceIs([], 0, a, 0);
    PlaceIs([a], 0, b, 1);
    PlaceIs([a, b], 0, c, 2);
    assert PutAll([], 0, []) == [];
    assert PutAll([], 0, [a]) == [a];
    assert PutAll([], 0, [a, b]) == [a, b];
    assert Before(0, [a, b, c][2], [a, b, c][0]);
  }
}
