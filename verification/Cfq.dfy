/** CFQ as a whole (block/cfq-iosched.c): requests enter queues, queues take turns, and a forced dispatch empties
    everything. */
module Cfq {
  import opened Basics
  import opened CfqAccounts
  import opened CfqQueueing
  import C = CfqChoose

  function TotalRq(requests: map<nat, Requests>, queues: seq<nat>): nat {
    if queues == [] then 0 else (if queues[0] in requests then |requests[queues[0]].sort| else 0)
                                + TotalRq(requests, queues[1..])
  }

  lemma {:induction false} TotalRqUpdate(requests: map<nat, Requests>, queues: seq<nat>, q: nat, r: Requests)
    requires NoDup(queues) && q in requests
    ensures TotalRq(requests[q := r], queues) == TotalRq(requests, queues) + if q in queues
            then |r.sort| - |requests[q].sort| else 0
  {
    if queues == [] {
    } else {
      TotalRqUpdate(requests, queues[1..], q, r);
      assert queues == [queues[0]] + queues[1..];
      assert q == queues[0] ==> q !in queues[1..];
    }
  }

  lemma {:induction false} TotalRqAtLeast(requests: map<nat, Requests>, queues: seq<nat>, q: nat)
    requires q in queues && q in requests
    ensures TotalRq(requests, queues) >= |requests[q].sort|
  {
    if q == queues[0] {
    } else {
      TotalRqAtLeast(requests, queues[1..], q);
    }
  }

  lemma {:induction false} SomeQueued(requests: map<nat, Requests>, queues: seq<nat>)
    requires TotalRq(requests, queues) > 0
    ensures exists q :: q in queues && q in requests && requests[q].sort != []
  {
    if queues[0] in requests && requests[queues[0]].sort != [] {
      assert queues[0] in queues;
    } else {
      SomeQueued(requests, queues[1..]);
      var q :| q in queues[1..] && q in requests && requests[q].sort != [];
      assert q in queues;
    }
  }

  lemma {:induction false} NothingQueued(requests: map<nat, Requests>, queues: seq<nat>)
    requires forall q :: q in requests ==> requests[q].sort == []
    ensures TotalRq(requests, queues) == 0
  {
    if queues == [] {
    } else {
      NothingQueued(requests, queues[1..]);
    }
  }

  /** All requests queued. */
  ghost function AllRq(requests: map<nat, Requests>, queues: seq<nat>): multiset<Rq> {
    if queues == [] then multiset{}
    else (if queues[0] in requests then multiset(requests[queues[0]].sort) else multiset{})
         + AllRq(requests, queues[1..])
  }

  /** What one queue gains or loses the whole gains or loses. */
  lemma {:induction false} AllRqUpdate(requests: map<nat, Requests>, queues: seq<nat>, q: nat, r: Requests)
    requires NoDup(queues) && q in requests && q in queues
    ensures AllRq(requests[q := r], queues) + multiset(requests[q].sort) == AllRq(requests, queues) + multiset(r.sort)
  {
    if q == queues[0] {
      AllRqSame(requests, queues[1..], q, r);
      var rest := AllRq(requests, queues[1..]);
      Trade(rest, multiset(r.sort), multiset(requests[q].sort), multiset(requests[q].sort), multiset(r.sort));
    } else {
      AllRqUpdate(requests, queues[1..], q, r);
      var first := if queues[0] in requests then multiset(requests[queues[0]].sort) else multiset{};
      Trade(first, AllRq(requests[q := r], queues[1..]), multiset(requests[q].sort), AllRq(requests, queues[1..]),
            multiset(r.sort));
    }
  }

  lemma Trade(e: multiset<Rq>, a: multiset<Rq>, b: multiset<Rq>, c: multiset<Rq>, d: multiset<Rq>)
    requires a + b == c + d
    ensures e + a + b == e + c + d && a + e + b == c + e + d
  {
    assert e + a + b == e + (a + b) && e + c + d == e + (c + d) && a + e + b == e + (a + b) && c + e + d == e + (c + d);
  }

  /** Out of one part, into the other. */
  lemma Pass(d: multiset<Rq>, out: multiset<Rq>, a': multiset<Rq>, s: multiset<Rq>, a: multiset<Rq>, s': multiset<Rq>,
             x: multiset<Rq>)
    requires a' + s == a + s' && s' + out == s + x
    ensures d + out + a' == d + a + x
  {
    forall y ensures (d + out + a')[y] == (d + a + x)[y] {
      assert (a' + s)[y] == (a + s')[y] && (s' + out)[y] == (s + x)[y];
    }
  }

  lemma {:induction false} AllRqSame(requests: map<nat, Requests>, queues: seq<nat>, q: nat, r: Requests)
    requires q !in queues
    ensures AllRq(requests[q := r], queues) == AllRq(requests, queues)
  {
    if queues == [] {
    } else {
      AllRqSame(requests, queues[1..], q, r);
    }
  }

  lemma {:induction false} AllRqNone(requests: map<nat, Requests>, queues: seq<nat>)
    requires TotalRq(requests, queues) == 0
    ensures AllRq(requests, queues) == multiset{}
  {
    if queues == [] {
    } else {
      AllRqNone(requests, queues[1..]);
    }
  }

  /** What is queued and what has been dispatched. */
  ghost function Everything(dispatched: seq<Rq>, requests: map<nat, Requests>, queues: seq<nat>): multiset<Rq> {
    multiset(dispatched) + AllRq(requests, queues)
  }

  /** A dispatched request moves from the one to the other. */
  lemma EverythingKept(dispatched: seq<Rq>, requests: map<nat, Requests>, queues: seq<nat>, k: C.Seek, q: nat, i: nat)
    requires NoDup(queues) && q in requests && q in queues && i < |requests[q].sort|
    ensures Everything(dispatched + [requests[q].sort[i]], requests[q := Dispatched(k, requests[q], i)], queues)
         == Everything(dispatched, requests, queues)
  {
    var r := requests[q];
    WithoutMultiset(r.sort, i);
    var r' := Dispatched(k, r, i);
    AllRqUpdate(requests, queues, q, r');
    Pass(multiset(dispatched), multiset{r.sort[i]}, AllRq(requests[q := r'], queues), multiset(r.sort),
         AllRq(requests, queues),
         multiset(r'.sort), multiset{});
  }

  lemma WithoutMultiset(s: seq<Rq>, i: nat)
    requires i < |s|
    ensures multiset(s) == multiset(Without(s, i)) + multiset{s[i]}
  {
    assert s == s[..i] + [s[i]] + s[i + 1..];
  }

  /** Where a request at `pos` goes in the sort list, or where the one that is already there stands. */
  function PlaceOf(s: seq<Rq>, pos: nat): (i: nat)
    ensures i <= |s|
  {
    if s == [] || s[0].pos >= pos then 0 else 1 + PlaceOf(s[1..], pos)
  }

  predicate HasAlias(s: seq<Rq>, pos: nat) { PlaceOf(s, pos) < |s| && s[PlaceOf(s, pos)].pos == pos }

  lemma {:induction false} PlaceFacts(s: seq<Rq>, pos: nat)
    requires C.Sorted(s)
    ensures var i := PlaceOf(s, pos); (forall j :: 0 <= j < i ==> s[j].pos < pos)
                                      && (forall j :: i <= j < |s| ==> pos <= s[j].pos)
    ensures !HasAlias(s, pos) ==> forall j :: PlaceOf(s, pos) <= j < |s| ==> pos < s[j].pos
  {
    if s == [] || s[0].pos >= pos {
    } else {
      PlaceFacts(s[1..], pos);
    }
  }

  lemma {:induction false} PlaceIs(s: seq<Rq>, pos: nat, i: nat)
    requires i <= |s| && (forall j :: 0 <= j < i ==> s[j].pos < pos) && (i < |s| ==> pos <= s[i].pos)
    ensures i == PlaceOf(s, pos)
  {
    if i == 0 {
    } else {
      PlaceIs(s[1..], pos, i - 1);
    }
  }

  /** elv_rb_add up to the insertion. */
  method FindPlace(s: seq<Rq>, pos: nat) returns (i: nat, alias: bool)
    requires C.Sorted(s)
    ensures i == PlaceOf(s, pos) && alias == HasAlias(s, pos)
  {
    i := 0;
    while i < |s| && s[i].pos < pos
      invariant i <= |s| && forall j :: 0 <= j < i ==> s[j].pos < pos
    {
      i := i + 1;
    }
    PlaceIs(s, pos, i);
    alias := i < |s| && s[i].pos == pos;
  }

  /** The requests of a queue while `x` is off the list: next_rq may still be x. */
  ghost predicate RequestsBut(r: Requests, x: Rq) {
    && C.Sorted(r.sort) && (r.next == None ==> r.sort == [])
       && (r.next != None ==> r.next.value in r.sort || r.next.value == x)
  }

  /** What cfq_add_rq_rb dispatches: the request at the sector of the new one, if there is any. */
  function Aliases(r: Requests, pos: nat): seq<Rq> {
    if HasAlias(r.sort, pos) then [r.sort[PlaceOf(r.sort, pos)]] else []
  }

  function Cleared(k: C.Seek, r: Requests, pos: nat): Requests {
    if HasAlias(r.sort, pos) then Dispatched(k, r, PlaceOf(r.sort, pos)) else r
  }

  /** The requests of a queue as cfq_add_rq_rb leaves them. */
  function Added(k: C.Seek, r: Requests, rq: Rq, last: nat): Requests {
    var c := Cleared(k, r, rq.pos);
    var i := PlaceOf(c.sort, rq.pos);
    Requests(c.sort[..i] + [rq] + c.sort[i..], C.ChooseReq(k, c.next, Some(rq), last))
  }

  /** After the alias has gone there is no other. */
  lemma ClearedOk(k: C.Seek, r: Requests, rq: Rq)
    requires RequestsBut(r, rq)
    ensures var c := Cleared(k, r, rq.pos);
            && RequestsBut(c, rq) && !HasAlias(c.sort, rq.pos)
            && multiset(c.sort) + multiset(Aliases(r, rq.pos)) == multiset(r.sort)
  {
    var s := r.sort;
    PlaceFacts(s, rq.pos);
    if HasAlias(s, rq.pos) {
      var i := PlaceOf(s, rq.pos);
      C.FindsAnother(k, s, i);
      WithoutSorted(s, i);
      WithoutMultiset(s, i);
      PlaceIs(Without(s, i), rq.pos, i);
    }
  }

  lemma InsertedOk(k: C.Seek, r: Requests, i: nat, rq: Rq, last: nat)
    requires RequestsBut(r, rq) && i <= |r.sort|
    requires (forall j :: 0 <= j < i ==> r.sort[j].pos < rq.pos)
             && (forall j :: i <= j < |r.sort| ==> rq.pos < r.sort[j].pos)
    ensures RequestsOk(Requests(r.sort[..i] + [rq] + r.sort[i..], C.ChooseReq(k, r.next, Some(rq), last)))
  {
    var s := r.sort[..i] + [rq] + r.sort[i..];
    assert s[i] == rq;
    if r.next != None && r.next.value != rq {
      var j :| 0 <= j < |r.sort| && r.sort[j] == r.next.value;
      assert s[if j < i then j else j + 1] == r.next.value;
      C.ChoosesBest(k, r.next.value, rq, last);
    }
  }

  /** Only what was at the sector of the new request has gone; the list is sorted and has a next request. */
  lemma AddedOk(k: C.Seek, r: Requests, rq: Rq, last: nat)
    requires RequestsBut(r, rq)
    ensures var r' := Added(k, r, rq, last);
            && RequestsOk(r') && rq in r'.sort
            && multiset(r'.sort) + multiset(Aliases(r, rq.pos)) == multiset(r.sort) + multiset{rq}
  {
    ClearedOk(k, r, rq);
    var c := Cleared(k, r, rq.pos);
    PlaceFacts(c.sort, rq.pos);
    var i := PlaceOf(c.sort, rq.pos);
    InsertedOk(k, c, i, rq, last);
    PutIn(c.sort, i, rq);
  }

  /** The next request becomes the better one, seen from the head, of the new request and of the one that was next; if
      the request at the sector of the new one has been dispatched, of the one found for that. */
  lemma AddedNext(k: C.Seek, r: Requests, rq: Rq, last: nat)
    requires RequestsBut(r, rq)
    ensures var n := Added(k, r, rq, last).next;
            var was := if HasAlias(r.sort, rq.pos) then C.FindNext(k, r.sort, PlaceOf(r.sort, rq.pos)) else r.next;
            && n != None && (n == Some(rq) || n == was) && C.AtLeastAsGood(k, last, n.value, rq)
            && (was != None ==> C.AtLeastAsGood(k, last, n.value, was.value))
  {
    var c := Cleared(k, r, rq.pos);
    if c.next != None { C.ChoosesBest(k, c.next.value, rq, last); }
  }

  /** After a dispatch from a queue whose requests are of one kind the next request is the best of those left, seen from
      the sector dispatched. */
  lemma DispatchedBest(k: C.Seek, r: Requests, i: nat, x: Rq)
    requires RequestsOk(r) && C.Agree(r.sort) && i < |r.sort| && x in Dispatched(k, r, i).sort
    ensures var n := Dispatched(k, r, i).next;
            n != None && n.value in Dispatched(k, r, i).sort && C.AtLeastAsGood(k, r.sort[i].pos, n.value, x)
  {
    DispatchedOk(k, r, i);
    WithoutSorted(r.sort, i);
    var j :| 0 <= j < |r.sort| && r.sort[j] == x;
    C.FindsBest(k, r.sort, i, j);
  }

  /** The requests of the queues, and their number. */
  ghost predicate Listed(requests: map<nat, Requests>, queues: seq<nat>, rqQueued: nat) {
    && Roster(queues, requests.Keys)
    && (forall q {:trigger RequestsOk(requests[q])} :: q in requests ==> RequestsOk(requests[q]))
       && rqQueued == TotalRq(requests, queues)
  }

  /** A queue with requests is on the round robin, only the active one may be there without any, and it is there. */
  ghost predicate Busy(requests: map<nat, Requests>, onRr: set<nat>, active: Option<nat>) {
    && onRr <= requests.Keys && (active != None ==> active.value in onRr)
    && (forall q {:trigger requests[q]} :: q in requests && requests[q].sort != [] ==> q in onRr)
    && (forall q {:trigger requests[q]} :: q in onRr && requests[q].sort == [] ==> active == Some(q))
  }

  lemma BusyExpired(requests: map<nat, Requests>, onRr: set<nat>, active: Option<nat>, q: nat)
    requires Busy(requests, onRr, active) && q in onRr
    ensures Busy(requests, if requests[q].sort == [] then onRr - {q} else onRr, if active == Some(q) then None
                 else active)
  {
  }

  lemma BusyAdded(requests: map<nat, Requests>, onRr: set<nat>, active: Option<nat>, q: nat, r: Requests)
    requires Busy(requests, onRr, active) && q in requests && r.sort != []
    ensures Busy(requests[q := r], onRr + {q}, active)
  {
  }

  lemma BusyMerged(requests: map<nat, Requests>, onRr: set<nat>, active: Option<nat>, q: nat, r: Requests)
    requires Busy(requests, onRr, active) && q in requests && requests[q].sort != [] && r.sort != []
    ensures Busy(requests[q := r], onRr, active)
  {
  }

  lemma BusyDispatched(requests: map<nat, Requests>, onRr: set<nat>, active: Option<nat>, q: nat, r: Requests)
    requires Busy(requests, onRr, active) && active == Some(q)
    ensures Busy(requests[q := r], onRr, active)
  {
  }

  /** cfq_add_rq_rb on one queue: aliases out, the request in, and a next request chosen. */
  method AddTo(k: C.Seek, r: Requests, rq: Rq, last: nat) returns (r': Requests, out: seq<Rq>)
    requires RequestsBut(r, rq)
    ensures r' == Added(k, r, rq, last) && out == Aliases(r, rq.pos)
    ensures RequestsOk(r') && rq in r'.sort && multiset(r'.sort) + multiset(out) == multiset(r.sort) + multiset{rq}
  {
    AddedOk(k, r, rq, last);
    r', out := r, [];
    var i, alias := FindPlace(r'.sort, rq.pos);
    while alias
      invariant C.Sorted(r'.sort) && i == PlaceOf(r'.sort, rq.pos) && alias == HasAlias(r'.sort, rq.pos)
      invariant if alias then r' == r && out == [] else r' == Cleared(k, r, rq.pos) && out == Aliases(r, rq.pos)
      decreases |r'.sort|
    {
      ClearedOk(k, r, rq);
      out := out + [r'.sort[i]];
      r' := Dispatched(k, r', i);
      i, alias := FindPlace(r'.sort, rq.pos);
    }
    r' := Requests(r'.sort[..i] + [rq] + r'.sort[i..], C.ChooseReq(k, r'.next, Some(rq), last));
  }

  lemma PutIn(s: seq<Rq>, i: nat, rq: Rq)
    requires i <= |s|
    ensures multiset(s[..i] + [rq] + s[i..]) == multiset(s) + multiset{rq} && rq in s[..i] + [rq] + s[i..]
  {
    assert s == s[..i] + s[i..];
    assert (s[..i] + [rq] + s[i..])[i] == rq;
  }

  /** A queue that gains `more` and loses `less`, `out` having been dispatched. */
  lemma EverythingMore(dispatched: seq<Rq>, requests: map<nat, Requests>, queues: seq<nat>, q: nat, r: Requests,
                       out: seq<Rq>, from: multiset<Rq>, more: multiset<Rq>)
    requires NoDup(queues) && q in requests && q in queues
    requires multiset(r.sort) + multiset(out) == from + more && from == multiset(requests[q].sort)
    ensures Everything(dispatched + out, requests[q := r], queues) == Everything(dispatched, requests, queues) + more
    ensures |r.sort| + |out| == |requests[q].sort| + |more|
  {
    AllRqUpdate(requests, queues, q, r);
    Pass(multiset(dispatched), multiset(out), AllRq(requests[q := r], queues), multiset(requests[q].sort),
         AllRq(requests, queues),
         multiset(r.sort), more);
    assert |multiset(r.sort) + multiset(out)| == |from + more|;
  }

  /** elv_rb_del of the request at index i, which now starts at `pos`. */
  function Lifted(r: Requests, i: nat, pos: nat): Requests
    requires i < |r.sort|
  {
    Requests(Without(r.sort, i), if r.next == Some(r.sort[i]) then Some(r.sort[i].(pos := pos)) else r.next)
  }

  lemma LiftedOk(r: Requests, i: nat, pos: nat)
    requires RequestsOk(r) && i < |r.sort|
    ensures RequestsBut(Lifted(r, i, pos), r.sort[i].(pos := pos))
    ensures multiset(Lifted(r, i, pos).sort) + multiset{r.sort[i]} == multiset(r.sort)
  {
    WithoutSorted(r.sort, i);
    WithoutMultiset(r.sort, i);
  }

  /** cfq_reposition_rq_rb. */
  function Moved(k: C.Seek, r: Requests, i: nat, pos: nat, last: nat): Requests
    requires i < |r.sort|
  {
    Added(k, Lifted(r, i, pos), r.sort[i].(pos := pos), last)
  }

  lemma MovedOk(k: C.Seek, r: Requests, i: nat, pos: nat, last: nat)
    requires RequestsOk(r) && i < |r.sort|
    ensures RequestsOk(Moved(k, r, i, pos, last)) && Moved(k, r, i, pos, last).sort != []
  {
    LiftedOk(r, i, pos);
    AddedOk(k, Lifted(r, i, pos), r.sort[i].(pos := pos), last);
  }

  method MoveIn(k: C.Seek, r: Requests, i: nat, pos: nat, last: nat) returns (r': Requests, out: seq<Rq>)
    requires RequestsOk(r) && i < |r.sort|
    ensures r' == Moved(k, r, i, pos, last) && RequestsOk(r') && out == Aliases(Lifted(r, i, pos), pos)
    ensures multiset(r'.sort) + multiset(out) == multiset(Without(r.sort, i)) + multiset{r.sort[i].(pos := pos)}
  {
    LiftedOk(r, i, pos);
    r', out := AddTo(k, Lifted(r, i, pos), r.sort[i].(pos := pos), last);
  }

  lemma EverythingMoved(dispatched: seq<Rq>, requests: map<nat, Requests>, queues: seq<nat>, q: nat, r: Requests,
                        out: seq<Rq>, i: nat, moved: Rq)
    requires NoDup(queues) && q in requests && q in queues && i < |requests[q].sort|
    requires multiset(r.sort) + multiset(out) == multiset(Without(requests[q].sort, i)) + multiset{moved}
    ensures Everything(dispatched + out, requests[q := r], queues) + multiset{requests[q].sort[i]}
         == Everything(dispatched, requests, queues) + multiset{moved}
    ensures |r.sort| + |out| == |requests[q].sort|
  {
    var s := requests[q].sort;
    WithoutMultiset(s, i);
    AllRqUpdate(requests, queues, q, r);
    Swap(multiset(dispatched), multiset(out), AllRq(requests[q := r], queues), multiset(s), AllRq(requests, queues),
         multiset(r.sort),
         multiset(Without(s, i)), multiset{s[i]}, multiset{moved});
    assert |multiset(r.sort) + multiset(out)| == |multiset(Without(s, i)) + multiset{moved}|;
  }

  lemma Swap(d: multiset<Rq>, out: multiset<Rq>, a': multiset<Rq>, s: multiset<Rq>, a: multiset<Rq>, s': multiset<Rq>,
             less: multiset<Rq>, x: multiset<Rq>, y: multiset<Rq>)
    requires a' + s == a + s' && s == less + x && s' + out == less + y
    ensures d + out + a' + x == d + a + y
  {
    forall z ensures (d + out + a' + x)[z] == (d + a + y)[z] {
      assert (a' + s)[z] == (a + s')[z] && s[z] == (less + x)[z] && (s' + out)[z] == (less + y)[z];
    }
  }

  method Join(trees: ServiceTrees, q: nat, noidle: bool, sync: bool, slot: nat)
    requires trees.Valid() && q in trees.treeOf && slot < TREES
    modifies trees
    ensures trees.Valid() && trees.onRr == old(trees.onRr) + {q} && trees.treeOf.Keys == old(trees.treeOf.Keys)
  {
    if q !in trees.onRr {
      trees.AddRr(q, noidle, sync, slot);
    } else {
      assert trees.onRr + {q} == trees.onRr;
    }
  }

  /** What __cfq_slice_expired does to the trees. */
  method Expire(trees: ServiceTrees, q: nat, empty: bool, noidle: bool, sync: bool, slot: nat, sameKey: bool)
    requires trees.Valid() && q in trees.onRr && slot < TREES
    modifies trees
    ensures trees.Valid() && trees.treeOf.Keys == old(trees.treeOf.Keys)
    ensures trees.onRr == if empty then old(trees.onRr) - {q} else old(trees.onRr)
  {
    if empty {
      trees.DelRr(q);
    } else {
      trees.Resort(q, noidle, sync, slot, false, sameKey);
    }
  }

  /** A queue whose list has changed length by `more` and `less`. */
  lemma UpdateListed(requests: map<nat, Requests>, queues: seq<nat>, rqQueued: nat, q: nat, r: Requests, more: nat,
                     less: nat)
    requires Listed(requests, queues, rqQueued) && q in requests && RequestsOk(r)
             && |r.sort| + less == |requests[q].sort| + more
    ensures less <= rqQueued + more && Listed(requests[q := r], queues, rqQueued + more - less)
  {
    TotalRqUpdate(requests, queues, q, r);
    TotalRqAtLeast(requests, queues, q);
  }

  lemma DispatchListed(requests: map<nat, Requests>, queues: seq<nat>, rqQueued: nat, k: C.Seek, q: nat, i: nat)
    requires Listed(requests, queues, rqQueued) && q in requests && i < |requests[q].sort|
    ensures rqQueued > 0 && Listed(requests[q := Dispatched(k, requests[q], i)], queues, rqQueued - 1)
  {
    var r := requests[q];
    assert RequestsOk(r);
    DispatchedOk(k, r, i);
    WithoutSorted(r.sort, i);
    TotalRqUpdate(requests, queues, q, Dispatched(k, r, i));
    TotalRqAtLeast(requests, queues, q);
  }

  lemma InsertKeeps(dispatched: seq<Rq>, requests: map<nat, Requests>, queues: seq<nat>, rqQueued: nat, q: nat,
                    k: C.Seek, rq: Rq, last: nat)
    requires Listed(requests, queues, rqQueued) && q in requests
    ensures RequestsBut(requests[q], rq)
    ensures var r, out := Added(k, requests[q], rq, last), Aliases(requests[q], rq.pos);
            && |out| <= rqQueued + 1 && Listed(requests[q := r], queues, rqQueued + 1 - |out|)
            && Everything(dispatched + out, requests[q := r], queues) == Everything(dispatched, requests, queues)
               + multiset{rq}
  {
    assert RequestsOk(requests[q]);
    AddedOk(k, requests[q], rq, last);
    var r, out := Added(k, requests[q], rq, last), Aliases(requests[q], rq.pos);
    EverythingMore(dispatched, requests, queues, q, r, out, multiset(requests[q].sort), multiset{rq});
    UpdateListed(requests, queues, rqQueued, q, r, 1, |out|);
  }

  method AddIn(dispatched: seq<Rq>, requests: map<nat, Requests>, ghost queues: seq<nat>, rqQueued: nat,
               ghost onRr: set<nat>, ghost active: Option<nat>, q: nat, k: C.Seek, rq: Rq, last: nat)
    returns (dispatched': seq<Rq>, requests': map<nat, Requests>, rqQueued': nat)
    requires Listed(requests, queues, rqQueued) && Busy(requests, onRr, active) && q in requests
    ensures Busy(requests', onRr + {q}, active) && requests'.Keys == requests.Keys
    ensures Listed(requests', queues, rqQueued') && requests' == requests[q := Added(k, requests[q], rq, last)]
    ensures dispatched' == dispatched + Aliases(requests[q], rq.pos)
    ensures Everything(dispatched', requests', queues) == Everything(dispatched, requests, queues) + multiset{rq}
  {
    InsertKeeps(dispatched, requests, queues, rqQueued, q, k, rq, last);
    BusyGrown(requests, queues, rqQueued, onRr, active, q, k, rq, last);
    var r, out := AddTo(k, requests[q], rq, last);
    dispatched', requests', rqQueued' := dispatched + out, requests[q := r], rqQueued + 1 - |out|;
  }

  lemma BusyMoved(requests: map<nat, Requests>, queues: seq<nat>, rqQueued: nat, onRr: set<nat>, active: Option<nat>,
                  q: nat, k: C.Seek, i: nat, pos: nat, last: nat)
    requires Listed(requests, queues, rqQueued) && Busy(requests, onRr, active) && q in requests
             && i < |requests[q].sort|
    ensures var rs := requests[q := Moved(k, requests[q], i, pos, last)];
            Busy(rs, onRr, active) && rs.Keys == requests.Keys
  {
    assert RequestsOk(requests[q]);
    MovedOk(k, requests[q], i, pos, last);
    BusyMerged(requests, onRr, active, q, Moved(k, requests[q], i, pos, last));
  }

  lemma BusyGrown(requests: map<nat, Requests>, queues: seq<nat>, rqQueued: nat, onRr: set<nat>, active: Option<nat>,
                  q: nat, k: C.Seek, rq: Rq, last: nat)
    requires Listed(requests, queues, rqQueued) && Busy(requests, onRr, active) && q in requests
    ensures var rs := requests[q := Added(k, requests[q], rq, last)];
            Busy(rs, onRr + {q}, active) && rs.Keys == requests.Keys
  {
    assert RequestsOk(requests[q]);
    AddedOk(k, requests[q], rq, last);
    BusyAdded(requests, onRr, active, q, Added(k, requests[q], rq, last));
  }

  /** A request has been merged into another: it is off the list, and the other takes its turn. */
  function Absorbed(r: Requests, keep: nat, gone: nat): Requests
    requires keep < |r.sort| && gone < |r.sort|
  {
    Requests(Without(r.sort, gone), if r.next == Some(r.sort[gone]) then Some(r.sort[keep]) else r.next)
  }

  lemma AbsorbedOk(requests: map<nat, Requests>, queues: seq<nat>, rqQueued: nat, onRr: set<nat>, active: Option<nat>,
                   q: nat, keep: nat, gone: nat)
    requires Listed(requests, queues, rqQueued) && Busy(requests, onRr, active) && q in requests
    requires keep < |requests[q].sort| && gone < |requests[q].sort| && keep != gone
    ensures var rs := requests[q := Absorbed(requests[q], keep, gone)];
            rqQueued > 0 && Listed(rs, queues, rqQueued - 1) && Busy(rs, onRr, active) && rs.Keys == requests.Keys
  {
    var s, r := requests[q].sort, Absorbed(requests[q], keep, gone);
    assert RequestsOk(requests[q]);
    WithoutSorted(s, gone);
    assert s[keep] in r.sort;
    TotalRqUpdate(requests, queues, q, r);
    BusyMerged(requests, onRr, active, q, r);
  }

  class CfqData {
    const trees: ServiceTrees
    const queues: seq<nat>
    const seek: C.Seek
    var requests: map<nat, Requests>
    var rqQueued: nat
    var active: Option<nat>
    var lastPosition: nat
    var dispatched: seq<Rq>

    /** The queues and their turns. */
    ghost predicate Turns()
      reads this, trees
    {
      trees.Valid() && Busy(requests, trees.onRr, active) && trees.treeOf.Keys == requests.Keys
    }

    ghost predicate Valid()
      reads this, trees
    {
      Turns() && Listed(requests, queues, rqQueued)
    }

    constructor (trees: ServiceTrees, queues: seq<nat>, seek: C.Seek)
      requires trees.Valid() && trees.onRr == {} && NoDup(queues) && trees.treeOf.Keys == set q | q in queues
      ensures Valid() && rqQueued == 0 && dispatched == []
    {
      this.trees, this.queues, this.seek := trees, queues, seek;
      requests := map q | q in queues :: Requests([], None);
      rqQueued, active, lastPosition, dispatched := 0, None, 0, [];
      new;
      NothingQueued(requests, queues);
    }

    /** cfq_dispatch_insert. */
    method DispatchInsert(q: nat, i: nat)
      requires Listed(requests, queues, rqQueued) && q in requests && i < |requests[q].sort|
      modifies `requests, `rqQueued, `dispatched
      ensures Listed(requests, queues, rqQueued) && rqQueued == old(rqQueued) - 1
              && dispatched == old(dispatched) + [old(requests[q].sort[i])]
      ensures requests == old(requests[q := Dispatched(seek, requests[q], i)])
      ensures Everything(dispatched, requests, queues) == old(Everything(dispatched, requests, queues))
    {
      var r := requests[q];
      DispatchListed(requests, queues, rqQueued, seek, q, i);
      EverythingKept(dispatched, requests, queues, seek, q, i);
      dispatched := dispatched + [r.sort[i]];
      requests := requests[q := Dispatched(seek, r, i)];
      rqQueued := rqQueued - 1;
    }

    /** cfq_insert_request and cfq_add_rq_rb: a request at the same sector is dispatched first. */
    method AddRq(q: nat, rq: Rq, noidle: bool, sync: bool, slot: nat)
      requires Valid() && q in requests && slot < TREES
      modifies `requests, `rqQueued, `dispatched, trees
      ensures Valid() && requests == old(requests[q := Added(seek, requests[q], rq, lastPosition)])
      ensures dispatched == old(dispatched + Aliases(requests[q], rq.pos))
      ensures Everything(dispatched, requests, queues) == old(Everything(dispatched, requests, queues)) + multiset{rq}
      ensures trees.onRr == old(trees.onRr) + {q}
    {
      InsertFirst(q, rq);
      PutOnRr(q, noidle, sync, slot);
    }

    /** Everything is in order once the queue will be on the round robin. */
    ghost predicate Joining(q: nat)
      reads this, trees
    {
      && trees.Valid() && trees.treeOf.Keys == requests.Keys && q in requests
         && Busy(requests, trees.onRr + {q}, active)
      && Listed(requests, queues, rqQueued)
    }

    method InsertFirst(q: nat, rq: Rq)
      requires Valid() && q in requests
      modifies `requests, `rqQueued, `dispatched
      ensures Joining(q) && requests == old(requests[q := Added(seek, requests[q], rq, lastPosition)])
      ensures dispatched == old(dispatched + Aliases(requests[q], rq.pos))
      ensures Everything(dispatched, requests, queues) == old(Everything(dispatched, requests, queues)) + multiset{rq}
    {
      var d, rs, n := AddIn(dispatched, requests, queues, rqQueued, trees.onRr, active, q, seek, rq, lastPosition);
      Put(d, rs, n);
    }

    method Put(d: seq<Rq>, rs: map<nat, Requests>, n: nat)
      modifies `requests, `rqQueued, `dispatched
      ensures dispatched == d && requests == rs && rqQueued == n
    {
      dispatched, requests, rqQueued := d, rs, n;
    }

    method PutOnRr(q: nat, noidle: bool, sync: bool, slot: nat)
      requires Joining(q) && slot < TREES
      modifies trees
      ensures Valid() && trees.onRr == old(trees.onRr) + {q}
    {
      Join(trees, q, noidle, sync, slot);
    }

    /** cfq_merged_request after a front merge: the request at index i now starts at sector `pos`. */
    method Reposition(q: nat, i: nat, pos: nat)
      requires Valid() && q in requests && i < |requests[q].sort|
      modifies `requests, `rqQueued, `dispatched
      ensures Valid() && requests == old(requests[q := Moved(seek, requests[q], i, pos, lastPosition)])
      ensures dispatched == old(dispatched + Aliases(Lifted(requests[q], i, pos), pos))
      ensures Everything(dispatched, requests, queues) + multiset{old(requests[q].sort[i])}
           == old(Everything(dispatched, requests, queues)) + multiset{old(requests[q].sort[i].(pos := pos))}
    {
      BusyMoved(requests, queues, rqQueued, trees.onRr, active, q, seek, i, pos, lastPosition);
      Move(q, i, pos);
    }

    method Move(q: nat, i: nat, pos: nat)
      requires Listed(requests, queues, rqQueued) && q in requests && i < |requests[q].sort|
      modifies `requests, `rqQueued, `dispatched
      ensures Listed(requests, queues, rqQueued)
              && requests == old(requests[q := Moved(seek, requests[q], i, pos, lastPosition)])
      ensures dispatched == old(dispatched + Aliases(Lifted(requests[q], i, pos), pos))
      ensures Everything(dispatched, requests, queues) + multiset{old(requests[q].sort[i])}
           == old(Everything(dispatched, requests, queues)) + multiset{old(requests[q].sort[i].(pos := pos))}
    {
      assert RequestsOk(requests[q]);
      var r, out := MoveIn(seek, requests[q], i, pos, lastPosition);
      EverythingMoved(dispatched, requests, queues, q, r, out, i, requests[q].sort[i].(pos := pos));
      UpdateListed(requests, queues, rqQueued, q, r, 0, |out|);
      dispatched := dispatched + out;
      requests := requests[q := r];
      rqQueued := rqQueued - |out|;
    }

    /** cfq_merged_requests: the request at `gone` has been merged into the one at `keep`. */
    method Merged(q: nat, keep: nat, gone: nat)
      requires Valid() && q in requests && keep < |requests[q].sort| && gone < |requests[q].sort| && keep != gone
      modifies `requests, `rqQueued
      ensures Valid() && rqQueued == old(rqQueued) - 1
      ensures requests == old(requests[q := Absorbed(requests[q], keep, gone)])
      ensures forall x :: x in requests[q].sort <==> x in old(requests[q].sort) && x != old(requests[q].sort[gone])
      ensures requests[q].next == old(if requests[q].next == Some(requests[q].sort[gone])
                                      then Some(requests[q].sort[keep]) else requests[q].next)
    {
      assert RequestsOk(requests[q]);
      WithoutSorted(requests[q].sort, gone);
      AbsorbedOk(requests, queues, rqQueued, trees.onRr, active, q, keep, gone);
      requests := requests[q := Absorbed(requests[q], keep, gone)];
      rqQueued := rqQueued - 1;
    }

    /** cfq_activate_request: the head will be at the end of the request that goes to the driver. */
    method Activate(pos: nat, sectors: nat)
      requires Valid()
      modifies `lastPosition
      ensures Valid() && lastPosition == pos + sectors
    {
      lastPosition := pos + sectors;
    }

    /** __cfq_set_active_queue, once the queue before it has been expired. */
    method SetActive(q: nat)
      requires Valid() && active == None && q in trees.onRr
      modifies `active
      ensures Valid() && active == Some(q)
    {
      active := Some(q);
    }

    /** __cfq_slice_expired: an empty queue leaves the round robin, another one is sorted anew. */
    method SliceExpired(q: nat, noidle: bool, sync: bool, slot: nat, sameKey: bool)
      requires Turns() && q in trees.onRr && slot < TREES
      modifies `active, trees
      ensures Turns() && active == if old(active) == Some(q) then None else old(active)
      ensures q in requests && trees.onRr == if requests[q].sort == [] then old(trees.onRr) - {q} else old(trees.onRr)
    {
      var now := if active == Some(q) then None else active;
      LeaveOrSort(q, noidle, sync, slot, sameKey, now);
      active := now;
    }

    method LeaveOrSort(q: nat, noidle: bool, sync: bool, slot: nat, sameKey: bool, ghost now: Option<nat>)
      requires Turns() && q in trees.onRr && slot < TREES && now == if active == Some(q) then None else active
      modifies trees
      ensures trees.Valid() && trees.treeOf.Keys == requests.Keys && Busy(requests, trees.onRr, now)
      ensures q in requests && trees.onRr == if requests[q].sort == [] then old(trees.onRr) - {q} else old(trees.onRr)
    {
      BusyExpired(requests, trees.onRr, active, q);
      Expire(trees, q, requests[q].sort == [], noidle, sync, slot, sameKey);
    }

    /** cfq_dispatch_request: the request of the active queue that cfq_check_fifo found expired, if it found one, else
        the next one. */
    method DispatchNext(expired: Option<Rq>)
      requires Valid() && active != None && active.value in requests && requests[active.value].next != None
      requires expired != None ==> expired.value in requests[active.value].sort
      modifies `requests, `rqQueued, `dispatched
      ensures Valid() && rqQueued == old(rqQueued) - 1
      ensures var q := active.value;
              && q in requests && requests == old(requests)[q := requests[q]]
                 && |requests[q].sort| == |old(requests[q].sort)| - 1
              && dispatched == old(dispatched)
                 + [if expired != None then expired.value else old(requests[q].next.value)]
      ensures Everything(dispatched, requests, queues) == old(Everything(dispatched, requests, queues))
    {
      var q := active.value;
      assert RequestsOk(requests[q]);
      var i := IndexOf(requests[q].sort, if expired != None then expired.value else requests[q].next.value);
      DispatchAt(q, i);
    }

    method DispatchAt(q: nat, i: nat)
      requires Valid() && active == Some(q) && q in requests && i < |requests[q].sort|
      modifies `requests, `rqQueued, `dispatched
      ensures Valid() && rqQueued == old(rqQueued) - 1
      ensures requests == old(requests[q := Dispatched(seek, requests[q], i)])
              && dispatched == old(dispatched + [requests[q].sort[i]])
      ensures Everything(dispatched, requests, queues) == old(Everything(dispatched, requests, queues))
    {
      assert RequestsOk(requests[q]);
      BusyDispatched(requests, trees.onRr, active, q, Dispatched(seek, requests[q], i));
      DispatchInsert(q, i);
    }

    /** cfq_get_next_queue_forced: a queue of some group on the group tree, as long as anything is queued. */
    method NextForced() returns (next: Option<nat>)
      requires Valid()
      ensures (next == None <==> rqQueued == 0) && (next != None ==> next.value in trees.onRr)
    {
      if rqQueued == 0 { return None; }
      SomeGroup(requests, queues, rqQueued, trees);
      var g :| g in trees.onSt;
      next := FirstOfGroup(trees, g);
    }

    /** __cfq_forced_dispatch_cfqq: everything the active queue holds. */
    method ForcedQueue(q: nat)
      requires Valid() && active == Some(q)
      modifies this, trees
      ensures Valid() && active == None && trees.onRr == old(trees.onRr) - {q}
      ensures Everything(dispatched, requests, queues) == old(Everything(dispatched, requests, queues))
    {
      DrainActive(q);
      ExpireEmpty(q);
    }

    method ExpireEmpty(q: nat)
      requires Valid() && active == Some(q) && q in requests && requests[q].sort == []
      modifies `active, trees
      ensures Valid() && active == None && trees.onRr == old(trees.onRr) - {q}
    {
      SliceExpired(q, false, false, 0, false);
    }

    method DrainActive(q: nat)
      requires Valid() && active == Some(q)
      modifies `requests, `rqQueued, `dispatched
      ensures Valid() && q in requests && requests[q].sort == []
      ensures Everything(dispatched, requests, queues) == old(Everything(dispatched, requests, queues))
    {
      while requests[q].next != None
        invariant Valid() && q in requests
        invariant Everything(dispatched, requests, queues) == old(Everything(dispatched, requests, queues))
        decreases rqQueued
      {
        DispatchNext(None);
      }
      assert RequestsOk(requests[q]);
    }

    /** cfq_forced_dispatch: every queued request goes to the dispatch list once, and nothing stays busy. */
    method ForcedDispatch(noidle: bool, sync: bool, slot: nat, sameKey: bool)
      requires Valid() && slot < TREES
      modifies this, trees
      ensures Valid() && rqQueued == 0 && trees.busy == 0 && active == None
      ensures multiset(dispatched) == old(Everything(dispatched, requests, queues))
    {
      ExpireActive(noidle, sync, slot, sameKey);
      ForceAll();
    }

    /** cfq_slice_expired. */
    method ExpireActive(noidle: bool, sync: bool, slot: nat, sameKey: bool)
      requires Valid() && slot < TREES
      modifies `active, trees
      ensures Valid() && active == None
    {
      if active != None { SliceExpired(active.value, noidle, sync, slot, sameKey); }
    }

    method ForceAll()
      requires Valid() && active == None
      modifies this, trees
      ensures Valid() && rqQueued == 0 && trees.busy == 0 && active == None
      ensures multiset(dispatched) == old(Everything(dispatched, requests, queues))
    {
      var next := NextForced();
      while next != None
        invariant Valid() && active == None && (next == None <==> rqQueued == 0)
                  && (next != None ==> next.value in trees.onRr)
        invariant Everything(dispatched, requests, queues) == old(Everything(dispatched, requests, queues))
        decreases trees.onRr
      {
        next := ForceOne(next.value);
      }
      AllIdle(dispatched, requests, queues, trees);
    }

    method ForceOne(q: nat) returns (next: Option<nat>)
      requires Valid() && active == None && q in trees.onRr
      modifies this, trees
      ensures Valid() && active == None && (next == None <==> rqQueued == 0)
              && (next != None ==> next.value in trees.onRr)
      ensures Everything(dispatched, requests, queues) == old(Everything(dispatched, requests, queues))
      ensures trees.onRr == old(trees.onRr) - {q}
    {
      ForceOut(q);
      next := NextForced();
    }

    method ForceOut(q: nat)
      requires Valid() && active == None && q in trees.onRr
      modifies this, trees
      ensures Valid() && active == None && trees.onRr == old(trees.onRr) - {q}
      ensures Everything(dispatched, requests, queues) == old(Everything(dispatched, requests, queues))
    {
      ghost var all := Everything(dispatched, requests, queues);
      SetActive(q);
      assert Everything(dispatched, requests, queues) == all;
      ForcedQueue(q);
    }
  }

  /** While something is queued, some group is on the group tree. */
  lemma SomeGroup(requests: map<nat, Requests>, queues: seq<nat>, rqQueued: nat, trees: ServiceTrees)
    requires Listed(requests, queues, rqQueued) && rqQueued > 0 && trees.Valid() && trees.treeOf.Keys == requests.Keys
    requires forall q :: q in requests && requests[q].sort != [] ==> q in trees.onRr
    ensures trees.onSt != {}
  {
    SomeQueued(requests, queues);
    var q :| q in queues && q in requests && requests[q].sort != [];
    assert q in trees.treeOf && trees.treeOf[q] != None;
    Countable(trees.groups, trees.list, trees.Accounts(), q);
  }

  /** The first queue on the trees of a group. */
  method FirstOfGroup(trees: ServiceTrees, g: nat) returns (next: Option<nat>)
    requires trees.Valid() && g in trees.onSt
    ensures next != None && next.value in trees.onRr
  {
    GroupHasQueue(trees.groups, trees.list, trees.Accounts(), g);
    var s := 0;
    while trees.counts[g][s] == 0
      invariant s < TREES && forall i :: 0 <= i < s ==> trees.counts[g][i] == 0
      decreases TREES - s
    {
      s := s + 1;
    }
    var t := Tree(g, s);
    var members := Members(trees.treeOf, t);
    assert HasTree(trees.counts, t) && Count(trees.counts, t) == |members|;
    var q :| q in members;
    next := Some(q);
  }

  /** With nothing queued and no queue active, nothing is busy. */
  lemma AllIdle(dispatched: seq<Rq>, requests: map<nat, Requests>, queues: seq<nat>, trees: ServiceTrees)
    requires Listed(requests, queues, 0) && trees.Valid() && trees.treeOf.Keys == requests.Keys
             && Busy(requests, trees.onRr, None)
    ensures trees.busy == 0 && Everything(dispatched, requests, queues) == multiset(dispatched)
  {
    AllRqNone(requests, queues);
    forall q | q in trees.treeOf ensures trees.treeOf[q] == None { TotalRqAtLeast(requests, queues, q); }
    NoneBusy(trees.groups, trees.list, trees.Accounts());
  }
}
