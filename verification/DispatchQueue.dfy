/** The dispatch queue (q->queue_head) over whole runs: schedulers put requests in, sorted or at the end, soft barriers
    come to the front, the back or somewhere between, and the driver sees and takes the head. What the driver sees moves
    the boundary, q->end_sector, that sorting goes by. */
module DispatchQueue {
  import opened Basics
  import opened DispatchSort

  /** `boundary` is q->end_sector and `boundaryRq` names q->boundary_rq; ids are given in the order of arrival. `era`
      counts the moves of the boundary and is history. */
  datatype Dispatch = Dispatch(queue: seq<Rq>, boundary: nat, boundaryRq: Option<nat>, nextId: nat, era: nat)

  /** What a scheduler dispatches: with elv_dispatch_add_tail or with elv_dispatch_sort. */
  datatype Spot = Spot(pos: nat, end: nat, kind: nat, tail: bool)

  datatype Label =
    // the scheduler dispatches a request
    | Put(x: Spot)
    // a request with REQ_SOFTBARRIER: front insertion, requeue, special command
    | Stop(at: nat, pos: nat, end: nat, kind: nat)
    // a file system request with a barrier flag: the boundary moves, the scheduler is drained, it goes to the back
    | Barrier(drained: seq<Spot>, pos: nat, end: nat, kind: nat)
    // blk_peek_request sees the head; `reused` if it lies where a request that has left did and is taken for it
    | Peek(reused: bool)
    // the head is dequeued
    | Take

  const EMPTY := Dispatch([], 0, None, 0, 0)

  predicate Named(d: Dispatch) { d.boundaryRq != None && exists r :: r in d.queue && r.id == d.boundaryRq.value }

  predicate Enabled(d: Dispatch, l: Label) {
    match l
    case Stop(at, _, _, _) => at <= |d.queue|
    case Peek(reused) => d.queue != [] && (reused ==> !Named(d))
    case Take => d.queue != []
    case _ => true
  }

  function MoveTo(d: Dispatch, boundary: nat, rq: Option<nat>): Dispatch {
    d.(boundary := boundary, boundaryRq := rq, era := d.era + 1)
  }

  /** elv_dispatch_add_tail and elv_dispatch_sort. */
  function Dispatched(d: Dispatch, x: Spot): Dispatch {
    var e := if x.tail then MoveTo(d, x.end, Some(d.nextId)) else d;
    var rq := Rq(d.nextId, x.pos, x.end, x.kind, false, Mark(e.boundary, e.era, x.tail));
    e.(queue := if x.tail then d.queue + [rq] else DispatchSort.Put(d.queue, d.boundary, rq), nextId := d.nextId + 1)
  }

  /** elv_drain_elevator. */
  function Drain(d: Dispatch, xs: seq<Spot>): Dispatch {
    if xs == [] then d else Dispatched(Drain(d, xs[..|xs| - 1]), xs[|xs| - 1])
  }

  function StopRq(d: Dispatch, pos: nat, end: nat, kind: nat): Rq {
    Rq(d.nextId, pos, end, kind, true, Mark(d.boundary, d.era, false))
  }

  function Next(d: Dispatch, l: Label): Dispatch
    requires Enabled(d, l)
  {
    match l
    case Put(x) => Dispatched(d, x)
    case Stop(at, pos, end, kind) =>
      d.(queue := d.queue[..at] + [StopRq(d, pos, end, kind)] + d.queue[at..], nextId := d.nextId + 1)
    case Barrier(drained, pos, end, kind) =>
      var rq := StopRq(d, pos, end, kind);
      var e := Drain(MoveTo(d, end, Some(rq.id)).(nextId := d.nextId + 1), drained);
      e.(queue := e.queue + [rq])
    case Peek(reused) =>
      var rq := d.queue[0];
      var e := d.(queue := [rq.(stop := true)] + d.queue[1..]);
      if d.boundaryRq == None || d.boundaryRq == Some(rq.id) || reused then MoveTo(e, rq.end, None) else e
    case Take => d.(queue := d.queue[1..])
  }

  predicate IsRunOf(d: Dispatch, labels: seq<Label>)
    decreases |labels|
  {
    labels == [] || (Enabled(d, labels[0]) && IsRunOf(Next(d, labels[0]), labels[1..]))
  }

  function After(d: Dispatch, labels: seq<Label>): Dispatch
    requires IsRunOf(d, labels)
    decreases |labels|
  {
    if labels == [] then d else After(Next(d, labels[0]), labels[1..])
  }

  // ----- the order behind the last stop

  /** Behind `c` requests begins the part behind the last one that may not be passed. */
  predicate IsCut(queue: seq<Rq>, c: nat) {
    c <= |queue| && (c == 0 || queue[c - 1].stop) && forall k :: c <= k < |queue| ==> !queue[k].stop
  }

  function Cut(queue: seq<Rq>): (c: nat)
    ensures c <= |queue|
  {
    if queue == [] || queue[|queue| - 1].stop then |queue| else Cut(queue[..|queue| - 1])
  }

  lemma {:induction false} CutFacts(queue: seq<Rq>)
    ensures IsCut(queue, Cut(queue))
  {
    if queue == [] || queue[|queue| - 1].stop {
    } else {
      CutFacts(queue[..|queue| - 1]);
    }
  }

  lemma CutIs(queue: seq<Rq>, c: nat)
    requires IsCut(queue, c)
    ensures c == Cut(queue)
  {
    CutFacts(queue);
  }

  predicate SameKind(s: seq<Rq>, i: nat, j: nat)
    requires i <= j < |s|
  {
    forall k :: i <= k <= j ==> s[k].kind == s[i].kind
  }

  /** One-way elevator order, and that of arrival at one sector. */
  predicate InTurn(boundary: nat, a: Rq, b: Rq) { Before(boundary, a, b) || (a.pos == b.pos && a.id < b.id) }

  /** Something between i and j is not due after j, at the boundary j came in at. */
  predicate HeldBack(s: seq<Rq>, i: nat, j: nat)
    requires i < j < |s|
  {
    exists k :: i <= k < j && !Before(s[j].mark.boundary, s[j], s[k])
  }

  /** The first came before the second. */
  predicate Older(a: Rq, b: Rq) { a.id < b.id && a.mark.era <= b.mark.era }

  /** Of two requests with another kind between them the first arrived first. Otherwise the one behind came later and
      was put at the end or held back, or it came before and the other was due before it; and two that came in one era
      stand in turn at its boundary. */
  predicate PairOk(s: seq<Rq>, i: nat, j: nat)
    requires i < j < |s|
  {
    if !SameKind(s, i, j) then Older(s[i], s[j])
    else if s[j].id < s[i].id then Older(s[j], s[i]) && Before(s[i].mark.boundary, s[i], s[j])
    else
      && Older(s[i], s[j]) && (s[j].mark.tail || HeldBack(s, i, j))
      && (s[i].mark.era == s[j].mark.era ==> InTurn(s[j].mark.boundary, s[i], s[j]))
  }

  predicate Kept(s: seq<Rq>, c: nat) {
    forall i: nat, j: nat {:trigger PairOk(s, i, j)} :: c <= i < j < |s| ==> PairOk(s, i, j)
  }

  /** Marks are of the past, and those of this era carry its boundary. */
  predicate Marked(d: Dispatch, r: Rq) {
    r.id < d.nextId && r.mark.era <= d.era && (r.mark.era == d.era ==> r.mark.boundary == d.boundary)
  }

  predicate AllMarked(d: Dispatch) { forall r :: r in d.queue ==> Marked(d, r) }

  /** What every step keeps. */
  predicate Ok(d: Dispatch) { AllMarked(d) && Kept(d.queue, Cut(d.queue)) }

  // ----- sorting in

  /** The place of a sorted request is behind the last stop. */
  lemma PlaceBehind(queue: seq<Rq>, boundary: nat, rq: Rq)
    ensures Cut(queue) <= Place(queue, boundary, rq) <= |queue|
  {
    PlaceFacts(queue, boundary, rq);
    CutFacts(queue);
    var c, i := Cut(queue), Place(queue, boundary, rq);
    assert c > 0 ==> Stops(boundary, rq, queue[c - 1]);
  }

  function Shift(at: nat, i: nat): nat { if i < at then i else i + 1 }

  lemma KindShifts(s: seq<Rq>, at: nat, rq: Rq, i: nat, j: nat)
    requires at <= |s| && i < j < |s| && forall k :: at <= k < |s| ==> s[k].kind == rq.kind
    ensures SameKind(s[..at] + [rq] + s[at..], Shift(at, i), Shift(at, j)) <==> SameKind(s, i, j)
  {
    var t := s[..at] + [rq] + s[at..];
    if SameKind(t, Shift(at, i), Shift(at, j)) {
      forall k | i <= k <= j ensures s[k].kind == s[i].kind { assert t[Shift(at, k)] == s[k]; }
    }
    if SameKind(s, i, j) {
      forall k | Shift(at, i) <= k <= Shift(at, j) ensures t[k].kind == t[Shift(at, i)].kind {
        assert t[k] == if k < at then s[k] else if k == at then rq else s[k - 1];
        assert j >= at ==> s[j].kind == rq.kind;
      }
    }
  }

  lemma HeldShifts(s: seq<Rq>, at: nat, rq: Rq, i: nat, j: nat)
    requires at <= |s| && i < j < |s| && HeldBack(s, i, j)
    ensures HeldBack(s[..at] + [rq] + s[at..], Shift(at, i), Shift(at, j))
  {
    var t := s[..at] + [rq] + s[at..];
    var k :| i <= k < j && !Before(s[j].mark.boundary, s[j], s[k]);
    assert t[Shift(at, j)] == s[j] && t[Shift(at, k)] == s[k];
  }

  lemma OldPair(s: seq<Rq>, at: nat, rq: Rq, i: nat, j: nat)
    requires at <= |s| && i < j < |s| && (forall k :: at <= k < |s| ==> s[k].kind == rq.kind) && PairOk(s, i, j)
    ensures PairOk(s[..at] + [rq] + s[at..], Shift(at, i), Shift(at, j))
  {
    var t := s[..at] + [rq] + s[at..];
    assert t[Shift(at, i)] == s[i] && t[Shift(at, j)] == s[j];
    KindShifts(s, at, rq, i, j);
    if HeldBack(s, i, j) { HeldShifts(s, at, rq, i, j); }
  }

  /** What came in this era and stands before the new request is in its turn. */
  lemma BeforeNew(s: seq<Rq>, c: nat, boundary: nat, rq: Rq, i: nat)
    requires Kept(s, c) && c <= i < Place(s, boundary, rq) <= |s| && s[i].id < rq.id
    requires s[i].mark.boundary == boundary && !s[i].stop
    requires forall k :: c <= k < |s| ==> !s[k].stop && s[k].mark.era <= s[i].mark.era
                                          && (s[k].mark.era == s[i].mark.era ==> s[k].mark.boundary == boundary)
    requires forall k :: i <= k < Place(s, boundary, rq) ==> s[k].kind == rq.kind
    ensures InTurn(boundary, s[i], rq)
  {
    PlaceFacts(s, boundary, rq);
    var p := Place(s, boundary, rq) - 1;
    assert Stops(boundary, rq, s[p]);
    assert !Before(boundary, rq, s[p]);
    if i < p {
      assert PairOk(s, i, p) && SameKind(s, i, p);
    }
  }

  /** The new request against one before it. */
  lemma OldNew(d: Dispatch, rq: Rq, i: nat)
    requires Ok(d) && rq.id == d.nextId && rq.mark == Mark(d.boundary, d.era, false)
    requires Cut(d.queue) <= i < Place(d.queue, d.boundary, rq) <= |d.queue|
    ensures PairOk(DispatchSort.Put(d.queue, d.boundary, rq), i, Place(d.queue, d.boundary, rq))
  {
    var s, at, t := d.queue, Place(d.queue, d.boundary, rq), DispatchSort.Put(d.queue, d.boundary, rq);
    assert t[i] == s[i] && s[i] in s && t[at] == rq && Marked(d, s[i]);
    if SameKind(t, i, at) {
      forall k | i <= k < at ensures s[k].kind == rq.kind { assert t[k] == s[k] && t[at].kind == t[i].kind; }
      CutFacts(s);
      PlaceFacts(s, d.boundary, rq);
      assert Stops(d.boundary, rq, s[at - 1]) && t[at - 1] == s[at - 1];
      assert HeldBack(t, i, at);
      if s[i].mark.era == d.era {
        forall k | Cut(s) <= k < |s| ensures s[k].mark.era <= d.era
          && (s[k].mark.era == d.era ==> s[k].mark.boundary == d.boundary) { assert s[k] in s && Marked(d, s[k]); }
        BeforeNew(s, Cut(s), d.boundary, rq, i);
      }
    }
  }

  /** The new request against one behind it. */
  lemma NewOld(d: Dispatch, rq: Rq, j: nat)
    requires Ok(d) && rq.id == d.nextId && rq.mark == Mark(d.boundary, d.era, false)
    requires Place(d.queue, d.boundary, rq) < j <= |d.queue|
    ensures PairOk(DispatchSort.Put(d.queue, d.boundary, rq), Place(d.queue, d.boundary, rq), j)
  {
    PlaceFacts(d.queue, d.boundary, rq);
    var s, at, t := d.queue, Place(d.queue, d.boundary, rq), DispatchSort.Put(d.queue, d.boundary, rq);
    forall k | at <= k <= j ensures t[k].kind == rq.kind {
      assert k > at ==> t[k] == s[k - 1] && !Stops(d.boundary, rq, s[k - 1]);
    }
    assert t[j] == s[j - 1] && s[j - 1] in s && Marked(d, s[j - 1]) && !Stops(d.boundary, rq, s[j - 1]);
  }

  lemma OldOld(s: seq<Rq>, boundary: nat, rq: Rq, i: nat, j: nat)
    requires Kept(s, Cut(s)) && Cut(s) <= i < j < |s|
    ensures var at := Place(s, boundary, rq);
            at <= |s| && PairOk(DispatchSort.Put(s, boundary, rq), Shift(at, i), Shift(at, j))
  {
    PlaceFacts(s, boundary, rq);
    assert PairOk(s, i, j);
    OldPair(s, Place(s, boundary, rq), rq, i, j);
  }

  lemma SortPair(d: Dispatch, rq: Rq, i: nat, j: nat)
    requires Ok(d) && rq.id == d.nextId && rq.mark == Mark(d.boundary, d.era, false)
    requires Cut(d.queue) <= i < j < |DispatchSort.Put(d.queue, d.boundary, rq)|
    ensures PairOk(DispatchSort.Put(d.queue, d.boundary, rq), i, j)
  {
    PlaceBehind(d.queue, d.boundary, rq);
    var at := Place(d.queue, d.boundary, rq);
    if j == at {
      OldNew(d, rq, i);
    } else if i == at {
      NewOld(d, rq, j);
    } else {
      OldOld(d.queue, d.boundary, rq, if i < at then i else i - 1, if j < at then j else j - 1);
    }
  }

  lemma SortOk(d: Dispatch, x: Spot)
    requires Ok(d) && !x.tail
    ensures Ok(Dispatched(d, x))
  {
    var s, e := d.queue, Dispatched(d, x);
    var rq := Rq(d.nextId, x.pos, x.end, x.kind, false, Mark(d.boundary, d.era, false));
    PlaceBehind(s, d.boundary, rq);
    CutFacts(s);
    assert forall r :: r in e.queue ==> r in s || r == rq;
    CutIs(e.queue, Cut(s));
    forall i: nat, j: nat {:trigger PairOk(e.queue, i, j)} | Cut(s) <= i < j < |e.queue|
      ensures PairOk(e.queue, i, j) {
      SortPair(d, rq, i, j);
    }
  }

  // ----- at the end

  lemma TailOk(d: Dispatch, x: Spot)
    requires Ok(d) && x.tail
    ensures Ok(Dispatched(d, x))
  {
    var s, e := d.queue, Dispatched(d, x);
    var rq := Rq(d.nextId, x.pos, x.end, x.kind, false, Mark(x.end, d.era + 1, true));
    CutFacts(s);
    assert forall r :: r in e.queue ==> (r in s && Marked(d, r)) || r == rq;
    CutIs(e.queue, Cut(s));
    forall i: nat, j: nat {:trigger PairOk(e.queue, i, j)} | Cut(s) <= i < j < |e.queue|
      ensures PairOk(e.queue, i, j) {
      if j < |s| {
        assert PairOk(s, i, j);
        OldPair(s, |s|, rq, i, j);
        assert s[..|s|] + [rq] + s[|s|..] == e.queue;
      } else {
        assert s[i] in s && Marked(d, s[i]);
      }
    }
  }

  // ----- the other steps

  /** A part of a queue is kept. */
  lemma PartKept(s: seq<Rq>, c: nat, t: seq<Rq>, c': nat, shift: int)
    requires Kept(s, c) && c' <= |t| && 0 <= c' + shift && c <= c' + shift && |t| + shift <= |s|
    requires forall k :: c' <= k < |t| ==> t[k] == s[k + shift]
    ensures Kept(t, c')
  {
    forall i: nat, j: nat {:trigger PairOk(t, i, j)} | c' <= i < j < |t| ensures PairOk(t, i, j) {
      PartPair(s, c, t, c', shift, i, j);
    }
  }

  lemma PartPair(s: seq<Rq>, c: nat, t: seq<Rq>, c': nat, shift: int, i: nat, j: nat)
    requires Kept(s, c) && c' <= i < j < |t| && 0 <= c' + shift && c <= c' + shift && |t| + shift <= |s|
    requires forall k :: c' <= k < |t| ==> t[k] == s[k + shift]
    ensures PairOk(t, i, j)
  {
    var a, b := i + shift, j + shift;
    assert t[i] == s[a] && t[j] == s[b] && PairOk(s, a, b);
    if SameKind(t, i, j) {
      forall k | a <= k <= b ensures s[k].kind == s[a].kind { assert t[k - shift] == s[k]; }
    } else {
      var k :| i <= k <= j && t[k].kind != t[i].kind;
      assert s[k + shift] == t[k];
    }
    if HeldBack(s, a, b) {
      var k :| a <= k < b && !Before(s[b].mark.boundary, s[b], s[k]);
      assert t[k - shift] == s[k];
    }
  }

  lemma {:induction false} CutPlus(a: seq<Rq>, b: seq<Rq>)
    ensures Cut(a + b) == if Cut(b) > 0 then |a| + Cut(b) else Cut(a)
  {
    if b == [] {
      assert a + b == a;
    } else if !b[|b| - 1].stop {
      assert (a + b)[..|a + b| - 1] == a + b[..|b| - 1];
      CutPlus(a, b[..|b| - 1]);
    }
  }

  lemma StopCut(s: seq<Rq>, at: nat, rq: Rq)
    requires at <= |s| && rq.stop
    ensures Cut(s[..at] + [rq] + s[at..]) == if at < Cut(s) then Cut(s) + 1 else at + 1
  {
    var a, b := s[..at], s[at..];
    assert s == a + b && a + [rq] + b == a + ([rq] + b);
    CutPlus(a, b);
    CutPlus([rq], b);
    CutPlus(a, [rq] + b);
    CutFacts(a);
  }

  lemma StopOk(d: Dispatch, at: nat, pos: nat, end: nat, kind: nat)
    requires Ok(d) && at <= |d.queue|
    ensures Ok(Next(d, Stop(at, pos, end, kind)))
  {
    var s, rq := d.queue, StopRq(d, pos, end, kind);
    var t := s[..at] + [rq] + s[at..];
    assert forall r :: r in t ==> (r in s && Marked(d, r)) || r == rq;
    CutFacts(s);
    StopCut(s, at, rq);
    PartKept(s, Cut(s), t, Cut(t), -1);
  }

  lemma StartCut(s: seq<Rq>)
    requires s != []
    ensures Cut([s[0].(stop := true)] + s[1..]) == if Cut(s) == 0 then 1 else Cut(s)
  {
    assert s == [s[0]] + s[1..];
    CutPlus([s[0]], s[1..]);
    CutPlus([s[0].(stop := true)], s[1..]);
    CutFacts([s[0]]);
  }

  lemma PeekOk(d: Dispatch, reused: bool)
    requires Ok(d) && Enabled(d, Peek(reused))
    ensures Ok(Next(d, Peek(reused)))
  {
    var s := d.queue;
    var t := [s[0].(stop := true)] + s[1..];
    assert s[0] in s && Marked(d, s[0]) && forall r :: r in s[1..] ==> r in s && Marked(d, r);
    CutFacts(s);
    StartCut(s);
    PartKept(s, Cut(s), t, Cut(t), 0);
  }

  lemma TakeCut(s: seq<Rq>)
    requires s != []
    ensures Cut(s[1..]) == if Cut(s) == 0 then 0 else Cut(s) - 1
  {
    assert s == [s[0]] + s[1..];
    CutPlus([s[0]], s[1..]);
    CutFacts([s[0]]);
  }

  lemma TakeOk(d: Dispatch)
    requires Ok(d) && d.queue != []
    ensures Ok(Next(d, Take))
  {
    var s := d.queue;
    assert forall r :: r in s[1..] ==> r in s && Marked(d, r);
    CutFacts(s);
    TakeCut(s);
    PartKept(s, Cut(s), s[1..], Cut(s[1..]), 1);
  }

  lemma {:induction false} DrainOk(d: Dispatch, xs: seq<Spot>)
    requires Ok(d)
    ensures Ok(Drain(d, xs)) && d.nextId <= Drain(d, xs).nextId && d.era <= Drain(d, xs).era
  {
    if xs == [] {
    } else {
      var x := xs[|xs| - 1];
      DrainOk(d, xs[..|xs| - 1]);
      if x.tail { TailOk(Drain(d, xs[..|xs| - 1]), x); } else { SortOk(Drain(d, xs[..|xs| - 1]), x); }
    }
  }

  lemma BarrierOk(d: Dispatch, drained: seq<Spot>, pos: nat, end: nat, kind: nat)
    requires Ok(d)
    ensures Ok(Next(d, Barrier(drained, pos, end, kind)))
  {
    var rq := StopRq(d, pos, end, kind);
    var m := MoveTo(d, end, Some(rq.id)).(nextId := d.nextId + 1);
    assert forall r :: r in d.queue ==> Marked(d, r);
    DrainOk(m, drained);
    var e := Drain(m, drained);
    assert forall r :: r in e.queue ==> Marked(e, r);
    CutIs(e.queue + [rq], |e.queue| + 1);
  }

  lemma StepOk(d: Dispatch, l: Label)
    requires Ok(d) && Enabled(d, l)
    ensures Ok(Next(d, l))
  {
    match l {
      case Put(x) => if x.tail { TailOk(d, x); } else { SortOk(d, x); }
      case Stop(at, pos, end, kind) => StopOk(d, at, pos, end, kind);
      case Barrier(drained, pos, end, kind) => BarrierOk(d, drained, pos, end, kind);
      case Peek(reused) => PeekOk(d, reused);
      case Take => TakeOk(d);
    }
  }

  lemma {:induction false} RunOk(d: Dispatch, labels: seq<Label>)
    requires Ok(d) && IsRunOf(d, labels)
    ensures Ok(After(d, labels))
    decreases |labels|
  {
    if labels == [] {
    } else {
      StepOk(d, labels[0]);
      RunOk(Next(d, labels[0]), labels[1..]);
    }
  }

  /** Nothing a scheduler dispatches, and no barrier, passes a stop: what stands there stays as it is. */
  lemma NothingPasses(d: Dispatch, l: Label)
    requires l.Put? || l.Barrier?
    ensures d.queue[..Cut(d.queue)] <= Next(d, l).queue
  {
    CutFacts(d.queue);
    match l {
      case Put(x) => DispatchedBehind(d, x);
      case Barrier(drained, pos, end, kind) =>
        DrainedBehind(MoveTo(d, end, Some(d.nextId)).(nextId := d.nextId + 1), drained, Cut(d.queue));
    }
  }

  lemma DispatchedBehind(d: Dispatch, x: Spot)
    ensures d.queue[..Cut(d.queue)] <= Dispatched(d, x).queue && Cut(d.queue) <= Cut(Dispatched(d, x).queue)
  {
    CutFacts(d.queue);
    var e := Dispatched(d, x);
    if !x.tail {
      PlaceBehind(d.queue, d.boundary, Rq(d.nextId, x.pos, x.end, x.kind, false, Mark(e.boundary, e.era, false)));
    }
    assert |e.queue| == |d.queue| + 1;
    forall k | 0 <= k < Cut(d.queue) ensures e.queue[k] == d.queue[k] {}
    CutIs(e.queue, Cut(d.queue));
  }

  lemma {:induction false} DrainedBehind(d: Dispatch, xs: seq<Spot>, c: nat)
    requires c == Cut(d.queue) <= |d.queue|
    ensures d.queue[..c] <= Drain(d, xs).queue && c <= Cut(Drain(d, xs).queue) <= |Drain(d, xs).queue|
  {
    CutFacts(Drain(d, xs).queue);
    if xs == [] {
    } else {
      var e := Drain(d, xs[..|xs| - 1]);
      DrainedBehind(d, xs[..|xs| - 1], c);
      DispatchedBehind(e, xs[|xs| - 1]);
      assert e.queue[..c] == e.queue[..Cut(e.queue)][..c];
    }
  }

  /** A request that came in since the boundary last moved stands, at that boundary, in turn with everything of its
      block behind it. */
  predicate SinceOk(d: Dispatch, i: nat, j: nat)
    requires i < j < |d.queue|
  {
    SameKind(d.queue, i, j) && d.queue[i].mark.era == d.era ==> InTurn(d.boundary, d.queue[i], d.queue[j])
  }

  predicate InTurnSince(d: Dispatch) {
    forall i: nat, j: nat {:trigger SinceOk(d, i, j)} :: Cut(d.queue) <= i < j < |d.queue| ==> SinceOk(d, i, j)
  }

  lemma SinceMoved(d: Dispatch)
    requires Ok(d)
    ensures InTurnSince(d)
  {
    forall i: nat, j: nat {:trigger SinceOk(d, i, j)} | Cut(d.queue) <= i < j < |d.queue| ensures SinceOk(d, i, j) {
      assert d.queue[i] in d.queue && d.queue[j] in d.queue && PairOk(d.queue, i, j);
      assert Marked(d, d.queue[i]) && Marked(d, d.queue[j]);
    }
  }

  /** Every run from an empty queue, with the boundary moved by every request the driver sees. Behind the last barrier,
      soft barrier or started request: requests with another kind between them stand in the order of arrival; of two
      with only their kind between them the later one is in front only if it was due before the other at the boundary it
      came in at, and behind only if it was put at the end or held back by one that was not due after it; and what came
      in since the boundary last moved is in turn at that boundary. */
  lemma ElevatorOrder(labels: seq<Label>)
    requires IsRunOf(EMPTY, labels)
    ensures var d := After(EMPTY, labels); Kept(d.queue, Cut(d.queue)) && InTurnSince(d)
  {
    RunOk(EMPTY, labels);
    SinceMoved(After(EMPTY, labels));
  }

  // ----- where the boundary is

  /** While the request named for it is on the queue, the boundary is at its end. */
  ghost predicate AtNamed(d: Dispatch) {
    && (d.boundaryRq != None ==> d.boundaryRq.value < d.nextId)
    && forall r :: r in d.queue && d.boundaryRq == Some(r.id) ==> d.boundary == r.end
  }

  lemma DispatchedNamed(d: Dispatch, x: Spot)
    requires AllMarked(d) && AtNamed(d)
    ensures AllMarked(Dispatched(d, x)) && AtNamed(Dispatched(d, x))
  {
    var e := Dispatched(d, x);
    var rq := Rq(d.nextId, x.pos, x.end, x.kind, false, Mark(e.boundary, e.era, x.tail));
    assert forall r :: r in e.queue ==> (r in d.queue && Marked(d, r)) || r == rq;
  }

  lemma {:induction false} DrainedNamed(d: Dispatch, xs: seq<Spot>)
    requires AllMarked(d) && AtNamed(d)
    ensures AllMarked(Drain(d, xs)) && AtNamed(Drain(d, xs)) && d.nextId <= Drain(d, xs).nextId
    ensures (forall x :: x in xs ==> !x.tail) ==>
      && Drain(d, xs).boundary == d.boundary && Drain(d, xs).boundaryRq == d.boundaryRq
      && forall r :: r in Drain(d, xs).queue && r !in d.queue ==> r.mark.boundary == d.boundary
    ensures (exists x :: x in xs && x.tail) ==>
      Drain(d, xs).boundaryRq != None && d.nextId <= Drain(d, xs).boundaryRq.value
  {
    if xs == [] {
    } else {
      var front, x := xs[..|xs| - 1], xs[|xs| - 1];
      assert xs == front + [x];
      DrainedNamed(d, front);
      DispatchedNamed(Drain(d, front), x);
    }
  }

  lemma BarrierNamed(d: Dispatch, drained: seq<Spot>, pos: nat, end: nat, kind: nat)
    requires AllMarked(d) && AtNamed(d)
    ensures AtNamed(Next(d, Barrier(drained, pos, end, kind)))
    ensures (forall x :: x in drained ==> !x.tail) ==>
      var e := Next(d, Barrier(drained, pos, end, kind));
      && e.boundary == end && e.boundaryRq == Some(d.nextId)
      && forall r :: r in e.queue && r !in d.queue && !r.stop ==> r.mark.boundary == end
  {
    var m := MoveTo(d, end, Some(d.nextId)).(nextId := d.nextId + 1);
    assert forall r :: r in d.queue ==> Marked(d, r);
    DrainedNamed(m, drained);
  }

  lemma StepNamed(d: Dispatch, l: Label)
    requires AllMarked(d) && AtNamed(d) && Enabled(d, l)
    ensures AtNamed(Next(d, l))
  {
    match l {
      case Put(x) => DispatchedNamed(d, x);
      case Barrier(drained, pos, end, kind) => BarrierNamed(d, drained, pos, end, kind);
      case Stop(at, pos, end, kind) =>
        assert forall r :: r in Next(d, l).queue ==> (r in d.queue && Marked(d, r)) || r == StopRq(d, pos, end, kind);
      case Peek(reused) =>
        assert d.queue[0] in d.queue && forall r :: r in d.queue[1..] ==> r in d.queue;
      case Take => assert forall r :: r in d.queue[1..] ==> r in d.queue;
    }
  }

  lemma {:induction false} RunNamed(d: Dispatch, labels: seq<Label>)
    requires Ok(d) && AtNamed(d) && IsRunOf(d, labels)
    ensures AtNamed(After(d, labels))
    decreases |labels|
  {
    if labels == [] {
    } else {
      StepOk(d, labels[0]);
      StepNamed(d, labels[0]);
      RunNamed(Next(d, labels[0]), labels[1..]);
    }
  }

  /** After every run: while a barrier, or a request put at the end, that was named for the boundary is still on the
      queue, the boundary is at its end; and after that a request that the driver sees takes it to its own end. */
  lemma BoundaryStays(labels: seq<Label>)
    requires IsRunOf(EMPTY, labels)
    ensures var d := After(EMPTY, labels);
            && AtNamed(d)
            && (d.queue != [] && !Named(d) && d.boundaryRq == None ==> Next(d, Peek(false)).boundary == d.queue[0].end)
            && (d.queue != [] && d.boundaryRq == Some(d.queue[0].id) ==>
                  Next(d, Peek(false)).boundary == d.boundary == d.queue[0].end
                    && Next(d, Peek(false)).boundaryRq == None)
            && (d.queue != [] && Named(d) && d.boundaryRq != Some(d.queue[0].id) ==>
                  Next(d, Peek(false)).boundary == d.boundary && Next(d, Peek(false)).boundaryRq == d.boundaryRq)
  {
    RunNamed(EMPTY, labels);
    var d := After(EMPTY, labels);
    if d.queue != [] { assert d.queue[0] in d.queue; }
  }

  // ----- one boundary for the whole part

  predicate TurnOk(boundary: nat, s: seq<Rq>, i: nat, j: nat)
    requires i < j < |s|
  {
    if SameKind(s, i, j) then InTurn(boundary, s[i], s[j]) else s[i].id < s[j].id
  }

  /** In one-way elevator order at one boundary, block by block. */
  predicate Ordered(boundary: nat, s: seq<Rq>, c: nat) {
    forall i: nat, j: nat {:trigger TurnOk(boundary, s, i, j)} :: c <= i < j < |s| ==> TurnOk(boundary, s, i, j)
  }

  /** Since the boundary last moved behind the last stop, all is in order at one boundary. */
  lemma OrderedSince(d: Dispatch)
    requires Ok(d) && forall k :: Cut(d.queue) <= k < |d.queue| ==> d.queue[k].mark.era == d.era
    ensures Ordered(d.boundary, d.queue, Cut(d.queue))
  {
    SinceMoved(d);
    forall i: nat, j: nat {:trigger TurnOk(d.boundary, d.queue, i, j)} | Cut(d.queue) <= i < j < |d.queue|
      ensures TurnOk(d.boundary, d.queue, i, j) {
      assert PairOk(d.queue, i, j) && SinceOk(d, i, j);
    }
  }

  /** A request that starts between two boundaries. */
  predicate Between(b: nat, b': nat, r: Rq) { (r.pos >= b) != (r.pos >= b') }

  /** No block of one kind holds both a request that starts between the boundaries and one that does not. */
  predicate Unmixed(b: nat, b': nat, s: seq<Rq>, c: nat) {
    forall i: nat, j: nat {:trigger SameKind(s, i, j)} ::
      c <= i < j < |s| && SameKind(s, i, j) ==> Between(b, b', s[i]) == Between(b, b', s[j])
  }

  lemma TurnMoves(b: nat, b': nat, x: Rq, y: Rq)
    requires InTurn(b, x, y)
    ensures InTurn(b', x, y) <==> Between(b, b', x) == Between(b, b', y)
  {
  }

  /** Exactly when a move of the boundary leaves the order as it is. */
  lemma MoveKeeps(b: nat, b': nat, s: seq<Rq>, c: nat)
    requires Ordered(b, s, c)
    ensures Ordered(b', s, c) <==> Unmixed(b, b', s, c)
  {
    if Ordered(b', s, c) {
      forall i: nat, j: nat {:trigger SameKind(s, i, j)} | c <= i < j < |s| && SameKind(s, i, j)
        ensures Between(b, b', s[i]) == Between(b, b', s[j]) {
        assert TurnOk(b, s, i, j) && TurnOk(b', s, i, j);
        TurnMoves(b, b', s[i], s[j]);
      }
    }
    if Unmixed(b, b', s, c) {
      forall i: nat, j: nat {:trigger TurnOk(b', s, i, j)} | c <= i < j < |s| ensures TurnOk(b', s, i, j) {
        assert TurnOk(b, s, i, j);
        if SameKind(s, i, j) { TurnMoves(b, b', s[i], s[j]); }
      }
    }
  }

  // ----- no one boundary for every run

  const READ := 0
  const WRITE := 1

  function At(id: nat, pos: nat, kind: nat, boundary: nat, era: nat): Rq {
    Rq(id, pos, pos + 8, kind, false, Mark(boundary, era, false))
  }

  const FOUR := [Put(Spot(400, 408, READ, false)), Put(Spot(300, 308, WRITE, false)), Put(Spot(500, 508, WRITE, false)),
                 Peek(false)]

  lemma FirstFour()
    ensures IsRunOf(EMPTY, FOUR)
    ensures After(EMPTY, FOUR) == Dispatch([At(0, 400, READ, 0, 0).(stop := true), At(1, 300, WRITE, 0, 0),
                                            At(2, 500, WRITE, 0, 0)], 408, None, 3, 1)
  {
    var a, b, c := At(0, 400, READ, 0, 0), At(1, 300, WRITE, 0, 0), At(2, 500, WRITE, 0, 0);
    PlaceIs([], 0, a, 0);
    PlaceIs([a], 0, b, 1);
    PlaceIs([a, b], 0, c, 2);
    var d1, d2, d3 := Dispatch([a], 0, None, 1, 0), Dispatch([a, b], 0, None, 2, 0), Dispatch([a, b, c], 0, None, 3, 0);
    var d4 := Dispatch([a.(stop := true), b, c], 408, None, 3, 1);
    assert [a, b, c][1..] == [b, c];
    assert Next(EMPTY, FOUR[0]) == d1 && Next(d1, FOUR[1]) == d2 && Next(d2, FOUR[2]) == d3 && Next(d3, FOUR[3]) == d4;
    RunFrom(d3, FOUR[3..], d4);
    assert FOUR[2..][1..] == FOUR[3..] && FOUR[1..][1..] == FOUR[2..];
    RunFrom(d2, FOUR[2..], d3);
    RunFrom(d1, FOUR[1..], d2);
    RunFrom(EMPTY, FOUR, d1);
  }

  lemma RunFrom(d: Dispatch, labels: seq<Label>, e: Dispatch)
    requires labels != [] && Enabled(d, labels[0]) && e == Next(d, labels[0]) && IsRunOf(e, labels[1..])
    ensures IsRunOf(d, labels) && After(d, labels) == After(e, labels[1..])
  {
  }

  /** The driver sees the read, and a write sorted in at the boundary that moved leaves a queue that is in order at no
      boundary. */
  lemma SeenHeadMoves()
    ensures IsRunOf(EMPTY, FOUR)
    ensures var d := Next(After(EMPTY, FOUR), Put(Spot(450, 458, WRITE, false)));
            && d.queue == [At(0, 400, READ, 0, 0).(stop := true), At(3, 450, WRITE, 408, 1), At(1, 300, WRITE, 0, 0),
                           At(2, 500, WRITE, 0, 0)]
            && Cut(d.queue) == 1 && forall boundary :: !Ordered(boundary, d.queue, 1)
  {
    FirstFour();
    var a, b, c := At(0, 400, READ, 0, 0).(stop := true), At(1, 300, WRITE, 0, 0), At(2, 500, WRITE, 0, 0);
    var x := At(3, 450, WRITE, 408, 1);
    PlaceIs([a, b, c], 408, x, 1);
    var q := [a, x, b, c];
    assert Next(After(EMPTY, FOUR), Put(Spot(450, 458, WRITE, false))).queue == q;
    CutIs(q, 1);
    forall boundary ensures !Ordered(boundary, q, 1) {
      assert SameKind(q, 1, 2) && SameKind(q, 2, 3);
      assert !TurnOk(boundary, q, 1, 2) || !TurnOk(boundary, q, 2, 3);
    }
  }

  // ----- in place

  class DispatchList {
    var queue: seq<Rq>
    var boundary: nat
    var boundaryRq: Option<nat>
    var nextId: nat
    var era: nat

    function State(): Dispatch
      reads this
    {
      Dispatch(queue, boundary, boundaryRq, nextId, era)
    }

    constructor ()
      ensures State() == EMPTY
    {
      queue, boundary, boundaryRq, nextId, era := [], 0, None, 0, 0;
    }

    /** elv_dispatch_sort. */
    method Sort(x: Spot)
      requires !x.tail
      modifies `queue, `nextId
      ensures State() == Dispatched(old(State()), x)
    {
      var rq := Rq(nextId, x.pos, x.end, x.kind, false, Mark(boundary, era, false));
      queue := Insert(queue, boundary, rq);
      nextId := nextId + 1;
    }

    /** elv_dispatch_add_tail. */
    method AddTail(x: Spot)
      requires x.tail
      modifies this
      ensures State() == Dispatched(old(State()), x)
    {
      boundary, boundaryRq, era := x.end, Some(nextId), era + 1;
      queue := queue + [Rq(nextId, x.pos, x.end, x.kind, false, Mark(boundary, era, true))];
      nextId := nextId + 1;
    }

    /** elv_drain_elevator: what the scheduler still holds. */
    method DrainElevator(xs: seq<Spot>)
      modifies this
      ensures State() == Drain(old(State()), xs)
    {
      for n := 0 to |xs|
        invariant State() == Drain(old(State()), xs[..n])
      {
        assert xs[..n + 1][..n] == xs[..n];
        if xs[n].tail { AddTail(xs[n]); } else { Sort(xs[n]); }
      }
      assert xs[..|xs|] == xs;
    }

    /** __elv_add_request for a file system request with a barrier flag. */
    method AddBarrier(xs: seq<Spot>, pos: nat, end: nat, kind: nat)
      modifies this
      ensures State() == Next(old(State()), Barrier(xs, pos, end, kind))
    {
      var rq := Rq(nextId, pos, end, kind, true, Mark(boundary, era, false));
      boundary, boundaryRq, era, nextId := end, Some(rq.id), era + 1, nextId + 1;
      DrainElevator(xs);
      queue := queue + [rq];
    }

    /** blk_peek_request, once. */
    method PeekHead(reused: bool) returns (rq: Rq)
      requires Enabled(State(), Peek(reused))
      modifies this
      ensures State() == Next(old(State()), Peek(reused)) && rq == queue[0] && rq.stop
    {
      rq := queue[0].(stop := true);
      queue := [rq] + queue[1..];
      if boundaryRq == None || boundaryRq == Some(rq.id) || reused {
        boundary, boundaryRq, era := rq.end, None, era + 1;
      }
    }
  }
}
