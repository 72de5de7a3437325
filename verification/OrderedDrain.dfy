/** Barrier ordering on a queue that orders by draining: whatever is requeued, a barrier's own requests reach the
    driver only after everything submitted before it has completed, and nothing submitted after it reaches the
    driver before it has been ended.  A sequence in progress is never stuck. */
module OrderedDrain {
  import opened Basics
  import opened OrderedQueue
  import opened OrderedOnce

  // ----- the property, read off the event log alone

  function Retires(log: seq<Event>): set<Request> { set ev | ev in log && ev.Retire? :: ev.rq }

  /** All pairs (a, b) such that a was submitted before b. */
  function SubmitOrder(log: seq<Event>): set<(Request, Request)> {
    if log == [] then {}
    else
      var front, ev := log[..|log| - 1], log[|log| - 1];
      SubmitOrder(front) + (if ev.Submit? then set a | a in Submits(front) :: (a, ev.rq) else {})
  }

  predicate Over(log: seq<Event>, a: Request) {
    (a.kind.Fs? ==> a in Retires(log)) && (a.kind.Barrier? ==> a in Ends(log))
  }

  /** Everything submitted before `b` is over. */
  predicate AllBeforeOver(log: seq<Event>, b: Request) {
    forall p :: p in SubmitOrder(log) && p.1 == b ==> Over(log, p.0)
  }

  predicate InOrderNext(log: seq<Event>, ev: Event) {
    match ev
    case Issue(r) => forall p :: p in SubmitOrder(log) && p.1 == r && p.0.kind.Barrier? ==> p.0 in Ends(log)
    case IssueStage(b, x) =>
      && AllBeforeOver(log, b)
      && forall s, y: nat :: s in Starts(log) && s.0 == b && s.1.Wants(y) && y < x ==> (b, y) in StageRetires(log)
    case End(b, _) => AllBeforeOver(log, b)
    case _ => true
  }

  /** Every event of the log comes in the order the barriers ask for. */
  predicate InOrder(log: seq<Event>) {
    forall i {:trigger InOrderNext(log[..i], log[i])} :: 0 <= i < |log| ==> InOrderNext(log[..i], log[i])
  }

  lemma ExtendOrder(log: seq<Event>, ev: Event)
    ensures Retires(log + [ev]) == Retires(log) + (if ev.Retire? then {ev.rq} else {})
    ensures SubmitOrder(log + [ev])
            == SubmitOrder(log) + (if ev.Submit? then set a | a in Submits(log) :: (a, ev.rq) else {})
    ensures InOrder(log + [ev]) <==> InOrder(log) && InOrderNext(log, ev)
  {
    InExtended(log, ev);
    var l := log + [ev];
    assert l[..|log|] == log;
    assert InOrderNext(l[..|log|], l[|log|]) <==> InOrderNext(log, ev);
    forall i | 0 <= i < |log| ensures InOrderNext(l[..i], l[i]) <==> InOrderNext(log[..i], log[i]) {
      assert l[..i] == log[..i];
    }
  }

  // ----- the invariant

  predicate DrainMode(m: Mode) { m.drain && !m.tag && Accepted(m) }

  /** Where a request belongs in the order of service; special requests belong anywhere. */
  function Key(r: Request): nat {
    10 * r.epoch + match r.kind
                   case Fs => 0
                   case Proxy(x) => if x <= POSTFLUSH then x else DONE
                   case Barrier(_) => 6
                   case Special => 0
  }

  predicate MayPrecede(a: Request, b: Request) {
    a.kind.Special? || b.kind.Special? || Key(a) < Key(b) || (a.kind.Fs? && b.kind.Fs? && Key(a) == Key(b))
  }

  predicate Sorted(list: seq<Request>) { forall i, j :: 0 <= i < j < |list| ==> MayPrecede(list[i], list[j]) }

  /** A file system request on the list: not from before the current epoch, and after the queue has drained
      not from the current epoch either. */
  predicate Listed(r: Request, ordseq: set<nat>, base: nat, epoch: nat) {
    && (r.kind.Fs? ==> base <= r.epoch <= epoch && Colored(r) && (DRAIN in ordseq ==> base < r.epoch))
    && (r.kind.Barrier? ==> base <= r.epoch < epoch && Colored(r) && (ordseq != {} ==> base < r.epoch))
    && (r.kind.Proxy? ==> r.epoch == base < epoch && IsStage(r.kind.stage))
  }

  predicate OrdList(list: seq<Request>, ordseq: set<nat>, base: nat, epoch: nat) {
    Sorted(list) && forall r :: r in list ==> Listed(r, ordseq, base, epoch)
  }

  predicate OrdDriver(driver: set<Request>, ordseq: set<nat>, base: nat) {
    forall r :: r in driver ==>
      && (r.kind.Fs? ==> r.epoch == base && Colored(r) && DRAIN !in ordseq)
      && (r.kind.Proxy? ==> r.epoch == base && r.kind.stage == CurSeq(ordseq))
  }

  predicate Stops(r: Request, soft: set<Request>, started: set<Request>) { r.Hard() || r in soft || r in started }

  /** Requests the scheduler still holds, or has handed over and may reorder, belong to an open epoch. */
  predicate OrdSorted(list: seq<Request>, sorted: set<Request>, soft: set<Request>, started: set<Request>, first: nat,
                      epoch: nat) {
    && (forall r :: r in sorted ==> r.epoch == epoch && Colored(r) && r !in soft && r !in started)
    && (forall r :: r in list && !Stops(r, soft, started) ==> r.kind.Fs? && first <= r.epoch)
  }

  /** A sequence that waits for the queue to drain has something to wait for. */
  predicate Moving(q: Queue) {
    Active(q) && CurSeq(q.ordseq) == DRAIN && q.driver == {} ==> q.list != [] && ReqSeq(q, q.list[0]) == DRAIN
  }

  /** No request is lost, and epochs follow the order of submission. */
  predicate OrdLog(log: seq<Event>, held: set<Request>, epoch: nat) {
    && (forall r :: r in Submits(log) && r.kind.Fs? && r !in Retires(log) ==> r in held)
    && (forall r :: r in Submits(log) ==> r.epoch + (if r.kind.Barrier? then 1 else 0) <= epoch)
    && (forall p :: p in SubmitOrder(log) ==>
          p.0.epoch + (if p.0.kind.Barrier? then 1 else 0) <= p.1.epoch)
  }

  function First(q: Queue): nat { if Active(q) then q.ended + 1 else q.ended }

  /** Only requests that exist carry flags. */
  predicate Marked(soft: set<Request>, started: set<Request>, nextId: nat) {
    forall r :: r in soft + started ==> r.id < nextId
  }

  predicate OrdInv(q: Queue) {
    && Marked(q.soft, q.started, q.nextId)
    && !q.warned && DrainMode(q.nextOrdered) && !q.ordered.tag
    && OrdList(q.list, q.ordseq, q.ended, q.epoch)
    && OrdDriver(q.driver, q.ordseq, q.ended)
    && OrdSorted(q.list, q.sorted, q.soft, q.started, First(q), q.epoch)
    && OrdLog(q.log, Held(q), q.epoch)
    && InOrder(q.log)
  }

  // ----- consequences

  lemma {:induction false} BarsMembers(list: seq<Request>, i: nat)
    requires i < |Bars(list)|
    ensures Bars(list)[i] in list && Bars(list)[i].kind.Barrier?
  {
    if list[0].kind.Barrier? {
      if i > 0 { BarsMembers(list[1..], i - 1); }
    } else {
      BarsMembers(list[1..], i);
    }
  }

  /** The barrier that closes an open epoch is on the list. */
  lemma BarrierListed(q: Queue, e: nat) returns (b: Request)
    requires Turned(q) && First(q) <= e < q.epoch
    ensures b in q.list && b.kind.Barrier? && b.epoch == e && Colored(b)
  {
    b := Bars(q.list)[e - First(q)];
    BarsMembers(q.list, e - First(q));
  }

  lemma HeadLeast(list: seq<Request>, r: Request)
    requires Sorted(list) && list != [] && r in list && !list[0].kind.Special? && !r.kind.Special?
    ensures Key(list[0]) <= Key(r)
  {
    var i :| 0 <= i < |list| && list[i] == r;
    if i > 0 { assert MayPrecede(list[0], list[i]); }
  }

  /** A file system request at the head belongs to the current epoch, or the sequence in progress holds it back. */
  lemma HeadEpoch(q: Queue)
    requires Turned(q) && OrdList(q.list, q.ordseq, q.ended, q.epoch)
    requires q.list != [] && q.list[0].kind.Fs?
    ensures !Active(q) ==> q.list[0].epoch == q.ended
    ensures Active(q) ==> q.list[0].epoch <= q.ended + 1
  {
    var r := q.list[0];
    assert r in q.list && Listed(r, q.ordseq, q.ended, q.epoch);
    if r.epoch > First(q) {
      var b := BarrierListed(q, First(q));
      HeadLeast(q.list, b);
    }
  }

  // ----- completing stages

  /** With the queue drained, everything submitted before the barrier in progress is over. */
  lemma EarlierOver(q: Queue, full: set<nat>)
    requires Places(q) && Active(q) && Turned(q) && DRAIN in full
    requires Unfinished(q.log, q.ordseq, q.orig, Held(q))
    requires OrdList(q.list, full, q.ended, q.epoch) && OrdDriver(q.driver, full, q.ended)
    requires OrdSorted(q.list, q.sorted, q.soft, q.started, q.ended + 1, q.epoch)
    requires OrdLog(q.log, Held(q), q.epoch)
    ensures AllBeforeOver(q.log, q.orig.value)
  {
    forall p | p in SubmitOrder(q.log) && p.1 == q.orig.value ensures Over(q.log, p.0) {
      OrderSubmitted(q.log, p);
      EarlierOne(q, full, p.0);
    }
  }

  lemma {:induction false} OrderSubmitted(log: seq<Event>, p: (Request, Request))
    requires p in SubmitOrder(log)
    ensures p.0 in Submits(log)
  {
    var front, ev := log[..|log| - 1], log[|log| - 1];
    assert log == front + [ev];
    Extend(front, ev);
    if p in SubmitOrder(front) {
      OrderSubmitted(front, p);
    }
  }

  lemma EarlierOne(q: Queue, full: set<nat>, a: Request)
    requires Places(q) && Active(q) && Turned(q) && DRAIN in full
    requires Unfinished(q.log, q.ordseq, q.orig, Held(q))
    requires OrdList(q.list, full, q.ended, q.epoch) && OrdDriver(q.driver, full, q.ended)
    requires OrdSorted(q.list, q.sorted, q.soft, q.started, q.ended + 1, q.epoch)
    requires OrdLog(q.log, Held(q), q.epoch)
    requires a in Submits(q.log) && a.epoch + (if a.kind.Barrier? then 1 else 0) <= q.ended
    ensures Over(q.log, a)
  {
    assert a in q.list ==> Listed(a, full, q.ended, q.epoch);
  }

  /** Ending the barrier opens the next epoch. */
  lemma NextEpoch(list: seq<Request>, driver: set<Request>, full: set<nat>, base: nat, epoch: nat)
    requires OrdList(list, full, base, epoch) && OrdDriver(driver, full, base) && full != {} && DRAIN in full
    requires forall r :: r in list || r in driver ==> !r.kind.Proxy?
    ensures OrdList(list, {}, base + 1, epoch) && OrdDriver(driver, {}, base + 1)
  {
    forall r | r in list ensures Listed(r, {}, base + 1, epoch) {
      assert Listed(r, full, base, epoch);
    }
  }

  lemma EndOrdLog(log: seq<Event>, held: set<Request>, epoch: nat, b: Request, err: int)
    requires OrdLog(log, held, epoch) && InOrder(log) && AllBeforeOver(log, b)
    ensures OrdLog(log + [End(b, err)], held, epoch) && InOrder(log + [End(b, err)])
  {
    ExtendOrder(log, End(b, err));
    Extend(log, End(b, err));
  }

  lemma CompleteSeqOrd(q: Queue, stages: set<nat>, err: int)
    requires !q.warned && DrainMode(q.nextOrdered) && !q.ordered.tag && Active(q) && Turned(q)
    requires Marked(q.soft, q.started, q.nextId)
    requires OrdList(q.list, q.ordseq + stages, q.ended, q.epoch)
    requires OrdDriver(q.driver, q.ordseq + stages, q.ended)
    requires OrdSorted(q.list, q.sorted, q.soft, q.started, q.ended + 1, q.epoch)
    requires OrdLog(q.log, Held(q), q.epoch) && InOrder(q.log)
    requires CurSeq(q.ordseq + stages) == DONE ==>
               && AllBeforeOver(q.log, q.orig.value)
               && forall r :: r in q.list || r in q.driver ==> !r.kind.Proxy?
    ensures OrdInv(CompleteSeq(q, stages, err))
  {
    var r := CompleteSeq(q, stages, err);
    assert Held(r) == Held(q) && First(r) == q.ended + 1;
    if CurSeq(q.ordseq + stages) == DONE {
      NextEpoch(q.list, q.driver, q.ordseq + stages, q.ended, q.epoch);
      EndOrdLog(q.log, Held(q), q.epoch, q.orig.value, FirstError(q.orderr, err));
      assert r.log == q.log + [End(q.orig.value, FirstError(q.orderr, err))];
    }
  }

  /** If the head of the list is past DRAIN, no request of the current epoch is left on it. */
  lemma DrainedList(q: Queue)
    requires Active(q) && Turned(q) && OrdList(q.list, q.ordseq, q.ended, q.epoch)
    requires q.list == [] || (ReqSeq(q, q.list[0]) > DRAIN && (!q.list[0].kind.Proxy? ==> q.list[0].id >= 6))
    ensures OrdList(q.list, q.ordseq + {DRAIN}, q.ended, q.epoch)
  {
    forall r | r in q.list ensures Listed(r, q.ordseq + {DRAIN}, q.ended, q.epoch) {
      var h := q.list[0];
      assert Listed(r, q.ordseq, q.ended, q.epoch) && Listed(h, q.ordseq, q.ended, q.epoch);
      if r.kind.Fs? && r.epoch == q.ended && !h.kind.Special? {
        HeadLeast(q.list, r);
      }
    }
  }

  lemma DrainCheckOrd(q: Queue)
    requires Inv(q) && OrdInv(q)
    ensures OrdInv(DrainCheck(q))
  {
    if DrainCheck(q) != q {
      assert q.list != [] ==> q.list[0] in Held(q);
      DrainedList(q);
      DrainedDriver(q);
      EarlierOver(q, q.ordseq + {DRAIN});
      if CurSeq(q.ordseq + {DRAIN}) == DONE {
        ProxiesGone(q.ordseq, q.orig, Held(q));
      }
      CompleteSeqOrd(q, {DRAIN}, 0);
    }
  }

  lemma ProxiesGone(ordseq: set<nat>, orig: Option<Request>, held: set<Request>)
    requires Sequence(ordseq, orig, held) && CurSeq(ordseq + {DRAIN}) == DONE
    ensures forall r :: r in held ==> !r.kind.Proxy?
  {
  }

  lemma DrainedDriver(q: Queue)
    requires Inv(q) && Active(q) && OrdDriver(q.driver, q.ordseq, q.ended)
    requires q.inFlight == 0 && CurSeq(q.ordseq) == DRAIN
    ensures OrdDriver(q.driver, q.ordseq + {DRAIN}, q.ended)
  {
    assert FsOf(q.driver) == {};
    forall r | r in q.driver ensures !r.kind.Fs? && !r.kind.Proxy? {
      assert r in Held(q) && r !in FsOf(q.driver);
    }
  }

  // ----- completing and requeueing requests

  lemma SortedLeave(list: seq<Request>, sorted: set<Request>, soft: set<Request>, started: set<Request>, first: nat,
                    epoch: nat, rq: Request)
    requires OrdSorted(list, sorted, soft, started, first, epoch) && rq !in list
    ensures OrdSorted(list, sorted, soft, started - {rq}, first, epoch)
  {
  }

  lemma RetireOrdLog(log: seq<Event>, held: set<Request>, epoch: nat, rq: Request)
    requires OrdLog(log, held, epoch) && InOrder(log)
    ensures OrdLog(log + [Retire(rq)], held - {rq}, epoch) && InOrder(log + [Retire(rq)])
  {
    ExtendOrder(log, Retire(rq));
    Extend(log, Retire(rq));
  }

  lemma StageOrdLog(log: seq<Event>, held: set<Request>, epoch: nat, rq: Request, b: Request, x: nat, err: int)
    requires OrdLog(log, held, epoch) && InOrder(log) && AllBeforeOver(log, b) && rq.kind.Proxy?
    ensures var log' := log + [RetireStage(b, x, err)];
            OrdLog(log', held - {rq}, epoch) && InOrder(log') && AllBeforeOver(log', b)
  {
    ExtendOrder(log, RetireStage(b, x, err));
    Extend(log, RetireStage(b, x, err));
  }

  lemma FinishingOrd(q: Queue, rq: Request)
    requires Inv(q) && OrdInv(q) && rq in q.driver && !rq.kind.Proxy?
    ensures OrdInv(Finishing(q, rq))
  {
    var r := Finishing(q, rq);
    FinishingKeeps(q, rq);
    assert rq !in Elems(q.list);
    SortedLeave(q.list, q.sorted, q.soft, q.started, First(q), q.epoch, rq);
    if rq.kind.Fs? {
      RetireOrdLog(q.log, Held(q), q.epoch, rq);
    } else {
      assert OrdLog(q.log, Held(q) - {rq}, q.epoch);
    }
  }

  /** A proxy is in the driver only in its turn, so it is alone there among ordered requests. */
  lemma StageDriver(q: Queue, rq: Request)
    requires Inv(q) && OrdInv(q) && rq in q.driver && rq.kind.Proxy?
    ensures Active(q) && IsStage(rq.kind.stage) && CurSeq(q.ordseq) == rq.kind.stage && DRAIN in q.ordseq
    ensures rq == ProxyOf(rq.kind.stage, q.orig.value)
    ensures OrdDriver(q.driver - {rq}, q.ordseq + {rq.kind.stage}, q.ended)
  {
    assert rq in Held(q);
    forall s | s in q.driver - {rq} ensures !s.kind.Proxy? && !s.kind.Fs? {
      assert s in Held(q);
    }
  }

  lemma LaterStage(list: seq<Request>, ordseq: set<nat>, x: nat, base: nat, epoch: nat)
    requires OrdList(list, ordseq, base, epoch) && ordseq != {} && DRAIN in ordseq
    ensures OrdList(list, ordseq + {x}, base, epoch)
  {
    forall r | r in list ensures Listed(r, ordseq + {x}, base, epoch) {
      assert Listed(r, ordseq, base, epoch);
    }
  }

  lemma RetiringOrd(q: Queue, rq: Request, r: Queue, err: int)
    requires Inv(q) && OrdInv(q) && rq in q.driver && rq.kind.Proxy? && Active(q) && q.orig.Some?
    requires r == q.(orderr := r.orderr, driver := q.driver - {rq}, started := q.started - {rq}, inFlight := r.inFlight,
                     log := q.log + [RetireStage(q.orig.value, rq.kind.stage, err)])
    ensures OrdList(r.list, r.ordseq + {rq.kind.stage}, r.ended, r.epoch)
    ensures OrdDriver(r.driver, r.ordseq + {rq.kind.stage}, r.ended)
    ensures OrdSorted(r.list, r.sorted, r.soft, r.started, r.ended + 1, r.epoch)
    ensures OrdLog(r.log, Held(r), r.epoch) && InOrder(r.log) && AllBeforeOver(r.log, q.orig.value)
    ensures CurSeq(r.ordseq + {rq.kind.stage}) == DONE ==> forall s :: s in r.list || s in r.driver ==> !s.kind.Proxy?
  {
    var x, b := rq.kind.stage, q.orig.value;
    StageDriver(q, rq);
    LaterStage(q.list, q.ordseq, x, q.ended, q.epoch);
    assert rq !in Elems(q.list);
    SortedLeave(q.list, q.sorted, q.soft, q.started, q.ended + 1, q.epoch, rq);
    EarlierOver(q, q.ordseq);
    StageOrdLog(q.log, Held(q), q.epoch, rq, b, x, err);
    HeldLeave(q, r, rq);
    if CurSeq(q.ordseq + {x}) == DONE {
      LastProxy(q.ordseq, b, Held(q), x);
      assert forall s :: s in r.list || s in r.driver ==> s in Held(q) && s != rq;
    }
  }

  lemma ProxyOrd(q: Queue, rq: Request, err: int)
    requires Inv(q) && OrdInv(q) && rq in q.driver && rq.kind.Proxy?
    ensures OrdInv(Complete(q, rq, err))
  {
    StageDriver(q, rq);
    ProxySplit(q, rq, err);
    var r := Emit(Retiring(q, rq, err), RetireStage(q.orig.value, rq.kind.stage, err));
    assert r.ordseq == q.ordseq;
    RetiringOrd(q, rq, r, err);
    CompleteSeqOrd(r, {rq.kind.stage}, err);
  }

  lemma HeldLeave(q: Queue, r: Queue, rq: Request)
    requires Places(q) && rq in q.driver && r.list == q.list && r.sorted == q.sorted && r.driver == q.driver - {rq}
    ensures Held(r) == Held(q) - {rq}
  {
  }

  lemma LastProxy(ordseq: set<nat>, b: Request, held: set<Request>, x: nat)
    requires ordseq != {} && Sequence(ordseq, Some(b), held) && CurSeq(ordseq + {x}) == DONE
    ensures forall r :: r in held && r.kind.Proxy? ==> r == ProxyOf(x, b)
  {
  }

  lemma FinishOrd(q: Queue, rq: Request, err: int)
    requires Inv(q) && OrdInv(q) && rq in q.driver
    ensures OrdInv(Complete(q, rq, err))
  {
    if rq.kind.Proxy? {
      ProxyOrd(q, rq, err);
    } else {
      FinishingKeeps(q, rq);
      FinishingOrd(q, rq);
      DrainCheckOrd(Finishing(q, rq));
    }
  }

  lemma SortedInsert(s: seq<Request>, pos: nat, rq: Request)
    requires Sorted(s) && pos <= |s|
    requires forall i :: 0 <= i < pos ==> MayPrecede(s[i], rq)
    requires forall i :: pos <= i < |s| ==> MayPrecede(rq, s[i])
    ensures Sorted(InsertAt(s, pos, rq))
  {
    var t := InsertAt(s, pos, rq);
    forall i, j | 0 <= i < j < |t| ensures MayPrecede(t[i], t[j]) {
      var i', j' := if i < pos then i else i - 1, if j < pos then j else j - 1;
      assert t[i] == (if i == pos then rq else s[i']) && t[j] == (if j == pos then rq else s[j']);
    }
  }

  /** While a sequence is in progress only special requests stand before the place a request of the driver
      is put back. */
  lemma RequeueBefore(q: Queue, rq: Request, i: nat)
    requires Inv(q) && OrdInv(q) && Active(q) && rq in q.driver && i < |q.list|
    requires forall j :: 0 <= j <= i ==> ReqSeq(q, q.list[j]) < ReqSeq(q, rq)
    ensures q.list[i].kind.Special?
  {
    assert rq in Held(q) && q.list[i] in Held(q);
    var r := q.list[i];
    assert Listed(r, q.ordseq, q.ended, q.epoch);
    if rq.kind.Proxy? {
      StageDriver(q, rq);
      if r.kind.Fs? || r.kind.Barrier? {
        SameColorLater(q, r, i);
      }
    }
  }

  lemma InListOrder(list: seq<Request>, i: nat, j: nat)
    requires Sorted(list) && i < |list| && j < |list|
    ensures i < j ==> MayPrecede(list[i], list[j])
  {
  }

  /** A request of the barrier's colour from a later epoch has the next barrier, of the other colour, before it. */
  lemma SameColorLater(q: Queue, r: Request, i: nat)
    requires Inv(q) && Active(q) && OrdList(q.list, q.ordseq, q.ended, q.epoch)
    requires i < |q.list| && r == q.list[i] && (r.kind.Fs? || r.kind.Barrier?)
    requires q.ended < r.epoch && r.color == q.orig.value.color && Colored(r)
    ensures exists j :: 0 <= j < i && ReqSeq(q, q.list[j]) == DONE
  {
    assert Listed(r, q.ordseq, q.ended, q.epoch);
    assert r.epoch != q.ended + 1;
    var b := BarrierListed(q, q.ended + 1);
    var j :| 0 <= j < |q.list| && q.list[j] == b;
    assert b in Held(q);
    InListOrder(q.list, i, j);
  }

  /** ... and what stands behind that place belongs there. */
  lemma RequeueAfter(q: Queue, rq: Request, r: Request)
    requires Inv(q) && OrdInv(q) && rq in q.driver && r in q.list
    ensures MayPrecede(rq, r)
  {
    assert rq in Held(q) && r in Held(q) && Listed(r, q.ordseq, q.ended, q.epoch);
    if rq.kind.Proxy? {
      StageDriver(q, rq);
    }
  }

  lemma RequeueList(q: Queue, rq: Request, pos: nat)
    requires Inv(q) && OrdInv(q) && rq in q.driver && pos <= |q.list|
    requires pos > 0 ==> Active(q) && forall i :: 0 <= i < pos ==> ReqSeq(q, q.list[i]) < ReqSeq(q, rq)
    ensures OrdList(InsertAt(q.list, pos, rq), q.ordseq, q.ended, q.epoch)
  {
    forall i | 0 <= i < pos ensures MayPrecede(q.list[i], rq) {
      RequeueBefore(q, rq, i);
    }
    forall i | pos <= i < |q.list| ensures MayPrecede(rq, q.list[i]) {
      RequeueAfter(q, rq, q.list[i]);
    }
    SortedInsert(q.list, pos, rq);
    InsertAtElems(q.list, pos, rq);
    RequeueListed(q, rq);
    assert forall r :: r in InsertAt(q.list, pos, rq) ==> r in Elems(q.list) + {rq};
  }

  lemma RequeueListed(q: Queue, rq: Request)
    requires Inv(q) && OrdInv(q) && rq in q.driver
    ensures Listed(rq, q.ordseq, q.ended, q.epoch)
  {
    assert rq in Held(q);
    if rq.kind.Proxy? {
      StageDriver(q, rq);
    }
  }

  lemma SortedEnter(list: seq<Request>, list': seq<Request>, sorted: set<Request>, soft: set<Request>,
                    started: set<Request>, first: nat, epoch: nat, rq: Request)
    requires OrdSorted(list, sorted, soft, started, first, epoch) && rq !in list && rq !in sorted
    requires Elems(list') == Elems(list) + {rq}
    ensures OrdSorted(list', sorted, soft + {rq}, started - {rq}, first, epoch)
  {
    assert forall r :: r in list' ==> r in Elems(list');
    assert forall r :: r in Elems(list) ==> r in list;
  }

  /** Where a requeued request goes, and what else changes. */
  lemma RequeueShape(q: Queue, rq: Request) returns (pos: nat)
    ensures pos <= |q.list| && Requeue(q, rq) == Returned(q, rq).(list := InsertAt(q.list, pos, rq))
    ensures pos > 0 ==> Active(q) && forall i :: 0 <= i < pos ==> ReqSeq(q, q.list[i]) < ReqSeq(q, rq)
  {
    var q1 := Returned(q, rq);
    assert forall x :: ReqSeq(q1, x) == ReqSeq(q, x);
    pos := if q1.ordseq == {} then 0 else RequeuePos(q1, q1.list, ReqSeq(q1, rq));
  }

  lemma RequeueOrd(q: Queue, rq: Request)
    requires Inv(q) && OrdInv(q) && rq in q.driver
    ensures OrdInv(Requeue(q, rq))
  {
    RequeueKeeps(q, rq);
    var r := Requeue(q, rq);
    var pos := RequeueShape(q, rq);
    assert rq !in Elems(q.list);
    RequeueList(q, rq, pos);
    InsertAtElems(q.list, pos, rq);
    SortedEnter(q.list, r.list, q.sorted, q.soft, q.started, First(q), q.epoch, rq);
  }

  // ----- handing the head of the list to the driver

  /** It is the turn of the request at the head of the list. */
  predicate MayIssue(q: Queue) {
    && q.list != []
    && match q.list[0].kind
       case Fs => q.list[0].epoch == q.ended && DRAIN !in q.ordseq
       case Barrier(_) => false
       case Special => true
       case Proxy(x) => Active(q) && x == CurSeq(q.ordseq)
  }

  lemma IssueInOrder(q: Queue)
    requires Inv(q) && OrdInv(q) && MayIssue(q) && q.list[0].kind.Fs?
    ensures InOrderNext(q.log, Issue(q.list[0]))
  {
    var r := q.list[0];
    forall p | p in SubmitOrder(q.log) && p.1 == r && p.0.kind.Barrier? ensures p.0 in Ends(q.log) {
      OrderSubmitted(q.log, p);
      assert p.0 in q.list ==> Listed(p.0, q.ordseq, q.ended, q.epoch);
    }
  }

  lemma IssueStageInOrder(q: Queue)
    requires Inv(q) && OrdInv(q) && MayIssue(q) && q.list[0].kind.Proxy?
    ensures InOrderNext(q.log, IssueStage(q.orig.value, q.list[0].kind.stage))
  {
    assert q.list[0] in Held(q);
    EarlierOver(q, q.ordseq);
    StagesBefore(q.log, q.ordseq, q.orig.value, q.orderr, q.seqMode, CurSeq(q.ordseq));
  }

  lemma StagesBefore(log: seq<Event>, ordseq: set<nat>, b: Request, orderr: int, mode: Mode, x: nat)
    requires Current(log, ordseq, b, orderr, mode) && x == CurSeq(ordseq)
    ensures forall s, y: nat :: s in Starts(log) && s.0 == b && s.1.Wants(y) && y < x ==> (b, y) in StageRetires(log)
  {
  }

  lemma IssueOrdLog(log: seq<Event>, held: set<Request>, epoch: nat, ev: Event)
    requires OrdLog(log, held, epoch) && InOrder(log) && InOrderNext(log, ev)
    requires ev.Issue? || ev.IssueStage? || ev.Start? || ev.DataError? || ev.Configure?
    ensures OrdLog(log + [ev], held, epoch) && InOrder(log + [ev])
  {
    ExtendOrder(log, ev);
    Extend(log, ev);
  }

  lemma TailOrd(list: seq<Request>, ordseq: set<nat>, base: nat, epoch: nat)
    requires list != [] && OrdList(list, ordseq, base, epoch)
    ensures OrdList(list[1..], ordseq, base, epoch)
  {
    assert forall r :: r in list[1..] ==> r in list;
  }

  lemma SortedTail(list: seq<Request>, sorted: set<Request>, soft: set<Request>, started: set<Request>, first: nat,
                   epoch: nat)
    requires list != [] && OrdSorted(list, sorted, soft, started, first, epoch) && list[0] !in sorted
    ensures OrdSorted(list[1..], sorted, soft, started + {list[0]}, first, epoch)
  {
    assert forall r :: r in list[1..] ==> r in list;
  }

  lemma DequeueOrd(q: Queue)
    requires Inv(q) && OrdInv(q) && MayIssue(q)
    ensures OrdInv(Dequeue(q))
  {
    var rq, r := q.list[0], Dequeue(q);
    DequeueKeeps(q);
    TailOrd(q.list, q.ordseq, q.ended, q.epoch);
    assert rq in Elems(q.list) && rq in Held(q) && Listed(rq, q.ordseq, q.ended, q.epoch);
    SortedTail(q.list, q.sorted, q.soft, q.started, First(q), q.epoch);
    match rq.kind {
      case Fs =>
        IssueInOrder(q);
        IssueOrdLog(q.log, Held(q), q.epoch, Issue(rq));
      case Proxy(x) =>
        IssueStageInOrder(q);
        IssueOrdLog(q.log, Held(q), q.epoch, IssueStage(q.orig.value, x));
      case Special => assert r.log == q.log;
    }
  }

  // ----- starting a sequence

  lemma StagedList(list: seq<Request>, ps: seq<Request>, b: Request, m: Mode, full: set<nat>, epoch: nat)
    requires list != [] && list[0] == b && b.kind.Barrier? && OrdList(list, {}, b.epoch, epoch) && full != {}
    requires forall r :: r in ps ==> r.kind.Proxy? && IsStage(r.kind.stage) && r == ProxyOf(r.kind.stage, b)
    requires forall i, j :: 0 <= i < j < |ps| ==> ps[i].kind.Proxy? && ps[j].kind.Proxy?
                                                  && ps[i].kind.stage < ps[j].kind.stage
    requires forall r :: r in list ==> !r.kind.Proxy?
    ensures OrdList(ps + list[1..], full, b.epoch, epoch)
    ensures forall r :: r in list[1..] && r.kind.Fs? ==> b.epoch < r.epoch
  {
    var t := ps + list[1..];
    assert b in list && Listed(b, {}, b.epoch, epoch);
    forall r | r in list[1..] ensures Listed(r, full, b.epoch, epoch) && (r.kind.Fs? ==> b.epoch < r.epoch)
                                      && (r.kind.Special? || Key(b) < Key(r))
    {
      var i :| 0 <= i < |list[1..]| && list[1..][i] == r;
      assert list[i + 1] == r && MayPrecede(list[0], list[i + 1]) && Listed(r, {}, b.epoch, epoch);
    }
    forall i, j | 0 <= i < j < |t| ensures MayPrecede(t[i], t[j]) {
      if j < |ps| {
        assert t[i] == ps[i] && t[j] == ps[j] && ps[i] in ps && ps[j] in ps;
      } else if i < |ps| {
        assert t[i] == ps[i] && ps[i] in ps && t[j] in list[1..];
      } else {
        assert t[i] == list[i - |ps| + 1] && t[j] == list[j - |ps| + 1];
      }
    }
    assert forall r :: r in t ==> r in ps || r in list[1..];
  }

  lemma StagedSorted(list: seq<Request>, ps: seq<Request>, sorted: set<Request>, soft: set<Request>,
                     started: set<Request>, base: nat, epoch: nat)
    requires list != [] && OrdSorted(list, sorted, soft, started, base, epoch)
    requires forall r :: r in ps ==> r.kind.Proxy?
    requires forall r :: r in list[1..] && r.kind.Fs? ==> base < r.epoch
    requires forall r :: r in sorted ==> r.kind.Fs?
    requires forall r :: r in list ==> !r.kind.Proxy?
    ensures OrdSorted(ps + list[1..], sorted, soft + Elems(ps), started - Elems(ps), base + 1, epoch)
  {
    assert forall r :: r in list[1..] ==> r in list;
    assert forall r :: r in ps + list[1..] ==> r in ps || r in list[1..];
  }

  lemma StagedDriver(q: Queue, full: set<nat>)
    requires Inv(q) && OrdInv(q) && !Active(q) && (DRAIN in full ==> q.inFlight == 0)
    ensures OrdDriver(q.driver, full, q.ended)
  {
    forall r | r in q.driver ensures !r.kind.Proxy? && (DRAIN in full ==> !r.kind.Fs?) {
      assert r in Held(q);
      assert r.kind.Fs? ==> r in FsOf(q.driver);
    }
  }

  lemma StartOrd(q: Queue)
    requires Inv(q) && OrdInv(q) && !Active(q) && q.list != [] && q.list[0].kind.Barrier?
    ensures OrdInv(StartOrdered(q).q)
  {
    var b := q.list[0];
    var m := SequenceMode(q.nextOrdered, b.kind.empty);
    var wait := m.drain && q.inFlight != 0;
    SkipFacts(m, wait);
    ProxyFacts(m, b);
    StagedOrd(q, b, m, Skipped(m, wait), Proxies(m, b));
  }

  lemma ProxyFacts(m: Mode, b: Request)
    ensures Distinct(Proxies(m, b))
    ensures forall r :: r in Proxies(m, b) ==> r.kind.Proxy? && IsStage(r.kind.stage) && r == ProxyOf(r.kind.stage, b)
  {
  }

  lemma StagedOrd(q: Queue, b: Request, m: Mode, skip: set<nat>, ps: seq<Request>)
    requires Inv(q) && OrdInv(q) && !Active(q) && q.list != [] && q.list[0] == b && b.kind.Barrier? && !m.tag
    requires Distinct(ps) && forall r :: r in ps ==> r.kind.Proxy? && IsStage(r.kind.stage)
                                                     && r == ProxyOf(r.kind.stage, b)
    requires forall i, j :: 0 <= i < j < |ps| ==> ps[i].kind.Proxy? && ps[j].kind.Proxy?
                                                  && ps[i].kind.stage < ps[j].kind.stage
    requires DRAIN in skip ==> q.inFlight == 0
    requires CurSeq({STARTED} + skip) == DONE ==> ps == []
    ensures OrdInv(CompleteSeq(Staged(q, m, ps), skip, 0))
  {
    var q2, full := Staged(q, m, ps), {STARTED} + skip;
    assert q2.ordseq + skip == full;
    StagedFacts(q, b, m, ps, full);
    StagedDriver(q, full);
    StagedTurned(q, m, ps);
    if CurSeq(full) == DONE {
      StagedEmpty(q, b, m, full);
    }
    CompleteSeqOrd(q2, skip, 0);
  }

  /** A sequence without any command to issue: the queue had already drained. */
  lemma StagedEmpty(q: Queue, b: Request, m: Mode, full: set<nat>)
    requires Inv(q) && OrdInv(q) && !Active(q) && q.list != [] && q.list[0] == b && b.kind.Barrier?
    requires DRAIN in full && OrdDriver(q.driver, full, q.ended)
    ensures var q2 := Staged(q, m, []);
            && AllBeforeOver(q2.log, b)
            && forall r :: r in q2.list || r in q2.driver ==> !r.kind.Proxy?
  {
    var q2 := Staged(q, m, []);
    StagedFacts(q, b, m, [], full);
    StagedTurned(q, m, []);
    StagedPlaces(q.list, q.driver, q.sorted, q.started, q.inFlight, []);
    assert b in Held(q);
    StartLogged(q.log, q.orig, Held(q), b, m);
    assert Held(q2) == Held(q) - {b};
    EarlierOver(q2, full);
    assert forall r :: r in q2.list || r in q2.driver ==> r in Held(q2);
  }

  lemma StagedFacts(q: Queue, b: Request, m: Mode, ps: seq<Request>, full: set<nat>)
    requires Inv(q) && OrdInv(q) && !Active(q) && q.list != [] && q.list[0] == b && b.kind.Barrier? && full != {}
    requires Distinct(ps) && forall r :: r in ps ==> r.kind.Proxy? && IsStage(r.kind.stage)
                                                     && r == ProxyOf(r.kind.stage, b)
    requires forall i, j :: 0 <= i < j < |ps| ==> ps[i].kind.Proxy? && ps[j].kind.Proxy?
                                                  && ps[i].kind.stage < ps[j].kind.stage
    ensures var q2 := Staged(q, m, ps);
            && OrdList(q2.list, full, q2.ended, q2.epoch)
            && OrdSorted(q2.list, q2.sorted, q2.soft, q2.started, q2.ended + 1, q2.epoch)
            && OrdLog(q2.log, Held(q2), q2.epoch) && InOrder(q2.log)
  {
    assert forall r :: r in q.list ==> r in Held(q);
    FirstTurn(b, Bars(q.list[1..]), q.ended, q.epoch);
    StagedList(q.list, ps, b, m, full, q.epoch);
    StagedSorted(q.list, ps, q.sorted, q.soft, q.started, q.ended, q.epoch);
    IssueOrdLog(q.log, Held(q), q.epoch, Start(b, m));
    StagedPlaces(q.list, q.driver, q.sorted, q.started, q.inFlight, ps);
  }

  lemma StagedTurned(q: Queue, m: Mode, ps: seq<Request>)
    requires Turned(q) && !Active(q) && q.list != [] && q.list[0].kind.Barrier?
    requires forall r :: r in ps ==> r.kind.Proxy?
    ensures Turned(Staged(q, m, ps))
  {
    NoBars(ps);
    BarsConcat(ps, q.list[1..]);
    FirstTurn(q.list[0], Bars(q.list[1..]), q.ended, q.epoch);
  }

  // ----- looking at the head of the list

  /** The proxy start_ordered hands out is the first stage of its sequence. */
  lemma StartMayIssue(q: Queue)
    requires q.list != [] && q.list[0].kind.Barrier? && q.ordseq == {} && StartOrdered(q).rq.Some?
    ensures MayIssue(StartOrdered(q).q)
  {
    var b := q.list[0];
    var m := SequenceMode(q.nextOrdered, b.kind.empty);
    var ps := Proxies(m, b);
    var x := if m.pre then PREFLUSH else if m.bar then BAR else POSTFLUSH;
    assert ps[0] == ProxyOf(x, b);
    assert (ps + q.list[1..])[0] == ps[0];
    FirstStage(m, x);
  }

  lemma FirstStage(m: Mode, x: nat)
    requires m.pre || m.bar || m.post
    requires x == if m.pre then PREFLUSH else if m.bar then BAR else POSTFLUSH
    ensures CurSeq({} + {STARTED} + Skipped(m, false)) == x
  {
  }

  lemma HeadInactiveOrd(q: Queue)
    requires Inv(q) && OrdInv(q) && !Active(q) && q.list != []
    ensures OrdInv(DoOrdered(q).q)
    ensures DoOrdered(q).rq.Some? ==> MayIssue(DoOrdered(q).q)
  {
    var rq := q.list[0];
    assert rq in Held(q);
    if rq.kind.Barrier? {
      assert q.nextOrdered != NONE && DoOrdered(q) == StartOrdered(q);
      StartOrd(q);
      if StartOrdered(q).rq.Some? {
        StartMayIssue(q);
      }
    } else {
      assert DoOrdered(q) == Peeked(q, Some(rq), true);
      if rq.kind.Fs? {
        HeadEpoch(q);
      }
    }
  }

  /** While a sequence is in progress blk_do_ordered lets the head through exactly when its stage has come, and its
      WARN_ON does not fire. */
  lemma HeadActiveOrd(q: Queue)
    requires Inv(q) && OrdInv(q) && Active(q) && q.list != []
    ensures DoOrdered(q).q == q
    ensures DoOrdered(q).rq.Some? ==> MayIssue(q)
    ensures !q.list[0].kind.Special? && DoOrdered(q).rq.None? ==> ReqSeq(q, q.list[0]) > CurSeq(q.ordseq)
  {
    var rq := q.list[0];
    assert rq in Held(q) && Listed(rq, q.ordseq, q.ended, q.epoch);
    match rq.kind {
      case Fs =>
        HeadEpoch(q);
        assert rq.epoch == q.ended + 1 ==> rq.color != q.orig.value.color;
      case Barrier(_) => BarrierBlocked(q);
      case Special =>
      case Proxy(x) => CurSeqLowest(q.ordseq, x);
    }
  }

  lemma CurSeqLowest(ordseq: set<nat>, x: nat)
    requires IsStage(x) && x !in ordseq
    ensures CurSeq(ordseq) <= x
  {
  }

  lemma HeadOrd(q: Queue)
    requires Inv(q) && OrdInv(q) && q.list != []
    ensures OrdInv(DoOrdered(q).q)
    ensures DoOrdered(q).rq.Some? ==> MayIssue(DoOrdered(q).q)
  {
    if Active(q) { HeadActiveOrd(q); } else { HeadInactiveOrd(q); }
  }

  lemma FetchOrd(q: Queue)
    requires Inv(q) && OrdInv(q) && q.list != []
    ensures OrdInv(Fetch(q))
  {
    HeadKeeps(q);
    HeadOrd(q);
    if DoOrdered(q).rq.Some? {
      DequeueOrd(DoOrdered(q).q);
    }
  }

  lemma MarkOrd(q: Queue, rq: Request)
    requires Inv(q) && OrdInv(q) && rq in q.list
    ensures OrdInv(q.(started := q.started + {rq}))
  {
    assert rq in Elems(q.list);
    assert Held(q.(started := q.started + {rq})) == Held(q);
  }

  lemma PeekOrd(q: Queue)
    requires Inv(q) && OrdInv(q) && q.list != []
    ensures OrdInv(Peek(q))
  {
    HeadKeeps(q);
    HeadOrd(q);
    var p := DoOrdered(q);
    if p.rq.Some? {
      MarkOrd(p.q, p.rq.value);
    }
  }

  // ----- the scheduler and new requests

  /** The barrier that closes an open epoch stands behind the requests of that epoch. */
  lemma BarrierBehind(q: Queue, i: nat)
    requires Turned(q) && Sorted(q.list) && i < |q.list| && q.list[i].kind.Fs?
    requires First(q) <= q.list[i].epoch < q.epoch
    ensures exists j :: i < j < |q.list| && q.list[j].kind.Barrier?
  {
    var b := BarrierListed(q, q.list[i].epoch);
    var j :| 0 <= j < |q.list| && q.list[j] == b;
    assert j < i ==> MayPrecede(q.list[j], q.list[i]);
  }

  /** Behind the last stopping request there is only the open epoch. */
  lemma OpenEpoch(q: Queue, pos: nat, i: nat)
    requires Turned(q) && OrdInv(q) && pos <= i < |q.list|
    requires forall j :: pos <= j < |q.list| ==> !StopsSort(q, q.list[j])
    ensures q.list[i].kind.Fs? && q.list[i].epoch == q.epoch
  {
    var r := q.list[i];
    assert r in q.list && !Stops(r, q.soft, q.started) && Listed(r, q.ordseq, q.ended, q.epoch);
    if r.epoch < q.epoch {
      BarrierBehind(q, i);
    }
  }

  lemma ElvDispatchList(q: Queue, rq: Request, pos: nat)
    requires Inv(q) && OrdInv(q) && Enabled(q, ElvDispatch(rq, pos))
    ensures OrdList(InsertAt(q.list, pos, rq), q.ordseq, q.ended, q.epoch)
    ensures Elems(InsertAt(q.list, pos, rq)) == Elems(q.list) + {rq}
  {
    forall i | 0 <= i < pos ensures MayPrecede(q.list[i], rq) {
      assert Listed(q.list[i], q.ordseq, q.ended, q.epoch);
    }
    forall i | pos <= i < |q.list| ensures MayPrecede(rq, q.list[i]) {
      OpenEpoch(q, pos, i);
    }
    SortedInsert(q.list, pos, rq);
    InsertAtElems(q.list, pos, rq);
    ListedEpoch(q, rq);
    assert forall x :: x in InsertAt(q.list, pos, rq) ==> x in Elems(q.list) + {rq};
  }

  /** A file system request of the open epoch may be anywhere the scheduler keeps it. */
  lemma ListedEpoch(q: Queue, rq: Request)
    requires Turned(q) && rq.kind.Fs? && rq.epoch == q.epoch && Colored(rq)
    ensures Listed(rq, q.ordseq, q.ended, q.epoch) && First(q) <= rq.epoch
  {
  }

  lemma ElvDispatchOrd(q: Queue, rq: Request, pos: nat)
    requires Inv(q) && OrdInv(q) && Enabled(q, ElvDispatch(rq, pos))
    ensures OrdInv(Next(q, ElvDispatch(rq, pos)))
  {
    var r := Next(q, ElvDispatch(rq, pos));
    ElvDispatchList(q, rq, pos);
    ElvDispatchKeeps(q, rq, pos);
    ListedEpoch(q, rq);
    assert Held(r) == Held(q);
    assert forall x :: x in r.list ==> x in Elems(q.list) + {rq};
  }

  lemma SubmitOrdLog(log: seq<Event>, held: set<Request>, epoch: nat, rq: Request)
    requires OrdLog(log, held, epoch) && InOrder(log) && rq.epoch == epoch
    ensures OrdLog(log + [Submit(rq)], held + {rq}, if rq.kind.Barrier? then epoch + 1 else epoch)
    ensures InOrder(log + [Submit(rq)])
  {
    ExtendOrder(log, Submit(rq));
    Extend(log, Submit(rq));
  }

  /** A larger epoch bound loosens what is asked of the list. */
  lemma TailInsert(list: seq<Request>, ordseq: set<nat>, base: nat, epoch: nat, rq: Request)
    requires OrdList(list, ordseq, base, epoch) && rq.epoch == epoch && Colored(rq) && !rq.kind.Proxy?
    requires base <= epoch && (ordseq != {} ==> base < epoch)
    ensures OrdList(list + [rq], ordseq, base, if rq.kind.Barrier? then epoch + 1 else epoch)
  {
    InsertAtEnds(list, rq);
    forall i | 0 <= i < |list| ensures MayPrecede(list[i], rq) {
      assert list[i] in list && Listed(list[i], ordseq, base, epoch);
    }
    SortedInsert(list, |list|, rq);
    forall r | r in list + [rq] ensures Listed(r, ordseq, base, if rq.kind.Barrier? then epoch + 1 else epoch) {
      assert r in list ==> Listed(r, ordseq, base, epoch);
    }
  }

  lemma SubmitSortOrd(q: Queue)
    requires Turned(q) && OrdInv(q)
    ensures OrdInv(Next(q, SubmitFs(true)))
  {
    var rq, r := NewRequest(q, Fs), Next(q, SubmitFs(true));
    SubmitOrdLog(q.log, Held(q), q.epoch, rq);
    assert Held(r) == Held(q) + {rq};
    NewSorted(q.list, q.sorted, q.soft, q.started, First(q), q.epoch, q.nextId, rq);
  }

  lemma NewSorted(list: seq<Request>, sorted: set<Request>, soft: set<Request>, started: set<Request>, first: nat,
                  epoch: nat, nextId: nat, rq: Request)
    requires OrdSorted(list, sorted, soft, started, first, epoch) && Marked(soft, started, nextId)
    requires rq.id == nextId && rq.epoch == epoch && Colored(rq)
    ensures OrdSorted(list, sorted + {rq}, soft, started, first, epoch) && Marked(soft, started, nextId + 1)
  {
    assert rq !in soft + started;
  }

  /** A request added at the tail stops the scheduler, and so does one added at the head. */
  lemma EnterSorted(list: seq<Request>, list': seq<Request>, sorted: set<Request>, soft: set<Request>,
                    started: set<Request>, first: nat, epoch: nat, epoch': nat, rq: Request)
    requires OrdSorted(list, sorted, soft, started, first, epoch) && rq !in sorted && (epoch' == epoch || sorted == {})
    requires list' == list + [rq] || list' == [rq] + list
    ensures OrdSorted(list', sorted, soft + {rq}, started, first, epoch')
  {
    assert forall r :: r in list' ==> r in list || r == rq;
  }

  lemma SubmitTailOrd(q: Queue, rq: Request, q1: Queue)
    requires Turned(q) && OrdInv(q) && rq == NewRequest(q, rq.kind) && !rq.kind.Proxy? && q.sorted == {}
    requires q1 == AddTail(q, rq).(log := q1.log, epoch := q1.epoch, color := q1.color)
    requires q1.epoch == if rq.kind.Barrier? then q.epoch + 1 else q.epoch
    requires q1.log == if rq.kind.Special? then q.log else q.log + [Submit(rq)]
    ensures OrdInv(q1)
  {
    SubmitTailLog(q, rq, q1);
    TailInsert(q.list, q.ordseq, q.ended, q.epoch, rq);
    EnterSorted(q.list, q1.list, q.sorted, q.soft, q.started, First(q), q.epoch, q1.epoch, rq);
  }

  lemma SubmitTailLog(q: Queue, rq: Request, q1: Queue)
    requires OrdLog(q.log, Held(q), q.epoch) && InOrder(q.log) && rq == NewRequest(q, rq.kind)
    requires q1 == AddTail(q, rq).(log := q1.log, epoch := q1.epoch, color := q1.color)
    requires q1.epoch == if rq.kind.Barrier? then q.epoch + 1 else q.epoch
    requires q1.log == if rq.kind.Special? then q.log else q.log + [Submit(rq)]
    ensures OrdLog(q1.log, Held(q1), q1.epoch) && InOrder(q1.log)
  {
    InsertAtEnds(q.list, rq);
    InsertAtElems(q.list, |q.list|, rq);
    assert Held(q1) == Held(q) + {rq};
    SubmitOrdLog(q.log, Held(q), q.epoch, rq);
  }

  lemma SubmitFrontOrd(q: Queue, rq: Request)
    requires OrdInv(q) && rq !in q.sorted && rq == NewRequest(q, Special)
    ensures OrdInv(InsertFront(q, rq).(nextId := q.nextId + 1))
  {
    var q1 := InsertFront(q, rq).(nextId := q.nextId + 1);
    InsertAtEnds(q.list, rq);
    SortedInsert(q.list, 0, rq);
    InsertAtElems(q.list, 0, rq);
    assert Held(q1) == Held(q) + {rq};
    EnterSorted(q.list, q1.list, q.sorted, q.soft, q.started, First(q), q.epoch, q.epoch, rq);
    assert forall r :: r in q1.list ==> r in q.list || r == rq;
  }

  lemma DataFailedOrd(q: Queue, err: int)
    requires Inv(q) && OrdInv(q) && Enabled(q, DataFailed(err))
    ensures OrdInv(Next(q, DataFailed(err)))
  {
    if q.orig.Some? {
      IssueOrdLog(q.log, Held(q), q.epoch, DataError(q.orig.value, err));
    }
  }

  // ----- a sequence is never stuck

  /** Nothing on the list is before DRAIN. */
  lemma AtLeastDrain(q: Queue, rq: Request)
    ensures DRAIN <= ReqSeq(q, rq)
  {
  }

  lemma CompleteSeqFrame(q: Queue, stages: set<nat>, err: int)
    ensures var r := CompleteSeq(q, stages, err);
            && r.list == q.list && r.driver == q.driver && r.orig == q.orig
            && (r.ordseq == {} || r.ordseq == q.ordseq + stages)
  {
  }

  lemma DrainCheckMoving(q: Queue)
    requires Inv(q)
    ensures Moving(DrainCheck(q))
  {
    if q.driver == {} {
      assert FsOf(q.driver) == {} && q.inFlight == 0;
    }
    CompleteSeqFrame(q, {DRAIN}, 0);
    if q.list != [] { AtLeastDrain(q, q.list[0]); }
  }

  /** The request a draining sequence waits for at the head of the list cannot be passed by the scheduler. */
  lemma DrainHeadStops(q: Queue)
    requires Inv(q) && OrdInv(q) && Active(q) && q.list != [] && ReqSeq(q, q.list[0]) == DRAIN
    ensures StopsSort(q, q.list[0])
  {
    var rq := q.list[0];
    assert rq in Held(q) && Listed(rq, q.ordseq, q.ended, q.epoch);
    if rq.kind.Fs? {
      HeadEpoch(q);
    }
    assert StopsSort(q, rq) == Stops(rq, q.soft, q.started);
  }

  lemma HeadMoving(q: Queue)
    requires Inv(q) && OrdInv(q) && Moving(q) && q.list != []
    ensures Moving(DoOrdered(q).q)
  {
    if Active(q) {
      HeadActiveOrd(q);
    } else if q.list[0].kind.Barrier? {
      StartMoving(q);
      assert DoOrdered(q) == StartOrdered(q);
    } else {
      assert q.list[0] in Held(q);
      assert DoOrdered(q).q == q;
    }
  }

  lemma FetchMoving(q: Queue)
    requires Inv(q) && OrdInv(q) && Moving(q) && q.list != []
    ensures Moving(Fetch(q)) && Moving(Peek(q))
  {
    HeadMoving(q);
    FetchedMoving(q, DoOrdered(q));
  }

  lemma FetchedMoving(q: Queue, p: Peeked)
    requires q.list != [] && p == DoOrdered(q) && Moving(p.q)
    ensures Moving(Fetch(q)) && Moving(Peek(q))
  {
    if p.rq.Some? && p.q.list != [] {
      assert Dequeue(p.q).driver != {};
    }
  }

  lemma StartMoving(q: Queue)
    requires Inv(q) && !Active(q) && q.list != [] && q.list[0].kind.Barrier? && DrainMode(q.nextOrdered)
    ensures Moving(StartOrdered(q).q)
  {
    var b := q.list[0];
    var m := SequenceMode(q.nextOrdered, b.kind.empty);
    var skip := Skipped(m, q.inFlight != 0);
    SkipFacts(m, q.inFlight != 0);
    CompleteSeqFrame(Staged(q, m, Proxies(m, b)), skip, 0);
    assert q.inFlight != 0 ==> FsOf(q.driver) != {};
    assert StartOrdered(q).q == CompleteSeq(Staged(q, m, Proxies(m, b)), skip, 0);
  }

  lemma FinishMoving(q: Queue, rq: Request, err: int)
    requires Inv(q) && OrdInv(q) && rq in q.driver
    ensures Moving(Complete(q, rq, err))
  {
    if rq.kind.Proxy? {
      StageDriver(q, rq);
      ProxyMoving(q, rq, err);
    } else {
      FinishingKeeps(q, rq);
      DrainCheckMoving(Finishing(q, rq));
    }
  }

  lemma ProxyMoving(q: Queue, rq: Request, err: int)
    requires rq.kind.Proxy? && IsStage(rq.kind.stage) && rq.kind.stage !in q.ordseq
    requires STARTED in q.ordseq && DRAIN in q.ordseq && q.orig.Some?
    ensures Moving(Complete(q, rq, err))
  {
    ProxySplit(q, rq, err);
    assert DRAIN in q.ordseq + {rq.kind.stage} && CurSeq(q.ordseq + {rq.kind.stage}) != DRAIN;
  }

  lemma RequeueMoving(q: Queue, rq: Request)
    requires Inv(q) && OrdInv(q) && rq in q.driver
    ensures Moving(Requeue(q, rq))
  {
    if Active(q) && CurSeq(q.ordseq) == DRAIN {
      var q1 := Returned(q, rq);
      assert rq in Held(q) && !rq.kind.Proxy?;
      assert ReqSeq(q1, rq) == DRAIN;
      if q.list != [] { AtLeastDrain(q1, q.list[0]); }
      assert RequeuePos(q1, q1.list, DRAIN) == 0;
      InsertAtEnds(q.list, rq);
    }
  }

  /** Whatever leaves the head of the list, the sequence and the driver alone keeps the sequence moving. */
  lemma HeadKept(q: Queue, r: Queue)
    requires Moving(q) && r.ordseq == q.ordseq && r.orig == q.orig && r.driver == q.driver
    requires Active(q) && q.list != [] && ReqSeq(q, q.list[0]) == DRAIN ==> r.list != [] && r.list[0] == q.list[0]
    ensures Moving(r)
  {
  }

  lemma ElvDispatchMoving(q: Queue, rq: Request, pos: nat)
    requires Inv(q) && OrdInv(q) && Moving(q) && Enabled(q, ElvDispatch(rq, pos))
    ensures Moving(Next(q, ElvDispatch(rq, pos)))
  {
    if Active(q) && q.list != [] && ReqSeq(q, q.list[0]) == DRAIN {
      DrainHeadStops(q);
      assert pos > 0 && InsertAt(q.list, pos, rq)[0] == q.list[0];
    }
    HeadKept(q, q.(sorted := q.sorted - {rq}, list := InsertAt(q.list, pos, rq)));
  }

  lemma SubmitMoving(q: Queue, l: Label)
    requires Moving(q) && q.nextId >= 6 && Enabled(q, l) && (l.SubmitFs? || l.SubmitBarrier? || l.SubmitSpecial?)
    ensures Moving(Next(q, l))
  {
    if l != SubmitSpecial(true) { HeadKept(q, Next(q, l)); }
  }

  lemma FlagMoving(q: Queue, l: Label)
    requires Moving(q) && Enabled(q, l) && (l.DataFailed? || l.SetMode?)
    ensures Moving(Next(q, l))
  {
  }

  lemma StepMoving(q: Queue, l: Label)
    requires Inv(q) && OrdInv(q) && Moving(q) && Enabled(q, l) && (l.SetMode? ==> DrainMode(l.mode))
    ensures Moving(Next(q, l))
  {
    match l {
      case ElvDispatch(rq, pos) => ElvDispatchMoving(q, rq, pos);
      case FetchHead => FetchMoving(q);
      case PeekHead => FetchMoving(q);
      case Finish(rq, err) => FinishMoving(q, rq, err);
      case RequeueOne(rq) => RequeueMoving(q, rq);
      case MergedAway => DrainCheckMoving(q);
      case SubmitFs(sort) => SubmitMoving(q, l);
      case SubmitBarrier(empty) => SubmitMoving(q, l);
      case SubmitSpecial(front) => SubmitMoving(q, l);
      case _ => FlagMoving(q, l);
    }
  }

  /** Whatever stage a sequence is in, the driver is working or the head of the list may be dispatched. */
  lemma NotStuck(q: Queue)
    requires Inv(q) && OrdInv(q) && Moving(q) && Active(q) && q.driver == {}
    ensures q.list != [] && DoOrdered(q).rq.Some?
  {
    var x := CurSeq(q.ordseq);
    if x != DRAIN {
      var p := ProxyOf(x, q.orig.value);
      assert p in Held(q) && p !in q.sorted && p in q.list;
      var h := q.list[0];
      assert h in Held(q) && Listed(h, q.ordseq, q.ended, q.epoch);
      if !h.kind.Special? {
        HeadLeast(q.list, p);
      }
    }
    HeadActiveOrd(q);
  }

  // ----- every run

  lemma TailShape(q: Queue, l: Label) returns (rq: Request)
    requires Enabled(q, l) && (l == SubmitFs(false) || l == SubmitSpecial(false) || l.SubmitBarrier?)
    ensures rq == NewRequest(q, rq.kind) && !rq.kind.Proxy?
    ensures var q1 := Next(q, l);
            && q1 == AddTail(q, rq).(log := q1.log, epoch := q1.epoch, color := q1.color)
            && q1.epoch == (if rq.kind.Barrier? then q.epoch + 1 else q.epoch)
            && q1.log == (if rq.kind.Special? then q.log else q.log + [Submit(rq)])
  {
    rq := NewRequest(q, if l.SubmitFs? then Fs else if l.SubmitSpecial? then Special else Barrier(l.empty));
  }

  lemma SubmitOrd(q: Queue, l: Label)
    requires Turned(q) && OrdInv(q) && NewRequest(q, Special) !in q.sorted && Enabled(q, l)
             && (l.SubmitFs? || l.SubmitBarrier? || l.SubmitSpecial?)
    ensures OrdInv(Next(q, l))
  {
    if l == SubmitFs(true) {
      SubmitSortOrd(q);
    } else if l == SubmitSpecial(true) {
      SubmitFrontOrd(q, NewRequest(q, Special));
    } else {
      var rq := TailShape(q, l);
      SubmitTailOrd(q, rq, Next(q, l));
    }
  }

  lemma StepOrd(q: Queue, l: Label)
    requires Inv(q) && OrdInv(q) && Enabled(q, l) && (l.SetMode? ==> DrainMode(l.mode))
    ensures OrdInv(Next(q, l))
  {
    match l {
      case ElvDispatch(rq, pos) => ElvDispatchOrd(q, rq, pos);
      case FetchHead => FetchOrd(q);
      case PeekHead => PeekOrd(q);
      case Finish(rq, err) => FinishOrd(q, rq, err);
      case DataFailed(err) => DataFailedOrd(q, err);
      case RequeueOne(rq) => RequeueOrd(q, rq);
      case MergedAway => DrainCheckOrd(q);
      case SetMode(m) => SetModeOrd(q, m);
      case _ => assert NewRequest(q, Special) !in q.sorted; SubmitOrd(q, l);
    }
  }

  lemma SetModeOrd(q: Queue, m: Mode)
    requires OrdInv(q) && DrainMode(m)
    ensures OrdInv(Next(q, SetMode(m)))
  {
    assert Held(Next(q, SetMode(m))) == Held(q);
    IssueOrdLog(q.log, Held(q), q.epoch, Configure(m));
  }

  predicate DrainOnly(labels: seq<Label>) {
    forall i :: 0 <= i < |labels| && labels[i].SetMode? ==> DrainMode(labels[i].mode)
  }

  lemma {:induction false} RunOrd(q: Queue, labels: seq<Label>)
    requires Inv(q) && OrdInv(q) && Moving(q) && IsRun(q, labels) && DrainOnly(labels)
    ensures Inv(After(q, labels)) && OrdInv(After(q, labels)) && Moving(After(q, labels))
    decreases |labels|
  {
    if labels == [] {
    } else {
      var l := labels[0];
      StepKeeps(q, l);
      StepOrd(q, l);
      StepMoving(q, l);
      assert DrainOnly(labels[1..]);
      RunOrd(Next(q, l), labels[1..]);
    }
  }

  /** Every run on a queue that orders by draining, with any requeues: the log is in barrier order, no WARN_ON
      fires, and a sequence in progress has work in the driver or a head that may be dispatched. */
  lemma BarriersOrder(m: Mode, labels: seq<Label>)
    requires DrainMode(m) && IsRun(Init(m), labels) && DrainOnly(labels)
    ensures var q := After(Init(m), labels);
            && InOrder(q.log) && !q.warned
            && (Active(q) ==> q.driver != {} || (q.list != [] && DoOrdered(q).rq.Some?))
  {
    InitInv(m);
    assert OrdInv(Init(m));
    RunOrd(Init(m), labels);
    var q := After(Init(m), labels);
    if Active(q) && q.driver == {} {
      NotStuck(q);
    }
  }
}
