/** What the head of the dispatch list may do while a sequence is in progress, over every run and whatever modes are
    set: when ordering is left to tags (QUEUE_ORDERED_BY_TAG) only another barrier has to wait. */
module OrderedTags {
  import opened Basics
  import opened OrderedQueue
  import opened OrderedOnce

  // ----- proxies stand before barriers

  predicate BarsLast(list: seq<Request>) {
    forall i, j :: 0 <= i < j < |list| && list[j].kind.Proxy? ==> !list[i].kind.Barrier?
  }

  /** The first barrier on the list. */
  lemma {:induction false} FirstBar(list: seq<Request>) returns (f: nat)
    requires Bars(list) != []
    ensures f < |list| && list[f] == Bars(list)[0] && list[f].kind.Barrier?
    ensures forall i :: 0 <= i < f ==> !list[i].kind.Barrier?
  {
    if list[0].kind.Barrier? {
      f := 0;
    } else {
      var g := FirstBar(list[1..]);
      f := g + 1;
      forall i | 0 <= i < f ensures !list[i].kind.Barrier? { assert i > 0 ==> list[i] == list[1..][i - 1]; }
    }
  }

  lemma {:induction false} HasBars(list: seq<Request>, i: nat)
    requires i < |list| && list[i].kind.Barrier?
    ensures Bars(list) != []
  {
    if i == 0 {
    } else {
      HasBars(list[1..], i - 1);
    }
  }

  /** The first barrier behind a sequence in progress is not of its colour. */
  lemma BarsStop(q: Queue, i: nat) returns (f: nat)
    requires Inv(q) && Active(q) && i < |q.list| && q.list[i].kind.Barrier?
    ensures f <= i && ReqSeq(q, q.list[f]) == DONE && forall k :: 0 <= k < f ==> !q.list[k].kind.Barrier?
  {
    HasBars(q.list, i);
    f := FirstBar(q.list);
    var b := q.list[f];
    assert b in Held(q) && b.id >= 6;
    assert b.epoch == q.ended + 1 && Colored(b) && Colored(q.orig.value) && q.orig.value.epoch == q.ended;
    assert ColorOf(q.ended + 1) == !ColorOf(q.ended);
  }

  /** So a stage of it that is requeued stays before all barriers. */
  lemma RequeueBars(q: Queue, rq: Request)
    requires Inv(q) && BarsLast(q.list) && rq in q.driver
    ensures BarsLast(Requeue(q, rq).list)
  {
    assert rq in Held(q) && !rq.kind.Barrier?;
    var q1 := Returned(q, rq);
    var pos := if q1.ordseq == {} then 0 else RequeuePos(q1, q1.list, ReqSeq(q1, rq));
    if rq.kind.Proxy? {
      forall k | 0 <= k < pos ensures !q.list[k].kind.Barrier? {
        if q.list[k].kind.Barrier? {
          var f := BarsStop(q, k);
          assert false;
        }
      }
    }
    InsertBars(q.list, pos, rq);
  }

  lemma InsertBars(list: seq<Request>, pos: nat, rq: Request)
    requires BarsLast(list) && pos <= |list| && !rq.kind.Barrier?
    requires rq.kind.Proxy? ==> forall k :: 0 <= k < pos ==> !list[k].kind.Barrier?
    ensures BarsLast(InsertAt(list, pos, rq))
  {
  }

  lemma StagedBars(ps: seq<Request>, rest: seq<Request>)
    requires (forall r :: r in ps ==> r.kind.Proxy?) && forall r :: r in rest ==> !r.kind.Proxy?
    ensures BarsLast(ps + rest)
  {
    var list := ps + rest;
    assert forall k :: |ps| <= k < |list| ==> list[k] in rest;
    assert forall k :: 0 <= k < |ps| ==> list[k] in ps;
  }

  lemma StartBars(q: Queue)
    requires Inv(q) && !Active(q) && q.list != [] && q.list[0].kind.Barrier?
    ensures BarsLast(StartOrdered(q).q.list)
  {
    var b := q.list[0];
    var m := SequenceMode(q.nextOrdered, b.kind.empty);
    assert StartOrdered(q).q.list == Proxies(m, b) + q.list[1..];
    forall r | r in q.list[1..] ensures !r.kind.Proxy? { assert r in Held(q); }
    StagedBars(Proxies(m, b), q.list[1..]);
  }

  lemma HeadBars(q: Queue)
    requires Inv(q) && BarsLast(q.list) && q.list != []
    ensures BarsLast(DoOrdered(q).q.list)
  {
    if !Active(q) && q.list[0].kind.Barrier? && q.nextOrdered != NONE { StartBars(q); }
  }

  lemma StepBars(q: Queue, l: Label)
    requires Inv(q) && BarsLast(q.list) && Enabled(q, l)
    ensures BarsLast(Next(q, l).list)
  {
    match l {
      case ElvDispatch(rq, pos) => InsertBars(q.list, pos, rq);
      case FetchHead => HeadBars(q);
      case PeekHead => HeadBars(q);
      case RequeueOne(rq) => RequeueBars(q, rq);
      case Finish(rq, err) => FinishList(q, rq, err);
      case MergedAway => CompleteList(q, {DRAIN}, 0);
      case DataFailed(err) =>
      case SetMode(m) =>
      case _ => SubmitBars(q, l);
    }
  }

  lemma SubmitBars(q: Queue, l: Label)
    requires BarsLast(q.list) && Enabled(q, l) && (l.SubmitFs? || l.SubmitBarrier? || l.SubmitSpecial?)
    ensures BarsLast(Next(q, l).list)
  {
    if l == SubmitSpecial(true) { InsertBars(q.list, 0, NewRequest(q, Special)); }
  }

  lemma CompleteList(q: Queue, stages: set<nat>, err: int)
    ensures CompleteSeq(q, stages, err).list == q.list
  {
  }

  lemma FinishList(q: Queue, rq: Request, err: int)
    ensures Complete(q, rq, err).list == q.list
  {
    if rq.kind.Proxy? {
      var q1 := if rq.kind.stage == BAR then q.(orderr := FirstError(q.orderr, err)) else q;
      var q2 := CompletedRequest(q1, rq);
      CompleteList(Leave(q1, rq), {DRAIN}, 0);
      CompleteList(if q2.orig.Some? then Emit(q2, RetireStage(q2.orig.value, rq.kind.stage, err)) else q2,
                   {rq.kind.stage}, err);
    }
  }

  lemma {:induction false} RunBars(q: Queue, labels: seq<Label>)
    requires Inv(q) && BarsLast(q.list) && IsRun(q, labels)
    ensures Inv(After(q, labels)) && BarsLast(After(q, labels).list)
    decreases |labels|
  {
    if labels == [] {
    } else {
      StepKeeps(q, labels[0]);
      StepBars(q, labels[0]);
      RunBars(Next(q, labels[0]), labels[1..]);
    }
  }

  // ----- what the head may do

  /** The proxies, and no others, have their stage as id. */
  predicate Named(rq: Request) { if rq.kind.Proxy? then rq.id == rq.kind.stage && IsStage(rq.id) else rq.id >= 6 }

  lemma HeadNamed(q: Queue)
    requires Inv(q) && q.list != []
    ensures Named(q.list[0])
  {
    assert q.list[0] in Held(q);
  }

  /** With tags every head is handed out and changes nothing, but for a barrier, which waits. */
  lemma TagHead(q: Queue)
    requires Active(q) && q.ordered.tag && q.list != [] && Named(q.list[0])
    ensures DoOrdered(q) == Peeked(q, if q.list[0].kind.Barrier? then None else Some(q.list[0]), true)
  {
  }

  /** With draining a command passes, and other heads wait for their stage. */
  lemma DrainHead(q: Queue)
    requires Active(q) && !q.ordered.tag && q.list != [] && Named(q.list[0])
    ensures var h := q.list[0];
            DoOrdered(q).rq == if h.kind.Special? || ReqSeq(q, h) <= CurSeq(q.ordseq) then Some(h) else None
  {
  }

  /** A stage of the sequence that is neither over nor with the driver is on the list. */
  lemma StageListed(q: Queue, x: nat)
    requires Inv(q) && Active(q) && IsStage(x) && x !in q.ordseq && q.driver == {}
    ensures ProxyOf(x, q.orig.value) in q.list
  {
    var p := ProxyOf(x, q.orig.value);
    assert x == PREFLUSH || x == BAR || x == POSTFLUSH;
    assert p in Held(q) && p !in q.sorted;
  }

  /** Every run, whatever modes are set when: while ordering is by tag, a sequence with a stage left has something with
      the driver or a head that is handed out. */
  lemma TagsMove(m: Mode, labels: seq<Label>, x: nat)
    requires Accepted(m) && IsRun(Init(m), labels)
    requires var q := After(Init(m), labels); Active(q) && q.ordered.tag && IsStage(x) && x !in q.ordseq
                                              && q.driver == {}
    ensures var q := After(Init(m), labels); q.list != [] && DoOrdered(q).rq == Some(q.list[0])
  {
    InitInv(m);
    RunBars(Init(m), labels);
    var q := After(Init(m), labels);
    StageListed(q, x);
    var j :| 0 <= j < |q.list| && q.list[j] == ProxyOf(x, q.orig.value);
    assert !q.list[0].kind.Barrier?;
    HeadNamed(q);
    TagHead(q);
  }

  /** A mode that is set while a sequence is in progress decides at once what its head may do. */
  lemma ModeAtOnce(q: Queue, m: Mode)
    requires Inv(q) && Active(q) && q.list != [] && Accepted(m)
    ensures var h, p := q.list[0], DoOrdered(Next(q, SetMode(m)));
            if m.tag then p.rq == None <==> h.kind.Barrier?
            else if h.kind.Special? then p.rq == Some(h)
            else p.rq == None <==> ReqSeq(q, h) > CurSeq(q.ordseq)
  {
    HeadNamed(q);
    var q1 := Next(q, SetMode(m));
    assert Active(q1) && q1.list == q.list && q1.ordered == m && ReqSeq(q1, q.list[0]) == ReqSeq(q, q.list[0]);
    if m.tag { TagHead(q1); } else { DrainHead(q1); }
  }

  /** A request that the driver has looked at is passed by nothing that the scheduler dispatches. */
  lemma SeenNotPassed(q: Queue, rq: Request, pos: nat)
    requires Inv(q) && q.list != [] && DoOrdered(q).rq.Some? && Enabled(Peek(q), ElvDispatch(rq, pos))
    ensures var q1 := Next(Peek(q), ElvDispatch(rq, pos)); q1.list != [] && Some(q1.list[0]) == DoOrdered(q).rq
  {
    HeadIsGiven(q);
    var p := Peek(q);
    assert StopsSort(p, p.list[0]);
  }

  /** What blk_do_ordered answers is the head of the list it leaves. */
  lemma HeadIsGiven(q: Queue)
    requires Inv(q) && q.list != [] && DoOrdered(q).rq.Some?
    ensures var p := DoOrdered(q); p.q.list != [] && p.q.list[0] == p.rq.value
  {
    if !Active(q) && q.list[0].kind.Barrier? && q.nextOrdered != NONE {
      var m := SequenceMode(q.nextOrdered, q.list[0].kind.empty);
      assert DoOrdered(q).q.list == Proxies(m, q.list[0]) + q.list[1..];
    }
  }
}
