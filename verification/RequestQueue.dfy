/** struct request_queue with the functions of block/blk-barrier.c, block/elevator.c and block/blk.h that change it in
    place.  Each method is proved against the step it implements; BarriersEndOnce and BarriersOrder say what those
    steps keep. */
module RequestQueueImpl {
  import opened Basics
  import opened OrderedQueue
  import OrderedOnce

  /** One more step at the end of a run. */
  lemma {:induction false} RunAppend(q: Queue, labels: seq<Label>, l: Label)
    requires IsRun(q, labels) && Enabled(After(q, labels), l)
    ensures IsRun(q, labels + [l]) && After(q, labels + [l]) == Next(After(q, labels), l)
    decreases |labels|
  {
    var all := labels + [l];
    if labels == [] {
      assert all[0] == l && all[1..] == [];
    } else {
      assert all[0] == labels[0] && all[1..] == labels[1..] + [l];
      RunAppend(Next(q, labels[0]), labels[1..], l);
    }
  }

  /** Some run leads from one state to the other. */
  ghost predicate Reaches(q: Queue, r: Queue) { exists labels :: IsRun(q, labels) && After(q, labels) == r }

  lemma ReachesSelf(q: Queue)
    ensures Reaches(q, q)
  {
    assert IsRun(q, []) && After(q, []) == q;
  }

  lemma ReachesNext(q: Queue, r: Queue, l: Label)
    requires Reaches(q, r) && Enabled(r, l)
    ensures Reaches(q, Next(r, l))
  {
    var labels :| IsRun(q, labels) && After(q, labels) == r;
    RunAppend(q, labels, l);
  }

  lemma ReachesPeek(q: Queue, r: Queue)
    requires Reaches(q, r) && r.list != []
    ensures Reaches(q, Peek(r))
  {
    ReachesNext(q, r, PeekHead);
  }

  /** A sequence that is over as soon as it starts leaves the list one barrier shorter. */
  lemma GoneAtOnce(q: Queue)
    requires q.list != [] && q.ordseq == {} && q.list[0].kind.Barrier? && !OrderedQueue.StartOrdered(q).alive
    ensures OrderedQueue.StartOrdered(q).q.list == q.list[1..] && OrderedQueue.StartOrdered(q).rq.None?
  {
    var b := q.list[0];
    var m := SequenceMode(q.nextOrdered, b.kind.empty);
    var wait := m.drain && q.inFlight != 0;
    OrderedOnce.SkipFacts(m, wait);
    assert Staged(q, m, Proxies(m, b)).ordseq == {STARTED};
  }

  predicate Shrinks(q: Queue, p: Peeked)
    requires q.list != []
  {
    && (!p.alive ==> p.rq.None? && p.q.list == q.list[1..] && p.q.sorted == q.sorted)
    && (p.alive && p.rq.None? ==> p.q.ordseq != {})
  }

  lemma PeekActive(q: Queue)
    requires q.list != [] && q.ordseq != {}
    ensures Shrinks(q, OrderedQueue.DoOrdered(q))
  {
  }

  lemma PeekIdle(q: Queue)
    requires q.list != [] && q.ordseq == {} && !q.list[0].kind.Proxy?
    requires q.list[0].kind.Barrier? && q.nextOrdered != NONE ==> Shrinks(q, OrderedQueue.StartOrdered(q))
    ensures Shrinks(q, OrderedQueue.DoOrdered(q))
  {
  }

  lemma StartShrinks(q: Queue)
    requires q.list != [] && q.list[0].kind.Barrier? && q.ordseq == {} && q.nextOrdered != NONE
    ensures Shrinks(q, OrderedQueue.StartOrdered(q))
  {
    if !OrderedQueue.StartOrdered(q).alive { GoneAtOnce(q); }
  }

  /** blk_do_ordered makes progress: it drops the head of the list, hands it out, or waits inside a sequence. */
  lemma PeekShrinks(q: Queue)
    requires q.list != [] && OrderedOnce.Inv(q)
    ensures Shrinks(q, OrderedQueue.DoOrdered(q))
  {
    assert q.list[0] in OrderedOnce.Held(q);
    if q.ordseq != {} {
      PeekActive(q);
    } else {
      if q.list[0].kind.Barrier? && q.nextOrdered != NONE { StartShrinks(q); }
      PeekIdle(q);
    }
  }

  datatype Where = InsertFront | InsertBack | InsertSort

  datatype History = History(bug: bool, warned: bool, epoch: nat, ended: nat, nextId: nat, seqMode: Mode,
                             log: seq<Event>)

  class RequestQueue {
    var list: seq<Request>
    var sorted: set<Request>
    var driver: set<Request>
    var inFlight: int
    var started: set<Request>
    var soft: set<Request>
    var ordseq: set<nat>
    var ordered: Mode
    var nextOrdered: Mode
    var orderr: int
    var orig: Option<Request>
    var color: bool
    ghost var past: History

    ghost function State(): Queue
      reads this
    {
      Queue(list, sorted, driver, inFlight, started, soft, ordseq, ordered, nextOrdered, orderr, orig, color,
            past.bug, past.warned, past.epoch, past.ended, past.nextId, past.seqMode, past.log)
    }

    constructor (mode: Mode)
      requires Accepted(mode)
      ensures State() == Init(mode)
    {
      list, sorted, driver, inFlight, started, soft, ordseq := [], {}, {}, 0, {}, {}, {};
      ordered, nextOrdered, orderr, orig, color := mode, mode, 0, None, false;
      past := History(false, false, 0, 0, 6, mode, [Configure(mode)]);
    }

    /** blk_ordered_complete_seq. */
    method CompleteSeq(stages: set<nat>, err: int) returns (done: bool)
      modifies this
      ensures State() == OrderedQueue.CompleteSeq(old(State()), stages, err)
      ensures done == (CurSeq(old(ordseq) + stages) == DONE && old(orig).Some?)
    {
      if err != 0 && orderr == 0 {
        orderr := err;
      }
      if stages * ordseq != {} || orig.None? {
        past := past.(bug := true);
      }
      ordseq := ordseq + stages;
      if CurSeq(ordseq) != DONE || orig.None? {
        return false;
      }
      ordseq := {};
      past := past.(ended := past.ended + 1, log := past.log + [End(orig.value, orderr)]);
      return true;
    }

    /** One stage of start_ordered: a proxy that blk_rq_init has just cleared goes to the head of the list, or the
        stage is added to those to skip. */
    method QueueStage(stage: nat, bar: Request, want: bool, first0: Option<Request>, skip0: set<nat>)
      returns (first: Option<Request>, skip: set<nat>)
      modifies this`list, this`soft, this`started
      ensures var ps := Stage(want, stage, bar);
              list == ps + old(list) && soft == old(soft) + Elems(ps) && started == old(started) - Elems(ps)
      ensures first == if want then Some(ProxyOf(stage, bar)) else first0
      ensures skip == skip0 + (if want then {} else {stage})
    {
      first, skip := first0, skip0;
      if want {
        var p := ProxyOf(stage, bar);
        started := started - {p};
        soft := soft + {p};
        list := [p] + list;
        first := Some(p);
      } else {
        skip := skip + {stage};
      }
    }

    static function Stage(want: bool, stage: nat, b: Request): seq<Request> { if want then [ProxyOf(stage, b)] else [] }

    static lemma StageByStage(m: Mode, b: Request, list: seq<Request>)
      ensures Stage(m.pre, PREFLUSH, b) + (Stage(m.bar, BAR, b) + (Stage(m.post, POSTFLUSH, b) + list)) == Proxies(m, b)
              + list
      ensures Elems(Proxies(m, b))
           == Elems(Stage(m.post, POSTFLUSH, b)) + Elems(Stage(m.bar, BAR, b)) + Elems(Stage(m.pre, PREFLUSH, b))
    {
    }

    static lemma SkippedStages(m: Mode)
      ensures var skip := (if m.post then {} else {POSTFLUSH}) + (if m.bar then {} else {BAR})
              + (if m.pre then {} else {PREFLUSH});
              skip == Skipped(m, true) && skip + {DRAIN} == Skipped(m, false)
    {
    }

    /** The middle of start_ordered: queues the stages from the last to the first, each at the head of the list. */
    method QueueSequence(b: Request) returns (first: Option<Request>, skip: set<nat>)
      modifies this`list, this`soft, this`started
      ensures var ps := Proxies(ordered, b);
              var proxies := Elems(ps);
              && list == ps + old(list) && soft == old(soft) + proxies && started == old(started) - proxies
              && first == (if ps == [] then None else Some(ps[0])) && skip + {DRAIN} == Skipped(ordered, false)
              && skip == Skipped(ordered, true)
    {
      StageByStage(ordered, b, list);
      SkippedStages(ordered);
      first, skip := QueueStage(POSTFLUSH, b, ordered.post, None, {});
      first, skip := QueueStage(BAR, b, ordered.bar, first, skip);
      first, skip := QueueStage(PREFLUSH, b, ordered.pre, first, skip);
    }

    /** The first part of start_ordered: settles the mode and stashes the barrier away. */
    method BeginSequence()
      requires list != [] && list[0].kind.Barrier?
      modifies this`orderr, this`ordered, this`ordseq, this`list, this`orig, this`past
      ensures orderr == 0 && ordseq == old(ordseq) + {STARTED} && list == old(list)[1..] && orig == Some(old(list)[0])
      ensures ordered == SequenceMode(nextOrdered, old(list)[0].kind.empty)
      ensures past == old(past).(seqMode := ordered, log := old(past).log + [Start(old(list)[0], ordered)])
    {
      var b := list[0];
      orderr := 0;
      ordered := nextOrdered;
      ordseq := ordseq + {STARTED};
      if b.kind.empty {
        ordered := ordered.(bar := false, post := false);
        if ordered.tag && !ordered.pre {
          ordered := ordered.(tag := false, drain := true);
        }
      }
      list := list[1..];
      orig := Some(b);
      past := past.(seqMode := ordered, log := past.log + [Start(b, ordered)]);
    }

    /** start_ordered up to the point where the skipped stages are completed. */
    method StageSequence() returns (first: Option<Request>, skip: set<nat>)
      requires list != [] && list[0].kind.Barrier?
      modifies this`orderr, this`ordered, this`ordseq, this`list, this`orig, this`past, this`soft, this`started
      ensures var q, b := old(State()), old(list)[0];
              var m := SequenceMode(q.nextOrdered, b.kind.empty);
              && State() == Staged(q, m, Proxies(m, b))
              && first == (if Proxies(m, b) == [] then None else Some(Proxies(m, b)[0]))
              && skip == Skipped(m, true) && skip + {DRAIN} == Skipped(m, false)
    {
      var b := list[0];
      BeginSequence();
      first, skip := QueueSequence(b);
    }

    /** start_ordered. */
    method StartOrdered() returns (rq: Option<Request>, alive: bool)
      requires list != [] && list[0].kind.Barrier?
      modifies this
      ensures Peeked(State(), rq, alive) == OrderedQueue.StartOrdered(old(State()))
    {
      var skip;
      rq, skip := StageSequence();
      if ordered.drain && inFlight != 0 {
        rq := None;
      } else {
        skip := skip + {DRAIN};
      }
      var done := CompleteSeq(skip, 0);
      alive := ordseq != {};
    }

    /** blk_do_ordered on the head of the list. */
    method DoOrdered() returns (rq: Option<Request>, alive: bool)
      requires list != []
      modifies this
      ensures Peeked(State(), rq, alive) == OrderedQueue.DoOrdered(old(State()))
    {
      var head := list[0];
      var isBarrier := head.IsFs() && head.Hard();
      if ordseq == {} {
        if !isBarrier {
          return Some(head), true;
        }
        if !head.kind.Barrier? {
          past := past.(bug := true);
          return None, true;
        }
        if nextOrdered != NONE {
          rq, alive := StartOrdered();
          return;
        }
        list := list[1..];
        past := past.(ended := past.ended + 1, log := past.log + [End(head, EOPNOTSUPP)]);
        return None, false;
      }
      if !head.IsFs() && head.id != PREFLUSH && head.id != POSTFLUSH {
        return Some(head), true;
      }
      rq, alive := Some(head), true;
      if ordered.tag {
        if isBarrier && head.id != BAR {
          rq := None;
        }
      } else {
        past := past.(warned := past.warned || ReqSeq(State(), head) < CurSeq(ordseq));
        var stage := StageOf(head);
        if stage > CurSeq(ordseq) {
          rq := None;
        }
      }
    }

    /** blk_ordered_req_seq. */
    method StageOf(rq: Request) returns (stage: nat)
      ensures stage == ReqSeq(State(), rq)
    {
      if rq.id == PREFLUSH { return PREFLUSH; }
      if rq.id == BAR { return BAR; }
      if rq.id == POSTFLUSH { return POSTFLUSH; }
      if !rq.IsFs() { return DRAIN; }
      if orig.Some? && rq.color == orig.value.color { return DRAIN; }
      return DONE;
    }

    /** The search of ELEVATOR_INSERT_REQUEUE. */
    method FindPlace(stage: nat) returns (pos: nat)
      ensures pos == RequeuePos(State(), list, stage)
    {
      pos := 0;
      while pos < |list|
        invariant 0 <= pos <= |list|
        invariant RequeuePos(State(), list, stage) == pos + RequeuePos(State(), list[pos..], stage)
      {
        var s := StageOf(list[pos]);
        if stage <= s {
          break;
        }
        assert list[pos..][1..] == list[pos + 1..];
        pos := pos + 1;
      }
    }

    /** elv_requeue_request up to the search. */
    method Return(rq: Request)
      modifies this`driver, this`inFlight, this`started, this`soft
      ensures State() == Returned(old(State()), rq)
    {
      if rq in started && rq.IsFs() {
        inFlight := inFlight - 1;
      }
      driver := driver - {rq};
      started := started - {rq};
      soft := soft + {rq};
    }

    /** elv_requeue_request. */
    method Requeue(rq: Request)
      requires rq in driver
      modifies this`list, this`driver, this`inFlight, this`started, this`soft
      ensures State() == OrderedQueue.Requeue(old(State()), rq)
    {
      Return(rq);
      var pos := 0;
      if ordseq != {} {
        var stage := StageOf(rq);
        pos := FindPlace(stage);
      }
      list := list[..pos] + [rq] + list[pos..];
    }

    /** elv_completed_request: the request has left the driver; is the queue now drained? */
    method CompletedRequest(rq: Request)
      modifies this
      ensures State() == OrderedQueue.CompletedRequest(old(State()), rq)
    {
      if rq in started && rq.IsFs() {
        inFlight := inFlight - 1;
      }
      driver := driver - {rq};
      started := started - {rq};
      assert State() == Leave(old(State()), rq);
      if ordseq != {} {
        var first := DONE;
        if list != [] {
          first := StageOf(list[0]);
        }
        if inFlight == 0 && CurSeq(ordseq) == DRAIN && (list == [] || first > DRAIN) {
          var done := CompleteSeq({DRAIN}, 0);
        }
      }
    }

    /** pre_flush_end_io, bar_end_io and post_flush_end_io. */
    method EndIo(rq: Request, err: int)
      requires rq.kind.Proxy?
      modifies this
      ensures State() == Complete(old(State()), rq, err)
    {
      if rq.kind.stage == BAR && err != 0 && orderr == 0 {
        orderr := err;
      }
      CompletedRequest(rq);
      if orig.Some? {
        past := past.(log := past.log + [RetireStage(orig.value, rq.kind.stage, err)]);
      }
      var done := CompleteSeq({rq.kind.stage}, err);
    }

    /** blk_finish_request. */
    method Finish(rq: Request, err: int)
      requires rq in driver
      modifies this
      ensures State() == Complete(old(State()), rq, err)
    {
      if rq.kind.Proxy? {
        EndIo(rq, err);
      } else {
        if rq.kind.Fs? {
          past := past.(log := past.log + [Retire(rq)]);
        }
        CompletedRequest(rq);
      }
    }

    /** The FRONT, BACK and SORT cases of elv_insert. */
    method Insert(rq: Request, where: Where)
      modifies this`list, this`sorted, this`soft
      ensures sorted == old(sorted) + (if where.InsertSort? then {rq} else {})
      ensures soft == old(soft) + (if where.InsertSort? then {} else {rq})
      ensures list == match where
                      case InsertFront => [rq] + old(list)
                      case InsertBack => old(list) + [rq]
                      case InsertSort => old(list)
    {
      match where {
        case InsertFront =>
          soft := soft + {rq};
          list := [rq] + list;
        case InsertBack =>
          soft := soft + {rq};
          list := list + [rq];
        case InsertSort =>
          sorted := sorted + {rq};
      }
    }

    /** The step __elv_add_request takes. */
    static ghost function AddLabel(rq: Request, where: Where): Label {
      match rq.kind
      case Barrier(empty) => SubmitBarrier(empty)
      case Special => SubmitSpecial(where.InsertFront?)
      case _ => SubmitFs(where.InsertSort?)
    }

    /** The queue with rq added. */
    static ghost function Added(q: Queue, rq: Request, where: Where): Queue {
      q.(list := if where.InsertFront? then [rq] + q.list else if where.InsertBack? then q.list + [rq] else q.list,
         sorted := q.sorted + (if where.InsertSort? then {rq} else {}),
         soft := q.soft + (if where.InsertSort? then {} else {rq}),
         color := if rq.kind.Barrier? then !q.color else q.color, nextId := q.nextId + 1,
         epoch := if rq.kind.Barrier? then q.epoch + 1 else q.epoch,
         log := if rq.kind.Special? then q.log else q.log + [Submit(rq)])
    }

    static lemma AddedIsNext(q: Queue, req: Request, where: Where)
      requires req.id == q.nextId && req.epoch == q.epoch && !req.kind.Proxy?
      requires where.InsertFront? ==> req.kind.Special?
      requires where.InsertSort? ==> !req.kind.Special?
      requires q.sorted == {} || where.InsertFront? || (where.InsertSort? && req.kind.Fs?)
      ensures Enabled(q, AddLabel(req, where))
      ensures Next(q, AddLabel(req, where)) == Added(q, req.(color := q.color), if req.kind.Barrier? then InsertBack
                                                     else where)
    {
    }

    /** __elv_add_request.  File system requests never ask for the
        front; anything that goes to the back finds the scheduler drained. */
    method AddRequest(req: Request, where: Where) returns (rq: Request)
      requires req.id == past.nextId && req.epoch == past.epoch && !req.kind.Proxy?
      requires where.InsertFront? ==> req.kind.Special?
      requires where.InsertSort? ==> !req.kind.Special?
      requires sorted == {} || where.InsertFront? || (where.InsertSort? && req.kind.Fs?)
      modifies this`list, this`sorted, this`soft, this`color, this`past
      ensures State() == Next(old(State()), AddLabel(req, where))
    {
      AddedIsNext(State(), req, where);
      rq := req.(color := color);
      var place := where;
      if rq.kind.Barrier? {
        color := !color;
        place := InsertBack;
      }
      Insert(rq, place);
      past := past.(nextId := past.nextId + 1, epoch := if rq.kind.Barrier? then past.epoch + 1 else past.epoch,
                    log := if rq.kind.Special? then past.log else past.log + [Submit(rq)]);
    }

    /** blk_start_request. */
    method StartRequest() returns (rq: Request)
      requires list != []
      modifies this`list, this`driver, this`started, this`inFlight, this`past
      ensures rq == old(list)[0] && State() == Dequeue(old(State()))
    {
      rq := list[0];
      list := list[1..];
      started := started + {rq};
      if rq.IsFs() {
        inFlight := inFlight + 1;
      }
      driver := driver + {rq};
      past := past.(log := past.log + IssueEvent(State(), rq));
    }

    /** The inner loop of __elv_next_request, once: asks about the head of the list and marks it started if it may
        go. */
    method PeekOne() returns (rq: Option<Request>, alive: bool)
      requires list != [] && OrderedOnce.Inv(State())
      modifies this
      ensures State() == Peek(old(State())) && OrderedOnce.Inv(State())
      ensures rq == OrderedQueue.DoOrdered(old(State())).rq && alive == OrderedQueue.DoOrdered(old(State())).alive
      ensures rq.Some? ==> list != [] && rq.value == list[0] && rq.value in started && !rq.value.kind.Barrier?
      ensures rq.None? && alive ==> ordseq != {}
      ensures !alive ==> sorted == old(sorted) && |list| < |old(list)| && rq.None?
    {
      ghost var q := State();
      OrderedOnce.HeadKeeps(q);
      OrderedOnce.PeekKeeps(q);
      PeekShrinks(q);
      rq, alive := DoOrdered();
      if rq.Some? {
        started := started + {rq.value};
      }
    }

    /** The scheduler hands over one request of its choice to an empty list. */
    method TakeFromScheduler(ghost q0: Queue)
      requires list == [] && sorted != {} && OrderedOnce.Inv(State()) && Reaches(q0, State())
      modifies this`list, this`sorted
      ensures OrderedOnce.Inv(State()) && Reaches(q0, State())
      ensures |sorted| < |old(sorted)| && |list| == 1
    {
      var r :| r in sorted;
      ghost var l := ElvDispatch(r, 0);
      OrderedOnce.StepKeeps(State(), l);
      ReachesNext(q0, State(), l);
      sorted := sorted - {r};
      list := [r];
      assert State() == Next(old(State()), l);
    }

    /** blk_peek_request over __elv_next_request: keeps asking the head of the list and, when the list is empty, the
        scheduler, which may decline.  Whatever it does is a run of the steps above. */
    method PeekRequest() returns (rq: Option<Request>)
      requires OrderedOnce.Inv(State())
      modifies this
      ensures OrderedOnce.Inv(State()) && Reaches(old(State()), State())
      ensures rq.Some? ==> list != [] && rq.value == list[0] && rq.value in started && !rq.value.kind.Barrier?
      ensures rq.None? ==> list == [] || ordseq != {}
    {
      ghost var q0 := State();
      ReachesSelf(q0);
      while true
        invariant OrderedOnce.Inv(State()) && Reaches(q0, State())
        decreases |sorted|, |list|
      {
        if list != [] {
          ReachesPeek(q0, State());
          var alive;
          rq, alive := PeekOne();
          if alive {
            return;
          }
        } else {
          var give: bool := *;
          if sorted == {} || !give {
            return None;
          }
          TakeFromScheduler(q0);
        }
      }
    }
  }
}
