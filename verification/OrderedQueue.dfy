/** The request queue as block/blk-barrier.c and block/elevator.c see it: the dispatch list, the ordered
    sequence that replaces a barrier, and every step that may be taken under the queue lock.

    A request is an immutable value; the flags the code sets on it later (REQ_STARTED, REQ_SOFTBARRIER) are
    kept as sets of the requests that carry them.  Bit masks are sets of bit positions.
    BUG_ON and WARN_ON set a sticky field instead of stopping. */
module OrderedQueue {
  import opened Basics

  // Bit positions of the QUEUE_ORDSEQ_* flags.
  const STARTED: nat := 0
  const DRAIN: nat := 1
  const PREFLUSH: nat := 2
  const BAR: nat := 3
  const POSTFLUSH: nat := 4
  const DONE: nat := 5

  const EOPNOTSUPP: int := -95

  /** QUEUE_ORDERED_*: how the device keeps barriers ordered and which proxy requests it needs. */
  datatype Mode = Mode(drain: bool, tag: bool, pre: bool, bar: bool, post: bool) {
    /** Does a sequence in this mode contain a proxy request for the given stage? */
    predicate Wants(stage: nat) {
      (stage == PREFLUSH && pre) || (stage == BAR && bar) || (stage == POSTFLUSH && post)
    }
  }

  const NONE := Mode(false, false, false, false, false)

  /** The values blk_queue_ordered accepts (DO_FUA only changes the command sent, so FUA is FLUSH without post). */
  predicate Accepted(m: Mode) {
    || m == NONE
    || m == Mode(true, false, false, true, false)
    || m == Mode(true, false, true, true, true)
    || m == Mode(true, false, true, true, false)
    || m == Mode(false, true, false, true, false)
    || m == Mode(false, true, true, true, true)
    || m == Mode(false, true, true, true, false)
  }

  datatype Kind =
    | Fs                        // REQ_TYPE_FS
    | Barrier(empty: bool)      // REQ_TYPE_FS with REQ_HARDBARRIER
    | Special                   // any other command type
    | Proxy(stage: nat)         // q->pre_flush_rq, q->bar_rq, q->post_flush_rq

  /** `color` is REQ_ORDERED_COLOR.  `epoch` counts the barriers submitted before this request; it is history
      that no operation reads.  The three proxy requests have their stage as id, all others an id of 6 or more. */
  datatype Request = Request(id: nat, kind: Kind, color: bool, epoch: nat) {
    predicate IsFs() { kind.Fs? || kind.Barrier? || kind == Proxy(BAR) }
    predicate Hard() { kind.Barrier? || kind.Proxy? }
  }

  /** What an outside observer of the queue sees. */
  datatype Event =
    | Submit(rq: Request)                             // __elv_add_request
    | Issue(rq: Request)                              // a file system request reaches the driver
    | Retire(rq: Request)                             // ... and is completed by it
    | Start(rq: Request, mode: Mode)                  // an ordered sequence replaces the barrier
    | IssueStage(rq: Request, stage: nat)             // a proxy of that barrier reaches the driver
    | RetireStage(rq: Request, stage: nat, err: int)  // ... and is completed by it
    | DataError(rq: Request, err: int)                // part of the barrier's data failed
    | End(rq: Request, err: int)                      // the barrier itself is ended
    | Configure(mode: Mode)                           // blk_queue_ordered

  datatype Queue = Queue(
    list: seq<Request>,         // q->queue_head
    sorted: set<Request>,       // requests held by the I/O scheduler
    driver: set<Request>,       // requests the driver has dequeued
    inFlight: int,              // q->in_flight[0] + q->in_flight[1]
    started: set<Request>,      // REQ_STARTED
    soft: set<Request>,         // REQ_SOFTBARRIER
    ordseq: set<nat>,
    ordered: Mode,
    nextOrdered: Mode,
    orderr: int,
    orig: Option<Request>,      // q->orig_bar_rq
    color: bool,                // q->ordcolor
    bug: bool,                  // some BUG_ON fired
    warned: bool,               // the WARN_ON of blk_do_ordered fired
    // history
    epoch: nat,                 // barriers submitted
    ended: nat,                 // barriers ended
    nextId: nat,
    seqMode: Mode,              // q->ordered as the last sequence started
    log: seq<Event>)

  function Init(m: Mode): Queue {
    Queue([], {}, {}, 0, {}, {}, {}, m, m, 0, None, false, false, false, 0, 0, 6, m, [Configure(m)])
  }

  function Emit(q: Queue, ev: Event): Queue { q.(log := q.log + [ev]) }

  // ----- blk-barrier.c: stages

  /** blk_ordered_cur_seq: the lowest bit still clear. */
  function CurSeq(ordseq: set<nat>): nat {
    if ordseq == {} || STARTED !in ordseq then STARTED
    else if DRAIN !in ordseq then DRAIN
    else if PREFLUSH !in ordseq then PREFLUSH
    else if BAR !in ordseq then BAR
    else if POSTFLUSH !in ordseq then POSTFLUSH
    else DONE
  }

  /** blk_ordered_req_seq. */
  function ReqSeq(q: Queue, rq: Request): nat {
    if rq.id == PREFLUSH then PREFLUSH
    else if rq.id == BAR then BAR
    else if rq.id == POSTFLUSH then POSTFLUSH
    else if !rq.IsFs() then DRAIN
    else if q.orig.Some? && rq.color == q.orig.value.color then DRAIN
    else DONE
  }

  function FirstError(recorded: int, err: int): int {
    if err != 0 && recorded == 0 then err else recorded
  }

  /** blk_ordered_complete_seq; the caller learns from an empty `ordseq` that the sequence is over. */
  function CompleteSeq(q: Queue, stages: set<nat>, err: int): Queue {
    var q1 := q.(orderr := FirstError(q.orderr, err), bug := q.bug || stages * q.ordseq != {} || q.orig.None?,
                 ordseq := q.ordseq + stages);
    if CurSeq(q1.ordseq) != DONE || q1.orig.None? then q1
    else Emit(q1.(ordseq := {}, ended := q1.ended + 1), End(q1.orig.value, q1.orderr))
  }

  // ----- elevator.c: insertion

  function InsertAt(s: seq<Request>, pos: nat, rq: Request): (r: seq<Request>)
    requires pos <= |s|
    ensures |r| == |s| + 1
  {
    s[..pos] + [rq] + s[pos..]
  }

  /** ELEVATOR_INSERT_FRONT. */
  function InsertFront(q: Queue, rq: Request): Queue {
    q.(list := [rq] + q.list, soft := q.soft + {rq})
  }

  /** Where ELEVATOR_INSERT_REQUEUE stops its scan: the first entry whose stage is not below `seq`. */
  function RequeuePos(q: Queue, s: seq<Request>, stage: nat): (pos: nat)
    ensures pos <= |s|
    ensures forall i :: 0 <= i < pos ==> ReqSeq(q, s[i]) < stage
    ensures pos < |s| ==> stage <= ReqSeq(q, s[pos])
  {
    if s == [] || stage <= ReqSeq(q, s[0]) then 0 else 1 + RequeuePos(q, s[1..], stage)
  }

  /** A request leaves the driver: blk_account_rq decides whether it counted as in flight. */
  function Leave(q: Queue, rq: Request): Queue {
    q.(driver := q.driver - {rq}, started := q.started - {rq},
       inFlight := if rq in q.started && rq.IsFs() then q.inFlight - 1 else q.inFlight)
  }

  /** elv_requeue_request up to the search for its place: the request is flagged as a soft barrier. */
  function Returned(q: Queue, rq: Request): Queue { Leave(q, rq).(soft := q.soft + {rq}) }

  /** elv_requeue_request and the ELEVATOR_INSERT_REQUEUE case of elv_insert. */
  function Requeue(q: Queue, rq: Request): Queue {
    var q1 := Returned(q, rq);
    var pos := if q1.ordseq == {} then 0 else RequeuePos(q1, q1.list, ReqSeq(q1, rq));
    q1.(list := InsertAt(q1.list, pos, rq))
  }

  // ----- blk-barrier.c: starting a sequence

  function ProxyOf(stage: nat, bar: Request): Request { Request(stage, Proxy(stage), false, bar.epoch) }

  /** The mode start_ordered settles on: an empty barrier needs neither BAR nor POSTFLUSH, and if that leaves
      a tag-ordered device with no command at all, it drains. */
  function SequenceMode(m: Mode, empty: bool): Mode {
    if !empty then m
    else
      var m1 := m.(bar := false, post := false);
      if m1.tag && !m1.pre then m1.(tag := false, drain := true) else m1
  }

  /** The proxies of a sequence, in the order start_ordered leaves them at the head of the list. */
  function Proxies(m: Mode, b: Request): (ps: seq<Request>)
    ensures forall r :: r in ps <==> r.kind.Proxy? && m.Wants(r.kind.stage) && r == ProxyOf(r.kind.stage, b)
    ensures forall i, j :: 0 <= i < j < |ps| ==> ps[i].kind.Proxy? && ps[j].kind.Proxy?
                                                 && ps[i].kind.stage < ps[j].kind.stage
    ensures ps == [] <==> !(m.pre || m.bar || m.post)
  {
    (if m.pre then [ProxyOf(PREFLUSH, b)] else []) + (if m.bar then [ProxyOf(BAR, b)] else [])
    + (if m.post then [ProxyOf(POSTFLUSH, b)] else [])
  }

  /** blk_do_ordered's answer: the new queue, the request to hand out if any, and whether it returned true. */
  datatype Peeked = Peeked(q: Queue, rq: Option<Request>, alive: bool)

  function Elems(ps: seq<Request>): set<Request> { set r | r in ps }

  /** The queue as start_ordered hands it to blk_ordered_complete_seq: the barrier at the head is stashed away
      and its proxies, freshly initialised, stand in its place. */
  function Staged(q: Queue, m: Mode, ps: seq<Request>): Queue
    requires q.list != []
  {
    var b := q.list[0];
    var proxies := Elems(ps);
    q.(list := ps + q.list[1..], soft := q.soft + proxies, started := q.started - proxies,
       ordseq := q.ordseq + {STARTED}, ordered := m, seqMode := m,
       orderr := 0, orig := Some(b), log := q.log + [Start(b, m)])
  }

  /** start_ordered on the barrier at the head of the list. */
  function StartOrdered(q: Queue): Peeked
    requires q.list != [] && q.list[0].kind.Barrier?
  {
    var b := q.list[0];
    var m := SequenceMode(q.nextOrdered, b.kind.empty);
    var ps := Proxies(m, b);
    var wait := m.drain && q.inFlight != 0;
    var q1 := CompleteSeq(Staged(q, m, ps), Skipped(m, wait), 0);
    Peeked(q1, if wait || ps == [] then None else Some(ps[0]), q1.ordseq != {})
  }

  function Skipped(m: Mode, wait: bool): set<nat> {
    (if m.post then {} else {POSTFLUSH}) + (if m.bar then {} else {BAR})
    + (if m.pre then {} else {PREFLUSH}) + (if wait then {} else {DRAIN})
  }

  /** blk_do_ordered on the head of the list. */
  function DoOrdered(q: Queue): Peeked
    requires q.list != []
  {
    var rq := q.list[0];
    var isBarrier := rq.IsFs() && rq.Hard();
    if q.ordseq == {} then
      if !isBarrier then Peeked(q, Some(rq), true)
      else if !rq.kind.Barrier? then Peeked(q.(bug := true), None, true)   // bar_rq outside a sequence
      else if q.nextOrdered != NONE then StartOrdered(q)
      else Peeked(Emit(q.(list := q.list[1..], ended := q.ended + 1), End(rq, EOPNOTSUPP)), None, false)
    else if !rq.IsFs() && rq.id != PREFLUSH && rq.id != POSTFLUSH then
      Peeked(q, Some(rq), true)
    else if q.ordered.tag then
      Peeked(q, if isBarrier && rq.id != BAR then None else Some(rq), true)
    else
      var q1 := q.(warned := q.warned || ReqSeq(q, rq) < CurSeq(q.ordseq));
      Peeked(q1, if ReqSeq(q, rq) > CurSeq(q.ordseq) then None else Some(rq), true)
  }

  // ----- handing requests to the driver and back

  function IssueEvent(q: Queue, rq: Request): seq<Event> {
    match rq.kind
    case Fs => [Issue(rq)]
    case Proxy(x) => if q.orig.Some? then [IssueStage(q.orig.value, x)] else []
    case _ => []
  }

  /** blk_peek_request marks the head started, blk_dequeue_request takes it off the list. */
  function Dequeue(q: Queue): Queue
    requires q.list != []
  {
    var rq := q.list[0];
    q.(list := q.list[1..], driver := q.driver + {rq}, started := q.started + {rq},
       inFlight := if rq.IsFs() then q.inFlight + 1 else q.inFlight,
       log := q.log + IssueEvent(q, rq))
  }

  /** One turn of __elv_next_request, with blk_start_request when it yields a request. */
  function Fetch(q: Queue): Queue
    requires q.list != []
  {
    var p := DoOrdered(q);
    if p.rq.Some? && p.q.list != [] then Dequeue(p.q) else p.q
  }

  /** blk_peek_request without blk_start_request: the request stays on the list, marked started. */
  function Peek(q: Queue): Queue
    requires q.list != []
  {
    var p := DoOrdered(q);
    if p.rq.Some? then p.q.(started := p.q.started + {p.rq.value}) else p.q
  }

  /** The second half of elv_completed_request: has the queue drained for the sequence? */
  function DrainCheck(q: Queue): Queue {
    if && q.ordseq != {} && q.inFlight == 0 && CurSeq(q.ordseq) == DRAIN
       && (q.list == [] || ReqSeq(q, q.list[0]) > DRAIN)
    then CompleteSeq(q, {DRAIN}, 0)
    else q
  }

  /** elv_completed_request for a request the driver had. */
  function CompletedRequest(q: Queue, rq: Request): Queue { DrainCheck(Leave(q, rq)) }

  /** blk_finish_request: proxies go through the three end_io callbacks, others through __blk_put_request. */
  function Complete(q: Queue, rq: Request, err: int): Queue {
    match rq.kind
    case Proxy(x) =>
      var q1 := if x == BAR then q.(orderr := FirstError(q.orderr, err)) else q;
      var q2 := CompletedRequest(q1, rq);
      var q3 := if q2.orig.Some? then Emit(q2, RetireStage(q2.orig.value, x, err)) else q2;
      CompleteSeq(q3, {x}, err)
    case Fs => CompletedRequest(Emit(q, Retire(rq)), rq)
    case _ => CompletedRequest(q, rq)
  }

  // ----- the steps

  datatype Label =
    | SubmitFs(sort: bool)
    | SubmitBarrier(empty: bool)
    | SubmitSpecial(front: bool)
    | ElvDispatch(rq: Request, pos: nat)     // elv_dispatch_sort or elv_dispatch_add_tail
    | FetchHead
    | PeekHead
    | Finish(rq: Request, err: int)
    | DataFailed(err: int)                   // req_bio_endio on part of bar_rq
    | RequeueOne(rq: Request)
    | MergedAway                             // __blk_put_request of a request merged into another
    | SetMode(mode: Mode)                    // blk_queue_ordered

  predicate StopsSort(q: Queue, rq: Request) { rq.Hard() || rq in q.soft || rq in q.started }

  /** Back insertion drains the scheduler first, so it is enabled once `sorted` is empty. */
  predicate Enabled(q: Queue, l: Label) {
    match l
    case SubmitFs(sort) => sort || q.sorted == {}
    case SubmitBarrier(_) => q.sorted == {}
    case SubmitSpecial(front) => front || q.sorted == {}
    case ElvDispatch(rq, pos) =>
      rq in q.sorted && pos <= |q.list| && forall i :: pos <= i < |q.list| ==> !StopsSort(q, q.list[i])
    case FetchHead => q.list != []
    case PeekHead => q.list != []
    case Finish(rq, _) => rq in q.driver
    case DataFailed(_) => exists rq :: rq in q.driver && rq.kind == Proxy(BAR)
    case RequeueOne(rq) => rq in q.driver
    case MergedAway => true
    case SetMode(m) => Accepted(m)
  }

  function NewRequest(q: Queue, kind: Kind): Request { Request(q.nextId, kind, q.color, q.epoch) }

  function AddTail(q: Queue, rq: Request): Queue {
    q.(list := q.list + [rq], soft := q.soft + {rq}, nextId := q.nextId + 1)
  }

  function Next(q: Queue, l: Label): Queue
    requires Enabled(q, l)
  {
    match l
    case SubmitFs(sort) =>
      var rq := NewRequest(q, Fs);
      var q1 := if sort then q.(sorted := q.sorted + {rq}, nextId := q.nextId + 1) else AddTail(q, rq);
      Emit(q1, Submit(rq))
    case SubmitBarrier(empty) =>
      var rq := NewRequest(q, Barrier(empty));
      Emit(AddTail(q, rq).(color := !q.color, epoch := q.epoch + 1), Submit(rq))
    case SubmitSpecial(front) =>
      var rq := NewRequest(q, Special);
      if front then InsertFront(q, rq).(nextId := q.nextId + 1) else AddTail(q, rq)
    case ElvDispatch(rq, pos) =>
      q.(sorted := q.sorted - {rq}, list := InsertAt(q.list, pos, rq))
    case FetchHead => Fetch(q)
    case PeekHead => Peek(q)
    case Finish(rq, err) => Complete(q, rq, err)
    case DataFailed(err) =>
      var q1 := q.(orderr := FirstError(q.orderr, err));
      if q.orig.Some? then Emit(q1, DataError(q.orig.value, err)) else q1
    case RequeueOne(rq) => Requeue(q, rq)
    case MergedAway => DrainCheck(q)
    case SetMode(m) => Emit(q.(ordered := m, nextOrdered := m), Configure(m))
  }

  /** A run: every label is enabled when its turn comes. */
  predicate IsRun(q: Queue, labels: seq<Label>)
    decreases |labels|
  {
    labels == [] || (Enabled(q, labels[0]) && IsRun(Next(q, labels[0]), labels[1..]))
  }

  function After(q: Queue, labels: seq<Label>): Queue
    requires IsRun(q, labels)
    decreases |labels|
  {
    if labels == [] then q else After(Next(q, labels[0]), labels[1..])
  }
}
