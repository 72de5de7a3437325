/** What every run of the queue keeps, whatever the ordering mode and however it changes: sequences never
    overlap, every stage of a sequence is completed once, and every barrier is ended at most once, with the
    first error any of its stages reported. */
module OrderedOnce {
  import opened Basics
  import opened OrderedQueue

  // ----- the property, read off the event log alone

  function Submits(log: seq<Event>): set<Request> { set ev | ev in log && ev.Submit? :: ev.rq }

  function Starts(log: seq<Event>): set<(Request, Mode)> { set ev | ev in log && ev.Start? :: (ev.rq, ev.mode) }

  function Begun(log: seq<Event>): set<Request> { set ev | ev in log && ev.Start? :: ev.rq }

  function Ends(log: seq<Event>): set<Request> { set ev | ev in log && ev.End? :: ev.rq }

  function StageRetires(log: seq<Event>): set<(Request, nat)> {
    set ev | ev in log && ev.RetireStage? :: (ev.rq, ev.stage)
  }

  function Reports(log: seq<Event>): set<Request> {
    set ev | ev in log && (ev.RetireStage? || ev.DataError?) :: ev.rq
  }

  function ErrorIn(ev: Event, b: Request): int {
    if (ev.RetireStage? || ev.DataError?) && ev.rq == b then ev.err else 0
  }

  /** The first error reported for barrier `b`, 0 if there was none. */
  function FirstErr(log: seq<Event>, b: Request): int {
    if log == [] then 0
    else FirstError(FirstErr(log[..|log| - 1], b), ErrorIn(log[|log| - 1], b))
  }

  /** Stage `x` of barrier `b` may be issued or retired after `log`. */
  predicate StageOpen(log: seq<Event>, b: Request, x: nat) {
    && b in Begun(log) && b !in Ends(log) && (b, x) !in StageRetires(log)
    && forall s :: s in Starts(log) && s.0 == b ==> s.1.Wants(x)
  }

  /** All the stages barrier `b` was started with have been completed. */
  predicate StagesDone(log: seq<Event>, b: Request) {
    forall s :: s in Starts(log) && s.0 == b ==>
      && (s.1.pre ==> (b, PREFLUSH) in StageRetires(log))
      && (s.1.bar ==> (b, BAR) in StageRetires(log))
      && (s.1.post ==> (b, POSTFLUSH) in StageRetires(log))
  }

  predicate EventOk(log: seq<Event>, ev: Event) {
    match ev
    case Start(b, _) => b in Submits(log) && b !in Begun(log) && Begun(log) <= Ends(log)
    case IssueStage(b, x) => StageOpen(log, b, x)
    case RetireStage(b, x, _) => StageOpen(log, b, x)
    case End(b, e) =>
      && b in Submits(log) && b !in Ends(log)
      && (if b in Begun(log) then e == FirstErr(log, b) && StagesDone(log, b) else e == EOPNOTSUPP)
    case _ => true
  }

  /** Every event of the log is allowed by the events before it. */
  predicate OnceOnly(log: seq<Event>) {
    forall i {:trigger EventOk(log[..i], log[i])} :: 0 <= i < |log| ==> EventOk(log[..i], log[i])
  }

  // ----- reading a log that grew by one event

  lemma InExtended(log: seq<Event>, ev: Event)
    ensures forall e :: e in log + [ev] <==> e in log || e == ev
  {
  }

  lemma Extend(log: seq<Event>, ev: Event)
    ensures Submits(log + [ev]) == Submits(log) + (if ev.Submit? then {ev.rq} else {})
    ensures Starts(log + [ev]) == Starts(log) + (if ev.Start? then {(ev.rq, ev.mode)} else {})
    ensures Begun(log + [ev]) == Begun(log) + (if ev.Start? then {ev.rq} else {})
    ensures Ends(log + [ev]) == Ends(log) + (if ev.End? then {ev.rq} else {})
    ensures StageRetires(log + [ev]) == StageRetires(log) + (if ev.RetireStage? then {(ev.rq, ev.stage)} else {})
    ensures Reports(log + [ev]) == Reports(log) + (if ev.RetireStage? || ev.DataError? then {ev.rq} else {})
    ensures OnceOnly(log + [ev]) <==> OnceOnly(log) && EventOk(log, ev)
  {
    InExtended(log, ev);
    var l := log + [ev];
    assert l[..|log|] == log;
    assert EventOk(l[..|log|], l[|log|]) <==> EventOk(log, ev);
    forall i | 0 <= i < |log| ensures EventOk(l[..i], l[i]) <==> EventOk(log[..i], log[i]) {
      assert l[..i] == log[..i];
    }
  }

  lemma ExtendErr(log: seq<Event>, ev: Event, b: Request)
    ensures FirstErr(log + [ev], b) == FirstError(FirstErr(log, b), ErrorIn(ev, b))
  {
    assert (log + [ev])[..|log|] == log;
  }

  /** Before anything is reported for a barrier there is no error. */
  lemma {:induction false} NoErrorYet(log: seq<Event>, b: Request)
    requires b !in Reports(log)
    ensures FirstErr(log, b) == 0
  {
    if log == [] {
    } else {
      var front, ev := log[..|log| - 1], log[|log| - 1];
      assert log == front + [ev];
      Extend(front, ev);
      NoErrorYet(front, b);
    }
  }

  // ----- the invariant

  predicate Distinct(s: seq<Request>) { forall i, j :: 0 <= i < j < |s| ==> s[i] != s[j] }

  function HeldIn(list: seq<Request>, driver: set<Request>, sorted: set<Request>): set<Request> {
    Elems(list) + driver + sorted
  }

  function Held(q: Queue): set<Request> { HeldIn(q.list, q.driver, q.sorted) }

  predicate Active(q: Queue) { q.ordseq != {} }

  predicate IsStage(x: nat) { PREFLUSH <= x <= POSTFLUSH }

  function FsOf(s: set<Request>): set<Request> { set r | r in s && r.IsFs() }

  /** Where requests are. */
  predicate PlacesIn(list: seq<Request>, driver: set<Request>, sorted: set<Request>, started: set<Request>,
                     inFlight: int) {
    && Distinct(list) && Elems(list) !! driver && Elems(list) !! sorted && driver !! sorted
    && (forall r :: r in sorted ==> r.kind.Fs?)
    && (forall r :: r in driver ==> !r.kind.Barrier? && r in started)
    && inFlight == |FsOf(driver)|
  }

  predicate Places(q: Queue) { PlacesIn(q.list, q.driver, q.sorted, q.started, q.inFlight) }

  /** Ids at or above `nextId` are unused; ids below 6 belong to proxies. */
  predicate Fresh(held: set<Request>, log: seq<Event>, nextId: nat) {
    && 6 <= nextId
    && (forall r :: r in held && !r.kind.Proxy? ==> 6 <= r.id < nextId)
    && (forall r :: r in Submits(log) ==> r.id < nextId)
  }

  /** The state of a sequence: a proxy exists exactly while its bit is clear. */
  predicate Sequence(ordseq: set<nat>, orig: Option<Request>, held: set<Request>) {
    if ordseq == {} then forall r :: r in held ==> !r.kind.Proxy?
    else
      && orig.Some? && orig.value.kind.Barrier? && orig.value !in held
      && STARTED in ordseq && (forall x :: x in ordseq ==> x <= POSTFLUSH)
      && (forall r :: r in held && r.kind.Proxy? ==>
            && IsStage(r.kind.stage) && r.kind.stage !in ordseq
            && r == ProxyOf(r.kind.stage, orig.value))
      && (PREFLUSH !in ordseq ==> ProxyOf(PREFLUSH, orig.value) in held)
      && (BAR !in ordseq ==> ProxyOf(BAR, orig.value) in held)
      && (POSTFLUSH !in ordseq ==> ProxyOf(POSTFLUSH, orig.value) in held)
  }

  /** Which barriers the log leaves unfinished. */
  predicate Unfinished(log: seq<Event>, ordseq: set<nat>, orig: Option<Request>, held: set<Request>) {
    && Ends(log) <= Submits(log) && Begun(log) <= Submits(log) && Reports(log) <= Begun(log)
    && (forall b :: b in held && b.kind.Barrier? ==> b in Submits(log) && b !in Ends(log) && b !in Begun(log))
    && (forall b :: b in Submits(log) && b.kind.Barrier? && b !in Ends(log) && b !in held ==>
          ordseq != {} && Some(b) == orig)
    && Begun(log) - Ends(log) == (if ordseq != {} && orig.Some? then {orig.value} else {})
  }

  /** What the log says about the sequence in progress. */
  predicate Current(log: seq<Event>, ordseq: set<nat>, b: Request, orderr: int, mode: Mode) {
    && (forall s :: s in Starts(log) && s.0 == b ==> s.1 == mode)
    && orderr == FirstErr(log, b)
    && (PREFLUSH in ordseq <==> !mode.pre || (b, PREFLUSH) in StageRetires(log))
    && (BAR in ordseq <==> !mode.bar || (b, BAR) in StageRetires(log))
    && (POSTFLUSH in ordseq <==> !mode.post || (b, POSTFLUSH) in StageRetires(log))
  }

  /** The barriers on the list, in list order. */
  function Bars(list: seq<Request>): seq<Request> {
    if list == [] then []
    else if list[0].kind.Barrier? then [list[0]] + Bars(list[1..])
    else Bars(list[1..])
  }

  /** The colour of an epoch: every barrier toggles it. */
  function ColorOf(epoch: nat): bool { if epoch == 0 then false else !ColorOf(epoch - 1) }

  predicate Colored(b: Request) { b.color == ColorOf(b.epoch) }

  /** Barriers wait in the order of their epochs: `base` is the first one waiting, `epoch` the next to come. */
  predicate Waiting(bars: seq<Request>, base: nat, epoch: nat) {
    base + |bars| == epoch && forall i :: 0 <= i < |bars| ==> bars[i].epoch == base + i && Colored(bars[i])
  }

  predicate Turns(bars: seq<Request>, ordseq: set<nat>, orig: Option<Request>, ended: nat, epoch: nat, color: bool) {
    && color == ColorOf(epoch)
    && (if ordseq == {} then Waiting(bars, ended, epoch)
        else orig.Some? && orig.value.epoch == ended && Colored(orig.value) && Waiting(bars, ended + 1, epoch))
  }

  predicate Turned(q: Queue) { Turns(Bars(q.list), q.ordseq, q.orig, q.ended, q.epoch, q.color) }

  predicate Base(q: Queue) {
    && !q.bug && Places(q) && Fresh(Held(q), q.log, q.nextId)
    && Sequence(q.ordseq, q.orig, Held(q)) && CurSeq(q.ordseq) != DONE
    && Unfinished(q.log, q.ordseq, q.orig, Held(q))
    && (Active(q) ==> Current(q.log, q.ordseq, q.orig.value, q.orderr, q.seqMode))
    && OnceOnly(q.log)
  }

  predicate Inv(q: Queue) { Base(q) && Turned(q) }

  // ----- small steps

  lemma FsOfLess(s: set<Request>, r: Request)
    requires r in s
    ensures |FsOf(s - {r})| == |FsOf(s)| - (if r.IsFs() then 1 else 0)
  {
    assert FsOf(s - {r}) == FsOf(s) - {r};
  }

  lemma FsOfMore(s: set<Request>, r: Request)
    requires r !in s
    ensures |FsOf(s + {r})| == |FsOf(s)| + (if r.IsFs() then 1 else 0)
  {
    FsOfLess(s + {r}, r);
    assert s + {r} - {r} == s;
  }

  lemma InsertAtElems(s: seq<Request>, pos: nat, rq: Request)
    requires pos <= |s|
    ensures Elems(InsertAt(s, pos, rq)) == Elems(s) + {rq}
    ensures Distinct(s) && rq !in s ==> Distinct(InsertAt(s, pos, rq))
  {
    forall x ensures x in InsertAt(s, pos, rq) <==> x in s || x == rq {
      assert s == s[..pos] + s[pos..];
    }
  }

  lemma {:induction false} BarsConcat(s: seq<Request>, t: seq<Request>)
    ensures Bars(s + t) == Bars(s) + Bars(t)
  {
    if s == [] {
      assert s + t == t;
    } else {
      assert (s + t)[1..] == s[1..] + t;
      BarsConcat(s[1..], t);
    }
  }

  lemma {:induction false} BarsInsertAt(s: seq<Request>, pos: nat, rq: Request)
    requires pos <= |s| && !rq.kind.Barrier?
    ensures Bars(InsertAt(s, pos, rq)) == Bars(s)
  {
    var t := InsertAt(s, pos, rq);
    if pos == 0 {
      assert t[0] == rq && t[1..] == s;
    } else {
      assert t[0] == s[0] && t[1..] == InsertAt(s[1..], pos - 1, rq);
      BarsInsertAt(s[1..], pos - 1, rq);
    }
  }

  lemma {:induction false} NoBars(s: seq<Request>)
    requires forall r :: r in s ==> !r.kind.Barrier?
    ensures Bars(s) == []
  {
    if s == [] {
    } else {
      assert s[0] in s;
      NoBars(s[1..]);
    }
  }

  lemma FirstTurn(b: Request, rest: seq<Request>, base: nat, epoch: nat)
    requires Waiting([b] + rest, base, epoch)
    ensures b.epoch == base && Colored(b) && Waiting(rest, base + 1, epoch)
  {
    var bars := [b] + rest;
    assert bars[0] == b && forall i :: 0 <= i < |rest| ==> rest[i] == bars[i + 1];
  }

  lemma TailElems(s: seq<Request>)
    requires s != [] && Distinct(s)
    ensures Distinct(s[1..]) && Elems(s[1..]) == Elems(s) - {s[0]}
  {
    assert s == [s[0]] + s[1..];
  }

  /** The log after the barrier of the sequence in progress has been ended. */
  lemma EndLogged(log: seq<Event>, ordseq: set<nat>, full: set<nat>, b: Request, held: set<Request>, err: int,
                  mode: Mode)
    requires OnceOnly(log) && ordseq != {} && b.kind.Barrier? && b !in held
    requires Unfinished(log, ordseq, Some(b), held)
    requires CurSeq(full) == DONE && Current(log, full, b, err, mode)
    ensures OnceOnly(log + [End(b, err)])
    ensures Unfinished(log + [End(b, err)], {}, Some(b), held)
    ensures Submits(log + [End(b, err)]) == Submits(log)
  {
    Extend(log, End(b, err));
    assert b in Begun(log) - Ends(log);
  }

  /** All is as it should be once `stages` are over. */
  predicate MayComplete(q: Queue, stages: set<nat>, err: int) {
    && !q.bug && Places(q) && Fresh(Held(q), q.log, q.nextId) && OnceOnly(q.log)
    && Active(q) && stages !! q.ordseq && Sequence(q.ordseq + stages, q.orig, Held(q))
    && Unfinished(q.log, q.ordseq, q.orig, Held(q))
    && Current(q.log, q.ordseq + stages, q.orig.value, FirstError(q.orderr, err), q.seqMode)
  }

  /** Completing stages that are still open keeps the invariant; the last one ends the barrier.
      `q` is the queue with the proxies of those stages already gone. */
  lemma CompleteSeqKeeps(q: Queue, stages: set<nat>, err: int)
    requires MayComplete(q, stages, err)
    ensures Base(CompleteSeq(q, stages, err))
    ensures Held(CompleteSeq(q, stages, err)) == Held(q)
  {
    var full, e := q.ordseq + stages, FirstError(q.orderr, err);
    if CurSeq(full) == DONE {
      EndLogged(q.log, q.ordseq, full, q.orig.value, Held(q), e, q.seqMode);
      SameFresh(Held(q), q.log, q.log + [End(q.orig.value, e)], q.nextId);
      SequenceOver(full, q.orig, Held(q));
    } else {
      StillUnfinished(q.log, q.ordseq, full, q.orig, Held(q));
    }
  }

  lemma SequenceOver(full: set<nat>, orig: Option<Request>, held: set<Request>)
    requires Sequence(full, orig, held) && full != {} && CurSeq(full) == DONE
    ensures Sequence({}, orig, held)
  {
  }

  lemma StillUnfinished(log: seq<Event>, ordseq: set<nat>, full: set<nat>, orig: Option<Request>, held: set<Request>)
    requires Unfinished(log, ordseq, orig, held) && ordseq != {} && full != {}
    ensures Unfinished(log, full, orig, held)
  {
  }

  lemma DrainCheckKeeps(q: Queue)
    requires Base(q)
    ensures Base(DrainCheck(q)) && Held(DrainCheck(q)) == Held(q)
  {
    if DrainCheck(q) != q {
      CompleteSeqKeeps(q, {DRAIN}, 0);
    }
  }

  /** Taking a request that is not a proxy out of the driver. */
  lemma LeaveKeeps(q: Queue, rq: Request)
    requires Base(q) && rq in q.driver && !rq.kind.Proxy?
    ensures Base(Leave(q, rq)) && Held(Leave(q, rq)) == Held(q) - {rq}
  {
    FsOfLess(q.driver, rq);
    assert Held(Leave(q, rq)) == Held(q) - {rq};
  }

  /** An event that the invariant of the log does not depend on. */
  predicate IsNote(log: seq<Event>, ev: Event) {
    ev.Issue? || ev.Retire? || ev.Configure? || (ev.IssueStage? && StageOpen(log, ev.rq, ev.stage))
  }

  lemma NoteLogged(log: seq<Event>, ev: Event, ordseq: set<nat>, orig: Option<Request>, held: set<Request>)
    requires OnceOnly(log) && Unfinished(log, ordseq, orig, held) && IsNote(log, ev)
    ensures OnceOnly(log + [ev]) && Unfinished(log + [ev], ordseq, orig, held) && Submits(log + [ev]) == Submits(log)
  {
    Extend(log, ev);
  }

  lemma NoteCurrent(log: seq<Event>, ev: Event, ordseq: set<nat>, b: Request, orderr: int, mode: Mode)
    requires Current(log, ordseq, b, orderr, mode) && IsNote(log, ev)
    ensures Current(log + [ev], ordseq, b, orderr, mode)
  {
    Extend(log, ev);
    ExtendErr(log, ev, b);
  }

  /** A log entry that no part of the invariant depends on. */
  lemma SameFresh(held: set<Request>, log: seq<Event>, log': seq<Event>, nextId: nat)
    requires Fresh(held, log, nextId) && Submits(log') == Submits(log)
    ensures Fresh(held, log', nextId)
  {
  }

  lemma NoteKeeps(q: Queue, ev: Event)
    requires Base(q) && IsNote(q.log, ev)
    ensures Base(Emit(q, ev)) && Held(Emit(q, ev)) == Held(q)
  {
    NoteLogged(q.log, ev, q.ordseq, q.orig, Held(q));
    assert Held(Emit(q, ev)) == Held(q);
    SameFresh(Held(q), q.log, Emit(q, ev).log, q.nextId);
    if Active(q) {
      NoteCurrent(q.log, ev, q.ordseq, q.orig.value, q.orderr, q.seqMode);
    }
  }

  /** Reporting an error for the barrier in progress. */
  lemma DataErrorKeeps(q: Queue, err: int)
    requires Base(q) && Active(q)
    ensures Base(Emit(q.(orderr := FirstError(q.orderr, err)), DataError(q.orig.value, err)))
  {
    var b := q.orig.value;
    Extend(q.log, DataError(b, err));
    ExtendErr(q.log, DataError(b, err), b);
    assert b in Begun(q.log) - Ends(q.log);
    assert Held(q.(orderr := FirstError(q.orderr, err))) == Held(q);
  }

  lemma OpenStage(log: seq<Event>, ordseq: set<nat>, b: Request, held: set<Request>, orderr: int, mode: Mode, x: nat)
    requires ordseq != {} && Unfinished(log, ordseq, Some(b), held) && Current(log, ordseq, b, orderr, mode)
    requires IsStage(x) && x !in ordseq
    ensures StageOpen(log, b, x)
  {
    assert b in Begun(log) - Ends(log);
  }

  /** The log after a stage of the sequence in progress has been completed. */
  lemma StageLogged(log: seq<Event>, ordseq: set<nat>, b: Request, held: set<Request>, orderr: int, mode: Mode, x: nat,
                    err: int)
    requires OnceOnly(log) && ordseq != {} && Unfinished(log, ordseq, Some(b), held)
    requires Current(log, ordseq, b, orderr, mode) && IsStage(x) && x !in ordseq
    ensures OnceOnly(log + [RetireStage(b, x, err)])
    ensures Unfinished(log + [RetireStage(b, x, err)], ordseq, Some(b), held)
    ensures Current(log + [RetireStage(b, x, err)], ordseq + {x}, b, FirstError(orderr, err), mode)
    ensures Submits(log + [RetireStage(b, x, err)]) == Submits(log)
  {
    OpenStage(log, ordseq, b, held, orderr, mode, x);
    Extend(log, RetireStage(b, x, err));
    ExtendErr(log, RetireStage(b, x, err), b);
  }

  /** The sequence with the proxy of stage `x` gone is the sequence with that stage completed. */
  lemma ProxyGone(ordseq: set<nat>, seqs: set<nat>, b: Request, held: set<Request>, x: nat)
    requires ordseq != {} && Sequence(ordseq, Some(b), held)
    requires seqs == ordseq || seqs == ordseq + {DRAIN}
    requires IsStage(x) && x !in ordseq
    ensures Sequence(seqs + {x}, Some(b), held - {ProxyOf(x, b)})
  {
  }

  /** The queue between the two halves of a proxy's end_io callback. */
  function Retiring(q: Queue, rq: Request, err: int): Queue
    requires rq.kind.Proxy?
  {
    DrainCheck(Leave(q.(orderr := if rq.kind.stage == BAR then FirstError(q.orderr, err) else q.orderr), rq))
  }

  lemma ProxySplit(q: Queue, rq: Request, err: int)
    requires rq.kind.Proxy? && IsStage(rq.kind.stage) && rq.kind.stage !in q.ordseq
    requires STARTED in q.ordseq && q.orig.Some?
    ensures var r := Retiring(q, rq, err);
            && (r.ordseq == q.ordseq || (DRAIN !in q.ordseq && r.ordseq == q.ordseq + {DRAIN}))
            && r == q.(ordseq := r.ordseq, orderr := r.orderr, driver := q.driver - {rq},
                       started := q.started - {rq}, inFlight := r.inFlight)
            && r.inFlight == (if rq in q.started && rq.IsFs() then q.inFlight - 1 else q.inFlight)
            && FirstError(r.orderr, err) == FirstError(q.orderr, err)
            && Complete(q, rq, err)
               == CompleteSeq(Emit(r, RetireStage(q.orig.value, rq.kind.stage, err)), {rq.kind.stage}, err)
  {
  }

  lemma ProxyLogged(q: Queue, seqs: set<nat>, x: nat, err: int)
    requires Base(q) && Active(q) && IsStage(x) && x !in q.ordseq
    requires seqs == q.ordseq || seqs == q.ordseq + {DRAIN}
    ensures var b, held := q.orig.value, Held(q) - {ProxyOf(x, q.orig.value)};
            var log := q.log + [RetireStage(b, x, err)];
            && OnceOnly(log) && Unfinished(log, seqs, q.orig, held) && Submits(log) == Submits(q.log)
            && Current(log, seqs + {x}, b, FirstError(q.orderr, err), q.seqMode)
  {
    var b, held := q.orig.value, Held(q) - {ProxyOf(x, q.orig.value)};
    assert Current(q.log, seqs, b, q.orderr, q.seqMode);
    assert Unfinished(q.log, seqs, Some(b), held);
    StageLogged(q.log, seqs, b, held, q.orderr, q.seqMode, x, err);
  }

  /** Completing a proxy request. */
  lemma ProxyKeeps(q: Queue, rq: Request, err: int)
    requires Base(q) && rq in q.driver && rq.kind.Proxy?
    ensures Base(Complete(q, rq, err)) && Held(Complete(q, rq, err)) == Held(q) - {rq}
  {
    var x, b, held := rq.kind.stage, q.orig.value, Held(q) - {rq};
    assert rq in Held(q) && rq == ProxyOf(x, b) && IsStage(x) && x !in q.ordseq;
    var r := Retiring(q, rq, err);
    ProxySplit(q, rq, err);
    assert Places(r) && Held(r) == held by { FsOfLess(q.driver, rq); }
    ProxyGone(q.ordseq, r.ordseq, b, Held(q), x);
    ProxyLogged(q, r.ordseq, x, err);
    assert MayComplete(Emit(r, RetireStage(b, x, err)), {x}, err);
    CompleteSeqKeeps(Emit(r, RetireStage(b, x, err)), {x}, err);
  }

  /** The queue as a request that is no proxy reaches the drain check of elv_completed_request. */
  function Finishing(q: Queue, rq: Request): Queue {
    Leave(if rq.kind.Fs? then Emit(q, Retire(rq)) else q, rq)
  }

  lemma FinishingKeeps(q: Queue, rq: Request)
    requires Base(q) && rq in q.driver && !rq.kind.Proxy?
    ensures Base(Finishing(q, rq)) && Held(Finishing(q, rq)) == Held(q) - {rq}
  {
    if rq.kind.Fs? {
      NoteKeeps(q, Retire(rq));
      LeaveKeeps(Emit(q, Retire(rq)), rq);
    } else {
      LeaveKeeps(q, rq);
    }
  }

  lemma FinishKeeps(q: Queue, rq: Request, err: int)
    requires Base(q) && rq in q.driver
    ensures Base(Complete(q, rq, err)) && Held(Complete(q, rq, err)) == Held(q) - {rq}
  {
    if rq.kind.Proxy? {
      ProxyKeeps(q, rq, err);
    } else {
      FinishingKeeps(q, rq);
      DrainCheckKeeps(Finishing(q, rq));
    }
  }

  lemma DataFailedKeeps(q: Queue, err: int)
    requires Inv(q) && Enabled(q, DataFailed(err))
    ensures Inv(Next(q, DataFailed(err)))
  {
    var rq :| rq in q.driver && rq.kind == Proxy(BAR);
    assert rq in Held(q);
    DataErrorKeeps(q, err);
  }

  lemma RequeueKeeps(q: Queue, rq: Request)
    requires Base(q) && rq in q.driver
    ensures Base(Requeue(q, rq)) && Held(Requeue(q, rq)) == Held(q)
  {
    FsOfLess(q.driver, rq);
    var r := Requeue(q, rq);
    var q1 := Returned(q, rq);
    var pos := if q1.ordseq == {} then 0 else RequeuePos(q1, q1.list, ReqSeq(q1, rq));
    assert r.list == InsertAt(q.list, pos, rq);
    InsertAtElems(q.list, pos, rq);
    assert Held(r) == Held(q);
  }

  lemma ElvDispatchKeeps(q: Queue, rq: Request, pos: nat)
    requires Base(q) && rq in q.sorted && pos <= |q.list|
    ensures Base(q.(sorted := q.sorted - {rq}, list := InsertAt(q.list, pos, rq)))
  {
    InsertAtElems(q.list, pos, rq);
    assert Held(q.(sorted := q.sorted - {rq}, list := InsertAt(q.list, pos, rq))) == Held(q);
  }

  lemma DequeueBase(q: Queue)
    requires Base(q) && q.list != [] && !q.list[0].kind.Barrier?
    ensures var q1 := Dequeue(q).(log := q.log); Base(q1) && Held(q1) == Held(q)
  {
    TailElems(q.list);
    FsOfMore(q.driver, q.list[0]);
    assert Held(Dequeue(q).(log := q.log)) == Held(q);
  }

  lemma DequeueKeeps(q: Queue)
    requires Base(q) && q.list != [] && !q.list[0].kind.Barrier?
    ensures Base(Dequeue(q)) && Held(Dequeue(q)) == Held(q)
  {
    var rq, q1 := q.list[0], Dequeue(q).(log := q.log);
    DequeueBase(q);
    match rq.kind {
      case Fs => NoteKeeps(q1, Issue(rq));
      case Proxy(x) =>
        assert rq in Held(q);
        OpenStage(q.log, q.ordseq, q.orig.value, Held(q), q.orderr, q.seqMode, x);
        NoteKeeps(q1, IssueStage(q.orig.value, x));
      case Special => assert Dequeue(q).log == q.log;
    }
  }

  // ----- starting a sequence

  lemma StartLogged(log: seq<Event>, orig: Option<Request>, held: set<Request>, b: Request, m: Mode)
    requires OnceOnly(log) && b in held && b.kind.Barrier? && Unfinished(log, {}, orig, held)
    ensures var l := log + [Start(b, m)];
            OnceOnly(l) && Submits(l) == Submits(log) && Unfinished(l, {STARTED}, Some(b), held - {b})
    ensures b !in Reports(log) && b !in Begun(log)
  {
    Extend(log, Start(b, m));
  }

  /** Nothing has been reported for a barrier that has just started. */
  lemma StartCurrent(log: seq<Event>, b: Request, m: Mode, wait: bool)
    requires b !in Reports(log) && b !in Begun(log)
    ensures Current(log + [Start(b, m)], {STARTED} + Skipped(m, wait), b, 0, m)
  {
    NoErrorYet(log, b);
    ExtendErr(log, Start(b, m), b);
    NothingReported(log, b, m);
    SkipHas(m, wait);
  }

  lemma NothingReported(log: seq<Event>, b: Request, m: Mode)
    requires b !in Reports(log) && b !in Begun(log)
    ensures var l := log + [Start(b, m)];
            && (forall s :: s in Starts(l) && s.0 == b ==> s.1 == m)
            && (b, PREFLUSH) !in StageRetires(l) && (b, BAR) !in StageRetires(l) && (b, POSTFLUSH) !in StageRetires(l)
  {
    Extend(log, Start(b, m));
    assert forall s :: s in Starts(log) ==> s.0 in Begun(log);
    assert forall s :: s in StageRetires(log) ==> s.0 in Reports(log);
  }

  lemma SkipHas(m: Mode, wait: bool)
    ensures var full := {STARTED} + Skipped(m, wait);
            (PREFLUSH in full <==> !m.pre) && (BAR in full <==> !m.bar) && (POSTFLUSH in full <==> !m.post)
  {
  }

  lemma StagedPlaces(list: seq<Request>, driver: set<Request>, sorted: set<Request>, started: set<Request>,
                     inFlight: int, ps: seq<Request>)
    requires list != [] && PlacesIn(list, driver, sorted, started, inFlight) && Distinct(ps)
    requires (forall r :: r in ps ==> r.kind.Proxy?) && forall r :: r in HeldIn(list, driver, sorted) ==> !r.kind.Proxy?
    ensures HeldIn(ps + list[1..], driver, sorted) == HeldIn(list, driver, sorted) - {list[0]} + Elems(ps)
    ensures PlacesIn(ps + list[1..], driver, sorted, started - Elems(ps), inFlight)
  {
    TailPlaces(list, driver, sorted, started, inFlight);
    var rest, all := list[1..], ps + list[1..];
    assert Elems(all) == Elems(ps) + Elems(rest);
    assert forall r :: r in rest ==> r in HeldIn(list, driver, sorted);
    assert Distinct(all) by {
      forall i, j | 0 <= i < j < |all| ensures all[i] != all[j] {
        if i < |ps| <= j {
          assert all[i] in ps && all[j] in rest;
        }
      }
    }
  }

  lemma SkipFacts(m: Mode, wait: bool)
    ensures DRAIN in Skipped(m, wait) <==> !wait
    ensures CurSeq({STARTED} + Skipped(m, wait)) == DONE ==> !m.pre && !m.bar && !m.post
  {
  }

  lemma StagedSequence(b: Request, m: Mode, wait: bool, held: set<Request>, ps: seq<Request>)
    requires b.kind.Barrier? && b !in held && forall r :: r in held ==> !r.kind.Proxy?
    requires forall r :: r in ps <==> r.kind.Proxy? && m.Wants(r.kind.stage) && r == ProxyOf(r.kind.stage, b)
    ensures Sequence({STARTED} + Skipped(m, wait), Some(b), held + Elems(ps))
  {
    assert m.pre ==> ProxyOf(PREFLUSH, b) in ps;
    assert m.bar ==> ProxyOf(BAR, b) in ps;
    assert m.post ==> ProxyOf(POSTFLUSH, b) in ps;
  }

  lemma StartKeeps(q: Queue)
    requires Base(q) && !Active(q) && q.list != [] && q.list[0].kind.Barrier?
    ensures Base(StartOrdered(q).q)
  {
    var b := q.list[0];
    var m := SequenceMode(q.nextOrdered, b.kind.empty);
    StagedKeeps(q, b, m, m.drain && q.inFlight != 0, Proxies(m, b));
  }

  lemma StagedFresh(log: seq<Event>, log': seq<Event>, held: set<Request>, nextId: nat, b: Request, ps: seq<Request>)
    requires Fresh(held, log, nextId) && Submits(log') == Submits(log) && forall r :: r in ps ==> r.kind.Proxy?
    ensures Fresh(held - {b} + Elems(ps), log', nextId)
  {
  }

  lemma StagedMay(q: Queue, b: Request, m: Mode, wait: bool, ps: seq<Request>)
    requires Base(q) && !Active(q) && q.list != [] && q.list[0] == b && b.kind.Barrier?
    requires Distinct(ps)
    requires forall r :: r in ps <==> r.kind.Proxy? && m.Wants(r.kind.stage) && r == ProxyOf(r.kind.stage, b)
    ensures var q2 := Staged(q, m, ps); MayComplete(q2, Skipped(m, wait), 0)
  {
    var q2, held := Staged(q, m, ps), Held(q) - {b} + Elems(ps);
    assert q2.ordseq == {STARTED} && Skipped(m, wait) !! {STARTED} && FirstError(0, 0) == 0;
    assert b in Held(q);
    assert Places(q2) && Held(q2) == held by {
      StagedPlaces(q.list, q.driver, q.sorted, q.started, q.inFlight, ps);
    }
    StartLogged(q.log, q.orig, Held(q), b, m);
    assert Fresh(held, q2.log, q.nextId) by { StagedFresh(q.log, q2.log, Held(q), q.nextId, b, ps); }
    assert Current(q2.log, {STARTED} + Skipped(m, wait), b, 0, m) by { StartCurrent(q.log, b, m, wait); }
    assert Sequence({STARTED} + Skipped(m, wait), Some(b), held) by {
      StagedSequence(b, m, wait, Held(q) - {b}, ps);
    }
    assert Unfinished(q2.log, {STARTED}, Some(b), held) by { StagedUnfinished(q2.log, b, Held(q) - {b}, ps); }
  }

  lemma StagedKeeps(q: Queue, b: Request, m: Mode, wait: bool, ps: seq<Request>)
    requires Base(q) && !Active(q) && q.list != [] && q.list[0] == b && b.kind.Barrier?
    requires Distinct(ps)
    requires forall r :: r in ps <==> r.kind.Proxy? && m.Wants(r.kind.stage) && r == ProxyOf(r.kind.stage, b)
    ensures Base(CompleteSeq(Staged(q, m, ps), Skipped(m, wait), 0))
  {
    StagedMay(q, b, m, wait, ps);
    CompleteSeqKeeps(Staged(q, m, ps), Skipped(m, wait), 0);
  }

  lemma StagedUnfinished(log: seq<Event>, b: Request, held: set<Request>, ps: seq<Request>)
    requires Unfinished(log, {STARTED}, Some(b), held) && forall r :: r in ps ==> r.kind.Proxy?
    ensures Unfinished(log, {STARTED}, Some(b), held + Elems(ps))
  {
  }

  // ----- whose turn it is

  lemma CompleteSeqTurns(q: Queue, stages: set<nat>, err: int)
    requires Active(q) && Turned(q)
    ensures Turned(CompleteSeq(q, stages, err))
  {
  }

  lemma FinishTurns(q: Queue, rq: Request, err: int)
    requires Inv(q) && rq in q.driver
    ensures Turned(Complete(q, rq, err))
  {
    if rq.kind.Proxy? {
      assert rq in Held(q);
      ProxySplit(q, rq, err);
      var r := Emit(Retiring(q, rq, err), RetireStage(q.orig.value, rq.kind.stage, err));
      assert Turned(r);
      CompleteSeqTurns(r, {rq.kind.stage}, err);
    } else {
      DrainCheckTurns(Finishing(q, rq));
    }
  }

  lemma DrainCheckTurns(q: Queue)
    requires Turned(q)
    ensures Turned(DrainCheck(q))
  {
    if DrainCheck(q) != q {
      CompleteSeqTurns(q, {DRAIN}, 0);
    }
  }

  lemma RequeueTurns(q: Queue, rq: Request)
    requires Inv(q) && rq in q.driver
    ensures Turned(Requeue(q, rq))
  {
    var r := Requeue(q, rq);
    var q1 := Returned(q, rq);
    var pos := if q1.ordseq == {} then 0 else RequeuePos(q1, q1.list, ReqSeq(q1, rq));
    assert r.list == InsertAt(q.list, pos, rq);
    BarsInsertAt(q.list, pos, rq);
  }

  lemma StartTurns(q: Queue)
    requires Inv(q) && !Active(q) && q.list != [] && q.list[0].kind.Barrier?
    ensures Turned(StartOrdered(q).q)
  {
    var b := q.list[0];
    var m := SequenceMode(q.nextOrdered, b.kind.empty);
    var ps := Proxies(m, b);
    NoBars(ps);
    BarsConcat(ps, q.list[1..]);
    FirstTurn(b, Bars(q.list[1..]), q.ended, q.epoch);
    CompleteSeqTurns(Staged(q, m, ps), Skipped(m, m.drain && q.inFlight != 0), 0);
  }

  // ----- looking at the head of the list

  /** A barrier on a queue that cannot order is taken off and ended at once. */
  lemma RefuseKeeps(q: Queue)
    requires Base(q) && !Active(q) && q.list != [] && q.list[0].kind.Barrier?
    ensures Base(Emit(q.(list := q.list[1..], ended := q.ended + 1), End(q.list[0], EOPNOTSUPP)))
  {
    var b := q.list[0];
    assert b in Held(q);
    TailPlaces(q.list, q.driver, q.sorted, q.started, q.inFlight);
    RefuseLogged(q.log, b, q.orig, Held(q));
  }

  lemma TailPlaces(list: seq<Request>, driver: set<Request>, sorted: set<Request>, started: set<Request>, inFlight: int)
    requires list != [] && PlacesIn(list, driver, sorted, started, inFlight)
    ensures PlacesIn(list[1..], driver, sorted, started, inFlight)
    ensures HeldIn(list[1..], driver, sorted) == HeldIn(list, driver, sorted) - {list[0]}
  {
    TailElems(list);
    assert list[0] in list;
  }

  lemma RefuseLogged(log: seq<Event>, b: Request, orig: Option<Request>, held: set<Request>)
    requires OnceOnly(log) && Unfinished(log, {}, orig, held) && b in held && b.kind.Barrier?
    ensures OnceOnly(log + [End(b, EOPNOTSUPP)]) && Unfinished(log + [End(b, EOPNOTSUPP)], {}, orig, held - {b})
    ensures Submits(log + [End(b, EOPNOTSUPP)]) == Submits(log)
  {
    Extend(log, End(b, EOPNOTSUPP));
  }

  /** While a sequence is in progress the next barrier has the other colour, so it waits. */
  lemma BarrierBlocked(q: Queue)
    requires Inv(q) && Active(q) && q.list != [] && q.list[0].kind.Barrier?
    ensures ReqSeq(q, q.list[0]) == DONE && DoOrdered(q).rq == None
  {
    var b := q.list[0];
    assert b in Held(q) && Bars(q.list)[0] == b;
  }

  predicate HandsOutHead(p: Peeked) {
    p.rq.Some? ==> p.q.list != [] && p.rq.value == p.q.list[0] && !p.rq.value.kind.Barrier?
  }

  lemma StartHandsOut(q: Queue)
    requires q.list != [] && q.list[0].kind.Barrier?
    ensures HandsOutHead(StartOrdered(q))
  {
    var b := q.list[0];
    var ps := Proxies(SequenceMode(q.nextOrdered, b.kind.empty), b);
    assert StartOrdered(q).q.list == ps + q.list[1..];
    if ps != [] {
      assert ps[0] in ps && (ps + q.list[1..])[0] == ps[0];
    }
  }

  lemma HeadInactive(q: Queue)
    requires Inv(q) && !Active(q) && q.list != []
    ensures Inv(DoOrdered(q).q) && HandsOutHead(DoOrdered(q))
  {
    var rq := q.list[0];
    assert rq in Held(q);
    if rq.kind.Barrier? {
      if q.nextOrdered != NONE {
        StartKeeps(q);
        StartTurns(q);
        StartHandsOut(q);
        assert DoOrdered(q) == StartOrdered(q);
      } else {
        RefuseKeeps(q);
        FirstTurn(rq, Bars(q.list[1..]), q.ended, q.epoch);
      }
    } else {
      assert DoOrdered(q) == Peeked(q, Some(rq), true);
    }
  }

  lemma HeadActive(q: Queue)
    requires Inv(q) && Active(q) && q.list != []
    ensures Inv(DoOrdered(q).q) && HandsOutHead(DoOrdered(q))
  {
    if q.list[0].kind.Barrier? {
      BarrierBlocked(q);
    }
    var q1 := DoOrdered(q).q;
    assert q1 == q.(warned := q1.warned);
    assert Held(q1) == Held(q);
  }

  lemma HeadKeeps(q: Queue)
    requires Inv(q) && q.list != []
    ensures Inv(DoOrdered(q).q) && HandsOutHead(DoOrdered(q))
  {
    if Active(q) { HeadActive(q); } else { HeadInactive(q); }
  }

  lemma FetchKeeps(q: Queue)
    requires Inv(q) && q.list != []
    ensures Inv(Fetch(q))
  {
    HeadKeeps(q);
    var p := DoOrdered(q);
    if p.rq.Some? {
      DequeueKeeps(p.q);
      assert Turned(Dequeue(p.q));
    }
  }

  lemma PeekKeeps(q: Queue)
    requires Inv(q) && q.list != []
    ensures Inv(Peek(q))
  {
    HeadKeeps(q);
    MarkKeeps(DoOrdered(q).q, Peek(q).started);
  }

  lemma MarkKeeps(q: Queue, started: set<Request>)
    requires Inv(q) && q.started <= started
    ensures Inv(q.(started := started))
  {
    assert Held(q.(started := started)) == Held(q);
  }

  // ----- submitting

  lemma NewLogged(log: seq<Event>, ordseq: set<nat>, orig: Option<Request>, held: set<Request>, rq: Request)
    requires OnceOnly(log) && Unfinished(log, ordseq, orig, held) && rq !in Submits(log)
    ensures OnceOnly(log + [Submit(rq)]) && Unfinished(log + [Submit(rq)], ordseq, orig, held + {rq})
    ensures Submits(log + [Submit(rq)]) == Submits(log) + {rq}
  {
    Extend(log, Submit(rq));
  }

  lemma NewFresh(log: seq<Event>, held: set<Request>, rq: Request, nextId: nat)
    requires Fresh(held, log, nextId) && rq.id == nextId && Submits(log + [Submit(rq)]) == Submits(log) + {rq}
    ensures Fresh(held + {rq}, log + [Submit(rq)], nextId + 1)
  {
  }

  lemma NewCurrent(log: seq<Event>, ordseq: set<nat>, b: Request, orderr: int, mode: Mode, rq: Request)
    requires Current(log, ordseq, b, orderr, mode)
    ensures Current(log + [Submit(rq)], ordseq, b, orderr, mode)
  {
    Extend(log, Submit(rq));
    ExtendErr(log, Submit(rq), b);
  }

  /** A request that was not there before joins those held. */
  lemma NewHeld(log: seq<Event>, ordseq: set<nat>, orig: Option<Request>, held: set<Request>, rq: Request, nextId: nat)
    requires Fresh(held, log, nextId) && Sequence(ordseq, orig, held) && Unfinished(log, ordseq, orig, held)
    requires !rq.kind.Proxy? && rq.id == nextId
    ensures rq !in held && rq !in Submits(log) && Sequence(ordseq, orig, held + {rq})
    ensures rq.kind.Special? ==> Fresh(held + {rq}, log, nextId + 1) && Unfinished(log, ordseq, orig, held + {rq})
  {
    if ordseq != {} {
      assert orig.value in Begun(log) - Ends(log);
    }
  }

  lemma NewKeeps(q: Queue, rq: Request, q1: Queue)
    requires Inv(q) && !rq.kind.Proxy? && rq.id == q.nextId && rq.epoch == q.epoch && rq.color == q.color
    requires q1.log == if rq.kind.Special? then q.log else q.log + [Submit(rq)]
    requires q1 == q.(list := q1.list, sorted := q1.sorted, soft := q1.soft, nextId := q.nextId + 1, log := q1.log,
                      color := q1.color, epoch := q1.epoch)
    requires Places(q1) && Held(q1) == Held(q) + {rq}
    requires Turned(q1)
    ensures Inv(q1)
  {
    NewHeld(q.log, q.ordseq, q.orig, Held(q), rq, q.nextId);
    if !rq.kind.Special? {
      NewLogged(q.log, q.ordseq, q.orig, Held(q), rq);
      NewFresh(q.log, Held(q), rq, q.nextId);
      if Active(q) {
        NewCurrent(q.log, q.ordseq, q.orig.value, q.orderr, q.seqMode, rq);
      }
    }
  }

  lemma NewInSorted(q: Queue)
    requires Inv(q)
    ensures Inv(Next(q, SubmitFs(true)))
  {
    var rq, q1 := NewRequest(q, Fs), Next(q, SubmitFs(true));
    assert rq !in Held(q) && Held(q1) == Held(q) + {rq};
    NewKeeps(q, rq, q1);
  }

  /** A new request enters the list at `pos`. */
  lemma NewInList(q: Queue, rq: Request, pos: nat, q1: Queue)
    requires Inv(q) && rq == NewRequest(q, rq.kind) && !rq.kind.Proxy? && pos <= |q.list|
    requires q1 == q.(list := InsertAt(q.list, pos, rq), soft := q.soft + {rq}, nextId := q.nextId + 1,
                      log := q1.log, color := q1.color, epoch := q1.epoch)
    requires q1.log == if rq.kind.Special? then q.log else q.log + [Submit(rq)]
    requires Turned(q1)
    ensures Inv(q1)
  {
    assert rq !in Held(q);
    InsertAtElems(q.list, pos, rq);
    assert Held(q1) == Held(q) + {rq};
    NewKeeps(q, rq, q1);
  }

  lemma InsertAtEnds(s: seq<Request>, rq: Request)
    ensures InsertAt(s, 0, rq) == [rq] + s && InsertAt(s, |s|, rq) == s + [rq]
  {
  }

  lemma NextTurn(bars: seq<Request>, b: Request, base: nat, epoch: nat)
    requires Waiting(bars, base, epoch) && b.epoch == epoch && Colored(b)
    ensures Waiting(bars + [b], base, epoch + 1)
  {
  }

  lemma SubmitBarrierTurns(q: Queue, empty: bool)
    requires Turned(q) && q.sorted == {}
    ensures Turned(Next(q, SubmitBarrier(empty)))
  {
    var rq := NewRequest(q, Barrier(empty));
    var q1 := Next(q, SubmitBarrier(empty));
    BarsConcat(q.list, [rq]);
    assert Bars([rq]) == [rq];
    assert Bars(q1.list) == Bars(q.list) + [rq];
    NextTurn(Bars(q.list), rq, if Active(q) then q.ended + 1 else q.ended, q.epoch);
  }

  lemma SubmitBarrierKeeps(q: Queue, empty: bool)
    requires Inv(q) && q.sorted == {}
    ensures Inv(Next(q, SubmitBarrier(empty)))
  {
    var rq := NewRequest(q, Barrier(empty));
    InsertAtEnds(q.list, rq);
    SubmitBarrierTurns(q, empty);
    NewInList(q, rq, |q.list|, Next(q, SubmitBarrier(empty)));
  }

  lemma SubmitBackKeeps(q: Queue, rq: Request, q1: Queue)
    requires Inv(q) && (rq.kind.Fs? || rq.kind.Special?) && rq == NewRequest(q, rq.kind)
    requires q1 == AddTail(q, rq).(log := if rq.kind.Special? then q.log else q.log + [Submit(rq)])
    ensures Inv(q1)
  {
    InsertAtEnds(q.list, rq);
    BarsInsertAt(q.list, |q.list|, rq);
    NewInList(q, rq, |q.list|, q1);
  }

  lemma SubmitFrontKeeps(q: Queue, rq: Request)
    requires Inv(q) && rq == NewRequest(q, Special)
    ensures Inv(InsertFront(q, rq).(nextId := q.nextId + 1))
  {
    InsertAtEnds(q.list, rq);
    BarsInsertAt(q.list, 0, rq);
    NewInList(q, rq, 0, InsertFront(q, rq).(nextId := q.nextId + 1));
  }

  // ----- every run

  lemma SubmitFsKeeps(q: Queue, sort: bool)
    requires Inv(q) && (sort || q.sorted == {})
    ensures Inv(Next(q, SubmitFs(sort)))
  {
    if sort { NewInSorted(q); } else { SubmitBackKeeps(q, NewRequest(q, Fs), Next(q, SubmitFs(sort))); }
  }

  lemma SubmitSpecialKeeps(q: Queue, front: bool)
    requires Inv(q) && (front || q.sorted == {})
    ensures Inv(Next(q, SubmitSpecial(front)))
  {
    var rq := NewRequest(q, Special);
    if front { SubmitFrontKeeps(q, rq); } else { SubmitBackKeeps(q, rq, Next(q, SubmitSpecial(front))); }
  }

  lemma SetModeKeeps(q: Queue, m: Mode)
    requires Inv(q) && Accepted(m)
    ensures Inv(Next(q, SetMode(m)))
  {
    var q1 := q.(ordered := m, nextOrdered := m);
    assert Held(q1) == Held(q) && Base(q1);
    NoteKeeps(q1, Configure(m));
  }

  lemma StepKeeps(q: Queue, l: Label)
    requires Inv(q) && Enabled(q, l)
    ensures Inv(Next(q, l))
  {
    match l {
      case SubmitFs(sort) => SubmitFsKeeps(q, sort);
      case SubmitBarrier(empty) => SubmitBarrierKeeps(q, empty);
      case SubmitSpecial(front) => SubmitSpecialKeeps(q, front);
      case ElvDispatch(rq, pos) => ElvDispatchKeeps(q, rq, pos); BarsInsertAt(q.list, pos, rq);
      case FetchHead => FetchKeeps(q);
      case PeekHead => PeekKeeps(q);
      case Finish(rq, err) => FinishKeeps(q, rq, err); FinishTurns(q, rq, err);
      case DataFailed(err) => DataFailedKeeps(q, err);
      case RequeueOne(rq) => RequeueKeeps(q, rq); RequeueTurns(q, rq);
      case MergedAway => DrainCheckKeeps(q); DrainCheckTurns(q);
      case SetMode(m) => SetModeKeeps(q, m);
    }
  }

  lemma {:induction false} RunKeeps(q: Queue, labels: seq<Label>)
    requires Inv(q) && IsRun(q, labels)
    ensures Inv(After(q, labels))
    decreases |labels|
  {
    if labels == [] {
    } else {
      StepKeeps(q, labels[0]);
      RunKeeps(Next(q, labels[0]), labels[1..]);
    }
  }

  lemma InitInv(m: Mode)
    ensures Inv(Init(m))
  {
    assert FsOf({}) == {} && Held(Init(m)) == {};
    Extend([], Configure(m));
  }

  /** Every run, in every mode: the log obeys OnceOnly, no BUG_ON fires, and a submitted barrier that has not
      been ended is still on the list or is the one whose sequence is in progress. */
  lemma BarriersEndOnce(m: Mode, labels: seq<Label>)
    requires Accepted(m) && IsRun(Init(m), labels)
    ensures var q := After(Init(m), labels);
            && OnceOnly(q.log) && !q.bug
            && (forall b :: b in Submits(q.log) && b.kind.Barrier? && b !in Ends(q.log) ==>
                  b in q.list || (Active(q) && q.orig == Some(b)))
  {
    InitInv(m);
    RunKeeps(Init(m), labels);
  }
}
