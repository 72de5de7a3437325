/** Which stages the sequence of a barrier has, over every run and whatever modes are set: what the log says of the mode
    in force decides, and not the mode that start_ordered writes down for itself. */
module OrderedStages {
  import opened Basics
  import opened OrderedQueue
  import opened OrderedOnce

  // ----- the property, read off the event log alone

  /** The mode last set. */
  function ModeOf(log: seq<Event>): Mode {
    if log == [] then NONE
    else if log[|log| - 1].Configure? then log[|log| - 1].mode
    else ModeOf(log[..|log| - 1])
  }

  /** Does a barrier started while mode `m` is set need stage x? A barrier without data needs its cache flushed and no
      more. */
  predicate Needs(m: Mode, b: Request, x: nat) {
    || (x == PREFLUSH && m.pre)
    || (b.kind == Barrier(false) && (x == BAR || (x == POSTFLUSH && m.post)))
  }

  /** Sequences are started in any mode but NONE and barriers are refused in NONE; of the barriers started, exactly the
      stages needed are issued, and all of them have been completed when the barrier is ended. */
  ghost predicate StageRule(log: seq<Event>, k: nat, i: nat)
    requires k < i < |log|
  {
    log[k].Start? ==>
      && ModeOf(log[..k]) != NONE
      && (log[i].End? && log[i].rq == log[k].rq ==>
            forall x: nat :: Needs(ModeOf(log[..k]), log[k].rq, x) ==> (log[k].rq, x) in StageRetires(log[..i]))
      && (log[i].IssueStage? && log[i].rq == log[k].rq ==> Needs(ModeOf(log[..k]), log[k].rq, log[i].stage))
  }

  predicate RefusalRule(log: seq<Event>, i: nat)
    requires i < |log|
  {
    log[i].End? && log[i].rq !in Begun(log[..i]) ==> log[i].err == EOPNOTSUPP && ModeOf(log[..i]) == NONE
  }

  /** e is the first error reported for b, or 0 if none was. */
  ghost predicate FirstReported(log: seq<Event>, b: Request, e: int) {
    if e == 0 then forall i :: 0 <= i < |log| ==> ErrorIn(log[i], b) == 0
    else exists i :: 0 <= i < |log| && ErrorIn(log[i], b) == e && forall k :: 0 <= k < i ==> ErrorIn(log[k], b) == 0
  }

  ghost predicate ErrorRule(log: seq<Event>, i: nat)
    requires i < |log|
  {
    log[i].End? && log[i].rq in Begun(log[..i]) ==> FirstReported(log[..i], log[i].rq, log[i].err)
  }

  ghost predicate StagesRight(log: seq<Event>) {
    && (forall i: nat {:trigger ErrorRule(log, i)} :: i < |log| ==> ErrorRule(log, i))
    && (forall k: nat, i: nat {:trigger StageRule(log, k, i)} :: k < i < |log| ==> StageRule(log, k, i))
    && (forall i: nat {:trigger RefusalRule(log, i)} :: i < |log| ==> RefusalRule(log, i))
  }

  // ----- what every step adds to the log

  /** The mode a sequence starts in is the one set, made to fit the barrier. */
  ghost predicate Fits(m: Mode, b: Request, s: Mode) {
    && m != NONE && b.kind.Barrier? && (forall x {:trigger s.Wants(x)} :: s.Wants(x) <==> Needs(m, b, x))
    && (s.drain <==> m.drain || (b.kind.empty && !m.pre))
  }

  ghost predicate AddOk(log: seq<Event>, ev: Event) {
    match ev
    case Start(b, s) => Fits(ModeOf(log), b, s)
    case End(b, _) => b in Begun(log) || ModeOf(log) == NONE
    case Configure(m) => Accepted(m)
    case _ => true
  }

  ghost predicate AllOk(log: seq<Event>) {
    forall i {:trigger AddOk(log[..i], log[i])} :: 0 <= i < |log| ==> AddOk(log[..i], log[i])
  }

  lemma ExtendOk(log: seq<Event>, ev: Event)
    requires AllOk(log) && AddOk(log, ev)
    ensures AllOk(log + [ev]) && ModeOf(log + [ev]) == if ev.Configure? then ev.mode else ModeOf(log)
  {
    var l := log + [ev];
    assert l[..|log|] == log;
    forall i | 0 <= i < |l| ensures AddOk(l[..i], l[i]) {
      if i < |log| { assert l[..i] == log[..i] && AddOk(log[..i], log[i]); }
    }
  }

  /** What the log says about the modes is so. */
  ghost predicate Modes(q: Queue) { AllOk(q.log) && q.nextOrdered == ModeOf(q.log) && Accepted(q.nextOrdered) }

  /** A step that adds one event and sets no mode. */
  lemma EmitModes(q: Queue, ev: Event, q1: Queue)
    requires Modes(q) && AddOk(q.log, ev) && !ev.Configure?
    requires q1.log == q.log + [ev] && q1.nextOrdered == q.nextOrdered
    ensures Modes(q1)
  {
    ExtendOk(q.log, ev);
  }

  lemma SameModes(q: Queue, q1: Queue)
    requires Modes(q) && q1.log == q.log && q1.nextOrdered == q.nextOrdered
    ensures Modes(q1)
  {
  }

  lemma CompleteModes(q: Queue, stages: set<nat>, err: int)
    requires Modes(q) && (q.orig.Some? ==> q.orig.value in Begun(q.log))
    ensures Modes(CompleteSeq(q, stages, err))
    ensures CompleteSeq(q, stages, err).orig == q.orig && Begun(q.log) <= Begun(CompleteSeq(q, stages, err).log)
  {
    var r := CompleteSeq(q, stages, err);
    if r.log == q.log {
      SameModes(q, r);
    } else {
      EmitModes(q, End(q.orig.value, r.orderr), r);
      Extend(q.log, End(q.orig.value, r.orderr));
    }
  }

  /** Whoever has begun stays so, and the barrier stashed away has. */
  predicate Stashed(q: Queue) { q.orig.Some? ==> q.orig.value in Begun(q.log) }

  lemma {:induction false} ModeIsAccepted(log: seq<Event>)
    requires AllOk(log)
    ensures Accepted(ModeOf(log))
  {
    if log == [] {
    } else {
      var front := log[..|log| - 1];
      forall i | 0 <= i < |front| ensures AddOk(front[..i], front[i]) {
        assert front[..i] == log[..i] && AddOk(log[..i], log[i]);
      }
      ModeIsAccepted(front);
      assert AddOk(log[..|log| - 1], log[|log| - 1]);
    }
  }

  /** start_ordered keeps the mode set, for a barrier with data, and otherwise what flushes the cache. */
  lemma SequenceFits(m: Mode, b: Request)
    requires Accepted(m) && m != NONE && b.kind.Barrier?
    ensures Fits(m, b, SequenceMode(m, b.kind.empty))
  {
  }

  lemma StartModes(q: Queue)
    requires Modes(q) && q.list != [] && q.list[0].kind.Barrier? && q.nextOrdered != NONE
    ensures var r := StartOrdered(q).q; Modes(r) && Stashed(r)
  {
    var b := q.list[0];
    var m := SequenceMode(q.nextOrdered, b.kind.empty);
    var q1 := Staged(q, m, Proxies(m, b));
    SequenceFits(q.nextOrdered, b);
    EmitModes(q, Start(b, m), q1);
    Extend(q.log, Start(b, m));
    CompleteModes(q1, Skipped(m, m.drain && q.inFlight != 0), 0);
  }

  lemma HeadModes(q: Queue)
    requires Inv(q) && Modes(q) && Stashed(q) && q.list != []
    ensures Modes(DoOrdered(q).q) && Stashed(DoOrdered(q).q)
  {
    var r, rq := DoOrdered(q).q, q.list[0];
    if q.ordseq == {} && rq.kind.Barrier? {
      if q.nextOrdered != NONE {
        StartModes(q);
      } else {
        EmitModes(q, End(rq, EOPNOTSUPP), r);
        Extend(q.log, End(rq, EOPNOTSUPP));
      }
    } else {
      SameModes(q, r);
    }
  }

  lemma FetchModes(q: Queue)
    requires Inv(q) && Modes(q) && Stashed(q) && q.list != []
    ensures Modes(Fetch(q)) && Stashed(Fetch(q))
  {
    HeadModes(q);
    var p := DoOrdered(q);
    if p.rq.Some? && p.q.list != [] {
      var rq := p.q.list[0];
      var evs := IssueEvent(p.q, rq);
      if evs == [] {
        assert Dequeue(p.q).log == p.q.log;
        SameModes(p.q, Dequeue(p.q));
      } else {
        EmitModes(p.q, evs[0], Dequeue(p.q));
        Extend(p.q.log, evs[0]);
      }
    }
  }

  lemma DrainModes(q: Queue)
    requires Modes(q) && Stashed(q)
    ensures Modes(DrainCheck(q)) && Stashed(DrainCheck(q))
  {
    CompleteModes(q, {DRAIN}, 0);
  }

  lemma FinishModes(q: Queue, rq: Request, err: int)
    requires Modes(q) && Stashed(q)
    ensures Modes(Complete(q, rq, err)) && Stashed(Complete(q, rq, err))
  {
    match rq.kind
    case Proxy(x) =>
      var q1 := if x == BAR then q.(orderr := FirstError(q.orderr, err)) else q;
      SameModes(q, Leave(q1, rq));
      DrainModes(Leave(q1, rq));
      var q2 := CompletedRequest(q1, rq);
      if q2.orig.Some? {
        var ev := RetireStage(q2.orig.value, x, err);
        EmitModes(q2, ev, Emit(q2, ev));
        Extend(q2.log, ev);
        CompleteModes(Emit(q2, ev), {x}, err);
      } else {
        CompleteModes(q2, {x}, err);
      }
    case Fs =>
      EmitModes(q, Retire(rq), Leave(Emit(q, Retire(rq)), rq));
      Extend(q.log, Retire(rq));
      DrainModes(Leave(Emit(q, Retire(rq)), rq));
    case _ =>
      SameModes(q, Leave(q, rq));
      DrainModes(Leave(q, rq));
  }

  lemma SubmitModes(q: Queue, l: Label)
    requires Modes(q) && Stashed(q) && Enabled(q, l) && (l.SubmitFs? || l.SubmitBarrier? || l.SubmitSpecial?)
    ensures Modes(Next(q, l)) && Stashed(Next(q, l))
  {
    if l.SubmitSpecial? {
      SameModes(q, Next(q, l));
    } else {
      var rq := NewRequest(q, if l.SubmitFs? then Fs else Barrier(l.empty));
      EmitModes(q, Submit(rq), Next(q, l));
      Extend(q.log, Submit(rq));
    }
  }

  lemma StepModes(q: Queue, l: Label)
    requires Inv(q) && Modes(q) && Stashed(q) && Enabled(q, l)
    ensures Modes(Next(q, l)) && Stashed(Next(q, l))
  {
    match l {
      case ElvDispatch(rq, pos) => SameModes(q, Next(q, l));
      case FetchHead => FetchModes(q);
      case PeekHead =>
        HeadModes(q);
        SameModes(DoOrdered(q).q, Peek(q));
      case Finish(rq, err) => FinishModes(q, rq, err);
      case DataFailed(err) =>
        if q.orig.Some? {
          EmitModes(q, DataError(q.orig.value, err), Next(q, l));
          Extend(q.log, DataError(q.orig.value, err));
        }
      case RequeueOne(rq) => SameModes(q, Next(q, l));
      case MergedAway => DrainModes(q);
      case SetMode(m) =>
        ExtendOk(q.log, Configure(m));
        Extend(q.log, Configure(m));
      case _ => SubmitModes(q, l);
    }
  }

  lemma {:induction false} RunModes(q: Queue, labels: seq<Label>)
    requires Inv(q) && Modes(q) && Stashed(q) && IsRun(q, labels)
    ensures Inv(After(q, labels)) && Modes(After(q, labels)) && Stashed(After(q, labels))
    decreases |labels|
  {
    if labels == [] {
    } else {
      StepKeeps(q, labels[0]);
      StepModes(q, labels[0]);
      RunModes(Next(q, labels[0]), labels[1..]);
    }
  }

  lemma InitModes(m: Mode)
    requires Accepted(m)
    ensures Modes(Init(m)) && Stashed(Init(m))
  {
    ExtendOk([], Configure(m));
    assert [] + [Configure(m)] == [Configure(m)];
  }

  // ----- the main result

  lemma RuleHolds(log: seq<Event>, k: nat, i: nat)
    requires AllOk(log) && OnceOnly(log) && k < i < |log|
    ensures StageRule(log, k, i)
  {
    if log[k].Start? {
      assert AddOk(log[..k], log[k]) && EventOk(log[..i], log[i]);
      var b, s := log[k].rq, log[k].mode;
      assert log[..i][k] == log[k] && (b, s) in Starts(log[..i]) && b in Begun(log[..i]);
      assert s.Wants(PREFLUSH) <==> Needs(ModeOf(log[..k]), b, PREFLUSH);
      assert s.Wants(BAR) <==> Needs(ModeOf(log[..k]), b, BAR);
      assert s.Wants(POSTFLUSH) <==> Needs(ModeOf(log[..k]), b, POSTFLUSH);
      if log[i].IssueStage? && log[i].rq == b { assert s.Wants(log[i].stage); }
    }
  }

  /** Every run, whatever modes are set when: a barrier with data that is ended and was not refused has been written,
      one started while the mode set flushes before or after has had these flushes completed, a barrier without data
      only the first; no other stage is ever issued, and only in mode NONE is a barrier refused. */
  lemma StagesComplete(m: Mode, labels: seq<Label>)
    requires Accepted(m) && IsRun(Init(m), labels)
    ensures StagesRight(After(Init(m), labels).log)
  {
    InitInv(m);
    InitModes(m);
    RunModes(Init(m), labels);
    LogRight(After(Init(m), labels).log);
  }

  lemma {:induction false} FirstIsFirst(log: seq<Event>, b: Request)
    ensures FirstReported(log, b, FirstErr(log, b))
  {
    if log == [] {
    } else {
      var front, n := log[..|log| - 1], |log| - 1;
      FirstIsFirst(front, b);
      assert forall i :: 0 <= i < n ==> front[i] == log[i];
      var e := FirstErr(front, b);
      if e != 0 {
        var i :| 0 <= i < n && ErrorIn(front[i], b) == e && forall k :: 0 <= k < i ==> ErrorIn(front[k], b) == 0;
        assert ErrorIn(log[i], b) == e && forall k :: 0 <= k < i ==> ErrorIn(log[k], b) == 0;
      } else {
        assert forall k :: 0 <= k < n ==> ErrorIn(log[k], b) == 0;
      }
    }
  }

  lemma LogRight(log: seq<Event>)
    requires AllOk(log) && OnceOnly(log)
    ensures StagesRight(log)
  {
    forall k: nat, i: nat {:trigger StageRule(log, k, i)} | k < i < |log| ensures StageRule(log, k, i) {
      RuleHolds(log, k, i);
    }
    forall i: nat {:trigger ErrorRule(log, i)} | i < |log| ensures ErrorRule(log, i) {
      assert EventOk(log[..i], log[i]);
      if log[i].End? { FirstIsFirst(log[..i], log[i].rq); }
    }
    forall i: nat {:trigger RefusalRule(log, i)} | i < |log| ensures RefusalRule(log, i) {
      assert AddOk(log[..i], log[i]) && EventOk(log[..i], log[i]);
    }
  }

  // ----- a barrier for which nothing is to be issued

  /** A barrier without data, started in a mode that does not flush: there is no command to order by. */
  ghost predicate Commandless(log: seq<Event>, b: Request) {
    b.kind == Barrier(true)
    && exists k {:trigger log[k]} :: 0 <= k < |log| && log[k].Start? && log[k].rq == b && !ModeOf(log[..k]).pre
  }

  ghost predicate EndsNow(log: seq<Event>, log': seq<Event>, b: Request) {
    exists i {:trigger log'[i]} :: |log| <= i < |log'| && log'[i].End? && log'[i].rq == b
  }

  lemma CommandlessMode(log: seq<Event>, b: Request, s: Mode)
    requires AllOk(log) && Commandless(log, b) && forall p :: p in Starts(log) && p.0 == b ==> p.1 == s
    ensures !s.pre && !s.bar && !s.post && s.drain
  {
    var k :| 0 <= k < |log| && log[k].Start? && log[k].rq == b && !ModeOf(log[..k]).pre;
    assert AddOk(log[..k], log[k]) && (b, log[k].mode) in Starts(log);
    assert !s.Wants(PREFLUSH) && !s.Wants(BAR) && !s.Wants(POSTFLUSH);
  }

  /** No proxy of such a barrier exists. */
  lemma NoProxy(q: Queue, rq: Request)
    requires Inv(q) && Modes(q) && Active(q) && Commandless(q.log, q.orig.value) && rq in q.driver
    ensures !rq.kind.Proxy?
  {
    CommandlessMode(q.log, q.orig.value, q.seqMode);
    assert rq in Held(q);
  }

  lemma DrainedAtCheck(q: Queue, b: Request)
    requires EndsNow(q.log, DrainCheck(q).log, b)
    ensures DrainCheck(q).inFlight == 0
  {
    var r := DrainCheck(q);
    var i :| |q.log| <= i < |r.log| && r.log[i].End? && r.log[i].rq == b;
  }

  lemma DrainedAtFinish(q: Queue, rq: Request, err: int, b: Request)
    requires !rq.kind.Proxy? && EndsNow(q.log, Complete(q, rq, err).log, b)
    ensures Complete(q, rq, err).inFlight == 0
  {
    var q1 := if rq.kind.Fs? then Emit(q, Retire(rq)) else q;
    var r := Complete(q, rq, err);
    assert r == DrainCheck(Leave(q1, rq)) && Leave(q1, rq).log == q1.log;
    var i :| |q.log| <= i < |r.log| && r.log[i].End? && r.log[i].rq == b;
    assert |q.log| <= |q1.log| <= |q.log| + 1 && (|q1.log| > |q.log| ==> r.log[|q.log|] == Retire(rq));
    DrainedAtCheck(Leave(q1, rq), b);
  }

  /** What a barrier at the head adds to the log. */
  lemma StartLog(q: Queue)
    requires q.list != [] && q.list[0].kind.Barrier?
    ensures var b := q.list[0]; var m, r := SequenceMode(q.nextOrdered, b.kind.empty), StartOrdered(q).q;
            && r.log[..|q.log| + 1] == q.log + [Start(b, m)] && r.inFlight == q.inFlight && r.driver == q.driver
            && (r.log == q.log + [Start(b, m)] || (r.orig == Some(b)
                                                   && r.log == q.log + [Start(b, m), End(b, r.orderr)]))
  {
    var b := q.list[0];
    var m := SequenceMode(q.nextOrdered, b.kind.empty);
    var r := StartOrdered(q).q;
    if r.log != q.log + [Start(b, m)] {
      assert r.log == (q.log + [Start(b, m)]) + [End(b, r.orderr)];
      assert (q.log + [Start(b, m)]) + [End(b, r.orderr)] == q.log + [Start(b, m), End(b, r.orderr)];
    }
  }

  lemma EndedAtStart(q: Queue, b: Request)
    requires q.list != [] && q.list[0].kind.Barrier? && EndsNow(q.log, StartOrdered(q).q.log, b)
    ensures var m, r := SequenceMode(q.nextOrdered, q.list[0].kind.empty), StartOrdered(q).q;
            b == q.list[0] && r.log == q.log + [Start(b, m), End(b, r.orderr)]
  {
    var h, r := q.list[0], StartOrdered(q).q;
    StartLog(q);
    var i :| |q.log| <= i < |r.log| && r.log[i].End? && r.log[i].rq == b;
    assert r.log[|q.log|] == Start(h, SequenceMode(q.nextOrdered, h.kind.empty));
  }

  lemma DrainedAtStart(q: Queue, b: Request)
    requires Inv(q) && Modes(q) && q.list != [] && q.list[0].kind.Barrier? && !Active(q) && q.nextOrdered != NONE
    requires var r := StartOrdered(q); EndsNow(q.log, r.q.log, b) && Commandless(r.q.log, b)
    ensures StartOrdered(q).rq == None && q.inFlight == 0
  {
    var r, m := StartOrdered(q).q, SequenceMode(q.nextOrdered, q.list[0].kind.empty);
    EndedAtStart(q, b);
    StartModes(q);
    StartedIn(q, b, m, r.orderr, r.log);
    CommandlessMode(r.log, b, m);
    if q.inFlight != 0 { NotDoneYet(q); }
  }

  lemma StartedIn(q: Queue, b: Request, m: Mode, err: int, log: seq<Event>)
    requires Inv(q) && q.list != [] && b == q.list[0] && b.kind.Barrier? && log == q.log + [Start(b, m), End(b, err)]
    ensures forall p :: p in Starts(log) && p.0 == b ==> p.1 == m
  {
    HeadNotBegun(q, b);
    StartsAdded(q.log, b, m, err);
  }

  lemma StartsAdded(log: seq<Event>, b: Request, m: Mode, err: int)
    ensures Starts(log + [Start(b, m), End(b, err)]) == Starts(log) + {(b, m)}
  {
    Extend(log, Start(b, m));
    Extend(log + [Start(b, m)], End(b, err));
    assert log + [Start(b, m), End(b, err)] == (log + [Start(b, m)]) + [End(b, err)];
  }

  lemma HeadNotBegun(q: Queue, b: Request)
    requires Inv(q) && q.list != [] && b == q.list[0] && b.kind.Barrier?
    ensures forall p :: p in Starts(q.log) ==> p.0 != b
  {
    assert b in Held(q);
    forall p | p in Starts(q.log) ensures p.0 != b {
      var ev :| ev in q.log && ev.Start? && (ev.rq, ev.mode) == p;
      assert ev.rq in Begun(q.log);
    }
  }

  /** A sequence that drains and starts while requests are out is not over at once. */
  lemma NotDoneYet(q: Queue)
    requires q.list != [] && q.list[0].kind.Barrier? && !Active(q) && !q.bug
    requires SequenceMode(q.nextOrdered, q.list[0].kind.empty).drain && q.inFlight != 0
    ensures StartOrdered(q).q.log == q.log + [Start(q.list[0], SequenceMode(q.nextOrdered, q.list[0].kind.empty))]
  {
    var m := SequenceMode(q.nextOrdered, q.list[0].kind.empty);
    assert DRAIN !in Skipped(m, true) && DRAIN !in {STARTED} + Skipped(m, true);
  }

  lemma NeverStarted(log: seq<Event>, b: Request, err: int)
    requires forall p :: p in Starts(log) ==> p.0 != b
    ensures !Commandless(log + [End(b, err)], b)
  {
    var l := log + [End(b, err)];
    forall k | 0 <= k < |l| && l[k].Start? ensures l[k].rq != b {
      assert l[k] == log[k] && (log[k].rq, log[k].mode) in Starts(log);
    }
  }

  lemma DrainedAtHead(q: Queue, b: Request)
    requires Inv(q) && Modes(q) && q.list != []
    requires var r := DoOrdered(q); EndsNow(q.log, r.q.log, b) && Commandless(r.q.log, b)
    ensures DoOrdered(q).rq == None && DoOrdered(q).q.inFlight == 0
  {
    var h, r := q.list[0], DoOrdered(q).q;
    var i :| |q.log| <= i < |r.log| && r.log[i].End? && r.log[i].rq == b;
    if h.kind.Barrier? && !Active(q) && q.nextOrdered != NONE {
      DrainedAtStart(q, b);
      StartLog(q);
    } else {
      assert r.log == q.log + [End(h, EOPNOTSUPP)] && b == h;
      HeadNotBegun(q, h);
      NeverStarted(q.log, h, EOPNOTSUPP);
    }
  }

  /** No sequence starts in what has been added. */
  ghost predicate NoStarts(log: seq<Event>, log': seq<Event>) {
    |log| <= |log'| && log'[..|log|] == log && forall i :: |log| <= i < |log'| ==> !log'[i].Start?
  }

  lemma StillCommandless(log: seq<Event>, log': seq<Event>, b: Request)
    requires NoStarts(log, log') && Commandless(log', b)
    ensures Commandless(log, b)
  {
    var k :| 0 <= k < |log'| && log'[k].Start? && log'[k].rq == b && !ModeOf(log'[..k]).pre;
    assert log'[..|log|][k] == log[k] && log'[..k] == log[..k];
  }

  /** What completing a request adds to the log: no start, and no end but that of the sequence in progress. */
  ghost predicate Grows(q: Queue, r: Queue) {
    && NoStarts(q.log, r.log) && r.orig == q.orig
    && forall i :: |q.log| <= i < |r.log| && r.log[i].End? ==> q.orig == Some(r.log[i].rq)
  }

  lemma EmitGrows(q: Queue, p: Queue, ev: Event, r: Queue)
    requires Grows(q, p) && r.log == p.log + [ev] && r.orig == p.orig
    requires !ev.Start? && (ev.End? ==> q.orig == Some(ev.rq))
    ensures Grows(q, r)
  {
    assert r.log[..|q.log|] == p.log[..|q.log|];
  }

  lemma CompleteGrows(q: Queue, p: Queue, stages: set<nat>, err: int)
    requires Grows(q, p)
    ensures Grows(q, CompleteSeq(p, stages, err))
  {
    var r := CompleteSeq(p, stages, err);
    if r.log != p.log { EmitGrows(q, p, End(p.orig.value, r.orderr), r); }
  }

  lemma DrainGrows(q: Queue, p: Queue)
    requires Grows(q, p)
    ensures Grows(q, DrainCheck(p))
  {
    CompleteGrows(q, p, {DRAIN}, 0);
  }

  lemma FinishGrows(q: Queue, rq: Request, err: int)
    ensures Grows(q, Complete(q, rq, err))
  {
    match rq.kind
    case Proxy(x) =>
      var q1 := if x == BAR then q.(orderr := FirstError(q.orderr, err)) else q;
      var q2 := CompletedRequest(q1, rq);
      DrainGrows(q, Leave(q1, rq));
      if q2.orig.Some? {
        var ev := RetireStage(q2.orig.value, x, err);
        EmitGrows(q, q2, ev, Emit(q2, ev));
        CompleteGrows(q, Emit(q2, ev), {x}, err);
      } else {
        CompleteGrows(q, q2, {x}, err);
      }
    case Fs =>
      EmitGrows(q, q, Retire(rq), Leave(Emit(q, Retire(rq)), rq));
      DrainGrows(q, Leave(Emit(q, Retire(rq)), rq));
    case _ => DrainGrows(q, Leave(q, rq));
  }

  lemma FinishDrains(q: Queue, rq: Request, err: int, b: Request)
    requires Inv(q) && Modes(q) && rq in q.driver
    requires var log := Complete(q, rq, err).log; EndsNow(q.log, log, b) && Commandless(log, b)
    ensures Complete(q, rq, err).inFlight == 0
  {
    var r := Complete(q, rq, err);
    FinishGrows(q, rq, err);
    StillCommandless(q.log, r.log, b);
    if rq.kind.Proxy? {
      assert rq in Held(q) && Active(q) && q.orig == Some(b);
      NoProxy(q, rq);
    } else {
      DrainedAtFinish(q, rq, err, b);
    }
  }

  /** Handing out a request ends no barrier. */
  lemma DequeueLog(q: Queue, q0: seq<Event>, b: Request)
    requires q.list != [] && |q0| <= |q.log|
    requires EndsNow(q0, Dequeue(q).log, b) && Commandless(Dequeue(q).log, b)
    ensures EndsNow(q0, q.log, b) && Commandless(q.log, b)
  {
    var r := Dequeue(q).log;
    var i :| |q0| <= i < |r| && r[i].End? && r[i].rq == b;
    assert r[..|q.log|] == q.log && forall k :: |q.log| <= k < |r| ==> !r[k].End? && !r[k].Start?;
    assert r[..|q.log|][i] == q.log[i];
    StillCommandless(q.log, r, b);
  }

  lemma FetchDrains(q: Queue, b: Request)
    requires Inv(q) && Modes(q) && q.list != [] && EndsNow(q.log, Fetch(q).log, b) && Commandless(Fetch(q).log, b)
    ensures Fetch(q).inFlight == 0
  {
    var p := DoOrdered(q);
    HeadGrows(q);
    if p.rq.Some? && p.q.list != [] { DequeueLog(p.q, q.log, b); }
    DrainedAtHead(q, b);
  }

  lemma HeadGrows(q: Queue)
    requires q.list != []
    ensures |q.log| <= |DoOrdered(q).q.log|
  {
  }

  lemma OthersEndNone(q: Queue, l: Label, b: Request)
    requires Enabled(q, l) && !l.FetchHead? && !l.PeekHead? && !l.Finish? && !l.MergedAway?
    ensures !EndsNow(q.log, Next(q, l).log, b)
  {
  }

  lemma StepDrains(q: Queue, l: Label, b: Request)
    requires Inv(q) && Modes(q) && Enabled(q, l) && Inv(Next(q, l))
    requires EndsNow(q.log, Next(q, l).log, b) && Commandless(Next(q, l).log, b)
    ensures FsOf(Next(q, l).driver) == {}
  {
    match l {
      case FetchHead => FetchDrains(q, b);
      case PeekHead => DrainedAtHead(q, b);
      case Finish(rq, err) => FinishDrains(q, rq, err, b);
      case MergedAway => DrainedAtCheck(q, b);
      case _ => OthersEndNone(q, l, b);
    }
    assert Next(q, l).inFlight == |FsOf(Next(q, l).driver)|;
  }

  /** When such a barrier is ended, nothing is out: every step of every run that ends it finds or leaves no file system
      request in the driver. */
  lemma CommandlessDrains(m: Mode, labels: seq<Label>, l: Label, b: Request)
    requires Accepted(m) && IsRun(Init(m), labels) && Enabled(After(Init(m), labels), l)
    requires var q := After(Init(m), labels); EndsNow(q.log, Next(q, l).log, b) && Commandless(Next(q, l).log, b)
    ensures FsOf(Next(After(Init(m), labels), l).driver) == {}
  {
    InitInv(m);
    InitModes(m);
    RunModes(Init(m), labels);
    var q := After(Init(m), labels);
    StepKeeps(q, l);
    StepDrains(q, l, b);
  }
}
