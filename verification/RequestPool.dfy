/** The request allocator of a queue (get_request, freed_request and blk_queue_congestion_threshold in block/blk-core.c,
    queue_requests_store in block/blk-sysfs.c), a state machine that moves whenever the queue lock is dropped. */
module RequestPool {

  /** BLKDEV_MIN_RQ. */
  const MIN_REQUESTS := 4

  /** elv_may_queue. */
  datatype MayQueue = No | May | Must

  /** One direction. Of the `count` requests some are still being allocated, `retrying` of them for processes that have
      waited; `sleepers` wait for a request, `woken` have been woken up but have not tried again yet. `began` counts
      those who began to wait, `served` those who then got a request; the code knows neither. */
  datatype Side = Side(count: nat, allocating: nat, retrying: nat, full: bool, congested: bool, starved: bool,
                       sleepers: nat, woken: nat, began: nat, served: nat)

  /** Who asks: one that goes without, one that will wait, or one that has been waiting. */
  datatype Who = Passer | Newcomer | Waiter

  datatype Pool = Pool(nr: nat, sync: Side, async: Side)

  const IDLE := Side(0, 0, 0, false, false, false, 0, 0, 0, 0)

  function SideOf(p: Pool, isSync: bool): Side { if isSync then p.sync else p.async }

  function SetSide(p: Pool, isSync: bool, s: Side): Pool { if isSync then p.(sync := s) else p.(async := s) }

  function OnThreshold(nr: nat): nat {
    var n := nr - nr / 8 + 1;
    if n > nr then nr else n
  }

  function OffThreshold(nr: nat): nat {
    var n := nr - nr / 8 - nr / 16 - 1;
    if n < 1 then 1 else n
  }

  lemma Thresholds(nr: nat)
    requires nr >= MIN_REQUESTS
    ensures 1 <= OffThreshold(nr) <= OnThreshold(nr) <= nr && nr <= 3 * nr / 2
  {
  }

  /** The queue is congested from an eighth below its limit on, and no more from an eighth and a sixteenth below it. */
  lemma CongestionRange(nr: nat, eighth: nat, sixteenth: nat)
    requires nr >= MIN_REQUESTS && 8 * eighth <= nr < 8 * (eighth + 1) && 16 * sixteenth <= nr < 16 * (sixteenth + 1)
    ensures OnThreshold(nr) == if eighth == 0 then nr else nr - eighth + 1
    ensures OffThreshold(nr) == nr - eighth - sixteenth - 1
  {
    assert nr / 8 == eighth && nr / 16 == sixteenth;
  }

  // ----- the steps

  datatype Tried = Tried(side: Side, ok: bool)

  /** get_request up to the point where it drops the lock; `batcher` answers ioc_batching. On success a request has been
      counted and is being allocated. */
  function Try(nr: nat, s: Side, mayQueue: MayQueue, batcher: bool): Tried {
    if mayQueue == No then Tried(if s.count == 0 then s.(starved := true) else s, false)
    else
      var congests := s.count + 1 >= OnThreshold(nr);
      var fills := congests && s.count + 1 >= nr;
      if fills && s.full && mayQueue != Must && !batcher then Tried(s, false)
      else
        var t := s.(congested := s.congested || congests, full := s.full || fills);
        if s.count >= 3 * nr / 2 then Tried(t, false)
        else Tried(t.(count := s.count + 1, starved := false, allocating := s.allocating + 1), true)
  }

  /** The sleep of get_request_wait. */
  function Slept(s: Side): Side { s.(sleepers := s.sleepers + 1, began := s.began + 1) }

  /** __freed_request. */
  function Freed(nr: nat, s: Side): Side {
    var t := if s.count < OffThreshold(nr) then s.(congested := false) else s;
    if s.count + 1 > nr then t
    else if s.sleepers > 0 then t.(full := false, sleepers := s.sleepers - 1, woken := s.woken + 1)
    else t.(full := false)
  }

  /** freed_request. */
  function FreeOne(p: Pool, isSync: bool): Pool
    requires SideOf(p, isSync).count > 0
  {
    var s, other := SideOf(p, isSync), SideOf(p, !isSync);
    var q := SetSide(p, isSync, Freed(p.nr, s.(count := s.count - 1)));
    if other.starved then SetSide(q, !isSync, Freed(p.nr, other)) else q
  }

  /** What queue_requests_store does to a direction. */
  function Resized(nr: nat, s: Side): Side {
    var congested := s.count >= OnThreshold(nr) || (s.count >= OffThreshold(nr) && s.congested);
    var t := s.(congested := congested, full := s.count >= nr);
    if s.count < nr && s.sleepers > 0 then t.(sleepers := s.sleepers - 1, woken := s.woken + 1) else t
  }

  /** What happens between two points where the lock is free. `wait` says that the caller sleeps if it gets nothing. */
  datatype Label =
    | Get(sync: bool, mayQueue: MayQueue, batcher: bool, wait: bool) // get_request, at first
    | Done(sync: bool, ok: bool, who: Who)                           // blk_alloc_request has answered
    | Free(sync: bool)                                               // freed_request
    | Again(sync: bool, mayQueue: MayQueue, batcher: bool)           // a woken process tries again
    | SetLimit(n: nat)                                               // queue_requests_store

  /** An allocation for such a process is under way. */
  predicate Allocating(s: Side, who: Who) {
    && s.retrying <= s.allocating <= s.count && s.retrying <= s.began
    && if who == Waiter then s.retrying > 0 else s.retrying < s.allocating
  }

  /** The allocation is over; until it sleeps again, a process that has waited and got nothing is as one that comes. */
  function Answered(s: Side, ok: bool, who: Who): Side
    requires Allocating(s, who)
  {
    var t := s.(allocating := s.allocating - 1);
    if who != Waiter then t
    else if ok then t.(retrying := s.retrying - 1, served := s.served + 1)
    else t.(retrying := s.retrying - 1, began := s.began - 1)
  }

  predicate Enabled(p: Pool, l: Label) {
    match l
    case Done(d, _, who) => Allocating(SideOf(p, d), who)
    case Free(d) => SideOf(p, d).allocating < SideOf(p, d).count
    case Again(d, _, _) => SideOf(p, d).woken > 0
    case _ => true
  }

  function Next(p: Pool, l: Label): Pool
    requires Enabled(p, l)
  {
    match l
    case Get(d, may, batcher, wait) =>
      var t := Try(p.nr, SideOf(p, d), may, batcher);
      SetSide(p, d, if !t.ok && wait then Slept(t.side) else t.side)
    case Done(d, ok, who) =>
      var q := SetSide(p, d, Answered(SideOf(p, d), ok, who));
      if ok then q else Undone(q, d, who != Passer)
    case Free(d) => FreeOne(p, d)
    case Again(d, may, batcher) =>
      SetSide(p, d, Retried(Try(p.nr, SideOf(p, d), may, batcher)))
    case SetLimit(n) =>
      var nr := if n < MIN_REQUESTS then MIN_REQUESTS else n;
      Pool(nr, Resized(nr, p.sync), Resized(nr, p.async))
  }

  /** A woken process has tried again. */
  function Retried(t: Tried): Side
    requires t.side.woken > 0
  {
    var s := t.side.(woken := t.side.woken - 1);
    if t.ok then s.(retrying := s.retrying + 1) else s.(sleepers := s.sleepers + 1)
  }

  /** An allocation failed: the request is given back, and a direction without any is marked starved. */
  function Undone(p: Pool, isSync: bool, wait: bool): Pool
    requires SideOf(p, isSync).count > 0
  {
    var q := FreeOne(p, isSync);
    var s := SideOf(q, isSync);
    var t := if s.count == 0 then s.(starved := true) else s;
    SetSide(q, isSync, if wait then Slept(t) else t)
  }

  predicate IsRun(p: Pool, labels: seq<Label>)
    decreases |labels|
  {
    labels == [] || (Enabled(p, labels[0]) && IsRun(Next(p, labels[0]), labels[1..]))
  }

  function After(p: Pool, labels: seq<Label>): Pool
    requires IsRun(p, labels)
    decreases |labels|
  {
    if labels == [] then p else After(Next(p, labels[0]), labels[1..])
  }

  // ----- what every step keeps

  /** The flags of a direction agree with its count. */
  predicate FlagsOk(nr: nat, s: Side) {
    && s.retrying <= s.allocating <= s.count
    && (s.full <==> s.count >= nr)
    && (s.congested ==> s.count >= OffThreshold(nr)) && (s.count >= OnThreshold(nr) ==> s.congested)
  }

  function Max(a: nat, b: nat): nat { if a < b then b else a }

  /** Who began to wait has been served, or sleeps, or has been woken up, or is about to get a request; nobody is
      lost. */
  predicate NoneLost(s: Side) { s.began == s.served + s.sleepers + s.woken + s.retrying }

  /** There is a request to come back, or the other direction looks after this one, or somebody has been woken up. */
  predicate Hope(s: Side) { s.count > 0 || s.starved || s.woken > 0 }

  predicate SideOk(nr: nat, s: Side) {
    FlagsOk(nr, s) && NoneLost(s) && (s.sleepers > 0 ==> Hope(s)) && (s.starved ==> s.count == 0)
  }

  predicate PoolOk(p: Pool) { p.nr >= MIN_REQUESTS && forall d :: SideOk(p.nr, SideOf(p, d)) }

  /** When get_request succeeds, and what a failure leaves behind. */
  lemma TryDecides(nr: nat, s: Side, may: MayQueue, batcher: bool)
    requires nr >= MIN_REQUESTS && FlagsOk(nr, s)
    ensures var t := Try(nr, s, may, batcher);
            && (t.ok <==> may != No && (s.full ==> may == Must || batcher) && s.count < 3 * nr / 2)
            && FlagsOk(nr, t.side) && t.side.count == s.count + (if t.ok then 1 else 0)
            && (t.ok ==> t.side.count <= 3 * nr / 2) && (!t.ok ==> t.side.count > 0 || t.side.starved)
            && t.side.allocating == s.allocating + (if t.ok then 1 else 0)
            && t.side == t.side.(retrying := s.retrying, sleepers := s.sleepers, woken := s.woken, began := s.began,
                                 served := s.served)
  {
    Thresholds(nr);
  }

  lemma FreedOk(nr: nat, s: Side)
    requires nr >= MIN_REQUESTS && SideOk(nr, s) && s.allocating < s.count
    ensures SideOk(nr, Freed(nr, s.(count := s.count - 1)))
  {
    Thresholds(nr);
  }

  lemma FreedOther(nr: nat, s: Side)
    requires nr >= MIN_REQUESTS && SideOk(nr, s)
    ensures SideOk(nr, Freed(nr, s))
  {
    Thresholds(nr);
  }

  lemma SetOk(p: Pool, isSync: bool, s: Side)
    requires PoolOk(p) && SideOk(p.nr, s)
    ensures PoolOk(SetSide(p, isSync, s)) && SideOf(SetSide(p, isSync, s), isSync) == s
    ensures SideOf(SetSide(p, isSync, s), !isSync) == SideOf(p, !isSync)
  {
    forall d ensures SideOk(p.nr, SideOf(SetSide(p, isSync, s), d)) { assert SideOk(p.nr, SideOf(p, d)); }
  }

  lemma FreeOneOk(p: Pool, isSync: bool)
    requires PoolOk(p) && SideOf(p, isSync).allocating < SideOf(p, isSync).count
    ensures PoolOk(FreeOne(p, isSync))
  {
    var s, other := SideOf(p, isSync), SideOf(p, !isSync);
    FreedOk(p.nr, s);
    var t, u := Freed(p.nr, s.(count := s.count - 1)), Freed(p.nr, other);
    SetOk(p, isSync, t);
    FreedOther(p.nr, other);
    SetOk(SetSide(p, isSync, t), !isSync, u);
    assert FreeOne(p, isSync) == if other.starved then SetSide(SetSide(p, isSync, t), !isSync, u)
           else SetSide(p, isSync, t);
  }

  /** A try that failed, and the sleep after it. */
  lemma TriedOk(nr: nat, s: Side, may: MayQueue, batcher: bool, wait: bool)
    requires nr >= MIN_REQUESTS && SideOk(nr, s)
    ensures var t := Try(nr, s, may, batcher); SideOk(nr, if !t.ok && wait then Slept(t.side) else t.side)
  {
    TryDecides(nr, s, may, batcher);
  }

  lemma AgainOk(nr: nat, s: Side, may: MayQueue, batcher: bool)
    requires nr >= MIN_REQUESTS && SideOk(nr, s) && s.woken > 0
    ensures SideOk(nr, Retried(Try(nr, s, may, batcher)))
  {
    TryDecides(nr, s, may, batcher);
  }

  lemma UndoneOk(p: Pool, isSync: bool, wait: bool)
    requires PoolOk(p) && SideOf(p, isSync).allocating < SideOf(p, isSync).count
    ensures PoolOk(Undone(p, isSync, wait))
  {
    FreeOneOk(p, isSync);
    var q := FreeOne(p, isSync);
    var s := SideOf(q, isSync);
    var t := if s.count == 0 then s.(starved := true) else s;
    SetOk(q, isSync, if wait then Slept(t) else t);
  }

  lemma ResizedOk(was: nat, nr: nat, s: Side)
    requires nr >= MIN_REQUESTS && SideOk(was, s)
    ensures SideOk(nr, Resized(nr, s))
  {
    Thresholds(nr);
  }

  lemma GetOk(p: Pool, d: bool, may: MayQueue, batcher: bool, wait: bool)
    requires PoolOk(p)
    ensures PoolOk(Next(p, Get(d, may, batcher, wait)))
  {
    TriedOk(p.nr, SideOf(p, d), may, batcher, wait);
    var t := Try(p.nr, SideOf(p, d), may, batcher);
    SetOk(p, d, if !t.ok && wait then Slept(t.side) else t.side);
  }

  lemma AnsweredOk(nr: nat, s: Side, ok: bool, who: Who)
    requires SideOk(nr, s) && Allocating(s, who)
    ensures SideOk(nr, Answered(s, ok, who)) && Answered(s, ok, who).allocating < Answered(s, ok, who).count
  {
  }

  lemma DoneOk(p: Pool, d: bool, ok: bool, who: Who)
    requires PoolOk(p) && Enabled(p, Done(d, ok, who))
    ensures PoolOk(Next(p, Done(d, ok, who)))
  {
    var t := Answered(SideOf(p, d), ok, who);
    AnsweredOk(p.nr, SideOf(p, d), ok, who);
    SetOk(p, d, t);
    if !ok { UndoneOk(SetSide(p, d, t), d, who != Passer); }
  }

  lemma RetryOk(p: Pool, d: bool, may: MayQueue, batcher: bool)
    requires PoolOk(p) && Enabled(p, Again(d, may, batcher))
    ensures PoolOk(Next(p, Again(d, may, batcher)))
  {
    AgainOk(p.nr, SideOf(p, d), may, batcher);
    SetOk(p, d, Retried(Try(p.nr, SideOf(p, d), may, batcher)));
  }

  lemma StepOk(p: Pool, l: Label)
    requires PoolOk(p) && Enabled(p, l)
    ensures PoolOk(Next(p, l))
  {
    match l {
      case Get(d, may, batcher, wait) => GetOk(p, d, may, batcher, wait);
      case Done(d, ok, who) => DoneOk(p, d, ok, who);
      case Free(d) => FreeOneOk(p, d);
      case Again(d, may, batcher) => RetryOk(p, d, may, batcher);
      case SetLimit(n) =>
        var nr := if n < MIN_REQUESTS then MIN_REQUESTS else n;
        assert SideOf(p, true) == p.sync && SideOf(p, false) == p.async;
        ResizedOk(p.nr, nr, p.sync);
        ResizedOk(p.nr, nr, p.async);
    }
  }

  lemma {:induction false} RunOk(p: Pool, labels: seq<Label>)
    requires PoolOk(p) && IsRun(p, labels)
    ensures PoolOk(After(p, labels))
    decreases |labels|
  {
    if labels == [] {
    } else {
      StepOk(p, labels[0]);
      RunOk(Next(p, labels[0]), labels[1..]);
    }
  }

  /** Every run of a queue with room for `n` requests: at every point where the lock is free, in each direction, the
      full flag holds exactly if the count has reached nr_requests, the congestion flag follows the thresholds,
      everybody who began to wait has been served or still waits, and whoever sleeps has something to wait for. */
  lemma NobodyLost(n: nat, labels: seq<Label>)
    requires n >= MIN_REQUESTS && IsRun(Pool(n, IDLE, IDLE), labels)
    ensures PoolOk(After(Pool(n, IDLE, IDLE), labels))
  {
    Thresholds(n);
    RunOk(Pool(n, IDLE, IDLE), labels);
  }

  // ----- who is woken

  /** One sleeper has been woken, if `wakes`, and `slept` have gone to sleep. */
  predicate Woke(s: Side, t: Side, wakes: bool, slept: nat) {
    if wakes then t.woken == s.woken + 1 && t.sleepers + 1 == s.sleepers + slept
    else t.woken == s.woken && t.sleepers == s.sleepers + slept
  }

  /** A request that is freed wakes a sleeper of its direction if that comes below the limit, and one of the other
      direction if it is starved. */
  lemma FreeWakes(p: Pool, d: bool)
    requires PoolOk(p) && Enabled(p, Free(d))
    ensures var q := Next(p, Free(d));
            && SideOf(q, d).count == SideOf(p, d).count - 1 && SideOf(q, !d).count == SideOf(p, !d).count
            && Woke(SideOf(p, d), SideOf(q, d), SideOf(p, d).sleepers > 0 && SideOf(q, d).count < p.nr, 0)
            && Woke(SideOf(p, !d), SideOf(q, !d), SideOf(p, !d).sleepers > 0 && SideOf(p, !d).starved, 0)
  {
    assert SideOk(p.nr, SideOf(p, !d));
  }

  /** So does an allocation that fails; who wanted it may go to sleep. */
  lemma FailureWakes(p: Pool, d: bool, who: Who)
    requires PoolOk(p) && Enabled(p, Done(d, false, who))
    ensures var q := Next(p, Done(d, false, who));
            && SideOf(q, d).count == SideOf(p, d).count - 1 && SideOf(q, !d).count == SideOf(p, !d).count
            && Woke(SideOf(p, d), SideOf(q, d), SideOf(p, d).sleepers > 0 && SideOf(q, d).count < p.nr,
                    if who == Passer then 0 else 1)
            && Woke(SideOf(p, !d), SideOf(q, !d), SideOf(p, !d).sleepers > 0 && SideOf(p, !d).starved, 0)
            && (SideOf(q, d).count == 0 ==> SideOf(q, d).starved)
  {
    assert SideOk(p.nr, SideOf(p, !d));
  }

  /** A new limit wakes a sleeper in each direction that has room. */
  lemma LimitWakes(p: Pool, n: nat, d: bool)
    ensures var q := Next(p, SetLimit(n));
            && q.nr == Max(n, MIN_REQUESTS) && SideOf(q, d).count == SideOf(p, d).count
            && Woke(SideOf(p, d), SideOf(q, d), SideOf(p, d).sleepers > 0 && SideOf(p, d).count < q.nr, 0)
  {
  }

  function Frees(d: bool, k: nat): seq<Label> { seq(k, _ => Free(d)) }

  function Min(a: nat, b: nat): nat { if a < b then a else b }

  /** How many sleepers k requests wake that come back. */
  function Wakings(nr: nat, s: Side, k: nat): nat {
    var over := if s.count > nr then s.count - nr else 0;
    Min(s.sleepers, if k > over then k - over else 0)
  }

  /** Requests that come back, one after another: from where the count is below the limit on each wakes a sleeper, as
      long as anybody sleeps. */
  lemma {:induction false} FreesWake(p: Pool, d: bool, k: nat)
    requires PoolOk(p) && SideOf(p, d).allocating + k <= SideOf(p, d).count
    ensures IsRun(p, Frees(d, k))
    ensures var s, t := SideOf(p, d), SideOf(After(p, Frees(d, k)), d); var n := Wakings(p.nr, s, k);
            t.count == s.count - k && t.woken == s.woken + n && t.sleepers == s.sleepers - n
    decreases k
  {
    if k == 0 {
    } else {
      FreeWakes(p, d);
      FreeOneOk(p, d);
      var q := Next(p, Free(d));
      FreeFrame(p, d);
      FreesWake(q, d, k - 1);
      assert Frees(d, k)[0] == Free(d) && Frees(d, k)[1..] == Frees(d, k - 1);
    }
  }

  lemma FreeFrame(p: Pool, d: bool)
    requires Enabled(p, Free(d))
    ensures var q := Next(p, Free(d)); q.nr == p.nr && SideOf(q, d).allocating == SideOf(p, d).allocating
  {
  }

  /** What an allocation that fails on an idle queue leaves: a sleeper and nothing out in either direction. */
  const FORSAKEN := Side(0, 0, 0, false, false, true, 1, 0, 1, 0)

  lemma FailsIdle(n: nat)
    requires n >= MIN_REQUESTS
    ensures var p, a, b := Pool(n, IDLE, IDLE), Get(false, May, false, true), Done(false, false, Newcomer);
            Enabled(Next(p, a), b) && Next(Next(p, a), b) == Pool(n, IDLE, FORSAKEN)
  {
    Thresholds(n);
    assert OnThreshold(n) > 1;
    var m := Next(Pool(n, IDLE, IDLE), Get(false, May, false, true));
    assert m == Pool(n, IDLE, Side(1, 1, 0, false, false, false, 0, 0, 0, 0));
  }

  /** Then it takes a newcomer or a new limit to wake it. */
  lemma Forsaken(n: nat)
    requires n >= MIN_REQUESTS
    ensures var p, labels := Pool(n, IDLE, IDLE), [Get(false, May, false, true), Done(false, false, Newcomer)];
            IsRun(p, labels) && After(p, labels) == Pool(n, IDLE, FORSAKEN)
    ensures forall l :: Enabled(Pool(n, IDLE, FORSAKEN), l) ==> l.Get? || l.SetLimit?
  {
    FailsIdle(n);
    var p, a, b := Pool(n, IDLE, IDLE), Get(false, May, false, true), Done(false, false, Newcomer);
    OneStep(Next(p, a), b, Next(Next(p, a), b), []);
    OneStep(p, a, Next(p, a), [b]);
    assert [b] + [] == [b] && [a] + [b] == [a, b];
  }

  lemma OneStep(p: Pool, l: Label, q: Pool, rest: seq<Label>)
    requires Enabled(p, l) && q == Next(p, l) && IsRun(q, rest)
    ensures IsRun(p, [l] + rest) && After(p, [l] + rest) == After(q, rest)
  {
    assert ([l] + rest)[1..] == rest;
  }

  // ----- the queue

  class RequestList {
    var nr: nat
    var sync: Side
    var async: Side

    function State(): Pool
      reads this
    {
      Pool(nr, sync, async)
    }

    function Of(isSync: bool): Side
      reads this
    {
      SideOf(State(), isSync)
    }

    constructor (n: nat)
      ensures State() == Pool(Max(n, MIN_REQUESTS), IDLE, IDLE)
    {
      nr := if n < MIN_REQUESTS then MIN_REQUESTS else n;
      sync, async := IDLE, IDLE;
    }

    method Set(isSync: bool, s: Side)
      modifies `sync, `async
      ensures State() == SetSide(old(State()), isSync, s)
    {
      if isSync { sync := s; } else { async := s; }
    }

    /** get_request. */
    method TryOnce(isSync: bool, mayQueue: MayQueue, batcher: bool) returns (ok: bool)
      modifies `sync, `async
      ensures ok == Try(nr, old(Of(isSync)), mayQueue, batcher).ok
      ensures State() == SetSide(old(State()), isSync, Try(nr, old(Of(isSync)), mayQueue, batcher).side)
    {
      var s := Of(isSync);
      if mayQueue == No {
        if s.count == 0 { Set(isSync, s.(starved := true)); }
        return false;
      }
      if s.count + 1 >= OnThreshold(nr) {
        if s.count + 1 >= nr {
          if !s.full {
            s := s.(full := true);
          } else if mayQueue != Must && !batcher {
            return false;
          }
        }
        s := s.(congested := true);
      }
      if s.count >= 3 * nr / 2 {
        Set(isSync, s);
        return false;
      }
      Set(isSync, s.(count := s.count + 1, starved := false, allocating := s.allocating + 1));
      return true;
    }

    /** get_request, and the sleep of get_request_wait if it fails. */
    method GetRequest(isSync: bool, mayQueue: MayQueue, batcher: bool, wait: bool) returns (ok: bool)
      modifies `sync, `async
      ensures ok == Try(nr, old(Of(isSync)), mayQueue, batcher).ok
      ensures State() == Next(old(State()), Get(isSync, mayQueue, batcher, wait))
    {
      ok := TryOnce(isSync, mayQueue, batcher);
      if !ok && wait { Set(isSync, Slept(Of(isSync))); }
    }

    /** freed_request. */
    method FreedRequest(isSync: bool)
      requires Of(isSync).count > 0
      modifies `sync, `async
      ensures State() == FreeOne(old(State()), isSync)
    {
      var s, other := Of(isSync), Of(!isSync);
      Set(isSync, Freed(nr, s.(count := s.count - 1)));
      if other.starved { Set(!isSync, Freed(nr, other)); }
    }

    /** The second half of get_request, once blk_alloc_request has answered. */
    method Allocated(isSync: bool, ok: bool, who: Who)
      requires Enabled(State(), Done(isSync, ok, who))
      modifies `sync, `async
      ensures State() == Next(old(State()), Done(isSync, ok, who))
    {
      Set(isSync, Answered(Of(isSync), ok, who));
      if !ok { Undo(isSync, who != Passer); }
    }

    /** The failure of blk_alloc_request. */
    method Undo(isSync: bool, wait: bool)
      requires Of(isSync).count > 0
      modifies `sync, `async
      ensures State() == Undone(old(State()), isSync, wait)
    {
      FreedRequest(isSync);
      if Of(isSync).count == 0 { Set(isSync, Of(isSync).(starved := true)); }
      if wait { Set(isSync, Slept(Of(isSync))); }
    }

    /** A turn of the loop of get_request_wait: a process woken up tries again, and sleeps again if it fails. */
    method Retry(isSync: bool, mayQueue: MayQueue, batcher: bool) returns (ok: bool)
      requires Enabled(State(), Again(isSync, mayQueue, batcher))
      modifies `sync, `async
      ensures ok == Try(nr, old(Of(isSync)), mayQueue, batcher).ok
      ensures State() == Next(old(State()), Again(isSync, mayQueue, batcher))
    {
      ok := TryOnce(isSync, mayQueue, batcher);
      Set(isSync, Retried(Tried(Of(isSync), ok)));
    }

    /** queue_requests_store. */
    method Resize(n: nat)
      modifies this
      ensures State() == Next(old(State()), SetLimit(n))
    {
      nr := if n < MIN_REQUESTS then MIN_REQUESTS else n;
      sync := ResizeSide(nr, sync);
      async := ResizeSide(nr, async);
    }

    static method ResizeSide(nr: nat, s: Side) returns (r: Side)
      ensures r == Resized(nr, s)
    {
      r := s;
      if r.count >= OnThreshold(nr) {
        r := r.(congested := true);
      } else if r.count < OffThreshold(nr) {
        r := r.(congested := false);
      }
      if r.count >= nr {
        r := r.(full := true);
      } else if r.count + 1 <= nr {
        r := r.(full := false);
        if r.sleepers > 0 { r := r.(sleepers := r.sleepers - 1, woken := r.woken + 1); }
      }
    }
  }
}
