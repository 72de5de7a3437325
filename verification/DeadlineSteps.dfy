/** The deadline scheduler (block/deadline-iosched.c) as a step relation over values: what every run keeps, what it
    neither loses nor doubles, and whose turn it is. */
module DeadlineSteps {
  import opened Basics
  import opened Lanes
  import opened DeadlineLog

  // ----- the scheduler

  datatype Tunables = Tunables(fifoBatch: nat, writesStarved: nat, readExpire: nat, writeExpire: nat) {
    /** A batch holds at least one request. */
    function Batch(): nat { if fifoBatch == 0 then 1 else fifoBatch }

    function Expire(w: bool): nat { if w then writeExpire else readExpire }
  }

  /** Start sector and expiry of each request, jiffies, the two directions, nr_sorted, the dispatch queue, and the calls
      of deadline_dispatch_requests so far, which are history. */
  datatype Sched = Sched(pos: map<nat, int>, expires: map<nat, int>, now: int, read: Lane, write: Lane, batching: nat,
                         starved: nat, sorted: int, dispatched: seq<nat>, calls: seq<Call>)

  const NO_REQUESTS := Lane([], [], None)
  const IDLE := Sched(map[], map[], 0, NO_REQUESTS, NO_REQUESTS, 0, 0, 0, [], [])

  datatype Label =
    | Add(write: bool, rq: nat, pos: int)          // deadline_add_request
    | FrontMerge(write: bool, rq: nat, pos: int)   // deadline_merged_request
    | Merge(write: bool, rq: nat, gone: nat)       // deadline_merged_requests
    | Tick(jiffies: nat)
    | Dispatch                                     // deadline_dispatch_requests

  function LaneOf(s: Sched, w: bool): Lane { if w then s.write else s.read }

  function SetLane(s: Sched, w: bool, l: Lane): Sched { if w then s.(write := l) else s.(read := l) }

  /** deadline_move_request. */
  function MoveRq(s: Sched, w: bool, y: nat): Sched {
    var m := SetLane(s, w, Moved(LaneOf(s, w), y));
    var n := SetLane(m, !w, LaneOf(s, !w).(next := None));
    n.(sorted := s.sorted - 1, dispatched := s.dispatched + [y])
  }

  /** deadline_add_rq_rb: a request at the same sector goes to the dispatch queue first. */
  function SortIn(s: Sched, w: bool, x: nat, p: int): Sched
    decreases |LaneOf(s, w).sort|
  {
    var l := LaneOf(s, w);
    var alias := AliasOf(s.pos, l.sort, p);
    if alias != None then SortIn(MoveRq(s, w, alias.value), w, x, p)
    else SetLane(s, w, l.(sort := Inserted(l.sort, PlaceOf(s.pos, l.sort, p), x))).(pos := s.pos[x := p])
  }

  function Enqueued(t: Tunables, s: Sched, w: bool, x: nat): Sched {
    SetLane(s, w, LaneOf(s, w).(fifo := LaneOf(s, w).fifo + [x])).(expires := s.expires[x := s.now + t.Expire(w)])
  }

  function TakenOver(s: Sched, w: bool, r: nat, n: nat): Sched {
    var l := LaneOf(s, w);
    if n in Without(l.fifo, r) && Key(s.expires, n) < Key(s.expires, r) then
      SetLane(s, w, l.(fifo := TakePlace(l.fifo, r, n))).(expires := s.expires[r := Key(s.expires, n)])
    else s
  }

  /** A batch is running and may go on. */
  predicate InBatch(t: Tunables, s: Sched) { (s.read.next != None || s.write.next != None) && s.batching < t.fifoBatch }

  /** Writes are chosen when there are no reads, or when they have been passed over often enough. */
  predicate WritesFirst(t: Tunables, s: Sched) {
    s.read.fifo == [] || (s.write.fifo != [] && s.starved >= t.writesStarved)
  }

  /** The request to start a batch with. */
  function Find(s: Sched, w: bool): nat
    requires LaneOf(s, w).fifo != []
  {
    var l := LaneOf(s, w);
    if Key(s.expires, l.fifo[0]) < s.now || l.next == None then l.fifo[0] else l.next.value
  }

  datatype Choice = Nothing | Go(write: bool, rq: nat, starts: bool, starved: nat)

  function Decide(t: Tunables, s: Sched): Choice {
    if InBatch(t, s) then
      Go(s.write.next != None, if s.write.next != None then s.write.next.value else s.read.next.value, false, s.starved)
    else if s.read.fifo == [] && s.write.fifo == [] then Nothing
    else
      var w := WritesFirst(t, s);
      Go(w, Find(s, w), true, if w then 0 else if s.write.fifo == [] then s.starved else s.starved + 1)
  }

  /** What is written down of a call. */
  function CallOf(s: Sched, c: Choice): Call {
    var more := s.read.next != None || s.write.next != None;
    match c
    case Nothing => Call(s.read.fifo != [], s.write.fifo != [], more, false, false, false)
    case Go(w, _, starts, _) => Call(s.read.fifo != [], s.write.fifo != [], more, true, w, starts)
  }

  function Called(s: Sched, c: Choice): Sched {
    var r := s.(calls := s.calls + [CallOf(s, c)]);
    if c.Go? then r.(batching := if c.starts then 1 else s.batching + 1, starved := c.starved) else r
  }

  predicate Enabled(s: Sched, l: Label) {
    match l
    case Add(_, x, _) => x !in s.read.fifo && x !in s.write.fifo
    case FrontMerge(w, x, _) => x in LaneOf(s, w).sort
    case Merge(w, r, n) => r in LaneOf(s, w).sort && n in LaneOf(s, w).sort && r != n
    case _ => true
  }

  function Added(t: Tunables, s: Sched, w: bool, x: nat, p: int): Sched {
    Enqueued(t, SortIn(s.(sorted := s.sorted + 1), w, x, p), w, x)
  }

  /** The request off the sorted list. */
  function Off(s: Sched, w: bool, x: nat): Sched {
    SetLane(s, w, LaneOf(s, w).(sort := Without(LaneOf(s, w).sort, x)))
  }

  function Merged(s: Sched, w: bool, r: nat, n: nat): Sched {
    var m := TakenOver(s, w, r, n);
    SetLane(m, w, Removed(LaneOf(m, w), n)).(sorted := s.sorted - 1)
  }

  function Dispatched(t: Tunables, s: Sched): Sched {
    var c := Decide(t, s);
    if c.Go? then MoveRq(Called(s, c), c.write, c.rq) else Called(s, c)
  }

  function Next(t: Tunables, s: Sched, l: Label): Sched {
    match l
    case Add(w, x, p) => Added(t, s, w, x, p)
    case FrontMerge(w, x, p) => SortIn(Off(s, w, x), w, x, p)
    case Merge(w, r, n) => Merged(s, w, r, n)
    case Tick(n) => s.(now := s.now + n)
    case Dispatch => Dispatched(t, s)
  }

  predicate IsRun(t: Tunables, s: Sched, labels: seq<Label>)
    decreases |labels|
  {
    labels == [] || (Enabled(s, labels[0]) && IsRun(t, Next(t, s, labels[0]), labels[1..]))
  }

  function After(t: Tunables, s: Sched, labels: seq<Label>): Sched
    decreases |labels|
  {
    if labels == [] then s else After(t, Next(t, s, labels[0]), labels[1..])
  }

  // ----- the invariant

  /** No request expires later than one that would arrive now. */
  ghost predicate Timely(s: Sched, l: Lane, expire: nat) {
    forall x :: x in l.fifo ==> x in s.expires && s.expires[x] <= s.now + expire
  }

  ghost predicate Common(t: Tunables, s: Sched) {
    && (forall x :: x in s.read.fifo ==> x !in s.write.fifo)
    && (s.read.next == None || s.write.next == None)
    && Timely(s, s.read, t.readExpire) && Timely(s, s.write, t.writeExpire)
  }

  /** Both indexes agree in both directions, at most one next request is set, and everything sorted is counted. */
  ghost predicate Lists(t: Tunables, s: Sched) {
    && LaneOk(s.pos, s.expires, s.read) && LaneOk(s.pos, s.expires, s.write) && Common(t, s)
    && s.sorted == |s.read.sort| + |s.write.sort|
  }

  /** The same while request x of direction w is off the sorted list. */
  ghost predicate ListsBut(t: Tunables, s: Sched, w: bool, x: nat) {
    && LaneBut(s.pos, s.expires, LaneOf(s, w), x) && LaneOk(s.pos, s.expires, LaneOf(s, !w))
    && x !in LaneOf(s, !w).fifo && Common(t, s) && s.sorted == |s.read.sort| + |s.write.sort| + 1
  }

  /** x is back on the sorted list. */
  ghost predicate SortedAgain(t: Tunables, s: Sched, w: bool, x: nat) {
    var l := LaneOf(s, w);
    && Rising(s.pos, l.sort) && NonFalling(s.expires, l.fifo) && NoDup(l.fifo)
    && (forall y :: y in l.sort <==> y in l.fifo || y == x) && (l.next != None ==> l.next.value in l.sort)
    && LaneOk(s.pos, s.expires, LaneOf(s, !w)) && x !in LaneOf(s, !w).fifo && Common(t, s)
    && s.sorted == |s.read.sort| + |s.write.sort|
  }

  /** The calls kept the rules, and the counters are what the log says. */
  predicate Patient(t: Tunables, s: Sched) {
    && Rules(t.writesStarved, t.fifoBatch, s.calls) && s.starved == ReadsAhead(s.calls)
    && s.batching == BatchSize(s.calls)
  }

  ghost predicate Ok(t: Tunables, s: Sched) { Lists(t, s) && Patient(t, s) }

  // ----- moving a request to the dispatch queue

  lemma MovedLists(t: Tunables, s: Sched, w: bool, y: nat)
    requires Lists(t, s) && y in LaneOf(s, w).sort
    ensures Lists(t, MoveRq(s, w, y))
  {
    MovedOk(s.pos, s.expires, LaneOf(s, w), y);
  }

  lemma MovedListsBut(t: Tunables, s: Sched, w: bool, y: nat, x: nat)
    requires ListsBut(t, s, w, x) && y in LaneOf(s, w).sort
    ensures ListsBut(t, MoveRq(s, w, y), w, x)
  {
    MovedBut(s.pos, s.expires, LaneOf(s, w), y, x);
  }

  lemma PutBack(t: Tunables, s: Sched, w: bool, x: nat, p: int)
    requires ListsBut(t, s, w, x) && AliasOf(s.pos, LaneOf(s, w).sort, p) == None
    ensures SortedAgain(t, SortIn(s, w, x, p), w, x)
  {
    var sort := LaneOf(s, w).sort;
    PlaceIfFree(s.pos, sort, p);
    InsertedRising(s.pos, sort, PlaceOf(s.pos, sort, p), x, p);
    OtherKey(s.pos, LaneOf(s, !w).sort, x, p);
  }

  /** What leaves when a request is sorted in at p: the one that is there. */
  function Aliases(s: Sched, w: bool, p: int): seq<nat> {
    var a := AliasOf(s.pos, LaneOf(s, w).sort, p);
    if a != None then [a.value] else []
  }

  /** Sorting in: only what was at the same sector leaves, to the dispatch queue. */
  lemma SortedIn(t: Tunables, s: Sched, w: bool, x: nat, p: int)
    requires ListsBut(t, s, w, x)
    ensures var r, out := SortIn(s, w, x, p), Aliases(s, w, p);
            && SortedAgain(t, r, w, x) && r.pos == s.pos[x := p] && r.dispatched == s.dispatched + out
            && LaneOf(r, w).fifo == (if out == [] then LaneOf(s, w).fifo else Without(LaneOf(s, w).fifo, out[0]))
            && (x in LaneOf(r, w).fifo <==> x in LaneOf(s, w).fifo)
            && LaneOf(r, !w).fifo == LaneOf(s, !w).fifo && (out != [] ==> out[0] in LaneOf(s, w).fifo && out[0] != x)
            && r == r.(expires := s.expires, now := s.now, batching := s.batching, starved := s.starved,
                       calls := s.calls)
            && (out == [] ==> LaneOf(r, w).next == LaneOf(s, w).next && LaneOf(r, !w).next == LaneOf(s, !w).next)
            && (out != [] ==> NextAbove(s.pos, LaneOf(s, w).sort, out[0], LaneOf(r, w).next)
                              && LaneOf(r, !w).next == None)
  {
    var sort := LaneOf(s, w).sort;
    PlaceIfFree(s.pos, sort, p);
    var a := AliasOf(s.pos, sort, p);
    if a == None {
      PutBack(t, s, w, x, p);
    } else {
      var m := MoveRq(s, w, a.value);
      MovedListsBut(t, s, w, a.value, x);
      MovedAbove(s.pos, LaneOf(s, w), a.value);
      WithoutOne(LaneOf(s, w).fifo, a.value);
      OneAlias(s.pos, sort, p);
      PutBack(t, m, w, x, p);
    }
  }

  // ----- every step

  lemma NewOff(t: Tunables, s: Sched, w: bool, x: nat)
    requires Lists(t, s) && x !in s.read.fifo && x !in s.write.fifo
    ensures ListsBut(t, s.(sorted := s.sorted + 1), w, x)
  {
  }

  lemma EnqueuedOk(t: Tunables, s: Sched, w: bool, x: nat)
    requires SortedAgain(t, s, w, x) && x !in LaneOf(s, w).fifo
    ensures Lists(t, Enqueued(t, s, w, x))
  {
    AppendNonFalling(s.expires, LaneOf(s, w).fifo, x, s.now + t.Expire(w));
    OtherKey(s.expires, LaneOf(s, !w).fifo, x, s.now + t.Expire(w));
  }

  lemma NewSorted(t: Tunables, s: Sched, w: bool, x: nat, p: int)
    requires Lists(t, s) && x !in s.read.fifo && x !in s.write.fifo
    ensures var r := SortIn(s.(sorted := s.sorted + 1), w, x, p); SortedAgain(t, r, w, x) && x !in LaneOf(r, w).fifo
  {
    NewOff(t, s, w, x);
    SortedIn(t, s.(sorted := s.sorted + 1), w, x, p);
  }

  lemma AddOk(t: Tunables, s: Sched, r: Sched, w: bool, x: nat, p: int)
    requires r == SortIn(s.(sorted := s.sorted + 1), w, x, p) && SortedAgain(t, r, w, x) && x !in LaneOf(r, w).fifo
    ensures Lists(t, Added(t, s, w, x, p))
  {
    assert Added(t, s, w, x, p) == Enqueued(t, r, w, x);
    EnqueuedOk(t, r, w, x);
  }

  lemma SortedFacts(t: Tunables, s: Sched, w: bool, x: nat, p: int)
    requires ListsBut(t, s, w, x)
    ensures var m := SortIn(s, w, x, p);
            && m.now == s.now && m.pos == s.pos[x := p] && LaneOf(m, !w).fifo == LaneOf(s, !w).fifo
            && (forall y :: y in LaneOf(m, w).fifo <==> y in LaneOf(s, w).fifo && y !in Aliases(s, w, p))
  {
    SortedIn(t, s, w, x, p);
    var out := Aliases(s, w, p);
    if out != [] { WithoutOne(LaneOf(s, w).fifo, out[0]); }
  }

  lemma EnqueuedFacts(t: Tunables, m: Sched, w: bool, x: nat)
    ensures var r := Enqueued(t, m, w, x);
            && LaneOf(r, w).fifo == LaneOf(m, w).fifo + [x] && LaneOf(r, !w) == LaneOf(m, !w) && r.pos == m.pos
            && x in r.expires && r.expires[x] == m.now + (if w then t.writeExpire else t.readExpire)
  {
  }

  /** A request that is added is the last of its FIFO and expires its direction's time from now. */
  lemma AddsLast(t: Tunables, s: Sched, w: bool, x: nat, p: int)
    requires Lists(t, s) && x !in s.read.fifo && x !in s.write.fifo
    ensures var r := Next(t, s, Add(w, x, p)); var f := LaneOf(r, w).fifo;
            && f != [] && f[|f| - 1] == x && x in r.expires && x in r.pos && r.pos[x] == p
            && r.expires[x] == s.now + (if w then t.writeExpire else t.readExpire)
            && (forall y :: y in f <==> y == x || (y in LaneOf(s, w).fifo && y !in Aliases(s, w, p)))
            && LaneOf(r, !w).fifo == LaneOf(s, !w).fifo
  {
    var s0 := s.(sorted := s.sorted + 1);
    NewOff(t, s, w, x);
    SortedFacts(t, s0, w, x, p);
    AddedFacts(t, s, SortIn(s0, w, x, p), w, x, p);
  }

  lemma AddedFacts(t: Tunables, s: Sched, m: Sched, w: bool, x: nat, p: int)
    requires m == SortIn(s.(sorted := s.sorted + 1), w, x, p)
    ensures Next(t, s, Add(w, x, p)) == Enqueued(t, m, w, x)
    ensures var r := Next(t, s, Add(w, x, p));
            && LaneOf(r, w).fifo == LaneOf(m, w).fifo + [x] && LaneOf(r, !w) == LaneOf(m, !w) && r.pos == m.pos
            && x in r.expires && r.expires[x] == m.now + (if w then t.writeExpire else t.readExpire)
  {
    EnqueuedFacts(t, m, w, x);
  }

  lemma TakenOff(t: Tunables, s: Sched, w: bool, x: nat)
    requires Lists(t, s) && x in LaneOf(s, w).sort
    ensures ListsBut(t, Off(s, w, x), w, x)
            && x in LaneOf(s, w).fifo
  {
    TakenOut(s.pos, s.expires, LaneOf(s, w), x);
  }

  lemma FrontMergeOk(t: Tunables, s: Sched, w: bool, x: nat, p: int)
    requires Lists(t, s) && x in LaneOf(s, w).sort
    ensures Lists(t, SortIn(Off(s, w, x), w, x, p))
  {
    TakenOff(t, s, w, x);
    SortedIn(t, Off(s, w, x), w, x, p);
  }

  lemma PlaceTaken(t: Tunables, s: Sched, w: bool, r: nat, n: nat)
    requires Lists(t, s) && Enabled(s, Merge(w, r, n)) && n in s.expires && r in s.expires
    requires s.expires[n] < s.expires[r]
    ensures n in Without(LaneOf(s, w).fifo, r)
    ensures Lists(t, SetLane(s, w, LaneOf(s, w).(fifo := TakePlace(LaneOf(s, w).fifo, r, n)))
                     .(expires := s.expires[r := s.expires[n]]))
  {
    TakePlaceLane(s.pos, s.expires, LaneOf(s, w), r, n);
    OtherLane(s.pos, s.expires, LaneOf(s, !w), r, s.expires[n]);
    var l := LaneOf(s, w).(fifo := TakePlace(LaneOf(s, w).fifo, r, n));
    var m := SetLane(s, w, l).(expires := s.expires[r := s.expires[n]]);
    assert LaneOf(m, w) == l && LaneOf(m, !w) == LaneOf(s, !w);
    assert Timely(m, l, t.Expire(w)) && Timely(m, LaneOf(m, !w), t.Expire(!w)) by {
      assert Timely(s, LaneOf(s, w), t.Expire(w)) && Timely(s, LaneOf(s, !w), t.Expire(!w));
    }
  }

  lemma TakenOverOk(t: Tunables, s: Sched, w: bool, r: nat, n: nat)
    requires Lists(t, s) && Enabled(s, Merge(w, r, n))
    ensures var m := TakenOver(s, w, r, n);
            && Lists(t, m) && r in m.expires && m.sorted == s.sorted && LaneOf(m, w).sort == LaneOf(s, w).sort
            && LaneOf(m, !w) == LaneOf(s, !w) && r in s.expires && n in s.expires
            && m.expires[r] == if s.expires[n] < s.expires[r] then s.expires[n] else s.expires[r]
  {
    assert r in LaneOf(s, w).fifo && n in LaneOf(s, w).fifo;
    if s.expires[n] < s.expires[r] { PlaceTaken(t, s, w, r, n); }
  }

  /** After a merge of two requests one is gone from both lists and the other has the earlier expiry. */
  lemma MergeOk(t: Tunables, s: Sched, w: bool, r: nat, n: nat)
    requires Lists(t, s) && Enabled(s, Merge(w, r, n))
    ensures var m := Merged(s, w, r, n);
            && Lists(t, m) && LaneOf(m, !w) == LaneOf(s, !w) && r in m.expires && r in s.expires && n in s.expires
            && (forall y :: y in LaneOf(m, w).fifo <==> y in LaneOf(s, w).fifo && y != n)
            && (if LaneOf(s, w).next == Some(n) then NextAbove(s.pos, LaneOf(s, w).sort, n, LaneOf(m, w).next)
                else LaneOf(m, w).next == LaneOf(s, w).next)
            && m.expires[r] == if s.expires[n] < s.expires[r] then s.expires[n] else s.expires[r]
  {
    TakenOverOk(t, s, w, r, n);
    var m := TakenOver(s, w, r, n);
    RemovedOk(m.pos, m.expires, LaneOf(m, w), n);
    LatterAbove(s.pos, LaneOf(s, w).sort, n);
  }

  /** Something in the direction has expired. */
  ghost predicate Expired(s: Sched, w: bool) { exists y :: y in LaneOf(s, w).fifo && Key(s.expires, y) < s.now }

  /** Nothing in the direction has waited longer. */
  ghost predicate Earliest(s: Sched, w: bool, x: nat) {
    forall y :: y in LaneOf(s, w).fifo ==> Key(s.expires, x) <= Key(s.expires, y)
  }

  /** The request to start a batch with: the one that has waited longest if any has expired, else the next in sector
      order. */
  ghost predicate Picks(s: Sched, w: bool, x: nat) {
    if Expired(s, w) || LaneOf(s, w).next == None then Earliest(s, w, x) else LaneOf(s, w).next == Some(x)
  }

  /** Looking at the head of the FIFO decides for all. */
  lemma FindPicks(t: Tunables, s: Sched, w: bool)
    requires Lists(t, s) && LaneOf(s, w).fifo != []
    ensures Find(s, w) in LaneOf(s, w).sort && Picks(s, w, Find(s, w))
  {
    var l := LaneOf(s, w);
    assert l.fifo[0] in l.fifo;
    forall y | y in l.fifo ensures Key(s.expires, l.fifo[0]) <= Key(s.expires, y) {
      var i :| 0 <= i < |l.fifo| && l.fifo[i] == y;
    }
  }

  /** A dispatch takes the next request of a running batch, else the one to start with in the direction whose turn it
      is; it takes nothing if and only if nothing is queued. */
  lemma DispatchPicks(t: Tunables, s: Sched)
    requires Lists(t, s)
    ensures Decide(t, s) == Nothing <==> s.read.fifo == [] && s.write.fifo == []
    ensures Decide(t, s) == Nothing ==> Dispatched(t, s) == s.(calls := s.calls + [CallOf(s, Nothing)])
    ensures Decide(t, s).Go? ==>
      var w, x, r := Decide(t, s).write, Decide(t, s).rq, Dispatched(t, s);
      && x in LaneOf(s, w).sort && x in LaneOf(s, w).fifo && r.dispatched == s.dispatched + [x]
      && (forall z :: z in LaneOf(r, w).fifo <==> z in LaneOf(s, w).fifo && z != x)
      && LaneOf(r, !w).fifo == LaneOf(s, !w).fifo && LaneOf(r, !w).next == None
      && NextAbove(s.pos, LaneOf(s, w).sort, x, LaneOf(r, w).next)
      && if (s.read.next != None || s.write.next != None) && s.batching < t.fifoBatch then LaneOf(s, w).next == Some(x)
         else Picks(s, w, x) && (w <==> s.read.fifo == [] || (s.write.fifo != [] && s.starved >= t.writesStarved))
  {
    if InBatch(t, s) {
      assert s.read.next != None ==> s.read.next.value in s.read.fifo;
      assert s.write.next != None ==> s.write.next.value in s.write.fifo;
    } else if s.read.fifo != [] || s.write.fifo != [] {
      FindPicks(t, s, WritesFirst(t, s));
    }
    var c := Decide(t, s);
    if c.Go? {
      MovedOk(s.pos, s.expires, LaneOf(s, c.write), c.rq);
      MovedAbove(s.pos, LaneOf(s, c.write), c.rq);
    }
  }

  lemma GoesOut(t: Tunables, s: Sched)
    requires Lists(t, s) && Decide(t, s).Go?
    ensures Decide(t, s).rq in LaneOf(s, Decide(t, s).write).sort
    ensures Decide(t, s).rq in LaneOf(s, Decide(t, s).write).fifo
  {
    DispatchPicks(t, s);
  }

  lemma DispatchLists(t: Tunables, s: Sched)
    requires Lists(t, s)
    ensures Lists(t, Dispatched(t, s))
  {
    var c := Decide(t, s);
    if c.Go? {
      GoesOut(t, s);
      MovedLists(t, Called(s, c), c.write, c.rq);
    }
  }

  /** Every call keeps the rules. */
  lemma CallRight(t: Tunables, s: Sched)
    requires Ok(t, s)
    ensures CallOk(t.writesStarved, t.fifoBatch, s.calls, CallOf(s, Decide(t, s)))
  {
    AheadAtMost(t.writesStarved, t.fifoBatch, s.calls);
    DispatchPicks(t, s);
  }

  lemma DispatchPatient(t: Tunables, s: Sched)
    requires Ok(t, s)
    ensures Patient(t, Dispatched(t, s))
  {
    var c := CallOf(s, Decide(t, s));
    CallRight(t, s);
    RulesMore(t.writesStarved, t.fifoBatch, s.calls, c);
    CountsMore(s.calls, c);
  }

  lemma SortInRest(s: Sched, w: bool, x: nat, p: int)
    ensures var r := SortIn(s, w, x, p); r.starved == s.starved && r.batching == s.batching && r.calls == s.calls
    decreases |LaneOf(s, w).sort|
  {
    var a := AliasOf(s.pos, LaneOf(s, w).sort, p);
    if a == None {
    } else {
      SortInRest(MoveRq(s, w, a.value), w, x, p);
    }
  }

  lemma StepLists(t: Tunables, s: Sched, l: Label)
    requires Lists(t, s) && Enabled(s, l)
    ensures Lists(t, Next(t, s, l))
  {
    match l {
      case Add(w, x, p) =>
        NewSorted(t, s, w, x, p);
        AddOk(t, s, SortIn(s.(sorted := s.sorted + 1), w, x, p), w, x, p);
      case FrontMerge(w, x, p) => FrontMergeOk(t, s, w, x, p);
      case Merge(w, r, n) => MergeOk(t, s, w, r, n);
      case Tick(n) =>
      case Dispatch => DispatchLists(t, s);
    }
  }

  lemma SamePatient(t: Tunables, s: Sched, r: Sched)
    requires Patient(t, s) && r.calls == s.calls && r.starved == s.starved && r.batching == s.batching
    ensures Patient(t, r)
  {
  }

  lemma OtherPatient(t: Tunables, s: Sched, l: Label)
    requires Patient(t, s) && l != Dispatch
    ensures Patient(t, Next(t, s, l))
  {
    match l {
      case Add(w, x, p) => SortInRest(s.(sorted := s.sorted + 1), w, x, p);
      case FrontMerge(w, x, p) => SortInRest(Off(s, w, x), w, x, p);
      case _ =>
    }
    SamePatient(t, s, Next(t, s, l));
  }

  lemma StepPatient(t: Tunables, s: Sched, l: Label)
    requires Ok(t, s)
    ensures Patient(t, Next(t, s, l))
  {
    if l == Dispatch { DispatchPatient(t, s); } else { OtherPatient(t, s, l); }
  }

  lemma StepOk(t: Tunables, s: Sched, l: Label)
    requires Ok(t, s) && Enabled(s, l)
    ensures Ok(t, Next(t, s, l))
  {
    StepLists(t, s, l);
    StepPatient(t, s, l);
  }

  lemma IdleOk(t: Tunables)
    ensures Ok(t, IDLE)
  {
  }

  lemma {:induction false} RunOk(t: Tunables, s: Sched, labels: seq<Label>)
    requires Ok(t, s) && IsRun(t, s, labels)
    ensures Ok(t, After(t, s, labels))
    decreases |labels|
  {
    if labels == [] {
    } else {
      StepOk(t, s, labels[0]);
      RunOk(t, Next(t, s, labels[0]), labels[1..]);
    }
  }

  // ----- nothing is lost or doubled

  /** What the scheduler has and what it has given away. */
  function Everything(s: Sched): multiset<nat> {
    multiset(s.dispatched) + multiset(s.read.fifo) + multiset(s.write.fifo)
  }

  function Arrived(l: Label): multiset<nat> { if l.Add? then multiset{l.rq} else multiset{} }

  function Absorbed(l: Label): multiset<nat> { if l.Merge? then multiset{l.gone} else multiset{} }

  lemma MoveConserves(s: Sched, w: bool, y: nat)
    requires y in LaneOf(s, w).fifo
    ensures Everything(MoveRq(s, w, y)) == Everything(s)
  {
    WithoutMultiset(LaneOf(s, w).fifo, y);
  }

  lemma SortInConserves(t: Tunables, s: Sched, w: bool, x: nat, p: int)
    requires ListsBut(t, s, w, x)
    ensures Everything(SortIn(s, w, x, p)) == Everything(s)
  {
    SortedIn(t, s, w, x, p);
    var out := Aliases(s, w, p);
    if out != [] { WithoutMultiset(LaneOf(s, w).fifo, out[0]); }
  }

  lemma TakeOverConserves(t: Tunables, s: Sched, w: bool, r: nat, n: nat)
    requires Lists(t, s) && Enabled(s, Merge(w, r, n))
    ensures Everything(TakenOver(s, w, r, n)) == Everything(s)
  {
    if n in Without(LaneOf(s, w).fifo, r) { TakePlaceMultiset(LaneOf(s, w).fifo, r, n); }
  }

  lemma RemoveConserves(s: Sched, w: bool, n: nat)
    requires n in LaneOf(s, w).fifo
    ensures Everything(SetLane(s, w, Removed(LaneOf(s, w), n))) + multiset{n} == Everything(s)
  {
    WithoutMultiset(LaneOf(s, w).fifo, n);
  }

  lemma MergeConserves(t: Tunables, s: Sched, w: bool, r: nat, n: nat)
    requires Lists(t, s) && Enabled(s, Merge(w, r, n))
    ensures Everything(Merged(s, w, r, n)) + multiset{n} == Everything(s)
  {
    TakenOverOk(t, s, w, r, n);
    TakeOverConserves(t, s, w, r, n);
    RemoveConserves(TakenOver(s, w, r, n), w, n);
  }

  lemma EnqueueConserves(t: Tunables, s: Sched, w: bool, x: nat, before: multiset<nat>)
    requires Everything(s) == before
    ensures Everything(Enqueued(t, s, w, x)) == before + multiset{x}
  {
  }

  lemma NewConserves(t: Tunables, s: Sched, w: bool, x: nat, p: int)
    requires Lists(t, s) && x !in s.read.fifo && x !in s.write.fifo
    ensures Everything(SortIn(s.(sorted := s.sorted + 1), w, x, p)) == Everything(s)
  {
    NewOff(t, s, w, x);
    SortInConserves(t, s.(sorted := s.sorted + 1), w, x, p);
  }

  lemma AddConserves(t: Tunables, s: Sched, w: bool, x: nat, p: int)
    requires Everything(SortIn(s.(sorted := s.sorted + 1), w, x, p)) == Everything(s)
    ensures Everything(Added(t, s, w, x, p)) == Everything(s) + multiset{x}
  {
    EnqueueConserves(t, SortIn(s.(sorted := s.sorted + 1), w, x, p), w, x, Everything(s));
  }

  lemma FrontMergeConserves(t: Tunables, s: Sched, w: bool, x: nat, p: int)
    requires Lists(t, s) && x in LaneOf(s, w).sort
    ensures Everything(SortIn(Off(s, w, x), w, x, p)) == Everything(s)
  {
    TakenOff(t, s, w, x);
    SortInConserves(t, Off(s, w, x), w, x, p);
  }

  lemma DispatchConserves(t: Tunables, s: Sched)
    requires Lists(t, s)
    ensures Everything(Dispatched(t, s)) == Everything(s)
  {
    var c := Decide(t, s);
    if c.Go? {
      GoesOut(t, s);
      MoveConserves(Called(s, c), c.write, c.rq);
    }
  }

  lemma StepConserves(t: Tunables, s: Sched, l: Label)
    requires Lists(t, s) && Enabled(s, l)
    ensures Everything(Next(t, s, l)) + Absorbed(l) == Everything(s) + Arrived(l)
  {
    match l {
      case Add(w, x, p) =>
        NewConserves(t, s, w, x, p);
        AddConserves(t, s, w, x, p);
      case FrontMerge(w, x, p) => FrontMergeConserves(t, s, w, x, p);
      case Merge(w, r, n) => MergeConserves(t, s, w, r, n);
      case Tick(n) =>
      case Dispatch => DispatchConserves(t, s);
    }
  }

  lemma Balance(start: multiset<nat>, mid: multiset<nat>, end: multiset<nat>, lost: multiset<nat>, lost': multiset<nat>,
                got: multiset<nat>, got': multiset<nat>)
    requires mid + lost == start + got && end + lost' == mid + got'
    ensures end + (lost + lost') == start + (got + got')
  {
    calc {
      end + (lost + lost');
      (end + lost') + lost;
      (mid + lost) + got';
      start + (got + got');
    }
  }

  function AllArrived(labels: seq<Label>): multiset<nat> {
    if labels == [] then multiset{} else Arrived(labels[0]) + AllArrived(labels[1..])
  }

  function AllAbsorbed(labels: seq<Label>): multiset<nat> {
    if labels == [] then multiset{} else Absorbed(labels[0]) + AllAbsorbed(labels[1..])
  }

  function Dispatches(labels: seq<Label>): nat {
    if labels == [] then 0 else (if labels[0] == Dispatch then 1 else 0) + Dispatches(labels[1..])
  }

  lemma {:induction false} RunConserves(t: Tunables, s: Sched, labels: seq<Label>)
    requires Ok(t, s) && IsRun(t, s, labels)
    ensures Everything(After(t, s, labels)) + AllAbsorbed(labels) == Everything(s) + AllArrived(labels)
    decreases |labels|
  {
    if labels == [] {
    } else {
      StepOk(t, s, labels[0]);
      StepConserves(t, s, labels[0]);
      var m := Next(t, s, labels[0]);
      RunConserves(t, m, labels[1..]);
      Balance(Everything(s), Everything(m), Everything(After(t, m, labels[1..])), Absorbed(labels[0]),
              AllAbsorbed(labels[1..]), Arrived(labels[0]), AllArrived(labels[1..]));
    }
  }

  lemma StepCalls(t: Tunables, s: Sched, l: Label)
    ensures |Next(t, s, l).calls| == |s.calls| + if l == Dispatch then 1 else 0
  {
    match l {
      case Add(w, x, p) => SortInRest(s.(sorted := s.sorted + 1), w, x, p);
      case FrontMerge(w, x, p) =>
        SortInRest(Off(s, w, x), w, x, p);
      case _ =>
    }
  }

  lemma {:induction false} RunCalls(t: Tunables, s: Sched, labels: seq<Label>)
    ensures |After(t, s, labels).calls| == |s.calls| + Dispatches(labels)
    decreases |labels|
  {
    if labels == [] {
    } else {
      StepCalls(t, s, labels[0]);
      RunCalls(t, Next(t, s, labels[0]), labels[1..]);
    }
  }

  // ----- the main results

  /** Every run: both indexes agree; what is queued or dispatched, with what was absorbed by merges, is what arrived,
      each as often. */
  lemma NothingLost(t: Tunables, labels: seq<Label>)
    requires IsRun(t, IDLE, labels)
    ensures var s := After(t, IDLE, labels); Lists(t, s) && Everything(s) + AllAbsorbed(labels) == AllArrived(labels)
  {
    IdleOk(t);
    RunOk(t, IDLE, labels);
    RunConserves(t, IDLE, labels);
  }

  /** Every run, whatever arrives or is merged in between: there is a call in the log for every dispatch, and every call
      keeps the rules. */
  lemma TurnsAreTaken(t: Tunables, labels: seq<Label>)
    requires IsRun(t, IDLE, labels)
    ensures var s := After(t, IDLE, labels);
            |s.calls| == Dispatches(labels) && Rules(t.writesStarved, t.fifoBatch, s.calls)
  {
    IdleOk(t);
    RunOk(t, IDLE, labels);
    RunCalls(t, IDLE, labels);
  }

  /** So among any (writes_starved + 1) * max(1, fifo_batch) + 1 dispatches in a row that find writes waiting one takes
      a write, and if writes_starved is not 0, among any 2 * max(1, fifo_batch) + 1 that find reads waiting one takes a
      read. */
  lemma NobodyStarves(t: Tunables, labels: seq<Label>)
    requires IsRun(t, IDLE, labels)
    ensures var calls := After(t, IDLE, labels).calls;
            && Unstarved(calls, true, (t.writesStarved + 1) * t.Batch())
            && (t.writesStarved > 0 ==> Unstarved(calls, false, 2 * t.Batch()))
  {
    TurnsAreTaken(t, labels);
    var calls := After(t, IDLE, labels).calls;
    RulesBound(t.writesStarved, t.fifoBatch, t.Batch(), true, calls);
    if t.writesStarved > 0 { RulesBound(t.writesStarved, t.fifoBatch, t.Batch(), false, calls); }
  }

  // ----- with writes_starved 0 reads may starve

  /** Reads are waiting, no writes are, and no batch is running. */
  predicate ReadsOnly(s: Sched) { s.read.fifo != [] && s.write == NO_REQUESTS && s.read.next == None }

  /** A write that comes is taken at once, past the reads. */
  lemma WriteOvertakes(t: Tunables, s: Sched, x: nat, p: int)
    requires t.writesStarved == 0 && ReadsOnly(s) && x !in s.read.fifo
    ensures var m := Next(t, s, Add(true, x, p)); var r := Next(t, m, Dispatch);
            && Enabled(s, Add(true, x, p)) && ReadsOnly(r) && r.read == s.read
            && r.calls == s.calls + [Call(true, true, false, true, true, true)]
  {
    var s0, m := s.(sorted := s.sorted + 1), Next(t, s, Add(true, x, p));
    assert SortIn(s0, true, x, p).write.sort == [x];
    assert m.write == Lane([x], [x], None) && m.read == s.read && !InBatch(t, m);
    assert Decide(t, m) == Go(true, x, true, 0);
    assert Without([x], x) == [] && Latter([x], x) == None;
  }

  function Overtakings(x: nat, n: nat): seq<Label> {
    if n == 0 then [] else [Add(true, x, 0), Dispatch] + Overtakings(x, n - 1)
  }

  lemma TwoSteps(t: Tunables, s: Sched, a: Label, b: Label, rest: seq<Label>)
    requires Enabled(s, a) && Enabled(Next(t, s, a), b) && IsRun(t, Next(t, Next(t, s, a), b), rest)
    ensures IsRun(t, s, [a, b] + rest) && After(t, s, [a, b] + rest) == After(t, Next(t, Next(t, s, a), b), rest)
  {
    var m := Next(t, s, a);
    OneStep(t, m, b, Next(t, m, b), rest);
    OneStep(t, s, a, m, [b] + rest);
    assert [a] + ([b] + rest) == [a, b] + rest;
  }

  lemma OneStep(t: Tunables, s: Sched, a: Label, r: Sched, rest: seq<Label>)
    requires Enabled(s, a) && r == Next(t, s, a) && IsRun(t, r, rest)
    ensures IsRun(t, s, [a] + rest) && After(t, s, [a] + rest) == After(t, r, rest)
  {
    assert ([a] + rest)[1..] == rest;
  }

  lemma {:induction false} Overtaken(t: Tunables, s: Sched, x: nat, n: nat)
    requires t.writesStarved == 0 && ReadsOnly(s) && x !in s.read.fifo
    ensures var labels := Overtakings(x, n); var r := After(t, s, labels);
            && IsRun(t, s, labels) && |r.calls| == |s.calls| + n && r.calls[..|s.calls|] == s.calls
            && PassedOver(r.calls[|s.calls|..], false)
    decreases n
  {
    var labels := Overtakings(x, n);
    if n == 0 {
    } else {
      WriteOvertakes(t, s, x, 0);
      var m := Next(t, s, Add(true, x, 0));
      var r := Next(t, m, Dispatch);
      Overtaken(t, r, x, n - 1);
      TwoSteps(t, s, Add(true, x, 0), Dispatch, Overtakings(x, n - 1));
      OneMorePassed(s.calls, r.calls, After(t, r, Overtakings(x, n - 1)).calls);
    }
  }

  lemma OneMorePassed(start: seq<Call>, mid: seq<Call>, calls: seq<Call>)
    requires |start| + 1 == |mid| <= |calls| && mid[..|start|] == start && Passes(mid[|start|], false)
    requires calls[..|mid|] == mid && PassedOver(calls[|mid|..], false)
    ensures calls[..|start|] == start && PassedOver(calls[|start|..], false)
  {
    assert calls[..|start|] == calls[..|mid|][..|start|];
    forall k | 0 <= k < |calls[|start|..]| ensures Passes(calls[|start|..][k], false) {
      if k > 0 { assert calls[|start|..][k] == calls[|mid|..][k - 1]; }
          else { assert calls[|start|] == calls[..|mid|][|start|]; }
    }
  }

  /** For any n there is a run that passes over a waiting read n times in a row. */
  lemma ReadsStarve(t: Tunables, n: nat)
    requires t.writesStarved == 0
    ensures var labels := [Add(false, 0, 0)] + Overtakings(1, n);
            IsRun(t, IDLE, labels) && var calls := After(t, IDLE, labels).calls; |calls| == n
                                                                                 && PassedOver(calls, false)
  {
    var labels := [Add(false, 0, 0)] + Overtakings(1, n);
    var s := Next(t, IDLE, Add(false, 0, 0));
    assert labels[0] == Add(false, 0, 0) && labels[1..] == Overtakings(1, n);
    assert s.read.fifo == [0] && ReadsOnly(s);
    Overtaken(t, s, 1, n);
    assert After(t, s, Overtakings(1, n)).calls[0..] == After(t, s, Overtakings(1, n)).calls;
  }
}
