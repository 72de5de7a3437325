/** The deadline scheduler (block/deadline-iosched.c) in place: every operation takes the step of the run. */
module Deadline {
  import opened Basics
  import opened Lanes
  import opened DeadlineLog
  import opened DeadlineSteps

  class DeadlineQueue {
    const tunables: Tunables

    /** Start sector and expiry of each request, jiffies, and the two directions. */
    var pos: map<nat, int>
    var expires: map<nat, int>
    var now: int
    var readLane: Lane
    var writeLane: Lane
    var batching: nat
    var starved: nat
    /** nr_sorted and the dispatch queue. */
    var sorted: int
    var dispatched: seq<nat>
    /** The calls of deadline_dispatch_requests so far. */
    ghost var calls: seq<Call>

    ghost function State(): Sched
      reads this
    {
      Sched(pos, expires, now, readLane, writeLane, batching, starved, sorted, dispatched, calls)
    }

    function Of(w: bool): Lane
      reads this
    {
      if w then writeLane else readLane
    }

    constructor (tunables: Tunables)
      ensures State() == IDLE && this.tunables == tunables
    {
      this.tunables := tunables;
      pos, expires, now := map[], map[], 0;
      readLane, writeLane := Lane([], [], None), Lane([], [], None);
      batching, starved, sorted, dispatched, calls := 0, 0, 0, [], [];
    }

    method Set(w: bool, l: Lane)
      modifies `readLane, `writeLane
      ensures State() == SetLane(old(State()), w, l)
    {
      if w { writeLane := l; } else { readLane := l; }
    }

    /** deadline_remove_request: off both lists; the next request moves on if it was this one. */
    method RemoveRequest(w: bool, x: nat)
      modifies `readLane, `writeLane
      ensures State() == SetLane(old(State()), w, Removed(LaneOf(old(State()), w), x))
    {
      var l := Of(w);
      if l.next == Some(x) { l := l.(next := Latter(l.sort, x)); }
      Set(w, l.(sort := Without(l.sort, x), fifo := Without(l.fifo, x)));
    }

    /** deadline_move_request. */
    method MoveRequest(w: bool, y: nat)
      modifies `readLane, `writeLane, `sorted, `dispatched
      ensures State() == MoveRq(old(State()), w, y)
    {
      readLane := readLane.(next := None);
      writeLane := writeLane.(next := None);
      Set(w, Of(w).(next := Latter(Of(w).sort, y)));
      RemoveRequest(w, y);
      sorted := sorted - 1;
      dispatched := dispatched + [y];
    }

    /** deadline_add_rq_rb. */
    method AddRb(w: bool, x: nat, p: int)
      modifies `pos, `readLane, `writeLane, `sorted, `dispatched
      ensures State() == SortIn(old(State()), w, x, p)
    {
      var i: nat, alias := FindPlace(pos, Of(w).sort, p);
      while alias != None
        invariant SortIn(State(), w, x, p) == SortIn(old(State()), w, x, p)
        invariant i == PlaceOf(pos, Of(w).sort, p) && alias == AliasOf(pos, Of(w).sort, p)
        decreases |Of(w).sort|
      {
        MoveRequest(w, alias.value);
        i, alias := FindPlace(pos, Of(w).sort, p);
      }
      Set(w, Of(w).(sort := Inserted(Of(w).sort, i, x)));
      pos := pos[x := p];
    }

    /** elv_insert for a sorted request, and deadline_add_request. */
    method AddRequest(w: bool, x: nat, p: int)
      modifies `pos, `expires, `readLane, `writeLane, `sorted, `dispatched
      ensures State() == Next(tunables, old(State()), Add(w, x, p))
    {
      sorted := sorted + 1;
      AddRb(w, x, p);
      Enqueue(w, x);
    }

    method Enqueue(w: bool, x: nat)
      modifies `expires, `readLane, `writeLane
      ensures State() == Enqueued(tunables, old(State()), w, x)
    {
      expires := expires[x := now + tunables.Expire(w)];
      Set(w, Of(w).(fifo := Of(w).fifo + [x]));
    }

    /** deadline_merged_request after a front merge: the request now starts at sector p. */
    method MergedRequest(w: bool, x: nat, p: int)
      modifies `pos, `readLane, `writeLane, `sorted, `dispatched
      ensures State() == Next(tunables, old(State()), FrontMerge(w, x, p))
    {
      Set(w, Of(w).(sort := Without(Of(w).sort, x)));
      AddRb(w, x, p);
    }

    /** deadline_merged_requests, and the count kept by elv_merge_requests: `n` has been merged into `r`. */
    method MergedRequests(w: bool, r: nat, n: nat)
      modifies `expires, `readLane, `writeLane, `sorted
      ensures State() == Next(tunables, old(State()), Merge(w, r, n))
    {
      if n in Without(Of(w).fifo, r) && Key(expires, n) < Key(expires, r) {
        Set(w, Of(w).(fifo := TakePlace(Of(w).fifo, r, n)));
        expires := expires[r := Key(expires, n)];
      }
      RemoveRequest(w, n);
      sorted := sorted - 1;
    }

    /** dispatch_find_request: the head of the FIFO if it has expired or there is no next request. */
    method FindRequest(w: bool) returns (x: nat)
      requires Of(w).fifo != []
      ensures x == Find(State(), w)
    {
      x := Of(w).fifo[0];
      if Key(expires, x) >= now && Of(w).next != None { x := Of(w).next.value; }
    }

    /** deadline_dispatch_requests. */
    method DispatchRequests() returns (ok: bool)
      modifies `readLane, `writeLane, `sorted, `dispatched, `batching, `starved, `calls
      ensures State() == Next(tunables, old(State()), Dispatch)
      ensures ok == old(Decide(tunables, State()).Go?)
    {
      var w, x;
      ghost var s := State();
      ok, w, x := Choose();
      calls := calls + [CallOf(s, Decide(tunables, s))];
      if ok { MoveRequest(w, x); }
    }

    /** The choices of deadline_dispatch_requests. */
    method Choose() returns (ok: bool, w: bool, x: nat)
      modifies `batching, `starved
      ensures var s := old(State());
              match Decide(tunables, s)
              case Nothing => !ok && State() == s
              case Go(w', x', starts, st) =>
                ok && w == w' && x == x'
                && State() == s.(batching := if starts then 1 else s.batching + 1, starved := st)
    {
      var hasReads, hasWrites := readLane.fifo != [], writeLane.fifo != [];
      w := writeLane.next != None;
      if (readLane.next != None || writeLane.next != None) && batching < tunables.fifoBatch {
        x := if w then writeLane.next.value else readLane.next.value;
      } else {
        if !hasReads && !hasWrites { return false, false, 0; }
        w := !hasReads;
        if hasReads && hasWrites {
          starved := starved + 1;
          w := starved > tunables.writesStarved;
        }
        if w { starved := 0; }
        x := FindRequest(w);
        batching := 0;
      }
      batching := batching + 1;
      ok := true;
    }

    /** elv_drain_elevator: everything goes to the dispatch queue, each request once. */
    method Drain()
      requires Ok(tunables, State())
      modifies `readLane, `writeLane, `sorted, `dispatched, `batching, `starved, `calls
      ensures Ok(tunables, State()) && sorted == 0 && readLane.fifo == [] && writeLane.fifo == []
      ensures old(dispatched) <= dispatched && multiset(dispatched) == old(Everything(State()))
    {
      var more := true;
      while more
        invariant Ok(tunables, State()) && old(dispatched) <= dispatched
                  && Everything(State()) == old(Everything(State()))
        invariant !more ==> readLane.fifo == [] && writeLane.fifo == []
        decreases sorted, more
      {
        DrainStep(tunables, State());
        more := DispatchRequests();
      }
      EmptyLane(pos, expires, readLane);
      EmptyLane(pos, expires, writeLane);
    }
  }

  /** One dispatch of a drain. */
  lemma DrainStep(t: Tunables, s: Sched)
    requires Ok(t, s)
    ensures var r := Next(t, s, Dispatch);
            && Ok(t, r) && Everything(r) == Everything(s) && s.dispatched <= r.dispatched && r.sorted >= 0
            && if Decide(t, s).Go? then r.sorted == s.sorted - 1
               else r.sorted == s.sorted && r.read.fifo == [] && r.write.fifo == []
  {
    StepOk(t, s, Dispatch);
    DispatchConserves(t, s);
    DispatchPicks(t, s);
  }
}
