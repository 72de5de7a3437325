/** Who gets a turn from the deadline scheduler (deadline_dispatch_requests in block/deadline-iosched.c), read off the
    log of its calls: rules that every single call keeps, and how long they let either direction wait. */
module DeadlineLog {

  /** A call of deadline_dispatch_requests: whether reads and writes were waiting, whether there was a next request to
      go on with, whether a request went out, whether that was a write, and whether a batch was started with it. */
  datatype Call = Call(readsWait: bool, writesWait: bool, more: bool, ok: bool, wrote: bool, starts: bool)

  /** How many batches of reads have been started past waiting writes since a batch of writes last was. */
  function ReadsAhead(calls: seq<Call>): nat {
    if calls == [] then 0
    else
      var n, c := ReadsAhead(calls[..|calls| - 1]), calls[|calls| - 1];
      if !c.starts then n else if c.wrote then 0 else if c.writesWait then n + 1 else n
  }

  /** How many requests have gone out since the last batch was started, the first one included. */
  function BatchSize(calls: seq<Call>): nat {
    if calls == [] then 0
    else
      var n, c := BatchSize(calls[..|calls| - 1]), calls[|calls| - 1];
      if !c.ok then n else if c.starts then 1 else n + 1
  }

  /** A request goes out if and only if one is waiting. If a batch is started it is one of writes exactly if no reads
      are waiting, or writes are and `limit` batches of reads have been started past them; and a batch goes on exactly
      if there is a next request and it has had fewer than `fifo` requests. */
  predicate CallOk(limit: nat, fifo: nat, before: seq<Call>, c: Call) {
    && (c.ok <==> c.readsWait || c.writesWait) && (c.starts ==> c.ok) && (c.wrote ==> c.ok && c.writesWait)
    && (c.ok && !c.wrote ==> c.readsWait)
    && (c.starts ==> (c.wrote <==> !c.readsWait || (c.writesWait && ReadsAhead(before) == limit)))
    && (c.ok ==> (c.starts <==> !(c.more && BatchSize(before) < fifo)))
  }

  predicate Rules(limit: nat, batch: nat, calls: seq<Call>) {
    forall i {:trigger CallOk(limit, batch, calls[..i], calls[i])} ::
      0 <= i < |calls| ==> CallOk(limit, batch, calls[..i], calls[i])
  }

  lemma RulesMore(limit: nat, batch: nat, calls: seq<Call>, c: Call)
    ensures Rules(limit, batch, calls + [c]) <==> Rules(limit, batch, calls) && CallOk(limit, batch, calls, c)
  {
    var all := calls + [c];
    assert all[..|calls|] == calls && all[|calls|] == c;
    forall i | 0 <= i < |calls| ensures all[..i] == calls[..i] && all[i] == calls[i] {}
    if Rules(limit, batch, all) {
      assert CallOk(limit, batch, all[..|calls|], all[|calls|]);
      forall i | 0 <= i < |calls| ensures CallOk(limit, batch, calls[..i], calls[i]) {
        assert CallOk(limit, batch, all[..i], all[i]);
      }
    }
    if Rules(limit, batch, calls) && CallOk(limit, batch, calls, c) {
      forall i | 0 <= i < |all| ensures CallOk(limit, batch, all[..i], all[i]) {
        if i < |calls| { assert CallOk(limit, batch, calls[..i], calls[i]); }
      }
    }
  }

  lemma CountsMore(calls: seq<Call>, c: Call)
    ensures var n := ReadsAhead(calls);
            ReadsAhead(calls + [c]) == if !c.starts then n else if c.wrote then 0 else if c.writesWait then n + 1 else n
    ensures var n := BatchSize(calls); BatchSize(calls + [c]) == if !c.ok then n else if c.starts then 1 else n + 1
  {
    assert (calls + [c])[..|calls|] == calls;
  }

  // ----- how long a direction may wait

  /** The direction was waiting and nothing of it went out. */
  predicate Passes(c: Call, write: bool) {
    if write then c.writesWait && !c.wrote else c.readsWait && (!c.ok || c.wrote)
  }

  predicate PassedOver(calls: seq<Call>, write: bool) { forall k :: 0 <= k < |calls| ==> Passes(calls[k], write) }

  /** Of consecutive calls that all pass over the direction there are at most `bound`. */
  predicate Unstarved(calls: seq<Call>, write: bool, bound: nat) {
    forall i, j {:trigger calls[i..j]} :: 0 <= i <= j <= |calls| && PassedOver(calls[i..j], write) ==> j - i <= bound
  }

  /** How many of the last calls passed over the direction. */
  function Streak(calls: seq<Call>, write: bool): nat {
    if calls == [] || !Passes(calls[|calls| - 1], write) then 0 else 1 + Streak(calls[..|calls| - 1], write)
  }

  lemma {:induction false} StreakCovers(calls: seq<Call>, write: bool, i: nat)
    requires i <= |calls| && PassedOver(calls[i..], write)
    ensures |calls| - i <= Streak(calls, write)
    decreases |calls|
  {
    if i == |calls| {
    } else {
      var front := calls[..|calls| - 1];
      assert calls[|calls| - 1] == calls[i..][|calls| - 1 - i];
      assert front[i..] == calls[i..][..|front| - i];
      StreakCovers(front, write, i);
    }
  }

  lemma OneMoreCall(calls: seq<Call>, write: bool, c: Call, bound: nat)
    requires Unstarved(calls, write, bound) && Streak(calls + [c], write) <= bound
    ensures Unstarved(calls + [c], write, bound)
  {
    var all := calls + [c];
    forall i, j {:trigger all[i..j]} | 0 <= i <= j <= |all| && PassedOver(all[i..j], write) ensures j - i <= bound {
      if j == |all| {
        assert all[i..j] == all[i..];
        StreakCovers(all, write, i);
      } else {
        assert all[i..j] == calls[i..j];
      }
    }
  }

  /** How many requests may still go out before one of the waiting direction does. */
  function Budget(limit: nat, batch: nat, write: bool, ahead: nat, size: nat): nat
    requires ahead <= limit
  {
    (if write then (limit - ahead) * batch else if ahead == limit then batch else 0)
    + if size < batch then batch - size else 0
  }

  function Bound(limit: nat, batch: nat, write: bool): nat { if write then (limit + 1) * batch else 2 * batch }

  lemma BudgetBound(limit: nat, batch: nat, write: bool, ahead: nat, size: nat)
    requires ahead <= limit
    ensures Budget(limit, batch, write, ahead, size) <= Bound(limit, batch, write)
  {
    assert (limit - ahead) * batch <= limit * batch;
  }

  /** A call that passes over the direction uses up some of it. Reads are looked after only if `limit` is positive. */
  lemma BudgetFalls(limit: nat, fifo: nat, batch: nat, write: bool, before: seq<Call>, c: Call)
    requires batch > 0 && fifo <= batch && ReadsAhead(before) <= limit && CallOk(limit, fifo, before, c)
             && Passes(c, write)
    requires write || limit > 0
    ensures var all := before + [c];
            && ReadsAhead(all) <= limit
            && Budget(limit, batch, write, ReadsAhead(all), BatchSize(all))
               < Budget(limit, batch, write, ReadsAhead(before), BatchSize(before))
  {
    CountsMore(before, c);
    var n := ReadsAhead(before);
    assert n < limit ==> (limit - n) * batch == (limit - (n + 1)) * batch + batch;
  }

  lemma AheadBounded(limit: nat, fifo: nat, before: seq<Call>, c: Call)
    requires ReadsAhead(before) <= limit && CallOk(limit, fifo, before, c)
    ensures ReadsAhead(before + [c]) <= limit
  {
    CountsMore(before, c);
  }

  /** What is left of the budget bounds the calls to come. */
  predicate Bounded(limit: nat, batch: nat, write: bool, calls: seq<Call>) {
    && ReadsAhead(calls) <= limit && Unstarved(calls, write, Bound(limit, batch, write))
    && Streak(calls, write) + Budget(limit, batch, write, ReadsAhead(calls), BatchSize(calls)) <= Bound(limit, batch,
         write)
  }

  lemma BoundedCall(limit: nat, fifo: nat, batch: nat, write: bool, calls: seq<Call>, c: Call)
    requires Bounded(limit, batch, write, calls) && CallOk(limit, fifo, calls, c)
    requires batch > 0 && fifo <= batch && (write || limit > 0)
    ensures Bounded(limit, batch, write, calls + [c])
  {
    var all := calls + [c];
    assert all[..|all| - 1] == calls;
    AheadBounded(limit, fifo, calls, c);
    if Passes(c, write) {
      BudgetFalls(limit, fifo, batch, write, calls, c);
    } else {
      BudgetBound(limit, batch, write, ReadsAhead(all), BatchSize(all));
    }
    OneMoreCall(calls, write, c, Bound(limit, batch, write));
  }

  lemma {:induction false} RulesBound(limit: nat, fifo: nat, batch: nat, write: bool, calls: seq<Call>)
    requires Rules(limit, fifo, calls) && batch > 0 && fifo <= batch && (write || limit > 0)
    ensures Bounded(limit, batch, write, calls)
  {
    if calls == [] {
      BudgetBound(limit, batch, write, 0, 0);
    } else {
      var front, c := calls[..|calls| - 1], calls[|calls| - 1];
      assert calls == front + [c];
      RulesMore(limit, fifo, front, c);
      RulesBound(limit, fifo, batch, write, front);
      BoundedCall(limit, fifo, batch, write, front, c);
    }
  }

  lemma {:induction false} AheadAtMost(limit: nat, fifo: nat, calls: seq<Call>)
    requires Rules(limit, fifo, calls)
    ensures ReadsAhead(calls) <= limit
  {
    if calls == [] {
    } else {
      var front, c := calls[..|calls| - 1], calls[|calls| - 1];
      assert calls == front + [c];
      RulesMore(limit, fifo, front, c);
      AheadAtMost(limit, fifo, front);
      AheadBounded(limit, fifo, front, c);
    }
  }
}
