/** The loop of blk_update_request (block/blk-core.c). */
module EndBytes {
  import opened Segments
  import opened Recount
  import opened Completion

  /** `k` vectors, `part` bytes, of the bio are done and `nr` bytes still to do. */
  ghost predicate Partway(b: Bio, k: nat, part: nat, nr: nat) {
    && part + nr < b.size && k <= |b.vecs| && part == Sum(b.vecs[..k])
    && Skip(b.vecs, part + nr) == Skip(b.vecs[k..], nr)
  }

  lemma Started(b: Bio, nr: nat)
    requires nr < b.size
    ensures Partway(b, 0, 0, nr)
  {
    assert b.vecs[..0] == [] && b.vecs[0..] == b.vecs;
  }

  lemma NotPastEnd(b: Bio, k: nat, part: nat, nr: nat)
    requires Filled(b) && Partway(b, k, part, nr)
    ensures k < |b.vecs|
  {
    assert b.vecs[..|b.vecs|] == b.vecs;
  }

  /** One more vector of the bio. */
  lemma NextVector(b: Bio, k: nat, part: nat, nr: nat)
    requires Partway(b, k, part, nr) && k < |b.vecs| && b.vecs[k].len <= nr && nr > 0
    ensures Partway(b, k + 1, part + b.vecs[k].len, nr - b.vecs[k].len)
  {
    var v := b.vecs[k];
    assert b.vecs[..k + 1] == b.vecs[..k] + [v];
    SumPlus(b.vecs[..k], [v]);
    assert Sum([v]) == v.len by { assert Front([v]) == []; }
    assert b.vecs[k..][0] == v && b.vecs[k..][1..] == b.vecs[k + 1..];
  }

  /** What the loop has still to do. */
  ghost predicate Underway(goal: Progress, failed: bool, rest: seq<Bio>, ended: seq<Ended>, n: nat) {
    goal.rest == Advance(rest, n, failed).rest && goal.ended == ended + Advance(rest, n, failed).ended
  }

  lemma EndFirst(goal: Progress, failed: bool, rest: seq<Bio>, ended: seq<Ended>, n: nat)
    requires Underway(goal, failed, rest, ended, n) && rest != [] && rest[0].size <= n
    ensures Underway(goal, failed, rest[1..], ended + [End(rest[0], failed)], n - rest[0].size)
  {
    var r := Advance(rest[1..], n - rest[0].size, failed).ended;
    assert (ended + [End(rest[0], failed)]) + r == ended + ([End(rest[0], failed)] + r);
  }

  /** req_bio_endio for part of a bio, and the move to its next vector. */
  method EndPart(b: Bio, k: nat, bytes: nat, nr: nat, failed: bool) returns (r: Bio)
    requires 0 < bytes < b.size && k < |b.vecs| && Skip(b.vecs, bytes) == Skip(b.vecs[k..], nr)
    requires nr == 0 || nr < b.vecs[k].len
    ensures r == AdvanceBio(b, bytes, failed)
  {
    var v := b.vecs[k];
    assert b.vecs[k..] == [v] + b.vecs[k + 1..];
    var head := Vec(v.page, v.offset + nr, v.len - nr);
    r := b.(uptodate := b.uptodate && !failed, size := b.size - bytes, sector := b.sector + bytes / SECTOR,
            vecs := [head] + b.vecs[k + 1..]);
  }

  /** The state of the loop. */
  datatype State = State(rest: seq<Bio>, ended: seq<Ended>, k: nat, part: nat, nr: nat)

  ghost predicate InLoop(goal: Progress, failed: bool, s: State) {
    && AllFilled(s.rest) && Underway(goal, failed, s.rest, s.ended, s.part + s.nr)
    && (s.k == 0 ==> s.part == 0)
    && (s.k > 0 ==> s.rest != [] && Partway(s.rest[0], s.k, s.part, s.nr) && s.nr > 0)
  }

  /** Out of the loop with bios left: `part` bytes of the first are done, the last `nr` of them in vector `k`. */
  ghost predicate Stopped(goal: Progress, failed: bool, s: State) {
    && s.rest != [] && s.part < s.rest[0].size && s.nr <= s.part
    && goal == Progress([AdvanceBio(s.rest[0], s.part, failed)] + s.rest[1..], s.ended)
    && (s.part > 0 ==> && s.k < |s.rest[0].vecs| && Skip(s.rest[0].vecs, s.part) == Skip(s.rest[0].vecs[s.k..], s.nr)
                       && (s.nr == 0 || s.nr < s.rest[0].vecs[s.k].len))
  }

  lemma Whole1(goal: Progress, failed: bool, s: State)
    requires InLoop(goal, failed, s) && s.rest != [] && s.rest[0].size <= s.nr
    ensures var t := State(s.rest[1..], s.ended + [End(s.rest[0], failed)], 0, 0, s.nr - s.rest[0].size);
            InLoop(goal, failed, t) && s.part == 0 && (t.nr == 0 && t.rest != [] ==> Stopped(goal, failed, t))
  {
    EndFirst(goal, failed, s.rest, s.ended, s.nr);
    var rest := s.rest[1..];
    assert rest != [] ==> Filled(rest[0]) && [rest[0]] + rest[1..] == rest;
  }

  lemma Within(goal: Progress, failed: bool, s: State)
    requires InLoop(goal, failed, s) && s.rest != [] && s.nr < s.rest[0].size
    ensures Partway(s.rest[0], s.k, s.part, s.nr) && s.k < |s.rest[0].vecs|
    ensures goal == Progress([AdvanceBio(s.rest[0], s.part + s.nr, failed)] + s.rest[1..], s.ended)
  {
    var b := s.rest[0];
    assert Filled(b);
    if s.k == 0 { Started(b, s.nr); }
    NotPastEnd(b, s.k, s.part, s.nr);
    assert s.ended + [] == s.ended;
  }

  lemma InVector(goal: Progress, failed: bool, s: State)
    requires InLoop(goal, failed, s) && s.rest != [] && s.nr < s.rest[0].size
    requires s.k < |s.rest[0].vecs| && s.nr < s.rest[0].vecs[s.k].len
    ensures Stopped(goal, failed, s.(part := s.part + s.nr))
  {
    Within(goal, failed, s);
  }

  lemma PastVector(goal: Progress, failed: bool, s: State)
    requires InLoop(goal, failed, s) && s.rest != [] && s.nr < s.rest[0].size
    requires s.k < |s.rest[0].vecs| && s.rest[0].vecs[s.k].len <= s.nr
    ensures var v := s.rest[0].vecs[s.k];
            var t := s.(k := s.k + 1, part := s.part + v.len, nr := s.nr - v.len);
            if t.nr == 0 then Stopped(goal, failed, t) else InLoop(goal, failed, t)
  {
    var len := s.rest[0].vecs[s.k].len;
    Within(goal, failed, s);
    assert Filled(s.rest[0]);
    if s.nr > len {
      GoesOn(goal, failed, s);
    } else if s.nr > 0 {
      NextVector(s.rest[0], s.k, s.part, s.nr);
      LastVector(goal, failed, s);
    }
  }

  lemma GoesOn(goal: Progress, failed: bool, s: State)
    requires InLoop(goal, failed, s) && s.rest != [] && Partway(s.rest[0], s.k, s.part, s.nr)
    requires s.k < |s.rest[0].vecs| && s.rest[0].vecs[s.k].len < s.nr
    ensures var len := s.rest[0].vecs[s.k].len; InLoop(goal, failed,
                                                       s.(k := s.k + 1, part := s.part + len, nr := s.nr - len))
  {
    var len := s.rest[0].vecs[s.k].len;
    NextVector(s.rest[0], s.k, s.part, s.nr);
    assert s.part + s.nr == s.part + len + (s.nr - len);
  }

  lemma LastVector(goal: Progress, failed: bool, s: State)
    requires s.rest != [] && s.nr > 0 && s.nr < s.rest[0].size && Filled(s.rest[0])
    requires s.k < |s.rest[0].vecs| && s.rest[0].vecs[s.k].len == s.nr && Partway(s.rest[0], s.k + 1, s.part + s.nr, 0)
    requires goal == Progress([AdvanceBio(s.rest[0], s.part + s.nr, failed)] + s.rest[1..], s.ended)
    ensures Stopped(goal, failed, s.(k := s.k + 1, part := s.part + s.nr, nr := 0))
  {
    NotPastEnd(s.rest[0], s.k + 1, s.part + s.nr, 0);
  }

  lemma HasVector(goal: Progress, failed: bool, s: State)
    requires InLoop(goal, failed, s) && s.rest != [] && s.nr < s.rest[0].size
    ensures s.k < |s.rest[0].vecs|
  {
    Within(goal, failed, s);
  }

  /** One pass of the loop; `stop` if it breaks out. */
  method EndNext(ghost goal: Progress, failed: bool, s: State) returns (t: State, done: nat, stop: bool)
    requires s.rest != [] && InLoop(goal, failed, s)
    ensures !stop ==> InLoop(goal, failed, t) && done + t.nr == s.nr
    ensures !stop ==> |t.rest| < |s.rest| || (t.rest == s.rest && s.k < t.k <= |s.rest[0].vecs|)
    ensures stop ==> Stopped(goal, failed, t) && done == s.nr
  {
    if s.nr >= s.rest[0].size {
      Whole1(goal, failed, s);
      done := s.rest[0].size;
      t := State(s.rest[1..], s.ended + [End(s.rest[0], failed)], 0, 0, s.nr - done);
      stop := t.rest != [] && t.nr == 0;
    } else {
      t, done, stop := EndVector(goal, failed, s);
    }
  }

  method EndVector(ghost goal: Progress, failed: bool, s: State) returns (t: State, done: nat, stop: bool)
    requires s.rest != [] && InLoop(goal, failed, s) && s.nr < s.rest[0].size
    ensures !stop ==> InLoop(goal, failed, t) && done + t.nr == s.nr && t.rest == s.rest
                      && s.k < t.k <= |s.rest[0].vecs|
    ensures stop ==> Stopped(goal, failed, t) && done == s.nr
  {
    HasVector(goal, failed, s);
    done := s.rest[0].vecs[s.k].len;
    if done > s.nr {
      InVector(goal, failed, s);
      return s.(part := s.part + s.nr), s.nr, true;
    }
    PastVector(goal, failed, s);
    t := s.(k := s.k + 1, part := s.part + done, nr := s.nr - done);
    stop := t.nr == 0;
  }

  method EndBios(bs: seq<Bio>, n: nat, failed: bool) returns (rest: seq<Bio>, ended: seq<Ended>, total: nat)
    requires AllFilled(bs)
    ensures Progress(rest, ended) == Advance(bs, n, failed)
    ensures rest != [] ==> total == n
  {
    ghost var goal := Advance(bs, n, failed);
    var s := State(bs, [], 0, 0, n);
    assert [] + goal.ended == goal.ended;
    total := 0;
    var stop := false;
    while s.rest != [] && !stop
      invariant total + (if stop then 0 else s.nr) == n
      invariant if stop then Stopped(goal, failed, s) else InLoop(goal, failed, s)
      decreases !stop, |s.rest|, if s.rest == [] then 0 else |s.rest[0].vecs| - s.k
    {
      var done;
      s, done, stop := EndNext(goal, failed, s);
      total := total + done;
    }
    rest, ended := s.rest, s.ended;
    if rest != [] && s.part > 0 {
      var b := EndPart(rest[0], s.k, s.part, s.nr, failed);
      rest := [b] + rest[1..];
    } else if rest != [] {
      assert [rest[0]] + rest[1..] == rest;
    }
  }
}
