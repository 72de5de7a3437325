/** The two indexes of the deadline scheduler (block/deadline-iosched.c) over the requests of one direction: a list
    sorted by sector, standing for the red-black tree, and a list in order of arrival. */
module Lanes {
  import opened Basics

  /** sort_list, fifo_list and next_rq of one direction; requests are named by numbers. */
  datatype Lane = Lane(sort: seq<nat>, fifo: seq<nat>, next: Option<nat>)

  /** Strictly increasing in `key`. */
  predicate Rising(key: map<nat, int>, s: seq<nat>) {
    (forall x :: x in s ==> x in key) && forall i, j :: 0 <= i < j < |s| ==> key[s[i]] < key[s[j]]
  }

  predicate NonFalling(key: map<nat, int>, s: seq<nat>) {
    (forall x :: x in s ==> x in key) && forall i, j :: 0 <= i < j < |s| ==> key[s[i]] <= key[s[j]]
  }

  /** Both lists hold the same requests, each in its order, and the next request is one of them. */
  ghost predicate LaneOk(pos: map<nat, int>, expires: map<nat, int>, l: Lane) {
    && Rising(pos, l.sort) && NonFalling(expires, l.fifo) && NoDup(l.fifo)
    && (forall x {:trigger x in l.sort} {:trigger x in l.fifo} :: x in l.sort <==> x in l.fifo)
    && (l.next != None ==> l.next.value in l.sort)
  }

  /** The same but for `x`, which is off the sorted list while it is being put in its place. */
  ghost predicate LaneBut(pos: map<nat, int>, expires: map<nat, int>, l: Lane, x: nat) {
    && Rising(pos, l.sort) && NonFalling(expires, l.fifo) && NoDup(l.fifo) && x !in l.sort
    && (forall y :: y != x ==> (y in l.sort <==> y in l.fifo))
    && (l.next != None ==> l.next.value in l.sort || l.next.value == x)
  }

  // ----- removal

  function IndexOf(s: seq<nat>, x: nat): (i: nat)
    requires x in s
    ensures i < |s| && s[i] == x
  {
    if s[0] == x then 0 else 1 + IndexOf(s[1..], x)
  }

  function Without(s: seq<nat>, x: nat): seq<nat> {
    if x in s then var i := IndexOf(s, x); s[..i] + s[i + 1..] else s
  }

  /** rb_next. */
  function Latter(s: seq<nat>, x: nat): Option<nat> {
    if x in s && IndexOf(s, x) + 1 < |s| then Some(s[IndexOf(s, x) + 1]) else None
  }

  lemma WithoutOne(s: seq<nat>, x: nat)
    requires NoDup(s) && x in s
    ensures NoDup(Without(s, x)) && |Without(s, x)| == |s| - 1
    ensures forall y :: y in Without(s, x) <==> y in s && y != x
  {
    DropOne(s, IndexOf(s, x));
  }

  lemma WithoutMultiset(s: seq<nat>, x: nat)
    requires x in s
    ensures multiset(Without(s, x)) + multiset{x} == multiset(s)
  {
    var i := IndexOf(s, x);
    assert s == s[..i] + [x] + s[i + 1..];
  }

  lemma RisingNoDup(key: map<nat, int>, s: seq<nat>)
    requires Rising(key, s)
    ensures NoDup(s)
  {
  }

  lemma RisingWithout(key: map<nat, int>, s: seq<nat>, x: nat)
    requires Rising(key, s) && x in s
    ensures Rising(key, Without(s, x))
    ensures var n := Latter(s, x); n != None ==> n.value in Without(s, x)
  {
    RisingNoDup(key, s);
    WithoutOne(s, x);
  }

  lemma NonFallingWithout(key: map<nat, int>, s: seq<nat>, x: nat)
    requires NonFalling(key, s) && NoDup(s) && x in s
    ensures NonFalling(key, Without(s, x))
  {
    WithoutOne(s, x);
  }

  /** deadline_remove_request: off both lists; the next request moves on if it was this one. */
  function Removed(l: Lane, x: nat): Lane {
    Lane(Without(l.sort, x), Without(l.fifo, x), if l.next == Some(x) then Latter(l.sort, x) else l.next)
  }

  /** deadline_move_request: the same, and the next request is the one after it in any case. */
  function Moved(l: Lane, x: nat): Lane { Removed(l.(next := Latter(l.sort, x)), x) }

  lemma RemovedOk(pos: map<nat, int>, expires: map<nat, int>, l: Lane, x: nat)
    requires LaneOk(pos, expires, l) && x in l.sort
    ensures LaneOk(pos, expires, Removed(l, x)) && |Removed(l, x).sort| == |l.sort| - 1
    ensures forall y :: y in Removed(l, x).sort <==> y in l.sort && y != x
  {
    RisingNoDup(pos, l.sort);
    WithoutOne(l.sort, x);
    WithoutOne(l.fifo, x);
    RisingWithout(pos, l.sort, x);
    NonFallingWithout(expires, l.fifo, x);
  }

  lemma LatterDiffers(s: seq<nat>, x: nat)
    requires NoDup(s)
    ensures Latter(s, x) != Some(x)
  {
  }

  lemma MovedBut(pos: map<nat, int>, expires: map<nat, int>, l: Lane, y: nat, x: nat)
    requires LaneBut(pos, expires, l, x) && y in l.sort
    ensures LaneBut(pos, expires, Moved(l, y), x) && |Moved(l, y).sort| == |l.sort| - 1
    ensures forall z :: (z in Moved(l, y).sort <==> z in l.sort && z != y)
                        && (z in Moved(l, y).fifo <==> z in l.fifo && z != y)
    ensures Moved(l, y).next != None ==> Moved(l, y).next.value in Moved(l, y).sort
  {
    RisingNoDup(pos, l.sort);
    WithoutOne(l.sort, y);
    WithoutOne(l.fifo, y);
    RisingWithout(pos, l.sort, y);
    NonFallingWithout(expires, l.fifo, y);
    LatterDiffers(l.sort, y);
  }

  lemma MovedOk(pos: map<nat, int>, expires: map<nat, int>, l: Lane, y: nat)
    requires LaneOk(pos, expires, l) && y in l.sort
    ensures LaneOk(pos, expires, Moved(l, y)) && |Moved(l, y).sort| == |l.sort| - 1
    ensures forall z :: z in Moved(l, y).fifo <==> z in l.fifo && z != y
  {
    RemovedOk(pos, expires, l.(next := Latter(l.sort, y)), y) by { LatterIn(l.sort, y); }
  }

  lemma LatterIn(s: seq<nat>, x: nat)
    ensures Latter(s, x) != None ==> Latter(s, x).value in s
  {
  }

  /** The request of least sector above that of x, if there is one. */
  ghost predicate NextAbove(pos: map<nat, int>, s: seq<nat>, x: nat, n: Option<nat>) {
    match n
    case None => forall y :: y in s ==> Key(pos, y) <= Key(pos, x)
    case Some(y) =>
      && y in s && Key(pos, x) < Key(pos, y)
      && forall z :: z in s && Key(pos, x) < Key(pos, z) ==> Key(pos, y) <= Key(pos, z)
  }

  lemma LatterAbove(pos: map<nat, int>, s: seq<nat>, x: nat)
    requires Rising(pos, s) && x in s
    ensures NextAbove(pos, s, x, Latter(s, x))
  {
    var i := IndexOf(s, x);
    forall z | z in s ensures Key(pos, z) <= Key(pos, x) || (i + 1 < |s| && Key(pos, s[i + 1]) <= Key(pos, z)) {
      var k :| 0 <= k < |s| && s[k] == z;
      assert k < i || k == i || k == i + 1 || i + 1 < k;
    }
    assert i + 1 < |s| ==> s[i + 1] in s && pos[s[i]] < pos[s[i + 1]];
  }

  /** After a move the next request is the one above. */
  lemma MovedAbove(pos: map<nat, int>, l: Lane, x: nat)
    requires Rising(pos, l.sort) && x in l.sort
    ensures NextAbove(pos, l.sort, x, Moved(l, x).next)
  {
    RisingNoDup(pos, l.sort);
    LatterDiffers(l.sort, x);
    LatterAbove(pos, l.sort, x);
  }

  // ----- insertion

  /** A request at `p` goes to place i. */
  ghost predicate PlaceFor(pos: map<nat, int>, s: seq<nat>, p: int, i: int) {
    && 0 <= i <= |s| && (forall x :: x in s ==> x in pos)
    && (forall k :: 0 <= k < i ==> pos[s[k]] < p) && (forall k :: i <= k < |s| ==> p < pos[s[k]])
  }

  function Key(key: map<nat, int>, x: nat): int { if x in key then key[x] else 0 }

  /** How many requests start before `p`, in a list sorted by sector. */
  function PlaceOf(pos: map<nat, int>, s: seq<nat>, p: int): (i: nat)
    ensures i <= |s|
  {
    if s == [] || Key(pos, s[0]) >= p then 0 else 1 + PlaceOf(pos, s[1..], p)
  }

  /** The request that starts at `p`. */
  function AliasOf(pos: map<nat, int>, s: seq<nat>, p: int): Option<nat> {
    var i := PlaceOf(pos, s, p);
    if i < |s| && Key(pos, s[i]) == p then Some(s[i]) else None
  }

  lemma {:induction false} PlaceOfIs(pos: map<nat, int>, s: seq<nat>, p: int, i: nat)
    requires i <= |s| && (forall k :: 0 <= k < i ==> Key(pos, s[k]) < p) && (i < |s| ==> Key(pos, s[i]) >= p)
    ensures PlaceOf(pos, s, p) == i
  {
    if i == 0 {
    } else {
      PlaceOfIs(pos, s[1..], p, i - 1);
    }
  }

  lemma {:induction false} PlaceOfFacts(pos: map<nat, int>, s: seq<nat>, p: int)
    ensures var i := PlaceOf(pos, s, p);
            (forall k :: 0 <= k < i ==> Key(pos, s[k]) < p) && (i < |s| ==> Key(pos, s[i]) >= p)
  {
    if s == [] || Key(pos, s[0]) >= p {
    } else {
      PlaceOfFacts(pos, s[1..], p);
      var i := PlaceOf(pos, s, p);
      forall k | 0 <= k < i ensures Key(pos, s[k]) < p { assert k > 0 ==> s[k] == s[1..][k - 1]; }
    }
  }

  /** Where nothing starts at `p`, a request there has a place. */
  lemma PlaceIfFree(pos: map<nat, int>, s: seq<nat>, p: int)
    requires Rising(pos, s)
    ensures AliasOf(pos, s, p) == None ==> PlaceFor(pos, s, p, PlaceOf(pos, s, p))
    ensures AliasOf(pos, s, p) != None ==> AliasOf(pos, s, p).value in s && Key(pos, AliasOf(pos, s, p).value) == p
  {
    PlaceOfFacts(pos, s, p);
    var i := PlaceOf(pos, s, p);
    if AliasOf(pos, s, p) == None {
      forall k | i <= k < |s| ensures p < pos[s[k]] { assert k > i ==> pos[s[i]] < pos[s[k]]; }
    }
  }

  /** Once the request at `p` is out, nothing starts there. */
  lemma OneAlias(pos: map<nat, int>, s: seq<nat>, p: int)
    requires Rising(pos, s) && AliasOf(pos, s, p) != None
    ensures AliasOf(pos, Without(s, AliasOf(pos, s, p).value), p) == None
  {
    PlaceIfFree(pos, s, p);
    var a := AliasOf(pos, s, p).value;
    RisingWithout(pos, s, a);
    PlaceIfFree(pos, Without(s, a), p);
    RisingNoDup(pos, s);
    WithoutOne(s, a);
  }

  /** elv_rb_add: where a request at `p` goes in the sorted list, or the request that is already there. */
  method FindPlace(pos: map<nat, int>, s: seq<nat>, p: int) returns (i: nat, alias: Option<nat>)
    ensures i == PlaceOf(pos, s, p) && alias == AliasOf(pos, s, p)
  {
    i := 0;
    while i < |s| && Key(pos, s[i]) < p
      invariant i <= |s| && forall k :: 0 <= k < i ==> Key(pos, s[k]) < p
    {
      i := i + 1;
    }
    PlaceOfIs(pos, s, p, i);
    alias := if i < |s| && Key(pos, s[i]) == p then Some(s[i]) else None;
  }

  function Inserted(s: seq<nat>, i: nat, x: nat): seq<nat>
    requires i <= |s|
  {
    s[..i] + [x] + s[i..]
  }

  lemma InsertedRising(pos: map<nat, int>, s: seq<nat>, i: nat, x: nat, p: int)
    requires Rising(pos, s) && PlaceFor(pos, s, p, i) && x !in s
    ensures Rising(pos[x := p], Inserted(s, i, x)) && forall y :: y in Inserted(s, i, x) <==> y in s || y == x
  {
    InsertedMembers(s, i, x);
  }

  /** A key that no member of the list uses may change. */
  lemma OtherKey(key: map<nat, int>, s: seq<nat>, x: nat, v: int)
    requires x !in s
    ensures Rising(key, s) ==> Rising(key[x := v], s)
    ensures NonFalling(key, s) ==> NonFalling(key[x := v], s)
  {
  }

  // ----- deadline_merged_requests

  /** `r` moves behind `n` in the arrival list and takes over its expiry. */
  function TakePlace(fifo: seq<nat>, r: nat, n: nat): seq<nat>
    requires n in Without(fifo, r)
  {
    var s := Without(fifo, r);
    Inserted(s, IndexOf(s, n) + 1, r)
  }

  lemma TakePlaceMultiset(fifo: seq<nat>, r: nat, n: nat)
    requires r in fifo && n in Without(fifo, r)
    ensures multiset(TakePlace(fifo, r, n)) == multiset(fifo)
  {
    WithoutMultiset(fifo, r);
    var s := Without(fifo, r);
    var i := IndexOf(s, n) + 1;
    assert s == s[..i] + s[i..];
  }

  lemma TakePlaceOk(expires: map<nat, int>, fifo: seq<nat>, r: nat, n: nat)
    requires NonFalling(expires, fifo) && NoDup(fifo) && r in fifo && n in fifo && r != n
    ensures n in Without(fifo, r)
    ensures var f := TakePlace(fifo, r, n);
            NonFalling(expires[r := expires[n]], f) && NoDup(f) && forall y :: y in f <==> y in fifo
  {
    WithoutOne(fifo, r);
    NonFallingWithout(expires, fifo, r);
    var s := Without(fifo, r);
    OtherKey(expires, s, r, expires[n]);
    var i := IndexOf(s, n) + 1;
    InsertedNonFalling(expires[r := expires[n]], s, i, r);
  }

  lemma InsertedNonFalling(key: map<nat, int>, s: seq<nat>, i: nat, x: nat)
    requires NonFalling(key, s) && NoDup(s) && 0 < i <= |s| && x !in s && x in key && key[x] == key[s[i - 1]]
    ensures NonFalling(key, Inserted(s, i, x)) && NoDup(Inserted(s, i, x))
    ensures forall y :: y in Inserted(s, i, x) <==> y in s || y == x
  {
    InsertedMembers(s, i, x);
    InsertedNoDup(s, i, x);
    var r := Inserted(s, i, x);
    forall a, b | 0 <= a < b < |r| ensures key[r[a]] <= key[r[b]] {
      var c := if a < i then a else a - 1;
      var d := if b < i then b else b - 1;
      assert r[a] == (if a == i then x else s[c]) && r[b] == (if b == i then x else s[d]) && c <= d;
    }
  }

  lemma InsertedNoDup(s: seq<nat>, i: nat, x: nat)
    requires NoDup(s) && i <= |s| && x !in s
    ensures NoDup(Inserted(s, i, x))
  {
  }

  lemma InsertedMembers(s: seq<nat>, i: nat, x: nat)
    requires i <= |s|
    ensures forall y :: y in Inserted(s, i, x) <==> y in s || y == x
  {
    var r := Inserted(s, i, x);
    forall y | y in s ensures y in r {
      var j :| 0 <= j < |s| && s[j] == y;
      assert r[if j < i then j else j + 1] == y;
    }
    assert r[i] == x;
  }

  lemma AppendNonFalling(key: map<nat, int>, s: seq<nat>, x: nat, v: int)
    requires NonFalling(key, s) && NoDup(s) && x !in s && forall y :: y in s ==> key[y] <= v
    ensures NonFalling(key[x := v], s + [x]) && NoDup(s + [x])
  {
  }

  lemma TakenOut(pos: map<nat, int>, expires: map<nat, int>, l: Lane, x: nat)
    requires LaneOk(pos, expires, l) && x in l.sort
    ensures var l' := l.(sort := Without(l.sort, x));
            LaneBut(pos, expires, l', x) && |l'.sort| + 1 == |l.sort| && x in l.fifo
  {
    RisingNoDup(pos, l.sort);
    WithoutOne(l.sort, x);
    RisingWithout(pos, l.sort, x);
  }

  lemma TakePlaceLane(pos: map<nat, int>, expires: map<nat, int>, l: Lane, r: nat, n: nat)
    requires LaneOk(pos, expires, l) && r in l.sort && n in l.sort && r != n
    ensures n in Without(l.fifo, r)
    ensures LaneOk(pos, expires[r := expires[n]], l.(fifo := TakePlace(l.fifo, r, n)))
    ensures forall y :: y in TakePlace(l.fifo, r, n) <==> y in l.fifo
  {
    TakePlaceOk(expires, l.fifo, r, n);
  }

  lemma OtherLane(pos: map<nat, int>, expires: map<nat, int>, l: Lane, r: nat, t: int)
    requires LaneOk(pos, expires, l) && r !in l.fifo
    ensures LaneOk(pos, expires[r := t], l)
  {
    OtherKey(expires, l.fifo, r, t);
  }

  lemma EmptyLane(pos: map<nat, int>, expires: map<nat, int>, l: Lane)
    requires LaneOk(pos, expires, l) && l.fifo == []
    ensures l.sort == []
  {
    HasMember(l.sort);
  }

  lemma HasMember(s: seq<nat>)
    ensures s == [] || exists x :: x in s
  {
    if s != [] { assert s[0] in s; }
  }
}
