/** Which request of a queue CFQ serves next (cfq_choose_req and cfq_find_next_rq in block/cfq-iosched.c). */
module CfqChoose {
  import opened Basics

  datatype Rq = Rq(id: nat, sync: bool, meta: bool, pos: nat)

  /** cfq_back_max in sectors, and cfq_back_penalty. */
  datatype Seek = Seek(backMax: nat, penalty: nat)

  predicate Wraps(k: Seek, s: nat, last: nat) { s < last && s + k.backMax < last }

  function Distance(k: Seek, s: nat, last: nat): nat {
    if s >= last then s - last else if s + k.backMax >= last then (last - s) * k.penalty else 0
  }

  /** cfq_choose_req. */
  function ChooseReq(k: Seek, rq1: Option<Rq>, rq2: Option<Rq>, last: nat): Option<Rq> {
    if rq1 == None || rq1 == rq2 then rq2
    else if rq2 == None then rq1
    else
      var a, b := rq1.value, rq2.value;
      if a.sync && !b.sync then rq1
      else if b.sync && !a.sync then rq2
      else if a.meta && !b.meta then rq1
      else if b.meta && !a.meta then rq2
      else
        var d1, d2 := Distance(k, a.pos, last), Distance(k, b.pos, last);
        var w1, w2 := Wraps(k, a.pos, last), Wraps(k, b.pos, last);
        if !w1 && !w2 then
          if d1 < d2 then rq1 else if d2 < d1 then rq2 else if a.pos >= b.pos then rq1 else rq2
        else if !w1 then rq1
        else if !w2 then rq2
        else if a.pos <= b.pos then rq1 else rq2
  }

  // ----- the order behind it

  /** Sync before async, then metadata; then the cost of the seek: ahead or a little behind by distance, the rest, too
      far behind, from the start of the disk. Of equal distances the one ahead wins. */
  ghost predicate AtLeastAsGood(k: Seek, last: nat, a: Rq, b: Rq) {
    if a.sync != b.sync then a.sync
    else if a.meta != b.meta then a.meta
    else CheaperSeek(k, last, a.pos, b.pos)
  }

  ghost predicate CheaperSeek(k: Seek, last: nat, s: nat, t: nat) {
    if Wraps(k, s, last) != Wraps(k, t, last) then Wraps(k, t, last)
    else if Wraps(k, s, last) then s <= t
    else Distance(k, s, last) < Distance(k, t, last) || (Distance(k, s, last) == Distance(k, t, last) && s >= t)
  }

  /** It is a total order: total, transitive, and two requests as good as each other are at one sector. */
  lemma TotalOrder(k: Seek, last: nat, a: Rq, b: Rq, c: Rq)
    ensures AtLeastAsGood(k, last, a, b) || AtLeastAsGood(k, last, b, a)
    ensures AtLeastAsGood(k, last, a, b) && AtLeastAsGood(k, last, b, a) ==> a.pos == b.pos && a.sync == b.sync
                                                                             && a.meta == b.meta
    ensures AtLeastAsGood(k, last, a, b) && AtLeastAsGood(k, last, b, c) ==> AtLeastAsGood(k, last, a, c)
  {
  }

  /** cfq_choose_req answers the better one of its two requests. */
  lemma ChoosesBest(k: Seek, a: Rq, b: Rq, last: nat)
    ensures var r := ChooseReq(k, Some(a), Some(b), last);
            r != None && (r.value == a || r.value == b) && AtLeastAsGood(k, last, r.value, a)
              && AtLeastAsGood(k, last, r.value, b)
  {
  }

  // ----- the choice in sectors

  /** Whichever of the two is given first, `a` is answered. */
  predicate Wins(k: Seek, a: Rq, b: Rq, last: nat) {
    ChooseReq(k, Some(a), Some(b), last) == Some(a) && ChooseReq(k, Some(b), Some(a), last) == Some(a)
  }

  /** A request is chosen over none, a synchronous one over an asynchronous one, and of two that agree on that metadata
      over other data. */
  lemma ChoosesByKind(k: Seek, a: Rq, b: Rq, last: nat)
    ensures ChooseReq(k, Some(a), None, last) == Some(a) == ChooseReq(k, None, Some(a), last)
    ensures ChooseReq(k, None, None, last) == None
    ensures a.sync && !b.sync ==> Wins(k, a, b, last)
    ensures a.sync == b.sync && a.meta && !b.meta ==> Wins(k, a, b, last)
  {
  }

  /** Of two requests alike in that: both at or ahead of the head, the nearer; both behind it by at most backMax, the
      nearer; one ahead and one behind by at most backMax, the one behind exactly if its distance times the penalty is
      less; and one further behind only against another such, the lower of the two. */
  lemma ChoosesBySector(k: Seek, a: Rq, b: Rq, last: nat)
    requires a.sync == b.sync && a.meta == b.meta
    ensures last <= a.pos < b.pos ==> Wins(k, a, b, last)
    ensures b.pos < a.pos < last <= b.pos + k.backMax ==> Wins(k, a, b, last)
    ensures b.pos < last <= a.pos && last <= b.pos + k.backMax ==>
      if (last - b.pos) * k.penalty < a.pos - last then Wins(k, b, a, last) else Wins(k, a, b, last)
    ensures b.pos + k.backMax < last <= a.pos + k.backMax ==> Wins(k, a, b, last)
    ensures a.pos < b.pos && b.pos + k.backMax < last ==> Wins(k, a, b, last)
  {
    if b.pos < a.pos < last <= b.pos + k.backMax {
      assert (last - a.pos) * k.penalty <= (last - b.pos) * k.penalty;
    }
  }

  // ----- the two neighbours are enough

  /** The sort list of a queue. */
  predicate Sorted(s: seq<Rq>) { forall i, j :: 0 <= i < j < |s| ==> s[i].pos < s[j].pos }

  predicate Agree(s: seq<Rq>) {
    forall i, j :: 0 <= i < |s| && 0 <= j < |s| ==> s[i].sync == s[j].sync && s[i].meta == s[j].meta
  }

  /** cfq_find_next_rq for the request at index i. */
  function FindNext(k: Seek, s: seq<Rq>, i: nat): Option<Rq>
    requires i < |s|
  {
    var prev := if i > 0 then Some(s[i - 1]) else None;
    var next := if i + 1 < |s| then Some(s[i + 1]) else if i > 0 then Some(s[0]) else None;
    ChooseReq(k, next, prev, s[i].pos)
  }

  /** There is a next request unless this is the only one, and it is another one. */
  lemma FindsAnother(k: Seek, s: seq<Rq>, i: nat)
    requires Sorted(s) && i < |s|
    ensures FindNext(k, s, i) == None <==> |s| == 1
    ensures var r := FindNext(k, s, i); r != None ==> r.value in s && r.value != s[i]
  {
    assert i > 0 ==> s[0] in s && s[i - 1] in s && s[0].pos < s[i].pos && s[i - 1].pos < s[i].pos;
    assert i + 1 < |s| ==> s[i + 1] in s && s[i].pos < s[i + 1].pos;
  }

  /** A request between the head and one behind it is the better of the two, unless both are too far behind. */
  lemma NearerBehind(k: Seek, last: nat, s: nat, t: nat)
    requires t <= s < last
    ensures if Wraps(k, s, last) then CheaperSeek(k, last, t, s) else CheaperSeek(k, last, s, t)
  {
    assert (last - s) * k.penalty <= (last - t) * k.penalty;
  }

  /** Of a queue whose requests are of one kind the request found is the best of all the others. */
  lemma FindsBest(k: Seek, s: seq<Rq>, i: nat, j: nat)
    requires Sorted(s) && Agree(s) && i < |s| && j < |s| && j != i
    ensures var r := FindNext(k, s, i); r != None && AtLeastAsGood(k, s[i].pos, r.value, s[j])
  {
    var last := s[i].pos;
    FindsAnother(k, s, i);
    var r := FindNext(k, s, i).value;
    if i + 1 < |s| {
      Ahead(k, s, i, j);
    } else {
      Behind(k, s, i, j);
    }
  }

  /** Without that it need not be: metadata further off is better than a neighbour, and is not looked at. */
  lemma BetterNotSeen(k: Seek)
    ensures var s := [Rq(0, true, false, 10), Rq(1, true, false, 20), Rq(2, true, true, 30)];
            var r := FindNext(k, s, 0);
            Sorted(s) && !Agree(s) && r == Some(s[1]) && !AtLeastAsGood(k, s[0].pos, r.value, s[2])
  {
    var s := [Rq(0, true, false, 10), Rq(1, true, false, 20), Rq(2, true, true, 30)];
    assert s[1].meta != s[2].meta;
  }

  lemma Ahead(k: Seek, s: seq<Rq>, i: nat, j: nat)
    requires Sorted(s) && Agree(s) && i + 1 < |s| && j < |s| && j != i
    ensures var r := FindNext(k, s, i); r != None && AtLeastAsGood(k, s[i].pos, r.value, s[j])
  {
    var last := s[i].pos;
    var next := s[i + 1];
    var r := FindNext(k, s, i).value;
    if i > 0 {
      ChoosesBest(k, next, s[i - 1], last);
      assert AtLeastAsGood(k, last, r, next) && AtLeastAsGood(k, last, r, s[i - 1]);
    }
    if j > i {
      assert s[j].pos >= next.pos;
      assert AtLeastAsGood(k, last, next, s[j]);
      TotalOrder(k, last, r, next, s[j]);
    } else {
      var prev := s[i - 1];
      assert s[j].pos <= prev.pos;
      NearerBehind(k, last, prev.pos, s[j].pos);
      if Wraps(k, prev.pos, last) {
        assert AtLeastAsGood(k, last, next, s[j]);
        TotalOrder(k, last, r, next, s[j]);
      } else {
        TotalOrder(k, last, r, prev, s[j]);
      }
    }
  }

  lemma Behind(k: Seek, s: seq<Rq>, i: nat, j: nat)
    requires Sorted(s) && Agree(s) && 0 < i == |s| - 1 && j < i
    ensures var r := FindNext(k, s, i); r != None && AtLeastAsGood(k, s[i].pos, r.value, s[j])
  {
    var last := s[i].pos;
    var first, prev := s[0], s[i - 1];
    var r := FindNext(k, s, i).value;
    ChoosesBest(k, first, prev, last);
    assert AtLeastAsGood(k, last, r, first) && AtLeastAsGood(k, last, r, prev);
    assert first.pos <= s[j].pos <= prev.pos;
    NearerBehind(k, last, prev.pos, s[j].pos);
    NearerBehind(k, last, s[j].pos, first.pos);
    if Wraps(k, s[j].pos, last) {
      TotalOrder(k, last, r, first, s[j]);
    } else {
      TotalOrder(k, last, r, prev, s[j]);
    }
  }
}
