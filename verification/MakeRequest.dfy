/** __make_request (block/blk-core.c): a bio joins a queued request or gets one of its own, and no bio is lost or
    doubled. */
module MakeRequest {
  import opened Basics
  import opened Segments
  import opened Recount
  import opened Completion
  import opened Chains
  import opened FsRequest

  /** What elv_merge answers. */
  datatype Merge = NoMerge | BackMerge(rq: Request) | FrontMerge(rq: Request)

  predicate Distinct(bs: seq<Bio>) { forall i, j :: 0 <= i < j < |bs| ==> bs[i].id != bs[j].id }

  function IdSet(bs: seq<Bio>): set<nat> { set b | b in bs :: b.id }

  lemma KeptIdSet(xs: seq<Bio>, bs: seq<Bio>)
    requires AllKept(xs, bs)
    ensures IdSet(xs) == IdSet(bs) && (Distinct(xs) ==> Distinct(bs))
  {
    KeptIds(xs, bs);
    forall i | 0 <= i < |xs| ensures xs[i].id == Ids(xs)[i] == Ids(bs)[i] == bs[i].id { }
  }

  lemma JoinIds(xs: seq<Bio>, bs: seq<Bio>)
    requires Distinct(xs) && Distinct(bs) && IdSet(xs) !! IdSet(bs)
    ensures Distinct(xs + bs) && IdSet(xs + bs) == IdSet(xs) + IdSet(bs)
  {
    forall i, j | 0 <= i < |xs| && 0 <= j < |bs| ensures xs[i].id != bs[j].id {
      assert xs[i].id in IdSet(xs) && bs[j].id in IdSet(bs);
    }
  }

  lemma OneId(b: Bio)
    ensures Distinct([b]) && IdSet([b]) == {b.id}
  {
  }

  lemma GrownIds(xs: seq<Bio>, bio: Bio, back: bool, ok: bool, bs: seq<Bio>)
    requires Distinct(xs) && bio.id !in IdSet(xs)
    requires AllKept(if !ok then xs else if back then xs + [bio] else [bio] + xs, bs)
    ensures Distinct(bs) && IdSet(bs) == IdSet(xs) + if ok then {bio.id} else {}
  {
    OneId(bio);
    JoinIds(xs, [bio]);
    JoinIds([bio], xs);
    KeptIdSet(if !ok then xs else if back then xs + [bio] else [bio] + xs, bs);
  }

  /** A request on the queue or with the driver. Once started it takes no more merges, and it may have been completed up
      to the middle of a sector. */
  ghost predicate Queued(l: Limits, r: Request)
    reads r
  {
    r.bios != [] && Distinct(r.bios) && if r.started then r.noMerge && r.Holds(l) else r.Valid(l)
  }

  ghost function BiosOf(r: Request): set<nat>
    reads r
  {
    IdSet(r.bios)
  }

  // ----- two requests that merge

  /** What merging looks at. */
  datatype Shape = Shape(bios: seq<Bio>, sector: nat, dataLen: nat, segments: nat, noMerge: bool, special: bool,
                         target: nat, parts: seq<seq<Vec>>)

  ghost function ShapeOf(r: Request): Shape
    reads r
  {
    Shape(r.bios, r.sector, r.dataLen, r.segments, r.noMerge, r.special, r.target, r.parts)
  }

  /** Two requests that attempt_merge puts together: neither is closed to merges or special, they are of one target, the
      second starts where the first ends, and together they keep both limits of the queue. */
  predicate Adjoin(l: Limits, a: Shape, b: Shape) {
    && a.bios != [] && b.bios != [] && !a.noMerge && !b.noMerge && a.target == b.target
    && a.sector + Sectors(a.dataLen) == b.sector && !a.special && !b.special
    && Sectors(a.dataLen) + Sectors(b.dataLen) <= l.maxSectors
    && Joint(l, a.bios, a.segments, b.bios, b.segments) <= l.maxSegments
  }

  /** A request that a bio has joined: at its end or its front, still open to merges, with a sound count. */
  ghost predicate Grown(l: Limits, a: Shape, bio: Bio, back: bool, b: Shape) {
    && AllKept(if back then a.bios + [bio] else [bio] + a.bios, b.bios) && b.segments <= l.maxSegments
    && Sound(l, b.bios, b.sector, b.dataLen, b.segments, b.parts, b.target)
    && b.noMerge == a.noMerge == false && b.special == a.special && b.target == a.target
  }

  // ----- who owns which bio

  /** Every bio in a request is owned by it, and by no other. */
  ghost predicate OwnedBy(c: map<Request, set<nat>>, owner: map<nat, Request>) {
    && (forall r, id {:trigger id in c[r]} :: r in c && id in c[r] ==> id in owner && owner[id] == r)
    && (forall id {:trigger owner[id]} :: id in owner ==> owner[id] in c && id in c[owner[id]])
  }

  lemma Gain(c: map<Request, set<nat>>, owner: map<nat, Request>, r: Request, id: nat)
    requires OwnedBy(c, owner) && id !in owner
    ensures OwnedBy(c[r := (if r in c then c[r] else {}) + {id}], owner[id := r])
  {
  }

  ghost function Moved(owner: map<nat, Request>, next: Request, r: Request): map<nat, Request> {
    map id | id in owner :: if owner[id] == next then r else owner[id]
  }

  lemma Move(c: map<Request, set<nat>>, owner: map<nat, Request>, r: Request, next: Request)
    requires OwnedBy(c, owner) && r in c && next in c && r != next
    ensures OwnedBy(c[r := c[r] + c[next]] - {next}, Moved(owner, next, r)) && Moved(owner, next, r).Keys == owner.Keys
  {
  }

  lemma Apart(c: map<Request, set<nat>>, owner: map<nat, Request>, r: Request, next: Request)
    requires OwnedBy(c, owner) && r in c && next in c && r != next
    ensures c[r] !! c[next]
  {
    assert forall id :: id in c[r] ==> id in owner && owner[id] == r;
    assert forall id :: id in c[next] ==> id in owner && owner[id] == next;
  }

  lemma Lose(c: map<Request, set<nat>>, owner: map<nat, Request>, r: Request, gone: set<nat>)
    requires OwnedBy(c, owner) && r in c && gone <= c[r]
    ensures forall id :: id in gone ==> id in owner && owner[id] == r
    ensures OwnedBy(c[r := c[r] - gone], owner - gone)
    ensures c[r] == gone ==> OwnedBy(c - {r}, owner - gone)
  {
  }

  function EndedSet(es: seq<Ended>): set<nat> { set id | id in EndedIds(es) }

  /** The ids of a chain, of which the first have ended. */
  lemma SplitIds(bs: seq<Bio>, ended: seq<Ended>, rest: seq<Bio>)
    requires Distinct(bs) && EndedIds(ended) + Ids(rest) == Ids(bs)
    ensures Distinct(rest) && EndedSet(ended) <= IdSet(bs) && IdSet(rest) == IdSet(bs) - EndedSet(ended)
  {
    IdSetOf(bs);
    IdSetOf(rest);
    DistinctIds(bs);
    SplitApart(EndedIds(ended), Ids(rest), Ids(bs));
    DistinctIds(rest);
  }

  lemma DistinctIds(bs: seq<Bio>)
    ensures Distinct(bs) <==> NoDup(Ids(bs))
  {
    assert forall i :: 0 <= i < |bs| ==> Ids(bs)[i] == bs[i].id;
  }

  lemma SplitApart(es: seq<nat>, rest: seq<nat>, all: seq<nat>)
    requires NoDup(all) && es + rest == all
    ensures NoDup(rest) && (forall id :: id in all <==> id in es || id in rest)
    ensures forall id :: id in rest ==> id !in es
  {
    assert forall i :: 0 <= i < |es| ==> all[i] == es[i];
    assert forall i :: 0 <= i < |rest| ==> all[|es| + i] == rest[i];
  }

  lemma AdvancedIds(xs: seq<Bio>, n: nat, failed: bool, bs: seq<Bio>)
    requires Distinct(xs) && AllRecounted(Advance(xs, n, failed).rest, bs)
    ensures Distinct(bs) && var gone := EndedSet(Advance(xs, n, failed).ended);
            gone <= IdSet(xs) && IdSet(bs) == IdSet(xs) - gone && (bs == [] ==> gone == IdSet(xs))
  {
    var r := Advance(xs, n, failed);
    AdvanceConserves(xs, n, failed);
    SplitIds(xs, r.ended, r.rest);
    RecountedIds(r.rest, bs);
    KeptIdSet(r.rest, bs);
    assert IdSet(xs) == (IdSet(xs) - EndedSet(r.ended)) + EndedSet(r.ended);
    assert bs == [] ==> IdSet(bs) == {} && {} + EndedSet(r.ended) == EndedSet(r.ended);
  }

  lemma IdSetOf(bs: seq<Bio>)
    ensures forall id :: id in IdSet(bs) <==> id in Ids(bs)
  {
    forall id | id in IdSet(bs) ensures id in Ids(bs) {
      var b :| b in bs && b.id == id;
      var i :| 0 <= i < |bs| && bs[i] == b;
      assert Ids(bs)[i] == id;
    }
    forall id | id in Ids(bs) ensures id in IdSet(bs) {
      var i :| 0 <= i < |bs| && Ids(bs)[i] == id;
      assert bs[i] in bs;
    }
  }

  class Queue {
    const limits: Limits
    var requests: set<Request>
    /** The bios queued, each with the request it is in. */
    ghost var owner: map<nat, Request>

    ghost predicate Valid()
      reads this, requests
    {
      AllQueued() && OwnedBy(Content(), owner)
    }

    ghost predicate AllQueued()
      reads this, requests
    {
      forall r {:trigger Queued(limits, r)} :: r in requests ==> Queued(limits, r)
    }

    ghost function Content(): map<Request, set<nat>>
      reads this, requests
    {
      map r | r in requests :: BiosOf(r)
    }

    constructor (l: Limits)
      ensures Valid() && limits == l && requests == {}
    {
      limits, requests, owner := l, {}, map[];
    }

    /** elv_rq_merge_ok and the position that elv_merge found. */
    predicate MergeOk(m: Merge, bio: Bio)
      reads this, requests
    {
      match m
      case NoMerge => true
      case BackMerge(rq) => rq in requests && Mergeable(rq, bio) && bio.sector == rq.sector + Sectors(rq.dataLen)
      case FrontMerge(rq) => rq in requests && Mergeable(rq, bio) && rq.sector == bio.sector + Sectors(bio.size)
    }

    predicate Mergeable(rq: Request, bio: Bio)
      reads rq
    {
      !rq.noMerge && !rq.special && rq.target == bio.target
    }

    /** The request keeps both limits of the queue with the bio. */
    ghost predicate Takes(rq: Request, bio: Bio)
      reads rq
    {
      Fits(limits, rq.dataLen, rq.segments, bio)
    }

    /** get_rq: a request of its own. */
    method AddRequest(bio: Bio) returns (r: Request)
      requires Valid() && Arrives(limits, bio) && bio.id !in owner
      modifies `requests, `owner
      ensures Valid() && fresh(r) && requests == old(requests) + {r} && owner == old(owner)[bio.id := r]
    {
      ghost var c := Content();
      r := Enqueue(bio);
      Gain(c, owner, r, bio.id);
      assert Content() == c[r := {bio.id}];
      owner := owner[bio.id := r];
    }

    method Enqueue(bio: Bio) returns (r: Request)
      requires AllQueued() && Arrives(limits, bio)
      modifies `requests
      ensures AllQueued() && fresh(r) && requests == old(requests) + {r} && BiosOf(r) == {bio.id}
    {
      r := NewRequest(limits, bio);
      requests := requests + {r};
    }

    /** The back or front merge of a bio into a queued request. */
    method Grow(rq: Request, bio: Bio, back: bool) returns (ok: bool, ghost mid: Shape)
      requires Valid() && Arrives(limits, bio) && bio.id !in owner
      requires MergeOk(if back then BackMerge(rq) else FrontMerge(rq), bio)
      modifies `owner, rq
      ensures Valid() && owner == if ok then old(owner)[bio.id := rq] else old(owner)
      ensures ok == !rq.noMerge && mid == ShapeOf(rq) && (ok ==> Grown(limits, old(ShapeOf(rq)), bio, back, mid))
      ensures ok == old(Takes(rq, bio))
    {
      ghost var c := Content();
      assert bio.id !in BiosOf(rq) by { assert rq in c; }
      ok, mid := GrowOne(rq, bio, back, ShapeOf(rq));
      Settle(rq, bio.id, ok, c);
    }

    /** The owners once a request has gained a bio, or has not. */
    ghost method Settle(rq: Request, id: nat, gained: bool, c: map<Request, set<nat>>)
      requires AllQueued() && OwnedBy(c, owner) && id !in owner && c.Keys == requests && rq in requests
      requires forall r :: r in requests ==> BiosOf(r) == if r == rq && gained then c[r] + {id} else c[r]
      modifies `owner
      ensures Valid() && owner == if gained then old(owner)[id := rq] else old(owner)
    {
      if gained {
        Gain(c, owner, rq, id);
        assert Content() == c[rq := c[rq] + {id}];
        owner := owner[id := rq];
      } else {
        assert Content() == c;
      }
    }

    method GrowOne(rq: Request, bio: Bio, back: bool, ghost was: Shape) returns (ok: bool, ghost mid: Shape)
      requires AllQueued() && Arrives(limits, bio) && bio.id !in BiosOf(rq) && was == ShapeOf(rq)
      requires MergeOk(if back then BackMerge(rq) else FrontMerge(rq), bio)
      modifies rq
      ensures AllQueued()
      ensures BiosOf(rq) == if ok then old(BiosOf(rq)) + {bio.id} else old(BiosOf(rq))
      ensures ok == !rq.noMerge && mid == ShapeOf(rq) && (ok ==> Grown(limits, was, bio, back, mid))
      ensures ok == old(Takes(rq, bio))
    {
      assert Queued(limits, rq);
      ghost var bs := rq.bios;
      if back { ok := rq.BackMerge(limits, bio); } else { ok := rq.FrontMerge(limits, bio); }
      GrownIds(bs, bio, back, ok, rq.bios);
      mid := ShapeOf(rq);
    }

    ghost predicate Adjoining(rq: Request, next: Request)
      reads rq, next
    {
      Adjoin(limits, ShapeOf(rq), ShapeOf(next))
    }

    /** attempt_merge of two queued requests. */
    method AbsorbInto(rq: Request, next: Request) returns (ok: bool)
      requires Valid() && rq in requests && next in requests && rq != next
      modifies `requests, `owner, rq, next
      ensures Valid() && requests == (if ok then old(requests) - {next} else old(requests))
      ensures owner == (if ok then Moved(old(owner), next, rq) else old(owner)) && owner.Keys == old(owner.Keys)
      ensures ok == old(Adjoining(rq, next))
    {
      ghost var c := Content();
      Apart(c, owner, rq, next);
      assert BiosOf(rq) == c[rq] && BiosOf(next) == c[next];
      ok := AbsorbOne(rq, next);
      if ok {
        assert Content() == c[rq := c[rq] + c[next]] - {next};
        Move(c, owner, rq, next);
        owner := Moved(owner, next, rq);
      } else {
        assert Content() == c;
      }
    }

    method AbsorbOne(rq: Request, next: Request) returns (ok: bool)
      requires AllQueued() && rq in requests && next in requests && rq != next && BiosOf(rq) !! BiosOf(next)
      modifies `requests, rq, next
      ensures AllQueued() && requests == if ok then old(requests) - {next} else old(requests)
      ensures ok ==> BiosOf(rq) == old(BiosOf(rq) + BiosOf(next))
      ensures !ok ==> BiosOf(rq) == old(BiosOf(rq)) && BiosOf(next) == old(BiosOf(next))
      ensures ok == old(Adjoining(rq, next))
    {
      assert Queued(limits, rq) && Queued(limits, next);
      if rq.noMerge || next.noMerge { return false; }
      ghost var xs, bs := rq.bios, next.bios;
      JoinIds(xs, bs);
      ok := rq.Absorb(limits, next);
      if ok {
        KeptIdSet(xs + bs, rq.bios);
        requests := requests - {next};
      } else {
        KeptIdSet(xs, rq.bios);
        KeptIdSet(bs, next.bios);
      }
    }

    /** Everything is owned as `o` says, or if `absorbs` as it says once `next` has been absorbed by `rq`. */
    ghost predicate Joined(o: map<nat, Request>, rs: set<Request>, next: Request?, rq: Request?, absorbs: bool)
      reads this
    {
      if absorbs then next != null && rq != null && owner == Moved(o, next, rq) && requests == rs - {next}
      else owner == o && requests == rs
    }

    /** __make_request; `latter` and `former` answer elv_latter_request and elv_former_request. The bio joins the
        request found, which is `mid` then and absorbs its neighbour or is absorbed by it exactly if the two adjoin, or
        the limits of the queue forbid it and that request takes no more, and then it gets its own. */
    method Submit(bio: Bio, m: Merge, latter: Request?, former: Request?) returns (merged: bool, ghost mid: Shape)
      requires Valid() && Arrives(limits, bio) && bio.id !in owner && MergeOk(m, bio)
      requires latter != null ==> latter in requests
      requires former != null ==> former in requests
      modifies this, requests
      ensures Valid() && owner.Keys == old(owner.Keys) + {bio.id}
      ensures merged == old(m != NoMerge && Takes(m.rq, bio))
      ensures merged ==> Grown(limits, old(ShapeOf(m.rq)), bio, m.BackMerge?, mid)
      ensures merged && m.BackMerge? ==>
        Joined(old(owner)[bio.id := m.rq], old(requests), latter, m.rq,
               latter != null && latter != m.rq && Adjoin(limits, mid, old(ShapeOf(latter))))
      ensures merged && m.FrontMerge? ==>
        Joined(old(owner)[bio.id := m.rq], old(requests), m.rq, former,
               former != null && former != m.rq && Adjoin(limits, old(ShapeOf(former)), mid))
      ensures !merged ==> owner == old(owner)[bio.id := owner[bio.id]] && fresh(owner[bio.id])
                          && requests == old(requests) + {owner[bio.id]} && (m != NoMerge ==> m.rq.noMerge)
    {
      match m {
        case BackMerge(rq) => merged, mid := BackInto(rq, bio, latter);
        case FrontMerge(rq) => merged, mid := FrontInto(rq, bio, former);
        case NoMerge => merged, mid := false, Shape([], 0, 0, 0, false, false, 0, []);
      }
      if !merged { var r := AddRequest(bio); }
    }

    /** blk_start_request: the driver has the request, which takes no more merges. */
    method Start(rq: Request)
      requires Valid() && rq in requests
      modifies rq`started, rq`noMerge
      ensures Valid() && rq.started
    {
      assert Queued(limits, rq);
      ghost var c := Content();
      if !rq.started { rq.Valued(limits); }
      rq.started, rq.noMerge := true, true;
      assert Queued(limits, rq);
      assert Content() == c;
    }

    /** blk_update_request on a started request, of which the last bytes let it go: the bios ended leave it, each once,
        and all others stay where they are. */
    method Complete(rq: Request, failed: bool, n: nat) returns (more: bool, ended: seq<Ended>)
      requires Valid() && rq in requests && rq.started
      modifies `requests, `owner, rq
      ensures Valid() && ended == Advance(old(rq.bios), n, failed).ended
      ensures requests == if more then old(requests) else old(requests) - {rq}
      ensures forall id :: id in EndedSet(ended) ==> id in old(owner) && old(owner)[id] == rq
      ensures owner == old(owner) - EndedSet(ended)
    {
      ghost var c := Content();
      assert BiosOf(rq) == c[rq];
      more, ended := CompleteOne(rq, failed, n);
      ghost var gone := EndedSet(ended);
      Lose(c, owner, rq, gone);
      owner := owner - gone;
      if more {
        assert Content() == c[rq := c[rq] - gone];
      } else {
        assert Content() == c - {rq};
      }
    }

    method CompleteOne(rq: Request, failed: bool, n: nat) returns (more: bool, ended: seq<Ended>)
      requires AllQueued() && rq in requests && rq.started
      modifies `requests, rq
      ensures AllQueued() && requests == if more then old(requests) else old(requests) - {rq}
      ensures ended == Advance(old(rq.bios), n, failed).ended && EndedSet(ended) <= old(BiosOf(rq))
      ensures if more then BiosOf(rq) == old(BiosOf(rq)) - EndedSet(ended) else EndedSet(ended) == old(BiosOf(rq))
    {
      assert Queued(limits, rq);
      ghost var bs := rq.bios;
      more, ended := rq.Update(limits, failed, n);
      AdvancedIds(bs, n, failed, rq.bios);
      if !more { requests := requests - {rq}; }
    }

    method BackInto(rq: Request, bio: Bio, latter: Request?) returns (ok: bool, ghost mid: Shape)
      requires Valid() && Arrives(limits, bio) && bio.id !in owner && MergeOk(BackMerge(rq), bio)
               && (latter != null ==> latter in requests)
      modifies this, requests
      ensures Valid() && owner.Keys == old(owner.Keys) + (if ok then {bio.id} else {})
      ensures ok ==> Grown(limits, old(ShapeOf(rq)), bio, true, mid)
      ensures ok ==> Joined(old(owner)[bio.id := rq], old(requests), latter, rq,
                            latter != null && latter != rq && Adjoin(limits, mid, old(ShapeOf(latter))))
      ensures !ok ==> owner == old(owner) && requests == old(requests) && rq.noMerge
      ensures ok == old(Takes(rq, bio))
    {
      ok, mid := Grow(rq, bio, true);
      assert latter != null && latter != rq ==> ShapeOf(latter) == old(ShapeOf(latter));
      if ok && latter != null && latter != rq { var both := AbsorbInto(rq, latter); }
    }

    method FrontInto(rq: Request, bio: Bio, former: Request?) returns (ok: bool, ghost mid: Shape)
      requires Valid() && Arrives(limits, bio) && bio.id !in owner && MergeOk(FrontMerge(rq), bio)
               && (former != null ==> former in requests)
      modifies this, requests
      ensures Valid() && owner.Keys == old(owner.Keys) + (if ok then {bio.id} else {})
      ensures ok ==> Grown(limits, old(ShapeOf(rq)), bio, false, mid)
      ensures ok ==> Joined(old(owner)[bio.id := rq], old(requests), rq, former,
                            former != null && former != rq && Adjoin(limits, old(ShapeOf(former)), mid))
      ensures !ok ==> owner == old(owner) && requests == old(requests) && rq.noMerge
      ensures ok == old(Takes(rq, bio))
    {
      ok, mid := Grow(rq, bio, false);
      assert former != null && former != rq ==> ShapeOf(former) == old(ShapeOf(former));
      if ok && former != null && former != rq { var both := AbsorbInto(former, rq); }
    }
  }

  method NewRequest(l: Limits, bio: Bio) returns (r: Request)
    requires Arrives(l, bio)
    ensures fresh(r) && Queued(l, r) && BiosOf(r) == {bio.id}
  {
    r := new Request(l, bio);
    OneId(bio);
    KeptIdSet([bio], r.bios);
  }
}
