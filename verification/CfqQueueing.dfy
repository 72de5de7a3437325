/** Queues, their requests and the service trees of CFQ (block/cfq-iosched.c): accounting and forced dispatch. */
module CfqQueueing {
  import opened Basics
  import opened CfqAccounts
  import C = CfqChoose

  type Rq = C.Rq

  // ----- the requests of one queue

  /** sort_list and next_rq. */
  datatype Requests = Requests(sort: seq<Rq>, next: Option<Rq>)

  /** next_rq is NULL exactly if the list is empty, and otherwise on the list. */
  ghost predicate RequestsOk(r: Requests) {
    C.Sorted(r.sort) && (r.next == None <==> r.sort == []) && (r.next != None ==> r.next.value in r.sort)
  }

  function Without(s: seq<Rq>, i: nat): seq<Rq>
    requires i < |s|
  {
    s[..i] + s[i + 1..]
  }

  lemma WithoutSorted(s: seq<Rq>, i: nat)
    requires C.Sorted(s) && i < |s|
    ensures C.Sorted(Without(s, i)) && |Without(s, i)| == |s| - 1
    ensures forall x :: x in Without(s, i) <==> x in s && x != s[i]
  {
    var r := Without(s, i);
    forall x | x in s && x != s[i] ensures x in r {
      var j :| 0 <= j < |s| && s[j] == x;
      assert r[if j < i then j else j - 1] == x;
    }
  }

  /** cfq_dispatch_insert for the request at index i: the next request is found first. */
  function Dispatched(k: C.Seek, r: Requests, i: nat): Requests
    requires i < |r.sort|
  {
    Requests(Without(r.sort, i), C.FindNext(k, r.sort, i))
  }

  lemma DispatchedOk(k: C.Seek, r: Requests, i: nat)
    requires RequestsOk(r) && i < |r.sort|
    ensures RequestsOk(Dispatched(k, r, i))
  {
    C.FindsAnother(k, r.sort, i);
    WithoutSorted(r.sort, i);
  }

  method IndexOf(s: seq<Rq>, x: Rq) returns (i: nat)
    requires x in s
    ensures i < |s| && s[i] == x
  {
    i := 0;
    while s[i] != x
      invariant i < |s| && x in s[i..]
      decreases |s| - i
    {
      i := i + 1;
    }
  }

  // ----- moving a queue between trees

  function Recount(counts: map<nat, seq<nat>>, from: Option<Tree>, t: Tree): map<nat, seq<nat>>
    requires HasTree(counts, t) && (from != None ==> HasTree(counts, from.value) && Count(counts, from.value) > 0)
  {
    var off := if from == None then counts else SetCount(counts, from.value, Count(counts, from.value) - 1);
    SetCount(off, t, Count(off, t) + 1)
  }

  /** The queue as cfq_service_tree_add leaves it. */
  function Placed(a: Acct, q: nat, t: Tree): Acct
    requires OnTree(a, q) ==> MayLeave(a, q)
    requires HasTree(a.counts, t) && t.group in a.nr
  {
    var off := if OnTree(a, q) then Left(a, q) else a;
    Entered(Regrouped(off, q, t.group), q, t)
  }

  lemma PlacedAt(a: Acct, q: nat, t: Tree)
    requires OnTree(a, q) ==> MayLeave(a, q)
    requires HasTree(a.counts, t) && t.group in a.nr
    ensures Placed(a, q, t).treeOf == a.treeOf[q := Some(t)] && Placed(a, q, t).groupOf == a.groupOf[q := t.group]
  {
    assert a.treeOf[q := None][q := Some(t)] == a.treeOf[q := Some(t)];
  }

  /** Within one group only the counts of the trees change. */
  lemma Resorted(a: Acct, q: nat, t: Tree)
    requires MayLeave(a, q) && HasTree(a.counts, t) && t.group in a.nr && q in a.groupOf
    ensures var p := Placed(a, q, t); var from := a.treeOf[q].value;
            && p.treeOf == a.treeOf[q := Some(t)] && p.counts == Recount(a.counts, a.treeOf[q], t) && p.busy == a.busy
            && p.groupOf == a.groupOf[q := t.group]
            && (from.group == t.group && t.group in a.onSt ==> p.nr == a.nr && p.onSt == a.onSt)
  {
    assert a.treeOf[q := None][q := Some(t)] == a.treeOf[q := Some(t)];
    var from := a.treeOf[q].value;
    if from.group == t.group {
      assert a.nr[t.group := a.nr[t.group] - 1][t.group := a.nr[t.group]] == a.nr;
      assert t.group in a.onSt ==> a.onSt - {t.group} + {t.group} == a.onSt && a.onSt + {t.group} == a.onSt;
    }
  }

  lemma Stays(a: Acct, q: nat, t: Tree)
    requires MayLeave(a, q) && a.treeOf[q] == Some(t)
    ensures Recount(a.counts, a.treeOf[q], t) == a.counts && a.treeOf[q := Some(t)] == a.treeOf
  {
    var s: seq<nat> := a.counts[t.group];
    assert s[t.slot := s[t.slot] - 1][t.slot := s[t.slot]] == s;
    assert Recount(a.counts, a.treeOf[q], t) == a.counts;
  }

  lemma PlacedValid(groups: set<nat>, list: seq<nat>, a: Acct, q: nat, t: Tree)
    requires CfqAccounts.Valid(groups, list, a) && q in a.treeOf && t.group in groups && t.slot < TREES
    ensures (OnTree(a, q) ==> MayLeave(a, q)) && HasTree(a.counts, t) && t.group in a.nr
    ensures CfqAccounts.Valid(groups, list, Placed(a, q, t)) && Placed(a, q, t).treeOf.Keys == a.treeOf.Keys
    ensures forall x :: OnTree(Placed(a, q, t), x) <==> OnTree(a, x) || x == q
  {
    if OnTree(a, q) { LeftValid(groups, list, a, q); }
    var off := if OnTree(a, q) then Left(a, q) else a;
    RegroupedValid(groups, list, off, q, t.group);
    EnteredValid(groups, list, Regrouped(off, q, t.group), q, t);
  }

  /** What the counters must hold for a queue to be placed. */
  lemma Placeable(groups: set<nat>, list: seq<nat>, a: Acct, q: nat, slot: nat)
    requires CfqAccounts.Valid(groups, list, a) && q in a.treeOf && slot < TREES
    ensures a.groupOf[q] in groups && forall g :: g in groups ==> g in a.nr && HasTree(a.counts, Tree(g, slot))
    ensures OnTree(a, q) ==> MayLeave(a, q) && a.treeOf[q].value.group == a.groupOf[q] && a.groupOf[q] in a.onSt
  {
    forall g | g in groups ensures g in a.nr && HasTree(a.counts, Tree(g, slot)) { assert g in a.nr && g in a.counts; }
    if OnTree(a, q) { Countable(groups, list, a, q); }
  }

  /** A queue away from its own group is in the root group. */
  ghost predicate KnownOrigins(groups: set<nat>, root: nat, groupOf: map<nat, nat>, treeOf: map<nat, Option<Tree>>,
                               origOf: map<nat, Option<nat>>) {
    && root in groups && origOf.Keys == treeOf.Keys && groupOf.Keys == treeOf.Keys
    && forall q {:trigger origOf[q]} :: q in origOf && origOf[q] != None ==>
         groupOf[q] == root && origOf[q].value != root && origOf[q].value in groups
  }

  /** The counters agree with the trees, and the queues on the round robin are those on a tree. */
  ghost predicate Sound(groups: set<nat>, list: seq<nat>, root: nat, a: Acct, origOf: map<nat, Option<nat>>,
                        onRr: set<nat>) {
    && CfqAccounts.Valid(groups, list, a) && KnownOrigins(groups, root, a.groupOf, a.treeOf, origOf)
    && onRr <= a.treeOf.Keys && forall q {:trigger a.treeOf[q]} :: q in a.treeOf ==>
       (q in onRr <==> a.treeOf[q] != None)
  }

  lemma PlacedSound(groups: set<nat>, list: seq<nat>, root: nat, a: Acct, q: nat, t: Tree,
                    origOf: map<nat, Option<nat>>, origOf': map<nat, Option<nat>>, onRr: set<nat>)
    requires Sound(groups, list, root, a, origOf, onRr) && q in a.treeOf && t.group in groups && t.slot < TREES
    requires OnTree(a, q) ==> MayLeave(a, q)
    requires HasTree(a.counts, t) && t.group in a.nr
    requires var p := Placed(a, q, t); KnownOrigins(groups, root, p.groupOf, p.treeOf, origOf')
    ensures Sound(groups, list, root, Placed(a, q, t), origOf', onRr + {q})
  {
    PlacedValid(groups, list, a, q, t);
    var p := Placed(a, q, t);
    forall x | x in p.treeOf ensures x in onRr + {q} <==> p.treeOf[x] != None {
      assert OnTree(p, x) <==> OnTree(a, x) || x == q;
    }
  }

  lemma PlacedFirst(groups: set<nat>, list: seq<nat>, root: nat, a: Acct, q: nat, t: Tree,
                    origOf: map<nat, Option<nat>>, origOf': map<nat, Option<nat>>, onRr: set<nat>)
    requires Sound(groups, list, root, a, origOf, onRr) && q in a.treeOf && t.group in groups && t.slot < TREES
    requires (OnTree(a, q) ==> MayLeave(a, q)) && HasTree(a.counts, t) && t.group in a.nr
    requires var p := Placed(a, q, t); KnownOrigins(groups, root, p.groupOf, p.treeOf, origOf')
    ensures Sound(groups, list, root, Placed(a, q, t), origOf', onRr + {q})
    ensures Placed(a, q, t).treeOf == a.treeOf[q := Some(t)] && Placed(a, q, t).groupOf == a.groupOf[q := t.group]
  {
    PlacedAt(a, q, t);
    PlacedSound(groups, list, root, a, q, t, origOf, origOf', onRr);
  }

  lemma SortedAnew(groups: set<nat>, list: seq<nat>, root: nat, a: Acct, q: nat, t: Tree, origOf: map<nat, Option<nat>>,
                   origOf': map<nat, Option<nat>>, onRr: set<nat>)
    requires Sound(groups, list, root, a, origOf, onRr) && q in a.treeOf && q in onRr
    requires t.group in groups && t.slot < TREES && (OnTree(a, q) ==> MayLeave(a, q))
    requires HasTree(a.counts, t) && t.group in a.nr
    requires var p := Placed(a, q, t); KnownOrigins(groups, root, p.groupOf, p.treeOf, origOf')
    ensures Sound(groups, list, root, Placed(a, q, t), origOf', onRr)
    ensures Placed(a, q, t).treeOf == a.treeOf[q := Some(t)] && Placed(a, q, t).groupOf == a.groupOf[q := t.group]
  {
    PlacedAt(a, q, t);
    PlacedSound(groups, list, root, a, q, t, origOf, origOf', onRr);
    assert onRr + {q} == onRr;
  }

  /** The group that a queue was made in. */
  function Home(groupOf: map<nat, nat>, origOf: map<nat, Option<nat>>, q: nat): nat
    requires q in groupOf && q in origOf
  {
    if origOf[q] != None then origOf[q].value else groupOf[q]
  }

  /** Every queue still knows its group. */
  ghost predicate SameHomes(groupOf: map<nat, nat>, origOf: map<nat, Option<nat>>, groupOf': map<nat, nat>,
                            origOf': map<nat, Option<nat>>) {
    && groupOf'.Keys == groupOf.Keys && origOf'.Keys == origOf.Keys
    && forall q {:trigger groupOf'[q]} {:trigger origOf'[q]} ::
         q in groupOf && q in origOf ==> Home(groupOf', origOf', q) == Home(groupOf, origOf, q)
  }

  /** With isolation a queue stays where it is; otherwise one of the SYNC_NOIDLE workload is in the root group, one of
      the SYNC workload in its own, and an asynchronous one stays. */
  predicate RightGroup(isolation: bool, noidle: bool, sync: bool, root: nat, home: nat, was: nat, now: nat) {
    && (isolation || (!noidle && !sync) ==> now == was)
    && (!isolation && noidle && !sync ==> now == root) && (!isolation && sync && !noidle ==> now == home)
  }

  class ServiceTrees {
    const groups: set<nat>
    const list: seq<nat>
    const root: nat
    var isolation: bool
    /** cfqg, orig_cfqg and service_tree of each queue, and the queues on the round robin. */
    var groupOf: map<nat, nat>
    var origOf: map<nat, Option<nat>>
    var treeOf: map<nat, Option<Tree>>
    var onRr: set<nat>
    /** The counts of the trees, nr_cfqq and on_st of the groups, busy_queues. */
    var counts: map<nat, seq<nat>>
    var nr: map<nat, nat>
    var onSt: set<nat>
    var busy: nat

    ghost function Accounts(): Acct
      reads this
    {
      Acct(groupOf, treeOf, counts, nr, onSt, busy)
    }

    ghost predicate Origins()
      reads this
    {
      KnownOrigins(groups, root, groupOf, treeOf, origOf)
    }

    ghost predicate Valid()
      reads this
    {
      Sound(groups, list, root, Accounts(), origOf, onRr)
    }

    constructor (groups: set<nat>, list: seq<nat>, root: nat, groupOf: map<nat, nat>)
      requires Roster(list, groups) && root in groups && forall q :: q in groupOf ==> groupOf[q] in groups
      ensures Valid() && onRr == {} && treeOf.Keys == groupOf.Keys
    {
      this.groups, this.list, this.root, this.groupOf := groups, list, root, groupOf;
      isolation, onRr, onSt, busy := false, {}, {}, 0;
      origOf := map q | q in groupOf :: None;
      treeOf := map q | q in groupOf :: None;
      counts := map g | g in groups :: [0, 0, 0, 0, 0, 0, 0];
      nr := map g | g in groups :: 0;
      new;
      TotalZero(nr, list);
      forall t | HasTree(counts, t) ensures Count(counts, t) == |Members(treeOf, t)| {
        assert Members(treeOf, t) == {};
      }
      forall g | g in groups ensures nr[g] == Sum(counts[g]) { SumZero(counts[g]); }
    }

    /** cfq_group_service_tree_add. */
    method GroupAdd(g: nat)
      requires g in nr
      modifies `nr, `onSt
      ensures nr == old(nr[g := nr[g] + 1]) && onSt == old(onSt) + {g}
    {
      nr := nr[g := nr[g] + 1];
      if g in onSt { return; }
      onSt := onSt + {g};
    }

    /** cfq_group_service_tree_del. */
    method GroupDel(g: nat)
      requires g in nr && nr[g] > 0
      modifies `nr, `onSt
      ensures nr == old(nr[g := nr[g] - 1]) && onSt == if old(nr[g]) == 1 then old(onSt) - {g} else old(onSt)
    {
      var n := nr[g] - 1;
      nr := nr[g := n];
      if n > 0 { return; }
      onSt := onSt - {g};
    }

    /** cfq_del_cfqq_rr. */
    method DelRr(q: nat)
      requires Valid() && q in onRr
      modifies `onRr, `treeOf, `counts, `nr, `onSt, `busy
      ensures Valid() && onRr == old(onRr) - {q} && treeOf == old(treeOf)[q := None]
    {
      LeftValid(groups, list, Accounts(), q);
      Unlink(q);
    }

    method Unlink(q: nat)
      requires MayLeave(Accounts(), q)
      modifies `onRr, `treeOf, `counts, `nr, `onSt, `busy
      ensures Accounts() == old(Left(Accounts(), q)) && onRr == old(onRr) - {q}
    {
      var t := treeOf[q].value;
      onRr := onRr - {q};
      counts := SetCount(counts, t, Count(counts, t) - 1);
      treeOf := treeOf[q := None];
      GroupDel(t.group);
      busy := busy - 1;
    }

    /** cfq_service_tree_add. `noidle` and `sync` say whether the queue is of the SYNC_NOIDLE or the SYNC workload,
        `slot` which tree of its group it belongs on, `sameKey` whether its key has stayed the same. */
    method ServiceTreeAdd(q: nat, noidle: bool, sync: bool, slot: nat, addFront: bool, sameKey: bool, ghost a: Acct)
      requires Origins() && q in treeOf && slot < TREES && (treeOf[q] == None ==> !addFront)
      requires Accounts() == if treeOf[q] == None then a.(busy := a.busy + 1) else a
      requires treeOf[q] != None ==> MayLeave(Accounts(), q) && treeOf[q].value.group == groupOf[q]
                                     && groupOf[q] in onSt
      requires forall g :: g in groups ==> g in nr && HasTree(counts, Tree(g, slot))
      requires groupOf[q] in groups
      modifies `groupOf, `origOf, `treeOf, `counts, `nr, `onSt
      ensures Origins() && q in groupOf && groupOf[q] in groups && busy == old(busy)
              && groupOf[q] == old(GroupFor(q, noidle, sync))
      ensures SameHomes(old(groupOf), old(origOf), groupOf, origOf)
      ensures var t := Tree(groupOf[q], slot); HasTree(a.counts, t) && t.group in a.nr && Accounts() == Placed(a, q, t)
    {
      var changed := Regroup(q, noidle, sync);
      PutOn(q, Tree(groupOf[q], slot), addFront, sameKey, changed, a);
    }

    /** Where the nr_cfqq of the old group has been taken back, if the group changes. */
    ghost predicate TakenBack(a: Acct, q: nat, changed: bool)
      reads this
    {
      q in a.treeOf && q in a.groupOf && var g := a.groupOf[q];
      if changed && a.treeOf[q] != None then
        g in a.nr && a.nr[g] > 0 && nr == a.nr[g := a.nr[g] - 1] && onSt == if a.nr[g] == 1 then a.onSt - {g}
          else a.onSt
      else nr == a.nr && onSt == a.onSt
    }

    method PutOn(q: nat, t: Tree, addFront: bool, sameKey: bool, changed: bool, ghost a: Acct)
      requires treeOf == a.treeOf && counts == a.counts && TakenBack(a, q, changed)
               && (a.treeOf[q] == None ==> !addFront)
      requires groupOf == a.groupOf[q := t.group] && changed == (t.group != a.groupOf[q])
      requires busy == if a.treeOf[q] == None then a.busy + 1 else a.busy
      requires a.treeOf[q] != None ==> MayLeave(a, q) && a.treeOf[q].value.group == a.groupOf[q]
                                       && a.groupOf[q] in a.onSt
      requires HasTree(a.counts, t) && t.group in a.nr
      modifies `treeOf, `counts, `nr, `onSt
      ensures Accounts() == Placed(a, q, t)
    {
      var isNew := treeOf[q] == None;
      if !isNew {
        Resorted(a, q, t);
        if sameKey && treeOf[q] == Some(t) {
          Stays(a, q, t);
          return;
        }
      }
      Relink(q, t);
      if (addFront || !isNew) && !changed { return; }
      GroupAdd(t.group);
    }

    /** The queue off its tree, if it is on one, and on tree t. */
    method Relink(q: nat, t: Tree)
      requires q in treeOf && HasTree(counts, t)
      requires treeOf[q] != None ==> HasTree(counts, treeOf[q].value) && Count(counts, treeOf[q].value) > 0
      modifies `treeOf, `counts
      ensures treeOf == old(treeOf)[q := Some(t)] && counts == old(Recount(counts, treeOf[q], t))
    {
      if treeOf[q] != None {
        var from := treeOf[q].value;
        counts := SetCount(counts, from, Count(counts, from) - 1);
        treeOf := treeOf[q := None];
      }
      treeOf := treeOf[q := Some(t)];
      counts := SetCount(counts, t, Count(counts, t) + 1);
    }

    /** The group a queue belongs in: without idling the root group, and its own once it idles again. */
    function GroupFor(q: nat, noidle: bool, sync: bool): nat
      requires q in groupOf && q in origOf
      reads this
    {
      if !isolation && noidle && groupOf[q] != root then root
      else if !isolation && sync && origOf[q] != None then origOf[q].value
      else groupOf[q]
    }

    method Regroup(q: nat, noidle: bool, sync: bool) returns (changed: bool)
      requires Origins() && q in treeOf && groupOf[q] in groups
      requires treeOf[q] != None ==> groupOf[q] in nr && nr[groupOf[q]] > 0
      modifies `groupOf, `origOf, `nr, `onSt
      ensures SameHomes(old(groupOf), old(origOf), groupOf, origOf)
      ensures Origins() && groupOf[q] in groups && groupOf == old(groupOf[q := GroupFor(q, noidle, sync)])
              && changed == (groupOf[q] != old(groupOf[q]))
      ensures var g := old(groupOf[q]);
              nr == (if changed && treeOf[q] != None then old(nr[g := nr[g] - 1]) else old(nr))
              && onSt == if changed && treeOf[q] != None && old(nr[g]) == 1 then old(onSt) - {g} else old(onSt)
    {
      var g := groupOf[q];
      if !isolation && noidle && g != root {
        if treeOf[q] != None { GroupDel(g); }
        origOf, groupOf := origOf[q := Some(g)], groupOf[q := root];
        return true;
      }
      if !isolation && sync && origOf[q] != None {
        if treeOf[q] != None { GroupDel(g); }
        groupOf, origOf := groupOf[q := origOf[q].value], origOf[q := None];
        return true;
      }
      return false;
    }

    lemma RightFor(q: nat, noidle: bool, sync: bool)
      requires Origins() && q in treeOf
      ensures RightGroup(isolation, noidle, sync, root, Home(groupOf, origOf, q), groupOf[q],
                         GroupFor(q, noidle, sync))
    {
    }

    /** cfq_add_cfqq_rr. */
    method AddRr(q: nat, noidle: bool, sync: bool, slot: nat)
      requires Valid() && q in treeOf && q !in onRr && slot < TREES
      modifies `groupOf, `origOf, `treeOf, `onRr, `counts, `nr, `onSt, `busy
      ensures Valid() && onRr == old(onRr) + {q} && groupOf == old(groupOf[q := GroupFor(q, noidle, sync)])
      ensures treeOf == old(treeOf)[q := Some(Tree(groupOf[q], slot))]
      ensures SameHomes(old(groupOf), old(origOf), groupOf, origOf)
      ensures RightGroup(isolation, noidle, sync, root, old(Home(groupOf, origOf, q)), old(groupOf[q]), groupOf[q])
    {
      RightFor(q, noidle, sync);
      ghost var a := Accounts();
      Placeable(groups, list, a, q, slot);
      Enter(q, noidle, sync, slot, a);
      PlacedFirst(groups, list, root, a, q, Tree(groupOf[q], slot), old(origOf), origOf, old(onRr));
    }

    method Enter(q: nat, noidle: bool, sync: bool, slot: nat, ghost a: Acct)
      requires Origins() && q in treeOf && slot < TREES && treeOf[q] == None && a == Accounts()
      requires forall g :: g in groups ==> g in nr && HasTree(counts, Tree(g, slot))
      requires groupOf[q] in groups
      modifies `groupOf, `origOf, `treeOf, `onRr, `counts, `nr, `onSt, `busy
      ensures Origins() && q in groupOf && groupOf[q] in groups && onRr == old(onRr) + {q}
              && groupOf[q] == old(GroupFor(q, noidle, sync))
      ensures SameHomes(old(groupOf), old(origOf), groupOf, origOf)
      ensures var t := Tree(groupOf[q], slot); HasTree(a.counts, t) && t.group in a.nr && Accounts() == Placed(a, q, t)
    {
      onRr, busy := onRr + {q}, busy + 1;
      ServiceTreeAdd(q, noidle, sync, slot, false, false, a);
    }

    /** cfq_resort_rr_list for a queue on the round robin, and cfq_preempt_queue, which puts it in front. */
    method Resort(q: nat, noidle: bool, sync: bool, slot: nat, addFront: bool, sameKey: bool)
      requires Valid() && q in onRr && slot < TREES
      modifies `groupOf, `origOf, `treeOf, `counts, `nr, `onSt
      ensures Valid() && groupOf == old(groupOf[q := GroupFor(q, noidle, sync)])
      ensures treeOf == old(treeOf)[q := Some(Tree(groupOf[q], slot))]
      ensures SameHomes(old(groupOf), old(origOf), groupOf, origOf)
      ensures RightGroup(isolation, noidle, sync, root, old(Home(groupOf, origOf, q)), old(groupOf[q]), groupOf[q])
    {
      ghost var a := Accounts();
      Placeable(groups, list, a, q, slot);
      ServiceTreeAdd(q, noidle, sync, slot, addFront, sameKey, a);
      ghost var t := Tree(groupOf[q], slot);
      SortedAnew(groups, list, root, a, q, t, old(origOf), origOf, onRr);
    }

    /** The cfq_group_isolation tunable. */
    method SetIsolation(on: bool)
      requires Valid()
      modifies `isolation
      ensures Valid() && isolation == on
    {
      isolation := on;
    }
  }
}
