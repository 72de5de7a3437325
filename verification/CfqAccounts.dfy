/** The counters of CFQ's service trees (block/cfq-iosched.c): per tree, per group and over all. */
module CfqAccounts {
  import opened Basics

  /** The service trees of a group: six by priority and workload, and the idle one. */
  const TREES := 7

  datatype Tree = Tree(group: nat, slot: nat)

  /** The group of each queue, the tree it is on, the counts of the seven trees of each group, nr_cfqq, on_st and
      busy_queues. */
  datatype Acct = Acct(groupOf: map<nat, nat>, treeOf: map<nat, Option<Tree>>, counts: map<nat, seq<nat>>,
                       nr: map<nat, nat>,
                       onSt: set<nat>, busy: nat)

  function Members(treeOf: map<nat, Option<Tree>>, t: Tree): set<nat> { set q | q in treeOf && treeOf[q] == Some(t) }

  predicate HasTree(counts: map<nat, seq<nat>>, t: Tree) { t.group in counts && t.slot < |counts[t.group]| }

  function Count(counts: map<nat, seq<nat>>, t: Tree): nat
    requires HasTree(counts, t)
  {
    counts[t.group][t.slot]
  }

  function SetCount(counts: map<nat, seq<nat>>, t: Tree, n: nat): map<nat, seq<nat>>
    requires HasTree(counts, t)
  {
    var s: seq<nat> := counts[t.group];
    var s': seq<nat> := s[t.slot := n];
    counts[t.group := s']
  }

  function Sum(s: seq<nat>): nat { if s == [] then 0 else s[0] + Sum(s[1..]) }

  function Total(nr: map<nat, nat>, groups: seq<nat>): nat {
    if groups == [] then 0 else (if groups[0] in nr then nr[groups[0]] else 0) + Total(nr, groups[1..])
  }

  /** All groups, each once. */
  ghost predicate Roster(list: seq<nat>, all: set<nat>) { NoDup(list) && forall g :: g in all <==> g in list }

  /** Every queue is on a tree of its group or on none, and the count of a tree is the number of queues on it. */
  ghost predicate Counted(groups: set<nat>, groupOf: map<nat, nat>, treeOf: map<nat, Option<Tree>>,
                          counts: map<nat, seq<nat>>) {
    && groupOf.Keys == treeOf.Keys && (forall q {:trigger groupOf[q]} :: q in groupOf ==> groupOf[q] in groups)
    && (forall q {:trigger treeOf[q]} :: q in treeOf && treeOf[q] != None ==> treeOf[q].value.group == groupOf[q]
                                                                              && treeOf[q].value.slot < TREES)
    && (forall g {:trigger g in counts} :: g in groups ==> g in counts && |counts[g]| == TREES)
    && (forall t {:trigger Members(treeOf, t)} :: HasTree(counts, t) ==> Count(counts, t) == |Members(treeOf, t)|)
  }

  /** nr_cfqq is the sum of the seven counts, on_st says whether it is positive, busy_queues is the sum over all
      groups. */
  ghost predicate Summed(groups: set<nat>, list: seq<nat>, counts: map<nat, seq<nat>>, nr: map<nat, nat>,
                         onSt: set<nat>, busy: nat) {
    && (forall g {:trigger g in nr} :: g in groups ==> g in nr && g in counts && nr[g] == Sum(counts[g]))
    && (forall g {:trigger nr[g]} :: g in groups ==> (g in onSt <==> nr[g] > 0))
       && (forall g {:trigger g in onSt} :: g in onSt ==> g in groups)
    && busy == Total(nr, list)
  }

  ghost predicate Valid(groups: set<nat>, list: seq<nat>, a: Acct) {
    Roster(list, groups) && Counted(groups, a.groupOf, a.treeOf, a.counts)
      && Summed(groups, list, a.counts, a.nr, a.onSt, a.busy)
  }

  // ----- a queue comes to a tree, leaves it, or changes its group

  function Entered(a: Acct, q: nat, t: Tree): Acct
    requires HasTree(a.counts, t) && t.group in a.nr
  {
    Acct(a.groupOf, a.treeOf[q := Some(t)], SetCount(a.counts, t, Count(a.counts, t) + 1),
         a.nr[t.group := a.nr[t.group] + 1],
         a.onSt + {t.group}, a.busy + 1)
  }

  predicate OnTree(a: Acct, q: nat) { q in a.treeOf && a.treeOf[q] != None }

  /** The counters are large enough for the queue to leave. */
  predicate MayLeave(a: Acct, q: nat) {
    OnTree(a, q) && var t := a.treeOf[q].value;
      HasTree(a.counts, t) && Count(a.counts, t) > 0 && t.group in a.nr && a.nr[t.group] > 0 && a.busy > 0
  }

  function Left(a: Acct, q: nat): Acct
    requires MayLeave(a, q)
  {
    var t := a.treeOf[q].value;
    var n := a.nr[t.group] - 1;
    Acct(a.groupOf, a.treeOf[q := None], SetCount(a.counts, t, Count(a.counts, t) - 1), a.nr[t.group := n],
         if n == 0 then a.onSt - {t.group} else a.onSt, a.busy - 1)
  }

  function Regrouped(a: Acct, q: nat, g: nat): Acct { a.(groupOf := a.groupOf[q := g]) }

  lemma MembersAdd(treeOf: map<nat, Option<Tree>>, q: nat, t: Tree, u: Tree)
    requires q in treeOf ==> treeOf[q] == None
    ensures |Members(treeOf[q := Some(t)], u)| == |Members(treeOf, u)| + if u == t then 1 else 0
  {
    if u == t {
      assert Members(treeOf[q := Some(t)], t) == Members(treeOf, t) + {q};
    } else {
      assert Members(treeOf[q := Some(t)], u) == Members(treeOf, u);
    }
  }

  lemma MembersSub(treeOf: map<nat, Option<Tree>>, q: nat, t: Tree, u: Tree)
    requires q in treeOf && treeOf[q] == Some(t)
    ensures |Members(treeOf[q := None], u)| == |Members(treeOf, u)| - if u == t then 1 else 0
  {
    if u == t {
      assert Members(treeOf, t) == Members(treeOf[q := None], t) + {q};
    } else {
      assert Members(treeOf[q := None], u) == Members(treeOf, u);
    }
  }

  lemma {:induction false} TotalUpdate(nr: map<nat, nat>, groups: seq<nat>, g: nat, n: nat)
    requires NoDup(groups) && g in nr
    ensures Total(nr[g := n], groups) == Total(nr, groups) + if g in groups then n - nr[g] else 0
  {
    if groups == [] {
    } else {
      TotalUpdate(nr, groups[1..], g, n);
      assert groups == [groups[0]] + groups[1..];
      assert g == groups[0] ==> g !in groups[1..];
    }
  }

  lemma {:induction false} SumUpdate(s: seq<nat>, i: nat, n: nat)
    requires i < |s|
    ensures Sum(s[i := n]) == Sum(s) + n - s[i]
  {
    if i == 0 {
      assert s[i := n][1..] == s[1..];
    } else {
      SumUpdate(s[1..], i - 1, n);
      assert s[i := n][1..] == s[1..][i - 1 := n];
    }
  }

  lemma {:induction false} SumAtLeast(s: seq<nat>, i: nat)
    requires i < |s|
    ensures Sum(s) >= s[i]
  {
    if i == 0 {
    } else {
      SumAtLeast(s[1..], i - 1);
    }
  }

  lemma {:induction false} TotalAtLeast(nr: map<nat, nat>, groups: seq<nat>, g: nat)
    requires g in groups && g in nr
    ensures Total(nr, groups) >= nr[g]
  {
    if g == groups[0] {
    } else {
      TotalAtLeast(nr, groups[1..], g);
    }
  }

  lemma CountedEnter(groups: set<nat>, groupOf: map<nat, nat>, treeOf: map<nat, Option<Tree>>,
                     counts: map<nat, seq<nat>>, q: nat, t: Tree)
    requires Counted(groups, groupOf, treeOf, counts) && q in treeOf && treeOf[q] == None
    requires HasTree(counts, t) && t.group == groupOf[q] && t.slot < TREES
    ensures Counted(groups, groupOf, treeOf[q := Some(t)], SetCount(counts, t, Count(counts, t) + 1))
  {
    var tr, cs := treeOf[q := Some(t)], SetCount(counts, t, Count(counts, t) + 1);
    forall u | HasTree(cs, u) ensures Count(cs, u) == |Members(tr, u)| { MembersAdd(treeOf, q, t, u); }
  }

  lemma CountedLeave(groups: set<nat>, groupOf: map<nat, nat>, treeOf: map<nat, Option<Tree>>,
                     counts: map<nat, seq<nat>>, q: nat, t: Tree)
    requires Counted(groups, groupOf, treeOf, counts) && q in treeOf && treeOf[q] == Some(t)
    requires HasTree(counts, t) && Count(counts, t) > 0
    ensures Counted(groups, groupOf, treeOf[q := None], SetCount(counts, t, Count(counts, t) - 1))
  {
    var tr, cs := treeOf[q := None], SetCount(counts, t, Count(counts, t) - 1);
    forall u | HasTree(cs, u) ensures Count(cs, u) == |Members(tr, u)| { MembersSub(treeOf, q, t, u); }
  }

  lemma SummedMove(groups: set<nat>, list: seq<nat>, counts: map<nat, seq<nat>>, nr: map<nat, nat>, onSt: set<nat>,
                   busy: nat, t: Tree, n: nat, m: nat, onSt': set<nat>, busy': nat)
    requires Roster(list, groups) && Summed(groups, list, counts, nr, onSt, busy) && HasTree(counts, t)
             && t.group in groups
    requires m == nr[t.group] + n - Count(counts, t) && busy' == busy + n - Count(counts, t)
    requires onSt' == if m == 0 then onSt - {t.group} else onSt + {t.group}
    ensures Summed(groups, list, SetCount(counts, t, n), nr[t.group := m], onSt', busy')
  {
    SumUpdate(counts[t.group], t.slot, n);
    TotalUpdate(nr, list, t.group, m);
  }

  lemma EnteredValid(groups: set<nat>, list: seq<nat>, a: Acct, q: nat, t: Tree)
    requires Valid(groups, list, a) && q in a.treeOf && a.treeOf[q] == None && t.group == a.groupOf[q] && t.slot < TREES
    ensures HasTree(a.counts, t) && t.group in a.nr && Valid(groups, list, Entered(a, q, t))
  {
    CountedEnter(groups, a.groupOf, a.treeOf, a.counts, q, t);
    EnteredSummed(groups, list, a, q, t);
  }

  lemma EnteredSummed(groups: set<nat>, list: seq<nat>, a: Acct, q: nat, t: Tree)
    requires Roster(list, groups) && Summed(groups, list, a.counts, a.nr, a.onSt, a.busy) && HasTree(a.counts, t)
             && t.group in groups
    ensures t.group in a.nr
    ensures var b := Entered(a, q, t); Summed(groups, list, b.counts, b.nr, b.onSt, b.busy)
  {
    SummedMove(groups, list, a.counts, a.nr, a.onSt, a.busy, t, Count(a.counts, t) + 1, a.nr[t.group] + 1,
               a.onSt + {t.group}, a.busy + 1);
  }

  /** A queue on a tree is counted, and its group is on the group tree. */
  lemma Countable(groups: set<nat>, list: seq<nat>, a: Acct, q: nat)
    requires Valid(groups, list, a) && OnTree(a, q)
    ensures MayLeave(a, q) && a.treeOf[q].value.group in groups && a.treeOf[q].value.group in a.onSt
  {
    var t := a.treeOf[q].value;
    assert q in Members(a.treeOf, t);
    SumAtLeast(a.counts[t.group], t.slot);
    TotalAtLeast(a.nr, list, t.group);
  }

  lemma LeftValid(groups: set<nat>, list: seq<nat>, a: Acct, q: nat)
    requires Valid(groups, list, a) && OnTree(a, q)
    ensures MayLeave(a, q) && Valid(groups, list, Left(a, q))
  {
    Countable(groups, list, a, q);
    CountedLeave(groups, a.groupOf, a.treeOf, a.counts, q, a.treeOf[q].value);
    LeftSummed(groups, list, a, q);
  }

  lemma LeftSummed(groups: set<nat>, list: seq<nat>, a: Acct, q: nat)
    requires Roster(list, groups) && Summed(groups, list, a.counts, a.nr, a.onSt, a.busy) && MayLeave(a, q)
    requires a.treeOf[q].value.group in groups && a.treeOf[q].value.group in a.onSt
    ensures var b := Left(a, q); Summed(groups, list, b.counts, b.nr, b.onSt, b.busy)
  {
    var t := a.treeOf[q].value;
    assert a.onSt + {t.group} == a.onSt;
    SummedMove(groups, list, a.counts, a.nr, a.onSt, a.busy, t, Count(a.counts, t) - 1, a.nr[t.group] - 1,
               Left(a, q).onSt, a.busy - 1);
  }

  lemma RegroupedValid(groups: set<nat>, list: seq<nat>, a: Acct, q: nat, g: nat)
    requires Valid(groups, list, a) && q in a.treeOf && a.treeOf[q] == None && g in groups
    ensures Valid(groups, list, Regrouped(a, q, g))
  {
  }

  // ----- what the counters say

  lemma {:induction false} TotalZero(nr: map<nat, nat>, groups: seq<nat>)
    requires forall g :: g in groups && g in nr ==> nr[g] == 0
    ensures Total(nr, groups) == 0
  {
    if groups == [] {
    } else {
      TotalZero(nr, groups[1..]);
    }
  }

  lemma {:induction false} SumZero(s: seq<nat>)
    requires forall i :: 0 <= i < |s| ==> s[i] == 0
    ensures Sum(s) == 0
  {
    if s == [] {
    } else {
      SumZero(s[1..]);
    }
  }

  lemma {:induction false} SumPositive(s: seq<nat>)
    requires Sum(s) > 0
    ensures exists i :: 0 <= i < |s| && s[i] > 0
  {
    if s[0] > 0 {
    } else {
      SumPositive(s[1..]);
      var i :| 0 <= i < |s[1..]| && s[1..][i] > 0;
      assert s[i + 1] > 0;
    }
  }

  lemma GroupIdle(groups: set<nat>, list: seq<nat>, a: Acct, g: nat)
    requires Valid(groups, list, a) && g in groups && forall q :: q in a.treeOf ==> a.treeOf[q] == None
    ensures g in a.nr && a.nr[g] == 0
  {
    assert g in a.nr && g in a.counts;
    forall s | 0 <= s < TREES ensures a.counts[g][s] == 0 {
      assert Members(a.treeOf, Tree(g, s)) == {};
      assert HasTree(a.counts, Tree(g, s)) && Count(a.counts, Tree(g, s)) == 0;
    }
    SumZero(a.counts[g]);
  }

  /** No queue on a tree: nothing is busy. */
  lemma NoneBusy(groups: set<nat>, list: seq<nat>, a: Acct)
    requires Valid(groups, list, a) && forall q :: q in a.treeOf ==> a.treeOf[q] == None
    ensures a.busy == 0
  {
    forall g | g in list ensures g in a.nr && a.nr[g] == 0 { GroupIdle(groups, list, a, g); }
    TotalZero(a.nr, list);
  }

  /** A group on the group tree has a queue on one of its trees. */
  lemma GroupHasQueue(groups: set<nat>, list: seq<nat>, a: Acct, g: nat)
    requires Valid(groups, list, a) && g in a.onSt
    ensures g in a.counts && |a.counts[g]| == TREES && exists s :: 0 <= s < TREES && a.counts[g][s] > 0
  {
    assert g in a.nr && g in a.counts;
    SumPositive(a.counts[g]);
  }
}
