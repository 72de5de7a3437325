/**
  crypto_remove_spawns (crypto/algapi.c): the walk that removes every instance built on an algorithm. A spawn is an edge
  from an algorithm to an instance built on it; the walk moves spawns from the user lists to a stack and from there to a
  secondary list, clears their algorithm on the way down and restores it on the path to a replacement.
*/
module Spawns {
  import opened Basics

  /** The spawns: the algorithm each uses (before the walk) and the instance each belongs to. */
  datatype Graph = Graph(spawns: set<nat>, orig: map<nat, nat>, inst: map<nat, nat>, algs: set<nat>) {
    predicate Valid() {
      && orig.Keys == spawns && inst.Keys == spawns
      && forall s :: s in spawns ==> orig[s] in algs && inst[s] in algs
    }
  }

  /** The lists the walk works on: `lists[Some(a)]` holds the users of a, `lists[None]` the spawns to start from, which
      were users of the algorithm; `algOf` is the alg field of the spawns. */
  datatype Walk = Walk(lists: map<Option<nat>, seq<nat>>, algOf: map<nat, Option<nat>>, stack: seq<nat>,
                       secondary: seq<nat>)

  /** An instance comes after what it is built on. */
  ghost predicate Ranked(g: Graph, rank: map<nat, nat>) {
    && g.algs <= rank.Keys
    && forall s :: s in g.spawns ==> s in g.orig && s in g.inst && g.orig[s] in rank && g.inst[s] in rank
                                     && rank[g.orig[s]] < rank[g.inst[s]]
  }

  ghost predicate Acyclic(g: Graph) { exists rank :: Ranked(g, rank) }

  // ----- what the walk should reach

  /** A chain of spawns from the algorithm down, which does not pass through the replacement. */
  ghost predicate IsPath(g: Graph, top: set<nat>, nalg: Option<nat>, p: seq<nat>) {
    && p != [] && p[0] in top && (forall i :: 0 <= i < |p| ==> p[i] in g.spawns)
    && forall i, j :: 0 <= i < j < |p| && j == i + 1 ==> Follows(g, nalg, p[i], p[j])
  }

  predicate Follows(g: Graph, nalg: Option<nat>, s: nat, t: nat) {
    s in g.orig && s in g.inst && t in g.orig && g.orig[t] == g.inst[s] && Some(g.inst[s]) != nalg
  }

  ghost predicate Reached(g: Graph, top: set<nat>, nalg: Option<nat>, s: nat) {
    exists p :: IsPath(g, top, nalg, p) && p[|p| - 1] == s
  }

  // ----- the invariant of the walk

  function Home(g: Graph, top: set<nat>, s: nat): Option<nat>
    requires s in g.orig
  {
    if s in top then None else Some(g.orig[s])
  }

  ghost predicate Listed(g: Graph, lists: map<Option<nat>, seq<nat>>, top: set<nat>) {
    && None in lists && (forall a :: a in g.algs ==> Some(a) in lists)
    && (forall c :: c in lists ==> NoDup(lists[c]))
    && (forall c, t :: c in lists && t in lists[c] ==> t in g.spawns && t in g.orig && Home(g, top, t) == c)
  }

  ghost predicate InList(g: Graph, lists: map<Option<nat>, seq<nat>>, top: set<nat>, s: nat) {
    s in g.orig && Home(g, top, s) in lists && s in lists[Home(g, top, s)]
  }

  /** Every spawn is in exactly one place. */
  ghost predicate Placed(g: Graph, lists: map<Option<nat>, seq<nat>>, top: set<nat>, stack: seq<nat>,
                         secondary: seq<nat>) {
    && NoDup(stack) && NoDup(secondary)
    && (forall s :: s in stack ==> s in g.spawns && s !in secondary && !InList(g, lists, top, s))
    && (forall s :: s in secondary ==> s in g.spawns && !InList(g, lists, top, s))
    && (forall s :: s in g.spawns ==> s in stack || s in secondary || InList(g, lists, top, s))
  }

  /** The stack, read from its bottom, is a path. */
  ghost predicate Stacked(g: Graph, top: set<nat>, nalg: Option<nat>, stack: seq<nat>) {
    && (stack != [] ==> stack[|stack| - 1] in top)
    && (forall i, j :: 0 <= i < j < |stack| && j == i + 1 ==> Follows(g, nalg, stack[j], stack[i]))
  }

  /** A spawn on the secondary list has nothing left below it. */
  ghost predicate Finished(g: Graph, lists: map<Option<nat>, seq<nat>>, nalg: Option<nat>, secondary: seq<nat>) {
    forall s :: s in secondary ==> s in g.inst && (Some(g.inst[s]) == nalg || Empty(lists, Some(g.inst[s])))
  }

  predicate Empty(lists: map<Option<nat>, seq<nat>>, c: Option<nat>) { c in lists && lists[c] == [] }

  ghost predicate AllReached(g: Graph, top: set<nat>, nalg: Option<nat>, secondary: seq<nat>) {
    forall s :: s in secondary ==> Reached(g, top, nalg, s)
  }

  // ----- the stack is a path

  function Reversed(s: seq<nat>): seq<nat> { seq(|s|, i requires 0 <= i < |s| => s[|s| - 1 - i]) }

  lemma StackReaches(g: Graph, top: set<nat>, nalg: Option<nat>, stack: seq<nat>)
    requires Stacked(g, top, nalg, stack) && stack != [] && forall s :: s in stack ==> s in g.spawns
    ensures Reached(g, top, nalg, stack[0])
  {
    var p := Reversed(stack);
    forall i, j | 0 <= i < j < |p| && j == i + 1 ensures Follows(g, nalg, p[i], p[j]) {
      assert p[i] == stack[|p| - 1 - i] && p[j] == stack[|p| - 1 - j];
    }
    assert IsPath(g, top, nalg, p);
  }

  // ----- the steps of the walk

  /** The list the walk looks at: the users of the instance on top of the stack, or the spawns to start from. */
  function Current(g: Graph, stack: seq<nat>): Option<nat> {
    if stack == [] || stack[0] !in g.inst then None else Some(g.inst[stack[0]])
  }

  /** The first spawn of list c goes on the stack; its alg is cleared unless it is the replacement's. */
  function Push(g: Graph, w: Walk, nalg: Option<nat>, c: Option<nat>): Walk
    requires c in w.lists && w.lists[c] != [] && w.lists[c][0] in g.inst
  {
    var s := w.lists[c][0];
    Walk(w.lists[c := w.lists[c][1..]], if Some(g.inst[s]) == nalg then w.algOf else w.algOf[s := None],
         [s] + w.stack, w.secondary)
  }

  /** crypto_more_spawns: the spawn on top of the stack is done; if it keeps its alg, the one below it gets its own
      back. */
  function Pop(g: Graph, w: Walk, alg: nat): Walk
    requires w.stack != [] && forall s :: s in w.stack ==> s in g.inst && s in w.algOf
  {
    var s := w.stack[0];
    var algOf :=
      if |w.stack| > 1 && w.algOf[s] != None && w.algOf[w.stack[1]] == None then
        w.algOf[w.stack[1] := Some(if |w.stack| == 2 then alg else g.inst[w.stack[2]])]
      else w.algOf;
    Walk(w.lists, algOf, w.stack[1..], [s] + w.secondary)
  }

  /** What holds of the algorithm and its spawns. */
  ghost predicate Setting(g: Graph, alg: nat, top: set<nat>, nalg: Option<nat>) {
    && g.Valid() && Acyclic(g) && top <= g.spawns && (forall s :: s in top ==> g.orig[s] == alg)
    && (forall s :: Reached(g, top, nalg, s) ==> s in g.inst && g.inst[s] != alg)
  }

  ghost predicate Base(g: Graph, w: Walk, alg: nat, top: set<nat>, nalg: Option<nat>) {
    && Setting(g, alg, top, nalg) && w.algOf.Keys == g.spawns
    && Listed(g, w.lists, top) && Placed(g, w.lists, top, w.stack, w.secondary) && Stacked(g, top, nalg, w.stack)
    && Finished(g, w.lists, nalg, w.secondary) && AllReached(g, top, nalg, w.secondary)
  }

  lemma NoDupTail(s: seq<nat>)
    requires NoDup(s) && s != []
    ensures s[0] !in s[1..] && NoDup(s[1..]) && forall x :: x in s <==> x == s[0] || x in s[1..]
  {
    assert s == [s[0]] + s[1..];
  }

  /** Taking the first spawn off a list. */
  lemma TakeFirst(g: Graph, lists: map<Option<nat>, seq<nat>>, top: set<nat>, c: Option<nat>,
                  lists': map<Option<nat>, seq<nat>>)
    requires Listed(g, lists, top) && c in lists && lists[c] != [] && lists' == lists[c := lists[c][1..]]
    ensures lists[c][0] in g.spawns && lists[c][0] in g.orig && Home(g, top, lists[c][0]) == c && Listed(g, lists', top)
    ensures forall s :: InList(g, lists', top, s) <==> InList(g, lists, top, s) && s != lists[c][0]
  {
    var x := lists[c][0];
    assert x in lists[c];
    NoDupTail(lists[c]);
    forall c', t | c' in lists' && t in lists'[c'] ensures t in g.spawns && t in g.orig && Home(g, top, t) == c' {
      assert t in lists[c'];
    }
  }

  lemma PushPlaced(g: Graph, lists: map<Option<nat>, seq<nat>>, top: set<nat>, stack: seq<nat>, secondary: seq<nat>,
                   x: nat, lists': map<Option<nat>, seq<nat>>)
    requires Placed(g, lists, top, stack, secondary) && x in g.spawns && InList(g, lists, top, x)
    requires forall s :: InList(g, lists', top, s) <==> InList(g, lists, top, s) && s != x
    ensures Placed(g, lists', top, [x] + stack, secondary)
  {
    assert x !in stack && x !in secondary;
  }

  lemma PushStacked(g: Graph, top: set<nat>, nalg: Option<nat>, stack: seq<nat>, x: nat)
    requires Stacked(g, top, nalg, stack) && x in g.orig && Home(g, top, x) == Current(g, stack)
    requires forall s :: s in stack ==> s in g.inst && s in g.orig
    requires stack != [] ==> Some(g.inst[stack[0]]) != nalg
    ensures Stacked(g, top, nalg, [x] + stack)
  {
    var st := [x] + stack;
    forall i, j | 0 <= i < j < |st| && j == i + 1 ensures Follows(g, nalg, st[j], st[i]) {
      if i == 0 {
        assert stack[0] in stack;
      } else {
        assert st[i] == stack[i - 1] && st[j] == stack[j - 1];
      }
    }
  }

  lemma PushFinished(g: Graph, lists: map<Option<nat>, seq<nat>>, nalg: Option<nat>, secondary: seq<nat>,
                     c: Option<nat>, lists': map<Option<nat>, seq<nat>>)
    requires Finished(g, lists, nalg, secondary) && c in lists && lists[c] != [] && lists' == lists[c := lists[c][1..]]
    ensures Finished(g, lists', nalg, secondary)
  {
    forall s | s in secondary ensures s in g.inst && (Some(g.inst[s]) == nalg || Empty(lists', Some(g.inst[s]))) {
      assert Empty(lists, Some(g.inst[s])) ==> c != Some(g.inst[s]);
    }
  }

  lemma PushLists(g: Graph, lists: map<Option<nat>, seq<nat>>, top: set<nat>, nalg: Option<nat>, stack: seq<nat>,
                  secondary: seq<nat>, c: Option<nat>, lists': map<Option<nat>, seq<nat>>)
    requires Listed(g, lists, top) && Placed(g, lists, top, stack, secondary) && Finished(g, lists, nalg, secondary)
    requires c in lists && lists[c] != [] && lists' == lists[c := lists[c][1..]]
    ensures Listed(g, lists', top) && Finished(g, lists', nalg, secondary)
    ensures Placed(g, lists', top, [lists[c][0]] + stack, secondary)
    ensures lists[c][0] in g.spawns && lists[c][0] in g.orig && Home(g, top, lists[c][0]) == c
  {
    TakeFirst(g, lists, top, c, lists');
    PushPlaced(g, lists, top, stack, secondary, lists[c][0], lists');
    PushFinished(g, lists, nalg, secondary, c, lists');
  }

  lemma PushBase(g: Graph, w: Walk, alg: nat, top: set<nat>, nalg: Option<nat>)
    requires Base(g, w, alg, top, nalg) && (w.stack != [] ==> Some(g.inst[w.stack[0]]) != nalg)
    requires Current(g, w.stack) in w.lists && w.lists[Current(g, w.stack)] != []
    ensures var c := Current(g, w.stack); w.lists[c][0] in g.spawns && Base(g, Push(g, w, nalg, c), alg, top, nalg)
  {
    var c := Current(g, w.stack);
    PushLists(g, w.lists, top, nalg, w.stack, w.secondary, c, w.lists[c := w.lists[c][1..]]);
    PushStacked(g, top, nalg, w.stack, w.lists[c][0]);
  }

  lemma PopPlaced(g: Graph, lists: map<Option<nat>, seq<nat>>, top: set<nat>, stack: seq<nat>, secondary: seq<nat>)
    requires Placed(g, lists, top, stack, secondary) && stack != []
    ensures Placed(g, lists, top, stack[1..], [stack[0]] + secondary)
  {
    NoDupTail(stack);
    assert stack[0] in stack;
  }

  lemma PopBase(g: Graph, w: Walk, alg: nat, top: set<nat>, nalg: Option<nat>)
    requires Base(g, w, alg, top, nalg) && w.stack != []
    requires Some(g.inst[w.stack[0]]) == nalg || Empty(w.lists, Some(g.inst[w.stack[0]]))
    ensures Base(g, Pop(g, w, alg), alg, top, nalg)
  {
    var stack := w.stack;
    PopPlaced(g, w.lists, top, stack, w.secondary);
    StackReaches(g, top, nalg, stack);
    forall i, j | 0 <= i < j < |stack[1..]| && j == i + 1 ensures Follows(g, nalg, stack[1..][j], stack[1..][i]) {
      assert stack[1..][i] == stack[i + 1] && stack[1..][j] == stack[j + 1];
    }
  }

  // ----- exactly what is reached

  /** When nothing is left to walk, the secondary list holds exactly the spawns reached. */
  lemma WalkReaches(g: Graph, w: Walk, alg: nat, top: set<nat>, nalg: Option<nat>, s: nat)
    requires Base(g, w, alg, top, nalg) && w.stack == [] && Empty(w.lists, None)
    ensures s in w.secondary <==> Reached(g, top, nalg, s)
  {
    if Reached(g, top, nalg, s) {
      var p :| IsPath(g, top, nalg, p) && p[|p| - 1] == s;
      PathWalked(g, w, alg, top, nalg, p, |p| - 1);
    }
  }

  lemma {:induction false} PathWalked(g: Graph, w: Walk, alg: nat, top: set<nat>, nalg: Option<nat>, p: seq<nat>,
                                      k: nat)
    requires Base(g, w, alg, top, nalg) && w.stack == [] && Empty(w.lists, None) && IsPath(g, top, nalg, p) && k < |p|
    ensures p[k] in w.secondary
  {
    assert p[k] in g.spawns;
    if k == 0 {
      assert !InList(g, w.lists, top, p[0]);
    } else {
      PathWalked(g, w, alg, top, nalg, p, k - 1);
      var parent := p[k - 1];
      assert Follows(g, nalg, parent, p[k]);
      assert Empty(w.lists, Some(g.inst[parent]));
      assert Reached(g, top, nalg, parent);
      assert p[k] !in top;
      assert !InList(g, w.lists, top, p[k]);
    }
  }

  // ----- what keeps its algorithm

  /** A spawn in a list still names its algorithm; elsewhere it names that or none. */
  ghost predicate Marked(g: Graph, algOf: map<nat, Option<nat>>, lists: map<Option<nat>, seq<nat>>, top: set<nat>) {
    forall s :: s in g.spawns ==> && s in algOf && s in g.orig && (algOf[s] == None || algOf[s] == Some(g.orig[s]))
                                  && (InList(g, lists, top, s) ==> algOf[s] != None)
  }

  lemma PushMarked(g: Graph, w: Walk, top: set<nat>, nalg: Option<nat>, c: Option<nat>)
    requires g.Valid() && Listed(g, w.lists, top) && Marked(g, w.algOf, w.lists, top) && c in w.lists
             && w.lists[c] != []
    ensures w.lists[c][0] in g.spawns
    ensures var v := Push(g, w, nalg, c); Marked(g, v.algOf, v.lists, top)
  {
    TakeFirst(g, w.lists, top, c, w.lists[c := w.lists[c][1..]]);
  }

  /** The algorithm given back is the one taken. */
  lemma PopMarked(g: Graph, w: Walk, alg: nat, top: set<nat>, nalg: Option<nat>)
    requires g.Valid() && (forall s :: s in top ==> s in g.spawns && g.orig[s] == alg) && Stacked(g, top, nalg, w.stack)
    requires Marked(g, w.algOf, w.lists, top) && w.stack != []
    requires forall s :: s in w.stack ==> s in g.spawns && !InList(g, w.lists, top, s)
    ensures var v := Pop(g, w, alg); Marked(g, v.algOf, v.lists, top)
    ensures var v := Pop(g, w, alg);
            forall s :: s in g.spawns && v.algOf[s] != w.algOf[s] ==> |w.stack| > 1 && s == w.stack[1]
    ensures var v := Pop(g, w, alg); |w.stack| > 1 && w.algOf[w.stack[0]] != None ==> v.algOf[w.stack[1]] != None
  {
    var stack := w.stack;
    if |stack| == 2 {
      assert stack[1] in top;
    } else if |stack| > 2 {
      assert Follows(g, nalg, stack[2], stack[1]);
    }
  }

  // ----- the stack rises

  /** Nothing further down the stack is built on a later algorithm. */
  lemma {:induction false} Rises(g: Graph, top: set<nat>, nalg: Option<nat>, stack: seq<nat>, rank: map<nat, nat>,
                                 i: nat)
    requires Ranked(g, rank) && Stacked(g, top, nalg, stack) && (forall s :: s in stack ==> s in g.spawns)
    requires 0 < i < |stack|
    ensures rank[g.inst[stack[i]]] < rank[g.inst[stack[0]]]
  {
    var j := i - 1;
    assert stack[i] in stack && stack[j] in stack && Follows(g, nalg, stack[i], stack[j]);
    if j == 0 {
    } else {
      Rises(g, top, nalg, stack, rank, j);
    }
  }

  /** The instance on top of the stack is nowhere else on it, and nothing on the stack is built on it. */
  lemma TopAlone(g: Graph, top: set<nat>, nalg: Option<nat>, stack: seq<nat>, t: nat)
    requires Acyclic(g) && Stacked(g, top, nalg, stack) && stack != [] && forall s :: s in stack ==> s in g.spawns
    requires t in stack && t in g.orig && t in g.inst && stack[0] in g.inst
    ensures g.orig[t] != g.inst[stack[0]] && (t != stack[0] ==> g.inst[t] != g.inst[stack[0]])
  {
    var rank :| Ranked(g, rank);
    var i :| 0 <= i < |stack| && stack[i] == t;
    if i == 0 {
    } else {
      Rises(g, top, nalg, stack, rank, i);
    }
  }

  // ----- what holds of every graph without cycles

  /** Some spawn built on the instance of `s` keeps its algorithm. */
  ghost predicate Keeps(g: Graph, algOf: map<nat, Option<nat>>, secondary: seq<nat>, s: nat) {
    exists t :: t in secondary && t in g.orig && t in algOf && s in g.inst && g.orig[t] == g.inst[s] && algOf[t] != None
  }

  /** The replacement's spawns keep their algorithm, and others only for the sake of one they lead to. */
  ghost predicate RightAt(g: Graph, nalg: Option<nat>, algOf: map<nat, Option<nat>>, secondary: seq<nat>, s: nat) {
    && s in algOf && s in g.inst
    && if Some(g.inst[s]) == nalg then algOf[s] != None else algOf[s] != None ==> Keeps(g, algOf, secondary, s)
  }

  ghost predicate AllRight(g: Graph, nalg: Option<nat>, algOf: map<nat, Option<nat>>, stack: seq<nat>,
                           secondary: seq<nat>) {
    forall s :: s in stack || s in secondary ==> RightAt(g, nalg, algOf, secondary, s)
  }

  /** A spawn that the one at `t` is built on keeps its algorithm too. */
  ghost predicate Carries(g: Graph, algOf: map<nat, Option<nat>>, stack: seq<nat>, secondary: seq<nat>, t: nat) {
    exists y :: (y in stack || y in secondary) && y in g.inst && t in g.orig && g.inst[y] == g.orig[t] && y in algOf
                && algOf[y] != None
  }

  ghost predicate AllCarried(g: Graph, top: set<nat>, algOf: map<nat, Option<nat>>, stack: seq<nat>,
                             secondary: seq<nat>) {
    forall t :: t in secondary && t in algOf && algOf[t] != None ==> t in top || Carries(g, algOf, stack, secondary, t)
  }

  predicate Twins(g: Graph, nalg: Option<nat>, s: nat, t: nat) {
    s in g.inst && t in g.inst && g.inst[s] == g.inst[t] && Some(g.inst[s]) != nalg
  }

  /** Of two spawns of one instance at most one keeps its algorithm. */
  ghost predicate Single(g: Graph, nalg: Option<nat>, algOf: map<nat, Option<nat>>, stack: seq<nat>,
                         secondary: seq<nat>) {
    && (forall s, x :: s in secondary && x in stack && Twins(g, nalg, s, x) ==>
                       x == stack[0] && x in algOf && algOf[x] == None)
    && (forall s, t :: s in secondary && t in secondary && s != t && Twins(g, nalg, s, t) ==>
                       s in algOf && t in algOf && (algOf[s] == None || algOf[t] == None))
  }

  /** Whatever is built on the instance of a spawn on the secondary list comes after it. */
  ghost predicate KidsDone(g: Graph, nalg: Option<nat>, secondary: seq<nat>) {
    secondary != [] ==> KidsDone(g, nalg, secondary[1..]) && KidsIn(g, nalg, secondary[0], secondary[1..])
  }

  ghost predicate KidsIn(g: Graph, nalg: Option<nat>, s: nat, rest: seq<nat>) {
    s in g.inst && (Some(g.inst[s]) != nalg ==>
                    forall t :: t in g.spawns && t in g.orig && g.orig[t] == g.inst[s] ==> t in rest)
  }

  lemma {:induction false} KidsBehind(g: Graph, nalg: Option<nat>, secondary: seq<nat>, i: nat)
    requires KidsDone(g, nalg, secondary) && i < |secondary|
    ensures KidsIn(g, nalg, secondary[i], secondary[i + 1..])
  {
    if i == 0 {
    } else {
      KidsBehind(g, nalg, secondary[1..], i - 1);
      assert secondary[1..][i..] == secondary[i + 1..];
    }
  }

  ghost predicate Rules(g: Graph, w: Walk, top: set<nat>, nalg: Option<nat>) {
    && AllRight(g, nalg, w.algOf, w.stack, w.secondary) && AllCarried(g, top, w.algOf, w.stack, w.secondary)
    && Single(g, nalg, w.algOf, w.stack, w.secondary) && KidsDone(g, nalg, w.secondary)
  }

  ghost predicate Inv(g: Graph, w: Walk, alg: nat, top: set<nat>, nalg: Option<nat>) {
    Base(g, w, alg, top, nalg) && Marked(g, w.algOf, w.lists, top) && Rules(g, w, top, nalg)
  }

  // ----- pushing

  lemma Pushed(g: Graph, w: Walk, alg: nat, top: set<nat>, nalg: Option<nat>, c: Option<nat>)
    requires Base(g, w, alg, top, nalg) && Marked(g, w.algOf, w.lists, top) && c in w.lists && w.lists[c] != []
    requires w.lists[c][0] in g.spawns
    ensures var x := w.lists[c][0];
            x !in w.stack && x !in w.secondary && w.algOf[x] != None && Home(g, top, x) == c
  {
    var x := w.lists[c][0];
    assert x in w.lists[c];
    assert InList(g, w.lists, top, x);
  }

  lemma PushRight(g: Graph, nalg: Option<nat>, algOf: map<nat, Option<nat>>, stack: seq<nat>, secondary: seq<nat>,
                  x: nat, algOf': map<nat, Option<nat>>)
    requires AllRight(g, nalg, algOf, stack, secondary) && x in algOf && x in g.inst && x !in secondary && x !in stack
    requires algOf[x] != None && algOf' == if Some(g.inst[x]) == nalg then algOf else algOf[x := None]
    ensures AllRight(g, nalg, algOf', [x] + stack, secondary)
  {
    forall s | s in [x] + stack || s in secondary ensures RightAt(g, nalg, algOf', secondary, s) {
      if s != x {
        assert RightAt(g, nalg, algOf, secondary, s);
        assert Keeps(g, algOf, secondary, s) ==> Keeps(g, algOf', secondary, s);
      }
    }
  }

  lemma PushCarried(g: Graph, top: set<nat>, nalg: Option<nat>, algOf: map<nat, Option<nat>>, stack: seq<nat>,
                    secondary: seq<nat>, x: nat, algOf': map<nat, Option<nat>>)
    requires AllCarried(g, top, algOf, stack, secondary) && x in g.inst && x !in secondary && x !in stack
    requires algOf' == if Some(g.inst[x]) == nalg then algOf else algOf[x := None]
    ensures AllCarried(g, top, algOf', [x] + stack, secondary)
  {
    forall t | t in secondary && t in algOf' && algOf'[t] != None
      ensures t in top || Carries(g, algOf', [x] + stack, secondary, t)
    {
      if t !in top {
        assert Carries(g, algOf, stack, secondary, t);
        var y :| (y in stack || y in secondary) && y in g.inst && t in g.orig && g.inst[y] == g.orig[t] && y in algOf
                 && algOf[y] != None;
        assert y in [x] + stack || y in secondary;
      }
    }
  }

  /** Under an instance that has been walked nothing is left to push. */
  lemma PushSingle(g: Graph, lists: map<Option<nat>, seq<nat>>, nalg: Option<nat>, algOf: map<nat, Option<nat>>,
                   stack: seq<nat>, secondary: seq<nat>, x: nat, algOf': map<nat, Option<nat>>)
    requires Single(g, nalg, algOf, stack, secondary) && Finished(g, lists, nalg, secondary)
    requires x in g.inst && x !in secondary && x !in stack && algOf' == if Some(g.inst[x]) == nalg then algOf
             else algOf[x := None]
    requires stack != [] ==> stack[0] in g.inst && !Empty(lists, Some(g.inst[stack[0]]))
    ensures Single(g, nalg, algOf', [x] + stack, secondary)
  {
  }

  lemma PushInv(g: Graph, w: Walk, alg: nat, top: set<nat>, nalg: Option<nat>)
    requires Inv(g, w, alg, top, nalg) && (w.stack != [] ==> Some(g.inst[w.stack[0]]) != nalg)
    requires Current(g, w.stack) in w.lists && w.lists[Current(g, w.stack)] != []
    ensures var c := Current(g, w.stack); w.lists[c][0] in g.spawns && Inv(g, Push(g, w, nalg, c), alg, top, nalg)
  {
    var c := Current(g, w.stack);
    PushBase(g, w, alg, top, nalg);
    PushMarked(g, w, top, nalg, c);
    Pushed(g, w, alg, top, nalg, c);
    var x, v := w.lists[c][0], Push(g, w, nalg, c);
    PushRight(g, nalg, w.algOf, w.stack, w.secondary, x, v.algOf);
    PushCarried(g, top, nalg, w.algOf, w.stack, w.secondary, x, v.algOf);
    PushSingle(g, w.lists, nalg, w.algOf, w.stack, w.secondary, x, v.algOf);
  }

  // ----- popping

  /** What a pop does to the algorithms: the parent of a spawn that keeps its own gets its own back. */
  ghost predicate GivesBack(g: Graph, stack: seq<nat>, algOf: map<nat, Option<nat>>, algOf': map<nat, Option<nat>>) {
    && stack != [] && algOf'.Keys == algOf.Keys && (forall s :: s in stack ==> s in algOf)
    && (forall s :: s in algOf && algOf'[s] != algOf[s] ==>
                    |stack| > 1 && s == stack[1] && algOf[s] == None && algOf[stack[0]] != None)
    && (|stack| > 1 && algOf[stack[0]] != None ==> algOf'[stack[1]] != None)
  }

  lemma PopRight(g: Graph, top: set<nat>, nalg: Option<nat>, algOf: map<nat, Option<nat>>, stack: seq<nat>,
                 secondary: seq<nat>, algOf': map<nat, Option<nat>>)
    requires AllRight(g, nalg, algOf, stack, secondary) && GivesBack(g, stack, algOf, algOf')
    requires Stacked(g, top, nalg, stack) && NoDup(stack)
    ensures AllRight(g, nalg, algOf', stack[1..], [stack[0]] + secondary)
  {
    var y, sec := stack[0], [stack[0]] + secondary;
    NoDupTail(stack);
    forall s | s in stack[1..] || s in sec ensures RightAt(g, nalg, algOf', sec, s) {
      assert RightAt(g, nalg, algOf, secondary, s);
      assert forall t :: t in secondary ==> t in sec;
      if algOf'[s] != algOf[s] {
        assert Follows(g, nalg, stack[1], stack[0]);
        assert y in sec && algOf'[y] == algOf[y];
        assert Keeps(g, algOf', sec, s);
      } else if Keeps(g, algOf, secondary, s) {
        assert Keeps(g, algOf', sec, s);
      }
    }
  }

  lemma PopCarried(g: Graph, top: set<nat>, nalg: Option<nat>, algOf: map<nat, Option<nat>>, stack: seq<nat>,
                   secondary: seq<nat>, algOf': map<nat, Option<nat>>)
    requires AllCarried(g, top, algOf, stack, secondary) && GivesBack(g, stack, algOf, algOf')
    requires Stacked(g, top, nalg, stack) && NoDup(stack) && (forall s :: s in stack ==> s !in secondary)
    ensures AllCarried(g, top, algOf', stack[1..], [stack[0]] + secondary)
  {
    var y, st, sec := stack[0], stack[1..], [stack[0]] + secondary;
    NoDupTail(stack);
    forall t | t in sec && t in algOf' && algOf'[t] != None ensures t in top || Carries(g, algOf', st, sec, t) {
      if t == y && |stack| > 1 {
        assert Follows(g, nalg, stack[1], stack[0]) && stack[1] in stack && st[0] == stack[1] && st[0] in st;
        assert stack[1] != y;
        assert algOf'[y] == algOf[y];
        assert Carries(g, algOf', st, sec, t);
      } else if t != y && t !in top {
        assert |stack| > 1 ==> stack[1] in stack;
        assert algOf'[t] == algOf[t];
        CarriesStill(g, algOf, stack, secondary, algOf', t);
      }
    }
  }

  lemma CarriesStill(g: Graph, algOf: map<nat, Option<nat>>, stack: seq<nat>, secondary: seq<nat>,
                     algOf': map<nat, Option<nat>>, t: nat)
    requires Carries(g, algOf, stack, secondary, t) && GivesBack(g, stack, algOf, algOf')
    ensures Carries(g, algOf', stack[1..], [stack[0]] + secondary, t)
  {
    var z :| (z in stack || z in secondary) && z in g.inst && t in g.orig && g.inst[z] == g.orig[t] && z in algOf
             && algOf[z] != None;
    assert stack == [stack[0]] + stack[1..];
    assert z in stack[1..] || z in [stack[0]] + secondary;
    assert algOf'[z] == algOf[z];
  }

  lemma PopSingle(g: Graph, top: set<nat>, nalg: Option<nat>, algOf: map<nat, Option<nat>>, stack: seq<nat>,
                  secondary: seq<nat>, algOf': map<nat, Option<nat>>)
    requires Single(g, nalg, algOf, stack, secondary) && GivesBack(g, stack, algOf, algOf') && g.Valid() && Acyclic(g)
    requires Stacked(g, top, nalg, stack) && NoDup(stack)
    requires (forall s :: s in stack ==> s !in secondary && s in g.spawns) && forall s :: s in secondary ==> s in algOf
    ensures Single(g, nalg, algOf', stack[1..], [stack[0]] + secondary)
  {
    var y, st, sec := stack[0], stack[1..], [stack[0]] + secondary;
    NoDupTail(stack);
    assert |stack| > 1 ==> stack[1] in stack;
    forall s, x | s in sec && x in st ensures !Twins(g, nalg, s, x) {
      if s == y { TopAlone(g, top, nalg, stack, x); }
    }
    forall s, t | s in sec && t in sec && s != t && Twins(g, nalg, s, t)
      ensures s in algOf' && t in algOf' && (algOf'[s] == None || algOf'[t] == None)
    {
      assert Twins(g, nalg, t, s);
      assert algOf'[y] == algOf[y];
    }
  }

  lemma PopKids(g: Graph, w: Walk, alg: nat, top: set<nat>, nalg: Option<nat>)
    requires Base(g, w, alg, top, nalg) && w.stack != [] && KidsDone(g, nalg, w.secondary)
    requires Some(g.inst[w.stack[0]]) == nalg || Empty(w.lists, Some(g.inst[w.stack[0]]))
    ensures KidsDone(g, nalg, [w.stack[0]] + w.secondary)
  {
    var s := w.stack[0];
    var sec := [s] + w.secondary;
    assert sec[1..] == w.secondary && s in w.stack;
    StackReaches(g, top, nalg, w.stack);
    forall t | t in g.spawns && g.orig[t] == g.inst[s] && Some(g.inst[s]) != nalg ensures t in w.secondary {
      assert t !in top && !InList(g, w.lists, top, t);
      if t in w.stack { TopAlone(g, top, nalg, w.stack, t); }
    }
  }

  lemma PopGives(g: Graph, w: Walk, alg: nat, top: set<nat>, nalg: Option<nat>)
    requires Base(g, w, alg, top, nalg) && Marked(g, w.algOf, w.lists, top) && w.stack != []
    ensures var v := Pop(g, w, alg); GivesBack(g, w.stack, w.algOf, v.algOf) && Marked(g, v.algOf, v.lists, top)
  {
    PopMarked(g, w, alg, top, nalg);
    assert w.stack[0] in w.stack && (|w.stack| > 1 ==> w.stack[1] in w.stack);
  }

  lemma PopInv(g: Graph, w: Walk, alg: nat, top: set<nat>, nalg: Option<nat>)
    requires Inv(g, w, alg, top, nalg) && w.stack != []
    requires Some(g.inst[w.stack[0]]) == nalg || Empty(w.lists, Some(g.inst[w.stack[0]]))
    ensures Inv(g, Pop(g, w, alg), alg, top, nalg)
  {
    var v := Pop(g, w, alg);
    PopBase(g, w, alg, top, nalg);
    PopGives(g, w, alg, top, nalg);
    PopRight(g, top, nalg, w.algOf, w.stack, w.secondary, v.algOf);
    PopCarried(g, top, nalg, w.algOf, w.stack, w.secondary, v.algOf);
    PopSingle(g, top, nalg, w.algOf, w.stack, w.secondary, v.algOf);
    PopKids(g, w, alg, top, nalg);
  }

  // ----- the path to the replacement

  /** A chain of spawns down to the replacement. */
  ghost predicate IsLead(g: Graph, nalg: Option<nat>, q: seq<nat>) {
    && q != [] && (forall i :: 0 <= i < |q| ==> q[i] in g.spawns && q[i] in g.inst)
    && (forall i, j :: 0 <= i < j < |q| && j == i + 1 ==> Follows(g, nalg, q[i], q[j]))
    && Some(g.inst[q[|q| - 1]]) == nalg
  }

  ghost predicate Leads(g: Graph, nalg: Option<nat>, s: nat) { exists q :: IsLead(g, nalg, q) && q[0] == s }

  lemma LeadFrom(g: Graph, nalg: Option<nat>, s: nat, q: seq<nat>)
    requires IsLead(g, nalg, q) && s in g.spawns && Follows(g, nalg, s, q[0])
    ensures Leads(g, nalg, s)
  {
    var r := [s] + q;
    forall i, j | 0 <= i < j < |r| && j == i + 1 ensures Follows(g, nalg, r[i], r[j]) {
      if i > 0 { assert r[i] == q[i - 1] && r[j] == q[j - 1]; }
    }
    assert IsLead(g, nalg, r);
  }

  lemma LeadOn(g: Graph, nalg: Option<nat>, q: seq<nat>)
    requires IsLead(g, nalg, q) && |q| > 1
    ensures IsLead(g, nalg, q[1..]) && Follows(g, nalg, q[0], q[1])
  {
    var p := q[1..];
    forall i, j | 0 <= i < j < |p| && j == i + 1 ensures Follows(g, nalg, p[i], p[j]) {
      assert p[i] == q[i + 1] && p[j] == q[j + 1];
    }
  }

  /** What keeps its algorithm leads to the replacement. */
  lemma {:induction false} KeptLeads(g: Graph, nalg: Option<nat>, algOf: map<nat, Option<nat>>, secondary: seq<nat>,
                                     i: nat)
    requires g.Valid() && AllRight(g, nalg, algOf, [], secondary) && KidsDone(g, nalg, secondary)
    requires (forall s :: s in secondary ==> s in g.spawns) && i < |secondary|
    requires secondary[i] in algOf && algOf[secondary[i]] != None
    ensures Leads(g, nalg, secondary[i])
    decreases |secondary| - i
  {
    var s := secondary[i];
    assert s in secondary && RightAt(g, nalg, algOf, secondary, s);
    if Some(g.inst[s]) == nalg {
      assert IsLead(g, nalg, [s]);
    } else {
      var t :| t in secondary && t in g.orig && t in algOf && g.orig[t] == g.inst[s] && algOf[t] != None;
      KidsBehind(g, nalg, secondary, i);
      var j :| i + 1 <= j < |secondary| && secondary[j] == t;
      KeptLeads(g, nalg, algOf, secondary, j);
      var q :| IsLead(g, nalg, q) && q[0] == t;
      LeadFrom(g, nalg, s, q);
    }
  }

  // ----- the walk as a whole

  /** The walk is over. */
  ghost predicate Over(g: Graph, w: Walk, alg: nat, top: set<nat>, nalg: Option<nat>) {
    Inv(g, w, alg, top, nalg) && w.stack == [] && Empty(w.lists, None)
  }

  ghost predicate IsKept(g: Graph, top: set<nat>, nalg: Option<nat>, algOf: map<nat, Option<nat>>, s: nat) {
    s in g.spawns && s in algOf && Reached(g, top, nalg, s) && algOf[s] != None
  }

  /** What the walk decides, on any graph without cycles. Spawns it does not reach are not touched. Of those it reaches,
      the replacement's keep their algorithm, and so does of the spawns of any other instance exactly one if a spawn
      built on that instance does, and else none; so what keeps its algorithm leads to the replacement. */
  ghost predicate Laws(g: Graph, top: set<nat>, nalg: Option<nat>, algOf: map<nat, Option<nat>>) {
    && (forall s :: s in g.spawns ==> s in algOf && s in g.orig && (algOf[s] == None || algOf[s] == Some(g.orig[s])))
    && (forall s :: s in g.spawns && !Reached(g, top, nalg, s) ==> algOf[s] != None)
    && (forall s :: Reached(g, top, nalg, s) && s in g.inst && Some(g.inst[s]) == nalg ==>
        IsKept(g, top, nalg, algOf, s))
    && (forall s :: IsKept(g, top, nalg, algOf, s) ==> Leads(g, nalg, s) && UserKept(g, top, nalg, algOf, s))
    && (forall t :: IsKept(g, top, nalg, algOf, t) ==> t in top || BaseKept(g, top, nalg, algOf, t))
    && (forall s, t :: IsKept(g, top, nalg, algOf, s) && IsKept(g, top, nalg, algOf, t) && Twins(g, nalg, s, t) ==>
                       s == t)
  }

  ghost predicate UserKept(g: Graph, top: set<nat>, nalg: Option<nat>, algOf: map<nat, Option<nat>>, s: nat) {
    s in g.inst && (Some(g.inst[s]) == nalg
                    || exists t :: IsKept(g, top, nalg, algOf, t) && t in g.orig && g.orig[t] == g.inst[s])
  }

  ghost predicate BaseKept(g: Graph, top: set<nat>, nalg: Option<nat>, algOf: map<nat, Option<nat>>, t: nat) {
    exists s :: IsKept(g, top, nalg, algOf, s) && s in g.inst && t in g.orig && g.inst[s] == g.orig[t]
  }

  lemma WalkLaws(g: Graph, w: Walk, alg: nat, top: set<nat>, nalg: Option<nat>)
    requires Over(g, w, alg, top, nalg)
    ensures Laws(g, top, nalg, w.algOf)
  {
    forall s ensures s in w.secondary <==> Reached(g, top, nalg, s) { WalkReaches(g, w, alg, top, nalg, s); }
    forall s | s in g.spawns && !Reached(g, top, nalg, s) ensures w.algOf[s] != None {
      assert InList(g, w.lists, top, s);
    }
    forall s | IsKept(g, top, nalg, w.algOf, s) ensures Leads(g, nalg, s) && UserKept(g, top, nalg, w.algOf, s) {
      KeptSo(g, w, alg, top, nalg, s);
    }
    forall t | IsKept(g, top, nalg, w.algOf, t) && t !in top ensures BaseKept(g, top, nalg, w.algOf, t) {
      BaseSo(g, w, alg, top, nalg, t);
    }
  }

  lemma KeptSo(g: Graph, w: Walk, alg: nat, top: set<nat>, nalg: Option<nat>, s: nat)
    requires Over(g, w, alg, top, nalg) && IsKept(g, top, nalg, w.algOf, s)
    requires forall s :: s in w.secondary <==> Reached(g, top, nalg, s)
    ensures Leads(g, nalg, s) && UserKept(g, top, nalg, w.algOf, s)
  {
    var i :| 0 <= i < |w.secondary| && w.secondary[i] == s;
    KeptLeads(g, nalg, w.algOf, w.secondary, i);
    assert RightAt(g, nalg, w.algOf, w.secondary, s);
    if Some(g.inst[s]) != nalg {
      var t :| t in w.secondary && t in g.orig && t in w.algOf && g.orig[t] == g.inst[s] && w.algOf[t] != None;
      assert IsKept(g, top, nalg, w.algOf, t);
    }
  }

  lemma BaseSo(g: Graph, w: Walk, alg: nat, top: set<nat>, nalg: Option<nat>, t: nat)
    requires Over(g, w, alg, top, nalg) && IsKept(g, top, nalg, w.algOf, t) && t !in top
    requires forall s :: s in w.secondary <==> Reached(g, top, nalg, s)
    ensures BaseKept(g, top, nalg, w.algOf, t)
  {
    assert t in w.secondary && Carries(g, w.algOf, [], w.secondary, t);
    var y :| y in w.secondary && y in g.inst && t in g.orig && g.inst[y] == g.orig[t] && y in w.algOf
             && w.algOf[y] != None;
    assert IsKept(g, top, nalg, w.algOf, y);
  }

  // ----- the algorithm itself is never reached

  lemma {:induction false} PathRises(g: Graph, alg: nat, top: set<nat>, nalg: Option<nat>, p: seq<nat>,
                                     rank: map<nat, nat>, i: nat)
    requires Ranked(g, rank) && IsPath(g, top, nalg, p) && i < |p|
    requires forall s :: s in top ==> s in g.orig && g.orig[s] == alg
    ensures alg in rank && rank[alg] < rank[g.inst[p[i]]]
  {
    assert p[i] in g.spawns;
    if i == 0 {
    } else {
      var j := i - 1;
      assert Follows(g, nalg, p[j], p[i]);
      PathRises(g, alg, top, nalg, p, rank, j);
    }
  }

  /** So the BUG_ON of the walk does not fire. */
  lemma NeverItself(g: Graph, alg: nat, top: set<nat>, nalg: Option<nat>, s: nat)
    requires Acyclic(g) && (forall s :: s in top ==> s in g.orig && g.orig[s] == alg) && Reached(g, top, nalg, s)
    ensures s in g.spawns && s in g.inst && g.inst[s] != alg
  {
    var rank :| Ranked(g, rank);
    var p :| IsPath(g, top, nalg, p) && p[|p| - 1] == s;
    PathRises(g, alg, top, nalg, p, rank, |p| - 1);
  }

  // ----- when all that leads to the replacement survives

  /** No two spawns that are reached and lead to the replacement belong to one instance, but for the replacement
      itself. */
  ghost predicate LeadsApart(g: Graph, top: set<nat>, nalg: Option<nat>) {
    forall s, t :: Reached(g, top, nalg, s) && Reached(g, top, nalg, t) && Twins(g, nalg, s, t) && Leads(g, nalg, s)
                   && Leads(g, nalg, t)
      ==> s == t
  }

  ghost predicate Survives(g: Graph, top: set<nat>, nalg: Option<nat>, algOf: map<nat, Option<nat>>, s: nat) {
    s in algOf && (algOf[s] != None <==> Leads(g, nalg, s))
  }

  lemma ReachOn(g: Graph, top: set<nat>, nalg: Option<nat>, s: nat, t: nat)
    requires Reached(g, top, nalg, s) && Follows(g, nalg, s, t) && t in g.spawns
    ensures Reached(g, top, nalg, t)
  {
    var p :| IsPath(g, top, nalg, p) && p[|p| - 1] == s;
    var r := p + [t];
    forall i, j | 0 <= i < j < |r| && j == i + 1 ensures Follows(g, nalg, r[i], r[j]) {
      if j < |p| { assert r[i] == p[i] && r[j] == p[j]; }
    }
    assert IsPath(g, top, nalg, r);
  }

  lemma {:induction false} LeadsKept(g: Graph, alg: nat, top: set<nat>, nalg: Option<nat>, algOf: map<nat, Option<nat>>,
                                     q: seq<nat>)
    requires Setting(g, alg, top, nalg) && Laws(g, top, nalg, algOf) && LeadsApart(g, top, nalg)
    requires IsLead(g, nalg, q) && Reached(g, top, nalg, q[0])
    ensures IsKept(g, top, nalg, algOf, q[0])
    decreases |q|
  {
    var s := q[0];
    if |q| == 1 {
    } else {
      LeadOn(g, nalg, q);
      var t := q[1];
      ReachOn(g, top, nalg, s, t);
      LeadsKept(g, alg, top, nalg, algOf, q[1..]);
      assert t !in top;
      assert BaseKept(g, top, nalg, algOf, t);
      var y :| IsKept(g, top, nalg, algOf, y) && y in g.inst && t in g.orig && g.inst[y] == g.orig[t];
      assert Twins(g, nalg, y, s) && Leads(g, nalg, y) && Leads(g, nalg, s);
    }
  }

  /** When the walk is over: exactly the spawns on the way to the replacement keep their algorithm if and only if no two
      of them belong to one instance. */
  lemma KeptExactly(g: Graph, alg: nat, top: set<nat>, nalg: Option<nat>, algOf: map<nat, Option<nat>>)
    requires Setting(g, alg, top, nalg) && Laws(g, top, nalg, algOf)
    ensures LeadsApart(g, top, nalg) <==>
            forall s :: Reached(g, top, nalg, s) ==> Survives(g, top, nalg, algOf, s)
  {
    forall s | Reached(g, top, nalg, s) ensures s in g.spawns {
      var p :| IsPath(g, top, nalg, p) && p[|p| - 1] == s;
    }
    if LeadsApart(g, top, nalg) {
      forall s | Reached(g, top, nalg, s) ensures Survives(g, top, nalg, algOf, s) {
        if Leads(g, nalg, s) {
          var q :| IsLead(g, nalg, q) && q[0] == s;
          LeadsKept(g, alg, top, nalg, algOf, q);
        }
        assert algOf[s] != None ==> IsKept(g, top, nalg, algOf, s);
      }
    }
    if forall s :: Reached(g, top, nalg, s) ==> Survives(g, top, nalg, algOf, s) {
      forall s, t | Reached(g, top, nalg, s) && Reached(g, top, nalg, t) && Twins(g, nalg, s, t) && Leads(g, nalg, s)
                    && Leads(g, nalg, t) ensures s == t
      {
        assert Survives(g, top, nalg, algOf, s) && Survives(g, top, nalg, algOf, t);
        assert IsKept(g, top, nalg, algOf, s) && IsKept(g, top, nalg, algOf, t);
      }
    }
  }
}
