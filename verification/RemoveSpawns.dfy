/** crypto_remove_spawns on the registry of algorithms (crypto/algapi.c). */
module RemoveSpawns {
  import opened Basics
  import opened Spawns

  // ----- the three loops

  /** The users whose mask allows the new type, in the order list_move leaves them, and the rest. */
  method Collect(list: seq<nat>, matches: set<nat>) returns (rest: seq<nat>, top: seq<nat>)
    requires NoDup(list)
    ensures NoDup(rest) && NoDup(top)
    ensures forall x :: (x in rest <==> x in list && x !in matches) && (x in top <==> x in list && x in matches)
  {
    rest, top := [], [];
    var i := 0;
    while i < |list|
      invariant i <= |list| && NoDup(rest) && NoDup(top)
      invariant forall x :: x in rest <==> x in list[..i] && x !in matches
      invariant forall x :: x in top <==> x in list[..i] && x in matches
    {
      var x := list[i];
      assert x !in list[..i];
      assert list[..i + 1] == list[..i] + [x];
      if x in matches { top := [x] + top; } else { rest := rest + [x]; }
      i := i + 1;
    }
    assert list[..i] == list;
  }

  ghost function Left(g: Graph, w: Walk): set<nat> { set s | s in g.spawns && s !in w.stack && s !in w.secondary }

  lemma PushShrinks(g: Graph, w: Walk, v: Walk, x: nat)
    requires x in g.spawns && x !in w.stack && x !in w.secondary && v.stack == [x] + w.stack
             && v.secondary == w.secondary
    ensures Left(g, v) < Left(g, w)
  {
    assert x in Left(g, w) && x !in Left(g, v);
  }

  lemma PopKeepsLeft(g: Graph, w: Walk, v: Walk)
    requires w.stack != [] && v.stack == w.stack[1..] && v.secondary == [w.stack[0]] + w.secondary
    ensures Left(g, v) == Left(g, w)
  {
    assert forall s :: s in w.stack <==> s == w.stack[0] || s in w.stack[1..];
  }

  lemma OneDown(g: Graph, w: Walk, alg: nat, top: set<nat>, nalg: Option<nat>, c: Option<nat>)
    requires Inv(g, w, alg, top, nalg) && (w.stack != [] ==> Some(g.inst[w.stack[0]]) != nalg)
    requires c == Current(g, w.stack) && c in w.lists && w.lists[c] != []
    ensures w.lists[c][0] in g.inst
    ensures var v := Push(g, w, nalg, c);
            && Inv(g, v, alg, top, nalg) && Left(g, v) < Left(g, w)
            && v.stack != [] && v.stack[0] == w.lists[c][0] && Current(g, v.stack) == Some(g.inst[w.lists[c][0]])
  {
    PushInv(g, w, alg, top, nalg);
    Pushed(g, w, alg, top, nalg, c);
    PushShrinks(g, w, Push(g, w, nalg, c), w.lists[c][0]);
  }

  lemma OneUp(g: Graph, w: Walk, alg: nat, top: set<nat>, nalg: Option<nat>)
    requires Inv(g, w, alg, top, nalg) && w.stack != []
    requires Some(g.inst[w.stack[0]]) == nalg || Empty(w.lists, Some(g.inst[w.stack[0]]))
    ensures var v := Pop(g, w, alg);
            && Inv(g, v, alg, top, nalg) && Left(g, v) == Left(g, w) && v.stack == w.stack[1..]
            && (v.stack != [] ==> Some(g.inst[v.stack[0]]) != nalg)
  {
    PopInv(g, w, alg, top, nalg);
    PopKeepsLeft(g, w, Pop(g, w, alg));
    assert |w.stack| > 1 ==> Follows(g, nalg, w.stack[1], w.stack[0]);
  }

  /** The inner loop: down to an instance without users, or to the replacement. */
  method Descend(g: Graph, start: Walk, ghost alg: nat, ghost top: set<nat>, nalg: Option<nat>) returns (w: Walk)
    requires Inv(g, start, alg, top, nalg) && (start.stack != [] ==> Some(g.inst[start.stack[0]]) != nalg)
    ensures Inv(g, w, alg, top, nalg) && Left(g, w) <= Left(g, start)
    ensures w.stack == [] ==> w == start && Empty(w.lists, None)
    ensures w.stack != [] ==> Some(g.inst[w.stack[0]]) == nalg || Empty(w.lists, Some(g.inst[w.stack[0]]))
    ensures w == start || Left(g, w) < Left(g, start)
  {
    w := start;
    var c := Current(g, w.stack);
    var atReplacement := false;
    while !atReplacement && c in w.lists && w.lists[c] != []
      invariant Inv(g, w, alg, top, nalg) && c == Current(g, w.stack)
      invariant atReplacement <==> w.stack != [] && Some(g.inst[w.stack[0]]) == nalg
      invariant w == start || (w.stack != [] && Left(g, w) < Left(g, start))
      decreases Left(g, w)
    {
      OneDown(g, w, alg, top, nalg, c);
      var x := w.lists[c][0];
      w := Push(g, w, nalg, c);
      atReplacement := Some(g.inst[x]) == nalg;
      c := Some(g.inst[x]);
    }
  }

  /** The walk: it ends with the secondary list holding exactly the spawns reached. */
  method WalkSpawns(g: Graph, start: Walk, alg: nat, ghost top: set<nat>, nalg: Option<nat>) returns (w: Walk)
    requires Inv(g, start, alg, top, nalg) && start.stack == []
    ensures Inv(g, w, alg, top, nalg) && w.stack == [] && Empty(w.lists, None)
  {
    w := start;
    while true
      invariant Inv(g, w, alg, top, nalg)
      invariant w.stack != [] ==> Some(g.inst[w.stack[0]]) != nalg
      decreases Left(g, w), |w.stack|
    {
      w := Descend(g, w, alg, top, nalg);
      if w.stack == [] { break; }
      OneUp(g, w, alg, top, nalg);
      w := Pop(g, w, alg);
    }
  }

  // ----- the registry

  /** What is left of the registry while the secondary list is being settled. */
  datatype Fate = Fate(users: map<nat, seq<nat>>, dead: set<nat>, hashed: set<nat>, removed: seq<nat>, bug: bool)

  /** crypto_remove_spawn. */
  method RemoveSpawn(inst: nat, f: Fate) returns (r: Fate)
    requires inst in f.users && f.users[inst] == []
    ensures r.users == f.users && r.bug == f.bug && r.dead == f.dead + {inst}
    ensures r.hashed == if inst in f.dead then f.hashed else f.hashed - {inst}
    ensures r.removed == if inst !in f.dead && inst in f.hashed then [inst] + f.removed else f.removed
  {
    if inst in f.dead { return f; }
    r := f.(dead := f.dead + {inst});
    if inst in f.hashed {
      r := r.(removed := [inst] + f.removed, hashed := f.hashed - {inst}, bug := f.bug || f.users[inst] != []);
    }
  }

  /** The instances that died and were in their template's list have been taken off it and handed back, each once. */
  ghost predicate Handed(f: Fate, r: Fate) {
    && f.dead <= r.dead && r.hashed == f.hashed - (r.dead - f.dead) && |f.removed| <= |r.removed|
    && var out := r.removed[..|r.removed| - |f.removed|];
       r.removed == out + f.removed && NoDup(out)
       && forall x :: x in out <==> x in f.hashed && x in r.dead && x !in f.dead
  }

  lemma HandedMore(f: Fate, r: Fate, inst: nat, r': Fate)
    requires Handed(f, r) && r'.dead == r.dead + {inst}
    requires r'.hashed == if inst in r.dead then r.hashed else r.hashed - {inst}
    requires r'.removed == if inst !in r.dead && inst in r.hashed then [inst] + r.removed else r.removed
    ensures Handed(f, r')
  {
    var out, out' := r.removed[..|r.removed| - |f.removed|], r'.removed[..|r'.removed| - |f.removed|];
    if inst !in r.dead && inst in r.hashed {
      assert out' == [inst] + out;
      assert r'.removed == [inst] + (out + f.removed);
    }
  }

  /** When its turn comes, a spawn that lost its algorithm has no users, and none has come back to it before. */
  ghost predicate TurnOk(inst: map<nat, nat>, algOf: map<nat, Option<nat>>, users: map<nat, seq<nat>>,
                         secondary: seq<nat>, i: nat)
    requires i < |secondary|
  {
    var s := secondary[i];
    && s in inst && s in algOf && inst[s] in users && (algOf[s].Some? ==> algOf[s].value in users)
    && (algOf[s] == None ==> users[inst[s]] == [] && forall x :: !Back(algOf, secondary[..i], x, inst[s]))
  }

  ghost predicate InOrder(inst: map<nat, nat>, algOf: map<nat, Option<nat>>, users: map<nat, seq<nat>>,
                          secondary: seq<nat>) {
    forall i: nat {:trigger TurnOk(inst, algOf, users, secondary, i)} ::
      i < |secondary| ==> TurnOk(inst, algOf, users, secondary, i)
  }

  ghost predicate Back(algOf: map<nat, Option<nat>>, done: seq<nat>, x: nat, a: nat) {
    x in done && x in algOf && algOf[x] == Some(a)
  }

  lemma HasFirst(s: seq<nat>)
    ensures s == [] || exists x :: x in s
  {
    if s != [] { assert s[0] in s; }
  }

  /** The spawns in `done` have been settled: those with an algorithm are back among its users, the instances of the
      others are dead. */
  ghost predicate Settled(inst: map<nat, nat>, algOf: map<nat, Option<nat>>, done: seq<nat>, f: Fate, r: Fate) {
    && r.bug == f.bug && r.users.Keys == f.users.Keys && Handed(f, r)
    && Returned(algOf, done, f.users, r.users)
    && r.dead == f.dead + DeadOf(inst, algOf, done)
  }

  /** The instances of the spawns without an algorithm. */
  ghost function DeadOf(inst: map<nat, nat>, algOf: map<nat, Option<nat>>, done: seq<nat>): set<nat> {
    set s | s in done && s in inst && s in algOf && algOf[s] == None :: inst[s]
  }

  lemma DeadMore(inst: map<nat, nat>, algOf: map<nat, Option<nat>>, done: seq<nat>, s: nat)
    requires s in inst && s in algOf
    ensures DeadOf(inst, algOf, done + [s]) == DeadOf(inst, algOf, done) + if algOf[s] == None then {inst[s]} else {}
  {
  }

  ghost predicate Returned(algOf: map<nat, Option<nat>>, done: seq<nat>, was: map<nat, seq<nat>>,
                           users: map<nat, seq<nat>>) {
    && was.Keys == users.Keys && (forall a :: a in users ==> NoDup(users[a]))
    && forall a, x :: a in users ==> (x in users[a] <==> x in was[a] || Back(algOf, done, x, a))
  }

  lemma ReturnOne(algOf: map<nat, Option<nat>>, done: seq<nat>, was: map<nat, seq<nat>>, users: map<nat, seq<nat>>,
                  s: nat)
    requires Returned(algOf, done, was, users) && s !in done && s in algOf
    requires algOf[s].Some? ==> algOf[s].value in users && s !in was[algOf[s].value]
    ensures Returned(algOf, done + [s], was,
                     if algOf[s].Some? then users[algOf[s].value := [s] + users[algOf[s].value]] else users)
  {
  }

  method SettleOne(inst: map<nat, nat>, algOf: map<nat, Option<nat>>, ghost secondary: seq<nat>, ghost i: nat, s: nat,
                   ghost f: Fate, r0: Fate) returns (r: Fate)
    requires InOrder(inst, algOf, f.users, secondary) && NoDup(secondary) && i < |secondary| && s == secondary[i]
    requires Settled(inst, algOf, secondary[..i], f, r0)
    requires s in algOf && algOf[s].Some? && algOf[s].value in f.users ==> s !in f.users[algOf[s].value]
    ensures Settled(inst, algOf, secondary[..i] + [s], f, r)
  {
    ghost var done := secondary[..i];
    assert TurnOk(inst, algOf, f.users, secondary, i);
    ReturnOne(algOf, done, f.users, r0.users, s);
    DeadMore(inst, algOf, done, s);
    if algOf[s].Some? {
      var a := algOf[s].value;
      r := r0.(users := r0.users[a := [s] + r0.users[a]]);
    } else {
      assert forall x :: x !in r0.users[inst[s]];
      HasFirst(r0.users[inst[s]]);
      r := RemoveSpawn(inst[s], r0);
      HandedMore(f, r0, inst[s], r);
    }
  }

  /** The last loop: spawns with an algorithm go back to its users, the instances of the others die. */
  method Settle(inst: map<nat, nat>, algOf: map<nat, Option<nat>>, secondary: seq<nat>, f: Fate) returns (r: Fate)
    requires InOrder(inst, algOf, f.users, secondary) && NoDup(secondary)
    requires forall a :: a in f.users ==> NoDup(f.users[a]) && forall s :: s in secondary ==> s !in f.users[a]
    ensures Settled(inst, algOf, secondary, f, r)
  {
    r := f;
    var i := 0;
    while i < |secondary|
      invariant i <= |secondary| && Settled(inst, algOf, secondary[..i], f, r)
    {
      assert secondary[..i + 1] == secondary[..i] + [secondary[i]];
      r := SettleOne(inst, algOf, secondary, i, secondary[i], f, r);
      i := i + 1;
    }
    assert secondary[..i] == secondary;
  }

  /** After the walk: what is built on an instance that dies comes after it on the secondary list. */
  lemma WalkOrders(g: Graph, w: Walk, alg: nat, top: set<nat>, nalg: Option<nat>, users: map<nat, seq<nat>>)
    requires Over(g, w, alg, top, nalg)
    requires users.Keys == g.algs && forall a :: a in g.algs ==> users[a] == w.lists[Some(a)]
    ensures InOrder(g.inst, w.algOf, users, w.secondary)
  {
    forall i: nat {:trigger TurnOk(g.inst, w.algOf, users, w.secondary, i)} | i < |w.secondary|
      ensures TurnOk(g.inst, w.algOf, users, w.secondary, i) {
      WalkTurn(g, w, alg, top, nalg, users, i);
    }
  }

  lemma WalkTurn(g: Graph, w: Walk, alg: nat, top: set<nat>, nalg: Option<nat>, users: map<nat, seq<nat>>, i: nat)
    requires Over(g, w, alg, top, nalg) && i < |w.secondary|
    requires users.Keys == g.algs && forall a :: a in g.algs ==> users[a] == w.lists[Some(a)]
    ensures TurnOk(g.inst, w.algOf, users, w.secondary, i)
  {
    assert w.secondary[i] in w.secondary && w.secondary[i] in g.spawns;
    if w.algOf[w.secondary[i]] == None {
      NoUsers(g, w, alg, top, nalg, i);
      NoneBack(g, w, alg, top, nalg, i);
    }
  }

  lemma NoUsers(g: Graph, w: Walk, alg: nat, top: set<nat>, nalg: Option<nat>, i: nat)
    requires Over(g, w, alg, top, nalg) && i < |w.secondary| && w.secondary[i] in w.algOf
             && w.algOf[w.secondary[i]] == None
    ensures var a := g.inst[w.secondary[i]]; a in g.algs && Some(a) != nalg && Empty(w.lists, Some(a))
  {
    assert w.secondary[i] in w.secondary && RightAt(g, nalg, w.algOf, w.secondary, w.secondary[i]);
  }

  lemma NotBehind(s: seq<nat>, j: nat, i: nat)
    requires NoDup(s) && j < i < |s|
    ensures s[j] !in s[i + 1..]
  {
  }

  lemma NoneBack(g: Graph, w: Walk, alg: nat, top: set<nat>, nalg: Option<nat>, i: nat)
    requires Over(g, w, alg, top, nalg) && i < |w.secondary| && w.secondary[i] in g.inst
             && Some(g.inst[w.secondary[i]]) != nalg
    ensures forall x :: !Back(w.algOf, w.secondary[..i], x, g.inst[w.secondary[i]])
  {
    KidsBehind(g, nalg, w.secondary, i);
    forall x | x in w.secondary[..i] ensures !Back(w.algOf, w.secondary[..i], x, g.inst[w.secondary[i]]) {
      assert x in w.secondary && x in g.spawns;
      KidBehind(g, nalg, w.algOf, w.secondary, i, x);
    }
  }

  lemma KidBehind(g: Graph, nalg: Option<nat>, algOf: map<nat, Option<nat>>, secondary: seq<nat>, i: nat, x: nat)
    requires NoDup(secondary) && i < |secondary| && KidsIn(g, nalg, secondary[i], secondary[i + 1..])
    requires secondary[i] in g.inst && Some(g.inst[secondary[i]]) != nalg && x in secondary[..i] && x in g.spawns
    requires x in algOf && x in g.orig && (algOf[x] == None || algOf[x] == Some(g.orig[x]))
    ensures !Back(algOf, secondary[..i], x, g.inst[secondary[i]])
  {
    var j :| 0 <= j < i && secondary[j] == x;
    NotBehind(secondary, j, i);
  }

  /** The spawns on the secondary list are in no user list, and the lists are as the walk left them. */
  lemma Unlisted(g: Graph, w: Walk, alg: nat, top: set<nat>, nalg: Option<nat>, users: map<nat, seq<nat>>)
    requires Inv(g, w, alg, top, nalg) && users.Keys == g.algs
             && forall a :: a in g.algs ==> users[a] == w.lists[Some(a)]
    ensures NoDup(w.secondary) && forall a :: a in users ==> NoDup(users[a])
                                                             && forall s :: s in w.secondary ==> s !in users[a]
  {
    forall a, s | a in users && s in w.secondary ensures s !in users[a] {
      assert s in g.spawns && !InList(g, w.lists, top, s);
    }
  }

  // ----- before the walk

  /** The lists the walk starts from: `list` the spawns to start with, `rest` the other users of the algorithm. */
  ghost predicate StartLists(users: map<nat, seq<nat>>, alg: nat, top: set<nat>, lists: map<Option<nat>, seq<nat>>) {
    && (forall a :: a in users ==> Some(a) in lists) && (forall c :: c in lists && c != None ==> c.value in users)
       && (forall c :: c in lists ==> NoDup(lists[c]))
    && alg in users && None in lists && Some(alg) in lists
    && (forall x :: x in lists[None] <==> x in top)
    && (forall x :: x in lists[Some(alg)] <==> x in users[alg] && x !in top)
    && (forall c :: c in lists && c != None && c.value != alg ==> lists[c] == users[c.value])
  }

  /** The user lists say what the graph says. */
  ghost predicate Matches(g: Graph, users: map<nat, seq<nat>>) {
    && g.Valid() && users.Keys == g.algs && (forall a :: a in users ==> NoDup(users[a]))
    && (forall a, s :: a in users && s in users[a] ==> s in g.spawns && g.orig[s] == a)
    && (forall s :: s in g.spawns ==> s in users[g.orig[s]])
  }

  lemma StartsListed(g: Graph, users: map<nat, seq<nat>>, alg: nat, top: set<nat>, lists: map<Option<nat>, seq<nat>>)
    requires Matches(g, users) && top <= g.spawns && (forall s :: s in top ==> g.orig[s] == alg)
    requires StartLists(users, alg, top, lists)
    ensures Listed(g, lists, top) && forall s :: s in g.spawns ==> InList(g, lists, top, s)
  {
    forall s | s in g.spawns ensures InList(g, lists, top, s) {
      var c := Home(g, top, s);
      assert c in lists;
    }
  }

  lemma Starts(g: Graph, alg: nat, top: set<nat>, nalg: Option<nat>, w: Walk)
    requires Setting(g, alg, top, nalg) && Listed(g, w.lists, top)
             && forall s :: s in g.spawns ==> InList(g, w.lists, top, s)
    requires w.stack == [] && w.secondary == [] && w.algOf.Keys == g.spawns
    requires forall s :: s in g.spawns ==> w.algOf[s] == Some(g.orig[s])
    ensures Inv(g, w, alg, top, nalg)
  {
  }

  // ----- after the walk

  lemma ListedOnly(g: Graph, w: Walk, alg: nat, top: set<nat>, nalg: Option<nat>, a: nat, s: nat)
    requires Inv(g, w, alg, top, nalg) && Some(a) in w.lists && s in w.lists[Some(a)]
    ensures s in g.spawns && w.algOf[s] == Some(a)
  {
    assert InList(g, w.lists, top, s);
  }

  // ----- the registry as a graph

  /** Every spawn in use is among the users of its algorithm, and nowhere else. */
  ghost predicate Consistent(inst: map<nat, nat>, algOf: map<nat, Option<nat>>, users: map<nat, seq<nat>>) {
    && inst.Keys == algOf.Keys && (forall s :: s in inst ==> inst[s] in users)
    && (forall a :: a in users ==> NoDup(users[a]))
    && (forall s :: s in algOf && algOf[s] != None ==> algOf[s].value in users && s in users[algOf[s].value])
    && (forall a, s :: a in users && s in users[a] ==> s in algOf && algOf[s] == Some(a))
  }

  function GraphOf(inst: map<nat, nat>, algOf: map<nat, Option<nat>>, users: map<nat, seq<nat>>): Graph {
    var spawns := set s | s in algOf && algOf[s] != None;
    Graph(spawns, map s | s in spawns :: algOf[s].value, map s | s in spawns && s in inst :: inst[s], users.Keys)
  }

  /** The users of the algorithm that the new type may replace. */
  ghost function TopOf(users: map<nat, seq<nat>>, alg: nat, matches: set<nat>): set<nat> {
    set s | alg in users && s in users[alg] && s in matches
  }

  lemma GraphFacts(inst: map<nat, nat>, algOf: map<nat, Option<nat>>, users: map<nat, seq<nat>>, alg: nat,
                   matches: set<nat>)
    requires Consistent(inst, algOf, users) && alg in users
    ensures var g := GraphOf(inst, algOf, users); var top := TopOf(users, alg, matches);
            && Matches(g, users) && top <= g.spawns && (forall s :: s in top ==> g.orig[s] == alg)
            && (forall s :: s in g.spawns ==> algOf[s] == Some(g.orig[s]))
               && (forall s :: s in g.spawns ==> g.inst[s] == inst[s])
  {
  }

  function ListsOf(users: map<nat, seq<nat>>, alg: nat, list: seq<nat>,
                   rest: seq<nat>): (lists: map<Option<nat>, seq<nat>>)
    ensures None in lists && (forall a :: a in users ==> Some(a) in lists)
            && forall c :: c in lists && c != None ==> c.value in users
    ensures forall c :: c in lists ==> lists[c] == if c == None then list else if c.value == alg then rest
            else users[c.value]
  {
    var keys := {None} + set a | a in users :: Some(a);
    map c | c in keys :: if c == None then list else if c.value == alg then rest else users[c.value]
  }

  method BuildLists(users: map<nat, seq<nat>>, alg: nat, matches: set<nat>) returns (lists: map<Option<nat>, seq<nat>>)
    requires alg in users && forall a :: a in users ==> NoDup(users[a])
    ensures StartLists(users, alg, TopOf(users, alg, matches), lists)
  {
    var rest, list := Collect(users[alg], matches);
    lists := ListsOf(users, alg, list, rest);
  }

  /** Every spawn is on the list of its algorithm, or on the top list. */
  ghost predicate AllListed(g: Graph, lists: map<Option<nat>, seq<nat>>, top: set<nat>) {
    Listed(g, lists, top) && forall s :: s in g.spawns ==> InList(g, lists, top, s)
  }

  lemma BuiltListed(g: Graph, users: map<nat, seq<nat>>, alg: nat, matches: set<nat>, lists: map<Option<nat>, seq<nat>>)
    requires Matches(g, users) && alg in users && StartLists(users, alg, TopOf(users, alg, matches), lists)
    ensures AllListed(g, lists, TopOf(users, alg, matches))
  {
    StartsListed(g, users, alg, TopOf(users, alg, matches), lists);
  }

  lemma StartInv(g: Graph, alg: nat, top: set<nat>, nalg: Option<nat>, lists: map<Option<nat>, seq<nat>>)
    requires g.Valid() && Setting(g, alg, top, nalg) && AllListed(g, lists, top)
    ensures Inv(g, Walk(lists, map s | s in g.spawns :: Some(g.orig[s]), [], []), alg, top, nalg)
  {
    Starts(g, alg, top, nalg, Walk(lists, map s | s in g.spawns :: Some(g.orig[s]), [], []));
  }

  lemma MakesSetting(g: Graph, users: map<nat, seq<nat>>, alg: nat, matches: set<nat>, nalg: Option<nat>)
    requires Matches(g, users) && alg in users && Acyclic(g)
    ensures Setting(g, alg, TopOf(users, alg, matches), nalg)
  {
    var top := TopOf(users, alg, matches);
    forall s | Reached(g, top, nalg, s) ensures s in g.inst && g.inst[s] != alg { NeverItself(g, alg, top, nalg, s); }
  }

  method StartWalk(g: Graph, users: map<nat, seq<nat>>, alg: nat, matches: set<nat>, ghost top: set<nat>,
                   ghost nalg: Option<nat>)
    returns (w: Walk)
    requires Matches(g, users) && top == TopOf(users, alg, matches) && alg in users && Setting(g, alg, top, nalg)
    ensures Inv(g, w, alg, top, nalg) && w.stack == []
  {
    var lists := BuildLists(users, alg, matches);
    w := Walk(lists, map s | s in g.spawns :: Some(g.orig[s]), [], []);
    BuiltListed(g, users, alg, matches, lists);
    StartInv(g, alg, top, nalg, lists);
  }

  /** A spawn is among the users of the algorithm it still has. */
  lemma SettledUsers(g: Graph, w: Walk, alg: nat, top: set<nat>, nalg: Option<nat>, s: nat, a: nat)
    requires Over(g, w, alg, top, nalg) && a in g.algs
    ensures Some(a) in w.lists
    ensures s in w.lists[Some(a)] || Back(w.algOf, w.secondary, s, a) <==> s in g.spawns && w.algOf[s] == Some(a)
  {
    assert Some(a) in w.lists;
    if s in w.lists[Some(a)] { ListedOnly(g, w, alg, top, nalg, a, s); }
    if s in w.secondary { assert s in g.spawns; }
    if s in g.spawns && s !in w.secondary { assert InList(g, w.lists, top, s); }
  }

  /** What settling leaves: every spawn is where its algorithm says, and the instances of those without one are dead. */
  ghost predicate Outcome(g: Graph, algOf: map<nat, Option<nat>>, f: Fate, r: Fate) {
    && r.bug == f.bug && r.users.Keys == f.users.Keys && Handed(f, r)
    && (forall a :: a in r.users ==> NoDup(r.users[a]))
    && (forall a, s :: a in r.users ==> (s in r.users[a] <==> s in g.spawns && s in algOf && algOf[s] == Some(a)))
    && r.dead == f.dead + Lost(g, algOf)
  }

  /** The instances of the spawns that lost their algorithm. */
  ghost function Lost(g: Graph, algOf: map<nat, Option<nat>>): set<nat> {
    set s | s in g.spawns && s in g.inst && s in algOf && algOf[s] == None :: g.inst[s]
  }

  lemma SettledRight(g: Graph, w: Walk, alg: nat, top: set<nat>, nalg: Option<nat>, users: map<nat, seq<nat>>, f: Fate,
                     r: Fate)
    requires Over(g, w, alg, top, nalg) && users.Keys == g.algs
             && forall a :: a in g.algs ==> users[a] == w.lists[Some(a)]
    requires f.users.Keys == g.algs && Settled(g.inst, w.algOf, w.secondary, f.(users := users), r)
    ensures Outcome(g, w.algOf, f, r)
  {
    UsersRight(g, w, alg, top, nalg, users, r.users);
    LostThen(g, w, alg, top, nalg);
    HandedSame(f, users, r);
  }

  lemma UsersRight(g: Graph, w: Walk, alg: nat, top: set<nat>, nalg: Option<nat>, users: map<nat, seq<nat>>,
                   users': map<nat, seq<nat>>)
    requires Over(g, w, alg, top, nalg) && users.Keys == g.algs
             && forall a :: a in g.algs ==> users[a] == w.lists[Some(a)]
    requires Returned(w.algOf, w.secondary, users, users')
    ensures forall a, s :: a in users' ==> (s in users'[a] <==> s in g.spawns && s in w.algOf && w.algOf[s] == Some(a))
  {
    forall a, s | a in users' ensures s in users'[a] <==> s in g.spawns && s in w.algOf && w.algOf[s] == Some(a) {
      UserRight(g, w, alg, top, nalg, users, users', a, s);
    }
  }

  lemma UserRight(g: Graph, w: Walk, alg: nat, top: set<nat>, nalg: Option<nat>, users: map<nat, seq<nat>>,
                  users': map<nat, seq<nat>>, a: nat, s: nat)
    requires Over(g, w, alg, top, nalg) && a in g.algs && a in users && Some(a) in w.lists
             && users[a] == w.lists[Some(a)]
    requires Returned(w.algOf, w.secondary, users, users') && a in users'
    ensures s in users'[a] <==> s in g.spawns && s in w.algOf && w.algOf[s] == Some(a)
  {
    SettledUsers(g, w, alg, top, nalg, s, a);
    assert s in users'[a] <==> s in users[a] || Back(w.algOf, w.secondary, s, a);
  }

  lemma HandedSame(f: Fate, users: map<nat, seq<nat>>, r: Fate)
    requires Handed(f.(users := users), r)
    ensures Handed(f, r)
  {
  }

  lemma LostThen(g: Graph, w: Walk, alg: nat, top: set<nat>, nalg: Option<nat>)
    requires Over(g, w, alg, top, nalg)
    ensures DeadOf(g.inst, w.algOf, w.secondary) == Lost(g, w.algOf)
  {
    forall s | s in g.spawns && w.algOf[s] == None ensures s in w.secondary { assert !InList(g, w.lists, top, s); }
    forall s | s in w.secondary ensures s in g.spawns {}
  }

  /** The whole of crypto_remove_spawns, on the user lists of a graph. */
  method RemoveFrom(g: Graph, f: Fate, alg: nat, nalg: Option<nat>, matches: set<nat>, ghost top: set<nat>)
    returns (r: Fate, w: Walk)
    requires Matches(g, f.users) && alg in f.users && top == TopOf(f.users, alg, matches) && Setting(g, alg, top, nalg)
    ensures Over(g, w, alg, top, nalg) && Outcome(g, w.algOf, f, r)
  {
    w := StartWalk(g, f.users, alg, matches, top, nalg);
    w := WalkSpawns(g, w, alg, top, nalg);
    r := SettleAll(g, w, alg, top, nalg, f);
  }

  method SettleAll(g: Graph, w: Walk, ghost alg: nat, ghost top: set<nat>, ghost nalg: Option<nat>, f: Fate)
    returns (r: Fate)
    requires Over(g, w, alg, top, nalg) && f.users.Keys == g.algs
    ensures Outcome(g, w.algOf, f, r)
  {
    var users := map a | a in f.users :: w.lists[Some(a)];
    WalkOrders(g, w, alg, top, nalg, users);
    Unlisted(g, w, alg, top, nalg, users);
    r := Settle(g.inst, w.algOf, w.secondary, f.(users := users));
    SettledRight(g, w, alg, top, nalg, users, f, r);
  }

  function After(algOf: map<nat, Option<nat>>, walked: map<nat, Option<nat>>): map<nat, Option<nat>> {
    map s | s in algOf :: if s in walked then walked[s] else algOf[s]
  }

  /** Laws speaks of the spawns of the graph. */
  lemma LawsSame(g: Graph, top: set<nat>, nalg: Option<nat>, algOf: map<nat, Option<nat>>,
                 algOf': map<nat, Option<nat>>)
    requires Laws(g, top, nalg, algOf) && forall s :: s in g.spawns ==> s in algOf && s in algOf'
                                                                        && algOf'[s] == algOf[s]
    ensures Laws(g, top, nalg, algOf')
  {
    assert forall s :: IsKept(g, top, nalg, algOf', s) <==> IsKept(g, top, nalg, algOf, s);
    forall s | IsKept(g, top, nalg, algOf', s) ensures UserKept(g, top, nalg, algOf', s) {
      assert UserKept(g, top, nalg, algOf, s);
    }
    forall t | IsKept(g, top, nalg, algOf', t) ensures t in top || BaseKept(g, top, nalg, algOf', t) {
      assert t in top || BaseKept(g, top, nalg, algOf, t);
    }
  }

  lemma ConsistentAfter(inst: map<nat, nat>, algOf: map<nat, Option<nat>>, was: map<nat, seq<nat>>, g: Graph,
                        walked: map<nat, Option<nat>>, f: Fate, r: Fate)
    requires Consistent(inst, algOf, was) && g == GraphOf(inst, algOf, was) && f.users == was
             && Outcome(g, walked, f, r)
    requires walked.Keys == g.spawns && forall s :: s in g.spawns ==> walked[s] == None || walked[s] == algOf[s]
    ensures Consistent(inst, After(algOf, walked), r.users)
  {
    forall s | s in algOf && After(algOf, walked)[s] != None
      ensures After(algOf, walked)[s].value in r.users && s in r.users[After(algOf, walked)[s].value]
    {
      assert s in g.spawns;
    }
  }

  /** The same, on the registry. */
  method RemoveAndSettle(inst: map<nat, nat>, algOf: map<nat, Option<nat>>, f: Fate, alg: nat, nalg: Option<nat>,
                         matches: set<nat>, ghost g: Graph, ghost top: set<nat>)
    returns (algOf': map<nat, Option<nat>>, r: Fate)
    requires Consistent(inst, algOf, f.users) && alg in f.users && g == GraphOf(inst, algOf, f.users) && Acyclic(g)
             && top == TopOf(f.users, alg, matches)
    ensures Consistent(inst, algOf', r.users) && r.bug == f.bug && r.users.Keys == f.users.Keys && Handed(f, r)
    ensures algOf'.Keys == algOf.Keys && Laws(g, top, nalg, algOf')
            && (LeadsApart(g, top, nalg) <==> AllSurvive(g, top, nalg, algOf'))
    ensures (forall s :: s in inst && s !in g.spawns ==> algOf'[s] == algOf[s]) && r.dead == f.dead + Lost(g, algOf')
  {
    GraphFacts(inst, algOf, f.users, alg, matches);
    MakesSetting(g, f.users, alg, matches, nalg);
    var w;
    r, w := RemoveFrom(GraphOf(inst, algOf, f.users), f, alg, nalg, matches, top);
    algOf' := After(algOf, w.algOf);
    Afterwards(inst, algOf, f, g, w, alg, top, nalg, r);
  }

  lemma Afterwards(inst: map<nat, nat>, algOf: map<nat, Option<nat>>, f: Fate, g: Graph, w: Walk, alg: nat,
                   top: set<nat>, nalg: Option<nat>, r: Fate)
    requires Consistent(inst, algOf, f.users) && g == GraphOf(inst, algOf, f.users)
    requires Over(g, w, alg, top, nalg) && Outcome(g, w.algOf, f, r)
    ensures var algOf' := After(algOf, w.algOf);
            && Consistent(inst, algOf', r.users) && Laws(g, top, nalg, algOf')
            && (LeadsApart(g, top, nalg) <==> AllSurvive(g, top, nalg, algOf'))
            && (forall s :: s in inst && s !in g.spawns ==> algOf'[s] == algOf[s]) && r.dead == f.dead + Lost(g, algOf')
  {
    ConsistentAfter(inst, algOf, f.users, g, w.algOf, f, r);
    LawsAfter(algOf, g, w, alg, top, nalg);
    LostSame(g, w.algOf, After(algOf, w.algOf));
  }

  lemma LawsAfter(algOf: map<nat, Option<nat>>, g: Graph, w: Walk, alg: nat, top: set<nat>, nalg: Option<nat>)
    requires Over(g, w, alg, top, nalg) && g.spawns <= algOf.Keys
    ensures var algOf' := After(algOf, w.algOf);
            Laws(g, top, nalg, algOf') && (LeadsApart(g, top, nalg) <==> AllSurvive(g, top, nalg, algOf'))
  {
    WalkLaws(g, w, alg, top, nalg);
    LawsSame(g, top, nalg, w.algOf, After(algOf, w.algOf));
    KeptExactly(g, alg, top, nalg, After(algOf, w.algOf));
  }

  lemma LostSame(g: Graph, algOf: map<nat, Option<nat>>, algOf': map<nat, Option<nat>>)
    requires forall s :: s in g.spawns ==> s in algOf && s in algOf' && algOf'[s] == algOf[s]
    ensures Lost(g, algOf') == Lost(g, algOf)
  {
  }

  ghost predicate AllSurvive(g: Graph, top: set<nat>, nalg: Option<nat>, algOf: map<nat, Option<nat>>) {
    forall s :: Reached(g, top, nalg, s) ==> Survives(g, top, nalg, algOf, s)
  }

  class Registry {
    /** The instance of each spawn, and the algorithm it uses. */
    var inst: map<nat, nat>
    var algOf: map<nat, Option<nat>>
    /** cra_users. */
    var users: map<nat, seq<nat>>
    /** CRYPTO_ALG_DEAD, the instances in a template's list, and those handed back for removal. */
    var dead: set<nat>
    var hashed: set<nat>
    var removed: seq<nat>
    var bug: bool

    ghost predicate Valid()
      reads this
    {
      Consistent(inst, algOf, users)
    }

    /** crypto_remove_spawns. Which spawns lose their algorithm is what Laws says, and exactly those reached that do not
        lead to the replacement if and only if no two that do belong to one instance. */
    method Remove(alg: nat, nalg: Option<nat>, matches: set<nat>, ghost g: Graph, ghost top: set<nat>)
      requires Valid() && alg in users && g == GraphOf(inst, algOf, users) && top == TopOf(users, alg, matches)
      requires Acyclic(g)
      modifies `algOf, `users, `dead, `hashed, `removed, `bug
      ensures Valid() && bug == old(bug) && users.Keys == old(users.Keys)
      ensures Laws(g, top, nalg, algOf) && (LeadsApart(g, top, nalg) <==> AllSurvive(g, top, nalg, algOf))
      ensures forall s :: s in inst && s !in g.spawns ==> s in old(algOf) && algOf[s] == old(algOf)[s]
      ensures dead == old(dead) + Lost(g, algOf)
      ensures Handed(old(Fate(users, dead, hashed, removed, bug)), Fate(users, dead, hashed, removed, bug))
    {
      var algOf', r := RemoveAndSettle(inst, algOf, Fate(users, dead, hashed, removed, bug), alg, nalg, matches, g,
                                       top);
      Store(algOf', r);
    }

    method Store(algOf': map<nat, Option<nat>>, r: Fate)
      modifies `algOf, `users, `dead, `hashed, `removed, `bug
      ensures algOf == algOf' && Fate(users, dead, hashed, removed, bug) == r
    {
      algOf, users, dead, hashed, removed, bug := algOf', r.users, r.dead, r.hashed, r.removed, r.bug;
    }
  }

  // ----- two spawns of one instance

  /** An instance of which a spawn lost its algorithm is still built upon if and only if another of its spawns kept
      its own. */
  lemma DeadInUse(g: Graph, alg: nat, top: set<nat>, nalg: Option<nat>, algOf: map<nat, Option<nat>>, s: nat)
    requires Setting(g, alg, top, nalg) && Laws(g, top, nalg, algOf) && s in g.spawns && algOf[s] == None
    ensures (exists t :: IsKept(g, top, nalg, algOf, t) && t in g.orig && g.orig[t] == g.inst[s])
       <==> (exists x :: IsKept(g, top, nalg, algOf, x) && Twins(g, nalg, s, x))
  {
    assert Reached(g, top, nalg, s) && Some(g.inst[s]) != nalg;
    if t :| IsKept(g, top, nalg, algOf, t) && t in g.orig && g.orig[t] == g.inst[s] {
      assert t !in top && BaseKept(g, top, nalg, algOf, t);
      var x :| IsKept(g, top, nalg, algOf, x) && x in g.inst && g.inst[x] == g.orig[t];
      assert Twins(g, nalg, s, x);
    }
    if x :| IsKept(g, top, nalg, algOf, x) && Twins(g, nalg, s, x) {
      assert UserKept(g, top, nalg, algOf, x);
    }
  }

  /** An instance 20 built with two spawns on algorithm 10, and the replacement 30 built on it. */
  const TWICE := Graph({1, 2, 3}, map[1 := 10, 2 := 10, 3 := 20], map[1 := 20, 2 := 20, 3 := 30], {10, 20, 30})

  lemma TwiceReached()
    ensures forall s :: s in {1, 2, 3} ==> Reached(TWICE, {1, 2}, Some(30), s)
  {
    assert IsPath(TWICE, {1, 2}, Some(30), [1]) && [1][0] == 1;
    assert IsPath(TWICE, {1, 2}, Some(30), [2]) && [2][0] == 2;
    assert IsPath(TWICE, {1, 2}, Some(30), [1, 3]) && [1, 3][1] == 3;
  }

  lemma TwiceLeads()
    ensures Leads(TWICE, Some(30), 1) && Leads(TWICE, Some(30), 2) && Twins(TWICE, Some(30), 1, 2)
  {
    assert IsLead(TWICE, Some(30), [1, 3]) && [1, 3][0] == 1;
    assert IsLead(TWICE, Some(30), [2, 3]) && [2, 3][0] == 2;
  }

  lemma TwiceAcyclic()
    ensures Acyclic(TWICE) && !LeadsApart(TWICE, {1, 2}, Some(30))
  {
    assert Ranked(TWICE, map[10 := 0, 20 := 1, 30 := 2]);
    TwiceReached();
    TwiceLeads();
  }

  /** The instance dies with one of its spawns, while the replacement goes on using it. */
  lemma DiesInUse(algOf: map<nat, Option<nat>>)
    requires Laws(TWICE, {1, 2}, Some(30), algOf)
    ensures algOf[3] == Some(20) && 20 in Lost(TWICE, algOf)
  {
    var g, top, nalg := TWICE, {1 as nat, 2}, Some(30 as nat);
    TwiceReached();
    TwiceLeads();
    assert IsKept(g, top, nalg, algOf, 3);
    assert !(IsKept(g, top, nalg, algOf, 1) && IsKept(g, top, nalg, algOf, 2));
  }
}
