/** CFQ shares the disk between groups by weight (the group service tree of block/cfq-iosched.c). */
module CfqGroups {
  import opened Basics

  /** 1 << CFQ_SERVICE_SHIFT times BLKIO_WEIGHT_DEFAULT. */
  const SCALE: nat := 4096 * 500

  /** cfq_scale_slice. */
  function Scaled(charge: nat, weight: nat): nat
    requires weight > 0
  {
    charge * SCALE / weight
  }

  /** Division rounds down by less than one. */
  lemma ScaledBounds(charge: nat, weight: nat)
    requires weight > 0
    ensures weight * Scaled(charge, weight) <= charge * SCALE < weight * (Scaled(charge, weight) + 1)
  {
    var n := charge * SCALE;
    assert n == weight * (n / weight) + n % weight;
  }

  // ----- the groups and their steps

  /** The groups on the tree with their virtual times, the group chosen for service, and the charges made so far.
      `idleDelay` stands for CFQ_IDLE_DELAY. */
  datatype Groups = Groups(weight: map<nat, nat>, idleDelay: nat, onSt: set<nat>, vdisktime: map<nat, int>, min: int,
                           serving: Option<nat>, log: seq<Paid>)

  /** A slice that a group was charged for. */
  datatype Paid = Paid(group: nat, slice: nat)

  datatype Label =
    | Join(group: nat, last: Option<nat>)   // cfq_group_service_tree_add; `last` is the rightmost group, if any
    | Leave(group: nat)                     // cfq_group_service_tree_del of the last queue
    | Select(group: nat)                    // cfq_get_next_cfqg: the leftmost group
    | Charge(slice: nat)                    // cfq_group_served

  predicate Least(s: Groups, g: nat) {
    g in s.vdisktime && forall x :: x in s.onSt ==> x in s.vdisktime && s.vdisktime[g] <= s.vdisktime[x]
  }

  predicate Greatest(s: Groups, g: nat) {
    g in s.onSt && g in s.vdisktime && forall x :: x in s.onSt ==> x in s.vdisktime && s.vdisktime[x] <= s.vdisktime[g]
  }

  predicate Enabled(s: Groups, l: Label) {
    match l
    case Join(g, last) =>
      && g !in s.onSt && g in s.weight && s.weight[g] > 0
      && if last == None then s.onSt == {} else Greatest(s, last.value)
    case Leave(g) => g in s.onSt
    case Select(g) => g in s.onSt && Least(s, g)
    case Charge(_) =>
      && s.serving != None && s.serving.value in s.onSt
      && s.serving.value in s.vdisktime && s.serving.value in s.weight && s.weight[s.serving.value] > 0
  }

  function Next(s: Groups, l: Label): Groups
    requires Enabled(s, l)
  {
    match l
    case Join(g, last) =>
      var key := if last == None then s.min else s.vdisktime[last.value] + s.idleDelay;
      s.(onSt := s.onSt + {g}, vdisktime := s.vdisktime[g := key])
    case Leave(g) => s.(onSt := s.onSt - {g}, serving := if s.serving == Some(g) then None else s.serving)
    case Select(g) =>
      s.(serving := Some(g), min := if s.vdisktime[g] > s.min then s.vdisktime[g] else s.min)
    case Charge(slice) =>
      var g := s.serving.value;
      s.(vdisktime := s.vdisktime[g := s.vdisktime[g] + Scaled(slice, s.weight[g])], serving := None,
         log := s.log + [Paid(g, slice)])
  }

  predicate IsRun(s: Groups, labels: seq<Label>)
    decreases |labels|
  {
    labels == [] || (Enabled(s, labels[0]) && IsRun(Next(s, labels[0]), labels[1..]))
  }

  function After(s: Groups, labels: seq<Label>): Groups
    requires IsRun(s, labels)
    decreases |labels|
  {
    if labels == [] then s else After(Next(s, labels[0]), labels[1..])
  }

  /** Every group on the tree has a weight and a virtual time, and the one chosen still has the least. */
  predicate Ok(s: Groups) {
    && (forall g :: g in s.onSt ==> g in s.weight && s.weight[g] > 0 && g in s.vdisktime)
    && (s.serving != None ==> s.serving.value in s.onSt && Least(s, s.serving.value))
  }

  lemma StepOk(s: Groups, l: Label)
    requires Ok(s) && Enabled(s, l)
    ensures Ok(Next(s, l))
  {
  }

  /** A group that joins is idleDelay behind all others on the tree; on an empty tree it starts at the minimum. */
  lemma JoinsLast(s: Groups, g: nat, last: Option<nat>)
    requires Ok(s) && Enabled(s, Join(g, last))
    ensures var r := Next(s, Join(g, last));
            && r.onSt == s.onSt + {g} && g in r.vdisktime
            && (s.onSt == {} ==> r.vdisktime[g] == s.min)
            && (forall x :: x in s.onSt ==> r.vdisktime[x] == s.vdisktime[x] <= r.vdisktime[g] - s.idleDelay)
            && (s.onSt != {} ==> exists x :: x in s.onSt && r.vdisktime[g] == s.vdisktime[x] + s.idleDelay)
  {
  }

  /** The group chosen stays so, at its virtual time, whoever else comes and goes, until it is charged or leaves. */
  lemma StaysChosen(s: Groups, l: Label)
    requires Ok(s) && Enabled(s, l) && s.serving != None && (l.Join? || l.Leave?) && l.group != s.serving.value
    ensures var r := Next(s, l);
            && r.serving == s.serving && r.min == s.min && r.log == s.log
            && r.serving.value in r.vdisktime && r.vdisktime[r.serving.value] == s.vdisktime[s.serving.value]
  {
  }

  /** The groups chosen in a run, each with its virtual time then. */
  function Chosen(s: Groups, labels: seq<Label>): set<(nat, int)>
    requires IsRun(s, labels)
    decreases |labels|
  {
    if labels == [] then {}
    else
      Chosen(Next(s, labels[0]), labels[1..])
      + if labels[0].Select? then {(labels[0].group, s.vdisktime[labels[0].group])} else {}
  }

  /** The minimum is the greatest virtual time at which a group has been chosen, so one that joins an empty tree has no
      credit for the time it was away. */
  lemma {:induction false} MinIsGreatest(s: Groups, labels: seq<Label>)
    requires IsRun(s, labels)
    ensures var m := After(s, labels).min;
            && s.min <= m && (forall c :: c in Chosen(s, labels) ==> c.1 <= m)
            && (m == s.min || exists c :: c in Chosen(s, labels) && c.1 == m)
    decreases |labels|
  {
    if labels == [] {
    } else {
      var l, r, rest := labels[0], Next(s, labels[0]), labels[1..];
      MinIsGreatest(r, rest);
      var m := After(s, labels).min;
      if l.Select? { assert (l.group, s.vdisktime[l.group]) in Chosen(s, labels); }
      if m != s.min && m != r.min {
        var c :| c in Chosen(r, rest) && c.1 == m;
        assert c in Chosen(s, labels);
      }
    }
  }

  // ----- the tree

  predicate NonFalling(key: map<nat, int>, s: seq<nat>) {
    (forall x :: x in s ==> x in key) && forall i, j :: 0 <= i < j < |s| ==> key[s[i]] <= key[s[j]]
  }

  /** The place of a key in the tree: behind its equals. */
  method FindPlace(key: map<nat, int>, s: seq<nat>, k: int) returns (i: nat)
    requires NonFalling(key, s)
    ensures i <= |s| && (forall j :: 0 <= j < i ==> key[s[j]] <= k) && (forall j :: i <= j < |s| ==> k < key[s[j]])
  {
    i := |s|;
    while i > 0 && k < key[s[i - 1]]
      invariant i <= |s| && forall j :: i <= j < |s| ==> k < key[s[j]]
    {
      i := i - 1;
    }
  }

  lemma Inserted(key: map<nat, int>, s: seq<nat>, i: nat, g: nat, k: int)
    requires NonFalling(key, s) && NoDup(s) && g !in s && i <= |s|
    requires (forall j :: 0 <= j < i ==> key[s[j]] <= k) && (forall j :: i <= j < |s| ==> k < key[s[j]])
    ensures var t := s[..i] + [g] + s[i..];
            NonFalling(key[g := k], t) && NoDup(t) && forall x :: x in t <==> x in s || x == g
  {
    var t := s[..i] + [g] + s[i..];
    forall x | x in s ensures x in t {
      var j :| 0 <= j < |s| && s[j] == x;
      assert t[if j < i then j else j + 1] == x;
    }
    assert t[i] == g;
  }

  lemma Dropped(key: map<nat, int>, s: seq<nat>, i: nat)
    requires NonFalling(key, s) && NoDup(s) && i < |s|
    ensures var t := s[..i] + s[i + 1..]; NonFalling(key, t) && NoDup(t) && forall x :: x in t <==> x in s && x != s[i]
  {
    var t := s[..i] + s[i + 1..];
    forall x | x in s && x != s[i] ensures x in t {
      var j :| 0 <= j < |s| && s[j] == x;
      assert t[if j < i then j else j - 1] == x;
    }
  }

  lemma Outer(key: map<nat, int>, s: seq<nat>, x: nat)
    requires NonFalling(key, s) && x in s
    ensures key[s[0]] <= key[x] <= key[s[|s| - 1]]
  {
    var i :| 0 <= i < |s| && s[i] == x;
  }

  class GroupTree {
    const weight: map<nat, nat>
    const idleDelay: nat
    /** The tree, leftmost first, the virtual times, and the group chosen for service. */
    var st: seq<nat>
    var vdisktime: map<nat, int>
    var minVdisktime: int
    var serving: Option<nat>
    ghost var log: seq<Paid>

    ghost function State(): Groups
      reads this
    {
      Groups(weight, idleDelay, (set g | g in st), vdisktime, minVdisktime, serving, log)
    }

    ghost predicate Valid()
      reads this
    {
      NonFalling(vdisktime, st) && NoDup(st) && Ok(State())
    }

    constructor (weight: map<nat, nat>, idleDelay: nat)
      ensures Valid() && State() == Groups(weight, idleDelay, {}, map[], 0, None, [])
    {
      this.weight, this.idleDelay := weight, idleDelay;
      st, vdisktime, minVdisktime, serving, log := [], map[], 0, None, [];
    }

    /** __cfq_group_service_tree_add. */
    method Insert(g: nat, k: int)
      requires NonFalling(vdisktime, st) && NoDup(st) && g !in st
      modifies `st, `vdisktime
      ensures NonFalling(vdisktime, st) && NoDup(st) && vdisktime == old(vdisktime)[g := k]
      ensures forall x :: x in st <==> x in old(st) || x == g
    {
      var i := FindPlace(vdisktime, st, k);
      Inserted(vdisktime, st, i, g, k);
      st, vdisktime := st[..i] + [g] + st[i..], vdisktime[g := k];
    }

    /** cfq_rb_erase. */
    method Erase(g: nat)
      requires NonFalling(vdisktime, st) && NoDup(st) && g in st
      modifies `st
      ensures NonFalling(vdisktime, st) && NoDup(st) && forall x :: x in st <==> x in old(st) && x != g
    {
      var i := 0;
      while st[i] != g
        invariant i < |st| && g in st[i..]
        decreases |st| - i
      {
        i := i + 1;
      }
      Dropped(vdisktime, st, i);
      st := st[..i] + st[i + 1..];
    }

    /** The rightmost group. */
    function Last(): Option<nat>
      reads this
    {
      if st == [] then None else Some(st[|st| - 1])
    }

    /** cfq_group_service_tree_add for a group that is not on the tree: it goes to the end. */
    method Add(g: nat)
      requires Valid() && g !in st && g in weight && weight[g] > 0
      modifies `st, `vdisktime
      ensures Valid() && old(Enabled(State(), Join(g, Last()))) && State() == old(Next(State(), Join(g, Last())))
    {
      forall x | x in st ensures vdisktime[x] <= vdisktime[st[|st| - 1]] { Outer(vdisktime, st, x); }
      ghost var q, l := State(), Join(g, Last());
      assert st != [] ==> st[|st| - 1] in st;
      var k := if st == [] then minVdisktime else vdisktime[st[|st| - 1]] + idleDelay;
      StepOk(q, l);
      Insert(g, k);
      assert State() == Next(q, l);
    }

    /** cfq_group_service_tree_del for the last queue of a group. */
    method Del(g: nat)
      requires Valid() && g in st
      modifies `st, `serving
      ensures Valid() && State() == old(Next(State(), Leave(g)))
    {
      ghost var q := State();
      StepOk(q, Leave(g));
      Erase(g);
      if serving == Some(g) { serving := None; }
      assert State() == Next(q, Leave(g));
    }

    /** cfq_get_next_cfqg: the leftmost group is served next. */
    method Choose() returns (g: nat)
      requires Valid() && st != []
      modifies `serving, `minVdisktime
      ensures Valid() && old(Enabled(State(), Select(g))) && State() == old(Next(State(), Select(g)))
    {
      g := st[0];
      assert g in st;
      forall x | x in st ensures vdisktime[g] <= vdisktime[x] { Outer(vdisktime, st, x); }
      ghost var q := State();
      StepOk(q, Select(g));
      serving := Some(g);
      if vdisktime[g] > minVdisktime { minVdisktime := vdisktime[g]; }
    }

    /** cfq_group_served: the group is charged for the slice it had. */
    method Served(slice: nat)
      requires Valid() && serving != None
      modifies `st, `vdisktime, `serving, `log
      ensures Valid() && old(Enabled(State(), Charge(slice))) && State() == old(Next(State(), Charge(slice)))
    {
      ghost var q := State();
      StepOk(q, Charge(slice));
      var g := serving.value;
      Erase(g);
      Insert(g, vdisktime[g] + Scaled(slice, weight[g]));
      serving := None;
      log := log + [Paid(g, slice)];
      assert State() == Next(q, Charge(slice));
    }
  }

  // ----- fairness

  function Abs(x: int): nat { if x < 0 then -x else x }

  function Max(a: nat, b: nat): nat { if a < b then b else a }

  /** What a group has been charged: time, number of charges. */
  datatype Bill = Bill(time: nat, times: nat)

  /** The bill that a list of charges makes up for group g. */
  function BillOf(log: seq<Paid>, g: nat): Bill {
    if log == [] then Bill(0, 0)
    else
      var b, last := BillOf(log[..|log| - 1], g), log[|log| - 1];
      if last.group == g then Bill(b.time + last.slice, b.times + 1) else b
  }

  /** The largest scaled charge to group a or b in it. */
  function Largest(weight: map<nat, nat>, log: seq<Paid>, a: nat, b: nat): nat
    requires a in weight && weight[a] > 0 && b in weight && weight[b] > 0
  {
    if log == [] then 0
    else
      var last := log[|log| - 1];
      Max(Largest(weight, log[..|log| - 1], a, b),
          if last.group == a then Scaled(last.slice, weight[a])
          else if last.group == b then Scaled(last.slice, weight[b]) else 0)
  }

  /** The virtual time of a group says what it was charged, but for rounding. */
  predicate Billed(weight: nat, start: int, now: int, b: Bill) {
    weight * (now - start) <= b.time * SCALE <= weight * (now - start + b.times)
  }

  lemma BillMore(weight: nat, start: int, now: int, b: Bill, charge: nat)
    requires weight > 0 && Billed(weight, start, now, b)
    ensures Billed(weight, start, now + Scaled(charge, weight), Bill(b.time + charge, b.times + 1))
  {
    ScaledBounds(charge, weight);
    var d := Scaled(charge, weight);
    assert weight * (now + d - start) == weight * (now - start) + weight * d;
    assert weight * (now + d - start + b.times + 1) == weight * (now - start + b.times) + weight * (d + 1);
    assert (b.time + charge) * SCALE == b.time * SCALE + charge * SCALE;
  }

  /** Charged time by weight differs by a bounded amount. */
  lemma Shares(wa: nat, wb: nat, da: int, db: int, a: Bill, b: Bill, gap: nat)
    requires wa > 0 && wb > 0 && Billed(wa, 0, da, a) && Billed(wb, 0, db, b) && da - db <= gap
    ensures a.time * SCALE * wb <= b.time * SCALE * wa + wa * wb * (gap + a.times)
  {
    calc {
      a.time * SCALE * wb;
    <= { MulLe(a.time * SCALE, wa * (da + a.times), wb); }
      wa * (da + a.times) * wb;
    == { Rearrange(wa, da + a.times, wb); }
      wa * wb * (da + a.times);
    <= { MulLe(da + a.times, db + gap + a.times, wa * wb); }
      wa * wb * (db + gap + a.times);
    == { Distribute(wa * wb, db, gap + a.times); }
      wa * wb * db + wa * wb * (gap + a.times);
    <= { MulLe(wb * db, b.time * SCALE, wa); Rearrange(wa, db, wb); }
      b.time * SCALE * wa + wa * wb * (gap + a.times);
    }
  }

  lemma MulLe(x: int, y: int, z: nat)
    requires x <= y
    ensures x * z <= y * z && z * x <= z * y
  {
  }

  lemma Rearrange(x: int, y: int, z: int)
    ensures x * y * z == x * z * y && x * (z * y) == x * z * y && z * y * x == x * z * y
  {
  }

  lemma Distribute(x: int, y: int, z: int)
    ensures x * (y + z) == x * y + x * z
  {
  }

  /** What is known of two groups that have stayed on the tree since their virtual times were va and vb and the log had
      `n` entries. */
  predicate Fair(va: int, vb: int, n: nat, s: Groups, a: nat, b: nat) {
    && Ok(s) && a in s.onSt && b in s.onSt && a != b && n <= |s.log|
    && Abs(s.vdisktime[a] - s.vdisktime[b]) <= Max(Abs(va - vb), Largest(s.weight, s.log[n..], a, b))
    && Billed(s.weight[a], va, s.vdisktime[a], BillOf(s.log[n..], a))
    && Billed(s.weight[b], vb, s.vdisktime[b], BillOf(s.log[n..], b))
  }

  /** One charge: only the group with the least virtual time is charged, so the gap cannot outgrow the charge. */
  lemma ChargeFair(va: int, vb: int, n: nat, s: Groups, a: nat, b: nat, slice: nat)
    requires Fair(va, vb, n, s, a, b) && Enabled(s, Charge(slice))
    ensures Fair(va, vb, n, Next(s, Charge(slice)), a, b)
  {
    StepOk(s, Charge(slice));
    var r, g := Next(s, Charge(slice)), s.serving.value;
    assert r.log[n..][..|r.log[n..]| - 1] == s.log[n..];
    BillMore(s.weight[a], va, s.vdisktime[a], BillOf(s.log[n..], a), slice);
    BillMore(s.weight[b], vb, s.vdisktime[b], BillOf(s.log[n..], b), slice);
  }

  lemma StepFair(va: int, vb: int, n: nat, s: Groups, a: nat, b: nat, l: Label)
    requires Fair(va, vb, n, s, a, b) && Enabled(s, l) && l != Leave(a) && l != Leave(b)
    ensures Fair(va, vb, n, Next(s, l), a, b)
  {
    if l.Charge? {
      ChargeFair(va, vb, n, s, a, b, l.slice);
    } else {
      StepOk(s, l);
    }
  }

  /** Neither group leaves the tree. */
  predicate Stay(labels: seq<Label>, a: nat, b: nat) { Leave(a) !in labels && Leave(b) !in labels }

  lemma {:induction false} RunFair(va: int, vb: int, n: nat, s: Groups, a: nat, b: nat, labels: seq<Label>)
    requires Fair(va, vb, n, s, a, b) && IsRun(s, labels) && Stay(labels, a, b)
    ensures Fair(va, vb, n, After(s, labels), a, b)
    decreases |labels|
  {
    if labels == [] {
    } else {
      StepFair(va, vb, n, s, a, b, labels[0]);
      RunFair(va, vb, n, Next(s, labels[0]), a, b, labels[1..]);
    }
  }

  /** Charged time by weight stays together: the difference is at most the two gaps and one for each charge. */
  predicate InProportion(wa: nat, wb: nat, a: Bill, b: Bill, gap: nat) {
    && a.time * SCALE * wb <= b.time * SCALE * wa + wa * wb * (gap + a.times)
    && b.time * SCALE * wa <= a.time * SCALE * wb + wb * wa * (gap + b.times)
  }

  lemma FairShares(va: int, vb: int, n: nat, s: Groups, a: nat, b: nat)
    requires Fair(va, vb, n, s, a, b)
    ensures InProportion(s.weight[a], s.weight[b], BillOf(s.log[n..], a), BillOf(s.log[n..], b),
                         2 * Max(Abs(va - vb), Largest(s.weight, s.log[n..], a, b)))
  {
    var wa, wb, ba, bb := s.weight[a], s.weight[b], BillOf(s.log[n..], a), BillOf(s.log[n..], b);
    var gap := 2 * Max(Abs(va - vb), Largest(s.weight, s.log[n..], a, b));
    var da, db := s.vdisktime[a] - va, s.vdisktime[b] - vb;
    Shares(wa, wb, da, db, ba, bb, gap);
    Shares(wb, wa, db, da, bb, ba, gap);
  }

  lemma {:induction false} RunFrame(s: Groups, labels: seq<Label>)
    requires IsRun(s, labels)
    ensures After(s, labels).weight == s.weight && s.log <= After(s, labels).log
    decreases |labels|
  {
    if labels == [] {
    } else {
      RunFrame(Next(s, labels[0]), labels[1..]);
    }
  }

  /** From `s` to `r` the groups a and b have been served fairly. With `paid` the charges made in between: the gap of
      the virtual times is at most the larger of the first gap and the largest scaled charge to either, and what the two
      were charged is in proportion to their weights. */
  predicate ServedFairly(s: Groups, r: Groups, a: nat, b: nat)
    requires Ok(s) && a in s.onSt && b in s.onSt
  {
    && a in r.onSt && b in r.onSt && a in r.vdisktime && b in r.vdisktime && r.weight == s.weight && s.log <= r.log
    && var paid, first := r.log[|s.log|..], Abs(s.vdisktime[a] - s.vdisktime[b]);
       var gap := Max(first, Largest(s.weight, paid, a, b));
       && Abs(r.vdisktime[a] - r.vdisktime[b]) <= gap
       && InProportion(s.weight[a], s.weight[b], BillOf(paid, a), BillOf(paid, b), 2 * gap)
  }

  lemma FairAfter(s: Groups, r: Groups, a: nat, b: nat)
    requires Ok(s) && a in s.onSt && b in s.onSt && r.weight == s.weight && s.log <= r.log
    requires Fair(s.vdisktime[a], s.vdisktime[b], |s.log|, r, a, b)
    ensures ServedFairly(s, r, a, b)
  {
    FairShares(s.vdisktime[a], s.vdisktime[b], |s.log|, r, a, b);
  }

  /** Any run in which two groups stay on the tree serves them fairly. */
  lemma GroupsFair(s: Groups, labels: seq<Label>, a: nat, b: nat)
    requires Ok(s) && a in s.onSt && b in s.onSt && a != b && IsRun(s, labels) && Stay(labels, a, b)
    ensures ServedFairly(s, After(s, labels), a, b)
  {
    RunFair(s.vdisktime[a], s.vdisktime[b], |s.log|, s, a, b, labels);
    RunFrame(s, labels);
    FairAfter(s, After(s, labels), a, b);
  }
}
