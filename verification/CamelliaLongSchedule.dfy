/**
  The key schedule of Camellia for 192 and 256-bit keys: four values, KL, KR, KA and KB, of which the code again rotates
  each one again and again. KR comes back to where it started before KA and KB are made from it.
*/
module CamelliaLongSchedule {
  import opened CamelliaSchedule

  /** The subkeys made from KL, KR, KA and KB, in the layout of the code. */
  function LongSchedule<Q, X, H>(c: KeyOps<Q, X, H>, kl: X, kr: X, ka: X, kb: X): (k: seq<H>)
    ensures |k| == 34
  {
    [ c.left(kl), c.right(kl), c.left(kb), c.right(kb),
      c.left(c.rol(kr, 15)), c.right(c.rol(kr, 15)), c.left(c.rol(ka, 15)), c.right(c.rol(ka, 15)),
      c.left(c.rol(kr, 30)), c.right(c.rol(kr, 30)),
      c.left(c.rol(kb, 30)), c.right(c.rol(kb, 30)), c.left(c.rol(kl, 45)), c.right(c.rol(kl, 45)),
      c.left(c.rol(ka, 45)), c.right(c.rol(ka, 45)),
      c.left(c.rol(kl, 60)), c.right(c.rol(kl, 60)),
      c.left(c.rol(kr, 60)), c.right(c.rol(kr, 60)), c.left(c.rol(kb, 60)), c.right(c.rol(kb, 60)),
      c.left(c.rol(kl, 77)), c.right(c.rol(kl, 77)),
      c.left(c.rol(ka, 77)), c.right(c.rol(ka, 77)),
      c.left(c.rol(kr, 94)), c.right(c.rol(kr, 94)), c.left(c.rol(ka, 94)), c.right(c.rol(ka, 94)),
      c.left(c.rol(kl, 111)), c.right(c.rol(kl, 111)), c.left(c.rol(kb, 111)), c.right(c.rol(kb, 111)) ]
  }

  // ----- the chains of rotations

  datatype FromKL<H> = FromKL(h: Halves<H>, h45: Halves<H>, h60: Halves<H>, h77: Halves<H>, h111: Halves<H>)

  datatype FromKR<H> = FromKR(h15: Halves<H>, h30: Halves<H>, h60: Halves<H>, h94: Halves<H>, h: Halves<H>)

  datatype FromKA<H> = FromKA(h15: Halves<H>, h45: Halves<H>, h77: Halves<H>, h94: Halves<H>)

  datatype FromKB<H> = FromKB(h: Halves<H>, h30: Halves<H>, h60: Halves<H>, h111: Halves<H>)

  /** "generate KL dependent subkeys". */
  method ChainLongKL<Q(!new), X(!new), H>(c: KeyOps<Q, X, H>, kl: Q) returns (f: FromKL<H>)
    requires Lawful(c)
    ensures var x := c.cat(kl);
            f == FromKL(HalvesOf(c, x), HalvesOf(c, c.rol(x, 45)), HalvesOf(c, c.rol(x, 60)), HalvesOf(c, c.rol(x, 77)),
                        HalvesOf(c, c.rol(x, 111)))
  {
    ghost var x := c.cat(kl);
    var k := kl;
    Turned(c, k, x);
    var h := Read(c, k);
    assert RotatesMore(c, k) && Adds(c, x) && AddsMore(c, x);
    k := c.rol45(k);
    Turned(c, k, c.rol(x, 45));
    var h45 := Read(c, k);
    assert Rotates(c, k);
    k := c.rol15(k);
    Turned(c, k, c.rol(x, 60));
    var h60 := Read(c, k);
    assert Rotates(c, k);
    k := c.rol17(k);
    Turned(c, k, c.rol(x, 77));
    var h77 := Read(c, k);
    assert Rotates(c, k);
    k := c.rol34(k);
    Turned(c, k, c.rol(x, 111));
    f := FromKL(h, h45, h60, h77, Read(c, k));
  }

  /** "generate KR dependent subkeys": the last rotation makes it 128 bits. */
  method ChainKR<Q(!new), X(!new), H>(c: KeyOps<Q, X, H>, kr: Q) returns (f: FromKR<H>)
    requires Lawful(c)
    ensures var x := c.cat(kr);
            f == FromKR(HalvesOf(c, c.rol(x, 15)), HalvesOf(c, c.rol(x, 30)), HalvesOf(c, c.rol(x, 60)),
                        HalvesOf(c, c.rol(x, 94)),
                        HalvesOf(c, x))
  {
    ghost var x := c.cat(kr);
    var k := kr;
    assert Rotates(c, k) && Adds(c, x) && AddsMore(c, x);
    k := c.rol15(k);
    Turned(c, k, c.rol(x, 15));
    var h15 := Read(c, k);
    assert Rotates(c, k);
    k := c.rol15(k);
    Turned(c, k, c.rol(x, 30));
    var h30 := Read(c, k);
    assert Rotates(c, k);
    k := c.rol30(k);
    Turned(c, k, c.rol(x, 60));
    var h60 := Read(c, k);
    assert Rotates(c, k);
    k := c.rol34(k);
    Turned(c, k, c.rol(x, 94));
    var h94 := Read(c, k);
    assert Rotates(c, k);
    k := c.rol34(k);
    Turned(c, k, x);
    f := FromKR(h15, h30, h60, h94, Read(c, k));
  }

  /** "generate KA dependent subkeys": kl5 and kl6 are read with the words one place on. */
  method ChainLongKA<Q(!new), X(!new), H>(c: KeyOps<Q, X, H>, ka: Q) returns (f: FromKA<H>)
    requires Lawful(c)
    ensures var x := c.cat(ka);
            f == FromKA(HalvesOf(c, c.rol(x, 15)), HalvesOf(c, c.rol(x, 45)), HalvesOf(c, c.rol(x, 77)),
                        HalvesOf(c, c.rol(x, 94)))
  {
    ghost var x := c.cat(ka);
    var k := ka;
    assert Rotates(c, k) && Adds(c, x) && AddsMore(c, x);
    k := c.rol15(k);
    Turned(c, k, c.rol(x, 15));
    var h15 := Read(c, k);
    assert Rotates(c, k);
    k := c.rol30(k);
    Turned(c, k, c.rol(x, 45));
    var h45 := Read(c, k);
    assert RotatesMore(c, k);
    Turned(c, c.turn32(k), c.rol(x, 77));
    var h77 := Read(c, c.turn32(k));
    k := c.rol49(k);
    Turned(c, k, c.rol(x, 94));
    f := FromKA(h15, h45, h77, Read(c, k));
  }

  /** "generate KB dependent subkeys". */
  method ChainKB<Q(!new), X(!new), H>(c: KeyOps<Q, X, H>, kb: Q) returns (f: FromKB<H>)
    requires Lawful(c)
    ensures var x := c.cat(kb);
            f == FromKB(HalvesOf(c, x), HalvesOf(c, c.rol(x, 30)), HalvesOf(c, c.rol(x, 60)),
                        HalvesOf(c, c.rol(x, 111)))
  {
    ghost var x := c.cat(kb);
    var k := kb;
    Turned(c, k, x);
    var h := Read(c, k);
    assert Rotates(c, k) && Adds(c, x) && AddsMore(c, x);
    k := c.rol30(k);
    Turned(c, k, c.rol(x, 30));
    var h30 := Read(c, k);
    assert Rotates(c, k);
    k := c.rol30(k);
    Turned(c, k, c.rol(x, 60));
    var h60 := Read(c, k);
    assert RotatesMore(c, k);
    k := c.rol51(k);
    Turned(c, k, c.rol(x, 111));
    f := FromKB(h, h30, h60, Read(c, k));
  }

  // ----- where they go

  function LongLayout<H>(l: FromKL<H>, r: FromKR<H>, a: FromKA<H>, b: FromKB<H>): seq<H> {
    [ l.h.l, l.h.r, b.h.l, b.h.r, r.h15.l, r.h15.r, a.h15.l, a.h15.r, r.h30.l, r.h30.r, b.h30.l, b.h30.r, l.h45.l,
      l.h45.r,
      a.h45.l, a.h45.r, l.h60.l, l.h60.r, r.h60.l, r.h60.r, b.h60.l, b.h60.r, l.h77.l, l.h77.r, a.h77.l, a.h77.r,
      r.h94.l, r.h94.r, a.h94.l, a.h94.r, l.h111.l, l.h111.r, b.h111.l, b.h111.r ]
  }

  function Pair<H>(s: seq<H>, i: nat, h: Halves<H>): seq<H>
    requires i + 1 < |s|
  {
    s[i := h.l][i + 1 := h.r]
  }

  method StorePair<H>(sub: array<H>, i: nat, h: Halves<H>)
    requires i + 1 < sub.Length
    modifies sub
    ensures sub[..] == Pair(old(sub[..]), i, h)
  {
    sub[i], sub[i + 1] := h.l, h.r;
  }

  /** The entries in `at` are in their place. */
  predicate Filled<H(==)>(s: seq<H>, t: seq<H>, at: set<nat>) {
    |s| == |t| && forall i :: i in at && i < |s| ==> s[i] == t[i]
  }

  lemma PairFills<H>(s: seq<H>, t: seq<H>, at: set<nat>, i: nat, h: Halves<H>)
    requires Filled(s, t, at) && i + 1 < |t| && h == Halves(t[i], t[i + 1])
    ensures Filled(Pair(s, i, h), t, at + {i, i + 1})
  {
  }

  method StoreAt<H(==)>(sub: array<H>, i: nat, h: Halves<H>, ghost t: seq<H>, ghost at: set<nat>)
    returns (ghost at': set<nat>)
    requires i + 1 < sub.Length && Filled(sub[..], t, at) && h == Halves(t[i], t[i + 1])
    modifies sub
    ensures Filled(sub[..], t, at') && at' == at + {i, i + 1}
  {
    PairFills(sub[..], t, at, i, h);
    StorePair(sub, i, h);
    at' := at + {i, i + 1};
  }

  method StoreLeft<H(==)>(sub: array<H>, l: FromKL<H>, r: FromKR<H>, ghost t: seq<H>) returns (ghost at: set<nat>)
    requires sub.Length == 34 == |t|
    requires && t[0] == l.h.l && t[1] == l.h.r && t[12] == l.h45.l && t[13] == l.h45.r && t[16] == l.h60.l
             && t[17] == l.h60.r
             && t[22] == l.h77.l && t[23] == l.h77.r && t[30] == l.h111.l && t[31] == l.h111.r
    requires && t[4] == r.h15.l && t[5] == r.h15.r && t[8] == r.h30.l && t[9] == r.h30.r && t[18] == r.h60.l
             && t[19] == r.h60.r
             && t[26] == r.h94.l && t[27] == r.h94.r
    modifies sub
    ensures Filled(sub[..], t, at) && at == {0, 1, 4, 5, 8, 9, 12, 13, 16, 17, 18, 19, 22, 23, 26, 27, 30, 31}
  {
    at := StoreAt(sub, 0, l.h, t, {});
    at := StoreAt(sub, 12, l.h45, t, at);
    at := StoreAt(sub, 16, l.h60, t, at);
    at := StoreAt(sub, 22, l.h77, t, at);
    at := StoreAt(sub, 30, l.h111, t, at);
    at := StoreAt(sub, 4, r.h15, t, at);
    at := StoreAt(sub, 8, r.h30, t, at);
    at := StoreAt(sub, 18, r.h60, t, at);
    at := StoreAt(sub, 26, r.h94, t, at);
  }

  method StoreRight<H(==)>(sub: array<H>, a: FromKA<H>, b: FromKB<H>, ghost t: seq<H>, ghost at0: set<nat>)
    returns (ghost at: set<nat>)
    requires sub.Length == 34 == |t| && Filled(sub[..], t, at0)
    requires && t[6] == a.h15.l && t[7] == a.h15.r && t[14] == a.h45.l && t[15] == a.h45.r && t[24] == a.h77.l
             && t[25] == a.h77.r
             && t[28] == a.h94.l && t[29] == a.h94.r
    requires && t[2] == b.h.l && t[3] == b.h.r && t[10] == b.h30.l && t[11] == b.h30.r && t[20] == b.h60.l
             && t[21] == b.h60.r
             && t[32] == b.h111.l && t[33] == b.h111.r
    modifies sub
    ensures Filled(sub[..], t, at) && at == at0 + {2, 3, 6, 7, 10, 11, 14, 15, 20, 21, 24, 25, 28, 29, 32, 33}
  {
    at := StoreAt(sub, 6, a.h15, t, at0);
    at := StoreAt(sub, 14, a.h45, t, at);
    at := StoreAt(sub, 24, a.h77, t, at);
    at := StoreAt(sub, 28, a.h94, t, at);
    at := StoreAt(sub, 2, b.h, t, at);
    at := StoreAt(sub, 10, b.h30, t, at);
    at := StoreAt(sub, 20, b.h60, t, at);
    at := StoreAt(sub, 32, b.h111, t, at);
  }

  /** StoreLeft and StoreRight between them fill every entry. */
  lemma AllFilled<H>(s: seq<H>, t: seq<H>, at: set<nat>)
    requires Filled(s, t, at) && |t| == 34
    requires at == {0, 1, 4, 5, 8, 9, 12, 13, 16, 17, 18, 19, 22, 23, 26, 27, 30, 31}
                   + {2, 3, 6, 7, 10, 11, 14, 15, 20, 21, 24, 25, 28, 29, 32, 33}
    ensures s == t
  {
  }

  method StoreLong<H(0, ==)>(l: FromKL<H>, r: FromKR<H>, a: FromKA<H>, b: FromKB<H>) returns (sub: array<H>)
    ensures fresh(sub) && sub[..] == LongLayout(l, r, a, b)
  {
    sub := new H[34];
    ghost var t := LongLayout(l, r, a, b);
    ghost var at := StoreLeft(sub, l, r, t);
    at := StoreRight(sub, a, b, t, at);
    AllFilled(sub[..], t, at);
  }

  /** camellia_setup256 up to its tail: the subkeys of the RFC. `makeKA` and `makeKB` work on the halves of KL and KR,
      and of KA and KR. */
  method MakeLongSubkeys<Q(!new), X(!new), H(0, ==)>(c: KeyOps<Q, X, H>, kl: Q, kr: Q, makeKA: (H, H, H, H) -> Q,
                           makeKB: (H, H, H, H) -> Q) returns (sub: array<H>)
    requires Lawful(c)
    ensures var ka := makeKA(c.leftOf(kl), c.rightOf(kl), c.leftOf(kr), c.rightOf(kr));
            var kb := makeKB(c.leftOf(ka), c.rightOf(ka), c.leftOf(kr), c.rightOf(kr));
            fresh(sub) && sub[..] == LongSchedule(c, c.cat(kl), c.cat(kr), c.cat(ka), c.cat(kb))
  {
    var l := ChainLongKL(c, kl);
    var r := ChainKR(c, kr);
    assert Same(c, kl) && Same(c, kr);
    var ka := makeKA(l.h.l, l.h.r, r.h.l, r.h.r);
    var kb := makeKB(c.leftOf(ka), c.rightOf(ka), r.h.l, r.h.r);
    var a := ChainLongKA(c, ka);
    var b := ChainKB(c, kb);
    assert LongSchedule(c, c.cat(kl), c.cat(kr), c.cat(ka), c.cat(kb)) == LongLayout(l, r, a, b);
    sub := StoreLong(l, r, a, b);
  }
}
