/**
  The key schedule of Camellia for 128-bit keys: section 2.2 of RFC 3713 takes every subkey as a half of KL or KA
  rotated from scratch, crypto/camellia.c rotates one value again and again. `Q` is the code's four words, `X` the RFC's
  128-bit value and `H` a 64-bit half.
*/
module CamelliaSchedule {

  datatype KeyOps<!Q, !X, !H> = KeyOps(
    cat: Q -> X, rol: (X, bv8) -> X, left: X -> H, right: X -> H,
    leftOf: Q -> H, rightOf: Q -> H, rol15: Q -> Q, rol17: Q -> Q, rol30: Q -> Q, rol34: Q -> Q,
    rol45: Q -> Q, rol49: Q -> Q, rol51: Q -> Q, turn32: Q -> Q)

  ghost predicate Same<Q, X, H>(c: KeyOps<Q, X, H>, q: Q) {
    c.leftOf(q) == c.left(c.cat(q)) && c.rightOf(q) == c.right(c.cat(q))
  }

  /** The code's rotations rotate. */
  ghost predicate Rotates<Q, X, H>(c: KeyOps<Q, X, H>, q: Q) {
    && c.cat(c.rol15(q)) == c.rol(c.cat(q), 15) && c.cat(c.rol17(q)) == c.rol(c.cat(q), 17)
    && c.cat(c.rol30(q)) == c.rol(c.cat(q), 30) && c.cat(c.rol34(q)) == c.rol(c.cat(q), 34)
  }

  /** Two rotations in a row are one, for the amounts the code chains. */
  ghost predicate Adds<Q, X, H>(c: KeyOps<Q, X, H>, x: X) {
    && c.rol(c.rol(x, 15), 15) == c.rol(x, 30) && c.rol(c.rol(x, 15), 30) == c.rol(x, 45)
    && c.rol(c.rol(x, 30), 15) == c.rol(x, 45) && c.rol(c.rol(x, 45), 15) == c.rol(x, 60)
    && c.rol(c.rol(x, 60), 17) == c.rol(x, 77) && c.rol(c.rol(x, 60), 34) == c.rol(x, 94)
    && c.rol(c.rol(x, 77), 17) == c.rol(x, 94) && c.rol(c.rol(x, 94), 17) == c.rol(x, 111)
  }

  /** The same for the rotations and the amounts that only longer keys need. */
  ghost predicate RotatesMore<Q, X, H>(c: KeyOps<Q, X, H>, q: Q) {
    && c.cat(c.rol45(q)) == c.rol(c.cat(q), 45) && c.cat(c.rol49(q)) == c.rol(c.cat(q), 49)
    && c.cat(c.rol51(q)) == c.rol(c.cat(q), 51) && c.cat(c.turn32(q)) == c.rol(c.cat(q), 32)
  }

  ghost predicate AddsMore<Q, X, H>(c: KeyOps<Q, X, H>, x: X) {
    && c.rol(c.rol(x, 77), 34) == c.rol(x, 111) && c.rol(c.rol(x, 30), 30) == c.rol(x, 60)
       && c.rol(c.rol(x, 94), 34) == x
    && c.rol(c.rol(x, 45), 32) == c.rol(x, 77) && c.rol(c.rol(x, 45), 49) == c.rol(x, 94)
    && c.rol(c.rol(x, 60), 51) == c.rol(x, 111)
  }

  ghost predicate Lawful<Q(!new), X(!new), H>(c: KeyOps<Q, X, H>) {
    && (forall q :: Same(c, q) && Rotates(c, q) && RotatesMore(c, q))
    && (forall x :: Adds(c, x) && AddsMore(c, x))
  }

  /** The subkeys made from KL and KA, in the layout of the code. */
  function Schedule<Q, X, H>(c: KeyOps<Q, X, H>, kl: X, ka: X): (k: seq<H>)
    ensures |k| == 26
  {
    [ c.left(kl), c.right(kl), c.left(ka), c.right(ka),
      c.left(c.rol(kl, 15)), c.right(c.rol(kl, 15)), c.left(c.rol(ka, 15)), c.right(c.rol(ka, 15)),
      c.left(c.rol(ka, 30)), c.right(c.rol(ka, 30)),
      c.left(c.rol(kl, 45)), c.right(c.rol(kl, 45)), c.left(c.rol(ka, 45)), c.right(c.rol(kl, 60)),
      c.left(c.rol(ka, 60)), c.right(c.rol(ka, 60)),
      c.left(c.rol(kl, 77)), c.right(c.rol(kl, 77)),
      c.left(c.rol(kl, 94)), c.right(c.rol(kl, 94)), c.left(c.rol(ka, 94)), c.right(c.rol(ka, 94)),
      c.left(c.rol(kl, 111)), c.right(c.rol(kl, 111)),
      c.left(c.rol(ka, 111)), c.right(c.rol(ka, 111)) ]
  }

  /** A 128-bit value as its two halves. */
  datatype Halves<H> = Halves(l: H, r: H)

  function HalvesOf<Q, X, H>(c: KeyOps<Q, X, H>, x: X): Halves<H> { Halves(c.left(x), c.right(x)) }

  function Read<Q, X, H>(c: KeyOps<Q, X, H>, q: Q): Halves<H> { Halves(c.leftOf(q), c.rightOf(q)) }

  lemma Turned<Q(!new), X(!new), H>(c: KeyOps<Q, X, H>, q: Q, x: X)
    requires Lawful(c) && c.cat(q) == x
    ensures Read(c, q) == HalvesOf(c, x)
  {
    assert Same(c, q);
  }

  /** The rotations of "generate KL dependent subkeys", each made from the one before it. */
  method ChainKL<Q(!new), X(!new), H>(c: KeyOps<Q, X, H>, key: Q)
    returns (h: Halves<H>, h15: Halves<H>, h45: Halves<H>, h60: Halves<H>, h77: Halves<H>, h94: Halves<H>,
             h111: Halves<H>)
    requires Lawful(c)
    ensures var x := c.cat(key);
            && h == HalvesOf(c, x) && h15 == HalvesOf(c, c.rol(x, 15)) && h45 == HalvesOf(c, c.rol(x, 45))
            && h60 == HalvesOf(c, c.rol(x, 60)) && h77 == HalvesOf(c, c.rol(x, 77)) && h94 == HalvesOf(c, c.rol(x, 94))
            && h111 == HalvesOf(c, c.rol(x, 111))
  {
    ghost var x := c.cat(key);
    var k := key;
    Turned(c, k, x);
    h := Read(c, k);
    assert Rotates(c, k) && Adds(c, x);
    k := c.rol15(k);
    Turned(c, k, c.rol(x, 15));
    h15 := Read(c, k);
    assert Rotates(c, k);
    k := c.rol30(k);
    Turned(c, k, c.rol(x, 45));
    h45 := Read(c, k);
    assert Rotates(c, k);
    k := c.rol15(k);
    Turned(c, k, c.rol(x, 60));
    h60 := Read(c, k);
    assert Rotates(c, k);
    k := c.rol17(k);
    Turned(c, k, c.rol(x, 77));
    h77 := Read(c, k);
    assert Rotates(c, k);
    k := c.rol17(k);
    Turned(c, k, c.rol(x, 94));
    h94 := Read(c, k);
    assert Rotates(c, k);
    k := c.rol17(k);
    Turned(c, k, c.rol(x, 111));
    h111 := Read(c, k);
  }

  /** The rotations of "generate KA dependent subkeys". */
  method ChainKA<Q(!new), X(!new), H>(c: KeyOps<Q, X, H>, ka: Q)
    returns (h: Halves<H>, h15: Halves<H>, h30: Halves<H>, h45: Halves<H>, h60: Halves<H>, h94: Halves<H>,
             h111: Halves<H>)
    requires Lawful(c)
    ensures var x := c.cat(ka);
            && h == HalvesOf(c, x) && h15 == HalvesOf(c, c.rol(x, 15)) && h30 == HalvesOf(c, c.rol(x, 30))
            && h45 == HalvesOf(c, c.rol(x, 45)) && h60 == HalvesOf(c, c.rol(x, 60)) && h94 == HalvesOf(c, c.rol(x, 94))
            && h111 == HalvesOf(c, c.rol(x, 111))
  {
    ghost var x := c.cat(ka);
    var k := ka;
    Turned(c, k, x);
    h := Read(c, k);
    assert Rotates(c, k) && Adds(c, x);
    k := c.rol15(k);
    Turned(c, k, c.rol(x, 15));
    h15 := Read(c, k);
    assert Rotates(c, k);
    k := c.rol15(k);
    Turned(c, k, c.rol(x, 30));
    h30 := Read(c, k);
    assert Rotates(c, k);
    k := c.rol15(k);
    Turned(c, k, c.rol(x, 45));
    h45 := Read(c, k);
    assert Rotates(c, k);
    k := c.rol15(k);
    Turned(c, k, c.rol(x, 60));
    h60 := Read(c, k);
    assert Rotates(c, k);
    k := c.rol34(k);
    Turned(c, k, c.rol(x, 94));
    h94 := Read(c, k);
    assert Rotates(c, k);
    k := c.rol17(k);
    Turned(c, k, c.rol(x, 111));
    h111 := Read(c, k);
  }

  method StoreKL<H>(sub: array<H>, h: Halves<H>, h15: Halves<H>, h45: Halves<H>, h60: Halves<H>, h77: Halves<H>,
                    h94: Halves<H>, h111: Halves<H>)
    requires sub.Length == 26
    modifies sub
    ensures && sub[0] == h.l && sub[1] == h.r && sub[4] == h15.l && sub[5] == h15.r && sub[10] == h45.l
            && sub[11] == h45.r
            && sub[13] == h60.r && sub[16] == h77.l && sub[17] == h77.r && sub[18] == h94.l && sub[19] == h94.r
            && sub[22] == h111.l && sub[23] == h111.r
  {
    sub[0], sub[1] := h.l, h.r;
    sub[4], sub[5] := h15.l, h15.r;
    sub[10], sub[11] := h45.l, h45.r;
    sub[13] := h60.r;
    sub[16], sub[17] := h77.l, h77.r;
    sub[18], sub[19] := h94.l, h94.r;
    sub[22], sub[23] := h111.l, h111.r;
  }

  method StoreKA<H>(sub: array<H>, h: Halves<H>, h15: Halves<H>, h30: Halves<H>, h45: Halves<H>, h60: Halves<H>,
                    h94: Halves<H>, h111: Halves<H>)
    requires sub.Length == 26
    modifies sub
    ensures && sub[2] == h.l && sub[3] == h.r && sub[6] == h15.l && sub[7] == h15.r && sub[8] == h30.l
            && sub[9] == h30.r
            && sub[12] == h45.l && sub[14] == h60.l && sub[15] == h60.r && sub[20] == h94.l && sub[21] == h94.r
            && sub[24] == h111.l && sub[25] == h111.r
    ensures && sub[0] == old(sub[0]) && sub[1] == old(sub[1]) && sub[4] == old(sub[4]) && sub[5] == old(sub[5])
            && sub[10] == old(sub[10]) && sub[11] == old(sub[11]) && sub[13] == old(sub[13]) && sub[16] == old(sub[16])
            && sub[17] == old(sub[17]) && sub[18] == old(sub[18]) && sub[19] == old(sub[19]) && sub[22] == old(sub[22])
            && sub[23] == old(sub[23])
  {
    sub[2], sub[3] := h.l, h.r;
    sub[6], sub[7] := h15.l, h15.r;
    sub[8], sub[9] := h30.l, h30.r;
    sub[12] := h45.l;
    sub[14], sub[15] := h60.l, h60.r;
    sub[20], sub[21] := h94.l, h94.r;
    sub[24], sub[25] := h111.l, h111.r;
  }

  /** Where the halves of the rotated KL and KA go. */
  function Layout<H>(h: Halves<H>, h15: Halves<H>, h45: Halves<H>, h60: Halves<H>, h77: Halves<H>, h94: Halves<H>,
                     h111: Halves<H>, g: Halves<H>, g15: Halves<H>, g30: Halves<H>, g45: Halves<H>, g60: Halves<H>,
                     g94: Halves<H>, g111: Halves<H>): seq<H> {
    [h.l, h.r, g.l, g.r, h15.l, h15.r, g15.l, g15.r, g30.l, g30.r, h45.l, h45.r, g45.l, h60.r, g60.l, g60.r,
     h77.l, h77.r, h94.l, h94.r, g94.l, g94.r, h111.l, h111.r, g111.l, g111.r]
  }

  method Store<H(0)>(h: Halves<H>, h15: Halves<H>, h45: Halves<H>, h60: Halves<H>, h77: Halves<H>, h94: Halves<H>,
                 h111: Halves<H>, g: Halves<H>, g15: Halves<H>, g30: Halves<H>, g45: Halves<H>, g60: Halves<H>,
                 g94: Halves<H>, g111: Halves<H>)
    returns (sub: array<H>)
    ensures fresh(sub) && sub[..] == Layout(h, h15, h45, h60, h77, h94, h111, g, g15, g30, g45, g60, g94, g111)
  {
    sub := new H[26];
    StoreKL(sub, h, h15, h45, h60, h77, h94, h111);
    StoreKA(sub, g, g15, g30, g45, g60, g94, g111);
  }

  /** camellia_setup128 up to its tail: the subkeys of the RFC. `makeKA` computes KA from the halves of KL. */
  method MakeSubkeys<Q(!new), X(!new), H(0)>(c: KeyOps<Q, X, H>, key: Q, makeKA: (H, H) -> Q) returns (sub: array<H>)
    requires Lawful(c)
    ensures fresh(sub) && sub[..] == Schedule(c, c.cat(key), c.cat(makeKA(c.leftOf(key), c.rightOf(key))))
  {
    var h, h15, h45, h60, h77, h94, h111 := ChainKL(c, key);
    assert Same(c, key);
    var ka := makeKA(h.l, h.r);
    var g, g15, g30, g45, g60, g94, g111 := ChainKA(c, ka);
    assert Schedule(c, c.cat(key), c.cat(ka)) == Layout(h, h15, h45, h60, h77, h94, h111, g, g15, g30, g45, g60, g94,
                                                        g111);
    sub := Store(h, h15, h45, h60, h77, h94, h111, g, g15, g30, g45, g60, g94, g111);
  }
}
