/** The operations of the Camellia cipher on 64-bit halves made of two words: the FL- and FLINV-functions of RFC 3713,
    sections 2.4.2 and 2.4.3, and the macros and subkey transformations of crypto/camellia.c.  The words are left
    abstract; only the bit identities collected in `WordLaws` are used. */
module CamelliaHalf {
  import opened CamelliaFold

  datatype Words<!W> = Words(
    xor: (W, W) -> W,
    and: (W, W) -> W,
    andNot: (W, W) -> W,     // x & ~k
    or: (W, W) -> W,
    rol1: W -> W,
    rol8: W -> W,
    ror8: W -> W)

  /** A 64-bit value as the two words the code keeps: `l` holds the most significant digits. */
  datatype Half<W> = Half(l: W, r: W)

  // ----- word identities, one instance each

  predicate XorAssoc<W(==)>(w: Words<W>, a: W, b: W, c: W) { w.xor(w.xor(a, b), c) == w.xor(a, w.xor(b, c)) }

  predicate XorComm<W(==)>(w: Words<W>, a: W, b: W) { w.xor(a, b) == w.xor(b, a) }

  predicate XorCancel<W(==)>(w: Words<W>, a: W, b: W) { w.xor(w.xor(a, b), b) == a }

  predicate AndXor<W(==)>(w: Words<W>, a: W, d: W, k: W) { w.and(w.xor(a, d), k) == w.xor(w.and(a, k), w.and(d, k)) }

  predicate AndNotXor<W(==)>(w: Words<W>, a: W, d: W, k: W) {
    w.andNot(w.xor(a, d), k) == w.xor(w.andNot(a, k), w.andNot(d, k))
  }

  predicate OrXor<W(==)>(w: Words<W>, a: W, d: W, k: W) { w.or(w.xor(a, d), k) == w.xor(w.or(a, k), w.andNot(d, k)) }

  predicate Rol1Xor<W(==)>(w: Words<W>, a: W, d: W) { w.rol1(w.xor(a, d)) == w.xor(w.rol1(a), w.rol1(d)) }

  predicate Ror8Mask<W(==)>(w: Words<W>, a: W, d: W) { w.ror8(w.xor(a, w.rol8(d))) == w.xor(w.ror8(a), d) }

  predicate Commutes<W(==)>(w: Words<W>, a: W, b: W) { w.and(a, b) == w.and(b, a) && w.or(a, b) == w.or(b, a) }

  ghost predicate WordLaws<W(!new)>(w: Words<W>) {
    && (forall a, b, c :: XorAssoc(w, a, b, c)) && (forall a, b :: XorComm(w, a, b))
       && (forall a, b :: XorCancel(w, a, b))
    && (forall a, d, k :: AndXor(w, a, d, k)) && (forall a, d, k :: AndNotXor(w, a, d, k))
    && (forall a, d, k :: OrXor(w, a, d, k)) && (forall a, d :: Rol1Xor(w, a, d)) && (forall a, d :: Ror8Mask(w, a, d))
    && (forall a, b :: Commutes(w, a, b))
  }

  // ----- operations on halves

  function Xor<W>(w: Words<W>, a: Half<W>, b: Half<W>): Half<W> { Half(w.xor(a.l, b.l), w.xor(a.r, b.r)) }

  function FL<W>(w: Words<W>, x: Half<W>, k: Half<W>): Half<W> {
    var r := w.xor(x.r, w.rol1(w.and(x.l, k.l)));
    Half(w.xor(x.l, w.or(r, k.r)), r)
  }

  function FLInv<W>(w: Words<W>, y: Half<W>, k: Half<W>): Half<W> {
    var l := w.xor(y.l, w.or(y.r, k.r));
    Half(l, w.xor(y.r, w.rol1(w.and(l, k.l))))
  }

  /** CAMELLIA_FLS on both halves, in the order of the macro. */
  function FLS<W>(w: Words<W>, st: Block<Half<W>>, kl: Half<W>, kr: Half<W>): Block<Half<W>> {
    var rl := w.xor(st.b.l, w.or(kr.r, st.b.r));
    var lr := w.xor(st.a.r, w.rol1(w.and(kl.l, st.a.l)));
    Block(Half(w.xor(st.a.l, w.or(kl.r, lr)), lr), Half(rl, w.xor(st.b.r, w.rol1(w.and(kr.l, rl)))))
  }

  /** The last half of the P-function on the two words of lookups. */
  function LastHalfOfP<W>(w: Words<W>, t: Half<W>): Half<W> {
    Half(w.xor(t.r, t.l), w.xor(w.ror8(t.l), w.xor(t.r, t.l)))
  }

  /** CAMELLIA_ROUNDSM once the lookups `t` of the half that is read are there: the new value of the other half. */
  function RoundSM<W>(w: Words<W>, t: Half<W>, k: Half<W>, y: Half<W>): Half<W> {
    var il := w.xor(t.l, k.l);
    var ir := w.xor(t.r, w.xor(il, k.r));
    Half(w.xor(y.l, ir), w.xor(y.r, w.xor(w.ror8(il), ir)))
  }

  /** The linear part of FLINV and of the inverse of FL, as camellia_setup_tail computes it on subkeys. */
  function Unmask<W>(w: Words<W>, d: Half<W>, k: Half<W>): Half<W> {
    var l := w.xor(d.l, w.andNot(d.r, k.r));
    Half(l, w.xor(d.r, w.rol1(w.and(l, k.l))))
  }

  /** "Apply the inverse of the last half of P-function". */
  function PreP<W>(w: Words<W>, k: Half<W>): Half<W> {
    var dw := w.rol8(w.xor(k.l, k.r));
    Half(dw, w.xor(k.l, dw))
  }

  /** The cipher's operations, given the S-box and P layer `sp` and the table lookups of the code. */
  function Ops<W>(w: Words<W>, sp: Half<W> -> Half<W>, lookups: Half<W> -> Half<W>): Cipher<Half<W>> {
    Cipher((a, b) => Xor(w, a, b), sp, (x, k) => FL(w, x, k), (y, k) => FLInv(w, y, k),
           (x, k, y) => RoundSM(w, lookups(x), k, y), (d, k) => Unmask(w, d, k), k => PreP(w, k))
  }

  // ----- their laws

  /** Swapping the inner terms of a sum of sums. */
  lemma Exchange<W(!new)>(w: Words<W>, a: W, b: W, c: W, d: W)
    requires WordLaws(w)
    ensures w.xor(w.xor(a, b), w.xor(c, d)) == w.xor(w.xor(a, c), w.xor(b, d))
  {
    assert XorAssoc(w, a, b, w.xor(c, d));
    assert XorAssoc(w, b, c, d);
    assert XorComm(w, b, c);
    assert XorAssoc(w, c, b, d);
    assert XorAssoc(w, a, c, w.xor(b, d));
  }

  lemma FLInvMaskHalf<W(!new)>(w: Words<W>, x: Half<W>, d: Half<W>, k: Half<W>)
    requires WordLaws(w)
    ensures FLInv(w, Xor(w, x, d), k) == Xor(w, FLInv(w, x, k), Unmask(w, d, k))
  {
    assert OrXor(w, x.r, d.r, k.r);
    Exchange(w, x.l, d.l, w.or(x.r, k.r), w.andNot(d.r, k.r));
    var l, m := FLInv(w, x, k).l, Unmask(w, d, k).l;
    assert AndXor(w, l, m, k.l);
    assert Rol1Xor(w, w.and(l, k.l), w.and(m, k.l));
    Exchange(w, x.r, d.r, w.rol1(w.and(l, k.l)), w.rol1(w.and(m, k.l)));
  }

  lemma UnmaskAddsHalf<W(!new)>(w: Words<W>, d: Half<W>, e: Half<W>, k: Half<W>)
    requires WordLaws(w)
    ensures Unmask(w, Xor(w, d, e), k) == Xor(w, Unmask(w, d, k), Unmask(w, e, k))
  {
    assert AndNotXor(w, d.r, e.r, k.r);
    Exchange(w, d.l, e.l, w.andNot(d.r, k.r), w.andNot(e.r, k.r));
    var l, m := Unmask(w, d, k).l, Unmask(w, e, k).l;
    assert AndXor(w, l, m, k.l);
    assert Rol1Xor(w, w.and(l, k.l), w.and(m, k.l));
    Exchange(w, d.r, e.r, w.rol1(w.and(l, k.l)), w.rol1(w.and(m, k.l)));
  }

  lemma FLMaskHalf<W(!new)>(w: Words<W>, x: Half<W>, d: Half<W>, k: Half<W>)
    requires WordLaws(w)
    ensures FL(w, Xor(w, x, Unmask(w, d, k)), k) == Xor(w, FL(w, x, k), d)
  {
    var u := Unmask(w, d, k);
    assert AndXor(w, x.l, u.l, k.l);
    assert Rol1Xor(w, w.and(x.l, k.l), w.and(u.l, k.l));
    Exchange(w, x.r, u.r, w.rol1(w.and(x.l, k.l)), w.rol1(w.and(u.l, k.l)));
    assert XorCancel(w, d.r, w.rol1(w.and(u.l, k.l)));
    var r := FL(w, x, k).r;
    assert OrXor(w, r, d.r, k.r);
    Exchange(w, x.l, u.l, w.or(r, k.r), w.andNot(d.r, k.r));
    assert XorCancel(w, d.l, w.andNot(d.r, k.r));
  }

  lemma FLInverseHalf<W(!new)>(w: Words<W>, x: Half<W>, k: Half<W>)
    requires WordLaws(w)
    ensures FLInv(w, FL(w, x, k), k) == x && FL(w, FLInv(w, x, k), k) == x
  {
    assert XorCancel(w, x.l, w.or(FL(w, x, k).r, k.r));
    assert XorCancel(w, x.r, w.rol1(w.and(x.l, k.l)));
    assert XorCancel(w, x.r, w.rol1(w.and(FLInv(w, x, k).l, k.l)));
    assert XorCancel(w, x.l, w.or(x.r, k.r));
  }

  /** A round with a table entry that had P undone adds the lookups, through P, and the entry as it was before. */
  lemma RoundAddsHalf<W(!new)>(w: Words<W>, t: Half<W>, d: Half<W>, y: Half<W>)
    requires WordLaws(w)
    ensures RoundSM(w, t, PreP(w, d), y) == Xor(w, Xor(w, y, LastHalfOfP(w, t)), d)
  {
    var dw, tt := w.rol8(w.xor(d.l, d.r)), w.xor(t.r, t.l);
    var ir := w.xor(t.r, w.xor(w.xor(t.l, dw), w.xor(d.l, dw)));
    assert ir == w.xor(tt, d.l) by {
      Exchange(w, t.l, dw, d.l, dw);
      var td := w.xor(t.l, d.l);
      assert XorAssoc(w, td, dw, dw);
      assert XorCancel(w, td, dw);
      assert XorAssoc(w, t.r, t.l, d.l);
    }
    assert XorAssoc(w, y.l, tt, d.l);
    assert Ror8Mask(w, t.l, w.xor(d.l, d.r));
    var ror := w.ror8(t.l);
    assert w.xor(w.xor(ror, w.xor(d.l, d.r)), w.xor(tt, d.l)) == w.xor(w.xor(ror, tt), d.r) by {
      Exchange(w, ror, w.xor(d.l, d.r), tt, d.l);
      assert XorComm(w, d.l, d.r);
      assert XorCancel(w, d.r, d.l);
    }
    assert XorAssoc(w, y.r, w.xor(ror, tt), d.r);
  }

  lemma RoundTwiceHalf<W(!new)>(w: Words<W>, t: Half<W>, k: Half<W>, y: Half<W>)
    requires WordLaws(w)
    ensures RoundSM(w, t, k, RoundSM(w, t, k, y)) == y
  {
    var il := w.xor(t.l, k.l);
    var ir := w.xor(t.r, w.xor(il, k.r));
    assert XorCancel(w, y.l, ir);
    assert XorCancel(w, y.r, w.xor(w.ror8(il), ir));
  }

  /** CAMELLIA_FLS is the FL layer. */
  lemma FLSIsFLLayer<W(!new)>(w: Words<W>, sp: Half<W> -> Half<W>, lookups: Half<W> -> Half<W>, st: Block<Half<W>>,
                       kl: Half<W>, kr: Half<W>)
    requires WordLaws(w)
    ensures FLS(w, st, kl, kr) == FLLayer(Ops(w, sp, lookups), st, kl, kr)
  {
    assert Commutes(w, kr.r, st.b.r) && Commutes(w, kl.l, st.a.l);
    assert Commutes(w, kl.r, FL(w, st.a, kl).r) && Commutes(w, kr.l, FLInv(w, st.b, kr).l);
  }

  lemma XorLawsHalf<W(!new)>(w: Words<W>, a: Half<W>, b: Half<W>, c: Half<W>)
    requires WordLaws(w)
    ensures Xor(w, Xor(w, a, b), c) == Xor(w, a, Xor(w, b, c)) && Xor(w, a, b) == Xor(w, b, a)
            && Xor(w, Xor(w, a, b), b) == a
  {
    assert XorAssoc(w, a.l, b.l, c.l) && XorAssoc(w, a.r, b.r, c.r);
    assert XorComm(w, a.l, b.l) && XorComm(w, a.r, b.r);
    assert XorCancel(w, a.l, b.l) && XorCancel(w, a.r, b.r);
  }

  /** Whatever the S-boxes: if the lookups compute the S-box and P layer, the cipher's operations obey its laws. */
  lemma OpsLawful<W(!new)>(w: Words<W>, sp: Half<W> -> Half<W>, lookups: Half<W> -> Half<W>)
    requires WordLaws(w) && forall x :: sp(x) == LastHalfOfP(w, lookups(x))
    ensures Lawful(Ops(w, sp, lookups))
  {
    var c := Ops(w, sp, lookups);
    forall x, y, z ensures Assoc(c, x, y, z) { XorLawsHalf(w, x, y, z); }
    forall x, y ensures Comm(c, x, y) { XorLawsHalf(w, x, y, y); }
    forall x, y ensures Cancel(c, x, y) { XorLawsHalf(w, x, y, y); }
    forall x, d, y ensures RoundAdds(c, x, d, y) { RoundAddsHalf(w, lookups(x), d, y); }
    forall x, k, y ensures RoundTwice(c, x, k, y) { RoundTwiceHalf(w, lookups(x), k, y); }
    forall x, d, k ensures FLMask(c, x, d, k) { FLMaskHalf(w, x, d, k); }
    forall x, d, k ensures FLInvMask(c, x, d, k) { FLInvMaskHalf(w, x, d, k); }
    forall x, k ensures FLInverse(c, x, k) { FLInverseHalf(w, x, k); }
    forall d, e, k ensures UnmaskAdds(c, d, e, k) { UnmaskAddsHalf(w, d, e, k); }
  }
}
