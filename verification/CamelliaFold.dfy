/** The structure of crypto/camellia.c over arbitrary 64-bit halves: the cipher of RFC 3713, section 2.3, next to the
    cipher the code runs, whose key table has the whitening keys folded into the round keys, the key addition moved to
    the end of the F-function and half of the P-function undone.  Only the laws collected in `Lawful` are used, so
    the result holds for any S-boxes. */
module CamelliaFold {

  /** The operations on one half of the state.  `round` is CAMELLIA_ROUNDSM: the half `y` after a round that reads `x`
      with table entry `k`.  `unmask` is the linear part of FLINV, `preP` undoes the last half of P. */
  datatype Cipher<!T> = Cipher(
    add: (T, T) -> T,
    sp: T -> T,
    fl: (T, T) -> T,
    flInv: (T, T) -> T,
    round: (T, T, T) -> T,
    unmask: (T, T) -> T,
    preP: T -> T)

  datatype Block<T> = Block(a: T, b: T) {
    function Swap(): Block<T> { Block(b, a) }
  }

  // ----- laws, one instance each

  predicate Assoc<T(==)>(c: Cipher<T>, x: T, y: T, z: T) { c.add(c.add(x, y), z) == c.add(x, c.add(y, z)) }

  predicate Comm<T(==)>(c: Cipher<T>, x: T, y: T) { c.add(x, y) == c.add(y, x) }

  predicate Cancel<T(==)>(c: Cipher<T>, x: T, y: T) { c.add(c.add(x, y), y) == x }

  predicate RoundAdds<T(==)>(c: Cipher<T>, x: T, d: T, y: T) {
    c.round(x, c.preP(d), y) == c.add(c.add(y, c.sp(x)), d)
  }

  predicate RoundTwice<T(==)>(c: Cipher<T>, x: T, k: T, y: T) { c.round(x, k, c.round(x, k, y)) == y }

  predicate FLMask<T(==)>(c: Cipher<T>, x: T, d: T, k: T) {
    c.fl(c.add(x, c.unmask(d, k)), k) == c.add(c.fl(x, k), d)
  }

  predicate FLInvMask<T(==)>(c: Cipher<T>, x: T, d: T, k: T) {
    c.flInv(c.add(x, d), k) == c.add(c.flInv(x, k), c.unmask(d, k))
  }

  predicate FLInverse<T(==)>(c: Cipher<T>, x: T, k: T) { c.flInv(c.fl(x, k), k) == x && c.fl(c.flInv(x, k), k) == x }

  predicate UnmaskAdds<T(==)>(c: Cipher<T>, d: T, e: T, k: T) {
    c.unmask(c.add(d, e), k) == c.add(c.unmask(d, k), c.unmask(e, k))
  }

  ghost predicate Lawful<T(!new)>(c: Cipher<T>) {
    && (forall x, y, z :: Assoc(c, x, y, z))
    && (forall x, y :: Comm(c, x, y))
    && (forall x, y :: Cancel(c, x, y))
    && (forall x, d, y :: RoundAdds(c, x, d, y))
    && (forall x, k, y :: RoundTwice(c, x, k, y))
    && (forall x, d, k :: FLMask(c, x, d, k))
    && (forall x, d, k :: FLInvMask(c, x, d, k))
    && (forall x, k :: FLInverse(c, x, k))
    && (forall d, e, k :: UnmaskAdds(c, d, e, k))
  }

  // ----- RFC 3713, section 2.3

  /** Subkeys in the layout of the code: kw1, kw2, then for each block of six rounds its six round keys followed by
      the two keys of the FL layer, or by kw3 and kw4 after the last block.  `max` is the code's: 24 for 128-bit
      keys, 32 for longer ones. */
  predicate IsSubkeys<T>(k: seq<T>, max: nat) { 8 <= max && max % 8 == 0 && |k| == max + 2 }

  /** One round: the half `y` after adding F of `x`. */
  function Round<T>(c: Cipher<T>, x: T, k: T, y: T): T { c.add(y, c.sp(c.add(x, k))) }

  function SixRounds<T>(c: Cipher<T>, k: seq<T>, i: nat, st: Block<T>): Block<T>
    requires i + 8 <= |k|
  {
    var b1 := Round(c, st.a, k[i + 2], st.b);
    var a1 := Round(c, b1, k[i + 3], st.a);
    var b2 := Round(c, a1, k[i + 4], b1);
    var a2 := Round(c, b2, k[i + 5], a1);
    var b3 := Round(c, a2, k[i + 6], b2);
    Block(Round(c, b3, k[i + 7], a2), b3)
  }

  function FLLayer<T>(c: Cipher<T>, st: Block<T>, kl: T, kr: T): Block<T> { Block(c.fl(st.a, kl), c.flInv(st.b, kr)) }

  /** The rounds up to the block whose keys start at `i`, with the FL layers between the blocks. */
  function Rounds<T>(c: Cipher<T>, k: seq<T>, i: nat, st: Block<T>): Block<T>
    requires i + 8 <= |k|
  {
    if i < 8 then SixRounds(c, k, 0, st)
    else SixRounds(c, k, i, FLLayer(c, Rounds(c, k, i - 8, st), k[i], k[i + 1]))
  }

  function Encrypt<T>(c: Cipher<T>, k: seq<T>, max: nat, m: Block<T>): Block<T>
    requires IsSubkeys(k, max)
  {
    var st := Rounds(c, k, max - 8, Block(c.add(m.a, k[0]), c.add(m.b, k[1])));
    Block(c.add(st.b, k[max]), c.add(st.a, k[max + 1]))
  }

  // ----- camellia_do_encrypt and camellia_do_decrypt

  function CodeSix<T>(c: Cipher<T>, t: seq<T>, i: nat, st: Block<T>): Block<T>
    requires i + 8 <= |t|
  {
    var b1 := c.round(st.a, t[i + 2], st.b);
    var a1 := c.round(b1, t[i + 3], st.a);
    var b2 := c.round(a1, t[i + 4], b1);
    var a2 := c.round(b2, t[i + 5], a1);
    var b3 := c.round(a2, t[i + 6], b2);
    Block(c.round(b3, t[i + 7], a2), b3)
  }

  function CodeRounds<T>(c: Cipher<T>, t: seq<T>, i: nat, st: Block<T>): Block<T>
    requires i + 8 <= |t|
  {
    if i < 8 then CodeSix(c, t, 0, st)
    else CodeSix(c, t, i, FLLayer(c, CodeRounds(c, t, i - 8, st), t[i], t[i + 1]))
  }

  /** camellia_do_encrypt with the swap its caller makes. */
  function CodeEncrypt<T>(c: Cipher<T>, t: seq<T>, max: nat, m: Block<T>): Block<T>
    requires 8 <= max && |t| == max + 1
  {
    var st := CodeRounds(c, t, max - 8, Block(c.add(m.a, t[0]), m.b));
    Block(c.add(st.b, t[max]), st.a)
  }

  function CodeUnsix<T>(c: Cipher<T>, t: seq<T>, i: nat, st: Block<T>): Block<T>
    requires i + 8 <= |t|
  {
    var b1 := c.round(st.a, t[i + 7], st.b);
    var a1 := c.round(b1, t[i + 6], st.a);
    var b2 := c.round(a1, t[i + 5], b1);
    var a2 := c.round(b2, t[i + 4], a1);
    var b3 := c.round(a2, t[i + 3], b2);
    Block(c.round(b3, t[i + 2], a2), b3)
  }

  /** Decryption from the block whose keys start at `i` down to the first. */
  function CodeUnrounds<T>(c: Cipher<T>, t: seq<T>, i: nat, st: Block<T>): Block<T>
    requires i + 8 <= |t|
  {
    if i < 8 then CodeUnsix(c, t, 0, st)
    else CodeUnrounds(c, t, i - 8, FLLayer(c, CodeUnsix(c, t, i, st), t[i + 1], t[i]))
  }

  /** camellia_do_decrypt with the swap its caller makes. */
  function CodeDecrypt<T>(c: Cipher<T>, t: seq<T>, max: nat, m: Block<T>): Block<T>
    requires 8 <= max && |t| == max + 1
  {
    var st := CodeUnrounds(c, t, max - 8, Block(c.add(m.a, t[max]), m.b));
    Block(c.add(st.b, t[0]), st.a)
  }

  // ----- the key table

  /** The mask the half written by round `i` carries before that round. */
  function MaskBefore<T>(c: Cipher<T>, k: seq<T>, i: nat): T
    requires 2 <= i < |k|
  {
    if i == 2 then k[1] else if i % 8 == 2 then c.unmask(k[i - 3], k[i - 1]) else k[i - 1]
  }

  /** The mask it carries afterwards: the key of the next round that reads it, seen through the FL layer at the end of
      a block; after the last round, kw4. */
  function MaskAfter<T>(c: Cipher<T>, k: seq<T>, max: nat, i: nat): T
    requires IsSubkeys(k, max) && 2 <= i < max
  {
    if i == max - 1 then k[max + 1] else if i % 8 == 7 then c.unmask(k[i + 3], k[i + 1]) else k[i + 1]
  }

  /** The key table that camellia_setup_tail leaves behind (entry 1 is neither written nor read). */
  function TableEntry<T>(c: Cipher<T>, k: seq<T>, max: nat, i: nat): T
    requires IsSubkeys(k, max) && i <= max
  {
    if i == 0 then c.add(k[0], k[2])
    else if i == max then c.add(k[max], k[max - 1])
    else if i % 8 < 2 then k[i]
    else c.preP(c.add(MaskBefore(c, k, i), MaskAfter(c, k, max, i)))
  }

  predicate IsTable<T(==)>(c: Cipher<T>, k: seq<T>, max: nat, t: seq<T>)
    requires IsSubkeys(k, max)
  {
    |t| == max + 1 && forall i :: 0 <= i <= max && i != 1 ==> t[i] == TableEntry(c, k, max, i)
  }

  // ----- the code's cipher is the RFC's cipher

  /** One round changes the mask of the half it writes, provided the half it reads is masked with the round key. */
  lemma MaskedRound<T(!new)>(c: Cipher<T>, x: T, k: T, y: T, before: T, after: T)
    requires Lawful(c)
    ensures c.round(c.add(x, k), c.preP(c.add(before, after)), c.add(y, before)) == c.add(Round(c, x, k, y), after)
  {
    var f := c.sp(c.add(x, k));
    assert RoundAdds(c, c.add(x, k), c.add(before, after), c.add(y, before));
    calc {
      c.add(c.add(c.add(y, before), f), c.add(before, after));
      { assert Assoc(c, c.add(c.add(y, before), f), before, after); }
      c.add(c.add(c.add(c.add(y, before), f), before), after);
      { assert Assoc(c, y, before, f); assert Comm(c, before, f); assert Assoc(c, y, f, before); }
      c.add(c.add(c.add(c.add(y, f), before), before), after);
      { assert Cancel(c, c.add(y, f), before); }
      c.add(c.add(y, f), after);
    }
  }

  /** The table entries of one block of rounds. */
  lemma BlockEntries<T(!new)>(c: Cipher<T>, k: seq<T>, max: nat, t: seq<T>, i: nat)
    requires IsSubkeys(k, max) && IsTable(c, k, max, t) && i % 8 == 0 && i + 8 <= max
    ensures t[i + 2] == c.preP(c.add(MaskBefore(c, k, i + 2), k[i + 3]))
    ensures t[i + 3] == c.preP(c.add(k[i + 2], k[i + 4])) && t[i + 4] == c.preP(c.add(k[i + 3], k[i + 5]))
    ensures t[i + 5] == c.preP(c.add(k[i + 4], k[i + 6])) && t[i + 6] == c.preP(c.add(k[i + 5], k[i + 7]))
    ensures t[i + 7] == c.preP(c.add(k[i + 6], MaskAfter(c, k, max, i + 7)))
  {
  }

  /** Six rounds: they start with the first round key on one half and leave the last one on the other. */
  lemma MaskedSix<T(!new)>(c: Cipher<T>, k: seq<T>, max: nat, t: seq<T>, i: nat, st: Block<T>)
    requires Lawful(c) && IsSubkeys(k, max) && IsTable(c, k, max, t) && i % 8 == 0 && i + 8 <= max
    ensures var r := SixRounds(c, k, i, st);
            CodeSix(c, t, i, Block(c.add(st.a, k[i + 2]), c.add(st.b, MaskBefore(c, k, i + 2))))
            == Block(c.add(r.a, MaskAfter(c, k, max, i + 7)), c.add(r.b, k[i + 7]))
  {
    BlockEntries(c, k, max, t, i);
    SixMasks(c, k, t, i, st, MaskBefore(c, k, i + 2), MaskAfter(c, k, max, i + 7));
  }

  lemma SixMasks<T(!new)>(c: Cipher<T>, k: seq<T>, t: seq<T>, i: nat, st: Block<T>, before: T, after: T)
    requires Lawful(c) && i + 8 <= |k| && i + 8 <= |t|
    requires t[i + 2] == c.preP(c.add(before, k[i + 3]))
    requires t[i + 3] == c.preP(c.add(k[i + 2], k[i + 4])) && t[i + 4] == c.preP(c.add(k[i + 3], k[i + 5]))
    requires t[i + 5] == c.preP(c.add(k[i + 4], k[i + 6])) && t[i + 6] == c.preP(c.add(k[i + 5], k[i + 7]))
    requires t[i + 7] == c.preP(c.add(k[i + 6], after))
    ensures var r := SixRounds(c, k, i, st);
            CodeSix(c, t, i, Block(c.add(st.a, k[i + 2]), c.add(st.b, before)))
            == Block(c.add(r.a, after), c.add(r.b, k[i + 7]))
  {
    var b1 := Round(c, st.a, k[i + 2], st.b);
    var a1 := Round(c, b1, k[i + 3], st.a);
    var b2 := Round(c, a1, k[i + 4], b1);
    var a2 := Round(c, b2, k[i + 5], a1);
    var b3 := Round(c, a2, k[i + 6], b2);
    MaskedRound(c, st.a, k[i + 2], st.b, before, k[i + 3]);
    MaskedRound(c, b1, k[i + 3], st.a, k[i + 2], k[i + 4]);
    MaskedRound(c, a1, k[i + 4], b1, k[i + 3], k[i + 5]);
    MaskedRound(c, b2, k[i + 5], a1, k[i + 4], k[i + 6]);
    MaskedRound(c, a2, k[i + 6], b2, k[i + 5], k[i + 7]);
    MaskedRound(c, b3, k[i + 7], a2, k[i + 6], after);
  }

  /** The FL layer turns the masks a block of rounds leaves into those the next one starts with. */
  lemma MaskedLayer<T(!new)>(c: Cipher<T>, k: seq<T>, max: nat, t: seq<T>, i: nat, r: Block<T>)
    requires Lawful(c) && IsSubkeys(k, max) && IsTable(c, k, max, t) && i % 8 == 0 && 8 <= i && i + 8 <= max
    ensures var l := FLLayer(c, r, k[i], k[i + 1]);
            FLLayer(c, Block(c.add(r.a, MaskAfter(c, k, max, i - 1)), c.add(r.b, k[i - 1])), t[i], t[i + 1])
            == Block(c.add(l.a, k[i + 2]), c.add(l.b, MaskBefore(c, k, i + 2)))
  {
    assert t[i] == TableEntry(c, k, max, i) && t[i + 1] == TableEntry(c, k, max, i + 1);
    assert FLMask(c, r.a, k[i + 2], k[i]);
    assert FLInvMask(c, r.b, k[i - 1], k[i + 1]);
  }

  lemma MaskedBlock<T(!new)>(c: Cipher<T>, k: seq<T>, max: nat, t: seq<T>, i: nat, p: Block<T>, r: Block<T>)
    requires Lawful(c) && IsSubkeys(k, max) && IsTable(c, k, max, t) && i % 8 == 0 && 8 <= i && i + 8 <= max
    requires p == Block(c.add(r.a, MaskAfter(c, k, max, i - 1)), c.add(r.b, k[i - 1]))
    ensures var r' := SixRounds(c, k, i, FLLayer(c, r, k[i], k[i + 1]));
            CodeSix(c, t, i, FLLayer(c, p, t[i], t[i + 1]))
            == Block(c.add(r'.a, MaskAfter(c, k, max, i + 7)), c.add(r'.b, k[i + 7]))
  {
    MaskedLayer(c, k, max, t, i, r);
    MaskedSix(c, k, max, t, i, FLLayer(c, r, k[i], k[i + 1]));
  }

  lemma {:induction false} MaskedRounds<T(!new)>(c: Cipher<T>, k: seq<T>, max: nat, t: seq<T>, i: nat, st: Block<T>)
    requires Lawful(c) && IsSubkeys(k, max) && IsTable(c, k, max, t) && i % 8 == 0 && i + 8 <= max
    ensures var r := Rounds(c, k, i, st);
            CodeRounds(c, t, i, Block(c.add(st.a, k[2]), c.add(st.b, k[1])))
            == Block(c.add(r.a, MaskAfter(c, k, max, i + 7)), c.add(r.b, k[i + 7]))
  {
    if i < 8 {
      MaskedSix(c, k, max, t, 0, st);
    } else {
      MaskedRounds(c, k, max, t, i - 8, st);
      MaskedBlock(c, k, max, t, i, CodeRounds(c, t, i - 8, Block(c.add(st.a, k[2]), c.add(st.b, k[1]))),
                  Rounds(c, k, i - 8, st));
    }
  }

  /** For all subkeys, blocks and S-boxes: encryption with the folded key table is the cipher of RFC 3713. */
  lemma FoldedIsDirect<T(!new)>(c: Cipher<T>, k: seq<T>, max: nat, t: seq<T>, m: Block<T>)
    requires Lawful(c) && IsSubkeys(k, max) && IsTable(c, k, max, t)
    ensures CodeEncrypt(c, t, max, m) == Encrypt(c, k, max, m)
  {
    var st := Block(c.add(m.a, k[0]), c.add(m.b, k[1]));
    assert Assoc(c, m.a, k[0], k[2]);
    assert Cancel(c, m.b, k[1]);
    MaskedRounds(c, k, max, t, max - 8, st);
    var r := Rounds(c, k, max - 8, st);
    var last := k[max - 1];
    calc {
      c.add(c.add(r.b, last), c.add(k[max], last));
      { assert Comm(c, k[max], last); assert Assoc(c, c.add(r.b, last), last, k[max]); }
      c.add(c.add(c.add(r.b, last), last), k[max]);
      { assert Cancel(c, r.b, last); }
      c.add(r.b, k[max]);
    }
  }

  // ----- decryption undoes encryption, with any key table

  lemma UnsixSix<T(!new)>(c: Cipher<T>, t: seq<T>, i: nat, st: Block<T>)
    requires Lawful(c) && i + 8 <= |t|
    ensures CodeUnsix(c, t, i, CodeSix(c, t, i, st).Swap()) == st.Swap()
  {
    var b1 := c.round(st.a, t[i + 2], st.b);
    var a1 := c.round(b1, t[i + 3], st.a);
    var b2 := c.round(a1, t[i + 4], b1);
    var a2 := c.round(b2, t[i + 5], a1);
    var b3 := c.round(a2, t[i + 6], b2);
    assert RoundTwice(c, b3, t[i + 7], a2);
    assert RoundTwice(c, a2, t[i + 6], b2);
    assert RoundTwice(c, b2, t[i + 5], a1);
    assert RoundTwice(c, a1, t[i + 4], b1);
    assert RoundTwice(c, b1, t[i + 3], st.a);
    assert RoundTwice(c, st.a, t[i + 2], st.b);
  }

  lemma UnlayerLayer<T(!new)>(c: Cipher<T>, p: Block<T>, kl: T, kr: T)
    requires Lawful(c)
    ensures FLLayer(c, FLLayer(c, p, kl, kr).Swap(), kr, kl) == p.Swap()
  {
    assert FLInverse(c, p.a, kl) && FLInverse(c, p.b, kr);
  }

  lemma {:induction false} UnroundsRounds<T(!new)>(c: Cipher<T>, t: seq<T>, i: nat, st: Block<T>)
    requires Lawful(c) && i + 8 <= |t|
    ensures CodeUnrounds(c, t, i, CodeRounds(c, t, i, st).Swap()) == st.Swap()
  {
    if i < 8 {
      UnsixSix(c, t, 0, st);
    } else {
      var p := CodeRounds(c, t, i - 8, st);
      UnsixSix(c, t, i, FLLayer(c, p, t[i], t[i + 1]));
      UnlayerLayer(c, p, t[i], t[i + 1]);
      UnroundsRounds(c, t, i - 8, st);
    }
  }

  lemma DecryptUndoes<T(!new)>(c: Cipher<T>, t: seq<T>, max: nat, m: Block<T>)
    requires Lawful(c) && 8 <= max && |t| == max + 1
    ensures CodeDecrypt(c, t, max, CodeEncrypt(c, t, max, m)) == m
  {
    var st := Block(c.add(m.a, t[0]), m.b);
    var r := CodeRounds(c, t, max - 8, st);
    assert Cancel(c, r.b, t[max]);
    UnroundsRounds(c, t, max - 8, st);
    assert Cancel(c, m.a, t[0]);
  }
}
