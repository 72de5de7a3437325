/** The functions of crypto/camellia.c that work in place on subkey, key table and block arrays: camellia_setup_tail,
    camellia_do_encrypt and camellia_do_decrypt.  An array element is one 64-bit half (a pair of the code's words). */
module CamelliaSetup {
  import opened CamelliaFold

  // ----- what the whitening keys become inside the rounds

  /** kw2 as it reaches the block of rounds whose keys start at `i`. */
  function W<T>(c: Cipher<T>, k: seq<T>, i: nat): T
    requires i + 2 <= |k|
  {
    if i < 8 then k[1] else c.unmask(W(c, k, i - 8), k[i + 1])
  }

  /** kw4 as it reaches, going backwards, the block whose keys start at `i`. */
  function U<T>(c: Cipher<T>, k: seq<T>, max: nat, i: nat): T
    requires |k| == max + 2
    decreases max - i
  {
    if i + 8 >= max then k[max + 1] else c.unmask(U(c, k, max, i + 8), k[i + 8])
  }

  predicate Reads2(i: nat) { i % 8 == 3 || i % 8 == 5 || i % 8 == 7 }   // rounds that read the half carrying kw2

  predicate Reads4(i: nat) { i % 8 == 2 || i % 8 == 4 || i % 8 == 6 }   // rounds that read the half carrying kw4

  /** Subkey `i` with both whitening keys absorbed. */
  function Absorbed<T>(c: Cipher<T>, k: seq<T>, max: nat, i: nat): T
    requires IsSubkeys(k, max) && i <= max
  {
    if i == 0 then c.add(k[0], U(c, k, max, 0))
    else if i == max then c.add(k[max], W(c, k, max - 8))
    else if Reads2(i) then c.add(k[i], W(c, k, i - i % 8))
    else if Reads4(i) then c.add(k[i], U(c, k, max, i - i % 8))
    else k[i]
  }

  /** "key XOR is end of F-function": the table before P is undone. */
  function Combined<T>(c: Cipher<T>, s: seq<T>, max: nat, i: nat): T
    requires IsSubkeys(s, max) && i <= max
  {
    if i == 0 then c.add(s[0], s[2])
    else if i == max then c.add(s[max], s[max - 1])
    else if i % 8 < 2 then s[i]
    else if i == 2 then s[3]
    else if i == max - 1 then s[max - 2]
    else if i % 8 == 2 then c.add(c.unmask(s[i - 3], s[i - 1]), s[i + 1])
    else if i % 8 == 7 then c.add(s[i - 1], c.unmask(s[i + 3], s[i + 1]))
    else c.add(s[i - 1], s[i + 1])
  }

  /** The same in terms of the subkeys the schedule gave: every whitening key has cancelled. */
  function Plain<T>(c: Cipher<T>, k: seq<T>, max: nat, i: nat): T
    requires IsSubkeys(k, max) && i <= max
  {
    if i == 0 then c.add(k[0], k[2])
    else if i == max then c.add(k[max], k[max - 1])
    else if i % 8 < 2 then k[i]
    else c.add(MaskBefore(c, k, i), MaskAfter(c, k, max, i))
  }

  lemma CancelBoth<T(!new)>(c: Cipher<T>, x: T, y: T, m: T)
    requires Lawful(c)
    ensures c.add(c.add(x, m), c.add(y, m)) == c.add(x, y)
  {
    assert Comm(c, y, m);
    assert Assoc(c, c.add(x, m), m, y);
    assert Cancel(c, x, m);
  }

  /** The whitening keys cancel: */
  lemma Absorbs<T(!new)>(c: Cipher<T>, k: seq<T>, max: nat, s: seq<T>, i: nat)
    requires Lawful(c) && IsSubkeys(k, max) && IsSubkeys(s, max) && i <= max && i != 1
    requires forall j :: 0 <= j <= max && j != 1 ==> s[j] == Absorbed(c, k, max, j)
    ensures Combined(c, s, max, i) == Plain(c, k, max, i)
  {
    if i == 0 {
      CancelBoth(c, k[0], k[2], U(c, k, max, 0));
    } else if i == max {
      CancelBoth(c, k[max], k[max - 1], W(c, k, max - 8));
    } else if i == 2 {
      assert Comm(c, k[3], k[1]);
    } else if i == max - 1 {
      assert U(c, k, max, max - 8) == k[max + 1];
    } else if i % 8 == 2 {
      CancelAfter(c, k, max, s, i);
    } else if i % 8 == 7 {
      CancelBefore(c, k, max, s, i);
    } else if i % 8 >= 3 {
      CancelMiddle(c, k, max, s, i);
    }
  }

  /** ... across the FL layer before round i, */
  lemma CancelAfter<T(!new)>(c: Cipher<T>, k: seq<T>, max: nat, s: seq<T>, i: nat)
    requires Lawful(c) && IsSubkeys(k, max) && IsSubkeys(s, max) && 2 < i < max && i % 8 == 2
    requires forall j :: 0 <= j <= max && j != 1 ==> s[j] == Absorbed(c, k, max, j)
    ensures c.add(c.unmask(s[i - 3], s[i - 1]), s[i + 1]) == c.add(c.unmask(k[i - 3], k[i - 1]), k[i + 1])
  {
    assert UnmaskAdds(c, k[i - 3], W(c, k, i - 10), k[i - 1]);
    CancelBoth(c, c.unmask(k[i - 3], k[i - 1]), k[i + 1], W(c, k, i - 2));
  }

  /** ... across the FL layer after it, */
  lemma CancelBefore<T(!new)>(c: Cipher<T>, k: seq<T>, max: nat, s: seq<T>, i: nat)
    requires Lawful(c) && IsSubkeys(k, max) && IsSubkeys(s, max) && i < max - 1 && i % 8 == 7
    requires forall j :: 0 <= j <= max && j != 1 ==> s[j] == Absorbed(c, k, max, j)
    ensures c.add(s[i - 1], c.unmask(s[i + 3], s[i + 1])) == c.add(k[i - 1], c.unmask(k[i + 3], k[i + 1]))
  {
    assert UnmaskAdds(c, k[i + 3], U(c, k, max, i + 1), k[i + 1]);
    CancelBoth(c, k[i - 1], c.unmask(k[i + 3], k[i + 1]), U(c, k, max, i - 7));
  }

  /** ... and inside a block of rounds. */
  lemma CancelMiddle<T(!new)>(c: Cipher<T>, k: seq<T>, max: nat, s: seq<T>, i: nat)
    requires Lawful(c) && IsSubkeys(k, max) && IsSubkeys(s, max) && i < max && 3 <= i % 8 <= 6
    requires forall j :: 0 <= j <= max && j != 1 ==> s[j] == Absorbed(c, k, max, j)
    ensures c.add(s[i - 1], s[i + 1]) == c.add(k[i - 1], k[i + 1])
  {
    var m := if i % 8 == 4 || i % 8 == 6 then W(c, k, i - i % 8) else U(c, k, max, i - i % 8);
    CancelBoth(c, k[i - 1], k[i + 1], m);
  }

  // ----- camellia_setup_tail

  /** Subkeys with kw2 absorbed into the blocks of rounds before `hi`; entry 1 holds kw2 as it left the last of them. */
  predicate Absorbed2<T(==)>(c: Cipher<T>, k: seq<T>, max: nat, s: seq<T>, hi: nat)
    requires IsSubkeys(k, max)
  {
    && |s| == |k| && 8 <= hi <= max && s[1] == W(c, k, hi - 8)
    && forall j :: 0 <= j < |k| && j != 1 ==> s[j] == if j < hi && Reads2(j) then c.add(k[j], W(c, k, j - j % 8))
       else k[j]
  }

  /** Subkeys with kw2 absorbed everywhere and kw4 into the blocks from `lo` on. */
  predicate Absorbed4<T(==)>(c: Cipher<T>, k: seq<T>, max: nat, s: seq<T>, lo: nat)
    requires IsSubkeys(k, max)
  {
    && |s| == |k| && lo <= max && s[max + 1] == k[max + 1]
    && forall j :: 0 <= j <= max && j != 1 ==> s[j] == if j == 0 || (j < lo && Reads4(j)) then k[j]
       else Absorbed(c, k, max, j)
  }

  lemma InBlock(i: nat, j: nat)
    requires i % 8 == 0
    ensures i <= j < i + 8 ==> j % 8 == j - i
    ensures j < i ==> j - j % 8 + 8 <= i
  {
  }

  lemma AbsorbStep2<T>(c: Cipher<T>, k: seq<T>, max: nat, s: seq<T>, s': seq<T>, i: nat, w: T)
    requires IsSubkeys(k, max) && Absorbed2(c, k, max, s, i) && i % 8 == 0 && i < max && w == W(c, k, i)
    requires s' == s[1 := w][i + 3 := c.add(s[i + 3], w)][i + 5 := c.add(s[i + 5], w)][i + 7 := c.add(s[i + 7], w)]
    ensures Absorbed2(c, k, max, s', i + 8)
  {
    forall j | 0 <= j < |k| && j != 1
      ensures s'[j] == if j < i + 8 && Reads2(j) then c.add(k[j], W(c, k, j - j % 8)) else k[j]
    {
      InBlock(i, j);
    }
  }

  lemma AbsorbStep4<T>(c: Cipher<T>, k: seq<T>, max: nat, s: seq<T>, s': seq<T>, i: nat, w: T)
    requires IsSubkeys(k, max) && Absorbed4(c, k, max, s, i + 8) && i % 8 == 0 && i + 8 <= max && w == U(c, k, max, i)
    requires s' == s[i + 2 := c.add(s[i + 2], w)][i + 4 := c.add(s[i + 4], w)][i + 6 := c.add(s[i + 6], w)]
    ensures Absorbed4(c, k, max, s', i)
  {
    forall j | 0 <= j <= max && j != 1
      ensures s'[j] == if j == 0 || (j < i && Reads4(j)) then k[j] else Absorbed(c, k, max, j)
    {
      InBlock(i, j);
    }
  }

  lemma CombineStep<T>(c: Cipher<T>, s: seq<T>, max: nat, t: seq<T>, t': seq<T>, i: nat)
    requires IsSubkeys(s, max) && i % 8 == 0 && 8 <= i < max && CombinedTo(c, s, max, t, i - 1) && |t'| == |t|
    requires forall j :: 0 <= j < i - 1 ==> t'[j] == t[j]
    requires t'[i - 1] == c.add(s[i - 2], c.unmask(s[i + 2], s[i])) && t'[i] == s[i] && t'[i + 1] == s[i + 1]
    requires t'[i + 2] == c.add(c.unmask(s[i - 1], s[i + 1]), s[i + 3])
    requires t'[i + 3] == c.add(s[i + 2], s[i + 4]) && t'[i + 4] == c.add(s[i + 3], s[i + 5])
    requires t'[i + 5] == c.add(s[i + 4], s[i + 6]) && t'[i + 6] == c.add(s[i + 5], s[i + 7])
    ensures CombinedTo(c, s, max, t', i + 7)
  {
    forall j | 0 <= j < i + 7 && j != 1 ensures t'[j] == Combined(c, s, max, j) {
      InBlock(i, j);
    }
  }

  /** Adds a whitening key to three round keys of a block. */
  method AddToRounds<T>(c: Cipher<T>, sub: array<T>, i: nat, w: T)
    requires i + 4 < sub.Length
    modifies sub
    ensures sub[..] == old(sub[..])[i := c.add(old(sub[i]), w)]
                                   [i + 2 := c.add(old(sub[i + 2]), w)][i + 4 := c.add(old(sub[i + 4]), w)]
  {
    sub[i] := c.add(sub[i], w);
    sub[i + 2] := c.add(sub[i + 2], w);
    sub[i + 4] := c.add(sub[i + 4], w);
  }

  /** One block of "absorb kw2 to other subkeys": kw2 goes through the FL layer before it and into its even rounds. */
  method AbsorbBlock2<T(==)>(c: Cipher<T>, sub: array<T>, max: nat, i: nat, ghost k: seq<T>)
    requires IsSubkeys(k, max) && Absorbed2(c, k, max, sub[..], i) && i % 8 == 0 && i < max
    modifies sub
    ensures Absorbed2(c, k, max, sub[..], i + 8)
  {
    ghost var s := sub[..];
    sub[1] := c.unmask(sub[1], sub[i + 1]);
    AddToRounds(c, sub, i + 3, sub[1]);
    AbsorbStep2(c, k, max, s, sub[..], i, W(c, k, i));
  }

  method AbsorbKw2<T(==)>(c: Cipher<T>, sub: array<T>, max: nat)
    requires IsSubkeys(sub[..], max) && (max == 24 || max == 32)
    modifies sub
    ensures Absorbed4(c, old(sub[..]), max, sub[..], max)
  {
    ghost var k := sub[..];
    AddToRounds(c, sub, 3, sub[1]);
    AbsorbBlock2(c, sub, max, 8, k);
    AbsorbBlock2(c, sub, max, 16, k);
    if max == 32 {
      AbsorbBlock2(c, sub, max, 24, k);
    }
    sub[max] := c.add(sub[max], sub[1]);
  }

  /** One block of "absorb kw4 to other subkeys", going backwards: into its odd rounds, then through the FL layer. */
  method AbsorbBlock4<T(==)>(c: Cipher<T>, sub: array<T>, max: nat, i: nat, kw4: T, ghost k: seq<T>)
    requires IsSubkeys(k, max) && i % 8 == 0 && i + 8 <= max
    requires Absorbed4(c, k, max, sub[..], i + 8) && kw4 == U(c, k, max, i)
    modifies sub
    ensures Absorbed4(c, k, max, sub[..], i)
  {
    AddToRounds(c, sub, i + 2, kw4);
    AbsorbStep4(c, k, max, old(sub[..]), sub[..], i, kw4);
  }

  method AbsorbKw4<T(==)>(c: Cipher<T>, sub: array<T>, max: nat, ghost k: seq<T>)
    requires IsSubkeys(k, max) && (max == 24 || max == 32) && Absorbed4(c, k, max, sub[..], max)
    modifies sub
    ensures sub.Length == max + 2 && forall j :: 0 <= j <= max && j != 1 ==> sub[j] == Absorbed(c, k, max, j)
  {
    var kw4 := sub[max + 1];
    if max == 32 {
      AbsorbBlock4(c, sub, max, 24, kw4, k);
      kw4 := c.unmask(kw4, sub[24]);
    }
    AbsorbBlock4(c, sub, max, 16, kw4, k);
    kw4 := c.unmask(kw4, sub[16]);
    AbsorbBlock4(c, sub, max, 8, kw4, k);
    kw4 := c.unmask(kw4, sub[8]);
    AbsorbBlock4(c, sub, max, 0, kw4, k);
    sub[0] := c.add(sub[0], kw4);
  }

  /** The middle of a block of "key XOR is end of F-function". */
  method CombineMiddle<T>(c: Cipher<T>, sub: array<T>, subkey: array<T>, i: nat)
    requires i + 7 < sub.Length && i + 6 < subkey.Length && sub != subkey
    modifies subkey
    ensures subkey[..] == old(subkey[..])[i + 3 := c.add(sub[i + 2], sub[i + 4])]
                                         [i + 4 := c.add(sub[i + 3], sub[i + 5])]
                                         [i + 5 := c.add(sub[i + 4], sub[i + 6])]
                                         [i + 6 := c.add(sub[i + 5], sub[i + 7])]
  {
    subkey[i + 3] := c.add(sub[i + 2], sub[i + 4]);
    subkey[i + 4] := c.add(sub[i + 3], sub[i + 5]);
    subkey[i + 5] := c.add(sub[i + 4], sub[i + 6]);
    subkey[i + 6] := c.add(sub[i + 5], sub[i + 7]);
  }

  /** From the last round of a block through the FL layer to the first round of the next one. */
  method CombineLayer<T>(c: Cipher<T>, sub: array<T>, subkey: array<T>, i: nat)
    requires 8 <= i && i + 3 < sub.Length && i + 2 < subkey.Length && sub != subkey
    modifies subkey
    ensures subkey[..] == old(subkey[..])[i - 1 := c.add(sub[i - 2], c.unmask(sub[i + 2], sub[i]))][i := sub[i]]
                                         [i + 1 := sub[i + 1]]
                                         [i + 2 := c.add(c.unmask(sub[i - 1], sub[i + 1]), sub[i + 3])]
  {
    subkey[i - 1] := c.add(sub[i - 2], c.unmask(sub[i + 2], sub[i]));
    subkey[i] := sub[i];
    subkey[i + 1] := sub[i + 1];
    subkey[i + 2] := c.add(c.unmask(sub[i - 1], sub[i + 1]), sub[i + 3]);
  }

  /** Table entries below `hi` are combined. */
  predicate CombinedTo<T(==)>(c: Cipher<T>, s: seq<T>, max: nat, t: seq<T>, hi: nat)
    requires IsSubkeys(s, max)
  {
    |t| == max + 1 && hi <= max + 1 && forall j :: 0 <= j < hi && j != 1 ==> t[j] == Combined(c, s, max, j)
  }

  method CombineBlock<T(==)>(c: Cipher<T>, sub: array<T>, subkey: array<T>, max: nat, i: nat)
    requires IsSubkeys(sub[..], max) && sub != subkey && i % 8 == 0 && 8 <= i < max
    requires CombinedTo(c, sub[..], max, subkey[..], i - 1)
    modifies subkey
    ensures CombinedTo(c, sub[..], max, subkey[..], i + 7)
  {
    CombineLayer(c, sub, subkey, i);
    CombineMiddle(c, sub, subkey, i);
    CombineStep(c, sub[..], max, old(subkey[..]), subkey[..], i);
  }

  method Combine<T(==)>(c: Cipher<T>, sub: array<T>, subkey: array<T>, max: nat)
    requires IsSubkeys(sub[..], max) && sub != subkey && subkey.Length == max + 1 && (max == 24 || max == 32)
    modifies subkey
    ensures CombinedTo(c, sub[..], max, subkey[..], max + 1)
  {
    subkey[0] := c.add(sub[0], sub[2]);
    subkey[2] := sub[3];
    CombineMiddle(c, sub, subkey, 0);
    CombineBlock(c, sub, subkey, max, 8);
    CombineBlock(c, sub, subkey, max, 16);
    if max == 32 {
      CombineBlock(c, sub, subkey, max, 24);
    }
    subkey[max - 1] := sub[max - 2];
    subkey[max] := c.add(sub[max], sub[max - 1]);
  }

  /** "apply the inverse of the last half of P-function". */
  method UndoP<T(==)>(c: Cipher<T>, subkey: array<T>, max: nat)
    requires 8 <= max && max % 8 == 0 && subkey.Length == max + 1
    modifies subkey
    ensures forall j :: 0 <= j <= max ==>
              subkey[j] == if j < max && j % 8 >= 2 then c.preP(old(subkey[j])) else old(subkey[j])
  {
    var i := 2;
    while i < max
      invariant i % 8 == 2 && 2 <= i <= max + 2
      invariant forall j :: 0 <= j <= max ==>
                  subkey[j] == if j < i && j < max && j % 8 >= 2 then c.preP(old(subkey[j])) else old(subkey[j])
    {
      UndoSix(c, subkey, i);
      i := i + 8;
    }
  }

  method UndoSix<T(==)>(c: Cipher<T>, subkey: array<T>, i: nat)
    requires i + 6 <= subkey.Length
    modifies subkey
    ensures forall j :: 0 <= j < subkey.Length ==>
              subkey[j] == if i <= j < i + 6 then c.preP(old(subkey[j])) else old(subkey[j])
  {
    subkey[i] := c.preP(subkey[i]);
    subkey[i + 1] := c.preP(subkey[i + 1]);
    subkey[i + 2] := c.preP(subkey[i + 2]);
    subkey[i + 3] := c.preP(subkey[i + 3]);
    subkey[i + 4] := c.preP(subkey[i + 4]);
    subkey[i + 5] := c.preP(subkey[i + 5]);
  }

  /** camellia_setup_tail turns the subkeys of the schedule into the folded key table. */
  method SetupTail<T(==,!new)>(c: Cipher<T>, subkey: array<T>, sub: array<T>, max: nat)
    requires Lawful(c) && IsSubkeys(sub[..], max) && sub != subkey && subkey.Length == max + 1
             && (max == 24 || max == 32)
    modifies sub, subkey
    ensures IsTable(c, old(sub[..]), max, subkey[..])
  {
    ghost var k := sub[..];
    AbsorbKw2(c, sub, max);
    AbsorbKw4(c, sub, max, k);
    Combine(c, sub, subkey, max);
    ghost var s, t := sub[..], subkey[..];
    UndoP(c, subkey, max);
    forall i | 0 <= i <= max && i != 1 ensures subkey[i] == TableEntry(c, k, max, i) {
      Absorbs(c, k, max, s, i);
      assert t[i] == Combined(c, s, max, i);
    }
  }

  // ----- camellia_do_encrypt and camellia_do_decrypt

  /** ROUNDS(i) of camellia_do_encrypt. */
  method SixInPlace<T(==)>(c: Cipher<T>, subkey: array<T>, io: array<T>, i: nat)
    requires io.Length == 2 && subkey != io && i + 8 <= subkey.Length
    modifies io
    ensures Block(io[0], io[1]) == CodeSix(c, subkey[..], i, Block(old(io[0]), old(io[1])))
  {
    io[1] := c.round(io[0], subkey[i + 2], io[1]);
    io[0] := c.round(io[1], subkey[i + 3], io[0]);
    io[1] := c.round(io[0], subkey[i + 4], io[1]);
    io[0] := c.round(io[1], subkey[i + 5], io[0]);
    io[1] := c.round(io[0], subkey[i + 6], io[1]);
    io[0] := c.round(io[1], subkey[i + 7], io[0]);
  }

  /** ROUNDS(i) of camellia_do_decrypt. */
  method UnsixInPlace<T(==)>(c: Cipher<T>, subkey: array<T>, io: array<T>, i: nat)
    requires io.Length == 2 && subkey != io && i + 8 <= subkey.Length
    modifies io
    ensures Block(io[0], io[1]) == CodeUnsix(c, subkey[..], i, Block(old(io[0]), old(io[1])))
  {
    io[1] := c.round(io[0], subkey[i + 7], io[1]);
    io[0] := c.round(io[1], subkey[i + 6], io[0]);
    io[1] := c.round(io[0], subkey[i + 5], io[1]);
    io[0] := c.round(io[1], subkey[i + 4], io[0]);
    io[1] := c.round(io[0], subkey[i + 3], io[1]);
    io[0] := c.round(io[1], subkey[i + 2], io[0]);
  }

  /** FLS(i): in decryption the two keys change places. */
  method LayerInPlace<T(==)>(c: Cipher<T>, io: array<T>, kl: T, kr: T)
    requires io.Length == 2
    modifies io
    ensures Block(io[0], io[1]) == FLLayer(c, Block(old(io[0]), old(io[1])), kl, kr)
  {
    io[0] := c.fl(io[0], kl);
    io[1] := c.flInv(io[1], kr);
  }

  /** camellia_do_encrypt leaves the halves in the wrong order for its caller to swap. */
  method DoEncrypt<T(==)>(c: Cipher<T>, subkey: array<T>, io: array<T>, max: nat)
    requires io.Length == 2 && subkey != io && subkey.Length == max + 1 && (max == 24 || max == 32)
    modifies io
    ensures Block(io[1], io[0]) == CodeEncrypt(c, subkey[..], max, Block(old(io[0]), old(io[1])))
  {
    io[0] := c.add(io[0], subkey[0]);
    ghost var st := Block(io[0], io[1]);
    SixInPlace(c, subkey, io, 0);
    LayerInPlace(c, io, subkey[8], subkey[9]);
    SixInPlace(c, subkey, io, 8);
    assert Block(io[0], io[1]) == CodeRounds(c, subkey[..], 8, st);
    LayerInPlace(c, io, subkey[16], subkey[17]);
    SixInPlace(c, subkey, io, 16);
    assert Block(io[0], io[1]) == CodeRounds(c, subkey[..], 16, st);
    if max == 32 {
      LayerInPlace(c, io, subkey[24], subkey[25]);
      SixInPlace(c, subkey, io, 24);
    }
    io[1] := c.add(io[1], subkey[max]);
  }

  /** camellia_do_decrypt. */
  method DoDecrypt<T(==)>(c: Cipher<T>, subkey: array<T>, io: array<T>, max: nat)
    requires io.Length == 2 && subkey != io && subkey.Length == max + 1 && (max == 24 || max == 32)
    modifies io
    ensures Block(io[1], io[0]) == CodeDecrypt(c, subkey[..], max, Block(old(io[0]), old(io[1])))
  {
    io[0] := c.add(io[0], subkey[max]);
    ghost var t := subkey[..];
    ghost var st := Block(io[0], io[1]);
    ghost var want := CodeUnrounds(c, t, max - 8, st);
    if max == 32 {
      UnsixInPlace(c, subkey, io, 24);
      LayerInPlace(c, io, subkey[25], subkey[24]);
    }
    assert CodeUnrounds(c, t, 16, Block(io[0], io[1])) == want;
    UnsixInPlace(c, subkey, io, 16);
    LayerInPlace(c, io, subkey[17], subkey[16]);
    assert CodeUnrounds(c, t, 8, Block(io[0], io[1])) == want;
    UnsixInPlace(c, subkey, io, 8);
    LayerInPlace(c, io, subkey[9], subkey[8]);
    assert CodeUnrounds(c, t, 0, Block(io[0], io[1])) == want;
    UnsixInPlace(c, subkey, io, 0);
    io[1] := c.add(io[1], subkey[0]);
  }

  /** With the table of the subkeys `k`, the code encrypts as the direct cipher does. */
  method EncryptWith<T(==, !new)>(c: Cipher<T>, ghost k: seq<T>, subkey: array<T>, max: nat, block: Block<T>)
    returns (out: Block<T>)
    requires Lawful(c) && (max == 24 || max == 32) && subkey.Length == max + 1 && IsSubkeys(k, max)
             && IsTable(c, k, max, subkey[..])
    ensures out == Encrypt(c, k, max, block)
  {
    FoldedIsDirect(c, k, max, subkey[..], block);
    var io := new T[2](i => if i == 0 then block.a else block.b);
    DoEncrypt(c, subkey, io, max);
    out := Block(io[1], io[0]);
  }

  /** And decrypts what it encrypted. */
  method DecryptWith<T(==, !new)>(c: Cipher<T>, ghost k: seq<T>, subkey: array<T>, max: nat, block: Block<T>)
    returns (out: Block<T>)
    requires Lawful(c) && (max == 24 || max == 32) && subkey.Length == max + 1 && IsSubkeys(k, max)
             && IsTable(c, k, max, subkey[..])
    ensures forall m :: block == Encrypt(c, k, max, m) ==> out == m
  {
    var io := new T[2](i => if i == 0 then block.a else block.b);
    DoDecrypt(c, subkey, io, max);
    out := Block(io[1], io[0]);
    forall m | block == Encrypt(c, k, max, m) ensures out == m {
      FoldedIsDirect(c, k, max, subkey[..], m);
      DecryptUndoes(c, subkey[..], max, m);
    }
  }
}
