/** The Camellia cipher on 32-bit words: RFC 3713 next to crypto/camellia.c.  The S-boxes are parameters; nothing
    depends on their contents. */
module Camellia {
  import opened CamelliaFold
  import opened CamelliaHalf

  function X(a: bv32, b: bv32): bv32 { a ^ b }

  function And(a: bv32, b: bv32): bv32 { a & b }

  function AndNot(a: bv32, b: bv32): bv32 { a & !b }

  function Or(a: bv32, b: bv32): bv32 { a | b }

  function Rol1(x: bv32): bv32 { (x << 1) | (x >> 31) }

  function Rol8(x: bv32): bv32 { (x << 8) | (x >> 24) }

  function Ror8(x: bv32): bv32 { (x >> 8) | (x << 24) }

  function W32(): Words<bv32> {
    Words(X, And, AndNot, Or, Rol1, Rol8, Ror8)
  }

  /** The bytes of a word, the most significant first. */
  function Byte0(x: bv32): bv8 { (x >> 24) as bv8 }
  function Byte1(x: bv32): bv8 { ((x >> 16) & 0xFF) as bv8 }
  function Byte2(x: bv32): bv8 { ((x >> 8) & 0xFF) as bv8 }
  function Byte3(x: bv32): bv8 { (x & 0xFF) as bv8 }

  function Word(b0: bv8, b1: bv8, b2: bv8, b3: bv8): bv32 {
    ((b0 as bv32) << 24) | ((b1 as bv32) << 16) | ((b2 as bv32) << 8) | (b3 as bv32)
  }

  // ----- RFC 3713, section 2.4.1

  datatype SBoxes = SBoxes(s1: bv8 -> bv8, s2: bv8 -> bv8, s3: bv8 -> bv8, s4: bv8 -> bv8)

  /** The P-function on the eight S-box outputs. */
  function P(t1: bv8, t2: bv8, t3: bv8, t4: bv8, t5: bv8, t6: bv8, t7: bv8, t8: bv8): Half<bv32> {
    Half(Word(t1 ^ t3 ^ t4 ^ t6 ^ t7 ^ t8, t1 ^ t2 ^ t4 ^ t5 ^ t7 ^ t8,
              t1 ^ t2 ^ t3 ^ t5 ^ t6 ^ t8, t2 ^ t3 ^ t4 ^ t5 ^ t6 ^ t7),
         Word(t1 ^ t2 ^ t6 ^ t7 ^ t8, t2 ^ t3 ^ t5 ^ t7 ^ t8,
              t3 ^ t4 ^ t5 ^ t6 ^ t8, t1 ^ t4 ^ t5 ^ t6 ^ t7))
  }

  /** S-boxes and P-function on an input that already holds the key. */
  function SP(s: SBoxes, x: Half<bv32>): Half<bv32> {
    P(s.s1(Byte0(x.l)), s.s2(Byte1(x.l)), s.s3(Byte2(x.l)), s.s4(Byte3(x.l)),
      s.s2(Byte0(x.r)), s.s3(Byte1(x.r)), s.s4(Byte2(x.r)), s.s1(Byte3(x.r)))
  }

  /** The F-function. */
  function F(s: SBoxes, x: Half<bv32>, k: Half<bv32>): Half<bv32> { SP(s, Xor(W32(), x, k)) }

  // ----- the lookups of the code

  /** Four lookups in camellia_sp1110, camellia_sp0222, camellia_sp3033 and camellia_sp4404, added up; the tables hold
      an S-box output in three of the four bytes. */
  function Sum(t1: bv8, t2: bv8, t3: bv8, t4: bv8): bv32 {
    Word(t1, t1, t1, 0) ^ Word(0, t2, t2, t2) ^ Word(t3, 0, t3, t3) ^ Word(t4, t4, 0, t4)
  }

  /** The eight lookups of a round. */
  function Lookups(s: SBoxes, x: Half<bv32>): Half<bv32> {
    Half(Sum(s.s1(Byte0(x.l)), s.s2(Byte1(x.l)), s.s3(Byte2(x.l)), s.s4(Byte3(x.l))),
         Sum(s.s1(Byte3(x.r)), s.s2(Byte0(x.r)), s.s3(Byte1(x.r)), s.s4(Byte2(x.r))))
  }

  /** CAMELLIA_F. */
  function CodeF(s: SBoxes, x: Half<bv32>, k: Half<bv32>): Half<bv32> {
    LastHalfOfP(W32(), Lookups(s, Xor(W32(), x, k)))
  }

  /** The operations of the cipher: `sp` as the RFC has it, the rounds as the code runs them. */
  function CamelliaOps(s: SBoxes): Cipher<Half<bv32>> {
    Ops(W32(), (x: Half<bv32>) => SP(s, x), (x: Half<bv32>) => Lookups(s, x))
  }

  // ----- the lookups compute the P-function, byte by byte

  function LeftWord(t1: bv8, t2: bv8, t3: bv8, t4: bv8, t5: bv8, t6: bv8, t7: bv8, t8: bv8): bv32 {
    X(Sum(t8, t5, t6, t7), Sum(t1, t2, t3, t4))
  }

  function RightWord(t1: bv8, t2: bv8, t3: bv8, t4: bv8, t5: bv8, t6: bv8, t7: bv8, t8: bv8): bv32 {
    X(Ror8(Sum(t1, t2, t3, t4)), LeftWord(t1, t2, t3, t4, t5, t6, t7, t8))
  }

  lemma PByte1(t1: bv8, t2: bv8, t3: bv8, t4: bv8, t5: bv8, t6: bv8, t7: bv8, t8: bv8)
    ensures Byte0(LeftWord(t1, t2, t3, t4, t5, t6, t7, t8)) == t1 ^ t3 ^ t4 ^ t6 ^ t7 ^ t8
  {
  }

  lemma PByte2(t1: bv8, t2: bv8, t3: bv8, t4: bv8, t5: bv8, t6: bv8, t7: bv8, t8: bv8)
    ensures Byte1(LeftWord(t1, t2, t3, t4, t5, t6, t7, t8)) == t1 ^ t2 ^ t4 ^ t5 ^ t7 ^ t8
  {
  }

  lemma PByte3(t1: bv8, t2: bv8, t3: bv8, t4: bv8, t5: bv8, t6: bv8, t7: bv8, t8: bv8)
    ensures Byte2(LeftWord(t1, t2, t3, t4, t5, t6, t7, t8)) == t1 ^ t2 ^ t3 ^ t5 ^ t6 ^ t8
  {
  }

  lemma PByte4(t1: bv8, t2: bv8, t3: bv8, t4: bv8, t5: bv8, t6: bv8, t7: bv8, t8: bv8)
    ensures Byte3(LeftWord(t1, t2, t3, t4, t5, t6, t7, t8)) == t2 ^ t3 ^ t4 ^ t5 ^ t6 ^ t7
  {
  }

  lemma PByte5(t1: bv8, t2: bv8, t3: bv8, t4: bv8, t5: bv8, t6: bv8, t7: bv8, t8: bv8)
    ensures Byte0(RightWord(t1, t2, t3, t4, t5, t6, t7, t8)) == t1 ^ t2 ^ t6 ^ t7 ^ t8
  {
  }

  lemma PByte6(t1: bv8, t2: bv8, t3: bv8, t4: bv8, t5: bv8, t6: bv8, t7: bv8, t8: bv8)
    ensures Byte1(RightWord(t1, t2, t3, t4, t5, t6, t7, t8)) == t2 ^ t3 ^ t5 ^ t7 ^ t8
  {
  }

  lemma PByte7(t1: bv8, t2: bv8, t3: bv8, t4: bv8, t5: bv8, t6: bv8, t7: bv8, t8: bv8)
    ensures Byte2(RightWord(t1, t2, t3, t4, t5, t6, t7, t8)) == t3 ^ t4 ^ t5 ^ t6 ^ t8
  {
  }

  lemma PByte8(t1: bv8, t2: bv8, t3: bv8, t4: bv8, t5: bv8, t6: bv8, t7: bv8, t8: bv8)
    ensures Byte3(RightWord(t1, t2, t3, t4, t5, t6, t7, t8)) == t1 ^ t4 ^ t5 ^ t6 ^ t7
  {
  }

  lemma FromBytes(x: bv32, b0: bv8, b1: bv8, b2: bv8, b3: bv8)
    requires Byte0(x) == b0 && Byte1(x) == b1 && Byte2(x) == b2 && Byte3(x) == b3
    ensures x == Word(b0, b1, b2, b3)
  {
  }

  lemma LookupsLeft(t1: bv8, t2: bv8, t3: bv8, t4: bv8, t5: bv8, t6: bv8, t7: bv8, t8: bv8)
    ensures LeftWord(t1, t2, t3, t4, t5, t6, t7, t8) == P(t1, t2, t3, t4, t5, t6, t7, t8).l
  {
    PByte1(t1, t2, t3, t4, t5, t6, t7, t8);
    PByte2(t1, t2, t3, t4, t5, t6, t7, t8);
    PByte3(t1, t2, t3, t4, t5, t6, t7, t8);
    PByte4(t1, t2, t3, t4, t5, t6, t7, t8);
    FromBytes(LeftWord(t1, t2, t3, t4, t5, t6, t7, t8),
              t1 ^ t3 ^ t4 ^ t6 ^ t7 ^ t8, t1 ^ t2 ^ t4 ^ t5 ^ t7 ^ t8,
              t1 ^ t2 ^ t3 ^ t5 ^ t6 ^ t8, t2 ^ t3 ^ t4 ^ t5 ^ t6 ^ t7);
  }

  lemma LookupsRight(t1: bv8, t2: bv8, t3: bv8, t4: bv8, t5: bv8, t6: bv8, t7: bv8, t8: bv8)
    ensures RightWord(t1, t2, t3, t4, t5, t6, t7, t8) == P(t1, t2, t3, t4, t5, t6, t7, t8).r
  {
    PByte5(t1, t2, t3, t4, t5, t6, t7, t8);
    PByte6(t1, t2, t3, t4, t5, t6, t7, t8);
    PByte7(t1, t2, t3, t4, t5, t6, t7, t8);
    PByte8(t1, t2, t3, t4, t5, t6, t7, t8);
    FromBytes(RightWord(t1, t2, t3, t4, t5, t6, t7, t8),
              t1 ^ t2 ^ t6 ^ t7 ^ t8, t2 ^ t3 ^ t5 ^ t7 ^ t8,
              t3 ^ t4 ^ t5 ^ t6 ^ t8, t1 ^ t4 ^ t5 ^ t6 ^ t7);
  }

  /** The code's lookups, recombined, are the S-boxes and the P-function. */
  lemma LookupsAreSP(s: SBoxes, x: Half<bv32>)
    ensures SP(s, x) == LastHalfOfP(W32(), Lookups(s, x))
  {
    var t1, t2, t3, t4 := s.s1(Byte0(x.l)), s.s2(Byte1(x.l)), s.s3(Byte2(x.l)), s.s4(Byte3(x.l));
    var t5, t6, t7, t8 := s.s2(Byte0(x.r)), s.s3(Byte1(x.r)), s.s4(Byte2(x.r)), s.s1(Byte3(x.r));
    LookupsLeft(t1, t2, t3, t4, t5, t6, t7, t8);
    LookupsRight(t1, t2, t3, t4, t5, t6, t7, t8);
  }

  /** CAMELLIA_F is the F-function of the RFC. */
  lemma CodeFIsF(s: SBoxes, x: Half<bv32>, k: Half<bv32>)
    ensures CodeF(s, x, k) == F(s, x, k)
  {
    LookupsAreSP(s, Xor(W32(), x, k));
  }

  // ----- the word laws

  lemma XAssoc(a: bv32, b: bv32, c: bv32)
    ensures X(X(a, b), c) == X(a, X(b, c))
  {
  }

  lemma XComm(a: bv32, b: bv32)
    ensures X(a, b) == X(b, a)
  {
  }

  lemma XCancel(a: bv32, b: bv32)
    ensures X(X(a, b), b) == a
  {
  }

  lemma AndXBits(a: bv32, d: bv32, k: bv32)
    ensures (a ^ d) & k == (a & k) ^ (d & k)
  {
  }

  lemma AndX(a: bv32, d: bv32, k: bv32)
    ensures And(X(a, d), k) == X(And(a, k), And(d, k))
  {
    AndXBits(a, d, k);
  }

  lemma AndNotX(a: bv32, d: bv32, k: bv32)
    ensures AndNot(X(a, d), k) == X(AndNot(a, k), AndNot(d, k))
  {
    AndX(a, d, !k);
  }

  lemma OrAsAndNot(a: bv32, k: bv32)
    ensures Or(a, k) == X(AndNot(a, k), k)
  {
  }

  lemma OrX(a: bv32, d: bv32, k: bv32)
    ensures Or(X(a, d), k) == X(Or(a, k), AndNot(d, k))
  {
    OrAsAndNot(X(a, d), k);
    OrAsAndNot(a, k);
    AndNotX(a, d, k);
    XAssoc(AndNot(a, k), AndNot(d, k), k);
    XComm(AndNot(d, k), k);
    XAssoc(AndNot(a, k), k, AndNot(d, k));
  }

  lemma Rol1X(a: bv32, d: bv32)
    ensures Rol1(X(a, d)) == X(Rol1(a), Rol1(d))
  {
  }

  lemma Ror8X(a: bv32, d: bv32)
    ensures Ror8(X(a, Rol8(d))) == X(Ror8(a), d)
  {
  }

  lemma AndOrComm(a: bv32, b: bv32)
    ensures And(a, b) == And(b, a) && Or(a, b) == Or(b, a)
  {
  }

  lemma W32Laws()
    ensures WordLaws(W32())
  {
    forall a, b, c ensures XorAssoc(W32(), a, b, c) { XAssoc(a, b, c); }
    forall a, b ensures XorComm(W32(), a, b) { XComm(a, b); }
    forall a, b ensures XorCancel(W32(), a, b) { XCancel(a, b); }
    forall a, d, k ensures AndXor(W32(), a, d, k) { AndX(a, d, k); }
    forall a, d, k ensures AndNotXor(W32(), a, d, k) { AndNotX(a, d, k); }
    forall a, d, k ensures OrXor(W32(), a, d, k) { OrX(a, d, k); }
    forall a, d ensures Rol1Xor(W32(), a, d) { Rol1X(a, d); }
    forall a, d ensures Ror8Mask(W32(), a, d) { Ror8X(a, d); }
    forall a, b ensures Commutes(W32(), a, b) { AndOrComm(a, b); }
  }

  lemma CamelliaLawful(s: SBoxes)
    ensures Lawful(CamelliaOps(s))
  {
    W32Laws();
    forall x: Half<bv32> ensures SP(s, x) == LastHalfOfP(W32(), Lookups(s, x)) { LookupsAreSP(s, x); }
    OpsLawful(W32(), (x: Half<bv32>) => SP(s, x), (x: Half<bv32>) => Lookups(s, x));
  }

  /** For any S-boxes, subkeys and block: what the code encrypts with its folded key table is the cipher of RFC 3713
      under the subkeys the table was made from, and the code's decryption gives the block back. */
  lemma CamelliaCorrect(s: SBoxes, k: seq<Half<bv32>>, max: nat, t: seq<Half<bv32>>, m: Block<Half<bv32>>)
    requires IsSubkeys(k, max) && IsTable(CamelliaOps(s), k, max, t)
    ensures CodeEncrypt(CamelliaOps(s), t, max, m) == Encrypt(CamelliaOps(s), k, max, m)
    ensures CodeDecrypt(CamelliaOps(s), t, max, Encrypt(CamelliaOps(s), k, max, m)) == m
  {
    CamelliaLawful(s);
    FoldedIsDirect(CamelliaOps(s), k, max, t, m);
    DecryptUndoes(CamelliaOps(s), t, max, m);
  }
}
