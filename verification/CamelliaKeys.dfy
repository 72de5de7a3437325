/** Camellia with keys of 128 bits (camellia_setup128 of crypto/camellia.c) against section 2.2 of RFC 3713. */
module CamelliaKeys {
  import opened CamelliaFold
  import opened CamelliaHalf
  import opened Camellia
  import opened CamelliaSetup
  import opened CamelliaSchedule
  import opened CamelliaRotate

  // ----- section 2.2 for 128-bit keys

  const SIGMA1 := Half(0xA09E667F as bv32, 0x3BCC908B as bv32)
  const SIGMA2 := Half(0xB67AE858 as bv32, 0x4CAA73B2 as bv32)
  const SIGMA3 := Half(0xC6EF372F as bv32, 0xE94F82BE as bv32)
  const SIGMA4 := Half(0x54FF53A5 as bv32, 0xF1D36F1C as bv32)

  function Join(a: Half<bv32>, b: Half<bv32>): Quad { Quad(a.l, a.r, b.l, b.r) }

  function HXor(a: Half<bv32>, b: Half<bv32>): Half<bv32> { Xor(W32(), a, b) }

  /** KA, with KR all zeros. */
  function KA(s: SBoxes, kl: Half<bv32>, kr: Half<bv32>): Block<Half<bv32>> {
    var b1 := HXor(kr, F(s, kl, SIGMA1));
    var a1 := HXor(kl, F(s, b1, SIGMA2));
    var a2 := HXor(a1, kl);
    var b2 := HXor(b1, kr);
    var b3 := HXor(b2, F(s, a2, SIGMA3));
    Block(HXor(a2, F(s, b3, SIGMA4)), b3)
  }

  function Subkeys128(s: SBoxes, key: Quad): (k: seq<Half<bv32>>)
    ensures |k| == 26
  {
    Schedule(Keys(), Cat(key), Cat(RfcKA(s, LeftOf(key), RightOf(key))))
  }

  function RfcKA(s: SBoxes, kl: Half<bv32>, kr: Half<bv32>): Quad { var ab := KA(s, kl, kr); Join(ab.a, ab.b) }

  // ----- the code

  /** "generate KA": the code leaves out additions that cancel. */
  function CodeKA(s: SBoxes, kl: Half<bv32>, kr: Half<bv32>): Block<Half<bv32>> {
    var w := CodeF(s, kl, SIGMA1);
    var r1 := HXor(kr, w);
    var l1 := CodeF(s, r1, SIGMA2);
    var r2 := HXor(CodeF(s, l1, SIGMA3), w);
    Block(HXor(l1, CodeF(s, r2, SIGMA4)), r2)
  }

  lemma CodeKAIsKA(s: SBoxes, kl: Half<bv32>, kr: Half<bv32>)
    ensures CodeKA(s, kl, kr) == KA(s, kl, kr)
  {
    W32Laws();
    CodeFIsF(s, kl, SIGMA1);
    var w := F(s, kl, SIGMA1);
    var b1 := HXor(kr, w);
    CodeFIsF(s, b1, SIGMA2);
    var f2 := F(s, b1, SIGMA2);
    XorLawsHalf(W32(), f2, kl, kl);
    XorLawsHalf(W32(), kl, f2, f2);
    XorLawsHalf(W32(), kr, w, w);
    XorLawsHalf(W32(), w, kr, kr);
    CodeFIsF(s, f2, SIGMA3);
    var f3 := F(s, f2, SIGMA3);
    XorLawsHalf(W32(), f3, w, w);
    CodeFIsF(s, HXor(w, f3), SIGMA4);
  }

  function MadeKA(s: SBoxes, kl: Half<bv32>, kr: Half<bv32>): Quad { var ab := CodeKA(s, kl, kr); Join(ab.a, ab.b) }

  lemma MadeKAIsRfcKA(s: SBoxes, kl: Half<bv32>, kr: Half<bv32>)
    ensures MadeKA(s, kl, kr) == RfcKA(s, kl, kr)
  {
    CodeKAIsKA(s, kl, kr);
  }

  // ----- the schedule

  function LeftOf(q: Quad): Half<bv32> { Half(q.ll, q.lr) }

  function RightOf(q: Quad): Half<bv32> { Half(q.rl, q.rr) }

  function Keys(): KeyOps<Quad, bv128, Half<bv32>> {
    KeyOps(Cat, (x, n) => if n <= 128 then Rol(x, n) else x, Left, Right, LeftOf, RightOf, Roldq15, Roldq17, Roldq30,
           Roldq34, Roldq45, Roldq49, Roldq51, Turn32)
  }

  lemma KeysAreHalves(q: Quad)
    ensures Same(Keys(), q) && Rotates(Keys(), q)
  {
    SplitsInHalves(q);
    Rotates15(q);
    Rotates17(q);
    Rotates30(q);
    Rotates34(q);
  }

  lemma KeysAdd(x: bv128)
    ensures Adds(Keys(), x)
  {
    Sum15And15(x);
    Sum15And30(x);
    Sum30And15(x);
    Sum45And15(x);
    Sum60And17(x);
    Sum60And34(x);
    Sum77And17(x);
    Sum94And17(x);
  }

  lemma KeysRotateMore(q: Quad)
    ensures RotatesMore(Keys(), q)
  {
    Rotates45(q);
    Rotates49(q);
    Rotates51(q);
    Rotates32(q);
  }

  lemma KeysAddMore(x: bv128)
    ensures AddsMore(Keys(), x)
  {
    Sum77And34(x);
    Sum30And30(x);
    Sum94And34(x);
    Sum45And32(x);
    Sum45And49(x);
    Sum60And51(x);
  }

  lemma KeysLawful()
    ensures CamelliaSchedule.Lawful(Keys())
  {
    forall q ensures Same(Keys(), q) && Rotates(Keys(), q) && RotatesMore(Keys(), q) {
      KeysAreHalves(q);
      KeysRotateMore(q);
    }
    forall x ensures Adds(Keys(), x) && AddsMore(Keys(), x) {
      KeysAdd(x);
      KeysAddMore(x);
    }
  }

  /** camellia_setup128: the key table of a 128-bit key is the folded form of the RFC's subkeys. */
  method Setup128(s: SBoxes, key: Quad, subkey: array<Half<bv32>>)
    requires subkey.Length == 25
    modifies subkey
    ensures IsTable(CamelliaOps(s), Subkeys128(s, key), 24, subkey[..])
  {
    KeysLawful();
    var sub := MakeSubkeys(Keys(), key, (l, r) => MadeKA(s, l, r));
    MadeKAIsRfcKA(s, LeftOf(key), RightOf(key));
    CamelliaLawful(s);
    SetupTail(CamelliaOps(s), subkey, sub, 24);
  }

  /** camellia_encrypt after camellia_set_key with a 128-bit key: the cipher of RFC 3713. */
  method Encrypt128(s: SBoxes, key: Quad, block: Block<Half<bv32>>) returns (out: Block<Half<bv32>>)
    ensures out == Encrypt(CamelliaOps(s), Subkeys128(s, key), 24, block)
  {
    var table := new Half<bv32>[25](_ => Half(0, 0));
    Setup128(s, key, table);
    CamelliaLawful(s);
    out := EncryptWith(CamelliaOps(s), Subkeys128(s, key), table, 24, block);
  }

  /** camellia_decrypt with the same key: it undoes that cipher. */
  method Decrypt128(s: SBoxes, key: Quad, block: Block<Half<bv32>>) returns (out: Block<Half<bv32>>)
    ensures forall m :: block == Encrypt(CamelliaOps(s), Subkeys128(s, key), 24, m) ==> out == m
  {
    var table := new Half<bv32>[25](_ => Half(0, 0));
    Setup128(s, key, table);
    CamelliaLawful(s);
    out := DecryptWith(CamelliaOps(s), Subkeys128(s, key), table, 24, block);
  }
}
