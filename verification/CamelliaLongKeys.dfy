/** Camellia with keys of 256 and 192 bits (camellia_setup256 and camellia_setup192 of crypto/camellia.c) against
    section 2.2 of RFC 3713. */
module CamelliaLongKeys {
  import opened CamelliaFold
  import opened CamelliaHalf
  import opened Camellia
  import opened CamelliaSetup
  import opened CamelliaSchedule
  import opened CamelliaLongSchedule
  import opened CamelliaRotate
  import opened CamelliaKeys

  const SIGMA5 := Half(0x10E527FA as bv32, 0xDE682D1D as bv32)
  const SIGMA6 := Half(0xB05688C2 as bv32, 0xB3E6C1FD as bv32)

  // ----- section 2.2

  /** KA from KL and KR. */
  function LongKA(s: SBoxes, kl: Block<Half<bv32>>, kr: Block<Half<bv32>>): Block<Half<bv32>> {
    var a0, b0 := HXor(kl.a, kr.a), HXor(kl.b, kr.b);
    var b1 := HXor(b0, F(s, a0, SIGMA1));
    var a1 := HXor(a0, F(s, b1, SIGMA2));
    var a2 := HXor(a1, kl.a);
    var b2 := HXor(b1, kl.b);
    var b3 := HXor(b2, F(s, a2, SIGMA3));
    Block(HXor(a2, F(s, b3, SIGMA4)), b3)
  }

  /** KB from KA and KR. */
  function LongKB(s: SBoxes, ka: Block<Half<bv32>>, kr: Block<Half<bv32>>): Block<Half<bv32>> {
    var a0, b0 := HXor(ka.a, kr.a), HXor(ka.b, kr.b);
    var b1 := HXor(b0, F(s, a0, SIGMA5));
    Block(HXor(a0, F(s, b1, SIGMA6)), b1)
  }

  function QuadOf(x: Block<Half<bv32>>): Quad { Join(x.a, x.b) }

  function BlockOf(q: Quad): Block<Half<bv32>> { Block(LeftOf(q), RightOf(q)) }

  /** The subkeys of a 256-bit key, of which kl is the left half and kr the right. */
  function Subkeys256(s: SBoxes, kl: Quad, kr: Quad): (k: seq<Half<bv32>>)
    ensures |k| == 34
  {
    var ka := LongKA(s, BlockOf(kl), BlockOf(kr));
    var kb := LongKB(s, ka, BlockOf(kr));
    LongSchedule(Keys(), Cat(kl), Cat(kr), Cat(QuadOf(ka)), Cat(QuadOf(kb)))
  }

  /** The cipher of the RFC under that key. */
  function Cipher256(s: SBoxes, kl: Quad, kr: Quad, m: Block<Half<bv32>>): Block<Half<bv32>> {
    Encrypt(CamelliaOps(s), Subkeys256(s, kl, kr), 32, m)
  }

  /** The folded form of its subkeys. */
  predicate IsTable256(s: SBoxes, kl: Quad, kr: Quad, t: seq<Half<bv32>>) {
    IsTable(CamelliaOps(s), Subkeys256(s, kl, kr), 32, t)
  }

  /** The right half of a 192-bit key is its last 64 bits and their complement. */
  function Extended(r: Half<bv32>): Quad { Quad(r.l, r.r, !r.l, !r.r) }

  // ----- the code

  /** "generate KA": the code leaves out additions that cancel. */
  function CodeLongKA(s: SBoxes, kl: Block<Half<bv32>>, kr: Block<Half<bv32>>): Block<Half<bv32>> {
    var l0, r0 := HXor(kl.a, kr.a), HXor(kl.b, kr.b);
    var w := CodeF(s, l0, SIGMA1);
    var r1 := HXor(r0, w);
    var l1 := HXor(CodeF(s, r1, SIGMA2), kr.a);
    var r2 := HXor(CodeF(s, l1, SIGMA3), HXor(w, kr.b));
    Block(HXor(l1, CodeF(s, r2, SIGMA4)), r2)
  }

  /** "generate KB". */
  function CodeLongKB(s: SBoxes, ka: Block<Half<bv32>>, kr: Block<Half<bv32>>): Block<Half<bv32>> {
    var l0, r0 := HXor(kr.a, ka.a), HXor(kr.b, ka.b);
    var r1 := HXor(r0, CodeF(s, l0, SIGMA5));
    Block(HXor(l0, CodeF(s, r1, SIGMA6)), r1)
  }

  /** What is added twice cancels. */
  lemma Cancels(k: Half<bv32>, x: Half<bv32>, y: Half<bv32>)
    ensures HXor(HXor(HXor(k, x), y), k) == HXor(y, x)
  {
    W32Laws();
    XorLawsHalf(W32(), k, x, y);
    XorLawsHalf(W32(), k, HXor(x, y), y);
    XorLawsHalf(W32(), HXor(x, y), k, k);
    XorLawsHalf(W32(), x, y, y);
  }

  lemma Swaps(x: Half<bv32>, y: Half<bv32>)
    ensures HXor(x, y) == HXor(y, x)
  {
    W32Laws();
    XorLawsHalf(W32(), x, y, y);
  }

  lemma CodeLongKAIsKA(s: SBoxes, kl: Block<Half<bv32>>, kr: Block<Half<bv32>>)
    ensures CodeLongKA(s, kl, kr) == LongKA(s, kl, kr)
  {
    var a0, b0 := HXor(kl.a, kr.a), HXor(kl.b, kr.b);
    CodeFIsF(s, a0, SIGMA1);
    var w := F(s, a0, SIGMA1);
    var b1 := HXor(b0, w);
    CodeFIsF(s, b1, SIGMA2);
    var f2 := F(s, b1, SIGMA2);
    Cancels(kl.a, kr.a, f2);
    var a2 := HXor(f2, kr.a);
    CodeFIsF(s, a2, SIGMA3);
    var f3 := F(s, a2, SIGMA3);
    Cancels(kl.b, kr.b, w);
    Swaps(HXor(w, kr.b), f3);
    CodeFIsF(s, HXor(f3, HXor(w, kr.b)), SIGMA4);
  }

  lemma CodeLongKBIsKB(s: SBoxes, ka: Block<Half<bv32>>, kr: Block<Half<bv32>>)
    ensures CodeLongKB(s, ka, kr) == LongKB(s, ka, kr)
  {
    Swaps(ka.a, kr.a);
    Swaps(ka.b, kr.b);
    var a0, b0 := HXor(ka.a, kr.a), HXor(ka.b, kr.b);
    CodeFIsF(s, a0, SIGMA5);
    CodeFIsF(s, HXor(b0, F(s, a0, SIGMA5)), SIGMA6);
  }

  function MadeLongKA(s: SBoxes, a: Half<bv32>, b: Half<bv32>, c: Half<bv32>, d: Half<bv32>): Quad {
    QuadOf(CodeLongKA(s, Block(a, b), Block(c, d)))
  }

  function MadeLongKB(s: SBoxes, a: Half<bv32>, b: Half<bv32>, c: Half<bv32>, d: Half<bv32>): Quad {
    QuadOf(CodeLongKB(s, Block(a, b), Block(c, d)))
  }

  /** camellia_setup256: the key table of a 256-bit key is the folded form of the RFC's subkeys. */
  method Setup256(s: SBoxes, kl: Quad, kr: Quad, subkey: array<Half<bv32>>)
    requires subkey.Length == 33
    modifies subkey
    ensures IsTable256(s, kl, kr, subkey[..])
  {
    KeysLawful();
    var sub := MakeLongSubkeys(Keys(), kl, kr, (a, b, c, d) => MadeLongKA(s, a, b, c, d),
                               (a, b, c, d) => MadeLongKB(s, a, b, c, d));
    CodeLongKAIsKA(s, BlockOf(kl), BlockOf(kr));
    CodeLongKBIsKB(s, LongKA(s, BlockOf(kl), BlockOf(kr)), BlockOf(kr));
    assert sub[..] == Subkeys256(s, kl, kr);
    CamelliaLawful(s);
    SetupTail(CamelliaOps(s), subkey, sub, 32);
  }

  /** camellia_setup192. */
  method Setup192(s: SBoxes, kl: Quad, r: Half<bv32>, subkey: array<Half<bv32>>)
    requires subkey.Length == 33
    modifies subkey
    ensures IsTable256(s, kl, Extended(r), subkey[..])
  {
    Setup256(s, kl, Extended(r), subkey);
  }

  method EncryptLong(s: SBoxes, ghost kl: Quad, ghost kr: Quad, table: array<Half<bv32>>, block: Block<Half<bv32>>)
    returns (out: Block<Half<bv32>>)
    requires IsTable256(s, kl, kr, table[..])
    ensures out == Cipher256(s, kl, kr, block)
  {
    CamelliaLawful(s);
    out := EncryptWith(CamelliaOps(s), Subkeys256(s, kl, kr), table, 32, block);
  }

  method DecryptLong(s: SBoxes, ghost kl: Quad, ghost kr: Quad, table: array<Half<bv32>>, block: Block<Half<bv32>>)
    returns (out: Block<Half<bv32>>)
    requires IsTable256(s, kl, kr, table[..])
    ensures forall m :: block == Cipher256(s, kl, kr, m) ==> out == m
  {
    CamelliaLawful(s);
    out := DecryptWith(CamelliaOps(s), Subkeys256(s, kl, kr), table, 32, block);
  }

  /** camellia_encrypt after camellia_set_key with a 256-bit key: the cipher of RFC 3713. */
  method Encrypt256(s: SBoxes, kl: Quad, kr: Quad, block: Block<Half<bv32>>) returns (out: Block<Half<bv32>>)
    ensures out == Cipher256(s, kl, kr, block)
  {
    var table := new Half<bv32>[33](_ => Half(0, 0));
    Setup256(s, kl, kr, table);
    out := EncryptLong(s, kl, kr, table, block);
  }

  /** camellia_decrypt with the same key: it undoes that cipher. */
  method Decrypt256(s: SBoxes, kl: Quad, kr: Quad, block: Block<Half<bv32>>) returns (out: Block<Half<bv32>>)
    ensures forall m :: block == Cipher256(s, kl, kr, m) ==> out == m
  {
    var table := new Half<bv32>[33](_ => Half(0, 0));
    Setup256(s, kl, kr, table);
    out := DecryptLong(s, kl, kr, table, block);
  }

  /** With a 192-bit key both are what they are with its extension. */
  method Encrypt192(s: SBoxes, kl: Quad, r: Half<bv32>, block: Block<Half<bv32>>) returns (out: Block<Half<bv32>>)
    ensures out == Cipher256(s, kl, Extended(r), block)
  {
    var table := new Half<bv32>[33](_ => Half(0, 0));
    Setup192(s, kl, r, table);
    out := EncryptLong(s, kl, Extended(r), table, block);
  }

  method Decrypt192(s: SBoxes, kl: Quad, r: Half<bv32>, block: Block<Half<bv32>>) returns (out: Block<Half<bv32>>)
    ensures forall m :: block == Cipher256(s, kl, Extended(r), m) ==> out == m
  {
    var table := new Half<bv32>[33](_ => Half(0, 0));
    Setup192(s, kl, r, table);
    out := DecryptLong(s, kl, Extended(r), table, block);
  }
}
