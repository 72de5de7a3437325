/** ROLDQ and ROLDQo32 of crypto/camellia.c: rotations of a 128-bit value held in four words. */
module CamelliaRotate {
  import opened CamelliaHalf

  /** kll || klr || krl || krr. */
  datatype Quad = Quad(ll: bv32, lr: bv32, rl: bv32, rr: bv32)

  function Cat(q: Quad): bv128 {
    ((q.ll as bv128) << 96) | ((q.lr as bv128) << 64) | ((q.rl as bv128) << 32) | (q.rr as bv128)
  }

  function Rol(x: bv128, n: bv8): bv128
    requires n <= 128
  {
    (x << n) | (x >> (128 - n))
  }

  function Left(x: bv128): Half<bv32> { Half((x >> 96) as bv32, ((x >> 64) & 0xFFFF_FFFF) as bv32) }

  function Right(x: bv128): Half<bv32> { Half(((x >> 32) & 0xFFFF_FFFF) as bv32, (x & 0xFFFF_FFFF) as bv32) }

  // ----- ROLDQ and ROLDQo32

  function Roldq15(q: Quad): Quad {
    Quad((q.ll << 15) + (q.lr >> 17), (q.lr << 15) + (q.rl >> 17), (q.rl << 15) + (q.rr >> 17),
         (q.rr << 15) + (q.ll >> 17))
  }

  function Roldq17(q: Quad): Quad {
    Quad((q.ll << 17) + (q.lr >> 15), (q.lr << 17) + (q.rl >> 15), (q.rl << 17) + (q.rr >> 15),
         (q.rr << 17) + (q.ll >> 15))
  }

  function Roldq30(q: Quad): Quad {
    Quad((q.ll << 30) + (q.lr >> 2), (q.lr << 30) + (q.rl >> 2), (q.rl << 30) + (q.rr >> 2), (q.rr << 30) + (q.ll >> 2))
  }

  function Roldq34(q: Quad): Quad {
    Quad((q.lr << 2) + (q.rl >> 30), (q.rl << 2) + (q.rr >> 30), (q.rr << 2) + (q.ll >> 30), (q.ll << 2) + (q.lr >> 30))
  }

  function Roldq45(q: Quad): Quad {
    Quad((q.lr << 13) + (q.rl >> 19), (q.rl << 13) + (q.rr >> 19), (q.rr << 13) + (q.ll >> 19),
         (q.ll << 13) + (q.lr >> 19))
  }

  function Roldq49(q: Quad): Quad {
    Quad((q.lr << 17) + (q.rl >> 15), (q.rl << 17) + (q.rr >> 15), (q.rr << 17) + (q.ll >> 15),
         (q.ll << 17) + (q.lr >> 15))
  }

  function Roldq51(q: Quad): Quad {
    Quad((q.lr << 19) + (q.rl >> 13), (q.rl << 19) + (q.rr >> 13), (q.rr << 19) + (q.ll >> 13),
         (q.ll << 19) + (q.lr >> 13))
  }

  /** The words one place on. */
  function Turn32(q: Quad): Quad { Quad(q.lr, q.rl, q.rr, q.ll) }

  lemma Rotates15(q: Quad) ensures Cat(Roldq15(q)) == Rol(Cat(q), 15) { }
  lemma Rotates17(q: Quad) ensures Cat(Roldq17(q)) == Rol(Cat(q), 17) { }
  lemma Rotates30(q: Quad) ensures Cat(Roldq30(q)) == Rol(Cat(q), 30) { }
  lemma Rotates34(q: Quad) ensures Cat(Roldq34(q)) == Rol(Cat(q), 34) { }
  lemma Rotates45(q: Quad) ensures Cat(Roldq45(q)) == Rol(Cat(q), 45) { }
  lemma Rotates49(q: Quad) ensures Cat(Roldq49(q)) == Rol(Cat(q), 49) { }
  lemma Rotates51(q: Quad) ensures Cat(Roldq51(q)) == Rol(Cat(q), 51) { }
  lemma Rotates32(q: Quad) ensures Cat(Turn32(q)) == Rol(Cat(q), 32) { }

  lemma SplitsInHalves(q: Quad)
    ensures Left(Cat(q)) == Half(q.ll, q.lr) && Right(Cat(q)) == Half(q.rl, q.rr)
  {
  }

  lemma Sum15And15(x: bv128) ensures Rol(Rol(x, 15), 15) == Rol(x, 30) { }
  lemma Sum15And30(x: bv128) ensures Rol(Rol(x, 15), 30) == Rol(x, 45) { }
  lemma Sum30And15(x: bv128) ensures Rol(Rol(x, 30), 15) == Rol(x, 45) { }
  lemma Sum45And15(x: bv128) ensures Rol(Rol(x, 45), 15) == Rol(x, 60) { }
  lemma Sum60And17(x: bv128) ensures Rol(Rol(x, 60), 17) == Rol(x, 77) { }
  lemma Sum77And17(x: bv128) ensures Rol(Rol(x, 77), 17) == Rol(x, 94) { }
  lemma Sum60And34(x: bv128) ensures Rol(Rol(x, 60), 34) == Rol(x, 94) { }
  lemma Sum94And17(x: bv128) ensures Rol(Rol(x, 94), 17) == Rol(x, 111) { }
  lemma Sum77And34(x: bv128) ensures Rol(Rol(x, 77), 34) == Rol(x, 111) { }
  lemma Sum30And30(x: bv128) ensures Rol(Rol(x, 30), 30) == Rol(x, 60) { }
  lemma Sum94And34(x: bv128) ensures Rol(Rol(x, 94), 34) == x { }
  lemma Sum45And32(x: bv128) ensures Rol(Rol(x, 45), 32) == Rol(x, 77) { }
  lemma Sum45And49(x: bv128) ensures Rol(Rol(x, 45), 49) == Rol(x, 94) { }
  lemma Sum60And51(x: bv128) ensures Rol(Rol(x, 60), 51) == Rol(x, 111) { }
}
