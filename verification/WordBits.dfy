/** The bit operations of the hash on 32-bit words, and what they are bit by bit. */
module WordBits {

  /** Section 3.2 of FIPS 180-4, shift and rotation to the right. */
  function ShR(x: bv32, n: bv32): bv32
    requires n < 32
  {
    x >> n
  }

  function RotR(x: bv32, n: bv32): bv32
    requires 0 < n < 32
  {
    (x >> n) | (x << (32 - n))
  }

  /** Section 4.1.2. */
  function Choose(p: bv32, q: bv32, r: bv32): bv32 {
    (p & q) ^ (!p & r)
  }

  function Majority(p: bv32, q: bv32, r: bv32): bv32 {
    (p & q) ^ (p & r) ^ (q & r)
  }

  function Xor(p: bv32, q: bv32): bv32 {
    p ^ q
  }

  function BigMix0(p: bv32): bv32 {
    Xor(Xor(RotR(p, 2), RotR(p, 13)), RotR(p, 22))
  }

  function BigMix1(p: bv32): bv32 {
    Xor(Xor(RotR(p, 6), RotR(p, 11)), RotR(p, 25))
  }

  function SmallMix0(p: bv32): bv32 {
    Xor(Xor(RotR(p, 7), RotR(p, 18)), ShR(p, 3))
  }

  function SmallMix1(p: bv32): bv32 {
    Xor(Xor(RotR(p, 17), RotR(p, 19)), ShR(p, 10))
  }

  // ---------------------------------------------------------------- bit by bit

  /** The first word chooses between the other two; two that agree decide. */
  lemma ChosenBits(p: bv32, q: bv32, r: bv32)
    ensures Choose(p, q, r) == (p & q) | (!p & r)
    ensures Majority(p, q, r) == (p & q) | (p & r) | (q & r)
  {
  }

  /** The bit of a word at a place, places counted around. */
  predicate Bit(x: bv32, i: bv32) {
    ShR(x, i & 31) & 1 == 1
  }

  lemma ShiftedOnceMore(p: bv32, n: bv32)
    requires n < 31
    ensures ShR(p, n + 1) == ShR(ShR(p, n), 1)
  {
  }

  lemma XorShiftedOnce(p: bv32, q: bv32)
    ensures ShR(Xor(p, q), 1) == Xor(ShR(p, 1), ShR(q, 1))
  {
  }

  lemma NotShifted(p: bv32)
    ensures ShR(p, 0) == p
  {
  }

  lemma {:induction false} XorShifted(p: bv32, q: bv32, n: bv32)
    requires n < 32
    ensures ShR(Xor(p, q), n) == Xor(ShR(p, n), ShR(q, n))
    decreases n
  {
    hide ShR, Xor;
    if n == 0 {
      NotShifted(p);
      NotShifted(q);
      NotShifted(Xor(p, q));
    } else {
      var m := n - 1;
      XorShifted(p, q, m);
      ShiftedOnceMore(p, m);
      ShiftedOnceMore(q, m);
      ShiftedOnceMore(Xor(p, q), m);
      XorShiftedOnce(ShR(p, m), ShR(q, m));
    }
  }

  lemma XorLowest(p: bv32, q: bv32)
    ensures (Xor(p, q) & 1 == 1) == ((p & 1 == 1) != (q & 1 == 1))
  {
  }

  lemma XorBit(p: bv32, q: bv32, i: bv32)
    ensures Bit(Xor(p, q), i) == (Bit(p, i) != Bit(q, i))
  {
    hide Xor, ShR;
    XorShifted(p, q, i & 31);
    XorLowest(ShR(p, i & 31), ShR(q, i & 31));
  }

  lemma Rotated2(p: bv32, i: bv32)
    ensures Bit(RotR(p, 2), i) == Bit(p, i + 2)
  {
  }

  lemma Rotated13(p: bv32, i: bv32)
    ensures Bit(RotR(p, 13), i) == Bit(p, i + 13)
  {
  }

  lemma Rotated22(p: bv32, i: bv32)
    ensures Bit(RotR(p, 22), i) == Bit(p, i + 22)
  {
  }

  lemma Rotated6(p: bv32, i: bv32)
    ensures Bit(RotR(p, 6), i) == Bit(p, i + 6)
  {
  }

  lemma Rotated11(p: bv32, i: bv32)
    ensures Bit(RotR(p, 11), i) == Bit(p, i + 11)
  {
  }

  lemma Rotated25(p: bv32, i: bv32)
    ensures Bit(RotR(p, 25), i) == Bit(p, i + 25)
  {
  }

  lemma Rotated7(p: bv32, i: bv32)
    ensures Bit(RotR(p, 7), i) == Bit(p, i + 7)
  {
  }

  lemma Rotated18(p: bv32, i: bv32)
    ensures Bit(RotR(p, 18), i) == Bit(p, i + 18)
  {
  }

  lemma Rotated17(p: bv32, i: bv32)
    ensures Bit(RotR(p, 17), i) == Bit(p, i + 17)
  {
  }

  lemma Rotated19(p: bv32, i: bv32)
    ensures Bit(RotR(p, 19), i) == Bit(p, i + 19)
  {
  }

  lemma Shifted3(p: bv32, i: bv32)
    ensures Bit(ShR(p, 3), i) == (i & 31 < 29 && Bit(p, i + 3))
  {
  }

  lemma Shifted10(p: bv32, i: bv32)
    ensures Bit(ShR(p, 10), i) == (i & 31 < 22 && Bit(p, i + 10))
  {
  }

  /** Each bit is the parity of the three that the rotations bring to its place. */
  lemma BigMixedBit0(p: bv32, i: bv32)
    ensures Bit(BigMix0(p), i) == ((Bit(p, i + 2) != Bit(p, i + 13)) != Bit(p, i + 22))
  {
    hide Bit, RotR, ShR, Xor;
    Rotated2(p, i);
    Rotated13(p, i);
    Rotated22(p, i);
    XorBit(RotR(p, 2), RotR(p, 13), i);
    XorBit(Xor(RotR(p, 2), RotR(p, 13)), RotR(p, 22), i);
  }

  lemma BigMixedBit1(p: bv32, i: bv32)
    ensures Bit(BigMix1(p), i) == ((Bit(p, i + 6) != Bit(p, i + 11)) != Bit(p, i + 25))
  {
    hide Bit, RotR, ShR, Xor;
    Rotated6(p, i);
    Rotated11(p, i);
    Rotated25(p, i);
    XorBit(RotR(p, 6), RotR(p, 11), i);
    XorBit(Xor(RotR(p, 6), RotR(p, 11)), RotR(p, 25), i);
  }

  /** A shift brings none to the high places. */
  lemma SmallMixedBit0(p: bv32, i: bv32)
    ensures Bit(SmallMix0(p), i) == ((Bit(p, i + 7) != Bit(p, i + 18)) != (i & 31 < 29 && Bit(p, i + 3)))
  {
    hide Bit, RotR, ShR, Xor;
    Rotated7(p, i);
    Rotated18(p, i);
    Shifted3(p, i);
    XorBit(RotR(p, 7), RotR(p, 18), i);
    XorBit(Xor(RotR(p, 7), RotR(p, 18)), ShR(p, 3), i);
  }

  lemma SmallMixedBit1(p: bv32, i: bv32)
    ensures Bit(SmallMix1(p), i) == ((Bit(p, i + 17) != Bit(p, i + 19)) != (i & 31 < 22 && Bit(p, i + 10)))
  {
    hide Bit, RotR, ShR, Xor;
    Rotated17(p, i);
    Rotated19(p, i);
    Shifted10(p, i);
    XorBit(RotR(p, 17), RotR(p, 19), i);
    XorBit(Xor(RotR(p, 17), RotR(p, 19)), ShR(p, 10), i);
  }
}
