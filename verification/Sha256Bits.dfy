/** What the bitwise functions of SHA-256 compute, bit by bit. */
module Sha256Bits {
  import opened Bytes
  import opened Sha256

  /** Bit `k` of a word, counted from the least significant. */
  predicate Bit(w: Word, k: bv32)
    requires k < 32
  {
    BvBit(Bits(w), k)
  }

  predicate BvBit(b: bv32, k: bv32)
    requires k < 32
  {
    (b >> k) & 1 == 1
  }

  /** The position `n` places higher, counted round the word. */
  function Round32(k: bv32, n: bv32): (i: bv32)
    requires k < 32 && n < 32
    ensures i < 32
  {
    (k + n) & 31
  }

  // ---- a bit is a binary digit of the number ----

  lemma Digits0(w: Word)
    ensures Bit(w, 0) <==> w / 0x1 % 2 == 1
    ensures Bit(w, 1) <==> w / 0x2 % 2 == 1
    ensures Bit(w, 2) <==> w / 0x4 % 2 == 1
    ensures Bit(w, 3) <==> w / 0x8 % 2 == 1
    ensures Bit(w, 4) <==> w / 0x10 % 2 == 1
    ensures Bit(w, 5) <==> w / 0x20 % 2 == 1
    ensures Bit(w, 6) <==> w / 0x40 % 2 == 1
    ensures Bit(w, 7) <==> w / 0x80 % 2 == 1
  {}

  lemma Digits1(w: Word)
    ensures Bit(w, 8) <==> w / 0x100 % 2 == 1
    ensures Bit(w, 9) <==> w / 0x200 % 2 == 1
    ensures Bit(w, 10) <==> w / 0x400 % 2 == 1
    ensures Bit(w, 11) <==> w / 0x800 % 2 == 1
    ensures Bit(w, 12) <==> w / 0x1000 % 2 == 1
    ensures Bit(w, 13) <==> w / 0x2000 % 2 == 1
    ensures Bit(w, 14) <==> w / 0x4000 % 2 == 1
    ensures Bit(w, 15) <==> w / 0x8000 % 2 == 1
  {}

  lemma Digits2(w: Word)
    ensures Bit(w, 16) <==> w / 0x10000 % 2 == 1
    ensures Bit(w, 17) <==> w / 0x20000 % 2 == 1
    ensures Bit(w, 18) <==> w / 0x40000 % 2 == 1
    ensures Bit(w, 19) <==> w / 0x80000 % 2 == 1
    ensures Bit(w, 20) <==> w / 0x100000 % 2 == 1
    ensures Bit(w, 21) <==> w / 0x200000 % 2 == 1
    ensures Bit(w, 22) <==> w / 0x400000 % 2 == 1
    ensures Bit(w, 23) <==> w / 0x800000 % 2 == 1
  {}

  lemma Digits3(w: Word)
    ensures Bit(w, 24) <==> w / 0x1000000 % 2 == 1
    ensures Bit(w, 25) <==> w / 0x2000000 % 2 == 1
    ensures Bit(w, 26) <==> w / 0x4000000 % 2 == 1
    ensures Bit(w, 27) <==> w / 0x8000000 % 2 == 1
    ensures Bit(w, 28) <==> w / 0x10000000 % 2 == 1
    ensures Bit(w, 29) <==> w / 0x20000000 % 2 == 1
    ensures Bit(w, 30) <==> w / 0x40000000 % 2 == 1
    ensures Bit(w, 31) <==> w / 0x80000000 % 2 == 1
  {}

  lemma BitsOfOfBits(b: bv32)
    ensures Bits(OfBits(b)) == b
  {}

  // ---- Ch and Maj ----

  lemma ChooseBv(p: bv32, q: bv32, r: bv32, k: bv32)
    requires k < 32
    ensures BvBit((p & q) ^ (!p & r), k) == if BvBit(p, k) then BvBit(q, k) else BvBit(r, k)
  {}

  lemma Choose(p: bv32, q: bv32, r: bv32, k: bv32)
    requires k < 32
    ensures BvBit(ChBv(p, q, r), k) == if BvBit(p, k) then BvBit(q, k) else BvBit(r, k)
  {
    ChooseBv(p, q, r, k);
    hide BvBit;
  }

  /** Ch chooses: y's bit where x's is set, z's where it is not. */
  lemma ChBits(x: Word, y: Word, z: Word, k: bv32)
    requires k < 32
    ensures Bit(Ch(x, y, z), k) == if Bit(x, k) then Bit(y, k) else Bit(z, k)
  {
    hide BvBit, Bits, OfBits, ChBv;
    BitsOfOfBits(ChBv(Bits(x), Bits(y), Bits(z)));
    Choose(Bits(x), Bits(y), Bits(z), k);
  }

  predicate AtLeastTwo(a: bool, b: bool, c: bool) {
    (a && b) || (a && c) || (b && c)
  }

  lemma MajorityBv(p: bv32, q: bv32, r: bv32, k: bv32)
    requires k < 32
    ensures BvBit((p & q) ^ (p & r) ^ (q & r), k) == AtLeastTwo(BvBit(p, k), BvBit(q, k), BvBit(r, k))
  {}

  lemma Majority(p: bv32, q: bv32, r: bv32, k: bv32)
    requires k < 32
    ensures BvBit(MajBv(p, q, r), k) == AtLeastTwo(BvBit(p, k), BvBit(q, k), BvBit(r, k))
  {
    MajorityBv(p, q, r, k);
    hide BvBit, AtLeastTwo;
  }

  /** Maj is the majority of the three bits. */
  lemma MajBits(x: Word, y: Word, z: Word, k: bv32)
    requires k < 32
    ensures Bit(Maj(x, y, z), k) == AtLeastTwo(Bit(x, k), Bit(y, k), Bit(z, k))
  {
    hide BvBit, Bits, OfBits, MajBv, AtLeastTwo;
    BitsOfOfBits(MajBv(Bits(x), Bits(y), Bits(z)));
    Majority(Bits(x), Bits(y), Bits(z), k);
  }

  // ---- rotations and shifts ----

  lemma TurnBv(p: bv32, n: bv32, k: bv32)
    requires 0 < n < 32 && k < 32
    ensures BvBit((p >> n) | (p << (32 - n)), k) == BvBit(p, (k + n) & 31)
  {}

  lemma Turn(p: bv32, n: bv32, k: bv32)
    requires 0 < n < 32 && k < 32
    ensures BvBit(RotR(p, n), k) == BvBit(p, Round32(k, n))
  {
    TurnBv(p, n, k);
    hide BvBit;
  }

  /** Turning right by `n` moves every bit `n` places down and those that leave at the bottom to the top. */
  lemma RotRBits(x: Word, n: bv32, k: bv32)
    requires 0 < n < 32 && k < 32
    ensures Bit(OfBits(RotR(Bits(x), n)), k) == Bit(x, Round32(k, n))
  {
    hide BvBit, Bits, OfBits, RotR, Round32;
    BitsOfOfBits(RotR(Bits(x), n));
    Turn(Bits(x), n, k);
  }

  lemma ShiftBv(p: bv32, n: bv32, k: bv32)
    requires n < 32 && k < 32
    ensures BvBit(p >> n, k) == (k < 32 - n && BvBit(p, (k + n) & 31))
  {}

  lemma Shift(p: bv32, n: bv32, k: bv32)
    requires n < 32 && k < 32
    ensures BvBit(ShR(p, n), k) == (k < 32 - n && BvBit(p, Round32(k, n)))
  {
    ShiftBv(p, n, k);
    hide BvBit;
  }

  // ---- the sigmas ----

  /** The parity of three bits. */
  predicate Odd(a: bool, b: bool, c: bool) {
    a != (b != c)
  }

  lemma OddBv(p: bv32, q: bv32, r: bv32, k: bv32)
    requires k < 32
    ensures BvBit(p ^ q ^ r, k) == Odd(BvBit(p, k), BvBit(q, k), BvBit(r, k))
  {}

  lemma OddXor3(p: bv32, q: bv32, r: bv32, k: bv32)
    requires k < 32
    ensures BvBit(Xor3(p, q, r), k) == Odd(BvBit(p, k), BvBit(q, k), BvBit(r, k))
  {
    OddBv(p, q, r, k);
    hide BvBit, Odd;
  }

  /** The parity of the word turned by 2, 13 and 22. */
  lemma BigSigma0Bits(x: Word, k: bv32)
    requires k < 32
    ensures Bit(BigSigma0(x), k) == Odd(Bit(x, Round32(k, 2)), Bit(x, Round32(k, 13)), Bit(x, Round32(k, 22)))
  {
    hide BvBit, Bits, OfBits, RotR, ShR, Xor3, Odd, Round32;
    var p := Bits(x);
    BitsOfOfBits(BigSigma0Bv(p));
    OddXor3(RotR(p, 2), RotR(p, 13), RotR(p, 22), k);
    Turn(p, 2, k);
    Turn(p, 13, k);
    Turn(p, 22, k);
  }

  /** The parity of the word turned by 6, 11 and 25. */
  lemma BigSigma1Bits(x: Word, k: bv32)
    requires k < 32
    ensures Bit(BigSigma1(x), k) == Odd(Bit(x, Round32(k, 6)), Bit(x, Round32(k, 11)), Bit(x, Round32(k, 25)))
  {
    hide BvBit, Bits, OfBits, RotR, ShR, Xor3, Odd, Round32;
    var p := Bits(x);
    BitsOfOfBits(BigSigma1Bv(p));
    OddXor3(RotR(p, 6), RotR(p, 11), RotR(p, 25), k);
    Turn(p, 6, k);
    Turn(p, 11, k);
    Turn(p, 25, k);
  }

  /** The parity of the word turned by 7 and 18 and shifted by 3; what is shifted off is lost. */
  lemma SmallSigma0Bits(x: Word, k: bv32)
    requires k < 32
    ensures Bit(SmallSigma0(x), k) == Odd(Bit(x, Round32(k, 7)), Bit(x, Round32(k, 18)), k < 29 && Bit(x, Round32(k, 3)))
  {
    hide BvBit, Bits, OfBits, RotR, ShR, Xor3, Odd, Round32;
    var p := Bits(x);
    BitsOfOfBits(SmallSigma0Bv(p));
    OddXor3(RotR(p, 7), RotR(p, 18), ShR(p, 3), k);
    Turn(p, 7, k);
    Turn(p, 18, k);
    Shift(p, 3, k);
  }

  /** The parity of the word turned by 17 and 19 and shifted by 10. */
  lemma SmallSigma1Bits(x: Word, k: bv32)
    requires k < 32
    ensures Bit(SmallSigma1(x), k) == Odd(Bit(x, Round32(k, 17)), Bit(x, Round32(k, 19)), k < 22 && Bit(x, Round32(k, 10)))
  {
    hide BvBit, Bits, OfBits, RotR, ShR, Xor3, Odd, Round32;
    var p := Bits(x);
    BitsOfOfBits(SmallSigma1Bv(p));
    OddXor3(RotR(p, 17), RotR(p, 19), ShR(p, 10), k);
    Turn(p, 17, k);
    Turn(p, 19, k);
    Shift(p, 10, k);
  }
}
