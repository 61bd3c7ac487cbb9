/** SHA-256: the in-place computation against the recursive definition of FIPS 180-4. */
module Sha256 {
  import opened Bytes

  /** 32-bit words as numbers; the bitwise functions go through bit vectors, additions wrap. */
  type Word = u32

  function Add(x: Word, y: Word): Word { (x as int + y as int) % TWO_TO_32 }

  function Sub(x: Word, y: Word): Word { (x as int - y as int) % TWO_TO_32 }

  function Bits(x: Word): bv32 { x as bv32 }

  function OfBits(b: bv32): Word { b as Word }

  // ---- functions of section 4.1.2 ----

  function RotR(x: bv32, n: bv32): bv32
    requires 0 < n < 32
  {
    (x >> n) | (x << (32 - n))
  }

  function ChBv(p: bv32, q: bv32, r: bv32): bv32 { (p & q) ^ (!p & r) }

  function MajBv(p: bv32, q: bv32, r: bv32): bv32 { (p & q) ^ (p & r) ^ (q & r) }

  function ShR(x: bv32, n: bv32): bv32
    requires n < 32
  {
    x >> n
  }

  function Xor3(p: bv32, q: bv32, r: bv32): bv32 { p ^ q ^ r }

  function BigSigma0Bv(p: bv32): bv32 { Xor3(RotR(p, 2), RotR(p, 13), RotR(p, 22)) }

  function BigSigma1Bv(p: bv32): bv32 { Xor3(RotR(p, 6), RotR(p, 11), RotR(p, 25)) }

  function SmallSigma0Bv(p: bv32): bv32 { Xor3(RotR(p, 7), RotR(p, 18), ShR(p, 3)) }

  function SmallSigma1Bv(p: bv32): bv32 { Xor3(RotR(p, 17), RotR(p, 19), ShR(p, 10)) }

  function Ch(x: Word, y: Word, z: Word): Word { OfBits(ChBv(Bits(x), Bits(y), Bits(z))) }

  function Maj(x: Word, y: Word, z: Word): Word { OfBits(MajBv(Bits(x), Bits(y), Bits(z))) }

  function BigSigma0(x: Word): Word { OfBits(BigSigma0Bv(Bits(x))) }

  function BigSigma1(x: Word): Word { OfBits(BigSigma1Bv(Bits(x))) }

  function SmallSigma0(x: Word): Word { OfBits(SmallSigma0Bv(Bits(x))) }

  function SmallSigma1(x: Word): Word { OfBits(SmallSigma1Bv(Bits(x))) }

  /** The 64 round constants, in eight rows. */
  const K0: seq<Word> := [0x428a2f98, 0x71374491, 0xb5c0fbcf, 0xe9b5dba5, 0x3956c25b, 0x59f111f1, 0x923f82a4, 0xab1c5ed5]
  const K1: seq<Word> := [0xd807aa98, 0x12835b01, 0x243185be, 0x550c7dc3, 0x72be5d74, 0x80deb1fe, 0x9bdc06a7, 0xc19bf174]
  const K2: seq<Word> := [0xe49b69c1, 0xefbe4786, 0x0fc19dc6, 0x240ca1cc, 0x2de92c6f, 0x4a7484aa, 0x5cb0a9dc, 0x76f988da]
  const K3: seq<Word> := [0x983e5152, 0xa831c66d, 0xb00327c8, 0xbf597fc7, 0xc6e00bf3, 0xd5a79147, 0x06ca6351, 0x14292967]
  const K4: seq<Word> := [0x27b70a85, 0x2e1b2138, 0x4d2c6dfc, 0x53380d13, 0x650a7354, 0x766a0abb, 0x81c2c92e, 0x92722c85]
  const K5: seq<Word> := [0xa2bfe8a1, 0xa81a664b, 0xc24b8b70, 0xc76c51a3, 0xd192e819, 0xd6990624, 0xf40e3585, 0x106aa070]
  const K6: seq<Word> := [0x19a4c116, 0x1e376c08, 0x2748774c, 0x34b0bcb5, 0x391c0cb3, 0x4ed8aa4a, 0x5b9cca4f, 0x682e6ff3]
  const K7: seq<Word> := [0x748f82ee, 0x78a5636f, 0x84c87814, 0x8cc70208, 0x90befffa, 0xa4506ceb, 0xbef9a3f7, 0xc67178f2]
  const K: seq<Word> := K0 + K1 + K2 + K3 + K4 + K5 + K6 + K7

  function RoundConstant(t: nat): Word
    requires t < 64
  {
    K[t]
  }

  /** The eight working words, also the eight words of a hash value. */
  datatype Words = Words(a: Word, b: Word, c: Word, d: Word, e: Word, f: Word, g: Word, h: Word)

  /** Initial hash value, section 5.3.3. */
  const INITIAL := Words(0x6a09e667, 0xbb67ae85, 0x3c6ef372, 0xa54ff53a, 0x510e527f, 0x9b05688c, 0x1f83d9ab, 0x5be0cd19)

  /** The first 64 primes, in eight rows. */
  const P0: seq<nat> := [2, 3, 5, 7, 11, 13, 17, 19]
  const P1: seq<nat> := [23, 29, 31, 37, 41, 43, 47, 53]
  const P2: seq<nat> := [59, 61, 67, 71, 73, 79, 83, 89]
  const P3: seq<nat> := [97, 101, 103, 107, 109, 113, 127, 131]
  const P4: seq<nat> := [137, 139, 149, 151, 157, 163, 167, 173]
  const P5: seq<nat> := [179, 181, 191, 193, 197, 199, 211, 223]
  const P6: seq<nat> := [227, 229, 233, 239, 241, 251, 257, 263]
  const P7: seq<nat> := [269, 271, 277, 281, 283, 293, 307, 311]
  const PRIMES: seq<nat> := P0 + P1 + P2 + P3 + P4 + P5 + P6 + P7

  /** `root` is the first 32 bits after the point of the cube root of `p` below 343. */
  predicate IsCubeRootFraction(p: nat, root: Word) {
    var whole := if p < 8 then 1 else if p < 27 then 2 else if p < 64 then 3 else if p < 125 then 4 else if p < 216 then 5 else 6;
    var m := whole * TWO_TO_32 + root;
    m * m * m <= p * TWO_TO_32 * TWO_TO_64 < (m + 1) * (m + 1) * (m + 1)
  }

  /** `root` is the first 32 bits after the point of the square root of `p` below 25. */
  predicate IsSquareRootFraction(p: nat, root: Word) {
    var whole := if p < 4 then 1 else if p < 9 then 2 else if p < 16 then 3 else 4;
    var m := whole * TWO_TO_32 + root;
    m * m <= p * TWO_TO_64 < (m + 1) * (m + 1)
  }

  ghost predicate AreCubeRootFractions(ps: seq<nat>, ks: seq<Word>) {
    |ps| == |ks| && forall t | 0 <= t < |ks| :: IsCubeRootFraction(ps[t], ks[t])
  }

  lemma CubeRoots0()
    ensures AreCubeRootFractions(P0, K0)
  {
    assert IsCubeRootFraction(2, 0x428a2f98) && IsCubeRootFraction(3, 0x71374491);
    assert IsCubeRootFraction(5, 0xb5c0fbcf) && IsCubeRootFraction(7, 0xe9b5dba5);
    assert IsCubeRootFraction(11, 0x3956c25b) && IsCubeRootFraction(13, 0x59f111f1);
    assert IsCubeRootFraction(17, 0x923f82a4) && IsCubeRootFraction(19, 0xab1c5ed5);
    hide IsCubeRootFraction;
  }

  lemma CubeRoots1()
    ensures AreCubeRootFractions(P1, K1)
  {}

  lemma CubeRoots2()
    ensures AreCubeRootFractions(P2, K2)
  {}

  lemma CubeRoots3()
    ensures AreCubeRootFractions(P3, K3)
  {}

  lemma CubeRoots4()
    ensures AreCubeRootFractions(P4, K4)
  {}

  lemma CubeRoots5()
    ensures AreCubeRootFractions(P5, K5)
  {}

  lemma CubeRoots6()
    ensures AreCubeRootFractions(P6, K6)
  {}

  lemma CubeRoots7()
    ensures AreCubeRootFractions(P7, K7)
  {}

  /** The constants are what section 4.2.2 calls for: fractions of the cube roots of the first 64 primes. */
  lemma ConstantsAreCubeRoots()
    ensures AreCubeRootFractions(PRIMES, K) && |K| == 64
  {
    CubeRoots0(); CubeRoots1(); CubeRoots2(); CubeRoots3(); CubeRoots4(); CubeRoots5(); CubeRoots6(); CubeRoots7();
    hide IsCubeRootFraction;
  }

  /** The initial hash value is what section 5.3.3 calls for: fractions of the square roots of the first 8 primes. */
  lemma InitialIsSquareRoots()
    ensures IsSquareRootFraction(2, INITIAL.a) && IsSquareRootFraction(3, INITIAL.b)
    ensures IsSquareRootFraction(5, INITIAL.c) && IsSquareRootFraction(7, INITIAL.d)
    ensures IsSquareRootFraction(11, INITIAL.e) && IsSquareRootFraction(13, INITIAL.f)
    ensures IsSquareRootFraction(17, INITIAL.g) && IsSquareRootFraction(19, INITIAL.h)
  {}

  // ---- padding, section 5.1.1 ----

  /** v >> 8 * i */
  function ShiftBytes(v: nat, i: nat): nat {
    if i == 0 then v else ShiftBytes(v, i - 1) / 256
  }

  /** The low `n` bytes of a number, most significant first. */
  function BigEndian(v: nat, n: nat): (r: seq<byte>)
    ensures |r| == n
  {
    seq(n, k requires 0 <= k < n => ShiftBytes(v, n - 1 - k) % 256)
  }

  lemma {:induction false} BigEndianIsInjective(v: nat, w: nat, n: nat, i: nat)
    requires BigEndian(v, n) == BigEndian(w, n) && ShiftBytes(v, n) == ShiftBytes(w, n) && i <= n
    ensures ShiftBytes(v, i) == ShiftBytes(w, i)
    decreases n - i
  {
    if i == n {
    } else {
      BigEndianIsInjective(v, w, n, i + 1);
      assert BigEndian(v, n)[n - 1 - i] == BigEndian(w, n)[n - 1 - i];
    }
  }

  lemma EightBytesHoldU64(v: u64)
    ensures ShiftBytes(v, 8) == 0
  {
    assert ShiftBytes(v, 1) < 0x100_0000_0000_0000;
    assert ShiftBytes(v, 2) < 0x1_0000_0000_0000;
    assert ShiftBytes(v, 3) < 0x100_0000_0000;
    assert ShiftBytes(v, 4) < TWO_TO_32;
    assert ShiftBytes(v, 6) < TWO_TO_16;
  }

  function Zeros(n: nat): (r: seq<byte>)
    ensures |r| == n && forall i | 0 <= i < n :: r[i] == 0
  {
    seq(n, _ => 0)
  }

  /** The least k with size + 1 + k = 56 modulo 64. */
  function ZeroCount(size: nat): (k: nat)
    ensures k < 64 && (size + 1 + k) % 64 == 56
  {
    (119 - size % 64) % 64
  }

  /** Message, marker bit, zeros, and the bit length, which the code keeps modulo 2^64. */
  function Pad(message: seq<byte>): (r: seq<byte>)
    ensures |r| % 64 == 0
  {
    var k := ZeroCount(|message|);
    MultipleOf64(|message| + 1 + k);
    message + [0x80] + Zeros(k) + BigEndian(|message| * 8 % TWO_TO_64, 8)
  }

  lemma MultipleOf64(n: nat)
    requires n % 64 == 56
    ensures (n + 8) % 64 == 0
  {}

  /** The padded length is the least multiple of 64 with room for the message, one marker byte and 8 length bytes. */
  lemma PadLength(message: seq<byte>)
    ensures |Pad(message)| % 64 == 0
    ensures |message| + 9 <= |Pad(message)| < |message| + 9 + 64
    ensures forall n | n % 64 == 0 && n >= |message| + 9 :: |Pad(message)| <= n
  {
    forall n | n % 64 == 0 && n >= |message| + 9
      ensures |Pad(message)| <= n
    {
      LeastMultiple(|Pad(message)|, n);
    }
  }

  lemma LeastMultiple(p: nat, n: nat)
    requires p % 64 == 0 && n % 64 == 0 && p < n + 64
    ensures p <= n
  {}

  lemma LengthFieldIsInjective(v: nat, w: nat)
    requires v < TWO_TO_64 && w < TWO_TO_64 && BigEndian(v % TWO_TO_64, 8) == BigEndian(w % TWO_TO_64, 8)
    ensures v == w
  {
    hide BigEndian;
    assert v % TWO_TO_64 == v && w % TWO_TO_64 == w;
    EightBytesHoldU64(v);
    EightBytesHoldU64(w);
    BigEndianIsInjective(v, w, 8, 0);
    assert ShiftBytes(v, 0) == v && ShiftBytes(w, 0) == w;
  }

  lemma PadParts(m: seq<byte>)
    ensures var p := Pad(m);
            |p| >= |m| + 9 && p[..|m|] == m && p[|p| - 8..] == BigEndian(|m| * 8 % TWO_TO_64, 8)
  {
    hide BigEndian;
  }

  /** Two different messages, each short enough for its bit length to fit 64 bits, are padded differently. */
  lemma PaddingIsInjective(m: seq<byte>, n: seq<byte>)
    requires |m| < 0x2000_0000_0000_0000 && |n| < 0x2000_0000_0000_0000
    requires Pad(m) == Pad(n)
    ensures m == n
  {
    hide Pad, BigEndian;
    PadParts(m);
    PadParts(n);
    var p := Pad(m);
    LengthFieldIsInjective(|m| * 8, |n| * 8);
    assert p[..|m|] == p[..|n|];
  }

  // ---- hash computation, section 6.2.2 ----

  /** Big-endian word at byte `j`. */
  function WordAt(bytes: seq<byte>, j: nat): Word
    requires j + 4 <= |bytes|
  {
    OfBits((Bits(bytes[j]) << 24) | (Bits(bytes[j + 1]) << 16) | (Bits(bytes[j + 2]) << 8) | Bits(bytes[j + 3]))
  }

  function NextWord(w2: Word, w7: Word, w15: Word, w16: Word): Word {
    Add(Add(Add(SmallSigma1(w2), w7), SmallSigma0(w15)), w16)
  }

  /** Word `t` of the message schedule of one 64-byte block. */
  function Schedule(block: seq<byte>, t: nat): Word
    requires |block| == 64 && t < 64
  {
    if t < 16 then WordAt(block, 4 * t)
    else NextWord(Schedule(block, t - 2), Schedule(block, t - 7), Schedule(block, t - 15), Schedule(block, t - 16))
  }

  /** T1 and T2 of a round; `kw` is the round's constant plus its schedule word. */
  function T1(e: Word, f: Word, g: Word, h: Word, kw: Word): Word {
    Add(Add(Add(h, BigSigma1(e)), Ch(e, f, g)), kw)
  }

  function T2(a: Word, b: Word, c: Word): Word {
    Add(BigSigma0(a), Maj(a, b, c))
  }

  function Round(s: Words, kw: Word): Words {
    var t1, t2 := T1(s.e, s.f, s.g, s.h, kw), T2(s.a, s.b, s.c);
    Words(Add(t1, t2), s.a, s.b, s.c, Add(s.d, t1), s.e, s.f, s.g)
  }

  /** The first `t` rounds, for any schedule `w`. */
  function Rounds(s: Words, w: seq<Word>, t: nat): Words
    requires t <= 64 && |w| == 64
  {
    if t == 0 then s else Round(Rounds(s, w, t - 1), Add(RoundConstant(t - 1), w[t - 1]))
  }

  function ScheduleWords(block: seq<byte>): (w: seq<Word>)
    requires |block| == 64
    ensures |w| == 64
  {
    seq(64, t requires 0 <= t < 64 => Schedule(block, t))
  }

  function AddWords(x: Words, y: Words): Words {
    Words(Add(x.a, y.a), Add(x.b, y.b), Add(x.c, y.c), Add(x.d, y.d),
          Add(x.e, y.e), Add(x.f, y.f), Add(x.g, y.g), Add(x.h, y.h))
  }

  function Compress(hash: Words, block: seq<byte>): Words
    requires |block| == 64
  {
    AddWords(hash, Rounds(hash, ScheduleWords(block), 64))
  }

  /** The hash value after the first `n` blocks. */
  function HashBlocks(padded: seq<byte>, n: nat): Words
    requires 64 * n <= |padded|
  {
    if n == 0 then INITIAL else Compress(HashBlocks(padded, n - 1), padded[64 * (n - 1)..64 * n])
  }

  /** The compression chained through `n` blocks, first to last, from any hash value. */
  function Chained(hash: Words, blocks: seq<byte>, n: nat): Words
    requires 64 * n <= |blocks|
    decreases n
  {
    if n == 0 then hash else Chained(Compress(hash, blocks[..64]), blocks[64..], n - 1)
  }

  lemma {:induction false} ChainedSnoc(hash: Words, blocks: seq<byte>, n: nat)
    requires 64 * n + 64 <= |blocks|
    ensures Chained(hash, blocks, n + 1) == Compress(Chained(hash, blocks, n), blocks[64 * n..64 * n + 64])
    decreases n
  {
    hide Compress;
    if n == 0 {
      assert Chained(Compress(hash, blocks[..64]), blocks[64..], 0) == Compress(hash, blocks[..64]);
    } else {
      var rest := blocks[64..];
      ChainedSnoc(Compress(hash, blocks[..64]), rest, n - 1);
      assert rest[64 * (n - 1)..64 * (n - 1) + 64] == blocks[64 * n..64 * n + 64];
    }
  }

  /** Each block's hash value is the next one's start, and the fixed value starts the first. */
  lemma {:induction false} BlocksAreChained(padded: seq<byte>, n: nat)
    requires 64 * n <= |padded|
    ensures HashBlocks(padded, n) == Chained(INITIAL, padded, n)
    decreases n
  {
    hide Compress;
    if n > 0 {
      BlocksAreChained(padded, n - 1);
      ChainedSnoc(INITIAL, padded, n - 1);
    }
  }

  /** The four bytes of a word, most significant first. */
  function WordBytes(w: Word): (r: seq<byte>)
    ensures |r| == 4
  {
    [w / 0x100_0000, w / 0x1_0000 % 256, w / 256 % 256, w % 256]
  }

  function DigestBytes(x: Words): (r: seq<byte>)
    ensures |r| == 32
  {
    WordBytes(x.a) + WordBytes(x.b) + WordBytes(x.c) + WordBytes(x.d) +
    WordBytes(x.e) + WordBytes(x.f) + WordBytes(x.g) + WordBytes(x.h)
  }

  /** SHA-256 of a byte string. */
  function Sha256Of(message: seq<byte>): (r: seq<byte>)
    ensures |r| == 32
  {
    var padded := Pad(message);
    DigestBytes(HashBlocks(padded, |padded| / 64))
  }

  // ---- the rounds can be undone ----

  /** The `h` that went into T1. */
  function UnT1(e: Word, f: Word, g: Word, t1: Word, kw: Word): Word {
    Sub(Sub(Sub(t1, kw), Ch(e, f, g)), BigSigma1(e))
  }

  function UnRound(s: Words, kw: Word): Words {
    var t1 := Sub(s.a, T2(s.b, s.c, s.d));
    Words(s.b, s.c, s.d, Sub(s.e, t1), s.f, s.g, s.h, UnT1(s.f, s.g, s.h, t1, kw))
  }

  function UnRounds(s: Words, w: seq<Word>, t: nat): Words
    requires t <= 64 && |w| == 64
    decreases t
  {
    if t == 0 then s else UnRounds(UnRound(s, Add(RoundConstant(t - 1), w[t - 1])), w, t - 1)
  }

  /** Wrapping addition cancels. */
  lemma AddSub(x: Word, y: Word)
    ensures Sub(Add(x, y), y) == x && Add(Sub(x, y), y) == x
  {
    assert Add(x, y) == if x + y < TWO_TO_32 then x + y else x + y - TWO_TO_32;
    assert Sub(x, y) == if x >= y then x - y else x - y + TWO_TO_32;
  }

  lemma T1IsInvertible(e: Word, f: Word, g: Word, x: Word, kw: Word)
    ensures UnT1(e, f, g, T1(e, f, g, x, kw), kw) == x
    ensures T1(e, f, g, UnT1(e, f, g, x, kw), kw) == x
  {
    var y, z := BigSigma1(e), Ch(e, f, g);
    hide BigSigma1, Ch, Add, Sub;
    AddSub(x, y);
    AddSub(Add(x, y), z);
    AddSub(Add(Add(x, y), z), kw);
    AddSub(x, kw);
    AddSub(Sub(x, kw), z);
    AddSub(Sub(Sub(x, kw), z), y);
  }

  lemma UnRoundRound(s: Words, kw: Word)
    ensures UnRound(Round(s, kw), kw) == s
  {
    var t1, t2 := T1(s.e, s.f, s.g, s.h, kw), T2(s.a, s.b, s.c);
    hide T1, T2, UnT1, Add, Sub;
    T1IsInvertible(s.e, s.f, s.g, s.h, kw);
    AddSub(t1, t2);
    AddSub(s.d, t1);
  }

  lemma RoundUnRound(s: Words, kw: Word)
    ensures Round(UnRound(s, kw), kw) == s
  {
    var t2 := T2(s.b, s.c, s.d);
    hide T1, T2, UnT1, Add, Sub;
    T1IsInvertible(s.f, s.g, s.h, Sub(s.a, t2), kw);
    AddSub(s.a, t2);
    AddSub(s.e, Sub(s.a, t2));
  }

  /** For any schedule the rounds are a bijection of the eight working words. */
  lemma {:induction false} RoundsAreBijective(s: Words, w: seq<Word>, t: nat)
    requires t <= 64 && |w| == 64
    ensures UnRounds(Rounds(s, w, t), w, t) == s
    ensures Rounds(UnRounds(s, w, t), w, t) == s
    decreases t
  {
    hide Round, UnRound, RoundConstant, Add;
    if t == 0 {
    } else {
      var kw := Add(RoundConstant(t - 1), w[t - 1]);
      RoundsAreBijective(s, w, t - 1);
      UnRoundRound(Rounds(s, w, t - 1), kw);
      RoundsAreBijective(UnRound(s, kw), w, t - 1);
      RoundUnRound(s, kw);
    }
  }

  // ---- the computation in place ----

  /** The zeros pushed so far are all of them once the length is right, and never too many. */
  lemma ZerosEnd(size: nat, n: nat)
    requires n <= ZeroCount(size)
    ensures (size + 1 + n) % 64 == 56 <==> n == ZeroCount(size)
  {
    var k := ZeroCount(size);
    if (size + 1 + n) % 64 == 56 {
      assert (size + 1 + k) % 64 == 56 && k - n < 64;
    }
  }

  method PadMessage(data: seq<byte>) returns (msg: seq<byte>)
    ensures msg == Pad(data)
  {
    msg := data + [0x80];
    ghost var n := 0;
    ZerosEnd(|data|, 0);
    while |msg| % 64 != 56
      invariant n <= ZeroCount(|data|) && msg == data + [0x80] + Zeros(n)
      invariant (|data| + 1 + n) % 64 == 56 <==> n == ZeroCount(|data|)
      decreases ZeroCount(|data|) - n
    {
      assert Zeros(n) + [0] == Zeros(n + 1);
      msg := msg + [0];
      n := n + 1;
      ZerosEnd(|data|, n);
    }
    ghost var base := msg;
    var bitLen := |data| * 8 % TWO_TO_64;
    for i := 8 downto 0
      invariant msg == base + BigEndian(bitLen, 8)[..8 - i]
    {
      msg := msg + [ShiftBytes(bitLen, i) % 256];
      assert BigEndian(bitLen, 8)[..8 - i] == BigEndian(bitLen, 8)[..7 - i] + [BigEndian(bitLen, 8)[7 - i]];
    }
    assert BigEndian(bitLen, 8)[..8] == BigEndian(bitLen, 8);
  }

  lemma WordInBlock(msg: seq<byte>, chunk: nat, t: nat)
    requires chunk + 64 <= |msg| && t < 16
    ensures WordAt(msg, chunk + 4 * t) == Schedule(msg[chunk..chunk + 64], t)
  {
    hide OfBits, Bits;
    var block := msg[chunk..chunk + 64];
    assert block[4 * t] == msg[chunk + 4 * t] && block[4 * t + 1] == msg[chunk + 4 * t + 1];
    assert block[4 * t + 2] == msg[chunk + 4 * t + 2] && block[4 * t + 3] == msg[chunk + 4 * t + 3];
  }

  method ExpandBlock(msg: seq<byte>, chunk: nat, w: array<Word>)
    requires chunk + 64 <= |msg| && w.Length == 64
    modifies w
    ensures w[..] == ScheduleWords(msg[chunk..chunk + 64])
  {
    hide WordAt, NextWord;
    ghost var block := msg[chunk..chunk + 64];
    for i := 0 to 16
      invariant forall t | 0 <= t < i :: w[t] == Schedule(block, t)
    {
      WordInBlock(msg, chunk, i);
      w[i] := WordAt(msg, chunk + 4 * i);
    }
    for i := 16 to 64
      invariant forall t | 0 <= t < i :: w[t] == Schedule(block, t)
    {
      w[i] := NextWord(w[i - 2], w[i - 7], w[i - 15], w[i - 16]);
    }
  }

  method RunRounds(hash: Words, w: array<Word>) returns (r: Words)
    requires w.Length == 64
    ensures r == Rounds(hash, w[..], 64)
  {
    hide T1, T2, Add;
    var a, b, c, d := hash.a, hash.b, hash.c, hash.d;
    var e, f, g, h := hash.e, hash.f, hash.g, hash.h;
    for i := 0 to 64
      invariant Words(a, b, c, d, e, f, g, h) == Rounds(hash, w[..], i)
    {
      var t1 := T1(e, f, g, h, Add(RoundConstant(i), w[i]));
      var t2 := T2(a, b, c);
      h := g;
      g := f;
      f := e;
      e := Add(d, t1);
      d := c;
      c := b;
      b := a;
      a := Add(t1, t2);
    }
    r := Words(a, b, c, d, e, f, g, h);
  }

  method Digest(hash: Words) returns (out: seq<byte>)
    ensures out == DigestBytes(hash)
  {
    var hs := [hash.a, hash.b, hash.c, hash.d, hash.e, hash.f, hash.g, hash.h];
    out := [];
    for i := 0 to 8
      invariant out == Flatten(seq(i, k requires 0 <= k < i => WordBytes(hs[k])))
    {
      var words := seq(i, k requires 0 <= k < i => WordBytes(hs[k]));
      FlattenSnoc(words, WordBytes(hs[i]));
      assert words + [WordBytes(hs[i])] == seq(i + 1, k requires 0 <= k < i + 1 => WordBytes(hs[k]));
      out := out + WordBytes(hs[i]);
    }
    EightWords(hs);
  }

  lemma EightWords(hs: seq<Word>)
    requires |hs| == 8
    ensures Flatten(seq(8, k requires 0 <= k < 8 => WordBytes(hs[k]))) ==
            DigestBytes(Words(hs[0], hs[1], hs[2], hs[3], hs[4], hs[5], hs[6], hs[7]))
  {
    var ws := seq(8, k requires 0 <= k < 8 => WordBytes(hs[k]));
    hide WordBytes;
    assert ws == [ws[0], ws[1], ws[2], ws[3]] + [ws[4], ws[5], ws[6], ws[7]];
    FlattenAppend([ws[0], ws[1], ws[2], ws[3]], [ws[4], ws[5], ws[6], ws[7]]);
    FlattenFour(ws[0], ws[1], ws[2], ws[3]);
    FlattenFour(ws[4], ws[5], ws[6], ws[7]);
  }

  lemma FlattenFour(a: seq<byte>, b: seq<byte>, c: seq<byte>, d: seq<byte>)
    ensures Flatten([a, b, c, d]) == a + b + c + d
  {
    assert [a, b, c, d] == [a] + [b] + [c] + [d];
    FlattenSnoc([a] + [b] + [c], d);
    FlattenSnoc([a] + [b], c);
    FlattenSnoc([a], b);
    FlattenOne(a);
  }

  /** Sha256Bytes_: pad, then per block expand, run the rounds and add. */
  method Sha256Bytes(data: seq<byte>) returns (out: seq<byte>)
    ensures out == Sha256Of(data)
  {
    hide Rounds, ScheduleWords, DigestBytes, Pad;
    var msg := PadMessage(data);
    var hash := INITIAL;
    var chunk := 0;
    ghost var n := 0;
    while chunk < |msg|
      invariant chunk == 64 * n <= |msg|
      invariant hash == HashBlocks(msg, n)
    {
      var w := new Word[64];
      ExpandBlock(msg, chunk, w);
      var r := RunRounds(hash, w);
      hash := AddWords(hash, r);
      chunk := chunk + 64;
      n := n + 1;
    }
    assert n == |msg| / 64;
    out := Digest(hash);
  }
}
