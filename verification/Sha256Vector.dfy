/** The one-block example of FIPS 180-4, worked through round by round: the digest of "abc". */
module Sha256Vector {
  import opened Bytes
  import opened Sha256

  const ABC: seq<byte> := [0x61, 0x62, 0x63]

  /** "abc" padded to one block. */
  const BLOCK: seq<byte> := [0x61, 0x62, 0x63, 0x80] + Zeros(59) + [24]

  function W(t: nat): Word
    requires t < 64
  {
    Schedule(BLOCK, t)
  }

  /** The working words after `t` rounds. */
  function State(t: nat): Words
    requires t <= 64
  {
    Rounds(INITIAL, ScheduleWords(BLOCK), t)
  }

  // ---- the schedule ----

  lemma ZeroWord(t: nat)
    requires 0 < t < 15
    ensures W(t) == 0
  {
    assert BLOCK[4 * t] == 0 && BLOCK[4 * t + 1] == 0 && BLOCK[4 * t + 2] == 0 && BLOCK[4 * t + 3] == 0;
  }

  /** The block itself: the message with its marker, zeros, the length in bits. */
  lemma Words0()
    ensures W(0) == 0x61626380 && forall t | 0 < t < 15 :: W(t) == 0
    ensures W(15) == 24
  {
    assert BLOCK[0] == 0x61 && BLOCK[1] == 0x62 && BLOCK[2] == 0x63 && BLOCK[3] == 0x80;
    assert BLOCK[60] == 0 && BLOCK[61] == 0 && BLOCK[62] == 0 && BLOCK[63] == 24;
    forall t | 0 < t < 15
      ensures W(t) == 0
    {
      ZeroWord(t);
    }
  }

  lemma OneWord(t: nat, w2: Word, w7: Word, w15: Word, w16: Word, s1: Word, s0: Word)
    requires 16 <= t < 64 && W(t - 2) == w2 && W(t - 7) == w7 && W(t - 15) == w15 && W(t - 16) == w16
    requires SmallSigma1(w2) == s1 && SmallSigma0(w15) == s0
    ensures W(t) == (s1 + w7 + s0 + w16) % TWO_TO_32
  {
    hide SmallSigma0, SmallSigma1, Add;
    AddFour(s1, w7, s0, w16);
  }

  lemma AddThree(x: Word, y: Word, z: Word)
    ensures Add(Add(x, y), z) == (x + y + z) % TWO_TO_32
  {
    assert Add(x, y) == x + y || Add(x, y) == x + y - TWO_TO_32;
  }

  lemma AddFour(x: Word, y: Word, z: Word, v: Word)
    ensures Add(Add(Add(x, y), z), v) == (x + y + z + v) % TWO_TO_32
  {
    hide Add;
    AddThree(x, y, z);
    AddThree(Add(x, y), z, v);
    AddThree(x, y, 0);
    AddIs(x, y);
    AddMore(x + y, z + v);
  }

  lemma AddIs(x: Word, y: Word)
    ensures Add(x, y) == (x as int + y as int) % TWO_TO_32
  {}

  lemma AddMore(x: nat, v: nat)
    ensures (x % TWO_TO_32 + v) % TWO_TO_32 == (x + v) % TWO_TO_32
  {}

  lemma Sigmas16()
    ensures SmallSigma1(0x00000000) == 0x00000000 && SmallSigma0(0x00000000) == 0x00000000 && SmallSigma1(0x00000018) == 0x000f0000 && SmallSigma0(0x00000000) == 0x00000000
    ensures SmallSigma1(0x61626380) == 0x7da86405 && SmallSigma0(0x00000000) == 0x00000000 && SmallSigma1(0x000f0000) == 0x600003c6 && SmallSigma0(0x00000000) == 0x00000000
    ensures SmallSigma1(0x7da86405) == 0x3e9d7b78 && SmallSigma0(0x00000000) == 0x00000000 && SmallSigma1(0x600003c6) == 0x0183fc00 && SmallSigma0(0x00000000) == 0x00000000
    ensures SmallSigma1(0x3e9d7b78) == 0x12dcbfc3 && SmallSigma0(0x00000000) == 0x00000000 && SmallSigma1(0x0183fc00) == 0x8180600e && SmallSigma0(0x00000000) == 0x00000000
  {}

  lemma Words16()
    ensures W(16) == 0x61626380 && W(17) == 0x000f0000 && W(18) == 0x7da86405 && W(19) == 0x600003c6
    ensures W(20) == 0x3e9d7b78 && W(21) == 0x0183fc00 && W(22) == 0x12dcbfdb && W(23) == 0xe2e2c38e
  {
    hide W, SmallSigma0, SmallSigma1;
    Sigmas16();
    Words0();
    OneWord(16, 0x00000000, 0x00000000, 0x00000000, 0x61626380, 0x00000000, 0x00000000);
    OneWord(17, 0x00000018, 0x00000000, 0x00000000, 0x00000000, 0x000f0000, 0x00000000);
    OneWord(18, 0x61626380, 0x00000000, 0x00000000, 0x00000000, 0x7da86405, 0x00000000);
    OneWord(19, 0x000f0000, 0x00000000, 0x00000000, 0x00000000, 0x600003c6, 0x00000000);
    OneWord(20, 0x7da86405, 0x00000000, 0x00000000, 0x00000000, 0x3e9d7b78, 0x00000000);
    OneWord(21, 0x600003c6, 0x00000000, 0x00000000, 0x00000000, 0x0183fc00, 0x00000000);
    OneWord(22, 0x3e9d7b78, 0x00000018, 0x00000000, 0x00000000, 0x12dcbfc3, 0x00000000);
    OneWord(23, 0x0183fc00, 0x61626380, 0x00000000, 0x00000000, 0x8180600e, 0x00000000);
  }

  lemma Sigmas24()
    ensures SmallSigma1(0x12dcbfdb) == 0xc8125c1a && SmallSigma0(0x00000000) == 0x00000000 && SmallSigma1(0xe2e2c38e) == 0x398e159d && SmallSigma0(0x00000000) == 0x00000000
    ensures SmallSigma1(0xc8215c1a) == 0x85bc3543 && SmallSigma0(0x00000000) == 0x00000000 && SmallSigma1(0xb73679a2) == 0xf3c8c0e3 && SmallSigma0(0x00000000) == 0x00000000
    ensures SmallSigma1(0xe5bc3909) == 0x9b9ca167 && SmallSigma0(0x00000000) == 0x00000000 && SmallSigma1(0x32663c5b) == 0xd9aa66f0 && SmallSigma0(0x00000000) == 0x00000000
    ensures SmallSigma1(0x9d209d67) == 0x5d387513 && SmallSigma0(0x00000018) == 0x30060003 && SmallSigma1(0xec8726cb) == 0x7787aa1a && SmallSigma0(0x61626380) == 0x940e90ef
  {}

  lemma Words24()
    ensures W(24) == 0xc8215c1a && W(25) == 0xb73679a2 && W(26) == 0xe5bc3909 && W(27) == 0x32663c5b
    ensures W(28) == 0x9d209d67 && W(29) == 0xec8726cb && W(30) == 0x702138a4 && W(31) == 0xd3b7973b
  {
    hide W, SmallSigma0, SmallSigma1;
    Sigmas24();
    Words0();
    Words16();
    OneWord(24, 0x12dcbfdb, 0x000f0000, 0x00000000, 0x00000000, 0xc8125c1a, 0x00000000);
    OneWord(25, 0xe2e2c38e, 0x7da86405, 0x00000000, 0x00000000, 0x398e159d, 0x00000000);
    OneWord(26, 0xc8215c1a, 0x600003c6, 0x00000000, 0x00000000, 0x85bc3543, 0x00000000);
    OneWord(27, 0xb73679a2, 0x3e9d7b78, 0x00000000, 0x00000000, 0xf3c8c0e3, 0x00000000);
    OneWord(28, 0xe5bc3909, 0x0183fc00, 0x00000000, 0x00000000, 0x9b9ca167, 0x00000000);
    OneWord(29, 0x32663c5b, 0x12dcbfdb, 0x00000000, 0x00000000, 0xd9aa66f0, 0x00000000);
    OneWord(30, 0x9d209d67, 0xe2e2c38e, 0x00000018, 0x00000000, 0x5d387513, 0x30060003);
    OneWord(31, 0xec8726cb, 0xc8215c1a, 0x61626380, 0x00000018, 0x7787aa1a, 0x940e90ef);
  }

  lemma Sigmas32()
    ensures SmallSigma1(0x702138a4) == 0xbb5abe5a && SmallSigma0(0x000f0000) == 0xc001fe03 && SmallSigma1(0xd3b7973b) == 0x394e7e48 && SmallSigma0(0x7da86405) == 0x1c4f0322
    ensures SmallSigma1(0x93f5997f) == 0x7fb4c6e2 && SmallSigma0(0x600003c6) == 0x8031987f && SmallSigma1(0x3b68ba73) == 0x4a7920f7 && SmallSigma0(0x3e9d7b78) == 0xa9709a3e
    ensures SmallSigma1(0xaff4ffc1) == 0xe0331f3b && SmallSigma0(0x0183fc00) == 0xff337818 && SmallSigma1(0xf10a5c62) == 0x65816433 && SmallSigma0(0x12dcbfdb) == 0x9b88ea33
    ensures SmallSigma1(0x0a8b3996) == 0xfbfb66da && SmallSigma0(0xe2e2c38e) == 0xb17a254e && SmallSigma1(0x72af830a) == 0x31f8dce2 && SmallSigma0(0xc8215c1a) == 0x7b92db33
  {}

  lemma Words32()
    ensures W(32) == 0x93f5997f && W(33) == 0x3b68ba73 && W(34) == 0xaff4ffc1 && W(35) == 0xf10a5c62
    ensures W(36) == 0x0a8b3996 && W(37) == 0x72af830a && W(38) == 0x9409e33e && W(39) == 0x24641522
  {
    hide W, SmallSigma0, SmallSigma1;
    Sigmas32();
    Words16();
    Words24();
    OneWord(32, 0x702138a4, 0xb73679a2, 0x000f0000, 0x61626380, 0xbb5abe5a, 0xc001fe03);
    OneWord(33, 0xd3b7973b, 0xe5bc3909, 0x7da86405, 0x000f0000, 0x394e7e48, 0x1c4f0322);
    OneWord(34, 0x93f5997f, 0x32663c5b, 0x600003c6, 0x7da86405, 0x7fb4c6e2, 0x8031987f);
    OneWord(35, 0x3b68ba73, 0x9d209d67, 0x3e9d7b78, 0x600003c6, 0x4a7920f7, 0xa9709a3e);
    OneWord(36, 0xaff4ffc1, 0xec8726cb, 0x0183fc00, 0x3e9d7b78, 0xe0331f3b, 0xff337818);
    OneWord(37, 0xf10a5c62, 0x702138a4, 0x12dcbfdb, 0x0183fc00, 0x65816433, 0x9b88ea33);
    OneWord(38, 0x0a8b3996, 0xd3b7973b, 0xe2e2c38e, 0x12dcbfdb, 0xfbfb66da, 0xb17a254e);
    OneWord(39, 0x72af830a, 0x93f5997f, 0xc8215c1a, 0xe2e2c38e, 0x31f8dce2, 0x7b92db33);
  }

  lemma Sigmas40()
    ensures SmallSigma1(0x9409e33e) == 0xcddd9afd && SmallSigma0(0xb73679a2) == 0xcde00e0a && SmallSigma1(0x24641522) == 0x883c4fbb && SmallSigma0(0xe5bc3909) == 0x013e863c
    ensures SmallSigma1(0x9f47bf94) == 0x281f0da4 && SmallSigma0(0x32663c5b) == 0x3f3ec76a && SmallSigma1(0xf0a64f5a) == 0xee7a0fd4 && SmallSigma0(0x9d209d67) == 0xfbc7b5de
    ensures SmallSigma1(0x3e246a79) == 0xb87c31cc && SmallSigma0(0xec8726cb) == 0x43fb11b5 && SmallSigma1(0x27333ba3) == 0xfaac3bb1 && SmallSigma0(0x702138a4) == 0x08cd796d
    ensures SmallSigma1(0x0c4763f2) == 0x5d845673 && SmallSigma0(0xd3b7973b) == 0x881f6924 && SmallSigma1(0x840abf27) == 0x0856302b && SmallSigma0(0x93f5997f) == 0x8b06bce0
  {}

  lemma Words40()
    ensures W(40) == 0x9f47bf94 && W(41) == 0xf0a64f5a && W(42) == 0x3e246a79 && W(43) == 0x27333ba3
    ensures W(44) == 0x0c4763f2 && W(45) == 0x840abf27 && W(46) == 0x7a290d5d && W(47) == 0x065c43da
  {
    hide W, SmallSigma0, SmallSigma1;
    Sigmas40();
    Words24();
    Words32();
    OneWord(40, 0x9409e33e, 0x3b68ba73, 0xb73679a2, 0xc8215c1a, 0xcddd9afd, 0xcde00e0a);
    OneWord(41, 0x24641522, 0xaff4ffc1, 0xe5bc3909, 0xb73679a2, 0x883c4fbb, 0x013e863c);
    OneWord(42, 0x9f47bf94, 0xf10a5c62, 0x32663c5b, 0xe5bc3909, 0x281f0da4, 0x3f3ec76a);
    OneWord(43, 0xf0a64f5a, 0x0a8b3996, 0x9d209d67, 0x32663c5b, 0xee7a0fd4, 0xfbc7b5de);
    OneWord(44, 0x3e246a79, 0x72af830a, 0xec8726cb, 0x9d209d67, 0xb87c31cc, 0x43fb11b5);
    OneWord(45, 0x27333ba3, 0x9409e33e, 0x702138a4, 0xec8726cb, 0xfaac3bb1, 0x08cd796d);
    OneWord(46, 0x0c4763f2, 0x24641522, 0xd3b7973b, 0x702138a4, 0x5d845673, 0x881f6924);
    OneWord(47, 0x840abf27, 0x9f47bf94, 0x93f5997f, 0xd3b7973b, 0x0856302b, 0x8b06bce0);
  }

  lemma Sigmas48()
    ensures SmallSigma1(0x7a290d5d) == 0xa71b9812 && SmallSigma0(0x3b68ba73) == 0xcf8708e0 && SmallSigma1(0x065c43da) == 0xa997d4f5 && SmallSigma0(0xaff4ffc1) == 0xa9511dfa
    ensures SmallSigma1(0xfb3e89cb) == 0x95e24d5a && SmallSigma0(0xf10a5c62) == 0x4cdbe376 && SmallSigma1(0xcc7617db) == 0xc9258230 && SmallSigma0(0x0a8b3996) == 0xe321f3e3
    ensures SmallSigma1(0xb9e66c34) == 0xfbb2b254 && SmallSigma0(0x72af830a) == 0xfa7233cc && SmallSigma1(0xa9993667) == 0xbdd547b2 && SmallSigma0(0x9409e33e) == 0x17668aa3
    ensures SmallSigma1(0x84badedd) == 0x34945c7d && SmallSigma0(0x24641522) == 0x458cc397 && SmallSigma1(0xc21462bc) == 0xbd397c50 && SmallSigma0(0x9f47bf94) == 0xd5335f5c
  {}

  lemma Words48()
    ensures W(48) == 0xfb3e89cb && W(49) == 0xcc7617db && W(50) == 0xb9e66c34 && W(51) == 0xa9993667
    ensures W(52) == 0x84badedd && W(53) == 0xc21462bc && W(54) == 0x1487472c && W(55) == 0xb20f7a99
  {
    hide W, SmallSigma0, SmallSigma1;
    Sigmas48();
    Words32();
    Words40();
    OneWord(48, 0x7a290d5d, 0xf0a64f5a, 0x3b68ba73, 0x93f5997f, 0xa71b9812, 0xcf8708e0);
    OneWord(49, 0x065c43da, 0x3e246a79, 0xaff4ffc1, 0x3b68ba73, 0xa997d4f5, 0xa9511dfa);
    OneWord(50, 0xfb3e89cb, 0x27333ba3, 0xf10a5c62, 0xaff4ffc1, 0x95e24d5a, 0x4cdbe376);
    OneWord(51, 0xcc7617db, 0x0c4763f2, 0x0a8b3996, 0xf10a5c62, 0xc9258230, 0xe321f3e3);
    OneWord(52, 0xb9e66c34, 0x840abf27, 0x72af830a, 0x0a8b3996, 0xfbb2b254, 0xfa7233cc);
    OneWord(53, 0xa9993667, 0x7a290d5d, 0x9409e33e, 0x72af830a, 0xbdd547b2, 0x17668aa3);
    OneWord(54, 0x84badedd, 0x065c43da, 0x24641522, 0x9409e33e, 0x34945c7d, 0x458cc397);
    OneWord(55, 0xc21462bc, 0xfb3e89cb, 0x9f47bf94, 0x24641522, 0xbd397c50, 0xd5335f5c);
  }

  lemma Sigmas56()
    ensures SmallSigma1(0x1487472c) == 0x4b76a902 && SmallSigma0(0xf0a64f5a) == 0x3823395c && SmallSigma1(0xb20f7a99) == 0x52336c98 && SmallSigma0(0x3e246a79) == 0xef268a12
    ensures SmallSigma1(0xef57b9cd) == 0x2be49faf && SmallSigma0(0x27333ba3) == 0x8c40c8cf && SmallSigma1(0xebe6b238) == 0x8f619123 && SmallSigma0(0x0c4763f2) == 0x3d6ce1a8
    ensures SmallSigma1(0x9fe3095e) == 0xe5a364cf && SmallSigma0(0x840abf27) == 0xf040a398 && SmallSigma1(0x78bc8d4b) == 0xd712fc6a && SmallSigma0(0x7a290d5d) == 0xf6e62d3b
    ensures SmallSigma1(0xa43fcf15) == 0x1e41696b && SmallSigma0(0x065c43da) == 0xa431b16b && SmallSigma1(0x668b2ff8) == 0xf21a9d5f && SmallSigma0(0xfb3e89cb) == 0x2ae352e5
  {}

  lemma Words56()
    ensures W(56) == 0xef57b9cd && W(57) == 0xebe6b238 && W(58) == 0x9fe3095e && W(59) == 0x78bc8d4b
    ensures W(60) == 0xa43fcf15 && W(61) == 0x668b2ff8 && W(62) == 0xeeaba2cc && W(63) == 0x12b1edeb
  {
    hide W, SmallSigma0, SmallSigma1;
    Sigmas56();
    Words40();
    Words48();
    OneWord(56, 0x1487472c, 0xcc7617db, 0xf0a64f5a, 0x9f47bf94, 0x4b76a902, 0x3823395c);
    OneWord(57, 0xb20f7a99, 0xb9e66c34, 0x3e246a79, 0xf0a64f5a, 0x52336c98, 0xef268a12);
    OneWord(58, 0xef57b9cd, 0xa9993667, 0x27333ba3, 0x3e246a79, 0x2be49faf, 0x8c40c8cf);
    OneWord(59, 0xebe6b238, 0x84badedd, 0x0c4763f2, 0x27333ba3, 0x8f619123, 0x3d6ce1a8);
    OneWord(60, 0x9fe3095e, 0xc21462bc, 0x840abf27, 0x0c4763f2, 0xe5a364cf, 0xf040a398);
    OneWord(61, 0x78bc8d4b, 0x1487472c, 0x7a290d5d, 0x840abf27, 0xd712fc6a, 0xf6e62d3b);
    OneWord(62, 0xa43fcf15, 0xb20f7a99, 0x065c43da, 0x7a290d5d, 0x1e41696b, 0xa431b16b);
    OneWord(63, 0x668b2ff8, 0xef57b9cd, 0xfb3e89cb, 0x065c43da, 0xf21a9d5f, 0x2ae352e5);
  }

  // ---- the rounds ----

  lemma Constants0()
    ensures RoundConstant(0) == 0x428a2f98 && RoundConstant(1) == 0x71374491 && RoundConstant(2) == 0xb5c0fbcf && RoundConstant(3) == 0xe9b5dba5
    ensures RoundConstant(4) == 0x3956c25b && RoundConstant(5) == 0x59f111f1 && RoundConstant(6) == 0x923f82a4 && RoundConstant(7) == 0xab1c5ed5
  {}

  lemma Constants8()
    ensures RoundConstant(8) == 0xd807aa98 && RoundConstant(9) == 0x12835b01 && RoundConstant(10) == 0x243185be && RoundConstant(11) == 0x550c7dc3
    ensures RoundConstant(12) == 0x72be5d74 && RoundConstant(13) == 0x80deb1fe && RoundConstant(14) == 0x9bdc06a7 && RoundConstant(15) == 0xc19bf174
  {}

  lemma Constants16()
    ensures RoundConstant(16) == 0xe49b69c1 && RoundConstant(17) == 0xefbe4786 && RoundConstant(18) == 0x0fc19dc6 && RoundConstant(19) == 0x240ca1cc
    ensures RoundConstant(20) == 0x2de92c6f && RoundConstant(21) == 0x4a7484aa && RoundConstant(22) == 0x5cb0a9dc && RoundConstant(23) == 0x76f988da
  {}

  lemma Constants24()
    ensures RoundConstant(24) == 0x983e5152 && RoundConstant(25) == 0xa831c66d && RoundConstant(26) == 0xb00327c8 && RoundConstant(27) == 0xbf597fc7
    ensures RoundConstant(28) == 0xc6e00bf3 && RoundConstant(29) == 0xd5a79147 && RoundConstant(30) == 0x06ca6351 && RoundConstant(31) == 0x14292967
  {}

  lemma Constants32()
    ensures RoundConstant(32) == 0x27b70a85 && RoundConstant(33) == 0x2e1b2138 && RoundConstant(34) == 0x4d2c6dfc && RoundConstant(35) == 0x53380d13
    ensures RoundConstant(36) == 0x650a7354 && RoundConstant(37) == 0x766a0abb && RoundConstant(38) == 0x81c2c92e && RoundConstant(39) == 0x92722c85
  {}

  lemma Constants40()
    ensures RoundConstant(40) == 0xa2bfe8a1 && RoundConstant(41) == 0xa81a664b && RoundConstant(42) == 0xc24b8b70 && RoundConstant(43) == 0xc76c51a3
    ensures RoundConstant(44) == 0xd192e819 && RoundConstant(45) == 0xd6990624 && RoundConstant(46) == 0xf40e3585 && RoundConstant(47) == 0x106aa070
  {}

  lemma Constants48()
    ensures RoundConstant(48) == 0x19a4c116 && RoundConstant(49) == 0x1e376c08 && RoundConstant(50) == 0x2748774c && RoundConstant(51) == 0x34b0bcb5
    ensures RoundConstant(52) == 0x391c0cb3 && RoundConstant(53) == 0x4ed8aa4a && RoundConstant(54) == 0x5b9cca4f && RoundConstant(55) == 0x682e6ff3
  {}

  lemma Constants56()
    ensures RoundConstant(56) == 0x748f82ee && RoundConstant(57) == 0x78a5636f && RoundConstant(58) == 0x84c87814 && RoundConstant(59) == 0x8cc70208
    ensures RoundConstant(60) == 0x90befffa && RoundConstant(61) == 0xa4506ceb && RoundConstant(62) == 0xbef9a3f7 && RoundConstant(63) == 0xc67178f2
  {}

  lemma NextState(t: nat)
    requires t < 64
    ensures State(t + 1) == Round(State(t), Add(RoundConstant(t), W(t)))
  {
    hide Round, Add, RoundConstant, Schedule;
  }

  lemma OneRound(s: Words, kw: Word, s1: Word, c: Word, s0: Word, m: Word)
    requires BigSigma1(s.e) == s1 && Ch(s.e, s.f, s.g) == c && BigSigma0(s.a) == s0 && Maj(s.a, s.b, s.c) == m
    ensures Round(s, kw) == Words((s.h + s1 + c + kw + s0 + m) % TWO_TO_32, s.a, s.b, s.c, (s.d + s.h + s1 + c + kw) % TWO_TO_32, s.e, s.f, s.g)
  {
    hide BigSigma1, BigSigma0, Ch, Maj, Add;
    AddFour(s.h, s1, c, kw);
    AddIs(s0, m);
    AddIs(Add(Add(Add(s.h, s1), c), kw), Add(s0, m));
    AddMore(s.h + s1 + c + kw, Add(s0, m));
    AddMore(s0 + m, s.h + s1 + c + kw);
    AddIs(s.d, Add(Add(Add(s.h, s1), c), kw));
    AddMore(s.h + s1 + c + kw, s.d);
  }

  lemma Functions0()
    ensures BigSigma1(0x510e527f) == 0x3587272b && Ch(0x510e527f, 0x9b05688c, 0x1f83d9ab) == 0x1f85c98c
    ensures BigSigma0(0x6a09e667) == 0xce20b47e && Maj(0x6a09e667, 0xbb67ae85, 0x3c6ef372) == 0x3a6fe667
    ensures BigSigma1(0xfa2a4622) == 0x5a94fd2d && Ch(0xfa2a4622, 0x510e527f, 0x9b05688c) == 0x510f6aae
    ensures BigSigma0(0x5d6aebcd) == 0xa29f64d1 && Maj(0x5d6aebcd, 0x6a09e667, 0xbb67ae85) == 0x7b6beec5
    ensures BigSigma1(0x78ce7989) == 0x73f0e495 && Ch(0x78ce7989, 0xfa2a4622, 0x510e527f) == 0x790a4276
    ensures BigSigma0(0x5a6ad9ad) == 0x3096d054 && Maj(0x5a6ad9ad, 0x5d6aebcd, 0x6a09e667) == 0x5a6aebed
    ensures BigSigma1(0xf92939eb) == 0x0607743c && Ch(0xf92939eb, 0x78ce7989, 0xfa2a4622) == 0x7a0a7f89
    ensures BigSigma0(0xc8c347a7) == 0xc21008d0 && Maj(0xc8c347a7, 0x5a6ad9ad, 0x5d6aebcd) == 0x586acbad
  {}

  lemma Turn0()
    ensures Round(Words(0x6a09e667, 0xbb67ae85, 0x3c6ef372, 0xa54ff53a, 0x510e527f, 0x9b05688c, 0x1f83d9ab, 0x5be0cd19), 0xa3ec9318) == Words(0x5d6aebcd, 0x6a09e667, 0xbb67ae85, 0x3c6ef372, 0xfa2a4622, 0x510e527f, 0x9b05688c, 0x1f83d9ab)
    ensures Round(Words(0x5d6aebcd, 0x6a09e667, 0xbb67ae85, 0x3c6ef372, 0xfa2a4622, 0x510e527f, 0x9b05688c, 0x1f83d9ab), 0x71374491) == Words(0x5a6ad9ad, 0x5d6aebcd, 0x6a09e667, 0xbb67ae85, 0x78ce7989, 0xfa2a4622, 0x510e527f, 0x9b05688c)
    ensures Round(Words(0x5a6ad9ad, 0x5d6aebcd, 0x6a09e667, 0xbb67ae85, 0x78ce7989, 0xfa2a4622, 0x510e527f, 0x9b05688c), 0xb5c0fbcf) == Words(0xc8c347a7, 0x5a6ad9ad, 0x5d6aebcd, 0x6a09e667, 0xf92939eb, 0x78ce7989, 0xfa2a4622, 0x510e527f)
    ensures Round(Words(0xc8c347a7, 0x5a6ad9ad, 0x5d6aebcd, 0x6a09e667, 0xf92939eb, 0x78ce7989, 0xfa2a4622, 0x510e527f), 0xe9b5dba5) == Words(0xd550f666, 0xc8c347a7, 0x5a6ad9ad, 0x5d6aebcd, 0x24e00850, 0xf92939eb, 0x78ce7989, 0xfa2a4622)
  {
    hide BigSigma0, BigSigma1, Ch, Maj, Round;
    Functions0();
    OneRound(Words(0x6a09e667, 0xbb67ae85, 0x3c6ef372, 0xa54ff53a, 0x510e527f, 0x9b05688c, 0x1f83d9ab, 0x5be0cd19), 0xa3ec9318, 0x3587272b, 0x1f85c98c, 0xce20b47e, 0x3a6fe667);
    OneRound(Words(0x5d6aebcd, 0x6a09e667, 0xbb67ae85, 0x3c6ef372, 0xfa2a4622, 0x510e527f, 0x9b05688c, 0x1f83d9ab), 0x71374491, 0x5a94fd2d, 0x510f6aae, 0xa29f64d1, 0x7b6beec5);
    OneRound(Words(0x5a6ad9ad, 0x5d6aebcd, 0x6a09e667, 0xbb67ae85, 0x78ce7989, 0xfa2a4622, 0x510e527f, 0x9b05688c), 0xb5c0fbcf, 0x73f0e495, 0x790a4276, 0x3096d054, 0x5a6aebed);
    OneRound(Words(0xc8c347a7, 0x5a6ad9ad, 0x5d6aebcd, 0x6a09e667, 0xf92939eb, 0x78ce7989, 0xfa2a4622, 0x510e527f), 0xe9b5dba5, 0x0607743c, 0x7a0a7f89, 0xc21008d0, 0x586acbad);
  }

  lemma Functions4()
    ensures BigSigma1(0x24e00850) == 0x3a933432 && Ch(0x24e00850, 0xf92939eb, 0x78ce7989) == 0x782e79c9
    ensures BigSigma0(0xd550f666) == 0x45bb0c4b && Maj(0xd550f666, 0xc8c347a7, 0x5a6ad9ad) == 0xd842d7a7
    ensures BigSigma1(0x43ada245) == 0x8b77e19c && Ch(0x43ada245, 0x24e00850, 0xf92939eb) == 0xb8a019ea
    ensures BigSigma0(0x04409a6a) == 0x5029ac8f && Maj(0x04409a6a, 0xd550f666, 0xc8c347a7) == 0xc440d666
    ensures BigSigma1(0x714260ad) == 0x015b7776 && Ch(0x714260ad, 0x43ada245, 0x24e00850) == 0x45a02855
    ensures BigSigma0(0x2b4209f5) == 0x0d5e0cc0 && Maj(0x2b4209f5, 0x04409a6a, 0xd550f666) == 0x05409a66
    ensures BigSigma1(0x9b27a401) == 0x158dfaa9 && Ch(0x9b27a401, 0x714260ad, 0x43ada245) == 0x518a2245
    ensures BigSigma0(0xe5030380) == 0x2949eb6c && Maj(0xe5030380, 0x2b4209f5, 0x04409a6a) == 0x25420be0
  {}

  lemma Turn4()
    ensures Round(Words(0xd550f666, 0xc8c347a7, 0x5a6ad9ad, 0x5d6aebcd, 0x24e00850, 0xf92939eb, 0x78ce7989, 0xfa2a4622), 0x3956c25b) == Words(0x04409a6a, 0xd550f666, 0xc8c347a7, 0x5a6ad9ad, 0x43ada245, 0x24e00850, 0xf92939eb, 0x78ce7989)
    ensures Round(Words(0x04409a6a, 0xd550f666, 0xc8c347a7, 0x5a6ad9ad, 0x43ada245, 0x24e00850, 0xf92939eb, 0x78ce7989), 0x59f111f1) == Words(0x2b4209f5, 0x04409a6a, 0xd550f666, 0xc8c347a7, 0x714260ad, 0x43ada245, 0x24e00850, 0xf92939eb)
    ensures Round(Words(0x2b4209f5, 0x04409a6a, 0xd550f666, 0xc8c347a7, 0x714260ad, 0x43ada245, 0x24e00850, 0xf92939eb), 0x923f82a4) == Words(0xe5030380, 0x2b4209f5, 0x04409a6a, 0xd550f666, 0x9b27a401, 0x714260ad, 0x43ada245, 0x24e00850)
    ensures Round(Words(0xe5030380, 0x2b4209f5, 0x04409a6a, 0xd550f666, 0x9b27a401, 0x714260ad, 0x43ada245, 0x24e00850), 0xab1c5ed5) == Words(0x85a07b5f, 0xe5030380, 0x2b4209f5, 0x04409a6a, 0x0c657a79, 0x9b27a401, 0x714260ad, 0x43ada245)
  {
    hide BigSigma0, BigSigma1, Ch, Maj, Round;
    Functions4();
    OneRound(Words(0xd550f666, 0xc8c347a7, 0x5a6ad9ad, 0x5d6aebcd, 0x24e00850, 0xf92939eb, 0x78ce7989, 0xfa2a4622), 0x3956c25b, 0x3a933432, 0x782e79c9, 0x45bb0c4b, 0xd842d7a7);
    OneRound(Words(0x04409a6a, 0xd550f666, 0xc8c347a7, 0x5a6ad9ad, 0x43ada245, 0x24e00850, 0xf92939eb, 0x78ce7989), 0x59f111f1, 0x8b77e19c, 0xb8a019ea, 0x5029ac8f, 0xc440d666);
    OneRound(Words(0x2b4209f5, 0x04409a6a, 0xd550f666, 0xc8c347a7, 0x714260ad, 0x43ada245, 0x24e00850, 0xf92939eb), 0x923f82a4, 0x015b7776, 0x45a02855, 0x0d5e0cc0, 0x05409a66);
    OneRound(Words(0xe5030380, 0x2b4209f5, 0x04409a6a, 0xd550f666, 0x9b27a401, 0x714260ad, 0x43ada245, 0x24e00850), 0xab1c5ed5, 0x158dfaa9, 0x518a2245, 0x2949eb6c, 0x25420be0);
  }

  lemma Functions8()
    ensures BigSigma1(0x0c657a79) == 0x99ad25c0 && Ch(0x0c657a79, 0x9b27a401, 0x714260ad) == 0x79272085
    ensures BigSigma0(0x85a07b5f) == 0xba794dc2 && Maj(0x85a07b5f, 0xe5030380, 0x2b4209f5) == 0xa5020bd5
    ensures BigSigma1(0x32ca2d8c) == 0xe45bb7ea && Ch(0x32ca2d8c, 0x0c657a79, 0x9b27a401) == 0x8965a809
    ensures BigSigma0(0x8e04ecb9) == 0x15ffad31 && Maj(0x8e04ecb9, 0x85a07b5f, 0xe5030380) == 0x85006b99
    ensures BigSigma1(0x1cc92596) == 0x8e2276bc && Ch(0x1cc92596, 0x32ca2d8c, 0x0c657a79) == 0x10ec7fed
    ensures BigSigma0(0x8c87346b) == 0x5cac0711 && Maj(0x8c87346b, 0x8e04ecb9, 0x85a07b5f) == 0x8c847c7b
    ensures BigSigma1(0x436b23e8) == 0x699435ca && Ch(0x436b23e8, 0x1cc92596, 0x32ca2d8c) == 0x30c92d84
    ensures BigSigma0(0x4798a3f4) == 0x6ccbc526 && Maj(0x4798a3f4, 0x8c87346b, 0x8e04ecb9) == 0x8e84a4f9
  {}

  lemma Turn8()
    ensures Round(Words(0x85a07b5f, 0xe5030380, 0x2b4209f5, 0x04409a6a, 0x0c657a79, 0x9b27a401, 0x714260ad, 0x43ada245), 0xd807aa98) == Words(0x8e04ecb9, 0x85a07b5f, 0xe5030380, 0x2b4209f5, 0x32ca2d8c, 0x0c657a79, 0x9b27a401, 0x714260ad)
    ensures Round(Words(0x8e04ecb9, 0x85a07b5f, 0xe5030380, 0x2b4209f5, 0x32ca2d8c, 0x0c657a79, 0x9b27a401, 0x714260ad), 0x12835b01) == Words(0x8c87346b, 0x8e04ecb9, 0x85a07b5f, 0xe5030380, 0x1cc92596, 0x32ca2d8c, 0x0c657a79, 0x9b27a401)
    ensures Round(Words(0x8c87346b, 0x8e04ecb9, 0x85a07b5f, 0xe5030380, 0x1cc92596, 0x32ca2d8c, 0x0c657a79, 0x9b27a401), 0x243185be) == Words(0x4798a3f4, 0x8c87346b, 0x8e04ecb9, 0x85a07b5f, 0x436b23e8, 0x1cc92596, 0x32ca2d8c, 0x0c657a79)
    ensures Round(Words(0x4798a3f4, 0x8c87346b, 0x8e04ecb9, 0x85a07b5f, 0x436b23e8, 0x1cc92596, 0x32ca2d8c, 0x0c657a79), 0x550c7dc3) == Words(0xf71fc5a9, 0x4798a3f4, 0x8c87346b, 0x8e04ecb9, 0x816fd6e9, 0x436b23e8, 0x1cc92596, 0x32ca2d8c)
  {
    hide BigSigma0, BigSigma1, Ch, Maj, Round;
    Functions8();
    OneRound(Words(0x85a07b5f, 0xe5030380, 0x2b4209f5, 0x04409a6a, 0x0c657a79, 0x9b27a401, 0x714260ad, 0x43ada245), 0xd807aa98, 0x99ad25c0, 0x79272085, 0xba794dc2, 0xa5020bd5);
    OneRound(Words(0x8e04ecb9, 0x85a07b5f, 0xe5030380, 0x2b4209f5, 0x32ca2d8c, 0x0c657a79, 0x9b27a401, 0x714260ad), 0x12835b01, 0xe45bb7ea, 0x8965a809, 0x15ffad31, 0x85006b99);
    OneRound(Words(0x8c87346b, 0x8e04ecb9, 0x85a07b5f, 0xe5030380, 0x1cc92596, 0x32ca2d8c, 0x0c657a79, 0x9b27a401), 0x243185be, 0x8e2276bc, 0x10ec7fed, 0x5cac0711, 0x8c847c7b);
    OneRound(Words(0x4798a3f4, 0x8c87346b, 0x8e04ecb9, 0x85a07b5f, 0x436b23e8, 0x1cc92596, 0x32ca2d8c, 0x0c657a79), 0x550c7dc3, 0x699435ca, 0x30c92d84, 0x6ccbc526, 0x8e84a4f9);
  }

  lemma Functions12()
    ensures BigSigma1(0x816fd6e9) == 0xccdee661 && Ch(0x816fd6e9, 0x436b23e8, 0x1cc92596) == 0x1deb23fe
    ensures BigSigma0(0xf71fc5a9) == 0x2f9eee48 && Maj(0xf71fc5a9, 0x4798a3f4, 0x8c87346b) == 0xc79fa5e9
    ensures BigSigma1(0x1e578218) == 0x08bb98f7 && Ch(0x1e578218, 0x816fd6e9, 0x436b23e8) == 0x416fa3e8
    ensures BigSigma0(0x87912990) == 0x29c634f3 && Maj(0x87912990, 0xf71fc5a9, 0x4798a3f4) == 0xc799a1b0
    ensures BigSigma1(0x745a48de) == 0x4f3b8d50 && Ch(0x745a48de, 0x1e578218, 0x816fd6e9) == 0x95779639
    ensures BigSigma0(0xd932eb16) == 0x25562836 && Maj(0xd932eb16, 0x87912990, 0xf71fc5a9) == 0xd713e990
    ensures BigSigma1(0x0b92f20c) == 0xb8d63f93 && Ch(0x0b92f20c, 0x745a48de, 0x1e578218) == 0x1457401c
    ensures BigSigma0(0xc0645fde) == 0xdf906fd4 && Maj(0xc0645fde, 0xd932eb16, 0x87912990) == 0xc1306b96
  {}

  lemma Turn12()
    ensures Round(Words(0xf71fc5a9, 0x4798a3f4, 0x8c87346b, 0x8e04ecb9, 0x816fd6e9, 0x436b23e8, 0x1cc92596, 0x32ca2d8c), 0x72be5d74) == Words(0x87912990, 0xf71fc5a9, 0x4798a3f4, 0x8c87346b, 0x1e578218, 0x816fd6e9, 0x436b23e8, 0x1cc92596)
    ensures Round(Words(0x87912990, 0xf71fc5a9, 0x4798a3f4, 0x8c87346b, 0x1e578218, 0x816fd6e9, 0x436b23e8, 0x1cc92596), 0x80deb1fe) == Words(0xd932eb16, 0x87912990, 0xf71fc5a9, 0x4798a3f4, 0x745a48de, 0x1e578218, 0x816fd6e9, 0x436b23e8)
    ensures Round(Words(0xd932eb16, 0x87912990, 0xf71fc5a9, 0x4798a3f4, 0x745a48de, 0x1e578218, 0x816fd6e9, 0x436b23e8), 0x9bdc06a7) == Words(0xc0645fde, 0xd932eb16, 0x87912990, 0xf71fc5a9, 0x0b92f20c, 0x745a48de, 0x1e578218, 0x816fd6e9)
    ensures Round(Words(0xc0645fde, 0xd932eb16, 0x87912990, 0xf71fc5a9, 0x0b92f20c, 0x745a48de, 0x1e578218, 0x816fd6e9), 0xc19bf18c) == Words(0xb0fa238e, 0xc0645fde, 0xd932eb16, 0x87912990, 0x07590dcd, 0x0b92f20c, 0x745a48de, 0x1e578218)
  {
    hide BigSigma0, BigSigma1, Ch, Maj, Round;
    Functions12();
    OneRound(Words(0xf71fc5a9, 0x4798a3f4, 0x8c87346b, 0x8e04ecb9, 0x816fd6e9, 0x436b23e8, 0x1cc92596, 0x32ca2d8c), 0x72be5d74, 0xccdee661, 0x1deb23fe, 0x2f9eee48, 0xc79fa5e9);
    OneRound(Words(0x87912990, 0xf71fc5a9, 0x4798a3f4, 0x8c87346b, 0x1e578218, 0x816fd6e9, 0x436b23e8, 0x1cc92596), 0x80deb1fe, 0x08bb98f7, 0x416fa3e8, 0x29c634f3, 0xc799a1b0);
    OneRound(Words(0xd932eb16, 0x87912990, 0xf71fc5a9, 0x4798a3f4, 0x745a48de, 0x1e578218, 0x816fd6e9, 0x436b23e8), 0x9bdc06a7, 0x4f3b8d50, 0x95779639, 0x25562836, 0xd713e990);
    OneRound(Words(0xc0645fde, 0xd932eb16, 0x87912990, 0xf71fc5a9, 0x0b92f20c, 0x745a48de, 0x1e578218, 0x816fd6e9), 0xc19bf18c, 0xb8d63f93, 0x1457401c, 0xdf906fd4, 0xc1306b96);
  }

  lemma Functions16()
    ensures BigSigma1(0x07590dcd) == 0x213b6995 && Ch(0x07590dcd, 0x0b92f20c, 0x745a48de) == 0x7312401e
    ensures BigSigma0(0xb0fa238e) == 0x58c535f1 && Maj(0xb0fa238e, 0xc0645fde, 0xd932eb16) == 0xd0726b9e
    ensures BigSigma1(0x8034229c) == 0x3b81984e && Ch(0x8034229c, 0x07590dcd, 0x0b92f20c) == 0x0b92d08c
    ensures BigSigma0(0x21da9a9b) == 0x76c5c4f5 && Maj(0x21da9a9b, 0xb0fa238e, 0xc0645fde) == 0xa0fa1b9e
    ensures BigSigma1(0x846ee454) == 0xeff31c0f && Ch(0x846ee454, 0x8034229c, 0x07590dcd) == 0x8335299d
    ensures BigSigma0(0xc2fbd9d1) == 0x5157a6a1 && Maj(0xc2fbd9d1, 0x21da9a9b, 0xb0fa238e) == 0xa0fa9b9b
    ensures BigSigma1(0xcc899961) == 0xefc707b0 && Ch(0xcc899961, 0x846ee454, 0x8034229c) == 0x843ca2dc
    ensures BigSigma0(0xfe777bbf) == 0xff8cd2ad && Maj(0xfe777bbf, 0xc2fbd9d1, 0x21da9a9b) == 0xe2fbdb9b
  {}

  lemma Turn16()
    ensures Round(Words(0xb0fa238e, 0xc0645fde, 0xd932eb16, 0x87912990, 0x07590dcd, 0x0b92f20c, 0x745a48de, 0x1e578218), 0x45fdcd41) == Words(0x21da9a9b, 0xb0fa238e, 0xc0645fde, 0xd932eb16, 0x8034229c, 0x07590dcd, 0x0b92f20c, 0x745a48de)
    ensures Round(Words(0x21da9a9b, 0xb0fa238e, 0xc0645fde, 0xd932eb16, 0x8034229c, 0x07590dcd, 0x0b92f20c, 0x745a48de), 0xefcd4786) == Words(0xc2fbd9d1, 0x21da9a9b, 0xb0fa238e, 0xc0645fde, 0x846ee454, 0x8034229c, 0x07590dcd, 0x0b92f20c)
    ensures Round(Words(0xc2fbd9d1, 0x21da9a9b, 0xb0fa238e, 0xc0645fde, 0x846ee454, 0x8034229c, 0x07590dcd, 0x0b92f20c), 0x8d6a01cb) == Words(0xfe777bbf, 0xc2fbd9d1, 0x21da9a9b, 0xb0fa238e, 0xcc899961, 0x846ee454, 0x8034229c, 0x07590dcd)
    ensures Round(Words(0xfe777bbf, 0xc2fbd9d1, 0x21da9a9b, 0xb0fa238e, 0xcc899961, 0x846ee454, 0x8034229c, 0x07590dcd), 0x840ca592) == Words(0xe1f20c33, 0xfe777bbf, 0xc2fbd9d1, 0x21da9a9b, 0xb0638179, 0xcc899961, 0x846ee454, 0x8034229c)
  {
    hide BigSigma0, BigSigma1, Ch, Maj, Round;
    Functions16();
    OneRound(Words(0xb0fa238e, 0xc0645fde, 0xd932eb16, 0x87912990, 0x07590dcd, 0x0b92f20c, 0x745a48de, 0x1e578218), 0x45fdcd41, 0x213b6995, 0x7312401e, 0x58c535f1, 0xd0726b9e);
    OneRound(Words(0x21da9a9b, 0xb0fa238e, 0xc0645fde, 0xd932eb16, 0x8034229c, 0x07590dcd, 0x0b92f20c, 0x745a48de), 0xefcd4786, 0x3b81984e, 0x0b92d08c, 0x76c5c4f5, 0xa0fa1b9e);
    OneRound(Words(0xc2fbd9d1, 0x21da9a9b, 0xb0fa238e, 0xc0645fde, 0x846ee454, 0x8034229c, 0x07590dcd, 0x0b92f20c), 0x8d6a01cb, 0xeff31c0f, 0x8335299d, 0x5157a6a1, 0xa0fa9b9b);
    OneRound(Words(0xfe777bbf, 0xc2fbd9d1, 0x21da9a9b, 0xb0fa238e, 0xcc899961, 0x846ee454, 0x8034229c, 0x07590dcd), 0x840ca592, 0xefc707b0, 0x843ca2dc, 0xff8cd2ad, 0xe2fbdb9b);
  }

  lemma Functions20()
    ensures BigSigma1(0xb0638179) == 0xf8373ead && Ch(0xb0638179, 0xcc899961, 0x846ee454) == 0x840de565
    ensures BigSigma0(0xe1f20c33) == 0x51d3431b && Maj(0xe1f20c33, 0xfe777bbf, 0xc2fbd9d1) == 0xe2f359b3
    ensures BigSigma1(0x8ada8930) == 0x897ea930 && Ch(0x8ada8930, 0xb0638179, 0xcc899961) == 0xc4439171
    ensures BigSigma0(0x9dc68b63) == 0xa640c29b && Maj(0x9dc68b63, 0xe1f20c33, 0xfe777bbf) == 0xfdf60b33
    ensures BigSigma1(0xe1257970) == 0x7f24093a && Ch(0xe1257970, 0x8ada8930, 0xb0638179) == 0x90428939
    ensures BigSigma0(0xc2606d6d) == 0x9a43bf51 && Maj(0xc2606d6d, 0x9dc68b63, 0xe1f20c33) == 0xc1e20d63
    ensures BigSigma1(0x49f5114a) == 0xfae64fc3 && Ch(0x49f5114a, 0xe1257970, 0x8ada8930) == 0xc32f9970
    ensures BigSigma0(0xa7a3623f) == 0x759d1b0a && Maj(0xa7a3623f, 0xc2606d6d, 0x9dc68b63) == 0x87e26b6f
  {}

  lemma Turn20()
    ensures Round(Words(0xe1f20c33, 0xfe777bbf, 0xc2fbd9d1, 0x21da9a9b, 0xb0638179, 0xcc899961, 0x846ee454, 0x8034229c), 0x6c86a7e7) == Words(0x9dc68b63, 0xe1f20c33, 0xfe777bbf, 0xc2fbd9d1, 0x8ada8930, 0xb0638179, 0xcc899961, 0x846ee454)
    ensures Round(Words(0x9dc68b63, 0xe1f20c33, 0xfe777bbf, 0xc2fbd9d1, 0x8ada8930, 0xb0638179, 0xcc899961, 0x846ee454), 0x4bf880aa) == Words(0xc2606d6d, 0x9dc68b63, 0xe1f20c33, 0xfe777bbf, 0xe1257970, 0x8ada8930, 0xb0638179, 0xcc899961)
    ensures Round(Words(0xc2606d6d, 0x9dc68b63, 0xe1f20c33, 0xfe777bbf, 0xe1257970, 0x8ada8930, 0xb0638179, 0xcc899961), 0x6f8d69b7) == Words(0xa7a3623f, 0xc2606d6d, 0x9dc68b63, 0xe1f20c33, 0x49f5114a, 0xe1257970, 0x8ada8930, 0xb0638179)
    ensures Round(Words(0xa7a3623f, 0xc2606d6d, 0x9dc68b63, 0xe1f20c33, 0x49f5114a, 0xe1257970, 0x8ada8930, 0xb0638179), 0x59dc4c68) == Words(0xc5d53d8d, 0xa7a3623f, 0xc2606d6d, 0x9dc68b63, 0xaa47c347, 0x49f5114a, 0xe1257970, 0x8ada8930)
  {
    hide BigSigma0, BigSigma1, Ch, Maj, Round;
    Functions20();
    OneRound(Words(0xe1f20c33, 0xfe777bbf, 0xc2fbd9d1, 0x21da9a9b, 0xb0638179, 0xcc899961, 0x846ee454, 0x8034229c), 0x6c86a7e7, 0xf8373ead, 0x840de565, 0x51d3431b, 0xe2f359b3);
    OneRound(Words(0x9dc68b63, 0xe1f20c33, 0xfe777bbf, 0xc2fbd9d1, 0x8ada8930, 0xb0638179, 0xcc899961, 0x846ee454), 0x4bf880aa, 0x897ea930, 0xc4439171, 0xa640c29b, 0xfdf60b33);
    OneRound(Words(0xc2606d6d, 0x9dc68b63, 0xe1f20c33, 0xfe777bbf, 0xe1257970, 0x8ada8930, 0xb0638179, 0xcc899961), 0x6f8d69b7, 0x7f24093a, 0x90428939, 0x9a43bf51, 0xc1e20d63);
    OneRound(Words(0xa7a3623f, 0xc2606d6d, 0x9dc68b63, 0xe1f20c33, 0x49f5114a, 0xe1257970, 0x8ada8930, 0xb0638179), 0x59dc4c68, 0xfae64fc3, 0xc32f9970, 0x759d1b0a, 0x87e26b6f);
  }

  lemma Functions24()
    ensures BigSigma1(0xaa47c347) == 0x55bdf420 && Ch(0xaa47c347, 0x49f5114a, 0xe1257970) == 0x49653972
    ensures BigSigma0(0xc5d53d8d) == 0xc9ed56dd && Maj(0xc5d53d8d, 0xa7a3623f, 0xc2606d6d) == 0xc7e16d2d
    ensures BigSigma1(0x2823ef91) == 0xa7724357 && Ch(0x2823ef91, 0xaa47c347, 0x49f5114a) == 0x69d7d34b
    ensures BigSigma0(0x1c2c2838) == 0xf66b0b1f && Maj(0x1c2c2838, 0xc5d53d8d, 0xa7a3623f) == 0x85a5283d
    ensures BigSigma1(0x14383d8e) == 0x958ca0fb && Ch(0x14383d8e, 0x2823ef91, 0xaa47c347) == 0xaa67efc1
    ensures BigSigma0(0xcde8037d) == 0xc89998a8 && Maj(0xcde8037d, 0x1c2c2838, 0xc5d53d8d) == 0xcdec293d
    ensures BigSigma1(0xc74c6516) == 0x5ff7537b && Ch(0xc74c6516, 0x14383d8e, 0x2823ef91) == 0x2c2baf87
    ensures BigSigma0(0xb62ec4bc) == 0xb37cf281 && Maj(0xb62ec4bc, 0xcde8037d, 0x1c2c2838) == 0x9c2c003c
  {}

  lemma Turn24()
    ensures Round(Words(0xc5d53d8d, 0xa7a3623f, 0xc2606d6d, 0x9dc68b63, 0xaa47c347, 0x49f5114a, 0xe1257970, 0x8ada8930), 0x605fad6c) == Words(0x1c2c2838, 0xc5d53d8d, 0xa7a3623f, 0xc2606d6d, 0x2823ef91, 0xaa47c347, 0x49f5114a, 0xe1257970)
    ensures Round(Words(0x1c2c2838, 0xc5d53d8d, 0xa7a3623f, 0xc2606d6d, 0x2823ef91, 0xaa47c347, 0x49f5114a, 0xe1257970), 0x5f68400f) == Words(0xcde8037d, 0x1c2c2838, 0xc5d53d8d, 0xa7a3623f, 0x14383d8e, 0x2823ef91, 0xaa47c347, 0x49f5114a)
    ensures Round(Words(0xcde8037d, 0x1c2c2838, 0xc5d53d8d, 0xa7a3623f, 0x14383d8e, 0x2823ef91, 0xaa47c347, 0x49f5114a), 0x95bf60d1) == Words(0xb62ec4bc, 0xcde8037d, 0x1c2c2838, 0xc5d53d8d, 0xc74c6516, 0x14383d8e, 0x2823ef91, 0xaa47c347)
    ensures Round(Words(0xb62ec4bc, 0xcde8037d, 0x1c2c2838, 0xc5d53d8d, 0xc74c6516, 0x14383d8e, 0x2823ef91, 0xaa47c347), 0xf1bfbc22) == Words(0x77d37528, 0xb62ec4bc, 0xcde8037d, 0x1c2c2838, 0xedffbff8, 0xc74c6516, 0x14383d8e, 0x2823ef91)
  {
    hide BigSigma0, BigSigma1, Ch, Maj, Round;
    Functions24();
    OneRound(Words(0xc5d53d8d, 0xa7a3623f, 0xc2606d6d, 0x9dc68b63, 0xaa47c347, 0x49f5114a, 0xe1257970, 0x8ada8930), 0x605fad6c, 0x55bdf420, 0x49653972, 0xc9ed56dd, 0xc7e16d2d);
    OneRound(Words(0x1c2c2838, 0xc5d53d8d, 0xa7a3623f, 0xc2606d6d, 0x2823ef91, 0xaa47c347, 0x49f5114a, 0xe1257970), 0x5f68400f, 0xa7724357, 0x69d7d34b, 0xf66b0b1f, 0x85a5283d);
    OneRound(Words(0xcde8037d, 0x1c2c2838, 0xc5d53d8d, 0xa7a3623f, 0x14383d8e, 0x2823ef91, 0xaa47c347, 0x49f5114a), 0x95bf60d1, 0x958ca0fb, 0xaa67efc1, 0xc89998a8, 0xcdec293d);
    OneRound(Words(0xb62ec4bc, 0xcde8037d, 0x1c2c2838, 0xc5d53d8d, 0xc74c6516, 0x14383d8e, 0x2823ef91, 0xaa47c347), 0xf1bfbc22, 0x5ff7537b, 0x2c2baf87, 0xb37cf281, 0x9c2c003c);
  }

  lemma Functions28()
    ensures BigSigma1(0xedffbff8) == 0xe375bd7e && Ch(0xedffbff8, 0xc74c6516, 0x14383d8e) == 0xd54c2516
    ensures BigSigma0(0x77d37528) == 0xf963c20e && Maj(0x77d37528, 0xb62ec4bc, 0xcde8037d) == 0xf7ea453c
    ensures BigSigma1(0x6112a3b7) == 0x2239b36a && Ch(0x6112a3b7, 0xedffbff8, 0xc74c6516) == 0xe75ee7b0
    ensures BigSigma0(0x363482c9) == 0x89cfb5ce && Maj(0x363482c9, 0x77d37528, 0xb62ec4bc) == 0x3636c4a8
    ensures BigSigma1(0xade79437) == 0xab883974 && Ch(0xade79437, 0x6112a3b7, 0xedffbff8) == 0x611aabff
    ensures BigSigma0(0xa0060b30) == 0x69a8407c && Maj(0xa0060b30, 0x363482c9, 0x77d37528) == 0x36160328
    ensures BigSigma1(0x0109ab3a) == 0x0b919a99 && Ch(0x0109ab3a, 0xade79437, 0x6112a3b7) == 0x611380b7
    ensures BigSigma0(0xea992a22) == 0x8f1995eb && Maj(0xea992a22, 0xa0060b30, 0x363482c9) == 0xa2140a20
  {}

  lemma Turn28()
    ensures Round(Words(0x77d37528, 0xb62ec4bc, 0xcde8037d, 0x1c2c2838, 0xedffbff8, 0xc74c6516, 0x14383d8e, 0x2823ef91), 0x6400a95a) == Words(0x363482c9, 0x77d37528, 0xb62ec4bc, 0xcde8037d, 0x6112a3b7, 0xedffbff8, 0xc74c6516, 0x14383d8e)
    ensures Round(Words(0x363482c9, 0x77d37528, 0xb62ec4bc, 0xcde8037d, 0x6112a3b7, 0xedffbff8, 0xc74c6516, 0x14383d8e), 0xc22eb812) == Words(0xa0060b30, 0x363482c9, 0x77d37528, 0xb62ec4bc, 0xade79437, 0x6112a3b7, 0xedffbff8, 0xc74c6516)
    ensures Round(Words(0xa0060b30, 0x363482c9, 0x77d37528, 0xb62ec4bc, 0xade79437, 0x6112a3b7, 0xedffbff8, 0xc74c6516), 0x76eb9bf5) == Words(0xea992a22, 0xa0060b30, 0x363482c9, 0x77d37528, 0x0109ab3a, 0xade79437, 0x6112a3b7, 0xedffbff8)
    ensures Round(Words(0xea992a22, 0xa0060b30, 0x363482c9, 0x77d37528, 0x0109ab3a, 0xade79437, 0x6112a3b7, 0xedffbff8), 0xe7e0c0a2) == Words(0x73b33bf5, 0xea992a22, 0xa0060b30, 0x363482c9, 0xba591112, 0x0109ab3a, 0xade79437, 0x6112a3b7)
  {
    hide BigSigma0, BigSigma1, Ch, Maj, Round;
    Functions28();
    OneRound(Words(0x77d37528, 0xb62ec4bc, 0xcde8037d, 0x1c2c2838, 0xedffbff8, 0xc74c6516, 0x14383d8e, 0x2823ef91), 0x6400a95a, 0xe375bd7e, 0xd54c2516, 0xf963c20e, 0xf7ea453c);
    OneRound(Words(0x363482c9, 0x77d37528, 0xb62ec4bc, 0xcde8037d, 0x6112a3b7, 0xedffbff8, 0xc74c6516, 0x14383d8e), 0xc22eb812, 0x2239b36a, 0xe75ee7b0, 0x89cfb5ce, 0x3636c4a8);
    OneRound(Words(0xa0060b30, 0x363482c9, 0x77d37528, 0xb62ec4bc, 0xade79437, 0x6112a3b7, 0xedffbff8, 0xc74c6516), 0x76eb9bf5, 0xab883974, 0x611aabff, 0x69a8407c, 0x36160328);
    OneRound(Words(0xea992a22, 0xa0060b30, 0x363482c9, 0x77d37528, 0x0109ab3a, 0xade79437, 0x6112a3b7, 0xedffbff8), 0xe7e0c0a2, 0x0b919a99, 0x611380b7, 0x8f1995eb, 0xa2140a20);
  }

  lemma Functions32()
    ensures BigSigma1(0xba591112) == 0x4436a63b && Ch(0xba591112, 0x0109ab3a, 0xade79437) == 0x05af8537
    ensures BigSigma0(0x73b33bf5) == 0x4fa886aa && Maj(0x73b33bf5, 0xea992a22, 0xa0060b30) == 0xe2932b30
    ensures BigSigma1(0x9cd9f5f6) == 0x085a07a7 && Ch(0x9cd9f5f6, 0xba591112, 0x0109ab3a) == 0x99591b1a
    ensures BigSigma0(0x98e12507) == 0x4a90902b && Maj(0x98e12507, 0x73b33bf5, 0xea992a22) == 0xfab12b27
    ensures BigSigma1(0x59249dd3) == 0x65415f48 && Ch(0x59249dd3, 0x9cd9f5f6, 0xba591112) == 0xba5995d2
    ensures BigSigma0(0xfe604df5) == 0x91003786 && Maj(0xfe604df5, 0x98e12507, 0x73b33bf5) == 0xfae12df5
    ensures BigSigma1(0x085f3833) == 0xe5dc6e83 && Ch(0x085f3833, 0x59249dd3, 0x9cd9f5f6) == 0x9c84ddd7
    ensures BigSigma0(0xa9a7738c) == 0x2bc2a37e && Maj(0xa9a7738c, 0xfe604df5, 0x98e12507) == 0xb8e16585
  {}

  lemma Turn32()
    ensures Round(Words(0x73b33bf5, 0xea992a22, 0xa0060b30, 0x363482c9, 0xba591112, 0x0109ab3a, 0xade79437, 0x6112a3b7), 0xbbaca404) == Words(0x98e12507, 0x73b33bf5, 0xea992a22, 0xa0060b30, 0x9cd9f5f6, 0xba591112, 0x0109ab3a, 0xade79437)
    ensures Round(Words(0x98e12507, 0x73b33bf5, 0xea992a22, 0xa0060b30, 0x9cd9f5f6, 0xba591112, 0x0109ab3a, 0xade79437), 0x6983dbab) == Words(0xfe604df5, 0x98e12507, 0x73b33bf5, 0xea992a22, 0x59249dd3, 0x9cd9f5f6, 0xba591112, 0x0109ab3a)
    ensures Round(Words(0xfe604df5, 0x98e12507, 0x73b33bf5, 0xea992a22, 0x59249dd3, 0x9cd9f5f6, 0xba591112, 0x0109ab3a), 0xfd216dbd) == Words(0xa9a7738c, 0xfe604df5, 0x98e12507, 0x73b33bf5, 0x085f3833, 0x59249dd3, 0x9cd9f5f6, 0xba591112)
    ensures Round(Words(0xa9a7738c, 0xfe604df5, 0x98e12507, 0x73b33bf5, 0x085f3833, 0x59249dd3, 0x9cd9f5f6, 0xba591112), 0x44426975) == Words(0x65a0cfe4, 0xa9a7738c, 0xfe604df5, 0x98e12507, 0xf4b002d6, 0x085f3833, 0x59249dd3, 0x9cd9f5f6)
  {
    hide BigSigma0, BigSigma1, Ch, Maj, Round;
    Functions32();
    OneRound(Words(0x73b33bf5, 0xea992a22, 0xa0060b30, 0x363482c9, 0xba591112, 0x0109ab3a, 0xade79437, 0x6112a3b7), 0xbbaca404, 0x4436a63b, 0x05af8537, 0x4fa886aa, 0xe2932b30);
    OneRound(Words(0x98e12507, 0x73b33bf5, 0xea992a22, 0xa0060b30, 0x9cd9f5f6, 0xba591112, 0x0109ab3a, 0xade79437), 0x6983dbab, 0x085a07a7, 0x99591b1a, 0x4a90902b, 0xfab12b27);
    OneRound(Words(0xfe604df5, 0x98e12507, 0x73b33bf5, 0xea992a22, 0x59249dd3, 0x9cd9f5f6, 0xba591112, 0x0109ab3a), 0xfd216dbd, 0x65415f48, 0xba5995d2, 0x91003786, 0xfae12df5);
    OneRound(Words(0xa9a7738c, 0xfe604df5, 0x98e12507, 0x73b33bf5, 0x085f3833, 0x59249dd3, 0x9cd9f5f6, 0xba591112), 0x44426975, 0xe5dc6e83, 0x9c84ddd7, 0x2bc2a37e, 0xb8e16585);
  }

  lemma Functions36()
    ensures BigSigma1(0xf4b002d6) == 0x590d3d71 && Ch(0xf4b002d6, 0x085f3833, 0x59249dd3) == 0x09149d13
    ensures BigSigma0(0x65a0cfe4) == 0xe5748f69 && Maj(0x65a0cfe4, 0xa9a7738c, 0xfe604df5) == 0xeda04fe4
    ensures BigSigma1(0x0772a26b) == 0x582c115e && Ch(0x0772a26b, 0xf4b002d6, 0x085f3833) == 0x0c3d1a52
    ensures BigSigma0(0x41a65cb1) == 0x2c915f18 && Maj(0x41a65cb1, 0x65a0cfe4, 0xa9a7738c) == 0x61a65fa4
    ensures BigSigma1(0xa507a53d) == 0xd2f220b2 && Ch(0xa507a53d, 0x0772a26b, 0xf4b002d6) == 0x55b2a2eb
    ensures BigSigma0(0x34df1604) == 0xc14e73aa && Maj(0x34df1604, 0x41a65cb1, 0x65a0cfe4) == 0x65a65ea4
    ensures BigSigma1(0xf0781bc8) == 0x66d20b14 && Ch(0xf0781bc8, 0xa507a53d, 0x0772a26b) == 0xa702a12b
    ensures BigSigma0(0x6dc57a8a) == 0x5ac8193e && Maj(0x6dc57a8a, 0x34df1604, 0x41a65cb1) == 0x65c75e80
  {}

  lemma Turn36()
    ensures Round(Words(0x65a0cfe4, 0xa9a7738c, 0xfe604df5, 0x98e12507, 0xf4b002d6, 0x085f3833, 0x59249dd3, 0x9cd9f5f6), 0x6f95acea) == Words(0x41a65cb1, 0x65a0cfe4, 0xa9a7738c, 0xfe604df5, 0x0772a26b, 0xf4b002d6, 0x085f3833, 0x59249dd3)
    ensures Round(Words(0x41a65cb1, 0x65a0cfe4, 0xa9a7738c, 0xfe604df5, 0x0772a26b, 0xf4b002d6, 0x085f3833, 0x59249dd3), 0xe9198dc5) == Words(0x34df1604, 0x41a65cb1, 0x65a0cfe4, 0xa9a7738c, 0xa507a53d, 0x0772a26b, 0xf4b002d6, 0x085f3833)
    ensures Round(Words(0x34df1604, 0x41a65cb1, 0x65a0cfe4, 0xa9a7738c, 0xa507a53d, 0x0772a26b, 0xf4b002d6, 0x085f3833), 0x15ccac6c) == Words(0x6dc57a8a, 0x34df1604, 0x41a65cb1, 0x65a0cfe4, 0xf0781bc8, 0xa507a53d, 0x0772a26b, 0xf4b002d6)
    ensures Round(Words(0x6dc57a8a, 0x34df1604, 0x41a65cb1, 0x65a0cfe4, 0xf0781bc8, 0xa507a53d, 0x0772a26b, 0xf4b002d6), 0xb6d641a7) == Words(0x79ea687a, 0x6dc57a8a, 0x34df1604, 0x41a65cb1, 0x1efbc0a0, 0xf0781bc8, 0xa507a53d, 0x0772a26b)
  {
    hide BigSigma0, BigSigma1, Ch, Maj, Round;
    Functions36();
    OneRound(Words(0x65a0cfe4, 0xa9a7738c, 0xfe604df5, 0x98e12507, 0xf4b002d6, 0x085f3833, 0x59249dd3, 0x9cd9f5f6), 0x6f95acea, 0x590d3d71, 0x09149d13, 0xe5748f69, 0xeda04fe4);
    OneRound(Words(0x41a65cb1, 0x65a0cfe4, 0xa9a7738c, 0xfe604df5, 0x0772a26b, 0xf4b002d6, 0x085f3833, 0x59249dd3), 0xe9198dc5, 0x582c115e, 0x0c3d1a52, 0x2c915f18, 0x61a65fa4);
    OneRound(Words(0x34df1604, 0x41a65cb1, 0x65a0cfe4, 0xa9a7738c, 0xa507a53d, 0x0772a26b, 0xf4b002d6, 0x085f3833), 0x15ccac6c, 0xd2f220b2, 0x55b2a2eb, 0xc14e73aa, 0x65a65ea4);
    OneRound(Words(0x6dc57a8a, 0x34df1604, 0x41a65cb1, 0x65a0cfe4, 0xf0781bc8, 0xa507a53d, 0x0772a26b, 0xf4b002d6), 0xb6d641a7, 0x66d20b14, 0xa702a12b, 0x5ac8193e, 0x65c75e80);
  }

  lemma Functions40()
    ensures BigSigma1(0x1efbc0a0) == 0xe9986075 && Ch(0x1efbc0a0, 0xf0781bc8, 0xa507a53d) == 0xb17c259d
    ensures BigSigma0(0x79ea687a) == 0x7408bcaa && Maj(0x79ea687a, 0x6dc57a8a, 0x34df1604) == 0x7dcf7a0a
    ensures BigSigma1(0x26352d63) == 0x3a6aa383 && Ch(0x26352d63, 0x1efbc0a0, 0xf0781bc8) == 0xd67912a8
    ensures BigSigma0(0xd6670766) == 0x12b2e9b8 && Maj(0xd6670766, 0x79ea687a, 0x6dc57a8a) == 0x7de76a6a
    ensures BigSigma1(0x838b2711) == 0x61add539 && Ch(0x838b2711, 0x26352d63, 0x1efbc0a0) == 0x1e71e5a1
    ensures BigSigma0(0xdf46652f) == 0xc73bdc05 && Maj(0xdf46652f, 0xd6670766, 0x79ea687a) == 0xdf66656e
    ensures BigSigma1(0xdecd4715) == 0xd363665b && Ch(0xdecd4715, 0x838b2711, 0x26352d63) == 0xa2b92f73
    ensures BigSigma0(0x17aa0dfe) == 0x422dc671 && Maj(0x17aa0dfe, 0xdf46652f, 0xd6670766) == 0xd766056e
  {}

  lemma Turn40()
    ensures Round(Words(0x79ea687a, 0x6dc57a8a, 0x34df1604, 0x41a65cb1, 0x1efbc0a0, 0xf0781bc8, 0xa507a53d, 0x0772a26b), 0x4207a835) == Words(0xd6670766, 0x79ea687a, 0x6dc57a8a, 0x34df1604, 0x26352d63, 0x1efbc0a0, 0xf0781bc8, 0xa507a53d)
    ensures Round(Words(0xd6670766, 0x79ea687a, 0x6dc57a8a, 0x34df1604, 0x26352d63, 0x1efbc0a0, 0xf0781bc8, 0xa507a53d), 0x98c0b5a5) == Words(0xdf46652f, 0xd6670766, 0x79ea687a, 0x6dc57a8a, 0x838b2711, 0x26352d63, 0x1efbc0a0, 0xf0781bc8)
    ensures Round(Words(0xdf46652f, 0xd6670766, 0x79ea687a, 0x6dc57a8a, 0x838b2711, 0x26352d63, 0x1efbc0a0, 0xf0781bc8), 0x006ff5e9) == Words(0x17aa0dfe, 0xdf46652f, 0xd6670766, 0x79ea687a, 0xdecd4715, 0x838b2711, 0x26352d63, 0x1efbc0a0)
    ensures Round(Words(0x17aa0dfe, 0xdf46652f, 0xd6670766, 0x79ea687a, 0xdecd4715, 0x838b2711, 0x26352d63, 0x1efbc0a0), 0xee9f8d46) == Words(0x9d4baf93, 0x17aa0dfe, 0xdf46652f, 0xd6670766, 0xfda24c2e, 0xdecd4715, 0x838b2711, 0x26352d63)
  {
    hide BigSigma0, BigSigma1, Ch, Maj, Round;
    Functions40();
    OneRound(Words(0x79ea687a, 0x6dc57a8a, 0x34df1604, 0x41a65cb1, 0x1efbc0a0, 0xf0781bc8, 0xa507a53d, 0x0772a26b), 0x4207a835, 0xe9986075, 0xb17c259d, 0x7408bcaa, 0x7dcf7a0a);
    OneRound(Words(0xd6670766, 0x79ea687a, 0x6dc57a8a, 0x34df1604, 0x26352d63, 0x1efbc0a0, 0xf0781bc8, 0xa507a53d), 0x98c0b5a5, 0x3a6aa383, 0xd67912a8, 0x12b2e9b8, 0x7de76a6a);
    OneRound(Words(0xdf46652f, 0xd6670766, 0x79ea687a, 0x6dc57a8a, 0x838b2711, 0x26352d63, 0x1efbc0a0, 0xf0781bc8), 0x006ff5e9, 0x61add539, 0x1e71e5a1, 0xc73bdc05, 0xdf66656e);
    OneRound(Words(0x17aa0dfe, 0xdf46652f, 0xd6670766, 0x79ea687a, 0xdecd4715, 0x838b2711, 0x26352d63, 0x1efbc0a0), 0xee9f8d46, 0xd363665b, 0xa2b92f73, 0x422dc671, 0xd766056e);
  }

  lemma Functions44()
    ensures BigSigma1(0xfda24c2e) == 0xef0f2a07 && Ch(0xfda24c2e, 0xdecd4715, 0x838b2711) == 0xde896715
    ensures BigSigma0(0x9d4baf93) == 0xb5704fcc && Maj(0x9d4baf93, 0x17aa0dfe, 0xdf46652f) == 0x9f4a2dbf
    ensures BigSigma1(0xa80f11f0) == 0xfb3dc5f1 && Ch(0xa80f11f0, 0xfda24c2e, 0xdecd4715) == 0xfec24625
    ensures BigSigma0(0x26628815) == 0x8311c588 && Maj(0x26628815, 0x9d4baf93, 0x17aa0dfe) == 0x176a8d97
    ensures BigSigma1(0xb7755da1) == 0x8845eb06 && Ch(0xb7755da1, 0xa80f11f0, 0xfda24c2e) == 0xe88711ae
    ensures BigSigma0(0x72ab4b91) == 0xad0f0274 && Maj(0x72ab4b91, 0x26628815, 0x9d4baf93) == 0x366b8b91
    ensures BigSigma1(0xd57b94a9) == 0x8fa515ca && Ch(0xd57b94a9, 0xb7755da1, 0xa80f11f0) == 0xbd7515f1
    ensures BigSigma0(0xa14c14b0) == 0xbd84cdc9 && Maj(0xa14c14b0, 0x72ab4b91, 0x26628815) == 0x226a0891
  {}

  lemma Turn44()
    ensures Round(Words(0x9d4baf93, 0x17aa0dfe, 0xdf46652f, 0xd6670766, 0xfda24c2e, 0xdecd4715, 0x838b2711, 0x26352d63), 0xddda4c0b) == Words(0x26628815, 0x9d4baf93, 0x17aa0dfe, 0xdf46652f, 0xa80f11f0, 0xfda24c2e, 0xdecd4715, 0x838b2711)
    ensures Round(Words(0x26628815, 0x9d4baf93, 0x17aa0dfe, 0xdf46652f, 0xa80f11f0, 0xfda24c2e, 0xdecd4715, 0x838b2711), 0x5aa3c54b) == Words(0x72ab4b91, 0x26628815, 0x9d4baf93, 0x17aa0dfe, 0xb7755da1, 0xa80f11f0, 0xfda24c2e, 0xdecd4715)
    ensures Round(Words(0x72ab4b91, 0x26628815, 0x9d4baf93, 0x17aa0dfe, 0xb7755da1, 0xa80f11f0, 0xfda24c2e, 0xdecd4715), 0x6e3742e2) == Words(0xa14c14b0, 0x72ab4b91, 0x26628815, 0x9d4baf93, 0xd57b94a9, 0xb7755da1, 0xa80f11f0, 0xfda24c2e)
    ensures Round(Words(0xa14c14b0, 0x72ab4b91, 0x26628815, 0x9d4baf93, 0xd57b94a9, 0xb7755da1, 0xa80f11f0, 0xfda24c2e), 0x16c6e44a) == Words(0x4172328d, 0xa14c14b0, 0x72ab4b91, 0x26628815, 0xfecf0bc6, 0xd57b94a9, 0xb7755da1, 0xa80f11f0)
  {
    hide BigSigma0, BigSigma1, Ch, Maj, Round;
    Functions44();
    OneRound(Words(0x9d4baf93, 0x17aa0dfe, 0xdf46652f, 0xd6670766, 0xfda24c2e, 0xdecd4715, 0x838b2711, 0x26352d63), 0xddda4c0b, 0xef0f2a07, 0xde896715, 0xb5704fcc, 0x9f4a2dbf);
    OneRound(Words(0x26628815, 0x9d4baf93, 0x17aa0dfe, 0xdf46652f, 0xa80f11f0, 0xfda24c2e, 0xdecd4715, 0x838b2711), 0x5aa3c54b, 0xfb3dc5f1, 0xfec24625, 0x8311c588, 0x176a8d97);
    OneRound(Words(0x72ab4b91, 0x26628815, 0x9d4baf93, 0x17aa0dfe, 0xb7755da1, 0xa80f11f0, 0xfda24c2e, 0xdecd4715), 0x6e3742e2, 0x8845eb06, 0xe88711ae, 0xad0f0274, 0x366b8b91);
    OneRound(Words(0xa14c14b0, 0x72ab4b91, 0x26628815, 0x9d4baf93, 0xd57b94a9, 0xb7755da1, 0xa80f11f0, 0xfda24c2e), 0x16c6e44a, 0x8fa515ca, 0xbd7515f1, 0xbd84cdc9, 0x226a0891);
  }

  lemma Functions48()
    ensures BigSigma1(0xfecf0bc6) == 0x04a106b1 && Ch(0xfecf0bc6, 0xd57b94a9, 0xb7755da1) == 0xd57b54a1
    ensures BigSigma0(0x4172328d) == 0x0cfcb237 && Maj(0x4172328d, 0xa14c14b0, 0x72ab4b91) == 0x616a1291
    ensures BigSigma1(0xbd714038) == 0x5d427776 && Ch(0xbd714038, 0xfecf0bc6, 0xd57b94a9) == 0xfc4b9481
    ensures BigSigma0(0x05757ceb) == 0xf3f6d884 && Maj(0x05757ceb, 0x4172328d, 0xa14c14b0) == 0x017434a9
    ensures BigSigma1(0x6e5c390c) == 0x3e283d54 && Ch(0x6e5c390c, 0xbd714038, 0xfecf0bc6) == 0xbcd302ca
    ensures BigSigma0(0xf11bfaa8) == 0x86ebd5b1 && Maj(0xf11bfaa8, 0x05757ceb, 0x4172328d) == 0x41737aa9
    ensures BigSigma1(0x52f1ccf7) == 0x3b47e2a3 && Ch(0x52f1ccf7, 0x6e5c390c, 0xbd714038) == 0xef50080c
    ensures BigSigma0(0x7a0508a1) == 0x0fa817e8 && Maj(0x7a0508a1, 0xf11bfaa8, 0x05757ceb) == 0x711578a9
  {}

  lemma Turn48()
    ensures Round(Words(0x4172328d, 0xa14c14b0, 0x72ab4b91, 0x26628815, 0xfecf0bc6, 0xd57b94a9, 0xb7755da1, 0xa80f11f0), 0x14e34ae1) == Words(0x05757ceb, 0x4172328d, 0xa14c14b0, 0x72ab4b91, 0xbd714038, 0xfecf0bc6, 0xd57b94a9, 0xb7755da1)
    ensures Round(Words(0x05757ceb, 0x4172328d, 0xa14c14b0, 0x72ab4b91, 0xbd714038, 0xfecf0bc6, 0xd57b94a9, 0xb7755da1), 0xeaad83e3) == Words(0xf11bfaa8, 0x05757ceb, 0x4172328d, 0xa14c14b0, 0x6e5c390c, 0xbd714038, 0xfecf0bc6, 0xd57b94a9)
    ensures Round(Words(0xf11bfaa8, 0x05757ceb, 0x4172328d, 0xa14c14b0, 0x6e5c390c, 0xbd714038, 0xfecf0bc6, 0xd57b94a9), 0xe12ee380) == Words(0x7a0508a1, 0xf11bfaa8, 0x05757ceb, 0x4172328d, 0x52f1ccf7, 0x6e5c390c, 0xbd714038, 0xfecf0bc6)
    ensures Round(Words(0x7a0508a1, 0xf11bfaa8, 0x05757ceb, 0x4172328d, 0x52f1ccf7, 0x6e5c390c, 0xbd714038, 0xfecf0bc6), 0xde49f31c) == Words(0x886e7a22, 0x7a0508a1, 0xf11bfaa8, 0x05757ceb, 0x49231c1e, 0x52f1ccf7, 0x6e5c390c, 0xbd714038)
  {
    hide BigSigma0, BigSigma1, Ch, Maj, Round;
    Functions48();
    OneRound(Words(0x4172328d, 0xa14c14b0, 0x72ab4b91, 0x26628815, 0xfecf0bc6, 0xd57b94a9, 0xb7755da1, 0xa80f11f0), 0x14e34ae1, 0x04a106b1, 0xd57b54a1, 0x0cfcb237, 0x616a1291);
    OneRound(Words(0x05757ceb, 0x4172328d, 0xa14c14b0, 0x72ab4b91, 0xbd714038, 0xfecf0bc6, 0xd57b94a9, 0xb7755da1), 0xeaad83e3, 0x5d427776, 0xfc4b9481, 0xf3f6d884, 0x017434a9);
    OneRound(Words(0xf11bfaa8, 0x05757ceb, 0x4172328d, 0xa14c14b0, 0x6e5c390c, 0xbd714038, 0xfecf0bc6, 0xd57b94a9), 0xe12ee380, 0x3e283d54, 0xbcd302ca, 0x86ebd5b1, 0x41737aa9);
    OneRound(Words(0x7a0508a1, 0xf11bfaa8, 0x05757ceb, 0x4172328d, 0x52f1ccf7, 0x6e5c390c, 0xbd714038, 0xfecf0bc6), 0xde49f31c, 0x3b47e2a3, 0xef50080c, 0x0fa817e8, 0x711578a9);
  }

  lemma Functions52()
    ensures BigSigma1(0x49231c1e) == 0x6b63a737 && Ch(0x49231c1e, 0x52f1ccf7, 0x6e5c390c) == 0x667d2d16
    ensures BigSigma0(0x886e7a22) == 0xcae757da && Maj(0x886e7a22, 0x7a0508a1, 0xf11bfaa8) == 0xf80f7aa0
    ensures BigSigma1(0x529e7d00) == 0xee7eaa12 && Ch(0x529e7d00, 0x49231c1e, 0x52f1ccf7) == 0x40639cf7
    ensures BigSigma0(0x101fd28f) == 0x2f35481d && Maj(0x101fd28f, 0x886e7a22, 0x7a0508a1) == 0x180f5aa3
    ensures BigSigma1(0x9f4787c3) == 0x55cd1720 && Ch(0x9f4787c3, 0x529e7d00, 0x49231c1e) == 0x52261d1c
    ensures BigSigma0(0xf5702fdb) == 0x433ccfa2 && Maj(0xf5702fdb, 0x101fd28f, 0x886e7a22) == 0x907e7a8b
    ensures BigSigma1(0xe50e1b4f) == 0xd1653e5c && Ch(0xe50e1b4f, 0x9f4787c3, 0x529e7d00) == 0x97966743
    ensures BigSigma0(0x3ec45cdb) == 0x381b8def && Maj(0x3ec45cdb, 0xf5702fdb, 0x101fd28f) == 0x34545edb
  {}

  lemma Turn52()
    ensures Round(Words(0x886e7a22, 0x7a0508a1, 0xf11bfaa8, 0x05757ceb, 0x49231c1e, 0x52f1ccf7, 0x6e5c390c, 0xbd714038), 0xbdd6eb90) == Words(0x101fd28f, 0x886e7a22, 0x7a0508a1, 0xf11bfaa8, 0x529e7d00, 0x49231c1e, 0x52f1ccf7, 0x6e5c390c)
    ensures Round(Words(0x101fd28f, 0x886e7a22, 0x7a0508a1, 0xf11bfaa8, 0x529e7d00, 0x49231c1e, 0x52f1ccf7, 0x6e5c390c), 0x10ed0d06) == Words(0xf5702fdb, 0x101fd28f, 0x886e7a22, 0x7a0508a1, 0x9f4787c3, 0x529e7d00, 0x49231c1e, 0x52f1ccf7)
    ensures Round(Words(0xf5702fdb, 0x101fd28f, 0x886e7a22, 0x7a0508a1, 0x9f4787c3, 0x529e7d00, 0x49231c1e, 0x52f1ccf7), 0x7024117b) == Words(0x3ec45cdb, 0xf5702fdb, 0x101fd28f, 0x886e7a22, 0xe50e1b4f, 0x9f4787c3, 0x529e7d00, 0x49231c1e)
    ensures Round(Words(0x3ec45cdb, 0xf5702fdb, 0x101fd28f, 0x886e7a22, 0xe50e1b4f, 0x9f4787c3, 0x529e7d00, 0x49231c1e), 0x1a3dea8c) == Words(0x38cc9913, 0x3ec45cdb, 0xf5702fdb, 0x101fd28f, 0x54cb266b, 0xe50e1b4f, 0x9f4787c3, 0x529e7d00)
  {
    hide BigSigma0, BigSigma1, Ch, Maj, Round;
    Functions52();
    OneRound(Words(0x886e7a22, 0x7a0508a1, 0xf11bfaa8, 0x05757ceb, 0x49231c1e, 0x52f1ccf7, 0x6e5c390c, 0xbd714038), 0xbdd6eb90, 0x6b63a737, 0x667d2d16, 0xcae757da, 0xf80f7aa0);
    OneRound(Words(0x101fd28f, 0x886e7a22, 0x7a0508a1, 0xf11bfaa8, 0x529e7d00, 0x49231c1e, 0x52f1ccf7, 0x6e5c390c), 0x10ed0d06, 0xee7eaa12, 0x40639cf7, 0x2f35481d, 0x180f5aa3);
    OneRound(Words(0xf5702fdb, 0x101fd28f, 0x886e7a22, 0x7a0508a1, 0x9f4787c3, 0x529e7d00, 0x49231c1e, 0x52f1ccf7), 0x7024117b, 0x55cd1720, 0x52261d1c, 0x433ccfa2, 0x907e7a8b);
    OneRound(Words(0x3ec45cdb, 0xf5702fdb, 0x101fd28f, 0x886e7a22, 0xe50e1b4f, 0x9f4787c3, 0x529e7d00, 0x49231c1e), 0x1a3dea8c, 0xd1653e5c, 0x97966743, 0x381b8def, 0x34545edb);
  }

  lemma Functions56()
    ensures BigSigma1(0x54cb266b) == 0x05aa8057 && Ch(0x54cb266b, 0xe50e1b4f, 0x9f4787c3) == 0xcf0e83cb
    ensures BigSigma0(0x38cc9913) == 0x34ceacc3 && Maj(0x38cc9913, 0x3ec45cdb, 0xf5702fdb) == 0x3cc41ddb
    ensures BigSigma1(0x9b5e906c) == 0x10b627de && Ch(0x9b5e906c, 0x54cb266b, 0xe50e1b4f) == 0x744a0b6b
    ensures BigSigma0(0xfcd1887b) == 0xfaca6b61 && Maj(0xfcd1887b, 0x38cc9913, 0x3ec45cdb) == 0x3cc4985b
    ensures BigSigma1(0x7e44008e) == 0x0a369fbd && Ch(0x7e44008e, 0x9b5e906c, 0x54cb266b) == 0x1acf266d
    ensures BigSigma0(0xc062d46f) == 0xd837090c && Maj(0xc062d46f, 0xfcd1887b, 0x38cc9913) == 0xf8c0987b
    ensures BigSigma1(0x6d83bfc6) == 0x20a45dbe && Ch(0x6d83bfc6, 0x7e44008e, 0x9b5e906c) == 0xfe5c00ae
    ensures BigSigma0(0xffb70472) == 0x406bf75a && Maj(0xffb70472, 0xc062d46f, 0xfcd1887b) == 0xfcf3847b
  {}

  lemma Turn56()
    ensures Round(Words(0x38cc9913, 0x3ec45cdb, 0xf5702fdb, 0x101fd28f, 0x54cb266b, 0xe50e1b4f, 0x9f4787c3, 0x529e7d00), 0x63e73cbb) == Words(0xfcd1887b, 0x38cc9913, 0x3ec45cdb, 0xf5702fdb, 0x9b5e906c, 0x54cb266b, 0xe50e1b4f, 0x9f4787c3)
    ensures Round(Words(0xfcd1887b, 0x38cc9913, 0x3ec45cdb, 0xf5702fdb, 0x9b5e906c, 0x54cb266b, 0xe50e1b4f, 0x9f4787c3), 0x648c15a7) == Words(0xc062d46f, 0xfcd1887b, 0x38cc9913, 0x3ec45cdb, 0x7e44008e, 0x9b5e906c, 0x54cb266b, 0xe50e1b4f)
    ensures Round(Words(0xc062d46f, 0xfcd1887b, 0x38cc9913, 0x3ec45cdb, 0x7e44008e, 0x9b5e906c, 0x54cb266b, 0xe50e1b4f), 0x24ab8172) == Words(0xffb70472, 0xc062d46f, 0xfcd1887b, 0x38cc9913, 0x6d83bfc6, 0x7e44008e, 0x9b5e906c, 0x54cb266b)
    ensures Round(Words(0xffb70472, 0xc062d46f, 0xfcd1887b, 0x38cc9913, 0x6d83bfc6, 0x7e44008e, 0x9b5e906c, 0x54cb266b), 0x05838f53) == Words(0xb6ae8fff, 0xffb70472, 0xc062d46f, 0xfcd1887b, 0xb21bad3d, 0x6d83bfc6, 0x7e44008e, 0x9b5e906c)
  {
    hide BigSigma0, BigSigma1, Ch, Maj, Round;
    Functions56();
    OneRound(Words(0x38cc9913, 0x3ec45cdb, 0xf5702fdb, 0x101fd28f, 0x54cb266b, 0xe50e1b4f, 0x9f4787c3, 0x529e7d00), 0x63e73cbb, 0x05aa8057, 0xcf0e83cb, 0x34ceacc3, 0x3cc41ddb);
    OneRound(Words(0xfcd1887b, 0x38cc9913, 0x3ec45cdb, 0xf5702fdb, 0x9b5e906c, 0x54cb266b, 0xe50e1b4f, 0x9f4787c3), 0x648c15a7, 0x10b627de, 0x744a0b6b, 0xfaca6b61, 0x3cc4985b);
    OneRound(Words(0xc062d46f, 0xfcd1887b, 0x38cc9913, 0x3ec45cdb, 0x7e44008e, 0x9b5e906c, 0x54cb266b, 0xe50e1b4f), 0x24ab8172, 0x0a369fbd, 0x1acf266d, 0xd837090c, 0xf8c0987b);
    OneRound(Words(0xffb70472, 0xc062d46f, 0xfcd1887b, 0x38cc9913, 0x6d83bfc6, 0x7e44008e, 0x9b5e906c, 0x54cb266b), 0x05838f53, 0x20a45dbe, 0xfe5c00ae, 0x406bf75a, 0xfcf3847b);
  }

  lemma Functions60()
    ensures BigSigma1(0xb21bad3d) == 0x5ca8b318 && Ch(0xb21bad3d, 0x6d83bfc6, 0x7e44008e) == 0x6c47ad86
    ensures BigSigma0(0xb6ae8fff) == 0x2869e851 && Maj(0xb6ae8fff, 0xffb70472, 0xc062d46f) == 0xf6a6847f
    ensures BigSigma1(0x961f4894) == 0x4f6ef480 && Ch(0x961f4894, 0xb21bad3d, 0x6d83bfc6) == 0xfb9bbf56
    ensures BigSigma0(0xb85e2ce9) == 0x71e9ef2a && Maj(0xb85e2ce9, 0xb6ae8fff, 0xffb70472) == 0xbebe0cfb
    ensures BigSigma1(0x948d25b6) == 0x2a127e78 && Ch(0x948d25b6, 0x961f4894, 0xb21bad3d) == 0xb61f889d
    ensures BigSigma0(0x04d24d6c) == 0x236105da && Maj(0x04d24d6c, 0xb85e2ce9, 0xb6ae8fff) == 0xb4de0ded
    ensures BigSigma1(0xfb121210) == 0x88fa2277 && Ch(0xfb121210, 0x948d25b6, 0x961f4894) == 0x940d4894
    ensures BigSigma0(0xd39a2165) == 0x174d83c6 && Maj(0xd39a2165, 0x04d24d6c, 0xb85e2ce9) == 0x90da2d6d
  {}

  lemma Turn60()
    ensures Round(Words(0xb6ae8fff, 0xffb70472, 0xc062d46f, 0xfcd1887b, 0xb21bad3d, 0x6d83bfc6, 0x7e44008e, 0x9b5e906c), 0x34fecf0f) == Words(0xb85e2ce9, 0xb6ae8fff, 0xffb70472, 0xc062d46f, 0x961f4894, 0xb21bad3d, 0x6d83bfc6, 0x7e44008e)
    ensures Round(Words(0xb85e2ce9, 0xb6ae8fff, 0xffb70472, 0xc062d46f, 0x961f4894, 0xb21bad3d, 0x6d83bfc6, 0x7e44008e), 0x0adb9ce3) == Words(0x04d24d6c, 0xb85e2ce9, 0xb6ae8fff, 0xffb70472, 0x948d25b6, 0x961f4894, 0xb21bad3d, 0x6d83bfc6)
    ensures Round(Words(0x04d24d6c, 0xb85e2ce9, 0xb6ae8fff, 0xffb70472, 0x948d25b6, 0x961f4894, 0xb21bad3d, 0x6d83bfc6), 0xada546c3) == Words(0xd39a2165, 0x04d24d6c, 0xb85e2ce9, 0xb6ae8fff, 0xfb121210, 0x948d25b6, 0x961f4894, 0xb21bad3d)
    ensures Round(Words(0xd39a2165, 0x04d24d6c, 0xb85e2ce9, 0xb6ae8fff, 0xfb121210, 0x948d25b6, 0x961f4894, 0xb21bad3d), 0xd92366dd) == Words(0x506e3058, 0xd39a2165, 0x04d24d6c, 0xb85e2ce9, 0x5ef50f24, 0xfb121210, 0x948d25b6, 0x961f4894)
  {
    hide BigSigma0, BigSigma1, Ch, Maj, Round;
    Functions60();
    OneRound(Words(0xb6ae8fff, 0xffb70472, 0xc062d46f, 0xfcd1887b, 0xb21bad3d, 0x6d83bfc6, 0x7e44008e, 0x9b5e906c), 0x34fecf0f, 0x5ca8b318, 0x6c47ad86, 0x2869e851, 0xf6a6847f);
    OneRound(Words(0xb85e2ce9, 0xb6ae8fff, 0xffb70472, 0xc062d46f, 0x961f4894, 0xb21bad3d, 0x6d83bfc6, 0x7e44008e), 0x0adb9ce3, 0x4f6ef480, 0xfb9bbf56, 0x71e9ef2a, 0xbebe0cfb);
    OneRound(Words(0x04d24d6c, 0xb85e2ce9, 0xb6ae8fff, 0xffb70472, 0x948d25b6, 0x961f4894, 0xb21bad3d, 0x6d83bfc6), 0xada546c3, 0x2a127e78, 0xb61f889d, 0x236105da, 0xb4de0ded);
    OneRound(Words(0xd39a2165, 0x04d24d6c, 0xb85e2ce9, 0xb6ae8fff, 0xfb121210, 0x948d25b6, 0x961f4894, 0xb21bad3d), 0xd92366dd, 0x88fa2277, 0x940d4894, 0x174d83c6, 0x90da2d6d);
  }

  lemma Rounds8()
    ensures State(8) == Words(0x85a07b5f, 0xe5030380, 0x2b4209f5, 0x04409a6a, 0x0c657a79, 0x9b27a401, 0x714260ad, 0x43ada245)
  {
    assert State(0) == INITIAL;
    hide State, W, RoundConstant, Round;
    Words0();
    Constants0();
    Turn0();
    Turn4();
    NextState(0);
    NextState(1);
    NextState(2);
    NextState(3);
    NextState(4);
    NextState(5);
    NextState(6);
    NextState(7);
  }

  lemma Rounds16()
    ensures State(16) == Words(0xb0fa238e, 0xc0645fde, 0xd932eb16, 0x87912990, 0x07590dcd, 0x0b92f20c, 0x745a48de, 0x1e578218)
  {
    hide State, W, RoundConstant, Round;
    Rounds8();
    Words0();
    Constants8();
    Turn8();
    Turn12();
    NextState(8);
    NextState(9);
    NextState(10);
    NextState(11);
    NextState(12);
    NextState(13);
    NextState(14);
    NextState(15);
  }

  lemma Rounds24()
    ensures State(24) == Words(0xc5d53d8d, 0xa7a3623f, 0xc2606d6d, 0x9dc68b63, 0xaa47c347, 0x49f5114a, 0xe1257970, 0x8ada8930)
  {
    hide State, W, RoundConstant, Round;
    Rounds16();
    Words16();
    Constants16();
    Turn16();
    Turn20();
    NextState(16);
    NextState(17);
    NextState(18);
    NextState(19);
    NextState(20);
    NextState(21);
    NextState(22);
    NextState(23);
  }

  lemma Rounds32()
    ensures State(32) == Words(0x73b33bf5, 0xea992a22, 0xa0060b30, 0x363482c9, 0xba591112, 0x0109ab3a, 0xade79437, 0x6112a3b7)
  {
    hide State, W, RoundConstant, Round;
    Rounds24();
    Words24();
    Constants24();
    Turn24();
    Turn28();
    NextState(24);
    NextState(25);
    NextState(26);
    NextState(27);
    NextState(28);
    NextState(29);
    NextState(30);
    NextState(31);
  }

  lemma Rounds40()
    ensures State(40) == Words(0x79ea687a, 0x6dc57a8a, 0x34df1604, 0x41a65cb1, 0x1efbc0a0, 0xf0781bc8, 0xa507a53d, 0x0772a26b)
  {
    hide State, W, RoundConstant, Round;
    Rounds32();
    Words32();
    Constants32();
    Turn32();
    Turn36();
    NextState(32);
    NextState(33);
    NextState(34);
    NextState(35);
    NextState(36);
    NextState(37);
    NextState(38);
    NextState(39);
  }

  lemma Rounds48()
    ensures State(48) == Words(0x4172328d, 0xa14c14b0, 0x72ab4b91, 0x26628815, 0xfecf0bc6, 0xd57b94a9, 0xb7755da1, 0xa80f11f0)
  {
    hide State, W, RoundConstant, Round;
    Rounds40();
    Words40();
    Constants40();
    Turn40();
    Turn44();
    NextState(40);
    NextState(41);
    NextState(42);
    NextState(43);
    NextState(44);
    NextState(45);
    NextState(46);
    NextState(47);
  }

  lemma Rounds56()
    ensures State(56) == Words(0x38cc9913, 0x3ec45cdb, 0xf5702fdb, 0x101fd28f, 0x54cb266b, 0xe50e1b4f, 0x9f4787c3, 0x529e7d00)
  {
    hide State, W, RoundConstant, Round;
    Rounds48();
    Words48();
    Constants48();
    Turn48();
    Turn52();
    NextState(48);
    NextState(49);
    NextState(50);
    NextState(51);
    NextState(52);
    NextState(53);
    NextState(54);
    NextState(55);
  }

  lemma Rounds64()
    ensures State(64) == Words(0x506e3058, 0xd39a2165, 0x04d24d6c, 0xb85e2ce9, 0x5ef50f24, 0xfb121210, 0x948d25b6, 0x961f4894)
  {
    hide State, W, RoundConstant, Round;
    Rounds56();
    Words56();
    Constants56();
    Turn56();
    Turn60();
    NextState(56);
    NextState(57);
    NextState(58);
    NextState(59);
    NextState(60);
    NextState(61);
    NextState(62);
    NextState(63);
  }

  // ---- the digest ----

  lemma AbcIsOneBlock()
    ensures Pad(ABC) == BLOCK
  {
    assert ZeroCount(3) == 52;
    assert BigEndian(24, 8) == Zeros(7) + [24] by {
      assert ShiftBytes(24, 0) == 24 && ShiftBytes(24, 1) == 0 && ShiftBytes(24, 2) == 0 && ShiftBytes(24, 3) == 0;
      assert ShiftBytes(24, 4) == 0 && ShiftBytes(24, 5) == 0 && ShiftBytes(24, 6) == 0 && ShiftBytes(24, 7) == 0;
    }
  }

  lemma AbcHash()
    ensures HashBlocks(BLOCK, 1) == Words(0xba7816bf, 0x8f01cfea, 0x414140de, 0x5dae2223, 0xb00361a3, 0x96177a9c, 0xb410ff61, 0xf20015ad)
  {
    Rounds64();
    assert BLOCK[0..64] == BLOCK;
    assert HashBlocks(BLOCK, 0) == INITIAL;
    hide Rounds, ScheduleWords;
  }

  lemma AbcBytes()
    ensures WordBytes(0xba7816bf) == [0xba, 0x78, 0x16, 0xbf]
    ensures WordBytes(0x8f01cfea) == [0x8f, 0x01, 0xcf, 0xea]
    ensures WordBytes(0x414140de) == [0x41, 0x41, 0x40, 0xde]
    ensures WordBytes(0x5dae2223) == [0x5d, 0xae, 0x22, 0x23]
    ensures WordBytes(0xb00361a3) == [0xb0, 0x03, 0x61, 0xa3]
    ensures WordBytes(0x96177a9c) == [0x96, 0x17, 0x7a, 0x9c]
    ensures WordBytes(0xb410ff61) == [0xb4, 0x10, 0xff, 0x61]
    ensures WordBytes(0xf20015ad) == [0xf2, 0x00, 0x15, 0xad]
  {}

  /** The digest of "abc". */
  lemma AbcDigest()
    ensures Sha256Of(ABC) == [
              0xba, 0x78, 0x16, 0xbf, 0x8f, 0x01, 0xcf, 0xea,
              0x41, 0x41, 0x40, 0xde, 0x5d, 0xae, 0x22, 0x23,
              0xb0, 0x03, 0x61, 0xa3, 0x96, 0x17, 0x7a, 0x9c,
              0xb4, 0x10, 0xff, 0x61, 0xf2, 0x00, 0x15, 0xad
            ]
  {
    AbcIsOneBlock();
    AbcHash();
    AbcBytes();
    hide HashBlocks, Pad, WordBytes;
  }
}
