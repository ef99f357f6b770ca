/**
 Which CRC it is: the one of PKWARE's APPNOTE section 4.4.7. The register run over any bytes and then over their CRC,
 low byte first, ends at the magic number 0xdebb20e3; no bytes have CRC 0; and the digits 1 to 9 have the check value
 0xcbf43926.
 */
module Crc32Values {
  import opened Crc32

  // The bytes of a word, low byte first.
  function LowFirst(w: bv32): (s: seq<bv8>)
    ensures |s| == 4
  {
    [(w & 0xff) as bv8, ((w >> 8) & 0xff) as bv8, ((w >> 16) & 0xff) as bv8, ((w >> 24) & 0xff) as bv8]
  }

  lemma WordOfBytes(w: bv32)
    ensures Word(LowFirst(w)) == w
  {
    var s := LowFirst(w);
    WordOfFour(s);
    BytesMakeWord(w);
  }

  lemma WordOfFour(s: seq<bv8>)
    requires |s| == 4
    ensures Word(s) == Xor(Wide(s[0]), Up8(Xor(Wide(s[1]), Up8(Xor(Wide(s[2]), Up8(Xor(Wide(s[3]), Up8(0))))))))
  {
    hide Xor, Wide, Up8;
    var t := s[1..];
    var u := t[1..];
    var v := u[1..];
    assert v[1..] == [];
    assert Word(v) == Xor(Wide(s[3]), Up8(0));
  }

  lemma BytesMakeWord(w: bv32)
    ensures var s := LowFirst(w);
            Xor(Wide(s[0]), Up8(Xor(Wide(s[1]), Up8(Xor(Wide(s[2]), Up8(Xor(Wide(s[3]), Up8(0)))))))) == w
  {
  }

  // Eight steps from a given register.
  lemma Eight(c: bv32, c1: bv32, c2: bv32, c3: bv32, c4: bv32, c5: bv32, c6: bv32, c7: bv32, c8: bv32)
    requires BitStep(c) == c1 && BitStep(c1) == c2 && BitStep(c2) == c3 && BitStep(c3) == c4
    requires BitStep(c4) == c5 && BitStep(c5) == c6 && BitStep(c6) == c7 && BitStep(c7) == c8
    ensures Bits(c, 8) == c8
  {
    hide BitStep;
    assert Bits(c, 8) == Bits(c1, 7) == Bits(c2, 6) == Bits(c3, 5) == Bits(c4, 4);
    assert Bits(c4, 4) == Bits(c5, 3) == Bits(c6, 2) == Bits(c7, 1) == Bits(c8, 0);
  }

  lemma OnesRunOut()
    ensures Bits(ONES, 32) == 0xdebb20e3
  {
    hide Bits;
    Eight(0xffffffff, 0x92477cdf, 0xa49b3d4f, 0xbff51d87, 0xb2420de3, 0xb49985d1, 0xb7f441c8, 0x5bfa20e4, 0x2dfd1072);
    Eight(0x2dfd1072, 0x16fe8839, 0xe6c7c73c, 0x7363e39e, 0x39b1f1cf, 0xf1607bc7, 0x9508bec3, 0xa73cdc41, 0xbe26ed00);
    Eight(0xbe26ed00, 0x5f137680, 0x2f89bb40, 0x17c4dda0, 0xbe26ed0, 0x5f13768, 0x2f89bb4, 0x17c4dda, 0xbe26ed);
    Eight(0xbe26ed, 0xede79056, 0x76f3c82b, 0xd6c16735, 0x86d830ba, 0x436c185d, 0xcc0e8f0e, 0x66074787, 0xdebb20e3);
    hide BitStep;
    BitsAdd(ONES, 8, 8);
    BitsAdd(ONES, 16, 8);
    BitsAdd(ONES, 24, 8);
  }

  // One byte taken into a given register.
  lemma Taken(c: bv32, b: bv8, c0: bv32, c1: bv32, c2: bv32, c3: bv32, c4: bv32, c5: bv32, c6: bv32, c7: bv32, c8: bv32)
    requires Xor(c, Wide(b)) == c0
    requires BitStep(c0) == c1 && BitStep(c1) == c2 && BitStep(c2) == c3 && BitStep(c3) == c4
    requires BitStep(c4) == c5 && BitStep(c5) == c6 && BitStep(c6) == c7 && BitStep(c7) == c8
    ensures ByteStep(c, b) == c8
  {
    hide BitStep, Xor, Wide;
    Eight(c0, c1, c2, c3, c4, c5, c6, c7, c8);
  }

  lemma ByteSteps()
    ensures ByteStep(0xffffffff, 49) == 0x7c231048
    ensures ByteStep(0x7c231048, 50) == 0xb0acbb32
    ensures ByteStep(0xb0acbb32, 51) == 0x77b79c2d
    ensures ByteStep(0x77b79c2d, 52) == 0x641c1f5c
    ensures ByteStep(0x641c1f5c, 53) == 0x340ac5e3
    ensures ByteStep(0x340ac5e3, 54) == 0xf68d2c9e
    ensures ByteStep(0xf68d2c9e, 55) == 0xaffc9660
    ensures ByteStep(0xaffc9660, 56) == 0x651f2550
    ensures ByteStep(0x651f2550, 57) == 0x340bc6d9
  {
    hide Bits, ByteStep;
    Taken(0xffffffff, 49, 0xffffffce, 0x7fffffe7, 0xd2477cd3, 0x849b3d49, 0xaff51d84, 0x57fa8ec2, 0x2bfd4761, 0xf8462090, 0x7c231048);
    Taken(0x7c231048, 50, 0x7c23107a, 0x3e11883d, 0xf2b0473e, 0x7958239f, 0xd11492ef, 0x8532ca57, 0xaf21e60b, 0xba287025, 0xb0acbb32);
    Taken(0xb0acbb32, 51, 0xb0acbb01, 0xb5eedea0, 0x5af76f50, 0x2d7bb7a8, 0x16bddbd4, 0xb5eedea, 0x5af76f5, 0xef6f385a, 0x77b79c2d);
    Taken(0x77b79c2d, 52, 0x77b79c19, 0xd6634d2c, 0x6b31a696, 0x3598d34b, 0xf774ea85, 0x9602f662, 0x4b017b31, 0xc8383eb8, 0x641c1f5c);
    Taken(0x641c1f5c, 53, 0x641c1f69, 0xdfb68c94, 0x6fdb464a, 0x37eda325, 0xf64e52b2, 0x7b272959, 0xd02b178c, 0x68158bc6, 0x340ac5e3);
    Taken(0x340ac5e3, 54, 0x340ac5d5, 0xf7bde1ca, 0x7bdef0e5, 0xd057fb52, 0x682bfda9, 0xd9ad7df4, 0x6cd6befa, 0x366b5f7d, 0xf68d2c9e);
    Taken(0xf68d2c9e, 55, 0xf68d2ca9, 0x96fe1574, 0x4b7f0aba, 0x25bf855d, 0xff67418e, 0x7fb3a0c7, 0xd2615343, 0x84882a81, 0xaffc9660);
    Taken(0xaffc9660, 56, 0xaffc9658, 0x57fe4b2c, 0x2bff2596, 0x15ff92cb, 0xe7474a45, 0x9e1b2602, 0x4f0d9301, 0xca3e4aa0, 0x651f2550);
    Taken(0x651f2550, 57, 0x651f2569, 0xdf371194, 0x6f9b88ca, 0x37cdc465, 0xf65e6112, 0x7b2f3089, 0xd02f1b64, 0x68178db2, 0x340bc6d9);
  }

  const DIGITS: seq<bv8> := [0x31, 0x32, 0x33, 0x34, 0x35, 0x36, 0x37, 0x38, 0x39]

  lemma RegisterOfDigits()
    ensures Register(0xffffffff, DIGITS) == 0x340bc6d9
  {
    hide ByteStep;
    ByteSteps();
    assert DIGITS[9..] == [];
  }

  /** No bytes have CRC 0, and the digits 1 to 9 have the CRC's published check value. */
  lemma CheckValues()
    ensures Crc([]) == 0 && Crc(DIGITS) == 0xcbf43926
  {
    RegisterOfDigits();
  }

  /** Bytes followed by their CRC leave the magic number in the register. */
  lemma MagicNumber(s: seq<bv8>)
    ensures Register(ONES, s + LowFirst(Crc(s))) == 0xdebb20e3
  {
    hide Register, Bits, Word, LowFirst, Xor, Not;
    var c := Register(ONES, s);
    RegisterAppend(ONES, s, LowFirst(Not(c)));
    BlockStep(c, LowFirst(Not(c)));
    WordOfBytes(Not(c));
    AllOnes(c);
    OnesRunOut();
  }

  lemma AllOnes(c: bv32)
    ensures Xor(c, Not(c)) == ONES
  {
  }
}
