/**
  One of the program's own stars overflows the blue-star formula. Star 4
  has seed 4 * 1000 + 12345 = 16345; its brightness hash is hash(16347)
  and its kind hash is hash(16348). Each `hash` is evaluated here one
  step at a time on the literal words.
 */
module StarWitness {
  import opened Numeric
  import opened Hashing
  import opened Skybox
  import opened Colors

  /** `x ^= x >> 16` on a word given by its halves: the halves' xor becomes the new lower half. */
  lemma XorShiftOfHalves(x: U32, hi: nat, lo: nat)
    requires lo < 0x1_0000 && x == hi * 0x1_0000 + lo
    ensures XorShift(x) == hi * 0x1_0000 + Xor(lo, hi)
  {
    assert x / 0x1_0000 == hi && x % 0x1_0000 == lo;
  }

  /** A word below 2^16 is unchanged by the xor-shift: its upper half is zero. */
  lemma XorShiftSmall(x: U32)
    requires x < 0x1_0000
    ensures XorShift(x) == x
  {
    XorZero(x);
    XorShiftOfHalves(x, 0, x);
  }

  /** The lower half of 3326524537 xor-ed with its upper half, one bit at a time. */
  lemma XorShift3B(x: U32)
    requires x == 3326524537
    ensures XorShift(x) == 3326507583
  {
    assert Xor(0, 0) == 0;
    assert Xor(1, 1) == 0;
    assert Xor(2, 3) == 1;
    assert Xor(5, 6) == 3;
    assert Xor(11, 12) == 7;
    assert Xor(23, 24) == 15;
    assert Xor(47, 49) == 30;
    assert Xor(94, 99) == 61;
    assert Xor(188, 198) == 122;
    assert Xor(376, 396) == 244;
    assert Xor(753, 793) == 488;
    assert Xor(1507, 1586) == 977;
    assert Xor(3015, 3172) == 1955;
    assert Xor(6031, 6344) == 3911;
    assert Xor(12062, 12689) == 7823;
    assert Xor(24124, 25379) == 15647;
    assert Xor(48249, 50758) == 31295;
    XorShiftOfHalves(x, 50758, 48249);
  }

  /** The lower half of 3708702085 xor-ed with its upper half, one bit at a time. */
  lemma XorShift3D(x: U32)
    requires x == 3708702085
    ensures XorShift(x) == 3708719243
  {
    assert Xor(0, 0) == 0;
    assert Xor(0, 1) == 1;
    assert Xor(1, 3) == 2;
    assert Xor(2, 6) == 4;
    assert Xor(4, 13) == 9;
    assert Xor(9, 27) == 18;
    assert Xor(19, 55) == 36;
    assert Xor(38, 110) == 72;
    assert Xor(77, 221) == 144;
    assert Xor(155, 442) == 289;
    assert Xor(310, 884) == 578;
    assert Xor(620, 1768) == 1156;
    assert Xor(1240, 3536) == 2312;
    assert Xor(2480, 7073) == 4625;
    assert Xor(4961, 14147) == 9250;
    assert Xor(9922, 28295) == 18501;
    assert Xor(19845, 56590) == 37003;
    XorShiftOfHalves(x, 56590, 19845);
  }

  /** The lower half of 3399769012 xor-ed with its upper half, one bit at a time. */
  lemma XorShift4B(x: U32)
    requires x == 3399769012
    ensures XorShift(x) == 3399782672
  {
    assert Xor(0, 0) == 0;
    assert Xor(0, 1) == 1;
    assert Xor(1, 3) == 2;
    assert Xor(2, 6) == 4;
    assert Xor(5, 12) == 9;
    assert Xor(11, 25) == 18;
    assert Xor(22, 50) == 36;
    assert Xor(45, 101) == 72;
    assert Xor(91, 202) == 145;
    assert Xor(183, 405) == 290;
    assert Xor(366, 810) == 580;
    assert Xor(733, 1621) == 1160;
    assert Xor(1467, 3242) == 2321;
    assert Xor(2934, 6484) == 4642;
    assert Xor(5869, 12969) == 9284;
    assert Xor(11738, 25938) == 18568;
    assert Xor(23476, 51876) == 37136;
    XorShiftOfHalves(x, 51876, 23476);
  }

  /** The lower half of 3705036464 xor-ed with its upper half, one bit at a time. */
  lemma XorShift4D(x: U32)
    requires x == 3705036464
    ensures XorShift(x) == 3705045606
  {
    assert Xor(0, 0) == 0;
    assert Xor(0, 1) == 1;
    assert Xor(1, 3) == 2;
    assert Xor(2, 6) == 4;
    assert Xor(5, 13) == 8;
    assert Xor(11, 27) == 16;
    assert Xor(23, 55) == 32;
    assert Xor(47, 110) == 65;
    assert Xor(94, 220) == 130;
    assert Xor(189, 441) == 260;
    assert Xor(378, 883) == 521;
    assert Xor(757, 1766) == 1043;
    assert Xor(1515, 3533) == 2086;
    assert Xor(3030, 7066) == 4172;
    assert Xor(6060, 14133) == 8345;
    assert Xor(12120, 28267) == 16691;
    assert Xor(24240, 56534) == 33382;
    XorShiftOfHalves(x, 56534, 24240);
  }

  /** The literal steps of hash(16347): shift, scramble, shift, scramble, shift. */
  lemma BrightnessHash(seed: U32)
    requires seed == 16347
    ensures Hash(seed) == 3708719243
  {
    var a := XorShift(seed);
    XorShiftSmall(seed);
    var b := Scramble(a);
    Scramble3A(a);
    var c := XorShift(b);
    XorShift3B(b);
    var d := Scramble(c);
    Scramble3C(c);
    XorShift3D(d);
  }

  /** The literal steps of hash(16348). */
  lemma KindHash(seed: U32)
    requires seed == 16348
    ensures Hash(seed) == 3705045606
  {
    var a := XorShift(seed);
    XorShiftSmall(seed);
    var b := Scramble(a);
    Scramble4A(a);
    var c := XorShift(b);
    XorShift4B(b);
    var d := Scramble(c);
    Scramble4C(c);
    XorShift4D(d);
  }

  lemma Scramble3A(x: U32)
    requires x == 16347
    ensures Scramble(x) == 3326524537
  {
  }

  lemma Scramble3C(x: U32)
    requires x == 3326507583
    ensures Scramble(x) == 3708702085
  {
  }

  lemma Scramble4A(x: U32)
    requires x == 16348
    ensures Scramble(x) == 3399769012
  {
  }

  lemma Scramble4C(x: U32)
    requires x == 3399782672
    ensures Scramble(x) == 3705036464
  {
  }

  /** A brightness hash of 3708719243 gives a star byte of 227 (the exact value is 227.15...). */
  lemma BrightnessAt(h: U32)
    requires h == 3708719243
    ensures StarBrightness(h) == 227
  {
  }

  /**
    Star 4 of the starfield is a blue star of brightness 227, above the
    211 the blue formula can take.
   */
  lemma StarFourBrightBlue(seed: U32)
    requires seed == 4 * 1000 + 12345
    ensures KindOf(Hash(seed + 3)) == Blue
    ensures StarBrightness(Hash(seed + 2)) == 227
  {
    var s3, s4 := seed + 2, seed + 3;
    BrightnessHash(s3);
    KindHash(s4);
    var h3, h4 := Hash(s3), Hash(s4);
    BrightnessAt(h3);
    KindAt(h4);
  }

  lemma KindAt(h: U32)
    requires h == 3705045606
    ensures KindOf(h) == Blue
  {
  }

  /**
    At brightness 227 `150 + 227 / 2` is 263, which does not fit a `u8`. A
    debug build panics on it; a release build paints the star
    (7, 255, 227) where the saturating colour is (255, 255, 227).
   */
  lemma StarFourColors()
    ensures 150 + 227 / 2 > 255
    ensures FromHex(BlueStarWrapping(227)) == Color(7, 255, 227)
    ensures BlueStar(227) == Color(255, 255, 227)
  {
    HexRoundTrip(Color(7, 255, 227));
  }
}
