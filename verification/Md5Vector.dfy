/** The digest of "abc" in the test suite of RFC 1321 (section A.5), worked out. */
module Md5Vector {
  import opened Blocks
  import opened Md5Standard

  const ABC: seq<bv8> := [0x61, 0x62, 0x63]

  ghost predicate IsAbc(block: Bytes64) {
    && block[0] == 0x61 && block[1] == 0x62 && block[2] == 0x63 && block[3] == 0x80 && block[56] == 0x18
    && (forall i :: 4 <= i < 56 ==> block[i] == 0) && (forall i :: 57 <= i < 64 ==> block[i] == 0)
  }

  lemma ClosedAbc()
    ensures var p := Closed(ABC, LengthBytes(24)); |p| == 64 && IsAbc(BlockAt(p, 0))
  {
    var p := Closed(ABC, LengthBytes(24));
    assert ZeroCount(3) == 52;
    assert p[56..] == LengthBytes(24);
    LengthOfAbc();
    assert p[56] == LengthBytes(24)[0];
    forall i | 57 <= i < 64 ensures p[i] == 0 {
      assert p[i] == LengthBytes(24)[i - 56];
    }
  }

  lemma LengthOfAbc()
    ensures LengthBytes(24)[0] == 24
    ensures forall i :: 0 < i < 8 ==> LengthBytes(24)[i] == 0
  {
    hide ByteOf;
    forall k: nat | k < 8 ensures ByteOf(24, k) == if k == 0 then 24 else 0 {
      ByteOfSmall(24, k);
    }
  }

  lemma WordsOfAbc(b: Bytes64)
    requires IsAbc(b)
    ensures Word(b, 0) == 0x80636261 && Word(b, 14) == 0x18
    ensures forall k: nat :: 0 < k < 16 && k != 14 ==> Word(b, k) == 0
  {
  }

  lemma RoundFrom0()
    ensures Shift(0) == 7 && Shift(1) == 12 && Shift(2) == 17 && Shift(3) == 22
    ensures Shift(4) == 7 && Shift(5) == 12 && Shift(6) == 17 && Shift(7) == 22
    ensures Shift(8) == 7 && Shift(9) == 12 && Shift(10) == 17 && Shift(11) == 22
    ensures Shift(12) == 7 && Shift(13) == 12 && Shift(14) == 17 && Shift(15) == 22
    ensures Index(0) == 0 && Index(1) == 1 && Index(2) == 2 && Index(3) == 3
    ensures Index(4) == 4 && Index(5) == 5 && Index(6) == 6 && Index(7) == 7
    ensures Index(8) == 8 && Index(9) == 9 && Index(10) == 10 && Index(11) == 11
    ensures Index(12) == 12 && Index(13) == 13 && Index(14) == 14 && Index(15) == 15
  {
  }

  lemma StepsTo8(b: Bytes64)
    requires IsAbc(b)
    ensures Steps(INITIAL, b, 8) == Vars(0xc73741ef, 0x928d99f6, 0x207dc67b, 0x8bac3051)
  {
    hide Word, Index, Shift;
    WordsOfAbc(b);
    RoundFrom0();
    assert Steps(INITIAL, b, 1) == Vars(0x10325476, 0xd6d117b4, 0xefcdab89, 0x98badcfe);
    assert Steps(INITIAL, b, 2) == Vars(0x98badcfe, 0x344a8432, 0xd6d117b4, 0xefcdab89);
    assert Steps(INITIAL, b, 3) == Vars(0xefcdab89, 0x2f6fbd72, 0x344a8432, 0xd6d117b4);
    assert Steps(INITIAL, b, 4) == Vars(0xd6d117b4, 0x7ad956f2, 0x2f6fbd72, 0x344a8432);
    assert Steps(INITIAL, b, 5) == Vars(0x344a8432, 0xc73741ef, 0x7ad956f2, 0x2f6fbd72);
    assert Steps(INITIAL, b, 6) == Vars(0x2f6fbd72, 0x8bac3051, 0xc73741ef, 0x7ad956f2);
    assert Steps(INITIAL, b, 7) == Vars(0x7ad956f2, 0x207dc67b, 0x8bac3051, 0xc73741ef);
  }

  lemma StepsTo16(b: Bytes64)
    requires IsAbc(b)
    ensures Steps(INITIAL, b, 16) == Vars(0xdda9b9a6, 0x72aff2e0, 0xe396856b, 0xa1051895)
  {
    hide Word, Index, Shift;
    StepsTo8(b);
    WordsOfAbc(b);
    RoundFrom0();
    assert Steps(INITIAL, b, 9) == Vars(0x8bac3051, 0x854b3712, 0x928d99f6, 0x207dc67b);
    assert Steps(INITIAL, b, 10) == Vars(0x207dc67b, 0x74e2f284, 0x854b3712, 0x928d99f6);
    assert Steps(INITIAL, b, 11) == Vars(0x928d99f6, 0x3020401c, 0x74e2f284, 0x854b3712);
    assert Steps(INITIAL, b, 12) == Vars(0x854b3712, 0x5ed49596, 0x3020401c, 0x74e2f284);
    assert Steps(INITIAL, b, 13) == Vars(0x74e2f284, 0xdda9b9a6, 0x5ed49596, 0x3020401c);
    assert Steps(INITIAL, b, 14) == Vars(0x3020401c, 0xa1051895, 0xdda9b9a6, 0x5ed49596);
    assert Steps(INITIAL, b, 15) == Vars(0x5ed49596, 0xe396856b, 0xa1051895, 0xdda9b9a6);
  }

  lemma RoundFrom16()
    ensures Shift(16) == 5 && Shift(17) == 9 && Shift(18) == 14 && Shift(19) == 20
    ensures Shift(20) == 5 && Shift(21) == 9 && Shift(22) == 14 && Shift(23) == 20
    ensures Shift(24) == 5 && Shift(25) == 9 && Shift(26) == 14 && Shift(27) == 20
    ensures Shift(28) == 5 && Shift(29) == 9 && Shift(30) == 14 && Shift(31) == 20
    ensures Index(16) == 1 && Index(17) == 6 && Index(18) == 11 && Index(19) == 0
    ensures Index(20) == 5 && Index(21) == 10 && Index(22) == 15 && Index(23) == 4
    ensures Index(24) == 9 && Index(25) == 14 && Index(26) == 3 && Index(27) == 8
    ensures Index(28) == 13 && Index(29) == 2 && Index(30) == 7 && Index(31) == 12
  {
  }

  lemma StepsTo24(b: Bytes64)
    requires IsAbc(b)
    ensures Steps(INITIAL, b, 24) == Vars(0x59a8ffda, 0x47092c07, 0xabfc7920, 0x6d002f1e)
  {
    hide Word, Index, Shift;
    StepsTo16(b);
    WordsOfAbc(b);
    RoundFrom16();
    assert Steps(INITIAL, b, 17) == Vars(0xa1051895, 0x3e9e9126, 0x72aff2e0, 0xe396856b);
    assert Steps(INITIAL, b, 18) == Vars(0xe396856b, 0x4a1d804e, 0x3e9e9126, 0x72aff2e0);
    assert Steps(INITIAL, b, 19) == Vars(0x72aff2e0, 0xe25e1652, 0x4a1d804e, 0x3e9e9126);
    assert Steps(INITIAL, b, 20) == Vars(0x3e9e9126, 0xb5b204e4, 0xe25e1652, 0x4a1d804e);
    assert Steps(INITIAL, b, 21) == Vars(0x4a1d804e, 0x59a8ffda, 0xb5b204e4, 0xe25e1652);
    assert Steps(INITIAL, b, 22) == Vars(0xe25e1652, 0x6d002f1e, 0x59a8ffda, 0xb5b204e4);
    assert Steps(INITIAL, b, 23) == Vars(0xb5b204e4, 0xabfc7920, 0x6d002f1e, 0x59a8ffda);
  }

  lemma StepsTo32(b: Bytes64)
    requires IsAbc(b)
    ensures Steps(INITIAL, b, 32) == Vars(0x790a77fb, 0x726342d3, 0xa62884aa, 0x9f47e4f8)
  {
    hide Word, Index, Shift;
    StepsTo24(b);
    WordsOfAbc(b);
    RoundFrom16();
    assert Steps(INITIAL, b, 25) == Vars(0x6d002f1e, 0xb7f268cf, 0x47092c07, 0xabfc7920);
    assert Steps(INITIAL, b, 26) == Vars(0xabfc7920, 0x09388eff, 0xb7f268cf, 0x47092c07);
    assert Steps(INITIAL, b, 27) == Vars(0x47092c07, 0xfe1623b1, 0x09388eff, 0xb7f268cf);
    assert Steps(INITIAL, b, 28) == Vars(0xb7f268cf, 0x786acb8f, 0xfe1623b1, 0x09388eff);
    assert Steps(INITIAL, b, 29) == Vars(0x09388eff, 0x790a77fb, 0x786acb8f, 0xfe1623b1);
    assert Steps(INITIAL, b, 30) == Vars(0xfe1623b1, 0x9f47e4f8, 0x790a77fb, 0x786acb8f);
    assert Steps(INITIAL, b, 31) == Vars(0x786acb8f, 0xa62884aa, 0x9f47e4f8, 0x790a77fb);
  }

  lemma RoundFrom32()
    ensures Shift(32) == 4 && Shift(33) == 11 && Shift(34) == 16 && Shift(35) == 23
    ensures Shift(36) == 4 && Shift(37) == 11 && Shift(38) == 16 && Shift(39) == 23
    ensures Shift(40) == 4 && Shift(41) == 11 && Shift(42) == 16 && Shift(43) == 23
    ensures Shift(44) == 4 && Shift(45) == 11 && Shift(46) == 16 && Shift(47) == 23
    ensures Index(32) == 5 && Index(33) == 8 && Index(34) == 11 && Index(35) == 14
    ensures Index(36) == 1 && Index(37) == 4 && Index(38) == 7 && Index(39) == 10
    ensures Index(40) == 13 && Index(41) == 0 && Index(42) == 3 && Index(43) == 6
    ensures Index(44) == 9 && Index(45) == 12 && Index(46) == 15 && Index(47) == 2
  {
  }

  lemma StepsTo40(b: Bytes64)
    requires IsAbc(b)
    ensures Steps(INITIAL, b, 40) == Vars(0x21b117b9, 0x5a2f5ea5, 0x3575227e, 0x6e7429d5)
  {
    hide Word, Index, Shift;
    StepsTo32(b);
    WordsOfAbc(b);
    RoundFrom32();
    assert Steps(INITIAL, b, 33) == Vars(0x9f47e4f8, 0xb3707ebf, 0x726342d3, 0xa62884aa);
    assert Steps(INITIAL, b, 34) == Vars(0xa62884aa, 0x60127b2e, 0xb3707ebf, 0x726342d3);
    assert Steps(INITIAL, b, 35) == Vars(0x726342d3, 0x8d212ff5, 0x60127b2e, 0xb3707ebf);
    assert Steps(INITIAL, b, 36) == Vars(0xb3707ebf, 0x3b0875c7, 0x8d212ff5, 0x60127b2e);
    assert Steps(INITIAL, b, 37) == Vars(0x60127b2e, 0x21b117b9, 0x3b0875c7, 0x8d212ff5);
    assert Steps(INITIAL, b, 38) == Vars(0x8d212ff5, 0x6e7429d5, 0x21b117b9, 0x3b0875c7);
    assert Steps(INITIAL, b, 39) == Vars(0x3b0875c7, 0x3575227e, 0x6e7429d5, 0x21b117b9);
  }

  lemma StepsTo48(b: Bytes64)
    requires IsAbc(b)
    ensures Steps(INITIAL, b, 48) == Vars(0x7f2e507b, 0x7beb9700, 0x8fae6399, 0x99d9679d)
  {
    hide Word, Index, Shift;
    StepsTo40(b);
    WordsOfAbc(b);
    RoundFrom32();
    assert Steps(INITIAL, b, 41) == Vars(0x6e7429d5, 0x11de1779, 0x5a2f5ea5, 0x3575227e);
    assert Steps(INITIAL, b, 42) == Vars(0x3575227e, 0xfadcaa38, 0x11de1779, 0x5a2f5ea5);
    assert Steps(INITIAL, b, 43) == Vars(0x5a2f5ea5, 0x31c465ca, 0xfadcaa38, 0x11de1779);
    assert Steps(INITIAL, b, 44) == Vars(0x11de1779, 0x4c6124f4, 0x31c465ca, 0xfadcaa38);
    assert Steps(INITIAL, b, 45) == Vars(0xfadcaa38, 0x7f2e507b, 0x4c6124f4, 0x31c465ca);
    assert Steps(INITIAL, b, 46) == Vars(0x31c465ca, 0x99d9679d, 0x7f2e507b, 0x4c6124f4);
    assert Steps(INITIAL, b, 47) == Vars(0x4c6124f4, 0x8fae6399, 0x99d9679d, 0x7f2e507b);
  }

  lemma RoundFrom48()
    ensures Shift(48) == 6 && Shift(49) == 10 && Shift(50) == 15 && Shift(51) == 21
    ensures Shift(52) == 6 && Shift(53) == 10 && Shift(54) == 15 && Shift(55) == 21
    ensures Shift(56) == 6 && Shift(57) == 10 && Shift(58) == 15 && Shift(59) == 21
    ensures Shift(60) == 6 && Shift(61) == 10 && Shift(62) == 15 && Shift(63) == 21
    ensures Index(48) == 0 && Index(49) == 7 && Index(50) == 14 && Index(51) == 5
    ensures Index(52) == 12 && Index(53) == 3 && Index(54) == 10 && Index(55) == 1
    ensures Index(56) == 8 && Index(57) == 15 && Index(58) == 6 && Index(59) == 13
    ensures Index(60) == 4 && Index(61) == 11 && Index(62) == 2 && Index(63) == 9
  {
  }

  lemma StepsTo56(b: Bytes64)
    requires IsAbc(b)
    ensures Steps(INITIAL, b, 56) == Vars(0x06cc5e8a, 0x3bfa2c27, 0x7d632dd0, 0x5b0d97aa)
  {
    hide Word, Index, Shift;
    StepsTo48(b);
    WordsOfAbc(b);
    RoundFrom48();
    assert Steps(INITIAL, b, 49) == Vars(0x99d9679d, 0x7b201df8, 0x7beb9700, 0x8fae6399);
    assert Steps(INITIAL, b, 50) == Vars(0x8fae6399, 0xf4e8e96e, 0x7b201df8, 0x7beb9700);
    assert Steps(INITIAL, b, 51) == Vars(0x7beb9700, 0xb298cefd, 0xf4e8e96e, 0x7b201df8);
    assert Steps(INITIAL, b, 52) == Vars(0x7b201df8, 0x8bf025c4, 0xb298cefd, 0xf4e8e96e);
    assert Steps(INITIAL, b, 53) == Vars(0xf4e8e96e, 0x06cc5e8a, 0x8bf025c4, 0xb298cefd);
    assert Steps(INITIAL, b, 54) == Vars(0xb298cefd, 0x5b0d97aa, 0x06cc5e8a, 0x8bf025c4);
    assert Steps(INITIAL, b, 55) == Vars(0x8bf025c4, 0x7d632dd0, 0x5b0d97aa, 0x06cc5e8a);
  }

  lemma StepsTo64(b: Bytes64)
    requires IsAbc(b)
    ensures Steps(INITIAL, b, 64) == Vars(0x310ade8f, 0xc08226b3, 0xe484b9d8, 0x624d8cb2)
  {
    hide Word, Index, Shift;
    StepsTo56(b);
    WordsOfAbc(b);
    RoundFrom48();
    assert Steps(INITIAL, b, 57) == Vars(0x5b0d97aa, 0x7f81cc35, 0x3bfa2c27, 0x7d632dd0);
    assert Steps(INITIAL, b, 58) == Vars(0x7d632dd0, 0x094454ab, 0x7f81cc35, 0x3bfa2c27);
    assert Steps(INITIAL, b, 59) == Vars(0x3bfa2c27, 0x4f9dbe3f, 0x094454ab, 0x7f81cc35);
    assert Steps(INITIAL, b, 60) == Vars(0x7f81cc35, 0x7327d604, 0x4f9dbe3f, 0x094454ab);
    assert Steps(INITIAL, b, 61) == Vars(0x094454ab, 0x310ade8f, 0x7327d604, 0x4f9dbe3f);
    assert Steps(INITIAL, b, 62) == Vars(0x4f9dbe3f, 0x624d8cb2, 0x310ade8f, 0x7327d604);
    assert Steps(INITIAL, b, 63) == Vars(0x7327d604, 0xe484b9d8, 0x624d8cb2, 0x310ade8f);
  }

  lemma AbcValue()
    ensures Chain(Closed(ABC, LengthBytes(24)), 1) == Vars(0x98500190, 0xb04fd23c, 0x7d3f96d6, 0x727fe128)
  {
    hide Steps, Closed, LengthBytes;
    ClosedAbc();
    var p := Closed(ABC, LengthBytes(24));
    StepsTo64(BlockAt(p, 0));
    assert Chain(p, 0) == INITIAL;
  }

  /** MD5("abc") = 900150983cd24fb0d6963f7d28e17f72. */
  lemma DigestOfAbc()
    ensures Digest(ABC) ==
      [0x90, 0x01, 0x50, 0x98, 0x3c, 0xd2, 0x4f, 0xb0] +
      [0xd6, 0x96, 0x3f, 0x7d, 0x28, 0xe1, 0x7f, 0x72]
  {
    hide Chain, Closed, LengthBytes;
    ClosedAbc();
    AbcValue();
  }
}
