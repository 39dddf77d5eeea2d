/** The first test vector in the header of base/algorithm/SHA1.cpp: the digest of "abc", worked out. */
module Sha1Vector {
  import opened Blocks
  import opened Sha1Standard

  const ABC: seq<bv8> := [0x61, 0x62, 0x63]

  ghost predicate IsAbc(block: Bytes64) {
    && block[0] == 0x61 && block[1] == 0x62 && block[2] == 0x63 && block[3] == 0x80 && block[63] == 0x18
    && forall i :: 4 <= i < 63 ==> block[i] == 0
  }

  lemma PaddedAbc()
    ensures |Padded(ABC)| == 64 && IsAbc(BlockAt(Padded(ABC), 0))
  {
    var p := Padded(ABC);
    assert ZeroCount(3) == 52;
    assert p[56..] == LengthBytes(24);
    LengthOfAbc();
    assert p[63] == LengthBytes(24)[7];
    forall i | 4 <= i < 63 ensures p[i] == 0 {
      if i >= 56 {
        assert p[i] == LengthBytes(24)[i - 56];
      }
    }
  }

  lemma LengthOfAbc()
    ensures LengthBytes(24)[7] == 24
    ensures forall i :: 0 <= i < 7 ==> LengthBytes(24)[i] == 0
  {
    hide ByteOf;
    forall k: nat | k < 8 ensures ByteOf(24, k) == if k == 0 then 24 else 0 {
      ByteOfSmall(24, k);
    }
  }

  // The schedule, twenty words at a time

  lemma WordsFrom0(b: Bytes64)
    requires IsAbc(b)
    ensures Word(b, 0) == 0x61626380 && Word(b, 1) == 0x00000000 && Word(b, 2) == 0x00000000 && Word(b, 3) == 0x00000000
    ensures Word(b, 4) == 0x00000000 && Word(b, 5) == 0x00000000 && Word(b, 6) == 0x00000000 && Word(b, 7) == 0x00000000
    ensures Word(b, 8) == 0x00000000 && Word(b, 9) == 0x00000000 && Word(b, 10) == 0x00000000 && Word(b, 11) == 0x00000000
    ensures Word(b, 12) == 0x00000000 && Word(b, 13) == 0x00000000 && Word(b, 14) == 0x00000000 && Word(b, 15) == 0x00000018
    ensures Word(b, 16) == 0xC2C4C700 && Word(b, 17) == 0x00000000 && Word(b, 18) == 0x00000030 && Word(b, 19) == 0x85898E01
  {
  }

  lemma WordsFrom20(b: Bytes64)
    requires IsAbc(b)
    ensures Word(b, 20) == 0x00000000 && Word(b, 21) == 0x00000060 && Word(b, 22) == 0x0B131C03 && Word(b, 23) == 0x00000030
    ensures Word(b, 24) == 0x85898EC1 && Word(b, 25) == 0x16263806 && Word(b, 26) == 0x00000000 && Word(b, 27) == 0x00000180
    ensures Word(b, 28) == 0x2C4C700C && Word(b, 29) == 0x000000F0 && Word(b, 30) == 0x93AFB507 && Word(b, 31) == 0x5898E048
    ensures Word(b, 32) == 0x8E9A9202 && Word(b, 33) == 0x00000600 && Word(b, 34) == 0xB131C0F0 && Word(b, 35) == 0x16263BC6
    ensures Word(b, 36) == 0x4EBED41E && Word(b, 37) == 0x626380A1 && Word(b, 38) == 0x16263806 && Word(b, 39) == 0x000018C0
  {
    WordsFrom0(b);
  }

  lemma WordsFrom40(b: Bytes64)
    requires IsAbc(b)
    ensures Word(b, 40) == 0xD2E138C4 && Word(b, 41) == 0x00000F00 && Word(b, 42) == 0x3AFB5079 && Word(b, 43) == 0x898E04E5
    ensures Word(b, 44) == 0xE2BA3C2B && Word(b, 45) == 0x000060C0 && Word(b, 46) == 0x053A37CD && Word(b, 47) == 0x74458547
    ensures Word(b, 48) == 0xDA9415ED && Word(b, 49) == 0x26380A16 && Word(b, 50) == 0x626383A1 && Word(b, 51) == 0x4EBF54DE
    ensures Word(b, 52) == 0x3835B44B && Word(b, 53) == 0x0000F600 && Word(b, 54) == 0x1E84C7A3 && Word(b, 55) == 0x98E04D98
    ensures Word(b, 56) == 0x651D16A0 && Word(b, 57) == 0x62658CA1 && Word(b, 58) == 0x458544D6 && Word(b, 59) == 0x44584CB7
  {
    WordsFrom20(b);
  }

  lemma WordsFrom60(b: Bytes64)
    requires IsAbc(b)
    ensures Word(b, 60) == 0x7BA06619 && Word(b, 61) == 0x6380AEA2 && Word(b, 62) == 0x0AE55269 && Word(b, 63) == 0x627B49A1
    ensures Word(b, 64) == 0x7CD45C9D && Word(b, 65) == 0x000F0000 && Word(b, 66) == 0xFB50753A && Word(b, 67) == 0xEC6765E8
    ensures Word(b, 68) == 0xBA3C2BE2 && Word(b, 69) == 0x0060C000 && Word(b, 70) == 0x3A37CD05 && Word(b, 71) == 0x458546F4
    ensures Word(b, 72) == 0xB8599DD6 && Word(b, 73) == 0x380A1A26 && Word(b, 74) == 0x01E02203 && Word(b, 75) == 0xE7CC3456
    ensures Word(b, 76) == 0xE6E60B69 && Word(b, 77) == 0x00F60A00 && Word(b, 78) == 0x5795EF4F && Word(b, 79) == 0x822E0879
  {
    WordsFrom40(b);
  }

  // The rounds, twenty at a time

  lemma StepsTo20(b: Bytes64)
    requires IsAbc(b)
    ensures Steps(INITIAL, b, 20) == Vars(0xFD9E1D7D, 0xDC64901D, 0x20AA99CA, 0xD3A49608, 0xC82F758B)
  {
    hide Word;
    WordsFrom0(b);
    assert Steps(INITIAL, b, 1) == Vars(0x0116FC33, 0x67452301, 0x7BF36AE2, 0x98BADCFE, 0x10325476);
    assert Steps(INITIAL, b, 2) == Vars(0x8990536D, 0x0116FC33, 0x59D148C0, 0x7BF36AE2, 0x98BADCFE);
    assert Steps(INITIAL, b, 3) == Vars(0xA1390F08, 0x8990536D, 0xC045BF0C, 0x59D148C0, 0x7BF36AE2);
    assert Steps(INITIAL, b, 4) == Vars(0xCDD8E11B, 0xA1390F08, 0x626414DB, 0xC045BF0C, 0x59D148C0);
    assert Steps(INITIAL, b, 5) == Vars(0xCFD499DE, 0xCDD8E11B, 0x284E43C2, 0x626414DB, 0xC045BF0C);
    assert Steps(INITIAL, b, 6) == Vars(0x3FC7CA40, 0xCFD499DE, 0xF3763846, 0x284E43C2, 0x626414DB);
    assert Steps(INITIAL, b, 7) == Vars(0x993E30C1, 0x3FC7CA40, 0xB3F52677, 0xF3763846, 0x284E43C2);
    assert Steps(INITIAL, b, 8) == Vars(0x9E8C07D4, 0x993E30C1, 0x0FF1F290, 0xB3F52677, 0xF3763846);
    assert Steps(INITIAL, b, 9) == Vars(0x4B6AE328, 0x9E8C07D4, 0x664F8C30, 0x0FF1F290, 0xB3F52677);
    assert Steps(INITIAL, b, 10) == Vars(0x8351F929, 0x4B6AE328, 0x27A301F5, 0x664F8C30, 0x0FF1F290);
    assert Steps(INITIAL, b, 11) == Vars(0xFBDA9E89, 0x8351F929, 0x12DAB8CA, 0x27A301F5, 0x664F8C30);
    assert Steps(INITIAL, b, 12) == Vars(0x63188FE4, 0xFBDA9E89, 0x60D47E4A, 0x12DAB8CA, 0x27A301F5);
    assert Steps(INITIAL, b, 13) == Vars(0x4607B664, 0x63188FE4, 0x7EF6A7A2, 0x60D47E4A, 0x12DAB8CA);
    assert Steps(INITIAL, b, 14) == Vars(0x9128F695, 0x4607B664, 0x18C623F9, 0x7EF6A7A2, 0x60D47E4A);
    assert Steps(INITIAL, b, 15) == Vars(0x196BEE77, 0x9128F695, 0x1181ED99, 0x18C623F9, 0x7EF6A7A2);
    assert Steps(INITIAL, b, 16) == Vars(0x20BDD62F, 0x196BEE77, 0x644A3DA5, 0x1181ED99, 0x18C623F9);
    assert Steps(INITIAL, b, 17) == Vars(0x4E925823, 0x20BDD62F, 0xC65AFB9D, 0x644A3DA5, 0x1181ED99);
    assert Steps(INITIAL, b, 18) == Vars(0x82AA6728, 0x4E925823, 0xC82F758B, 0xC65AFB9D, 0x644A3DA5);
    assert Steps(INITIAL, b, 19) == Vars(0xDC64901D, 0x82AA6728, 0xD3A49608, 0xC82F758B, 0xC65AFB9D);
  }

  lemma StepsTo40(b: Bytes64)
    requires IsAbc(b)
    ensures Steps(INITIAL, b, 40) == Vars(0x32DE1CBA, 0x4C986405, 0xF718E5CF, 0x03D447F6, 0xF72EEC32)
  {
    hide Word;
    StepsTo20(b);
    WordsFrom20(b);
    assert Steps(INITIAL, b, 21) == Vars(0x1A37B0CA, 0xFD9E1D7D, 0x77192407, 0x20AA99CA, 0xD3A49608);
    assert Steps(INITIAL, b, 22) == Vars(0x33A23BFC, 0x1A37B0CA, 0x7F67875F, 0x77192407, 0x20AA99CA);
    assert Steps(INITIAL, b, 23) == Vars(0x21283486, 0x33A23BFC, 0x868DEC32, 0x7F67875F, 0x77192407);
    assert Steps(INITIAL, b, 24) == Vars(0xD541F12D, 0x21283486, 0x0CE88EFF, 0x868DEC32, 0x7F67875F);
    assert Steps(INITIAL, b, 25) == Vars(0xC7567DC6, 0xD541F12D, 0x884A0D21, 0x0CE88EFF, 0x868DEC32);
    assert Steps(INITIAL, b, 26) == Vars(0x48413BA4, 0xC7567DC6, 0x75507C4B, 0x884A0D21, 0x0CE88EFF);
    assert Steps(INITIAL, b, 27) == Vars(0xBE35FBD5, 0x48413BA4, 0xB1D59F71, 0x75507C4B, 0x884A0D21);
    assert Steps(INITIAL, b, 28) == Vars(0x4AA84D97, 0xBE35FBD5, 0x12104EE9, 0xB1D59F71, 0x75507C4B);
    assert Steps(INITIAL, b, 29) == Vars(0x8370B52E, 0x4AA84D97, 0x6F8D7EF5, 0x12104EE9, 0xB1D59F71);
    assert Steps(INITIAL, b, 30) == Vars(0xC5FBAF5D, 0x8370B52E, 0xD2AA1365, 0x6F8D7EF5, 0x12104EE9);
    assert Steps(INITIAL, b, 31) == Vars(0x1267B407, 0xC5FBAF5D, 0xA0DC2D4B, 0xD2AA1365, 0x6F8D7EF5);
    assert Steps(INITIAL, b, 32) == Vars(0x3B845D33, 0x1267B407, 0x717EEBD7, 0xA0DC2D4B, 0xD2AA1365);
    assert Steps(INITIAL, b, 33) == Vars(0x046FAA0A, 0x3B845D33, 0xC499ED01, 0x717EEBD7, 0xA0DC2D4B);
    assert Steps(INITIAL, b, 34) == Vars(0x2C0EBC11, 0x046FAA0A, 0xCEE1174C, 0xC499ED01, 0x717EEBD7);
    assert Steps(INITIAL, b, 35) == Vars(0x21796AD4, 0x2C0EBC11, 0x811BEA82, 0xCEE1174C, 0xC499ED01);
    assert Steps(INITIAL, b, 36) == Vars(0xDCBBB0CB, 0x21796AD4, 0x4B03AF04, 0x811BEA82, 0xCEE1174C);
    assert Steps(INITIAL, b, 37) == Vars(0x0F511FD8, 0xDCBBB0CB, 0x085E5AB5, 0x4B03AF04, 0x811BEA82);
    assert Steps(INITIAL, b, 38) == Vars(0xDC63973F, 0x0F511FD8, 0xF72EEC32, 0x085E5AB5, 0x4B03AF04);
    assert Steps(INITIAL, b, 39) == Vars(0x4C986405, 0xDC63973F, 0x03D447F6, 0xF72EEC32, 0x085E5AB5);
  }

  lemma StepsTo60(b: Bytes64)
    requires IsAbc(b)
    ensures Steps(INITIAL, b, 60) == Vars(0x3F52DE5A, 0x09D785FD, 0x3498BFD4, 0xF211824F, 0xD79915AB)
  {
    hide Word;
    StepsTo40(b);
    WordsFrom40(b);
    assert Steps(INITIAL, b, 41) == Vars(0xFC87DEDF, 0x32DE1CBA, 0x53261901, 0xF718E5CF, 0x03D447F6);
    assert Steps(INITIAL, b, 42) == Vars(0x970A0D5C, 0xFC87DEDF, 0x8CB7872E, 0x53261901, 0xF718E5CF);
    assert Steps(INITIAL, b, 43) == Vars(0x7F193DC5, 0x970A0D5C, 0xFF21F7B7, 0x8CB7872E, 0x53261901);
    assert Steps(INITIAL, b, 44) == Vars(0xEE1B1AAF, 0x7F193DC5, 0x25C28357, 0xFF21F7B7, 0x8CB7872E);
    assert Steps(INITIAL, b, 45) == Vars(0x40F28E09, 0xEE1B1AAF, 0x5FC64F71, 0x25C28357, 0xFF21F7B7);
    assert Steps(INITIAL, b, 46) == Vars(0x1C51E1F2, 0x40F28E09, 0xFB86C6AB, 0x5FC64F71, 0x25C28357);
    assert Steps(INITIAL, b, 47) == Vars(0xA01B846C, 0x1C51E1F2, 0x503CA382, 0xFB86C6AB, 0x5FC64F71);
    assert Steps(INITIAL, b, 48) == Vars(0xBEAD02CA, 0xA01B846C, 0x8714787C, 0x503CA382, 0xFB86C6AB);
    assert Steps(INITIAL, b, 49) == Vars(0xBAF39337, 0xBEAD02CA, 0x2806E11B, 0x8714787C, 0x503CA382);
    assert Steps(INITIAL, b, 50) == Vars(0x120731C5, 0xBAF39337, 0xAFAB40B2, 0x2806E11B, 0x8714787C);
    assert Steps(INITIAL, b, 51) == Vars(0x641DB2CE, 0x120731C5, 0xEEBCE4CD, 0xAFAB40B2, 0x2806E11B);
    assert Steps(INITIAL, b, 52) == Vars(0x3847AD66, 0x641DB2CE, 0x4481CC71, 0xEEBCE4CD, 0xAFAB40B2);
    assert Steps(INITIAL, b, 53) == Vars(0xE490436D, 0x3847AD66, 0x99076CB3, 0x4481CC71, 0xEEBCE4CD);
    assert Steps(INITIAL, b, 54) == Vars(0x27E9F1D8, 0xE490436D, 0x8E11EB59, 0x99076CB3, 0x4481CC71);
    assert Steps(INITIAL, b, 55) == Vars(0x7B71F76D, 0x27E9F1D8, 0x792410DB, 0x8E11EB59, 0x99076CB3);
    assert Steps(INITIAL, b, 56) == Vars(0x5E6456AF, 0x7B71F76D, 0x09FA7C76, 0x792410DB, 0x8E11EB59);
    assert Steps(INITIAL, b, 57) == Vars(0xC846093F, 0x5E6456AF, 0x5EDC7DDB, 0x09FA7C76, 0x792410DB);
    assert Steps(INITIAL, b, 58) == Vars(0xD262FF50, 0xC846093F, 0xD79915AB, 0x5EDC7DDB, 0x09FA7C76);
    assert Steps(INITIAL, b, 59) == Vars(0x09D785FD, 0xD262FF50, 0xF211824F, 0xD79915AB, 0x5EDC7DDB);
  }

  lemma StepsTo80(b: Bytes64)
    requires IsAbc(b)
    ensures Steps(INITIAL, b, 80) == Vars(0x42541B35, 0x5738D5E1, 0x21834873, 0x681E6DF6, 0xD8FDF6AD)
  {
    hide Word;
    StepsTo60(b);
    WordsFrom60(b);
    assert Steps(INITIAL, b, 61) == Vars(0xD756C147, 0x3F52DE5A, 0x4275E17F, 0x3498BFD4, 0xF211824F);
    assert Steps(INITIAL, b, 62) == Vars(0x548C9CB2, 0xD756C147, 0x8FD4B796, 0x4275E17F, 0x3498BFD4);
    assert Steps(INITIAL, b, 63) == Vars(0xB66C020B, 0x548C9CB2, 0xF5D5B051, 0x8FD4B796, 0x4275E17F);
    assert Steps(INITIAL, b, 64) == Vars(0x6B61C9E1, 0xB66C020B, 0x9523272C, 0xF5D5B051, 0x8FD4B796);
    assert Steps(INITIAL, b, 65) == Vars(0x19DFA7AC, 0x6B61C9E1, 0xED9B0082, 0x9523272C, 0xF5D5B051);
    assert Steps(INITIAL, b, 66) == Vars(0x101655F9, 0x19DFA7AC, 0x5AD87278, 0xED9B0082, 0x9523272C);
    assert Steps(INITIAL, b, 67) == Vars(0x0C3DF2B4, 0x101655F9, 0x0677E9EB, 0x5AD87278, 0xED9B0082);
    assert Steps(INITIAL, b, 68) == Vars(0x78DD4D2B, 0x0C3DF2B4, 0x4405957E, 0x0677E9EB, 0x5AD87278);
    assert Steps(INITIAL, b, 69) == Vars(0x497093C0, 0x78DD4D2B, 0x030F7CAD, 0x4405957E, 0x0677E9EB);
    assert Steps(INITIAL, b, 70) == Vars(0x3F2588C2, 0x497093C0, 0xDE37534A, 0x030F7CAD, 0x4405957E);
    assert Steps(INITIAL, b, 71) == Vars(0xC199F8C7, 0x3F2588C2, 0x125C24F0, 0xDE37534A, 0x030F7CAD);
    assert Steps(INITIAL, b, 72) == Vars(0x39859DE7, 0xC199F8C7, 0x8FC96230, 0x125C24F0, 0xDE37534A);
    assert Steps(INITIAL, b, 73) == Vars(0xEDB42DE4, 0x39859DE7, 0xF0667E31, 0x8FC96230, 0x125C24F0);
    assert Steps(INITIAL, b, 74) == Vars(0x11793F6F, 0xEDB42DE4, 0xCE616779, 0xF0667E31, 0x8FC96230);
    assert Steps(INITIAL, b, 75) == Vars(0x5EE76897, 0x11793F6F, 0x3B6D0B79, 0xCE616779, 0xF0667E31);
    assert Steps(INITIAL, b, 76) == Vars(0x63F7DAB7, 0x5EE76897, 0xC45E4FDB, 0x3B6D0B79, 0xCE616779);
    assert Steps(INITIAL, b, 77) == Vars(0xA079B7D9, 0x63F7DAB7, 0xD7B9DA25, 0xC45E4FDB, 0x3B6D0B79);
    assert Steps(INITIAL, b, 78) == Vars(0x860D21CC, 0xA079B7D9, 0xD8FDF6AD, 0xD7B9DA25, 0xC45E4FDB);
    assert Steps(INITIAL, b, 79) == Vars(0x5738D5E1, 0x860D21CC, 0x681E6DF6, 0xD8FDF6AD, 0xD7B9DA25);
  }

  lemma AbcValue()
    ensures Chain(Padded(ABC), 1) == Vars(0xA9993E36, 0x4706816A, 0xBA3E2571, 0x7850C26C, 0x9CD0D89D)
  {
    hide Steps;
    PaddedAbc();
    StepsTo80(BlockAt(Padded(ABC), 0));
    assert Chain(Padded(ABC), 0) == INITIAL;
  }

  /** SHA1("abc") = A9993E36 4706816A BA3E2571 7850C26C 9CD0D89D. */
  lemma DigestOfAbc()
    ensures Digest(ABC) ==
      [0xA9, 0x99, 0x3E, 0x36, 0x47, 0x06, 0x81, 0x6A, 0xBA, 0x3E, 0x25, 0x71] +
      [0x78, 0x50, 0xC2, 0x6C, 0x9C, 0xD0, 0xD8, 0x9D]
  {
    hide Chain;
    PaddedAbc();
    AbcValue();
  }
}
