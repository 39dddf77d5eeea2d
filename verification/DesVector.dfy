/** The first block of the example of electronic codebook mode in FIPS 81 (table B1), worked out: the key
    0123456789ABCDEF takes "Now is t" to 3FA40E8A984D4815. */
module DesVector {
  import opened DesStandard

  const KEY: bv64 := 0x0123_4567_89AB_CDEF

  // The key schedule

  lemma HalvesOfKey()
    ensures KeyHalves(KEY, 0) == (0xF0C_CAA0, 0xAAC_CF00)
    ensures KeyHalves(KEY, 1) == (0xE19_9541, 0x559_9E01)
    ensures KeyHalves(KEY, 2) == (0xC33_2A83, 0xAB3_3C02)
    ensures KeyHalves(KEY, 3) == (0x0CC_AA0F, 0xACC_F00A)
    ensures KeyHalves(KEY, 4) == (0x332_A83C, 0xB33_C02A)
    ensures KeyHalves(KEY, 5) == (0xCCA_A0F0, 0xCCF_00AA)
    ensures KeyHalves(KEY, 6) == (0x32A_83C3, 0x33C_02AB)
    ensures KeyHalves(KEY, 7) == (0xCAA_0F0C, 0xCF0_0AAC)
    ensures KeyHalves(KEY, 8) == (0x2A8_3C33, 0x3C0_2AB3)
    ensures KeyHalves(KEY, 9) == (0x550_7866, 0x780_5566)
    ensures KeyHalves(KEY, 10) == (0x541_E199, 0xE01_5599)
    ensures KeyHalves(KEY, 11) == (0x507_8665, 0x805_5667)
    ensures KeyHalves(KEY, 12) == (0x41E_1995, 0x015_599E)
    ensures KeyHalves(KEY, 13) == (0x078_6655, 0x055_6678)
    ensures KeyHalves(KEY, 14) == (0x1E1_9954, 0x155_99E0)
    ensures KeyHalves(KEY, 15) == (0x786_6550, 0x556_6780)
    ensures KeyHalves(KEY, 16) == (0xF0C_CAA0, 0xAAC_CF00)
  {
  }

  lemma KeysFrom1()
    ensures RoundKey(KEY, 1) == 0x0B02_679B_49A5
    ensures RoundKey(KEY, 2) == 0x69A6_5925_6A26
    ensures RoundKey(KEY, 3) == 0x45D4_8AB4_28D2
    ensures RoundKey(KEY, 4) == 0x7289_D2A5_8257
  {
    HalvesOfKey();
  }

  lemma KeysFrom5()
    ensures RoundKey(KEY, 5) == 0x3CE8_0317_A6C2
    ensures RoundKey(KEY, 6) == 0x2325_1E3C_8545
    ensures RoundKey(KEY, 7) == 0x6C04_950A_E4C6
    ensures RoundKey(KEY, 8) == 0x5788_386C_E581
  {
    HalvesOfKey();
  }

  lemma KeysFrom9()
    ensures RoundKey(KEY, 9) == 0xC0C9_E926_B839
    ensures RoundKey(KEY, 10) == 0x91E3_0763_1D72
    ensures RoundKey(KEY, 11) == 0x211F_830D_893A
    ensures RoundKey(KEY, 12) == 0x7130_E545_5C54
  {
    HalvesOfKey();
  }

  lemma KeysFrom13()
    ensures RoundKey(KEY, 13) == 0x91C4_D049_80FC
    ensures RoundKey(KEY, 14) == 0x5443_B681_DC8D
    ensures RoundKey(KEY, 15) == 0xB691_050A_16B5
    ensures RoundKey(KEY, 16) == 0xCA3D_03B8_7032
  {
    HalvesOfKey();
  }

  // The rounds

  lemma FunctionFrom1()
    ensures CipherFunction(0x00FE_1327, 0x0B02_679B_49A5) == 0x7E4B_644F
    ensures CipherFunction(0xC9EF_E379, 0x69A6_5925_6A26) == 0xC2DB_C430
  {
  }

  lemma FunctionFrom3()
    ensures CipherFunction(0xC225_D717, 0x45D4_8AB4_28D2) == 0xD713_90FD
    ensures CipherFunction(0x1EFC_7384, 0x7289_D2A5_8257) == 0xB4D7_64C9
  {
  }

  lemma FunctionFrom5()
    ensures CipherFunction(0x76F2_B3DE, 0x3CE8_0317_A6C2) == 0x0E29_2004
    ensures CipherFunction(0x10D5_5380, 0x2325_1E3C_8545) == 0x9FF5_8A23
  {
  }

  lemma FunctionFrom7()
    ensures CipherFunction(0xE907_39FD, 0x6C04_950A_E4C6) == 0x47F6_6470
    ensures CipherFunction(0x5723_37F0, 0x5788_386C_E581) == 0x249E_5119
  {
  }

  lemma FunctionFrom9()
    ensures CipherFunction(0xCD99_68E4, 0xC0C9_E926_B839) == 0x7249_A149
    ensures CipherFunction(0x256A_96B9, 0x91E3_0763_1D72) == 0x4DD0_AAA8
  {
  }

  lemma FunctionFrom11()
    ensures CipherFunction(0x8049_C24C, 0x211F_830D_893A) == 0x840C_AC1F
    ensures CipherFunction(0xA166_3AA6, 0x7130_E545_5C54) == 0x375D_22D5
  {
  }

  lemma FunctionFrom13()
    ensures CipherFunction(0xB714_E099, 0x91C4_D049_80FC) == 0x028D_16E0
    ensures CipherFunction(0xA3EB_2C46, 0x5443_B681_DC8D) == 0x0E59_49FC
  {
  }

  lemma FunctionFrom15()
    ensures CipherFunction(0xB94D_A965, 0xB691_050A_16B5) == 0xB9E8_514B
    ensures CipherFunction(0x1A03_7D0D, 0xCA3D_03B8_7032) == 0xD9DC_0EC4
  {
  }

  lemma {:induction false} KeyAt(n: nat, k: nat)
    requires k < n
    ensures RoundKeys(KEY, n)[k] == RoundKey(KEY, k + 1)
  {
    hide RoundKey;
    if k < n - 1 {
      KeyAt(n - 1, k);
    }
  }

  /** One round, from the state `(l, r)` to `(r, x)`. */
  lemma Round(ks: seq<bv64>, n: nat, l: bv64, r: bv64, x: bv64)
    requires ks == RoundKeys(KEY, 16) && n < 16 && Xor(l, CipherFunction(r, RoundKey(KEY, n + 1))) == x
    ensures Rounds(ks[n..], l, r) == Rounds(ks[n + 1..], r, x)
  {
    hide RoundKeys, RoundKey, CipherFunction, Xor;
    KeyAt(16, n);
    assert ks[n..][1..] == ks[n + 1..];
  }

  lemma RoundsFrom1(ks: seq<bv64>)
    requires ks == RoundKeys(KEY, 16)
    ensures Rounds(ks[0..], 0xB7A4_8736, 0x00FE_1327) == Rounds(ks[4..], 0x1EFC_7384, 0x76F2_B3DE)
  {
    hide RoundKeys, RoundKey, CipherFunction, Rounds;
    KeysFrom1();
    FunctionFrom1();
    FunctionFrom3();
    Round(ks, 0, 0xB7A4_8736, 0x00FE_1327, 0xC9EF_E379);
    Round(ks, 1, 0x00FE_1327, 0xC9EF_E379, 0xC225_D717);
    Round(ks, 2, 0xC9EF_E379, 0xC225_D717, 0x1EFC_7384);
    Round(ks, 3, 0xC225_D717, 0x1EFC_7384, 0x76F2_B3DE);
  }

  lemma RoundsFrom5(ks: seq<bv64>)
    requires ks == RoundKeys(KEY, 16)
    ensures Rounds(ks[4..], 0x1EFC_7384, 0x76F2_B3DE) == Rounds(ks[8..], 0x5723_37F0, 0xCD99_68E4)
  {
    hide RoundKeys, RoundKey, CipherFunction, Rounds;
    KeysFrom5();
    FunctionFrom5();
    FunctionFrom7();
    Round(ks, 4, 0x1EFC_7384, 0x76F2_B3DE, 0x10D5_5380);
    Round(ks, 5, 0x76F2_B3DE, 0x10D5_5380, 0xE907_39FD);
    Round(ks, 6, 0x10D5_5380, 0xE907_39FD, 0x5723_37F0);
    Round(ks, 7, 0xE907_39FD, 0x5723_37F0, 0xCD99_68E4);
  }

  lemma RoundsFrom9(ks: seq<bv64>)
    requires ks == RoundKeys(KEY, 16)
    ensures Rounds(ks[8..], 0x5723_37F0, 0xCD99_68E4) == Rounds(ks[12..], 0xA166_3AA6, 0xB714_E099)
  {
    hide RoundKeys, RoundKey, CipherFunction, Rounds;
    KeysFrom9();
    FunctionFrom9();
    FunctionFrom11();
    Round(ks, 8, 0x5723_37F0, 0xCD99_68E4, 0x256A_96B9);
    Round(ks, 9, 0xCD99_68E4, 0x256A_96B9, 0x8049_C24C);
    Round(ks, 10, 0x256A_96B9, 0x8049_C24C, 0xA166_3AA6);
    Round(ks, 11, 0x8049_C24C, 0xA166_3AA6, 0xB714_E099);
  }

  lemma RoundsFrom13(ks: seq<bv64>)
    requires ks == RoundKeys(KEY, 16)
    ensures Rounds(ks[12..], 0xA166_3AA6, 0xB714_E099) == Rounds(ks[16..], 0x1A03_7D0D, 0x6091_A7A1)
  {
    hide RoundKeys, RoundKey, CipherFunction, Rounds;
    KeysFrom13();
    FunctionFrom13();
    FunctionFrom15();
    Round(ks, 12, 0xA166_3AA6, 0xB714_E099, 0xA3EB_2C46);
    Round(ks, 13, 0xB714_E099, 0xA3EB_2C46, 0xB94D_A965);
    Round(ks, 14, 0xA3EB_2C46, 0xB94D_A965, 0x1A03_7D0D);
    Round(ks, 15, 0xB94D_A965, 0x1A03_7D0D, 0x6091_A7A1);
  }

  lemma AllRounds()
    ensures Rounds(RoundKeys(KEY, 16), 0xB7A4_8736, 0x00FE_1327) == (0x1A03_7D0D, 0x6091_A7A1)
  {
    hide RoundKeys;
    var ks := RoundKeys(KEY, 16);
    assert ks[0..] == ks && ks[16..] == [];
    RoundsFrom1(ks);
    RoundsFrom5(ks);
    RoundsFrom9(ks);
    RoundsFrom13(ks);
  }

  lemma Outside()
    ensures InitialPermutation(0x4E6F_7720_6973_2074) == 0xB7A4_8736_00FE_1327
    ensures FinalPermutation(0x6091_A7A1_1A03_7D0D) == 0x3FA4_0E8A_984D_4815
  {
  }

  lemma EncryptionOfExample()
    ensures Encrypt(KEY, 0x4E6F_7720_6973_2074) == 0x3FA4_0E8A_984D_4815
  {
    hide Rounds, RoundKeys, InitialPermutation, FinalPermutation;
    AllRounds();
    Outside();
  }
}
