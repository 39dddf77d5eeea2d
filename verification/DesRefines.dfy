/** The optimised form of base/algorithm/des.cpp computes the DES of FIPS 46-3: its halves are those
    of the standard rotated left by one bit, its S-box tables have the permutation P in them, and its
    key words hold the round keys in groups of six bits. */
module DesRefines {
  import opened Des
  import opened DesCipher
  import opened DesContext
  import Standard = DesStandard

  function Rotl1(x: bv64): Word {
    ((x << 1) | (x >> 31)) & 0xFFFF_FFFF
  }

  /** The 64 bits of a block, as the standard numbers them. */
  function Bits(b: Block): bv64 {
    Standard.Join(GetWord(b[0], b[1], b[2], b[3]), GetWord(b[4], b[5], b[6], b[7]))
  }

  /** Byte `n` of a block, counted from 1, holds bits 8 * n - 7 to 8 * n. */
  lemma BitsInOrder(b: Block)
    ensures Bits(b) ==
      ((b[0] as bv64) << 56) | ((b[1] as bv64) << 48) | ((b[2] as bv64) << 40) | ((b[3] as bv64) << 32) |
      ((b[4] as bv64) << 24) | ((b[5] as bv64) << 16) | ((b[6] as bv64) << 8) | (b[7] as bv64)
  {
  }

  // ---------------------------------------------------------------------------------------
  // The outer permutations
  // ---------------------------------------------------------------------------------------

  lemma InitialIs(m: bv64)
    ensures var p := Standard.InitialPermutation(m);
      InitialPermutation(Standard.High(m), Standard.Low(m)) == (Rotl1(Standard.High(p)), Rotl1(Standard.Low(p)))
  {
  }

  lemma FinalIs(l: Word, r: Word)
    ensures var (y, x) := FinalPermutation(Rotl1(r), Rotl1(l));
      Standard.FinalPermutation(Standard.Join(r, l)) == Standard.Join(y, x)
  {
  }

  // ---------------------------------------------------------------------------------------
  // The round function
  // ---------------------------------------------------------------------------------------

  /** Groups 2, 4, 6 and 8 of a round key, and groups 1, 3, 5 and 7, a byte each. */
  function EvenGroups(k: bv64): bv64 {
    (((k >> 36) & 0x3F) << 24) | (((k >> 24) & 0x3F) << 16) | (((k >> 12) & 0x3F) << 8) | (k & 0x3F)
  }

  function OddGroups(k: bv64): bv64 {
    (((k >> 42) & 0x3F) << 24) | (((k >> 30) & 0x3F) << 16) | (((k >> 18) & 0x3F) << 8) | ((k >> 6) & 0x3F)
  }

  /** What one S-box contributes to a rotated half. */
  function Spot(s: bv64, shift: bv6): Word {
    Rotl1(Standard.PermutationP(s << shift))
  }

  function Six(x: bv64, s: bv6): bv64 {
    (x >> s) & 0x3F
  }

  // Every box looks at the group of the expanded half combined with the round key that the standard
  // gives it, and holds what the standard's box and then P make of it.

  lemma Group1(k: bv64, r: Word)
    ensures Six(OddIndices(OddGroups(k), Rotl1(r)), 24) == Six(Standard.Expansion(r) ^ k, 42)
  {
  }

  lemma Table1(t: bv64)
    ensures Box(SB1, t >> 24) == Spot(Standard.S1(Six(t, 24)), 28)
  {
  }

  lemma Box1(k: bv64, r: Word)
    ensures Box(SB1, OddIndices(OddGroups(k), Rotl1(r)) >> 24) == Spot(Standard.S1(Six(Standard.Expansion(r) ^ k, 42)), 28)
  {
    hide Six, EvenGroups, OddGroups, Standard.Expansion, Rotl1, EvenIndices, OddIndices, Box, Spot, Standard.S1;
    Group1(k, r);
    Table1(OddIndices(OddGroups(k), Rotl1(r)));
  }

  lemma Group2(k: bv64, r: Word)
    ensures Six(EvenIndices(EvenGroups(k), Rotl1(r)), 24) == Six(Standard.Expansion(r) ^ k, 36)
  {
  }

  lemma Table2(t: bv64)
    ensures Box(SB2, t >> 24) == Spot(Standard.S2(Six(t, 24)), 24)
  {
  }

  lemma Box2(k: bv64, r: Word)
    ensures Box(SB2, EvenIndices(EvenGroups(k), Rotl1(r)) >> 24) == Spot(Standard.S2(Six(Standard.Expansion(r) ^ k, 36)), 24)
  {
    hide Six, EvenGroups, OddGroups, Standard.Expansion, Rotl1, EvenIndices, OddIndices, Box, Spot, Standard.S2;
    Group2(k, r);
    Table2(EvenIndices(EvenGroups(k), Rotl1(r)));
  }

  lemma Group3(k: bv64, r: Word)
    ensures Six(OddIndices(OddGroups(k), Rotl1(r)), 16) == Six(Standard.Expansion(r) ^ k, 30)
  {
  }

  lemma Table3(t: bv64)
    ensures Box(SB3, t >> 16) == Spot(Standard.S3(Six(t, 16)), 20)
  {
  }

  lemma Box3(k: bv64, r: Word)
    ensures Box(SB3, OddIndices(OddGroups(k), Rotl1(r)) >> 16) == Spot(Standard.S3(Six(Standard.Expansion(r) ^ k, 30)), 20)
  {
    hide Six, EvenGroups, OddGroups, Standard.Expansion, Rotl1, EvenIndices, OddIndices, Box, Spot, Standard.S3;
    Group3(k, r);
    Table3(OddIndices(OddGroups(k), Rotl1(r)));
  }

  lemma Group4(k: bv64, r: Word)
    ensures Six(EvenIndices(EvenGroups(k), Rotl1(r)), 16) == Six(Standard.Expansion(r) ^ k, 24)
  {
  }

  lemma Table4(t: bv64)
    ensures Box(SB4, t >> 16) == Spot(Standard.S4(Six(t, 16)), 16)
  {
  }

  lemma Box4(k: bv64, r: Word)
    ensures Box(SB4, EvenIndices(EvenGroups(k), Rotl1(r)) >> 16) == Spot(Standard.S4(Six(Standard.Expansion(r) ^ k, 24)), 16)
  {
    hide Six, EvenGroups, OddGroups, Standard.Expansion, Rotl1, EvenIndices, OddIndices, Box, Spot, Standard.S4;
    Group4(k, r);
    Table4(EvenIndices(EvenGroups(k), Rotl1(r)));
  }

  lemma Group5(k: bv64, r: Word)
    ensures Six(OddIndices(OddGroups(k), Rotl1(r)), 8) == Six(Standard.Expansion(r) ^ k, 18)
  {
  }

  lemma Table5(t: bv64)
    ensures Box(SB5, t >> 8) == Spot(Standard.S5(Six(t, 8)), 12)
  {
  }

  lemma Box5(k: bv64, r: Word)
    ensures Box(SB5, OddIndices(OddGroups(k), Rotl1(r)) >> 8) == Spot(Standard.S5(Six(Standard.Expansion(r) ^ k, 18)), 12)
  {
    hide Six, EvenGroups, OddGroups, Standard.Expansion, Rotl1, EvenIndices, OddIndices, Box, Spot, Standard.S5;
    Group5(k, r);
    Table5(OddIndices(OddGroups(k), Rotl1(r)));
  }

  lemma Group6(k: bv64, r: Word)
    ensures Six(EvenIndices(EvenGroups(k), Rotl1(r)), 8) == Six(Standard.Expansion(r) ^ k, 12)
  {
  }

  lemma Table6(t: bv64)
    ensures Box(SB6, t >> 8) == Spot(Standard.S6(Six(t, 8)), 8)
  {
  }

  lemma Box6(k: bv64, r: Word)
    ensures Box(SB6, EvenIndices(EvenGroups(k), Rotl1(r)) >> 8) == Spot(Standard.S6(Six(Standard.Expansion(r) ^ k, 12)), 8)
  {
    hide Six, EvenGroups, OddGroups, Standard.Expansion, Rotl1, EvenIndices, OddIndices, Box, Spot, Standard.S6;
    Group6(k, r);
    Table6(EvenIndices(EvenGroups(k), Rotl1(r)));
  }

  lemma Group7(k: bv64, r: Word)
    ensures Six(OddIndices(OddGroups(k), Rotl1(r)), 0) == Six(Standard.Expansion(r) ^ k, 6)
  {
  }

  lemma Table7(t: bv64)
    ensures Box(SB7, t) == Spot(Standard.S7(Six(t, 0)), 4)
  {
  }

  lemma Box7(k: bv64, r: Word)
    ensures Box(SB7, OddIndices(OddGroups(k), Rotl1(r))) == Spot(Standard.S7(Six(Standard.Expansion(r) ^ k, 6)), 4)
  {
    hide Six, EvenGroups, OddGroups, Standard.Expansion, Rotl1, EvenIndices, OddIndices, Box, Spot, Standard.S7;
    Group7(k, r);
    Table7(OddIndices(OddGroups(k), Rotl1(r)));
  }

  lemma Group8(k: bv64, r: Word)
    ensures Six(EvenIndices(EvenGroups(k), Rotl1(r)), 0) == Six(Standard.Expansion(r) ^ k, 0)
  {
  }

  lemma Table8(t: bv64)
    ensures Box(SB8, t) == Spot(Standard.S8(Six(t, 0)), 0)
  {
  }

  lemma Box8(k: bv64, r: Word)
    ensures Box(SB8, EvenIndices(EvenGroups(k), Rotl1(r))) == Spot(Standard.S8(Six(Standard.Expansion(r) ^ k, 0)), 0)
  {
    hide Six, EvenGroups, OddGroups, Standard.Expansion, Rotl1, EvenIndices, OddIndices, Box, Spot, Standard.S8;
    Group8(k, r);
    Table8(EvenIndices(EvenGroups(k), Rotl1(r)));
  }

  /** P of eight entries side by side is the sum of their contributions. */
  lemma SpotsAdd(s1: bv64, s2: bv64, s3: bv64, s4: bv64, s5: bv64, s6: bv64, s7: bv64, s8: bv64)
    requires s1 <= 15 && s2 <= 15 && s3 <= 15 && s4 <= 15 && s5 <= 15 && s6 <= 15 && s7 <= 15 && s8 <= 15
    ensures
      Xor8(Spot(s8, 0), Spot(s6, 8), Spot(s4, 16), Spot(s2, 24), Spot(s7, 4), Spot(s5, 12), Spot(s3, 20), Spot(s1, 28)) ==
      Rotl1(Standard.PermutationP(Standard.SideBySide(s1, s2, s3, s4, s5, s6, s7, s8)))
  {
  }

  lemma EntriesBound(x: bv64)
    ensures Standard.S1(x) <= 15 && Standard.S2(x) <= 15 && Standard.S3(x) <= 15 && Standard.S4(x) <= 15
    ensures Standard.S5(x) <= 15 && Standard.S6(x) <= 15 && Standard.S7(x) <= 15 && Standard.S8(x) <= 15
  {
  }

  /** What the standard's boxes give for 48 bits, as contributions to a rotated half. */
  function Spots(e: bv64): Word {
    Xor8(Spot(Standard.S8(Six(e, 0)), 0), Spot(Standard.S6(Six(e, 12)), 8), Spot(Standard.S4(Six(e, 24)), 16),
      Spot(Standard.S2(Six(e, 36)), 24), Spot(Standard.S7(Six(e, 6)), 4), Spot(Standard.S5(Six(e, 18)), 12),
      Spot(Standard.S3(Six(e, 30)), 20), Spot(Standard.S1(Six(e, 42)), 28))
  }

  lemma SpotsAre(e: bv64)
    ensures Spots(e) == Rotl1(Standard.PermutationP(Standard.Substituted(e)))
  {
    hide Xor8, Standard.SideBySide, Rotl1, Standard.PermutationP, Spot, Standard.S1, Standard.S2, Standard.S3,
      Standard.S4, Standard.S5,
      Standard.S6, Standard.S7, Standard.S8;
    EntriesBound(Six(e, 42));
    EntriesBound(Six(e, 36));
    EntriesBound(Six(e, 30));
    EntriesBound(Six(e, 24));
    EntriesBound(Six(e, 18));
    EntriesBound(Six(e, 12));
    EntriesBound(Six(e, 6));
    EntriesBound(Six(e, 0));
    SpotsAdd(Standard.S1(Six(e, 42)), Standard.S2(Six(e, 36)), Standard.S3(Six(e, 30)), Standard.S4(Six(e, 24)),
      Standard.S5(Six(e, 18)), Standard.S6(Six(e, 12)), Standard.S7(Six(e, 6)), Standard.S8(Six(e, 0)));
  }

  /** The function of a round is f on rotated halves. */
  lemma RoundFunctionIs(k: bv64, r: Word)
    ensures RoundFunction(EvenGroups(k), OddGroups(k), Rotl1(r)) == Rotl1(Standard.CipherFunction(r, k))
  {
    hide Xor8, EvenIndices, OddIndices, EvenGroups, OddGroups, Standard.Expansion, Rotl1, Box, Spot, Standard.PermutationP,
      Standard.Substituted, Standard.S1, Standard.S2, Standard.S3, Standard.S4, Standard.S5, Standard.S6,
      Standard.S7, Standard.S8;
    Box1(k, r);
    Box2(k, r);
    Box3(k, r);
    Box4(k, r);
    Box5(k, r);
    Box6(k, r);
    Box7(k, r);
    Box8(k, r);
    SpotsAre(Standard.Expansion(r) ^ k);
  }

  // ---------------------------------------------------------------------------------------
  // The key schedule
  // ---------------------------------------------------------------------------------------

  /** What the tables spread a nibble to: its bits a byte apart, in one order or the other. */
  function LhsBits(v: bv64): bv64 {
    (v & 1) | ((v & 2) << 7) | ((v & 4) << 14) | ((v & 8) << 21)
  }

  function RhsBits(v: bv64): bv64 {
    ((v & 1) << 24) | ((v & 2) << 15) | ((v & 4) << 6) | ((v & 8) >> 3)
  }

  lemma LhsIs(v: bv64)
    ensures LHS[(v & 0xF) as int] == LhsBits(v)
  {
  }

  lemma RhsIs(v: bv64)
    ensures RHS[(v & 0xF) as int] == RhsBits(v)
  {
  }

  /** The left half of permuted choice 1, of the words after the two swaps. */
  function LeftChoice(x: bv64): bv64 {
    Layers(LhsBits(x), LhsBits(x >> 8), LhsBits(x >> 16), LhsBits(x >> 24),
      LhsBits(x >> 5), LhsBits(x >> 13), LhsBits(x >> 21), LhsBits(x >> 29))
  }

  function RightChoice(y: bv64): bv64 {
    Layers(RhsBits(y >> 1), RhsBits(y >> 9), RhsBits(y >> 17), RhsBits(y >> 25),
      RhsBits(y >> 4), RhsBits(y >> 12), RhsBits(y >> 20), RhsBits(y >> 28))
  }

  lemma LeftSpread(x: bv64)
    ensures Spread(LHS, x, 0, 8, 16, 24, 5, 13, 21, 29) == LeftChoice(x)
  {
    hide LhsBits, Layers;
    LhsIs(x);
    LhsIs(x >> 8);
    LhsIs(x >> 16);
    LhsIs(x >> 24);
    LhsIs(x >> 5);
    LhsIs(x >> 13);
    LhsIs(x >> 21);
    LhsIs(x >> 29);
  }

  lemma RightSpread(y: bv64)
    ensures Spread(RHS, y, 1, 9, 17, 25, 4, 12, 20, 28) == RightChoice(y)
  {
    hide RhsBits, Layers;
    RhsIs(y >> 1);
    RhsIs(y >> 9);
    RhsIs(y >> 17);
    RhsIs(y >> 25);
    RhsIs(y >> 4);
    RhsIs(y >> 12);
    RhsIs(y >> 20);
    RhsIs(y >> 28);
  }

  lemma LeftBits(m: bv64)
    ensures Low28(LeftChoice(Swapped(Standard.High(m), Standard.Low(m)).0)) == Standard.LeftHalf(Standard.PermutedChoice1(m))
  {
  }

  function RightOf(m: bv64): bv64 {
    RightChoice(Swapped(Standard.High(m), Standard.Low(m)).1)
  }

  lemma RightBits0(m: bv64)
    ensures RightOf(m) & 0x0000007F == Standard.PermutedChoice1(m) & 0x0000007F
  {
  }

  lemma RightBits1(m: bv64)
    ensures RightOf(m) & 0x00003F80 == Standard.PermutedChoice1(m) & 0x00003F80
  {
  }

  lemma RightBits2(m: bv64)
    ensures RightOf(m) & 0x001FC000 == Standard.PermutedChoice1(m) & 0x001FC000
  {
  }

  lemma RightBits3(m: bv64)
    ensures RightOf(m) & 0x0FE00000 == Standard.PermutedChoice1(m) & 0x0FE00000
  {
  }

  lemma FourMasks(x: bv64, y: bv64)
    requires x & 0x7F == y & 0x7F && x & 0x3F80 == y & 0x3F80 && x & 0x1F_C000 == y & 0x1F_C000
    requires x & 0x0FE0_0000 == y & 0x0FE0_0000
    ensures Low28(x) == Standard.RightHalf(y)
  {
  }

  lemma RightBits(m: bv64)
    ensures Low28(RightOf(m)) == Standard.RightHalf(Standard.PermutedChoice1(m))
  {
    hide RightOf, Low28, Standard.PermutedChoice1, Standard.RightHalf;
    RightBits0(m);
    RightBits1(m);
    RightBits2(m);
    RightBits3(m);
    FourMasks(RightOf(m), Standard.PermutedChoice1(m));
  }

  lemma BitsHalves(b: Block)
    ensures Standard.High(Bits(b)) == GetWord(b[0], b[1], b[2], b[3])
    ensures Standard.Low(Bits(b)) == GetWord(b[4], b[5], b[6], b[7])
  {
    hide GetWord, Standard.High, Standard.Low, Standard.Join;
    JoinHalves(GetWord(b[0], b[1], b[2], b[3]), GetWord(b[4], b[5], b[6], b[7]));
  }

  lemma JoinHalves(x: Word, y: Word)
    ensures Standard.High(Standard.Join(x, y)) == x && Standard.Low(Standard.Join(x, y)) == y
  {
  }

  lemma ChoiceIs(key: Block)
    ensures var p := Standard.PermutedChoice1(Bits(key));
      PermutedChoice1(key) == (Standard.LeftHalf(p), Standard.RightHalf(p))
  {
    hide Spread, LeftChoice, RightChoice, Standard.PermutedChoice1, GetWord, Bits, Standard.High, Standard.Low,
      Low28, Standard.LeftHalf, Standard.RightHalf, Swapped;
    BitsHalves(key);
    LeftBits(Bits(key));
    RightBits(Bits(key));
    var (x, y) := Swapped(Standard.High(Bits(key)), Standard.Low(Bits(key)));
    LeftSpread(x);
    RightSpread(y);
  }

  lemma ChoiceBounds(m: bv64)
    ensures var p := Standard.PermutedChoice1(m);
      Standard.LeftHalf(p) <= 0x0FFF_FFFF && Standard.RightHalf(p) <= 0x0FFF_FFFF
  {
  }

  lemma ShiftOnce(x: bv64)
    requires x <= 0x0FFF_FFFF
    ensures Standard.ShiftLeft(x, 1) == ((x << 1) | (x >> 27)) & 0x0FFF_FFFF <= 0x0FFF_FFFF
  {
  }

  lemma ShiftTwice(x: bv64)
    requires x <= 0x0FFF_FFFF
    ensures Standard.ShiftLeft(x, 2) == ((x << 2) | (x >> 26)) & 0x0FFF_FFFF <= 0x0FFF_FFFF
  {
  }

  lemma RotationIs(x: bv64, n: nat)
    requires x <= 0x0FFF_FFFF && n < 16
    ensures RotateHalf(x, n) == Standard.ShiftLeft(x, Standard.Shifts(n + 1)) <= 0x0FFF_FFFF
  {
    hide Standard.ShiftLeft;
    ShiftOnce(x);
    ShiftTwice(x);
  }

  lemma EvenWordIs(c: bv64, d: bv64)
    requires c <= 0x0FFF_FFFF && d <= 0x0FFF_FFFF
    ensures EvenWord(c, d) == EvenGroups(Standard.PermutedChoice2(Standard.Halves(c, d)))
  {
  }

  lemma OddWordIs(c: bv64, d: bv64)
    requires c <= 0x0FFF_FFFF && d <= 0x0FFF_FFFF
    ensures OddWord(c, d) == OddGroups(Standard.PermutedChoice2(Standard.Halves(c, d)))
  {
  }

  lemma WordsAre(c: bv64, d: bv64)
    requires c <= 0x0FFF_FFFF && d <= 0x0FFF_FFFF
    ensures var k := Standard.PermutedChoice2(Standard.Halves(c, d));
      EvenWord(c, d) == EvenGroups(k) && OddWord(c, d) == OddGroups(k)
  {
    EvenWordIs(c, d);
    OddWordIs(c, d);
  }

  /** The halves of the key go through the same values. */
  lemma {:induction false} HalvesAre(key: Block, n: nat)
    requires n <= 16
    ensures Halves(key, n) == Standard.KeyHalves(Bits(key), n)
    ensures Halves(key, n).0 <= 0x0FFF_FFFF && Halves(key, n).1 <= 0x0FFF_FFFF
  {
    hide PermutedChoice1, Standard.PermutedChoice1, RotateHalf, Standard.ShiftLeft, Standard.Shifts, Bits,
      Standard.LeftHalf, Standard.RightHalf;
    if n == 0 {
      ChoiceIs(key);
      ChoiceBounds(Bits(key));
    } else {
      HalvesAre(key, n - 1);
      RotationIs(Halves(key, n - 1).0, n - 1);
      RotationIs(Halves(key, n - 1).1, n - 1);
    }
  }

  /** Two words for each round key. */
  function Doubled(ks: seq<bv64>): (r: Key)
    ensures |r| == 2 * |ks|
  {
    if ks == [] then [] else [EvenGroups(ks[0]), OddGroups(ks[0])] + Doubled(ks[1..])
  }

  lemma {:induction false} DoubledAppend(s: seq<bv64>, k: bv64)
    ensures Doubled(s + [k]) == Doubled(s) + [EvenGroups(k), OddGroups(k)]
  {
    hide EvenGroups, OddGroups;
    if s == [] {
      assert [k][1..] == [];
    } else {
      assert (s + [k])[1..] == s[1..] + [k];
      DoubledAppend(s[1..], k);
    }
  }

  lemma {:induction false} ScheduleIs(key: Block, n: nat)
    requires n <= 16
    ensures Schedule(key, n) == Doubled(Standard.RoundKeys(Bits(key), n))
  {
    hide EvenGroups, OddGroups, EvenWord, OddWord, Halves, Standard.KeyHalves, Standard.PermutedChoice2,
      Standard.Halves, Bits;
    if n > 0 {
      ScheduleIs(key, n - 1);
      HalvesAre(key, n);
      var (c, d) := Halves(key, n);
      WordsAre(c, d);
      DoubledAppend(Standard.RoundKeys(Bits(key), n - 1), Standard.RoundKey(Bits(key), n));
    }
  }

  lemma {:induction false} DoubledReversed(ks: seq<bv64>)
    ensures PairReversed(Doubled(ks)) == Doubled(Standard.Reversed(ks))
  {
    hide EvenGroups, OddGroups;
    if ks != [] {
      var d := Doubled(ks);
      assert d[2..] == Doubled(ks[1..]) && d[..2] == [EvenGroups(ks[0]), OddGroups(ks[0])];
      DoubledReversed(ks[1..]);
      DoubledAppend(Standard.Reversed(ks[1..]), ks[0]);
    }
  }

  // ---------------------------------------------------------------------------------------
  // The whole
  // ---------------------------------------------------------------------------------------

  lemma XorBound(l: Word, f: Word)
    ensures Standard.Xor(l, f) <= 0xFFFF_FFFF
  {
  }

  lemma RotatedXor(l: Word, f: Word)
    ensures (Rotl1(l) as bv64) ^ Rotl1(f) == Rotl1((l as bv64) ^ f)
  {
  }

  lemma MixRotated(l: Word, f: Word)
    ensures Mix(Rotl1(l), Rotl1(f)) == Rotl1(Standard.Xor(l, f))
  {
    hide Rotl1;
    RotatedXor(l, f);
  }

  lemma CipherBound(r: bv64, k: bv64)
    ensures Standard.CipherFunction(r, k) <= 0xFFFF_FFFF
  {
    hide Standard.Substituted, Standard.Expansion;
    PermutationBound(Standard.Substituted(Standard.Expansion(r) ^ k));
  }

  lemma PermutationBound(x: bv64)
    ensures Standard.PermutationP(x) <= 0xFFFF_FFFF
  {
  }

  lemma {:induction false} RoundsAre(ks: seq<bv64>, l: Word, r: Word)
    ensures var (p, q) := Standard.Rounds(ks, l, r);
      p <= 0xFFFF_FFFF && q <= 0xFFFF_FFFF && Rounds(Doubled(ks), Rotl1(l), Rotl1(r)) == (Rotl1(p), Rotl1(q))
  {
    hide RoundFunction, Mix, Rotl1, EvenGroups, OddGroups, Standard.CipherFunction, Standard.Xor;
    if ks != [] {
      var f := Standard.CipherFunction(r, ks[0]);
      CipherBound(r, ks[0]);
      RoundFunctionIs(ks[0], r);
      XorBound(l, f);
      MixRotated(l, f);
      var d := Doubled(ks);
      assert d[2..] == Doubled(ks[1..]) && d[0] == EvenGroups(ks[0]) && d[1] == OddGroups(ks[0]);
      RoundsAre(ks[1..], r, Standard.Xor(l, f));
    }
  }

  lemma EnterIs(x: Block)
    ensures var p := Standard.InitialPermutation(Bits(x)); Enter(x) == (Rotl1(Standard.High(p)), Rotl1(Standard.Low(p)))
  {
    hide InitialPermutation, Standard.InitialPermutation, GetWord, Rotl1, Bits, Standard.High, Standard.Low;
    BitsHalves(x);
    InitialIs(Bits(x));
  }

  lemma ExitIs(l: Word, r: Word)
    ensures Bits(Exit(Rotl1(l), Rotl1(r))) == Standard.FinalPermutation(Standard.Join(r, l))
  {
    hide FinalPermutation, Standard.FinalPermutation, GetWord, PutWord, Rotl1, Standard.Join;
    FinalIs(l, r);
    var (y, x) := FinalPermutation(Rotl1(r), Rotl1(l));
    GetPut(y);
    GetPut(x);
  }

  lemma HalvesBound(p: bv64)
    ensures Standard.High(p) <= 0xFFFF_FFFF && Standard.Low(p) <= 0xFFFF_FFFF
  {
  }

  /** `des_crypt` with the words of some round keys is the computation of the standard. */
  lemma CryptIs(ks: seq<bv64>, x: Block)
    ensures Bits(Crypt(Doubled(ks), x)) == Standard.Compute(ks, Bits(x))
  {
    hide Enter, Exit, Bits, Rotl1, Rounds, Standard.Rounds, Standard.InitialPermutation, Standard.FinalPermutation,
      Standard.High, Standard.Low, Standard.Join, Doubled;
    var p := Standard.InitialPermutation(Bits(x));
    HalvesBound(p);
    EnterIs(x);
    RoundsAre(ks, Standard.High(p), Standard.Low(p));
    var (l, r) := Standard.Rounds(ks, Standard.High(p), Standard.Low(p));
    ExitIs(l, r);
  }

  /** The two schedules of a key encrypt and decrypt as FIPS 46-3 does, on every block. */
  lemma DesIsStandard(key: Block, x: Block)
    ensures Bits(Crypt(KeySchedule(key), x)) == Standard.Encrypt(Bits(key), Bits(x))
    ensures Bits(Crypt(PairReversed(KeySchedule(key)), x)) == Standard.Decrypt(Bits(key), Bits(x))
  {
    hide Crypt, Bits, Doubled, PairReversed, Standard.Compute, Standard.RoundKeys, Standard.Reversed, Schedule;
    var ks := Standard.RoundKeys(Bits(key), 16);
    ScheduleIs(key, 16);
    DoubledReversed(ks);
    CryptIs(ks, x);
    CryptIs(Standard.Reversed(ks), x);
  }

  /** The schedules of Triple-DES encrypt with the first key, decrypt with the second and encrypt with
      the third, and the other way round. */
  lemma Des3IsStandard(key1: Block, key2: Block, key3: Block, x: Block)
    ensures
      var k1, k2, k3 := KeySchedule(key1), KeySchedule(key2), KeySchedule(key3);
      var a, b, c, m := Bits(key1), Bits(key2), Bits(key3), Bits(x);
      && Bits(Crypt3(k1, PairReversed(k2), k3, x)) == Standard.Encrypt(c, Standard.Decrypt(b, Standard.Encrypt(a, m)))
      && Bits(Crypt3(PairReversed(k3), k2, PairReversed(k1), x)) ==
        Standard.Decrypt(a, Standard.Encrypt(b, Standard.Decrypt(c, m)))
  {
    hide Crypt, Crypt3, Bits, KeySchedule, PairReversed, Standard.Encrypt, Standard.Decrypt;
    var k1, k2, k3 := KeySchedule(key1), KeySchedule(key2), KeySchedule(key3);
    TripleIsThree(k1, PairReversed(k2), k3, x);
    DesIsStandard(key1, x);
    DesIsStandard(key2, Crypt(k1, x));
    DesIsStandard(key3, Crypt(PairReversed(k2), Crypt(k1, x)));
    TripleIsThree(PairReversed(k3), k2, PairReversed(k1), x);
    DesIsStandard(key3, x);
    DesIsStandard(key2, Crypt(PairReversed(k3), x));
    DesIsStandard(key1, Crypt(k2, Crypt(PairReversed(k3), x)));
  }
}
