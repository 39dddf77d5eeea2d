/** DES as FIPS 46-3 defines it, on 64-bit blocks and keys whose bits are numbered from 1 at the left. */
module DesStandard {

  /** Bit `n` of the `w` bits of `x`. */
  function Bit(x: bv64, w: bv7, n: bv7): bv64
    requires 0 < n <= w <= 64
  {
    (x >> (w - n)) & 1
  }

  // Rows of the tables: the bits that a row of a permutation takes.

  function Row4(x: bv64, w: bv7, a: bv7, b: bv7, c: bv7, d: bv7): bv64
    requires 0 < a <= w <= 64 && 0 < b <= w && 0 < c <= w && 0 < d <= w
  {
    (Bit(x, w, a) << 3) | (Bit(x, w, b) << 2) | (Bit(x, w, c) << 1) | Bit(x, w, d)
  }

  function Row6(x: bv64, w: bv7, a: bv7, b: bv7, c: bv7, d: bv7, e: bv7, f: bv7): bv64
    requires 0 < a <= w <= 64 && 0 < b <= w && 0 < c <= w && 0 < d <= w && 0 < e <= w && 0 < f <= w
  {
    (Row4(x, w, a, b, c, d) << 2) | (Bit(x, w, e) << 1) | Bit(x, w, f)
  }

  function Row7(x: bv64, w: bv7, a: bv7, b: bv7, c: bv7, d: bv7, e: bv7, f: bv7, g: bv7): bv64
    requires 0 < a <= w <= 64 && 0 < b <= w && 0 < c <= w && 0 < d <= w && 0 < e <= w && 0 < f <= w && 0 < g <= w
  {
    (Row6(x, w, a, b, c, d, e, f) << 1) | Bit(x, w, g)
  }

  function Row8(x: bv64, w: bv7, a: bv7, b: bv7, c: bv7, d: bv7, e: bv7, f: bv7, g: bv7, h: bv7): bv64
    requires 0 < a <= w <= 64 && 0 < b <= w && 0 < c <= w && 0 < d <= w
    requires 0 < e <= w && 0 < f <= w && 0 < g <= w && 0 < h <= w
  {
    (Row7(x, w, a, b, c, d, e, f, g) << 1) | Bit(x, w, h)
  }

  /** IP. */
  function InitialPermutation(m: bv64): bv64 {
    (Row8(m, 64, 58, 50, 42, 34, 26, 18, 10, 2) << 56) |
    (Row8(m, 64, 60, 52, 44, 36, 28, 20, 12, 4) << 48) |
    (Row8(m, 64, 62, 54, 46, 38, 30, 22, 14, 6) << 40) |
    (Row8(m, 64, 64, 56, 48, 40, 32, 24, 16, 8) << 32) |
    (Row8(m, 64, 57, 49, 41, 33, 25, 17, 9, 1) << 24) |
    (Row8(m, 64, 59, 51, 43, 35, 27, 19, 11, 3) << 16) |
    (Row8(m, 64, 61, 53, 45, 37, 29, 21, 13, 5) << 8) |
    Row8(m, 64, 63, 55, 47, 39, 31, 23, 15, 7)
  }

  /** The inverse of IP. */
  function FinalPermutation(m: bv64): bv64 {
    (Row8(m, 64, 40, 8, 48, 16, 56, 24, 64, 32) << 56) |
    (Row8(m, 64, 39, 7, 47, 15, 55, 23, 63, 31) << 48) |
    (Row8(m, 64, 38, 6, 46, 14, 54, 22, 62, 30) << 40) |
    (Row8(m, 64, 37, 5, 45, 13, 53, 21, 61, 29) << 32) |
    (Row8(m, 64, 36, 4, 44, 12, 52, 20, 60, 28) << 24) |
    (Row8(m, 64, 35, 3, 43, 11, 51, 19, 59, 27) << 16) |
    (Row8(m, 64, 34, 2, 42, 10, 50, 18, 58, 26) << 8) |
    Row8(m, 64, 33, 1, 41, 9, 49, 17, 57, 25)
  }

  /** E, from 32 bits to 48. */
  function Expansion(r: bv64): bv64 {
    (Row6(r, 32, 32, 1, 2, 3, 4, 5) << 42) |
    (Row6(r, 32, 4, 5, 6, 7, 8, 9) << 36) |
    (Row6(r, 32, 8, 9, 10, 11, 12, 13) << 30) |
    (Row6(r, 32, 12, 13, 14, 15, 16, 17) << 24) |
    (Row6(r, 32, 16, 17, 18, 19, 20, 21) << 18) |
    (Row6(r, 32, 20, 21, 22, 23, 24, 25) << 12) |
    (Row6(r, 32, 24, 25, 26, 27, 28, 29) << 6) |
    Row6(r, 32, 28, 29, 30, 31, 32, 1)
  }

  /** P, on 32 bits. */
  function PermutationP(x: bv64): bv64 {
    (Row4(x, 32, 16, 7, 20, 21) << 28) |
    (Row4(x, 32, 29, 12, 28, 17) << 24) |
    (Row4(x, 32, 1, 15, 23, 26) << 20) |
    (Row4(x, 32, 5, 18, 31, 10) << 16) |
    (Row4(x, 32, 2, 8, 24, 14) << 12) |
    (Row4(x, 32, 32, 27, 3, 9) << 8) |
    (Row4(x, 32, 19, 13, 30, 6) << 4) |
    Row4(x, 32, 22, 11, 4, 25)
  }

  /** PC-1, from 64 bits to 56. */
  function PermutedChoice1(key: bv64): bv64 {
    (Row7(key, 64, 57, 49, 41, 33, 25, 17, 9) << 49) |
    (Row7(key, 64, 1, 58, 50, 42, 34, 26, 18) << 42) |
    (Row7(key, 64, 10, 2, 59, 51, 43, 35, 27) << 35) |
    (Row7(key, 64, 19, 11, 3, 60, 52, 44, 36) << 28) |
    (Row7(key, 64, 63, 55, 47, 39, 31, 23, 15) << 21) |
    (Row7(key, 64, 7, 62, 54, 46, 38, 30, 22) << 14) |
    (Row7(key, 64, 14, 6, 61, 53, 45, 37, 29) << 7) |
    Row7(key, 64, 21, 13, 5, 28, 20, 12, 4)
  }

  /** PC-2, from 56 bits to 48. */
  function PermutedChoice2(cd: bv64): bv64 {
    (Row6(cd, 56, 14, 17, 11, 24, 1, 5) << 42) |
    (Row6(cd, 56, 3, 28, 15, 6, 21, 10) << 36) |
    (Row6(cd, 56, 23, 19, 12, 4, 26, 8) << 30) |
    (Row6(cd, 56, 16, 7, 27, 20, 13, 2) << 24) |
    (Row6(cd, 56, 41, 52, 31, 37, 47, 55) << 18) |
    (Row6(cd, 56, 30, 40, 51, 45, 33, 48) << 12) |
    (Row6(cd, 56, 44, 49, 39, 56, 34, 53) << 6) |
    Row6(cd, 56, 46, 42, 50, 36, 29, 32)
  }

  // ---------------------------------------------------------------------------------------
  // The S-boxes: four rows of sixteen hexadecimal digits each
  // ---------------------------------------------------------------------------------------

  /** The first and the last of six bits choose a row, the middle four an entry in it. */
  function Entry(t: bv64, row0: bv64, row1: bv64, row2: bv64, row3: bv64): bv64 {
    var row := if t & 0x20 == 0 then (if t & 1 == 0 then row0 else row1) else (if t & 1 == 0 then row2 else row3);
    (row >> (60 - 2 * ((t & 0x1E) as bv6))) & 0xF
  }

  function S1(t: bv64): bv64 {
    Entry(t, 0xE4D1_2FB8_3A6C_5907, 0x0F74_E2D1_A6CB_9538, 0x41E8_D62B_FC97_3A50, 0xFC82_4917_5B3E_A06D)
  }

  function S2(t: bv64): bv64 {
    Entry(t, 0xF18E_6B34_972D_C05A, 0x3D47_F28E_C01A_69B5, 0x0E7B_A4D1_58C6_932F, 0xD8A1_3F42_B67C_05E9)
  }

  function S3(t: bv64): bv64 {
    Entry(t, 0xA09E_63F5_1DC7_B428, 0xD709_346A_285E_CBF1, 0xD649_8F30_B12C_5AE7, 0x1AD0_6987_4FE3_B52C)
  }

  function S4(t: bv64): bv64 {
    Entry(t, 0x7DE3_069A_1285_BC4F, 0xD8B5_6F03_472C_1AE9, 0xA690_CB7D_F13E_5284, 0x3F06_A1D8_945B_C72E)
  }

  function S5(t: bv64): bv64 {
    Entry(t, 0x2C41_7AB6_853F_D0E9, 0xEB2C_47D1_50FA_3986, 0x421B_AD78_F9C5_630E, 0xB8C7_1E2D_6F09_A453)
  }

  function S6(t: bv64): bv64 {
    Entry(t, 0xC1AF_9268_0D34_E75B, 0xAF42_7C95_61DE_0B38, 0x9EF5_28C3_704A_1DB6, 0x432C_95FA_BE17_608D)
  }

  function S7(t: bv64): bv64 {
    Entry(t, 0x4B2E_F08D_3C97_5A61, 0xD0B7_491A_E35C_2F86, 0x14BD_C37E_AF68_0592, 0x6BD8_14A7_950F_E23C)
  }

  function S8(t: bv64): bv64 {
    Entry(t, 0xD284_6FB1_A93E_50C7, 0x1FD8_A374_C56B_0E92, 0x7B41_9CE2_06AD_F358, 0x21E7_4A8D_FC90_356B)
  }

  // ---------------------------------------------------------------------------------------
  // The cipher
  // ---------------------------------------------------------------------------------------

  /** What the eight S-boxes make of 48 bits. */
  function Substituted(x: bv64): bv64 {
    SideBySide(S1((x >> 42) & 0x3F), S2((x >> 36) & 0x3F), S3((x >> 30) & 0x3F), S4((x >> 24) & 0x3F),
      S5((x >> 18) & 0x3F), S6((x >> 12) & 0x3F), S7((x >> 6) & 0x3F), S8(x & 0x3F))
  }

  /** Eight entries of four bits. */
  function SideBySide(s1: bv64, s2: bv64, s3: bv64, s4: bv64, s5: bv64, s6: bv64, s7: bv64, s8: bv64): bv64 {
    (s1 << 28) | (s2 << 24) | (s3 << 20) | (s4 << 16) | (s5 << 12) | (s6 << 8) | (s7 << 4) | s8
  }

  /** The cipher function f. */
  function CipherFunction(r: bv64, k: bv64): bv64 {
    PermutationP(Substituted(Expansion(r) ^ k))
  }

  function Xor(x: bv64, y: bv64): bv64 {
    x ^ y
  }

  /** The left and the right half of a block. */
  function High(m: bv64): bv64 {
    m >> 32
  }

  function Low(m: bv64): bv64 {
    m & 0xFFFF_FFFF
  }

  function Join(l: bv64, r: bv64): bv64 {
    (l << 32) | r
  }

  /** C and D of 56 bits, and side by side. */
  function LeftHalf(cd: bv64): bv64 {
    cd >> 28
  }

  function RightHalf(cd: bv64): bv64 {
    cd & 0x0FFF_FFFF
  }

  function Halves(c: bv64, d: bv64): bv64 {
    (c << 28) | d
  }

  /** The rounds with the keys of `ks` in their order. */
  function Rounds(ks: seq<bv64>, l: bv64, r: bv64): (bv64, bv64) {
    if ks == [] then (l, r) else Rounds(ks[1..], r, Xor(l, CipherFunction(r, ks[0])))
  }

  /** The enciphering computation with some keys: the halves change places after the last round. */
  function Compute(ks: seq<bv64>, m: bv64): bv64 {
    var p := InitialPermutation(m);
    var (l, r) := Rounds(ks, High(p), Low(p));
    FinalPermutation(Join(r, l))
  }

  /** How far the halves of the key are shifted before round `n`, counted from 1. */
  function Shifts(n: nat): bv5 {
    if n == 1 || n == 2 || n == 9 || n == 16 then 1 else 2
  }

  function ShiftLeft(x: bv64, s: bv5): bv64
    requires s <= 28
  {
    ((x << s) | (x >> (28 - s))) & 0x0FFF_FFFF
  }

  /** C and D after `n` shifts. */
  function KeyHalves(key: bv64, n: nat): (bv64, bv64) {
    if n == 0 then (LeftHalf(PermutedChoice1(key)), RightHalf(PermutedChoice1(key)))
    else
      var (c, d) := KeyHalves(key, n - 1);
      (ShiftLeft(c, Shifts(n)), ShiftLeft(d, Shifts(n)))
  }

  /** The key of round `n`. */
  function RoundKey(key: bv64, n: nat): bv64 {
    var (c, d) := KeyHalves(key, n);
    PermutedChoice2(Halves(c, d))
  }

  /** The keys of the first `n` rounds. */
  function RoundKeys(key: bv64, n: nat): (r: seq<bv64>)
    ensures |r| == n
  {
    if n == 0 then [] else RoundKeys(key, n - 1) + [RoundKey(key, n)]
  }

  function Reversed(s: seq<bv64>): (r: seq<bv64>)
    ensures |r| == |s|
  {
    if s == [] then [] else Reversed(s[1..]) + [s[0]]
  }

  function Encrypt(key: bv64, m: bv64): bv64 {
    Compute(RoundKeys(key, 16), m)
  }

  /** Deciphering: the same computation with the keys in reverse order. */
  function Decrypt(key: bv64, m: bv64): bv64 {
    Compute(Reversed(RoundKeys(key, 16)), m)
  }
}
