/** Block encryption and decryption of base/algorithm/des.cpp: DES and Triple-DES.

    `uint32` there is `unsigned long`, 64 bits wide on the target.  A `Word` is such a value
    that stays below 2^32, as all of them do; the arithmetic is that of 64 bits. */
module Des {

  type Word = x: bv64 | x <= 0xFFFFFFFF

  // ---------------------------------------------------------------------------------------
  // Tables
  // ---------------------------------------------------------------------------------------

  const SB1: seq<Word> :=
    [0x01010400, 0x00000000, 0x00010000, 0x01010404, 0x01010004, 0x00010404, 0x00000004, 0x00010000] +
    [0x00000400, 0x01010400, 0x01010404, 0x00000400, 0x01000404, 0x01010004, 0x01000000, 0x00000004] +
    [0x00000404, 0x01000400, 0x01000400, 0x00010400, 0x00010400, 0x01010000, 0x01010000, 0x01000404] +
    [0x00010004, 0x01000004, 0x01000004, 0x00010004, 0x00000000, 0x00000404, 0x00010404, 0x01000000] +
    [0x00010000, 0x01010404, 0x00000004, 0x01010000, 0x01010400, 0x01000000, 0x01000000, 0x00000400] +
    [0x01010004, 0x00010000, 0x00010400, 0x01000004, 0x00000400, 0x00000004, 0x01000404, 0x00010404] +
    [0x01010404, 0x00010004, 0x01010000, 0x01000404, 0x01000004, 0x00000404, 0x00010404, 0x01010400] +
    [0x00000404, 0x01000400, 0x01000400, 0x00000000, 0x00010004, 0x00010400, 0x00000000, 0x01010004]

  const SB2: seq<Word> :=
    [0x80108020, 0x80008000, 0x00008000, 0x00108020, 0x00100000, 0x00000020, 0x80100020, 0x80008020] +
    [0x80000020, 0x80108020, 0x80108000, 0x80000000, 0x80008000, 0x00100000, 0x00000020, 0x80100020] +
    [0x00108000, 0x00100020, 0x80008020, 0x00000000, 0x80000000, 0x00008000, 0x00108020, 0x80100000] +
    [0x00100020, 0x80000020, 0x00000000, 0x00108000, 0x00008020, 0x80108000, 0x80100000, 0x00008020] +
    [0x00000000, 0x00108020, 0x80100020, 0x00100000, 0x80008020, 0x80100000, 0x80108000, 0x00008000] +
    [0x80100000, 0x80008000, 0x00000020, 0x80108020, 0x00108020, 0x00000020, 0x00008000, 0x80000000] +
    [0x00008020, 0x80108000, 0x00100000, 0x80000020, 0x00100020, 0x80008020, 0x80000020, 0x00100020] +
    [0x00108000, 0x00000000, 0x80008000, 0x00008020, 0x80000000, 0x80100020, 0x80108020, 0x00108000]

  const SB3: seq<Word> :=
    [0x00000208, 0x08020200, 0x00000000, 0x08020008, 0x08000200, 0x00000000, 0x00020208, 0x08000200] +
    [0x00020008, 0x08000008, 0x08000008, 0x00020000, 0x08020208, 0x00020008, 0x08020000, 0x00000208] +
    [0x08000000, 0x00000008, 0x08020200, 0x00000200, 0x00020200, 0x08020000, 0x08020008, 0x00020208] +
    [0x08000208, 0x00020200, 0x00020000, 0x08000208, 0x00000008, 0x08020208, 0x00000200, 0x08000000] +
    [0x08020200, 0x08000000, 0x00020008, 0x00000208, 0x00020000, 0x08020200, 0x08000200, 0x00000000] +
    [0x00000200, 0x00020008, 0x08020208, 0x08000200, 0x08000008, 0x00000200, 0x00000000, 0x08020008] +
    [0x08000208, 0x00020000, 0x08000000, 0x08020208, 0x00000008, 0x00020208, 0x00020200, 0x08000008] +
    [0x08020000, 0x08000208, 0x00000208, 0x08020000, 0x00020208, 0x00000008, 0x08020008, 0x00020200]

  const SB4: seq<Word> :=
    [0x00802001, 0x00002081, 0x00002081, 0x00000080, 0x00802080, 0x00800081, 0x00800001, 0x00002001] +
    [0x00000000, 0x00802000, 0x00802000, 0x00802081, 0x00000081, 0x00000000, 0x00800080, 0x00800001] +
    [0x00000001, 0x00002000, 0x00800000, 0x00802001, 0x00000080, 0x00800000, 0x00002001, 0x00002080] +
    [0x00800081, 0x00000001, 0x00002080, 0x00800080, 0x00002000, 0x00802080, 0x00802081, 0x00000081] +
    [0x00800080, 0x00800001, 0x00802000, 0x00802081, 0x00000081, 0x00000000, 0x00000000, 0x00802000] +
    [0x00002080, 0x00800080, 0x00800081, 0x00000001, 0x00802001, 0x00002081, 0x00002081, 0x00000080] +
    [0x00802081, 0x00000081, 0x00000001, 0x00002000, 0x00800001, 0x00002001, 0x00802080, 0x00800081] +
    [0x00002001, 0x00002080, 0x00800000, 0x00802001, 0x00000080, 0x00800000, 0x00002000, 0x00802080]

  const SB5: seq<Word> :=
    [0x00000100, 0x02080100, 0x02080000, 0x42000100, 0x00080000, 0x00000100, 0x40000000, 0x02080000] +
    [0x40080100, 0x00080000, 0x02000100, 0x40080100, 0x42000100, 0x42080000, 0x00080100, 0x40000000] +
    [0x02000000, 0x40080000, 0x40080000, 0x00000000, 0x40000100, 0x42080100, 0x42080100, 0x02000100] +
    [0x42080000, 0x40000100, 0x00000000, 0x42000000, 0x02080100, 0x02000000, 0x42000000, 0x00080100] +
    [0x00080000, 0x42000100, 0x00000100, 0x02000000, 0x40000000, 0x02080000, 0x42000100, 0x40080100] +
    [0x02000100, 0x40000000, 0x42080000, 0x02080100, 0x40080100, 0x00000100, 0x02000000, 0x42080000] +
    [0x42080100, 0x00080100, 0x42000000, 0x42080100, 0x02080000, 0x00000000, 0x40080000, 0x42000000] +
    [0x00080100, 0x02000100, 0x40000100, 0x00080000, 0x00000000, 0x40080000, 0x02080100, 0x40000100]

  const SB6: seq<Word> :=
    [0x20000010, 0x20400000, 0x00004000, 0x20404010, 0x20400000, 0x00000010, 0x20404010, 0x00400000] +
    [0x20004000, 0x00404010, 0x00400000, 0x20000010, 0x00400010, 0x20004000, 0x20000000, 0x00004010] +
    [0x00000000, 0x00400010, 0x20004010, 0x00004000, 0x00404000, 0x20004010, 0x00000010, 0x20400010] +
    [0x20400010, 0x00000000, 0x00404010, 0x20404000, 0x00004010, 0x00404000, 0x20404000, 0x20000000] +
    [0x20004000, 0x00000010, 0x20400010, 0x00404000, 0x20404010, 0x00400000, 0x00004010, 0x20000010] +
    [0x00400000, 0x20004000, 0x20000000, 0x00004010, 0x20000010, 0x20404010, 0x00404000, 0x20400000] +
    [0x00404010, 0x20404000, 0x00000000, 0x20400010, 0x00000010, 0x00004000, 0x20400000, 0x00404010] +
    [0x00004000, 0x00400010, 0x20004010, 0x00000000, 0x20404000, 0x20000000, 0x00400010, 0x20004010]

  const SB7: seq<Word> :=
    [0x00200000, 0x04200002, 0x04000802, 0x00000000, 0x00000800, 0x04000802, 0x00200802, 0x04200800] +
    [0x04200802, 0x00200000, 0x00000000, 0x04000002, 0x00000002, 0x04000000, 0x04200002, 0x00000802] +
    [0x04000800, 0x00200802, 0x00200002, 0x04000800, 0x04000002, 0x04200000, 0x04200800, 0x00200002] +
    [0x04200000, 0x00000800, 0x00000802, 0x04200802, 0x00200800, 0x00000002, 0x04000000, 0x00200800] +
    [0x04000000, 0x00200800, 0x00200000, 0x04000802, 0x04000802, 0x04200002, 0x04200002, 0x00000002] +
    [0x00200002, 0x04000000, 0x04000800, 0x00200000, 0x04200800, 0x00000802, 0x00200802, 0x04200800] +
    [0x00000802, 0x04000002, 0x04200802, 0x04200000, 0x00200800, 0x00000000, 0x00000002, 0x04200802] +
    [0x00000000, 0x00200802, 0x04200000, 0x00000800, 0x04000002, 0x04000800, 0x00000800, 0x00200002]

  const SB8: seq<Word> :=
    [0x10001040, 0x00001000, 0x00040000, 0x10041040, 0x10000000, 0x10001040, 0x00000040, 0x10000000] +
    [0x00040040, 0x10040000, 0x10041040, 0x00041000, 0x10041000, 0x00041040, 0x00001000, 0x00000040] +
    [0x10040000, 0x10000040, 0x10001000, 0x00001040, 0x00041000, 0x00040040, 0x10040040, 0x10041000] +
    [0x00001040, 0x00000000, 0x00000000, 0x10040040, 0x10000040, 0x10001000, 0x00041040, 0x00040000] +
    [0x00041040, 0x00040000, 0x10041000, 0x00001000, 0x00000040, 0x10040040, 0x00001000, 0x00041040] +
    [0x10001000, 0x00000040, 0x10000040, 0x10040000, 0x10040040, 0x10000000, 0x00040000, 0x10001040] +
    [0x00000000, 0x10041040, 0x00040040, 0x10000040, 0x10040000, 0x10001000, 0x10001040, 0x00000000] +
    [0x10041040, 0x00041000, 0x00041000, 0x00001040, 0x00001040, 0x00040040, 0x10000000, 0x10041000]

  const LHS: seq<Word> :=
    [0x00000000, 0x00000001, 0x00000100, 0x00000101, 0x00010000, 0x00010001, 0x00010100, 0x00010101] +
    [0x01000000, 0x01000001, 0x01000100, 0x01000101, 0x01010000, 0x01010001, 0x01010100, 0x01010101]

  const RHS: seq<Word> :=
    [0x00000000, 0x01000000, 0x00010000, 0x01010000, 0x00000100, 0x01000100, 0x00010100, 0x01010100] +
    [0x00000001, 0x01000001, 0x00010001, 0x01010001, 0x00000101, 0x01000101, 0x00010101, 0x01010101]

  // ---------------------------------------------------------------------------------------
  // The macros
  // ---------------------------------------------------------------------------------------

  /** `GET_UINT32` from four bytes. */
  function GetWord(b0: bv8, b1: bv8, b2: bv8, b3: bv8): Word {
    ((b0 as bv64) << 24) | ((b1 as bv64) << 16) | ((b2 as bv64) << 8) | (b3 as bv64)
  }

  /** `PUT_UINT32`; the casts to a byte keep the low 8 bits. */
  function PutWord(n: bv64): (s: seq<bv8>)
    ensures |s| == 4
  {
    [((n >> 24) & 0xFF) as bv8, ((n >> 16) & 0xFF) as bv8, ((n >> 8) & 0xFF) as bv8, (n & 0xFF) as bv8]
  }

  /** `DES_IP`. */
  function InitialPermutation(x: Word, y: Word): (Word, Word) {
    var x: bv64, y: bv64 := x, y;
    var t := ((x >> 4) ^ y) & 0x0F0F0F0F;
    var y, x := y ^ t, x ^ (t << 4);
    var t := ((x >> 16) ^ y) & 0x0000FFFF;
    var y, x := y ^ t, x ^ (t << 16);
    var t := ((y >> 2) ^ x) & 0x33333333;
    var x, y := x ^ t, y ^ (t << 2);
    var t := ((y >> 8) ^ x) & 0x00FF00FF;
    var x, y := x ^ t, y ^ (t << 8);
    var y := ((y << 1) | (y >> 31)) & 0xFFFFFFFF;
    var t := (x ^ y) & 0xAAAAAAAA;
    var y, x := y ^ t, x ^ t;
    var x := ((x << 1) | (x >> 31)) & 0xFFFFFFFF;
    (x, y)
  }

  /** `DES_FP`. */
  function FinalPermutation(x: Word, y: Word): (Word, Word) {
    var x: bv64, y: bv64 := x, y;
    var x := ((x << 31) | (x >> 1)) & 0xFFFFFFFF;
    var t := (x ^ y) & 0xAAAAAAAA;
    var x, y := x ^ t, y ^ t;
    var y := ((y << 31) | (y >> 1)) & 0xFFFFFFFF;
    var t := ((y >> 8) ^ x) & 0x00FF00FF;
    var x, y := x ^ t, y ^ (t << 8);
    var t := ((y >> 2) ^ x) & 0x33333333;
    var x, y := x ^ t, y ^ (t << 2);
    var t := ((x >> 16) ^ y) & 0x0000FFFF;
    var y, x := y ^ t, x ^ (t << 16);
    var t := ((x >> 4) ^ y) & 0x0F0F0F0F;
    var y, x := y ^ t, x ^ (t << 4);
    (x, y)
  }

  /** An S-box entry, chosen by the low six bits. */
  function Box(table: seq<Word>, t: bv64): Word
    requires |table| == 64
  {
    table[(t & 0x3F) as int]
  }

  function Xor8(a: Word, b: Word, c: Word, d: Word, e: Word, f: Word, g: Word, h: Word): Word {
    a ^ b ^ c ^ d ^ e ^ f ^ g ^ h
  }

  /** The first value of `T` in `DES_ROUND`. */
  function EvenIndices(k0: bv64, x: bv64): bv64 {
    k0 ^ x
  }

  /** The second, with the half rotated to the right by four bits. */
  function OddIndices(k1: bv64, x: bv64): bv64 {
    k1 ^ ((x << 28) | (x >> 4))
  }

  /** What `DES_ROUND` adds to one half, given the other half and the two words of its key. */
  function RoundFunction(k0: bv64, k1: bv64, x: Word): Word {
    var t, u := EvenIndices(k0, x), OddIndices(k1, x);
    Xor8(Box(SB8, t), Box(SB6, t >> 8), Box(SB4, t >> 16), Box(SB2, t >> 24),
      Box(SB7, u), Box(SB5, u >> 8), Box(SB3, u >> 16), Box(SB1, u >> 24))
  }

  lemma FinalUndoesInitial(x: Word, y: Word)
    ensures var (a, b) := InitialPermutation(x, y); FinalPermutation(a, b) == (x, y)
  {
  }

  lemma InitialUndoesFinal(x: Word, y: Word)
    ensures var (a, b) := FinalPermutation(x, y); InitialPermutation(a, b) == (x, y)
  {
  }

  lemma PutGet(b0: bv8, b1: bv8, b2: bv8, b3: bv8)
    ensures PutWord(GetWord(b0, b1, b2, b3)) == [b0, b1, b2, b3]
  {
  }

  lemma GetPut(n: Word)
    ensures var s := PutWord(n); GetWord(s[0], s[1], s[2], s[3]) == n
  {
  }
}
