/** The hash of base/algorithm/CMD5Ex.cpp.  `uint32` is `unsigned long` there, 64 bits wide on
    the target: additions and left shifts leave junk in the high halves of the words. */
module Md5 {
  import opened Basics
  import opened Blocks
  import opened Md5Standard

  // ---------------------------------------------------------------------------------------
  // Words with junk above bit 31
  // ---------------------------------------------------------------------------------------

  function Low(x: bv64): bv32 {
    (x & 0xFFFF_FFFF) as bv32
  }

  function Lows(a: bv64, b: bv64, c: bv64, d: bv64): Vars {
    Vars(Low(a), Low(b), Low(c), Low(d))
  }

  /** The macro `S`. */
  function Rotate(x: bv64, n: bv6): bv64
    requires 0 < n < 32
  {
    (x << n) | ((x & 0xFFFF_FFFF) >> (32 - n))
  }

  /** The macro `F` as it is defined for step `i`. */
  function F(i: nat, x: bv64, y: bv64, z: bv64): bv64 {
    if i < 16 then z ^ (x & (y ^ z))
    else if i < 32 then y ^ (z & (x ^ y))
    else if i < 48 then x ^ y ^ z
    else y ^ (x | !z)
  }

  function Add64(x: bv64, y: bv64): bv64 {
    x + y
  }

  lemma LowOf(x: bv32)
    ensures Low(x as bv64) == x
  {
  }

  lemma LowIs(x: bv64)
    ensures Low(x) == (x & 0xFFFF_FFFF) as bv32
  {
  }

  lemma LowSum(x: bv64, y: bv64)
    ensures Low(x + y) == Add((x & 0xFFFF_FFFF) as bv32, (y & 0xFFFF_FFFF) as bv32)
  {
  }

  lemma LowAdd(x: bv64, y: bv64)
    ensures Low(Add64(x, y)) == Add(Low(x), Low(y))
  {
    hide Low, Add;
    LowIs(x);
    LowIs(y);
    LowSum(x, y);
  }

  lemma LowRotation(x: bv64, n: bv6)
    requires 0 < n < 32
    ensures Low((x << n) | ((x & 0xFFFF_FFFF) >> (32 - n))) == Rotl((x & 0xFFFF_FFFF) as bv32, n)
  {
  }

  lemma LowRotate(x: bv64, n: bv6)
    requires 0 < n < 32
    ensures Low(Rotate(x, n)) == Rotl(Low(x), n)
  {
    hide Low, Rotl;
    LowIs(x);
    LowRotation(x, n);
  }

  lemma LowF1(x: bv64, y: bv64, z: bv64)
    ensures Low(z ^ (x & (y ^ z))) == (Low(x) & Low(y)) | (!Low(x) & Low(z))
  {
  }

  lemma LowF2(x: bv64, y: bv64, z: bv64)
    ensures Low(y ^ (z & (x ^ y))) == (Low(x) & Low(z)) | (Low(y) & !Low(z))
  {
  }

  lemma LowF3(x: bv64, y: bv64, z: bv64)
    ensures Low(x ^ y ^ z) == Low(x) ^ Low(y) ^ Low(z)
  {
  }

  lemma LowF4(x: bv64, y: bv64, z: bv64)
    ensures Low(y ^ (x | !z)) == Low(y) ^ (Low(x) | !Low(z))
  {
  }

  lemma LowF(i: nat, x: bv64, y: bv64, z: bv64)
    ensures Low(F(i, x, y, z)) == Logic(i, Low(x), Low(y), Low(z))
  {
    hide Low;
    LowF1(x, y, z);
    LowF2(x, y, z);
    LowF3(x, y, z);
    LowF4(x, y, z);
  }

  // ---------------------------------------------------------------------------------------
  // One block
  // ---------------------------------------------------------------------------------------

  /** The macro `P` of step `i` on its first variable. */
  function Mixed(i: nat, a: bv64, b: bv64, c: bv64, d: bv64, x: bv64, s: bv6, t: bv64): bv64
    requires 0 < s < 32
  {
    Add64(Rotate(Add64(a, Add64(Add64(F(i, b, c, d), x), t)), s), b)
  }

  lemma AddIs(x: bv32, y: bv32)
    ensures Add(x, y) == x + y
  {
  }

  lemma AddSum(x: bv32, y: bv32, z: bv32)
    ensures Add(x + y, z) == Add(x, y + z)
  {
  }

  lemma AddAssociative(x: bv32, y: bv32, z: bv32)
    ensures Add(Add(x, y), z) == Add(x, Add(y, z))
  {
    hide Add;
    AddIs(x, y);
    AddIs(y, z);
    AddSum(x, y, z);
  }

  lemma SumReordered(a: bv32, f: bv32, x: bv32, t: bv32)
    ensures Add(a, Add(Add(f, x), t)) == Add(Add(a, f), Add(x, t))
  {
    hide Add;
    AddAssociative(f, x, t);
    AddAssociative(a, f, Add(x, t));
  }

  /** The junk above bit 31 never reaches the low halves. */
  lemma MixedStep(i: nat, a: bv64, b: bv64, c: bv64, d: bv64, x: bv64, t: bv64)
    ensures Lows(d, Mixed(i, a, b, c, d, x, Shift(i), t), b, c) == Step(Lows(a, b, c, d), i, Low(x), Low(t))
  {
    hide Low, F, Logic, Add, Add64, Rotl, Rotate, Shift;
    var f := F(i, b, c, d);
    var sum := Add64(a, Add64(Add64(f, x), t));
    LowF(i, b, c, d);
    LowAdd(f, x);
    LowAdd(Add64(f, x), t);
    LowAdd(a, Add64(Add64(f, x), t));
    SumReordered(Low(a), Low(f), Low(x), Low(t));
    LowRotate(sum, Shift(i));
    LowAdd(Rotate(sum, Shift(i)), b);
  }

  /** The words of a block, as `GET_UINT32` reads them. */
  ghost predicate Words(x: seq<bv64>, block: Bytes64) {
    |x| == 16 && forall k: nat :: k < 16 ==> Low(x[k]) == Word(block, k)
  }

  function GetWord(b0: bv8, b1: bv8, b2: bv8, b3: bv8): (r: bv64)
    ensures Low(r) == LittleEndian(b0, b1, b2, b3)
  {
    (b0 as bv64) | ((b1 as bv64) << 8) | ((b2 as bv64) << 16) | ((b3 as bv64) << 24)
  }

  method GetWords(x: array<bv64>, block: Bytes64)
    requires x.Length == 16
    modifies x
    ensures Words(x[..], block)
  {
    hide GetWord, LittleEndian, Low;
    forall k | 0 <= k < 16 {
      x[k] := GetWord(block[4 * k], block[4 * k + 1], block[4 * k + 2], block[4 * k + 3]);
    }
  }

  /** The constants that the standard has for step `i`. */
  predicate Row(i: nat, k: nat, s: bv6, t: bv32)
    requires i < 64
  {
    k == Index(i) && s == Shift(i) && t == Table(i)
  }

  /** The macro `P`, as step `i` of 64. */
  method P(i: nat, a: bv64, b: bv64, c: bv64, d: bv64, x: array<bv64>, k: nat, s: bv6, t: bv32,
           ghost h: Vars, ghost block: Bytes64) returns (a': bv64)
    requires i < 64 && x.Length == 16 && Words(x[..], block)
    requires Row(i, k, s, t)
    requires Lows(a, b, c, d) == Steps(h, block, i)
    ensures Lows(d, a', b, c) == Steps(h, block, i + 1)
  {
    hide Low, F, Lows, Step, Rotate, Shift, Index, Mixed, Word;
    a' := Mixed(i, a, b, c, d, x[k], s, t as bv64);
    MixedStep(i, a, b, c, d, x[k], t as bv64);
    LowOf(t);
    assert Low(x[..][k]) == Word(block, k);
  }

  lemma Rows1()
    ensures Row(0, 0, 7, 0xD76AA478)
    ensures Row(1, 1, 12, 0xE8C7B756)
    ensures Row(2, 2, 17, 0x242070DB)
    ensures Row(3, 3, 22, 0xC1BDCEEE)
    ensures Row(4, 4, 7, 0xF57C0FAF)
    ensures Row(5, 5, 12, 0x4787C62A)
    ensures Row(6, 6, 17, 0xA8304613)
    ensures Row(7, 7, 22, 0xFD469501)
  {
  }

  lemma MoreRows1()
    ensures Row(8, 8, 7, 0x698098D8)
    ensures Row(9, 9, 12, 0x8B44F7AF)
    ensures Row(10, 10, 17, 0xFFFF5BB1)
    ensures Row(11, 11, 22, 0x895CD7BE)
    ensures Row(12, 12, 7, 0x6B901122)
    ensures Row(13, 13, 12, 0xFD987193)
    ensures Row(14, 14, 17, 0xA679438E)
    ensures Row(15, 15, 22, 0x49B40821)
  {
  }

  /** Steps 1 to 16. */
  method Round1(a: bv64, b: bv64, c: bv64, d: bv64, x: array<bv64>, ghost h: Vars, ghost block: Bytes64)
      returns (A: bv64, B: bv64, C: bv64, D: bv64)
    requires x.Length == 16 && Words(x[..], block) && Lows(a, b, c, d) == Steps(h, block, 0)
    ensures Lows(A, B, C, D) == Steps(h, block, 16)
  {
    hide Lows, Steps, Words, Row;
    Rows1();
    MoreRows1();
    A, B, C, D := a, b, c, d;
    A := P(0, A, B, C, D, x, 0, 7, 0xD76AA478, h, block);
    D := P(1, D, A, B, C, x, 1, 12, 0xE8C7B756, h, block);
    C := P(2, C, D, A, B, x, 2, 17, 0x242070DB, h, block);
    B := P(3, B, C, D, A, x, 3, 22, 0xC1BDCEEE, h, block);
    A := P(4, A, B, C, D, x, 4, 7, 0xF57C0FAF, h, block);
    D := P(5, D, A, B, C, x, 5, 12, 0x4787C62A, h, block);
    C := P(6, C, D, A, B, x, 6, 17, 0xA8304613, h, block);
    B := P(7, B, C, D, A, x, 7, 22, 0xFD469501, h, block);
    A := P(8, A, B, C, D, x, 8, 7, 0x698098D8, h, block);
    D := P(9, D, A, B, C, x, 9, 12, 0x8B44F7AF, h, block);
    C := P(10, C, D, A, B, x, 10, 17, 0xFFFF5BB1, h, block);
    B := P(11, B, C, D, A, x, 11, 22, 0x895CD7BE, h, block);
    A := P(12, A, B, C, D, x, 12, 7, 0x6B901122, h, block);
    D := P(13, D, A, B, C, x, 13, 12, 0xFD987193, h, block);
    C := P(14, C, D, A, B, x, 14, 17, 0xA679438E, h, block);
    B := P(15, B, C, D, A, x, 15, 22, 0x49B40821, h, block);
  }

  lemma Rows2()
    ensures Row(16, 1, 5, 0xF61E2562)
    ensures Row(17, 6, 9, 0xC040B340)
    ensures Row(18, 11, 14, 0x265E5A51)
    ensures Row(19, 0, 20, 0xE9B6C7AA)
    ensures Row(20, 5, 5, 0xD62F105D)
    ensures Row(21, 10, 9, 0x02441453)
    ensures Row(22, 15, 14, 0xD8A1E681)
    ensures Row(23, 4, 20, 0xE7D3FBC8)
  {
  }

  lemma MoreRows2()
    ensures Row(24, 9, 5, 0x21E1CDE6)
    ensures Row(25, 14, 9, 0xC33707D6)
    ensures Row(26, 3, 14, 0xF4D50D87)
    ensures Row(27, 8, 20, 0x455A14ED)
    ensures Row(28, 13, 5, 0xA9E3E905)
    ensures Row(29, 2, 9, 0xFCEFA3F8)
    ensures Row(30, 7, 14, 0x676F02D9)
    ensures Row(31, 12, 20, 0x8D2A4C8A)
  {
  }

  /** Steps 17 to 32. */
  method Round2(a: bv64, b: bv64, c: bv64, d: bv64, x: array<bv64>, ghost h: Vars, ghost block: Bytes64)
      returns (A: bv64, B: bv64, C: bv64, D: bv64)
    requires x.Length == 16 && Words(x[..], block) && Lows(a, b, c, d) == Steps(h, block, 16)
    ensures Lows(A, B, C, D) == Steps(h, block, 32)
  {
    hide Lows, Steps, Words, Row;
    Rows2();
    MoreRows2();
    A, B, C, D := a, b, c, d;
    A := P(16, A, B, C, D, x, 1, 5, 0xF61E2562, h, block);
    D := P(17, D, A, B, C, x, 6, 9, 0xC040B340, h, block);
    C := P(18, C, D, A, B, x, 11, 14, 0x265E5A51, h, block);
    B := P(19, B, C, D, A, x, 0, 20, 0xE9B6C7AA, h, block);
    A := P(20, A, B, C, D, x, 5, 5, 0xD62F105D, h, block);
    D := P(21, D, A, B, C, x, 10, 9, 0x02441453, h, block);
    C := P(22, C, D, A, B, x, 15, 14, 0xD8A1E681, h, block);
    B := P(23, B, C, D, A, x, 4, 20, 0xE7D3FBC8, h, block);
    A := P(24, A, B, C, D, x, 9, 5, 0x21E1CDE6, h, block);
    D := P(25, D, A, B, C, x, 14, 9, 0xC33707D6, h, block);
    C := P(26, C, D, A, B, x, 3, 14, 0xF4D50D87, h, block);
    B := P(27, B, C, D, A, x, 8, 20, 0x455A14ED, h, block);
    A := P(28, A, B, C, D, x, 13, 5, 0xA9E3E905, h, block);
    D := P(29, D, A, B, C, x, 2, 9, 0xFCEFA3F8, h, block);
    C := P(30, C, D, A, B, x, 7, 14, 0x676F02D9, h, block);
    B := P(31, B, C, D, A, x, 12, 20, 0x8D2A4C8A, h, block);
  }

  lemma Rows3()
    ensures Row(32, 5, 4, 0xFFFA3942)
    ensures Row(33, 8, 11, 0x8771F681)
    ensures Row(34, 11, 16, 0x6D9D6122)
    ensures Row(35, 14, 23, 0xFDE5380C)
    ensures Row(36, 1, 4, 0xA4BEEA44)
    ensures Row(37, 4, 11, 0x4BDECFA9)
    ensures Row(38, 7, 16, 0xF6BB4B60)
    ensures Row(39, 10, 23, 0xBEBFBC70)
  {
  }

  lemma MoreRows3()
    ensures Row(40, 13, 4, 0x289B7EC6)
    ensures Row(41, 0, 11, 0xEAA127FA)
    ensures Row(42, 3, 16, 0xD4EF3085)
    ensures Row(43, 6, 23, 0x04881D05)
    ensures Row(44, 9, 4, 0xD9D4D039)
    ensures Row(45, 12, 11, 0xE6DB99E5)
    ensures Row(46, 15, 16, 0x1FA27CF8)
    ensures Row(47, 2, 23, 0xC4AC5665)
  {
  }

  /** Steps 33 to 48. */
  method Round3(a: bv64, b: bv64, c: bv64, d: bv64, x: array<bv64>, ghost h: Vars, ghost block: Bytes64)
      returns (A: bv64, B: bv64, C: bv64, D: bv64)
    requires x.Length == 16 && Words(x[..], block) && Lows(a, b, c, d) == Steps(h, block, 32)
    ensures Lows(A, B, C, D) == Steps(h, block, 48)
  {
    hide Lows, Steps, Words, Row;
    Rows3();
    MoreRows3();
    A, B, C, D := a, b, c, d;
    A := P(32, A, B, C, D, x, 5, 4, 0xFFFA3942, h, block);
    D := P(33, D, A, B, C, x, 8, 11, 0x8771F681, h, block);
    C := P(34, C, D, A, B, x, 11, 16, 0x6D9D6122, h, block);
    B := P(35, B, C, D, A, x, 14, 23, 0xFDE5380C, h, block);
    A := P(36, A, B, C, D, x, 1, 4, 0xA4BEEA44, h, block);
    D := P(37, D, A, B, C, x, 4, 11, 0x4BDECFA9, h, block);
    C := P(38, C, D, A, B, x, 7, 16, 0xF6BB4B60, h, block);
    B := P(39, B, C, D, A, x, 10, 23, 0xBEBFBC70, h, block);
    A := P(40, A, B, C, D, x, 13, 4, 0x289B7EC6, h, block);
    D := P(41, D, A, B, C, x, 0, 11, 0xEAA127FA, h, block);
    C := P(42, C, D, A, B, x, 3, 16, 0xD4EF3085, h, block);
    B := P(43, B, C, D, A, x, 6, 23, 0x04881D05, h, block);
    A := P(44, A, B, C, D, x, 9, 4, 0xD9D4D039, h, block);
    D := P(45, D, A, B, C, x, 12, 11, 0xE6DB99E5, h, block);
    C := P(46, C, D, A, B, x, 15, 16, 0x1FA27CF8, h, block);
    B := P(47, B, C, D, A, x, 2, 23, 0xC4AC5665, h, block);
  }

  lemma Rows4()
    ensures Row(48, 0, 6, 0xF4292244)
    ensures Row(49, 7, 10, 0x432AFF97)
    ensures Row(50, 14, 15, 0xAB9423A7)
    ensures Row(51, 5, 21, 0xFC93A039)
    ensures Row(52, 12, 6, 0x655B59C3)
    ensures Row(53, 3, 10, 0x8F0CCC92)
    ensures Row(54, 10, 15, 0xFFEFF47D)
    ensures Row(55, 1, 21, 0x85845DD1)
  {
  }

  lemma MoreRows4()
    ensures Row(56, 8, 6, 0x6FA87E4F)
    ensures Row(57, 15, 10, 0xFE2CE6E0)
    ensures Row(58, 6, 15, 0xA3014314)
    ensures Row(59, 13, 21, 0x4E0811A1)
    ensures Row(60, 4, 6, 0xF7537E82)
    ensures Row(61, 11, 10, 0xBD3AF235)
    ensures Row(62, 2, 15, 0x2AD7D2BB)
    ensures Row(63, 9, 21, 0xEB86D391)
  {
  }

  /** Steps 49 to 64. */
  method Round4(a: bv64, b: bv64, c: bv64, d: bv64, x: array<bv64>, ghost h: Vars, ghost block: Bytes64)
      returns (A: bv64, B: bv64, C: bv64, D: bv64)
    requires x.Length == 16 && Words(x[..], block) && Lows(a, b, c, d) == Steps(h, block, 48)
    ensures Lows(A, B, C, D) == Steps(h, block, 64)
  {
    hide Lows, Steps, Words, Row;
    Rows4();
    MoreRows4();
    A, B, C, D := a, b, c, d;
    A := P(48, A, B, C, D, x, 0, 6, 0xF4292244, h, block);
    D := P(49, D, A, B, C, x, 7, 10, 0x432AFF97, h, block);
    C := P(50, C, D, A, B, x, 14, 15, 0xAB9423A7, h, block);
    B := P(51, B, C, D, A, x, 5, 21, 0xFC93A039, h, block);
    A := P(52, A, B, C, D, x, 12, 6, 0x655B59C3, h, block);
    D := P(53, D, A, B, C, x, 3, 10, 0x8F0CCC92, h, block);
    C := P(54, C, D, A, B, x, 10, 15, 0xFFEFF47D, h, block);
    B := P(55, B, C, D, A, x, 1, 21, 0x85845DD1, h, block);
    A := P(56, A, B, C, D, x, 8, 6, 0x6FA87E4F, h, block);
    D := P(57, D, A, B, C, x, 15, 10, 0xFE2CE6E0, h, block);
    C := P(58, C, D, A, B, x, 6, 15, 0xA3014314, h, block);
    B := P(59, B, C, D, A, x, 13, 21, 0x4E0811A1, h, block);
    A := P(60, A, B, C, D, x, 4, 6, 0xF7537E82, h, block);
    D := P(61, D, A, B, C, x, 11, 10, 0xBD3AF235, h, block);
    C := P(62, C, D, A, B, x, 2, 15, 0x2AD7D2BB, h, block);
    B := P(63, B, C, D, A, x, 9, 21, 0xEB86D391, h, block);
  }

  // ---------------------------------------------------------------------------------------
  // The length counter
  // ---------------------------------------------------------------------------------------

  /** The counter part of `CMD5Ex_update`, in 64-bit words of which only the first is cut to 32. */
  function Count(t0: nat, t1: nat, len: nat): (nat, nat) {
    var t0' := (t0 + 8 * len) % 0x1_0000_0000;
    (t0', (t1 + len / 0x2000_0000 + if t0' < 8 * len then 1 else 0) % 0x1_0000_0000_0000_0000)
  }

  lemma OneMore(t1: nat)
    ensures (t1 % 0x1_0000_0000_0000_0000 + 1) % 0x1_0000_0000_0000_0000 == (t1 + 1) % 0x1_0000_0000_0000_0000
  {
    var q := t1 / 0x1_0000_0000_0000_0000;
    assert t1 + 1 == 0x1_0000_0000_0000_0000 * q + (t1 % 0x1_0000_0000_0000_0000 + 1);
  }

  ghost predicate LowExact(t0: nat, len: nat) {
    t0 == 8 * len % 0x1_0000_0000
  }

  /** Whether the second word, of which 32 bits are used, is right too. */
  ghost predicate HighExact(t1: nat, len: nat) {
    t1 % 0x1_0000_0000 == 8 * len / 0x1_0000_0000 % 0x1_0000_0000
  }

  /** When the second word stays right: the carry is compared with the uncut length, so a chunk of
      2^29 bytes or more always counts as one. */
  predicate CarryRight(t0: nat, len: nat) {
    len < 0x2000_0000 || t0 + 8 * (len % 0x2000_0000) >= 0x1_0000_0000
  }

  lemma LowExactMore(t0: nat, t1: nat, len: nat, more: nat)
    requires LowExact(t0, len)
    ensures LowExact(Count(t0, t1, more).0, len + more)
  {
    var q := 8 * len / 0x1_0000_0000;
    assert 8 * (len + more) == t0 + 8 * more + 0x1_0000_0000 * q;
    SameLow(t0 + 8 * more, q);
  }

  lemma SameLow(x: nat, y: nat)
    ensures (x + 0x1_0000_0000 * y) % 0x1_0000_0000 == x % 0x1_0000_0000
    ensures (x + 0x1_0000_0000 * y) / 0x1_0000_0000 == x / 0x1_0000_0000 + y
  {
  }

  /** What `Count` adds to the second word, beside the part of the length that belongs there. */
  lemma CarryOf(t0: nat, more: nat)
    requires t0 < 0x1_0000_0000
    ensures (if (t0 + 8 * more) % 0x1_0000_0000 < 8 * more then 1 else 0) + more / 0x2000_0000 ==
      (t0 + 8 * more) / 0x1_0000_0000 + if CarryRight(t0, more) then 0 else 1
  {
    var bits, hi := 8 * (more % 0x2000_0000), more / 0x2000_0000;
    assert 8 * more == bits + 0x1_0000_0000 * hi;
    SameLow(t0 + bits, hi);
  }

  lemma HighExactMore(t0: nat, t1: nat, len: nat, more: nat)
    requires LowExact(t0, len) && HighExact(t1, len)
    ensures HighExact(Count(t0, t1, more).1, len + more) <==> CarryRight(t0, more)
  {
    var q := 8 * len / 0x1_0000_0000;
    var high := (t0 + 8 * more) / 0x1_0000_0000;
    assert 8 * (len + more) == t0 + 8 * more + 0x1_0000_0000 * q;
    SameLow(t0 + 8 * more, q);
    CarryOf(t0, more);
    HighSum(t1, q, high, if CarryRight(t0, more) then 0 else 1);
  }

  lemma HighSum(t1: nat, q: nat, high: nat, wrong: nat)
    requires t1 % 0x1_0000_0000 == q % 0x1_0000_0000 && wrong < 2
    ensures (t1 + high + wrong) % 0x1_0000_0000_0000_0000 % 0x1_0000_0000 == (high + q) % 0x1_0000_0000 <==> wrong == 0
  {
    var n := t1 + high + wrong;
    SameLow(n % 0x1_0000_0000_0000_0000, 0x1_0000_0000 * (n / 0x1_0000_0000_0000_0000));
    SameLow(t1 % 0x1_0000_0000 + high + wrong, t1 / 0x1_0000_0000);
    SameLow(t1 % 0x1_0000_0000 + high, q / 0x1_0000_0000);
    NextDiffers(t1 % 0x1_0000_0000 + high);
  }

  lemma NextDiffers(x: nat)
    ensures (x + 1) % 0x1_0000_0000 != x % 0x1_0000_0000
  {
  }

  /** The eight bytes that `CMD5Ex_finish` takes from the counter, as numbers and as bytes. */
  function FieldByte(t0: nat, t1: nat, i: nat): (b: nat)
    requires i < 8
    ensures b < 256
  {
    if i < 4 then ByteOf(t0, i) else ByteOf(t1, i - 4)
  }

  function Field(t0: nat, t1: nat): (r: seq<bv8>)
    ensures |r| == 8
  {
    seq(8, i requires 0 <= i < 8 => FieldByte(t0, t1, i) as bv8)
  }

  ghost predicate FieldRight(t0: nat, t1: nat, len: nat) {
    forall i: nat :: i < 8 ==> FieldByte(t0, t1, i) == ByteOf(8 * len, i)
  }

  /** The length field is right exactly when the second word is. */
  lemma FieldExact(t0: nat, t1: nat, len: nat)
    requires LowExact(t0, len)
    ensures HighExact(t1, len) <==> FieldRight(t0, t1, len)
    ensures HighExact(t1, len) ==> Field(t0, t1) == LengthBytes(8 * len)
  {
    hide ByteOf;
    var n := 8 * len;
    var q := n / 0x1_0000_0000;
    forall i: nat | i < 4 ensures ByteOf(n, i) == ByteOf(t0, i) && ByteOf(n, i + 4) == ByteOf(q, i) {
      LowByte(t0, q, i);
      HighByte(n, i);
    }
    if HighExact(t1, len) {
      forall i: nat | i < 4 ensures ByteOf(t1, i) == ByteOf(q, i) {
        LowByte(t1 % 0x1_0000_0000, t1 / 0x1_0000_0000, i);
        LowByte(q % 0x1_0000_0000, q / 0x1_0000_0000, i);
      }
      forall i: nat | i < 8 ensures FieldByte(t0, t1, i) == ByteOf(n, i) {
        assert i >= 4 ==> ByteOf(n, i - 4 + 4) == ByteOf(q, i - 4);
      }
    }
    if FieldRight(t0, t1, len) {
      forall i: nat | i < 4 ensures ByteOf(t1, i) == ByteOf(q, i) {
        assert FieldByte(t0, t1, i + 4) == ByteOf(n, i + 4);
      }
      FourBytes(t1);
      FourBytes(q);
    }
  }

  lemma FourDigits(n: nat)
    ensures n % 0x1_0000_0000 ==
      n % 256 + 256 * (n / 256 % 256) + 0x1_0000 * (n / 0x1_0000 % 256) + 0x100_0000 * (n / 0x100_0000 % 256)
  {
    var n1, n2, n3 := n / 256, n / 0x1_0000, n / 0x100_0000;
    assert n2 == n1 / 256 && n3 == n2 / 256 && n / 0x1_0000_0000 == n3 / 256;
  }

  /** Four bytes determine a number below 2^32. */
  lemma FourBytes(n: nat)
    ensures n % 0x1_0000_0000 ==
      ByteOf(n, 0) + 256 * ByteOf(n, 1) + 0x1_0000 * ByteOf(n, 2) + 0x100_0000 * ByteOf(n, 3)
  {
    assert Power256(1) == 256 && Power256(2) == 0x1_0000 && Power256(3) == 0x100_0000;
    FourDigits(n);
  }

  // ---------------------------------------------------------------------------------------
  // The context
  // ---------------------------------------------------------------------------------------

  const PADDING: seq<bv8> := [0x80] + seq(63, _ => 0)

  lemma NothingChained()
    ensures Chain([], 0) == INITIAL == Lows(0x67452301, 0xEFCDAB89, 0x98BADCFE, 0x10325476)
    ensures LowExact(0, 0) && HighExact(0, 0)
  {
  }

  lemma NoSteps(h: Vars, block: Bytes64)
    ensures Steps(h, block, 0) == h
  {
  }

  lemma LowPosition(t0: nat, len: nat)
    requires LowExact(t0, len)
    ensures t0 / 8 % 64 == len % 64
  {
    var q := 8 * len / 0x1_0000_0000;
    assert t0 / 8 + 64 * (0x80_0000 * q) == len;
    SameSix(t0 / 8, 0x80_0000 * q);
  }

  lemma NothingAdded(t0: nat, m: seq<bv8>, data: seq<bv8>)
    requires |data| == 0
    ensures m + data == m && CarryRight(t0, |data|)
  {
  }

  /** `CMD5Ex_context`.  `message` is all that has been taken in since the start. */
  class Context {
    var total0: nat
    var total1: nat
    const state: array<bv64>
    const buffer: array<bv8>
    ghost var message: seq<bv8>

    ghost predicate Shape() {
      state.Length == 4 && buffer.Length == 64
    }

    ghost function Value(): Vars
      requires Shape()
      reads state
    {
      Lows(state[0], state[1], state[2], state[3])
    }

    ghost predicate Valid()
      reads this, state, buffer
    {
      && Shape()
      && LowExact(total0, |message|)
      && Value() == Chain(message, |message| / 64)
      && buffer[..|message| % 64] == message[64 * (|message| / 64)..]
    }

    constructor ()
      ensures Shape() && fresh(state) && fresh(buffer)
    {
      state := new bv64[4];
      buffer := new bv8[64];
    }

    /** `CMD5Ex_starts`. */
    method Starts()
      requires Shape()
      modifies this, state
      ensures Valid() && message == [] && HighExact(total1, 0)
    {
      hide ChainFrom, LowExact, HighExact, Low;
      total0, total1 := 0, 0;
      StartState();
      message := [];
      NothingChained();
      assert |message| / 64 == 0 && |message| % 64 == 0 && buffer[..0] == message[0..];
    }

    method StartState()
      requires Shape()
      modifies state
      ensures Value() == INITIAL
    {
      hide Low;
      NothingChained();
      state[0] := 0x67452301;
      state[1] := 0xEFCDAB89;
      state[2] := 0x98BADCFE;
      state[3] := 0x10325476;
    }

    /** `CMD5Ex_process`. */
    method Process(data: Bytes64)
      requires Shape()
      modifies state
      ensures Value() == Compress(old(Value()), data)
    {
      hide Words, Steps, Add, Add64, Low;
      ghost var h := Value();
      var x := new bv64[16];
      GetWords(x, data);
      var A, B, C, D := state[0], state[1], state[2], state[3];
      NoSteps(h, data);
      A, B, C, D := Round1(A, B, C, D, x, h, data);
      A, B, C, D := Round2(A, B, C, D, x, h, data);
      A, B, C, D := Round3(A, B, C, D, x, h, data);
      A, B, C, D := Round4(A, B, C, D, x, h, data);
      LowAdd(state[0], A);
      LowAdd(state[1], B);
      LowAdd(state[2], C);
      LowAdd(state[3], D);
      state[0] := Add64(state[0], A);
      state[1] := Add64(state[1], B);
      state[2] := Add64(state[2], C);
      state[3] := Add64(state[3], D);
    }

    /** The loop of `CMD5Ex_update` over whole blocks.  `all` is the message with `data` at its end,
        and if `aligned`, `b` of its blocks are in. */
    method ProcessBlocks(data: seq<bv8>, start: nat, ghost all: seq<bv8>, ghost b: nat, ghost aligned: bool)
        returns (i: nat)
      requires Shape() && start <= |data| <= |all| && all[|all| - |data|..] == data
      requires aligned ==> 64 * b == |all| - |data| + start && Value() == Chain(all, b)
      modifies state
      ensures start <= i <= |data|
      ensures |data| - start < 64 ==> i == start && Value() == old(Value())
      ensures aligned ==> |data| - i == |all| % 64 && Value() == Chain(all, |all| / 64)
    {
      hide Compress;
      i := start;
      ghost var n := b;
      while |data| - i >= 64
        invariant start <= i <= |data|
        invariant aligned ==> 64 * n == |all| - |data| + i && Value() == Chain(all, n)
        invariant |data| - start < 64 ==> i == start && Value() == old(Value())
      {
        assert aligned ==> BlockAt(all, n) == data[i..i + 64] by {
          if aligned {
            assert BlockAt(all, n) == all[|all| - |data|..][i..i + 64];
          }
        }
        Process(data[i..i + 64]);
        n := n + 1;
        i := i + 64;
      }
      if aligned {
        WholeBlocks(|all|, n, |data| - i);
      }
    }

    /** The counter part of `CMD5Ex_update`. */
    method AddLength(len: nat)
      modifies `total0, `total1
      ensures (total0, total1) == Count(old(total0), old(total1), len)
    {
      OneMore(total1 + len / 0x2000_0000);
      total0 := total0 + 8 * len;
      total1 := (total1 + len / 0x2000_0000) % 0x1_0000_0000_0000_0000;
      total0 := total0 % 0x1_0000_0000;
      if total0 < 8 * len {
        total1 := (total1 + 1) % 0x1_0000_0000_0000_0000;
      }
    }

    /** `CMD5Ex_update`. */
    method Update(data: seq<bv8>)
      requires Valid() && |data| < 0x2000_0000_0000_0000
      modifies this, state, buffer
      ensures Valid() && message == old(message) + data
      ensures old(HighExact(total1, |message|)) ==>
        (HighExact(total1, |message|) <==> CarryRight(old(total0), |data|))
    {
      hide ChainFrom, Compress, HighExact, CarryRight, LowExact, Count;
      if |data| == 0 {
        NothingAdded(total0, message, data);
        return;
      }
      ghost var m, all := message, message + data;
      var left := total0 / 8 % 64;
      LowPosition(total0, |m|);
      LowExactMore(total0, total1, |m|, |data|);
      if HighExact(total1, |m|) {
        HighExactMore(total0, total1, |m|, |data|);
      }
      AddLength(|data|);
      left := TakeIn(data, left, m);
      message := all;
    }

    /** The last `memcpy` of `CMD5Ex_update`. */
    method KeepRest(data: seq<bv8>, i: nat, left: nat)
      requires Shape() && i <= |data| && left + |data| - i < 64
      modifies buffer
      ensures buffer[..left + |data| - i] == old(buffer[..left]) + data[i..]
    {
      if |data| - i != 0 {
        Fill(buffer, left, data, i, |data| - i);
      }
      assert data[i..i + (|data| - i)] == data[i..];
    }

    /** The rest of `CMD5Ex_update`. */
    method TakeIn(data: seq<bv8>, start: nat, ghost m: seq<bv8>) returns (left: nat)
      requires Shape() && start == |m| % 64
      requires Value() == Chain(m, |m| / 64) && buffer[..start] == m[64 * (|m| / 64)..]
      modifies state, buffer
      ensures Value() == Chain(m + data, |m + data| / 64)
      ensures buffer[..|m + data| % 64] == (m + data)[64 * (|m + data| / 64)..]
    {
      hide ChainFrom, Compress;
      var i: nat := 0;
      left := start;
      ghost var b := |m| / 64;
      ChainOfMore(Compress, INITIAL, m, data);
      if left != 0 && |data| >= 64 - left {
        i := 64 - left;
        Fill(buffer, left, data, 0, i);
        FilledBlock(m, data, buffer[..]);
        Process(buffer[..]);
        left := 0;
        b := b + 1;
      }
      i := ProcessBlocks(data, i, m + data, b, left == 0);
      RestOfMore(m, data, i, left);
      KeepRest(data, i, left);
    }

    /** `CMD5Ex_finish`: the digest is that of the message closed with the length as it was counted. */
    method Finish() returns (digest: seq<bv8>)
      requires Valid()
      modifies this, state, buffer
      ensures digest == ClosedDigest(old(message), Field(old(total0), old(total1)))
      ensures old(HighExact(total1, |message|)) ==> digest == Digest(old(message))
    {
      hide ChainFrom, Field, WordBytes, Bytes, HighExact, Closed, LowExact, FieldRight;
      ghost var m := message;
      var msglen := Field(total0, total1);
      FieldExact(total0, total1, |m|);
      LowPosition(total0, |m|);
      var last := total0 / 8 % 64;
      var padn := if last < 56 then 56 - last else 120 - last;
      PaddingPart(|m|, padn);
      Update(PADDING[..padn]);
      Update(msglen);
      ClosedParts(m, msglen, padn);
      assert message == Closed(m, msglen);
      digest := PutWords(state[0], state[1], state[2], state[3]);
    }
  }

  /** Four times `PUT_UINT32`. */
  function PutWords(a: bv64, b: bv64, c: bv64, d: bv64): (r: seq<bv8>)
    ensures r == Bytes(Lows(a, b, c, d))
  {
    PutWordIs(a);
    PutWordIs(b);
    PutWordIs(c);
    PutWordIs(d);
    PutWord(a) + PutWord(b) + PutWord(c) + PutWord(d)
  }

  function PutWord(n: bv64): seq<bv8> {
    [(n & 0xFF) as bv8, ((n >> 8) & 0xFF) as bv8, ((n >> 16) & 0xFF) as bv8, ((n >> 24) & 0xFF) as bv8]
  }

  lemma PutWordIs(n: bv64)
    ensures PutWord(n) == WordBytes(Low(n))
  {
  }

  lemma PaddingPart(len: nat, padn: nat)
    requires padn == if len % 64 < 56 then 56 - len % 64 else 120 - len % 64
    ensures 1 <= padn <= 64 && padn == ZeroCount(len) + 1
  {
  }

  lemma ClosedParts(m: seq<bv8>, field: seq<bv8>, padn: nat)
    requires 1 <= padn <= 64 && padn == ZeroCount(|m|) + 1 && |field| == 8
    ensures m + PADDING[..padn] + field == Closed(m, field)
  {
    assert PADDING[..padn] == [0x80] + seq(padn - 1, _ => 0);
  }

  lemma LowExactOf(context: Context)
    requires context.Valid()
    ensures LowExact(context.total0, |context.message|)
  {
  }

  /** `GenerateCMD5Ex`, on one buffer of at most 2^31 - 1 bytes: the digest is that of the standard
      up to 2^29 - 1 of them, and from there on the length it is closed with is wrong. */
  method GenerateCMD5Ex(buffer: seq<bv8>) returns (digest: seq<bv8>, ghost t0: nat, ghost t1: nat)
    requires |buffer| < 0x8000_0000
    ensures digest == ClosedDigest(buffer, Field(t0, t1))
    ensures FieldRight(t0, t1, |buffer|) <==> |buffer| < 0x2000_0000
    ensures |buffer| < 0x2000_0000 ==> digest == Digest(buffer)
  {
    hide CarryRight, Context.Valid, ChainFrom, HighExact, LowExact, ClosedDigest, Digest, Field, FieldRight;
    var context := new Context();
    context.Starts();
    ghost var started := context.total0;
    LowExactOf(context);
    StartedAtNothing(started, |buffer|);
    context.Update(buffer);
    assert [] + buffer == buffer;
    t0, t1 := context.total0, context.total1;
    LowExactOf(context);
    FieldExact(t0, t1, |buffer|);
    digest := context.Finish();
  }

  lemma StartedAtNothing(t0: nat, len: nat)
    requires LowExact(t0, 0)
    ensures CarryRight(t0, len) <==> len < 0x2000_0000
  {
  }

  /** However a message is split over calls of `CMD5Ex_update`, if every chunk is below 2^29 bytes the
      digest is that of the whole. */
  method HashPieces(pieces: seq<seq<bv8>>) returns (digest: seq<bv8>)
    requires forall k :: 0 <= k < |pieces| ==> |pieces[k]| < 0x2000_0000
    ensures digest == Digest(Joined(pieces, |pieces|))
  {
    hide ChainFrom, HighExact, LowExact, ClosedDigest, Digest, Field, FieldRight;
    var context := new Context();
    context.Starts();
    for k := 0 to |pieces|
      invariant context.Valid() && context.message == Joined(pieces, k)
      invariant HighExact(context.total1, |context.message|)
    {
      context.Update(pieces[k]);
    }
    digest := context.Finish();
  }
}
