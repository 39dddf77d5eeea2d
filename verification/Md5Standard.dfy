/** MD5 as RFC 1321 defines it, on byte strings. */
module Md5Standard {
  import opened Blocks

  datatype Vars = Vars(a: bv32, b: bv32, c: bv32, d: bv32)

  function Rotl(x: bv32, n: bv6): bv32
    requires 0 < n < 32
  {
    (x << n) | (x >> (32 - n))
  }

  function Add(x: bv32, y: bv32): bv32 {
    x + y
  }

  /** The functions F, G, H and I of section 3.4, for step `i`. */
  function Logic(i: nat, x: bv32, y: bv32, z: bv32): bv32 {
    if i < 16 then (x & y) | (!x & z)
    else if i < 32 then (x & z) | (y & !z)
    else if i < 48 then x ^ y ^ z
    else y ^ (x | !z)
  }

  /** Which word of the block step `i` takes. */
  function Index(i: nat): (k: nat)
    ensures k < 16
  {
    if i < 16 then i
    else if i < 32 then (5 * i + 1) % 16
    else if i < 48 then (3 * i + 5) % 16
    else 7 * i % 16
  }

  /** How far step `i` rotates. */
  function Shift(i: nat): (s: bv6)
    ensures 0 < s < 32
  {
    var r := i % 4;
    if i < 16 then (if r == 0 then 7 else if r == 1 then 12 else if r == 2 then 17 else 22)
    else if i < 32 then (if r == 0 then 5 else if r == 1 then 9 else if r == 2 then 14 else 20)
    else if i < 48 then (if r == 0 then 4 else if r == 1 then 11 else if r == 2 then 16 else 23)
    else (if r == 0 then 6 else if r == 1 then 10 else if r == 2 then 15 else 21)
  }

  /** The table T: the integer part of 4294967296 times abs(sin(i)), i in radians from 1 on. */
  function Table(i: nat): bv32
    requires i < 64
  {
    if i < 16 then Table1(i) else if i < 32 then Table2(i - 16) else if i < 48 then Table3(i - 32) else Table4(i - 48)
  }

  function Table1(i: nat): bv32 {
    if i == 0 then 0xd76aa478 else if i == 1 then 0xe8c7b756 else if i == 2 then 0x242070db else if i == 3 then 0xc1bdceee
    else if i == 4 then 0xf57c0faf else if i == 5 then 0x4787c62a
    else if i == 6 then 0xa8304613 else if i == 7 then 0xfd469501
    else if i == 8 then 0x698098d8 else if i == 9 then 0x8b44f7af
    else if i == 10 then 0xffff5bb1 else if i == 11 then 0x895cd7be
    else if i == 12 then 0x6b901122 else if i == 13 then 0xfd987193 else if i == 14 then 0xa679438e else 0x49b40821
  }

  function Table2(i: nat): bv32 {
    if i == 0 then 0xf61e2562 else if i == 1 then 0xc040b340 else if i == 2 then 0x265e5a51 else if i == 3 then 0xe9b6c7aa
    else if i == 4 then 0xd62f105d else if i == 5 then 0x02441453
    else if i == 6 then 0xd8a1e681 else if i == 7 then 0xe7d3fbc8
    else if i == 8 then 0x21e1cde6 else if i == 9 then 0xc33707d6
    else if i == 10 then 0xf4d50d87 else if i == 11 then 0x455a14ed
    else if i == 12 then 0xa9e3e905 else if i == 13 then 0xfcefa3f8 else if i == 14 then 0x676f02d9 else 0x8d2a4c8a
  }

  function Table3(i: nat): bv32 {
    if i == 0 then 0xfffa3942 else if i == 1 then 0x8771f681 else if i == 2 then 0x6d9d6122 else if i == 3 then 0xfde5380c
    else if i == 4 then 0xa4beea44 else if i == 5 then 0x4bdecfa9
    else if i == 6 then 0xf6bb4b60 else if i == 7 then 0xbebfbc70
    else if i == 8 then 0x289b7ec6 else if i == 9 then 0xeaa127fa
    else if i == 10 then 0xd4ef3085 else if i == 11 then 0x04881d05
    else if i == 12 then 0xd9d4d039 else if i == 13 then 0xe6db99e5 else if i == 14 then 0x1fa27cf8 else 0xc4ac5665
  }

  function Table4(i: nat): bv32 {
    if i == 0 then 0xf4292244 else if i == 1 then 0x432aff97 else if i == 2 then 0xab9423a7 else if i == 3 then 0xfc93a039
    else if i == 4 then 0x655b59c3 else if i == 5 then 0x8f0ccc92
    else if i == 6 then 0xffeff47d else if i == 7 then 0x85845dd1
    else if i == 8 then 0x6fa87e4f else if i == 9 then 0xfe2ce6e0
    else if i == 10 then 0xa3014314 else if i == 11 then 0x4e0811a1
    else if i == 12 then 0xf7537e82 else if i == 13 then 0xbd3af235 else if i == 14 then 0x2ad7d2bb else 0xeb86d391
  }

  function Word(block: Bytes64, k: nat): bv32
    requires k < 16
  {
    LittleEndian(block[4 * k], block[4 * k + 1], block[4 * k + 2], block[4 * k + 3])
  }

  /** Step `i` with block word `x` and table entry `t`; the variables change places. */
  function Step(s: Vars, i: nat, x: bv32, t: bv32): Vars {
    var sum := Add(Add(s.a, Logic(i, s.b, s.c, s.d)), Add(x, t));
    Vars(s.d, Add(Rotl(sum, Shift(i)), s.b), s.b, s.c)
  }

  /** The variables after the first `i` steps. */
  function Steps(h: Vars, block: Bytes64, i: nat): Vars
    requires i <= 64
  {
    if i == 0 then h
    else Step(Steps(h, block, i - 1), i - 1, Word(block, Index(i - 1)), Table(i - 1))
  }

  function Plus(h: Vars, s: Vars): Vars {
    Vars(Add(h.a, s.a), Add(h.b, s.b), Add(h.c, s.c), Add(h.d, s.d))
  }

  function Compress(h: Vars, block: Bytes64): Vars {
    Plus(h, Steps(h, block, 64))
  }

  const INITIAL := Vars(0x67452301, 0xefcdab89, 0x98badcfe, 0x10325476)

  /** The variables after `n` blocks of `s`. */
  function Chain(s: seq<bv8>, n: nat): Vars
    requires 64 * n <= |s|
  {
    ChainFrom(Compress, INITIAL, s, n)
  }

  /** `n` modulo 2^64 in eight bytes, least significant first. */
  function LengthBytes(n: nat): (r: seq<bv8>)
    ensures |r| == 8
  {
    seq(8, i requires 0 <= i < 8 => ByteOf(n, i) as bv8)
  }

  /** Sections 3.1 and 3.2, with `field` for the length. */
  function Closed(m: seq<bv8>, field: seq<bv8>): (p: seq<bv8>)
    requires |field| == 8
    ensures |p| % 64 == 0
  {
    m + [0x80] + seq(ZeroCount(|m|), _ => 0) + field
  }

  function WordBytes(x: bv32): (r: seq<bv8>)
    ensures |r| == 4
  {
    [(x & 255) as bv8, ((x >> 8) & 255) as bv8, ((x >> 16) & 255) as bv8, ((x >> 24) & 255) as bv8]
  }

  function Bytes(h: Vars): (r: seq<bv8>)
    ensures |r| == 16
  {
    WordBytes(h.a) + WordBytes(h.b) + WordBytes(h.c) + WordBytes(h.d)
  }

  /** The digest of a message closed with `field`. */
  function ClosedDigest(m: seq<bv8>, field: seq<bv8>): (r: seq<bv8>)
    requires |field| == 8
    ensures |r| == 16
  {
    Bytes(Chain(Closed(m, field), |Closed(m, field)| / 64))
  }

  function Digest(m: seq<bv8>): (r: seq<bv8>)
    ensures |r| == 16
  {
    ClosedDigest(m, LengthBytes(8 * |m|))
  }
}
