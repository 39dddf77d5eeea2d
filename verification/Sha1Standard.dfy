/** SHA-1 as FIPS 180-4 defines it, on byte strings. */
module Sha1Standard {
  import opened Blocks

  /** The five working variables, or the five words of a hash value. */
  datatype Vars = Vars(a: bv32, b: bv32, c: bv32, d: bv32, e: bv32)

  function Rotl(x: bv32, n: bv6): bv32
    requires 0 < n < 32
  {
    (x << n) | (x >> (32 - n))
  }

  /** The functions of section 4.1.1. */
  function Logic(t: nat, x: bv32, y: bv32, z: bv32): bv32 {
    if t < 20 then (x & y) ^ (!x & z)
    else if 40 <= t < 60 then (x & y) ^ (x & z) ^ (y & z)
    else x ^ y ^ z
  }

  /** The constants of section 4.2.1. */
  function Constant(t: nat): bv32 {
    if t < 20 then 0x5A827999 else if t < 40 then 0x6ED9EBA1 else if t < 60 then 0x8F1BBCDC else 0xCA62C1D6
  }

  /** They are 2^30 times the square roots of 2, 3, 5 and 10, rounded down. */
  lemma ConstantsAreRoots(t: nat)
    ensures
      var k, n := Constant(t) as int, if t < 20 then 2 else if t < 40 then 3 else if t < 60 then 5 else 10;
      k * k <= n * 0x1000_0000_0000_0000 < (k + 1) * (k + 1)
  {
  }

  function BigEndian(b0: bv8, b1: bv8, b2: bv8, b3: bv8): bv32 {
    ((b0 as bv32) << 24) | ((b1 as bv32) << 16) | ((b2 as bv32) << 8) | (b3 as bv32)
  }

  function Xor4(w: bv32, x: bv32, y: bv32, z: bv32): bv32 {
    w ^ x ^ y ^ z
  }

  /** The message schedule: step 1 of section 6.1.2. */
  function Word(block: Bytes64, t: nat): bv32 {
    if t < 16 then BigEndian(block[4 * t], block[4 * t + 1], block[4 * t + 2], block[4 * t + 3])
    else Rotl(Xor4(Word(block, t - 3), Word(block, t - 8), Word(block, t - 14), Word(block, t - 16)), 1)
  }

  function Sum(r: bv32, f: bv32, e: bv32, k: bv32, w: bv32): bv32 {
    r + f + e + k + w
  }

  /** One round of step 3. */
  function Step(s: Vars, t: nat, w: bv32): Vars {
    Vars(Sum(Rotl(s.a, 5), Logic(t, s.b, s.c, s.d), s.e, Constant(t), w), s.a, Rotl(s.b, 30), s.c, s.d)
  }

  /** The working variables after `t` rounds. */
  function Steps(h: Vars, block: Bytes64, t: nat): Vars {
    if t == 0 then h else Step(Steps(h, block, t - 1), t - 1, Word(block, t - 1))
  }

  function Add(x: bv32, y: bv32): bv32 {
    x + y
  }

  function Plus(h: Vars, s: Vars): Vars {
    Vars(Add(h.a, s.a), Add(h.b, s.b), Add(h.c, s.c), Add(h.d, s.d), Add(h.e, s.e))
  }

  /** Steps 1 to 4 for one block. */
  function Compress(h: Vars, block: Bytes64): Vars {
    Plus(h, Steps(h, block, 80))
  }

  // The recurrences, in the operators of the standard alone

  lemma WordsBefore(block: Bytes64, t: nat)
    requires t >= 16
    ensures
      var x := Word(block, t - 3) ^ Word(block, t - 8) ^ Word(block, t - 14) ^ Word(block, t - 16);
      Word(block, t) == (x << 1) | (x >> 31)
  {
  }

  lemma StepSpelledOut(s: Vars, t: nat, w: bv32, r: bv32, f: bv32, k: bv32)
    requires r == (s.a << 5) | (s.a >> 27) && k == Constant(t)
    requires f ==
      if t < 20 then (s.b & s.c) ^ (!s.b & s.d)
      else if 40 <= t < 60 then (s.b & s.c) ^ (s.b & s.d) ^ (s.c & s.d)
      else s.b ^ s.c ^ s.d
    ensures Step(s, t, w).a == r + f + s.e + k + w && Step(s, t, w).b == s.a
    ensures Step(s, t, w).c == (s.b << 30) | (s.b >> 2) && Step(s, t, w).d == s.c && Step(s, t, w).e == s.d
  {
    hide Sum, Rotl, Logic;
    RotationsAre(s.a, s.b);
    LogicIs(t, s.b, s.c, s.d);
    SumIs(r, f, s.e, k, w);
    assert Step(s, t, w).a == Sum(r, f, s.e, k, w);
  }

  lemma RotationsAre(a: bv32, b: bv32)
    ensures Rotl(a, 5) == (a << 5) | (a >> 27) && Rotl(b, 30) == (b << 30) | (b >> 2)
  {
  }

  lemma LogicIs(t: nat, x: bv32, y: bv32, z: bv32)
    ensures t < 20 ==> Logic(t, x, y, z) == (x & y) ^ (!x & z)
    ensures 20 <= t < 40 || 60 <= t ==> Logic(t, x, y, z) == x ^ y ^ z
    ensures 40 <= t < 60 ==> Logic(t, x, y, z) == (x & y) ^ (x & z) ^ (y & z)
  {
  }

  lemma SumIs(r: bv32, f: bv32, e: bv32, k: bv32, w: bv32)
    ensures Sum(r, f, e, k, w) == r + f + e + k + w
  {
  }

  lemma PlusSpelledOut(h: Vars, s: Vars)
    ensures Plus(h, s).a == h.a + s.a && Plus(h, s).b == h.b + s.b && Plus(h, s).c == h.c + s.c
    ensures Plus(h, s).d == h.d + s.d && Plus(h, s).e == h.e + s.e
  {
    hide Add;
    AddIs(h.a, s.a);
    AddIs(h.b, s.b);
    AddIs(h.c, s.c);
    AddIs(h.d, s.d);
    AddIs(h.e, s.e);
  }

  lemma AddIs(x: bv32, y: bv32)
    ensures Add(x, y) == x + y
  {
  }

  const INITIAL := Vars(0x67452301, 0xEFCDAB89, 0x98BADCFE, 0x10325476, 0xC3D2E1F0)

  /** The hash value after `n` blocks of `s`. */
  function Chain(s: seq<bv8>, n: nat): Vars
    requires 64 * n <= |s|
  {
    ChainFrom(Compress, INITIAL, s, n)
  }

  /** `n` modulo 2^64 in eight bytes, most significant first. */
  function LengthBytes(n: nat): (r: seq<bv8>)
    ensures |r| == 8
  {
    seq(8, i requires 0 <= i < 8 => ByteOf(n, 7 - i) as bv8)
  }

  /** Section 5.1.1. */
  function Padded(m: seq<bv8>): (p: seq<bv8>)
    ensures |p| % 64 == 0
  {
    m + [0x80] + seq(ZeroCount(|m|), _ => 0) + LengthBytes(8 * |m|)
  }

  function WordBytes(x: bv32): (r: seq<bv8>)
    ensures |r| == 4
  {
    [((x >> 24) & 255) as bv8, ((x >> 16) & 255) as bv8, ((x >> 8) & 255) as bv8, (x & 255) as bv8]
  }

  function Bytes(h: Vars): (r: seq<bv8>)
    ensures |r| == 20
  {
    WordBytes(h.a) + WordBytes(h.b) + WordBytes(h.c) + WordBytes(h.d) + WordBytes(h.e)
  }

  function Digest(m: seq<bv8>): (r: seq<bv8>)
    ensures |r| == 20
  {
    Bytes(Chain(Padded(m), |Padded(m)| / 64))
  }
}
