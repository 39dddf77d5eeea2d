/** Byte strings in blocks of 64, as both hash functions take them in. */
module Blocks {

  type Bytes64 = s: seq<bv8> | |s| == 64 witness seq(64, _ => 0)

  function BlockAt(s: seq<bv8>, n: nat): Bytes64
    requires 64 * n + 64 <= |s|
  {
    s[64 * n..64 * n + 64]
  }

  function LittleEndian(b0: bv8, b1: bv8, b2: bv8, b3: bv8): bv32 {
    (b0 as bv32) | ((b1 as bv32) << 8) | ((b2 as bv32) << 16) | ((b3 as bv32) << 24)
  }

  /** What a hash function makes of the first `n` blocks of `s`. */
  function ChainFrom<V>(compress: (V, Bytes64) -> V, initial: V, s: seq<bv8>, n: nat): V
    requires 64 * n <= |s|
  {
    if n == 0 then initial else compress(ChainFrom(compress, initial, s, n - 1), BlockAt(s, n - 1))
  }

  /** A chain depends on the blocks it has taken in only. */
  lemma {:induction false} ChainPrefix<V>(compress: (V, Bytes64) -> V, initial: V, s: seq<bv8>, t: seq<bv8>, n: nat)
    requires 64 * n <= |s|
    ensures ChainFrom(compress, initial, s + t, n) == ChainFrom(compress, initial, s, n)
  {
    if n > 0 {
      ChainPrefix(compress, initial, s, t, n - 1);
      assert BlockAt(s + t, n - 1) == BlockAt(s, n - 1);
    }
  }

  lemma SameSix(x: nat, y: nat)
    ensures (x + 64 * y) % 64 == x % 64
  {
    assert x + 64 * y == 64 * (x / 64 + y) + x % 64;
  }

  lemma WholeBlocks(len: nat, n: nat, r: nat)
    requires len == 64 * n + r && r < 64
    ensures len / 64 == n && len % 64 == r
  {
  }

  // Taking in `data` after `m`

  /** The `memcpy` calls of both: `n` bytes of `data` from `i` on go to place `j` of a buffer. */
  method Fill(buffer: array<bv8>, j: nat, data: seq<bv8>, i: nat, n: nat)
    requires j + n <= buffer.Length && i + n <= |data|
    modifies buffer
    ensures buffer[..j + n] == old(buffer[..j]) + data[i..i + n]
  {
    forall k | 0 <= k < n {
      buffer[j + k] := data[i + k];
    }
  }

  /** The chain over the old message, in terms of the new one. */
  lemma ChainOfMore<V>(compress: (V, Bytes64) -> V, initial: V, m: seq<bv8>, data: seq<bv8>)
    ensures ChainFrom(compress, initial, m + data, |m| / 64) == ChainFrom(compress, initial, m, |m| / 64)
    ensures 64 * (|m| / 64) + 64 <= |m + data| ==>
      ChainFrom(compress, initial, m + data, |m| / 64 + 1) ==
        compress(ChainFrom(compress, initial, m, |m| / 64), BlockAt(m + data, |m| / 64))
  {
    ChainPrefix(compress, initial, m, data, |m| / 64);
  }

  /** The block that the first bytes of `data` complete. */
  lemma FilledBlock(m: seq<bv8>, data: seq<bv8>, buffer: seq<bv8>)
    requires |m| % 64 + |data| > 63 && |buffer| == 64
    requires buffer[..64] == m[64 * (|m| / 64)..] + data[0..64 - |m| % 64]
    ensures buffer == BlockAt(m + data, |m| / 64)
  {
    var q, r := |m| / 64, |m| % 64;
    assert |m| == 64 * q + r;
    forall k | 0 <= k < 64 ensures buffer[k] == (m + data)[64 * q + k] {
      assert buffer[k] == buffer[..64][k] == (m[64 * q..] + data[0..64 - r])[k];
    }
  }

  /** The bytes that stay in the buffer. */
  lemma RestOfMore(m: seq<bv8>, data: seq<bv8>, i: nat, j: nat)
    requires i <= |data|
    requires (i == 0 && j == |m| % 64 && j + |data| < 64) || (j == 0 && |data| - i == |m + data| % 64)
    ensures j + |data| - i == |m + data| % 64
    ensures (m + data)[64 * (|m + data| / 64)..] ==
      (if j == 0 then [] else m[64 * (|m| / 64)..]) + data[i..]
  {
  }

  // Lengths

  /** How many zero bytes the padding has between the 0x80 and the length. */
  function ZeroCount(len: nat): (k: nat)
    ensures k < 64 && (len + 1 + k) % 64 == 56
  {
    (119 - len % 64) % 64
  }

  /** Byte `k` of `n`, counted from the least significant. */
  function ByteOf(n: nat, k: nat): (r: nat)
    requires k < 8
    ensures r < 256
  {
    n / Power256(k) % 256
  }

  function Power256(k: nat): (p: nat)
    ensures p > 0
  {
    if k == 0 then 1 else 256 * Power256(k - 1)
  }

  function Total(c0: nat, c1: nat, q: nat): nat {
    c0 + 0x1_0000_0000 * c1 + 0x1_0000_0000_0000_0000 * q
  }

  lemma SameByte(x: nat, y: nat)
    ensures (x + 256 * y) % 256 == x % 256
  {
    assert x + 256 * y == 256 * (x / 256 + y) + x % 256;
  }

  lemma PowersOf256()
    ensures Power256(0) == 1 && Power256(1) == 256 && Power256(2) == 0x1_0000 && Power256(3) == 0x100_0000
    ensures Power256(4) == 0x1_0000_0000 && Power256(5) == 0x100_0000_0000
    ensures Power256(6) == 0x1_0000_0000_0000 && Power256(7) == 0x100_0000_0000_0000
  {
    assert Power256(1) == 256 && Power256(2) == 0x1_0000 && Power256(3) == 0x100_0000;
    assert Power256(4) == 0x1_0000_0000 && Power256(5) == 0x100_0000_0000;
  }

  lemma Quotients(n: nat)
    ensures n / 0x1_0000 == n / 0x100 / 256
    ensures n / 0x100_0000 == n / 0x1_0000 / 256
    ensures n / 0x1_0000_0000 == n / 0x100_0000 / 256
    ensures n / 0x100_0000_0000 == n / 0x1_0000_0000 / 256
    ensures n / 0x1_0000_0000_0000 == n / 0x100_0000_0000 / 256
    ensures n / 0x100_0000_0000_0000 == n / 0x1_0000_0000_0000 / 256
    ensures n / 0x1_0000_0000_0000_0000 == n / 0x100_0000_0000_0000 / 256
  {
  }

  function Weighted(b0: nat, b1: nat, b2: nat, b3: nat, b4: nat, b5: nat, b6: nat, b7: nat): nat {
    b0 + 0x100 * b1 + 0x1_0000 * b2 + 0x100_0000 * b3 + 0x1_0000_0000 * b4 + 0x100_0000_0000 * b5 +
    0x1_0000_0000_0000 * b6 + 0x100_0000_0000_0000 * b7
  }

  lemma WeightedDigits(n: nat, q1: nat, q2: nat, q3: nat, q4: nat, q5: nat, q6: nat, q7: nat, q8: nat)
    requires q1 == n / 256 && q2 == q1 / 256 && q3 == q2 / 256 && q4 == q3 / 256
    requires q5 == q4 / 256 && q6 == q5 / 256 && q7 == q6 / 256 && q8 == q7 / 256
    ensures Weighted(n % 256, q1 % 256, q2 % 256, q3 % 256, q4 % 256, q5 % 256, q6 % 256, q7 % 256) ==
      n - 0x1_0000_0000_0000_0000 * q8
  {
  }

  lemma RemainderIs(n: nat, q: nat, r: nat)
    requires n == 0x1_0000_0000_0000_0000 * q + r && r < 0x1_0000_0000_0000_0000
    ensures n % 0x1_0000_0000_0000_0000 == r
  {
  }

  /** The bytes of a number are its digits in base 256: eight of them are the number modulo 2^64. */
  lemma EightBytes(n: nat)
    ensures
      ByteOf(n, 0) + 0x100 * ByteOf(n, 1) + 0x1_0000 * ByteOf(n, 2) + 0x100_0000 * ByteOf(n, 3) +
      0x1_0000_0000 * ByteOf(n, 4) + 0x100_0000_0000 * ByteOf(n, 5) + 0x1_0000_0000_0000 * ByteOf(n, 6) +
      0x100_0000_0000_0000 * ByteOf(n, 7) == n % 0x1_0000_0000_0000_0000
  {
    hide Power256;
    PowersOf256();
    Quotients(n);
    var q := n / 0x1_0000_0000_0000_0000;
    WeightedDigits(n, n / 0x100, n / 0x1_0000, n / 0x100_0000, n / 0x1_0000_0000, n / 0x100_0000_0000,
      n / 0x1_0000_0000_0000, n / 0x100_0000_0000_0000, q);
    RemainderIs(n, q, n - 0x1_0000_0000_0000_0000 * q);
  }

  lemma {:induction false} LargePower(k: nat)
    requires k > 0
    ensures Power256(k) >= 256
  {
    if k > 1 {
      LargePower(k - 1);
    }
  }

  /** A number below 256 is its lowest byte. */
  lemma ByteOfSmall(n: nat, k: nat)
    requires n < 256 && k < 8
    ensures ByteOf(n, k) == if k == 0 then n else 0
  {
    hide Power256;
    PowersOf256();
    if k > 0 {
      LargePower(k);
      assert n / Power256(k) == 0;
    }
  }

  /** What lies above the first four bytes does not reach byte `k`. */
  lemma LowByte(c: nat, m: nat, k: nat)
    requires k < 4
    ensures ByteOf(c + 0x1_0000_0000 * m, k) == ByteOf(c, k)
  {
    hide Power256;
    PowersOf256();
    if k == 0 {
      SameByte(c, 0x100_0000 * m);
    } else if k == 1 {
      DividedBy256(c, m);
      SameByte(c / 256, 0x1_0000 * m);
    } else if k == 2 {
      DividedBy64K(c, m);
      SameByte(c / 0x1_0000, 256 * m);
    } else {
      DividedBy16M(c, m);
      SameByte(c / 0x100_0000, m);
    }
  }

  lemma DividedBy256(c: nat, m: nat)
    ensures (c + 0x1_0000_0000 * m) / 256 == c / 256 + 256 * (0x1_0000 * m)
  {
    assert c + 0x1_0000_0000 * m == 256 * (c / 256 + 0x100_0000 * m) + c % 256;
  }

  lemma DividedBy64K(c: nat, m: nat)
    ensures (c + 0x1_0000_0000 * m) / 0x1_0000 == c / 0x1_0000 + 256 * (256 * m)
  {
    assert c + 0x1_0000_0000 * m == 0x1_0000 * (c / 0x1_0000 + 0x1_0000 * m) + c % 0x1_0000;
  }

  lemma DividedBy16M(c: nat, m: nat)
    ensures (c + 0x1_0000_0000 * m) / 0x100_0000 == c / 0x100_0000 + 256 * m
  {
    assert c + 0x1_0000_0000 * m == 0x100_0000 * (c / 0x100_0000 + 256 * m) + c % 0x100_0000;
  }

  lemma HighByte(n: nat, k: nat)
    requires k < 4
    ensures ByteOf(n, k + 4) == ByteOf(n / 0x1_0000_0000, k)
  {
    hide Power256;
    PowersOf256();
    if k == 0 {
    } else if k == 1 {
      assert n / 0x1_0000_0000 / 256 == n / 0x100_0000_0000;
    } else if k == 2 {
      assert n / 0x1_0000_0000 / 0x1_0000 == n / 0x1_0000_0000_0000;
    } else {
      assert n / 0x1_0000_0000 / 0x100_0000 == n / 0x100_0000_0000_0000;
    }
  }

  lemma CounterValue(c0: nat, c1: nat, q: nat, i: nat)
    requires i < 8 && c0 < 0x1_0000_0000
    ensures ByteOf(if i >= 4 then c0 else c1, if i >= 4 then 7 - i else 3 - i) == ByteOf(Total(c0, c1, q), 7 - i)
  {
    hide ByteOf;
    var high := c1 + 0x1_0000_0000 * q;
    assert Total(c0, c1, q) == c0 + 0x1_0000_0000 * high;
    if i >= 4 {
      LowByte(c0, high, 7 - i);
    } else {
      HighByte(c0 + 0x1_0000_0000 * high, 3 - i);
      assert (c0 + 0x1_0000_0000 * high) / 0x1_0000_0000 == high;
      LowByte(c1, q, 3 - i);
    }
  }
}
