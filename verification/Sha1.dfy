/** The hash object of base/algorithm/SHA1.cpp: a block transformation that keeps only sixteen
    words of the message schedule, over a buffered stream. */
module Sha1 {
  import opened Basics
  import opened Blocks
  import opened Sha1Standard

  // ---------------------------------------------------------------------------------------
  // The macros
  // ---------------------------------------------------------------------------------------

  /** `ROL32`. */
  function Rol32(x: bv32, n: bv6): bv32
    requires 0 < n < 32
  {
    (x << n) | (x >> (32 - n))
  }

  /** The byte swap of `SHABLK0`; `memcpy` into the block leaves little-endian words. */
  function Swapped(x: bv32): bv32 {
    (Rol32(x, 24) & 0xFF00FF00) | (Rol32(x, 8) & 0x00FF00FF)
  }

  lemma SwappedWord(b0: bv8, b1: bv8, b2: bv8, b3: bv8)
    ensures Swapped(LittleEndian(b0, b1, b2, b3)) == BigEndian(b0, b1, b2, b3)
  {
  }

  // What the round macros take of three variables.

  function Choose(w: bv32, x: bv32, y: bv32): bv32 {
    (w & (x ^ y)) ^ y
  }

  function Exclusive(w: bv32, x: bv32, y: bv32): bv32 {
    w ^ x ^ y
  }

  function Most(w: bv32, x: bv32, y: bv32): bv32 {
    ((w | x) & y) | (w & x)
  }

  /** What they add to their last variable. */
  function Added(z: bv32, f: bv32, b: bv32, k: bv32, r: bv32): bv32 {
    z + (f + b + k + r)
  }

  // What they assign to it, `b` being the word of the block.

  /** `_R0` and `_R1`. */
  function R1(v: bv32, w: bv32, x: bv32, y: bv32, z: bv32, b: bv32): bv32 {
    Added(z, Choose(w, x, y), b, 0x5A827999, Rol32(v, 5))
  }

  function R2(v: bv32, w: bv32, x: bv32, y: bv32, z: bv32, b: bv32): bv32 {
    Added(z, Exclusive(w, x, y), b, 0x6ED9EBA1, Rol32(v, 5))
  }

  function R3(v: bv32, w: bv32, x: bv32, y: bv32, z: bv32, b: bv32): bv32 {
    Added(z, Most(w, x, y), b, 0x8F1BBCDC, Rol32(v, 5))
  }

  function R4(v: bv32, w: bv32, x: bv32, y: bv32, z: bv32, b: bv32): bv32 {
    Added(z, Exclusive(w, x, y), b, 0xCA62C1D6, Rol32(v, 5))
  }

  /** The macro of round `i`. */
  function Macro(i: nat, v: bv32, w: bv32, x: bv32, y: bv32, z: bv32, b: bv32): bv32 {
    if i < 20 then R1(v, w, x, y, z, b)
    else if i < 40 then R2(v, w, x, y, z, b)
    else if i < 60 then R3(v, w, x, y, z, b)
    else R4(v, w, x, y, z, b)
  }

  lemma Choice(w: bv32, x: bv32, y: bv32)
    ensures (w & (x ^ y)) ^ y == (w & x) ^ (!w & y)
  {
  }

  lemma Majority(w: bv32, x: bv32, y: bv32)
    ensures ((w | x) & y) | (w & x) == (w & x) ^ (w & y) ^ (x & y)
  {
  }

  lemma ChooseIs(w: bv32, x: bv32, y: bv32, i: nat)
    requires i < 20
    ensures Choose(w, x, y) == Logic(i, w, x, y)
  {
    Choice(w, x, y);
  }

  lemma MostIs(w: bv32, x: bv32, y: bv32, i: nat)
    requires 40 <= i < 60
    ensures Most(w, x, y) == Logic(i, w, x, y)
  {
    Majority(w, x, y);
  }

  lemma ExclusiveIs(w: bv32, x: bv32, y: bv32, i: nat)
    requires 20 <= i < 40 || 60 <= i
    ensures Exclusive(w, x, y) == Logic(i, w, x, y)
  {
  }

  lemma RotatedIs(x: bv32, n: bv6)
    requires 0 < n < 32
    ensures Rol32(x, n) == Rotl(x, n)
  {
  }

  lemma SumReordered(z: bv32, f: bv32, b: bv32, k: bv32, r: bv32)
    ensures Added(z, f, b, k, r) == Sum(r, f, z, k, b)
  {
  }

  /** A round macro is a round of section 6.1.2 of FIPS 180-4. */
  lemma MacroIsStep(i: nat, v: bv32, w: bv32, x: bv32, y: bv32, z: bv32, b: bv32)
    ensures Vars(Macro(i, v, w, x, y, z, b), v, Rol32(w, 30), x, y) == Step(Vars(v, w, x, y, z), i, b)
  {
    hide Choose, Exclusive, Most, Logic, Added, Sum, Rol32, Rotl;
    if i < 20 {
      ChooseIs(w, x, y, i);
    } else if 40 <= i < 60 {
      MostIs(w, x, y, i);
    } else {
      ExclusiveIs(w, x, y, i);
    }
    RotatedIs(v, 5);
    RotatedIs(w, 30);
    SumReordered(z, Logic(i, w, x, y), b, Constant(i), Rol32(v, 5));
  }

  // ---------------------------------------------------------------------------------------
  // The circular schedule
  // ---------------------------------------------------------------------------------------

  function RawWord(block: Bytes64, k: nat): bv32
    requires k < 16
  {
    LittleEndian(block[4 * k], block[4 * k + 1], block[4 * k + 2], block[4 * k + 3])
  }

  /** What `SHABLK` makes of four of the sixteen words. */
  function Mixed(w: bv32, x: bv32, y: bv32, z: bv32): bv32 {
    Rol32(w ^ x ^ y ^ z, 1)
  }

  /** Before round `t` the sixteen words hold the last sixteen of the schedule, and words not yet
      reached as they were copied. */
  ghost predicate Window(l: seq<bv32>, block: Bytes64, t: nat) {
    && |l| == 16
    && (forall k: nat :: k < t <= k + 16 ==> l[k % 16] == Word(block, k))
    && (forall k: nat :: t <= k < 16 ==> l[k] == RawWord(block, k))
  }

  lemma WindowEarly(l: seq<bv32>, block: Bytes64, t: nat)
    requires t < 16 && Window(l, block, t)
    ensures Swapped(l[t]) == Word(block, t) && Window(l[t := Word(block, t)], block, t + 1)
  {
    hide Swapped, LittleEndian, BigEndian;
    SwappedWord(block[4 * t], block[4 * t + 1], block[4 * t + 2], block[4 * t + 3]);
  }

  lemma WindowLate(l: seq<bv32>, block: Bytes64, t: nat)
    requires t >= 16 && Window(l, block, t)
    ensures Mixed(l[(t + 13) % 16], l[(t + 8) % 16], l[(t + 2) % 16], l[t % 16]) == Word(block, t)
    ensures Window(l[t % 16 := Word(block, t)], block, t + 1)
  {
    hide Mixed, RawWord, Word, Window;
    OneRoundBack(t - 3);
    OneRoundBack(t - 8);
    OneRoundBack(t - 14);
    OneRoundBack(t - 16);
    Held(l, block, t, t - 3);
    Held(l, block, t, t - 8);
    Held(l, block, t, t - 14);
    Held(l, block, t, t - 16);
    NextWord(block, t);
    WindowMoves(l, block, t);
  }

  lemma NextWord(block: Bytes64, t: nat)
    requires t >= 16
    ensures Word(block, t) == Mixed(Word(block, t - 3), Word(block, t - 8), Word(block, t - 14), Word(block, t - 16))
  {
    hide Rotl, Xor4, Mixed;
    MixedIs(Word(block, t - 3), Word(block, t - 8), Word(block, t - 14), Word(block, t - 16));
  }

  lemma MixedIs(w: bv32, x: bv32, y: bv32, z: bv32)
    ensures Mixed(w, x, y, z) == Rotl(Xor4(w, x, y, z), 1)
  {
  }

  lemma OneRoundBack(k: nat)
    ensures (k + 16) % 16 == k % 16
  {
  }

  lemma Held(l: seq<bv32>, block: Bytes64, t: nat, k: nat)
    requires Window(l, block, t) && k < t <= k + 16
    ensures l[k % 16] == Word(block, k)
  {
    hide Word, RawWord;
  }

  lemma WindowMoves(l: seq<bv32>, block: Bytes64, t: nat)
    requires t >= 16 && Window(l, block, t)
    ensures Window(l[t % 16 := Word(block, t)], block, t + 1)
  {
    hide Word, RawWord;
    var l' := l[t % 16 := Word(block, t)];
    forall k: nat | k < t + 1 <= k + 16 ensures l'[k % 16] == Word(block, k) {
      if k < t {
        DistinctResidues(k, t);
      }
    }
  }

  lemma DistinctResidues(k: nat, t: nat)
    requires k < t < k + 16
    ensures k % 16 != t % 16
  {
    assert k == 16 * (k / 16) + k % 16;
    assert t == 16 * (t / 16) + t % 16;
  }

  // ---------------------------------------------------------------------------------------
  // Rounds
  // ---------------------------------------------------------------------------------------

  /** `SHABLK0(i)` or `SHABLK(i)`: the block word is updated in place. */
  method BlockWord(l: array<bv32>, i: nat, ghost block: Bytes64) returns (x: bv32)
    requires l.Length == 16 && Window(l[..], block, i)
    modifies l
    ensures Window(l[..], block, i + 1) && x == Word(block, i)
  {
    hide Mixed, Swapped, Word, Window;
    if i < 16 {
      WindowEarly(l[..], block, i);
      x := Swapped(l[i]);
      l[i] := x;
    } else {
      WindowLate(l[..], block, i);
      x := Mixed(l[(i + 13) % 16], l[(i + 8) % 16], l[(i + 2) % 16], l[i % 16]);
      l[i % 16] := x;
    }
  }

  /** One of the macros `_R0` to `_R4`. */
  method Round(l: array<bv32>, v: bv32, w: bv32, x: bv32, y: bv32, z: bv32, i: nat, ghost block: Bytes64)
      returns (w': bv32, z': bv32)
    requires l.Length == 16 && i < 80 && Window(l[..], block, i)
    modifies l
    ensures Window(l[..], block, i + 1)
    ensures Vars(z', v, w', x, y) == Step(Vars(v, w, x, y, z), i, Word(block, i))
  {
    hide Macro, Step, Rol32, Word, Window;
    var word := BlockWord(l, i, block);
    z' := Macro(i, v, w, x, y, z, word);
    w' := Rol32(w, 30);
    MacroIsStep(i, v, w, x, y, z, word);
  }

  /** Five rounds, after which the variables have their own names again. */
  method FiveRounds(l: array<bv32>, a: bv32, b: bv32, c: bv32, d: bv32, e: bv32, i: nat,
                    ghost h: Vars, ghost block: Bytes64)
      returns (a': bv32, b': bv32, c': bv32, d': bv32, e': bv32)
    requires l.Length == 16 && i + 5 <= 80 && Window(l[..], block, i)
    requires Vars(a, b, c, d, e) == Steps(h, block, i)
    modifies l
    ensures Window(l[..], block, i + 5)
    ensures Vars(a', b', c', d', e') == Steps(h, block, i + 5)
  {
    hide Window, Word, Step;
    a', b', c', d', e' := a, b, c, d, e;
    b', e' := Round(l, a', b', c', d', e', i, block);
    StepsMore(h, block, i, Vars(e', a', b', c', d'));
    a', d' := Round(l, e', a', b', c', d', i + 1, block);
    StepsMore(h, block, i + 1, Vars(d', e', a', b', c'));
    e', c' := Round(l, d', e', a', b', c', i + 2, block);
    StepsMore(h, block, i + 2, Vars(c', d', e', a', b'));
    d', b' := Round(l, c', d', e', a', b', i + 3, block);
    StepsMore(h, block, i + 3, Vars(b', c', d', e', a'));
    c', a' := Round(l, b', c', d', e', a', i + 4, block);
    StepsMore(h, block, i + 4, Vars(a', b', c', d', e'));
  }

  lemma StepsMore(h: Vars, block: Bytes64, i: nat, s: Vars)
    requires s == Step(Steps(h, block, i), i, Word(block, i))
    ensures s == Steps(h, block, i + 1)
  {
  }

  // ---------------------------------------------------------------------------------------
  // The length counter
  // ---------------------------------------------------------------------------------------

  /** The two words count the bits taken in, modulo 2^64. */
  ghost predicate Counts(c0: nat, c1: nat, len: nat) {
    c0 < 0x1_0000_0000 && c1 < 0x1_0000_0000 && exists q: nat :: Total(c0, c1, q) == 8 * len
  }

  /** The counter part of `Update`. */
  function Count(c0: nat, c1: nat, len: nat): (nat, nat) {
    var bits := 8 * len % 0x1_0000_0000;
    var c0' := (c0 + bits) % 0x1_0000_0000;
    var carry := if c0' < bits then 1 else 0;
    (c0', ((c1 + carry) % 0x1_0000_0000 + len / 0x2000_0000) % 0x1_0000_0000)
  }

  lemma CountsMore(c0: nat, c1: nat, len: nat, more: nat)
    requires Counts(c0, c1, len) && more < 0x1_0000_0000
    ensures var (c0', c1') := Count(c0, c1, more); Counts(c0', c1', len + more)
  {
    var q: nat :| Total(c0, c1, q) == 8 * len;
    var bits, hi := 8 * more % 0x1_0000_0000, more / 0x2000_0000;
    var carry := if (c0 + bits) % 0x1_0000_0000 < bits then 1 else 0;
    var sum := (c1 + carry) % 0x1_0000_0000 + hi;
    BitsSplit(more);
    Carry(c0, bits);
    Split(c1 + carry);
    Split(sum);
    var q' := q + (c1 + carry) / 0x1_0000_0000 + sum / 0x1_0000_0000;
    assert Total((c0 + bits) % 0x1_0000_0000, sum % 0x1_0000_0000, q') == 8 * (len + more);
  }

  lemma Below(n: nat)
    requires n < 0x1_0000_0000
    ensures n % 0x1_0000_0000 == n
  {
  }

  lemma Split(n: nat)
    ensures n == n % 0x1_0000_0000 + 0x1_0000_0000 * (n / 0x1_0000_0000)
  {
  }

  /** The low word of a length in bits, and the rest. */
  lemma BitsSplit(more: nat)
    ensures 8 * more == 8 * more % 0x1_0000_0000 + 0x1_0000_0000 * (more / 0x2000_0000)
  {
    LowBits(more / 0x2000_0000, more % 0x2000_0000);
  }

  lemma LowBits(q: nat, r: nat)
    requires r < 0x2000_0000
    ensures 8 * (0x2000_0000 * q + r) % 0x1_0000_0000 == 8 * r
  {
    assert 8 * (0x2000_0000 * q + r) == 0x1_0000_0000 * q + 8 * r;
  }

  /** Unsigned addition overflows exactly when the sum is below an operand. */
  lemma Carry(x: nat, y: nat)
    requires x < 0x1_0000_0000 && y < 0x1_0000_0000
    ensures var s := (x + y) % 0x1_0000_0000; x + y == s + if s < y then 0x1_0000_0000 else 0
  {
  }

  /** The position in the buffer, as the low word shows it. */
  lemma CountsPosition(c0: nat, c1: nat, len: nat)
    requires Counts(c0, c1, len)
    ensures c0 / 8 % 64 == len % 64
  {
    var q: nat :| Total(c0, c1, q) == 8 * len;
    assert c0 / 8 + 64 * (0x80_0000 * c1 + 0x80_0000_0000_0000 * q) == len;
    SameSix(c0 / 8, 0x80_0000 * c1 + 0x80_0000_0000_0000 * q);
  }

  /** The eight bytes that `Final` takes from the counter. */
  function CounterByte(c0: nat, c1: nat, i: nat): bv8
    requires i < 8
  {
    ByteOf(if i >= 4 then c0 else c1, 3 - i % 4) as bv8
  }

  lemma CounterBytes(c0: nat, c1: nat, len: nat, i: nat)
    requires Counts(c0, c1, len) && i < 8
    ensures CounterByte(c0, c1, i) == LengthBytes(8 * len)[i]
  {
    hide ByteOf, Total;
    var q: nat :| Total(c0, c1, q) == 8 * len;
    CounterValue(c0, c1, q, i);
  }

  // ---------------------------------------------------------------------------------------
  // The object
  // ---------------------------------------------------------------------------------------

  /** Twenty rounds. */
  method TwentyRounds(l: array<bv32>, a: bv32, b: bv32, c: bv32, d: bv32, e: bv32, i: nat,
                      ghost h: Vars, ghost block: Bytes64)
      returns (a': bv32, b': bv32, c': bv32, d': bv32, e': bv32)
    requires l.Length == 16 && i + 20 <= 80 && Window(l[..], block, i)
    requires Vars(a, b, c, d, e) == Steps(h, block, i)
    modifies l
    ensures Window(l[..], block, i + 20)
    ensures Vars(a', b', c', d', e') == Steps(h, block, i + 20)
  {
    hide Window, Steps;
    a', b', c', d', e' := FiveRounds(l, a, b, c, d, e, i, h, block);
    a', b', c', d', e' := FiveRounds(l, a', b', c', d', e', i + 5, h, block);
    a', b', c', d', e' := FiveRounds(l, a', b', c', d', e', i + 10, h, block);
    a', b', c', d', e' := FiveRounds(l, a', b', c', d', e', i + 15, h, block);
  }

  /** Copying a block into the workspace. */
  method LoadBlock(l: array<bv32>, data: Bytes64)
    requires l.Length == 16
    modifies l
    ensures Window(l[..], data, 0)
  {
    forall k | 0 <= k < 16 {
      l[k] := LittleEndian(data[4 * k], data[4 * k + 1], data[4 * k + 2], data[4 * k + 3]);
    }
  }

  /** `CSHA1`.  `message` is all that has been taken in since the last `Reset`. */
  class Hash {
    const state: array<bv32>
    var count0: nat
    var count1: nat
    const buffer: array<bv8>
    const digest: array<bv8>
    const block: array<bv32>
    ghost var message: seq<bv8>

    ghost predicate Shape() {
      && state.Length == 5 && block.Length == 16 && buffer.Length == 64 && digest.Length == 20
      && state != block && buffer != digest
    }

    ghost function Repr(): set<object> {
      {this, state, buffer, digest, block}
    }

    ghost function Value(): Vars
      requires Shape()
      reads state
    {
      Vars(state[0], state[1], state[2], state[3], state[4])
    }

    ghost predicate Valid()
      reads this, state, buffer
    {
      && Shape()
      && Counts(count0, count1, |message|)
      && Value() == Chain(message, |message| / 64)
      && buffer[..|message| % 64] == message[64 * (|message| / 64)..]
    }

    constructor ()
      ensures Shape() && Valid() && message == []
      ensures fresh(state) && fresh(buffer) && fresh(digest) && fresh(block)
    {
      hide Counts, ChainFrom;
      state := new bv32[5];
      buffer := new bv8[64];
      digest := new bv8[20];
      block := new bv32[16];
      new;
      Reset();
    }

    method Reset()
      requires Shape()
      modifies this, state
      ensures Valid() && message == []
    {
      hide Counts, ChainFrom;
      state[0] := 0x67452301;
      state[1] := 0xEFCDAB89;
      state[2] := 0x98BADCFE;
      state[3] := 0x10325476;
      state[4] := 0xC3D2E1F0;
      count0, count1 := 0, 0;
      message := [];
      NothingCounted();
      NothingChained();
      assert Value() == INITIAL;
    }

    method AddTo(k: nat, x: bv32)
      requires state.Length == 5 && k < 5
      modifies state
      ensures state[..] == old(state[..])[k := Add(old(state[k]), x)]
    {
      state[k] := state[k] + x;
    }

    method Transform(data: Bytes64)
      requires Shape()
      modifies state, block
      ensures Value() == Compress(old(Value()), data)
    {
      hide Window, Steps, Add;
      ghost var h := Value();
      var a, b, c, d, e := state[0], state[1], state[2], state[3], state[4];
      LoadBlock(block, data);
      NoSteps(h, data);
      a, b, c, d, e := TwentyRounds(block, a, b, c, d, e, 0, h, data);
      a, b, c, d, e := TwentyRounds(block, a, b, c, d, e, 20, h, data);
      a, b, c, d, e := TwentyRounds(block, a, b, c, d, e, 40, h, data);
      a, b, c, d, e := TwentyRounds(block, a, b, c, d, e, 60, h, data);
      AddTo(0, a);
      AddTo(1, b);
      AddTo(2, c);
      AddTo(3, d);
      AddTo(4, e);
    }

    /** The counter part of `Update`. */
    method AddLength(len: nat)
      requires len < 0x1_0000_0000 && count1 < 0x1_0000_0000
      modifies `count0, `count1
      ensures (count0, count1) == Count(old(count0), old(count1), len)
    {
      Below(count1);
      var bits := 8 * len % 0x1_0000_0000;
      count0 := (count0 + bits) % 0x1_0000_0000;
      if count0 < bits {
        count1 := (count1 + 1) % 0x1_0000_0000;
      }
      count1 := (count1 + len / 0x2000_0000) % 0x1_0000_0000;
    }

    /** The loop of `Update` over whole blocks.  `all` is the message with `data` at its end, and `b`
        of its blocks are in. */
    method TransformBlocks(data: seq<bv8>, start: nat, ghost all: seq<bv8>, ghost b: nat) returns (i: nat)
      requires Shape() && start <= |data| <= |all| && all[|all| - |data|..] == data
      requires |data| + 63 < 0x1_0000_0000
      requires 64 * b == |all| - |data| + start && Value() == Chain(all, b)
      modifies state, block
      ensures start <= i <= |data| && |data| - i == |all| % 64 && Value() == Chain(all, |all| / 64)
    {
      hide Compress;
      i := start;
      ghost var n := b;
      while i + 63 < |data|
        invariant start <= i <= |data|
        invariant 64 * n == |all| - |data| + i && Value() == Chain(all, n)
      {
        assert BlockAt(all, n) == data[i..i + 64] by {
          assert BlockAt(all, n) == all[|all| - |data|..][i..i + 64];
        }
        Transform(data[i..i + 64]);
        n := n + 1;
        i := i + 64;
      }
      WholeBlocks(|all|, n, |data| - i);
    }

    /** All blocks that `data` completes, the first of them in the buffer. */
    method TransformAll(data: seq<bv8>, j: nat, ghost m: seq<bv8>) returns (i: nat)
      requires Shape() && |data| + 63 < 0x1_0000_0000 && j == |m| % 64 && j + |data| > 63
      requires Value() == Chain(m, |m| / 64) && buffer[..j] == m[64 * (|m| / 64)..]
      modifies state, block, buffer
      ensures i <= |data| && |data| - i == |m + data| % 64 && Value() == Chain(m + data, |m + data| / 64)
    {
      hide ChainFrom, Compress;
      ChainOfMore(Compress, INITIAL, m, data);
      i := 64 - j;
      Fill(buffer, j, data, 0, i);
      FilledBlock(m, data, buffer[..]);
      Transform(buffer[..]);
      i := TransformBlocks(data, i, m + data, |m| / 64 + 1);
    }

    /** Taking in more bytes. */
    method Update(data: seq<bv8>)
      requires Valid() && |data| + 63 < 0x1_0000_0000
      modifies this, state, buffer, block
      ensures Valid() && message == old(message) + data
    {
      hide ChainFrom, Counts, Count, Compress;
      ghost var m, all := message, message + data;
      var len := |data|;
      CountsPosition(count0, count1, |m|);
      CountsMore(count0, count1, |m|, len);
      CountsRange(count0, count1, |m|);
      var j := count0 / 8 % 64;
      AddLength(len);
      var i: nat := 0;
      ChainOfMore(Compress, INITIAL, m, data);
      if j + len > 63 {
        i := TransformAll(data, j, m);
        j := 0;
      }
      RestOfMore(m, data, i, j);
      Fill(buffer, j, data, i, len - i);
      assert data[i..i + (len - i)] == data[i..];
      message := all;
    }

    /** The first loop of `Final`. */
    method LengthField() returns (finalcount: array<bv8>)
      requires Valid()
      ensures finalcount[..] == LengthBytes(8 * |message|) && fresh(finalcount)
    {
      hide Counts, ChainFrom, LengthBytes;
      finalcount := new bv8[8];
      for i := 0 to 8
        invariant forall k :: 0 <= k < i ==> finalcount[k] == LengthBytes(8 * |message|)[k]
      {
        finalcount[i] := CounterByte(count0, count1, i);
        CounterBytes(count0, count1, |message|, i);
      }
    }

    /** The padding loop of `Final`: it ends with the buffer eight bytes short of a block. */
    method PadZeros(ghost m: seq<bv8>)
      requires Valid() && message == m + [0x80]
      modifies this, state, buffer, block
      ensures Valid() && message == m + [0x80] + seq(ZeroCount(|m|), _ => 0)
    {
      hide Counts, ChainFrom;
      ghost var k: nat := 0;
      CountsPosition(count0, count1, |message|);
      while 8 * (count0 / 8 % 64) != 448
        invariant Valid() && message == m + [0x80] + seq(k, _ => 0) && k <= ZeroCount(|m|)
        invariant count0 / 8 % 64 == |message| % 64
        decreases ZeroCount(|m|) - k
      {
        PaddingGoesOn(|m|, k);
        Update([0]);
        OneMoreZero(m + [0x80], k);
        k := k + 1;
        CountsPosition(count0, count1, |message|);
      }
      PaddingStops(|m|, k);
    }

    /** The digest loop of `Final`. */
    method PutDigest()
      requires Shape()
      modifies digest
      ensures digest[..] == Bytes(Value())
    {
      hide WordBytes;
      for i := 0 to 20
        invariant forall k :: 0 <= k < i ==> digest[k] == WordBytes(state[k / 4])[k % 4]
      {
        digest[i] := ByteOfWord(state[i / 4], i % 4);
      }
    }

    /** The wipe at the end of `Final`: what it leaves is not a hash of anything. */
    method Wipe()
      requires Shape()
      modifies this`count0, this`count1, state, buffer, block
      ensures buffer[..] == seq(64, _ => 0) && count0 == count1 == 0
      ensures Value() == Compress(Vars(0, 0, 0, 0, 0), seq(64, _ => 0))
    {
      hide Compress;
      forall k | 0 <= k < 64 {
        buffer[k] := 0;
      }
      forall k | 0 <= k < 5 {
        state[k] := 0;
      }
      count0, count1 := 0, 0;
      assert buffer[..] == seq(64, _ => 0);
      Transform(buffer[..]);
    }

    /** The digest of all that was taken in; the object must be reset before it is used again. */
    method Final()
      requires Valid()
      modifies this, state, buffer, block, digest
      ensures digest[..] == Digest(old(message))
    {
      hide Counts, ChainFrom, LengthBytes, Bytes, Padded;
      ghost var m := message;
      var finalcount := LengthField();
      Update([0x80]);
      PadZeros(m);
      Update(finalcount[..]);
      PaddedParts(m);
      assert message == Padded(m);
      PutDigest();
      Wipe();
    }

    method GetHash(dest: array<bv8>)
      requires Shape() && dest.Length >= 20 && dest != digest
      modifies dest
      ensures dest[..] == digest[..] + old(dest[20..])
    {
      forall k | 0 <= k < 20 {
        dest[k] := digest[k];
      }
    }

    /** However a message is split over calls of `Update`, the digest is that of the whole. */
    method HashPieces(pieces: seq<seq<bv8>>)
      requires Shape()
      requires forall k :: 0 <= k < |pieces| ==> |pieces[k]| + 63 < 0x1_0000_0000
      modifies this, state, buffer, block, digest
      ensures digest[..] == Digest(Joined(pieces, |pieces|))
    {
      hide Counts, ChainFrom, Digest;
      Reset();
      for k := 0 to |pieces|
        invariant Valid() && message == Joined(pieces, k)
      {
        Update(pieces[k]);
      }
      Final();
    }
  }

  lemma NoSteps(h: Vars, block: Bytes64)
    ensures Steps(h, block, 0) == h
  {
  }

  lemma CountsFrom(c0: nat, c1: nat, len: nat, q: nat)
    requires c0 < 0x1_0000_0000 && c1 < 0x1_0000_0000 && Total(c0, c1, q) == 8 * len
    ensures Counts(c0, c1, len)
  {
  }

  lemma NothingCounted()
    ensures Counts(0, 0, 0)
  {
    hide Counts;
    CountsFrom(0, 0, 0, 0);
  }

  lemma NothingChained()
    ensures Chain([], 0) == INITIAL
  {
  }

  lemma CountsRange(c0: nat, c1: nat, len: nat)
    requires Counts(c0, c1, len)
    ensures c1 < 0x1_0000_0000
  {
  }

  /** The expression that `Final` takes a byte of a state word with. */
  function ByteOfWord(x: bv32, i: nat): bv8
    requires i < 4
    ensures ByteOfWord(x, i) == WordBytes(x)[i]
  {
    ((if i == 0 then x >> 24 else if i == 1 then x >> 16 else if i == 2 then x >> 8 else x) & 255) as bv8
  }

  lemma PaddingGoesOn(len: nat, k: nat)
    requires k <= ZeroCount(len) && 8 * ((len + 1 + k) % 64) != 448
    ensures k < ZeroCount(len)
  {
  }

  lemma PaddingStops(len: nat, k: nat)
    requires k <= ZeroCount(len) && 8 * ((len + 1 + k) % 64) == 448
    ensures k == ZeroCount(len)
  {
  }

  lemma OneMoreZero(s: seq<bv8>, k: nat)
    ensures s + seq(k, _ => 0) + [0] == s + seq(k + 1, _ => 0)
  {
  }

  lemma PaddedParts(m: seq<bv8>)
    ensures Padded(m) == m + [0x80] + seq(ZeroCount(|m|), _ => 0) + LengthBytes(8 * |m|)
  {
  }
}
