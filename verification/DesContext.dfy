/** Key schedules and block functions of base/algorithm/des.cpp, on the arrays they work in. */
module DesContext {
  import opened Des
  import opened DesCipher

  // ---------------------------------------------------------------------------------------
  // The key schedule
  // ---------------------------------------------------------------------------------------

  /** Permuted choice 1: swap bits between the halves, then spread nibbles through the tables. */
  function PermutedChoice1(key: Block): (bv64, bv64) {
    var (x, y) := Swapped(GetWord(key[0], key[1], key[2], key[3]), GetWord(key[4], key[5], key[6], key[7]));
    (Low28(Spread(LHS, x, 0, 8, 16, 24, 5, 13, 21, 29)), Low28(Spread(RHS, y, 1, 9, 17, 25, 4, 12, 20, 28)))
  }

  function Swapped(x: bv64, y: bv64): (bv64, bv64) {
    var t := ((y >> 4) ^ x) & 0x0F0F0F0F;
    var x, y := x ^ t, y ^ (t << 4);
    var t := (y ^ x) & 0x10101010;
    (x ^ t, y ^ t)
  }

  function Low28(x: bv64): bv64 {
    x & 0x0FFFFFFF
  }

  /** Eight nibbles of `x`, looked up and laid side by side. */
  function Spread(table: seq<Word>, x: bv64, s3: bv6, s2: bv6, s1: bv6, s0: bv6, s7: bv6, s6: bv6, s5: bv6, s4: bv6): bv64
    requires |table| == 16
  {
    Layers(Nibble(table, x, s3), Nibble(table, x, s2), Nibble(table, x, s1), Nibble(table, x, s0),
      Nibble(table, x, s7), Nibble(table, x, s6), Nibble(table, x, s5), Nibble(table, x, s4))
  }

  function Layers(n3: bv64, n2: bv64, n1: bv64, n0: bv64, n7: bv64, n6: bv64, n5: bv64, n4: bv64): bv64 {
    (n3 << 3) | (n2 << 2) | (n1 << 1) | n0 | (n7 << 7) | (n6 << 6) | (n5 << 5) | (n4 << 4)
  }

  function Nibble(table: seq<Word>, x: bv64, shift: bv6): bv64
    requires |table| == 16
  {
    table[((x >> shift) & 0xF) as int]
  }

  /** Round `i` rotates a 28-bit half by one or two places. */
  function RotateHalf(x: bv64, i: nat): bv64 {
    if i < 2 || i == 8 || i == 15 then ((x << 1) | (x >> 27)) & 0x0FFFFFFF
    else ((x << 2) | (x >> 26)) & 0x0FFFFFFF
  }

  function EvenWord(x: bv64, y: bv64): bv64 {
    ((x << 4) & 0x24000000) | ((x << 28) & 0x10000000) |
    ((x << 14) & 0x08000000) | ((x << 18) & 0x02080000) |
    ((x << 6) & 0x01000000) | ((x << 9) & 0x00200000) |
    ((x >> 1) & 0x00100000) | ((x << 10) & 0x00040000) |
    ((x << 2) & 0x00020000) | ((x >> 10) & 0x00010000) |
    ((y >> 13) & 0x00002000) | ((y >> 4) & 0x00001000) |
    ((y << 6) & 0x00000800) | ((y >> 1) & 0x00000400) |
    ((y >> 14) & 0x00000200) | (y & 0x00000100) |
    ((y >> 5) & 0x00000020) | ((y >> 10) & 0x00000010) |
    ((y >> 3) & 0x00000008) | ((y >> 18) & 0x00000004) |
    ((y >> 26) & 0x00000002) | ((y >> 24) & 0x00000001)
  }

  function OddWord(x: bv64, y: bv64): bv64 {
    ((x << 15) & 0x20000000) | ((x << 17) & 0x10000000) |
    ((x << 10) & 0x08000000) | ((x << 22) & 0x04000000) |
    ((x >> 2) & 0x02000000) | ((x << 1) & 0x01000000) |
    ((x << 16) & 0x00200000) | ((x << 11) & 0x00100000) |
    ((x << 3) & 0x00080000) | ((x >> 6) & 0x00040000) |
    ((x << 15) & 0x00020000) | ((x >> 4) & 0x00010000) |
    ((y >> 2) & 0x00002000) | ((y << 8) & 0x00001000) |
    ((y >> 14) & 0x00000808) | ((y >> 9) & 0x00000400) |
    (y & 0x00000200) | ((y << 7) & 0x00000100) |
    ((y >> 7) & 0x00000020) | ((y >> 3) & 0x00000011) |
    ((y << 2) & 0x00000004) | ((y >> 21) & 0x00000002)
  }

  /** The halves after the first `i` rounds of rotation. */
  function Halves(key: Block, i: nat): (bv64, bv64) {
    if i == 0 then PermutedChoice1(key)
    else
      var (x, y) := Halves(key, i - 1);
      (RotateHalf(x, i - 1), RotateHalf(y, i - 1))
  }

  /** The two words of key for the `i`-th round, counted from 1. */
  function SubKey(key: Block, i: nat): (r: seq<bv64>)
    ensures |r| == 2
  {
    var (x, y) := Halves(key, i);
    [EvenWord(x, y), OddWord(x, y)]
  }

  /** The words of the first `i` rounds. */
  function Schedule(key: Block, i: nat): (r: seq<bv64>)
    ensures |r| == 2 * i
  {
    if i == 0 then [] else Schedule(key, i - 1) + SubKey(key, i)
  }

  function KeySchedule(key: Block): (r: Key)
    ensures |r| == 32
  {
    Schedule(key, 16)
  }

  lemma NoWords(key: Block)
    ensures Halves(key, 0) == PermutedChoice1(key) && Schedule(key, 0) == []
  {
  }

  lemma NextWords(key: Block, i: nat, x: bv64, y: bv64)
    requires (x, y) == Halves(key, i)
    ensures var (x', y') := (RotateHalf(x, i), RotateHalf(y, i));
      Halves(key, i + 1) == (x', y') && Schedule(key, i + 1) == Schedule(key, i) + [EvenWord(x', y'), OddWord(x', y')]
  {
    hide PermutedChoice1, RotateHalf, EvenWord, OddWord;
  }

  /** `des_main_ks`, on the 32 words of `sk` from `at` on. */
  method MainKeySchedule(sk: array<bv64>, at: nat, key: Block)
    requires at + 32 <= sk.Length
    modifies sk
    ensures sk[at..at + 32] == KeySchedule(key)
    ensures forall k :: 0 <= k < sk.Length && !(at <= k < at + 32) ==> sk[k] == old(sk[k])
  {
    hide PermutedChoice1, RotateHalf, EvenWord, OddWord, Halves, Schedule;
    var (x, y) := PermutedChoice1(key);
    var next := at;
    NoWords(key);
    for i := 0 to 16
      invariant next == at + 2 * i && (x, y) == Halves(key, i)
      invariant sk[at..next] == Schedule(key, i)
      invariant forall k :: 0 <= k < sk.Length && !(at <= k < next) ==> sk[k] == old(sk[k])
    {
      ghost var done := sk[at..next];
      NextWords(key, i, x, y);
      x := RotateHalf(x, i);
      y := RotateHalf(y, i);
      sk[next] := EvenWord(x, y);
      next := next + 1;
      sk[next] := OddWord(x, y);
      next := next + 1;
      assert sk[at..next] == done + [EvenWord(x, y), OddWord(x, y)];
    }
  }

  // ---------------------------------------------------------------------------------------
  // A block
  // ---------------------------------------------------------------------------------------

  /** The words of `n` pairs of rounds from word `from` on. */
  function Pairs(sk: seq<bv64>, from: nat, n: nat): (r: Key)
    requires from + 4 * n <= |sk|
  {
    sk[from..from + 4 * n]
  }

  /** `DES_ROUND(Y, X); DES_ROUND(X, Y);` */
  method TwoRounds(sk: array<bv64>, k: nat, x: Word, y: Word, ghost from: nat, ghost n: nat, ghost x0: Word,
                   ghost y0: Word)
      returns (x': Word, y': Word)
    requires k == from + 4 * n && k + 4 <= sk.Length
    requires Rounds(Pairs(sk[..], from, n), x0, y0) == (x, y)
    ensures Rounds(Pairs(sk[..], from, n + 1), x0, y0) == (x', y')
  {
    hide RoundFunction, Mix, Rounds;
    x' := Mix(x, RoundFunction(sk[k], sk[k + 1], y));
    y' := Mix(y, RoundFunction(sk[k + 2], sk[k + 3], x'));
    OneRound(sk[k], sk[k + 1], x, y);
    OneRound(sk[k + 2], sk[k + 3], y, x');
    ghost var done := Pairs(sk[..], from, n);
    assert Pairs(sk[..], from, n + 1) == done + ([sk[k], sk[k + 1]] + [sk[k + 2], sk[k + 3]]);
    RoundsAppend(done, [sk[k], sk[k + 1]] + [sk[k + 2], sk[k + 3]], x0, y0);
    RoundsAppend([sk[k], sk[k + 1]], [sk[k + 2], sk[k + 3]], x, y);
  }

  /** The sixteen rounds that start at word `k` of the schedule. */
  method SixteenRounds(sk: array<bv64>, k: nat, x: Word, y: Word) returns (x': Word, y': Word)
    requires k + 32 <= sk.Length
    ensures Rounds(sk[k..k + 32], x, y) == (x', y')
  {
    hide Rounds;
    x', y' := x, y;
    NoRounds(x, y);
    assert Pairs(sk[..], k, 0) == [];
    x', y' := TwoRounds(sk, k, x', y', k, 0, x, y);
    x', y' := TwoRounds(sk, k + 4, x', y', k, 1, x, y);
    x', y' := TwoRounds(sk, k + 8, x', y', k, 2, x, y);
    x', y' := TwoRounds(sk, k + 12, x', y', k, 3, x, y);
    x', y' := TwoRounds(sk, k + 16, x', y', k, 4, x, y);
    x', y' := TwoRounds(sk, k + 20, x', y', k, 5, x, y);
    x', y' := TwoRounds(sk, k + 24, x', y', k, 6, x, y);
    x', y' := TwoRounds(sk, k + 28, x', y', k, 7, x, y);
    assert Pairs(sk[..], k, 8) == sk[k..k + 32];
  }

  lemma NoRounds(x: Word, y: Word)
    ensures Rounds([], x, y) == (x, y)
  {
  }

  /** `s` with the eight elements from `at` on replaced. */
  function Patched(s: seq<bv8>, at: nat, b: Block): (r: seq<bv8>)
    requires at + 8 <= |s|
    ensures |r| == |s|
  {
    s[..at] + b + s[at + 8..]
  }

  method PutBlock(x: Word, y: Word, output: array<bv8>, o: nat)
    requires o + 8 <= output.Length
    modifies output
    ensures output[..] == Patched(old(output[..]), o, Exit(x, y))
  {
    hide PutWord, FinalPermutation;
    var (y, x) := FinalPermutation(y, x);
    var head, tail := PutWord(y), PutWord(x);
    forall j | 0 <= j < 4 {
      output[o + j] := head[j];
    }
    forall j | 0 <= j < 4 {
      output[o + 4 + j] := tail[j];
    }
  }

  /** `des_crypt`; `input` and `output` may be the same array. */
  method DesCrypt(sk: array<bv64>, input: array<bv8>, i: nat, output: array<bv8>, o: nat)
    requires sk.Length == 32 && i + 8 <= input.Length && o + 8 <= output.Length
    modifies output
    ensures output[..] == Patched(old(output[..]), o, Crypt(sk[..], old(input[i..i + 8])))
  {
    hide Exit, InitialPermutation, GetWord, Rounds;
    var (x, y) := InitialPermutation(
      GetWord(input[i], input[i + 1], input[i + 2], input[i + 3]),
      GetWord(input[i + 4], input[i + 5], input[i + 6], input[i + 7]));
    assert (x, y) == Enter(input[i..i + 8]);
    assert sk[..] == sk[0..32];
    x, y := SixteenRounds(sk, 0, x, y);
    PutBlock(x, y, output, o);
  }

  /** `des3_crypt`. */
  method Des3Crypt(sk: array<bv64>, input: array<bv8>, i: nat, output: array<bv8>, o: nat)
    requires sk.Length == 96 && i + 8 <= input.Length && o + 8 <= output.Length
    modifies output
    ensures output[..] ==
      Patched(old(output[..]), o, Crypt3(Third(sk[..], 0), Third(sk[..], 1), Third(sk[..], 2), old(input[i..i + 8])))
  {
    hide Exit, InitialPermutation, GetWord, Rounds;
    var (x, y) := InitialPermutation(
      GetWord(input[i], input[i + 1], input[i + 2], input[i + 3]),
      GetWord(input[i + 4], input[i + 5], input[i + 6], input[i + 7]));
    assert (x, y) == Enter(input[i..i + 8]);
    assert Third(sk[..], 0) == sk[0..32] && Third(sk[..], 1) == sk[32..64] && Third(sk[..], 2) == sk[64..96];
    x, y := SixteenRounds(sk, 0, x, y);
    y, x := SixteenRounds(sk, 32, y, x);
    x, y := SixteenRounds(sk, 64, x, y);
    PutBlock(x, y, output, o);
  }

  // ---------------------------------------------------------------------------------------
  // Contexts
  // ---------------------------------------------------------------------------------------

  lemma NothingReversed(k: Key)
    ensures PairReversed(k[|k|..]) == []
  {
  }

  /** Reversing two more words of `k` from its end. */
  lemma ReversedStep(k: Key, j: nat)
    requires 2 <= j <= |k| && j % 2 == 0
    ensures PairReversed(k[j - 2..]) == PairReversed(k[j..]) + [k[j - 2], k[j - 1]]
  {
    var t := k[j - 2..];
    assert t[2..] == k[j..] && t[..2] == [k[j - 2], k[j - 1]];
  }

  /** Two more words of a reversed schedule. */
  lemma SetKeyStep(k: Key, d: seq<bv64>, i: nat)
    requires |k| == 32 == |d| && i <= 30 && i % 2 == 0 && d[..i] == PairReversed(k[32 - i..])
    ensures (i + 2) % 2 == 0 && d[i := k[30 - i]][i + 1 := k[31 - i]][..i + 2] == PairReversed(k[30 - i..])
  {
    hide PairReversed;
    ReversedStep(k, 32 - i);
    var d' := d[i := k[30 - i]][i + 1 := k[31 - i]];
    assert d'[..i + 2] == d[..i] + [k[30 - i], k[31 - i]];
  }

  /** `s` holds `t` from position `at` on. */
  ghost predicate Holds(s: seq<bv64>, at: nat, t: seq<bv64>) {
    at + |t| <= |s| && s[at..at + |t|] == t
  }

  lemma HoldsMore(s: seq<bv64>, s': seq<bv64>, at: nat, t: seq<bv64>, a: bv64, b: bv64)
    requires Holds(s, at, t) && |s'| == |s| && at + |t| + 2 <= |s|
    requires forall j :: at <= j < at + |t| ==> s'[j] == s[j]
    requires s'[at + |t|] == a && s'[at + |t| + 1] == b
    ensures Holds(s', at, t + [a, b])
  {
  }

  lemma HoldsStill(s: seq<bv64>, s': seq<bv64>, at: nat, t: seq<bv64>)
    requires Holds(s, at, t) && |s'| == |s|
    requires forall j :: at <= j < at + |t| ==> s'[j] == s[j]
    ensures Holds(s', at, t)
  {
  }

  lemma HoldsAt(s: seq<bv64>, at: nat, t: seq<bv64>, j: nat)
    requires Holds(s, at, t) && j < |t|
    ensures s[at + j] == t[j]
  {
  }

  /** One more pair of `k`, taken from its end. */
  lemma ReversedMore(s: seq<bv64>, s': seq<bv64>, at: nat, k: Schedule32, i: nat)
    requires i <= 30 && i % 2 == 0 && |s'| == |s| && at + i + 2 <= |s|
    requires Holds(s, at, PairReversed(k[32 - i..]))
    requires forall j :: at <= j < at + i ==> s'[j] == s[j]
    requires s'[at + i] == k[30 - i] && s'[at + i + 1] == k[31 - i]
    ensures Holds(s', at, PairReversed(k[30 - i..]))
  {
    hide PairReversed, Holds;
    ReversedStep(k, 32 - i);
    HoldsMore(s, s', at, PairReversed(k[32 - i..]), k[30 - i], k[31 - i]);
  }

  lemma HoldsAll(s: seq<bv64>, a: seq<bv64>, b: seq<bv64>, c: seq<bv64>)
    requires |s| == |a| + |b| + |c|
    requires Holds(s, 0, a) && Holds(s, |a|, b) && Holds(s, |a| + |b|, c)
    ensures s == a + b + c
  {
  }

  type Schedule32 = k: Key | |k| == 32 witness seq(32, _ => 0)

  /** The encryption schedule of two keys after `i` words of each third. */
  ghost predicate TwoKeysFilled(e: seq<bv64>, k1: Schedule32, k2: Schedule32, i: nat) {
    && i <= 32 && i % 2 == 0 && |e| == 96
    && Holds(e, 0, k1) && Holds(e, 32, PairReversed(k2[32 - i..])) && Holds(e, 64, k1[..i])
  }

  /** The decryption schedule of two or three keys: `first` and `last` are turned round. */
  ghost predicate Turned(d: seq<bv64>, first: Schedule32, k2: Schedule32, last: Schedule32, i: nat) {
    && i <= 32 && i % 2 == 0 && |d| == 96
    && Holds(d, 0, PairReversed(first[32 - i..])) && Holds(d, 32, k2) && Holds(d, 64, PairReversed(last[32 - i..]))
  }

  /** The encryption schedule of three keys. */
  ghost predicate ThreeKeysFilled(e: seq<bv64>, k1: Schedule32, k2: Schedule32, k3: Schedule32, i: nat) {
    && i <= 32 && i % 2 == 0 && |e| == 96
    && Holds(e, 0, k1) && Holds(e, 32, PairReversed(k2[32 - i..])) && Holds(e, 64, k3)
  }

  lemma TwoMore(s: seq<bv64>, i: nat)
    requires i + 2 <= |s|
    ensures s[..i + 2] == s[..i] + [s[i], s[i + 1]]
  {
  }

  lemma TwoKeysFilledStep(e: seq<bv64>, k1: Schedule32, k2: Schedule32, i: nat, e': seq<bv64>)
    requires i <= 30 && i % 2 == 0 && TwoKeysFilled(e, k1, k2, i)
    requires e' == e[i + 32 := k2[30 - i]][i + 33 := k2[31 - i]][i + 64 := k1[i]][i + 65 := k1[i + 1]]
    ensures TwoKeysFilled(e', k1, k2, i + 2)
  {
    hide PairReversed, Holds;
    HoldsStill(e, e', 0, k1);
    ReversedMore(e, e', 32, k2, i);
    HoldsMore(e, e', 64, k1[..i], k1[i], k1[i + 1]);
    TwoMore(k1, i);
  }

  lemma ThreeKeysFilledStep(e: seq<bv64>, k1: Schedule32, k2: Schedule32, k3: Schedule32, i: nat, e': seq<bv64>)
    requires i <= 30 && i % 2 == 0 && ThreeKeysFilled(e, k1, k2, k3, i)
    requires e' == e[i + 32 := k2[30 - i]][i + 33 := k2[31 - i]]
    ensures ThreeKeysFilled(e', k1, k2, k3, i + 2)
  {
    hide PairReversed, Holds;
    HoldsStill(e, e', 0, k1);
    HoldsStill(e, e', 64, k3);
    ReversedMore(e, e', 32, k2, i);
  }

  lemma TurnedStep(d: seq<bv64>, first: Schedule32, k2: Schedule32, last: Schedule32, i: nat, d': seq<bv64>)
    requires i <= 30 && i % 2 == 0 && Turned(d, first, k2, last, i)
    requires d' == d[i := first[30 - i]][i + 1 := first[31 - i]][i + 64 := last[30 - i]][i + 65 := last[31 - i]]
    ensures Turned(d', first, k2, last, i + 2)
  {
    hide PairReversed, Holds;
    HoldsStill(d, d', 32, k2);
    ReversedMore(d, d', 0, first, i);
    ReversedMore(d, d', 64, last, i);
  }

  /** The words that one turn of the loop reads. */
  lemma WordsRead(s: seq<bv64>, at: nat, k: Schedule32, i: nat)
    requires i <= 30 && Holds(s, at, k)
    ensures s[at + 30 - i] == k[30 - i] && s[at + 31 - i] == k[31 - i]
  {
    HoldsAt(s, at, k, 30 - i);
    HoldsAt(s, at, k, 31 - i);
  }

  lemma TwoKeysEnd(e: seq<bv64>, d: seq<bv64>, k1: Schedule32, k2: Schedule32)
    requires TwoKeysFilled(e, k1, k2, 32) && Turned(d, k1, k2, k1, 32)
    ensures e == k1 + PairReversed(k2) + k1 && d == PairReversed(k1) + k2 + PairReversed(k1)
  {
    hide PairReversed, Holds;
    assert k1[0..] == k1 && k2[0..] == k2 && k1[..32] == k1;
    HoldsAll(e, k1, PairReversed(k2), k1);
    HoldsAll(d, PairReversed(k1), k2, PairReversed(k1));
  }

  lemma ThreeKeysEnd(e: seq<bv64>, d: seq<bv64>, k1: Schedule32, k2: Schedule32, k3: Schedule32)
    requires ThreeKeysFilled(e, k1, k2, k3, 32) && Turned(d, k3, k2, k1, 32)
    ensures e == k1 + PairReversed(k2) + k3 && d == PairReversed(k3) + k2 + PairReversed(k1)
  {
    hide PairReversed, Holds;
    assert k1[0..] == k1 && k2[0..] == k2 && k3[0..] == k3;
    HoldsAll(e, k1, PairReversed(k2), k3);
    HoldsAll(d, PairReversed(k3), k2, PairReversed(k1));
  }

  /** Whatever the key, a decryption schedule undoes its encryption schedule. */
  lemma DesUndone(key: Block, x: Block)
    ensures Crypt(PairReversed(KeySchedule(key)), Crypt(KeySchedule(key), x)) == x
  {
    CryptUndone(KeySchedule(key), x);
  }

  function Third(s: seq<bv64>, n: nat): Key
    requires |s| == 96 && n < 3
  {
    s[32 * n..32 * n + 32]
  }

  lemma ThirdsOf(a: Schedule32, b: Schedule32, c: Schedule32)
    ensures Third(a + b + c, 0) == a && Third(a + b + c, 1) == b && Third(a + b + c, 2) == c
  {
  }

  lemma {:induction false} PairReversedAppend(s: Key, t: Key)
    ensures PairReversed(s + t) == PairReversed(t) + PairReversed(s)
    decreases |s|
  {
    if s == [] {
      assert s + t == t;
    } else {
      var st := s + t;
      assert st[2..] == s[2..] + t && st[..2] == s[..2];
      PairReversedAppend(s[2..], t);
    }
  }

  /** The schedules that `SetTwoKeys` (with `key3 == key1`) and `SetThreeKeys` leave: the second is
      the first pair by pair in reverse, the first encrypts, decrypts and encrypts with the three
      keys, and the second undoes it. */
  lemma Des3Undone(key1: Block, key2: Block, key3: Block, x: Block)
    ensures
      var k1, k2, k3 := KeySchedule(key1), KeySchedule(key2), KeySchedule(key3);
      var e := k1 + PairReversed(k2) + k3;
      var d := PairReversed(k3) + k2 + PairReversed(k1);
      var y := Crypt3(Third(e, 0), Third(e, 1), Third(e, 2), x);
      && d == PairReversed(e)
      && y == Crypt(k3, Crypt(PairReversed(k2), Crypt(k1, x)))
      && Crypt3(Third(d, 0), Third(d, 1), Third(d, 2), y) == x
  {
    hide KeySchedule, Crypt, Crypt3, PairReversed, Third;
    var k1, k2, k3 := KeySchedule(key1), KeySchedule(key2), KeySchedule(key3);
    var e := k1 + PairReversed(k2) + k3;
    ThirdsOf(k1, PairReversed(k2), k3);
    ThirdsOf(PairReversed(k3), k2, PairReversed(k1));
    PairReversedTwice(k2);
    PairReversedAppend(k1 + PairReversed(k2), k3);
    PairReversedAppend(k1, PairReversed(k2));
    assert PairReversed(k3) + (k2 + PairReversed(k1)) == PairReversed(k3) + k2 + PairReversed(k1);
    TripleIsThree(k1, PairReversed(k2), k3, x);
    Crypt3Undone(k1, PairReversed(k2), k3, x);
  }

  /** `des_context`. */
  class DesKeys {
    const esk: array<bv64>
    const dsk: array<bv64>

    ghost predicate Valid() {
      esk.Length == 32 && dsk.Length == 32 && esk != dsk
    }

    constructor ()
      ensures Valid() && fresh(esk) && fresh(dsk)
    {
      esk := new bv64[32];
      dsk := new bv64[32];
    }

    /** `des_set_key`. */
    method SetKey(key: Block)
      requires Valid()
      modifies esk, dsk
      ensures esk[..] == KeySchedule(key) && dsk[..] == PairReversed(esk[..])
    {
      hide KeySchedule, PairReversed;
      MainKeySchedule(esk, 0, key);
      ghost var k := esk[..];
      assert k == esk[0..32];
      var i: nat := 0;
      NothingReversed(k);
      while i < 32
        invariant i <= 32 && i % 2 == 0 && esk[..] == k && dsk[..i] == PairReversed(k[32 - i..])
      {
        ghost var was := dsk[..];
        dsk[i] := esk[30 - i];
        dsk[i + 1] := esk[31 - i];
        SetKeyStep(k, was, i);
        i := i + 2;
      }
      assert k[0..] == k && dsk[..32] == dsk[..];
    }

    /** `des_encrypt`. */
    method Encrypt(input: array<bv8>, i: nat, output: array<bv8>, o: nat)
      requires Valid() && i + 8 <= input.Length && o + 8 <= output.Length
      modifies output
      ensures output[..] == Patched(old(output[..]), o, Crypt(esk[..], old(input[i..i + 8])))
    {
      DesCrypt(esk, input, i, output, o);
    }

    /** `des_decrypt`. */
    method Decrypt(input: array<bv8>, i: nat, output: array<bv8>, o: nat)
      requires Valid() && i + 8 <= input.Length && o + 8 <= output.Length
      modifies output
      ensures output[..] == Patched(old(output[..]), o, Crypt(dsk[..], old(input[i..i + 8])))
    {
      DesCrypt(dsk, input, i, output, o);
    }
  }

  /** `des3_context`. */
  class Des3Keys {
    const esk: array<bv64>
    const dsk: array<bv64>

    ghost predicate Valid() {
      esk.Length == 96 && dsk.Length == 96 && esk != dsk
    }

    constructor ()
      ensures Valid() && fresh(esk) && fresh(dsk)
    {
      esk := new bv64[96];
      dsk := new bv64[96];
    }

    /** The body of the loop of `des3_set_2keys`: it reads what it has written. */
    method TwoKeysPair(i: nat, ghost k1: Schedule32, ghost k2: Schedule32) returns (next: nat)
      requires Valid() && i <= 30 && i % 2 == 0
      requires TwoKeysFilled(esk[..], k1, k2, i) && Turned(dsk[..], k1, k2, k1, i)
      modifies esk, dsk
      ensures next == i + 2 && next % 2 == 0
      ensures TwoKeysFilled(esk[..], k1, k2, next) && Turned(dsk[..], k1, k2, k1, next)
    {
      hide PairReversed;
      ghost var e, d := esk[..], dsk[..];
      dsk[i] := esk[30 - i];
      dsk[i + 1] := esk[31 - i];
      esk[i + 32] := dsk[62 - i];
      esk[i + 33] := dsk[63 - i];
      esk[i + 64] := esk[i];
      esk[i + 65] := esk[1 + i];
      dsk[i + 64] := dsk[i];
      dsk[i + 65] := dsk[1 + i];
      WordsRead(e, 0, k1, i);
      WordsRead(d, 32, k2, i);
      HoldsAt(e, 0, k1, i);
      HoldsAt(e, 0, k1, i + 1);
      TwoKeysFilledStep(e, k1, k2, i, esk[..]);
      TurnedStep(d, k1, k2, k1, i, dsk[..]);
      next := i + 2;
    }

    /** `des3_set_2keys`: one loop fills the other four thirds of both schedules. */
    method SetTwoKeys(key1: Block, key2: Block)
      requires Valid()
      modifies esk, dsk
      ensures var k1, k2 := KeySchedule(key1), KeySchedule(key2);
        esk[..] == k1 + PairReversed(k2) + k1 && dsk[..] == PairReversed(k1) + k2 + PairReversed(k1)
    {
      hide KeySchedule, PairReversed;
      MainKeySchedule(esk, 0, key1);
      MainKeySchedule(dsk, 32, key2);
      ghost var k1, k2 := KeySchedule(key1), KeySchedule(key2);
      NothingReversed(k1);
      NothingReversed(k2);
      var i: nat := 0;
      while i < 32
        invariant i <= 32 && i % 2 == 0
        invariant TwoKeysFilled(esk[..], k1, k2, i) && Turned(dsk[..], k1, k2, k1, i)
      {
        i := TwoKeysPair(i, k1, k2);
      }
      TwoKeysEnd(esk[..], dsk[..], k1, k2);
    }

    /** The body of the loop of `des3_set_3keys`. */
    method ThreeKeysPair(i: nat, ghost k1: Schedule32, ghost k2: Schedule32, ghost k3: Schedule32) returns (next: nat)
      requires Valid() && i <= 30 && i % 2 == 0
      requires ThreeKeysFilled(esk[..], k1, k2, k3, i) && Turned(dsk[..], k3, k2, k1, i)
      modifies esk, dsk
      ensures next == i + 2 && next % 2 == 0
      ensures ThreeKeysFilled(esk[..], k1, k2, k3, next) && Turned(dsk[..], k3, k2, k1, next)
    {
      hide PairReversed;
      ghost var e, d := esk[..], dsk[..];
      dsk[i] := esk[94 - i];
      dsk[i + 1] := esk[95 - i];
      esk[i + 32] := dsk[62 - i];
      esk[i + 33] := dsk[63 - i];
      dsk[i + 64] := esk[30 - i];
      dsk[i + 65] := esk[31 - i];
      WordsRead(e, 0, k1, i);
      WordsRead(d, 32, k2, i);
      WordsRead(e, 64, k3, i);
      ThreeKeysFilledStep(e, k1, k2, k3, i, esk[..]);
      TurnedStep(d, k3, k2, k1, i, dsk[..]);
      next := i + 2;
    }

    /** `des3_set_3keys`. */
    method SetThreeKeys(key1: Block, key2: Block, key3: Block)
      requires Valid()
      modifies esk, dsk
      ensures var k1, k2, k3 := KeySchedule(key1), KeySchedule(key2), KeySchedule(key3);
        esk[..] == k1 + PairReversed(k2) + k3 && dsk[..] == PairReversed(k3) + k2 + PairReversed(k1)
    {
      hide KeySchedule, PairReversed;
      MainKeySchedule(esk, 0, key1);
      MainKeySchedule(dsk, 32, key2);
      ghost var was := esk[0..32];
      MainKeySchedule(esk, 64, key3);
      assert esk[0..32] == was;
      ghost var k1, k2, k3 := KeySchedule(key1), KeySchedule(key2), KeySchedule(key3);
      NothingReversed(k1);
      NothingReversed(k2);
      NothingReversed(k3);
      var i: nat := 0;
      while i < 32
        invariant i <= 32 && i % 2 == 0
        invariant ThreeKeysFilled(esk[..], k1, k2, k3, i) && Turned(dsk[..], k3, k2, k1, i)
      {
        i := ThreeKeysPair(i, k1, k2, k3);
      }
      ThreeKeysEnd(esk[..], dsk[..], k1, k2, k3);
    }

    /** `des3_encrypt`. */
    method Encrypt(input: array<bv8>, i: nat, output: array<bv8>, o: nat)
      requires Valid() && i + 8 <= input.Length && o + 8 <= output.Length
      modifies output
      ensures output[..] ==
        Patched(old(output[..]), o, Crypt3(Third(esk[..], 0), Third(esk[..], 1), Third(esk[..], 2), old(input[i..i + 8])))
    {
      Des3Crypt(esk, input, i, output, o);
    }

    /** `des3_decrypt`. */
    method Decrypt(input: array<bv8>, i: nat, output: array<bv8>, o: nat)
      requires Valid() && i + 8 <= input.Length && o + 8 <= output.Length
      modifies output
      ensures output[..] ==
        Patched(old(output[..]), o, Crypt3(Third(dsk[..], 0), Third(dsk[..], 1), Third(dsk[..], 2), old(input[i..i + 8])))
    {
      Des3Crypt(dsk, input, i, output, o);
    }
  }
}
