/** The Feistel network of base/algorithm/des.cpp, once and three times over. */
module DesCipher {
  import opened Des

  type Key = s: seq<bv64> | |s| % 2 == 0

  type Block = s: seq<bv8> | |s| == 8 witness [0, 0, 0, 0, 0, 0, 0, 0]

  function Mix(a: Word, f: Word): Word {
    a ^ f
  }

  /** One `DES_ROUND` for every two words of key: it changes one half, then the halves change
      roles. */
  function Rounds(key: Key, a: Word, b: Word): (Word, Word)
    decreases |key|
  {
    if key == [] then (a, b) else Rounds(key[2..], b, Mix(a, RoundFunction(key[0], key[1], b)))
  }

  /** The key words two by two in reverse order. */
  function PairReversed(key: Key): (r: Key)
    ensures |r| == |key|
    decreases |key|
  {
    if key == [] then [] else PairReversed(key[2..]) + key[..2]
  }

  lemma {:induction false} PairReversedAt(key: Key, i: nat)
    requires i < |key|
    ensures PairReversed(key)[i] == if i % 2 == 0 then key[|key| - 2 - i] else key[|key| - i]
    decreases |key|
  {
    if i < |key| - 2 {
      PairReversedAt(key[2..], i);
    }
  }

  lemma {:induction false} RoundsAppend(s: Key, t: Key, a: Word, b: Word)
    ensures Rounds(s + t, a, b) == Rounds(t, Rounds(s, a, b).0, Rounds(s, a, b).1)
    decreases |s|
  {
    hide RoundFunction, Mix;
    if s == [] {
      assert s + t == t;
    } else {
      var st := s + t;
      assert st[2..] == s[2..] + t && st[0] == s[0] && st[1] == s[1];
      RoundsAppend(s[2..], t, b, Mix(a, RoundFunction(s[0], s[1], b)));
    }
  }

  lemma OneRound(k0: bv64, k1: bv64, a: Word, b: Word)
    ensures Rounds([k0, k1], a, b) == (b, Mix(a, RoundFunction(k0, k1, b)))
  {
    hide RoundFunction, Mix;
    assert [k0, k1][2..] == [];
  }

  lemma MixTwice(a: Word, f: Word)
    ensures Mix(Mix(a, f), f) == a
  {
  }

  /** The rounds in reverse order undo the rounds, on swapped halves. */
  lemma {:induction false} RoundsUndone(key: Key, a: Word, b: Word)
    ensures var (p, q) := Rounds(key, a, b); Rounds(PairReversed(key), q, p) == (b, a)
    decreases |key|
  {
    hide RoundFunction, Mix;
    if key != [] {
      var f := RoundFunction(key[0], key[1], b);
      var (p, q) := Rounds(key[2..], b, Mix(a, f));
      RoundsUndone(key[2..], b, Mix(a, f));
      assert key[..2] == [key[0], key[1]];
      RoundsAppend(PairReversed(key[2..]), [key[0], key[1]], q, p);
      OneRound(key[0], key[1], Mix(a, f), b);
      MixTwice(a, f);
      assert PairReversed(key) == PairReversed(key[2..]) + [key[0], key[1]];
    }
  }

  // ---------------------------------------------------------------------------------------
  // A block
  // ---------------------------------------------------------------------------------------

  /** The two halves of a block as the rounds see them. */
  function Enter(x: Block): (Word, Word) {
    InitialPermutation(GetWord(x[0], x[1], x[2], x[3]), GetWord(x[4], x[5], x[6], x[7]))
  }

  /** The block that a pair of halves leaves as. */
  function Exit(x: Word, y: Word): Block {
    var (y, x) := FinalPermutation(y, x);
    PutWord(y) + PutWord(x)
  }

  /** What leaves enters again with the halves swapped. */
  lemma EnterExit(x: Word, y: Word)
    ensures Enter(Exit(x, y)) == (y, x)
  {
    hide FinalPermutation, InitialPermutation;
    InitialUndoesFinal(y, x);
    var (a, b) := FinalPermutation(y, x);
    GetPut(a);
    GetPut(b);
  }

  lemma ExitEnter(x: Block)
    ensures var (a, b) := Enter(x); Exit(b, a) == x
  {
    hide FinalPermutation, InitialPermutation;
    FinalUndoesInitial(GetWord(x[0], x[1], x[2], x[3]), GetWord(x[4], x[5], x[6], x[7]));
    PutGet(x[0], x[1], x[2], x[3]);
    PutGet(x[4], x[5], x[6], x[7]);
  }

  /** `des_crypt`. */
  function Crypt(key: Key, x: Block): Block {
    var (a, b) := Enter(x);
    var (a, b) := Rounds(key, a, b);
    Exit(a, b)
  }

  /** `des3_crypt`: the middle rounds take the halves the other way round. */
  function Crypt3(k1: Key, k2: Key, k3: Key, x: Block): Block {
    var (a, b) := Enter(x);
    var (a, b) := Rounds(k1, a, b);
    var (b, a) := Rounds(k2, b, a);
    var (a, b) := Rounds(k3, a, b);
    Exit(a, b)
  }

  /** Decryption with the reversed key undoes encryption, for every key and every block. */
  lemma CryptUndone(key: Key, x: Block)
    ensures Crypt(PairReversed(key), Crypt(key, x)) == x
  {
    hide Enter, Exit;
    var (a, b) := Enter(x);
    var (p, q) := Rounds(key, a, b);
    EnterExit(p, q);
    RoundsUndone(key, a, b);
    ExitEnter(x);
  }

  lemma {:induction false} PairReversedTwice(key: Key)
    ensures PairReversed(PairReversed(key)) == key
  {
    forall i | 0 <= i < |key| ensures PairReversed(PairReversed(key))[i] == key[i] {
      PairReversedAt(PairReversed(key), i);
      PairReversedAt(key, if i % 2 == 0 then |key| - 2 - i else |key| - i);
    }
  }

  /** Triple-DES is encryption, decryption and encryption in a row: between two of them the
      final and the initial permutation cancel. */
  lemma TripleIsThree(k1: Key, k2: Key, k3: Key, x: Block)
    ensures Crypt3(k1, k2, k3, x) == Crypt(k3, Crypt(k2, Crypt(k1, x)))
  {
    hide Enter, Exit, Rounds;
    var (a, b) := Enter(x);
    var (a1, b1) := Rounds(k1, a, b);
    EnterExit(a1, b1);
    var (b2, a2) := Rounds(k2, b1, a1);
    EnterExit(b2, a2);
  }

  lemma Crypt3Undone(k1: Key, k2: Key, k3: Key, x: Block)
    ensures Crypt3(PairReversed(k3), PairReversed(k2), PairReversed(k1), Crypt3(k1, k2, k3, x)) == x
  {
    hide Crypt, Crypt3;
    var y1 := Crypt(k1, x);
    var y2 := Crypt(k2, y1);
    var y := Crypt(k3, y2);
    TripleIsThree(k1, k2, k3, x);
    TripleIsThree(PairReversed(k3), PairReversed(k2), PairReversed(k1), y);
    CryptUndone(k3, y2);
    CryptUndone(k2, y1);
    CryptUndone(k1, x);
  }
}
