/** Cipher block chaining of base/algorithm/des.cpp: padding, encryption and decryption of
    whole messages, possibly inside one buffer. */
module DesCbc {
  import opened DesCipher
  import opened DesContext

  function XorBlocks(a: Block, b: Block): Block {
    seq(8, i requires 0 <= i < 8 => a[i] ^ b[i])
  }

  /** The `j`-th block of `s`. */
  function BlockAt(s: seq<bv8>, j: nat): Block
    requires 8 * j + 8 <= |s|
  {
    s[8 * j..8 * j + 8]
  }

  // ---------------------------------------------------------------------------------------
  // Chaining, as in section 6.2 of NIST SP 800-38A
  // ---------------------------------------------------------------------------------------

  /** The `j`-th ciphertext block of the padded message `p`. */
  function CipherBlock(key: Key, iv: Block, p: seq<bv8>, j: nat): Block
    requires 8 * j + 8 <= |p|
  {
    Crypt(key, XorBlocks(BlockAt(p, j), if j == 0 then iv else CipherBlock(key, iv, p, j - 1)))
  }

  /** The `j`-th plaintext block of the ciphertext `c`. */
  function PlainBlock(key: Key, iv: Block, c: seq<bv8>, j: nat): Block
    requires 8 * j + 8 <= |c|
  {
    XorBlocks(Crypt(key, BlockAt(c, j)), if j == 0 then iv else BlockAt(c, j - 1))
  }

  ghost predicate Enciphered(key: Key, iv: Block, p: seq<bv8>, c: seq<bv8>) {
    |c| == |p| && forall j: nat :: 8 * j + 8 <= |p| ==> BlockAt(c, j) == CipherBlock(key, iv, p, j)
  }

  lemma XorTwice(a: Block, b: Block)
    ensures XorBlocks(XorBlocks(a, b), b) == a
  {
    forall i | 0 <= i < 8 ensures XorBlocks(XorBlocks(a, b), b)[i] == a[i] {
      assert (a[i] ^ b[i]) ^ b[i] == a[i];
    }
  }

  /** Every block comes back. */
  lemma PlainOfCipher(key: Key, iv: Block, p: seq<bv8>, c: seq<bv8>, j: nat)
    requires Enciphered(key, iv, p, c) && 8 * j + 8 <= |p|
    ensures PlainBlock(PairReversed(key), iv, c, j) == BlockAt(p, j)
  {
    hide Crypt, PairReversed, BlockAt, XorBlocks;
    var before := if j == 0 then iv else CipherBlock(key, iv, p, j - 1);
    CryptUndone(key, XorBlocks(BlockAt(p, j), before));
    XorTwice(BlockAt(p, j), before);
    if j > 0 {
      assert BlockAt(c, j - 1) == before;
    }
  }

  // ---------------------------------------------------------------------------------------
  // Padding
  // ---------------------------------------------------------------------------------------

  /** The value of every padding byte, and their number. */
  function PadCount(len: nat): (n: nat)
    ensures 1 <= n <= 8
  {
    8 - len % 8
  }

  function Pad(len: nat): bv8 {
    PadCount(len) as bv8
  }

  /** The message filled up to whole blocks, as in section 6.1.1 of RFC 8018. */
  function Padded(m: seq<bv8>): (p: seq<bv8>)
    ensures |p| == |m| + PadCount(|m|) && |p| % 8 == 0
  {
    m + seq(PadCount(|m|), _ => Pad(|m|))
  }

  lemma PaddedAt(m: seq<bv8>)
    ensures forall k :: 0 <= k < |m| + PadCount(|m|) ==>
      Padded(m)[k] == if k < |m| then m[k] else Pad(|m|)
  {
  }

  function Occurrences(s: seq<bv8>, v: bv8): nat {
    if s == [] then 0 else Occurrences(s[1..], v) + if s[0] == v then 1 else 0
  }

  lemma {:induction false} OccurrencesBound(s: seq<bv8>, v: bv8)
    ensures Occurrences(s, v) <= |s|
  {
    if s != [] {
      OccurrencesBound(s[1..], v);
    }
  }

  lemma OccurrencesStep(s: seq<bv8>, v: bv8, i: nat)
    requires i < |s|
    ensures Occurrences(s[i..], v) == Occurrences(s[i + 1..], v) + if s[i] == v then 1 else 0
  {
    assert s[i..][1..] == s[i + 1..];
  }

  lemma {:induction false} OccurrencesAppend(s: seq<bv8>, t: seq<bv8>, v: bv8)
    ensures Occurrences(s + t, v) == Occurrences(s, v) + Occurrences(t, v)
  {
    if s == [] {
      assert s + t == t;
    } else {
      assert (s + t)[1..] == s[1..] + t;
      OccurrencesAppend(s[1..], t, v);
    }
  }

  lemma {:induction false} OccurrencesAll(n: nat, v: bv8)
    ensures Occurrences(seq(n, _ => v), v) == n
  {
    if n > 0 {
      assert seq(n, _ => v)[1..] == seq(n - 1, _ => v);
      OccurrencesAll(n - 1, v);
    }
  }

  lemma {:induction false} OccurrencesNone(s: seq<bv8>, v: bv8)
    ensures Occurrences(s, v) == 0 <==> v !in s
  {
    if s != [] {
      OccurrencesNone(s[1..], v);
      assert v in s <==> s[0] == v || v in s[1..];
    }
  }

  /** What `des_padding` takes for the length of the padding: it counts the bytes equal to the last
      one anywhere in the block. */
  function Padding(b: Block): (n: nat)
    ensures n <= 8
  {
    var n := Occurrences(b, b[7]);
    OccurrencesBound(b, b[7]);
    if b[7] as nat == n then n else 0
  }

  /** What `des_padding` leaves. */
  function Unpadded(b: Block): Block {
    seq(8, i requires 0 <= i < 8 => if i >= 8 - Padding(b) && b[i] == b[7] then 0 else b[i])
  }

  /** The padding of a last block is recognised exactly when none of its message bytes has the
      padding value; otherwise nothing at all is removed. */
  lemma PaddingExact(tail: seq<bv8>)
    requires |tail| < 8
    ensures var b := Padded(tail);
      Padding(b) == (if Pad(|tail|) !in tail then PadCount(|tail|) else 0)
  {
    var b := Padded(tail);
    var v := Pad(|tail|);
    assert b[7] == v && v as nat == PadCount(|tail|);
    OccurrencesAppend(tail, seq(PadCount(|tail|), _ => v), v);
    OccurrencesAll(PadCount(|tail|), v);
    OccurrencesNone(tail, v);
  }

  /** Either way the message bytes of the block stay. */
  lemma UnpaddedKeeps(tail: seq<bv8>)
    requires |tail| < 8
    ensures Unpadded(Padded(tail))[..|tail|] == tail
  {
    hide Padding;
    PaddingExact(tail);
    assert Padding(Padded(tail)) <= PadCount(|tail|) == 8 - |tail|;
  }

  // ---------------------------------------------------------------------------------------
  // Whole messages
  // ---------------------------------------------------------------------------------------

  /** What decryption leaves of block `n`. */
  function Leaves(key: Key, iv: Block, c: seq<bv8>, n: nat): Block
    requires 8 * n + 8 <= |c|
  {
    if 8 * n + 8 == |c| then Unpadded(PlainBlock(key, iv, c, n)) else PlainBlock(key, iv, c, n)
  }

  /** What decryption leaves in the first bytes of the output. */
  ghost predicate Deciphered(key: Key, iv: Block, c: seq<bv8>, d: seq<bv8>) {
    && |d| == |c|
    && forall j: nat :: 8 * j + 8 <= |c| ==>
      BlockAt(d, j) == Leaves(key, iv, c, j)
  }

  /** What it returns. */
  function RecoveredLength(key: Key, iv: Block, c: seq<bv8>): int
    requires |c| % 8 == 0
  {
    if c == [] then 0 else |c| - Padding(PlainBlock(key, iv, c, |c| / 8 - 1))
  }

  lemma LastBlock(m: seq<bv8>)
    ensures BlockAt(Padded(m), |m| / 8) == Padded(m[8 * (|m| / 8)..])
  {
  }

  lemma SameBytes(a: seq<bv8>, b: seq<bv8>, j: nat, k: nat)
    requires 8 * j + 8 <= |a| && 8 * j + 8 <= |b| && k < 8 && BlockAt(a, j)[k] == BlockAt(b, j)[k]
    ensures a[8 * j + k] == b[8 * j + k]
  {
  }

  lemma DecipheredByte(key: Key, iv: Block, m: seq<bv8>, c: seq<bv8>, d: seq<bv8>, i: nat)
    requires Enciphered(key, iv, Padded(m), c) && Deciphered(PairReversed(key), iv, c, d)
    requires i < |m|
    ensures d[i] == m[i]
  {
    hide Crypt, PairReversed, CipherBlock, PlainBlock, Unpadded, BlockAt;
    var j, k := i / 8, i % 8;
    var p := Padded(m);
    assert 8 * j + 8 <= |p|;
    PlainOfCipher(key, iv, p, c, j);
    if 8 * j + 8 == |c| {
      var tail := m[8 * (|m| / 8)..];
      LastBlock(m);
      UnpaddedKeeps(tail);
      assert Unpadded(Padded(tail))[k] == Unpadded(Padded(tail))[..|tail|][k] == tail[k] == Padded(tail)[k];
      assert BlockAt(d, j)[k] == BlockAt(p, j)[k];
    }
    SameBytes(d, p, j, k);
  }

  /** Decryption of an encrypted message starts with the message, and returns its length exactly
      when no byte of the final partial block has the padding value.  Otherwise the padding stays. */
  lemma CbcRecovers(key: Key, iv: Block, m: seq<bv8>, c: seq<bv8>, d: seq<bv8>)
    requires Enciphered(key, iv, Padded(m), c) && Deciphered(PairReversed(key), iv, c, d)
    ensures d[..|m|] == m
    ensures RecoveredLength(PairReversed(key), iv, c) ==
      if Pad(|m|) !in m[8 * (|m| / 8)..] then |m| else |c|
    ensures RecoveredLength(PairReversed(key), iv, c) == |m| <==> Pad(|m|) !in m[8 * (|m| / 8)..]
  {
    hide Crypt, PairReversed, CipherBlock, PlainBlock, Padding, Unpadded;
    forall i | 0 <= i < |m| ensures d[i] == m[i] {
      DecipheredByte(key, iv, m, c, d, i);
    }
    var tail := m[8 * (|m| / 8)..];
    assert |c| / 8 - 1 == |m| / 8;
    PlainOfCipher(key, iv, Padded(m), c, |m| / 8);
    LastBlock(m);
    PaddingExact(tail);
  }

  // ---------------------------------------------------------------------------------------
  // The code
  // ---------------------------------------------------------------------------------------

  /** `des_xor`, on the eight bytes of `data` from `at` on. */
  method XorInto(data: array<bv8>, at: nat, b: Block)
    requires at + 8 <= data.Length
    modifies data
    ensures data[..] == Patched(old(data[..]), at, XorBlocks(old(data[at..at + 8]), b))
  {
    for i := 0 to 8
      invariant forall k :: 0 <= k < data.Length ==>
        data[k] == if at <= k < at + i then old(data[k]) ^ b[k - at] else old(data[k])
    {
      data[at + i] := data[at + i] ^ b[i];
    }
  }

  /** The first loop of `des_padding`. */
  method CountLast(data: array<bv8>, at: nat) returns (count: nat)
    requires at + 8 <= data.Length
    ensures count == Occurrences(data[at..at + 8], data[at + 7]) <= 8
  {
    hide Occurrences;
    ghost var b: Block := data[at..at + 8];
    count := 0;
    OccurrencesNone(b[8..], b[7]);
    var paddingByte := data[at + 7];
    var i: int := 7;
    while i >= 0
      invariant -1 <= i <= 7 && count == Occurrences(b[i + 1..], b[7])
    {
      OccurrencesStep(b, b[7], i);
      assert data[at + i] == b[i];
      if data[at + i] == paddingByte {
        count := count + 1;
      }
      i := i - 1;
    }
    assert i == -1 && b[i + 1..] == b;
    OccurrencesBound(b, b[7]);
  }

  /** The second loop of `des_padding`. */
  method ZeroLast(data: array<bv8>, at: nat, count: nat)
    requires at + 8 <= data.Length && count <= 8
    modifies data
    ensures forall k :: 0 <= k < data.Length ==>
      data[k] == if at + 8 - count <= k < at + 8 && old(data[k]) == old(data[at + 7]) then 0 else old(data[k])
  {
    var paddingByte := data[at + 7];
    var i: int := 7;
    while i > 7 - count
      invariant 7 - count <= i <= 7
      invariant forall k :: 0 <= k < data.Length ==>
        data[k] == if at + i < k < at + 8 && old(data[k]) == paddingByte then 0 else old(data[k])
    {
      if data[at + i] == paddingByte {
        data[at + i] := 0;
      }
      i := i - 1;
    }
  }

  /** `des_padding`, on the eight bytes of `data` from `at` on. */
  method RemovePadding(data: array<bv8>, at: nat) returns (size: nat)
    requires at + 8 <= data.Length
    modifies data
    ensures size == Padding(old(data[at..at + 8]))
    ensures data[..] == Patched(old(data[..]), at, Unpadded(old(data[at..at + 8])))
  {
    hide Occurrences;
    ghost var b: Block := data[at..at + 8];
    size := 0;
    var paddingByte := data[at + 7];
    var count := CountLast(data, at);
    if paddingByte as nat == count {
      ZeroLast(data, at, count);
      size := count;
    }
  }

  /** The body of the encryption loop once `data` is full: block `j` of the output. */
  method EncryptBlock(sk: array<bv64>, data: array<bv8>, output: array<bv8>, j: nat, vi: Block)
    requires sk.Length == 32 && data.Length == 8 && data != output && 8 * j + 8 <= output.Length
    modifies data, output
    ensures output[..] ==
      Patched(old(output[..]), 8 * j,
        Crypt(sk[..], XorBlocks(old(data[..]), if j == 0 then vi else BlockAt(old(output[..]), j - 1))))
    ensures forall k :: 8 * j + 8 <= k < output.Length ==> output[k] == old(output[k])
  {
    hide Crypt, XorBlocks;
    assert data[0..8] == data[..];
    if j == 0 {
      XorInto(data, 0, vi);
    } else {
      XorInto(data, 0, output[8 * (j - 1)..8 * (j - 1) + 8]);
    }
    assert data[0..8] == data[..];
    DesCrypt(sk, data, 0, output, 8 * j);
  }

  /** The first `j` blocks are done and the rest is as before. */
  ghost predicate EncryptedSoFar(key: Key, iv: Block, p: seq<bv8>, was: seq<bv8>, out: seq<bv8>, j: nat)
    requires 8 * j <= |p| <= |was|
  {
    && |out| == |was| && out[8 * j..] == was[8 * j..]
    && forall n: nat :: n < j ==> BlockAt(out, n) == CipherBlock(key, iv, p, n)
  }

  lemma PatchedBlocks(s: seq<bv8>, j: nat, b: Block)
    requires 8 * j + 8 <= |s|
    ensures BlockAt(Patched(s, 8 * j, b), j) == b
    ensures forall n: nat :: n != j && 8 * n + 8 <= |s| ==> BlockAt(Patched(s, 8 * j, b), n) == BlockAt(s, n)
    ensures Patched(s, 8 * j, b)[8 * j + 8..] == s[8 * j + 8..]
    ensures Patched(s, 8 * j, b)[..8 * j] == s[..8 * j]
  {
  }

  lemma EncryptedOneMore(key: Key, iv: Block, p: seq<bv8>, was: seq<bv8>, out: seq<bv8>, j: nat)
    requires 8 * j + 8 <= |p| <= |was| && EncryptedSoFar(key, iv, p, was, out, j)
    ensures EncryptedSoFar(key, iv, p, was, Patched(out, 8 * j, CipherBlock(key, iv, p, j)), j + 1)
  {
    hide CipherBlock, Patched, BlockAt;
    PatchedBlocks(out, j, CipherBlock(key, iv, p, j));
    assert out[8 * j + 8..] == out[8 * j..][8..];
    assert was[8 * j + 8..] == was[8 * j..][8..];
  }

  lemma CipherStep(key: Key, iv: Block, p: seq<bv8>, was: seq<bv8>, out: seq<bv8>, j: nat)
    requires 8 * j + 8 <= |p| <= |was| && EncryptedSoFar(key, iv, p, was, out, j)
    ensures CipherBlock(key, iv, p, j) ==
      Crypt(key, XorBlocks(BlockAt(p, j), if j == 0 then iv else BlockAt(out, j - 1)))
  {
    hide Crypt, XorBlocks, BlockAt;
  }

  /** A full block on top of the finished ones. */
  method AppendBlock(sk: array<bv64>, data: array<bv8>, output: array<bv8>, j: nat, vi: Block,
                     ghost p: seq<bv8>, ghost was: seq<bv8>)
    requires sk.Length == 32 && data.Length == 8 && data != output && 8 * j + 8 <= |p| <= |was| == output.Length
    requires data[..] == BlockAt(p, j) && EncryptedSoFar(sk[..], vi, p, was, output[..], j)
    modifies data, output
    ensures EncryptedSoFar(sk[..], vi, p, was, output[..], j + 1)
    ensures forall k :: 8 * j + 8 <= k < output.Length ==> output[k] == old(output[k])
  {
    hide CipherBlock, Patched, XorBlocks, Crypt, BlockAt;
    ghost var out := output[..];
    EncryptBlock(sk, data, output, j, vi);
    CipherStep(sk[..], vi, p, was, out, j);
    EncryptedOneMore(sk[..], vi, p, was, out, j);
  }

  lemma NothingEncrypted(key: Key, iv: Block, p: seq<bv8>, was: seq<bv8>)
    requires |p| <= |was|
    ensures EncryptedSoFar(key, iv, p, was, was, 0)
  {
  }

  lemma AllEncrypted(key: Key, iv: Block, p: seq<bv8>, was: seq<bv8>, out: seq<bv8>)
    requires |p| <= |was| == |out| && |p| % 8 == 0 && EncryptedSoFar(key, iv, p, was, out, |p| / 8)
    ensures Enciphered(key, iv, p, out[..|p|]) && out[|p|..] == was[|p|..]
  {
    hide CipherBlock;
    forall j: nat | 8 * j + 8 <= |p| ensures BlockAt(out[..|p|], j) == CipherBlock(key, iv, p, j) {
      assert BlockAt(out, j) == BlockAt(out[..|p|], j);
    }
  }

  /** `data` holds the first `r` bytes of block `j`. */
  ghost predicate Loaded(data: seq<bv8>, p: seq<bv8>, j: nat, r: nat) {
    |data| == 8 && r <= 8 && 8 * j + r <= |p| && data[..r] == p[8 * j..8 * j + r]
  }

  lemma LoadedBlock(data: seq<bv8>, p: seq<bv8>, j: nat)
    requires Loaded(data, p, j, 8)
    ensures data == BlockAt(p, j)
  {
  }

  lemma LoadedNothing(data: seq<bv8>, p: seq<bv8>, j: nat)
    requires |data| == 8 && 8 * j <= |p|
    ensures Loaded(data, p, j, 0)
  {
  }

  lemma LoadedMore(data: seq<bv8>, p: seq<bv8>, j: nat, r: nat)
    requires Loaded(data, p, j, r) && r < 8 && 8 * j + r < |p|
    ensures Loaded(data[r := p[8 * j + r]], p, j, r + 1)
  {
    assert p[8 * j..8 * j + r] + [p[8 * j + r]] == p[8 * j..8 * j + r + 1];
  }

  /** One more byte of the padded message. */
  method LoadByte(data: array<bv8>, input: array<bv8>, i: nat, len: nat, ghost j: nat, ghost p: seq<bv8>)
    requires data.Length == 8 && data != input && len <= input.Length
    requires i < |p| == len + PadCount(len) && 8 * j <= i <= 8 * j + 7
    requires p[i] == if i < len then input[i] else Pad(len)
    requires Loaded(data[..], p, j, i - 8 * j)
    modifies data
    ensures Loaded(data[..], p, j, i - 8 * j + 1)
  {
    hide Loaded;
    LoadedMore(data[..], p, j, i - 8 * j);
    if i < len {
      data[i % 8] := input[i];
    } else {
      data[i % 8] := (8 - len % 8) as bv8;
    }
  }

  /** `des_cbc_encrypt`; `input` and `output` may be the same buffer. */
  method CbcEncrypt(keys: DesKeys, input: array<bv8>, len: nat, output: array<bv8>, vi: Block) returns (max: nat)
    requires keys.Valid() && len <= input.Length && len + PadCount(len) <= output.Length
    modifies output
    ensures max == len + PadCount(len)
    ensures Enciphered(keys.esk[..], vi, Padded(old(input[..len])), output[..max])
    ensures output[max..] == old(output[max..])
  {
    hide Padded, Pad, EncryptedSoFar, Enciphered, Loaded, BlockAt;
    ghost var key: Key, was := keys.esk[..], output[..];
    ghost var p := Padded(input[..len]);
    PaddedAt(input[..len]);
    NothingEncrypted(key, vi, p, was);
    var data := new bv8[8];
    LoadedNothing(data[..], p, 0);
    max := len + 8 - len % 8;
    var i, j: nat := 0, 0;
    while i < max
      invariant i <= max && 8 * j <= i <= 8 * j + 7
      invariant EncryptedSoFar(key, vi, p, was, output[..], j)
      invariant forall k :: 8 * j <= k < len ==> input[k] == p[k]
      invariant forall k :: len <= k < |p| ==> p[k] == Pad(len)
      invariant Loaded(data[..], p, j, i - 8 * j)
    {
      LoadByte(data, input, i, len, j, p);
      if i % 8 == 7 {
        LoadedBlock(data[..], p, j);
        AppendBlock(keys.esk, data, output, j, vi, p, was);
        j := j + 1;
        LoadedNothing(data[..], p, j);
      }
      i := i + 1;
    }
    AllEncrypted(key, vi, p, was, output[..]);
  }

  /** Blocks `b` and up are decrypted, with the padding taken off the last one, and the rest is as
      before. */
  ghost predicate DecryptedFrom(key: Key, iv: Block, c: seq<bv8>, was: seq<bv8>, out: seq<bv8>, b: nat)
    requires |c| % 8 == 0 && 8 * b <= |c| <= |was|
  {
    && |out| == |was| && out[..8 * b] == was[..8 * b] && out[|c|..] == was[|c|..]
    && forall n: nat :: b <= n < |c| / 8 ==> BlockAt(out, n) == Leaves(key, iv, c, n)
  }

  lemma NothingDecrypted(key: Key, iv: Block, c: seq<bv8>, was: seq<bv8>)
    requires |c| % 8 == 0 && |c| <= |was|
    ensures DecryptedFrom(key, iv, c, was, was, |c| / 8)
  {
  }

  lemma DecryptedOneMore(key: Key, iv: Block, c: seq<bv8>, was: seq<bv8>, out: seq<bv8>, b: nat)
    requires |c| % 8 == 0 && 8 * b + 8 <= |c| <= |was| && DecryptedFrom(key, iv, c, was, out, b + 1)
    ensures DecryptedFrom(key, iv, c, was, Patched(out, 8 * b, Leaves(key, iv, c, b)), b)
  {
    hide Leaves, Patched, BlockAt;
    PatchedBlocks(out, b, Leaves(key, iv, c, b));
    var out' := Patched(out, 8 * b, Leaves(key, iv, c, b));
    assert out[..8 * b] == out[..8 * b + 8][..8 * b];
    assert was[..8 * b] == was[..8 * b + 8][..8 * b];
    assert out'[|c|..] == out'[8 * b + 8..][|c| - 8 * b - 8..];
    assert out[|c|..] == out[8 * b + 8..][|c| - 8 * b - 8..];
  }

  lemma AllDecrypted(key: Key, iv: Block, c: seq<bv8>, was: seq<bv8>, out: seq<bv8>)
    requires |c| % 8 == 0 && |c| <= |was| && DecryptedFrom(key, iv, c, was, out, 0)
    ensures Deciphered(key, iv, c, out[..|c|]) && out[|c|..] == was[|c|..]
  {
    hide PlainBlock, Unpadded;
    forall j: nat | 8 * j + 8 <= |c| ensures BlockAt(out[..|c|], j) == Leaves(key, iv, c, j) {
      assert BlockAt(out, j) == BlockAt(out[..|c|], j);
    }
  }

  lemma PatchedTwice(s: seq<bv8>, at: nat, a: Block, b: Block)
    requires at + 8 <= |s|
    ensures Patched(Patched(s, at, a), at, b) == Patched(s, at, b)
    ensures Patched(s, at, a)[at..at + 8] == a
  {
  }

  /** The body of the decryption loop once `data` is full: block `b` of the output.  The previous
      ciphertext block is still in the input, even when that is the output. */
  method DecryptBlock(sk: array<bv64>, data: array<bv8>, input: array<bv8>, output: array<bv8>, b: nat, vi: Block)
    requires sk.Length == 32 && data.Length == 8 && data != output
    requires 8 * b + 8 <= output.Length && 8 * b + 8 <= input.Length
    modifies output
    ensures output[..] ==
      Patched(old(output[..]), 8 * b,
        XorBlocks(Crypt(sk[..], data[..]), if b == 0 then vi else BlockAt(old(input[..]), b - 1)))
    ensures forall k :: 0 <= k < 8 * b ==> output[k] == old(output[k])
  {
    hide Crypt, XorBlocks, Patched;
    ghost var was, x := output[..], Crypt(sk[..], data[..]);
    ghost var before := if b == 0 then vi else BlockAt(input[..], b - 1);
    assert data[0..8] == data[..];
    DesCrypt(sk, data, 0, output, 8 * b);
    PatchedTwice(was, 8 * b, x, XorBlocks(x, before));
    PatchedBlocks(was, b, x);
    assert output[8 * b..8 * b + 8] == x;
    if b == 0 {
      XorInto(output, 8 * b, vi);
    } else {
      assert input[8 * (b - 1)..8 * (b - 1) + 8] == before by {
        if input == output {
          assert BlockAt(output[..], b - 1) == BlockAt(was, b - 1);
        }
      }
      XorInto(output, 8 * b, input[8 * (b - 1)..8 * (b - 1) + 8]);
    }
    PatchedBlocks(was, b, XorBlocks(x, before));
    assert output[..][..8 * b] == was[..8 * b];
  }

  /** One more block below the finished ones; the padding is looked for in the first one done,
      which is the last of the message. */
  method PrependBlock(sk: array<bv64>, data: array<bv8>, input: array<bv8>, output: array<bv8>, b: nat, vi: Block,
                      j: nat, padding: nat, ghost c: seq<bv8>, ghost was: seq<bv8>) returns (padding': nat)
    requires sk.Length == 32 && data.Length == 8 && data != output
    requires |c| % 8 == 0 && 8 * b + 8 <= |c| <= |was| == output.Length && |c| <= input.Length
    requires data[..] == BlockAt(c, b) && forall k :: 0 <= k < 8 * b ==> input[k] == c[k]
    requires b + j + 1 == |c| / 8
    requires DecryptedFrom(sk[..], vi, c, was, output[..], b + 1)
    modifies output
    ensures DecryptedFrom(sk[..], vi, c, was, output[..], b)
    ensures forall k :: 0 <= k < 8 * b ==> output[k] == old(output[k])
    ensures padding' == if j == 0 then Padding(PlainBlock(sk[..], vi, c, b)) else padding
  {
    hide Crypt, XorBlocks, Patched, Padding, Unpadded, DecryptedFrom;
    ghost var out := output[..];
    ghost var x := PlainBlock(sk[..], vi, c, b);
    assert b > 0 ==> BlockAt(input[..], b - 1) == BlockAt(c, b - 1);
    DecryptBlock(sk, data, input, output, b, vi);
    padding' := padding;
    PatchedTwice(out, 8 * b, x, Unpadded(x));
    if j == 0 {
      assert output[8 * b..8 * b + 8] == x;
      padding' := RemovePadding(output, 8 * b);
      PatchedBlocks(out, b, Unpadded(x));
      assert output[..][..8 * b] == out[..8 * b];
    }
    DecryptedOneMore(sk[..], vi, c, was, out, b);
  }

  lemma InBlock(i: nat, b: nat, r: nat)
    requires i == 8 * b + r && r < 8
    ensures i % 8 == r
  {
  }

  /** `data` holds block `b` from its byte `r` on. */
  ghost predicate LoadedDown(data: seq<bv8>, c: seq<bv8>, b: nat, r: nat) {
    |data| == 8 && r <= 8 && 8 * b + 8 <= |c| && data[r..] == c[8 * b + r..8 * b + 8]
  }

  lemma LoadedDownBlock(data: seq<bv8>, c: seq<bv8>, b: nat)
    requires LoadedDown(data, c, b, 0)
    ensures data == BlockAt(c, b)
  {
    assert data[0..] == data;
  }

  lemma LoadedDownNothing(data: seq<bv8>, c: seq<bv8>, b: int)
    requires |data| == 8 && 8 * b + 8 <= |c|
    ensures b >= 0 ==> LoadedDown(data, c, b, 8)
  {
  }

  lemma LoadedDownMore(data: seq<bv8>, c: seq<bv8>, b: nat, r: nat)
    requires LoadedDown(data, c, b, r + 1) && r < 8
    ensures LoadedDown(data[r := c[8 * b + r]], c, b, r)
  {
    assert data[r := c[8 * b + r]][r..] == [c[8 * b + r]] + c[8 * b + r + 1..8 * b + 8];
  }

  /** `des_cbc_decrypt`, from the last byte down; `input` and `output` may be the same buffer. */
  method CbcDecrypt(keys: DesKeys, input: array<bv8>, len: nat, output: array<bv8>, vi: Block) returns (size: int)
    requires keys.Valid() && len % 8 == 0 && len <= input.Length && len <= output.Length
    modifies output
    ensures Deciphered(keys.dsk[..], vi, old(input[..len]), output[..len])
    ensures size == RecoveredLength(keys.dsk[..], vi, old(input[..len]))
    ensures output[len..] == old(output[len..])
  {
    hide DecryptedFrom, Deciphered, PlainBlock, Padding, LoadedDown, BlockAt;
    ghost var key: Key, was, c := keys.dsk[..], output[..], input[..len];
    NothingDecrypted(key, vi, c, was);
    var data := new bv8[8];
    var i := len - 1;
    var j: nat, padding := 0, 0;
    ghost var b, r := len / 8 - 1, 7;
    LoadedDownNothing(data[..], c, b);
    while i >= 0
      invariant b == len / 8 - j - 1 && -1 <= i < len && i == 8 * b + r && 0 <= r <= 7
      invariant DecryptedFrom(key, vi, c, was, output[..], b + 1)
      invariant forall k :: 0 <= k <= i ==> input[k] == c[k]
      invariant b >= 0 ==> LoadedDown(data[..], c, b, r + 1)
      invariant padding == if j == 0 then 0 else Padding(PlainBlock(key, vi, c, len / 8 - 1))
    {
      ghost var loaded := data[..];
      InBlock(i, b, r);
      LoadedDownMore(loaded, c, b, r);
      data[i % 8] := input[i];
      assert data[..] == loaded[r := c[i]];
      if i % 8 == 0 {
        LoadedDownBlock(data[..], c, b);
        padding := PrependBlock(keys.dsk, data, input, output, len / 8 - j - 1, vi, j, padding, c, was);
        j := j + 1;
        b, r := b - 1, 8;
        LoadedDownNothing(data[..], c, b);
      }
      r := r - 1;
      i := i - 1;
    }
    AllDecrypted(key, vi, c, was, output[..]);
    size := len - padding;
  }

  /** Encryption and then decryption inside one buffer: the message is back in its place, and the
      length returned is its length exactly when no byte of its final partial block has the padding
      value. */
  method ThereAndBack(keys: DesKeys, buffer: array<bv8>, len: nat, vi: Block) returns (size: int)
    requires keys.Valid() && keys.dsk[..] == PairReversed(keys.esk[..])
    requires len + PadCount(len) <= buffer.Length
    modifies buffer
    ensures buffer[..len] == old(buffer[..len])
    ensures buffer[len + PadCount(len)..] == old(buffer[len + PadCount(len)..])
    ensures size == len <==> Pad(len) !in old(buffer[8 * (len / 8)..len])
  {
    hide Enciphered, Deciphered, RecoveredLength, Padded, Pad;
    ghost var m := buffer[..len];
    var max := CbcEncrypt(keys, buffer, len, buffer, vi);
    ghost var c := buffer[..max];
    size := CbcDecrypt(keys, buffer, max, buffer, vi);
    CbcRecovers(keys.esk[..], vi, m, c, buffer[..max]);
    assert buffer[..len] == buffer[..max][..len];
    assert m[8 * (len / 8)..] == old(buffer[8 * (len / 8)..len]);
  }
}
