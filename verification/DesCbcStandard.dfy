/** Cipher block chaining on 64-bit values, as section 6.2 of NIST SP 800-38A has it, over the cipher of
    FIPS 46-3. */
module DesCbcStandard {
  import opened DesCipher
  import opened DesContext
  import opened DesCbc
  import opened DesRefines
  import Standard = DesStandard

  lemma XorBits(a: Block, b: Block)
    ensures Bits(XorBlocks(a, b)) == Bits(a) ^ Bits(b)
  {
  }

  /** The value that block `j` is combined with: the initialisation vector, or the ciphertext before. */
  function Before(iv: Block, c: seq<bv8>, j: nat): bv64
    requires 8 * j <= |c|
  {
    if j == 0 then Bits(iv) else Bits(BlockAt(c, j - 1))
  }

  /** Every ciphertext block is the encryption of the plaintext block combined with the one before. */
  lemma CipherChains(key: Block, iv: Block, p: seq<bv8>, c: seq<bv8>, j: nat)
    requires Enciphered(KeySchedule(key), iv, p, c) && 8 * j + 8 <= |p|
    ensures Bits(BlockAt(c, j)) == Standard.Encrypt(Bits(key), Bits(BlockAt(p, j)) ^ Before(iv, c, j))
  {
    hide Bits, Crypt, KeySchedule, XorBlocks, BlockAt, Standard.Encrypt, Standard.Decrypt, PairReversed;
    var before := if j == 0 then iv else BlockAt(c, j - 1);
    var x := XorBlocks(BlockAt(p, j), before);
    assert BlockAt(c, j) == Crypt(KeySchedule(key), x);
    DesIsStandard(key, x);
    XorBits(BlockAt(p, j), before);
  }

  lemma PlainXor(key: Block, iv: Block, c: seq<bv8>, j: nat)
    requires 8 * j + 8 <= |c|
    ensures Bits(PlainBlock(PairReversed(KeySchedule(key)), iv, c, j)) ==
      Standard.Xor(Standard.Decrypt(Bits(key), Bits(BlockAt(c, j))), Before(iv, c, j))
  {
    hide Bits, Crypt, KeySchedule, XorBlocks, BlockAt, Standard.Encrypt, Standard.Decrypt, PairReversed, Standard.Xor;
    var before := if j == 0 then iv else BlockAt(c, j - 1);
    var m := Crypt(PairReversed(KeySchedule(key)), BlockAt(c, j));
    DesIsStandard(key, BlockAt(c, j));
    XorNamed(m, before);
  }

  lemma XorNamed(a: Block, b: Block)
    ensures Bits(XorBlocks(a, b)) == Standard.Xor(Bits(a), Bits(b))
  {
    hide Bits, XorBlocks;
    XorBits(a, b);
  }

  /** And every plaintext block is the decryption of the ciphertext block, combined with the one before;
      only the last loses its padding. */
  lemma PlainChains(key: Block, iv: Block, c: seq<bv8>, d: seq<bv8>, j: nat)
    requires Deciphered(PairReversed(KeySchedule(key)), iv, c, d) && 8 * j + 8 <= |c|
    ensures
      var x := Standard.Decrypt(Bits(key), Bits(BlockAt(c, j))) ^ Before(iv, c, j);
      exists m: Block :: Bits(m) == x && BlockAt(d, j) == if 8 * j + 8 == |c| then Unpadded(m) else m
  {
    hide Bits, Crypt, KeySchedule, XorBlocks, BlockAt, Standard.Encrypt, Standard.Decrypt, PairReversed, Unpadded,
      Before, PlainBlock;
    PlainXor(key, iv, c, j);
    assert BlockAt(d, j) == Leaves(PairReversed(KeySchedule(key)), iv, c, j);
  }
}
