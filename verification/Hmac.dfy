/** HMAC over the hash object: base/algorithm/HMAC_SHA1.cpp. */
module Hmac {
  import opened Sha1Standard
  import Sha1

  type Pad64 = s: seq<bv8> | |s| == 64 witness seq(64, _ => 0)

  /** `s` with every byte combined with `b`. */
  function XorAll(s: Pad64, b: bv8): Pad64 {
    seq(64, i requires 0 <= i < 64 => Xor(s[i], b))
  }

  function Xor(a: bv8, b: bv8): bv8 {
    a ^ b
  }

  /** Step 1 of section 2 of RFC 2104: a key of one block. */
  function BlockKey(key: seq<bv8>): Pad64 {
    var k := if |key| > 64 then Digest(key) else key;
    k + seq(64 - |k|, _ => 0)
  }

  /** HMAC as section 2 of RFC 2104 defines it, over SHA-1. */
  function Standard(key: seq<bv8>, text: seq<bv8>): (r: seq<bv8>)
    ensures |r| == 20
  {
    var k := BlockKey(key);
    Digest(XorAll(k, 0x5c) + Digest(XorAll(k, 0x36) + text))
  }

  /** The pads of `Standard`, byte by byte: whatever they are called, HMAC is the digest of the key
      combined with 0x5c and then the digest of the key combined with 0x36 and then the text. */
  lemma HmacByBytes(key: seq<bv8>, text: seq<bv8>, b: seq<bv8>, ik: seq<bv8>, ok: seq<bv8>)
    requires |b| == |ik| == |ok| == 64
    requires b == (if |key| > 64 then Digest(key) else key) + seq(64 - (if |key| > 64 then 20 else |key|), _ => 0)
    requires forall k :: 0 <= k < 64 ==> ik[k] == b[k] ^ 0x36
    requires forall k :: 0 <= k < 64 ==> ok[k] == b[k] ^ 0x5c
    ensures Standard(key, text) == Digest(ok + Digest(ik + text))
  {
    hide Digest;
    assert b == BlockKey(key);
    AllCombined(b, 0x36, ik);
    AllCombined(b, 0x5c, ok);
  }

  lemma AllCombined(s: Pad64, b: bv8, r: Pad64)
    requires forall k :: 0 <= k < 64 ==> r[k] == s[k] ^ b
    ensures r == XorAll(s, b)
  {
  }

  const BUF_LEN := 4096

  /** `CHMAC_SHA1`; the hash object it derives from is a part here. */
  class Hmac {
    const sha: Sha1.Hash
    const ipad: array<bv8>
    const opad: array<bv8>
    const report: array<bv8>
    const appendBuf1: array<bv8>
    const appendBuf2: array<bv8>
    const key: array<bv8>

    ghost predicate Valid() {
      && sha.Shape()
      && ipad.Length == opad.Length == 64
      && report.Length == appendBuf1.Length == appendBuf2.Length == key.Length == BUF_LEN
      && sha.buffer !in Own() && sha.digest !in Own()
      && key != ipad && key != opad && key != report && key != appendBuf1
      && ipad != opad && appendBuf1 != opad && report != opad && report != appendBuf2 && opad != appendBuf2
    }

    constructor ()
      ensures Valid() && fresh(sha) && fresh(Own())
    {
      hide Sha1.Hash.Valid, Sha1.Hash.Value, Sha1.Hash.Repr;
      sha := new Sha1.Hash();
      ipad := new bv8[64];
      opad := new bv8[64];
      report := new bv8[BUF_LEN];
      appendBuf1 := new bv8[BUF_LEN];
      appendBuf2 := new bv8[BUF_LEN];
      key := new bv8[BUF_LEN];
    }

    ghost function Own(): set<array<bv8>> {
      {ipad, opad, report, appendBuf1, appendBuf2, key}
    }

    /** One use of the hash object, from `Reset` to `GetHash`. */
    method HashInto(data: seq<bv8>, dest: array<bv8>)
      requires Valid() && |data| + 63 < 0x1_0000_0000
      requires dest.Length >= 20 && dest != sha.digest && dest != sha.buffer
      modifies sha, sha.state, sha.buffer, sha.digest, sha.block, dest
      ensures dest[..] == Digest(data) + old(dest[20..])
    {
      hide Sha1.Hash.Valid, Sha1.Hash.Value, Digest;
      sha.Reset();
      sha.Update(data);
      assert [] + data == data;
      sha.Final();
      sha.GetHash(dest);
    }

    /** The loops of steps 2 and 5. */
    method XorKey(pad: array<bv8>, ghost b: bv8)
      requires Valid() && pad.Length == 64 && pad != key && pad[..] == seq(64, _ => b)
      modifies pad
      ensures pad[..] == XorAll(key[..64], b)
    {
      hide Xor;
      for i := 0 to 64
        invariant forall k :: i <= k < 64 ==> pad[k] == b
        invariant forall k :: 0 <= k < i ==> pad[k] == Xor(key[k], b)
      {
        XorCommutes(b, key[i]);
        pad[i] := pad[i] ^ key[i];
      }
    }

    /** `memset` of a whole pad. */
    method SetAll(pad: array<bv8>, b: bv8)
      requires pad.Length == 64
      modifies pad
      ensures pad[..] == seq(64, _ => b)
    {
      forall i | 0 <= i < 64 {
        pad[i] := b;
      }
    }

    /** Step 1: the block key is put at the start of `key`. */
    method SetKey(k: seq<bv8>)
      requires Valid() && |k| < 0x8000_0000
      modifies sha, sha.state, sha.buffer, sha.digest, sha.block, key
      ensures key[..64] == BlockKey(k)
    {
      hide Digest;
      forall i | 0 <= i < 64 {
        key[i] := 0;
      }
      if |k| > 64 {
        HashInto(k, key);
        assert key[..64] == BlockKey(k);
      } else {
        forall i | 0 <= i < |k| {
          key[i] := k[i];
        }
        assert key[..64] == BlockKey(k);
      }
    }

    /** Steps 3 and 6: `a` and then `b` at the start of a buffer. */
    method Append(buffer: array<bv8>, a: seq<bv8>, b: seq<bv8>)
      requires |a| + |b| <= buffer.Length
      modifies buffer
      ensures buffer[..|a| + |b|] == a + b
    {
      forall i | 0 <= i < |a| {
        buffer[i] := a[i];
      }
      forall i | 0 <= i < |b| {
        buffer[|a| + i] := b[i];
      }
    }

    /** `HMAC_SHA1`. */
    method HmacSha1(text: seq<bv8>, k: seq<bv8>, digest: array<bv8>)
      requires Valid() && |text| <= 4032 && |k| < 0x8000_0000
      requires digest.Length >= 20 && digest !in Own() + {sha.digest, sha.buffer}
      modifies sha, sha.state, sha.buffer, sha.digest, sha.block, Own(), digest
      ensures digest[..] == Standard(k, text) + old(digest[20..])
    {
      hide Digest, BlockKey, XorAll;
      SetAll(ipad, 0x36);
      SetAll(opad, 0x5c);
      SetKey(k);
      XorKey(ipad, 0x36);
      Append(appendBuf1, ipad[..], text);
      HashInto(appendBuf1[..64 + |text|], report);
      assert report[..20] == Digest(XorAll(BlockKey(k), 0x36) + text);
      XorKey(opad, 0x5c);
      Append(appendBuf2, opad[..], report[..20]);
      assert appendBuf2[..84] == XorAll(BlockKey(k), 0x5c) + report[..20];
      HashInto(appendBuf2[..84], digest);
    }
  }

  lemma XorCommutes(a: bv8, b: bv8)
    ensures a ^ b == Xor(b, a)
  {
  }
}
