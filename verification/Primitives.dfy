// The cryptographic primitives both sealed-file formats rest on, and their comparison.
module Primitives {
  type Digest = d: seq<bv8> | |d| == 32 witness seq(32, _ => 0)
  type Keys = k: seq<bv8> | |k| == 64 witness seq(64, _ => 0)

  /** HMAC-SHA256, the AES-256-CTR keystream and the identity's HKDF output, of which nothing is assumed
      but their sizes. */
  datatype Crypto = Crypto(
    hmac: (seq<bv8>, seq<bv8>) -> Digest,
    stream: (seq<bv8>, seq<bv8>, nat) -> bv8,
    identityKeys: seq<bv8> -> Keys)

  // ---- Comparison -----------------------------------------------------

  lemma OrOfXor(diff: bv8, x: bv8, y: bv8)
    ensures diff | (x ^ y) == 0 <==> diff == 0 && x == y
  {
  }

  /** The constant-time comparison is equality. */
  method CtEqual(a: seq<bv8>, b: seq<bv8>) returns (same: bool)
    requires |a| == |b|
    ensures same <==> a == b
  {
    var diff: bv8 := 0;
    for i := 0 to |a|
      invariant diff == 0 <==> a[..i] == b[..i]
    {
      OrOfXor(diff, a[i], b[i]);
      assert a[..i + 1] == a[..i] + [a[i]] && b[..i + 1] == b[..i] + [b[i]];
      diff := diff | (a[i] ^ b[i]);
    }
    assert a[..|a|] == a && b[..|a|] == b;
    return diff == 0;
  }

  // ---- Counter mode ---------------------------------------------------

  function Ctr(c: Crypto, key: seq<bv8>, iv: seq<bv8>, data: seq<bv8>): (r: seq<bv8>)
    ensures |r| == |data|
  {
    seq(|data|, k requires 0 <= k < |data| => data[k] ^ c.stream(key, iv, k))
  }

  lemma XorTwice(x: bv8, y: bv8)
    ensures (x ^ y) ^ y == x
  {
  }

  /** The cipher undoes itself. */
  lemma CtrUndoes(c: Crypto, key: seq<bv8>, iv: seq<bv8>, data: seq<bv8>)
    ensures Ctr(c, key, iv, Ctr(c, key, iv, data)) == data
  {
    forall k | 0 <= k < |data|
      ensures Ctr(c, key, iv, Ctr(c, key, iv, data))[k] == data[k]
    {
      XorTwice(data[k], c.stream(key, iv, k));
    }
  }
}
