/** What both formats share: a clear head, an IV, the ciphertext, and a MAC over all three. */
module SealedBlob {
  import opened Wrappers
  import opened Primitives

  const VERSION: bv8 := 0x01
  const IV_LEN := 16
  const MAC_LEN := 32

  function Body(c: Crypto, keys: Keys, head: seq<bv8>, iv: seq<bv8>, data: seq<bv8>): seq<bv8> {
    head + iv + Ctr(c, keys[..32], iv, data)
  }

  function Blob(c: Crypto, keys: Keys, head: seq<bv8>, iv: seq<bv8>, data: seq<bv8>): seq<bv8> {
    Body(c, keys, head, iv, data) + c.hmac(keys[32..], Body(c, keys, head, iv, data))
  }

  /** A blob is authentic when it is long enough and its last bytes are the MAC of all before them. */
  predicate Authentic(c: Crypto, keys: Keys, head: nat, blob: seq<bv8>) {
    |blob| >= head + IV_LEN + MAC_LEN
    && blob[|blob| - MAC_LEN..] == c.hmac(keys[32..], blob[..|blob| - MAC_LEN])
  }

  /** Opening: nothing at all unless the blob is authentic. */
  function Unsealed(c: Crypto, keys: Keys, head: nat, blob: seq<bv8>): (r: Option<seq<bv8>>)
    ensures r.Some? <==> Authentic(c, keys, head, blob)
  {
    if Authentic(c, keys, head, blob)
    then Some(Ctr(c, keys[..32], blob[head..head + IV_LEN], blob[head + IV_LEN..|blob| - MAC_LEN]))
    else None
  }

  lemma BlobParts(c: Crypto, keys: Keys, head: seq<bv8>, iv: seq<bv8>, data: seq<bv8>)
    requires |iv| == IV_LEN
    ensures var blob := Blob(c, keys, head, iv, data); var end := |blob| - MAC_LEN;
      && |blob| == |head| + IV_LEN + |data| + MAC_LEN
      && blob[..end] == Body(c, keys, head, iv, data)
      && blob[end..] == c.hmac(keys[32..], Body(c, keys, head, iv, data))
      && blob[..|head|] == head && blob[|head|..|head| + IV_LEN] == iv
      && blob[|head| + IV_LEN..end] == Ctr(c, keys[..32], iv, data)
  {
  }

  /** What was sealed opens to what went in, under the same keys. */
  lemma UnsealInvertsSeal(c: Crypto, keys: Keys, head: seq<bv8>, iv: seq<bv8>, data: seq<bv8>)
    requires |iv| == IV_LEN
    ensures Unsealed(c, keys, |head|, Blob(c, keys, head, iv, data)) == Some(data)
  {
    BlobParts(c, keys, head, iv, data);
    CtrUndoes(c, keys[..32], iv, data);
  }

  /** And an authentic blob is the sealing of what it opens to: opening loses nothing of it. */
  lemma SealInvertsUnseal(c: Crypto, keys: Keys, head: nat, blob: seq<bv8>)
    requires Authentic(c, keys, head, blob)
    ensures Blob(c, keys, blob[..head], blob[head..head + IV_LEN], Unsealed(c, keys, head, blob).value) == blob
  {
    var end := |blob| - MAC_LEN;
    var ct := blob[head + IV_LEN..end];
    CtrUndoes(c, keys[..32], blob[head..head + IV_LEN], ct);
    assert blob[..end] == blob[..head] + blob[head..head + IV_LEN] + ct;
    assert blob == blob[..end] + blob[end..];
  }
}
