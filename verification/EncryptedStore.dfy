// Message storage under the identity's keys.
module EncryptedStore {
  import opened Wrappers
  import opened Primitives
  import opened SealedBlob

  const OVERHEAD := 49

  /** The caller's output buffer. */
  class Buffer {
    var bytes: seq<bv8>

    constructor ()
      ensures bytes == []
    {
      bytes := [];
    }
  }

  /** Keys from the identity, an IV from the generator; memory may run out, and then nothing is written. */
  method Encrypt(c: Crypto, identity: seq<bv8>, data: seq<bv8>, iv: seq<bv8>, memory: bool, out: Buffer) returns (ok: bool)
    requires |iv| == 16
    modifies out
    ensures ok == memory
    ensures out.bytes == if ok then Blob(c, c.identityKeys(identity), [1], iv, data) else old(out.bytes)
  {
    var keys := c.identityKeys(identity);
    if !memory {
      return false;
    }
    var ct := Ctr(c, keys[..32], iv, data);
    var mac := c.hmac(keys[32..], [VERSION] + iv + ct);
    var len := |data|;
    var file := new bv8[OVERHEAD + len](_ => 0);
    file[0] := VERSION;
    forall k | 0 <= k < 16 { file[1 + k] := iv[k]; }
    forall k | 0 <= k < len { file[17 + k] := ct[k]; }
    forall k | 0 <= k < 32 { file[17 + len + k] := mac[k]; }
    assert file[..] == [VERSION] + iv + ct + mac;
    out.bytes := file[..];
    return true;
  }

  /** Accepts exactly the authentic blobs, whatever their version byte says; a refusal writes nothing. */
  method Decrypt(c: Crypto, identity: seq<bv8>, blob: seq<bv8>, out: Buffer) returns (ok: bool)
    modifies out
    ensures ok <==> Authentic(c, c.identityKeys(identity), 1, blob)
    ensures ok ==> Unsealed(c, c.identityKeys(identity), 1, blob) == Some(out.bytes)
    ensures !ok ==> out.bytes == old(out.bytes)
  {
    if |blob| < OVERHEAD {
      return false;
    }
    var ctLen := |blob| - OVERHEAD;
    var version, iv, ct, stored := blob[0], blob[1..17], blob[17..17 + ctLen], blob[17 + ctLen..];
    var keys := c.identityKeys(identity);
    assert [version] + iv + ct == blob[..17 + ctLen];
    var expected := c.hmac(keys[32..], [version] + iv + ct);
    ok := CtEqual(expected, stored);
    if !ok {
      return false;
    }
    out.bytes := Ctr(c, keys[..32], iv, ct);
    return true;
  }

  /** Reads a file into exactly `data.Length` bytes; on any refusal the caller's buffer is untouched. */
  method Read(c: Crypto, identity: seq<bv8>, file: seq<bv8>, data: array<bv8>) returns (ok: bool)
    modifies data
    ensures ok <==> |file| == data.Length + 49 && Authentic(c, c.identityKeys(identity), 1, file)
    ensures ok ==> Unsealed(c, c.identityKeys(identity), 1, file) == Some(data[..])
    ensures !ok ==> data[..] == old(data[..])
  {
    if |file| != data.Length + OVERHEAD {
      return false;
    }
    var plain := new Buffer();
    ok := Decrypt(c, identity, file, plain);
    if !ok || |plain.bytes| != data.Length {
      return false;
    }
    forall k | 0 <= k < data.Length { data[k] := plain.bytes[k]; }
    assert data[..] == plain.bytes;
  }

  /** The round trip, for any identity, IV and text. */
  lemma DecryptInvertsEncrypt(c: Crypto, identity: seq<bv8>, iv: seq<bv8>, data: seq<bv8>)
    requires |iv| == 16
    ensures var blob := Blob(c, c.identityKeys(identity), [1], iv, data);
      |blob| == 49 + |data| && Unsealed(c, c.identityKeys(identity), 1, blob) == Some(data)
  {
    UnsealInvertsSeal(c, c.identityKeys(identity), [VERSION], iv, data);
  }
  /** The blob, byte by byte: version one, the IV, the text under the first half of the identity's keys, and the MAC
      under their second half of everything before. */
  lemma BlobOnDisk(c: Crypto, identity: seq<bv8>, iv: seq<bv8>, data: seq<bv8>, k: nat)
    requires |iv| == 16 && k < |data|
    ensures var blob := Blob(c, c.identityKeys(identity), [1], iv, data); var keys := c.identityKeys(identity);
      && blob[0] == 1 && blob[1..17] == iv && |blob| == 49 + |data|
      && blob[17 + k] == data[k] ^ c.stream(keys[..32], iv, k)
      && blob[17 + |data|..] == c.hmac(keys[32..], blob[..17 + |data|])
  {
    var blob, keys := Blob(c, c.identityKeys(identity), [1], iv, data), c.identityKeys(identity);
    BlobParts(c, keys, [1], iv, data);
    assert blob[0] == blob[..1][0];
    assert blob[17..17 + |data|][k] == blob[17 + k];
  }
}
