// The password-protected file.
module PasswordFile {
  import opened Wrappers
  import opened Primitives
  import opened Pbkdf2
  import opened SealedBlob

  const OVERHEAD := 65
  const SALT_LEN := 16

  function KeysFor(c: Crypto, password: seq<bv8>, salt: seq<bv8>): Keys {
    DerivedKey(c, password, salt, ITERATIONS, 64)
  }

  /** The salt stands in the clear after the version byte. */
  function Protected(c: Crypto, password: seq<bv8>, salt: seq<bv8>, iv: seq<bv8>, data: seq<bv8>): seq<bv8> {
    Blob(c, KeysFor(c, password, salt), [VERSION] + salt, iv, data)
  }

  predicate Accepted(c: Crypto, password: seq<bv8>, file: seq<bv8>, len: nat) {
    |file| == len + OVERHEAD && Authentic(c, KeysFor(c, password, file[1..17]), 17, file)
  }

  /** Seals under a password and hands the file to the filesystem, which says how many bytes it wrote; memory
      may run out before there is a file. Success is reported exactly when every byte was written. */
  method Protect(c: Crypto, password: seq<bv8>, salt: seq<bv8>, iv: seq<bv8>, data: seq<bv8>, memory: bool, wrote: seq<bv8> -> nat)
    returns (ok: bool, file: Option<seq<bv8>>)
    requires |salt| == 16 && |iv| == 16
    ensures file == if memory then Some(Protected(c, password, salt, iv, data)) else None
    ensures ok <==> file.Some? && wrote(file.value) == 65 + |data|
  {
    var keys := Pbkdf2_64(c, password, salt);
    if !memory {
      return false, None;
    }
    hide DerivedKey;
    var ct := Ctr(c, keys[..32], iv, data);
    var mac := c.hmac(keys[32..], [VERSION] + salt + iv + ct);
    var buf := Assemble(salt, iv, ct, mac);
    return wrote(buf) == OVERHEAD + |data|, Some(buf);
  }

  method Assemble(salt: seq<bv8>, iv: seq<bv8>, ct: seq<bv8>, mac: Digest) returns (file: seq<bv8>)
    requires |salt| == SALT_LEN && |iv| == IV_LEN
    ensures file == [VERSION] + salt + iv + ct + mac
  {
    var len := |ct|;
    var buf := new bv8[OVERHEAD + len](_ => 0);
    buf[0] := VERSION;
    forall k | 0 <= k < 16 { buf[1 + k] := salt[k]; }
    forall k | 0 <= k < 16 { buf[17 + k] := iv[k]; }
    forall k | 0 <= k < len { buf[33 + k] := ct[k]; }
    forall k | 0 <= k < 32 { buf[33 + len + k] := mac[k]; }
    return buf[..];
  }

  /** Opens into the caller's buffer: exactly when the length is right and the MAC over everything before
      it matches, and the buffer is untouched otherwise. */
  method Open(c: Crypto, password: seq<bv8>, file: seq<bv8>, memory: bool, data: array<bv8>) returns (ok: bool)
    modifies data
    ensures ok <==> memory && |file| == data.Length + 65 && Authentic(c, KeysFor(c, password, file[1..17]), 17, file)
    ensures ok ==> Unsealed(c, KeysFor(c, password, file[1..17]), 17, file) == Some(data[..])
    ensures !ok ==> data[..] == old(data[..])
  {
    var len := data.Length;
    if |file| != len + OVERHEAD {
      return false;
    }
    var keys := Pbkdf2_64(c, password, file[1..17]);
    if !memory {
      return false;
    }
    hide DerivedKey;
    var auth := [file[0]] + file[1..17] + file[17..33] + file[33..33 + len];
    assert auth == file[..33 + len];
    var expected := c.hmac(keys[32..], auth);
    ok := CtEqual(expected, file[33 + len..]);
    if !ok {
      return false;
    }
    var plain := Ctr(c, keys[..32], file[17..33], file[33..33 + len]);
    forall k | 0 <= k < len { data[k] := plain[k]; }
    assert data[..] == plain;
  }

  /** The round trip, for any password, salt, IV and text. */
  lemma OpenInvertsProtect(c: Crypto, password: seq<bv8>, salt: seq<bv8>, iv: seq<bv8>, data: seq<bv8>)
    requires |salt| == 16 && |iv| == 16
    ensures var file := Protected(c, password, salt, iv, data);
      && Accepted(c, password, file, |data|)
      && Unsealed(c, KeysFor(c, password, file[1..17]), 17, file) == Some(data)
  {
    hide DerivedKey;
    var head := [VERSION] + salt;
    var file := Protected(c, password, salt, iv, data);
    BlobParts(c, KeysFor(c, password, salt), head, iv, data);
    assert file[1..17] == file[..17][1..] == salt;
    UnsealInvertsSeal(c, KeysFor(c, password, salt), head, iv, data);
  }
  /** What lies on disk, byte by byte: version one, the salt in the clear, the IV, the text under the first half of the
      derived key, and the MAC under its second half of everything before. */
  lemma FileOnDisk(c: Crypto, password: seq<bv8>, salt: seq<bv8>, iv: seq<bv8>, data: seq<bv8>, k: nat)
    requires |salt| == 16 && |iv| == 16 && k < |data|
    ensures var file := Protected(c, password, salt, iv, data); var keys := DerivedKey(c, password, salt, 100000, 64);
      && |file| == 65 + |data|
      && file[0] == 1 && file[1..17] == salt && file[17..33] == iv
      && file[33 + k] == data[k] ^ c.stream(keys[..32], iv, k)
      && file[33 + |data|..] == c.hmac(keys[32..], file[..33 + |data|])
  {
    hide DerivedKey;
    var head := [VERSION] + salt;
    var file, keys := Protected(c, password, salt, iv, data), KeysFor(c, password, salt);
    BlobParts(c, keys, head, iv, data);
    assert file[1..17] == file[..17][1..] == salt;
    assert file[0] == file[..17][0];
    assert file[33..33 + |data|][k] == file[33 + k];
  }
}
