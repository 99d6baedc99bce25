/** PBKDF2 with HMAC-SHA256, section 5.2 of RFC 8018. */
module Pbkdf2 {
  import opened ByteCast
  import opened Primitives

  const ITERATIONS := 100000

  function Xor(a: Digest, b: Digest): (r: Digest)
    ensures forall j :: 0 <= j < 32 ==> r[j] == a[j] ^ b[j]
  {
    seq(32, j requires 0 <= j < 32 => a[j] ^ b[j])
  }

  /** INT(i): four octets, most significant first. */
  function Be32(n: nat): seq<bv8>
    requires n < 0x1_0000_0000
  {
    [(n / 0x100_0000) as bv8, (n / 0x1_0000 % 0x100) as bv8, (n / 0x100 % 0x100) as bv8, (n % 0x100) as bv8]
  }

  /** U_i: the first over the salt and block number, each later one over the one before. */
  function U(c: Crypto, password: seq<bv8>, salt: seq<bv8>, block: nat, i: nat): Digest
    requires i >= 1 && block < 0x1_0000_0000
    decreases i
  {
    if i == 1 then c.hmac(password, salt + Be32(block)) else c.hmac(password, U(c, password, salt, block, i - 1))
  }

  /** F: the exclusive or of U_1 to U_n. */
  function F(c: Crypto, password: seq<bv8>, salt: seq<bv8>, n: nat, block: nat): Digest
    requires n >= 1 && block < 0x1_0000_0000
    decreases n
  {
    if n == 1 then U(c, password, salt, block, 1)
    else Xor(F(c, password, salt, n - 1, block), U(c, password, salt, block, n))
  }

  /** T_1 to T_l, one after the other. */
  function Blocks(c: Crypto, password: seq<bv8>, salt: seq<bv8>, n: nat, l: nat): (r: seq<bv8>)
    requires n >= 1 && l < 0x1_0000_0000
    ensures |r| == 32 * l
    decreases l
  {
    if l == 0 then [] else Blocks(c, password, salt, n, l - 1) + F(c, password, salt, n, l)
  }

  /** The derived key: as many blocks as the length needs, cut to it. */
  function DerivedKey(c: Crypto, password: seq<bv8>, salt: seq<bv8>, n: nat, dkLen: nat): (r: seq<bv8>)
    requires n >= 1 && dkLen <= 32 * 0xFFFF_FFFF
    ensures |r| == dkLen
  {
    Blocks(c, password, salt, n, (dkLen + 31) / 32)[..dkLen]
  }

  /** One block, accumulated in place: for every iteration count it is F, and the rest of the buffer is
      left alone. */
  method Pbkdf2Block(c: Crypto, password: seq<bv8>, salt: seq<bv8>, block: nat, iterations: nat, out: array<bv8>, at: nat)
    requires iterations >= 1 && block < 0x1_0000_0000 && at + 32 <= out.Length
    modifies out
    ensures out[at..at + 32] == F(c, password, salt, iterations, block)
    ensures out[..at] == old(out[..at]) && out[at + 32..] == old(out[at + 32..])
  {
    hide Be32, Xor;
    var u: Digest := c.hmac(password, salt + Be32(block));
    forall j | 0 <= j < 32 {
      out[at + j] := u[j];
    }
    assert out[at..at + 32] == u;
    var i := 1;
    while i < iterations
      invariant 1 <= i <= iterations
      invariant u == U(c, password, salt, block, i)
      invariant out[at..at + 32] == F(c, password, salt, i, block)
      invariant out[..at] == old(out[..at]) && out[at + 32..] == old(out[at + 32..])
    {
      u := c.hmac(password, u);
      XorInto(out, at, u);
      i := i + 1;
    }
  }

  method XorInto(out: array<bv8>, at: nat, u: Digest)
    requires at + 32 <= out.Length
    modifies out
    ensures out[at..at + 32] == Xor(old(out[at..at + 32]), u)
    ensures out[..at] == old(out[..at]) && out[at + 32..] == old(out[at + 32..])
  {
    for j := 0 to 32
      invariant forall k :: at <= k < at + j ==> out[k] == old(out[k]) ^ u[k - at]
      invariant forall k :: at + j <= k < out.Length ==> out[k] == old(out[k])
      invariant out[..at] == old(out[..at])
    {
      out[at + j] := out[at + j] ^ u[j];
    }
  }

  /** Both keys: the sixty-four bytes are the standard's derived key of that length. */
  method Pbkdf2_64(c: Crypto, password: seq<bv8>, salt: seq<bv8>) returns (keys: Keys)
    ensures keys == DerivedKey(c, password, salt, 100000, 64)
  {
    var out := new bv8[64](_ => 0);
    Pbkdf2Block(c, password, salt, 1, ITERATIONS, out, 0);
    ghost var first := out[..32];
    Pbkdf2Block(c, password, salt, 2, ITERATIONS, out, 32);
    keys := out[..];
    TwoBlocks(c, password, salt, ITERATIONS);
    assert out[..32] == first && keys == out[..32] + out[32..64];
  }

  lemma TwoBlocks(c: Crypto, password: seq<bv8>, salt: seq<bv8>, n: nat)
    requires n >= 1
    ensures DerivedKey(c, password, salt, n, 64) == F(c, password, salt, n, 1) + F(c, password, salt, n, 2)
  {
    hide F;
    assert Blocks(c, password, salt, n, 0) == [];
    assert Blocks(c, password, salt, n, 1) == F(c, password, salt, n, 1);
    assert Blocks(c, password, salt, n, 2) == F(c, password, salt, n, 1) + F(c, password, salt, n, 2);
  }
  /** The four octets in base 256, the first counting most. */
  lemma OctetsValue(n: nat)
    requires n < 0x1_0000_0000
    ensures |Be32(n)| == 4
    ensures n == 0x100_0000 * Be32(n)[0] as nat + 0x1_0000 * Be32(n)[1] as nat + 0x100 * Be32(n)[2] as nat + Be32(n)[3] as nat
  {
    ByteOfNat(n / 0x100_0000);
    ByteOfNat(n / 0x1_0000 % 0x100);
    ByteOfNat(n / 0x100 % 0x100);
    ByteOfNat(n % 0x100);
    Base256(n);
  }

  lemma Base256(n: nat)
    ensures n == 0x100_0000 * (n / 0x100_0000) + 0x1_0000 * (n / 0x1_0000 % 0x100) + 0x100 * (n / 0x100 % 0x100) + n % 0x100
  {
    var a := n / 0x100;
    var b := a / 0x100;
    assert n / 0x1_0000 == b && n / 0x100_0000 == b / 0x100;
  }

  /** Written out for two rounds: the first is over the salt and the block's octets, the second over the first
      round, and byte by byte the block is their exclusive or; block two follows block one. */
  lemma TwoRounds(c: Crypto, password: seq<bv8>, salt: seq<bv8>, j: nat)
    requires j < 32
    ensures var key := DerivedKey(c, password, salt, 2, 64);
      var one, two := c.hmac(password, salt + [0, 0, 0, 1]), c.hmac(password, salt + [0, 0, 0, 2]);
      && key[j] == one[j] ^ c.hmac(password, one)[j] && key[32 + j] == two[j] ^ c.hmac(password, two)[j]
  {
    TwoBlocks(c, password, salt, 2);
    FirstOctets();
    TwoRoundsOf(c, password, salt, 1);
    TwoRoundsOf(c, password, salt, 2);
  }

  lemma FirstOctets()
    ensures Be32(1) == [0, 0, 0, 1] && Be32(2) == [0, 0, 0, 2]
  {
    hide Be32;
    SmallOctets(1);
    SmallOctets(2);
  }

  lemma SmallOctets(n: nat)
    requires n < 0x100
    ensures Be32(n) == [0, 0, 0, n as bv8]
  {
    assert n / 0x100_0000 == 0 && n / 0x1_0000 == 0 && n / 0x100 == 0 && n % 0x100 == n;
  }

  lemma TwoRoundsOf(c: Crypto, password: seq<bv8>, salt: seq<bv8>, block: nat)
    requires block < 0x1_0000_0000
    ensures var u := c.hmac(password, salt + Be32(block)); F(c, password, salt, 2, block) == Xor(u, c.hmac(password, u))
  {
    hide Be32, Xor;
    assert U(c, password, salt, block, 1) == c.hmac(password, salt + Be32(block));
    assert F(c, password, salt, 1, block) == U(c, password, salt, block, 1);
  }
}
