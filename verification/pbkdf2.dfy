// The key derivation of section 5.2 of RFC 8018: once as the standard defines it, and once
// as the loops over reused buffers that compute it.
module Pbkdf2 {
  import opened Octets

  /** HMAC-SHA-256 by password and message. */
  type Hmac = (seq<octet>, seq<octet>) -> seq<octet>

  const HASH_LEN: nat := 32

  ghost predicate IsMac(prf: Hmac) {
    forall p, m {:trigger prf(p, m)} :: |prf(p, m)| == HASH_LEN
  }

  // ------------------------------------------------------------ the standard

  /** The four-octet encoding of the block number, most significant octet first. */
  function Int4(i: nat): (r: seq<octet>)
    ensures |r| == 4
  {
    [i / 0x100_0000 % 256, i / 0x1_0000 % 256, i / 0x100 % 256, i % 256]
  }

  /** Cutting a block number to 32 bits does not change its encoding. */
  lemma Int4Wraps(i: nat)
    ensures Int4(i % 0x1_0000_0000) == Int4(i)
  {
    var q, r := i / 0x1_0000_0000, i % 0x1_0000_0000;
    Shifted(q, r, 0x100_0000, 0x100);
    Shifted(q, r, 0x1_0000, 0x1_0000);
    Shifted(q, r, 0x100, 0x100_0000);
    Shifted(q, r, 1, 0x1_0000_0000);
  }

  lemma Shifted(q: nat, r: nat, unit: nat, units: nat)
    requires (unit == 0x100_0000 && units == 0x100) || (unit == 0x1_0000 && units == 0x1_0000)
          || (unit == 0x100 && units == 0x100_0000) || (unit == 1 && units == 0x1_0000_0000)
    ensures (q * 0x1_0000_0000 + r) / unit % 0x100 == r / unit % 0x100
  {
    assert (q * 0x1_0000_0000 + r) / unit == q * units + r / unit;
    if unit == 0x100_0000 {
      DropMultiple(q, r / unit);
    } else if unit == 0x1_0000 {
      DropMultiple(q * 0x100, r / unit);
    } else if unit == 0x100 {
      DropMultiple(q * 0x1_0000, r / unit);
    } else {
      DropMultiple(q * 0x100_0000, r / unit);
    }
  }

  lemma DropMultiple(x: nat, y: nat)
    ensures (x * 0x100 + y) % 0x100 == y % 0x100
  {
  }

  /** The j-th link of the chain of a block: U_1 is of the salt and the block number, U_j of U_(j-1). */
  ghost function U(prf: Hmac, password: seq<octet>, salt: seq<octet>, block: nat, j: nat): (u: seq<octet>)
    requires IsMac(prf) && j >= 1
    ensures |u| == HASH_LEN
  {
    if j == 1 then prf(password, salt + Int4(block)) else prf(password, U(prf, password, salt, block, j - 1))
  }

  /** The exclusive or of the first `c` links. */
  ghost function F(prf: Hmac, password: seq<octet>, salt: seq<octet>, c: nat, block: nat): (t: seq<octet>)
    requires IsMac(prf) && c >= 1
    ensures |t| == HASH_LEN
  {
    if c == 1 then U(prf, password, salt, block, 1)
    else XorAll(F(prf, password, salt, c - 1, block), U(prf, password, salt, block, c))
  }

  /** The first `l` blocks, one after the other. */
  ghost function Blocks(prf: Hmac, password: seq<octet>, salt: seq<octet>, c: nat, l: nat): (dk: seq<octet>)
    requires IsMac(prf) && c >= 1
    ensures |dk| == l * HASH_LEN
  {
    if l == 0 then [] else Blocks(prf, password, salt, c, l - 1) + F(prf, password, salt, c, l)
  }

  function BlockCount(length: nat): (l: nat)
    ensures (l - 1) * HASH_LEN < length <= l * HASH_LEN || (length == 0 && l == 0)
  {
    (length + HASH_LEN - 1) / HASH_LEN
  }

  /** PBKDF2 (P, S, c, dkLen). */
  ghost function Pbkdf2Of(prf: Hmac, password: seq<octet>, salt: seq<octet>, c: nat, length: nat): (dk: seq<octet>)
    requires IsMac(prf) && c >= 1
    ensures |dk| == length
  {
    Blocks(prf, password, salt, c, BlockCount(length))[..length]
  }

  /** A longer key begins with the shorter one. */
  lemma {:induction false} KeysNest(prf: Hmac, password: seq<octet>, salt: seq<octet>, c: nat, l: nat, m: nat)
    requires IsMac(prf) && c >= 1 && l <= m
    ensures Blocks(prf, password, salt, c, l) <= Blocks(prf, password, salt, c, m)
    decreases m
  {
    if l < m {
      KeysNest(prf, password, salt, c, l, m - 1);
    }
  }

  // ------------------------------------------------------------ the loops

  /** A running HMAC: reset, written to, and summed into a buffer. */
  class Mac {
    const prf: Hmac
    const password: seq<octet>
    var written: seq<octet>

    constructor (prf: Hmac, password: seq<octet>)
      ensures this.prf == prf && this.password == password && written == []
    {
      this.prf, this.password, written := prf, password, [];
    }

    method Reset()
      modifies this
      ensures written == []
    {
      written := [];
    }

    method Write(data: seq<octet>)
      modifies this
      ensures written == old(written) + data
    {
      written := written + data;
    }

    /** Puts the sum of what was written into `buf`. */
    method SumInto(buf: array<octet>)
      requires IsMac(prf) && buf.Length == HASH_LEN
      modifies buf
      ensures buf[..] == prf(password, written)
    {
      var sum := prf(password, written);
      for i := 0 to HASH_LEN
        invariant buf[..i] == sum[..i]
      {
        buf[i] := sum[i];
      }
      assert sum[..HASH_LEN] == sum;
    }
  }

  /** XORs `u` into `acc`, in place. */
  method XorInto(acc: array<octet>, u: array<octet>)
    requires acc.Length == u.Length && acc != u
    modifies acc
    ensures acc[..] == XorAll(old(acc[..]), u[..])
  {
    for j := 0 to acc.Length
      invariant forall k :: 0 <= k < j ==> acc[k] == Xor(old(acc[k]), u[k])
      invariant forall k :: j <= k < acc.Length ==> acc[k] == old(acc[k])
    {
      acc[j] := Xor(acc[j], u[j]);
    }
  }

  method Copy(u: array<octet>, acc: array<octet>)
    requires u.Length == acc.Length && u != acc
    modifies u
    ensures u[..] == acc[..]
  {
    for j := 0 to u.Length
      invariant u[..j] == acc[..j]
    {
      u[j] := acc[j];
    }
    assert u[..] == u[..u.Length] == acc[..acc.Length] == acc[..];
  }

  /** The first link of a block's chain. */
  method FirstLink(mac: Mac, salt: seq<octet>, block: nat, acc: array<octet>)
    requires IsMac(mac.prf) && acc.Length == HASH_LEN
    modifies mac, acc
    ensures acc[..] == U(mac.prf, mac.password, salt, block, 1)
  {
    mac.Reset();
    mac.Write(salt);
    Int4Wraps(block);
    mac.Write(Int4(block % 0x1_0000_0000));
    assert mac.written == salt + Int4(block);
    mac.SumInto(acc);
  }

  /** One more link, in place, gathered into `acc`. */
  method NextLink(mac: Mac, acc: array<octet>, u: array<octet>)
    requires IsMac(mac.prf) && acc.Length == HASH_LEN && u.Length == HASH_LEN && acc != u
    modifies mac, acc, u
    ensures u[..] == mac.prf(mac.password, old(u[..]))
    ensures acc[..] == XorAll(old(acc[..]), u[..])
  {
    mac.Reset();
    mac.Write(u[..]);
    assert mac.written == u[..];
    mac.SumInto(u);
    XorInto(acc, u);
  }

  /** The first link, in both buffers. */
  method FirstTwice(mac: Mac, salt: seq<octet>, block: nat, acc: array<octet>, u: array<octet>)
    requires IsMac(mac.prf) && acc.Length == HASH_LEN && u.Length == HASH_LEN && acc != u
    modifies mac, acc, u
    ensures Gathered(mac.prf, mac.password, salt, block, 1, acc[..], u[..])
  {
    FirstLink(mac, salt, block, acc);
    Copy(u, acc);
  }

  /** One link more. */
  method LinkOn(mac: Mac, ghost salt: seq<octet>, ghost block: nat, ghost n: nat, acc: array<octet>, u: array<octet>)
    requires IsMac(mac.prf) && acc.Length == HASH_LEN && u.Length == HASH_LEN && acc != u
    requires n >= 1 && Gathered(mac.prf, mac.password, salt, block, n, acc[..], u[..])
    modifies mac, acc, u
    ensures Gathered(mac.prf, mac.password, salt, block, n + 1, acc[..], u[..])
  {
    ghost var a, v := acc[..], u[..];
    NextLink(mac, acc, u);
    GatherNext(mac.prf, mac.password, salt, block, n, a, v);
  }

  /** One block: the chain runs in `u`, and `acc` gathers it. */
  method Block(mac: Mac, salt: seq<octet>, c: int, block: nat, acc: array<octet>, u: array<octet>)
    requires IsMac(mac.prf) && acc.Length == HASH_LEN && u.Length == HASH_LEN && acc != u
    modifies mac, acc, u
    ensures acc[..] == F(mac.prf, mac.password, salt, if c < 1 then 1 else c, block)
  {
    FirstTwice(mac, salt, block, acc, u);
    ghost var prf, password := mac.prf, mac.password;
    var i := 2;
    while i <= c
      invariant 2 <= i && (i <= c + 1 || i == 2)
      invariant Gathered(prf, password, salt, block, i - 1, acc[..], u[..])
      decreases c - i
    {
      LinkOn(mac, salt, block, i - 1, acc, u);
      i := i + 1;
    }
  }

  /** After `n` links `u` holds the last one and `acc` the exclusive or of them all. */
  ghost predicate Gathered(prf: Hmac, password: seq<octet>, salt: seq<octet>, block: nat, n: nat, acc: seq<octet>, u: seq<octet>)
    requires IsMac(prf) && n >= 1
  {
    u == U(prf, password, salt, block, n) && acc == F(prf, password, salt, n, block)
  }

  lemma GatherNext(prf: Hmac, password: seq<octet>, salt: seq<octet>, block: nat, n: nat, acc: seq<octet>, u: seq<octet>)
    requires IsMac(prf) && n >= 1 && |acc| == HASH_LEN && Gathered(prf, password, salt, block, n, acc, u)
    ensures Gathered(prf, password, salt, block, n + 1, XorAll(acc, prf(password, u)), prf(password, u))
  {
  }

  /** The loops compute the standard's function, for every input; a count below one counts as one. */
  method Pbkdf2SHA256(prf: Hmac, password: seq<octet>, salt: seq<octet>, iter: int, length: nat) returns (key: seq<octet>)
    requires IsMac(prf)
    ensures key == Pbkdf2Of(prf, password, salt, if iter < 1 then 1 else iter, length)
  {
    var mac := new Mac(prf, password);
    var blocks := BlockCount(length);
    var out: seq<octet> := [];
    var acc, u := new octet[HASH_LEN], new octet[HASH_LEN];
    for block := 1 to blocks + 1
      invariant out == Blocks(prf, password, salt, if iter < 1 then 1 else iter, block - 1)
    {
      Block(mac, salt, iter, block, acc, u);
      out := out + acc[..];
    }
    key := out[..length];
  }
}
