// Octets and their exclusive or.
module Octets {

  type octet = n: nat | n < 256

  /** Exclusive or of the lowest `k` bits. */
  function XorBits(a: nat, b: nat, k: nat): (r: nat)
    ensures k == 8 ==> r < 256
    decreases k
  {
    XorBitsBound(a, b, k);
    XorOf(a, b, k)
  }

  function XorOf(a: nat, b: nat, k: nat): nat
    decreases k
  {
    if k == 0 then 0 else (a + b) % 2 + 2 * XorOf(a / 2, b / 2, k - 1)
  }

  function Pow2(k: nat): nat {
    if k == 0 then 1 else 2 * Pow2(k - 1)
  }

  lemma {:induction false} XorBitsBound(a: nat, b: nat, k: nat)
    ensures XorOf(a, b, k) < Pow2(k)
    ensures Pow2(8) == 256
    decreases k
  {
    if k > 0 {
      XorBitsBound(a / 2, b / 2, k - 1);
    } else {
      assert Pow2(4) == 16;
    }
  }

  function Xor(a: octet, b: octet): octet {
    XorBits(a, b, 8)
  }

  lemma BitTwice(a: nat, b: nat, rest: nat)
    ensures ((a + b) % 2 + 2 * rest) / 2 == rest
    ensures ((a + b) % 2 + 2 * rest + b) % 2 == a % 2
  {
  }

  lemma {:induction false} XorOfTwice(a: nat, b: nat, k: nat)
    requires a < Pow2(k)
    ensures XorOf(XorOf(a, b, k), b, k) == a
    decreases k
  {
    if k > 0 {
      var rest := XorOf(a / 2, b / 2, k - 1);
      XorOfTwice(a / 2, b / 2, k - 1);
      BitTwice(a, b, rest);
      var x := XorOf(a, b, k);
      assert x / 2 == rest && (x + b) % 2 == a % 2;
      assert XorOf(x, b, k) == (x + b) % 2 + 2 * XorOf(x / 2, b / 2, k - 1);
    }
  }

  /** A second exclusive or takes the first one back. */
  lemma XorTwice(a: octet, b: octet)
    ensures Xor(Xor(a, b), b) == a
  {
    XorBitsBound(a, b, 8);
    XorOfTwice(a, b, 8);
  }

  function XorAll(a: seq<octet>, b: seq<octet>): (r: seq<octet>)
    requires |a| == |b|
    ensures |r| == |a| && forall i :: 0 <= i < |a| ==> r[i] == Xor(a[i], b[i])
  {
    seq(|a|, i requires 0 <= i < |a| => Xor(a[i], b[i]))
  }

  lemma XorAllTwice(a: seq<octet>, b: seq<octet>)
    requires |a| == |b|
    ensures XorAll(XorAll(a, b), b) == a
  {
    forall i | 0 <= i < |a| ensures XorAll(XorAll(a, b), b)[i] == a[i] { XorTwice(a[i], b[i]); }
  }
}
