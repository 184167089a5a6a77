/**
 Machine words as bit sequences, most significant bit first.  Concatenating words is
 concatenating sequences, and every bitwise operation acts position by position.
 */
module Bits {

  type bits = seq<bool>

  function Zero(n: nat): (r: bits)
    ensures |r| == n
    ensures forall i :: 0 <= i < n ==> !r[i]
  {
    seq(n, i => false)
  }

  function Xor(a: bits, b: bits): (r: bits)
    requires |a| == |b|
    ensures |r| == |a|
    ensures forall i :: 0 <= i < |a| ==> r[i] == (a[i] != b[i])
  {
    seq(|a|, i requires 0 <= i < |a| => a[i] != b[i])
  }

  function And(a: bits, b: bits): (r: bits)
    requires |a| == |b|
    ensures |r| == |a|
    ensures forall i :: 0 <= i < |a| ==> r[i] == (a[i] && b[i])
  {
    seq(|a|, i requires 0 <= i < |a| => a[i] && b[i])
  }

  function Or(a: bits, b: bits): (r: bits)
    requires |a| == |b|
    ensures |r| == |a|
    ensures forall i :: 0 <= i < |a| ==> r[i] == (a[i] || b[i])
  {
    seq(|a|, i requires 0 <= i < |a| => a[i] || b[i])
  }

  function Not(a: bits): (r: bits)
    ensures |r| == |a|
    ensures forall i :: 0 <= i < |a| ==> r[i] == !a[i]
  {
    seq(|a|, i requires 0 <= i < |a| => !a[i])
  }

  /** a << n and a >> n on unsigned words. */
  function Shl(a: bits, n: nat): (r: bits)
    requires n <= |a|
    ensures |r| == |a|
  {
    a[n..] + Zero(n)
  }

  function Shr(a: bits, n: nat): (r: bits)
    requires n <= |a|
    ensures |r| == |a|
  {
    Zero(n) + a[..|a| - n]
  }

  /** (a << n) + (b >> (width - n)): the summands have no bit in common. */
  function Funnel(a: bits, b: bits, n: nat): (r: bits)
    requires |a| == |b| && n <= |a|
    ensures r == a[n..] + b[..n]
  {
    var r := Or(Shl(a, n), Shr(b, |a| - n));
    assert forall i :: 0 <= i < |a| ==> r[i] == (a[n..] + b[..n])[i];
    r
  }

  /** Rotation of one word; by Funnel it is (a << n) + (a >> (width - n)). */
  function RotateLeft(a: bits, n: nat): (r: bits)
    requires n <= |a|
    ensures |r| == |a|
  {
    a[n..] + a[..n]
  }

  /** The low `width` bits of `n`. */
  function OfNat(n: nat, width: nat): (r: bits)
    ensures |r| == width
  {
    if width == 0 then [] else OfNat(n / 2, width - 1) + [n % 2 == 1]
  }

  function Pow2(n: nat): (r: nat)
    ensures r > 0
  {
    if n == 0 then 1 else 2 * Pow2(n - 1)
  }

  /** The number that the bits stand for. */
  function ToNat(a: bits): (r: nat)
    ensures r < Pow2(|a|)
  {
    if a == [] then 0 else 2 * ToNat(a[..|a| - 1]) + if a[|a| - 1] then 1 else 0
  }

  lemma AndXor(a: bits, b: bits, k: bits)
    requires |a| == |b| == |k|
    ensures And(Xor(a, b), k) == Xor(And(a, k), And(b, k))
  {
  }

  lemma OrXor(a: bits, b: bits, k: bits)
    requires |a| == |b| == |k|
    ensures Or(Xor(a, b), k) == Xor(Or(a, k), And(b, Not(k)))
  {
  }

  lemma RotateXor(a: bits, b: bits, n: nat)
    requires |a| == |b| && n <= |a|
    ensures RotateLeft(Xor(a, b), n) == Xor(RotateLeft(a, n), RotateLeft(b, n))
  {
  }

  lemma XorSwap(a: bits, b: bits, c: bits, d: bits)
    requires |a| == |b| == |c| == |d|
    ensures Xor(Xor(a, b), Xor(c, d)) == Xor(Xor(a, c), Xor(b, d))
  {
  }

  lemma XorLaws(a: bits, b: bits)
    requires |a| == |b|
    ensures Xor(a, b) == Xor(b, a) && Xor(Xor(a, b), b) == a
  {
  }

  lemma XorAssoc(a: bits, b: bits, c: bits)
    requires |a| == |b| == |c|
    ensures Xor(Xor(a, b), c) == Xor(a, Xor(b, c))
  {
  }
}
