/**
 The 64k and the 4k multipliers of crypto/gf128mul.c compute the product of GF(2^128).
 */
module Gf128Mul {
  import opened Bits
  import opened Gf128
  import opened Gf128Tables

  /** The sum that the first n bits of an index select, the last of them weighing b(p). */
  function BitSum(b: Basis, w: bits, n: nat, p: nat): Elem
    requires n <= |w|
  {
    if n == 0 then Zero(128) else Xor(Scale(w[n - 1], b(p)), BitSum(b, w, n - 1, p + 1))
  }

  lemma {:induction false} EntryIsBitSum(b: Basis, w: bits, n: nat, p: nat)
    requires n <= |w|
    ensures Entry(b, ToNat(w[..n]), p) == BitSum(b, w, n, p)
  {
    if n > 0 {
      assert w[..n][..n - 1] == w[..n - 1];
      EntryUnfold(b, ToNat(w[..n]), p);
      EntryIsBitSum(b, w, n - 1, p + 1);
    }
  }

  /** The byte of `a` that holds the coefficients 8m .. 8m + 7. */
  function ByteAt(o: Order, a: Elem, m: nat): Byte
    requires m < 16
  {
    if o.Lle? then a[8 * m..8 * m + 8] else a[120 - 8 * m..128 - 8 * m]
  }

  lemma SumStep(o: Order, a: Elem, g: Elem, n: nat)
    requires n < 128
    ensures Sum(o, a, g, n + 1) == Xor(Sum(o, a, g, n), Scale(Coef(o, a, n), MulXn(o, g, n)))
  {
  }

  lemma Shuffle(a: Elem, b: Elem, c: Elem)
    ensures Xor(Xor(a, b), c) == Xor(a, Xor(c, b))
  {
  }

  /** Partial sums of the product: s(n) is the sum over the first n coefficients of a byte. */
  type Partial = nat -> Elem

  lemma {:induction false} SumLle(w: Byte, s: Partial, k: nat, b: Basis)
    requires k <= 8 && forall n: nat :: n < 8 ==> s(n + 1) == Xor(s(n), Scale(w[n], b(7 - n)))
    ensures s(k) == Xor(s(0), BitSum(b, w, k, 8 - k))
  {
    if k == 0 {
      XorZero(s(0));
    } else {
      var n := k - 1;
      SumLle(w, s, n, b);
      assert s(n + 1) == Xor(s(n), Scale(w[n], b(7 - n)));
      Shuffle(s(0), BitSum(b, w, n, 8 - n), Scale(w[n], b(8 - k)));
    }
  }

  lemma {:induction false} SumBbe(w: Byte, s: Partial, k: nat, b: Basis)
    requires k <= 8 && forall n: nat :: n < 8 ==> s(n + 1) == Xor(s(n), Scale(w[7 - n], b(n)))
    ensures s(8) == Xor(s(k), BitSum(b, w, 8 - k, k))
    decreases 8 - k
  {
    if k == 8 {
      XorZero(s(8));
    } else {
      SumBbe(w, s, k + 1, b);
      assert s(k + 1) == Xor(s(k), Scale(w[7 - k], b(k)));
      XorAssoc(s(k), Scale(w[7 - k], b(k)), BitSum(b, w, 7 - k, k + 1));
    }
  }

  /** The coefficient 8m + n of `a` is a bit of its byte m. */
  lemma ByteCoef(o: Order, a: Elem, m: nat, n: nat)
    requires m < 16 && n < 8
    ensures Coef(o, a, 8 * m + n) == ByteAt(o, a, m)[if o.Lle? then n else 7 - n]
  {
  }

  function PartialAt(o: Order, a: Elem, g: Elem, n: nat): Elem {
    if n <= 128 then Sum(o, a, g, n) else Zero(128)
  }

  function PartialOf(o: Order, a: Elem, g: Elem, m: nat): Partial {
    (n: nat) => PartialAt(o, a, g, 8 * m + n)
  }

  lemma PartialAtStep(o: Order, a: Elem, g: Elem, n: nat)
    requires n < 128
    ensures PartialAt(o, a, g, n + 1) == Xor(PartialAt(o, a, g, n), Scale(Coef(o, a, n), MulXn(o, g, n)))
  {
    SumStep(o, a, g, n);
  }

  lemma PartialStep(o: Order, a: Elem, g: Elem, m: nat, n: nat)
    requires m < 16 && n < 8
    ensures PartialOf(o, a, g, m)(n + 1) ==
            Xor(PartialOf(o, a, g, m)(n), Scale(Coef(o, a, 8 * m + n), MulXn(o, g, 8 * m + n)))
  {
    assert 8 * m + (n + 1) == (8 * m + n) + 1;
    PartialAtStep(o, a, g, 8 * m + n);
  }

  lemma BasisAt(o: Order, g: Elem, m: nat, n: nat)
    requires n < 8
    ensures BasisOf(o, MulXn(o, g, 8 * m))(if o.Lle? then 7 - n else n) == MulXn(o, g, 8 * m + n)
  {
    MulXnAdd(o, g, 8 * m, n);
  }

  /** Eight coefficients, from s on: each contributes its multiple of a basis element. */
  ghost predicate Adds(o: Order, w: Byte, s: Partial, b: Basis, n: nat)
    requires n < 8
  {
    s(n + 1) == Xor(s(n), Scale(w[if o.Lle? then n else 7 - n], b(if o.Lle? then 7 - n else n)))
  }

  lemma ByteSum(o: Order, w: Byte, s: Partial, b: Basis)
    requires forall n: nat :: n < 8 ==> Adds(o, w, s, b, n)
    ensures s(8) == Xor(s(0), Entry(b, ToNat(w), 0))
  {
    EntryIsBitSum(b, w, 8, 0);
    assert w[..8] == w;
    if o.Lle? {
      forall n: nat | n < 8 ensures s(n + 1) == Xor(s(n), Scale(w[n], b(7 - n))) {
        assert Adds(o, w, s, b, n);
      }
      SumLle(w, s, 8, b);
    } else {
      forall n: nat | n < 8 ensures s(n + 1) == Xor(s(n), Scale(w[7 - n], b(n))) {
        assert Adds(o, w, s, b, n);
      }
      SumBbe(w, s, 0, b);
    }
  }

  lemma ByteAdds(o: Order, a: Elem, g: Elem, m: nat, n: nat)
    requires m < 16 && n < 8
    ensures Adds(o, ByteAt(o, a, m), PartialOf(o, a, g, m), BasisOf(o, MulXn(o, g, 8 * m)), n)
  {
    PartialStep(o, a, g, m, n);
    BasisAt(o, g, m, n);
    ByteCoef(o, a, m, n);
  }

  lemma AllAdds(o: Order, a: Elem, g: Elem, m: nat, s: Partial, b: Basis)
    requires m < 16 && s == PartialOf(o, a, g, m) && b == BasisOf(o, MulXn(o, g, 8 * m))
    ensures forall n: nat :: n < 8 ==> Adds(o, ByteAt(o, a, m), s, b, n)
  {
    forall n: nat | n < 8 ensures Adds(o, ByteAt(o, a, m), s, b, n) {
      ByteAdds(o, a, g, m, n);
    }
  }

  /** One byte of the factor: the table of x^(8m) g holds what it contributes. */
  lemma ByteStep(o: Order, a: Elem, g: Elem, m: nat)
    requires m < 16
    ensures PartialAt(o, a, g, 8 * m + 8) ==
            Xor(PartialAt(o, a, g, 8 * m), EntriesOf(BasisOf(o, MulXn(o, g, 8 * m)))(ToNat(ByteAt(o, a, m))))
  {
    var b, s := BasisOf(o, MulXn(o, g, 8 * m)), PartialOf(o, a, g, m);
    AllAdds(o, a, g, m, s, b);
    ByteSum(o, ByteAt(o, a, m), s, b);
  }

  // ----- the multipliers -----

  /** ap[k]: byte k of the 128-bit block in memory. */
  function MemByte(a: Elem, k: nat): Byte
    requires k < 16
  {
    a[8 * k..8 * k + 8]
  }

  /** The table index for the coefficients 8i .. 8i + 7: ap[i] or ap[15 - i]. */
  function Index(o: Order, a: Elem, i: nat): (v: nat)
    requires i < 16
    ensures v < 256
  {
    assert Pow2(8) == 256;
    ToNat(MemByte(a, if o.Lle? then i else 15 - i))
  }

  lemma IndexIsByte(o: Order, a: Elem, i: nat)
    requires i < 16
    ensures Index(o, a, i) == ToNat(ByteAt(o, a, i))
  {
  }

  /** The 16 tables of the 64k form hold the multiples of g, x^8 g, ... x^120 g. */
  ghost predicate IsTables(o: Order, g: Elem, t: seq<seq<Elem>>, n: nat) {
    |t| == n && forall i :: 0 <= i < n ==> IsTable(o, MulXn(o, g, 8 * i), t[i])
  }

  /** gf128mul_init_64k_lle and gf128mul_init_64k_bbe */
  method Init64k(o: Order, g: Elem) returns (t: seq<seq<Elem>>)
    ensures IsTables(o, g, t, 16)
  {
    var a := Init4k(o, g);
    t := [a[..]];
    var i := 1;
    while i < 16
      invariant 1 <= i <= 16 && IsTables(o, g, t, i)
    {
      ghost var was := t;
      assert IsTable(o, MulXn(o, g, 8 * (i - 1)), was[i - 1]);
      var u := Append(o, t[i - 1], g, i - 1, 8);
      t := t + [u];
      assert forall k :: 0 <= k < i ==> t[k] == was[k];
      i := i + 1;
    }
  }

  method Append(o: Order, u: seq<Elem>, ghost g: Elem, ghost i: nat, ghost m: nat) returns (t: seq<Elem>)
    requires m == 8 && IsTable(o, MulXn(o, g, 8 * i), u)
    ensures IsTable(o, MulXn(o, g, 8 * (i + 1)), t)
  {
    var a := NextTable(o, u, MulXn(o, g, 8 * i), m);
    MulXnAdd(o, g, 8 * i, m);
    assert 8 * i + m == 8 * (i + 1);
    t := a[..];
  }

  lemma LookupStep(o: Order, a: Elem, g: Elem, i: nat, t: seq<Elem>)
    requires i < 16 && IsTable(o, MulXn(o, g, 8 * i), t)
    ensures PartialAt(o, a, g, 8 * i + 8) == Xor(PartialAt(o, a, g, 8 * i), t[Index(o, a, i)])
  {
    ByteStep(o, a, g, i);
    IndexIsByte(o, a, i);
  }

  lemma FirstLookup(o: Order, a: Elem, g: Elem, t: seq<Elem>)
    requires IsTable(o, g, t)
    ensures PartialAt(o, a, g, 8) == t[Index(o, a, 0)]
  {
    assert MulXn(o, g, 8 * 0) == g;
    LookupStep(o, a, g, 0, t);
    XorZero(t[Index(o, a, 0)]);
  }

  /** The lookups of the first i bytes are summed up. */
  ghost predicate Summed(o: Order, a: Elem, g: Elem, i: nat, r: Elem) {
    r == PartialAt(o, a, g, 8 * i)
  }

  lemma SummedEnd(o: Order, a: Elem, g: Elem, i: nat, r: Elem)
    requires i == 16 && Summed(o, a, g, i, r)
    ensures r == Mul(o, a, g)
  {
    assert 8 * i == 128;
  }

  method LookupFirst(o: Order, a: Elem, i: nat, t: seq<Elem>, ghost g: Elem) returns (r: Elem)
    requires i == 0 && IsTable(o, MulXn(o, g, 8 * i), t)
    ensures Summed(o, a, g, i + 1, r)
  {
    FirstLookup(o, a, g, t);
    r := t[Index(o, a, i)];
  }

  method LookupTurn(o: Order, a: Elem, i: nat, r: Elem, t: seq<Elem>, ghost g: Elem) returns (s: Elem)
    requires i < 16 && IsTable(o, MulXn(o, g, 8 * i), t) && Summed(o, a, g, i, r)
    ensures Summed(o, a, g, i + 1, s)
  {
    LookupStep(o, a, g, i, t);
    s := Xor(r, t[Index(o, a, i)]);
    assert 8 * (i + 1) == 8 * i + 8;
  }

  /** gf128mul_64k_lle and gf128mul_64k_bbe: sixteen lookups and xors are the product. */
  method Mul64k(o: Order, a: Elem, t: seq<seq<Elem>>, ghost g: Elem) returns (r: Elem)
    requires IsTables(o, g, t, 16)
    ensures r == Mul(o, a, g)
  {
    var i := 0;
    r := LookupFirst(o, a, i, t[i], g);
    i := 1;
    while i < 16
      invariant 1 <= i <= 16 && Summed(o, a, g, i, r)
    {
      r := LookupTurn(o, a, i, r, t[i], g);
      i := i + 1;
    }
    SummedEnd(o, a, g, i, r);
  }

  lemma SelfXor(a: Elem)
    ensures Xor(a, a) == Zero(128)
  {
  }

  lemma MulXnZero(o: Order, z: Elem, n: nat)
    requires z == Zero(128)
    ensures MulXn(o, z, n) == z
  {
    SelfXor(z);
    MulXnXor(o, z, z, n);
    SelfXor(MulXn(o, z, n));
  }

  /** Multiplying an entry by x^m gives the entry of the table of x^m g. */
  lemma {:induction false} EntryShift(o: Order, b: Basis, c: Basis, v: nat, p: nat, m: nat)
    requires forall q: nat :: c(q) == MulXn(o, b(q), m)
    ensures MulXn(o, Entry(b, v, p), m) == Entry(c, v, p)
    decreases v
  {
    MulXnZero(o, Zero(128), m);
    if v > 0 {
      EntryShift(o, b, c, v / 2, p + 1, m);
      EntryUnfold(b, v, p);
      EntryUnfold(c, v, p);
      MulXnXor(o, Scale(v % 2 == 1, b(p)), Entry(b, v / 2, p + 1), m);
    }
  }

  lemma EntriesShift(o: Order, g: Elem, v: nat, m: nat)
    ensures MulXn(o, EntriesOf(BasisOf(o, g))(v), m) == EntriesOf(BasisOf(o, MulXn(o, g, m)))(v)
  {
    var b, c := BasisOf(o, g), BasisOf(o, MulXn(o, g, m));
    forall q: nat ensures c(q) == MulXn(o, b(q), m) { BasisShift(o, g, q, m); }
    EntryShift(o, b, c, v, 0, m);
  }

  /** What remains to be done after bytes 15, ... i: scale the accumulator by x^(8i) and
      add the first 8i coefficients' share. */
  ghost predicate Horner(product: Elem, o: Order, a: Elem, g: Elem, i: nat, r: Elem) {
    product == Xor(PartialAt(o, a, g, 8 * i), MulXn(o, r, 8 * i))
  }

  lemma ByteShare(o: Order, a: Elem, g: Elem, i: nat, t: seq<Elem>)
    requires i < 16 && IsTable(o, g, t)
    ensures PartialAt(o, a, g, 8 * i + 8) == Xor(PartialAt(o, a, g, 8 * i), MulXn(o, t[Index(o, a, i)], 8 * i))
  {
    ByteStep(o, a, g, i);
    IndexIsByte(o, a, i);
    EntriesShift(o, g, Index(o, a, i), 8 * i);
  }

  lemma Scaled(o: Order, r: Elem, e: Elem, n: nat, m: nat)
    ensures MulXn(o, Xor(MulXn(o, r, m), e), n) == Xor(MulXn(o, r, m + n), MulXn(o, e, n))
  {
    MulXnXor(o, MulXn(o, r, m), e, n);
    MulXnAdd(o, r, m, n);
  }

  lemma HornerValues(product: Elem, o: Order, p: Elem, q: Elem, n: nat, m: nat, r: Elem, e: Elem)
    requires product == Xor(q, MulXn(o, r, m + n)) && q == Xor(p, MulXn(o, e, n))
    ensures product == Xor(p, MulXn(o, Xor(MulXn(o, r, m), e), n))
  {
    Scaled(o, r, e, n, m);
    Shuffle(p, MulXn(o, e, n), MulXn(o, r, m + n));
  }

  lemma HornerStep(product: Elem, o: Order, a: Elem, g: Elem, i: nat, r: Elem, m: nat, t: seq<Elem>)
    requires i < 15 && m == 8 && IsTable(o, g, t) && Horner(product, o, a, g, i + 1, r)
    ensures Horner(product, o, a, g, i, Xor(MulXn(o, r, m), t[Index(o, a, i)]))
  {
    var e, n := t[Index(o, a, i)], 8 * i;
    ByteShare(o, a, g, i, t);
    assert 8 * (i + 1) == m + n;
    HornerValues(product, o, PartialAt(o, a, g, n), PartialAt(o, a, g, n + m), n, m, r, e);
  }

  lemma HornerStart(product: Elem, o: Order, a: Elem, g: Elem, i: nat, t: seq<Elem>)
    requires i == 15 && IsTable(o, g, t) && product == PartialAt(o, a, g, 128)
    ensures Horner(product, o, a, g, i, t[Index(o, a, i)])
  {
    ByteShare(o, a, g, i, t);
    assert 8 * i + 8 == 128;
  }

  lemma HornerEnd(product: Elem, o: Order, a: Elem, g: Elem, r: Elem)
    requires Horner(product, o, a, g, 0, r)
    ensures r == product
  {
    XorZero(r);
  }

  method HornerTurn(o: Order, a: Elem, i: nat, r: Elem, t: seq<Elem>, ghost g: Elem, ghost product: Elem)
    returns (s: Elem)
    requires i < 15 && IsTable(o, g, t) && Horner(product, o, a, g, i + 1, r)
    ensures Horner(product, o, a, g, i, s)
  {
    ghost var m := 8;
    s := TimesX8(o, r, m);
    HornerStep(product, o, a, g, i, r, m, t);
    s := Xor(s, t[Index(o, a, i)]);
  }

  /** gf128mul_4k_lle and gf128mul_4k_bbe: Horner's scheme in x^8 is the product. */
  method Mul4k(o: Order, a: Elem, t: seq<Elem>, ghost g: Elem) returns (r: Elem)
    requires IsTable(o, g, t)
    ensures r == Mul(o, a, g)
  {
    ghost var product := Mul(o, a, g);
    var i := 15;
    HornerStart(product, o, a, g, i, t);
    r := t[Index(o, a, i)];
    while i > 0
      invariant 0 <= i <= 15 && Horner(product, o, a, g, i, r)
    {
      i := i - 1;
      r := HornerTurn(o, a, i, r, t, g, product);
    }
    HornerEnd(product, o, a, g, r);
  }
}
