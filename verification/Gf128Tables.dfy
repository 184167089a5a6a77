/**
 The table-driven multipliers of crypto/gf128mul.c: building the 4k and 64k tables and
 multiplying with them.
 */
module Gf128Tables {
  import opened Bits
  import opened Gf128

  /** What the bit of weight 2^p of a table index contributes. */
  type Basis = nat -> Elem

  function Exponent(o: Order, p: nat): nat {
    if o.Bbe? then p else if p <= 7 then 7 - p else 0
  }

  function BasisOf(o: Order, g: Elem): Basis {
    p => MulXn(o, g, Exponent(o, p))
  }

  /** The entry for the index v * 2^p: the sum over its bits. */
  function Entry(b: Basis, v: nat, p: nat): Elem
    decreases v
  {
    if v == 0 then Zero(128) else Xor(Scale(v % 2 == 1, b(p)), Entry(b, v / 2, p + 1))
  }

  lemma XorZero(a: Elem)
    ensures Xor(a, Zero(128)) == a && Xor(Zero(128), a) == a
  {
  }

  lemma Exchange(s: Elem, b: Elem, r: Elem)
    ensures Xor(s, Xor(b, r)) == Xor(b, Xor(s, r))
  {
  }

  lemma EntryUnfold(b: Basis, v: nat, p: nat)
    ensures Entry(b, v, p) == Xor(Scale(v % 2 == 1, b(p)), Entry(b, v / 2, p + 1))
  {
    if v == 0 { XorZero(Zero(128)); }
  }

  lemma Halve(q: nat, k: nat)
    requires q > 0 && k < Pow2(q)
    ensures (Pow2(q) + k) % 2 == k % 2 && (Pow2(q) + k) / 2 == Pow2(q - 1) + k / 2 && k / 2 < Pow2(q - 1)
  {
  }

  lemma {:induction false} EntryPowStep(b: Basis, q: nat, k: nat, p: nat)
    requires q > 0 && k < Pow2(q)
    requires Entry(b, Pow2(q - 1) + k / 2, p + 1) == Xor(b(p + q), Entry(b, k / 2, p + 1))
    ensures Entry(b, Pow2(q) + k, p) == Xor(b(p + q), Entry(b, k, p))
  {
    Halve(q, k);
    EntryUnfold(b, Pow2(q) + k, p);
    EntryUnfold(b, k, p);
    Exchange(Scale(k % 2 == 1, b(p)), b(p + q), Entry(b, k / 2, p + 1));
  }

  lemma {:induction false} EntryPow(b: Basis, q: nat, k: nat, p: nat)
    requires k < Pow2(q)
    ensures Entry(b, Pow2(q) + k, p) == Xor(b(p + q), Entry(b, k, p))
    decreases q
  {
    if q == 0 {
      XorZero(b(p));
    } else {
      Halve(q, k);
      EntryPow(b, q - 1, k / 2, p + 1);
      assert p + 1 + (q - 1) == p + q;
      EntryPowStep(b, q, k, p);
    }
  }

  /** Multiplying by x^m takes the tables of g to those of x^m g. */
  lemma BasisShift(o: Order, g: Elem, p: nat, m: nat)
    ensures MulXn(o, BasisOf(o, g)(p), m) == BasisOf(o, MulXn(o, g, m))(p)
  {
    var n := Exponent(o, p);
    MulXnAdd(o, g, n, m);
    MulXnAdd(o, g, m, n);
  }

  /** All entries of a table. */
  type Entries = nat -> Elem

  function EntriesOf(b: Basis): Entries {
    v => Entry(b, v, 0)
  }

  /** Splitting off the highest bit of an index. */
  ghost predicate Additive(e: Entries) {
    e(0) == Zero(128) && forall q: nat, k: nat :: k < Pow2(q) ==> e(Pow2(q) + k) == Xor(e(Pow2(q)), e(k))
  }

  lemma EntriesPow(b: Basis, q: nat)
    ensures EntriesOf(b)(Pow2(q)) == b(q)
  {
    EntryPow(b, q, 0, 0);
    XorZero(b(q));
  }

  lemma EntriesSplit(b: Basis, q: nat, k: nat)
    requires k < Pow2(q)
    ensures EntriesOf(b)(Pow2(q) + k) == Xor(EntriesOf(b)(Pow2(q)), EntriesOf(b)(k))
  {
    EntriesPow(b, q);
    EntryPow(b, q, k, 0);
  }

  lemma EntriesAdditive(b: Basis)
    ensures Additive(EntriesOf(b))
  {
    var e := EntriesOf(b);
    forall q: nat, k: nat | k < Pow2(q) ensures e(Pow2(q) + k) == Xor(e(Pow2(q)), e(k)) {
      EntriesSplit(b, q, k);
    }
  }

  /** gf128mul_x_lle and gf128mul_x_bbe */
  method TimesX(o: Order, e: Elem) returns (r: Elem)
    ensures r == MulX(o, e)
  {
    r := X1(o, e);
    X1IsMulX(o, e);
  }

  /** gf128mul_x8_lle and gf128mul_x8_bbe */
  method TimesX8(o: Order, e: Elem, ghost m: nat) returns (r: Elem)
    requires m == 8
    ensures r == MulXn(o, e, m)
  {
    r := X8(o, e);
    X8IsMulX8(o, e, m);
  }

  /** A table is right below index n. */
  ghost predicate Right(e: Entries, t: seq<Elem>, n: nat) {
    n <= |t| && forall v :: 0 <= v < n ==> t[v] == e(v)
  }

  /** The entries for powers of two are right. */
  ghost predicate RightPowers(e: Entries, t: seq<Elem>) {
    |t| == 256 && t[0] == e(0) && forall q: nat :: Pow2(q) < 256 ==> t[Pow2(q)] == e(Pow2(q))
  }

  lemma {:induction false} PowGrows(m: nat, n: nat)
    requires m <= n
    ensures Pow2(m) <= Pow2(n)
    decreases n
  {
    if m < n { PowGrows(m, n - 1); }
  }

  lemma NotAPower(q: nat, x: nat)
    requires Pow2(q) < x < Pow2(q + 1)
    ensures forall m: nat :: Pow2(m) != x
  {
    forall m: nat ensures Pow2(m) != x {
      if m <= q { PowGrows(m, q); } else { PowGrows(q + 1, m); }
    }
  }

  /** The sums of entries for powers of two fill the rest of the table. */
  method FillSums(ghost e: Entries, t: array<Elem>)
    requires t.Length == 256 && Additive(e) && RightPowers(e, t[..])
    modifies t
    ensures Right(e, t[..], 256)
  {
    assert Pow2(0) == 1 && t[..][Pow2(0)] == e(Pow2(0));
    var j := 2;
    ghost var q := 1;
    while j < 256
      invariant j == Pow2(q) && 1 <= q <= 8 && j <= 256
      invariant RightPowers(e, t[..]) && Right(e, t[..], j)
      decreases 256 - j
    {
      DoubleFits(q);
      FillRow(e, t, j, q);
      j := j + j;
      q := q + 1;
    }
  }

  lemma DoubleFits(q: nat)
    requires 1 <= q <= 8 && Pow2(q) < 256
    ensures q <= 7 && Pow2(q + 1) <= 256
  {
    if q <= 7 { PowGrows(q + 1, 8); }
  }

  method FillRow(ghost e: Entries, t: array<Elem>, j: nat, ghost q: nat)
    requires t.Length == 256 && j == Pow2(q) && 1 < j && 2 * j <= 256
    requires Additive(e) && RightPowers(e, t[..]) && Right(e, t[..], j)
    modifies t
    ensures RightPowers(e, t[..]) && Right(e, t[..], 2 * j)
  {
    var k := 1;
    assert t[..][Pow2(q)] == e(Pow2(q));
    while k < j
      invariant 1 <= k <= j
      invariant RightPowers(e, t[..]) && Right(e, t[..], j + k)
    {
      NotAPower(q, j + k);
      ghost var before := t[..];
      assert before[j] == e(Pow2(q)) && before[k] == e(k);
      t[j + k] := Xor(t[j], t[k]);
      assert t[..] == before[j + k := e(j + k)];
      k := k + 1;
    }
  }

  lemma PowOrder(m: nat, n: nat)
    ensures m < n ==> Pow2(m) < Pow2(n)
    ensures Pow2(m) < 256 <==> m < 8
  {
    if m < n { PowGrows(m + 1, n); }
    if m < 8 { PowGrows(m, 7); } else { PowGrows(8, m); }
  }

  /** The powers with exponents in [lo, hi) are in place. */
  ghost predicate PowersIn(b: Basis, t: seq<Elem>, lo: nat, hi: nat) {
    |t| == 256 && hi <= 8 && t[0] == Zero(128) &&
    forall p: nat :: lo <= p < hi ==> Pow2(p) < 256 && t[Pow2(p)] == b(p)
  }

  lemma StorePower(b: Basis, t: seq<Elem>, lo: nat, hi: nat, p: nat, x: Elem)
    requires PowersIn(b, t, lo, hi) && p < 8 && x == b(p)
    ensures Pow2(p) < 256
    ensures p == hi ==> PowersIn(b, t[Pow2(p) := x], lo, hi + 1)
    ensures p + 1 == lo ==> PowersIn(b, t[Pow2(p) := x], p, hi)
  {
    PowOrder(p, p);
    forall r: nat | lo <= r < hi ensures Pow2(r) < 256 && (r != p ==> Pow2(r) != Pow2(p)) {
      PowOrder(r, p);
      PowOrder(p, r);
    }
  }

  lemma AllPowers(b: Basis, t: seq<Elem>)
    requires PowersIn(b, t, 0, 8)
    ensures RightPowers(EntriesOf(b), t)
  {
    forall q: nat | Pow2(q) < 256 ensures t[Pow2(q)] == EntriesOf(b)(Pow2(q)) {
      PowOrder(q, q);
      EntriesPow(b, q);
    }
  }

  lemma SmallPow(q: nat)
    ensures q <= 6 ==> Pow2(q) <= 64
  {
    if q <= 6 { PowGrows(q, 6); }
  }

  /** Neighbouring powers differ by a factor of x. */
  lemma BasisStepLle(g: Elem, p: nat)
    requires p < 7
    ensures BasisOf(Lle, g)(p) == MulX(Lle, BasisOf(Lle, g)(p + 1))
  {
    var n := 7 - p;
    MulXnStep(Lle, g, n);
    assert Exponent(Lle, p) == n && Exponent(Lle, p + 1) == n - 1;
  }

  lemma BasisStepBbe(g: Elem, p: nat)
    ensures BasisOf(Bbe, g)(p + 1) == MulX(Bbe, BasisOf(Bbe, g)(p))
  {
    MulXnStep(Bbe, g, p + 1);
  }

  /** Counting j down through the powers of two, to 0. */
  ghost predicate HalfOf(j: int, q: nat) {
    2 * j == if q > 0 then Pow2(q) else 0
  }

  lemma {:induction false} Halving(j: int, q: nat)
    requires HalfOf(j, q) && j > 0
    ensures q > 0 && j == Pow2(q - 1) && HalfOf(j / 2, q - 1)
  {
  }

  /** gf128mul_init_*_lle: t[128] = g, then t[j] = x t[2j] for j = 64, 32, ... 1. */
  method FillPowersLle(g: Elem, t: array<Elem>)
    requires t.Length == 256 && t[0] == Zero(128)
    modifies t
    ensures PowersIn(BasisOf(Lle, g), t[..], 0, 8)
  {
    ghost var b := BasisOf(Lle, g);
    assert Pow2(7) == 128;
    StorePower(b, t[..], 7, 7, 7, g);
    t[128] := g;
    var j := 64;
    ghost var q := 7;
    while j > 0
      invariant 0 <= q <= 7 && HalfOf(j, q) && PowersIn(b, t[..], q, 8)
    {
      Halving(j, q);
      assert t[..][Pow2(q)] == b(q);
      BasisStepLle(g, q - 1);
      var x := TimesX(Lle, t[j + j]);
      StorePower(b, t[..], q, 8, q - 1, x);
      t[j] := x;
      j := j / 2;
      q := q - 1;
    }
  }

  /** gf128mul_init_*_bbe: t[1] = g, then t[2j] = x t[j] for j = 1, 2, ... 64. */
  method FillPowersBbe(g: Elem, t: array<Elem>)
    requires t.Length == 256 && t[0] == Zero(128)
    modifies t
    ensures PowersIn(BasisOf(Bbe, g), t[..], 0, 8)
  {
    ghost var b := BasisOf(Bbe, g);
    assert Pow2(0) == 1;
    StorePower(b, t[..], 0, 0, 0, g);
    t[1] := g;
    var j := 1;
    ghost var q := 0;
    while j <= 64
      invariant 0 <= q <= 7 && j == Pow2(q)
      invariant PowersIn(b, t[..], 0, q + 1)
      decreases 128 - j
    {
      assert Pow2(7) == 128 && q <= 6;
      assert t[..][Pow2(q)] == b(q);
      BasisStepBbe(g, q);
      var x := TimesX(Bbe, t[j]);
      StorePower(b, t[..], 0, q + 1, q + 1, x);
      t[j + j] := x;
      j := j + j;
      q := q + 1;
    }
    SmallPow(q);
  }

  /** The table is complete: every index has the entry of the sum of its bits. */
  ghost predicate IsTable(o: Order, g: Elem, t: seq<Elem>) {
    |t| == 256 && Right(EntriesOf(BasisOf(o, g)), t, 256)
  }

  /** gf128mul_init_4k_lle and gf128mul_init_4k_bbe */
  method Init4k(o: Order, g: Elem) returns (t: array<Elem>)
    ensures fresh(t) && t.Length == 256 && IsTable(o, g, t[..])
  {
    t := new Elem[256](_ => Zero(128));
    if o.Lle? { FillPowersLle(g, t); } else { FillPowersBbe(g, t); }
    ghost var b := BasisOf(o, g);
    AllPowers(b, t[..]);
    EntriesAdditive(b);
    FillSums(EntriesOf(b), t);
  }

  /** The entries for powers of two, times x^8. */
  method ShiftPowers(o: Order, u: seq<Elem>, t: array<Elem>, ghost b: Basis, ghost c: Basis, ghost m: nat)
    requires m == 8 && |u| == 256 && t.Length == 256 && t[0] == Zero(128)
    requires PowersIn(b, u, 0, 8) && forall p: nat :: p < 8 ==> c(p) == MulXn(o, b(p), m)
    modifies t
    ensures PowersIn(c, t[..], 0, 8)
  {
    var j := 128;
    ghost var q := 8;
    assert Pow2(8) == 256;
    while j > 0
      invariant 0 <= q <= 8 && HalfOf(j, q) && PowersIn(c, t[..], q, 8)
    {
      Halving(j, q);
      ShiftPower(o, u, t, j, b, c, q - 1, m);
      j := j / 2;
      q := q - 1;
    }
  }

  method ShiftPower(o: Order, u: seq<Elem>, t: array<Elem>, j: nat, ghost b: Basis, ghost c: Basis, ghost q: nat,
                    ghost m: nat)
    requires m == 8 && q < 8 && j == Pow2(q) && t.Length == 256
    requires PowersIn(b, u, 0, 8) && c(q) == MulXn(o, b(q), m) && PowersIn(c, t[..], q + 1, 8)
    modifies t
    ensures PowersIn(c, t[..], q, 8)
  {
    var x := TimesX8(o, u[j], m);
    StorePower(c, t[..], q + 1, 8, q, x);
    t[j] := x;
  }

  lemma TablePowers(b: Basis, u: seq<Elem>)
    requires |u| == 256 && Right(EntriesOf(b), u, 256)
    ensures PowersIn(b, u, 0, 8)
  {
    forall p: nat | p < 8 ensures Pow2(p) < 256 && u[Pow2(p)] == b(p) {
      PowOrder(p, p);
      EntriesPow(b, p);
    }
  }

  /** One further table of gf128mul_init_64k: the powers of the previous one, times x^8. */
  method NextTable(o: Order, u: seq<Elem>, ghost g: Elem, ghost m: nat) returns (t: array<Elem>)
    requires m == 8 && IsTable(o, g, u)
    ensures fresh(t) && t.Length == 256 && IsTable(o, MulXn(o, g, m), t[..])
  {
    t := new Elem[256](_ => Zero(128));
    ghost var b, c := BasisOf(o, g), BasisOf(o, MulXn(o, g, m));
    TablePowers(b, u);
    forall p: nat | p < 8 ensures c(p) == MulXn(o, b(p), m) { BasisShift(o, g, p, m); }
    ShiftPowers(o, u, t, b, c, m);
    AllPowers(c, t[..]);
    EntriesAdditive(c);
    FillSums(EntriesOf(c), t);
  }
}
