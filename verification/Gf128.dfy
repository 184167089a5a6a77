/**
 Multiplication in GF(2^128) as in crypto/gf128mul.c.  An element is the 128 bits of a
 be128, most significant bit first.  The two bit orders differ in which bit is the
 coefficient of x^i: bit i for lle, bit 127 - i for bbe.
 */
module Gf128 {
  import opened Bits
  import opened Common

  type Elem = e: bits | |e| == 128 witness Zero(128)
  type Byte = b: bits | |b| == 8 witness Zero(8)

  datatype Order = Lle | Bbe

  function Pos(o: Order, i: nat): (p: nat)
    requires i < 128
    ensures p < 128
  {
    if o.Lle? then i else 127 - i
  }

  /** The coefficient of x^i. */
  function Coef(o: Order, e: Elem, i: nat): bool
    requires i < 128
  {
    e[Pos(o, i)]
  }

  lemma Same(o: Order, a: Elem, b: Elem)
    requires forall i :: 0 <= i < 128 ==> Coef(o, a, i) == Coef(o, b, i)
    ensures a == b
  {
    forall p | 0 <= p < 128 ensures a[p] == b[p] {
      assert Coef(o, a, Pos(o, p)) == Coef(o, b, Pos(o, p));
    }
  }

  /** The coefficients of x^7 + x^2 + x + 1, to which x^128 reduces. */
  predicate InR(i: int) {
    i == 0 || i == 1 || i == 2 || i == 7
  }

  /** Multiplication by x in GF(2)[x] modulo x^128 + x^7 + x^2 + x + 1. */
  function MulX(o: Order, e: Elem): Elem {
    seq(128, p requires 0 <= p < 128 =>
          var i := Pos(o, p);
          (i > 0 && Coef(o, e, i - 1)) != (Coef(o, e, 127) && InR(i)))
  }

  /** Its coefficients. */
  lemma MulXCoef(o: Order, e: Elem, i: nat)
    requires i < 128
    ensures Coef(o, MulX(o, e), i) == ((i > 0 && Coef(o, e, i - 1)) != (Coef(o, e, 127) && InR(i)))
  {
  }

  function MulXn(o: Order, e: Elem, n: nat): Elem {
    if n == 0 then e else MulX(o, MulXn(o, e, n - 1))
  }

  function Scale(b: bool, e: Elem): Elem {
    if b then e else Zero(128)
  }

  /** The sum of c_i x^i g over the coefficients c_i of a, for i < n. */
  function Sum(o: Order, a: Elem, g: Elem, n: nat): Elem
    requires n <= 128
  {
    if n == 0 then Zero(128) else Xor(Sum(o, a, g, n - 1), Scale(Coef(o, a, n - 1), MulXn(o, g, n - 1)))
  }

  /** The product, bit by bit.  For lle this is the block product of section 6.3 of
      NIST SP 800-38D. */
  function Mul(o: Order, a: Elem, g: Elem): Elem {
    Sum(o, a, g, 128)
  }

  lemma MulXXor(o: Order, a: Elem, b: Elem)
    ensures MulX(o, Xor(a, b)) == Xor(MulX(o, a), MulX(o, b))
  {
    forall i | 0 <= i < 128 ensures Coef(o, MulX(o, Xor(a, b)), i) == Coef(o, Xor(MulX(o, a), MulX(o, b)), i) {
      MulXCoef(o, Xor(a, b), i);
      MulXCoef(o, a, i);
      MulXCoef(o, b, i);
    }
    Same(o, MulX(o, Xor(a, b)), Xor(MulX(o, a), MulX(o, b)));
  }

  lemma {:induction false} MulXnXor(o: Order, a: Elem, b: Elem, n: nat)
    ensures MulXn(o, Xor(a, b), n) == Xor(MulXn(o, a, n), MulXn(o, b, n))
  {
    if n > 0 {
      MulXnXor(o, a, b, n - 1);
      MulXXor(o, MulXn(o, a, n - 1), MulXn(o, b, n - 1));
    }
  }

  lemma MulXnStep(o: Order, e: Elem, n: nat)
    requires n > 0
    ensures MulXn(o, e, n) == MulX(o, MulXn(o, e, n - 1))
  {
  }

  lemma {:induction false} MulXnAdd(o: Order, e: Elem, m: nat, n: nat)
    ensures MulXn(o, MulXn(o, e, m), n) == MulXn(o, e, m + n)
  {
    if n > 0 {
      MulXnAdd(o, e, m, n - 1);
      assert m + (n - 1) == m + n - 1;
      MulXnStep(o, e, m + n);
      MulXnStep(o, MulXn(o, e, m), n);
    }
  }

  lemma {:induction false} ScaleXor(o: Order, a: Elem, b: Elem, m: Elem, i: nat)
    requires i < 128
    ensures Scale(Coef(o, Xor(a, b), i), m) == Xor(Scale(Coef(o, a, i), m), Scale(Coef(o, b, i), m))
  {
  }

  lemma {:induction false} SumXor(o: Order, a: Elem, b: Elem, g: Elem, n: nat)
    requires n <= 128
    ensures Sum(o, Xor(a, b), g, n) == Xor(Sum(o, a, g, n), Sum(o, b, g, n))
  {
    if n > 0 {
      SumXor(o, a, b, g, n - 1);
      var m := MulXn(o, g, n - 1);
      ScaleXor(o, a, b, m, n - 1);
      XorSwap(Sum(o, a, g, n - 1), Sum(o, b, g, n - 1), Scale(Coef(o, a, n - 1), m), Scale(Coef(o, b, n - 1), m));
    }
  }

  /** The product is linear in its first factor. */
  lemma MulXor(o: Order, a: Elem, b: Elem, g: Elem)
    ensures Mul(o, Xor(a, b), g) == Xor(Mul(o, a, g), Mul(o, b, g))
  {
    SumXor(o, a, b, g, 128);
  }

  // ----- gf128mul_x and gf128mul_x8 -----

  function Nibble(d: nat): (c: bits)
    requires d < 16
    ensures |c| == 4
  {
    match d
    case 0x0 => [false, false, false, false]
    case 0x1 => [false, false, false, true]
    case 0x2 => [false, false, true, false]
    case 0x3 => [false, false, true, true]
    case 0x4 => [false, true, false, false]
    case 0x5 => [false, true, false, true]
    case 0x6 => [false, true, true, false]
    case 0x7 => [false, true, true, true]
    case 0x8 => [true, false, false, false]
    case 0x9 => [true, false, false, true]
    case 0xa => [true, false, true, false]
    case 0xb => [true, false, true, true]
    case 0xc => [true, true, false, false]
    case 0xd => [true, true, false, true]
    case 0xe => [true, true, true, false]
    case _ => [true, true, true, true]
  }

  function Hex(a: nat, b: nat, c: nat, d: nat): (r: bits)
    requires a < 16 && b < 16 && c < 16 && d < 16
    ensures |r| == 16
  {
    Nibble(a) + Nibble(b) + Nibble(c) + Nibble(d)
  }

  /** xda_lle and xda_bbe: the summand for the bit of weight 2^(7 - j) of a table index. */
  function Xda(o: Order, j: nat): (c: bits)
    requires j < 8
    ensures |c| == 16
  {
    match o
    case Lle => (
      match j
      case 0 => Hex(0xe, 0x1, 0x0, 0x0)
      case 1 => Hex(0x7, 0x0, 0x8, 0x0)
      case 2 => Hex(0x3, 0x8, 0x4, 0x0)
      case 3 => Hex(0x1, 0xc, 0x2, 0x0)
      case 4 => Hex(0x0, 0xe, 0x1, 0x0)
      case 5 => Hex(0x0, 0x7, 0x0, 0x8)
      case 6 => Hex(0x0, 0x3, 0x8, 0x4)
      case _ => Hex(0x0, 0x1, 0xc, 0x2)
    )
    case Bbe => (
      match j
      case 0 => Hex(0x4, 0x3, 0x8, 0x0)
      case 1 => Hex(0x2, 0x1, 0xc, 0x0)
      case 2 => Hex(0x1, 0x0, 0xe, 0x0)
      case 3 => Hex(0x0, 0x8, 0x7, 0x0)
      case 4 => Hex(0x0, 0x4, 0x3, 0x8)
      case 5 => Hex(0x0, 0x2, 0x1, 0xc)
      case 6 => Hex(0x0, 0x1, 0x0, 0xe)
      case _ => Hex(0x0, 0x0, 0x8, 0x7)
    )
  }

  /** gf128mul_table_lle[v] and gf128mul_table_bbe[v], for the bits b of v. */
  function Table(o: Order, b: Byte, n: nat): (c: bits)
    requires n <= 8
    ensures |c| == 16
  {
    if n == 0 then Zero(16) else Xor(Table(o, b, n - 1), if b[n - 1] then Xda(o, n - 1) else Zero(16))
  }

  /** The 16 bits of the table are where the reduced coefficients 0..15 are. */
  function Pos16(o: Order, i: nat): nat
    requires i < 16
  {
    if o.Lle? then i else 15 - i
  }

  lemma HexAt(a: nat, b: nat, c: nat, d: nat, i: nat)
    requires a < 16 && b < 16 && c < 16 && d < 16 && i < 16
    ensures Hex(a, b, c, d)[i] == if i < 4 then Nibble(a)[i] else if i < 8 then Nibble(b)[i - 4]
                                  else if i < 12 then Nibble(c)[i - 8] else Nibble(d)[i - 12]
  {
  }

  lemma XdaLleLow(j: nat, i: nat)
    requires j < 4 && i < 16
    ensures Xda(Lle, j)[Pos16(Lle, i)] == InR(i - j)
  {
    match j
    case 0 => HexAt(0xe, 0x1, 0x0, 0x0, i);
    case 1 => HexAt(0x7, 0x0, 0x8, 0x0, i);
    case 2 => HexAt(0x3, 0x8, 0x4, 0x0, i);
    case _ => HexAt(0x1, 0xc, 0x2, 0x0, i);
  }

  lemma XdaLleHigh(j: nat, i: nat)
    requires 4 <= j < 8 && i < 16
    ensures Xda(Lle, j)[Pos16(Lle, i)] == InR(i - j)
  {
    match j
    case 4 => HexAt(0x0, 0xe, 0x1, 0x0, i);
    case 5 => HexAt(0x0, 0x7, 0x0, 0x8, i);
    case 6 => HexAt(0x0, 0x3, 0x8, 0x4, i);
    case _ => HexAt(0x0, 0x1, 0xc, 0x2, i);
  }

  lemma XdaBbeLow(j: nat, i: nat)
    requires j < 4 && i < 16
    ensures Xda(Bbe, j)[Pos16(Bbe, i)] == InR(i - (7 - j))
  {
    match j
    case 0 => HexAt(0x4, 0x3, 0x8, 0x0, 15 - i);
    case 1 => HexAt(0x2, 0x1, 0xc, 0x0, 15 - i);
    case 2 => HexAt(0x1, 0x0, 0xe, 0x0, 15 - i);
    case _ => HexAt(0x0, 0x8, 0x7, 0x0, 15 - i);
  }

  lemma XdaBbeHigh(j: nat, i: nat)
    requires 4 <= j < 8 && i < 16
    ensures Xda(Bbe, j)[Pos16(Bbe, i)] == InR(i - (7 - j))
  {
    match j
    case 4 => HexAt(0x0, 0x4, 0x3, 0x8, 15 - i);
    case 5 => HexAt(0x0, 0x2, 0x1, 0xc, 15 - i);
    case 6 => HexAt(0x0, 0x1, 0x0, 0xe, 15 - i);
    case _ => HexAt(0x0, 0x0, 0x8, 0x7, 15 - i);
  }

  lemma XdaIsR(o: Order, j: nat, i: nat)
    requires j < 8 && i < 16
    ensures Xda(o, j)[Pos16(o, i)] == InR(if o.Lle? then i - j else i - (7 - j))
  {
    if o.Lle? {
      if j < 4 { XdaLleLow(j, i); } else { XdaLleHigh(j, i); }
    } else {
      if j < 4 { XdaBbeLow(j, i); } else { XdaBbeHigh(j, i); }
    }
  }

  /** The reduction of the eight highest coefficients, one step of Horner's scheme per
      multiplication by x: the coefficient of x^i after n steps. */
  ghost predicate Reduced(o: Order, e: Elem, n: nat, i: int)
    requires n <= 8
  {
    n > 0 && (Reduced(o, e, n - 1, i - 1) != (Coef(o, e, 128 - n) && InR(i)))
  }

  lemma {:induction false} ReducedSmall(o: Order, e: Elem, n: nat, i: int)
    requires n <= 8 && (i < 0 || i >= n + 7)
    ensures !Reduced(o, e, n, i)
  {
    if n > 0 { ReducedSmall(o, e, n - 1, i - 1); }
  }

  /** The coefficient of x^i after n multiplications by x. */
  ghost predicate CoefIs(o: Order, e: Elem, n: nat, i: nat) {
    n <= 8 && i < 128 ==> Coef(o, MulXn(o, e, n), i) == ((i >= n && Coef(o, e, i - n)) != Reduced(o, e, n, i))
  }

  lemma {:induction false} CoefIsNext(o: Order, e: Elem, n: nat, i: nat)
    requires n < 8 && i < 128 && CoefIs(o, e, n, 127) && (i > 0 ==> CoefIs(o, e, n, i - 1))
    ensures CoefIs(o, e, n + 1, i)
  {
    MulXnStep(o, e, n + 1);
    MulXCoef(o, MulXn(o, e, n), i);
    ReducedSmall(o, e, n, 127);
    if i == 0 { ReducedSmall(o, e, n, i - 1); }
  }

  ghost predicate CoefsAre(o: Order, e: Elem, n: nat) {
    forall i: nat :: i < 128 ==> CoefIs(o, e, n, i)
  }

  lemma {:induction false} CoefsAreNext(o: Order, e: Elem, n: nat)
    requires n < 8 && CoefsAre(o, e, n)
    ensures CoefsAre(o, e, n + 1)
  {
    var next := n + 1;
    forall i: nat | i < 128 ensures CoefIs(o, e, next, i) {
      assert CoefIs(o, e, n, 127) && (i > 0 ==> CoefIs(o, e, n, i - 1));
      CoefIsNext(o, e, n, i);
    }
  }

  lemma {:induction false} MulXnCoef(o: Order, e: Elem, n: nat, i: nat)
    requires n <= 8 && i < 128
    ensures Coef(o, MulXn(o, e, n), i) == ((i >= n && Coef(o, e, i - n)) != Reduced(o, e, n, i))
  {
    var t: nat -> bool := (n: nat) => CoefsAre(o, e, n);
    forall k: nat | k < n && CoefsAre(o, e, k) ensures CoefsAre(o, e, k + 1) { CoefsAreNext(o, e, k); }
    UpTo(t, n);
    assert CoefIs(o, e, n, i);
  }

  lemma TableStep(o: Order, b: Byte, n: nat, i: nat)
    requires n < 8 && i < 16
    ensures Table(o, b, n + 1)[Pos16(o, i)] ==
            (Table(o, b, n)[Pos16(o, i)] != (b[n] && InR(if o.Lle? then i - n else i - (7 - n))))
  {
    XdaIsR(o, n, i);
  }

  ghost predicate LleIs(e: Elem, n: nat, i: nat, all: nat)
    requires all == 8
  {
    n <= all && i < 16 ==>
      Reduced(Lle, e, all, i) == (Table(Lle, e[120..], n)[Pos16(Lle, i)] != Reduced(Lle, e, all - n, i - n))
  }

  lemma {:induction false} LleIsFirst(e: Elem, i: nat, all: nat)
    requires all == 8
    ensures LleIs(e, 0, i, all)
  {
  }

  lemma {:induction false} LleIsNext(e: Elem, n: nat, i: nat, all: nat)
    requires n < all == 8 && i < 16 && LleIs(e, n, i, all)
    ensures LleIs(e, n + 1, i, all)
  {
    TableStep(Lle, e[120..], n, i);
    assert e[120..][n] == Coef(Lle, e, 120 + n);
  }

  lemma {:induction false} TableLle(e: Elem, n: nat, i: nat, all: nat)
    requires n <= all == 8 && i < 16
    ensures LleIs(e, n, i, all)
  {
    var t: nat -> bool := (n: nat) => LleIs(e, n, i, all);
    LleIsFirst(e, i, all);
    forall k: nat | k < n && LleIs(e, k, i, all) ensures LleIs(e, k + 1, i, all) { LleIsNext(e, k, i, all); }
    UpTo(t, n);
  }

  ghost predicate BbeIs(e: Elem, n: nat, i: nat) {
    n <= 8 && i < 16 ==> Table(Bbe, e[..8], n)[Pos16(Bbe, i)] == Reduced(Bbe, e, n, i - 8 + n)
  }

  lemma {:induction false} BbeIsNext(e: Elem, n: nat, i: nat)
    requires n < 8 && i < 16 && BbeIs(e, n, i)
    ensures BbeIs(e, n + 1, i)
  {
    TableStep(Bbe, e[..8], n, i);
    assert e[..8][n] == Coef(Bbe, e, 127 - n);
  }

  lemma {:induction false} TableBbe(e: Elem, n: nat, i: nat)
    requires n <= 8 && i < 16
    ensures Table(Bbe, e[..8], n)[Pos16(Bbe, i)] == Reduced(Bbe, e, n, i - 8 + n)
  {
    var t: nat -> bool := (n: nat) => BbeIs(e, n, i);
    forall k: nat | k < n && BbeIs(e, k, i) ensures BbeIs(e, k + 1, i) { BbeIsNext(e, k, i); }
    UpTo(t, n);
  }

  /** The byte that is shifted out and indexes the table. */
  function TopByte(o: Order, e: Elem): Byte {
    if o.Lle? then e[120..] else e[..8]
  }

  lemma TableIsReduced(o: Order, e: Elem, i: nat)
    requires i < 16
    ensures Table(o, TopByte(o, e), 8)[Pos16(o, i)] == Reduced(o, e, 8, i)
  {
    if o.Lle? { TableLle(e, 8, i, 8); } else { TableBbe(e, 8, i); }
  }

  /** The word operations of gf128mul_x and gf128mul_x8: the two 64-bit words are shifted
      by n places and the table entry tt is xored in at the low end of the polynomial. */
  function ShiftIn(o: Order, e: Elem, n: nat, tt: bits): Elem
    requires n <= 64 && |tt| == 16
  {
    var a, b := e[..64], e[64..];
    if o.Lle? then
      Xor(Shr(a, n), tt + Zero(48)) + Or(Shr(b, n), Shl(a, 64 - n))
    else
      Or(Shl(a, n), Shr(b, 64 - n)) + Xor(Shl(b, n), Zero(48) + tt)
  }

  lemma ShiftInLle(e: Elem, n: nat, tt: bits, i: nat)
    requires 0 < n <= 64 && |tt| == 16 && i < 128
    ensures ShiftIn(Lle, e, n, tt)[i] == ((i >= n && e[i - n]) != (i < 16 && tt[i]))
  {
    var a, b := e[..64], e[64..];
    if i < 64 {
      assert Shr(a, n)[i] == (i >= n && e[i - n]);
    } else {
      assert Shr(b, n)[i - 64] == (i - 64 >= n && e[i - n]);
      assert Shl(a, 64 - n)[i - 64] == (i - 64 < n && e[i - n]);
    }
  }

  lemma ShiftInBbe(e: Elem, n: nat, tt: bits, p: nat)
    requires 0 < n <= 64 && |tt| == 16 && p < 128
    ensures ShiftIn(Bbe, e, n, tt)[p] == ((p + n < 128 && e[p + n]) != (p >= 112 && tt[p - 112]))
  {
    var a, b := e[..64], e[64..];
    if p >= 64 {
      assert Shl(b, n)[p - 64] == (p + n < 128 && e[p + n]);
    } else {
      assert Shl(a, n)[p] == (p + n < 64 && e[p + n]);
      assert Shr(b, 64 - n)[p] == (p + n >= 64 && e[p + n]);
    }
  }

  lemma ShiftInCoef(o: Order, e: Elem, n: nat, tt: bits, i: nat)
    requires 0 < n <= 64 && |tt| == 16 && i < 128
    ensures Coef(o, ShiftIn(o, e, n, tt), i) == ((i >= n && Coef(o, e, i - n)) != (i < 16 && tt[Pos16(o, i)]))
  {
    if o.Lle? { ShiftInLle(e, n, tt, i); } else { ShiftInBbe(e, n, tt, 127 - i); }
  }

  /** gf128mul_x8_lle and gf128mul_x8_bbe */
  function X8(o: Order, e: Elem): Elem {
    ShiftIn(o, e, 8, Table(o, TopByte(o, e), 8))
  }

  /** gf128mul_x_lle and gf128mul_x_bbe: the index is (b << 7) & 0xff or a >> 63. */
  function X1(o: Order, e: Elem): Elem {
    ShiftIn(o, e, 1, Table(o, if o.Lle? then [e[127]] + Zero(7) else Zero(7) + [e[0]], 8))
  }

  lemma {:induction false} TableOfOneBit(o: Order, b: Byte, j: nat, n: nat)
    requires j < 8 && n <= 8 && forall k :: 0 <= k < 8 && k != j ==> !b[k]
    ensures Table(o, b, n) == if j < n && b[j] then Xda(o, j) else Zero(16)
  {
    if n > 0 {
      TableOfOneBit(o, b, j, n - 1);
      XorLaws(Xda(o, j), Zero(16));
    }
  }

  /** One table lookup multiplies by x. */
  lemma X1IsMulX(o: Order, e: Elem)
    ensures X1(o, e) == MulX(o, e)
  {
    var b: Byte := if o.Lle? then [e[127]] + Zero(7) else Zero(7) + [e[0]];
    var j := if o.Lle? then 0 else 7;
    TableOfOneBit(o, b, j, 8);
    forall i | 0 <= i < 128 ensures Coef(o, X1(o, e), i) == Coef(o, MulX(o, e), i) {
      ShiftInCoef(o, e, 1, Table(o, b, 8), i);
      MulXCoef(o, e, i);
      if i < 16 { XdaIsR(o, j, i); }
    }
    Same(o, X1(o, e), MulX(o, e));
  }

  /** One table lookup multiplies by x^8. */
  lemma X8IsMulX8(o: Order, e: Elem, n: nat)
    requires n == 8
    ensures X8(o, e) == MulXn(o, e, n)
  {
    forall i | 0 <= i < 128 ensures Coef(o, X8(o, e), i) == Coef(o, MulXn(o, e, n), i) {
      ShiftInCoef(o, e, n, Table(o, TopByte(o, e), n), i);
      MulXnCoef(o, e, n, i);
      if i < 16 { TableIsReduced(o, e, i); } else { ReducedSmall(o, e, n, i); }
    }
    Same(o, X8(o, e), MulXn(o, e, n));
  }
}
