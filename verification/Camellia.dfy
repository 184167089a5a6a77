/**
 Camellia with a 128-bit key: the plain cipher of RFC 3713 (sections 2.2, 2.3.1 and
 2.4), and the pieces of the optimised form of crypto/camellia.c, for arbitrary S-boxes.
 */
module Camellia {
  import opened Bits

  type Byte = b: bits | |b| == 8 witness Zero(8)
  type Word = w: bits | |w| == 32 witness Zero(32)

  /** A 64-bit quantity as the two words the program works on. */
  datatype Half = Half(l: Word, r: Word)
  datatype Block = Block(d1: Half, d2: Half)
  datatype SBoxes = SBoxes(s1: Byte -> Byte, s2: Byte -> Byte, s3: Byte -> Byte, s4: Byte -> Byte)

  function X(a: Half, b: Half): Half {
    Half(Xor(a.l, b.l), Xor(a.r, b.r))
  }

  function Join(a: Byte, b: Byte, c: Byte, d: Byte): Word {
    a + b + c + d
  }

  // ----- RFC 3713 -----

  /** Section 2.4.1: the linear layer of the F-function on bytes t1..t8. */
  function P(t1: Byte, t2: Byte, t3: Byte, t4: Byte, t5: Byte, t6: Byte, t7: Byte, t8: Byte): Half {
    Half(Join(X6(t1, t3, t4, t6, t7, t8), X6(t1, t2, t4, t5, t7, t8), X6(t1, t2, t3, t5, t6, t8),
              X6(t2, t3, t4, t5, t6, t7)),
         Join(X5(t1, t2, t6, t7, t8), X5(t2, t3, t5, t7, t8), X5(t3, t4, t5, t6, t8), X5(t1, t4, t5, t6, t7)))
  }

  function X5(a: Byte, b: Byte, c: Byte, d: Byte, e: Byte): Byte {
    Xor(Xor(Xor(Xor(a, b), c), d), e)
  }

  function X6(a: Byte, b: Byte, c: Byte, d: Byte, e: Byte, f: Byte): Byte {
    Xor(X5(a, b, c, d, e), f)
  }

  /** Section 2.4.1: the F-function, of the input xored with the subkey. */
  function F(sb: SBoxes, v: Half): Half {
    P(sb.s1(v.l[..8]), sb.s2(v.l[8..16]), sb.s3(v.l[16..24]), sb.s4(v.l[24..]),
      sb.s2(v.r[..8]), sb.s3(v.r[8..16]), sb.s4(v.r[16..24]), sb.s1(v.r[24..]))
  }

  /** Sections 2.4.2 and 2.4.3: the FL-function and its inverse. */
  function Fl(x: Half, k: Half): Half {
    var r := Xor(x.r, RotateLeft(And(x.l, k.l), 1));
    Half(Xor(x.l, Or(r, k.r)), r)
  }

  function FlInv(y: Half, k: Half): Half {
    var l := Xor(y.l, Or(y.r, k.r));
    Half(l, Xor(y.r, RotateLeft(And(l, k.l), 1)))
  }

  /** The rounds, for any function of 64-bit quantities in the place of F. */
  type Round = Half -> Half

  /** Two rounds of section 2.3.1. */
  function TwoRounds(f: Round, d: Block, k: Half, k': Half): Block {
    var d2 := X(d.d2, f(X(d.d1, k)));
    Block(X(d.d1, f(X(d2, k'))), d2)
  }

  function Rounds(f: Round, d: Block, k: seq<Half>): Block
    decreases |k|
  {
    if |k| < 2 then d else Rounds(f, TwoRounds(f, d, k[0], k[1]), k[2..])
  }

  function FlLayer(d: Block, k: Half, k': Half): Block {
    Block(Fl(d.d1, k), FlInv(d.d2, k'))
  }

  /** Groups of six rounds with the FL layer between them: six round keys, two FL keys,
      six round keys and so on. */
  function Groups(f: Round, d: Block, k: seq<Half>): Block
    decreases |k|
  {
    if |k| < 8 then Rounds(f, d, k) else Groups(f, FlLayer(Rounds(f, d, k[..6]), k[6], k[7]), k[8..])
  }

  /** Section 2.3.1, on the subkeys kw1, kw2, k1..k6, ke1, ke2, k7..k12, ke3, ke4,
      k13..k18, kw3, kw4 in this order. */
  function Encrypt(f: Round, k: seq<Half>, m: Block): Block
    requires |k| == 26
  {
    var d := Groups(f, Block(X(m.d1, k[0]), X(m.d2, k[1])), k[2..24]);
    Block(X(d.d2, k[24]), X(d.d1, k[25]))
  }

  function Sigma(i: nat): Half
    requires 1 <= i <= 4
  {
    match i
    case 1 => Half(OfNat(0xA09E667F, 32), OfNat(0x3BCC908B, 32))
    case 2 => Half(OfNat(0xB67AE858, 32), OfNat(0x4CAA73B2, 32))
    case 3 => Half(OfNat(0xC6EF372F, 32), OfNat(0xE94F82BE, 32))
    case _ => Half(OfNat(0x54FF53A5, 32), OfNat(0xF1D36F1C, 32))
  }

  type Key = k: bits | |k| == 128 witness Zero(128)

  /** The upper and the lower 64 bits of KL or KA, rotated left. */
  function Upper(k: Key, n: nat): Half
    requires n <= 128
  {
    var r := RotateLeft(k, n);
    Half(r[..32], r[32..64])
  }

  function Lower(k: Key, n: nat): Half
    requires n <= 128
  {
    var r := RotateLeft(k, n);
    Half(r[64..96], r[96..])
  }

  function Concat(b: Block): Key {
    b.d1.l + b.d1.r + b.d2.l + b.d2.r
  }

  /** Section 2.2: KA from KL, with KR = 0. */
  function DeriveKA(f: Round, kl: Key): Key {
    var d := TwoRounds(f, Block(Upper(kl, 0), Lower(kl, 0)), Sigma(1), Sigma(2));
    Concat(TwoRounds(f, Block(X(d.d1, Upper(kl, 0)), X(d.d2, Lower(kl, 0))), Sigma(3), Sigma(4)))
  }

  /** Section 2.2: the subkeys for a 128-bit key. */
  function Schedule(kl: Key, ka: Key): (k: seq<Half>)
    ensures |k| == 26
  {
    [ Upper(kl, 0), Lower(kl, 0), Upper(ka, 0), Lower(ka, 0), Upper(kl, 15), Lower(kl, 15),
      Upper(ka, 15), Lower(ka, 15), Upper(ka, 30), Lower(ka, 30), Upper(kl, 45), Lower(kl, 45),
      Upper(ka, 45), Lower(kl, 60), Upper(ka, 60), Lower(ka, 60), Upper(kl, 77), Lower(kl, 77),
      Upper(kl, 94), Lower(kl, 94), Upper(ka, 94), Lower(ka, 94), Upper(kl, 111), Lower(kl, 111),
      Upper(ka, 111), Lower(ka, 111) ]
  }

  // ----- camellia.c -----

  function Sp1110(sb: SBoxes, x: Byte): Word { var t := sb.s1(x); Join(t, t, t, Zero(8)) }
  function Sp0222(sb: SBoxes, x: Byte): Word { var t := sb.s2(x); Join(Zero(8), t, t, t) }
  function Sp3033(sb: SBoxes, x: Byte): Word { var t := sb.s3(x); Join(t, Zero(8), t, t) }
  function Sp4404(sb: SBoxes, x: Byte): Word { var t := sb.s4(x); Join(t, t, Zero(8), t) }

  /** The last half of the P-function: yl = il ^ ir, yr = RR8(il) ^ il ^ ir. */
  function LastHalf(x: Half): Half {
    var s := Xor(x.l, x.r);
    Half(s, Xor(RotateLeft(x.l, 24), s))
  }

  /** What CAMELLIA_ROUNDSM and CAMELLIA_F look up in the tables for input `x`. */
  function Lookup(sb: SBoxes, x: Half): Half {
    Half(Xor(Xor(Xor(Sp1110(sb, x.l[..8]), Sp0222(sb, x.l[8..16])), Sp3033(sb, x.l[16..24])), Sp4404(sb, x.l[24..])),
         Xor(Xor(Xor(Sp1110(sb, x.r[24..]), Sp0222(sb, x.r[..8])), Sp3033(sb, x.r[8..16])), Sp4404(sb, x.r[16..24])))
  }

  lemma XorJoin(a: Byte, b: Byte, c: Byte, d: Byte, e: Byte, f: Byte, g: Byte, h: Byte)
    ensures Xor(Join(a, b, c, d), Join(e, f, g, h)) == Join(Xor(a, e), Xor(b, f), Xor(c, g), Xor(d, h))
  {
  }

  /** The four tables, xored, byte by byte. */
  lemma TablesJoin(a: Byte, b: Byte, c: Byte, d: Byte)
    ensures Xor(Xor(Xor(Join(a, a, a, Zero(8)), Join(Zero(8), b, b, b)), Join(c, Zero(8), c, c)),
                Join(d, d, Zero(8), d))
            == Join(Xor(Xor(a, c), d), Xor(Xor(a, b), d), Xor(Xor(a, b), c), Xor(Xor(b, c), d))
  {
  }

  lemma RotateJoin(a: Byte, b: Byte, c: Byte, d: Byte)
    ensures RotateLeft(Join(a, b, c, d), 24) == Join(d, a, b, c)
  {
  }

  /** The bytes of the linear layer, as the program sums them up. */
  lemma SumBytes(a: Byte, b: Byte, c: Byte, d: Byte, e: Byte, f: Byte)
    ensures Xor(Xor(Xor(a, b), c), Xor(Xor(d, e), f)) == X6(a, b, c, e, f, d) == X6(a, b, c, d, e, f)
  {
  }

  lemma SpMatchesP(t1: Byte, t2: Byte, t3: Byte, t4: Byte, t5: Byte, t6: Byte, t7: Byte, t8: Byte)
    ensures LastHalf(Half(Join(Xor(Xor(t1, t3), t4), Xor(Xor(t1, t2), t4), Xor(Xor(t1, t2), t3), Xor(Xor(t2, t3), t4)),
                          Join(Xor(Xor(t8, t6), t7), Xor(Xor(t8, t5), t7), Xor(Xor(t8, t5), t6), Xor(Xor(t5, t6), t7))))
            == P(t1, t2, t3, t4, t5, t6, t7, t8)
  {
    var a, b, c, d := Xor(Xor(t1, t3), t4), Xor(Xor(t1, t2), t4), Xor(Xor(t1, t2), t3), Xor(Xor(t2, t3), t4);
    var e, f, g, h := Xor(Xor(t8, t6), t7), Xor(Xor(t8, t5), t7), Xor(Xor(t8, t5), t6), Xor(Xor(t5, t6), t7);
    RotateJoin(a, b, c, d);
    XorJoin(a, b, c, d, e, f, g, h);
    SumBytes(t1, t3, t4, t8, t6, t7);
    SumBytes(t1, t2, t4, t8, t5, t7);
    SumBytes(t1, t2, t3, t8, t5, t6);
    SumBytes(t2, t3, t4, t5, t6, t7);
    XorJoin(d, a, b, c, Xor(a, e), Xor(b, f), Xor(c, g), Xor(d, h));
    assert Xor(d, Xor(a, e)) == X5(t1, t2, t6, t7, t8);
    assert Xor(a, Xor(b, f)) == X5(t2, t3, t5, t7, t8);
    assert Xor(b, Xor(c, g)) == X5(t3, t4, t5, t6, t8);
    assert Xor(c, Xor(d, h)) == X5(t1, t4, t5, t6, t7);
  }

  /** The tables and the last half of P compute the F-function of the standard. */
  lemma LookupIsF(sb: SBoxes, v: Half)
    ensures LastHalf(Lookup(sb, v)) == F(sb, v)
  {
    var t1, t2, t3, t4 := sb.s1(v.l[..8]), sb.s2(v.l[8..16]), sb.s3(v.l[16..24]), sb.s4(v.l[24..]);
    var t5, t6, t7, t8 := sb.s2(v.r[..8]), sb.s3(v.r[8..16]), sb.s4(v.r[16..24]), sb.s1(v.r[24..]);
    TablesJoin(t1, t2, t3, t4);
    TablesJoin(t8, t5, t6, t7);
    SpMatchesP(t1, t2, t3, t4, t5, t6, t7, t8);
  }

  /** A key moved through FL or FLINV: xl ^= xr & ~kr; xr ^= RL1(xl & kl). */
  function Move(x: Half, k: Half): Half {
    var l := Xor(x.l, And(x.r, Not(k.r)));
    Half(l, Xor(x.r, RotateLeft(And(l, k.l), 1)))
  }

  lemma FlInvMove(d: Half, a: Half, k: Half)
    ensures FlInv(X(d, a), k) == X(FlInv(d, k), Move(a, k))
  {
    var m, e := Move(a, k), FlInv(d, k);
    OrXor(d.r, a.r, k.r);
    XorSwap(d.l, a.l, Or(d.r, k.r), And(a.r, Not(k.r)));
    AndXor(e.l, m.l, k.l);
    RotateXor(And(e.l, k.l), And(m.l, k.l), 1);
    XorSwap(d.r, a.r, RotateLeft(And(e.l, k.l), 1), RotateLeft(And(m.l, k.l), 1));
  }

  lemma MoveLinear(a: Half, b: Half, k: Half)
    ensures Move(X(a, b), k) == X(Move(a, k), Move(b, k))
  {
    var m, n := Move(a, k), Move(b, k);
    AndXor(a.r, b.r, Not(k.r));
    XorSwap(a.l, b.l, And(a.r, Not(k.r)), And(b.r, Not(k.r)));
    AndXor(m.l, n.l, k.l);
    RotateXor(And(m.l, k.l), And(n.l, k.l), 1);
    XorSwap(a.r, b.r, RotateLeft(And(m.l, k.l), 1), RotateLeft(And(n.l, k.l), 1));
  }

  lemma FlInvFl(d: Half, k: Half)
    ensures FlInv(Fl(d, k), k) == d && Fl(FlInv(d, k), k) == d
  {
    var e, g := Fl(d, k), FlInv(d, k);
    XorLaws(d.l, Or(e.r, k.r));
    XorLaws(d.r, RotateLeft(And(d.l, k.l), 1));
    XorLaws(d.l, Or(d.r, k.r));
    XorLaws(d.r, RotateLeft(And(g.l, k.l), 1));
  }

  lemma FlMove(d: Half, b: Half, k: Half)
    ensures Fl(X(d, Move(b, k)), k) == X(Fl(d, k), b)
  {
    FlInvFl(d, k);
    FlInvMove(Fl(d, k), b, k);
    FlInvFl(X(Fl(d, k), b), k);
  }

  // ----- the optimised form -----

  /** A round with the key added behind F, as CAMELLIA_ROUNDSM does: the table entry `t`
      goes through the last half of P together with the looked up words. */
  function FastRound(f: Round, p: Round, x: Half, t: Half, y: Half): Half {
    X(y, X(f(x), p(t)))
  }

  function FastTwo(f: Round, p: Round, o: Block, t: Half, t': Half): Block {
    var d2 := FastRound(f, p, o.d1, t, o.d2);
    Block(FastRound(f, p, d2, t', o.d1), d2)
  }

  function FastRounds(f: Round, p: Round, o: Block, e: seq<Half>): Block
    decreases |e|
  {
    if |e| < 2 then o else FastRounds(f, p, FastTwo(f, p, o, e[0], e[1]), e[2..])
  }

  function FastGroups(f: Round, p: Round, o: Block, e: seq<Half>): Block
    decreases |e|
  {
    if |e| < 8 then FastRounds(f, p, o, e)
    else FastGroups(f, p, FlLayer(FastRounds(f, p, o, e[..6]), e[6], e[7]), e[8..])
  }

  /** The optimised cipher on the table entries e[0], e[2..24] and e[24]; e[1] is
      not used. */
  function FastEncrypt(f: Round, p: Round, e: seq<Half>, m: Block): Block
    requires |e| == 25
  {
    var o := FastGroups(f, p, Block(X(m.d1, e[0]), m.d2), e[2..24]);
    Block(X(o.d2, e[24]), o.d1)
  }

  function XB(d: Block, x: Half, y: Half): Block {
    Block(X(d.d1, x), X(d.d2, y))
  }

  lemma XLaws(a: Half, b: Half)
    ensures X(a, b) == X(b, a) && X(X(a, b), b) == a
  {
    XorLaws(a.l, b.l);
    XorLaws(a.r, b.r);
  }

  lemma XAssoc(a: Half, b: Half, c: Half)
    ensures X(X(a, b), c) == X(a, X(b, c))
  {
    XorAssoc(a.l, b.l, c.l);
    XorAssoc(a.r, b.r, c.r);
  }

  /** If both halves carry the next round keys already, two fast rounds do two plain
      rounds and leave the halves with new offsets. */
  lemma TwoRoundsEqual(f: Round, p: Round, d: Block, k: Half, k': Half, y: Half, z: Half, t: Half, t': Half)
    requires p(t) == X(y, k') && p(t') == X(k, z)
    ensures FastTwo(f, p, XB(d, k, y), t, t') == XB(TwoRounds(f, d, k, k'), z, k')
  {
    RoundEqual(f, p, d.d1, d.d2, k, y, k', t);
    RoundEqual(f, p, X(d.d2, f(X(d.d1, k))), d.d1, k', k, z, t');
  }

  /** One round takes the offset `y` of its target to `z`. */
  lemma RoundEqual(f: Round, p: Round, x: Half, d: Half, k: Half, y: Half, z: Half, t: Half)
    requires p(t) == X(y, z)
    ensures FastRound(f, p, X(x, k), t, X(d, y)) == X(X(d, f(X(x, k))), z)
  {
    Regroup(d, y, f(X(x, k)), X(y, z));
    XorDifference(y, z);
  }

  lemma Regroup(a: Half, b: Half, c: Half, d: Half)
    ensures X(X(a, b), X(c, d)) == X(X(a, c), X(b, d))
  {
    XorSwap(a.l, b.l, c.l, d.l);
    XorSwap(a.r, b.r, c.r, d.r);
  }

  /** The keys of fast rounds: each is the difference of two round keys.  `y` is what
      the right half carries on entry and `z` what the left half shall carry at the
      end. */
  ghost predicate Differences(p: Round, k: seq<Half>, e: seq<Half>, y: Half, z: Half) {
    && |k| == |e| && |k| >= 2
    && p(e[0]) == X(y, k[1])
    && (forall i :: 1 <= i < |k| - 1 ==> p(e[i]) == X(k[i - 1], k[i + 1]))
    && p(e[|k| - 1]) == X(k[|k| - 2], z)
  }

  lemma XorDifference(a: Half, b: Half)
    ensures X(a, X(a, b)) == b
  {
    XAssoc(a, a, b);
    XLaws(a, b);
    XLaws(b, X(a, a));
    XAssoc(b, a, a);
    XLaws(b, a);
  }

  lemma {:induction false} RoundsEqual(f: Round, p: Round, d: Block, k: seq<Half>, e: seq<Half>, y: Half, z: Half,
                                       n: nat)
    requires |k| == 2 * n && Differences(p, k, e, y, z)
    ensures FastRounds(f, p, XB(d, k[0], y), e) == XB(Rounds(f, d, k), z, k[|k| - 1])
    decreases n
  {
    if n == 1 {
      TwoRoundsEqual(f, p, d, k[0], k[1], y, z, e[0], e[1]);
    } else {
      assert p(e[1]) == X(k[0], k[2]);
      TwoRoundsEqual(f, p, d, k[0], k[1], y, k[2], e[0], e[1]);
      assert Differences(p, k[2..], e[2..], k[1], z);
      RoundsEqual(f, p, TwoRounds(f, d, k[0], k[1]), k[2..], e[2..], k[1], z, n - 1);
    }
  }

  /** The keys of all groups.  Where a group ends, the left half carries the first key
      of the next group, moved back through FL, and the last key of this group comes
      through FLINV on the right. */
  ghost predicate AllDifferences(p: Round, k: seq<Half>, e: seq<Half>, y: Half, z: Half)
    requires |k| == |e|
  {
    if |k| <= 8 then
      |k| == 6 && Differences(p, k, e, y, z)
    else
      && Differences(p, k[..6], e[..6], y, Move(k[8], k[6]))
      && e[6] == k[6] && e[7] == k[7]
      && AllDifferences(p, k[8..], e[8..], Move(k[5], k[7]), z)
  }

  /** The table entries `e` of the optimised form belong to the subkeys `k` of the
      standard: the whitening keys kw2 and kw4 are gone, and every other entry stands
      for the difference of two round keys. */
  ghost predicate Absorbed(p: Round, k: seq<Half>, e: seq<Half>) {
    && |k| == 26 && |e| == 25
    && e[0] == X(k[0], k[2])
    && AllDifferences(p, k[2..24], e[2..24], k[1], k[25])
    && e[24] == X(k[23], k[24])
  }

  lemma FlLayerEqual(d: Block, k: Half, k': Half, z: Half, y: Half)
    ensures FlLayer(XB(d, Move(z, k), y), k, k') == XB(FlLayer(d, k, k'), z, Move(y, k'))
  {
    FlMove(d.d1, z, k);
    FlInvMove(d.d2, y, k');
  }

  /** One group and the layer behind it. */
  lemma GroupEqual(f: Round, p: Round, d: Block, k: seq<Half>, e: seq<Half>, y: Half)
    requires |k| == |e| && |k| > 8 && Differences(p, k[..6], e[..6], y, Move(k[8], k[6]))
    ensures FlLayer(FastRounds(f, p, XB(d, k[0], y), e[..6]), k[6], k[7])
            == XB(FlLayer(Rounds(f, d, k[..6]), k[6], k[7]), k[8], Move(k[5], k[7]))
  {
    RoundsEqual(f, p, d, k[..6], e[..6], y, Move(k[8], k[6]), 3);
    FlLayerEqual(Rounds(f, d, k[..6]), k[6], k[7], k[8], k[5]);
  }

  lemma {:induction false} GroupsEqual(f: Round, p: Round, d: Block, k: seq<Half>, e: seq<Half>, y: Half, z: Half)
    requires |k| == |e| && AllDifferences(p, k, e, y, z)
    ensures FastGroups(f, p, XB(d, k[0], y), e) == XB(Groups(f, d, k), z, k[|k| - 1])
    decreases |k|
  {
    if |k| == 6 {
      RoundsEqual(f, p, d, k, e, y, z, 3);
    } else {
      GroupEqual(f, p, d, k, e, y);
      GroupsEqual(f, p, FlLayer(Rounds(f, d, k[..6]), k[6], k[7]), k[8..], e[8..], Move(k[5], k[7]), z);
    }
  }

  /** The optimised form is the cipher of the standard. */
  lemma FastEncryptIsEncrypt(f: Round, p: Round, k: seq<Half>, e: seq<Half>, m: Block)
    requires Absorbed(p, k, e)
    ensures FastEncrypt(f, p, e, m) == Encrypt(f, k, m)
  {
    var d := Block(X(m.d1, k[0]), X(m.d2, k[1]));
    assert Block(X(m.d1, e[0]), m.d2) == XB(d, k[2], k[1]) by {
      XAssoc(m.d1, k[0], k[2]);
      XLaws(m.d2, k[1]);
    }
    GroupsEqual(f, p, d, k[2..24], e[2..24], k[1], k[25]);
    var g := Groups(f, d, k[2..24]);
    assert X(X(g.d2, k[23]), e[24]) == X(g.d2, k[24]) by {
      XAssoc(g.d2, k[23], e[24]);
      XorDifference(k[23], k[24]);
    }
  }

  // ----- decryption -----

  function Reverse(k: seq<Half>): (r: seq<Half>)
    ensures |r| == |k|
    ensures forall i :: 0 <= i < |k| ==> r[i] == k[|k| - 1 - i]
  {
    seq(|k|, i requires 0 <= i < |k| => k[|k| - 1 - i])
  }

  /** camellia_decrypt128: the same steps with the subkeys in reverse. */
  function FastDecrypt(f: Round, p: Round, e: seq<Half>, m: Block): Block
    requires |e| == 25
  {
    var o := FastGroups(f, p, Block(X(m.d1, e[24]), m.d2), Reverse(e[2..24]));
    Block(X(o.d2, e[0]), o.d1)
  }

  function Swap(d: Block): Block {
    Block(d.d2, d.d1)
  }

  lemma TwoInverse(f: Round, p: Round, o: Block, t: Half, t': Half)
    ensures FastTwo(f, p, Swap(FastTwo(f, p, o, t, t')), t', t) == Swap(o)
  {
    var q := FastTwo(f, p, o, t, t');
    XLaws(o.d1, X(f(q.d2), p(t')));
    XLaws(o.d2, X(f(o.d1), p(t)));
  }

  lemma {:induction false} RoundsConcat(f: Round, p: Round, o: Block, e: seq<Half>, n: nat, t: Half, t': Half)
    requires |e| == 2 * n
    ensures FastRounds(f, p, o, e + [t, t']) == FastTwo(f, p, FastRounds(f, p, o, e), t, t')
    decreases n
  {
    var w := e + [t, t'];
    if n > 0 {
      assert w[2..] == e[2..] + [t, t'];
      RoundsConcat(f, p, FastTwo(f, p, o, e[0], e[1]), e[2..], n - 1, t, t');
    }
  }

  lemma {:induction false} RoundsInverse(f: Round, p: Round, o: Block, e: seq<Half>, n: nat)
    requires |e| == 2 * n
    ensures FastRounds(f, p, Swap(FastRounds(f, p, o, e)), Reverse(e)) == Swap(o)
    decreases n
  {
    if n > 0 {
      var q := FastTwo(f, p, o, e[0], e[1]);
      RoundsInverse(f, p, q, e[2..], n - 1);
      assert Reverse(e) == Reverse(e[2..]) + [e[1], e[0]];
      RoundsConcat(f, p, Swap(FastRounds(f, p, q, e[2..])), Reverse(e[2..]), n - 1, e[1], e[0]);
      TwoInverse(f, p, o, e[0], e[1]);
    }
  }

  lemma LayerInverse(o: Block, k: Half, k': Half)
    ensures FlLayer(Swap(FlLayer(o, k, k')), k', k) == Swap(o)
  {
    FlInvFl(o.d1, k);
    FlInvFl(o.d2, k');
  }

  /** Groups behind groups: the last one can be split off. */
  lemma {:induction false} GroupsConcat(f: Round, p: Round, o: Block, e: seq<Half>, n: nat, k: Half, k': Half,
                                        r: seq<Half>)
    requires |e| == 8 * n + 6 && |r| == 6
    ensures FastGroups(f, p, o, e + [k, k'] + r) == FastRounds(f, p, FlLayer(FastGroups(f, p, o, e), k, k'), r)
    decreases n
  {
    var w := e + [k, k'] + r;
    assert w[..6] == e[..6];
    if n == 0 {
      assert w[..6] == e && w[8..] == r;
    } else {
      assert w[8..] == e[8..] + [k, k'] + r;
      GroupsConcat(f, p, FlLayer(FastRounds(f, p, o, e[..6]), e[6], e[7]), e[8..], n - 1, k, k', r);
    }
  }

  lemma {:induction false} GroupsInverse(f: Round, p: Round, o: Block, e: seq<Half>, n: nat)
    requires |e| == 8 * n + 6
    ensures FastGroups(f, p, Swap(FastGroups(f, p, o, e)), Reverse(e)) == Swap(o)
    decreases n
  {
    if n == 0 {
      RoundsInverse(f, p, o, e, 3);
    } else {
      var q := FastRounds(f, p, o, e[..6]);
      var g := FlLayer(q, e[6], e[7]);
      GroupsInverse(f, p, g, e[8..], n - 1);
      assert Reverse(e) == Reverse(e[8..]) + [e[7], e[6]] + Reverse(e[..6]);
      GroupsConcat(f, p, Swap(FastGroups(f, p, g, e[8..])), Reverse(e[8..]), n - 1, e[7], e[6], Reverse(e[..6]));
      LayerInverse(q, e[6], e[7]);
      RoundsInverse(f, p, o, e[..6], 3);
    }
  }

  /** Decryption inverts encryption, whatever the table holds. */
  lemma FastDecryptInverts(f: Round, p: Round, e: seq<Half>, m: Block)
    requires |e| == 25
    ensures FastDecrypt(f, p, e, FastEncrypt(f, p, e, m)) == m
  {
    var a := Block(X(m.d1, e[0]), m.d2);
    GroupsInverse(f, p, a, e[2..24], 2);
    XLaws(FastGroups(f, p, a, e[2..24]).d2, e[24]);
    XLaws(m.d1, e[0]);
  }
}
