/**
 The functions of crypto/camellia.c for 128-bit keys, statement by statement, proved
 against the cipher of RFC 3713.
 */
module CamelliaCode {
  import opened Bits
  import opened Camellia

  /** F of the standard for the given S-boxes. */
  function RoundOf(sb: SBoxes): Round {
    v => F(sb, v)
  }

  /** The last half of P as a function value. */
  function KeyOf(): Round {
    t => LastHalf(t)
  }

  const NIL: Half := Half(Zero(32), Zero(32))

  /** The words kll, klr, krl, krr. */
  function Quad(a: Half, b: Half): Key {
    Concat(Block(a, b))
  }

  lemma QuadHalves(key: Key, n: nat, a: Half, b: Half)
    requires n <= 128 && Quad(a, b) == RotateLeft(key, n)
    ensures a == Upper(key, n) && b == Lower(key, n)
  {
    var q := Quad(a, b);
    assert a.l == q[..32] && a.r == q[32..64] && b.l == q[64..96] && b.r == q[96..];
  }

  lemma RotateTwice(k: Key, m: nat, n: nat)
    requires m + n <= 128
    ensures RotateLeft(RotateLeft(k, m), n) == RotateLeft(k, m + n)
  {
  }

  /** CAMELLIA_ROLDQ */
  method RolDq(a: Half, b: Half, n: nat) returns (a': Half, b': Half)
    requires n <= 32
    ensures Quad(a', b') == RotateLeft(Quad(a, b), n)
  {
    a' := Half(Funnel(a.l, a.r, n), Funnel(a.r, b.l, n));
    b' := Half(Funnel(b.l, b.r, n), Funnel(b.r, a.l, n));
    var q := Quad(a, b);
    assert q[n..] + q[..n] == Quad(a', b');
  }

  /** CAMELLIA_ROLDQo32 */
  method RolDqO32(a: Half, b: Half, n: nat) returns (a': Half, b': Half)
    requires 32 <= n <= 64
    ensures Quad(a', b') == RotateLeft(Quad(a, b), n)
  {
    a' := Half(Funnel(a.r, b.l, n - 32), Funnel(b.l, b.r, n - 32));
    b' := Half(Funnel(b.r, a.l, n - 32), Funnel(a.l, a.r, n - 32));
    var q := Quad(a, b);
    assert q[n..] + q[..n] == Quad(a', b');
  }

  /** CAMELLIA_F: table lookups on the xored input and both halves of P. */
  method FCode(sb: SBoxes, x: Half, k: Half) returns (y: Half)
    ensures y == RoundOf(sb)(X(x, k))
  {
    var i := X(x, k);
    var t := Lookup(sb, i);
    var yl, yr := t.r, t.l;
    yl := Xor(yl, yr);
    yr := RotateLeft(yr, 24);
    yr := Xor(yr, yl);
    y := Half(yl, yr);
    LookupIsF(sb, i);
    XorLaws(t.l, t.r);
  }

  /** camellia_setup128, lines 536-554: KA */
  method GenerateKA(sb: SBoxes, key: Key) returns (a: Half, b: Half)
    ensures Quad(a, b) == DeriveKA(RoundOf(sb), key)
  {
    var kl, kr := Upper(key, 0), Lower(key, 0);
    a, b := kl, kr;
    var w := FCode(sb, a, Sigma(1));
    b := X(b, w);
    ghost var b1 := b;
    a := FCode(sb, b, Sigma(2));
    ghost var f2 := a;
    var v := FCode(sb, a, Sigma(3));
    b := X(v, w);
    var u := FCode(sb, b, Sigma(4));
    a := X(a, u);
    KaSteps(RoundOf(sb), kl, kr, w, b1, f2, v);
  }

  /** The program never adds KL to the state a second time: the sums cancel. */
  lemma KaSteps(f: Round, kl: Half, kr: Half, w: Half, b1: Half, f2: Half, v: Half)
    requires w == f(X(kl, Sigma(1))) && b1 == X(kr, w) && f2 == f(X(b1, Sigma(2))) && v == f(X(f2, Sigma(3)))
    ensures var d := TwoRounds(f, Block(kl, kr), Sigma(1), Sigma(2));
            TwoRounds(f, Block(X(d.d1, kl), X(d.d2, kr)), Sigma(3), Sigma(4)) ==
            Block(X(f2, f(X(X(v, w), Sigma(4)))), X(v, w))
  {
    XLaws(f2, kl);
    XLaws(kl, f2);
    XLaws(w, kr);
    XLaws(kr, w);
    XLaws(w, v);
  }

  /** One step of the key schedule: CAMELLIA_ROLDQ, or CAMELLIA_ROLDQo32 from 32 on. */
  method Rotate(ghost key: Key, ghost m: nat, a: Half, b: Half, n: nat) returns (a': Half, b': Half)
    requires n <= 64 && m + n <= 128 && a == Upper(key, m) && b == Lower(key, m)
    ensures a' == Upper(key, m + n) && b' == Lower(key, m + n)
  {
    assert Quad(a, b) == RotateLeft(key, m) by { Halves(RotateLeft(key, m)); }
    if n < 32 { a', b' := RolDq(a, b, n); } else { a', b' := RolDqO32(a, b, n); }
    RotateTwice(key, m, n);
    QuadHalves(key, m + n, a', b');
  }

  lemma Halves(r: Key)
    ensures Quad(Half(r[..32], r[32..64]), Half(r[64..96], r[96..])) == r
  {
  }

  ghost predicate FromKL(s: seq<Half>, key: Key) {
    && |s| == 26
    && s[0] == Upper(key, 0) && s[1] == Lower(key, 0) && s[4] == Upper(key, 15) && s[5] == Lower(key, 15)
    && s[10] == Upper(key, 45) && s[11] == Lower(key, 45) && s[13] == Lower(key, 60) && s[16] == Upper(key, 77) &&
       s[17] == Lower(key, 77)
    && s[18] == Upper(key, 94) && s[19] == Lower(key, 94) && s[22] == Upper(key, 111) && s[23] == Lower(key, 111)
  }

  ghost predicate FromKA(s: seq<Half>, ka: Key) {
    && |s| == 26
    && s[2] == Upper(ka, 0) && s[3] == Lower(ka, 0) && s[6] == Upper(ka, 15) && s[7] == Lower(ka, 15)
    && s[8] == Upper(ka, 30) && s[9] == Lower(ka, 30) && s[12] == Upper(ka, 45) && s[14] == Upper(ka, 60) &&
       s[15] == Lower(ka, 60)
    && s[20] == Upper(ka, 94) && s[21] == Lower(ka, 94) && s[24] == Upper(ka, 111) && s[25] == Lower(ka, 111)
  }

  lemma ScheduleFrom(s: seq<Half>, key: Key, ka: Key)
    requires FromKL(s, key) && FromKA(s, ka)
    ensures s == Schedule(key, ka)
  {
  }

  /** Lines 494-534: the subkeys that come from KL. */
  method SubkeysOfKL(key: Key) returns (s: seq<Half>)
    ensures FromKL(s, key)
  {
    var a, b := Upper(key, 0), Lower(key, 0);
    s := seq(26, i => NIL);
    s := s[0 := a][1 := b];
    a, b := Rotate(key, 0, a, b, 15);
    s := s[4 := a][5 := b];
    a, b := Rotate(key, 15, a, b, 30);
    s := s[10 := a][11 := b];
    a, b := Rotate(key, 45, a, b, 15);
    s := s[13 := b];
    a, b := Rotate(key, 60, a, b, 17);
    s := s[16 := a][17 := b];
    a, b := Rotate(key, 77, a, b, 17);
    s := s[18 := a][19 := b];
    a, b := Rotate(key, 94, a, b, 17);
    s := s[22 := a][23 := b];
  }

  /** Lines 556-582: the subkeys that come from KA. */
  method SubkeysOfKA(s0: seq<Half>, ghost key: Key, ghost ka: Key, ka0: Half, kb0: Half) returns (s: seq<Half>)
    requires FromKL(s0, key) && ka0 == Upper(ka, 0) && kb0 == Lower(ka, 0)
    ensures FromKL(s, key) && FromKA(s, ka)
  {
    var a, b := ka0, kb0;
    s := s0[2 := a][3 := b];
    a, b := Rotate(ka, 0, a, b, 15);
    s := s[6 := a][7 := b];
    a, b := Rotate(ka, 15, a, b, 15);
    s := s[8 := a][9 := b];
    a, b := Rotate(ka, 30, a, b, 15);
    s := s[12 := a];
    a, b := Rotate(ka, 45, a, b, 15);
    s := s[14 := a][15 := b];
    a, b := Rotate(ka, 60, a, b, 34);
    s := s[20 := a][21 := b];
    a, b := Rotate(ka, 94, a, b, 17);
    s := s[24 := a][25 := b];
  }

  method Subkeys(sb: SBoxes, key: Key) returns (s: seq<Half>)
    ensures s == Schedule(key, DeriveKA(RoundOf(sb), key))
  {
    s := SubkeysOfKL(key);
    var a, b := GenerateKA(sb, key);
    ghost var ka := DeriveKA(RoundOf(sb), key);
    assert Quad(a, b) == RotateLeft(ka, 0);
    QuadHalves(ka, 0, a, b);
    s := SubkeysOfKA(s, key, ka, a, b);
    ScheduleFrom(s, key, ka);
  }

  /** CAMELLIA_ROUNDSM: the key is added in the middle of P. */
  method RoundSm(sb: SBoxes, x: Half, k: Half, y: Half) returns (y': Half)
    ensures y' == FastRound(RoundOf(sb), KeyOf(), x, k, y)
  {
    var t := Lookup(sb, x);
    var il, ir := t.l, t.r;
    il := Xor(il, k.l);
    ir := Xor(ir, Xor(il, k.r));
    y' := Half(Xor(y.l, ir), Xor(y.r, Xor(RotateLeft(il, 24), ir)));
    LookupIsF(sb, x);
    MiddleKey(t, k);
  }

  lemma MiddleKey(t: Half, k: Half)
    ensures var il := Xor(t.l, k.l);
            var ir := Xor(t.r, Xor(il, k.r));
            Half(ir, Xor(RotateLeft(il, 24), ir)) == X(LastHalf(t), LastHalf(k))
  {
    var il := Xor(t.l, k.l);
    var ir := Xor(t.r, Xor(il, k.r));
    assert ir == Xor(Xor(t.l, t.r), Xor(k.l, k.r));
    RotateXor(t.l, k.l, 24);
    XorSwap(RotateLeft(t.l, 24), RotateLeft(k.l, 24), Xor(t.l, t.r), Xor(k.l, k.r));
  }

  /** tl = xl ^ (xr & ~kr), dw = tl & kl, tr = xr ^ RL1(dw) */
  method MoveCode(x: Half, k: Half) returns (t: Half)
    ensures t == Move(x, k)
  {
    var tl := Xor(x.l, And(x.r, Not(k.r)));
    var dw := And(tl, k.l);
    t := Half(tl, Xor(x.r, RotateLeft(dw, 1)));
  }

  /** The subkeys after kw2 and kw4 have been absorbed. */
  ghost predicate WithoutWhitening(k: seq<Half>, s: seq<Half>) {
    && |k| == 26 && |s| == 26
    && var a0 := k[1]; var a1 := Move(a0, k[9]); var a2 := Move(a1, k[17]);
    var b0 := k[25]; var b1 := Move(b0, k[16]); var b2 := Move(b1, k[8]);
    && s[3] == X(k[3], a0) && s[5] == X(k[5], a0) && s[7] == X(k[7], a0)
    && s[11] == X(k[11], a1) && s[13] == X(k[13], a1) && s[15] == X(k[15], a1)
    && s[19] == X(k[19], a2) && s[21] == X(k[21], a2) && s[23] == X(k[23], a2) && s[24] == X(k[24], a2)
    && s[22] == X(k[22], b0) && s[20] == X(k[20], b0) && s[18] == X(k[18], b0)
    && s[14] == X(k[14], b1) && s[12] == X(k[12], b1) && s[10] == X(k[10], b1)
    && s[6] == X(k[6], b2) && s[4] == X(k[4], b2) && s[2] == X(k[2], b2) && s[0] == X(k[0], b2)
    && s[8] == k[8] && s[9] == k[9] && s[16] == k[16] && s[17] == k[17]
  }

  /** Lines 585-640 */
  method AbsorbWhitening(k: seq<Half>) returns (s: seq<Half>)
    requires |k| == 26
    ensures WithoutWhitening(k, s)
  {
    s := k;
    var kw2 := s[1];
    s := s[3 := X(s[3], kw2)][5 := X(s[5], kw2)][7 := X(s[7], kw2)];
    kw2 := MoveCode(kw2, s[9]);
    s := s[11 := X(s[11], kw2)][13 := X(s[13], kw2)][15 := X(s[15], kw2)];
    kw2 := MoveCode(kw2, s[17]);
    s := s[19 := X(s[19], kw2)][21 := X(s[21], kw2)][23 := X(s[23], kw2)][24 := X(s[24], kw2)];
    var kw4 := s[25];
    s := s[22 := X(s[22], kw4)][20 := X(s[20], kw4)][18 := X(s[18], kw4)];
    kw4 := MoveCode(kw4, s[16]);
    s := s[14 := X(s[14], kw4)][12 := X(s[12], kw4)][10 := X(s[10], kw4)];
    kw4 := MoveCode(kw4, s[8]);
    s := s[6 := X(s[6], kw4)][4 := X(s[4], kw4)][2 := X(s[2], kw4)][0 := X(s[0], kw4)];
  }

  /** Lines 643-703: the key xor moves to the end of the F-function.  `e` gets the
      differences of the round keys `s`. */
  ghost predicate BehindF(s: seq<Half>, e: seq<Half>) {
    |s| == 26 && |e| == 25 && BehindF1(s, e) && BehindF2(s, e) && BehindF3(s, e)
  }

  ghost predicate BehindF1(s: seq<Half>, e: seq<Half>)
    requires |s| == 26 && |e| == 25
  {
    && e[0] == X(s[0], s[2]) && e[2] == s[3] && e[3] == X(s[2], s[4]) && e[4] == X(s[3], s[5]) && e[5] == X(s[4], s[6])
    && e[6] == X(s[5], s[7]) && e[7] == X(s[6], Move(s[10], s[8])) && e[8] == s[8] && e[9] == s[9]
  }

  ghost predicate BehindF2(s: seq<Half>, e: seq<Half>)
    requires |s| == 26 && |e| == 25
  {
    && e[10] == X(Move(s[7], s[9]), s[11]) && e[11] == X(s[10], s[12]) && e[12] == X(s[11], s[13]) &&
       e[13] == X(s[12], s[14])
    && e[14] == X(s[13], s[15]) && e[15] == X(s[14], Move(s[18], s[16])) && e[16] == s[16] && e[17] == s[17]
  }

  ghost predicate BehindF3(s: seq<Half>, e: seq<Half>)
    requires |s| == 26 && |e| == 25
  {
    && e[18] == X(Move(s[15], s[17]), s[19]) && e[19] == X(s[18], s[20]) && e[20] == X(s[19], s[21]) &&
       e[21] == X(s[20], s[22])
    && e[22] == X(s[21], s[23]) && e[23] == s[22] && e[24] == X(s[24], s[23])
  }

  method KeysBehindF(s: seq<Half>) returns (e: seq<Half>)
    requires |s| == 26
    ensures BehindF(s, e)
  {
    e := seq(25, i => NIL);
    e := e[0 := X(s[0], s[2])][2 := s[3]][3 := X(s[2], s[4])][4 := X(s[3], s[5])][5 := X(s[4], s[6])]
          [6 := X(s[5], s[7])];
    var t := MoveCode(s[10], s[8]);
    e := e[7 := X(s[6], t)][8 := s[8]][9 := s[9]];
    assert BehindF1(s, e);
    t := MoveCode(s[7], s[9]);
    e := KeysBehindF2(s, e, t);
  }

  method KeysBehindF2(s: seq<Half>, e0: seq<Half>, t0: Half) returns (e: seq<Half>)
    requires |s| == 26 && |e0| == 25 && BehindF1(s, e0) && t0 == Move(s[7], s[9])
    ensures BehindF(s, e)
  {
    e := e0[10 := X(t0, s[11])][11 := X(s[10], s[12])][12 := X(s[11], s[13])][13 := X(s[12], s[14])]
          [14 := X(s[13], s[15])];
    var t := MoveCode(s[18], s[16]);
    e := e[15 := X(s[14], t)][16 := s[16]][17 := s[17]];
    t := MoveCode(s[15], s[17]);
    e := e[18 := X(t, s[19])][19 := X(s[18], s[20])][20 := X(s[19], s[21])][21 := X(s[20], s[22])]
          [22 := X(s[21], s[23])];
    e := e[23 := s[22]][24 := X(s[24], s[23])];
  }

  lemma DropCommon(a: Half, b: Half, m: Half)
    ensures X(X(a, m), X(b, m)) == X(a, b)
  {
    Regroup(a, m, b, m);
    XAssoc(X(a, b), m, m);
    XLaws(X(a, b), m);
  }

  /** A sum of two moved keys: the absorbed parts cancel. */
  lemma DropMoved(a: Half, c: Half, m: Half, k: Half)
    ensures X(X(a, Move(m, k)), Move(X(c, m), k)) == X(a, Move(c, k))
    ensures X(Move(X(c, m), k), X(a, Move(m, k))) == X(Move(c, k), a)
  {
    MoveLinear(c, m, k);
    DropCommon(a, Move(c, k), Move(m, k));
    DropCommon(Move(c, k), a, Move(m, k));
  }

  ghost predicate SixDifferences(k: seq<Half>, e: seq<Half>, y: Half, z: Half) {
    && |k| == 6 && |e| == 6
    && e[0] == X(y, k[1]) && e[1] == X(k[0], k[2]) && e[2] == X(k[1], k[3])
    && e[3] == X(k[2], k[4]) && e[4] == X(k[3], k[5]) && e[5] == X(k[4], z)
  }

  /** The keys of six rounds, with `b` absorbed into the odd and `a` into the even ones. */
  lemma StageDifferences(k: seq<Half>, e: seq<Half>, a: Half, b: Half, y: Half, z: Half)
    requires |k| == 6 && |e| == 6
    requires e[0] == X(y, k[1]) && e[5] == X(k[4], z)
    requires e[1] == X(X(k[0], b), X(k[2], b)) && e[2] == X(X(k[1], a), X(k[3], a))
    requires e[3] == X(X(k[2], b), X(k[4], b)) && e[4] == X(X(k[3], a), X(k[5], a))
    ensures SixDifferences(k, e, y, z)
  {
    DropCommon(k[0], k[2], b);
    DropCommon(k[1], k[3], a);
    DropCommon(k[2], k[4], b);
    DropCommon(k[3], k[5], a);
  }

  lemma FirstStage(k: seq<Half>, s: seq<Half>, e: seq<Half>, a0: Half, b1: Half, b2: Half)
    requires |k| == 26 && |s| == 26 && |e| == 25 && BehindF1(s, e) && a0 == k[1] && s[8] == k[8] && b2 == Move(b1, k[8])
    requires s[3] == X(k[3], a0) && s[5] == X(k[5], a0) && s[7] == X(k[7], a0) && s[10] == X(k[10], b1)
    requires s[2] == X(k[2], b2) && s[4] == X(k[4], b2) && s[6] == X(k[6], b2)
    ensures SixDifferences(k[2..8], e[2..8], k[1], Move(k[10], k[8]))
  {
    XLaws(k[3], k[1]);
    DropMoved(k[6], k[10], b1, k[8]);
    StageDifferences(k[2..8], e[2..8], a0, b2, k[1], Move(k[10], k[8]));
  }

  lemma SecondStage(k: seq<Half>, s: seq<Half>, e: seq<Half>, a0: Half, a1: Half, b0: Half, b1: Half)
    requires |k| == 26 && |s| == 26 && |e| == 25 && BehindF2(s, e) && s[9] == k[9] && s[16] == k[16]
    requires a1 == Move(a0, k[9]) && b1 == Move(b0, k[16])
    requires s[7] == X(k[7], a0) && s[18] == X(k[18], b0)
    requires s[11] == X(k[11], a1) && s[13] == X(k[13], a1) && s[15] == X(k[15], a1)
    requires s[10] == X(k[10], b1) && s[12] == X(k[12], b1) && s[14] == X(k[14], b1)
    ensures SixDifferences(k[10..16], e[10..16], Move(k[7], k[9]), Move(k[18], k[16]))
  {
    DropMoved(k[11], k[7], a0, k[9]);
    DropMoved(k[14], k[18], b0, k[16]);
    StageDifferences(k[10..16], e[10..16], a1, b1, Move(k[7], k[9]), Move(k[18], k[16]));
  }

  lemma ThirdStage(k: seq<Half>, s: seq<Half>, e: seq<Half>, a1: Half, a2: Half, b0: Half)
    requires |k| == 26 && |s| == 26 && |e| == 25 && BehindF3(s, e) && s[17] == k[17] && b0 == k[25] &&
             a2 == Move(a1, k[17])
    requires s[15] == X(k[15], a1)
    requires s[19] == X(k[19], a2) && s[21] == X(k[21], a2) && s[23] == X(k[23], a2)
    requires s[18] == X(k[18], b0) && s[20] == X(k[20], b0) && s[22] == X(k[22], b0)
    ensures SixDifferences(k[18..24], e[18..24], Move(k[15], k[17]), k[25])
  {
    DropMoved(k[19], k[15], a1, k[17]);
    StageDifferences(k[18..24], e[18..24], a2, b0, Move(k[15], k[17]), k[25]);
  }

  lemma Whitening(a: Half, b: Half, m: Half, c: Half, d: Half, n: Half)
    ensures X(X(a, m), X(b, m)) == X(a, b) && X(X(d, n), X(c, n)) == X(c, d)
  {
    DropCommon(a, b, m);
    DropCommon(d, c, n);
    XLaws(c, d);
  }

  /** The differences `e` of the subkeys `k`, before they go into the table. */
  ghost predicate KeyDifferences(k: seq<Half>, e: seq<Half>) {
    && |k| == 26 && |e| == 25
    && e[0] == X(k[0], k[2]) && e[24] == X(k[23], k[24])
    && e[8] == k[8] && e[9] == k[9] && e[16] == k[16] && e[17] == k[17]
    && SixDifferences(k[2..8], e[2..8], k[1], Move(k[10], k[8]))
    && SixDifferences(k[10..16], e[10..16], Move(k[7], k[9]), Move(k[18], k[16]))
    && SixDifferences(k[18..24], e[18..24], Move(k[15], k[17]), k[25])
  }

  lemma BehindFDifferences(k: seq<Half>, s: seq<Half>, e: seq<Half>)
    requires WithoutWhitening(k, s) && BehindF(s, e)
    ensures KeyDifferences(k, e)
  {
    var a1, b1 := Move(k[1], k[9]), Move(k[25], k[16]);
    var a2, b2 := Move(a1, k[17]), Move(b1, k[8]);
    FirstStage(k, s, e, k[1], b1, b2);
    SecondStage(k, s, e, k[1], a1, k[25], b1);
    ThirdStage(k, s, e, a1, a2, k[25]);
    Whitening(k[0], k[2], b2, k[23], k[24], a2);
  }

  /** `t` holds the round keys of `e` ahead of the last half of P. */
  ghost predicate Stored(e: seq<Half>, t: seq<Half>) {
    |e| == 25 && |t| == 25 && forall i :: 0 <= i < 25 ==> e[i] == if IsRoundKey(i) then LastHalf(t[i]) else t[i]
  }

  lemma SixStored(k: seq<Half>, e: seq<Half>, t: seq<Half>, y: Half, z: Half)
    requires SixDifferences(k, e, y, z) && |t| == 6
    requires LastHalf(t[0]) == e[0] && LastHalf(t[1]) == e[1] && LastHalf(t[2]) == e[2]
    requires LastHalf(t[3]) == e[3] && LastHalf(t[4]) == e[4] && LastHalf(t[5]) == e[5]
    ensures Differences(KeyOf(), k, t, y, z)
  {
    forall i | 1 <= i < 5 ensures LastHalf(t[i]) == X(k[i - 1], k[i + 1]) {
      SixStoredAt(k, e, t, y, z, i);
    }
  }

  lemma SixStoredAt(k: seq<Half>, e: seq<Half>, t: seq<Half>, y: Half, z: Half, i: nat)
    requires SixDifferences(k, e, y, z) && |t| == 6 && 1 <= i < 5 && LastHalf(t[i]) == e[i]
    ensures LastHalf(t[i]) == X(k[i - 1], k[i + 1])
  {
    if i == 1 {
      assert e[1] == X(k[0], k[2]);
    } else if i == 2 {
      assert e[2] == X(k[1], k[3]);
    } else if i == 3 {
      assert e[3] == X(k[2], k[4]);
    } else {
      assert i == 4 && e[4] == X(k[3], k[5]);
    }
  }

  lemma StoredAbsorbed(k: seq<Half>, e: seq<Half>, t: seq<Half>)
    requires KeyDifferences(k, e) && Stored(e, t)
    ensures Absorbed(KeyOf(), k, t)
  {
    SixStored(k[2..8], e[2..8], t[2..8], k[1], Move(k[10], k[8]));
    SixStored(k[10..16], e[10..16], t[10..16], Move(k[7], k[9]), Move(k[18], k[16]));
    SixStored(k[18..24], e[18..24], t[18..24], Move(k[15], k[17]), k[25]);
    GroupsOfThree(KeyOf(), k, t);
  }

  lemma GroupsOfThree(p: Round, k: seq<Half>, e: seq<Half>)
    requires |k| == 26 && |e| == 25
    requires Differences(p, k[2..8], e[2..8], k[1], Move(k[10], k[8])) && e[8] == k[8] && e[9] == k[9]
    requires Differences(p, k[10..16], e[10..16], Move(k[7], k[9]), Move(k[18], k[16])) && e[16] == k[16] &&
             e[17] == k[17]
    requires Differences(p, k[18..24], e[18..24], Move(k[15], k[17]), k[25])
    ensures AllDifferences(p, k[2..24], e[2..24], k[1], k[25])
  {
    var k2, e2 := k[10..24], e[10..24];
    assert k2[8..] == k[18..24] && e2[8..] == e[18..24] && k2[..6] == k[10..16] && e2[..6] == e[10..16];
    assert AllDifferences(p, k2[8..], e2[8..], Move(k[15], k[17]), k[25]);
    assert AllDifferences(p, k2, e2, Move(k[7], k[9]), k[25]);
    var k1, e1 := k[2..24], e[2..24];
    assert k1[8..] == k2 && e1[8..] == e2 && k1[..6] == k[2..8] && e1[..6] == e[2..8];
  }

  /** Positions of the table that hold round keys. */
  predicate IsRoundKey(i: nat) {
    2 <= i < 24 && i != 8 && i != 9 && i != 16 && i != 17
  }

  /** Lines 705-777, for one key: the inverse of the last half of the P-function. */
  method InverseLastHalf(k: Half) returns (t: Half)
    ensures LastHalf(t) == k
  {
    var dw := RotateLeft(Xor(k.l, k.r), 8);
    t := Half(dw, Xor(k.l, dw));
    assert Xor(dw, Xor(k.l, dw)) == k.l;
    assert RotateLeft(dw, 24) == Xor(k.l, k.r);
    assert Xor(Xor(k.l, k.r), k.l) == k.r;
  }

  /** camellia_setup128 */
  method Setup128(sb: SBoxes, key: Key, subkey: array<Half>)
    requires subkey.Length == 25
    modifies subkey
    ensures Absorbed(KeyOf(), Schedule(key, DeriveKA(RoundOf(sb), key)), subkey[..])
  {
    var k := Subkeys(sb, key);
    var s := AbsorbWhitening(k);
    var e := KeysBehindF(s);
    BehindFDifferences(k, s, e);
    StoreTable(e, subkey);
    StoredAbsorbed(k, e, subkey[..]);
  }

  /** Lines 705-777: the table holds the round keys ahead of the last half of P. */
  method StoreTable(e: seq<Half>, subkey: array<Half>)
    requires subkey.Length == 25 && |e| == 25
    modifies subkey
    ensures Stored(e, subkey[..])
  {
    var i := 0;
    while i < 25
      invariant 0 <= i <= 25
      invariant forall j :: 0 <= j < i ==> e[j] == if IsRoundKey(j) then LastHalf(subkey[j]) else subkey[j]
    {
      if IsRoundKey(i) {
        var t := InverseLastHalf(e[i]);
        subkey[i] := t;
      } else {
        subkey[i] := e[i];
      }
      i := i + 1;
    }
  }

  /** CAMELLIA_FLS */
  method Fls(ll: Word, lr: Word, rl: Word, rr: Word, k: Half, k': Half) returns (o: Block)
    ensures o == FlLayer(Block(Half(ll, lr), Half(rl, rr)), k, k')
  {
    var t0 := And(k.l, ll);
    var t2 := Or(k'.r, rr);
    var rl' := Xor(rl, t2);
    var lr' := Xor(lr, RotateLeft(t0, 1));
    var t3 := And(k'.l, rl');
    var t1 := Or(k.r, lr');
    o := Block(Half(Xor(ll, t1), lr'), Half(rl', Xor(rr, RotateLeft(t3, 1))));
    assert t0 == And(ll, k.l) && t2 == Or(rr, k'.r) && t3 == And(rl', k'.l) && t1 == Or(lr', k.r);
  }

  method FlsBlock(o: Block, k: Half, k': Half) returns (p: Block)
    ensures p == FlLayer(o, k, k')
  {
    p := Fls(o.d1.l, o.d1.r, o.d2.l, o.d2.r, k, k');
  }

  /** Six times CAMELLIA_ROUNDSM, on alternating halves. */
  method SixCode(sb: SBoxes, o: Block, k: seq<Half>) returns (q: Block)
    requires |k| == 6
    ensures q == FastRounds(RoundOf(sb), KeyOf(), o, k)
  {
    ghost var f, p := RoundOf(sb), KeyOf();
    var d1, d2 := o.d1, o.d2;
    d2 := RoundSm(sb, d1, k[0], d2);
    d1 := RoundSm(sb, d2, k[1], d1);
    ghost var q1 := Block(d1, d2);
    d2 := RoundSm(sb, d1, k[2], d2);
    d1 := RoundSm(sb, d2, k[3], d1);
    ghost var q2 := Block(d1, d2);
    d2 := RoundSm(sb, d1, k[4], d2);
    d1 := RoundSm(sb, d2, k[5], d1);
    q := Block(d1, d2);
    UnfoldRounds(f, p, o, q1, k);
    UnfoldRounds(f, p, q1, q2, k[2..]);
    UnfoldRounds(f, p, q2, q, k[2..][2..]);
    assert k[2..][2..][2..] == [];
  }

  lemma UnfoldRounds(f: Round, p: Round, o: Block, q: Block, k: seq<Half>)
    requires |k| >= 2 && q == FastTwo(f, p, o, k[0], k[1])
    ensures FastRounds(f, p, o, k) == FastRounds(f, p, q, k[2..])
  {
  }

  function Text(io: array<Word>): Block
    reads io
    requires io.Length == 4
  {
    Block(Half(io[0], io[1]), Half(io[2], io[3]))
  }

  /** Six rounds and the CAMELLIA_FLS behind them. */
  method GroupCode(sb: SBoxes, o: Block, k: seq<Half>) returns (q: Block)
    requires |k| > 8
    ensures FastGroups(RoundOf(sb), KeyOf(), o, k) == FastGroups(RoundOf(sb), KeyOf(), q, k[8..])
  {
    q := SixCode(sb, o, k[..6]);
    q := FlsBlock(q, k[6], k[7]);
  }

  /** The main iteration: three groups of rounds with CAMELLIA_FLS between them. */
  method MainIteration(sb: SBoxes, o: Block, k: seq<Half>) returns (q: Block)
    requires |k| == 22
    ensures q == FastGroups(RoundOf(sb), KeyOf(), o, k)
  {
    q := GroupCode(sb, o, k);
    q := GroupCode(sb, q, k[8..]);
    q := SixCode(sb, q, k[8..][8..]);
  }

  /** camellia_encrypt128 on the words of the text. */
  method Encrypt128(sb: SBoxes, t: seq<Half>, io: array<Word>)
    requires |t| == 25 && io.Length == 4
    modifies io
    ensures Text(io) == FastEncrypt(RoundOf(sb), KeyOf(), t, old(Text(io)))
  {
    var o := Block(Half(Xor(io[0], t[0].l), Xor(io[1], t[0].r)), Half(io[2], io[3]));
    o := MainIteration(sb, o, t[2..24]);
    io[0], io[1] := Xor(o.d2.l, t[24].l), Xor(o.d2.r, t[24].r);
    io[2], io[3] := o.d1.l, o.d1.r;
  }

  /** camellia_decrypt128 on the words of the text. */
  method Decrypt128(sb: SBoxes, t: seq<Half>, io: array<Word>)
    requires |t| == 25 && io.Length == 4
    modifies io
    ensures Text(io) == FastDecrypt(RoundOf(sb), KeyOf(), t, old(Text(io)))
  {
    var o := Block(Half(Xor(io[0], t[24].l), Xor(io[1], t[24].r)), Half(io[2], io[3]));
    o := MainIteration(sb, o, Reverse(t[2..24]));
    io[0], io[1] := Xor(o.d2.l, t[0].l), Xor(o.d2.r, t[0].r);
    io[2], io[3] := o.d1.l, o.d1.r;
  }

  /** With the table of camellia_setup128, encryption is the cipher of the standard, and
      decryption gives the text back. */
  lemma Camellia128(f: Round, key: Key, t: seq<Half>, m: Block)
    requires Absorbed(KeyOf(), Schedule(key, DeriveKA(f, key)), t)
    ensures FastEncrypt(f, KeyOf(), t, m) == Encrypt(f, Schedule(key, DeriveKA(f, key)), m)
    ensures FastDecrypt(f, KeyOf(), t, Encrypt(f, Schedule(key, DeriveKA(f, key)), m)) == m
  {
    FastEncryptIsEncrypt(f, KeyOf(), Schedule(key, DeriveKA(f, key)), t, m);
    FastDecryptInverts(f, KeyOf(), t, m);
  }
}
