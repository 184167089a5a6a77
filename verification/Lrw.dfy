/**
 LRW mode, crypto/lrw.c.  The tweak of block n is (IV + n) * Key2 in GF(2^128), but the
 code multiplies only once and then xors precomputed multiples of Key2.
 */
module Lrw {
  import opened Common
  import opened Bits
  import opened Gf128
  import opened Gf128Mul
  import opened Pieces

  // ----- the counter -----

  lemma {:induction false} OfNatToNat(w: bits)
    ensures OfNat(ToNat(w), |w|) == w
    decreases |w|
  {
    if w != [] {
      OfNatToNat(w[..|w| - 1]);
      assert w == w[..|w| - 1] + [w[|w| - 1]];
    }
  }

  lemma {:induction false} ToNatOfNat(n: nat, width: nat)
    requires n < Pow2(width)
    ensures ToNat(OfNat(n, width)) == n
  {
    if width > 0 {
      ToNatOfNat(n / 2, width - 1);
      assert OfNat(n, width)[..width - 1] == OfNat(n / 2, width - 1);
    }
  }

  /** Adding one bit by bit: trailing ones become zeros, the next zero becomes one. */
  function Ripple(w: bits): (r: bits)
    ensures |r| == |w|
    decreases |w|
  {
    if w == [] then []
    else if w[|w| - 1] then Ripple(w[..|w| - 1]) + [false]
    else w[..|w| - 1] + [true]
  }

  lemma {:induction false} OfNatHalves(n: nat, width: nat, b: bool)
    ensures OfNat(2 * n + (if b then 1 else 0), width + 1) == OfNat(n, width) + [b]
  {
  }

  lemma {:induction false} RippleAddsOne(w: bits)
    ensures Ripple(w) == OfNat(ToNat(w) + 1, |w|)
    decreases |w|
  {
    if w != [] {
      var p := w[..|w| - 1];
      if w[|w| - 1] {
        RippleAddsOne(p);
        OfNatHalves(ToNat(p) + 1, |p|, false);
      } else {
        OfNatToNat(p);
        OfNatHalves(ToNat(p), |p|, true);
      }
    }
  }

  predicate AllOnes(w: bits) {
    forall i :: 0 <= i < |w| ==> w[i]
  }

  lemma {:induction false} RippleCarry(w: bits)
    ensures Ripple(w) == Zero(|w|) <==> AllOnes(w)
    decreases |w|
  {
    if w != [] {
      var p := w[..|w| - 1];
      RippleCarry(p);
      if w[|w| - 1] {
        assert Ripple(w)[..|p|] == Ripple(p) && Zero(|w|)[..|p|] == Zero(|p|);
        if AllOnes(p) { assert AllOnes(w) && Ripple(w) == Zero(|w|); } else { assert !AllOnes(w); }
      } else {
        assert Ripple(w)[|p|];
      }
    }
  }

  lemma {:induction false} RippleConcat(a: bits, b: bits)
    ensures Ripple(a + b) == if AllOnes(b) then Ripple(a) + Zero(|b|) else a + Ripple(b)
    decreases |b|
  {
    if b == [] {
      assert a + b == a && Ripple(a) + Zero(0) == Ripple(a);
    } else {
      var p := b[..|b| - 1];
      RippleConcat(a, p);
      assert (a + b)[..|a + b| - 1] == a + p;
      assert AllOnes(b) <==> AllOnes(p) && b[|b| - 1];
      assert Zero(|p|) + [false] == Zero(|b|);
    }
  }

  /** be64_to_cpu(x) + 1 on one half of the counter. */
  function Inc64(w: bits): (r: bits)
    ensures |r| == |w|
  {
    OfNat(ToNat(w) + 1, |w|)
  }

  /** inc: the carry goes to the upper half when the lower half becomes zero. */
  function Inc(iv: Elem): Elem {
    var b := Inc64(iv[64..]);
    if b == Zero(64) then Inc64(iv[..64]) + b else iv[..64] + b
  }

  lemma {:induction false} HalvesRipple(a: bits, b: bits)
    requires |a| == 64 && |b| == 64
    ensures Ripple(a + b) == if Inc64(b) == Zero(64) then Inc64(a) + Inc64(b) else a + Inc64(b)
  {
    RippleAddsOne(a);
    RippleAddsOne(b);
    RippleCarry(b);
    RippleConcat(a, b);
  }

  lemma {:induction false} IncIsRipple(iv: Elem)
    ensures Inc(iv) == Ripple(iv)
  {
    assert iv == iv[..64] + iv[64..];
    HalvesRipple(iv[..64], iv[64..]);
  }

  /** IV + n as a 128-bit number. */
  function Counter(iv: Elem, n: nat): Elem {
    OfNat(ToNat(iv) + n, |iv|)
  }

  /** The counter takes n further values without wrapping. */
  predicate Room(iv: Elem, n: nat) {
    ToNat(iv) + n < Pow2(|iv|)
  }

  lemma {:induction false} RippleNext(n: nat, width: nat)
    requires n < Pow2(width)
    ensures Ripple(OfNat(n, width)) == OfNat(n + 1, width)
  {
    var c := OfNat(n, width);
    RippleAddsOne(c);
    ToNatOfNat(n, width);
  }

  lemma {:induction false} IncNext(c: Elem, n: nat, width: nat)
    requires n < Pow2(width) && c == OfNat(n, width)
    ensures Inc(c) == OfNat(n + 1, width)
  {
    IncIsRipple(c);
    RippleNext(n, width);
  }

  lemma {:induction false} CounterInc(iv: Elem, n: nat)
    requires Room(iv, n)
    ensures Inc(Counter(iv, n)) == Counter(iv, n + 1)
  {
    var c, m, width := Counter(iv, n), ToNat(iv) + n, |iv|;
    assert c == OfNat(m, width);
    assert Inc(c) == OfNat(m + 1, width) by { IncNext(c, m, width); }
    assert Counter(iv, n + 1) == OfNat(m + 1, width);
  }

  // ----- which bits the increment flips -----

  function TrailingOnes(w: bits): (k: nat)
    ensures k <= |w|
    decreases |w|
  {
    if w == [] || !w[|w| - 1] then 0 else 1 + TrailingOnes(w[..|w| - 1])
  }

  /** The low k bits of a word of n bits. */
  function Mask(n: nat, k: nat): (r: bits)
    requires k <= n
    ensures |r| == n && forall i :: 0 <= i < n ==> r[i] == (i >= n - k)
  {
    seq(n, i => i >= n - k)
  }

  lemma {:induction false} RippleFlips(w: bits)
    requires TrailingOnes(w) < |w|
    ensures Ripple(w) == Xor(w, Mask(|w|, TrailingOnes(w) + 1))
    decreases |w|
  {
    var p := w[..|w| - 1];
    if w[|w| - 1] {
      RippleFlips(p);
      var m := Mask(|w|, TrailingOnes(w) + 1);
      assert m[..|p|] == Mask(|p|, TrailingOnes(p) + 1);
      assert Xor(w, m)[..|p|] == Xor(p, m[..|p|]);
      assert Xor(w, m) == Xor(w, m)[..|p|] + [false];
    }
  }

  lemma {:induction false} AllOnesTrailing(w: bits)
    ensures AllOnes(w) <==> TrailingOnes(w) == |w|
    decreases |w|
  {
    if w != [] && w[|w| - 1] {
      var p := w[..|w| - 1];
      AllOnesTrailing(p);
      assert AllOnes(w) <==> AllOnes(p);
    }
  }

  lemma {:induction false} TrailingConcat(a: bits, b: bits)
    ensures TrailingOnes(a + b) == if AllOnes(b) then |b| + TrailingOnes(a) else TrailingOnes(b)
    decreases |b|
  {
    if b == [] {
      assert a + b == a;
    } else {
      var p := b[..|b| - 1];
      TrailingConcat(a, p);
      assert (a + b)[..|a + b| - 1] == a + p;
      assert AllOnes(b) <==> AllOnes(p) && b[|b| - 1];
    }
  }

  /** ffz: the lowest zero bit of a word that has one. */
  method Ffz(val: bits) returns (k: nat)
    requires !AllOnes(val)
    ensures k == TrailingOnes(val)
  {
    k := 0;
    ghost var w := val;
    while val[|val| - 1 - k]
      invariant k < |val| && w == val[..|val| - k] && TrailingOnes(val) == k + TrailingOnes(w) && !AllOnes(w)
      decreases |val| - k
    {
      AllOnesTrailing(w);
      AllOnesTrailing(w[..|w| - 1]);
      w := w[..|w| - 1];
      k := k + 1;
      assert w == val[..|val| - k];
    }
  }

  /** get_index128: word by word from the right, 128 when every bit is set. */
  method GetIndex128(block: Elem) returns (x: nat)
    ensures x == TrailingOnes(block)
  {
    x := 0;
    assert block[..128] == block;
    while x < 128
      invariant 0 <= x <= 128 && x % 32 == 0
      invariant TrailingOnes(block) == x + TrailingOnes(block[..128 - x])
    {
      var val := block[96 - x..128 - x];
      assert block[..128 - x] == block[..96 - x] + val;
      TrailingConcat(block[..96 - x], val);
      if !AllOnes(val) {
        var k := Ffz(val);
        x := x + k;
        return;
      }
      x := x + 32;
    }
  }

  // ----- setbit128_bbe -----

  datatype Endian = Little | Big

  /** The place in memory, counted in bits from the most significant of the first byte, of the
      bit that __set_bit sets in an array of words of `width` bits. */
  function SetBitAt(e: Endian, width: nat, nr: nat): nat
    requires width == 32 || width == 64
  {
    var low := nr % width / 8;
    var byte := nr / width * (width / 8) + (if e.Little? then low else width / 8 - 1 - low);
    8 * byte + (7 - nr % 8)
  }

  /** bit ^ 0x78, on the seven bits of a bit number. */
  function Swizzle(bit: nat): nat {
    ToNat(Xor(OfNat(bit, 7), [true, true, true, true] + [false] + [false] + [false]))
  }

  lemma XorSnoc(a: bits, m: bits, b: bool, c: bool)
    requires |a| == |m|
    ensures ToNat(Xor(a + [b], m + [c])) == 2 * ToNat(Xor(a, m)) + if b != c then 1 else 0
  {
    var x := Xor(a + [b], m + [c]);
    assert x[..|x| - 1] == Xor(a, m) && x[|x| - 1] == (b != c);
  }

  lemma {:induction false} XorOnes(n: nat, m: bits)
    requires AllOnes(m) && n < Pow2(|m|)
    ensures ToNat(Xor(OfNat(n, |m|), m)) == Pow2(|m|) - 1 - n
    decreases |m|
  {
    if m != [] {
      var p := m[..|m| - 1];
      assert m == p + [true];
      XorOnes(n / 2, p);
      XorSnoc(OfNat(n / 2, |p|), p, n % 2 == 1, true);
    }
  }

  lemma OfNatSnoc(n: nat, width: nat)
    requires width > 0
    ensures OfNat(n, width) == OfNat(n / 2, width - 1) + [n % 2 == 1]
  {
  }

  lemma {:induction false} XorThree(a: bits, m: bits, x: bool, y: bool, z: bool)
    requires |a| == |m|
    ensures ToNat(Xor(a + [x] + [y] + [z], m + [false] + [false] + [false])) ==
            8 * ToNat(Xor(a, m)) + 4 * One(x) + 2 * One(y) + One(z)
  {
    XorSnoc(a + [x] + [y], m + [false] + [false], z, false);
    XorSnoc(a + [x], m + [false], y, false);
    XorSnoc(a, m, x, false);
  }

  lemma {:induction false} LowThree(n: nat, width: nat)
    requires width >= 3
    ensures OfNat(n, width) == OfNat(n / 8, width - 3) + [n / 4 % 2 == 1] + [n / 2 % 2 == 1] + [n % 2 == 1]
    ensures n % 8 == 4 * One(n / 4 % 2 == 1) + 2 * One(n / 2 % 2 == 1) + One(n % 2 == 1)
  {
    OfNatSnoc(n, width);
    OfNatSnoc(n / 2, width - 1);
    OfNatSnoc(n / 4, width - 2);
    assert n / 2 / 2 == n / 4 && n / 4 / 2 == n / 8;
  }

  lemma {:induction false} SwizzleWith(bit: nat, ones: bits)
    requires AllOnes(ones) && bit / 8 < Pow2(|ones|)
    ensures ToNat(Xor(OfNat(bit, |ones| + 3), ones + [false] + [false] + [false])) ==
            8 * (Pow2(|ones|) - 1 - bit / 8) + bit % 8
  {
    LowThree(bit, |ones| + 3);
    XorThree(OfNat(bit / 8, |ones|), ones, bit / 4 % 2 == 1, bit / 2 % 2 == 1, bit % 2 == 1);
    XorOnes(bit / 8, ones);
  }

  /** The bytes are reversed, the bits in a byte are not. */
  lemma {:induction false} SwizzleReverses(bit: nat)
    requires bit < 128
    ensures Swizzle(bit) == 8 * (15 - bit / 8) + bit % 8
  {
    assert Pow2(4) == 16;
    SwizzleWith(bit, [true, true, true, true]);
  }

  lemma {:induction false} Byte32(q: nat, r: nat)
    requires r < 32
    ensures (32 * q + r) / 8 == 4 * q + r / 8
  {
  }

  lemma {:induction false} LittleByte(nr: nat, width: nat)
    requires width == 32 || width == 64
    ensures nr / width * (width / 8) + nr % width / 8 == nr / 8
  {
    if width == 32 {
      Byte32(nr / 32, nr % 32);
    } else {
      var q, r := nr / 64, nr % 64;
      Byte32(2 * q + r / 32, r % 32);
      Byte32(r / 32, r % 32);
    }
  }

  /** The least significant byte first, byte and bit follow the bit number; otherwise the byte
      is another one. */
  lemma {:induction false} SetBitByte(e: Endian, width: nat, nr: nat)
    requires width == 32 || width == 64
    ensures SetBitAt(e, width, nr) == 8 * (nr / 8) + (7 - nr % 8) <==> e.Little?
    ensures nr < 128 ==> SetBitAt(e, width, nr) < 128
  {
    LittleByte(nr, width);
    var low := nr % width / 8;
    assert low < width / 8;
    assert nr < 128 ==> nr / width <= 128 / width - 1;
    assert width / 8 - 1 - low != low;
  }

  lemma {:induction false} PlaceOf(e: Endian, width: nat, bit: nat, nr: nat)
    requires (width == 32 || width == 64) && bit < 128 && nr == 8 * (15 - bit / 8) + bit % 8
    ensures SetBitAt(e, width, nr) < 128 && (SetBitAt(e, width, nr) == 127 - bit <==> e.Little?)
  {
    SetBitByte(e, width, nr);
    assert nr / 8 == 15 - bit / 8 && nr % 8 == bit % 8 && bit == 8 * (bit / 8) + bit % 8;
  }

  lemma {:induction false} SwizzledPlace(e: Endian, width: nat, bit: nat)
    requires (width == 32 || width == 64) && bit < 128
    ensures SetBitAt(e, width, Swizzle(bit)) < 128
    ensures SetBitAt(e, width, Swizzle(bit)) == 127 - bit <==> e.Little?
  {
    SwizzleReverses(bit);
    PlaceOf(e, width, bit, Swizzle(bit));
  }

  /** setbit128_bbe */
  function SetBit(e: Endian, width: nat, b: Elem, bit: nat): (r: Elem)
    requires (width == 32 || width == 64) && bit < 128
    ensures e.Little? ==> r == b[127 - bit := true]
  {
    SwizzledPlace(e, width, bit);
    b[SetBitAt(e, width, Swizzle(bit)) := true]
  }

  /** For every bit, setbit128_bbe sets the coefficient of x^bit if and only if words are
      stored with the least significant byte first. */
  lemma {:induction false} SetBitIffLittle(e: Endian, width: nat, bit: nat)
    requires (width == 32 || width == 64) && bit < 128
    ensures Coef(Bbe, SetBit(e, width, Zero(128), bit), bit) <==> e.Little?
  {
    SwizzledPlace(e, width, bit);
  }

  // ----- the tweak -----

  /** The tweak of block n: (IV + n) * Key2. */
  function Tweak(iv: Elem, key2: Elem, n: nat): Elem {
    Mul(Bbe, Counter(iv, n), key2)
  }

  ghost predicate IsMulinc(key2: Elem, mulinc: seq<Elem>, n: nat)
    requires n <= 128
  {
    |mulinc| == n && forall i :: 0 <= i < n ==> mulinc[i] == Mul(Bbe, Mask(128, i + 1), key2)
  }

  /** One xor takes the tweak of block n to that of block n + 1. */
  lemma TweakStep(iv: Elem, key2: Elem, n: nat, k: nat)
    requires Room(iv, n) && k == TrailingOnes(Counter(iv, n)) < 128
    ensures Tweak(iv, key2, n + 1) == Xor(Tweak(iv, key2, n), Mul(Bbe, Mask(128, k + 1), key2))
  {
    var c := Counter(iv, n);
    CounterInc(iv, n);
    IncIsRipple(c);
    RippleFlips(c);
    MulXor(Bbe, c, Mask(128, k + 1), key2);
  }

  lemma {:induction false} OnesIsMax(w: bits)
    ensures ToNat(w) + 1 == Pow2(|w|) <==> AllOnes(w)
    decreases |w|
  {
    if w != [] {
      var p := w[..|w| - 1];
      OnesIsMax(p);
      assert AllOnes(w) <==> AllOnes(p) && w[|w| - 1];
    }
  }

  /** The index is inside mulinc exactly when the counter can still be incremented. */
  lemma CounterHasZero(iv: Elem, n: nat)
    requires Room(iv, n)
    ensures TrailingOnes(Counter(iv, n)) < 128 <==> Room(iv, n + 1)
  {
    var c := Counter(iv, n);
    ToNatOfNat(ToNat(iv) + n, |iv|);
    AllOnesTrailing(c);
    OnesIsMax(c);
  }

  /** lrw_round */
  function Round(fn: Elem -> Elem, t: Elem, block: Elem): Elem {
    Xor(fn(Xor(t, block)), t)
  }

  /** Before and after fn the block is xored with the tweak. */
  lemma {:induction false} RoundUsesTweak(fn: Elem -> Elem, t: Elem, block: Elem)
    ensures Xor(Round(fn, t, block), t) == fn(Xor(block, t))
  {
    var y := fn(Xor(t, block));
    assert Xor(t, block) == Xor(block, t);
    assert Xor(Xor(y, t), t) == y;
  }

  /** lrw_round, on block i of two buffers that may be one. */
  method LrwRound(fn: Elem -> Elem, t: Elem, dst: array<Elem>, src: array<Elem>, i: nat)
    requires i < src.Length && i < dst.Length
    modifies dst
    ensures Xor(dst[i], t) == fn(Xor(old(src[i]), t))
    ensures dst[..] == old(dst[..])[i := Round(fn, t, old(src[i]))]
  {
    RoundUsesTweak(fn, t, src[i]);
    dst[i] := Xor(t, src[i]);
    dst[i] := fn(dst[i]);
    dst[i] := Xor(dst[i], t);
  }

  /** The mode: every block by its own tweak. */
  function Mode(fn: Elem -> Elem, iv: Elem, key2: Elem, msg: seq<Elem>): (r: seq<Elem>)
    ensures |r| == |msg|
  {
    seq(|msg|, n requires 0 <= n < |msg| => Round(fn, Tweak(iv, key2, n), msg[n]))
  }

  /** LRW, block by block: with t = (IV + n) * Key2, the xor of the output with t is fn of the
      xor of the input with t. */
  ghost predicate Tweaked(fn: Elem -> Elem, iv: Elem, key2: Elem, msg: seq<Elem>, out: seq<Elem>) {
    |out| == |msg| &&
    forall n :: 0 <= n < |msg| ==> var t := Mul(Bbe, Counter(iv, n), key2); Xor(out[n], t) == fn(Xor(msg[n], t))
  }

  lemma {:induction false} ModeUsesTweaks(fn: Elem -> Elem, iv: Elem, key2: Elem, msg: seq<Elem>)
    ensures Tweaked(fn, iv, key2, msg, Mode(fn, iv, key2, msg))
  {
    var out := Mode(fn, iv, key2, msg);
    forall n | 0 <= n < |msg|
      ensures var t := Mul(Bbe, Counter(iv, n), key2); Xor(out[n], t) == fn(Xor(msg[n], t))
    {
      RoundUsesTweak(fn, Tweak(iv, key2, n), msg[n]);
    }
  }

  lemma RoundInverts(enc: Elem -> Elem, dec: Elem -> Elem, t: Elem, block: Elem)
    requires forall e: Elem :: dec(enc(e)) == e
    ensures Round(dec, t, Round(enc, t, block)) == block
  {
    var x := Xor(t, block);
    var y := enc(x);
    XorLaws(t, block);
    XorLaws(y, t);
    XorLaws(block, t);
    XorLaws(t, Xor(y, t));
    assert Xor(t, Xor(y, t)) == y;
  }

  /** Decryption inverts encryption. */
  lemma ModeInverts(enc: Elem -> Elem, dec: Elem -> Elem, iv: Elem, key2: Elem, msg: seq<Elem>)
    requires forall e: Elem :: dec(enc(e)) == e
    ensures Mode(dec, iv, key2, Mode(enc, iv, key2, msg)) == msg
  {
    forall n | 0 <= n < |msg| ensures Mode(dec, iv, key2, Mode(enc, iv, key2, msg))[n] == msg[n] {
      RoundInverts(enc, dec, Tweak(iv, key2, n), msg[n]);
    }
  }

  /** The first n blocks are in dst, the others still to be read from src. */
  ghost predicate Halfway(msg: seq<Elem>, out: seq<Elem>, src: seq<Elem>, dst: seq<Elem>, n: nat) {
    |src| == |dst| == |msg| == |out| && n <= |msg| && src[n..] == msg[n..] && dst[..n] == out[..n]
  }

  lemma HalfwayStep(msg: seq<Elem>, out: seq<Elem>, src: seq<Elem>, dst: seq<Elem>, n: nat)
    requires Halfway(msg, out, src, dst, n) && n < |msg|
    ensures src[n] == msg[n]
    ensures Halfway(msg, out, src, dst[n := out[n]], n + 1)
    ensures src == dst ==> Halfway(msg, out, dst[n := out[n]], dst[n := out[n]], n + 1)
  {
    assert src[n] == src[n..][0] && src[n + 1..] == src[n..][1..];
    assert msg[n + 1..] == msg[n..][1..] && out[..n + 1] == out[..n] + [out[n]];
  }

  /** The values that the counter and the tweak take, block by block. */
  ghost predicate IsLadder(iv: Elem, key2: Elem, counters: seq<Elem>, tweaks: seq<Elem>) {
    |tweaks| == |counters| &&
    forall n :: 0 <= n < |tweaks| ==> Room(iv, n) && counters[n] == Counter(iv, n) && tweaks[n] == Tweak(iv, key2, n)
  }


  ghost predicate Ladder(iv: Elem, key2: Elem, counters: seq<Elem>, tweaks: seq<Elem>) {
    |tweaks| == |counters| && forall u {:trigger Open(u)} :: Open(u) ==> IsLadder(iv, key2, counters, tweaks)
  }

  lemma MakeLadder(iv: Elem, key2: Elem, n: nat) returns (counters: seq<Elem>, tweaks: seq<Elem>)
    requires n > 0 ==> Room(iv, n - 1)
    ensures |tweaks| == n && Ladder(iv, key2, counters, tweaks)
  {
    counters := seq(n, k requires 0 <= k < n => Counter(iv, k));
    tweaks := seq(n, k requires 0 <= k < n => Tweak(iv, key2, k));
  }

  lemma LadderMode(fn: Elem -> Elem, iv: Elem, key2: Elem, msg: seq<Elem>, counters: seq<Elem>, tweaks: seq<Elem>)
    requires |msg| == |tweaks| && Ladder(iv, key2, counters, tweaks)
    ensures Mode(fn, iv, key2, msg) == ByTweak(fn, tweaks, msg)
    ensures |msg| > 0 ==> counters[|msg| - 1] == Counter(iv, |msg| - 1)
  {
    assert Open(true);
  }

  /** The tweak and the counter between blocks: those of the last block done. */
  ghost predicate At(counters: seq<Elem>, tweaks: seq<Elem>, n: nat, t: Elem, cur: Elem) {
    var last := if n > 0 then n - 1 else 0;
    last < |tweaks| == |counters| && t == tweaks[last] && cur == counters[last]
  }

  function ByTweak(fn: Elem -> Elem, tweaks: seq<Elem>, msg: seq<Elem>): (r: seq<Elem>)
    requires |tweaks| == |msg|
    ensures |r| == |msg| && forall n :: 0 <= n < |msg| ==> r[n] == Round(fn, tweaks[n], msg[n])
  {
    seq(|msg|, n requires 0 <= n < |msg| => Round(fn, tweaks[n], msg[n]))
  }

  lemma {:induction false} MaskNext(width: nat, i: nat)
    requires (width == 32 || width == 64) && i < 128
    ensures SetBit(Little, width, Mask(128, i), i) == Mask(128, i + 1)
  {
  }

  /** The loop of setkey: one more bit is set every time. */
  method FillMulinc(table: seq<seq<Elem>>, width: nat, ghost key2: Elem) returns (mulinc: seq<Elem>)
    requires (width == 32 || width == 64) && IsTables(Bbe, key2, table, 16)
    ensures IsMulinc(key2, mulinc, 128)
  {
    mulinc := [];
    var tmp: Elem := Zero(128);
    var i := 0;
    while i < 128
      invariant 0 <= i <= 128 && tmp == Mask(128, i) && IsMulinc(key2, mulinc, i)
    {
      MaskNext(width, i);
      tmp := SetBit(Little, width, tmp, i);
      var product := Mul64k(Bbe, tmp, table, key2);
      mulinc := mulinc + [product];
      i := i + 1;
    }
  }

  class Priv {
    var table: seq<seq<Elem>>
    var mulinc: seq<Elem>
    ghost var key2: Elem

    ghost predicate Valid()
      reads this
    {
      forall u {:trigger Open(u)} :: Open(u) ==> IsTables(Bbe, key2, table, 16) && IsMulinc(key2, mulinc, 128)
    }

    /** setkey: the multiplication table and the 128 multiples of Key2, on a little-endian
        machine with words of `width` bits. */
    constructor (key2: Elem, width: nat)
      requires width == 32 || width == 64
      ensures Valid() && this.key2 == key2
    {
      var table := Init64k(Bbe, key2);
      var mulinc := FillMulinc(table, width, key2);
      this.table, this.mulinc, this.key2 := table, mulinc, key2;
    }

    /** The one multiplication of crypt. */
    method FirstTweak(iv: Elem, ghost counters: seq<Elem>, ghost tweaks: seq<Elem>) returns (t: Elem)
      requires Valid() && Ladder(iv, key2, counters, tweaks) && |tweaks| > 0
      ensures At(counters, tweaks, 0, t, iv)
    {
      assert Open(true);
      t := Mul64k(Bbe, iv, table, key2);
      OfNatToNat(iv);
    }

    /** One turn of the loop in crypt, before lrw_round. */
    method NextTweak(t: Elem, iv: Elem, ghost iv0: Elem, ghost n: nat, ghost counters: seq<Elem>,
                     ghost tweaks: seq<Elem>)
      returns (t': Elem, iv': Elem)
      requires Valid() && Ladder(iv0, key2, counters, tweaks) && 0 < n < |tweaks|
      requires At(counters, tweaks, n, t, iv)
      ensures At(counters, tweaks, n + 1, t', iv')
    {
      assert Open(true);
      CounterHasZero(iv0, n - 1);
      var k := GetIndex128(iv);
      TweakStep(iv0, key2, n - 1, k);
      t' := Xor(t, mulinc[k]);
      CounterInc(iv0, n - 1);
      iv' := Inc(iv);
    }

    /** The inner loop of crypt: the blocks of one piece, from block `from` on. */
    method CryptPiece(fn: Elem -> Elem, src: array<Elem>, dst: array<Elem>, from: nat, avail: nat, t: Elem, cur: Elem,
                      ghost iv: Elem, ghost msg: seq<Elem>, ghost counters: seq<Elem>, ghost tweaks: seq<Elem>)
      returns (t': Elem, cur': Elem)
      requires Valid() && 0 < avail && from + avail <= src.Length == dst.Length == |tweaks| == |msg|
      requires Ladder(iv, key2, counters, tweaks) && At(counters, tweaks, from, t, cur)
      requires Halfway(msg, ByTweak(fn, tweaks, msg), src[..], dst[..], from)
      modifies dst
      ensures Halfway(msg, ByTweak(fn, tweaks, msg), src[..], dst[..], from + avail)
      ensures At(counters, tweaks, from + avail, t', cur')
    {
      t', cur' := t, cur;
      ghost var out := ByTweak(fn, tweaks, msg);
      var pos := from;
      while pos < from + avail
        invariant from <= pos <= from + avail && Halfway(msg, out, src[..], dst[..], pos)
        invariant At(counters, tweaks, pos, t', cur')
      {
        if pos > 0 {
          t', cur' := NextTweak(t', cur', iv, pos, counters, tweaks);
        }
        HalfwayStep(msg, out, src[..], dst[..], pos);
        LrwRound(fn, t', dst, src, pos);
        pos := pos + 1;
      }
    }

    /** The outer loop of crypt. */
    method CryptPieces(fn: Elem -> Elem, iv: Elem, src: array<Elem>, dst: array<Elem>, pieces: seq<nat>,
                       ghost counters: seq<Elem>, ghost tweaks: seq<Elem>)
      returns (ivOut: Elem)
      requires Valid() && src.Length == dst.Length == |tweaks| == Total(pieces) && 0 < src.Length
      requires forall k :: 0 <= k < |pieces| ==> pieces[k] > 0
      requires Ladder(iv, key2, counters, tweaks)
      modifies dst
      ensures dst[..] == ByTweak(fn, tweaks, old(src[..]))
      ensures ivOut == counters[src.Length - 1]
    {
      ghost var msg := src[..];
      ghost var out := ByTweak(fn, tweaks, msg);
      var t := FirstTweak(iv, counters, tweaks);
      var pos, p := 0, 0;
      ivOut := iv;
      while p < |pieces|
        invariant 0 <= p <= |pieces| && pos == Total(pieces[..p])
        invariant Halfway(msg, out, src[..], dst[..], pos) && At(counters, tweaks, pos, t, ivOut)
      {
        TotalStep(pieces, p);
        t, ivOut := CryptPiece(fn, src, dst, pos, pieces[p], t, ivOut, iv, msg, counters, tweaks);
        pos := pos + pieces[p];
        p := p + 1;
      }
      assert pieces[..p] == pieces;
    }

    /** crypt: the walk hands out the blocks in pieces; src and dst may be the same buffer. */
    method Crypt(fn: Elem -> Elem, iv: Elem, src: array<Elem>, dst: array<Elem>, pieces: seq<nat>)
      returns (ivOut: Elem)
      requires Valid() && src.Length == dst.Length == Total(pieces)
      requires forall k :: 0 <= k < |pieces| ==> pieces[k] > 0
      requires src.Length > 0 ==> Room(iv, src.Length - 1)
      modifies dst
      ensures Tweaked(fn, iv, key2, old(src[..]), dst[..])
      ensures dst[..] == Mode(fn, iv, key2, old(src[..]))
      ensures ivOut == if src.Length > 0 then Counter(iv, src.Length - 1) else iv
    {
      ivOut := iv;
      if src.Length == 0 { return; }
      ghost var msg := src[..];
      ghost var counters, tweaks := MakeLadder(iv, key2, src.Length);
      ghost var out := Mode(fn, iv, key2, msg);
      LadderMode(fn, iv, key2, msg, counters, tweaks);
      ModeUsesTweaks(fn, iv, key2, msg);
      ivOut := CryptPieces(fn, iv, src, dst, pieces, counters, tweaks);
    }
  }
}
