/**
 MD5 over a stream, crypto/md5.c: md5_update and md5_final with md5_transform as an arbitrary
 function of the hash and a block of 64 bytes.
 */
module Md5 {

  type byte = n: int | 0 <= n < 256

  const TWO64: nat := 0x1_0000_0000_0000_0000

  type Transform<!H> = (H, seq<byte>) -> H

  /** The transform over all whole blocks of a text. */
  function Fold<H>(f: Transform<H>, h: H, s: seq<byte>): H
    decreases |s|
  {
    if |s| < 64 then h else Fold(f, f(h, s[..64]), s[64..])
  }

  function Zeros(n: nat): (r: seq<byte>)
    ensures |r| == n && forall i :: 0 <= i < n ==> r[i] == 0
  {
    seq(n, _ => 0)
  }

  /** The zero bytes of section 3.1 of RFC 1321: the fewest that make the padded length 56
      modulo 64. */
  function ZeroCount(n: nat): (k: nat)
    ensures (n + 1 + k) % 64 == 56 && k < 64
  {
    (119 - n % 64) % 64
  }

  /** The n lowest bytes of v, low order first. */
  function LittleEndian(v: nat, n: nat): (r: seq<byte>)
    ensures |r| == n
  {
    if n == 0 then [] else [v % 256] + LittleEndian(v / 256, n - 1)
  }

  /** Sections 3.1 and 3.2 of RFC 1321: a one bit, zeros, and the length in bits modulo 2^64. */
  function Pad(m: seq<byte>): seq<byte> {
    m + [0x80] + Zeros(ZeroCount(|m|)) + LittleEndian((8 * |m|) % TWO64, 8)
  }

  /** The padding of the empty message is one block: a single one bit, zeros, and the length 0. */
  lemma {:induction false} PadEmpty()
    ensures |Pad([])| == 64 && Pad([])[0] == 0x80 && forall i :: 1 <= i < 64 ==> Pad([])[i] == 0
  {
    assert ZeroCount(0) == 55;
    forall i | 0 <= i < 8 ensures LittleEndian(0, 8)[i] == 0 { LittleZero(8, i); }
  }

  lemma {:induction false} LittleZero(n: nat, i: nat)
    requires i < n
    ensures |LittleEndian(0, n)| == n && LittleEndian(0, n)[i] == 0
  {
    if i > 0 { LittleZero(n - 1, i - 1); }
  }

  function Digest<H>(f: Transform<H>, h0: H, m: seq<byte>): H {
    Fold(f, h0, Pad(m))
  }

  lemma {:induction false} FoldConcat<H>(f: Transform<H>, h: H, a: seq<byte>, b: seq<byte>)
    requires |a| % 64 == 0
    ensures Fold(f, h, a + b) == Fold(f, Fold(f, h, a), b)
    decreases |a|
  {
    if |a| < 64 {
      assert a == [] && a + b == b;
    } else {
      assert (a + b)[..64] == a[..64] && (a + b)[64..] == a[64..] + b;
      FoldConcat(f, f(h, a[..64]), a[64..], b);
    }
  }

  lemma FoldOne<H>(f: Transform<H>, h: H, b: seq<byte>)
    requires |b| == 64
    ensures Fold(f, h, b) == f(h, b)
  {
    assert b[..64] == b;
  }

  /** The bytes of whole blocks. */
  function Whole(n: nat): (w: nat)
    ensures w <= n && w % 64 == 0 && n - w == n % 64
  {
    n - n % 64
  }

  /** The state after the text m: the whole blocks are in the hash, the rest is in the block. */
  ghost predicate After<H(!new)>(f: Transform<H>, h0: H, m: seq<byte>, hash: H, block: seq<byte>) {
    |block| == 64 && hash == Fold(f, h0, m[..Whole(|m|)]) && block[..|m| % 64] == m[Whole(|m|)..]
  }

  /** Absorbing a whole block at a block boundary. */
  lemma Absorb<H(!new)>(f: Transform<H>, h0: H, m: seq<byte>, b: seq<byte>, hash: H)
    requires |m| % 64 == 0 && |b| == 64 && hash == Fold(f, h0, m)
    ensures f(hash, b) == Fold(f, h0, m + b)
  {
    FoldConcat(f, h0, m, b);
    FoldOne(f, hash, b);
  }

  /** Bytes that do not fill the block. */
  lemma Partial<H(!new)>(f: Transform<H>, h0: H, m: seq<byte>, d: seq<byte>, hash: H, block: seq<byte>,
                         after: seq<byte>)
    requires After(f, h0, m, hash, block) && |m| % 64 + |d| < 64
    requires |after| == 64 && after[..|m| % 64 + |d|] == block[..|m| % 64] + d
    ensures After(f, h0, m + d, hash, after)
  {
    var w := Whole(|m|);
    assert Whole(|m + d|) == w;
    assert (m + d)[..w] == m[..w] && (m + d)[w..] == m[w..] + d;
  }

  lemma WholeAt(n: nat, w: nat)
    requires w % 64 == 0 && w <= n < w + 64
    ensures Whole(n) == w && n % 64 == n - w
  {
  }

  /** At a block boundary of the text, what is behind it is in the block. */
  lemma FullAt(n: nat, r: nat)
    requires r == n % 64
    ensures (n + (64 - r)) % 64 == 0
  {
    assert n + (64 - r) == 64 * (n / 64 + 1);
  }

  lemma {:induction false} Boundary<H(!new)>(f: Transform<H>, h0: H, m: seq<byte>, d: seq<byte>, pos: nat, hash: H,
                                             block: seq<byte>)
    requires pos <= |d| < pos + 64 && (|m| + pos) % 64 == 0 && |block| == 64
    requires hash == Fold(f, h0, m + d[..pos]) && block[..|d| - pos] == d[pos..]
    ensures After(f, h0, m + d, hash, block)
  {
    var w := |m| + pos;
    WholeAt(|m + d|, w);
    assert (m + d)[..w] == m + d[..pos] && (m + d)[w..] == d[pos..];
  }

  /** memcpy into the block. */
  method Copy(block: array<byte>, at: nat, data: seq<byte>)
    requires at + |data| <= block.Length
    modifies block
    ensures block[..] == old(block[..at]) + data + old(block[at + |data|..])
  {
    ghost var before := block[..];
    var i := 0;
    while i < |data|
      invariant 0 <= i <= |data| && block[..] == before[..at] + data[..i] + before[at + i..]
    {
      block[at + i] := data[i];
      assert data[..i + 1] == data[..i] + [data[i]];
      i := i + 1;
    }
    assert data[..i] == data;
  }

  lemma Count64(q: nat, r: nat)
    ensures (TWO64 * q + r) % 64 == r % 64
  {
    assert TWO64 * q + r == 64 * (0x400_0000_0000_0000 * q) + r;
  }

  lemma CountBits(q: nat, r: nat)
    ensures (8 * (TWO64 * q + r)) % TWO64 == (8 * r) % TWO64
  {
    assert 8 * (TWO64 * q + r) == TWO64 * (8 * q) + 8 * r;
  }

  /** The byte count wraps at 2^64, which is a multiple of the block size. */
  lemma CountFits(n: nat)
    ensures (n % TWO64) % 64 == n % 64
    ensures (8 * (n % TWO64)) % TWO64 == (8 * n) % TWO64
  {
    Count64(n / TWO64, n % TWO64);
    CountBits(n / TWO64, n % TWO64);
  }

  lemma CountAdds(n: nat, d: nat)
    ensures (n % TWO64 + d) % TWO64 == (n + d) % TWO64
  {
    var q, r := n / TWO64, n % TWO64;
    assert n + d == TWO64 * q + (r + d);
  }

  lemma Unroll(v: nat, n: nat)
    requires n > 0
    ensures LittleEndian(v, n) == [v % 256] + LittleEndian(v / 256, n - 1)
  {
  }

  function Shifted(k: nat, n: nat): nat {
    if n == 0 then k else 256 * Shifted(k, n - 1)
  }

  /** n bytes do not see what is above them. */
  lemma {:induction false} LowBytes(v: nat, k: nat, n: nat)
    ensures LittleEndian(v + Shifted(k, n), n) == LittleEndian(v, n)
  {
    if n > 0 {
      var s := Shifted(k, n - 1);
      assert (v + 256 * s) % 256 == v % 256 && (v + 256 * s) / 256 == v / 256 + s;
      LowBytes(v / 256, k, n - 1);
    }
  }

  lemma FourBytes(v: nat)
    ensures LittleEndian(v, 4) == LittleEndian(v % 0x1_0000_0000, 4)
  {
    var k := v / 0x1_0000_0000;
    assert Shifted(k, 1) == 256 * k && Shifted(k, 2) == 256 * Shifted(k, 1);
    assert Shifted(k, 4) == 256 * Shifted(k, 3) == 0x1_0000_0000 * k;
    LowBytes(v % 0x1_0000_0000, k, 4);
  }

  lemma Halves(v: nat)
    ensures LittleEndian(v, 8) == LittleEndian(v, 4) + LittleEndian(v / 0x1_0000_0000, 4)
  {
    Unroll(v, 8);
    Unroll(v, 4);
    Unroll(v / 256, 7);
    Unroll(v / 256, 3);
    Unroll(v / 256 / 256, 6);
    Unroll(v / 256 / 256, 2);
    Unroll(v / 256 / 256 / 256, 5);
    Unroll(v / 256 / 256 / 256, 1);
    assert v / 256 / 256 / 256 / 256 == v / 0x1_0000_0000;
  }

  lemma Word(p: nat, lo: nat)
    requires lo < 0x1_0000_0000
    ensures (0x1_0000_0000 * p + lo) / 0x1_0000_0000 == p && (0x1_0000_0000 * p + lo) % 0x1_0000_0000 == lo
  {
  }

  lemma BitsOver(count: nat, p: nat)
    requires 0x2000_0000 * p <= count < 0x2000_0000 * p + 0x2000_0000
    ensures count / 0x2000_0000 == p
  {
  }

  lemma HighWord(count: nat, v: nat)
    requires v == (8 * count) % TWO64
    ensures v % 0x1_0000_0000 == (8 * count) % 0x1_0000_0000
    ensures v / 0x1_0000_0000 == (count / 0x2000_0000) % 0x1_0000_0000
  {
    var q, hi, lo := (8 * count) / TWO64, v / 0x1_0000_0000, v % 0x1_0000_0000;
    assert 8 * count == TWO64 * q + v && v == 0x1_0000_0000 * hi + lo;
    WordsOf(count, q, hi, lo);
  }

  lemma WordsOf(count: nat, q: nat, hi: nat, lo: nat)
    requires hi < 0x1_0000_0000 && lo < 0x1_0000_0000 && 8 * count == TWO64 * q + 0x1_0000_0000 * hi + lo
    ensures (8 * count) % 0x1_0000_0000 == lo && (count / 0x2000_0000) % 0x1_0000_0000 == hi
  {
    var p := 0x1_0000_0000 * q + hi;
    assert 8 * count == 0x1_0000_0000 * p + lo;
    Word(p, lo);
    Word(q, hi);
    BitsOver(count, p);
  }

  /** block[14] and block[15] hold the length in bits, low order word first. */
  lemma LengthWords(count: nat)
    ensures LittleEndian((8 * count) % TWO64, 8) ==
            LittleEndian((8 * count) % 0x1_0000_0000, 4) + LittleEndian((count / 0x2000_0000) % 0x1_0000_0000, 4)
  {
    var v := (8 * count) % TWO64;
    Halves(v);
    HighWord(count, v);
    FourBytes(v);
  }

  class Md5Ctx<H(!new)> {
    var hash: H
    const block: array<byte>
    var byteCount: nat
    const f: Transform<H>
    const h0: H
    /** What has been hashed so far. */
    ghost var msg: seq<byte>

    ghost predicate Valid()
      reads this, block
    {
      block.Length == 64 && byteCount == |msg| % TWO64 && After(f, h0, msg, hash, block[..])
    }

    /** md5_init; h0 is the initial value of section 3.3 of RFC 1321. */
    constructor (f: Transform<H>, h0: H)
      ensures Valid() && msg == [] && fresh(block) && this.f == f && this.h0 == h0
    {
      this.f, this.h0, hash := f, h0, h0;
      block := new byte[64];
      byteCount, msg := 0, [];
    }

    /** md5_transform_helper for a block that is full; m are the bytes in the hash. */
    method TransformBlock(ghost m: seq<byte>)
      requires block.Length == 64 && |m| % 64 == 0 && hash == Fold(f, h0, m)
      modifies `hash
      ensures hash == Fold(f, h0, m + block[..])
    {
      Absorb(f, h0, m, block[..], hash);
      hash := f(hash, block[..]);
    }

    /** md5_update */
    method Update(data: seq<byte>)
      requires Valid()
      modifies this, block
      ensures Valid() && msg == old(msg) + data
    {
      var r := AddCount(|data|);
      if 64 - r > |data| {
        ghost var before := block[..];
        Copy(block, r, data);
        assert block[..][..r + |data|] == before[..r] + data;
        Partial(f, h0, msg, data, hash, before, block[..]);
      } else {
        UpdateBlocks(data, r);
      }
      msg := msg + data;
    }

    /** The byte count before and after. */
    method AddCount(n: nat) returns (r: nat)
      requires byteCount == |msg| % TWO64
      modifies `byteCount
      ensures byteCount == (|msg| + n) % TWO64 && r == |msg| % 64
    {
      CountFits(|msg|);
      CountAdds(|msg|, n);
      r := byteCount % 64;
      byteCount := (byteCount + n) % TWO64;
    }

    /** The loop of md5_update over whole blocks. */
    method WholeBlocks(data: seq<byte>, start: nat) returns (pos: nat)
      requires block.Length == 64 && start <= |data| && (|msg| + start) % 64 == 0
      requires hash == Fold(f, h0, msg + data[..start])
      modifies `hash, block
      ensures start <= pos <= |data| < pos + 64 && (|msg| + pos) % 64 == 0
      ensures hash == Fold(f, h0, msg + data[..pos])
    {
      pos := start;
      while |data| - pos >= 64
        invariant start <= pos <= |data| && (|msg| + pos) % 64 == 0 && hash == Fold(f, h0, msg + data[..pos])
      {
        NextBlock(msg + data[..pos], data[pos..pos + 64]);
        assert msg + data[..pos] + data[pos..pos + 64] == msg + data[..pos + 64];
        pos := pos + 64;
      }
    }

    /** The part of md5_update for data that fills the block. */
    method UpdateBlocks(data: seq<byte>, r: nat)
      requires block.Length == 64 && After(f, h0, msg, hash, block[..]) && r == |msg| % 64 && 64 - r <= |data|
      modifies `hash, block
      ensures After(f, h0, msg + data, hash, block[..])
    {
      var avail := 64 - r;
      FillBlock(data[..avail], r);
      FullAt(|msg|, r);
      var pos := WholeBlocks(data, avail);
      Copy(block, 0, data[pos..]);
      assert block[..][..|data| - pos] == data[pos..];
      Boundary(f, h0, msg, data, pos, hash, block[..]);
    }

    /** The block that was begun is filled and transformed. */
    method FillBlock(d: seq<byte>, r: nat)
      requires block.Length == 64 && After(f, h0, msg, hash, block[..]) && r == |msg| % 64 && |d| == 64 - r
      modifies `hash, block
      ensures hash == Fold(f, h0, msg + d)
    {
      ghost var w := Whole(|msg|);
      ghost var before := block[..];
      Copy(block, r, d);
      assert block[..] == before[..r] + d;
      TransformBlock(msg[..w]);
      assert msg[..w] + (msg[w..] + d) == msg + d;
    }

    method NextBlock(ghost m: seq<byte>, d: seq<byte>)
      requires block.Length == 64 && |m| % 64 == 0 && hash == Fold(f, h0, m) && |d| == 64
      modifies `hash, block
      ensures hash == Fold(f, h0, m + d)
    {
      Copy(block, 0, d);
      assert block[..] == d;
      TransformBlock(m);
    }

    /** md5_final: whether or not the padding needs a second block. */
    method Final() returns (out: H)
      requires Valid()
      modifies this, block
      ensures out == Digest(f, h0, old(msg))
    {
      var offset, words := LengthBytes();
      ghost var done, tail := msg[..Whole(|msg|)], block[..offset];
      PadBlocks(msg, offset, tail, words);
      FinalBlocks(offset, words, done, tail, Pad(msg));
      out := hash;
    }

    method FinalBlocks(offset: nat, words: seq<byte>, ghost done: seq<byte>, ghost tail: seq<byte>,
                       ghost padded: seq<byte>)
      requires block.Length == 64 && offset < 64 && |words| == 8 && tail == block[..offset]
      requires |done| % 64 == 0 && hash == Fold(f, h0, done)
      requires offset <= 55 ==> padded == done + (tail + [0x80] + Zeros(55 - offset) + words)
      requires offset > 55 ==> padded == done + (tail + [0x80] + Zeros(63 - offset)) + (Zeros(56) + words)
      modifies `hash, block
      ensures hash == Fold(f, h0, padded)
    {
      block[offset] := 0x80;
      ghost var head := tail + [0x80];
      assert block[..offset + 1] == head;
      if 55 < offset {
        Spill(offset + 1, done, head);
        ghost var first := head + Zeros(63 - offset);
        LastBlock(0, words, done + first, []);
        assert [] + Zeros(56) + words == Zeros(56) + words;
      } else {
        LastBlock(offset + 1, words, done, head);
      }
    }

    /** The block is filled up with zeros, and a new one is begun. */
    method Spill(at: nat, ghost done: seq<byte>, ghost head: seq<byte>)
      requires block.Length == 64 && at <= 64 && head == block[..at]
      requires |done| % 64 == 0 && hash == Fold(f, h0, done)
      modifies `hash, block
      ensures hash == Fold(f, h0, done + (head + Zeros(64 - at)))
    {
      Copy(block, at, Zeros(64 - at));
      assert block[..] == head + Zeros(64 - at);
      TransformBlock(done);
    }

    /** Zeros up to the length, and the length. */
    method LastBlock(at: nat, words: seq<byte>, ghost done: seq<byte>, ghost head: seq<byte>)
      requires block.Length == 64 && at <= 56 && |words| == 8 && head == block[..at]
      requires |done| % 64 == 0 && hash == Fold(f, h0, done)
      modifies `hash, block
      ensures hash == Fold(f, h0, done + (head + Zeros(56 - at) + words))
    {
      Copy(block, at, Zeros(56 - at));
      Copy(block, 56, words);
      assert block[..] == head + Zeros(56 - at) + words;
      TransformBlock(done);
    }

    /** The bytes of the last two words of the final block. */
    method LengthBytes() returns (offset: nat, words: seq<byte>)
      requires byteCount == |msg| % TWO64
      ensures offset == |msg| % 64 && words == LittleEndian((8 * |msg|) % TWO64, 8)
    {
      CountFits(|msg|);
      LengthWords(byteCount);
      offset := byteCount % 64;
      words := LittleEndian((8 * byteCount) % 0x1_0000_0000, 4) +
               LittleEndian((byteCount / 0x2000_0000) % 0x1_0000_0000, 4);
    }
  }

  lemma ZeroCountIs(n: nat)
    ensures n % 64 <= 55 ==> ZeroCount(n) == 55 - n % 64
    ensures n % 64 > 55 ==> ZeroCount(n) == (63 - n % 64) + 56
  {
  }

  lemma ZerosSplit(a: nat, b: nat)
    ensures Zeros(a + b) == Zeros(a) + Zeros(b)
  {
  }

  lemma Regroup(a: seq<byte>, t: seq<byte>, x: seq<byte>, y: seq<byte>, z: seq<byte>, w: seq<byte>)
    ensures a + t + x + (y + z) + w == a + (t + x + y) + (z + w)
    ensures a + t + x + y + w == a + (t + x + y + w)
  {
  }

  /** The padded text, cut at the last block boundary of the text. */
  lemma {:induction false} PadBlocks(m: seq<byte>, offset: nat, tail: seq<byte>, words: seq<byte>)
    requires offset == |m| % 64 && tail == m[Whole(|m|)..] && words == LittleEndian((8 * |m|) % TWO64, 8)
    ensures offset <= 55 ==> Pad(m) == m[..Whole(|m|)] + (tail + [0x80] + Zeros(55 - offset) + words)
    ensures offset > 55 ==>
              Pad(m) == m[..Whole(|m|)] + (tail + [0x80] + Zeros(63 - offset)) + (Zeros(56) + words)
  {
    var a := m[..Whole(|m|)];
    assert m == a + tail;
    ZeroCountIs(|m|);
    if offset <= 55 {
      Regroup(a, tail, [0x80], Zeros(55 - offset), [], words);
    } else {
      ZerosSplit(63 - offset, 56);
      Regroup(a, tail, [0x80], Zeros(63 - offset), Zeros(56), words);
    }
  }
}
