/**
 CBC mode, crypto/cbc.c: four loops over a piece of the data, forwards or backwards, in place
 or from one buffer to another, and the walk over the pieces.
 */
module Cbc {
  import opened Common
  import opened Bits
  import opened Pieces

  /** A block, and a cipher on blocks of one width. */
  type Block = bits
  type Cipher = bits -> bits

  ghost predicate CipherOk(fn: Cipher, w: nat) {
    forall b: bits :: |b| == w ==> |fn(b)| == w
  }

  predicate Blocks(s: seq<Block>, w: nat) {
    forall i :: 0 <= i < |s| ==> |s[i]| == w
  }

  /** What one block becomes, given the one it is chained to. */
  type Step = (Block, Block) -> Block

  function Encrypts(fn: Cipher): Step {
    (b: Block, prev: Block) => if |b| == |prev| then fn(Xor(b, prev)) else []
  }

  function Decrypts(fn: Cipher): Step {
    (b: Block, prev: Block) => if |fn(b)| == |prev| then Xor(fn(b), prev) else []
  }

  /** The block that chains into the next one. */
  function Last(s: seq<Block>, iv: Block): Block {
    if s == [] then iv else s[|s| - 1]
  }

  /** CBC encryption as in section 6.2 of NIST SP 800-38A: chained to the ciphertext so far. */
  ghost function Enc(g: Step, iv: Block, m: seq<Block>): (c: seq<Block>)
    ensures |c| == |m|
    decreases |m|
  {
    if m == [] then []
    else
      var c := Enc(g, iv, m[..|m| - 1]);
      c + [g(m[|m| - 1], Last(c, iv))]
  }

  /** CBC decryption: chained to the ciphertext that is read. */
  ghost function Dec(g: Step, iv: Block, c: seq<Block>): (m: seq<Block>)
    ensures |m| == |c|
    decreases |c|
  {
    if c == [] then [] else Dec(g, iv, c[..|c| - 1]) + [g(c[|c| - 1], Last(c[..|c| - 1], iv))]
  }

  lemma {:induction false} EncSnoc(g: Step, iv: Block, m: seq<Block>, b: Block)
    ensures Enc(g, iv, m + [b]) == Enc(g, iv, m) + [g(b, Last(Enc(g, iv, m), iv))]
  {
    assert (m + [b])[..|m|] == m;
  }

  lemma {:induction false} DecSnoc(g: Step, iv: Block, c: seq<Block>, b: Block)
    ensures Dec(g, iv, c + [b]) == Dec(g, iv, c) + [g(b, Last(c, iv))]
  {
    assert (c + [b])[..|c|] == c;
  }

  lemma {:induction false} EncBlocks(fn: Cipher, w: nat, iv: Block, m: seq<Block>)
    requires CipherOk(fn, w) && |iv| == w && Blocks(m, w)
    ensures Blocks(Enc(Encrypts(fn), iv, m), w)
    decreases |m|
  {
    if m != [] {
      EncBlocks(fn, w, iv, m[..|m| - 1]);
      var prev := Last(Enc(Encrypts(fn), iv, m[..|m| - 1]), iv);
      assert |prev| == w && |Xor(m[|m| - 1], prev)| == w;
    }
  }

  /** What block i is chained to: the IV, or the ciphertext before it. */
  function Before(c: seq<Block>, iv: Block, i: nat): Block
    requires i <= |c|
  {
    if i == 0 then iv else c[i - 1]
  }

  lemma {:induction false} EncAt(g: Step, iv: Block, m: seq<Block>, i: nat)
    requires i < |m|
    ensures Enc(g, iv, m)[i] == g(m[i], Before(Enc(g, iv, m), iv, i))
    decreases |m|
  {
    var c, n := Enc(g, iv, m[..|m| - 1]), |m| - 1;
    assert Enc(g, iv, m) == c + [g(m[n], Last(c, iv))];
    if i < n { EncAt(g, iv, m[..n], i); }
  }

  lemma {:induction false} DecAt(g: Step, iv: Block, c: seq<Block>, i: nat)
    requires i < |c|
    ensures Dec(g, iv, c)[i] == g(c[i], if i == 0 then iv else c[i - 1])
    decreases |c|
  {
    if i < |c| - 1 { DecAt(g, iv, c[..|c| - 1], i); }
  }

  /** CBC encryption, block by block. */
  ghost predicate IsEncrypted(fn: Cipher, iv: Block, m: seq<Block>, c: seq<Block>) {
    |c| == |m| && forall i :: 0 <= i < |m| ==> var p := Before(c, iv, i); |m[i]| == |p| && c[i] == fn(Xor(m[i], p))
  }

  /** CBC decryption, block by block. */
  ghost predicate IsDecrypted(fn: Cipher, iv: Block, c: seq<Block>, m: seq<Block>) {
    |c| == |m| && forall i :: 0 <= i < |c| ==> var p := Before(c, iv, i); |fn(c[i])| == |p| && m[i] == Xor(fn(c[i]), p)
  }

  lemma {:induction false} EncryptsBlocks(fn: Cipher, w: nat, iv: Block, m: seq<Block>)
    requires CipherOk(fn, w) && |iv| == w && Blocks(m, w)
    ensures IsEncrypted(fn, iv, m, Enc(Encrypts(fn), iv, m))
  {
    var c := Enc(Encrypts(fn), iv, m);
    EncBlocks(fn, w, iv, m);
    forall i | 0 <= i < |m| ensures var p := Before(c, iv, i); |m[i]| == |p| && c[i] == fn(Xor(m[i], p)) {
      EncAt(Encrypts(fn), iv, m, i);
    }
  }

  lemma {:induction false} DecryptsBlocks(fn: Cipher, w: nat, iv: Block, c: seq<Block>)
    requires CipherOk(fn, w) && |iv| == w && Blocks(c, w)
    ensures IsDecrypted(fn, iv, c, Dec(Decrypts(fn), iv, c))
  {
    var m := Dec(Decrypts(fn), iv, c);
    forall i | 0 <= i < |c| ensures var p := Before(c, iv, i); |fn(c[i])| == |p| && m[i] == Xor(fn(c[i]), p) {
      DecAt(Decrypts(fn), iv, c, i);
    }
  }

  lemma StepInverts(enc: Cipher, dec: Cipher, w: nat, b: Block, prev: Block)
    requires CipherOk(enc, w) && CipherOk(dec, w) && (forall x: bits :: |x| == w ==> dec(enc(x)) == x)
    requires |b| == |prev| == w
    ensures Decrypts(dec)(Encrypts(enc)(b, prev), prev) == b
  {
    XorLaws(b, prev);
  }

  /** Decryption inverts encryption. */
  lemma {:induction false} DecEnc(enc: Cipher, dec: Cipher, w: nat, iv: Block, m: seq<Block>)
    requires CipherOk(enc, w) && CipherOk(dec, w) && (forall x: bits :: |x| == w ==> dec(enc(x)) == x)
    requires |iv| == w && Blocks(m, w)
    ensures Dec(Decrypts(dec), iv, Enc(Encrypts(enc), iv, m)) == m
    decreases |m|
  {
    if m != [] {
      var p, b := m[..|m| - 1], m[|m| - 1];
      assert m == p + [b];
      DecEnc(enc, dec, w, iv, p);
      EncBlocks(enc, w, iv, p);
      var c := Enc(Encrypts(enc), iv, p);
      EncSnoc(Encrypts(enc), iv, p, b);
      DecSnoc(Decrypts(dec), iv, c, Encrypts(enc)(b, Last(c, iv)));
      StepInverts(enc, dec, w, b, Last(c, iv));
    }
  }

  /** The right IV carries the chain from one piece to the next. */
  lemma {:induction false} EncConcat(g: Step, iv: Block, a: seq<Block>, b: seq<Block>)
    ensures Enc(g, iv, a + b) == Enc(g, iv, a) + Enc(g, Last(Enc(g, iv, a), iv), b)
    decreases |b|
  {
    if b == [] {
      assert a + b == a;
    } else {
      EncConcat(g, iv, a, b[..|b| - 1]);
      assert (a + b)[..|a + b| - 1] == a + b[..|b| - 1];
    }
  }

  lemma {:induction false} DecConcat(g: Step, iv: Block, a: seq<Block>, b: seq<Block>)
    ensures Dec(g, iv, a + b) == Dec(g, iv, a) + Dec(g, Last(a, iv), b)
    decreases |b|
  {
    if b == [] {
      assert a + b == a;
    } else {
      DecConcat(g, iv, a, b[..|b| - 1]);
      assert (a + b)[..|a + b| - 1] == a + b[..|b| - 1];
    }
  }

  // ----- the four loops -----

  ghost predicate IsEnc(g: Step, fn: Cipher, w: nat) {
    forall u {:trigger Open(u)} :: Open(u) ==> g == Encrypts(fn) && CipherOk(fn, w)
  }

  ghost predicate IsDec(g: Step, fn: Cipher, w: nat) {
    forall u {:trigger Open(u)} :: Open(u) ==> g == Decrypts(fn) && CipherOk(fn, w)
  }

  method EncryptBlock(fn: Cipher, b: Block, prev: Block, ghost g: Step, ghost w: nat) returns (x: Block)
    requires IsEnc(g, fn, w) && |b| == |prev| == w
    ensures x == g(b, prev) && |x| == w
  {
    assert Open(true);
    x := fn(Xor(b, prev));
  }

  /** crypto_cbc_encrypt_segment */
  method EncryptSegment(fn: Cipher, iv: Block, src: array<Block>, dst: array<Block>, ghost g: Step, ghost w: nat)
    returns (next: Block)
    requires IsEnc(g, fn, w) && |iv| == w && Blocks(src[..], w) && src.Length == dst.Length > 0 && src != dst
    modifies dst
    ensures dst[..] == Enc(g, iv, src[..]) && next == Last(dst[..], iv) && |next| == w
  {
    ghost var m := src[..];
    next := iv;
    var i := 0;
    while i < src.Length
      invariant 0 <= i <= src.Length && |next| == w
      invariant dst[..i] == Enc(g, iv, m[..i]) && next == Last(dst[..i], iv)
    {
      assert src[i] == m[i] && m[..i + 1] == m[..i] + [m[i]];
      EncSnoc(g, iv, m[..i], m[i]);
      next := EncryptBlock(fn, src[i], next, g, w);
      dst[i] := next;
      assert dst[..i + 1] == dst[..i] + [dst[i]];
      i := i + 1;
    }
    assert m[..i] == m && dst[..i] == dst[..];
  }

  /** The buffer of crypto_cbc_encrypt_inplace: encrypted before block i. */
  ghost function Sofar(g: Step, iv: Block, m: seq<Block>, i: nat): (r: seq<Block>)
    requires i <= |m|
    ensures |r| == |m|
  {
    Enc(g, iv, m[..i]) + m[i..]
  }

  lemma {:induction false} SofarStep(g: Step, iv: Block, m: seq<Block>, i: nat)
    requires i < |m|
    ensures Sofar(g, iv, m, i)[i] == m[i]
    ensures var x := g(m[i], Last(Enc(g, iv, m[..i]), iv));
            Sofar(g, iv, m, i)[i := x] == Sofar(g, iv, m, i + 1) && x == Last(Enc(g, iv, m[..i + 1]), iv)
  {
    assert m[..i + 1] == m[..i] + [m[i]] && m[i..] == [m[i]] + m[i + 1..];
    EncSnoc(g, iv, m[..i], m[i]);
  }

  /** crypto_cbc_encrypt_inplace */
  method EncryptInplace(fn: Cipher, iv: Block, buf: array<Block>, ghost g: Step, ghost w: nat) returns (next: Block)
    requires IsEnc(g, fn, w) && |iv| == w && Blocks(buf[..], w) && buf.Length > 0
    modifies buf
    ensures buf[..] == Enc(g, iv, old(buf[..])) && next == Last(buf[..], iv) && |next| == w
  {
    ghost var m := buf[..];
    next := iv;
    var i := 0;
    while i < buf.Length
      invariant 0 <= i <= buf.Length && buf[..] == Sofar(g, iv, m, i)
      invariant next == Last(Enc(g, iv, m[..i]), iv) && |next| == w
    {
      SofarStep(g, iv, m, i);
      assert buf[i] == buf[..][i];
      next := EncryptBlock(fn, buf[i], next, g, w);
      ghost var before := buf[..];
      buf[i] := next;
      assert buf[..] == before[i := next];
      i := i + 1;
    }
    assert m[..i] == m && buf[..] == Enc(g, iv, m);
  }

  method DecryptBlock(fn: Cipher, b: Block, prev: Block, ghost g: Step, ghost w: nat) returns (x: Block)
    requires IsDec(g, fn, w) && |b| == |prev| == w
    ensures x == g(b, prev) && |x| == w
  {
    assert Open(true);
    x := Xor(fn(b), prev);
  }

  /** crypto_cbc_decrypt_segment */
  method DecryptSegment(fn: Cipher, iv: Block, src: array<Block>, dst: array<Block>, ghost g: Step, ghost w: nat)
    returns (next: Block)
    requires IsDec(g, fn, w) && |iv| == w && Blocks(src[..], w) && src.Length == dst.Length > 0 && src != dst
    modifies dst
    ensures dst[..] == Dec(g, iv, src[..]) && next == Last(src[..], iv) && |next| == w
  {
    ghost var c := src[..];
    next := iv;
    var i := 0;
    while i < src.Length
      invariant 0 <= i <= src.Length && |next| == w
      invariant dst[..i] == Dec(g, iv, c[..i]) && next == Last(c[..i], iv)
    {
      assert src[i] == c[i] && c[..i + 1] == c[..i] + [c[i]];
      DecSnoc(g, iv, c[..i], c[i]);
      dst[i] := DecryptBlock(fn, src[i], next, g, w);
      next := src[i];
      assert dst[..i + 1] == dst[..i] + [dst[i]];
      i := i + 1;
    }
    assert c[..i] == c && dst[..i] == dst[..];
  }

  /** The buffer of crypto_cbc_decrypt_inplace: encrypted before block i, deciphered at i,
      decrypted behind it. */
  ghost function Halfway(fn: Cipher, c: seq<Block>, d: seq<Block>, i: nat): seq<Block>
    requires i < |c| == |d|
  {
    c[..i] + [fn(c[i])] + d[i + 1..]
  }

  lemma HalfwayAt(fn: Cipher, c: seq<Block>, d: seq<Block>, i: nat)
    requires i < |c| == |d|
    ensures |Halfway(fn, c, d, i)| == |c| && Halfway(fn, c, d, i)[i] == fn(c[i])
    ensures i > 0 ==> Halfway(fn, c, d, i)[i - 1] == c[i - 1]
    ensures i > 0 ==> Halfway(fn, c, d, i)[i := d[i]][i - 1 := fn(c[i - 1])] == Halfway(fn, c, d, i - 1)
    ensures i == 0 ==> Halfway(fn, c, d, i)[0 := d[0]] == d
    ensures i == |c| - 1 ==> c[i := fn(c[i])] == Halfway(fn, c, d, i)
  {
  }

  /** The xor that completes a deciphered block. */
  method Complete(deciphered: Block, prev: Block, fn: Cipher, ghost b: Block, ghost g: Step, ghost w: nat)
    returns (x: Block)
    requires IsDec(g, fn, w) && |b| == |prev| == w && deciphered == fn(b)
    ensures x == g(b, prev)
  {
    assert Open(true);
    x := Xor(deciphered, prev);
  }

  /** crypto_cbc_decrypt_inplace: backwards, so that every block finds its predecessor still
      encrypted; the last ciphertext block is saved first. */
  method DecryptInplace(fn: Cipher, iv: Block, buf: array<Block>, ghost g: Step, ghost w: nat) returns (next: Block)
    requires IsDec(g, fn, w) && |iv| == w && Blocks(buf[..], w) && buf.Length > 0
    modifies buf
    ensures buf[..] == Dec(g, iv, old(buf[..])) && next == Last(old(buf[..]), iv) && |next| == w
  {
    ghost var c := buf[..];
    ghost var d := Dec(g, iv, c);
    next := buf[buf.Length - 1];
    var i := buf.Length - 1;
    HalfwayAt(fn, c, d, i);
    buf[i] := fn(buf[i]);
    while i > 0
      invariant 0 <= i < buf.Length && buf[..] == Halfway(fn, c, d, i)
    {
      Backwards(fn, buf, i, iv, c, d, g, w);
      i := i - 1;
    }
    HalfwayAt(fn, c, d, 0);
    DecAt(g, iv, c, 0);
    assert buf[0] == buf[..][0];
    buf[0] := Complete(buf[0], iv, fn, c[0], g, w);
    assert buf[..] == Halfway(fn, c, d, 0)[0 := d[0]];
  }

  method Backwards(fn: Cipher, buf: array<Block>, i: nat, ghost iv: Block, ghost c: seq<Block>, ghost d: seq<Block>,
                   ghost g: Step, ghost w: nat)
    requires IsDec(g, fn, w) && |iv| == w && Blocks(c, w) && d == Dec(g, iv, c) && 0 < i < |c| == buf.Length
    requires buf[..] == Halfway(fn, c, d, i)
    modifies buf
    ensures buf[..] == Halfway(fn, c, d, i - 1)
  {
    DecAt(g, iv, c, i);
    HalfwayAt(fn, c, d, i);
    assert buf[i] == buf[..][i] && buf[i - 1] == buf[..][i - 1];
    ghost var before := buf[..];
    buf[i] := Complete(buf[i], buf[i - 1], fn, c[i], g, w);
    buf[i - 1] := fn(buf[i - 1]);
    assert buf[..] == before[i := d[i]][i - 1 := fn(c[i - 1])];
  }

  // ----- the walk -----

  /** The mode in either direction, and the block that it chains on with. */
  ghost function Mode(encrypt: bool, g: Step, iv: Block, data: seq<Block>): seq<Block> {
    if encrypt then Enc(g, iv, data) else Dec(g, iv, data)
  }

  ghost function Carry(encrypt: bool, g: Step, iv: Block, data: seq<Block>): Block {
    Last(if encrypt then Enc(g, iv, data) else data, iv)
  }

  lemma {:induction false} ModeConcat(encrypt: bool, g: Step, iv: Block, a: seq<Block>, b: seq<Block>)
    ensures var v := Carry(encrypt, g, iv, a);
            Mode(encrypt, g, iv, a + b) == Mode(encrypt, g, iv, a) + Mode(encrypt, g, v, b) &&
            Carry(encrypt, g, iv, a + b) == Carry(encrypt, g, v, b)
  {
    if encrypt { EncConcat(g, iv, a, b); } else { DecConcat(g, iv, a, b); }
  }

  ghost predicate IsStep(encrypt: bool, g: Step, fn: Cipher, w: nat) {
    if encrypt then IsEnc(g, fn, w) else IsDec(g, fn, w)
  }

  /** One piece: its blocks are mapped, worked on and put where they belong. */
  method Work(encrypt: bool, fn: Cipher, iv: Block, data: seq<Block>, inPlace: bool, ghost g: Step, ghost w: nat)
    returns (r: seq<Block>, next: Block)
    requires IsStep(encrypt, g, fn, w) && |iv| == w && Blocks(data, w) && data != []
    ensures r == Mode(encrypt, g, iv, data) && next == Carry(encrypt, g, iv, data) && |next| == w
  {
    var src := new Block[|data|](i requires 0 <= i < |data| => data[i]);
    assert src[..] == data;
    if inPlace {
      if encrypt { next := EncryptInplace(fn, iv, src, g, w); } else { next := DecryptInplace(fn, iv, src, g, w); }
      r := src[..];
    } else {
      var dst := new Block[|data|](_ => []);
      if encrypt {
        next := EncryptSegment(fn, iv, src, dst, g, w);
      } else {
        next := DecryptSegment(fn, iv, src, dst, g, w);
      }
      r := dst[..];
    }
  }

  /** The while loops of crypto_cbc_encrypt and crypto_cbc_decrypt. */
  method Walk(encrypt: bool, fn: Cipher, iv: Block, data: seq<Block>, sizes: seq<nat>, inPlace: nat -> bool,
              ghost g: Step, ghost w: nat)
    returns (r: seq<Block>, next: Block)
    requires IsStep(encrypt, g, fn, w) && |iv| == w && Blocks(data, w) && Total(sizes) == |data|
    requires forall k :: 0 <= k < |sizes| ==> sizes[k] > 0
    ensures r == Mode(encrypt, g, iv, data) && next == Carry(encrypt, g, iv, data)
  {
    r, next := [], iv;
    var pos, p := 0, 0;
    while p < |sizes|
      invariant 0 <= p <= |sizes| && pos == Total(sizes[..p]) <= |data| && |next| == w
      invariant r == Mode(encrypt, g, iv, data[..pos]) && next == Carry(encrypt, g, iv, data[..pos])
    {
      TotalStep(sizes, p);
      var end := pos + sizes[p];
      var s: seq<Block>;
      s, next := Work(encrypt, fn, next, data[pos..end], inPlace(p), g, w);
      assert data[..end] == data[..pos] + data[pos..end];
      ModeConcat(encrypt, g, iv, data[..pos], data[pos..end]);
      r, pos, p := r + s, end, p + 1;
    }
    assert sizes[..p] == sizes && data[..pos] == data;
  }

  /** crypto_cbc_encrypt and crypto_cbc_decrypt: any split into pieces gives the mode. */
  method Crypt(encrypt: bool, fn: Cipher, iv: Block, data: seq<Block>, sizes: seq<nat>, inPlace: nat -> bool,
               ghost w: nat)
    returns (r: seq<Block>, next: Block)
    requires CipherOk(fn, w) && |iv| == w && Blocks(data, w) && Total(sizes) == |data|
    requires forall k :: 0 <= k < |sizes| ==> sizes[k] > 0
    ensures encrypt ==> r == Enc(Encrypts(fn), iv, data) && next == Last(r, iv)
    ensures !encrypt ==> r == Dec(Decrypts(fn), iv, data) && next == Last(data, iv)
    ensures if encrypt then IsEncrypted(fn, iv, data, r) else IsDecrypted(fn, iv, data, r)
  {
    if encrypt { EncryptsBlocks(fn, w, iv, data); } else { DecryptsBlocks(fn, w, iv, data); }
    r, next := Walk(encrypt, fn, iv, data, sizes, inPlace, if encrypt then Encrypts(fn) else Decrypts(fn), w);
  }
}
