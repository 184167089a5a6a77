/**
 Partial completion of a request, __end_that_request_first in block/ll_rw_blk.c.
 */
module Completion {
  import opened Common

  datatype Vec = Vec(page: nat, offset: nat, len: nat)

  /** The vectors before idx are done; size counts the bytes of the others. */
  datatype Bio = Bio(id: nat, vecs: seq<Vec>, idx: nat, size: nat, sector: nat)

  /** The bytes of a vector, by their place in memory. */
  function VecBytes(v: Vec): (r: seq<(nat, nat)>)
    ensures |r| == v.len
  {
    seq(v.len, i requires 0 <= i < v.len => (v.page, v.offset + i))
  }

  function Bytes(vecs: seq<Vec>): seq<(nat, nat)> {
    if vecs == [] then [] else VecBytes(vecs[0]) + Bytes(vecs[1..])
  }

  /** The size of a bio matches its vectors, and it is not empty. */
  predicate BioOk(b: Bio) {
    b.idx <= |b.vecs| && b.size == |Bytes(b.vecs[b.idx..])| && b.size > 0
  }

  predicate AllOk(bios: seq<Bio>) {
    forall i :: 0 <= i < |bios| ==> BioOk(bios[i])
  }

  function BioBytes(b: Bio): seq<(nat, nat)>
    requires b.idx <= |b.vecs|
  {
    Bytes(b.vecs[b.idx..])
  }

  /** The byte stream of a request. */
  function Stream(bios: seq<Bio>): seq<(nat, nat)>
    requires AllOk(bios)
  {
    if bios == [] then [] else BioBytes(bios[0]) + Stream(bios[1..])
  }

  function Ids(bios: seq<Bio>): (r: seq<nat>)
    ensures |r| == |bios|
  {
    seq(|bios|, i requires 0 <= i < |bios| => bios[i].id)
  }

  /** The vectors without their first k bytes. */
  function Trim(vecs: seq<Vec>, k: nat): (r: seq<Vec>)
    ensures |r| <= |vecs|
  {
    if vecs == [] || k == 0 then vecs
    else if vecs[0].len <= k then Trim(vecs[1..], k - vecs[0].len)
    else [Vec(vecs[0].page, vecs[0].offset + k, vecs[0].len - k)] + vecs[1..]
  }

  lemma {:induction false} TrimBytes(vecs: seq<Vec>, k: nat)
    requires k <= |Bytes(vecs)|
    ensures Bytes(Trim(vecs, k)) == Bytes(vecs)[k..]
  {
    if vecs == [] || k == 0 {
    } else if vecs[0].len <= k {
      TrimBytes(vecs[1..], k - vecs[0].len);
    } else {
      var v := Vec(vecs[0].page, vecs[0].offset + k, vecs[0].len - k);
      assert VecBytes(v) == VecBytes(vecs[0])[k..];
      assert ([v] + vecs[1..])[1..] == vecs[1..];
    }
  }

  lemma {:induction false} TrimTrim(vecs: seq<Vec>, a: nat, b: nat)
    ensures Trim(Trim(vecs, a), b) == Trim(vecs, a + b)
  {
    if vecs == [] || a == 0 {
    } else if vecs[0].len <= a {
      TrimTrim(vecs[1..], a - vecs[0].len, b);
    } else {
      var v := Vec(vecs[0].page, vecs[0].offset + a, vecs[0].len - a);
      assert ([v] + vecs[1..])[1..] == vecs[1..];
    }
  }

  /** A bio after k of its bytes are done. */
  function Advance(b: Bio, k: nat): Bio
    requires b.idx <= |b.vecs| && k <= b.size
  {
    var r := Trim(b.vecs[b.idx..], k);
    var idx := |b.vecs| - |r|;
    Bio(b.id, b.vecs[..idx] + r, idx, b.size - k, b.sector + k / 512)
  }

  lemma AdvanceOk(b: Bio, k: nat)
    requires BioOk(b) && k < b.size
    ensures BioOk(Advance(b, k)) && BioBytes(Advance(b, k)) == BioBytes(b)[k..]
  {
    var r := Trim(b.vecs[b.idx..], k);
    TrimBytes(b.vecs[b.idx..], k);
    assert Advance(b, k).vecs[Advance(b, k).idx..] == r;
  }

  /** The work that is left of a bio, without its sector.  The vectors already done are left
      out: one of them was trimmed in place if an earlier call stopped in the middle of it. */
  function Left(b: Bio): Bio {
    Bio(b.id, if b.idx <= |b.vecs| then b.vecs[b.idx..] else [], b.idx, b.size, 0)
  }

  function AllLeft(bios: seq<Bio>): (r: seq<Bio>)
    ensures |r| == |bios|
  {
    seq(|bios|, i requires 0 <= i < |bios| => Left(bios[i]))
  }

  function Sectors(bios: seq<Bio>): (r: seq<nat>)
    ensures |r| == |bios|
  {
    seq(|bios|, i requires 0 <= i < |bios| => bios[i].sector)
  }

  /** Two counts round down to sectors like their sum if their odd bytes fill no sector. */
  predicate RoundAlike(k: nat, m: nat) {
    k % 512 + m % 512 < 512
  }

  lemma RoundTwice(k: nat, m: nat)
    ensures k / 512 + m / 512 == (k + m) / 512 <==> RoundAlike(k, m)
  {
  }

  lemma AdvanceWork(b: Bio, k: nat, m: nat)
    requires BioOk(b) && k + m < b.size
    ensures BioOk(Advance(b, k)) && Left(Advance(Advance(b, k), m)) == Left(Advance(b, k + m))
  {
    AdvanceOk(b, k);
    var r, c := Trim(b.vecs[b.idx..], k), Advance(b, k);
    assert c.vecs[c.idx..] == r;
    TrimTrim(b.vecs[b.idx..], k, m);
    var d, e := Advance(c, m), Advance(b, k + m);
    assert d.vecs[d.idx..] == Trim(r, m) && e.vecs[e.idx..] == Trim(r, m);
  }

  /** Inside one bio, k and then m bytes are k + m bytes, with the start sector if and only if
      they round alike. */
  lemma AdvanceAdvance(b: Bio, k: nat, m: nat)
    requires BioOk(b) && k + m < b.size
    ensures BioOk(Advance(b, k)) && Left(Advance(Advance(b, k), m)) == Left(Advance(b, k + m))
    ensures Advance(Advance(b, k), m).sector == Advance(b, k + m).sector <==> RoundAlike(k, m)
  {
    AdvanceWork(b, k, m);
    RoundTwice(k, m);
  }

  /** The bios that are left after k bytes: those before are ended, the first is advanced. */
  function Complete(bios: seq<Bio>, k: nat): seq<Bio>
    requires AllOk(bios)
  {
    if bios == [] || k == 0 then bios
    else if k >= bios[0].size then Complete(bios[1..], k - bios[0].size)
    else [Advance(bios[0], k)] + bios[1..]
  }

  /** How many bios k bytes end. */
  function Ended(bios: seq<Bio>, k: nat): (n: nat)
    requires AllOk(bios)
    ensures n <= |bios|
  {
    if bios == [] || k == 0 || k < bios[0].size then 0 else 1 + Ended(bios[1..], k - bios[0].size)
  }

  lemma {:induction false} CompleteOk(bios: seq<Bio>, k: nat)
    requires AllOk(bios)
    ensures AllOk(Complete(bios, k))
    decreases |bios|
  {
    if bios != [] && k > 0 {
      if k >= bios[0].size { CompleteOk(bios[1..], k - bios[0].size); } else { AdvanceOk(bios[0], k); }
    }
  }

  function Dropped<T>(s: seq<T>, k: nat): seq<T> {
    if k <= |s| then s[k..] else []
  }

  lemma DropFront<T>(a: seq<T>, b: seq<T>, k: nat)
    ensures k >= |a| ==> Dropped(a + b, k) == Dropped(b, k - |a|)
    ensures k <= |a| ==> Dropped(a + b, k) == Dropped(a, k) + b
  {
  }

  /** Completing k bytes drops the first k bytes of the stream; nothing is left, not even an
      empty bio, exactly when there were no more bytes. */
  lemma {:induction false} CompleteDrops(bios: seq<Bio>, k: nat)
    requires AllOk(bios)
    ensures AllOk(Complete(bios, k)) && Stream(Complete(bios, k)) == Dropped(Stream(bios), k)
    ensures Complete(bios, k) == [] <==> k >= |Stream(bios)|
    decreases |bios|
  {
    CompleteOk(bios, k);
    if bios != [] && k > 0 {
      DropFront(BioBytes(bios[0]), Stream(bios[1..]), k);
      if k >= bios[0].size {
        CompleteDrops(bios[1..], k - bios[0].size);
      } else {
        AdvanceOk(bios[0], k);
        assert Complete(bios, k)[1..] == bios[1..];
      }
    }
  }

  /** The bios that are left are the last ones, in order. */
  lemma {:induction false} CompleteIds(bios: seq<Bio>, k: nat)
    requires AllOk(bios)
    ensures Ids(Complete(bios, k)) == Ids(bios)[Ended(bios, k)..]
    decreases |bios|
  {
    if bios != [] && k > 0 {
      if k >= bios[0].size {
        CompleteIds(bios[1..], k - bios[0].size);
        assert Ids(bios)[1..] == Ids(bios[1..]);
      } else {
        assert Complete(bios, k)[1..] == bios[1..];
      }
    }
  }

  lemma {:induction false} CompleteFirst(bios: seq<Bio>, k: nat)
    requires AllOk(bios) && bios != [] && k > 0
    ensures k >= bios[0].size ==> Complete(bios, k) == Complete(bios[1..], k - bios[0].size)
    ensures k < bios[0].size ==> Complete(bios, k) == [Advance(bios[0], k)] + bios[1..]
  {
  }

  lemma {:induction false} TwiceInside(bios: seq<Bio>, a: nat, b: nat)
    requires AllOk(bios) && bios != [] && 0 < a && 0 < b && a + b < bios[0].size
    ensures AllOk(Complete(bios, a)) && BioOk(Advance(bios[0], a))
    ensures Complete(Complete(bios, a), b) == [Advance(Advance(bios[0], a), b)] + bios[1..]
    ensures Complete(bios, a + b) == [Advance(bios[0], a + b)] + bios[1..]
  {
    CompleteOk(bios, a);
    var r := [Advance(bios[0], a)] + bios[1..];
    CompleteFirst(bios, a);
    CompleteFirst(r, b);
    CompleteFirst(bios, a + b);
    assert r[0] == Advance(bios[0], a) && r[1..] == bios[1..];
    AdvanceOk(bios[0], a);
  }

  lemma {:induction false} TwiceOver(bios: seq<Bio>, a: nat, b: nat)
    requires AllOk(bios) && bios != [] && 0 < a < bios[0].size <= a + b
    ensures AllOk(Complete(bios, a)) && Complete(Complete(bios, a), b) == Complete(bios, a + b)
  {
    CompleteOk(bios, a);
    var r := [Advance(bios[0], a)] + bios[1..];
    CompleteFirst(bios, a);
    CompleteFirst(r, b);
    CompleteFirst(bios, a + b);
    assert r[1..] == bios[1..] && b - r[0].size == a + b - bios[0].size;
  }

  /** The bytes of a that go into the first bio that a does not end. */
  function Into(bios: seq<Bio>, a: nat): nat
    requires AllOk(bios)
  {
    if bios == [] || a == 0 then 0 else if a >= bios[0].size then Into(bios[1..], a - bios[0].size) else a
  }

  /** Where the two calls meet in one bio: b goes on where a stopped. */
  predicate SectorsAgree(bios: seq<Bio>, a: nat, b: nat)
    requires AllOk(bios)
  {
    Ended(bios, a + b) > Ended(bios, a) || RoundAlike(Into(bios, a), b)
  }

  predicate SameWork(bios: seq<Bio>, b: nat, all: seq<Bio>) {
    AllOk(bios) && AllLeft(Complete(bios, b)) == AllLeft(all)
  }

  predicate SameSectors(bios: seq<Bio>, b: nat, all: seq<Bio>) {
    AllOk(bios) && Sectors(Complete(bios, b)) == Sectors(all)
  }

  lemma {:induction false} SectorsInside(bios: seq<Bio>, a: nat, b: nat)
    requires AllOk(bios) && bios != [] && 0 < a && 0 < b && a + b < bios[0].size
    ensures SameWork(Complete(bios, a), b, Complete(bios, a + b)) &&
            (SameSectors(Complete(bios, a), b, Complete(bios, a + b)) <==> RoundAlike(a, b))
  {
    TwiceInside(bios, a, b);
    AdvanceAdvance(bios[0], a, b);
    FirstSector(Advance(Advance(bios[0], a), b), Advance(bios[0], a + b), bios[1..]);
  }

  lemma FirstSector(x: Bio, y: Bio, rest: seq<Bio>)
    ensures Sectors([x] + rest) == Sectors([y] + rest) <==> x.sector == y.sector
    ensures Left(x) == Left(y) ==> AllLeft([x] + rest) == AllLeft([y] + rest)
  {
    var p, q := Sectors([x] + rest), Sectors([y] + rest);
    assert p[0] == x.sector && q[0] == y.sector;
    assert forall i :: 1 <= i < |p| ==> p[i] == q[i];
  }

  lemma {:induction false} TwiceNone(bios: seq<Bio>, a: nat, b: nat)
    requires AllOk(bios) && (bios == [] || a == 0 || b == 0)
    ensures AllOk(Complete(bios, a)) && Complete(Complete(bios, a), b) == Complete(bios, a + b)
  {
    CompleteOk(bios, a);
  }

  lemma {:induction false} AgreeNone(bios: seq<Bio>, a: nat, b: nat)
    requires AllOk(bios) && (bios == [] || a == 0 || b == 0)
    ensures SectorsAgree(bios, a, b)
  {
    assert b > 0 ==> Into(bios, a) == 0;
  }

  lemma {:induction false} AgreeFirst(bios: seq<Bio>, a: nat, b: nat)
    requires AllOk(bios) && bios != [] && 0 < a < bios[0].size
    ensures SectorsAgree(bios, a, b) <==> a + b >= bios[0].size || RoundAlike(a, b)
  {
  }

  lemma {:induction false} SectorsFirst(bios: seq<Bio>, a: nat, b: nat)
    requires AllOk(bios) && bios != [] && 0 < a < bios[0].size && 0 < b
    ensures SameWork(Complete(bios, a), b, Complete(bios, a + b))
    ensures SameSectors(Complete(bios, a), b, Complete(bios, a + b)) <==> a + b >= bios[0].size || RoundAlike(a, b)
  {
    if a + b < bios[0].size {
      SectorsInside(bios, a, b);
    } else {
      TwiceOver(bios, a, b);
    }
  }

  lemma {:induction false} AgreeRest(bios: seq<Bio>, a: nat, b: nat)
    requires AllOk(bios) && bios != [] && a >= bios[0].size
    ensures AllOk(bios[1..])
    ensures SectorsAgree(bios, a, b) <==> SectorsAgree(bios[1..], a - bios[0].size, b)
  {
    assert a + b - bios[0].size == a - bios[0].size + b;
  }

  lemma {:induction false} CompleteRest(bios: seq<Bio>, a: nat, b: nat)
    requires AllOk(bios) && bios != [] && a >= bios[0].size
    ensures AllOk(bios[1..]) && Complete(bios, a) == Complete(bios[1..], a - bios[0].size)
    ensures Complete(bios, a + b) == Complete(bios[1..], a - bios[0].size + b)
  {
    assert a + b - bios[0].size == a - bios[0].size + b;
    CompleteFirst(bios, a);
    CompleteFirst(bios, a + b);
  }

  /** The statement of CompleteTwice. */
  ghost predicate Exact(bios: seq<Bio>, a: nat, b: nat)
    requires AllOk(bios)
  {
    var x, y := Complete(bios, a), Complete(bios, a + b);
    SameWork(x, b, y) && (SameSectors(x, b, y) <==> SectorsAgree(bios, a, b))
  }

  lemma {:induction false} ExactRest(bios: seq<Bio>, a: nat, b: nat)
    requires AllOk(bios) && bios != [] && a >= bios[0].size
    ensures AllOk(bios[1..]) && (Exact(bios, a, b) <==> Exact(bios[1..], a - bios[0].size, b))
  {
    AgreeRest(bios, a, b);
    CompleteRest(bios, a, b);
  }

  lemma {:induction false} ExactFirst(bios: seq<Bio>, a: nat, b: nat)
    requires AllOk(bios) && (bios == [] || a < bios[0].size || b == 0)
    ensures Exact(bios, a, b)
  {
    if bios == [] || a == 0 || b == 0 {
      TwiceNone(bios, a, b);
      AgreeNone(bios, a, b);
    } else {
      AgreeFirst(bios, a, b);
      SectorsFirst(bios, a, b);
    }
  }

  type Claim = (seq<Bio>, nat) -> bool

  /** The statement as a value, which keeps it folded in its induction. */
  ghost function ClaimOf(b: nat): Claim {
    (bios: seq<Bio>, a: nat) => AllOk(bios) ==> Exact(bios, a, b)
  }

  ghost predicate IsClaim(t: Claim, b: nat) {
    forall u {:trigger Open(u)} :: Open(u) ==> t == ClaimOf(b)
  }

  lemma {:induction false} ClaimRest(t: Claim, bios: seq<Bio>, a: nat, b: nat)
    requires IsClaim(t, b) && AllOk(bios) && bios != [] && a >= bios[0].size && t(bios[1..], a - bios[0].size)
    ensures t(bios, a)
  {
    assert Open(true);
    ExactRest(bios, a, b);
  }

  lemma {:induction false} ClaimFirst(t: Claim, bios: seq<Bio>, a: nat, b: nat)
    requires IsClaim(t, b) && AllOk(bios) && (bios == [] || a < bios[0].size || b == 0)
    ensures t(bios, a)
  {
    assert Open(true);
    ExactFirst(bios, a, b);
  }

  lemma {:induction false} AlwaysExact(t: Claim, bios: seq<Bio>, a: nat, b: nat)
    requires IsClaim(t, b) && AllOk(bios)
    ensures t(bios, a)
    decreases |bios|
  {
    if bios == [] || a < bios[0].size || b == 0 {
      ClaimFirst(t, bios, a, b);
    } else {
      AlwaysExact(t, bios[1..], a - bios[0].size, b);
      ClaimRest(t, bios, a, b);
    }
  }

  /** Completing a and then b bytes leaves the work of completing a + b bytes.  It starts at the
      same sectors if and only if no odd bytes of both calls meet to a sector in the first bio
      that is left. */
  lemma {:induction false} CompleteTwice(bios: seq<Bio>, a: nat, b: nat)
    requires AllOk(bios)
    ensures AllOk(Complete(bios, a)) && AllLeft(Complete(Complete(bios, a), b)) == AllLeft(Complete(bios, a + b))
    ensures Sectors(Complete(Complete(bios, a), b)) == Sectors(Complete(bios, a + b)) <==> SectorsAgree(bios, a, b)
  {
    AlwaysExact(ClaimOf(b), bios, a, b);
  }

  lemma {:induction false} OneBio(bio: Bio, k: nat)
    requires BioOk(bio) && 0 < k < bio.size
    ensures AllOk([bio]) && Complete([bio], k) == [Advance(bio, k)] && BioOk(Advance(bio, k))
    ensures Sectors([Advance(bio, k)]) == [bio.sector + k / 512]
  {
    CompleteFirst([bio], k);
    AdvanceOk(bio, k);
  }

  /** 300 bytes and 300 bytes do not move the start of a bio, 600 bytes do. */
  lemma {:induction false} OddBytesLag(bio: Bio)
    requires BioOk(bio) && bio.size > 600
    ensures AllOk([bio]) && AllOk(Complete([bio], 300))
    ensures Sectors(Complete(Complete([bio], 300), 300)) == [bio.sector] &&
            Sectors(Complete([bio], 600)) == [bio.sector + 1]
  {
    OneBio(bio, 300);
    OneBio(bio, 600);
    OneBio(Advance(bio, 300), 300);
  }

  /** hard_sector after k bytes: a request that is completely done is not updated. */
  function HardSector(bios: seq<Bio>, k: nat, sector: nat): nat
    requires AllOk(bios)
  {
    if Complete(bios, k) == [] then sector else sector + k / 512
  }

  /** hard_sector after two calls is that of a single call if and only if their odd bytes fill
      no sector or, for a request that is done by then, the first call moved it by none. */
  lemma {:induction false} HardSectorTwice(bios: seq<Bio>, a: nat, b: nat, sector: nat)
    requires AllOk(bios)
    ensures AllOk(Complete(bios, a))
    ensures HardSector(Complete(bios, a), b, HardSector(bios, a, sector)) == HardSector(bios, a + b, sector) <==>
            if Complete(bios, a + b) != [] then RoundAlike(a, b) else Complete(bios, a) == [] || a < 512
  {
    CompleteDrops(bios, a);
    CompleteDrops(bios, a + b);
    CompleteDrops(Complete(bios, a), b);
    RoundTwice(a, b);
  }

  /** The bios follow each other on the disk, in whole sectors. */
  predicate Contiguous(bios: seq<Bio>, sector: nat)
    decreases |bios|
  {
    bios == [] ||
    (bios[0].sector == sector && bios[0].size % 512 == 0 && Contiguous(bios[1..], sector + bios[0].size / 512))
  }

  lemma {:induction false} WholeSectors(k: nat, size: nat)
    requires size % 512 == 0 && size <= k
    ensures size / 512 + (k - size) / 512 == k / 512
  {
  }

  /** hard_sector is where the first bio that is left starts. */
  lemma {:induction false} HardSectorIsFirst(bios: seq<Bio>, k: nat, sector: nat)
    requires AllOk(bios) && Contiguous(bios, sector) && Complete(bios, k) != []
    ensures Complete(bios, k)[0].sector == HardSector(bios, k, sector) == sector + k / 512
    decreases |bios|
  {
    if k >= bios[0].size {
      WholeSectors(k, bios[0].size);
      CompleteFirst(bios, k);
      HardSectorIsFirst(bios[1..], k - bios[0].size, sector + bios[0].size / 512);
    }
  }

  /** No bio is ended by both calls, and none is missed. */
  lemma {:induction false} EndedTwice(bios: seq<Bio>, a: nat, b: nat)
    requires AllOk(bios)
    ensures AllOk(Complete(bios, a)) && Ended(bios, a + b) == Ended(bios, a) + Ended(Complete(bios, a), b)
    decreases |bios|
  {
    CompleteOk(bios, a);
    if bios == [] || a == 0 {
    } else if a >= bios[0].size {
      EndedTwice(bios[1..], a - bios[0].size, b);
    } else {
      var r := Complete(bios, a);
      assert r[1..] == bios[1..] && r[0].size == bios[0].size - a;
    }
  }

  /** In the middle of a bio, `next` vectors with `done` bytes are passed and n bytes remain. */
  ghost predicate Inside(b: Bio, next: nat, done: nat, n: nat, k: nat) {
    b.idx + next <= |b.vecs| && (next > 0 ==> done + n < b.size) && (next == 0 || k == 0 ==> done == 0) &&
    (k == 0 ==> n == 0) &&
    |Bytes(b.vecs[b.idx + next..])| + done == b.size &&
    (k > 0 ==> Trim(b.vecs[b.idx..], done + n) == Trim(b.vecs[b.idx + next..], n))
  }

  lemma {:induction false} InsideStart(b: Bio, n: nat, k: nat)
    requires BioOk(b) && (k == 0 ==> n == 0)
    ensures Inside(b, 0, 0, n, k)
  {
    assert b.vecs[b.idx + 0..] == b.vecs[b.idx..];
  }

  lemma {:induction false} PassVec(b: Bio, next: nat, done: nat, n: nat, k: nat)
    requires BioOk(b) && Inside(b, next, done, n, k) && n < b.size && (n > 0 || k == 0)
    ensures b.idx + next < |b.vecs|
    ensures var len := b.vecs[b.idx + next].len;
            len <= n ==> Inside(b, next + 1, done + len, n - len, k)
  {
    var rest := b.vecs[b.idx + next..];
    assert rest != [];
    assert rest[1..] == b.vecs[b.idx + next + 1..];
  }


  /** Ending `gone` bios has come down to completing m bytes of the rest. */
  ghost predicate Towards(all: seq<Bio>, k: nat, gone: nat, rest: seq<Bio>, m: nat)
    requires AllOk(all)
  {
    gone <= |all| && rest == all[gone..] &&
    forall u {:trigger Open(u)} :: Open(u) ==>
                                     AllOk(rest) && Complete(all, k) == Complete(rest, m) &&
                                     Ended(all, k) == gone + Ended(rest, m)
  }

  lemma {:induction false} PassBio(all: seq<Bio>, k: nat, gone: nat, rest: seq<Bio>, m: nat)
    requires AllOk(all) && Towards(all, k, gone, rest, m) && rest != [] && m >= rest[0].size
    ensures Towards(all, k, gone + 1, rest[1..], m - rest[0].size)
    ensures Ids(all)[..gone + 1] == Ids(all)[..gone] + [rest[0].id]
  {
    assert Open(true);
  }

  lemma {:induction false} Arrived(all: seq<Bio>, k: nat, gone: nat, rest: seq<Bio>, m: nat)
    requires AllOk(all) && Towards(all, k, gone, rest, m) && (rest == [] || m < rest[0].size)
    ensures Ended(all, k) == gone && AllOk(rest) && Complete(all, k) == Complete(rest, m)
  {
    assert Open(true);
  }

  lemma {:induction false} StopInside(bios: seq<Bio>, next: nat, done: nat, n: nat, k: nat)
    requires AllOk(bios) && bios != [] && Inside(bios[0], next, done, n, k) && done + n < bios[0].size
    ensures bios[0].idx + next < |bios[0].vecs|
    ensures n == 0 || n < bios[0].vecs[bios[0].idx + next].len ==> Stopped(bios[0], next, done + n, n)
  {
    var b := bios[0];
    assert b.vecs[b.idx + next..] != [];
  }

  /** The loop of __end_that_request_first at its head: `gone` bios are ended and, in the next
      one, `next` vectors with `done` bytes are passed; n bytes remain. */
  ghost predicate Turn(all: seq<Bio>, k: nat, gone: nat, next: nat, done: nat, n: nat) {
    AllOk(all) && gone <= |all| && Towards(all, k, gone, all[gone..], done + n) &&
    (gone < |all| ==> Inside(all[gone], next, done, n, k))
  }

  type Loop = (nat, nat, nat, nat) -> bool

  /** The invariant as a value, which keeps it folded. */
  ghost function LoopOf(all: seq<Bio>, k: nat): Loop {
    (gone: nat, next: nat, done: nat, n: nat) => Turn(all, k, gone, next, done, n)
  }

  ghost predicate IsLoop(t: Loop, all: seq<Bio>, k: nat) {
    forall u {:trigger Open(u)} :: Open(u) ==> t == LoopOf(all, k)
  }

  lemma {:induction false} TurnStart(all: seq<Bio>, k: nat) returns (t: Loop)
    requires AllOk(all)
    ensures IsLoop(t, all, k) && t(0, 0, 0, k)
  {
    t := LoopOf(all, k);
    assert all[0..] == all;
    if all != [] { InsideStart(all[0], k, k); }
  }

  lemma {:induction false} TurnBio(all: seq<Bio>, k: nat, t: Loop, gone: nat, next: nat, done: nat, n: nat)
    requires IsLoop(t, all, k) && t(gone, next, done, n) && gone < |all| && n >= all[gone].size
    ensures t(gone + 1, 0, 0, n - all[gone].size) && n > 0
    ensures Ids(all)[..gone + 1] == Ids(all)[..gone] + [all[gone].id]
  {
    assert Open(true);
    assert BioOk(all[gone]);
    PassBio(all, k, gone, all[gone..], n);
    assert all[gone..][1..] == all[gone + 1..];
    if gone + 1 < |all| { InsideStart(all[gone + 1], n - all[gone].size, k); }
  }

  lemma {:induction false} TurnVec(all: seq<Bio>, k: nat, t: Loop, gone: nat, next: nat, done: nat, n: nat)
    requires IsLoop(t, all, k) && t(gone, next, done, n) && gone < |all| && n < all[gone].size && (n > 0 || k == 0)
    ensures all[gone].idx + next < |all[gone].vecs|
    ensures var len := all[gone].vecs[all[gone].idx + next].len;
            len <= n ==> t(gone, next + 1, done + len, n - len)
  {
    TurnInside(all, k, t, gone, next, done, n);
    var b := all[gone];
    PassVec(b, next, done, n, k);
    var len := b.vecs[b.idx + next].len;
    if len <= n { TurnAgain(all, k, t, gone, next, done, n, next + 1, done + len, n - len); }
  }

  lemma {:induction false} TurnInside(all: seq<Bio>, k: nat, t: Loop, gone: nat, next: nat, done: nat, n: nat)
    requires IsLoop(t, all, k) && t(gone, next, done, n) && gone < |all|
    ensures BioOk(all[gone]) && Inside(all[gone], next, done, n, k)
  {
    assert Open(true);
  }

  lemma {:induction false} TurnAgain(all: seq<Bio>, k: nat, t: Loop, gone: nat, next: nat, done: nat, n: nat,
                                     next': nat, done': nat, n': nat)
    requires IsLoop(t, all, k) && t(gone, next, done, n) && gone < |all| && done + n == done' + n'
    requires Inside(all[gone], next', done', n', k)
    ensures t(gone, next', done', n')
  {
    assert Open(true);
  }

  lemma {:induction false} TurnStop(all: seq<Bio>, k: nat, t: Loop, gone: nat, next: nat, done: nat, n: nat)
    requires IsLoop(t, all, k) && t(gone, next, done, n)
    requires gone == |all| || n == 0 ||
             (gone < |all| && all[gone].idx + next < |all[gone].vecs| && n < all[gone].size &&
              n < all[gone].vecs[all[gone].idx + next].len)
    ensures AllOk(all) && gone <= |all| && Towards(all, k, gone, all[gone..], done + n)
    ensures gone < |all| ==> Stopped(all[gone], next, done + n, n)
  {
    assert Open(true);
    if gone < |all| {
      assert BioOk(all[gone]);
      StopInside(all[gone..], next, done, n, k);
    }
  }

  /** Where the loop stops: n bytes into vector `next`. */
  ghost predicate Stopped(b: Bio, next: nat, done: nat, n: nat) {
    done < b.size && b.idx + next < |b.vecs| && (n == 0 || n < b.vecs[b.idx + next].len) &&
    (done > 0 ==> Trim(b.vecs[b.idx..], done) == Trim(b.vecs[b.idx + next..], n))
  }

  /** Trimming one vector in place. */
  lemma {:induction false} TrimAt(vecs: seq<Vec>, i: nat, n: nat)
    requires i < |vecs| && (n == 0 || n < vecs[i].len)
    ensures |Trim(vecs[i..], n)| == |vecs| - i
    ensures vecs[i := Vec(vecs[i].page, vecs[i].offset + n, vecs[i].len - n)] == vecs[..i] + Trim(vecs[i..], n)
  {
    var rest := vecs[i..];
    assert rest[0] == vecs[i] && rest[1..] == vecs[i + 1..];
  }

  lemma {:induction false} StopsAt(b: Bio, next: nat, done: nat, n: nat)
    requires Stopped(b, next, done, n) && done > 0
    ensures var r := Trim(b.vecs[b.idx + next..], n);
            |r| <= |b.vecs| && Advance(b, done) ==
            Bio(b.id, b.vecs[..|b.vecs| - |r|] + r, |b.vecs| - |r|, b.size - done, b.sector + done / 512)
  {
  }

  /** What the loop leaves to be done. */
  lemma {:induction false} LoopEnds(all: seq<Bio>, k: nat, t: Loop, gone: nat, next: nat, done: nat, n: nat,
                                    rest: seq<Bio>)
    requires IsLoop(t, all, k) && t(gone, next, done, n) && gone <= |all| && rest == all[gone..]
    requires gone == |all| || n == 0 ||
             (gone < |all| && all[gone].idx + next < |all[gone].vecs| && n < all[gone].size &&
              n < all[gone].vecs[all[gone].idx + next].len)
    ensures AllOk(all) && AllOk(rest) && AllOk(Complete(all, k)) && Ended(all, k) == gone
    ensures rest == [] ==> Complete(all, k) == []
    ensures rest != [] ==> Stopped(rest[0], next, done + n, n)
    ensures rest != [] ==> Complete(all, k) == if done + n == 0 then rest else [Advance(rest[0], done + n)] + rest[1..]
  {
    TurnStop(all, k, t, gone, next, done, n);
    Arrived(all, k, gone, rest, done + n);
    CompleteOk(all, k);
    if rest != [] && done + n > 0 { CompleteFirst(rest, done + n); }
  }

  class Request {
    var bio: seq<Bio>
    var hardSector: nat
    var hardNrSectors: int
    /** The bios that bio_endio was called for. */
    ghost var ended: seq<nat>

    /** req_bio_endio and the trimming of the current vector. */
    method TrimFirst(next: nat, done: nat, n: nat)
      requires AllOk(bio) && bio != [] && 0 < done < bio[0].size
      requires Stopped(bio[0], next, done, n)
      modifies `bio
      ensures bio == [Advance(old(bio)[0], done)] + old(bio)[1..]
    {
      var b := bio[0];
      var i := b.idx + next;
      var v := b.vecs[i];
      TrimAt(b.vecs, i, n);
      StopsAt(b, next, done, n);
      var vecs := b.vecs[i := Vec(v.page, v.offset + n, v.len - n)];
      bio := [Bio(b.id, vecs, i, b.size - done, b.sector + done / 512)] + bio[1..];
    }

    /** The loop of __end_that_request_first: whole bios are ended; in the first bio left,
        `next` vectors and n bytes of the following one are done, `done` bytes in all. */
    method EndBios(nrBytes: nat)
      returns (next: nat, done: nat, n: nat, total: nat, ghost gone: nat, ghost passed: nat, ghost t: Loop)
      requires AllOk(bio)
      modifies `bio, `ended
      ensures gone <= |old(bio)| && bio == old(bio)[gone..] && ended == old(ended) + Ids(old(bio))[..gone]
      ensures IsLoop(t, old(bio), nrBytes) && t(gone, next, passed, n)
      ensures bio != [] ==> total == nrBytes && done == passed + n
      ensures bio != [] && n > 0 ==>
              var b := bio[0]; b.idx + next < |b.vecs| && n < b.size && n < b.vecs[b.idx + next].len
    {
      ghost var all := bio;
      gone, n, done, next, total := 0, nrBytes, 0, 0, 0;
      t := TurnStart(bio, nrBytes);
      while bio != []
        invariant gone <= |all| && bio == all[gone..] && t(gone, next, done, n) &&
                  ended == old(ended) + Ids(all)[..gone]
        invariant total + n == nrBytes && (bio != [] ==> n > 0 || nrBytes == 0)
        decreases |bio|, if bio == [] then 0 else |bio[0].vecs| - next
      {
        var b := bio[0];
        if n >= b.size {
          TurnBio(all, nrBytes, t, gone, next, done, n);
          bio := bio[1..];
          ended := ended + [b.id];
          next, done, gone := 0, 0, gone + 1;
          total, n := total + b.size, n - b.size;
        } else {
          TurnVec(all, nrBytes, t, gone, next, done, n);
          var nbytes := b.vecs[b.idx + next].len;
          if nbytes > n {
            passed := done;
            total, done := total + n, done + n;
            return;
          }
          next, done := next + 1, done + nbytes;
          total, n := total + nbytes, n - nbytes;
        }
        if bio != [] && n <= 0 { break; }
      }
      passed := done;
    }

    /** __end_that_request_first for a request that is not an empty barrier. */
    method EndFirst(nrBytes: nat) returns (more: bool)
      requires AllOk(bio)
      modifies this
      ensures bio == Complete(old(bio), nrBytes) && AllOk(bio)
      ensures ended == old(ended) + Ids(old(bio))[..Ended(old(bio), nrBytes)]
      ensures more == (bio != [])
      ensures hardSector == HardSector(old(bio), nrBytes, old(hardSector))
      ensures hardSector + hardNrSectors == old(hardSector) + old(hardNrSectors)
    {
      ghost var all := bio;
      ghost var gone;
      ghost var passed, t;
      var next, done, n, total;
      next, done, n, total, gone, passed, t := EndBios(nrBytes);
      LoopEnds(all, nrBytes, t, gone, next, passed, n, bio);
      if bio == [] { return false; }
      if done > 0 { TrimFirst(next, done, n); }
      hardSector, hardNrSectors := hardSector + total / 512, hardNrSectors - total / 512;
      return true;
    }
  }
}
