/**
 One direction of the deadline scheduler, block/deadline-iosched.c: the tree and the fifo.
 */
module DeadlineLane {
  import opened Common
  import opened SortedList

  /** A fifo entry: the request and the time at which it expires. */
  datatype Entry = Entry(sector: nat, expires: nat)

  datatype Lane = Lane(sorted: seq<Rq>, fifo: seq<Entry>)

  function Sectors(f: seq<Entry>): (r: seq<nat>)
    ensures |r| == |f| && forall i :: 0 <= i < |f| ==> r[i] == f[i].sector
  {
    seq(|f|, i requires 0 <= i < |f| => f[i].sector)
  }

  predicate ByExpiry(f: seq<Entry>) {
    forall i, j :: 0 <= i < j < |f| ==> f[i].expires <= f[j].expires
  }

  /** Every entry expires by the given time. */
  predicate Within(f: seq<Entry>, time: nat) {
    forall i :: 0 <= i < |f| ==> f[i].expires <= time
  }

  /** Tree and fifo hold the same requests, and the fifo is sorted by expiry. */
  ghost predicate LaneOk(l: Lane) {
    Ascending(l.sorted) && Distinct(Sectors(l.fifo)) && (forall s :: s in Sectors(l.fifo) <==> Has(l.sorted, s)) &&
    ByExpiry(l.fifo)
  }

  function DropEntry(f: seq<Entry>, s: nat): (r: seq<Entry>)
    ensures forall e :: e in r ==> e in f
  {
    if f == [] then [] else if f[0].sector == s then DropEntry(f[1..], s) else [f[0]] + DropEntry(f[1..], s)
  }

  lemma {:induction false} DropEntrySectors(f: seq<Entry>, s: nat)
    ensures Sectors(DropEntry(f, s)) == Drop(Sectors(f), s)
  {
    if f != [] {
      DropEntrySectors(f[1..], s);
      assert Sectors(f)[1..] == Sectors(f[1..]);
      var r := DropEntry(f[1..], s);
      assert Sectors([f[0]] + r) == [f[0].sector] + Sectors(r);
    }
  }

  lemma {:induction false} DropEntrySorted(f: seq<Entry>, s: nat)
    requires ByExpiry(f)
    ensures ByExpiry(DropEntry(f, s))
  {
    if f != [] {
      DropEntrySorted(f[1..], s);
      var r := DropEntry(f[1..], s);
      forall j | 0 <= j < |r| ensures f[0].expires <= r[j].expires {
        assert r[j] in f[1..];
      }
    }
  }

  lemma DropEntryOk(f: seq<Entry>, s: nat, time: nat)
    ensures Sectors(DropEntry(f, s)) == Drop(Sectors(f), s)
    ensures ByExpiry(f) ==> ByExpiry(DropEntry(f, s))
    ensures Within(f, time) ==> Within(DropEntry(f, s), time)
  {
    DropEntrySectors(f, s);
    if ByExpiry(f) { DropEntrySorted(f, s); }
    var r := DropEntry(f, s);
    assert forall i :: 0 <= i < |r| ==> r[i] in f;
  }

  /** deadline_latter_request: the next request in sector order. */
  function Latter(q: seq<Rq>, s: nat): Option<nat> {
    var i := Rank(q, s);
    if i + 1 < |q| then Some(q[i + 1].sector) else None
  }

  lemma LatterHas(q: seq<Rq>, s: nat)
    requires Ascending(q)
    ensures Latter(q, s).Some? ==> Has(q, Latter(q, s).value) && Latter(q, s).value > s
  {
    var i := Rank(q, s);
    if i + 1 < |q| { assert q[i].sector >= s; }
  }

  /** deadline_remove_request, up to next_rq. */
  function Remove(l: Lane, s: nat): Lane {
    var i := Rank(l.sorted, s);
    if i == |l.sorted| then l else Lane(Without(l.sorted, i), DropEntry(l.fifo, s))
  }

  lemma {:induction false} RemoveOk(l: Lane, s: nat, time: nat)
    requires LaneOk(l) && s in Sectors(l.fifo)
    ensures LaneOk(Remove(l, s)) && (Within(l.fifo, time) ==> Within(Remove(l, s).fifo, time))
    ensures forall x :: x in Sectors(Remove(l, s).fifo) <==> x in Sectors(l.fifo) && x != s
    ensures |Remove(l, s).sorted| == |l.sorted| - 1
  {
    RankOf(l.sorted, s);
    WithoutHas(l.sorted, Rank(l.sorted, s));
    DropEntryOk(l.fifo, s, time);
    DropDistinct(Sectors(l.fifo), s);
  }

  /** deadline_add_request once no alias is left. */
  function Insert(l: Lane, rq: Rq, expires: nat): Lane {
    Lane(Placed(l.sorted, rq), l.fifo + [Entry(rq.sector, expires)])
  }

  lemma {:induction false} InsertOk(l: Lane, rq: Rq, expires: nat)
    requires LaneOk(l) && rq.sector !in Sectors(l.fifo) && Within(l.fifo, expires)
    ensures LaneOk(Insert(l, rq, expires)) && Within(Insert(l, rq, expires).fifo, expires)
    ensures forall x :: x in Sectors(Insert(l, rq, expires).fifo) <==> x in Sectors(l.fifo) || x == rq.sector
  {
    PlacedOk(l.sorted, rq);
    assert Sectors(Insert(l, rq, expires).fifo) == Sectors(l.fifo) + [rq.sector];
  }

  /** A fifo entry gets a new owner. */
  function Rename(f: seq<Entry>, t: nat, s: nat): (r: seq<Entry>)
    ensures |r| == |f| && forall i :: 0 <= i < |f| ==> r[i] == if f[i].sector == t then Entry(s, f[i].expires) else f[i]
  {
    seq(|f|, i requires 0 <= i < |f| => if f[i].sector == t then Entry(s, f[i].expires) else f[i])
  }

  lemma RenameOk(f: seq<Entry>, t: nat, s: nat, time: nat)
    requires t in Sectors(f) && s !in Sectors(f) && Distinct(Sectors(f))
    ensures Sectors(Rename(f, t, s)) == Swap(Sectors(f), t, s)
    ensures ByExpiry(f) ==> ByExpiry(Rename(f, t, s))
    ensures Within(f, time) ==> Within(Rename(f, t, s), time)
    ensures Distinct(Sectors(Rename(f, t, s)))
    ensures forall x :: x in Sectors(Rename(f, t, s)) <==> (x in Sectors(f) && x != t) || x == s
  {
    assert Sectors(Rename(f, t, s)) == Swap(Sectors(f), t, s);
    SwapHas(Sectors(f), t, s);
  }

  function ExpiryOf(f: seq<Entry>, s: nat): nat {
    if f == [] then 0 else if f[0].sector == s then f[0].expires else ExpiryOf(f[1..], s)
  }

  /** The request of sector s grows to n sectors; the scheduler is not told. */
  function Grow(l: Lane, s: nat, n: nat): Lane {
    Lane(Resized(l.sorted, s, n), l.fifo)
  }

  lemma {:induction false} GrowOk(l: Lane, s: nat, n: nat)
    requires LaneOk(l)
    ensures LaneOk(Grow(l, s, n)) && Grow(l, s, n).fifo == l.fifo
  {
    ResizedHas(l.sorted, s, n);
  }

  /** deadline_merged_requests: the request of sector t was merged into that of sector s, which
      takes over its place in the fifo if it expires earlier. */
  function Absorb(l: Lane, s: nat, t: nat): Lane {
    if ExpiryOf(l.fifo, t) < ExpiryOf(l.fifo, s) then
      Lane(Remove(l, t).sorted, Rename(DropEntry(l.fifo, s), t, s))
    else Remove(l, t)
  }

  lemma {:induction false} AbsorbOk(l: Lane, s: nat, t: nat, time: nat)
    requires LaneOk(l) && s in Sectors(l.fifo) && t in Sectors(l.fifo) && s != t
    ensures LaneOk(Absorb(l, s, t)) && (Within(l.fifo, time) ==> Within(Absorb(l, s, t).fifo, time))
    ensures forall x :: x in Sectors(Absorb(l, s, t).fifo) <==> x in Sectors(l.fifo) && x != t
  {
    RemoveOk(l, t, time);
    DropEntryOk(l.fifo, s, time);
    DropDistinct(Sectors(l.fifo), s);
    RenameOk(DropEntry(l.fifo, s), t, s, time);
  }

  lemma {:induction false} ExpiryIs(f: seq<Entry>, e: Entry)
    requires Distinct(Sectors(f)) && e in f
    ensures ExpiryOf(f, e.sector) == e.expires
  {
    if f[0] == e {
    } else {
      assert f == [f[0]] + f[1..];
      assert e in f[1..] && Sectors(f)[1..] == Sectors(f[1..]);
      var i :| 0 <= i < |f[1..]| && f[1..][i] == e;
      assert Sectors(f)[i + 1] == e.sector;
      TailDistinct(Sectors(f));
      ExpiryIs(f[1..], e);
    }
  }

  lemma {:induction false} RenameEntry(f: seq<Entry>, t: nat, s: nat, e: Entry)
    requires e in f
    ensures (if e.sector == t then Entry(s, e.expires) else e) in Rename(f, t, s)
  {
    var i :| 0 <= i < |f| && f[i] == e;
    assert Rename(f, t, s)[i] == if e.sector == t then Entry(s, e.expires) else e;
  }

  lemma {:induction false} DropEntryHas(f: seq<Entry>, s: nat, e: Entry)
    requires e in f && e.sector != s
    ensures e in DropEntry(f, s)
  {
    if f[0] != e {
      assert f == [f[0]] + f[1..];
      DropEntryHas(f[1..], s, e);
    }
  }

  lemma {:induction false} EntrySector(f: seq<Entry>, e: Entry)
    requires e in f
    ensures e.sector in Sectors(f)
  {
    var i :| 0 <= i < |f| && f[i] == e;
    assert Sectors(f)[i] == e.sector;
  }

  /** The survivor of a merge expires when the earlier of the two would have. */
  lemma {:induction false} AbsorbExpires(l: Lane, s: nat, t: nat, a: nat, b: nat)
    requires LaneOk(l) && Entry(s, a) in l.fifo && Entry(t, b) in l.fifo && s != t
    ensures Entry(s, if b < a then b else a) in Absorb(l, s, t).fifo
  {
    ExpiryIs(l.fifo, Entry(s, a));
    ExpiryIs(l.fifo, Entry(t, b));
    if b < a {
      DropEntryHas(l.fifo, s, Entry(t, b));
      RenameEntry(DropEntry(l.fifo, s), t, s, Entry(t, b));
    } else {
      DropEntryHas(l.fifo, t, Entry(s, a));
      EntrySector(l.fifo, Entry(t, b));
      RankOf(l.sorted, t);
    }
  }

  /** Every other request expires when it did before. */
  lemma {:induction false} AbsorbKeeps(l: Lane, s: nat, t: nat, e: Entry)
    requires LaneOk(l) && s in Sectors(l.fifo) && t in Sectors(l.fifo) && s != t
    requires e in l.fifo && e.sector != s && e.sector != t
    ensures e in Absorb(l, s, t).fifo
  {
    DropEntryHas(l.fifo, s, e);
    DropEntryHas(l.fifo, t, e);
    RenameEntry(DropEntry(l.fifo, s), t, s, e);
    RankOf(l.sorted, t);
  }

  /** The end of deadline_merged_request: the request of sector s, already out of the tree,
      goes back with its new start. */
  function PutBack(l: Lane, s: nat, rq: Rq): Lane {
    Lane(Placed(l.sorted, rq), Rename(l.fifo, s, rq.sector))
  }

  function Lift(l: Lane, s: nat): Lane {
    if Rank(l.sorted, s) < |l.sorted| then Lane(Without(l.sorted, Rank(l.sorted, s)), l.fifo) else l
  }

  /** deadline_merged_request for a front merge from s to t; a request that starts at t leaves. */
  function FrontMerge(l: Lane, s: nat, t: nat): Lane
    requires t < s
  {
    if Rank(l.sorted, s) == |l.sorted| then l else
      var rq := l.sorted[Rank(l.sorted, s)];
      PutBack(Freed(l, s, t), s, rq.(sector := t, nr := rq.nr + (s - t)))
  }

  /** In between, the request is in the fifo only. */
  ghost predicate Lifted(l: Lane, s: nat) {
    Ascending(l.sorted) && Distinct(Sectors(l.fifo)) && ByExpiry(l.fifo) && !Has(l.sorted, s) &&
    forall x :: x in Sectors(l.fifo) <==> Has(l.sorted, x) || x == s
  }

  lemma {:induction false} LiftOk(l: Lane, s: nat, i: nat)
    requires LaneOk(l) && i < |l.sorted| && l.sorted[i].sector == s
    ensures Lifted(Lane(Without(l.sorted, i), l.fifo), s)
  {
    WithoutHas(l.sorted, i);
  }

  lemma {:induction false} EvictOk(l: Lane, s: nat, t: nat, time: nat)
    requires Lifted(l, s) && t in Sectors(l.fifo) && t != s
    ensures Lifted(Remove(l, t), s) && |Remove(l, t).sorted| == |l.sorted| - 1
    ensures forall x :: x in Sectors(Remove(l, t).fifo) <==> x in Sectors(l.fifo) && x != t
    ensures Latter(l.sorted, t).Some? ==> Has(Remove(l, t).sorted, Latter(l.sorted, t).value)
    ensures Within(l.fifo, time) ==> Within(Remove(l, t).fifo, time)
  {
    RankOf(l.sorted, t);
    WithoutHas(l.sorted, Rank(l.sorted, t));
    LatterHas(l.sorted, t);
    DropEntryOk(l.fifo, t, time);
    DropDistinct(Sectors(l.fifo), t);
  }

  lemma {:induction false} PutBackOk(l: Lane, s: nat, rq: Rq, time: nat)
    requires Lifted(l, s) && rq.sector !in Sectors(l.fifo)
    ensures LaneOk(PutBack(l, s, rq)) && (Within(l.fifo, time) ==> Within(PutBack(l, s, rq).fifo, time))
    ensures forall x :: x in Sectors(PutBack(l, s, rq).fifo) <==> (x in Sectors(l.fifo) && x != s) || x == rq.sector
  {
    PlacedOk(l.sorted, rq);
    RenameOk(l.fifo, s, rq.sector, time);
  }

  function Freed(l: Lane, s: nat, t: nat): Lane {
    if t in Sectors(l.fifo) then Remove(Lift(l, s), t) else Lift(l, s)
  }

  lemma {:induction false} FreedOk(l: Lane, s: nat, t: nat, time: nat)
    requires LaneOk(l) && s in Sectors(l.fifo) && t < s
    ensures Rank(l.sorted, s) < |l.sorted| && Lifted(Freed(l, s, t), s) && t !in Sectors(Freed(l, s, t).fifo)
    ensures forall x :: x in Sectors(Freed(l, s, t).fifo) <==> x in Sectors(l.fifo) && x != t
    ensures Within(l.fifo, time) ==> Within(Freed(l, s, t).fifo, time)
  {
    RankOf(l.sorted, s);
    LiftOk(l, s, Rank(l.sorted, s));
    if t in Sectors(l.fifo) { EvictOk(Lift(l, s), s, t, time); }
  }

  /** With or without an alias, a front merge keeps the lane in agreement. */
  lemma {:induction false} FrontMergeOk(l: Lane, s: nat, t: nat, time: nat)
    requires LaneOk(l) && s in Sectors(l.fifo) && t < s
    ensures LaneOk(FrontMerge(l, s, t)) && (Within(l.fifo, time) ==> Within(FrontMerge(l, s, t).fifo, time))
    ensures forall x :: x in Sectors(FrontMerge(l, s, t).fifo) <==> (x in Sectors(l.fifo) && x != s) || x == t
  {
    FreedOk(l, s, t, time);
    var p, was := Freed(l, s, t), l.sorted[Rank(l.sorted, s)];
    var rq := was.(sector := t, nr := was.nr + (s - t));
    var r := PutBack(p, s, rq);
    assert FrontMerge(l, s, t) == r;
    PutBackOk(p, s, rq, time);
  }

  /** The request behind an alias is not the one that moves. */
  lemma {:induction false} EvictedNext(l: Lane, s: nat, t: nat)
    requires LaneOk(l) && s in Sectors(l.fifo) && t < s && t in Sectors(l.fifo)
    ensures var next := Latter(Lift(l, s).sorted, t); next.Some? ==> next.value in Sectors(l.fifo) && next.value != s
  {
    RankOf(l.sorted, s);
    LiftOk(l, s, Rank(l.sorted, s));
    LatterHas(Lift(l, s).sorted, t);
  }

  /** The oldest entry tells about all. */
  lemma HeadExpiresFirst(f: seq<Entry>, now: nat)
    requires ByExpiry(f) && f != [] && f[0].expires >= now
    ensures forall i :: 0 <= i < |f| ==> f[i].expires >= now
  {
  }

  // ----- what the operations do to the requests of a lane -----

  lemma {:induction false} NothingBetween(q: seq<Rq>, s: nat, y: nat)
    requires Ascending(q) && Has(q, s) && Has(q, y) && y > s
    ensures Latter(q, s).Some? && Latter(q, s).value <= y
  {
    RankOf(q, s);
    var j :| 0 <= j < |q| && q[j].sector == y;
    assert j > Rank(q, s);
  }

  /** The next request in sector order, or none if there is none behind. */
  lemma {:induction false} LatterMeans(q: seq<Rq>, s: nat, x: nat)
    requires Ascending(q) && Has(q, s)
    ensures Latter(q, s) == Some(x) <==> Has(q, x) && x > s && forall y: nat :: Has(q, y) && y > s ==> y >= x
  {
    LatterHas(q, s);
    forall y: nat | Has(q, y) && y > s ensures Latter(q, s).Some? && Latter(q, s).value <= y {
      NothingBetween(q, s, y);
    }
  }

  /** A removed request leaves tree and fifo, the others keep their order. */
  lemma {:induction false} RemoveMeans(l: Lane, rq: Rq, x: Rq, a: seq<Entry>, e: Entry, b: seq<Entry>)
    requires LaneOk(l) && rq in l.sorted && e.sector == rq.sector && l.fifo == a + [e] + b
    ensures x in Remove(l, rq.sector).sorted <==> x in l.sorted && x != rq
    ensures Remove(l, rq.sector).fifo == a + b
  {
    RankOfRq(l.sorted, rq);
    WithoutHolds(l.sorted, Rank(l.sorted, rq.sector), x);
    DropEntryMiddle(a, e, b);
  }

  lemma {:induction false} DropEntryConcat(a: seq<Entry>, b: seq<Entry>, s: nat)
    ensures DropEntry(a + b, s) == DropEntry(a, s) + DropEntry(b, s)
  {
    if a == [] {
      assert a + b == b;
    } else {
      assert (a + b)[1..] == a[1..] + b;
      DropEntryConcat(a[1..], b, s);
    }
  }

  lemma {:induction false} OnlyMiddle(a: seq<Entry>, e: Entry, b: seq<Entry>)
    requires Distinct(Sectors(a + [e] + b))
    ensures e.sector !in Sectors(a) && e.sector !in Sectors(b)
  {
    var f, n := Sectors(a + [e] + b), |a|;
    assert f[n] == e.sector;
    forall i | 0 <= i < n ensures Sectors(a)[i] != e.sector { assert f[i] == a[i].sector; }
    forall i | 0 <= i < |b| ensures Sectors(b)[i] != e.sector { assert f[n + 1 + i] == b[i].sector; }
  }

  lemma {:induction false} DropEntryMiddle(a: seq<Entry>, e: Entry, b: seq<Entry>)
    requires Distinct(Sectors(a + [e] + b))
    ensures DropEntry(a + [e] + b, e.sector) == a + b
  {
    var s := e.sector;
    OnlyMiddle(a, e, b);
    assert DropEntry(a + [e] + b, s) == DropEntry(a + [e], s) + DropEntry(b, s) by { DropEntryConcat(a + [e], b, s); }
    assert DropEntry(a + [e], s) == DropEntry(a, s) + DropEntry([e], s) by { DropEntryConcat(a, [e], s); }
    assert DropEntry(a, s) == a by { DropEntryAbsent(a, s); }
    assert DropEntry(b, s) == b by { DropEntryAbsent(b, s); }
    assert DropEntry([e], s) == [] by { DropEntryAbsent([e][1..], s); }
  }

  lemma {:induction false} DropEntryAbsent(f: seq<Entry>, s: nat)
    requires s !in Sectors(f)
    ensures DropEntry(f, s) == f
  {
    if f != [] {
      assert Sectors(f)[0] == f[0].sector && Sectors(f)[1..] == Sectors(f[1..]);
      DropEntryAbsent(f[1..], s);
    }
  }

  lemma {:induction false} InsertMeans(l: Lane, rq: Rq, expires: nat, x: Rq)
    ensures x in Insert(l, rq, expires).sorted <==> x in l.sorted || x == rq
    ensures Insert(l, rq, expires).fifo == l.fifo + [Entry(rq.sector, expires)]
  {
    PlacedHolds(l.sorted, rq, x);
  }

  lemma {:induction false} FrontMergeSorted(l: Lane, rq: Rq, t: nat, moved: Rq)
    requires Ascending(l.sorted) && rq in l.sorted && t < rq.sector
    requires moved == Rq(t, rq.nr + (rq.sector - t), rq.sync, rq.ioc)
    ensures FrontMerge(l, rq.sector, t).sorted == Placed(Freed(l, rq.sector, t).sorted, moved)
  {
    RankOfRq(l.sorted, rq);
  }

  /** A front merge moves the start of one request and keeps its end; only an alias leaves. */
  lemma {:induction false} FrontMergeMeans(l: Lane, rq: Rq, t: nat, x: Rq)
    requires LaneOk(l) && rq in l.sorted && t < rq.sector
    ensures x in FrontMerge(l, rq.sector, t).sorted <==>
            x == Rq(t, rq.nr + (rq.sector - t), rq.sync, rq.ioc) ||
            (x in l.sorted && x.sector != rq.sector && x.sector != t)
  {
    var s, moved := rq.sector, Rq(t, rq.nr + (rq.sector - t), rq.sync, rq.ioc);
    var p := Freed(l, s, t).sorted;
    FrontMergeSorted(l, rq, t, moved);
    assert x in Placed(p, moved) <==> x in p || x == moved by { PlacedHolds(p, moved, x); }
    assert x in p <==> x in l.sorted && x.sector != s && x.sector != t by { FreedHolds(l, rq, t, x); }
  }

  /** It keeps its expiry. */
  lemma {:induction false} FrontMergeExpires(l: Lane, t: nat, e: Entry)
    requires LaneOk(l) && t < e.sector && e in l.fifo
    ensures Entry(t, e.expires) in FrontMerge(l, e.sector, t).fifo
  {
    var s := e.sector;
    EntrySector(l.fifo, e);
    RankOf(l.sorted, s);
    var p := Freed(l, s, t);
    assert e in p.fifo by {
      DropEntryHas(l.fifo, t, e);
      if t in Sectors(l.fifo) {
        WithoutHas(l.sorted, Rank(l.sorted, s));
        RankOf(Lift(l, s).sorted, t);
      }
    }
    RenameEntry(p.fifo, s, t, e);
  }

  lemma {:induction false} FreedHolds(l: Lane, rq: Rq, t: nat, x: Rq)
    requires LaneOk(l) && rq in l.sorted && t < rq.sector
    ensures x in Freed(l, rq.sector, t).sorted <==> x in l.sorted && x.sector != rq.sector && x.sector != t
  {
    var s := rq.sector;
    RankOfRq(l.sorted, rq);
    var u := Lift(l, s);
    WithoutHas(l.sorted, Rank(l.sorted, s));
    WithoutHolds(l.sorted, Rank(l.sorted, s), x);
    if x in l.sorted && x.sector == s { SameSector(l.sorted, x, rq); }
    if t in Sectors(l.fifo) {
      RankOf(u.sorted, t);
      WithoutHolds(u.sorted, Rank(u.sorted, t), x);
      if x in u.sorted && x.sector == t { SameSector(u.sorted, x, u.sorted[Rank(u.sorted, t)]); }
    } else if x in u.sorted {
      HasRq(u.sorted, x);
    }
  }
}
