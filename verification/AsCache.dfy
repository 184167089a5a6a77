/**
 The next-request cache of the anticipatory scheduler, block/as-iosched.c.  Queued requests
 of one direction are identified by their start sector, the key of the sorted tree; the
 tree is a strictly ascending sequence.
 */
module AsCache {
  import opened Common
  import opened SortedList

  const MAXBACK: nat := 1024 * 1024

  predicate Wraps(last: nat, s: nat) {
    s + MAXBACK < last
  }

  function Distance(last: nat, s: nat): nat {
    if s >= last then s - last else (last - s) * 2
  }

  /** as_choose_req keeps the first of two requests. */
  predicate Prefers(last: nat, s1: nat, s2: nat) {
    if Wraps(last, s1) != Wraps(last, s2) then Wraps(last, s2)
    else if Wraps(last, s1) then s1 <= s2
    else
      var d1, d2 := Distance(last, s1), Distance(last, s2);
      d1 < d2 || (d1 == d2 && s1 >= s2)
  }

  /** as_choose_req */
  function Choose(last: nat, a: Option<nat>, b: Option<nat>): Option<nat> {
    if a.None? || a == b then b
    else if b.None? then a
    else if Prefers(last, a.value, b.value) then a else b
  }

  /** The pairwise choice is a total order. */
  lemma PrefersOrder(last: nat, a: nat, b: nat, c: nat)
    ensures Prefers(last, a, a)
    ensures Prefers(last, a, b) || Prefers(last, b, a)
    ensures Prefers(last, a, b) && Prefers(last, b, a) ==> a == b
    ensures Prefers(last, a, b) && Prefers(last, b, c) ==> Prefers(last, a, c)
  {
  }

  /** What the choice means: up to 1024 * 1024 sectors behind the head a request counts, at
      twice its distance; d sectors behind beat e sectors ahead exactly if 2 * d < e.  On one
      side the nearer one wins.  Beyond that a request is too far behind: any other kind beats
      it, and of two of them the lower one wins, as the head will come round to it first. */
  lemma PreferMeans(last: nat, d: nat, e: nat)
    ensures 0 < d <= last && d <= 1024 * 1024 ==> (Prefers(last, last - d, last + e) <==> 2 * d < e)
    ensures 0 < d <= last && d > 1024 * 1024 ==> !Prefers(last, last - d, last + e)
    ensures Prefers(last, last + d, last + e) <==> d <= e
    ensures 0 < d <= last && 0 < e <= last && d <= 1024 * 1024 ==> (Prefers(last, last - d, last - e) <==> d <= e)
    ensures 0 < d <= last && 0 < e <= last && d > 1024 * 1024 && e > 1024 * 1024 ==>
              (Prefers(last, last - d, last - e) <==> d >= e)
  {
  }

  /** The request that as_choose_req prefers to every other one. */
  predicate Best(last: nat, q: seq<Rq>, s: nat) {
    Has(q, s) && forall j :: 0 <= j < |q| ==> Prefers(last, s, q[j].sector)
  }

  predicate IsBest(last: nat, q: seq<Rq>, next: Option<nat>) {
    if next.None? then q == [] else Best(last, q, next.value)
  }

  /** as_find_next_rq: the better of the two neighbours, the first request standing in for
      a missing right one. */
  function FindNext(last: nat, q: seq<Rq>, i: nat): Option<nat>
    requires i < |q|
  {
    var next := if i + 1 < |q| then Some(q[i + 1].sector) else if i > 0 then Some(q[0].sector) else None;
    var prev := if i > 0 then Some(q[i - 1].sector) else None;
    Choose(last, next, prev)
  }

  /** The head is at request i: the others are before it or at least at `last`. */
  predicate HeadAt(last: nat, q: seq<Rq>, i: nat) {
    (forall j :: 0 <= j < i < |q| ==> q[j].sector < last) && (forall j :: i < j < |q| ==> q[j].sector >= last)
  }

  /** Two neighbours are enough, if the head is between them. */
  lemma NeighbourIsBest(last: nat, q: seq<Rq>, i: nat)
    requires Ascending(q) && i < |q| && HeadAt(last, q, i)
    ensures IsBest(last, Without(q, i), FindNext(last, q, i))
  {
    var r, next := Without(q, i), FindNext(last, q, i);
    if next.Some? {
      if i > 0 && next.value == q[i - 1].sector {
        assert r[i - 1].sector == next.value;
      } else if i + 1 < |q| {
        assert r[i].sector == next.value;
      } else {
        assert r[0].sector == next.value;
      }
      forall j | 0 <= j < |r| ensures Prefers(last, next.value, r[j].sector) {
        if j < i {
          assert q[0].sector <= r[j].sector <= q[i - 1].sector < last;
        } else {
          assert last <= q[i + 1].sector <= r[j].sector;
        }
      }
    }
  }

  lemma FirstIsBest(last: nat, q: seq<Rq>)
    requires Ascending(q) && |q| > 0 && forall j :: 0 <= j < |q| ==> Wraps(last, q[j].sector)
    ensures IsBest(last, Without(q, 0), FindNext(last, q, 0))
  {
    if |q| > 1 {
      var r := Without(q, 0);
      assert r[0].sector == q[1].sector;
      assert forall j :: 0 <= j < |r| ==> q[1].sector <= r[j].sector;
    }
  }

  /** Where the best request can be: next to the head, or first with all behind. */
  lemma BestPosition(last: nat, q: seq<Rq>, i: nat)
    requires Ascending(q) && i < |q| && Best(last, q, q[i].sector)
    ensures HeadAt(last, q, i) || (i == 0 && forall j :: 0 <= j < |q| ==> Wraps(last, q[j].sector))
  {
    var s := q[i].sector;
    if Wraps(last, s) {
      assert Prefers(last, s, q[0].sector);
      forall j | 0 <= j < |q| ensures Wraps(last, q[j].sector) {
        assert Prefers(last, s, q[j].sector);
      }
    } else {
      forall j | 0 <= j < i ensures q[j].sector < last {
        assert Prefers(last, s, q[j].sector);
      }
      forall j | i < j < |q| ensures q[j].sector >= last {
        assert Prefers(last, s, q[j].sector);
      }
    }
  }

  /** Removing the best request: one of its neighbours is the best of the rest. */
  lemma RemoveBest(last: nat, q: seq<Rq>, i: nat)
    requires Ascending(q) && i < |q| && Best(last, q, q[i].sector)
    ensures IsBest(last, Without(q, i), FindNext(last, q, i))
  {
    BestPosition(last, q, i);
    if HeadAt(last, q, i) { NeighbourIsBest(last, q, i); } else { FirstIsBest(last, q); }
  }

  lemma HeadAfter(q: seq<Rq>, i: nat)
    requires Ascending(q) && Apart(q) && i < |q|
    ensures HeadAt(q[i].sector + q[i].nr, q, i)
  {
  }

  // ----- the lookup when requests overlap: the head may be beyond the right neighbour -----

  /** Whether the lookup at i finds the best of the others, told from positions alone: the head
      has passed no request behind i; or it has passed just the right neighbour, which beats
      the first one ahead; or every other request is too far behind and the lookup sees the
      first of them. */
  predicate SeesBest(last: nat, q: seq<Rq>, i: nat) {
    var m := Rank(q, last);
    m <= i + 1 ||
    (if Wraps(last, q[i + 1].sector) then i <= 1 && m == |q| && Wraps(last, q[m - 1].sector)
     else m == i + 2 && (m < |q| ==> Prefers(last, q[i + 1].sector, q[m].sector)))
  }

  lemma PreferTrans(last: nat, a: nat, b: nat, c: nat)
    requires Prefers(last, a, b) && Prefers(last, b, c)
    ensures Prefers(last, a, c)
  {
  }

  /** The head is beyond the right neighbour, which is not too far behind. */
  lemma {:induction false} NearBest(last: nat, q: seq<Rq>, i: nat, r: seq<Rq>, n: nat)
    requires Ascending(q) && i + 1 < Rank(q, last) && !Wraps(last, q[i + 1].sector) && SeesBest(last, q, i)
    requires r == Without(q, i) && n == q[i + 1].sector
    ensures Best(last, r, n)
  {
    var m := Rank(q, last);
    assert r[i].sector == n;
    forall j | 0 <= j < |r| ensures Prefers(last, n, r[j].sector) {
      if j > i { PreferTrans(last, n, q[m].sector, r[j].sector); }
    }
  }

  lemma {:induction false} NearMiss(last: nat, q: seq<Rq>, i: nat, r: seq<Rq>, n: nat)
    requires Ascending(q) && i + 1 < Rank(q, last) && !Wraps(last, q[i + 1].sector) && !SeesBest(last, q, i)
    requires r == Without(q, i) && n == q[i + 1].sector
    ensures !Best(last, r, n)
  {
    var m := Rank(q, last);
    if m != i + 2 {
      assert r[m - 2].sector == q[m - 1].sector > n;
    } else {
      assert r[m - 1].sector == q[m].sector;
    }
  }

  lemma {:induction false} PassedNear(last: nat, q: seq<Rq>, i: nat)
    requires Ascending(q) && i + 1 < Rank(q, last) && !Wraps(last, q[i + 1].sector)
    ensures FindNext(last, q, i) == Some(q[i + 1].sector)
    ensures IsBest(last, Without(q, i), FindNext(last, q, i)) <==> SeesBest(last, q, i)
  {
    var r, n := Without(q, i), q[i + 1].sector;
    if SeesBest(last, q, i) { NearBest(last, q, i, r, n); } else { NearMiss(last, q, i, r, n); }
  }

  /** It is too far behind, and so are all before it. */
  lemma {:induction false} PassedFar(last: nat, q: seq<Rq>, i: nat)
    requires Ascending(q) && i + 1 < Rank(q, last) && Wraps(last, q[i + 1].sector)
    ensures FindNext(last, q, i) == Some(q[if i > 0 then i - 1 else 1].sector)
    ensures IsBest(last, Without(q, i), FindNext(last, q, i)) <==> SeesBest(last, q, i)
  {
    var m, r, n := Rank(q, last), Without(q, i), q[if i > 0 then i - 1 else 1].sector;
    assert r[if i > 0 then i - 1 else 0].sector == n;
    if SeesBest(last, q, i) {
      forall j | 0 <= j < |r| ensures Prefers(last, n, r[j].sector) {
        assert n <= r[j].sector <= q[m - 1].sector;
      }
    } else if i > 1 {
      assert r[0].sector < n;
    } else if m < |q| {
      assert r[m - 1].sector == q[m].sector;
    } else {
      assert r[m - 2].sector == q[m - 1].sector;
    }
  }

  /** With the head at or behind a request, the two-neighbour lookup finds the best of the
      others if and only if SeesBest. */
  lemma {:induction false} LookupIsBest(last: nat, q: seq<Rq>, i: nat)
    requires Ascending(q) && i < |q| && q[i].sector <= last
    ensures IsBest(last, Without(q, i), FindNext(last, q, i)) <==> SeesBest(last, q, i)
  {
    if Rank(q, last) <= i + 1 {
      NeighbourIsBest(last, q, i);
    } else if Wraps(last, q[i + 1].sector) {
      PassedFar(last, q, i);
    } else {
      PassedNear(last, q, i);
    }
  }

  lemma {:induction false} ApartSees(q: seq<Rq>, i: nat)
    requires Ascending(q) && Apart(q) && i < |q|
    ensures SeesBest(q[i].sector + q[i].nr, q, i)
  {
    HeadAfter(q, i);
  }

  /** The first request covers the two others: the head passes both. */
  lemma OverlapDefeatsNeighbours()
    ensures var q := [Rq(0, 100, true, 0), Rq(10, 1, true, 0), Rq(99, 1, true, 0)];
            FindNext(100, q, 0) == Some(10) && Best(100, Without(q, 0), 99) && !SeesBest(100, q, 0)
  {
    var q := [Rq(0, 100, true, 0), Rq(10, 1, true, 0), Rq(99, 1, true, 0)];
    assert Without(q, 0)[1].sector == 99;
    LookupIsBest(100, q, 0);
    assert Without(q, 0)[0].sector == 10;
  }

  // ----- one direction of as_data -----

  /** sort_list, fifo_list, next_rq and last_sector of one direction. */
  datatype Lane = Lane(sorted: seq<Rq>, fifo: seq<nat>, next: Option<nat>, last: nat)

  /** Tree and fifo hold the same requests and the cache points into the tree; an empty cache
      forgets at most one request. */
  ghost predicate LaneOk(l: Lane) {
    Ascending(l.sorted) && Distinct(l.fifo) && (forall s :: s in l.fifo <==> Has(l.sorted, s)) &&
    (l.next.None? ==> |l.sorted| <= 1) && (l.next.Some? ==> Has(l.sorted, l.next.value))
  }

  /** The cache is empty though a request is queued. */
  predicate Lost(l: Lane) {
    l.next.None? && l.sorted != []
  }

  predicate CacheOk(l: Lane) {
    IsBest(l.last, l.sorted, l.next)
  }

  /** as_remove_queued_request: the cache is recomputed only if it points to the request. */
  function Remove(l: Lane, s: nat): Lane {
    var i := Rank(l.sorted, s);
    if i == |l.sorted| then l else
      var next := if l.next == Some(s) then FindNext(l.last, l.sorted, i) else l.next;
      Lane(Without(l.sorted, i), Drop(l.fifo, s), next, l.last)
  }

  lemma FindNextHas(last: nat, q: seq<Rq>, i: nat)
    requires Ascending(q) && i < |q|
    ensures FindNext(last, q, i).None? <==> |q| == 1
    ensures FindNext(last, q, i).Some? ==>
              Has(q, FindNext(last, q, i).value) && FindNext(last, q, i).value != q[i].sector
  {
  }

  lemma RemoveOk(l: Lane, s: nat)
    requires LaneOk(l) && Has(l.sorted, s)
    ensures LaneOk(Remove(l, s))
  {
    RankOf(l.sorted, s);
    var i := Rank(l.sorted, s);
    WithoutHas(l.sorted, i);
    DropDistinct(l.fifo, s);
    FindNextHas(l.last, l.sorted, i);
  }

  lemma RemoveCache(l: Lane, s: nat)
    requires Ascending(l.sorted) && Has(l.sorted, s) && CacheOk(l)
    ensures CacheOk(Remove(l, s))
  {
    RankOf(l.sorted, s);
    var i := Rank(l.sorted, s);
    if l.next == Some(s) {
      RemoveBest(l.last, l.sorted, i);
    } else {
      WithoutHas(l.sorted, i);
    }
  }

  /** The part of as_move_to_dispatch that concerns the lane: the head moves to the end of
      the request, the cache is looked up, the request is removed. */
  function Dispatch(l: Lane, s: nat): Lane {
    var i := Rank(l.sorted, s);
    if i == |l.sorted| then l else
      var last := s + l.sorted[i].nr;
      Remove(l.(last := last, next := FindNext(last, l.sorted, i)), s)
  }

  /** The lookup for the dispatch of s sees the best of the other requests. */
  predicate Sees(l: Lane, s: nat) {
    var i := Rank(l.sorted, s);
    i < |l.sorted| && SeesBest(s + l.sorted[i].nr, l.sorted, i)
  }

  lemma {:induction false} DispatchParts(l: Lane, s: nat)
    requires Ascending(l.sorted) && Has(l.sorted, s)
    ensures var i := Rank(l.sorted, s);
            i < |l.sorted| && l.sorted[i].sector == s && Dispatch(l, s).sorted == Without(l.sorted, i) &&
            Dispatch(l, s).last == s + l.sorted[i].nr &&
            Dispatch(l, s).next == FindNext(s + l.sorted[i].nr, l.sorted, i)
  {
    RankOf(l.sorted, s);
    var i := Rank(l.sorted, s);
    FindNextHas(s + l.sorted[i].nr, l.sorted, i);
  }

  lemma {:induction false} TakenOk(l: Lane, s: nat, i: nat, d: Lane)
    requires LaneOk(l) && i < |l.sorted| && l.sorted[i].sector == s
    requires d.sorted == Without(l.sorted, i) && d.fifo == Drop(l.fifo, s) && d.next == FindNext(d.last, l.sorted, i)
    ensures LaneOk(d)
  {
    FindNextHas(d.last, l.sorted, i);
    WithoutHas(l.sorted, i);
    DropDistinct(l.fifo, s);
  }

  lemma {:induction false} DispatchOk(l: Lane, s: nat)
    requires LaneOk(l) && Has(l.sorted, s)
    ensures LaneOk(Dispatch(l, s))
  {
    DispatchParts(l, s);
    TakenOk(l, s, Rank(l.sorted, s), Dispatch(l, s));
  }

  lemma {:induction false} SeesAt(l: Lane, s: nat, i: nat)
    requires i == Rank(l.sorted, s) < |l.sorted|
    ensures Sees(l, s) <==> SeesBest(s + l.sorted[i].nr, l.sorted, i)
  {
  }

  lemma {:induction false} AfterDispatch(d: Lane, q: seq<Rq>, i: nat)
    requires Ascending(q) && i < |q| && q[i].sector <= d.last
    requires d.sorted == Without(q, i) && d.next == FindNext(d.last, q, i)
    ensures CacheOk(d) <==> SeesBest(d.last, q, i)
  {
    LookupIsBest(d.last, q, i);
  }

  lemma {:induction false} SeenAfter(l: Lane, s: nat, i: nat, last: nat, d: Lane)
    requires Ascending(l.sorted) && i == Rank(l.sorted, s) < |l.sorted| && l.sorted[i].sector == s
    requires last == s + l.sorted[i].nr
    requires d.last == last && d.sorted == Without(l.sorted, i) && d.next == FindNext(last, l.sorted, i)
    ensures CacheOk(d) <==> Sees(l, s)
  {
    var q := l.sorted;
    assert CacheOk(d) <==> SeesBest(last, q, i) by { AfterDispatch(d, q, i); }
    assert Sees(l, s) <==> SeesBest(last, q, i) by { SeesAt(l, s, i); }
  }

  /** Whatever the cache was before, after the dispatch of a request it is optimal if and only
      if the lookup from the end of that request sees the best of the rest. */
  lemma {:induction false} DispatchCache(l: Lane, s: nat)
    requires Ascending(l.sorted) && Has(l.sorted, s)
    ensures Rank(l.sorted, s) < |l.sorted|
    ensures CacheOk(Dispatch(l, s)) <==> Sees(l, s)
  {
    DispatchParts(l, s);
    var i, d := Rank(l.sorted, s), Dispatch(l, s);
    SeenAfter(l, s, i, d.last, d);
  }

  lemma {:induction false} ApartSeen(l: Lane, s: nat)
    requires Ascending(l.sorted) && Has(l.sorted, s) && Apart(l.sorted)
    ensures Sees(l, s)
  {
    RankOf(l.sorted, s);
    ApartSees(l.sorted, Rank(l.sorted, s));
  }

  /** After the dispatch of a request the cache is empty only if nothing is queued. */
  lemma {:induction false} DispatchFinds(l: Lane, s: nat)
    requires Ascending(l.sorted) && Has(l.sorted, s)
    ensures !Lost(Dispatch(l, s))
  {
    DispatchParts(l, s);
    var i := Rank(l.sorted, s);
    FindNextHas(s + l.sorted[i].nr, l.sorted, i);
  }

  /** as_add_request without an alias: the cache takes the better of the two. */
  function Insert(l: Lane, rq: Rq): Lane {
    Lane(Placed(l.sorted, rq), l.fifo + [rq.sector], Choose(l.last, Some(rq.sector), l.next), l.last)
  }

  lemma InsertOk(l: Lane, rq: Rq)
    requires LaneOk(l) && !Has(l.sorted, rq.sector)
    ensures LaneOk(Insert(l, rq))
  {
    PlacedOk(l.sorted, rq);
  }

  lemma InsertCache(l: Lane, rq: Rq)
    requires Ascending(l.sorted) && !Has(l.sorted, rq.sector) && CacheOk(l)
    ensures CacheOk(Insert(l, rq))
  {
    PlacedOk(l.sorted, rq);
    var r, b := Insert(l, rq), Insert(l, rq).next.value;
    forall j | 0 <= j < |r.sorted| ensures Prefers(l.last, b, r.sorted[j].sector) {
      var x := r.sorted[j].sector;
      assert Has(r.sorted, x);
      if x != rq.sector {
        var k :| 0 <= k < |l.sorted| && l.sorted[k].sector == x;
        assert Prefers(l.last, l.next.value, x);
        PrefersOrder(l.last, b, l.next.value, x);
      }
    }
  }

  /** A back merge: the request of sector s grows to n sectors. */
  function Grow(l: Lane, s: nat, n: nat): Lane {
    l.(sorted := Resized(l.sorted, s, n))
  }

  lemma GrowOk(l: Lane, s: nat, n: nat)
    requires LaneOk(l) && Has(l.sorted, s)
    ensures LaneOk(Grow(l, s, n)) && (CacheOk(l) ==> CacheOk(Grow(l, s, n)))
    ensures forall x :: Has(Grow(l, s, n).sorted, x) <==> Has(l.sorted, x)
  {
    ResizedHas(l.sorted, s, n);
  }

  /** as_merged_requests: the request of sector t, merged into that of sector s, goes away;
      if it expires first, its place in the fifo goes to the other. */
  function Absorb(l: Lane, s: nat, t: nat, earlier: bool): Lane {
    var r := Remove(l, t);
    r.(fifo := if earlier then Swap(Drop(l.fifo, s), t, s) else r.fifo)
  }

  lemma AbsorbOk(l: Lane, s: nat, t: nat, earlier: bool)
    requires LaneOk(l) && Has(l.sorted, s) && Has(l.sorted, t) && s != t
    ensures LaneOk(Absorb(l, s, t, earlier)) && (CacheOk(l) ==> CacheOk(Absorb(l, s, t, earlier)))
  {
    RemoveOk(l, t);
    if CacheOk(l) { RemoveCache(l, t); }
    DropDistinct(l.fifo, s);
    SwapHas(Drop(l.fifo, s), t, s);
  }

  lemma {:induction false} AbsorbFinds(l: Lane, s: nat, t: nat, earlier: bool)
    requires LaneOk(l) && Has(l.sorted, s) && Has(l.sorted, t) && s != t
    ensures !Lost(Absorb(l, s, t, earlier))
  {
    RankOf(l.sorted, s);
    RankOf(l.sorted, t);
    FindNextHas(l.last, l.sorted, Rank(l.sorted, t));
  }

  /** The survivor stays where it is, or takes the place of the other in the fifo. */
  lemma {:induction false} AbsorbPlace(l: Lane, s: nat, t: nat, earlier: bool, a: seq<nat>, b: seq<nat>)
    requires LaneOk(l) && Has(l.sorted, s) && Has(l.sorted, t) && s != t
    requires Drop(l.fifo, s) == a + [t] + b
    ensures Absorb(l, s, t, earlier).fifo == if earlier then a + [s] + b else Drop(l.fifo, t)
  {
    RankOf(l.sorted, t);
    DropDistinct(l.fifo, s);
    SwapPlace(a, t, b, s);
  }

  // ----- as_merged_request for a front merge: the start of a request moves from s to t -----

  function Grown(l: Lane, s: nat, t: nat): Rq
    requires t < s && Rank(l.sorted, s) < |l.sorted|
  {
    var rq := l.sorted[Rank(l.sorted, s)];
    rq.(sector := t, nr := rq.nr + (s - t))
  }

  /** The request leaves the tree; a request that starts at t is dispatched meanwhile. */
  function Lift(l: Lane, s: nat, t: nat): Lane
    requires Rank(l.sorted, s) < |l.sorted|
  {
    var u := l.(sorted := Without(l.sorted, Rank(l.sorted, s)));
    if Has(u.sorted, t) then Dispatch(u, t) else u
  }

  /** Then it goes back under its new key, and the cache is left alone. */
  function PutBack(l: Lane, s: nat, rq: Rq): Lane {
    var next := if l.next == Some(s) then Some(rq.sector) else l.next;
    Lane(Placed(l.sorted, rq), Swap(l.fifo, s, rq.sector), next, l.last)
  }

  function FrontMerge(l: Lane, s: nat, t: nat): Lane
    requires t < s
  {
    if Rank(l.sorted, s) == |l.sorted| then l else PutBack(Lift(l, s, t), s, Grown(l, s, t))
  }

  /** In between, the request is in the fifo only. */
  ghost predicate Lifted(l: Lane, s: nat) {
    Ascending(l.sorted) && Distinct(l.fifo) && !Has(l.sorted, s) &&
    (forall x :: x in l.fifo <==> Has(l.sorted, x) || x == s) &&
    (l.next.Some? && l.next.value != s ==> Has(l.sorted, l.next.value)) && (l.next.None? ==> l.sorted == [])
  }

  lemma {:induction false} LiftOk(l: Lane, s: nat, t: nat)
    requires LaneOk(l) && Has(l.sorted, s) && t < s
    ensures Rank(l.sorted, s) < |l.sorted| && Lifted(Lift(l, s, t), s) && !Has(Lift(l, s, t).sorted, t)
    ensures forall x :: Has(Lift(l, s, t).sorted, x) <==> Has(l.sorted, x) && x != s && x != t
    ensures Has(l.sorted, t) ==> Lift(l, s, t).next != Some(s) && Lift(l, s, t).next != Some(t)
  {
    RankOf(l.sorted, s);
    WithoutHas(l.sorted, Rank(l.sorted, s));
    var u := l.(sorted := Without(l.sorted, Rank(l.sorted, s)));
    assert u.sorted == [] || Has(u.sorted, u.sorted[0].sector);
    if Has(u.sorted, t) {
      EvictOk(u, s, t);
    }
  }

  lemma {:induction false} EvictOk(l: Lane, s: nat, t: nat)
    requires Lifted(l, s) && Has(l.sorted, t)
    ensures Lifted(Dispatch(l, t), s) && Dispatch(l, t).next != Some(s) && Dispatch(l, t).next != Some(t)
    ensures forall x :: Has(Dispatch(l, t).sorted, x) <==> Has(l.sorted, x) && x != t
  {
    DispatchParts(l, t);
    var i, d := Rank(l.sorted, t), Dispatch(l, t);
    FindNextHas(d.last, l.sorted, i);
    WithoutHas(l.sorted, i);
    DropDistinct(l.fifo, t);
    assert d.fifo == Drop(l.fifo, t);
  }

  lemma {:induction false} PutBackOk(l: Lane, s: nat, rq: Rq)
    requires Lifted(l, s) && !Has(l.sorted, rq.sector) && rq.sector < s
    ensures LaneOk(PutBack(l, s, rq))
    ensures forall x :: Has(PutBack(l, s, rq).sorted, x) <==> Has(l.sorted, x) || x == rq.sector
    ensures PutBack(l, s, rq).next.None? <==> l.next.None?
  {
    PlacedOk(l.sorted, rq);
    SwapHas(l.fifo, s, rq.sector);
  }

  lemma {:induction false} LiftFinds(l: Lane, s: nat, t: nat)
    requires LaneOk(l) && Has(l.sorted, s) && t < s
    ensures Rank(l.sorted, s) < |l.sorted|
    ensures Lift(l, s, t).next.None? <==> if Has(l.sorted, t) then |l.sorted| == 2 else Lost(l)
  {
    RankOf(l.sorted, s);
    var u := l.(sorted := Without(l.sorted, Rank(l.sorted, s)));
    WithoutHas(l.sorted, Rank(l.sorted, s));
    if Has(l.sorted, t) { AliasFinds(u, t); }
  }

  lemma {:induction false} AliasFinds(u: Lane, t: nat)
    requires Ascending(u.sorted) && Has(u.sorted, t)
    ensures Dispatch(u, t).next.None? <==> |u.sorted| == 1
  {
    DispatchParts(u, t);
    FindNextHas(Dispatch(u, t).last, u.sorted, Rank(u.sorted, t));
  }

  /** Whatever starts at t, tree and fifo agree afterwards.  The cache has lost the request if
      and only if an alias was the only other request, or there was none and it had before. */
  lemma {:induction false} FrontMergeOk(l: Lane, s: nat, t: nat)
    requires LaneOk(l) && Has(l.sorted, s) && t < s
    ensures LaneOk(FrontMerge(l, s, t))
    ensures forall x :: Has(FrontMerge(l, s, t).sorted, x) <==> (Has(l.sorted, x) && x != s) || x == t
    ensures Lost(FrontMerge(l, s, t)) <==> if Has(l.sorted, t) then |l.sorted| == 2 else Lost(l)
  {
    LiftOk(l, s, t);
    LiftFinds(l, s, t);
    PutBackOk(Lift(l, s, t), s, Grown(l, s, t));
    assert Has(FrontMerge(l, s, t).sorted, t);
  }

  lemma {:induction false} FirstOfTwo(a: Rq, b: Rq)
    requires a.sector < b.sector
    ensures var q := [a, b];
            Ascending(q) && Has(q, a.sector) && Has(q, b.sector) && Rank(q, b.sector) == 1 && Without(q, 1) == [a]
    ensures Has([a], a.sector) && Rank([a], a.sector) == 0 && Without([a], 0) == []
    ensures Drop([a.sector, b.sector], a.sector) == [b.sector]
  {
    var q := [a, b];
    assert q[0] == a && q[1] == b && [a][0] == a;
    assert q[1..] == [b];
    assert Drop([b.sector], a.sector) == [b.sector];
  }

  /** A front merge makes the second of two requests start where the first does: the first is
      dispatched, and the cache, looked up without the second, forgets it. */
  lemma {:induction false} AliasDefeatsCache(a: Rq, b: Rq, next: Option<nat>, last: nat)
    requires a.sector < b.sector
    ensures FrontMerge(Lane([a, b], [a.sector, b.sector], next, last), b.sector, a.sector) ==
            Lane([b.(sector := a.sector, nr := b.nr + (b.sector - a.sector))], [a.sector], None, a.sector + a.nr)
  {
    FirstOfTwo(a, b);
    var l := Lane([a, b], [a.sector, b.sector], next, last);
    var u := l.(sorted := [a]);
    assert Dispatch(u, a.sector) == Lane([], [b.sector], None, a.sector + a.nr);
    assert Swap([b.sector], b.sector, a.sector) == [a.sector];
  }

  /** A request beats the whole list if it beats three of it: the two around the head and the
      first one. */
  predicate Beats(last: nat, q: seq<Rq>, s: nat) {
    var m := Rank(q, last);
    q != [] ==>
      Prefers(last, s, q[0].sector) && (m > 0 ==> Prefers(last, s, q[m - 1].sector)) &&
      (m < |q| ==> Prefers(last, s, q[m].sector))
  }

  lemma {:induction false} BeatsOne(last: nat, q: seq<Rq>, s: nat, y: nat)
    requires Ascending(q) && y < |q| && Beats(last, q, s)
    ensures Prefers(last, s, q[y].sector)
  {
    var m := Rank(q, last);
    var z := if y >= m then m else if Wraps(last, q[y].sector) then 0 else m - 1;
    assert z < y ==> q[z].sector < q[y].sector;
    assert y < z ==> q[y].sector < q[z].sector;
    PreferTrans(last, s, q[z].sector, q[y].sector);
  }

  lemma {:induction false} BeatsAll(last: nat, q: seq<Rq>, s: nat)
    requires Ascending(q)
    ensures Beats(last, q, s) <==> forall j :: 0 <= j < |q| ==> Prefers(last, s, q[j].sector)
  {
    if Beats(last, q, s) {
      forall y | 0 <= y < |q| ensures Prefers(last, s, q[y].sector) { BeatsOne(last, q, s, y); }
    }
  }

  /** Whether the cache is right after a front merge: what is cached then must beat the moved
      request and, by three comparisons, the others. */
  predicate Survives(l: Lane, s: nat, t: nat) {
    Rank(l.sorted, s) < |l.sorted| &&
    var d := Lift(l, s, t);
    var c := if d.next == Some(s) then Some(t) else d.next;
    c.Some? && Prefers(d.last, c.value, t) && Beats(d.last, d.sorted, c.value)
  }

  lemma {:induction false} BestAmong(last: nat, q: seq<Rq>, s: nat)
    ensures Best(last, q, s) <==> Has(q, s) && forall x :: Has(q, x) ==> Prefers(last, s, x)
  {
    if forall x :: Has(q, x) ==> Prefers(last, s, x) {
      forall j | 0 <= j < |q| ensures Prefers(last, s, q[j].sector) { assert Has(q, q[j].sector); }
    }
  }

  /** The moved request is the cached one: it stays best exactly if it beats the best of
      the rest. */
  lemma MovedCached(last: nat, r: seq<Rq>, rest: seq<Rq>, t: nat, n: Option<nat>)
    requires forall x :: Has(r, x) <==> Has(rest, x) || x == t
    requires IsBest(last, rest, n)
    ensures Best(last, r, t) <==> n.None? || Prefers(last, t, n.value)
  {
    BestAmong(last, r, t);
    if n.None? {
      assert forall x :: !Has(rest, x);
    } else {
      BestAmong(last, rest, n.value);
      assert Has(r, n.value);
      forall x | Has(r, x) && Prefers(last, t, n.value) ensures Prefers(last, t, x) {
        PrefersOrder(last, t, n.value, x);
      }
    }
  }

  /** Another request is cached: it stays best exactly if it was among the rest and beats the
      moved one. */
  lemma {:induction false} MovedOther(last: nat, r: seq<Rq>, rest: seq<Rq>, t: nat, b: nat)
    requires forall x :: Has(r, x) <==> Has(rest, x) || x == t
    requires b != t
    ensures Best(last, r, b) <==> Best(last, rest, b) && Prefers(last, b, t)
  {
    BestAmong(last, rest, b);
    BestAmong(last, r, b);
    assert Has(r, t);
  }

  lemma {:induction false} BestOfRest(last: nat, q: seq<Rq>, rest: seq<Rq>, s: nat, b: nat)
    requires forall x :: Has(rest, x) <==> Has(q, x) && x != s
    requires Best(last, q, b) && b != s
    ensures Best(last, rest, b)
  {
    BestAmong(last, q, b);
    BestAmong(last, rest, b);
  }

  lemma {:induction false} PutBackCache(d: Lane, r: Lane, t: nat, c: Option<nat>)
    requires Ascending(d.sorted) && r.last == d.last && r.next == c
    requires forall x :: Has(r.sorted, x) <==> Has(d.sorted, x) || x == t
    requires c.Some? ==> Has(r.sorted, c.value)
    ensures CacheOk(r) <==> c.Some? && Prefers(d.last, c.value, t) && Beats(d.last, d.sorted, c.value)
  {
    assert Has(r.sorted, t);
    if c.Some? {
      BestAmong(d.last, r.sorted, c.value);
      BeatsAll(d.last, d.sorted, c.value);
      forall x | Has(d.sorted, x) && Beats(d.last, d.sorted, c.value) ensures Prefers(d.last, c.value, x) {
        var j :| 0 <= j < |d.sorted| && d.sorted[j].sector == x;
      }
      forall j | 0 <= j < |d.sorted| ensures Has(r.sorted, d.sorted[j].sector) {
        assert Has(d.sorted, d.sorted[j].sector);
      }
    }
  }

  /** After any front merge, with or without an alias and whatever the cache was before, it is
      optimal if and only if it survives. */
  lemma {:induction false} FrontMergeCache(l: Lane, s: nat, t: nat)
    requires LaneOk(l) && Has(l.sorted, s) && t < s
    ensures CacheOk(FrontMerge(l, s, t)) <==> Survives(l, s, t)
  {
    LiftOk(l, s, t);
    var d := Lift(l, s, t);
    PutBackOk(d, s, Grown(l, s, t));
    PutBackCache(d, FrontMerge(l, s, t), t, if d.next == Some(s) then Some(t) else d.next);
  }

  /** If it was optimal before and no request starts at t, one comparison decides: with the best
      of the neighbours if the moved request is cached, with the cached one if not. */
  lemma {:induction false} OneDecides(l: Lane, s: nat, t: nat)
    requires LaneOk(l) && Has(l.sorted, s) && t < s && !Has(l.sorted, t) && CacheOk(l)
    ensures Rank(l.sorted, s) < |l.sorted| && l.next.Some?
    ensures Survives(l, s, t) <==>
            if l.next != Some(s) then Prefers(l.last, l.next.value, t)
            else var n := FindNext(l.last, l.sorted, Rank(l.sorted, s)); n.None? || Prefers(l.last, t, n.value)
  {
    RankOf(l.sorted, s);
    var i := Rank(l.sorted, s);
    WithoutHas(l.sorted, i);
    LiftOk(l, s, t);
    PutBackOk(Lift(l, s, t), s, Grown(l, s, t));
    FrontMergeCache(l, s, t);
    var r, rest := FrontMerge(l, s, t).sorted, Without(l.sorted, i);
    assert Lift(l, s, t).sorted == rest;
    if l.next == Some(s) {
      RemoveBest(l.last, l.sorted, i);
      MovedCached(l.last, r, rest, t, FindNext(l.last, l.sorted, i));
    } else {
      BestOfRest(l.last, l.sorted, rest, s, l.next.value);
      MovedOther(l.last, r, rest, t, l.next.value);
    }
  }

  lemma {:induction false} TwoQueued(a: Rq, b: Rq)
    requires a.sector < b.sector
    ensures var l := Lane([a, b], [a.sector, b.sector], Some(a.sector), a.sector); LaneOk(l) && CacheOk(l)
  {
    var q := [a, b];
    assert q[0] == a && q[1] == b;
    assert Has(q, a.sector) && Has(q, b.sector);
  }

  /** A request that grows backwards over the head loses its place to the other one, but not in
      the cache. */
  lemma {:induction false} FrontMergeDefeatsCache(a: Rq, b: Rq, t: nat)
    requires a.sector < b.sector && t < a.sector && Prefers(a.sector, b.sector, t)
    ensures var l := Lane([a, b], [a.sector, b.sector], Some(a.sector), a.sector);
            LaneOk(l) && CacheOk(l) && !CacheOk(FrontMerge(l, a.sector, t))
  {
    TwoQueued(a, b);
    FirstOfTwo(a, b);
    var q := [a, b];
    var l := Lane(q, [a.sector, b.sector], Some(a.sector), a.sector);
    assert !Has(q, t);
    assert Rank(q, a.sector) == 0 && FindNext(a.sector, q, 0) == Some(b.sector);
    OneDecides(l, a.sector, t);
    FrontMergeCache(l, a.sector, t);
    PrefersOrder(a.sector, t, b.sector, t);
  }

  // ----- what the operations do to the requests of a lane -----

  /** A new request is last in the fifo; nothing else changes but the cache. */
  lemma {:induction false} InsertMeans(l: Lane, rq: Rq, x: Rq)
    ensures x in Insert(l, rq).sorted <==> x in l.sorted || x == rq
    ensures Insert(l, rq).fifo == l.fifo + [rq.sector] && Insert(l, rq).last == l.last
  {
    PlacedHolds(l.sorted, rq, x);
  }

  /** A dispatched request leaves tree and fifo, and the head is at its end. */
  lemma {:induction false} DispatchMeans(l: Lane, rq: Rq, x: Rq, a: seq<nat>, b: seq<nat>)
    requires LaneOk(l) && rq in l.sorted && l.fifo == a + [rq.sector] + b
    ensures x in Dispatch(l, rq.sector).sorted <==> x in l.sorted && x != rq
    ensures Dispatch(l, rq.sector).fifo == a + b && Dispatch(l, rq.sector).last == rq.sector + rq.nr
  {
    RankOfRq(l.sorted, rq);
    WithoutHolds(l.sorted, Rank(l.sorted, rq.sector), x);
    DropMiddle(a, rq.sector, b);
  }

  /** So does one that is removed, but the head stays, and so does the cache if it is another. */
  lemma {:induction false} RemoveMeans(l: Lane, rq: Rq, x: Rq, a: seq<nat>, b: seq<nat>)
    requires LaneOk(l) && rq in l.sorted && l.fifo == a + [rq.sector] + b
    ensures x in Remove(l, rq.sector).sorted <==> x in l.sorted && x != rq
    ensures Remove(l, rq.sector).fifo == a + b && Remove(l, rq.sector).last == l.last
    ensures l.next != Some(rq.sector) ==> Remove(l, rq.sector).next == l.next
  {
    RankOfRq(l.sorted, rq);
    WithoutHolds(l.sorted, Rank(l.sorted, rq.sector), x);
    DropMiddle(a, rq.sector, b);
  }

  /** A back merge changes the length of one request. */
  lemma {:induction false} GrowMeans(l: Lane, s: nat, n: nat, x: Rq)
    requires LaneOk(l) && x in l.sorted && Has(l.sorted, s)
    ensures (if x.sector == s then x.(nr := n) else x) in Grow(l, s, n).sorted
    ensures Grow(l, s, n) == l.(sorted := Grow(l, s, n).sorted) && |Grow(l, s, n).sorted| == |l.sorted|
  {
    ResizedHolds(l.sorted, s, n, x);
  }

  /** A front merge moves the start of one request and keeps its end; only an alias leaves. */
  lemma {:induction false} FrontMergeMeans(l: Lane, rq: Rq, t: nat, x: Rq)
    requires LaneOk(l) && rq in l.sorted && t < rq.sector
    ensures x in FrontMerge(l, rq.sector, t).sorted <==>
            x == Rq(t, rq.nr + (rq.sector - t), rq.sync, rq.ioc) ||
            (x in l.sorted && x.sector != rq.sector && x.sector != t)
  {
    var s, moved := rq.sector, Rq(t, rq.nr + (rq.sector - t), rq.sync, rq.ioc);
    RankOfRq(l.sorted, rq);
    var p := Lift(l, s, t).sorted;
    assert FrontMerge(l, s, t).sorted == Placed(p, moved);
    assert x in Placed(p, moved) <==> x in p || x == moved by { PlacedHolds(p, moved, x); }
    assert x in p <==> x in l.sorted && x.sector != s && x.sector != t by {
      HasRq(l.sorted, rq);
      LiftHolds(l, s, t, x);
    }
  }

  lemma {:induction false} LiftHolds(l: Lane, s: nat, t: nat, x: Rq)
    requires LaneOk(l) && Has(l.sorted, s) && t < s
    ensures Rank(l.sorted, s) < |l.sorted|
    ensures x in Lift(l, s, t).sorted <==> x in l.sorted && x.sector != s && x.sector != t
  {
    RankOf(l.sorted, s);
    var i := Rank(l.sorted, s);
    var u := l.(sorted := Without(l.sorted, i));
    WithoutHas(l.sorted, i);
    WithoutHolds(l.sorted, i, x);
    if x in l.sorted && x.sector == s { SameSector(l.sorted, x, l.sorted[i]); }
    if Has(u.sorted, t) {
      DispatchParts(u, t);
      var j := Rank(u.sorted, t);
      WithoutHolds(u.sorted, j, x);
      if x in u.sorted && x.sector == t { SameSector(u.sorted, x, u.sorted[j]); }
    } else if x in u.sorted {
      HasRq(u.sorted, x);
    }
  }
}
