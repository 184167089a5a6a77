/**
 Physical segments of a request, block/ll_rw_blk.c: blk_recalc_rq_segments counts them and
 blk_rq_map_sg builds a scatter list in an array that only has to hold that count.
 */
module ScatterList {
  import opened Common

  datatype Vec = Vec(page: nat, offset: nat, len: nat)
  datatype Sg = Sg(page: nat, offset: nat, length: nat)

  /** The limits of a queue.  `mergeable` is BIOVEC_PHYS_MERGEABLE and BIOVEC_SEG_BOUNDARY,
      `virtMergeable`, `oversize` and `startSize` are the BIOVEC_VIRT macros, and `high` tells
      the pages above bounce_pfn. */
  datatype Queue = Queue(cluster: bool, maxSegment: nat, mergeable: (Vec, Vec) -> bool, high: Vec -> bool,
                         virtMergeable: (Vec, Vec) -> bool, oversize: nat -> bool, startSize: Vec -> nat)

  predicate Joins(q: Queue, length: nat, prev: Vec, v: Vec) {
    q.cluster && length + v.len <= q.maxSegment && q.mergeable(prev, v)
  }

  // A way to cut the vectors into segments: cuts[i] says that one starts at vector i.

  function Front<T>(s: seq<T>): seq<T>
    requires s != []
  {
    s[..|s| - 1]
  }

  /** The length of the segment that is open after |cuts| vectors. */
  function RunLength(vecs: seq<Vec>, cuts: seq<bool>): nat
    requires |cuts| <= |vecs|
    decreases |cuts|
  {
    if cuts == [] then 0
    else (if cuts[|cuts| - 1] then 0 else RunLength(vecs, Front(cuts))) + vecs[|cuts| - 1].len
  }

  function Count(cuts: seq<bool>): nat {
    if cuts == [] then 0 else Count(Front(cuts)) + if cuts[|cuts| - 1] then 1 else 0
  }

  /** The segment that is open after |cuts| vectors may take the next one. */
  predicate MayJoin(q: Queue, vecs: seq<Vec>, cuts: seq<bool>)
    requires |cuts| < |vecs|
  {
    cuts != [] && Joins(q, RunLength(vecs, cuts), vecs[|cuts| - 1], vecs[|cuts|])
  }

  /** A segment goes on only where the queue lets it. */
  predicate Allowed(q: Queue, vecs: seq<Vec>, cuts: seq<bool>)
    requires |cuts| <= |vecs|
    decreases |cuts|
  {
    cuts == [] || (Allowed(q, vecs, Front(cuts)) && (cuts[|cuts| - 1] || MayJoin(q, vecs, Front(cuts))))
  }

  /** And always goes on where the queue lets it. */
  predicate Greedy(q: Queue, vecs: seq<Vec>, cuts: seq<bool>)
    requires |cuts| <= |vecs|
    decreases |cuts|
  {
    cuts == [] || (Greedy(q, vecs, Front(cuts)) && cuts[|cuts| - 1] == !MayJoin(q, vecs, Front(cuts)))
  }

  /** The greedy cuts stay ahead: they are fewer, or as many with an open segment that is no
      longer. */
  lemma {:induction false} GreedyStaysAhead(q: Queue, vecs: seq<Vec>, g: seq<bool>, c: seq<bool>)
    requires |g| == |c| <= |vecs| && Greedy(q, vecs, g) && Allowed(q, vecs, c)
    ensures Count(g) <= Count(c)
    ensures Count(g) == Count(c) ==> RunLength(vecs, g) <= RunLength(vecs, c)
    decreases |g|
  {
    if g != [] { GreedyStaysAhead(q, vecs, Front(g), Front(c)); }
  }

  /** The scatter list of the first |cuts| vectors. */
  function Entries(vecs: seq<Vec>, cuts: seq<bool>): (r: seq<Sg>)
    requires |cuts| <= |vecs| && (cuts != [] ==> cuts[0])
    ensures |r| == Count(cuts) && (cuts != [] ==> |r| > 0 && r[|r| - 1].length == RunLength(vecs, cuts))
    decreases |cuts|
  {
    if cuts == [] then []
    else
      var r, v := Entries(vecs, Front(cuts)), vecs[|cuts| - 1];
      if cuts[|cuts| - 1] then r + [Sg(v.page, v.offset, v.len)]
      else r[|r| - 1 := r[|r| - 1].(length := r[|r| - 1].length + v.len)]
  }

  function VecBytes(vecs: seq<Vec>): nat {
    if vecs == [] then 0 else VecBytes(Front(vecs)) + vecs[|vecs| - 1].len
  }

  function SgBytes(sg: seq<Sg>): nat {
    if sg == [] then 0 else SgBytes(Front(sg)) + sg[|sg| - 1].length
  }

  /** The scatter list holds every byte of the request. */
  lemma {:induction false} EntriesKeepBytes(vecs: seq<Vec>, cuts: seq<bool>)
    requires |cuts| <= |vecs| && (cuts != [] ==> cuts[0])
    ensures SgBytes(Entries(vecs, cuts)) == VecBytes(vecs[..|cuts|])
    decreases |cuts|
  {
    if cuts != [] {
      EntriesKeepBytes(vecs, Front(cuts));
      assert Front(vecs[..|cuts|]) == vecs[..|cuts| - 1];
      var r, e := Entries(vecs, Front(cuts)), Entries(vecs, cuts);
      assert Front(e) == if cuts[|cuts| - 1] then r else Front(r);
    }
  }

  lemma {:induction false} CountTake(c: seq<bool>, n: nat)
    requires n <= |c|
    ensures Count(c[..n]) <= Count(c)
    decreases |c|
  {
    if n < |c| {
      CountTake(Front(c), n);
      assert Front(c)[..n] == c[..n];
    } else {
      assert c[..n] == c;
    }
  }

  lemma {:induction false} AllowedTake(q: Queue, vecs: seq<Vec>, c: seq<bool>, n: nat)
    requires n <= |c| <= |vecs| && Allowed(q, vecs, c)
    ensures Allowed(q, vecs, c[..n])
    decreases |c|
  {
    if n < |c| {
      AllowedTake(q, vecs, Front(c), n);
      assert Front(c)[..n] == c[..n];
    } else {
      assert c[..n] == c;
    }
  }

  /** Room for any allowed way of cutting is room for one more greedy cut. */
  lemma RoomForOne(q: Queue, vecs: seq<Vec>, g: seq<bool>, c: seq<bool>)
    requires |g| < |c| == |vecs| && Greedy(q, vecs, g + [true]) && Allowed(q, vecs, c)
    ensures Count(g) < Count(c)
  {
    var n := |g| + 1;
    AllowedTake(q, vecs, c, n);
    GreedyStaysAhead(q, vecs, g + [true], c[..n]);
    CountTake(c, n);
    assert Front(g + [true]) == g;
  }

  // ----- the same in terms of the queue's limits -----

  /** Segment k goes from vector starts[k] to just before Stop(starts, n, k). */
  function Stop(starts: seq<nat>, n: nat, k: nat): nat
    requires k < |starts|
  {
    if k + 1 < |starts| then starts[k + 1] else n
  }

  /** The segments follow each other and cover n vectors. */
  predicate Tiles(starts: seq<nat>, n: nat) {
    (n == 0 <==> starts == []) && (n > 0 ==> starts[0] == 0) &&
    forall k :: 0 <= k < |starts| ==> starts[k] < Stop(starts, n, k) <= n
  }

  /** A segment is a single vector, or it respects max_segment_size and all its neighbours are
      mergeable. */
  predicate Fits(q: Queue, vecs: seq<Vec>, a: nat, b: nat) {
    a < b <= |vecs| &&
    (b == a + 1 ||
     (q.cluster && VecBytes(vecs[a..b]) <= q.maxSegment && forall i :: a < i < b ==> q.mergeable(vecs[i - 1], vecs[i])))
  }

  /** The vector behind a segment could not have joined it. */
  predicate Full(q: Queue, vecs: seq<Vec>, a: nat, b: nat) {
    a < b <= |vecs| &&
    (b == |vecs| || !q.cluster || VecBytes(vecs[a..b]) + vecs[b].len > q.maxSegment ||
     !q.mergeable(vecs[b - 1], vecs[b]))
  }

  /** Where the segments of a way of cutting start. */
  ghost function StartsOf(cuts: seq<bool>): (r: seq<nat>)
    decreases |cuts|
  {
    if cuts == [] then []
    else if cuts[|cuts| - 1] then StartsOf(Front(cuts)) + [|cuts| - 1] else StartsOf(Front(cuts))
  }

  lemma {:induction false} StartsTile(cuts: seq<bool>)
    requires cuts != [] ==> cuts[0]
    ensures Tiles(StartsOf(cuts), |cuts|) && |StartsOf(cuts)| == Count(cuts)
    decreases |cuts|
  {
    if cuts != [] {
      var was, r, n := StartsOf(Front(cuts)), StartsOf(cuts), |cuts|;
      StartsTile(Front(cuts));
      forall k | 0 <= k < |r| ensures r[k] < Stop(r, n, k) <= n {
        if k < |was| { assert was[k] < Stop(was, n - 1, k) <= n - 1; }
      }
    }
  }

  lemma {:induction false} BytesSnoc(vecs: seq<Vec>, a: nat, b: nat)
    requires a <= b < |vecs|
    ensures VecBytes(vecs[a..b + 1]) == VecBytes(vecs[a..b]) + vecs[b].len
  {
    assert Front(vecs[a..b + 1]) == vecs[a..b];
  }

  /** The open segment is the last one. */
  lemma {:induction false} RunIsLast(vecs: seq<Vec>, cuts: seq<bool>)
    requires 0 < |cuts| <= |vecs| && cuts[0]
    ensures var s := StartsOf(cuts);
            s != [] && s[|s| - 1] < |cuts| && RunLength(vecs, cuts) == VecBytes(vecs[s[|s| - 1]..|cuts|])
    decreases |cuts|
  {
    var n := |cuts|;
    if cuts[n - 1] {
      BytesSnoc(vecs, n - 1, n - 1);
    } else {
      RunIsLast(vecs, Front(cuts));
      var s := StartsOf(cuts);
      BytesSnoc(vecs, s[|s| - 1], n - 1);
    }
  }

  ghost predicate AllFit(q: Queue, vecs: seq<Vec>, starts: seq<nat>, n: nat) {
    forall k :: 0 <= k < |starts| ==> Fits(q, vecs, starts[k], Stop(starts, n, k))
  }

  lemma {:induction false} FirstCut(q: Queue, vecs: seq<Vec>, cuts: seq<bool>)
    requires |cuts| <= |vecs| && Allowed(q, vecs, cuts)
    ensures cuts != [] ==> cuts[0]
    decreases |cuts|
  {
    if |cuts| > 1 { FirstCut(q, vecs, Front(cuts)); }
  }

  /** The next vector joins a segment. */
  lemma {:induction false} FitsNext(q: Queue, vecs: seq<Vec>, a: nat, b: nat)
    requires Fits(q, vecs, a, b) && b < |vecs|
    requires Joins(q, VecBytes(vecs[a..b]), vecs[b - 1], vecs[b])
    ensures Fits(q, vecs, a, b + 1)
  {
    BytesSnoc(vecs, a, b);
    forall i | a < i < b + 1 ensures q.mergeable(vecs[i - 1], vecs[i]) {
    }
  }

  lemma {:induction false} FitsOn(q: Queue, vecs: seq<Vec>, s: seq<nat>, n: nat)
    requires AllFit(q, vecs, s, n) && s != [] && Fits(q, vecs, s[|s| - 1], n + 1)
    ensures AllFit(q, vecs, s, n + 1)
  {
    forall k | 0 <= k < |s| ensures Fits(q, vecs, s[k], Stop(s, n + 1, k)) {
      assert Fits(q, vecs, s[k], Stop(s, n, k));
    }
  }

  lemma {:induction false} FitsNew(q: Queue, vecs: seq<Vec>, s: seq<nat>, n: nat)
    requires AllFit(q, vecs, s, n) && n < |vecs|
    ensures AllFit(q, vecs, s + [n], n + 1)
  {
    var r := s + [n];
    forall k | 0 <= k < |r| ensures Fits(q, vecs, r[k], Stop(r, n + 1, k)) {
      if k < |s| { assert Fits(q, vecs, s[k], Stop(s, n, k)); }
    }
  }

  lemma {:induction false} StartsFit(q: Queue, vecs: seq<Vec>, cuts: seq<bool>)
    requires |cuts| <= |vecs| && Allowed(q, vecs, cuts)
    ensures AllFit(q, vecs, StartsOf(cuts), |cuts|)
    decreases |cuts|
  {
    if cuts != [] {
      var was, n := StartsOf(Front(cuts)), |cuts| - 1;
      StartsFit(q, vecs, Front(cuts));
      if cuts[n] {
        FitsNew(q, vecs, was, n);
      } else {
        FirstCut(q, vecs, Front(cuts));
        RunIsLast(vecs, Front(cuts));
        assert Fits(q, vecs, was[|was| - 1], Stop(was, n, |was| - 1));
        FitsNext(q, vecs, was[|was| - 1], n);
        FitsOn(q, vecs, was, n);
      }
    }
  }

  /** All but the last segment are full, or end at a vector with an excuse. */
  ghost predicate AllFull(q: Queue, vecs: seq<Vec>, starts: seq<nat>, excuse: nat -> bool) {
    forall k :: 0 <= k < |starts| - 1 ==> excuse(starts[k + 1]) || Full(q, vecs, starts[k], starts[k + 1])
  }

  ghost predicate CutsNeeded(q: Queue, vecs: seq<Vec>, cuts: seq<bool>, excuse: nat -> bool)
    requires |cuts| <= |vecs|
  {
    forall j :: 0 < j < |cuts| && cuts[j] ==> excuse(j) || !MayJoin(q, vecs, cuts[..j])
  }

  lemma {:induction false} FullNew(q: Queue, vecs: seq<Vec>, s: seq<nat>, n: nat, excuse: nat -> bool)
    requires AllFull(q, vecs, s, excuse) && (s != [] ==> excuse(n) || Full(q, vecs, s[|s| - 1], n))
    ensures AllFull(q, vecs, s + [n], excuse)
  {
  }

  lemma {:induction false} NeededFront(q: Queue, vecs: seq<Vec>, cuts: seq<bool>, excuse: nat -> bool)
    requires 0 < |cuts| <= |vecs| && CutsNeeded(q, vecs, cuts, excuse)
    ensures CutsNeeded(q, vecs, Front(cuts), excuse)
    ensures |cuts| > 1 && cuts[|cuts| - 1] ==> excuse(|cuts| - 1) || !MayJoin(q, vecs, Front(cuts))
  {
    var f := Front(cuts);
    assert cuts[..|cuts| - 1] == f;
    forall j | 0 < j < |f| && f[j] ensures excuse(j) || !MayJoin(q, vecs, f[..j]) {
      assert f[..j] == cuts[..j] && cuts[j];
    }
  }

  lemma {:induction false} FullLast(q: Queue, vecs: seq<Vec>, f: seq<bool>)
    requires 0 < |f| < |vecs| && f[0] && !MayJoin(q, vecs, f)
    ensures var s := StartsOf(f); s != [] && Full(q, vecs, s[|s| - 1], |f|)
  {
    RunIsLast(vecs, f);
  }

  lemma {:induction false} StartsFull(q: Queue, vecs: seq<Vec>, cuts: seq<bool>, excuse: nat -> bool)
    requires |cuts| <= |vecs| && CutsNeeded(q, vecs, cuts, excuse) && (cuts != [] ==> cuts[0])
    ensures AllFull(q, vecs, StartsOf(cuts), excuse)
    decreases |cuts|
  {
    if cuts != [] {
      var f, n := Front(cuts), |cuts| - 1;
      NeededFront(q, vecs, cuts, excuse);
      StartsFull(q, vecs, f, excuse);
      if cuts[n] {
        if n > 0 && !excuse(n) { FullLast(q, vecs, f); }
        FullNew(q, vecs, StartsOf(f), n, excuse);
      }
    }
  }

  lemma {:induction false} GreedyNeeded(q: Queue, vecs: seq<Vec>, cuts: seq<bool>)
    requires |cuts| <= |vecs| && Greedy(q, vecs, cuts)
    ensures CutsNeeded(q, vecs, cuts, _ => false)
    decreases |cuts|
  {
    if cuts != [] {
      GreedyNeeded(q, vecs, Front(cuts));
      forall j | 0 < j < |cuts| && cuts[j] ensures !MayJoin(q, vecs, cuts[..j]) {
        assert cuts[..j] == if j < |cuts| - 1 then Front(cuts)[..j] else Front(cuts);
      }
    }
  }

  lemma {:induction false} GreedyAllowed(q: Queue, vecs: seq<Vec>, cuts: seq<bool>)
    requires |cuts| <= |vecs| && Greedy(q, vecs, cuts)
    ensures Allowed(q, vecs, cuts)
    decreases |cuts|
  {
    if cuts != [] { GreedyAllowed(q, vecs, Front(cuts)); }
  }

  /** An entry of the scatter list is the place and the length of its segment. */
  ghost predicate AreEntries(vecs: seq<Vec>, starts: seq<nat>, n: nat, sg: seq<Sg>)
    requires n <= |vecs| && Tiles(starts, n)
  {
    |sg| == |starts| &&
    forall k :: 0 <= k < |sg| ==>
                  var v := vecs[starts[k]];
                  sg[k] == Sg(v.page, v.offset, VecBytes(vecs[starts[k]..Stop(starts, n, k)]))
  }

  lemma {:induction false} EntriesStep(vecs: seq<Vec>, g: seq<bool>, r: seq<Sg>, v: Vec)
    requires 0 < |g| <= |vecs| && g[0] && r == Entries(vecs, Front(g)) && v == vecs[|g| - 1]
    ensures g[|g| - 1] ==> Entries(vecs, g) == r + [Sg(v.page, v.offset, v.len)]
    ensures !g[|g| - 1] ==> |r| > 0 && r[|r| - 1].length == RunLength(vecs, Front(g)) &&
                            Entries(vecs, g) == r[|r| - 1 := r[|r| - 1].(length := r[|r| - 1].length + v.len)]
  {
  }

  lemma {:induction false} EntriesNew(vecs: seq<Vec>, s: seq<nat>, n: nat, sg: seq<Sg>, v: Vec)
    requires n < |vecs| && v == vecs[n] && Tiles(s, n) && AreEntries(vecs, s, n, sg) && Tiles(s + [n], n + 1)
    ensures AreEntries(vecs, s + [n], n + 1, sg + [Sg(v.page, v.offset, v.len)])
  {
    var r, e := s + [n], sg + [Sg(v.page, v.offset, v.len)];
    BytesSnoc(vecs, n, n);
    forall k | 0 <= k < |e|
      ensures e[k] == Sg(vecs[r[k]].page, vecs[r[k]].offset, VecBytes(vecs[r[k]..Stop(r, n + 1, k)]))
    {
      if k < |sg| { assert r[k] == s[k] && Stop(r, n + 1, k) == Stop(s, n, k); }
    }
  }

  lemma {:induction false} EntriesOn(vecs: seq<Vec>, s: seq<nat>, n: nat, sg: seq<Sg>, v: Vec)
    requires n < |vecs| && v == vecs[n] && s != [] && Tiles(s, n) && AreEntries(vecs, s, n, sg) && Tiles(s, n + 1)
    ensures AreEntries(vecs, s, n + 1, sg[|sg| - 1 := sg[|sg| - 1].(length := sg[|sg| - 1].length + v.len)])
  {
    var e := sg[|sg| - 1 := sg[|sg| - 1].(length := sg[|sg| - 1].length + v.len)];
    BytesSnoc(vecs, s[|s| - 1], n);
    forall k | 0 <= k < |e|
      ensures e[k] == Sg(vecs[s[k]].page, vecs[s[k]].offset, VecBytes(vecs[s[k]..Stop(s, n + 1, k)]))
    {
      if k < |e| - 1 { assert Stop(s, n + 1, k) == Stop(s, n, k); }
    }
  }

  /** Segments and entries belong together; folded for the induction. */
  ghost predicate Described(vecs: seq<Vec>, s: seq<nat>, n: nat, sg: seq<Sg>) {
    forall u {:trigger Open(u)} :: Open(u) ==> n <= |vecs| && Tiles(s, n) && AreEntries(vecs, s, n, sg)
  }

  lemma {:induction false} TilesNew(s: seq<nat>, n: nat)
    requires Tiles(s, n)
    ensures Tiles(s + [n], n + 1) && (n > 0 ==> Tiles(s, n + 1))
  {
    var r := s + [n];
    forall k | 0 <= k < |r| ensures r[k] < Stop(r, n + 1, k) <= n + 1 {
      if k < |s| { assert s[k] < Stop(s, n, k) <= n; }
    }
    forall k | 0 <= k < |s| ensures s[k] < Stop(s, n + 1, k) <= n + 1 {
      assert s[k] < Stop(s, n, k) <= n;
    }
  }

  lemma {:induction false} DescribedNext(vecs: seq<Vec>, s: seq<nat>, n: nat, sg: seq<Sg>, v: Vec)
    requires Described(vecs, s, n, sg) && n < |vecs| && v == vecs[n]
    ensures Described(vecs, s + [n], n + 1, sg + [Sg(v.page, v.offset, v.len)])
    ensures n > 0 ==> |sg| > 0 &&
                      Described(vecs, s, n + 1, sg[|sg| - 1 := sg[|sg| - 1].(length := sg[|sg| - 1].length + v.len)])
  {
    assert Open(true);
    TilesNew(s, n);
    EntriesNew(vecs, s, n, sg, v);
    if n > 0 { EntriesOn(vecs, s, n, sg, v); }
  }

  lemma {:induction false} StartsStep(f: seq<bool>, cut: bool)
    ensures StartsOf(f + [cut]) == if cut then StartsOf(f) + [|f|] else StartsOf(f)
  {
    assert Front(f + [cut]) == f;
  }

  ghost predicate DescribedTo(vecs: seq<Vec>, cuts: seq<bool>, n: nat) {
    n <= |cuts| <= |vecs| && (n > 0 ==> cuts[0]) && Described(vecs, StartsOf(cuts[..n]), n, Entries(vecs, cuts[..n]))
  }

  lemma {:induction false} DescribedToNext(vecs: seq<Vec>, cuts: seq<bool>, n: nat)
    requires DescribedTo(vecs, cuts, n) && n < |cuts| && cuts[0]
    ensures DescribedTo(vecs, cuts, n + 1)
  {
    var f, v := cuts[..n], vecs[n];
    var g := cuts[..n + 1];
    assert g == f + [cuts[n]] && Front(g) == f;
    var s, sg := StartsOf(f), Entries(vecs, f);
    DescribedNext(vecs, s, n, sg, v);
    var s', sg' := StartsOf(g), Entries(vecs, g);
    assert s' == if cuts[n] then s + [n] else s by { StartsStep(f, cuts[n]); }
    assert sg' == if cuts[n] then sg + [Sg(v.page, v.offset, v.len)]
                  else sg[|sg| - 1 := sg[|sg| - 1].(length := sg[|sg| - 1].length + v.len)] by {
      EntriesStep(vecs, g, sg, v);
    }
  }

  lemma {:induction false} EntriesAre(vecs: seq<Vec>, cuts: seq<bool>)
    requires |cuts| <= |vecs| && (cuts != [] ==> cuts[0])
    ensures Described(vecs, StartsOf(cuts), |cuts|, Entries(vecs, cuts))
  {
    var t: nat -> bool := (n: nat) => DescribedTo(vecs, cuts, n);
    forall k: nat | k < |cuts| && DescribedTo(vecs, cuts, k) ensures DescribedTo(vecs, cuts, k + 1) {
      DescribedToNext(vecs, cuts, k);
    }
    assert DescribedTo(vecs, cuts, 0);
    UpTo(t, |cuts|);
    assert DescribedTo(vecs, cuts, |cuts|);
    assert cuts[..|cuts|] == cuts;
  }

  lemma {:induction false} EntriesDescribe(vecs: seq<Vec>, cuts: seq<bool>)
    requires |cuts| <= |vecs| && (cuts != [] ==> cuts[0])
    ensures Tiles(StartsOf(cuts), |cuts|) && AreEntries(vecs, StartsOf(cuts), |cuts|, Entries(vecs, cuts))
  {
    EntriesAre(vecs, cuts);
    assert Open(true);
  }

  lemma {:induction false} CutsSnoc(q: Queue, vecs: seq<Vec>, was: seq<bool>, cut: bool, excuse: nat -> bool)
    requires |was| < |vecs| && CutsNeeded(q, vecs, was, excuse)
    requires cut && was != [] ==> excuse(|was|) || !MayJoin(q, vecs, was)
    ensures CutsNeeded(q, vecs, was + [cut], excuse)
  {
    var r := was + [cut];
    forall j | 0 < j < |r| && r[j] ensures excuse(j) || !MayJoin(q, vecs, r[..j]) {
      assert r[..j] == was[..j];
      if j == |was| { assert was[..j] == was; }
    }
  }

  /** A cut next to a page above bounce_pfn, which may move with its bounce page. */
  ghost function HighAt(q: Queue, vecs: seq<Vec>): nat -> bool {
    i => 0 < i < |vecs| && (q.high(vecs[i - 1]) || q.high(vecs[i]))
  }

  /** What blk_recalc_rq_segments has counted. */
  ghost predicate Counted(q: Queue, vecs: seq<Vec>, cuts: seq<bool>, over: bool) {
    |cuts| <= |vecs| && Allowed(q, vecs, cuts) && (over ==> exists n :: q.oversize(n)) &&
    (!over ==> CutsNeeded(q, vecs, cuts, HighAt(q, vecs))) &&
    forall i :: 0 < i < |cuts| && !cuts[i] ==> !HighAt(q, vecs)(i)
  }

  lemma {:induction false} CountedNext(q: Queue, vecs: seq<Vec>, was: seq<bool>, cut: bool, over: bool)
    requires Counted(q, vecs, was, over) && |was| < |vecs|
    requires !cut ==> MayJoin(q, vecs, was) && !HighAt(q, vecs)(|was|)
    requires cut && was != [] && !over ==> HighAt(q, vecs)(|was|) || !MayJoin(q, vecs, was)
    ensures Counted(q, vecs, was + [cut], over)
  {
    assert Front(was + [cut]) == was;
    if !over { CutsSnoc(q, vecs, was, cut, HighAt(q, vecs)); }
  }

  lemma {:induction false} CountedOver(q: Queue, vecs: seq<Vec>, cuts: seq<bool>, over: bool, n: nat)
    requires Counted(q, vecs, cuts, over) && q.oversize(n)
    ensures Counted(q, vecs, cuts, true)
  {
  }

  /** Whether the next vector joins the open segment, starts a hardware segment as well, and
      whether it would have joined but for the size of the hardware segment. */
  method Decide(q: Queue, vecs: seq<Vec>, i: nat, segSize: nat, hwSegSize: nat, highPrv: bool, ghost cuts: seq<bool>)
    returns (join: bool, newHw: bool, ghost over: bool)
    requires i == |cuts| < |vecs| && segSize == RunLength(vecs, cuts) && highPrv == (i == 0 || q.high(vecs[i - 1]))
    ensures join ==> MayJoin(q, vecs, cuts) && !HighAt(q, vecs)(i) && !newHw
    ensures over ==> q.oversize(hwSegSize + vecs[i].len)
    ensures !join && i > 0 && !over ==> HighAt(q, vecs)(i) || !MayJoin(q, vecs, cuts)
    ensures i == 0 ==> newHw
  {
    var v := vecs[i];
    newHw := q.high(v) || highPrv;
    join, over := false, false;
    if !newHw {
      if Joins(q, segSize, vecs[i - 1], v) {
        if q.oversize(hwSegSize + v.len) { newHw, over := true, true; } else { join := true; }
      } else if !(q.virtMergeable(vecs[i - 1], v) && !q.oversize(hwSegSize + v.len)) {
        newHw := true;
      }
    }
  }

  lemma {:induction false} CountedAll(q: Queue, vecs: seq<Vec>, cuts: seq<bool>, over: bool)
    requires Counted(q, vecs, cuts, over) && |cuts| == |vecs|
    ensures Allowed(q, vecs, cuts)
    ensures var s := StartsOf(cuts);
            |s| == Count(cuts) && Tiles(s, |vecs|) && AllFit(q, vecs, s, |vecs|) &&
            (!over ==> AllFull(q, vecs, s, HighAt(q, vecs)))
    ensures over ==> exists n :: q.oversize(n)
    ensures forall i :: 0 < i < |vecs| && !cuts[i] ==> !q.high(vecs[i - 1]) && !q.high(vecs[i])
  {
    FirstCut(q, vecs, cuts);
    StartsFit(q, vecs, cuts);
    StartsTile(cuts);
    if !over { StartsFull(q, vecs, cuts, HighAt(q, vecs)); }
    forall i | 0 < i < |vecs| && !cuts[i] ensures !q.high(vecs[i - 1]) && !q.high(vecs[i]) {
      assert !HighAt(q, vecs)(i);
    }
  }

  /** blk_recalc_rq_segments: the cuts it counts are allowed. */
  method RecalcSegments(q: Queue, vecs: seq<Vec>)
    returns (phys: nat, hw: nat, ghost cuts: seq<bool>, ghost over: bool)
    ensures |cuts| == |vecs| && Allowed(q, vecs, cuts) && phys == Count(cuts)
    ensures var s := StartsOf(cuts); |s| == phys && Tiles(s, |vecs|) && AllFit(q, vecs, s, |vecs|)
    ensures forall i :: 0 < i < |vecs| && !cuts[i] ==> !q.high(vecs[i - 1]) && !q.high(vecs[i])
    ensures over ==> exists n :: q.oversize(n)
    ensures !over ==> AllFull(q, vecs, StartsOf(cuts), HighAt(q, vecs))
    ensures hw <= phys && (vecs != [] ==> 0 < hw)
  {
    phys, hw, cuts, over := 0, 0, [], false;
    var segSize: nat, hwSegSize: nat, highPrv := 0, 0, true;
    for i := 0 to |vecs|
      invariant |cuts| == i && Counted(q, vecs, cuts, over) && phys == Count(cuts)
      invariant segSize == RunLength(vecs, cuts) && hw <= phys && (i > 0 ==> 0 < hw)
      invariant highPrv == (i == 0 || q.high(vecs[i - 1]))
    {
      var v := vecs[i];
      ghost var big;
      var join, newHw;
      join, newHw, big := Decide(q, vecs, i, segSize, hwSegSize, highPrv, cuts);
      if big {
        CountedOver(q, vecs, cuts, over, hwSegSize + v.len);
        over := true;
      }
      CountedNext(q, vecs, cuts, !join, over);
      assert Front(cuts + [!join]) == cuts;
      cuts := cuts + [!join];
      if join {
        segSize, hwSegSize := segSize + v.len, hwSegSize + v.len;
      } else {
        if newHw {
          hwSegSize, hw := q.startSize(v) + v.len, hw + 1;
        } else {
          hwSegSize := hwSegSize + v.len;
        }
        phys, segSize, highPrv := phys + 1, v.len, q.high(v);
      }
    }
    CountedAll(q, vecs, cuts, over);
  }

  /** One vector of blk_rq_map_sg. */
  method MapOne(q: Queue, vecs: seq<Vec>, sglist: array<Sg>, n: nat, i: nat, ghost was: seq<bool>)
    returns (nsegs: nat, ghost g: seq<bool>)
    requires i == |was| < |vecs| && (was != [] ==> was[0])
    requires n <= sglist.Length && sglist[..n] == Entries(vecs, was)
    requires MayJoin(q, vecs, was) || n < sglist.Length
    modifies sglist
    ensures g == was + [!MayJoin(q, vecs, was)] && g[0]
    ensures nsegs <= sglist.Length && sglist[..nsegs] == Entries(vecs, g)
  {
    g := was + [!MayJoin(q, vecs, was)];
    var v := vecs[i];
    assert Front(g) == was;
    EntriesStep(vecs, g, sglist[..n], v);
    assert n > 0 ==> sglist[n - 1] == sglist[..n][n - 1];
    if i > 0 && Joins(q, sglist[n - 1].length, vecs[i - 1], v) {
      sglist[n - 1] := sglist[n - 1].(length := sglist[n - 1].length + v.len);
      nsegs := n;
    } else {
      sglist[n] := Sg(v.page, v.offset, v.len);
      nsegs := n + 1;
    }
  }

  /** blk_rq_map_sg: an array with room for any allowed way of cutting is large enough, the
      entries hold every byte, and no allowed way has fewer. */
  method MapSg(q: Queue, vecs: seq<Vec>, sglist: array<Sg>, ghost c: seq<bool>) returns (nsegs: nat, ghost g: seq<bool>)
    requires |c| == |vecs| && Allowed(q, vecs, c) && Count(c) <= sglist.Length
    modifies sglist
    ensures |g| == |vecs| && Greedy(q, vecs, g) && (g != [] ==> g[0])
    ensures nsegs == Count(g) <= Count(c) && sglist[..nsegs] == Entries(vecs, g)
    ensures SgBytes(sglist[..nsegs]) == VecBytes(vecs)
    ensures var s := StartsOf(g);
            Tiles(s, |vecs|) && AllFit(q, vecs, s, |vecs|) && AllFull(q, vecs, s, _ => false) &&
            AreEntries(vecs, s, |vecs|, sglist[..nsegs])
  {
    nsegs, g := 0, [];
    for i := 0 to |vecs|
      invariant |g| == i && Greedy(q, vecs, g) && (g != [] ==> g[0])
      invariant nsegs <= sglist.Length && sglist[..nsegs] == Entries(vecs, g)
    {
      ghost var was := g;
      assert Front(was + [!MayJoin(q, vecs, was)]) == was;
      if !MayJoin(q, vecs, was) { RoomForOne(q, vecs, was, c); }
      nsegs, g := MapOne(q, vecs, sglist, nsegs, i, was);
    }
    GreedyStaysAhead(q, vecs, g, c);
    EntriesKeepBytes(vecs, g);
    assert vecs[..|g|] == vecs;
    GreedyAllowed(q, vecs, g);
    StartsFit(q, vecs, g);
    GreedyNeeded(q, vecs, g);
    StartsFull(q, vecs, g, _ => false);
    EntriesDescribe(vecs, g);
  }

  /** A scatter list with nr_phys_segments entries holds the request. */
  method MapRequest(q: Queue, vecs: seq<Vec>) returns (phys: nat, sg: seq<Sg>)
    ensures |sg| <= phys && SgBytes(sg) == VecBytes(vecs)
    ensures exists s :: Tiles(s, |vecs|) && AllFit(q, vecs, s, |vecs|) && AllFull(q, vecs, s, _ => false) &&
                        AreEntries(vecs, s, |vecs|, sg)
  {
    ghost var c, g, over;
    var hw, nsegs;
    phys, hw, c, over := RecalcSegments(q, vecs);
    var sglist := new Sg[phys](_ => Sg(0, 0, 0));
    nsegs, g := MapSg(q, vecs, sglist, c);
    sg := sglist[..nsegs];
  }
}
