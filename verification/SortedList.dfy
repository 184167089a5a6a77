/**
 What the I/O schedulers share: requests, the tree that sorts them by start sector as an
 ascending sequence, and the fifo that holds their start sectors.  Queued requests are
 identified by their start sector, the key of the tree.
 */
module SortedList {

  /** struct request; `ioc` is the context of its process, 0 for none. */
  datatype Rq = Rq(sector: nat, nr: nat, sync: bool, ioc: nat)

  predicate Ascending(q: seq<Rq>) {
    forall i, j :: 0 <= i < j < |q| ==> q[i].sector < q[j].sector
  }

  /** The requests do not overlap. */
  predicate Apart(q: seq<Rq>) {
    forall i, j :: 0 <= i < j < |q| ==> q[i].sector + q[i].nr <= q[j].sector
  }

  predicate Has(q: seq<Rq>, s: nat) {
    exists i :: 0 <= i < |q| && q[i].sector == s
  }

  function Without(q: seq<Rq>, i: nat): (r: seq<Rq>)
    requires i < |q|
    ensures |r| == |q| - 1 && forall j :: 0 <= j < |r| ==> r[j] == q[if j < i then j else j + 1]
  {
    q[..i] + q[i + 1..]
  }

  predicate Distinct(f: seq<nat>) {
    forall i, j :: 0 <= i < j < |f| ==> f[i] != f[j]
  }

  /** The number of requests before sector s. */
  function Rank(q: seq<Rq>, s: nat): (i: nat)
    ensures i <= |q| && (forall j :: 0 <= j < i ==> q[j].sector < s) && (i < |q| ==> q[i].sector >= s)
  {
    if q == [] || q[0].sector >= s then 0 else 1 + Rank(q[1..], s)
  }

  lemma RankOf(q: seq<Rq>, s: nat)
    requires Ascending(q) && Has(q, s)
    ensures Rank(q, s) < |q| && q[Rank(q, s)].sector == s
  {
    var i :| 0 <= i < |q| && q[i].sector == s;
    assert Rank(q, s) <= i;
    assert Rank(q, s) == i;
  }

  function Drop(f: seq<nat>, s: nat): (r: seq<nat>)
    ensures forall x :: x in r <==> x in f && x != s
  {
    if f == [] then [] else if f[0] == s then Drop(f[1..], s) else [f[0]] + Drop(f[1..], s)
  }

  lemma {:induction false} ConsDistinct(x: nat, r: seq<nat>)
    requires Distinct(r) && x !in r
    ensures Distinct([x] + r)
  {
    var f := [x] + r;
    forall i, j | 0 <= i < j < |f| ensures f[i] != f[j] { assert f[j] == r[j - 1]; }
  }

  lemma {:induction false} TailDistinct(f: seq<nat>)
    requires Distinct(f) && f != []
    ensures Distinct(f[1..]) && f[0] !in f[1..]
  {
    var r := f[1..];
    assert forall i :: 0 <= i < |r| ==> r[i] == f[i + 1];
  }

  lemma {:induction false} DropDistinct(f: seq<nat>, s: nat)
    requires Distinct(f)
    ensures Distinct(Drop(f, s))
  {
    if f != [] {
      TailDistinct(f);
      DropDistinct(f[1..], s);
      if f[0] != s { ConsDistinct(f[0], Drop(f[1..], s)); }
    }
  }

  lemma WithoutHasOne(q: seq<Rq>, i: nat, x: nat)
    requires Ascending(q) && i < |q|
    ensures Has(Without(q, i), x) <==> Has(q, x) && x != q[i].sector
  {
    var r := Without(q, i);
    if Has(r, x) {
      var j :| 0 <= j < |r| && r[j].sector == x;
      assert q[if j < i then j else j + 1].sector == x;
    }
    if Has(q, x) && x != q[i].sector {
      var j :| 0 <= j < |q| && q[j].sector == x;
      assert r[if j < i then j else j - 1].sector == x;
    }
  }

  lemma WithoutHas(q: seq<Rq>, i: nat)
    requires Ascending(q) && i < |q|
    ensures Ascending(Without(q, i))
    ensures forall x :: Has(Without(q, i), x) <==> Has(q, x) && x != q[i].sector
  {
    forall x ensures Has(Without(q, i), x) <==> Has(q, x) && x != q[i].sector { WithoutHasOne(q, i, x); }
  }

  /** The request of sector s grows to n sectors. */
  function Resized(q: seq<Rq>, s: nat, n: nat): (r: seq<Rq>)
    ensures |r| == |q| && forall j :: 0 <= j < |q| ==> r[j].sector == q[j].sector
  {
    var i := Rank(q, s);
    if i == |q| then q else q[i := q[i].(nr := n)]
  }

  lemma ResizedHas(q: seq<Rq>, s: nat, n: nat)
    requires Ascending(q)
    ensures Ascending(Resized(q, s, n)) && forall x :: Has(Resized(q, s, n), x) <==> Has(q, x)
  {
    var r := Resized(q, s, n);
    forall x ensures Has(r, x) <==> Has(q, x) {
      assert forall j :: 0 <= j < |q| ==> r[j].sector == q[j].sector;
    }
  }

  function Placed(q: seq<Rq>, rq: Rq): seq<Rq> {
    var i := Rank(q, rq.sector);
    q[..i] + [rq] + q[i..]
  }

  lemma PlacedAt(q: seq<Rq>, rq: Rq, j: nat)
    requires j < |Placed(q, rq)|
    ensures var i := Rank(q, rq.sector);
            Placed(q, rq)[j] == if j < i then q[j] else if j == i then rq else q[j - 1]
  {
  }

  lemma PlacedAscending(q: seq<Rq>, rq: Rq)
    requires Ascending(q) && !Has(q, rq.sector)
    ensures Ascending(Placed(q, rq))
  {
    var i, r := Rank(q, rq.sector), Placed(q, rq);
    assert i < |q| ==> rq.sector < q[i].sector;
    forall j, k | 0 <= j < k < |r| ensures r[j].sector < r[k].sector {
      PlacedAt(q, rq, j);
      PlacedAt(q, rq, k);
    }
  }

  lemma PlacedHas(q: seq<Rq>, rq: Rq, x: nat)
    ensures Has(Placed(q, rq), x) <==> Has(q, x) || x == rq.sector
  {
    var i, r := Rank(q, rq.sector), Placed(q, rq);
    if Has(r, x) {
      var j :| 0 <= j < |r| && r[j].sector == x;
      PlacedAt(q, rq, j);
      if j != i { assert q[if j < i then j else j - 1].sector == x; }
    }
    if Has(q, x) {
      var j :| 0 <= j < |q| && q[j].sector == x;
      PlacedAt(q, rq, if j < i then j else j + 1);
    }
    PlacedAt(q, rq, i);
  }

  lemma PlacedOk(q: seq<Rq>, rq: Rq)
    requires Ascending(q) && !Has(q, rq.sector)
    ensures Ascending(Placed(q, rq))
    ensures forall x :: Has(Placed(q, rq), x) <==> Has(q, x) || x == rq.sector
  {
    PlacedAscending(q, rq);
    forall x ensures Has(Placed(q, rq), x) <==> Has(q, x) || x == rq.sector { PlacedHas(q, rq, x); }
  }

  function Swap(f: seq<nat>, t: nat, s: nat): (r: seq<nat>)
    ensures |r| == |f| && forall i :: 0 <= i < |f| ==> r[i] == if f[i] == t then s else f[i]
  {
    seq(|f|, i requires 0 <= i < |f| => if f[i] == t then s else f[i])
  }

  lemma SwapHas(f: seq<nat>, t: nat, s: nat)
    requires t in f && s !in f && Distinct(f)
    ensures Distinct(Swap(f, t, s))
    ensures forall x :: x in Swap(f, t, s) <==> (x in f && x != t) || x == s
  {
    var r := Swap(f, t, s);
    var k :| 0 <= k < |f| && f[k] == t;
    assert r[k] == s;
    forall x ensures x in r <==> (x in f && x != t) || x == s {
      if x in f && x != t {
        var i :| 0 <= i < |f| && f[i] == x;
        assert r[i] == x;
      }
    }
  }

  /** One sector takes the place of another. */
  lemma {:induction false} SwapPlace(a: seq<nat>, t: nat, b: seq<nat>, s: nat)
    requires Distinct(a + [t] + b)
    ensures Swap(a + [t] + b, t, s) == a + [s] + b
  {
    var f, r := a + [t] + b, a + [s] + b;
    assert f[|a|] == t;
    forall i | 0 <= i < |f| ensures Swap(f, t, s)[i] == r[i] {
      assert i != |a| ==> f[i] != t;
    }
  }

  // ----- which requests a list holds -----

  lemma {:induction false} SameSector(q: seq<Rq>, x: Rq, y: Rq)
    requires Ascending(q) && x in q && y in q && x.sector == y.sector
    ensures x == y
  {
    var i :| 0 <= i < |q| && q[i] == x;
    var j :| 0 <= j < |q| && q[j] == y;
    assert i == j;
  }

  lemma {:induction false} HasRq(q: seq<Rq>, x: Rq)
    requires x in q
    ensures Has(q, x.sector)
  {
    var i :| 0 <= i < |q| && q[i] == x;
  }

  /** The request that is found under the sector of another one is that one. */
  lemma {:induction false} RankOfRq(q: seq<Rq>, x: Rq)
    requires Ascending(q) && x in q
    ensures Rank(q, x.sector) < |q| && q[Rank(q, x.sector)] == x
  {
    HasRq(q, x);
    RankOf(q, x.sector);
    SameSector(q, x, q[Rank(q, x.sector)]);
  }

  lemma {:induction false} WithoutHolds(q: seq<Rq>, i: nat, x: Rq)
    requires Ascending(q) && i < |q|
    ensures x in Without(q, i) <==> x in q && x != q[i]
  {
    var r := Without(q, i);
    if x in r {
      var j :| 0 <= j < |r| && r[j] == x;
      assert q[if j < i then j else j + 1] == x;
    }
    if x in q && x != q[i] {
      var j :| 0 <= j < |q| && q[j] == x;
      assert r[if j < i then j else j - 1] == x;
    }
  }

  lemma {:induction false} PlacedHolds(q: seq<Rq>, rq: Rq, x: Rq)
    ensures x in Placed(q, rq) <==> x in q || x == rq
  {
    var i := Rank(q, rq.sector);
    assert q == q[..i] + q[i..];
  }

  lemma {:induction false} ResizedHolds(q: seq<Rq>, s: nat, n: nat, x: Rq)
    requires Ascending(q) && x in q && Has(q, s)
    ensures (if x.sector == s then x.(nr := n) else x) in Resized(q, s, n)
  {
    RankOf(q, s);
    RankOfRq(q, x);
    var k, r := Rank(q, x.sector), Resized(q, s, n);
    if x.sector == s { assert r[k] == x.(nr := n); } else { assert r[k] == x; }
  }

  lemma {:induction false} DropMiddle(a: seq<nat>, s: nat, b: seq<nat>)
    requires Distinct(a + [s] + b)
    ensures Drop(a + [s] + b, s) == a + b
    decreases |a|
  {
    var f := a + [s] + b;
    assert f[|a|] == s;
    if a == [] {
      assert f[1..] == b && s !in b;
      DropAbsent(b, s);
    } else {
      assert f[1..] == a[1..] + [s] + b && f[0] == a[0] && a[0] != s;
      TailDistinct(f);
      DropMiddle(a[1..], s, b);
    }
  }

  lemma {:induction false} DropAbsent(f: seq<nat>, s: nat)
    requires s !in f
    ensures Drop(f, s) == f
  {
    if f != [] { DropAbsent(f[1..], s); }
  }
}
