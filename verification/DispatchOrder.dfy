/**
 The dispatch queue of block/elevator.c: elv_dispatch_sort inserts by a backward scan, and
 elv_next_request moves the boundary of the one-way sweep.
 */
module DispatchOrder {
  import opened Common

  datatype Rq = Rq(id: nat, sector: nat, nr: nat, write: bool, barrier: bool, started: bool)

  /** One-way order from sector e on: first those at or above it, then those below. */
  predicate Before(e: nat, a: nat, b: nat) {
    if (a >= e) != (b >= e) then a >= e else a <= b
  }

  predicate Sweeps(q: seq<Rq>, e: nat) {
    forall i, j :: 0 <= i < j < |q| ==> Before(e, q[i].sector, q[j].sector)
  }

  predicate Apart(a: Rq, b: Rq) {
    a.sector + a.nr <= b.sector || b.sector + b.nr <= a.sector
  }

  predicate AllApart(q: seq<Rq>) {
    (forall i :: 0 <= i < |q| ==> q[i].nr > 0) && forall i, j :: 0 <= i < j < |q| ==> Apart(q[i], q[j])
  }

  /** Requests that an insertion must not pass. */
  predicate Fixed(pos: Rq, rq: Rq) {
    rq.write != pos.write || pos.barrier || pos.started
  }

  /** The scan stops at pos: the tests of elv_dispatch_sort. */
  predicate Stops(e: nat, pos: Rq, rq: Rq) {
    Fixed(pos, rq) ||
    (if rq.sector >= e then !(pos.sector < e) && rq.sector >= pos.sector
     else pos.sector >= e || rq.sector >= pos.sector)
  }

  lemma InsertedAt(q: seq<Rq>, p: nat, rq: Rq, i: nat)
    requires p <= |q| && i <= |q|
    ensures Inserted(q, p, rq)[i] == if i < p then q[i] else if i == p then rq else q[i - 1]
  {
  }

  /** Inserting behind the last request that may go first keeps the sweep. */
  lemma InsertSweeps(q: seq<Rq>, e: nat, p: nat, rq: Rq)
    requires Sweeps(q, e) && p <= |q|
    requires p > 0 ==> Before(e, q[p - 1].sector, rq.sector)
    requires forall i :: p <= i < |q| ==> !Before(e, q[i].sector, rq.sector)
    ensures Sweeps(Inserted(q, p, rq), e)
  {
    var r := Inserted(q, p, rq);
    forall i, j | 0 <= i < j < |r| ensures Before(e, r[i].sector, r[j].sector) {
      InsertedAt(q, p, rq, i);
      InsertedAt(q, p, rq, j);
      if j == p && i < p - 1 { assert Before(e, q[i].sector, q[p - 1].sector); }
    }
  }

  /** Serving the first request moves the sweep to its end, and the rest is in order again. */
  lemma ServeSweeps(q: seq<Rq>, e: nat)
    requires q != [] && Sweeps(q, e) && AllApart(q)
    ensures Sweeps(q[1..], q[0].sector + q[0].nr)
  {
    var r, end := q[1..], q[0].sector + q[0].nr;
    forall i, j | 0 <= i < j < |r| ensures Before(end, r[i].sector, r[j].sector) {
      assert r[i] == q[i + 1] && r[j] == q[j + 1];
      assert Before(e, q[0].sector, q[i + 1].sector) && Before(e, q[0].sector, q[j + 1].sector);
      assert Before(e, q[i + 1].sector, q[j + 1].sector);
      assert Apart(q[0], q[i + 1]) && Apart(q[0], q[j + 1]);
    }
  }

  lemma InsertKeeps(q: seq<Rq>, p: nat, rq: Rq)
    requires p <= |q| && AllApart(q) && rq.nr > 0 && forall i :: 0 <= i < |q| ==> Apart(q[i], rq)
    ensures AllApart(Inserted(q, p, rq))
    ensures forall x :: x in Inserted(q, p, rq) <==> x in q || x == rq
  {
    var r := Inserted(q, p, rq);
    forall i, j | 0 <= i < j < |r| ensures Apart(r[i], r[j]) {
      InsertedAt(q, p, rq, i);
      InsertedAt(q, p, rq, j);
    }
    assert q == q[..p] + q[p..];
  }

  /** Only the head can be started; what follows it is the part still to be served. */
  function Fresh(q: seq<Rq>): seq<Rq> {
    if q != [] && q[0].started then q[1..] else q
  }

  /** Unstarted requests of one direction without barriers. */
  predicate Plain(q: seq<Rq>, write: bool) {
    forall x :: x in q ==> x.write == write && !x.barrier && !x.started
  }

  /** The part still to be served is in sweep order; its requests do not overlap. */
  predicate InOrder(q: seq<Rq>, e: nat, write: bool) {
    Plain(Fresh(q), write) && AllApart(Fresh(q)) && Sweeps(Fresh(q), e)
  }

  /** A place found by the scan is in the part still to be served. */
  lemma PlaceIsFresh(q: seq<Rq>, p: nat, rq: Rq)
    requires p <= |q| && forall i :: p <= i < |q| ==> !Fixed(q[i], rq)
    requires !rq.started
    ensures |q| - |Fresh(q)| <= p
    ensures Fresh(Inserted(q, p, rq)) == Inserted(Fresh(q), p - (|q| - |Fresh(q)|), rq)
  {
    if q != [] && q[0].started {
      assert p > 0;
      assert Inserted(q, p, rq)[1..] == Inserted(q[1..], p - 1, rq);
    }
  }

  lemma InsertFresh(f: seq<Rq>, e: nat, write: bool, p: nat, rq: Rq)
    requires Plain(f, write) && AllApart(f) && Sweeps(f, e) && p <= |f|
    requires rq.write == write && !rq.barrier && !rq.started && rq.nr > 0
    requires forall i :: 0 <= i < |f| ==> Apart(f[i], rq)
    requires p > 0 ==> Stops(e, f[p - 1], rq)
    requires forall i :: p <= i < |f| ==> !Stops(e, f[i], rq)
    ensures Plain(Inserted(f, p, rq), write) && AllApart(Inserted(f, p, rq)) && Sweeps(Inserted(f, p, rq), e)
  {
    if p > 0 { assert f[p - 1] in f; }
    InsertSweeps(f, e, p, rq);
    InsertKeeps(f, p, rq);
  }

  lemma FreshAt(q: seq<Rq>, i: nat)
    requires i < |Fresh(q)|
    ensures Fresh(q)[i] == q[i + (|q| - |Fresh(q)|)]
  {
  }

  lemma InsertInOrder(q: seq<Rq>, e: nat, write: bool, p: nat, rq: Rq)
    requires InOrder(q, e, write) && rq.write == write && !rq.barrier && !rq.started && rq.nr > 0 && p <= |q|
    requires forall i :: 0 <= i < |Fresh(q)| ==> Apart(Fresh(q)[i], rq)
    requires p > 0 ==> Stops(e, q[p - 1], rq)
    requires forall i :: p <= i < |q| ==> !Stops(e, q[i], rq)
    ensures InOrder(Inserted(q, p, rq), e, write)
  {
    PlaceIsFresh(q, p, rq);
    var f, m := Fresh(q), p - (|q| - |Fresh(q)|);
    forall i | m <= i < |f| ensures !Stops(e, f[i], rq) { FreshAt(q, i); }
    if m > 0 { FreshAt(q, m - 1); }
    InsertFresh(f, e, write, m, rq);
    assert Fresh(Inserted(q, p, rq)) == Inserted(f, m, rq);
  }

  /** The head has been shown to the driver. */
  function Shown(q: seq<Rq>): (r: seq<Rq>)
    requires q != []
    ensures r != [] && r[0].started && r[0].sector == q[0].sector && r[0].nr == q[0].nr && r[1..] == q[1..]
  {
    [q[0].(started := true)] + q[1..]
  }

  lemma ShownAgain(q: seq<Rq>)
    requires q != [] && q[0].started
    ensures Shown(q) == q
  {
    assert q == [q[0]] + q[1..];
  }

  /** Showing the head, again or for the first time, lets the sweep go on from its end. */
  lemma ServeInOrder(q: seq<Rq>, e: nat, write: bool)
    requires q != [] && InOrder(q, e, write) && (q[0].started ==> e == q[0].sector + q[0].nr)
    ensures InOrder(Shown(q), q[0].sector + q[0].nr, write)
  {
    var f := q[1..];
    assert Fresh(Shown(q)) == f;
    if !q[0].started {
      ServeSweeps(q, e);
      assert forall x :: x in f ==> x in q;
      assert forall i :: 0 <= i < |f| ==> f[i] == q[i + 1];
    }
  }

  class DispatchQueue {
    var queue: seq<Rq>
    var endSector: nat

    /** The queue serves one direction without barriers, and the sweep goes on from the end of
        a head that has been shown to the driver. */
    ghost predicate Valid(write: bool)
      reads this
    {
      InOrder(queue, endSector, write) &&
      (queue != [] && queue[0].started ==> endSector == queue[0].sector + queue[0].nr)
    }

    constructor (endSector: nat)
      ensures queue == [] && this.endSector == endSector && Valid(true) && Valid(false)
    {
      queue, this.endSector := [], endSector;
    }

    /** elv_dispatch_sort, for any queue: nothing is lost, and nothing that is started, a
        barrier or of the other direction is passed. */
    method DispatchSort(rq: Rq) returns (p: nat)
      modifies `queue
      ensures p <= |old(queue)| && queue == Inserted(old(queue), p, rq)
      ensures multiset(queue) == multiset(old(queue)) + multiset{rq}
      ensures p > 0 ==> Stops(endSector, old(queue)[p - 1], rq)
      ensures forall i :: p <= i < |old(queue)| ==> !Stops(endSector, old(queue)[i], rq)
      ensures forall i :: p <= i < |old(queue)| ==>
                            var x := old(queue)[i]; x.write == rq.write && !x.barrier && !x.started
      ensures forall i :: p <= i < |old(queue)| ==> !Before(endSector, old(queue)[i].sector, rq.sector)
      ensures p > 0 ==> var x := old(queue)[p - 1];
                        x.write != rq.write || x.barrier || x.started || Before(endSector, x.sector, rq.sector)
    {
      p := |queue|;
      while p > 0 && !Stops(endSector, queue[p - 1], rq)
        invariant 0 <= p <= |queue|
        invariant forall i :: p <= i < |queue| ==> !Stops(endSector, queue[i], rq)
      {
        p := p - 1;
      }
      assert queue == queue[..p] + queue[p..];
      queue := queue[..p] + [rq] + queue[p..];
    }

    /** In every run, the part still to be served is in one-way order from the end of the last
        request shown to the driver. */
    lemma SweepsOn(write: bool)
      requires Valid(write)
      ensures Sweeps(Fresh(queue), endSector) && forall i :: 0 <= i < |Fresh(queue)| ==> !Fresh(queue)[i].started
      ensures |queue| - |Fresh(queue)| <= 1 && (Fresh(queue) != queue ==> endSector == queue[0].sector + queue[0].nr)
    {
      forall i | 0 <= i < |Fresh(queue)| ensures !Fresh(queue)[i].started { assert Fresh(queue)[i] in Fresh(queue); }
    }

    /** For one direction without barriers the part still to be served stays in order, behind
        a head that has been shown to the driver. */
    method DispatchInOrder(rq: Rq)
      requires Valid(rq.write) && !rq.barrier && !rq.started && rq.nr > 0
      requires forall i :: 0 <= i < |Fresh(queue)| ==> Apart(Fresh(queue)[i], rq)
      modifies `queue
      ensures Valid(rq.write) && multiset(queue) == multiset(old(queue)) + multiset{rq}
      ensures old(queue) != [] && old(queue)[0].started ==> queue[0] == old(queue)[0]
    {
      ghost var before := queue;
      var p := DispatchSort(rq);
      InsertInOrder(before, endSector, rq.write, p, rq);
    }

    /** elv_next_request without a boundary request: the head is started, unless it already
        was, and the sweep goes on from its end. */
    method NextRequest(ghost write: bool) returns (head: Rq)
      requires Valid(write) && queue != []
      modifies this
      ensures Valid(write) && endSector == head.sector + head.nr
      ensures queue == Shown(old(queue)) && head == queue[0]
    {
      ServeInOrder(queue, endSector, write);
      if queue[0].started { ShownAgain(queue); } else { queue := Shown(queue); }
      head := queue[0];
      endSector := head.sector + head.nr;
    }

    /** elv_dequeue_request */
    method Dequeue(ghost write: bool)
      requires Valid(write) && queue != [] && queue[0].started
      modifies `queue
      ensures Valid(write) && queue == old(queue)[1..]
    {
      assert queue != [] && queue[0].started ==> Plain(queue[1..], write);
      assert |queue| > 1 ==> queue[1..][0] in queue[1..];
      queue := queue[1..];
    }
  }
}
