/**
 struct deadline_data and its operations, block/deadline-iosched.c.
 */
module Deadline {
  import opened Common
  import opened SortedList
  import opened DeadlineLane


  ghost predicate LInv(l: Lane, time: nat) {
    forall u {:trigger Open(u)} :: Open(u) ==> LaneOk(l) && Within(l.fifo, time)
  }

  predicate Queued(l: Lane, next: Option<nat>) {
    next.Some? ==> next.value in Sectors(l.fifo)
  }

  lemma LaneFacts(l: Lane, time: nat)
    requires LInv(l, time)
    ensures l.fifo != [] <==> l.sorted != []
    ensures l.fifo != [] ==> l.fifo[0].sector in Sectors(l.fifo)
  {
    assert Open(true);
    if l.fifo != [] { assert Sectors(l.fifo)[0] in Sectors(l.fifo); }
    if l.sorted != [] { assert Has(l.sorted, l.sorted[0].sector); }
  }

  lemma LaterInv(l: Lane, time: nat, later: nat)
    requires LInv(l, time) && time <= later
    ensures LInv(l, later)
  {
    assert Open(true);
  }

  /** The sector after the request of sector s. */
  function End(q: seq<Rq>, s: nat): nat {
    if Rank(q, s) < |q| then s + q[Rank(q, s)].nr else s
  }

  /** It is where the head is after that request. */
  lemma EndMeans(q: seq<Rq>, rq: Rq)
    requires Ascending(q) && rq in q
    ensures End(q, rq.sector) == rq.sector + rq.nr
  {
    RankOfRq(q, rq);
  }

  /** The lane and the candidate after deadline_move_request. */
  method Move(l: Lane, s: nat, ghost time: nat) returns (r: Lane, next: Option<nat>, last: nat)
    requires LInv(l, time) && s in Sectors(l.fifo)
    ensures LInv(r, time) && Queued(r, next) && |r.sorted| == |l.sorted| - 1
    ensures forall x :: x in Sectors(r.fifo) <==> x in Sectors(l.fifo) && x != s
    ensures next == Latter(l.sorted, s) && End(l.sorted, s) == last
  {
    assert Open(true);
    RemoveOk(l, s, time);
    RankOf(l.sorted, s);
    LatterHas(l.sorted, s);
    next := Latter(l.sorted, s);
    last := s + l.sorted[Rank(l.sorted, s)].nr;
    r := Remove(l, s);
  }

  method InsertInto(l: Lane, rq: Rq, expires: nat) returns (r: Lane)
    requires LInv(l, expires) && rq.sector !in Sectors(l.fifo)
    ensures LInv(r, expires) && r == Insert(l, rq, expires)
    ensures forall x :: x in Sectors(r.fifo) <==> x in Sectors(l.fifo) || x == rq.sector
  {
    assert Open(true);
    InsertOk(l, rq, expires);
    r := Insert(l, rq, expires);
  }

  /** deadline_merged_request for a front merge from s to t: the lane, the candidate and the
      head position; the last two change if a request that starts at t is dispatched. */
  ghost predicate Moved(l: Lane, s: nat, t: nat, before: Option<nat>, pos: nat, r: Lane, next: Option<nat>, last: nat) {
    forall u {:trigger Open(u)} ::
      Open(u) ==>
        t < s && r == FrontMerge(l, s, t) &&
        (forall x :: x in Sectors(r.fifo) <==> (x in Sectors(l.fifo) && x != s) || x == t) &&
        if t in Sectors(l.fifo) then next == Latter(Lift(l, s).sorted, t) && last == End(Lift(l, s).sorted, t)
        else next == (if before == Some(s) then Some(t) else before) && last == pos
  }

  method Reposition(l: Lane, s: nat, t: nat, before: Option<nat>, pos: nat, ghost time: nat)
    returns (r: Lane, alias: bool, next: Option<nat>, last: nat)
    requires LInv(l, time) && s in Sectors(l.fifo) && t < s && Queued(l, before)
    ensures LInv(r, time) && alias == (t in Sectors(l.fifo)) && Queued(r, next) &&
            Moved(l, s, t, before, pos, r, next, last)
    ensures !alias ==> (next.None? <==> before.None?)
  {
    assert Open(true);
    FrontMergeOk(l, s, t, time);
    r, alias := FrontMerge(l, s, t), t in Sectors(l.fifo);
    if alias {
      EvictedNext(l, s, t);
      next, last := Latter(Lift(l, s).sorted, t), End(Lift(l, s).sorted, t);
    } else {
      next, last := if before == Some(s) then Some(t) else before, pos;
    }
  }

  lemma GrowInv(l: Lane, s: nat, n: nat, time: nat)
    requires LInv(l, time)
    ensures LInv(Grow(l, s, n), time) && Grow(l, s, n).fifo == l.fifo
  {
    assert Open(true);
    GrowOk(l, s, n);
  }

  lemma MergeInv(l: Lane, s: nat, n: nat, t: nat, time: nat, next: Option<nat>)
    requires LInv(l, time) && s in Sectors(l.fifo) && t in Sectors(l.fifo) && s != t
    requires (Queued(l, next) && next != Some(t)) || next == Latter(l.sorted, t)
    ensures LInv(Absorb(Grow(l, s, n), s, t), time) && Queued(Absorb(Grow(l, s, n), s, t), next)
  {
    assert Open(true);
    GrowOk(l, s, n);
    AbsorbOk(Grow(l, s, n), s, t, time);
    LatterHas(l.sorted, t);
  }

  /** Some request of the fifo has expired. */
  predicate Expired(f: seq<Entry>, now: nat) {
    exists i :: 0 <= i < |f| && f[i].expires < now
  }

  function Max(a: int, b: int): int {
    if a >= b then a else b
  }

  /** The reads that may still leave before a write: the rest of the batch, and a batch for
      every time that reads may still be preferred. */
  function Credit(batch: nat, limit: nat, batching: nat, starved: nat): nat {
    Max(0, batch - batching) + Max(0, limit - starved) * Max(1, batch)
  }

  function Bound(batch: nat, limit: nat): nat {
    batch + limit * Max(1, batch)
  }

  lemma Times(a: nat, b: nat, m: nat)
    requires a <= b
    ensures a * m <= b * m
  {
  }

  lemma CreditBounded(batch: nat, limit: nat, batching: nat, starved: nat)
    ensures Credit(batch, limit, batching, starved) <= Bound(batch, limit)
  {
    Times(Max(0, limit - starved), limit, Max(1, batch));
  }

  /** Going on with a batch uses one credit, a new batch of reads uses a whole batch of it. */
  lemma CreditUsed(batch: nat, limit: nat, batching: nat, starved: nat)
    ensures batching < batch ==>
            Credit(batch, limit, batching + 1, starved) + 1 <= Credit(batch, limit, batching, starved)
    ensures starved < limit ==> Credit(batch, limit, 1, starved + 1) + 1 <= Credit(batch, limit, batching, starved)
  {
    if starved < limit {
      assert (limit - starved) * Max(1, batch) == (limit - starved - 1) * Max(1, batch) + Max(1, batch);
    }
  }

  class DeadlineData {
    var readLane: Lane
    var writeLane: Lane
    var nextRead: Option<nat>
    var nextWrite: Option<nat>
    var batching: nat
    var lastSector: nat
    var starved: nat
    /** jiffies */
    var now: nat
    const fifoBatch: nat
    const writesStarved: nat
    const readExpire: nat
    const writeExpire: nat
    /** Reads that were dispatched since a write was dispatched or none was pending. */
    ghost var waited: nat

    function On(write: bool): Lane
      reads this
    {
      if write then writeLane else readLane
    }

    function Next(write: bool): Option<nat>
      reads this
    {
      if write then nextWrite else nextRead
    }

    ghost predicate Lanes()
      reads this
    {
      LInv(readLane, now + readExpire) && LInv(writeLane, now + writeExpire)
    }

    /** At most one candidate, and it is queued. */
    ghost predicate Candidates()
      reads this
    {
      (nextRead.None? || nextWrite.None?) && Queued(readLane, nextRead) && Queued(writeLane, nextWrite)
    }

    ghost predicate Fair()
      reads this
    {
      waited + Credit(fifoBatch, writesStarved, batching, starved) <= Bound(fifoBatch, writesStarved)
    }

    ghost predicate Valid()
      reads this
    {
      Lanes() && Candidates() && Fair()
    }

    constructor (fifoBatch: nat, writesStarved: nat, readExpire: nat, writeExpire: nat)
      ensures Valid() && waited == 0
      ensures this.fifoBatch == fifoBatch && this.writesStarved == writesStarved
    {
      this.fifoBatch, this.writesStarved := fifoBatch, writesStarved;
      this.readExpire, this.writeExpire := readExpire, writeExpire;
      readLane, writeLane, nextRead, nextWrite := Lane([], []), Lane([], []), None, None;
      batching, lastSector, starved, now, waited := 0, 0, 0, 0, 0;
      CreditBounded(fifoBatch, writesStarved, 0, 0);
    }

    /** While a write is pending, no more reads than this are dispatched before one. */
    lemma WriteStarvationBound()
      requires Valid()
      ensures waited <= fifoBatch + writesStarved * Max(1, fifoBatch)
    {
    }

    /** Each direction's tree and fifo hold the same requests and the fifo is in deadline order. */
    lemma IndexesAgree(write: bool)
      requires Valid()
      ensures forall s :: s in Sectors(On(write).fifo) <==> Has(On(write).sorted, s)
      ensures ByExpiry(On(write).fifo) && Distinct(Sectors(On(write).fifo))
      ensures nextRead.None? || nextWrite.None?
      ensures Next(write).Some? ==> Has(On(write).sorted, Next(write).value)
    {
      assert Open(true);
    }

    method Tick(later: nat)
      requires Valid() && now <= later
      modifies `now
      ensures Valid() && now == later
    {
      LaterInv(readLane, now + readExpire, later + readExpire);
      LaterInv(writeLane, now + writeExpire, later + writeExpire);
      now := later;
    }

    /** deadline_move_request */
    method MoveRequest(write: bool, s: nat)
      requires Lanes() && s in Sectors(On(write).fifo)
      modifies `readLane, `writeLane, `nextRead, `nextWrite, `lastSector
      ensures Lanes() && Candidates() && Next(!write).None? && Next(write) == Latter(old(On(write)).sorted, s)
      ensures lastSector == End(old(On(write)).sorted, s)
      ensures On(!write) == old(On(!write)) && |On(write).sorted| == |old(On(write)).sorted| - 1
      ensures forall x :: x in Sectors(On(write).fifo) <==> x in Sectors(old(On(write)).fifo) && x != s
    {
      nextRead, nextWrite := None, None;
      if write {
        writeLane, nextWrite, lastSector := Move(writeLane, s, now + writeExpire);
      } else {
        readLane, nextRead, lastSector := Move(readLane, s, now + readExpire);
      }
    }

    /** deadline_add_request: requests that start at the same sector are dispatched first. */
    method AddRequest(write: bool, rq: Rq)
      requires Valid()
      modifies this
      ensures Valid() && On(!write) == old(On(!write)) && waited == old(waited) && now == old(now)
      ensures forall x :: x in Sectors(On(write).fifo) <==> x in Sectors(old(On(write)).fifo) || x == rq.sector
      ensures var f := On(write).fifo;
              f != [] && f[|f| - 1] == Entry(rq.sector, now + if write then writeExpire else readExpire)
    {
      ghost var before := Sectors(On(write).fifo);
      while rq.sector in Sectors(On(write).fifo)
        invariant Valid() && On(!write) == old(On(!write)) && waited == old(waited) && now == old(now)
        invariant forall x :: x != rq.sector ==> (x in Sectors(On(write).fifo) <==> x in before)
        decreases |On(write).sorted|
      {
        MoveRequest(write, rq.sector);
      }
      if write {
        writeLane := InsertInto(writeLane, rq, now + writeExpire);
      } else {
        readLane := InsertInto(readLane, rq, now + readExpire);
      }
    }

    /** The time by which every queued request of a direction expires. */
    function Horizon(write: bool): nat
      reads this
    {
      now + if write then writeExpire else readExpire
    }

    method SetLane(write: bool, l: Lane, next: Option<nat>, other: Option<nat>, last: nat)
      requires Lanes() && LInv(l, Horizon(write)) && Queued(l, next) && Queued(On(!write), other)
      requires next.None? || other.None?
      modifies `readLane, `writeLane, `nextRead, `nextWrite, `lastSector
      ensures Lanes() && Candidates() && lastSector == last
      ensures On(write) == l && On(!write) == old(On(!write)) && Next(write) == next && Next(!write) == other
    {
      if write {
        writeLane, nextWrite, nextRead := l, next, other;
      } else {
        readLane, nextRead, nextWrite := l, next, other;
      }
      lastSector := last;
    }

    /** deadline_merged_request for a front merge. */
    method FrontMerged(write: bool, s: nat, t: nat) returns (alias: bool)
      requires Valid() && s in Sectors(On(write).fifo) && t < s
      modifies `readLane, `writeLane, `nextRead, `nextWrite, `lastSector
      ensures alias == (t in Sectors(old(On(write)).fifo))
      ensures Valid() && On(!write) == old(On(!write)) && Next(!write) == if alias then None else old(Next(!write))
      ensures Moved(old(On(write)), s, t, old(Next(write)), old(lastSector), On(write), Next(write), lastSector)
    {
      var l, next, last;
      l, alias, next, last := Reposition(On(write), s, t, Next(write), lastSector, Horizon(write));
      SetLane(write, l, next, if alias then None else Next(!write), last);
    }

    /** A back merge: the request of sector s grows to n sectors. */
    method BackMerged(write: bool, s: nat, n: nat)
      requires Valid() && s in Sectors(On(write).fifo)
      modifies `readLane, `writeLane, `nextRead, `nextWrite, `lastSector
      ensures Valid() && On(!write) == old(On(!write)) && On(write) == Grow(old(On(write)), s, n)
      ensures lastSector == old(lastSector)
      ensures nextRead == old(nextRead) && nextWrite == old(nextWrite)
    {
      var l := On(write);
      var r := Grow(l, s, n);
      GrowInv(l, s, n, Horizon(write));
      SetLane(write, r, Next(write), Next(!write), lastSector);
    }

    /** deadline_merged_requests, after attempt_merge has grown the surviving request to n
        sectors. */
    method MergedRequests(write: bool, s: nat, n: nat, t: nat)
      requires Valid() && s in Sectors(On(write).fifo) && t in Sectors(On(write).fifo) && s != t
      modifies `readLane, `writeLane, `nextRead, `nextWrite, `lastSector
      ensures lastSector == old(lastSector)
      ensures Valid() && On(!write) == old(On(!write)) && On(write) == Absorb(Grow(old(On(write)), s, n), s, t)
      ensures Next(write) == if old(Next(write)) == Some(t) then Latter(old(On(write)).sorted, t) else old(Next(write))
      ensures Next(!write) == old(Next(!write))
    {
      var l := Grow(On(write), s, n);
      var r := Absorb(l, s, t);
      var next := if Next(write) == Some(t) then Latter(On(write).sorted, t) else Next(write);
      MergeInv(On(write), s, n, t, Horizon(write), next);
      SetLane(write, r, next, Next(!write), lastSector);
    }

    /** deadline_check_fifo: the answer for the oldest request is right for all. */
    method CheckFifo(write: bool) returns (expired: bool)
      requires Lanes() && On(write).fifo != []
      ensures expired == Expired(On(write).fifo, now)
      ensures expired <==> exists i :: 0 <= i < |On(write).fifo| && On(write).fifo[i].expires < now
    {
      expired := now > On(write).fifo[0].expires;
      assert Open(true);
      if !expired { HeadExpiresFirst(On(write).fifo, now); }
    }

    /** The middle of deadline_dispatch_requests: pick a direction and start a batch. */
    method StartBatch() returns (write: bool, rq: nat)
      requires Lanes() && Candidates() && Fair() && (readLane.fifo != [] || writeLane.fifo != [])
      modifies `batching, `starved, `waited
      ensures write == (readLane.fifo == [] || (writeLane.fifo != [] && old(starved) >= writesStarved))
      ensures On(write).fifo != [] && rq in Sectors(On(write).fifo)
      ensures rq == if Next(write).None? || Expired(On(write).fifo, now) then On(write).fifo[0].sector
                    else Next(write).value
      ensures batching == 1
      ensures starved == if write then 0 else if writeLane.fifo != [] then old(starved) + 1 else old(starved)
      ensures Fair() && waited == if write || writeLane.fifo == [] then 0 else old(waited) + 1
    {
      LaneFacts(readLane, now + readExpire);
      LaneFacts(writeLane, now + writeExpire);
      CreditUsed(fifoBatch, writesStarved, batching, starved);
      var someReads, someWrites := readLane.fifo != [], writeLane.fifo != [];
      if someReads && !(someWrites && starved >= writesStarved) {
        write := false;
        if someWrites { starved := starved + 1; }
        waited := if someWrites then waited + 1 else 0;
      } else {
        write, starved, waited := true, 0, 0;
      }
      var expired := CheckFifo(write);
      rq := if expired || Next(write).None? then On(write).fifo[0].sector else Next(write).value;
      batching := 1;
      CreditBounded(fifoBatch, writesStarved, 1, starved);
    }

    /** The first half of deadline_dispatch_requests: go on with the batch or start one. */
    method Select() returns (go: bool, write: bool, rq: nat)
      requires Valid()
      modifies `batching, `starved, `waited
      ensures go == (readLane.fifo != [] || writeLane.fifo != []) && Fair()
      ensures go ==> On(write).fifo != [] && rq in Sectors(On(write).fifo) &&
                     (Next(write) == Some(rq) || On(write).fifo[0].sector == rq)
      ensures var next := Next(nextWrite.Some?);
              next.Some? && lastSector == next.value && old(batching) < fifoBatch ==>
                write == nextWrite.Some? && rq == next.value && batching == old(batching) + 1 && starved == old(starved)
      ensures var next := Next(nextWrite.Some?);
              go && !(next.Some? && lastSector == next.value && old(batching) < fifoBatch) ==>
                batching == 1 &&
                write == (readLane.fifo == [] || (writeLane.fifo != [] && old(starved) >= writesStarved)) &&
                rq == (if Next(write).None? || Expired(On(write).fifo, now) then On(write).fifo[0].sector
                       else Next(write).value) &&
                starved == if write then 0 else if writeLane.fifo != [] then old(starved) + 1 else old(starved)
      ensures waited == if !go then old(waited) else if write || writeLane.fifo == [] then 0 else old(waited) + 1
    {
      CreditUsed(fifoBatch, writesStarved, batching, starved);
      write := nextWrite.Some?;
      var candidate := Next(write);
      if candidate.Some? {
        assert On(write).fifo != [];
        if lastSector != candidate.value { batching := batching + fifoBatch; }
        if batching < fifoBatch {
          batching := batching + 1;
          waited := if write || writeLane.fifo == [] then 0 else waited + 1;
          CreditBounded(fifoBatch, writesStarved, batching, starved);
          return true, write, candidate.value;
        }
      }
      go := readLane.fifo != [] || writeLane.fifo != [];
      rq := 0;
      if go { write, rq := StartBatch(); }
    }

    /** deadline_dispatch_requests: dispatches a request whenever there is one. */
    method DispatchRequests() returns (r: bool, write: bool, s: nat)
      requires Valid()
      modifies this
      ensures Valid() && now == old(now) && r == (old(readLane.fifo) != [] || old(writeLane.fifo) != [])
      ensures !r ==> readLane == old(readLane) && writeLane == old(writeLane)
      ensures r ==> On(!write) == if write then old(readLane) else old(writeLane)
      ensures r ==> var l := if write then old(writeLane) else old(readLane);
                    s in Sectors(l.fifo) && |On(write).sorted| == |l.sorted| - 1 &&
                    forall x :: x in Sectors(On(write).fifo) <==> x in Sectors(l.fifo) && x != s
      ensures r && write ==> waited == 0
      ensures r && !write ==> waited == if old(writeLane.fifo) != [] then old(waited) + 1 else 0
    {
      r, write, s := Select();
      if r { MoveRequest(write, s); }
    }
  }
}
