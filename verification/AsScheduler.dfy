/**
 as_data and its operations, block/as-iosched.c.  Clocks and the heuristics that judge
 whether to keep waiting are inputs; everything else is the state of the scheduler.
 */
module AsScheduler {
  import opened Common
  import opened SortedList
  import opened AsCache

  datatype Antic = Off | WaitReq | WaitNext | Finished

  /** A request between dispatch and completion: AS_RQ_DISPATCHED, or AS_RQ_REMOVED once
      the driver has it. */
  datatype Out = Out(sync: bool, ioc: nat, removed: bool)

  /** What clocks and statistics answer during one dispatch. */
  datatype Hints = Hints(batchLate: bool, fifoLateFirst: bool, fifoLate: bool, anticipates: bool, breaks: bool)

  datatype Choice = Stop | Take(rq: nat) | Expired | Switch

  predicate Waiting(a: Antic) {
    a.WaitReq? || a.WaitNext?
  }

  /** Every request that is out has the direction d. */
  predicate AllOf(out: seq<Out>, d: bool) {
    forall i :: 0 <= i < |out| ==> out[i].sync == d
  }

  /** One request completes. */
  ghost function DropOut(out: seq<Out>, k: nat): (r: seq<Out>)
    requires k < |out|
    ensures |r| == |out| - 1 && forall d :: AllOf(out, d) ==> AllOf(r, d)
  {
    out[..k] + out[k + 1..]
  }


  /** Tree and fifo agree; if the cache is known to be sound, it is optimal. */
  ghost predicate LaneInv(l: Lane, sound: bool) {
    forall u {:trigger Open(u)} :: Open(u) ==> LaneOk(l) && (sound ==> CacheOk(l))
  }

  lemma Queued(l: Lane, sound: bool, s: nat)
    requires LaneInv(l, sound) && s in l.fifo
    ensures Rank(l.sorted, s) < |l.sorted| && l.sorted[Rank(l.sorted, s)].sector == s
  {
    assert Open(true);
    RankOf(l.sorted, s);
  }

  lemma NextQueued(l: Lane, sound: bool)
    requires LaneInv(l, sound)
    ensures l.next.Some? ==> l.next.value in l.fifo
    ensures l.fifo != [] <==> l.sorted != []
    ensures sound ==> !Lost(l)
  {
    assert Open(true);
    assert l.fifo != [] ==> l.fifo[0] in l.fifo;
    assert l.sorted != [] ==> Has(l.sorted, l.sorted[0].sector);
  }

  lemma DispatchInv(l: Lane, sound: bool, s: nat)
    requires LaneInv(l, sound) && s in l.fifo
    ensures LaneInv(Dispatch(l, s), Sees(l, s)) && !Lost(Dispatch(l, s))
  {
    assert Open(true);
    assert Has(l.sorted, s);
    DispatchOk(l, s);
    DispatchFinds(l, s);
    DispatchCache(l, s);
  }

  lemma DispatchShrinks(l: Lane, sound: bool, s: nat)
    requires LaneInv(l, sound) && s in l.fifo
    ensures Dispatch(l, s).fifo == Drop(l.fifo, s) && |Dispatch(l, s).sorted| < |l.sorted|
  {
    Queued(l, sound, s);
  }

  lemma ApartSound(l: Lane, sound: bool, s: nat)
    requires LaneInv(l, sound) && s in l.fifo && Apart(l.sorted)
    ensures Sees(l, s)
  {
    assert Open(true);
    ApartSeen(l, s);
  }

  /** The lane after the dispatch of s; folded like the invariant. */
  ghost predicate Dispatched(l: Lane, s: nat, after: Lane) {
    forall u {:trigger Open(u)} :: Open(u) ==> after == Dispatch(l, s)
  }

  /** Whether the cache is optimal then. */
  ghost predicate Optimal(l: Lane, s: nat, sound: bool) {
    forall u {:trigger Open(u)} :: Open(u) ==> sound == Sees(l, s) && (Apart(l.sorted) ==> sound)
  }

  function Context(l: Lane, s: nat): nat {
    var i := Rank(l.sorted, s);
    if i < |l.sorted| then l.sorted[i].ioc else 0
  }

  method DispatchLane(l: Lane, s: nat, ghost before: bool) returns (after: Lane, ioc: nat, ghost sound: bool)
    requires LaneInv(l, before) && s in l.fifo
    ensures LaneInv(after, sound) && Dispatched(l, s, after) && Optimal(l, s, sound) && ioc == Context(l, s)
    ensures |after.sorted| < |l.sorted| && s !in after.fifo && !Lost(after)
  {
    Queued(l, before, s);
    DispatchInv(l, before, s);
    DispatchShrinks(l, before, s);
    if Apart(l.sorted) { ApartSound(l, before, s); }
    after, ioc, sound := Dispatch(l, s), l.sorted[Rank(l.sorted, s)].ioc, Sees(l, s);
  }

  /** The lane after as_add_request: an alias is dispatched, then the request inserted. */
  ghost predicate Added(l: Lane, rq: Rq, after: Lane) {
    forall u {:trigger Open(u)} ::
      Open(u) ==> after == Insert(if rq.sector in l.fifo then Dispatch(l, rq.sector) else l, rq)
  }

  method InsertLane(l: Lane, rq: Rq, ghost before: Lane, ghost sound: bool) returns (after: Lane)
    requires LaneInv(l, sound) && rq.sector !in l.fifo
    requires if rq.sector in before.fifo then Dispatched(before, rq.sector, l) else l == before
    ensures LaneInv(after, sound) && Added(before, rq, after) && rq.sector in after.fifo && after.next.Some?
  {
    InsertInv(l, sound, rq);
    after := Insert(l, rq);
    assert Added(before, rq, after) by { assert Open(true); }
  }

  lemma InsertInv(l: Lane, sound: bool, rq: Rq)
    requires LaneInv(l, sound) && rq.sector !in l.fifo
    ensures LaneInv(Insert(l, rq), sound)
  {
    assert Open(true);
    InsertOk(l, rq);
    if sound { InsertCache(l, rq); }
  }

  lemma GrowInv(l: Lane, sound: bool, s: nat, n: nat)
    requires LaneInv(l, sound) && s in l.fifo
    ensures LaneInv(Grow(l, s, n), sound)
  {
    assert Open(true);
    assert Has(l.sorted, s);
    GrowOk(l, s, n);
  }

  /** attempt_merge has grown the first request when the second is removed. */
  function Merge(l: Lane, s: nat, n: nat, t: nat, earlier: bool): Lane {
    Absorb(Grow(l, s, n), s, t, earlier)
  }

  lemma MergeInv(l: Lane, sound: bool, s: nat, n: nat, t: nat, earlier: bool)
    requires LaneInv(l, sound) && s in l.fifo && t in l.fifo && s != t
    ensures LaneInv(Merge(l, s, n, t, earlier), sound) && !Lost(Merge(l, s, n, t, earlier))
  {
    assert Open(true);
    assert Has(l.sorted, s) && Has(l.sorted, t);
    GrowOk(l, s, n);
    AbsorbOk(Grow(l, s, n), s, t, earlier);
    AbsorbFinds(Grow(l, s, n), s, t, earlier);
  }

  /** The lane after a front merge, and what is known of its cache. */
  ghost predicate Repositioned(l: Lane, s: nat, t: nat, after: Lane, sound: bool) {
    forall u {:trigger Open(u)} :: Open(u) ==> t < s && after == FrontMerge(l, s, t) && sound == Survives(l, s, t)
  }

  lemma FrontInv(l: Lane, sound: bool, s: nat, t: nat)
    requires LaneInv(l, sound) && s in l.fifo && t < s
    ensures LaneInv(FrontMerge(l, s, t), Survives(l, s, t))
    ensures Lost(FrontMerge(l, s, t)) <==> if t in l.fifo then |l.sorted| == 2 else Lost(l)
  {
    assert Open(true);
    assert Has(l.sorted, s) && (t in l.fifo <==> Has(l.sorted, t));
    FrontMergeOk(l, s, t);
    FrontMergeCache(l, s, t);
  }

  method FrontLane(l: Lane, s: nat, t: nat, ghost before: bool)
    returns (after: Lane, alias: bool, ioc: nat, ghost sound: bool)
    requires LaneInv(l, before) && s in l.fifo && t < s
    ensures LaneInv(after, sound) && Repositioned(l, s, t, after, sound)
    ensures alias == (t in l.fifo) && ioc == Context(l, t)
    ensures Lost(after) <==> if alias then |l.sorted| == 2 else Lost(l)
  {
    FrontInv(l, before, s, t);
    after, alias, ioc := FrontMerge(l, s, t), t in l.fifo, Context(l, t);
    sound := Survives(l, s, t);
  }

  lemma EmptyInv()
    ensures LaneInv(Lane([], [], None, 0), true)
  {
  }

  class AsData {
    var syncLane: Lane
    var asyncLane: Lane
    var batchSync: bool
    var changedBatch: bool
    var newBatch: bool
    var writeBatchCount: nat
    var currentWriteCount: nat
    var writeBatchIdled: bool
    var antic: Antic
    var ioContext: nat
    var iocFinished: bool
    var nrDispatched: int
    ghost var out: seq<Out>
    /** Set for good by an alias eviction or a forced drain. */
    ghost var mixed: bool
    /** Set for good by a front merge onto the start of the only other request. */
    ghost var forgot: bool
    /** The cache is known to be optimal: every dispatch and every front merge settles it. */
    ghost var soundSync: bool
    ghost var soundAsync: bool
    /** Writes that as_dispatch_request has sent since the batch began or no read was queued. */
    ghost var waited: nat

    function On(sync: bool): Lane
      reads this
    {
      if sync then syncLane else asyncLane
    }

    ghost function Sound(sync: bool): bool
      reads this
    {
      if sync then soundSync else soundAsync
    }

    ghost predicate Lanes()
      reads this
    {
      LaneInv(syncLane, soundSync) && LaneInv(asyncLane, soundAsync)
    }

    ghost predicate Found()
      reads this
    {
      !forgot ==> !Lost(syncLane) && !Lost(asyncLane)
    }

    /** The counts and flags; `out` may be empty in the middle of a batch change. */
    ghost predicate Accounts()
      reads this
    {
      nrDispatched == |out| && (newBatch ==> batchSync && !changedBatch) &&
      (!mixed ==> AllOf(out, batchSync != changedBatch)) && (Waiting(antic) ==> ioContext != 0)
    }

    /** A write batch pays with its count for the writes that reads have waited for. */
    ghost predicate Fair()
      reads this
    {
      writeBatchCount >= 1 && (!batchSync ==> waited + currentWriteCount <= writeBatchCount)
    }

    ghost predicate Valid()
      reads this
    {
      Lanes() && Accounts() && (changedBatch ==> nrDispatched > 0) && Found() && Fair()
    }

    /** as_init_queue */
    constructor (writeBatchExpire: nat)
      ensures Valid() && !mixed && !forgot && soundSync && soundAsync && out == [] && waited == 0
      ensures syncLane == asyncLane == Lane([], [], None, 0) && !batchSync && !changedBatch && !newBatch
      ensures writeBatchCount >= 2 && currentWriteCount == 0 && antic == Off && ioContext == 0
    {
      var empty := Lane([], [], None, 0);
      syncLane, asyncLane := empty, empty;
      batchSync, changedBatch, newBatch := false, false, false;
      writeBatchCount := if writeBatchExpire / 10 < 2 then 2 else writeBatchExpire / 10;
      currentWriteCount, writeBatchIdled := 0, false;
      antic, ioContext, iocFinished, nrDispatched := Off, 0, false, 0;
      out, mixed, forgot, soundSync, soundAsync, waited := [], false, false, true, true, 0;
      EmptyInv();
    }

    /** In a run without aliases and forced drains directions never mix, and a batch switch
        waits for the last request of the old batch. */
    lemma NeverMixes()
      requires Valid() && !mixed
      ensures forall i, j :: 0 <= i < |out| && 0 <= j < |out| ==> out[i].sync == out[j].sync
      ensures out != [] ==> out[0].sync == (batchSync != changedBatch)
    {
    }

    /** In every run, next_rq is the request that as_choose_req prefers to every other one of
        its direction, from any dispatch that sees the best, or front merge that it survives, to
        the next one of these that does not. */
    lemma CacheIsOptimal(sync: bool)
      requires Valid() && Sound(sync)
      ensures IsBest(On(sync).last, On(sync).sorted, On(sync).next)
    {
      assert Open(true);
    }

    /** In every run, tree and fifo of a direction hold the same requests and the cache is one
        of them; it is empty exactly if they are, unless it has forgotten a lone request. */
    lemma IndexesAgree(sync: bool)
      requires Valid()
      ensures forall s :: s in On(sync).fifo <==> Has(On(sync).sorted, s)
      ensures On(sync).next.Some? ==> Has(On(sync).sorted, On(sync).next.value)
      ensures On(sync).next.None? ==> |On(sync).sorted| <= 1
      ensures !forgot ==> (On(sync).next.None? <==> On(sync).sorted == [])
    {
      assert Open(true);
    }

    /** In every run, while a read is queued no write batch sends more writes than its count. */
    lemma WriteBatchBound()
      requires Valid() && !batchSync
      ensures waited <= writeBatchCount
    {
    }

    // ----- when as_dispatch_request does what -----

    /** There is nothing to do, or something to wait for. */
    predicate Blocked()
      reads this
    {
      (syncLane.fifo == [] && asyncLane.fifo == []) || Waiting(antic) || changedBatch
    }

    /** The batch has used up its time or its writes while the other direction waits. */
    predicate BatchOver(h: Hints)
      reads this
    {
      && syncLane.fifo != [] && asyncLane.fifo != [] && !newBatch
      && (h.batchLate || (!batchSync && currentWriteCount == 0))
    }

    function Plan(h: Hints): Choice
      reads this
    {
      if BatchOver(h) then Switch
      else if batchSync && h.anticipates && syncLane.fifo != [] && h.fifoLateFirst then Expired
      else if batchSync && h.anticipates && ioContext != 0 && !antic.Finished? && !h.breaks then Stop
      else if On(batchSync).next.Some? then Take(On(batchSync).next.value) else Switch
    }

    /** What the plan means: a batch that is over always ends; reads are waited for only if they
        may be waited for and none is overdue; a batch that is not over ends only if its
        direction has no candidate. */
    lemma PlanMeans(h: Hints)
      requires !Blocked()
      ensures syncLane.fifo != [] && asyncLane.fifo != [] && !newBatch && h.batchLate ==> Plan(h) == Switch
      ensures syncLane.fifo != [] && asyncLane.fifo != [] && !batchSync && !newBatch && currentWriteCount == 0 ==>
                Plan(h) == Switch
      ensures Plan(h).Stop? <==> batchSync && h.anticipates && ioContext != 0 && antic == Off && !h.breaks &&
                                 !(syncLane.fifo != [] && h.fifoLateFirst) &&
                                 !(syncLane.fifo != [] && asyncLane.fifo != [] && !newBatch && h.batchLate)
      ensures Plan(h).Expired? ==> batchSync && syncLane.fifo != [] && h.fifoLateFirst
      ensures Plan(h).Take? ==> On(batchSync).next == Some(Plan(h).rq)
      ensures Plan(h).Switch? ==> On(batchSync).next.None? ||
                                  (syncLane.fifo != [] && asyncLane.fifo != [] && !newBatch &&
                                   (h.batchLate || (!batchSync && currentWriteCount == 0)))
    {
    }

    // ----- anticipation -----

    method AnticWaitNext()
      requires antic.Off? || antic.WaitReq?
      modifies `antic
      ensures antic == WaitNext
    {
      antic := WaitNext;
    }

    method AnticWaitReq()
      requires !antic.Finished?
      modifies `antic
      ensures antic == if !old(antic).Off? then old(antic)
                       else if ioContext == 0 || iocFinished then WaitNext else WaitReq
    {
      if antic.Off? {
        if ioContext == 0 || iocFinished { AnticWaitNext(); } else { antic := WaitReq; }
      }
    }

    method AnticStop()
      modifies `antic
      ensures antic == if Waiting(old(antic)) then Finished else old(antic)
    {
      if Waiting(antic) { antic := Finished; }
    }

    /** The timer fires; it reads the context that is being waited for. */
    method AnticTimeout()
      requires Valid()
      modifies `antic
      ensures Valid() && !Waiting(antic)
    {
      if Waiting(antic) {
        assert ioContext != 0;
        antic := Finished;
      }
    }

    // ----- dispatch -----

    method SetLane(sync: bool, l: Lane, ghost sound: bool)
      requires Lanes() && LaneInv(l, sound)
      modifies `syncLane, `asyncLane, `soundSync, `soundAsync
      ensures Lanes() && (old(Found()) && (!forgot ==> !Lost(l)) ==> Found())
      ensures On(sync) == l && On(!sync) == old(On(!sync))
      ensures Sound(sync) == sound && Sound(!sync) == old(Sound(!sync))
    {
      if sync { syncLane, soundSync := l, sound; } else { asyncLane, soundAsync := l, sound; }
    }

    /** as_move_to_dispatch */
    method MoveToDispatch(sync: bool, s: nat)
      requires Lanes() && s in On(sync).fifo
      modifies `syncLane, `asyncLane, `soundSync, `soundAsync, `antic, `ioContext, `iocFinished, `currentWriteCount,
               `nrDispatched, `out
      ensures Lanes() && Dispatched(old(On(sync)), s, On(sync)) && On(!sync) == old(On(!sync))
      ensures |On(sync).sorted| < |old(On(sync)).sorted| && s !in On(sync).fifo
      ensures Optimal(old(On(sync)), s, Sound(sync)) && Sound(!sync) == old(Sound(!sync)) && !Lost(On(sync))
      ensures antic == Off && nrDispatched == old(nrDispatched) + 1
      ensures out == old(out) + [Out(sync, Context(old(On(sync)), s), false)]
      ensures !iocFinished
      ensures var ioc := Context(old(On(sync)), s);
              ioContext == if !sync then 0 else if ioc != 0 then ioc else old(ioContext)
      ensures currentWriteCount == if sync || old(currentWriteCount) == 0 then old(currentWriteCount)
                                   else old(currentWriteCount) - 1
    {
      ghost var sound;
      var l, ioc;
      l, ioc, sound := DispatchLane(On(sync), s, Sound(sync));
      SetLane(sync, l, sound);
      NoteDispatch(sync, ioc);
    }

    /** The part of as_move_to_dispatch that does not concern the lane. */
    method NoteDispatch(sync: bool, ioc: nat)
      modifies `antic, `ioContext, `iocFinished, `currentWriteCount, `nrDispatched, `out
      ensures antic == Off && nrDispatched == old(nrDispatched) + 1 && !iocFinished
      ensures out == old(out) + [Out(sync, ioc, false)]
      ensures ioContext == if !sync then 0 else if ioc != 0 then ioc else old(ioContext)
      ensures currentWriteCount == if sync || old(currentWriteCount) == 0 then old(currentWriteCount)
                                   else old(currentWriteCount) - 1
    {
      AnticStop();
      antic := Off;
      if sync {
        if ioc != 0 { ioContext := ioc; }
      } else {
        ioContext := 0;
        if currentWriteCount != 0 { currentWriteCount := currentWriteCount - 1; }
      }
      iocFinished := false;
      out := out + [Out(sync, ioc, false)];
      nrDispatched := nrDispatched + 1;
    }

    /** A request may have to leave because another one starts at its sector; `lone` says that
        there is no third one. */
    method NoteAlias(alias: bool, lone: bool, sync: bool, ioc: nat)
      requires Accounts() && (changedBatch ==> nrDispatched > 0)
      modifies `antic, `ioContext, `iocFinished, `currentWriteCount, `nrDispatched, `out, `mixed, `forgot
      ensures Accounts() && (changedBatch ==> nrDispatched > 0)
      ensures mixed == (old(mixed) || alias) && forgot == (old(forgot) || (alias && lone))
      ensures currentWriteCount <= old(currentWriteCount)
      ensures alias ==> antic == Off && out == old(out) + [Out(sync, ioc, false)]
      ensures !alias ==> antic == old(antic) && out == old(out)
    {
      if alias {
        mixed, forgot := true, forgot || lone;
        NoteDispatch(sync, ioc);
        AnticStop();
      }
    }

    /** The part of as_dispatch_request that decides between the running batch, waiting for
        a better request, an expired one and a new batch. */
    method Candidate(h: Hints) returns (c: Choice)
      requires Valid() && !Blocked()
      modifies `antic
      ensures Valid()
      ensures c == old(Plan(h)) && (!c.Stop? ==> !Blocked())
      ensures c.Take? ==> On(batchSync).next == Some(c.rq)
      ensures c.Expired? ==> batchSync && syncLane.fifo != []
      ensures c.Take? || c.Expired? ==> MayWrite(true)
      ensures antic == if !c.Stop? then old(antic) else if iocFinished then WaitNext else WaitReq
    {
      NextQueued(On(batchSync), Sound(batchSync));
      var someReads, someWrites := syncLane.fifo != [], asyncLane.fifo != [];
      var expired := !newBatch && (h.batchLate || (!batchSync && currentWriteCount == 0));
      if someReads && someWrites && expired { return Switch; }
      if batchSync && h.anticipates {
        if someReads && h.fifoLateFirst { return Expired; }
        if ioContext != 0 && !antic.Finished? && !h.breaks {
          AnticWaitReq();
          return Stop;
        }
      }
      var rq := On(batchSync).next;
      c := if rq.Some? then Take(rq.value) else Switch;
    }

    /** The part that is not running a batch: pick a direction and its oldest request. */
    method SwitchBatch() returns (rq: nat)
      requires Valid() && !changedBatch && (syncLane.fifo != [] || asyncLane.fifo != [])
      modifies `batchSync, `changedBatch, `newBatch, `currentWriteCount, `writeBatchIdled, `waited
      ensures Lanes() && Accounts() && Found() && Fair() && On(batchSync).fifo != [] && rq == On(batchSync).fifo[0]
      ensures waited == 0
      ensures changedBatch == (batchSync != old(batchSync))
      ensures batchSync == (syncLane.fifo != [] && !(asyncLane.fifo != [] && old(batchSync)))
      ensures !batchSync ==> currentWriteCount == writeBatchCount && !writeBatchIdled
      ensures batchSync ==> currentWriteCount == old(currentWriteCount)
    {
      NextQueued(syncLane, soundSync);
      NextQueued(asyncLane, soundAsync);
      waited := 0;
      if syncLane.fifo != [] && !(asyncLane.fifo != [] && batchSync) {
        assert syncLane.sorted != [];
        if !batchSync {
          assert !newBatch;
          changedBatch := true;
        }
        batchSync := true;
        rq := syncLane.fifo[0];
      } else {
        assert asyncLane.sorted != [];
        if batchSync {
          changedBatch := true;
          newBatch := false;
        }
        batchSync := false;
        currentWriteCount := writeBatchCount;
        writeBatchIdled := false;
        rq := asyncLane.fifo[0];
      }
    }

    /** as_dispatch_request up to the choice of a request. */
    method Select(h: Hints) returns (go: bool, rq: nat)
      requires Valid()
      modifies `antic, `batchSync, `changedBatch, `newBatch, `currentWriteCount, `writeBatchIdled, `waited
      ensures Lanes() && Accounts() && Found() && Fair() && (!go ==> changedBatch ==> nrDispatched > 0)
      ensures go == (!old(Blocked()) && !old(Plan(h)).Stop?)
      ensures go ==> Picked(old(Plan(h)), h.fifoLate, rq)
      ensures !go || !old(Plan(h)).Switch? ==> batchSync == old(batchSync) && waited == old(waited)
      ensures go && old(Plan(h)).Switch? ==> waited == 0 && NewDirection(old(batchSync))
      ensures MayWrite(go)
    {
      if !batchSync && syncLane.fifo == [] && (currentWriteCount == 0 || asyncLane.fifo == []) {
        writeBatchIdled := true;
      }
      if Blocked() { return false, 0; }
      var c := Candidate(h);
      if c.Stop? { return false, 0; }
      rq := Resolve(c, h.fifoLate);
      go := true;
    }

    /** The request that a plan leads to. */
    method Resolve(c: Choice, late: bool) returns (rq: nat)
      requires Valid() && !Blocked() && !c.Stop? && (c.Take? ==> On(batchSync).next == Some(c.rq))
      requires c.Expired? ==> batchSync && syncLane.fifo != []
      requires !c.Switch? ==> MayWrite(true)
      modifies `batchSync, `changedBatch, `newBatch, `currentWriteCount, `writeBatchIdled, `waited
      ensures Lanes() && Accounts() && Found() && Fair()
      ensures Picked(c, late, rq) && MayWrite(true)
      ensures !c.Switch? ==> batchSync == old(batchSync) && waited == old(waited)
      ensures c.Switch? ==> waited == 0 && NewDirection(old(batchSync))
    {
      if c.Switch? {
        rq := SwitchBatch();
        return;
      }
      NextQueued(On(batchSync), Sound(batchSync));
      rq := if c.Expired? || late then On(batchSync).fifo[0] else c.rq;
    }

    /** The request for a plan: the cached one while a batch runs and the oldest has not expired,
        otherwise the oldest. */
    predicate Picked(c: Choice, late: bool, rq: nat)
      reads this
    {
      var l := On(batchSync);
      rq in l.fifo && if c.Take? && !late then l.next == Some(rq) && rq == c.rq else rq == l.fifo[0]
    }

    /** The direction of a new batch: the other one if both wait, else the one that does. */
    predicate NewDirection(before: bool)
      reads this
    {
      if syncLane.fifo != [] && asyncLane.fifo != [] then batchSync == !before else batchSync == (syncLane.fifo != [])
    }

    /** A write is only chosen before a read if the batch can still pay for it. */
    ghost predicate MayWrite(go: bool)
      reads this
    {
      go && !batchSync && syncLane.fifo != [] ==> currentWriteCount > 0
    }

    /** The end of as_dispatch_request: a changed batch waits for the old one to drain. */
    method Launch(rq: nat) returns (r: bool)
      requires Lanes() && Accounts() && Found() && Fair() && rq in On(batchSync).fifo && MayWrite(true)
      modifies this
      ensures Valid() && mixed == old(mixed) && forgot == old(forgot) && batchSync == old(batchSync)
      ensures On(!batchSync) == old(On(!batchSync)) && Sound(!batchSync) == old(Sound(!batchSync))
      ensures r == (old(changedBatch) ==> old(nrDispatched) == 0)
      ensures !r ==> On(batchSync) == old(On(batchSync)) && Sound(batchSync) == old(Sound(batchSync)) && out == old(out)
      ensures r ==> !changedBatch && Dispatched(old(On(batchSync)), rq, On(batchSync))
      ensures r ==> Optimal(old(On(batchSync)), rq, Sound(batchSync))
      ensures r ==> newBatch == (old(newBatch) || (old(changedBatch) && batchSync))
      ensures r ==> Sent(old(out), out, batchSync)
      ensures waited == if !r then old(waited) else if batchSync || syncLane.fifo == [] then 0 else old(waited) + 1
    {
      if changedBatch {
        assert !newBatch;
        if nrDispatched > 0 { return false; }
        if batchSync { newBatch := true; }
        changedBatch := false;
      }
      Send(rq);
      return true;
    }

    /** One more request is out. */
    ghost predicate Sent(before: seq<Out>, after: seq<Out>, sync: bool) {
      |after| == |before| + 1 && after[..|before|] == before && after[|before|].sync == sync
    }

    /** A request of the batch leaves. */
    method Send(rq: nat)
      requires Lanes() && Accounts() && Found() && Fair() && !changedBatch && rq in On(batchSync).fifo && MayWrite(true)
      modifies `syncLane, `asyncLane, `soundSync, `soundAsync, `antic, `ioContext, `iocFinished, `currentWriteCount,
               `nrDispatched, `out, `waited
      ensures Valid()
      ensures On(!batchSync) == old(On(!batchSync)) && Sound(!batchSync) == old(Sound(!batchSync))
      ensures Dispatched(old(On(batchSync)), rq, On(batchSync)) && Optimal(old(On(batchSync)), rq, Sound(batchSync))
      ensures Sent(old(out), out, batchSync)
      ensures waited == if batchSync || syncLane.fifo == [] then 0 else old(waited) + 1
    {
      MoveToDispatch(batchSync, rq);
      waited := if batchSync || syncLane.fifo == [] then 0 else waited + 1;
    }

    /** as_dispatch_request without force.  Returns whether a request was dispatched; `s` is
        that request.  A batch that is over ends at once; an expired request goes first; while a
        batch runs, the cached request is next. */
    method DispatchRequest(h: Hints) returns (r: bool, ghost s: nat)
      requires Valid()
      modifies this
      ensures Valid() && mixed == old(mixed) && forgot == old(forgot)
      ensures !r ==> syncLane == old(syncLane) && asyncLane == old(asyncLane) && out == old(out)
      ensures !r ==> soundSync == old(soundSync) && soundAsync == old(soundAsync)
      ensures r ==> !changedBatch && On(!batchSync) == if batchSync then old(asyncLane) else old(syncLane)
      ensures r ==> Sound(!batchSync) == if batchSync then old(soundAsync) else old(soundSync)
      ensures r ==> var l := if batchSync then old(syncLane) else old(asyncLane);
                    s in l.fifo && Dispatched(l, s, On(batchSync)) && Optimal(l, s, Sound(batchSync)) &&
                    if old(Plan(h)).Take? && !h.fifoLate then l.next == Some(s) else s == l.fifo[0]
      ensures r ==> Sent(old(out), out, batchSync)
      ensures old(Blocked()) || old(Plan(h)).Stop? ==> !r
      ensures old(Blocked()) || !old(Plan(h)).Switch? ==> batchSync == old(batchSync)
      ensures !old(Blocked()) && old(BatchOver(h)) ==> batchSync == !old(batchSync)
      ensures r && !batchSync && syncLane.fifo != [] ==> waited == (if old(batchSync) then 0 else old(waited)) + 1
    {
      var go, rq := Select(h);
      s := rq;
      if go { r := Launch(rq); } else { r := false; }
    }

    /** as_dispatch_request with force, in whatever direction: a lane is empty afterwards if and
        only if the cache has not forgotten its request, which otherwise stays behind. */
    method ForcedDispatch() returns (dispatched: nat)
      requires Valid()
      modifies this
      ensures Valid() && mixed && forgot == old(forgot)
      ensures syncLane.sorted == [] <==> !Lost(old(syncLane))
      ensures asyncLane.sorted == [] <==> !Lost(old(asyncLane))
      ensures Lost(old(syncLane)) ==> syncLane == old(syncLane)
      ensures Lost(old(asyncLane)) ==> asyncLane == old(asyncLane)
      ensures (syncLane.fifo == [] <==> syncLane.sorted == []) && (asyncLane.fifo == [] <==> asyncLane.sorted == [])
      ensures !forgot ==> syncLane.fifo == [] && asyncLane.fifo == []
      ensures |out| == |old(out)| + dispatched && out[..|old(out)|] == old(out)
    {
      Reset();
      var n := Drain(true);
      var m := Drain(false);
      NextQueued(syncLane, soundSync);
      NextQueued(asyncLane, soundAsync);
      dispatched := n + m;
    }

    /** The accounts of batches are given up. */
    method Reset()
      requires Valid()
      modifies `batchSync, `changedBatch, `newBatch, `mixed
      ensures Valid() && mixed && !changedBatch && !newBatch && batchSync
    {
      batchSync, changedBatch, newBatch, mixed := true, false, false, true;
    }

    method Drain(sync: bool) returns (n: nat)
      requires Valid() && mixed && !changedBatch
      modifies `syncLane, `asyncLane, `soundSync, `soundAsync, `antic, `ioContext, `iocFinished, `currentWriteCount,
               `nrDispatched, `out
      ensures Valid() && On(sync).next.None? && On(!sync) == old(On(!sync)) && Sound(!sync) == old(Sound(!sync))
      ensures if Lost(old(On(sync))) then On(sync) == old(On(sync)) else On(sync).sorted == []
      ensures |out| == |old(out)| + n && out[..|old(out)|] == old(out)
    {
      n := 0;
      while On(sync).next.Some?
        invariant Valid() && On(!sync) == old(On(!sync)) && Sound(!sync) == old(Sound(!sync))
        invariant if Lost(old(On(sync))) then On(sync) == old(On(sync)) else !Lost(On(sync))
        invariant |out| == |old(out)| + n && out[..|old(out)|] == old(out)
        decreases |On(sync).sorted|
      {
        NextQueued(On(sync), Sound(sync));
        ghost var before := out;
        MoveToDispatch(sync, On(sync).next.value);
        assert out[..|old(out)|] == before[..|old(out)|];
        n := n + 1;
      }
    }

    // ----- the other hooks -----

    /** as_add_rq_rb: requests with the same start sector are pushed out first. */
    method EvictAliases(sync: bool, s: nat) returns (alias: bool)
      requires Valid()
      modifies this
      ensures alias == (s in old(On(sync)).fifo)
      ensures Valid() && s !in On(sync).fifo && On(!sync) == old(On(!sync)) && Sound(!sync) == old(Sound(!sync))
      ensures forgot == old(forgot)
      ensures alias ==> mixed && out == old(out) + [Out(sync, Context(old(On(sync)), s), false)]
      ensures alias ==> Dispatched(old(On(sync)), s, On(sync)) && Optimal(old(On(sync)), s, Sound(sync))
      ensures !alias ==> On(sync) == old(On(sync)) && Sound(sync) == old(Sound(sync))
      ensures !alias ==> mixed == old(mixed) && out == old(out) && antic == old(antic)
    {
      alias := false;
      while s in On(sync).fifo
        invariant Valid() && On(!sync) == old(On(!sync)) && Sound(!sync) == old(Sound(!sync)) && forgot == old(forgot)
        invariant !alias ==> On(sync) == old(On(sync)) && Sound(sync) == old(Sound(sync))
        invariant !alias ==> mixed == old(mixed) && out == old(out) && antic == old(antic)
        invariant alias ==> s !in On(sync).fifo && mixed && s in old(On(sync)).fifo
        invariant alias ==> out == old(out) + [Out(sync, Context(old(On(sync)), s), false)]
        invariant alias ==> Dispatched(old(On(sync)), s, On(sync)) && Optimal(old(On(sync)), s, Sound(sync))
        decreases |On(sync).sorted|
      {
        alias := true;
        PushOut(sync, s);
      }
    }

    /** One alias is dispatched.  That ends anticipation, so as_antic_stop has nothing to do. */
    method PushOut(sync: bool, s: nat)
      requires Valid() && s in On(sync).fifo
      modifies `syncLane, `asyncLane, `soundSync, `soundAsync, `antic, `ioContext, `iocFinished, `currentWriteCount,
               `nrDispatched, `out, `mixed
      ensures Valid() && mixed
      ensures s !in On(sync).fifo && |On(sync).sorted| < |old(On(sync)).sorted|
      ensures On(!sync) == old(On(!sync)) && Sound(!sync) == old(Sound(!sync))
      ensures out == old(out) + [Out(sync, Context(old(On(sync)), s), false)]
      ensures Dispatched(old(On(sync)), s, On(sync)) && Optimal(old(On(sync)), s, Sound(sync))
    {
      Mix();
      MoveToDispatch(sync, s);
      assert !Waiting(antic);
    }

    /** Directions are no longer kept apart. */
    ghost method Mix()
      requires Valid()
      modifies `mixed
      ensures Valid() && mixed
      ensures On(true) == old(On(true)) && On(false) == old(On(false))
      ensures Sound(true) == old(Sound(true)) && Sound(false) == old(Sound(false))
    {
      mixed := true;
    }

    /** The rest of as_add_request, once nothing else starts at the sector. */
    method Enter(sync: bool, rq: Rq, breaks: bool, ghost before: Lane)
      requires Valid() && rq.sector !in On(sync).fifo
      requires if rq.sector in before.fifo then Dispatched(before, rq.sector, On(sync)) else On(sync) == before
      modifies `syncLane, `asyncLane, `soundSync, `soundAsync, `antic
      ensures Valid() && On(!sync) == old(On(!sync)) && soundSync == old(soundSync) && soundAsync == old(soundAsync)
      ensures rq.sector in On(sync).fifo && !Lost(On(sync)) && Added(before, rq, On(sync))
      ensures antic == if Waiting(old(antic)) && breaks then Finished else old(antic)
    {
      var l := InsertLane(On(sync), rq, before, Sound(sync));
      SetLane(sync, l, Sound(sync));
      if Waiting(antic) && breaks { AnticStop(); }
    }

    /** as_add_request */
    method AddRequest(sync: bool, rq: Rq, breaks: bool) returns (alias: bool)
      requires Valid()
      modifies this
      ensures alias == (rq.sector in old(On(sync)).fifo)
      ensures Valid() && On(!sync) == old(On(!sync)) && Sound(!sync) == old(Sound(!sync))
      ensures rq.sector in On(sync).fifo && !Lost(On(sync)) && Added(old(On(sync)), rq, On(sync)) &&
              forgot == old(forgot)
      ensures alias ==> mixed && out == old(out) + [Out(sync, Context(old(On(sync)), rq.sector), false)]
      ensures alias ==> Optimal(old(On(sync)), rq.sector, Sound(sync))
      ensures !alias ==> mixed == old(mixed) && out == old(out) && Sound(sync) == old(Sound(sync))
      ensures !alias ==> antic == if Waiting(old(antic)) && breaks then Finished else old(antic)
    {
      alias := EvictAliases(sync, rq.sector);
      Enter(sync, rq, breaks, old(On(sync)));
    }

    /** as_activate_request and as_deactivate_request */
    method Activate(k: nat, removed: bool)
      requires Valid() && k < |out| && out[k].removed != removed
      modifies `out
      ensures Valid() && out == old(out)[k := old(out)[k].(removed := removed)]
    {
      out := out[k := out[k].(removed := removed)];
    }

    /** The request that is being waited for has completed: time its successor. */
    method NoteContext(ioc: nat)
      modifies `iocFinished, `antic
      ensures antic == if ioContext == ioc && ioc != 0 && old(antic).WaitReq? then WaitNext else old(antic)
      ensures iocFinished == (old(iocFinished) || (ioContext == ioc && ioc != 0))
    {
      if ioContext == ioc && ioContext != 0 {
        iocFinished := true;
        if antic.WaitReq? { AnticWaitNext(); }
      }
    }

    /** as_completed_request; `resized` is what update_write_batch makes of the batch size. */
    method CompletedRequest(k: nat, sync: bool, ioc: nat, resized: nat)
      requires Valid() && k < |out| && out[k] == Out(sync, ioc, true)
      modifies `changedBatch, `newBatch, `nrDispatched, `writeBatchCount, `iocFinished, `antic, `out
      ensures Valid() && out == DropOut(old(out), k)
      ensures changedBatch == (old(changedBatch) && |out| > 0)
      ensures var ends := old(newBatch) || (old(changedBatch) && |out| == 0 && batchSync);
              newBatch == (ends && batchSync != sync) &&
              writeBatchCount == if ends && batchSync == sync then (if resized < 1 then 1 else resized)
                                 else old(writeBatchCount)
      ensures antic == if ioContext == ioc && ioc != 0 && old(antic).WaitReq? then WaitNext else old(antic)
      ensures iocFinished == (old(iocFinished) || (ioContext == ioc && ioc != 0))
    {
      CountDown(k);
      if newBatch && batchSync == sync {
        writeBatchCount := if resized < 1 then 1 else resized;
        newBatch := false;
      }
      NoteContext(ioc);
    }

    /** One request less is out; the last of an old batch ends the batch change. */
    method CountDown(k: nat)
      requires Accounts() && k < |out|
      modifies `changedBatch, `newBatch, `nrDispatched, `out
      ensures Accounts() && out == DropOut(old(out), k) && changedBatch == (old(changedBatch) && |out| > 0)
      ensures newBatch == (old(newBatch) || (old(changedBatch) && |out| == 0 && batchSync))
    {
      if changedBatch && nrDispatched == 1 {
        changedBatch := false;
        if batchSync { newBatch := true; }
      }
      assert nrDispatched != 0;
      nrDispatched := nrDispatched - 1;
      out := DropOut(out, k);
    }

    /** A back merge; the scheduler is not told. */
    method BackMerged(sync: bool, s: nat, n: nat)
      requires Valid() && s in On(sync).fifo
      modifies `syncLane, `asyncLane, `soundSync, `soundAsync
      ensures Valid() && On(sync) == Grow(old(On(sync)), s, n) && On(!sync) == old(On(!sync))
      ensures soundSync == old(soundSync) && soundAsync == old(soundAsync)
    {
      var l := Grow(On(sync), s, n);
      GrowInv(On(sync), Sound(sync), s, n);
      SetLane(sync, l, Sound(sync));
    }

    /** as_merged_requests */
    method MergedRequests(sync: bool, s: nat, n: nat, t: nat, earlier: bool)
      requires Valid() && s in On(sync).fifo && t in On(sync).fifo && s != t
      modifies `syncLane, `asyncLane, `soundSync, `soundAsync
      ensures Valid() && On(sync) == Merge(old(On(sync)), s, n, t, earlier) && On(!sync) == old(On(!sync))
      ensures soundSync == old(soundSync) && soundAsync == old(soundAsync) && !Lost(On(sync))
    {
      var l := Merge(On(sync), s, n, t, earlier);
      MergeInv(On(sync), Sound(sync), s, n, t, earlier);
      SetLane(sync, l, Sound(sync));
    }

    /** A direction gets its new lane; `alias` says that a request has left it, `lone` that it
        was the only other one. */
    method Replace(sync: bool, l: Lane, ghost sound: bool, alias: bool, lone: bool, ioc: nat)
      requires Valid() && LaneInv(l, sound) && (Lost(l) <==> if alias then lone else Lost(On(sync)))
      modifies this
      ensures Valid() && On(sync) == l && Sound(sync) == sound
      ensures On(!sync) == old(On(!sync)) && Sound(!sync) == old(Sound(!sync))
      ensures mixed == (old(mixed) || alias) && forgot == (old(forgot) || (alias && lone))
      ensures alias ==> out == old(out) + [Out(sync, ioc, false)]
      ensures !alias ==> out == old(out) && antic == old(antic)
    {
      NoteAlias(alias, lone, sync, ioc);
      SetLane(sync, l, sound);
    }

    /** as_merged_request for a front merge.  A request that starts at the new sector is
        dispatched; if it was the only other one, the cache forgets the moved request. */
    method FrontMerged(sync: bool, s: nat, t: nat) returns (alias: bool)
      requires Valid() && s in On(sync).fifo && t < s
      modifies this
      ensures alias == (t in old(On(sync)).fifo)
      ensures Valid() && On(!sync) == old(On(!sync)) && Sound(!sync) == old(Sound(!sync))
      ensures Repositioned(old(On(sync)), s, t, On(sync), Sound(sync))
      ensures Lost(On(sync)) <==> if alias then |old(On(sync)).sorted| == 2 else Lost(old(On(sync)))
      ensures mixed == (old(mixed) || alias) && forgot == (old(forgot) || (alias && |old(On(sync)).sorted| == 2))
      ensures alias ==> out == old(out) + [Out(sync, Context(old(On(sync)), t), false)]
      ensures !alias ==> out == old(out) && antic == old(antic)
    {
      ghost var sound;
      var l, ioc;
      l, alias, ioc, sound := FrontLane(On(sync), s, t, Sound(sync));
      Replace(sync, l, sound, alias, |On(sync).sorted| == 2, ioc);
    }
  }
}
