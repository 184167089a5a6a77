/**
 The request queue as the object the kernel updates in place.  Each method follows the
 C function of that name and is proved to take exactly the step of the protocol, so that
 what holds of every run of the protocol holds of the object.
 */
module OrderedQueue {
  import opened Common
  import opened Ordered
  import opened OrderedInvariant
  import opened OrderedSafety
  import opened OrderedStuck
  import DispatchOrder

  class RequestQueue {
    var mode: Mode
    var sched: set<Rq>
    var queueHead: seq<Rq>
    var started: set<Rq>
    var ordseq: OrdSeq
    var origBar: Option<Rq>
    var ordcolor: bool
    var inFlight: int
    ghost var flight: set<Rq>
    ghost var special: set<Rq>
    ghost var log: seq<Rq>
    ghost var bars: seq<Rq>
    ghost var base: nat
    ghost var done: seq<Rq>

    ghost function St(): State
      reads this
    {
      State(mode, sched, queueHead, started, flight, special, ordseq, origBar, ordcolor, inFlight, log, bars, base,
            done)
    }

    constructor (mode: Mode)
      ensures St() == Init(mode)
    {
      this.mode := mode;
      sched, queueHead, started := {}, [], {};
      ordseq, origBar, ordcolor, inFlight := IDLE, None, false, 0;
      flight, special, log, bars, base, done := {}, {}, [], [], 0, [];
    }

    /** blk_queue_ordered; `prepares` says whether a prepare_flush_fn is given. */
    method QueueOrdered(m: Mode, prepares: bool) returns (ok: bool)
      modifies this
      ensures ok == (m.Ordering? ==> (m.preflush ==> prepares) && (m.postflush ==> m.preflush))
      ensures St() == if ok then old(St()).(mode := m) else old(St())
    {
      if m.Ordering? {
        if (m.preflush || m.postflush) && !prepares { return false; }
        if m.postflush && !m.preflush { return false; }
      }
      mode := m;
      return true;
    }

    /** blk_ordered_cur_seq */
    function OrderedCurSeq(): nat
      reads this
    {
      CurSeq(ordseq)
    }

    /** blk_ordered_complete_seq; the first precondition is its BUG_ON. */
    method OrderedCompleteSeq(phase: nat)
      requires OrderedCurSeq() == phase && ORDSEQ_DRAIN <= phase <= ORDSEQ_POSTFLUSH
      modifies this
      ensures St() == CompleteSeq(old(St()), phase)
    {
      if phase == ORDSEQ_DRAIN { ordseq := ordseq.(drain := true); }
      else if phase == ORDSEQ_PREFLUSH { ordseq := ordseq.(preflush := true); }
      else if phase == ORDSEQ_BAR { ordseq := ordseq.(bar := true); }
      else { ordseq := ordseq.(postflush := true); }
      if OrderedCurSeq() != ORDSEQ_DONE || origBar.None? { return; }
      ordseq := IDLE;
      done, base := done + [origBar.value], base + 1;
      origBar := None;
    }

    /** elv_completed_request */
    method CompletedRequest(account: bool)
      requires WellFormed(St())
      modifies this
      ensures St() == Completed(old(St()), account)
    {
      if account { inFlight := inFlight - 1; }
      if ordseq.started {
        if inFlight == 0 && OrderedCurSeq() == ORDSEQ_DRAIN && queueHead != []
           && SeqOf(origBar.value, queueHead[0]) > ORDSEQ_DRAIN
        {
          OrderedCompleteSeq(ORDSEQ_DRAIN);
        }
      }
    }

    /** end_that_request_last on a request the driver holds.  By PhasesInOrder a proxy
        the driver holds stands for the current phase. */
    method EndRequest(r: Rq)
      requires MayEnd(St(), r)
      modifies this
      ensures St() == End(old(St()), r)
    {
      flight, special := flight - {r}, special - {r};
      match r
      case Normal(_, fs, _, _, _, _) =>
        done := done + [r];
        CompletedRequest(fs);
      case PreFlush =>
        CompletedRequest(false);
        OrderedCompleteSeq(ORDSEQ_PREFLUSH);
      case Bar =>
        CompletedRequest(true);
        OrderedCompleteSeq(ORDSEQ_BAR);
      case PostFlush =>
        CompletedRequest(false);
        OrderedCompleteSeq(ORDSEQ_POSTFLUSH);
    }

    /** The list walk of elv_requeue_request with ELEVATOR_INSERT_REQUEUE. */
    method RequeuePlace(r: Rq) returns (pos: nat)
      requires WellFormed(St())
      ensures pos == if Active(St()) then RequeuePos(St(), queueHead, ReqSeq(St(), r)) else 0
      ensures pos <= |queueHead| && (!ordseq.started ==> pos == 0)
      ensures ordseq.started ==>
                forall i :: 0 <= i < pos ==> SeqOf(origBar.value, queueHead[i]) < SeqOf(origBar.value, r)
      ensures ordseq.started && pos < |queueHead| ==> SeqOf(origBar.value, queueHead[pos]) >= SeqOf(origBar.value, r)
    {
      pos := 0;
      if ordseq.started {
        ghost var s := St();
        var seqno := SeqOf(origBar.value, r);
        while pos < |queueHead| && SeqOf(origBar.value, queueHead[pos]) < seqno
          invariant 0 <= pos <= |queueHead|
          invariant forall i :: 0 <= i < pos ==> SeqOf(origBar.value, queueHead[i]) < seqno
          invariant RequeuePos(s, queueHead, seqno) == pos + RequeuePos(s, queueHead[pos..], seqno)
        {
          assert queueHead[pos..][1..] == queueHead[pos + 1..];
          pos := pos + 1;
        }
      }
    }

    /** elv_requeue_request */
    method RequeueRequest(r: Rq)
      requires WellFormed(St()) && r in flight + special
      modifies this
      ensures St() == Requeue(old(St()), r)
    {
      var pos := RequeuePlace(r);
      if IsFs(r) { inFlight := inFlight - 1; }
      flight, special := flight - {r}, special - {r};
      queueHead := queueHead[..pos] + [r] + queueHead[pos..];
    }

    /** elv_dequeue_request on a request the driver has been shown. */
    method DequeueRequest(r: Rq)
      requires r in started && r in queueHead
      modifies this
      ensures St() == Dequeue(old(St()), r)
    {
      queueHead := Without(queueHead, r);
      started := started - {r};
      if IsFs(r) {
        inFlight := inFlight + 1;
        flight := flight + {r};
      } else {
        special := special + {r};
      }
    }

    /** start_ordered; the proxies are inserted in front, last one first. */
    method StartOrderedSequence()
      requires WellFormed(St()) && !Active(St()) && queueHead != [] && queueHead[0].Normal? && mode.Ordering?
      modifies this
      ensures St() == StartOrdered(old(St()))
    {
      var b := queueHead[0];
      ordseq := OrdSeq(true, false, false, false, false);
      queueHead := queueHead[1..];
      origBar := Some(b);
      if mode.postflush && !b.empty {
        queueHead := [PostFlush] + queueHead;
      } else {
        ordseq := ordseq.(postflush := true);
      }
      queueHead := [Bar] + queueHead;
      if mode.preflush {
        queueHead := [PreFlush] + queueHead;
      } else {
        ordseq := ordseq.(preflush := true);
      }
      if mode.tag || inFlight == 0 {
        ordseq := ordseq.(drain := true);
      }
      assert queueHead == Proxies(mode.preflush, mode.postflush && !b.empty) + old(queueHead)[1..];
    }

    /** blk_do_ordered on the head of the queue. */
    method DoOrderedHead() returns (a: Answer)
      requires Enabled(St(), SPeek)
      modifies this
      ensures (St(), a) == DoOrdered(old(St()))
    {
      var r := queueHead[0];
      if !ordseq.started {
        if !IsBarrier(r) { return Give(r); }
        if mode.Ordering? {
          StartOrderedSequence();
          return if ordseq.drain then Give(queueHead[0]) else Hold;
        }
        queueHead := queueHead[1..];
        done, base := done + [r], base + 1;
        return Again;
      }
      if r.Normal? && !r.fs { return Give(r); }
      if mode.Ordering? && mode.tag {
        return if IsBarrier(r) && !r.Bar? then Hold else Give(r);
      }
      return if SeqOf(origBar.value, r) > CurSeq(ordseq) then Hold else Give(r);
    }

    /** One turn of the loop of elv_next_request. */
    method PeekHead() returns (r: Option<Rq>, a: Answer)
      requires Enabled(St(), SPeek) && (mode.Ordering? ==> !mode.tag)
      requires Active(St()) && Bar in queueHead ==> !ordseq.bar
      modifies this
      ensures (St(), r) == Peek(old(St())) && a == DoOrdered(old(St())).1
      ensures sched == old(sched)
    {
      a := DoOrderedHead();
      match a
      case Give(rq) =>
        if rq.Bar? && origBar.Some? && origBar.value.Normal? && origBar.value.empty && rq in queueHead {
          EndEmptyBar();
          r := None;
        } else {
          started := started + {rq};
          r := Some(rq);
        }
      case _ => r := None;
    }

    /** end_queued_request on the place holder of an empty barrier. */
    method EndEmptyBar()
      requires WellFormed(St()) && Active(St()) && Bar in queueHead && CurSeq(ordseq) == ORDSEQ_BAR
      modifies this
      ensures var s := old(St()).(queue := Without(old(queueHead), Bar), peeked := old(started) - {Bar});
              St() == CompleteSeq(Completed(s, false), ORDSEQ_BAR)
    {
      queueHead := Without(queueHead, Bar);
      started := started - {Bar};
      CompletedRequest(false);
      OrderedCompleteSeq(ORDSEQ_BAR);
    }

    /** One scheduler dispatch: elv_dispatch_sort scans backwards to the first request that is
        flagged or started, or that `stops` it by direction or sector; with elv_dispatch_add_tail
        the last request stops it. */
    method DispatchRequest(r: Rq, stops: Rq -> bool) returns (p: nat)
      requires r in sched
      modifies this
      ensures Enabled(old(St()), SDispatch(r, p)) && St() == Dispatch(old(St()), r, p)
      ensures p > 0 ==> var x := old(queueHead)[p - 1]; Hard(x) || x in started || stops(x)
      ensures forall i :: p <= i < |old(queueHead)| ==> !stops(old(queueHead)[i])
      ensures sched == old(sched) - {r}
    {
      p := |queueHead|;
      while p > 0 && !Hard(queueHead[p - 1]) && queueHead[p - 1] !in started && !stops(queueHead[p - 1])
        invariant MayLand(St(), p) && forall i :: p <= i < |queueHead| ==> !stops(queueHead[i])
      {
        p := p - 1;
      }
      sched := sched - {r};
      queueHead := queueHead[..p] + [r] + queueHead[p..];
    }

    /** elv_drain_elevator; `more` says whether a forced dispatch finds a request. */
    method DrainElevator(more: set<Rq> -> bool, stops: (Rq, Rq) -> bool) returns (ghost run: seq<Step>)
      modifies this
      ensures Leads(ALL, old(St()), run, St()) && (sched == {} || !more(sched))
      ensures forall i :: 0 <= i < |run| ==> run[i].SDispatch?
    {
      run := [];
      while sched != {} && more(sched)
        invariant Leads(ALL, old(St()), run, St())
        invariant forall i :: 0 <= i < |run| ==> run[i].SDispatch?
        decreases |sched|
      {
        run := DispatchOne(old(St()), run, stops);
      }
    }

    /** The scheduler moves one request, inside a run. */
    method DispatchOne(ghost s0: State, ghost run0: seq<Step>, stops: (Rq, Rq) -> bool) returns (ghost run: seq<Step>)
      requires sched != {} && Leads(ALL, s0, run0, St())
      modifies this
      ensures Leads(ALL, s0, run, St()) && |sched| < |old(sched)|
      ensures exists step: Step :: step.SDispatch? && run == run0 + [step]
    {
      var r :| r in sched;
      ghost var s := St();
      var p := DispatchRequest(r, x => stops(r, x));
      LeadsSnoc(ALL, s0, run0, s, SDispatch(r, p), St());
      run := run0 + [SDispatch(r, p)];
    }

    /** __elv_add_request */
    method AddRequest(fs: bool, hard: bool, empty: bool, pos: Where, id: nat, epoch: nat)
      requires id == |log| && epoch == |bars|
      modifies this
      ensures St() == Add(old(St()), fs, hard, empty, pos)
      ensures var r := Normal(id, fs, hard, empty, old(ordcolor), epoch);
              && ordcolor == (old(ordcolor) != hard)
              && sched == (if pos.Sort? && !hard then old(sched) + {r} else old(sched))
              && queueHead == if pos.Front? then [r] + old(queueHead)
                              else if pos.Back? || hard then old(queueHead) + [r] else old(queueHead)
    {
      var r := Normal(id, fs, hard, empty, ordcolor, epoch);
      log := log + [r];
      if fs && hard { bars := bars + [r]; }
      var place := pos;
      if hard {
        ordcolor := !ordcolor;
        if place.Sort? { place := Back; }
      }
      match place
      case Front => queueHead := [r] + queueHead;
      case Back => queueHead := queueHead + [r];
      case Sort => sched := sched + {r};
    }

    /** One turn of the loop of elv_next_request, inside a run. */
    method Turn(ghost s0: State, ghost run0: seq<Step>) returns (r: Option<Rq>, hold: bool, ghost run: seq<Step>)
      requires Inv(s0) && Leads(ALL, s0, run0, St()) && queueHead != []
      modifies this
      ensures Leads(ALL, s0, run, St()) && run == run0 + [SPeek]
      ensures r.Some? ==> r.value in queueHead && r.value in started && MayGive(St(), r.value)
      ensures hold && r.None? ==> flight != {} || special != {}
      ensures Work(queueHead) <= Work(old(queueHead))
      ensures !hold && r.None? ==> Work(queueHead) < Work(old(queueHead))
      ensures sched == old(sched)
    {
      ghost var s := St();
      RunInv(s0, run0, s);
      PeekFacts(s);
      PeekWork(s);
      LeadsSnoc(ALL, s0, run0, s, SPeek, Peek(s).0);
      var a;
      r, a := PeekHead();
      hold := a.Hold?;
      run := run0 + [SPeek];
    }

    /** A request that was shown is taken off, inside a run. */
    method Take(r: Rq, ghost s0: State, ghost run0: seq<Step>)
      requires Inv(s0) && Leads(ALL, s0, run0, St()) && r in queueHead && r in started
      modifies this
      ensures Leads(ALL, s0, run0 + [SDequeue(r)], St()) && MayEnd(St(), r)
      ensures Work(queueHead) < Work(old(queueHead)) && sched == old(sched)
    {
      ghost var s := St();
      WorkWithout(queueHead, r);
      DequeueRequest(r);
      LeadsSnoc(ALL, s0, run0, s, SDequeue(r), St());
      TakenMayEnd(s0, run0 + [SDequeue(r)], St(), r);
    }

    /** A request that the driver holds ends, inside a run. */
    method Finish(r: Rq, ghost s0: State, ghost run0: seq<Step>)
      requires Leads(ALL, s0, run0, St()) && MayEnd(St(), r)
      modifies this
      ensures Leads(ALL, s0, run0 + [SEnd(r)], St()) && queueHead == old(queueHead) && sched == old(sched)
    {
      ghost var s := St();
      EndRequest(r);
      EndKeepsLists(s, r);
      LeadsSnoc(ALL, s0, run0, s, SEnd(r), St());
    }

    /** elv_next_request.  When the queue is empty the scheduler is asked for more, and `more` is
        its verdict; `prep` is that of prep_rq_fn.  The driver gets nothing only if it holds
        something, or prep_rq_fn defers a request, or nothing is queued. */
    method NextRequest(more: set<Rq> -> bool, stops: (Rq, Rq) -> bool, prep: Rq -> Prep)
      returns (r: Option<Rq>, deferred: Option<Rq>, ghost run: seq<Step>)
      requires Inv(St())
      modifies this
      ensures Leads(ALL, old(St()), run, St())
      ensures r.Some? ==> r.value in queueHead && r.value in started && MayGive(St(), r.value) && prep(r.value) == Ok
      ensures deferred.Some? ==> r.None? && deferred.value in queueHead && deferred.value in started
      ensures deferred.Some? ==> MayGive(St(), deferred.value) && prep(deferred.value) == Defer
      ensures r.None? && deferred.None? && flight == {} && special == {} ==> queueHead == []
    {
      run, deferred := [], None;
      var go := true;
      while go
        invariant Leads(ALL, old(St()), run, St()) && deferred.None?
        invariant go || (flight != {} || special != {}) || queueHead == []
        decreases go, |sched|, Work(queueHead)
      {
        if queueHead != [] {
          var hold;
          r, hold, run := Turn(old(St()), run);
          if r.Some? {
            match prep(r.value)
            case Ok => return;
            case Defer => return None, r, run;
            case Kill =>
              Take(r.value, old(St()), run);
              Finish(r.value, old(St()), run + [SDequeue(r.value)]);
              run := run + [SDequeue(r.value)] + [SEnd(r.value)];
          } else {
            go := !hold;
          }
        } else if sched == {} || !more(sched) {
          go := false;
        } else {
          run := DispatchOne(old(St()), run, stops);
        }
      }
      r := None;
    }
  }

  /** The answers of prep_rq_fn. */
  datatype Prep = Ok | Defer | Kill

  /** How many requests elv_next_request may have to look at: a barrier can become three. */
  function Work(q: seq<Rq>): nat {
    if q == [] then 0 else (if q[0].Normal? && IsBarrier(q[0]) then 4 else 1) + Work(q[1..])
  }

  lemma {:induction false} WorkConcat(a: seq<Rq>, b: seq<Rq>)
    ensures Work(a + b) == Work(a) + Work(b)
  {
    if a == [] {
      assert a + b == b;
    } else {
      assert (a + b)[1..] == a[1..] + b;
      WorkConcat(a[1..], b);
    }
  }

  lemma {:induction false} WorkWithout(q: seq<Rq>, r: Rq)
    requires r in q
    ensures Work(Without(q, r)) < Work(q)
  {
    if q[0] != r {
      WorkWithout(q[1..], r);
      assert Without(q, r)[1..] == Without(q[1..], r);
    }
  }

  lemma {:induction false} WorkProxies(pre: bool, post: bool)
    ensures Work(Proxies(pre, post)) <= 3
  {
    var a: seq<Rq>, b: seq<Rq> := if pre then [PreFlush] else [], if post then [PostFlush] else [];
    assert Work(a) <= 1 && Work(b) <= 1 && Work([Bar]) == 1;
    WorkConcat(a, [Bar]);
    WorkConcat(a + [Bar], b);
  }

  lemma DoOrderedWork(s: State)
    requires Enabled(s, SPeek)
    ensures Work(DoOrdered(s).0.queue) <= Work(s.queue)
    ensures DoOrdered(s).1.Again? ==> Work(DoOrdered(s).0.queue) < Work(s.queue)
  {
    var h := s.queue[0];
    if !Active(s) && IsBarrier(h) && s.mode.Ordering? {
      var post := s.mode.postflush && !h.empty;
      WorkProxies(s.mode.preflush, post);
      WorkConcat(Proxies(s.mode.preflush, post), s.queue[1..]);
    }
  }

  lemma PeekWork(s: State)
    requires Enabled(s, SPeek)
    ensures Work(Peek(s).0.queue) <= Work(s.queue)
    ensures Peek(s).1.None? && !DoOrdered(s).1.Hold? ==> Work(Peek(s).0.queue) < Work(s.queue)
  {
    DoOrderedWork(s);
    var (s1, a) := DoOrdered(s);
    if a.Give? && a.rq in s1.queue { WorkWithout(s1.queue, a.rq); }
  }

  /** The driver holds the request; a proxy stands for the current phase. */
  predicate MayEnd(s: State, r: Rq) {
    WellFormed(s) && r in s.flight + s.special && (!r.Normal? ==> CurSeq(s.ordseq) == PhaseOf(r))
  }

  lemma TakenMayEnd(s: State, run: seq<Step>, t: State, r: Rq)
    requires Inv(s) && Leads(ALL, s, run, t) && r in t.flight + t.special
    ensures MayEnd(t, r)
  {
    RunInv(s, run, t);
    if !r.Normal? { PhaseIsCurrent(t, r); }
  }

  lemma CompletedKeepsLists(s: State, account: bool)
    requires WellFormed(s)
    ensures Completed(s, account).queue == s.queue && Completed(s, account).sched == s.sched
  {
  }

  lemma EndKeepsLists(s: State, r: Rq)
    requires WellFormed(s)
    ensures End(s, r).queue == s.queue && End(s, r).sched == s.sched
  {
    var s1 := s.(flight := s.flight - {r}, special := s.special - {r});
    CompletedKeepsLists(if r.Normal? then s1.(done := s.done + [r]) else s1, IsFs(r));
  }

  /** The place that elv_dispatch_sort finds on the requests as the driver sees them, with their
      flags, is one that the protocol allows. */
  lemma SortLands(s: State, q: seq<DispatchOrder.Rq>, e: nat, p: nat, rq: DispatchOrder.Rq)
    requires |q| == |s.queue| && p <= |q|
    requires forall i :: 0 <= i < |q| ==>
             (Hard(s.queue[i]) ==> q[i].barrier) && (s.queue[i] in s.peeked ==> q[i].started)
    requires forall i :: p <= i < |q| ==> !DispatchOrder.Stops(e, q[i], rq)
    ensures MayLand(s, p)
  {
    forall i | p <= i < |s.queue| ensures !Hard(s.queue[i]) && s.queue[i] !in s.peeked {
      assert !DispatchOrder.Stops(e, q[i], rq);
    }
  }

  /** What one turn of elv_next_request does in a state of the protocol. */
  lemma PeekFacts(s: State)
    requires Inv(s) && s.queue != []
    ensures Enabled(s, SPeek) && Inv(Peek(s).0)
    ensures (s.mode.Ordering? ==> !s.mode.tag) && (Active(s) && Bar in s.queue ==> !s.ordseq.bar)
    ensures var (t, r) := Peek(s); r.Some? ==> r.value in t.queue && r.value in t.peeked && MayGive(t, r.value)
    ensures var (t, r) := Peek(s); r.None? && DoOrdered(s).1.Hold? ==> t.flight != {} || t.special != {}
  {
    assert s.queue[0] in s.queue;
    StepInv(s, SPeek);
    if s.flight == {} && s.special == {} { GivesWhenIdle(s); }
    PeekGives(s);
  }

  lemma PeekGives(s: State)
    requires Inv(s) && Enabled(s, SPeek)
    ensures var (t, r) := Peek(s); r.Some? ==> r.value in t.queue && r.value in t.peeked && MayGive(t, r.value)
  {
    var h := s.queue[0];
    if Active(s) {
      HeadActive(s);
    } else if Tracked(h) {
      HeadIdle(s);
    }
  }
}
