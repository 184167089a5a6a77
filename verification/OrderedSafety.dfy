/**
 What the barrier protocol promises over whole runs, for every schedule of
 submissions, scheduler decisions, hand-outs, requeues and completions.
 */
module OrderedSafety {
  import opened Common
  import opened Ordered
  import opened OrderedInvariant

  lemma StepInv(s: State, step: Step)
    requires Inv(s) && Enabled(s, step) && Careful(ALL, s, step)
    ensures Inv(Apply(s, step))
  {
    match step
    case SAdd(fs, hard, empty, pos) => AddInv(s, fs, hard, empty, pos);
    case SDispatch(r, p) => DispatchInv(s, r, p);
    case SPeek => if Active(s) { PeekActiveInv(s); } else { PeekIdleInv(s); }
    case SDequeue(r) => DequeueInv(s, r);
    case SRequeue(r) => RequeueInv(s, r);
    case SEnd(r) => EndInv(s, r);
    case SMode(m) => ModeInv(s, m);
  }

  lemma {:induction false} RunInv(s: State, run: seq<Step>, t: State)
    requires Inv(s) && Leads(ALL, s, run, t)
    ensures Inv(t)
    decreases |run|
  {
    if run != [] {
      StepInv(s, run[0]);
      RunInv(Apply(s, run[0]), run[1..], t);
    }
  }

  /** A state that some run of the protocol reaches, with draining and the given care. */
  ghost predicate ReachableBy(care: Care, mode: Mode, t: State) {
    && (mode.Ordering? ==> !mode.tag)
    && exists run :: Leads(care, Init(mode), run, t)
  }

  ghost predicate Reachable(mode: Mode, t: State) {
    ReachableBy(ALL, mode, t)
  }

  lemma ReachableInv(mode: Mode, t: State)
    requires Reachable(mode, t)
    ensures Inv(t)
  {
    var run :| Leads(ALL, Init(mode), run, t);
    InitInv(mode);
    RunInv(Init(mode), run, t);
  }

  predicate HandedOut(s: State, r: Rq) {
    r in s.peeked || r in s.flight || r in s.special
  }

  lemma LogKnown(t: State, r: Rq)
    requires LogOk(t.log, t.bars) && r in t.log
    ensures r.Normal? && Known(t.log, r)
  {
    var i :| 0 <= i < |t.log| && t.log[i] == r;
    assert EntryOk(t.log[i], i, |t.bars|);
  }

  /** The proxy barrier reaches the driver only after every file-system request
      submitted before the barrier has ended. */
  lemma BarrierAfterEarlier(mode: Mode, t: State, r: Rq)
    requires Reachable(mode, t) && HandedOut(t, Bar)
    requires r in t.log && r.Normal? && r.fs
    ensures t.orig.Some? && t.orig.value.Normal? && t.orig.value.fs && t.orig.value.hard && t.orig.value in t.log
    ensures r.id < t.orig.value.id ==> r in t.done
  {
    ReachableInv(mode, t);
    BarrierKnown(t, t.base);
    LogKnown(t, r);
    EpochsGrow(t.log, t.bars, r, t.bars[t.base]);
    assert Somewhere(t, t.log[r.id]);
    assert r in t.queue ==> Weight(t.base, r) >= 8 * t.base + 2;
  }

  /** While a barrier is waiting or its sequence is running, no file-system request
      submitted after it is handed out. */
  lemma NothingPassesABarrier(mode: Mode, t: State, b: Rq, r: Rq)
    requires Reachable(mode, t)
    requires b in t.log && b.Normal? && b.fs && b.hard && b !in t.done
    requires r.Normal? && r.fs && HandedOut(t, r)
    ensures r in t.log && r.id < b.id
  {
    ReachableInv(mode, t);
    LogKnown(t, b);
    EpochsGrow(t.log, t.bars, b, r);
    assert Somewhere(t, t.log[b.id]);
  }

  /** Requests end in barrier order: when a barrier has ended, exactly the file-system
      requests submitted before it have ended before it. */
  lemma EndsInBarrierOrder(mode: Mode, t: State, q: nat, r: Rq)
    requires Reachable(mode, t)
    requires q < |t.done| && t.done[q].Normal? && t.done[q].fs && t.done[q].hard
    requires r in t.log && r.Normal? && r.fs && r != t.done[q]
    ensures r.id < t.done[q].id <==> r in t.done[..q]
  {
    ReachableInv(mode, t);
    var b := t.done[q];
    assert b in t.done;
    LogKnown(t, r);
    EpochsGrow(t.log, t.bars, r, b);
    EpochsGrow(t.log, t.bars, b, r);
    if r.id < b.id {
      assert Somewhere(t, t.log[r.id]);
      EndedIfOld(t, r);
      var p :| 0 <= p < |t.done| && t.done[p] == r;
      assert q < p ==> InBarrierOrder(t.done[q], t.done[p]);
      assert r == t.done[..q][p];
    } else {
      assert forall p :: 0 <= p < q ==> (InBarrierOrder(t.done[p], t.done[q]) ==> t.done[p].id < b.id);
    }
  }

  lemma EndedIfOld(t: State, r: Rq)
    requires Inv(t) && r.Normal? && r.fs && Somewhere(t, r) && r.epoch < t.base
    ensures r in t.done
  {
  }

  /** Every request submitted is in exactly one place, and ends at most once. */
  lemma ExactlyOnePlace(mode: Mode, t: State, r: Rq)
    requires Reachable(mode, t) && r in t.log
    ensures One(r in t.sched) + One(r in t.queue) + One(r in t.flight) + One(r in t.special)
            + One(t.orig == Some(r)) + One(r in t.done) == 1
    ensures multiset(t.done)[r] <= 1
  {
    ReachableInv(mode, t);
    LogKnown(t, r);
    assert Somewhere(t, t.log[r.id]);
    AtMostOnce(t.done, r);
  }

  lemma {:induction false} AtMostOnce(q: seq<Rq>, r: Rq)
    requires NoDup(q)
    ensures multiset(q)[r] <= 1
  {
    if q != [] {
      AtMostOnce(q[1..], r);
      assert q == [q[0]] + q[1..];
      if q[0] == r { assert r !in q[1..]; }
    }
  }

  /** A proxy in the driver's hands stands for the current phase, so its completion
      finds its bit clear and every earlier bit set. */
  lemma PhasesInOrder(mode: Mode, t: State, r: Rq)
    requires Reachable(mode, t) && !r.Normal? && HandedOut(t, r)
    ensures Active(t) && CurSeq(t.ordseq) == PhaseOf(r)
  {
    ReachableInv(mode, t);
    PhaseIsCurrent(t, r);
  }

  lemma PhaseIsCurrent(t: State, r: Rq)
    requires Inv(t) && !r.Normal? && HandedOut(t, r)
    ensures Active(t) && CurSeq(t.ordseq) == PhaseOf(r)
  {
    assert r in t.queue || r in t.flight || r in t.special;
  }

  /** The first entry of the queue exists whenever elv_completed_request looks at it. */
  lemma DrainLooksAtAQueue(mode: Mode, t: State)
    requires Reachable(mode, t) && CurSeq(t.ordseq) == ORDSEQ_DRAIN
    ensures Bar in t.queue
  {
    ReachableInv(mode, t);
  }

  /** The queue never hangs: when the driver holds nothing and something is queued, or
      a sequence is running, the next request is handed out. */
  lemma NoDeadlock(mode: Mode, t: State)
    requires Reachable(mode, t) && t.flight == {} && t.special == {}
    requires Active(t) || t.queue != []
    ensures t.queue != [] && Enabled(t, SPeek) && DoOrdered(t).1.Give?
  {
    ReachableInv(mode, t);
    GivesWhenIdle(t);
  }

  lemma GivesWhenIdle(t: State)
    requires Inv(t) && t.flight == {} && t.special == {}
    requires Active(t) || t.queue != []
    ensures t.queue != [] && Enabled(t, SPeek) && DoOrdered(t).1.Give?
  {
    if Active(t) {
      assert t.queue != [];
      assert t.queue[0] in t.queue;
      HeadActive(t);
      if t.ordseq.drain && Tracked(t.queue[0]) { CurrentProxyFirst(t); }
    } else {
      assert t.queue[0] in t.queue;
      if IsBarrier(t.queue[0]) { HeadIdle(t); }
    }
  }

  lemma CurrentProxyFirst(t: State)
    requires Inv(t) && Active(t) && t.ordseq.drain && t.flight == {} && t.special == {}
    requires t.queue != [] && Tracked(t.queue[0])
    ensures MayGive(t, t.queue[0])
  {
    var r := if !t.ordseq.preflush then PreFlush else if !t.ordseq.bar then Bar else PostFlush;
    assert r in t.queue;
    var i :| 0 <= i < |t.queue| && t.queue[i] == r;
    assert i > 0 ==> Weight(t.base, t.queue[0]) <= Weight(t.base, t.queue[i]);
    assert t.queue[0] in t.queue;
  }
}
