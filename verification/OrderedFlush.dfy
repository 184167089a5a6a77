/**
 Cache flushes.  The history of a run records when the sequence of a barrier begins, and with
 which mode, what the driver is shown, and what ends.  Over all runs the flushes that the mode
 asks for, and no others, take place, each once and in its turn.
 */
module OrderedFlush {
  import opened Common
  import opened Ordered
  import opened OrderedInvariant
  import opened OrderedSafety

  datatype Event = Begun(barrier: Rq, mode: Mode) | Shown(rq: Rq) | Ended(rq: Rq)

  // ----- the history of a run -----

  /** The requests that end in a step, as events. */
  ghost function Finished(before: seq<Rq>, after: seq<Rq>): seq<Event> {
    if |before| < |after|
    then seq(|after| - |before|, i requires 0 <= i < |after| - |before| => Ended(after[|before| + i]))
    else []
  }

  /** What elv_next_request does is seen from outside: a barrier at the head begins its sequence
      unless the mode is NONE; the driver is shown a request; a place holder that is given but
      not shown ends. */
  ghost function PeekEvents(s: State): seq<Event>
    requires Enabled(s, SPeek)
  {
    (if !Active(s) && IsBarrier(s.queue[0]) && s.mode.Ordering? then [Begun(s.queue[0], s.mode)] else []) +
    (if Peek(s).1.Some? then [Shown(Peek(s).1.value)] else if DoOrdered(s).1 == Give(Bar) then [Ended(Bar)] else []) +
    Finished(s.done, Peek(s).0.done)
  }

  ghost function Events(s: State, step: Step): seq<Event>
    requires Enabled(s, step)
  {
    match step
    case SPeek => PeekEvents(s)
    case SEnd(r) => (if r.Normal? then [] else [Ended(r)]) + Finished(s.done, End(s, r).done)
    case _ => []
  }

  ghost function History(s: State, run: seq<Step>): seq<Event>
    decreases |run|
  {
    if run == [] || !Enabled(s, run[0]) then [] else Events(s, run[0]) + History(Apply(s, run[0]), run[1..])
  }

  // ----- what the mode asks for -----

  /** A barrier with data is followed by a flush if the mode has a post-flush. */
  predicate WantsPost(b: Rq, m: Mode) {
    b.Normal? && m.Ordering? && m.postflush && !b.empty
  }

  predicate WantsPre(m: Mode) {
    m.Ordering? && m.preflush
  }

  /** The sequence of a barrier, from its begin to its end. */
  function Script(b: Rq, m: Mode): seq<Event> {
    [Begun(b, m)] + (if WantsPre(m) then [Ended(PreFlush)] else []) + [Ended(Bar)] +
    (if WantsPost(b, m) then [Ended(PostFlush)] else []) + [Ended(b)]
  }

  function Scripts(bars: seq<Rq>, modes: seq<Mode>): seq<Event>
    requires |bars| <= |modes|
    decreases |bars|
  {
    if bars == [] then []
    else
      var n := |bars| - 1;
      Scripts(bars[..n], modes) + Script(bars[n], modes[n])
  }

  predicate IsMilestone(e: Event) {
    match e
    case Begun(_, _) => true
    case Shown(_) => false
    case Ended(r) => !r.Normal? || IsBarrier(r)
  }

  /** The events of barriers and their proxies. */
  function Milestones(h: seq<Event>): seq<Event> {
    if h == [] then []
    else Milestones(h[..|h| - 1]) + if IsMilestone(h[|h| - 1]) then [h[|h| - 1]] else []
  }

  /** The modes with which sequences began. */
  function Modes(h: seq<Event>): seq<Mode> {
    if h == [] then []
    else Modes(h[..|h| - 1]) + if h[|h| - 1].Begun? then [h[|h| - 1].mode] else []
  }

  lemma {:induction false} Snoc(h: seq<Event>, e: Event)
    ensures Milestones(h + [e]) == Milestones(h) + if IsMilestone(e) then [e] else []
    ensures Modes(h + [e]) == Modes(h) + if e.Begun? then [e.mode] else []
  {
    assert (h + [e])[..|h|] == h;
  }

  lemma {:induction false} ScriptsAgree(bars: seq<Rq>, a: seq<Mode>, b: seq<Mode>)
    requires |bars| <= |a| && |bars| <= |b| && a[..|bars|] == b[..|bars|]
    ensures Scripts(bars, a) == Scripts(bars, b)
    decreases |bars|
  {
    if bars != [] {
      var n := |bars| - 1;
      assert a[..n] == a[..|bars|][..n] == b[..|bars|][..n] == b[..n];
      assert a[n] == a[..|bars|][n] == b[..|bars|][n] == b[n];
      ScriptsAgree(bars[..n], a, b);
    }
  }

  /** The sequence that has begun last. */
  function Current(h: seq<Event>): Option<Event> {
    if h == [] then None else if h[|h| - 1].Begun? then Some(h[|h| - 1]) else Current(h[..|h| - 1])
  }

  lemma {:induction false} CurrentSnoc(h: seq<Event>, e: Event)
    ensures Current(h + [e]) == if e.Begun? then Some(e) else Current(h)
  {
    assert (h + [e])[..|h|] == h;
  }

  // ----- what the history says of a state -----

  /** How far the sequence of barrier b has come. */
  function Part(b: Rq, m: Mode, o: OrdSeq): seq<Event> {
    [Begun(b, m)] + (if WantsPre(m) && o.preflush then [Ended(PreFlush)] else []) +
    (if o.bar then [Ended(Bar)] else []) + (if WantsPost(b, m) && o.postflush then [Ended(PostFlush)] else [])
  }

  /** The bits of flushes that are not asked for are set from the start, the others in order. */
  predicate BitsFit(b: Rq, m: Mode, o: OrdSeq) {
    m.Ordering? && (!WantsPre(m) ==> o.preflush) && (o.bar ==> o.preflush) && (!WantsPost(b, m) ==> o.postflush) &&
    (WantsPost(b, m) && o.postflush ==> o.bar)
  }

  /** The ended barriers have had their sequences, and the running one is as far as its bits. */
  ghost predicate SequencesTold(s: State, h: seq<Event>) {
    s.base <= |s.bars| && |Modes(h)| == s.base + One(Active(s)) &&
    if Active(s) then
      s.orig.Some? && Current(h) == Some(Begun(s.orig.value, Modes(h)[s.base])) &&
      BitsFit(s.orig.value, Modes(h)[s.base], s.ordseq) &&
      Milestones(h) == Scripts(s.bars[..s.base], Modes(h)) + Part(s.orig.value, Modes(h)[s.base], s.ordseq)
    else Milestones(h) == Scripts(s.bars[..s.base], Modes(h))
  }

  ghost predicate DoneTold(s: State, h: seq<Event>) {
    forall r :: r in s.done ==> Ended(r) in h
  }

  /** Every file-system request that was submitted before b has ended. */
  ghost predicate EarlierEnded(log: seq<Rq>, b: Rq, h: seq<Event>) {
    b.Normal? && b.id < |log| && forall i :: 0 <= i < b.id && log[i].Normal? && log[i].fs ==> Ended(log[i]) in h
  }

  /** The milestone that a proxy has to wait for. */
  function Due(r: Rq, b: Rq, m: Mode): Event {
    match r
    case Bar => if WantsPre(m) then Ended(PreFlush) else Begun(b, m)
    case PostFlush => Ended(Bar)
    case _ => Begun(b, m)
  }

  /** The proxy r of barrier b may be shown or end after history h: the mode asks for it, every
      earlier request has ended, and so has the phase before. */
  ghost predicate InTurn(log: seq<Rq>, h: seq<Event>, r: Rq, b: Rq, m: Mode) {
    && EarlierEnded(log, b, h)
    && (r.PreFlush? ==> WantsPre(m)) && (r.PostFlush? ==> WantsPost(b, m))
    && Milestones(h) != [] && Milestones(h)[|Milestones(h)| - 1] == Due(r, b, m)
  }

  ghost predicate ProxyInTurn(log: seq<Rq>, h: seq<Event>, e: Event) {
    (e.Shown? || e.Ended?) && !e.rq.Normal? ==>
      Current(h).Some? && Current(h).value.Begun? &&
      InTurn(log, h, e.rq, Current(h).value.barrier, Current(h).value.mode)
  }

  ghost predicate AllInTurn(log: seq<Rq>, h: seq<Event>) {
    forall p :: 0 <= p < |h| ==> ProxyInTurn(log, h[..p], h[p])
  }

  ghost predicate Told(s: State, h: seq<Event>) {
    SequencesTold(s, h) && DoneTold(s, h) && AllInTurn(s.log, h)
  }

  // ----- appending one event -----

  lemma {:induction false} TurnSnoc(log: seq<Rq>, h: seq<Event>, e: Event)
    requires AllInTurn(log, h) && ProxyInTurn(log, h, e)
    ensures AllInTurn(log, h + [e])
  {
    var g := h + [e];
    forall p | 0 <= p < |g| ensures ProxyInTurn(log, g[..p], g[p]) {
      assert g[..p] == if p < |h| then h[..p] else h;
    }
  }

  lemma {:induction false} TurnGrows(log: seq<Rq>, h: seq<Event>, e: Event, more: seq<Rq>)
    requires ProxyInTurn(log, h, e)
    ensures ProxyInTurn(log + more, h, e)
  {
    if (e.Shown? || e.Ended?) && !e.rq.Normal? {
      var b := Current(h).value.barrier;
      forall i | 0 <= i < b.id && (log + more)[i].Normal? && (log + more)[i].fs ensures Ended((log + more)[i]) in h {
        assert (log + more)[i] == log[i];
      }
    }
  }

  lemma {:induction false} TurnsGrow(log: seq<Rq>, h: seq<Event>, more: seq<Rq>)
    requires AllInTurn(log, h)
    ensures AllInTurn(log + more, h)
  {
    forall p | 0 <= p < |h| ensures ProxyInTurn(log + more, h[..p], h[p]) { TurnGrows(log, h[..p], h[p], more); }
  }

  /** Two states whose sequences are equally far. */
  predicate AsFar(s: State, t: State) {
    t.base == s.base && s.base <= |s.bars| && s.base <= |t.bars| && t.bars[..s.base] == s.bars[..s.base] &&
    t.orig == s.orig && Active(t) == Active(s) &&
    t.ordseq.(drain := true) == s.ordseq.(drain := true)
  }

  /** A step without events. */
  lemma {:induction false} SilentTold(s: State, t: State, h: seq<Event>)
    requires Told(s, h) && AsFar(s, t) && t.done == s.done && |s.log| <= |t.log| && t.log[..|s.log|] == s.log
    ensures Told(t, h)
  {
    assert t.log == s.log + t.log[|s.log|..];
    TurnsGrow(s.log, h, t.log[|s.log|..]);
  }

  lemma {:induction false} DoneSnoc(s: State, t: State, h: seq<Event>, e: Event)
    requires DoneTold(s, h) && forall r :: r in t.done ==> r in s.done || e == Ended(r)
    ensures DoneTold(t, h + [e])
  {
    assert e in h + [e];
    forall r | r in t.done ensures Ended(r) in h + [e] { assert r in s.done ==> Ended(r) in h; }
  }

  lemma {:induction false} PlainSequences(s: State, t: State, h: seq<Event>, e: Event)
    requires SequencesTold(s, h) && AsFar(s, t) && !IsMilestone(e)
    ensures SequencesTold(t, h + [e])
  {
    Snoc(h, e);
    CurrentSnoc(h, e);
    assert Milestones(h + [e]) == Milestones(h) && Modes(h + [e]) == Modes(h) && Current(h + [e]) == Current(h);
  }

  /** An event that is no milestone. */
  lemma {:induction false} PlainTold(s: State, t: State, h: seq<Event>, e: Event)
    requires Told(s, h) && AsFar(s, t) && t.log == s.log && !IsMilestone(e) && ProxyInTurn(s.log, h, e)
    requires forall r :: r in t.done ==> r in s.done || e == Ended(r)
    ensures Told(t, h + [e])
  {
    PlainSequences(s, t, h, e);
    TurnSnoc(s.log, h, e);
    DoneSnoc(s, t, h, e);
  }

  // ----- the sequence begins, goes on and ends -----

  lemma {:induction false} BegunTold(s: State, t: State, h: seq<Event>, b: Rq, m: Mode)
    requires Told(s, h) && !Active(s) && Active(t) && t.orig == Some(b) && t.base == s.base && t.bars == s.bars
    requires t.log == s.log && t.done == s.done && BitsFit(b, m, t.ordseq) && Part(b, m, t.ordseq) == [Begun(b, m)]
    ensures Told(t, h + [Begun(b, m)])
  {
    var e := Begun(b, m);
    Snoc(h, e);
    CurrentSnoc(h, e);
    TurnSnoc(s.log, h, e);
    var bars := s.bars[..s.base];
    assert Modes(h)[..|bars|] == (Modes(h) + [m])[..|bars|];
    ScriptsAgree(bars, Modes(h), Modes(h) + [m]);
  }

  lemma {:induction false} PhasePart(b: Rq, m: Mode, o: OrdSeq, r: Rq, o': OrdSeq)
    requires BitsFit(b, m, o) && !r.Normal? && o.started && o.drain && CurSeq(o) == PhaseOf(r)
    requires o' == o.(preflush := o.preflush || r.PreFlush?, bar := o.bar || r.Bar?,
                      postflush := o.postflush || r.PostFlush?)
    ensures BitsFit(b, m, o') && Part(b, m, o') == Part(b, m, o) + [Ended(r)]
    ensures (r.PreFlush? ==> WantsPre(m)) && (r.PostFlush? ==> WantsPost(b, m))
    ensures var p := Part(b, m, o); p[|p| - 1] == Due(r, b, m)
  {
  }

  /** One more phase of the running sequence has ended. */
  predicate PhaseEnded(s: State, t: State, r: Rq) {
    && Active(s) && t.base == s.base && t.bars == s.bars && t.orig == s.orig && t.log == s.log && t.done == s.done
    && !r.Normal? && s.ordseq.drain && CurSeq(s.ordseq) == PhaseOf(r)
    && t.ordseq == s.ordseq.(preflush := s.ordseq.preflush || r.PreFlush?, bar := s.ordseq.bar || r.Bar?,
                             postflush := s.ordseq.postflush || r.PostFlush?)
  }

  /** By the time that a proxy's phase has come, it is in turn. */
  lemma {:induction false} PhaseInTurn(s: State, h: seq<Event>, r: Rq)
    requires Told(s, h) && Active(s) && !r.Normal? && s.ordseq.drain && CurSeq(s.ordseq) == PhaseOf(r)
    requires EarlierEnded(s.log, s.orig.value, h)
    ensures ProxyInTurn(s.log, h, Shown(r)) && ProxyInTurn(s.log, h, Ended(r))
  {
    var b, m, o := s.orig.value, Modes(h)[s.base], s.ordseq;
    PhasePart(b, m, o, r, o.(preflush := o.preflush || r.PreFlush?, bar := o.bar || r.Bar?,
                             postflush := o.postflush || r.PostFlush?));
    var a, p := Scripts(s.bars[..s.base], Modes(h)), Part(b, m, o);
    assert (a + p)[|a + p| - 1] == p[|p| - 1];
  }

  lemma {:induction false} PhaseSequences(s: State, t: State, h: seq<Event>, r: Rq)
    requires SequencesTold(s, h) && PhaseEnded(s, t, r)
    ensures SequencesTold(t, h + [Ended(r)])
  {
    var b, m := s.orig.value, Modes(h)[s.base];
    Snoc(h, Ended(r));
    CurrentSnoc(h, Ended(r));
    PhasePart(b, m, s.ordseq, r, t.ordseq);
    assert Modes(h + [Ended(r)]) == Modes(h);
    var a := Scripts(s.bars[..s.base], Modes(h));
    assert Milestones(h + [Ended(r)]) == a + Part(b, m, s.ordseq) + [Ended(r)] == a + Part(b, m, t.ordseq);
  }

  lemma {:induction false} PhaseTold(s: State, t: State, h: seq<Event>, r: Rq)
    requires Told(s, h) && PhaseEnded(s, t, r) && EarlierEnded(s.log, s.orig.value, h)
    ensures Told(t, h + [Ended(r)])
  {
    PhaseInTurn(s, h, r);
    PhaseSequences(s, t, h, r);
    TurnSnoc(s.log, h, Ended(r));
    DoneSnoc(s, t, h, Ended(r));
  }

  lemma {:induction false} ScriptDone(b: Rq, m: Mode, o: OrdSeq)
    requires BitsFit(b, m, o) && o.preflush && o.bar && o.postflush
    ensures Part(b, m, o) + [Ended(b)] == Script(b, m)
  {
  }

  lemma {:induction false} ScriptsSnoc(bars: seq<Rq>, n: nat, modes: seq<Mode>)
    requires n < |bars| && n < |modes|
    ensures Scripts(bars[..n + 1], modes) == Scripts(bars[..n], modes) + Script(bars[n], modes[n])
  {
    assert bars[..n + 1][..n] == bars[..n];
  }

  lemma {:induction false} FinishSequences(s: State, h: seq<Event>, e: Event)
    requires SequencesTold(s, h) && Active(s) && CurSeq(s.ordseq) == ORDSEQ_DONE && s.base < |s.bars|
    requires s.orig == Some(s.bars[s.base]) && IsBarrier(s.bars[s.base]) && e == Ended(s.bars[s.base])
    ensures SequencesTold(Finish(s), h + [e])
  {
    var b, m := s.orig.value, Modes(h)[s.base];
    Snoc(h, e);
    assert Modes(h + [e]) == Modes(h);
    ScriptDone(b, m, s.ordseq);
    ScriptsSnoc(s.bars, s.base, Modes(h));
    var a := Scripts(s.bars[..s.base], Modes(h));
    assert Milestones(h + [e]) == a + Part(b, m, s.ordseq) + [e] == a + Script(b, m);
  }

  /** The last phase is over, and the barrier ends. */
  lemma {:induction false} FinishTold(s: State, h: seq<Event>)
    requires Told(s, h) && Active(s) && CurSeq(s.ordseq) == ORDSEQ_DONE && s.base < |s.bars|
    requires s.orig == Some(s.bars[s.base]) && IsBarrier(s.bars[s.base]) && s.bars[s.base].Normal?
    ensures Told(Finish(s), h + [Ended(s.orig.value)])
  {
    var e := Ended(s.orig.value);
    FinishSequences(s, h, e);
    TurnSnoc(s.log, h, e);
    DoneSnoc(s, Finish(s), h, e);
  }

  // ----- the steps -----

  /** Once the drain is over, every earlier request has ended. */
  lemma {:induction false} EarlierDone(s: State, h: seq<Event>)
    requires Inv(s) && DoneTold(s, h) && Active(s) && s.ordseq.drain
    ensures EarlierEnded(s.log, s.orig.value, h)
  {
    BarrierKnown(s, s.base);
    forall i | 0 <= i < s.orig.value.id && s.log[i].Normal? && s.log[i].fs ensures Ended(s.log[i]) in h {
      DrainedDone(s, s.log[i]);
    }
  }

  lemma {:induction false} DrainedDone(s: State, r: Rq)
    requires Inv(s) && Active(s) && s.ordseq.drain && r.Normal? && r.fs && r in s.log && r.id < s.bars[s.base].id
    ensures r in s.done
  {
    BarrierKnown(s, s.base);
    LogKnown(s, r);
    EpochsGrow(s.log, s.bars, r, s.bars[s.base]);
    assert Somewhere(s, s.log[r.id]);
    assert r in s.queue ==> Weight(s.base, r) >= 8 * s.base + 2;
  }

  lemma {:induction false} FinishedNone(done: seq<Rq>)
    ensures Finished(done, done) == []
  {
  }

  lemma {:induction false} FinishedOne(done: seq<Rq>, r: Rq)
    ensures Finished(done, done + [r]) == [Ended(r)]
  {
  }

  /** A phase ends, and with the last one the barrier: s before, u after, t with the end. */
  lemma {:induction false} PhaseOrFinish(s: State, u: State, t: State, h: seq<Event>, r: Rq)
    requires Told(s, h) && PhaseEnded(s, u, r) && EarlierEnded(s.log, s.orig.value, h)
    requires s.base < |s.bars| && s.orig == Some(s.bars[s.base]) && IsBarrier(s.bars[s.base]) && s.bars[s.base].Normal?
    requires t == if CurSeq(u.ordseq) == ORDSEQ_DONE then Finish(u) else u
    ensures Told(t, h + ([Ended(r)] + Finished(s.done, t.done)))
  {
    PhaseTold(s, u, h, r);
    var g := h + [Ended(r)];
    if CurSeq(u.ordseq) == ORDSEQ_DONE {
      FinishTold(u, g);
      FinishedOne(s.done, s.orig.value);
      assert h + ([Ended(r)] + [Ended(s.orig.value)]) == g + [Ended(s.orig.value)];
    } else {
      FinishedNone(s.done);
      assert h + ([Ended(r)] + []) == g;
    }
  }

  /** What the invariant says of the running sequence. */
  lemma {:induction false} RunningBarrier(s: State, h: seq<Event>)
    requires Inv(s) && DoneTold(s, h) && Active(s)
    ensures s.base < |s.bars| && s.orig == Some(s.bars[s.base]) && IsBarrier(s.bars[s.base]) && s.bars[s.base].Normal?
    ensures s.ordseq.drain ==> EarlierEnded(s.log, s.orig.value, h)
  {
    BarrierKnown(s, s.base);
    if s.ordseq.drain { EarlierDone(s, h); }
  }

  lemma {:induction false} EndProxyTold(s: State, h: seq<Event>, r: Rq)
    requires Inv(s) && Told(s, h) && Enabled(s, SEnd(r)) && !r.Normal?
    ensures Told(End(s, r), h + Events(s, SEnd(r)))
  {
    PhaseIsCurrent(s, r);
    ProxyEndedSequence(s, r);
    EndIsProxyEnded(s, r);
    RunningBarrier(s, h);
    PhaseOrFinish(s, ProxyEnded(s, r), End(s, r), h, r);
  }

  lemma {:induction false} CompletedKeeps(s: State)
    requires Core(s) && (Active(s) ==> CurSeq(s.ordseq) != ORDSEQ_DONE)
    ensures AsFar(s, Completed(s, false)) && Completed(s, false).log == s.log && Completed(s, false).done == s.done
  {
  }

  lemma {:induction false} EndKeeps(s: State, r: Rq)
    requires Inv(s) && Enabled(s, SEnd(r)) && r.Normal?
    ensures !IsBarrier(r) && AsFar(s, End(s, r)) && End(s, r).log == s.log && End(s, r).done == s.done + [r]
  {
    ReleasedCore(s, r);
    EndIsReleased(s, r);
    CompletedKeeps(Released(s, r));
  }

  lemma {:induction false} EndNormalTold(s: State, h: seq<Event>, r: Rq)
    requires Inv(s) && Told(s, h) && Enabled(s, SEnd(r)) && r.Normal?
    ensures Told(End(s, r), h + Events(s, SEnd(r)))
  {
    EndKeeps(s, r);
    FinishedOne(s.done, r);
    assert [] + [Ended(r)] == [Ended(r)];
    PlainTold(s, End(s, r), h, Ended(r));
  }

  /** The events of handing out the head of the queue. */
  ghost function GivenEvents(s: State): seq<Event>
    requires WellFormed(s) && Active(s) && s.queue != []
  {
    (if s.queue[0].Bar? && s.orig.value.empty then [Ended(Bar)] else [Shown(s.queue[0])]) +
    Finished(s.done, Given(s).done)
  }

  /** A proxy that may be given has its phase now. */
  lemma {:induction false} GivenPhase(s: State)
    requires Inv(s) && Active(s) && s.queue != [] && MayGive(s, s.queue[0]) && !s.queue[0].Normal?
    ensures s.ordseq.drain && CurSeq(s.ordseq) == PhaseOf(s.queue[0])
  {
    assert s.queue[0] in s.queue;
  }

  lemma {:induction false} ShownTold(s: State, h: seq<Event>, r: Rq)
    requires Told(s, h) && ProxyInTurn(s.log, h, Shown(r))
    ensures Told(s.(peeked := s.peeked + {r}), h + ([Shown(r)] + Finished(s.done, s.done)))
  {
    FinishedNone(s.done);
    assert [Shown(r)] + [] == [Shown(r)];
    PlainTold(s, s.(peeked := s.peeked + {r}), h, Shown(r));
  }

  lemma {:induction false} EmptyBarTold(s: State, h: seq<Event>, w: seq<Rq>, t: State)
    requires Inv(s) && Told(s, h) && Active(s) && s.ordseq.drain && CurSeq(s.ordseq) == ORDSEQ_BAR
    requires t == var u := BarGone(s, w); if CurSeq(u.ordseq) == ORDSEQ_DONE then Finish(u) else u
    ensures Told(t, h + ([Ended(Bar)] + Finished(s.done, t.done)))
  {
    RunningBarrier(s, h);
    PhaseOrFinish(s, BarGone(s, w), t, h, Bar);
  }

  lemma {:induction false} GivenTold(s: State, h: seq<Event>)
    requires Inv(s) && Told(s, h) && Active(s) && s.queue != [] && MayGive(s, s.queue[0])
    ensures Told(Given(s), h + GivenEvents(s))
  {
    var r := s.queue[0];
    if !r.Normal? { GivenPhase(s); }
    if r.Bar? && s.orig.value.empty {
      EmptyBarIsGone(s, Without(s.queue, r));
      EmptyBarTold(s, h, Without(s.queue, r), Given(s));
    } else {
      if !r.Normal? {
        RunningBarrier(s, h);
        PhaseInTurn(s, h, r);
      }
      ShownTold(s, h, r);
    }
  }

  lemma {:induction false} StartTold(s: State, h: seq<Event>)
    requires Inv(s) && Told(s, h) && !Active(s) && s.queue != [] && IsBarrier(s.queue[0]) && s.mode.Ordering?
    requires s.queue[0].Normal?
    ensures Told(StartOrdered(s), h + [Begun(s.queue[0], s.mode)])
  {
    BegunTold(s, StartOrdered(s), h, s.queue[0], s.mode);
  }

  lemma {:induction false} PeekStartedIs(s: State, s1: State)
    requires Enabled(s, SPeek) && !Active(s) && IsBarrier(s.queue[0]) && s.mode.Ordering? && s1 == StartOrdered(s)
    ensures Active(s1) && WellFormed(s1) && s1.queue != [] && s1.done == s.done
    ensures s1.ordseq.drain ==> Peek(s).0 == Given(s1) && PeekEvents(s) == [Begun(s.queue[0], s.mode)] + GivenEvents(s1)
    ensures !s1.ordseq.drain ==> Peek(s).0 == s1 && PeekEvents(s) == [Begun(s.queue[0], s.mode)]
  {
    FinishedNone(s.done);
  }

  lemma {:induction false} PeekStarted(s: State, h: seq<Event>)
    requires Inv(s) && Told(s, h) && Enabled(s, SPeek) && !Active(s) && IsBarrier(s.queue[0]) && s.mode.Ordering?
    ensures Told(Peek(s).0, h + PeekEvents(s))
  {
    var s1, e := StartOrdered(s), Begun(s.queue[0], s.mode);
    PeekStartedIs(s, s1);
    StartTold(s, h);
    StartInv(s);
    if s1.ordseq.drain { StartedGiven(s1, h, e, h + PeekEvents(s)); }
  }

  lemma {:induction false} StartedGiven(s: State, h: seq<Event>, e: Event, k: seq<Event>)
    requires Inv(s) && Told(s, h + [e]) && Active(s) && s.queue != [] && MayGive(s, s.queue[0])
    requires k == h + ([e] + GivenEvents(s))
    ensures Told(Given(s), k)
  {
    var g := h + [e];
    assert k == g + GivenEvents(s);
    GivenTold(s, g);
  }

  lemma {:induction false} PeekRunningIs(s: State)
    requires Enabled(s, SPeek) && Active(s) && !(s.mode.Ordering? && s.mode.tag)
    ensures DoOrdered(s).1.Give? ==> Peek(s).0 == Given(s) && PeekEvents(s) == GivenEvents(s)
    ensures !DoOrdered(s).1.Give? ==> Peek(s).0 == s && PeekEvents(s) == []
  {
    FinishedNone(s.done);
    assert s.queue[0] in s.queue;
    var e: seq<Event> := if s.queue[0].Bar? && s.orig.value.empty then [Ended(Bar)] else [Shown(s.queue[0])];
    assert [] + e == e;
  }

  lemma {:induction false} RunningGives(s: State)
    requires Inv(s) && Enabled(s, SPeek) && Active(s) && DoOrdered(s).1.Give?
    ensures MayGive(s, s.queue[0])
  {
    HeadActive(s);
  }

  lemma {:induction false} PeekRunning(s: State, h: seq<Event>)
    requires Inv(s) && Told(s, h) && Enabled(s, SPeek) && Active(s)
    ensures Told(Peek(s).0, h + PeekEvents(s))
  {
    PeekRunningIs(s);
    if DoOrdered(s).1.Give? {
      RunningGives(s);
      GivenTold(s, h);
    } else {
      assert h + [] == h;
    }
  }

  lemma {:induction false} IdleMode(s: State)
    requires Inv(s) && Enabled(s, SPeek) && !Active(s) && IsBarrier(s.queue[0])
    ensures s.mode.Ordering?
  {
    HeadIdle(s);
  }

  lemma {:induction false} PeekPlainIs(s: State)
    requires Enabled(s, SPeek) && !Active(s) && !IsBarrier(s.queue[0])
    ensures Peek(s).0 == s.(peeked := s.peeked + {s.queue[0]})
    ensures PeekEvents(s) == [Shown(s.queue[0])] + Finished(s.done, s.done)
  {
    assert [] + [Shown(s.queue[0])] == [Shown(s.queue[0])];
  }

  lemma {:induction false} PeekTold(s: State, h: seq<Event>)
    requires Inv(s) && Told(s, h) && Enabled(s, SPeek)
    ensures Told(Peek(s).0, h + PeekEvents(s))
  {
    if Active(s) {
      PeekRunning(s, h);
    } else if IsBarrier(s.queue[0]) {
      IdleMode(s);
      PeekStarted(s, h);
    } else {
      PeekPlainIs(s);
      ShownTold(s, h, s.queue[0]);
    }
  }

  lemma {:induction false} SilentStep(s: State, step: Step)
    requires s.base <= |s.bars| && Enabled(s, step) && !step.SPeek? && !step.SEnd?
    ensures Events(s, step) == [] && AsFar(s, Apply(s, step)) && Apply(s, step).done == s.done
    ensures var t := Apply(s, step); |s.log| <= |t.log| && t.log[..|s.log|] == s.log
  {
  }

  /** Invariant and history of a state; folded for the induction over a run. */
  ghost predicate Tells(s: State, h: seq<Event>) {
    forall u {:trigger Open(u)} :: Open(u) ==> Inv(s) && Told(s, h)
  }

  lemma {:induction false} QuietTells(s: State, h: seq<Event>, step: Step)
    requires Tells(s, h) && Enabled(s, step) && Careful(ALL, s, step) && !step.SPeek? && !step.SEnd?
    ensures Tells(Apply(s, step), h + Events(s, step))
  {
    assert Open(true);
    StepInv(s, step);
    SilentStep(s, step);
    assert h + [] == h;
    SilentTold(s, Apply(s, step), h);
  }

  lemma {:induction false} PeekTells(s: State, h: seq<Event>)
    requires Tells(s, h) && Enabled(s, SPeek)
    ensures Tells(Apply(s, SPeek), h + Events(s, SPeek))
  {
    assert Open(true);
    StepInv(s, SPeek);
    PeekTold(s, h);
  }

  lemma {:induction false} EndTells(s: State, h: seq<Event>, r: Rq)
    requires Tells(s, h) && Enabled(s, SEnd(r))
    ensures Tells(Apply(s, SEnd(r)), h + Events(s, SEnd(r)))
  {
    assert Open(true);
    StepInv(s, SEnd(r));
    if r.Normal? { EndNormalTold(s, h, r); } else { EndProxyTold(s, h, r); }
  }

  lemma {:induction false} StepTells(s: State, h: seq<Event>, step: Step)
    requires Tells(s, h) && Enabled(s, step) && Careful(ALL, s, step)
    ensures Tells(Apply(s, step), h + Events(s, step))
  {
    if step.SPeek? { PeekTells(s, h); } else if step.SEnd? { EndTells(s, h, step.rq); } else { QuietTells(s, h, step); }
  }

  lemma {:induction false} RunTells(s: State, h: seq<Event>, run: seq<Step>, t: State)
    requires Tells(s, h) && Leads(ALL, s, run, t)
    ensures Tells(t, h + History(s, run))
    decreases |run|
  {
    if run == [] {
      assert h + History(s, run) == h;
    } else {
      var e, s1 := Events(s, run[0]), Apply(s, run[0]);
      StepTells(s, h, run[0]);
      RunTells(s1, h + e, run[1..], t);
      assert h + e + History(s1, run[1..]) == h + (e + History(s1, run[1..]));
    }
  }

  lemma {:induction false} NothingTold(s: State, h: seq<Event>)
    requires h == [] && s.base == 0 && !Active(s) && s.done == []
    ensures Told(s, h)
  {
    assert Milestones(h) == [] && Modes(h) == [] && s.bars[..s.base] == [];
  }

  lemma {:induction false} InitTells(s: State, h: seq<Event>, mode: Mode)
    requires s == Init(mode) && (mode.Ordering? ==> !mode.tag) && h == []
    ensures Tells(s, h)
  {
    assert Inv(s) by { InitInv(mode); }
    assert Told(s, h) by { NothingTold(s, h); }
  }

  lemma {:induction false} HistoryTells(mode: Mode, run: seq<Step>, t: State)
    requires (mode.Ordering? ==> !mode.tag) && Leads(ALL, Init(mode), run, t)
    ensures Tells(t, History(Init(mode), run))
  {
    InitTells(Init(mode), [], mode);
    RunTells(Init(mode), [], run, t);
    assert [] + History(Init(mode), run) == History(Init(mode), run);
  }

  lemma {:induction false} TellsTold(t: State, h: seq<Event>)
    requires Tells(t, h)
    ensures Inv(t) && Told(t, h)
  {
    assert Open(true);
  }

  lemma {:induction false} HistoryTold(mode: Mode, run: seq<Step>, t: State)
    requires (mode.Ordering? ==> !mode.tag) && Leads(ALL, Init(mode), run, t)
    ensures Inv(t) && Told(t, History(Init(mode), run))
  {
    HistoryTells(mode, run, t);
    TellsTold(t, History(Init(mode), run));
  }

  // ----- over all runs -----

  /** The barriers that have ended have had, in the order of their submission, exactly the
      sequences that their modes ask for; the running one has had a part of its sequence. */
  lemma {:induction false} FlushedAsAsked(mode: Mode, run: seq<Step>, t: State)
    requires (mode.Ordering? ==> !mode.tag) && Leads(ALL, Init(mode), run, t)
    ensures var h := History(Init(mode), run);
            t.base <= |t.bars| && |Modes(h)| == t.base + One(Active(t)) &&
            exists part :: Milestones(h) == Scripts(t.bars[..t.base], Modes(h)) + part &&
                           if Active(t) then t.orig.Some? && part <= Script(t.orig.value, Modes(h)[t.base])
                           else part == []
  {
    HistoryTold(mode, run, t);
    var h := History(Init(mode), run);
    if Active(t) {
      var m := Modes(h)[t.base];
      PartOf(t.orig.value, m, t.ordseq);
      assert Part(t.orig.value, m, t.ordseq) <= Script(t.orig.value, m);
    } else {
      assert Scripts(t.bars[..t.base], Modes(h)) + [] == Scripts(t.bars[..t.base], Modes(h));
    }
  }

  lemma {:induction false} PartOf(b: Rq, m: Mode, o: OrdSeq)
    requires BitsFit(b, m, o)
    ensures Part(b, m, o) <= Script(b, m)
  {
    if o.bar && !(WantsPost(b, m) && !o.postflush) {
      ScriptDone(b, m, o);
    }
  }

  /** A flush or barrier proxy is shown, and ends, only if the mode asks for it, when every
      earlier request has ended and the phase before it, if there is one, as well. */
  lemma {:induction false} ProxiesInTurn(mode: Mode, run: seq<Step>, t: State, p: nat)
    requires (mode.Ordering? ==> !mode.tag) && Leads(ALL, Init(mode), run, t)
    requires p < |History(Init(mode), run)|
    ensures var h := History(Init(mode), run); ProxyInTurn(t.log, h[..p], h[p])
  {
    HistoryTold(mode, run, t);
  }

  lemma {:induction false} ScriptsSplit(bars: seq<Rq>, base: nat, n: nat, modes: seq<Mode>)
    returns (a: seq<Event>, c: seq<Event>)
    requires n < base <= |bars| && base <= |modes|
    ensures Scripts(bars[..base], modes) == a + Script(bars[n], modes[n]) + c
    decreases base
  {
    ScriptsSnoc(bars, base - 1, modes);
    if n == base - 1 {
      a, c := Scripts(bars[..n], modes), [];
    } else {
      a, c := ScriptsSplit(bars, base - 1, n, modes);
      var x, y := Script(bars[n], modes[n]), Script(bars[base - 1], modes[base - 1]);
      assert a + x + c + y == a + x + (c + y);
      c := c + y;
    }
  }

  lemma {:induction false} EndedEpoch(t: State, b: Rq)
    requires Inv(t) && b in t.done && IsBarrier(b) && b.Normal?
    ensures b.epoch < t.base <= |t.bars| && b == t.bars[b.epoch]
  {
    SameBarrier(t, b);
  }

  lemma {:induction false} ToldSplit(t: State, h: seq<Event>, n: nat)
    returns (before: seq<Event>, after: seq<Event>)
    requires SequencesTold(t, h) && n < t.base
    ensures n < |Modes(h)| && Milestones(h) == before + Script(t.bars[n], Modes(h)[n]) + after
  {
    var modes := Modes(h);
    before, after := ScriptsSplit(t.bars, t.base, n, modes);
    if Active(t) {
      var part, x := Part(t.orig.value, modes[t.base], t.ordseq), Script(t.bars[n], modes[n]);
      assert before + x + after + part == before + x + (after + part);
      after := after + part;
    }
  }

  /** An ended barrier has had its whole sequence. */
  lemma {:induction false} EndedBarrierFlushed(mode: Mode, run: seq<Step>, t: State, b: Rq)
    returns (before: seq<Event>, m: Mode, after: seq<Event>)
    requires (mode.Ordering? ==> !mode.tag) && Leads(ALL, Init(mode), run, t)
    requires b in t.done && IsBarrier(b) && b.Normal?
    ensures Milestones(History(Init(mode), run)) == before + Script(b, m) + after
  {
    HistoryTold(mode, run, t);
    EndedEpoch(t, b);
    var h := History(Init(mode), run);
    before, after := ToldSplit(t, h, b.epoch);
    m := Modes(h)[b.epoch];
  }
}
