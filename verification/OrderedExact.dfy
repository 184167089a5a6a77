/**
 The barrier protocol is safe and live exactly with the care of Ordered.Care: without any of the
 three, there is a run that hangs and one in which a barrier overtakes a write.
 */
module OrderedExact {
  import opened Common
  import opened Ordered
  import opened OrderedSafety
  import opened OrderedStuck

  const DRAIN := Ordering(false, false, false)
  const DRAINING := OrdSeq(true, false, true, false, true)

  // the write A, submitted and taken by the driver

  const A := Normal(0, true, false, false, false, 0)
  const S0 := Init(DRAIN)
  const S1 := S0.(sched := {A}, log := [A])
  const S2 := S1.(sched := {}, queue := [A])
  const S3 := S2.(peeked := {A})
  const S4 := S1.(sched := {}, flight := {A}, inFlight := 1)

  const WRITE := SAdd(true, false, false, Sort)
  const BARRIER := SAdd(true, true, false, Back)
  const TAKEN := [WRITE, SDispatch(A, 0), SPeek, SDequeue(A)]

  lemma WriteSteps(care: Care)
    ensures Goes(care, S0, WRITE, S1) && Goes(care, S1, SDispatch(A, 0), S2)
    ensures Goes(care, S2, SPeek, S3) && Goes(care, S3, SDequeue(A), S4)
  {
  }

  lemma WriteTaken(care: Care)
    ensures Leads(care, S0, TAKEN, S4)
  {
    WriteSteps(care);
    FourSteps(care, S0, WRITE, S1, SDispatch(A, 0), S2, SPeek, S3, SDequeue(A), S4);
  }

  // ----- a special hard barrier toggles the colour while A is out -----

  const X := Normal(1, false, true, false, false, 0)
  const B := Normal(2, true, true, false, true, 0)
  const X5 := S4.(queue := [X], log := [A, X], ordcolor := true)
  const X6 := X5.(peeked := {X})
  const X7 := X5.(queue := [], special := {X})
  const X8 := X7.(special := {}, done := [X])
  const X9 := X8.(queue := [B], log := [A, X, B], bars := [B], ordcolor := false)
  const X10 := X9.(queue := [Bar], orig := Some(B), ordseq := DRAINING)
  const X11 := X10.(queue := [Bar, A], flight := {}, inFlight := 0)

  const SPECIAL := SAdd(false, true, false, Back)
  const TOGGLE := [SPECIAL, SPeek, SDequeue(X), SEnd(X)]

  lemma ToggleSteps(care: Care)
    requires !care.special
    ensures Goes(care, S4, SPECIAL, X5) && Goes(care, X5, SPeek, X6)
    ensures Goes(care, X6, SDequeue(X), X7) && Goes(care, X7, SEnd(X), X8)
  {
  }

  lemma DrainSteps(care: Care)
    ensures Goes(care, X8, BARRIER, X9) && Goes(care, X9, SPeek, X10) && Goes(care, X10, SRequeue(A), X11)
  {
  }

  /** The write has another colour than the barrier, so it is put back behind it. */
  lemma SpecialBarrierSticks(care: Care)
    requires !care.special
    ensures Leads(care, S0, TAKEN + TOGGLE + [BARRIER, SPeek] + [SRequeue(A)], X11) && Stuck(X11, A)
  {
    WriteTaken(care);
    ToggleSteps(care);
    FourSteps(care, S4, SPECIAL, X5, SPeek, X6, SDequeue(X), X7, SEnd(X), X8);
    LeadsConcat(care, S0, TAKEN, S4, TOGGLE, X8);
    DrainSteps(care);
    TwoSteps(care, X8, BARRIER, X9, SPeek, X10);
    LeadsConcat(care, S0, TAKEN + TOGGLE, X8, [BARRIER, SPeek], X10);
    LeadsSnoc(care, S0, TAKEN + TOGGLE + [BARRIER, SPeek], X10, SRequeue(A), X11);
  }

  // ----- A stays in the scheduler when a barrier is queued -----

  const B1 := Normal(1, true, true, false, false, 0)
  const B2 := Normal(2, true, true, false, true, 1)
  const D2 := S1.(queue := [B1], log := [A, B1], bars := [B1], ordcolor := true)
  const D3 := D2.(queue := [Bar], peeked := {Bar}, orig := Some(B1), ordseq := DRAINING.(drain := true))
  const D4 := D3.(sched := {}, queue := [Bar, A])
  const D5 := D4.(queue := [A], peeked := {}, flight := {Bar}, inFlight := 1)
  const D6 := D5.(flight := {}, inFlight := 0, ordseq := IDLE, orig := None, done := [B1], base := 1)
  const D7 := D6.(peeked := {A})
  const D8 := D6.(queue := [], flight := {A}, inFlight := 1)
  const D9 := D8.(queue := [B2], log := [A, B1, B2], bars := [B1, B2], ordcolor := false)
  const D10 := D9.(queue := [Bar], orig := Some(B2), ordseq := DRAINING)
  const D11 := D10.(queue := [Bar, A], flight := {}, inFlight := 0)

  const OVERTAKEN := [WRITE, BARRIER, SPeek, SDispatch(A, 1)]
  const TAKEN_LATE := [SDequeue(Bar), SEnd(Bar), SPeek, SDequeue(A)]

  /** The barrier is handed out while the write is still in the scheduler. */
  lemma LeftBehindOvertaken(care: Care)
    requires !care.drained
    ensures Goes(care, S0, WRITE, S1) && Goes(care, S1, BARRIER, D2) && Goes(care, D2, SPeek, D3)
    ensures HandedOut(D3, Bar) && D3.orig == Some(B1) && A in D3.sched && A !in D3.done && A.id < B1.id
  {
    WriteSteps(care);
  }

  lemma LateSteps(care: Care)
    ensures Goes(care, D3, SDispatch(A, 1), D4) && Goes(care, D4, SDequeue(Bar), D5)
    ensures Goes(care, D5, SEnd(Bar), D6)
  {
  }

  lemma LateTaken(care: Care)
    ensures Goes(care, D6, SPeek, D7) && Goes(care, D7, SDequeue(A), D8)
  {
  }

  lemma SecondDrain(care: Care)
    ensures Goes(care, D8, BARRIER, D9) && Goes(care, D9, SPeek, D10) && Goes(care, D10, SRequeue(A), D11)
    ensures Stuck(D11, A)
  {
  }

  /** From where the write is with the driver and its epoch is over. */
  lemma SecondDrainSticks(care: Care, run: seq<Step>)
    requires Leads(care, S0, run, D8)
    ensures Leads(care, S0, run + [BARRIER, SPeek] + [SRequeue(A)], D11) && Stuck(D11, A)
  {
    SecondDrain(care);
    TwoSteps(care, D8, BARRIER, D9, SPeek, D10);
    LeadsConcat(care, S0, run, D8, [BARRIER, SPeek], D10);
    LeadsSnoc(care, S0, run + [BARRIER, SPeek], D10, SRequeue(A), D11);
  }

  /** The write is overtaken by one barrier and then meets the next one, of the other colour. */
  lemma LeftBehindSticks(care: Care)
    requires !care.drained
    ensures Leads(care, S0, OVERTAKEN + TAKEN_LATE + [BARRIER, SPeek] + [SRequeue(A)], D11) && Stuck(D11, A)
  {
    LeftBehindOvertaken(care);
    LateSteps(care);
    LateTaken(care);
    FourSteps(care, S0, WRITE, S1, BARRIER, D2, SPeek, D3, SDispatch(A, 1), D4);
    FourSteps(care, D4, SDequeue(Bar), D5, SEnd(Bar), D6, SPeek, D7, SDequeue(A), D8);
    LeadsConcat(care, S0, OVERTAKEN, D4, TAKEN_LATE, D8);
    SecondDrainSticks(care, OVERTAKEN + TAKEN_LATE);
  }

  // ----- the mode goes to NONE and back with a barrier queued -----

  const M5 := S4.(queue := [B1], log := [A, B1], bars := [B1], ordcolor := true)
  const M6 := M5.(mode := Unordered)
  const M7 := M6.(queue := [], done := [B1], base := 1)

  const SWITCH := [BARRIER, SMode(Unordered), SPeek, SMode(DRAIN)]

  /** The barrier is ended with an error before the write that was submitted before it. */
  lemma SwitchedEnds(care: Care)
    requires !care.modes
    ensures Goes(care, S4, BARRIER, M5) && Goes(care, M5, SMode(Unordered), M6)
    ensures Goes(care, M6, SPeek, M7) && B1 in M7.done && A.id < B1.id && A !in M7.done
    ensures Goes(care, M7, SMode(DRAIN), D8)
  {
  }

  /** The next barrier finds the write of an epoch that is over. */
  lemma SwitchedSticks(care: Care)
    requires !care.modes
    ensures Leads(care, S0, TAKEN + SWITCH + [BARRIER, SPeek] + [SRequeue(A)], D11) && Stuck(D11, A)
  {
    WriteTaken(care);
    SwitchedEnds(care);
    FourSteps(care, S4, BARRIER, M5, SMode(Unordered), M6, SPeek, M7, SMode(DRAIN), D8);
    LeadsConcat(care, S0, TAKEN, S4, SWITCH, D8);
    SecondDrainSticks(care, TAKEN + SWITCH);
  }

  // ----- exactly with care -----

  lemma CarelessFails(care: Care)
    requires care != ALL
    ensures exists mode, t :: ReachableBy(care, mode, t) && !Live(t)
    ensures exists mode, t :: ReachableBy(care, mode, t) && !Safe(t)
  {
    if !care.special {
      SpecialBarrierSticks(care);
      StuckFails(care, DRAIN, TAKEN + TOGGLE + [BARRIER, SPeek] + [SRequeue(A)], X11, A);
    } else if !care.drained {
      LeftBehindSticks(care);
      StuckFails(care, DRAIN, OVERTAKEN + TAKEN_LATE + [BARRIER, SPeek] + [SRequeue(A)], D11, A);
    } else {
      SwitchedSticks(care);
      StuckFails(care, DRAIN, TAKEN + SWITCH + [BARRIER, SPeek] + [SRequeue(A)], D11, A);
    }
  }

  /** No barrier overtakes an earlier request in any run, exactly if all three are observed. */
  lemma SafeIffCareful(care: Care)
    ensures (forall mode, t :: ReachableBy(care, mode, t) ==> Safe(t)) <==> care == ALL
  {
    if care == ALL {
      forall mode, t | ReachableBy(care, mode, t) ensures Safe(t) { ReachableSafe(mode, t); }
    } else {
      CarelessFails(care);
    }
  }

  lemma ReachableSafe(mode: Mode, t: State)
    requires Reachable(mode, t)
    ensures Safe(t)
  {
    if HandedOut(t, Bar) && t.orig.Some? && t.orig.value.Normal? {
      forall r | r in t.log && r.Normal? && r.fs && r.id < t.orig.value.id ensures r in t.done {
        BarrierAfterEarlier(mode, t, r);
      }
    }
  }

  /** No run hangs, exactly if all three are observed. */
  lemma LiveIffCareful(care: Care)
    ensures (forall mode, t :: ReachableBy(care, mode, t) ==> Live(t)) <==> care == ALL
  {
    if care == ALL {
      forall mode, t | ReachableBy(care, mode, t) ensures Live(t) {
        assert Reachable(mode, t);
        if t.flight == {} && t.special == {} && (Active(t) || t.queue != []) { NoDeadlock(mode, t); }
      }
    } else {
      CarelessFails(care);
    }
  }
}
