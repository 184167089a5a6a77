/**
 How the barrier protocol fails once the colour of a request is not that of its epoch: a write
 that is put back while its barrier drains ends up behind the barrier.
 */
module OrderedStuck {
  import opened Common
  import opened Ordered
  import opened OrderedSafety

  /** The proxy barrier is not handed out before every earlier request has ended. */
  ghost predicate Safe(t: State) {
    HandedOut(t, Bar) && t.orig.Some? && t.orig.value.Normal? ==>
      forall r :: r in t.log && r.Normal? && r.fs && r.id < t.orig.value.id ==> r in t.done
  }

  /** An idle driver is given a request whenever something is queued or a sequence runs. */
  ghost predicate Live(t: State) {
    t.flight == {} && t.special == {} && (Active(t) || t.queue != []) ==>
      t.queue != [] && Enabled(t, SPeek) && DoOrdered(t).1.Give?
  }

  // ----- runs step by step -----

  ghost predicate Goes(care: Care, s: State, step: Step, t: State) {
    Enabled(s, step) && Careful(care, s, step) && Apply(s, step) == t
  }

  lemma {:induction false} TwoSteps(care: Care, s: State, a: Step, t: State, b: Step, u: State)
    requires Goes(care, s, a, t) && Goes(care, t, b, u)
    ensures Leads(care, s, [a, b], u)
  {
    var run := [a, b];
    assert run[1..] == [b] && [b][1..] == [];
    assert Leads(care, t, [b], u);
  }

  lemma {:induction false} FourSteps(care: Care, s: State, a: Step, t: State, b: Step, u: State, c: Step, v: State,
                                     d: Step, w: State)
    requires Goes(care, s, a, t) && Goes(care, t, b, u) && Goes(care, u, c, v) && Goes(care, v, d, w)
    ensures Leads(care, s, [a, b, c, d], w)
  {
    TwoSteps(care, s, a, t, b, u);
    TwoSteps(care, u, c, v, d, w);
    LeadsConcat(care, s, [a, b], u, [c, d], w);
    assert [a, b] + [c, d] == [a, b, c, d];
  }

  lemma {:induction false} LeadsConcat(care: Care, s: State, p: seq<Step>, t: State, q: seq<Step>, u: State)
    requires Leads(care, s, p, t) && Leads(care, t, q, u)
    ensures Leads(care, s, p + q, u)
    decreases |p|
  {
    if p == [] {
      assert p + q == q;
    } else {
      LeadsConcat(care, Apply(s, p[0]), p[1..], t, q, u);
      assert (p + q)[0] == p[0] && (p + q)[1..] == p[1..] + q;
    }
  }

  lemma {:induction false} LeadsSnoc(care: Care, s: State, run: seq<Step>, t: State, step: Step, u: State)
    requires Leads(care, s, run, t) && Goes(care, t, step, u)
    ensures Leads(care, s, run + [step], u)
  {
    assert [step][1..] == [];
    LeadsConcat(care, s, run, t, [step], u);
  }

  // ----- the stuck state -----

  /** The drain waits, with nothing in flight, and the write `a` is behind the barrier that was
      submitted after it. */
  predicate Stuck(s: State, a: Rq) {
    && s.mode.Ordering? && !s.mode.tag
    && s.ordseq == OrdSeq(true, false, true, false, true)
    && s.orig.Some? && s.orig.value.Normal? && !s.orig.value.empty
    && s.queue == [Bar, a] && s.peeked == {} && s.flight == {} && s.special == {} && s.inFlight == 0
    && a.Normal? && a.fs && a in s.log && a.id < s.orig.value.id && a !in s.done
  }

  lemma StuckHangs(s: State, a: Rq)
    requires Stuck(s, a)
    ensures DoOrdered(s).1 == Hold && !Live(s)
  {
  }

  // a special request is submitted, given, taken and ended, and the driver asks again

  function Other(s: State): Rq {
    Normal(|s.log|, false, false, false, s.ordcolor, |s.bars|)
  }

  function Kicked(s: State, a: Rq): seq<State> {
    var y := Other(s);
    var s1 := s.(log := s.log + [y], queue := [y, Bar, a]);
    var s3 := s1.(queue := [Bar, a], special := {y});
    var s4 := s3.(special := {}, done := s.done + [y], ordseq := s.ordseq.(drain := true));
    [s, s1, s1.(peeked := {y}), s3, s4, s4.(peeked := {Bar})]
  }

  function Kick(s: State): seq<Step> {
    [SAdd(false, false, false, Front), SPeek, SDequeue(Other(s)), SEnd(Other(s)), SPeek]
  }

  lemma KickGiven(care: Care, s: State, a: Rq)
    requires Stuck(s, a)
    ensures var k := Kicked(s, a);
            Goes(care, k[0], SAdd(false, false, false, Front), k[1]) && Goes(care, k[1], SPeek, k[2]) &&
            Goes(care, k[2], SDequeue(Other(s)), k[3])
  {
  }

  lemma KickEnded(care: Care, s: State, a: Rq)
    requires Stuck(s, a)
    ensures var k := Kicked(s, a); Goes(care, k[3], SEnd(Other(s)), k[4]) && Goes(care, k[4], SPeek, k[5])
  {
  }

  lemma KickLeads(care: Care, s: State, a: Rq)
    requires Stuck(s, a)
    ensures Leads(care, s, Kick(s), Kicked(s, a)[5])
  {
    var k, y := Kicked(s, a), Other(s);
    var first := [SAdd(false, false, false, Front), SPeek, SDequeue(y), SEnd(y)];
    KickGiven(care, s, a);
    KickEnded(care, s, a);
    FourSteps(care, s, SAdd(false, false, false, Front), k[1], SPeek, k[2], SDequeue(y), k[3], SEnd(y), k[4]);
    LeadsSnoc(care, s, first, k[4], SPeek, k[5]);
    assert first + [SPeek] == Kick(s);
  }

  /** The next special request lets the barrier overtake the write. */
  lemma StuckOvertakes(care: Care, s: State, a: Rq)
    requires Stuck(s, a)
    ensures var t := Kicked(s, a)[5]; Leads(care, s, Kick(s), t) && HandedOut(t, Bar) && !Safe(t)
  {
    KickLeads(care, s, a);
    var t := Kicked(s, a)[5];
    assert a in t.log && a !in t.done;
  }

  /** A run to a stuck state is a run that hangs, and one that overtakes. */
  lemma StuckFails(care: Care, mode: Mode, run: seq<Step>, s: State, a: Rq)
    requires Leads(care, Init(mode), run, s) && (mode.Ordering? ==> !mode.tag) && Stuck(s, a)
    ensures exists t :: ReachableBy(care, mode, t) && !Live(t)
    ensures exists t :: ReachableBy(care, mode, t) && !Safe(t)
  {
    StuckHangs(s, a);
    assert ReachableBy(care, mode, s);
    StuckOvertakes(care, s, a);
    var t := Kicked(s, a)[5];
    LeadsConcat(care, Init(mode), run, s, Kick(s), t);
    assert ReachableBy(care, mode, t);
  }
}
