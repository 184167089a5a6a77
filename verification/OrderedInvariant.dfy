/**
 The invariant of the barrier protocol under draining.  Every barrier submitted opens a
 new epoch.  The colour bit is the parity of the epoch or, for all requests that wait, its
 opposite, and the invariant explains why one bit is enough: requests of at most one epoch
 are with the driver, and the requests that the code compares by colour never lie more than
 one epoch apart.
 */
module OrderedInvariant {
  import opened Common
  import opened Ordered

  /** The place of a request in barrier order.  Requests of one epoch share a weight,
      their barrier comes next and its proxies take its place. */
  function Weight(base: nat, r: Rq): nat {
    match r
    case PreFlush => 8 * base + 2
    case Bar => 8 * base + 3
    case PostFlush => 8 * base + 4
    case Normal(_, _, hard, _, _, epoch) => 8 * epoch + if hard then 1 else 0
  }

  /** Requests that are subject to ordering. */
  predicate Tracked(r: Rq) {
    !r.Normal? || r.fs
  }

  ghost predicate Sorted(base: nat, q: seq<Rq>) {
    forall i, j :: 0 <= i < j < |q| && Tracked(q[i]) && Tracked(q[j]) ==> Weight(base, q[i]) <= Weight(base, q[j])
  }

  ghost predicate NoDup(q: seq<Rq>) {
    forall i, j :: 0 <= i < j < |q| ==> q[i] != q[j]
  }

  predicate Known(log: seq<Rq>, r: Rq) {
    r.Normal? ==> r.id < |log| && log[r.id] == r
  }

  /** The epoch that follows a request. */
  function NextEpoch(r: Rq): nat
    requires r.Normal?
  {
    r.epoch + if IsBarrier(r) then 1 else 0
  }

  predicate Odd(n: nat) {
    n % 2 == 1
  }

  predicate EntryOk(r: Rq, i: nat, epochs: nat) {
    r.Normal? && r.id == i && NextEpoch(r) <= epochs
  }

  /** Epochs grow with submission order, strictly across a barrier. */
  ghost predicate LogOk(log: seq<Rq>, bars: seq<Rq>) {
    && (forall i :: 0 <= i < |log| ==> EntryOk(log[i], i, |bars|))
    && (forall i, j :: 0 <= i < j < |log| ==> NextEpoch(log[i]) <= log[j].epoch)
    && (forall n :: 0 <= n < |bars| ==>
        bars[n].Normal? && IsBarrier(bars[n]) && bars[n].epoch == n && Known(log, bars[n]))
  }

  ghost predicate SchedOk(sched: set<Rq>, log: seq<Rq>, epochs: nat) {
    forall r :: r in sched ==> r.Normal? && r.fs && !r.hard && r.epoch == epochs && Known(log, r)
  }

  ghost predicate QueueOk(queue: seq<Rq>, log: seq<Rq>, base: nat) {
    forall r :: r in queue ==> Known(log, r) && (r.Normal? && r.fs ==> r.epoch >= base)
  }

  ghost predicate PeekedOk(peeked: set<Rq>, queue: seq<Rq>, base: nat) {
    forall r :: r in peeked ==> r in queue && (r.Normal? && r.fs ==> !r.hard && r.epoch == base)
  }

  ghost predicate DriverOk(flight: set<Rq>, special: set<Rq>, log: seq<Rq>, base: nat) {
    && (forall r :: r in flight ==> IsFs(r) && Known(log, r) && (r.Normal? ==> !r.hard && r.epoch == base))
    && (forall r :: r in special ==> !IsFs(r) && Known(log, r))
  }

  ghost predicate DoneOk(done: seq<Rq>, log: seq<Rq>, base: nat) {
    forall r :: r in done ==> r.Normal? && Known(log, r) && (r.fs ==> NextEpoch(r) <= base)
  }

  /** The colour of a file-system request is the parity of its epoch, or its opposite. */
  predicate Tinted(flip: bool, r: Rq) {
    r.Normal? && r.fs ==> r.color == (Odd(r.epoch) != flip)
  }

  /** Where a request is before the driver ends it. */
  predicate Waits(s: State, r: Rq) {
    r in s.sched || r in s.queue || r in s.flight || s.orig == Some(r)
  }

  function Flip(s: State): bool {
    s.ordcolor != Odd(|s.bars|)
  }

  ghost predicate Colored(s: State) {
    forall r :: Waits(s, r) ==> Tinted(Flip(s), r)
  }

  lemma ColorKept(s: State, t: State)
    requires Colored(s) && Flip(t) == Flip(s) && forall r :: Waits(t, r) ==> Waits(s, r)
    ensures Colored(t)
  {
  }

  /** Every place holds requests of the right kind. */
  ghost predicate PlacesOk(s: State) {
    && SchedOk(s.sched, s.log, |s.bars|)
    && QueueOk(s.queue, s.log, s.base)
    && PeekedOk(s.peeked, s.queue, s.base)
    && DriverOk(s.flight, s.special, s.log, s.base)
    && DoneOk(s.done, s.log, s.base)
    && s.inFlight == |s.flight|
  }

  /** Where the request `r` is. */
  predicate Somewhere(s: State, r: Rq) {
    r in s.sched || r in s.queue || r in s.flight || r in s.special || s.orig == Some(r) || r in s.done
  }

  ghost predicate Covered(s: State) {
    forall i :: 0 <= i < |s.log| ==> Somewhere(s, s.log[i])
  }

  /** No request is in two places. */
  ghost predicate Apart(sched: set<Rq>, queue: seq<Rq>, flight: set<Rq>, special: set<Rq>, orig: Option<Rq>,
                        done: seq<Rq>) {
    && NoDup(queue) && NoDup(done)
    && (forall r :: r in queue ==> r !in sched && r !in flight && r !in special && orig != Some(r) && r !in done)
    && (forall r :: r in done ==> r !in sched && r !in flight && r !in special && orig != Some(r))
    && (forall r :: r in sched ==> r !in flight && r !in special && orig != Some(r))
    && (orig.Some? ==> orig.value !in flight && orig.value !in special)
  }

  /** A proxy whose bit is clear is queued or with the driver; one whose bit is set is
      gone; and none is handed out before the earlier bits are set. */
  ghost predicate PhaseOk(o: OrdSeq, base: nat, queue: seq<Rq>, peeked: set<Rq>, flight: set<Rq>, special: set<Rq>) {
    && (!o.preflush <==> PreFlush in queue || PreFlush in special)
    && (!o.bar <==> Bar in queue || Bar in flight)
    && (!o.postflush <==> PostFlush in queue || PostFlush in special)
    && (!o.drain ==> PreFlush !in peeked && PreFlush !in special)
    && (!(o.drain && o.preflush) ==> !o.bar && Bar !in peeked && Bar !in flight)
    && (!(o.drain && o.preflush && o.bar) ==> PostFlush !in peeked && PostFlush !in special)
    && (o.drain ==>
          && (forall r :: r in flight ==> r.Bar?)
          && (forall r :: r in queue && Tracked(r) ==> Weight(base, r) >= 8 * base + 2))
  }

  /** The sequence is not over, and its drain ends as soon as it has nothing to wait for. */
  ghost predicate Settled(s: State) {
    Active(s) ==>
      && CurSeq(s.ordseq) != ORDSEQ_DONE
      && (!s.ordseq.drain && s.flight == {} && s.special == {} ==> s.queue != [] && StillDraining(s.base, s.queue[0]))
  }

  /** A request that the drain has to wait for. */
  predicate StillDraining(base: nat, r: Rq) {
    r.Normal? && (r.fs ==> r.epoch == base)
  }

  ghost predicate SequenceOk(s: State) {
    && WellFormed(s)
    && s.base <= |s.bars|
    && (forall n :: s.base <= n < |s.bars| ==> s.bars[n] in s.queue || s.orig == Some(s.bars[n]))
    && (if Active(s) then
          && s.base < |s.bars| && s.orig == Some(s.bars[s.base])
          && PhaseOk(s.ordseq, s.base, s.queue, s.peeked, s.flight, s.special)
        else
          s.ordseq == IDLE && NoProxy(s.queue, s.flight, s.special))
  }

  ghost predicate NoProxy(queue: seq<Rq>, flight: set<Rq>, special: set<Rq>) {
    && (forall r :: r in queue ==> r.Normal?)
    && (forall r :: r in flight ==> r.Normal?)
    && (forall r :: r in special ==> r.Normal?)
  }

  /** Two file-system requests, one of them a barrier: their order matters. */
  predicate InBarrierOrder(a: Rq, b: Rq) {
    a.Normal? && b.Normal? && a.fs && b.fs && (a.hard || b.hard)
  }

  /** Requests end in barrier order. */
  ghost predicate DoneOrdered(s: State) {
    forall p, q :: 0 <= p < q < |s.done| && InBarrierOrder(s.done[p], s.done[q]) ==> s.done[p].id < s.done[q].id
  }

  ghost predicate Core(s: State) {
    && (s.mode.Ordering? ==> !s.mode.tag)
    && LogOk(s.log, s.bars) && Colored(s)
    && (s.base + One(Active(s)) < |s.bars| ==> s.mode.Ordering?)
    && PlacesOk(s) && Covered(s) && Apart(s.sched, s.queue, s.flight, s.special, s.orig, s.done) && SequenceOk(s)
    && Sorted(s.base, s.queue) && DoneOrdered(s)
  }

  ghost predicate Inv(s: State) {
    Core(s) && Settled(s)
  }

  lemma InitInv(mode: Mode)
    requires mode.Ordering? ==> !mode.tag
    ensures Inv(Init(mode))
  {
  }

  // --- the queue as a list ---

  lemma InsertedElements(q: seq<Rq>, p: nat, r: Rq)
    requires p <= |q|
    ensures forall x :: x in Inserted(q, p, r) <==> x == r || x in q
    ensures NoDup(q) && r !in q ==> NoDup(Inserted(q, p, r))
  {
    assert q == q[..p] + q[p..];
  }

  lemma InsertedSorted(base: nat, q: seq<Rq>, p: nat, r: Rq)
    requires p <= |q| && Sorted(base, q)
    requires Tracked(r) ==> forall i :: 0 <= i < p && Tracked(q[i]) ==> Weight(base, q[i]) <= Weight(base, r)
    requires Tracked(r) ==> forall i :: p <= i < |q| && Tracked(q[i]) ==> Weight(base, r) <= Weight(base, q[i])
    ensures Sorted(base, Inserted(q, p, r))
  {
    var w := Inserted(q, p, r);
    forall i, j | 0 <= i < j < |w| && Tracked(w[i]) && Tracked(w[j]) ensures Weight(base, w[i]) <= Weight(base, w[j]) {
      var i0 := if i < p then i else i - 1;
      var j0 := if j < p then j else j - 1;
      assert i != p ==> w[i] == q[i0];
      assert j != p ==> w[j] == q[j0];
    }
  }

  lemma {:induction false} WithoutElements(q: seq<Rq>, r: Rq)
    requires NoDup(q) && r in q
    ensures forall x :: x in Without(q, r) <==> x != r && x in q
    ensures NoDup(Without(q, r))
    ensures q[0] != r ==> Without(q, r) != [] && Without(q, r)[0] == q[0]
  {
    assert q == [q[0]] + q[1..];
    assert q[0] !in q[1..];
    if q[0] != r {
      WithoutElements(q[1..], r);
      var w := Without(q[1..], r);
      assert Without(q, r) == [q[0]] + w;
      assert q[0] !in w;
    }
  }

  lemma {:induction false} WithoutSorted(base: nat, q: seq<Rq>, r: Rq)
    requires r in q && Sorted(base, q)
    ensures Sorted(base, Without(q, r))
    ensures forall x :: x in Without(q, r) ==> x in q
  {
    assert q == [q[0]] + q[1..];
    if q[0] != r {
      var rest, w := q[1..], Without(q[1..], r);
      WithoutSorted(base, rest, r);
      assert Without(q, r) == [q[0]] + w;
      forall j | 0 <= j < |w| && Tracked(q[0]) && Tracked(w[j]) ensures Weight(base, q[0]) <= Weight(base, w[j]) {
        assert w[j] in rest;
      }
    }
  }

  // --- submission ---

  lemma AddLog(log: seq<Rq>, bars: seq<Rq>, r: Rq)
    requires LogOk(log, bars)
    requires r.Normal? && r.epoch == |bars| && EntryOk(r, |log|, |bars| + 1)
    ensures LogOk(log + [r], if IsBarrier(r) then bars + [r] else bars)
  {
    var bars1 := if IsBarrier(r) then bars + [r] else bars;
    forall n | 0 <= n < |bars1|
      ensures bars1[n].Normal? && IsBarrier(bars1[n]) && bars1[n].epoch == n && Known(log + [r], bars1[n])
    {
      if n < |bars| { assert Known(log, bars[n]); }
    }
  }

  lemma Fresh(s: State, r: Rq)
    requires Inv(s) && r.Normal? && r.id >= |s.log|
    ensures !Somewhere(s, r) && r !in s.peeked
  {
    if Active(s) { BarrierKnown(s, s.base); }
  }

  lemma KnownMonotone(log: seq<Rq>, r: Rq)
    ensures forall x :: Known(log, x) ==> Known(log + [r], x)
  {
  }

  /** The parts of the invariant that speak of the log survive its growth. */
  lemma GrowLog(s: State, r: Rq)
    requires PlacesOk(s)
    ensures QueueOk(s.queue, s.log + [r], s.base)
    ensures SchedOk(s.sched, s.log + [r], |s.bars|)
    ensures DriverOk(s.flight, s.special, s.log + [r], s.base)
    ensures DoneOk(s.done, s.log + [r], s.base)
  {
    KnownMonotone(s.log, r);
  }

  lemma AddSortInv(s: State, r: Rq)
    requires Inv(s) && r.Normal? && r == Normal(|s.log|, true, false, r.empty, s.ordcolor, |s.bars|)
    ensures Inv(s.(log := s.log + [r], sched := s.sched + {r}))
  {
    Fresh(s, r);
    AddLog(s.log, s.bars, r);
    GrowLog(s, r);
    ColorAdded(s, r, s.(log := s.log + [r], sched := s.sched + {r}));
  }

  lemma ColorAdded(s: State, r: Rq, t: State)
    requires Colored(s) && r.Normal? && r.color == s.ordcolor && r.epoch == |s.bars|
    requires forall x :: Waits(t, x) ==> x == r || Waits(s, x)
    requires if r.hard && !r.fs then forall x :: Waits(s, x) ==> !(x.Normal? && x.fs)
             else Flip(t) == Flip(s)
    ensures Colored(t)
  {
  }

  ghost function Queued(s: State, r: Rq, p: nat): State
    requires r.Normal? && p <= |s.queue|
  {
    s.(log := s.log + [r], queue := Inserted(s.queue, p, r), ordcolor := if r.hard then !s.ordcolor else s.ordcolor,
       bars := if IsBarrier(r) then s.bars + [r] else s.bars)
  }

  predicate MayQueue(s: State, r: Rq, p: nat) {
    && p <= |s.queue|
    && r.Normal? && r == Normal(|s.log|, r.fs, r.hard, r.empty, s.ordcolor, |s.bars|)
    && (r.fs ==> p == |s.queue|)
    && (r.hard ==> if r.fs then s.sched == {} && s.mode.Ordering? else Quiet(s))
  }

  lemma QueuedPlaces(s: State, r: Rq, p: nat)
    requires Inv(s) && MayQueue(s, r, p)
    ensures PlacesOk(Queued(s, r, p)) && Covered(Queued(s, r, p)) && Sorted(s.base, Inserted(s.queue, p, r))
  {
    GrowLog(s, r);
    InsertedElements(s.queue, p, r);
    InsertedSorted(s.base, s.queue, p, r);
  }

  lemma QueuedSequence(s: State, r: Rq, p: nat)
    requires Inv(s) && MayQueue(s, r, p)
    ensures SequenceOk(Queued(s, r, p)) && Settled(Queued(s, r, p))
  {
    InsertedElements(s.queue, p, r);
  }

  lemma QueuedColor(s: State, r: Rq, p: nat)
    requires Colored(s) && WellFormed(s) && MayQueue(s, r, p)
    ensures Colored(Queued(s, r, p))
  {
    InsertedElements(s.queue, p, r);
    ColorAdded(s, r, Queued(s, r, p));
  }

  lemma QueuedInv(s: State, r: Rq, p: nat)
    requires Inv(s) && MayQueue(s, r, p)
    ensures Inv(Queued(s, r, p))
  {
    Fresh(s, r);
    AddLog(s.log, s.bars, r);
    QueuedPlaces(s, r, p);
    QueuedSequence(s, r, p);
    QueuedColor(s, r, p);
    InsertedElements(s.queue, p, r);
  }

  lemma AddIsQueued(s: State, fs: bool, hard: bool, empty: bool, pos: Where)
    requires !(pos.Sort? && !hard)
    ensures Add(s, fs, hard, empty, pos) ==
            Queued(s, Normal(|s.log|, fs, hard, empty, s.ordcolor, |s.bars|), if pos.Front? then 0 else |s.queue|)
  {
    var r := Normal(|s.log|, fs, hard, empty, s.ordcolor, |s.bars|);
    var p := if pos.Front? then 0 else |s.queue|;
    assert Inserted(s.queue, p, r) == if pos.Front? then [r] + s.queue else s.queue + [r];
  }

  /** elv_add_request keeps the invariant, with care. */
  lemma AddInv(s: State, fs: bool, hard: bool, empty: bool, pos: Where)
    requires Inv(s) && Enabled(s, SAdd(fs, hard, empty, pos)) && Careful(ALL, s, SAdd(fs, hard, empty, pos))
    ensures Inv(Add(s, fs, hard, empty, pos))
  {
    var r := Normal(|s.log|, fs, hard, empty, s.ordcolor, |s.bars|);
    if pos.Sort? && !hard {
      AddSortInv(s, r);
    } else {
      AddIsQueued(s, fs, hard, empty, pos);
      QueuedInv(s, r, if pos.Front? then 0 else |s.queue|);
    }
  }

  // --- what the colour says ---

  lemma EpochsGrow(log: seq<Rq>, bars: seq<Rq>, a: Rq, b: Rq)
    requires LogOk(log, bars) && a.Normal? && b.Normal? && Known(log, a) && Known(log, b)
    ensures a.id < b.id ==> NextEpoch(a) <= b.epoch
    ensures a.id == b.id ==> a == b
    ensures EntryOk(a, a.id, |bars|)
  {
    assert EntryOk(log[a.id], a.id, |bars|);
  }

  lemma BarrierKnown(s: State, n: nat)
    requires LogOk(s.log, s.bars) && n < |s.bars|
    ensures var b := s.bars[n]; b.Normal? && b.fs && b.hard && b.epoch == n && Known(s.log, b)
  {
    EpochsGrow(s.log, s.bars, s.bars[n], s.bars[n]);
  }

  /** Nothing of a later epoch comes before the barrier of an epoch. */
  lemma NotBeyond(s: State, i: nat, n: nat)
    requires Core(s) && i < |s.queue| && Tracked(s.queue[i]) && s.base <= n < |s.bars|
    requires s.orig != Some(s.bars[n]) && forall k :: 0 <= k < i ==> s.queue[k] != s.bars[n]
    ensures Weight(s.base, s.queue[i]) <= 8 * n + 1
  {
    BarrierKnown(s, n);
    var k :| 0 <= k < |s.queue| && s.queue[k] == s.bars[n];
    assert i <= k;
  }

  /** Two barriers of the same epoch are the same request. */
  lemma SameBarrier(s: State, r: Rq)
    requires LogOk(s.log, s.bars) && r.Normal? && Known(s.log, r)
    ensures IsBarrier(r) ==> r.epoch < |s.bars| && r == s.bars[r.epoch]
    ensures r.epoch <= |s.bars|
  {
    EpochsGrow(s.log, s.bars, r, r);
    if IsBarrier(r) {
      var b := s.bars[r.epoch];
      BarrierKnown(s, r.epoch);
      EpochsGrow(s.log, s.bars, r, b);
      EpochsGrow(s.log, s.bars, b, r);
    }
  }

  /** The first tracked request of the queue, seen while a sequence is running: its
      colour is that of the barrier exactly if it belongs before the barrier. */
  lemma FirstTracked(s: State, i: nat)
    requires Core(s) && Active(s) && i < |s.queue| && s.queue[i].Normal? && s.queue[i].fs
    requires forall k :: 0 <= k < i ==> !Tracked(s.queue[k])
    ensures ReqSeq(s, s.queue[i]) == if s.queue[i].epoch == s.base then ORDSEQ_DRAIN else ORDSEQ_DONE
    ensures s.queue[i].epoch == s.base ==> !s.queue[i].hard
    ensures s.base <= s.queue[i].epoch <= s.base + 1
  {
    var r := s.queue[i];
    assert r in s.queue;
    assert Waits(s, r) && Waits(s, s.orig.value);
    BarrierKnown(s, s.base);
    SameBarrier(s, r);
    if s.base + 1 < |s.bars| {
      BarrierKnown(s, s.base + 1);
      NotBeyond(s, i, s.base + 1);
    }
  }

  // --- the mode is set ---

  lemma WaitingBarrier(s: State)
    requires Core(s) && !BarrierQueued(s.queue)
    ensures s.base + One(Active(s)) >= |s.bars|
  {
    var n := s.base + One(Active(s));
    if n < |s.bars| {
      BarrierKnown(s, n);
      if Active(s) { BarrierKnown(s, s.base); }
    }
  }

  /** blk_queue_ordered keeps the invariant, even in the middle of a sequence. */
  lemma ModeInv(s: State, m: Mode)
    requires Inv(s) && Enabled(s, SMode(m)) && Careful(ALL, s, SMode(m))
    ensures Inv(s.(mode := m))
  {
    if m.Unordered? { WaitingBarrier(s); }
    ColorKept(s, s.(mode := m));
  }

  // --- the scheduler hands over ---

  lemma DispatchOrder(s: State, p: nat, i: nat)
    requires Core(s) && MayLand(s, p) && p <= i < |s.queue| && Tracked(s.queue[i])
    ensures s.queue[i].epoch == |s.bars|
  {
    var r := s.queue[i];
    assert r in s.queue;
    SameBarrier(s, r);
    if s.base < |s.bars| {
      var n := |s.bars| - 1;
      BarrierKnown(s, n);
      if s.orig != Some(s.bars[n]) {
        var k :| 0 <= k < |s.queue| && s.queue[k] == s.bars[n];
        assert k < i;
      } else if !s.ordseq.drain {
        assert Bar in s.queue;
        var k :| 0 <= k < |s.queue| && s.queue[k] == Bar;
        assert k < i;
      }
    }
  }

  lemma DispatchSorted(s: State, r: Rq, p: nat)
    requires Core(s) && Enabled(s, SDispatch(r, p))
    ensures Sorted(s.base, Inserted(s.queue, p, r))
  {
    forall i | p <= i < |s.queue| && Tracked(s.queue[i]) ensures Weight(s.base, r) <= Weight(s.base, s.queue[i]) {
      DispatchOrder(s, p, i);
    }
    forall i | 0 <= i < p && Tracked(s.queue[i]) ensures Weight(s.base, s.queue[i]) <= Weight(s.base, r) {
      assert s.queue[i] in s.queue && Known(s.log, s.queue[i]);
    }
    InsertedSorted(s.base, s.queue, p, r);
  }

  lemma DispatchInv(s: State, r: Rq, p: nat)
    requires Inv(s) && Enabled(s, SDispatch(r, p))
    ensures Inv(Dispatch(s, r, p))
  {
    InsertedElements(s.queue, p, r);
    DispatchSorted(s, r, p);
    assert Dispatch(s, r, p).queue == Inserted(s.queue, p, r);
    assert s.queue != [] && p == 0 ==> s.queue[0].Normal? && !s.queue[0].hard;
    DispatchSettled(s, r, p);
    ColorKept(s, Dispatch(s, r, p));
  }

  lemma DispatchSettled(s: State, r: Rq, p: nat)
    requires Inv(s) && Enabled(s, SDispatch(r, p))
    ensures Settled(Dispatch(s, r, p))
  {
    if Active(s) && !s.ordseq.drain {
      assert Bar in s.queue;
      var k :| 0 <= k < |s.queue| && s.queue[k] == Bar;
      assert k < p;
    }
  }

  // --- the driver takes a request ---

  /** `w` is `q` with `r` taken out. */
  ghost predicate Removed(base: nat, q: seq<Rq>, r: Rq, w: seq<Rq>) {
    (forall x :: x in w <==> x != r && x in q) && NoDup(w) && Sorted(base, w)
  }

  lemma WithoutRemoved(base: nat, q: seq<Rq>, r: Rq)
    requires NoDup(q) && Sorted(base, q) && r in q
    ensures Removed(base, q, r, Without(q, r))
  {
    WithoutElements(q, r);
    WithoutSorted(base, q, r);
  }

  lemma PeekedNotBarrier(s: State, r: Rq)
    requires LogOk(s.log, s.bars) && PeekedOk(s.peeked, s.queue, s.base) && r in s.peeked
    ensures forall n :: s.base <= n < |s.bars| ==> s.bars[n] != r
  {
    forall n | s.base <= n < |s.bars| ensures s.bars[n] != r {
      BarrierKnown(s, n);
    }
  }

  lemma TakenFs(s: State, r: Rq, w: seq<Rq>)
    requires Inv(s) && r in s.peeked && IsFs(r) && Removed(s.base, s.queue, r, w)
    ensures Inv(s.(queue := w, peeked := s.peeked - {r}, flight := s.flight + {r}, inFlight := s.inFlight + 1))
  {
    TakenSequence(s, r, w);
    TakenPlaces(s, r, w);
    ColorKept(s, s.(queue := w, peeked := s.peeked - {r}, flight := s.flight + {r}, inFlight := s.inFlight + 1));
  }

  lemma TakenPlaces(s: State, r: Rq, w: seq<Rq>)
    requires Inv(s) && r in s.peeked && IsFs(r) && Removed(s.base, s.queue, r, w)
    ensures PlacesOk(s.(queue := w, peeked := s.peeked - {r}, flight := s.flight + {r}, inFlight := s.inFlight + 1))
    ensures Apart(s.sched, w, s.flight + {r}, s.special, s.orig, s.done)
  {
    assert r in s.queue && r !in s.flight;
  }

  lemma TakenSequence(s: State, r: Rq, w: seq<Rq>)
    requires LogOk(s.log, s.bars) && SequenceOk(s) && PeekedOk(s.peeked, s.queue, s.base)
    requires r in s.peeked && IsFs(r) && Removed(s.base, s.queue, r, w)
    ensures SequenceOk(s.(queue := w, peeked := s.peeked - {r}, flight := s.flight + {r}, inFlight := s.inFlight + 1))
  {
    PeekedNotBarrier(s, r);
    assert r in s.queue;
    assert r.Normal? ==> Weight(s.base, r) == 8 * s.base;
    assert Active(s) && s.ordseq.drain ==> r.Bar?;
  }

  lemma TakenSpecial(s: State, r: Rq, w: seq<Rq>)
    requires Inv(s) && r in s.peeked && !IsFs(r) && Removed(s.base, s.queue, r, w)
    ensures Inv(s.(queue := w, peeked := s.peeked - {r}, special := s.special + {r}))
  {
    PeekedNotBarrier(s, r);
    ColorKept(s, s.(queue := w, peeked := s.peeked - {r}, special := s.special + {r}));
  }

  lemma DequeueInv(s: State, r: Rq)
    requires Inv(s) && Enabled(s, SDequeue(r))
    ensures Inv(Dequeue(s, r))
  {
    QueuedOnce(s, r);
    WithoutRemoved(s.base, s.queue, r);
    DequeueRemoved(s, r, Without(s.queue, r), Dequeue(s, r));
  }

  lemma QueuedOnce(s: State, r: Rq)
    requires Inv(s) && Enabled(s, SDequeue(r))
    ensures r in s.peeked && r in s.queue && NoDup(s.queue) && Sorted(s.base, s.queue)
  {
  }

  lemma DequeueRemoved(s: State, r: Rq, w: seq<Rq>, t: State)
    requires Inv(s) && r in s.peeked && Removed(s.base, s.queue, r, w)
    requires t == if IsFs(r)
                  then s.(queue := w, peeked := s.peeked - {r}, flight := s.flight + {r}, inFlight := s.inFlight + 1)
                  else s.(queue := w, peeked := s.peeked - {r}, special := s.special + {r})
    ensures Inv(t)
  {
    if IsFs(r) { TakenFs(s, r, w); } else { TakenSpecial(s, r, w); }
  }

  // --- the driver puts a request back ---

  /** `t` is `s` with `r` moved from the driver to place `p` of the queue. */
  ghost function PutBack(s: State, r: Rq, p: nat): State
    requires p <= |s.queue|
  {
    s.(flight := s.flight - {r}, special := s.special - {r},
       inFlight := if IsFs(r) then s.inFlight - 1 else s.inFlight, queue := Inserted(s.queue, p, r))
  }

  /** A proxy that was with the driver goes back behind special requests only, and what
      follows weighs at least as much; anything else goes to the front. */
  predicate MayPutBack(s: State, r: Rq, p: nat) {
    && p <= |s.queue|
    && (r.Normal? ==> p == 0)
    && (forall i :: 0 <= i < p ==> !Tracked(s.queue[i]))
  }

  lemma PutBackSorted(s: State, r: Rq, p: nat)
    requires SequenceOk(s) && Sorted(s.base, s.queue) && QueueOk(s.queue, s.log, s.base)
    requires DriverOk(s.flight, s.special, s.log, s.base) &&
             Apart(s.sched, s.queue, s.flight, s.special, s.orig, s.done)
    requires r in s.flight + s.special && MayPutBack(s, r, p)
    ensures Sorted(s.base, Inserted(s.queue, p, r))
  {
    forall i | p <= i < |s.queue| && Tracked(s.queue[i]) && Tracked(r)
      ensures Weight(s.base, r) <= Weight(s.base, s.queue[i])
    {
      assert s.queue[i] in s.queue;
    }
    InsertedSorted(s.base, s.queue, p, r);
  }

  lemma PutBackSequence(s: State, r: Rq, p: nat)
    requires SequenceOk(s) && DriverOk(s.flight, s.special, s.log, s.base)
    requires r in s.flight + s.special && MayPutBack(s, r, p)
    requires forall x :: x in Inserted(s.queue, p, r) <==> x == r || x in s.queue
    requires s.inFlight == |s.flight|
    ensures SequenceOk(PutBack(s, r, p)) && (Settled(s) ==> Settled(PutBack(s, r, p)))
  {
  }

  lemma PutBackPlaces(s: State, r: Rq, p: nat)
    requires PlacesOk(s) && Covered(s) && Apart(s.sched, s.queue, s.flight, s.special, s.orig, s.done)
    requires r in s.flight + s.special && p <= |s.queue|
    requires forall x :: x in Inserted(s.queue, p, r) <==> x == r || x in s.queue
    requires NoDup(Inserted(s.queue, p, r))
    ensures PlacesOk(PutBack(s, r, p)) && Covered(PutBack(s, r, p))
    ensures var t := PutBack(s, r, p); Apart(t.sched, t.queue, t.flight, t.special, t.orig, t.done)
  {
  }

  lemma PutBackInv(s: State, r: Rq, p: nat)
    requires Inv(s) && r in s.flight + s.special && MayPutBack(s, r, p)
    ensures Inv(PutBack(s, r, p))
  {
    InsertedElements(s.queue, p, r);
    PutBackSorted(s, r, p);
    PutBackSequence(s, r, p);
    PutBackPlaces(s, r, p);
    PutBackColor(s, r, p);
  }

  lemma PutBackColor(s: State, r: Rq, p: nat)
    requires Colored(s) && DriverOk(s.flight, s.special, s.log, s.base) && r in s.flight + s.special && p <= |s.queue|
    ensures Colored(PutBack(s, r, p))
  {
    InsertedElements(s.queue, p, r);
    var t := PutBack(s, r, p);
    forall x | Waits(t, x) ensures Tinted(Flip(t), x) { assert IsFs(x) ==> Waits(s, x); }
  }

  lemma {:induction false} RequeuePosFirst(s: State, q: seq<Rq>, k: nat)
    requires Active(s) && s.orig.Some? && s.orig.value.Normal?
    ensures forall i :: 0 <= i < RequeuePos(s, q, k) ==> ReqSeq(s, q[i]) < k
  {
    if !(q == [] || k <= ReqSeq(s, q[0])) {
      RequeuePosFirst(s, q[1..], k);
      forall i | 0 <= i < RequeuePos(s, q, k) ensures ReqSeq(s, q[i]) < k {
        assert i > 0 ==> q[i] == q[1..][i - 1];
      }
    }
  }

  /** The first tracked request of the queue never comes before a proxy that the driver
      holds: the colour test cannot be fooled. */
  lemma NotSkipped(s: State, r: Rq, i: nat)
    requires Core(s) && Active(s) && !r.Normal? && r in s.flight + s.special
    requires i < |s.queue| && Tracked(s.queue[i]) && forall k :: 0 <= k < i ==> !Tracked(s.queue[k])
    ensures ReqSeq(s, s.queue[i]) >= ReqSeq(s, r)
  {
    var x := s.queue[i];
    assert x in s.queue;
    assert s.ordseq.drain;
    assert Weight(s.base, x) >= 8 * s.base + 2;
    if x.Normal? { FirstTracked(s, i); }
  }

  lemma RequeueMayPutBack(s: State, r: Rq)
    requires Core(s) && r in s.flight + s.special
    ensures MayPutBack(s, r, if Active(s) then RequeuePos(s, s.queue, ReqSeq(s, r)) else 0)
  {
    if Active(s) {
      var k := ReqSeq(s, r);
      var p := RequeuePos(s, s.queue, k);
      RequeuePosFirst(s, s.queue, k);
      if r.Normal? {
        assert k == ORDSEQ_DRAIN by { DriverColor(s, r); }
        assert p == 0;
      } else {
        var i := 0;
        while i < p
          invariant 0 <= i <= p
          invariant forall j :: 0 <= j < i ==> !Tracked(s.queue[j])
        {
          if Tracked(s.queue[i]) { NotSkipped(s, r, i); }
          i := i + 1;
        }
      }
    } else {
      assert r.Normal?;
    }
  }

  /** Whatever the driver holds has the colour of the running barrier. */
  lemma DriverColor(s: State, r: Rq)
    requires Core(s) && Active(s) && r.Normal? && r in s.flight + s.special
    ensures ReqSeq(s, r) == ORDSEQ_DRAIN
  {
    assert Waits(s, s.orig.value) && (r in s.flight ==> Waits(s, r));
    BarrierKnown(s, s.base);
    SameBarrier(s, r);
  }

  lemma RequeueInv(s: State, r: Rq)
    requires Inv(s) && Enabled(s, SRequeue(r))
    ensures Inv(Requeue(s, r))
  {
    RequeueMayPutBack(s, r);
    PutBackInv(s, r, if Active(s) then RequeuePos(s, s.queue, ReqSeq(s, r)) else 0);
  }

  // --- the end of a sequence ---

  ghost function Finish(s: State): State
    requires s.orig.Some?
  {
    s.(ordseq := IDLE, orig := None, done := s.done + [s.orig.value], base := s.base + 1)
  }

  lemma FinishPlaces(s: State)
    requires Core(s) && Active(s) && CurSeq(s.ordseq) == ORDSEQ_DONE
    ensures PlacesOk(Finish(s)) && NoProxy(s.queue, s.flight, s.special) && Sorted(s.base + 1, s.queue)
  {
    BarrierKnown(s, s.base);
    assert forall r :: r in s.queue ==> r.Normal?;
  }

  /** A request of the current epoch may end next. */
  lemma LastInOrder(s: State, r: Rq)
    requires LogOk(s.log, s.bars) && DoneOk(s.done, s.log, s.base) && DoneOrdered(s)
    requires r.Normal? && Known(s.log, r) && r !in s.done && (r.fs ==> r.epoch == s.base)
    ensures DoneOrdered(s.(done := s.done + [r]))
  {
    var d := s.done + [r];
    forall p, q | 0 <= p < q < |d| && InBarrierOrder(d[p], d[q]) ensures d[p].id < d[q].id {
      if q == |s.done| {
        var x := s.done[p];
        assert x in s.done;
        EpochsGrow(s.log, s.bars, r, x);
      }
    }
  }

  lemma FinishOrder(s: State)
    requires Core(s) && Active(s)
    ensures DoneOrdered(Finish(s))
  {
    BarrierKnown(s, s.base);
    LastInOrder(s, s.bars[s.base]);
  }

  lemma FinishInv(s: State)
    requires Core(s) && Active(s) && CurSeq(s.ordseq) == ORDSEQ_DONE
    ensures Inv(Finish(s))
  {
    FinishPlaces(s);
    FinishOrder(s);
    ColorKept(s, Finish(s));
    assert forall n :: s.base < n < |s.bars| ==> s.bars[n] != s.bars[s.base];
  }

  // --- the driver ends a request ---

  lemma DrainedPhase(s: State)
    requires Core(s) && Active(s) && !s.ordseq.drain && s.flight == {}
    requires s.queue != [] && ReqSeq(s, s.queue[0]) > ORDSEQ_DRAIN
    ensures PhaseOk(s.ordseq.(drain := true), s.base, s.queue, s.peeked, s.flight, s.special)
  {
    var h := s.queue[0];
    assert h in s.queue;
    if h.Normal? { FirstTracked(s, 0); }
    assert Weight(s.base, h) >= 8 * s.base + 2;
    forall r | r in s.queue && Tracked(r) ensures Weight(s.base, r) >= 8 * s.base + 2 {
      var i :| 0 <= i < |s.queue| && s.queue[i] == r;
      assert i > 0 ==> Weight(s.base, s.queue[0]) <= Weight(s.base, s.queue[i]);
    }
  }

  lemma StillDrainingHead(s: State)
    requires Core(s) && Active(s) && !s.ordseq.drain && s.flight == {}
    ensures s.queue != []
    ensures ReqSeq(s, s.queue[0]) <= ORDSEQ_DRAIN ==> StillDraining(s.base, s.queue[0])
  {
    assert Bar in s.queue;
    if s.queue[0].Normal? && s.queue[0].fs { FirstTracked(s, 0); }
  }

  lemma DrainedInv(s: State)
    requires Core(s) && Active(s) && !s.ordseq.drain && CurSeq(s.ordseq) != ORDSEQ_DONE && s.flight == {}
    requires s.queue != [] && ReqSeq(s, s.queue[0]) > ORDSEQ_DRAIN
    ensures Inv(s.(ordseq := s.ordseq.(drain := true)))
  {
    DrainedPhase(s);
    ColorKept(s, s.(ordseq := s.ordseq.(drain := true)));
  }

  /** elv_completed_request restores the invariant once the request has left. */
  lemma CompletedInv(s: State)
    requires Core(s) && (Active(s) ==> CurSeq(s.ordseq) != ORDSEQ_DONE)
    ensures Inv(Completed(s, false))
  {
    if Active(s) && !s.ordseq.drain && s.flight == {} {
      StillDrainingHead(s);
      if ReqSeq(s, s.queue[0]) > ORDSEQ_DRAIN {
        DrainedInv(s);
        assert Completed(s, false) == s.(ordseq := s.ordseq.(drain := true));
      }
    }
  }

  /** `s` after the driver has let go of the ordinary request `r`. */
  ghost function Released(s: State, r: Rq): State {
    s.(flight := s.flight - {r}, special := s.special - {r}, done := s.done + [r],
       inFlight := if IsFs(r) then s.inFlight - 1 else s.inFlight)
  }

  lemma ReleasedOrder(s: State, r: Rq)
    requires LogOk(s.log, s.bars) && DoneOk(s.done, s.log, s.base) && DoneOrdered(s)
    requires DriverOk(s.flight, s.special, s.log, s.base) && r !in s.done
    requires r.Normal? && r in s.flight + s.special
    ensures DoneOrdered(Released(s, r)) && DoneOk(s.done + [r], s.log, s.base)
  {
    SameBarrier(s, r);
    LastInOrder(s, r);
  }

  lemma ReleasedCore(s: State, r: Rq)
    requires Inv(s) && r.Normal? && r in s.flight + s.special
    ensures Core(Released(s, r))
  {
    ReleasedOrder(s, r);
    ReleasedPlaces(s, r);
    ReleasedSequence(s, r);
    ColorKept(s, Released(s, r));
  }

  lemma ReleasedPlaces(s: State, r: Rq)
    requires PlacesOk(s) && Covered(s) && Apart(s.sched, s.queue, s.flight, s.special, s.orig, s.done)
    requires r in s.flight + s.special && DoneOk(s.done + [r], s.log, s.base)
    ensures var t := Released(s, r);
            PlacesOk(t) && Covered(t) && Apart(t.sched, t.queue, t.flight, t.special, t.orig, t.done)
  {
  }

  lemma ReleasedSequence(s: State, r: Rq)
    requires SequenceOk(s) && r.Normal?
    ensures SequenceOk(Released(s, r))
  {
  }

  /** `s` after the proxy `r` has ended and its bit is set. */
  ghost function ProxyEnded(s: State, r: Rq): State {
    var o := s.ordseq;
    s.(flight := s.flight - {r}, special := s.special - {r}, queue := s.queue,
       inFlight := if IsFs(r) then s.inFlight - 1 else s.inFlight,
       ordseq := o.(preflush := o.preflush || r.PreFlush?, bar := o.bar || r.Bar?,
                    postflush := o.postflush || r.PostFlush?))
  }

  lemma ProxyEndedCore(s: State, r: Rq)
    requires Inv(s) && !r.Normal? && r in s.flight + s.special
    ensures Core(ProxyEnded(s, r)) && ProxyEnded(s, r).ordseq.drain && Active(s)
  {
    ProxyEndedPlaces(s, r);
    ProxyEndedSequence(s, r);
    ColorKept(s, ProxyEnded(s, r));
  }

  lemma ProxyEndedPlaces(s: State, r: Rq)
    requires PlacesOk(s) && Covered(s) && Apart(s.sched, s.queue, s.flight, s.special, s.orig, s.done)
    requires LogOk(s.log, s.bars) && !r.Normal? && r in s.flight + s.special
    ensures var t := ProxyEnded(s, r);
            PlacesOk(t) && Covered(t) && Apart(t.sched, t.queue, t.flight, t.special, t.orig, t.done)
  {
    ProxyEndedCovered(s, r);
    ProxyEndedDriver(s, r);
  }

  lemma ProxyEndedCovered(s: State, r: Rq)
    requires Covered(s) && LogOk(s.log, s.bars) && !r.Normal?
    ensures Covered(ProxyEnded(s, r))
  {
    assert forall i :: 0 <= i < |s.log| ==> EntryOk(s.log[i], i, |s.bars|) && s.log[i] != r;
  }

  lemma ProxyEndedDriver(s: State, r: Rq)
    requires PlacesOk(s) && r in s.flight + s.special && Apart(s.sched, s.queue, s.flight, s.special, s.orig, s.done)
    ensures PlacesOk(ProxyEnded(s, r))
  {
  }

  lemma ProxyEndedSequence(s: State, r: Rq)
    requires SequenceOk(s) && DriverOk(s.flight, s.special, s.log, s.base) &&
             Apart(s.sched, s.queue, s.flight, s.special, s.orig, s.done)
    requires !r.Normal? && r in s.flight + s.special
    ensures Active(s) && s.ordseq.drain && SequenceOk(ProxyEnded(s, r))
  {
  }

  lemma EndIsReleased(s: State, r: Rq)
    requires WellFormed(s) && r.Normal?
    ensures End(s, r) == Completed(Released(s, r), false)
  {
  }

  lemma EndIsProxyEnded(s: State, r: Rq)
    requires WellFormed(s) && Active(s) && !r.Normal? && s.ordseq.drain
    ensures var t := ProxyEnded(s, r); End(s, r) == if CurSeq(t.ordseq) == ORDSEQ_DONE then Finish(t) else t
  {
  }

  lemma EndProxyInv(s: State, r: Rq)
    requires Inv(s) && !r.Normal? && r in s.flight + s.special
    ensures Inv(End(s, r))
  {
    ProxyEndedCore(s, r);
    EndIsProxyEnded(s, r);
    var t := ProxyEnded(s, r);
    if CurSeq(t.ordseq) == ORDSEQ_DONE { FinishInv(t); }
  }

  lemma EndInv(s: State, r: Rq)
    requires Inv(s) && Enabled(s, SEnd(r))
    ensures Inv(End(s, r))
  {
    if r.Normal? {
      ReleasedCore(s, r);
      EndIsReleased(s, r);
      CompletedInv(Released(s, r));
    } else {
      EndProxyInv(s, r);
    }
  }

  // --- the driver asks for the next request ---

  /** With no sequence running, the head belongs to the oldest open epoch. */
  lemma HeadIdle(s: State)
    requires Core(s) && !Active(s) && s.queue != [] && Tracked(s.queue[0])
    ensures s.queue[0].Normal? && s.queue[0].epoch == s.base
    ensures s.queue[0].hard ==> s.base < |s.bars| && s.queue[0] == s.bars[s.base]
  {
    var h := s.queue[0];
    assert h in s.queue;
    SameBarrier(s, h);
    if s.base < |s.bars| { NotBeyond(s, 0, s.base); }
  }

  /** A request may be handed out: it is not held back by a barrier. */
  predicate MayGive(s: State, r: Rq) {
    match r
    case Normal(_, fs, hard, _, _, epoch) => fs ==> !hard && epoch == s.base
    case PreFlush => s.ordseq.drain
    case Bar => s.ordseq.drain && s.ordseq.preflush
    case PostFlush => s.ordseq.drain && s.ordseq.preflush && s.ordseq.bar
  }

  lemma GiveInv(s: State, r: Rq)
    requires Inv(s) && r in s.queue && MayGive(s, r)
    ensures Inv(s.(peeked := s.peeked + {r}))
  {
    ColorKept(s, s.(peeked := s.peeked + {r}));
  }

  /** The tests of blk_do_ordered let through exactly what may be handed out. */
  lemma HeadActive(s: State)
    requires Core(s) && Active(s) && CurSeq(s.ordseq) != ORDSEQ_DONE && s.queue != []
    ensures Tracked(s.queue[0]) ==> ReqSeq(s, s.queue[0]) >= CurSeq(s.ordseq)
    ensures Tracked(s.queue[0]) ==> (ReqSeq(s, s.queue[0]) <= CurSeq(s.ordseq) <==> MayGive(s, s.queue[0]))
  {
    var h := s.queue[0];
    assert h in s.queue;
    if h.Normal? && h.fs { FirstTracked(s, 0); }
  }

  lemma ProxiesElements(pre: bool, post: bool)
    ensures var q := Proxies(pre, post);
            && (forall r :: r in q <==> r == Bar || (r == PreFlush && pre) || (r == PostFlush && post))
            && NoDup(q) && forall base :: Sorted(base, q)
  {
  }

  lemma StartRest(s: State)
    requires Core(s) && !Active(s) && s.queue != [] && IsBarrier(s.queue[0])
    ensures forall r :: r in s.queue[1..] && Tracked(r) ==> r.Normal? && Weight(s.base, r) >= 8 * s.base + 8
  {
    HeadIdle(s);
    var rest := s.queue[1..];
    forall r | r in rest && Tracked(r) ensures r.Normal? && Weight(s.base, r) >= 8 * s.base + 8 {
      var i :| 0 <= i < |rest| && rest[i] == r;
      assert s.queue[i + 1] == r && r in s.queue;
      assert Weight(s.base, s.queue[0]) <= Weight(s.base, s.queue[i + 1]);
      SameBarrier(s, r);
      assert r != s.queue[0];
    }
  }

  lemma AppendSorted(base: nat, a: seq<Rq>, b: seq<Rq>)
    requires Sorted(base, a) && Sorted(base, b)
    requires forall x, y :: x in a && y in b && Tracked(x) && Tracked(y) ==> Weight(base, x) <= Weight(base, y)
    ensures Sorted(base, a + b)
  {
    forall i, j | 0 <= i < |a| && 0 <= j < |b| && Tracked(a[i]) && Tracked(b[j])
      ensures Weight(base, a[i]) <= Weight(base, b[j])
    {
      assert a[i] in a && b[j] in b;
    }
  }

  lemma StartSorted(s: State)
    requires Core(s) && !Active(s) && s.queue != [] && IsBarrier(s.queue[0]) && s.mode.Ordering?
    ensures Sorted(s.base, StartOrdered(s).queue)
  {
    StartRest(s);
    var a := Proxies(s.mode.preflush, s.mode.postflush && !s.queue[0].empty);
    ProxiesElements(s.mode.preflush, s.mode.postflush && !s.queue[0].empty);
    AppendSorted(s.base, a, s.queue[1..]);
  }

  lemma StartElements(q: seq<Rq>, pre: bool, post: bool)
    requires q != [] && NoDup(q) && forall r :: r in q ==> r.Normal?
    ensures var w := Proxies(pre, post) + q[1..];
            && NoDup(w)
            && forall r :: r in w <==>
               (r in q && r != q[0]) || r == Bar || (r == PreFlush && pre) || (r == PostFlush && post)
  {
    ProxiesElements(pre, post);
    assert q == [q[0]] + q[1..];
    assert q[0] !in q[1..];
    assert forall r :: r in q[1..] ==> r in q;
    AppendNoDup(Proxies(pre, post), q[1..]);
  }

  lemma AppendNoDup(a: seq<Rq>, b: seq<Rq>)
    requires NoDup(a) && NoDup(b) && forall r :: r in a ==> r !in b
    ensures NoDup(a + b)
  {
    forall i, j | 0 <= i < |a| && 0 <= j < |b| ensures a[i] != b[j] {
      assert a[i] in a && b[j] in b;
    }
  }

  lemma StartPlaces(s: State)
    requires PlacesOk(s) && Covered(s) && Apart(s.sched, s.queue, s.flight, s.special, s.orig, s.done) && s.orig.None?
    requires s.queue != [] && s.queue[0].Normal? && s.queue[0].fs && s.queue[0].hard && s.mode.Ordering?
    requires NoProxy(s.queue, s.flight, s.special)
    ensures var t := StartOrdered(s);
            PlacesOk(t) && Covered(t) && Apart(t.sched, t.queue, t.flight, t.special, t.orig, t.done)
  {
    var t := StartOrdered(s);
    StartElements(s.queue, s.mode.preflush, s.mode.postflush && !s.queue[0].empty);
    assert s.queue[0] in s.queue && s.queue[0] !in s.peeked;
    assert forall r :: Somewhere(s, r) ==> Somewhere(t, r);
  }

  lemma StartSequence(s: State)
    requires SequenceOk(s) && !Active(s) && s.queue != [] && s.mode.Ordering? && !s.mode.tag && NoDup(s.queue)
    requires s.base < |s.bars| && s.queue[0] == s.bars[s.base] && s.queue[0].Normal?
    requires PeekedOk(s.peeked, s.queue, s.base) && s.inFlight == |s.flight|
    requires forall r :: r in s.queue[1..] && Tracked(r) ==> r.Normal? && Weight(s.base, r) >= 8 * s.base + 8
    ensures SequenceOk(StartOrdered(s)) && Settled(StartOrdered(s))
  {
    StartElements(s.queue, s.mode.preflush, s.mode.postflush && !s.queue[0].empty);
    StartBars(s);
  }

  lemma StartBars(s: State)
    requires s.queue != [] && s.mode.Ordering? && s.queue[0].Normal?
    requires forall n :: s.base <= n < |s.bars| ==> s.bars[n] in s.queue || s.orig == Some(s.bars[n])
    requires s.orig.None?
    ensures forall n :: s.base <= n < |s.bars| ==>
            s.bars[n] in StartOrdered(s).queue || StartOrdered(s).orig == Some(s.bars[n])
  {
    assert s.queue == [s.queue[0]] + s.queue[1..];
  }

  lemma StartInv(s: State)
    requires Inv(s) && !Active(s) && s.queue != [] && IsBarrier(s.queue[0]) && s.mode.Ordering?
    ensures Inv(StartOrdered(s))
  {
    HeadIdle(s);
    StartRest(s);
    StartSorted(s);
    StartPlaces(s);
    StartSequence(s);
    StartColor(s);
  }

  lemma StartColor(s: State)
    requires Colored(s) && s.queue != [] && s.queue[0].Normal? && s.mode.Ordering?
    ensures Colored(StartOrdered(s))
  {
    var t := StartOrdered(s);
    ProxiesElements(s.mode.preflush, s.mode.postflush && !s.queue[0].empty);
    forall r | Waits(t, r) ensures Tinted(Flip(t), r) {
      assert r.Normal? ==> Waits(s, r);
    }
  }

  /** The place holder of an empty barrier. */
  lemma EmptyBarInv(s: State, w: seq<Rq>)
    requires Inv(s) && Active(s) && MayGive(s, Bar) && Bar in s.queue && Removed(s.base, s.queue, Bar, w)
    ensures Inv(CompleteSeq(Completed(s.(queue := w, peeked := s.peeked - {Bar}), false), ORDSEQ_BAR))
  {
    var t := BarGone(s, w);
    BarGoneCore(s, w);
    EmptyBarIsGone(s, w);
    if CurSeq(t.ordseq) == ORDSEQ_DONE { FinishInv(t); }
  }

  ghost function BarGone(s: State, w: seq<Rq>): State {
    s.(queue := w, peeked := s.peeked - {Bar}, ordseq := s.ordseq.(bar := true))
  }

  lemma EmptyBarIsGone(s: State, w: seq<Rq>)
    requires WellFormed(s) && Active(s) && s.ordseq.drain
    ensures CompleteSeq(Completed(s.(queue := w, peeked := s.peeked - {Bar}), false), ORDSEQ_BAR) ==
            var t := BarGone(s, w); if CurSeq(t.ordseq) == ORDSEQ_DONE then Finish(t) else t
  {
  }

  lemma BarGoneCore(s: State, w: seq<Rq>)
    requires Core(s) && Active(s) && MayGive(s, Bar) && Bar in s.queue && Removed(s.base, s.queue, Bar, w)
    ensures Core(BarGone(s, w))
  {
    var t := BarGone(s, w);
    assert forall i :: 0 <= i < |s.log| ==> EntryOk(s.log[i], i, |s.bars|) && s.log[i] != Bar && Somewhere(t, s.log[i]);
    BarGoneSequence(s, w);
    ColorKept(s, t);
  }

  lemma BarGoneSequence(s: State, w: seq<Rq>)
    requires SequenceOk(s) && LogOk(s.log, s.bars) && Apart(s.sched, s.queue, s.flight, s.special, s.orig, s.done)
    requires Active(s) && MayGive(s, Bar) && Bar in s.queue && Removed(s.base, s.queue, Bar, w)
    ensures SequenceOk(BarGone(s, w))
  {
    forall n | s.base <= n < |s.bars| ensures s.bars[n] != Bar { BarrierKnown(s, n); }
  }

  lemma PeekIdleInv(s: State)
    requires Inv(s) && Enabled(s, SPeek) && !Active(s)
    ensures Inv(Peek(s).0)
  {
    var h := s.queue[0];
    if Tracked(h) { HeadIdle(s); }
    if !IsBarrier(h) {
      GiveInv(s, h);
    } else {
      assert s.mode.Ordering?;
      StartInv(s);
      var s1 := StartOrdered(s);
      if s1.ordseq.drain { GivenInv(s1); }
    }
  }

  /** Handing out the head of the queue, unless it is the place holder of an empty
      barrier. */
  lemma GivenInv(s: State)
    requires Inv(s) && Active(s) && s.queue != [] && MayGive(s, s.queue[0])
    ensures Inv(Given(s))
  {
    var h := s.queue[0];
    if h.Bar? && s.orig.value.empty {
      WithoutRemoved(s.base, s.queue, h);
      EmptyBarInv(s, Without(s.queue, h));
    } else {
      GiveInv(s, h);
    }
  }

  ghost function Given(s: State): State
    requires WellFormed(s) && Active(s) && s.queue != []
  {
    var h := s.queue[0];
    if h.Bar? && s.orig.value.empty
    then CompleteSeq(Completed(s.(queue := Without(s.queue, h), peeked := s.peeked - {h}), false), ORDSEQ_BAR)
    else s.(peeked := s.peeked + {h})
  }

  lemma PeekActiveInv(s: State)
    requires Inv(s) && Enabled(s, SPeek) && Active(s)
    ensures Inv(Peek(s).0)
  {
    HeadActive(s);
    var h := s.queue[0];
    if !Tracked(h) || ReqSeq(s, h) <= CurSeq(s.ordseq) {
      GivenInv(s);
      assert Peek(s).0 == Given(s);
    }
  }
}
