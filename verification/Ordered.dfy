/**
 The write-barrier protocol of block/ll_rw_blk.c and block/elevator.c as a state
 machine.  Every entry point that runs under the queue lock is one step.

 A barrier is replaced, when it reaches the head of the dispatch queue, by up to
 three proxy requests (pre-flush, bar, post-flush).  Progress is tracked in the bit
 set `ordseq`, and requests are told apart by a single colour bit.
 */
module Ordered {
  import opened Common

  // include/linux/blkdev.h, the ordered operation sequence
  const ORDSEQ_STARTED: nat := 0x01
  const ORDSEQ_DRAIN: nat := 0x02
  const ORDSEQ_PREFLUSH: nat := 0x04
  const ORDSEQ_BAR: nat := 0x08
  const ORDSEQ_POSTFLUSH: nat := 0x10
  const ORDSEQ_DONE: nat := 0x20

  /** A request.  `id` is its place in submission order, `hard` is REQ_HARDBARRIER,
      `empty` says that it carries no sectors, `color` is REQ_ORDERED_COLOR and `epoch`
      records how many barriers were submitted before it.  The other three are the
      proxies embedded in the queue. */
  datatype Rq =
    | Normal(id: nat, fs: bool, hard: bool, empty: bool, color: bool, epoch: nat)
    | PreFlush
    | Bar
    | PostFlush

  /** The five bits of q->ordseq below ORDSEQ_DONE. */
  datatype OrdSeq = OrdSeq(started: bool, drain: bool, preflush: bool, bar: bool, postflush: bool)

  /** q->next_ordered: QUEUE_ORDERED_NONE, or draining/tag with optional flushes. */
  datatype Mode = Unordered | Ordering(tag: bool, preflush: bool, postflush: bool)

  /** `sched` is held by the I/O scheduler, `queue` is queue_head, `peeked` are the
      queued requests that carry REQ_STARTED, `flight` and `special` are the dequeued
      file-system and other requests.  `log`, `bars`, `base` and `done` record history:
      the requests submitted, the barriers among them, how many of those have ended,
      and every request ended, in order. */
  datatype State = State(
    mode: Mode,
    sched: set<Rq>,
    queue: seq<Rq>,
    peeked: set<Rq>,
    flight: set<Rq>,
    special: set<Rq>,
    ordseq: OrdSeq,
    orig: Option<Rq>,
    ordcolor: bool,
    inFlight: int,
    log: seq<Rq>,
    bars: seq<Rq>,
    base: nat,
    done: seq<Rq>)

  const IDLE := OrdSeq(false, false, false, false, false)

  function Init(mode: Mode): State {
    State(mode, {}, [], {}, {}, {}, IDLE, None, false, 0, [], [], 0, [])
  }

  /** blk_fs_request */
  predicate IsFs(r: Rq) {
    r.Bar? || (r.Normal? && r.fs)
  }

  /** blk_fs_request && blk_barrier_rq */
  predicate IsBarrier(r: Rq) {
    r.Bar? || (r.Normal? && r.fs && r.hard)
  }

  predicate Active(s: State) {
    s.ordseq.started
  }

  /** blk_ordered_cur_seq: the lowest clear bit of a non-zero ordseq. */
  function CurSeq(o: OrdSeq): nat {
    if !o.started then 0
    else if !o.drain then ORDSEQ_DRAIN
    else if !o.preflush then ORDSEQ_PREFLUSH
    else if !o.bar then ORDSEQ_BAR
    else if !o.postflush then ORDSEQ_POSTFLUSH
    else ORDSEQ_DONE
  }

  /** blk_ordered_req_seq, for the sequence of a barrier. */
  function SeqOf(barrier: Rq, r: Rq): nat
    requires barrier.Normal?
  {
    match r
    case PreFlush => ORDSEQ_PREFLUSH
    case Bar => ORDSEQ_BAR
    case PostFlush => ORDSEQ_POSTFLUSH
    case Normal(_, fs, _, _, color, _) =>
      if !fs then ORDSEQ_DRAIN
      else if color == barrier.color then ORDSEQ_DRAIN
      else ORDSEQ_DONE
  }

  function ReqSeq(s: State, r: Rq): nat
    requires Active(s) && s.orig.Some? && s.orig.value.Normal?
  {
    SeqOf(s.orig.value, r)
  }

  /** An active sequence has its original barrier on record. */
  predicate WellFormed(s: State) {
    && (Active(s) <==> s.orig.Some?)
    && (s.orig.Some? ==> s.orig.value.Normal?)
  }

  datatype Where = Front | Back | Sort

  /** __elv_add_request followed by elv_insert.  A back insertion drains the scheduler first,
      see `Careful`. */
  function Add(s: State, fs: bool, hard: bool, empty: bool, pos: Where): State
  {
    var r := Normal(|s.log|, fs, hard, empty, s.ordcolor, |s.bars|);
    var s1 := s.(log := s.log + [r],
                 ordcolor := if hard then !s.ordcolor else s.ordcolor,
                 bars := if fs && hard then s.bars + [r] else s.bars);
    match (if hard && pos.Sort? then Back else pos)
    case Front => s1.(queue := [r] + s.queue)
    case Back => s1.(queue := s.queue + [r])
    case Sort => s1.(sched := s.sched + {r})
  }

  /** The scheduler hands `r` over with elv_dispatch_sort or elv_dispatch_add_tail;
      `p` is where it lands. */
  function Dispatch(s: State, r: Rq, p: nat): State
    requires p <= |s.queue|
  {
    s.(sched := s.sched - {r}, queue := s.queue[..p] + [r] + s.queue[p..])
  }

  /** blk_ordered_complete_seq */
  function CompleteSeq(s: State, phase: nat): State {
    var o := s.ordseq;
    var o1 := o.(drain := o.drain || phase == ORDSEQ_DRAIN,
                 preflush := o.preflush || phase == ORDSEQ_PREFLUSH,
                 bar := o.bar || phase == ORDSEQ_BAR,
                 postflush := o.postflush || phase == ORDSEQ_POSTFLUSH);
    if CurSeq(o1) == ORDSEQ_DONE && s.orig.Some? then
      s.(ordseq := IDLE, orig := None, done := s.done + [s.orig.value], base := s.base + 1)
    else
      s.(ordseq := o1)
  }

  /** elv_completed_request, for a request that is already off every list. */
  function Completed(s: State, account: bool): State
    requires WellFormed(s)
  {
    var s1 := if account then s.(inFlight := s.inFlight - 1) else s;
    if Active(s1) && s1.inFlight == 0 && CurSeq(s1.ordseq) == ORDSEQ_DRAIN
       && s1.queue != [] && ReqSeq(s1, s1.queue[0]) > ORDSEQ_DRAIN
    then CompleteSeq(s1, ORDSEQ_DRAIN)
    else s1
  }

  function PhaseOf(r: Rq): nat
    requires !r.Normal?
  {
    match r
    case PreFlush => ORDSEQ_PREFLUSH
    case Bar => ORDSEQ_BAR
    case PostFlush => ORDSEQ_POSTFLUSH
  }

  /** end_that_request_last for a request the driver holds: __blk_put_request for an
      ordinary one, the end_io of the proxy otherwise. */
  function End(s: State, r: Rq): State
    requires WellFormed(s)
  {
    var s1 := s.(flight := s.flight - {r}, special := s.special - {r});
    if r.Normal? then
      Completed(s1.(done := s.done + [r]), r.fs)
    else
      CompleteSeq(Completed(s1, IsFs(r)), PhaseOf(r))
  }

  /** elv_dequeue_request */
  function Dequeue(s: State, r: Rq): State
    requires r in s.queue
  {
    var s1 := s.(queue := Without(s.queue, r), peeked := s.peeked - {r});
    if IsFs(r)
    then s1.(flight := s.flight + {r}, inFlight := s.inFlight + 1)
    else s1.(special := s.special + {r})
  }

  function Without(q: seq<Rq>, r: Rq): (w: seq<Rq>)
    requires r in q
    ensures |w| == |q| - 1
  {
    if q[0] == r then q[1..] else [q[0]] + Without(q[1..], r)
  }

  /** The list walk of ELEVATOR_INSERT_REQUEUE. */
  function RequeuePos(s: State, q: seq<Rq>, ordseq: nat): (p: nat)
    requires Active(s) && s.orig.Some? && s.orig.value.Normal?
    ensures p <= |q|
  {
    if q == [] || ordseq <= ReqSeq(s, q[0]) then 0 else 1 + RequeuePos(s, q[1..], ordseq)
  }

  /** elv_requeue_request */
  function Requeue(s: State, r: Rq): State
    requires WellFormed(s)
  {
    var p := if Active(s) then RequeuePos(s, s.queue, ReqSeq(s, r)) else 0;
    s.(flight := s.flight - {r}, special := s.special - {r},
       inFlight := if IsFs(r) then s.inFlight - 1 else s.inFlight,
       queue := s.queue[..p] + [r] + s.queue[p..])
  }

  /** The proxies of one sequence, in order. */
  function Proxies(preflush: bool, postflush: bool): seq<Rq> {
    (if preflush then [PreFlush] else []) + [Bar] + (if postflush then [PostFlush] else [])
  }

  /** start_ordered: the proxies are stacked in front. */
  function StartOrdered(s: State): State
    requires s.queue != [] && s.queue[0].Normal? && s.mode.Ordering?
  {
    var b := s.queue[0];
    var post := s.mode.postflush && !b.empty;
    var drained := s.mode.tag || s.inFlight == 0;
    s.(orig := Some(b),
       queue := Proxies(s.mode.preflush, post) + s.queue[1..],
       ordseq := OrdSeq(true, drained, !s.mode.preflush, false, !post))
  }

  /** What blk_do_ordered makes of the head of the queue. */
  datatype Answer = Give(rq: Rq) | Hold | Again

  /** blk_do_ordered */
  function DoOrdered(s: State): (res: (State, Answer))
    requires WellFormed(s) && s.queue != []
    requires !Active(s) ==> s.queue[0].Normal?
  {
    var r := s.queue[0];
    if !Active(s) then
      if !IsBarrier(r) then (s, Give(r))
      else if s.mode.Ordering? then
        var s1 := StartOrdered(s);
        (s1, if s1.ordseq.drain then Give(s1.queue[0]) else Hold)
      else
        (s.(queue := s.queue[1..], done := s.done + [r], base := s.base + 1), Again)
    else if r.Normal? && !r.fs then (s, Give(r))
    else if s.mode.Ordering? && s.mode.tag then
      (s, if IsBarrier(r) && !r.Bar? then Hold else Give(r))
    else
      (s, if ReqSeq(s, r) > CurSeq(s.ordseq) then Hold else Give(r))
  }

  /** One turn of the loop of elv_next_request on a non-empty queue.  The place holder
      of an empty barrier is ended at once and never shown to the driver. */
  function Peek(s: State): (res: (State, Option<Rq>))
    requires WellFormed(s) && s.queue != []
    requires !Active(s) ==> s.queue[0].Normal?
  {
    match DoOrdered(s)
    case (s1, Give(r)) =>
      if r.Bar? && s1.orig.Some? && s1.orig.value.Normal? && s1.orig.value.empty && r in s1.queue
      then (CompleteSeq(Completed(s1.(queue := Without(s1.queue, r), peeked := s1.peeked - {r}), false), ORDSEQ_BAR),
            None)
      else (s1.(peeked := s1.peeked + {r}), Some(r))
    case (s1, _) => (s1, None)
  }

  datatype Step =
    | SAdd(fs: bool, hard: bool, empty: bool, pos: Where)
    | SDispatch(rq: Rq, at: nat)
    | SPeek
    | SDequeue(rq: Rq)
    | SRequeue(rq: Rq)
    | SEnd(rq: Rq)
    | SMode(mode: Mode)

  /** REQ_HARDBARRIER; the proxies carry it too. */
  predicate Hard(r: Rq) {
    !r.Normal? || r.hard
  }

  /** A place in the queue that elv_dispatch_sort or elv_dispatch_add_tail may choose:
      nothing it has to stop at lies behind it. */
  predicate MayLand(s: State, p: nat) {
    && p <= |s.queue|
    && forall i :: p <= i < |s.queue| ==> !Hard(s.queue[i]) && s.queue[i] !in s.peeked
  }

  /** What the callers of each entry point guarantee: file-system requests are never inserted
      in front, others never sorted; the driver dequeues only what it has been given and ends or
      requeues only what it holds; blk_queue_ordered may set any mode without tags, at any
      time. */
  predicate Enabled(s: State, step: Step) {
    match step
    case SAdd(fs, _, _, pos) => if fs then !pos.Front? else !pos.Sort?
    case SDispatch(r, p) => r in s.sched && MayLand(s, p)
    case SPeek => WellFormed(s) && s.queue != [] && (!Active(s) ==> s.queue[0].Normal?)
    case SDequeue(r) => r in s.peeked && r in s.queue
    case SRequeue(r) => WellFormed(s) && r in s.flight + s.special
    case SEnd(r) => WellFormed(s) && r in s.flight + s.special
    case SMode(m) => m.Ordering? ==> !m.tag
  }

  function Apply(s: State, step: Step): State
    requires Enabled(s, step)
  {
    match step
    case SAdd(fs, hard, empty, pos) => Add(s, fs, hard, empty, pos)
    case SDispatch(r, p) => Dispatch(s, r, p)
    case SPeek => Peek(s).0
    case SDequeue(r) => Dequeue(s, r)
    case SRequeue(r) => Requeue(s, r)
    case SEnd(r) => End(s, r)
    case SMode(m) => s.(mode := m)
  }

  /** No file-system request is outstanding. */
  predicate Quiet(s: State) {
    s.sched == {} && s.flight == {} && !Active(s) && forall r :: r in s.queue ==> !IsFs(r)
  }

  /** A barrier is waiting for its sequence. */
  predicate BarrierQueued(q: seq<Rq>) {
    exists r :: r in q && r.Normal? && r.fs && r.hard
  }

  /** Three things that the code leaves to others: a request that is not a file-system request
      carries REQ_HARDBARRIER only when no file-system request is outstanding; the scheduler
      is empty when a barrier is queued behind it; and no barrier is queued in mode NONE,
      neither by a late submission nor by a switch of the mode. */
  datatype Care = Care(special: bool, drained: bool, modes: bool)

  const ALL := Care(true, true, true)

  predicate Careful(care: Care, s: State, step: Step) {
    match step
    case SAdd(fs, hard, _, _) =>
      hard ==>
        if fs then (care.drained ==> s.sched == {}) && (care.modes ==> s.mode.Ordering?)
        else care.special ==> Quiet(s)
    case SMode(m) => care.modes && m.Unordered? ==> !BarrierQueued(s.queue)
    case _ => true
  }

  /** `run` leads from `s` to `t` with the given care. */
  ghost predicate Leads(care: Care, s: State, run: seq<Step>, t: State)
    decreases |run|
  {
    if run == [] then s == t
    else Enabled(s, run[0]) && Careful(care, s, run[0]) && Leads(care, Apply(s, run[0]), run[1..], t)
  }
}
