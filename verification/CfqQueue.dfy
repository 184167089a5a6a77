/**
 One queue of the CFQ scheduler, struct cfq_queue in block/cfq-iosched.c.  The criterion of
 cfq_choose_req is an arbitrary function: nothing here depends on it.
 */
module CfqQueue {
  import opened Common
  import opened SortedList

  /** sort_list, fifo, next_rq, queued[1], queued[0], the on_rr flag and dispatched. */
  datatype Queue = Queue(sorted: seq<Rq>, fifo: seq<nat>, next: Option<nat>, queuedSync: int, queuedAsync: int,
                         onRr: bool, dispatched: nat)

  /** Whether cfq_choose_req keeps the first of two requests. */
  type Pick = (nat, nat) -> bool

  function Choose(pick: Pick, a: Option<nat>, b: Option<nat>): Option<nat> {
    if a.None? || a == b then b else if b.None? then a else if pick(a.value, b.value) then a else b
  }

  /** cfq_find_next_rq */
  function FindNext(pick: Pick, q: seq<Rq>, i: nat): Option<nat>
    requires i < |q|
  {
    var next := if i + 1 < |q| then Some(q[i + 1].sector) else if i > 0 then Some(q[0].sector) else None;
    var prev := if i > 0 then Some(q[i - 1].sector) else None;
    Choose(pick, next, prev)
  }

  lemma FindNextHas(pick: Pick, q: seq<Rq>, i: nat)
    requires Ascending(q) && i < |q|
    ensures FindNext(pick, q, i).None? <==> |q| == 1
    ensures FindNext(pick, q, i).Some? ==>
              Has(q, FindNext(pick, q, i).value) && FindNext(pick, q, i).value != q[i].sector
  {
  }

  /** The candidates are the two neighbours, or for the last request the first one and the one
      before it. */
  lemma FindNextIs(pick: Pick, q: seq<Rq>, i: nat)
    requires Ascending(q) && i < |q|
    ensures 0 < i < |q| - 1 ==>
              FindNext(pick, q, i) ==
              Some((if pick(q[i + 1].sector, q[i - 1].sector) then q[i + 1] else q[i - 1]).sector)
    ensures 1 < i == |q| - 1 ==>
              FindNext(pick, q, i) == Some((if pick(q[0].sector, q[i - 1].sector) then q[0] else q[i - 1]).sector)
    ensures |q| == 2 ==> FindNext(pick, q, i) == Some(q[1 - i].sector)
    ensures i == 0 < |q| - 1 ==> FindNext(pick, q, i) == Some(q[1].sector)
  {
  }

  function Count(q: seq<Rq>, sync: bool): nat {
    if q == [] then 0 else (if q[0].sync == sync then 1 else 0) + Count(q[1..], sync)
  }

  lemma {:induction false} CountConcat(a: seq<Rq>, b: seq<Rq>, sync: bool)
    ensures Count(a + b, sync) == Count(a, sync) + Count(b, sync)
  {
    if a == [] {
      assert a + b == b;
    } else {
      assert (a + b)[1..] == a[1..] + b;
      CountConcat(a[1..], b, sync);
    }
  }

  lemma {:induction false} CountWithout(q: seq<Rq>, i: nat, sync: bool)
    requires i < |q|
    ensures Count(Without(q, i), sync) == Count(q, sync) - (if q[i].sync == sync then 1 else 0)
  {
    assert q == q[..i] + ([q[i]] + q[i + 1..]);
    CountConcat(q[..i], [q[i]] + q[i + 1..], sync);
    CountConcat([q[i]], q[i + 1..], sync);
    CountConcat(q[..i], q[i + 1..], sync);
  }

  lemma {:induction false} CountPlaced(q: seq<Rq>, rq: Rq, sync: bool)
    ensures Count(Placed(q, rq), sync) == Count(q, sync) + (if rq.sync == sync then 1 else 0)
  {
    var i := Rank(q, rq.sector);
    assert q == q[..i] + q[i..];
    CountConcat(q[..i], q[i..], sync);
    CountConcat(q[..i], [rq], sync);
    CountConcat(q[..i] + [rq], q[i..], sync);
  }

  lemma {:induction false} CountAll(q: seq<Rq>)
    ensures Count(q, true) + Count(q, false) == |q|
  {
    if q != [] { CountAll(q[1..]); }
  }

  /** The counters and the candidate fit the sorted list. */
  ghost predicate Fits(q: Queue) {
    Ascending(q.sorted) && q.queuedSync == Count(q.sorted, true) && q.queuedAsync == Count(q.sorted, false) &&
    (q.next.None? <==> q.sorted == []) && (q.next.Some? ==> Has(q.sorted, q.next.value))
  }

  /** And the fifo holds the same requests. */
  ghost predicate QueueOk(q: Queue) {
    Fits(q) && Distinct(q.fifo) && (forall s :: s in q.fifo <==> Has(q.sorted, s)) && (q.onRr <==> q.sorted != [])
  }

  /** elv_rb_del and the counter, on their own. */
  function Unsort(q: Queue, i: nat): Queue
    requires i < |q.sorted|
  {
    var rq := q.sorted[i];
    q.(sorted := Without(q.sorted, i), queuedSync := q.queuedSync - (if rq.sync then 1 else 0),
    queuedAsync := q.queuedAsync - (if rq.sync then 0 else 1))
  }

  /** elv_rb_add and the counter. */
  function Sort(q: Queue, rq: Rq): Queue {
    q.(sorted := Placed(q.sorted, rq), queuedSync := q.queuedSync + (if rq.sync then 1 else 0),
    queuedAsync := q.queuedAsync + (if rq.sync then 0 else 1))
  }

  /** cfq_remove_request: a queue without requests leaves the round-robin. */
  function Remove(q: Queue, pick: Pick, s: nat): Queue {
    var i := Rank(q.sorted, s);
    if i == |q.sorted| then q else
      var next := if q.next == Some(s) then FindNext(pick, q.sorted, i) else q.next;
      var r := Unsort(q, i).(fifo := Drop(q.fifo, s), next := next);
      r.(onRr := r.onRr && r.sorted != [])
  }

  lemma {:induction false} RemoveOk(q: Queue, pick: Pick, s: nat)
    requires QueueOk(q) && s in q.fifo
    ensures QueueOk(Remove(q, pick, s)) && |Remove(q, pick, s).sorted| == |q.sorted| - 1
    ensures Remove(q, pick, s).fifo == Drop(q.fifo, s)
  {
    RankOf(q.sorted, s);
    var i := Rank(q.sorted, s);
    WithoutHas(q.sorted, i);
    DropDistinct(q.fifo, s);
    FindNextHas(pick, q.sorted, i);
    CountWithout(q.sorted, i, true);
    CountWithout(q.sorted, i, false);
  }

  /** No counter is zero when cfq_del_rq_rb decrements it. */
  lemma {:induction false} CounterPositive(q: Queue, s: nat)
    requires QueueOk(q) && s in q.fifo
    ensures Rank(q.sorted, s) < |q.sorted|
    ensures (if q.sorted[Rank(q.sorted, s)].sync then q.queuedSync else q.queuedAsync) > 0
  {
    RankOf(q.sorted, s);
    var i := Rank(q.sorted, s);
    CountWithout(q.sorted, i, q.sorted[i].sync);
  }

  /** cfq_add_rq_rb once no alias is left, and the addition to the fifo. */
  function Insert(q: Queue, pick: Pick, rq: Rq): Queue {
    Sort(q, rq).(fifo := q.fifo + [rq.sector], next := Choose(pick, q.next, Some(rq.sector)), onRr := true)
  }

  lemma {:induction false} InsertOk(q: Queue, pick: Pick, rq: Rq)
    requires QueueOk(q) && rq.sector !in q.fifo
    ensures QueueOk(Insert(q, pick, rq)) && Insert(q, pick, rq).next.Some?
  {
    PlacedOk(q.sorted, rq);
    CountPlaced(q.sorted, rq, true);
    CountPlaced(q.sorted, rq, false);
    assert Has(Placed(q.sorted, rq), rq.sector);
  }

  /** cfq_merged_requests: the request of sector t is merged into that of sector s. */
  function Absorb(q: Queue, pick: Pick, s: nat, t: nat, older: bool): Queue {
    var r := Remove(q, pick, t);
    r.(fifo := if older then Swap(Drop(q.fifo, s), t, s) else r.fifo)
  }

  lemma {:induction false} AbsorbOk(q: Queue, pick: Pick, s: nat, t: nat, older: bool)
    requires QueueOk(q) && s in q.fifo && t in q.fifo && s != t
    ensures QueueOk(Absorb(q, pick, s, t, older)) && Absorb(q, pick, s, t, older).onRr
  {
    RemoveOk(q, pick, t);
    DropDistinct(q.fifo, s);
    SwapHas(Drop(q.fifo, s), t, s);
    assert s in Remove(q, pick, t).fifo;
  }

  /** The survivor stays where it is, or takes the place of the other in the fifo. */
  lemma {:induction false} AbsorbPlace(q: Queue, pick: Pick, s: nat, t: nat, older: bool, a: seq<nat>, b: seq<nat>)
    requires QueueOk(q) && s in q.fifo && t in q.fifo && s != t && Drop(q.fifo, s) == a + [t] + b
    ensures Absorb(q, pick, s, t, older).fifo == if older then a + [s] + b else Drop(q.fifo, t)
  {
    RemoveOk(q, pick, t);
    DropDistinct(q.fifo, s);
    SwapPlace(a, t, b, s);
  }

  // ----- cfq_reposition_rq_rb: a front merge moves the start of a request from s to t -----

  /** In between, the request is in the fifo but not in the tree. */
  ghost predicate Lifted(q: Queue, s: nat) {
    Ascending(q.sorted) && q.queuedSync == Count(q.sorted, true) && q.queuedAsync == Count(q.sorted, false) &&
    Distinct(q.fifo) && (forall x :: x in q.fifo <==> Has(q.sorted, x) || x == s) && !Has(q.sorted, s) &&
    (q.next.Some? && q.next.value != s ==> Has(q.sorted, q.next.value))
  }

  lemma {:induction false} UnsortOk(q: Queue, s: nat, i: nat)
    requires QueueOk(q) && i < |q.sorted| && q.sorted[i].sector == s
    ensures Lifted(Unsort(q, i), s)
  {
    WithoutHas(q.sorted, i);
    CountWithout(q.sorted, i, true);
    CountWithout(q.sorted, i, false);
  }

  /** An alias at the new place is dispatched. */
  lemma {:induction false} EvictOk(q: Queue, pick: Pick, s: nat, t: nat)
    requires Lifted(q, s) && t in q.fifo && t != s
    ensures Lifted(Remove(q, pick, t), s) && t !in Remove(q, pick, t).fifo
  {
    RankOf(q.sorted, t);
    var i := Rank(q.sorted, t);
    WithoutHas(q.sorted, i);
    DropDistinct(q.fifo, t);
    FindNextHas(pick, q.sorted, i);
    CountWithout(q.sorted, i, true);
    CountWithout(q.sorted, i, false);
  }

  /** The request goes back under its new key. */
  function PutBack(q: Queue, pick: Pick, s: nat, rq: Rq): Queue {
    var next := if q.next == Some(s) then Some(rq.sector) else q.next;
    Sort(q, rq).(fifo := Swap(q.fifo, s, rq.sector), next := Choose(pick, next, Some(rq.sector)), onRr := true)
  }

  lemma {:induction false} PutBackOk(q: Queue, pick: Pick, s: nat, rq: Rq)
    requires Lifted(q, s) && rq.sector !in q.fifo
    ensures QueueOk(PutBack(q, pick, s, rq))
  {
    PlacedOk(q.sorted, rq);
    CountPlaced(q.sorted, rq, true);
    CountPlaced(q.sorted, rq, false);
    SwapHas(q.fifo, s, rq.sector);
    assert Has(Placed(q.sorted, rq), rq.sector);
  }

  // ----- what the operations do to the requests of a queue -----

  /** A new request is last in the fifo, and the candidate if it is chosen over the old one. */
  lemma {:induction false} InsertMeans(q: Queue, pick: Pick, rq: Rq, x: Rq)
    requires QueueOk(q) && rq.sector !in q.fifo
    ensures x in Insert(q, pick, rq).sorted <==> x in q.sorted || x == rq
    ensures Insert(q, pick, rq).fifo == q.fifo + [rq.sector] && Insert(q, pick, rq).dispatched == q.dispatched
    ensures Insert(q, pick, rq).next ==
            if q.next.Some? && pick(q.next.value, rq.sector) then q.next else Some(rq.sector)
  {
    PlacedHolds(q.sorted, rq, x);
  }

  /** A removed request leaves tree and fifo; the candidate stays if it is another one, and is
      looked up next to the request if it is not. */
  lemma {:induction false} RemoveMeans(q: Queue, pick: Pick, rq: Rq, x: Rq, a: seq<nat>, b: seq<nat>)
    requires QueueOk(q) && rq in q.sorted && q.fifo == a + [rq.sector] + b
    ensures x in Remove(q, pick, rq.sector).sorted <==> x in q.sorted && x != rq
    ensures Remove(q, pick, rq.sector).fifo == a + b && Remove(q, pick, rq.sector).dispatched == q.dispatched
    ensures q.next != Some(rq.sector) ==> Remove(q, pick, rq.sector).next == q.next
    ensures Rank(q.sorted, rq.sector) < |q.sorted|
    ensures q.next == Some(rq.sector) ==>
              Remove(q, pick, rq.sector).next == FindNext(pick, q.sorted, Rank(q.sorted, rq.sector))
  {
    RankOfRq(q.sorted, rq);
    WithoutHolds(q.sorted, Rank(q.sorted, rq.sector), x);
    DropMiddle(a, rq.sector, b);
  }

  /** A repositioned request takes its place in the fifo along and may become the candidate. */
  lemma {:induction false} PutBackMeans(q: Queue, pick: Pick, s: nat, rq: Rq, x: Rq, a: seq<nat>, b: seq<nat>)
    requires Distinct(q.fifo) && q.fifo == a + [s] + b && rq.sector < s && q.next != Some(rq.sector)
    ensures x in PutBack(q, pick, s, rq).sorted <==> x in q.sorted || x == rq
    ensures PutBack(q, pick, s, rq).fifo == a + [rq.sector] + b
    ensures PutBack(q, pick, s, rq).next ==
            if q.next.Some? && q.next != Some(s) && pick(q.next.value, rq.sector) then q.next else Some(rq.sector)
  {
    PlacedHolds(q.sorted, rq, x);
    SwapPlace(a, s, b, rq.sector);
  }
}
