/**
 struct cfq_data of block/cfq-iosched.c: the queues, the service tree and the operations that
 keep them together.  Keys, classes, clocks and the choice between requests are inputs.
 */
module Cfq {
  import opened Common
  import opened SortedList
  import opened CfqTree
  import opened CfqQueue


  ghost predicate QInv(q: Queue) {
    forall u {:trigger Open(u)} :: Open(u) ==> QueueOk(q)
  }

  ghost predicate SInv(c: Code, v: Service, members: set<nat>) {
    forall u {:trigger Open(u)} :: Open(u) ==> CodeOk(c) && ServiceOk(v, members)
  }

  lemma QFacts(q: Queue)
    requires QInv(q)
    ensures q.onRr <==> q.sorted != []
    ensures q.onRr <==> q.fifo != []
    ensures q.onRr <==> q.next.Some?
    ensures q.next.Some? ==> q.next.value in q.fifo
    ensures q.queuedSync + q.queuedAsync == |q.sorted|
  {
    assert Open(true);
    CountAll(q.sorted);
    assert q.fifo != [] ==> q.fifo[0] in q.fifo;
  }

  lemma BusyFacts(c: Code, v: Service, members: set<nat>)
    requires SInv(c, v, members)
    ensures v.busy >= 0 && (v.busy == 0 <==> members == {})
    ensures v.tree.Leaf? <==> members == {}
  {
    assert Open(true);
    var s := Inorder(v.tree);
    assert s != [] ==> s[0] in s;
  }

  /** The queues that should be in the service tree. */
  ghost function Members(queues: map<nat, Queue>): set<nat> {
    set id | id in queues && queues[id].onRr
  }

  lemma MembersUpdate(queues: map<nat, Queue>, id: nat, q: Queue)
    ensures Members(queues[id := q]) == if q.onRr then Members(queues) + {id} else Members(queues) - {id}
  {
  }

  lemma EraseInv(c: Code, v: Service, id: nat, members: set<nat>)
    requires SInv(c, v, members) && id in members
    ensures SInv(c, Erase(c, v, id).(busy := v.busy - 1), members - {id})
  {
    assert Open(true);
    EraseOk(c, v, id, members);
  }

  lemma LinkInv(c: Code, v: Service, id: nat, goLeft: nat -> bool, members: set<nat>)
    requires SInv(c, v, members) && id !in members
    ensures SInv(c, Link(c, v, id, goLeft).(busy := v.busy + 1), members + {id})
  {
    assert Open(true);
    LinkOk(c, v, id, goLeft, members);
  }

  lemma MoveInv(c: Code, v: Service, id: nat, sameKey: bool, goLeft: nat -> bool, members: set<nat>)
    requires SInv(c, v, members) && id in members
    ensures SInv(c, Move(c, v, id, sameKey, goLeft), members)
  {
    assert Open(true);
    MoveOk(c, v, id, sameKey, goLeft, members);
  }

  /** The leftmost queue of the service tree. */
  ghost predicate IsFirst(tree: Tree, id: nat) {
    Inorder(tree) != [] && Inorder(tree)[0] == id
  }

  lemma FirstInv(c: Code, v: Service, members: set<nat>)
    requires SInv(c, v, members)
    ensures SInv(c, First(v).0, members)
    ensures First(v).1.None? <==> members == {}
    ensures First(v).1.Some? ==> First(v).1.value in members && IsFirst(v.tree, First(v).1.value)
  {
    assert Open(true);
    FirstOk(v, members);
  }

  /** What cfq_remove_request makes of a queue; folded like the invariants. */
  ghost predicate Removed(q: Queue, pick: Pick, s: nat, r: Queue) {
    forall u {:trigger Open(u)} :: Open(u) ==> r == Remove(q, pick, s)
  }

  method RemoveFrom(q: Queue, pick: Pick, s: nat) returns (r: Queue)
    requires QInv(q) && s in q.fifo
    ensures QInv(r) && Removed(q, pick, s, r)
    ensures |r.sorted| == |q.sorted| - 1 && r.dispatched == q.dispatched && r.fifo == Drop(q.fifo, s)
  {
    assert Open(true);
    CounterPositive(q, s);
    RemoveOk(q, pick, s);
    r := Remove(q, pick, s);
  }

  method Dispatched(q: Queue) returns (r: Queue)
    requires QInv(q)
    ensures QInv(r) && r == q.(dispatched := q.dispatched + 1)
  {
    assert Open(true);
    r := q.(dispatched := q.dispatched + 1);
  }

  method InsertInto(q: Queue, pick: Pick, rq: Rq) returns (r: Queue)
    requires QInv(q) && rq.sector !in q.fifo
    ensures QInv(r) && r == Insert(q, pick, rq)
  {
    assert Open(true);
    InsertOk(q, pick, rq);
    r := Insert(q, pick, rq);
  }

  /** cfq_reposition_rq_rb: the request of sector s starts at t after a front merge.  A request
      that already starts there is dispatched, and may leave the queue empty for a moment. */
  method Reposition(q: Queue, pick: Pick, s: nat, t: nat) returns (r: Queue, emptied: bool)
    requires QInv(q) && s in q.fifo && t < s
    ensures QInv(r) && r.onRr && t in r.fifo && s !in r.fifo
    ensures r.dispatched == q.dispatched + (if t in q.fifo then 1 else 0)
    ensures |r.sorted| == |q.sorted| - (if t in q.fifo then 1 else 0)
    ensures emptied ==> t in q.fifo
  {
    assert Open(true);
    RankOf(q.sorted, s);
    var i := Rank(q.sorted, s);
    var rq := q.sorted[i].(sector := t, nr := q.sorted[i].nr + (s - t));
    UnsortOk(q, s, i);
    var p := Unsort(q, i);
    emptied := false;
    if t in p.fifo {
      EvictOk(p, pick, s, t);
      RankOf(p.sorted, t);
      p := Remove(p, pick, t);
      p := p.(dispatched := p.dispatched + 1);
      emptied := p.sorted == [];
    }
    PutBackOk(p, pick, s, rq);
    r := PutBack(p, pick, s, rq);
    SwapHas(p.fifo, s, t);
  }

  // ----- which requests leave a queue -----

  /** The requests `left` leave a queue one after the other; stages are the queue in between. */
  ghost predicate Leaves(stages: seq<Queue>, left: seq<nat>) {
    |stages| == |left| + 1 && Distinct(left) &&
    (forall k :: 0 <= k < |left| ==>
                   left[k] in stages[k].fifo && stages[k + 1].fifo == Drop(stages[k].fifo, left[k])) &&
    forall x :: x in stages[0].fifo <==> x in left || x in stages[|left|].fifo
  }

  /** No request leaves that stays. */
  ghost predicate Gone(stages: seq<Queue>, left: seq<nat>) {
    stages != [] && forall x :: x in left ==> x !in stages[|stages| - 1].fifo
  }

  /** From number `from` on, the candidate of the queue leaves. */
  ghost predicate ByCandidate(stages: seq<Queue>, left: seq<nat>, from: nat) {
    |stages| == |left| + 1 && forall k :: from <= k < |left| ==> stages[k].next == Some(left[k])
  }

  lemma {:induction false} LeavesNext(stages: seq<Queue>, left: seq<nat>, s: nat, q: Queue)
    requires Leaves(stages, left) && Gone(stages, left)
    requires s in stages[|left|].fifo && q.fifo == Drop(stages[|left|].fifo, s)
    ensures Leaves(stages + [q], left + [s]) && Gone(stages + [q], left + [s])
  {
    assert s !in left;
    var a, b := stages + [q], left + [s];
    forall k | 0 <= k < |b| ensures b[k] in a[k].fifo && a[k + 1].fifo == Drop(a[k].fifo, b[k]) {
      if k < |left| { assert left[k] in stages[k].fifo; }
    }
    assert b[|left|] == s;
  }

  lemma {:induction false} CandidateNext(stages: seq<Queue>, left: seq<nat>, from: nat, s: nat, q: Queue)
    requires ByCandidate(stages, left, from) && (from <= |left| ==> stages[|left|].next == Some(s))
    ensures ByCandidate(stages + [q], left + [s], from)
  {
  }

  class CfqData {
    var queues: map<nat, Queue>
    var service: Service
    var active: Option<nat>
    const code: Code

    ghost predicate Valid()
      reads this
    {
      SInv(code, service, Members(queues)) && (forall id :: id in queues ==> QInv(queues[id])) &&
      (active.Some? ==> active.value in queues)
    }

    constructor (code: Code)
      requires CodeOk(code)
      ensures Valid() && queues == map[]
    {
      this.code := code;
      queues, service, active := map[], Service(Leaf, None, 0), None;
    }

    /** A queue on the round-robin is in the tree and has requests, in tree and fifo alike,
        with a candidate among them; the counters are right; the cached node is the leftmost. */
    lemma IndexesAgree(id: nat)
      requires Valid() && id in queues
      ensures var q := queues[id];
              (q.onRr <==> id in Inorder(service.tree)) && (q.onRr <==> q.sorted != []) &&
              (forall s :: s in q.fifo <==> Has(q.sorted, s)) && (q.next.Some? <==> q.sorted != []) &&
              (q.next.Some? ==> Has(q.sorted, q.next.value)) && q.queuedSync + q.queuedAsync == |q.sorted|
      ensures service.busy == |Inorder(service.tree)|
      ensures service.left.Some? ==> Inorder(service.tree) != [] && service.left.value == Inorder(service.tree)[0]
    {
      assert Open(true);
      QFacts(queues[id]);
      assert id in Members(queues) <==> queues[id].onRr;
    }

    /** A queue is created for a process. */
    method NewQueue(id: nat)
      requires Valid() && id !in queues
      modifies `queues
      ensures Valid() && queues == old(queues)[id := Queue([], [], None, 0, 0, false, 0)]
    {
      var q := Queue([], [], None, 0, 0, false, 0);
      MembersUpdate(queues, id, q);
      assert id !in Members(queues);
      assert Members(queues) - {id} == Members(queues);
      queues := queues[id := q];
    }

    /** Store a queue that enters or leaves the round-robin: cfq_add_cfqq_rr, cfq_del_cfqq_rr. */
    method Store(id: nat, q: Queue, goLeft: nat -> bool)
      requires Valid() && id in queues && QInv(q)
      modifies `queues, `service
      ensures Valid() && queues == old(queues)[id := q]
      ensures service == if q.onRr == old(queues)[id].onRr then old(service)
                         else if q.onRr then Link(code, old(service), id, goLeft).(busy := old(service).busy + 1)
                         else Erase(code, old(service), id).(busy := old(service).busy - 1)
    {
      ghost var members := Members(queues);
      MembersUpdate(queues, id, q);
      BusyFacts(code, service, members);
      if queues[id].onRr && !q.onRr {
        assert id in members && service.busy > 0;
        EraseInv(code, service, id, members);
        service := Erase(code, service, id).(busy := service.busy - 1);
      } else if !queues[id].onRr && q.onRr {
        assert id !in members;
        LinkInv(code, service, id, goLeft, members);
        service := Link(code, service, id, goLeft).(busy := service.busy + 1);
      } else {
        assert Members(queues[id := q]) == members;
      }
      queues := queues[id := q];
    }

    /** cfq_remove_request: also what cfq_merged_requests does to the request that goes away. */
    method RemoveRequest(id: nat, pick: Pick, s: nat)
      requires Valid() && id in queues && s in queues[id].fifo
      modifies `queues, `service
      ensures Valid() && id in queues && queues == old(queues)[id := queues[id]]
      ensures Removed(old(queues)[id], pick, s, queues[id]) && |queues[id].sorted| == |old(queues)[id].sorted| - 1
    {
      var q := RemoveFrom(queues[id], pick, s);
      QFacts(q);
      QFacts(queues[id]);
      Store(id, q, _ => true);
    }

    /** cfq_dispatch_insert */
    method DispatchInsert(id: nat, pick: Pick, s: nat)
      requires Valid() && id in queues && s in queues[id].fifo
      modifies `queues, `service
      ensures Valid() && id in queues && queues == old(queues)[id := queues[id]]
      ensures queues[id].fifo == Drop(old(queues)[id].fifo, s)
      ensures |queues[id].sorted| == |old(queues)[id].sorted| - 1
      ensures queues[id].dispatched == old(queues)[id].dispatched + 1
      ensures Removed(old(queues)[id], pick, s, queues[id].(dispatched := old(queues)[id].dispatched))
      ensures service == if queues[id].onRr then old(service)
                         else Erase(code, old(service), id).(busy := old(service).busy - 1)
    {
      QFacts(queues[id]);
      var q := RemoveFrom(queues[id], pick, s);
      q := Dispatched(q);
      QFacts(q);
      Store(id, q, _ => true);
    }

    /** cfq_add_rq_rb and the fifo: requests that start at the same sector are dispatched first. */
    method AddRequest(id: nat, pick: Pick, rq: Rq, goLeft: nat -> bool)
      requires Valid() && id in queues
      modifies `queues, `service
      ensures Valid() && id in queues && queues == old(queues)[id := queues[id]]
      ensures rq.sector in queues[id].fifo && queues[id].onRr
      ensures rq.sector !in old(queues)[id].fifo ==>
                queues[id] == Insert(old(queues)[id], pick, rq) &&
                service == if old(queues)[id].onRr then old(service)
                           else Link(code, old(service), id, goLeft).(busy := old(service).busy + 1)
    {
      ghost var before := queues;
      while rq.sector in queues[id].fifo
        invariant Valid() && id in queues && queues == before[id := queues[id]]
        invariant rq.sector !in before[id].fifo ==> queues[id] == before[id] && service == old(service)
        decreases |queues[id].sorted|
      {
        DispatchInsert(id, pick, rq.sector);
      }
      var q := InsertInto(queues[id], pick, rq);
      Store(id, q, goLeft);
    }

    /** cfq_preempt_queue: the active queue expires, and the other one moves to the front. */
    method PreemptQueue(id: nat, sameKey: bool, goLeft: nat -> bool, frontKey: bool, goFront: nat -> bool)
      requires Valid() && id in queues && queues[id].onRr
      modifies `service, `active
      ensures Valid() && active.None? && service.busy == old(service).busy
      ensures service == Move(code, if old(active).Some? && queues[old(active).value].onRr
                                    then Move(code, old(service), old(active).value, sameKey, goLeft) else old(service),
                              id, frontKey, goFront)
    {
      SliceExpired(sameKey, goLeft);
      assert id in Members(queues);
      MoveInv(code, service, id, frontKey, goFront, Members(queues));
      service := Move(code, service, id, frontKey, goFront);
    }

    /** cfq_insert_request; `preempts` is the answer of cfq_should_preempt. */
    method InsertRequest(id: nat, pick: Pick, rq: Rq, goLeft: nat -> bool, preempts: bool, sameKey: bool,
                         goBack: nat -> bool, frontKey: bool, goFront: nat -> bool)
      requires Valid() && id in queues
      modifies `queues, `service, `active
      ensures Valid() && id in queues && queues == old(queues)[id := queues[id]]
      ensures rq.sector in queues[id].fifo && queues[id].onRr
      ensures rq.sector !in old(queues)[id].fifo ==> queues[id] == Insert(old(queues)[id], pick, rq)
      ensures active == if old(active).Some? && old(active) != Some(id) && preempts then None else old(active)
      ensures active == old(active) && rq.sector !in old(queues)[id].fifo ==>
                service == if old(queues)[id].onRr then old(service)
                           else Link(code, old(service), id, goLeft).(busy := old(service).busy + 1)
    {
      AddRequest(id, pick, rq, goLeft);
      if active.Some? && active != Some(id) && preempts {
        PreemptQueue(id, sameKey, goBack, frontKey, goFront);
      }
    }

    /** cfq_merged_request for a front merge. */
    method FrontMerged(id: nat, pick: Pick, s: nat, t: nat, goLeft: nat -> bool)
      requires Valid() && id in queues && s in queues[id].fifo && t < s
      modifies `queues, `service
      ensures Valid() && id in queues && queues == old(queues)[id := queues[id]]
      ensures t in queues[id].fifo && s !in queues[id].fifo && service.busy == old(service).busy
      ensures t !in old(queues)[id].fifo ==> service == old(service)
      ensures |queues[id].sorted| + queues[id].dispatched == |old(queues)[id].sorted| + old(queues)[id].dispatched
    {
      QFacts(queues[id]);
      var q, emptied := Reposition(queues[id], pick, s, t);
      if emptied {
        assert id in Members(queues);
        MoveInv(code, service, id, false, goLeft, Members(queues));
        service := Move(code, service, id, false, goLeft);
      }
      Store(id, q, goLeft);
    }

    /** cfq_slice_expired: the active queue gets its next place in the tree. */
    method SliceExpired(sameKey: bool, goLeft: nat -> bool)
      requires Valid()
      modifies `service, `active
      ensures Valid() && active.None? && service.busy == old(service).busy
      ensures service == if old(active).Some? && queues[old(active).value].onRr
                         then Move(code, old(service), old(active).value, sameKey, goLeft) else old(service)
    {
      if active.Some? {
        if queues[active.value].onRr {
          assert active.value in Members(queues);
          MoveInv(code, service, active.value, sameKey, goLeft, Members(queues));
          service := Move(code, service, active.value, sameKey, goLeft);
        }
        active := None;
      }
    }

    /** __cfq_forced_dispatch_cfqq: the candidates leave until none is left. */
    method DrainQueue(id: nat, pick: Pick) returns (dispatched: nat, ghost left: seq<nat>, ghost stages: seq<Queue>)
      requires Valid() && id in queues && queues[id].onRr
      modifies `queues, `service
      ensures Valid() && id in queues && queues == old(queues)[id := queues[id]]
      ensures queues[id].sorted == [] && queues[id].fifo == [] && !queues[id].onRr
      ensures dispatched == |left| == |old(queues)[id].sorted|
      ensures Leaves(stages, left) && ByCandidate(stages, left, 0) && stages[0] == old(queues)[id]
      ensures forall s :: s in left <==> s in old(queues)[id].fifo
      ensures queues[id].dispatched == old(queues)[id].dispatched + dispatched
      ensures service.busy == old(service).busy - 1
    {
      dispatched, left, stages := 0, [], [queues[id]];
      ghost var before := queues;
      while queues[id].next.Some?
        invariant Valid() && id in queues && queues == before[id := queues[id]]
        invariant dispatched == |left| && dispatched + |queues[id].sorted| == |before[id].sorted|
        invariant Leaves(stages, left) && Gone(stages, left) && ByCandidate(stages, left, 0)
        invariant stages[0] == before[id] && stages[|left|] == queues[id]
        invariant queues[id].dispatched == before[id].dispatched + dispatched
        invariant service.busy == old(service).busy - (if queues[id].onRr then 0 else 1)
        decreases |queues[id].sorted|
      {
        QFacts(queues[id]);
        var s := queues[id].next.value;
        DispatchInsert(id, pick, s);
        LeavesNext(stages, left, s, queues[id]);
        CandidateNext(stages, left, 0, s, queues[id]);
        dispatched, left, stages := dispatched + 1, left + [s], stages + [queues[id]];
      }
      QFacts(queues[id]);
    }

    /** cfq_rb_first */
    method FirstQueue() returns (n: Option<nat>)
      requires Valid()
      modifies `service
      ensures Valid() && service.busy == old(service).busy && service.tree == old(service).tree
      ensures n.None? <==> Members(queues) == {}
      ensures n.Some? ==> n.value in queues && queues[n.value].onRr && IsFirst(service.tree, n.value)
    {
      FirstInv(code, service, Members(queues));
      var r := First(service);
      service, n := r.0, r.1;
    }

    /** cfq_forced_dispatch: every queue is drained, each of its requests leaves once, and
        nothing stays in the tree. */
    method ForcedDispatch(pick: Pick, sameKey: bool, goLeft: nat -> bool)
      requires Valid()
      modifies this
      ensures Valid() && queues.Keys == old(queues).Keys && active.None?
      ensures service.busy == 0 && service.tree.Leaf?
      ensures forall id :: id in queues ==> queues[id].sorted == [] && queues[id].fifo == []
      ensures forall id :: id in queues ==>
              queues[id].dispatched == old(queues)[id].dispatched + |old(queues)[id].sorted|
    {
      BusyFacts(code, service, Members(queues));
      var n := FirstQueue();
      while n.Some?
        invariant Valid() && queues.Keys == old(queues).Keys && service.busy >= 0
        invariant n.None? <==> Members(queues) == {}
        invariant n.Some? ==> n.value in queues && queues[n.value].onRr
        invariant forall id :: id in queues ==>
                                 |queues[id].sorted| + queues[id].dispatched ==
                                   |old(queues)[id].sorted| + old(queues)[id].dispatched
        decreases service.busy
      {
        ghost var left, stages;
        var d;
        d, left, stages := DrainQueue(n.value, pick);
        BusyFacts(code, service, Members(queues));
        n := FirstQueue();
      }
      SliceExpired(sameKey, goLeft);
      BusyFacts(code, service, Members(queues));
      assert service.busy == 0;
      forall id | id in queues ensures queues[id].sorted == [] && queues[id].fifo == [] {
        QFacts(queues[id]);
        assert id !in Members(queues);
      }
    }

    /** cfq_select_queue; `used`, `idling` and `grace` are the answers of clocks and timers.  An
        active queue that has time and requests stays, one that idles is waited for; otherwise
        the leftmost queue of the tree is next, if it is not in its grace period. */
    method SelectQueue(used: bool, idling: bool, grace: bool, sameKey: bool, goLeft: nat -> bool)
      returns (n: Option<nat>)
      requires Valid()
      modifies `service, `active
      ensures Valid()
      ensures n.Some? ==> n.value in queues && queues[n.value].sorted != [] && active == n
      ensures var a := old(active);
              if a.Some? && !used && queues[a.value].sorted != [] then n == a && service == old(service)
              else if a.Some? && !used && idling then n.None? && active == a && service == old(service)
              else active == n && (n.None? <==> grace || Members(queues) == {}) &&
                   (n.Some? ==> IsFirst(service.tree, n.value))
    {
      if active.Some? && !used {
        if queues[active.value].sorted != [] { return active; }
        if idling { return None; }
      }
      SliceExpired(sameKey, goLeft);
      n := FirstQueue();
      if n.Some? && grace { n := None; }
      active := n;
      if n.Some? { QFacts(queues[n.value]); }
    }

    /** The loop of __cfq_dispatch_requests: first the oldest request if it has expired, then the
        candidate of the queue, as often as allowed. */
    method DispatchFrom(id: nat, pick: Pick, expired: bool, maxDispatch: nat)
      returns (dispatched: nat, ghost left: seq<nat>, ghost stages: seq<Queue>)
      requires Valid() && id in queues && queues[id].sorted != []
      modifies `queues, `service
      ensures Valid() && id in queues && queues == old(queues)[id := queues[id]]
      ensures 1 <= dispatched == |left| <= |old(queues)[id].sorted| && (maxDispatch > 0 ==> dispatched <= maxDispatch)
      ensures |queues[id].sorted| + dispatched == |old(queues)[id].sorted|
      ensures queues[id].sorted == [] || dispatched >= maxDispatch
      ensures Leaves(stages, left) && Gone(stages, left) && ByCandidate(stages, left, 1)
      ensures stages[0] == old(queues)[id] && stages[dispatched] == queues[id]
      ensures if expired then stages[0].fifo != [] && left[0] == stages[0].fifo[0] else stages[0].next == Some(left[0])
    {
      dispatched, left, stages := 0, [], [queues[id]];
      ghost var before := queues;
      while dispatched == 0 || (queues[id].sorted != [] && dispatched < maxDispatch)
        invariant Valid() && id in queues && queues == before[id := queues[id]]
        invariant dispatched == |left| && |queues[id].sorted| + dispatched == |before[id].sorted|
        invariant maxDispatch > 0 ==> dispatched <= maxDispatch
        invariant Leaves(stages, left) && Gone(stages, left) && ByCandidate(stages, left, 1)
        invariant stages[0] == before[id] && stages[|left|] == queues[id]
        invariant left != [] ==> if expired then stages[0].fifo != [] && left[0] == stages[0].fifo[0]
                                 else stages[0].next == Some(left[0])
        decreases |queues[id].sorted|
      {
        QFacts(queues[id]);
        var s := if dispatched == 0 && expired then queues[id].fifo[0] else queues[id].next.value;
        DispatchInsert(id, pick, s);
        LeavesNext(stages, left, s, queues[id]);
        CandidateNext(stages, left, 1, s, queues[id]);
        dispatched, left, stages := dispatched + 1, left + [s], stages + [queues[id]];
      }
    }

    /** __cfq_dispatch_requests: at least one request, at most maxDispatch.  `expired` says
        whether the oldest request goes first, `usedUp` whether an asynchronous or idle queue
        has had its share. */
    method DispatchRequests(id: nat, pick: Pick, expired: bool, maxDispatch: nat, usedUp: bool, sameKey: bool,
                            goLeft: nat -> bool)
      returns (dispatched: nat, ghost left: seq<nat>, ghost stages: seq<Queue>)
      requires Valid() && id in queues && queues[id].sorted != []
      modifies `queues, `service, `active
      ensures Valid() && id in queues && queues == old(queues)[id := queues[id]]
      ensures 1 <= dispatched == |left| <= |old(queues)[id].sorted| && (maxDispatch > 0 ==> dispatched <= maxDispatch)
      ensures |queues[id].sorted| + dispatched == |old(queues)[id].sorted|
      ensures queues[id].sorted == [] || dispatched >= maxDispatch
      ensures Leaves(stages, left) && Gone(stages, left) && ByCandidate(stages, left, 1)
      ensures stages[0] == old(queues)[id] && stages[dispatched] == queues[id]
      ensures if expired then stages[0].fifo != [] && left[0] == stages[0].fifo[0] else stages[0].next == Some(left[0])
      ensures active == if service.busy > 1 && usedUp then None else old(active)
    {
      dispatched, left, stages := DispatchFrom(id, pick, expired, maxDispatch);
      if service.busy > 1 && usedUp { SliceExpired(sameKey, goLeft); }
    }

    /** cfq_merged_requests: the request of sector t was merged into that of sector s. */
    method MergedRequests(id: nat, pick: Pick, s: nat, t: nat, older: bool)
      requires Valid() && id in queues && s in queues[id].fifo && t in queues[id].fifo && s != t
      modifies `queues, `service
      ensures Valid() && queues == old(queues)[id := Absorb(old(queues)[id], pick, s, t, older)]
      ensures service == old(service)
    {
      QFacts(queues[id]);
      var q := Absorb(queues[id], pick, s, t, older);
      assert QInv(q) && q.onRr by {
        assert Open(true);
        AbsorbOk(queues[id], pick, s, t, older);
      }
      Store(id, q, _ => true);
    }
  }
}
