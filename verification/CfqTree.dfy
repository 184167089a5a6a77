/**
 The service tree of the CFQ scheduler with its cached leftmost node, block/cfq-iosched.c.
 A queue's class can change while it is in the tree, so nothing is assumed about the
 comparisons of a walk; and rebalancing may be anything that keeps the order of the nodes.
 */
module CfqTree {
  import opened Common
  import opened SortedList

  datatype Tree = Leaf | Node(left: Tree, id: nat, right: Tree)

  function Inorder(t: Tree): seq<nat> {
    match t
    case Leaf => []
    case Node(l, id, r) => Inorder(l) + [id] + Inorder(r)
  }

  /** The walk of cfq_service_tree_add: `goLeft` compares with a node.  Returns the tree with
      the new leaf, and whether the walk never turned right. */
  function Walk(t: Tree, id: nat, goLeft: nat -> bool): (Tree, bool) {
    match t
    case Leaf => (Node(Leaf, id, Leaf), true)
    case Node(l, n, r) =>
      if goLeft(n) then var w := Walk(l, id, goLeft); (Node(w.0, n, r), w.1)
      else (Node(l, n, Walk(r, id, goLeft).0), false)
  }

  /** How many nodes come before the new one. */
  function Place(t: Tree, goLeft: nat -> bool): (p: nat)
    ensures p <= |Inorder(t)|
  {
    match t
    case Leaf => 0
    case Node(l, n, r) => if goLeft(n) then Place(l, goLeft) else |Inorder(l)| + 1 + Place(r, goLeft)
  }

  lemma InsertLeft(a: seq<nat>, n: nat, b: seq<nat>, p: nat, id: nat)
    requires p <= |a|
    ensures Inserted(a, p, id) + [n] + b == Inserted(a + [n] + b, p, id)
  {
    assert (a + [n] + b)[..p] == a[..p] && (a + [n] + b)[p..] == a[p..] + [n] + b;
  }

  lemma InsertRight(a: seq<nat>, n: nat, b: seq<nat>, p: nat, id: nat)
    requires p <= |b|
    ensures a + [n] + Inserted(b, p, id) == Inserted(a + [n] + b, |a| + 1 + p, id)
  {
    var q := |a| + 1 + p;
    assert (a + [n] + b)[..q] == a + [n] + b[..p] && (a + [n] + b)[q..] == b[p..];
  }

  /** The flag of the walk tells exactly whether the new node is the leftmost one. */
  lemma {:induction false} WalkPlaces(t: Tree, id: nat, goLeft: nat -> bool)
    ensures Inorder(Walk(t, id, goLeft).0) == Inserted(Inorder(t), Place(t, goLeft), id)
    ensures Walk(t, id, goLeft).1 <==> Place(t, goLeft) == 0
  {
    match t
    case Leaf =>
    case Node(l, n, r) =>
      if goLeft(n) {
        WalkPlaces(l, id, goLeft);
        InsertLeft(Inorder(l), n, Inorder(r), Place(l, goLeft), id);
      } else {
        WalkPlaces(r, id, goLeft);
        InsertRight(Inorder(l), n, Inorder(r), Place(r, goLeft), id);
      }
  }

  /** The code of the red-black tree: rebalancing after an insertion, and erasing a node. */
  datatype Code = Code(rebalance: Tree -> Tree, erase: (Tree, nat) -> Tree)

  ghost predicate CodeOk(c: Code) {
    (forall t :: Inorder(c.rebalance(t)) == Inorder(t)) &&
    (forall t, id :: Inorder(c.erase(t, id)) == Drop(Inorder(t), id))
  }

  /** struct cfq_rb_root and busy_queues. */
  datatype Service = Service(tree: Tree, left: Option<nat>, busy: int)

  /** The tree holds exactly the members, the cache is empty or right, the count is right. */
  ghost predicate ServiceOk(v: Service, members: set<nat>) {
    var s := Inorder(v.tree);
    Distinct(s) && (forall id :: id in s <==> id in members) && v.busy == |s| &&
    (v.left.Some? ==> s != [] && v.left.value == s[0])
  }

  /** cfq_rb_first */
  function First(v: Service): (r: (Service, Option<nat>))
    ensures r.0.tree == v.tree && r.0.busy == v.busy && r.1 == r.0.left
  {
    var l := if v.left.Some? then v.left else if v.tree.Leaf? then None else Some(Inorder(v.tree)[0]);
    (v.(left := l), l)
  }

  lemma FirstOk(v: Service, members: set<nat>)
    requires ServiceOk(v, members)
    ensures ServiceOk(First(v).0, members)
    ensures First(v).1.None? <==> members == {}
    ensures First(v).1.Some? ==> First(v).1.value in members && First(v).1.value == Inorder(v.tree)[0]
  {
    var s := Inorder(v.tree);
    assert s != [] ==> s[0] in s;
  }

  /** cfq_rb_erase */
  function Erase(c: Code, v: Service, id: nat): Service {
    Service(c.erase(v.tree, id), if v.left == Some(id) then None else v.left, v.busy)
  }

  lemma {:induction false} DropLength(s: seq<nat>, id: nat)
    requires Distinct(s)
    ensures |Drop(s, id)| == if id in s then |s| - 1 else |s|
  {
    if s != [] {
      DropLength(s[1..], id);
      assert s[0] !in s[1..];
      assert id in s <==> id == s[0] || id in s[1..];
    }
  }

  /** Up to the count, which cfq_del_cfqq_rr adjusts. */
  lemma EraseOk(c: Code, v: Service, id: nat, members: set<nat>)
    requires CodeOk(c) && ServiceOk(v, members) && id in members
    ensures ServiceOk(Erase(c, v, id).(busy := v.busy - 1), members - {id})
  {
    var s := Inorder(v.tree);
    DropDistinct(s, id);
    DropLength(s, id);
    if v.left.Some? && v.left != Some(id) {
      assert Drop(s, id)[0] == s[0];
    }
  }

  /** The insertion of cfq_service_tree_add. */
  function Link(c: Code, v: Service, id: nat, goLeft: nat -> bool): Service {
    var w := Walk(v.tree, id, goLeft);
    Service(c.rebalance(w.0), if w.1 then Some(id) else v.left, v.busy)
  }

  lemma InsertDistinct(s: seq<nat>, p: nat, id: nat)
    requires p <= |s| && Distinct(s) && id !in s
    ensures Distinct(Inserted(s, p, id)) && forall x :: x in Inserted(s, p, id) <==> x in s || x == id
  {
    var r := Inserted(s, p, id);
    assert forall i :: 0 <= i < |r| ==> r[i] == if i < p then s[i] else if i == p then id else s[i - 1];
    forall x ensures x in r <==> x in s || x == id {
      assert r[p] == id;
      if x in s {
        var i :| 0 <= i < |s| && s[i] == x;
        assert r[if i < p then i else i + 1] == x;
      }
    }
  }

  lemma LinkOk(c: Code, v: Service, id: nat, goLeft: nat -> bool, members: set<nat>)
    requires CodeOk(c) && ServiceOk(v, members) && id !in members
    ensures ServiceOk(Link(c, v, id, goLeft).(busy := v.busy + 1), members + {id})
  {
    var s, p := Inorder(v.tree), Place(v.tree, goLeft);
    WalkPlaces(v.tree, id, goLeft);
    InsertDistinct(s, p, id);
    var r, w := Inserted(s, p, id), Link(c, v, id, goLeft).(busy := v.busy + 1);
    assert Inorder(w.tree) == r;
    assert p > 0 ==> r[0] == s[0];
    assert p == 0 ==> r[0] == id;
  }

  /** cfq_service_tree_add for a queue that is in the tree: it moves, unless its key stays. */
  function Move(c: Code, v: Service, id: nat, sameKey: bool, goLeft: nat -> bool): Service {
    if sameKey then v else Link(c, Erase(c, v, id), id, goLeft)
  }

  lemma MoveOk(c: Code, v: Service, id: nat, sameKey: bool, goLeft: nat -> bool, members: set<nat>)
    requires CodeOk(c) && ServiceOk(v, members) && id in members
    ensures ServiceOk(Move(c, v, id, sameKey, goLeft), members)
  {
    if !sameKey {
      EraseOk(c, v, id, members);
      LinkOk(c, Erase(c, v, id).(busy := v.busy - 1), id, goLeft, members - {id});
      assert members - {id} + {id} == members;
    }
  }

  /** Every node that stands before another one has a key that is not larger. */
  predicate ByKey(s: seq<nat>, key: nat -> int) {
    forall i, j :: 0 <= i < j < |s| ==> key(s[i]) <= key(s[j])
  }

  lemma {:induction false} ByKeyLeft(a: seq<nat>, n: nat, b: seq<nat>, key: nat -> int)
    requires ByKey(a + [n] + b, key)
    ensures ByKey(a, key) && forall i :: 0 <= i < |a| ==> key(a[i]) <= key(n)
  {
    var s := a + [n] + b;
    assert forall i :: 0 <= i < |a| ==> s[i] == a[i];
    assert s[|a|] == n;
  }

  lemma {:induction false} ByKeyRight(a: seq<nat>, n: nat, b: seq<nat>, key: nat -> int)
    requires ByKey(a + [n] + b, key)
    ensures ByKey(b, key) && forall i :: 0 <= i < |b| ==> key(n) <= key(b[i])
  {
    var s := a + [n] + b;
    assert s[|a|] == n;
    assert forall i :: 0 <= i < |b| ==> s[|a| + 1 + i] == b[i];
  }

  /** The place of a queue divides those that are not served after it from the others. */
  ghost predicate Divides(s: seq<nat>, p: nat, bound: int, key: nat -> int) {
    p <= |s| && forall k :: 0 <= k < |s| ==> (key(s[k]) <= bound <==> k < p)
  }

  lemma {:induction false} DividesLeft(a: seq<nat>, n: nat, b: seq<nat>, p: nat, bound: int, key: nat -> int)
    requires Divides(a, p, bound, key) && bound < key(n) && forall i :: 0 <= i < |b| ==> key(n) <= key(b[i])
    ensures Divides(a + [n] + b, p, bound, key)
  {
  }

  lemma {:induction false} DividesRight(a: seq<nat>, n: nat, b: seq<nat>, p: nat, bound: int, key: nat -> int)
    requires Divides(b, p, bound, key) && key(n) <= bound && forall i :: 0 <= i < |a| ==> key(a[i]) <= key(n)
    ensures Divides(a + [n] + b, |a| + 1 + p, bound, key)
  {
  }

  lemma {:induction false} PlaceDivides(t: Tree, key: nat -> int, bound: int, goLeft: nat -> bool)
    requires ByKey(Inorder(t), key) && forall n :: goLeft(n) == (bound < key(n))
    ensures Divides(Inorder(t), Place(t, goLeft), bound, key)
  {
    match t
    case Leaf =>
    case Node(l, n, r) =>
      var a, b := Inorder(l), Inorder(r);
      ByKeyLeft(a, n, b, key);
      ByKeyRight(a, n, b, key);
      if goLeft(n) {
        PlaceDivides(l, key, bound, goLeft);
        DividesLeft(a, n, b, Place(l, goLeft), bound, key);
      } else {
        PlaceDivides(r, key, bound, goLeft);
        DividesRight(a, n, b, Place(r, goLeft), bound, key);
      }
  }

  lemma {:induction false} InsertedByKey(s: seq<nat>, p: nat, id: nat, key: nat -> int)
    requires ByKey(s, key) && Divides(s, p, key(id), key)
    ensures ByKey(Inserted(s, p, id), key)
  {
    var r := Inserted(s, p, id);
    assert forall i :: 0 <= i < |r| ==> r[i] == if i < p then s[i] else if i == p then id else s[i - 1];
  }

  /** If the walk compares keys and the tree is sorted by them, it stays so: a queue goes behind
      all queues that are to be served before it or at the same time. */
  lemma {:induction false} WalkSorts(t: Tree, id: nat, key: nat -> int, goLeft: nat -> bool)
    requires ByKey(Inorder(t), key) && forall n :: goLeft(n) == (key(id) < key(n))
    ensures ByKey(Inorder(Walk(t, id, goLeft).0), key)
    ensures forall k :: 0 <= k < |Inorder(t)| ==> (key(Inorder(t)[k]) <= key(id) <==> k < Place(t, goLeft))
  {
    PlaceDivides(t, key, key(id), goLeft);
    WalkPlaces(t, id, goLeft);
    InsertedByKey(Inorder(t), Place(t, goLeft), id, key);
  }
}
