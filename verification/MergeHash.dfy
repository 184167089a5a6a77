/**
 The merge hash of block/elevator.c: chains of requests, found by the sector after their end.
 */
module MergeHash {
  import opened Common
  import opened SortedList

  /** ELV_HASH_FN: any function into the chains. */
  type HashFn = nat -> nat

  /** Every hashed request, and no other, is in the chain of its key, once. */
  ghost predicate HashOk(h: HashFn, chains: seq<seq<nat>>, keys: map<nat, nat>) {
    (forall k :: h(k) < |chains|) &&
    (forall c :: 0 <= c < |chains| ==> Distinct(chains[c])) &&
    forall c, id :: 0 <= c < |chains| ==> (id in chains[c] <==> id in keys && h(keys[id]) == c)
  }

  /** hlist_add_head */
  function Add(h: HashFn, chains: seq<seq<nat>>, id: nat, key: nat): seq<seq<nat>>
    requires h(key) < |chains|
  {
    chains[h(key) := [id] + chains[h(key)]]
  }

  lemma AddOk(h: HashFn, chains: seq<seq<nat>>, keys: map<nat, nat>, id: nat, key: nat)
    requires HashOk(h, chains, keys) && id !in keys
    ensures HashOk(h, Add(h, chains, id, key), keys[id := key])
  {
    var r := Add(h, chains, id, key);
    forall c, x | 0 <= c < |r| ensures x in r[c] <==> x in keys[id := key] && h(keys[id := key][x]) == c {
      assert x in chains[c] <==> x in keys && h(keys[x]) == c;
    }
    assert id !in chains[h(key)];
  }

  /** hlist_del_init: out of whatever chain it is in. */
  function Del(chains: seq<seq<nat>>, id: nat): (r: seq<seq<nat>>)
    ensures |r| == |chains| && forall c :: 0 <= c < |chains| ==> r[c] == Drop(chains[c], id)
  {
    seq(|chains|, c requires 0 <= c < |chains| => Drop(chains[c], id))
  }

  lemma DelOk(h: HashFn, chains: seq<seq<nat>>, keys: map<nat, nat>, id: nat)
    requires HashOk(h, chains, keys)
    ensures HashOk(h, Del(chains, id), keys - {id})
  {
    forall c | 0 <= c < |chains| ensures Distinct(Del(chains, id)[c]) {
      DropDistinct(chains[c], id);
    }
  }

  /** elv_rqhash_find: requests that can no longer be merged are dropped on the way. */
  method Find(h: HashFn, chains: seq<seq<nat>>, ghost keys: map<nat, nat>, mergeable: nat -> bool, end: nat -> nat,
              offset: nat)
    returns (found: Option<nat>, left: seq<seq<nat>>, dropped: set<nat>)
    requires HashOk(h, chains, keys) && forall id :: id in keys ==> end(id) == keys[id]
    ensures found.Some? ==> found.value in keys && keys[found.value] == offset && mergeable(found.value)
    ensures found.Some? <==> exists id :: id in keys && mergeable(id) && keys[id] == offset
    ensures HashOk(h, left, keys - dropped)
    ensures forall id :: id in dropped ==> !mergeable(id)
  {
    var chain := chains[h(offset)];
    left, dropped, found := chains, {}, None;
    assert keys - {} == keys;
    var i := 0;
    while i < |chain|
      invariant 0 <= i <= |chain| && HashOk(h, left, keys - dropped)
      invariant forall id :: id in dropped ==> !mergeable(id)
      invariant forall j :: 0 <= j < i ==> !(mergeable(chain[j]) && keys[chain[j]] == offset)
    {
      var rq := chain[i];
      assert rq in chain;
      if !mergeable(rq) {
        DelOk(h, left, keys - dropped, rq);
        assert keys - dropped - {rq} == keys - (dropped + {rq});
        left, dropped := Del(left, rq), dropped + {rq};
      } else if end(rq) == offset {
        found := Some(rq);
        return;
      }
      i := i + 1;
    }
    forall id | id in keys && mergeable(id) ensures keys[id] != offset {
      assert keys[id] == offset ==> id in chain;
    }
  }
}
