/**
 Merging bios into requests: the merge arms of __make_request and attempt_merge in
 block/ll_rw_blk.c, elv_merge, elv_merged_request and elv_merge_requests in block/elevator.c.
 */
module Merging {
  import opened Common
  import opened SortedList
  import opened MergeHash

  datatype Bio = Bio(id: nat, sector: nat, nr: nat)

  /** `mergeable` is rq_mergeable, `hashed` is ELV_ON_HASH. */
  datatype Req = Req(sector: nat, nr: nat, bios: seq<Bio>, mergeable: bool, hashed: bool)

  /** rq_hash_key: the sector after the end. */
  function End(r: Req): nat {
    r.sector + r.nr
  }

  /** The bios cover [s, e) in ascending order without a gap. */
  predicate Chain(bios: seq<Bio>, s: nat, e: nat) {
    if bios == [] then s == e
    else bios[0].sector == s && bios[0].nr > 0 && Chain(bios[1..], s + bios[0].nr, e)
  }

  lemma {:induction false} ChainConcat(a: seq<Bio>, b: seq<Bio>, s: nat, m: nat, e: nat)
    requires Chain(a, s, m) && Chain(b, m, e)
    ensures Chain(a + b, s, e)
  {
    if a == [] {
      assert a + b == b;
    } else {
      ChainConcat(a[1..], b, s + a[0].nr, m, e);
      assert (a + b)[1..] == a[1..] + b;
    }
  }

  ghost predicate ReqOk(r: Req) {
    r.bios != [] && Chain(r.bios, r.sector, End(r))
  }

  /** The keys of the hashed requests. */
  ghost function Keys(rqs: map<nat, Req>): map<nat, nat> {
    map id | id in rqs && rqs[id].hashed :: End(rqs[id])
  }

  /** Every submitted bio is in the request that owns it, and in no other. */
  ghost predicate Owned(rqs: map<nat, Req>, owner: map<Bio, nat>) {
    (forall b :: b in owner ==> owner[b] in rqs && b in rqs[owner[b]].bios) &&
    forall id, b :: id in rqs && b in rqs[id].bios ==> b in owner && owner[b] == id
  }

  /** And no request holds a bio twice. */
  lemma {:induction false} ChainAscends(bios: seq<Bio>, s: nat, e: nat, i: nat, j: nat)
    requires Chain(bios, s, e) && i < j < |bios|
    ensures s <= bios[i].sector && bios[i].sector + bios[i].nr <= bios[j].sector
  {
    if i == 0 {
      ChainAbove(bios[1..], s + bios[0].nr, e, j - 1);
    } else {
      ChainAscends(bios[1..], s + bios[0].nr, e, i - 1, j - 1);
    }
  }

  lemma {:induction false} ChainAbove(bios: seq<Bio>, s: nat, e: nat, i: nat)
    requires Chain(bios, s, e) && i < |bios|
    ensures s <= bios[i].sector
  {
    if i > 0 { ChainAbove(bios[1..], s + bios[0].nr, e, i - 1); }
  }

  datatype Kind = NoMerge | Back | Front


  ghost predicate HInv(h: HashFn, chains: seq<seq<nat>>, keys: map<nat, nat>) {
    forall u {:trigger Open(u)} :: Open(u) ==> HashOk(h, chains, keys)
  }

  ghost predicate OInv(rqs: map<nat, Req>, owner: map<Bio, nat>) {
    forall u {:trigger Open(u)} :: Open(u) ==> Owned(rqs, owner)
  }

  ghost predicate AllOk(rqs: map<nat, Req>) {
    forall id :: id in rqs ==> ReqOk(rqs[id])
  }

  /** A new bio joins a request that is stored as r. */
  lemma OwnOne(rqs: map<nat, Req>, owner: map<Bio, nat>, id: nat, r: Req, bio: Bio)
    requires OInv(rqs, owner) && bio !in owner
    requires forall b :: b in r.bios <==> b == bio || (id in rqs && b in rqs[id].bios)
    ensures OInv(rqs[id := r], owner[bio := id])
  {
    assert Open(true);
  }

  /** All bios of request b move to request a, which is stored as r. */
  ghost function MoveAll(owner: map<Bio, nat>, a: nat, b: nat): map<Bio, nat> {
    map x | x in owner :: if owner[x] == b then a else owner[x]
  }

  lemma OwnMerged(rqs: map<nat, Req>, owner: map<Bio, nat>, a: nat, b: nat, r: Req)
    requires OInv(rqs, owner) && a in rqs && b in rqs && a != b
    requires forall x :: x in r.bios <==> x in rqs[a].bios || x in rqs[b].bios
    ensures OInv(rqs[a := r] - {b}, MoveAll(owner, a, b))
  {
    assert Open(true);
  }

  lemma KeysUpdate(rqs: map<nat, Req>, id: nat, r: Req)
    ensures Keys(rqs[id := r]) == if r.hashed then Keys(rqs)[id := End(r)] else Keys(rqs) - {id}
  {
  }

  lemma KeysRemove(rqs: map<nat, Req>, id: nat)
    ensures Keys(rqs - {id}) == Keys(rqs) - {id}
  {
  }

  lemma RehashInv(h: HashFn, chains: seq<seq<nat>>, keys: map<nat, nat>, id: nat, key: nat)
    requires HInv(h, chains, keys)
    ensures h(key) < |chains| && HInv(h, Add(h, Del(chains, id), id, key), (keys - {id})[id := key])
  {
    assert Open(true);
    DelOk(h, chains, keys, id);
    AddOk(h, Del(chains, id), keys - {id}, id, key);
  }

  lemma EmptyInv(h: HashFn, chains: seq<seq<nat>>)
    requires (forall k :: h(k) < |chains|) && forall c :: 0 <= c < |chains| ==> chains[c] == []
    ensures HInv(h, chains, map[]) && Keys(map[]) == map[] && OInv(map[], map[])
  {
  }

  lemma AddInv(h: HashFn, chains: seq<seq<nat>>, keys: map<nat, nat>, id: nat, key: nat)
    requires HInv(h, chains, keys) && id !in keys
    ensures h(key) < |chains| && HInv(h, Add(h, chains, id, key), keys[id := key])
  {
    assert Open(true);
    AddOk(h, chains, keys, id, key);
  }

  lemma UnhashInv(h: HashFn, chains: seq<seq<nat>>, keys: map<nat, nat>, id: nat)
    requires HInv(h, chains, keys)
    ensures HInv(h, Del(chains, id), keys - {id})
  {
    assert Open(true);
    DelOk(h, chains, keys, id);
  }

  lemma OwnSame(rqs: map<nat, Req>, owner: map<Bio, nat>, id: nat, r: Req)
    requires OInv(rqs, owner) && id in rqs && r.bios == rqs[id].bios
    ensures OInv(rqs[id := r], owner)
  {
    assert Open(true);
  }

  /** The hash after a merge: one request under its new key, the other gone. */
  lemma MergedInv(h: HashFn, chains: seq<seq<nat>>, keys: map<nat, nat>, a: nat, key: nat, b: nat)
    requires HInv(h, chains, keys)
    ensures h(key) < |chains| && HInv(h, Del(Add(h, Del(chains, a), a, key), b), (keys - {a})[a := key] - {b})
  {
    RehashInv(h, chains, keys, a, key);
    UnhashInv(h, Add(h, Del(chains, a), a, key), (keys - {a})[a := key], b);
  }

  lemma MergedKeys(rqs: map<nat, Req>, keys: map<nat, nat>, a: nat, r: Req, b: nat)
    requires keys - {a} == Keys(rqs) - {a} && r.hashed
    ensures Keys(rqs[a := r] - {b}) == (keys - {a})[a := End(r)] - {b}
  {
    KeysUpdate(rqs, a, r);
    KeysRemove(rqs[a := r], b);
    assert Keys(rqs)[a := End(r)] == (Keys(rqs) - {a})[a := End(r)];
  }

  /** The requests dropped from the hash by a lookup. */
  function Forget(rqs: map<nat, Req>, dropped: set<nat>): (r: map<nat, Req>)
    ensures r.Keys == rqs.Keys
    ensures forall id :: id in rqs ==> r[id] == if id in dropped then rqs[id].(hashed := false) else rqs[id]
  {
    map id | id in rqs :: if id in dropped then rqs[id].(hashed := false) else rqs[id]
  }

  lemma ForgetOk(rqs: map<nat, Req>, dropped: set<nat>, owner: map<Bio, nat>)
    requires OInv(rqs, owner) && AllOk(rqs)
    ensures OInv(Forget(rqs, dropped), owner) && AllOk(Forget(rqs, dropped))
    ensures Keys(Forget(rqs, dropped)) == Keys(rqs) - dropped
  {
    assert Open(true);
  }

  method Lookup(h: HashFn, chains: seq<seq<nat>>, rqs: map<nat, Req>, offset: nat)
    returns (found: Option<nat>, left: seq<seq<nat>>, dropped: set<nat>)
    requires HInv(h, chains, Keys(rqs))
    ensures found.Some? <==> exists id :: id in rqs && rqs[id].hashed && rqs[id].mergeable && End(rqs[id]) == offset
    ensures found.Some? ==> found.value in rqs && rqs[found.value].mergeable && End(rqs[found.value]) == offset
    ensures HInv(h, left, Keys(rqs) - dropped)
    ensures forall id :: id in dropped && id in rqs ==> !rqs[id].mergeable
  {
    assert Open(true);
    ghost var keys := Keys(rqs);
    var mergeable := (id: nat) => id in rqs && rqs[id].mergeable;
    found, left, dropped :=
      Find(h, chains, keys, mergeable, (id: nat) => if id in rqs then End(rqs[id]) else 0, offset);
    if id: nat :| id in rqs && rqs[id].hashed && rqs[id].mergeable && End(rqs[id]) == offset {
      assert id in keys && mergeable(id) && keys[id] == offset;
    }
  }

  /** A bio joins at the end of a request, or at its front. */
  function Appended(x: Req, bio: Bio): Req {
    x.(nr := x.nr + bio.nr, bios := x.bios + [bio])
  }

  function Prepended(x: Req, bio: Bio): Req {
    x.(sector := bio.sector, nr := x.nr + bio.nr, bios := [bio] + x.bios)
  }

  /** attempt_merge takes the second request into the first. */
  predicate Joins(x: Req, y: Req, allowed: bool) {
    x.mergeable && y.mergeable && End(x) == y.sector && allowed
  }

  function Joined(x: Req, y: Req): Req {
    Req(x.sector, x.nr + y.nr, x.bios + y.bios, true, true)
  }

  class MergeQueue {
    var rqs: map<nat, Req>
    var chains: seq<seq<nat>>
    var lastMerge: Option<nat>
    const h: HashFn
    /** What the chains hold: the key under which a request was hashed. */
    ghost var keys: map<nat, nat>
    ghost var owner: map<Bio, nat>

    /** All but the hash. */
    ghost predicate Requests()
      reads this
    {
      OInv(rqs, owner) && AllOk(rqs) && (lastMerge.Some? ==> lastMerge.value in rqs)
    }

    /** In the middle of a merge the request a may be in a stale chain. */
    ghost predicate ValidBut(a: nat)
      reads this
    {
      Requests() && HInv(h, chains, keys) && keys - {a} == Keys(rqs) - {a}
    }

    ghost predicate Valid()
      reads this
    {
      Requests() && HInv(h, chains, keys) && keys == Keys(rqs)
    }

    constructor (h: HashFn, entries: nat)
      requires forall k :: h(k) < entries
      ensures Valid() && rqs == map[] && owner == map[]
    {
      this.h := h;
      var empty: seq<seq<nat>> := seq(entries, _ => []);
      rqs, chains, lastMerge := map[], empty, None;
      keys, owner := map[], map[];
      EmptyInv(h, empty);
    }

    /** Every request is one gap-free range of its bios, every submitted bio is in exactly one
        request, and every hashed request is in the chain of its end sector only. */
    lemma Consistent(id: nat)
      requires Valid() && id in rqs
      ensures rqs[id].bios != [] && Chain(rqs[id].bios, rqs[id].sector, rqs[id].sector + rqs[id].nr)
      ensures forall b :: b in rqs[id].bios <==> b in owner && owner[b] == id
      ensures forall c :: 0 <= c < |chains| ==>
                            (id in chains[c] <==> rqs[id].hashed && c == h(rqs[id].sector + rqs[id].nr))
    {
      assert Open(true);
      assert ReqOk(rqs[id]);
      assert id in keys <==> rqs[id].hashed;
      assert HashOk(h, chains, keys) && Owned(rqs, owner);
      forall c | 0 <= c < |chains| ensures id in chains[c] <==> rqs[id].hashed && c == h(End(rqs[id])) {
        assert id in chains[c] <==> id in keys && h(keys[id]) == c;
      }
    }

    /** elv_rqhash_reposition of a request whose end has moved. */
    method Rehash(id: nat)
      requires ValidBut(id) && id in rqs
      modifies `rqs, `chains, `keys
      ensures Valid() && rqs == old(rqs)[id := old(rqs)[id].(hashed := true)]
    {
      var r := rqs[id].(hashed := true);
      RehashInv(h, chains, keys, id, End(r));
      KeysUpdate(rqs, id, r);
      OwnSame(rqs, owner, id, r);
      chains, keys := Add(h, Del(chains, id), id, End(r)), (keys - {id})[id := End(r)];
      rqs := rqs[id := r];
    }

    /** attempt_merge of request b, which starts where a ends, into a.  `allowed` stands for the
        direction, the device and the segment limits. */
    method AttemptMerge(a: nat, b: nat, allowed: bool) returns (ok: bool)
      requires ValidBut(a) && a in rqs && b in rqs && a != b
      modifies this
      ensures ok == Joins(old(rqs)[a], old(rqs)[b], allowed)
      ensures ok <==> old(rqs)[a].mergeable && old(rqs)[b].mergeable && allowed &&
                      old(rqs)[a].sector + old(rqs)[a].nr == old(rqs)[b].sector
      ensures !ok ==> rqs == old(rqs) && owner == old(owner)
      ensures !ok ==> chains == old(chains) && keys == old(keys) && lastMerge == old(lastMerge)
      ensures ok ==> Valid() && owner == MoveAll(old(owner), a, b) && lastMerge == Some(a)
      ensures ok ==> rqs == old(rqs)[a := Joined(old(rqs)[a], old(rqs)[b])] - {b}
    {
      ok := Joins(rqs[a], rqs[b], allowed);
      if !ok { return; }
      Absorb(a, b, Joined(rqs[a], rqs[b]));
    }

    /** elv_merge_requests, and the release of the merged request. */
    method Absorb(a: nat, b: nat, r: Req)
      requires ValidBut(a) && a in rqs && b in rqs && a != b && End(rqs[a]) == rqs[b].sector
      requires r.sector == rqs[a].sector && r.nr == rqs[a].nr + rqs[b].nr && r.bios == rqs[a].bios + rqs[b].bios &&
               r.hashed
      modifies this
      ensures Valid() && rqs == old(rqs)[a := r] - {b} && owner == MoveAll(old(owner), a, b) && lastMerge == Some(a)
    {
      assert ReqOk(rqs[a]) && ReqOk(rqs[b]);
      ChainConcat(rqs[a].bios, rqs[b].bios, r.sector, End(rqs[a]), End(r));
      OwnMerged(rqs, owner, a, b, r);
      MergedInv(h, chains, keys, a, End(r), b);
      MergedKeys(rqs, keys, a, r, b);
      chains := Del(Add(h, Del(chains, a), a, End(r)), b);
      keys := (keys - {a})[a := End(r)] - {b};
      rqs, owner, lastMerge := rqs[a := r] - {b}, MoveAll(owner, a, b), Some(a);
    }

    /** The back merge arm of __make_request; `latter` is the next request of the scheduler. */
    method BackMerge(id: nat, bio: Bio, latter: Option<nat>, allowed: bool) returns (merged: bool)
      requires Valid() && id in rqs && bio.sector == End(rqs[id]) && bio.nr > 0 && bio !in owner
      requires latter.Some? ==> latter.value in rqs && latter.value != id
      modifies this
      ensures Valid() && id in rqs && lastMerge == Some(id) && bio in owner && owner[bio] == id
      ensures owner.Keys == old(owner).Keys + {bio}
      ensures merged == (latter.Some? && Joins(Appended(old(rqs)[id], bio), old(rqs)[latter.value], allowed))
      ensures !merged ==> rqs == old(rqs)[id := Appended(old(rqs)[id], bio).(hashed := true)]
      ensures merged ==>
              rqs == old(rqs)[id := Joined(Appended(old(rqs)[id], bio), old(rqs)[latter.value])] - {latter.value}
    {
      Append(id, bio);
      merged := Settle(id, latter, allowed);
    }

    /** After the end of a request has moved: the next request joins, or the hash follows. */
    method Settle(id: nat, latter: Option<nat>, allowed: bool) returns (merged: bool)
      requires ValidBut(id) && id in rqs && (latter.Some? ==> latter.value in rqs && latter.value != id)
      modifies this
      ensures Valid() && lastMerge == Some(id)
      ensures merged == (latter.Some? && Joins(old(rqs)[id], old(rqs)[latter.value], allowed))
      ensures owner == if merged then MoveAll(old(owner), id, latter.value) else old(owner)
      ensures !merged ==> rqs == old(rqs)[id := old(rqs)[id].(hashed := true)]
      ensures merged ==> rqs == old(rqs)[id := Joined(old(rqs)[id], old(rqs)[latter.value])] - {latter.value}
    {
      merged := false;
      if latter.Some? { merged := AttemptMerge(id, latter.value, allowed); }
      if !merged {
        Rehash(id);
        lastMerge := Some(id);
      }
    }

    /** The bio joins at the end; the hash does not know yet. */
    method Append(id: nat, bio: Bio)
      requires Valid() && id in rqs && bio.sector == End(rqs[id]) && bio.nr > 0 && bio !in owner
      modifies `rqs, `owner
      ensures ValidBut(id) && owner == old(owner)[bio := id]
      ensures rqs == old(rqs)[id := Appended(old(rqs)[id], bio)]
    {
      var x := rqs[id];
      var r := Appended(x, bio);
      Grown(id, bio, r);
      assert ReqOk(x);
      ChainConcat(x.bios, [bio], x.sector, End(x), End(r));
      OwnOne(rqs, owner, id, r, bio);
      KeysUpdate(rqs, id, r);
      rqs, owner := rqs[id := r], owner[bio := id];
    }

    /** The bio joins at the front; the end stays. */
    method Prepend(id: nat, bio: Bio)
      requires Valid() && id in rqs && bio.sector + bio.nr == rqs[id].sector && bio.nr > 0 && bio !in owner
      modifies `rqs, `owner
      ensures Valid() && owner == old(owner)[bio := id]
      ensures rqs == old(rqs)[id := Prepended(old(rqs)[id], bio)]
    {
      var x := rqs[id];
      var r := Prepended(x, bio);
      Grown(id, bio, r);
      assert ReqOk(x);
      ChainConcat([bio], x.bios, r.sector, x.sector, End(r));
      OwnOne(rqs, owner, id, r, bio);
      KeysUpdate(rqs, id, r);
      rqs, owner := rqs[id := r], owner[bio := id];
      assert keys == Keys(rqs);
    }

    lemma Grown(id: nat, bio: Bio, r: Req)
      requires id in rqs && (r.bios == rqs[id].bios + [bio] || r.bios == [bio] + rqs[id].bios)
      ensures forall b :: b in r.bios <==> b == bio || b in rqs[id].bios
    {
    }

    /** The front merge arm: the end, and with it the hash chain, stays. */
    method FrontMerge(id: nat, bio: Bio, former: Option<nat>, allowed: bool) returns (merged: bool)
      requires Valid() && id in rqs && bio.sector + bio.nr == rqs[id].sector && bio.nr > 0 && bio !in owner
      requires former.Some? ==> former.value in rqs && former.value != id
      modifies this
      ensures Valid() && bio in owner && owner[bio] in rqs && lastMerge == Some(owner[bio])
      ensures owner.Keys == old(owner).Keys + {bio}
      ensures merged == (former.Some? && Joins(old(rqs)[former.value], Prepended(old(rqs)[id], bio), allowed))
      ensures owner[bio] == if merged then former.value else id
      ensures !merged ==> rqs == old(rqs)[id := Prepended(old(rqs)[id], bio)]
      ensures merged ==>
              rqs == old(rqs)[former.value := Joined(old(rqs)[former.value], Prepended(old(rqs)[id], bio))] - {id}
    {
      Prepend(id, bio);
      merged := false;
      if former.Some? { merged := AttemptMerge(former.value, id, allowed); }
      if !merged { lastMerge := Some(id); }
    }

    /** A bio that is not merged gets a request of its own; elv_insert hashes it. */
    method NewRequest(id: nat, bio: Bio, mergeable: bool)
      requires Valid() && id !in rqs && bio.nr > 0 && bio !in owner
      modifies this
      ensures Valid() && rqs == old(rqs)[id := Req(bio.sector, bio.nr, [bio], mergeable, mergeable)]
      ensures owner == old(owner)[bio := id]
    {
      var r := Req(bio.sector, bio.nr, [bio], mergeable, mergeable);
      assert Chain([bio], bio.sector, bio.sector + bio.nr);
      OwnOne(rqs, owner, id, r, bio);
      KeysUpdate(rqs, id, r);
      assert id !in keys && keys - {id} == keys;
      if mergeable {
        AddInv(h, chains, keys, id, End(r));
        chains, keys := Add(h, chains, id, End(r)), keys[id := End(r)];
        if lastMerge.None? { lastMerge := Some(id); }
      }
      rqs, owner := rqs[id := r], owner[bio := id];
    }

    /** elv_dispatch_sort and elv_dispatch_add_tail take a request off the hash. */
    method Unhash(id: nat)
      requires Valid() && id in rqs
      modifies `rqs, `chains, `keys, `lastMerge
      ensures Valid() && rqs == old(rqs)[id := old(rqs)[id].(hashed := false)] && lastMerge != Some(id)
    {
      if lastMerge == Some(id) { lastMerge := None; }
      var r := rqs[id].(hashed := false);
      UnhashInv(h, chains, keys, id);
      KeysUpdate(rqs, id, r);
      OwnSame(rqs, owner, id, r);
      chains, keys, rqs := Del(chains, id), keys - {id}, rqs[id := r];
    }

    /** A flag such as REQ_STARTED or REQ_NOMERGE ends merging. */
    method SetNoMerge(id: nat)
      requires Valid() && id in rqs
      modifies `rqs
      ensures Valid() && rqs == old(rqs)[id := old(rqs)[id].(mergeable := false)]
    {
      var r := rqs[id].(mergeable := false);
      KeysUpdate(rqs, id, r);
      OwnSame(rqs, owner, id, r);
      rqs := rqs[id := r];
      assert keys == Keys(rqs);
    }

    /** elv_rqhash_find */
    method HashFind(offset: nat) returns (found: Option<nat>)
      requires Valid()
      modifies `rqs, `chains, `keys
      ensures Valid() && rqs.Keys == old(rqs).Keys
      ensures forall id :: id in rqs ==> rqs[id] == old(rqs)[id].(hashed := rqs[id].hashed)
      ensures found.Some? <==> exists id :: id in old(rqs) && old(rqs)[id].hashed && old(rqs)[id].mergeable &&
                                            End(old(rqs)[id]) == offset
      ensures found.Some? ==> found.value in rqs && rqs[found.value].mergeable && End(rqs[found.value]) == offset
    {
      var left, dropped;
      found, left, dropped := Lookup(h, chains, rqs, offset);
      ForgetOk(rqs, dropped, owner);
      chains, keys, rqs := left, keys - dropped, Forget(rqs, dropped);
    }

    /** The part of elv_merge for the request of the last merge. */
    method TryLast(bio: Bio, ok: nat -> bool) returns (kind: Kind, id: nat)
      requires Valid()
      ensures kind != NoMerge ==> lastMerge == Some(id) && rqs[id].mergeable && ok(id)
      ensures kind == Back ==> End(rqs[id]) == bio.sector
      ensures kind == Front ==> End(rqs[id]) != bio.sector && rqs[id].sector == bio.sector + bio.nr
      ensures kind == NoMerge && lastMerge.Some? && rqs[lastMerge.value].mergeable && ok(lastMerge.value) ==>
                var x := rqs[lastMerge.value]; End(x) != bio.sector && x.sector != bio.sector + bio.nr
    {
      if lastMerge.Some? && rqs[lastMerge.value].mergeable && ok(lastMerge.value) {
        id := lastMerge.value;
        if End(rqs[id]) == bio.sector { return Back, id; }
        if rqs[id].sector == bio.sector + bio.nr { return Front, id; }
      }
      return NoMerge, 0;
    }

    /** elv_merge: the request of the last merge, then the hash, then the front merge candidate
        of the scheduler.  `ok` is elv_rq_merge_ok but for rq_mergeable. */
    method ElvMerge(bio: Bio, ok: nat -> bool, candidate: Option<nat>) returns (kind: Kind, id: nat)
      requires Valid()
      requires candidate.Some? ==> candidate.value in rqs && rqs[candidate.value].sector == bio.sector + bio.nr
      modifies `rqs, `chains, `keys
      ensures Valid() && rqs.Keys == old(rqs).Keys
      ensures kind != NoMerge ==> id in rqs && rqs[id].mergeable && ok(id)
      ensures forall x :: x in rqs ==> rqs[x] == old(rqs)[x].(hashed := rqs[x].hashed)
      ensures kind == Back ==> End(rqs[id]) == bio.sector
      ensures kind == Front ==> bio.sector + bio.nr == rqs[id].sector
      ensures (forall x :: x in old(rqs) ==> ok(x)) && kind == NoMerge ==>
                forall x :: x in old(rqs) && old(rqs)[x].hashed && old(rqs)[x].mergeable ==>
                  End(old(rqs)[x]) != bio.sector
      ensures lastMerge.Some? && old(rqs)[lastMerge.value].mergeable && ok(lastMerge.value) ==>
                var x := old(rqs)[lastMerge.value];
                if x.sector + x.nr == bio.sector then kind == Back && id == lastMerge.value
                else if x.sector == bio.sector + bio.nr then kind == Front && id == lastMerge.value
                else kind == Front ==> candidate == Some(id)
      ensures kind == NoMerge && candidate.Some? && ok(candidate.value) ==> !old(rqs)[candidate.value].mergeable
    {
      kind, id := TryLast(bio, ok);
      if kind != NoMerge { return; }
      var found := HashFind(bio.sector);
      if found.Some? && ok(found.value) { return Back, found.value; }
      if candidate.Some? && rqs[candidate.value].mergeable && ok(candidate.value) { return Front, candidate.value; }
      kind := NoMerge;
    }

    /** __make_request: merged at the end or at the front of the request that elv_merge finds, or
        in a request of its own, as a barrier always is, the bio is in exactly one. */
    method MakeRequest(bio: Bio, barrier: bool, ok: nat -> bool, candidate: Option<nat>, neighbour: Option<nat>,
                       fits: bool, allowed: bool, newId: nat, mergeable: bool)
      returns (kind: Kind, id: nat, merged: bool)
      requires Valid() && bio.nr > 0 && bio !in owner && newId !in rqs
      requires candidate.Some? ==> candidate.value in rqs && rqs[candidate.value].sector == bio.sector + bio.nr
      modifies this
      ensures Valid() && owner.Keys == old(owner).Keys + {bio} && owner[bio] in rqs
      ensures barrier ==> kind == NoMerge && rqs == old(rqs)[newId := Req(bio.sector, bio.nr, [bio], false, false)]
      ensures kind == Back ==> id in old(rqs) && ok(id) && End(old(rqs)[id]) == bio.sector
      ensures kind == Front ==> id in old(rqs) && ok(id) && bio.sector + bio.nr == old(rqs)[id].sector
      ensures owner[bio] == if kind == NoMerge || !fits then newId
                            else if kind == Front && merged && neighbour.Some? then neighbour.value else id
      ensures kind == NoMerge || !fits ==> !merged && rqs[newId].bios == [bio]
    {
      kind, id, merged := NoMerge, 0, false;
      if !barrier { kind, id := ElvMerge(bio, ok, candidate); }
      var other := if neighbour.Some? && neighbour.value in rqs && neighbour.value != id then neighbour else None;
      if kind == Back && fits {
        merged := BackMerge(id, bio, other, allowed);
      } else if kind == Front && fits {
        merged := FrontMerge(id, bio, other, allowed);
      } else {
        NewRequest(newId, bio, mergeable && !barrier);
      }
    }
  }
}
