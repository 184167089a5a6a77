/**
 What all models share.
 */
module Common {

  datatype Option<T> = None | Some(value: T)

  function One(b: bool): nat {
    if b then 1 else 0
  }

  /** `x` in place p of a list. */
  function Inserted<T>(q: seq<T>, p: nat, x: T): seq<T>
    requires p <= |q|
  {
    q[..p] + [x] + q[p..]
  }

  /** A predicate of the form "for all u, Open(u) implies ..." stays folded until a proof
      mentions Open.  That keeps large invariants out of proofs that only hand them on. */
  ghost predicate Open(at: bool) {
    true
  }

  /** Induction with the statement as a value, which keeps it folded. */
  lemma {:induction false} UpTo(t: nat -> bool, n: nat)
    requires t(0) && forall k: nat :: k < n && t(k) ==> t(k + 1)
    ensures t(n)
  {
    if n > 0 { UpTo(t, n - 1); }
  }
}
