/**
 The pieces in which a block cipher walk hands out its data: their sizes, in blocks.
 */
module Pieces {

  function Total(sizes: seq<nat>): nat {
    if sizes == [] then 0 else Total(sizes[..|sizes| - 1]) + sizes[|sizes| - 1]
  }

  lemma {:induction false} TotalTake(sizes: seq<nat>, k: nat)
    requires k <= |sizes|
    ensures Total(sizes[..k]) <= Total(sizes)
    decreases |sizes|
  {
    if k < |sizes| {
      assert sizes[..|sizes| - 1][..k] == sizes[..k];
      TotalTake(sizes[..|sizes| - 1], k);
    } else {
      assert sizes[..k] == sizes;
    }
  }

  lemma {:induction false} TotalStep(sizes: seq<nat>, k: nat)
    requires k < |sizes|
    ensures Total(sizes[..k + 1]) == Total(sizes[..k]) + sizes[k] <= Total(sizes)
  {
    assert sizes[..k + 1][..k] == sizes[..k];
    TotalTake(sizes, k + 1);
  }
}
