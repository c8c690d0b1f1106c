// Picking elements out of a sequence, in order.
module Picked {
  // some holds the elements of all at the positions at, from left to right.
  ghost predicate Picks<T>(at: seq<nat>, all: seq<T>, some: seq<T>) {
    && |at| == |some|
    && (forall j, k :: 0 <= j < k < |at| ==> at[j] < at[k])
    && (forall k :: 0 <= k < |at| ==> at[k] < |all| && all[at[k]] == some[k])
  }

  lemma PicksLater<T>(at: seq<nat>, all: seq<T>, some: seq<T>, x: T)
    requires Picks(at, all, some)
    ensures Picks(at, all + [x], some)
    ensures Picks(at + [|all|], all + [x], some + [x])
    ensures |all| !in at && forall i :: i in at + [|all|] <==> i in at || i == |all|
  {
    var at', all' := at + [|all|], all + [x];
    forall k | 0 <= k < |at| ensures all'[at[k]] == all[at[k]] {}
    assert forall k :: 0 <= k < |at| ==> at'[k] == at[k];
  }
}
