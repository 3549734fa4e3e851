/** What it means for a filter to keep exactly some elements of a sequence, in their order. */
module Sequences {

  // `part` is the elements of `all` at the indices `at`, which increase.
  ghost predicate Picks<T>(all: seq<T>, part: seq<T>, at: seq<nat>) {
    && |at| == |part|
    && (forall k | 0 <= k < |at| :: at[k] < |all| && part[k] == all[at[k]])
    && (forall j, k | 0 <= j < k < |at| :: at[j] < at[k])
  }

  lemma PicksNone<T>()
    ensures Picks<T>([], [], [])
  {
  }

  lemma PicksSkip<T>(all: seq<T>, part: seq<T>, at: seq<nat>, x: T)
    requires Picks(all, part, at)
    ensures Picks(all + [x], part, at)
  {
  }

  lemma PicksTake<T>(all: seq<T>, part: seq<T>, at: seq<nat>, x: T)
    requires Picks(all, part, at)
    ensures Picks(all + [x], part + [x], at + [|all|])
  {
  }

  // An index below n is picked or not, and a larger one is not.
  lemma PickedBelow<T>(all: seq<T>, part: seq<T>, at: seq<nat>, i: nat)
    requires Picks(all, part, at) && |all| <= i
    ensures i !in at
  {
  }
}
