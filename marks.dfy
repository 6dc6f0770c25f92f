/** Counting the elements that carry a class (such as `active`) in a list of elements. */
module Marks {

  /** How many of the flags are set. */
  function Count(s: seq<bool>): nat
  {
    if s == [] then 0 else (if s[0] then 1 else 0) + Count(s[1..])
  }

  /** When no flag other than the one at `e` can be set, at most that one is counted. */
  lemma {:induction false} CountOnlyAt(s: seq<bool>, e: int)
    requires forall i :: 0 <= i < |s| && i != e ==> !s[i]
    ensures Count(s) == if 0 <= e < |s| && s[e] then 1 else 0
  {
    if s != [] {
      CountOnlyAt(s[1..], e - 1);
    }
  }
}
