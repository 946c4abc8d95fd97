/** Steps taken in order, stopping at the first that fails. */
module Folds {
  import opened Records

  function Fold<S, T>(step: (S, T) -> Option<S>, s: S, items: seq<T>, n: nat): Option<S>
    requires n <= |items|
  {
    if n == 0 then Some(s)
    else
      var r := Fold(step, s, items, n - 1);
      if r.None? then None else step(r.value, items[n - 1])
  }

  lemma {:induction false} FoldStops<S, T>(step: (S, T) -> Option<S>, s: S, items: seq<T>, i: nat, n: nat)
    requires i <= n <= |items| && Fold(step, s, items, i).None?
    ensures Fold(step, s, items, n).None?
  {
    if i < n {
      FoldStops(step, s, items, i, n - 1);
    }
  }
}
