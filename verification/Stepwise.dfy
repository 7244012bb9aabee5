/** Exact conditions over runs: a property that one step keeps exactly under a condition holds at
    every point of a run exactly when the condition holds of every step. */
module Stepwise {

  lemma {:induction false} AtEveryPointIff(n: nat, good: nat -> bool, step: nat -> bool)
    requires good(0)
    requires forall i: nat :: i < n && good(i) ==> (good(i + 1) <==> step(i))
    ensures (forall i: nat :: i <= n ==> good(i)) <==> (forall i: nat :: i < n ==> step(i))
    decreases n
  {
    if n > 0 {
      AtEveryPointIff(n - 1, good, step);
      if good(n - 1) {
        assert good(n - 1 + 1) <==> step(n - 1);
      }
    }
  }

  lemma {:induction false} Persists(i: nat, j: nat, good: nat -> bool)
    requires i <= j && good(i)
    requires forall l: nat :: i <= l < j && good(l) ==> good(l + 1)
    ensures good(j)
    decreases j
  {
    if i < j {
      Persists(i, j - 1, good);
      assert good(j - 1 + 1);
    }
  }
}
