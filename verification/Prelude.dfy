// Types and small facts shared by every component model.
module Prelude {

  datatype Option<+T> = None | Some(value: T)

  // A finite set of naturals in 1..k has at most k elements.
  lemma {:induction false} BoundedSetSize(s: set<nat>, k: nat)
    requires forall n | n in s :: 1 <= n <= k
    ensures |s| <= k
  {
    if k == 0 {
      assert s == {};
    } else {
      BoundedSetSize(s - {k}, k - 1);
      if k in s {
        assert |s - {k}| == |s| - 1;
      } else {
        assert s - {k} == s;
      }
    }
  }
}
