/** Small shared vocabulary: optional values, results with an error, and facts about sequences. */
module Basics {

  datatype Option<+T> = None | Some(value: T)

  datatype Result<+R, +E> = Success(value: R) | Failure(error: E)

  /** No element occurs twice. */
  predicate Distinct<T(==)>(s: seq<T>)
  {
    forall i, j :: 0 <= i < j < |s| ==> s[i] != s[j]
  }

  /** Number of occurrences of `x` in `s`. */
  function Count<T(==)>(s: seq<T>, x: T): (n: nat)
    ensures n <= |s|
    ensures n == 0 <==> x !in s
  {
    if |s| == 0 then 0
    else Count(s[..|s| - 1], x) + (if s[|s| - 1] == x then 1 else 0)
  }

  /** In a sequence without repetitions every element occurs exactly once. */
  lemma {:induction false} CountDistinct<T>(s: seq<T>, k: nat)
    requires Distinct(s) && k < |s|
    ensures Count(s, s[k]) == 1
  {
    var last := |s| - 1;
    if k == last {
      assert s[k] !in s[..last] by {
        forall i | 0 <= i < last ensures s[..last][i] != s[k] { }
      }
    } else {
      assert Distinct(s[..last]) by {
        forall i, j | 0 <= i < j < last ensures s[..last][i] != s[..last][j] { }
      }
      assert s[..last][k] == s[k];
      CountDistinct(s[..last], k);
    }
  }
}
