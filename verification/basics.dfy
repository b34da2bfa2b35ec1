/** Small vocabulary shared by every module. */
module Basics {

  datatype Option<+T> = None | Some(value: T)

  datatype Result<+T, +E> = Ok(value: T) | Err(error: E)

  /** A clock reading in whole seconds. */
  type Time = int

  predicate Distinct<T(==)>(s: seq<T>) {
    forall j, k :: 0 <= j < k < |s| ==> s[j] != s[k]
  }

  /** Distinct numbers drawn from 1..limit: there are at most `limit` of them. */
  lemma {:induction false} DistinctAreFew(numbers: seq<nat>, limit: nat)
    requires forall k :: 0 <= k < |numbers| ==> 1 <= numbers[k] <= limit
    requires Distinct(numbers)
    ensures |numbers| <= limit
  {
    if numbers == [] {
    } else if limit in numbers {
      var at :| 0 <= at < |numbers| && numbers[at] == limit;
      DistinctAreFew(numbers[..at] + numbers[at + 1..], limit - 1);
    } else {
      assert 1 <= numbers[0] <= limit;
      DistinctAreFew(numbers, limit - 1);
    }
  }
}
