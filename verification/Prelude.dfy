/** Datatypes and collection facts shared by the models. */
module Prelude {

  datatype Option<+T> = None | Some(value: T)

  datatype Result<+T, +E> = Ok(value: T) | Err(error: E)

  function Min(a: int, b: int): int {
    if a <= b then a else b
  }

  function Max(a: int, b: int): int {
    if a >= b then a else b
  }

  /** Removing a subset removes exactly its size. */
  lemma CardinalityOfRest<T>(all: set<T>, part: set<T>)
    requires part <= all
    ensures |all - part| == |all| - |part|
  {
    assert all == (all - part) + part;
  }

  lemma CardinalityOfSubset<T>(part: set<T>, all: set<T>)
    requires part <= all
    ensures |part| <= |all|
    ensures |part| == |all| ==> part == all
  {
    CardinalityOfRest(all, part);
    if |part| == |all| {
      assert all - part == {};
    }
  }

  /** Every set has a subset of each smaller size. */
  lemma {:induction false} SubsetOfSize<T>(all: set<T>, n: nat) returns (part: set<T>)
    requires n <= |all|
    ensures part <= all && |part| == n
  {
    if n == 0 {
      part := {};
    } else {
      var x :| x in all;
      var rest := SubsetOfSize(all - {x}, n - 1);
      part := rest + {x};
    }
  }
}
