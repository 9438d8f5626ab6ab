/**
 What `SELECT … [ORDER BY t] LIMIT n FOR UPDATE SKIP LOCKED` may return: any
 `n` of the unlocked candidates (all of them when there are fewer), the
 smallest times first when ordered. The database is free to choose among
 ties, so a batch is a relation, not a function.
 */
module Batches {
  import opened Prelude

  type Id = nat
  type Time = int

  /** `ids` is what an unordered LIMIT may pick from `candidates`. */
  predicate IsBatch(candidates: set<Id>, limit: nat, ids: set<Id>) {
    ids <= candidates && |ids| == Min(limit, |candidates|)
  }

  /** `ids` is what ORDER BY the candidates' times with a LIMIT may pick. */
  predicate IsOldestBatch(times: map<Id, Time>, limit: nat, ids: set<Id>) {
    && IsBatch(times.Keys, limit, ids)
    && forall p, q {:trigger times[p], times[q]} :: p in ids && q in times.Keys - ids ==> times[p] <= times[q]
  }

  /** The database can always answer: some batch exists. */
  lemma BatchExists(candidates: set<Id>, limit: nat) returns (ids: set<Id>)
    ensures IsBatch(candidates, limit, ids)
  {
    ids := SubsetOfSize(candidates, Min(limit, |candidates|));
  }

  lemma {:induction false} OldestExists(times: map<Id, Time>) returns (oldest: Id)
    requires |times| > 0
    ensures oldest in times && forall q :: q in times ==> times[oldest] <= times[q]
    decreases |times|
  {
    var x :| x in times;
    if |times| == 1 {
      CardinalityOfSubset({x}, times.Keys);
      oldest := x;
    } else {
      var rest := times - {x};
      assert rest.Keys == times.Keys - {x};
      var y := OldestExists(rest);
      oldest := if times[x] <= times[y] then x else y;
      forall q | q in times ensures times[oldest] <= times[q] {
        if q != x { assert q in rest; }
      }
    }
  }

  lemma {:induction false} OldestBatchExists(times: map<Id, Time>, limit: nat) returns (ids: set<Id>)
    ensures IsOldestBatch(times, limit, ids)
    decreases limit
  {
    if limit == 0 || |times| == 0 {
      ids := {};
    } else {
      var x := OldestExists(times);
      var rest := times - {x};
      assert rest.Keys == times.Keys - {x};
      var others := OldestBatchExists(rest, limit - 1);
      ids := others + {x};
      AddOldest(times, limit, x, others);
    }
  }

  lemma AddOldest(times: map<Id, Time>, limit: nat, x: Id, others: set<Id>)
    requires limit > 0 && x in times
    requires forall q :: q in times ==> times[x] <= times[q]
    requires IsOldestBatch(times - {x}, limit - 1, others)
    ensures IsOldestBatch(times, limit, others + {x})
  {
    var rest := times - {x};
    assert rest.Keys == times.Keys - {x};
    assert |rest.Keys| == |times.Keys| - 1;
    assert times.Keys - (others + {x}) == rest.Keys - others;
    forall p, q | p in others + {x} && q in times.Keys - (others + {x})
      ensures times[p] <= times[q]
    {
      if p != x {
        assert q in rest.Keys - others;
        assert rest[p] <= rest[q];
      }
    }
  }
}
