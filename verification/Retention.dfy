/** Pruning old usage events in batches, while new ones come in and other copies prune too. */
module Retention {
  import opened Prelude
  import opened Batches

  /** When each event was created. */
  type Events = map<Id, Time>

  /** One statement: when it runs, and what another copy's pruner deletes under it. */
  datatype Round = Round(at: Time, others: set<Id>)

  /** Those of `left` older than `cutoff`. */
  function OlderThan(events: Events, left: set<Id>, cutoff: Time): Events {
    map id | id in events && id in left && events[id] < cutoff :: events[id]
  }

  /**
   What comes in while a prune runs is stamped no earlier than its start, so
   within a window of it no statement picks any of it. So the loop below is
   over the events there were at the start.
   */
  lemma NewsIsNeverDue(events: Events, left: set<Id>, news: Events, start: Time, cutoff: Time)
    requires cutoff <= start && news.Keys !! events.Keys && left <= events.Keys
    requires forall id :: id in news ==> news[id] >= start
    ensures OlderThan(events + news, left + news.Keys, cutoff) == OlderThan(events, left, cutoff)
  {}

  /** How many rows `k` full batches are. */
  function Rows(k: nat, batch: nat): nat {
    if k == 0 then 0 else Rows(k - 1, batch) + batch
  }

  // ─── What a prune may do ─────────────────────────────────

  /** The statements so far: each one's cutoff, what it picked, and what others deleted under it. */
  datatype Statements = Start | Then(before: Statements, cutoff: Time, ids: set<Id>, others: set<Id>) {
    function Count(): nat {
      if Start? then 0 else before.Count() + 1
    }
  }

  /** What is left after them. */
  function Left(events: Events, h: Statements): set<Id> {
    match h
    case Start => events.Keys
    case Then(before, _, ids, others) => Left(events, before) - ids - others
  }

  /** What they deleted themselves. */
  function Mine(h: Statements): set<Id> {
    match h
    case Start => {}
    case Then(before, _, ids, others) => Mine(before) + (ids - others)
  }

  /** `ids` is what a statement may pick of `left`. */
  ghost predicate MayPick(events: Events, left: set<Id>, cutoff: Time, batch: nat, ids: set<Id>) {
    IsOldestBatch(OlderThan(events, left, cutoff), batch, ids)
  }

  /** The last statement picked what the database may pick. */
  ghost predicate PicksOldest(events: Events, batch: nat, h: Statements)
    requires h.Then?
  {
    MayPick(events, Left(events, h.before), h.cutoff, batch, h.ids)
  }

  /** The loop has come this far: every statement deleted a full batch. */
  ghost predicate Going(events: Events, batch: nat, h: Statements) {
    h.Start? || (Going(events, batch, h.before) && PicksOldest(events, batch, h) && |h.ids - h.others| >= batch)
  }

  /** The loop ended: its last statement deleted less. */
  ghost predicate Ran(events: Events, batch: nat, h: Statements) {
    h.Then? && Going(events, batch, h.before) && PicksOldest(events, batch, h) && |h.ids - h.others| < batch
  }

  /** Cutoffs only grow. */
  predicate InOrder(h: Statements) {
    h.Then? && h.before.Then? ==> h.before.cutoff <= h.cutoff && InOrder(h.before)
  }

  /** The statements ran beside `rounds`. */
  predicate Beside(rounds: seq<Round>, keep: Time, h: Statements) {
    h.Start? ||
    (h.Count() <= |rounds| && Beside(rounds, keep, h.before)
     && h.cutoff == rounds[h.Count() - 1].at - keep && h.others == rounds[h.Count() - 1].others)
  }

  // ─── What it deletes ─────────────────────────────────────

  /** Deleted events were there, aren't left, and what is left was there too. */
  predicate Apart(events: Events, left: set<Id>, mine: set<Id>) {
    && (forall id :: id in left ==> id in events && id !in mine)
    && (forall id :: id in mine ==> id in events)
  }

  lemma PickedAreDue(events: Events, batch: nat, h: Statements)
    requires h.Then? && PicksOldest(events, batch, h)
    ensures h.ids <= Left(events, h.before) && |h.ids| <= batch
    ensures forall id :: id in h.ids ==> id in events && events[id] < h.cutoff
  {
    assert h.ids <= OlderThan(events, Left(events, h.before), h.cutoff).Keys;
  }

  lemma StaysApart(events: Events, left: set<Id>, mine: set<Id>, ids: set<Id>, others: set<Id>)
    requires Apart(events, left, mine) && ids <= left
    ensures Apart(events, left - ids - others, mine + (ids - others)) && mine !! ids - others
  {}

  lemma {:induction false} GoingApart(events: Events, batch: nat, h: Statements)
    requires Going(events, batch, h)
    ensures Apart(events, Left(events, h), Mine(h))
  {
    if h.Then? {
      GoingApart(events, batch, h.before);
      PickedAreDue(events, batch, h);
      StaysApart(events, Left(events, h.before), Mine(h.before), h.ids, h.others);
    }
  }

  lemma DisjointCardinality(a: set<Id>, b: set<Id>)
    requires a !! b
    ensures |a + b| == |a| + |b|
  {}

  lemma MineFits(events: Events, left: set<Id>, mine: set<Id>)
    requires Apart(events, left, mine)
    ensures |mine| <= |events|
  {
    CardinalityOfSubset(mine, events.Keys);
    assert |events| == |events.Keys|;
  }

  /** A statement adds to what was deleted what it deleted. */
  lemma StatementCounts(events: Events, batch: nat, h: Statements)
    requires h.Then? && PicksOldest(events, batch, h) && Apart(events, Left(events, h.before), Mine(h.before))
    ensures |Mine(h)| == |Mine(h.before)| + |h.ids - h.others| && |h.ids - h.others| <= batch
    ensures Apart(events, Left(events, h), Mine(h))
  {
    PickedAreDue(events, batch, h);
    StaysApart(events, Left(events, h.before), Mine(h.before), h.ids, h.others);
    DisjointCardinality(Mine(h.before), h.ids - h.others);
    CardinalityOfSubset(h.ids - h.others, h.ids);
  }

  lemma RowsNext(h: Statements, batch: nat)
    requires h.Then?
    ensures h.Count() == h.before.Count() + 1 && Rows(h.Count(), batch) == Rows(h.before.Count(), batch) + batch
  {}

  lemma MineAddsUp(events: Events, batch: nat, h: Statements)
    requires h.Then? && Going(events, batch, h.before) && PicksOldest(events, batch, h)
    ensures |Mine(h)| == |Mine(h.before)| + |h.ids - h.others| && Apart(events, Left(events, h), Mine(h))
  {
    GoingApart(events, batch, h.before);
    StatementCounts(events, batch, h);
  }

  /** Everything deleted is distinct, so full batches can't go on for long. */
  lemma {:induction false} GoingCounts(events: Events, batch: nat, h: Statements)
    requires Going(events, batch, h)
    ensures |Mine(h)| == Rows(h.Count(), batch) <= |events|
  {
    if h.Then? {
      GoingCounts(events, batch, h.before);
      GoingApart(events, batch, h.before);
      StatementCounts(events, batch, h);
      RowsNext(h, batch);
    }
    GoingApart(events, batch, h);
    MineFits(events, Left(events, h), Mine(h));
  }

  /** A prune makes at most one statement more than full batches fit, and deletes no event twice. */
  lemma {:induction false} PruneIsShort(events: Events, batch: nat, h: Statements)
    requires Ran(events, batch, h)
    ensures Rows(h.Count() - 1, batch) <= |events| && Apart(events, Left(events, h), Mine(h))
    ensures |Mine(h)| == Rows(h.Count() - 1, batch) + |h.ids - h.others|
  {
    GoingCounts(events, batch, h.before);
    MineAddsUp(events, batch, h);
    CountBefore(h);
  }

  lemma CountBefore(h: Statements)
    requires h.Then?
    ensures h.Count() - 1 == h.before.Count()
  {}

  // ─── What it leaves ──────────────────────────────────────

  /** What the last statement could have deleted. */
  function DueLast(events: Events, h: Statements): Events
    requires h.Then?
  {
    OlderThan(events, Left(events, h.before), h.cutoff)
  }

  /** Nothing older than its last cutoff is left. */
  predicate EndsClean(events: Events, h: Statements)
    requires h.Then?
  {
    OlderThan(events, Left(events, h), h.cutoff) == map[]
  }

  /**
   What one run leaves: nothing older than its last cutoff exactly when that
   statement found at most a batch due, or another copy was deleting all it
   didn't pick.
   */
  lemma {:induction false} NothingOldLeftIff(events: Events, batch: nat, h: Statements)
    requires Ran(events, batch, h)
    ensures EndsClean(events, h) <==>
            |DueLast(events, h)| <= batch || DueLast(events, h).Keys - h.ids <= h.others
  {
    var due, left := DueLast(events, h), OlderThan(events, Left(events, h), h.cutoff);
    assert left.Keys == due.Keys - h.ids - h.others;
    assert left == map[] <==> left.Keys == {};
    CardinalityOfSubset(h.ids, due.Keys);
    assert |due| <= batch ==> h.ids == due.Keys by { assert |due| == |due.Keys|; }
    NothingBeyond(due.Keys - h.ids, h.others);
  }

  lemma NothingBeyond(a: set<Id>, b: set<Id>)
    ensures a - b == {} <==> a <= b
  {
    assert forall id :: id in a && id !in b ==> id in a - b;
  }

  /** With more than a batch due, another copy may be deleting just what a statement picks: then it ends, unclean. */
  lemma StopsUnderAnother(events: Events, batch: nat, before: Statements, cutoff: Time) returns (h: Statements)
    requires batch > 0 && Going(events, batch, before) && |OlderThan(events, Left(events, before), cutoff)| > batch
    ensures Ran(events, batch, h) && h.before == before && h.cutoff == cutoff && !EndsClean(events, h)
    ensures h.ids == h.others
  {
    var due := OlderThan(events, Left(events, before), cutoff);
    var ids := OldestBatchExists(due, batch);
    h := Then(before, cutoff, ids, ids);
    assert ids - ids == {} && PicksOldest(events, batch, h);
    assert |due| == |due.Keys|;
    CardinalityOfRest(due.Keys, ids);
    var id :| id in due.Keys - ids;
    assert id in OlderThan(events, Left(events, h), cutoff);
  }

  /**
   Two copies' pruners pick the same oldest batch. The one that comes second
   deletes nothing, so it stops, with old events left to the other.
   */
  lemma {:induction false} SecondPrunerStops(events: Events, keep: Time, batch: nat, cutoff: Time)
    returns (rounds: seq<Round>, h: Statements)
    requires 0 < batch < |OlderThan(events, events.Keys, cutoff)|
    ensures Valid(events, batch, rounds) && Beside(rounds, keep, h) && InOrder(h)
    ensures Ran(events, batch, h) && h.Count() == 1 && h.cutoff == cutoff && Mine(h) == {} && !EndsClean(events, h)
  {
    assert Left(events, Start) == events.Keys && Mine(Start) == {};
    h := StopsUnderAnother(events, batch, Start, cutoff);
    assert Mine(h) == h.ids - h.others == {};
    rounds := SameRounds(|events| + 1, Round(cutoff + keep, h.others));
    RowsGrow(|events| + 1, batch);
    assert Beside(rounds, keep, Start) && InOrder(h) && h.Count() == 1;
    assert h.others == rounds[0].others && h.cutoff == rounds[0].at - keep;
  }

  /** A round again and again. */
  lemma SameRounds(n: nat, round: Round) returns (rounds: seq<Round>)
    ensures |rounds| == n && forall i :: 0 <= i < n ==> rounds[i] == round
    ensures forall i :: 0 < i < |rounds| ==> Later(rounds, i)
  {
    rounds := seq(n, _ => round);
  }

  /**
   However the database picks and whatever others delete, a statement after
   `before` that ends the loop leaves nothing old exactly when at most a
   batch is due as it begins.
   */
  lemma {:induction false} LastStatementIsSureIff(events: Events, batch: nat, before: Statements, cutoff: Time)
    requires batch > 0 && Going(events, batch, before)
    ensures (forall h :: Ran(events, batch, h) && h.before == before && h.cutoff == cutoff ==> EndsClean(events, h))
            <==> |OlderThan(events, Left(events, before), cutoff)| <= batch
  {
    var due := OlderThan(events, Left(events, before), cutoff);
    if |due| <= batch {
      forall h | Ran(events, batch, h) && h.before == before && h.cutoff == cutoff
        ensures EndsClean(events, h)
      {
        NothingOldLeftIff(events, batch, h);
      }
    } else {
      var h := StopsUnderAnother(events, batch, before, cutoff);
      assert Ran(events, batch, h) && !EndsClean(events, h);
    }
  }

  /**
   Known before a prune begins: it is sure to leave nothing older than its
   last cutoff exactly when at most a batch of the events is older than that.
   */
  lemma {:induction false} PruneIsSureIff(events: Events, batch: nat, cutoff: Time)
    requires batch > 0
    ensures (forall h :: Ran(events, batch, h) && InOrder(h) && h.cutoff == cutoff ==> EndsClean(events, h))
            <==> |OlderThan(events, events.Keys, cutoff)| <= batch
  {
    if |OlderThan(events, events.Keys, cutoff)| <= batch {
      forall h | Ran(events, batch, h) && InOrder(h) && h.cutoff == cutoff
        ensures EndsClean(events, h)
      {
        FewerDue(events, h);
        NothingOldLeftIff(events, batch, h);
      }
    } else {
      var rounds, h := SecondPrunerStops(events, 0, batch, cutoff);
      assert Ran(events, batch, h) && !EndsClean(events, h);
    }
  }

  /** What is due at a later statement was there, and as old, from the start. */
  lemma FewerDue(events: Events, h: Statements)
    requires h.Then?
    ensures |DueLast(events, h)| <= |OlderThan(events, events.Keys, h.cutoff)|
  {
    var due, all := DueLast(events, h), OlderThan(events, events.Keys, h.cutoff);
    assert due.Keys <= all.Keys && |due| == |due.Keys| && |all| == |all.Keys|;
    CardinalityOfSubset(due.Keys, all.Keys);
  }

  lemma {:induction false} RowsGrow(k: nat, batch: nat)
    requires batch > 0
    ensures k <= Rows(k, batch)
  {
    if k > 0 { RowsGrow(k - 1, batch); }
  }

  // ─── Alone ───────────────────────────────────────────────

  predicate Alone(h: Statements) {
    h.Start? || (h.others == {} && Alone(h.before))
  }

  /** Alone, what isn't left was deleted by this prune, and older than every later cutoff. */
  lemma {:induction false} AloneDeletesAll(events: Events, batch: nat, h: Statements, cutoff: Time, id: Id)
    requires Going(events, batch, h) && Alone(h) && InOrder(h) && (h.Then? ==> h.cutoff <= cutoff) && id in events
    ensures id in Left(events, h) || id in Mine(h)
    ensures id in Mine(h) ==> events[id] < cutoff
  {
    if h.Then? {
      AloneDeletesAll(events, batch, h.before, cutoff, id);
      PickedAreDue(events, batch, h);
    }
  }

  /** Alone, the last statement took all that was due. */
  lemma AloneTakesAll(events: Events, batch: nat, h: Statements)
    requires Ran(events, batch, h) && h.others == {}
    ensures h.ids == DueLast(events, h).Keys
  {
    assert h.ids - {} == h.ids;
    ShortBatchTakesAll(DueLast(events, h), batch, h.ids);
  }

  /** Alone, a prune leaves and deletes exactly what one delete at its last statement's time would. */
  lemma {:induction false} AloneIsOneShot(events: Events, batch: nat, h: Statements, id: Id)
    requires Ran(events, batch, h) && Alone(h) && InOrder(h) && id in events
    ensures id in Left(events, h) <==> events[id] >= h.cutoff
    ensures id in Mine(h) <==> events[id] < h.cutoff
  {
    AloneDeletesAll(events, batch, h.before, h.cutoff, id);
    GoingApart(events, batch, h.before);
    AloneTakesAll(events, batch, h);
    assert id in DueLast(events, h) <==> id in Left(events, h.before) && events[id] < h.cutoff;
  }

  lemma ShortBatchTakesAll(due: Events, batch: nat, ids: set<Id>)
    requires IsOldestBatch(due, batch, ids) && |ids| < batch
    ensures ids == due.Keys
  {
    CardinalityOfSubset(ids, due.Keys);
  }

  // ─── The loop ────────────────────────────────────────────

  /** Statements run in order, and `rounds` goes on for longer than full batches can. */
  ghost predicate Valid(events: Events, batch: nat, rounds: seq<Round>) {
    && |events| < Rows(|rounds|, batch)
    && forall i :: 0 < i < |rounds| ==> Later(rounds, i)
  }

  predicate Later(rounds: seq<Round>, i: nat)
    requires 0 < i < |rounds|
  {
    rounds[i - 1].at <= rounds[i].at
  }

  /** One DELETE, with `others` deleting rows it picked before it could. */
  method Statement(events: Events, left: set<Id>, cutoff: Time, batch: nat, others: set<Id>)
    returns (after: set<Id>, n: nat, ids: set<Id>)
    ensures MayPick(events, left, cutoff, batch, ids)
    ensures after == left - ids - others && n == |ids - others|
  {
    var due := OlderThan(events, left, cutoff);
    ghost var some := OldestBatchExists(due, batch);
    var picked: set<Id> :| picked <= due.Keys && IsOldestBatch(due, batch, picked);
    after, n, ids := left - picked - others, |picked - others|, picked;
  }

  /** Where the loop is. */
  ghost predicate At(events: Events, keep: Time, batch: nat, rounds: seq<Round>, h: Statements) {
    Going(events, batch, h) && Beside(rounds, keep, h) && InOrder(h) && h.Count() <= |rounds|
  }

  /** Full batches leave statements to go. */
  lemma MoreRounds(n: nat, m: nat, batch: nat, events: nat)
    requires n <= m && Rows(n, batch) <= events < Rows(m, batch)
    ensures n < m
  {}

  /** A statement more keeps the order. */
  lemma NextInOrder(events: Events, keep: Time, batch: nat, rounds: seq<Round>, h: Statements, next: Statements)
    requires Valid(events, batch, rounds) && Beside(rounds, keep, h) && InOrder(h) && h.Count() < |rounds|
    requires next.Then? && next == Then(h, rounds[h.Count()].at - keep, next.ids, rounds[h.Count()].others)
    ensures Beside(rounds, keep, next) && InOrder(next) && next.Count() == h.Count() + 1
  {
    if h.Then? { assert Later(rounds, h.Count()); }
  }

  /** One pass through the loop. */
  method NextStatement(events: Events, keep: Time, batch: nat, rounds: seq<Round>, left: set<Id>, k: nat, h: Statements)
    returns (after: set<Id>, n: nat, next: Statements)
    requires Valid(events, batch, rounds) && At(events, keep, batch, rounds, h) && k == h.Count() < |rounds|
    requires left == Left(events, h)
    ensures next.Then? && next.before == h && PicksOldest(events, batch, next)
    ensures Beside(rounds, keep, next) && InOrder(next) && next.Count() == k + 1
    ensures after == Left(events, next) && n == |next.ids - next.others| && |Mine(next)| == |Mine(h)| + n
  {
    var ids;
    after, n, ids := Statement(events, left, rounds[k].at - keep, batch, rounds[k].others);
    next := Then(h, rounds[k].at - keep, ids, rounds[k].others);
    assert PicksOldest(events, batch, next);
    MineAddsUp(events, batch, next);
    NextInOrder(events, keep, batch, rounds, h, next);
  }

  /**
   Statement after statement until one deletes less than a batch. What that
   may do is `Ran`, and `h` the record of it; the lemmas above say what it deletes, what it leaves and
   how long it takes.
   */
  method Prune(events: Events, keep: Time, batch: nat, rounds: seq<Round>)
    returns (left: set<Id>, deleted: nat, h: Statements)
    requires batch > 0 && Valid(events, batch, rounds)
    ensures Ran(events, batch, h) && Beside(rounds, keep, h) && InOrder(h)
    ensures left == Left(events, h) && deleted == |Mine(h)|
  {
    left, deleted, h := events.Keys, 0, Start;
    var k := 0;
    while true
      invariant k == h.Count() && At(events, keep, batch, rounds, h)
      invariant left == Left(events, h) && deleted == |Mine(h)|
      decreases |rounds| - k
    {
      GoingCounts(events, batch, h);
      MoreRounds(k, |rounds|, batch, |events|);
      var n;
      left, n, h := NextStatement(events, keep, batch, rounds, left, k, h);
      deleted, k := deleted + n, k + 1;
      if n < batch {
        return;
      }
    }
  }
}
