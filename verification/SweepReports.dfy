/**
 What a sweep wakes and what it returns, said of the tables it leaves: which
 called agents are woken on which feed, and which calls each count counts.
 */
module SweepReports {
  import opened Prelude
  import opened Batches
  import opened InvocationRows
  import opened InvocationRelay
  import opened DeadlinePass
  import opened SweepTraces
  import WakeHub

  type Feed = WakeHub.Feed

  /** One `wake.notify`; `call`, a history, is the row it is for. */
  datatype Wake = Wake(agent: Id, feed: Feed, call: Id)

  function Reachable(calls: map<Id, Call>, ids: set<Id>): set<Id> {
    set id | id in ids && id in calls && calls[id].agent.Some?
  }

  /** One wake on `feed` for each of `ids` with a called agent. */
  function WakesOf(calls: map<Id, Call>, ids: set<Id>, feed: Feed): set<Wake> {
    set id | id in Reachable(calls, ids) :: Wake(calls[id].agent.value, feed, id)
  }

  /** What a pass wakes for `ids`: nobody, unless it heard that it committed. */
  function Waking(calls: map<Id, Call>, fault: Fault, ids: set<Id>, feed: Feed): multiset<Wake> {
    if fault.NoFault? then multiset(WakesOf(calls, ids, feed)) else multiset{}
  }

  /** What a sweep wakes for: the late calls' agents and the exhausted ones', then those with calls back in the feed. */
  function SweepWakes(t: Trace, copy: Id, settings: Settings, e: Around, p: Picks): multiset<Wake> {
    if !e.fill.fault.NoFault? then multiset{}
    else
      var late := Waking(After(LateEnds(t, copy, settings, e, p)).calls, e.late.fault, p.late, WakeHub.Notices);
      if LateFails(e.late, p.late) then late
      else late + LeaseWakes(LeaseBegins(t, copy, settings, e, p), e.lease, p.lapsed)
  }

  function LeaseWakes(t: Trace, e: LeaseAround, lapsed: set<Id>): multiset<Wake> {
    var calls, gone := After(LeaseTrace(t, e, lapsed)).calls, LastDeliveries(After(t).calls, lapsed);
    Waking(calls, e.fault, gone, WakeHub.Notices) + Waking(calls, e.fault, lapsed - gone, WakeHub.Invocations)
  }

  /** Not claimed, and claimed, among the calls a pass timed out. */
  function LateCounts(t: Trace, late: set<Id>): (int, int) {
    (|late| - |Claimed(After(t).calls, late)|, |Claimed(After(t).calls, late)|)
  }

  function LeaseCounts(t: Trace, lapsed: set<Id>): (int, int) {
    (|lapsed - LastDeliveries(After(t).calls, lapsed)|, |LastDeliveries(After(t).calls, lapsed)|)
  }

  /** What a sweep that succeeds returns. */
  function SweepReport(t: Trace, copy: Id, settings: Settings, e: Around, p: Picks): Swept {
    var late := LateCounts(LateEnds(t, copy, settings, e, p), p.late);
    var lapsed := LeaseCounts(LeaseBegins(t, copy, settings, e, p), p.lapsed);
    Swept(|p.rows|, late.0, late.1, lapsed.0, lapsed.1)
  }

  // ─── Said of the rows ────────────────────────────────────

  /** Its called agent is the one woken: for notices when it timed out, for work when it is back in the feed. */
  predicate WokenFor(wake: Wake, c: Call) {
    c.agent == Some(wake.agent)
    && ((c.status.Timeout? && wake.feed == WakeHub.Notices) || (c.status.Pending? && wake.feed == WakeHub.Invocations))
  }

  /** One wake more on `feed` for the called agent of each of `ids`, and no other. */
  ghost predicate WokenOn(before: multiset<Wake>, after: multiset<Wake>, calls: map<Id, Call>, ids: set<Id>, feed: Feed) {
    forall w: Wake :: after[w] == before[w] +
      (if w.feed == feed && w.call in ids && w.call in calls && calls[w.call].agent == Some(w.agent) then 1 else 0)
  }

  /** One wake more for the called agent of each of `ids`, on the feed its row is now in, and no other. */
  ghost predicate WokenBy(before: multiset<Wake>, after: multiset<Wake>, calls: map<Id, Call>, ids: set<Id>) {
    forall w: Wake :: after[w] == before[w] +
      (if w.call in ids && w.call in calls && WokenFor(w, calls[w.call]) then 1 else 0)
  }

  lemma WakesSay(before: multiset<Wake>, calls: map<Id, Call>, ids: set<Id>, feed: Feed)
    ensures WokenOn(before, before + multiset(WakesOf(calls, ids, feed)), calls, ids, feed)
  {
    forall w: Wake { WakesOfSays(calls, ids, feed, w); }
  }

  lemma WakesOfSays(calls: map<Id, Call>, ids: set<Id>, feed: Feed, wake: Wake)
    ensures multiset(WakesOf(calls, ids, feed))[wake] ==
      if wake.feed == feed && wake.call in ids && wake.call in calls && calls[wake.call].agent == Some(wake.agent)
      then 1 else 0
  {
    if wake.feed == feed && wake.call in ids && wake.call in calls && calls[wake.call].agent == Some(wake.agent) {
      assert wake.call in Reachable(calls, ids);
    }
  }

  /** A stage later, a row is as it may evolve. */
  lemma RowLater(t: Trace, stage: Stage, id: Id)
    requires Sound(After(t)) && id in After(t).calls
    ensures id in After(Then(t, stage)).calls && Evolves(After(t).calls[id], After(Then(t, stage)).calls[id])
  {
    match stage
    case Own(s) => OwnPlayed(t, s); StepEvolves(After(t), s, id);
    case Others(steps) => OthersPlayed(t, steps); RunEvolves(After(t), steps, id);
  }

  /** A timed-out row still is, with the agent and the claim it had. */
  predicate StillTimedOut(c: Call, d: Call) {
    d.status.Timeout? && d.agent == c.agent && d.claimedAt == c.claimedAt
  }

  lemma TimedOutLater(t: Trace, stage: Stage, id: Id)
    requires Sound(After(t)) && id in SweptCalls(After(t).calls)
    ensures id in After(Then(t, stage)).calls
    ensures StillTimedOut(After(t).calls[id], After(Then(t, stage)).calls[id])
    ensures id in SweptCalls(After(Then(t, stage)).calls)
  {
    RowLater(t, stage, id);
    assert RowOk(After(t).calls[id]);
  }

  /** A deadline pass that got through timed these out, and they still are when the lease pass begins. */
  lemma {:induction false} LateStaysTimedOut(t: Trace, copy: Id, settings: Settings, e: Around, p: Picks)
    requires Sound(Start(t)) && OthersOnlyAround(e, copy) && Lawful(SweepTrace(t, copy, settings, e, p), copy)
    requires e.fill.fault.NoFault? && !LateFails(e.late, p.late)
    ensures var ends, begins := LateEnds(t, copy, settings, e, p), LeaseBegins(t, copy, settings, e, p);
      && Sound(After(ends)) && p.late <= SweptCalls(After(ends).calls)
      && Sound(After(begins)) && Lawful(begins, copy) && p.late <= SweptCalls(After(begins).calls)
  {
    var begins, ends := LeaseBegins(t, copy, settings, e, p), LateEnds(t, copy, settings, e, p);
    if e.lease.fault.Commits() { LawfulBefore(SweepTrace(t, copy, settings, e, p), copy); }
    LawfulBefore(begins, copy);
    StartOfSweep(t, copy, settings, e, p);
    StartOfLate(LateBegins(t, settings, e, p), copy, e.late, p.drafts, p.late);
    assert Start(begins) == Start(ends) == Start(t);
    LateTimesOut(LateBegins(t, settings, e, p), copy, e.late, p.drafts, p.late);
    TheirsAfter(ends, e.afterLate);
    TraceAccounts(ends, copy);
    TraceSound(ends);
    TraceAccounts(begins, copy);
    TraceSound(begins);
  }

  /** And so when the sweep ends. */
  lemma {:induction false} LateRowAtEnd(t: Trace, copy: Id, settings: Settings, e: Around, p: Picks, id: Id)
    requires Sound(Start(t)) && OthersOnlyAround(e, copy) && Lawful(SweepTrace(t, copy, settings, e, p), copy)
    requires e.fill.fault.NoFault? && !LateFails(e.late, p.late) && id in p.late
    ensures var late := After(LateEnds(t, copy, settings, e, p)).calls;
      var end := After(SweepTrace(t, copy, settings, e, p)).calls;
      id in late && id in end && StillTimedOut(late[id], end[id])
  {
    LateStaysTimedOut(t, copy, settings, e, p);
    var ends, begins := LateEnds(t, copy, settings, e, p), LeaseBegins(t, copy, settings, e, p);
    TimedOutLater(ends, Others(e.afterLate), id);
    if e.lease.fault.Commits() {
      TimedOutLater(begins, LeaseTrace(begins, e.lease, p.lapsed).stage, id);
    }
  }

  /** A claim the lease pass picked was in progress; it has timed out on its third delivery, and else is pending again. */
  lemma LapsedRowAtEnd(t: Trace, copy: Id, e: LeaseAround, lapsed: set<Id>, id: Id)
    requires Sound(After(t)) && Lawful(LeaseTrace(t, e, lapsed), copy) && e.fault.Commits() && id in lapsed
    ensures id in After(t).calls && After(t).calls[id].status.InProgress?
    ensures var c, end := After(t).calls[id], After(LeaseTrace(t, e, lapsed)).calls;
      && id in end && end[id].agent == c.agent
      && (id in LastDeliveries(After(t).calls, lapsed) <==> end[id].status.Timeout?)
      && (id !in LastDeliveries(After(t).calls, lapsed) <==> end[id].status.Pending?)
  {
    LeaseLeaves(t, copy, e, lapsed);
    assert lapsed <= LapsedTimes(After(t), e.now, e.busy + HeldCallIds(After(t))).Keys;
    RowLater(t, LeaseTrace(t, e, lapsed).stage, id);
  }

  lemma LapsedNotSwept(t: Trace, copy: Id, e: LeaseAround, lapsed: set<Id>, id: Id)
    requires Sound(After(t)) && Lawful(LeaseTrace(t, e, lapsed), copy) && e.fault.Commits() && id in lapsed
    ensures id !in SweptCalls(After(t).calls)
  {
    LapsedRowAtEnd(t, copy, e, lapsed, id);
    assert RowOk(After(t).calls[id]);
  }

  /** What a lease pass wakes, said of the rows it leaves. */
  lemma LeaseWakesSay(t: Trace, copy: Id, e: LeaseAround, lapsed: set<Id>, wake: Wake)
    requires Sound(After(t)) && Lawful(LeaseTrace(t, e, lapsed), copy)
    ensures var end := After(LeaseTrace(t, e, lapsed)).calls;
      LeaseWakes(t, e, lapsed)[wake] ==
        if e.fault.NoFault? && wake.call in lapsed && wake.call in end && WokenFor(wake, end[wake.call]) then 1 else 0
  {
    if e.fault.NoFault? {
      var end, gone := After(LeaseTrace(t, e, lapsed)).calls, LastDeliveries(After(t).calls, lapsed);
      WakesOfSays(end, gone, WakeHub.Notices, wake);
      WakesOfSays(end, lapsed - gone, WakeHub.Invocations, wake);
      if wake.call in lapsed { LapsedRowAtEnd(t, copy, e, lapsed, wake.call); }
    }
  }

  /** The calls a sweep timed out or handed back in passes whose commit it heard of. */
  function HeardOf(e: Around, p: Picks): set<Id> {
    if !e.fill.fault.NoFault? then {}
    else
      (if e.late.fault.NoFault? then p.late else {})
      + (if !LateFails(e.late, p.late) && e.lease.fault.NoFault? then p.lapsed else {})
  }

  /**
   What a sweep wakes, said of the rows as it leaves them: the called agent
   of each call it heard it timed out or handed back, once, on the feed where
   it will find what became of it, and nobody else.
   */
  lemma {:induction false} SweepWakesSay(t: Trace, copy: Id, settings: Settings, e: Around, p: Picks, wake: Wake)
    requires Sound(Start(t)) && OthersOnlyAround(e, copy) && Lawful(SweepTrace(t, copy, settings, e, p), copy)
    ensures var end := After(SweepTrace(t, copy, settings, e, p)).calls;
      SweepWakes(t, copy, settings, e, p)[wake] ==
        if wake.call in HeardOf(e, p) && wake.call in end && WokenFor(wake, end[wake.call]) then 1 else 0
  {
    if e.fill.fault.NoFault? && !LateFails(e.late, p.late) {
      var begins := LeaseBegins(t, copy, settings, e, p);
      LateStaysTimedOut(t, copy, settings, e, p);
      LateWakesSay(t, copy, settings, e, p, wake);
      LeaseWakesSay(begins, copy, e.lease, p.lapsed, wake);
      if wake.call in p.lapsed && e.lease.fault.NoFault? { LapsedNotSwept(begins, copy, e.lease, p.lapsed, wake.call); }
    }
  }

  lemma {:induction false} LateWakesSay(t: Trace, copy: Id, settings: Settings, e: Around, p: Picks, wake: Wake)
    requires Sound(Start(t)) && OthersOnlyAround(e, copy) && Lawful(SweepTrace(t, copy, settings, e, p), copy)
    requires e.fill.fault.NoFault? && !LateFails(e.late, p.late)
    ensures var end := After(SweepTrace(t, copy, settings, e, p)).calls;
      Waking(After(LateEnds(t, copy, settings, e, p)).calls, e.late.fault, p.late, WakeHub.Notices)[wake] ==
        if e.late.fault.NoFault? && wake.call in p.late && wake.call in end && WokenFor(wake, end[wake.call]) then 1 else 0
  {
    WakesOfSays(After(LateEnds(t, copy, settings, e, p)).calls, p.late, WakeHub.Notices, wake);
    if wake.call in p.late { LateRowAtEnd(t, copy, settings, e, p, wake.call); }
  }

  // ─── The counts ──────────────────────────────────────────

  function TimedOutOf(calls: map<Id, Call>, ids: set<Id>): set<Id> {
    set id | id in ids && id in calls && calls[id].status.Timeout?
  }

  function PendingOf(calls: map<Id, Call>, ids: set<Id>): set<Id> {
    set id | id in ids && id in calls && calls[id].status.Pending?
  }

  function ClaimedOf(calls: map<Id, Call>, ids: set<Id>): set<Id> {
    set id | id in ids && id in calls && calls[id].claimedAt.Some?
  }

  function UnclaimedOf(calls: map<Id, Call>, ids: set<Id>): set<Id> {
    set id | id in ids && id in calls && calls[id].claimedAt.None?
  }

  /** Each count, said of the rows as the sweep leaves them. */
  predicate Counts(r: Swept, calls: map<Id, Call>, p: Picks) {
    && r.backfilled == |p.rows|
    && r.notPickedUp == |UnclaimedOf(calls, p.late)| && r.notAnswered == |ClaimedOf(calls, p.late)|
    && r.pended == |PendingOf(calls, p.lapsed)| && r.leaseExhausted == |TimedOutOf(calls, p.lapsed)|
  }

  lemma LapsedCounts(t: Trace, copy: Id, e: LeaseAround, lapsed: set<Id>)
    requires Sound(After(t)) && Lawful(LeaseTrace(t, e, lapsed), copy) && !LeaseFails(e, lapsed)
    ensures var end := After(LeaseTrace(t, e, lapsed)).calls;
      LeaseCounts(t, lapsed) == (|PendingOf(end, lapsed)|, |TimedOutOf(end, lapsed)|)
  {
    var end, gone := After(LeaseTrace(t, e, lapsed)).calls, LastDeliveries(After(t).calls, lapsed);
    forall id | id in lapsed
      ensures id in end && (id in gone <==> end[id].status.Timeout?) && (id !in gone <==> end[id].status.Pending?)
    {
      LapsedRowAtEnd(t, copy, e, lapsed, id);
    }
    assert gone == TimedOutOf(end, lapsed);
    assert lapsed - gone == PendingOf(end, lapsed);
  }

  lemma ClaimsSplit(late: map<Id, Call>, end: map<Id, Call>, ids: set<Id>)
    requires forall id :: id in ids ==> id in late && id in end && late[id].claimedAt == end[id].claimedAt
    ensures |ids| - |Claimed(late, ids)| == |UnclaimedOf(end, ids)| && |Claimed(late, ids)| == |ClaimedOf(end, ids)|
  {
    assert Claimed(late, ids) == ClaimedOf(end, ids);
    assert ids - Claimed(late, ids) == UnclaimedOf(end, ids);
    CardinalityOfRest(ids, Claimed(late, ids));
  }

  lemma {:induction false} SweepReportSays(t: Trace, copy: Id, settings: Settings, e: Around, p: Picks)
    requires Sound(Start(t)) && OthersOnlyAround(e, copy) && Lawful(SweepTrace(t, copy, settings, e, p), copy)
    requires e.fill.fault.NoFault? && !LateFails(e.late, p.late) && !LeaseFails(e.lease, p.lapsed)
    ensures Counts(SweepReport(t, copy, settings, e, p), After(SweepTrace(t, copy, settings, e, p)).calls, p)
  {
    var end := After(SweepTrace(t, copy, settings, e, p)).calls;
    LateStaysTimedOut(t, copy, settings, e, p);
    LapsedCounts(LeaseBegins(t, copy, settings, e, p), copy, e.lease, p.lapsed);
    var late := After(LateEnds(t, copy, settings, e, p)).calls;
    forall id | id in p.late ensures id in late && id in end && late[id].claimedAt == end[id].claimedAt {
      LateRowAtEnd(t, copy, settings, e, p, id);
    }
    ClaimsSplit(late, end, p.late);
  }

  /** The timeouts it reports are the calls it timed out. */
  lemma {:induction false} ReportCountsTheCalls(w: World, copy: Id, settings: Settings, e: Around, p: Picks)
    requires Sound(w) && OthersOnlyAround(e, copy) && Lawful(SweepTrace(Begin(w), copy, settings, e, p), copy)
    requires e.fill.fault.NoFault? && !LateFails(e.late, p.late) && !LeaseFails(e.lease, p.lapsed)
    ensures SweepReport(Begin(w), copy, settings, e, p).TimedOut() == |SweepCalls(Begin(w), copy, settings, e, p)|
  {
    var begins := LeaseBegins(Begin(w), copy, settings, e, p);
    LateStaysTimedOut(Begin(w), copy, settings, e, p);
    if p.lapsed != {} { LapsedNowSwept(begins, copy, e.lease, p.lapsed); }
    CardinalityOfParts(p.late, LastDeliveries(After(begins).calls, p.lapsed));
  }

  lemma CardinalityOfParts(a: set<Id>, b: set<Id>)
    requires a !! b
    ensures |a + b| == |a| + |b|
  {}

  /** The lease pass times out nothing that already was. */
  lemma LapsedNowSwept(t: Trace, copy: Id, e: LeaseAround, lapsed: set<Id>)
    requires Sound(After(t)) && Lawful(LeaseTrace(t, e, lapsed), copy) && e.fault.NoFault?
    ensures SweptCalls(After(t).calls) !! LastDeliveries(After(t).calls, lapsed)
  {
    var s := Step.Leases(e.now, e.busy + HeldCallIds(After(t)), lapsed);
    OwnLawful(t, s, copy);
    LeasesExpire(After(t), s);
    StepSweepsExactly(After(t), s);
  }
}
