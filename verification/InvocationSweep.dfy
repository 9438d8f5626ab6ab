/**
 One relay copy's sweep, statement by statement. Wherever the code awaits
 the database between two statements or passes, other copies, pullers and
 approvers may commit: `others` is what they do there.
 */
module InvocationSweep {
  import opened Prelude
  import opened Batches
  import opened InvocationRows
  import opened InvocationRelay
  import opened DeadlinePass
  import opened SweepTraces
  import opened SweepReports
  import WakeHub

  const MAX_LEASE_SECS: nat := 86400
  const MIN_EXPIRES_IN_SECS: int := 10

  datatype InvocationSettings = InvocationSettings(leaseSecs: nat, defaultTtlSecs: nat, hitlTtlSecs: nat) {
    function Default(humanInLoop: bool): nat {
      if humanInLoop then hitlTtlSecs else defaultTtlSecs
    }

    /** A pull's lease: what it asked for, or a day if that is less; never none. */
    function Lease(asked: Option<nat>): (secs: nat)
      requires 0 < leaseSecs
      ensures asked.Some? && asked.value > 0 ==>
        0 < secs <= asked.value && secs <= MAX_LEASE_SECS && (secs == asked.value || secs == MAX_LEASE_SECS)
      ensures asked.None? || asked.value == 0 ==> secs == leaseSecs
    {
      if asked.Some? && asked.value > 0 then Min(asked.value, MAX_LEASE_SECS) else leaseSecs
    }

    /** A new call's time to live: the caller can only shorten it. */
    function Ttl(humanInLoop: bool, expiresIn: Option<int>): (secs: Result<int, ()>)
      ensures secs.Err? <==> expiresIn.Some? && expiresIn.value < MIN_EXPIRES_IN_SECS
      ensures secs.Ok? ==>
        var most := if humanInLoop then hitlTtlSecs else defaultTtlSecs;
        secs.value == if expiresIn.Some? && expiresIn.value < most then expiresIn.value else most
    {
      match expiresIn
      case None => Ok(Default(humanInLoop))
      case Some(n) => if n < MIN_EXPIRES_IN_SECS then Err(()) else Ok(Min(n, Default(humanInLoop)))
    }

    function InMillis(): Settings {
      Settings(1000 * defaultTtlSecs, 1000 * hitlTtlSecs)
    }
  }

  datatype SweepError = DatabaseError

  class Sweeper {
    const copy: Id
    const settings: InvocationSettings
    var db: World
    /** Every `wake.notify` so far. */
    var wakes: multiset<Wake>
    /** All that was done to the tables so far. */
    ghost var trace: Trace

    ghost predicate Valid()
      reads this
    {
      Sound(db) && Sound(Start(trace)) && db == After(trace) && Lawful(trace, copy)
    }

    /** This copy is between passes. */
    ghost predicate Ready()
      reads this
    {
      Valid() && PassOf(db, copy).Idle?
    }

    constructor (copy: Id, settings: InvocationSettings, db: World)
      requires Sound(db)
      ensures Valid() && this.copy == copy && this.settings == settings && this.db == db
      ensures trace == Begin(db) && wakes == multiset{}
    {
      this.copy := copy;
      this.settings := settings;
      this.db := db;
      wakes, trace := multiset{}, Begin(db);
    }

    // ─── Statements ────────────────────────────────────────

    /** Others' commits while this copy waits. */
    method Await(others: seq<Step>)
      requires Valid() && forall s :: s in others ==> !Passing(s, copy)
      modifies this`db, this`trace
      ensures Valid() && trace == Then(old(trace), Others(others)) && PassOf(db, copy) == PassOf(old(db), copy)
    {
      OthersPlayed(trace, others);
      OthersLawful(trace, others, copy);
      RunKeepsLocks(db, others);
      RunKeepsRows(db, others);
      OthersLeaveThePass(db, others, copy);
      db, trace := Run(db, others), Then(trace, Others(others));
    }

    /** Run one statement of this copy's. */
    method Execute(s: Step)
      requires Valid() && Enabled(db, s)
      modifies this`db, this`trace
      ensures Valid() && trace == Then(old(trace), Own(s)) && db == Next(old(db), s)
    {
      OwnPlayed(trace, s);
      OwnLawful(trace, s, copy);
      StepKeepsLocks(db, s);
      StepKeepsRowsOk(db, s);
      Become(Next(db, s), Then(trace, Own(s)));
    }

    method Become(next: World, ghost more: Trace)
      requires Sound(next) && Sound(Start(more)) && next == After(more) && Lawful(more, copy)
      modifies this`db, this`trace
      ensures Valid() && db == next && trace == more
    {
      db, trace := next, more;
    }

    /** `for agent in told { wake.notify(agent, feed) }`, after the commit. */
    method NotifyAll(calls: map<Id, Call>, ids: set<Id>, feed: Feed)
      modifies this`wakes
      ensures wakes == old(wakes) + multiset(WakesOf(calls, ids, feed))
      ensures WokenOn(old(wakes), wakes, calls, ids, feed)
    {
      WakesSay(wakes, calls, ids, feed);
      var rest := WakesOf(calls, ids, feed);
      ghost var all := rest;
      while rest != {}
        invariant rest <= all && wakes == old(wakes) + multiset(all - rest)
        decreases |rest|
      {
        var one :| one in rest;
        assert all - (rest - {one}) == (all - rest) + {one};
        wakes := wakes + multiset{one};
        rest := rest - {one};
      }
      assert all - {} == all;
    }

    // ─── The backfill ──────────────────────────────────────

    /** `backfill`: how many rows got a deadline. A commit it didn't hear of fails the sweep all the same. */
    method Backfill(e: FillAround) returns (r: Result<int, SweepError>, ghost rows: set<Id>)
      requires Ready()
      modifies this`db, this`trace
      ensures Ready() && trace == FillTrace(old(trace), settings.InMillis(), e, rows)
      ensures r.Ok? == e.fault.NoFault? && (r.Ok? ==> r.value == |rows|)
    {
      rows := {};
      if !e.fault.Commits() { return Err(DatabaseError), rows; }
      var skip := e.busy + HeldCallIds(db);
      ghost var some := BatchExists(NeedsDeadline(db) - skip, BACKFILL_BATCH);
      var picked: set<Id> :|
        picked <= NeedsDeadline(db) - skip && IsBatch(NeedsDeadline(db) - skip, BACKFILL_BATCH, picked);
      Fill(Step.Backfill(e.now, settings.InMillis(), e.hitl, skip, picked));
      rows := picked;
      r := if e.fault.NoFault? then Ok(|picked|) else Err(DatabaseError);
    }

    method Fill(s: Step)
      requires Ready() && s.Backfill? && Enabled(db, s)
      modifies this`db, this`trace
      ensures Ready() && trace == Then(old(trace), Own(s))
    {
      AfterStep(db, s);
      Execute(s);
    }

    // ─── The deadline pass ─────────────────────────────────

    /** Its first statement. */
    method TakeDrafts(now: Time, busy: set<Id>) returns (drafts: set<Id>)
      requires Ready()
      modifies this`db, this`trace
      ensures Valid() && PassOf(db, copy) == DraftsLocked(now, drafts)
      ensures trace == Then(old(trace), Own(LockDrafts(copy, now, busy + HeldDraftIds(old(db)), drafts)))
    {
      var skip := busy + HeldDraftIds(db);
      ghost var some := BatchExists(DueDrafts(db, now) - skip, BATCH);
      drafts :| drafts <= DueDrafts(db, now) - skip && IsBatch(DueDrafts(db, now) - skip, BATCH, drafts);
      AfterStep(db, LockDrafts(copy, now, skip, drafts));
      Execute(LockDrafts(copy, now, skip, drafts));
    }

    /** Its second, which times out nothing yet for anyone else to see. */
    method TakeCalls(busy: set<Id>) returns (ids: set<Id>)
      requires Valid() && PassOf(db, copy).DraftsLocked?
      modifies this`db, this`trace
      ensures Valid() && trace == Then(old(trace), Own(LockCalls(copy, busy + HeldCallIds(old(db)), ids)))
      ensures ids == {} ==> PassOf(db, copy).Idle?
      ensures ids != {} ==> PassOf(db, copy).CallsLocked? && PassOf(db, copy).calls == ids
    {
      var skip := busy + HeldCallIds(db);
      var pass := PassOf(db, copy);
      var due := EligibleTimes(db, pass.now, pass.drafts, skip);
      ghost var some := OldestBatchExists(due, BATCH);
      ids :| ids <= due.Keys && IsOldestBatch(due, BATCH, ids);
      AfterStep(db, LockCalls(copy, skip, ids));
      Execute(LockCalls(copy, skip, ids));
    }

    /** An error rolls the transaction back: nothing changed, nobody woken. */
    method Abort()
      requires Valid() && !PassOf(db, copy).Idle?
      modifies this`db, this`trace
      ensures Ready() && trace == Then(old(trace), Own(AbortPass(copy)))
      ensures db.calls == old(db).calls && db.drafts == old(db).drafts && db.notices == old(db).notices
    {
      AbortChangesNothing(db, copy);
      Execute(AbortPass(copy));
    }

    /** The transaction's last statements and its commit. */
    method Commit() returns (notPickedUp: int, notAnswered: int)
      requires Valid() && PassOf(db, copy).CallsLocked?
      modifies this`db, this`trace
      ensures Ready() && trace == Then(old(trace), Own(CommitPass(copy)))
      ensures (notPickedUp, notAnswered) == LateCounts(trace, PassOf(old(db), copy).calls)
    {
      var ids := PassOf(db, copy).calls;
      var answered := Claimed(db.calls, ids);
      CardinalityOfRest(ids, answered);
      Land();
      notPickedUp, notAnswered := |ids - answered|, |answered|;
    }

    method Land()
      requires Valid() && PassOf(db, copy).CallsLocked?
      modifies this`db, this`trace
      ensures Ready() && trace == Then(old(trace), Own(CommitPass(copy)))
      ensures var ids := PassOf(old(db), copy).calls; Claimed(db.calls, ids) == Claimed(old(db).calls, ids)
    {
      CommitOutcome(db, copy);
      Execute(CommitPass(copy));
    }

    /** With the calls locked: others' steps, then commit and wake, or roll back. */
    method Finish(fault: Fault, others: seq<Step>) returns (r: Result<(int, int), SweepError>)
      requires Valid() && PassOf(db, copy).CallsLocked? && forall s :: s in others ==> !Passing(s, copy)
      modifies this`db, this`trace, this`wakes
      ensures Ready()
      ensures trace == Then(Then(old(trace), Others(others)), Own(if fault.Commits() then CommitPass(copy) else AbortPass(copy)))
      ensures r.Ok? == fault.NoFault? && (r.Ok? ==> r.value == LateCounts(trace, PassOf(old(db), copy).calls))
      ensures wakes == old(wakes) + Waking(db.calls, fault, PassOf(old(db), copy).calls, WakeHub.Notices)
    {
      r := Err(DatabaseError);
      Await(others);
      if fault.Commits() {
        var ids := PassOf(db, copy).calls;
        var notPickedUp, notAnswered := Commit();
        if fault.NoFault? {
          NotifyAll(db.calls, ids, WakeHub.Notices);
          r := Ok((notPickedUp, notAnswered));
        }
      } else {
        Abort();
      }
    }

    /** Its second statement, with the drafts locked, and the rest. */
    method TimeOutCalls(e: LateAround) returns (r: Result<(int, int), SweepError>, ghost late: set<Id>)
      requires Valid() && PassOf(db, copy).DraftsLocked? && OthersOnly(e, copy) && !e.fault.AtFirst? && !e.fault.AtSecond?
      modifies this`db, this`trace, this`wakes
      ensures Ready()
      ensures trace == if late == {} then HoldingCalls(old(trace), copy, e, late)
        else Then(Then(HoldingCalls(old(trace), copy, e, late), Others(e.afterCalls)),
                  Own(if e.fault.Commits() then CommitPass(copy) else AbortPass(copy)))
      ensures r.Err? == LateFails(e, late) && (r.Ok? ==> r.value == LateCounts(trace, late))
      ensures wakes == old(wakes) + Waking(db.calls, e.fault, late, WakeHub.Notices)
    {
      var ids := TakeCalls(e.busyCalls);
      late := ids;
      if ids == {} {
        NoneLate(trace, db.calls);
        r := Ok((0, 0));
      } else {
        r := Finish(e.fault, e.afterCalls);
      }
    }

    /**
     `deadlines`: lock drafts, lock calls, commit, wake. The trace says all it
     did to the tables, whatever failed.
     */
    method Deadlines(e: LateAround) returns (r: Result<(int, int), SweepError>, ghost drafts: set<Id>, ghost late: set<Id>)
      requires Ready() && OthersOnly(e, copy)
      modifies this`db, this`trace, this`wakes
      ensures Ready() && trace == LateTrace(old(trace), copy, e, drafts, late)
      ensures r.Err? == LateFails(e, late) && (r.Ok? ==> r.value == LateCounts(trace, late))
      ensures wakes == old(wakes) + Waking(db.calls, e.fault, late, WakeHub.Notices)
    {
      r, drafts, late := Err(DatabaseError), {}, {};
      if !e.fault.AtFirst? {
        drafts := TakeDrafts(e.now, e.busyDrafts);
        Await(e.afterDrafts);
        if e.fault.AtSecond? {
          Abort();
        } else {
          r, late := TimeOutCalls(e);
        }
      }
    }

    // ─── The lease pass ────────────────────────────────────

    /** The lease pass's statement and commit, heard of or not: which claims lapsed, and which of them time out. */
    method LapseClaims(e: LeaseAround) returns (lapsed: set<Id>, exhausted: set<Id>)
      requires Ready()
      modifies this`db, this`trace
      ensures Ready() && PicksLapsed(old(trace), e, lapsed) && exhausted == LastDeliveries(old(db).calls, lapsed)
      ensures trace == LeaseTrace(old(trace), e, lapsed)
    {
      var skip := e.busy + HeldCallIds(db);
      var due := LapsedTimes(db, e.now, skip);
      ghost var some := OldestBatchExists(due, BATCH);
      lapsed :| lapsed <= due.Keys && IsOldestBatch(due, BATCH, lapsed);
      exhausted := LastDeliveries(db.calls, lapsed);
      if e.fault.Commits() { Return(Step.Leases(e.now, skip, lapsed)); }
    }

    method Return(s: Step)
      requires Ready() && s.Leases? && Enabled(db, s)
      modifies this`db, this`trace
      ensures Ready() && trace == Then(old(trace), Own(s))
    {
      AfterStep(db, s);
      Execute(s);
    }

    method WakeLapsed(ids: set<Id>, gone: set<Id>)
      modifies this`wakes
      ensures wakes == old(wakes) + (multiset(WakesOf(db.calls, gone, WakeHub.Notices))
                                     + multiset(WakesOf(db.calls, ids - gone, WakeHub.Invocations)))
    {
      NotifyAll(db.calls, gone, WakeHub.Notices);
      NotifyAll(db.calls, ids - gone, WakeHub.Invocations);
    }

    /** Then the wakes: the called agents of those timed out read a notice, the rest are back in the feed. */
    method Leases(e: LeaseAround) returns (r: Result<(int, int), SweepError>, ghost lapsed: set<Id>)
      requires Ready()
      modifies this`db, this`trace, this`wakes
      ensures Ready() && trace == LeaseTrace(old(trace), e, lapsed)
      ensures PicksLapsed(old(trace), e, lapsed)
      ensures r.Err? == LeaseFails(e, lapsed) && (r.Ok? ==> r.value == LeaseCounts(old(trace), lapsed))
      ensures wakes == old(wakes) + LeaseWakes(old(trace), e, lapsed)
      ensures WokenBy(old(wakes), wakes, db.calls, if e.fault.NoFault? then lapsed else {})
    {
      r, lapsed := PendOrTimeOut(e);
      forall w: Wake { LeaseWakesSay(old(trace), copy, e, lapsed, w); }
    }

    method PendOrTimeOut(e: LeaseAround) returns (r: Result<(int, int), SweepError>, ghost lapsed: set<Id>)
      requires Ready()
      modifies this`db, this`trace, this`wakes
      ensures Ready() && trace == LeaseTrace(old(trace), e, lapsed)
      ensures PicksLapsed(old(trace), e, lapsed)
      ensures r.Err? == LeaseFails(e, lapsed) && (r.Ok? ==> r.value == LeaseCounts(old(trace), lapsed))
      ensures wakes == old(wakes) + LeaseWakes(old(trace), e, lapsed)
    {
      r, lapsed := Err(DatabaseError), {};
      if e.fault.AtFirst? { return; }
      var ids, gone := LapseClaims(e);
      lapsed := ids;
      if e.fault.NoFault? { WakeLapsed(ids, gone); }
      if e.fault.NoFault? || ids == {} { r := Ok((|ids - gone|, |gone|)); }
    }

    // ─── The sweep ─────────────────────────────────────────

    /**
     `sweep_once`: the three passes, `?` between them. A sweep that fails has
     done what came before. It wakes, once each, the called agents of the
     calls it heard it timed out or handed back, on the feed that has them;
     and its counts are of the rows it leaves.
     */
    method SweepOnce(e: Around) returns (r: Result<Swept, SweepError>, ghost p: Picks)
      requires Ready() && OthersOnlyAround(e, copy)
      modifies this`db, this`trace, this`wakes
      ensures Ready() && trace == SweepTrace(old(trace), copy, settings.InMillis(), e, p)
      ensures e.fill.fault.NoFault? && !LateFails(e.late, p.late) ==>
        PicksLapsed(LeaseBegins(old(trace), copy, settings.InMillis(), e, p), e.lease, p.lapsed)
      ensures r.Ok? <==> e.fill.fault.NoFault? && !LateFails(e.late, p.late) && !LeaseFails(e.lease, p.lapsed)
      ensures r.Ok? ==> Counts(r.value, db.calls, p)
      ensures WokenBy(old(wakes), wakes, db.calls, HeardOf(e, p))
    {
      r, p := Passes(e);
      forall w: Wake { SweepWakesSay(old(trace), copy, settings.InMillis(), e, p, w); }
      if r.Ok? { SweepReportSays(old(trace), copy, settings.InMillis(), e, p); }
    }

    method Passes(e: Around) returns (r: Result<Swept, SweepError>, ghost p: Picks)
      requires Ready() && OthersOnlyAround(e, copy)
      modifies this`db, this`trace, this`wakes
      ensures Ready() && trace == SweepTrace(old(trace), copy, settings.InMillis(), e, p)
      ensures r.Ok? <==> e.fill.fault.NoFault? && !LateFails(e.late, p.late) && !LeaseFails(e.lease, p.lapsed)
      ensures e.fill.fault.NoFault? && !LateFails(e.late, p.late) ==>
        PicksLapsed(LeaseBegins(old(trace), copy, settings.InMillis(), e, p), e.lease, p.lapsed)
      ensures r.Ok? ==> r.value == SweepReport(old(trace), copy, settings.InMillis(), e, p)
      ensures wakes == old(wakes) + SweepWakes(old(trace), copy, settings.InMillis(), e, p)
    {
      r, p := Err(DatabaseError), Picks({}, {}, {}, {});
      var filled, rows := Backfill(e.fill);
      p := p.(rows := rows);
      if filled.Err? { return; }
      Await(e.afterFill);
      var timedOut, drafts, late := Deadlines(e.late);
      p := p.(drafts := drafts, late := late);
      if timedOut.Err? { return; }
      Await(e.afterLate);
      var lapses, lapsed := PendOrTimeOut(e.lease);
      p := p.(lapsed := lapsed);
      if lapses.Ok? {
        r := Ok(Swept(filled.value, timedOut.value.0, timedOut.value.1, lapses.value.0, lapses.value.1));
      }
    }
  }

  /** Each of `ids` has its kind's full time to live from now as its deadline, and no other row changed. */
  predicate FullDeadlines(settings: InvocationSettings, calls: map<Id, Call>, after: map<Id, Call>, ids: set<Id>,
                          now: Time, hitl: set<Id>)
  {
    && after.Keys == calls.Keys
    && forall id :: id in calls ==>
         after[id] ==
         if id in ids then
           calls[id].(expiresAt := Some(now + 1000 * (if id in hitl then settings.hitlTtlSecs else settings.defaultTtlSecs)))
         else calls[id]
  }

  /** What a backfill leaves, by its copy's own settings. */
  lemma BackfillInFull(t: Trace, copy: Id, settings: InvocationSettings, e: FillAround, rows: set<Id>)
    requires Lawful(FillTrace(t, settings.InMillis(), e, rows), copy)
    ensures FullDeadlines(settings, After(t).calls, After(FillTrace(t, settings.InMillis(), e, rows)).calls,
                          if e.fault.Commits() then rows else {}, e.now, e.hitl)
  {
    FillLeaves(t, copy, settings.InMillis(), e, rows);
    if e.fault.Commits() {
      DeadlinedInFull(settings, After(t).calls, After(FillTrace(t, settings.InMillis(), e, rows)).calls, rows, e.now, e.hitl);
    }
  }

  lemma DeadlinedInFull(settings: InvocationSettings, calls: map<Id, Call>, after: map<Id, Call>, ids: set<Id>,
                        now: Time, hitl: set<Id>)
    requires Deadlined(calls, after, ids, now, settings.InMillis(), hitl)
    ensures FullDeadlines(settings, calls, after, ids, now, hitl)
  {}

  lemma NoneLate(t: Trace, calls: map<Id, Call>)
    ensures LateCounts(t, {}) == (0, 0) && WakesOf(calls, {}, WakeHub.Notices) == {}
  {
    assert Claimed(After(t).calls, {}) == {};
    assert Reachable(calls, {}) == {};
  }

  lemma AbortChangesNothing(w: World, copy: Id)
    requires !PassOf(w, copy).Idle?
    ensures var e := Next(w, AbortPass(copy));
      e.calls == w.calls && e.drafts == w.drafts && e.notices == w.notices && PassOf(e, copy).Idle?
  {
    AfterStep(w, AbortPass(copy));
    assert Writes(w, AbortPass(copy)) == map[];
    NoChangeIsIdentity(w.calls);
    QuietStep(w, AbortPass(copy));
    assert Told(w.calls, {}) == {};
  }

  /** The commit changes no call's claim, and the pass is over. */
  lemma CommitOutcome(w: World, copy: Id)
    requires Sound(w) && PassOf(w, copy).CallsLocked?
    ensures var e, ids := Next(w, CommitPass(copy)), w.passes[copy].calls;
      Claimed(e.calls, ids) == Claimed(w.calls, ids) && PassOf(e, copy).Idle?
  {
    CommitEffect(w, copy);
    ClaimsStay(w.calls, Next(w, CommitPass(copy)).calls, w.passes[copy].now, w.passes[copy].calls);
  }

  lemma ClaimsStay(calls: map<Id, Call>, after: map<Id, Call>, now: Time, ids: set<Id>)
    requires TimedOutExactly(calls, after, now, ids)
    ensures Claimed(after, ids) == Claimed(calls, ids)
  {}
}
