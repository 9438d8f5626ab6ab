/**
 Whole deadline passes: what one times out when others' steps fall between
 its locks and its commit, how much one gets through, and how many it takes
 to clear a backlog.
 */
module DeadlinePass {
  import opened Prelude
  import opened Batches
  import opened InvocationRows
  import opened InvocationRelay

  // ─── Interleaved with everyone else ──────────────────────

  /** What `copy` has locked in `w` is as it was, and still locked, in `v`. */
  predicate StillLocked(w: World, v: World, copy: Id) {
    && copy in w.passes && copy in v.passes && v.passes[copy] == w.passes[copy]
    && (forall id :: id in w.passes[copy].HeldCalls() ==>
          id in w.calls && id in v.calls && v.calls[id] == w.calls[id])
    && (forall id :: id in w.passes[copy].HeldDrafts() ==>
          id in w.drafts && id in v.drafts && v.drafts[id] == w.drafts[id])
  }

  lemma StepLeavesHeldCalls(w: World, s: Step, copy: Id)
    requires LocksOk(w) && copy in w.passes && !Passing(s, copy) && Enabled(w, s)
    ensures forall id :: id in w.passes[copy].HeldCalls() ==>
      id in w.calls && id in Next(w, s).calls && Next(w, s).calls[id] == w.calls[id]
  {
    assert PassOk(w, w.passes[copy]);
    StepWritesAllowed(w, s);
    forall id | id in w.passes[copy].HeldCalls()
      ensures id in Next(w, s).calls && Next(w, s).calls[id] == w.calls[id]
    {
      LockedCallUntouched(w, s, copy, id);
    }
  }

  lemma StepLeavesHeldDrafts(w: World, s: Step, copy: Id)
    requires LocksOk(w) && copy in w.passes && !Passing(s, copy) && Enabled(w, s)
    ensures forall id :: id in w.passes[copy].HeldDrafts() ==>
      id in w.drafts && id in Next(w, s).drafts && Next(w, s).drafts[id] == w.drafts[id]
  {
    assert PassOk(w, w.passes[copy]);
    StepWritesAllowed(w, s);
    forall id | id in w.passes[copy].HeldDrafts()
      ensures id in Next(w, s).drafts && Next(w, s).drafts[id] == w.drafts[id]
    {
      LockedDraftUntouched(w, s, copy, id);
    }
  }

  /** A pass that waits has what it locked. */
  lemma HeldIsThere(w: World, copy: Id)
    requires PassesOk(w) && copy in w.passes
    ensures StillLocked(w, w, copy)
  {
    assert PassOk(w, w.passes[copy]);
  }

  lemma EnabledStillLocked(w: World, s: Step, copy: Id)
    requires LocksOk(w) && copy in w.passes && !Passing(s, copy) && Enabled(w, s)
    ensures StillLocked(w, Next(w, s), copy)
  {
    StepWritesAllowed(w, s);
    OtherPassKept(w, s, copy);
    AfterStep(w, s);
    StepLeavesHeldCalls(w, s, copy);
    StepLeavesHeldDrafts(w, s, copy);
    AllHeldStill(w, Next(w, s), copy);
  }

  lemma AllHeldStill(w: World, v: World, copy: Id)
    requires copy in w.passes && copy in v.passes && v.passes[copy] == w.passes[copy]
    requires forall id :: id in w.passes[copy].HeldCalls() ==>
      id in w.calls && id in v.calls && v.calls[id] == w.calls[id]
    requires forall id :: id in w.passes[copy].HeldDrafts() ==>
      id in w.drafts && id in v.drafts && v.drafts[id] == w.drafts[id]
    ensures StillLocked(w, v, copy)
  {}

  lemma StepStillLocked(w: World, s: Step, copy: Id)
    requires LocksOk(w) && copy in w.passes && !Passing(s, copy)
    ensures StillLocked(w, Next(w, s), copy)
  {
    if Enabled(w, s) {
      EnabledStillLocked(w, s, copy);
    } else {
      Disabled(w, s);
      HeldIsThere(w, copy);
    }
  }

  lemma {:induction false} RunStillLocked(w: World, steps: seq<Step>, copy: Id)
    requires LocksOk(w) && copy in w.passes
    requires forall s :: s in steps ==> !Passing(s, copy)
    ensures StillLocked(w, Run(w, steps), copy)
    decreases |steps|
  {
    if steps == [] {
      assert PassOk(w, w.passes[copy]);
    } else {
      StepStillLocked(w, steps[0], copy);
      StepKeepsLocks(w, steps[0]);
      RunStillLocked(Next(w, steps[0]), steps[1..], copy);
    }
  }

  lemma NoChangeIsIdentity(calls: map<Id, Call>)
    ensures Rewritten(calls, map[]) == calls
  {}

  lemma NothingAddsNothing(t: Swept)
    ensures t.Plus(NOTHING) == t
  {}

  lemma LockingWritesNothing(w: World, s: Step)
    requires s.LockDrafts? || s.LockCalls?
    ensures CallsAfter(w, s) == w.calls && Told(w.calls, Expires(w, s)) == {}
  {
    assert Writes(w, s) == map[];
    NoChangeIsIdentity(w.calls);
    assert Expires(w, s) == {};
  }

  /** Locking changes no row. */
  lemma LockingOnlyLocks(w: World, s: Step)
    requires Enabled(w, s) && (s.LockDrafts? || s.LockCalls?)
    ensures Next(w, s) == w.(passes := PassesAfter(w, s))
  {
    LockingWritesNothing(w, s);
    NothingAddsNothing(w.tally);
  }

  predicate TimedOutExactly(calls: map<Id, Call>, after: map<Id, Call>, now: Time, ids: set<Id>) {
    after.Keys == calls.Keys &&
    forall id :: id in calls ==> after[id] == if id in ids then Changed(calls[id], TimeOut(now)) else calls[id]
  }

  predicate CancelledExactly(drafts: map<Id, Draft>, after: map<Id, Draft>, ids: set<Id>) {
    after.Keys == drafts.Keys &&
    forall id :: id in drafts ==> after[id] == if id in ids then drafts[id].(status := Cancelled) else drafts[id]
  }

  lemma CommitCalls(v: World, copy: Id)
    requires PassesOk(v) && PassOf(v, copy).CallsLocked?
    ensures var pass := v.passes[copy];
      pass.calls <= v.calls.Keys && TimedOutExactly(v.calls, CallsAfter(v, CommitPass(copy)), pass.now, pass.calls)
  {
    var pass := v.passes[copy];
    assert PassOk(v, pass);
    assert Writes(v, CommitPass(copy)) == map id | id in pass.calls :: TimeOut(pass.now);
  }

  lemma CommitDrafts(v: World, copy: Id)
    requires PassOf(v, copy).CallsLocked?
    ensures var pass := v.passes[copy];
      CancelledExactly(v.drafts, DraftsAfter(v, CommitPass(copy)), pass.drafts * pass.calls)
  {}

  /** What a commit does to the rows its pass holds, and to the others. */
  lemma CommitEffect(v: World, copy: Id)
    requires PassesOk(v) && PassOf(v, copy).CallsLocked?
    ensures var e, pass := Next(v, CommitPass(copy)), v.passes[copy];
      && pass.calls <= v.calls.Keys && TimedOutExactly(v.calls, e.calls, pass.now, pass.calls)
      && CancelledExactly(v.drafts, e.drafts, pass.drafts * pass.calls)
      && e.passes == v.passes[copy := Idle]
  {
    CommitCalls(v, copy);
    CommitDrafts(v, copy);
    AfterStep(v, CommitPass(copy));
  }

  /** What a locking step, then others' steps, then the commit leave of `id`. */
  predicate PassedOver(w: World, v: World, e: World, pass: Pass, ids: set<Id>, id: Id)
    requires pass.DraftsLocked?
  {
    && (id in ids ==> id in w.calls && id in e.calls && e.calls[id] == Changed(w.calls[id], TimeOut(pass.now)))
    && (id in ids && HasPendingDraft(w, id) ==> id in e.drafts && e.drafts[id].status.Cancelled?)
    && (id in v.drafts && !(id in ids && HasPendingDraft(w, id)) ==> id in e.drafts && e.drafts[id] == v.drafts[id])
    && (id in v.calls && id !in ids ==> id in e.calls && e.calls[id] == v.calls[id])
  }

  lemma LockedThenCommitted(w: World, v: World, copy: Id, pass: Pass, ids: set<Id>, id: Id)
    requires pass.DraftsLocked?
    requires LocksOk(v)
    requires var u := w.(passes := w.passes[copy := CallsLocked(pass.now, pass.drafts, ids)]); StillLocked(u, v, copy)
    requires id in ids ==> id in w.calls && (HasPendingDraft(w, id) <==> id in pass.drafts)
    ensures PassedOver(w, v, Next(v, CommitPass(copy)), pass, ids, id)
  {
    CommitEffect(v, copy);
  }

  /**
   From locking the calls to the commit, with any steps of others between:
   exactly the locked calls time out, each with every draft it had pending
   when it was locked, and nothing else is cancelled. A draft posted after
   the lock stays as it is.
   */
  lemma {:induction false} DraftsGoWithTheirCalls(w: World, lock: Step, between: seq<Step>, id: Id)
    requires LocksOk(w) && lock.LockCalls? && lock.ids != {} && Enabled(w, lock)
    requires forall s :: s in between ==> !Passing(s, lock.copy)
    ensures var v := Run(Next(w, lock), between);
      PassedOver(w, v, Next(v, CommitPass(lock.copy)), w.passes[lock.copy], lock.ids, id)
  {
    LockingOnlyLocks(w, lock);
    StepKeepsLocks(w, lock);
    RunKeepsLocks(Next(w, lock), between);
    RunStillLocked(Next(w, lock), between, lock.copy);
    if id in lock.ids {
      LockedDraftsOf(w, lock, id);
    }
    LockedThenCommitted(w, Run(Next(w, lock), between), lock.copy, w.passes[lock.copy], lock.ids, id);
  }

  lemma LockedDraftsOf(w: World, lock: Step, id: Id)
    requires LocksOk(w) && lock.LockCalls? && Enabled(w, lock) && id in lock.ids
    ensures id in w.calls
    ensures HasPendingDraft(w, id) <==> id in w.passes[lock.copy].drafts
  {
    var pass := w.passes[lock.copy];
    assert PassOk(w, pass);
    assert id in EligibleTimes(w, pass.now, pass.drafts, lock.busy);
  }

  // ─── Alone ───────────────────────────────────────────────

  /** No pass holds a row. */
  predicate Unlocked(w: World) {
    forall r :: r in w.passes ==> w.passes[r].Idle?
  }

  /** One copy's whole pass with nothing locked by others, as the database may pick. */
  ghost predicate IsLonePass(w: World, now: Time, drafts: set<Id>, ids: set<Id>) {
    && Unlocked(w)
    && IsBatch(DueDrafts(w, now), BATCH, drafts)
    && IsOldestBatch(EligibleTimes(w, now, drafts, {}), BATCH, ids)
  }

  ghost function LonePass(w: World, copy: Id, now: Time, drafts: set<Id>, ids: set<Id>): World {
    Next(Next(Next(w, LockDrafts(copy, now, {}, drafts)), LockCalls(copy, {}, ids)), CommitPass(copy))
  }

  lemma LonePassLocksDrafts(w: World, copy: Id, now: Time, drafts: set<Id>)
    requires Unlocked(w) && IsBatch(DueDrafts(w, now), BATCH, drafts)
    ensures Enabled(w, LockDrafts(copy, now, {}, drafts))
    ensures Next(w, LockDrafts(copy, now, {}, drafts)) == w.(passes := w.passes[copy := DraftsLocked(now, drafts)])
  {
    assert DueDrafts(w, now) - {} == DueDrafts(w, now);
    LockingOnlyLocks(w, LockDrafts(copy, now, {}, drafts));
  }

  lemma LonePassLocksCalls(u: World, copy: Id, ids: set<Id>)
    requires copy in u.passes && u.passes[copy].DraftsLocked?
    requires forall r :: r in u.passes && r != copy ==> u.passes[r].Idle?
    requires IsOldestBatch(EligibleTimes(u, u.passes[copy].now, u.passes[copy].drafts, {}), BATCH, ids)
    ensures Enabled(u, LockCalls(copy, {}, ids))
    ensures var pass := u.passes[copy];
      Next(u, LockCalls(copy, {}, ids))
      == u.(passes := u.passes[copy := if ids == {} then Idle else CallsLocked(pass.now, pass.drafts, ids)])
  {
    LockingOnlyLocks(u, LockCalls(copy, {}, ids));
  }

  lemma LonePassCommits(v: World, copy: Id)
    requires LocksOk(v) && copy in v.passes && (v.passes[copy].CallsLocked? || v.passes[copy].Idle?)
    requires forall r :: r in v.passes && r != copy ==> v.passes[r].Idle?
    ensures var e, pass := Next(v, CommitPass(copy)), v.passes[copy];
      && LocksOk(e) && Unlocked(e)
      && (pass.CallsLocked? ==> TimedOutExactly(v.calls, e.calls, pass.now, pass.calls))
      && (pass.Idle? ==> e == v)
  {
    if v.passes[copy].CallsLocked? {
      StepKeepsLocks(v, CommitPass(copy));
      CommitEffect(v, copy);
      UnlockedAfter(v, Next(v, CommitPass(copy)), copy);
    } else {
      IdleCantCommit(v, copy);
      Disabled(v, CommitPass(copy));
    }
  }

  lemma UnlockedAfter(v: World, e: World, copy: Id)
    requires e.passes == v.passes[copy := Idle]
    requires forall r :: r in v.passes && r != copy ==> v.passes[r].Idle?
    ensures Unlocked(e)
  {}

  lemma IdleCantCommit(v: World, copy: Id)
    requires PassOf(v, copy).Idle?
    ensures !Enabled(v, CommitPass(copy))
  {}

  /** The world a lone pass locks its calls in. */
  ghost function DraftsTaken(w: World, copy: Id, now: Time, drafts: set<Id>): World {
    w.(passes := w.passes[copy := DraftsLocked(now, drafts)])
  }

  /** And the one it commits from. */
  ghost function CallsTaken(u: World, copy: Id, now: Time, drafts: set<Id>, ids: set<Id>): World {
    u.(passes := u.passes[copy := if ids == {} then Idle else CallsLocked(now, drafts, ids)])
  }

  lemma LonePassTakesDrafts(w: World, copy: Id, now: Time, drafts: set<Id>)
    requires LocksOk(w) && Unlocked(w) && IsBatch(DueDrafts(w, now), BATCH, drafts)
    ensures Next(w, LockDrafts(copy, now, {}, drafts)) == DraftsTaken(w, copy, now, drafts)
    ensures LocksOk(DraftsTaken(w, copy, now, drafts))
  {
    LonePassLocksDrafts(w, copy, now, drafts);
    StepKeepsLocks(w, LockDrafts(copy, now, {}, drafts));
  }

  lemma LonePassTakesCalls(w: World, copy: Id, now: Time, drafts: set<Id>, ids: set<Id>)
    requires LocksOk(DraftsTaken(w, copy, now, drafts)) && IsLonePass(w, now, drafts, ids)
    ensures var u := DraftsTaken(w, copy, now, drafts);
      && Next(u, LockCalls(copy, {}, ids)) == CallsTaken(u, copy, now, drafts, ids)
      && LocksOk(CallsTaken(u, copy, now, drafts, ids))
  {
    var u := DraftsTaken(w, copy, now, drafts);
    assert EligibleTimes(u, now, drafts, {}) == EligibleTimes(w, now, drafts, {});
    LonePassLocksCalls(u, copy, ids);
    StepKeepsLocks(u, LockCalls(copy, {}, ids));
  }

  /** A lone pass times out the calls it picked and leaves nothing locked. */
  lemma LonePassEffect(w: World, copy: Id, now: Time, drafts: set<Id>, ids: set<Id>)
    requires LocksOk(w) && IsLonePass(w, now, drafts, ids)
    ensures var e := LonePass(w, copy, now, drafts, ids);
      LocksOk(e) && Unlocked(e) && TimedOutExactly(w.calls, e.calls, now, ids)
  {
    LonePassTakesDrafts(w, copy, now, drafts);
    LonePassTakesCalls(w, copy, now, drafts, ids);
    LonePassCommits(CallsTaken(DraftsTaken(w, copy, now, drafts), copy, now, drafts, ids), copy);
  }

  /** The two LIMITs and the exclusion of calls with unlocked drafts. */
  lemma EligibleCount(w: World, now: Time, drafts: set<Id>)
    requires IsBatch(DueDrafts(w, now), BATCH, drafts)
    ensures EligibleTimes(w, now, drafts, {}).Keys == DueCalls(w, now) - (DueDrafts(w, now) - drafts)
    ensures Min(BATCH, |EligibleTimes(w, now, drafts, {})|) == Min(BATCH, |DueCalls(w, now)|)
  {
    var n, d := DueCalls(w, now), DueDrafts(w, now);
    assert EligibleTimes(w, now, drafts, {}).Keys == n - (d - drafts);
    assert d <= n;
    CardinalityOfRest(d, drafts);
    CardinalityOfRest(n, d - drafts);
    CardinalityOfSubset(d, n);
    assert |EligibleTimes(w, now, drafts, {}).Keys| == |EligibleTimes(w, now, drafts, {})|;
  }

  lemma PickedCount(w: World, now: Time, drafts: set<Id>, ids: set<Id>)
    requires IsLonePass(w, now, drafts, ids)
    ensures |ids| == Min(BATCH, |DueCalls(w, now)|) && ids <= DueCalls(w, now)
  {
    EligibleCount(w, now, drafts);
  }

  lemma RestStayDue(w: World, e: World, now: Time, ids: set<Id>)
    requires ids <= DueCalls(w, now) && TimedOutExactly(w.calls, e.calls, now, ids)
    ensures DueCalls(e, now) == DueCalls(w, now) - ids
  {}

  /**
   With nothing locked by others, a pass times out exactly BATCH calls, or
   every due call when there are fewer, and leaves the rest due.
   */
  lemma LonePassTakesAFullBatch(w: World, copy: Id, now: Time, drafts: set<Id>, ids: set<Id>)
    requires LocksOk(w) && IsLonePass(w, now, drafts, ids)
    ensures |ids| == Min(BATCH, |DueCalls(w, now)|) && ids <= DueCalls(w, now)
    ensures DueCalls(LonePass(w, copy, now, drafts, ids), now) == DueCalls(w, now) - ids
  {
    PickedCount(w, now, drafts, ids);
    LonePassEffect(w, copy, now, drafts, ids);
    RestStayDue(w, LonePass(w, copy, now, drafts, ids), now, ids);
  }

  /**
   With at most a batch of due drafts, the pass is oldest first over every
   due call. With more it need not be: see `OverdueCallCanBePassedOver`.
   */
  lemma FewDraftsOldestFirst(w: World, now: Time, drafts: set<Id>, ids: set<Id>)
    requires IsLonePass(w, now, drafts, ids) && |DueDrafts(w, now)| <= BATCH
    ensures forall p, q :: p in ids && q in DueCalls(w, now) - ids ==>
      w.calls[p].expiresAt.value <= w.calls[q].expiresAt.value
  {
    CardinalityOfSubset(drafts, DueDrafts(w, now));
    var times := EligibleTimes(w, now, drafts, {});
    forall p, q | p in ids && q in DueCalls(w, now) - ids
      ensures w.calls[p].expiresAt.value <= w.calls[q].expiresAt.value
    {
      assert q in times.Keys - ids;
      assert times[p] <= times[q];
    }
  }

  /** The ids 1..n. */
  function UpTo(n: nat): (ids: set<Id>)
    ensures |ids| == n && forall id :: id in ids ==> 1 <= id <= n
  {
    if n == 0 then {} else UpTo(n - 1) + {n}
  }

  /** As inserted: waiting in the called agent's feed. */
  function WaitingCall(expiresAt: Time): Call {
    Call(Some(1), Some(2), None, 0, Some(expiresAt), Pending, None, None, 0, None, None, 0, 0, false)
  }

  /** As claimed, without a lease. */
  function DraftedCall(expiresAt: Time): Call {
    Call(Some(1), Some(2), None, 0, Some(expiresAt), InProgress, Some(0), None, 1, None, None, 0, 0, false)
  }

  /** Call 0 is due before every other. */
  function DueAt(id: Id): Time {
    if id == 0 then 0 else 1
  }

  const DRAFT := Draft(DraftPending, Reply(true, None, None), 9)

  /** `w`, with the calls of `ids` claimed and drafted, and no other. */
  function Drafted(w: World, ids: set<Id>): World {
    w.(calls := map id | id in ids :: DraftedCall(DueAt(id)), drafts := map id | id in ids :: DRAFT)
  }

  /** A call comes in, is claimed, and a reply to it is drafted. */
  function Arrival(id: Id): seq<Step> {
    [Insert(id, WaitingCall(DueAt(id))), Pull(id, 0, None), PostDraft(id, DRAFT.reply, DRAFT.expiresAt)]
  }

  lemma {:induction false} RunAppend(w: World, a: seq<Step>, b: seq<Step>)
    ensures Run(w, a + b) == Run(Run(w, a), b)
    decreases |a|
  {
    if a == [] {
      assert a + b == b;
    } else {
      assert (a + b)[0] == a[0] && (a + b)[1..] == a[1..] + b;
      RunAppend(Next(w, a[0]), a[1..], b);
    }
  }

  lemma RunThree(w: World, a: Step, b: Step, c: Step)
    ensures Run(w, [a, b, c]) == Next(Next(Next(w, a), b), c)
  {
    assert [a, b, c][1..] == [b, c] && [b, c][1..] == [c] && [c][1..] == [];
    assert Run(w, [a, b, c]) == Run(Next(w, a), [b, c]) == Run(Next(Next(w, a), b), [c]);
    assert Run(Next(Next(Next(w, a), b), c), []) == Next(Next(Next(w, a), b), c);
  }

  /** A step that is no sweep's changes rows and drafts only. */
  lemma PlainStep(w: World, s: Step)
    requires Enabled(w, s) && (s.Insert? || s.Pull? || s.PostDraft?)
    ensures Next(w, s) == w.(calls := CallsAfter(w, s), drafts := DraftsAfter(w, s))
  {
    AfterStep(w, s);
    assert Expires(w, s) == {} && Told(w.calls, {}) == {};
  }

  lemma Inserts(w: World, id: Id, c: Call)
    requires id !in w.calls && id !in w.drafts && Inserted(c)
    ensures Next(w, Insert(id, c)) == w.(calls := w.calls[id := c])
  {
    PlainStep(w, Insert(id, c));
  }

  lemma Pulls(w: World, id: Id)
    requires w.passes == map[] && id in w.calls && w.calls[id].status.Pending?
    ensures Next(w, Pull(id, 0, None)) == w.(calls := w.calls[id := Changed(w.calls[id], Claim(0, None))])
  {
    PlainStep(w, Pull(id, 0, None));
    assert Rewritten(w.calls, map[id := Claim(0, None)]) == w.calls[id := Changed(w.calls[id], Claim(0, None))];
  }

  lemma Drafts(w: World, id: Id)
    requires id in w.calls && id !in w.drafts
    ensures Next(w, PostDraft(id, DRAFT.reply, DRAFT.expiresAt)) == w.(drafts := w.drafts[id := DRAFT])
  {
    PlainStep(w, PostDraft(id, DRAFT.reply, DRAFT.expiresAt));
    NoChangeIsIdentity(w.calls);
  }

  lemma OneMoreDrafted(w: World, ids: set<Id>, id: Id)
    ensures var d := Drafted(w, ids);
      d.(calls := d.calls[id := DraftedCall(DueAt(id))], drafts := d.drafts[id := DRAFT]) == Drafted(w, ids + {id})
  {}

  lemma Arrives(w: World, id: Id)
    requires id !in w.calls && id !in w.drafts && w.passes == map[]
    ensures Run(w, Arrival(id)) == w.(calls := w.calls[id := DraftedCall(DueAt(id))], drafts := w.drafts[id := DRAFT])
  {
    var c := WaitingCall(DueAt(id));
    RunThree(w, Insert(id, c), Pull(id, 0, None), PostDraft(id, DRAFT.reply, DRAFT.expiresAt));
    Inserts(w, id, c);
    var v := w.(calls := w.calls[id := c]);
    Pulls(v, id);
    ClaimedNow(id);
    var u := v.(calls := v.calls[id := DraftedCall(DueAt(id))]);
    Drafts(u, id);
  }

  lemma ClaimedNow(id: Id)
    ensures Changed(WaitingCall(DueAt(id)), Claim(0, None)) == DraftedCall(DueAt(id))
  {}

  /** No call yet, and no draft. */
  predicate Empty(w: World) {
    Initial(w) && w.calls == map[] && w.drafts == map[]
  }

  lemma OneMoreArrives(w: World, ids: set<Id>, id: Id)
    requires w.passes == map[] && id !in ids
    ensures Run(Drafted(w, ids), Arrival(id)) == Drafted(w, ids + {id})
  {
    Arrives(Drafted(w, ids), id);
    OneMoreDrafted(w, ids, id);
  }

  lemma ArrivesAfter(w: World, a: seq<Step>, ids: set<Id>, id: Id)
    requires w.passes == map[] && id !in ids && Run(w, a) == Drafted(w, ids)
    ensures Run(w, a + Arrival(id)) == Drafted(w, ids + {id})
  {
    RunAppend(w, a, Arrival(id));
    OneMoreArrives(w, ids, id);
  }

  lemma FirstArrives(w: World) returns (steps: seq<Step>)
    requires Empty(w)
    ensures Run(w, steps) == Drafted(w, UpTo(0) + {0})
  {
    steps := Arrival(0);
    assert Drafted(w, {}) == w && {} + {0} == UpTo(0) + {0};
    OneMoreArrives(w, {}, 0);
  }

  /** Call 0 and the calls 1..n, after it, from empty tables. */
  lemma {:induction false} BacklogArrives(w: World, n: nat) returns (steps: seq<Step>)
    requires Empty(w)
    ensures Run(w, steps) == Drafted(w, UpTo(n) + {0})
  {
    if n == 0 {
      steps := FirstArrives(w);
    } else {
      var before := BacklogArrives(w, n - 1);
      steps := before + Arrival(n);
      ArrivesAfter(w, before, UpTo(n - 1) + {0}, n);
      OneMoreUpTo(n);
    }
  }

  lemma OneMoreUpTo(n: nat)
    requires n > 0
    ensures UpTo(n - 1) + {0} + {n} == UpTo(n) + {0}
  {}

  lemma BacklogPicks(w: World, late: set<Id>)
    requires Empty(w) && |late| == BATCH && 0 !in late
    ensures IsLonePass(Drafted(w, late + {0}), 2, late, late)
  {
    var v := Drafted(w, late + {0});
    assert DueDrafts(v, 2) == late + {0};
    assert |late + {0}| == BATCH + 1;
    assert EligibleTimes(v, 2, late, {}).Keys == late;
  }

  /**
   501 due calls, all with drafts. The draft query has no order, so it may
   lock the 500 drafts other than the oldest call's, and the pass then times
   those calls out and leaves the oldest.
   */
  lemma {:induction false} OverdueCallCanBePassedOver(start: World)
    returns (steps: seq<Step>, drafts: set<Id>, ids: set<Id>)
    requires Empty(start)
    ensures var w := Run(start, steps);
      && IsLonePass(w, 2, drafts, ids) && 0 in DueCalls(w, 2) - ids && |ids| == BATCH
      && forall id :: id in ids ==> id in w.calls && w.calls[0].expiresAt.value < w.calls[id].expiresAt.value
  {
    steps, drafts, ids := LateBacklog(start, BATCH);
    BacklogPicks(start, ids);
  }

  lemma LateBacklog(start: World, n: nat) returns (steps: seq<Step>, drafts: set<Id>, ids: set<Id>)
    requires Empty(start)
    ensures Run(start, steps) == Drafted(start, ids + {0}) && drafts == ids && |ids| == n && 0 !in ids
  {
    drafts, ids := UpTo(n), UpTo(n);
    steps := BacklogArrives(start, n);
  }

  /** Some pass is always possible, so a backlog never blocks. */
  lemma LonePassExists(w: World, now: Time) returns (drafts: set<Id>, ids: set<Id>)
    requires Unlocked(w)
    ensures IsLonePass(w, now, drafts, ids)
  {
    drafts := BatchExists(DueDrafts(w, now), BATCH);
    ids := OldestBatchExists(EligibleTimes(w, now, drafts, {}), BATCH);
  }

  /** `q` is due, and overdue longer than every other due call. */
  predicate LongestOverdue(w: World, now: Time, q: Id) {
    q in DueCalls(w, now) &&
    forall p :: p in DueCalls(w, now) - {q} ==> w.calls[q].expiresAt.value < w.calls[p].expiresAt.value
  }

  lemma SmallestIsTaken(times: map<Id, Time>, ids: set<Id>, q: Id)
    requires IsOldestBatch(times, BATCH, ids) && q in times
    requires forall p :: p in times && p != q ==> times[q] < times[p]
    ensures q in ids
  {
    assert |times.Keys| > 0;
    var p :| p in ids;
    assert p != q ==> !(times[p] <= times[q]);
    assert (q in times.Keys - ids) == (q !in ids);
  }

  /** A pass that holds its draft, or finds none pending, takes the longest overdue call. */
  lemma EligibleIsTaken(w: World, now: Time, drafts: set<Id>, ids: set<Id>, q: Id)
    requires IsLonePass(w, now, drafts, ids) && LongestOverdue(w, now, q)
    requires HasPendingDraft(w, q) ==> q in drafts
    ensures q in ids
  {
    var times := EligibleTimes(w, now, drafts, {});
    forall p | p in times && p != q ensures times[q] < times[p] {
      assert p in DueCalls(w, now) - {q};
    }
    SmallestIsTaken(times, ids, q);
  }

  /** With more drafts due than it locks, a pass may lock any batch that leaves `q`'s out. */
  lemma DraftLeftOut(w: World, now: Time, q: Id) returns (drafts: set<Id>, ids: set<Id>)
    requires Unlocked(w) && q in DueDrafts(w, now) && |DueDrafts(w, now)| > BATCH
    ensures IsLonePass(w, now, drafts, ids) && q !in ids
  {
    CardinalityOfRest(DueDrafts(w, now), {q});
    drafts := SubsetOfSize(DueDrafts(w, now) - {q}, BATCH);
    ids := OldestBatchExists(EligibleTimes(w, now, drafts, {}), BATCH);
    assert q !in EligibleTimes(w, now, drafts, {});
  }

  /**
   The longest overdue call is sure to be timed out by a lone pass, whatever
   the database picks, exactly when it has no pending draft or no more than a
   batch of drafts is due.
   */
  lemma {:induction false} OldestIsSureIff(w: World, now: Time, q: Id)
    requires Unlocked(w) && LongestOverdue(w, now, q)
    ensures (forall drafts, ids :: IsLonePass(w, now, drafts, ids) ==> q in ids)
            <==> !HasPendingDraft(w, q) || |DueDrafts(w, now)| <= BATCH
  {
    if !HasPendingDraft(w, q) || |DueDrafts(w, now)| <= BATCH {
      forall drafts, ids | IsLonePass(w, now, drafts, ids) ensures q in ids {
        if HasPendingDraft(w, q) {
          CardinalityOfSubset(drafts, DueDrafts(w, now));
        }
        EligibleIsTaken(w, now, drafts, ids, q);
      }
    } else {
      var drafts, ids := DraftLeftOut(w, now, q);
    }
  }

  // ─── Clearing a backlog ──────────────────────────────────

  /** `e` is `w` after one lone pass, whatever the database picked. */
  ghost predicate PassTo(w: World, now: Time, e: World) {
    exists copy, drafts, ids :: IsLonePass(w, now, drafts, ids) && e == LonePass(w, copy, now, drafts, ids)
  }

  lemma LonePassDrains(w: World, copy: Id, now: Time, drafts: set<Id>, ids: set<Id>)
    requires LocksOk(w) && IsLonePass(w, now, drafts, ids)
    ensures var e := LonePass(w, copy, now, drafts, ids);
      LocksOk(e) && |DueCalls(e, now)| == Max(0, |DueCalls(w, now)| - BATCH)
  {
    LonePassEffect(w, copy, now, drafts, ids);
    LonePassTakesAFullBatch(w, copy, now, drafts, ids);
    CardinalityOfRest(DueCalls(w, now), ids);
  }

  lemma OnePassDrains(w: World, now: Time, e: World)
    requires LocksOk(w) && PassTo(w, now, e)
    ensures LocksOk(e)
    ensures |DueCalls(e, now)| == Max(0, |DueCalls(w, now)| - BATCH)
  {
    var copy, drafts, ids :| IsLonePass(w, now, drafts, ids) && e == LonePass(w, copy, now, drafts, ids);
    LonePassDrains(w, copy, now, drafts, ids);
  }

  /** Each pass takes a batch off the due calls. */
  lemma {:induction false} PassesDrain(worlds: seq<World>, now: Time, k: nat)
    requires k < |worlds| && LocksOk(worlds[0])
    requires forall i :: 0 < i < |worlds| ==> PassTo(worlds[i - 1], now, worlds[i])
    ensures LocksOk(worlds[k])
    ensures |DueCalls(worlds[k], now)| == Max(0, |DueCalls(worlds[0], now)| - BATCH * k)
  {
    if k > 0 {
      PassesDrain(worlds, now, k - 1);
      OnePassDrains(worlds[k - 1], now, worlds[k]);
    }
  }

  /** Rounded up. */
  function PassesFor(n: nat): nat {
    (n + BATCH - 1) / BATCH
  }

  /** n due calls take exactly ⌈n/500⌉ passes: no fewer clear them, and that many do. */
  lemma {:induction false} BacklogClears(worlds: seq<World>, now: Time, k: nat)
    requires k < |worlds| && LocksOk(worlds[0])
    requires forall i :: 0 < i < |worlds| ==> PassTo(worlds[i - 1], now, worlds[i])
    ensures DueCalls(worlds[k], now) == {} <==> k >= PassesFor(|DueCalls(worlds[0], now)|)
  {
    PassesDrain(worlds, now, k);
    var n := |DueCalls(worlds[0], now)|;
    assert BATCH * k >= n <==> k >= PassesFor(n);
  }
}
