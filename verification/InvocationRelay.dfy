/**
 The shared tables, and every committed step that any relay copy, puller or
 approver takes on them. A run is any sequence of such steps, so it covers
 every interleaving.

 A deadline pass is three steps of one copy's transaction (lock drafts, lock
 calls, commit), with everyone else's steps free to fall in between; the
 rows it has locked wait. Every other transaction is one step.
 */
module InvocationRelay {
  import opened Prelude
  import opened Batches
  import opened InvocationRows

  const BATCH: nat := 500
  const BACKFILL_BATCH: nat := 1000

  datatype DraftStatus = DraftPending | Approved | Denied | Expired | Cancelled

  /**
   A reply draft. There is at most one per call (a unique index on
   invocation and kind), so drafts are keyed by their call.
   */
  datatype Draft = Draft(status: DraftStatus, reply: Reply, expiresAt: Time)

  /** An `invocation_expired` notice to the called agent. */
  datatype Notice = Notice(agent: Id, invocation: Id)

  /** Where a copy's deadline pass is, with the rows its transaction locked. */
  datatype Pass =
    | Idle
    | DraftsLocked(now: Time, drafts: set<Id>)
    | CallsLocked(now: Time, drafts: set<Id>, calls: set<Id>)
  {
    function HeldDrafts(): set<Id> {
      if Idle? then {} else drafts
    }

    function HeldCalls(): set<Id> {
      if CallsLocked? then calls else {}
    }
  }

  /** What sweeps report, as `Swept`; a world's adds up every copy's. */
  datatype Swept = Swept(backfilled: int, notPickedUp: int, notAnswered: int, pended: int, leaseExhausted: int) {
    function Plus(s: Swept): Swept {
      Swept(backfilled + s.backfilled, notPickedUp + s.notPickedUp, notAnswered + s.notAnswered,
            pended + s.pended, leaseExhausted + s.leaseExhausted)
    }

    function TimedOut(): int {
      notPickedUp + notAnswered + leaseExhausted
    }
  }

  const NOTHING := Swept(0, 0, 0, 0, 0)

  datatype World = World(
    calls: map<Id, Call>,
    drafts: map<Id, Draft>,
    notices: multiset<Notice>,   // the table, which is pruned
    told: multiset<Notice>,      // every notice ever inserted
    passes: map<Id, Pass>,
    tally: Swept)

  /** `defaultTtl` and `hitlTtl` in milliseconds. */
  datatype Settings = Settings(defaultTtl: nat, hitlTtl: nat)

  datatype Step =
    | Insert(id: Id, call: Call)
    | Pull(id: Id, now: Time, lease: Option<nat>)
    | HandBack(id: Id)
    | PostResult(id: Id, reply: Reply, now: Time)
    | PostDraft(id: Id, reply: Reply, expiresAt: Time)
    | ConfirmDraft(id: Id, shown: Reply, now: Time)
    | DenyDraft(id: Id, why: string, now: Time)
    | ExpireDraft(id: Id, now: Time)
    | OwnerAnswers(id: Id, reply: Reply, now: Time)
    | ApproveRequest(id: Id, now: Time)
    | RejectRequest(id: Id, why: string)
    | Revoke(ids: set<Id>)
    | CloseConversation(ids: set<Id>, now: Time)
    | PurgeConversation(ids: set<Id>)
    | DeleteCapability(drafts: set<Id>, requests: set<Id>, why: string)
    | PruneNotices(gone: multiset<Notice>)
    // The sweep. `busy` is what other transactions hold, which SKIP LOCKED
    // passes over; `ids` what the database picked from the rest.
    | Backfill(now: Time, settings: Settings, hitl: set<Id>, busy: set<Id>, ids: set<Id>)
    | LockDrafts(copy: Id, now: Time, busy: set<Id>, ids: set<Id>)
    | LockCalls(copy: Id, busy: set<Id>, ids: set<Id>)
    | CommitPass(copy: Id)
    | AbortPass(copy: Id)
    | Leases(now: Time, busy: set<Id>, ids: set<Id>)

  // ─── Queries ─────────────────────────────────────────────

  function PassOf(w: World, copy: Id): Pass {
    if copy in w.passes then w.passes[copy] else Idle
  }

  predicate CallHeld(w: World, id: Id) {
    exists r :: r in w.passes && id in w.passes[r].HeldCalls()
  }

  predicate DraftHeld(w: World, id: Id) {
    exists r :: r in w.passes && id in w.passes[r].HeldDrafts()
  }

  /** A row another session's UPDATE can lock now. */
  predicate Free(w: World, id: Id) {
    id in w.calls && !CallHeld(w, id)
  }

  predicate HasPendingDraft(w: World, id: Id) {
    id in w.drafts && w.drafts[id].status.DraftPending?
  }

  function DueCalls(w: World, now: Time): set<Id> {
    set id | id in w.calls && Due(w.calls[id], now)
  }

  function DueDrafts(w: World, now: Time): set<Id> {
    set id | id in w.calls && Due(w.calls[id], now) && HasPendingDraft(w, id)
  }

  /** Due calls whose draft, if one is pending, this pass has locked. */
  predicate Eligible(w: World, now: Time, drafts: set<Id>, id: Id) {
    id in w.calls && Due(w.calls[id], now) && (HasPendingDraft(w, id) ==> id in drafts)
  }

  function EligibleTimes(w: World, now: Time, drafts: set<Id>, busy: set<Id>): map<Id, Time> {
    map id | id in w.calls && Eligible(w, now, drafts, id) && id !in busy :: w.calls[id].expiresAt.value
  }

  function NeedsDeadline(w: World): set<Id> {
    set id | id in w.calls && w.calls[id].status.Open() && w.calls[id].expiresAt.None?
  }

  function LapsedTimes(w: World, now: Time, busy: set<Id>): map<Id, Time> {
    map id | id in w.calls && LeaseLapsed(w.calls[id], now) && id !in busy :: w.calls[id].leaseUntil.value
  }

  // ─── Steps ───────────────────────────────────────────────

  predicate Enabled(w: World, s: Step) {
    match s
    case Insert(id, c) => id !in w.calls && id !in w.drafts && Inserted(c)
    case Pull(id, now, lease) => Free(w, id) && Applies(w.calls[id], Claim(now, lease))
    case HandBack(id) => Free(w, id) && Applies(w.calls[id], Release) && !HasPendingDraft(w, id)
    case PostResult(id, r, now) => Free(w, id) && Applies(w.calls[id], Finish(r, now))
    case PostDraft(id, _, _) => id in w.calls && (id in w.drafts ==> DraftWritable(w, id))
    case ConfirmDraft(id, shown, now) =>
      && Free(w, id) && DraftWritable(w, id) && now < w.drafts[id].expiresAt
      && shown == w.drafts[id].reply && Applies(w.calls[id], Confirm(shown, now))
    case DenyDraft(id, _, now) => Free(w, id) && DraftWritable(w, id) && now < w.drafts[id].expiresAt
    case ExpireDraft(id, now) => Free(w, id) && DraftWritable(w, id) && w.drafts[id].expiresAt <= now
    case OwnerAnswers(id, r, now) =>
      && Free(w, id) && (id in w.drafts ==> DraftWritable(w, id))
      && Applies(w.calls[id], AnswerAsOwner(r, now))
    case ApproveRequest(id, now) => Free(w, id) && Applies(w.calls[id], Change.Approve(now))
    case RejectRequest(id, why) => Free(w, id) && Applies(w.calls[id], Reject(why))
    case Revoke(ids) =>
      forall id :: id in ids ==> Free(w, id) && !DraftHeld(w, id) && Applies(w.calls[id], RevokeGrant)
    case CloseConversation(ids, now) =>
      forall id :: id in ids ==> Free(w, id) && !DraftHeld(w, id) && Applies(w.calls[id], Close(now))
    case PurgeConversation(ids) =>
      forall id :: id in ids ==> Free(w, id) && Applies(w.calls[id], Purge)
    case DeleteCapability(drafts, requests, why) =>
      && (forall id :: id in drafts ==> DraftWritable(w, id))
      && (forall id :: id in requests ==> Free(w, id) && Applies(w.calls[id], Reject(why)))
    case PruneNotices(gone) => gone <= w.notices
    case Backfill(now, settings, hitl, busy, ids) =>
      && (forall id :: id in w.calls && CallHeld(w, id) ==> id in busy)
      && IsBatch(NeedsDeadline(w) - busy, BACKFILL_BATCH, ids)
    case LockDrafts(copy, now, busy, ids) =>
      && PassOf(w, copy).Idle?
      && (forall id :: id in w.drafts && DraftHeld(w, id) ==> id in busy)
      && IsBatch(DueDrafts(w, now) - busy, BATCH, ids)
    case LockCalls(copy, busy, ids) =>
      && PassOf(w, copy).DraftsLocked?
      && (forall id :: id in w.calls && CallHeld(w, id) ==> id in busy)
      && IsOldestBatch(EligibleTimes(w, PassOf(w, copy).now, PassOf(w, copy).drafts, busy), BATCH, ids)
    case CommitPass(copy) => PassOf(w, copy).CallsLocked?
    case AbortPass(copy) => !PassOf(w, copy).Idle?
    case Leases(now, busy, ids) =>
      && (forall id :: id in w.calls && CallHeld(w, id) ==> id in busy)
      && IsOldestBatch(LapsedTimes(w, now, busy), BATCH, ids)
  }

  /** A pending draft no pass has locked. */
  predicate DraftWritable(w: World, id: Id) {
    HasPendingDraft(w, id) && !DraftHeld(w, id)
  }

  /** The rows a step updates, and how. */
  function Writes(w: World, s: Step): map<Id, Change> {
    match s
    case Pull(id, now, lease) => map[id := Claim(now, lease)]
    case HandBack(id) => map[id := Release]
    case PostResult(id, r, now) => map[id := Finish(r, now)]
    case ConfirmDraft(id, shown, now) => map[id := Confirm(shown, now)]
    case DenyDraft(id, why, now) => IfInProgress(w, id, FailDraft(why, now))
    case ExpireDraft(id, now) => IfInProgress(w, id, FailDraft("Reply not confirmed in time", now))
    case OwnerAnswers(id, r, now) => map[id := AnswerAsOwner(r, now)]
    case ApproveRequest(id, now) => map[id := Change.Approve(now)]
    case RejectRequest(id, why) => map[id := Reject(why)]
    case Revoke(ids) => map id | id in ids :: RevokeGrant
    case CloseConversation(ids, now) => map id | id in ids :: Close(now)
    case PurgeConversation(ids) => map id | id in ids :: Purge
    case DeleteCapability(_, requests, why) => map id | id in requests :: Reject(why)
    case Backfill(now, settings, hitl, _, ids) =>
      map id | id in ids :: SetDeadline(now + if id in hitl then settings.hitlTtl else settings.defaultTtl)
    case CommitPass(copy) =>
      var pass := PassOf(w, copy);
      if pass.CallsLocked? then map id | id in pass.calls :: TimeOut(pass.now) else map[]
    case Leases(now, _, ids) => map id | id in ids :: Lapse(now)
    case _ => map[]
  }

  function IfInProgress(w: World, id: Id, k: Change): map<Id, Change> {
    if id in w.calls && w.calls[id].status.InProgress? then map[id := k] else map[]
  }

  function Rewritten(calls: map<Id, Call>, changes: map<Id, Change>): map<Id, Call> {
    map id | id in calls :: if id in changes then Changed(calls[id], changes[id]) else calls[id]
  }

  function CallsAfter(w: World, s: Step): map<Id, Call> {
    if s.Insert? then w.calls[s.id := s.call] else Rewritten(w.calls, Writes(w, s))
  }

  function DraftsAfter(w: World, s: Step): map<Id, Draft> {
    match s
    case PostDraft(id, r, at) => w.drafts[id := Draft(DraftPending, r, at)]
    case ConfirmDraft(id, _, _) => Decided(w.drafts, {id}, Approved)
    case DenyDraft(id, _, _) => Decided(w.drafts, {id}, Denied)
    case ExpireDraft(id, _) => Decided(w.drafts, {id}, Expired)
    case OwnerAnswers(id, r, now) =>
      w.drafts[id := Draft(Approved, r, if id in w.drafts then w.drafts[id].expiresAt else now)]
    case Revoke(ids) => Decided(w.drafts, ids, Cancelled)
    case CloseConversation(ids, _) => Decided(w.drafts, ids, Cancelled)
    case DeleteCapability(ids, _, _) => Decided(w.drafts, ids, Cancelled)
    case CommitPass(copy) =>
      // WHERE id = ANY(locked drafts) AND invocation_id = ANY(timed out).
      var pass := PassOf(w, copy);
      map id | id in w.drafts ::
        if id in pass.HeldDrafts() && id in pass.HeldCalls() then w.drafts[id].(status := Cancelled) else w.drafts[id]
    case _ => w.drafts
  }

  /** The pending drafts among `ids` become `status`. */
  function Decided(drafts: map<Id, Draft>, ids: set<Id>, status: DraftStatus): map<Id, Draft> {
    map id | id in drafts ::
      if id in ids && drafts[id].status.DraftPending? then drafts[id].(status := status) else drafts[id]
  }

  /** The calls a step's sweep times out. */
  function Expires(w: World, s: Step): set<Id> {
    set id | id in Writes(w, s) && id in w.calls && TimesOut(w.calls[id], Writes(w, s)[id])
  }

  /** `tell_expired`: one notice for each call that has a called agent. */
  function Told(calls: map<Id, Call>, ids: set<Id>): set<Notice> {
    set id | id in ids && id in calls && calls[id].agent.Some? :: Notice(calls[id].agent.value, id)
  }

  function NoticesAfter(w: World, s: Step): multiset<Notice> {
    if s.PruneNotices? then w.notices - s.gone else w.notices + multiset(Told(w.calls, Expires(w, s)))
  }

  function PassesAfter(w: World, s: Step): map<Id, Pass> {
    match s
    case LockDrafts(copy, now, _, ids) => w.passes[copy := DraftsLocked(now, ids)]
    case LockCalls(copy, _, ids) =>
      var pass := PassOf(w, copy);
      // Nothing due: the transaction ends here.
      w.passes[copy := if ids == {} || !pass.DraftsLocked? then Idle else CallsLocked(pass.now, pass.drafts, ids)]
    case CommitPass(copy) => w.passes[copy := Idle]
    case AbortPass(copy) => w.passes[copy := Idle]
    case _ => w.passes
  }

  function Claimed(calls: map<Id, Call>, ids: set<Id>): set<Id> {
    set id | id in ids && id in calls && calls[id].claimedAt.Some?
  }

  function CommitReport(calls: map<Id, Call>, ids: set<Id>): (r: Swept)
    ensures r.TimedOut() == |ids|
  {
    var answered := Claimed(calls, ids);
    CardinalityOfRest(ids, answered);
    Swept(0, |ids - answered|, |answered|, 0, 0)
  }

  function LeaseReport(ids: set<Id>, gone: set<Id>): (r: Swept)
    ensures r.TimedOut() == |gone|
  {
    Swept(0, 0, 0, |ids - gone|, |gone|)
  }

  /** What the step's sweep reports. */
  function Reports(w: World, s: Step, gone: set<Id>): Swept {
    if s.Backfill? then Swept(|s.ids|, 0, 0, 0, 0)
    else if s.CommitPass? then CommitReport(w.calls, PassOf(w, s.copy).HeldCalls())
    else if s.Leases? then LeaseReport(s.ids, gone)
    else NOTHING
  }

  /** A statement whose WHERE finds nothing, or that waits, changes nothing. */
  function Next(w: World, s: Step): World {
    if !Enabled(w, s) then w
    else
      World(CallsAfter(w, s), DraftsAfter(w, s), NoticesAfter(w, s), w.told + multiset(Told(w.calls, Expires(w, s))),
            PassesAfter(w, s), w.tally.Plus(Reports(w, s, Expires(w, s))))
  }

  function Run(w: World, steps: seq<Step>): World
    decreases |steps|
  {
    if steps == [] then w else Run(Next(w, steps[0]), steps[1..])
  }

  /** Before any sweep: old rows, no notice and nothing locked. */
  predicate Initial(w: World) {
    && (forall id :: id in w.calls ==> Fresh(w.calls[id]))
    && w.drafts.Keys <= w.calls.Keys
    && w.notices == multiset{} && w.told == multiset{} && w.passes == map[] && w.tally.TimedOut() == 0
  }

  // ─── The invariant ───────────────────────────────────────

  function SweptCalls(calls: map<Id, Call>): set<Id> {
    set id | id in calls && calls[id].swept
  }

  /** What a pass holds is still what it locked. */
  predicate PassFits(calls: map<Id, Call>, drafts: map<Id, Draft>, pass: Pass) {
    && (forall id :: id in pass.HeldDrafts() ==> id in drafts && drafts[id].status.DraftPending?)
    && (forall id :: id in pass.HeldCalls() ==> id in calls && Due(calls[id], pass.now))
  }

  predicate PassOk(w: World, pass: Pass) {
    PassFits(w.calls, w.drafts, pass)
  }

  ghost predicate Disjoint(passes: map<Id, Pass>) {
    forall r, q :: r in passes && q in passes && r != q ==>
      passes[r].HeldCalls() !! passes[q].HeldCalls() && passes[r].HeldDrafts() !! passes[q].HeldDrafts()
  }

  ghost predicate LocksDisjoint(w: World) {
    Disjoint(w.passes)
  }

  /** Every timed-out call's agent was told once, and every one is counted. */
  ghost predicate Accounted(w: World) {
    && w.told == multiset(Told(w.calls, SweptCalls(w.calls))) && w.notices <= w.told
    && w.tally.TimedOut() == |SweptCalls(w.calls)|
  }

  predicate RowsOk(calls: map<Id, Call>) {
    forall id :: id in calls ==> RowOk(calls[id])
  }

  ghost predicate PassesOk(w: World) {
    forall r :: r in w.passes ==> PassOk(w, w.passes[r])
  }

  ghost predicate LocksOk(w: World) {
    PassesOk(w) && LocksDisjoint(w)
  }

  ghost predicate Inv(w: World) {
    RowsOk(w.calls) && w.drafts.Keys <= w.calls.Keys && Accounted(w) && LocksOk(w)
  }

  lemma InitialAccounted(w: World)
    requires Initial(w)
    ensures Accounted(w)
  {
    assert SweptCalls(w.calls) == {};
    assert Told(w.calls, {}) == {};
  }

  lemma InitialRows(w: World)
    requires Initial(w)
    ensures RowsOk(w.calls)
  {
    forall id | id in w.calls ensures RowOk(w.calls[id]) { FreshRowIsOk(w.calls[id]); }
  }

  lemma InitialInv(w: World)
    requires Initial(w)
    ensures Inv(w)
  {
    InitialRows(w);
    InitialAccounted(w);
  }

  // ─── Every step keeps it ─────────────────────────────────

  /**
   No step touches a row its WHERE excludes, nor one a pass has locked, save
   the pass itself when it commits.
   */
  ghost predicate WritesAllowed(w: World, s: Step) {
    forall id :: id in Writes(w, s) ==>
      id in w.calls && Applies(w.calls[id], Writes(w, s)[id]) &&
      (CallHeld(w, id) ==> s.CommitPass? && id in PassOf(w, s.copy).HeldCalls())
  }

  lemma CommitWritesAllowed(w: World, s: Step)
    requires PassesOk(w) && Enabled(w, s) && s.CommitPass?
    ensures WritesAllowed(w, s)
  {
    var pass := w.passes[s.copy];
    assert PassOk(w, pass);
    assert forall id :: id in Writes(w, s) ==> Writes(w, s)[id] == TimeOut(pass.now);
  }

  lemma LeaseWritesAllowed(w: World, s: Step)
    requires Enabled(w, s) && s.Leases?
    ensures WritesAllowed(w, s)
  {
    forall id | id in s.ids
      ensures id in w.calls && Applies(w.calls[id], Lapse(s.now)) && !CallHeld(w, id)
    {
      assert id in LapsedTimes(w, s.now, s.busy);
    }
  }

  lemma BackfillWritesAllowed(w: World, s: Step)
    requires Enabled(w, s) && s.Backfill?
    ensures WritesAllowed(w, s)
  {
    forall id | id in s.ids
      ensures id in w.calls && w.calls[id].status.Open() && w.calls[id].expiresAt.None? && !CallHeld(w, id)
    {
      assert id in NeedsDeadline(w) - s.busy;
    }
  }

  lemma StepWritesAllowed(w: World, s: Step)
    requires PassesOk(w) && Enabled(w, s)
    ensures WritesAllowed(w, s)
  {
    if s.CommitPass? {
      CommitWritesAllowed(w, s);
    } else if s.Leases? {
      LeaseWritesAllowed(w, s);
    } else if s.Backfill? {
      BackfillWritesAllowed(w, s);
    }
  }

  lemma StepKeepsRows(w: World, s: Step)
    requires RowsOk(w.calls) && Enabled(w, s) && WritesAllowed(w, s)
    ensures RowsOk(CallsAfter(w, s))
  {
    forall id | id in CallsAfter(w, s) ensures RowOk(CallsAfter(w, s)[id]) {
      if s.Insert? && id == s.id {
        FreshRowIsOk(s.call);
      } else if id in Writes(w, s) {
        ChangeKeepsRow(w.calls[id], Writes(w, s)[id]);
      }
    }
  }

  lemma StepEvolvesRows(w: World, s: Step, id: Id)
    requires Enabled(w, s) && WritesAllowed(w, s) && id in w.calls
    ensures id in CallsAfter(w, s) && Evolves(w.calls[id], CallsAfter(w, s)[id])
  {
    if id in Writes(w, s) {
      ChangeEvolves(w.calls[id], Writes(w, s)[id]);
    }
  }

  /** What a step times out is exactly what becomes swept. */
  lemma StepSweeps(w: World, s: Step)
    requires RowsOk(w.calls) && Enabled(w, s) && WritesAllowed(w, s)
    ensures SweptCalls(CallsAfter(w, s)) == SweptCalls(w.calls) + Expires(w, s)
    ensures SweptCalls(w.calls) !! Expires(w, s)
  {
    var after := CallsAfter(w, s);
    forall id | id in after
      ensures id in SweptCalls(after) <==> id in SweptCalls(w.calls) || id in Expires(w, s)
      ensures id in w.calls && id in Expires(w, s) ==> !w.calls[id].swept
    {
      if id in Writes(w, s) {
        ChangeSweeps(w.calls[id], Writes(w, s)[id]);
      }
    }
  }

  /** One notice per call, so disjoint sets of calls have disjoint notices. */
  lemma ToldAddsUp(before: map<Id, Call>, after: map<Id, Call>, a: set<Id>, b: set<Id>)
    requires before.Keys <= after.Keys && a + b <= before.Keys && a !! b
    requires forall id :: id in before ==> after[id].agent == before[id].agent
    ensures multiset(Told(after, a + b)) == multiset(Told(before, a)) + multiset(Told(before, b))
  {
    assert Told(after, a + b) == Told(before, a) + Told(before, b) by {
      forall n | n in Told(before, a) + Told(before, b) ensures n in Told(after, a + b) {
        assert n.invocation in a + b;
      }
    }
    assert Told(before, a) !! Told(before, b) by {
      forall n | n in Told(before, a) ensures n !in Told(before, b) {
        assert n.invocation in a;
      }
    }
  }

  lemma AccountsAddUp(w: World, next: World, gone: set<Id>)
    requires Accounted(w)
    requires forall id :: id in w.calls ==> id in next.calls && next.calls[id].agent == w.calls[id].agent
    requires SweptCalls(next.calls) == SweptCalls(w.calls) + gone
    requires gone <= w.calls.Keys && SweptCalls(w.calls) !! gone
    requires next.told == w.told + multiset(Told(w.calls, gone))
    requires next.notices <= w.notices + multiset(Told(w.calls, gone))
    requires next.tally.TimedOut() == w.tally.TimedOut() + |gone|
    ensures Accounted(next)
  {
    ToldAddsUp(w.calls, next.calls, SweptCalls(w.calls), gone);
  }

  lemma CommitExpires(w: World, s: Step)
    requires Enabled(w, s) && WritesAllowed(w, s) && s.CommitPass?
    ensures Expires(w, s) == PassOf(w, s.copy).HeldCalls()
  {
    var pass := PassOf(w, s.copy);
    assert Writes(w, s) == map id | id in pass.calls :: TimeOut(pass.now);
  }

  lemma CommitCounts(w: World, s: Step, gone: set<Id>)
    requires s.CommitPass?
    ensures Reports(w, s, gone).TimedOut() == |PassOf(w, s.copy).HeldCalls()|
  {}

  /** Whatever only moves a row along, or answers it, times nothing out. */
  lemma NoTimeoutChange(w: World, s: Step)
    requires Enabled(w, s) && !s.CommitPass? && !s.Leases?
    ensures forall id :: id in Writes(w, s) ==> !Writes(w, s)[id].TimeOut? && !Writes(w, s)[id].Lapse?
  {}

  lemma OthersExpireNothing(w: World, s: Step)
    requires Enabled(w, s) && !s.CommitPass? && !s.Leases?
    ensures Expires(w, s) == {}
  {
    NoTimeoutChange(w, s);
  }

  lemma LeasesCount(w: World, s: Step, gone: set<Id>)
    requires s.Leases?
    ensures Reports(w, s, gone).TimedOut() == |gone|
  {}

  lemma OthersReportNothing(w: World, s: Step, gone: set<Id>)
    requires !s.CommitPass? && !s.Leases?
    ensures Reports(w, s, gone).TimedOut() == 0
  {}

  lemma ReportsCountExpiries(w: World, s: Step)
    requires Enabled(w, s) && WritesAllowed(w, s)
    ensures Reports(w, s, Expires(w, s)).TimedOut() == |Expires(w, s)|
  {
    if s.CommitPass? {
      CommitExpires(w, s);
      CommitCounts(w, s, Expires(w, s));
    } else if s.Leases? {
      LeasesCount(w, s, Expires(w, s));
    } else {
      OthersExpireNothing(w, s);
      OthersReportNothing(w, s, Expires(w, s));
    }
  }

  lemma PlusTimedOut(t: Swept, r: Swept)
    ensures t.Plus(r).TimedOut() == t.TimedOut() + r.TimedOut()
  {}

  lemma PruningOnlyRemoves(w: World, s: Step)
    ensures NoticesAfter(w, s) <= w.notices + multiset(Told(w.calls, Expires(w, s)))
  {}

  lemma Disabled(w: World, s: Step)
    requires !Enabled(w, s)
    ensures Next(w, s) == w
  {}

  lemma AfterStep(w: World, s: Step)
    requires Enabled(w, s)
    ensures Next(w, s).calls == CallsAfter(w, s) && Next(w, s).drafts == DraftsAfter(w, s)
    ensures Next(w, s).passes == PassesAfter(w, s) && Next(w, s).notices == NoticesAfter(w, s)
    ensures Next(w, s).told == w.told + multiset(Told(w.calls, Expires(w, s)))
    ensures Next(w, s).tally == w.tally.Plus(Reports(w, s, Expires(w, s)))
  {}

  lemma StepKeepsAgents(w: World, s: Step)
    requires Enabled(w, s) && WritesAllowed(w, s)
    ensures forall id :: id in w.calls ==> id in CallsAfter(w, s) && CallsAfter(w, s)[id].agent == w.calls[id].agent
  {
    forall id | id in w.calls ensures id in CallsAfter(w, s) && Evolves(w.calls[id], CallsAfter(w, s)[id]) {
      StepEvolvesRows(w, s, id);
    }
  }

  lemma StepKeepsAccounts(w: World, s: Step)
    requires RowsOk(w.calls) && Accounted(w) && Enabled(w, s) && WritesAllowed(w, s)
    ensures Accounted(Next(w, s))
  {
    AfterStep(w, s);
    PruningOnlyRemoves(w, s);
    ReportsCountExpiries(w, s);
    PlusTimedOut(w.tally, Reports(w, s, Expires(w, s)));
    StepKeepsAgents(w, s);
    StepSweeps(w, s);
    AccountsAddUp(w, Next(w, s), Expires(w, s));
  }

  /** A step of this copy's own deadline pass. */
  predicate Passing(s: Step, copy: Id) {
    (s.LockDrafts? || s.LockCalls? || s.CommitPass? || s.AbortPass?) && s.copy == copy
  }

  /** What a pass has locked, nobody else changes. */
  lemma LockedCallUntouched(w: World, s: Step, copy: Id, id: Id)
    requires LocksDisjoint(w) && Enabled(w, s) && WritesAllowed(w, s)
    requires copy in w.passes && !Passing(s, copy)
    requires id in w.calls && id in w.passes[copy].HeldCalls()
    ensures id in CallsAfter(w, s) && CallsAfter(w, s)[id] == w.calls[id]
  {
    assert CallHeld(w, id);
    if id in Writes(w, s) {
      assert false;
    }
  }

  lemma LockedDraftUntouched(w: World, s: Step, copy: Id, id: Id)
    requires LocksDisjoint(w) && Enabled(w, s)
    requires copy in w.passes && !Passing(s, copy)
    requires id in w.drafts && id in w.passes[copy].HeldDrafts()
    ensures id in DraftsAfter(w, s) && DraftsAfter(w, s)[id] == w.drafts[id]
  {
    assert DraftHeld(w, id);
    if s.CommitPass? && id in PassOf(w, s.copy).HeldDrafts() {
      assert false;
    }
  }

  /** What a copy comes to hold, it picked from what nobody held. */
  lemma PickedAreFree(w: World, s: Step)
    requires Enabled(w, s) && (s.LockDrafts? || s.LockCalls?)
    ensures s.LockDrafts? ==> forall id :: id in s.ids ==> !DraftHeld(w, id)
    ensures s.LockCalls? ==> forall id :: id in s.ids ==> !CallHeld(w, id)
  {
    if s.LockDrafts? {
      assert s.ids <= DueDrafts(w, s.now) - s.busy;
      forall id | id in s.ids ensures !DraftHeld(w, id) { assert id in DueDrafts(w, s.now); }
    } else {
      assert s.ids <= EligibleTimes(w, PassOf(w, s.copy).now, PassOf(w, s.copy).drafts, s.busy).Keys;
    }
  }

  lemma StepKeepsLocksDisjoint(w: World, s: Step)
    requires LocksDisjoint(w) && Enabled(w, s)
    ensures Disjoint(PassesAfter(w, s))
  {
    var after := PassesAfter(w, s);
    if s.LockDrafts? || s.LockCalls? {
      PickedAreFree(w, s);
      NewHoldDisjoint(w, s.copy, after[s.copy]);
      assert after == w.passes[s.copy := after[s.copy]];
    } else if s.CommitPass? || s.AbortPass? {
      NewHoldDisjoint(w, s.copy, Idle);
    }
  }

  lemma NewHoldDisjoint(w: World, copy: Id, pass: Pass)
    requires LocksDisjoint(w)
    requires forall id :: id in pass.HeldDrafts() ==> !DraftHeld(w, id) || id in PassOf(w, copy).HeldDrafts()
    requires forall id :: id in pass.HeldCalls() ==> !CallHeld(w, id)
    ensures Disjoint(w.passes[copy := pass])
  {
    var after := w.passes[copy := pass];
    forall q | q in after && q != copy
      ensures pass.HeldCalls() !! after[q].HeldCalls() && pass.HeldDrafts() !! after[q].HeldDrafts()
    {
      assert forall id :: id in w.passes[q].HeldCalls() ==> CallHeld(w, id);
      assert forall id :: id in w.passes[q].HeldDrafts() ==> DraftHeld(w, id);
    }
  }

  lemma OtherPassKept(w: World, s: Step, copy: Id)
    requires LocksDisjoint(w) && PassesOk(w) && Enabled(w, s) && WritesAllowed(w, s)
    requires copy in w.passes && !Passing(s, copy)
    ensures copy in PassesAfter(w, s) && PassesAfter(w, s)[copy] == w.passes[copy]
    ensures PassFits(CallsAfter(w, s), DraftsAfter(w, s), w.passes[copy])
  {
    var pass := w.passes[copy];
    assert PassOk(w, pass);
    forall id | id in pass.HeldDrafts() ensures id in DraftsAfter(w, s) && DraftsAfter(w, s)[id].status.DraftPending? {
      LockedDraftUntouched(w, s, copy, id);
    }
    forall id | id in pass.HeldCalls() ensures id in CallsAfter(w, s) && Due(CallsAfter(w, s)[id], pass.now) {
      LockedCallUntouched(w, s, copy, id);
    }
  }

  lemma LockedCallsAreDue(w: World, s: Step)
    requires PassesOk(w) && Enabled(w, s) && s.LockCalls?
    ensures s.copy in w.passes && PassFits(w.calls, w.drafts, PassesAfter(w, s)[s.copy])
  {
    var pass := w.passes[s.copy];
    assert PassOk(w, pass);
    forall id | id in s.ids ensures id in w.calls && Due(w.calls[id], pass.now) {
      assert id in EligibleTimes(w, pass.now, pass.drafts, s.busy);
    }
  }

  lemma LockedDraftsArePending(w: World, s: Step)
    requires Enabled(w, s) && s.LockDrafts?
    ensures PassFits(w.calls, w.drafts, DraftsLocked(s.now, s.ids))
  {
    DueDraftsArePending(w, s.now, s.ids, s.busy);
  }

  lemma DueDraftsArePending(w: World, now: Time, ids: set<Id>, busy: set<Id>)
    requires ids <= DueDrafts(w, now) - busy
    ensures PassFits(w.calls, w.drafts, DraftsLocked(now, ids))
  {
    forall id | id in ids ensures HasPendingDraft(w, id) { assert id in DueDrafts(w, now) - busy; }
  }

  lemma LockingChangesNoRow(w: World, s: Step)
    requires s.LockDrafts? || s.LockCalls?
    ensures CallsAfter(w, s) == w.calls && DraftsAfter(w, s) == w.drafts
  {
    assert Writes(w, s) == map[];
  }

  lemma OwnPassOk(w: World, s: Step, copy: Id)
    requires PassesOk(w) && Enabled(w, s) && Passing(s, copy)
    ensures copy in PassesAfter(w, s) && PassFits(CallsAfter(w, s), DraftsAfter(w, s), PassesAfter(w, s)[copy])
  {
    if s.LockDrafts? {
      LockingChangesNoRow(w, s);
      LockedDraftsArePending(w, s);
    } else if s.LockCalls? {
      LockingChangesNoRow(w, s);
      LockedCallsAreDue(w, s);
    }
  }

  lemma StepKeepsPasses(w: World, s: Step)
    requires LocksDisjoint(w) && PassesOk(w) && Enabled(w, s) && WritesAllowed(w, s)
    ensures forall r :: r in PassesAfter(w, s) ==>
      PassFits(CallsAfter(w, s), DraftsAfter(w, s), PassesAfter(w, s)[r])
  {
    forall r | r in PassesAfter(w, s) ensures PassFits(CallsAfter(w, s), DraftsAfter(w, s), PassesAfter(w, s)[r]) {
      if Passing(s, r) {
        OwnPassOk(w, s, r);
      } else {
        PassesOnlyMoveOne(w, s, r);
        OtherPassKept(w, s, r);
      }
    }
  }

  lemma PassesOnlyMoveOne(w: World, s: Step, r: Id)
    requires r in PassesAfter(w, s) && !Passing(s, r)
    ensures r in w.passes
  {}

  lemma CallsStay(w: World, s: Step)
    ensures w.calls.Keys <= CallsAfter(w, s).Keys
  {}

  lemma DraftsAreOfCalls(w: World, s: Step)
    requires Enabled(w, s) && w.drafts.Keys <= w.calls.Keys
    ensures DraftsAfter(w, s).Keys <= w.calls.Keys
  {}

  lemma StepKeepsDraftKeys(w: World, s: Step)
    requires w.drafts.Keys <= w.calls.Keys && Enabled(w, s)
    ensures Next(w, s).drafts.Keys <= Next(w, s).calls.Keys
  {
    CallsStay(w, s);
    DraftsAreOfCalls(w, s);
  }

  lemma StepKeepsLocks(w: World, s: Step)
    requires LocksOk(w)
    ensures LocksOk(Next(w, s))
  {
    if Enabled(w, s) {
      StepWritesAllowed(w, s);
      StepKeepsPasses(w, s);
      StepKeepsLocksDisjoint(w, s);
      AfterStep(w, s);
    }
  }

  lemma StepKeepsInv(w: World, s: Step)
    requires Inv(w)
    ensures Inv(Next(w, s))
  {
    StepKeepsLocks(w, s);
    if Enabled(w, s) {
      StepWritesAllowed(w, s);
      StepKeepsRows(w, s);
      StepKeepsDraftKeys(w, s);
      StepKeepsAccounts(w, s);
    }
  }

  lemma StepEvolves(w: World, s: Step, id: Id)
    requires LocksOk(w) && id in w.calls
    ensures id in Next(w, s).calls && Evolves(w.calls[id], Next(w, s).calls[id])
  {
    if Enabled(w, s) {
      StepWritesAllowed(w, s);
      StepEvolvesRows(w, s, id);
    }
  }

  // ─── Every run ───────────────────────────────────────────

  lemma {:induction false} RunKeepsInv(w: World, steps: seq<Step>)
    requires Inv(w)
    ensures Inv(Run(w, steps))
    decreases |steps|
  {
    if steps != [] {
      StepKeepsInv(w, steps[0]);
      RunKeepsInv(Next(w, steps[0]), steps[1..]);
    }
  }

  lemma {:induction false} RunKeepsLocks(w: World, steps: seq<Step>)
    requires LocksOk(w)
    ensures LocksOk(Run(w, steps))
    decreases |steps|
  {
    if steps != [] {
      StepKeepsLocks(w, steps[0]);
      RunKeepsLocks(Next(w, steps[0]), steps[1..]);
    }
  }

  lemma {:induction false} RunKeepsRows(w: World, steps: seq<Step>)
    requires LocksOk(w) && RowsOk(w.calls)
    ensures RowsOk(Run(w, steps).calls)
    decreases |steps|
  {
    if steps != [] {
      StepKeepsLocks(w, steps[0]);
      if Enabled(w, steps[0]) {
        StepWritesAllowed(w, steps[0]);
        StepKeepsRows(w, steps[0]);
      }
      RunKeepsRows(Next(w, steps[0]), steps[1..]);
    }
  }

  lemma {:induction false} RunEvolves(w: World, steps: seq<Step>, id: Id)
    requires LocksOk(w) && id in w.calls
    ensures id in Run(w, steps).calls && Evolves(w.calls[id], Run(w, steps).calls[id])
    decreases |steps|
  {
    if steps != [] {
      StepKeepsLocks(w, steps[0]);
      StepEvolves(w, steps[0], id);
      var next := Next(w, steps[0]);
      RunEvolves(next, steps[1..], id);
      EvolvesTransitively(w.calls[id], next.calls[id], Run(next, steps[1..]).calls[id]);
    }
  }

  // ─── Deliveries ──────────────────────────────────────────

  /** The step hands the call's claim back, by release or by lapse. */
  predicate HandsBack(w: World, s: Step, id: Id) {
    Enabled(w, s) && id in Writes(w, s) && EndsClaim(Writes(w, s)[id])
  }

  /** No step of the run does. */
  predicate NeverHandedBack(w: World, steps: seq<Step>, id: Id)
    decreases |steps|
  {
    steps == [] || (!HandsBack(w, steps[0], id) && NeverHandedBack(Next(w, steps[0]), steps[1..], id))
  }

  predicate UncountedAt(w: World, id: Id) {
    id in w.calls && Uncounted(w.calls[id])
  }

  /** A step counts every claim it makes, and leaves an uncounted one so unless it ends it. */
  lemma StepCounts(w: World, s: Step, id: Id)
    requires LocksOk(w) && RowsOk(w.calls)
    ensures UncountedAt(Next(w, s), id) ==> UncountedAt(w, id)
    ensures UncountedAt(w, id) && HandsBack(w, s, id) ==> !UncountedAt(Next(w, s), id)
    ensures UncountedAt(w, id) && !HandsBack(w, s, id) ==>
      UncountedAt(Next(w, s), id) || (id in Next(w, s).calls && Next(w, s).calls[id].status.Settled())
  {
    if Enabled(w, s) {
      StepWritesAllowed(w, s);
      AfterStep(w, s);
      if id in w.calls {
        RowCounts(w, s, id);
      } else {
        NewRowCounts(w, s, id);
      }
    }
  }

  /** Nothing is inserted in progress. */
  lemma NewRowCounts(w: World, s: Step, id: Id)
    requires Enabled(w, s) && id !in w.calls
    ensures id in CallsAfter(w, s) ==> !Uncounted(CallsAfter(w, s)[id])
  {}

  lemma RowCounts(w: World, s: Step, id: Id)
    requires Enabled(w, s) && WritesAllowed(w, s) && id in w.calls && RowOk(w.calls[id])
    ensures id in CallsAfter(w, s)
    ensures var c, d := w.calls[id], CallsAfter(w, s)[id];
      && (Uncounted(d) ==> Uncounted(c))
      && (Uncounted(c) ==> (Uncounted(d) <==> !HandsBack(w, s, id) && !d.status.Settled()))
  {
    if id in Writes(w, s) {
      var c, k := w.calls[id], Writes(w, s)[id];
      if Uncounted(c) { UncountedStays(c, k); } else { ChangeCounts(c, k); }
    }
  }

  /** A claim not uncounted at one point is never uncounted after it. */
  lemma {:induction false} CountedStays(w: World, steps: seq<Step>, id: Id)
    requires LocksOk(w) && RowsOk(w.calls) && !UncountedAt(w, id)
    ensures !UncountedAt(Run(w, steps), id)
    decreases |steps|
  {
    if steps != [] {
      StepCounts(w, steps[0], id);
      StepKeepsLocks(w, steps[0]);
      StepKeepsRowsOk(w, steps[0]);
      CountedStays(Next(w, steps[0]), steps[1..], id);
    }
  }

  lemma StepKeepsRowsOk(w: World, s: Step)
    requires LocksOk(w) && RowsOk(w.calls)
    ensures RowsOk(Next(w, s).calls)
  {
    if Enabled(w, s) {
      StepWritesAllowed(w, s);
      StepKeepsRows(w, s);
    }
  }

  /** An uncounted claim still in progress is one exactly when nobody handed it back meanwhile. */
  lemma {:induction false} UncountedUntilHandedBack(w: World, steps: seq<Step>, id: Id)
    requires LocksOk(w) && RowsOk(w.calls) && UncountedAt(w, id)
    requires id in Run(w, steps).calls && Run(w, steps).calls[id].status.InProgress?
    ensures Uncounted(Run(w, steps).calls[id]) <==> NeverHandedBack(w, steps, id)
    decreases |steps|
  {
    if steps != [] {
      var next := Next(w, steps[0]);
      StepCounts(w, steps[0], id);
      StepKeepsLocks(w, steps[0]);
      StepKeepsRowsOk(w, steps[0]);
      if HandsBack(w, steps[0], id) {
        CountedStays(next, steps[1..], id);
      } else {
        if id in next.calls && next.calls[id].status.Settled() {
          SettledForGood(next, steps[1..], id);
        }
        UncountedUntilHandedBack(next, steps[1..], id);
      }
    }
  }

  /** In the initial table an in-progress row is a claim made before deliveries were counted. */
  predicate OldClaim(w: World, id: Id) {
    id in w.calls && w.calls[id].status.InProgress?
  }

  /**
   However claims, releases, lapses and answers interleave: a pending call's
   deliveries are its lapses so far; no lease lapses more than MAX_DELIVERIES
   times, the last time only as the sweep's timeout; and an in-progress
   call's deliveries are one more than its lapses, 1 to 3, unless it was in
   progress before deliveries were counted and nobody has handed it back
   since, and exactly then they are 0.
   */
  lemma {:induction false} DeliveriesFollowLapses(w: World, steps: seq<Step>, id: Id)
    requires Initial(w) && id in Run(w, steps).calls
    ensures var c := Run(w, steps).calls[id];
      && c.lapses <= MAX_DELIVERIES
      && (c.status.Pending? ==> c.deliveries == c.lapses <= 2)
      && (c.lapses == MAX_DELIVERIES ==> c.status.Timeout? && c.swept)
      && (c.status.InProgress? ==>
            (c.deliveries == c.lapses + 1 && 1 <= c.deliveries <= 3
             <==> !(OldClaim(w, id) && NeverHandedBack(w, steps, id))))
      && (c.status.InProgress? && OldClaim(w, id) && NeverHandedBack(w, steps, id) ==> c.deliveries == c.lapses == 0)
  {
    InitialInv(w);
    RunKeepsInv(w, steps);
    if Run(w, steps).calls[id].status.InProgress? {
      if OldClaim(w, id) {
        UncountedUntilHandedBack(w, steps, id);
      } else {
        CountedStays(w, steps, id);
      }
    }
  }

  /** Any row in progress when deliveries began to be counted is such a claim, and stays one. */
  lemma OldClaimHasNoDelivery(c: Call, id: Id) returns (w: World)
    requires Fresh(c) && c.status.InProgress?
    ensures Initial(w) && OldClaim(w, id) && w.calls[id] == c && c.deliveries == 0
  {
    w := World(map[id := c], map[], multiset{}, multiset{}, map[], Swept(0, 0, 0, 0, 0));
  }

  /**
   Once settled, always the same: whatever is posted, swept or decided
   later, only a purge of the conversation the call was made in clears its
   output and error.
   */
  lemma {:induction false} SettledForGood(w: World, steps: seq<Step>, id: Id)
    requires LocksOk(w) && id in w.calls && w.calls[id].status.Settled()
    ensures id in Run(w, steps).calls
    ensures var c, d := w.calls[id], Run(w, steps).calls[id];
      && d.status == c.status
      && (d == c || (c.conversation.Some? && d == Changed(c, Purge)))
  {
    RunEvolves(w, steps, id);
    SettledEvolves(w.calls[id], Run(w, steps).calls[id]);
  }

  lemma SettledEvolves(c: Call, d: Call)
    requires c.status.Settled() && Evolves(c, d)
    ensures d.status == c.status && (d == c || (c.conversation.Some? && d == Changed(c, Purge)))
  {}

  /** An open call's deadline, once set, never moves, even when it settles. */
  lemma {:induction false} DeadlineNeverMoves(w: World, steps: seq<Step>, id: Id)
    requires LocksOk(w) && id in w.calls && w.calls[id].status.Open() && w.calls[id].expiresAt.Some?
    ensures id in Run(w, steps).calls
    ensures Run(w, steps).calls[id].expiresAt == w.calls[id].expiresAt
  {
    RunEvolves(w, steps, id);
  }

  /**
   Over any run of any number of sweeping copies: each call a sweep timed
   out that has a called agent was told of in exactly one notice, no other
   call in any, and what the sweeps returned adds up to the calls timed out.
   The table holds each such notice at most once, and never lacks one that
   wasn't pruned.
   */
  lemma {:induction false} OneNoticePerTimeout(w: World, steps: seq<Step>, n: Notice)
    requires Initial(w)
    ensures var e := Run(w, steps);
      && e.told[n] == (if n.invocation in SweptCalls(e.calls) && e.calls[n.invocation].agent == Some(n.agent)
                       then 1 else 0)
      && e.tally.TimedOut() == |SweptCalls(e.calls)|
      && e.notices[n] <= e.told[n]
      && (e.notices[n] < e.told[n] <==> PrunedIn(w, steps, n))
  {
    InitialInv(w);
    RunKeepsInv(w, steps);
    PrunedOrThere(w, steps, n);
  }

  /** Some step of the run prunes it. */
  predicate PrunedIn(w: World, steps: seq<Step>, n: Notice)
    decreases |steps|
  {
    steps != [] &&
    ((Enabled(w, steps[0]) && steps[0].PruneNotices? && n in steps[0].gone) || PrunedIn(Next(w, steps[0]), steps[1..], n))
  }

  lemma StepPrunes(w: World, s: Step, n: Notice)
    requires w.notices <= w.told
    ensures var next := Next(w, s);
      && next.notices <= next.told
      && next.told[n] - next.notices[n] ==
           w.told[n] - w.notices[n] + (if Enabled(w, s) && s.PruneNotices? then s.gone[n] else 0)
  {}

  lemma {:induction false} PrunedOrThere(w: World, steps: seq<Step>, n: Notice)
    requires w.notices <= w.told
    ensures Run(w, steps).notices[n] < Run(w, steps).told[n] <==> w.notices[n] < w.told[n] || PrunedIn(w, steps, n)
    ensures Run(w, steps).notices[n] <= Run(w, steps).told[n]
    decreases |steps|
  {
    if steps != [] {
      StepPrunes(w, steps[0], n);
      PrunedOrThere(Next(w, steps[0]), steps[1..], n);
    }
  }
}
