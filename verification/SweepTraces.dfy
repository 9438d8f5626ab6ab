/**
 What one relay copy's sweep did to the tables, as the sequence of its own
 statements and of what others committed between them, and which calls came
 to be timed out by whom.
 */
module SweepTraces {
  import opened Prelude
  import opened Batches
  import opened InvocationRows
  import opened InvocationRelay
  import opened DeadlinePass

  /** A statement of this copy's, or others' steps while it waited. */
  datatype Stage = Own(step: Step) | Others(steps: seq<Step>)

  datatype Trace = Begin(start: World) | Then(before: Trace, stage: Stage)

  /** The tables after it. */
  function After(t: Trace): World
    decreases t, 0
  {
    match t
    case Begin(w) => w
    case Then(before, stage) => AfterStage(before, stage)
  }

  function AfterStage(t: Trace, stage: Stage): World
    decreases t, 2
  {
    match stage
    case Own(s) => AfterOwn(t, s)
    case Others(steps) => AfterOthers(t, steps)
  }

  function AfterOwn(t: Trace, s: Step): World
    decreases t, 1
  {
    Next(After(t), s)
  }

  function AfterOthers(t: Trace, steps: seq<Step>): World
    decreases t, 1
  {
    Run(After(t), steps)
  }

  lemma OwnPlayed(t: Trace, s: Step)
    ensures After(Then(t, Own(s))) == Next(After(t), s)
  {
    assert After(Then(t, Own(s))) == AfterStage(t, Own(s));
    assert AfterStage(t, Own(s)) == AfterOwn(t, s);
  }

  lemma OthersPlayed(t: Trace, steps: seq<Step>)
    ensures After(Then(t, Others(steps))) == Run(After(t), steps)
  {
    assert After(Then(t, Others(steps))) == AfterStage(t, Others(steps));
    assert AfterStage(t, Others(steps)) == AfterOthers(t, steps);
  }

  /** Every statement of the copy's was one the database allows, and others' steps were others'. */
  predicate Lawful(t: Trace, copy: Id)
    decreases t, 0
  {
    match t
    case Begin(_) => true
    case Then(before, stage) => LawfulStage(before, stage, copy)
  }

  predicate LawfulStage(t: Trace, stage: Stage, copy: Id)
    decreases t, 2
  {
    match stage
    case Own(s) => LawfulOwn(t, s, copy)
    case Others(steps) => Lawful(t, copy) && forall s :: s in steps ==> !Passing(s, copy)
  }

  predicate LawfulOwn(t: Trace, s: Step, copy: Id)
    decreases t, 1
  {
    Lawful(t, copy) && Enabled(After(t), s)
  }

  lemma OwnLawful(t: Trace, s: Step, copy: Id)
    ensures Lawful(Then(t, Own(s)), copy) <==> Lawful(t, copy) && Enabled(After(t), s)
  {
    assert Lawful(Then(t, Own(s)), copy) == LawfulStage(t, Own(s), copy);
    assert LawfulStage(t, Own(s), copy) == LawfulOwn(t, s, copy);
  }

  lemma OthersLawful(t: Trace, steps: seq<Step>, copy: Id)
    ensures Lawful(Then(t, Others(steps)), copy) <==> Lawful(t, copy) && forall s :: s in steps ==> !Passing(s, copy)
  {
    assert Lawful(Then(t, Others(steps)), copy) == LawfulStage(t, Others(steps), copy);
  }

  function Start(t: Trace): World {
    if t.Begin? then t.start else Start(t.before)
  }

  // ─── Who timed out what ──────────────────────────────────

  /** The calls this copy's statements timed out. */
  function Mine(t: Trace): set<Id>
    decreases t, 0
  {
    match t
    case Begin(_) => {}
    case Then(before, stage) => Mine(before) + MineOf(before, stage)
  }

  function MineOf(t: Trace, stage: Stage): set<Id>
    decreases t, 1
  {
    if stage.Own? then Expires(After(t), stage.step) else {}
  }

  /** What came to be timed out by a sweep between `w` and `v`. */
  function NewlySwept(w: World, v: World): set<Id> {
    SweptCalls(v.calls) - SweptCalls(w.calls)
  }

  /** The calls others' steps timed out meanwhile. */
  function Theirs(t: Trace): set<Id>
    decreases t, 0
  {
    match t
    case Begin(_) => {}
    case Then(before, stage) => Theirs(before) + TheirsOf(before, stage)
  }

  function TheirsOf(t: Trace, stage: Stage): set<Id>
    decreases t, 1
  {
    if stage.Others? then NewlySwept(After(t), Run(After(t), stage.steps)) else {}
  }

  ghost predicate Sound(w: World) {
    LocksOk(w) && RowsOk(w.calls)
  }

  lemma {:induction false} TraceSound(t: Trace)
    requires Sound(Start(t))
    ensures Sound(After(t))
  {
    if t.Then? {
      TraceSound(t.before);
      match t.stage
      case Own(s) =>
        OwnPlayed(t.before, s);
        StepKeepsLocks(After(t.before), s);
        StepKeepsRowsOk(After(t.before), s);
      case Others(steps) =>
        OthersPlayed(t.before, steps);
        RunKeepsLocks(After(t.before), steps);
        RunKeepsRows(After(t.before), steps);
    }
  }

  lemma StepSweepsExactly(w: World, s: Step)
    requires Sound(w) && Enabled(w, s)
    ensures SweptCalls(Next(w, s).calls) == SweptCalls(w.calls) + Expires(w, s) && SweptCalls(w.calls) !! Expires(w, s)
  {
    StepWritesAllowed(w, s);
    AfterStep(w, s);
    StepSweeps(w, s);
  }

  lemma StepKeepsSwept(w: World, s: Step)
    requires Sound(w)
    ensures SweptCalls(w.calls) <= SweptCalls(Next(w, s).calls)
  {
    if Enabled(w, s) { StepSweepsExactly(w, s); } else { Disabled(w, s); }
  }

  lemma {:induction false} RunKeepsSwept(w: World, steps: seq<Step>)
    requires Sound(w)
    ensures SweptCalls(w.calls) <= SweptCalls(Run(w, steps).calls)
    decreases |steps|
  {
    if steps != [] {
      StepKeepsSwept(w, steps[0]);
      StepKeepsLocks(w, steps[0]);
      StepKeepsRowsOk(w, steps[0]);
      RunKeepsSwept(Next(w, steps[0]), steps[1..]);
    }
  }

  /** `all` is `a`, `b` and `c`, with nothing twice. */
  predicate Parts(all: set<Id>, a: set<Id>, b: set<Id>, c: set<Id>) {
    all == a + b + c && a !! b && a !! c && b !! c
  }

  lemma MorePart(all: set<Id>, a: set<Id>, b: set<Id>, c: set<Id>, more: set<Id>)
    requires Parts(all, a, b, c) && all !! more
    ensures Parts(all + more, a, b + more, c) && Parts(all + more, a, b, c + more)
  {}

  lemma MineAfter(t: Trace, s: Step)
    ensures Mine(Then(t, Own(s))) == Mine(t) + Expires(After(t), s) && Theirs(Then(t, Own(s))) == Theirs(t)
  {
    assert MineOf(t, Own(s)) == Expires(After(t), s) && TheirsOf(t, Own(s)) == {};
  }

  lemma TheirsAfter(t: Trace, steps: seq<Step>)
    ensures Mine(Then(t, Others(steps))) == Mine(t)
    ensures Theirs(Then(t, Others(steps))) == Theirs(t) + NewlySwept(After(t), Run(After(t), steps))
  {
    assert MineOf(t, Others(steps)) == {} && TheirsOf(t, Others(steps)) == NewlySwept(After(t), Run(After(t), steps));
  }

  /** The calls timed out by a sweep are those at the start, this copy's and others'. */
  predicate Accounted(t: Trace) {
    Parts(SweptCalls(After(t).calls), SweptCalls(Start(t).calls), Mine(t), Theirs(t))
  }

  lemma OwnAccounted(t: Trace, s: Step)
    requires Sound(After(t)) && Accounted(t) && Enabled(After(t), s)
    ensures Accounted(Then(t, Own(s)))
  {
    OwnPlayed(t, s);
    MineAfter(t, s);
    StepSweepsExactly(After(t), s);
    MorePart(SweptCalls(After(t).calls), SweptCalls(Start(t).calls), Mine(t), Theirs(t), Expires(After(t), s));
  }

  lemma OthersAccounted(t: Trace, steps: seq<Step>)
    requires Sound(After(t)) && Accounted(t)
    ensures Accounted(Then(t, Others(steps)))
  {
    OthersPlayed(t, steps);
    TheirsAfter(t, steps);
    RunKeepsSwept(After(t), steps);
    MorePart(SweptCalls(After(t).calls), SweptCalls(Start(t).calls), Mine(t), Theirs(t),
             NewlySwept(After(t), Run(After(t), steps)));
  }

  /**
   Every call timed out by a sweep after the trace was so before it, or was
   timed out by exactly one of this copy's statements, or by others' steps.
   */
  lemma {:induction false} TraceAccounts(t: Trace, copy: Id)
    requires Sound(Start(t)) && Lawful(t, copy)
    ensures Accounted(t)
  {
    if t.Then? {
      var before := t.before;
      TraceSound(before);
      match t.stage
      case Own(s) =>
        OwnLawful(before, s, copy);
        TraceAccounts(before, copy);
        OwnAccounted(before, s);
      case Others(steps) =>
        OthersLawful(before, steps, copy);
        TraceAccounts(before, copy);
        OthersAccounted(before, steps);
    }
  }

  // ─── The passes ──────────────────────────────────────────

  /**
   Which database call of a pass fails, if one does. `Unheard`: the commit
   landed, and this copy saw an error.
   */
  datatype Fault = NoFault | AtFirst | AtSecond | AtCommit | Unheard {
    /** The pass's work is in the table. */
    predicate Commits() {
      NoFault? || Unheard?
    }
  }

  /** What is around a backfill: the time, which calls are `human_in_loop`, and rows others hold. */
  datatype FillAround = FillAround(now: Time, hitl: set<Id>, busy: set<Id>, fault: Fault)

  /** What is around a deadline pass, and what others commit while it holds drafts, then calls. */
  datatype LateAround = LateAround(
    now: Time, busyDrafts: set<Id>, busyCalls: set<Id>, afterDrafts: seq<Step>, afterCalls: seq<Step>, fault: Fault)

  datatype LeaseAround = LeaseAround(now: Time, busy: set<Id>, fault: Fault)

  /** A sweep's passes, and what others commit between them. */
  datatype Around = Around(
    fill: FillAround, late: LateAround, lease: LeaseAround, afterFill: seq<Step>, afterLate: seq<Step>)

  /** None of it is a step of this copy's own deadline pass. */
  predicate OthersOnly(e: LateAround, copy: Id) {
    (forall s :: s in e.afterDrafts ==> !Passing(s, copy)) && (forall s :: s in e.afterCalls ==> !Passing(s, copy))
  }

  predicate OthersOnlyAround(e: Around, copy: Id) {
    && OthersOnly(e.late, copy)
    && (forall s :: s in e.afterFill ==> !Passing(s, copy)) && (forall s :: s in e.afterLate ==> !Passing(s, copy))
  }

  /** The rows the database picked for each statement. */
  datatype Picks = Picks(rows: set<Id>, drafts: set<Id>, late: set<Id>, lapsed: set<Id>)

  function HeldCallIds(w: World): set<Id> {
    set id | id in w.calls && CallHeld(w, id)
  }

  function HeldDraftIds(w: World): set<Id> {
    set id | id in w.drafts && DraftHeld(w, id)
  }

  function FillTrace(t: Trace, settings: Settings, e: FillAround, rows: set<Id>): Trace {
    if e.fault.Commits() then
      Then(t, Own(Step.Backfill(e.now, settings, e.hitl, e.busy + HeldCallIds(After(t)), rows)))
    else t
  }

  /** Drafts locked, and others' steps since. */
  function HoldingDrafts(t: Trace, copy: Id, e: LateAround, drafts: set<Id>): Trace {
    Then(Then(t, Own(LockDrafts(copy, e.now, e.busyDrafts + HeldDraftIds(After(t)), drafts))), Others(e.afterDrafts))
  }

  /** Then calls. */
  function HoldingCalls(t: Trace, copy: Id, e: LateAround, late: set<Id>): Trace {
    Then(t, Own(LockCalls(copy, e.busyCalls + HeldCallIds(After(t)), late)))
  }

  /** The deadline pass: it ends early when its first or second statement fails, or nothing is due. */
  function LateTrace(t: Trace, copy: Id, e: LateAround, drafts: set<Id>, late: set<Id>): Trace {
    if e.fault.AtFirst? then t
    else
      var held := HoldingDrafts(t, copy, e, drafts);
      if e.fault.AtSecond? then Then(held, Own(AbortPass(copy)))
      else if late == {} then HoldingCalls(held, copy, e, late)
      else Then(Then(HoldingCalls(held, copy, e, late), Others(e.afterCalls)),
                Own(if e.fault.Commits() then CommitPass(copy) else AbortPass(copy)))
  }

  predicate LateFails(e: LateAround, late: set<Id>) {
    e.fault.AtFirst? || e.fault.AtSecond? || (!e.fault.NoFault? && late != {})
  }

  /** The calls a deadline pass times out. */
  function LateCalls(e: LateAround, late: set<Id>): set<Id> {
    if e.fault.Commits() then late else {}
  }

  /** `lapsed` is a batch of the claims nobody holds whose leases lapsed first. */
  predicate LongestLapsed(w: World, e: LeaseAround, lapsed: set<Id>) {
    IsOldestBatch(LapsedTimes(w, e.now, e.busy + HeldCallIds(w)), BATCH, lapsed)
  }

  /** A lease pass whose statement doesn't fail picks those. */
  predicate PicksLapsed(t: Trace, e: LeaseAround, lapsed: set<Id>) {
    !e.fault.AtFirst? ==> LongestLapsed(After(t), e, lapsed)
  }

  /** With nothing lapsed the pass ends before there is anything to commit. */
  predicate LeaseFails(e: LeaseAround, lapsed: set<Id>) {
    e.fault.AtFirst? || (!e.fault.NoFault? && lapsed != {})
  }

  function LeaseTrace(t: Trace, e: LeaseAround, lapsed: set<Id>): Trace {
    if e.fault.Commits() then Then(t, Own(Step.Leases(e.now, e.busy + HeldCallIds(After(t)), lapsed))) else t
  }

  /** The claims among `ids` on their last delivery. */
  function LastDeliveries(calls: map<Id, Call>, ids: set<Id>): (gone: set<Id>)
    ensures gone <= ids
  {
    set id | id in ids && id in calls && Exhausted(calls[id])
  }

  /** The calls a lease pass times out. */
  function LapsedCalls(t: Trace, e: LeaseAround, lapsed: set<Id>): set<Id> {
    if e.fault.Commits() then LastDeliveries(After(t).calls, lapsed) else {}
  }

  /** Where the deadline pass begins, and where it ends. */
  function LateBegins(t: Trace, settings: Settings, e: Around, p: Picks): Trace {
    Then(FillTrace(t, settings, e.fill, p.rows), Others(e.afterFill))
  }

  function LateEnds(t: Trace, copy: Id, settings: Settings, e: Around, p: Picks): Trace {
    LateTrace(LateBegins(t, settings, e, p), copy, e.late, p.drafts, p.late)
  }

  /** Where the lease pass begins. */
  function LeaseBegins(t: Trace, copy: Id, settings: Settings, e: Around, p: Picks): Trace {
    Then(LateEnds(t, copy, settings, e, p), Others(e.afterLate))
  }

  /** The sweep: a failing pass is its last. */
  function SweepTrace(t: Trace, copy: Id, settings: Settings, e: Around, p: Picks): Trace {
    if !e.fill.fault.NoFault? then FillTrace(t, settings, e.fill, p.rows)
    else if LateFails(e.late, p.late) then LateEnds(t, copy, settings, e, p)
    else LeaseTrace(LeaseBegins(t, copy, settings, e, p), e.lease, p.lapsed)
  }

  /** What it times out. */
  function SweepCalls(t: Trace, copy: Id, settings: Settings, e: Around, p: Picks): set<Id> {
    if !e.fill.fault.NoFault? then {}
    else if LateFails(e.late, p.late) then LateCalls(e.late, p.late)
    else p.late + LapsedCalls(LeaseBegins(t, copy, settings, e, p), e.lease, p.lapsed)
  }

  // ─── What the passes time out ────────────────────────────

  lemma QuietOwn(t: Trace, s: Step)
    requires s.LockDrafts? || s.LockCalls? || s.AbortPass? || s.Backfill?
    ensures Mine(Then(t, Own(s))) == Mine(t)
  {
    QuietStep(After(t), s);
    MineAfter(t, s);
  }

  lemma QuietStep(w: World, s: Step)
    requires s.LockDrafts? || s.LockCalls? || s.AbortPass? || s.Backfill?
    ensures Expires(w, s) == {}
  {}

  lemma FillTimesOutNothing(t: Trace, settings: Settings, e: FillAround, rows: set<Id>)
    ensures Mine(FillTrace(t, settings, e, rows)) == Mine(t)
  {
    if e.fault.Commits() {
      QuietOwn(t, Step.Backfill(e.now, settings, e.hitl, e.busy + HeldCallIds(After(t)), rows));
    }
  }

  lemma HoldingTimesOutNothing(t: Trace, copy: Id, e: LateAround, drafts: set<Id>, late: set<Id>)
    ensures Mine(HoldingDrafts(t, copy, e, drafts)) == Mine(t)
    ensures Mine(HoldingCalls(t, copy, e, late)) == Mine(t)
  {
    var lock := LockDrafts(copy, e.now, e.busyDrafts + HeldDraftIds(After(t)), drafts);
    QuietOwn(t, lock);
    TheirsAfter(Then(t, Own(lock)), e.afterDrafts);
    QuietOwn(t, LockCalls(copy, e.busyCalls + HeldCallIds(After(t)), late));
  }

  /** A pass's locks as the trace has them. */
  lemma {:induction false} LockedCallsInPass(t: Trace, copy: Id, e: LateAround, late: set<Id>)
    requires late != {} && PassOf(After(t), copy).DraftsLocked? && OthersOnly(e, copy)
    requires Enabled(After(t), LockCalls(copy, e.busyCalls + HeldCallIds(After(t)), late))
    ensures var pass := PassOf(After(Then(HoldingCalls(t, copy, e, late), Others(e.afterCalls))), copy);
      pass.CallsLocked? && pass.calls == late && pass.now == PassOf(After(t), copy).now
  {
    var lock := LockCalls(copy, e.busyCalls + HeldCallIds(After(t)), late);
    OwnPlayed(t, lock);
    AfterStep(After(t), lock);
    OthersPlayed(HoldingCalls(t, copy, e, late), e.afterCalls);
    OthersLeaveThePass(After(HoldingCalls(t, copy, e, late)), e.afterCalls, copy);
  }

  /** A step that isn't this copy's leaves its pass where it is. */
  lemma {:induction false} OthersLeaveThePass(w: World, steps: seq<Step>, copy: Id)
    requires forall s :: s in steps ==> !Passing(s, copy)
    ensures PassOf(Run(w, steps), copy) == PassOf(w, copy)
    decreases |steps|
  {
    if steps != [] {
      OtherLeavesThePass(w, steps[0], copy);
      OthersLeaveThePass(Next(w, steps[0]), steps[1..], copy);
    }
  }

  lemma OtherLeavesThePass(w: World, s: Step, copy: Id)
    requires !Passing(s, copy)
    ensures PassOf(Next(w, s), copy) == PassOf(w, copy)
  {
    if Enabled(w, s) { AfterStep(w, s); } else { Disabled(w, s); }
  }

  /** A deadline pass times out the calls it picked when it commits, and else none. */
  lemma {:induction false} LateTimesOut(t: Trace, copy: Id, e: LateAround, drafts: set<Id>, late: set<Id>)
    requires Sound(Start(t)) && OthersOnly(e, copy) && Lawful(LateTrace(t, copy, e, drafts, late), copy)
    ensures Mine(LateTrace(t, copy, e, drafts, late)) == Mine(t) + LateCalls(e, late)
  {
    var held := HoldingDrafts(t, copy, e, drafts);
    HoldingTimesOutNothing(t, copy, e, drafts, late);
    HoldingTimesOutNothing(held, copy, e, drafts, late);
    if e.fault.AtSecond? {
      QuietOwn(held, AbortPass(copy));
    } else if !e.fault.AtFirst? && late != {} {
      var locked := Then(HoldingCalls(held, copy, e, late), Others(e.afterCalls));
      TheirsAfter(HoldingCalls(held, copy, e, late), e.afterCalls);
      if e.fault.Commits() {
        CommitTimesOut(held, copy, e, late);
      } else {
        QuietOwn(locked, AbortPass(copy));
      }
    }
  }

  lemma CommitIsLawful(held: Trace, copy: Id, e: LateAround, late: set<Id>)
    requires Lawful(Then(Then(HoldingCalls(held, copy, e, late), Others(e.afterCalls)), Own(CommitPass(copy))), copy)
    ensures Enabled(After(Then(HoldingCalls(held, copy, e, late), Others(e.afterCalls))), CommitPass(copy))
    ensures Enabled(After(held), LockCalls(copy, e.busyCalls + HeldCallIds(After(held)), late))
  {
    var taken := HoldingCalls(held, copy, e, late);
    OwnLawful(Then(taken, Others(e.afterCalls)), CommitPass(copy), copy);
    OthersLawful(taken, e.afterCalls, copy);
    OwnLawful(held, taken.stage.step, copy);
  }

  lemma CommitExpiresHeld(w: World, copy: Id)
    requires Sound(w) && Enabled(w, CommitPass(copy))
    ensures Expires(w, CommitPass(copy)) == PassOf(w, copy).HeldCalls()
  {
    StepWritesAllowed(w, CommitPass(copy));
    CommitExpires(w, CommitPass(copy));
  }

  lemma CommitTimesOut(held: Trace, copy: Id, e: LateAround, late: set<Id>)
    requires Sound(Start(held)) && OthersOnly(e, copy) && late != {}
    requires Lawful(Then(Then(HoldingCalls(held, copy, e, late), Others(e.afterCalls)), Own(CommitPass(copy))), copy)
    ensures var locked := Then(HoldingCalls(held, copy, e, late), Others(e.afterCalls));
      Mine(Then(locked, Own(CommitPass(copy)))) == Mine(locked) + late
  {
    var locked := Then(HoldingCalls(held, copy, e, late), Others(e.afterCalls));
    CommitIsLawful(held, copy, e, late);
    LockedCallsInPass(held, copy, e, late);
    TraceSound(locked);
    CommitExpiresHeld(After(locked), copy);
    MineAfter(locked, CommitPass(copy));
  }

  lemma LeasesExpire(w: World, s: Step)
    requires s.Leases? && Enabled(w, s)
    ensures Expires(w, s) == LastDeliveries(w.calls, s.ids)
  {
    assert s.ids <= LapsedTimes(w, s.now, s.busy).Keys;
    assert Writes(w, s) == map id | id in s.ids :: Lapse(s.now);
  }

  lemma LeaseTimesOut(t: Trace, copy: Id, e: LeaseAround, lapsed: set<Id>)
    requires Lawful(LeaseTrace(t, e, lapsed), copy)
    ensures Mine(LeaseTrace(t, e, lapsed)) == Mine(t) + LapsedCalls(t, e, lapsed)
  {
    if e.fault.Commits() {
      var s := Step.Leases(e.now, e.busy + HeldCallIds(After(t)), lapsed);
      OwnLawful(t, s, copy);
      LeasesExpire(After(t), s);
      MineAfter(t, s);
    }
  }

  lemma LawfulBefore(t: Trace, copy: Id)
    requires t.Then? && Lawful(t, copy)
    ensures Lawful(t.before, copy)
  {
    match t.stage
    case Own(s) => OwnLawful(t.before, s, copy);
    case Others(steps) => OthersLawful(t.before, steps, copy);
  }

  /** This copy's own statements time out exactly the sweep's calls. */
  lemma {:induction false} SweepTimesOut(t: Trace, copy: Id, settings: Settings, e: Around, p: Picks)
    requires Sound(Start(t)) && OthersOnlyAround(e, copy)
    requires Lawful(SweepTrace(t, copy, settings, e, p), copy)
    ensures Mine(SweepTrace(t, copy, settings, e, p)) == Mine(t) + SweepCalls(t, copy, settings, e, p)
  {
    FillTimesOutNothing(t, settings, e.fill, p.rows);
    if e.fill.fault.NoFault? {
      TheirsAfter(FillTrace(t, settings, e.fill, p.rows), e.afterFill);
      var ends := LateEnds(t, copy, settings, e, p);
      var begins := LeaseBegins(t, copy, settings, e, p);
      if !LateFails(e.late, p.late) {
        LeaseTimesOut(begins, copy, e.lease, p.lapsed);
        if e.lease.fault.Commits() { LawfulBefore(SweepTrace(t, copy, settings, e, p), copy); }
        LawfulBefore(begins, copy);
        TheirsAfter(ends, e.afterLate);
      }
      LateTimesOut(LateBegins(t, settings, e, p), copy, e.late, p.drafts, p.late);
    }
  }

  /**
   So after a sweep, however it went, the calls timed out by one are those
   that were before, those it reports or would have reported, and those
   others' steps timed out, with nothing twice.
   */
  lemma {:induction false} SweepAccounts(w: World, copy: Id, settings: Settings, e: Around, p: Picks)
    requires Sound(w) && OthersOnlyAround(e, copy) && Lawful(SweepTrace(Begin(w), copy, settings, e, p), copy)
    ensures var t := SweepTrace(Begin(w), copy, settings, e, p);
      Parts(SweptCalls(After(t).calls), SweptCalls(w.calls), SweepCalls(Begin(w), copy, settings, e, p), Theirs(t))
  {
    var t := SweepTrace(Begin(w), copy, settings, e, p);
    StartOfSweep(Begin(w), copy, settings, e, p);
    TraceAccounts(t, copy);
    SweepTimesOut(Begin(w), copy, settings, e, p);
  }

  lemma StartOfSweep(t: Trace, copy: Id, settings: Settings, e: Around, p: Picks)
    ensures Start(SweepTrace(t, copy, settings, e, p)) == Start(t)
  {
    StartOfLate(LateBegins(t, settings, e, p), copy, e.late, p.drafts, p.late);
    assert Start(LateBegins(t, settings, e, p)) == Start(FillTrace(t, settings, e.fill, p.rows)) == Start(t);
    assert Start(LeaseBegins(t, copy, settings, e, p)) == Start(LateEnds(t, copy, settings, e, p));
  }

  lemma StartOfLate(t: Trace, copy: Id, e: LateAround, drafts: set<Id>, late: set<Id>)
    ensures Start(LateTrace(t, copy, e, drafts, late)) == Start(t)
  {
    var held := HoldingDrafts(t, copy, e, drafts);
    assert Start(held) == Start(held.before) == Start(t);
    var taken := HoldingCalls(held, copy, e, late);
    assert Start(taken) == Start(held) && Start(Then(taken, Others(e.afterCalls))) == Start(taken);
  }

  /** Alone, others' steps time out nothing. */
  lemma {:induction false} AloneNothingIsTheirs(t: Trace)
    requires Undisturbed(t)
    ensures Theirs(t) == {}
  {
    if t.Then? {
      AloneNothingIsTheirs(t.before);
      match t.stage
      case Own(s) => MineAfter(t.before, s);
      case Others(steps) => TheirsAfter(t.before, []);
    }
  }

  /** Others did nothing meanwhile. */
  predicate Undisturbed(t: Trace) {
    t.Then? ==> Undisturbed(t.before) && (t.stage.Others? ==> t.stage.steps == [])
  }

  /** So alone, a sweep times out exactly its own calls. */
  lemma {:induction false} AloneSweepTimesOut(w: World, copy: Id, settings: Settings, e: Around, p: Picks)
    requires Sound(w) && Lawful(SweepTrace(Begin(w), copy, settings, e, p), copy)
    requires e.afterFill == [] && e.late.afterDrafts == [] && e.late.afterCalls == [] && e.afterLate == []
    ensures var mine := SweepCalls(Begin(w), copy, settings, e, p);
      && SweptCalls(After(SweepTrace(Begin(w), copy, settings, e, p)).calls) == SweptCalls(w.calls) + mine
      && SweptCalls(w.calls) !! mine
  {
    SweepAccounts(w, copy, settings, e, p);
    LateUndisturbed(LateBegins(Begin(w), settings, e, p), copy, e.late, p.drafts, p.late);
    assert Undisturbed(LateBegins(Begin(w), settings, e, p));
    assert Undisturbed(LeaseBegins(Begin(w), copy, settings, e, p));
    AloneNothingIsTheirs(SweepTrace(Begin(w), copy, settings, e, p));
  }

  lemma LateUndisturbed(t: Trace, copy: Id, e: LateAround, drafts: set<Id>, late: set<Id>)
    requires Undisturbed(t) && e.afterDrafts == [] && e.afterCalls == []
    ensures Undisturbed(LateTrace(t, copy, e, drafts, late))
  {
    var held := HoldingDrafts(t, copy, e, drafts);
    assert Undisturbed(held.before) && Undisturbed(held);
    assert Undisturbed(HoldingCalls(held, copy, e, late));
    assert Undisturbed(Then(HoldingCalls(held, copy, e, late), Others(e.afterCalls)));
  }

  // ─── What the passes leave of the rows ───────────────────

  /** `ids` have got the full deadline for their kind, and no other row changed. */
  predicate Deadlined(calls: map<Id, Call>, after: map<Id, Call>, ids: set<Id>, now: Time, settings: Settings,
                      hitl: set<Id>)
  {
    && after.Keys == calls.Keys
    && (forall id :: id in calls && id !in ids ==> after[id] == calls[id])
    && (forall id :: id in calls && id in ids ==>
          after[id] == calls[id].(expiresAt := Some(now + if id in hitl then settings.hitlTtl else settings.defaultTtl)))
  }

  lemma BackfillWrites(w: World, s: Step)
    requires s.Backfill?
    ensures Writes(w, s) ==
      map id | id in s.ids :: SetDeadline(s.now + if id in s.hitl then s.settings.hitlTtl else s.settings.defaultTtl)
  {}

  lemma RewrittenDeadlines(calls: map<Id, Call>, changes: map<Id, Change>, ids: set<Id>, now: Time,
                           settings: Settings, hitl: set<Id>)
    requires changes ==
      map id | id in ids :: SetDeadline(now + if id in hitl then settings.hitlTtl else settings.defaultTtl)
    ensures Deadlined(calls, Rewritten(calls, changes), ids, now, settings, hitl)
  {}

  lemma BackfillRows(w: World, s: Step)
    requires s.Backfill?
    ensures Deadlined(w.calls, CallsAfter(w, s), s.ids, s.now, s.settings, s.hitl)
  {
    BackfillWrites(w, s);
    RewrittenDeadlines(w.calls, Writes(w, s), s.ids, s.now, s.settings, s.hitl);
  }

  /**
   A backfill that commits, heard of or not, gives a batch of the open rows
   nobody holds their deadline; one that doesn't changes nothing.
   */
  lemma FillLeaves(t: Trace, copy: Id, settings: Settings, e: FillAround, rows: set<Id>)
    requires Lawful(FillTrace(t, settings, e, rows), copy)
    ensures var w, v := After(t), After(FillTrace(t, settings, e, rows));
      if e.fault.Commits() then
        && IsBatch(NeedsDeadline(w) - (e.busy + HeldCallIds(w)), BACKFILL_BATCH, rows)
        && Deadlined(w.calls, v.calls, rows, e.now, settings, e.hitl)
      else v == w
  {
    if e.fault.Commits() {
      var s := Step.Backfill(e.now, settings, e.hitl, e.busy + HeldCallIds(After(t)), rows);
      OwnLawful(t, s, copy);
      OwnPlayed(t, s);
      BackfillRows(After(t), s);
      AfterStep(After(t), s);
    }
  }

  /** The drafts and calls a deadline pass has locked. */
  lemma {:induction false} LockedDraftsInPass(t: Trace, copy: Id, e: LateAround, drafts: set<Id>)
    requires PassOf(After(t), copy).Idle? && OthersOnly(e, copy) && Lawful(HoldingDrafts(t, copy, e, drafts), copy)
    ensures PassOf(After(HoldingDrafts(t, copy, e, drafts)), copy) == DraftsLocked(e.now, drafts)
  {
    var lock := LockDrafts(copy, e.now, e.busyDrafts + HeldDraftIds(After(t)), drafts);
    OthersLawful(Then(t, Own(lock)), e.afterDrafts, copy);
    OwnLawful(t, lock, copy);
    OwnPlayed(t, lock);
    AfterStep(After(t), lock);
    OthersPlayed(Then(t, Own(lock)), e.afterDrafts);
    OthersLeaveThePass(After(Then(t, Own(lock))), e.afterDrafts, copy);
  }

  /** `late` is a batch of the longest overdue nobody holds, whose drafts, if any, the pass holds. */
  predicate OldestDue(w: World, e: LateAround, drafts: set<Id>, late: set<Id>) {
    IsOldestBatch(EligibleTimes(w, e.now, drafts, e.busyCalls + HeldCallIds(w)), BATCH, late)
  }

  lemma LateIsLawful(t: Trace, copy: Id, e: LateAround, drafts: set<Id>, late: set<Id>)
    requires Lawful(LateTrace(t, copy, e, drafts, late), copy) && e.fault.Commits() && late != {}
    ensures Lawful(HoldingDrafts(t, copy, e, drafts), copy)
    ensures var locked := Then(HoldingCalls(HoldingDrafts(t, copy, e, drafts), copy, e, late), Others(e.afterCalls));
      Lawful(Then(locked, Own(CommitPass(copy))), copy)
  {
    var taken := HoldingCalls(HoldingDrafts(t, copy, e, drafts), copy, e, late);
    LawfulBefore(LateTrace(t, copy, e, drafts, late), copy);
    LawfulBefore(Then(taken, Others(e.afterCalls)), copy);
    LawfulBefore(taken, copy);
  }

  lemma CommitLeaves(held: Trace, copy: Id, e: LateAround, late: set<Id>)
    requires Sound(Start(held)) && PassOf(After(held), copy).DraftsLocked? && OthersOnly(e, copy) && late != {}
    requires Lawful(Then(Then(HoldingCalls(held, copy, e, late), Others(e.afterCalls)), Own(CommitPass(copy))), copy)
    ensures var locked := Then(HoldingCalls(held, copy, e, late), Others(e.afterCalls));
      TimedOutExactly(After(locked).calls, After(Then(locked, Own(CommitPass(copy)))).calls,
                      PassOf(After(held), copy).now, late)
  {
    var locked := Then(HoldingCalls(held, copy, e, late), Others(e.afterCalls));
    CommitIsLawful(held, copy, e, late);
    LockedCallsInPass(held, copy, e, late);
    TraceSound(locked);
    OwnPlayed(locked, CommitPass(copy));
    HeldTimeOut(After(locked), copy);
  }

  lemma HeldTimeOut(w: World, copy: Id)
    requires Sound(w) && PassOf(w, copy).CallsLocked?
    ensures TimedOutExactly(w.calls, Next(w, CommitPass(copy)).calls, PassOf(w, copy).now, PassOf(w, copy).HeldCalls())
  {
    CommitEffect(w, copy);
  }

  lemma PickIsOldestDue(held: Trace, copy: Id, e: LateAround, drafts: set<Id>, late: set<Id>)
    requires PassOf(After(held), copy) == DraftsLocked(e.now, drafts)
    requires Enabled(After(held), LockCalls(copy, e.busyCalls + HeldCallIds(After(held)), late))
    ensures OldestDue(After(held), e, drafts, late)
  {}

  /** A deadline pass that commits, heard of or not, times out those rows and changes no other. */
  lemma {:induction false} LateLeaves(t: Trace, copy: Id, e: LateAround, drafts: set<Id>, late: set<Id>)
    requires Sound(Start(t)) && PassOf(After(t), copy).Idle? && OthersOnly(e, copy)
    requires Lawful(LateTrace(t, copy, e, drafts, late), copy) && e.fault.Commits() && late != {}
    ensures var held := HoldingDrafts(t, copy, e, drafts);
      var locked := Then(HoldingCalls(held, copy, e, late), Others(e.afterCalls));
      && OldestDue(After(held), e, drafts, late)
      && TimedOutExactly(After(locked).calls, After(LateTrace(t, copy, e, drafts, late)).calls, e.now, late)
  {
    var held := HoldingDrafts(t, copy, e, drafts);
    LateIsLawful(t, copy, e, drafts, late);
    LockedDraftsInPass(t, copy, e, drafts);
    CommitIsLawful(held, copy, e, late);
    PickIsOldestDue(held, copy, e, drafts, late);
    CommitLeaves(held, copy, e, late);
  }

  /** Those on their last delivery have timed out, the others are pending again, and no other row changed. */
  predicate Returned(calls: map<Id, Call>, after: map<Id, Call>, ids: set<Id>) {
    && after.Keys == calls.Keys
    && (forall id :: id in calls && id !in ids ==> after[id] == calls[id])
    && (forall id :: id in calls && id in ids ==>
          if calls[id].deliveries >= 3 then
            after[id].status.Timeout? && after[id].swept && after[id].error == Some("claimed 3 times, never answered")
          else
            after[id].status.Pending? && after[id].claimedAt.None? && after[id].leaseUntil.None?
            && after[id].deliveries == calls[id].deliveries)
  }

  lemma LapseWrites(w: World, s: Step)
    requires s.Leases?
    ensures Writes(w, s) == map id | id in s.ids :: Lapse(s.now)
  {}

  lemma RewrittenLapses(calls: map<Id, Call>, changes: map<Id, Change>, ids: set<Id>, now: Time)
    requires changes == map id | id in ids :: Lapse(now)
    ensures Returned(calls, Rewritten(calls, changes), ids)
  {}

  lemma LapsedRows(w: World, s: Step)
    requires s.Leases?
    ensures Returned(w.calls, CallsAfter(w, s), s.ids)
  {
    LapseWrites(w, s);
    RewrittenLapses(w.calls, Writes(w, s), s.ids, s.now);
  }

  /** A lease pass that commits, heard of or not, returns the oldest lapsed claims; one that doesn't changes nothing. */
  lemma LeaseLeaves(t: Trace, copy: Id, e: LeaseAround, lapsed: set<Id>)
    requires Lawful(LeaseTrace(t, e, lapsed), copy)
    ensures var w, v := After(t), After(LeaseTrace(t, e, lapsed));
      if e.fault.Commits() then
        LongestLapsed(w, e, lapsed) && Returned(w.calls, v.calls, lapsed)
      else v == w
  {
    if e.fault.Commits() {
      var s := Step.Leases(e.now, e.busy + HeldCallIds(After(t)), lapsed);
      OwnLawful(t, s, copy);
      OwnPlayed(t, s);
      LapsedRows(After(t), s);
      AfterStep(After(t), s);
    }
  }
}
