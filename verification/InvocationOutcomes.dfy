/**
 What each step on a call makes of it, column by column, and what its caller
 is then shown, for as long as it stands.
 */
module InvocationOutcomes {
  import opened Prelude
  import opened Batches
  import opened InvocationRows
  import opened InvocationRelay
  import opened DeadlinePass
  import opened InvocationTasks

  /** Only this row changed, and only to `d`. */
  predicate RowBecomes(w: World, v: World, id: Id, d: Call) {
    id in w.calls && v.calls == w.calls[id := d]
  }

  lemma RewrittenOne(calls: map<Id, Call>, id: Id, k: Change)
    requires id in calls
    ensures Rewritten(calls, map[id := k]) == calls[id := Changed(calls[id], k)]
  {}

  lemma RewrittenNone(calls: map<Id, Call>)
    ensures Rewritten(calls, map[]) == calls
  {}

  lemma OneWrite(w: World, s: Step, id: Id, k: Change)
    requires Enabled(w, s) && !s.Insert? && Writes(w, s) == map[id := k] && id in w.calls
    ensures RowBecomes(w, Next(w, s), id, Changed(w.calls[id], k))
  {
    AfterStep(w, s);
    RewrittenOne(w.calls, id, k);
  }

  // ─── Answers ─────────────────────────────────────────────

  /** `c` settled with `r`; the rest as it was, but for how long it took, a claim and a lease. */
  predicate AnsweredWith(c: Call, d: Call, r: Reply) {
    && d.status == (if r.succeeded then Status.Succeeded else Status.Failed)
    && d.error == r.error
    && d.output == Some(if r.output.Some? then r.output.value else "null")
    && d.agent == c.agent && d.caller == c.caller && d.conversation == c.conversation
    && d.createdAt == c.createdAt && d.expiresAt == c.expiresAt
    && d.lapses == c.lapses && d.swept == c.swept
  }

  /** How long it took, within a 32-bit column and not below 0. */
  function Millis(took: int): int {
    if took < 0 then 0 else if took > 2147483647 then 2147483647 else took
  }

  /** A pull's result is taken for a claimed call, or one claimed before and handed back by its lease. */
  lemma ResultTakenIff(w: World, id: Id, r: Reply, now: Time)
    ensures Enabled(w, PostResult(id, r, now)) <==>
      && Free(w, id)
      && (w.calls[id].status.InProgress? || (w.calls[id].status.Pending? && w.calls[id].deliveries > 0))
  {}

  /** It settles the call with just that, and nothing else changes. */
  lemma ResultSettles(w: World, id: Id, r: Reply, now: Time)
    requires Enabled(w, PostResult(id, r, now))
    ensures var v := Next(w, PostResult(id, r, now));
      && id in w.calls && id in v.calls && v.calls == w.calls[id := v.calls[id]] && v.drafts == w.drafts
      && AnsweredWith(w.calls[id], v.calls[id], r)
      && v.calls[id].claimedAt == w.calls[id].claimedAt && v.calls[id].deliveries == w.calls[id].deliveries
      && v.calls[id].leaseUntil.None?
      && v.calls[id].elapsedMs == Millis(now - w.calls[id].createdAt)
  {
    OneWrite(w, PostResult(id, r, now), id, Finish(r, now));
    AfterStep(w, PostResult(id, r, now));
  }

  /** A draft is confirmed while it stands as it was shown, and its call is claimed. */
  lemma ConfirmedIff(w: World, id: Id, shown: Reply, now: Time)
    ensures Enabled(w, ConfirmDraft(id, shown, now)) <==>
      && Free(w, id) && w.calls[id].status.InProgress?
      && id in w.drafts && w.drafts[id].status.DraftPending? && !DraftHeld(w, id)
      && w.drafts[id].reply == shown && now < w.drafts[id].expiresAt
  {}

  /** It settles the call with what was shown, and the draft is approved. */
  lemma ConfirmSettles(w: World, id: Id, shown: Reply, now: Time)
    requires Enabled(w, ConfirmDraft(id, shown, now))
    ensures var v := Next(w, ConfirmDraft(id, shown, now));
      && id in w.calls && id in v.calls && v.calls == w.calls[id := v.calls[id]]
      && AnsweredWith(w.calls[id], v.calls[id], shown)
      && v.calls[id].claimedAt == w.calls[id].claimedAt && v.calls[id].deliveries == w.calls[id].deliveries
      && id in w.drafts && v.drafts == w.drafts[id := w.drafts[id].(status := DraftStatus.Approved)]
  {
    OneWrite(w, ConfirmDraft(id, shown, now), id, Confirm(shown, now));
    AfterStep(w, ConfirmDraft(id, shown, now));
  }

  /** An owner answers a call in the feed or claimed, unless its draft was decided. */
  lemma OwnerAnswersIff(w: World, id: Id, r: Reply, now: Time)
    ensures Enabled(w, OwnerAnswers(id, r, now)) <==>
      && Free(w, id) && (w.calls[id].status.Pending? || w.calls[id].status.InProgress?)
      && (id in w.drafts ==> w.drafts[id].status.DraftPending? && !DraftHeld(w, id))
  {}

  /** It settles the call with just that; one in the feed counts as claimed first. */
  lemma OwnerSettles(w: World, id: Id, r: Reply, now: Time)
    requires Enabled(w, OwnerAnswers(id, r, now))
    ensures var v := Next(w, OwnerAnswers(id, r, now));
      && id in w.calls && id in v.calls && v.calls == w.calls[id := v.calls[id]]
      && AnsweredWith(w.calls[id], v.calls[id], r)
      && (w.calls[id].status.Pending? ==>
            v.calls[id].claimedAt == Some(now) && v.calls[id].deliveries == w.calls[id].deliveries + 1)
      && (w.calls[id].status.InProgress? ==>
            v.calls[id].claimedAt == w.calls[id].claimedAt && v.calls[id].deliveries == w.calls[id].deliveries)
      && id in v.drafts && v.drafts == w.drafts[id := v.drafts[id]]
      && v.drafts[id].status.Approved? && v.drafts[id].reply == r
  {
    OneWrite(w, OwnerAnswers(id, r, now), id, AnswerAsOwner(r, now));
    AfterStep(w, OwnerAnswers(id, r, now));
  }

  /** `s` answers `id` with `r`. */
  predicate Answers(s: Step, id: Id, r: Reply) {
    (s.PostResult? && s.id == id && s.reply == r)
    || (s.ConfirmDraft? && s.id == id && s.shown == r)
    || (s.OwnerAnswers? && s.id == id && s.reply == r)
  }

  lemma AnswerSettles(w: World, s: Step, id: Id, r: Reply)
    requires Answers(s, id, r) && Enabled(w, s)
    ensures id in w.calls && id in Next(w, s).calls && AnsweredWith(w.calls[id], Next(w, s).calls[id], r)
  {
    if s.PostResult? { ResultSettles(w, id, r, s.now); }
    else if s.ConfirmDraft? { ConfirmSettles(w, id, r, s.now); }
    else { OwnerSettles(w, id, r, s.now); }
  }

  // ─── What the caller is shown ────────────────────────────

  /** The state each status is shown as. */
  lemma ShownState(calls: map<Id, Call>, id: Id, caller: Id)
    requires id in calls && calls[id].caller == Some(caller)
    ensures GetTask(calls, id, caller).Ok?
    ensures var c, t := calls[id], GetTask(calls, id, caller).value;
      && (t.state == "submitted" <==> c.status.Pending?)
      && (t.state == "auth-required" <==> c.status.AwaitingConsent?)
      && (t.state == "working" <==> c.status.InProgress?)
      && (t.state == "completed" <==> c.status.Succeeded?)
      && (t.state == "rejected" <==> c.status.Rejected?)
      && (t.state == "failed" <==> c.status.Failed? || c.status.Timeout?)
      && t.message == (if c.status.AwaitingConsent? then Some("Waiting for the owner's approval") else c.error)
      && t.artifacts == (if c.status.Succeeded? && c.output.Some? then [c.output.value] else [])
  {
    var t := View(calls[id]);
    assert t.state[0] == match calls[id].status
      case Pending => 's' case AwaitingConsent => 'a' case InProgress => 'w' case Succeeded => 'c'
      case Failed => 'f' case Rejected => 'r' case Timeout => 'f';
  }

  /** Nobody but its caller is shown anything. */
  lemma ShownToItsCaller(calls: map<Id, Call>, id: Id, caller: Id)
    ensures GetTask(calls, id, caller).Ok? <==> id in calls && calls[id].caller == Some(caller)
    ensures id !in calls ==> GetTask(calls, id, caller) == Err(NotFound)
    ensures id in calls && calls[id].caller != Some(caller) ==> GetTask(calls, id, caller) == Err(NotYourTask)
  {}

  /** The task shown for `r`: "completed" with exactly its output, or "failed" with its error. */
  function Shown(r: Reply): Task {
    if r.succeeded then Task("completed", r.error, [if r.output.Some? then r.output.value else "null"])
    else Task("failed", r.error, [])
  }

  /** What is left of it on show once its conversation's content is purged. */
  function Purged(r: Reply): Task {
    Task(if r.succeeded then "completed" else "failed",
         if r.error == Some("call content deleted") then r.error else None, [])
  }

  lemma AnsweredIsShown(calls: map<Id, Call>, c: Call, id: Id, caller: Id, r: Reply)
    requires id in calls && AnsweredWith(c, calls[id], r) && c.caller == Some(caller)
    ensures GetTask(calls, id, caller) == Ok(Shown(r))
  {}

  lemma PurgedIsShown(calls: map<Id, Call>, c: Call, d: Call, id: Id, caller: Id, r: Reply)
    requires AnsweredWith(c, d, r) && c.caller == Some(caller) && id in calls && calls[id] == Changed(d, Purge)
    ensures GetTask(calls, id, caller) == Ok(Purged(r))
  {}

  /**
   The first answer is what its caller is shown, by every poll of every run
   from there on: all of it, or, for a call made in a conversation, what is
   left after a purge.
   */
  lemma {:induction false} AnswerIsShownForGood(w: World, s: Step, more: seq<Step>, id: Id, caller: Id, r: Reply)
    requires LocksOk(w) && Enabled(w, s) && Answers(s, id, r) && id in w.calls && w.calls[id].caller == Some(caller)
    ensures var t := GetTask(Run(Next(w, s), more).calls, id, caller);
      t == Ok(Shown(r)) || (w.calls[id].conversation.Some? && t == Ok(Purged(r)))
  {
    var v := Next(w, s);
    AnswerSettles(w, s, id, r);
    StepKeepsLocks(w, s);
    SettledForGood(v, more, id);
    var e := Run(v, more);
    if e.calls[id] == v.calls[id] {
      AnsweredIsShown(e.calls, w.calls[id], id, caller, r);
    } else {
      PurgedIsShown(e.calls, w.calls[id], v.calls[id], id, caller, r);
    }
  }

  // ─── Who answered ────────────────────────────────────────

  /** Some step of the run answered `id` with `r`. */
  predicate AnsweredIn(w: World, steps: seq<Step>, id: Id, r: Reply)
    decreases |steps|
  {
    steps != [] &&
    ((Enabled(w, steps[0]) && Answers(steps[0], id, r)) || AnsweredIn(Next(w, steps[0]), steps[1..], id, r))
  }

  /** The answer a step gives, if it gives one. */
  function AnswerOf(s: Step): Reply {
    match s
    case PostResult(_, r, _) => r
    case ConfirmDraft(_, r, _) => r
    case OwnerAnswers(_, r, _) => r
    case _ => Reply(false, None, None)
  }

  lemma WriteOf(w: World, s: Step, id: Id)
    requires Enabled(w, s) && id in w.calls && !s.Insert?
    ensures id in Next(w, s).calls
    ensures Next(w, s).calls[id] ==
      if id in Writes(w, s) then Changed(w.calls[id], Writes(w, s)[id]) else w.calls[id]
  {
    AfterStep(w, s);
  }

  /** The change an answer makes. */
  predicate IsAnswer(k: Change) {
    k.Finish? || k.Confirm? || k.AnswerAsOwner?
  }

  lemma OnlyAnswersSucceed(c: Call, k: Change)
    requires !c.status.Settled() && Changed(c, k).status.Succeeded?
    ensures IsAnswer(k) && k.reply.succeeded
  {}

  lemma AnswersWrite(w: World, s: Step, id: Id)
    requires Enabled(w, s) && id in Writes(w, s) && IsAnswer(Writes(w, s)[id])
    ensures Answers(s, id, AnswerOf(s)) && AnswerOf(s) == Writes(w, s)[id].reply
  {}

  lemma InsertLeaves(w: World, s: Step, id: Id)
    requires Enabled(w, s) && s.Insert? && id in w.calls
    ensures id in Next(w, s).calls && Next(w, s).calls[id] == w.calls[id]
  {
    AfterStep(w, s);
  }

  /** A call succeeds in one step only by an answer that did. */
  lemma SucceedsByAnAnswer(w: World, s: Step, id: Id)
    requires Enabled(w, s) && id in w.calls && !w.calls[id].status.Settled()
    ensures id in Next(w, s).calls
    ensures Next(w, s).calls[id].status.Succeeded? ==> Answers(s, id, AnswerOf(s)) && AnswerOf(s).succeeded
  {
    if s.Insert? {
      InsertLeaves(w, s, id);
    } else {
      WriteOf(w, s, id);
      if id in Writes(w, s) { WriteSucceeds(w, s, id); }
    }
  }

  lemma WriteSucceeds(w: World, s: Step, id: Id)
    requires Enabled(w, s) && id in w.calls && !w.calls[id].status.Settled() && id in Writes(w, s)
    ensures Changed(w.calls[id], Writes(w, s)[id]).status.Succeeded? ==>
      Answers(s, id, AnswerOf(s)) && AnswerOf(s).succeeded
  {
    if Changed(w.calls[id], Writes(w, s)[id]).status.Succeeded? {
      OnlyAnswersSucceed(w.calls[id], Writes(w, s)[id]);
      AnswersWrite(w, s, id);
    }
  }

  /**
   And no answer is made up: in every run, a call that wasn't settled and
   then has succeeded was answered in it, and its caller is shown that answer.
   */
  lemma {:induction false} SuccessWasAnswered(w: World, steps: seq<Step>, id: Id, caller: Id) returns (r: Reply)
    requires LocksOk(w) && id in w.calls && w.calls[id].caller == Some(caller) && !w.calls[id].status.Settled()
    requires id in Run(w, steps).calls && Run(w, steps).calls[id].status.Succeeded?
    ensures AnsweredIn(w, steps, id, r) && r.succeeded
    ensures var t := GetTask(Run(w, steps).calls, id, caller);
      t == Ok(Shown(r)) || (w.calls[id].conversation.Some? && t == Ok(Purged(r)))
    decreases |steps|
  {
    if steps == [] { assert false; }
    var v := Next(w, steps[0]);
    StepKeepsLocks(w, steps[0]);
    StepEvolves(w, steps[0], id);
    if v.calls[id].status.Settled() {
      SettlesEnabled(w, steps[0], id);
      SettledForGood(v, steps[1..], id);
      SucceedsByAnAnswer(w, steps[0], id);
      r := AnswerOf(steps[0]);
      AnswerIsShownForGood(w, steps[0], steps[1..], id, caller, r);
    } else {
      r := SuccessWasAnswered(v, steps[1..], id, caller);
    }
  }

  lemma SettlesEnabled(w: World, s: Step, id: Id)
    requires id in w.calls && id in Next(w, s).calls && Next(w, s).calls[id] != w.calls[id]
    ensures Enabled(w, s)
  {
    if !Enabled(w, s) { Disabled(w, s); }
  }

  // ─── Every other step on a call ──────────────────────────

  /** A claim takes a call out of the feed, counts it, and sets its lease if the pull gave one. */
  lemma PullClaims(w: World, id: Id, now: Time, lease: Option<nat>)
    ensures Enabled(w, Pull(id, now, lease)) <==> Free(w, id) && w.calls[id].status.Pending?
    ensures Enabled(w, Pull(id, now, lease)) ==>
      var c := w.calls[id];
      RowBecomes(w, Next(w, Pull(id, now, lease)), id,
                 c.(status := InProgress, claimedAt := Some(now), deliveries := c.deliveries + 1,
                    leaseUntil := if lease.Some? then Some(now + lease.value) else None))
  {
    if Enabled(w, Pull(id, now, lease)) { OneWrite(w, Pull(id, now, lease), id, Claim(now, lease)); }
  }

  /** A claim handed back is undone, so it doesn't count; a drafted reply keeps it. */
  lemma HandBackUnclaims(w: World, id: Id)
    ensures Enabled(w, HandBack(id)) <==> Free(w, id) && w.calls[id].status.InProgress? && !HasPendingDraft(w, id)
    ensures Enabled(w, HandBack(id)) ==>
      var c := w.calls[id];
      RowBecomes(w, Next(w, HandBack(id)), id,
                 c.(status := Pending, claimedAt := None, leaseUntil := None,
                    deliveries := if c.deliveries > 0 then c.deliveries - 1 else 0))
  {
    if Enabled(w, HandBack(id)) { OneWrite(w, HandBack(id), id, Release); }
  }

  lemma PullLeaves(w: World, id: Id, now: Time, lease: Option<nat>)
    requires Enabled(w, Pull(id, now, lease))
    ensures Next(w, Pull(id, now, lease)).passes == w.passes && Next(w, Pull(id, now, lease)).drafts == w.drafts
  {
    AfterStep(w, Pull(id, now, lease));
  }

  /** So a claim handed back at once leaves the call as it was in the feed. */
  lemma ClaimThenHandBack(w: World, id: Id, now: Time, lease: Option<nat>)
    requires Enabled(w, Pull(id, now, lease)) && RowOk(w.calls[id]) && !HasPendingDraft(w, id)
    ensures Next(Next(w, Pull(id, now, lease)), HandBack(id)).calls == w.calls
  {
    var v := Next(w, Pull(id, now, lease));
    PullClaims(w, id, now, lease);
    PullLeaves(w, id, now, lease);
    HandBackUnclaims(v, id);
    assert v.calls[id := w.calls[id]] == w.calls;
  }

  /** Consent starts the clock anew, for as long as was asked. */
  lemma ApprovalReleases(w: World, id: Id, now: Time)
    ensures Enabled(w, ApproveRequest(id, now)) <==> Free(w, id) && w.calls[id].status.AwaitingConsent?
    ensures Enabled(w, ApproveRequest(id, now)) ==>
      var c := w.calls[id];
      RowBecomes(w, Next(w, ApproveRequest(id, now)), id,
                 c.(status := Pending,
                    expiresAt := if c.expiresAt.Some? then Some(now + c.expiresAt.value - c.createdAt) else None))
  {
    if Enabled(w, ApproveRequest(id, now)) { OneWrite(w, ApproveRequest(id, now), id, Change.Approve(now)); }
  }

  lemma RefusalRejects(w: World, id: Id, why: string)
    ensures Enabled(w, RejectRequest(id, why)) <==> Free(w, id) && w.calls[id].status.AwaitingConsent?
    ensures Enabled(w, RejectRequest(id, why)) ==>
      RowBecomes(w, Next(w, RejectRequest(id, why)), id, w.calls[id].(status := Rejected, error := Some(why)))
  {
    if Enabled(w, RejectRequest(id, why)) { OneWrite(w, RejectRequest(id, why), id, Reject(why)); }
  }

  /** A decided draft: denied or run out, it fails the call it was for if that is still claimed. */
  lemma DraftFails(w: World, s: Step, id: Id)
    requires (s.DenyDraft? || s.ExpireDraft?) && s.id == id
    ensures Enabled(w, s) <==>
      && Free(w, id) && id in w.drafts && w.drafts[id].status.DraftPending? && !DraftHeld(w, id)
      && (s.DenyDraft? <==> s.now < w.drafts[id].expiresAt)
    ensures Enabled(w, s) ==>
      var v, c := Next(w, s), w.calls[id];
      && v.drafts == w.drafts[id := w.drafts[id].(status := if s.DenyDraft? then Denied else DraftStatus.Expired)]
      && id in v.calls && v.calls == w.calls[id := v.calls[id]]
      && (!c.status.InProgress? ==> v.calls[id] == c)
      && (c.status.InProgress? ==>
            && v.calls[id].status == Status.Failed && v.calls[id].output == c.output
            && v.calls[id].error == Some(if s.DenyDraft? then s.why else "Reply not confirmed in time"))
  {
    if Enabled(w, s) {
      AfterStep(w, s);
      if w.calls[id].status.InProgress? {
        OneWrite(w, s, id, FailDraft(if s.DenyDraft? then s.why else "Reply not confirmed in time", s.now));
      } else {
        NoWrite(w, s);
      }
    }
  }

  lemma NoWrite(w: World, s: Step)
    requires Enabled(w, s) && !s.Insert? && Writes(w, s) == map[]
    ensures Next(w, s).calls == w.calls
  {
    AfterStep(w, s);
    RewrittenNone(w.calls);
  }

  /** A revoked grant rejects what is queued under it; an error it had stays. */
  lemma RevokeRejects(w: World, ids: set<Id>, id: Id)
    requires Enabled(w, Revoke(ids)) && id in w.calls
    ensures id in Next(w, Revoke(ids)).calls
    ensures var c, d := w.calls[id], Next(w, Revoke(ids)).calls[id];
      if id in ids then
        && (c.status.Pending? || c.status.AwaitingConsent?)
        && d == c.(status := Rejected, error := if c.error.Some? then c.error else Some("grant revoked while queued"))
      else d == c
  {
    WriteOf(w, Revoke(ids), id);
  }

  /** A conversation that closes fails its open calls, and rejects those held for consent. */
  lemma CloseSettles(w: World, ids: set<Id>, now: Time, id: Id)
    requires Enabled(w, CloseConversation(ids, now)) && id in w.calls
    ensures id in Next(w, CloseConversation(ids, now)).calls
    ensures var c, d := w.calls[id], Next(w, CloseConversation(ids, now)).calls[id];
      if id in ids then
        && !c.status.Settled() && d.error == Some("call content deleted") && d.output == c.output
        && d.status == (if c.status.AwaitingConsent? then Rejected else Status.Failed)
      else d == c
  {
    WriteOf(w, CloseConversation(ids, now), id);
  }

  /** A deleted capability rejects the requests held for it. */
  lemma DeletionRejects(w: World, drafts: set<Id>, requests: set<Id>, why: string, id: Id)
    requires Enabled(w, DeleteCapability(drafts, requests, why)) && id in w.calls
    ensures id in Next(w, DeleteCapability(drafts, requests, why)).calls
    ensures var c := w.calls[id];
      Next(w, DeleteCapability(drafts, requests, why)).calls[id] ==
        if id in requests then c.(status := Rejected, error := Some(why)) else c
    ensures id in requests ==> w.calls[id].status.AwaitingConsent?
  {
    WriteOf(w, DeleteCapability(drafts, requests, why), id);
  }

  /** Each of the three cancels the pending drafts among those it names, and no other. */
  lemma CancelsDrafts(w: World, s: Step, id: Id)
    requires Enabled(w, s) && id in w.drafts && (s.Revoke? || s.CloseConversation? || s.DeleteCapability?)
    ensures id in Next(w, s).drafts
    ensures Next(w, s).drafts[id] ==
      if w.drafts[id].status.DraftPending? && id in (if s.DeleteCapability? then s.drafts else s.ids)
      then w.drafts[id].(status := Cancelled) else w.drafts[id]
  {
    AfterStep(w, s);
  }

  /** A purge clears a call's output, and its error unless that says it was purged; the rest stays. */
  lemma PurgeClearsContent(w: World, ids: set<Id>, id: Id)
    requires Enabled(w, PurgeConversation(ids)) && id in w.calls
    ensures id in Next(w, PurgeConversation(ids)).calls
    ensures var c := w.calls[id];
      Next(w, PurgeConversation(ids)).calls[id] ==
        if id in ids then
          c.(output := None, error := if c.error == Some("call content deleted") then c.error else None)
        else c
  {
    WriteOf(w, PurgeConversation(ids), id);
  }

  /** Open, and past its deadline. */
  predicate Overdue(c: Call, now: Time) {
    (c.status.Pending? || c.status.InProgress?) && c.expiresAt.Some? && c.expiresAt.value < now
  }

  /** What a pass holds at its commit is open and overdue. */
  lemma HeldAreDue(w: World, copy: Id, id: Id)
    requires PassesOk(w) && PassOf(w, copy).CallsLocked? && id in PassOf(w, copy).calls
    ensures id in w.calls && Overdue(w.calls[id], PassOf(w, copy).now)
  {
    assert PassOk(w, w.passes[copy]);
  }

  /** `c` timed out as not answered, or not picked up. */
  predicate TimedOutRow(c: Call, d: Call) {
    && d.status.Timeout? && d.swept && d.leaseUntil.None? && d.claimedAt == c.claimedAt && d.output == c.output
    && d.error == Some(if c.claimedAt.Some? then "picked up, never answered"
                       else "not picked up before its deadline")
  }

  lemma TimeOutRow(calls: map<Id, Call>, after: map<Id, Call>, now: Time, ids: set<Id>, id: Id)
    requires TimedOutExactly(calls, after, now, ids) && id in calls
    ensures id in after && if id in ids then TimedOutRow(calls[id], after[id]) else after[id] == calls[id]
  {}

  /** A deadline pass's commit times out each call it holds, and no other changes. */
  lemma CommitTimesOutRow(w: World, copy: Id, id: Id)
    requires PassesOk(w) && PassOf(w, copy).CallsLocked? && id in w.calls
    ensures var after, ids := Next(w, CommitPass(copy)).calls, PassOf(w, copy).calls;
      id in after && if id in ids then TimedOutRow(w.calls[id], after[id]) else after[id] == w.calls[id]
  {
    CommitEffect(w, copy);
    TimeOutRow(w.calls, Next(w, CommitPass(copy)).calls, w.passes[copy].now, w.passes[copy].calls, id);
  }

  /** A drafted reply stands in for the one before, until that is decided or a pass holds it. */
  lemma DraftStored(w: World, id: Id, r: Reply, expiresAt: Time)
    ensures Enabled(w, PostDraft(id, r, expiresAt)) <==>
      id in w.calls && (id in w.drafts ==> w.drafts[id].status.DraftPending? && !DraftHeld(w, id))
    ensures Enabled(w, PostDraft(id, r, expiresAt)) ==>
      var v := Next(w, PostDraft(id, r, expiresAt));
      v.calls == w.calls && v.drafts == w.drafts[id := Draft(DraftPending, r, expiresAt)]
  {
    if Enabled(w, PostDraft(id, r, expiresAt)) {
      NoWrite(w, PostDraft(id, r, expiresAt));
      AfterStep(w, PostDraft(id, r, expiresAt));
    }
  }

  // ─── What the sweep's statements pick ────────────────────

  lemma BatchSays(candidates: set<Id>, limit: nat, ids: set<Id>, other: Id)
    requires IsBatch(candidates, limit, ids)
    ensures ids <= candidates && |ids| <= limit && (other in candidates && other !in ids ==> |ids| == limit)
  {
    CardinalityOfSubset(ids, candidates);
  }

  lemma OldestBatchSays(times: map<Id, Time>, limit: nat, ids: set<Id>, id: Id, other: Id)
    requires IsOldestBatch(times, limit, ids)
    ensures ids <= times.Keys && |ids| <= limit && (other in times && other !in ids ==> |ids| == limit)
    ensures id in ids && other in times && other !in ids ==> times[id] <= times[other]
  {
    BatchSays(times.Keys, limit, ids, other);
    if id in ids && other in times && other !in ids { assert other in times.Keys - ids; }
  }

  /** Open, without a deadline, and nobody holds it. */
  predicate Undated(w: World, s: Step, id: Id)
    requires s.Backfill?
  {
    && id in w.calls && (w.calls[id].status.Pending? || w.calls[id].status.InProgress?)
    && w.calls[id].expiresAt.None? && id !in s.busy
  }

  /** Up to 1000 such calls, in no order. */
  lemma BackfillPicks(w: World, s: Step, id: Id, other: Id)
    requires s.Backfill? && Enabled(w, s)
    ensures (id in s.ids ==> Undated(w, s, id)) && |s.ids| <= 1000
    ensures Undated(w, s, other) && other !in s.ids ==> |s.ids| == 1000
  {
    BatchSays(NeedsDeadline(w) - s.busy, BACKFILL_BATCH, s.ids, other);
  }

  /** A pending draft of an overdue call that nobody holds. */
  predicate DraftTakeable(w: World, s: Step, id: Id)
    requires s.LockDrafts?
  {
    id in w.calls && Overdue(w.calls[id], s.now) && id in w.drafts && w.drafts[id].status.DraftPending? && id !in s.busy
  }

  /** Up to 500 of them, in no order. */
  lemma DraftsPicked(w: World, s: Step, id: Id, other: Id)
    requires s.LockDrafts? && Enabled(w, s)
    ensures (id in s.ids ==> DraftTakeable(w, s, id)) && |s.ids| <= 500
    ensures DraftTakeable(w, s, other) && other !in s.ids ==> |s.ids| == 500
  {
    BatchSays(DueDrafts(w, s.now) - s.busy, BATCH, s.ids, other);
  }

  /** Overdue, not held by another, and its draft, if one is pending, held by this pass. */
  predicate Takeable(w: World, s: Step, id: Id)
    requires s.LockCalls? && PassOf(w, s.copy).DraftsLocked?
  {
    && id in w.calls && Overdue(w.calls[id], PassOf(w, s.copy).now) && id !in s.busy
    && (id in w.drafts && w.drafts[id].status.DraftPending? ==> id in PassOf(w, s.copy).drafts)
  }

  /** Such calls, up to 500, the longest overdue first. */
  lemma CallsPicked(w: World, s: Step, id: Id, other: Id)
    requires s.LockCalls? && Enabled(w, s)
    ensures (id in s.ids ==> Takeable(w, s, id)) && |s.ids| <= 500
    ensures Takeable(w, s, other) && other !in s.ids ==>
      |s.ids| == 500 && (id in s.ids ==> w.calls[id].expiresAt.value <= w.calls[other].expiresAt.value)
  {
    var pass := PassOf(w, s.copy);
    OldestBatchSays(EligibleTimes(w, pass.now, pass.drafts, s.busy), BATCH, s.ids, id, other);
  }

  /** Claims past their lease that nobody holds. */
  predicate PastLease(w: World, s: Step, id: Id)
    requires s.Leases?
  {
    && id in w.calls && w.calls[id].status.InProgress? && id !in s.busy
    && w.calls[id].leaseUntil.Some? && w.calls[id].leaseUntil.value < s.now
  }

  /** Up to 500 of them, the longest past first. */
  lemma LapsedPicked(w: World, s: Step, id: Id, other: Id)
    requires s.Leases? && Enabled(w, s)
    ensures (id in s.ids ==> PastLease(w, s, id)) && |s.ids| <= 500
    ensures PastLease(w, s, other) && other !in s.ids ==>
      |s.ids| == 500 && (id in s.ids ==> w.calls[id].leaseUntil.value <= w.calls[other].leaseUntil.value)
  {
    OldestBatchSays(LapsedTimes(w, s.now, s.busy), BATCH, s.ids, id, other);
  }
}
