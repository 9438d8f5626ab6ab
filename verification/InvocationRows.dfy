/**
 One row of `relay_invocations`, and every UPDATE the relay makes to it.

 A `Change` is the SET clause of one SQL statement, `Applies` its WHERE
 clause and `Changed` the row it leaves. The SQL only runs `Changed` where
 `Applies` holds; zero rows affected leaves the row alone.
 */
module InvocationRows {
  import opened Prelude
  import opened Batches

  /** A JSON document; only equality matters here. */
  type Json = string

  const NULL_JSON: Json := "null"

  /** A claimed call whose lease lapses this many times times out. */
  const MAX_DELIVERIES: nat := 3
  const I32_MAX: int := 2147483647
  /** The one error a purge keeps, since it isn't content. */
  const CLOSED := "call content deleted"

  datatype Status = AwaitingConsent | Pending | InProgress | Succeeded | Failed | Rejected | Timeout {
    predicate Settled() {
      Succeeded? || Failed? || Rejected? || Timeout?
    }

    /** What the sweep looks at: delivered, or waiting to be. */
    predicate Open() {
      Pending? || InProgress?
    }
  }

  /** A result as an agent posts it, or as it is drafted for an approver. */
  datatype Reply = Reply(succeeded: bool, output: Option<Json>, error: Option<string>) {
    function Status(): Status {
      if succeeded then Succeeded else Failed
    }
  }

  /**
   The columns the lifecycle reads or writes. The last two are history, not
   columns: how often this call's lease lapsed, and whether a sweep timed it
   out.
   */
  datatype Call = Call(
    agent: Option<Id>,          // granter_agent_id, the called agent
    caller: Option<Id>,         // grantee_agent_id
    conversation: Option<Id>,   // call_id, when made inside a call
    createdAt: Time,
    expiresAt: Option<Time>,
    status: Status,
    claimedAt: Option<Time>,
    leaseUntil: Option<Time>,
    deliveries: nat,
    error: Option<string>,
    output: Option<Json>,
    elapsedMs: int,
    lapses: nat,
    swept: bool)

  datatype Change =
    | SetDeadline(at: Time)
    | Claim(now: Time, lease: Option<nat>)
    | Release
    | Finish(reply: Reply, now: Time)
    | Confirm(reply: Reply, now: Time)
    | AnswerAsOwner(reply: Reply, now: Time)
    | FailDraft(why: string, now: Time)
    | Approve(now: Time)
    | Reject(why: string)
    | RevokeGrant
    | Close(now: Time)
    | Purge
    | TimeOut(now: Time)
    | Lapse(now: Time)

  predicate Due(c: Call, now: Time) {
    c.status.Open() && c.expiresAt.Some? && c.expiresAt.value < now
  }

  predicate LeaseLapsed(c: Call, now: Time) {
    c.status.InProgress? && c.leaseUntil.Some? && c.leaseUntil.value < now
  }

  /** Whether a lapse now is the last one this call gets. */
  predicate Exhausted(c: Call) {
    c.deliveries >= MAX_DELIVERIES
  }

  predicate Applies(c: Call, k: Change) {
    match k
    case SetDeadline(_) => c.status.Open() && c.expiresAt.None?
    case Claim(_, _) => c.status.Pending?
    case Release => c.status.InProgress?
    case Finish(_, _) => c.status.InProgress? || (c.status.Pending? && c.deliveries > 0)
    case Confirm(_, _) => c.status.InProgress?
    case AnswerAsOwner(_, _) => c.status.Open()
    case FailDraft(_, _) => c.status.InProgress?
    case Approve(_) => c.status.AwaitingConsent?
    case Reject(_) => c.status.AwaitingConsent?
    case RevokeGrant => c.status.Pending? || c.status.AwaitingConsent?
    case Close(_) => !c.status.Settled()
    case Purge => c.conversation.Some?
    case TimeOut(now) => Due(c, now)
    case Lapse(now) => LeaseLapsed(c, now)
  }

  function ElapsedMs(c: Call, now: Time): int {
    Min(now - c.createdAt, I32_MAX)
  }

  function Changed(c: Call, k: Change): Call {
    match k
    case SetDeadline(at) => c.(expiresAt := Some(at))
    case Claim(now, lease) =>
      c.(status := InProgress, claimedAt := Some(now), deliveries := c.deliveries + 1,
         leaseUntil := if lease.Some? then Some(now + lease.value) else None)
    case Release =>
      c.(status := Pending, claimedAt := None, leaseUntil := None,
         deliveries := Max(c.deliveries - 1, 0))
    case Finish(r, now) =>
      c.(status := r.Status(), elapsedMs := Max(ElapsedMs(c, now), 0), error := r.error,
         output := Some(if r.output.Some? then r.output.value else NULL_JSON),
         leaseUntil := None)
    case Confirm(r, now) =>
      c.(status := r.Status(), elapsedMs := ElapsedMs(c, now), error := r.error,
         output := Some(if r.output.Some? then r.output.value else NULL_JSON))
    case AnswerAsOwner(r, now) =>
      var claimed := if c.status.Pending? then c.(claimedAt := Some(now), deliveries := c.deliveries + 1) else c;
      claimed.(status := r.Status(), elapsedMs := ElapsedMs(c, now), error := r.error,
               output := Some(if r.output.Some? then r.output.value else NULL_JSON))
    case FailDraft(why, now) =>
      c.(status := Failed, error := Some(why), elapsedMs := ElapsedMs(c, now))
    case Approve(now) =>
      c.(status := Pending,
         expiresAt := if c.expiresAt.Some? then Some(now + (c.expiresAt.value - c.createdAt)) else None)
    case Reject(why) => c.(status := Rejected, error := Some(why))
    case RevokeGrant =>
      c.(status := Rejected,
         error := if c.error.Some? then c.error else Some("grant revoked while queued"))
    case Close(now) =>
      if c.status.AwaitingConsent? then c.(status := Rejected, error := Some(CLOSED))
      else c.(status := Failed, error := Some(CLOSED), elapsedMs := ElapsedMs(c, now))
    case Purge =>
      c.(output := None, error := if c.error == Some(CLOSED) then c.error else None)
    case TimeOut(now) =>
      c.(status := Timeout,
         error := Some(if c.claimedAt.Some? then "picked up, never answered"
                       else "not picked up before its deadline"),
         elapsedMs := ElapsedMs(c, now), leaseUntil := None, swept := true)
    case Lapse(now) =>
      if Exhausted(c) then
        c.(status := Timeout, error := Some("claimed 3 times, never answered"),
           elapsedMs := ElapsedMs(c, now), leaseUntil := None,
           lapses := c.lapses + 1, swept := true)
      else
        c.(status := Pending, claimedAt := None, leaseUntil := None, lapses := c.lapses + 1)
  }

  /** Whether this change is a sweep timing the call out. */
  predicate TimesOut(c: Call, k: Change) {
    k.TimeOut? || (k.Lapse? && Exhausted(c))
  }

  // ─── What every row keeps ────────────────────────────────

  /**
   A claim counted as a delivery. One made before deliveries were counted
   (migration 0053 gives such rows 0, and no lease) doesn't.
   */
  predicate CountedClaim(c: Call) {
    c.deliveries == c.lapses + 1
  }

  predicate UncountedClaim(c: Call) {
    c.deliveries == 0 && c.lapses == 0 && c.leaseUntil.None?
  }

  predicate RowOk(c: Call) {
    && (c.swept ==> c.status.Timeout?)
    && match c.status
       case AwaitingConsent => c.deliveries == 0 && c.lapses == 0 && c.claimedAt.None? && c.leaseUntil.None?
       case Pending => c.deliveries == c.lapses <= MAX_DELIVERIES - 1 && c.claimedAt.None? && c.leaseUntil.None?
       case InProgress => c.claimedAt.Some? && c.lapses <= MAX_DELIVERIES - 1 && (CountedClaim(c) || UncountedClaim(c))
       case _ => c.lapses <= MAX_DELIVERIES && (c.lapses == MAX_DELIVERIES ==> c.swept)
  }

  /** A row as an insert leaves it, or as it was before migration 0053. */
  predicate Fresh(c: Call) {
    && c.deliveries == 0 && c.lapses == 0 && c.leaseUntil.None? && !c.swept
    && (c.status.InProgress? ==> c.claimedAt.Some?)
    && (c.status.Pending? || c.status.AwaitingConsent? ==> c.claimedAt.None?)
  }

  /** A row as the relay inserts it: nobody has claimed it. */
  predicate Inserted(c: Call) {
    Fresh(c) && !c.status.InProgress?
  }

  lemma FreshRowIsOk(c: Call)
    requires Fresh(c)
    ensures RowOk(c)
  {}

  lemma ChangeKeepsRow(c: Call, k: Change)
    requires RowOk(c) && Applies(c, k)
    ensures RowOk(Changed(c, k))
  {}

  lemma ChangeSweeps(c: Call, k: Change)
    requires RowOk(c) && Applies(c, k)
    ensures TimesOut(c, k) ==> !c.swept
    ensures Changed(c, k).swept <==> c.swept || TimesOut(c, k)
  {}

  /** How a row may differ later on, whatever happened in between. */
  predicate Evolves(c: Call, d: Call) {
    && d.agent == c.agent && d.caller == c.caller
    && d.conversation == c.conversation && d.createdAt == c.createdAt
    && c.lapses <= d.lapses
    && (c.swept ==> d.swept)
    && (c.status.Settled() ==> d == c || (c.conversation.Some? && d == Changed(c, Purge)))
    && (c.status.Open() ==> !d.status.AwaitingConsent?)
    && (c.status.Open() && c.expiresAt.Some? ==> d.expiresAt == c.expiresAt)
  }

  lemma ChangeEvolves(c: Call, k: Change)
    requires Applies(c, k)
    ensures Evolves(c, Changed(c, k))
  {}

  lemma EvolvesTransitively(c: Call, d: Call, e: Call)
    requires Evolves(c, d) && Evolves(d, e)
    ensures Evolves(c, e)
  {}

  // ─── Claims from before deliveries were counted ──────────

  /** In progress, with deliveries that aren't one more than its lapses. */
  predicate Uncounted(c: Call) {
    c.status.InProgress? && c.deliveries != c.lapses + 1
  }

  /** A change that ends a claim without an answer. */
  predicate EndsClaim(k: Change) {
    k.Release? || k.Lapse?
  }

  /** No change makes an uncounted claim. */
  lemma ChangeCounts(c: Call, k: Change)
    requires RowOk(c) && Applies(c, k) && !Uncounted(c)
    ensures !Uncounted(Changed(c, k))
  {}

  /** One stays so until it is handed back or settled. */
  lemma UncountedStays(c: Call, k: Change)
    requires RowOk(c) && Applies(c, k) && Uncounted(c)
    ensures !Uncounted(Changed(c, k)) <==> EndsClaim(k) || Changed(c, k).status.Settled()
  {}
}
