/**
 `get_task`: what the caller of an invocation is shown, and how long an
 answer stays true.
 */
module InvocationTasks {
  import opened Prelude
  import opened Batches
  import opened InvocationRows
  import opened InvocationRelay

  const HELD_STATE := "auth-required"
  const HELD_MESSAGE := "Waiting for the owner's approval"

  datatype Task = Task(state: string, message: Option<string>, artifacts: seq<Json>)

  datatype GetTaskError = NotFound | NotYourTask

  function StateOf(s: Status): string {
    match s
    case Pending => "submitted"
    case AwaitingConsent => HELD_STATE
    case InProgress => "working"
    case Succeeded => "completed"
    case Failed => "failed"
    case Rejected => "rejected"
    case Timeout => "failed"
  }

  function View(c: Call): Task {
    var state := StateOf(c.status);
    Task(state,
         if state == HELD_STATE then Some(HELD_MESSAGE) else c.error,
         if state == "completed" && c.output.Some? then [c.output.value] else [])
  }

  function GetTask(calls: map<Id, Call>, id: Id, caller: Id): Result<Task, GetTaskError> {
    if id !in calls then Err(NotFound)
    else if calls[id].caller != Some(caller) then Err(NotYourTask)
    else Ok(View(calls[id]))
  }

  predicate Final(t: Task) {
    t.state == "completed" || t.state == "failed" || t.state == "rejected"
  }

  /**
   What a timed-out call's caller is told is true: it was in progress at its
   deadline, or it wasn't, or it really was delivered three times.
   */
  lemma TimeoutTellsWhy(c: Call, k: Change)
    requires RowOk(c) && Applies(c, k) && TimesOut(c, k)
    ensures var t := View(Changed(c, k));
      && t.state == "failed" && t.artifacts == []
      && (k.Lapse? ==> c.deliveries == MAX_DELIVERIES && t.message == Some("claimed 3 times, never answered"))
      && (k.TimeOut? ==> t.message == Some(if c.status.InProgress? then "picked up, never answered"
                                           else "not picked up before its deadline"))
  {}

  lemma FinalMeansSettled(c: Call)
    ensures Final(View(c)) <==> c.status.Settled()
  {}

  /** A purge leaves who asked and the status. */
  lemma PurgeKeepsState(c: Call)
    ensures var d := Changed(c, Purge); d.caller == c.caller && View(d).state == View(c).state
  {}

  /** Once a poll reports a final state, every later poll reports that state. */
  lemma {:induction false} FinalStateStays(w: World, steps: seq<Step>, id: Id, caller: Id)
    requires LocksOk(w)
    requires GetTask(w.calls, id, caller).Ok? && Final(GetTask(w.calls, id, caller).value)
    ensures var later := GetTask(Run(w, steps).calls, id, caller);
      later.Ok? && later.value.state == GetTask(w.calls, id, caller).value.state
  {
    FinalMeansSettled(w.calls[id]);
    PurgeKeepsState(w.calls[id]);
    SettledForGood(w, steps, id);
  }

  /** Made in a conversation, with an output or an error that a purge clears from what is shown. */
  predicate PurgeShows(c: Call) {
    c.conversation.Some? &&
    ((c.status.Succeeded? && c.output.Some?) || (c.error.Some? && c.error.value != CLOSED))
  }

  lemma ShownPurge(c: Call)
    requires c.status.Settled() && c.conversation.Some?
    ensures View(Changed(c, Purge)) != View(c) <==> PurgeShows(c)
  {}

  /**
   A settled call's poll answers the same for good, state, message and
   artifacts, exactly when it wasn't made inside a conversation or has nothing
   on show for a purge to clear. Tasks parked through A2A are never made
   inside one.
   */
  lemma {:induction false} AnswerStaysIff(w: World, id: Id, caller: Id)
    requires LocksOk(w) && Free(w, id) && w.calls[id].caller == Some(caller) && w.calls[id].status.Settled()
    ensures (forall steps :: GetTask(Run(w, steps).calls, id, caller) == GetTask(w.calls, id, caller))
            <==> !PurgeShows(w.calls[id])
  {
    if PurgeShows(w.calls[id]) {
      PurgeChangesAnswer(w, id, caller);
    } else {
      forall steps ensures GetTask(Run(w, steps).calls, id, caller) == GetTask(w.calls, id, caller) {
        UnshownStays(w, steps, id, caller);
      }
    }
  }

  lemma UnshownStays(w: World, steps: seq<Step>, id: Id, caller: Id)
    requires LocksOk(w) && id in w.calls && w.calls[id].caller == Some(caller) && w.calls[id].status.Settled()
    requires !PurgeShows(w.calls[id])
    ensures GetTask(Run(w, steps).calls, id, caller) == GetTask(w.calls, id, caller)
  {
    var c := w.calls[id];
    PurgeKeepsState(c);
    if c.conversation.Some? { ShownPurge(c); }
    SettledForGood(w, steps, id);
  }

  lemma {:induction false} PurgeChangesAnswer(w: World, id: Id, caller: Id)
    requires Free(w, id) && w.calls[id].caller == Some(caller) && w.calls[id].status.Settled() && PurgeShows(w.calls[id])
    ensures exists steps :: GetTask(Run(w, steps).calls, id, caller) != GetTask(w.calls, id, caller)
  {
    ShownPurge(w.calls[id]);
    PurgeClears(w, id);
    var steps := [PurgeConversation({id})];
    assert Run(w, steps).calls[id] == Changed(w.calls[id], Purge);
    assert GetTask(Run(w, steps).calls, id, caller) != GetTask(w.calls, id, caller);
  }

  lemma PurgeClears(w: World, id: Id)
    requires Free(w, id) && w.calls[id].conversation.Some?
    ensures var e := Run(w, [PurgeConversation({id})]); id in e.calls && e.calls[id] == Changed(w.calls[id], Purge)
  {
    var s := PurgeConversation({id});
    assert Enabled(w, s) && Writes(w, s)[id] == Purge;
    assert [s][1..] == [];
    assert Run(w, [s]) == Next(w, s);
  }
}
