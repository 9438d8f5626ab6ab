/** One waiting pull: claim, and while nothing came back wait and claim again. */
module InboxWait {
  import opened Prelude
  import opened Batches
  import H = Heartbeats

  /** Why a waiter stopped waiting. */
  datatype Woke = Changed | Deadline | Closed

  datatype ClaimError = ClaimFailed

  type Claimed = Result<seq<Id>, ClaimError>

  /** One turn of the loop: what its claim gave, and what the wait after it did. */
  datatype Turn = Turn(claim: Claimed, woke: Woke)

  /** The turn ends the pull. */
  predicate Ends(t: Turn) {
    t.claim.Err? || t.claim.value != [] || !t.woke.Changed?
  }

  /** The deadline or shutdown ends every wait: some turn ends the pull. */
  predicate WaitEnds(turns: seq<Turn>) {
    |turns| > 0 && Ends(turns[|turns| - 1])
  }

  /**
   `slot` is whether the hub had room, and `n` how many claims were made. A
   pull that waits makes another claim only after an empty one and a wake, so
   nothing it claimed is dropped: it answers exactly what its last claim
   gave. It records a heartbeat when it waited, unless a claim failed.
   */
  method ClaimWaiting(beats: H.Heartbeats, agent: Id, wait: Option<nat>, maxWait: nat, slot: bool,
                      turns: seq<Turn>, done: Time)
    returns (r: Result<(seq<Id>, int), ClaimError>, n: nat)
    requires WaitEnds(turns)
    modifies beats
    ensures 0 < n <= |turns| && forall i :: 0 <= i < n - 1 ==> turns[i] == Turn(Ok([]), Changed)
    ensures r.Err? <==> turns[n - 1].claim.Err?
    ensures r.Err? ==> r.error == turns[n - 1].claim.error
    ensures r.Ok? ==> turns[n - 1].claim == Ok(r.value.0)
    ensures var waits := slot && maxWait > 0 && wait.Some? && wait.value > 0;
      && (!waits ==> n == 1)
      && (waits && r.Ok? && r.value.0 == [] ==> !turns[n - 1].woke.Changed?)
      && (r.Ok? ==>
            var none := !waits || (r.value.0 == [] && turns[n - 1].woke.Closed?);
            r.value.1 == (if none then 0 else if wait.value <= maxWait then wait.value else maxWait))
      && beats.unflushed == (if waits && r.Ok? then old(beats.unflushed)[agent := done] else old(beats.unflushed))
      && beats.presence == (if waits && r.Ok? then old(beats.presence)[agent := done] else old(beats.presence))
    ensures beats.wake == old(beats.wake)
  {
    n := 1;
    var honoured := Min(if wait.Some? then wait.value else 0, maxWait);
    if honoured == 0 || !slot {
      match turns[0].claim {
        case Err(e) => return Err(e), n;
        case Ok(items) => return Ok((items, 0)), n;
      }
    }
    while true
      invariant 0 < n <= |turns|
      invariant forall i :: 0 <= i < n - 1 ==> turns[i] == Turn(Ok([]), Changed)
      invariant beats.unflushed == old(beats.unflushed) && beats.presence == old(beats.presence)
      invariant beats.wake == old(beats.wake)
      decreases |turns| - n
    {
      match turns[n - 1].claim {
        case Err(e) => return Err(e), n;
        case Ok(items) =>
          if items != [] {
            r := Ok((items, honoured));
            break;
          }
      }
      match turns[n - 1].woke {
        case Changed => n := n + 1;
        case Deadline => r := Ok(([], honoured)); break;
        case Closed => r := Ok(([], 0)); break;
      }
    }
    beats.Record(agent, done);
  }
}
