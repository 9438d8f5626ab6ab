/**
 When each pull agent was last seen: what one relay copy keeps in memory, and
 how its flushes and reloads combine times.
 */
module Heartbeats {
  import opened Prelude
  import opened Batches

  type Times = map<Id, Time>

  const DAY: Time := 86_400_000
  const PRESENCE_DAYS: Time := 30 * DAY
  const ONLINE_WINDOW: Time := 300_000

  /** Pointwise the newer time: the merge in memory, and the upsert's GREATEST. */
  function Join(a: Times, b: Times): Times {
    map id | id in a.Keys + b.Keys ::
      if id in a && id in b then Max(a[id], b[id]) else if id in a then a[id] else b[id]
  }

  /** A time not yet a presence window old. */
  function Recent(times: Times, now: Time): Times {
    map id | id in times && times[id] > now - PRESENCE_DAYS :: times[id]
  }

  /** Its time here is not yet 30 days old. */
  predicate KeptHere(times: Times, id: Id, now: Time) {
    id in times && now - times[id] < 30 * 86_400_000
  }

  /** Each agent in the table, or still recent here, has the newer of the two times. */
  ghost predicate MergedFrom(merged: Times, rows: Times, held: Times, now: Time) {
    && (forall id :: id in merged <==> id in rows || KeptHere(held, id, now))
    && (forall id :: id in merged ==>
          merged[id] == if id in rows && (!KeptHere(held, id, now) || held[id] <= rows[id]) then rows[id] else held[id])
  }

  lemma MergeSays(rows: Times, held: Times, now: Time)
    ensures MergedFrom(Join(rows, Recent(held, now)), rows, held, now)
  {}

  /** Nothing in `a` is newer than in `b`. */
  predicate Below(a: Times, b: Times) {
    forall id :: id in a ==> id in b && a[id] <= b[id]
  }

  /** `Join` is the least upper bound, so writing a batch again changes nothing. */
  lemma JoinIsLeast(a: Times, b: Times, c: Times)
    ensures Below(a, Join(a, b)) && Below(b, Join(a, b))
    ensures Below(a, c) && Below(b, c) ==> Below(Join(a, b), c)
    ensures Below(a, b) ==> Join(b, a) == b
  {
    if Below(a, b) { assert Join(b, a).Keys == b.Keys; }
  }

  lemma RetryIsHarmless(table: Times, batch: Times)
    ensures Join(Join(table, batch), batch) == Join(table, batch)
  {
    JoinIsLeast(table, batch, batch);
    JoinIsLeast(batch, Join(table, batch), batch);
  }

  /** The entries a loop over `m` has seen when `rest` is left. */
  function Part(m: Times, rest: set<Id>): Times {
    map id | id in m && id !in rest :: m[id]
  }

  lemma PartGrows(m: Times, rest: set<Id>, x: Id)
    requires x in rest
    ensures Part(m, rest - {x}) == if x in m then Part(m, rest)[x := m[x]] else Part(m, rest)
  {}

  /** Merging one entry more. */
  lemma JoinGrows(a: Times, b: Times, x: Id, t: Time)
    requires x !in b
    ensures Join(a, b[x := t]) == Join(a, b)[x := if x in Join(a, b) then Max(Join(a, b)[x], t) else t]
  {}

  lemma JoinNothing(a: Times)
    ensures Join(a, map[]) == a
  {}

  lemma MergeStep(rows: Times, held: Times, rest: set<Id>, now: Time, x: Id)
    requires x in rest && x in held
    ensures var merged, more := Join(rows, Part(Recent(held, now), rest)), Join(rows, Part(Recent(held, now), rest - {x}));
      more == if held[x] > now - PRESENCE_DAYS then
                merged[x := Max(if x in merged then merged[x] else held[x], held[x])]
              else merged
  {
    PartGrows(Recent(held, now), rest, x);
    if held[x] > now - PRESENCE_DAYS {
      JoinGrows(rows, Part(Recent(held, now), rest), x, held[x]);
    }
  }

  datatype Peer = Push | Pull(online: bool, lastSeenAt: Option<Time>, wake: bool)

  /** How the upsert ended, as this copy saw it and in the table. */
  datatype Outcome = Written | Refused | WrittenUnheard

  datatype FlushError = WriteFailed

  /** The polls of a while, in order. */
  function Polled(times: Times, polls: seq<(Id, Time)>): Times
    decreases |polls|
  {
    if polls == [] then times
    else var last := polls[|polls| - 1]; Polled(times, polls[..|polls| - 1])[last.0 := last.1]
  }

  /** After them each agent polled has its last poll's time, and every other what it had. */
  lemma {:induction false} PolledSays(times: Times, polls: seq<(Id, Time)>, id: Id)
    ensures id in Polled(times, polls) <==> id in times || exists i :: 0 <= i < |polls| && polls[i].0 == id
    ensures id in Polled(times, polls) ==>
      || (Unpolled(polls, 0, id) && id in times && Polled(times, polls)[id] == times[id])
      || (exists i :: 0 <= i < |polls| && LastPoll(polls, i, id, Polled(times, polls)[id]))
    decreases |polls|
  {
    if polls != [] {
      var n := |polls| - 1;
      PolledSays(times, polls[..n], id);
      if polls[n].0 == id {
        assert LastPoll(polls, n, id, Polled(times, polls)[id]);
      } else {
        LaterPollsElsewhere(polls, id);
        if i :| 0 <= i < n && polls[..n][i].0 == id { assert polls[i].0 == id; }
      }
    }
  }

  /** A last poll that is another agent's changes no other's. */
  lemma LaterPollsElsewhere(polls: seq<(Id, Time)>, id: Id)
    requires polls != [] && polls[|polls| - 1].0 != id
    ensures var n := |polls| - 1;
      && (Unpolled(polls[..n], 0, id) ==> Unpolled(polls, 0, id))
      && forall i, t :: 0 <= i < n && LastPoll(polls[..n], i, id, t) ==> LastPoll(polls, i, id, t)
  {
    var n := |polls| - 1;
    assert forall j :: 0 <= j < n ==> polls[..n][j] == polls[j];
  }

  /** `id`'s last poll is the `i`th, at `t`. */
  predicate LastPoll(polls: seq<(Id, Time)>, i: nat, id: Id, t: Time)
    requires i < |polls|
  {
    polls[i] == (id, t) && Unpolled(polls, i + 1, id)
  }

  /** None of the polls from `from` on is `id`'s. */
  predicate Unpolled(polls: seq<(Id, Time)>, from: nat, id: Id) {
    forall j :: from <= j < |polls| ==> polls[j].0 != id
  }

  class Heartbeats {
    /** Polls recorded since the last flush. */
    var unflushed: Times
    /** Last seen, from this process and every copy's flushes. */
    var presence: Times
    var wake: set<Id>

    constructor ()
      ensures unflushed == map[] && presence == map[] && wake == {}
    {
      unflushed, presence, wake := map[], map[], {};
    }

    method Record(agent: Id, now: Time)
      modifies this
      ensures unflushed == old(unflushed)[agent := now] && presence == old(presence)[agent := now]
      ensures wake == old(wake)
    {
      unflushed, presence := unflushed[agent := now], presence[agent := now];
    }

    function LastSeen(agent: Id, now: Time): Option<Time>
      reads this
    {
      if agent in presence && presence[agent] > now - PRESENCE_DAYS then Some(presence[agent]) else None
    }

    /** Who a caller waits on: online means seen within the last five minutes. */
    method PeerOf(agent: Id, mode: string, now: Time) returns (peer: Peer)
      ensures peer.Push? <==> mode == "push"
      ensures peer.Pull? ==> peer.wake == (agent in wake)
      ensures peer.Pull? ==>
        peer.lastSeenAt ==
          if agent in presence && now - presence[agent] < 30 * 86_400_000 then Some(presence[agent]) else None
      ensures peer.Pull? ==> (peer.online <==> agent in presence && now - presence[agent] < ONLINE_WINDOW)
    {
      if mode == "push" { return Push; }
      var at := LastSeen(agent, now);
      peer := Pull(at.Some? && now - at.value < ONLINE_WINDOW, at, agent in wake);
    }

    method SetWake(agent: Id, enabled: bool)
      modifies this`wake
      ensures wake == if enabled then old(wake) + {agent} else old(wake) - {agent}
    {
      if enabled { wake := wake + {agent}; } else { wake := wake - {agent}; }
    }

    method Drain() returns (batch: Times)
      modifies this`unflushed
      ensures batch == old(unflushed) && unflushed == map[]
    {
      batch, unflushed := unflushed, map[];
    }

    /** Put a failed batch back, keeping the newer time. */
    method Restore(batch: Times)
      modifies this`unflushed
      ensures unflushed == Join(old(unflushed), batch)
    {
      var rest := batch.Keys;
      JoinNothing(unflushed);
      assert Part(batch, rest) == map[];
      while rest != {}
        invariant rest <= batch.Keys && unflushed == Join(old(unflushed), Part(batch, rest))
        decreases |rest|
      {
        var agent :| agent in rest;
        PartGrows(batch, rest, agent);
        JoinGrows(old(unflushed), Part(batch, rest), agent, batch[agent]);
        var entry := if agent in unflushed then unflushed[agent] else batch[agent];
        unflushed := unflushed[agent := Max(entry, batch[agent])];
        rest := rest - {agent};
      }
      assert Part(batch, {}) == batch;
    }

    /**
     Replace the last-seen map with the table's recent rows, keeping what is
     newer here and still recent.
     */
    method Reload(rows: Times, enabled: set<Id>, now: Time) returns (n: nat)
      modifies this`presence, this`wake
      ensures presence == Join(rows, Recent(old(presence), now)) && wake == enabled
      ensures MergedFrom(presence, rows, old(presence), now)
      ensures n == |presence|
    {
      var held := presence;
      var merged, rest := rows, held.Keys;
      JoinNothing(rows);
      assert Part(Recent(held, now), rest) == map[];
      while rest != {}
        invariant rest <= held.Keys && merged == Join(rows, Part(Recent(held, now), rest))
        decreases |rest|
      {
        var agent :| agent in rest;
        MergeStep(rows, held, rest, now, agent);
        if held[agent] > now - PRESENCE_DAYS {
          var entry := if agent in merged then merged[agent] else held[agent];
          merged := merged[agent := Max(entry, held[agent])];
        }
        rest := rest - {agent};
      }
      assert Part(Recent(held, now), {}) == Recent(held, now);
      MergeSays(rows, held, now);
      presence, wake := merged, enabled;
      n := |presence|;
    }

    /**
     Write everything recorded since the last flush in one upsert. `polls`
     are those recorded while it waits. On an error the batch is kept, even
     if it was in fact written.
     */
    method Flush(table: Times, polls: seq<(Id, Time)>, write: Outcome)
      returns (r: Result<nat, FlushError>, after: Times)
      modifies this
      ensures r.Ok? <==> old(unflushed) == map[] || write.Written?
      ensures r.Ok? ==> r.value == |old(unflushed)|
      ensures after == if write.Refused? then table else Join(table, old(unflushed))
      ensures old(unflushed) == map[] ==> unflushed == map[] && presence == old(presence)
      ensures old(unflushed) != map[] ==>
        presence == Polled(old(presence), polls) &&
        unflushed == if r.Ok? then Polled(map[], polls) else Join(Polled(map[], polls), old(unflushed))
      ensures wake == old(wake)
    {
      after := table;
      var batch := Drain();
      if batch == map[] {
        assert Join(table, batch) == table;
        return Ok(0), after;
      }
      for i := 0 to |polls|
        invariant unflushed == Polled(map[], polls[..i]) && presence == Polled(old(presence), polls[..i])
        invariant wake == old(wake)
      {
        assert polls[..i + 1][..i] == polls[..i];
        Record(polls[i].0, polls[i].1);
      }
      assert polls[..|polls|] == polls;
      if !write.Refused? { after := Join(table, batch); }
      if write.Written? { return Ok(|batch|), after; }
      Restore(batch);
      r := Err(WriteFailed);
    }
  }
}
