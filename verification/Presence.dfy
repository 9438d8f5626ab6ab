/**
 Presence across relay copies: any number of copies record polls, flush to
 one table and reload from it, each in its own time. A run is any sequence of
 steps, so it covers failed flushes, polls between a drain and its restore,
 and a write that committed although its copy saw an error.
 */
module Presence {
  import opened Prelude
  import opened Batches
  import opened Heartbeats

  /** A drained batch on its way to the table. */
  datatype Flight = Flight(copy: Id, batch: Times, written: bool)

  /** The table's recent rows as a reload read them. */
  datatype Rows = Rows(copy: Id, rows: Times)

  /** `clock` never runs back; `latest`, a history, is each agent's last poll. */
  datatype World = World(
    unflushed: map<Id, Times>,   // by copy
    presence: map<Id, Times>,    // by copy
    flights: map<Id, Flight>,
    reloads: map<Id, Rows>,
    table: Times,
    clock: Time,
    latest: Times)

  datatype Step =
    | Tick(to: Time)
    | Poll(copy: Id, agent: Id)
    | Drain(copy: Id, flight: Id)
    | Write(flight: Id)
    | Done(flight: Id)
    | Fail(flight: Id)
    | Read(copy: Id, read: Id)
    | Merge(read: Id)
    | DropRead(read: Id)

  predicate Enabled(w: World, s: Step) {
    match s
    case Tick(to) => w.clock <= to
    case Poll(copy, _) => copy in w.unflushed && copy in w.presence
    case Drain(copy, flight) => copy in w.unflushed && flight !in w.flights
    case Write(flight) => flight in w.flights
    case Done(flight) => flight in w.flights && w.flights[flight].written
    case Fail(flight) => flight in w.flights && w.flights[flight].copy in w.unflushed
    case Read(copy, read) => copy in w.presence && read !in w.reloads
    case Merge(read) => read in w.reloads && w.reloads[read].copy in w.presence
    case DropRead(read) => read in w.reloads
  }

  function Seen(times: Times, agent: Id, now: Time): Times {
    times[agent := now]
  }

  /** The clock read and both inserts, as one step. */
  function AfterPoll(w: World, copy: Id, agent: Id): World
    requires copy in w.unflushed && copy in w.presence
  {
    w.(unflushed := w.unflushed[copy := Seen(w.unflushed[copy], agent, w.clock)],
       presence := w.presence[copy := Seen(w.presence[copy], agent, w.clock)],
       latest := w.latest[agent := w.clock])
  }

  function Next(w: World, s: Step): World {
    if !Enabled(w, s) then w else
    match s
    case Tick(to) => w.(clock := to)
    case Poll(copy, agent) => AfterPoll(w, copy, agent)
    case Drain(copy, flight) =>
      w.(flights := w.flights[flight := Flight(copy, w.unflushed[copy], false)],
         unflushed := w.unflushed[copy := map[]])
    case Write(flight) =>
      w.(table := Join(w.table, w.flights[flight].batch),
         flights := w.flights[flight := w.flights[flight].(written := true)])
    case Done(flight) => w.(flights := w.flights - {flight})
    case Fail(flight) =>
      var f := w.flights[flight];
      w.(flights := w.flights - {flight}, unflushed := w.unflushed[f.copy := Join(w.unflushed[f.copy], f.batch)])
    case Read(copy, read) => w.(reloads := w.reloads[read := Rows(copy, Recent(w.table, w.clock))])
    case Merge(read) =>
      var r := w.reloads[read];
      w.(reloads := w.reloads - {read},
         presence := w.presence[r.copy := Join(r.rows, Recent(w.presence[r.copy], w.clock))])
    case DropRead(read) => w.(reloads := w.reloads - {read})
  }

  function Run(w: World, steps: seq<Step>): World
    decreases |steps|
  {
    if steps == [] then w else Run(Next(w, steps[0]), steps[1..])
  }

  /** A fresh table, and copies that have just started. */
  predicate Initial(w: World) {
    && (forall c :: c in w.unflushed ==> w.unflushed[c] == map[])
    && (forall c :: c in w.presence ==> w.presence[c] == map[])
    && w.flights == map[] && w.reloads == map[] && w.table == map[] && w.latest == map[]
  }

  function LastSeen(w: World, copy: Id, agent: Id): Option<Time>
    requires copy in w.presence
  {
    if agent in w.presence[copy] && w.presence[copy][agent] > w.clock - PRESENCE_DAYS
    then Some(w.presence[copy][agent]) else None
  }

  // ─── The maximum is conserved ────────────────────────────

  /** `m` holds `agent`'s latest poll. */
  predicate Has(w: World, m: Times, agent: Id) {
    agent in w.latest && agent in m && m[agent] == w.latest[agent]
  }

  predicate InMemory(w: World, agent: Id) {
    exists c :: c in w.unflushed && Has(w, w.unflushed[c], agent)
  }

  predicate InFlight(w: World, agent: Id) {
    exists f :: f in w.flights && Has(w, w.flights[f].batch, agent)
  }

  /** Some place that isn't forgotten has the agent's latest poll. */
  predicate Kept(w: World, agent: Id) {
    agent in w.latest ==> InMemory(w, agent) || InFlight(w, agent) || Has(w, w.table, agent)
  }

  predicate WrittenIsInTable(w: World) {
    forall f :: f in w.flights && w.flights[f].written ==> Below(w.flights[f].batch, w.table)
  }

  predicate AllBelow(m: map<Id, Times>, latest: Times) {
    forall c :: c in m ==> Below(m[c], latest)
  }

  predicate FlightsBelow(flights: map<Id, Flight>, latest: Times) {
    forall f :: f in flights ==> Below(flights[f].batch, latest)
  }

  predicate RowsBelow(reloads: map<Id, Rows>, latest: Times) {
    forall r :: r in reloads ==> Below(reloads[r].rows, latest)
  }

  /** Nowhere is a time newer than the agent's latest poll. */
  predicate Bounded(w: World) {
    && (forall a :: a in w.latest ==> w.latest[a] <= w.clock)
    && AllBelow(w.unflushed, w.latest) && AllBelow(w.presence, w.latest)
    && FlightsBelow(w.flights, w.latest) && RowsBelow(w.reloads, w.latest) && Below(w.table, w.latest)
  }

  lemma BelowPoll(m: Times, latest: Times, agent: Id, now: Time)
    requires Below(m, latest) && (agent in latest ==> latest[agent] <= now)
    ensures Below(m, latest[agent := now]) && Below(m[agent := now], latest[agent := now])
  {}

  lemma PollKeepsAllBelow(m: map<Id, Times>, latest: Times, copy: Id, agent: Id, now: Time)
    requires AllBelow(m, latest) && (agent in latest ==> latest[agent] <= now) && copy in m
    ensures AllBelow(m[copy := Seen(m[copy], agent, now)], latest[agent := now])
  {
    forall c | c in m ensures Below(m[copy := Seen(m[copy], agent, now)][c], latest[agent := now]) {
      BelowPoll(m[c], latest, agent, now);
    }
  }

  lemma PollKeepsOthersBelow(w: World, agent: Id)
    requires Bounded(w)
    ensures var latest := w.latest[agent := w.clock];
      FlightsBelow(w.flights, latest) && RowsBelow(w.reloads, latest) && Below(w.table, latest)
  {
    var latest := w.latest[agent := w.clock];
    forall f | f in w.flights ensures Below(w.flights[f].batch, latest) {
      BelowPoll(w.flights[f].batch, w.latest, agent, w.clock);
    }
    forall r | r in w.reloads ensures Below(w.reloads[r].rows, latest) {
      BelowPoll(w.reloads[r].rows, w.latest, agent, w.clock);
    }
    BelowPoll(w.table, w.latest, agent, w.clock);
  }

  lemma PollKeepsBounded(w: World, copy: Id, agent: Id)
    requires Bounded(w) && copy in w.unflushed && copy in w.presence
    ensures Bounded(AfterPoll(w, copy, agent))
  {
    PollKeepsAllBelow(w.unflushed, w.latest, copy, agent, w.clock);
    PollKeepsAllBelow(w.presence, w.latest, copy, agent, w.clock);
    PollKeepsOthersBelow(w, agent);
  }

  lemma JoinKeepsBounded(w: World, s: Step)
    requires Bounded(w) && Enabled(w, s) && (s.Write? || s.Fail? || s.Merge?)
    ensures Bounded(Next(w, s))
  {
    match s
    case Write(f) => JoinIsLeast(w.table, w.flights[f].batch, w.latest);
    case Fail(f) => JoinIsLeast(w.unflushed[w.flights[f].copy], w.flights[f].batch, w.latest);
    case Merge(r) => JoinIsLeast(w.reloads[r].rows, Recent(w.presence[w.reloads[r].copy], w.clock), w.latest);
  }

  lemma MoveKeepsBounded(w: World, s: Step)
    requires Bounded(w) && Enabled(w, s) && (s.Tick? || s.Drain? || s.Done? || s.Read? || s.DropRead?)
    ensures Bounded(Next(w, s))
  {}

  lemma StepKeepsBounded(w: World, s: Step)
    requires Bounded(w)
    ensures Bounded(Next(w, s))
  {
    if !Enabled(w, s) {
    } else if s.Poll? {
      PollKeepsBounded(w, s.copy, s.agent);
    } else if s.Write? || s.Fail? || s.Merge? {
      JoinKeepsBounded(w, s);
    } else {
      MoveKeepsBounded(w, s);
    }
  }

  lemma StepKeepsWritten(w: World, s: Step)
    requires WrittenIsInTable(w)
    ensures WrittenIsInTable(Next(w, s))
  {
    if Enabled(w, s) && s.Write? {
      JoinIsLeast(w.table, w.flights[s.flight].batch, w.latest);
    }
  }

  /** A join of times no newer than the latest keeps the latest. */
  lemma JoinKeepsLatest(w: World, a: Times, b: Times, agent: Id)
    requires Below(a, w.latest) && Below(b, w.latest)
    ensures Has(w, Join(a, b), agent) <==> Has(w, a, agent) || Has(w, b, agent)
  {}

  lemma KeptInMemory(w: World, c: Id, agent: Id)
    requires c in w.unflushed && Has(w, w.unflushed[c], agent)
    ensures Kept(w, agent)
  {}

  lemma KeptInFlight(w: World, f: Id, agent: Id)
    requires f in w.flights && Has(w, w.flights[f].batch, agent)
    ensures Kept(w, agent)
  {}

  lemma PollKeepsKept(w: World, s: Step, agent: Id)
    requires Bounded(w) && Kept(w, agent) && Enabled(w, s) && s.Poll?
    ensures Kept(Next(w, s), agent)
  {
    var next := Next(w, s);
    if agent == s.agent {
      KeptInMemory(next, s.copy, agent);
    } else if agent in w.latest && InMemory(w, agent) {
      var c :| c in w.unflushed && Has(w, w.unflushed[c], agent);
      KeptInMemory(next, c, agent);
    } else if agent in w.latest && InFlight(w, agent) {
      var f :| f in w.flights && Has(w, w.flights[f].batch, agent);
      KeptInFlight(next, f, agent);
    }
  }

  lemma DrainKeepsKept(w: World, s: Step, agent: Id)
    requires Kept(w, agent) && Enabled(w, s) && s.Drain?
    ensures Kept(Next(w, s), agent)
  {
    var next := Next(w, s);
    if agent in w.latest && InMemory(w, agent) {
      var c :| c in w.unflushed && Has(w, w.unflushed[c], agent);
      if c == s.copy { KeptInFlight(next, s.flight, agent); } else { KeptInMemory(next, c, agent); }
    } else if agent in w.latest && InFlight(w, agent) {
      var f :| f in w.flights && Has(w, w.flights[f].batch, agent);
      KeptInFlight(next, f, agent);
    }
  }

  lemma FailKeepsKept(w: World, s: Step, agent: Id)
    requires Bounded(w) && Kept(w, agent) && Enabled(w, s) && s.Fail?
    ensures Kept(Next(w, s), agent)
  {
    var next, g := Next(w, s), w.flights[s.flight];
    JoinKeepsLatest(w, w.unflushed[g.copy], g.batch, agent);
    if agent in w.latest && InMemory(w, agent) {
      var c :| c in w.unflushed && Has(w, w.unflushed[c], agent);
      KeptInMemory(next, c, agent);
    } else if agent in w.latest && InFlight(w, agent) {
      var f :| f in w.flights && Has(w, w.flights[f].batch, agent);
      if f == s.flight { KeptInMemory(next, g.copy, agent); } else { KeptInFlight(next, f, agent); }
    }
  }

  lemma DoneKeepsKept(w: World, s: Step, agent: Id)
    requires Bounded(w) && WrittenIsInTable(w) && Kept(w, agent) && Enabled(w, s) && s.Done?
    ensures Kept(Next(w, s), agent)
  {
    if agent in w.latest && InMemory(w, agent) {
      var c :| c in w.unflushed && Has(w, w.unflushed[c], agent);
      KeptInMemory(Next(w, s), c, agent);
    } else if agent in w.latest && InFlight(w, agent) {
      var f :| f in w.flights && Has(w, w.flights[f].batch, agent);
      if f != s.flight { KeptInFlight(Next(w, s), f, agent); }
    }
  }

  lemma WriteKeepsKept(w: World, s: Step, agent: Id)
    requires Bounded(w) && Kept(w, agent) && Enabled(w, s) && s.Write?
    ensures Kept(Next(w, s), agent)
  {
    JoinKeepsLatest(w, w.table, w.flights[s.flight].batch, agent);
    if agent in w.latest && InMemory(w, agent) {
      var c :| c in w.unflushed && Has(w, w.unflushed[c], agent);
      KeptInMemory(Next(w, s), c, agent);
    } else if agent in w.latest && InFlight(w, agent) {
      var f :| f in w.flights && Has(w, w.flights[f].batch, agent);
      KeptInFlight(Next(w, s), f, agent);
    }
  }

  lemma StepKeepsKept(w: World, s: Step, agent: Id)
    requires Bounded(w) && WrittenIsInTable(w) && Kept(w, agent)
    ensures Kept(Next(w, s), agent)
  {
    if Enabled(w, s) {
      match s
      case Poll(_, _) => PollKeepsKept(w, s, agent);
      case Drain(_, _) => DrainKeepsKept(w, s, agent);
      case Write(_) => WriteKeepsKept(w, s, agent);
      case Done(_) => DoneKeepsKept(w, s, agent);
      case Fail(_) => FailKeepsKept(w, s, agent);
      case _ =>
    }
  }

  ghost predicate Inv(w: World) {
    Bounded(w) && WrittenIsInTable(w) && forall a :: Kept(w, a)
  }

  lemma StepKeepsInv(w: World, s: Step)
    requires Inv(w)
    ensures Inv(Next(w, s))
  {
    StepKeepsBounded(w, s);
    StepKeepsWritten(w, s);
    forall a ensures Kept(Next(w, s), a) { StepKeepsKept(w, s, a); }
  }

  lemma {:induction false} RunKeepsInv(w: World, steps: seq<Step>)
    requires Inv(w)
    ensures Inv(Run(w, steps))
    decreases |steps|
  {
    if steps != [] {
      StepKeepsInv(w, steps[0]);
      RunKeepsInv(Next(w, steps[0]), steps[1..]);
    }
  }

  lemma InitialInv(w: World)
    requires Initial(w)
    ensures Inv(w)
  {}

  /**
   In every run, an agent's latest poll is the maximum over the copies'
   unflushed times, the batches in flight and the table: nothing is newer,
   and one of them has it.
   */
  lemma {:induction false} MaximumIsConserved(w: World, steps: seq<Step>, agent: Id)
    requires Initial(w) && agent in Run(w, steps).latest
    ensures var e := Run(w, steps);
      && (InMemory(e, agent) || InFlight(e, agent) || Has(e, e.table, agent))
      && Below(e.table, e.latest)
      && (forall c :: c in e.unflushed ==> Below(e.unflushed[c], e.latest))
      && (forall f :: f in e.flights ==> Below(e.flights[f].batch, e.latest))
  {
    InitialInv(w);
    RunKeepsInv(w, steps);
    assert Kept(Run(w, steps), agent);
  }

  // ─── Never backwards ─────────────────────────────────────

  predicate SeenSince(w: World, copy: Id, agent: Id, t: Time) {
    copy in w.presence && agent in w.presence[copy] && w.presence[copy][agent] >= t
  }

  lemma MergeNeverBackwards(w: World, s: Step, copy: Id, agent: Id, t: Time)
    requires SeenSince(w, copy, agent, t) && t > w.clock - PRESENCE_DAYS && Enabled(w, s) && s.Merge?
    ensures SeenSince(Next(w, s), copy, agent, t)
  {
    var r := w.reloads[s.read];
    if r.copy == copy {
      assert agent in Recent(w.presence[copy], w.clock);
    }
  }

  lemma StepNeverBackwards(w: World, s: Step, copy: Id, agent: Id, t: Time)
    requires Bounded(w) && SeenSince(w, copy, agent, t) && t > Next(w, s).clock - PRESENCE_DAYS
    ensures SeenSince(Next(w, s), copy, agent, t)
  {
    if Enabled(w, s) && s.Merge? {
      MergeNeverBackwards(w, s, copy, agent, t);
    }
  }

  lemma {:induction false} ClockNeverRunsBack(w: World, steps: seq<Step>)
    ensures w.clock <= Run(w, steps).clock
    decreases |steps|
  {
    if steps != [] { ClockNeverRunsBack(Next(w, steps[0]), steps[1..]); }
  }

  /**
   Whatever is flushed, lost or reloaded, a copy never shows an agent as seen
   earlier than it did, until that time is a presence window old.
   */
  lemma {:induction false} NeverBackwards(w: World, steps: seq<Step>, copy: Id, agent: Id, t: Time)
    requires Inv(w) && SeenSince(w, copy, agent, t) && t > Run(w, steps).clock - PRESENCE_DAYS
    ensures copy in Run(w, steps).presence
    ensures var seen := LastSeen(Run(w, steps), copy, agent); seen.Some? && seen.value >= t
    decreases |steps|
  {
    if steps != [] {
      ClockNeverRunsBack(Next(w, steps[0]), steps[1..]);
      StepKeepsInv(w, steps[0]);
      StepNeverBackwards(w, steps[0], copy, agent, t);
      NeverBackwards(Next(w, steps[0]), steps[1..], copy, agent, t);
    }
  }

  // ─── Convergence ─────────────────────────────────────────

  /** Every copy has flushed. */
  predicate Settled(w: World) {
    (forall c :: c in w.unflushed ==> w.unflushed[c] == map[]) && w.flights == map[]
  }

  /** `m` has every agent's latest poll that is still in the window. */
  predicate Complete(w: World, m: Times) {
    forall a :: a in w.latest && w.latest[a] > w.clock - PRESENCE_DAYS ==> Has(w, m, a)
  }

  lemma SettledTable(w: World)
    requires Inv(w) && Settled(w)
    ensures w.table == w.latest
  {
    forall a | a in w.latest ensures Has(w, w.table, a) { assert Kept(w, a); }
    assert w.table.Keys == w.latest.Keys;
  }

  lemma ReadIsComplete(w: World, s: Step)
    requires Inv(w) && Settled(w) && Enabled(w, s) && s.Read?
    ensures Complete(Next(w, s), Next(w, s).reloads[s.read].rows)
  {
    SettledTable(w);
  }

  /** No poll, and the reload under way is left alone. */
  predicate Leaves(s: Step, read: Id) {
    !s.Poll? && s != Merge(read) && s != DropRead(read)
  }

  lemma StaysComplete(w: World, s: Step, m: Times)
    requires Complete(w, m) && !s.Poll?
    ensures Complete(Next(w, s), m) && Next(w, s).latest == w.latest
  {}

  /** A reload under way that read `rows`, all it needed. */
  ghost predicate Reloading(w: World, read: Id, rows: Rows) {
    Inv(w) && read in w.reloads && w.reloads[read] == rows && Complete(w, rows.rows) && rows.copy in w.presence
  }

  lemma StepLeavesRead(w: World, s: Step, read: Id)
    requires read in w.reloads && w.reloads[read].copy in w.presence && Leaves(s, read)
    ensures read in Next(w, s).reloads && Next(w, s).reloads[read] == w.reloads[read]
    ensures w.reloads[read].copy in Next(w, s).presence
  {}

  lemma StepKeepsReloading(w: World, s: Step, read: Id, rows: Rows)
    requires Reloading(w, read, rows) && Leaves(s, read)
    ensures Reloading(Next(w, s), read, rows) && Next(w, s).latest == w.latest
  {
    StepKeepsInv(w, s);
    StaysComplete(w, s, rows.rows);
    StepLeavesRead(w, s, read);
  }

  lemma {:induction false} RunKeepsReloading(w: World, steps: seq<Step>, read: Id, rows: Rows)
    requires Reloading(w, read, rows)
    requires forall s :: s in steps ==> Leaves(s, read)
    ensures Reloading(Run(w, steps), read, rows) && Run(w, steps).latest == w.latest
    decreases |steps|
  {
    if steps != [] {
      StepKeepsReloading(w, steps[0], read, rows);
      RunKeepsReloading(Next(w, steps[0]), steps[1..], read, rows);
    }
  }

  lemma MergeCompletes(w: World, read: Id)
    requires Inv(w) && Enabled(w, Merge(read)) && Complete(w, w.reloads[read].rows)
    ensures Complete(Next(w, Merge(read)), Next(w, Merge(read)).presence[w.reloads[read].copy])
  {
    var r := w.reloads[read];
    var recent := Recent(w.presence[r.copy], w.clock);
    forall a | a in w.latest && w.latest[a] > w.clock - PRESENCE_DAYS ensures Has(w, Join(r.rows, recent), a) {
      JoinKeepsLatest(w, r.rows, recent, a);
    }
  }

  lemma PresenceStaysComplete(w: World, s: Step, copy: Id)
    requires Inv(w) && !s.Poll? && copy in w.presence && Complete(w, w.presence[copy])
    ensures copy in Next(w, s).presence && Complete(Next(w, s), Next(w, s).presence[copy])
  {
    if Enabled(w, s) && s.Merge? && w.reloads[s.read].copy == copy {
      var rows, recent := w.reloads[s.read].rows, Recent(w.presence[copy], w.clock);
      forall a | a in w.latest && w.latest[a] > w.clock - PRESENCE_DAYS ensures Has(w, Join(rows, recent), a) {
        assert Has(w, recent, a);
        JoinKeepsLatest(w, rows, recent, a);
      }
    } else {
      StaysComplete(w, s, w.presence[copy]);
    }
  }

  ghost predicate UpToDate(w: World, copy: Id) {
    Inv(w) && copy in w.presence && Complete(w, w.presence[copy])
  }

  lemma StepKeepsUpToDate(w: World, s: Step, copy: Id)
    requires UpToDate(w, copy) && !s.Poll?
    ensures UpToDate(Next(w, s), copy) && Next(w, s).latest == w.latest
  {
    StepKeepsInv(w, s);
    PresenceStaysComplete(w, s, copy);
  }

  lemma {:induction false} RunKeepsUpToDate(w: World, steps: seq<Step>, copy: Id)
    requires UpToDate(w, copy)
    requires forall s :: s in steps ==> !s.Poll?
    ensures UpToDate(Run(w, steps), copy) && Run(w, steps).latest == w.latest
    decreases |steps|
  {
    if steps != [] {
      StepKeepsUpToDate(w, steps[0], copy);
      RunKeepsUpToDate(Next(w, steps[0]), steps[1..], copy);
    }
  }

  lemma CompleteShowsLatest(w: World, copy: Id, agent: Id)
    requires UpToDate(w, copy)
    ensures LastSeen(w, copy, agent) ==
      if agent in w.latest && w.latest[agent] > w.clock - PRESENCE_DAYS then Some(w.latest[agent]) else None
  {
    assert Below(w.presence[copy], w.latest);
  }

  /**
   Once every copy has flushed and polls have stopped, a copy that reloads
   shows exactly each agent's latest poll inside the window, whatever else
   runs meanwhile and after. So all copies that have reloaded agree.
   */
  lemma {:induction false} CopiesConverge(w: World, copy: Id, read: Id, between: seq<Step>, after: seq<Step>, agent: Id)
    requires Inv(w) && Settled(w) && Enabled(w, Read(copy, read))
    requires forall s :: s in between ==> Leaves(s, read)
    requires forall s :: s in after ==> !s.Poll?
    ensures var e := Run(Next(Run(Next(w, Read(copy, read)), between), Merge(read)), after);
      && copy in e.presence
      && LastSeen(e, copy, agent) ==
           if agent in w.latest && w.latest[agent] > e.clock - PRESENCE_DAYS then Some(w.latest[agent]) else None
  {
    var u := Next(w, Read(copy, read));
    StepKeepsInv(w, Read(copy, read));
    ReadIsComplete(w, Read(copy, read));
    RunKeepsReloading(u, between, read, u.reloads[read]);
    var v := Run(u, between);
    StepKeepsInv(v, Merge(read));
    MergeCompletes(v, read);
    RunKeepsUpToDate(Next(v, Merge(read)), after, copy);
    CompleteShowsLatest(Run(Next(v, Merge(read)), after), copy, agent);
  }
}
