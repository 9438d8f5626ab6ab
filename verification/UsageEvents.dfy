/**
 Usage metering: requests queue events without waiting, one writer drains
 them in batches, and `flush` waits for what was queued before it.
 */
module UsageEvents {
  import opened Prelude
  import opened Batches

  const CAPACITY: nat := 10_000
  const BATCH_MAX: nat := 500

  type User = Id

  datatype Actor = Anonymous | Header(header: string) | Known(user: User)

  datatype Event = Event(actor: Actor, action: string)

  /** A row of `usage_events`, attributed. */
  datatype Row = Row(user: Option<User>, action: string)

  datatype Msg = Metered(event: Event) | Flush(id: Id)

  function Events(q: seq<Msg>): seq<Event> {
    if q == [] then []
    else (if q[0].Metered? then [q[0].event] else []) + Events(q[1..])
  }

  function Flushes(q: seq<Msg>): seq<Id> {
    if q == [] then []
    else (if q[0].Flush? then [q[0].id] else []) + Flushes(q[1..])
  }

  lemma {:induction false} EventsOfBoth(a: seq<Msg>, b: seq<Msg>)
    ensures Events(a + b) == Events(a) + Events(b) && Flushes(a + b) == Flushes(a) + Flushes(b)
  {
    if a == [] {
      assert a + b == b;
    } else {
      assert (a + b)[1..] == a[1..] + b;
      EventsOfBoth(a[1..], b);
      var first := if a[0].Metered? then [a[0].event] else [];
      assert first + (Events(a[1..]) + Events(b)) == (first + Events(a[1..])) + Events(b);
      var mark := if a[0].Flush? then [a[0].id] else [];
      assert mark + (Flushes(a[1..]) + Flushes(b)) == (mark + Flushes(a[1..])) + Flushes(b);
    }
  }

  // ─── Attribution ─────────────────────────────────────────

  /** What each `Authorization` header resolves to; an unknown one to nobody. */
  type Directory = map<string, User>

  function Authenticate(users: Directory, header: string): Option<User> {
    if header in users then Some(users[header]) else None
  }

  /** One event resolved on its own. */
  function RowFor(users: Directory, e: Event): Row {
    Row(match e.actor
        case Anonymous => None
        case Header(h) => Authenticate(users, h)
        case Known(user) => Some(user),
        e.action)
  }

  /** The row of one event: its action, under whoever its header resolves to, or is known to have made it. */
  predicate Attributed(users: Directory, e: Event, row: Row) {
    && row.action == e.action
    && (e.actor.Anonymous? ==> row.user.None?)
    && (e.actor.Known? ==> row.user == Some(e.actor.user))
    && (e.actor.Header? && e.actor.header in users ==> row.user == Some(users[e.actor.header]))
    && (e.actor.Header? && e.actor.header !in users ==> row.user.None?)
  }

  function RowsFor(users: Directory, batch: seq<Event>): seq<Row> {
    seq(|batch|, i requires 0 <= i < |batch| => RowFor(users, batch[i]))
  }

  /**
   Resolve each distinct header once, then attribute every row: the same rows
   as resolving event by event. `asked` are the headers looked up.
   */
  method WriteUsageBatch(users: Directory, batch: seq<Event>) returns (rows: seq<Row>, asked: seq<string>)
    ensures rows == RowsFor(users, batch)
    ensures |rows| == |batch| && forall i :: 0 <= i < |batch| ==> Attributed(users, batch[i], rows[i])
    ensures forall i, j :: 0 <= i < j < |asked| ==> asked[i] != asked[j]
    ensures forall h :: h in asked <==> exists e :: e in batch && e.actor == Header(h)
  {
    var resolved: map<string, Option<User>> := map[];
    asked := [];
    for i := 0 to |batch|
      invariant forall h :: h in resolved <==> h in asked
      invariant forall h :: h in resolved ==> resolved[h] == Authenticate(users, h)
      invariant forall j, k :: 0 <= j < k < |asked| ==> asked[j] != asked[k]
      invariant forall k :: 0 <= k < i && batch[k].actor.Header? ==> batch[k].actor.header in resolved
      invariant forall h :: h in asked ==> exists e :: e in batch && e.actor == Header(h)
    {
      if batch[i].actor.Header? && batch[i].actor.header !in resolved {
        var header := batch[i].actor.header;
        assert batch[i] in batch;
        resolved := resolved[header := Authenticate(users, header)];
        asked := asked + [header];
      }
    }
    rows := [];
    for i := 0 to |batch|
      invariant rows == RowsFor(users, batch[..i])
    {
      var user := match batch[i].actor
        case Anonymous => None
        case Header(h) => resolved[h]
        case Known(u) => Some(u);
      rows := rows + [Row(user, batch[i].action)];
    }
    assert batch[..|batch|] == batch;
  }

  // ─── One wake-up of the writer ───────────────────────────

  class UsageWriter {
    var queue: seq<Msg>
    var rows: seq<Row>
    var answered: seq<Id>

    constructor (queue: seq<Msg>)
      ensures this.queue == queue && rows == [] && answered == []
    {
      this.queue := queue;
      rows, answered := [], [];
    }

    /**
     Take what has arrived, up to a full batch, write it, then answer the
     flushes taken: the first `n` messages, and no flush before every event
     ahead of it.
     */
    method WakeUp(users: Directory) returns (ghost n: nat)
      requires queue != []
      modifies this
      ensures 0 < n <= |old(queue)| && queue == old(queue)[n..]
      ensures rows == old(rows) + RowsFor(users, Events(old(queue)[..n]))
      ensures answered == old(answered) + Flushes(old(queue)[..n])
      ensures |Events(old(queue)[..n])| <= BATCH_MAX
      ensures n == |old(queue)| || |Events(old(queue)[..n])| == BATCH_MAX
    {
      var batch, flushes := Pushed(queue[0], [], []);
      n := 1;
      queue := queue[1..];
      assert old(queue)[..1] == [old(queue)[0]];
      while |batch| < BATCH_MAX && queue != []
        invariant 0 < n <= |old(queue)| && queue == old(queue)[n..]
        invariant batch == Events(old(queue)[..n]) && flushes == Flushes(old(queue)[..n])
        invariant |batch| <= BATCH_MAX && rows == old(rows) && answered == old(answered)
        decreases |queue|
      {
        EventsOfBoth(old(queue)[..n], [queue[0]]);
        assert old(queue)[..n + 1] == old(queue)[..n] + [queue[0]];
        batch, flushes := Pushed(queue[0], batch, flushes);
        queue := queue[1..];
        n := n + 1;
      }
      var written, _ := WriteUsageBatch(users, batch);
      rows := rows + written;
      answered := answered + flushes;
    }
  }

  /** `push_usage_msg`. */
  method Pushed(m: Msg, batch: seq<Event>, flushes: seq<Id>) returns (batch': seq<Event>, flushes': seq<Id>)
    ensures batch' == batch + Events([m]) && flushes' == flushes + Flushes([m])
  {
    assert Events([]) == [] && Flushes([]) == [];
    match m
    case Metered(e) => batch', flushes' := batch + [e], flushes;
    case Flush(id) => batch', flushes' := batch, flushes + [id];
  }

  // ─── Recorders and the writer together ───────────────────

  /** Where the writer is: waiting, filling a batch, or `Writing` from one row on. */
  datatype Phase = Waiting | Filling | Writing(next: nat)

  /**
   `recorded` and `accepted`, histories, are every call of `record` and the
   events that got in; `marks` how many had when each flush did.
   */
  datatype World = World(
    recorded: nat, accepted: seq<Event>, dropped: nat,
    queue: seq<Msg>, batch: seq<Event>, flushes: seq<Id>, phase: Phase,
    written: seq<Event>, answered: set<Id>, marks: map<Id, nat>, alive: bool)

  datatype Step =
    | Record(event: Event)
    | SendFlush(id: Id)
    | Take
    | StartWriting
    | WriteRow
    | Answer
    | Die

  /** The batch rows still to hand to the insert. */
  function Rest(w: World): seq<Event> {
    match w.phase
    case Writing(next) => if next <= |w.batch| then w.batch[next..] else []
    case _ => w.batch
  }

  predicate Enabled(w: World, s: Step) {
    match s
    case Record(_) => true
    case SendFlush(id) => id !in w.marks && |w.queue| < CAPACITY && w.alive
    case Take => w.alive && w.queue != [] && (w.phase.Waiting? || (w.phase.Filling? && |w.batch| < BATCH_MAX))
    case StartWriting => w.alive && w.phase.Filling? && (w.queue == [] || |w.batch| >= BATCH_MAX)
    case WriteRow => w.alive && w.phase.Writing? && w.phase.next < |w.batch|
    case Answer => w.alive && w.phase.Writing? && w.phase.next >= |w.batch|
    case Die => w.alive
  }

  function Next(w: World, s: Step): World {
    if !Enabled(w, s) then w else
    match s
    case Record(e) =>
      if w.alive && |w.queue| < CAPACITY then
        w.(recorded := w.recorded + 1, accepted := w.accepted + [e], queue := w.queue + [Metered(e)])
      else w.(recorded := w.recorded + 1, dropped := w.dropped + 1)
    case SendFlush(id) => w.(queue := w.queue + [Flush(id)], marks := w.marks[id := |w.accepted|])
    case Take =>
      var m := w.queue[0];
      w.(queue := w.queue[1..], phase := Filling,
         batch := if m.Metered? then w.batch + [m.event] else w.batch,
         flushes := if m.Flush? then w.flushes + [m.id] else w.flushes)
    case StartWriting => w.(phase := Writing(0))
    case WriteRow => w.(phase := Writing(w.phase.next + 1), written := w.written + [w.batch[w.phase.next]])
    case Answer =>
      w.(phase := Waiting, batch := [], flushes := [], answered := w.answered + (set id | id in w.flushes))
    case Die => w.(alive := false, queue := [], batch := [], flushes := [], phase := Waiting)
  }

  function Run(w: World, steps: seq<Step>): World
    decreases |steps|
  {
    if steps == [] then w else Run(Next(w, steps[0]), steps[1..])
  }

  predicate Initial(w: World) {
    w == World(0, [], 0, [], [], [], Waiting, [], {}, map[], true)
  }

  /** Each queued flush's mark is what is ahead of it, `base` events and the queue's. */
  predicate MarksOk(q: seq<Msg>, marks: map<Id, nat>, base: nat) {
    if q == [] then true
    else if q[0].Flush? then q[0].id in marks && marks[q[0].id] <= base && MarksOk(q[1..], marks, base)
    else MarksOk(q[1..], marks, base + 1)
  }

  lemma {:induction false} MarksAppend(q: seq<Msg>, m: Msg, marks: map<Id, nat>, base: nat)
    requires MarksOk(q, marks, base)
    requires m.Flush? ==> m.id in marks && marks[m.id] <= base + |Events(q)|
    ensures MarksOk(q + [m], marks, base)
  {
    if q != [] {
      assert (q + [m])[1..] == q[1..] + [m];
      MarksAppend(q[1..], m, marks, if q[0].Flush? then base else base + 1);
    } else {
      assert MarksOk([], marks, base) && MarksOk([], marks, base + 1);
      assert ([m])[1..] == [];
    }
  }

  lemma {:induction false} MarksGrow(q: seq<Msg>, marks: map<Id, nat>, id: Id, n: nat, base: nat)
    requires MarksOk(q, marks, base) && id !in marks
    ensures MarksOk(q, marks[id := n], base)
  {
    if q != [] { MarksGrow(q[1..], marks, id, n, if q[0].Flush? then base else base + 1); }
  }

  predicate Accounted(w: World) {
    && w.recorded == |w.accepted| + w.dropped
    && w.written <= w.accepted
    && (w.alive ==> w.accepted == w.written + Rest(w) + Events(w.queue))
  }

  predicate FlushesOk(w: World) {
    && MarksOk(w.queue, w.marks, |w.written| + |Rest(w)|)
    && (forall id :: id in w.flushes ==> id in w.marks && w.marks[id] <= |w.written| + |Rest(w)|)
    && (forall id :: id in w.answered ==> id in w.marks && w.marks[id] <= |w.written|)
  }

  predicate PhaseOk(w: World) {
    && |w.batch| <= BATCH_MAX && |w.queue| <= CAPACITY
    && (w.phase.Waiting? ==> w.batch == [] && w.flushes == [])
    && (w.phase.Writing? ==> w.phase.next <= |w.batch|)
  }

  predicate Inv(w: World) {
    Accounted(w) && FlushesOk(w) && PhaseOk(w)
  }

  /** The queue with an event more. */
  lemma OneMoreQueued(q: seq<Msg>, e: Event)
    ensures Events(q + [Metered(e)]) == Events(q) + [e]
  {
    EventsOfBoth(q, [Metered(e)]);
    assert Events([Metered(e)]) == [e];
  }

  lemma AcceptedKeepsAccounts(w: World, s: Step)
    requires Inv(w) && s.Record? && w.alive && |w.queue| < CAPACITY
    ensures Accounted(Next(w, s)) && PhaseOk(Next(w, s))
  {
    OneMoreQueued(w.queue, s.event);
    assert w.accepted + [s.event] == w.written + Rest(w) + (Events(w.queue) + [s.event]);
  }

  lemma AcceptedKeepsFlushes(w: World, s: Step)
    requires Inv(w) && s.Record? && w.alive && |w.queue| < CAPACITY
    ensures FlushesOk(Next(w, s))
  {
    MarksAppend(w.queue, Metered(s.event), w.marks, |w.written| + |Rest(w)|);
  }

  lemma RecordKeepsInv(w: World, s: Step)
    requires Inv(w) && s.Record?
    ensures Inv(Next(w, s))
  {
    if w.alive && |w.queue| < CAPACITY {
      AcceptedKeepsAccounts(w, s);
      AcceptedKeepsFlushes(w, s);
    }
  }

  lemma SendFlushKeepsInv(w: World, s: Step)
    requires Inv(w) && s.SendFlush? && Enabled(w, s)
    ensures Inv(Next(w, s))
  {
    EventsOfBoth(w.queue, [Flush(s.id)]);
    assert Events([Flush(s.id)]) == [];
    var base := |w.written| + |Rest(w)|;
    MarksGrow(w.queue, w.marks, s.id, |w.accepted|, base);
    MarksAppend(w.queue, Flush(s.id), w.marks[s.id := |w.accepted|], base);
  }

  lemma TakeKeepsInv(w: World, s: Step)
    requires Inv(w) && s.Take? && Enabled(w, s)
    ensures Inv(Next(w, s))
  {
    var next := Next(w, s);
    assert w.queue == [w.queue[0]] + w.queue[1..];
    assert next.written + Rest(next) + Events(next.queue) == w.written + Rest(w) + Events(w.queue);
  }

  lemma WriteRowKeepsInv(w: World, s: Step)
    requires Inv(w) && s.WriteRow? && Enabled(w, s)
    ensures Inv(Next(w, s))
  {
    var next := Next(w, s);
    assert Rest(w) == [w.batch[w.phase.next]] + Rest(next);
    assert next.written + Rest(next) == w.written + Rest(w);
  }

  lemma StepKeepsInv(w: World, s: Step)
    requires Inv(w)
    ensures Inv(Next(w, s))
  {
    if Enabled(w, s) {
      match s
      case Record(_) => RecordKeepsInv(w, s);
      case SendFlush(_) => SendFlushKeepsInv(w, s);
      case Take => TakeKeepsInv(w, s);
      case WriteRow => WriteRowKeepsInv(w, s);
      case _ =>
    }
  }

  lemma {:induction false} RunKeepsInv(w: World, steps: seq<Step>)
    requires Inv(w)
    ensures Inv(Run(w, steps))
    decreases |steps|
  {
    if steps != [] {
      StepKeepsInv(w, steps[0]);
      RunKeepsInv(Next(w, steps[0]), steps[1..]);
    }
  }

  /**
   However events and flushes fall into batches: every recorded event was
   dropped or accepted, and while the writer lives the accepted ones are, in
   order, those handed to the insert, those left of the batch and those
   queued.
   */
  lemma {:induction false} EventsAreConserved(w: World, steps: seq<Step>)
    requires Initial(w)
    ensures var e := Run(w, steps);
      && e.recorded == e.dropped + |e.accepted|
      && (e.alive ==> e.accepted == e.written + Rest(e) + Events(e.queue))
      && |e.batch| <= BATCH_MAX && |e.queue| <= CAPACITY
  {
    RunKeepsInv(w, steps);
  }

  /**
   A flush that is answered finds everything accepted before it was queued
   handed to the insert, in order. One that returns because the writer is
   gone promises nothing.
   */
  lemma {:induction false} AnsweredFlushIsWritten(w: World, before: seq<Step>, id: Id, after: seq<Step>)
    requires Initial(w) && Enabled(Run(w, before), SendFlush(id))
    ensures var sent := Next(Run(w, before), SendFlush(id));
      id in Run(sent, after).answered ==> Run(w, before).accepted <= Run(sent, after).written
  {
    RunKeepsInv(w, before);
    var u := Run(w, before);
    StepKeepsInv(u, SendFlush(id));
    RunKeepsInv(Next(u, SendFlush(id)), after);
    RunKeepsHistory(Next(u, SendFlush(id)), after, id);
  }

  // ─── Every flush is answered ─────────────────────────────

  /** While the writer lives, a flush sent is queued, taken with the batch, or answered. */
  ghost predicate FlushesKept(w: World) {
    w.alive ==>
      forall id :: id in w.marks <==> id in Flushes(w.queue) || id in w.flushes || id in w.answered
  }

  lemma StepKeepsFlushes(w: World, s: Step)
    requires FlushesKept(w)
    ensures FlushesKept(Next(w, s))
  {
    if Enabled(w, s) {
      match s
      case Record(e) => EventsOfBoth(w.queue, [Metered(e)]); assert Flushes([Metered(e)]) == [];
      case SendFlush(id) => EventsOfBoth(w.queue, [Flush(id)]); assert Flushes([Flush(id)]) == [id];
      case _ =>
    }
  }

  lemma {:induction false} RunKeepsFlushes(w: World, steps: seq<Step>)
    requires FlushesKept(w)
    ensures FlushesKept(Run(w, steps))
    decreases |steps|
  {
    if steps != [] {
      StepKeepsFlushes(w, steps[0]);
      RunKeepsFlushes(Next(w, steps[0]), steps[1..]);
    }
  }

  /**
   No flush is forgotten: in every run, with the writer alive and waiting on
   an empty queue, exactly the flushes sent have been answered.
   */
  lemma {:induction false} FlushesAreAnswered(w: World, steps: seq<Step>)
    requires Initial(w)
    ensures var e := Run(w, steps);
      e.alive && e.phase.Waiting? && e.queue == [] ==> e.answered == e.marks.Keys
  {
    RunKeepsFlushes(w, steps);
    RunKeepsInv(w, steps);
  }

  lemma StepKeepsHistory(w: World, s: Step, id: Id)
    requires id in w.marks
    ensures id in Next(w, s).marks && Next(w, s).marks[id] == w.marks[id] && w.accepted <= Next(w, s).accepted
  {}

  lemma {:induction false} RunKeepsHistory(w: World, steps: seq<Step>, id: Id)
    requires id in w.marks
    ensures id in Run(w, steps).marks && Run(w, steps).marks[id] == w.marks[id] && w.accepted <= Run(w, steps).accepted
    decreases |steps|
  {
    if steps != [] {
      StepKeepsHistory(w, steps[0], id);
      RunKeepsHistory(Next(w, steps[0]), steps[1..], id);
    }
  }
}
