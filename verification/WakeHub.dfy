/**
 Waiting pulls: queued work, the wake hub of each process, the bus between
 them, and the pulls that wait. A run is any sequence of steps, so it covers
 every interleaving of any number of processes and pulls.
 */
module WakeHub {
  import opened Prelude
  import opened Batches

  datatype Feed = Invocations | Notices | Calls

  datatype Key = Key(agent: Id, feed: Feed)

  /** A process's connection for other processes' wakes. */
  datatype Link =
    | Listening
    | Lapsed   // re-establishing it, to wake everyone after
    | Down      // failed; everyone was woken before the next attempt

  datatype Hub = Hub(
    versions: map<Key, nat>,   // an entry only while a pull waits on it
    owed: multiset<Key>,       // committed by this process, notify still to come
    outbound: set<Key>,        // notified here, not yet published
    inbox: multiset<Key>,      // published by others, not yet received
    waiters: nat,
    maxWaiters: nat,
    closed: bool,
    link: Link,
    toWake: set<Key>)          // what `wake_everyone` has yet to signal
  {
    function Signalled(key: Key): Hub {
      if key in versions then this.(versions := versions[key := versions[key] + 1]) else this
    }

    /** The connection is gone, with what was on its way. */
    function Cut(link: Link): Hub {
      this.(link := link, inbox := multiset{})
    }

    function WakingEveryone(): Hub {
      this.(toWake := toWake + versions.Keys)
    }
  }

  /** Between its claims a pull either claims again or is blocked; `seen` is its receiver's. */
  datatype Phase = Claiming | Blocked

  datatype Pull = Pull(hub: Id, key: Key, seen: nat, phase: Phase)

  datatype World = World(
    work: map<Id, Key>,        // claimable rows, by feed
    held: set<Id>,             // rows another transaction has locked
    hubs: map<Id, Hub>,
    pulls: map<Id, Pull>)      // subscribed pulls

  /** What one process does to its own hub. */
  datatype HubChange =
    | Owe(key: Key)
    | Notify(key: Key)
    | Receive(key: Key)
    | DropLink
    | Reconnect
    | FailLink
    | Connect
    | WakeOne(key: Key)
    | Close

  datatype Step =
    | Queue(at: Id, key: Key, ids: set<Id>)
    | OnHub(at: Id, change: HubChange)
    | Publish(at: Id)
    | Unsaid(at: Id, key: Key)
    | Crash(at: Id)
    | Subscribe(pull: Id, at: Id, key: Key)
    | Claim(pull: Id, limit: nat, taken: set<Id>)
    | FailClaim(pull: Id)
    | Wake(pull: Id)
    | Leave(pull: Id)
    | Lock(ids: set<Id>)
    | Settle(ids: set<Id>)
    | Unlock(ids: set<Id>)

  // ─── Queries ─────────────────────────────────────────────

  function Available(work: map<Id, Key>, held: set<Id>, key: Key): set<Id> {
    set id | id in work && work[id] == key && id !in held
  }

  /** Some process outside `besides` has `key` to pass on to `hub`. */
  predicate Outgoing(hubs: map<Id, Hub>, hub: Id, key: Key, besides: set<Id>) {
    exists q :: q in hubs && q != hub && q !in besides && key in hubs[q].outbound
  }

  /** Some process outside `besides` has a notify of `key` to make. */
  predicate ToNotify(hubs: map<Id, Hub>, key: Key, besides: set<Id>) {
    exists q :: q in hubs && q !in besides && key in hubs[q].owed
  }

  /** A signal for `key` is on its way into `hub`, or a wake of everyone there is. */
  predicate Incoming(hubs: map<Id, Hub>, hub: Id, key: Key) {
    hub in hubs && (key in hubs[hub].inbox || key in hubs[hub].toWake || hubs[hub].link.Lapsed?)
  }

  /**
   A signal for `key` is still to reach `hub`, even if the processes of
   `unpublished` publish nothing and those of `unsaid` notify no more.
   */
  predicate Owed(hubs: map<Id, Hub>, hub: Id, key: Key, unpublished: set<Id>, unsaid: set<Id>) {
    ToNotify(hubs, key, unsaid) || Outgoing(hubs, hub, key, unpublished) || Incoming(hubs, hub, key)
  }

  /** Its receiver is registered, so the sender lives in the map while it waits. */
  predicate Registered(hubs: map<Id, Hub>, p: Pull) {
    p.hub in hubs && p.key in hubs[p.hub].versions && p.seen <= hubs[p.hub].versions[p.key]
  }

  /** Something newer than it has seen. */
  predicate Newer(hubs: map<Id, Hub>, p: Pull)
    requires Registered(hubs, p)
  {
    p.seen < hubs[p.hub].versions[p.key]
  }

  predicate AllRegistered(w: World) {
    forall p :: p in w.pulls ==> Registered(w.hubs, w.pulls[p])
  }

  /** Blocked although there is work it could claim. */
  predicate Starving(w: World, pull: Id) {
    && pull in w.pulls && w.pulls[pull].phase.Blocked?
    && Available(w.work, w.held, w.pulls[pull].key) != {}
  }

  /** Not blocked on claimable work without a signal, made or due, to wake it. */
  predicate Served(w: World, pull: Id)
    requires AllRegistered(w)
  {
    Starving(w, pull) ==>
      var p := w.pulls[pull]; Newer(w.hubs, p) || Owed(w.hubs, p.hub, p.key, {}, {})
  }

  function PullsAt(pulls: map<Id, Pull>, hub: Id): set<Id> {
    set p | p in pulls && pulls[p].hub == hub
  }

  // ─── Steps ───────────────────────────────────────────────

  predicate HubApplies(hub: Hub, c: HubChange) {
    match c
    case Owe(_) => true
    case Notify(key) => key in hub.owed
    case Receive(key) => key in hub.inbox
    case DropLink => hub.link.Listening?
    case Reconnect => hub.link.Lapsed?
    case FailLink => !hub.link.Down?
    case Connect => hub.link.Down?
    case WakeOne(key) => key in hub.toWake
    case Close => true
  }

  function HubChanged(hub: Hub, c: HubChange): Hub {
    match c
    case Owe(key) => hub.(owed := hub.owed + multiset{key})
    case Notify(key) =>
      hub.Signalled(key).(owed := hub.owed - multiset{key}, outbound := hub.outbound + {key})
    case Receive(key) => hub.Signalled(key).(inbox := hub.inbox - multiset{key})
    case DropLink => hub.Cut(Lapsed)
    case Reconnect => hub.WakingEveryone().(link := Listening)
    case FailLink => hub.WakingEveryone().Cut(Down)
    case Connect => hub.(link := Listening)
    case WakeOne(key) => hub.Signalled(key).(toWake := hub.toWake - {key})
    case Close => hub.(closed := true)
  }

  predicate Enabled(w: World, s: Step) {
    match s
    case Queue(at, key, ids) => at in w.hubs && ids !! w.work.Keys && ids !! w.held
    // Only a commit that queues work owes a notify.
    case OnHub(at, c) => at in w.hubs && HubApplies(w.hubs[at], c) && !c.Owe?
    case Publish(at) => at in w.hubs
    // The commit's acknowledgement was lost, or the request was dropped.
    case Unsaid(at, key) => at in w.hubs && key in w.hubs[at].owed
    case Crash(at) => at in w.hubs
    case Subscribe(pull, at, key) =>
      pull !in w.pulls && at in w.hubs && !w.hubs[at].closed && w.hubs[at].waiters < w.hubs[at].maxWaiters
    case Claim(pull, limit, taken) =>
      && pull in w.pulls && w.pulls[pull].phase.Claiming? && 0 < limit
      && IsBatch(Available(w.work, w.held, w.pulls[pull].key), limit, taken)
    case FailClaim(pull) => pull in w.pulls && w.pulls[pull].phase.Claiming?
    case Wake(pull) =>
      pull in w.pulls && w.pulls[pull].phase.Blocked?
      && Registered(w.hubs, w.pulls[pull]) && Newer(w.hubs, w.pulls[pull])
    case Leave(pull) => pull in w.pulls && w.pulls[pull].phase.Blocked?
    case Lock(ids) => ids !! w.held
    case Settle(ids) => ids <= w.held
    case Unlock(ids) => ids <= w.held
  }

  function SetHub(w: World, id: Id, hub: Hub): World {
    w.(hubs := w.hubs[id := hub])
  }

  function Without(work: map<Id, Key>, ids: set<Id>): map<Id, Key> {
    map id | id in work && id !in ids :: work[id]
  }

  /** Every other process listening gets `at`'s outbound keys. */
  function Broadcast(hubs: map<Id, Hub>, at: Id): map<Id, Hub>
    requires at in hubs
  {
    map h | h in hubs ::
      if h == at then hubs[h].(outbound := {})
      else if hubs[h].link.Listening? then hubs[h].(inbox := hubs[h].inbox + multiset(hubs[at].outbound))
      else hubs[h]
  }

  /** A notify that is never made. */
  function Silenced(hubs: map<Id, Hub>, at: Id, key: Key): map<Id, Hub>
    requires at in hubs
  {
    hubs[at := hubs[at].(owed := hubs[at].owed - multiset{key})]
  }

  /** A process restarts with an empty hub; its pulls are gone, and so is what it had to say. */
  function Restarted(hubs: map<Id, Hub>, at: Id): map<Id, Hub>
    requires at in hubs
  {
    hubs[at := Hub(map[], multiset{}, {}, multiset{}, 0, hubs[at].maxWaiters, false, Down, {})]
  }

  function Crashed(w: World, at: Id): World
    requires at in w.hubs
  {
    w.(hubs := Restarted(w.hubs, at), pulls := map p | p in w.pulls && w.pulls[p].hub != at :: w.pulls[p])
  }

  /** A hub without one of its waiters: the slot is free, and the entry too unless `shared`. */
  function WithoutWaiter(hub: Hub, key: Key, shared: bool): Hub {
    hub.(waiters := if hub.waiters > 0 then hub.waiters - 1 else 0,
         versions := if shared then hub.versions else hub.versions - {key})
  }

  /** A pull returns, and its waiter goes. */
  function Returned(w: World, pull: Id): World
    requires pull in w.pulls
  {
    var p, rest := w.pulls[pull], w.pulls - {pull};
    var shared := exists q :: q in rest && rest[q].hub == p.hub && rest[q].key == p.key;
    if p.hub in w.hubs then SetHub(w, p.hub, WithoutWaiter(w.hubs[p.hub], p.key, shared)).(pulls := rest) else w
  }

  function Subscribed(w: World, pull: Id, at: Id, key: Key): World
    requires at in w.hubs
  {
    var hub := w.hubs[at];
    var now := if key in hub.versions then hub.versions[key] else 0;
    SetHub(w, at, hub.(waiters := hub.waiters + 1, versions := hub.versions[key := now]))
      .(pulls := w.pulls[pull := Pull(at, key, now, Claiming)])
  }

  function HubsAfter(hubs: map<Id, Hub>, at: Id, c: HubChange): map<Id, Hub>
    requires at in hubs
  {
    hubs[at := HubChanged(hubs[at], c)]
  }

  function Next(w: World, s: Step): World {
    if !Enabled(w, s) then w else
    match s
    case Queue(at, key, ids) =>
      w.(hubs := HubsAfter(w.hubs, at, Owe(key)),
         work := map id | id in w.work.Keys + ids :: if id in ids then key else w.work[id])
    case OnHub(at, c) => w.(hubs := HubsAfter(w.hubs, at, c))
    case Publish(at) => w.(hubs := Broadcast(w.hubs, at))
    case Unsaid(at, key) => w.(hubs := Silenced(w.hubs, at, key))
    case Crash(at) => Crashed(w, at)
    case Subscribe(pull, at, key) => Subscribed(w, pull, at, key)
    case Claim(pull, _, taken) =>
      if taken == {} then w.(pulls := w.pulls[pull := w.pulls[pull].(phase := Blocked)])
      else Returned(w, pull).(work := Without(w.work, taken))
    case FailClaim(pull) => Returned(w, pull)
    case Wake(pull) =>
      var p := w.pulls[pull];
      w.(pulls := w.pulls[pull := p.(phase := Claiming, seen := w.hubs[p.hub].versions[p.key])])
    case Leave(pull) => Returned(w, pull)
    case Lock(ids) => w.(held := w.held + ids)
    case Settle(ids) => w.(held := w.held - ids, work := Without(w.work, ids))
    case Unlock(ids) => w.(held := w.held - ids)
  }

  function Run(w: World, steps: seq<Step>): World
    decreases |steps|
  {
    if steps == [] then w else Run(Next(w, steps[0]), steps[1..])
  }

  predicate Initial(w: World) {
    w.pulls == map[] && forall h :: h in w.hubs ==> w.hubs[h].versions == map[] && w.hubs[h].waiters == 0
  }

  // ─── No lost wakeups ─────────────────────────────────────

  /** A transaction that lets go of `ids` leaves some of them claimable on `key`. */
  predicate Frees(w: World, ids: set<Id>, key: Key) {
    exists id :: id in ids && id in w.work && w.work[id] == key
  }

  /**
   The four steps that lose a wakeup, each when no other signal was due: a
   transaction lets go of rows it had locked and left claimable, after the
   pull's claim skipped them; the wake is published while this process's
   listener has failed; the notify after a commit is never made; or the
   process that was to notify or publish dies.
   */
  predicate Loses(w: World, s: Step, pull: Id) {
    && pull in w.pulls && w.pulls[pull].phase.Blocked?
    && Registered(w.hubs, w.pulls[pull]) && !Newer(w.hubs, w.pulls[pull])
    && var p := w.pulls[pull];
       || (s.Unlock? && Frees(w, s.ids, p.key) && !Owed(w.hubs, p.hub, p.key, {}, {}))
       || (s.Publish? && s.at != p.hub && w.hubs[p.hub].link.Down? && Starving(w, pull)
           && !Owed(w.hubs, p.hub, p.key, {s.at}, {}))
       || (s.Unsaid? && s.at in w.hubs && s.key == p.key && w.hubs[s.at].owed[s.key] == 1 && Starving(w, pull)
           && !Owed(w.hubs, p.hub, p.key, {}, {s.at}))
       || (s.Crash? && s.at != p.hub && Starving(w, pull) && !Owed(w.hubs, p.hub, p.key, {s.at}, {s.at}))
  }

  // Registration.

  lemma ReturnKeepsRegistered(w: World, pull: Id)
    requires AllRegistered(w) && pull in w.pulls
    ensures AllRegistered(Returned(w, pull))
  {
    forall q | q in w.pulls && q != pull ensures Registered(Returned(w, pull).hubs, w.pulls[q]) {
      assert q in w.pulls - {pull};
    }
  }

  /** A signal to whoever waits on `k` there. */
  predicate Signals(hub: Hub, next: Hub, k: Key) {
    k in hub.versions ==> k in next.versions && hub.versions[k] < next.versions[k]
  }

  /** Three changes signal a key; the others leave the versions as they are. */
  lemma VersionsAfter(hub: Hub, c: HubChange)
    ensures HubChanged(hub, c).versions ==
      if c.Notify? || c.Receive? || c.WakeOne? then hub.Signalled(c.key).versions else hub.versions
  {}

  lemma SignalKeepsVersion(hub: Hub, key: Key, k: Key)
    requires k in hub.versions
    ensures k in hub.Signalled(key).versions && hub.versions[k] <= hub.Signalled(key).versions[k]
  {}

  lemma HubChangeKeepsVersion(hub: Hub, c: HubChange, k: Key)
    requires k in hub.versions
    ensures k in HubChanged(hub, c).versions && hub.versions[k] <= HubChanged(hub, c).versions[k]
  {
    VersionsAfter(hub, c);
    if c.Notify? || c.Receive? || c.WakeOne? { SignalKeepsVersion(hub, c.key, k); }
  }

  lemma HubChangePassesOn(hub: Hub, c: HubChange, k: Key)
    requires HubApplies(hub, c)
    ensures var next := HubChanged(hub, c);
      && (k in hub.outbound ==> k in next.outbound)
      && (k in hub.owed ==> k in next.owed || (Signals(hub, next, k) && k in next.outbound))
  {}

  lemma HubChangeTakesIn(hub: Hub, c: HubChange, k: Key)
    requires HubApplies(hub, c) && (k in hub.inbox || k in hub.toWake || hub.link.Lapsed?)
    ensures var next := HubChanged(hub, c);
      k in next.inbox || k in next.toWake || next.link.Lapsed? || Signals(hub, next, k)
  {}

  /** What one hub's change leaves of the signals due to or from it. */
  lemma HubChangePasses(hub: Hub, c: HubChange, k: Key)
    requires HubApplies(hub, c)
    ensures var next := HubChanged(hub, c);
      && (k in hub.versions ==> k in next.versions && hub.versions[k] <= next.versions[k])
      && (k in hub.outbound ==> k in next.outbound)
      && (k in hub.owed ==> k in next.owed || (Signals(hub, next, k) && k in next.outbound))
      && (k in hub.inbox || k in hub.toWake || hub.link.Lapsed? ==>
            k in next.inbox || k in next.toWake || next.link.Lapsed? || Signals(hub, next, k))
  {
    if k in hub.versions { HubChangeKeepsVersion(hub, c, k); }
    HubChangePassesOn(hub, c, k);
    if k in hub.inbox || k in hub.toWake || hub.link.Lapsed? { HubChangeTakesIn(hub, c, k); }
  }

  lemma HubsAfterKeepsRegistered(hubs: map<Id, Hub>, at: Id, c: HubChange, p: Pull)
    requires Registered(hubs, p) && at in hubs && HubApplies(hubs[at], c)
    ensures Registered(HubsAfter(hubs, at, c), p)
  {
    HubChangePasses(hubs[at], c, p.key);
  }

  lemma StepKeepsRegistered(w: World, s: Step)
    requires AllRegistered(w)
    ensures AllRegistered(Next(w, s))
  {
    if !Enabled(w, s) {
    } else if s.Queue? || s.OnHub? {
      forall p | p in w.pulls ensures Registered(Next(w, s).hubs, w.pulls[p]) {
        HubsAfterKeepsRegistered(w.hubs, s.at, if s.Queue? then Owe(s.key) else s.change, w.pulls[p]);
      }
    } else if s.Leave? || s.FailClaim? || s.Claim? {
      ReturnKeepsRegistered(w, s.pull);
    } else if s.Crash? {
      CrashKeepsRegistered(w, s.at);
    }
  }

  lemma CrashKeepsRegistered(w: World, at: Id)
    requires AllRegistered(w) && at in w.hubs
    ensures AllRegistered(Crashed(w, at))
  {}

  // Signals due.

  /** A blocked pull that has, or is due, a signal. */
  predicate Promised(hubs: map<Id, Hub>, p: Pull)
    requires Registered(hubs, p)
  {
    Newer(hubs, p) || Owed(hubs, p.hub, p.key, {}, {})
  }

  lemma HubChangeKeepsPromise(hubs: map<Id, Hub>, at: Id, c: HubChange, p: Pull)
    requires Registered(hubs, p) && at in hubs && HubApplies(hubs[at], c) && Promised(hubs, p)
    ensures var next := HubsAfter(hubs, at, c); Registered(next, p) && Promised(next, p)
  {
    var next := HubsAfter(hubs, at, c);
    HubChangePasses(hubs[at], c, p.key);
    if Outgoing(hubs, p.hub, p.key, {}) {
      var q :| q in hubs && q != p.hub && p.key in hubs[q].outbound;
      assert q in next && p.key in next[q].outbound;
    } else if ToNotify(hubs, p.key, {}) {
      var q :| q in hubs && p.key in hubs[q].owed;
      assert q in next && (p.key in next[q].owed || q == at);
    }
  }

  lemma PublishLeavesOwed(hubs: map<Id, Hub>, at: Id, hub: Id, key: Key)
    requires at in hubs && hub in hubs
    ensures ToNotify(Broadcast(hubs, at), key, {}) == ToNotify(hubs, key, {})
    ensures Outgoing(Broadcast(hubs, at), hub, key, {}) == Outgoing(hubs, hub, key, {at})
  {
    var next := Broadcast(hubs, at);
    assert forall q :: q in hubs ==> q in next && next[q].owed == hubs[q].owed;
    assert forall q :: q in hubs ==> next[q].outbound == if q == at then {} else hubs[q].outbound;
  }

  lemma PublishReaches(hubs: map<Id, Hub>, at: Id, hub: Id, key: Key)
    requires at in hubs && hub in hubs
    ensures Incoming(Broadcast(hubs, at), hub, key) <==>
      Incoming(hubs, hub, key) || (at != hub && hubs[hub].link.Listening? && key in hubs[at].outbound)
  {}

  /** Publishing moves `at`'s outbound keys to the inboxes of those listening. */
  lemma PublishMoves(hubs: map<Id, Hub>, at: Id, hub: Id, key: Key)
    requires at in hubs && hub in hubs
    ensures var next := Broadcast(hubs, at);
      && ToNotify(next, key, {}) == ToNotify(hubs, key, {})
      && Outgoing(next, hub, key, {}) == Outgoing(hubs, hub, key, {at})
      && (Incoming(next, hub, key) <==>
            Incoming(hubs, hub, key) || (at != hub && hubs[hub].link.Listening? && key in hubs[at].outbound))
  {
    PublishLeavesOwed(hubs, at, hub, key);
    PublishReaches(hubs, at, hub, key);
  }

  lemma OwedOnlyBy(hubs: map<Id, Hub>, hub: Id, key: Key, at: Id)
    requires at in hubs && at != hub
    ensures Owed(hubs, hub, key, {}, {}) <==> Owed(hubs, hub, key, {at}, {}) || key in hubs[at].outbound
  {
    assert Outgoing(hubs, hub, key, {}) <==> Outgoing(hubs, hub, key, {at}) || key in hubs[at].outbound;
  }

  /** Publishing loses a signal exactly when it was the only one and the listener is down. */
  lemma PublishKeepsPromise(hubs: map<Id, Hub>, at: Id, p: Pull)
    requires Registered(hubs, p) && at in hubs && Promised(hubs, p)
    ensures Registered(Broadcast(hubs, at), p)
    ensures Promised(Broadcast(hubs, at), p) <==>
      Newer(hubs, p) || Owed(hubs, p.hub, p.key, {at}, {}) || (at != p.hub && !hubs[p.hub].link.Down?)
  {
    PublishMoves(hubs, at, p.hub, p.key);
    if at == p.hub {
      assert Outgoing(hubs, p.hub, p.key, {at}) == Outgoing(hubs, p.hub, p.key, {});
    } else {
      OwedOnlyBy(hubs, p.hub, p.key, at);
    }
  }

  /** A notify not made loses a signal exactly when it was the only one due. */
  lemma SilenceKeepsPromise(hubs: map<Id, Hub>, at: Id, key: Key, p: Pull)
    requires Registered(hubs, p) && at in hubs && key in hubs[at].owed && Promised(hubs, p)
    ensures Registered(Silenced(hubs, at, key), p)
    ensures Promised(Silenced(hubs, at, key), p) <==>
      Newer(hubs, p) || key != p.key || hubs[at].owed[key] > 1 || Owed(hubs, p.hub, p.key, {}, {at})
  {
    var next := Silenced(hubs, at, key);
    SilenceMoves(hubs, at, key, p.hub, p.key);
    assert p.key in next[at].owed <==> p.key in hubs[at].owed && (key != p.key || hubs[at].owed[key] > 1);
    assert ToNotify(next, p.key, {}) <==> ToNotify(hubs, p.key, {at}) || p.key in next[at].owed;
    assert ToNotify(hubs, p.key, {}) <==> ToNotify(hubs, p.key, {at}) || p.key in hubs[at].owed;
  }

  lemma SilenceMoves(hubs: map<Id, Hub>, at: Id, key: Key, hub: Id, k: Key)
    requires at in hubs && hub in hubs
    ensures var next := Silenced(hubs, at, key);
      && Outgoing(next, hub, k, {}) == Outgoing(hubs, hub, k, {}) && Incoming(next, hub, k) == Incoming(hubs, hub, k)
      && ToNotify(next, k, {at}) == ToNotify(hubs, k, {at})
  {
    var next := Silenced(hubs, at, key);
    assert forall q :: q in hubs ==> q in next && next[q].outbound == hubs[q].outbound;
    assert forall q :: q in hubs && q != at ==> next[q] == hubs[q];
  }

  /** A crash elsewhere loses a signal exactly when only the dead process had it to pass on. */
  lemma CrashKeepsPromise(hubs: map<Id, Hub>, at: Id, p: Pull)
    requires Registered(hubs, p) && at in hubs && at != p.hub
    ensures Registered(Restarted(hubs, at), p)
    ensures Promised(Restarted(hubs, at), p) <==> Newer(hubs, p) || Owed(hubs, p.hub, p.key, {at}, {at})
  {
    var next := Restarted(hubs, at);
    assert forall q :: q in hubs && q != at ==> q in next && next[q] == hubs[q];
    assert next[at].owed == multiset{} && next[at].outbound == {};
    assert ToNotify(next, p.key, {}) <==> ToNotify(hubs, p.key, {at});
    assert Outgoing(next, p.hub, p.key, {}) <==> Outgoing(hubs, p.hub, p.key, {at});
  }

  // ─── Served ──────────────────────────────────────────────

  /** Newly queued work is owed a notify. */
  lemma QueueKeepsServed(w: World, s: Step, pull: Id)
    requires AllRegistered(w) && Served(w, pull) && Enabled(w, s) && s.Queue?
    ensures AllRegistered(Next(w, s)) && Served(Next(w, s), pull)
  {
    StepKeepsRegistered(w, s);
    var next := Next(w, s);
    assert s.key in next.hubs[s.at].owed;
    if Starving(next, pull) && w.pulls[pull].key != s.key {
      var p := w.pulls[pull];
      assert Available(next.work, next.held, p.key) == Available(w.work, w.held, p.key);
      HubChangeKeepsPromise(w.hubs, s.at, Owe(s.key), p);
    }
  }

  lemma HubStepKeepsServed(w: World, s: Step, pull: Id)
    requires AllRegistered(w) && Served(w, pull) && Enabled(w, s) && s.OnHub?
    ensures AllRegistered(Next(w, s)) && Served(Next(w, s), pull)
  {
    StepKeepsRegistered(w, s);
    if Starving(w, pull) {
      HubChangeKeepsPromise(w.hubs, s.at, s.change, w.pulls[pull]);
    }
  }

  lemma PublishServes(w: World, s: Step, pull: Id)
    requires AllRegistered(w) && Served(w, pull) && Enabled(w, s) && s.Publish?
    ensures AllRegistered(Next(w, s))
    ensures Served(Next(w, s), pull) <==> !Loses(w, s, pull)
  {
    StepKeepsRegistered(w, s);
    if Starving(w, pull) {
      PublishKeepsPromise(w.hubs, s.at, w.pulls[pull]);
    }
  }

  lemma UnsaidServes(w: World, s: Step, pull: Id)
    requires AllRegistered(w) && Served(w, pull) && Enabled(w, s) && s.Unsaid?
    ensures AllRegistered(Next(w, s))
    ensures Served(Next(w, s), pull) <==> !Loses(w, s, pull)
  {
    StepKeepsRegistered(w, s);
    if Starving(w, pull) {
      SilenceKeepsPromise(w.hubs, s.at, s.key, w.pulls[pull]);
    }
  }

  lemma CrashServes(w: World, s: Step, pull: Id)
    requires AllRegistered(w) && Served(w, pull) && Enabled(w, s) && s.Crash?
    ensures AllRegistered(Next(w, s))
    ensures Served(Next(w, s), pull) <==> !Loses(w, s, pull)
  {
    StepKeepsRegistered(w, s);
    if Starving(w, pull) && w.pulls[pull].hub != s.at {
      CrashKeepsPromise(w.hubs, s.at, w.pulls[pull]);
    }
  }

  /** Only a hub's slots and entries change. */
  predicate SameTraffic(hub: Hub, next: Hub) {
    && next.owed == hub.owed && next.outbound == hub.outbound
    && next.inbox == hub.inbox && next.toWake == hub.toWake && next.link == hub.link
  }

  /** Slots and entries come and go; nothing due to others is dropped. */
  lemma SameSignals(hubs: map<Id, Hub>, next: map<Id, Hub>, p: Pull)
    requires Registered(hubs, p) && Registered(next, p) && next.Keys == hubs.Keys
    requires forall h :: h in hubs ==> SameTraffic(hubs[h], next[h])
    requires hubs[p.hub].versions[p.key] <= next[p.hub].versions[p.key]
    ensures Promised(hubs, p) ==> Promised(next, p)
  {}

  lemma ReturnKeepsTraffic(w: World, gone: Id)
    requires gone in w.pulls
    ensures var next := Returned(w, gone).hubs;
      next.Keys == w.hubs.Keys && forall h :: h in w.hubs ==> SameTraffic(w.hubs[h], next[h])
  {}

  lemma ReturnKeepsVersion(w: World, gone: Id, pull: Id)
    requires AllRegistered(w) && gone in w.pulls && pull in w.pulls && pull != gone
    ensures var p, next := w.pulls[pull], Returned(w, gone).hubs;
      p.hub in next && p.key in next[p.hub].versions && next[p.hub].versions[p.key] == w.hubs[p.hub].versions[p.key]
  {
    assert pull in w.pulls - {gone};
  }

  lemma ReturnKeepsPromise(w: World, gone: Id, pull: Id)
    requires AllRegistered(w) && gone in w.pulls && pull in w.pulls && pull != gone
    requires Promised(w.hubs, w.pulls[pull])
    ensures Registered(Returned(w, gone).hubs, w.pulls[pull]) && Promised(Returned(w, gone).hubs, w.pulls[pull])
  {
    assert Registered(w.hubs, w.pulls[pull]);
    ReturnKeepsVersion(w, gone, pull);
    ReturnKeepsTraffic(w, gone);
    SameSignals(w.hubs, Returned(w, gone).hubs, w.pulls[pull]);
  }

  lemma SubscribeKeepsPromise(w: World, subscriber: Id, at: Id, key: Key, p: Pull)
    requires at in w.hubs && Registered(w.hubs, p) && Promised(w.hubs, p)
    ensures Registered(Subscribed(w, subscriber, at, key).hubs, p)
    ensures Promised(Subscribed(w, subscriber, at, key).hubs, p)
  {
    SameSignals(w.hubs, Subscribed(w, subscriber, at, key).hubs, p);
  }

  lemma SubscribeKeepsServed(w: World, s: Step, pull: Id)
    requires AllRegistered(w) && Served(w, pull) && Enabled(w, s) && s.Subscribe?
    ensures AllRegistered(Next(w, s)) && Served(Next(w, s), pull)
  {
    StepKeepsRegistered(w, s);
    if Starving(Next(w, s), pull) {
      SubscribeKeepsPromise(w, s.pull, s.at, s.key, w.pulls[pull]);
    }
  }

  lemma ReturnKeepsServed(w: World, gone: Id, pull: Id)
    requires AllRegistered(w) && Served(w, pull) && gone in w.pulls
    ensures AllRegistered(Returned(w, gone)) && Served(Returned(w, gone), pull)
  {
    ReturnKeepsRegistered(w, gone);
    if pull in w.pulls && pull != gone && Starving(w, pull) {
      ReturnKeepsPromise(w, gone, pull);
    }
  }

  lemma WakeKeepsServed(w: World, s: Step, pull: Id)
    requires AllRegistered(w) && Served(w, pull) && Enabled(w, s) && s.Wake?
    ensures AllRegistered(Next(w, s)) && Served(Next(w, s), pull)
  {}

  /** Taking work only leaves less to starve on. */
  lemma LessWorkKeepsServed(w: World, ids: set<Id>, pull: Id)
    requires AllRegistered(w) && Served(w, pull)
    ensures Served(w.(work := Without(w.work, ids)), pull)
  {
    if pull in w.pulls {
      var key := w.pulls[pull].key;
      assert Available(Without(w.work, ids), w.held, key) <= Available(w.work, w.held, key);
    }
  }

  /** A pull blocks only when every claimable row was locked by someone else. */
  lemma ClaimKeepsServed(w: World, s: Step, pull: Id)
    requires AllRegistered(w) && Served(w, pull) && Enabled(w, s) && s.Claim?
    ensures AllRegistered(Next(w, s)) && Served(Next(w, s), pull)
  {
    if s.taken == {} {
      assert Available(w.work, w.held, w.pulls[s.pull].key) == {};
    } else {
      ReturnKeepsServed(w, s.pull, pull);
      LessWorkKeepsServed(Returned(w, s.pull), s.taken, pull);
    }
  }

  lemma RowStepServes(w: World, s: Step, pull: Id)
    requires AllRegistered(w) && Served(w, pull) && Enabled(w, s) && (s.Lock? || s.Settle? || s.Unlock?)
    ensures AllRegistered(Next(w, s))
    ensures Served(Next(w, s), pull) <==> !Loses(w, s, pull)
  {
    if s.Lock? || s.Settle? {
      var next := Next(w, s);
      forall key ensures Available(next.work, next.held, key) <= Available(w.work, w.held, key) {}
    } else if pull in w.pulls {
      UnlockFrees(w, s.ids, w.pulls[pull].key);
    }
  }

  /** What is claimable after an unlock was so before, or is freed by it. */
  lemma UnlockFrees(w: World, ids: set<Id>, key: Key)
    requires ids <= w.held
    ensures Available(w.work, w.held - ids, key) != {} <==> Available(w.work, w.held, key) != {} || Frees(w, ids, key)
  {
    var before, after := Available(w.work, w.held, key), Available(w.work, w.held - ids, key);
    assert before <= after;
    if id :| id in ids && id in w.work && w.work[id] == key { assert id in after; }
    if id :| id in after && id !in before { assert id in ids; }
  }

  /** A step leaves a served pull served exactly when it isn't one of the four that lose it. */
  lemma ServedUnlessLost(w: World, s: Step, pull: Id)
    requires AllRegistered(w) && Served(w, pull) && Enabled(w, s)
    ensures AllRegistered(Next(w, s))
    ensures Served(Next(w, s), pull) <==> !Loses(w, s, pull)
  {
    match s
    case Queue(_, _, _) => QueueKeepsServed(w, s, pull);
    case OnHub(_, _) => HubStepKeepsServed(w, s, pull);
    case Publish(_) => PublishServes(w, s, pull);
    case Unsaid(_, _) => UnsaidServes(w, s, pull);
    case Crash(_) => CrashServes(w, s, pull);
    case Claim(_, _, _) => ClaimKeepsServed(w, s, pull);
    case Subscribe(_, _, _) => SubscribeKeepsServed(w, s, pull);
    case FailClaim(_) => ReturnKeepsServed(w, s.pull, pull);
    case Leave(_) => ReturnKeepsServed(w, s.pull, pull);
    case Wake(_) => WakeKeepsServed(w, s, pull);
    case _ => RowStepServes(w, s, pull);
  }

  // ─── Every run ───────────────────────────────────────────

  /** Some step of the run loses this pull's signal. */
  predicate LostIn(w: World, steps: seq<Step>, pull: Id)
    decreases |steps|
  {
    steps != [] &&
    ((Enabled(w, steps[0]) && Loses(w, steps[0], pull)) || LostIn(Next(w, steps[0]), steps[1..], pull))
  }

  lemma {:induction false} RunServes(w: World, steps: seq<Step>, pull: Id)
    requires AllRegistered(w) && Served(w, pull) && !LostIn(w, steps, pull)
    ensures AllRegistered(Run(w, steps)) && Served(Run(w, steps), pull)
    decreases |steps|
  {
    if steps != [] {
      if Enabled(w, steps[0]) { ServedUnlessLost(w, steps[0], pull); }
      RunServes(Next(w, steps[0]), steps[1..], pull);
    }
  }

  lemma {:induction false} RunKeepsRegistered(w: World, steps: seq<Step>)
    requires AllRegistered(w)
    ensures AllRegistered(Run(w, steps))
    decreases |steps|
  {
    if steps != [] {
      StepKeepsRegistered(w, steps[0]);
      RunKeepsRegistered(Next(w, steps[0]), steps[1..]);
    }
  }

  predicate IsBlocked(w: World, pull: Id) {
    pull in w.pulls && w.pulls[pull].phase.Blocked?
  }

  /**
   No lost wakeups: at any point of any run, a pull blocked on work it could
   claim has a newer version than it has seen, or a signal for that work
   still to come, unless one of the four lost its signal since it blocked.
   */
  lemma {:induction false} NoLostWakeup(w: World, before: seq<Step>, since: seq<Step>, pull: Id)
    requires Initial(w) && !IsBlocked(Run(w, before), pull) && !LostIn(Run(w, before), since, pull)
    ensures AllRegistered(Run(Run(w, before), since)) && Served(Run(Run(w, before), since), pull)
  {
    RunKeepsRegistered(w, before);
    RunServes(Run(w, before), since, pull);
  }

  /**
   What can lose it, by the step alone: rows of its own feed let go, its own
   key published while its listener has failed, or dropped by the process
   that had it to pass on.
   */
  predicate Risks(w: World, s: Step, p: Pull) {
    || (s.Unlock? && Frees(w, s.ids, p.key))
    || (s.Publish? && s.at != p.hub && p.hub in w.hubs && w.hubs[p.hub].link.Down?
        && s.at in w.hubs && p.key in w.hubs[s.at].outbound)
    || (s.Unsaid? && s.key == p.key)
    || (s.Crash? && s.at != p.hub && s.at in w.hubs && (p.key in w.hubs[s.at].owed || p.key in w.hubs[s.at].outbound))
  }

  /** No other step loses it. */
  lemma OnlyRisksLose(w: World, s: Step, pull: Id)
    requires AllRegistered(w) && Served(w, pull) && Enabled(w, s) && Loses(w, s, pull)
    ensures Risks(w, s, w.pulls[pull])
  {
    var p := w.pulls[pull];
    if s.Publish? {
      OwedOnlyBy(w.hubs, p.hub, p.key, s.at);
    } else if s.Crash? {
      assert Outgoing(w.hubs, p.hub, p.key, {}) <==>
        Outgoing(w.hubs, p.hub, p.key, {s.at}) || p.key in w.hubs[s.at].outbound;
      assert ToNotify(w.hubs, p.key, {}) <==> ToNotify(w.hubs, p.key, {s.at}) || p.key in w.hubs[s.at].owed;
    }
  }

  /** Before anyone waits there is nothing to lose. */
  lemma NobodyWaitsYet(w: World, hub: Id)
    requires Initial(w)
    ensures AllRegistered(w) && SlotsOk(w, hub)
  {
    assert PullsAt(w.pulls, hub) == {} && WaitedKeys(w.pulls, hub) == {};
  }

  // ─── A signal due can arrive ─────────────────────────────

  /** `v` is `w` with only its hubs changed, and `p` still registered. */
  predicate SamePulls(w: World, v: World, p: Pull) {
    v.pulls == w.pulls && v.work == w.work && v.held == w.held && v.hubs.Keys == w.hubs.Keys && Registered(v.hubs, p)
  }

  lemma HubStep(w: World, at: Id, c: HubChange, p: Pull)
    requires at in w.hubs && HubApplies(w.hubs[at], c) && !c.Owe? && Registered(w.hubs, p)
    ensures var v := Next(w, OnHub(at, c));
      && SamePulls(w, v, p) && v.hubs[at] == HubChanged(w.hubs[at], c)
      && forall h :: h in w.hubs && h != at ==> v.hubs[h] == w.hubs[h]
  {
    HubsAfterKeepsRegistered(w.hubs, at, c, p);
  }

  lemma SignalIsNewer(hub: Hub, c: HubChange, key: Key)
    requires key in hub.versions && (c == Notify(key) || c == Receive(key) || c == WakeOne(key))
    ensures key in HubChanged(hub, c).versions && hub.versions[key] < HubChanged(hub, c).versions[key]
  {}

  /** One change of its own hub signals it. */
  lemma SignalledBy(w: World, c: HubChange, p: Pull)
    requires Registered(w.hubs, p) && HubApplies(w.hubs[p.hub], c)
    requires c == Notify(p.key) || c == Receive(p.key) || c == WakeOne(p.key)
    ensures var v := Run(w, [OnHub(p.hub, c)]); SamePulls(w, v, p) && Newer(v.hubs, p)
  {
    RunOne(w, OnHub(p.hub, c));
    HubStep(w, p.hub, c, p);
    SignalIsNewer(w.hubs[p.hub], c, p.key);
  }

  lemma ReconnectArrives(w: World, p: Pull)
    requires Registered(w.hubs, p) && w.hubs[p.hub].link.Lapsed?
    ensures var v := Run(w, [OnHub(p.hub, Reconnect)] + [OnHub(p.hub, WakeOne(p.key))]);
      SamePulls(w, v, p) && Newer(v.hubs, p)
  {
    var u := Next(w, OnHub(p.hub, Reconnect));
    HubStep(w, p.hub, Reconnect, p);
    RunOne(w, OnHub(p.hub, Reconnect));
    RunAppend(w, [OnHub(p.hub, Reconnect)], [OnHub(p.hub, WakeOne(p.key))]);
    SignalledBy(u, WakeOne(p.key), p);
  }

  lemma PublishReachesInbox(w: World, q: Id, p: Pull)
    requires Registered(w.hubs, p) && q in w.hubs && q != p.hub && p.key in w.hubs[q].outbound
    requires w.hubs[p.hub].link.Listening?
    ensures var v := Next(w, Publish(q)); SamePulls(w, v, p) && p.key in v.hubs[p.hub].inbox
  {}

  lemma PublishArrives(w: World, q: Id, p: Pull)
    requires Registered(w.hubs, p) && q in w.hubs && q != p.hub && p.key in w.hubs[q].outbound
    requires w.hubs[p.hub].link.Listening?
    ensures var v := Run(w, [Publish(q)] + [OnHub(p.hub, Receive(p.key))]); SamePulls(w, v, p) && Newer(v.hubs, p)
  {
    PublishReachesInbox(w, q, p);
    RunOne(w, Publish(q));
    RunAppend(w, [Publish(q)], [OnHub(p.hub, Receive(p.key))]);
    SignalledBy(Next(w, Publish(q)), Receive(p.key), p);
  }

  /** What another process has outbound arrives once this one listens. */
  lemma OutgoingArrives(w: World, q: Id, p: Pull) returns (steps: seq<Step>)
    requires Registered(w.hubs, p) && q in w.hubs && q != p.hub && p.key in w.hubs[q].outbound
    ensures SamePulls(w, Run(w, steps), p) && Newer(Run(w, steps).hubs, p)
  {
    if w.hubs[p.hub].link.Listening? {
      steps := [Publish(q)] + [OnHub(p.hub, Receive(p.key))];
      PublishArrives(w, q, p);
    } else if w.hubs[p.hub].link.Lapsed? {
      steps := [OnHub(p.hub, Reconnect)] + [OnHub(p.hub, WakeOne(p.key))];
      ReconnectArrives(w, p);
    } else {
      var u := Next(w, OnHub(p.hub, Connect));
      HubStep(w, p.hub, Connect, p);
      PublishArrives(u, q, p);
      RunOne(w, OnHub(p.hub, Connect));
      RunAppend(w, [OnHub(p.hub, Connect)], [Publish(q)] + [OnHub(p.hub, Receive(p.key))]);
      steps := [OnHub(p.hub, Connect)] + ([Publish(q)] + [OnHub(p.hub, Receive(p.key))]);
    }
  }

  /** A notify to be made arrives: at once in its own process, else by way of the bus. */
  lemma NotifyArrives(w: World, q: Id, p: Pull) returns (steps: seq<Step>)
    requires Registered(w.hubs, p) && q in w.hubs && p.key in w.hubs[q].owed
    ensures SamePulls(w, Run(w, steps), p) && Newer(Run(w, steps).hubs, p)
  {
    if q == p.hub {
      steps := [OnHub(p.hub, Notify(p.key))];
      SignalledBy(w, Notify(p.key), p);
    } else {
      var u := Next(w, OnHub(q, Notify(p.key)));
      HubStep(w, q, Notify(p.key), p);
      var more := OutgoingArrives(u, q, p);
      RunOne(w, OnHub(q, Notify(p.key)));
      RunAppend(w, [OnHub(q, Notify(p.key))], more);
      steps := [OnHub(q, Notify(p.key))] + more;
    }
  }

  /**
   A signal that is due is worth having: from any such world some steps of
   the hubs alone, each as the code takes them, wake the pull.
   */
  lemma {:induction false} PromiseCanBeKept(w: World, pull: Id) returns (steps: seq<Step>)
    requires AllRegistered(w) && IsBlocked(w, pull) && Promised(w.hubs, w.pulls[pull])
    ensures Run(w, steps).pulls == w.pulls && Enabled(Run(w, steps), Wake(pull))
  {
    var p := w.pulls[pull];
    if Newer(w.hubs, p) {
      steps := [];
    } else if ToNotify(w.hubs, p.key, {}) {
      var q :| q in w.hubs && p.key in w.hubs[q].owed;
      steps := NotifyArrives(w, q, p);
    } else if Outgoing(w.hubs, p.hub, p.key, {}) {
      var q :| q in w.hubs && q != p.hub && p.key in w.hubs[q].outbound;
      steps := OutgoingArrives(w, q, p);
    } else if p.key in w.hubs[p.hub].inbox {
      steps := [OnHub(p.hub, Receive(p.key))];
      SignalledBy(w, Receive(p.key), p);
    } else if p.key in w.hubs[p.hub].toWake {
      steps := [OnHub(p.hub, WakeOne(p.key))];
      SignalledBy(w, WakeOne(p.key), p);
    } else {
      steps := [OnHub(p.hub, Reconnect)] + [OnHub(p.hub, WakeOne(p.key))];
      ReconnectArrives(w, p);
    }
  }

  /** A process shutting down lets no pull wait again, until it is restarted. */
  lemma {:induction false} ClosedStaysClosed(w: World, steps: seq<Step>, at: Id, pull: Id, key: Key)
    requires at in w.hubs && forall s :: s in steps ==> s != Crash(at)
    ensures at in Run(Next(w, OnHub(at, Close)), steps).hubs
    ensures !Enabled(Run(Next(w, OnHub(at, Close)), steps), Subscribe(pull, at, key))
  {
    RunKeepsClosed(Next(w, OnHub(at, Close)), steps, at);
  }

  lemma StepKeepsClosed(w: World, s: Step, at: Id)
    requires at in w.hubs && w.hubs[at].closed && s != Crash(at)
    ensures at in Next(w, s).hubs && Next(w, s).hubs[at].closed
  {}

  lemma {:induction false} RunKeepsClosed(w: World, steps: seq<Step>, at: Id)
    requires at in w.hubs && w.hubs[at].closed && forall s :: s in steps ==> s != Crash(at)
    ensures at in Run(w, steps).hubs && Run(w, steps).hubs[at].closed
    decreases |steps|
  {
    if steps != [] {
      assert steps[0] in steps && forall s :: s in steps[1..] ==> s in steps;
      StepKeepsClosed(w, steps[0], at);
      RunKeepsClosed(Next(w, steps[0]), steps[1..], at);
    }
  }

  /** What others do to rows: lock free ones, take those they hold out of the feed, or just let them go. */
  lemma HeldRows(w: World, s: Step, id: Id)
    requires Enabled(w, s) && (s.Lock? || s.Settle? || s.Unlock?)
    ensures id in Next(w, s).held <==> if s.Lock? then id in w.held || id in s.ids else id in w.held && id !in s.ids
    ensures id in Next(w, s).work <==> id in w.work && !(s.Settle? && id in s.ids)
    ensures id in Next(w, s).work ==> Next(w, s).work[id] == w.work[id]
  {}

  /** A claim takes rows of its own feed that nobody holds, as many as there are up to its limit, and no other. */
  lemma ClaimedRows(w: World, s: Step, id: Id)
    requires AllRegistered(w) && Enabled(w, s) && s.Claim?
    ensures id in s.taken ==> id in w.work && w.work[id] == w.pulls[s.pull].key && id !in w.held
    ensures |s.taken| <= s.limit
    ensures id in w.work && w.work[id] == w.pulls[s.pull].key && id !in w.held && id !in s.taken ==> |s.taken| == s.limit
    ensures id in Next(w, s).work <==> id in w.work && id !in s.taken
    ensures s.taken != {} <==> s.pull !in Next(w, s).pulls
  {
    CardinalityOfSubset(s.taken, Available(w.work, w.held, w.pulls[s.pull].key));
    assert Registered(w.hubs, w.pulls[s.pull]);
  }

  /** One that is takes pulls, with every slot free. */
  lemma RestartTakesPulls(w: World, at: Id, pull: Id, key: Key)
    requires at in w.hubs && w.hubs[at].maxWaiters > 0 && (pull in w.pulls ==> w.pulls[pull].hub == at)
    ensures Enabled(Next(w, Crash(at)), Subscribe(pull, at, key))
  {}

  // ─── Slots ───────────────────────────────────────────────

  function WaitedKeys(pulls: map<Id, Pull>, hub: Id): set<Key> {
    set p | p in pulls && pulls[p].hub == hub :: pulls[p].key
  }

  /** A slot per waiting pull, never too many, and an entry per key waited on. */
  predicate SlotsOk(w: World, hub: Id) {
    hub in w.hubs ==>
      && w.hubs[hub].waiters == |PullsAt(w.pulls, hub)| <= w.hubs[hub].maxWaiters
      && w.hubs[hub].versions.Keys == WaitedKeys(w.pulls, hub)
  }

  lemma SameWaiters(pulls: map<Id, Pull>, next: map<Id, Pull>, hub: Id)
    requires forall p :: (p in pulls && pulls[p].hub == hub) <==> (p in next && next[p].hub == hub)
    requires forall p :: p in pulls && pulls[p].hub == hub ==> next[p].key == pulls[p].key
    ensures PullsAt(next, hub) == PullsAt(pulls, hub) && WaitedKeys(next, hub) == WaitedKeys(pulls, hub)
  {
    forall k ensures k in WaitedKeys(next, hub) <==> k in WaitedKeys(pulls, hub) {
      if k in WaitedKeys(pulls, hub) {
        var q :| q in pulls && pulls[q].hub == hub && pulls[q].key == k;
        assert q in next && next[q].hub == hub && next[q].key == k;
      }
      if k in WaitedKeys(next, hub) {
        var q :| q in next && next[q].hub == hub && next[q].key == k;
        assert q in pulls && pulls[q].hub == hub && pulls[q].key == k;
      }
    }
  }

  lemma SubscribeKeepsSlots(w: World, s: Step, hub: Id)
    requires SlotsOk(w, hub) && Enabled(w, s) && s.Subscribe?
    ensures SlotsOk(Next(w, s), hub)
  {
    var next := Next(w, s);
    if hub == s.at {
      assert PullsAt(next.pulls, hub) == PullsAt(w.pulls, hub) + {s.pull};
      assert forall p :: p in w.pulls ==> next.pulls[p] == w.pulls[p];
      assert WaitedKeys(next.pulls, hub) == WaitedKeys(w.pulls, hub) + {s.key} by {
        assert s.pull in next.pulls && next.pulls[s.pull].key == s.key;
      }
    } else {
      SameWaiters(w.pulls, next.pulls, hub);
    }
  }

  lemma ReturnKeepsSlots(w: World, pull: Id, hub: Id)
    requires AllRegistered(w) && SlotsOk(w, hub) && pull in w.pulls
    ensures SlotsOk(Returned(w, pull), hub)
  {
    if hub == w.pulls[pull].hub {
      OwnSlotFreed(w, pull);
    } else {
      SameWaiters(w.pulls, w.pulls - {pull}, hub);
    }
  }

  lemma OwnSlotFreed(w: World, pull: Id)
    requires AllRegistered(w) && pull in w.pulls && SlotsOk(w, w.pulls[pull].hub)
    ensures SlotsOk(Returned(w, pull), w.pulls[pull].hub)
  {
    var hub, rest := w.pulls[pull].hub, w.pulls - {pull};
    assert pull in PullsAt(w.pulls, hub);
    assert PullsAt(rest, hub) == PullsAt(w.pulls, hub) - {pull};
    WaitedKeysWithout(w.pulls, pull);
  }

  lemma WaitedKeysWithout(pulls: map<Id, Pull>, pull: Id)
    requires pull in pulls
    ensures var p, rest := pulls[pull], pulls - {pull};
      WaitedKeys(rest, p.hub) ==
      if exists q :: q in rest && rest[q].hub == p.hub && rest[q].key == p.key then WaitedKeys(pulls, p.hub)
      else WaitedKeys(pulls, p.hub) - {p.key}
  {
    var p, rest := pulls[pull], pulls - {pull};
    forall k
      ensures k in WaitedKeys(pulls, p.hub) <==> k in WaitedKeys(rest, p.hub) || k == p.key
    {
      if k in WaitedKeys(pulls, p.hub) && k != p.key {
        var q :| q in pulls && pulls[q].hub == p.hub && pulls[q].key == k;
        assert q in rest;
      }
      if k in WaitedKeys(rest, p.hub) {
        var q :| q in rest && rest[q].hub == p.hub && rest[q].key == k;
        assert q in pulls;
      }
    }
  }

  lemma HubChangeKeepsSlots(hub: Hub, c: HubChange)
    ensures HubChanged(hub, c).versions.Keys == hub.versions.Keys
    ensures HubChanged(hub, c).waiters == hub.waiters && HubChanged(hub, c).maxWaiters == hub.maxWaiters
  {}

  lemma RephaseKeepsSlots(w: World, pull: Id, p: Pull, hub: Id)
    requires SlotsOk(w, hub) && pull in w.pulls && p.hub == w.pulls[pull].hub && p.key == w.pulls[pull].key
    ensures SlotsOk(w.(pulls := w.pulls[pull := p]), hub)
  {
    SameWaiters(w.pulls, w.pulls[pull := p], hub);
  }

  lemma CrashKeepsSlots(w: World, at: Id, hub: Id)
    requires SlotsOk(w, hub) && at in w.hubs
    ensures SlotsOk(Crashed(w, at), hub)
  {
    var next := Crashed(w, at);
    if hub == at {
      assert PullsAt(next.pulls, hub) == {} && WaitedKeys(next.pulls, hub) == {};
    } else {
      SameWaiters(w.pulls, next.pulls, hub);
    }
  }

  lemma StepKeepsSlots(w: World, s: Step, hub: Id)
    requires AllRegistered(w) && SlotsOk(w, hub)
    ensures SlotsOk(Next(w, s), hub)
  {
    if !Enabled(w, s) {
    } else if s.Subscribe? {
      SubscribeKeepsSlots(w, s, hub);
    } else if s.FailClaim? || s.Leave? || (s.Claim? && s.taken != {}) {
      ReturnKeepsSlots(w, s.pull, hub);
    } else if s.Claim? || s.Wake? {
      RephaseKeepsSlots(w, s.pull, Next(w, s).pulls[s.pull], hub);
    } else if s.Crash? {
      CrashKeepsSlots(w, s.at, hub);
    } else if s.Queue? || s.OnHub? {
      HubChangeKeepsSlots(w.hubs[s.at], if s.Queue? then Owe(s.key) else s.change);
    }
  }

  lemma {:induction false} RunKeepsSlots(w: World, steps: seq<Step>, hub: Id)
    requires AllRegistered(w) && SlotsOk(w, hub)
    ensures SlotsOk(Run(w, steps), hub)
    decreases |steps|
  {
    if steps != [] {
      StepKeepsRegistered(w, steps[0]);
      StepKeepsSlots(w, steps[0], hub);
      RunKeepsSlots(Next(w, steps[0]), steps[1..], hub);
    }
  }

  /** Never more waiting pulls than slots, and no entry outlives its waiters. */
  lemma {:induction false} SlotsAreKept(w: World, steps: seq<Step>, hub: Id)
    requires Initial(w)
    ensures SlotsOk(Run(w, steps), hub)
  {
    NobodyWaitsYet(w, hub);
    RunKeepsSlots(w, steps, hub);
  }

  // ─── The four ways to lose one ────────────────────────────

  /** Processes that have just begun to listen, with nothing to say. */
  predicate Quiet(w: World) {
    Initial(w) &&
    forall h :: h in w.hubs ==>
      var hub := w.hubs[h];
      && hub.owed == multiset{} && hub.outbound == {} && hub.inbox == multiset{} && hub.toWake == {}
      && hub.link.Listening? && !hub.closed && hub.maxWaiters > 0
  }

  /** `pull` waits in `hub` on `key`, with nothing to claim, and nothing made or due to wake it. */
  predicate Asleep(w: World, pull: Id, hub: Id, key: Key) {
    && AllRegistered(w) && IsBlocked(w, pull) && w.pulls[pull].hub == hub && w.pulls[pull].key == key
    && !Promised(w.hubs, w.pulls[pull]) && Available(w.work, w.held, key) == {}
  }

  function FallAsleep(pull: Id, hub: Id, key: Key, limit: nat): seq<Step> {
    [Subscribe(pull, hub, key), Claim(pull, limit, {})]
  }

  lemma {:induction false} RunAppend(w: World, a: seq<Step>, b: seq<Step>)
    ensures Run(w, a + b) == Run(Run(w, a), b)
    decreases |a|
  {
    if a == [] {
      assert a + b == b;
    } else {
      assert (a + b)[0] == a[0] && (a + b)[1..] == a[1..] + b;
      RunAppend(Next(w, a[0]), a[1..], b);
    }
  }

  lemma RunTwo(w: World, a: Step, b: Step)
    ensures Run(w, [a, b]) == Next(Next(w, a), b)
  {
    assert [a, b][1..] == [b];
    assert Run(Next(w, a), [b]) == Run(Next(Next(w, a), b), []);
  }

  /** `pull` is about to claim, with nothing to claim, made or due. */
  predicate Idle(w: World, pull: Id, hub: Id, key: Key) {
    && AllRegistered(w) && pull in w.pulls && w.pulls[pull].phase.Claiming?
    && w.pulls[pull].hub == hub && w.pulls[pull].key == key
    && !Promised(w.hubs, w.pulls[pull]) && Available(w.work, w.held, key) == {}
  }

  lemma SubscribesFirst(w: World, pull: Id, hub: Id, key: Key)
    requires Quiet(w) && hub in w.hubs && Available(w.work, w.held, key) == {}
    ensures var u := Next(w, Subscribe(pull, hub, key));
      Idle(u, pull, hub, key) && u.work == w.work && u.held == w.held && u.hubs.Keys == w.hubs.Keys
    ensures Next(w, Subscribe(pull, hub, key)).hubs[hub].link.Listening?
  {
    var u := Next(w, Subscribe(pull, hub, key));
    assert u.pulls == map[pull := Pull(hub, key, 0, Claiming)] && u.hubs[hub].versions[key] == 0;
    assert forall h :: h in w.hubs ==> SameTraffic(w.hubs[h], u.hubs[h]);
  }

  lemma ClaimsNothing(u: World, pull: Id, hub: Id, key: Key, limit: nat)
    requires Idle(u, pull, hub, key) && 0 < limit
    ensures var v := Next(u, Claim(pull, limit, {}));
      Asleep(v, pull, hub, key) && v.work == u.work && v.held == u.held && v.hubs == u.hubs
  {
    assert Enabled(u, Claim(pull, limit, {}));
    assert Next(u, Claim(pull, limit, {})) == u.(pulls := u.pulls[pull := u.pulls[pull].(phase := Blocked)]);
  }

  lemma SleepsFromStart(w: World, pull: Id, hub: Id, key: Key, limit: nat)
    requires Quiet(w) && hub in w.hubs && 0 < limit && Available(w.work, w.held, key) == {}
    ensures var v := Run(w, FallAsleep(pull, hub, key, limit));
      Asleep(v, pull, hub, key) && v.work == w.work && v.held == w.held && v.hubs.Keys == w.hubs.Keys
    ensures Run(w, FallAsleep(pull, hub, key, limit)).hubs[hub].link.Listening?
  {
    RunTwo(w, Subscribe(pull, hub, key), Claim(pull, limit, {}));
    SubscribesFirst(w, pull, hub, key);
    ClaimsNothing(Next(w, Subscribe(pull, hub, key)), pull, hub, key, limit);
  }

  /**
   The sweep's backfill has the feed's only rows locked, a pull's first claim
   skips them, and the backfill commits: the rows are claimable, the pull
   sleeps, and nothing wakes it before its deadline.
   */
  lemma SkippedRowGoesUnseen(w: World, pull: Id, hub: Id, key: Key, limit: nat, ids: set<Id>)
    requires Quiet(w) && hub in w.hubs && 0 < limit && w.held == {}
    requires Available(w.work, {}, key) != {} && ids == Available(w.work, {}, key)
    ensures var e := Run(w, [Lock(ids)] + FallAsleep(pull, hub, key, limit) + [Unlock(ids)]);
      AllRegistered(e) && !Served(e, pull)
  {
    var locked := Next(w, Lock(ids));
    var v := Run(locked, FallAsleep(pull, hub, key, limit));
    RunAppend(w, [Lock(ids)], FallAsleep(pull, hub, key, limit));
    RunAppend(w, [Lock(ids)] + FallAsleep(pull, hub, key, limit), [Unlock(ids)]);
    SleepsFromStart(locked, pull, hub, key, limit);
    RowsLetGo(v, pull, hub, key, ids);
  }

  lemma RunOne(w: World, a: Step)
    ensures Run(w, [a]) == Next(w, a)
  {
    assert Run(Next(w, a), []) == Next(w, a);
  }

  lemma Unlocks(v: World, ids: set<Id>)
    requires ids <= v.held
    ensures Next(v, Unlock(ids)) == v.(held := v.held - ids)
  {}

  lemma RowsLetGo(v: World, pull: Id, hub: Id, key: Key, ids: set<Id>)
    requires Asleep(v, pull, hub, key) && ids <= v.held && Available(v.work, v.held - ids, key) != {}
    ensures AllRegistered(Run(v, [Unlock(ids)])) && !Served(Run(v, [Unlock(ids)]), pull)
  {
    RunOne(v, Unlock(ids));
    Unlocks(v, ids);
    FreedUnserved(v, pull, hub, key, v.held - ids);
  }

  lemma FreedUnserved(v: World, pull: Id, hub: Id, key: Key, held: set<Id>)
    requires Asleep(v, pull, hub, key) && Available(v.work, held, key) != {}
    ensures AllRegistered(v.(held := held)) && !Served(v.(held := held), pull)
  {}

  /** The notify for newly queued work, made and published by `at`. */
  function Announced(hubs: map<Id, Hub>, at: Id, key: Key): map<Id, Hub>
    requires at in hubs
  {
    Broadcast(HubsAfter(HubsAfter(hubs, at, Owe(key)), at, Notify(key)), at)
  }

  lemma AnnouncedToADownHub(hubs: map<Id, Hub>, at: Id, p: Pull)
    requires Registered(hubs, p) && !Promised(hubs, p) && at in hubs && at != p.hub && hubs[p.hub].link.Down?
    ensures Registered(Announced(hubs, at, p.key), p) && !Promised(Announced(hubs, at, p.key), p)
  {
    var owing := HubsAfter(hubs, at, Owe(p.key));
    var told := HubsAfter(owing, at, Notify(p.key));
    assert told[at].owed == hubs[at].owed;
    assert told[p.hub] == hubs[p.hub];
    PublishMoves(told, at, p.hub, p.key);
  }

  /** Another process queues, tells and publishes while `pull` sleeps behind a failed listener. */
  lemma PublishedToNobody(v: World, pull: Id, hub: Id, key: Key, at: Id, id: Id)
    requires Asleep(v, pull, hub, key) && v.hubs[hub].link.Down?
    requires at in v.hubs && at != hub && id !in v.work && id !in v.held
    ensures var e := Next(Next(Next(v, Queue(at, key, {id})), OnHub(at, Notify(key))), Publish(at));
      AllRegistered(e) && !Served(e, pull)
  {
    var q := Next(v, Queue(at, key, {id}));
    assert key in q.hubs[at].owed && id in Available(q.work, q.held, key);
    var n := Next(q, OnHub(at, Notify(key)));
    var e := Next(n, Publish(at));
    assert e == q.(hubs := Announced(v.hubs, at, key));
    StepKeepsRegistered(v, Queue(at, key, {id}));
    StepKeepsRegistered(q, OnHub(at, Notify(key)));
    StepKeepsRegistered(n, Publish(at));
    AnnouncedToADownHub(v.hubs, at, v.pulls[pull]);
  }

  /** The listener fails; everyone, so this pull too, is woken, and finds nothing. */
  function ListenerFails(pull: Id, hub: Id, key: Key, limit: nat): seq<Step> {
    [OnHub(hub, FailLink), OnHub(hub, WakeOne(key))] + [Wake(pull), Claim(pull, limit, {})]
  }

  lemma FailsThenWakes(hub: Hub, key: Key)
    requires hub.link.Listening? && key in hub.versions
    ensures var f := HubChanged(hub, FailLink); var u := HubChanged(f, WakeOne(key));
      && HubApplies(hub, FailLink) && HubApplies(f, WakeOne(key))
      && u.owed == hub.owed && u.outbound == hub.outbound && u.inbox == multiset{} && key !in u.toWake && u.link.Down?
      && key in u.versions && hub.versions[key] < u.versions[key]
  {}

  lemma TwoChanges(v: World, at: Id, c: HubChange, d: HubChange)
    requires at in v.hubs && !c.Owe? && !d.Owe?
    requires HubApplies(v.hubs[at], c) && HubApplies(HubChanged(v.hubs[at], c), d)
    ensures Next(Next(v, OnHub(at, c)), OnHub(at, d)) ==
      v.(hubs := v.hubs[at := HubChanged(HubChanged(v.hubs[at], c), d)])
  {
    assert Next(v, OnHub(at, c)) == v.(hubs := v.hubs[at := HubChanged(v.hubs[at], c)]);
  }

  lemma QuietButNewer(hubs: map<Id, Hub>, p: Pull, hub: Hub)
    requires Registered(hubs, p) && !Promised(hubs, p)
    requires hub.owed == hubs[p.hub].owed && hub.outbound == hubs[p.hub].outbound
    requires hub.inbox == multiset{} && p.key !in hub.toWake && !hub.link.Lapsed?
    ensures !Owed(hubs[p.hub := hub], p.hub, p.key, {}, {})
  {
    var next := hubs[p.hub := hub];
    assert forall h :: h in next ==> h in hubs && next[h].owed == hubs[h].owed && next[h].outbound == hubs[h].outbound;
  }

  lemma FailsAndWakes(v: World, pull: Id, hub: Id, key: Key)
    requires Asleep(v, pull, hub, key) && v.hubs[hub].link.Listening?
    ensures var u := Next(Next(v, OnHub(hub, FailLink)), OnHub(hub, WakeOne(key)));
      && u.pulls == v.pulls && u.work == v.work && u.held == v.held && u.hubs.Keys == v.hubs.Keys
      && AllRegistered(u) && Newer(u.hubs, u.pulls[pull]) && !Owed(u.hubs, hub, key, {}, {}) && u.hubs[hub].link.Down?
  {
    assert Registered(v.hubs, v.pulls[pull]);
    FailsThenWakes(v.hubs[hub], key);
    TwoChanges(v, hub, FailLink, WakeOne(key));
    StepKeepsRegistered(v, OnHub(hub, FailLink));
    StepKeepsRegistered(Next(v, OnHub(hub, FailLink)), OnHub(hub, WakeOne(key)));
    QuietButNewer(v.hubs, v.pulls[pull], HubChanged(HubChanged(v.hubs[hub], FailLink), WakeOne(key)));
  }

  lemma WakesToNothing(u: World, pull: Id, hub: Id, key: Key)
    requires AllRegistered(u) && IsBlocked(u, pull) && u.pulls[pull].hub == hub && u.pulls[pull].key == key
    requires Newer(u.hubs, u.pulls[pull]) && !Owed(u.hubs, hub, key, {}, {}) && Available(u.work, u.held, key) == {}
    ensures var n := Next(u, Wake(pull));
      Idle(n, pull, hub, key) && n.hubs == u.hubs && n.work == u.work && n.held == u.held
  {}

  lemma SleepsWhileDown(v: World, pull: Id, hub: Id, key: Key, limit: nat)
    requires Asleep(v, pull, hub, key) && v.hubs[hub].link.Listening? && 0 < limit
    ensures var d := Run(v, ListenerFails(pull, hub, key, limit));
      Asleep(d, pull, hub, key) && d.work == v.work && d.held == v.held && d.hubs.Keys == v.hubs.Keys
    ensures Run(v, ListenerFails(pull, hub, key, limit)).hubs[hub].link.Down?
  {
    FailsAndWakes(v, pull, hub, key);
    var u := Next(Next(v, OnHub(hub, FailLink)), OnHub(hub, WakeOne(key)));
    WakesToNothing(u, pull, hub, key);
    ClaimsNothing(Next(u, Wake(pull)), pull, hub, key, limit);
    RunAppend(v, [OnHub(hub, FailLink), OnHub(hub, WakeOne(key))], [Wake(pull), Claim(pull, limit, {})]);
    RunTwo(v, OnHub(hub, FailLink), OnHub(hub, WakeOne(key)));
    RunTwo(u, Wake(pull), Claim(pull, limit, {}));
  }

  /**
   After a failed listener everyone is woken before the next attempt to
   listen, not after: what another process queues and publishes in between
   wakes nobody here.
   */
  lemma WakeWhileDownGoesUnheard(w: World, pull: Id, hub: Id, key: Key, limit: nat, at: Id, id: Id)
    requires Quiet(w) && hub in w.hubs && 0 < limit && Available(w.work, w.held, key) == {}
    requires at in w.hubs && at != hub && id !in w.work && id !in w.held
    ensures var e := Run(w, FallAsleep(pull, hub, key, limit) + ListenerFails(pull, hub, key, limit)
                            + [Queue(at, key, {id}), OnHub(at, Notify(key)), Publish(at)]);
      AllRegistered(e) && !Served(e, pull)
  {
    var sleep, fail := FallAsleep(pull, hub, key, limit), ListenerFails(pull, hub, key, limit);
    SleepsFromStart(w, pull, hub, key, limit);
    SleepsWhileDown(Run(w, sleep), pull, hub, key, limit);
    RunAppend(w, sleep, fail);
    var d := Run(w, sleep + fail);
    PublishedToNobody(d, pull, hub, key, at, id);
    RunAppend(w, sleep + fail, [Queue(at, key, {id}), OnHub(at, Notify(key)), Publish(at)]);
    RunThree(d, Queue(at, key, {id}), OnHub(at, Notify(key)), Publish(at));
  }

  lemma RunThree(w: World, a: Step, b: Step, c: Step)
    ensures Run(w, [a, b, c]) == Next(Next(Next(w, a), b), c)
  {
    assert [a, b, c][1..] == [b, c];
    RunTwo(Next(w, a), b, c);
  }

  lemma OweThenSilence(hubs: map<Id, Hub>, at: Id, key: Key)
    requires at in hubs
    ensures Silenced(HubsAfter(hubs, at, Owe(key)), at, key) == hubs
  {
    assert hubs[at].owed + multiset{key} - multiset{key} == hubs[at].owed;
  }

  lemma QueuedInSilence(v: World, pull: Id, hub: Id, key: Key, at: Id, id: Id)
    requires Asleep(v, pull, hub, key) && at in v.hubs && id !in v.work && id !in v.held
    ensures var e := Next(Next(v, Queue(at, key, {id})), Unsaid(at, key)); AllRegistered(e) && !Served(e, pull)
  {
    var q := Next(v, Queue(at, key, {id}));
    QueueOwes(v, at, key, id);
    OweThenSilence(v.hubs, at, key);
    assert Next(q, Unsaid(at, key)) == q.(hubs := v.hubs);
  }

  lemma QueueOwes(v: World, at: Id, key: Key, id: Id)
    requires at in v.hubs && id !in v.work && id !in v.held
    ensures var q := Next(v, Queue(at, key, {id}));
      && q.hubs == HubsAfter(v.hubs, at, Owe(key)) && q.pulls == v.pulls && q.held == v.held
      && key in q.hubs[at].owed && id in Available(q.work, q.held, key)
  {}

  /** Work is committed, and its notify never made: the pull sleeps on. */
  lemma UnsaidGoesUnheard(w: World, pull: Id, hub: Id, key: Key, limit: nat, at: Id, id: Id)
    requires Quiet(w) && hub in w.hubs && 0 < limit && Available(w.work, w.held, key) == {}
    requires at in w.hubs && id !in w.work && id !in w.held
    ensures var e := Run(w, FallAsleep(pull, hub, key, limit) + [Queue(at, key, {id}), Unsaid(at, key)]);
      AllRegistered(e) && !Served(e, pull)
  {
    var sleep := FallAsleep(pull, hub, key, limit);
    SleepsFromStart(w, pull, hub, key, limit);
    QueuedInSilence(Run(w, sleep), pull, hub, key, at, id);
    RunAppend(w, sleep, [Queue(at, key, {id}), Unsaid(at, key)]);
    RunTwo(Run(w, sleep), Queue(at, key, {id}), Unsaid(at, key));
  }

  lemma OnlyItKnows(hubs: map<Id, Hub>, hub: Id, key: Key, at: Id)
    requires at in hubs && at != hub && !Owed(hubs, hub, key, {}, {})
    ensures !Owed(HubsAfter(hubs, at, Owe(key)), hub, key, {at}, {at})
  {
    var next := HubsAfter(hubs, at, Owe(key));
    assert forall h :: h in next && h != at ==> h in hubs && next[h] == hubs[h];
  }

  lemma OweKeepsRegistered(hubs: map<Id, Hub>, at: Id, key: Key, p: Pull)
    requires Registered(hubs, p) && at in hubs && at != p.hub && !Promised(hubs, p)
    ensures var next := HubsAfter(hubs, at, Owe(key));
      Registered(next, p) && !Newer(next, p) && next[at].owed == hubs[at].owed + multiset{key}
  {}

  lemma DiesBeforeNotify(hubs: map<Id, Hub>, p: Pull, at: Id)
    requires Registered(hubs, p) && !Promised(hubs, p) && at in hubs && at != p.hub
    ensures var next := Restarted(HubsAfter(hubs, at, Owe(p.key)), at); Registered(next, p) && !Promised(next, p)
  {
    OweKeepsRegistered(hubs, at, p.key, p);
    OnlyItKnows(hubs, p.hub, p.key, at);
    assert ToNotify(HubsAfter(hubs, at, Owe(p.key)), p.key, {});
    CrashKeepsPromise(HubsAfter(hubs, at, Owe(p.key)), at, p);
  }

  lemma DiesUnsaid(v: World, pull: Id, hub: Id, key: Key, at: Id, id: Id)
    requires Asleep(v, pull, hub, key) && at in v.hubs && at != hub && id !in v.work && id !in v.held
    ensures var e := Next(Next(v, Queue(at, key, {id})), Crash(at)); AllRegistered(e) && !Served(e, pull)
  {
    var q := Next(v, Queue(at, key, {id}));
    QueueOwes(v, at, key, id);
    StepKeepsRegistered(v, Queue(at, key, {id}));
    DiesBeforeNotify(v.hubs, v.pulls[pull], at);
    CrashKeepsRegistered(q, at);
    assert Next(q, Crash(at)) == Crashed(q, at);
  }

  /** The process that committed it dies first: another process's pull sleeps on. */
  lemma CrashGoesUnheard(w: World, pull: Id, hub: Id, key: Key, limit: nat, at: Id, id: Id)
    requires Quiet(w) && hub in w.hubs && 0 < limit && Available(w.work, w.held, key) == {}
    requires at in w.hubs && at != hub && id !in w.work && id !in w.held
    ensures var e := Run(w, FallAsleep(pull, hub, key, limit) + [Queue(at, key, {id}), Crash(at)]);
      AllRegistered(e) && !Served(e, pull)
  {
    var sleep := FallAsleep(pull, hub, key, limit);
    SleepsFromStart(w, pull, hub, key, limit);
    DiesUnsaid(Run(w, sleep), pull, hub, key, at, id);
    RunAppend(w, sleep, [Queue(at, key, {id}), Crash(at)]);
    RunTwo(Run(w, sleep), Queue(at, key, {id}), Crash(at));
  }
}
