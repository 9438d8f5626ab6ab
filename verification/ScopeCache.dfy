/**
 Which agents a credential may act as, cached for a while: refusals are
 always fresh, and an allowed call is at most the time to live old.
 */
module ScopeCache {
  import opened Prelude
  import opened Batches

  const MAX_ENTRIES: nat := 10_000

  /** `None` for all agents. */
  type InScope = Option<set<Id>>

  datatype Credential = Credential(user: Id, mintedJti: Option<Id>, apiKey: Option<Id>) {
    function Key(): Option<Key> {
      if mintedJti.Some? then Some(Jwt(mintedJti.value))
      else if apiKey.Some? then Some(ApiKey(apiKey.value))
      else None
    }
  }

  datatype Key = Jwt(id: Id) | ApiKey(id: Id)

  /**
   Two credentials share an entry exactly when both have the same minted
   token, or neither has one and both the same API key. Those with neither
   share none.
   */
  lemma SameEntryIff(a: Credential, b: Credential)
    ensures a.Key().Some? <==> a.mintedJti.Some? || a.apiKey.Some?
    ensures a.Key().Some? && a.Key() == b.Key() <==>
      (a.mintedJti.Some? && a.mintedJti == b.mintedJti)
      || (a.mintedJti.None? && b.mintedJti.None? && a.apiKey.Some? && a.apiKey == b.apiKey)
  {}

  datatype Entry = Entry(scope: InScope, at: Time)

  type Entries = map<Key, Entry>

  datatype LoadError = LoadError

  /** What a read of the database gives. */
  type Read = Result<InScope, LoadError>

  predicate Covers(scope: InScope, agent: Id) {
    scope.None? || agent in scope.value
  }

  predicate Fresh(e: Entry, now: Time, ttl: Time) {
    now - e.at < ttl
  }

  /** A hit, if the entry is still live. */
  function Lookup(entries: Entries, k: Option<Key>, now: Time, ttl: Time): Option<InScope> {
    if k.Some? && k.value in entries && Fresh(entries[k.value], now, ttl) then Some(entries[k.value].scope) else None
  }

  /** The clean-up once the cache is full. */
  function Retained(entries: Entries, now: Time, ttl: Time): Entries {
    map k | k in entries && Fresh(entries[k], now, ttl) :: entries[k]
  }

  function Forgotten(entries: Entries, k: Option<Key>): Entries {
    if k.Some? then entries - {k.value} else entries
  }

  function Stored(entries: Entries, k: Option<Key>, scope: InScope, now: Time, ttl: Time): Entries {
    if k.None? then entries
    else (if |entries| >= MAX_ENTRIES then Retained(entries, now, ttl) else entries)[k.value := Entry(scope, now)]
  }

  /** What `allows` answers on a hit or a miss, from the reads it makes, in order. */
  function Answer(hit: Option<InScope>, agent: Id, first: Read, second: Read): Result<bool, LoadError> {
    var scope := if hit.Some? then Ok(hit.value) else first;
    var again := if hit.Some? then first else second;
    if scope.Err? then Err(scope.error)
    else if Covers(scope.value, agent) then Ok(true)
    else if again.Err? then Err(again.error)
    else Ok(Covers(again.value, agent))
  }

  /**
   While the database says `truth`, the answer is wrong exactly when a live
   entry still allows an agent the database no longer does.
   */
  lemma OnlyAllowsGoStale(hit: Option<InScope>, agent: Id, truth: InScope)
    ensures var r := Answer(hit, agent, Ok(truth), Ok(truth));
      && r.Ok?
      && (r.value != (truth.None? || agent in truth.value) <==>
            && hit.Some? && (hit.value.None? || agent in hit.value.value)
            && truth.Some? && agent !in truth.value)
  {}

  /** Clean-up never changes what any later lookup finds. */
  lemma CleanUpIsInvisible(entries: Entries, now: Time, later: Time, ttl: Time, k: Option<Key>)
    requires now <= later
    ensures Lookup(Retained(entries, now, ttl), k, later, ttl) == Lookup(entries, k, later, ttl)
  {}

  /** Forgetting a credential changes no other's lookups, and its next one is a fresh read. */
  lemma ForgettingForcesARead(entries: Entries, gone: Option<Key>, k: Option<Key>, now: Time, ttl: Time)
    ensures Lookup(Forgotten(entries, gone), k, now, ttl) ==
      if k == gone then None else Lookup(entries, k, now, ttl)
  {}

  /** Storing one credential's scope, with or without a clean-up, hides nobody else's. */
  lemma StoringIsLocal(entries: Entries, k: Option<Key>, scope: InScope, now: Time, later: Time, ttl: Time,
                       other: Option<Key>)
    requires now <= later && other != k
    ensures Lookup(Stored(entries, k, scope, now, ttl), other, later, ttl) == Lookup(entries, other, later, ttl)
  {
    CleanUpIsInvisible(entries, now, later, ttl, other);
  }

  /** From `now` on, nobody but `k` finds anything else. */
  ghost predicate OthersKept(before: Entries, after: Entries, k: Option<Key>, now: Time, ttl: Time) {
    forall other, later :: now <= later && other != k ==>
      Lookup(after, other, later, ttl) == Lookup(before, other, later, ttl)
  }

  lemma StoringKeepsOthers(entries: Entries, k: Option<Key>, scope: InScope, now: Time, ttl: Time)
    ensures OthersKept(entries, Stored(entries, k, scope, now, ttl), k, now, ttl)
  {
    forall other, later | now <= later && other != k
      ensures Lookup(Stored(entries, k, scope, now, ttl), other, later, ttl) == Lookup(entries, other, later, ttl)
    {
      StoringIsLocal(entries, k, scope, now, later, ttl, other);
    }
  }

  /** A read, kept as history. */
  datatype Past = Past(key: Key, scope: InScope, at: Time)

  /** What a read made in a call leaves of history. */
  function Keeps(cred: Credential, now: Time, read: Read): set<Past> {
    if read.Ok? && cred.Key().Some? then {Past(cred.Key().value, read.value, now)} else {}
  }

  /** What a call to `allows` reads: on a hit nothing, or once when that refuses; on a miss once, or twice. */
  function AnswerKeeps(hit: Option<InScope>, cred: Credential, agent: Id, now: Time, first: Read, second: Read): set<Past> {
    if hit.Some? then
      if Covers(hit.value, agent) then {} else Keeps(cred, now, first)
    else if first.Err? || Covers(first.value, agent) then Keeps(cred, now, first)
    else Keeps(cred, now, first) + Keeps(cred, now, second)
  }

  class Cache {
    const ttl: Time
    var entries: Entries
    ghost var stored: set<Past>

    /** Every entry is a read that was stored when it says. */
    ghost predicate Valid()
      reads this
    {
      forall k :: k in entries ==> Past(k, entries[k].scope, entries[k].at) in stored
    }

    constructor (ttl: Time)
      ensures Valid() && this.ttl == ttl && entries == map[] && stored == {}
    {
      this.ttl := ttl;
      entries, stored := map[], {};
    }

    method Get(k: Key, now: Time) returns (hit: Option<InScope>)
      ensures hit == Lookup(entries, Some(k), now, ttl)
    {
      if k in entries && now - entries[k].at < ttl { return Some(entries[k].scope); }
      hit := None;
    }

    /** Read the database and keep what it says; an error keeps nothing. */
    method Reload(cred: Credential, now: Time, read: Read) returns (r: Read)
      requires Valid()
      modifies this
      ensures Valid() && r == read && stored == old(stored) + Keeps(cred, now, read)
      ensures entries == if read.Ok? then Stored(old(entries), cred.Key(), read.value, now, ttl) else old(entries)
      ensures read.Ok? && cred.Key().Some? ==>
        cred.Key().value in entries && entries[cred.Key().value] == Entry(read.value, now)
      ensures |old(entries)| < 10_000 && read.Ok? && cred.Key().Some? ==>
        entries == old(entries)[cred.Key().value := Entry(read.value, now)]
      ensures OthersKept(old(entries), entries, cred.Key(), now, ttl)
    {
      if read.Ok? { StoringKeepsOthers(entries, cred.Key(), read.value, now, ttl); }
      if read.Ok? && cred.Key().Some? {
        if |entries| >= MAX_ENTRIES {
          entries := map k | k in entries && now - entries[k].at < ttl :: entries[k];
        }
        entries := entries[cred.Key().value := Entry(read.value, now)];
        stored := stored + {Past(cred.Key().value, read.value, now)};
      }
      r := read;
    }

    /** `missed` tells whether it read the database. */
    method InScope(cred: Credential, now: Time, read: Read) returns (r: Read, missed: bool)
      requires Valid()
      modifies this
      ensures Valid()
      ensures var hit := Lookup(old(entries), cred.Key(), now, ttl);
        && stored == old(stored) + (if hit.Some? then {} else Keeps(cred, now, read))
        && missed == hit.None?
        && (hit.Some? ==> r == Ok(hit.value) && entries == old(entries))
        && (hit.None? ==> r == read)
      ensures OthersKept(old(entries), entries, cred.Key(), now, ttl)
    {
      if cred.Key().Some? {
        var hit := Get(cred.Key().value, now);
        if hit.Some? { return Ok(hit.value), false; }
      }
      r := Reload(cred, now, read);
      missed := true;
    }

    /**
     `first` and `second` are what the database would say if read then. A
     refusal is backed by a read in this very call, and an allowed answer by
     one in this call or one stored less than the time to live ago.
     */
    method Allows(cred: Credential, agent: Id, now: Time, first: Read, second: Read) returns (r: Result<bool, LoadError>)
      requires Valid()
      modifies this
      ensures Valid()
      ensures stored ==
        old(stored) + AnswerKeeps(Lookup(old(entries), cred.Key(), now, ttl), cred, agent, now, first, second)
      ensures r == Answer(Lookup(old(entries), cred.Key(), now, ttl), agent, first, second)
      ensures r == Ok(false) ==>
        || (first.Ok? && first.value.Some? && agent !in first.value.value)
        || (second.Ok? && second.value.Some? && agent !in second.value.value)
      ensures r == Ok(true) ==>
        || (first.Ok? && (first.value.None? || agent in first.value.value))
        || (second.Ok? && (second.value.None? || agent in second.value.value))
        || (exists p :: p in old(stored) && cred.Key() == Some(p.key) && (p.scope.None? || agent in p.scope.value)
                        && now - p.at < ttl)
      ensures r == Ok(false) && cred.Key().Some? ==>
        cred.Key().value in entries && entries[cred.Key().value].at == now
        && entries[cred.Key().value].scope.Some? && agent !in entries[cred.Key().value].scope.value
      ensures OthersKept(old(entries), entries, cred.Key(), now, ttl)
    {
      ghost var hit := Lookup(entries, cred.Key(), now, ttl);
      if hit.Some? {
        var k := cred.Key().value;
        assert Past(k, entries[k].scope, entries[k].at) in stored;
      }
      var scope, missed := InScope(cred, now, first);
      if scope.Err? { return Err(scope.error); }
      if Covers(scope.value, agent) { return Ok(true); }
      var again := Reload(cred, now, if missed then second else first);
      if again.Err? { return Err(again.error); }
      r := Ok(Covers(again.value, agent));
    }

    method Forget(cred: Credential)
      requires Valid()
      modifies this`entries
      ensures Valid() && entries == Forgotten(old(entries), cred.Key())
    {
      if cred.Key().Some? { entries := entries - {cred.Key().value}; }
    }
  }

  // ─── Calls side by side ──────────────────────────────────

  /** A read made and not stored yet. */
  datatype Load = Load(key: Key, scope: InScope, readAt: Time)

  /**
   `truth` is what the database says; `log` and `readAt`, histories, are every
   read made and when each entry's was.
   */
  datatype World = World(
    truth: map<Key, InScope>, entries: Entries, loads: map<Id, Load>, clock: Time,
    log: set<Past>, readAt: map<Key, Time>)

  datatype Step =
    | Tick(to: Time)
    | Change(key: Key, scope: InScope)
    | Begin(call: Id, key: Key)
    | Store(call: Id)
    | Fail(call: Id)
    | Forget(key: Key)

  /** A read takes at most `slow` from the database's answer to the cache. */
  predicate Enabled(w: World, s: Step, slow: Time) {
    match s
    case Tick(to) => w.clock <= to
    case Begin(call, key) => call !in w.loads && key in w.truth
    case Store(call) => call in w.loads && w.clock <= w.loads[call].readAt + slow
    case Fail(call) => call in w.loads
    case _ => true
  }

  function Next(w: World, s: Step, slow: Time, ttl: Time): World {
    if !Enabled(w, s, slow) then w else
    match s
    case Tick(to) => w.(clock := to)
    case Change(key, scope) => w.(truth := w.truth[key := scope])
    case Begin(call, key) =>
      w.(loads := w.loads[call := Load(key, w.truth[key], w.clock)], log := w.log + {Past(key, w.truth[key], w.clock)})
    case Store(call) =>
      var l := w.loads[call];
      w.(loads := w.loads - {call}, entries := Stored(w.entries, Some(l.key), l.scope, w.clock, ttl),
         readAt := w.readAt[l.key := l.readAt])
    case Fail(call) => w.(loads := w.loads - {call})
    case Forget(key) => w.(entries := Forgotten(w.entries, Some(key)))
  }

  function Run(w: World, steps: seq<Step>, slow: Time, ttl: Time): World
    decreases |steps|
  {
    if steps == [] then w else Run(Next(w, steps[0], slow, ttl), steps[1..], slow, ttl)
  }

  /** What an entry says was read, and when. */
  predicate EntryOk(e: Entry, k: Key, readAt: map<Key, Time>, log: set<Past>, clock: Time, slow: Time) {
    && k in readAt && Past(k, e.scope, readAt[k]) in log
    && readAt[k] <= e.at <= readAt[k] + slow && e.at <= clock
  }

  predicate Inv(w: World, slow: Time) {
    && (forall call :: call in w.loads ==>
          var l := w.loads[call]; Past(l.key, l.scope, l.readAt) in w.log && l.readAt <= w.clock)
    && (forall k :: k in w.entries ==>
          EntryOk(w.entries[k], k, w.readAt, w.log, w.clock, slow))
  }

  lemma StoreKeepsInv(w: World, call: Id, slow: Time, ttl: Time)
    requires Inv(w, slow) && Enabled(w, Store(call), slow)
    ensures Inv(Next(w, Store(call), slow, ttl), slow)
  {
    var next, l := Next(w, Store(call), slow, ttl), w.loads[call];
    forall k | k in next.entries ensures EntryOk(next.entries[k], k, next.readAt, next.log, next.clock, slow) {
      if k != l.key { assert k in w.entries && next.entries[k] == w.entries[k]; }
    }
  }

  lemma StepKeepsInv(w: World, s: Step, slow: Time, ttl: Time)
    requires Inv(w, slow)
    ensures Inv(Next(w, s, slow, ttl), slow)
  {
    if s.Store? && Enabled(w, s, slow) { StoreKeepsInv(w, s.call, slow, ttl); }
  }

  lemma {:induction false} RunKeepsInv(w: World, steps: seq<Step>, slow: Time, ttl: Time)
    requires Inv(w, slow)
    ensures Inv(Run(w, steps, slow, ttl), slow)
    decreases |steps|
  {
    if steps != [] {
      StepKeepsInv(w, steps[0], slow, ttl);
      RunKeepsInv(Next(w, steps[0], slow, ttl), steps[1..], slow, ttl);
    }
  }

  /**
   However reads, changes, forgets and clean-ups of any number of calls
   interleave, what a hit gives was read from the database less than the
   time to live plus one read's duration ago.
   */
  lemma {:induction false} HitsAreRecent(w: World, steps: seq<Step>, slow: Time, ttl: Time, k: Key) returns (readAt: Time)
    requires w.entries == map[] && w.loads == map[]
    requires Lookup(Run(w, steps, slow, ttl).entries, Some(k), Run(w, steps, slow, ttl).clock, ttl).Some?
    ensures var e := Run(w, steps, slow, ttl);
      && Past(k, Lookup(e.entries, Some(k), e.clock, ttl).value, readAt) in e.log
      && readAt <= e.clock < readAt + ttl + slow
  {
    RunKeepsInv(w, steps, slow, ttl);
    readAt := Run(w, steps, slow, ttl).readAt[k];
  }
}
