/**
 One account's credits under concurrent transactions. A settings update is
 three steps of its own transaction (insert a row to lock, lock and read,
 write and commit), with everyone else's statements free to fall in between;
 whoever needs the wallet's row while a transaction holds it waits.
 */
module CreditRuns {
  import opened Prelude
  import opened Batches
  import opened CreditLedger

  /** Where a settings transaction is. */
  datatype Txn = Inserted(change: SettingsChange) | HasRead(change: SettingsChange, read: Settings)

  /** How a process's accounting loop is configured, for as long as it runs. */
  datatype Worker = Worker(enabled: bool, costPerInvocation: nat)

  datatype World = World(
    store: Store,
    queue: map<Charged, nat>,  // what waits to be charged; the cost counts for a call's items
    seen: set<Charged>,        // a history: every item ever queued
    workers: map<Id, Worker>,
    txns: map<Id, Txn>,
    lock: Option<Id>)          // who holds the wallet's row, or the one it inserted

  datatype Step =
    | Enqueue(item: Charged, cost: nat)
    | Start(id: Id, worker: Worker)
    | Stop(id: Id)
    | Drain(id: Id, rows: seq<Due>)
    | Discard(id: Id, items: set<Charged>)
    | Grant(id: Id, period: nat, defaultGrant: int)
    | Pay(payment: Id, credits: int)
    | Enter(kind: Kind, amount: int)
    | Insert(txn: Id, change: SettingsChange)
    | Lock(txn: Id)
    | Commit(txn: Id)
    | Abort(txn: Id)

  predicate Running(w: World, id: Id, enabled: bool) {
    id in w.workers && w.workers[id].enabled == enabled
  }

  /** What this worker charges for a queued item: an invocation's cost is its own setting, now. */
  function CostOf(w: World, worker: Worker, item: Charged): nat
    requires item in w.queue
  {
    if item.ForInvocation? then worker.costPerInvocation else w.queue[item]
  }

  predicate Enabled(w: World, s: Step) {
    match s
    // Rows are queued in the statement that makes them, or lets them in.
    case Enqueue(item, _) => item !in w.seen
    case Start(id, _) => id !in w.workers
    case Stop(id) => id in w.workers
    case Drain(id, rows) =>
      // What a DELETE returns: no row twice.
      && Running(w, id, true) && w.lock.None? && (forall i, j :: 0 <= i < j < |rows| ==> rows[i].item != rows[j].item)
      && forall r :: r in rows ==> r.item in w.queue && r.cost == CostOf(w, w.workers[id], r.item)
    case Discard(id, items) => Running(w, id, false) && items <= w.queue.Keys
    case Grant(id, _, _) => Running(w, id, true) && w.lock.None?
    case Pay(_, _) => w.lock.None?
    case Enter(kind, amount) => w.lock.None? && ((kind.AdminGrant? && amount > 0) || (kind.Adjustment? && amount != 0))
    // With a row there already the insert does nothing; without one it
    // waits for another transaction's, then holds its own.
    case Insert(txn, change) => txn !in w.txns && ChangeValid(change) && (w.store.wallet.None? ==> w.lock.None?)
    case Lock(txn) => txn in w.txns && w.txns[txn].Inserted? && (w.lock.None? || w.lock == Some(txn))
    case Commit(txn) => txn in w.txns && w.txns[txn].HasRead?
    case Abort(txn) => txn in w.txns
  }

  function Unlocked(w: World, txn: Id): World {
    w.(txns := w.txns - {txn}, lock := if w.lock == Some(txn) then None else w.lock)
  }

  function Next(w: World, s: Step): World {
    if !Enabled(w, s) then w else
    match s
    case Enqueue(item, cost) => w.(queue := w.queue[item := cost], seen := w.seen + {item})
    case Start(id, worker) => w.(workers := w.workers[id := worker])
    case Stop(id) => w.(workers := w.workers - {id})
    case Drain(_, rows) => w.(queue := w.queue - (set r | r in rows :: r.item), store := ChargedAll(w.store, rows))
    case Discard(_, items) => w.(queue := w.queue - items)
    case Grant(_, period, grant) => w.(store := Granted(w.store, period, grant))
    case Pay(payment, credits) => w.(store := Paid(w.store, payment, credits))
    case Enter(kind, amount) => w.(store := Credited(w.store, kind, amount))
    case Insert(txn, change) =>
      w.(txns := w.txns[txn := Inserted(change)], lock := if w.store.wallet.None? then Some(txn) else w.lock)
    case Lock(txn) =>
      w.(txns := w.txns[txn := HasRead(w.txns[txn].change, WalletOf(w.store).settings)], lock := Some(txn))
    case Commit(txn) =>
      Unlocked(w, txn).(store := Updated(w.store, w.txns[txn].read, w.txns[txn].change))
    case Abort(txn) => Unlocked(w, txn)
  }

  function Run(w: World, steps: seq<Step>): World
    decreases |steps|
  {
    if steps == [] then w else Run(Next(w, steps[0]), steps[1..])
  }

  /** What the wallet holds; none holds nothing. */
  function BalanceOf(s: Store): int {
    if s.wallet.Some? then s.wallet.value.balance else 0
  }

  predicate Initial(w: World) {
    w.store == Store(None, []) && w.queue.Keys <= w.seen && w.txns == map[] && w.lock.None?
  }

  /** What a transaction read under its lock is still so. */
  predicate ReadsHold(w: World) {
    forall t :: t in w.txns && w.txns[t].HasRead? ==>
      w.lock == Some(t) && w.txns[t].read == WalletOf(w.store).settings
  }

  /** Whoever holds the wallet's row is a transaction under way. */
  predicate LockHeld(w: World) {
    w.lock.Some? ==> w.lock.value in w.txns
  }

  predicate Inv(w: World) {
    StoreOk(w.store) && ReadsHold(w) && LockHeld(w)
  }

  lemma StatementKeepsStore(w: World, s: Step)
    requires Inv(w) && Enabled(w, s) && (s.Drain? || s.Grant? || s.Pay? || s.Enter?)
    ensures StoreOk(Next(w, s).store)
  {
    match s
    case Drain(_, rows) => ChargedAllKeepsOk(w.store, rows);
    case Grant(_, period, grant) => GrantedKeepsOk(w.store, period, grant);
    case Pay(payment, credits) =>
      if payment !in Payments(w.store.history) { CreditedKeepsOk(w.store, Purchase(payment), credits); }
    case Enter(kind, amount) => CreditedKeepsOk(w.store, kind, amount);
  }

  /**
   In every interleaving, a commit does what the whole update would do alone
   in that instant: no change made meanwhile is undone.
   */
  lemma CommitIsAtomic(w: World, txn: Id)
    requires Inv(w) && Enabled(w, Commit(txn))
    ensures var now, change := WalletOf(w.store).settings, w.txns[txn].change;
      && Next(w, Commit(txn)).store == Updated(w.store, now, change)
      && AsAsked(WalletOf(Next(w, Commit(txn)).store).settings, now, change)
      && BalanceOf(Next(w, Commit(txn)).store) == BalanceOf(w.store)
  {
    UpdatedKeepsOk(w.store, w.txns[txn].change);
  }

  lemma StepKeepsInv(w: World, s: Step)
    requires Inv(w)
    ensures Inv(Next(w, s))
  {
    if !Enabled(w, s) {
    } else if s.Drain? || s.Grant? || s.Pay? || s.Enter? {
      StatementKeepsStore(w, s);
    } else if s.Commit? {
      UpdatedKeepsOk(w.store, w.txns[s.txn].change);
    }
  }

  lemma {:induction false} RunKeepsInv(w: World, steps: seq<Step>)
    requires Inv(w)
    ensures Inv(Run(w, steps))
    decreases |steps|
  {
    if steps != [] {
      StepKeepsInv(w, steps[0]);
      RunKeepsInv(Next(w, steps[0]), steps[1..]);
    }
  }

  /**
   Conservation: in every interleaving the balance is the ledger's sum less
   the charges', and each ledger row's `balanceAfter` is that same quantity
   over the history up to and with that row.
   */
  lemma {:induction false} BalanceIsConserved(w: World, steps: seq<Step>, i: nat)
    requires Initial(w)
    ensures var s := Run(w, steps).store;
      && WalletOf(s).balance == Total(s.history)
      && (i < |s.history| && s.history[i].Ledger? ==> s.history[i].balanceAfter == Total(s.history[..i + 1]))
  {
    RunKeepsInv(w, steps);
    var h := Run(w, steps).store.history;
    if i < |h| {
      EveryEntryOk(h, i);
      OneMore(h[..i], h[i]);
      assert h[..i + 1] == h[..i] + [h[i]];
    }
  }

  /**
   Replaying the recorded changes from the defaults gives the wallet's
   settings, each `from` is what the rows before it lead to, and no row
   records a change that isn't one.
   */
  lemma {:induction false} SettingsReplay(w: World, steps: seq<Step>, i: nat)
    requires Initial(w)
    ensures var s := Run(w, steps).store;
      && WalletOf(s).settings == Replay(s.history)
      && (i < |s.history| && s.history[i].Ledger? && s.history[i].kind.SettingsRow? ==>
            Follows(s.history[i].kind.changes, Replay(s.history[..i])))
  {
    RunKeepsInv(w, steps);
    var h := Run(w, steps).store.history;
    if i < |h| { EveryEntryOk(h, i); }
  }

  /**
   So nobody waits for the wallet for ever: in every run, once the settings
   transactions under way are over, whoever was to write it can.
   */
  lemma {:induction false} LockEnds(w: World, steps: seq<Step>)
    requires Initial(w)
    ensures var v := Run(w, steps);
      && (v.lock.Some? ==> v.lock.value in v.txns && Next(v, Abort(v.lock.value)).lock.None?)
      && (v.txns == map[] ==> forall payment, credits :: Enabled(v, Pay(payment, credits)))
  {
    RunKeepsInv(w, steps);
  }

  // ─── What each statement is worth ────────────────────────

  /** The statement moved the balance by `delta` and recorded so, in one row more. */
  predicate Recorded(s: Store, after: Store, kind: Kind, delta: int) {
    && after.wallet.Some?
    && BalanceOf(after) == BalanceOf(s) + delta
    && after.history == s.history + [Ledger(kind, delta, BalanceOf(s) + delta)]
    && after.wallet.value.settings == (if s.wallet.Some? then s.wallet.value.settings else Settings(None, None, false))
    && after.wallet.value.period ==
         (if kind.FreeGrant? then Some(kind.period) else if s.wallet.Some? then s.wallet.value.period else None)
  }

  predicate HasPaid(h: seq<Entry>, payment: Id) {
    exists i :: 0 <= i < |h| && h[i].Ledger? && h[i].kind == Purchase(payment)
  }

  /** What is new is queued; what a worker with credits off drops is no longer, and is charged to nobody. */
  lemma QueueSays(w: World, s: Step, item: Charged)
    requires Enabled(w, s) && (s.Enqueue? || s.Discard?)
    ensures Next(w, s).store == w.store
    ensures item in Next(w, s).queue <==>
      if s.Enqueue? then item in w.queue || item == s.item else item in w.queue && item !in s.items
    ensures item in Next(w, s).queue ==>
      Next(w, s).queue[item] == if s.Enqueue? && item == s.item then s.cost else w.queue[item]
  {}

  /** A settled payment adds its credits, once. */
  lemma PayAddsCredits(w: World, payment: Id, credits: int)
    requires Enabled(w, Pay(payment, credits))
    ensures var v := Next(w, Pay(payment, credits));
      if HasPaid(w.store.history, payment) then v == w
      else Recorded(w.store, v.store, Purchase(payment), credits)
  {
    PaidIsRecorded(w.store.history, payment);
  }

  lemma PaidIsRecorded(h: seq<Entry>, payment: Id)
    ensures payment in Payments(h) <==> HasPaid(h, payment)
  {
    if payment in Payments(h) {
      var e :| e in h && e.Ledger? && e.kind.Purchase? && e.kind.payment == payment;
      assert e.kind == Purchase(payment);
    }
    if i :| 0 <= i < |h| && h[i].Ledger? && h[i].kind == Purchase(payment) {
      assert h[i] in h && h[i].kind.payment == payment;
    }
  }

  /** A wallet's month, unless granted before, is worth its grant, once per month missed but for at most 12. */
  lemma GrantAddsMonths(w: World, id: Id, period: nat, defaultGrant: int)
    requires Enabled(w, Grant(id, period, defaultGrant))
    ensures var v := Next(w, Grant(id, period, defaultGrant));
      if w.store.wallet.None? then v == w
      else
        var before := w.store.wallet.value;
        var grant := if before.settings.monthlyGrant.Some? then before.settings.monthlyGrant.value else defaultGrant;
        if before.period.None? then
          Recorded(w.store, v.store, FreeGrant(period), grant)
        else if period <= before.period.value then v == w
        else
          var months := period - before.period.value;
          Recorded(w.store, v.store, FreeGrant(period), (if months > 12 then 12 else months) * grant)
  {}

  /** An admin's entry adds its amount, of either sign. */
  lemma EnterAddsAmount(w: World, kind: Kind, amount: int)
    requires Enabled(w, Enter(kind, amount))
    ensures Recorded(w.store, Next(w, Enter(kind, amount)).store, kind, amount)
  {}

  function Costs(rows: seq<Due>): nat
    decreases |rows|
  {
    if rows == [] then 0 else rows[0].cost + Costs(rows[1..])
  }

  function Charges(rows: seq<Due>): seq<Entry> {
    seq(|rows|, i requires 0 <= i < |rows| => Charge(rows[i].item, rows[i].cost))
  }

  predicate Takes(rows: seq<Due>, item: Charged) {
    exists i :: 0 <= i < |rows| && rows[i].item == item
  }

  /** The balance is `cost` less and the rest of the wallet as it was; a debit of nothing makes no wallet. */
  predicate Debited(s: Store, after: Store, cost: nat) {
    && BalanceOf(after) == BalanceOf(s) - cost
    && (after.wallet.None? <==> s.wallet.None? && cost == 0)
    && (after.wallet.Some? ==>
          && after.wallet.value.settings == (if s.wallet.Some? then s.wallet.value.settings else Settings(None, None, false))
          && after.wallet.value.period == (if s.wallet.Some? then s.wallet.value.period else None))
  }

  lemma {:induction false} FreshAreAllCharged(s: Store, rows: seq<Due>)
    requires forall i, j :: 0 <= i < j < |rows| ==> rows[i].item != rows[j].item
    requires forall i :: 0 <= i < |rows| ==> rows[i].item !in ChargedIn(s.history)
    ensures var after := ChargedAll(s, rows);
      after.history == s.history + Charges(rows) && Debited(s, after, Costs(rows))
    decreases |rows|
  {
    if rows != [] {
      var e := Charge(rows[0].item, rows[0].cost);
      var next := ChargedFor(s, rows[0].item, rows[0].cost);
      assert forall x :: x in next.history <==> x in s.history || x == e;
      assert ChargedIn(next.history) == ChargedIn(s.history) + {rows[0].item};
      FreshAreAllCharged(next, rows[1..]);
      assert Charges(rows) == [e] + Charges(rows[1..]);
      assert next.history + Charges(rows[1..]) == s.history + ([e] + Charges(rows[1..]));
    } else {
      assert Charges(rows) == [];
    }
  }

  /** A drain debits the wallet by its items' costs together, with a row for each, and takes exactly them off the queue. */
  lemma DrainDebits(w: World, id: Id, rows: seq<Due>)
    requires QueueOk(w) && Enabled(w, Drain(id, rows))
    ensures var v := Next(w, Drain(id, rows));
      && v.store.history == w.store.history + Charges(rows)
      && Debited(w.store, v.store, Costs(rows))
      && forall item :: item in v.queue <==> item in w.queue && !Takes(rows, item)
  {
    assert forall i :: 0 <= i < |rows| ==> rows[i] in rows;
    FreshAreAllCharged(w.store, rows);
    forall item ensures item in (set r | r in rows :: r.item) <==> Takes(rows, item) {
      if i :| 0 <= i < |rows| && rows[i].item == item { assert rows[i] in rows; }
    }
  }

  /** No invocation is charged twice, no payment credited twice, no month granted twice. */
  lemma {:induction false} NothingTwice(w: World, steps: seq<Step>, i: nat, j: nat)
    requires Initial(w) && i < j < |Run(w, steps).store.history|
    ensures var h := Run(w, steps).store.history;
      && (h[i].Charge? && h[j].Charge? ==> h[i].item != h[j].item)
      && (h[i].Ledger? && h[j].Ledger? && h[i].kind.Purchase? && h[j].kind.Purchase? ==>
            h[i].kind.payment != h[j].kind.payment)
      && (h[i].Ledger? && h[j].Ledger? && h[i].kind.FreeGrant? && h[j].kind.FreeGrant? ==>
            h[i].kind.period < h[j].kind.period)
  {
    RunKeepsInv(w, steps);
    var h := Run(w, steps).store.history;
    EveryEntryOk(h, j);
    assert h[i] in h[..j];
    if h[i].Ledger? && h[i].kind.FreeGrant? { GrantsClimb(h[..j], i); }
  }

  /** The last month granted is at least each month granted. */
  lemma {:induction false} GrantsClimb(h: seq<Entry>, i: nat)
    requires HistoryOk(h) && i < |h| && h[i].Ledger? && h[i].kind.FreeGrant?
    ensures LastGranted(h).Some? && h[i].kind.period <= LastGranted(h).value
    decreases |h|
  {
    if i < |h| - 1 { GrantsClimb(h[..|h| - 1], i); }
  }

  // ─── Waiting charges ─────────────────────────────────────

  /** An item is queued once; from then on it waits, has been charged, or neither. */
  predicate QueueOk(w: World) {
    w.queue.Keys <= w.seen && ChargedIn(w.store.history) <= w.seen && w.queue.Keys !! ChargedIn(w.store.history)
  }

  lemma {:induction false} ChargedAllCharges(s: Store, rows: seq<Due>, item: Charged)
    ensures item in ChargedIn(ChargedAll(s, rows).history) <==>
      item in ChargedIn(s.history) || exists r :: r in rows && r.item == item
    decreases |rows|
  {
    if rows != [] {
      var e := Charge(rows[0].item, rows[0].cost);
      assert forall x :: x in s.history + [e] <==> x in s.history || x == e;
      assert ChargedIn(s.history + [e]) == ChargedIn(s.history) + {rows[0].item};
      assert forall r :: r in rows <==> r == rows[0] || r in rows[1..];
      if rows[0].item in ChargedIn(s.history) {
        ChargedAllCharges(s, rows[1..], item);
      } else {
        ChargedAllCharges(ChargedFor(s, rows[0].item, rows[0].cost), rows[1..], item);
      }
    }
  }

  lemma LedgerRowsChargeNothing(h: seq<Entry>, e: Entry)
    requires e.Ledger?
    ensures ChargedIn(h + [e]) == ChargedIn(h)
  {
    assert forall x :: x in h + [e] <==> x in h || x == e;
  }

  /** Any statement but a drain leaves the charges as they are. */
  lemma OthersChargeNothing(w: World, s: Step)
    requires Enabled(w, s) && !s.Drain?
    ensures ChargedIn(Next(w, s).store.history) == ChargedIn(w.store.history)
  {
    var h, h' := w.store.history, Next(w, s).store.history;
    if h' != h {
      assert h' == h + [h'[|h|]];
      LedgerRowsChargeNothing(h, h'[|h|]);
    }
  }

  lemma StepKeepsQueueOk(w: World, s: Step)
    requires QueueOk(w)
    ensures QueueOk(Next(w, s))
  {
    if Enabled(w, s) {
      if s.Drain? {
        forall item | item in w.seen || item in ChargedIn(Next(w, s).store.history)
          ensures item in ChargedIn(Next(w, s).store.history) <==>
            item in ChargedIn(w.store.history) || exists r :: r in s.rows && r.item == item
        {
          ChargedAllCharges(w.store, s.rows, item);
        }
      } else {
        OthersChargeNothing(w, s);
      }
    }
  }

  lemma {:induction false} RunKeepsQueueOk(w: World, steps: seq<Step>)
    requires QueueOk(w)
    ensures QueueOk(Run(w, steps))
    decreases |steps|
  {
    if steps != [] {
      StepKeepsQueueOk(w, steps[0]);
      RunKeepsQueueOk(Next(w, steps[0]), steps[1..]);
    }
  }

  /** So in every run from the start nothing charged is queued still. */
  lemma QueueIsUncharged(w: World, steps: seq<Step>)
    requires Initial(w)
    ensures QueueOk(Run(w, steps))
  {
    RunKeepsQueueOk(w, steps);
  }

  lemma {:induction false} ChargedAllAppends(s: Store, rows: seq<Due>, e: Entry)
    requires e in s.history
    ensures e in ChargedAll(s, rows).history
    decreases |rows|
  {
    if rows != [] {
      if rows[0].item in ChargedIn(s.history) {
        ChargedAllAppends(s, rows[1..], e);
      } else {
        ChargedAllAppends(ChargedFor(s, rows[0].item, rows[0].cost), rows[1..], e);
      }
    }
  }

  lemma {:induction false} ChargedAllAtCost(s: Store, rows: seq<Due>, due: Due)
    requires due in rows && due.item !in ChargedIn(s.history)
    requires forall r :: r in rows && r.item == due.item ==> r == due
    ensures Charge(due.item, due.cost) in ChargedAll(s, rows).history
    decreases |rows|
  {
    if rows[0] == due {
      ChargedAllAppends(ChargedFor(s, due.item, due.cost), rows[1..], Charge(due.item, due.cost));
    } else if rows[0].item in ChargedIn(s.history) {
      ChargedAllAtCost(s, rows[1..], due);
    } else {
      var e := Charge(rows[0].item, rows[0].cost);
      assert forall x :: x in s.history + [e] <==> x in s.history || x == e;
      ChargedAllAtCost(ChargedFor(s, rows[0].item, rows[0].cost), rows[1..], due);
    }
  }

  /** A drained item is charged what it was queued with, or an invocation what the worker asks for one. */
  lemma DrainedAtItsCost(w: World, s: Step, item: Charged)
    requires QueueOk(w) && Drains(w, s, item)
    ensures Charge(item, if item.ForInvocation? then w.workers[s.id].costPerInvocation else w.queue[item])
              in Next(w, s).store.history
  {
    var due :| due in s.rows && due.item == item;
    ChargedAllAtCost(w.store, s.rows, due);
  }

  predicate Drains(w: World, s: Step, item: Charged) {
    Enabled(w, s) && s.Drain? && exists r :: r in s.rows && r.item == item
  }

  predicate Drops(w: World, s: Step, item: Charged) {
    Enabled(w, s) && s.Discard? && item in s.items
  }

  predicate DroppedIn(w: World, steps: seq<Step>, item: Charged)
    decreases |steps|
  {
    steps != [] && (Drops(w, steps[0], item) || DroppedIn(Next(w, steps[0]), steps[1..], item))
  }

  predicate DrainedIn(w: World, steps: seq<Step>, item: Charged)
    decreases |steps|
  {
    steps != [] && (Drains(w, steps[0], item) || DrainedIn(Next(w, steps[0]), steps[1..], item))
  }

  /** A step takes an item out of the queue when it drains or drops it, and charges it when it drains it. */
  lemma StepTakes(w: World, s: Step, item: Charged)
    requires item in w.seen
    ensures item in Next(w, s).queue <==> item in w.queue && !Drains(w, s, item) && !Drops(w, s, item)
    ensures item in ChargedIn(Next(w, s).store.history) <==> item in ChargedIn(w.store.history) || Drains(w, s, item)
    ensures item in Next(w, s).seen
  {
    if Enabled(w, s) {
      if s.Drain? {
        ChargedAllCharges(w.store, s.rows, item);
      } else {
        OthersChargeNothing(w, s);
      }
    }
  }

  /** Neither queued nor charged, and so for good. */
  predicate Lost(w: World, item: Charged) {
    item in w.seen && item !in w.queue && item !in ChargedIn(w.store.history)
  }

  lemma {:induction false} LostForGood(w: World, steps: seq<Step>, item: Charged)
    requires QueueOk(w) && Lost(w, item)
    ensures Lost(Run(w, steps), item) && !DrainedIn(w, steps, item)
    decreases |steps|
  {
    if steps != [] {
      StepTakes(w, steps[0], item);
      StepKeepsQueueOk(w, steps[0]);
      LostForGood(Next(w, steps[0]), steps[1..], item);
    }
  }

  lemma {:induction false} ChargedForGood(w: World, steps: seq<Step>, item: Charged)
    requires QueueOk(w) && item in ChargedIn(w.store.history)
    ensures item in ChargedIn(Run(w, steps).store.history) && !DroppedIn(w, steps, item)
    decreases |steps|
  {
    if steps != [] {
      StepTakes(w, steps[0], item);
      StepKeepsQueueOk(w, steps[0]);
      ChargedForGood(Next(w, steps[0]), steps[1..], item);
    }
  }

  /**
   In every run a queued item ends queued or charged exactly when no worker
   with credits off drops it on the way, and charged exactly when one with
   credits on drains it.
   */
  lemma {:induction false} QueuedIsCharged(w: World, steps: seq<Step>, item: Charged)
    requires QueueOk(w) && item in w.queue
    ensures var v := Run(w, steps);
      && (item in v.queue || item in ChargedIn(v.store.history) <==> !DroppedIn(w, steps, item))
      && (item in ChargedIn(v.store.history) <==> DrainedIn(w, steps, item))
    decreases |steps|
  {
    if steps != [] {
      var v := Next(w, steps[0]);
      StepTakes(w, steps[0], item);
      StepKeepsQueueOk(w, steps[0]);
      if item in v.queue {
        QueuedIsCharged(v, steps[1..], item);
      } else if item in ChargedIn(v.store.history) {
        ChargedForGood(v, steps[1..], item);
      } else {
        LostForGood(v, steps[1..], item);
      }
    }
  }

  /** Every worker that runs, and every one that starts, has credits on. */
  predicate StaysOn(w: World, steps: seq<Step>) {
    && (forall id :: id in w.workers ==> w.workers[id].enabled)
    && (forall s :: s in steps && s.Start? ==> s.worker.enabled)
  }

  lemma {:induction false} OnDropsNothing(w: World, steps: seq<Step>, item: Charged)
    requires StaysOn(w, steps)
    ensures !DroppedIn(w, steps, item)
    decreases |steps|
  {
    if steps != [] {
      assert steps[0] in steps;
      OnDropsNothing(Next(w, steps[0]), steps[1..], item);
    }
  }

  /** So while credits stay on no queued charge is lost. */
  lemma {:induction false} NoneLostWhileOn(w: World, steps: seq<Step>, item: Charged)
    requires QueueOk(w) && item in w.queue && StaysOn(w, steps)
    ensures item in Run(w, steps).queue || item in ChargedIn(Run(w, steps).store.history)
  {
    QueuedIsCharged(w, steps, item);
    OnDropsNothing(w, steps, item);
  }

  /** But one process with credits off can drop any, and then it is never charged, whatever follows. */
  lemma {:induction false} OneOffLosesIt(w: World, id: Id, cost: nat, item: Charged, more: seq<Step>)
    requires QueueOk(w) && item in w.queue && id !in w.workers
    ensures Lost(Run(w, [Start(id, Worker(false, cost)), Discard(id, {item})] + more), item)
  {
    var steps := [Start(id, Worker(false, cost)), Discard(id, {item})] + more;
    var on := Next(w, steps[0]);
    var off := Next(on, steps[1]);
    assert steps[1..][1..] == more;
    StepKeepsQueueOk(w, steps[0]);
    StepKeepsQueueOk(on, steps[1]);
    assert Run(w, steps) == Run(on, steps[1..]) == Run(off, more);
    LostForGood(off, more, item);
  }
}
