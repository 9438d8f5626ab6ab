/**
 One account's credits: its wallet, and its ledger and charge rows in the
 order they were committed.
 */
module CreditLedger {
  import opened Prelude
  import opened Batches

  const MAX_AMOUNT_MC: int := 1_000_000_000_000
  const MAX_RATE_LIMIT_PER_MIN: int := 1_000_000
  const MAX_NOTE_CHARS: nat := 500

  /** `None` is the default. */
  datatype Settings = Settings(monthlyGrant: Option<int>, ratePerMin: Option<int>, unlimited: bool)

  const DEFAULTS := Settings(None, None, false)

  datatype Wallet = Wallet(balance: int, settings: Settings, period: Option<nat>)

  datatype Edit<T> = Edit(from: T, to: T)

  /** What a settings row lists: `{from, to}` of each setting that changed. */
  datatype Changes = Changes(
    monthlyGrant: Option<Edit<Option<int>>>, ratePerMin: Option<Edit<Option<int>>>, unlimited: Option<Edit<bool>>)
  {
    predicate Empty() {
      monthlyGrant.None? && ratePerMin.None? && unlimited.None?
    }
  }

  /** Months are counted from year 0. */
  datatype Kind = AdminGrant | Adjustment | SettingsRow(changes: Changes) | FreeGrant(period: nat) | Purchase(payment: Id)

  /** What a charge is for: an invocation, or a message or memory of a call. */
  datatype Charged = ForInvocation(invocation: Id) | ForCall(id: Id)

  datatype Entry =
    | Charge(item: Charged, cost: int)
    | Ledger(kind: Kind, delta: int, balanceAfter: int)
  {
    function Delta(): int {
      if Charge? then -cost else delta
    }
  }

  datatype Store = Store(wallet: Option<Wallet>, history: seq<Entry>)

  /** `None` leaves a setting as it is; `Some(None)` puts it back to the default. */
  datatype SettingsChange = SettingsChange(
    monthlyGrant: Option<Option<int>>, ratePerMin: Option<Option<int>>, unlimited: Option<bool>)

  // ─── What the history says ───────────────────────────────

  /** The ledger's sum less the charges'. */
  function Total(h: seq<Entry>): int {
    if h == [] then 0 else Total(h[..|h| - 1]) + h[|h| - 1].Delta()
  }

  function Edited<T>(value: T, edit: Option<Edit<T>>): T {
    if edit.Some? then edit.value.to else value
  }

  function Applied(s: Settings, c: Changes): Settings {
    Settings(Edited(s.monthlyGrant, c.monthlyGrant), Edited(s.ratePerMin, c.ratePerMin), Edited(s.unlimited, c.unlimited))
  }

  /** The settings the recorded changes lead to, from the defaults. */
  function Replay(h: seq<Entry>): Settings {
    if h == [] then DEFAULTS
    else
      var before, e := Replay(h[..|h| - 1]), h[|h| - 1];
      if e.Ledger? && e.kind.SettingsRow? then Applied(before, e.kind.changes) else before
  }

  function LastGranted(h: seq<Entry>): Option<nat> {
    if h == [] then None
    else
      var e := h[|h| - 1];
      if e.Ledger? && e.kind.FreeGrant? then Some(e.kind.period) else LastGranted(h[..|h| - 1])
  }

  function ChargedIn(h: seq<Entry>): set<Charged> {
    set e | e in h && e.Charge? :: e.item
  }

  function Payments(h: seq<Entry>): set<Id> {
    set e | e in h && e.Ledger? && e.kind.Purchase? :: e.kind.payment
  }

  // ─── What every row keeps ────────────────────────────────

  predicate EditFollows<T(==)>(edit: Option<Edit<T>>, value: T) {
    edit.Some? ==> edit.value.from == value && edit.value.to != edit.value.from
  }

  /** Each change starts where the last one ended, and changes something. */
  predicate Follows(c: Changes, s: Settings) {
    && !c.Empty()
    && EditFollows(c.monthlyGrant, s.monthlyGrant) && EditFollows(c.ratePerMin, s.ratePerMin)
    && EditFollows(c.unlimited, s.unlimited)
  }

  predicate KindOk(h: seq<Entry>, kind: Kind, delta: int) {
    match kind
    case SettingsRow(changes) => delta == 0 && Follows(changes, Replay(h))
    case FreeGrant(period) => LastGranted(h).Some? ==> LastGranted(h).value < period
    case Purchase(payment) => payment !in Payments(h)
    case _ => true
  }

  /** `e` may follow `h`. */
  predicate EntryOk(h: seq<Entry>, e: Entry) {
    match e
    case Charge(item, _) => item !in ChargedIn(h)
    case Ledger(kind, delta, after) => after == Total(h) + delta && KindOk(h, kind, delta)
  }

  predicate HistoryOk(h: seq<Entry>) {
    h == [] || (HistoryOk(h[..|h| - 1]) && EntryOk(h[..|h| - 1], h[|h| - 1]))
  }

  /** The wallet, or for want of one an empty default, is what the history says. */
  predicate StoreOk(s: Store) {
    var w := WalletOf(s);
    HistoryOk(s.history) && w.balance == Total(s.history) && w.settings == Replay(s.history)
    && w.period == LastGranted(s.history)
  }

  lemma {:induction false} EveryEntryOk(h: seq<Entry>, i: nat)
    requires HistoryOk(h) && i < |h|
    ensures HistoryOk(h[..i]) && EntryOk(h[..i], h[i])
    decreases |h|
  {
    if i < |h| - 1 {
      EveryEntryOk(h[..|h| - 1], i);
      assert h[..|h| - 1][..i] == h[..i];
    }
  }

  // ─── Statements ──────────────────────────────────────────

  function WalletOf(s: Store): Wallet {
    if s.wallet.Some? then s.wallet.value else Wallet(0, DEFAULTS, None)
  }

  /** Credit (or debit) the wallet, creating it, and record the row with the balance after. */
  function Credited(s: Store, kind: Kind, delta: int): Store {
    var w := WalletOf(s);
    var w' := w.(balance := w.balance + delta,
                 period := if kind.FreeGrant? then Some(kind.period) else w.period);
    Store(Some(w'), s.history + [Ledger(kind, delta, w'.balance)])
  }

  /** A charge row and its share of the debit. A charge of 0 debits nothing and makes no wallet. */
  function ChargedFor(s: Store, item: Charged, cost: nat): Store {
    var w := WalletOf(s);
    Store(if cost > 0 then Some(w.(balance := w.balance - cost)) else s.wallet, s.history + [Charge(item, cost)])
  }

  /** A queued charge, with its cost. */
  datatype Due = Due(item: Charged, cost: nat)

  /** `charge_rows` and `charge_call_rows`: drained items charged before are skipped. */
  function ChargedAll(s: Store, rows: seq<Due>): Store
    decreases |rows|
  {
    if rows == [] then s
    else if rows[0].item in ChargedIn(s.history) then ChargedAll(s, rows[1..])
    else ChargedAll(ChargedFor(s, rows[0].item, rows[0].cost), rows[1..])
  }

  /** Months due: one for a first grant, else one per missed month up to 12. */
  function MonthsDue(last: Option<nat>, period: nat): nat {
    if last.None? then 1 else if last.value < period then Min(12, period - last.value) else 0
  }

  /** `grant_rows`, for this wallet. */
  function Granted(s: Store, period: nat, defaultGrant: int): Store {
    var w := WalletOf(s);
    if s.wallet.None? || (w.period.Some? && period <= w.period.value) then s
    else
      var grant := if w.settings.monthlyGrant.Some? then w.settings.monthlyGrant.value else defaultGrant;
      Credited(s, FreeGrant(period), MonthsDue(w.period, period) * grant)
  }

  /** A settled payment; the unique reference rolls a second credit back. */
  function Paid(s: Store, payment: Id, credits: int): Store {
    if payment in Payments(s.history) then s else Credited(s, Purchase(payment), credits)
  }

  function Asked<T>(asked: Option<T>, current: T): T {
    if asked.Some? then asked.value else current
  }

  function Requested(s: Settings, c: SettingsChange): Settings {
    Settings(Asked(c.monthlyGrant, s.monthlyGrant), Asked(c.ratePerMin, s.ratePerMin), Asked(c.unlimited, s.unlimited))
  }

  function Diff<T(==)>(from: T, to: T): Option<Edit<T>> {
    if from == to then None else Some(Edit(from, to))
  }

  function ChangesBetween(a: Settings, b: Settings): Changes {
    Changes(Diff(a.monthlyGrant, b.monthlyGrant), Diff(a.ratePerMin, b.ratePerMin), Diff(a.unlimited, b.unlimited))
  }

  /** All three settings overwritten with `to`, and the row that lists `changes`. */
  function Overwritten(s: Store, to: Settings, changes: Changes): Store {
    var w := WalletOf(s);
    Store(Some(w.(settings := to)), s.history + [Ledger(SettingsRow(changes), 0, w.balance)])
  }

  /** The update's commit: everything it writes comes from what it read. */
  function Updated(s: Store, read: Settings, c: SettingsChange): Store {
    var changes := ChangesBetween(read, Requested(read, c));
    if changes.Empty() then s else Overwritten(s, Requested(read, c), changes)
  }

  // ─── Every statement keeps it ────────────────────────────

  lemma OneMore(h: seq<Entry>, e: Entry)
    ensures Total(h + [e]) == Total(h) + e.Delta()
    ensures HistoryOk(h + [e]) == (HistoryOk(h) && EntryOk(h, e))
    ensures Replay(h + [e]) == if e.Ledger? && e.kind.SettingsRow? then Applied(Replay(h), e.kind.changes) else Replay(h)
    ensures LastGranted(h + [e]) == if e.Ledger? && e.kind.FreeGrant? then Some(e.kind.period) else LastGranted(h)
  {
    assert (h + [e])[..|h|] == h;
  }

  lemma CreditedKeepsOk(s: Store, kind: Kind, delta: int)
    requires StoreOk(s) && KindOk(s.history, kind, delta) && !kind.SettingsRow?
    ensures StoreOk(Credited(s, kind, delta))
  {
    OneMore(s.history, Ledger(kind, delta, WalletOf(s).balance + delta));
  }

  lemma {:induction false} ChargedAllKeepsOk(s: Store, rows: seq<Due>)
    requires StoreOk(s)
    ensures StoreOk(ChargedAll(s, rows))
    decreases |rows|
  {
    if rows != [] {
      if rows[0].item in ChargedIn(s.history) {
        ChargedAllKeepsOk(s, rows[1..]);
      } else {
        OneMore(s.history, Charge(rows[0].item, rows[0].cost));
        ChargedAllKeepsOk(ChargedFor(s, rows[0].item, rows[0].cost), rows[1..]);
      }
    }
  }

  /** The recorded changes lead from what was read to what was asked. */
  lemma ChangesLead(read: Settings, c: SettingsChange)
    ensures var changes := ChangesBetween(read, Requested(read, c));
      && Applied(read, changes) == Requested(read, c)
      && (changes.Empty() <==> Requested(read, c) == read)
      && (!changes.Empty() ==> Follows(changes, read))
  {}

  lemma UpdatedKeepsOk(s: Store, c: SettingsChange)
    requires StoreOk(s)
    ensures StoreOk(Updated(s, WalletOf(s).settings, c))
    ensures AsAsked(WalletOf(Updated(s, WalletOf(s).settings, c)).settings, WalletOf(s).settings, c)
  {
    var read := WalletOf(s).settings;
    ChangesLead(read, c);
    var changes := ChangesBetween(read, Requested(read, c));
    if !changes.Empty() {
      OneMore(s.history, Ledger(SettingsRow(changes), 0, WalletOf(s).balance));
    }
  }

  /** `to` is `from` with each setting the change names as it asks, and the others as they were. */
  predicate AsAsked(to: Settings, from: Settings, c: SettingsChange) {
    && to.monthlyGrant == (if c.monthlyGrant.Some? then c.monthlyGrant.value else from.monthlyGrant)
    && to.ratePerMin == (if c.ratePerMin.Some? then c.ratePerMin.value else from.ratePerMin)
    && to.unlimited == (if c.unlimited.Some? then c.unlimited.value else from.unlimited)
  }

  /** A setting the change asks for, or one the read got right. */
  predicate Right<T(==)>(asked: Option<T>, read: T, now: T) {
    asked.Some? || read == now
  }

  /**
   Why the update locks before it reads. A commit from a read that isn't what
   the wallet holds now still does what was asked exactly when the read was
   right about every setting the change leaves alone; else it undoes what
   someone else set.
   */
  lemma StaleReadUndoes(s: Store, read: Settings, c: SettingsChange)
    requires !ChangesBetween(read, Requested(read, c)).Empty()
    ensures var now := WalletOf(s).settings;
      AsAsked(WalletOf(Updated(s, read, c)).settings, now, c) <==>
        && Right(c.monthlyGrant, read.monthlyGrant, now.monthlyGrant)
        && Right(c.ratePerMin, read.ratePerMin, now.ratePerMin)
        && Right(c.unlimited, read.unlimited, now.unlimited)
  {}

  lemma GrantedKeepsOk(s: Store, period: nat, defaultGrant: int)
    requires StoreOk(s)
    ensures StoreOk(Granted(s, period, defaultGrant))
  {
    var w := WalletOf(s);
    if s.wallet.Some? && (w.period.None? || w.period.value < period) {
      var grant := if w.settings.monthlyGrant.Some? then w.settings.monthlyGrant.value else defaultGrant;
      CreditedKeepsOk(s, FreeGrant(period), MonthsDue(w.period, period) * grant);
    }
  }

  // ─── One process ─────────────────────────────────────────

  datatype CreditError =
    | GrantNotPositive | AdjustmentZero | AdjustmentNeedsNote | UnknownKind | AmountTooLarge
    | NoteTooLong | GrantOutOfRange | RateOutOfRange | NoAccount

  /** A note as trimmed; an empty one is none. */
  function CleanNote(trimmed: Option<string>): (r: Result<Option<string>, CreditError>)
    ensures r.Err? <==> trimmed.Some? && |trimmed.value| > 500
    ensures r.Err? ==> r.error.NoteTooLong?
    ensures r.Ok? ==> r.value == (if trimmed == Some("") then None else trimmed)
  {
    if trimmed.None? || trimmed.value == "" then Ok(None)
    else if |trimmed.value| > MAX_NOTE_CHARS then Err(NoteTooLong)
    else Ok(trimmed)
  }

  /** Whether a change is one the admin API takes. */
  predicate ChangeValid(c: SettingsChange) {
    && (c.monthlyGrant.Some? && c.monthlyGrant.value.Some? ==> 0 <= c.monthlyGrant.value.value <= MAX_AMOUNT_MC)
    && (c.ratePerMin.Some? && c.ratePerMin.value.Some? ==> 1 <= c.ratePerMin.value.value <= MAX_RATE_LIMIT_PER_MIN)
  }

  class Credits {
    const hasAccount: bool
    var wallet: Option<Wallet>
    var history: seq<Entry>

    function Contents(): Store
      reads this
    {
      Store(wallet, history)
    }

    constructor (hasAccount: bool)
      ensures Contents() == Store(None, []) && StoreOk(Contents()) && this.hasAccount == hasAccount
    {
      this.hasAccount := hasAccount;
      wallet, history := None, [];
    }

    /** The upsert and its ledger row, in one statement. */
    method Credit(kind: Kind, delta: int)
      requires StoreOk(Contents()) && KindOk(history, kind, delta) && !kind.SettingsRow?
      modifies this
      ensures Contents() == Credited(old(Contents()), kind, delta) && StoreOk(Contents())
    {
      CreditedKeepsOk(Contents(), kind, delta);
      var s := Credited(Contents(), kind, delta);
      wallet, history := s.wallet, s.history;
    }

    method AddEntry(kind: string, amount: int, trimmed: Option<string>) returns (r: Result<(), CreditError>)
      requires StoreOk(Contents())
      modifies this
      ensures StoreOk(Contents())
      ensures r.Ok? <==>
        && hasAccount && -MAX_AMOUNT_MC <= amount <= MAX_AMOUNT_MC
        && (trimmed.Some? ==> |trimmed.value| <= 500)
        && ((kind == "grant" && amount > 0) || (kind == "adjustment" && amount != 0 && trimmed.Some? && trimmed.value != ""))
      ensures r.Err? ==>
        r.error == (if trimmed.Some? && |trimmed.value| > 500 then NoteTooLong
                    else if kind != "grant" && kind != "adjustment" then UnknownKind
                    else if kind == "grant" && amount <= 0 then GrantNotPositive
                    else if kind == "adjustment" && amount == 0 then AdjustmentZero
                    else if kind == "adjustment" && (trimmed.None? || trimmed.value == "") then AdjustmentNeedsNote
                    else if amount > MAX_AMOUNT_MC || -amount > MAX_AMOUNT_MC then AmountTooLarge
                    else NoAccount)
      ensures r.Ok? ==>
        && WalletOf(Contents()) == WalletOf(old(Contents())).(balance := WalletOf(old(Contents())).balance + amount)
        && history == old(history) +
             [Ledger(if kind == "grant" then AdminGrant else Adjustment, amount, WalletOf(Contents()).balance)]
      ensures r.Err? ==> Contents() == old(Contents())
    {
      var note := CleanNote(trimmed);
      if note.Err? { return Err(note.error); }
      var reason := AdminGrant;
      if kind == "grant" {
        if amount <= 0 { return Err(GrantNotPositive); }
      } else if kind == "adjustment" {
        if amount == 0 { return Err(AdjustmentZero); }
        if note.value.None? { return Err(AdjustmentNeedsNote); }
        reason := Adjustment;
      } else {
        return Err(UnknownKind);
      }
      if amount > MAX_AMOUNT_MC || -amount > MAX_AMOUNT_MC { return Err(AmountTooLarge); }
      if !hasAccount { return Err(NoAccount); }
      Credit(reason, amount);
      r := Ok(());
    }

    /** Only what changes is recorded, and an update that changes nothing leaves no wallet behind. */
    method UpdateSettings(change: SettingsChange, trimmed: Option<string>) returns (r: Result<(), CreditError>)
      requires StoreOk(Contents())
      modifies this
      ensures StoreOk(Contents())
      ensures r.Ok? <==> ChangeValid(change) && (trimmed.Some? ==> |trimmed.value| <= 500) && hasAccount
      ensures r.Err? ==> Contents() == old(Contents())
      ensures r.Ok? ==>
        && AsAsked(WalletOf(Contents()).settings, WalletOf(old(Contents())).settings, change)
        && WalletOf(Contents()).balance == WalletOf(old(Contents())).balance
        && WalletOf(Contents()).period == WalletOf(old(Contents())).period
        && (WalletOf(Contents()) == WalletOf(old(Contents())) ==> Contents() == old(Contents()))
        && (WalletOf(Contents()) != WalletOf(old(Contents())) ==>
              && |history| == |old(history)| + 1 && history[..|old(history)|] == old(history)
              && var row := history[|old(history)|];
                 row.Ledger? && row.kind.SettingsRow? && row.delta == 0 && row.balanceAfter == WalletOf(Contents()).balance)
    {
      if change.monthlyGrant.Some? && change.monthlyGrant.value.Some? {
        if !(0 <= change.monthlyGrant.value.value <= MAX_AMOUNT_MC) { return Err(GrantOutOfRange); }
      }
      if change.ratePerMin.Some? && change.ratePerMin.value.Some? {
        if !(1 <= change.ratePerMin.value.value <= MAX_RATE_LIMIT_PER_MIN) { return Err(RateOutOfRange); }
      }
      var note := CleanNote(trimmed);
      if note.Err? { return Err(note.error); }
      if !hasAccount { return Err(NoAccount); }
      var current := WalletOf(Contents()).settings;
      var changes := ChangesBetween(current, Requested(current, change));
      ChangesLead(current, change);
      if changes.Empty() { return Ok(()); }
      UpdatedKeepsOk(Contents(), change);
      var s := Overwritten(Contents(), Requested(current, change), changes);
      wallet, history := s.wallet, s.history;
      r := Ok(());
    }
  }
}
