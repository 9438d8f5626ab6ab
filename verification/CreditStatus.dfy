/** What an account is shown about its credits: the view's status and the banner's alerts. */
module CreditStatus {
  import opened Prelude
  import opened CreditLedger

  /** Costs and grants in milli-credits; the cost is positive. */
  datatype Config = Config(enabled: bool, costPerInvocation: int, lowBalance: int, defaultGrant: int) {
    predicate Valid() {
      costPerInvocation > 0
    }

    function LowBelow(): int
      requires enabled
    {
      Max(lowBalance, costPerInvocation)
    }
  }

  function GrantOverrideOrDefault(override: Option<int>, cfg: Config): int {
    if override.Some? then override.value else cfg.defaultGrant
  }

  predicate IsBlocked(balance: int, granted: bool, unlimited: bool, cost: int) {
    !unlimited && granted && balance < cost
  }

  predicate IsLow(balance: int, granted: bool, unlimited: bool, cost: int, below: int) {
    !unlimited && granted && balance >= cost && balance < below
  }

  datatype Status = Off | Unlimited | Blocked | Active(low: bool)

  datatype View = View(balance: int, status: Status)

  /** A first grant still to come is counted. */
  function ViewOf(wallet: Option<Wallet>, cfg: Config): View
    requires cfg.Valid()
  {
    var balance :=
      if wallet.None? then GrantOverrideOrDefault(None, cfg)
      else if cfg.enabled && wallet.value.period.None? then
        wallet.value.balance + GrantOverrideOrDefault(wallet.value.settings.monthlyGrant, cfg)
      else wallet.value.balance;
    var granted := wallet.Some? && wallet.value.period.Some?;
    var unlimited := wallet.Some? && wallet.value.settings.unlimited;
    View(balance,
         if !cfg.enabled then Off
         else if unlimited then Unlimited
         else if IsBlocked(balance, granted, unlimited, cfg.costPerInvocation) then Blocked
         else Active(IsLow(balance, granted, unlimited, cfg.costPerInvocation, cfg.LowBelow())))
  }

  /**
   What the page shows of an account: blocked when a granted, limited one
   can't pay for a call, low when it can and holds less than the low balance;
   a balance counts a first grant still to come.
   */
  lemma ViewShows(wallet: Option<Wallet>, cfg: Config)
    requires cfg.Valid()
    ensures var v := ViewOf(wallet, cfg);
      && (v.status.Off? <==> !cfg.enabled)
      && (v.status.Unlimited? <==> cfg.enabled && wallet.Some? && wallet.value.settings.unlimited)
      && (v.status.Blocked? <==>
            cfg.enabled && wallet.Some? && !wallet.value.settings.unlimited && wallet.value.period.Some?
            && wallet.value.balance < cfg.costPerInvocation)
      && (v.status == Active(true) <==>
            cfg.enabled && wallet.Some? && !wallet.value.settings.unlimited && wallet.value.period.Some?
            && cfg.costPerInvocation <= wallet.value.balance < cfg.lowBalance)
      && (wallet.None? ==> v.balance == cfg.defaultGrant)
      && (wallet.Some? && (!cfg.enabled || wallet.value.period.Some?) ==> v.balance == wallet.value.balance)
      && (wallet.Some? && cfg.enabled && wallet.value.period.None? ==>
            var own := wallet.value.settings.monthlyGrant;
            v.balance == wallet.value.balance + (if own.Some? then own.value else cfg.defaultGrant))
  {}

  datatype Alert = Alert(blocked: bool, balance: int, callsLeft: int)

  /** Integer division as the program's: toward zero. */
  function Quotient(a: int, b: int): int
    requires b > 0
  {
    if a >= 0 then a / b else -(-a / b)
  }

  /** The banner's query, for one of the user's accounts. */
  function AlertFor(wallet: Option<Wallet>, cfg: Config): Option<Alert>
    requires cfg.Valid()
  {
    if !cfg.enabled || wallet.None? then None
    else
      var w := wallet.value;
      // Below is the larger of the low and the block threshold.
      if w.settings.unlimited || w.period.None? || w.balance >= Max(cfg.LowBelow(), cfg.costPerInvocation) then None
      else Some(Alert(IsBlocked(w.balance, true, false, cfg.costPerInvocation), w.balance,
                      Max(Quotient(w.balance, cfg.costPerInvocation), 0)))
  }

  /** The banner shows exactly the accounts whose own page says blocked or low, and the same one. */
  lemma AlertsMatchTheView(wallet: Option<Wallet>, cfg: Config)
    requires cfg.Valid()
    ensures var v, a := ViewOf(wallet, cfg), AlertFor(wallet, cfg);
      && (a.Some? <==> v.status.Blocked? || v.status == Active(true))
      && (a.Some? ==> a.value.balance == v.balance && (a.value.blocked <==> v.status.Blocked?))
  {}

  /** `callsLeft` is how many more calls the balance pays for, and 0 exactly when blocked. */
  lemma CallsLeftAreAffordable(wallet: Option<Wallet>, cfg: Config, n: nat)
    requires cfg.Valid() && AlertFor(wallet, cfg).Some?
    ensures var a := AlertFor(wallet, cfg).value;
      && a.callsLeft >= 0
      && (n > 0 ==> (n <= a.callsLeft <==> n * cfg.costPerInvocation <= a.balance))
      && (a.callsLeft == 0 <==> a.blocked)
  {
    var a, cost := AlertFor(wallet, cfg).value, cfg.costPerInvocation;
    if a.balance >= 0 {
      QuotientBounds(a.balance, cost, n);
      QuotientBounds(a.balance, cost, 1);
    } else {
      assert Quotient(a.balance, cost) <= 0 by { assert -a.balance / cost >= 0; }
      assert n > 0 ==> n * cost > 0 by { if n > 0 { Positive(n, cost); } }
    }
  }

  lemma Positive(n: nat, cost: int)
    requires n > 0 && cost > 0
    ensures n * cost > 0
  {}

  lemma TimesGrows(a: int, b: int, c: int)
    requires c > 0
    ensures a <= b ==> a * c <= b * c
  {}

  lemma QuotientBounds(b: int, cost: int, n: nat)
    requires b >= 0 && cost > 0
    ensures b / cost >= 0 && (n <= b / cost <==> n * cost <= b)
  {
    var q := b / cost;
    TimesGrows(n, q, cost);
    TimesGrows(q + 1, n, cost);
    assert q * cost <= b < q * cost + cost;
  }

  /**
   The first grant changes neither what the page shows nor, until it lands,
   whether the account may call.
   */
  lemma FirstGrantKeepsTheView(s: Store, cfg: Config, period: nat)
    requires cfg.Valid() && cfg.enabled && s.wallet.Some? && s.wallet.value.period.None?
    ensures ViewOf(Granted(s, period, cfg.defaultGrant).wallet, cfg).balance == ViewOf(s.wallet, cfg).balance
    ensures !ViewOf(s.wallet, cfg).status.Blocked?
  {
  }
}
