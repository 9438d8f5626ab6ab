/**
 The failed sign-in limit: one stored row per email, and how many failures
 any number of concurrent attempts can get recorded.
 */
module SigninLimit {
  import opened Prelude
  import opened Batches

  type Email = string

  const MAX_FAILURES: nat := 10
  const WINDOW: Time := 900_000
  const DAY: Time := 86_400_000

  datatype Row = Row(failures: nat, start: Time)

  /** The row's window hasn't ended. */
  predicate Live(row: Row, now: Time) {
    row.start > now - WINDOW
  }

  predicate Blocks(row: Option<Row>, now: Time) {
    row.Some? && row.value.failures >= MAX_FAILURES && Live(row.value, now)
  }

  /** A failure more, in a new window when the last one ended. */
  function AfterFailure(row: Option<Row>, now: Time): Row {
    if row.Some? && Live(row.value, now) then row.value.(failures := row.value.failures + 1) else Row(1, now)
  }

  /** Its window ended more than a day ago, or nearly. */
  predicate Stale(row: Row, now: Time) {
    row.start < now - DAY
  }

  /** Whole seconds until the window ends, rounded, at least 1. */
  function RetryAfter(row: Row, now: Time): int {
    (Max(1000, row.start + WINDOW - now) + 500) / 1000
  }

  /** `secs` is `millis` to the nearest second, and at least one. */
  predicate RoundedSecs(secs: int, millis: int) {
    secs >= 1 && -500 <= secs * 1000 - millis && (secs == 1 || secs * 1000 - millis <= 500)
  }

  datatype Verdict = Verified | Wrong | Broken

  datatype SigninError = RateLimited(retryAfterSecs: int) | Unauthorized | Other

  class SigninFailures {
    var rows: map<Email, Row>

    constructor ()
      ensures rows == map[]
    {
      rows := map[];
    }

    function RowOf(email: Email): Option<Row>
      reads this
    {
      if email in rows then Some(rows[email]) else None
    }

    /** `Some` is how long to wait. */
    method Check(email: Email, now: Time) returns (retryAfter: Option<int>)
      ensures retryAfter.Some? <==>
        email in rows && rows[email].failures >= 10 && now < rows[email].start + 900_000
      ensures retryAfter.Some? <==> Blocks(RowOf(email), now)
      ensures retryAfter.Some? ==> RoundedSecs(retryAfter.value, rows[email].start + 900_000 - now)
      ensures retryAfter.Some? && rows[email].start <= now ==> retryAfter.value <= 900
    {
      if email in rows && rows[email].failures >= MAX_FAILURES && rows[email].start > now - WINDOW {
        return Some(RetryAfter(rows[email], now));
      }
      retryAfter := None;
    }

    method RecordFailure(email: Email, now: Time)
      modifies this
      ensures RowOf(email) == Some(AfterFailure(old(RowOf(email)), now))
      ensures email in rows && rows[email] ==
        if email in old(rows) && now < old(rows)[email].start + 900_000
        then Row(old(rows)[email].failures + 1, old(rows)[email].start) else Row(1, now)
      ensures forall e :: e != email ==>
        RowOf(e) == if e in old(rows) && old(rows)[e].start >= now - 86_400_000 then old(RowOf(e)) else None
    {
      if email in rows && rows[email].start > now - WINDOW {
        rows := rows[email := Row(rows[email].failures + 1, rows[email].start)];
      } else {
        rows := rows[email := Row(1, now)];
      }
      rows := map e | e in rows && !Stale(rows[e], now) :: rows[e];
    }

    method Clear(email: Email)
      modifies this
      ensures RowOf(email) == None && forall e :: e != email ==> RowOf(e) == old(RowOf(e))
    {
      rows := rows - {email};
    }

    /**
     Check, verify, then clear or count. While blocked nothing is verified
     and nothing changes, even with the right password.
     */
    method Authenticate(email: Email, verdict: Verdict, now: Time, later: Time)
      returns (r: Result<(), SigninError>)
      requires now <= later
      modifies this
      ensures old(Blocks(RowOf(email), now)) <==> r.Err? && r.error.RateLimited?
      ensures r.Err? && r.error.RateLimited? ==>
        email in old(rows) && RoundedSecs(r.error.retryAfterSecs, old(rows)[email].start + 900_000 - now)
      ensures r.Err? && r.error.Unauthorized? <==> !old(Blocks(RowOf(email), now)) && verdict.Wrong?
      ensures r.Err? && r.error.Other? <==> !old(Blocks(RowOf(email), now)) && verdict.Broken?
      ensures old(Blocks(RowOf(email), now)) ==> rows == old(rows)
      ensures !old(Blocks(RowOf(email), now)) ==>
        && (r.Ok? <==> verdict.Verified?)
        && RowOf(email) == (if verdict.Verified? then None
                            else if verdict.Wrong? then Some(AfterFailure(old(RowOf(email)), later))
                            else old(RowOf(email)))
    {
      var wait := Check(email, now);
      if wait.Some? { return Err(RateLimited(wait.value)); }
      match verdict
      case Verified => Clear(email); r := Ok(());
      case Wrong => RecordFailure(email, later); r := Err(Unauthorized);
      case Broken => r := Err(Other);
    }
  }

  // ─── Concurrent attempts on one email ────────────────────

  /**
   `inFlight` attempts have passed the check and not been recorded yet.
   `windows`, a history, holds the failures recorded since the last success,
   window by window.
   */
  datatype World = World(row: Option<Row>, inFlight: nat, clock: Time, windows: seq<seq<Time>>)

  datatype Step = Tick(to: Time) | Begin | Fail | Succeed | GiveUp | Prune

  /** At most `most` attempts are ever in flight. */
  predicate Enabled(w: World, s: Step, most: nat) {
    match s
    case Tick(to) => w.clock <= to
    case Begin => !Blocks(w.row, w.clock) && w.inFlight < most
    case Prune => w.row.Some? && Stale(w.row.value, w.clock)
    case _ => w.inFlight > 0
  }

  function Recorded(w: World): World {
    var live := w.row.Some? && Live(w.row.value, w.clock);
    var n := |w.windows|;
    w.(row := Some(AfterFailure(w.row, w.clock)),
       inFlight := if w.inFlight > 0 then w.inFlight - 1 else 0,
       windows := if live && n > 0 then w.windows[n - 1 := w.windows[n - 1] + [w.clock]]
                  else w.windows + [[w.clock]])
  }

  function Next(w: World, s: Step, most: nat): World {
    if !Enabled(w, s, most) then w else
    match s
    case Tick(to) => w.(clock := to)
    case Begin => w.(inFlight := w.inFlight + 1)
    case Fail => Recorded(w)
    case Succeed => w.(row := None, inFlight := w.inFlight - 1, windows := [])
    case GiveUp => w.(inFlight := w.inFlight - 1)
    case Prune => w.(row := None)
  }

  function Run(w: World, steps: seq<Step>, most: nat): World
    decreases |steps|
  {
    if steps == [] then w else Run(Next(w, steps[0], most), steps[1..], most)
  }

  /**
   What an attempt does, step by step, as `authenticate` alone would: it
   begins unless the row blocks it; a failure counts in its window or starts
   one, a success forgets the row, any other end leaves it.
   */
  lemma AttemptSays(w: World, s: Step, most: nat)
    requires Enabled(w, s, most)
    ensures var v := Next(w, s, most);
      && (s.Begin? ==>
            && v == w.(inFlight := w.inFlight + 1)
            && (w.row.Some? ==> w.row.value.failures < 10 || w.row.value.start + 900_000 <= w.clock))
      && (s.Fail? ==>
            && v.inFlight == w.inFlight - 1 && v.clock == w.clock
            && v.row == Some(if w.row.Some? && w.clock < w.row.value.start + 900_000
                             then Row(w.row.value.failures + 1, w.row.value.start) else Row(1, w.clock)))
      && (s.Succeed? ==> v.inFlight == w.inFlight - 1 && v.row.None? && v.clock == w.clock)
      && (s.GiveUp? ==> v == w.(inFlight := w.inFlight - 1))
      && (s.Prune? ==>
            v == w.(row := None) && w.row.Some? && w.row.value.start < w.clock - 86_400_000)
      && (s.Tick? ==> v == w.(clock := s.to))
  {}

  predicate Initial(w: World) {
    w.row.None? && w.inFlight == 0 && w.windows == []
  }

  /** One window's failures: none before the first, all within its length. */
  predicate WindowOk(ts: seq<Time>, most: nat) {
    && 0 < |ts| <= MAX_FAILURES - 1 + most
    && forall i :: 0 <= i < |ts| ==> ts[0] <= ts[i] < ts[0] + WINDOW
  }

  predicate WindowsOk(ws: seq<seq<Time>>, most: nat) {
    && (forall i :: 0 <= i < |ws| ==> WindowOk(ws[i], most))
    && (forall i :: 0 < i < |ws| ==> ws[i - 1][0] + WINDOW <= ws[i][0])
  }

  predicate RowMatches(w: World, most: nat)
    requires WindowsOk(w.windows, most)
  {
    match w.row
    case Some(row) =>
      && |w.windows| > 0 && row.failures == |w.windows[|w.windows| - 1]|
      && row.start == w.windows[|w.windows| - 1][0]
    case None => |w.windows| > 0 ==> w.windows[|w.windows| - 1][0] + WINDOW <= w.clock
  }

  predicate Inv(w: World, most: nat) {
    && w.inFlight <= most && WindowsOk(w.windows, most) && RowMatches(w, most)
    && (forall i :: 0 <= i < |w.windows| ==> w.windows[i][0] <= w.clock)
    // Once blocked, only those already past the check can add to it.
    && (Blocks(w.row, w.clock) ==> w.row.value.failures + w.inFlight <= MAX_FAILURES - 1 + most)
  }

  lemma FailKeepsInv(w: World, most: nat)
    requires Inv(w, most) && w.inFlight > 0
    ensures Inv(Recorded(w), most)
  {
    var next, n := Recorded(w), |w.windows|;
    if w.row.Some? && Live(w.row.value, w.clock) {
      assert forall i :: 0 <= i < n - 1 ==> next.windows[i] == w.windows[i];
      assert WindowOk(w.windows[n - 1] + [w.clock], most);
    } else {
      assert WindowOk([w.clock], most);
    }
  }

  lemma StepKeepsInv(w: World, s: Step, most: nat)
    requires Inv(w, most)
    ensures Inv(Next(w, s, most), most)
  {
    if Enabled(w, s, most) && s.Fail? {
      FailKeepsInv(w, most);
    }
  }

  lemma {:induction false} RunKeepsInv(w: World, steps: seq<Step>, most: nat)
    requires Inv(w, most)
    ensures Inv(Run(w, steps, most), most)
    decreases |steps|
  {
    if steps != [] {
      StepKeepsInv(w, steps[0], most);
      RunKeepsInv(Next(w, steps[0], most), steps[1..], most);
    }
  }

  /** With `most` attempts at a time the stored count never passes 9 + `most`: 10 for one at a time. */
  lemma {:induction false} CountIsBounded(w: World, steps: seq<Step>, most: nat)
    requires Initial(w)
    ensures var row := Run(w, steps, most).row; row.Some? ==> row.value.failures <= MAX_FAILURES - 1 + most
  {
    RunKeepsInv(w, steps, most);
  }

  // ─── Failures in any span ────────────────────────────────

  /** How many of `ts` are in the half-open span of a window's length from `t`. */
  function CountIn(ts: seq<Time>, t: Time): nat {
    if ts == [] then 0
    else CountIn(ts[..|ts| - 1], t) + if t <= ts[|ts| - 1] < t + WINDOW then 1 else 0
  }

  function CountAll(ws: seq<seq<Time>>, t: Time): nat {
    if ws == [] then 0 else CountAll(ws[..|ws| - 1], t) + CountIn(ws[|ws| - 1], t)
  }

  lemma {:induction false} CountAtMost(ts: seq<Time>, t: Time)
    ensures CountIn(ts, t) <= |ts|
    ensures ts != [] && ts[0] < t ==> CountIn(ts, t) <= |ts| - 1
    ensures (forall i :: 0 <= i < |ts| ==> !(t <= ts[i] < t + WINDOW)) ==> CountIn(ts, t) == 0
  {
    if ts != [] {
      CountAtMost(ts[..|ts| - 1], t);
    }
  }

  /** All of it is over by `t` when the last window started a window's length before. */
  lemma {:induction false} NoneLeft(ws: seq<seq<Time>>, t: Time, most: nat)
    requires WindowsOk(ws, most) && (ws != [] ==> ws[|ws| - 1][0] + WINDOW <= t)
    ensures CountAll(ws, t) == 0
  {
    if ws != [] {
      NoneLeft(ws[..|ws| - 1], t, most);
      CountAtMost(ws[|ws| - 1], t);
    }
  }

  /** A span that starts after the last window did misses its first failure, and all before. */
  lemma OnlyTheLast(ws: seq<seq<Time>>, t: Time, most: nat)
    requires WindowsOk(ws, most) && (ws != [] ==> ws[|ws| - 1][0] < t)
    ensures CountAll(ws, t) <= MAX_FAILURES - 2 + most
  {
    if ws != [] {
      NoneLeft(ws[..|ws| - 1], t, most);
      CountAtMost(ws[|ws| - 1], t);
    }
  }

  lemma {:induction false} SpanOfWindows(ws: seq<seq<Time>>, t: Time, most: nat)
    requires WindowsOk(ws, most)
    ensures CountAll(ws, t) <= 2 * (MAX_FAILURES - 1 + most) - 1 || CountAll(ws, t) == 0
  {
    if ws != [] {
      var before, last := ws[..|ws| - 1], ws[|ws| - 1];
      CountAtMost(last, t);
      if last[0] < t {
        OnlyTheLast(ws, t, most);
      } else if last[0] < t + WINDOW {
        OnlyTheLast(before, t, most);
      } else {
        SpanOfWindows(before, t, most);
      }
    }
  }

  /**
   In every run, any half-open span of 15 minutes holds at most 17 + 2 ×
   `most` of the failures recorded since the last success: 19 for one
   attempt at a time.
   */
  lemma {:induction false} SpanIsBounded(w: World, steps: seq<Step>, most: nat, t: Time)
    requires Initial(w) && most > 0
    ensures CountAll(Run(w, steps, most).windows, t) <= 17 + 2 * most
  {
    RunKeepsInv(w, steps, most);
    SpanOfWindows(Run(w, steps, most).windows, t, most);
  }

  // ─── The bound is reached ────────────────────────────────

  function Copies(s: Step, n: nat): seq<Step> {
    seq(n, _ => s)
  }

  lemma {:induction false} RunAppend(w: World, a: seq<Step>, b: seq<Step>, most: nat)
    ensures Run(w, a + b, most) == Run(Run(w, a, most), b, most)
    decreases |a|
  {
    if a == [] {
      assert a + b == b;
    } else {
      assert (a + b)[1..] == a[1..] + b;
      RunAppend(Next(w, a[0], most), a[1..], b, most);
    }
  }

  lemma {:induction false} BeginMany(w: World, n: nat, most: nat)
    requires !Blocks(w.row, w.clock) && w.inFlight + n <= most
    ensures Run(w, Copies(Begin, n), most) == w.(inFlight := w.inFlight + n)
    decreases n
  {
    if n > 0 {
      assert Copies(Begin, n)[1..] == Copies(Begin, n - 1);
      BeginMany(Next(w, Begin, most), n - 1, most);
    }
  }

  /** The failures a record now adds to: none once their window has ended. */
  function LiveFailures(w: World): nat {
    if w.row.Some? && Live(w.row.value, w.clock) then w.row.value.failures else 0
  }

  /** When the window a record now adds to started. */
  function WindowStart(w: World): Time {
    if w.row.Some? && Live(w.row.value, w.clock) then w.row.value.start else w.clock
  }

  /** The window goes on: so many failures more, none of them another window's. */
  predicate Failed(w: World, e: World, n: nat, t: Time) {
    && e.inFlight == 0 && e.clock == w.clock && LiveFailures(e) == LiveFailures(w) + n
    && (n > 0 ==> e.row.Some? && Live(e.row.value, e.clock) && e.row.value.start == WindowStart(w))
    && (n == 0 ==> e.row == w.row)
    && CountAll(e.windows, t) == CountAll(w.windows, t) + if t <= w.clock < t + WINDOW then n else 0
  }

  /** Each record is one failure more, at the clock's time, in any span. */
  lemma RecordedIsCounted(w: World, t: Time)
    ensures CountAll(Recorded(w).windows, t) == CountAll(w.windows, t) + if t <= w.clock < t + WINDOW then 1 else 0
  {
    var n, next := |w.windows|, Recorded(w).windows;
    if w.row.Some? && Live(w.row.value, w.clock) && n > 0 {
      var last := w.windows[n - 1];
      assert (last + [w.clock])[..|last|] == last;
      assert next[..n - 1] == w.windows[..n - 1];
    } else {
      assert next[..n] == w.windows;
      assert CountIn([w.clock], t) == if t <= w.clock < t + WINDOW then 1 else 0 by {
        assert ([w.clock])[..0] == [];
      }
    }
  }

  lemma {:induction false} FailMany(w: World, n: nat, most: nat, t: Time)
    requires w.inFlight >= n
    ensures var e := Run(w, Copies(Fail, n), most);
      e.inFlight == w.inFlight - n && Failed(w, e.(inFlight := 0), n, t)
    decreases n
  {
    if n > 0 {
      assert Copies(Fail, n)[1..] == Copies(Fail, n - 1);
      RecordedIsCounted(w, t);
      FailMany(Next(w, Fail, most), n - 1, most, t);
    }
  }

  /** `n` attempts that pass the check together and all fail. */
  lemma FailTogether(w: World, n: nat, most: nat, t: Time) returns (steps: seq<Step>)
    requires w.inFlight == 0 && n <= most && LiveFailures(w) < MAX_FAILURES
    ensures Failed(w, Run(w, steps, most), n, t)
  {
    BeginMany(w, n, most);
    FailMany(Run(w, Copies(Begin, n), most), n, most, t);
    RunAppend(w, Copies(Begin, n), Copies(Fail, n), most);
    steps := Copies(Begin, n) + Copies(Fail, n);
  }

  /** `n` failures one at a time. */
  lemma {:induction false} FailInTurn(w: World, n: nat, most: nat, t: Time) returns (steps: seq<Step>)
    requires w.inFlight == 0 && 0 < most && LiveFailures(w) + n < MAX_FAILURES
    ensures Failed(w, Run(w, steps, most), n, t)
  {
    if n == 0 {
      steps := [];
    } else {
      var before := FailInTurn(w, n - 1, most, t);
      var last := FailTogether(Run(w, before, most), 1, most, t);
      RunAppend(w, before, last, most);
      FailedOn(w, Run(w, before, most), Run(w, before + last, most), n - 1, 1, t);
      steps := before + last;
    }
  }

  /** All the failures a window takes from here: one at a time up to 9, then `most` at once. */
  lemma FillWindow(w: World, most: nat, t: Time) returns (steps: seq<Step>)
    requires w.inFlight == 0 && 0 < most && LiveFailures(w) < MAX_FAILURES
    ensures Failed(w, Run(w, steps, most), MAX_FAILURES - 1 + most - LiveFailures(w), t)
  {
    var nine := FailInTurn(w, MAX_FAILURES - 1 - LiveFailures(w), most, t);
    var burst := FailTogether(Run(w, nine, most), most, most, t);
    RunAppend(w, nine, burst, most);
    steps := nine + burst;
    FailedOn(w, Run(w, nine, most), Run(w, steps, most), MAX_FAILURES - 1 - LiveFailures(w), most, t);
  }

  /**
   The check and the count are two statements, so attempts that overlap can
   pass the limit of 10: with `most` at a time the bound of 9 + `most` is
   reached.
   */
  lemma BoundIsReached(w: World, most: nat) returns (steps: seq<Step>)
    requires Initial(w) && 0 < most
    ensures var row := Run(w, steps, most).row; row.Some? && row.value.failures == MAX_FAILURES - 1 + most
  {
    steps := FillWindow(w, most, w.clock);
  }

  lemma Ticked(w: World, to: Time, most: nat)
    requires w.clock <= to
    ensures Run(w, [Tick(to)], most) == w.(clock := to)
  {
    assert ([Tick(to)])[1..] == [];
    assert Run(Next(w, Tick(to), most), [], most) == w.(clock := to);
  }

  /** Two runs that fail, one after the other. */
  lemma FailedOn(w: World, u: World, e: World, n: nat, m: nat, t: Time)
    requires Failed(w, u, n, t) && Failed(u, e, m, t)
    ensures Failed(w, e, n + m, t)
  {}

  /** One failure, and the rest of its window from the next moment on. */
  lemma FirstWindow(w: World, most: nat) returns (steps: seq<Step>)
    requires Initial(w) && 0 < most
    ensures var e, t := Run(w, steps, most), w.clock + 1;
      && e.inFlight == 0 && e.clock == t && CountAll(e.windows, t) == MAX_FAILURES - 2 + most
      && e.row.Some? && e.row.value.start == w.clock
  {
    var t := w.clock + 1;
    var first := FailInTurn(w, 1, most, t);
    var one := Run(w, first, most);
    Ticked(one, t, most);
    RunAppend(w, first, [Tick(t)], most);
    var rest := FillWindow(one.(clock := t), most, t);
    RunAppend(w, first + [Tick(t)], rest, most);
    steps := first + [Tick(t)] + rest;
  }

  /**
   The bound on a span is reached too: for every `most` some run records 17 +
   2 × `most` failures in the 15 minutes from the moment after its first.
   */
  lemma SpanBoundIsReached(w: World, most: nat) returns (steps: seq<Step>)
    requires Initial(w) && 0 < most
    ensures CountAll(Run(w, steps, most).windows, w.clock + 1) == 17 + 2 * most
  {
    var t := w.clock + 1;
    var first := FirstWindow(w, most);
    var one := Run(w, first, most);
    Ticked(one, w.clock + WINDOW, most);
    RunAppend(w, first, [Tick(w.clock + WINDOW)], most);
    var second := FillWindow(one.(clock := w.clock + WINDOW), most, t);
    RunAppend(w, first + [Tick(w.clock + WINDOW)], second, most);
    steps := first + [Tick(w.clock + WINDOW)] + second;
  }
}
