/**
 The CLI's wait: poll until a terminal status or the deadline, sleeping a
 jittered interval in between. Times are nanoseconds.
 */
module PollWait {
  import opened Prelude
  import InvocationRows

  const MS: nat := 1_000_000

  // ─── Terminal statuses ───────────────────────────────────

  predicate IsInvocationTerminal(status: string) {
    status == "succeeded" || status == "failed" || status == "rejected" || status == "timeout" || status == "cancelled"
  }

  /** A status as the relay reports it. */
  function NameOf(s: InvocationRows.Status): string {
    match s
    case AwaitingConsent => "awaiting_consent"
    case Pending => "pending"
    case InProgress => "in_progress"
    case Succeeded => "succeeded"
    case Failed => "failed"
    case Rejected => "rejected"
    case Timeout => "timeout"
  }

  /** A wait ends exactly when the relay has settled the call. */
  lemma WaitEndsWhenSettled(s: InvocationRows.Status)
    ensures IsInvocationTerminal(NameOf(s)) <==> s.Settled()
  {
    assert NameOf(s)[0] == match s
      case AwaitingConsent => 'a' case Pending => 'p' case InProgress => 'i' case Succeeded => 's'
      case Failed => 'f' case Rejected => 'r' case Timeout => 't';
  }

  // ─── One poll ────────────────────────────────────────────

  datatype WaitError =
    | TimedOut(elapsedMs: nat, lastStatus: string)
    | Unauthorized(why: string)
    | Forbidden(why: string)
    | Transient(why: string)
    | InvalidArgs(why: string)

  /**
   What the request gave: nothing, with the client's error text, or a reply.
   `envelope` is the error envelope's message if the body is one, `parsed`
   the row's `status` field, or why the body isn't a row.
   */
  datatype Answer =
    | Unreachable(why: string)
    | Reply(code: nat, reason: string, text: string, envelope: Option<string>, parsed: Result<Option<string>, string>)

  datatype Verdict = Terminal(status: string, body: string) | GiveUp(error: WaitError) | Again(lastStatus: string)

  function Digit(n: nat): char
    requires n < 10
  {
    ('0' as int + n) as char
  }

  predicate IsDigit(c: char) {
    '0' <= c <= '9'
  }

  /** `404`, as it is printed. */
  function Digits(code: nat): string
    requires code < 1000
  {
    [Digit(code / 100), Digit(code / 10 % 10), Digit(code % 10)]
  }

  /** A status code as the HTTP library prints it: "404 Not Found". */
  function StatusText(code: nat, reason: string): string
    requires code < 1000
  {
    Digits(code) + " " + reason
  }

  predicate IsError(a: Answer) {
    a.Unreachable? || !(200 <= a.code < 300) || (a.code != 204 && a.parsed.Err?)
  }

  /** A three-digit code, and a reason phrase, which has no digits. */
  predicate WellFormed(a: Answer) {
    a.Reply? ==> 100 <= a.code < 1000 && forall i :: 0 <= i < |a.reason| ==> !IsDigit(a.reason[i])
  }

  /** `decode`: the row's status and body, or the error text. */
  function Decode(a: Answer): Result<(Option<string>, string), string>
    requires WellFormed(a)
  {
    if a.Unreachable? then Err(a.why)
    else if a.code == 204 then Ok((None, "null"))
    else if !(200 <= a.code < 300) then
      Err(if a.envelope.Some? then a.envelope.value + " (" + StatusText(a.code, a.reason) + ")"
          else StatusText(a.code, a.reason) + ": " + a.text)
    else
      match a.parsed
      case Ok(status) => Ok((status, a.text))
      case Err(why) => Err("decoding response failed: " + why + " — body: " + a.text)
  }

  predicate IsAt(text: string, part: string, i: nat)
    requires i + |part| <= |text|
  {
    text[i..i + |part|] == part
  }

  predicate Contains(text: string, part: string) {
    exists i :: 0 <= i <= |text| - |part| && IsAt(text, part, i)
  }

  function Judge(a: Answer, isTerminal: string -> bool): Verdict
    requires WellFormed(a)
  {
    match Decode(a)
    case Ok((status, body)) =>
      if status.None? then GiveUp(Transient("response missing `status`"))
      else if isTerminal(status.value) then Terminal(status.value, body)
      else Again(status.value)
    case Err(message) =>
      if Contains(message, "401") then GiveUp(Unauthorized(message))
      else if Contains(message, "403") then GiveUp(Forbidden(message))
      else if Contains(message, "404") then GiveUp(InvalidArgs(message))
      else Again("error: " + message)
  }

  // ─── Which errors are retried ────────────────────────────

  /** An error that says nothing about the caller's access or the id: the network, the server, a bad body. */
  predicate Retryable(a: Answer) {
    IsError(a) && (a.Reply? ==> a.code != 401 && a.code != 403 && a.code != 404)
  }

  /** What an error's text carries besides the status: the server's words, or the client's. */
  function Words(a: Answer): seq<string>
    requires IsError(a)
  {
    match a
    case Unreachable(why) => [why]
    case Reply(code, _, text, envelope, parsed) =>
      if !(200 <= code < 300) then [if envelope.Some? then envelope.value else text]
      else match parsed
        case Ok(_) => []
        case Err(why) => [why, text]
  }

  predicate SomeContain(words: seq<string>, part: string) {
    exists i :: 0 <= i < |words| && Contains(words[i], part)
  }

  predicate AllDigits(part: string) {
    forall i :: 0 <= i < |part| ==> IsDigit(part[i])
  }

  predicate NoDigits(part: string) {
    forall i :: 0 <= i < |part| ==> !IsDigit(part[i])
  }

  lemma Within(text: string, part: string, i: nat)
    requires i + |part| <= |text| && IsAt(text, part, i)
    ensures Contains(text, part)
  {}

  lemma ContainsLeft(a: string, b: string, part: string)
    requires Contains(a, part)
    ensures Contains(a + b, part)
  {
    var i :| 0 <= i <= |a| - |part| && IsAt(a, part, i);
    assert (a + b)[i..i + |part|] == a[i..i + |part|];
    Within(a + b, part, i);
  }

  lemma ContainsRight(a: string, b: string, part: string)
    requires Contains(b, part)
    ensures Contains(a + b, part)
  {
    var i :| 0 <= i <= |b| - |part| && IsAt(b, part, i);
    assert (a + b)[|a| + i..|a| + i + |part|] == b[i..i + |part|];
    Within(a + b, part, |a| + i);
  }

  lemma SliceLeft(a: string, b: string, i: nat, n: nat)
    requires i + n <= |a|
    ensures (a + b)[i..i + n] == a[i..i + n]
  {}

  lemma SliceRight(a: string, b: string, j: nat, n: nat)
    requires j + n <= |b|
    ensures (a + b)[|a| + j..|a| + j + n] == b[j..j + n]
  {}

  /** Digits don't span a separator without any. */
  lemma Separated(a: string, sep: string, b: string, part: string)
    requires AllDigits(part) && part != "" && sep != "" && NoDigits(sep)
    ensures Contains(a + sep + b, part) <==> Contains(a, part) || Contains(b, part)
  {
    var text := a + sep + b;
    if Contains(a, part) {
      ContainsLeft(a, sep, part);
      ContainsLeft(a + sep, b, part);
    }
    if Contains(b, part) {
      ContainsRight(a + sep, b, part);
    }
    if Contains(text, part) {
      var i :| 0 <= i <= |text| - |part| && IsAt(text, part, i);
      NotInSeparator(a, sep, b, part, i);
      if i + |part| <= |a| {
        SliceLeft(a, sep + b, i, |part|);
        assert text == a + (sep + b);
        Within(a, part, i);
      } else {
        var j := i - |a| - |sep|;
        SliceRight(a + sep, b, j, |part|);
        assert |a + sep| + j == i;
        Within(b, part, j);
      }
    }
  }

  lemma NotInSeparator(a: string, sep: string, b: string, part: string, i: nat)
    requires AllDigits(part) && part != "" && sep != "" && NoDigits(sep)
    requires i + |part| <= |a + sep + b| && IsAt(a + sep + b, part, i)
    ensures i + |part| <= |a| || i >= |a| + |sep|
  {
    var text := a + sep + b;
    forall k | i <= k < i + |part| ensures IsDigit(text[k]) {
      assert text[k] == part[k - i];
    }
    assert forall k :: |a| <= k < |a| + |sep| ==> text[k] == sep[k - |a|];
    var k := if i <= |a| then |a| else i;
    assert k < |a| + |sep| ==> !IsDigit(text[k]);
    assert k < i + |part| ==> IsDigit(text[k]);
  }

  lemma NoDigitsContainNone(text: string, part: string)
    requires NoDigits(text) && AllDigits(part) && part != ""
    ensures !Contains(text, part)
  {
    forall i | 0 <= i <= |text| - |part| ensures !IsAt(text, part, i) {
      assert text[i..i + |part|][0] == text[i] && !IsDigit(text[i]) && IsDigit(part[0]);
    }
  }

  function ValueOf(d: string): int
    requires |d| == 3
  {
    100 * (d[0] as int - '0' as int) + 10 * (d[1] as int - '0' as int) + (d[2] as int - '0' as int)
  }

  lemma DigitsTell(code: nat)
    requires code < 1000
    ensures ValueOf(Digits(code)) == code
  {
    var tens := code / 10;
    assert tens / 10 == code / 100 && code == 10 * tens + code % 10 && tens == 10 * (tens / 10) + tens % 10;
    assert Digits(code)[0] as int - '0' as int == code / 100;
    assert Digits(code)[1] as int - '0' as int == tens % 10;
    assert Digits(code)[2] as int - '0' as int == code % 10;
  }

  lemma SameDigits(code: nat, other: nat)
    requires code < 1000 && other < 1000
    ensures Digits(code) == Digits(other) <==> code == other
  {
    DigitsTell(code);
    DigitsTell(other);
  }

  lemma SameLength(a: string, b: string)
    requires |a| == |b|
    ensures Contains(a, b) <==> a == b
  {
    assert a[0..|a|] == a;
    assert IsAt(a, b, 0) <==> a == b;
  }

  lemma DigitsContain(code: nat, other: nat)
    requires code < 1000 && other < 1000
    ensures Contains(Digits(code), Digits(other)) <==> code == other
  {
    SameDigits(code, other);
    SameLength(Digits(code), Digits(other));
  }

  /** A status line mentions a code exactly when it is its own. */
  lemma StatusContains(code: nat, reason: string, other: nat)
    requires code < 1000 && other < 1000 && NoDigits(reason)
    ensures Contains(StatusText(code, reason), Digits(other)) <==> code == other
  {
    Separated(Digits(code), " ", reason, Digits(other));
    NoDigitsContainNone(reason, Digits(other));
    DigitsContain(code, other);
  }

  /** An error's text mentions a code exactly when its status is it, or its words mention it. */
  lemma TextContains(a: Answer, other: nat)
    requires WellFormed(a) && IsError(a) && other < 1000
    ensures Contains(Decode(a).error, Digits(other)) <==>
      (a.Reply? && !(200 <= a.code < 300) && a.code == other) || SomeContain(Words(a), Digits(other))
  {
    var part := Digits(other);
    OneOrTwo(Words(a), part);
    if a.Unreachable? {
    } else if !(200 <= a.code < 300) {
      StatusContains(a.code, a.reason, other);
      var status := StatusText(a.code, a.reason);
      if a.envelope.Some? {
        Separated(a.envelope.value, " (", status + ")", part);
        Separated(status, ")", "", part);
        NoDigitsContainNone("", part);
        assert status + ")" + "" == status + ")";
        assert a.envelope.value + " (" + (status + ")") == a.envelope.value + " (" + status + ")";
      } else {
        Separated(status, ": ", a.text, part);
      }
    } else {
      BadBodyContains(a.parsed.error, a.text, part);
    }
  }

  lemma OneOrTwo(words: seq<string>, part: string)
    requires |words| <= 2
    ensures SomeContain(words, part) <==>
      (|words| > 0 && Contains(words[0], part)) || (|words| > 1 && Contains(words[1], part))
  {}

  lemma BadBodyContains(why: string, text: string, part: string)
    requires AllDigits(part) && part != ""
    ensures Contains("decoding response failed: " + why + " — body: " + text, part)
            <==> Contains(why, part) || Contains(text, part)
  {
    var head := "decoding response failed: ";
    Separated(head + why, " — body: ", text, part);
    Separated("", head, why, part);
    NoDigitsContainNone("", part);
    assert "" + head + why == head + why;
  }

  predicate MentionsACode(a: Answer)
    requires IsError(a)
  {
    SomeContain(Words(a), "401") || SomeContain(Words(a), "403") || SomeContain(Words(a), "404")
  }

  lemma Codes()
    ensures Digits(401) == "401" && Digits(403) == "403" && Digits(404) == "404"
  {}

  /**
   Errors are told apart by their text. A retryable one is retried exactly
   when the server's or the client's words mention none of 401, 403 and 404;
   the status itself never makes the difference.
   */
  lemma RetriedUnlessACodeAppears(a: Answer, isTerminal: string -> bool)
    requires WellFormed(a) && Retryable(a)
    ensures Judge(a, isTerminal).Again? <==> !MentionsACode(a)
  {
    Codes();
    TextContains(a, 401);
    TextContains(a, 403);
    TextContains(a, 404);
  }

  /** The error's own status is `code`, or its words mention it. */
  predicate Mentions(a: Answer, code: nat)
    requires IsError(a) && code < 1000
  {
    (a.Reply? && !(200 <= a.code < 300) && a.code == code) || SomeContain(Words(a), Digits(code))
  }

  /**
   Which error ends the wait as what: a mention of 401 goes before one of
   403, and that before one of 404; without any the wait goes on.
   */
  lemma ErrorsAreToldApart(a: Answer, isTerminal: string -> bool)
    requires WellFormed(a) && IsError(a)
    ensures var v := Judge(a, isTerminal);
      && (Mentions(a, 401) ==> v == GiveUp(Unauthorized(ErrorText(a))))
      && (!Mentions(a, 401) && Mentions(a, 403) ==> v == GiveUp(Forbidden(ErrorText(a))))
      && (!Mentions(a, 401) && !Mentions(a, 403) && Mentions(a, 404) ==> v == GiveUp(InvalidArgs(ErrorText(a))))
      && (!Mentions(a, 401) && !Mentions(a, 403) && !Mentions(a, 404) ==> v == Again("error: " + ErrorText(a)))
  {
    Codes();
    TextContains(a, 401);
    TextContains(a, 403);
    TextContains(a, 404);
  }

  /** A reply that gives the row's status. */
  predicate HasStatus(a: Answer) {
    a.Reply? && 200 <= a.code < 300 && a.code != 204 && a.parsed.Ok? && a.parsed.value.Some?
  }

  /** A success without one: no content, or a row without the field. */
  predicate Statusless(a: Answer) {
    a.Reply? && 200 <= a.code < 300 && (a.code == 204 || a.parsed == Ok(None))
  }

  /** The wait is over, with the row. */
  predicate Done(a: Answer, isTerminal: string -> bool) {
    HasStatus(a) && isTerminal(a.parsed.value.value)
  }

  predicate Refused(a: Answer)
    requires IsError(a)
  {
    Mentions(a, 401) || Mentions(a, 403) || Mentions(a, 404)
  }

  /** The wait goes on, if there is time: a status that isn't terminal, or an error that mentions none of the codes. */
  predicate GoesOn(a: Answer, isTerminal: string -> bool) {
    (HasStatus(a) && !isTerminal(a.parsed.value.value)) || (IsError(a) && !Refused(a))
  }

  /** What a wait says it last saw. */
  function LastSeen(a: Answer): string
    requires WellFormed(a) && (HasStatus(a) || IsError(a))
  {
    if HasStatus(a) then a.parsed.value.value else "error: " + ErrorText(a)
  }

  /** What the wait's last answer makes of it, `elapsed` milliseconds after it began. */
  predicate Concludes(r: Result<(string, string, nat), WaitError>, a: Answer, isTerminal: string -> bool, elapsed: nat)
    requires WellFormed(a)
  {
    && (r.Ok? <==> Done(a, isTerminal))
    && (r.Ok? ==> r.value == (a.parsed.value.value, a.text, elapsed))
    && (r.Err? && r.error.TimedOut? <==> GoesOn(a, isTerminal))
    && (GoesOn(a, isTerminal) ==> r == Err(TimedOut(elapsed, LastSeen(a))))
    && (Statusless(a) ==> r == Err(Transient("response missing `status`")))
    && (IsError(a) && Refused(a) ==>
          r == Err(if Mentions(a, 401) then Unauthorized(ErrorText(a))
                   else if Mentions(a, 403) then Forbidden(ErrorText(a)) else InvalidArgs(ErrorText(a))))
  }

  /** How a verdict follows from the answer. */
  lemma VerdictConcludes(a: Answer, isTerminal: string -> bool, elapsed: nat)
    requires WellFormed(a)
    ensures match Judge(a, isTerminal)
      case Terminal(status, body) => Concludes(Ok((status, body, elapsed)), a, isTerminal, elapsed)
      case GiveUp(e) => !GoesOn(a, isTerminal) && Concludes(Err(e), a, isTerminal, elapsed)
      case Again(last) =>
        GoesOn(a, isTerminal) && Concludes(Err(TimedOut(elapsed, last)), a, isTerminal, elapsed)
  {
    if IsError(a) { ErrorsAreToldApart(a, isTerminal); }
  }

  /** What an error is told as. */
  function ErrorText(a: Answer): (text: string)
    requires WellFormed(a) && IsError(a)
    ensures a.Unreachable? ==> text == a.why
    ensures a.Reply? && a.code < 200 && a.envelope.Some? ==> |text| > |a.envelope.value| && a.envelope.value <= text
    ensures a.Reply? && a.code >= 300 && a.envelope.Some? ==> |text| > |a.envelope.value| && a.envelope.value <= text
  {
    Decode(a).error
  }

  /** The three that aren't retryable always end the wait, whatever they say. */
  lemma RefusalsEndTheWait(a: Answer, isTerminal: string -> bool)
    requires WellFormed(a) && IsError(a) && !Retryable(a)
    ensures Judge(a, isTerminal).GiveUp?
    ensures a.code == 401 ==> Judge(a, isTerminal).error.Unauthorized?
  {
    Codes();
    TextContains(a, a.code);
  }

  /** A gateway's failure to reach its upstream, for a call whose id has 404 in it. */
  function UpstreamDown(): Answer {
    Reply(502, "Bad Gateway", "id 7f404", None, Err("not JSON"))
  }

  /** That is a server error, and it ends the wait as if the id were wrong. */
  lemma ServerErrorEndsTheWait(isTerminal: string -> bool)
    ensures WellFormed(UpstreamDown()) && Retryable(UpstreamDown())
    ensures Judge(UpstreamDown(), isTerminal).GiveUp? && Judge(UpstreamDown(), isTerminal).error.InvalidArgs?
  {
    var a := UpstreamDown();
    Codes();
    TextContains(a, 401);
    TextContains(a, 403);
    TextContains(a, 404);
    OneOrTwo(Words(a), "401");
    OneOrTwo(Words(a), "403");
    OneOrTwo(Words(a), "404");
    assert a.text[5..5 + |"404"|] == "404";
    Within(a.text, "404", 5);
    NoneHere(a.text);
  }

  lemma NoneHere(text: string)
    requires text == "id 7f404"
    ensures !Contains(text, "401") && !Contains(text, "403")
  {
    forall i | 0 <= i <= |text| - 3 ensures !IsAt(text, "401", i) && !IsAt(text, "403", i) {
      assert text[i..i + 3][2] == text[i + 2];
    }
  }

  // ─── Sleeping ────────────────────────────────────────────

  /** `base` milliseconds ± 20 %, at least 100, cut to whole milliseconds. */
  function JitteredMs(base: nat, jitter: real): (ms: nat)
    requires -0.2 <= jitter <= 0.2
    ensures 100 <= ms
    ensures ms <= 100 || 5 * ms <= 6 * base
    ensures 4 * base < 5 * (ms + 1)
  {
    var millis := base as real * (1.0 + jitter);
    Scaled(base as real, jitter, millis);
    CutBounds(millis, base);
    Cut(millis)
  }

  function Cut(millis: real): int {
    if millis < 100.0 then 100 else millis.Floor
  }

  lemma CutBounds(millis: real, base: nat)
    requires base as real * 0.8 <= millis <= base as real * 1.2
    ensures 100 <= Cut(millis) && (Cut(millis) <= 100 || 5 * Cut(millis) <= 6 * base)
    ensures 4 * base < 5 * (Cut(millis) + 1)
  {
    var ms, b := Cut(millis), base as real;
    assert (4 * base) as real == 5.0 * (b * 0.8) && (6 * base) as real == 5.0 * (b * 1.2);
    assert (5 * ms) as real == 5.0 * (ms as real) && (5 * (ms + 1)) as real == 5.0 * (ms as real + 1.0);
    assert millis < ms as real + 1.0;
  }

  lemma Scaled(base: real, jitter: real, scaled: real)
    requires base >= 0.0 && -0.2 <= jitter <= 0.2 && scaled == base * (1.0 + jitter)
    ensures base * 0.8 <= scaled <= base * 1.2
  {
    assert scaled - base * 1.2 == base * (jitter - 0.2);
    assert scaled - base * 0.8 == base * (jitter + 0.2);
  }

  /** How far past the time left a sleep may end. */
  function MaxOverrun(interval: nat): nat {
    if interval / 5 > 100 * MS then interval / 5 else 100 * MS
  }

  lemma SleepOverrun(interval: nat, left: nat, jitter: real)
    requires -0.2 <= jitter <= 0.2
    ensures var base := (if interval <= left then interval else left) / MS;
      100 * MS <= JitteredMs(base, jitter) * MS <= left + MaxOverrun(interval)
  {
    var next := if interval <= left then interval else left;
    var base := next / MS;
    var ms := JitteredMs(base, jitter);
    assert base * MS <= next;
    if ms > 100 {
      assert 5 * (ms * MS) <= 6 * (base * MS) <= 6 * next;
      assert ms * MS <= next + next / 5;
    }
  }

  // ─── The loop ────────────────────────────────────────────

  function CeilDiv(a: nat, b: nat): nat
    requires b > 0
  {
    (a + b - 1) / b
  }

  /** The most fetches a wait of `timeout` can make. */
  function MaxFetches(timeout: nat): nat {
    CeilDiv(timeout, 100 * MS) + 1
  }

  lemma SleepsFit(sleeps: nat, timeout: nat)
    requires sleeps > 0 ==> (sleeps - 1) * (100 * MS) < timeout
    ensures sleeps + 1 <= MaxFetches(timeout)
  {
    if sleeps > 0 {
      assert (sleeps - 1) * (100 * MS) + 1 <= timeout;
      assert sleeps * (100 * MS) <= timeout + 100 * MS - 1;
    }
  }

  /** The time from the `n`th fetch's end to the next one's start. */
  function Nap(interval: nat, left: nat, jitter: real): nat
    requires -0.2 <= jitter <= 0.2
  {
    JitteredMs((if interval <= left then interval else left) / MS, jitter) * MS
  }

  /** The first `n` fetches left the wait going on. */
  predicate AllGoOn(fetch: nat -> Answer, n: nat, isTerminal: string -> bool) {
    forall i :: 0 <= i < n ==> GoesOn(fetch(i), isTerminal)
  }

  lemma OneMoreGoesOn(fetch: nat -> Answer, n: nat, isTerminal: string -> bool)
    requires AllGoOn(fetch, n, isTerminal) && GoesOn(fetch(n), isTerminal)
    ensures AllGoOn(fetch, n + 1, isTerminal)
  {}

  lemma OneMoreNap(n: nat)
    ensures (n + 1) * (100 * MS) == n * (100 * MS) + 100 * MS
  {}

  /** A fetch that ended in time, and the next one a nap later. */
  predicate Follows(start: nat, took: nat, jitter: real, deadline: nat, interval: nat, next: nat)
    requires -0.2 <= jitter <= 0.2
  {
    start + took < deadline && next == start + took + Nap(interval, deadline - (start + took), jitter)
  }

  /** When each fetch starts: after the sleep that follows the one before, which ended in time. */
  predicate Paced(starts: seq<nat>, took: nat -> nat, jitter: nat -> real, started: nat, deadline: nat, interval: nat)
    requires forall n :: -0.2 <= jitter(n) <= 0.2
  {
    && |starts| > 0 && starts[0] == started
    && forall n :: 0 <= n < |starts| - 1 ==> Follows(starts[n], took(n), jitter(n), deadline, interval, starts[n + 1])
  }

  /** `jittered_sleep`, no further than the deadline but for the jitter, and the next fetch's start recorded. */
  method Sleep(now: nat, took: nat -> nat, jitter: nat -> real, started: nat, deadline: nat, interval: nat,
               fetches: nat, ghost starts: seq<nat>)
    returns (later: nat, ghost more: seq<nat>)
    requires forall n :: -0.2 <= jitter(n) <= 0.2
    requires Paced(starts, took, jitter, started, deadline, interval)
    requires |starts| == fetches > 0 && starts[fetches - 1] + took(fetches - 1) == now < deadline
    ensures more == starts + [later] && Paced(more, took, jitter, started, deadline, interval)
    ensures now + 100 * MS <= later <= deadline + MaxOverrun(interval)
  {
    var left := deadline - now;
    SleepOverrun(interval, left, jitter(fetches - 1));
    later := now + Nap(interval, left, jitter(fetches - 1));
    more := starts + [later];
  }

  /**
   The `n`th fetch gives `fetch(n)` after `took(n)`; the `n`th sleep is
   jittered by `jitter(n)`. It always ends: with a terminal row or an error
   the last fetch gave, or timed out at or after the deadline, never much
   after it. `starts`, a history, is when each fetch began.
   */
  method PollUntilTerminal(fetch: nat -> Answer, took: nat -> nat, jitter: nat -> real,
                           isTerminal: string -> bool, started: nat, timeout: nat, interval: nat)
    returns (r: Result<(string, string, nat), WaitError>, fetches: nat, finished: nat, ghost starts: seq<nat>)
    requires forall n :: -0.2 <= jitter(n) <= 0.2
    requires forall n :: WellFormed(fetch(n))
    ensures 1 <= fetches <= MaxFetches(timeout)
    ensures AllGoOn(fetch, fetches - 1, isTerminal)
    ensures started <= finished && Concludes(r, fetch(fetches - 1), isTerminal, (finished - started) / MS)
    ensures r.Err? && r.error.TimedOut? ==> finished >= started + timeout
    ensures finished <= started + timeout + MaxOverrun(interval) + took(fetches - 1)
    ensures |starts| == fetches && Paced(starts, took, jitter, started, started + timeout, interval)
    ensures finished == starts[fetches - 1] + took(fetches - 1)
  {
    var deadline, now := started + timeout, started;
    fetches, starts := 0, [started];
    while true
      invariant started + fetches * (100 * MS) <= now
      invariant fetches > 0 ==> (fetches - 1) * (100 * MS) < timeout
      invariant AllGoOn(fetch, fetches, isTerminal)
      invariant now <= deadline + MaxOverrun(interval)
      invariant |starts| == fetches + 1 && starts[fetches] == now
      invariant Paced(starts, took, jitter, started, deadline, interval)
      decreases if now < deadline then deadline - now else 0, if fetches == 0 then 1 else 0
    {
      var f := fetch(fetches);
      now := now + took(fetches);
      SleepsFit(fetches, timeout);
      fetches := fetches + 1;
      finished := now;
      var over;
      over, r := Classify(f, isTerminal, (now - started) / MS);
      if over || now >= deadline { return; }
      OneMoreGoesOn(fetch, fetches - 1, isTerminal);
      OneMoreNap(fetches - 1);
      now, starts := Sleep(now, took, jitter, started, deadline, interval, fetches, starts);
    }
  }

  /** One answer: whether it ends the wait, and what the wait ends with if it ends now. */
  method Classify(a: Answer, isTerminal: string -> bool, elapsed: nat)
    returns (over: bool, r: Result<(string, string, nat), WaitError>)
    requires WellFormed(a)
    ensures over <==> r.Ok? || !r.error.TimedOut?
    ensures !over ==> GoesOn(a, isTerminal)
    ensures Concludes(r, a, isTerminal, elapsed)
  {
    VerdictConcludes(a, isTerminal, elapsed);
    match Judge(a, isTerminal)
    case Terminal(status, body) => over, r := true, Ok((status, body, elapsed));
    case GiveUp(e) => over, r := true, Err(e);
    case Again(last) => over, r := false, Err(TimedOut(elapsed, last));
  }
}
