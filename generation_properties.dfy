/**
 * What the retry loop of `generateText` guarantees: where it stops, what it
 * fetches, how long it sleeps, and which error it reports.
 */
module GenerationProperties {
  import opened Wrappers
  import opened HostedGeneration
  import opened Strings
  import Config

  /** The delays of the attempts in [lo, hi) that end by sleeping. */
  function DelaysOf(steps: seq<Step>, lo: nat, hi: nat): seq<nat>
    requires lo <= hi <= |steps|
    decreases hi - lo
  {
    if lo == hi then [] else (if steps[lo].Retried? then [steps[lo].delay] else []) + DelaysOf(steps, lo + 1, hi)
  }

  /** The loop makes one to four attempts, and every attempt makes the same fetches. */
  lemma {:induction false} RunFromFetches(steps: seq<Step>, fetched: seq<Request>, a: nat)
    requires WellFormed(steps) && a <= MaxRetries && |fetched| <= 1
    ensures var run := RunFrom(steps, fetched, a);
      && 1 <= run.attempts <= MaxRetries + 1 - a
      && |run.fetches| == (if fetched == [] then 0 else run.attempts)
      && (forall i :: 0 <= i < |run.fetches| ==> run.fetches[i] == fetched[0])
    decreases MaxRetries - a
  {
    if a < MaxRetries && !steps[a].Returned? {
      RunFromFetches(steps, fetched, a + 1);
    }
  }

  /** The loop sleeps after exactly those attempts it makes that end by sleeping. */
  lemma {:induction false} RunFromSleeps(steps: seq<Step>, fetched: seq<Request>, a: nat)
    requires WellFormed(steps) && a <= MaxRetries
    ensures var run := RunFrom(steps, fetched, a);
      && a + run.attempts <= |steps|
      && run.sleeps == DelaysOf(steps, a, a + run.attempts)
    decreases MaxRetries - a
  {
    if a < MaxRetries && !steps[a].Returned? {
      RunFromSleeps(steps, fetched, a + 1);
    }
  }

  /** The first attempt that returns ends the loop with its text. */
  lemma RunFromFirstReturned(steps: seq<Step>, fetched: seq<Request>, k: nat)
    requires WellFormed(steps) && k <= MaxRetries && steps[k].Returned?
    requires forall j :: 0 <= j < k ==> !steps[j].Returned?
    ensures RunFrom(steps, fetched, 0).result == Success(Response(steps[k].text, "completed"))
    ensures RunFrom(steps, fetched, 0).attempts == k + 1
  {
    RunFromStops(steps, fetched, 0);
  }

  /** Without any attempt that returns, the loop makes every attempt and fails with the last one's error. */
  lemma RunFromNoneReturned(steps: seq<Step>, fetched: seq<Request>)
    requires WellFormed(steps)
    requires forall j :: 0 <= j <= MaxRetries ==> !steps[j].Returned?
    ensures RunFrom(steps, fetched, 0).result == Failure(steps[MaxRetries].error)
    ensures RunFrom(steps, fetched, 0).attempts == MaxRetries + 1
  {
    RunFromStops(steps, fetched, 0);
  }

  /** The delays of the 429/503 responses among attempts lo..hi-1, each from the fixed schedule. */
  function TransientDelays(script: seq<Attempt>, lo: nat, hi: nat): seq<nat>
    requires lo <= hi <= MaxRetries < |script|
    decreases hi - lo
  {
    if lo == hi then []
    else (if IsTransient(script[lo]) then [RetryDelays[lo]] else []) + TransientDelays(script, lo + 1, hi)
  }

  /** The error the last attempt throws when its response yields no text. */
  function FinalError(a: Attempt): GenError
  {
    match a
    case Ok(data) => UnexpectedFormat
    case Status(code, body) =>
      if code == 429 then RateLimited else if code == 503 then ModelLoading else ApiError(code, body)
    case Throws(m) => Thrown(m)
  }

  /** With a token, attempt `k` ends as the endpoint's `k`-th answer decides. */
  lemma StepAt(env: Option<string>, script: seq<Attempt>, k: nat)
    requires |script| > MaxRetries && env.Some? && env.value != "" && k <= MaxRetries
    ensures Steps(Config.GetHfToken(env), script)[k] == AttemptStep(Success(env.value), script[k], k)
  {
  }

  /** With a token, an attempt returns exactly when its answer yields text, and returns that text. */
  lemma DeliveringStep(token: string, a: Attempt, k: nat)
    ensures AttemptStep(Success(token), a, k).Returned? <==> Delivers(a)
    ensures Delivers(a) ==> AttemptStep(Success(token), a, k) == Returned(ExtractText(a.data).value)
  {
  }

  /** With a token, an attempt sleeps exactly after a 429 or 503 that is not the last attempt. */
  lemma SleepingStep(token: string, a: Attempt, k: nat)
    ensures AttemptStep(Success(token), a, k).Retried? <==> k < MaxRetries && IsTransient(a)
  {
  }

  /** With a token, the last attempt's error is the one its answer raises. */
  lemma LastStep(token: string, a: Attempt)
    requires !Delivers(a)
    ensures AttemptStep(Success(token), a, MaxRetries) == Raised(FinalError(a))
  {
  }

  /** Attempt `k` sleeps exactly after a 429 or 503 that is not the last attempt, for the k-th delay. */
  ghost predicate SleepsAsScheduled(steps: seq<Step>, script: seq<Attempt>)
  {
    |steps| <= |script| &&
    forall k :: 0 <= k < |steps| ==>
      && (steps[k].Retried? <==> k < MaxRetries && IsTransient(script[k]))
      && (steps[k].Retried? ==> steps[k].delay == RetryDelays[k])
  }

  /** Attempt `k` returns exactly when the k-th answer yields text, and returns that text. */
  ghost predicate ReturnsAsDelivered(steps: seq<Step>, script: seq<Attempt>)
  {
    |steps| <= |script| &&
    forall k :: 0 <= k < |steps| ==>
      && (steps[k].Returned? <==> Delivers(script[k]))
      && (steps[k].Returned? ==> steps[k].text == ExtractText(script[k].data).value)
  }

  lemma StepsSleepAsScheduled(env: Option<string>, script: seq<Attempt>)
    requires |script| > MaxRetries && env.Some? && env.value != ""
    ensures SleepsAsScheduled(Steps(Config.GetHfToken(env), script), script)
  {
    var steps := Steps(Config.GetHfToken(env), script);
    forall k | 0 <= k < |steps|
      ensures steps[k].Retried? <==> k < MaxRetries && IsTransient(script[k])
      ensures steps[k].Retried? ==> steps[k].delay == RetryDelays[k]
    {
      StepAt(env, script, k);
      SleepingStep(env.value, script[k], k);
    }
  }

  lemma StepsReturnAsDelivered(env: Option<string>, script: seq<Attempt>)
    requires |script| > MaxRetries && env.Some? && env.value != ""
    ensures ReturnsAsDelivered(Steps(Config.GetHfToken(env), script), script)
  {
    var steps := Steps(Config.GetHfToken(env), script);
    forall k | 0 <= k < |steps|
      ensures steps[k].Returned? <==> Delivers(script[k])
      ensures steps[k].Returned? ==> steps[k].text == ExtractText(script[k].data).value
    {
      StepAt(env, script, k);
      DeliveringStep(env.value, script[k], k);
    }
  }

  lemma {:induction false} DelaysOfTransient(steps: seq<Step>, script: seq<Attempt>, lo: nat, hi: nat)
    requires SleepsAsScheduled(steps, script) && lo <= hi <= MaxRetries < |script| && hi <= |steps|
    ensures DelaysOf(steps, lo, hi) == TransientDelays(script, lo, hi)
    decreases hi - lo
  {
    if lo < hi {
      DelaysOfTransient(steps, script, lo + 1, hi);
    }
  }

  lemma {:induction false} DelaysOfSnoc(steps: seq<Step>, lo: nat, hi: nat)
    requires lo <= hi < |steps|
    ensures DelaysOf(steps, lo, hi + 1) == DelaysOf(steps, lo, hi) + (if steps[hi].Retried? then [steps[hi].delay] else [])
    decreases hi - lo
  {
    if lo < hi {
      DelaysOfSnoc(steps, lo + 1, hi);
    }
  }

  lemma {:induction false} DelaysOfNone(steps: seq<Step>, lo: nat, hi: nat)
    requires lo <= hi <= |steps|
    requires forall k :: lo <= k < hi ==> !steps[k].Retried?
    ensures DelaysOf(steps, lo, hi) == []
    decreases hi - lo
  {
    if lo < hi {
      DelaysOfNone(steps, lo + 1, hi);
    }
  }

  /** Without a token no fetch is made, nothing sleeps, and all four attempts fail alike. */
  lemma SendWithoutToken(body: Body, env: Option<string>, script: seq<Attempt>)
    requires |script| > MaxRetries
    requires env.None? || env.value == ""
    ensures Send(body, env, script) == Run(Failure(Thrown(Config.MissingTokenMessage)), MaxRetries + 1, [], [])
  {
    var steps := Steps(Config.GetHfToken(env), script);
    RunFromFetches(steps, [], 0);
    RunFromSleeps(steps, [], 0);
    RunFromNoneReturned(steps, []);
    DelaysOfNone(steps, 0, RunFrom(steps, [], 0).attempts);
  }

  /** With a token, every attempt fetches once, with the token and the validated body. */
  lemma SendFetches(body: Body, env: Option<string>, script: seq<Attempt>)
    requires |script| > MaxRetries && env.Some? && env.value != ""
    ensures var run := Send(body, env, script);
      && |run.fetches| == run.attempts
      && forall i :: 0 <= i < |run.fetches| ==> run.fetches[i] == Request(Config.HfEndpoint, env.value, body)
  {
    var token := Config.GetHfToken(env);
    RunFromFetches(Steps(token, script), FetchesPerAttempt(token, body), 0);
  }

  lemma RunFromReturnsFirstText(steps: seq<Step>, fetched: seq<Request>, script: seq<Attempt>, k: nat)
    requires WellFormed(steps) && ReturnsAsDelivered(steps, script)
    requires k <= MaxRetries && Delivers(script[k])
    requires forall j :: 0 <= j < k ==> !Delivers(script[j])
    ensures RunFrom(steps, fetched, 0).result == Success(Response(ExtractText(script[k].data).value, "completed"))
    ensures RunFrom(steps, fetched, 0).attempts == k + 1
  {
    assert steps[k].Returned? && steps[k].text == ExtractText(script[k].data).value;
    forall j | 0 <= j < k
      ensures !steps[j].Returned?
    {
      assert !Delivers(script[j]);
    }
    RunFromFirstReturned(steps, fetched, k);
  }

  /** With a token, the first answer that yields text is returned at once. */
  lemma SendReturnsFirstText(body: Body, env: Option<string>, script: seq<Attempt>, k: nat)
    requires |script| > MaxRetries && env.Some? && env.value != ""
    requires k <= MaxRetries && Delivers(script[k])
    requires forall j :: 0 <= j < k ==> !Delivers(script[j])
    ensures Send(body, env, script).result == Success(Response(ExtractText(script[k].data).value, "completed"))
    ensures Send(body, env, script).attempts == k + 1
  {
    var token := Config.GetHfToken(env);
    StepsReturnAsDelivered(env, script);
    RunFromReturnsFirstText(Steps(token, script), FetchesPerAttempt(token, body), script, k);
  }

  /**
   * With a token and no answer that yields text, all four attempts are made and
   * the call fails with the last attempt's error: a persistent 400 is tried four times.
   */
  lemma SendFailsWithLastError(body: Body, env: Option<string>, script: seq<Attempt>)
    requires |script| > MaxRetries && env.Some? && env.value != ""
    requires forall k :: 0 <= k <= MaxRetries ==> !Delivers(script[k])
    ensures Send(body, env, script).result == Failure(FinalError(script[MaxRetries]))
    ensures Send(body, env, script).attempts == MaxRetries + 1
  {
    var token := Config.GetHfToken(env);
    var steps := Steps(token, script);
    StepsReturnAsDelivered(env, script);
    StepAt(env, script, MaxRetries);
    LastStep(env.value, script[MaxRetries]);
    RunFromNoneReturned(steps, FetchesPerAttempt(token, body));
  }

  /** With a token, the sleeps are the schedule's delays after each 429/503 that is not the last attempt. */
  lemma SendSleeps(body: Body, env: Option<string>, script: seq<Attempt>)
    requires |script| > MaxRetries && env.Some? && env.value != ""
    ensures Send(body, env, script).sleeps == TransientDelays(script, 0, Min(Send(body, env, script).attempts, MaxRetries))
  {
    var token := Config.GetHfToken(env);
    var steps := Steps(token, script);
    var fetched := FetchesPerAttempt(token, body);
    var run := RunFrom(steps, fetched, 0);
    assert Send(body, env, script) == run;
    RunFromSleeps(steps, fetched, 0);
    var n := run.attempts;
    LastAttemptNeverSleeps(steps, n);
    StepsSleepAsScheduled(env, script);
    DelaysOfTransient(steps, script, 0, Min(n, MaxRetries));
    assert run.sleeps == DelaysOf(steps, 0, n) == DelaysOf(steps, 0, Min(n, MaxRetries));
  }

  /** The last attempt never sleeps, so it adds nothing to the delays. */
  lemma LastAttemptNeverSleeps(steps: seq<Step>, n: nat)
    requires WellFormed(steps) && n <= |steps|
    ensures DelaysOf(steps, 0, n) == DelaysOf(steps, 0, Min(n, MaxRetries))
  {
    if n == MaxRetries + 1 {
      DelaysOfSnoc(steps, 0, MaxRetries);
    }
  }

  function Sum(s: seq<nat>): nat
  {
    if s == [] then 0 else s[0] + Sum(s[1..])
  }

  lemma {:induction false} TransientDelaysBound(script: seq<Attempt>, lo: nat, hi: nat)
    requires lo <= hi <= MaxRetries < |script|
    ensures |TransientDelays(script, lo, hi)| <= hi - lo
    ensures Sum(TransientDelays(script, lo, hi)) <= Sum(RetryDelays[lo..])
    decreases hi - lo
  {
    if lo < hi {
      TransientDelaysBound(script, lo + 1, hi);
      var head := if IsTransient(script[lo]) then [RetryDelays[lo]] else [];
      var rest := TransientDelays(script, lo + 1, hi);
      assert Sum(head + rest) == Sum(head) + Sum(rest) by {
        if head == [] { assert head + rest == rest; } else { assert (head + rest)[1..] == rest; }
      }
      assert RetryDelays[lo..][1..] == RetryDelays[lo + 1..];
    }
  }

  /** A call sleeps at most three times and at most 11000 ms in all, whatever the endpoint does. */
  lemma SleepBudget(o: Options, env: Option<string>, script: seq<Attempt>)
    requires |script| > MaxRetries
    ensures |Generation(o, env, script).sleeps| <= MaxRetries
    ensures Sum(Generation(o, env, script).sleeps) <= 11000
  {
    match Validate(o)
    case Failure(_) =>
    case Success(body) =>
      if env.Some? && env.value != "" {
        SendSleeps(body, env, script);
        TransientDelaysBound(script, 0, Min(Send(body, env, script).attempts, MaxRetries));
        assert Sum(RetryDelays[0..]) == 11000 by {
          assert RetryDelays[0..] == [1000, 3000, 7000];
          assert [1000, 3000, 7000][1..] == [3000, 7000];
          assert [3000, 7000][1..] == [7000];
        }
      } else {
        SendWithoutToken(body, env, script);
      }
  }

  lemma {:induction false} TransientDelaysAll(script: seq<Attempt>, lo: nat)
    requires lo <= MaxRetries < |script|
    requires forall k :: lo <= k < MaxRetries ==> IsTransient(script[k])
    ensures TransientDelays(script, lo, MaxRetries) == RetryDelays[lo..]
    decreases MaxRetries - lo
  {
    if lo < MaxRetries {
      TransientDelaysAll(script, lo + 1);
      assert RetryDelays[lo..] == [RetryDelays[lo]] + RetryDelays[lo + 1..];
    }
  }

  lemma {:induction false} TransientDelaysNone(script: seq<Attempt>, lo: nat, hi: nat)
    requires lo <= hi <= MaxRetries < |script|
    requires forall k :: lo <= k < hi ==> !IsTransient(script[k])
    ensures TransientDelays(script, lo, hi) == []
    decreases hi - lo
  {
    if lo < hi {
      TransientDelaysNone(script, lo + 1, hi);
    }
  }

  // ---------------------------------------------------------------------------
  // Scenarios

  /** Three 503s, then an answer with text: four fetches, then the text. */
  lemma LoadingThenReply(body: Body, env: Option<string>, script: seq<Attempt>)
    requires |script| > MaxRetries && env.Some? && env.value != ""
    requires forall k :: 0 <= k < MaxRetries ==> script[k].Status? && script[k].code == 503
    requires Delivers(script[MaxRetries])
    ensures Send(body, env, script).result == Success(Response(ExtractText(script[MaxRetries].data).value, "completed"))
    ensures Send(body, env, script).attempts == 4
  {
    SendReturnsFirstText(body, env, script, MaxRetries);
  }

  /** Three 503s before the last attempt: the whole back-off schedule is slept through. */
  lemma LoadingSleepsThroughSchedule(body: Body, env: Option<string>, script: seq<Attempt>)
    requires |script| > MaxRetries && env.Some? && env.value != ""
    requires forall k :: 0 <= k < MaxRetries ==> script[k].Status? && script[k].code == 503
    ensures Send(body, env, script).sleeps == [1000, 3000, 7000]
  {
    var token := Config.GetHfToken(env);
    var steps := Steps(token, script);
    forall j | 0 <= j < MaxRetries
      ensures !steps[j].Returned?
    {
      StepAt(env, script, j);
    }
    RunFromStops(steps, FetchesPerAttempt(token, body), 0);
    SendSleeps(body, env, script);
    TransientDelaysAll(script, 0);
  }

  /** A model that stays rate limited: four attempts, three sleeps, then the rate-limit error. */
  lemma AlwaysRateLimited(body: Body, env: Option<string>, script: seq<Attempt>)
    requires |script| > MaxRetries && env.Some? && env.value != ""
    requires forall k :: 0 <= k <= MaxRetries ==> script[k].Status? && script[k].code == 429
    ensures var run := Send(body, env, script);
      && run.result == Failure(RateLimited)
      && run.attempts == 4
      && run.sleeps == [1000, 3000, 7000]
  {
    SendFailsWithLastError(body, env, script);
    SendSleeps(body, env, script);
    TransientDelaysAll(script, 0);
  }

  /** A request the endpoint keeps rejecting (a 400, say) is still sent four times, without sleeping. */
  lemma PersistentRejection(body: Body, env: Option<string>, script: seq<Attempt>, code: int, text: string)
    requires |script| > MaxRetries && env.Some? && env.value != ""
    requires code != 429 && code != 503
    requires forall k :: 0 <= k <= MaxRetries ==> script[k] == Status(code, text)
    ensures var run := Send(body, env, script);
      && run.result == Failure(ApiError(code, text))
      && run.attempts == 4
      && |run.fetches| == 4
      && run.sleeps == []
  {
    SendFailsWithLastError(body, env, script);
    SendFetches(body, env, script);
    SendSleeps(body, env, script);
    TransientDelaysNone(script, 0, MaxRetries);
  }

  // ---------------------------------------------------------------------------
  // Cleaning the generated text

  /** Text without a leading marker is only trimmed. */
  lemma CleanTextWithoutMarker(text: string)
    requires !StartsWithIgnoreCase(Trim(text), InstOpen) && !StartsWithIgnoreCase(Trim(text), InstClose)
    ensures CleanText(text) == Trim(text)
  {
    var s := Trim(text);
    if s != [] {
      assert TrimStart(s) == s;
    }
  }

  /** A character that lower-cases to `[` is `[`, so a marker never starts with white space. */
  lemma MarkerStart(marker: string, target: string)
    requires EqualsIgnoreCase(marker, target) && target != [] && target[0] == '['
    ensures marker[0] == '[' && !IsSpace(marker[0])
  {
    assert LowerAscii(marker[0]) == LowerAscii(target[0]);
  }

  /**
   * The first replacement: `[INST]` in any case, then any run of white space,
   * goes; the rest stays.
   */
  lemma StripOpenMarker(marker: string, ws: string, rest: string)
    requires EqualsIgnoreCase(marker, InstOpen) && IsBlank(ws) && (rest == [] || !IsSpace(rest[0]))
    ensures StripOpen(marker + ws + rest) == rest
  {
    var s := marker + ws + rest;
    assert s[..|InstOpen|] == marker;
    assert s[|InstOpen|..] == ws + rest;
    TrimStartBlankRun(ws, rest);
  }

  lemma StripCloseAbsent(s: string)
    requires s != [] && !IsSpace(s[0]) && !StartsWithIgnoreCase(s, InstClose)
    ensures StripClose(s) == s
  {
    assert TrimStart(s) == s;
  }

  /**
   * The second replacement: white space, `[/INST]` in any case, then white
   * space, goes; the rest stays.
   */
  lemma StripCloseMarker(lead: string, marker: string, ws: string, rest: string)
    requires IsBlank(lead) && EqualsIgnoreCase(marker, InstClose) && IsBlank(ws)
    requires rest == [] || !IsSpace(rest[0])
    ensures StripClose(lead + marker + ws + rest) == rest
  {
    var m := marker + ws + rest;
    MarkerStart(marker, InstClose);
    assert lead + marker + ws + rest == lead + m;
    TrimStartBlankRun(lead, m);
    assert m[..|InstClose|] == marker;
    assert m[|InstClose|..] == ws + rest;
    TrimStartBlankRun(ws, rest);
  }

  lemma StripCloseLeads(marker: string, ws: string, rest: string)
    requires EqualsIgnoreCase(marker, InstClose) && IsBlank(ws) && (rest == [] || !IsSpace(rest[0]))
    ensures StripClose(marker + ws + rest) == rest
  {
    var m := marker + ws + rest;
    MarkerStart(marker, InstClose);
    assert m[0] == marker[0];
    assert TrimStart(m) == m;
    assert m[..|InstClose|] == marker;
    assert m[|InstClose|..] == ws + rest;
    TrimStartBlankRun(ws, rest);
  }

  lemma StripCloseAlone(marker: string)
    requires EqualsIgnoreCase(marker, InstClose)
    ensures StripClose(marker) == []
  {
    MarkerStart(marker, InstClose);
    assert TrimStart(marker) == marker;
    assert marker[..|InstClose|] == marker;
  }

  /** A text led by `[/INST]` in any case is not led by `[INST]`. */
  lemma CloseIsNotOpen(s: string)
    requires StartsWithIgnoreCase(s, InstClose)
    ensures !StartsWithIgnoreCase(s, InstOpen)
  {
    assert LowerAscii(s[..|InstClose|][1]) == LowerAscii(InstClose[1]);
  }

  /** A marker, white space and a trimmed rest read as one trimmed text, or as the marker alone. */
  lemma TrimMarked(lead: string, marker: string, ws: string, rest: string, tail: string, target: string)
    requires IsBlank(lead) && IsBlank(ws) && IsBlank(tail) && Trimmed(rest)
    requires EqualsIgnoreCase(marker, target) && |target| > 1 && target[0] == '[' && target[|target| - 1] == ']'
    ensures Trim(lead + marker + ws + rest + tail) == if rest == [] then marker else marker + ws + rest
  {
    MarkerStart(marker, target);
    assert LowerAscii(marker[|marker| - 1]) == LowerAscii(target[|target| - 1]);
    if rest == [] {
      assert lead + marker + ws + rest + tail == lead + marker + (ws + tail);
      TrimAround(lead, marker, ws + tail);
    } else {
      assert lead + marker + ws + rest + tail == lead + (marker + ws + rest) + tail;
      assert Trimmed(marker + ws + rest) by {
        assert (marker + ws + rest)[0] == marker[0];
        assert (marker + ws + rest)[|marker + ws + rest| - 1] == rest[|rest| - 1];
      }
      TrimAround(lead, marker + ws + rest, tail);
    }
  }

  /**
   * Only the leading `[INST]` goes, in any case and with any white space
   * around it: whatever follows, a later `[/INST]` included, is kept.
   */
  lemma CleanTextDropsLeadingOpen(lead: string, marker: string, ws: string, rest: string, tail: string)
    requires IsBlank(lead) && IsBlank(ws) && IsBlank(tail) && Trimmed(rest)
    requires EqualsIgnoreCase(marker, InstOpen) && !StartsWithIgnoreCase(rest, InstClose)
    ensures CleanText(lead + marker + ws + rest + tail) == rest
  {
    TrimMarked(lead, marker, ws, rest, tail, InstOpen);
    if rest == [] {
      StripOpenMarker(marker, [], []);
      assert marker + [] + [] == marker;
    } else {
      StripOpenMarker(marker, ws, rest);
      StripCloseAbsent(rest);
    }
  }

  /** A leading `[/INST]` goes, in any case and with any white space around it. */
  lemma CleanTextDropsLeadingClose(lead: string, marker: string, ws: string, rest: string, tail: string)
    requires IsBlank(lead) && IsBlank(ws) && IsBlank(tail) && Trimmed(rest)
    requires EqualsIgnoreCase(marker, InstClose)
    ensures CleanText(lead + marker + ws + rest + tail) == rest
  {
    TrimMarked(lead, marker, ws, rest, tail, InstClose);
    var t := if rest == [] then marker else marker + ws + rest;
    assert t[..|InstClose|] == marker;
    CloseIsNotOpen(t);
    if rest == [] {
      StripCloseAlone(marker);
    } else {
      StripCloseLeads(marker, ws, rest);
    }
  }

  /** `[INST]` then `[/INST]`, in any case and with any white space between and around them, both go. */
  lemma CleanTextDropsBothMarkers(lead: string, open: string, ws1: string, close: string, ws2: string,
                                  rest: string, tail: string)
    requires IsBlank(lead) && IsBlank(ws1) && IsBlank(ws2) && IsBlank(tail) && Trimmed(rest)
    requires EqualsIgnoreCase(open, InstOpen) && EqualsIgnoreCase(close, InstClose)
    ensures CleanText(lead + open + ws1 + close + ws2 + rest + tail) == rest
  {
    var inner := if rest == [] then close else close + ws2 + rest;
    TrimBothMarkers(lead, open, ws1, close, ws2, rest, tail);
    StripOpenMarker(open, ws1, inner);
    if rest == [] {
      StripCloseAlone(close);
    } else {
      StripCloseLeads(close, ws2, rest);
    }
  }

  lemma TrimBothMarkers(lead: string, open: string, ws1: string, close: string, ws2: string,
                        rest: string, tail: string)
    requires IsBlank(lead) && IsBlank(ws1) && IsBlank(ws2) && IsBlank(tail) && Trimmed(rest)
    requires EqualsIgnoreCase(open, InstOpen) && EqualsIgnoreCase(close, InstClose)
    ensures var inner := if rest == [] then close else close + ws2 + rest;
            && Trim(lead + open + ws1 + close + ws2 + rest + tail) == open + ws1 + inner
            && inner != [] && !IsSpace(inner[0])
  {
    MarkerStart(close, InstClose);
    var inner := if rest == [] then close else close + ws2 + rest;
    assert Trimmed(inner) by {
      assert LowerAscii(close[|close| - 1]) == LowerAscii(InstClose[|InstClose| - 1]);
    }
    var head := lead + open + ws1;
    var s := lead + open + ws1 + close + ws2 + rest + tail;
    AppendAssoc(head, close, ws2);
    if rest == [] {
      assert s == head + close + ws2 + tail;
      AppendAssoc(head + close, ws2, tail);
      TrimMarked(lead, open, ws1, inner, ws2 + tail, InstOpen);
    } else {
      AppendAssoc(head, close + ws2, rest);
      TrimMarked(lead, open, ws1, inner, tail, InstOpen);
    }
  }

}
