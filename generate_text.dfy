/**
 * The hosted text-generation client (src/lib/generateText.ts): parameter
 * validation, the request body, the bounded retry loop over the inference
 * endpoint, and the extraction and cleaning of the generated text.
 *
 * The remote endpoint is a script: `script[k]` is what attempt `k` sees if it
 * reaches the network. Sleeps are recorded as durations, fetches as requests.
 */
module HostedGeneration {
  import opened Wrappers
  import opened Strings
  import opened Json
  import Config

  const DefaultMaxTokens: int := 512
  const DefaultTemperature: real := 0.7
  const DefaultTopP: real := 0.95

  /** Attempts are numbered 0..MaxRetries. */
  const MaxRetries: nat := 3
  const RetryDelays: seq<nat> := [1000, 3000, 7000]

  const InstOpen := "[INST]"
  const InstClose := "[/INST]"
  const GeneratedTextKey := "generated_text"

  /** The caller's options; `None` stands for an omitted field. */
  datatype Options = Options(prompt: string, maxTokens: Option<int>, temperature: Option<real>, topP: Option<real>)

  /** The JSON body: `inputs` and the `parameters` object, flattened. */
  datatype Body = Body(inputs: string, maxNewTokens: int, temperature: real, topP: real, doSample: bool, returnFullText: bool)

  /** One POST to the endpoint with a bearer token. */
  datatype Request = Request(endpoint: string, token: string, body: Body)

  datatype Response = Response(text: string, finishReason: string)

  /** The errors the client throws; `Thrown` carries the message of any other error. */
  datatype GenError =
    | EmptyPrompt
    | MaxTokensOutOfRange
    | TemperatureOutOfRange
    | RateLimited
    | ModelLoading
    | ApiError(status: int, body: string)
    | UnexpectedFormat
    | Thrown(message: string)

  /** The message of the thrown `Error`. */
  function Message(e: GenError): string
  {
    match e
    case EmptyPrompt => "Prompt cannot be empty"
    case MaxTokensOutOfRange => "maxTokens must be between 1 and 2048"
    case TemperatureOutOfRange => "temperature must be between 0 and 2"
    case RateLimited => "Rate limited by Hugging Face API. Please try again later."
    case ModelLoading => "Model is loading. Please try again shortly."
    case ApiError(status, body) => "Hugging Face API error (" + IntToString(status) + "): " + body
    case UnexpectedFormat => "Unexpected response format from Hugging Face"
    case Thrown(message) => message
  }

  predicate IsValidationError(e: GenError)
  {
    e.EmptyPrompt? || e.MaxTokensOutOfRange? || e.TemperatureOutOfRange?
  }

  function MaxTokensOf(o: Options): int { o.maxTokens.GetOr(DefaultMaxTokens) }
  function TemperatureOf(o: Options): real { o.temperature.GetOr(DefaultTemperature) }
  function TopPOf(o: Options): real { o.topP.GetOr(DefaultTopP) }

  /**
   * Pre-flight validation, in the source's order, and the body built from the
   * validated values. topP is never checked.
   */
  function Validate(o: Options): (r: Result<Body, GenError>)
    ensures r.Success? <==> !IsBlank(o.prompt) && 1 <= MaxTokensOf(o) <= 2048 && 0.0 <= TemperatureOf(o) <= 2.0
    ensures IsBlank(o.prompt) ==> r == Failure(EmptyPrompt)
    ensures !IsBlank(o.prompt) && !(1 <= MaxTokensOf(o) <= 2048) ==> r == Failure(MaxTokensOutOfRange)
    ensures !IsBlank(o.prompt) && 1 <= MaxTokensOf(o) <= 2048 && !(0.0 <= TemperatureOf(o) <= 2.0) ==>
              r == Failure(TemperatureOutOfRange)
    ensures r.Success? ==> r.value == Body(o.prompt, MaxTokensOf(o), TemperatureOf(o), TopPOf(o), true, false)
  {
    var maxTokens := o.maxTokens.GetOr(DefaultMaxTokens);
    var temperature := o.temperature.GetOr(DefaultTemperature);
    var topP := o.topP.GetOr(DefaultTopP);
    if o.prompt == "" || Trim(o.prompt) == "" then Failure(EmptyPrompt)
    else if maxTokens < 1 || maxTokens > 2048 then Failure(MaxTokensOutOfRange)
    else if temperature < 0.0 || temperature > 2.0 then Failure(TemperatureOutOfRange)
    else Success(Body(o.prompt, maxTokens, temperature, topP, true, false))
  }

  /** `r` is a suffix of `s`. */
  predicate IsSuffix(r: string, s: string)
  {
    |r| <= |s| && r == s[|s| - |r|..]
  }

  lemma SuffixTransitive(a: string, b: string, c: string)
    requires IsSuffix(a, b) && IsSuffix(b, c)
    ensures IsSuffix(a, c)
  {
    assert c[|c| - |a|..] == c[|c| - |b|..][|b| - |a|..];
  }

  /**
   * `s` is `n` white-space characters, `marker` in any case, a white-space run
   * and then `r`, and `r` does not start with white space.
   */
  predicate MarkerRemoved(s: string, n: nat, marker: string, r: string)
  {
    && n + |marker| + |r| <= |s|
    && BlankBetween(s, 0, n)
    && StartsWithIgnoreCase(s[n..], marker)
    && BlankBetween(s, n + |marker|, |s| - |r|)
    && (r == [] || !IsSpace(r[0]))
  }

  /**
   * Drops one leading `[INST]` (any case) and the white space after it: when
   * the marker leads, `s` is the marker, a blank run and `r`, and `r` starts
   * with no white space; otherwise nothing changes.
   */
  function StripOpen(s: string): (r: string)
    ensures IsSuffix(r, s)
    ensures r == s || r == [] || !IsSpace(r[0])
    ensures StartsWithIgnoreCase(s, InstOpen) ==> MarkerRemoved(s, 0, InstOpen, r)
    ensures !StartsWithIgnoreCase(s, InstOpen) ==> r == s
  {
    if StartsWithIgnoreCase(s, InstOpen) then
      var t := s[|InstOpen|..];
      var r := TrimStart(t);
      SuffixTransitive(r, t, s);
      BlankGap(s, |InstOpen|, t, r);
      assert s[0..] == s;
      r
    else s
  }

  /**
   * Drops one `[/INST]` (any case) that follows leading white space, and the
   * white space after it: when the marker leads once the first `n` blank
   * characters are skipped, `s` is that run, the marker, another blank run
   * and `r`, and `r` starts with no white space; otherwise nothing changes.
   */
  function StripClose(s: string): (r: string)
    ensures IsSuffix(r, s)
    ensures r == s || r == [] || !IsSpace(r[0])
    ensures StartsWithIgnoreCase(TrimStart(s), InstClose) ==> MarkerRemoved(s, |s| - |TrimStart(s)|, InstClose, r)
    ensures !StartsWithIgnoreCase(TrimStart(s), InstClose) ==> r == s
  {
    var lead := TrimStart(s);
    if StartsWithIgnoreCase(lead, InstClose) then
      var r := TrimStart(lead[|InstClose|..]);
      StripCloseRemoves(s, r);
      r
    else s
  }

  lemma StripCloseRemoves(s: string, r: string)
    requires StartsWithIgnoreCase(TrimStart(s), InstClose)
    requires r == TrimStart(TrimStart(s)[|InstClose|..])
    ensures IsSuffix(r, s) && MarkerRemoved(s, |s| - |TrimStart(s)|, InstClose, r)
  {
    var lead := TrimStart(s);
    var n := |s| - |lead|;
    var t := lead[|InstClose|..];
    assert lead == s[n..];
    assert t == s[n + |InstClose|..];
    TrimStartDropsBlank(s);
    SuffixTransitive(r, t, lead);
    SuffixTransitive(r, lead, s);
    BlankGap(s, n + |InstClose|, t, r);
  }

  lemma SuffixKeepsEnds(r: string, s: string)
    requires IsSuffix(r, s) && Trimmed(s)
    requires r == s || r == [] || !IsSpace(r[0])
    ensures Trimmed(r)
  {
    if r != [] {
      assert r[|r| - 1] == s[|s| - 1];
    }
  }

  /** A text that starts with `[/INST]` does not start with `[INST]`, and the second replacement removes that marker. */
  lemma CloseLeadsAlone(s: string)
    requires s != [] && !IsSpace(s[0]) && StartsWithIgnoreCase(s, InstClose)
    ensures !StartsWithIgnoreCase(s, InstOpen)
    ensures |InstClose| + |StripClose(s)| <= |s|
  {
    assert LowerAscii(s[..|InstClose|][1]) == LowerAscii(InstClose[1]);
    assert TrimStart(s) == s;
  }

  /**
   * Trims, then drops one leading `[INST]` (any case) with the white space after
   * it, then one leading `[/INST]` (any case) with the white space around it.
   */
  function CleanText(text: string): (r: string)
    ensures IsSuffix(r, Trim(text))
    ensures r == [] || (!IsSpace(r[0]) && !IsSpace(r[|r| - 1]))
    ensures StartsWithIgnoreCase(Trim(text), InstOpen) ==> |InstOpen| + |r| <= |Trim(text)|
    ensures StartsWithIgnoreCase(Trim(text), InstClose) ==> |InstClose| + |r| <= |Trim(text)|
  {
    var s := Trim(text);
    CleanTrimmed(s);
    StripClose(StripOpen(s))
  }

  /** The two replacements on a trimmed text keep it trimmed, and each marker that leads goes. */
  lemma CleanTrimmed(s: string)
    requires Trimmed(s)
    ensures var r := StripClose(StripOpen(s));
            && IsSuffix(r, s)
            && Trimmed(r)
            && (StartsWithIgnoreCase(s, InstOpen) ==> |InstOpen| + |r| <= |s|)
            && (StartsWithIgnoreCase(s, InstClose) ==> |InstClose| + |r| <= |s|)
  {
    var s1 := StripOpen(s);
    var r := StripClose(s1);
    StripKeepsTrimmed(s);
    StripCloseKeepsTrimmed(s1);
    SuffixTransitive(r, s1, s);
    if StartsWithIgnoreCase(s, InstClose) {
      CloseLeadsAlone(s);
    }
  }

  lemma StripKeepsTrimmed(s: string)
    requires Trimmed(s)
    ensures IsSuffix(StripOpen(s), s) && Trimmed(StripOpen(s))
    ensures StartsWithIgnoreCase(s, InstOpen) ==> |InstOpen| + |StripOpen(s)| <= |s|
  {
    SuffixKeepsEnds(StripOpen(s), s);
  }

  lemma StripCloseKeepsTrimmed(s: string)
    requires Trimmed(s)
    ensures IsSuffix(StripClose(s), s) && Trimmed(StripClose(s))
  {
    SuffixKeepsEnds(StripClose(s), s);
  }

  /**
   * The text of a successful reply: `data` must be an array whose first element
   * is a non-null object with a string `generated_text`.
   */
  function ExtractText(data: Json): (r: Result<string, GenError>)
    ensures r.Success? <==>
              && data.JArray? && |data.items| > 0 && data.items[0].JObject?
              && GeneratedTextKey in data.items[0].fields
              && data.items[0].fields[GeneratedTextKey].JString?
    ensures r.Success? ==> r.value == CleanText(data.items[0].fields[GeneratedTextKey].s)
    ensures r.Failure? ==> r.error == UnexpectedFormat
  {
    var first := Index(data, 0);
    if data.JArray? && Defined(first) && IsObjectType(first.value) then
      var t := Member(first.value, GeneratedTextKey);
      if t.Some? && t.value.JString? then Success(CleanText(t.value.s)) else Failure(UnexpectedFormat)
    else Failure(UnexpectedFormat)
  }

  /**
   * What one attempt sees once it reaches `fetch`: a response with `ok` set and
   * its parsed JSON body, a response with `ok` unset (its status and text), or
   * an exception (from `fetch` itself or from parsing the body).
   */
  datatype Attempt = Ok(data: Json) | Status(code: int, body: string) | Throws(message: string)

  predicate IsTransient(a: Attempt)
  {
    a.Status? && (a.code == 429 || a.code == 503)
  }

  /** An attempt whose reply yields text. */
  predicate Delivers(a: Attempt)
  {
    a.Ok? && ExtractText(a.data).Success?
  }

  /** How one attempt ends: it returns, it sleeps and continues, or it throws into the catch. */
  datatype Step = Returned(text: string) | Retried(delay: nat) | Raised(error: GenError)

  function Min(a: int, b: int): int { if a < b then a else b }

  /** The body of the `try` for attempt number `attempt`, given the token lookup's outcome. */
  function AttemptStep(token: Result<string, string>, a: Attempt, attempt: nat): (s: Step)
    ensures s.Retried? ==> attempt < MaxRetries && s.delay == RetryDelays[attempt]
    ensures s.Raised? ==> !IsValidationError(s.error)
  {
    if token.Failure? then Raised(Thrown(token.error))
    else match a
      case Ok(data) =>
        (match ExtractText(data)
         case Success(t) => Returned(t)
         case Failure(e) => Raised(e))
      case Status(code, body) =>
        if code == 429 || code == 503 then
          if attempt < MaxRetries then Retried(RetryDelays[Min(attempt, |RetryDelays| - 1)])
          else Raised(if code == 429 then RateLimited else ModelLoading)
        else Raised(ApiError(code, body))
      case Throws(m) => Raised(Thrown(m))
  }

  /** The observable effect of a call: its outcome, the attempts made, the fetches and the sleeps. */
  datatype Run = Run(result: Result<Response, GenError>, attempts: nat, fetches: seq<Request>, sleeps: seq<nat>)

  /** How every attempt would end, given the token lookup's outcome. */
  function Steps(token: Result<string, string>, script: seq<Attempt>): (steps: seq<Step>)
    requires |script| > MaxRetries
    ensures |steps| == MaxRetries + 1
    ensures forall k :: 0 <= k <= MaxRetries ==> steps[k] == AttemptStep(token, script[k], k)
    ensures WellFormed(steps)
  {
    seq(MaxRetries + 1, k requires 0 <= k <= MaxRetries => AttemptStep(token, script[k], k))
  }

  /** Only an attempt before the last one can end by sleeping. */
  predicate WellFormed(steps: seq<Step>)
  {
    |steps| == MaxRetries + 1 && forall k :: 0 <= k < |steps| && steps[k].Retried? ==> k < MaxRetries
  }

  /** The fetches one attempt makes: one when the token is set, none otherwise. */
  function FetchesPerAttempt(token: Result<string, string>, body: Body): seq<Request>
  {
    if token.Success? then [Request(Config.HfEndpoint, token.value, body)] else []
  }

  /** The retry loop from attempt number `attempt` on, given how each attempt ends. */
  function RunFrom(steps: seq<Step>, fetched: seq<Request>, attempt: nat): (r: Run)
    requires WellFormed(steps) && attempt <= MaxRetries
    ensures 1 <= r.attempts <= MaxRetries + 1 - attempt
    ensures |r.sleeps| < r.attempts
    decreases MaxRetries - attempt
  {
    match steps[attempt]
    case Returned(t) => Run(Success(Response(t, "completed")), 1, fetched, [])
    case Retried(d) =>
      var rest := RunFrom(steps, fetched, attempt + 1);
      Run(rest.result, rest.attempts + 1, fetched + rest.fetches, [d] + rest.sleeps)
    case Raised(e) =>
      if attempt == MaxRetries then Run(Failure(e), 1, fetched, [])
      else
        var rest := RunFrom(steps, fetched, attempt + 1);
        Run(rest.result, rest.attempts + 1, fetched + rest.fetches, rest.sleeps)
  }

  /**
   * The loop stops at the first attempt that returns, with its text, or after
   * the last attempt, with that attempt's error.
   */
  lemma {:induction false} RunFromStops(steps: seq<Step>, fetched: seq<Request>, a: nat)
    requires WellFormed(steps) && a <= MaxRetries
    ensures var run := RunFrom(steps, fetched, a);
      && a + run.attempts - 1 <= MaxRetries
      && (forall j :: a <= j < a + run.attempts - 1 ==> !steps[j].Returned?)
      && (run.result.Success? ==>
            steps[a + run.attempts - 1] == Returned(run.result.value.text) && run.result.value.finishReason == "completed")
      && (run.result.Failure? ==> a + run.attempts - 1 == MaxRetries && steps[MaxRetries] == Raised(run.result.error))
    decreases MaxRetries - a
  {
    if a < MaxRetries && !steps[a].Returned? {
      RunFromStops(steps, fetched, a + 1);
    }
  }

  /** One attempt of the loop: it ends the loop, or it adds itself to the run of the attempts after it. */
  lemma RunFromStep(steps: seq<Step>, fetched: seq<Request>, a: nat)
    requires WellFormed(steps) && a <= MaxRetries
    ensures steps[a].Returned? ==> RunFrom(steps, fetched, a) == Run(Success(Response(steps[a].text, "completed")), 1, fetched, [])
    ensures steps[a].Raised? && a == MaxRetries ==> RunFrom(steps, fetched, a) == Run(Failure(steps[a].error), 1, fetched, [])
    ensures a < MaxRetries && !steps[a].Returned? ==>
              var rest := RunFrom(steps, fetched, a + 1);
              RunFrom(steps, fetched, a)
                == Run(rest.result, rest.attempts + 1, fetched + rest.fetches,
                       (if steps[a].Retried? then [steps[a].delay] else []) + rest.sleeps)
  {
    if a < MaxRetries && steps[a].Raised? {
      assert [] + RunFrom(steps, fetched, a + 1).sleeps == RunFrom(steps, fetched, a + 1).sleeps;
    }
  }

  /**
   * The loop's state before attempt `attempt`: the attempts, fetches and sleeps
   * made so far, followed by the run of the attempts still to come, make up `total`.
   */
  ghost predicate Pending(steps: seq<Step>, fetched: seq<Request>, total: Run, attempt: nat,
                          attempts: nat, fetches: seq<Request>, sleeps: seq<nat>)
  {
    && WellFormed(steps) && attempt <= MaxRetries
    && var rest := RunFrom(steps, fetched, attempt);
       total == Run(rest.result, attempts + rest.attempts, fetches + rest.fetches, sleeps + rest.sleeps)
  }

  /** An attempt that returns ends the loop with its text. */
  lemma PendingReturned(steps: seq<Step>, fetched: seq<Request>, total: Run, attempt: nat,
                        attempts: nat, fetches: seq<Request>, sleeps: seq<nat>)
    requires Pending(steps, fetched, total, attempt, attempts, fetches, sleeps) && steps[attempt].Returned?
    ensures total == Run(Success(Response(steps[attempt].text, "completed")), attempts + 1, fetches + fetched, sleeps)
  {
    RunFromStep(steps, fetched, attempt);
    assert sleeps + [] == sleeps;
  }

  /** The last attempt, when it raises, ends the loop with its error. */
  lemma PendingLastRaised(steps: seq<Step>, fetched: seq<Request>, total: Run,
                          attempts: nat, fetches: seq<Request>, sleeps: seq<nat>)
    requires Pending(steps, fetched, total, MaxRetries, attempts, fetches, sleeps) && steps[MaxRetries].Raised?
    ensures total == Run(Failure(steps[MaxRetries].error), attempts + 1, fetches + fetched, sleeps)
  {
    RunFromStep(steps, fetched, MaxRetries);
    assert sleeps + [] == sleeps;
  }

  /** Any other attempt hands over to the next one, after sleeping when it was told to retry. */
  lemma PendingNext(steps: seq<Step>, fetched: seq<Request>, total: Run, attempt: nat,
                    attempts: nat, fetches: seq<Request>, sleeps: seq<nat>)
    requires Pending(steps, fetched, total, attempt, attempts, fetches, sleeps)
    requires steps[attempt].Retried? || (steps[attempt].Raised? && attempt < MaxRetries)
    ensures attempt < MaxRetries
    ensures Pending(steps, fetched, total, attempt + 1, attempts + 1, fetches + fetched,
                    sleeps + (if steps[attempt].Retried? then [steps[attempt].delay] else []))
  {
    RunFromStep(steps, fetched, attempt);
    var next := RunFrom(steps, fetched, attempt + 1);
    var slept := if steps[attempt].Retried? then [steps[attempt].delay] else [];
    AppendAssoc(fetches, fetched, next.fetches);
    AppendAssoc(sleeps, slept, next.sleeps);
  }

  /** The retry loop for a validated body, against the environment token `env` and the endpoint `script`. */
  function Send(body: Body, env: Option<string>, script: seq<Attempt>): (r: Run)
    requires |script| > MaxRetries
    ensures 1 <= r.attempts <= MaxRetries + 1 && |r.sleeps| < r.attempts
    ensures r.result.Failure? ==> !IsValidationError(r.result.error)
  {
    var token := Config.GetHfToken(env);
    RunFromStops(Steps(token, script), FetchesPerAttempt(token, body), 0);
    RunFrom(Steps(token, script), FetchesPerAttempt(token, body), 0)
  }

  /** A whole call to `generateText`. */
  function Generation(o: Options, env: Option<string>, script: seq<Attempt>): (r: Run)
    requires |script| > MaxRetries
    ensures r.attempts == 0 <==> Validate(o).Failure?
    ensures Validate(o).Failure? ==> r.result == Failure(Validate(o).error) && r.fetches == [] && r.sleeps == []
    ensures r.result.Failure? && IsValidationError(r.result.error) <==> Validate(o).Failure?
  {
    match Validate(o)
    case Failure(e) => Run(Failure(e), 0, [], [])
    case Success(body) => Send(body, env, script)
  }

  lemma AppendAssoc<T>(a: seq<T>, b: seq<T>, c: seq<T>)
    ensures (a + b) + c == a + (b + c)
  {
  }

  /**
   * The `try` block of one attempt up to the point where it returns, sleeps or
   * throws: the token lookup while the headers are built, the fetch (recorded in
   * `fetched`), and the classification of the response.
   */
  method TryAttempt(env: Option<string>, body: Body, a: Attempt, attempt: nat)
    returns (step: Step, ghost fetched: seq<Request>)
    ensures step == AttemptStep(Config.GetHfToken(env), a, attempt)
    ensures fetched == FetchesPerAttempt(Config.GetHfToken(env), body)
  {
    var token := Config.GetHfToken(env);
    if token.Failure? {
      return Raised(Thrown(token.error)), [];
    }
    fetched := [Request(Config.HfEndpoint, token.value, body)];
    match a
    case Ok(data) =>
      var text := ExtractText(data);
      if text.Success? {
        step := Returned(text.value);
      } else {
        step := Raised(text.error);
      }
    case Status(code, b) =>
      if code == 429 || code == 503 {
        if attempt < MaxRetries {
          step := Retried(RetryDelays[Min(attempt, |RetryDelays| - 1)]);
        } else {
          step := Raised(if code == 429 then RateLimited else ModelLoading);
        }
      } else {
        step := Raised(ApiError(code, b));
      }
    case Throws(m) =>
      step := Raised(Thrown(m));
  }

  /**
   * The retry loop of `generateText` for a validated body: at most MaxRetries + 1
   * attempts. Every error raised inside an attempt is caught and the loop goes on
   * without sleeping; only a 429 or 503 before the last attempt sleeps.
   */
  method SendWithRetries(body: Body, env: Option<string>, script: seq<Attempt>)
    returns (r: Result<Response, GenError>, ghost attempts: nat, ghost fetches: seq<Request>, ghost sleeps: seq<nat>)
    requires |script| > MaxRetries
    ensures r == Send(body, env, script).result
    ensures Send(body, env, script) == Run(r, attempts, fetches, sleeps)
  {
    ghost var token := Config.GetHfToken(env);
    ghost var steps := Steps(token, script);
    ghost var perAttempt := FetchesPerAttempt(token, body);
    ghost var total := Send(body, env, script);
    attempts, fetches, sleeps := 0, [], [];
    assert Pending(steps, perAttempt, total, 0, attempts, fetches, sleeps);
    var lastError: Option<GenError> := None;
    var attempt: nat := 0;
    while attempt <= MaxRetries
      invariant attempts == attempt
      invariant Pending(steps, perAttempt, total, attempt, attempts, fetches, sleeps)
      decreases MaxRetries - attempt
    {
      var step, fetched := TryAttempt(env, body, script[attempt], attempt);
      assert step == steps[attempt] && fetched == perAttempt;
      match step
      case Returned(text) =>
        PendingReturned(steps, perAttempt, total, attempt, attempts, fetches, sleeps);
        attempts, fetches := attempts + 1, fetches + fetched;
        r := Success(Response(text, "completed"));
        return;
      case Retried(delay) =>
        PendingNext(steps, perAttempt, total, attempt, attempts, fetches, sleeps);
        attempts, fetches := attempts + 1, fetches + fetched;
        sleeps := sleeps + [delay];
        attempt := attempt + 1;
        continue;
      case Raised(e) =>
        lastError := Some(e);
        if attempt == MaxRetries {
          PendingLastRaised(steps, perAttempt, total, attempts, fetches, sleeps);
          attempts, fetches := attempts + 1, fetches + fetched;
          break;
        }
        PendingNext(steps, perAttempt, total, attempt, attempts, fetches, sleeps);
        attempts, fetches := attempts + 1, fetches + fetched;
        assert sleeps + [] == sleeps;
        attempt := attempt + 1;
    }
    r := Failure(lastError.GetOr(Thrown("Failed to generate text after retries")));
  }

  /** `generateText`: validation before any network access, then the retry loop. */
  method GenerateText(o: Options, env: Option<string>, script: seq<Attempt>)
    returns (r: Result<Response, GenError>, ghost attempts: nat, ghost fetches: seq<Request>, ghost sleeps: seq<nat>)
    requires |script| > MaxRetries
    ensures r == Generation(o, env, script).result
    ensures Generation(o, env, script) == Run(r, attempts, fetches, sleeps)
    ensures Validate(o).Failure? ==> r == Failure(Validate(o).error) && attempts == 0 && fetches == [] && sleeps == []
  {
    var v := Validate(o);
    if v.Failure? {
      return Failure(v.error), 0, [], [];
    }
    r, attempts, fetches, sleeps := SendWithRetries(v.value, env, script);
  }
}
