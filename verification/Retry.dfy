/** Search payloads, their contract, and scripted adapters. */
module SearchContract {
  import opened Wrappers

  datatype Failure = Failure(code: string, retryable: bool)

  /** How an operation ends: a value, an IntegrationError, or any other exception. */
  datatype Outcome<T> = Returned(value: T) | Raised(failure: Failure) | Escaped

  const CONTRACT_BROKEN: Failure := Failure("invalid_contract", false)
  const CIRCUIT_OPEN: Failure := Failure("circuit_open", true)
  const RATE_LIMITED: Failure := Failure("rate_limited", false)
  const SCRIPT_EXHAUSTED: Failure := Failure("script_exhausted", false)

  /** A key of the response: absent, of another type, or a string. */
  datatype Field = Missing | Other | Text(text: string)
  datatype Payload = NotAnObject | Object(query: Field, answer: Field, urls: seq<Field>)

  datatype SearchResult = SearchResult(query: string, answer: string, source: string, degraded: bool, citations: seq<string>)

  function Strip(s: string): string {
    if s != "" && IsSpace(s[0]) then Strip(s[1..])
    else if s != "" && IsSpace(s[|s| - 1]) then Strip(s[..|s| - 1])
    else s
  }

  /** Everything outside `s[i..j]` is a space. */
  ghost predicate SpaceAround(s: string, i: nat, j: nat) {
    i <= j <= |s| && forall k | 0 <= k < i || j <= k < |s| :: IsSpace(s[k])
  }

  /** `t` is `s` without the spaces around it. */
  ghost predicate Stripped(s: string, t: string) {
    && (t == "" || (!IsSpace(t[0]) && !IsSpace(t[|t| - 1])))
    && exists i: nat, j: nat | SpaceAround(s, i, j) :: t == s[i..j]
  }

  /** Where the stripped text lies. */
  lemma {:induction false} StripRange(s: string) returns (i: nat, j: nat)
    ensures SpaceAround(s, i, j) && Strip(s) == s[i..j]
    ensures i < j ==> !IsSpace(s[i]) && !IsSpace(s[j - 1])
  {
    hide IsSpace;
    if s != "" && IsSpace(s[0]) {
      var i', j' := StripRange(s[1..]);
      i, j := i' + 1, j' + 1;
      assert s[1..][i'..j'] == s[i..j];
      forall k | 0 <= k < i ensures IsSpace(s[k]) { if k > 0 { assert s[k] == s[1..][k - 1]; } }
      forall k | j <= k < |s| ensures IsSpace(s[k]) { assert s[k] == s[1..][k - 1]; }
    } else if s != "" && IsSpace(s[|s| - 1]) {
      var front := s[..|s| - 1];
      i, j := StripRange(front);
      assert front[i..j] == s[i..j];
      forall k | j <= k < |s| ensures IsSpace(s[k]) { if k < |front| { assert s[k] == front[k]; } }
    } else {
      i, j := 0, |s|;
    }
  }

  lemma Trimmed(s: string, i: nat, j: nat)
    requires SpaceAround(s, i, j) && (i < j ==> !IsSpace(s[i]) && !IsSpace(s[j - 1]))
    ensures Stripped(s, s[i..j])
    ensures s[i..j] == "" <==> forall k | 0 <= k < |s| :: IsSpace(s[k])
  {
    hide IsSpace;
    var t := s[i..j];
    assert |t| == j - i;
    if i < j {
      assert t[0] == s[i] && t[j - i - 1] == s[j - 1];
    }
  }

  lemma StripMeans(s: string)
    ensures Stripped(s, Strip(s))
    ensures Strip(s) == "" <==> forall k | 0 <= k < |s| :: IsSpace(s[k])
  {
    hide IsSpace, Strip, Stripped;
    var i, j := StripRange(s);
    Trimmed(s, i, j);
  }

  predicate Usable(field: Field) {
    field.Text? && Strip(field.text) != ""
  }

  /** The non-empty urls, in order. */
  function Citations(urls: seq<Field>): seq<string> {
    if urls == [] then []
    else
      var last := urls[|urls| - 1];
      Citations(urls[..|urls| - 1]) + if last.Text? && last.text != "" then [last.text] else []
  }

  /** The citations are the non-empty urls, and no fewer. */
  lemma {:induction false} CitationsMean(urls: seq<Field>, url: string)
    ensures url in Citations(urls) <==> url != "" && Text(url) in urls
  {
    if urls != [] {
      CitationsMean(urls[..|urls| - 1], url);
      assert urls == urls[..|urls| - 1] + [urls[|urls| - 1]];
    }
  }

  /** None stands for the ContractError. */
  function Validate(payload: Payload, source: string, degraded: bool): Option<SearchResult> {
    if payload.NotAnObject? || !Usable(payload.query) || !Usable(payload.answer) then None
    else Some(SearchResult(Strip(payload.query.text), Strip(payload.answer.text), source, degraded, Citations(payload.urls)))
  }

  method ValidateSearchResult(payload: Payload, source: string, degraded: bool) returns (result: Option<SearchResult>)
    ensures result == Validate(payload, source, degraded)
  {
    if payload.NotAnObject? {
      return None;
    }
    if !payload.query.Text? || Strip(payload.query.text) == "" {
      return None;
    }
    if !payload.answer.Text? || Strip(payload.answer.text) == "" {
      return None;
    }
    var citations: seq<string> := [];
    for k := 0 to |payload.urls|
      invariant citations == Citations(payload.urls[..k])
    {
      var url := payload.urls[k];
      assert payload.urls[..k + 1][..k] == payload.urls[..k];
      if url.Text? && url.text != "" {
        citations := citations + [url.text];
      }
    }
    assert payload.urls[..|payload.urls|] == payload.urls;
    result := Some(SearchResult(Strip(payload.query.text), Strip(payload.answer.text), source, degraded, citations));
  }

  /** A payload passes iff it is an object whose query and answer have something besides spaces. */
  lemma ValidateMeans(payload: Payload, source: string, degraded: bool)
    ensures var result := Validate(payload, source, degraded);
      && (result.Some? <==>
        && payload.Object? && payload.query.Text? && payload.answer.Text?
        && (exists k | 0 <= k < |payload.query.text| :: !IsSpace(payload.query.text[k]))
        && (exists k | 0 <= k < |payload.answer.text| :: !IsSpace(payload.answer.text[k])))
      && (result.Some? ==>
        && Stripped(payload.query.text, result.value.query) && result.value.query != ""
        && Stripped(payload.answer.text, result.value.answer) && result.value.answer != ""
        && result.value.source == source && result.value.degraded == degraded)
  {
    hide Stripped, Strip;
    if payload.Object? {
      if payload.query.Text? { StripMeans(payload.query.text); }
      if payload.answer.Text? { StripMeans(payload.answer.text); }
    }
  }

  // ---------- scripted adapters ----------

  type Script = seq<Outcome<Payload>>

  /** An object without a query gets the one that was asked. */
  function WithQuery(o: Outcome<Payload>, query: string): Outcome<Payload> {
    if o.Returned? && o.value.Object? && o.value.query.Missing? then Returned(o.value.(query := Text(query))) else o
  }

  /** The answer to the k-th search from here on. */
  function OutcomeAt(script: Script, k: nat, query: string): Outcome<Payload> {
    if k < |script| then WithQuery(script[k], query) else Raised(SCRIPT_EXHAUSTED)
  }

  /** The script in order, completed with the query asked; past its end, a failure that is not worth a retry. */
  lemma ScriptAnswers(script: Script, k: nat, query: string)
    ensures k >= |script| ==> OutcomeAt(script, k, query) == Raised(Failure("script_exhausted", false))
    ensures k < |script| && !script[k].Returned? ==> OutcomeAt(script, k, query) == script[k]
    ensures k < |script| && script[k].Returned? ==>
      var asked := OutcomeAt(script, k, query);
      asked.Returned? &&
        match script[k].value
        case NotAnObject => asked == script[k]
        case Object(field, answer, urls) =>
          asked.value == Object(if field == Missing then Text(query) else field, answer, urls)
  {
  }

  function After(script: Script, calls: nat): Script {
    if calls <= |script| then script[calls..] else []
  }

  class ScriptedAdapter {
    var outcomes: Script
    var calls: nat

    constructor (outcomes: Script)
      ensures this.outcomes == outcomes && calls == 0
    {
      this.outcomes, calls := outcomes, 0;
    }

    method Search(query: string) returns (outcome: Outcome<Payload>)
      modifies this
      ensures outcome == OutcomeAt(old(outcomes), 0, query)
      ensures outcomes == After(old(outcomes), 1) && calls == old(calls) + 1
    {
      calls := calls + 1;
      if outcomes == [] {
        return Raised(SCRIPT_EXHAUSTED);
      }
      outcome := outcomes[0];
      outcomes := outcomes[1..];
      if outcome.Returned? && outcome.value.Object? && outcome.value.query.Missing? {
        outcome := Returned(outcome.value.(query := Text(query)));
      }
    }
  }
}

/** Bounded retry with capped exponential backoff. */
module Retry {
  import opened Wrappers
  import opened SearchContract

  datatype RetryPolicy = RetryPolicy(maxAttempts: int, baseDelay: real, maxDelay: real, jitter: real)

  /** The delay after a failed attempt; attempts below 1 are a ValueError. */
  function DelayForAttempt(policy: RetryPolicy, failed: int, random: real): (delay: Option<real>)
    ensures delay.Some? <==> failed >= 1
  {
    if failed < 1 then None
    else
      var raw := Raw(policy, failed);
      var delay := Jittered(raw, Spread(raw, policy.jitter), random);
      Some(if delay >= 0.0 then delay else 0.0)
  }

  function Raw(policy: RetryPolicy, failed: nat): real
    requires failed >= 1
  {
    Backoff(policy.baseDelay, policy.maxDelay, failed - 1)
  }

  function Spread(raw: real, jitter: real): real {
    raw * jitter
  }

  function Jittered(raw: real, spread: real, random: real): real {
    raw - spread + 2.0 * spread * random
  }

  /** With the default random value the jitter cancels out. */
  function Delay(policy: RetryPolicy, failed: nat): real
    requires failed >= 1
  {
    DelayForAttempt(policy, failed, 0.5).value
  }

  lemma DefaultIgnoresJitter(policy: RetryPolicy, failed: nat)
    requires failed >= 1
    ensures Delay(policy, failed) == if Raw(policy, failed) >= 0.0 then Raw(policy, failed) else 0.0
  {
    hide Raw, Spread;
  }

  /** What the retry loop sleeps: the base first, then doubled up to the cap. */
  lemma SleepsDouble(script: Script, query: string, policy: RetryPolicy, k: nat)
    requires policy.maxAttempts >= 1 && policy.baseDelay >= 0.0 && policy.maxDelay >= 0.0
    requires k < |RetryCall(script, query, policy).sleeps|
    ensures RetryCall(script, query, policy).sleeps[k] == Doubled(policy.baseDelay, policy.maxDelay, k)
  {
    hide RetryCall, DelayForAttempt, Raw, Doubled;
    RetryMeans(script, query, policy);
    DefaultIgnoresJitter(policy, k + 1);
    RawDoubles(policy, k + 1);
    DoubledNotNegative(policy.baseDelay, policy.maxDelay, k);
  }

  lemma RawDoubles(policy: RetryPolicy, failed: nat)
    requires failed >= 1 && policy.baseDelay >= 0.0
    ensures Raw(policy, failed) == Doubled(policy.baseDelay, policy.maxDelay, failed - 1)
  {
    BackoffIsDoubled(policy.baseDelay, policy.maxDelay, failed - 1);
  }

  lemma {:induction false} DoubledNotNegative(base: real, cap: real, k: nat)
    requires base >= 0.0 && cap >= 0.0
    ensures Doubled(base, cap, k) >= 0.0
  {
    if k > 0 { DoubledNotNegative(base, cap, k - 1); }
  }

  function Least(a: real, b: real): real { if a <= b then a else b }

  function Greatest(a: real, b: real): real { if a <= b then b else a }

  /** Whatever the jitter ratio, the delay lies within that ratio of the backoff, and is never negative. */
  lemma JitterStaysNear(policy: RetryPolicy, failed: nat, random: real)
    requires failed >= 1 && 0.0 <= random <= 1.0
    ensures var raw := Raw(policy, failed); var spread := Spread(raw, policy.jitter);
      Greatest(0.0, Least(raw - spread, raw + spread)) <= DelayForAttempt(policy, failed, random).value
        <= Greatest(0.0, Greatest(raw - spread, raw + spread))
    ensures policy.baseDelay >= 0.0 ==> Raw(policy, failed) == Doubled(policy.baseDelay, policy.maxDelay, failed - 1)
  {
    if policy.baseDelay >= 0.0 { RawDoubles(policy, failed); }
    hide Raw, Spread, Jittered;
    var raw := Raw(policy, failed);
    JitteredBetween(raw, Spread(raw, policy.jitter), random);
  }

  lemma JitteredBetween(raw: real, spread: real, random: real)
    requires 0.0 <= random <= 1.0
    ensures Least(raw - spread, raw + spread) <= Jittered(raw, spread, random) <= Greatest(raw - spread, raw + spread)
  {
    if spread >= 0.0 {
      Shrinks(2.0 * spread, random);
    } else {
      Shrinks(-2.0 * spread, random);
      assert -2.0 * spread * random == -(2.0 * spread * random);
    }
  }

  lemma Shrinks(x: real, ratio: real)
    requires x >= 0.0 && 0.0 <= ratio <= 1.0
    ensures 0.0 <= x * ratio <= x
  {
    assert x * (1.0 - ratio) >= 0.0;
    assert x * (1.0 - ratio) == x - x * ratio;
  }

  datatype RetryRun = RetryRun(calls: nat, outcome: Outcome<Payload>, sleeps: seq<real>)

  function RetryFrom(script: Script, query: string, policy: RetryPolicy, attempt: nat): RetryRun
    requires 1 <= attempt <= policy.maxAttempts
    decreases policy.maxAttempts - attempt
  {
    var outcome := OutcomeAt(script, attempt - 1, query);
    if !outcome.Raised? || !outcome.failure.retryable || attempt == policy.maxAttempts
    then RetryRun(attempt, outcome, [])
    else
      var rest := RetryFrom(script, query, policy, attempt + 1);
      rest.(sleeps := [Delay(policy, attempt)] + rest.sleeps)
  }

  /** A policy without attempts is a ValueError before any call. */
  function RetryCall(script: Script, query: string, policy: RetryPolicy): RetryRun {
    if policy.maxAttempts < 1 then RetryRun(0, Escaped, []) else RetryFrom(script, query, policy, 1)
  }

  function Sum(delays: seq<real>): real {
    if delays == [] then 0.0 else delays[0] + Sum(delays[1..])
  }

  predicate Retryable(outcome: Outcome<Payload>) {
    outcome.Raised? && outcome.failure.retryable
  }

  ghost predicate StopsRight(r: RetryRun, script: Script, query: string, policy: RetryPolicy, attempt: nat)
    requires attempt >= 1
  {
    && attempt <= r.calls <= policy.maxAttempts
    && (forall k | attempt - 1 <= k < r.calls - 1 :: Retryable(OutcomeAt(script, k, query)))
    && r.outcome == OutcomeAt(script, r.calls - 1, query)
    && (Retryable(r.outcome) ==> r.calls == policy.maxAttempts)
    && |r.sleeps| == r.calls - attempt
    && (forall k | 0 <= k < |r.sleeps| :: r.sleeps[k] == Delay(policy, attempt + k))
  }

  lemma {:induction false} RetryFromStops(script: Script, query: string, policy: RetryPolicy, attempt: nat)
    requires 1 <= attempt <= policy.maxAttempts
    ensures StopsRight(RetryFrom(script, query, policy, attempt), script, query, policy, attempt)
    decreases policy.maxAttempts - attempt
  {
    hide OutcomeAt, Delay;
    if Retryable(OutcomeAt(script, attempt - 1, query)) && attempt < policy.maxAttempts {
      RetryFromStops(script, query, policy, attempt + 1);
    }
  }

  /**
   Every call but the last failed in a retryable way; the last one did not, or used up
   the attempts.  Between calls it slept exactly the backoff of each failed attempt.
   */
  lemma RetryMeans(script: Script, query: string, policy: RetryPolicy)
    requires policy.maxAttempts >= 1
    ensures StopsRight(RetryCall(script, query, policy), script, query, policy, 1)
  {
    RetryFromStops(script, query, policy, 1);
  }

  /** The last call of a retry is the first that does not fail retryably, or the last allowed. */
  lemma RetryIsDetermined(r: RetryRun, s: RetryRun, script: Script, query: string, policy: RetryPolicy)
    requires StopsRight(r, script, query, policy, 1) && StopsRight(s, script, query, policy, 1)
    ensures r == s
  {
    hide OutcomeAt, Delay, Retryable;
  }

  function BackoffTotal(policy: RetryPolicy, retries: nat): real {
    if retries == 0 then 0.0 else BackoffTotal(policy, retries - 1) + Delay(policy, retries)
  }

  lemma {:induction false} SumGrows(delays: seq<real>, last: real)
    ensures Sum(delays + [last]) == Sum(delays) + last
  {
    if delays == [] {
      assert ([] + [last])[1..] == [];
    } else {
      assert (delays + [last])[1..] == delays[1..] + [last];
      SumGrows(delays[1..], last);
    }
  }

  lemma {:induction false} SumIsTotal(policy: RetryPolicy, delays: seq<real>)
    requires forall k | 0 <= k < |delays| :: delays[k] == Delay(policy, k + 1)
    ensures Sum(delays) == BackoffTotal(policy, |delays|)
  {
    hide Delay;
    if delays != [] {
      var front := delays[..|delays| - 1];
      SumIsTotal(policy, front);
      SumGrows(front, delays[|delays| - 1]);
      assert front + [delays[|delays| - 1]] == delays;
    }
  }

  /** The time slept is the sum of the backoffs, and never more than the cap for each retry. */
  lemma {:induction false} SleepsAreBounded(policy: RetryPolicy, retries: nat)
    requires policy.maxDelay >= 0.0
    ensures 0.0 <= BackoffTotal(policy, retries) <= (retries as real) * policy.maxDelay
  {
    hide Delay;
    if retries > 0 {
      SleepsAreBounded(policy, retries - 1);
      assert 0.0 <= Delay(policy, retries) <= policy.maxDelay by { DefaultIgnoresJitter(policy, retries); }
      assert (retries as real) * policy.maxDelay == ((retries - 1) as real) * policy.maxDelay + policy.maxDelay;
    }
  }

  /** The retry loop on an adapter; `sleeps` is what was slept, in order. */
  method Call(adapter: ScriptedAdapter, query: string, policy: RetryPolicy) returns (outcome: Outcome<Payload>, sleeps: seq<real>)
    modifies adapter
    ensures var r := RetryCall(old(adapter.outcomes), query, policy);
      && outcome == r.outcome && sleeps == r.sleeps
      && adapter.outcomes == After(old(adapter.outcomes), r.calls) && adapter.calls == old(adapter.calls) + r.calls
  {
    hide DelayForAttempt, RetryFrom;
    outcome, sleeps := Escaped, [];
    if policy.maxAttempts < 1 {
      return;
    }
    ghost var script := adapter.outcomes;
    for attempt := 1 to policy.maxAttempts + 1
      invariant attempt <= policy.maxAttempts
      invariant adapter.outcomes == After(script, attempt - 1) && adapter.calls == old(adapter.calls) + attempt - 1
      invariant var rest := RetryFrom(script, query, policy, attempt);
        RetryFrom(script, query, policy, 1) == rest.(sleeps := sleeps + rest.sleeps)
    {
      Unfold(script, query, policy, attempt);
      outcome := adapter.Search(query);
      if !outcome.Raised? {
        return;
      }
      if !outcome.failure.retryable || attempt == policy.maxAttempts {
        return;
      }
      var delay := DelayForAttempt(policy, attempt, 0.5);
      ghost var rest := RetryFrom(script, query, policy, attempt + 1);
      assert sleeps + ([Delay(policy, attempt)] + rest.sleeps) == sleeps + [Delay(policy, attempt)] + rest.sleeps;
      sleeps := sleeps + [delay.value];
    }
  }

  lemma Unfold(script: Script, query: string, policy: RetryPolicy, attempt: nat)
    requires 1 <= attempt <= policy.maxAttempts
    ensures RetryFrom(script, query, policy, attempt) ==
      var outcome := OutcomeAt(script, attempt - 1, query);
      if !Retryable(outcome) || attempt == policy.maxAttempts then RetryRun(attempt, outcome, [])
      else
        var rest := RetryFrom(script, query, policy, attempt + 1);
        rest.(sleeps := [Delay(policy, attempt)] + rest.sleeps)
    ensures OutcomeAt(After(script, attempt - 1), 0, query) == OutcomeAt(script, attempt - 1, query)
    ensures After(After(script, attempt - 1), 1) == After(script, attempt)
  {
  }
}
