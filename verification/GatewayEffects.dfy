/** What a search answers and what the breaker makes of it, told by the adapters' outcomes and the call counts. */
module GatewayEffects {
  import opened Wrappers
  import opened SearchContract
  import opened Retry
  import opened GatewayRules
  import Breaker
  import Hits

  /** The last answer of the primary adapter to a search, if the search called it. */
  function LastAnswer(g: Gateway, after: Gateway, r: Request): Option<Outcome<Payload>> {
    if after.primaryCalls <= g.primaryCalls then None
    else Some(OutcomeAt(g.primary, after.primaryCalls - g.primaryCalls - 1, r.query))
  }

  // ---------- the answer ----------

  /** An object whose query and answer are texts with more than spaces. */
  ghost predicate OnContract(p: Payload) {
    && p.Object? && p.query.Text? && p.answer.Text?
    && (exists k | 0 <= k < |p.query.text| :: !IsSpace(p.query.text[k]))
    && (exists k | 0 <= k < |p.answer.text| :: !IsSpace(p.answer.text[k]))
  }

  /** The answer to a search that an adapter answered with `outcome`. */
  ghost predicate Concluded(answer: Answer, outcome: Outcome<Payload>, source: string, degraded: bool) {
    match outcome
    case Escaped => answer == Broke
    case Raised(failure) => answer == Refused(failure)
    case Returned(p) =>
      if OnContract(p) then
        && answer.Found? && answer.result.source == source && answer.result.degraded == degraded
        && Stripped(p.query.text, answer.result.query) && Stripped(p.answer.text, answer.result.answer)
        && (forall url :: url in answer.result.citations <==> url != "" && Text(url) in p.urls)
      else answer == Refused(CONTRACT_BROKEN)
  }

  lemma ConcludeMeans(g: Gateway, r: Request, outcome: Outcome<Payload>, source: string, degraded: bool)
    ensures Concluded(Conclude(g, r, outcome, source, degraded).1, outcome, source, degraded)
  {
    hide Stripped, Strip, Citations;
    if outcome.Returned? {
      ValidateMeans(outcome.value, source, degraded);
      if outcome.value.Object? {
        forall url ensures url in Citations(outcome.value.urls) <==> url != "" && Text(url) in outcome.value.urls {
          CitationsMean(outcome.value.urls, url);
        }
      }
    }
  }

  /**
   A search that is neither limited nor cached answers with the primary's last outcome,
   unless that is a retryable failure or the primary was not called: then with the fallback's.
   */
  lemma AnswerIs(g: Gateway, config: Config, r: Request)
    requires Breaker.Timed(g.circuit) && !Limited(g, config, r) && !Cached(g, r) && config.policy.maxAttempts >= 1
    ensures var (after, answer) := Search(g, config, r);
      match LastAnswer(g, after, r)
      case Some(outcome) =>
        if Retryable(outcome) then Concluded(answer, OutcomeAt(g.fallback, 0, r.query), "direct", true)
        else Concluded(answer, outcome, "mcp", false)
      case None => Concluded(answer, OutcomeAt(g.fallback, 0, r.query), "direct", true)
  {
    hide Conclude, Concluded, OutcomeAt, RetryCall, Search, Retryable, Limited, Cached, Starts;
    SearchGoes(g, config, r);
    RetryMeans(g.primary, r.query, config.policy);
    var checked := Checked(g, r);
    var (called, outcome) := CallPrimary(checked, config, r);
    ConcludeMeans(called, r, outcome, "mcp", false);
    ConcludeMeans(CallFallback(called, r).0, r, OutcomeAt(g.fallback, 0, r.query), "direct", true);
  }

  /** A limited search is refused for good; a cached one gets what was cached. */
  lemma EarlyAnswers(g: Gateway, config: Config, r: Request)
    requires Breaker.Timed(g.circuit)
    ensures Limited(g, config, r) ==> Search(g, config, r).1 == Refused(Failure("rate_limited", false))
    ensures !Limited(g, config, r) && (r.tenant, r.id) in g.cache ==> Search(g, config, r).1 == Found(g.cache[(r.tenant, r.id)])
  {
    hide Limited, CallPrimary, Conclude;
  }

  function Checked(g: Gateway, r: Request): Gateway {
    g.(hits := g.hits + [Hits.Hit(r.tenant, r.times.check)])
  }

  /** The shape of a search, whatever its retry, breaker and conclusion do. */
  lemma SearchGoes(g: Gateway, config: Config, r: Request)
    requires Breaker.Timed(g.circuit)
    ensures var (after, answer) := Search(g, config, r);
      if Limited(g, config, r) || Cached(g, r) then
        after == Checked(g, r)
      else
        var run := RetryCall(g.primary, r.query, config.policy);
        var (called, outcome) := CallPrimary(Checked(g, r), config, r);
        && after.primaryCalls == g.primaryCalls + (if Starts(g, config, r) then run.calls else 0)
        && after.circuit == Breaker.Execute(g.circuit, config.breaker, BreakerCall(run.outcome, r.times))
        && (!Starts(g, config, r) ==>
              after.slept == g.slept && after.fallbackCalls == g.fallbackCalls + 1
              && answer == Conclude(CallFallback(called, r).0, r, OutcomeAt(g.fallback, 0, r.query), "direct", true).1)
        && (Starts(g, config, r) ==>
              && outcome == run.outcome
              && answer == if Retryable(run.outcome)
                           then Conclude(CallFallback(called, r).0, r, OutcomeAt(g.fallback, 0, r.query), "direct", true).1
                           else Conclude(called, r, outcome, "mcp", false).1)
  {
    hide RetryCall, Breaker.Execute, BreakerCall, OutcomeAt, Validate, Limited, Breaker.BeforeCall;
  }

  // ---------- what the breaker makes of it ----------

  /** The circuit after a search, given the primary's last answer to it. */
  predicate Recorded(c: Breaker.Circuit, d: Breaker.Circuit, last: Option<Outcome<Payload>>, config: Breaker.Config, at: real) {
    match last
    case Some(Raised(_)) =>
      && d.failures == c.failures + 1
      && (c.state != Breaker.Closed || d.failures >= config.threshold ==> d.state == Breaker.Open && d.openedAt == Some(at))
      && (c.state == Breaker.Closed && d.failures < config.threshold ==> d.state == Breaker.Closed)
    case Some(Returned(_)) => d.failures == 0 && d.state == Breaker.Closed
    case Some(Escaped) =>
      d.failures == c.failures && d.state == if c.state == Breaker.Closed then Breaker.Closed else Breaker.HalfOpen
    case None => d == c
  }

  /** A failed search counts, a successful one closes the circuit, any other leaves the count alone. */
  lemma SearchRecords(g: Gateway, config: Config, r: Request)
    requires Breaker.Timed(g.circuit)
    ensures var after := Search(g, config, r).0;
      Recorded(g.circuit, after.circuit, LastAnswer(g, after, r), config.breaker, r.times.after)
      || (config.policy.maxAttempts < 1 && LastAnswer(g, after, r).None? && after.circuit.failures == g.circuit.failures
          && (g.circuit.state == Breaker.Closed ==> after.circuit == g.circuit))
  {
    hide Conclude, OutcomeAt, Search, Retryable, Limited, Cached, RetryFrom, StopsRight, CallPrimary;
    SearchGoes(g, config, r);
    if config.policy.maxAttempts >= 1 { RetryEnds(g.primary, r.query, config.policy); }
  }

  lemma RetryEnds(script: Script, query: string, policy: RetryPolicy)
    requires policy.maxAttempts >= 1
    ensures var run := RetryCall(script, query, policy); run.calls >= 1 && run.outcome == OutcomeAt(script, run.calls - 1, query)
  {
    hide RetryCall, OutcomeAt;
    RetryMeans(script, query, policy);
  }

  /** An admitted search that is not cached calls the primary iff the circuit is not open, or its timeout has passed. */
  lemma SearchStarts(g: Gateway, config: Config, r: Request)
    requires Breaker.Timed(g.circuit) && !Limited(g, config, r) && !Cached(g, r) && config.policy.maxAttempts >= 1
    ensures var after := Search(g, config, r).0;
      var blocked := g.circuit.state == Breaker.Open && r.times.before - g.circuit.openedAt.value < config.breaker.timeout;
      if blocked then
        after.primaryCalls == g.primaryCalls && after.fallbackCalls == g.fallbackCalls + 1 && after.slept == g.slept
      else after.primaryCalls > g.primaryCalls
  {
    hide Conclude, OutcomeAt, Search, Retryable, Limited, Cached, RetryCall, CallPrimary, Breaker.Execute;
    SearchGoes(g, config, r);
    RetryEnds(g.primary, r.query, config.policy);
  }

  // ---------- over runs of searches ----------

  /** The searches since the last success whose primary call failed; those that never called it or escaped do not count. */
  function Failed(g: Gateway, config: Config, requests: seq<Request>): nat
    requires Breaker.Timed(g.circuit)
  {
    if requests == [] then 0
    else
      var front, r := requests[..|requests| - 1], requests[|requests| - 1];
      var before := Serve(g, config, front);
      match LastAnswer(before, Search(before, config, r).0, r)
      case Some(Raised(_)) => Failed(g, config, front) + 1
      case Some(Returned(_)) => 0
      case _ => Failed(g, config, front)
  }

  /** When the latest search that called the primary failed, if it did. */
  function FailedAt(g: Gateway, config: Config, requests: seq<Request>): Option<real>
    requires Breaker.Timed(g.circuit)
  {
    if requests == [] then None
    else
      var front, r := requests[..|requests| - 1], requests[|requests| - 1];
      var before := Serve(g, config, front);
      match LastAnswer(before, Search(before, config, r).0, r)
      case Some(Raised(_)) => Some(r.times.after)
      case Some(_) => None
      case None => FailedAt(g, config, front)
  }

  /** The circuit, told by the failures. */
  predicate Follows(c: Breaker.Circuit, failed: nat, at: Option<real>, threshold: int) {
    && c.failures == failed
    && (at.Some? ==> failed >= 1)
    && (c.state == Breaker.Open <==> at.Some? && failed >= threshold)
    && (c.state == Breaker.Open ==> c.openedAt == at)
    && (c.state == Breaker.HalfOpen ==> failed >= 1 && failed >= threshold)
  }

  lemma FollowsOn(c: Breaker.Circuit, d: Breaker.Circuit, last: Option<Outcome<Payload>>, config: Breaker.Config, now: real,
                  failed: nat, at: Option<real>)
    requires Recorded(c, d, last, config, now) && Follows(c, failed, at, config.threshold)
    ensures match last
      case Some(Raised(_)) => Follows(d, failed + 1, Some(now), config.threshold)
      case Some(Returned(_)) => Follows(d, 0, None, config.threshold)
      case Some(Escaped) => Follows(d, failed, None, config.threshold)
      case None => Follows(d, failed, at, config.threshold)
  {
  }

  /** The breaker's count is that of the failed searches, and it is open exactly while too many of them trail. */
  lemma {:induction false} CircuitFollowsFailures(config: Config, primary: Script, fallback: Script, requests: seq<Request>)
    ensures var g := New(primary, fallback);
      Follows(Serve(g, config, requests).circuit, Failed(g, config, requests), FailedAt(g, config, requests),
              config.breaker.threshold)
  {
    hide Search, LastAnswer, Recorded, Follows;
    var g := New(primary, fallback);
    if requests == [] {
      assert Follows(g.circuit, 0, None, config.breaker.threshold) by { FollowsFromStart(config.breaker.threshold); }
    } else {
      var front, r := requests[..|requests| - 1], requests[|requests| - 1];
      var before := Serve(g, config, front);
      CircuitFollowsFailures(config, primary, fallback, front);
      SearchRecords(before, config, r);
      var last := LastAnswer(before, Search(before, config, r).0, r);
      if Recorded(before.circuit, Search(before, config, r).0.circuit, last, config.breaker, r.times.after) {
        FollowsOn(before.circuit, Search(before, config, r).0.circuit, last, config.breaker, r.times.after,
                  Failed(g, config, front), FailedAt(g, config, front));
      } else {
        NeverCalls(config, primary, fallback, front);
      }
    }
  }

  lemma FollowsFromStart(threshold: int)
    ensures Follows(Breaker.INITIAL, 0, None, threshold)
  {
  }

  /** A gateway whose policy allows no attempt never opens its circuit. */
  lemma {:induction false} NeverCalls(config: Config, primary: Script, fallback: Script, requests: seq<Request>)
    requires config.policy.maxAttempts < 1
    ensures Serve(New(primary, fallback), config, requests).circuit.state == Breaker.Closed
  {
    hide Search, LastAnswer;
    if requests != [] {
      var front, r := requests[..|requests| - 1], requests[|requests| - 1];
      NeverCalls(config, primary, fallback, front);
      var before := Serve(New(primary, fallback), config, front);
      SearchRecords(before, config, r);
      NoCalls(before, config, r);
    }
  }

  lemma NoCalls(g: Gateway, config: Config, r: Request)
    requires Breaker.Timed(g.circuit) && config.policy.maxAttempts < 1
    ensures LastAnswer(g, Search(g, config, r).0, r).None?
  {
    hide Conclude, OutcomeAt, Search, Retryable, Limited, Cached, CallPrimary, Breaker.Execute;
    SearchGoes(g, config, r);
  }

  /**
   The next admitted, uncached search calls the primary unless `threshold` failed searches
   trail, the latest call failed, and the recovery timeout has not passed since; then it
   makes no primary call, does not sleep, and falls back once.
   */
  lemma FailuresOpenCircuit(config: Config, primary: Script, fallback: Script, requests: seq<Request>, r: Request)
    requires config.policy.maxAttempts >= 1
    requires var g := Serve(New(primary, fallback), config, requests); !Limited(g, config, r) && !Cached(g, r)
    ensures var start := New(primary, fallback);
      var g := Serve(start, config, requests); var after := Search(g, config, r).0;
      var at := FailedAt(start, config, requests);
      if at.Some? && Failed(start, config, requests) >= config.breaker.threshold
         && r.times.before - at.value < config.breaker.timeout
      then after.primaryCalls == g.primaryCalls && after.fallbackCalls == g.fallbackCalls + 1 && after.slept == g.slept
      else after.primaryCalls > g.primaryCalls
  {
    hide Search, Limited, Cached, Failed, FailedAt;
    CircuitFollowsFailures(config, primary, fallback, requests);
    SearchStarts(Serve(New(primary, fallback), config, requests), config, r);
  }
}
