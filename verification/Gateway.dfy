/** One search through limiter, cache, breaker, retry and fallback, and runs of searches. */
module GatewayRules {
  import opened SearchContract
  import opened Retry
  import Breaker
  import FixedWindow
  import Hits

  datatype Config = Config(policy: RetryPolicy, breaker: Breaker.Config, limiter: FixedWindow.Rule)

  type Cache = map<(string, string), SearchResult>

  datatype Gateway = Gateway(
    circuit: Breaker.Circuit, hits: seq<Hits.Hit>, cache: Cache,
    primary: Script, primaryCalls: nat, fallback: Script, fallbackCalls: nat, slept: seq<real>)

  /** The clock readings one search makes. */
  datatype Times = Times(check: real, before: real, after: real)
  datatype Request = Request(query: string, tenant: string, id: string, times: Times)

  /** A result, an IntegrationError, or any other exception. */
  datatype Answer = Found(result: SearchResult) | Refused(failure: Failure) | Broke

  function New(primary: Script, fallback: Script): Gateway {
    Gateway(Breaker.INITIAL, [], map[], primary, 0, fallback, 0, [])
  }

  predicate Limited(g: Gateway, config: Config, r: Request) {
    !FixedWindow.Admits(g.hits, Hits.Hit(r.tenant, r.times.check), config.limiter)
  }

  predicate Cached(g: Gateway, r: Request) {
    (r.tenant, r.id) in g.cache
  }

  /** The call the breaker sees, given how the retry ended. */
  function BreakerCall(outcome: Outcome<Payload>, times: Times): Breaker.Call {
    Breaker.Call(times.before,
                 match outcome
                 case Returned(_) => Breaker.Returned
                 case Raised(_) => Breaker.Raised(times.after)
                 case Escaped => Breaker.Escaped)
  }

  predicate Starts(g: Gateway, config: Config, r: Request)
    requires Breaker.Timed(g.circuit)
  {
    Breaker.BeforeCall(g.circuit, config.breaker, r.times.before).1
  }

  /** The primary path: the retry inside the breaker. */
  function CallPrimary(g: Gateway, config: Config, r: Request): (Gateway, Outcome<Payload>)
    requires Breaker.Timed(g.circuit)
  {
    var run := RetryCall(g.primary, r.query, config.policy);
    var circuit := Breaker.Execute(g.circuit, config.breaker, BreakerCall(run.outcome, r.times));
    if !Starts(g, config, r) then (g.(circuit := circuit), Raised(CIRCUIT_OPEN))
    else
      (g.(circuit := circuit, primary := After(g.primary, run.calls), primaryCalls := g.primaryCalls + run.calls,
          slept := g.slept + run.sleeps),
       run.outcome)
  }

  /** The direct path: one call, no retry. */
  function CallFallback(g: Gateway, r: Request): (Gateway, Outcome<Payload>) {
    (g.(fallback := After(g.fallback, 1), fallbackCalls := g.fallbackCalls + 1), OutcomeAt(g.fallback, 0, r.query))
  }

  /** Checks a payload and remembers the result. */
  function Conclude(g: Gateway, r: Request, outcome: Outcome<Payload>, source: string, degraded: bool): (Gateway, Answer) {
    match outcome
    case Escaped => (g, Broke)
    case Raised(failure) => (g, Refused(failure))
    case Returned(payload) =>
      match Validate(payload, source, degraded)
      case None => (g, Refused(CONTRACT_BROKEN))
      case Some(result) => (g.(cache := g.cache[(r.tenant, r.id) := result]), Found(result))
  }

  function Search(g: Gateway, config: Config, r: Request): (Gateway, Answer)
    requires Breaker.Timed(g.circuit)
  {
    var checked := g.(hits := g.hits + [Hits.Hit(r.tenant, r.times.check)]);
    if Limited(g, config, r) then (checked, Refused(RATE_LIMITED))
    else if Cached(g, r) then (checked, Found(g.cache[(r.tenant, r.id)]))
    else
      var (called, outcome) := CallPrimary(checked, config, r);
      if Retryable(outcome) then
        var (fallen, direct) := CallFallback(called, r);
        Conclude(fallen, r, direct, "direct", true)
      else Conclude(called, r, outcome, "mcp", false)
  }

  // ---------- one search ----------

  /** What a search may spend, and exactly when it falls back. */
  lemma SearchSpends(g: Gateway, config: Config, r: Request)
    requires Breaker.Timed(g.circuit)
    ensures var (after, answer) := Search(g, config, r);
      var calls := after.primaryCalls - g.primaryCalls;
      var direct := after.fallbackCalls - g.fallbackCalls;
      && (Limited(g, config, r) || Cached(g, r) ==>
            calls == 0 && direct == 0 && after.slept == g.slept && after.circuit == g.circuit)
      && 0 <= calls && (calls > 0 ==> calls <= config.policy.maxAttempts)
      && (!Limited(g, config, r) && !Cached(g, r) && Starts(g, config, r) && config.policy.maxAttempts >= 1 ==> calls >= 1)
      && (exists sleeps ::
        && after.slept == g.slept + sleeps
        && |sleeps| == (if calls == 0 then 0 else calls - 1)
        && Sum(sleeps) == BackoffTotal(config.policy, |sleeps|))
      && direct == (if Limited(g, config, r) || Cached(g, r) then 0
                    else if !Starts(g, config, r) then 1
                    else if config.policy.maxAttempts >= 1 && calls >= 1
                            && Retryable(OutcomeAt(g.primary, calls - 1, r.query)) then 1
                    else 0)
  {
    hide Strip, Citations, Breaker.Execute, FixedWindow.Admits, Delay, OutcomeAt;
    var run := RetryCall(g.primary, r.query, config.policy);
    var sleeps := if Search(g, config, r).0.primaryCalls == g.primaryCalls then [] else run.sleeps;
    if config.policy.maxAttempts >= 1 {
      RetryMeans(g.primary, r.query, config.policy);
      SumIsTotal(config.policy, sleeps);
    }
    assert Search(g, config, r).0.slept == g.slept + sleeps;
  }

  /** The answer of a search that reached neither the limiter's refusal nor the cache. */
  lemma SearchAnswers(g: Gateway, config: Config, r: Request)
    requires Breaker.Timed(g.circuit) && !Limited(g, config, r) && !Cached(g, r)
    ensures var (after, answer) := Search(g, config, r);
      var direct := after.fallbackCalls == g.fallbackCalls + 1;
      && (answer.Found? ==>
        && after.cache == g.cache[(r.tenant, r.id) := answer.result]
        && answer.result.query != "" && answer.result.answer != ""
        && answer.result.degraded == direct && answer.result.source == if direct then "direct" else "mcp")
      && (!answer.Found? ==> after.cache == g.cache)
      && (answer.Refused? && answer.failure.retryable ==> direct)
  {
    hide Citations, RetryFrom, Breaker.Execute, FixedWindow.Admits, Delay, OutcomeAt, Strip;
  }

  // ---------- runs of searches ----------

  function Serve(g: Gateway, config: Config, requests: seq<Request>): (after: Gateway)
    requires Breaker.Timed(g.circuit)
    ensures Breaker.Timed(after.circuit)
  {
    if requests == [] then g
    else Search(Serve(g, config, requests[..|requests| - 1]), config, requests[|requests| - 1]).0
  }

  function Answered(g: Gateway, config: Config, requests: seq<Request>, i: nat): Answer
    requires Breaker.Timed(g.circuit) && i < |requests|
  {
    Search(Serve(g, config, requests[..i]), config, requests[i]).1
  }

  lemma SearchRemembers(g: Gateway, config: Config, r: Request)
    requires Breaker.Timed(g.circuit)
    ensures var (after, answer) := Search(g, config, r);
      && (forall key :: key in g.cache ==> key in after.cache && after.cache[key] == g.cache[key])
      && (answer.Found? ==> (r.tenant, r.id) in after.cache && after.cache[(r.tenant, r.id)] == answer.result)
      && (forall key :: key in after.cache && key !in g.cache ==> key == (r.tenant, r.id) && answer.Found?)
  {
    hide CallPrimary, CallFallback, Limited, Validate, Retryable;
    SearchShape(g, config, r);
  }

  /** A search leaves the cache to its conclusion. */
  lemma SearchShape(g: Gateway, config: Config, r: Request)
    requires Breaker.Timed(g.circuit)
    ensures var checked := g.(hits := g.hits + [Hits.Hit(r.tenant, r.times.check)]);
      var (called, outcome) := CallPrimary(checked, config, r);
      called.cache == g.cache && CallFallback(called, r).0.cache == g.cache
  {
    hide RetryCall, Starts, Breaker.Execute, BreakerCall;
  }

  lemma {:induction false} ServeRemembers(g: Gateway, config: Config, requests: seq<Request>, i: nat)
    requires Breaker.Timed(g.circuit) && i <= |requests|
    ensures var before := Serve(g, config, requests[..i]).cache; var after := Serve(g, config, requests).cache;
      forall key :: key in before ==> key in after && after[key] == before[key]
  {
    hide Search;
    if i == |requests| {
      assert requests[..i] == requests;
    } else {
      var front := requests[..|requests| - 1];
      ServeRemembers(g, config, front, i);
      assert front[..i] == requests[..i];
      SearchRemembers(Serve(g, config, front), config, requests[|requests| - 1]);
    }
  }

  /**
   Once a tenant's request has a result, every later search of it is refused by the limiter
   or answered with that result, and reaches neither adapter.
   */
  lemma ResultsAreRepeated(g: Gateway, config: Config, requests: seq<Request>, i: nat, j: nat)
    requires Breaker.Timed(g.circuit) && i < j < |requests|
    requires requests[i].tenant == requests[j].tenant && requests[i].id == requests[j].id
    requires Answered(g, config, requests, i).Found?
    ensures var before := Serve(g, config, requests[..j]); var after := Serve(g, config, requests[..j + 1]);
      && Answered(g, config, requests, j) ==
         (if Limited(before, config, requests[j]) then Refused(RATE_LIMITED) else Answered(g, config, requests, i))
      && after.primaryCalls == before.primaryCalls && after.fallbackCalls == before.fallbackCalls && after.slept == before.slept
  {
    hide Limited, CallPrimary, CallFallback, Conclude;
    ServeOne(g, config, requests, i);
    ServeOne(g, config, requests, j);
    SearchRemembers(Serve(g, config, requests[..i]), config, requests[i]);
    ServeRemembers(g, config, requests[..j], i + 1);
    assert requests[..j][..i + 1] == requests[..i + 1];
  }

  lemma ServeOne(g: Gateway, config: Config, requests: seq<Request>, i: nat)
    requires Breaker.Timed(g.circuit) && i < |requests|
    ensures Serve(g, config, requests[..i + 1]) == Search(Serve(g, config, requests[..i]), config, requests[i]).0
  {
    hide Search;
    assert requests[..i + 1][..i] == requests[..i];
  }

  /** Nothing enters the cache but the result of some search of the same tenant and request. */
  lemma {:induction false} CacheIsEarned(g: Gateway, config: Config, requests: seq<Request>, key: (string, string))
    requires Breaker.Timed(g.circuit) && key !in g.cache && key in Serve(g, config, requests).cache
    ensures exists i: nat ::
      && i < |requests| && (requests[i].tenant, requests[i].id) == key
      && Answered(g, config, requests, i) == Found(Serve(g, config, requests).cache[key])
  {
    hide Search;
    if requests != [] {
      var n := |requests| - 1;
      var front := requests[..n];
      SearchRemembers(Serve(g, config, front), config, requests[n]);
      if key in Serve(g, config, front).cache {
        CacheIsEarned(g, config, front, key);
        var i: nat :| i < |front| && (front[i].tenant, front[i].id) == key
                      && Answered(g, config, front, i) == Found(Serve(g, config, front).cache[key]);
        assert front[..i] == requests[..i];
        assert Answered(g, config, requests, i) == Found(Serve(g, config, requests).cache[key]);
      } else {
        assert Answered(g, config, requests, n) == Found(Serve(g, config, requests).cache[key]);
      }
    }
  }

  /** The searches that reach the breaker, as it sees them. */
  function BreakerCalls(g: Gateway, config: Config, requests: seq<Request>): seq<Breaker.Call>
    requires Breaker.Timed(g.circuit)
  {
    if requests == [] then []
    else
      var front, r := requests[..|requests| - 1], requests[|requests| - 1];
      var before := Serve(g, config, front);
      BreakerCalls(g, config, front) +
      if Limited(before, config, r) || Cached(before, r) then []
      else [BreakerCall(RetryCall(before.primary, r.query, config.policy).outcome, r.times)]
  }

  /** The gateway's breaker is a breaker used only through `execute`, so its theorems hold here. */
  lemma {:induction false} CircuitIsExecuted(config: Config, primary: Script, fallback: Script, requests: seq<Request>)
    ensures var g := New(primary, fallback);
      Serve(g, config, requests).circuit == Breaker.Executed(BreakerCalls(g, config, requests), config.breaker)
  {
    hide Breaker.Execute, Limited, Validate, Retryable, RetryCall, Starts, OutcomeAt;
    var g := New(primary, fallback);
    if requests != [] {
      var front, r := requests[..|requests| - 1], requests[|requests| - 1];
      CircuitIsExecuted(config, primary, fallback, front);
      var before := Serve(g, config, front);
      var calls := BreakerCalls(g, config, front);
      if Limited(before, config, r) || Cached(before, r) {
        assert calls + [] == calls;
      } else {
        var call := BreakerCall(RetryCall(before.primary, r.query, config.policy).outcome, r.times);
        assert (calls + [call])[..|calls|] == calls;
      }
    }
  }
}

/** The gateway object over its adapters, breaker and limiter. */
module GatewayService {
  import opened SearchContract
  import opened Retry
  import opened GatewayRules
  import Breaker
  import FixedWindow

  class ReliableSearchGateway {
    const mcp: ScriptedAdapter
    const direct: ScriptedAdapter
    const breaker: Breaker.CircuitBreaker
    const limiter: FixedWindow.FixedWindowRateLimiter
    const policy: RetryPolicy
    var cache: Cache
    var slept: seq<real>

    constructor (mcp: ScriptedAdapter, direct: ScriptedAdapter, policy: RetryPolicy,
                 breaker: Breaker.CircuitBreaker, limiter: FixedWindow.FixedWindowRateLimiter)
      requires mcp != direct && limiter.Valid() && Breaker.Timed(breaker.Contents())
      ensures this.mcp == mcp && this.direct == direct && this.breaker == breaker && this.limiter == limiter
      ensures this.policy == policy && cache == map[] && slept == [] && Valid()
    {
      this.mcp, this.direct, this.policy, this.breaker, this.limiter := mcp, direct, policy, breaker, limiter;
      cache, slept := map[], [];
    }

    ghost predicate Valid()
      reads this, mcp, direct, breaker, limiter
    {
      mcp != direct && limiter.Valid() && Breaker.Timed(breaker.Contents())
    }

    ghost function Contents(): Gateway
      reads this, mcp, direct, breaker, limiter
    {
      Gateway(breaker.Contents(), limiter.history, cache, mcp.outcomes, mcp.calls, direct.outcomes, direct.calls, slept)
    }

    ghost function Settings(): Config
      reads this, breaker, limiter
    {
      Config(policy, breaker.config, limiter.rule)
    }

    method SearchOnce(r: Request) returns (answer: Answer)
      requires Valid()
      modifies this, mcp, direct, breaker, limiter
      ensures Valid()
      ensures (Contents(), answer) == Search(old(Contents()), Settings(), r)
    {
      hide RetryCall, Validate, FixedWindow.State, FixedWindow.Checked, CallPrimary, Conclude, Breaker.Timed;
      var remaining := limiter.Check(r.tenant, r.times.check);
      if remaining.None? {
        return Refused(RATE_LIMITED);
      }
      if (r.tenant, r.id) in cache {
        return Found(cache[(r.tenant, r.id)]);
      }
      var outcome := Primary(r);
      if outcome.Raised? && outcome.failure.retryable {
        outcome := direct.Search(r.query);
        answer := Finish(r, outcome, "direct", true);
      } else {
        answer := Finish(r, outcome, "mcp", false);
      }
    }

    /** The breaker's `execute` around the retry loop. */
    method Primary(r: Request) returns (outcome: Outcome<Payload>)
      requires Valid()
      modifies this, mcp, breaker
      ensures Valid()
      ensures (Contents(), outcome) == CallPrimary(old(Contents()), Settings(), r)
    {
      hide RetryCall, RetryFrom, FixedWindow.State, FixedWindow.Checked, Strip, Citations;
      hide Breaker.BeforeCall, Breaker.RecordSuccess, Breaker.RecordFailure, Breaker.Timed;
      var starts := breaker.BeforeOperation(r.times.before);
      if !starts {
        return Raised(CIRCUIT_OPEN);
      }
      var sleeps;
      outcome, sleeps := Call(mcp, r.query, policy);
      slept := slept + sleeps;
      if outcome.Raised? {
        breaker.Failed(r.times.after);
      } else if outcome.Returned? {
        breaker.Succeeded();
      }
    }

    method Finish(r: Request, outcome: Outcome<Payload>, source: string, degraded: bool) returns (answer: Answer)
      modifies this`cache
      ensures (Contents(), answer) == Conclude(old(Contents()), r, outcome, source, degraded)
    {
      match outcome
      case Escaped => answer := Broke;
      case Raised(failure) => answer := Refused(failure);
      case Returned(payload) =>
        var result := ValidateSearchResult(payload, source, degraded);
        if result.None? {
          return Refused(CONTRACT_BROKEN);
        }
        cache := cache[(r.tenant, r.id) := result.value];
        answer := Found(result.value);
    }
  }
}
