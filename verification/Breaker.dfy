/** The circuit breaker, compared with what its call history alone says it should be. */
module Breaker {
  import opened Wrappers

  datatype State = Closed | Open | HalfOpen
  datatype Config = Config(threshold: int, timeout: real)

  /** `moves` are the circuit.transition events. */
  datatype Circuit = Circuit(state: State, failures: nat, openedAt: Option<real>, moves: seq<(State, State)>)

  const INITIAL: Circuit := Circuit(Closed, 0, None, [])

  predicate Timed(c: Circuit) {
    c.state != Closed ==> c.openedAt.Some?
  }

  function Move(c: Circuit, to: State): Circuit {
    c.(state := to, moves := c.moves + [(c.state, to)])
  }

  /** The circuit afterwards, and whether the operation may start. */
  function BeforeCall(c: Circuit, config: Config, now: real): (r: (Circuit, bool))
    requires Timed(c)
    ensures Timed(r.0)
  {
    if c.state != Open then (c, true)
    else if now - c.openedAt.value >= config.timeout then (Move(c, HalfOpen), true)
    else (c, false)
  }

  function RecordSuccess(c: Circuit): (d: Circuit)
    ensures Timed(d)
  {
    var reset := c.(failures := 0, openedAt := None);
    if c.state != Closed then Move(reset, Closed) else reset
  }

  function RecordFailure(c: Circuit, config: Config, now: real): (d: Circuit)
    ensures Timed(c) ==> Timed(d)
  {
    var counted := c.(failures := c.failures + 1);
    if c.state == HalfOpen || counted.failures >= config.threshold then
      var timed := counted.(openedAt := Some(now));
      if c.state != Open then Move(timed, Open) else timed
    else counted
  }

  // ---------- any interleaving of the three methods ----------

  datatype Op = Before(now: real) | Success | Failure(now: real)

  function Apply(c: Circuit, config: Config, op: Op): (d: Circuit)
    requires Timed(c)
    ensures Timed(d)
  {
    match op
    case Before(now) => BeforeCall(c, config, now).0
    case Success => RecordSuccess(c)
    case Failure(now) => RecordFailure(c, config, now)
  }

  function Replay(h: seq<Op>, config: Config): (c: Circuit)
    ensures Timed(c)
  {
    if h == [] then INITIAL else Apply(Replay(h[..|h| - 1], config), config, h[|h| - 1])
  }

  /** The failures recorded since the last success. */
  function TrailingFailures(h: seq<Op>): nat {
    if h == [] then 0
    else
      match h[|h| - 1]
      case Before(_) => TrailingFailures(h[..|h| - 1])
      case Success => 0
      case Failure(_) => TrailingFailures(h[..|h| - 1]) + 1
  }

  /** When the latest of them was recorded. */
  function LastFailure(h: seq<Op>): Option<real> {
    if h == [] then None
    else
      match h[|h| - 1]
      case Before(_) => LastFailure(h[..|h| - 1])
      case Success => None
      case Failure(now) => Some(now)
  }

  predicate Tripped(h: seq<Op>, config: Config) {
    TrailingFailures(h) >= 1 && TrailingFailures(h) >= config.threshold
  }

  /** Since the latest failure, a call came after the recovery timeout. */
  predicate Probed(h: seq<Op>, config: Config) {
    h != [] && h[|h| - 1].Before?
    && (Probed(h[..|h| - 1], config)
        || (LastFailure(h[..|h| - 1]).Some? && h[|h| - 1].now - LastFailure(h[..|h| - 1]).value >= config.timeout))
  }

  lemma {:induction false} FailuresAreTimed(h: seq<Op>)
    ensures LastFailure(h).Some? <==> TrailingFailures(h) >= 1
  {
    if h != [] { FailuresAreTimed(h[..|h| - 1]); }
  }

  /** The breaker is a function of its history, whatever the threshold. */
  lemma {:induction false} BreakerIsItsHistory(h: seq<Op>, config: Config)
    ensures var c := Replay(h, config);
      && c.failures == TrailingFailures(h)
      && c.state == (if !Tripped(h, config) then Closed else if Probed(h, config) then HalfOpen else Open)
      && c.openedAt == if Tripped(h, config) then LastFailure(h) else None
  {
    if h != [] {
      BreakerIsItsHistory(h[..|h| - 1], config);
      FailuresAreTimed(h[..|h| - 1]);
    }
  }

  // ---------- when a call may start ----------

  function LastReading(h: seq<Op>): Option<real> {
    if h == [] then None
    else if h[|h| - 1].Success? then LastReading(h[..|h| - 1])
    else Some(h[|h| - 1].now)
  }

  predicate ClockRises(h: seq<Op>) {
    h == []
    || (ClockRises(h[..|h| - 1])
        && (!h[|h| - 1].Success? && LastReading(h[..|h| - 1]).Some? ==> LastReading(h[..|h| - 1]).value <= h[|h| - 1].now))
  }

  lemma {:induction false} ProbedLate(h: seq<Op>, config: Config)
    requires ClockRises(h) && Probed(h, config)
    ensures LastFailure(h).Some? && LastReading(h).Some? && LastReading(h).value - LastFailure(h).value >= config.timeout
  {
    var front := h[..|h| - 1];
    if Probed(front, config) {
      ProbedLate(front, config);
    }
  }

  /** A call starts iff too few failures are trailing or the timeout has passed since the latest one. */
  lemma StartsIff(h: seq<Op>, config: Config, now: real)
    requires ClockRises(h + [Before(now)])
    ensures BeforeCall(Replay(h, config), config, now).1 <==>
      !Tripped(h, config) || (LastFailure(h).Some? && now - LastFailure(h).value >= config.timeout)
  {
    var g := h + [Before(now)];
    assert g[..|g| - 1] == h;
    BreakerIsItsHistory(h, config);
    FailuresAreTimed(h);
    if Probed(h, config) {
      ProbedLate(h, config);
    }
  }

  // ---------- calls through `execute` ----------

  datatype Ending = Returned | Raised(after: real) | Escaped
  datatype Call = Call(before: real, ending: Ending)

  /** The methods one call of `execute` goes through. */
  function CallOps(c: Circuit, config: Config, call: Call): seq<Op>
    requires Timed(c)
  {
    [Before(call.before)] +
    if !BeforeCall(c, config, call.before).1 then []
    else
      match call.ending
      case Returned => [Success]
      case Raised(after) => [Failure(after)]
      case Escaped => []
  }

  function Execute(c: Circuit, config: Config, call: Call): (d: Circuit)
    requires Timed(c)
    ensures Timed(d)
  {
    var (ready, starts) := BeforeCall(c, config, call.before);
    if !starts then ready
    else
      match call.ending
      case Returned => RecordSuccess(ready)
      case Raised(after) => RecordFailure(ready, config, after)
      case Escaped => ready
  }

  function Executed(calls: seq<Call>, config: Config): (c: Circuit)
    ensures Timed(c)
  {
    if calls == [] then INITIAL else Execute(Executed(calls[..|calls| - 1], config), config, calls[|calls| - 1])
  }

  function OpsOf(calls: seq<Call>, config: Config): seq<Op> {
    if calls == [] then []
    else
      OpsOf(calls[..|calls| - 1], config) + CallOps(Executed(calls[..|calls| - 1], config), config, calls[|calls| - 1])
  }

  lemma ReplayOne(h: seq<Op>, config: Config, op: Op)
    ensures Replay(h + [op], config) == Apply(Replay(h, config), config, op)
  {
    hide Apply;
    assert (h + [op])[..|h|] == h;
  }

  /** Calls through `execute` are histories of the three methods. */
  lemma {:induction false} ExecutedIsReplayed(calls: seq<Call>, config: Config)
    ensures Executed(calls, config) == Replay(OpsOf(calls, config), config)
  {
    hide Replay, RecordSuccess, RecordFailure;
    if calls == [] {
      ReplayNothing(config);
    } else {
      var front, call := calls[..|calls| - 1], calls[|calls| - 1];
      ExecutedIsReplayed(front, config);
      var h, c := OpsOf(front, config), Executed(front, config);
      var ops := CallOps(c, config, call);
      ReplayOne(h, config, Before(call.before));
      if |ops| == 1 {
        assert h + ops == h + [Before(call.before)];
      } else {
        ReplayOne(h + [Before(call.before)], config, ops[1]);
        assert h + ops == h + [Before(call.before)] + [ops[1]];
      }
    }
  }

  lemma ReplayNothing(config: Config)
    ensures Replay([], config) == INITIAL
  {
  }

  /** Transitions start at closed, each where the one before ended, and end at the current state. */
  ghost predicate LinkedWalk(c: Circuit) {
    && (forall k | 0 <= k < |c.moves| ::
      c.moves[k] in {(Closed, Open), (Open, HalfOpen), (HalfOpen, Closed), (HalfOpen, Open)})
    && (forall i, j | 0 <= i && j == i + 1 && j < |c.moves| :: c.moves[i].1 == c.moves[j].0)
    && (c.moves != [] ==> c.moves[0].0 == Closed)
    && c.state == if c.moves == [] then Closed else c.moves[|c.moves| - 1].1
  }

  lemma MoveWalks(c: Circuit, to: State)
    requires LinkedWalk(c) && (c.state, to) in {(Closed, Open), (Open, HalfOpen), (HalfOpen, Closed), (HalfOpen, Open)}
    ensures LinkedWalk(Move(c, to))
  {
  }

  lemma SameWalk(c: Circuit, d: Circuit)
    requires LinkedWalk(c) && d.state == c.state && d.moves == c.moves
    ensures LinkedWalk(d)
  {
  }

  /** Calls move the breaker only along closed, open, half-open, then closed or open again. */
  lemma {:induction false} CallsWalk(calls: seq<Call>, config: Config)
    ensures LinkedWalk(Executed(calls, config))
  {
    if calls == [] {
    } else {
      var front, call := calls[..|calls| - 1], calls[|calls| - 1];
      CallsWalk(front, config);
      ExecuteWalks(Executed(front, config), config, call);
    }
  }

  lemma ExecuteWalks(c: Circuit, config: Config, call: Call)
    requires Timed(c) && LinkedWalk(c)
    ensures LinkedWalk(Execute(c, config, call))
  {
    hide LinkedWalk;
    var (ready, starts) := BeforeCall(c, config, call.before);
    if ready != c { MoveWalks(c, HalfOpen); }
    if starts && call.ending.Returned? {
      var reset := ready.(failures := 0, openedAt := None);
      SameWalk(ready, reset);
      if ready.state != Closed { MoveWalks(reset, Closed); }
    } else if starts && call.ending.Raised? {
      var counted := ready.(failures := ready.failures + 1);
      SameWalk(ready, counted);
      var timed := counted.(openedAt := Some(call.ending.after));
      SameWalk(ready, timed);
      if ready.state != Open { MoveWalks(timed, Open); }
    }
  }

  class CircuitBreaker {
    var state: State
    var consecutiveFailures: nat
    var openedAt: Option<real>
    var moves: seq<(State, State)>
    const config: Config

    constructor (config: Config)
      ensures Contents() == INITIAL && this.config == config
    {
      state, consecutiveFailures, openedAt, moves := Closed, 0, None, [];
      this.config := config;
    }

    ghost function Contents(): Circuit
      reads this
    {
      Circuit(state, consecutiveFailures, openedAt, moves)
    }

    method Transition(to: State)
      modifies this`state, this`moves
      ensures Contents() == Move(old(Contents()), to)
    {
      var previous := state;
      state := to;
      moves := moves + [(previous, to)];
    }

    /** Raises CircuitOpenError when it returns false. */
    method BeforeOperation(now: real) returns (starts: bool)
      requires Timed(Contents())
      modifies this`state, this`moves
      ensures (Contents(), starts) == BeforeCall(old(Contents()), config, now)
    {
      starts := true;
      if state == Open {
        if now - openedAt.value >= config.timeout {
          Transition(HalfOpen);
        } else {
          starts := false;
        }
      }
    }

    method Succeeded()
      modifies this
      ensures Contents() == RecordSuccess(old(Contents()))
    {
      consecutiveFailures := 0;
      openedAt := None;
      if state != Closed {
        Transition(Closed);
      }
    }

    method Failed(now: real)
      modifies this
      ensures Contents() == RecordFailure(old(Contents()), config, now)
    {
      consecutiveFailures := consecutiveFailures + 1;
      if state == HalfOpen || consecutiveFailures >= config.threshold {
        openedAt := Some(now);
        if state != Open {
          Transition(Open);
        }
      }
    }
  }
}
