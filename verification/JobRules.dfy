/** The durable job row, its status graph and the store's transactions on it. */
module JobRules {
  import opened Wrappers

  datatype Status =
    | Accepted | Queued | Running | Retrying | CancelRequested
    | Cancelled | Succeeded | Failed | DeadLettered

  const TERMINAL: set<Status> := {Cancelled, Succeeded, Failed, DeadLettered}

  function Allowed(from: Status): set<Status> {
    match from
    case Accepted => {Queued, CancelRequested}
    case Queued => {Running, CancelRequested}
    case Running => {Succeeded, Retrying, CancelRequested, Failed, DeadLettered}
    case Retrying => {Queued, CancelRequested, DeadLettered}
    case CancelRequested => {Cancelled}
    case _ => {}
  }

  datatype Event = Event(kind: string, status: Status)

  /** Step outputs are opaque; a result is what the last run of the pipeline remembered. */
  type Output = nat
  type Outputs = map<nat, Output>

  datatype Job = Job(
    status: Status, attempts: nat, maxAttempts: nat, checkpoint: nat, cancelRequested: bool,
    retryDelay: Option<real>, result: Option<Outputs>, error: Option<string>, version: nat,
    events: seq<Event>, outputs: Outputs)

  function Log(j: Job, kind: string, status: Status): Job {
    j.(events := j.events + [Event(kind, status)])
  }

  /** Accepted and queued in one transaction. */
  function Open(maxAttempts: nat): Job {
    var j := Job(Queued, 0, maxAttempts, 0, false, None, None, None, 1, [], map[]);
    Log(Log(j, "job.accepted", Accepted), "job.queued", Queued)
  }

  datatype Change = Change(result: Option<Outputs>, error: Option<string>, retryDelay: Option<real>)

  const PLAIN: Change := Change(None, None, None)

  function Coalesce<T>(a: Option<T>, b: Option<T>): Option<T> {
    if a.Some? then a else b
  }

  predicate MayMove(from: Status, to: Status) {
    from !in TERMINAL && to in Allowed(from)
  }

  function Transition(j: Job, next: Status, kind: string, change: Change): Result<Job> {
    if !MayMove(j.status, next) then Err(409)
    else
      var moved := j.(status := next,
                      cancelRequested := j.cancelRequested || next == CancelRequested,
                      result := Coalesce(change.result, j.result),
                      error := Coalesce(change.error, j.error),
                      retryDelay := change.retryDelay,
                      version := j.version + 1);
      Ok(Log(moved, kind, next))
  }

  function BeginAttempt(j: Job): Result<Job> {
    if j.status != Queued then Err(409)
    else
      var begun := j.(status := Running, attempts := j.attempts + 1, version := j.version + 1);
      Ok(Log(begun, "worker.started", Running))
  }

  /** A checkpoint is saved whatever the status is. */
  function SaveCheckpoint(j: Job, index: nat): Job {
    Log(j.(checkpoint := index, version := j.version + 1), "workflow.checkpoint", j.status)
  }

  function RecordOnce(j: Job, step: nat, output: Output): Job {
    if step in j.outputs then j else j.(outputs := j.outputs[step := output])
  }

  /** A cancel reads the row, then tries to move it; a lost race changes nothing. */
  function RequestCancel(j: Job): Job {
    if j.status in TERMINAL || j.status == CancelRequested then j
    else
      match Transition(j, CancelRequested, "job.cancel_requested", PLAIN)
      case Ok(moved) => moved
      case Err(_) => j
  }

  datatype RetryPolicy = RetryPolicy(baseDelay: real, maxDelay: real)

  const DEFAULT_POLICY: RetryPolicy := RetryPolicy(1.0, 30.0)

  function Delay(policy: RetryPolicy, attempts: nat): real {
    Backoff(policy.baseDelay, policy.maxDelay, if attempts >= 1 then attempts - 1 else 0)
  }

  // ---------- the event log ----------

  /** The statuses of a log with immediate repeats removed. */
  function Collapse(events: seq<Event>): seq<Status> {
    if events == [] then []
    else
      var front := Collapse(events[..|events| - 1]);
      var last := events[|events| - 1].status;
      if front != [] && front[|front| - 1] == last then front else front + [last]
  }

  ghost predicate IsPath(path: seq<Status>) {
    forall i, j | 0 <= i && j == i + 1 && j < |path| :: path[j] in Allowed(path[i])
  }

  function Count(path: seq<Status>, status: Status): nat {
    if path == [] then 0
    else Count(path[..|path| - 1], status) + if path[|path| - 1] == status then 1 else 0
  }

  /** The log tells the whole story of the row. */
  ghost predicate LogExplains(j: Job) {
    var path := Collapse(j.events);
    && |path| >= 2 && path[0] == Accepted && path[1] == Queued
    && path[|path| - 1] == j.status
    && IsPath(path)
    && Count(path, Running) == j.attempts
    && (j.cancelRequested <==> CancelRequested in path)
  }

  lemma OpenExplains(maxAttempts: nat)
    ensures LogExplains(Open(maxAttempts))
  {
    var events := Open(maxAttempts).events;
    assert events[..1] == [events[0]];
    assert events[..1][..0] == [];
    assert Collapse(events[..1]) == [Accepted];
    assert Collapse(events) == [Accepted, Queued];
    assert [Accepted, Queued][..1] == [Accepted] && [Accepted][..0] == [];
  }

  lemma Collapses(events: seq<Event>, e: Event)
    ensures Collapse(events + [e]) ==
      var front := Collapse(events);
      if front != [] && front[|front| - 1] == e.status then front else front + [e.status]
  {
    assert (events + [e])[..|events|] == events;
  }

  lemma CountMore(path: seq<Status>, more: Status, status: Status)
    ensures Count(path + [more], status) == Count(path, status) + if more == status then 1 else 0
  {
    assert (path + [more])[..|path|] == path;
  }

  /** Logging a real move extends the story; logging the current status again does not. */
  lemma LogKeeps(j: Job, k: Job, kind: string)
    requires LogExplains(j) && k.events == j.events + [Event(kind, k.status)]
    requires k.status == j.status || k.status in Allowed(j.status)
    requires k.attempts == j.attempts + if k.status == Running && j.status != Running then 1 else 0
    requires k.cancelRequested <==> j.cancelRequested || k.status == CancelRequested
    ensures LogExplains(k)
  {
    hide Allowed, Collapse, Count;
    var path := Collapse(j.events);
    Collapses(j.events, Event(kind, k.status));
    if k.status != j.status {
      CountMore(path, k.status, Running);
    } else {
      assert path[|path| - 1] in path;
    }
  }
}
