/** The edges of the status graph, what a cancel does, and how long a retry waits. */
module JobEffects {
  import opened Wrappers
  import opened JobRules
  import opened JobProtocol

  // ---------- the status graph ----------

  /** The moves a job may make. */
  const EDGES: set<(Status, Status)> := {
    (Accepted, Queued), (Accepted, CancelRequested),
    (Queued, Running), (Queued, CancelRequested),
    (Running, Succeeded), (Running, Retrying), (Running, CancelRequested), (Running, Failed), (Running, DeadLettered),
    (Retrying, Queued), (Retrying, CancelRequested), (Retrying, DeadLettered),
    (CancelRequested, Cancelled)}

  predicate Ended(status: Status) {
    status == Cancelled || status == Succeeded || status == Failed || status == DeadLettered
  }

  /** A job moves along these edges and no others, and from an ended status nowhere. */
  lemma MovesAreEdges(j: Job, next: Status, kind: string, change: Change)
    ensures Transition(j, next, kind, change).Ok? <==> (j.status, next) in EDGES
    ensures Transition(j, next, kind, change).Err? ==> Transition(j, next, kind, change).code == 409
    ensures j.status in TERMINAL <==> Ended(j.status)
  {
  }

  /** Each status in a reachable job's log follows the one before along an edge. */
  lemma LogFollowsEdges(policy: RetryPolicy, n: nat, maxAttempts: nat, steps: seq<Step>, i: nat)
    requires maxAttempts >= 1
    requires i + 1 < |Collapse(Reached(policy, n, maxAttempts, steps).job.events)|
    ensures var path := Collapse(Reached(policy, n, maxAttempts, steps).job.events);
      path[0] == Accepted && (path[i], path[i + 1]) in EDGES
  {
    hide Collapse, Run;
    LogExplainsRow(policy, n, maxAttempts, steps);
    var path := Collapse(Reached(policy, n, maxAttempts, steps).job.events);
    assert path[i + 1] in Allowed(path[i]);
  }

  // ---------- cancelling ----------

  /** The row after a cancel that took effect. */
  predicate CancelledRow(j: Job, k: Job) {
    && k.status == CancelRequested && k.cancelRequested
    && k.events == j.events + [Event("job.cancel_requested", CancelRequested)]
    && k.version == j.version + 1 && k.retryDelay == None
    && k == j.(status := k.status, cancelRequested := true, events := k.events, version := k.version, retryDelay := None)
  }

  /** A cancel takes effect on every job that has not ended and is not being cancelled, and on no other. */
  lemma CancelMeans(j: Job)
    ensures if j.status in {Accepted, Queued, Running, Retrying} then CancelledRow(j, RequestCancel(j))
            else RequestCancel(j) == j
  {
  }

  /** Cancelling a job that has not ended: whatever happens afterwards, it ends cancelled if at all. */
  lemma CancelHolds(policy: RetryPolicy, n: nat, maxAttempts: nat, steps: seq<Step>, more: seq<Step>)
    requires maxAttempts >= 1
    requires !Ended(Reached(policy, n, maxAttempts, steps).job.status)
    ensures var j := Run(Apply(Reached(policy, n, maxAttempts, steps), Cancel), more).job;
      j.status in {CancelRequested, Cancelled} && j.result.None?
  {
    hide Run, Inv;
    var s0 := Start(policy, n, maxAttempts);
    var s := Reached(policy, n, maxAttempts, steps);
    CancelMeans(s.job);
    assert (steps + [Cancel])[..|steps|] == steps;
    assert Run(s0, steps + [Cancel]) == Apply(s, Cancel) by { OneMore(s0, steps, Cancel); }
    CancelledNeverSucceeds(policy, n, maxAttempts, steps + [Cancel], more);
  }

  lemma OneMore(s: Sys, steps: seq<Step>, step: Step)
    ensures Run(s, steps + [step]) == Apply(Run(s, steps), step)
  {
    hide Apply;
    assert (steps + [step])[..|steps|] == steps;
  }

  /** The step a worker is busy with. */
  function BusyWith(p: Phase): Option<nat> {
    if p.Work? || p.Keep? then Some(p.i) else None
  }

  /** No output but those in `outputs` and the one of step `busy` is or will be recorded. */
  ghost predicate OnlyOneMore(s: Sys, outputs: Outputs, busy: Option<nat>) {
    && s.job.status in {CancelRequested, Cancelled} && s.job.cancelRequested
    && (forall k :: k in s.job.outputs ==> k in outputs || busy == Some(k))
    && (forall id :: id in s.workers && BusyWith(s.workers[id]).Some? ==> BusyWith(s.workers[id]) == busy)
  }

  lemma NextStopsWork(policy: RetryPolicy, n: nat, j: Job, p: Phase, answer: Answer)
    requires j.status in {CancelRequested, Cancelled} && j.cancelRequested
    ensures var (k, q) := Next(policy, n, j, p, answer);
      && k.status in {CancelRequested, Cancelled} && k.cancelRequested
      && (forall i :: i in k.outputs ==> i in j.outputs || BusyWith(p) == Some(i))
      && (q.Some? && BusyWith(q.value).Some? ==> BusyWith(q.value) == BusyWith(p))
  {
    hide Delay;
  }

  lemma StepStopsWork(s: Sys, x: Step, outputs: Outputs, busy: Option<nat>)
    requires OnlyOneMore(s, outputs, busy)
    ensures OnlyOneMore(Apply(s, x), outputs, busy)
  {
    hide Next;
    match x
    case Advance(id, answer) =>
      if id in s.workers { NextStopsWork(s.policy, s.n, s.job, s.workers[id], answer); }
    case Deliver(id) => NoWorkYet(s.job.status);
    case _ =>
  }

  lemma NoWorkYet(status: Status)
    ensures forall p :: FirstPhase(status) == Some(p) ==> BusyWith(p).None?
  {
  }

  lemma {:induction false} RunStopsWork(s: Sys, steps: seq<Step>, outputs: Outputs, busy: Option<nat>)
    requires OnlyOneMore(s, outputs, busy)
    ensures OnlyOneMore(Run(s, steps), outputs, busy)
  {
    hide OnlyOneMore, Apply;
    if steps != [] {
      RunStopsWork(s, steps[..|steps| - 1], outputs, busy);
      StepStopsWork(Run(s, steps[..|steps| - 1]), steps[|steps| - 1], outputs, busy);
    }
  }

  /** After a cancel at most the step in progress is recorded; no other is started. */
  lemma CancelStopsWork(policy: RetryPolicy, n: nat, maxAttempts: nat, steps: seq<Step>, more: seq<Step>)
    returns (busy: Option<nat>)
    requires maxAttempts >= 1
    requires !Ended(Reached(policy, n, maxAttempts, steps).job.status)
    ensures var s := Reached(policy, n, maxAttempts, steps);
      && (busy.Some? ==> exists id :: id in s.workers && BusyWith(s.workers[id]) == busy)
      && forall k :: k in Run(Apply(s, Cancel), more).job.outputs ==> k in s.job.outputs || busy == Some(k)
  {
    hide Run, Next;
    var s := Reached(policy, n, maxAttempts, steps);
    ReachedInv(policy, n, maxAttempts, steps);
    CancelMeans(s.job);
    OneBusy(s);
    busy := None;
    if id :| id in s.workers && BusyWith(s.workers[id]).Some? {
      busy := BusyWith(s.workers[id]);
    }
    CancelIsSet(s);
    RunStopsWork(Apply(s, Cancel), more, s.job.outputs, busy);
  }

  lemma OneBusy(s: Sys)
    requires Inv(s)
    ensures forall a, b | a in s.workers && b in s.workers ::
      BusyWith(s.workers[a]).Some? && BusyWith(s.workers[b]).Some? ==> a == b
  {
    hide JobOk, PhaseOk;
  }

  lemma CancelIsSet(s: Sys)
    requires Inv(s) && !Ended(s.job.status)
    ensures var j := Apply(s, Cancel).job; j.status == CancelRequested && j.cancelRequested && j.outputs == s.job.outputs
  {
    hide LogExplains, PhaseOk;
  }

  // ---------- the log, entry by entry ----------

  /** What is logged for a move to a status, after the job was queued. */
  function KindOf(status: Status): string {
    match status
    case Accepted => "job.accepted"
    case Queued => "worker.requeued"
    case Running => "worker.started"
    case Retrying => "worker.retry_scheduled"
    case CancelRequested => "job.cancel_requested"
    case Cancelled => "worker.cancelled"
    case Succeeded => "worker.succeeded"
    case Failed => "worker.failed"
    case DeadLettered => "worker.dead_lettered"
  }

  /** An entry tells of a checkpoint, under the status before, or of a move along an edge. */
  predicate Tells(before: Event, e: Event) {
    if e.kind == "workflow.checkpoint" then e.status == before.status
    else e.kind == KindOf(e.status) && (before.status, e.status) in EDGES
  }

  ghost predicate LogTells(j: Job) {
    && |j.events| >= 2 && j.version + 1 == |j.events|
    && j.events[0] == Event("job.accepted", Accepted) && j.events[1] == Event("job.queued", Queued)
    && (forall i, k | 2 <= k < |j.events| && i == k - 1 :: Tells(j.events[i], j.events[k]))
    && j.events[|j.events| - 1].status == j.status
  }

  /** A logged change, with its entry and its version. */
  lemma TellsOneMore(j: Job, k: Job, e: Event)
    requires LogTells(j) && k.events == j.events + [e] && k.version == j.version + 1 && k.status == e.status
    requires Tells(Event("", j.status), e)
    ensures LogTells(k)
  {
    hide KindOf;
    forall i, m | 2 <= m < |k.events| && i == m - 1 ensures Tells(k.events[i], k.events[m]) {
      if m < |j.events| { assert Tells(j.events[i], j.events[m]); }
    }
  }

  lemma TransitionTells(j: Job, next: Status, change: Change)
    requires LogTells(j) && Transition(j, next, KindOf(next), change).Ok?
    ensures LogTells(Transition(j, next, KindOf(next), change).value)
  {
    hide LogTells, KindOf;
    MovesAreEdges(j, next, KindOf(next), change);
    KindsAreMoves(next);
    TellsOneMore(j, Transition(j, next, KindOf(next), change).value, Event(KindOf(next), next));
  }

  lemma KindsAreMoves(status: Status)
    ensures KindOf(status) != "workflow.checkpoint"
  {
    assert |"workflow.checkpoint"| == 19 && |KindOf(status)| != 19;
  }

  lemma NextTells(policy: RetryPolicy, n: nat, j: Job, p: Phase, answer: Answer)
    requires LogTells(j)
    ensures LogTells(Next(policy, n, j, p, answer).0)
  {
    hide LogTells, Delay, Transition;
    match p
    case CancelSeen => MoveTells(j, Cancelled, PLAIN);
    case Requeue => MoveTells(j, Queued, PLAIN);
    case Begin => if j.status == Queued { BeginTells(j); }
    case CancelInLoop => MoveTells(j, Cancelled, PLAIN);
    case Keep(i, _, _, output) => RecordTells(j, i, output);
    case Save(i, _, _) => SaveTells(j, i + 1);
    case Finish(_, prior) => MoveTells(j, Succeeded, Change(Some(prior), None, None));
    case GiveUp => MoveTells(j, DeadLettered, Change(None, Some("transient"), None));
    case Retry => MoveTells(j, Retrying, Change(None, Some("transient"), Some(Delay(policy, j.attempts))));
    case Fail => MoveTells(j, Failed, Change(None, Some("permanent"), None));
    case _ =>
  }

  lemma MoveTells(j: Job, next: Status, change: Change)
    requires LogTells(j)
    ensures LogTells(Then(j, Transition(j, next, KindOf(next), change), None).0)
  {
    hide LogTells, Transition;
    if Transition(j, next, KindOf(next), change).Ok? { TransitionTells(j, next, change); }
  }

  lemma BeginTells(j: Job)
    requires LogTells(j) && j.status == Queued
    ensures LogTells(BeginAttempt(j).value)
  {
    hide LogTells;
    KindsAreMoves(Running);
    TellsOneMore(j, BeginAttempt(j).value, Event("worker.started", Running));
  }

  lemma SaveTells(j: Job, index: nat)
    requires LogTells(j)
    ensures LogTells(SaveCheckpoint(j, index))
  {
    hide LogTells;
    TellsOneMore(j, SaveCheckpoint(j, index), Event("workflow.checkpoint", j.status));
  }

  lemma RecordTells(j: Job, i: nat, output: Output)
    requires LogTells(j)
    ensures LogTells(RecordOnce(j, i, output))
  {
    assert RecordOnce(j, i, output).events == j.events;
  }

  /** In every run each entry tells of the change that made it, and the version counts the changes. */
  lemma {:induction false} LogTellsAll(policy: RetryPolicy, n: nat, maxAttempts: nat, steps: seq<Step>)
    ensures LogTells(Reached(policy, n, maxAttempts, steps).job)
  {
    hide LogTells, Next, Transition;
    if steps == [] {
      assert LogTells(Open(maxAttempts)) by { OpenTells(maxAttempts); }
    } else {
      var front, x := steps[..|steps| - 1], steps[|steps| - 1];
      var s := Reached(policy, n, maxAttempts, front);
      LogTellsAll(policy, n, maxAttempts, front);
      if x.Advance? && x.id in s.workers {
        PolicyFixed(Start(policy, n, maxAttempts), front);
        NextTells(policy, n, s.job, s.workers[x.id], x.answer);
      } else if x.Cancel? {
        MoveTells(s.job, CancelRequested, PLAIN);
      }
    }
  }

  lemma OpenTells(maxAttempts: nat)
    ensures LogTells(Open(maxAttempts))
  {
  }

  lemma {:induction false} PolicyFixed(s: Sys, steps: seq<Step>)
    ensures Run(s, steps).policy == s.policy && Run(s, steps).n == s.n
  {
    hide Next, RequestCancel;
    if steps != [] { PolicyFixed(s, steps[..|steps| - 1]); }
  }

  // ---------- the time between attempts ----------

  /** A waiting job's delay is the base doubled once for every attempt after the first, up to the cap. */
  lemma RetryDelayDoubles(policy: RetryPolicy, n: nat, maxAttempts: nat, steps: seq<Step>)
    requires maxAttempts >= 1 && policy.baseDelay >= 0.0
    requires Reached(policy, n, maxAttempts, steps).job.status == Retrying
    ensures var j := Reached(policy, n, maxAttempts, steps).job;
      j.attempts >= 1 && j.retryDelay == Some(Doubled(policy.baseDelay, policy.maxDelay, j.attempts - 1))
  {
    hide Delay, Run;
    RunDelays(policy, n, maxAttempts, steps);
    DelayDoubles(policy, Reached(policy, n, maxAttempts, steps).job.attempts);
  }

  lemma DelayDoubles(policy: RetryPolicy, attempts: nat)
    requires attempts >= 1 && policy.baseDelay >= 0.0
    ensures Delay(policy, attempts) == Doubled(policy.baseDelay, policy.maxDelay, attempts - 1)
  {
    BackoffIsDoubled(policy.baseDelay, policy.maxDelay, attempts - 1);
  }

  predicate DelayOk(policy: RetryPolicy, j: Job) {
    j.status == Retrying ==> j.attempts >= 1 && j.retryDelay == Some(Delay(policy, j.attempts))
  }

  lemma {:induction false} RunDelays(policy: RetryPolicy, n: nat, maxAttempts: nat, steps: seq<Step>)
    requires maxAttempts >= 1
    ensures DelayOk(policy, Reached(policy, n, maxAttempts, steps).job)
  {
    hide Delay, Inv, Next, RequestCancel;
    if steps != [] {
      var front, x := steps[..|steps| - 1], steps[|steps| - 1];
      var s := Reached(policy, n, maxAttempts, front);
      RunDelays(policy, n, maxAttempts, front);
      ReachedInv(policy, n, maxAttempts, front);
      StartInv(policy, n, maxAttempts);
      RunKeeps(Start(policy, n, maxAttempts), front);
      RunningCounts(s);
      if x.Advance? && x.id in s.workers {
        NextDelays(policy, n, s.job, s.workers[x.id], x.answer);
      } else if x.Cancel? {
        CancelMeans(s.job);
      }
    }
  }

  /** A job that runs has counted its attempt. */
  lemma RunningCounts(s: Sys)
    requires Inv(s)
    ensures s.job.status == Running ==> s.job.attempts >= 1
  {
    hide PhaseOk;
    if s.job.status == Running {
      var path := Collapse(s.job.events);
      assert path[|path| - 1] == Running;
    }
  }

  lemma NextDelays(policy: RetryPolicy, n: nat, j: Job, p: Phase, answer: Answer)
    requires DelayOk(policy, j) && (j.status == Running ==> j.attempts >= 1)
    ensures DelayOk(policy, Next(policy, n, j, p, answer).0)
  {
    hide Delay;
  }
}
