/**
 One job under any number of workers.  Deliveries may repeat, workers may stop
 anywhere, cancels may arrive at any time.  Each read or transaction of
 Worker.process is one step.  `n` is the number of pipeline steps, whose names are
 taken to be distinct; outputs are indexed by step.
 */
module JobProtocol {
  import opened Wrappers
  import opened JobRules

  /** Where a worker is inside `process`; `start` is the checkpoint its attempt began at. */
  datatype Phase =
    | CancelSeen
    | Requeue
    | Begin
    | Check(i: nat, start: nat, prior: Outputs)
    | CancelInLoop
    | Work(i: nat, start: nat, prior: Outputs)
    | Keep(i: nat, start: nat, prior: Outputs, output: Output)
    | Save(i: nat, start: nat, prior: Outputs)
    | Finish(start: nat, prior: Outputs)
    | Caught
    | GiveUp
    | Retry
    | Fail

  datatype Answer = Produced(output: Output) | TransientFailure | PermanentFailure | WorkerLost

  datatype Sys = Sys(policy: RetryPolicy, n: nat, job: Job, workers: map<nat, Phase>)

  datatype Step =
    | Deliver(id: nat)
    | Advance(id: nat, answer: Answer)
    | Kill(id: nat)
    | Cancel

  function Start(policy: RetryPolicy, n: nat, maxAttempts: nat): Sys {
    Sys(policy, n, Open(maxAttempts), map[])
  }

  /** What a delivery leads to, from the status it reads. */
  function FirstPhase(status: Status): Option<Phase> {
    match status
    case CancelRequested => Some(CancelSeen)
    case Retrying => Some(Requeue)
    case Queued => Some(Begin)
    case Running => Some(Begin)
    case _ => None
  }

  /** A transaction that may be refused: the worker goes on only when it commits. */
  function Then(j: Job, r: Result<Job>, next: Option<Phase>): (Job, Option<Phase>) {
    match r
    case Ok(moved) => (moved, next)
    case Err(_) => (j, None)
  }

  /** The next read or transaction of a worker in phase `p`; None ends its run. */
  function Next(policy: RetryPolicy, n: nat, j: Job, p: Phase, answer: Answer): (Job, Option<Phase>) {
    match p
    case CancelSeen => Then(j, Transition(j, Cancelled, "worker.cancelled", PLAIN), None)
    case Requeue => Then(j, Transition(j, Queued, "worker.requeued", PLAIN), Some(Begin))
    case Begin =>
      Then(j, BeginAttempt(j), Some(Check(j.checkpoint, j.checkpoint, map[])))
    case Check(i, start, prior) =>
      if i >= n then (j, Some(Finish(start, prior)))
      else if j.cancelRequested || j.status == CancelRequested then (j, Some(CancelInLoop))
      else (j, Some(Work(i, start, prior)))
    case CancelInLoop => Then(j, Transition(j, Cancelled, "worker.cancelled", PLAIN), None)
    case Work(i, start, prior) =>
      if i in j.outputs then (j, Some(Save(i, start, prior[i := j.outputs[i]])))
      else
        (match answer
         case Produced(output) => (j, Some(Keep(i, start, prior, output)))
         case TransientFailure => (j, Some(Caught))
         case PermanentFailure => (j, Some(Fail))
         case WorkerLost => (j, None))
    case Keep(i, start, prior, output) => (RecordOnce(j, i, output), Some(Save(i, start, prior[i := output])))
    case Save(i, start, prior) => (SaveCheckpoint(j, i + 1), Some(Check(i + 1, start, prior)))
    case Finish(start, prior) =>
      Then(j, Transition(j, Succeeded, "worker.succeeded", Change(Some(prior), None, None)), None)
    case Caught => (j, Some(if j.attempts >= j.maxAttempts then GiveUp else Retry))
    case GiveUp =>
      Then(j, Transition(j, DeadLettered, "worker.dead_lettered", Change(None, Some("transient"), None)), None)
    case Retry =>
      Then(j, Transition(j, Retrying, "worker.retry_scheduled",
                         Change(None, Some("transient"), Some(Delay(policy, j.attempts)))), None)
    case Fail => Then(j, Transition(j, Failed, "worker.failed", Change(None, Some("permanent"), None)), None)
  }

  function Apply(s: Sys, step: Step): Sys {
    match step
    case Deliver(id) =>
      if id !in s.workers && FirstPhase(s.job.status).Some?
      then s.(workers := s.workers[id := FirstPhase(s.job.status).value]) else s
    case Advance(id, answer) =>
      if id in s.workers then
        var (j, next) := Next(s.policy, s.n, s.job, s.workers[id], answer);
        s.(job := j, workers := if next.Some? then s.workers[id := next.value] else s.workers - {id})
      else s
    case Kill(id) => s.(workers := s.workers - {id})
    case Cancel => s.(job := RequestCancel(s.job))
  }

  function Run(s: Sys, steps: seq<Step>): Sys {
    if steps == [] then s else Apply(Run(s, steps[..|steps| - 1]), steps[|steps| - 1])
  }

  // ---------- the invariant ----------

  /** Between its begin_attempt and its last transaction. */
  predicate Active(p: Phase) {
    !(p.CancelSeen? || p.Requeue? || p.Begin?)
  }

  /** What a worker remembers is what was recorded, from its starting checkpoint on. */
  ghost predicate Remembers(prior: Outputs, outputs: Outputs, start: nat, i: nat) {
    && (forall k :: k in prior <==> start <= k < i)
    && (forall k :: k in prior ==> k in outputs && prior[k] == outputs[k])
  }

  ghost predicate PhaseOk(p: Phase, n: nat, j: Job) {
    match p
    case Check(i, start, prior) => start <= i == j.checkpoint && Remembers(prior, j.outputs, start, i)
    case Work(i, start, prior) => start <= i == j.checkpoint && i < n && Remembers(prior, j.outputs, start, i)
    case Keep(i, start, prior, _) =>
      start <= i == j.checkpoint && i < n && i !in j.outputs && Remembers(prior, j.outputs, start, i)
    case Save(i, start, prior) => start <= i == j.checkpoint && i < n && Remembers(prior, j.outputs, start, i + 1)
    case Finish(start, prior) => start <= n == j.checkpoint && Remembers(prior, j.outputs, start, n)
    case GiveUp => j.attempts >= j.maxAttempts
    case Retry => j.attempts < j.maxAttempts
    case _ => true
  }

  ghost predicate JobOk(j: Job, n: nat) {
    && LogExplains(j)
    && j.attempts <= j.maxAttempts
    && (j.status == Queued || j.status == Retrying ==> j.attempts < j.maxAttempts)
    && (j.status == DeadLettered ==> j.attempts == j.maxAttempts)
    && (j.status != Accepted)
    && (j.cancelRequested <==> j.status in {CancelRequested, Cancelled})
    && j.checkpoint <= n
    && (forall k :: 0 <= k < j.checkpoint ==> k in j.outputs)
    && (j.result.Some? <==> j.status == Succeeded)
    && (j.status == Succeeded ==>
      j.checkpoint == n && exists start: nat :: start <= n && Remembers(j.result.value, j.outputs, start, n))
  }

  ghost predicate WorkersOk(s: Sys) {
    && (forall id :: id in s.workers && Active(s.workers[id]) ==>
      s.job.status in {Running, CancelRequested, Cancelled} && PhaseOk(s.workers[id], s.n, s.job))
    && (forall a, b :: a in s.workers && b in s.workers && Active(s.workers[a]) && Active(s.workers[b]) ==> a == b)
  }

  ghost predicate Inv(s: Sys) {
    JobOk(s.job, s.n) && WorkersOk(s)
  }

  lemma TransitionKeeps(j: Job, n: nat, next: Status, kind: string, change: Change)
    requires JobOk(j, n) && MayMove(j.status, next)
    requires change.result.Some? <==> next == Succeeded
    requires next == Succeeded ==>
      j.checkpoint == n && exists start: nat :: start <= n && Remembers(change.result.value, j.outputs, start, n)
    requires next in {Queued, Retrying} ==> j.attempts < j.maxAttempts
    requires next == DeadLettered ==> j.attempts == j.maxAttempts
    requires next != Running
    ensures JobOk(Transition(j, next, kind, change).value, n)
  {
    hide LogExplains;
    var k := Transition(j, next, kind, change).value;
    LogKeeps(j, k, kind);
  }

  lemma BeginKeeps(j: Job, n: nat)
    requires JobOk(j, n) && j.status == Queued
    ensures JobOk(BeginAttempt(j).value, n)
  {
    hide LogExplains;
    LogKeeps(j, BeginAttempt(j).value, "worker.started");
  }

  lemma SaveKeeps(j: Job, n: nat, i: nat)
    requires JobOk(j, n) && i == j.checkpoint < n && i in j.outputs && j.status != Succeeded
    ensures JobOk(SaveCheckpoint(j, i + 1), n)
  {
    hide LogExplains;
    LogKeeps(j, SaveCheckpoint(j, i + 1), "workflow.checkpoint");
  }

  lemma RecordKeeps(j: Job, n: nat, i: nat, output: Output)
    requires JobOk(j, n) && j.status != Succeeded
    ensures JobOk(RecordOnce(j, i, output), n)
  {
    assert RecordOnce(j, i, output).events == j.events;
  }

  lemma CancelKeeps(s: Sys)
    requires Inv(s)
    ensures Inv(Apply(s, Cancel))
  {
    hide LogExplains;
    if MayMove(s.job.status, CancelRequested) {
      TransitionKeeps(s.job, s.n, CancelRequested, "job.cancel_requested", PLAIN);
    }
  }

  lemma DeliverKeeps(s: Sys, id: nat)
    requires Inv(s)
    ensures Inv(Apply(s, Deliver(id)))
  {
    hide JobOk, PhaseOk;
  }

  ghost predicate NextOk(policy: RetryPolicy, n: nat, j: Job, p: Phase, answer: Answer) {
    var (k, q) := Next(policy, n, j, p, answer);
    && JobOk(k, n)
    && (q.Some? && Active(q.value) ==> k.status in {Running, CancelRequested, Cancelled} && PhaseOk(q.value, n, k))
    && (q.Some? && Active(q.value) && !Active(p) ==> j.status == Queued)
    && (!Active(p) && k != j ==>
      j.status in {Queued, Retrying}
      || (k.status == Cancelled && k.checkpoint == j.checkpoint && k.outputs == j.outputs
          && k.attempts == j.attempts && k.maxAttempts == j.maxAttempts))
  }

  lemma EntryKeeps(policy: RetryPolicy, n: nat, j: Job, p: Phase, answer: Answer)
    requires JobOk(j, n) && !Active(p)
    ensures NextOk(policy, n, j, p, answer)
  {
    hide LogExplains;
    match p
    case CancelSeen =>
      if MayMove(j.status, Cancelled) { TransitionKeeps(j, n, Cancelled, "worker.cancelled", PLAIN); }
    case Requeue =>
      if MayMove(j.status, Queued) { TransitionKeeps(j, n, Queued, "worker.requeued", PLAIN); }
    case Begin =>
      if j.status == Queued { BeginKeeps(j, n); }
  }

  lemma LoopKeeps(policy: RetryPolicy, n: nat, j: Job, p: Phase, answer: Answer)
    requires JobOk(j, n) && (p.Check? || p.Work? || p.Keep? || p.Save?)
    requires j.status in {Running, CancelRequested, Cancelled} && PhaseOk(p, n, j)
    ensures NextOk(policy, n, j, p, answer)
  {
    hide LogExplains, JobOk;
    match p
    case Check(_, _, _) =>
      assert j.checkpoint <= n by { CheckpointBounded(j, n); }
    case Work(_, _, _) =>
    case Keep(i, _, _, output) => RecordKeeps(j, n, i, output);
    case Save(i, _, _) => SaveKeeps(j, n, i);
  }

  lemma CheckpointBounded(j: Job, n: nat)
    requires JobOk(j, n)
    ensures j.checkpoint <= n
  {
  }

  lemma EndKeeps(policy: RetryPolicy, n: nat, j: Job, p: Phase, answer: Answer)
    requires JobOk(j, n) && (p.Finish? || p.Caught? || p.GiveUp? || p.Retry? || p.Fail? || p.CancelInLoop?)
    requires j.status in {Running, CancelRequested, Cancelled} && PhaseOk(p, n, j)
    ensures NextOk(policy, n, j, p, answer)
  {
    hide LogExplains, Delay, Remembers;
    match p
    case CancelInLoop =>
      if MayMove(j.status, Cancelled) { TransitionKeeps(j, n, Cancelled, "worker.cancelled", PLAIN); }
    case Finish(start, prior) =>
      if MayMove(j.status, Succeeded) {
        TransitionKeeps(j, n, Succeeded, "worker.succeeded", Change(Some(prior), None, None));
      }
    case Caught =>
    case GiveUp =>
      if MayMove(j.status, DeadLettered) {
        TransitionKeeps(j, n, DeadLettered, "worker.dead_lettered", Change(None, Some("transient"), None));
      }
    case Retry =>
      if MayMove(j.status, Retrying) {
        TransitionKeeps(j, n, Retrying, "worker.retry_scheduled",
                        Change(None, Some("transient"), Some(Delay(policy, j.attempts))));
      }
    case Fail =>
      if MayMove(j.status, Failed) {
        TransitionKeeps(j, n, Failed, "worker.failed", Change(None, Some("permanent"), None));
      }
  }

  lemma AdvanceKeeps(s: Sys, id: nat, answer: Answer)
    requires Inv(s)
    ensures Inv(Apply(s, Advance(id, answer)))
  {
    hide JobOk, PhaseOk, Next;
    if id in s.workers {
      var p := s.workers[id];
      if p.Check? || p.Work? || p.Keep? || p.Save? {
        LoopKeeps(s.policy, s.n, s.job, p, answer);
      } else if Active(p) {
        EndKeeps(s.policy, s.n, s.job, p, answer);
      } else {
        EntryKeeps(s.policy, s.n, s.job, p, answer);
        var k := Next(s.policy, s.n, s.job, p, answer).0;
        forall a | a in s.workers && Active(s.workers[a]) && k != s.job
          ensures PhaseOk(s.workers[a], s.n, k)
        {
          PhaseFramed(s.workers[a], s.n, s.job, k);
        }
      }
    }
  }

  lemma PhaseFramed(p: Phase, n: nat, j: Job, k: Job)
    requires PhaseOk(p, n, j)
    requires k.checkpoint == j.checkpoint && k.outputs == j.outputs && k.attempts == j.attempts && k.maxAttempts == j.maxAttempts
    ensures PhaseOk(p, n, k)
  {
  }

  lemma StepKeeps(s: Sys, step: Step)
    requires Inv(s)
    ensures Inv(Apply(s, step))
  {
    match step
    case Deliver(id) => DeliverKeeps(s, id);
    case Advance(id, answer) => AdvanceKeeps(s, id, answer);
    case Kill(_) => hide JobOk, PhaseOk;
    case Cancel => CancelKeeps(s);
  }

  lemma {:induction false} RunKeeps(s: Sys, steps: seq<Step>)
    requires Inv(s)
    ensures Inv(Run(s, steps)) && Run(s, steps).n == s.n && Run(s, steps).policy == s.policy
  {
    hide Inv, Next;
    if steps != [] {
      RunKeeps(s, steps[..|steps| - 1]);
      StepKeeps(Run(s, steps[..|steps| - 1]), steps[|steps| - 1]);
    }
  }

  lemma StartInv(policy: RetryPolicy, n: nat, maxAttempts: nat)
    requires maxAttempts >= 1
    ensures Inv(Start(policy, n, maxAttempts))
  {
    OpenExplains(maxAttempts);
  }

  // ---------- what every run promises ----------

  function Reached(policy: RetryPolicy, n: nat, maxAttempts: nat, steps: seq<Step>): Sys {
    Run(Start(policy, n, maxAttempts), steps)
  }

  lemma ReachedInv(policy: RetryPolicy, n: nat, maxAttempts: nat, steps: seq<Step>)
    requires maxAttempts >= 1
    ensures Inv(Reached(policy, n, maxAttempts, steps)) && Reached(policy, n, maxAttempts, steps).n == n
  {
    hide Inv, Run;
    StartInv(policy, n, maxAttempts);
    RunKeeps(Start(policy, n, maxAttempts), steps);
  }

  lemma {:induction false} BudgetFixed(s: Sys, steps: seq<Step>)
    ensures Run(s, steps).job.maxAttempts == s.job.maxAttempts
  {
    hide Delay;
    if steps != [] {
      BudgetFixed(s, steps[..|steps| - 1]);
    }
  }

  /** The log is a path of the status graph that ends at the row, counts its attempts and shows its cancel. */
  lemma LogExplainsRow(policy: RetryPolicy, n: nat, maxAttempts: nat, steps: seq<Step>)
    requires maxAttempts >= 1
    ensures LogExplains(Reached(policy, n, maxAttempts, steps).job)
    ensures var j := Reached(policy, n, maxAttempts, steps).job;
      CancelRequested in Collapse(j.events) ==> j.status in {CancelRequested, Cancelled} && j.result.None?
  {
    ReachedInv(policy, n, maxAttempts, steps);
  }

  /** Attempts stay within the budget, are all used once dead-lettered, and never overlap. */
  lemma AttemptsBoundedAndExclusive(policy: RetryPolicy, n: nat, maxAttempts: nat, steps: seq<Step>)
    requires maxAttempts >= 1
    ensures var s := Reached(policy, n, maxAttempts, steps);
      && s.job.attempts <= maxAttempts
      && (s.job.status in {Queued, Retrying} ==> s.job.attempts < maxAttempts)
      && (s.job.status == DeadLettered ==> s.job.attempts == maxAttempts)
      && (forall a, b :: a in s.workers && b in s.workers && Active(s.workers[a]) && Active(s.workers[b]) ==> a == b)
  {
    hide LogExplains, PhaseOk, Run;
    ReachedInv(policy, n, maxAttempts, steps);
    BudgetFixed(Start(policy, n, maxAttempts), steps);
  }

  /** Every checkpointed step has its output; success means all of them, and a result true to them. */
  lemma CheckpointsAreSound(policy: RetryPolicy, n: nat, maxAttempts: nat, steps: seq<Step>)
    requires maxAttempts >= 1
    ensures var j := Reached(policy, n, maxAttempts, steps).job;
      && j.checkpoint <= n
      && (forall k :: 0 <= k < j.checkpoint ==> k in j.outputs)
      && (j.status == Succeeded <==> j.result.Some?)
      && (j.status == Succeeded ==>
      j.checkpoint == n && exists start: nat :: start <= n && Remembers(j.result.value, j.outputs, start, n))
  {
    hide LogExplains, PhaseOk, Run;
    ReachedInv(policy, n, maxAttempts, steps);
  }

  // ---------- what lasts ----------

  ghost predicate Lasting(j: Job, k: Job) {
    && j.events <= k.events
    && j.checkpoint <= k.checkpoint
    && (forall i :: i in j.outputs ==> i in k.outputs && k.outputs[i] == j.outputs[i])
    && j.attempts <= k.attempts
    && (j.status in TERMINAL ==> k.status == j.status && k.result == j.result && k.error == j.error)
    && (j.cancelRequested ==> k.cancelRequested)
  }

  lemma StepLasts(s: Sys, step: Step)
    requires Inv(s)
    ensures Lasting(s.job, Apply(s, step).job)
  {
    hide LogExplains, Delay, JobOk, Remembers, Next, Lasting, RequestCancel, PhaseOk;
    LastingSame(s.job);
    if step.Advance? && step.id in s.workers {
      NextLasts(s.policy, s.n, s.job, s.workers[step.id], step.answer);
    } else if step.Cancel? {
      CancelLasts(s.job);
    }
  }

  lemma LastingSame(j: Job)
    ensures Lasting(j, j)
  {
  }

  lemma CancelLasts(j: Job)
    ensures Lasting(j, RequestCancel(j))
  {
  }

  lemma NextLasts(policy: RetryPolicy, n: nat, j: Job, p: Phase, answer: Answer)
    requires Active(p) ==> PhaseOk(p, n, j)
    ensures Lasting(j, Next(policy, n, j, p, answer).0)
  {
    hide LogExplains, Delay, Remembers;
  }

  /** Logs grow, checkpoints rise, outputs stay, and a terminal status, result and error are frozen. */
  lemma {:induction false} RunLasts(s: Sys, steps: seq<Step>)
    requires Inv(s)
    ensures Lasting(s.job, Run(s, steps).job)
  {
    hide Inv, Apply;
    if steps != [] {
      RunLasts(s, steps[..|steps| - 1]);
      RunKeeps(s, steps[..|steps| - 1]);
      StepLasts(Run(s, steps[..|steps| - 1]), steps[|steps| - 1]);
    }
  }

  /** A job once asked to cancel never succeeds. */
  lemma CancelledNeverSucceeds(policy: RetryPolicy, n: nat, maxAttempts: nat, steps: seq<Step>, more: seq<Step>)
    requires maxAttempts >= 1
    requires Reached(policy, n, maxAttempts, steps).job.status == CancelRequested
    ensures var j := Run(Reached(policy, n, maxAttempts, steps), more).job;
      j.status in {CancelRequested, Cancelled} && j.result.None?
  {
    hide LogExplains, WorkersOk, Run;
    var s := Reached(policy, n, maxAttempts, steps);
    ReachedInv(policy, n, maxAttempts, steps);
    RunLasts(s, more);
    RunKeeps(s, more);
  }

  // ---------- what a result covers ----------

  /** The checkpoint at which the latest attempt of a run began. */
  function LastStart(s: Sys, steps: seq<Step>): nat {
    if steps == [] then 0
    else
      var before := Run(s, steps[..|steps| - 1]);
      var step := steps[|steps| - 1];
      if step.Advance? && step.id in before.workers && before.workers[step.id].Begin? && before.job.status == Queued
      then before.job.checkpoint
      else LastStart(s, steps[..|steps| - 1])
  }

  function StartOf(p: Phase): Option<nat> {
    if p.Check? || p.Work? || p.Keep? || p.Save? || p.Finish? then Some(p.start) else None
  }

  ghost predicate StartsAt(s: Sys, start: nat) {
    && (forall id :: id in s.workers && StartOf(s.workers[id]).Some? ==> StartOf(s.workers[id]) == Some(start))
    && (s.job.status == Succeeded ==> s.job.result.Some? && Remembers(s.job.result.value, s.job.outputs, start, s.n))
  }

  /** No step but a committed begin_attempt moves the starting checkpoint of a worker. */
  lemma NextStarts(policy: RetryPolicy, n: nat, j: Job, p: Phase, answer: Answer, start: nat)
    requires JobOk(j, n) && (Active(p) ==> PhaseOk(p, n, j) && j.status in {Running, CancelRequested, Cancelled})
    requires StartOf(p).Some? ==> StartOf(p) == Some(start)
    requires j.status == Succeeded ==> j.result.Some? && Remembers(j.result.value, j.outputs, start, n)
    requires !(p.Begin? && j.status == Queued)
    ensures var (k, q) := Next(policy, n, j, p, answer);
      && (q.Some? && StartOf(q.value).Some? ==> StartOf(q.value) == Some(start))
      && (k.status == Succeeded ==> k.result.Some? && Remembers(k.result.value, k.outputs, start, n))
  {
    hide LogExplains, Delay, Remembers, JobOk;
  }

  lemma StartsKept(s: Sys, step: Step, start: nat)
    requires Inv(s) && StartsAt(s, start)
    requires !(step.Advance? && step.id in s.workers && s.workers[step.id].Begin? && s.job.status == Queued)
    ensures StartsAt(Apply(s, step), start)
  {
    hide LogExplains, Next, Remembers, JobOk, PhaseOk, StartOf;
    if step.Advance? && step.id in s.workers {
      NextStarts(s.policy, s.n, s.job, s.workers[step.id], step.answer, start);
    } else if step.Deliver? {
      assert forall p :: FirstPhase(s.job.status) == Some(p) ==> !StartOf(p).Some? by { FirstHasNoStart(s.job.status); }
    }
  }

  lemma FirstHasNoStart(status: Status)
    ensures forall p :: FirstPhase(status) == Some(p) ==> StartOf(p).None?
  {
  }

  lemma StartsAnew(s: Sys, step: Step)
    requires Inv(s)
    requires step.Advance? && step.id in s.workers && s.workers[step.id].Begin? && s.job.status == Queued
    ensures StartsAt(Apply(s, step), s.job.checkpoint)
  {
    hide LogExplains, JobOk, PhaseOk;
  }

  lemma {:induction false} StartsTracked(policy: RetryPolicy, n: nat, maxAttempts: nat, steps: seq<Step>)
    requires maxAttempts >= 1
    ensures StartsAt(Reached(policy, n, maxAttempts, steps), LastStart(Start(policy, n, maxAttempts), steps))
  {
    hide Inv, Apply, StartsAt;
    var s0 := Start(policy, n, maxAttempts);
    if steps == [] {
      assert StartsAt(s0, 0) by { StartsFromNothing(policy, n, maxAttempts); }
    } else {
      var front, step := steps[..|steps| - 1], steps[|steps| - 1];
      var s := Run(s0, front);
      StartsTracked(policy, n, maxAttempts, front);
      ReachedInv(policy, n, maxAttempts, front);
      if step.Advance? && step.id in s.workers && s.workers[step.id].Begin? && s.job.status == Queued {
        StartsAnew(s, step);
      } else {
        StartsKept(s, step, LastStart(s0, front));
      }
    }
  }

  lemma StartsFromNothing(policy: RetryPolicy, n: nat, maxAttempts: nat)
    ensures StartsAt(Start(policy, n, maxAttempts), 0)
  {
  }

  /** A result covers the steps of the last attempt only: all of them iff that attempt began at checkpoint 0. */
  lemma ResultCoversLastAttempt(policy: RetryPolicy, n: nat, maxAttempts: nat, steps: seq<Step>)
    requires maxAttempts >= 1 && Reached(policy, n, maxAttempts, steps).job.status == Succeeded
    ensures var j := Reached(policy, n, maxAttempts, steps).job; var start := LastStart(Start(policy, n, maxAttempts), steps);
      && j.result.Some?
      && (forall k :: k in j.result.value <==> start <= k < n)
      && (forall k :: k in j.result.value ==> k in j.outputs && j.result.value[k] == j.outputs[k])
      && ((forall k :: 0 <= k < n ==> k in j.result.value) <==> start == 0 || n == 0)
  {
    hide Run;
    StartsTracked(policy, n, maxAttempts, steps);
    ReachedInv(policy, n, maxAttempts, steps);
    var j := Reached(policy, n, maxAttempts, steps).job;
    assert n > 0 && LastStart(Start(policy, n, maxAttempts), steps) > 0 ==> 0 !in j.result.value;
  }

  /** An attempt that records step 0, fails on step 1 and is scheduled again. */
  const FIRST_ATTEMPT: seq<Step> := [
      Deliver(0), Advance(0, WorkerLost), Advance(0, WorkerLost), Advance(0, Produced(7)),
      Advance(0, WorkerLost), Advance(0, WorkerLost), Advance(0, WorkerLost), Advance(0, TransientFailure),
      Advance(0, WorkerLost), Advance(0, WorkerLost)]

  /** A second attempt that resumes at step 1 and succeeds. */
  const SECOND_ATTEMPT: seq<Step> := [
      Deliver(0), Advance(0, WorkerLost), Advance(0, WorkerLost), Advance(0, WorkerLost),
      Advance(0, Produced(8)), Advance(0, WorkerLost), Advance(0, WorkerLost), Advance(0, WorkerLost),
      Advance(0, WorkerLost), Kill(0)]

  lemma Prefix(s: Sys, steps: seq<Step>, k: nat)
    requires k < |steps|
    ensures Run(s, steps[..k + 1]) == Apply(Run(s, steps[..k]), steps[k])
  {
    hide Apply;
    assert steps[..k + 1][..k] == steps[..k];
  }

  lemma RunOfTen(s: Sys, p: seq<Step>)
    requires |p| == 10
    ensures Run(s, p) == Apply(Apply(Apply(Apply(Apply(Apply(Apply(Apply(Apply(Apply(
      s, p[0]), p[1]), p[2]), p[3]), p[4]), p[5]), p[6]), p[7]), p[8]), p[9])
  {
    hide Apply;
    assert p[..10] == p && p[..0] == [];
    forall k | 0 <= k < 10 ensures Run(s, p[..k + 1]) == Apply(Run(s, p[..k]), p[k]) { Prefix(s, p, k); }
    assert Run(s, p[..0]) == s;
    assert Run(s, p[..0 + 1]) == Apply(s, p[0]);
    assert Run(s, p[..1 + 1]) == Apply(Run(s, p[..1]), p[1]) && Run(s, p[..2 + 1]) == Apply(Run(s, p[..2]), p[2]);
    assert Run(s, p[..3 + 1]) == Apply(Run(s, p[..3]), p[3]) && Run(s, p[..4 + 1]) == Apply(Run(s, p[..4]), p[4]);
    assert Run(s, p[..5 + 1]) == Apply(Run(s, p[..5]), p[5]) && Run(s, p[..6 + 1]) == Apply(Run(s, p[..6]), p[6]);
    assert Run(s, p[..7 + 1]) == Apply(Run(s, p[..7]), p[7]) && Run(s, p[..8 + 1]) == Apply(Run(s, p[..8]), p[8]);
    assert Run(s, p[..9 + 1]) == Apply(Run(s, p[..9]), p[9]);
  }

  /** A run of worker 0 on a two-step job that nobody cancels. */
  predicate At(s: Sys, p: Option<Phase>, status: Status, attempts: nat, outputs: Outputs) {
    && s.n == 2 && s.workers == (if p.Some? then map[0 := p.value] else map[])
    && s.job.status == status && s.job.attempts == attempts && s.job.maxAttempts == 2
    && s.job.outputs == outputs && !s.job.cancelRequested && s.job.result.None?
  }

  /** Checking, running, recording and checkpointing one step. */
  lemma RecordsStep(s: Sys, i: nat, attempts: nat, start: nat, prior: Outputs, outputs: Outputs, output: Output)
    requires At(s, Some(Check(i, start, prior)), Running, attempts, outputs) && i < 2 && i !in outputs
    ensures var t := Apply(Apply(Apply(Apply(s, Advance(0, WorkerLost)), Advance(0, Produced(output))),
                                 Advance(0, WorkerLost)), Advance(0, WorkerLost));
      && At(t, Some(Check(i + 1, start, prior[i := output])), Running, attempts, outputs[i := output])
      && t.job.checkpoint == i + 1
  {
    var s1 := Apply(s, Advance(0, WorkerLost));
    assert s1.workers == map[0 := Work(i, start, prior)];
    var s2 := Apply(s1, Advance(0, Produced(output)));
    assert s2.workers == map[0 := Keep(i, start, prior, output)];
    var s3 := Apply(s2, Advance(0, WorkerLost));
    assert s3.workers == map[0 := Save(i, start, prior[i := output])];
  }

  lemma Opens(s: Sys)
    requires At(s, None, Queued, 0, map[]) && s.job.checkpoint == 0
    ensures At(Apply(Apply(s, Deliver(0)), Advance(0, WorkerLost)), Some(Check(0, 0, map[])), Running, 1, map[])
  {
    assert Apply(s, Deliver(0)).workers == map[0 := Begin];
  }

  lemma Reopens(s: Sys, outputs: Outputs)
    requires At(s, None, Retrying, 1, outputs) && s.job.checkpoint == 1
    ensures var t := Apply(Apply(Apply(s, Deliver(0)), Advance(0, WorkerLost)), Advance(0, WorkerLost));
      At(t, Some(Check(1, 1, map[])), Running, 2, outputs)
  {
    var s1 := Apply(s, Deliver(0));
    assert s1.workers == map[0 := Requeue];
    assert Apply(s1, Advance(0, WorkerLost)).workers == map[0 := Begin];
  }

  lemma FailsOnce(s: Sys, prior: Outputs, outputs: Outputs)
    requires At(s, Some(Check(1, 0, prior)), Running, 1, outputs) && 1 !in outputs
    ensures var t := Apply(Apply(Apply(Apply(s, Advance(0, WorkerLost)), Advance(0, TransientFailure)),
                                 Advance(0, WorkerLost)), Advance(0, WorkerLost));
      At(t, None, Retrying, 1, outputs) && t.job.checkpoint == s.job.checkpoint
  {
    hide Delay;
    var s1 := Apply(s, Advance(0, WorkerLost));
    assert s1.workers == map[0 := Work(1, 0, prior)];
    var s2 := Apply(s1, Advance(0, TransientFailure));
    assert s2.workers == map[0 := Caught];
    var s3 := Apply(s2, Advance(0, WorkerLost));
    assert s3.workers == map[0 := Retry];
  }

  lemma Finishes(s: Sys, start: nat, prior: Outputs, outputs: Outputs)
    requires At(s, Some(Check(2, start, prior)), Running, 2, outputs)
    ensures var j := Apply(Apply(s, Advance(0, WorkerLost)), Advance(0, WorkerLost)).job;
      j.status == Succeeded && j.result == Some(prior) && j.outputs == outputs
  {
    assert Apply(s, Advance(0, WorkerLost)).workers == map[0 := Finish(start, prior)];
  }

  lemma AfterFirstAttempt()
    ensures At(Run(Start(DEFAULT_POLICY, 2, 2), FIRST_ATTEMPT), None, Retrying, 1, map[0 := 7])
    ensures Run(Start(DEFAULT_POLICY, 2, 2), FIRST_ATTEMPT).job.checkpoint == 1
  {
    hide Apply, Run;
    var s0, p := Start(DEFAULT_POLICY, 2, 2), FIRST_ATTEMPT;
    RunOfTen(s0, p);
    Opens(s0);
    var s2 := Apply(Apply(s0, p[0]), p[1]);
    RecordsStep(s2, 0, 1, 0, map[], map[], 7);
    var s6 := Apply(Apply(Apply(Apply(s2, p[2]), p[3]), p[4]), p[5]);
    FailsOnce(s6, map[0 := 7], map[0 := 7]);
  }

  lemma AfterSecondAttempt(s0: Sys)
    requires At(s0, None, Retrying, 1, map[0 := 7]) && s0.job.checkpoint == 1
    ensures var j := Run(s0, SECOND_ATTEMPT).job;
      j.status == Succeeded && j.result == Some(map[1 := 8]) && j.outputs == map[0 := 7, 1 := 8]
  {
    hide Apply, Run;
    var p := SECOND_ATTEMPT;
    RunOfTen(s0, p);
    Reopens(s0, map[0 := 7]);
    var s3 := Apply(Apply(Apply(s0, p[0]), p[1]), p[2]);
    RecordsStep(s3, 1, 2, 1, map[], map[0 := 7], 8);
    var s7 := Apply(Apply(Apply(Apply(s3, p[3]), p[4]), p[5]), p[6]);
    assert map[0 := 7][1 := 8] == map[0 := 7, 1 := 8];
    Finishes(s7, 1, map[1 := 8], map[0 := 7, 1 := 8]);
    KillKeepsJob(Apply(Apply(s7, p[7]), p[8]), 0);
  }

  lemma KillKeepsJob(s: Sys, id: nat)
    ensures Apply(s, Kill(id)).job == s.job
  {
  }

  lemma {:induction false} RunSplits(s: Sys, a: seq<Step>, b: seq<Step>)
    ensures Run(s, a + b) == Run(Run(s, a), b)
  {
    hide Apply;
    if b == [] {
      assert a + b == a;
    } else {
      RunSplits(s, a, b[..|b| - 1]);
      assert (a + b)[..|a + b| - 1] == a + b[..|b| - 1];
    }
  }

  /** A resumed job can succeed with a result that leaves out a recorded step. */
  lemma ResumedResultIsPartial()
    ensures var j := Reached(DEFAULT_POLICY, 2, 2, FIRST_ATTEMPT + SECOND_ATTEMPT).job;
      j.status == Succeeded && 0 in j.outputs && j.result.Some? && 0 !in j.result.value
  {
    hide Run, Apply;
    RunSplits(Start(DEFAULT_POLICY, 2, 2), FIRST_ATTEMPT, SECOND_ATTEMPT);
    AfterFirstAttempt();
    AfterSecondAttempt(Run(Start(DEFAULT_POLICY, 2, 2), FIRST_ATTEMPT));
  }
}
