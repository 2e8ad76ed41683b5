/** The job table as the service runs it, and one uninterrupted run of a worker. */
module JobService {
  import opened Wrappers
  import opened JobRules
  import opened JobProtocol
  import OutboxRules
  import JobEffects

  datatype JobRow = JobRow(tenant: nat, user: nat, key: nat, payload: nat, job: Job)
  datatype KeyRow = KeyRow(payload: nat, job: nat)
  type Keys = map<(nat, nat), KeyRow>

  datatype Request = Request(tenant: nat, user: nat, key: nat, payload: nat, maxAttempts: nat)
  datatype Reply = Reply(job: nat, replayed: bool)
  datatype Store = Store(jobs: seq<JobRow>, keys: Keys, outbox: seq<OutboxRules.Row>)

  function Create(s: Store, r: Request, now: real): (Store, Result<Reply>) {
    var id := (r.tenant, r.key);
    if id in s.keys then
      (s, if s.keys[id].payload != r.payload then Err(409) else Ok(Reply(s.keys[id].job, true)))
    else
      var job := |s.jobs|;
      (Store(s.jobs + [JobRow(r.tenant, r.user, r.key, r.payload, Open(r.maxAttempts))],
             s.keys[id := KeyRow(r.payload, job)],
             s.outbox + [OutboxRules.NewRow(job, now)]),
       Ok(Reply(job, false)))
  }

  // ---------- one job per key ----------

  /** Keys and jobs correspond one to one. */
  ghost predicate KeysOk(s: Store) {
    && (forall id :: id in s.keys ==>
      var row := s.keys[id];
      row.job < |s.jobs| && s.jobs[row.job].tenant == id.0 && s.jobs[row.job].key == id.1
      && s.jobs[row.job].payload == row.payload)
    && (forall i | 0 <= i < |s.jobs| ::
      (s.jobs[i].tenant, s.jobs[i].key) in s.keys && s.keys[(s.jobs[i].tenant, s.jobs[i].key)].job == i)
  }

  /** A request, or any change workers and cancels make to a job's row. */
  datatype Op = Ask(request: Request, now: real) | Touch(id: nat, job: Job)

  function Serve(s: Store, op: Op): (Store, Option<Result<Reply>>) {
    match op
    case Ask(r, now) => (Create(s, r, now).0, Some(Create(s, r, now).1))
    case Touch(id, job) => (if id < |s.jobs| then s.(jobs := s.jobs[id := s.jobs[id].(job := job)]) else s, None)
  }

  function After(s: Store, ops: seq<Op>): Store {
    if ops == [] then s else Serve(After(s, ops[..|ops| - 1]), ops[|ops| - 1]).0
  }

  /** The answer to the i-th operation. */
  function Answered(s: Store, ops: seq<Op>, i: nat): Option<Result<Reply>>
    requires i < |ops|
  {
    Serve(After(s, ops[..i]), ops[i]).1
  }

  lemma ServeKeeps(s: Store, op: Op)
    requires KeysOk(s)
    ensures KeysOk(Serve(s, op).0)
    ensures forall id :: id in s.keys ==> id in Serve(s, op).0.keys && Serve(s, op).0.keys[id] == s.keys[id]
    ensures op.Ask? && Serve(s, op).1.value.Ok? ==>
      var r := op.request; var t := Serve(s, op).0;
      (r.tenant, r.key) in t.keys && t.keys[(r.tenant, r.key)] == KeyRow(r.payload, Serve(s, op).1.value.value.job)
  {
    hide Open;
    if op.Ask? {
      var r := op.request;
      CreateKeeps(s, r, op.now);
    }
  }

  lemma CreateKeeps(s: Store, r: Request, now: real)
    requires KeysOk(s)
    ensures KeysOk(Create(s, r, now).0)
    ensures forall id :: id in s.keys ==> id in Create(s, r, now).0.keys && Create(s, r, now).0.keys[id] == s.keys[id]
  {
    hide Open;
    var t := Create(s, r, now).0;
    forall id | id in t.keys
      ensures var row := t.keys[id];
        row.job < |t.jobs| && t.jobs[row.job].tenant == id.0 && t.jobs[row.job].key == id.1
        && t.jobs[row.job].payload == row.payload
    {
      if id in s.keys { assert t.jobs[s.keys[id].job] == s.jobs[s.keys[id].job]; }
    }
    forall i | 0 <= i < |t.jobs|
      ensures (t.jobs[i].tenant, t.jobs[i].key) in t.keys && t.keys[(t.jobs[i].tenant, t.jobs[i].key)].job == i
    {
      if i < |s.jobs| { assert t.jobs[i] == s.jobs[i]; }
    }
  }

  lemma {:induction false} AfterKeeps(s: Store, ops: seq<Op>, i: nat)
    requires KeysOk(s) && i <= |ops|
    ensures KeysOk(After(s, ops)) && KeysOk(After(s, ops[..i]))
    ensures forall id :: id in After(s, ops[..i]).keys ==>
      id in After(s, ops).keys && After(s, ops).keys[id] == After(s, ops[..i]).keys[id]
  {
    hide Serve, KeysOk;
    if i == |ops| {
      assert ops[..i] == ops;
      if ops != [] {
        AfterKeeps(s, ops[..|ops| - 1], |ops| - 1);
        ServeKeeps(After(s, ops[..|ops| - 1]), ops[|ops| - 1]);
      }
    } else {
      var front := ops[..|ops| - 1];
      AfterKeeps(s, front, i);
      assert front[..i] == ops[..i];
      ServeKeeps(After(s, front), ops[|ops| - 1]);
    }
  }

  /**
   A request that follows a served one with the same tenant and key gets the same job
   back when the payload is the same and a conflict otherwise; distinct keys never share a job.
   */
  lemma RepeatsAgree(s: Store, ops: seq<Op>, i: nat, j: nat)
    requires KeysOk(s) && i < j < |ops| && ops[i].Ask? && ops[j].Ask?
    requires Answered(s, ops, i).value.Ok?
    ensures var a, b := ops[i].request, ops[j].request;
      var first, second := Answered(s, ops, i).value.value, Answered(s, ops, j).value;
      if (a.tenant, a.key) == (b.tenant, b.key)
      then second == if a.payload == b.payload then Ok(Reply(first.job, true)) else Err(409)
      else second.Ok? ==> second.value.job != first.job
  {
    hide KeysOk, After, Open;
    var a, b := ops[i].request, ops[j].request;
    var first := Answered(s, ops, i).value.value;
    var before := After(s, ops[..j]);
    AfterKeeps(s, ops[..i], i);
    assert ops[..i + 1][..i] == ops[..i];
    ServeKeeps(After(s, ops[..i]), ops[i]);
    AfterOne(s, ops, i);
    AfterKeeps(s, ops[..j], i + 1);
    assert ops[..j][..i + 1] == ops[..i + 1];
    assert before.keys[(a.tenant, a.key)] == KeyRow(a.payload, first.job);
    ServeKeeps(before, ops[j]);
    if (a.tenant, a.key) != (b.tenant, b.key) {
      NewJobsAreNew(before, b, ops[j].now, (a.tenant, a.key));
    }
  }

  lemma AfterOne(s: Store, ops: seq<Op>, i: nat)
    requires i < |ops|
    ensures After(s, ops[..i + 1]) == Serve(After(s, ops[..i]), ops[i]).0
  {
    hide Serve;
    assert ops[..i + 1][..i] == ops[..i];
  }

  /** A served request never points at the job of another key. */
  lemma NewJobsAreNew(s: Store, r: Request, now: real, other: (nat, nat))
    requires KeysOk(s) && other in s.keys && other != (r.tenant, r.key)
    ensures Create(s, r, now).1.Ok? ==> Create(s, r, now).1.value.job != s.keys[other].job
  {
    hide Open;
  }

  /** The first request under a key gets a queued job of its own, whose delivery is due at once. */
  lemma RequestServed(s: Store, r: Request, now: real, at: real, timeout: real)
    requires (r.tenant, r.key) !in s.keys
    ensures var (t, reply) := Create(s, r, now); var id := |s.jobs|; var e := |s.outbox|;
      && reply == Ok(Reply(id, false))
      && |t.jobs| == id + 1 && t.jobs[..id] == s.jobs && |t.outbox| == e + 1 && t.outbox[..e] == s.outbox
      && var row := t.jobs[id];
      && row.tenant == r.tenant && row.user == r.user && row.key == r.key && row.payload == r.payload
      && row.job.status == Queued && row.job.attempts == 0 && row.job.maxAttempts == r.maxAttempts
      && row.job.checkpoint == 0 && row.job.outputs == map[] && !row.job.cancelRequested
      && t.outbox[e].job == id && (OutboxRules.Eligible(t.outbox[e], at, timeout) <==> now <= at)
  {
  }

  ghost predicate HasDelivery(s: Store, job: nat) {
    exists e | 0 <= e < |s.outbox| :: s.outbox[e].job == job
  }

  /** Every job has a delivery row, and every delivery row is of a job that exists. */
  ghost predicate DeliveriesOk(s: Store) {
    && (forall job: nat | job < |s.jobs| :: HasDelivery(s, job))
    && (forall e | 0 <= e < |s.outbox| :: s.outbox[e].job < |s.jobs|)
  }

  lemma {:induction false} AcceptedMeansDelivered(s: Store, ops: seq<Op>)
    requires DeliveriesOk(s)
    ensures DeliveriesOk(After(s, ops))
  {
    hide Open;
    if ops != [] {
      var before, after := After(s, ops[..|ops| - 1]), After(s, ops);
      AcceptedMeansDelivered(s, ops[..|ops| - 1]);
      forall job: nat | job < |after.jobs| ensures HasDelivery(after, job) {
        if job < |before.jobs| {
          assert HasDelivery(before, job);
          var e :| 0 <= e < |before.outbox| && before.outbox[e].job == job;
          assert after.outbox[e].job == job;
        } else {
          assert after.outbox[|before.outbox|].job == job;
        }
      }
    }
  }

  // ---------- an uninterrupted run of a worker ----------

  type Pipeline = (nat, Outputs) -> Answer

  /** The pipeline's answer for the phases that call it. */
  function AnswerFor(p: Phase, pipeline: Pipeline): Answer {
    if p.Work? then pipeline(p.i, p.prior) else WorkerLost
  }

  function Tier(p: Phase): nat {
    match p
    case Requeue => 4
    case Begin => 3
    case Check(_, _, _) => 2
    case Work(_, _, _) => 2
    case Keep(_, _, _, _) => 2
    case Save(_, _, _) => 2
    case Caught => 1
    case _ => 0
  }

  function StepsLeft(n: nat, p: Phase): nat {
    if Tier(p) == 2 && p.i <= n then n - p.i else 0
  }

  function Rank(p: Phase): nat {
    if p.Check? then 3 else if p.Work? then 2 else if p.Keep? then 1 else 0
  }

  predicate InPipeline(n: nat, p: Phase) {
    p.Work? || p.Keep? || p.Save? ==> p.i < n
  }

  /** The job a worker alone leaves behind from phase `p` on. */
  function Drive(policy: RetryPolicy, n: nat, j: Job, p: Phase, pipeline: Pipeline): Job
    requires InPipeline(n, p)
    decreases Tier(p), StepsLeft(n, p), Rank(p)
  {
    var (k, next) := Next(policy, n, j, p, AnswerFor(p, pipeline));
    if next.None? then k else Drive(policy, n, k, next.value, pipeline)
  }

  function Processed(policy: RetryPolicy, n: nat, j: Job, pipeline: Pipeline): Job {
    var first := FirstPhase(j.status);
    if first.None? then j else Drive(policy, n, j, first.value, pipeline)
  }

  lemma RunOnce(s: Sys, steps: seq<Step>, step: Step)
    ensures Run(s, steps + [step]) == Apply(Run(s, steps), step)
  {
    hide Apply;
    assert (steps + [step])[..|steps|] == steps;
  }

  /** Driving a worker is a run of the protocol, so every protocol theorem applies to it. */
  lemma {:induction false} DriveIsARun(s: Sys, steps: seq<Step>, id: nat, p: Phase, pipeline: Pipeline) returns (all: seq<Step>)
    requires InPipeline(s.n, p)
    requires var t := Run(s, steps); t.n == s.n && t.policy == s.policy && id in t.workers && t.workers[id] == p
    ensures steps <= all
    ensures var t := Run(s, steps);
      Run(s, all) == t.(job := Drive(s.policy, s.n, t.job, p, pipeline), workers := t.workers - {id})
    decreases Tier(p), StepsLeft(s.n, p), Rank(p)
  {
    hide Next, Run;
    var t := Run(s, steps);
    var answer := AnswerFor(p, pipeline);
    var step := Advance(id, answer);
    var (k, next) := Next(s.policy, s.n, t.job, p, answer);
    RunOnce(s, steps, step);
    all := steps + [step];
    if next.Some? {
      NextDescends(s.policy, s.n, t.job, p, answer);
      all := DriveIsARun(s, all, id, next.value, pipeline);
      assert t.workers[id := next.value] - {id} == t.workers - {id};
    }
  }

  lemma NextDescends(policy: RetryPolicy, n: nat, j: Job, p: Phase, answer: Answer)
    requires InPipeline(n, p)
    ensures var next := Next(policy, n, j, p, answer).1;
      next.Some? ==>
        InPipeline(n, next.value)
        && (Tier(next.value) < Tier(p)
            || (Tier(next.value) == Tier(p) && StepsLeft(n, next.value) < StepsLeft(n, p))
            || (Tier(next.value) == Tier(p) && StepsLeft(n, next.value) == StepsLeft(n, p) && Rank(next.value) < Rank(p)))
  {
  }

  /** What becomes of a job after a transient failure. */
  function Rescheduled(policy: RetryPolicy, j: Job): Job {
    if j.attempts >= j.maxAttempts
    then Then(j, Transition(j, DeadLettered, "worker.dead_lettered", Change(None, Some("transient"), None)), None).0
    else
      Then(j, Transition(j, Retrying, "worker.retry_scheduled",
                         Change(None, Some("transient"), Some(Delay(policy, j.attempts)))), None).0
  }

  function DriveOn(policy: RetryPolicy, n: nat, j: Job, i: nat, start: nat, prior: Outputs, pipeline: Pipeline): Job {
    Drive(policy, n, j, Check(i, start, prior), pipeline)
  }

  /** One turn of the step loop. */
  lemma DriveStep(policy: RetryPolicy, n: nat, j: Job, i: nat, start: nat, prior: Outputs, pipeline: Pipeline)
    requires i < n
    ensures DriveOn(policy, n, j, i, start, prior, pipeline) ==
      if j.cancelRequested || j.status == CancelRequested
      then Then(j, Transition(j, Cancelled, "worker.cancelled", PLAIN), None).0
      else if i in j.outputs then DriveOn(policy, n, SaveCheckpoint(j, i + 1), i + 1, start, prior[i := j.outputs[i]], pipeline)
      else
        match pipeline(i, prior)
        case Produced(o) => DriveOn(policy, n, SaveCheckpoint(RecordOnce(j, i, o), i + 1), i + 1, start, prior[i := o], pipeline)
        case WorkerLost => j
        case TransientFailure => Rescheduled(policy, j)
        case PermanentFailure => Then(j, Transition(j, Failed, "worker.failed", Change(None, Some("permanent"), None)), None).0
  {
    hide Transition, SaveCheckpoint, RecordOnce, Delay;
    var answer := pipeline(i, prior);
    var work := Work(i, start, prior);
    if j.cancelRequested || j.status == CancelRequested {
      assert Drive(policy, n, j, Check(i, start, prior), pipeline) == Drive(policy, n, j, CancelInLoop, pipeline);
    } else {
      assert Drive(policy, n, j, Check(i, start, prior), pipeline) == Drive(policy, n, j, work, pipeline);
      if i in j.outputs {
        assert Drive(policy, n, j, work, pipeline) == Drive(policy, n, j, Save(i, start, prior[i := j.outputs[i]]), pipeline);
      } else if answer.Produced? {
        assert Drive(policy, n, j, work, pipeline) == Drive(policy, n, j, Keep(i, start, prior, answer.output), pipeline)
            == Drive(policy, n, RecordOnce(j, i, answer.output), Save(i, start, prior[i := answer.output]), pipeline);
      } else if answer.TransientFailure? {
        assert Drive(policy, n, j, work, pipeline) == Drive(policy, n, j, Caught, pipeline)
            == Drive(policy, n, j, if j.attempts >= j.maxAttempts then GiveUp else Retry, pipeline);
      } else if answer.PermanentFailure? {
        assert Drive(policy, n, j, work, pipeline) == Drive(policy, n, j, Fail, pipeline);
      }
    }
  }

  lemma DriveEnd(policy: RetryPolicy, n: nat, j: Job, i: nat, start: nat, prior: Outputs, pipeline: Pipeline)
    requires i >= n
    ensures DriveOn(policy, n, j, i, start, prior, pipeline) ==
            Then(j, Transition(j, Succeeded, "worker.succeeded", Change(Some(prior), None, None)), None).0
  {
    hide Transition;
    assert Drive(policy, n, j, Check(i, start, prior), pipeline) == Drive(policy, n, j, Finish(start, prior), pipeline);
  }

  /** The outputs of a range of steps. */
  function Recall(outputs: Outputs, start: nat, i: nat): Outputs {
    map k | k in outputs && start <= k < i :: outputs[k]
  }

  /** How a run that stopped before step `k.checkpoint` ends, given what that step answered. */
  ghost predicate EndsWith(policy: RetryPolicy, k: Job, n: nat, start: nat, pipeline: Pipeline) {
    var prior := Recall(k.outputs, start, k.checkpoint);
    if k.checkpoint == n then k.status == Succeeded && k.result == Some(prior)
    else
      k.checkpoint !in k.outputs && k.checkpoint < n &&
      match pipeline(k.checkpoint, prior)
      case Produced(_) => false
      case WorkerLost => k.status == Running
      case PermanentFailure => k.status == Failed && k.error.Some?
      case TransientFailure =>
        if k.attempts >= k.maxAttempts then k.status == DeadLettered && k.error.Some?
        else k.status == Retrying && k.retryDelay == Some(Delay(policy, k.attempts))
  }

  ghost predicate Extends(j: Job, k: Job, n: nat) {
    && j.checkpoint <= k.checkpoint <= n
    && k.attempts == j.attempts && k.maxAttempts == j.maxAttempts
    && (forall i :: i in j.outputs ==> i in k.outputs && k.outputs[i] == j.outputs[i])
    && (forall i | j.checkpoint <= i < k.checkpoint :: i in k.outputs)
    && (forall i :: i in k.outputs ==> i in j.outputs || j.checkpoint <= i < k.checkpoint)
  }

  lemma RemembersRecalled(prior: Outputs, outputs: Outputs, start: nat, i: nat)
    requires Remembers(prior, outputs, start, i)
    ensures prior == Recall(outputs, start, i)
  {
  }

  lemma {:induction false} LoopOutcome(policy: RetryPolicy, n: nat, j: Job, i: nat, start: nat, prior: Outputs, pipeline: Pipeline)
    requires j.status == Running && !j.cancelRequested && start <= i == j.checkpoint <= n
    requires Remembers(prior, j.outputs, start, i)
    ensures var k := DriveOn(policy, n, j, i, start, prior, pipeline);
      Extends(j, k, n) && EndsWith(policy, k, n, start, pipeline)
    decreases n - i
  {
    hide Remembers, Recall, Delay, Drive, DriveOn;
    RemembersRecalled(prior, j.outputs, start, i);
    if i >= n {
      DriveEnd(policy, n, j, i, start, prior, pipeline);
    } else {
      var answer := pipeline(i, prior);
      DriveStep(policy, n, j, i, start, prior, pipeline);
      if i in j.outputs {
        RemembersMore(prior, j.outputs, start, i);
        LoopOutcome(policy, n, SaveCheckpoint(j, i + 1), i + 1, start, prior[i := j.outputs[i]], pipeline);
      } else if answer.Produced? {
        var kept := RecordOnce(j, i, answer.output);
        RemembersGrown(prior, j.outputs, start, i, answer.output);
        RemembersMore(prior, kept.outputs, start, i);
        LoopOutcome(policy, n, SaveCheckpoint(kept, i + 1), i + 1, start, prior[i := answer.output], pipeline);
      }
    }
  }

  lemma RemembersMore(prior: Outputs, outputs: Outputs, start: nat, i: nat)
    requires Remembers(prior, outputs, start, i) && start <= i && i in outputs
    ensures Remembers(prior[i := outputs[i]], outputs, start, i + 1)
  {
  }

  lemma RemembersGrown(prior: Outputs, outputs: Outputs, start: nat, i: nat, output: Output)
    requires Remembers(prior, outputs, start, i) && i !in outputs
    ensures Remembers(prior, outputs[i := output], start, i)
  {
  }

  /** What one uninterrupted run does to a job that is waiting for an attempt. */
  lemma ProcessOutcome(policy: RetryPolicy, n: nat, j: Job, pipeline: Pipeline)
    requires j.status in {Queued, Retrying} && !j.cancelRequested && j.checkpoint <= n
    ensures var k := Processed(policy, n, j, pipeline);
      Extends(j.(attempts := j.attempts + 1), k, n) && EndsWith(policy, k, n, j.checkpoint, pipeline)
  {
    hide Extends, EndsWith;
    var queued := if j.status == Retrying then Transition(j, Queued, "worker.requeued", PLAIN).value else j;
    var begun := BeginAttempt(queued).value;
    ProcessBegins(policy, n, j, pipeline);
    LoopOutcome(policy, n, begun, j.checkpoint, j.checkpoint, map[], pipeline);
    ExtendsSame(begun, j.(attempts := j.attempts + 1), Processed(policy, n, j, pipeline), n);
  }

  /** A waiting job is queued again if need be, then its attempt begins. */
  lemma ProcessBegins(policy: RetryPolicy, n: nat, j: Job, pipeline: Pipeline)
    requires j.status in {Queued, Retrying}
    ensures var queued := if j.status == Retrying then Transition(j, Queued, "worker.requeued", PLAIN).value else j;
      && BeginAttempt(queued).Ok?
      && Processed(policy, n, j, pipeline)
         == DriveOn(policy, n, BeginAttempt(queued).value, j.checkpoint, j.checkpoint, map[], pipeline)
  {
    var queued := if j.status == Retrying then Transition(j, Queued, "worker.requeued", PLAIN).value else j;
    assert Processed(policy, n, j, pipeline) == Drive(policy, n, queued, Begin, pipeline);
  }

  /** Any other job is cancelled if it was asked to, and left alone otherwise. */
  lemma ProcessRefuses(policy: RetryPolicy, n: nat, j: Job, pipeline: Pipeline)
    requires j.status !in {Queued, Retrying}
    ensures Processed(policy, n, j, pipeline) ==
      if j.status == CancelRequested then Transition(j, Cancelled, "worker.cancelled", PLAIN).value else j
  {
  }

  lemma ExtendsSame(a: Job, b: Job, k: Job, n: nat)
    requires Extends(a, k, n)
    requires a.checkpoint == b.checkpoint && a.attempts == b.attempts && a.maxAttempts == b.maxAttempts && a.outputs == b.outputs
    ensures Extends(b, k, n)
  {
  }

  // ---------- the tables ----------

  function Updated(rows: seq<JobRow>, id: nat, job: Job): seq<JobRow>
    requires id < |rows|
  {
    rows[id := rows[id].(job := job)]
  }

  /** The delivery scheduled after a failed attempt. */
  function RetryRow(policy: RetryPolicy, id: nat, attempts: nat, now: real): OutboxRules.Row {
    OutboxRules.NewRow(id, now + Delay(policy, attempts))
  }

  /** A retry is delivered for the same job, and not before the doubled delay has passed. */
  lemma RetryWaits(policy: RetryPolicy, id: nat, attempts: nat, now: real, at: real, timeout: real)
    requires attempts >= 1 && policy.baseDelay >= 0.0
    ensures RetryRow(policy, id, attempts, now).job == id
    ensures OutboxRules.Eligible(RetryRow(policy, id, attempts, now), at, timeout) <==>
            now + Doubled(policy.baseDelay, policy.maxDelay, attempts - 1) <= at
  {
    hide Delay, Doubled;
    JobEffects.DelayDoubles(policy, attempts);
  }

  class JobStore {
    var jobs: seq<JobRow>
    var keys: Keys
    var outbox: seq<OutboxRules.Row>

    constructor ()
      ensures Contents() == Store([], map[], [])
    {
      jobs, keys, outbox := [], map[], [];
    }

    ghost function Contents(): Store
      reads this
    {
      Store(jobs, keys, outbox)
    }

    method CreateOrReplay(r: Request, now: real) returns (reply: Result<Reply>)
      modifies this
      ensures (Contents(), reply) == Create(old(Contents()), r, now)
    {
      if (r.tenant, r.key) in keys {
        var prior := keys[(r.tenant, r.key)];
        if prior.payload != r.payload {
          return Err(409);
        }
        return Ok(Reply(prior.job, true));
      }
      var id := |jobs|;
      var job := Job(Queued, 0, r.maxAttempts, 0, false, None, None, None, 1, [], map[]);
      keys := keys[(r.tenant, r.key) := KeyRow(r.payload, id)];
      job := AppendEvent(job, "job.accepted", Accepted);
      job := AppendEvent(job, "job.queued", Queued);
      jobs := jobs + [JobRow(r.tenant, r.user, r.key, r.payload, job)];
      outbox := outbox + [OutboxRules.NewRow(id, now)];
      reply := Ok(Reply(id, false));
    }

    static method AppendEvent(job: Job, kind: string, status: Status) returns (j: Job)
      ensures j == Log(job, kind, status)
    {
      j := job.(events := job.events + [Event(kind, status)]);
    }

    method Put(id: nat, job: Job)
      requires id < |jobs|
      modifies this`jobs
      ensures jobs == Updated(old(jobs), id, job)
    {
      jobs := jobs[id := jobs[id].(job := job)];
    }

    method Move(id: nat, next: Status, kind: string, change: Change) returns (moved: Result<Job>)
      requires id < |jobs|
      modifies this`jobs
      ensures moved == Transition(old(jobs)[id].job, next, kind, change)
      ensures jobs == if moved.Ok? then Updated(old(jobs), id, moved.value) else old(jobs)
    {
      var job := jobs[id].job;
      if job.status in TERMINAL || next !in Allowed(job.status) {
        return Err(409);
      }
      job := job.(status := next);
      if next == CancelRequested {
        job := job.(cancelRequested := true);
      }
      if change.result.Some? {
        job := job.(result := change.result);
      }
      if change.error.Some? {
        job := job.(error := change.error);
      }
      job := job.(retryDelay := change.retryDelay);
      job := job.(version := job.version + 1);
      job := AppendEvent(job, kind, next);
      Put(id, job);
      moved := Ok(job);
    }

    method BeginRun(id: nat) returns (begun: Result<Job>)
      requires id < |jobs|
      modifies this`jobs
      ensures begun == BeginAttempt(old(jobs)[id].job)
      ensures jobs == if begun.Ok? then Updated(old(jobs), id, begun.value) else old(jobs)
    {
      var job := jobs[id].job;
      if job.status != Queued {
        return Err(409);
      }
      job := job.(status := Running);
      job := job.(attempts := job.attempts + 1);
      job := job.(version := job.version + 1);
      job := AppendEvent(job, "worker.started", Running);
      Put(id, job);
      begun := Ok(job);
    }

    method Cancel(id: nat, tenant: nat) returns (job: Result<Job>)
      modifies this`jobs
      ensures id < |old(jobs)| && old(jobs)[id].tenant == tenant ==>
        && job == Ok(RequestCancel(old(jobs)[id].job))
        && jobs == Updated(old(jobs), id, RequestCancel(old(jobs)[id].job))
      ensures !(id < |old(jobs)| && old(jobs)[id].tenant == tenant) ==> job == Err(404) && jobs == old(jobs)
    {
      if id >= |jobs| || jobs[id].tenant != tenant {
        return Err(404);
      }
      var current := jobs[id].job;
      if current.status in TERMINAL || current.status == CancelRequested {
        return Ok(current);
      }
      var moved := Move(id, CancelRequested, "job.cancel_requested", PLAIN);
      job := Ok(jobs[id].job);
    }

    method Checkpoint(id: nat, index: nat)
      requires id < |jobs|
      modifies this`jobs
      ensures jobs == Updated(old(jobs), id, SaveCheckpoint(old(jobs)[id].job, index))
    {
      var job := jobs[id].job.(checkpoint := index);
      job := job.(version := job.version + 1);
      job := AppendEvent(job, "workflow.checkpoint", job.status);
      Put(id, job);
    }

    method RecordSideEffectOnce(id: nat, step: nat, output: Output) returns (inserted: bool)
      requires id < |jobs|
      modifies this`jobs
      ensures inserted <==> step !in old(jobs)[id].job.outputs
      ensures jobs == Updated(old(jobs), id, RecordOnce(old(jobs)[id].job, step, output))
    {
      inserted := step !in jobs[id].job.outputs;
      if inserted {
        var job := jobs[id].job;
        Put(id, job.(outputs := job.outputs[step := output]));
      }
    }

    method EnqueueRetry(id: nat, delay: real, now: real)
      modifies this`outbox
      ensures outbox == old(outbox) + [OutboxRules.NewRow(id, now + delay)]
    {
      outbox := outbox + [OutboxRules.NewRow(id, now + delay)];
    }
  }

  class Worker {
    const store: JobStore
    const retryPolicy: RetryPolicy

    constructor (store: JobStore, retryPolicy: RetryPolicy)
      ensures this.store == store && this.retryPolicy == retryPolicy
    {
      this.store, this.retryPolicy := store, retryPolicy;
    }

    /** One delivery handled with nobody else touching the job; `raised` tells an exception escaped. */
    method Process(id: nat, n: nat, pipeline: Pipeline, now: real) returns (raised: bool)
      requires id < |store.jobs|
      modifies store
      ensures store.jobs == Updated(old(store.jobs), id, Processed(retryPolicy, n, old(store.jobs)[id].job, pipeline))
      ensures store.keys == old(store.keys)
      ensures var before, after := old(store.jobs)[id].job, store.jobs[id].job;
        && (before.status == CancelRequested ==> !raised && after.status == Cancelled)
        && (before.status in TERMINAL + {Accepted} ==> !raised && after == before)
        && (before.status == Running ==> raised && after == before)
        && store.outbox == old(store.outbox) +
             if before.status in {Queued, Retrying} && after.status == Retrying
             then [RetryRow(retryPolicy, id, after.attempts, now)] else []
    {
      hide Drive, DriveOn, Processed, Delay;
      var job := store.jobs[id].job;
      if job.status in {Queued, Retrying} {
        ProcessBegins(retryPolicy, n, job, pipeline);
      } else {
        ProcessRefuses(retryPolicy, n, job, pipeline);
      }
      if job.status == CancelRequested {
        var moved := store.Move(id, Cancelled, "worker.cancelled", PLAIN);
        return moved.Err?;
      }
      if job.status !in {Queued, Running, Retrying} {
        return false;
      }
      if job.status == Retrying {
        var _ := store.Move(id, Queued, "worker.requeued", PLAIN);
      }
      var begun := store.BeginRun(id);
      if begun.Err? {
        return true;
      }
      raised := Loop(id, n, begun.value.checkpoint, pipeline, now);
    }

    method Loop(id: nat, n: nat, start: nat, pipeline: Pipeline, now: real) returns (raised: bool)
      requires id < |store.jobs| && store.jobs[id].job.status == Running && start == store.jobs[id].job.checkpoint
      modifies store
      ensures var k := DriveOn(retryPolicy, n, old(store.jobs)[id].job, start, start, map[], pipeline);
        && store.jobs == Updated(old(store.jobs), id, k)
        && store.keys == old(store.keys)
        && store.outbox == old(store.outbox) + if k.status == Retrying then [RetryRow(retryPolicy, id, k.attempts, now)] else []
    {
      hide Drive, DriveOn, Delay;
      ghost var j := store.jobs[id].job;
      var prior: Outputs := map[];
      var i := start;
      while i < n
        invariant start <= i && (i <= n || i == start)
        invariant store.keys == old(store.keys) && store.outbox == old(store.outbox)
        invariant |store.jobs| == |old(store.jobs)| && store.jobs == Updated(old(store.jobs), id, store.jobs[id].job)
        invariant store.jobs[id].job.status == Running
        invariant DriveOn(retryPolicy, n, store.jobs[id].job, i, start, prior, pipeline)
               == DriveOn(retryPolicy, n, j, start, start, map[], pipeline)
      {
        var job := store.jobs[id].job;
        DriveStep(retryPolicy, n, job, i, start, prior, pipeline);
        if job.cancelRequested || job.status == CancelRequested {
          var moved := store.Move(id, Cancelled, "worker.cancelled", PLAIN);
          return moved.Err?;
        }
        var output: Output;
        if i in job.outputs {
          output := job.outputs[i];
        } else {
          var answer := pipeline(i, prior);
          if answer.WorkerLost? {
            return true;
          }
          if answer.TransientFailure? {
            Reschedule(id, now);
            return false;
          }
          if answer.PermanentFailure? {
            var moved := store.Move(id, Failed, "worker.failed", Change(None, Some("permanent"), None));
            return moved.Err?;
          }
          output := answer.output;
          var _ := store.RecordSideEffectOnce(id, i, output);
        }
        prior := prior[i := output];
        store.Checkpoint(id, i + 1);
        i := i + 1;
      }
      DriveEnd(retryPolicy, n, store.jobs[id].job, i, start, prior, pipeline);
      var moved := store.Move(id, Succeeded, "worker.succeeded", Change(Some(prior), None, None));
      raised := moved.Err?;
    }

    /** A transient failure: the last attempt dead-letters, any other is scheduled again. */
    method Reschedule(id: nat, now: real)
      requires id < |store.jobs| && store.jobs[id].job.status == Running
      modifies store
      ensures var j := old(store.jobs)[id].job;
        && store.jobs == Updated(old(store.jobs), id, Rescheduled(retryPolicy, j))
        && store.keys == old(store.keys)
        && store.outbox == old(store.outbox)
           + if j.attempts >= j.maxAttempts then [] else [RetryRow(retryPolicy, id, j.attempts, now)]
    {
      hide Log, Delay;
      var current := store.jobs[id].job;
      if current.attempts >= current.maxAttempts {
        var _ := store.Move(id, DeadLettered, "worker.dead_lettered", Change(None, Some("transient"), None));
        return;
      }
      var delay := Delay(retryPolicy, current.attempts);
      var _ := store.Move(id, Retrying, "worker.retry_scheduled", Change(None, Some("transient"), Some(delay)));
      store.EnqueueRetry(id, delay, now);
    }
  }
}
