/**
 Rows of the refund workflow database and the row-level primitives that every
 transaction is made of.  A `Case` is one workflow_instances row together with
 all the rows that reference it.  Tasks, timers, attempts and outbox events are
 identified by their position within the case.
 */
module RefundRows {
  import opened Wrappers
  import TeamRules

  /** Clock readings are integers, in microseconds. */
  const SECOND: int := 1_000_000
  const MAX_ATTEMPTS: nat := 3

  datatype Role = Requester | SupportLead | FinanceManager | FinanceDirector | Operator

  /** Rising approval authority; roles that approve nothing rank 0. */
  function Rank(role: Role): nat {
    match role
    case SupportLead => 1
    case FinanceManager => 2
    case FinanceDirector => 3
    case _ => 0
  }

  function TierRole(amount: int): Role {
    if amount <= 750_000 then SupportLead
    else if amount <= 2_500_000 then FinanceManager
    else FinanceDirector
  }

  function NextRole(role: Role): Option<Role> {
    match role
    case SupportLead => Some(FinanceManager)
    case FinanceManager => Some(FinanceDirector)
    case _ => None
  }

  datatype Principal = Principal(id: nat, tenant: nat, role: Role)

  datatype Fault = NoFault | LostResponse | CrashAfterRefund | TransientOnce | PermanentFault | UnknownStatus

  datatype State =
    | Received | WaitingApproval | ReadyToExecute | Executing | RetryWait
    | Reconciling | Completed | Rejected | ManualReview | Closed

  predicate Final(state: State) {
    state in {Completed, Rejected, Closed}
  }

  /** The provider key; digesting it into a string loses nothing. */
  datatype OpKey = OpKey(tenant: nat, wid: nat, proposal: nat)

  /** `evidence` is the team case the request was prepared with, as read at `createdAt`. */
  datatype Workflow = Workflow(
    id: nat, tenant: nat, order: nat, requester: nat, requestKey: string, request: Request,
    state: State, version: nat, proposal: nat, amount: int, fault: Fault, approvalSeconds: int,
    createdAt: int, evidence: Option<TeamCase>)

  /** The submitted body; the source stores its digest, which is taken to be injective. */
  datatype Request = Request(
    key: string, order: nat, amount: int, fault: Fault, approvalSeconds: Option<int>,
    teamCase: Option<nat>, requester: nat)

  function OperationKey(w: Workflow): OpKey {
    OpKey(w.tenant, w.id, w.proposal)
  }

  datatype TaskStatus = TaskPending | Approved | TaskRejected | Superseded | Expired

  datatype Task = Task(
    stage: nat, role: Role, proposal: nat, status: TaskStatus, version: nat,
    due: int, supersedes: Option<nat>, closedAt: Option<int>)

  datatype TimerStatus = TimerPending | Fired | Cancelled

  datatype Timer = Timer(task: nat, due: int, status: TimerStatus)

  datatype Choice = Approve | Reject | OtherChoice

  /** What a decision command says; the source stores its digest, taken to be injective. */
  datatype Command = Command(
    wid: nat, task: nat, choice: Choice, reason: string, proposal: nat, taskVersion: nat)

  /** `role` is the actor's role when deciding, `at` the clock reading compared with the deadline. */
  datatype Decision = Decision(
    task: nat, actor: nat, role: Role, approve: bool, at: int, key: string, command: Command)

  datatype AttemptStatus = Pending | Running | Succeeded | Retry | Unknown | Failed

  datatype Attempt = Attempt(
    key: OpKey, status: AttemptStatus, fence: nat, leaseUntil: int, availableAt: int,
    receipt: Option<nat>)

  datatype EventKind =
    | Submitted | ApprovalRequested | ApprovalEscalated | ApprovalAccepted | Moved(state: State)

  datatype Event = Event(
    wid: nat, tenant: nat, no: nat, version: nat, kind: EventKind, schema: nat,
    task: Option<nat>, proposal: Option<nat>)

  datatype OutboxRow = OutboxRow(event: Event, published: bool)

  datatype Case = Case(
    w: Workflow, tasks: seq<Task>, timers: seq<Timer>, decisions: seq<Decision>,
    attempts: seq<Attempt>, outbox: seq<OutboxRow>, inbox: map<nat, Event>)

  datatype Order = Order(tenant: nat, customer: nat, deliveredAt: int, amount: int, standard: bool)

  datatype TeamStatus = Collecting | Ready | Blocked | SubmittedCase

  /** A team case; `facts` is its source data and `snapshot` the answers it became ready on. */
  datatype TeamCase = TeamCase(
    tenant: nat, requester: nat, order: nat, amount: int, status: TeamStatus,
    facts: TeamRules.Facts, snapshot: Option<TeamRules.Results>, workflow: Option<nat>)

  /** `providerLabFaults` is the provider's own setting; it is another process. */
  datatype Settings = Settings(
    labFaults: bool, requireTeamCase: bool, approvalSeconds: int, leaseSeconds: int, providerLabFaults: bool)

  // ---------- row-level primitives ----------

  /** Moves a workflow with no check at all, as the source does. */
  function Transition(c: Case, state: State): Case {
    c.(w := c.w.(state := state, version := c.w.version + 1))
  }

  function Emit(c: Case, kind: EventKind, task: Option<nat>, proposal: Option<nat>): Case {
    var event := Event(c.w.id, c.w.tenant, |c.outbox|, c.w.version, kind, 1, task, proposal);
    c.(outbox := c.outbox + [OutboxRow(event, false)])
  }

  function NewTask(c: Case, role: Role, stage: nat, supersedes: Option<nat>, now: int): Case {
    var due := now + c.w.approvalSeconds * SECOND;
    var task := Task(stage, role, c.w.proposal, TaskPending, 0, due, supersedes, None);
    c.(tasks := c.tasks + [task], timers := c.timers + [Timer(|c.tasks|, due, TimerPending)])
  }

  function CloseTask(c: Case, task: nat, status: TaskStatus, now: int): Case
    requires task < |c.tasks|
  {
    var t := c.tasks[task];
    c.(tasks := c.tasks[task := t.(status := status, version := t.version + 1, closedAt := Some(now))])
  }

  /** The timer of `task`, if still pending, gets `status`. */
  function SettleTimers(timers: seq<Timer>, task: nat, status: TimerStatus): seq<Timer> {
    seq(|timers|, i requires 0 <= i < |timers| =>
      if timers[i].task == task && timers[i].status == TimerPending
      then timers[i].(status := status) else timers[i])
  }

  function NewAttempt(c: Case, delay: nat, now: int): Case {
    c.(attempts := c.attempts +
      [Attempt(OperationKey(c.w), Pending, 0, 0, now + delay * SECOND, None)])
  }
}
