/**
 What each database transaction of the refund workflow does to the tables: the
 specification the methods of RefundService are proved against, and the steps the
 protocol interleaves.
 */
module RefundSteps {
  import opened Wrappers
  import opened RefundRows

  datatype Db = Db(orders: map<nat, Order>, team: map<nat, TeamCase>, cases: map<nat, Case>)

  // ---------- creating a request ----------

  const DAY: int := 86_400 * SECOND

  /** The request a body and a requester amount to. */
  datatype Body = Body(
    key: string, order: nat, amount: int, fault: Fault, approvalSeconds: Option<int>,
    teamCase: Option<nat>)

  function RequestOf(who: Principal, body: Body): Request {
    Request(body.key, body.order, body.amount, body.fault, body.approvalSeconds, body.teamCase, who.id)
  }

  predicate SameKey(w: Workflow, tenant: nat, key: string) {
    w.tenant == tenant && w.requestKey == key
  }

  predicate Eligible(order: Order, now: int) {
    0 <= now - order.deliveredAt <= 45 * DAY && order.standard
  }

  /** The checks on a prepared team case; None when they pass. */
  function TeamRefusal(db: Db, who: Principal, body: Body, settings: Settings): Option<nat> {
    if !settings.requireTeamCase && body.teamCase.None? then None
    else if body.teamCase.None? || body.teamCase.value !in db.team then Some(403)
    else
      var t := db.team[body.teamCase.value];
      if t.tenant != who.tenant || t.requester != who.id then Some(403)
      else if t.status != Ready then Some(409)
      else if t.order != body.order || t.amount != body.amount then Some(409)
      else None
  }

  /** The checks on the order; None when they pass. */
  function OrderRefusal(db: Db, who: Principal, body: Body): Option<nat> {
    if body.order !in db.orders || db.orders[body.order].tenant != who.tenant then Some(404)
    else if db.orders[body.order].customer != who.id then Some(403)
    else if exists v :: v in db.cases && db.cases[v].w.tenant == who.tenant && db.cases[v].w.order == body.order then Some(409)
    else if body.amount > db.orders[body.order].amount then Some(422)
    else None
  }

  function NewWorkflow(who: Principal, body: Body, wid: nat, settings: Settings, evidence: Option<TeamCase>, now: int): Workflow {
    var seconds := if body.approvalSeconds.Some? && body.approvalSeconds.value != 0
                   then body.approvalSeconds.value else settings.approvalSeconds;
    Workflow(wid, who.tenant, body.order, who.id, body.key, RequestOf(who, body),
             Received, 0, 1, body.amount, body.fault, seconds, now, evidence)
  }

  /** A fresh case, already judged by the refund policy. */
  function OpenCase(w: Workflow, order: Order, now: int): Case {
    var c := Case(w, [], [], [], [], [], map[]);
    if Eligible(order, now) then Emit(c, Submitted, None, None) else Transition(c, Rejected)
  }

  function EvidenceFor(team: map<nat, TeamCase>, body: Body): Option<TeamCase> {
    if body.teamCase.Some? && body.teamCase.value in team then Some(team[body.teamCase.value]) else None
  }

  function SubmitTeamCase(team: map<nat, TeamCase>, id: Option<nat>, wid: nat): map<nat, TeamCase> {
    if id.Some? && id.value in team
    then team[id.value := team[id.value].(status := SubmittedCase, workflow := Some(wid))]
    else team
  }

  /** `wid` is the fresh identifier the new row would get. */
  function Create(db: Db, who: Principal, body: Body, wid: nat, settings: Settings, now: int): Result<Db> {
    if who.role != Requester && who.role != FinanceManager then Err(403)
    else if !settings.labFaults
         && (body.fault != NoFault || (body.approvalSeconds.Some? && body.approvalSeconds.value != 0)) then Err(403)
    else if exists v :: v in db.cases && SameKey(db.cases[v].w, who.tenant, body.key) then
      if exists v :: v in db.cases && SameKey(db.cases[v].w, who.tenant, body.key)
                     && db.cases[v].w.request == RequestOf(who, body)
      then Ok(db) else Err(409)
    else if TeamRefusal(db, who, body, settings).Some? then Err(TeamRefusal(db, who, body, settings).value)
    else if OrderRefusal(db, who, body).Some? then Err(OrderRefusal(db, who, body).value)
    else
      var w := NewWorkflow(who, body, wid, settings, EvidenceFor(db.team, body), now);
      var c := OpenCase(w, db.orders[body.order], now);
      Ok(db.(cases := db.cases[wid := c], team := SubmitTeamCase(db.team, body.teamCase, wid)))
  }

  // ---------- approval ----------

  function Pause(c: Case, now: int): Case {
    if c.w.state != Received then c
    else
      var waiting := NewTask(Transition(c, WaitingApproval), TierRole(c.w.amount), 1, None, now);
      Emit(waiting, ApprovalRequested, Some(|c.tasks|), None)
  }

  datatype DecisionBody = DecisionBody(
    choice: Choice, reason: string, proposal: nat, taskVersion: nat, key: string)

  predicate Blank(s: string) {
    forall ch :: ch in s ==> IsSpace(ch)
  }

  function CommandOf(wid: nat, task: nat, body: DecisionBody): Command {
    Command(wid, task, body.choice, body.reason, body.proposal, body.taskVersion)
  }

  /** The checks that guard a human decision, in the source's order. */
  function DecisionRefusal(c: Case, task: nat, who: Principal, body: DecisionBody, now: int): Option<nat>
    requires task < |c.tasks|
  {
    var t := c.tasks[task];
    if who.id == c.w.requester then Some(403)
    else if who.role != t.role then Some(403)
    else if c.w.state != WaitingApproval || t.status != TaskPending then Some(409)
    else if body.proposal != c.w.proposal || body.proposal != t.proposal || body.taskVersion != t.version then Some(409)
    else if now >= t.due then Some(409)
    else if body.choice == OtherChoice || Blank(body.reason) then Some(422)
    else None
  }

  function RecordDecision(c: Case, task: nat, who: Principal, body: DecisionBody, now: int): Case
    requires task < |c.tasks|
  {
    var approve := body.choice == Approve;
    var d := Decision(task, who.id, who.role, approve, now, body.key, CommandOf(c.w.id, task, body));
    var closed := CloseTask(c.(decisions := c.decisions + [d]), task, if approve then Approved else TaskRejected, now);
    var settled := closed.(timers := SettleTimers(c.timers, task, Cancelled));
    var moved := Transition(settled, if approve then ReadyToExecute else Rejected);
    Emit(moved, if approve then ApprovalAccepted else Moved(Rejected), Some(task), Some(c.w.proposal))
  }

  /** Decision `i` of case `v` was issued by `actor` under `key`. */
  predicate Issued(db: Db, v: nat, i: nat, tenant: nat, actor: nat, key: string) {
    v in db.cases && i < |db.cases[v].decisions| && db.cases[v].w.tenant == tenant
    && db.cases[v].decisions[i].actor == actor && db.cases[v].decisions[i].key == key
  }

  ghost function Decide(db: Db, who: Principal, wid: nat, task: nat, body: DecisionBody, now: int): Result<Db> {
    if wid !in db.cases || db.cases[wid].w.tenant != who.tenant || task >= |db.cases[wid].tasks| then Err(404)
    else if exists v: nat, i: nat :: Issued(db, v, i, who.tenant, who.id, body.key) then
      if exists v: nat, i: nat :: Issued(db, v, i, who.tenant, who.id, body.key)
                        && db.cases[v].decisions[i].command == CommandOf(wid, task, body)
      then Ok(db) else Err(409)
    else
      var refusal := DecisionRefusal(db.cases[wid], task, who, body, now);
      if refusal.Some? then Err(refusal.value)
      else Ok(db.(cases := db.cases[wid := RecordDecision(db.cases[wid], task, who, body, now)]))
  }

  /** An overdue pending task is handed to the next role, or expires into manual review. */
  function Escalate(c: Case, task: nat, now: int): Case
    requires task < |c.tasks|
  {
    var t := c.tasks[task];
    if c.w.state != WaitingApproval || t.status != TaskPending || now < t.due then c
    else
      var next := NextRole(t.role);
      var closed := CloseTask(c, task, if next.Some? then Superseded else Expired, now);
      var fired := closed.(timers := SettleTimers(c.timers, task, Fired));
      if next.Some? then
        var renewed := NewTask(Transition(fired, WaitingApproval), next.value, t.stage + 1, Some(task), now);
        Emit(renewed, ApprovalEscalated, Some(|c.tasks|), None)
      else
        Emit(Transition(fired, ManualReview), Moved(ManualReview), None, None)
  }

  // ---------- outbox and inbox ----------

  function MarkRow(c: Case, no: nat, published: bool): Case
    requires no < |c.outbox|
  {
    c.(outbox := c.outbox[no := c.outbox[no].(published := published)])
  }

  datatype Disposition = Duplicate | Paused | Scheduled | Observed

  predicate ValidApproval(c: Case, e: Event) {
    && e.task.Some? && e.task.value < |c.tasks| && c.tasks[e.task.value].status == Approved
    && e.proposal == Some(c.w.proposal)
    && e.version == c.w.version
    && c.w.state == ReadyToExecute
  }

  /** Consumes one delivery: the inbox row and its effect commit together. */
  function HandleEvent(c: Case, e: Event, now: int): Result<(Case, Disposition)> {
    if e.no in c.inbox then
      if c.inbox[e.no] != e then Err(409) else Ok((c, Duplicate))
    else
      var seen := c.(inbox := c.inbox[e.no := e]);
      if e.kind == Submitted && c.w.state == Received then Ok((Pause(seen, now), Paused))
      else if e.kind == ApprovalAccepted && ValidApproval(c, e) then
        Ok((if c.attempts == [] then NewAttempt(seen, 0, now) else seen, Scheduled))
      else Ok((seen, Observed))
  }

  function Consume(db: Db, e: Event, now: int): Result<Db> {
    if e.schema != 1 then Err(422)
    else if e.wid !in db.cases || db.cases[e.wid].w.tenant != e.tenant then Err(404)
    else
      match HandleEvent(db.cases[e.wid], e, now)
      case Err(code) => Err(code)
      case Ok(r) => Ok(db.(cases := db.cases[e.wid := r.0]))
  }

  // ---------- execution ----------

  predicate Claimable(c: Case, now: int) {
    && c.w.state in {ReadyToExecute, RetryWait}
    && exists n :: 0 <= n < |c.attempts| && c.attempts[n].status == Pending && c.attempts[n].availableAt <= now
  }

  /** The pending attempt the claiming update returns; the tables allow only one. */
  function PendingNo(attempts: seq<Attempt>): (n: nat)
    requires exists i :: 0 <= i < |attempts| && attempts[i].status == Pending
    ensures n < |attempts| && attempts[n].status == Pending
  {
    if attempts[|attempts| - 1].status == Pending then |attempts| - 1
    else PendingNo(attempts[..|attempts| - 1])
  }

  /** Every pending attempt starts running. */
  function StartPending(attempts: seq<Attempt>, leaseUntil: int): seq<Attempt> {
    seq(|attempts|, i requires 0 <= i < |attempts| =>
      if attempts[i].status == Pending
      then attempts[i].(status := Running, leaseUntil := leaseUntil, fence := attempts[i].fence + 1)
      else attempts[i])
  }

  function Claim(c: Case, leaseUntil: int): Case {
    Transition(c.(attempts := StartPending(c.attempts, leaseUntil)), Executing)
  }

  datatype Outcome = Success(receipt: nat) | RetryLater | Ambiguous | Refused

  function OutcomeStatus(o: Outcome): AttemptStatus {
    match o
    case Success(_) => Succeeded
    case RetryLater => Retry
    case Ambiguous => Unknown
    case Refused => Failed
  }

  function OutcomeState(o: Outcome, no: nat): State {
    match o
    case Success(_) => Completed
    case RetryLater => if no >= MAX_ATTEMPTS then ManualReview else RetryWait
    case Ambiguous => Reconciling
    case Refused => ManualReview
  }

  predicate StillClaimed(c: Case, n: nat, fence: nat) {
    && n < |c.attempts| && c.attempts[n].status == Running && c.attempts[n].fence == fence
    && c.w.state == Executing
  }

  /** A claimant reports on attempt `n` (numbered n+1); a stale claimant changes nothing. */
  function Finish(c: Case, n: nat, fence: nat, o: Outcome, now: int): Case {
    if !StillClaimed(c, n, fence) then c
    else
      var receipt := if o.Success? then Some(o.receipt) else None;
      var closed := c.(attempts := c.attempts[n := c.attempts[n].(status := OutcomeStatus(o), receipt := receipt)]);
      var state := OutcomeState(o, n + 1);
      var queued := if state == RetryWait then NewAttempt(closed, Pow2(n + 1), now) else closed;
      Emit(Transition(queued, state), Moved(state), None, None)
  }

  function RecoverExpired(c: Case, n: nat, now: int): Case
    requires n < |c.attempts|
  {
    var e := c.attempts[n];
    if e.status != Running || now <= e.leaseUntil then c
    else Transition(c.(attempts := c.attempts[n := e.(status := Unknown, fence := e.fence + 1)]), Reconciling)
  }

  // ---------- reconciliation ----------

  datatype Answer = Found(receipt: nat) | Absent | Unavailable

  predicate Reconcilable(c: Case) {
    c.w.state in {Reconciling, ManualReview} && c.attempts != []
  }

  /** Every attempt of unknown outcome is known to have succeeded with `receipt`. */
  function SettleUnknown(attempts: seq<Attempt>, receipt: nat): seq<Attempt> {
    seq(|attempts|, i requires 0 <= i < |attempts| =>
      if attempts[i].status == Unknown
      then attempts[i].(status := Succeeded, receipt := Some(receipt)) else attempts[i])
  }

  /** Applies a provider answer obtained when the row had `version`. */
  function ReconcileApply(c: Case, version: nat, a: Answer, now: int): Case {
    if c.w.version != version || c.attempts == [] then c
    else
      match a
      case Found(receipt) =>
        Emit(Transition(c.(attempts := SettleUnknown(c.attempts, receipt)), Completed), Moved(Completed), None, None)
      case Absent =>
        if |c.attempts| < MAX_ATTEMPTS && c.attempts[|c.attempts| - 1].status == Unknown
        then NewAttempt(Transition(c, RetryWait), 2, now)
        else if c.w.state != ManualReview then Transition(c, ManualReview)
        else c
      case Unavailable =>
        if c.w.state != ManualReview then Transition(c, ManualReview) else c
  }

  function OperatorClose(c: Case): Result<Case> {
    if c.w.state != ManualReview then Err(409)
    else if exists n :: 0 <= n < |c.attempts| && c.attempts[n].status != Failed then Err(409)
    else Ok(Transition(c, Closed))
  }
}

/** The independent provider and its idempotent ledger. */
module ProviderRules {
  import opened RefundRows
  import opened RefundSteps

  datatype Refund = Refund(key: OpKey, order: nat, amount: int)

  /** One POST: the refund proper, the injected fault and the attempt number. */
  datatype Post = Post(refund: Refund, fault: Fault, attemptNo: nat)

  datatype LedgerRow = LedgerRow(refund: Refund, receipt: nat, fault: Fault)

  datatype Provider = Provider(ledger: map<OpKey, LedgerRow>, issued: nat, labFaults: bool)

  /** Busy and Rejected promise that nothing was refunded; Odd promises nothing. */
  datatype Reply = Settled(receipt: nat) | Busy | RejectedByProvider | Odd

  function EffectiveFault(p: Provider, fault: Fault): Fault {
    if p.labFaults then fault else NoFault
  }

  function Pay(p: Provider, post: Post): (Provider, Reply) {
    var fault := EffectiveFault(p, post.fault);
    if fault == PermanentFault then (p, RejectedByProvider)
    else if fault == TransientOnce && post.attemptNo == 1 then (p, Busy)
    else if post.refund.key in p.ledger then
      var row := p.ledger[post.refund.key];
      (p, if row.refund == post.refund then Settled(row.receipt) else RejectedByProvider)
    else
      var row := LedgerRow(post.refund, p.issued, fault);
      (p.(ledger := p.ledger[post.refund.key := row], issued := p.issued + 1), Settled(p.issued))
  }

  function Status(p: Provider, key: OpKey): Answer {
    if key !in p.ledger then Absent
    else if p.ledger[key].fault == UnknownStatus then Unavailable
    else Found(p.ledger[key].receipt)
  }

  function Restore(p: Provider, key: OpKey): Provider {
    if p.labFaults && key in p.ledger
    then p.(ledger := p.ledger[key := p.ledger[key].(fault := NoFault)]) else p
  }

  /**
   What the status answers are worth: after a settled POST they never say absent, they name
   its receipt once the row's fault is cleared, and after absent the next POST settles anew.
   */
  lemma StatusTellsOfPayment(p: Provider, post: Post)
    ensures var key := post.refund.key; var (q, reply) := Pay(p, post);
      && (reply.Settled? ==> Status(q, key) in {Found(reply.receipt), Unavailable})
      && (reply.Settled? && q.labFaults ==> Status(Restore(q, key), key) == Found(reply.receipt))
      && (!reply.Settled? ==> Status(q, key) == Status(p, key))
      && (Status(p, key) == Absent && reply.Settled? ==> reply.receipt == p.issued && q.issued == p.issued + 1)
      && (Status(p, key).Found? && reply.Settled? ==> reply.receipt == Status(p, key).receipt && q == p)
  {
  }
}
