/**
 The invariant of one refund case, and the proof that every transaction keeps it.
 `Transition` checks nothing, so each of these facts is global: it holds because of
 what every other transaction does.
 */
module RefundInvariant {
  import opened Wrappers
  import opened RefundRows
  import opened RefundSteps

  function Last(tasks: seq<Task>): Task
    requires tasks != []
  {
    tasks[|tasks| - 1]
  }

  function Latest(attempts: seq<Attempt>): AttemptStatus
    requires attempts != []
  {
    attempts[|attempts| - 1].status
  }

  predicate Authorized(tasks: seq<Task>) {
    tasks != [] && Last(tasks).status == Approved
  }

  predicate Decided(tasks: seq<Task>) {
    tasks != [] && Last(tasks).status in {Approved, TaskRejected}
  }

  /** Task `i` of a chain whose first task has role `tier` and whose last index is `last`. */
  predicate TaskOk(t: Task, i: nat, last: int, tier: Role, proposal: nat) {
    && t.stage == i + 1
    && t.supersedes == (if i == 0 then None else Some(i - 1))
    && t.proposal == proposal
    && Rank(t.role) == Rank(tier) + i
    && (t.status == Superseded <==> i < last)
    && (t.status == TaskPending <==> t.closedAt.None?)
    && (t.status in {Superseded, Expired} ==> t.closedAt.value >= t.due)
    && (t.status == Expired ==> t.role == FinanceDirector)
  }

  predicate TimerOk(r: Timer, i: nat, t: Task) {
    && r.task == i
    && r.due == t.due
    && r.status == match t.status {
      case TaskPending => TimerPending
      case Approved => Cancelled
      case TaskRejected => Cancelled
      case _ => Fired
    }
  }

  predicate ChainOk(tasks: seq<Task>, timers: seq<Timer>, tier: Role, proposal: nat) {
    && (forall i :: 0 <= i < |tasks| ==> TaskOk(tasks[i], i, |tasks| - 1, tier, proposal))
    && |timers| == |tasks|
    && (forall i :: 0 <= i < |tasks| ==> TimerOk(timers[i], i, tasks[i]))
  }

  /** The decision that closed task `t`: by an authorised stranger, in time. */
  predicate Signed(d: Decision, requester: nat, t: Task) {
    && d.actor != requester
    && d.role == t.role
    && d.at < t.due
    && (d.approve <==> t.status == Approved)
    && t.closedAt == Some(d.at)
  }

  predicate DecisionsOk(decisions: seq<Decision>, tasks: seq<Task>, requester: nat) {
    if Decided(tasks) then
      |decisions| == 1 && decisions[0].task == |tasks| - 1 && Signed(decisions[0], requester, Last(tasks))
    else decisions == []
  }

  predicate StateOk(state: State, tasks: seq<Task>, attempts: seq<Attempt>) {
    && (attempts != [] ==> Authorized(tasks))
    && (state == Received ==> tasks == [])
    && if tasks == [] then state in {Received, Rejected} else
      match Last(tasks).status
      case TaskPending => state == WaitingApproval
      case TaskRejected => state == Rejected
      case Expired => state in {ManualReview, Closed}
      case Approved => state !in {Received, WaitingApproval, Rejected}
      case Superseded => false
  }

  /** What the latest attempt says about the state of the workflow. */
  predicate LatestOk(latest: AttemptStatus, state: State) {
    match latest
    case Pending => state in {ReadyToExecute, RetryWait}
    case Running => state == Executing
    case Unknown => state in {Reconciling, ManualReview}
    case Retry => state in {ManualReview, Completed}
    case Failed => state in {ManualReview, Closed, Completed}
    case Succeeded => state == Completed
  }

  predicate AttemptsOk(attempts: seq<Attempt>, state: State, key: OpKey) {
    && |attempts| <= MAX_ATTEMPTS
    && (forall i :: 0 <= i < |attempts| ==> attempts[i].key == key)
    && (forall i :: 0 <= i < |attempts| - 1 ==>
      attempts[i].status in {Retry, Unknown, Succeeded}
      && (attempts[i].status == Succeeded ==> state == Completed)
      && state != Closed)
    && if attempts == [] then state !in {Executing, RetryWait, Reconciling, Completed} else
      && LatestOk(Latest(attempts), state)
      && (state == ReadyToExecute ==> |attempts| == 1)
      && (state == Executing ==> Latest(attempts) == Running)
      && (state == RetryWait ==> Latest(attempts) == Pending)
      && (state == Reconciling ==> Latest(attempts) == Unknown)
  }

  predicate EventOk(e: Event, i: nat, w: Workflow, tasks: seq<Task>) {
    && e.wid == w.id && e.tenant == w.tenant && e.no == i && e.schema == 1
    && e.version <= w.version
    && (e.kind == ApprovalAccepted ==>
      Authorized(tasks) && e.task == Some(|tasks| - 1) && e.proposal == Some(w.proposal))
  }

  /** Event `i` is the unconsumed approval that entitles a case at `version` to its first attempt. */
  predicate Entitles(outbox: seq<OutboxRow>, inbox: map<nat, Event>, version: nat, i: nat) {
    && i < |outbox| && i !in inbox
    && outbox[i].event.kind == ApprovalAccepted
    && outbox[i].event.version == version
  }

  predicate LogOk(outbox: seq<OutboxRow>, inbox: map<nat, Event>, w: Workflow, tasks: seq<Task>) {
    && (forall i :: 0 <= i < |outbox| ==> EventOk(outbox[i].event, i, w, tasks))
    && (forall i :: i in inbox ==> i < |outbox| && inbox[i] == outbox[i].event)
  }

  /** A case that waits on an event still has that event coming. */
  predicate PromiseOk(c: Case) {
    && (c.w.state == Received ==>
      |c.outbox| == 1 && c.outbox[0].event.kind == Submitted && 0 !in c.inbox)
    && (c.w.state == ReadyToExecute && c.attempts == [] ==>
      exists i :: 0 <= i < |c.outbox| && Entitles(c.outbox, c.inbox, c.w.version, i))
  }

  predicate CaseInv(c: Case) {
    && ChainOk(c.tasks, c.timers, TierRole(c.w.amount), c.w.proposal)
    && DecisionsOk(c.decisions, c.tasks, c.w.requester)
    && StateOk(c.w.state, c.tasks, c.attempts)
    && AttemptsOk(c.attempts, c.w.state, OperationKey(c.w))
    && LogOk(c.outbox, c.inbox, c.w, c.tasks)
    && PromiseOk(c)
  }

  // ---------- what no transaction undoes ----------

  predicate SameIdentity(w: Workflow, w': Workflow) {
    w' == w.(state := w'.state, version := w'.version)
  }

  predicate StatusMoves(a: AttemptStatus, b: AttemptStatus) {
    || a == b
    || (a == Pending && b == Running)
    || (a == Running && b in {Succeeded, Retry, Unknown, Failed})
    || (a == Unknown && b == Succeeded)
  }

  predicate AttemptMoves(a: Attempt, b: Attempt) {
    b.key == a.key && a.fence <= b.fence && StatusMoves(a.status, b.status)
  }

  predicate InboxGrows(a: map<nat, Event>, b: map<nat, Event>) {
    forall i :: i in a ==> i in b && b[i] == a[i]
  }

  /** What every transaction leaves standing. */
  predicate Evolves(c: Case, d: Case) {
    && SameIdentity(c.w, d.w)
    && c.w.version <= d.w.version
    && (c.w.version == d.w.version ==> c.w.state == d.w.state)
    && (Final(c.w.state) ==> d.w.state == c.w.state)
    && |c.outbox| <= |d.outbox|
    && (forall i :: 0 <= i < |c.outbox| ==> d.outbox[i].event == c.outbox[i].event)
    && InboxGrows(c.inbox, d.inbox)
    && c.decisions <= d.decisions
    && |c.tasks| <= |d.tasks|
    && |c.attempts| <= |d.attempts|
    && (forall i :: 0 <= i < |c.attempts| ==> AttemptMoves(c.attempts[i], d.attempts[i]))
  }

  // ---------- every transaction keeps the invariant ----------

  lemma OpenKeeps(w: Workflow, order: Order, now: int)
    requires w.state == Received && w.version == 0
    ensures CaseInv(OpenCase(w, order, now))
  {
  }

  /** `c` is a received case whose submission has just entered the inbox. */
  lemma PauseKeeps(c: Case, now: int)
    requires CaseInv(c.(inbox := map[])) && c.w.state == Received
    requires c.inbox == map[0 := c.outbox[0].event]
    ensures CaseInv(Pause(c, now)) && Evolves(c, Pause(c, now))
  {
  }

  /** Only the last task of a chain can be pending. */
  lemma PendingIsLast(c: Case, task: nat)
    requires CaseInv(c) && task < |c.tasks| && c.tasks[task].status == TaskPending
    ensures task == |c.tasks| - 1 && !Decided(c.tasks) && c.decisions == [] && c.attempts == []
  {
  }

  /** Deciding the pending end of a chain leaves a chain. */
  lemma DecideChain(c: Case, status: TaskStatus, now: int)
    requires ChainOk(c.tasks, c.timers, TierRole(c.w.amount), c.w.proposal)
    requires c.tasks != [] && Last(c.tasks).status == TaskPending && status in {Approved, TaskRejected}
    ensures var d := CloseTask(c, |c.tasks| - 1, status, now);
      ChainOk(d.tasks, SettleTimers(c.timers, |c.tasks| - 1, Cancelled), TierRole(c.w.amount), c.w.proposal)
  {
  }

  lemma SignsInTime(c: Case, task: nat, who: Principal, body: DecisionBody, now: int)
    requires task < |c.tasks| && c.decisions == [] && DecisionRefusal(c, task, who, body, now).None?
    ensures var d := RecordDecision(c, task, who, body, now);
      Signed(d.decisions[0], c.w.requester, d.tasks[task])
  {
  }

  /** One more event, in a case whose log holds no approval yet. */
  lemma LogAppends(c: Case, later: Workflow, tasks: seq<Task>, row: OutboxRow)
    requires LogOk(c.outbox, c.inbox, c.w, c.tasks) && !Authorized(c.tasks) && c.w.version <= later.version
    requires later.id == c.w.id && later.tenant == c.w.tenant && later.proposal == c.w.proposal
    requires EventOk(row.event, |c.outbox|, later, tasks)
    ensures LogOk(c.outbox + [row], c.inbox, later, tasks) && |c.outbox| !in c.inbox
  {
  }

  lemma DecisionKeeps(c: Case, task: nat, who: Principal, body: DecisionBody, now: int)
    requires CaseInv(c) && task < |c.tasks|
    requires DecisionRefusal(c, task, who, body, now).None?
    ensures CaseInv(RecordDecision(c, task, who, body, now))
  {
    hide Signed, ChainOk, LogOk;
    PendingIsLast(c, task);
    DecideChain(c, if body.choice == Approve then Approved else TaskRejected, now);
    SignsInTime(c, task, who, body, now);
    var d := RecordDecision(c, task, who, body, now);
    LogAppends(c, d.w, d.tasks, d.outbox[|c.outbox|]);
    hide EventOk, AttemptsOk, Blank;
    if body.choice == Approve {
      assert Entitles(d.outbox, d.inbox, d.w.version, |c.outbox|);
    }
  }

  lemma DecisionEvolves(c: Case, task: nat, who: Principal, body: DecisionBody, now: int)
    requires CaseInv(c) && task < |c.tasks|
    requires DecisionRefusal(c, task, who, body, now).None?
    ensures Evolves(c, RecordDecision(c, task, who, body, now))
  {
  }

  /** Closing the pending end of a chain, with nothing added, leaves a chain. */
  lemma ExpireChain(c: Case, now: int)
    requires ChainOk(c.tasks, c.timers, TierRole(c.w.amount), c.w.proposal)
    requires c.tasks != [] && Last(c.tasks).status == TaskPending && now >= Last(c.tasks).due
    requires Last(c.tasks).role == FinanceDirector
    ensures var d := CloseTask(c, |c.tasks| - 1, Expired, now);
      ChainOk(d.tasks, SettleTimers(c.timers, |c.tasks| - 1, Fired), TierRole(c.w.amount), c.w.proposal)
  {
  }

  /** Superseding the pending end of a chain and adding the next role leaves a chain. */
  lemma HandOverChain(c: Case, next: Role, now: int)
    requires ChainOk(c.tasks, c.timers, TierRole(c.w.amount), c.w.proposal)
    requires c.tasks != [] && Last(c.tasks).status == TaskPending && now >= Last(c.tasks).due
    requires NextRole(Last(c.tasks).role) == Some(next)
    ensures var k := |c.tasks| - 1;
      var d := CloseTask(c, k, Superseded, now).(timers := SettleTimers(c.timers, k, Fired));
      var e := NewTask(d, next, c.tasks[k].stage + 1, Some(k), now);
      ChainOk(e.tasks, e.timers, TierRole(c.w.amount), c.w.proposal)
  {
  }

  lemma LastApproves(c: Case)
    requires CaseInv(c) && c.tasks != []
    ensures NextRole(Last(c.tasks).role).None? ==> Last(c.tasks).role == FinanceDirector
  {
    assert TaskOk(Last(c.tasks), |c.tasks| - 1, |c.tasks| - 1, TierRole(c.w.amount), c.w.proposal);
  }

  lemma EscalateKeeps(c: Case, task: nat, now: int)
    requires CaseInv(c) && task < |c.tasks|
    ensures CaseInv(Escalate(c, task, now))
  {
    hide TaskOk, TimerOk;
    if Escalate(c, task, now) != c {
      PendingIsLast(c, task);
      LastApproves(c);
      var next := NextRole(c.tasks[task].role);
      if next.Some? {
        HandOverChain(c, next.value, now);
      } else {
        ExpireChain(c, now);
      }
    }
  }

  lemma EscalateEvolves(c: Case, task: nat, now: int)
    requires CaseInv(c) && task < |c.tasks|
    ensures Evolves(c, Escalate(c, task, now))
  {
  }

  /** A genuine approval event, unless seen before, finds the case ready for its first attempt. */
  lemma ScheduleKeeps(c: Case, e: Event, now: int)
    requires CaseInv(c) && e.no < |c.outbox| && c.outbox[e.no].event == e && e.no !in c.inbox
    requires ValidApproval(c, e)
    ensures var seen := c.(inbox := c.inbox[e.no := e]);
      var d := if c.attempts == [] then NewAttempt(seen, 0, now) else seen;
      CaseInv(d) && Evolves(c, d)
  {
  }

  /** Any other delivery only enters the inbox. */
  lemma ObserveKeeps(c: Case, e: Event)
    requires CaseInv(c) && e.no < |c.outbox| && c.outbox[e.no].event == e && e.no !in c.inbox
    requires c.w.state != Received
    requires !(e.kind == ApprovalAccepted && ValidApproval(c, e))
    ensures CaseInv(c.(inbox := c.inbox[e.no := e]))
  {
    var d := c.(inbox := c.inbox[e.no := e]);
    if c.w.state == ReadyToExecute && c.attempts == [] {
      var i :| 0 <= i < |c.outbox| && Entitles(c.outbox, c.inbox, c.w.version, i);
      assert Entitles(d.outbox, d.inbox, d.w.version, i);
    }
  }

  lemma HandleKeeps(c: Case, e: Event, now: int)
    requires CaseInv(c) && e.no < |c.outbox| && c.outbox[e.no].event == e
    ensures HandleEvent(c, e, now).Ok?
    ensures CaseInv(HandleEvent(c, e, now).value.0)
    ensures Evolves(c, HandleEvent(c, e, now).value.0)
  {
    if e.no !in c.inbox {
      var seen := c.(inbox := c.inbox[e.no := e]);
      if c.w.state == Received {
        assert c.inbox == map[];
        assert seen.(inbox := map[]) == c;
        PauseKeeps(seen, now);
      } else if e.kind == ApprovalAccepted && ValidApproval(c, e) {
        ScheduleKeeps(c, e, now);
      } else {
        ObserveKeeps(c, e);
      }
    }
  }

  lemma ClaimKeeps(c: Case, now: int, leaseUntil: int)
    requires CaseInv(c) && Claimable(c, now)
    ensures CaseInv(Claim(c, leaseUntil))
  {
    hide ChainOk, DecisionsOk, LogOk;
    var d := Claim(c, leaseUntil);
    assert d.tasks == c.tasks && d.timers == c.timers && d.decisions == c.decisions;
    LogLater(c.outbox, c.inbox, c.w, d.w, c.tasks);
  }

  lemma ClaimEvolves(c: Case, now: int, leaseUntil: int)
    requires CaseInv(c) && Claimable(c, now)
    ensures Evolves(c, Claim(c, leaseUntil))
  {
  }

  /** Only the last attempt can be running. */
  lemma RunningIsLast(c: Case, n: nat)
    requires CaseInv(c) && n < |c.attempts| && c.attempts[n].status == Running
    ensures n == |c.attempts| - 1 && c.w.state == Executing && Authorized(c.tasks)
  {
    hide ChainOk, DecisionsOk, LogOk, PromiseOk;
    assert forall i | 0 <= i < |c.attempts| - 1 :: c.attempts[i].status != Running;
    assert LatestOk(Latest(c.attempts), c.w.state);
  }

  lemma FinishKeeps(c: Case, n: nat, fence: nat, o: Outcome, now: int)
    requires CaseInv(c)
    ensures CaseInv(Finish(c, n, fence, o, now))
  {
    if StillClaimed(c, n, fence) {
      RunningIsLast(c, n);
      var d := Finish(c, n, fence, o, now);
    }
  }

  lemma FinishEvolves(c: Case, n: nat, fence: nat, o: Outcome, now: int)
    requires CaseInv(c)
    ensures Evolves(c, Finish(c, n, fence, o, now))
  {
  }

  lemma RecoverKeeps(c: Case, n: nat, now: int)
    requires CaseInv(c) && n < |c.attempts|
    ensures CaseInv(RecoverExpired(c, n, now))
  {
    if c.attempts[n].status == Running {
      RunningIsLast(c, n);
    }
  }

  lemma RecoverEvolves(c: Case, n: nat, now: int)
    requires CaseInv(c) && n < |c.attempts|
    ensures Evolves(c, RecoverExpired(c, n, now))
  {
    hide ChainOk, DecisionsOk, PromiseOk, StateOk;
    if c.attempts[n].status == Running {
      RunningIsLast(c, n);
    }
  }

  /** A receipt found for the case settles every unknown attempt. */
  lemma FoundKeeps(c: Case, receipt: nat, now: int)
    requires CaseInv(c) && Reconcilable(c)
    ensures CaseInv(ReconcileApply(c, c.w.version, Found(receipt), now))
  {
    var d := ReconcileApply(c, c.w.version, Found(receipt), now);
  }

  lemma ReconcileKeeps(c: Case, version: nat, a: Answer, now: int)
    requires CaseInv(c)
    requires c.w.version == version ==> Reconcilable(c)
    ensures CaseInv(ReconcileApply(c, version, a, now))
  {
    if c.w.version == version {
      match a
      case Found(receipt) => FoundKeeps(c, receipt, now);
      case Absent => AbsentKeeps(c, now);
      case Unavailable =>
    }
  }

  lemma LogLater(outbox: seq<OutboxRow>, inbox: map<nat, Event>, w: Workflow, later: Workflow, tasks: seq<Task>)
    requires LogOk(outbox, inbox, w, tasks) && w.version <= later.version
    requires later.id == w.id && later.tenant == w.tenant && later.proposal == w.proposal
    ensures LogOk(outbox, inbox, later, tasks)
  {
  }

  /** Absence confirmed: one more attempt while the budget lasts. */
  lemma AbsentKeeps(c: Case, now: int)
    requires CaseInv(c) && Reconcilable(c)
    ensures CaseInv(ReconcileApply(c, c.w.version, Absent, now))
  {
    hide ChainOk, DecisionsOk, LogOk;
    var d := ReconcileApply(c, c.w.version, Absent, now);
    assert d.tasks == c.tasks && d.timers == c.timers && d.decisions == c.decisions;
    LogLater(c.outbox, c.inbox, c.w, d.w, c.tasks);
    assert |c.attempts| < |d.attempts| ==> d.attempts[..|c.attempts|] == c.attempts;
  }

  lemma ReconcileEvolves(c: Case, version: nat, a: Answer, now: int)
    requires CaseInv(c)
    requires c.w.version == version ==> Reconcilable(c)
    ensures Evolves(c, ReconcileApply(c, version, a, now))
  {
  }

  /** Nothing is tried again after a final failure. */
  lemma FailedIsLast(c: Case, k: nat)
    requires CaseInv(c) && k < |c.attempts| && c.attempts[k].status == Failed
    ensures k == |c.attempts| - 1
  {
    hide ChainOk, DecisionsOk, StateOk, LogOk, PromiseOk;
  }

  lemma CloseKeeps(c: Case)
    requires CaseInv(c) && OperatorClose(c).Ok?
    ensures CaseInv(OperatorClose(c).value)
  {
    hide ChainOk, DecisionsOk;
    if c.attempts != [] {
      FailedIsLast(c, 0);
    }
  }

  lemma CloseEvolves(c: Case)
    requires CaseInv(c) && OperatorClose(c).Ok?
    ensures Evolves(c, OperatorClose(c).value)
  {
  }
}
