/** What decisions, deadlines and deliveries answer and do to a case, row by row, in any reachable state. */
module RefundApproval {
  import opened Wrappers
  import opened RefundRows
  import opened RefundSteps
  import opened RefundInvariant
  import opened RefundProtocol
  import opened RefundProtocolProof
  import opened RefundTheorems
  import opened RefundDiscipline
  import opened RefundDelivery
  import opened RefundPatches
  import opened RefundEffects

  // ---------- who has to approve ----------

  /** The roles that may have to approve an amount, one after the other. */
  function Ladder(amount: int): seq<Role> {
    if amount <= 750_000 then [SupportLead, FinanceManager, FinanceDirector]
    else if amount <= 2_500_000 then [FinanceManager, FinanceDirector]
    else [FinanceDirector]
  }

  /** The tasks of a case go up the ladder of its amount, and no further than its last rung. */
  lemma TasksClimb(now: int, settings: Settings, steps: seq<Step>, wid: nat)
    requires wid in Reached(now, settings, steps).db.cases
    ensures var c := Reached(now, settings, steps).db.cases[wid];
      |c.tasks| <= |Ladder(c.w.amount)| && forall i | 0 <= i < |c.tasks| :: c.tasks[i].role == Ladder(c.w.amount)[i]
  {
    hide Inv, CaseInv;
    var s := Reached(now, settings, steps);
    ReachedInv(now, settings, steps);
    CaseOf(s, wid);
    CaseClimbs(s.db.cases[wid]);
  }

  lemma CaseClimbs(c: Case)
    requires CaseInv(c)
    ensures |c.tasks| <= |Ladder(c.w.amount)| && forall i | 0 <= i < |c.tasks| :: c.tasks[i].role == Ladder(c.w.amount)[i]
  {
    hide CaseInv, TimerFollows, RefundDiscipline.Ended;
    if c.tasks != [] { TaskAt(c, |c.tasks| - 1); }
    forall i | 0 <= i < |c.tasks| ensures c.tasks[i].role == Ladder(c.w.amount)[i] { TaskAt(c, i); }
  }

  // ---------- deadlines ----------

  /** A task opened at `now`, and its timer. */
  predicate Opens(c: Case, d: Case, role: Role, stage: nat, supersedes: Option<nat>, now: int,
                  tasks: seq<Task>, timers: seq<Timer>) {
    var due := now + c.w.approvalSeconds * 1_000_000;
    && d.tasks == tasks + [Task(stage, role, c.w.proposal, TaskPending, 0, due, supersedes, None)]
    && d.timers == timers + [Timer(|c.tasks|, due, TimerPending)]
  }

  function Closed(t: Task, status: TaskStatus, now: int): Task {
    t.(status := status, version := t.version + 1, closedAt := Some(now))
  }

  /** An overdue task passes to the next role, or with the last one the case goes to review. */
  predicate PassedOn(c: Case, d: Case, task: nat, now: int)
    requires task < |c.tasks| && task < |c.timers|
  {
    var t := c.tasks[task];
    var timers := c.timers[task := c.timers[task].(status := Fired)];
    && d.decisions == c.decisions && d.attempts == c.attempts && d.inbox == c.inbox
    && match t.role
       case FinanceDirector =>
         && MovesTo(c, d, ManualReview) && Announces(c, d, Moved(ManualReview), None, None)
         && d.tasks == c.tasks[task := Closed(t, Expired, now)] && d.timers == timers
       case _ =>
         && MovesTo(c, d, WaitingApproval) && Announces(c, d, ApprovalEscalated, Some(|c.tasks|), None)
         && Opens(c, d, if t.role == SupportLead then FinanceManager else FinanceDirector, t.stage + 1, Some(task), now,
                  c.tasks[task := Closed(t, Superseded, now)], timers)
  }

  lemma PendingFacts(c: Case, task: nat)
    requires CaseInv(c) && task < |c.tasks| && c.tasks[task].status == TaskPending
    ensures c.w.state == WaitingApproval && |c.timers| == |c.tasks| && task == |c.tasks| - 1
    ensures c.tasks[task].role in {SupportLead, FinanceManager, FinanceDirector}
    ensures c.tasks[task].proposal == c.w.proposal && c.decisions == []
    ensures forall i | 0 <= i < |c.timers| :: c.timers[i].task == i && (c.timers[i].status == TimerPending <==> i == task)
  {
    hide AttemptsOk, LogOk, PromiseOk;
    PendingIsLast(c, task);
    assert TaskOk(c.tasks[task], task, |c.tasks| - 1, TierRole(c.w.amount), c.w.proposal);
    forall i | 0 <= i < |c.timers|
      ensures c.timers[i].task == i && (c.timers[i].status == TimerPending <==> i == task)
    {
      assert TimerOk(c.timers[i], i, c.tasks[i]) && TaskOk(c.tasks[i], i, |c.tasks| - 1, TierRole(c.w.amount), c.w.proposal);
    }
  }

  lemma TimersSettle(timers: seq<Timer>, task: nat, status: TimerStatus)
    requires task < |timers|
    requires forall i | 0 <= i < |timers| :: timers[i].task == i && (timers[i].status == TimerPending <==> i == task)
    ensures SettleTimers(timers, task, status) == timers[task := timers[task].(status := status)]
  {
  }

  lemma EscalateMeans(c: Case, task: nat, now: int)
    requires CaseInv(c) && task < |c.tasks| && c.tasks[task].status == TaskPending && c.tasks[task].due <= now
    ensures |c.timers| == |c.tasks| && PassedOn(c, Escalate(c, task, now), task, now)
  {
    hide CaseInv, SettleTimers;
    PendingFacts(c, task);
    TimersSettle(c.timers, task, Fired);
  }

  /** A deadline step moves an overdue pending task, always, and nothing else. */
  lemma OverdueMeans(s: Sys, wid: nat, task: nat)
    requires Inv(s) && wid in s.db.cases && task < |s.db.cases[wid].tasks|
    ensures var c := s.db.cases[wid]; var t := Apply(s, Deadline(wid, task));
      if c.tasks[task].status == TaskPending && c.tasks[task].due <= s.now then
        && |c.timers| == |c.tasks| && wid in t.db.cases && t == With(s, wid, t.db.cases[wid])
        && PassedOn(c, t.db.cases[wid], task, s.now)
      else t == s
  {
    hide Inv, CaseInv, Apply, PassedOn, SlotsOk, RowsSent;
    CaseOf(s, wid);
    AfterDeadline(s, wid, task);
    var c := s.db.cases[wid];
    if c.tasks[task].status == TaskPending && c.tasks[task].due <= s.now {
      EscalateMeans(c, task, s.now);
    } else {
      assert With(s, wid, c) == s;
    }
  }

  // ---------- decisions ----------

  /** Somebody may decide a task now. */
  predicate MayDecide(c: Case, task: nat, who: Principal, body: DecisionBody, now: int)
    requires task < |c.tasks|
  {
    var t := c.tasks[task];
    && t.status == TaskPending && now < t.due
    && body.proposal == c.w.proposal && body.taskVersion == t.version
  }

  predicate WellPut(body: DecisionBody) {
    body.choice in {Approve, Reject} && exists k | 0 <= k < |body.reason| :: !IsSpace(body.reason[k])
  }

  predicate Decided(c: Case, d: Case, task: nat, who: Principal, body: DecisionBody, now: int)
    requires task < |c.tasks| && task < |c.timers|
  {
    var approve := body.choice == Approve;
    var command := Command(c.w.id, task, body.choice, body.reason, body.proposal, body.taskVersion);
    && d.decisions == c.decisions + [Decision(task, who.id, who.role, approve, now, body.key, command)]
    && d.tasks == c.tasks[task := Closed(c.tasks[task], if approve then Approved else TaskRejected, now)]
    && d.timers == c.timers[task := c.timers[task].(status := Cancelled)]
    && d.attempts == c.attempts && d.inbox == c.inbox
    && MovesTo(c, d, if approve then ReadyToExecute else Rejected)
    && Announces(c, d, if approve then ApprovalAccepted else Moved(Rejected), Some(task), Some(c.w.proposal))
  }

  lemma RefusalMeans(c: Case, task: nat, who: Principal, body: DecisionBody, now: int)
    requires CaseInv(c) && task < |c.tasks|
    ensures var allowed := who.id != c.w.requester && who.role == c.tasks[task].role;
      DecisionRefusal(c, task, who, body, now) ==
        if !allowed then Some(403)
        else if !MayDecide(c, task, who, body, now) then Some(409)
        else if !WellPut(body) then Some(422) else None
  {
    hide CaseInv, IsSpace;
    if c.tasks[task].status == TaskPending { PendingFacts(c, task); }
    if forall k | 0 <= k < |body.reason| :: IsSpace(body.reason[k]) {
      assert forall ch :: ch in body.reason ==> exists k :: 0 <= k < |body.reason| && body.reason[k] == ch;
    }
  }

  lemma RecordMeans(c: Case, task: nat, who: Principal, body: DecisionBody, now: int)
    requires CaseInv(c) && task < |c.tasks| && c.tasks[task].status == TaskPending
    ensures |c.timers| == |c.tasks| && Decided(c, RecordDecision(c, task, who, body, now), task, who, body, now)
  {
    hide CaseInv, SettleTimers;
    PendingFacts(c, task);
    TimersSettle(c.timers, task, Cancelled);
  }

  /**
   A decision command: repeated with the same intent it changes nothing, with another it
   is a conflict; a new one is refused for exactly these reasons, or closes the task.
   */
  lemma DecideMeans(s: Sys, wid: nat, task: nat, who: Principal, body: DecisionBody)
    requires Inv(s) && wid in s.db.cases && s.db.cases[wid].w.tenant == who.tenant && task < |s.db.cases[wid].tasks|
    ensures var c := s.db.cases[wid]; var r := Decide(s.db, who, wid, task, body, s.now);
      var command := Command(wid, task, body.choice, body.reason, body.proposal, body.taskVersion);
      && (forall v: nat, i: nat :: Issued(s.db, v, i, who.tenant, who.id, body.key) ==>
           r == if s.db.cases[v].decisions[i].command == command then Ok(s.db) else Err(409))
      && ((forall v: nat, i: nat :: !Issued(s.db, v, i, who.tenant, who.id, body.key)) ==>
           var allowed := who.id != c.w.requester && who.role == c.tasks[task].role;
           if !allowed then r == Err(403)
           else if !MayDecide(c, task, who, body, s.now) then r == Err(409)
           else if !WellPut(body) then r == Err(422)
           else
             && |c.timers| == |c.tasks| && r.Ok? && wid in r.value.cases
             && r.value == Put(s.db, wid, r.value.cases[wid])
             && Decided(c, r.value.cases[wid], task, who, body, s.now))
  {
    hide Inv, CaseInv, Decided, WellPut, RecordDecision, DecisionRefusal, SlotsOk, RowsSent;
    CaseOf(s, wid);
    var c := s.db.cases[wid];
    if v: nat, i: nat :| Issued(s.db, v, i, who.tenant, who.id, body.key) {
      OneCommand(s, who, body.key);
    } else {
      RefusalMeans(c, task, who, body, s.now);
      if MayDecide(c, task, who, body, s.now) { RecordMeans(c, task, who, body, s.now); }
    }
  }

  lemma OneCommand(s: Sys, who: Principal, key: string)
    requires Inv(s)
    ensures forall u: nat, v: nat, i: nat, j: nat ::
      Issued(s.db, u, i, who.tenant, who.id, key) && Issued(s.db, v, j, who.tenant, who.id, key) ==> u == v && i == j
  {
    hide CasesOk, OrdersOk, QueueOk, LookupsOk, AllSlotsOk, LedgerOk, Issued;
  }

  /** A task or case that the tenant does not have. */
  lemma DecideElsewhere404(db: Db, wid: nat, task: nat, who: Principal, body: DecisionBody, now: int)
    requires wid !in db.cases || db.cases[wid].w.tenant != who.tenant || task >= |db.cases[wid].tasks|
    ensures Decide(db, who, wid, task, body, now) == Err(404)
  {
  }

  // ---------- deliveries ----------

  /** Consuming an event not seen before. */
  predicate Consumes(c: Case, d: Case, e: Event, now: int) {
    && d.inbox == c.inbox[e.no := e] && d.decisions == c.decisions
    && if e.kind == Submitted && c.w.state == Received then
         && MovesTo(c, d, WaitingApproval) && Announces(c, d, ApprovalRequested, Some(0), None)
         && Opens(c, d, Ladder(c.w.amount)[0], 1, None, now, [], []) && d.attempts == []
       else
         && d.w == c.w && d.tasks == c.tasks && d.timers == c.timers && d.outbox == c.outbox
         && d.attempts ==
              if e.kind == ApprovalAccepted && e.version == c.w.version && c.w.state == ReadyToExecute && c.attempts == []
              then [Waiting(c.w, now)] else c.attempts
  }

  lemma HandleMeans(c: Case, e: Event, now: int)
    requires CaseInv(c) && e.no < |c.outbox| && c.outbox[e.no].event == e && e.no !in c.inbox
    ensures HandleEvent(c, e, now).Ok? && Consumes(c, HandleEvent(c, e, now).value.0, e, now)
  {
    hide DecisionsOk, PromiseOk, TimerOk, TaskOk;
    assert EventOk(c.outbox[e.no].event, e.no, c.w, c.tasks);
  }

  /** The first delivery of an event opens the first task, schedules the first attempt, or is only noted. */
  lemma DeliveryMeans(s: Sys, e: Event)
    requires Inv(s) && e in s.queue
    ensures e.wid in s.db.cases
    ensures var c := s.db.cases[e.wid]; var t := Apply(s, Deliver(e));
      if e.no in c.inbox then t == s
      else e.wid in t.db.cases && t == With(s, e.wid, t.db.cases[e.wid]) && Consumes(c, t.db.cases[e.wid], e, s.now)
  {
    hide Inv, CaseInv, Apply, HandleEvent, Consumes;
    HandledIs(s, e);
    var c := s.db.cases[e.wid];
    if e.no in c.inbox {
      AlreadySeen(c, e, s.now);
      assert With(s, e.wid, c) == s;
    } else {
      HandleMeans(c, e, s.now);
    }
  }

  lemma AlreadySeen(c: Case, e: Event, now: int)
    requires e.no in c.inbox && HandleEvent(c, e, now).Ok?
    ensures HandleEvent(c, e, now).value.0 == c && c.inbox[e.no] == e
  {
  }

  /** Deliveries the consumer refuses: an unknown schema, a case of another tenant, a number seen with other content. */
  lemma RefusedDeliveries(db: Db, e: Event, now: int)
    ensures var r := Consume(db, e, now);
      if e.schema != 1 then r == Err(422)
      else if e.wid !in db.cases || db.cases[e.wid].w.tenant != e.tenant then r == Err(404)
      else if e.no in db.cases[e.wid].inbox && db.cases[e.wid].inbox[e.no] != e then r == Err(409)
      else r.Ok?
  {
    hide Pause, ValidApproval;
  }

  /** Marking sets the flag of one row, once its event was sent; the redelivery drill clears it. */
  lemma MarkMeans(s: Sys, wid: nat, no: nat, published: bool)
    requires wid in s.db.cases && no < |s.db.cases[wid].outbox|
    ensures var c := s.db.cases[wid]; var t := Apply(s, Mark(wid, no, published));
      if (published && c.outbox[no].event in s.queue) || (!published && s.settings.labFaults) then
        t == With(s, wid, c.(outbox := c.outbox[no := OutboxRow(c.outbox[no].event, published)]))
      else t == s
  {
    hide Apply;
    AfterMark(s, wid, no, published);
  }

  /** Sending puts the event of one row before the consumers, and changes no table. */
  lemma SendMeans(s: Sys, wid: nat, no: nat)
    requires wid in s.db.cases && no < |s.db.cases[wid].outbox|
    ensures Apply(s, Send(wid, no)) == s.(queue := s.queue + {s.db.cases[wid].outbox[no].event})
  {
    hide Apply;
    AfterSend(s, wid, no);
  }
}
