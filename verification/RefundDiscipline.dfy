/** Attempts, approvals and replays over every run of the refund protocol. */
module RefundDiscipline {
  import opened Wrappers
  import opened RefundRows
  import opened RefundSteps
  import opened RefundInvariant
  import opened RefundProtocol
  import opened RefundProtocolProof
  import opened RefundTheorems

  // ---------- attempts ----------

  predicate Active(a: Attempt) {
    a.status in {Pending, Running}
  }

  /** The attempts of one case against the state of its workflow. */
  ghost predicate Disciplined(c: Case) {
    && |c.attempts| <= 3
    && (forall n :: 0 <= n < |c.attempts| ==> c.attempts[n].key == OperationKey(c.w))
    && (forall m, n | 0 <= m < |c.attempts| && 0 <= n < |c.attempts| ::
      Active(c.attempts[m]) && Active(c.attempts[n]) ==> m == n)
    && (c.w.state == Executing <==> exists n :: 0 <= n < |c.attempts| && c.attempts[n].status == Running)
    && (c.w.state == RetryWait ==> exists n :: 0 <= n < |c.attempts| && c.attempts[n].status == Pending)
    && (c.w.state == Reconciling ==> exists n :: 0 <= n < |c.attempts| && c.attempts[n].status == Unknown)
    && (c.w.state == Completed <==> exists n :: 0 <= n < |c.attempts| && c.attempts[n].status == Succeeded)
  }

  lemma CaseIsDisciplined(c: Case)
    requires CaseInv(c)
    requires c.w.state == Completed ==> exists n :: 0 <= n < |c.attempts| && c.attempts[n].status == Succeeded
    ensures Disciplined(c)
  {
    hide ChainOk, DecisionsOk, LogOk, PromiseOk;
    if c.attempts != [] {
      var k := |c.attempts| - 1;
      assert LatestOk(c.attempts[k].status, c.w.state);
    }
  }

  /** At most three attempts under one key, at most one active, and the state says which. */
  lemma AttemptDiscipline(now: int, settings: Settings, steps: seq<Step>, wid: nat)
    requires wid in Reached(now, settings, steps).db.cases
    ensures Disciplined(Reached(now, settings, steps).db.cases[wid])
  {
    hide Inv, CaseInv, Disciplined;
    var s := Reached(now, settings, steps);
    ReachedInv(now, settings, steps);
    CaseOf(s, wid);
    CaseIsDisciplined(s.db.cases[wid]);
  }

  /** Once a lease expires, whatever its claimant later reports changes no row. */
  lemma StaleReportChangesNothing(s: Sys, wid: nat, n: nat, more: seq<Step>, gaveUp: bool)
    requires Inv(s) && wid in s.db.cases && n < |s.db.cases[wid].attempts|
    requires s.db.cases[wid].attempts[n].status == Running
    requires s.now > s.db.cases[wid].attempts[n].leaseUntil
    ensures var t := Run(Apply(s, LeaseExpires(wid, n)), more);
      Apply(t, Report((wid, n), gaveUp)).db == t.db
  {
    hide Inv, CaseInv, Evolves;
    var s1 := Apply(s, LeaseExpires(wid, n));
    StepKeeps(s, LeaseExpires(wid, n));
    StoppedStaysStopped(s1, wid, n, more);
    var t := Run(s1, more);
    var c := t.db.cases[wid];
    assert Put(t.db, wid, c) == t.db;
  }

  predicate Stopped(s: Sys, wid: nat, n: nat) {
    && wid in s.db.cases && n < |s.db.cases[wid].attempts|
    && s.db.cases[wid].attempts[n].status !in {Pending, Running}
  }

  /** An attempt that is no longer active is never run again. */
  lemma {:induction false} StoppedStaysStopped(s: Sys, wid: nat, n: nat, more: seq<Step>)
    requires Inv(s) && Stopped(s, wid, n)
    ensures Stopped(Run(s, more), wid, n)
  {
    hide Inv, Apply;
    if more != [] {
      var t := Run(s, more[..|more| - 1]);
      StoppedStaysStopped(s, wid, n, more[..|more| - 1]);
      RunKeeps(s, more[..|more| - 1]);
      StepLasts(t, more[|more| - 1]);
      var u := Apply(t, more[|more| - 1]);
      assert Evolves(t.db.cases[wid], u.db.cases[wid]);
      assert AttemptMoves(t.db.cases[wid].attempts[n], u.db.cases[wid].attempts[n]);
    }
  }

  // ---------- approvals ----------

  /** `next` took over from `prev`, the task at `i`. */
  predicate Linked(prev: Task, next: Task, i: nat) {
    && prev.status == Superseded
    && next.supersedes == Some(i)
    && next.stage == prev.stage + 1
    && NextRole(prev.role) == Some(next.role)
  }

  /** How the task at `i` stands, given the decisions of its case. */
  predicate Ended(t: Task, i: nat, decisions: seq<Decision>) {
    match t.status
    case TaskPending => t.closedAt.None? && NoDecisionOn(decisions, i)
    case Approved => DecidedInTime(t, i, decisions, true)
    case TaskRejected => DecidedInTime(t, i, decisions, false)
    case _ => t.closedAt.Some? && t.closedAt.value >= t.due && NoDecisionOn(decisions, i)
  }

  predicate NoDecisionOn(decisions: seq<Decision>, i: nat) {
    forall k :: 0 <= k < |decisions| ==> decisions[k].task != i
  }

  predicate DecidedInTime(t: Task, i: nat, decisions: seq<Decision>, approve: bool) {
    && |decisions| == 1 && decisions[0].task == i && decisions[0].approve == approve
    && t.closedAt == Some(decisions[0].at) && decisions[0].at < t.due
  }

  predicate TimerFollows(r: Timer, t: Task, i: nat) {
    r.task == i && r.due == t.due && (r.status == TimerPending <==> t.status == TaskPending)
  }

  /** The approval tasks of one case, as a reader of the tables sees them. */
  ghost predicate ProperChain(c: Case) {
    && |c.tasks| <= 3 && |c.timers| == |c.tasks|
    && (c.tasks != [] ==>
      c.tasks[0].stage == 1 && c.tasks[0].supersedes.None? && c.tasks[0].role == TierRole(c.w.amount))
    && (c.w.state == WaitingApproval <==> exists i :: 0 <= i < |c.tasks| && c.tasks[i].status == TaskPending)
    && (forall i, j | 0 <= i < |c.tasks| && 0 <= j < |c.tasks| ::
      c.tasks[i].status == TaskPending && c.tasks[j].status == TaskPending ==> i == j)
    && (forall i | 0 <= i < |c.tasks| :: TimerFollows(c.timers[i], c.tasks[i], i))
    && (forall i, j | 0 <= i && j == i + 1 && j < |c.tasks| :: Linked(c.tasks[i], c.tasks[j], i))
    && (forall i | 0 <= i < |c.tasks| :: Ended(c.tasks[i], i, c.decisions))
  }

  lemma TaskAt(c: Case, i: nat)
    requires CaseInv(c) && i < |c.tasks|
    ensures TaskOk(c.tasks[i], i, |c.tasks| - 1, TierRole(c.w.amount), c.w.proposal)
    ensures i <= 2 && TimerFollows(c.timers[i], c.tasks[i], i)
    ensures Ended(c.tasks[i], i, c.decisions)
  {
    hide StateOk, AttemptsOk, LogOk, PromiseOk;
    assert TimerOk(c.timers[i], i, c.tasks[i]);
  }

  lemma FirstTask(c: Case)
    requires CaseInv(c) && c.tasks != []
    ensures c.tasks[0].stage == 1 && c.tasks[0].supersedes.None? && c.tasks[0].role == TierRole(c.w.amount)
  {
    hide StateOk, AttemptsOk, LogOk, PromiseOk, DecisionsOk;
    assert TaskOk(c.tasks[0], 0, |c.tasks| - 1, TierRole(c.w.amount), c.w.proposal);
  }

  lemma TasksLinked(c: Case, i: nat)
    requires CaseInv(c) && i + 1 < |c.tasks|
    ensures Linked(c.tasks[i], c.tasks[i + 1], i)
  {
    hide CaseInv, Ended;
    TaskAt(c, i);
    TaskAt(c, i + 1);
  }

  lemma CaseHasProperChain(c: Case)
    requires CaseInv(c)
    ensures ProperChain(c)
  {
    hide Ended, Linked, TimerFollows, ChainOk, DecisionsOk, AttemptsOk, LogOk, PromiseOk, TaskOk;
    assert |c.timers| == |c.tasks| by { TimersMatch(c); }
    forall i | 0 <= i < |c.tasks|
      ensures TimerFollows(c.timers[i], c.tasks[i], i) && Ended(c.tasks[i], i, c.decisions)
    {
      TaskAt(c, i);
    }
    forall i, j | 0 <= i && j == i + 1 && j < |c.tasks| ensures Linked(c.tasks[i], c.tasks[j], i) {
      TasksLinked(c, i);
    }
    forall i | 0 <= i < |c.tasks| && c.tasks[i].status == TaskPending ensures i == |c.tasks| - 1 {
      PendingIsLast(c, i);
    }
    if |c.tasks| > 0 {
      FirstTask(c);
      TaskAt(c, |c.tasks| - 1);
    }
  }

  lemma TimersMatch(c: Case)
    requires CaseInv(c)
    ensures |c.timers| == |c.tasks|
  {
  }

  /** Each task ends in exactly one way: decided before its deadline, or passed on at or after it. */
  lemma ApprovalChain(now: int, settings: Settings, steps: seq<Step>, wid: nat)
    requires wid in Reached(now, settings, steps).db.cases
    ensures ProperChain(Reached(now, settings, steps).db.cases[wid])
  {
    hide Inv, CaseInv, ProperChain;
    var s := Reached(now, settings, steps);
    ReachedInv(now, settings, steps);
    CaseOf(s, wid);
    CaseHasProperChain(s.db.cases[wid]);
  }

  // ---------- replays ----------

  /** Whether the lab controls a body asks for are refused. */
  predicate LabRefused(settings: Settings, body: Body) {
    !settings.labFaults && (body.fault != NoFault || (body.approvalSeconds.Some? && body.approvalSeconds.value != 0))
  }

  /**
   Submitting under the key of a served request, however much later and by whomever in
   the tenant: refused for a role or lab controls that may not submit; nothing changes
   for the same requester and body; anything else is a conflict.
   */
  lemma SubmitIsIdempotent(s: Sys, who: Principal, body: Body, wid: nat, more: seq<Step>,
                           who': Principal, body': Body, wid': nat)
    requires Inv(s) && wid !in s.db.cases && body.amount > 0
    requires Create(s.db, who, body, wid, s.settings, s.now).Ok?
    requires who'.tenant == who.tenant && body'.key == body.key
    ensures var t := Run(Apply(s, Submit(who, body, wid)), more);
      Create(t.db, who', body', wid', t.settings, t.now) ==
        if who'.role != Requester && who'.role != FinanceManager then Err(403)
        else if LabRefused(s.settings, body') then Err(403)
        else if who'.id == who.id && body' == body then Ok(t.db)
        else Err(409)
  {
    hide Inv, OpenCase, TeamRefusal, OrderRefusal, Evolves, Apply, LedgerGrows;
    var s1 := Apply(s, Submit(who, body, wid));
    StepKeeps(s, Submit(who, body, wid));
    SubmitLeavesRequest(s, who, body, wid);
    var v :| v in s1.db.cases && Holds(s1.db.cases[v].w, who, body);
    RunLasts(s1, more);
    RunKeeps(s1, more);
    var t := Run(s1, more);
    assert Holds(t.db.cases[v].w, who, body);
    OneHolder(t, who.tenant, body.key, v);
    assert s1.settings == s.settings by { StepLasts(s, Submit(who, body, wid)); }
    assert RequestOf(who', body') == RequestOf(who, body) <==> who'.id == who.id && body' == body;
  }

  predicate Holds(w: Workflow, who: Principal, body: Body) {
    SameKey(w, who.tenant, body.key) && w.request == RequestOf(who, body)
  }

  lemma SubmitLeavesRequest(s: Sys, who: Principal, body: Body, wid: nat)
    requires wid !in s.db.cases && body.amount > 0
    requires Create(s.db, who, body, wid, s.settings, s.now).Ok?
    ensures var s1 := Apply(s, Submit(who, body, wid));
      exists v :: v in s1.db.cases && Holds(s1.db.cases[v].w, who, body)
  {
    hide TeamRefusal, OrderRefusal;
    var s1 := Apply(s, Submit(who, body, wid));
    if !exists v :: v in s.db.cases && SameKey(s.db.cases[v].w, who.tenant, body.key) {
      assert Holds(s1.db.cases[wid].w, who, body);
    } else {
      var v :| v in s.db.cases && SameKey(s.db.cases[v].w, who.tenant, body.key)
        && s.db.cases[v].w.request == RequestOf(who, body);
      assert Holds(s1.db.cases[v].w, who, body);
    }
  }

  lemma OneHolder(s: Sys, tenant: nat, key: string, v: nat)
    requires Inv(s) && v in s.db.cases && SameKey(s.db.cases[v].w, tenant, key)
    ensures forall u :: u in s.db.cases && SameKey(s.db.cases[u].w, tenant, key) ==> u == v
  {
    hide CasesOk, QueueOk, LookupsOk, AllSlotsOk, LedgerOk, CommandsOnce;
  }
}
