/**
 The refund transactions as the service runs them: row updates in the order the
 source issues them, each method proved against its step in RefundSteps.
 Clock readings and fresh identifiers are parameters.
 */
module RefundService {
  import opened Wrappers
  import opened RefundRows
  import opened RefundSteps

  type Due = (nat, nat)

  /** Overdue timers handled one transaction each, in the order they were read. */
  function EscalateAll(cases: map<nat, Case>, due: seq<Due>, now: int): map<nat, Case> {
    if due == [] then cases
    else
      var before := EscalateAll(cases, due[..|due| - 1], now);
      var (wid, task) := due[|due| - 1];
      if wid in before && task < |before[wid].tasks|
      then before[wid := Escalate(before[wid], task, now)] else before
  }

  /** Expired leases recovered one transaction each. */
  function RecoverAll(cases: map<nat, Case>, due: seq<Due>, now: int): map<nat, Case> {
    if due == [] then cases
    else
      var before := RecoverAll(cases, due[..|due| - 1], now);
      var (wid, n) := due[|due| - 1];
      if wid in before && n < |before[wid].attempts|
      then before[wid := RecoverExpired(before[wid], n, now)] else before
  }

  // ---------- what the scheduler and the recovery read ----------

  /** A timer or an attempt: its case and its position there. */
  predicate TimerDue(cases: map<nat, Case>, d: Due, now: int) {
    d.0 in cases && d.1 < |cases[d.0].timers|
    && cases[d.0].timers[d.1].status == TimerPending && cases[d.0].timers[d.1].due <= now
  }

  predicate LeaseDue(cases: map<nat, Case>, d: Due, now: int) {
    d.0 in cases && d.1 < |cases[d.0].attempts|
    && cases[d.0].attempts[d.1].status == Running && cases[d.0].attempts[d.1].leaseUntil < now
  }

  const PAGE: nat := 50

  ghost predicate Distinct(due: seq<Due>) {
    forall i, j | 0 <= i < j < |due| :: due[i] != due[j]
  }

  /** The timers due at `now`, earliest first, one page of them. */
  ghost predicate EarliestDue(cases: map<nat, Case>, due: seq<Due>, now: int) {
    && |due| <= PAGE && Distinct(due)
    && (forall i | 0 <= i < |due| :: TimerDue(cases, due[i], now))
    && (|due| < PAGE ==> forall d :: TimerDue(cases, d, now) ==> d in due)
    && (forall i, j | 0 <= i <= j < |due| :: DueAt(cases, due[i]) <= DueAt(cases, due[j]))
    && (forall d, i | TimerDue(cases, d, now) && d !in due && 0 <= i < |due| :: DueAt(cases, due[i]) <= DueAt(cases, d))
  }

  function DueAt(cases: map<nat, Case>, d: Due): int {
    if d.0 in cases && d.1 < |cases[d.0].timers| then cases[d.0].timers[d.1].due else 0
  }

  predicate Earliest(cases: map<nat, Case>, due: seq<Due>, now: int, d: Due) {
    && TimerDue(cases, d, now) && d !in due
    && forall wid, k | wid in cases && 0 <= k < |cases[wid].timers| ::
      TimerDue(cases, (wid, k), now) && (wid, k) !in due ==> DueAt(cases, d) <= DueAt(cases, (wid, k))
  }

  lemma {:induction false} LeastOf(cases: map<nat, Case>, ds: set<Due>) returns (least: Due)
    requires ds != {}
    ensures least in ds && forall d :: d in ds ==> DueAt(cases, least) <= DueAt(cases, d)
  {
    least :| least in ds;
    var rest := ds - {least};
    if rest != {} {
      var other := LeastOf(cases, rest);
      if DueAt(cases, other) < DueAt(cases, least) { least := other; }
    }
  }

  lemma SomeEarliest(cases: map<nat, Case>, due: seq<Due>, now: int, d: Due)
    requires TimerDue(cases, d, now) && d !in due
    ensures exists e :: Earliest(cases, due, now, e)
  {
    var ds := set wid, k | wid in cases && 0 <= k < |cases[wid].timers|
                           && TimerDue(cases, (wid, k), now) && (wid, k) !in due :: (wid, k);
    assert (d.0, d.1) in ds;
    var least := LeastOf(cases, ds);
    assert Earliest(cases, due, now, least);
  }

  function TasksOf(cases: map<nat, Case>, due: seq<Due>): seq<Due>
    requires forall i | 0 <= i < |due| :: due[i].0 in cases && due[i].1 < |cases[due[i].0].timers|
  {
    seq(|due|, i requires 0 <= i < |due| => (due[i].0, cases[due[i].0].timers[due[i].1].task))
  }

  // ---------- multi-row updates ----------

  method UpdateTimers(timers: seq<Timer>, task: nat, status: TimerStatus) returns (rows: seq<Timer>)
    ensures rows == SettleTimers(timers, task, status)
  {
    rows := timers;
    for i := 0 to |timers|
      invariant |rows| == |timers|
      invariant forall k :: 0 <= k < i ==> rows[k] == SettleTimers(timers, task, status)[k]
      invariant forall k :: i <= k < |timers| ==> rows[k] == timers[k]
    {
      if rows[i].task == task && rows[i].status == TimerPending {
        rows := rows[i := rows[i].(status := status)];
      }
    }
  }

  method UpdatePending(attempts: seq<Attempt>, leaseUntil: int) returns (rows: seq<Attempt>)
    ensures rows == StartPending(attempts, leaseUntil)
  {
    rows := attempts;
    for i := 0 to |attempts|
      invariant |rows| == |attempts|
      invariant forall k :: 0 <= k < i ==> rows[k] == StartPending(attempts, leaseUntil)[k]
      invariant forall k :: i <= k < |attempts| ==> rows[k] == attempts[k]
    {
      if rows[i].status == Pending {
        var a := rows[i].(status := Running, leaseUntil := leaseUntil);
        rows := rows[i := a.(fence := a.fence + 1)];
      }
    }
  }

  method UpdateUnknown(attempts: seq<Attempt>, receipt: nat) returns (rows: seq<Attempt>)
    ensures rows == SettleUnknown(attempts, receipt)
  {
    rows := attempts;
    for i := 0 to |attempts|
      invariant |rows| == |attempts|
      invariant forall k :: 0 <= k < i ==> rows[k] == SettleUnknown(attempts, receipt)[k]
      invariant forall k :: i <= k < |attempts| ==> rows[k] == attempts[k]
    {
      if rows[i].status == Unknown {
        rows := rows[i := rows[i].(status := Succeeded, receipt := Some(receipt))];
      }
    }
  }

  lemma OpenedUnder(who: Principal, body: Body, wid: nat, settings: Settings, evidence: Option<TeamCase>, order: Order, now: int)
    ensures SameKey(OpenCase(NewWorkflow(who, body, wid, settings, evidence, now), order, now).w, who.tenant, body.key)
  {
  }

  class Tables {
    var orders: map<nat, Order>
    var team: map<nat, TeamCase>
    var cases: map<nat, Case>
    const settings: Settings

    constructor (settings: Settings)
      ensures orders == map[] && team == map[] && cases == map[] && this.settings == settings
    {
      orders, team, cases := map[], map[], map[];
      this.settings := settings;
    }

    ghost function Contents(): Db
      reads this
    {
      Db(orders, team, cases)
    }

    // ---------- row updates ----------

    method Move(wid: nat, state: State)
      requires wid in cases
      modifies this`cases
      ensures cases == old(cases)[wid := Transition(old(cases)[wid], state)]
    {
      var c := cases[wid];
      var w := c.w.(state := state);
      w := w.(version := w.version + 1);
      cases := cases[wid := c.(w := w)];
    }

    method EmitEvent(wid: nat, kind: EventKind, task: Option<nat>, proposal: Option<nat>)
      requires wid in cases
      modifies this`cases
      ensures cases == old(cases)[wid := Emit(old(cases)[wid], kind, task, proposal)]
    {
      var c := cases[wid];
      var event := Event(c.w.id, c.w.tenant, |c.outbox|, c.w.version, kind, 1, task, proposal);
      cases := cases[wid := c.(outbox := c.outbox + [OutboxRow(event, false)])];
    }

    method AddTask(wid: nat, role: Role, stage: nat, supersedes: Option<nat>, now: int) returns (task: nat)
      requires wid in cases
      modifies this`cases
      ensures cases == old(cases)[wid := NewTask(old(cases)[wid], role, stage, supersedes, now)]
      ensures task == |old(cases)[wid].tasks|
    {
      var c := cases[wid];
      task := |c.tasks|;
      var due := now + c.w.approvalSeconds * SECOND;
      c := c.(tasks := c.tasks + [Task(stage, role, c.w.proposal, TaskPending, 0, due, supersedes, None)]);
      c := c.(timers := c.timers + [Timer(task, due, TimerPending)]);
      cases := cases[wid := c];
    }

    method EndTask(wid: nat, task: nat, status: TaskStatus, timer: TimerStatus, now: int)
      requires wid in cases && task < |cases[wid].tasks|
      modifies this`cases
      ensures var c := old(cases)[wid];
        cases == old(cases)[wid := CloseTask(c, task, status, now).(timers := SettleTimers(c.timers, task, timer))]
    {
      var c := cases[wid];
      var t := c.tasks[task].(status := status, closedAt := Some(now));
      c := c.(tasks := c.tasks[task := t.(version := t.version + 1)]);
      var timers := UpdateTimers(c.timers, task, timer);
      cases := cases[wid := c.(timers := timers)];
    }

    method AddAttempt(wid: nat, delay: nat, now: int)
      requires wid in cases
      modifies this`cases
      ensures cases == old(cases)[wid := NewAttempt(old(cases)[wid], delay, now)]
    {
      var c := cases[wid];
      var a := Attempt(OperationKey(c.w), Pending, 0, 0, now + delay * SECOND, None);
      cases := cases[wid := c.(attempts := c.attempts + [a])];
    }

    // ---------- requests ----------

    method CreateRequest(who: Principal, body: Body, wid: nat, now: int) returns (r: Result<nat>)
      requires wid !in cases
      modifies this
      ensures var spec := Create(old(Contents()), who, body, wid, settings, now);
        && r.Ok? == spec.Ok?
        && (r.Ok? ==> Contents() == spec.value && r.value in cases && SameKey(cases[r.value].w, who.tenant, body.key))
        && (r.Err? ==> Contents() == old(Contents()) && r.code == spec.code)
    {
      hide OpenCase, NewWorkflow, RequestOf;
      if who.role != Requester && who.role != FinanceManager { return Err(403); }
      if !settings.labFaults && (body.fault != NoFault || (body.approvalSeconds.Some? && body.approvalSeconds.value != 0)) {
        return Err(403);
      }
      if v :| v in cases && SameKey(cases[v].w, who.tenant, body.key) {
        if u :| u in cases && SameKey(cases[u].w, who.tenant, body.key) && cases[u].w.request == RequestOf(who, body) {
          return Ok(u);
        }
        return Err(409);
      }
      var teamRefusal := TeamRefusal(Db(orders, team, cases), who, body, settings);
      if teamRefusal.Some? { return Err(teamRefusal.value); }
      var orderRefusal := OrderRefusal(Db(orders, team, cases), who, body);
      if orderRefusal.Some? { return Err(orderRefusal.value); }
      var order := orders[body.order];
      var evidence := EvidenceFor(team, body);
      InsertRequest(wid, NewWorkflow(who, body, wid, settings, evidence, now), order, now);
      if body.teamCase.Some? && body.teamCase.value in team {
        var t := team[body.teamCase.value];
        team := team[body.teamCase.value := t.(status := SubmittedCase, workflow := Some(wid))];
      }
      OpenedUnder(who, body, wid, settings, evidence, order, now);
      return Ok(wid);
    }

    /** The new row, judged by the refund policy. */
    method InsertRequest(wid: nat, w: Workflow, order: Order, now: int)
      requires wid !in cases
      modifies this`cases
      ensures cases == old(cases)[wid := OpenCase(w, order, now)]
    {
      cases := cases[wid := Case(w, [], [], [], [], [], map[])];
      var age := now - order.deliveredAt;
      if age > 45 * DAY || age < 0 || !order.standard {
        Move(wid, Rejected);
      } else {
        EmitEvent(wid, Submitted, None, None);
      }
    }

    // ---------- approval ----------

    method PauseForApproval(wid: nat, now: int)
      requires wid in cases
      modifies this`cases
      ensures cases == old(cases)[wid := Pause(old(cases)[wid], now)]
    {
      if cases[wid].w.state != Received { return; }
      var amount := cases[wid].w.amount;
      var role := if amount <= 750_000 then SupportLead
                  else if amount <= 2_500_000 then FinanceManager else FinanceDirector;
      Move(wid, WaitingApproval);
      var task := AddTask(wid, role, 1, None, now);
      EmitEvent(wid, ApprovalRequested, Some(task), None);
    }

    method DecideTask(who: Principal, wid: nat, task: nat, body: DecisionBody, now: int) returns (r: Result<()>)
      modifies this`cases
      ensures var spec := Decide(old(Contents()), who, wid, task, body, now);
        && r.Ok? == spec.Ok?
        && (r.Ok? ==> Contents() == spec.value)
        && (r.Err? ==> Contents() == old(Contents()) && r.code == spec.code)
    {
      if wid !in cases || cases[wid].w.tenant != who.tenant || task >= |cases[wid].tasks| { return Err(404); }
      var seen, same := FindCommand(who, wid, task, body);
      if seen { return if same then Ok(()) else Err(409); }
      var c := cases[wid];
      var t := c.tasks[task];
      if who.id == c.w.requester { return Err(403); }
      if who.role != t.role { return Err(403); }
      if c.w.state != WaitingApproval || t.status != TaskPending { return Err(409); }
      if body.proposal != c.w.proposal || body.proposal != t.proposal || body.taskVersion != t.version { return Err(409); }
      if now >= t.due { return Err(409); }
      if body.choice == OtherChoice || Blank(body.reason) { return Err(422); }
      var approve := body.choice == Approve;
      var d := Decision(task, who.id, who.role, approve, now, body.key, CommandOf(c.w.id, task, body));
      cases := cases[wid := c.(decisions := c.decisions + [d])];
      EndTask(wid, task, if approve then Approved else TaskRejected, Cancelled, now);
      Move(wid, if approve then ReadyToExecute else Rejected);
      EmitEvent(wid, if approve then ApprovalAccepted else Moved(Rejected), Some(task), Some(c.w.proposal));
      return Ok(());
    }

    /** Looks the actor's command key up in every decision: used before, and with the same intent? */
    method FindCommand(who: Principal, wid: nat, task: nat, body: DecisionBody) returns (seen: bool, same: bool)
      ensures seen <==> exists v: nat, i: nat :: Issued(Db(orders, team, cases), v, i, who.tenant, who.id, body.key)
      ensures same <==> exists v: nat, i: nat :: Issued(Db(orders, team, cases), v, i, who.tenant, who.id, body.key)
                          && cases[v].decisions[i].command == CommandOf(wid, task, body)
    {
      seen, same := false, false;
      var command := CommandOf(wid, task, body);
      ghost var db := Db(orders, team, cases);
      var left := cases.Keys;
      while left != {}
        invariant left <= cases.Keys
        invariant seen <==> exists v: nat, i: nat :: v !in left && Issued(db, v, i, who.tenant, who.id, body.key)
        invariant same <==> exists v: nat, i: nat :: v !in left && Issued(db, v, i, who.tenant, who.id, body.key)
                              && cases[v].decisions[i].command == command
        decreases left
      {
        var v :| v in left;
        var mine, mineSame := ScanDecisions(v, who, command, body.key);
        seen, same := seen || mine, same || mineSame;
        left := left - {v};
      }
    }

    method ScanDecisions(v: nat, who: Principal, command: Command, key: string) returns (seen: bool, same: bool)
      requires v in cases
      ensures seen <==> exists i: nat :: Issued(Db(orders, team, cases), v, i, who.tenant, who.id, key)
      ensures same <==> exists i: nat :: Issued(Db(orders, team, cases), v, i, who.tenant, who.id, key)
                          && cases[v].decisions[i].command == command
    {
      seen, same := false, false;
      var ds := cases[v].decisions;
      ghost var db := Db(orders, team, cases);
      for k := 0 to |ds|
        invariant seen <==> exists i: nat :: i < k && Issued(db, v, i, who.tenant, who.id, key)
        invariant same <==> exists i: nat :: i < k && Issued(db, v, i, who.tenant, who.id, key) && ds[i].command == command
      {
        if cases[v].w.tenant == who.tenant && ds[k].actor == who.id && ds[k].key == key {
          assert Issued(db, v, k, who.tenant, who.id, key);
          seen := true;
          same := same || ds[k].command == command;
        }
      }
    }

    method ExpireOrEscalate(wid: nat, task: nat, now: int) returns (moved: bool)
      requires wid in cases && task < |cases[wid].tasks|
      modifies this`cases
      ensures cases == old(cases)[wid := Escalate(old(cases)[wid], task, now)]
      ensures moved <==> cases != old(cases)
    {
      var c := cases[wid];
      var t := c.tasks[task];
      if c.w.state != WaitingApproval || t.status != TaskPending { return false; }
      if now < t.due { return false; }
      var next := NextRole(t.role);
      EndTask(wid, task, if next.Some? then Superseded else Expired, Fired, now);
      Move(wid, if next.Some? then WaitingApproval else ManualReview);
      assert cases[wid].w.version > c.w.version;
      if next.Some? {
        var replacement := AddTask(wid, next.value, t.stage + 1, Some(task), now);
        EmitEvent(wid, ApprovalEscalated, Some(replacement), None);
      } else {
        EmitEvent(wid, Moved(ManualReview), None, None);
      }
      assert cases[wid].w.version > c.w.version;
      return true;
    }

    method OverdueTimers(now: int) returns (due: seq<Due>)
      ensures EarliestDue(cases, due, now)
    {
      due := [];
      while |due| < PAGE
        invariant |due| <= PAGE && Distinct(due)
        invariant forall i | 0 <= i < |due| :: TimerDue(cases, due[i], now)
        invariant forall i, j | 0 <= i <= j < |due| :: DueAt(cases, due[i]) <= DueAt(cases, due[j])
        invariant forall d, i | TimerDue(cases, d, now) && d !in due && 0 <= i < |due| ::
          DueAt(cases, due[i]) <= DueAt(cases, d)
      {
        if wid, k: nat :| wid in cases && k < |cases[wid].timers| && Earliest(cases, due, now, (wid, k)) {
          due := due + [(wid, k)];
        } else {
          if d :| TimerDue(cases, d, now) && d !in due {
            SomeEarliest(cases, due, now, d);
            assert false;
          }
          return;
        }
      }
    }

    /** One scheduler round: a page of overdue timers is read, then each is handled in its own transaction. */
    method ScheduleTick(now: int) returns (due: seq<Due>)
      requires forall wid, k | wid in cases && 0 <= k < |cases[wid].timers| ::
        cases[wid].timers[k].task < |cases[wid].tasks|
      modifies this`cases
      ensures EarliestDue(old(cases), due, now)
      ensures cases == EscalateAll(old(cases), TasksOf(old(cases), due), now)
    {
      due := OverdueTimers(now);
      var tasks := TasksOf(cases, due);
      for i := 0 to |tasks|
        invariant cases == EscalateAll(old(cases), tasks[..i], now)
      {
        var (wid, task) := tasks[i];
        assert tasks[..i + 1][..i] == tasks[..i];
        if wid in cases && task < |cases[wid].tasks| {
          var _ := ExpireOrEscalate(wid, task, now);
        }
      }
      assert tasks[..|tasks|] == tasks;
    }

    // ---------- inbox ----------

    method HandleEventAndRecover(e: Event, now: int) returns (r: Result<Disposition>)
      requires e.wid in cases
      modifies this`cases
      ensures var spec := HandleEvent(old(cases)[e.wid], e, now);
        && r.Ok? == spec.Ok?
        && (r.Ok? ==> cases == old(cases)[e.wid := spec.value.0] && r.value == spec.value.1)
        && (r.Err? ==> cases == old(cases) && r.code == spec.code)
    {
      var c := cases[e.wid];
      if e.no in c.inbox {
        if c.inbox[e.no] != e { return Err(409); }
        return Ok(Duplicate);
      }
      cases := cases[e.wid := c.(inbox := c.inbox[e.no := e])];
      if e.kind == Submitted && c.w.state == Received {
        PauseForApproval(e.wid, now);
        return Ok(Paused);
      }
      if e.kind == ApprovalAccepted && ValidApproval(c, e) {
        if c.attempts == [] {
          AddAttempt(e.wid, 0, now);
        }
        return Ok(Scheduled);
      }
      return Ok(Observed);
    }

    method ConsumeEvent(e: Event, now: int) returns (r: Result<Disposition>)
      modifies this`cases
      ensures var spec := Consume(old(Contents()), e, now);
        && r.Ok? == spec.Ok?
        && (r.Ok? ==> Contents() == spec.value)
        && (r.Err? ==> Contents() == old(Contents()) && r.code == spec.code)
    {
      if e.schema != 1 { return Err(422); }
      if e.wid !in cases || cases[e.wid].w.tenant != e.tenant { return Err(404); }
      r := HandleEventAndRecover(e, now);
    }

    // ---------- execution ----------

    /** Hands one unpublished event to the broker; `accepted` is false when that raises and nothing commits. */
    method PublishOne(accepted: bool) returns (sent: Option<Due>)
      modifies this`cases
      ensures sent.None? ==>
        && cases == old(cases)
        && forall wid, no :: wid in cases && 0 <= no < |cases[wid].outbox| ==> cases[wid].outbox[no].published
      ensures sent.Some? ==>
        var (wid, no) := sent.value;
        && wid in old(cases) && no < |old(cases)[wid].outbox| && !old(cases)[wid].outbox[no].published
        && cases == if accepted then old(cases)[wid := MarkRow(old(cases)[wid], no, true)] else old(cases)
    {
      if wid :| wid in cases && exists no :: 0 <= no < |cases[wid].outbox| && !cases[wid].outbox[no].published {
        var c := cases[wid];
        var no: nat :| no < |c.outbox| && !c.outbox[no].published;
        if accepted {
          cases := cases[wid := c.(outbox := c.outbox[no := c.outbox[no].(published := true)])];
        }
        return Some((wid, no));
      }
      return None;
    }

    /** Claims some case with a due pending attempt, if there is one. */
    method ClaimNext(now: int) returns (r: Option<Due>)
      modifies this`cases
      ensures r.None? ==> cases == old(cases) && forall wid :: wid in cases ==> !Claimable(cases[wid], now)
      ensures r.Some? ==>
        var (wid, n) := r.value;
        && wid in old(cases) && Claimable(old(cases)[wid], now)
        && cases == old(cases)[wid := Claim(old(cases)[wid], now + settings.leaseSeconds * SECOND)]
        && n == PendingNo(old(cases)[wid].attempts)
    {
      if wid :| wid in cases && Claimable(cases[wid], now) {
        var c := cases[wid];
        var n := PendingNo(c.attempts);
        var until := now + settings.leaseSeconds * SECOND;
        var attempts := UpdatePending(c.attempts, until);
        cases := cases[wid := c.(attempts := attempts)];
        Move(wid, Executing);
        return Some((wid, n));
      }
      return None;
    }

    /** A claimant's report on attempt `n`; False when its claim is stale. */
    method FinishAttempt(wid: nat, n: nat, fence: nat, o: Outcome, now: int) returns (done: bool)
      requires wid in cases && n < |cases[wid].attempts|
      modifies this`cases
      ensures cases == old(cases)[wid := Finish(old(cases)[wid], n, fence, o, now)]
      ensures done <==> StillClaimed(old(cases)[wid], n, fence)
    {
      var c := cases[wid];
      var e := c.attempts[n];
      if e.status != Running || e.fence != fence || c.w.state != Executing { return false; }
      var receipt := if o.Success? then Some(o.receipt) else None;
      cases := cases[wid := c.(attempts := c.attempts[n := e.(status := OutcomeStatus(o), receipt := receipt)])];
      var state := match o
        case Success(_) => Completed
        case RetryLater => RetryWait
        case Ambiguous => Reconciling
        case Refused => ManualReview;
      if o.RetryLater? {
        if n + 1 >= 3 {
          state := ManualReview;
        } else {
          AddAttempt(wid, Pow2(n + 1), now);
        }
      }
      Move(wid, state);
      EmitEvent(wid, Moved(state), None, None);
      return true;
    }

    method RecoverLease(wid: nat, n: nat, now: int)
      requires wid in cases && n < |cases[wid].attempts|
      modifies this`cases
      ensures cases == old(cases)[wid := RecoverExpired(old(cases)[wid], n, now)]
    {
      var c := cases[wid];
      var e := c.attempts[n];
      if e.status == Running && e.leaseUntil < now {
        cases := cases[wid := c.(attempts := c.attempts[n := e.(status := Unknown, fence := e.fence + 1)])];
        Move(wid, Reconciling);
      }
    }

    method ExpiredLeases(now: int) returns (due: seq<Due>)
      ensures |due| <= PAGE && Distinct(due) && forall i | 0 <= i < |due| :: LeaseDue(cases, due[i], now)
      ensures |due| < PAGE ==> forall d :: LeaseDue(cases, d, now) ==> d in due
    {
      due := [];
      while |due| < PAGE
        invariant |due| <= PAGE && Distinct(due) && forall i | 0 <= i < |due| :: LeaseDue(cases, due[i], now)
      {
        if wid, n: nat :| wid in cases && n < |cases[wid].attempts| && LeaseDue(cases, (wid, n), now) && (wid, n) !in due {
          due := due + [(wid, n)];
        } else {
          assert forall d :: LeaseDue(cases, d, now) ==> d == (d.0, d.1);
          return;
        }
      }
    }

    /** One recovery round: a page of expired leases is read, then each is recovered in its own transaction. */
    method RecoverLeases(now: int) returns (due: seq<Due>)
      modifies this`cases
      ensures |due| <= PAGE && Distinct(due) && forall i | 0 <= i < |due| :: LeaseDue(old(cases), due[i], now)
      ensures |due| < PAGE ==> forall d :: LeaseDue(old(cases), d, now) ==> d in due
      ensures cases == RecoverAll(old(cases), due, now)
    {
      due := ExpiredLeases(now);
      for i := 0 to |due|
        invariant cases == RecoverAll(old(cases), due[..i], now)
      {
        var (wid, n) := due[i];
        assert due[..i + 1][..i] == due[..i];
        if wid in cases && n < |cases[wid].attempts| {
          RecoverLease(wid, n, now);
        }
      }
      assert due[..|due|] == due;
    }

    /** The first transaction of a reconciliation: None leaves the case alone. */
    method ReadToReconcile(wid: nat) returns (r: Result<Option<nat>>)
      requires wid in cases
      ensures r.Ok? && r.value.Some? <==> Reconcilable(cases[wid])
      ensures r.Ok? && r.value.Some? ==> r.value.value == cases[wid].w.version
      ensures r.Err? <==> cases[wid].w.state in {Reconciling, ManualReview} && cases[wid].attempts == []
    {
      var c := cases[wid];
      if c.w.state != Reconciling && c.w.state != ManualReview { return Ok(None); }
      if c.attempts == [] { return Err(409); }
      return Ok(Some(c.w.version));
    }

    /** The second transaction of a reconciliation that read `version` and was answered `a`. */
    method ApplyAnswer(wid: nat, version: nat, a: Answer, now: int)
      requires wid in cases && cases[wid].attempts != []
      modifies this`cases
      ensures cases == old(cases)[wid := ReconcileApply(old(cases)[wid], version, a, now)]
    {
      var c := cases[wid];
      if c.w.version != version { return; }
      match a
      case Found(receipt) =>
        var attempts := UpdateUnknown(c.attempts, receipt);
        cases := cases[wid := c.(attempts := attempts)];
        Move(wid, Completed);
        EmitEvent(wid, Moved(Completed), None, None);
      case Absent =>
        var latest := c.attempts[|c.attempts| - 1];
        if |c.attempts| < 3 && latest.status == Unknown {
          Move(wid, RetryWait);
          AddAttempt(wid, 2, now);
        } else if c.w.state != ManualReview {
          Move(wid, ManualReview);
        }
      case Unavailable =>
        if c.w.state != ManualReview {
          Move(wid, ManualReview);
        }
    }

    method Close(wid: nat) returns (r: Result<()>)
      requires wid in cases
      modifies this`cases
      ensures var spec := OperatorClose(old(cases)[wid]);
        && r.Ok? == spec.Ok?
        && (r.Ok? ==> cases == old(cases)[wid := spec.value])
        && (r.Err? ==> cases == old(cases) && r.code == spec.code)
    {
      var c := cases[wid];
      if c.w.state != ManualReview { return Err(409); }
      var open := 0;
      for n := 0 to |c.attempts|
        invariant open > 0 <==> exists i :: 0 <= i < n && c.attempts[i].status != Failed
        invariant open >= 0
      {
        if c.attempts[n].status != Failed { open := open + 1; }
      }
      if open > 0 { return Err(409); }
      Move(wid, Closed);
      return Ok(());
    }
  }
}

/** The provider's own service, over its ledger table. */
module ProviderService {
  import opened RefundRows
  import opened RefundSteps
  import opened ProviderRules

  class Ledger {
    var rows: map<OpKey, LedgerRow>
    var issued: nat
    const labFaults: bool

    constructor (labFaults: bool)
      ensures Contents() == Provider(map[], 0, labFaults)
    {
      rows, issued := map[], 0;
      this.labFaults := labFaults;
    }

    function Contents(): Provider
      reads this
    {
      Provider(rows, issued, labFaults)
    }

    method Refund(post: Post) returns (reply: Reply)
      modifies this
      ensures (Contents(), reply) == Pay(old(Contents()), post)
    {
      var fault := if labFaults then post.fault else NoFault;
      if fault == PermanentFault { return RejectedByProvider; }
      if fault == TransientOnce && post.attemptNo == 1 { return Busy; }
      if post.refund.key in rows {
        var existing := rows[post.refund.key];
        if existing.refund != post.refund { return RejectedByProvider; }
        return Settled(existing.receipt);
      }
      var receipt := issued;
      issued := issued + 1;
      rows := rows[post.refund.key := LedgerRow(post.refund, receipt, fault)];
      return Settled(receipt);
    }

    method RefundStatus(key: OpKey) returns (a: Answer)
      ensures a.Absent? <==> key !in rows
      ensures a.Unavailable? <==> key in rows && rows[key].fault == UnknownStatus
      ensures a.Found? ==> a.receipt == rows[key].receipt
    {
      if key !in rows { return Absent; }
      if rows[key].fault == UnknownStatus { return Unavailable; }
      return Found(rows[key].receipt);
    }

    method RestoreRow(key: OpKey) returns (changed: bool)
      modifies this`rows
      ensures Contents() == Restore(old(Contents()), key)
      ensures changed <==> labFaults && key in old(rows)
    {
      if !labFaults || key !in rows { return false; }
      rows := rows[key := rows[key].(fault := NoFault)];
      return true;
    }
  }
}
