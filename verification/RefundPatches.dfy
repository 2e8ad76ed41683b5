/**
 Small changes to the rows of one case that no other step notices, and steps on other
 cases, which notice nothing.
 */
module RefundPatches {
  import opened Wrappers
  import opened RefundRows
  import opened RefundSteps
  import opened ProviderRules
  import opened RefundProtocol
  import opened RefundDelivery

  // ---------- changes to one case that other steps do not notice ----------

  /** An inbox row more, another moment from which the first attempt is available, or another first deadline. */
  datatype Patch = Seen(e: Event) | Available(at: int) | Due(later: int)

  function Patched(c: Case, p: Patch): Case {
    match p
    case Seen(e) => c.(inbox := c.inbox[e.no := e])
    case Available(at) =>
      if c.attempts == [] then c else c.(attempts := c.attempts[0 := c.attempts[0].(availableAt := at)])
    case Due(later) =>
      if c.tasks == [] || c.timers == [] then c
      else
        c.(tasks := c.tasks[0 := c.tasks[0].(due := c.tasks[0].due + later)],
           timers := c.timers[0 := c.timers[0].(due := c.timers[0].due + later)])
  }

  function PatchedSys(s: Sys, wid: nat, p: Patch): Sys {
    if wid in s.db.cases then With(s, wid, Patched(s.db.cases[wid], p)) else s
  }

  /** For an attempt, the moment has come for either value, and stays past. */
  predicate Unnoticed(c: Case, p: Patch, now: int) {
    && (p.Available? ==> c.attempts != [] && c.attempts[0].availableAt <= now && p.at <= now)
    && (p.Due? ==> c.tasks != [] && c.timers != [] && c.w.state != Received)
  }

  /** The task is overdue by one of the two deadlines only. */
  predicate Between(c: Case, p: Patch, task: nat, now: int) {
    p.Due? && task == 0 && c.tasks != [] && (c.tasks[0].due <= now) != (c.tasks[0].due + p.later <= now)
  }

  /** The steps that could tell whether the patch has been made. */
  predicate Notices(c: Case, wid: nat, p: Patch, x: Step, now: int) {
    match x
    case Deliver(e) => e.wid == wid && p.Seen? && p.e.no == e.no
    case DecideBy(_, v, task, _) => v == wid && Between(c, p, task, now)
    case Deadline(v, task) => v == wid && Between(c, p, task, now)
    case _ => false
  }

  lemma PatchedDecision(c: Case, p: Patch, task: nat, who: Principal, body: DecisionBody, now: int)
    requires task < |c.tasks| && !Between(c, p, task, now)
    ensures DecisionRefusal(Patched(c, p), task, who, body, now) == DecisionRefusal(c, task, who, body, now)
    ensures RecordDecision(Patched(c, p), task, who, body, now) == Patched(RecordDecision(c, task, who, body, now), p)
  {
    hide Blank;
    if p.Due? { DecisionDue(c, p, task, who, body, now); }
  }

  lemma DecisionDue(c: Case, p: Patch, task: nat, who: Principal, body: DecisionBody, now: int)
    requires task < |c.tasks| && p.Due?
    ensures RecordDecision(Patched(c, p), task, who, body, now) == Patched(RecordDecision(c, task, who, body, now), p)
  {
    var d, e := RecordDecision(Patched(c, p), task, who, body, now), Patched(RecordDecision(c, task, who, body, now), p);
    assert d.tasks == e.tasks && d.timers == e.timers;
  }

  lemma PatchedEscalate(c: Case, p: Patch, task: nat, now: int)
    requires task < |c.tasks| && !Between(c, p, task, now) && (p.Due? ==> c.timers != [])
    ensures Escalate(Patched(c, p), task, now) == Patched(Escalate(c, task, now), p)
  {
    hide Escalate;
    if p.Due? {
      EscalateDue(c, p, task, now);
    } else {
      var d := Patched(c, p);
      EscalateBeside(c, d.attempts, d.inbox, task, now);
      assert d == c.(attempts := d.attempts, inbox := d.inbox);
    }
  }

  lemma EscalateDue(c: Case, p: Patch, task: nat, now: int)
    requires task < |c.tasks| && p.Due? && c.timers != [] && !Between(c, p, task, now)
    ensures Escalate(Patched(c, p), task, now) == Patched(Escalate(c, task, now), p)
  {
    hide CloseTask, SettleTimers, NewTask, Patched, Transition, Emit, NextRole;
    var t := c.tasks[task];
    var next := NextRole(t.role);
    var status := if next.Some? then Superseded else Expired;
    DueFace(c, p, task, now);
    CloseDue(c, p, task, status, now);
    var fired := CloseTask(c, task, status, now).(timers := SettleTimers(c.timers, task, Fired));
    if next.Some? {
      PatchedTransition(fired, WaitingApproval, p);
      var waiting := Transition(fired, WaitingApproval);
      NewTaskDue(waiting, p, next.value, t.stage + 1, Some(task), now);
      PatchedEmit(NewTask(waiting, next.value, t.stage + 1, Some(task), now), p, ApprovalEscalated, Some(|c.tasks|));
    } else {
      PatchedTransition(fired, ManualReview, p);
      PatchedEmit(Transition(fired, ManualReview), p, Moved(ManualReview), None);
    }
  }

  lemma DueFace(c: Case, p: Patch, task: nat, now: int)
    requires task < |c.tasks| && p.Due? && c.timers != [] && !Between(c, p, task, now)
    ensures var d := Patched(c, p);
      && d.w == c.w && |d.tasks| == |c.tasks| && d.tasks[task] == c.tasks[task].(due := d.tasks[task].due)
      && (d.tasks[task].due <= now <==> c.tasks[task].due <= now)
  {
  }

  lemma PatchedEmit(c: Case, p: Patch, kind: EventKind, task: Option<nat>)
    ensures Emit(Patched(c, p), kind, task, None) == Patched(Emit(c, kind, task, None), p)
  {
  }

  lemma CloseDue(c: Case, p: Patch, task: nat, status: TaskStatus, now: int)
    requires task < |c.tasks| && p.Due? && c.timers != []
    ensures var fired := CloseTask(c, task, status, now).(timers := SettleTimers(c.timers, task, Fired));
      && |Patched(c, p).tasks| == |c.tasks| && fired.tasks != [] && fired.timers != []
      && CloseTask(Patched(c, p), task, status, now).(timers := SettleTimers(Patched(c, p).timers, task, Fired))
         == Patched(fired, p)
  {
    var d := CloseTask(Patched(c, p), task, status, now).(timers := SettleTimers(Patched(c, p).timers, task, Fired));
    var e := Patched(CloseTask(c, task, status, now).(timers := SettleTimers(c.timers, task, Fired)), p);
    assert d.tasks == e.tasks && d.timers == e.timers;
  }

  lemma NewTaskDue(c: Case, p: Patch, role: Role, stage: nat, supersedes: Option<nat>, now: int)
    requires p.Due? && c.tasks != [] && c.timers != []
    ensures NewTask(Patched(c, p), role, stage, supersedes, now) == Patched(NewTask(c, role, stage, supersedes, now), p)
  {
    var d, e := NewTask(Patched(c, p), role, stage, supersedes, now), Patched(NewTask(c, role, stage, supersedes, now), p);
    assert d.tasks == e.tasks && d.timers == e.timers;
  }

  /** A deadline neither reads nor writes attempts and inbox. */
  lemma EscalateBeside(c: Case, attempts: seq<Attempt>, inbox: map<nat, Event>, task: nat, now: int)
    requires task < |c.tasks|
    ensures Escalate(c.(attempts := attempts, inbox := inbox), task, now)
         == Escalate(c, task, now).(attempts := attempts, inbox := inbox)
    ensures Escalate(c, task, now).attempts == c.attempts && Escalate(c, task, now).inbox == c.inbox
  {
    hide SettleTimers, NextRole;
  }

  lemma PatchedMark(c: Case, p: Patch, no: nat, published: bool)
    requires no < |c.outbox|
    ensures MarkRow(Patched(c, p), no, published) == Patched(MarkRow(c, no, published), p)
  {
  }

  lemma PatchedHandle(c: Case, p: Patch, f: Event, now: int)
    requires p.Seen? ==> p.e.no != f.no
    requires p.Available? ==> c.attempts != []
    requires p.Due? ==> c.w.state != Received
    ensures var r := HandleEvent(c, f, now); var q := HandleEvent(Patched(c, p), f, now);
      q.Ok? == r.Ok? && (r.Ok? ==> q.value.0 == Patched(r.value.0, p)) && (r.Err? ==> q.code == r.code)
  {
    hide Pause, ValidApproval, NewAttempt, Patched;
    var seen := c.(inbox := c.inbox[f.no := f]);
    PatchedFace(c, p);
    PatchedInbox(c, p, f);
    if !p.Due? { PatchedPause(seen, p, now); }
    if !p.Available? { FirstAttempt(seen, p, now); }
  }

  lemma PatchedInbox(c: Case, p: Patch, f: Event)
    requires p.Seen? ==> p.e.no != f.no
    ensures var d := Patched(c, p);
      && (f.no in d.inbox <==> f.no in c.inbox) && (f.no in c.inbox ==> d.inbox[f.no] == c.inbox[f.no])
      && d.(inbox := d.inbox[f.no := f]) == Patched(c.(inbox := c.inbox[f.no := f]), p)
      && (ValidApproval(d, f) <==> ValidApproval(c, f))
  {
    if p.Seen? {
      assert c.inbox[p.e.no := p.e][f.no := f] == c.inbox[f.no := f][p.e.no := p.e];
    }
  }

  lemma FirstAttempt(c: Case, p: Patch, now: int)
    requires !p.Available?
    ensures NewAttempt(Patched(c, p), 0, now) == Patched(NewAttempt(c, 0, now), p)
  {
    hide OperationKey;
  }

  lemma PatchedPause(c: Case, p: Patch, now: int)
    requires !p.Due?
    ensures Pause(Patched(c, p), now) == Patched(Pause(c, now), p)
  {
    hide TierRole;
  }

  lemma {:induction false} PendingSame(a: seq<Attempt>, b: seq<Attempt>)
    requires |a| == |b| && (forall i | 0 <= i < |a| :: a[i].status == b[i].status)
    requires exists i :: 0 <= i < |a| && a[i].status == Pending
    ensures exists i :: 0 <= i < |b| && b[i].status == Pending
    ensures PendingNo(a) == PendingNo(b)
  {
    var i :| 0 <= i < |a| && a[i].status == Pending;
    assert b[i].status == Pending;
    if a[|a| - 1].status != Pending {
      assert a[..|a| - 1][i].status == Pending;
      PendingSame(a[..|a| - 1], b[..|b| - 1]);
    }
  }

  lemma PatchedClaim(c: Case, p: Patch, now: int, until: int)
    requires Unnoticed(c, p, now)
    ensures Claimable(Patched(c, p), now) <==> Claimable(c, now)
    ensures Claim(Patched(c, p), until) == Patched(Claim(c, until), p)
    ensures Claimable(c, now) ==> PendingNo(Patched(c, p).attempts) == PendingNo(c.attempts)
  {
    var d := Patched(c, p);
    assert forall i | 0 <= i < |c.attempts| ::
      d.attempts[i].status == c.attempts[i].status
      && (d.attempts[i].availableAt <= now <==> c.attempts[i].availableAt <= now);
    if Claimable(c, now) { PendingSame(c.attempts, d.attempts); }
    assert Claim(d, until).attempts == Patched(Claim(c, until), p).attempts;
  }

  lemma PatchedFinish(c: Case, p: Patch, n: nat, fence: nat, o: Outcome, now: int)
    ensures Finish(Patched(c, p), n, fence, o, now) == Patched(Finish(c, n, fence, o, now), p)
  {
    hide Finish;
    if p.Available? {
      FinishAvailable(c, p, n, fence, o, now);
    } else {
      var d := Patched(c, p);
      FinishBeside(c, d.tasks, d.timers, d.inbox, n, fence, o, now);
      assert d == c.(tasks := d.tasks, timers := d.timers, inbox := d.inbox);
    }
  }

  lemma FinishAvailable(c: Case, p: Patch, n: nat, fence: nat, o: Outcome, now: int)
    requires p.Available?
    ensures Finish(Patched(c, p), n, fence, o, now) == Patched(Finish(c, n, fence, o, now), p)
  {
    hide OperationKey, Pow2, OutcomeStatus, OutcomeState;
    assert Finish(Patched(c, p), n, fence, o, now).attempts == Patched(Finish(c, n, fence, o, now), p).attempts;
  }

  /** A report neither reads nor writes tasks, timers and inbox. */
  lemma FinishBeside(c: Case, tasks: seq<Task>, timers: seq<Timer>, inbox: map<nat, Event>,
                     n: nat, fence: nat, o: Outcome, now: int)
    ensures Finish(c.(tasks := tasks, timers := timers, inbox := inbox), n, fence, o, now)
         == Finish(c, n, fence, o, now).(tasks := tasks, timers := timers, inbox := inbox)
    ensures var d := Finish(c, n, fence, o, now); d.tasks == c.tasks && d.timers == c.timers && d.inbox == c.inbox
  {
    hide OperationKey, Pow2, OutcomeStatus, OutcomeState;
  }

  lemma PatchedRecover(c: Case, p: Patch, n: nat, now: int)
    requires n < |c.attempts|
    ensures RecoverExpired(Patched(c, p), n, now) == Patched(RecoverExpired(c, n, now), p)
  {
    assert RecoverExpired(Patched(c, p), n, now).attempts == Patched(RecoverExpired(c, n, now), p).attempts;
  }

  lemma PatchedReconcile(c: Case, p: Patch, version: nat, a: Answer, now: int)
    ensures ReconcileApply(Patched(c, p), version, a, now) == Patched(ReconcileApply(c, version, a, now), p)
    ensures Reconcilable(Patched(c, p)) <==> Reconcilable(c)
  {
    hide OperationKey;
    match a
    case Found(receipt) => PatchedFound(c, p, version, receipt, now);
    case Absent => PatchedAbsent(c, p, version, now);
    case Unavailable =>
  }

  lemma PatchedFound(c: Case, p: Patch, version: nat, receipt: nat, now: int)
    ensures ReconcileApply(Patched(c, p), version, Found(receipt), now)
         == Patched(ReconcileApply(c, version, Found(receipt), now), p)
  {
    var settled := c.(attempts := SettleUnknown(c.attempts, receipt));
    assert SettleUnknown(Patched(c, p).attempts, receipt) == Patched(settled, p).attempts;
  }

  lemma PatchedAbsent(c: Case, p: Patch, version: nat, now: int)
    ensures ReconcileApply(Patched(c, p), version, Absent, now) == Patched(ReconcileApply(c, version, Absent, now), p)
  {
    hide Transition, NewAttempt;
    PatchedTransition(c, RetryWait, p);
    PatchedTransition(c, ManualReview, p);
    if c.attempts != [] {
      PatchedNewAttempt(Transition(c, RetryWait), p, 2, now);
    }
  }

  lemma PatchedTransition(c: Case, state: State, p: Patch)
    ensures Transition(Patched(c, p), state) == Patched(Transition(c, state), p)
    ensures var d := Transition(c, state); d.attempts == c.attempts && d.tasks == c.tasks && d.timers == c.timers
  {
  }

  lemma PatchedNewAttempt(c: Case, p: Patch, delay: nat, now: int)
    requires c.attempts != []
    ensures NewAttempt(Patched(c, p), delay, now) == Patched(NewAttempt(c, delay, now), p)
  {
    hide OperationKey;
    assert NewAttempt(Patched(c, p), delay, now).attempts == Patched(NewAttempt(c, delay, now), p).attempts;
  }

  lemma PatchedClose(c: Case, p: Patch)
    ensures OperatorClose(Patched(c, p)).Ok? <==> OperatorClose(c).Ok?
    ensures OperatorClose(c).Ok? ==> OperatorClose(Patched(c, p)).value == Patched(OperatorClose(c).value, p)
  {
    var d := Patched(c, p);
    assert |d.attempts| == |c.attempts| && forall i | 0 <= i < |c.attempts| :: d.attempts[i].status == c.attempts[i].status;
    if n :| 0 <= n < |c.attempts| && c.attempts[n].status != Failed { assert d.attempts[n].status != Failed; }
    if n :| 0 <= n < |d.attempts| && d.attempts[n].status != Failed { assert c.attempts[n].status != Failed; }
  }

  // ---------- the steps one by one ----------

  lemma AfterDecide(s: Sys, who: Principal, wid: nat, task: nat, body: DecisionBody)
    ensures Apply(s, DecideBy(who, wid, task, body)) == Commit(s, Decide(s.db, who, wid, task, body, s.now))
  {
    hide TeamMay, Create, Decide, Consume;
  }

  lemma AfterDeadline(s: Sys, wid: nat, task: nat)
    ensures Apply(s, Deadline(wid, task)) ==
      if HasTask(s.db, wid, task) then With(s, wid, Escalate(s.db.cases[wid], task, s.now)) else s
  {
    hide TeamMay, Create, Decide, Consume;
  }

  lemma AfterMark(s: Sys, wid: nat, no: nat, published: bool)
    ensures Apply(s, Mark(wid, no, published)) ==
      if HasEvent(s.db, wid, no)
         && (if published then s.db.cases[wid].outbox[no].event in s.queue else s.settings.labFaults)
      then With(s, wid, MarkRow(s.db.cases[wid], no, published)) else s
  {
    hide TeamMay, Create, Decide, Consume;
  }

  lemma AfterDeliver(s: Sys, e: Event)
    ensures Apply(s, Deliver(e)) ==
      if e in s.queue && e.schema == 1 && e.wid in s.db.cases && s.db.cases[e.wid].w.tenant == e.tenant
         && HandleEvent(s.db.cases[e.wid], e, s.now).Ok?
      then With(s, e.wid, HandleEvent(s.db.cases[e.wid], e, s.now).value.0) else s
  {
    hide TeamMay, Create, Decide, HandleEvent;
  }

  lemma AfterClaim(s: Sys, wid: nat)
    ensures Apply(s, ClaimBy(wid)) ==
      if wid in s.db.cases && Claimable(s.db.cases[wid], s.now) then ClaimStep(s, wid) else s
  {
    hide TeamMay, Create, Decide, Claimable, ClaimStep;
  }

  lemma AfterLease(s: Sys, wid: nat, n: nat)
    ensures Apply(s, LeaseExpires(wid, n)) ==
      if wid in s.db.cases && n < |s.db.cases[wid].attempts|
      then With(s, wid, RecoverExpired(s.db.cases[wid], n, s.now)) else s
  {
    hide TeamMay, Create, Decide, Consume;
  }

  lemma AfterClose(s: Sys, wid: nat)
    ensures Apply(s, CloseBy(wid)) ==
      if wid in s.db.cases && OperatorClose(s.db.cases[wid]).Ok?
      then With(s, wid, OperatorClose(s.db.cases[wid]).value) else s
  {
    hide TeamMay, Create, Decide, OperatorClose;
  }

  lemma AfterSend(s: Sys, wid: nat, no: nat)
    ensures Apply(s, Send(wid, no)) ==
      if HasEvent(s.db, wid, no) then s.(queue := s.queue + {s.db.cases[wid].outbox[no].event}) else s
  {
    hide TeamMay, Create, Decide, Consume;
  }

  lemma AfterReport(s: Sys, slot: Slot, gaveUp: bool)
    ensures Apply(s, Report(slot, gaveUp)) ==
      if slot in s.workers && slot in s.wires && slot.0 in s.db.cases && (gaveUp || s.wires[slot].Answered?)
      then
        With(s, slot.0, Finish(s.db.cases[slot.0], slot.1, s.workers[slot].fence, OutcomeOf(s.wires[slot], gaveUp), s.now))
          .(workers := s.workers - {slot})
      else s
  {
    hide TeamMay, Create, Decide, Consume, Finish, OutcomeOf;
  }

  lemma AfterRead(s: Sys, wid: nat)
    ensures Apply(s, ReadToReconcile(wid)) ==
      if wid in s.db.cases && Reconcilable(s.db.cases[wid])
      then
        var w := s.db.cases[wid].w;
        s.(lookups := s.lookups + {Lookup(wid, w.version, OperationKey(w), None)})
      else s
  {
    hide TeamMay, Create, Decide, Consume, Reconcilable;
  }

  lemma AfterAnswer(s: Sys, l: Lookup)
    ensures Apply(s, ApplyAnswer(l)) ==
      if l in s.lookups && l.answer.Some? && l.wid in s.db.cases
      then With(s, l.wid, ReconcileApply(s.db.cases[l.wid], l.version, l.answer.value, s.now)) else s
  {
    hide TeamMay, Create, Decide, Consume, ReconcileApply;
  }

  // ---------- steps on other cases ----------

  /** The case whose rows a step reads or writes, if it is one that exists already. */
  function CaseNamed(step: Step): Option<nat> {
    match step
    case DecideBy(_, wid, _, _) => Some(wid)
    case Deadline(wid, _) => Some(wid)
    case Send(wid, _) => Some(wid)
    case Mark(wid, _, _) => Some(wid)
    case Deliver(e) => Some(e.wid)
    case ClaimBy(wid) => Some(wid)
    case Report(slot, _) => Some(slot.0)
    case LeaseExpires(wid, _) => Some(wid)
    case ReadToReconcile(wid) => Some(wid)
    case ApplyAnswer(l) => Some(l.wid)
    case CloseBy(wid) => Some(wid)
    case _ => None
  }

  /** What other cases' transactions see of a case. */
  predicate SameFace(c: Case, d: Case) {
    && d.w.tenant == c.w.tenant && d.w.order == c.w.order
    && d.w.requestKey == c.w.requestKey && d.w.request == c.w.request
    && d.decisions == c.decisions
  }

  lemma PutTwice(s: Sys, v: nat, d: Case, wid: nat, c: Case)
    requires wid != v
    ensures With(With(s, v, d), wid, c) == With(With(s, wid, c), v, d)
  {
    CasesCommute(s.db.cases, v, d, wid, c);
  }

  /** A transaction on the tables, with case `v` changed beforehand or afterwards. */
  ghost predicate ChangesAlike(db: Db, r: Result<Db>, q: Result<Db>, v: nat, d: Case)
    requires v in db.cases
  {
    && r.Ok? == q.Ok?
    && (r.Ok? ==> q.value == Put(r.value, v, d) && v in r.value.cases && r.value.cases[v] == db.cases[v])
  }

  lemma GatesSame(db: Db, v: nat, d: Case, who: Principal, body: Body, settings: Settings)
    requires v in db.cases && SameFace(db.cases[v], d)
    ensures TeamRefusal(Put(db, v, d), who, body, settings) == TeamRefusal(db, who, body, settings)
    ensures OrderRefusal(Put(db, v, d), who, body) == OrderRefusal(db, who, body)
    ensures OrderRefusal(db, who, body).None? ==> body.order in db.orders
  {
    var other := Put(db, v, d);
    assert forall u | u in db.cases ::
      u in other.cases && other.cases[u].w.tenant == db.cases[u].w.tenant && other.cases[u].w.order == db.cases[u].w.order;
  }

  lemma CreateElsewhere(db: Db, v: nat, d: Case, who: Principal, body: Body, wid: nat, settings: Settings, now: int)
    requires v in db.cases && SameFace(db.cases[v], d) && wid !in db.cases
    ensures ChangesAlike(db, Create(db, who, body, wid, settings, now),
                         Create(Put(db, v, d), who, body, wid, settings, now), v, d)
  {
    hide OpenCase, Eligible, NewWorkflow, SubmitTeamCase, TeamRefusal, OrderRefusal;
    var other := Put(db, v, d);
    assert other.cases.Keys == db.cases.Keys;
    GatesSame(db, v, d, who, body, settings);
    forall u | u in db.cases
      ensures SameKey(db.cases[u].w, who.tenant, body.key) <==> SameKey(other.cases[u].w, who.tenant, body.key)
      ensures db.cases[u].w.request == other.cases[u].w.request
      ensures db.cases[u].w.tenant == other.cases[u].w.tenant && db.cases[u].w.order == other.cases[u].w.order
    {
    }
    hide RequestOf, SameKey;
    if body.order in db.orders {
      var w := NewWorkflow(who, body, wid, settings, EvidenceFor(db.team, body), now);
      var c := OpenCase(w, db.orders[body.order], now);
      CasesCommute(db.cases, v, d, wid, c);
    }
  }

  lemma DecideElsewhere(db: Db, v: nat, d: Case, who: Principal, wid: nat, task: nat, body: DecisionBody, now: int)
    requires v in db.cases && SameFace(db.cases[v], d) && wid != v
    ensures ChangesAlike(db, Decide(db, who, wid, task, body, now), Decide(Put(db, v, d), who, wid, task, body, now), v, d)
  {
    hide RecordDecision, DecisionRefusal, CommandOf;
    IssuedSame(db, Put(db, v, d), who, body.key);
    if wid in db.cases && task < |db.cases[wid].tasks| {
      hide Issued;
      CasesCommute(db.cases, v, d, wid, RecordDecision(db.cases[wid], task, who, body, now));
    }
  }

  lemma IssuedSame(db: Db, other: Db, who: Principal, key: string)
    requires other.cases.Keys == db.cases.Keys
    requires forall u :: u in db.cases ==>
      other.cases[u].decisions == db.cases[u].decisions && other.cases[u].w.tenant == db.cases[u].w.tenant
    ensures forall u: nat, i: nat :: Issued(other, u, i, who.tenant, who.id, key) <==> Issued(db, u, i, who.tenant, who.id, key)
  {
  }

  /** With case `v` changed beforehand or afterwards, a step comes to the same. */
  ghost predicate StepAlike(s: Sys, v: nat, d: Case, x: Step)
    requires v in s.db.cases
  {
    && Apply(With(s, v, d), x) == With(Apply(s, x), v, d)
    && v in Apply(s, x).db.cases && Apply(s, x).db.cases[v] == s.db.cases[v]
  }

  lemma DeadlineElsewhere(s: Sys, v: nat, d: Case, wid: nat, task: nat)
    requires v in s.db.cases && wid != v
    ensures StepAlike(s, v, d, Deadline(wid, task))
  {
    hide Apply, Escalate;
    AfterDeadline(s, wid, task);
    AfterDeadline(With(s, v, d), wid, task);
    if HasTask(s.db, wid, task) { PutTwice(s, v, d, wid, Escalate(s.db.cases[wid], task, s.now)); }
  }

  lemma MarkElsewhere(s: Sys, v: nat, d: Case, wid: nat, no: nat, published: bool)
    requires v in s.db.cases && wid != v
    ensures StepAlike(s, v, d, Mark(wid, no, published))
  {
    hide Apply, MarkRow;
    AfterMark(s, wid, no, published);
    AfterMark(With(s, v, d), wid, no, published);
    if HasEvent(s.db, wid, no) { PutTwice(s, v, d, wid, MarkRow(s.db.cases[wid], no, published)); }
  }

  lemma DeliverElsewhere(s: Sys, v: nat, d: Case, e: Event)
    requires v in s.db.cases && e.wid != v
    ensures StepAlike(s, v, d, Deliver(e))
  {
    hide Apply, HandleEvent;
    AfterDeliver(s, e);
    AfterDeliver(With(s, v, d), e);
    if e.wid in s.db.cases && HandleEvent(s.db.cases[e.wid], e, s.now).Ok? {
      PutTwice(s, v, d, e.wid, HandleEvent(s.db.cases[e.wid], e, s.now).value.0);
    }
  }

  lemma CloseElsewhere(s: Sys, v: nat, d: Case, wid: nat)
    requires v in s.db.cases && wid != v
    ensures StepAlike(s, v, d, CloseBy(wid))
  {
    hide Apply, OperatorClose;
    AfterClose(s, wid);
    AfterClose(With(s, v, d), wid);
    if wid in s.db.cases && OperatorClose(s.db.cases[wid]).Ok? {
      PutTwice(s, v, d, wid, OperatorClose(s.db.cases[wid]).value);
    }
  }

  lemma ClaimElsewhere(s: Sys, v: nat, d: Case, wid: nat)
    requires v in s.db.cases && wid != v
    ensures StepAlike(s, v, d, ClaimBy(wid))
  {
    hide Apply, Claim, Claimable, PostOf;
    AfterClaim(s, wid);
    AfterClaim(With(s, v, d), wid);
    if wid in s.db.cases && Claimable(s.db.cases[wid], s.now) {
      PutTwice(s, v, d, wid, Claim(s.db.cases[wid], s.now + s.settings.leaseSeconds * SECOND));
    }
  }

  lemma ReportElsewhere(s: Sys, v: nat, d: Case, slot: Slot, gaveUp: bool)
    requires v in s.db.cases && slot.0 != v
    ensures StepAlike(s, v, d, Report(slot, gaveUp))
  {
    hide Apply, Finish, OutcomeOf;
    AfterReport(s, slot, gaveUp);
    AfterReport(With(s, v, d), slot, gaveUp);
    if slot in s.workers && slot in s.wires && slot.0 in s.db.cases {
      PutTwice(s, v, d, slot.0,
               Finish(s.db.cases[slot.0], slot.1, s.workers[slot].fence, OutcomeOf(s.wires[slot], gaveUp), s.now));
    }
  }

  lemma LeaseElsewhere(s: Sys, v: nat, d: Case, wid: nat, n: nat)
    requires v in s.db.cases && wid != v
    ensures StepAlike(s, v, d, LeaseExpires(wid, n))
  {
    hide Apply, RecoverExpired;
    AfterLease(s, wid, n);
    AfterLease(With(s, v, d), wid, n);
    if wid in s.db.cases && n < |s.db.cases[wid].attempts| {
      PutTwice(s, v, d, wid, RecoverExpired(s.db.cases[wid], n, s.now));
    }
  }

  lemma AnswerElsewhere(s: Sys, v: nat, d: Case, l: Lookup)
    requires v in s.db.cases && l.wid != v
    ensures StepAlike(s, v, d, ApplyAnswer(l))
  {
    hide Apply, ReconcileApply;
    AfterAnswer(s, l);
    AfterAnswer(With(s, v, d), l);
    if l.wid in s.db.cases && l.answer.Some? {
      PutTwice(s, v, d, l.wid, ReconcileApply(s.db.cases[l.wid], l.version, l.answer.value, s.now));
    }
  }

  lemma WorldElsewhere(s: Sys, v: nat, d: Case, x: Step)
    requires v in s.db.cases && CaseNamed(x).None? && !x.Submit?
    ensures StepAlike(s, v, d, x)
  {
    hide StepAlike;
    if x.SendPost? || x.Arrive? || x.Drop? || x.Crash? {
      WireElsewhere(s, v, d, x);
    } else {
      TableElsewhere(s, v, d, x);
    }
  }

  lemma WireElsewhere(s: Sys, v: nat, d: Case, x: Step)
    requires v in s.db.cases && (x.SendPost? || x.Arrive? || x.Drop? || x.Crash?)
    ensures StepAlike(s, v, d, x)
  {
    hide Create, Decide, Consume, Pay, TeamMay;
  }

  lemma TableElsewhere(s: Sys, v: nat, d: Case, x: Step)
    requires v in s.db.cases && (x.Tick? || x.AddOrder? || x.MoveTeamCase? || x.AskProvider? || x.RestoreProvider?)
    ensures StepAlike(s, v, d, x)
  {
    hide Create, Decide, Escalate, HandleEvent, Claim, Claimable, Finish, RecoverExpired, ReconcileApply, OperatorClose,
         MarkRow, Pay, PostOf, OutcomeOf, Reconcilable, Restore, Status, PendingNo, TeamMay;
  }

  lemma SubmitElsewhere(s: Sys, v: nat, d: Case, who: Principal, body: Body, wid: nat)
    requires v in s.db.cases && SameFace(s.db.cases[v], d)
    ensures StepAlike(s, v, d, Submit(who, body, wid))
  {
    hide Create, SameFace, TeamMay, Decide, Consume;
    if wid !in s.db.cases { CreateElsewhere(s.db, v, d, who, body, wid, s.settings, s.now); }
  }

  lemma DecideByElsewhere(s: Sys, v: nat, d: Case, who: Principal, wid: nat, task: nat, body: DecisionBody)
    requires v in s.db.cases && SameFace(s.db.cases[v], d) && wid != v
    ensures StepAlike(s, v, d, DecideBy(who, wid, task, body))
  {
    hide Apply, Decide, SameFace;
    AfterDecide(s, who, wid, task, body);
    AfterDecide(With(s, v, d), who, wid, task, body);
    DecideElsewhere(s.db, v, d, who, wid, task, body, s.now);
  }

  lemma ReadElsewhere(s: Sys, v: nat, d: Case, x: Step)
    requires v in s.db.cases && CaseNamed(x) != Some(v) && (x.Send? || x.ReadToReconcile?)
    ensures StepAlike(s, v, d, x)
  {
    hide Apply, Reconcilable;
    if x.Send? {
      AfterSend(s, x.wid, x.no);
      AfterSend(With(s, v, d), x.wid, x.no);
    } else {
      AfterRead(s, x.wid);
      AfterRead(With(s, v, d), x.wid);
    }
  }

  /** Changing the rows of one case commutes with whatever other cases do. */
  lemma StepElsewhere(s: Sys, v: nat, d: Case, x: Step)
    requires v in s.db.cases && SameFace(s.db.cases[v], d) && CaseNamed(x) != Some(v)
    ensures StepAlike(s, v, d, x)
  {
    hide StepAlike, SameFace;
    match x
    case Submit(who, body, wid) => SubmitElsewhere(s, v, d, who, body, wid);
    case DecideBy(who, wid, task, body) => DecideByElsewhere(s, v, d, who, wid, task, body);
    case Deadline(wid, task) => DeadlineElsewhere(s, v, d, wid, task);
    case Send(_, _) => ReadElsewhere(s, v, d, x);
    case Mark(wid, no, published) => MarkElsewhere(s, v, d, wid, no, published);
    case Deliver(e) => DeliverElsewhere(s, v, d, e);
    case ClaimBy(wid) => ClaimElsewhere(s, v, d, wid);
    case Report(slot, gaveUp) => ReportElsewhere(s, v, d, slot, gaveUp);
    case LeaseExpires(wid, n) => LeaseElsewhere(s, v, d, wid, n);
    case ReadToReconcile(_) => ReadElsewhere(s, v, d, x);
    case ApplyAnswer(l) => AnswerElsewhere(s, v, d, l);
    case CloseBy(wid) => CloseElsewhere(s, v, d, wid);
    case _ => WorldElsewhere(s, v, d, x);
  }

  // ---------- steps on the changed case itself ----------

  /** With the patch made beforehand or afterwards, a step comes to the same; the patch stays unnoticed. */
  ghost predicate PatchAlike(s: Sys, wid: nat, p: Patch, x: Step)
    requires wid in s.db.cases
  {
    && Apply(PatchedSys(s, wid, p), x) == PatchedSys(Apply(s, x), wid, p)
    && wid in Apply(s, x).db.cases
    && Unnoticed(Apply(s, x).db.cases[wid], p, Apply(s, x).now)
    && Noted(wid, s.db.cases[wid], Apply(s, x).db.cases[wid], x)
  }

  /** The inbox gains at most the event delivered. */
  predicate Noted(wid: nat, c: Case, d: Case, x: Step) {
    forall i :: i in d.inbox ==> i in c.inbox || (x.Deliver? && x.e.wid == wid && x.e.no == i)
  }

  lemma PutPatched(s: Sys, wid: nat, p: Patch, d: Case)
    requires wid in s.db.cases
    ensures With(PatchedSys(s, wid, p), wid, Patched(d, p)) == PatchedSys(With(s, wid, d), wid, p)
  {
    hide Patched;
  }

  predicate FirstKept(c: Case, d: Case) {
    && (c.attempts != [] ==> d.attempts != [] && d.attempts[0].availableAt == c.attempts[0].availableAt)
    && (c.tasks != [] ==> d.tasks != []) && (c.timers != [] ==> d.timers != [])
    && (c.w.state != Received ==> d.w.state != Received)
  }

  /** A transaction leaves the inbox and the moment of the first attempt alone, and undoes no task. */
  predicate Steady(c: Case, d: Case) {
    FirstKept(c, d) && d.inbox == c.inbox
  }

  lemma HandleKeepsFirst(c: Case, f: Event, now: int)
    requires HandleEvent(c, f, now).Ok?
    ensures FirstKept(c, HandleEvent(c, f, now).value.0)
    ensures forall i :: i in HandleEvent(c, f, now).value.0.inbox ==> i in c.inbox || i == f.no
  {
  }

  lemma DecideHere(db: Db, p: Patch, who: Principal, wid: nat, task: nat, body: DecisionBody, now: int)
    requires wid in db.cases && !Between(db.cases[wid], p, task, now)
    ensures var c := db.cases[wid]; var r := Decide(db, who, wid, task, body, now);
      var q := Decide(Put(db, wid, Patched(c, p)), who, wid, task, body, now);
      && r.Ok? == q.Ok?
      && (r.Ok? ==>
        wid in r.value.cases && q.value == Put(r.value, wid, Patched(r.value.cases[wid], p)) && Steady(c, r.value.cases[wid]))
  {
    hide Patched, CommandOf, Issued, RecordDecision, DecisionRefusal, Steady;
    var c := db.cases[wid];
    PatchedFace(c, p);
    IssuedSame(db, Put(db, wid, Patched(c, p)), who, body.key);
    SteadyItself(c);
    if task < |c.tasks| {
      PatchedDecision(c, p, task, who, body, now);
      DecisionKeepsSteady(c, task, who, body, now);
    }
  }

  lemma SteadyItself(c: Case)
    ensures Steady(c, c)
  {
  }

  lemma SteadyUnnoticed(c: Case, d: Case, wid: nat, p: Patch, x: Step, now: int)
    requires Unnoticed(c, p, now) && Steady(c, d)
    ensures Unnoticed(d, p, now) && Noted(wid, c, d, x)
    ensures Noted(wid, c, c, x)
  {
  }

  lemma DecisionKeepsSteady(c: Case, task: nat, who: Principal, body: DecisionBody, now: int)
    requires task < |c.tasks|
    ensures Steady(c, RecordDecision(c, task, who, body, now))
  {
  }

  lemma PatchedFace(c: Case, p: Patch)
    ensures SameFace(c, Patched(c, p)) && |Patched(c, p).tasks| == |c.tasks| && Patched(c, p).w == c.w
    ensures |Patched(c, p).attempts| == |c.attempts| && Patched(c, p).outbox == c.outbox
  {
  }

  lemma DecideByHere(s: Sys, wid: nat, p: Patch, who: Principal, task: nat, body: DecisionBody)
    requires wid in s.db.cases && Unnoticed(s.db.cases[wid], p, s.now) && !Between(s.db.cases[wid], p, task, s.now)
    ensures PatchAlike(s, wid, p, DecideBy(who, wid, task, body))
  {
    hide Apply, Decide, Patched, Unnoticed, Noted, Steady;
    AfterDecide(s, who, wid, task, body);
    AfterDecide(PatchedSys(s, wid, p), who, wid, task, body);
    var c, x := s.db.cases[wid], DecideBy(who, wid, task, body);
    DecideHere(s.db, p, who, wid, task, body, s.now);
    SteadyItself(c);
    SteadyUnnoticed(c, c, wid, p, x, s.now);
    var r := Decide(s.db, who, wid, task, body, s.now);
    if r.Ok? { SteadyUnnoticed(c, r.value.cases[wid], wid, p, x, s.now); }
  }

  lemma DeadlineHere(s: Sys, wid: nat, p: Patch, task: nat)
    requires wid in s.db.cases && Unnoticed(s.db.cases[wid], p, s.now) && !Between(s.db.cases[wid], p, task, s.now)
    ensures PatchAlike(s, wid, p, Deadline(wid, task))
  {
    hide Apply, Patched;
    AfterDeadline(s, wid, task);
    AfterDeadline(PatchedSys(s, wid, p), wid, task);
    var c := s.db.cases[wid];
    PatchedFace(c, p);
    if task < |c.tasks| {
      PatchedEscalate(c, p, task, s.now);
      PutPatched(s, wid, p, Escalate(c, task, s.now));
      assert Steady(c, Escalate(c, task, s.now));
    }
  }

  lemma SendHere(s: Sys, wid: nat, p: Patch, no: nat)
    requires wid in s.db.cases && Unnoticed(s.db.cases[wid], p, s.now)
    ensures PatchAlike(s, wid, p, Send(wid, no))
  {
    hide Apply, Patched;
    AfterSend(s, wid, no);
    AfterSend(PatchedSys(s, wid, p), wid, no);
    PatchedFace(s.db.cases[wid], p);
  }

  lemma ReadHere(s: Sys, wid: nat, p: Patch)
    requires wid in s.db.cases && Unnoticed(s.db.cases[wid], p, s.now)
    ensures PatchAlike(s, wid, p, ReadToReconcile(wid))
  {
    hide Apply, Patched, Reconcilable, ReconcileApply;
    AfterRead(s, wid);
    AfterRead(PatchedSys(s, wid, p), wid);
    var c := s.db.cases[wid];
    PatchedFace(c, p);
    PatchedReconcile(c, p, 0, Absent, s.now);
  }

  lemma MarkHere(s: Sys, wid: nat, p: Patch, no: nat, published: bool)
    requires wid in s.db.cases && Unnoticed(s.db.cases[wid], p, s.now)
    ensures PatchAlike(s, wid, p, Mark(wid, no, published))
  {
    hide Apply, Patched;
    AfterMark(s, wid, no, published);
    AfterMark(PatchedSys(s, wid, p), wid, no, published);
    var c := s.db.cases[wid];
    PatchedFace(c, p);
    if no < |c.outbox| {
      PatchedMark(c, p, no, published);
      PutPatched(s, wid, p, MarkRow(c, no, published));
    }
  }

  lemma DeliverHere(s: Sys, wid: nat, p: Patch, e: Event)
    requires wid in s.db.cases && Unnoticed(s.db.cases[wid], p, s.now) && e.wid == wid && (p.Seen? ==> p.e.no != e.no)
    ensures PatchAlike(s, wid, p, Deliver(e))
  {
    hide Apply, Patched, HandleEvent;
    AfterDeliver(s, e);
    AfterDeliver(PatchedSys(s, wid, p), e);
    var c := s.db.cases[wid];
    PatchedFace(c, p);
    PatchedHandle(c, p, e, s.now);
    if HandleEvent(c, e, s.now).Ok? {
      HandleKeepsFirst(c, e, s.now);
      PutPatched(s, wid, p, HandleEvent(c, e, s.now).value.0);
    }
  }

  lemma ClaimHere(s: Sys, wid: nat, p: Patch)
    requires wid in s.db.cases && Unnoticed(s.db.cases[wid], p, s.now)
    ensures PatchAlike(s, wid, p, ClaimBy(wid))
  {
    hide Apply, Patched, Claimable, PostOf, Claim, Unnoticed, Noted, Steady;
    AfterClaim(s, wid);
    AfterClaim(PatchedSys(s, wid, p), wid);
    var c := s.db.cases[wid];
    var until := s.now + s.settings.leaseSeconds * SECOND;
    PatchedFace(c, p);
    PatchedClaim(c, p, s.now, until);
    if Claimable(c, s.now) {
      var n := PendingNo(c.attempts);
      PutPatched(s, wid, p, Claim(c, until));
      ClaimKeepsSteady(c, until);
      PatchedPost(Claim(c, until), p, n);
      SteadyUnnoticed(c, Claim(c, until), wid, p, ClaimBy(wid), s.now);
    }
    SteadyItself(c);
    SteadyUnnoticed(c, c, wid, p, ClaimBy(wid), s.now);
  }

  lemma ClaimKeepsSteady(c: Case, until: int)
    ensures Steady(c, Claim(c, until)) && |Claim(c, until).attempts| == |c.attempts|
  {
  }

  lemma PatchedPost(d: Case, p: Patch, n: nat)
    requires n < |d.attempts|
    ensures n < |Patched(d, p).attempts| && Patched(d, p).attempts[n].fence == d.attempts[n].fence
    ensures PostOf(Patched(d, p), n) == PostOf(d, n)
  {
  }

  lemma ReportHere(s: Sys, wid: nat, p: Patch, n: nat, gaveUp: bool)
    requires wid in s.db.cases && Unnoticed(s.db.cases[wid], p, s.now)
    ensures PatchAlike(s, wid, p, Report((wid, n), gaveUp))
  {
    hide Apply, Patched, Finish, OutcomeOf, Unnoticed, Noted, Steady;
    var c, x := s.db.cases[wid], Report((wid, n), gaveUp);
    AfterReport(s, (wid, n), gaveUp);
    AfterReport(PatchedSys(s, wid, p), (wid, n), gaveUp);
    SteadyItself(c);
    SteadyUnnoticed(c, c, wid, p, x, s.now);
    if (wid, n) in s.workers && (wid, n) in s.wires {
      var o, fence := OutcomeOf(s.wires[(wid, n)], gaveUp), s.workers[(wid, n)].fence;
      PatchedFinish(c, p, n, fence, o, s.now);
      PutPatched(s, wid, p, Finish(c, n, fence, o, s.now));
      FinishKeepsSteady(c, n, fence, o, s.now);
      SteadyUnnoticed(c, Finish(c, n, fence, o, s.now), wid, p, x, s.now);
    }
  }

  lemma FinishKeepsSteady(c: Case, n: nat, fence: nat, o: Outcome, now: int)
    ensures Steady(c, Finish(c, n, fence, o, now))
  {
  }

  lemma LeaseHere(s: Sys, wid: nat, p: Patch, n: nat)
    requires wid in s.db.cases && Unnoticed(s.db.cases[wid], p, s.now)
    ensures PatchAlike(s, wid, p, LeaseExpires(wid, n))
  {
    hide Apply, Patched;
    AfterLease(s, wid, n);
    AfterLease(PatchedSys(s, wid, p), wid, n);
    var c := s.db.cases[wid];
    PatchedFace(c, p);
    if n < |c.attempts| {
      PatchedRecover(c, p, n, s.now);
      PutPatched(s, wid, p, RecoverExpired(c, n, s.now));
      assert Steady(c, RecoverExpired(c, n, s.now));
    }
  }

  lemma AnswerHere(s: Sys, wid: nat, p: Patch, l: Lookup)
    requires wid in s.db.cases && Unnoticed(s.db.cases[wid], p, s.now) && l.wid == wid
    ensures PatchAlike(s, wid, p, ApplyAnswer(l))
  {
    hide Apply, Patched, ReconcileApply, Unnoticed, Noted, Steady;
    var c, x := s.db.cases[wid], ApplyAnswer(l);
    AfterAnswer(s, l);
    AfterAnswer(PatchedSys(s, wid, p), l);
    SteadyItself(c);
    SteadyUnnoticed(c, c, wid, p, x, s.now);
    if l.answer.Some? {
      PatchedReconcile(c, p, l.version, l.answer.value, s.now);
      PutPatched(s, wid, p, ReconcileApply(c, l.version, l.answer.value, s.now));
      ReconcileKeepsSteady(c, l.version, l.answer.value, s.now);
      SteadyUnnoticed(c, ReconcileApply(c, l.version, l.answer.value, s.now), wid, p, x, s.now);
    }
  }

  lemma ReconcileKeepsSteady(c: Case, version: nat, a: Answer, now: int)
    ensures Steady(c, ReconcileApply(c, version, a, now))
  {
  }

  lemma CloseHere(s: Sys, wid: nat, p: Patch)
    requires wid in s.db.cases && Unnoticed(s.db.cases[wid], p, s.now)
    ensures PatchAlike(s, wid, p, CloseBy(wid))
  {
    hide Apply, Patched;
    AfterClose(s, wid);
    AfterClose(PatchedSys(s, wid, p), wid);
    var c := s.db.cases[wid];
    PatchedClose(c, p);
    if OperatorClose(c).Ok? {
      PutPatched(s, wid, p, OperatorClose(c).value);
      assert Steady(c, OperatorClose(c).value);
    }
  }

  /** No step but a delivery of the same event, or one between the deadlines, tells whether the patch has been made. */
  lemma StepUnnoticed(s: Sys, wid: nat, p: Patch, x: Step)
    requires wid in s.db.cases && Unnoticed(s.db.cases[wid], p, s.now)
    requires !Notices(s.db.cases[wid], wid, p, x, s.now)
    ensures PatchAlike(s, wid, p, x)
  {
    hide Patched, PatchAlike, Unnoticed, SameFace, Between;
    if CaseNamed(x) != Some(wid) {
      PatchElsewhere(s, wid, p, x);
    } else {
      match x
      case DecideBy(who, _, task, body) => DecideByHere(s, wid, p, who, task, body);
      case Deadline(_, task) => DeadlineHere(s, wid, p, task);
      case Send(_, no) => SendHere(s, wid, p, no);
      case Mark(_, no, published) => MarkHere(s, wid, p, no, published);
      case Deliver(e) => DeliverHere(s, wid, p, e);
      case ClaimBy(_) => ClaimHere(s, wid, p);
      case Report(slot, gaveUp) =>
        assert slot == (wid, slot.1);
        ReportHere(s, wid, p, slot.1, gaveUp);
      case LeaseExpires(_, n) => LeaseHere(s, wid, p, n);
      case ReadToReconcile(_) => ReadHere(s, wid, p);
      case ApplyAnswer(l) => AnswerHere(s, wid, p, l);
      case CloseBy(_) => CloseHere(s, wid, p);
    }
  }

  lemma PatchElsewhere(s: Sys, wid: nat, p: Patch, x: Step)
    requires wid in s.db.cases && Unnoticed(s.db.cases[wid], p, s.now) && CaseNamed(x) != Some(wid)
    ensures PatchAlike(s, wid, p, x)
  {
    hide Apply, SameFace, Patched;
    PatchedFace(s.db.cases[wid], p);
    StepElsewhere(s, wid, Patched(s.db.cases[wid], p), x);
    ClockRises(s, x);
  }

  lemma ClockRises(s: Sys, x: Step)
    ensures s.now <= Apply(s, x).now
  {
    hide Create, Decide, Escalate, HandleEvent, Claim, Claimable, Finish, RecoverExpired, ReconcileApply, OperatorClose,
         MarkRow, Pay, PostOf, OutcomeOf, Reconcilable, Restore, Status, PendingNo, TeamMay;
  }
}
