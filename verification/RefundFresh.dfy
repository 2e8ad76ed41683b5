/** What an event that is still unconsumed finds: its case exactly as it was emitted. */
module RefundFresh {
  import opened RefundRows
  import opened RefundSteps
  import opened RefundInvariant
  import opened RefundProtocol
  import opened RefundProtocolProof

  // ---------- unconsumed events ----------

  predicate Effective(kind: EventKind) {
    kind == Submitted || kind == ApprovalAccepted
  }

  /** An unconsumed submission or approval finds its case as it left it; a case is approved once. */
  predicate FreshOk(c: Case) {
    && (forall i | 0 <= i < |c.outbox| && i !in c.inbox ::
      && (c.outbox[i].event.kind == Submitted ==> c.w.state == Received)
      && (c.outbox[i].event.kind == ApprovalAccepted ==>
        c.w.state == ReadyToExecute && c.attempts == [] && c.outbox[i].event.version == c.w.version))
    && (forall i, j | 0 <= i < |c.outbox| && 0 <= j < |c.outbox| ::
      c.outbox[i].event.kind == ApprovalAccepted && c.outbox[j].event.kind == ApprovalAccepted ==> i == j)
  }

  ghost predicate AllFresh(db: Db) {
    forall wid :: wid in db.cases ==> FreshOk(db.cases[wid])
  }

  /** A transaction on a case that waits on neither, and that sends neither. */
  lemma FreshMoves(c: Case, d: Case)
    requires FreshOk(c) && c.w.state != Received && (c.w.state != ReadyToExecute || c.attempts != [])
    requires d.inbox == c.inbox && |c.outbox| <= |d.outbox|
    requires forall i | 0 <= i < |c.outbox| :: d.outbox[i].event == c.outbox[i].event
    requires forall i | |c.outbox| <= i < |d.outbox| :: !Effective(d.outbox[i].event.kind)
    ensures FreshOk(d)
  {
  }

  lemma FreshDecision(c: Case, task: nat, who: Principal, body: DecisionBody, now: int)
    requires CaseInv(c) && FreshOk(c) && task < |c.tasks| && DecisionRefusal(c, task, who, body, now).None?
    ensures FreshOk(RecordDecision(c, task, who, body, now))
  {
    hide ChainOk, DecisionsOk, AttemptsOk, PromiseOk, TaskOk, Blank;
    PendingIsLast(c, task);
    assert forall i | 0 <= i < |c.outbox| :: EventOk(c.outbox[i].event, i, c.w, c.tasks);
  }

  lemma FreshHandle(c: Case, e: Event, now: int)
    requires CaseInv(c) && FreshOk(c) && e.no < |c.outbox| && c.outbox[e.no].event == e
    requires HandleEvent(c, e, now).Ok?
    ensures FreshOk(HandleEvent(c, e, now).value.0)
  {
    hide ChainOk, DecisionsOk, AttemptsOk, LogOk, StateOk;
  }

  lemma FreshRunning(c: Case, n: nat)
    requires CaseInv(c) && n < |c.attempts| && c.attempts[n].status == Running
    ensures c.w.state == Executing
  {
    RunningIsLast(c, n);
  }

  lemma FreshClaim(c: Case, now: int, until: int)
    requires FreshOk(c) && Claimable(c, now)
    ensures FreshOk(Claim(c, until))
  {
    FreshMoves(c, Claim(c, until));
  }

  lemma FreshFinish(c: Case, n: nat, fence: nat, o: Outcome, now: int)
    requires FreshOk(c)
    ensures FreshOk(Finish(c, n, fence, o, now))
  {
    hide FreshOk;
    if StillClaimed(c, n, fence) { FreshMoves(c, Finish(c, n, fence, o, now)); }
  }

  lemma FreshReconcile(c: Case, version: nat, a: Answer, now: int)
    requires FreshOk(c) && (c.w.version == version ==> Reconcilable(c))
    ensures FreshOk(ReconcileApply(c, version, a, now))
  {
    hide FreshOk;
    if c.w.version == version { FreshMoves(c, ReconcileApply(c, version, a, now)); }
  }

  lemma FreshPut(s: Sys, wid: nat, d: Case)
    requires AllFresh(s.db) && FreshOk(d)
    ensures AllFresh(Put(s.db, wid, d))
  {
    hide FreshOk;
  }

  lemma FreshTables(s: Sys, step: Step)
    requires Inv(s) && AllFresh(s.db)
    requires step.DecideBy? || step.Deadline? || step.Mark? || step.Deliver? || step.CloseBy?
    ensures AllFresh(Apply(s, step).db)
  {
    hide Inv, CaseInv, FreshOk, AllFresh, RecordDecision, DecisionRefusal, HandleEvent, OperatorClose, Escalate,
         RowsSent, SlotsOk;
    match step
    case DecideBy(who, wid, task, body) =>
      var r := Decide(s.db, who, wid, task, body, s.now);
      if r.Ok? && r.value != s.db {
        CaseOf(s, wid);
        FreshOf(s, wid);
        FreshDecision(s.db.cases[wid], task, who, body, s.now);
        FreshPut(s, wid, RecordDecision(s.db.cases[wid], task, who, body, s.now));
      }
    case Deadline(wid, task) =>
      if HasTask(s.db, wid, task) {
        FreshOf(s, wid);
        FreshEscalate(s.db.cases[wid], task, s.now);
        FreshPut(s, wid, Escalate(s.db.cases[wid], task, s.now));
      }
    case Mark(wid, no, published) =>
      if Apply(s, step) != s {
        FreshOf(s, wid);
        FreshMark(s.db.cases[wid], no, published);
        FreshPut(s, wid, MarkRow(s.db.cases[wid], no, published));
      }
    case Deliver(e) =>
      if e in s.queue && Consume(s.db, e, s.now).Ok? {
        CaseOf(s, e.wid);
        FreshOf(s, e.wid);
        QueueOf(s, e);
        FreshHandle(s.db.cases[e.wid], e, s.now);
        FreshPut(s, e.wid, HandleEvent(s.db.cases[e.wid], e, s.now).value.0);
      }
    case CloseBy(wid) =>
      if wid in s.db.cases && OperatorClose(s.db.cases[wid]).Ok? {
        FreshOf(s, wid);
        FreshClose(s.db.cases[wid]);
        FreshPut(s, wid, OperatorClose(s.db.cases[wid]).value);
      }
  }

  lemma FreshOf(s: Sys, wid: nat)
    requires AllFresh(s.db) && wid in s.db.cases
    ensures FreshOk(s.db.cases[wid])
  {
  }

  lemma FreshEscalate(c: Case, task: nat, now: int)
    requires FreshOk(c) && task < |c.tasks|
    ensures FreshOk(Escalate(c, task, now))
  {
    hide FreshOk;
    if Escalate(c, task, now) != c { FreshMoves(c, Escalate(c, task, now)); }
  }

  lemma FreshMark(c: Case, no: nat, published: bool)
    requires FreshOk(c) && no < |c.outbox|
    ensures FreshOk(MarkRow(c, no, published))
  {
    var d := MarkRow(c, no, published);
    assert forall i | 0 <= i < |c.outbox| :: d.outbox[i].event == c.outbox[i].event;
  }

  lemma FreshClose(c: Case)
    requires FreshOk(c) && OperatorClose(c).Ok?
    ensures FreshOk(OperatorClose(c).value)
  {
    hide FreshOk;
    FreshMoves(c, OperatorClose(c).value);
  }

  lemma FreshAttempts(s: Sys, step: Step)
    requires Inv(s) && AllFresh(s.db)
    requires step.ClaimBy? || step.Report? || step.LeaseExpires? || step.ApplyAnswer?
    ensures AllFresh(Apply(s, step).db)
  {
    hide Inv, CaseInv, FreshOk, AllFresh, Finish, RecoverExpired, ReconcileApply, Reconcilable, Claimable, Claim,
         RowsSent, SlotsOk;
    match step
    case ClaimBy(wid) =>
      if wid in s.db.cases && Claimable(s.db.cases[wid], s.now) {
        var until := s.now + s.settings.leaseSeconds * SECOND;
        FreshOf(s, wid);
        FreshClaim(s.db.cases[wid], s.now, until);
        FreshPut(s, wid, Claim(s.db.cases[wid], until));
      }
    case Report(slot, gaveUp) =>
      if slot in s.workers && slot in s.wires && slot.0 in s.db.cases && (gaveUp || s.wires[slot].Answered?) {
        var o := OutcomeOf(s.wires[slot], gaveUp);
        FreshOf(s, slot.0);
        FreshFinish(s.db.cases[slot.0], slot.1, s.workers[slot].fence, o, s.now);
        FreshPut(s, slot.0, Finish(s.db.cases[slot.0], slot.1, s.workers[slot].fence, o, s.now));
      }
    case LeaseExpires(wid, n) =>
      if wid in s.db.cases && n < |s.db.cases[wid].attempts| {
        CaseOf(s, wid);
        FreshOf(s, wid);
        FreshRecover(s.db.cases[wid], n, s.now);
        FreshPut(s, wid, RecoverExpired(s.db.cases[wid], n, s.now));
      }
    case ApplyAnswer(l) =>
      if l in s.lookups && l.answer.Some? && l.wid in s.db.cases {
        LookupOf(s, l);
        FreshOf(s, l.wid);
        FreshReconcile(s.db.cases[l.wid], l.version, l.answer.value, s.now);
        FreshPut(s, l.wid, ReconcileApply(s.db.cases[l.wid], l.version, l.answer.value, s.now));
      }
  }

  lemma FreshRecover(c: Case, n: nat, now: int)
    requires CaseInv(c) && FreshOk(c) && n < |c.attempts|
    ensures FreshOk(RecoverExpired(c, n, now))
  {
    hide FreshOk, CaseInv;
    if RecoverExpired(c, n, now) != c {
      FreshRunning(c, n);
      FreshMoves(c, RecoverExpired(c, n, now));
    }
  }

  lemma FreshSubmit(s: Sys, who: Principal, body: Body, wid: nat)
    requires AllFresh(s.db)
    ensures AllFresh(Apply(s, Submit(who, body, wid)).db)
  {
    hide FreshOk, TeamRefusal, OpenCase;
    if wid !in s.db.cases && body.order in s.db.orders {
      FreshOpen(NewWorkflow(who, body, wid, s.settings, EvidenceFor(s.db.team, body), s.now), s.db.orders[body.order], s.now);
    }
  }

  lemma FreshOpen(w: Workflow, order: Order, now: int)
    requires w.state == Received
    ensures FreshOk(OpenCase(w, order, now))
  {
  }

  lemma FreshStep(s: Sys, step: Step)
    requires Inv(s) && AllFresh(s.db)
    ensures AllFresh(Apply(s, step).db)
  {
    hide Inv, FreshOk;
    if step.Submit? {
      FreshSubmit(s, step.who, step.body, step.wid);
    } else if step.DecideBy? || step.Deadline? || step.Mark? || step.Deliver? || step.CloseBy? {
      FreshTables(s, step);
    } else if step.ClaimBy? || step.Report? || step.LeaseExpires? || step.ApplyAnswer? {
      FreshAttempts(s, step);
    }
  }

  lemma {:induction false} FreshRun(s: Sys, steps: seq<Step>)
    requires Inv(s) && AllFresh(s.db)
    ensures Inv(Run(s, steps)) && AllFresh(Run(s, steps).db)
  {
    hide Inv, AllFresh, Apply;
    RunKeeps(s, steps);
    if steps != [] {
      FreshRun(s, steps[..|steps| - 1]);
      FreshStep(Run(s, steps[..|steps| - 1]), steps[|steps| - 1]);
    }
  }
}
