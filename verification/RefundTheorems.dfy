/** What the refund protocol promises over every run. */
module RefundTheorems {
  import opened RefundRows
  import opened RefundSteps
  import opened ProviderRules
  import opened RefundInvariant
  import opened RefundProtocol
  import opened RefundProtocolProof

  /** The state after any sequence of steps from empty tables. */
  ghost function Reached(now: int, settings: Settings, steps: seq<Step>): Sys {
    Run(Start(now, settings), steps)
  }

  lemma ReachedInv(now: int, settings: Settings, steps: seq<Step>)
    ensures Inv(Reached(now, settings, steps))
  {
    hide Inv;
    StartInv(now, settings);
    RunKeeps(Start(now, settings), steps);
  }

  // ---------- money ----------

  /** Whatever is lost, repeated or delayed, an order is refunded at most once, for what was asked. */
  lemma ExactlyOnceMoney(now: int, settings: Settings, steps: seq<Step>)
    ensures var s := Reached(now, settings, steps);
      && (forall k, k' :: (k in s.provider.ledger && k' in s.provider.ledger
            && s.provider.ledger[k].refund.order == s.provider.ledger[k'].refund.order) ==> k == k')
      && (forall k :: k in s.provider.ledger ==>
            && k.wid in s.db.cases
            && var w := s.db.cases[k.wid].w;
            && s.provider.ledger[k].refund == Refund(OperationKey(w), w.order, w.amount)
            && w.order in s.db.orders
            && 0 < w.amount <= s.db.orders[w.order].amount)
  {
    var s := Reached(now, settings, steps);
    ReachedInv(now, settings, steps);
    hide CasesOk, QueueOk, LookupsOk, AllSlotsOk, CommandsOnce;
    forall k | k in s.provider.ledger
      ensures RowOk(s.db, s.wires, s.provider, k)
      ensures BackedByOrder(s.db.cases[k.wid].w, s.db.orders)
    {
    }
  }

  /** When the provider says absent, no POST of the case has been settled and no attempt succeeded. */
  lemma AbsenceIsAuthoritative(now: int, settings: Settings, steps: seq<Step>, wid: nat)
    requires var s := Reached(now, settings, steps);
      wid in s.db.cases && Status(s.provider, OperationKey(s.db.cases[wid].w)) == Absent
    ensures var s := Reached(now, settings, steps); var c := s.db.cases[wid];
      && (forall n, r :: !SettledBy(s.wires, wid, n, r))
      && (forall n :: 0 <= n < |c.attempts| ==> c.attempts[n].status != Succeeded)
      && c.w.state != Completed
  {
    hide Inv, CaseInv;
    var s := Reached(now, settings, steps);
    ReachedInv(now, settings, steps);
    CaseOf(s, wid);
    var c := s.db.cases[wid];
    forall n: nat, r | SettledBy(s.wires, wid, n, r) ensures false {
      WireCase(s, (wid, n));
    }
    forall n: nat | n < |c.attempts| ensures c.attempts[n].status != Succeeded {
      if c.attempts[n].status == Succeeded {
        AttemptKey(c, n);
      }
    }
  }

  /** Every POST that was settled, in whatever attempt, was settled with the one receipt. */
  lemma OneReceipt(now: int, settings: Settings, steps: seq<Step>, wid: nat, n: nat, m: nat, r: nat, r': nat)
    requires var s := Reached(now, settings, steps);
      SettledBy(s.wires, wid, n, r) && SettledBy(s.wires, wid, m, r')
    ensures r == r'
    ensures var s := Reached(now, settings, steps);
      wid in s.db.cases && OnLedger(s.provider, OperationKey(s.db.cases[wid].w), r)
  {
    hide Inv;
    var s := Reached(now, settings, steps);
    ReachedInv(now, settings, steps);
    WireCase(s, (wid, n));
    WireCase(s, (wid, m));
  }

  /** A decision that may release `amount`. */
  predicate MaySign(role: Role, amount: int) {
    && role in {SupportLead, FinanceManager, FinanceDirector}
    && (amount > 750_000 ==> role in {FinanceManager, FinanceDirector})
    && (amount > 2_500_000 ==> role == FinanceDirector)
  }

  /** Money moves only on one timely approval by someone else with enough authority. */
  lemma AuthorityBehindRefund(now: int, settings: Settings, steps: seq<Step>, key: OpKey)
    requires key in Reached(now, settings, steps).provider.ledger
    ensures var s := Reached(now, settings, steps);
      && key.wid in s.db.cases
      && var c := s.db.cases[key.wid];
      && |c.decisions| == 1
      && var d := c.decisions[0];
      && d.task < |c.tasks|
      && d.approve && d.at < c.tasks[d.task].due
      && d.actor != c.w.requester
      && d.role == c.tasks[d.task].role && MaySign(d.role, c.w.amount)
  {
    hide Inv, CaseInv;
    var s := Reached(now, settings, steps);
    ReachedInv(now, settings, steps);
    LedgerRowOf(s, key);
    CaseOf(s, key.wid);
    var n: nat :| SettledBy(s.wires, key.wid, n, s.provider.ledger[key].receipt);
    WireCase(s, (key.wid, n));
    AttemptsAreAuthorized(s.db.cases[key.wid]);
  }

  lemma AttemptsAreAuthorized(c: Case)
    requires CaseInv(c) && c.attempts != []
    ensures |c.decisions| == 1
    ensures var d := c.decisions[0];
      && d.task < |c.tasks| && d.approve && d.at < c.tasks[d.task].due
      && d.actor != c.w.requester
      && d.role == c.tasks[d.task].role && MaySign(d.role, c.w.amount)
  {
    assert TaskOk(Last(c.tasks), |c.tasks| - 1, |c.tasks| - 1, TierRole(c.w.amount), c.w.proposal);
  }

  // ---------- what lasts ----------

  /** One step: every case evolves, every receipt stays. */
  ghost predicate Lasting(s: Sys, t: Sys) {
    && (forall wid :: wid in s.db.cases ==> wid in t.db.cases && Evolves(s.db.cases[wid], t.db.cases[wid]))
    && LedgerGrows(s.provider, t.provider)
    && s.now <= t.now
    && s.queue <= t.queue
    && t.settings == s.settings
  }

  lemma EvolvesRefl(c: Case)
    ensures Evolves(c, c)
  {
  }

  lemma PutLasts(s: Sys, wid: nat, d: Case)
    requires wid in s.db.cases ==> Evolves(s.db.cases[wid], d)
    ensures Lasting(s, With(s, wid, d))
  {
    hide Evolves;
    forall v | v in s.db.cases ensures Evolves(s.db.cases[v], With(s, wid, d).db.cases[v]) {
      EvolvesRefl(s.db.cases[v]);
    }
  }

  lemma SameCasesLast(s: Sys, t: Sys)
    requires t.db.cases == s.db.cases && LedgerGrows(s.provider, t.provider)
    requires s.now <= t.now && s.queue <= t.queue && t.settings == s.settings
    ensures Lasting(s, t)
  {
    hide Evolves;
    forall v | v in s.db.cases ensures Evolves(s.db.cases[v], t.db.cases[v]) {
      EvolvesRefl(s.db.cases[v]);
    }
  }

  lemma SubmitLasts(s: Sys, who: Principal, body: Body, wid: nat)
    ensures Lasting(s, Apply(s, Submit(who, body, wid)))
  {
    hide Evolves, OpenCase, TeamRefusal, OrderRefusal;
    var t := Apply(s, Submit(who, body, wid));
    forall v | v in s.db.cases ensures Evolves(s.db.cases[v], t.db.cases[v]) {
      EvolvesRefl(s.db.cases[v]);
    }
  }

  lemma MarkEvolves(c: Case, no: nat, published: bool)
    requires no < |c.outbox|
    ensures Evolves(c, MarkRow(c, no, published))
  {
  }

  /** Transactions that neither start nor stop an attempt. */
  lemma TableStepLasts(s: Sys, step: Step)
    requires Inv(s)
    requires step.DecideBy? || step.Deadline? || step.Mark? || step.Deliver? || step.CloseBy?
    ensures Lasting(s, Apply(s, step))
  {
    hide Inv, CaseInv, Evolves, RecordDecision, DecisionRefusal, HandleEvent, OperatorClose, Escalate, Lasting, RowsSent, SlotsOk;
    SameCasesLast(s, s);
    match step
    case DecideBy(who, wid, task, body) =>
      var r := Decide(s.db, who, wid, task, body, s.now);
      if r.Ok? && r.value != s.db {
        CaseOf(s, wid);
        DecisionEvolves(s.db.cases[wid], task, who, body, s.now);
        PutLasts(s, wid, RecordDecision(s.db.cases[wid], task, who, body, s.now));
      }
    case Deadline(wid, task) =>
      if HasTask(s.db, wid, task) {
        CaseOf(s, wid);
        EscalateEvolves(s.db.cases[wid], task, s.now);
        PutLasts(s, wid, Escalate(s.db.cases[wid], task, s.now));
      }
    case Mark(wid, no, published) =>
      if Apply(s, step) != s {
        MarkEvolves(s.db.cases[wid], no, published);
        PutLasts(s, wid, MarkRow(s.db.cases[wid], no, published));
      }
    case Deliver(e) =>
      if e in s.queue && Consume(s.db, e, s.now).Ok? {
        CaseOf(s, e.wid);
        QueueOf(s, e);
        HandleKeeps(s.db.cases[e.wid], e, s.now);
        PutLasts(s, e.wid, HandleEvent(s.db.cases[e.wid], e, s.now).value.0);
      }
    case CloseBy(wid) =>
      if wid in s.db.cases && OperatorClose(s.db.cases[wid]).Ok? {
        CaseOf(s, wid);
        CloseEvolves(s.db.cases[wid]);
        PutLasts(s, wid, OperatorClose(s.db.cases[wid]).value);
      }
  }

  lemma ClaimLasts(s: Sys, wid: nat)
    requires Inv(s)
    ensures Lasting(s, Apply(s, ClaimBy(wid)))
  {
    hide Inv, CaseInv, Evolves, Claimable, Claim;
    if wid in s.db.cases && Claimable(s.db.cases[wid], s.now) {
      CaseOf(s, wid);
      ClaimEvolves(s.db.cases[wid], s.now, s.now + s.settings.leaseSeconds * SECOND);
      PutLasts(s, wid, Claim(s.db.cases[wid], s.now + s.settings.leaseSeconds * SECOND));
    } else {
      SameCasesLast(s, s);
    }
  }

  lemma ReportLasts(s: Sys, slot: Slot, gaveUp: bool)
    requires Inv(s)
    ensures Lasting(s, Apply(s, Report(slot, gaveUp)))
  {
    hide Inv, CaseInv, Evolves, Finish, OutcomeOf;
    if slot in s.workers && slot in s.wires && slot.0 in s.db.cases && (gaveUp || s.wires[slot].Answered?) {
      var o := OutcomeOf(s.wires[slot], gaveUp);
      CaseOf(s, slot.0);
      FinishEvolves(s.db.cases[slot.0], slot.1, s.workers[slot].fence, o, s.now);
      PutLasts(s, slot.0, Finish(s.db.cases[slot.0], slot.1, s.workers[slot].fence, o, s.now));
    } else {
      SameCasesLast(s, s);
    }
  }

  /** Transactions that start, report or settle attempts. */
  lemma AttemptStepLasts(s: Sys, step: Step)
    requires Inv(s)
    requires step.ClaimBy? || step.Report? || step.LeaseExpires? || step.ApplyAnswer?
    ensures Lasting(s, Apply(s, step))
  {
    hide Inv, CaseInv, Evolves, Finish, RecoverExpired, ReconcileApply, Reconcilable, Claimable, RowsSent, SlotsOk,
         Claim, OutcomeOf, OnLedger, PostOf, Lasting;
    match step
    case ClaimBy(wid) => ClaimLasts(s, wid);
    case Report(slot, gaveUp) => ReportLasts(s, slot, gaveUp);
    case LeaseExpires(wid, n) =>
      if wid in s.db.cases && n < |s.db.cases[wid].attempts| {
        CaseOf(s, wid);
        RecoverEvolves(s.db.cases[wid], n, s.now);
        PutLasts(s, wid, RecoverExpired(s.db.cases[wid], n, s.now));
      } else {
        SameCasesLast(s, s);
      }
    case ApplyAnswer(l) =>
      if l in s.lookups && l.answer.Some? && l.wid in s.db.cases {
        CaseOf(s, l.wid);
        LookupOf(s, l);
        ReconcileEvolves(s.db.cases[l.wid], l.version, l.answer.value, s.now);
        PutLasts(s, l.wid, ReconcileApply(s.db.cases[l.wid], l.version, l.answer.value, s.now));
      } else {
        SameCasesLast(s, s);
      }
  }

  lemma StepLasts(s: Sys, step: Step)
    requires Inv(s)
    ensures Lasting(s, Apply(s, step))
  {
    hide Inv, Lasting;
    if step.Submit? {
      SubmitLasts(s, step.who, step.body, step.wid);
    } else if step.DecideBy? || step.Deadline? || step.Mark? || step.Deliver? || step.CloseBy? {
      TableStepLasts(s, step);
    } else if step.ClaimBy? || step.Report? || step.LeaseExpires? || step.ApplyAnswer? {
      AttemptStepLasts(s, step);
    } else {
      if step.Arrive? && step.slot in s.wires && s.wires[step.slot].InFlight? {
        PayFacts(s, step.slot);
      }
      SameCasesLast(s, Apply(s, step));
    }
  }

  /** What a finished case and a receipt keep through any number of further steps. */
  ghost predicate Kept(s: Sys, t: Sys) {
    && (forall wid :: wid in s.db.cases ==>
      && wid in t.db.cases
      && var c := s.db.cases[wid]; var d := t.db.cases[wid];
      && SameIdentity(c.w, d.w)
      && c.w.version <= d.w.version
      && (Final(c.w.state) ==> d.w.state == c.w.state)
      && InboxGrows(c.inbox, d.inbox)
      && c.decisions <= d.decisions
      && |c.attempts| <= |d.attempts|)
    && LedgerGrows(s.provider, t.provider)
    && t.settings == s.settings
    && s.queue <= t.queue && s.now <= t.now
  }

  lemma KeptStep(s: Sys, t: Sys, u: Sys)
    requires Kept(s, t) && Lasting(t, u)
    ensures Kept(s, u)
  {
    hide AttemptMoves;
  }

  /** Final states, identities, decisions and receipts outlast every further run. */
  lemma {:induction false} RunLasts(s: Sys, steps: seq<Step>)
    requires Inv(s)
    ensures Kept(s, Run(s, steps))
  {
    hide Inv, Apply, Lasting;
    if steps == [] {
    } else {
      var t := Run(s, steps[..|steps| - 1]);
      RunLasts(s, steps[..|steps| - 1]);
      RunKeeps(s, steps[..|steps| - 1]);
      StepLasts(t, steps[|steps| - 1]);
      KeptStep(s, t, Apply(t, steps[|steps| - 1]));
    }
  }

  // ---------- final states ----------

  /** COMPLETED means paid: a succeeded attempt carries the receipt on the ledger. */
  lemma CompletedMeansPaid(now: int, settings: Settings, steps: seq<Step>, wid: nat)
    requires var s := Reached(now, settings, steps);
      wid in s.db.cases && s.db.cases[wid].w.state == Completed
    ensures var s := Reached(now, settings, steps); var c := s.db.cases[wid];
      exists n :: 0 <= n < |c.attempts| && c.attempts[n].status == Succeeded
        && c.attempts[n].receipt.Some? && OnLedger(s.provider, OperationKey(c.w), c.attempts[n].receipt.value)
  {
    hide Inv, CaseInv;
    var s := Reached(now, settings, steps);
    ReachedInv(now, settings, steps);
    CaseOf(s, wid);
    var c := s.db.cases[wid];
    var n :| 0 <= n < |c.attempts| && c.attempts[n].status == Succeeded;
    AttemptKey(c, n);
    assert Paid(c.attempts[n], s.provider);
  }

  /** A case that ended without paying: no receipt, and no POST that could still be paid. */
  ghost predicate NeverPaid(s: Sys, wid: nat)
    requires wid in s.db.cases
  {
    && OperationKey(s.db.cases[wid].w) !in s.provider.ledger
    && (forall n :: (wid, n) in s.wires ==> s.wires[(wid, n)] == Answered(RejectedByProvider))
  }

  lemma UnpaidState(s: Sys, wid: nat)
    requires Inv(s) && wid in s.db.cases && s.db.cases[wid].w.state in {Rejected, Closed}
    ensures NeverPaid(s, wid)
  {
    hide Inv, CaseInv;
    CaseOf(s, wid);
    var c := s.db.cases[wid];
    UnpaidAttempts(c);
    forall n | (wid, n) in s.wires
      ensures s.wires[(wid, n)] == Answered(RejectedByProvider)
    {
      assert WireOk(c, n, s.wires[(wid, n)], s.provider);
    }
    if OperationKey(c.w) in s.provider.ledger {
      LedgerRowOf(s, OperationKey(c.w));
    }
  }

  lemma UnpaidAttempts(c: Case)
    requires CaseInv(c) && c.w.state in {Rejected, Closed}
    ensures forall n :: 0 <= n < |c.attempts| ==> c.attempts[n].status == Failed
  {
    hide ChainOk, DecisionsOk, LogOk, PromiseOk;
    if c.attempts != [] {
      assert LatestOk(Latest(c.attempts), c.w.state);
    }
  }

  /** REJECTED and CLOSED mean not paid, now and after any further run. */
  lemma UnpaidForever(now: int, settings: Settings, steps: seq<Step>, more: seq<Step>, wid: nat)
    requires var s := Reached(now, settings, steps);
      wid in s.db.cases && s.db.cases[wid].w.state in {Rejected, Closed}
    ensures var t := Run(Reached(now, settings, steps), more);
      wid in t.db.cases && t.db.cases[wid].w.state in {Rejected, Closed} && NeverPaid(t, wid)
  {
    hide Inv;
    var s := Reached(now, settings, steps);
    ReachedInv(now, settings, steps);
    RunLasts(s, more);
    RunKeeps(s, more);
    UnpaidState(Run(s, more), wid);
  }

  /** A refunded case stays refunded under the same receipt, and ends nowhere but in COMPLETED. */
  lemma PaidForever(now: int, settings: Settings, steps: seq<Step>, more: seq<Step>, key: OpKey)
    requires key in Reached(now, settings, steps).provider.ledger
    ensures var s := Reached(now, settings, steps); var t := Run(s, more);
      && key in t.provider.ledger && t.provider.ledger[key].receipt == s.provider.ledger[key].receipt
      && key.wid in t.db.cases
      && (Final(t.db.cases[key.wid].w.state) ==> t.db.cases[key.wid].w.state == Completed)
  {
    hide Inv;
    var s := Reached(now, settings, steps);
    ReachedInv(now, settings, steps);
    RunLasts(s, more);
    RunKeeps(s, more);
    var t := Run(s, more);
    LedgerRowOf(t, key);
    if t.db.cases[key.wid].w.state in {Rejected, Closed} {
      UnpaidState(t, key.wid);
    }
  }
}
