/** What each transaction answers and does to a case, row by row, in any reachable state. */
module RefundEffects {
  import opened Wrappers
  import opened RefundRows
  import opened RefundSteps
  import opened ProviderRules
  import opened RefundInvariant
  import opened RefundProtocol
  import opened RefundProtocolProof
  import opened RefundTheorems
  import opened RefundDelivery
  import opened RefundPatches

  // ---------- what a transaction may leave ----------

  /** The workflow row moved, once. */
  predicate MovesTo(c: Case, d: Case, state: State) {
    d.w == c.w.(state := state, version := c.w.version + 1)
  }

  /** One event of the new version, not sent yet. */
  predicate Announces(c: Case, d: Case, kind: EventKind, task: Option<nat>, proposal: Option<nat>) {
    d.outbox == c.outbox +
      [OutboxRow(Event(c.w.id, c.w.tenant, |c.outbox|, c.w.version + 1, kind, 1, task, proposal), false)]
  }

  predicate SameApproval(c: Case, d: Case) {
    d.tasks == c.tasks && d.timers == c.timers && d.decisions == c.decisions
  }

  /** An attempt that nobody has claimed yet. */
  function Waiting(w: Workflow, at: int): Attempt {
    Attempt(OpKey(w.tenant, w.id, w.proposal), Pending, 0, 0, at, None)
  }

  // ---------- reconciliation ----------

  predicate SettlesUnknown(a: seq<Attempt>, b: seq<Attempt>, receipt: nat) {
    && |b| == |a|
    && forall i | 0 <= i < |a| ::
      b[i] == if a[i].status == Unknown then a[i].(status := Succeeded, receipt := Some(receipt)) else a[i]
  }

  predicate UnderReview(c: Case, d: Case) {
    && d.attempts == c.attempts && d.outbox == c.outbox
    && if c.w.state == ManualReview then d.w == c.w else MovesTo(c, d, ManualReview)
  }

  predicate LastUnknown(c: Case) {
    c.attempts != [] && c.attempts[|c.attempts| - 1].status == Unknown
  }

  predicate Reconciled(c: Case, d: Case, a: Answer, now: int) {
    && SameApproval(c, d) && d.inbox == c.inbox
    && match a
       case Found(receipt) =>
         && MovesTo(c, d, Completed) && Announces(c, d, Moved(Completed), None, None)
         && SettlesUnknown(c.attempts, d.attempts, receipt)
       case Absent =>
         if |c.attempts| < 3 && LastUnknown(c) then
           && MovesTo(c, d, RetryWait) && d.outbox == c.outbox
           && d.attempts == c.attempts + [Waiting(c.w, now + 2_000_000)]
         else UnderReview(c, d)
       case Unavailable => UnderReview(c, d)
  }

  /** An attempt that carries the receipt. */
  predicate Receipted(c: Case, receipt: nat) {
    exists n :: 0 <= n < |c.attempts| && c.attempts[n].status == Succeeded && c.attempts[n].receipt == Some(receipt)
  }

  lemma ReconcileMeans(c: Case, a: Answer, now: int)
    requires c.attempts != []
    ensures Reconciled(c, ReconcileApply(c, c.w.version, a, now), a, now)
  {
  }

  /** An answer applied to the version it was asked for settles, retries or hands over; to any other version, nothing. */
  lemma AnswerMeans(s: Sys, l: Lookup)
    requires Inv(s) && l in s.lookups && l.answer.Some?
    ensures l.wid in s.db.cases
    ensures var c := s.db.cases[l.wid]; var t := Apply(s, ApplyAnswer(l));
      if l.version != c.w.version then t == s
      else
        && l.wid in t.db.cases && t == With(s, l.wid, t.db.cases[l.wid])
        && Reconciled(c, t.db.cases[l.wid], l.answer.value, s.now)
        && (l.answer.value.Found? ==> Receipted(t.db.cases[l.wid], l.answer.value.receipt))
  {
    hide Inv, CaseInv, Apply, ReconcileApply, Reconciled, Receipted;
    LookupOf(s, l);
    AfterAnswer(s, l);
    var c := s.db.cases[l.wid];
    if l.version == c.w.version {
      ReconcileMeans(c, l.answer.value, s.now);
      if l.answer.value.Found? {
        RowHasUnknown(s, l.wid);
        FoundIsReceipted(c, Apply(s, ApplyAnswer(l)).db.cases[l.wid], l.answer.value.receipt, s.now);
      }
    } else {
      OldVersion(c, l.version, l.answer.value, s.now);
      assert With(s, l.wid, c) == s;
    }
  }

  lemma OldVersion(c: Case, version: nat, a: Answer, now: int)
    requires version != c.w.version
    ensures ReconcileApply(c, version, a, now) == c
  {
  }

  lemma FoundIsReceipted(c: Case, d: Case, receipt: nat, now: int)
    requires Reconciled(c, d, Found(receipt), now)
    requires exists n :: 0 <= n < |c.attempts| && c.attempts[n].status == Unknown
    ensures Receipted(d, receipt)
  {
    var n :| 0 <= n < |c.attempts| && c.attempts[n].status == Unknown;
    assert d.attempts[n].status == Succeeded;
  }

  /** The three steps of one reconciliation with the provider up. */
  ghost function ReconcileRun(s: Sys, wid: nat): seq<Step>
    requires wid in s.db.cases
  {
    var w := s.db.cases[wid].w;
    var l := Lookup(wid, w.version, OpKey(w.tenant, wid, w.proposal), None);
    [ReadToReconcile(wid)] + [AskProvider(l, false)]
      + [ApplyAnswer(l.(answer := Some(Status(s.provider, l.key))))]
  }

  /** Where one reconciliation takes a case, as the provider's ledger says. */
  predicate ReconciledTo(c: Case, d: Case, p: Provider, now: int) {
    var key := OpKey(c.w.tenant, c.w.id, c.w.proposal);
    if key in p.ledger && p.ledger[key].fault != UnknownStatus then
      d.w.state == Completed && Receipted(d, p.ledger[key].receipt)
    else if key !in p.ledger && |c.attempts| < 3 && LastUnknown(c) then
      d.w.state == RetryWait && d.attempts == c.attempts + [Waiting(c.w, now + 2_000_000)]
    else d.w.state == ManualReview && d.attempts == c.attempts
  }

  /** What one reconciliation brings: completion, another attempt, or review. */
  lemma ReconcileEnds(s: Sys, wid: nat)
    requires Inv(s) && wid in s.db.cases && s.db.cases[wid].attempts != []
    requires s.db.cases[wid].w.state in {Reconciling, ManualReview}
    ensures var c := s.db.cases[wid]; var t := Run(s, ReconcileRun(s, wid));
      && wid in t.db.cases && t.provider == s.provider
      && (c.w.state == Reconciling ==> LastUnknown(c))
      && ReconciledTo(c, t.db.cases[wid], s.provider, s.now)
  {
    hide Inv, CaseInv, Run, Receipted, Status, Apply, SlotsOk, RowsSent;
    CaseOf(s, wid);
    var c := s.db.cases[wid];
    var t := Asked(s, wid);
    AsksOnce(s, wid);
    AnswerMeans(t, AnswerOf(s, wid));
    StatusMeans(s.provider, AnswerOf(s, wid).key);
    if c.w.state == Reconciling { ReconcilingIsUnknown(c); }
  }

  ghost function AnswerOf(s: Sys, wid: nat): Lookup
    requires wid in s.db.cases
  {
    var w := s.db.cases[wid].w;
    var key := OpKey(w.tenant, wid, w.proposal);
    Lookup(wid, w.version, key, Some(Status(s.provider, key)))
  }

  /** The state in which a reconciler holds the answer. */
  ghost function Asked(s: Sys, wid: nat): Sys
    requires wid in s.db.cases
  {
    s.(lookups := s.lookups + {AnswerOf(s, wid).(answer := None)} + {AnswerOf(s, wid)})
  }

  lemma AsksOnce(s: Sys, wid: nat)
    requires Inv(s) && wid in s.db.cases && Reconcilable(s.db.cases[wid])
    ensures Inv(Asked(s, wid)) && Run(s, ReconcileRun(s, wid)) == Apply(Asked(s, wid), ApplyAnswer(AnswerOf(s, wid)))
  {
    hide Inv, CaseInv, Apply, Run, Status;
    CaseOf(s, wid);
    var a := AnswerOf(s, wid);
    var l := a.(answer := None);
    var read, ask := ReadToReconcile(wid), AskProvider(l, false);
    var s1 := Apply(s, read);
    ThreeSteps(s, read, ask, ApplyAnswer(a));
    AfterRead(s, wid);
    AfterAsk(s1, l);
    StepKeeps(s, read);
    StepKeeps(s1, ask);
  }

  lemma StatusMeans(p: Provider, key: OpKey)
    ensures Status(p, key) ==
      if key in p.ledger && p.ledger[key].fault != UnknownStatus then Found(p.ledger[key].receipt)
      else if key in p.ledger then Unavailable else Absent
  {
  }

  lemma ReconcilingIsUnknown(c: Case)
    requires CaseInv(c) && c.w.state == Reconciling
    ensures LastUnknown(c)
  {
  }

  lemma AfterAsk(s: Sys, l: Lookup)
    requires l in s.lookups && l.answer.None?
    ensures Apply(s, AskProvider(l, false)) == s.(lookups := s.lookups + {l.(answer := Some(Status(s.provider, l.key)))})
  {
    hide TeamMay, Create, Decide, Consume, Status;
  }

  lemma ThreeSteps(s: Sys, a: Step, b: Step, c: Step)
    ensures Run(s, [a] + [b] + [c]) == Apply(Apply(Apply(s, a), b), c)
  {
    hide Run, Apply;
    RunSplits(s, [a] + [b], [c]);
    RunSplits(s, [a], [b]);
    RunOne(s, a);
    RunOne(Apply(s, a), b);
    RunOne(Apply(Apply(s, a), b), c);
  }

  // ---------- reports ----------

  /** What the claimant of an attempt heard. */
  function Heard(wire: Wire, gaveUp: bool): Option<Reply> {
    if !gaveUp && wire.Answered? then Some(wire.reply) else None
  }

  predicate Ended(c: Case, d: Case, n: nat, status: AttemptStatus, receipt: Option<nat>, state: State, more: seq<Attempt>)
    requires n < |c.attempts|
  {
    && MovesTo(c, d, state) && Announces(c, d, Moved(state), None, None)
    && d.attempts == c.attempts[n := c.attempts[n].(status := status, receipt := receipt)] + more
  }

  /** Attempt `n`, numbered n + 1, ends on what was heard. */
  predicate Reported(c: Case, d: Case, n: nat, heard: Option<Reply>, now: int)
    requires n < |c.attempts|
  {
    && SameApproval(c, d) && d.inbox == c.inbox
    && match heard
       case Some(Settled(receipt)) => Ended(c, d, n, Succeeded, Some(receipt), Completed, [])
       case Some(Busy) =>
         if n == 0 then Ended(c, d, n, Retry, None, RetryWait, [Waiting(c.w, now + 2_000_000)])
         else if n == 1 then Ended(c, d, n, Retry, None, RetryWait, [Waiting(c.w, now + 4_000_000)])
         else Ended(c, d, n, Retry, None, ManualReview, [])
       case Some(RejectedByProvider) => Ended(c, d, n, Failed, None, ManualReview, [])
       case Some(Odd) => Ended(c, d, n, Unknown, None, Reconciling, [])
       case None => Ended(c, d, n, Unknown, None, Reconciling, [])
  }

  lemma FinishMeans(c: Case, n: nat, fence: nat, wire: Wire, gaveUp: bool, now: int)
    requires StillClaimed(c, n, fence) && n <= 2
    ensures Reported(c, Finish(c, n, fence, OutcomeOf(wire, gaveUp), now), n, Heard(wire, gaveUp), now)
  {
    assert Pow2(1) == 2 && Pow2(2) == 4;
    var d := Finish(c, n, fence, OutcomeOf(wire, gaveUp), now);
    var closed := d.attempts[..|c.attempts|];
    assert d.attempts == closed + d.attempts[|c.attempts|..];
  }

  /** A claimant whose claim still stands reports: every reply ends the attempt in its own way. */
  lemma ReportMeans(s: Sys, wid: nat, n: nat, gaveUp: bool)
    requires Inv(s) && (wid, n) in s.workers && (wid, n) in s.wires && (gaveUp || s.wires[(wid, n)].Answered?)
    requires wid in s.db.cases && n < |s.db.cases[wid].attempts|
    requires var a := s.db.cases[wid].attempts[n]; a.status == Running && a.fence == s.workers[(wid, n)].fence
    ensures var t := Apply(s, Report((wid, n), gaveUp));
      && wid in t.db.cases && t == With(s, wid, t.db.cases[wid]).(workers := s.workers - {(wid, n)})
      && Reported(s.db.cases[wid], t.db.cases[wid], n, Heard(s.wires[(wid, n)], gaveUp), s.now)
  {
    hide Inv, CaseInv, Apply, Finish, OutcomeOf, Reported;
    CaseOf(s, wid);
    RunningMeans(s.db.cases[wid], n);
    AfterReport(s, (wid, n), gaveUp);
    FinishMeans(s.db.cases[wid], n, s.workers[(wid, n)].fence, s.wires[(wid, n)], gaveUp, s.now);
  }

  lemma RunningMeans(c: Case, n: nat)
    requires CaseInv(c) && n < |c.attempts| && c.attempts[n].status == Running
    ensures c.w.state == Executing && n == |c.attempts| - 1 && n <= 2
  {
    hide ChainOk, DecisionsOk, LogOk, PromiseOk, LatestOk;
    RunningIsLast(c, n);
  }

  /** An attempt is retried only on a reply that the provider was busy, and fails only on a rejection. */
  lemma StatusesAreHeard(now: int, settings: Settings, steps: seq<Step>, wid: nat, n: nat)
    requires var s := Reached(now, settings, steps); wid in s.db.cases && n < |s.db.cases[wid].attempts|
    ensures var s := Reached(now, settings, steps); var a := s.db.cases[wid].attempts[n];
      && (a.status == Retry ==> (wid, n) in s.wires && s.wires[(wid, n)] == Answered(Busy))
      && (a.status == Failed ==> (wid, n) in s.wires && s.wires[(wid, n)] == Answered(RejectedByProvider))
      && (a.status == Succeeded ==> a.receipt.Some? && OnLedger(s.provider, a.key, a.receipt.value))
  {
    hide Inv, CaseInv;
    var s := Reached(now, settings, steps);
    ReachedInv(now, settings, steps);
    CaseOf(s, wid);
    if (wid, n) in s.wires {
      assert WireOk(s.db.cases[wid], n, s.wires[(wid, n)], s.provider);
    }
  }

  // ---------- claims and leases ----------

  /** The last attempt is due. */
  predicate DueAttempt(c: Case, now: int) {
    && c.w.state in {ReadyToExecute, RetryWait} && c.attempts != []
    && c.attempts[|c.attempts| - 1].status == Pending && c.attempts[|c.attempts| - 1].availableAt <= now
  }

  predicate ClaimedBy(c: Case, d: Case, n: nat, until: int)
    requires n < |c.attempts|
  {
    && MovesTo(c, d, Executing) && SameApproval(c, d) && d.inbox == c.inbox && d.outbox == c.outbox
    && d.attempts == c.attempts[n := c.attempts[n].(status := Running, leaseUntil := until, fence := c.attempts[n].fence + 1)]
  }

  lemma StartsLast(c: Case, n: nat, until: int)
    requires CaseInv(c) && n < |c.attempts| && c.attempts[n].status == Pending
    ensures n == |c.attempts| - 1 && ClaimedBy(c, Claim(c, until), n, until)
  {
    PendingIsOnly(c, n);
    var d := Claim(c, until);
    assert forall i | 0 <= i < |c.attempts| && i != n :: c.attempts[i].status != Pending by { OthersStopped(c, n); }
    assert d.attempts ==
      c.attempts[n := c.attempts[n].(status := Running, leaseUntil := until, fence := c.attempts[n].fence + 1)];
  }

  lemma OthersStopped(c: Case, n: nat)
    requires CaseInv(c) && n == |c.attempts| - 1
    ensures forall i | 0 <= i < n :: c.attempts[i].status !in {Pending, Running}
  {
    hide ChainOk, DecisionsOk, LogOk, PromiseOk, StateOk;
  }

  lemma ClaimableMeans(c: Case, now: int)
    requires CaseInv(c)
    ensures Claimable(c, now) <==> DueAttempt(c, now)
    ensures Claimable(c, now) ==> PendingNo(c.attempts) == |c.attempts| - 1
  {
    hide CaseInv;
    if Claimable(c, now) {
      var n :| 0 <= n < |c.attempts| && c.attempts[n].status == Pending && c.attempts[n].availableAt <= now;
      PendingIsOnly(c, n);
      PendingIsOnly(c, PendingNo(c.attempts));
    }
  }

  /** A claim takes the last attempt iff it is due, under a new fence and lease, with the POST of its own rows. */
  lemma ClaimMeans(s: Sys, wid: nat)
    requires Inv(s) && wid in s.db.cases
    ensures var c := s.db.cases[wid]; var t := Apply(s, ClaimBy(wid));
      if !DueAttempt(c, s.now) then t == s
      else
        var n := |c.attempts| - 1;
        && wid in t.db.cases && ClaimedBy(c, t.db.cases[wid], n, s.now + s.settings.leaseSeconds * 1_000_000)
        && t == With(s, wid, t.db.cases[wid]).(
             workers := s.workers[(wid, n) := Worker(c.attempts[n].fence + 1,
               Post(Refund(OpKey(c.w.tenant, wid, c.w.proposal), c.w.order, c.w.amount), c.w.fault, n + 1))],
             wires := s.wires[(wid, n) := Unsent])
  {
    hide Inv, CaseInv, Apply, Claim, Claimable, ClaimedBy, SlotsOk, RowsSent;
    CaseOf(s, wid);
    AfterClaim(s, wid);
    var c := s.db.cases[wid];
    ClaimableMeans(c, s.now);
    if Claimable(c, s.now) {
      var n := |c.attempts| - 1;
      var until := s.now + s.settings.leaseSeconds * SECOND;
      StartsLast(c, n, until);
      AttemptKey(c, n);
      ClaimedRow(c, Claim(c, until), n, until);
    }
  }

  lemma ClaimedRow(c: Case, d: Case, n: nat, until: int)
    requires n < |c.attempts| && ClaimedBy(c, d, n, until)
    ensures |d.attempts| == |c.attempts| && d.attempts[n].fence == c.attempts[n].fence + 1
    ensures d.attempts[n].key == c.attempts[n].key && SameIdentity(c.w, d.w)
  {
  }

  /** An expired lease makes the attempt's outcome unknown and its fence stale; a live one is left alone. */
  lemma LeaseMeans(s: Sys, wid: nat, n: nat)
    requires wid in s.db.cases && n < |s.db.cases[wid].attempts|
    ensures var c := s.db.cases[wid]; var t := Apply(s, LeaseExpires(wid, n));
      var a := c.attempts[n];
      if a.status == Running && a.leaseUntil < s.now then
        && wid in t.db.cases && t == With(s, wid, t.db.cases[wid])
        && MovesTo(c, t.db.cases[wid], Reconciling)
        && t.db.cases[wid] == c.(w := t.db.cases[wid].w,
             attempts := c.attempts[n := a.(status := Unknown, fence := a.fence + 1)])
      else t == s
  {
    hide Apply;
    AfterLease(s, wid, n);
    assert With(s, wid, s.db.cases[wid]) == s;
  }

  /** An operator closes a case under review iff every attempt failed for good. */
  lemma CloseMeans(s: Sys, wid: nat)
    requires wid in s.db.cases
    ensures var c := s.db.cases[wid]; var t := Apply(s, CloseBy(wid));
      if c.w.state == ManualReview && (forall n | 0 <= n < |c.attempts| :: c.attempts[n].status == Failed)
      then t == With(s, wid, c.(w := c.w.(state := Closed, version := c.w.version + 1)))
      else t == s
  {
    hide Apply;
    AfterClose(s, wid);
  }

  // ---------- one execution, start to end ----------

  function LastNo(c: Case): nat {
    if c.attempts == [] then 0 else |c.attempts| - 1
  }

  /** Claim, POST, arrival and report of the last attempt. */
  function ExecuteRun(wid: nat, c: Case): seq<Step> {
    var n := LastNo(c);
    [ClaimBy(wid)] + [SendPost((wid, n))] + [Arrive((wid, n), None)] + [Report((wid, n), false)]
  }

  /** How the provider answers a case's POST. */
  datatype Ending = Settles | IsBusy | Rejects

  function EndingOf(w: Workflow, n: nat, labFaults: bool): Ending {
    if labFaults && w.fault == PermanentFault then Rejects
    else if labFaults && w.fault == TransientOnce && n == 0 then IsBusy
    else Settles
  }

  /** Where one execution takes a case and the provider. */
  predicate ExecutedTo(c: Case, p: Provider, d: Case, q: Provider, now: int)
    requires c.attempts != []
  {
    var n := |c.attempts| - 1;
    var key := OpKey(c.w.tenant, c.w.id, c.w.proposal);
    match EndingOf(c.w, n, p.labFaults)
    case Settles =>
      && key in q.ledger && q.ledger[key].refund == Refund(key, c.w.order, c.w.amount)
      && d.w.state == Completed && |d.attempts| == n + 1
      && d.attempts[n].status == Succeeded && d.attempts[n].receipt == Some(q.ledger[key].receipt)
      && (key in p.ledger ==> q == p)
    case IsBusy =>
      && q == p && d.w.state == RetryWait && |d.attempts| == 2
      && d.attempts[0].status == Retry && d.attempts[1] == Waiting(c.w, now + 2_000_000)
    case Rejects =>
      q == p && d.w.state == ManualReview && |d.attempts| == n + 1 && d.attempts[n].status == Failed
  }

  /** Executing a due attempt with nothing lost: paid and completed, or as the injected fault says. */
  lemma ExecuteEnds(s: Sys, wid: nat)
    requires Inv(s) && wid in s.db.cases && DueAttempt(s.db.cases[wid], s.now)
    ensures var c := s.db.cases[wid]; var t := Run(s, ExecuteRun(wid, c));
      wid in t.db.cases && ExecutedTo(c, s.provider, t.db.cases[wid], t.provider, s.now)
  {
    hide Inv, CaseInv, Run, Apply, Pay, RowsSent, SlotsOk, Reported;
    var c := s.db.cases[wid];
    var n := |c.attempts| - 1;
    var key := OpKey(c.w.tenant, wid, c.w.proposal);
    var post := Post(Refund(key, c.w.order, c.w.amount), c.w.fault, n + 1);
    var t, d := Executes(s, wid);
    ReportReads(d, t.db.cases[wid], n, Pay(s.provider, post).1, s.now);
    WaitingSame(c.w, d.w, s.now + 2_000_000);
    AttemptsFew(s, wid);
    PayMeans(s.provider, post);
    if key in s.provider.ledger { LedgerRowOf(s, key); }
  }

  lemma AttemptsFew(s: Sys, wid: nat)
    requires Inv(s) && wid in s.db.cases
    ensures |s.db.cases[wid].attempts| <= 3 && s.db.cases[wid].w.id == wid
  {
    hide Inv, ChainOk, DecisionsOk, LogOk, PromiseOk, StateOk;
    CaseOf(s, wid);
  }

  /** The claimed case, and the end of the run: the provider's answer reported on it. */
  lemma Executes(s: Sys, wid: nat) returns (t: Sys, d: Case)
    requires Inv(s) && wid in s.db.cases && DueAttempt(s.db.cases[wid], s.now)
    ensures var c := s.db.cases[wid]; var n := |c.attempts| - 1;
      var refund := Refund(OpKey(c.w.tenant, wid, c.w.proposal), c.w.order, c.w.amount);
      var (p, reply) := Pay(s.provider, Post(refund, c.w.fault, n + 1));
      && t == Run(s, ExecuteRun(wid, c)) && t.provider == p && wid in t.db.cases
      && |d.attempts| == n + 1 && SameIdentity(c.w, d.w)
      && Reported(d, t.db.cases[wid], n, Some(reply), s.now)
  {
    hide Inv, CaseInv, Apply, Run, Pay, RowsSent, SlotsOk, Reported;
    var c := s.db.cases[wid];
    var n := |c.attempts| - 1;
    var slot := (wid, n);
    var claim, post, arrive, report := ClaimBy(wid), SendPost(slot), Arrive(slot, None), Report(slot, false);
    FourSteps(s, claim, post, arrive, report);
    CaseOf(s, wid);
    ClaimMeans(s, wid);
    var s1 := Apply(s, claim);
    StepKeeps(s, claim);
    AfterPost(s1, slot);
    var s2 := Apply(s1, post);
    StepKeeps(s1, post);
    AfterArrive(s2, slot);
    var s3 := Apply(s2, arrive);
    StepKeeps(s2, arrive);
    d := s3.db.cases[wid];
    ReportMeans(s3, wid, n, false);
    t := Apply(s3, report);
  }

  lemma ReportReads(c: Case, d: Case, n: nat, reply: Reply, now: int)
    requires |c.attempts| == n + 1 && Reported(c, d, n, Some(reply), now)
    ensures reply.Settled? ==>
      d.w.state == Completed && |d.attempts| == n + 1
      && d.attempts[n].status == Succeeded && d.attempts[n].receipt == Some(reply.receipt)
    ensures reply.Busy? && n == 0 ==>
      d.w.state == RetryWait && |d.attempts| == 2
      && d.attempts[0].status == Retry && d.attempts[1] == Waiting(c.w, now + 2_000_000)
    ensures reply.RejectedByProvider? ==>
      d.w.state == ManualReview && |d.attempts| == n + 1 && d.attempts[n].status == Failed
  {
  }

  lemma WaitingSame(w: Workflow, v: Workflow, at: int)
    requires SameIdentity(w, v)
    ensures Waiting(v, at) == Waiting(w, at)
  {
  }

  /** The provider's answer to a POST: faults first, then the row of its key, then a row of its own. */
  lemma PayMeans(p: Provider, post: Post)
    ensures var (q, reply) := Pay(p, post); var key := post.refund.key;
      && (p.labFaults && post.fault == PermanentFault ==> reply == RejectedByProvider && q == p)
      && (p.labFaults && post.fault == TransientOnce && post.attemptNo == 1 ==> reply == Busy && q == p)
      && (!(p.labFaults && (post.fault == PermanentFault || (post.fault == TransientOnce && post.attemptNo == 1))) ==>
        if key in p.ledger then
          q == p && reply == (if p.ledger[key].refund == post.refund then Settled(p.ledger[key].receipt) else RejectedByProvider)
        else
          && reply == Settled(p.issued) && q.issued == p.issued + 1 && q.labFaults == p.labFaults
          && q.ledger == p.ledger[key := LedgerRow(post.refund, p.issued, if p.labFaults then post.fault else NoFault)])
  {
  }

  lemma AfterPost(s: Sys, slot: Slot)
    requires slot in s.workers && slot in s.wires && s.wires[slot] == Unsent
    ensures Apply(s, SendPost(slot)) == s.(wires := s.wires[slot := InFlight(s.workers[slot].post)])
  {
    hide TeamMay, Create, Decide, Consume;
  }

  lemma AfterArrive(s: Sys, slot: Slot)
    requires slot in s.wires && s.wires[slot].InFlight?
    ensures var (p, reply) := Pay(s.provider, s.wires[slot].post);
      Apply(s, Arrive(slot, None)) == s.(provider := p, wires := s.wires[slot := Answered(reply)])
  {
    hide TeamMay, Create, Decide, Consume, Pay;
  }

  lemma FourSteps(s: Sys, a: Step, b: Step, c: Step, d: Step)
    ensures Run(s, [a] + [b] + [c] + [d]) == Apply(Apply(Apply(Apply(s, a), b), c), d)
  {
    hide Run, Apply;
    RunSplits(s, [a] + [b] + [c], [d]);
    ThreeSteps(s, a, b, c);
    RunOne(Apply(Apply(Apply(s, a), b), c), d);
  }
}
