/** What a scheduler round and a recovery round do to the cases they read. */
module RefundRounds {
  import opened Wrappers
  import opened RefundRows
  import opened RefundSteps
  import opened RefundInvariant
  import opened RefundProtocolProof
  import opened RefundService
  import opened RefundEffects
  import opened RefundApproval

  ghost predicate CasesHold(cases: map<nat, Case>) {
    forall wid :: wid in cases ==> CaseInv(cases[wid])
  }

  /** No case occurs twice. */
  ghost predicate OncePerCase(due: seq<Due>) {
    forall i, j | 0 <= i < j < |due| :: due[i].0 != due[j].0
  }

  predicate Untouched(due: seq<Due>, wid: nat) {
    forall i | 0 <= i < |due| :: due[i].0 != wid
  }

  lemma OneTimerDue(c: Case, k: nat, m: nat)
    requires CaseInv(c) && k < |c.timers| && m < |c.timers|
    requires c.timers[k].status == TimerPending && c.timers[m].status == TimerPending
    ensures k == m && c.timers[k].task == k && k < |c.tasks|
    ensures c.tasks[k].status == TaskPending && c.tasks[k].due == c.timers[k].due
  {
    hide AttemptsOk, LogOk, PromiseOk, StateOk, DecisionsOk;
    assert TimerOk(c.timers[k], k, c.tasks[k]) && TimerOk(c.timers[m], m, c.tasks[m]);
    assert TaskOk(c.tasks[k], k, |c.tasks| - 1, TierRole(c.w.amount), c.w.proposal);
    assert TaskOk(c.tasks[m], m, |c.tasks| - 1, TierRole(c.w.amount), c.w.proposal);
    PendingLast(c, k);
    PendingLast(c, m);
  }

  lemma PendingLast(c: Case, k: nat)
    requires CaseInv(c) && k < |c.tasks| && c.tasks[k].status == TaskPending
    ensures k == |c.tasks| - 1
  {
    hide CaseInv;
    PendingFacts(c, k);
  }

  lemma Front(due: seq<Due>, wid: nat)
    requires due != [] && Untouched(due, wid)
    ensures Untouched(due[..|due| - 1], wid) && due[|due| - 1].0 != wid
  {
  }

  lemma {:induction false} EscalateLeaves(cases: map<nat, Case>, due: seq<Due>, now: int, wid: nat)
    requires wid in cases && Untouched(due, wid)
    ensures var after := EscalateAll(cases, due, now); after.Keys == cases.Keys && after[wid] == cases[wid]
  {
    hide Escalate, Untouched;
    if due != [] {
      Front(due, wid);
      EscalateLeaves(cases, due[..|due| - 1], now, wid);
    }
  }

  lemma {:induction false} EscalateKeys(cases: map<nat, Case>, due: seq<Due>, now: int)
    ensures EscalateAll(cases, due, now).Keys == cases.Keys
  {
    hide Escalate;
    if due != [] { EscalateKeys(cases, due[..|due| - 1], now); }
  }

  /** With one entry per case, each entry finds its case as it was read. */
  lemma {:induction false} EscalateHits(cases: map<nat, Case>, due: seq<Due>, now: int, i: nat)
    requires OncePerCase(due) && i < |due| && due[i].0 in cases && due[i].1 < |cases[due[i].0].tasks|
    ensures var after := EscalateAll(cases, due, now);
      due[i].0 in after && after[due[i].0] == Escalate(cases[due[i].0], due[i].1, now)
  {
    hide Escalate;
    var front, last := due[..|due| - 1], due[|due| - 1];
    var (wid, task) := due[i];
    if i == |front| {
      assert Untouched(front, wid);
      EscalateLeaves(cases, front, now, wid);
    } else {
      assert OncePerCase(front) && front[i] == due[i] && last.0 != wid;
      EscalateHits(cases, front, now, i);
      EscalateKeys(cases, front, now);
    }
  }

  lemma {:induction false} RecoverLeaves(cases: map<nat, Case>, due: seq<Due>, now: int, wid: nat)
    requires wid in cases && Untouched(due, wid)
    ensures var after := RecoverAll(cases, due, now); after.Keys == cases.Keys && after[wid] == cases[wid]
  {
    hide RecoverExpired, Untouched;
    if due != [] {
      Front(due, wid);
      RecoverLeaves(cases, due[..|due| - 1], now, wid);
    }
  }

  lemma {:induction false} RecoverKeys(cases: map<nat, Case>, due: seq<Due>, now: int)
    ensures RecoverAll(cases, due, now).Keys == cases.Keys
  {
    hide RecoverExpired;
    if due != [] { RecoverKeys(cases, due[..|due| - 1], now); }
  }

  /** With one entry per case, each entry finds its case as it was read. */
  lemma {:induction false} RecoverHits(cases: map<nat, Case>, due: seq<Due>, now: int, i: nat)
    requires OncePerCase(due) && i < |due| && due[i].0 in cases && due[i].1 < |cases[due[i].0].attempts|
    ensures var after := RecoverAll(cases, due, now);
      due[i].0 in after && after[due[i].0] == RecoverExpired(cases[due[i].0], due[i].1, now)
  {
    hide RecoverExpired;
    var front, last := due[..|due| - 1], due[|due| - 1];
    var (wid, n) := due[i];
    if i == |front| {
      assert Untouched(front, wid);
      RecoverLeaves(cases, front, now, wid);
    } else {
      assert OncePerCase(front) && front[i] == due[i] && last.0 != wid;
      RecoverHits(cases, front, now, i);
      RecoverKeys(cases, front, now);
    }
  }

  /** A scheduler round passes the task of every timer it read on, and touches no other case. */
  lemma TickPassesOn(cases: map<nat, Case>, due: seq<Due>, now: int)
    requires CasesHold(cases) && EarliestDue(cases, due, now)
    ensures var after := EscalateAll(cases, TasksOf(cases, due), now);
      && after.Keys == cases.Keys
      && (forall i | 0 <= i < |due| ::
           var (wid, task) := due[i];
           && wid in cases && wid in after && task < |cases[wid].tasks| && |cases[wid].timers| == |cases[wid].tasks|
           && PassedOn(cases[wid], after[wid], task, now))
      && (forall wid | wid in cases && Untouched(due, wid) :: wid in after && after[wid] == cases[wid])
  {
    hide CasesHold, PassedOn, Escalate, EscalateAll, OncePerCase, TimerDue, Untouched;
    var after := EscalateAll(cases, due, now);
    TimersOnce(cases, due, now);
    EscalateKeys(cases, due, now);
    forall i | 0 <= i < |due|
      ensures var (wid, task) := due[i];
        && wid in after && wid in cases && task < |cases[wid].tasks| && |cases[wid].timers| == |cases[wid].tasks|
        && PassedOn(cases[wid], after[wid], task, now)
    {
      TimerAt(cases, due[i], now);
      EscalateHits(cases, due, now, i);
      CaseHolds(cases, due[i].0);
      EscalateMeans(cases[due[i].0], due[i].1, now);
    }
    forall wid | wid in cases && Untouched(due, wid) ensures wid in after && after[wid] == cases[wid] {
      EscalateLeaves(cases, due, now, wid);
    }
  }

  lemma CaseHolds(cases: map<nat, Case>, wid: nat)
    requires CasesHold(cases) && wid in cases
    ensures CaseInv(cases[wid])
  {
  }

  lemma TimerAt(cases: map<nat, Case>, d: Due, now: int)
    requires CasesHold(cases) && TimerDue(cases, d, now)
    ensures d.0 in cases
    ensures var c := cases[d.0];
      && d.1 < |c.tasks| && |c.timers| == |c.tasks| && c.timers[d.1].task == d.1
      && c.tasks[d.1].status == TaskPending && c.tasks[d.1].due <= now
  {
    hide CaseInv;
    OneTimerDue(cases[d.0], d.1, d.1);
    PendingFacts(cases[d.0], d.1);
  }

  /** A case has one pending timer at most, and its number is that of its task. */
  lemma TimersOnce(cases: map<nat, Case>, due: seq<Due>, now: int)
    requires CasesHold(cases) && EarliestDue(cases, due, now)
    ensures OncePerCase(due) && TasksOf(cases, due) == due
  {
    hide CaseInv;
    forall i | 0 <= i < |due| ensures TasksOf(cases, due)[i] == due[i] { TimerAt(cases, due[i], now); }
    forall i, j | 0 <= i < j < |due| ensures due[i].0 != due[j].0 {
      assert TimerDue(cases, due[i], now) && TimerDue(cases, due[j], now) && due[i] != due[j];
      if due[i].0 == due[j].0 { OneTimerDue(cases[due[i].0], due[i].1, due[j].1); }
    }
  }

  /** The attempt of an expired lease, given up: its outcome is unknown and its claimant's fence stale. */
  predicate LeaseGivenUp(c: Case, d: Case, n: nat)
    requires n < |c.attempts|
  {
    var a := c.attempts[n];
    && MovesTo(c, d, Reconciling)
    && d == c.(w := d.w, attempts := c.attempts[n := a.(status := Unknown, fence := a.fence + 1)])
  }

  /** A recovery round gives up every lease it read, and touches no other case. */
  lemma RecoveryGivesUp(cases: map<nat, Case>, due: seq<Due>, now: int)
    requires CasesHold(cases) && Distinct(due) && forall i | 0 <= i < |due| :: LeaseDue(cases, due[i], now)
    ensures var after := RecoverAll(cases, due, now);
      && after.Keys == cases.Keys
      && (forall i | 0 <= i < |due| ::
           LeaseDue(cases, due[i], now) && due[i].0 in after && LeaseGivenUp(cases[due[i].0], after[due[i].0], due[i].1))
      && (forall wid | wid in cases && Untouched(due, wid) :: wid in after && after[wid] == cases[wid])
  {
    hide CasesHold, RecoverExpired, LeaseGivenUp, OncePerCase, RecoverAll, Distinct, LeaseDue, Untouched;
    var after := RecoverAll(cases, due, now);
    LeasesOnce(cases, due, now);
    RecoverKeys(cases, due, now);
    forall i | 0 <= i < |due|
      ensures due[i].0 in cases && due[i].1 < |cases[due[i].0].attempts| && due[i].0 in after
      ensures LeaseGivenUp(cases[due[i].0], after[due[i].0], due[i].1)
    {
      LeaseAt(cases, due[i], now);
      RecoverHits(cases, due, now, i);
      GivesUp(cases[due[i].0], due[i].1, now);
    }
    forall wid | wid in cases && Untouched(due, wid) ensures wid in after && after[wid] == cases[wid] {
      RecoverLeaves(cases, due, now, wid);
    }
  }

  lemma LeaseAt(cases: map<nat, Case>, d: Due, now: int)
    requires LeaseDue(cases, d, now)
    ensures d.0 in cases && d.1 < |cases[d.0].attempts|
    ensures cases[d.0].attempts[d.1].status == Running && cases[d.0].attempts[d.1].leaseUntil < now
  {
  }

  lemma LeasesOnce(cases: map<nat, Case>, due: seq<Due>, now: int)
    requires CasesHold(cases) && Distinct(due) && forall i | 0 <= i < |due| :: LeaseDue(cases, due[i], now)
    ensures OncePerCase(due)
  {
    hide CaseInv;
    forall i, j | 0 <= i < j < |due| ensures due[i].0 != due[j].0 {
      assert LeaseDue(cases, due[i], now) && LeaseDue(cases, due[j], now) && due[i] != due[j];
      if due[i].0 == due[j].0 { OneLease(cases[due[i].0], due[i].1, due[j].1); }
    }
  }

  lemma OneLease(c: Case, n: nat, m: nat)
    requires CaseInv(c) && n < |c.attempts| && m < |c.attempts|
    requires c.attempts[n].status == Running && c.attempts[m].status == Running
    ensures n == m
  {
    hide CaseInv;
    RunningMeans(c, n);
    RunningMeans(c, m);
  }

  lemma GivesUp(c: Case, n: nat, now: int)
    requires n < |c.attempts| && c.attempts[n].status == Running && c.attempts[n].leaseUntil < now
    ensures LeaseGivenUp(c, RecoverExpired(c, n, now), n)
  {
  }
}
