/** Where team cases are required, the evidence team stands behind every refund. */
module RefundEvidence {
  import opened Wrappers
  import opened RefundRows
  import opened RefundSteps
  import opened ProviderRules
  import opened RefundInvariant
  import opened RefundProtocol
  import opened RefundProtocolProof
  import opened RefundTheorems
  import TeamRules
  import TeamRun

  /** A ready case of the same requester, order and amount, still in the table as it was, submitted for `w`. */
  ghost predicate StandsOn(team: map<nat, TeamCase>, w: Workflow, t: TeamCase, id: nat) {
    && t.status == Ready && t.tenant == w.tenant && t.requester == w.requester && t.order == w.order && t.amount == w.amount
    && TeamOk(id, t)
    && id in team && team[id] == t.(status := SubmittedCase, workflow := Some(w.id))
  }

  ghost predicate TeamOk(id: nat, t: TeamCase) {
    Genuine(id, t) && t.facts.requested == t.amount
  }

  ghost predicate Prepared(team: map<nat, TeamCase>, w: Workflow, settings: Settings) {
    && (settings.requireTeamCase ==> w.evidence.Some?)
    && (w.evidence.Some? ==> w.request.teamCase.Some? && StandsOn(team, w, w.evidence.value, w.request.teamCase.value))
  }

  ghost predicate AllPrepared(s: Sys) {
    && (forall wid :: wid in s.db.cases ==> Prepared(s.db.team, s.db.cases[wid].w, s.settings))
    && (forall id :: id in s.db.team ==> TeamOk(id, s.db.team[id]))
  }

  lemma SubmitPrepares(s: Sys, who: Principal, body: Body, wid: nat)
    requires AllPrepared(s)
    ensures AllPrepared(Apply(s, Submit(who, body, wid)))
  {
    hide Prepared, TeamOk, Create, NewWorkflow, SubmitTeamCase, TeamRefusal;
    var t := Apply(s, Submit(who, body, wid));
    if t != s && wid !in s.db.cases {
      CreateOpens(s.db, who, body, wid, s.settings, s.now);
      if t.db != s.db {
        NewPrepared(s, who, body, wid, t.db.cases[wid].w);
        forall v | v in s.db.cases ensures Prepared(t.db.team, s.db.cases[v].w, s.settings) {
          OldPrepared(s, who, body, wid, v);
        }
      }
    }
  }

  /** A request that changes the tables passed the gate of the evidence team. */
  lemma CreateOpens(db: Db, who: Principal, body: Body, wid: nat, settings: Settings, now: int)
    ensures var r := Create(db, who, body, wid, settings, now);
      r.Ok? && r.value != db ==>
        && TeamRefusal(db, who, body, settings).None?
        && r.value.team == SubmitTeamCase(db.team, body.teamCase, wid)
        && wid in r.value.cases && r.value.cases == db.cases[wid := r.value.cases[wid]]
        && SameIdentity(NewWorkflow(who, body, wid, settings, EvidenceFor(db.team, body), now), r.value.cases[wid].w)
  {
    hide TeamRefusal, OrderRefusal, Eligible, SubmitTeamCase, NewWorkflow, EvidenceFor, SameKey, RequestOf;
  }

  lemma NewPrepared(s: Sys, who: Principal, body: Body, wid: nat, w: Workflow)
    requires AllPrepared(s) && TeamRefusal(s.db, who, body, s.settings).None?
    requires SameIdentity(NewWorkflow(who, body, wid, s.settings, EvidenceFor(s.db.team, body), s.now), w)
    ensures var team := SubmitTeamCase(s.db.team, body.teamCase, wid);
      && (forall id :: id in team ==> TeamOk(id, team[id]))
      && Prepared(team, w, s.settings)
  {
    hide Genuine;
    if body.teamCase.Some? && body.teamCase.value in s.db.team {
      SubmittedIsGenuine(body.teamCase.value, s.db.team[body.teamCase.value], wid);
    }
  }

  /** Only a ready case can be submitted, so not one that an earlier workflow stands on. */
  lemma OldPrepared(s: Sys, who: Principal, body: Body, wid: nat, v: nat)
    requires AllPrepared(s) && TeamRefusal(s.db, who, body, s.settings).None? && v in s.db.cases
    ensures Prepared(SubmitTeamCase(s.db.team, body.teamCase, wid), s.db.cases[v].w, s.settings)
  {
    hide TeamOk;
    assert Prepared(s.db.team, s.db.cases[v].w, s.settings);
  }

  lemma SubmittedIsGenuine(id: nat, t: TeamCase, wid: nat)
    ensures Genuine(id, t.(status := SubmittedCase, workflow := Some(wid)))
  {
  }

  lemma NothingNew(s: Sys, x: Step)
    requires !x.Submit? && !x.MoveTeamCase?
    ensures Apply(s, x).db.cases.Keys == s.db.cases.Keys && Apply(s, x).db.team == s.db.team
  {
    hide Create, Decide, Escalate, HandleEvent, Claim, Claimable, Finish, RecoverExpired, ReconcileApply, OperatorClose,
         MarkRow, Pay, PostOf, OutcomeOf, Reconcilable, Restore, Status, PendingNo;
    if x.DecideBy? { DecisionsOnly(s.db, x.who, x.wid, x.task, x.decision, s.now); }
  }

  lemma DecisionsOnly(db: Db, who: Principal, wid: nat, task: nat, body: DecisionBody, now: int)
    ensures var r := Decide(db, who, wid, task, body, now);
      r.Ok? ==> r.value.cases.Keys == db.cases.Keys && r.value.team == db.team
  {
    hide RecordDecision, DecisionRefusal, Issued, CommandOf;
  }

  lemma StepPrepares(s: Sys, x: Step)
    requires Inv(s) && AllPrepared(s)
    ensures AllPrepared(Apply(s, x))
  {
    hide Inv, TeamOk, Prepared;
    if x.Submit? {
      SubmitPrepares(s, x.who, x.body, x.wid);
    } else if x.MoveTeamCase? {
      TeamMoves(s, x.id, x.teamCase);
    } else {
      NothingNew(s, x);
      StepLasts(s, x);
      forall wid | wid in s.db.cases ensures Prepared(s.db.team, Apply(s, x).db.cases[wid].w, s.settings) {
        SamePreparation(s.db.team, s.db.cases[wid], Apply(s, x).db.cases[wid], s.settings);
      }
    }
  }

  /** A submitted case is settled no more. */
  lemma TeamMoves(s: Sys, id: nat, teamCase: TeamCase)
    requires AllPrepared(s)
    ensures AllPrepared(Apply(s, MoveTeamCase(id, teamCase)))
  {
    hide Genuine, Create, Decide;
    if TeamMay(s.db.team, id, teamCase) {
      var team := s.db.team[id := teamCase];
      NewIsGenuine(id, teamCase);
      forall wid | wid in s.db.cases ensures Prepared(team, s.db.cases[wid].w, s.settings) {
        assert Prepared(s.db.team, s.db.cases[wid].w, s.settings);
      }
    }
  }

  lemma NewIsGenuine(id: nat, t: TeamCase)
    ensures t.status == Collecting ==> Genuine(id, t)
  {
  }

  lemma SamePreparation(team: map<nat, TeamCase>, c: Case, d: Case, settings: Settings)
    requires Evolves(c, d) && Prepared(team, c.w, settings)
    ensures Prepared(team, d.w, settings)
  {
    hide TeamOk;
  }

  lemma {:induction false} RunPrepares(s: Sys, steps: seq<Step>)
    requires Inv(s) && AllPrepared(s)
    ensures AllPrepared(Run(s, steps))
  {
    hide Inv, AllPrepared, Apply;
    if steps != [] {
      RunPrepares(s, steps[..|steps| - 1]);
      RunKeeps(s, steps[..|steps| - 1]);
      StepPrepares(Run(s, steps[..|steps| - 1]), steps[|steps| - 1]);
    }
  }

  lemma StartPrepared(now: int, settings: Settings)
    ensures AllPrepared(Start(now, settings))
  {
  }

  /** A ready team case rests on three clear answers, and its own facts pass all three checks. */
  lemma GenuineIsClear(id: nat, t: TeamCase)
    requires t.status == Ready && Genuine(id, t)
    ensures t.snapshot.Some?
    ensures forall role: TeamRules.Specialist :: TeamRules.IsClear(t.snapshot.value, role) && TeamRules.Safe(t.facts, role)
  {
    hide TeamRun.Run, TeamRules.Safe, TeamRules.IsClear;
    var steps :| TeamRun.Reached(id, t.facts, steps).rows.status == TeamRun.CaseReady
      && t.snapshot == TeamRun.Reached(id, t.facts, steps).rows.snapshot;
    TeamRun.ReadyIsSound(id, t.facts, steps);
    forall role: TeamRules.Specialist
      ensures TeamRules.IsClear(t.snapshot.value, role) && TeamRules.Safe(t.facts, role)
    {
      match role
      case Policy =>
      case Order =>
      case Risk =>
    }
  }

  /**
   Where team cases are required, money moves only for the order and amount of a team case
   that became ready on three clear answers and on its own facts passing all three checks;
   the case is still there, unchanged and submitted for that workflow alone.
   */
  lemma EvidenceBehindRefund(now: int, settings: Settings, steps: seq<Step>, key: OpKey)
    returns (t: TeamCase, id: nat)
    requires settings.requireTeamCase && key in Reached(now, settings, steps).provider.ledger
    ensures var s := Reached(now, settings, steps);
      && key.wid in s.db.cases && s.db.cases[key.wid].w.evidence == Some(t)
      && s.provider.ledger[key].refund == Refund(key, t.order, t.amount)
      && t.status == Ready && t.requester == s.db.cases[key.wid].w.requester
      && id in s.db.team && s.db.team[id] == t.(status := SubmittedCase, workflow := Some(key.wid))
      && t.snapshot.Some?
      && (forall role: TeamRules.Specialist :: TeamRules.IsClear(t.snapshot.value, role))
      && TeamRun.Sound(t.facts) && t.facts.requested == t.amount
  {
    hide Inv, Run, Genuine, Start, CaseInv, SlotsOk, RowsSent;
    var s := Reached(now, settings, steps);
    ReachedInv(now, settings, steps);
    LedgerRowOf(s, key);
    StartInv(now, settings);
    StartPrepared(now, settings);
    RunPrepares(Start(now, settings), steps);
    RunLasts(Start(now, settings), steps);
    assert s.settings == settings by { StartSettings(now, settings); }
    CaseOf(s, key.wid);
    var w := s.db.cases[key.wid].w;
    assert Prepared(s.db.team, w, settings);
    t, id := w.evidence.value, w.request.teamCase.value;
    GenuineIsClear(id, t);
    TeamRun.SoundMeans(t.facts);
  }

  lemma StartSettings(now: int, settings: Settings)
    ensures Start(now, settings).settings == settings
  {
  }
}
