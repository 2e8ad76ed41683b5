/** Which requests are served, what they leave, and the refund policy behind every payment. */
module RefundRequests {
  import opened Wrappers
  import opened RefundRows
  import opened RefundSteps
  import opened ProviderRules
  import opened RefundInvariant
  import opened RefundProtocol
  import opened RefundProtocolProof
  import opened RefundTheorems
  import opened RefundDiscipline

  // ---------- which requests are served ----------

  predicate MaySubmit(who: Principal) {
    who.role in {Requester, FinanceManager}
  }

  /** Nobody in the tenant has used the key. */
  ghost predicate NewKey(db: Db, who: Principal, body: Body) {
    forall v :: v in db.cases ==> !(db.cases[v].w.tenant == who.tenant && db.cases[v].w.requestKey == body.key)
  }

  /** A team case has to be shown. */
  predicate Gated(body: Body, settings: Settings) {
    settings.requireTeamCase || body.teamCase.Some?
  }

  /** The team case shown is the requester's own. */
  predicate OwnTeamCase(db: Db, who: Principal, body: Body) {
    body.teamCase.Some? && body.teamCase.value in db.team
    && db.team[body.teamCase.value].tenant == who.tenant && db.team[body.teamCase.value].requester == who.id
  }

  predicate TeamCaseFits(db: Db, body: Body)
    requires body.teamCase.Some? && body.teamCase.value in db.team
  {
    var t := db.team[body.teamCase.value];
    t.status == Ready && t.order == body.order && t.amount == body.amount
  }

  predicate OrderOfTenant(db: Db, who: Principal, body: Body) {
    body.order in db.orders && db.orders[body.order].tenant == who.tenant
  }

  ghost predicate OrderTaken(db: Db, who: Principal, body: Body) {
    exists v :: v in db.cases && db.cases[v].w.tenant == who.tenant && db.cases[v].w.order == body.order
  }

  /** A request under a new key is served iff it passes every gate, and is refused at the first it fails. */
  lemma RequestAnswered(db: Db, who: Principal, body: Body, wid: nat, settings: Settings, now: int)
    requires NewKey(db, who, body)
    ensures var r := Create(db, who, body, wid, settings, now);
      if !MaySubmit(who) || LabRefused(settings, body) then r == Err(403)
      else if Gated(body, settings) && !OwnTeamCase(db, who, body) then r == Err(403)
      else if Gated(body, settings) && !TeamCaseFits(db, body) then r == Err(409)
      else if !OrderOfTenant(db, who, body) then r == Err(404)
      else if db.orders[body.order].customer != who.id then r == Err(403)
      else if OrderTaken(db, who, body) then r == Err(409)
      else if body.amount > db.orders[body.order].amount then r == Err(422)
      else r.Ok? && wid in r.value.cases && r.value.cases == db.cases[wid := r.value.cases[wid]] && r.value.orders == db.orders
  {
    hide OpenCase, NewWorkflow, SubmitTeamCase;
  }

  // ---------- what a served request leaves ----------

  /** The refund policy: a standard order, delivered at most 45 days before and not after the request. */
  predicate WithinPolicy(order: Order, at: int) {
    order.standard && order.deliveredAt <= at && at <= order.deliveredAt + 45 * 86_400_000_000
  }

  /** The workflow row of a request served at `now`. */
  predicate RowOf(w: Workflow, who: Principal, body: Body, wid: nat, settings: Settings, now: int) {
    && w.id == wid && w.tenant == who.tenant && w.order == body.order && w.requester == who.id
    && w.requestKey == body.key && w.amount == body.amount && w.fault == body.fault && w.proposal == 1
    && w.createdAt == now
    && w.approvalSeconds == (match body.approvalSeconds
                             case Some(seconds) => if seconds == 0 then settings.approvalSeconds else seconds
                             case None => settings.approvalSeconds)
  }

  /** A request that opens a case submits it for approval iff the order is within the policy, and rejects it otherwise. */
  lemma RequestOpens(db: Db, who: Principal, body: Body, wid: nat, settings: Settings, now: int)
    requires NewKey(db, who, body) && Create(db, who, body, wid, settings, now).Ok?
    ensures var d := Create(db, who, body, wid, settings, now).value.cases;
      && wid in d && body.order in db.orders
      && var c := d[wid];
      && RowOf(c.w, who, body, wid, settings, now)
      && c.tasks == [] && c.timers == [] && c.decisions == [] && c.attempts == [] && c.inbox == map[]
      && if WithinPolicy(db.orders[body.order], now) then
           && c.w.state == Received && c.w.version == 0
           && c.outbox == [OutboxRow(Event(wid, who.tenant, 0, 0, Submitted, 1, None, None), false)]
         else c.w.state == Rejected && c.w.version == 1 && c.outbox == []
  {
    hide TeamRefusal, RequestOf;
    RequestAnswered(db, who, body, wid, settings, now);
  }

  // ---------- the policy over every run ----------

  /** Every case that was not rejected was within the policy when it was created. */
  ghost predicate PolicyKept(s: Sys) {
    forall wid :: wid in s.db.cases ==> CasePolicy(s.db.cases[wid].w, s.db.orders)
  }

  predicate CasePolicy(w: Workflow, orders: map<nat, Order>) {
    w.order in orders && (w.state != Rejected ==> WithinPolicy(orders[w.order], w.createdAt))
  }

  lemma SubmitPolicy(s: Sys, who: Principal, body: Body, wid: nat)
    requires PolicyKept(s)
    ensures PolicyKept(Apply(s, Submit(who, body, wid)))
  {
    hide Create, WithinPolicy;
    var t := Apply(s, Submit(who, body, wid));
    if t != s {
      if NewKey(s.db, who, body) {
        RequestAnswered(s.db, who, body, wid, s.settings, s.now);
        RequestOpens(s.db, who, body, wid, s.settings, s.now);
      } else {
        UsedKey(s.db, who, body, wid, s.settings, s.now);
      }
    }
  }

  lemma UsedKey(db: Db, who: Principal, body: Body, wid: nat, settings: Settings, now: int)
    requires !NewKey(db, who, body)
    ensures var r := Create(db, who, body, wid, settings, now); r.Ok? ==> r.value == db
  {
    hide RequestOf, OpenCase, NewWorkflow, TeamRefusal, OrderRefusal;
    var v :| v in db.cases && db.cases[v].w.tenant == who.tenant && db.cases[v].w.requestKey == body.key;
    assert SameKey(db.cases[v].w, who.tenant, body.key);
  }

  /** Order rows are only added, and only requests add cases. */
  lemma CatalogueGrows(s: Sys, x: Step)
    requires !x.Submit?
    ensures Apply(s, x).db.cases.Keys == s.db.cases.Keys
    ensures forall order :: order in s.db.orders ==>
      order in Apply(s, x).db.orders && Apply(s, x).db.orders[order] == s.db.orders[order]
  {
    hide Create, Decide, Escalate, HandleEvent, Claim, Claimable, Finish, RecoverExpired, ReconcileApply, OperatorClose,
         MarkRow, Pay, PostOf, OutcomeOf, Reconcilable, Restore, Status, PendingNo, TeamMay;
    if x.DecideBy? { DecisionsKeepOrders(s.db, x.who, x.wid, x.task, x.decision, s.now); }
  }

  lemma DecisionsKeepOrders(db: Db, who: Principal, wid: nat, task: nat, body: DecisionBody, now: int)
    ensures var r := Decide(db, who, wid, task, body, now);
      r.Ok? ==> r.value.cases.Keys == db.cases.Keys && r.value.orders == db.orders
  {
    hide RecordDecision, DecisionRefusal, Issued, CommandOf;
  }

  lemma StepPolicy(s: Sys, x: Step)
    requires Inv(s) && PolicyKept(s)
    ensures PolicyKept(Apply(s, x))
  {
    hide Inv, WithinPolicy;
    if x.Submit? {
      SubmitPolicy(s, x.who, x.body, x.wid);
    } else {
      hide Apply;
      CatalogueGrows(s, x);
      StepLasts(s, x);
      forall wid | wid in s.db.cases ensures CasePolicy(Apply(s, x).db.cases[wid].w, Apply(s, x).db.orders) {
        SamePolicy(s.db.cases[wid], Apply(s, x).db.cases[wid], s.db.orders, Apply(s, x).db.orders);
      }
    }
  }

  lemma SamePolicy(c: Case, d: Case, orders: map<nat, Order>, orders': map<nat, Order>)
    requires Evolves(c, d) && CasePolicy(c.w, orders)
    requires forall order :: order in orders ==> order in orders' && orders'[order] == orders[order]
    ensures CasePolicy(d.w, orders')
  {
  }

  lemma {:induction false} RunPolicy(s: Sys, steps: seq<Step>)
    requires Inv(s) && PolicyKept(s)
    ensures PolicyKept(Run(s, steps))
  {
    hide Inv, PolicyKept, Apply;
    if steps != [] {
      RunPolicy(s, steps[..|steps| - 1]);
      RunKeeps(s, steps[..|steps| - 1]);
      StepPolicy(Run(s, steps[..|steps| - 1]), steps[|steps| - 1]);
    }
  }

  /** Money moves only for a standard order delivered at most 45 days before, and not after, the request. */
  lemma PolicyBehindRefund(now: int, settings: Settings, steps: seq<Step>, key: OpKey)
    requires key in Reached(now, settings, steps).provider.ledger
    ensures var s := Reached(now, settings, steps);
      && key.wid in s.db.cases
      && var w := s.db.cases[key.wid].w;
      && w.order in s.db.orders && s.provider.ledger[key].refund.order == w.order
      && WithinPolicy(s.db.orders[w.order], w.createdAt)
  {
    hide Inv, Run, WithinPolicy, CaseInv;
    var s0 := Start(now, settings);
    var s := Reached(now, settings, steps);
    StartInv(now, settings);
    RunPolicy(s0, steps);
    RunKeeps(s0, steps);
    LedgerRowOf(s, key);
    if s.db.cases[key.wid].w.state == Rejected { UnpaidState(s, key.wid); }
  }
}
