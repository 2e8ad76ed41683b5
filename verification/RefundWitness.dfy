/** A run in which a request on a ready team case is approved, paid and completed: the theorems speak of something. */
module RefundWitness {
  import opened Wrappers
  import opened RefundRows
  import opened RefundSteps
  import opened ProviderRules
  import opened RefundProtocol
  import opened RefundTheorems
  import opened RefundDelivery
  import opened RefundPatches
  import TeamRules
  import TeamRun

  const LAB: Settings := Settings(false, true, 180, 8, false)
  const CUSTOMER: Principal := Principal(1, 0, Requester)
  const LEAD: Principal := Principal(2, 0, SupportLead)
  const ORDER: Order := Order(0, 1, 0, 100, true)
  const BODY: Body := Body("request", 7, 100, NoFault, None, Some(3))
  const FACTS: TeamRules.Facts := TeamRules.Facts(5, 45, true, 100, 0, 100, false)
  const DECISION: DecisionBody := DecisionBody(Approve, "fine", 1, 0, "decision")

  function NewCase(): TeamCase {
    TeamCase(0, 1, 7, 100, TeamStatus.Collecting, FACTS, None, None)
  }

  function ReadyCase(): TeamCase {
    NewCase().(status := TeamStatus.Ready, snapshot := TeamRun.Reached(3, FACTS, TeamRun.ClearSteps(3)).rows.snapshot)
  }

  function Event0(): Event { Event(0, 0, 0, 0, Submitted, 1, None, None) }

  function Event2(): Event { Event(0, 0, 2, 2, ApprovalAccepted, 1, Some(0), Some(1)) }

  /** The workflow of the run, in a state and at a version. */
  function Flow(state: State, version: nat): Workflow {
    NewWorkflow(CUSTOMER, BODY, 0, LAB, Some(ReadyCase()), 0).(state := state, version := version)
  }

  ghost predicate At(s: Sys, c: Case) {
    s.now == 0 && s.settings == LAB && s.db.cases == map[0 := c]
    && s.provider == Provider(map[], 0, false) && s.queue == {} && s.workers == map[] && s.wires == map[]
  }

  function Opened(): Case {
    Case(Flow(Received, 0), [], [], [], [], [OutboxRow(Event0(), false)], map[])
  }

  /** The tables before the request. */
  function Tables(team: map<nat, TeamCase>): Sys {
    Start(0, LAB).(db := Db(map[7 := ORDER], team, map[]))
  }

  lemma Opens() returns (s: Sys)
    ensures s == Run(Start(0, LAB), [AddOrder(7, ORDER), MoveTeamCase(3, NewCase()), MoveTeamCase(3, ReadyCase()),
                                     Submit(CUSTOMER, BODY, 0)])
    ensures At(s, Opened())
  {
    hide Run, Apply, NewCase, ReadyCase;
    var s0 := Start(0, LAB);
    RunOfFour(s0, AddOrder(7, ORDER), MoveTeamCase(3, NewCase()), MoveTeamCase(3, ReadyCase()), Submit(CUSTOMER, BODY, 0));
    Catalogue();
    Inserted();
    Readied();
    s := Apply(Tables(map[3 := ReadyCase()]), Submit(CUSTOMER, BODY, 0));
    Submits(Tables(map[3 := ReadyCase()]));
  }

  lemma Catalogue()
    ensures Apply(Start(0, LAB), AddOrder(7, ORDER)) == Tables(map[])
  {
    hide Create, Decide;
  }

  lemma Inserted()
    ensures Apply(Tables(map[]), MoveTeamCase(3, NewCase())) == Tables(map[3 := NewCase()])
  {
    hide Create, Decide;
    assert map[][3 := NewCase()] == map[3 := NewCase()];
  }

  lemma Readied()
    ensures Apply(Tables(map[3 := NewCase()]), MoveTeamCase(3, ReadyCase())) == Tables(map[3 := ReadyCase()])
  {
    hide Create, Decide, TeamRun.Reached;
    TeamRun.ClearStepsReady(3, FACTS);
    assert Genuine(3, ReadyCase());
    assert map[3 := NewCase()][3 := ReadyCase()] == map[3 := ReadyCase()];
  }

  lemma Submits(s: Sys)
    requires s == Tables(map[3 := ReadyCase()])
    ensures At(Apply(s, Submit(CUSTOMER, BODY, 0)), Opened())
  {
    hide Create, Decide, Opened, ReadyCase;
    Creates(s.db);
  }

  lemma Creates(db: Db)
    requires db == Db(map[7 := ORDER], map[3 := ReadyCase()], map[])
    ensures var r := Create(db, CUSTOMER, BODY, 0, LAB, 0); r.Ok? && r.value.cases == map[0 := Opened()]
  {
    hide OpenCase, TeamRun.Reached, NewWorkflow, Opened;
    OpensCase();
    assert TeamRefusal(db, CUSTOMER, BODY, LAB).None? && OrderRefusal(db, CUSTOMER, BODY).None?;
    assert map[][0 := Opened()] == map[0 := Opened()];
  }

  lemma OpensCase()
    ensures OpenCase(NewWorkflow(CUSTOMER, BODY, 0, LAB, Some(ReadyCase()), 0), ORDER, 0) == Opened()
  {
    assert OpenCase(NewWorkflow(CUSTOMER, BODY, 0, LAB, Some(ReadyCase()), 0), ORDER, 0).outbox == Opened().outbox;
  }

  /** Sending one event and delivering it. */
  lemma Delivers(s: Sys, c: Case, no: nat)
    requires s.db.cases == map[0 := c] && no < |c.outbox| && no !in c.inbox
    requires var e := c.outbox[no].event; e.schema == 1 && e.wid == 0 && e.tenant == c.w.tenant && e.no == no
    ensures var e := c.outbox[no].event;
      HandleEvent(c, e, s.now).Ok?
      && Run(s, [Send(0, no), Deliver(e)]) ==
           s.(queue := s.queue + {e}, db := s.db.(cases := map[0 := HandleEvent(c, e, s.now).value.0]))
  {
    hide Run, Apply, Pause, ValidApproval;
    var e := c.outbox[no].event;
    RunSplits(s, [Send(0, no)], [Deliver(e)]);
    assert [Send(0, no)] + [Deliver(e)] == [Send(0, no), Deliver(e)];
    RunOne(s, Send(0, no));
    var s1 := Apply(s, Send(0, no));
    assert s1 == s.(queue := s.queue + {e}) by { Sends(s, no); }
    RunOne(s1, Deliver(e));
    AfterDeliver(s1, e);
    assert map[0 := c][0 := HandleEvent(c, e, s.now).value.0] == map[0 := HandleEvent(c, e, s.now).value.0];
  }

  lemma Sends(s: Sys, no: nat)
    requires HasEvent(s.db, 0, no)
    ensures Apply(s, Send(0, no)) == s.(queue := s.queue + {s.db.cases[0].outbox[no].event})
  {
    hide Create, Decide, Consume;
  }

  function Waiting(): Case {
    var due := 180 * SECOND;
    Case(Flow(WaitingApproval, 1), [Task(1, SupportLead, 1, TaskPending, 0, due, None, None)],
         [Timer(0, due, TimerPending)], [], [],
         [OutboxRow(Event0(), false), OutboxRow(Event(0, 0, 1, 1, ApprovalRequested, 1, Some(0), None), false)],
         map[0 := Event0()])
  }

  lemma Waits()
    ensures HandleEvent(Opened(), Event0(), 0) == Ok((Waiting(), Paused))
  {
    var seen := Opened().(inbox := map[0 := Event0()]);
    assert Opened().inbox[0 := Event0()] == map[0 := Event0()];
    var c := Pause(seen, 0);
    assert c.tasks == Waiting().tasks;
    assert c.timers == Waiting().timers;
    assert c.outbox == Waiting().outbox;
    assert c == Waiting();
  }

  lemma Approves(s: Sys)
    requires s.db.cases == map[0 := Waiting()] && s.now == 0
    ensures Apply(s, DecideBy(LEAD, 0, 0, DECISION)) ==
            s.(db := s.db.(cases := map[0 := RecordDecision(Waiting(), 0, LEAD, DECISION, 0)]))
  {
    hide RecordDecision, Create, Decide, Consume, Waiting;
    Decides(s.db);
  }

  lemma Decides(db: Db)
    requires db.cases == map[0 := Waiting()]
    ensures |Waiting().tasks| == 1
    ensures Decide(db, LEAD, 0, 0, DECISION, 0) ==
            Ok(db.(cases := map[0 := RecordDecision(Waiting(), 0, LEAD, DECISION, 0)]))
  {
    hide RecordDecision;
    assert DecisionRefusal(Waiting(), 0, LEAD, DECISION, 0).None? by { assert !IsSpace("fine"[0]); }
    hide DecisionRefusal;
    assert db.cases[0 := RecordDecision(Waiting(), 0, LEAD, DECISION, 0)] ==
           map[0 := RecordDecision(Waiting(), 0, LEAD, DECISION, 0)];
  }

  /** The approved case: its event is the third in the outbox. */
  lemma Approved()
    ensures var c := RecordDecision(Waiting(), 0, LEAD, DECISION, 0);
      && c.w == Flow(ReadyToExecute, 2) && c.attempts == [] && |c.outbox| == 3 && c.outbox[2].event == Event2()
      && c.inbox == map[0 := Event0()] && ValidApproval(c, Event2())
  {
  }

  lemma Schedules(c: Case)
    requires c.w == Flow(ReadyToExecute, 2) && c.attempts == [] && c.inbox == map[0 := Event0()] && ValidApproval(c, Event2())
    ensures var d := HandleEvent(c, Event2(), 0).value.0;
      d.w == c.w && d.attempts == [Attempt(OperationKey(c.w), Pending, 0, 0, 0, None)]
  {
    hide ValidApproval;
  }

  /** Claiming, posting, settling and reporting the scheduled attempt. */
  lemma Pays(s: Sys, c: Case)
    requires s.db.cases == map[0 := c] && s.now == 0 && c.w == Flow(ReadyToExecute, 2)
    requires c.attempts == [Attempt(OperationKey(c.w), Pending, 0, 0, 0, None)]
    requires s.provider == Provider(map[], 0, false)
    ensures var t := Apply(Apply(Apply(Apply(s, ClaimBy(0)), SendPost((0, 0))), Arrive((0, 0), None)), Report((0, 0), false));
      0 in t.db.cases && t.db.cases[0].w.state == Completed && OperationKey(t.db.cases[0].w) in t.provider.ledger
  {
    hide Apply;
    AfterClaim(s, 0);
    var t1 := Apply(s, ClaimBy(0));
    Claims(c);
    assert t1 == ClaimStep(s, 0);
    Posts(t1);
    var t2 := Apply(t1, SendPost((0, 0)));
    Arrives(t2);
    var t3 := Apply(t2, Arrive((0, 0), None));
    Reports(t3);
  }

  lemma Claims(c: Case)
    requires c.w.state == ReadyToExecute && c.attempts == [Attempt(OperationKey(c.w), Pending, 0, 0, 0, None)]
    ensures Claimable(c, 0) && PendingNo(c.attempts) == 0
  {
    assert c.attempts[0].status == Pending;
  }

  lemma Posts(s: Sys)
    requires (0, 0) in s.workers && (0, 0) in s.wires && s.wires[(0, 0)] == Unsent
    ensures Apply(s, SendPost((0, 0))) == s.(wires := s.wires[(0, 0) := InFlight(s.workers[(0, 0)].post)])
  {
    hide Create, Decide, Consume;
  }

  lemma Arrives(s: Sys)
    requires (0, 0) in s.wires && s.wires[(0, 0)].InFlight? && s.provider == Provider(map[], 0, false)
    ensures var t := Apply(s, Arrive((0, 0), None)); var post := s.wires[(0, 0)].post;
      && t == s.(provider := t.provider, wires := s.wires[(0, 0) := Answered(Settled(0))])
      && post.refund.key in t.provider.ledger
  {
    hide Create, Decide, Consume;
  }

  lemma Reports(s: Sys)
    requires (0, 0) in s.workers && (0, 0) in s.wires && 0 in s.db.cases && s.wires[(0, 0)] == Answered(Settled(0))
    requires StillClaimed(s.db.cases[0], 0, s.workers[(0, 0)].fence)
    ensures var t := Apply(s, Report((0, 0), false));
      && t.provider == s.provider && 0 in t.db.cases && t.db.cases[0].w.state == Completed
      && OperationKey(t.db.cases[0].w) == OperationKey(s.db.cases[0].w)
  {
    hide Create, Decide, Consume;
  }

  /** The four steps, as a run. */
  lemma RunOfFour(s: Sys, a: Step, b: Step, c: Step, d: Step)
    ensures Run(s, [a, b, c, d]) == Apply(Apply(Apply(Apply(s, a), b), c), d)
  {
    hide Apply, Run;
    RunOne(s, a);
    RunSplits(s, [a], [b]);
    RunOne(Apply(s, a), b);
    RunSplits(s, [a] + [b], [c]);
    RunOne(Run(s, [a] + [b]), c);
    RunSplits(s, [a] + [b] + [c], [d]);
    RunOne(Run(s, [a] + [b] + [c]), d);
    assert [a] + [b] + [c] + [d] == [a, b, c, d];
  }

  /** Some run of the protocol, with team cases required, ends with a ledger row and a completed case. */
  lemma SomethingIsPaid() returns (steps: seq<Step>)
    ensures var s := Reached(0, LAB, steps);
      && 0 in s.db.cases && s.db.cases[0].w.state == Completed
      && OperationKey(s.db.cases[0].w) in s.provider.ledger
  {
    hide Run, Apply, HandleEvent, RecordDecision;
    var open := [AddOrder(7, ORDER), MoveTeamCase(3, NewCase()), MoveTeamCase(3, ReadyCase()), Submit(CUSTOMER, BODY, 0)];
    var ask := [Send(0, 0), Deliver(Event0())];
    var approve := [DecideBy(LEAD, 0, 0, DECISION)];
    var order := [Send(0, 2), Deliver(Event2())];
    var pay := [ClaimBy(0), SendPost((0, 0)), Arrive((0, 0), None), Report((0, 0), false)];
    var s1 := Opens();
    Delivers(s1, Opened(), 0);
    Waits();
    var s2 := Run(s1, ask);
    RunOne(s2, approve[0]);
    Approves(s2);
    Approved();
    var s3 := Run(s2, approve);
    var c := RecordDecision(Waiting(), 0, LEAD, DECISION, 0);
    Delivers(s3, c, 2);
    Schedules(c);
    var s4 := Run(s3, order);
    Pays(s4, HandleEvent(c, Event2(), 0).value.0);
    RunOfFour(s4, pay[0], pay[1], pay[2], pay[3]);
    var start := Start(0, LAB);
    RunSplits(start, open, ask);
    RunSplits(start, open + ask, approve);
    RunSplits(start, open + ask + approve, order);
    RunSplits(start, open + ask + approve + order, pay);
    steps := open + ask + approve + order + pay;
  }
}
