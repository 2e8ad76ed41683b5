/**
 A team case worked on by a coordinator that may crash and restart at any point.
 Tasks, results and decisions are persisted; the coordinator's own state is not.
 One coordinator at a time runs a case, under a session lock that a crash releases.
 */
module TeamRun {
  import opened Wrappers
  import opened TeamRules

  type Key = (Specialist, nat)

  datatype CaseStatus = Collecting | CaseReady | CaseBlocked

  /** The persisted rows of one case. */
  datatype Rows = Rows(
    caseId: nat, facts: Facts, status: CaseStatus, snapshot: Option<Results>,
    tasks: set<Key>, results: map<Key, Finding>, decisions: map<nat, Decision>)

  /** Where a live coordinator is: collecting a round over what it carries, or about to decide. */
  datatype Phase = Idle | Collect(round: nat, carried: Results) | Decide(round: nat, results: Results)

  datatype Team = Team(rows: Rows, phase: Phase)

  datatype Step =
    | StartRun
    | OpenTask(role: Specialist)
    | StoreResult(role: Specialist, raw: Option<Raw>, overdue: bool)
    | Gather
    | DecideRound
    | Crash

  function Start(caseId: nat, facts: Facts): Team {
    Team(Rows(caseId, facts, Collecting, None, {}, map[], map[]), Idle)
  }

  function RolesOf(round: nat): seq<Specialist> {
    if round == 1 then ROLES else [Risk]
  }

  function Stored(results: map<Key, Finding>, round: nat): Results {
    map role | role in RolesOf(round) && (role, round) in results :: results[(role, round)]
  }

  predicate RoundStored(results: map<Key, Finding>, round: nat) {
    forall role :: role in RolesOf(round) ==> (role, round) in results
  }

  /** What the supervisor of `round` looks at: later answers replace earlier ones. */
  function View(results: map<Key, Finding>, round: nat): Results {
    if round == 1 then Stored(results, 1) else Stored(results, 1) + Stored(results, round)
  }

  /** The decision transaction: an earlier decision of the round stands. */
  function DecideRows(rows: Rows, round: nat, results: Results): (Rows, Decision) {
    var decision := if round in rows.decisions then rows.decisions[round] else Supervise(results, round);
    var decided := rows.(decisions := rows.decisions[round := decision]);
    match decision.action
    case FollowUp => (decided, decision)
    case Ready => (decided.(status := CaseReady, snapshot := Some(results)), decision)
    case Blocked => (decided.(status := CaseBlocked, snapshot := None), decision)
  }

  function Apply(t: Team, step: Step): Team {
    match step
    case StartRun =>
      if t.phase.Idle? && t.rows.status == Collecting then t.(phase := Collect(1, map[])) else t
    case OpenTask(role) =>
      if t.phase.Collect? && role in RolesOf(t.phase.round)
      then t.(rows := t.rows.(tasks := t.rows.tasks + {(role, t.phase.round)})) else t
    case StoreResult(role, raw, overdue) =>
      if t.phase.Collect? && (role, t.phase.round) in t.rows.tasks
         && role in RolesOf(t.phase.round) && (role, t.phase.round) !in t.rows.results
      then
        var finding := Judged(raw, overdue, t.rows.caseId, t.rows.facts, role);
        t.(rows := t.rows.(results := t.rows.results[(role, t.phase.round) := finding]))
      else t
    case Gather =>
      if t.phase.Collect? && RoundStored(t.rows.results, t.phase.round)
      then t.(phase := Decide(t.phase.round, t.phase.carried + Stored(t.rows.results, t.phase.round))) else t
    case DecideRound =>
      if t.phase.Decide? then
        var (rows, decision) := DecideRows(t.rows, t.phase.round, t.phase.results);
        Team(rows, if decision.action == FollowUp then Collect(2, t.phase.results) else Idle)
      else t
    case Crash => t.(phase := Idle)
  }

  function Run(t: Team, steps: seq<Step>): Team {
    if steps == [] then t else Apply(Run(t, steps[..|steps| - 1]), steps[|steps| - 1])
  }

  /** Does round `round` take place, given the stored answers? */
  predicate Reaches(results: map<Key, Finding>, round: nat) {
    round == 1 || (round == 2 && RoundStored(results, 1) && Supervise(View(results, 1), 1).action == FollowUp)
  }

  /** The decisions an uninterrupted run would take on the stored answers. */
  function Uninterrupted(results: map<Key, Finding>): seq<Decision> {
    var first := Supervise(View(results, 1), 1);
    if first.action == FollowUp then [first, Supervise(View(results, 2), 2)] else [first]
  }

  function StatusFor(action: Action): CaseStatus {
    match action
    case FollowUp => Collecting
    case Ready => CaseReady
    case Blocked => CaseBlocked
  }

  predicate ResultsOk(rows: Rows) {
    && (forall key :: key in rows.results ==> key.0 in RolesOf(key.1) && Reaches(rows.results, key.1))
    && (forall key :: key in rows.results ==> (rows.results[key].verdict == Clear ==> Safe(rows.facts, key.0)))
  }

  predicate DecisionsOk(rows: Rows) {
    forall round :: round in rows.decisions ==>
      && Reaches(rows.results, round) && RoundStored(rows.results, round)
      && rows.decisions[round] == Supervise(View(rows.results, round), round)
  }

  predicate StatusOk(rows: Rows) {
    match rows.status
    case Collecting =>
      rows.snapshot.None? && forall round :: round in rows.decisions ==> rows.decisions[round].action == FollowUp
    case CaseReady => rows.snapshot.Some? && (exists round ::
      round in rows.decisions && rows.decisions[round].action == Ready && rows.snapshot.value == View(rows.results, round))
    case CaseBlocked => rows.snapshot.None? && (exists round ::
      round in rows.decisions && rows.decisions[round].action == Blocked)
  }

  predicate PhaseOk(t: Team) {
    match t.phase
    case Idle => true
    case Collect(round, carried) =>
      && t.rows.status == Collecting && Reaches(t.rows.results, round)
      && carried == (if round == 1 then map[] else View(t.rows.results, 1))
      && (round == 2 ==> 1 in t.rows.decisions)
    case Decide(round, results) =>
      && t.rows.status == Collecting && Reaches(t.rows.results, round) && RoundStored(t.rows.results, round)
      && results == View(t.rows.results, round)
      && (round == 2 ==> 1 in t.rows.decisions)
  }

  predicate Inv(t: Team) {
    ResultsOk(t.rows) && DecisionsOk(t.rows) && StatusOk(t.rows) && PhaseOk(t)
    && (2 in t.rows.decisions ==> 1 in t.rows.decisions)
  }

  /** A further answer leaves every completed round as it was. */
  lemma ViewStable(results: map<Key, Finding>, key: Key, finding: Finding, round: nat)
    requires key !in results && Reaches(results, round) && RoundStored(results, round)
    requires key.0 in RolesOf(key.1)
    ensures View(results[key := finding], round) == View(results, round)
    ensures RoundStored(results[key := finding], round) && Reaches(results[key := finding], round)
  {
    hide Supervise, Stored;
    var results' := results[key := finding];
    assert RoundStored(results, 1);
    StoredStable(results, key, finding, 1);
    StoredStable(results, key, finding, round);
    assert View(results', 1) == View(results, 1);
  }

  lemma StoredStable(results: map<Key, Finding>, key: Key, finding: Finding, round: nat)
    requires key !in results && RoundStored(results, round) && key.0 in RolesOf(key.1)
    ensures Stored(results[key := finding], round) == Stored(results, round)
  {
    assert key.1 != round;
  }

  lemma ReachesStable(results: map<Key, Finding>, key: Key, finding: Finding, round: nat)
    requires key !in results && Reaches(results, round) && key.0 in RolesOf(key.1)
    ensures Reaches(results[key := finding], round)
  {
    if round == 2 {
      ViewStable(results, key, finding, 1);
    }
  }

  lemma StoreKeeps(t: Team, role: Specialist, raw: Option<Raw>, overdue: bool)
    requires Inv(t)
    ensures Inv(Apply(t, StoreResult(role, raw, overdue)))
  {
    hide Supervise, View, Stored, RoundStored, Reaches, Judged, Safe;
    var u := Apply(t, StoreResult(role, raw, overdue));
    if u != t {
      var key := (role, t.phase.round);
      var finding := u.rows.results[key];
      JudgedIsSafe(raw, overdue, t.rows.caseId, t.rows.facts, role);
      forall k | k in u.rows.results ensures k.0 in RolesOf(k.1) && Reaches(u.rows.results, k.1) {
        ReachesStable(t.rows.results, key, finding, if k != key then k.1 else t.phase.round);
      }
      forall round | round in t.rows.decisions
        ensures View(u.rows.results, round) == View(t.rows.results, round)
        ensures RoundStored(u.rows.results, round) && Reaches(u.rows.results, round)
      {
        ViewStable(t.rows.results, key, finding, round);
      }
      assert Reaches(u.rows.results, t.phase.round);
      TwoRounds(u.rows.results, t.phase.round);
    }
  }

  lemma TwoRounds(results: map<Key, Finding>, round: nat)
    requires Reaches(results, round)
    ensures round in {1, 2}
  {
  }

  lemma JudgedIsSafe(raw: Option<Raw>, overdue: bool, caseId: nat, facts: Facts, role: Specialist)
    ensures Judged(raw, overdue, caseId, facts, role).verdict == Clear ==> Safe(facts, role)
  {
  }

  lemma GatherKeeps(t: Team)
    requires Inv(t)
    ensures Inv(Apply(t, Gather))
  {
    hide Supervise;
    if t.phase.Collect? && t.phase.round == 1 {
      assert map[] + Stored(t.rows.results, 1) == Stored(t.rows.results, 1);
    }
  }

  /** Recording a decision, or finding it recorded, keeps decisions and status in step. */
  lemma DecideRowsOk(rows: Rows, round: nat, results: Results)
    requires DecisionsOk(rows) && StatusOk(rows) && rows.status == Collecting
    requires Reaches(rows.results, round) && RoundStored(rows.results, round) && results == View(rows.results, round)
    ensures var (rows', d) := DecideRows(rows, round, results);
      && DecisionsOk(rows') && StatusOk(rows') && d == Supervise(results, round)
      && (rows'.status == Collecting <==> d.action == FollowUp)
      && rows'.results == rows.results && rows'.facts == rows.facts
      && rows'.decisions == rows.decisions[round := d]
  {
    hide Supervise, View, Reaches, RoundStored;
    var (rows', d) := DecideRows(rows, round, results);
    assert rows'.decisions[round] == d;
  }

  lemma DecideKeeps(t: Team)
    requires Inv(t)
    ensures Inv(Apply(t, DecideRound))
  {
    hide Supervise, View, Stored, DecideRows, StatusOk, RoundStored, Safe, DecisionsOk;
    if t.phase.Decide? {
      DecideRowsOk(t.rows, t.phase.round, t.phase.results);
      SuperviseMeans(t.phase.results, t.phase.round);
    }
  }

  lemma StepKeeps(t: Team, step: Step)
    requires Inv(t)
    ensures Inv(Apply(t, step))
  {
    match step
    case StoreResult(role, raw, overdue) => StoreKeeps(t, role, raw, overdue);
    case Gather => GatherKeeps(t);
    case DecideRound => DecideKeeps(t);
    case _ =>
  }

  lemma {:induction false} RunKeeps(t: Team, steps: seq<Step>)
    requires Inv(t)
    ensures Inv(Run(t, steps))
  {
    if steps != [] {
      RunKeeps(t, steps[..|steps| - 1]);
      StepKeeps(Run(t, steps[..|steps| - 1]), steps[|steps| - 1]);
    }
  }

  // ---------- what every run promises ----------

  function Reached(caseId: nat, facts: Facts, steps: seq<Step>): Team {
    Run(Start(caseId, facts), steps)
  }

  lemma ReachedInv(caseId: nat, facts: Facts, steps: seq<Step>)
    ensures Inv(Reached(caseId, facts, steps))
  {
    RunKeeps(Start(caseId, facts), steps);
  }

  /** Facts and case never change. */
  lemma {:induction false} FactsFixed(t: Team, steps: seq<Step>)
    ensures Run(t, steps).rows.facts == t.rows.facts && Run(t, steps).rows.caseId == t.rows.caseId
  {
    if steps != [] {
      FactsFixed(t, steps[..|steps| - 1]);
    }
  }

  /** READY only on three clear answers, each of them consistent with the source data. */
  lemma ReadyIsSound(caseId: nat, facts: Facts, steps: seq<Step>)
    requires Reached(caseId, facts, steps).rows.status == CaseReady
    ensures Safe(facts, Policy) && Safe(facts, Order) && Safe(facts, Risk)
    ensures var snapshot := Reached(caseId, facts, steps).rows.snapshot;
      snapshot.Some? && IsClear(snapshot.value, Policy) && IsClear(snapshot.value, Order) && IsClear(snapshot.value, Risk)
  {
    var t := Reached(caseId, facts, steps);
    ReachedInv(caseId, facts, steps);
    FactsFixed(Start(caseId, facts), steps);
    hide Supervise, Run;
    var round :| round in t.rows.decisions && t.rows.decisions[round].action == Ready
      && t.rows.snapshot.value == View(t.rows.results, round);
    SuperviseMeans(View(t.rows.results, round), round);
    forall role | role in [Policy, Order, Risk] ensures Safe(facts, role) {
      ClearIsSafe(t.rows, round, role);
    }
  }

  /** Three clear answers, one after the other. */
  function ClearSteps(caseId: nat): seq<Step> {
    [StartRun] + ClearAnswer(caseId, Policy) + ClearAnswer(caseId, Order) + ClearAnswer(caseId, Risk) + [Gather] + [DecideRound]
  }

  function ClearAnswer(caseId: nat, role: Specialist): seq<Step> {
    [OpenTask(role)] + [StoreResult(role, Some(Raw("CLEAR", Reference(caseId, role), Text("fine"))), false)]
  }

  function ClearFinding(caseId: nat, role: Specialist): Finding {
    Result(Clear, Reference(caseId, role), "fine")
  }

  lemma RunMore(t: Team, steps: seq<Step>, step: Step)
    ensures Run(t, steps + [step]) == Apply(Run(t, steps), step)
  {
    hide Apply;
    assert (steps + [step])[..|steps|] == steps;
  }

  lemma ClearAnswered(t: Team, steps: seq<Step>, role: Specialist)
    requires var u := Run(t, steps);
      u.phase == Collect(1, map[]) && (role, 1) !in u.rows.results && Safe(u.rows.facts, role)
    ensures var u, v := Run(t, steps), Run(t, steps + ClearAnswer(Run(t, steps).rows.caseId, role));
      v == u.(rows := v.rows)
      && v.rows == u.rows.(tasks := v.rows.tasks, results := u.rows.results[(role, 1) := ClearFinding(u.rows.caseId, role)])
  {
    hide Run, Safe;
    var u := Run(t, steps);
    var open, store := OpenTask(role), ClearAnswer(u.rows.caseId, role)[1];
    RunMore(t, steps, open);
    RunMore(t, steps + [open], store);
    assert steps + ClearAnswer(u.rows.caseId, role) == steps + [open] + [store];
    assert Judged(store.raw, false, u.rows.caseId, u.rows.facts, role) == ClearFinding(u.rows.caseId, role);
  }

  /** Facts that pass the three checks can become ready. */
  lemma ClearStepsReady(caseId: nat, facts: Facts)
    requires Safe(facts, Policy) && Safe(facts, Order) && Safe(facts, Risk)
    ensures Reached(caseId, facts, ClearSteps(caseId)).rows.status == CaseReady
  {
    hide Run, Safe, Supervise;
    var t := Start(caseId, facts);
    var s1 := [StartRun];
    var s2 := s1 + ClearAnswer(caseId, Policy);
    var s3 := s2 + ClearAnswer(caseId, Order);
    var s4 := s3 + ClearAnswer(caseId, Risk);
    RunMore(t, [], StartRun);
    assert Run(t, []) == t by { RunNone(t); }
    assert [] + [StartRun] == s1;
    ClearAnswered(t, s1, Policy);
    ClearAnswered(t, s2, Order);
    ClearAnswered(t, s3, Risk);
    RunMore(t, s4, Gather);
    RunMore(t, s4 + [Gather], DecideRound);
    var results := Run(t, s4 + [Gather]).phase.results;
    SuperviseMeans(results, 1);
  }

  lemma RunNone(t: Team)
    ensures Run(t, []) == t
  {
  }

  /** The source data speaks for the refund: recent and standard, not refunded beyond what was paid, no anomaly. */
  predicate Sound(facts: Facts) {
    && 0 <= facts.ageDays <= facts.limitDays && facts.standard
    && facts.refunded + facts.requested <= facts.paid
    && !facts.anomaly
  }

  lemma SoundMeans(facts: Facts)
    ensures Sound(facts) <==> Safe(facts, Policy) && Safe(facts, Order) && Safe(facts, Risk)
  {
  }

  /** A case can become ready exactly when its facts pass all three checks. */
  lemma ReadyIff(caseId: nat, facts: Facts)
    ensures (exists steps :: Reached(caseId, facts, steps).rows.status == CaseReady) <==> Sound(facts)
  {
    hide Reached, Safe, Sound;
    SoundMeans(facts);
    if Safe(facts, Policy) && Safe(facts, Order) && Safe(facts, Risk) {
      ClearStepsReady(caseId, facts);
    }
    if steps :| Reached(caseId, facts, steps).rows.status == CaseReady {
      ReadyIsSound(caseId, facts, steps);
    }
  }

  lemma ClearIsSafe(rows: Rows, round: nat, role: Specialist)
    requires ResultsOk(rows) && IsClear(View(rows.results, round), role)
    ensures Safe(rows.facts, role)
  {
    hide Safe, Reaches;
    if round != 1 && role in Stored(rows.results, round) {
      assert (role, round) in rows.results;
    } else {
      assert (role, 1) in rows.results;
    }
  }

  /** The decision rows are those of an uninterrupted run on the stored answers. */
  ghost predicate MatchesUninterrupted(rows: Rows) {
    var ds := Uninterrupted(rows.results);
    && |ds| <= 2
    && rows.decisions == (if |ds| == 1 then map[1 := ds[0]] else map[1 := ds[0], 2 := ds[1]])
    && rows.status == StatusFor(ds[|ds| - 1].action)
    && rows.snapshot == (if rows.status == CaseReady then Some(View(rows.results, |ds|)) else None)
    && rows.results.Keys == (if |ds| == 1 then AllKeys(1) else AllKeys(1) + AllKeys(2))
  }

  function AllKeys(round: nat): set<Key> {
    set role | role in RolesOf(round) :: (role, round)
  }

  lemma RoundKeys(rows: Rows, key: Key)
    requires ResultsOk(rows) && key in rows.results
    ensures key in AllKeys(key.1) && key.1 in {1, 2}
    ensures key.1 == 2 ==> Supervise(View(rows.results, 1), 1).action == FollowUp
  {
  }

  lemma FinishedMatches(t: Team)
    requires Inv(t) && t.rows.status != Collecting
    ensures MatchesUninterrupted(t.rows)
  {
    hide Supervise, View, ResultsOk;
    var rows := t.rows;
    var round :| round in rows.decisions && rows.decisions[round].action != FollowUp
      && (rows.status == CaseReady ==> rows.snapshot == Some(View(rows.results, round)) && rows.decisions[round].action == Ready)
      && (rows.status == CaseBlocked ==> rows.decisions[round].action == Blocked);
    assert Reaches(rows.results, round) && 1 in rows.decisions;
    SuperviseMeans(View(rows.results, 1), 1);
    SuperviseMeans(View(rows.results, 2), 2);
    assert forall r :: r in rows.decisions ==> r == 1 || r == 2;
    forall key | key in rows.results ensures key in AllKeys(key.1) && key.1 in {1, 2} {
      RoundKeys(rows, key);
    }
    if round == 2 {
      assert forall key :: key in AllKeys(1) + AllKeys(2) ==> key in rows.results;
    } else {
      assert 2 !in rows.decisions;
      forall key | key in rows.results ensures key.1 == 1 { RoundKeys(rows, key); }
    }
  }

  /** However often it was interrupted, a finished case holds what one uninterrupted run decides. */
  lemma CrashesDoNotMatter(caseId: nat, facts: Facts, steps: seq<Step>)
    requires Reached(caseId, facts, steps).rows.status != Collecting
    ensures MatchesUninterrupted(Reached(caseId, facts, steps).rows)
  {
    ReachedInv(caseId, facts, steps);
    FinishedMatches(Reached(caseId, facts, steps));
  }

  predicate Says(results: map<Key, Finding>, role: Specialist, round: nat, verdict: Verdict) {
    (role, round) in results && results[(role, round)].verdict == verdict
  }

  /**
   A finished case, told by its stored answers: risk is asked again exactly when it alone
   was neither clear nor blocking, and the case is ready exactly when policy and order are
   clear and risk is, by its last answer.
   */
  lemma FinishedIff(caseId: nat, facts: Facts, steps: seq<Step>)
    requires Reached(caseId, facts, steps).rows.status != Collecting
    ensures var rows := Reached(caseId, facts, steps).rows;
      var first := Says(rows.results, Policy, 1, Clear) && Says(rows.results, Order, 1, Clear);
      && ((Risk, 2) in rows.results <==>
            first && !Says(rows.results, Risk, 1, Clear) && !Says(rows.results, Risk, 1, Block))
      && (rows.status == CaseReady <==> first && (Says(rows.results, Risk, 1, Clear) || Says(rows.results, Risk, 2, Clear)))
  {
    hide Reached, Supervise, Uninterrupted;
    CrashesDoNotMatter(caseId, facts, steps);
    FinishedReads(Reached(caseId, facts, steps).rows);
  }

  lemma FinishedReads(rows: Rows)
    requires MatchesUninterrupted(rows) && rows.status != Collecting
    ensures var first := Says(rows.results, Policy, 1, Clear) && Says(rows.results, Order, 1, Clear);
      && ((Risk, 2) in rows.results <==>
            first && !Says(rows.results, Risk, 1, Clear) && !Says(rows.results, Risk, 1, Block))
      && (rows.status == CaseReady <==> first && (Says(rows.results, Risk, 1, Clear) || Says(rows.results, Risk, 2, Clear)))
  {
    hide Supervise;
    SuperviseMeans(View(rows.results, 1), 1);
    SuperviseMeans(View(rows.results, 2), 2);
    ViewsRead(rows.results);
    SecondKeys();
  }

  lemma ViewsRead(results: map<Key, Finding>)
    ensures var v, w := View(results, 1), View(results, 2);
      && (forall role :: role in v <==> (role, 1) in results)
      && (forall role :: role in v ==> v[role] == results[(role, 1)])
      && (forall role | role != Risk :: role in w <==> (role, 1) in results)
      && (forall role | role != Risk :: role in w ==> w[role] == results[(role, 1)])
      && (Risk in w <==> (Risk, 1) in results || (Risk, 2) in results)
      && ((Risk, 2) in results ==> w[Risk] == results[(Risk, 2)])
  {
    assert forall role :: role in RolesOf(1) by { AllRoles(); }
  }

  lemma AllRoles()
    ensures forall role: Specialist :: role in ROLES
  {
    forall role: Specialist ensures role in ROLES {
      match role
      case Policy => assert ROLES[0] == Policy;
      case Order => assert ROLES[1] == Order;
      case Risk => assert ROLES[2] == Risk;
    }
  }

  lemma SecondKeys()
    ensures (Risk, 2) in AllKeys(2) && (Risk, 2) !in AllKeys(1)
  {
  }

  /** Decision rows are fixed by the answers common to two finished cases. */
  lemma SameAnswersSameRows(s: Rows, t: Rows)
    requires MatchesUninterrupted(s) && MatchesUninterrupted(t)
    requires forall key :: key in s.results && key in t.results ==> s.results[key] == t.results[key]
    ensures s.results == t.results && s.decisions == t.decisions && s.status == t.status && s.snapshot == t.snapshot
  {
    hide Supervise, AllKeys;
    assert Stored(s.results, 1) == Stored(t.results, 1) by {
      forall role | role in RolesOf(1) ensures (role, 1) in s.results && (role, 1) in t.results {
        KeyOf(role, 1);
      }
    }
    assert s.results.Keys == t.results.Keys;
    assert s.results == t.results;
  }

  lemma KeyOf(role: Specialist, round: nat)
    requires role in RolesOf(round)
    ensures (role, round) in AllKeys(round)
  {
  }

  /** Two runs that agree on the answers both of them stored end in the same rows. */
  lemma SameAnswersSameEnd(caseId: nat, facts: Facts, a: seq<Step>, b: seq<Step>)
    requires var s, t := Reached(caseId, facts, a).rows, Reached(caseId, facts, b).rows;
      && s.status != Collecting && t.status != Collecting
      && (forall key :: key in s.results && key in t.results ==> s.results[key] == t.results[key])
    ensures var s, t := Reached(caseId, facts, a).rows, Reached(caseId, facts, b).rows;
      s.results == t.results && s.decisions == t.decisions && s.status == t.status && s.snapshot == t.snapshot
  {
    hide MatchesUninterrupted, Run;
    CrashesDoNotMatter(caseId, facts, a);
    CrashesDoNotMatter(caseId, facts, b);
    SameAnswersSameRows(Reached(caseId, facts, a).rows, Reached(caseId, facts, b).rows);
  }

  /** Stored answers, decisions and a final outcome survive every further step. */
  ghost predicate Kept(s: Rows, t: Rows) {
    && (forall key :: key in s.results ==> key in t.results && t.results[key] == s.results[key])
    && (forall round :: round in s.decisions ==> round in t.decisions && t.decisions[round] == s.decisions[round])
    && (s.status != Collecting ==> t.status == s.status && t.snapshot == s.snapshot)
  }

  lemma StepLasts(t: Team, step: Step)
    requires Inv(t)
    ensures Kept(t.rows, Apply(t, step).rows)
  {
    hide Supervise, Judged, View, Stored, Safe, ResultsOk, RoundStored, Reaches;
  }

  lemma {:induction false} RunLasts(t: Team, steps: seq<Step>)
    requires Inv(t)
    ensures Kept(t.rows, Run(t, steps).rows)
  {
    if steps != [] {
      hide Inv, Apply;
      RunLasts(t, steps[..|steps| - 1]);
      RunKeeps(t, steps[..|steps| - 1]);
      StepLasts(Run(t, steps[..|steps| - 1]), steps[|steps| - 1]);
    }
  }
}

/** The coordinator's own calls, run without interruption from whatever an earlier run left. */
module TeamService {
  import opened Wrappers
  import opened TeamRules
  import opened TeamRun

  class Coordinator {
    const caseId: nat
    const facts: Facts
    var status: CaseStatus
    var snapshot: Option<Results>
    var tasks: set<Key>
    var results: map<Key, Finding>
    var decisions: map<nat, Decision>

    constructor (caseId: nat, facts: Facts)
      ensures Contents() == Start(caseId, facts).rows
    {
      this.caseId, this.facts := caseId, facts;
      status, snapshot, tasks, results, decisions := Collecting, None, {}, map[], map[];
    }

    ghost function Contents(): Rows
      reads this
    {
      Rows(caseId, facts, status, snapshot, tasks, results, decisions)
    }

    /** One specialist call; `answer` is what the call returns, with whether its deadline passed. */
    method CallSpecialist(role: Specialist, round: nat, answer: (Option<Raw>, bool), ghost carried: Results)
      returns (f: Finding)
      requires role in RolesOf(round)
      modifies this`tasks, this`results
      ensures (role, round) in results && f == results[(role, round)]
      ensures forall key :: key in old(results) ==> key in results && results[key] == old(results)[key]
      ensures Team(Contents(), Collect(round, carried)) ==
        Apply(Apply(Team(old(Contents()), Collect(round, carried)), OpenTask(role)), StoreResult(role, answer.0, answer.1))
    {
      tasks := tasks + {(role, round)};
      if (role, round) in results { return results[(role, round)]; }
      f := Judged(answer.0, answer.1, caseId, facts, role);
      results := results[(role, round) := f];
    }

    method CollectRound(round: nat, carried: Results, answers: (Specialist, nat) -> (Option<Raw>, bool)) returns (r: Results)
      requires Inv(Team(Contents(), Collect(round, carried)))
      modifies this`tasks, this`results
      ensures Inv(Team(Contents(), Collect(round, carried)))
      ensures RoundStored(results, round) && r == carried + Stored(results, round)
      ensures forall key :: key in old(results) ==> key in results && results[key] == old(results)[key]
    {
      hide Inv, Apply;
      var roles := RolesOf(round);
      var collected: Results := map[];
      for i := 0 to |roles|
        invariant Inv(Team(Contents(), Collect(round, carried)))
        invariant forall k :: 0 <= k < i ==> (roles[k], round) in results
        invariant collected.Keys == set k | 0 <= k < i :: roles[k]
        invariant forall role :: role in collected ==> (role, round) in results && collected[role] == results[(role, round)]
        invariant forall key :: key in old(results) ==> key in results && results[key] == old(results)[key]
      {
        ghost var t := Team(Contents(), Collect(round, carried));
        StepKeeps(t, OpenTask(roles[i]));
        StepKeeps(Apply(t, OpenTask(roles[i])), StoreResult(roles[i], answers(roles[i], round).0, answers(roles[i], round).1));
        var f := CallSpecialist(roles[i], round, answers(roles[i], round), carried);
        collected := collected[roles[i] := f];
      }
      assert collected == Stored(results, round);
      r := carried + collected;
    }

    method DecideCase(round: nat, seen: Results) returns (d: Decision)
      modifies this`decisions, this`status, this`snapshot
      ensures (Contents(), d) == DecideRows(old(Contents()), round, seen)
    {
      d := Supervise(seen, round);
      if round in decisions {
        d := decisions[round];
      } else {
        decisions := decisions[round := d];
      }
      assert decisions == old(decisions)[round := d];
      if d.action != FollowUp {
        status := if d.action == Ready then CaseReady else CaseBlocked;
        snapshot := if d.action == Ready then Some(seen) else None;
      }
    }

    /** A run that is not interrupted finishes the case, whatever earlier runs left behind. */
    method RunCase(answers: (Specialist, nat) -> (Option<Raw>, bool))
      requires Inv(Team(Contents(), Idle))
      modifies this
      ensures Inv(Team(Contents(), Idle)) && status != Collecting && MatchesUninterrupted(Contents())
      ensures forall key :: key in old(results) ==> key in results && results[key] == old(results)[key]
    {
      hide MatchesUninterrupted, Supervise, RoundStored, ResultsOk, DecisionsOk, View, DecideRows;
      if status != Collecting {
        FinishedMatches(Team(Contents(), Idle));
        return;
      }
      var round, carried := 1, map[];
      var done := false;
      while !done
        invariant round in {1, 2}
        invariant Inv(Team(Contents(), if done then Idle else Collect(round, carried)))
        invariant done ==> status != Collecting
        invariant forall key :: key in old(results) ==> key in results && results[key] == old(results)[key]
        decreases 3 - round, if done then 0 else 1
      {
        var seen := CollectRound(round, carried, answers);
        ghost var t := Team(Contents(), Collect(round, carried));
        GatherKeeps(t);
        ghost var u := Apply(t, Gather);
        DecideKeeps(u);
        DecideRowsOk(u.rows, round, seen);
        SuperviseMeans(seen, round);
        var d := DecideCase(round, seen);
        if d.action == FollowUp {
          round, carried := 2, seen;
        } else {
          done := true;
        }
      }
      FinishedMatches(Team(Contents(), Idle));
    }
  }
}
