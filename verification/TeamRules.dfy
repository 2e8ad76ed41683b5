/** The evidence team's pure rules: what a specialist may answer and what the supervisor decides. */
module TeamRules {
  import opened Wrappers

  datatype Specialist = Policy | Order | Risk

  const ROLES: seq<Specialist> := [Policy, Order, Risk]

  datatype Facts = Facts(
    ageDays: int, limitDays: int, standard: bool,
    paid: int, refunded: int, requested: int, anomaly: bool)

  datatype Verdict = Clear | Block | Review | Error

  datatype Reference = Reference(caseId: nat, role: Specialist)

  datatype Finding = Result(verdict: Verdict, reference: Reference, finding: string)

  datatype Text = NotText | Text(s: string)

  /** What came back from a specialist call; OffContract is anything without exactly the three fields. */
  datatype Raw = OffContract | Raw(verdict: string, reference: Reference, finding: Text)

  predicate Safe(facts: Facts, role: Specialist) {
    match role
    case Policy => 0 <= facts.ageDays <= facts.limitDays && facts.standard
    case Order => facts.requested <= facts.paid - facts.refunded
    case Risk => !facts.anomaly
  }

  function ParseVerdict(s: string): Option<Verdict> {
    if s == "CLEAR" then Some(Clear) else if s == "BLOCK" then Some(Block)
    else if s == "REVIEW" then Some(Review) else None
  }

  /** None stands for the ValueError of a result that breaks the contract or the facts. */
  function Validate(raw: Raw, caseId: nat, facts: Facts, role: Specialist): (r: Option<Finding>)
    ensures r.Some? ==> r.value.verdict != Error && (r.value.verdict == Clear ==> Safe(facts, role))
  {
    if raw.OffContract? then None
    else if ParseVerdict(raw.verdict).None? then None
    else if raw.reference != Reference(caseId, role) then None
    else if raw.finding.NotText? || !(1 <= |raw.finding.s| <= 1000) then None
    else if raw.verdict == "CLEAR" && !Safe(facts, role) then None
    else Some(Result(ParseVerdict(raw.verdict).value, raw.reference, raw.finding.s))
  }

  /** What is stored for a call: its validated answer, or an error if it failed or came too late. */
  function Judged(raw: Option<Raw>, overdue: bool, caseId: nat, facts: Facts, role: Specialist): Finding {
    if overdue then Result(Error, Reference(caseId, role), "DeadlineExceeded")
    else if raw.None? || Validate(raw.value, caseId, facts, role).None?
    then Result(Error, Reference(caseId, role), "failed")
    else Validate(raw.value, caseId, facts, role).value
  }

  /** An answer in the exact form of the contract, about this case and role. */
  predicate OnContract(raw: Option<Raw>, caseId: nat, role: Specialist) {
    && raw.Some? && raw.value.Raw? && raw.value.reference == Reference(caseId, role)
    && raw.value.finding.Text? && 1 <= |raw.value.finding.s| <= 1000
  }

  /** Which verdict is stored for which answer: each of the three in time and on contract, an error for all else. */
  lemma JudgedMeans(raw: Option<Raw>, overdue: bool, caseId: nat, facts: Facts, role: Specialist)
    ensures var f := Judged(raw, overdue, caseId, facts, role); var good := !overdue && OnContract(raw, caseId, role);
      && f.reference == Reference(caseId, role)
      && (f.verdict == Clear <==> good && raw.value.verdict == "CLEAR" && Safe(facts, role))
      && (f.verdict == Block <==> good && raw.value.verdict == "BLOCK")
      && (f.verdict == Review <==> good && raw.value.verdict == "REVIEW")
      && (f.verdict != Error ==> f.finding == raw.value.finding.s)
      && (overdue ==> f.finding == "DeadlineExceeded")
  {
  }

  type Results = map<Specialist, Finding>

  datatype Action = FollowUp | Ready | Blocked

  datatype Decision = Decision(action: Action, target: Option<Specialist>)

  predicate IsClear(results: Results, role: Specialist) {
    role in results && results[role].verdict == Clear
  }

  function Missing(results: Results, roles: seq<Specialist>): seq<Specialist> {
    if roles == [] then []
    else (if IsClear(results, roles[0]) then [] else [roles[0]]) + Missing(results, roles[1..])
  }

  function Supervise(results: Results, round: nat): Decision {
    if exists role :: role in results && results[role].verdict == Block then Decision(Blocked, None)
    else
      var missing := Missing(results, ROLES);
      if missing != [] then
        if round == 1 && missing == [Risk] then Decision(FollowUp, Some(Risk)) else Decision(Blocked, None)
      else Decision(Ready, None)
  }

  /** The supervisor's rule, read off its result. */
  lemma SuperviseMeans(results: Results, round: nat)
    ensures Supervise(results, round).action == Ready <==>
      IsClear(results, Policy) && IsClear(results, Order) && IsClear(results, Risk)
    ensures Supervise(results, round).action == FollowUp <==>
      round == 1 && IsClear(results, Policy) && IsClear(results, Order) && !IsClear(results, Risk)
      && !(Risk in results && results[Risk].verdict == Block)
    ensures Supervise(results, round).target == (if Supervise(results, round).action == FollowUp then Some(Risk) else None)
  {
    var risk := if IsClear(results, Risk) then [] else [Risk];
    var order := (if IsClear(results, Order) then [] else [Order]) + risk;
    assert [Policy, Order, Risk][1..] == [Order, Risk] && [Order, Risk][1..] == [Risk] && [Risk][1..] == [];
    assert Missing(results, [Risk]) == risk;
    assert Missing(results, [Order, Risk]) == order;
    var missing := (if IsClear(results, Policy) then [] else [Policy]) + order;
    assert Missing(results, ROLES) == missing;
    assert missing == [Risk] ==> IsClear(results, Policy) && IsClear(results, Order) && !IsClear(results, Risk) by {
      if !IsClear(results, Policy) { assert missing[0] == Policy; }
      else if !IsClear(results, Order) { assert missing[0] == Order; }
    }
    if role :| role in results && results[role].verdict == Block {
      match role
      case Policy => assert !IsClear(results, Policy);
      case Order => assert !IsClear(results, Order);
      case Risk => assert !IsClear(results, Risk);
    }
  }
}
