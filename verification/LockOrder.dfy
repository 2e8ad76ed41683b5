/**
 Deadlock freedom.  Each transaction is the list of locks its SQL names, in order.
 A plain lock request waits for its holder; a SKIP LOCKED request never waits: a
 transaction that finds its row taken ends with nothing.
 */
module LockOrder {
  datatype RowKind = TaskRow | TimerRow | AttemptRow | OutboxRecord

  datatype Lock =
    | Advisory(key: string)
    | TeamRow(team: nat)
    | OrderKey(order: nat)
    | WorkflowRow(wid: nat)
    | Child(parent: nat, kind: RowKind, no: nat)
    | SpecialistRow(team: nat, no: nat)

  datatype Request = Take(lock: Lock) | TryTake(lock: Lock)

  datatype Transaction =
    | CreateTx(key: string, teams: seq<nat>, order: nat)
    | DecideTx(command: string, wid: nat, task: nat, timers: seq<nat>)
    | DeadlineTx(wid: nat, task: nat, timers: seq<nat>)
    | ConsumeTx(wid: nat)
    | ClaimTx(wid: nat, attempts: seq<nat>)
    | FinishTx(wid: nat, n: nat)
    | RecoverTx(wid: nat, n: nat)
    | ReconcileTx(wid: nat, attempts: seq<nat>)
    | CloseTx(wid: nat)
    | PublishTx(wid: nat, no: nat)
    | RedeliverTx(wid: nat, nos: seq<nat>)
    | SpecialistTx(team: nat, no: nat)
    | TeamDecisionTx(team: nat)

  function Rows(wid: nat, kind: RowKind, nos: seq<nat>): seq<Request> {
    seq(|nos|, i requires 0 <= i < |nos| => Take(Child(wid, kind, nos[i])))
  }

  /** At most one team case gates a request. */
  function Gate(teams: seq<nat>): seq<Request> {
    if teams == [] then [] else [Take(TeamRow(teams[0]))]
  }

  /** The locks a transaction names, in the order of its statements. */
  function Program(t: Transaction): seq<Request> {
    match t
    case CreateTx(key, teams, order) => [Take(Advisory(key))] + Gate(teams) + [Take(OrderKey(order))]
    case DecideTx(command, wid, task, timers) =>
      [Take(Advisory(command)), Take(WorkflowRow(wid)), Take(Child(wid, TaskRow, task))] + Rows(wid, TimerRow, timers)
    case DeadlineTx(wid, task, timers) =>
      [Take(WorkflowRow(wid)), Take(Child(wid, TaskRow, task))] + Rows(wid, TimerRow, timers)
    case ConsumeTx(wid) => [Take(WorkflowRow(wid))]
    case ClaimTx(wid, attempts) => [TryTake(WorkflowRow(wid))] + Rows(wid, AttemptRow, attempts)
    case FinishTx(wid, n) => [Take(WorkflowRow(wid)), Take(Child(wid, AttemptRow, n))]
    case RecoverTx(wid, n) => [Take(WorkflowRow(wid)), Take(Child(wid, AttemptRow, n))]
    case ReconcileTx(wid, attempts) => [Take(WorkflowRow(wid))] + Rows(wid, AttemptRow, attempts)
    case CloseTx(wid) => [Take(WorkflowRow(wid))]
    case PublishTx(wid, no) => [TryTake(Child(wid, OutboxRecord, no))]
    case RedeliverTx(wid, nos) => [Take(WorkflowRow(wid))] + Rows(wid, OutboxRecord, nos)
    case SpecialistTx(team, no) => [Take(SpecialistRow(team, no))]
    case TeamDecisionTx(team) => [Take(TeamRow(team))]
  }

  /** Running transactions and how many of their locks they hold. */
  datatype Progress = Progress(tx: Transaction, taken: nat)

  type Table = map<nat, Progress>

  datatype Step = Begin(id: nat, tx: Transaction) | Advance(id: nat) | End(id: nat)

  predicate Holds(p: Progress, lock: Lock) {
    exists i :: 0 <= i < |Program(p.tx)| && i < p.taken && Program(p.tx)[i].lock == lock
  }

  ghost predicate Free(t: Table, id: nat, lock: Lock) {
    forall other :: other in t && other != id ==> !Holds(t[other], lock)
  }

  /** The next request of `id` gets its lock if it is free; otherwise it waits, or skips and ends. */
  ghost function Apply(t: Table, step: Step): Table {
    match step
    case Begin(id, tx) => if id in t then t else t[id := Progress(tx, 0)]
    case Advance(id) =>
      if id !in t || t[id].taken >= |Program(t[id].tx)| then t
      else
        var request := Program(t[id].tx)[t[id].taken];
        if Free(t, id, request.lock) then t[id := t[id].(taken := t[id].taken + 1)]
        else if request.TryTake? then t - {id}
        else t
    case End(id) => t - {id}
  }

  ghost function Run(steps: seq<Step>): Table {
    if steps == [] then map[] else Apply(Run(steps[..|steps| - 1]), steps[|steps| - 1])
  }

  /** `a` waits for a lock that `b` holds. */
  ghost predicate WaitsFor(t: Table, a: nat, b: nat) {
    && a in t && b in t && a != b
    && t[a].taken < |Program(t[a].tx)|
    && Program(t[a].tx)[t[a].taken].Take?
    && Holds(t[b], Program(t[a].tx)[t[a].taken].lock)
  }

  ghost predicate Exclusive(t: Table) {
    forall a, b, lock :: a in t && b in t && Holds(t[a], lock) && Holds(t[b], lock) ==> a == b
  }

  lemma AdvanceKeepsExclusive(t: Table, id: nat)
    requires Exclusive(t) && id in t && t[id].taken < |Program(t[id].tx)|
    requires Free(t, id, Program(t[id].tx)[t[id].taken].lock)
    ensures Exclusive(t[id := t[id].(taken := t[id].taken + 1)])
  {
    hide Program;
    var u := t[id := t[id].(taken := t[id].taken + 1)];
    var lock := Program(t[id].tx)[t[id].taken].lock;
    assert forall l :: Holds(u[id], l) ==> l == lock || Holds(t[id], l);
  }

  lemma StepKeepsExclusive(t: Table, step: Step)
    requires Exclusive(t)
    ensures Exclusive(Apply(t, step))
  {
    hide Program;
    if step.Advance? {
      if step.id in t && t[step.id].taken < |Program(t[step.id].tx)|
         && Free(t, step.id, Program(t[step.id].tx)[t[step.id].taken].lock) {
        AdvanceKeepsExclusive(t, step.id);
      }
    } else if step.Begin? && step.id !in t {
      assert forall l :: !Holds(Progress(step.tx, 0), l);
    }
  }

  lemma {:induction false} RunExclusive(steps: seq<Step>)
    ensures Exclusive(Run(steps))
  {
    if steps != [] {
      RunExclusive(steps[..|steps| - 1]);
      StepKeepsExclusive(Run(steps[..|steps| - 1]), steps[|steps| - 1]);
    }
  }

  // ---------- the lock order ----------

  function Rank(lock: Lock): nat {
    match lock
    case Advisory(_) => 0
    case TeamRow(_) => 1
    case OrderKey(_) => 2
    case WorkflowRow(_) => 3
    case Child(_, _, _) => 4
    case SpecialistRow(_, _) => 5
  }

  /** Ranks never fall, rise strictly below child rows, and a child is awaited under its parent only. */
  ghost predicate Ordered(program: seq<Request>) {
    && (forall i, j | 0 <= i < j < |program| ::
      && Rank(program[i].lock) <= Rank(program[j].lock)
      && (!program[j].lock.Child? ==> Rank(program[i].lock) < Rank(program[j].lock)))
    && (forall j | 0 <= j < |program| :: program[j].lock.Child? ==>
      program == [TryTake(program[j].lock)] || program[0].lock == WorkflowRow(program[j].lock.parent)
      || (|program| > 1 && j > 1 && program[1].lock == WorkflowRow(program[j].lock.parent)))
    && (forall j | 0 <= j < |program| :: program[j].lock.Child? && j == 0 ==> |program| == 1 && program[0].TryTake?)
  }

  /** Rows of one kind, taken after everything else under the workflow. */
  lemma RowsLast(program: seq<Request>, wid: nat, kind: RowKind, nos: seq<nat>)
    requires Ordered(program) && program != []
    requires program[0].lock == WorkflowRow(wid) || (|program| > 2 && program[1].lock == WorkflowRow(wid))
    requires forall j | 0 <= j < |program| :: Rank(program[j].lock) <= 4 && (program[j].lock.Child? ==> program[j].lock.parent == wid)
    ensures Ordered(program + Rows(wid, kind, nos))
  {
  }

  predicate EndsWithRows(t: Transaction) {
    t.DecideTx? || t.DeadlineTx? || t.ClaimTx? || t.ReconcileTx? || t.RedeliverTx?
  }

  lemma FixedProgramOrdered(t: Transaction)
    requires !EndsWithRows(t)
    ensures Ordered(Program(t))
  {
    match t
    case CreateTx(key, teams, order) => CreateOrdered(key, teams, order);
    case FinishTx(wid, n) => RowOrdered(wid, AttemptRow, n);
    case RecoverTx(wid, n) => RowOrdered(wid, AttemptRow, n);
    case _ =>
  }

  lemma CreateOrdered(key: string, teams: seq<nat>, order: nat)
    ensures Ordered(Program(CreateTx(key, teams, order)))
  {
  }

  lemma RowOrdered(wid: nat, kind: RowKind, no: nat)
    ensures Ordered([Take(WorkflowRow(wid)), Take(Child(wid, kind, no))])
  {
  }

  /** The locks before the rows. */
  lemma HeadsOrdered(command: string, wid: nat, task: nat)
    ensures Ordered([Take(Advisory(command)), Take(WorkflowRow(wid)), Take(Child(wid, TaskRow, task))])
    ensures Ordered([Take(WorkflowRow(wid)), Take(Child(wid, TaskRow, task))])
    ensures Ordered([TryTake(WorkflowRow(wid))]) && Ordered([Take(WorkflowRow(wid))])
  {
  }

  lemma EveryProgramOrdered(t: Transaction)
    ensures Ordered(Program(t))
  {
    hide Ordered, Rows;
    match t
    case DecideTx(command, wid, task, timers) =>
      HeadsOrdered(command, wid, task);
      RowsLast([Take(Advisory(command)), Take(WorkflowRow(wid)), Take(Child(wid, TaskRow, task))], wid, TimerRow, timers);
    case DeadlineTx(wid, task, timers) =>
      HeadsOrdered("", wid, task);
      RowsLast([Take(WorkflowRow(wid)), Take(Child(wid, TaskRow, task))], wid, TimerRow, timers);
    case ClaimTx(wid, attempts) =>
      HeadsOrdered("", wid, 0);
      RowsLast([TryTake(WorkflowRow(wid))], wid, AttemptRow, attempts);
    case ReconcileTx(wid, attempts) =>
      HeadsOrdered("", wid, 0);
      RowsLast([Take(WorkflowRow(wid))], wid, AttemptRow, attempts);
    case RedeliverTx(wid, nos) =>
      HeadsOrdered("", wid, 0);
      RowsLast([Take(WorkflowRow(wid))], wid, OutboxRecord, nos);
    case _ => FixedProgramOrdered(t);
  }

  /** Whoever blocks a wait for a child row is not waiting itself. */
  lemma ChildHolderRuns(t: Table, a: nat, b: nat)
    requires Exclusive(t) && WaitsFor(t, a, b)
    requires Program(t[a].tx)[t[a].taken].lock.Child?
    ensures t[b].taken >= |Program(t[b].tx)|
  {
    var row := Program(t[a].tx)[t[a].taken].lock;
    var parent := WorkflowRow(row.parent);
    EveryProgramOrdered(t[a].tx);
    EveryProgramOrdered(t[b].tx);
    HoldsParent(t[a], t[a].taken);
    var j :| 0 <= j < |Program(t[b].tx)| && j < t[b].taken && Program(t[b].tx)[j].lock == row;
    if Program(t[b].tx) != [TryTake(row)] {
      HoldsParent(t[b], j);
    }
  }

  /** Having reached a child row at `j`, a transaction holds its workflow, unless it publishes. */
  lemma HoldsParent(p: Progress, j: nat)
    requires Ordered(Program(p.tx)) && j < |Program(p.tx)| && j <= p.taken
    requires Program(p.tx)[j].lock.Child?
    requires Program(p.tx) != [TryTake(Program(p.tx)[j].lock)]
    ensures Holds(p, WorkflowRow(Program(p.tx)[j].lock.parent))
  {
    var program := Program(p.tx);
    if program[0].lock == WorkflowRow(program[j].lock.parent) {
      assert 0 < p.taken;
    } else {
      assert 1 < p.taken;
    }
  }

  /** The rank of the lock a transaction asks for next. */
  ghost function Awaited(t: Table, a: nat): nat {
    if a in t && t[a].taken < |Program(t[a].tx)| then Rank(Program(t[a].tx)[t[a].taken].lock) else 0
  }

  /** From one waiting transaction to the next the awaited rank rises. */
  lemma RankRises(t: Table, a: nat, b: nat, c: nat)
    requires Exclusive(t) && WaitsFor(t, a, b) && WaitsFor(t, b, c)
    ensures Awaited(t, a) < Awaited(t, b)
  {
    hide Program;
    var lock := Program(t[a].tx)[t[a].taken].lock;
    if lock.Child? {
      ChildHolderRuns(t, a, b);
    } else {
      EveryProgramOrdered(t[b].tx);
      var i :| 0 <= i < |Program(t[b].tx)| && i < t[b].taken && Program(t[b].tx)[i].lock == lock;
      var next := Program(t[b].tx)[t[b].taken].lock;
      if next.Child? {
        assert Rank(lock) < 4;
      }
    }
  }

  ghost predicate Chain(t: Table, ids: seq<nat>) {
    forall i, j | 0 <= i && j == i + 1 && j < |ids| :: WaitsFor(t, ids[i], ids[j])
  }

  lemma {:induction false} ChainRises(t: Table, ids: seq<nat>)
    requires Exclusive(t) && |ids| >= 3 && Chain(t, ids)
    ensures Awaited(t, ids[0]) < Awaited(t, ids[|ids| - 2])
  {
    hide Program, Awaited, WaitsFor;
    var k := |ids| - 1;
    assert WaitsFor(t, ids[k - 2], ids[k - 1]) && WaitsFor(t, ids[k - 1], ids[k]);
    RankRises(t, ids[k - 2], ids[k - 1], ids[k]);
    if |ids| > 3 {
      ChainRises(t, ids[..k]);
    }
  }

  /** No run, of any transactions, reaches a state where transactions wait in a circle. */
  lemma NoDeadlock(steps: seq<Step>, ids: seq<nat>)
    requires |ids| >= 2 && ids[0] == ids[|ids| - 1]
    ensures !Chain(Run(steps), ids)
  {
    hide Program, Awaited;
    var t := Run(steps);
    RunExclusive(steps);
    if Chain(t, ids) {
      assert WaitsFor(t, ids[0], ids[1]);
      ChainRises(t, ids + [ids[1]]);
    }
  }

  ghost predicate Blocked(t: Table, a: nat) {
    exists b :: WaitsFor(t, a, b)
  }

  lemma {:induction false} ClimbsFrom(t: Table, a: nat)
    requires Exclusive(t) && Blocked(t, a)
    ensures exists b :: b in t && !Blocked(t, b)
    decreases 5 - Awaited(t, a)
  {
    hide Program, Exclusive, Holds;
    var b :| WaitsFor(t, a, b);
    if Blocked(t, b) {
      var c :| WaitsFor(t, b, c);
      RankRises(t, a, b, c);
      ClimbsFrom(t, b);
    }
  }

  /** Whenever transactions are running, at least one of them is not waiting for another. */
  lemma SomeoneRuns(steps: seq<Step>, id: nat)
    requires id in Run(steps)
    ensures exists b :: b in Run(steps) && !Blocked(Run(steps), b)
  {
    hide Program, Blocked;
    RunExclusive(steps);
    if Blocked(Run(steps), id) {
      ClimbsFrom(Run(steps), id);
    }
  }
}
