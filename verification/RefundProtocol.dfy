/**
 The refund protocol: database transactions, the event broker, workers, the
 provider and reconcilers, interleaved in any order.  A run is any sequence of
 steps; a step that is not enabled changes nothing.  Messages sent to the broker
 stay there, so they can be delivered late, in any order and more than once, or
 never.  A POST may be delayed, lost, refused, or settled and its reply lost.
 */
module RefundProtocol {
  import opened Wrappers
  import opened RefundRows
  import opened RefundSteps
  import opened ProviderRules
  import opened RefundInvariant
  import TeamRun

  /** What a claimant holds in memory: its fence and the POST built from the claimed rows. */
  datatype Worker = Worker(fence: nat, post: Post)

  /** The fate of the one POST of an attempt. */
  datatype Wire = Unsent | InFlight(post: Post) | Dropped | Answered(reply: Reply)

  datatype Lookup = Lookup(wid: nat, version: nat, key: OpKey, answer: Option<Answer>)

  /** Workers and wires are indexed by workflow and attempt. */
  type Slot = (nat, nat)

  datatype Sys = Sys(
    now: int, settings: Settings, db: Db, queue: set<Event>,
    workers: map<Slot, Worker>, wires: map<Slot, Wire>,
    provider: Provider, lookups: set<Lookup>)

  datatype Step =
    | Tick(time: int)
    | AddOrder(order: nat, row: Order)
    | MoveTeamCase(id: nat, teamCase: TeamCase)
    | Submit(who: Principal, body: Body, wid: nat)
    | DecideBy(who: Principal, wid: nat, task: nat, decision: DecisionBody)
    | Deadline(wid: nat, task: nat)
    | Send(wid: nat, no: nat)
    | Mark(wid: nat, no: nat, published: bool)
    | Deliver(e: Event)
    | ClaimBy(wid: nat)
    | SendPost(slot: Slot)
    | Arrive(slot: Slot, refusal: Option<Reply>)
    | Drop(slot: Slot)
    | Report(slot: Slot, gaveUp: bool)
    | Crash(slot: Slot)
    | LeaseExpires(wid: nat, n: nat)
    | ReadToReconcile(wid: nat)
    | AskProvider(l: Lookup, down: bool)
    | ApplyAnswer(l: Lookup)
    | RestoreProvider(key: OpKey)
    | CloseBy(wid: nat)

  /** A settled team case has what some run of the evidence team, on its own facts, ended with. */
  ghost predicate Genuine(id: nat, t: TeamCase) {
    t.status in {Ready, Blocked} ==> exists steps ::
      var rows := TeamRun.Reached(id, t.facts, steps).rows;
      rows.status == (if t.status == Ready then TeamRun.CaseReady else TeamRun.CaseBlocked) && t.snapshot == rows.snapshot
  }

  /** A team case is inserted collecting, on facts that ask for its own amount; later it is settled, once. */
  ghost predicate TeamMay(team: map<nat, TeamCase>, id: nat, t: TeamCase) {
    if id !in team then
      t.status == Collecting && t.snapshot.None? && t.workflow.None? && t.facts.requested == t.amount
    else
      && team[id].status == Collecting && t.status in {Ready, Blocked}
      && t == team[id].(status := t.status, snapshot := t.snapshot)
      && Genuine(id, t)
  }

  function Start(now: int, settings: Settings): Sys {
    Sys(now, settings, Db(map[], map[], map[]), {}, map[], map[],
        Provider(map[], 0, settings.providerLabFaults), {})
  }

  function Put(db: Db, wid: nat, c: Case): Db {
    db.(cases := db.cases[wid := c])
  }

  function With(s: Sys, wid: nat, c: Case): Sys {
    s.(db := Put(s.db, wid, c))
  }

  function Commit(s: Sys, r: Result<Db>): Sys {
    if r.Ok? then s.(db := r.value) else s
  }

  /** The POST of attempt `n`, from the rows returned by the claim. */
  function PostOf(c: Case, n: nat): Post
    requires n < |c.attempts|
  {
    Post(Refund(c.attempts[n].key, c.w.order, c.w.amount), c.w.fault, n + 1)
  }

  function OutcomeOf(wire: Wire, gaveUp: bool): Outcome {
    if gaveUp || !wire.Answered? then Ambiguous else
    match wire.reply
    case Settled(receipt) => Success(receipt)
    case Busy => RetryLater
    case RejectedByProvider => Refused
    case Odd => Ambiguous
  }

  predicate HasTask(db: Db, wid: nat, task: nat) {
    wid in db.cases && task < |db.cases[wid].tasks|
  }

  predicate HasEvent(db: Db, wid: nat, no: nat) {
    wid in db.cases && no < |db.cases[wid].outbox|
  }

  function ClaimStep(s: Sys, wid: nat): Sys
    requires wid in s.db.cases && Claimable(s.db.cases[wid], s.now)
  {
    var c := s.db.cases[wid];
    var n := PendingNo(c.attempts);
    var d := Claim(c, s.now + s.settings.leaseSeconds * SECOND);
    With(s, wid, d).(workers := s.workers[(wid, n) := Worker(d.attempts[n].fence, PostOf(d, n))],
                     wires := s.wires[(wid, n) := Unsent])
  }

  function ArriveStep(s: Sys, slot: Slot, refusal: Option<Reply>): Sys
    requires slot in s.wires && s.wires[slot].InFlight?
  {
    if refusal.Some? && !refusal.value.Settled? then
      s.(wires := s.wires[slot := Answered(refusal.value)])
    else
      var (p, reply) := Pay(s.provider, s.wires[slot].post);
      s.(provider := p, wires := s.wires[slot := Answered(reply)])
  }

  /** One atomic step of the whole system. */
  ghost function Apply(s: Sys, step: Step): Sys {
    match step
    case Tick(time) => if s.now <= time then s.(now := time) else s
    case AddOrder(order, row) =>
      if order in s.db.orders then s else s.(db := s.db.(orders := s.db.orders[order := row]))
    case MoveTeamCase(id, teamCase) =>
      if TeamMay(s.db.team, id, teamCase) then s.(db := s.db.(team := s.db.team[id := teamCase])) else s
    case Submit(who, body, wid) =>
      if wid in s.db.cases || body.amount <= 0 then s
      else Commit(s, Create(s.db, who, body, wid, s.settings, s.now))
    case DecideBy(who, wid, task, decision) => Commit(s, Decide(s.db, who, wid, task, decision, s.now))
    case Deadline(wid, task) =>
      if HasTask(s.db, wid, task) then With(s, wid, Escalate(s.db.cases[wid], task, s.now)) else s
    case Send(wid, no) =>
      if HasEvent(s.db, wid, no) then s.(queue := s.queue + {s.db.cases[wid].outbox[no].event}) else s
    case Mark(wid, no, published) =>
      // marking follows sending; unmarking is the classroom redelivery drill
      if HasEvent(s.db, wid, no)
         && (if published then s.db.cases[wid].outbox[no].event in s.queue else s.settings.labFaults)
      then With(s, wid, MarkRow(s.db.cases[wid], no, published)) else s
    case Deliver(e) => if e in s.queue then Commit(s, Consume(s.db, e, s.now)) else s
    case ClaimBy(wid) =>
      if wid in s.db.cases && Claimable(s.db.cases[wid], s.now) then ClaimStep(s, wid) else s
    case SendPost(slot) =>
      if slot in s.workers && slot in s.wires && s.wires[slot] == Unsent
      then s.(wires := s.wires[slot := InFlight(s.workers[slot].post)]) else s
    case Arrive(slot, refusal) =>
      if slot in s.wires && s.wires[slot].InFlight? then ArriveStep(s, slot, refusal) else s
    case Drop(slot) =>
      if slot in s.wires && s.wires[slot].InFlight? then s.(wires := s.wires[slot := Dropped]) else s
    case Report(slot, gaveUp) =>
      if slot in s.workers && slot in s.wires && slot.0 in s.db.cases && (gaveUp || s.wires[slot].Answered?) then
        var o := OutcomeOf(s.wires[slot], gaveUp);
        With(s, slot.0, Finish(s.db.cases[slot.0], slot.1, s.workers[slot].fence, o, s.now))
          .(workers := s.workers - {slot})
      else s
    case Crash(slot) => s.(workers := s.workers - {slot})
    case LeaseExpires(wid, n) =>
      if wid in s.db.cases && n < |s.db.cases[wid].attempts|
      then With(s, wid, RecoverExpired(s.db.cases[wid], n, s.now)) else s
    case ReadToReconcile(wid) =>
      if wid in s.db.cases && Reconcilable(s.db.cases[wid]) then
        var w := s.db.cases[wid].w;
        s.(lookups := s.lookups + {Lookup(wid, w.version, OperationKey(w), None)})
      else s
    case AskProvider(l, down) =>
      if l in s.lookups && l.answer.None?
      then s.(lookups := s.lookups + {l.(answer := Some(if down then Unavailable else Status(s.provider, l.key)))}) else s
    case ApplyAnswer(l) =>
      if l in s.lookups && l.answer.Some? && l.wid in s.db.cases
      then With(s, l.wid, ReconcileApply(s.db.cases[l.wid], l.version, l.answer.value, s.now)) else s
    case RestoreProvider(key) => s.(provider := Restore(s.provider, key))
    case CloseBy(wid) =>
      if wid in s.db.cases && OperatorClose(s.db.cases[wid]).Ok?
      then With(s, wid, OperatorClose(s.db.cases[wid]).value) else s
  }

  ghost function Run(s: Sys, steps: seq<Step>): Sys {
    if steps == [] then s else Apply(Run(s, steps[..|steps| - 1]), steps[|steps| - 1])
  }

  // ---------- the system invariant ----------

  ghost predicate IdsOk(db: Db) {
    forall wid :: wid in db.cases ==> db.cases[wid].w.id == wid
  }

  ghost predicate CasesOk(db: Db) {
    IdsOk(db) && forall wid :: wid in db.cases ==> CaseInv(db.cases[wid])
  }

  predicate BackedByOrder(w: Workflow, orders: map<nat, Order>) {
    && w.order in orders
    && orders[w.order].tenant == w.tenant
    && orders[w.order].customer == w.requester
    && 0 < w.amount <= orders[w.order].amount
  }

  ghost predicate OrdersOk(db: Db) {
    && (forall wid :: wid in db.cases ==> BackedByOrder(db.cases[wid].w, db.orders))
    && (forall u, v :: u in db.cases && v in db.cases && db.cases[u].w.order == db.cases[v].w.order ==> u == v)
    && (forall u, v ::
      (u in db.cases && v in db.cases
       && SameKey(db.cases[u].w, db.cases[v].w.tenant, db.cases[v].w.requestKey)) ==> u == v)
  }

  /** Whatever is marked published has been handed to the broker. */
  predicate RowsSent(c: Case, queue: set<Event>) {
    forall i :: 0 <= i < |c.outbox| ==> (c.outbox[i].published ==> c.outbox[i].event in queue)
  }

  ghost predicate QueueOk(db: Db, queue: set<Event>) {
    && (forall e :: e in queue ==>
      HasEvent(db, e.wid, e.no) && db.cases[e.wid].outbox[e.no].event == e)
    && (forall wid :: wid in db.cases ==> RowsSent(db.cases[wid], queue))
  }

  /** A receipt the ledger holds under `key`. */
  predicate OnLedger(p: Provider, key: OpKey, receipt: nat) {
    key in p.ledger && p.ledger[key].receipt == receipt
  }

  ghost predicate LookupsOk(db: Db, lookups: set<Lookup>, p: Provider) {
    forall l :: l in lookups ==>
      && l.wid in db.cases
      && var c := db.cases[l.wid];
      && l.key == OperationKey(c.w)
      && l.version <= c.w.version
      && (l.version == c.w.version ==> Reconcilable(c))
      && (l.answer.Some? && l.answer.value.Found? ==> OnLedger(p, l.key, l.answer.value.receipt))
  }

  /** Attempt `n` of `c` against the fate of its POST. */
  predicate WireOk(c: Case, n: nat, wire: Wire, p: Provider) {
    && n < |c.attempts|
    && c.attempts[n].status != Pending
    && (c.attempts[n].status == Retry ==> wire == Answered(Busy))
    && (c.attempts[n].status == Failed ==> wire == Answered(RejectedByProvider))
    && (wire.InFlight? ==> wire.post == PostOf(c, n))
    && (wire.Answered? && wire.reply.Settled? ==> OnLedger(p, OperationKey(c.w), wire.reply.receipt))
  }

  predicate Paid(a: Attempt, p: Provider) {
    a.receipt.Some? && OnLedger(p, a.key, a.receipt.value)
  }

  ghost predicate SlotsOk(c: Case, wires: map<Slot, Wire>, workers: map<Slot, Worker>, p: Provider) {
    && (forall n :: (c.w.id, n) in wires ==> WireOk(c, n, wires[(c.w.id, n)], p))
    && (forall n :: (c.w.id, n) in workers ==>
      (c.w.id, n) in wires && n < |c.attempts| && workers[(c.w.id, n)].post == PostOf(c, n))
    && (forall n: nat :: n < |c.attempts| && c.attempts[n].status != Pending ==> (c.w.id, n) in wires)
    && (forall n :: 0 <= n < |c.attempts| && c.attempts[n].status == Succeeded ==> Paid(c.attempts[n], p))
    && (c.w.state == Completed ==> exists n :: 0 <= n < |c.attempts| && c.attempts[n].status == Succeeded)
  }

  ghost predicate AllSlotsOk(db: Db, wires: map<Slot, Wire>, workers: map<Slot, Worker>, p: Provider) {
    && (forall wid :: wid in db.cases ==> SlotsOk(db.cases[wid], wires, workers, p))
    && (forall slot :: slot in wires ==> slot.0 in db.cases)
    && (forall slot :: slot in workers ==> slot in wires)
  }

  /** The POST of attempt `n` settled with `receipt`. */
  predicate SettledBy(wires: map<Slot, Wire>, wid: nat, n: nat, receipt: nat) {
    (wid, n) in wires && wires[(wid, n)] == Answered(Settled(receipt))
  }

  ghost predicate RowOk(db: Db, wires: map<Slot, Wire>, p: Provider, key: OpKey)
    requires key in p.ledger
  {
    var row := p.ledger[key];
    && key.wid in db.cases
    && key == OperationKey(db.cases[key.wid].w)
    && row.refund == Refund(key, db.cases[key.wid].w.order, db.cases[key.wid].w.amount)
    && row.receipt < p.issued
    && exists n :: SettledBy(wires, key.wid, n, row.receipt)
  }

  ghost predicate LedgerOk(db: Db, wires: map<Slot, Wire>, p: Provider) {
    && (forall key :: key in p.ledger ==> RowOk(db, wires, p, key))
    && (forall k, k' ::
      (k in p.ledger && k' in p.ledger
       && p.ledger[k].receipt == p.ledger[k'].receipt) ==> k == k')
  }

  ghost predicate CommandsOnce(db: Db) {
    forall u: nat, v: nat, i: nat, j: nat, tenant: nat, actor: nat, key: string ::
      Issued(db, u, i, tenant, actor, key) && Issued(db, v, j, tenant, actor, key) ==> u == v && i == j
  }

  ghost predicate Inv(s: Sys) {
    && CasesOk(s.db)
    && OrdersOk(s.db)
    && QueueOk(s.db, s.queue)
    && LookupsOk(s.db, s.lookups, s.provider)
    && AllSlotsOk(s.db, s.wires, s.workers, s.provider)
    && LedgerOk(s.db, s.wires, s.provider)
    && CommandsOnce(s.db)
  }
}
