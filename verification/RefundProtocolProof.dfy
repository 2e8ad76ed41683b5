/** Every step of the refund protocol keeps the system invariant. */
module RefundProtocolProof {
  import opened Wrappers
  import opened RefundRows
  import opened RefundSteps
  import opened ProviderRules
  import opened RefundInvariant
  import opened RefundProtocol

  predicate OthersKept<T(==)>(m: map<Slot, T>, m': map<Slot, T>, wid: nat) {
    forall slot: Slot :: slot in m.Keys + m'.Keys && slot.0 != wid ==> slot in m && slot in m' && m[slot] == m'[slot]
  }

  lemma CaseStepTables(db: Db, wid: nat, d: Case)
    requires CasesOk(db) && OrdersOk(db) && wid in db.cases && CaseInv(d)
    requires SameIdentity(db.cases[wid].w, d.w)
    ensures CasesOk(Put(db, wid, d)) && OrdersOk(Put(db, wid, d))
  {
    hide CaseInv;
  }

  lemma CaseStepQueue(db: Db, queue: set<Event>, wid: nat, d: Case)
    requires QueueOk(db, queue) && wid in db.cases && Evolves(db.cases[wid], d) && RowsSent(d, queue)
    ensures QueueOk(Put(db, wid, d), queue)
  {
  }

  lemma CaseStepLookups(db: Db, lookups: set<Lookup>, p: Provider, wid: nat, d: Case)
    requires LookupsOk(db, lookups, p) && wid in db.cases && Evolves(db.cases[wid], d)
    ensures LookupsOk(Put(db, wid, d), lookups, p)
  {
  }

  lemma CaseStepCommands(db: Db, wid: nat, d: Case)
    requires CommandsOnce(db) && wid in db.cases && d.decisions == db.cases[wid].decisions
    requires SameIdentity(db.cases[wid].w, d.w)
    ensures CommandsOnce(Put(db, wid, d))
  {
    assert forall v, i, tenant, actor, key ::
      Issued(Put(db, wid, d), v, i, tenant, actor, key) ==> Issued(db, v, i, tenant, actor, key);
  }

  lemma SlotsElsewhere(c: Case, wires: map<Slot, Wire>, wires': map<Slot, Wire>,
                       workers: map<Slot, Worker>, workers': map<Slot, Worker>, p: Provider)
    requires SlotsOk(c, wires, workers, p)
    requires forall n :: (c.w.id, n) in wires <==> (c.w.id, n) in wires'
    requires forall n :: (c.w.id, n) in wires ==> wires[(c.w.id, n)] == wires'[(c.w.id, n)]
    requires forall n :: (c.w.id, n) in workers <==> (c.w.id, n) in workers'
    requires forall n :: (c.w.id, n) in workers ==> workers[(c.w.id, n)] == workers'[(c.w.id, n)]
    ensures SlotsOk(c, wires', workers', p)
  {
  }

  lemma CaseStepSlots(s: Sys, wid: nat, d: Case, workers: map<Slot, Worker>, wires: map<Slot, Wire>)
    requires IdsOk(s.db) && AllSlotsOk(s.db, s.wires, s.workers, s.provider) && wid in s.db.cases && d.w.id == wid
    requires OthersKept(s.workers, workers, wid) && OthersKept(s.wires, wires, wid)
    requires SlotsOk(d, wires, workers, s.provider)
    ensures AllSlotsOk(Put(s.db, wid, d), wires, workers, s.provider)
  {
    forall v | v in s.db.cases && v != wid
      ensures SlotsOk(s.db.cases[v], wires, workers, s.provider)
    {
      SlotsElsewhere(s.db.cases[v], s.wires, wires, s.workers, workers, s.provider);
    }
  }

  lemma CaseStepLedger(db: Db, p: Provider, wid: nat, d: Case, wires: map<Slot, Wire>, wires': map<Slot, Wire>)
    requires LedgerOk(db, wires, p) && wid in db.cases && SameIdentity(db.cases[wid].w, d.w)
    requires OthersKept(wires, wires', wid)
    requires forall n, r :: SettledBy(wires, wid, n, r) ==> SettledBy(wires', wid, n, r)
    ensures LedgerOk(Put(db, wid, d), wires', p)
  {
    forall key | key in p.ledger
      ensures RowOk(Put(db, wid, d), wires', p, key)
    {
      assert RowOk(db, wires, p, key);
      var receipt := p.ledger[key].receipt;
      var n :| SettledBy(wires, key.wid, n, receipt);
      assert SettledBy(wires', key.wid, n, receipt);
    }
  }

  /** A step that moves one case to `d`, and touches at most that case's workers and wires. */
  lemma CaseStep(s: Sys, wid: nat, d: Case, workers: map<Slot, Worker>, wires: map<Slot, Wire>)
    requires Inv(s) && wid in s.db.cases && CaseInv(d)
    requires Evolves(s.db.cases[wid], d) && d.decisions == s.db.cases[wid].decisions
    requires RowsSent(d, s.queue)
    requires OthersKept(s.workers, workers, wid) && OthersKept(s.wires, wires, wid)
    requires forall n, r :: SettledBy(s.wires, wid, n, r) ==> SettledBy(wires, wid, n, r)
    requires SlotsOk(d, wires, workers, s.provider)
    ensures Inv(With(s, wid, d).(workers := workers, wires := wires))
  {
    CaseStepTables(s.db, wid, d);
    CaseStepQueue(s.db, s.queue, wid, d);
    CaseStepLookups(s.db, s.lookups, s.provider, wid, d);
    CaseStepSlots(s, wid, d, workers, wires);
    CaseStepLedger(s.db, s.provider, wid, d, s.wires, wires);
    CaseStepCommands(s.db, wid, d);
  }

  /** Nothing about slots changes when only pending attempts appear. */
  lemma SlotsFramed(c: Case, d: Case, wires: map<Slot, Wire>, workers: map<Slot, Worker>, p: Provider)
    requires SlotsOk(c, wires, workers, p) && SameIdentity(c.w, d.w)
    requires c.attempts <= d.attempts
    requires forall n :: |c.attempts| <= n < |d.attempts| ==> d.attempts[n].status == Pending
    requires d.w.state == Completed ==> c.w.state == Completed
    ensures SlotsOk(d, wires, workers, p)
  {
  }

  // ---------- one lemma per kind of step ----------

  /** What the invariant says about one case. */
  lemma CaseOf(s: Sys, wid: nat)
    requires Inv(s) && wid in s.db.cases
    ensures CaseInv(s.db.cases[wid]) && s.db.cases[wid].w.id == wid
    ensures RowsSent(s.db.cases[wid], s.queue)
    ensures SlotsOk(s.db.cases[wid], s.wires, s.workers, s.provider)
  {
    hide CaseInv, LookupsOk, LedgerOk, OrdersOk, SlotsOk, CommandsOnce, RowsSent;
  }

  /** A transaction from `c` to `d` that signs, starts and stops nothing. */
  ghost predicate Quiet(c: Case, d: Case, queue: set<Event>) {
    && CaseInv(d)
    && Evolves(c, d)
    && d.decisions == c.decisions
    && RowsSent(d, queue)
    && c.attempts <= d.attempts
    && (forall n :: |c.attempts| <= n < |d.attempts| ==> d.attempts[n].status == Pending)
    && (d.w.state == Completed ==> c.w.state == Completed)
  }

  lemma QuietStep(s: Sys, wid: nat, d: Case)
    requires Inv(s) && wid in s.db.cases && Quiet(s.db.cases[wid], d, s.queue)
    ensures Inv(With(s, wid, d))
  {
    hide Inv, CaseInv, SlotsOk, RowsSent;
    CaseOf(s, wid);
    SlotsFramed(s.db.cases[wid], d, s.wires, s.workers, s.provider);
    CaseStep(s, wid, d, s.workers, s.wires);
    assert With(s, wid, d).(workers := s.workers, wires := s.wires) == With(s, wid, d);
  }

  lemma EscalateQuiet(c: Case, task: nat, now: int, queue: set<Event>)
    requires CaseInv(c) && RowsSent(c, queue) && task < |c.tasks|
    ensures Quiet(c, Escalate(c, task, now), queue)
  {
    hide CaseInv, Evolves;
    EscalateKeeps(c, task, now);
    EscalateEvolves(c, task, now);
  }

  lemma DeadlineKeeps(s: Sys, wid: nat, task: nat)
    requires Inv(s)
    ensures Inv(Apply(s, Deadline(wid, task)))
  {
    hide Inv, CaseInv, Quiet, SlotsOk, RowsSent, Escalate;
    if HasTask(s.db, wid, task) {
      CaseOf(s, wid);
      EscalateQuiet(s.db.cases[wid], task, s.now, s.queue);
      QuietStep(s, wid, Escalate(s.db.cases[wid], task, s.now));
    }
  }

  lemma MarkQuiet(c: Case, no: nat, published: bool, queue: set<Event>)
    requires CaseInv(c) && RowsSent(c, queue) && no < |c.outbox|
    requires published ==> c.outbox[no].event in queue
    ensures Quiet(c, MarkRow(c, no, published), queue)
  {
    var d := MarkRow(c, no, published);
    assert forall i :: 0 <= i < |c.outbox| ==> d.outbox[i].event == c.outbox[i].event;
    if c.w.state == ReadyToExecute && c.attempts == [] {
      var i :| 0 <= i < |c.outbox| && Entitles(c.outbox, c.inbox, c.w.version, i);
      assert Entitles(d.outbox, d.inbox, d.w.version, i);
    }
  }

  lemma MarkKeeps(s: Sys, wid: nat, no: nat, published: bool)
    requires Inv(s)
    ensures Inv(Apply(s, Mark(wid, no, published)))
  {
    hide Inv, CaseInv, Quiet, SlotsOk, RowsSent;
    if Apply(s, Mark(wid, no, published)) != s {
      CaseOf(s, wid);
      MarkQuiet(s.db.cases[wid], no, published, s.queue);
      QuietStep(s, wid, MarkRow(s.db.cases[wid], no, published));
    }
  }

  lemma HandleQuiet(c: Case, e: Event, now: int, queue: set<Event>)
    requires CaseInv(c) && RowsSent(c, queue) && e.no < |c.outbox| && c.outbox[e.no].event == e
    ensures HandleEvent(c, e, now).Ok? && Quiet(c, HandleEvent(c, e, now).value.0, queue)
  {
    hide CaseInv, Evolves;
    HandleKeeps(c, e, now);
  }

  lemma QueueOf(s: Sys, e: Event)
    requires Inv(s) && e in s.queue
    ensures HasEvent(s.db, e.wid, e.no) && s.db.cases[e.wid].outbox[e.no].event == e
  {
    hide CasesOk, LookupsOk, LedgerOk, OrdersOk, AllSlotsOk, CommandsOnce, RowsSent;
  }

  lemma DeliverKeeps(s: Sys, e: Event)
    requires Inv(s)
    ensures Inv(Apply(s, Deliver(e)))
  {
    hide Inv, CaseInv, Quiet, SlotsOk, RowsSent, HandleEvent;
    if e in s.queue && Consume(s.db, e, s.now).Ok? {
      CaseOf(s, e.wid);
      QueueOf(s, e);
      HandleQuiet(s.db.cases[e.wid], e, s.now, s.queue);
      QuietStep(s, e.wid, HandleEvent(s.db.cases[e.wid], e, s.now).value.0);
    }
  }

  lemma CloseQuiet(c: Case, queue: set<Event>)
    requires CaseInv(c) && RowsSent(c, queue) && OperatorClose(c).Ok?
    ensures Quiet(c, OperatorClose(c).value, queue)
  {
    hide CaseInv, Evolves;
    CloseKeeps(c);
    CloseEvolves(c);
  }

  lemma CloseStepKeeps(s: Sys, wid: nat)
    requires Inv(s)
    ensures Inv(Apply(s, CloseBy(wid)))
  {
    hide Inv, CaseInv, Quiet, SlotsOk, RowsSent, OperatorClose;
    if wid in s.db.cases && OperatorClose(s.db.cases[wid]).Ok? {
      CaseOf(s, wid);
      CloseQuiet(s.db.cases[wid], s.queue);
      QuietStep(s, wid, OperatorClose(s.db.cases[wid]).value);
    }
  }

  lemma LeaseSlots(c: Case, n: nat, now: int, wires: map<Slot, Wire>, workers: map<Slot, Worker>, p: Provider)
    requires SlotsOk(c, wires, workers, p) && n < |c.attempts|
    requires c.attempts[n].status == Running ==> c.w.state == Executing
    ensures SlotsOk(RecoverExpired(c, n, now), wires, workers, p)
  {
  }

  lemma LeaseKeeps(s: Sys, wid: nat, n: nat)
    requires Inv(s)
    ensures Inv(Apply(s, LeaseExpires(wid, n)))
  {
    hide Inv, CaseInv, SlotsOk, Evolves;
    if wid in s.db.cases && n < |s.db.cases[wid].attempts| {
      var c := s.db.cases[wid];
      var d := RecoverExpired(c, n, s.now);
      CaseOf(s, wid);
      RecoverKeeps(c, n, s.now);
      RecoverEvolves(c, n, s.now);
      if c.attempts[n].status == Running {
        RunningIsLast(c, n);
      }
      LeaseSlots(c, n, s.now, s.wires, s.workers, s.provider);
      CaseStep(s, wid, d, s.workers, s.wires);
      assert With(s, wid, d).(workers := s.workers, wires := s.wires) == With(s, wid, d);
    }
  }

  lemma PendingIsOnly(c: Case, n: nat)
    requires CaseInv(c) && n < |c.attempts| && c.attempts[n].status == Pending
    ensures n == |c.attempts| - 1
  {
  }

  lemma ClaimSlots(c: Case, wires: map<Slot, Wire>, workers: map<Slot, Worker>, p: Provider, n: nat, until: int)
    requires CaseInv(c) && SlotsOk(c, wires, workers, p) && n == |c.attempts| - 1 && c.attempts[n].status == Pending
    ensures (c.w.id, n) !in wires
    ensures var d := Claim(c, until);
      SlotsOk(d, wires[(c.w.id, n) := Unsent], workers[(c.w.id, n) := Worker(d.attempts[n].fence, PostOf(d, n))], p)
  {
    hide ChainOk, DecisionsOk, LogOk, PromiseOk, StateOk, Paid;
    var d := Claim(c, until);
    assert forall i :: 0 <= i < n ==> d.attempts[i] == c.attempts[i];
  }

  lemma ClaimStepKeeps(s: Sys, wid: nat)
    requires Inv(s) && wid in s.db.cases && Claimable(s.db.cases[wid], s.now)
    ensures Inv(ClaimStep(s, wid))
  {
    hide Inv, CaseInv, SlotsOk, Evolves;
    CaseOf(s, wid);
    var c := s.db.cases[wid];
    var until := s.now + s.settings.leaseSeconds * SECOND;
    var n := PendingNo(c.attempts);
    PendingIsOnly(c, n);
    RefundInvariant.ClaimKeeps(c, s.now, until);
    ClaimEvolves(c, s.now, until);
    ClaimSlots(c, s.wires, s.workers, s.provider, n, until);
    var d := Claim(c, until);
    CaseStep(s, wid, d, s.workers[(wid, n) := Worker(d.attempts[n].fence, PostOf(d, n))],
             s.wires[(wid, n) := Unsent]);
  }

  // ---------- wires and workers ----------

  lemma SlotsWire(c: Case, slot: Slot, wire: Wire, wires: map<Slot, Wire>, workers: map<Slot, Worker>, p: Provider)
    requires SlotsOk(c, wires, workers, p) && slot in wires
    requires c.w.id == slot.0 ==> WireOk(c, slot.1, wire, p)
    ensures SlotsOk(c, wires[slot := wire], workers, p)
  {
    hide WireOk, Paid;
  }

  lemma LedgerWire(db: Db, slot: Slot, wire: Wire, wires: map<Slot, Wire>, p: Provider)
    requires LedgerOk(db, wires, p) && slot in wires
    requires !(wires[slot].Answered? && wires[slot].reply.Settled?)
    ensures LedgerOk(db, wires[slot := wire], p)
  {
    forall key | key in p.ledger
      ensures RowOk(db, wires[slot := wire], p, key)
    {
      assert RowOk(db, wires, p, key);
      var n :| SettledBy(wires, key.wid, n, p.ledger[key].receipt);
      assert SettledBy(wires[slot := wire], key.wid, n, p.ledger[key].receipt);
    }
  }

  /** Moving one wire, with the tables and the provider as they are. */
  lemma WireStep(s: Sys, slot: Slot, wire: Wire)
    requires Inv(s) && slot in s.wires && slot.0 in s.db.cases
    requires !(s.wires[slot].Answered? && s.wires[slot].reply.Settled?)
    requires WireOk(s.db.cases[slot.0], slot.1, wire, s.provider)
    ensures Inv(s.(wires := s.wires[slot := wire]))
  {
    hide CaseInv, OrdersOk, QueueOk, CommandsOnce, WireOk, Paid, SlotsOk, LookupsOk, LedgerOk;
    forall v | v in s.db.cases
      ensures SlotsOk(s.db.cases[v], s.wires[slot := wire], s.workers, s.provider)
    {
      SlotsWire(s.db.cases[v], slot, wire, s.wires, s.workers, s.provider);
    }
    LedgerWire(s.db, slot, wire, s.wires, s.provider);
  }

  lemma WireCase(s: Sys, slot: Slot)
    requires Inv(s) && slot in s.wires
    ensures slot.0 in s.db.cases && WireOk(s.db.cases[slot.0], slot.1, s.wires[slot], s.provider)
    ensures slot in s.workers ==> s.workers[slot].post == PostOf(s.db.cases[slot.0], slot.1)
  {
    hide CaseInv, OrdersOk, QueueOk, CommandsOnce, WireOk, Paid, LookupsOk, LedgerOk;
    assert slot == (slot.0, slot.1);
    assert SlotsOk(s.db.cases[slot.0], s.wires, s.workers, s.provider);
    assert s.db.cases[slot.0].w.id == slot.0;
  }

  lemma SendPostKeeps(s: Sys, slot: Slot)
    requires Inv(s)
    ensures Inv(Apply(s, SendPost(slot)))
  {
    hide Inv;
    if slot in s.workers && slot in s.wires && s.wires[slot] == Unsent {
      WireCase(s, slot);
      WireStep(s, slot, InFlight(s.workers[slot].post));
    }
  }

  lemma DropKeeps(s: Sys, slot: Slot)
    requires Inv(s)
    ensures Inv(Apply(s, Drop(slot)))
  {
    hide Inv;
    if slot in s.wires && s.wires[slot].InFlight? {
      WireCase(s, slot);
      WireStep(s, slot, Dropped);
    }
  }

  lemma CrashKeeps(s: Sys, slot: Slot)
    requires Inv(s)
    ensures Inv(s.(workers := s.workers - {slot}))
  {
    hide CaseInv, OrdersOk, QueueOk, CommandsOnce, LookupsOk, LedgerOk, WireOk, Paid;
    forall v | v in s.db.cases
      ensures SlotsOk(s.db.cases[v], s.wires, s.workers - {slot}, s.provider)
    {
      assert SlotsOk(s.db.cases[v], s.wires, s.workers, s.provider);
    }
  }

  // ---------- the provider ----------

  /** Every receipt already on the ledger stays. */
  predicate LedgerGrows(p: Provider, q: Provider) {
    && p.issued <= q.issued
    && forall key :: key in p.ledger ==>
      key in q.ledger && q.ledger[key].receipt == p.ledger[key].receipt && q.ledger[key].refund == p.ledger[key].refund
  }

  lemma SlotsUnderGrowth(c: Case, wires: map<Slot, Wire>, workers: map<Slot, Worker>, p: Provider, q: Provider)
    requires SlotsOk(c, wires, workers, p) && LedgerGrows(p, q)
    ensures SlotsOk(c, wires, workers, q)
  {
    assert forall key, receipt :: OnLedger(p, key, receipt) ==> OnLedger(q, key, receipt);
  }

  lemma GrowthKeeps(s: Sys, q: Provider)
    requires Inv(s) && LedgerGrows(s.provider, q) && q.ledger.Keys == s.provider.ledger.Keys
    ensures Inv(s.(provider := q))
  {
    hide CaseInv, OrdersOk, QueueOk, CommandsOnce, SlotsOk;
    forall v | v in s.db.cases
      ensures SlotsOk(s.db.cases[v], s.wires, s.workers, q)
    {
      SlotsUnderGrowth(s.db.cases[v], s.wires, s.workers, s.provider, q);
    }
    assert forall key, receipt :: OnLedger(s.provider, key, receipt) ==> OnLedger(q, key, receipt);
    forall key | key in q.ledger
      ensures RowOk(s.db, s.wires, q, key)
    {
      assert RowOk(s.db, s.wires, s.provider, key);
    }
  }

  lemma LedgerRowOf(s: Sys, key: OpKey)
    requires Inv(s) && key in s.provider.ledger
    ensures RowOk(s.db, s.wires, s.provider, key)
  {
    hide CasesOk, OrdersOk, QueueOk, CommandsOnce, LookupsOk, AllSlotsOk, RowOk;
  }

  /** A settled POST: its row is new or already there with the same receipt. */
  lemma PayFacts(s: Sys, slot: Slot)
    requires Inv(s) && slot in s.wires && s.wires[slot].InFlight?
    ensures slot.0 in s.db.cases && slot.1 < |s.db.cases[slot.0].attempts|
    ensures s.wires[slot].post == PostOf(s.db.cases[slot.0], slot.1)
    ensures s.wires[slot].post.refund.key == OperationKey(s.db.cases[slot.0].w)
    ensures var (q, reply) := Pay(s.provider, s.wires[slot].post);
      && LedgerGrows(s.provider, q)
      && WireOk(s.db.cases[slot.0], slot.1, Answered(reply), q)
  {
    hide Inv, CaseInv, SlotsOk;
    WireCase(s, slot);
    CaseOf(s, slot.0);
    AttemptKey(s.db.cases[slot.0], slot.1);
    AttemptMayStillRun(s.db.cases[slot.0], slot.1, s.wires[slot], s.provider);
    var post := s.wires[slot].post;
    if post.refund.key in s.provider.ledger {
      LedgerRowOf(s, post.refund.key);
    }
  }

  lemma AttemptKey(c: Case, n: nat)
    requires CaseInv(c) && n < |c.attempts|
    ensures c.attempts[n].key == OperationKey(c.w)
  {
  }

  /** An attempt whose POST is unanswered has not been reported refused. */
  lemma AttemptMayStillRun(c: Case, n: nat, wire: Wire, p: Provider)
    requires WireOk(c, n, wire, p) && !wire.Answered?
    ensures c.attempts[n].status in {Running, Unknown, Succeeded}
  {
  }

  lemma ArriveKeeps(s: Sys, slot: Slot, refusal: Option<Reply>)
    requires Inv(s)
    ensures Inv(Apply(s, Arrive(slot, refusal)))
  {
    hide Inv, Pay, PostOf, OperationKey;
    if slot in s.wires && s.wires[slot].InFlight? {
      WireCase(s, slot);
      if refusal.Some? && !refusal.value.Settled? {
        WireStep(s, slot, Answered(refusal.value));
      } else {
        PayKeeps(s, slot);
      }
    }
  }

  lemma PayKeeps(s: Sys, slot: Slot)
    requires Inv(s) && slot in s.wires && s.wires[slot].InFlight?
    ensures var (q, reply) := Pay(s.provider, s.wires[slot].post);
      Inv(s.(provider := q, wires := s.wires[slot := Answered(reply)]))
  {
    hide CaseInv, OrdersOk, QueueOk, CommandsOnce, AllSlotsOk, LedgerOk, WireOk;
    PayFacts(s, slot);
    var (q, reply) := Pay(s.provider, s.wires[slot].post);
    if q == s.provider {
      WireStep(s, slot, Answered(reply));
    } else {
      PaySlots(s, slot);
      PayLedger(s, slot);
      assert forall key, receipt :: OnLedger(s.provider, key, receipt) ==> OnLedger(q, key, receipt);
    }
  }

  lemma PaySlots(s: Sys, slot: Slot)
    requires Inv(s) && slot in s.wires && s.wires[slot].InFlight?
    ensures var (q, reply) := Pay(s.provider, s.wires[slot].post);
      AllSlotsOk(s.db, s.wires[slot := Answered(reply)], s.workers, q)
  {
    hide CaseInv, OrdersOk, QueueOk, CommandsOnce, LookupsOk, LedgerOk, Pay, LedgerGrows;
    PayFacts(s, slot);
    var (q, reply) := Pay(s.provider, s.wires[slot].post);
    var wires := s.wires[slot := Answered(reply)];
    forall v | v in s.db.cases
      ensures SlotsOk(s.db.cases[v], wires, s.workers, q)
    {
      SlotsUnderGrowth(s.db.cases[v], s.wires, s.workers, s.provider, q);
    }
  }

  lemma PayLedger(s: Sys, slot: Slot)
    requires Inv(s) && slot in s.wires && s.wires[slot].InFlight?
    requires Pay(s.provider, s.wires[slot].post).0 != s.provider
    ensures var (q, reply) := Pay(s.provider, s.wires[slot].post);
      LedgerOk(s.db, s.wires[slot := Answered(reply)], q)
  {
    hide CaseInv, OrdersOk, QueueOk, CommandsOnce, LookupsOk, AllSlotsOk;
    PayFacts(s, slot);
    var (q, reply) := Pay(s.provider, s.wires[slot].post);
    var wires := s.wires[slot := Answered(reply)];
    var mine := s.wires[slot].post.refund.key;
    assert slot == (slot.0, slot.1);
    forall key | key in q.ledger
      ensures RowOk(s.db, wires, q, key)
    {
      if key == mine {
        assert SettledBy(wires, slot.0, slot.1, q.ledger[key].receipt);
      } else {
        assert RowOk(s.db, s.wires, s.provider, key);
        var n :| SettledBy(s.wires, key.wid, n, s.provider.ledger[key].receipt);
        assert SettledBy(wires, key.wid, n, q.ledger[key].receipt);
      }
    }
    forall k, k' | k in q.ledger && k' in q.ledger && q.ledger[k].receipt == q.ledger[k'].receipt
      ensures k == k'
    {
      assert k in s.provider.ledger ==> RowOk(s.db, s.wires, s.provider, k);
      assert k' in s.provider.ledger ==> RowOk(s.db, s.wires, s.provider, k');
    }
  }

  lemma RestoreKeeps(s: Sys, key: OpKey)
    requires Inv(s)
    ensures Inv(Apply(s, RestoreProvider(key)))
  {
    hide Inv;
    var q := Restore(s.provider, key);
    assert q.ledger.Keys == s.provider.ledger.Keys;
    GrowthKeeps(s, q);
  }

  // ---------- reports ----------

  lemma ReportSlots(c: Case, n: nat, fence: nat, o: Outcome, now: int, wire: Wire,
                    wires: map<Slot, Wire>, workers: map<Slot, Worker>, p: Provider)
    requires SlotsOk(c, wires, workers, p) && (c.w.id, n) in wires && wires[(c.w.id, n)] == wire
    requires o == Ambiguous || (wire.Answered? && o == OutcomeOf(wire, false))
    requires n < |c.attempts| ==> c.attempts[n].key == OperationKey(c.w)
    ensures SlotsOk(Finish(c, n, fence, o, now), wires, workers - {(c.w.id, n)}, p)
  {
    if StillClaimed(c, n, fence) {
      var d := Finish(c, n, fence, o, now);
      assert d.attempts[n].status == OutcomeStatus(o);
      assert forall i :: 0 <= i < |c.attempts| && i != n ==> d.attempts[i] == c.attempts[i];
    }
  }

  lemma FinishFrame(c: Case, n: nat, fence: nat, o: Outcome, now: int, queue: set<Event>)
    requires RowsSent(c, queue)
    ensures var d := Finish(c, n, fence, o, now);
      d.decisions == c.decisions && RowsSent(d, queue) && d.w.id == c.w.id
  {
  }

  lemma ReportKeeps(s: Sys, slot: Slot, gaveUp: bool)
    requires Inv(s)
    ensures Inv(Apply(s, Report(slot, gaveUp)))
  {
    hide Inv, CaseInv, SlotsOk, Evolves, RowsSent, Finish, WireOk;
    if slot in s.workers && slot in s.wires && slot.0 in s.db.cases && (gaveUp || s.wires[slot].Answered?) {
      assert slot == (slot.0, slot.1);
      var c := s.db.cases[slot.0];
      var n, fence, o := slot.1, s.workers[slot].fence, OutcomeOf(s.wires[slot], gaveUp);
      CaseOf(s, slot.0);
      FinishKeeps(c, n, fence, o, s.now);
      FinishEvolves(c, n, fence, o, s.now);
      FinishFrame(c, n, fence, o, s.now, s.queue);
      if n < |c.attempts| {
        AttemptKey(c, n);
      }
      ReportSlots(c, n, fence, o, s.now, s.wires[slot], s.wires, s.workers, s.provider);
      CaseStep(s, slot.0, Finish(c, n, fence, o, s.now), s.workers - {slot}, s.wires);
    }
  }

  // ---------- reconcilers ----------

  lemma LookupStep(s: Sys, l: Lookup)
    requires Inv(s) && l.wid in s.db.cases
    requires l.key == OperationKey(s.db.cases[l.wid].w) && l.version <= s.db.cases[l.wid].w.version
    requires l.version == s.db.cases[l.wid].w.version ==> Reconcilable(s.db.cases[l.wid])
    requires l.answer.Some? && l.answer.value.Found? ==> OnLedger(s.provider, l.key, l.answer.value.receipt)
    ensures Inv(s.(lookups := s.lookups + {l}))
  {
    hide CasesOk, OrdersOk, QueueOk, CommandsOnce, AllSlotsOk, LedgerOk;
  }

  lemma LookupOf(s: Sys, l: Lookup)
    requires Inv(s) && l in s.lookups
    ensures l.wid in s.db.cases
    ensures l.key == OperationKey(s.db.cases[l.wid].w) && l.version <= s.db.cases[l.wid].w.version
    ensures l.version == s.db.cases[l.wid].w.version ==> Reconcilable(s.db.cases[l.wid])
    ensures l.answer.Some? && l.answer.value.Found? ==> OnLedger(s.provider, l.key, l.answer.value.receipt)
  {
    hide CasesOk, OrdersOk, QueueOk, CommandsOnce, AllSlotsOk, LedgerOk;
  }

  lemma ReadKeeps(s: Sys, wid: nat)
    requires Inv(s)
    ensures Inv(Apply(s, ReadToReconcile(wid)))
  {
    hide Inv;
    if wid in s.db.cases && Reconcilable(s.db.cases[wid]) {
      var w := s.db.cases[wid].w;
      LookupStep(s, Lookup(wid, w.version, OperationKey(w), None));
    }
  }

  lemma AskKeeps(s: Sys, l: Lookup, down: bool)
    requires Inv(s)
    ensures Inv(Apply(s, AskProvider(l, down)))
  {
    hide Inv, Reconcilable;
    if l in s.lookups && l.answer.None? {
      LookupOf(s, l);
      LookupStep(s, l.(answer := Some(if down then Unavailable else Status(s.provider, l.key))));
    }
  }

  /** Behind a ledger row stands an attempt of unknown outcome, once nothing runs and nothing is settled. */
  lemma RowHasUnknown(s: Sys, wid: nat)
    requires Inv(s) && wid in s.db.cases && Reconcilable(s.db.cases[wid])
    requires OperationKey(s.db.cases[wid].w) in s.provider.ledger
    ensures exists n :: 0 <= n < |s.db.cases[wid].attempts| && s.db.cases[wid].attempts[n].status == Unknown
  {
    hide Inv, CaseInv;
    CaseOf(s, wid);
    var c := s.db.cases[wid];
    var key := OperationKey(c.w);
    LedgerRowOf(s, key);
    var n: nat :| SettledBy(s.wires, wid, n, s.provider.ledger[key].receipt);
    assert WireOk(c, n, s.wires[(wid, n)], s.provider);
    assert c.attempts[n].status in {Running, Unknown, Succeeded};
    NotActive(c, n);
  }

  lemma NotActive(c: Case, n: nat)
    requires CaseInv(c) && Reconcilable(c) && n < |c.attempts|
    ensures c.attempts[n].status !in {Running, Succeeded}
  {
  }

  lemma FoundSlots(c: Case, receipt: nat, now: int, wires: map<Slot, Wire>, workers: map<Slot, Worker>, p: Provider)
    requires SlotsOk(c, wires, workers, p) && Reconcilable(c)
    requires forall n :: 0 <= n < |c.attempts| ==> c.attempts[n].key == OperationKey(c.w)
    requires OnLedger(p, OperationKey(c.w), receipt)
    requires exists n :: 0 <= n < |c.attempts| && c.attempts[n].status == Unknown
    ensures SlotsOk(ReconcileApply(c, c.w.version, Found(receipt), now), wires, workers, p)
  {
    var d := ReconcileApply(c, c.w.version, Found(receipt), now);
    var n :| 0 <= n < |c.attempts| && c.attempts[n].status == Unknown;
    assert d.attempts[n].status == Succeeded;
  }

  lemma ReconcileFrame(c: Case, version: nat, a: Answer, now: int, queue: set<Event>)
    requires RowsSent(c, queue)
    ensures var d := ReconcileApply(c, version, a, now);
      d.decisions == c.decisions && RowsSent(d, queue)
  {
  }

  lemma ApplyAnswerKeeps(s: Sys, l: Lookup)
    requires Inv(s)
    ensures Inv(Apply(s, ApplyAnswer(l)))
  {
    hide Inv, CaseInv, SlotsOk, Evolves, RowsSent, Reconcilable;
    if l in s.lookups && l.answer.Some? && l.wid in s.db.cases {
      var c := s.db.cases[l.wid];
      var d := ReconcileApply(c, l.version, l.answer.value, s.now);
      CaseOf(s, l.wid);
      LookupOf(s, l);
      ReconcileKeeps(c, l.version, l.answer.value, s.now);
      ReconcileEvolves(c, l.version, l.answer.value, s.now);
      ReconcileFrame(c, l.version, l.answer.value, s.now, s.queue);
      if l.version == c.w.version && l.answer.value.Found? {
        RowHasUnknown(s, l.wid);
        forall n | 0 <= n < |c.attempts| ensures c.attempts[n].key == OperationKey(c.w) { AttemptKey(c, n); }
        FoundSlots(c, l.answer.value.receipt, s.now, s.wires, s.workers, s.provider);
      } else {
        SlotsFramed(c, d, s.wires, s.workers, s.provider);
      }
      CaseStep(s, l.wid, d, s.workers, s.wires);
      assert With(s, l.wid, d).(workers := s.workers, wires := s.wires) == With(s, l.wid, d);
    }
  }

  // ---------- requests and decisions ----------

  lemma OpenFrame(w: Workflow, order: Order, now: int)
    ensures var c := OpenCase(w, order, now);
      && SameIdentity(w, c.w) && c.decisions == [] && c.attempts == []
      && (w.state == Received ==> c.w.state != Completed)
      && (forall i :: 0 <= i < |c.outbox| ==> !c.outbox[i].published)
  {
  }

  lemma NewCaseTables(s: Sys, wid: nat, c: Case, db: Db)
    requires Inv(s) && wid !in s.db.cases && c.w.id == wid && CaseInv(c)
    requires BackedByOrder(c.w, s.db.orders)
    requires forall v :: v in s.db.cases ==> s.db.cases[v].w.order != c.w.order
    requires forall v :: v in s.db.cases ==> !SameKey(s.db.cases[v].w, c.w.tenant, c.w.requestKey)
    requires db.cases == s.db.cases[wid := c] && db.orders == s.db.orders
    ensures CasesOk(db) && OrdersOk(db)
  {
    hide CaseInv, AllSlotsOk, LedgerOk, CommandsOnce, QueueOk, LookupsOk;
  }

  lemma NewCaseMessages(s: Sys, wid: nat, c: Case, db: Db)
    requires Inv(s) && wid !in s.db.cases && RowsSent(c, {}) && db.cases == s.db.cases[wid := c]
    ensures QueueOk(db, s.queue) && LookupsOk(db, s.lookups, s.provider)
  {
    hide CasesOk, OrdersOk, AllSlotsOk, LedgerOk, CommandsOnce;
  }

  lemma NewCaseSlots(s: Sys, wid: nat, c: Case, db: Db)
    requires Inv(s) && wid !in s.db.cases && c.w.id == wid
    requires c.attempts == [] && c.w.state != Completed && db.cases == s.db.cases[wid := c]
    ensures AllSlotsOk(db, s.wires, s.workers, s.provider)
  {
    hide CaseInv, OrdersOk, QueueOk, LookupsOk, LedgerOk, CommandsOnce, WireOk;
    assert SlotsOk(c, s.wires, s.workers, s.provider);
  }

  lemma NewCaseCommands(db: Db, db': Db, wid: nat)
    requires CommandsOnce(db) && wid !in db.cases && wid in db'.cases
    requires db'.cases == db.cases[wid := db'.cases[wid]] && db'.cases[wid].decisions == []
    ensures CommandsOnce(db')
  {
    assert forall v, i, tenant, actor, key :: Issued(db', v, i, tenant, actor, key) ==> Issued(db, v, i, tenant, actor, key);
  }

  /** A new case brings no workers, wires, receipts or decisions with it. */
  lemma NewCaseKeeps(s: Sys, wid: nat, c: Case, team: map<nat, TeamCase>)
    requires Inv(s) && wid !in s.db.cases && c.w.id == wid && CaseInv(c)
    requires c.decisions == [] && c.attempts == [] && c.w.state != Completed && RowsSent(c, {})
    requires BackedByOrder(c.w, s.db.orders)
    requires forall v :: v in s.db.cases ==> s.db.cases[v].w.order != c.w.order
    requires forall v :: v in s.db.cases ==> !SameKey(s.db.cases[v].w, c.w.tenant, c.w.requestKey)
    ensures Inv(s.(db := s.db.(cases := s.db.cases[wid := c], team := team)))
  {
    hide CasesOk, CaseInv, OrdersOk, QueueOk, LookupsOk, AllSlotsOk, LedgerOk, CommandsOnce;
    var db := s.db.(cases := s.db.cases[wid := c], team := team);
    NewCaseTables(s, wid, c, db);
    NewCaseMessages(s, wid, c, db);
    NewCaseSlots(s, wid, c, db);
    NewCaseCommands(s.db, db, wid);
    NewCaseLedger(s.db, db, s.wires, s.provider, wid);
  }

  lemma NewCaseLedger(db: Db, db': Db, wires: map<Slot, Wire>, p: Provider, wid: nat)
    requires LedgerOk(db, wires, p) && wid !in db.cases && wid in db'.cases
    requires db'.cases == db.cases[wid := db'.cases[wid]]
    ensures LedgerOk(db', wires, p)
  {
    forall key | key in p.ledger
      ensures RowOk(db', wires, p, key)
    {
      assert RowOk(db, wires, p, key);
    }
  }

  /** What an accepted submission leaves in the tables. */
  lemma SubmitFacts(s: Sys, who: Principal, body: Body, wid: nat)
    requires Inv(s) && wid !in s.db.cases && body.amount > 0
    requires var r := Create(s.db, who, body, wid, s.settings, s.now); r.Ok? && r.value != s.db
    ensures body.order in s.db.orders
    ensures var w := NewWorkflow(who, body, wid, s.settings, EvidenceFor(s.db.team, body), s.now);
      && BackedByOrder(w, s.db.orders)
      && (forall v :: v in s.db.cases ==> s.db.cases[v].w.order != w.order)
      && (forall v :: v in s.db.cases ==> !SameKey(s.db.cases[v].w, w.tenant, w.requestKey))
  {
    hide CasesOk, QueueOk, LookupsOk, AllSlotsOk, LedgerOk, CommandsOnce, TeamRefusal, OpenCase;
    assert OrderRefusal(s.db, who, body).None?;
  }

  lemma SubmitKeeps(s: Sys, who: Principal, body: Body, wid: nat)
    requires Inv(s)
    ensures Inv(Apply(s, Submit(who, body, wid)))
  {
    hide Inv, CaseInv, OpenCase, TeamRefusal, OrderRefusal;
    var r := Create(s.db, who, body, wid, s.settings, s.now);
    if wid !in s.db.cases && body.amount > 0 && r.Ok? && r.value != s.db {
      SubmitFacts(s, who, body, wid);
      var w := NewWorkflow(who, body, wid, s.settings, EvidenceFor(s.db.team, body), s.now);
      OpenKeeps(w, s.db.orders[body.order], s.now);
      OpenFrame(w, s.db.orders[body.order], s.now);
      NewCaseKeeps(s, wid, OpenCase(w, s.db.orders[body.order], s.now), SubmitTeamCase(s.db.team, body.teamCase, wid));
    }
  }

  lemma DecisionFrame(c: Case, task: nat, who: Principal, body: DecisionBody, now: int, queue: set<Event>)
    requires RowsSent(c, queue) && task < |c.tasks|
    ensures var d := RecordDecision(c, task, who, body, now);
      && SameIdentity(c.w, d.w) && d.attempts == c.attempts && d.w.state != Completed && RowsSent(d, queue)
      && |d.decisions| == |c.decisions| + 1 && d.decisions[..|c.decisions|] == c.decisions
      && d.decisions[|c.decisions|].actor == who.id && d.decisions[|c.decisions|].key == body.key
  {
  }

  /** A new decision under a fresh command key leaves every command key used once. */
  lemma FreshCommand(db: Db, wid: nat, d: Case, actor: nat, key: string)
    requires CommandsOnce(db) && wid in db.cases && SameIdentity(db.cases[wid].w, d.w)
    requires var k := |db.cases[wid].decisions|;
      |d.decisions| == k + 1 && d.decisions[..k] == db.cases[wid].decisions
      && d.decisions[k].actor == actor && d.decisions[k].key == key
    requires !exists v: nat, i: nat :: Issued(db, v, i, d.w.tenant, actor, key)
    ensures CommandsOnce(Put(db, wid, d))
  {
    var db' := Put(db, wid, d);
    var k := |db.cases[wid].decisions|;
    assert forall i :: 0 <= i < k ==> d.decisions[i] == d.decisions[..k][i];
    assert forall v: nat, i: nat, t: nat, a: nat, x: string :: Issued(db', v, i, t, a, x) ==>
      Issued(db, v, i, t, a, x) || (v == wid && i == k && t == d.w.tenant && a == actor && x == key);
  }

  lemma DecideKeeps(s: Sys, who: Principal, wid: nat, task: nat, body: DecisionBody)
    requires Inv(s)
    ensures Inv(Apply(s, DecideBy(who, wid, task, body)))
  {
    hide Inv, CaseInv, Evolves, SlotsOk, RowsSent, RecordDecision, DecisionRefusal;
    var r := Decide(s.db, who, wid, task, body, s.now);
    if r.Ok? && r.value != s.db {
      var c := s.db.cases[wid];
      var d := RecordDecision(c, task, who, body, s.now);
      CaseOf(s, wid);
      DecisionKeeps(c, task, who, body, s.now);
      DecisionEvolves(c, task, who, body, s.now);
      DecisionFrame(c, task, who, body, s.now, s.queue);
      SlotsFramed(c, d, s.wires, s.workers, s.provider);
      SignedStep(s, wid, d, who.id, body.key);
    }
  }

  lemma SignedStep(s: Sys, wid: nat, d: Case, actor: nat, key: string)
    requires Inv(s) && wid in s.db.cases && CaseInv(d) && Evolves(s.db.cases[wid], d)
    requires RowsSent(d, s.queue) && SlotsOk(d, s.wires, s.workers, s.provider)
    requires var k := |s.db.cases[wid].decisions|;
      |d.decisions| == k + 1 && d.decisions[..k] == s.db.cases[wid].decisions
      && d.decisions[k].actor == actor && d.decisions[k].key == key
    requires !exists v: nat, i: nat :: Issued(s.db, v, i, d.w.tenant, actor, key)
    ensures Inv(With(s, wid, d))
  {
    hide CaseInv;
    CaseStepTables(s.db, wid, d);
    CaseStepQueue(s.db, s.queue, wid, d);
    CaseStepLookups(s.db, s.lookups, s.provider, wid, d);
    CaseStepSlots(s, wid, d, s.workers, s.wires);
    CaseStepLedger(s.db, s.provider, wid, d, s.wires, s.wires);
    FreshCommand(s.db, wid, d, actor, key);
  }

  // ---------- the environment ----------

  /** More orders, or other team cases, disturb nothing. */
  lemma CatalogueKeeps(s: Sys, orders: map<nat, Order>, team: map<nat, TeamCase>)
    requires Inv(s) && forall order :: order in s.db.orders ==> order in orders && orders[order] == s.db.orders[order]
    ensures Inv(s.(db := s.db.(orders := orders, team := team)))
  {
    hide CaseInv, SlotsOk, RowsSent, Reconcilable, OnLedger, OrdersOk, LedgerOk, CommandsOnce;
    var db := s.db.(orders := orders, team := team);
    OrdersMore(s.db, orders, team);
    LedgerOfCases(s.db, db, s.wires, s.provider);
    CommandsOfCases(s.db, db);
  }

  lemma LedgerOfCases(db: Db, other: Db, wires: map<Slot, Wire>, p: Provider)
    requires other.cases == db.cases && LedgerOk(db, wires, p)
    ensures LedgerOk(other, wires, p)
  {
    hide SettledBy;
    forall key | key in p.ledger
      ensures RowOk(other, wires, p, key)
    {
      assert RowOk(db, wires, p, key);
    }
  }

  lemma CommandsOfCases(db: Db, other: Db)
    requires other.cases == db.cases && CommandsOnce(db)
    ensures CommandsOnce(other)
  {
    assert forall v, i, tenant, actor, key :: Issued(other, v, i, tenant, actor, key) ==> Issued(db, v, i, tenant, actor, key);
  }

  lemma OrdersMore(db: Db, orders: map<nat, Order>, team: map<nat, TeamCase>)
    requires OrdersOk(db) && forall order :: order in db.orders ==> order in orders && orders[order] == db.orders[order]
    ensures OrdersOk(db.(orders := orders, team := team))
  {
  }

  lemma SendKeeps(s: Sys, wid: nat, no: nat)
    requires Inv(s)
    ensures Inv(Apply(s, Send(wid, no)))
  {
    hide OrdersOk, LookupsOk, AllSlotsOk, LedgerOk, CommandsOnce, ChainOk, DecisionsOk, AttemptsOk, PromiseOk, StateOk;
    if HasEvent(s.db, wid, no) {
      var c := s.db.cases[wid];
      assert CaseInv(c) && EventOk(c.outbox[no].event, no, c.w, c.tasks);
    }
  }

  /** Every step keeps the invariant, enabled or not. */
  lemma StepKeeps(s: Sys, step: Step)
    requires Inv(s)
    ensures Inv(Apply(s, step))
  {
    hide CasesOk, OrdersOk, QueueOk, LookupsOk, AllSlotsOk, LedgerOk, CommandsOnce;
    match step
    case Tick(_) =>
    case AddOrder(order, row) =>
      if order !in s.db.orders { CatalogueKeeps(s, s.db.orders[order := row], s.db.team); }
    case MoveTeamCase(id, teamCase) =>
      if TeamMay(s.db.team, id, teamCase) { CatalogueKeeps(s, s.db.orders, s.db.team[id := teamCase]); }
    case Submit(who, body, wid) => SubmitKeeps(s, who, body, wid);
    case DecideBy(who, wid, task, decision) => DecideKeeps(s, who, wid, task, decision);
    case Deadline(wid, task) => DeadlineKeeps(s, wid, task);
    case Send(wid, no) => SendKeeps(s, wid, no);
    case Mark(wid, no, published) => MarkKeeps(s, wid, no, published);
    case Deliver(e) => DeliverKeeps(s, e);
    case ClaimBy(wid) =>
      if wid in s.db.cases && Claimable(s.db.cases[wid], s.now) { ClaimStepKeeps(s, wid); }
    case SendPost(slot) => SendPostKeeps(s, slot);
    case Arrive(slot, refusal) => ArriveKeeps(s, slot, refusal);
    case Drop(slot) => DropKeeps(s, slot);
    case Report(slot, gaveUp) => ReportKeeps(s, slot, gaveUp);
    case Crash(slot) => CrashKeeps(s, slot);
    case LeaseExpires(wid, n) => LeaseKeeps(s, wid, n);
    case ReadToReconcile(wid) => ReadKeeps(s, wid);
    case AskProvider(l, down) => AskKeeps(s, l, down);
    case ApplyAnswer(l) => ApplyAnswerKeeps(s, l);
    case RestoreProvider(key) => RestoreKeeps(s, key);
    case CloseBy(wid) => CloseStepKeeps(s, wid);
  }

  lemma {:induction false} RunKeeps(s: Sys, steps: seq<Step>)
    requires Inv(s)
    ensures Inv(Run(s, steps))
  {
    hide Inv, Apply;
    if steps == [] {
    } else {
      RunKeeps(s, steps[..|steps| - 1]);
      StepKeeps(Run(s, steps[..|steps| - 1]), steps[|steps| - 1]);
    }
  }

  lemma StartInv(now: int, settings: Settings)
    ensures Inv(Start(now, settings))
  {
  }
}
