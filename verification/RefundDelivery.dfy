/**
 Outbox plus inbox.  Delivery is at least once and unordered; its effect is that of
 one in-order delivery, and an approval is never lost while a case waits on it.
 */
module RefundDelivery {
  import opened RefundRows
  import opened RefundSteps
  import opened RefundInvariant
  import opened RefundProtocol
  import opened RefundProtocolProof
  import opened RefundTheorems

  // ---------- nothing is lost ----------

  /** The first attempt of an approved case exists, or the event that will create it is still due. */
  ghost predicate ApprovalAlive(c: Case) {
    || (|c.attempts| == 1 && c.attempts[0].status == Pending)
    || (c.attempts == [] && exists i :: 0 <= i < |c.outbox| && Entitles(c.outbox, c.inbox, c.w.version, i))
  }

  lemma ReadyIsAlive(c: Case)
    requires CaseInv(c) && c.w.state == ReadyToExecute
    ensures ApprovalAlive(c)
  {
    hide ChainOk, DecisionsOk, LogOk, StateOk;
  }

  lemma ApprovalNotLost(now: int, settings: Settings, steps: seq<Step>, wid: nat)
    requires var s := Reached(now, settings, steps);
      wid in s.db.cases && s.db.cases[wid].w.state == ReadyToExecute
    ensures ApprovalAlive(Reached(now, settings, steps).db.cases[wid])
  {
    hide Inv, CaseInv, ApprovalAlive;
    var s := Reached(now, settings, steps);
    ReachedInv(now, settings, steps);
    CaseOf(s, wid);
    ReadyIsAlive(s.db.cases[wid]);
  }

  /** Sending and delivering the due event, in any such state, creates exactly the first attempt. */
  lemma DueApprovalSchedules(s: Sys, wid: nat, i: nat)
    requires Inv(s) && wid in s.db.cases
    requires var c := s.db.cases[wid];
      c.w.state == ReadyToExecute && c.attempts == [] && Entitles(c.outbox, c.inbox, c.w.version, i)
    ensures var c := s.db.cases[wid]; var e := c.outbox[i].event;
      var t := Apply(Apply(s, Send(wid, i)), Deliver(e));
      t == s.(queue := s.queue + {e},
              db := Put(s.db, wid, NewAttempt(c.(inbox := c.inbox[i := e]), 0, s.now)))
  {
    hide Inv, ChainOk, DecisionsOk, AttemptsOk, PromiseOk;
    CaseOf(s, wid);
    var c := s.db.cases[wid];
    assert EventOk(c.outbox[i].event, i, c.w, c.tasks);
  }

  // ---------- effectively once ----------

  ghost function Handled(s: Sys, e: Event): Sys {
    Apply(s, Deliver(e))
  }

  ghost function HandledAll(s: Sys, es: seq<Event>): Sys {
    if es == [] then s else Handled(HandledAll(s, es[..|es| - 1]), es[|es| - 1])
  }

  ghost predicate Sent(s: Sys, es: seq<Event>) {
    forall i :: 0 <= i < |es| ==> es[i] in s.queue
  }

  lemma HandledKeeps(s: Sys, e: Event)
    requires Inv(s)
    ensures Inv(Handled(s, e)) && Handled(s, e).queue == s.queue
  {
    hide Inv, HandleEvent;
    StepKeeps(s, Deliver(e));
  }

  /** The effect of a sent event on the case it names. */
  lemma HandledIs(s: Sys, e: Event)
    requires Inv(s) && e in s.queue
    ensures e.wid in s.db.cases && CaseInv(s.db.cases[e.wid])
    ensures e.no < |s.db.cases[e.wid].outbox| && s.db.cases[e.wid].outbox[e.no].event == e
    ensures HandleEvent(s.db.cases[e.wid], e, s.now).Ok?
    ensures Handled(s, e) == With(s, e.wid, HandleEvent(s.db.cases[e.wid], e, s.now).value.0)
  {
    hide Inv, CaseInv, HandleEvent;
    QueueOf(s, e);
    CaseOf(s, e.wid);
    HandleKeeps(s.db.cases[e.wid], e, s.now);
    EventNames(s.db.cases[e.wid], e.no);
  }

  lemma EventNames(c: Case, i: nat)
    requires CaseInv(c) && i < |c.outbox|
    ensures var e := c.outbox[i].event; e.wid == c.w.id && e.tenant == c.w.tenant && e.no == i && e.schema == 1
  {
    hide ChainOk, DecisionsOk, AttemptsOk, PromiseOk, StateOk;
  }

  /** A second delivery of the same event does nothing. */
  lemma HandledTwice(s: Sys, e: Event)
    requires Inv(s) && e in s.queue
    ensures Handled(Handled(s, e), e) == Handled(s, e)
  {
    hide Inv, CaseInv, Apply, Consume, ValidApproval;
    HandledIs(s, e);
    HandledKeeps(s, e);
    var t := Handled(s, e);
    HandledIs(t, e);
    HandleKeeps(s.db.cases[e.wid], e, s.now);
    InboxHolds(s.db.cases[e.wid], e, s.now);
    assert With(t, e.wid, t.db.cases[e.wid]) == t;
  }

  lemma InboxHolds(c: Case, e: Event, now: int)
    requires CaseInv(c) && e.no < |c.outbox| && c.outbox[e.no].event == e && HandleEvent(c, e, now).Ok?
    ensures var d := HandleEvent(c, e, now).value.0; e.no in d.inbox && d.inbox[e.no] == e
  {
    hide ChainOk, DecisionsOk, AttemptsOk, PromiseOk, StateOk, ValidApproval;
  }

  /** Two events of one case commute: at most one of them has an effect beyond the inbox. */
  lemma EventsCommute(c: Case, e: Event, f: Event, now: int)
    requires CaseInv(c) && e.no != f.no
    requires e.no < |c.outbox| && c.outbox[e.no].event == e && f.no < |c.outbox| && c.outbox[f.no].event == f
    requires HandleEvent(c, e, now).Ok? && HandleEvent(c, f, now).Ok?
    ensures var ce := HandleEvent(c, e, now).value.0; var cf := HandleEvent(c, f, now).value.0;
      && HandleEvent(ce, f, now).Ok? && HandleEvent(cf, e, now).Ok?
      && HandleEvent(ce, f, now).value.0 == HandleEvent(cf, e, now).value.0
  {
    hide ChainOk, DecisionsOk, AttemptsOk, LogOk, StateOk, Pause;
    assert c.w.state != Received;
    assert c.inbox[e.no := e][f.no := f] == c.inbox[f.no := f][e.no := e];
  }

  lemma HandledCommute(s: Sys, e: Event, f: Event)
    requires Inv(s) && e in s.queue && f in s.queue
    ensures Handled(Handled(s, e), f) == Handled(Handled(s, f), e)
  {
    hide Inv, CaseInv, Apply, HandleEvent;
    HandledKeeps(s, e);
    HandledKeeps(s, f);
    HandledIs(s, e);
    HandledIs(s, f);
    HandledIs(Handled(s, e), f);
    HandledIs(Handled(s, f), e);
    if e.wid == f.wid {
      if e.no == f.no {
        assert e == f;
      } else {
        EventsCommute(s.db.cases[e.wid], e, f, s.now);
      }
    } else {
      CasesCommute(s.db.cases, e.wid, HandleEvent(s.db.cases[e.wid], e, s.now).value.0,
                   f.wid, HandleEvent(s.db.cases[f.wid], f, s.now).value.0);
    }
  }

  lemma CasesCommute(m: map<nat, Case>, u: nat, c: Case, v: nat, d: Case)
    requires u != v
    ensures m[u := c][v := d] == m[v := d][u := c]
  {
  }

  lemma {:induction false} HandledAllKeeps(s: Sys, es: seq<Event>)
    requires Inv(s)
    ensures Inv(HandledAll(s, es)) && HandledAll(s, es).queue == s.queue
  {
    hide Inv, Handled;
    if es != [] {
      HandledAllKeeps(s, es[..|es| - 1]);
      HandledKeeps(HandledAll(s, es[..|es| - 1]), es[|es| - 1]);
    }
  }

  /** An extra delivery may as well have come first. */
  lemma {:induction false} ExtraFirst(s: Sys, es: seq<Event>, e: Event)
    requires Inv(s) && Sent(s, es) && e in s.queue
    ensures Handled(HandledAll(s, es), e) == HandledAll(Handled(s, e), es)
  {
    hide Inv, Handled;
    if es != [] {
      var front, last := es[..|es| - 1], es[|es| - 1];
      HandledAllKeeps(s, front);
      HandledCommute(HandledAll(s, front), last, e);
      ExtraFirst(s, front, e);
    }
  }

  /** If it is among the deliveries anyway, having it first makes no difference. */
  lemma {:induction false} FirstIsExtra(s: Sys, es: seq<Event>, e: Event)
    requires Inv(s) && Sent(s, es) && e in es
    ensures HandledAll(Handled(s, e), es) == HandledAll(s, es)
  {
    hide Inv, Handled;
    var front, last := es[..|es| - 1], es[|es| - 1];
    HandledAllKeeps(s, front);
    if e == last {
      HandledTwice(HandledAll(s, front), e);
      ExtraFirst(s, front, e);
    } else {
      assert e in front;
      FirstIsExtra(s, front, e);
    }
  }

  lemma {:induction false} RepeatsDoNothing(s: Sys, es: seq<Event>, extra: seq<Event>)
    requires Inv(s) && Sent(s, es) && forall i :: 0 <= i < |extra| ==> extra[i] in es
    ensures HandledAll(HandledAll(s, es), extra) == HandledAll(s, es)
  {
    hide Inv, Handled;
    if extra != [] {
      var front, last := extra[..|extra| - 1], extra[|extra| - 1];
      RepeatsDoNothing(s, es, front);
      ExtraFirst(s, es, last);
      FirstIsExtra(s, es, last);
    }
  }

  lemma {:induction false} BatchesCommute(s: Sys, es: seq<Event>, fs: seq<Event>)
    requires Inv(s) && Sent(s, es) && Sent(s, fs)
    ensures HandledAll(HandledAll(s, es), fs) == HandledAll(HandledAll(s, fs), es)
  {
    hide Inv, Handled;
    if fs != [] {
      var front, last := fs[..|fs| - 1], fs[|fs| - 1];
      BatchesCommute(s, es, front);
      HandledAllKeeps(s, front);
      ExtraFirst(HandledAll(s, front), es, last);
    }
  }

  /** Any repetition and any order of the same sent events leaves the same state. */
  lemma EffectivelyOnce(s: Sys, es: seq<Event>, fs: seq<Event>)
    requires Inv(s) && Sent(s, es)
    requires forall e :: e in es <==> e in fs
    ensures HandledAll(s, es) == HandledAll(s, fs)
  {
    hide Inv, Handled;
    forall i | 0 <= i < |fs| ensures fs[i] in s.queue {
      assert fs[i] in es;
    }
    RepeatsDoNothing(s, es, fs);
    BatchesCommute(s, es, fs);
    RepeatsDoNothing(s, fs, es);
  }

  // ---------- late duplicates ----------

  lemma {:induction false} RunSplits(s: Sys, a: seq<Step>, b: seq<Step>)
    ensures Run(s, a + b) == Run(Run(s, a), b)
  {
    hide Apply;
    if b == [] {
      assert a + b == a;
    } else {
      RunSplits(s, a, b[..|b| - 1]);
      assert (a + b)[..|a + b| - 1] == a + b[..|b| - 1];
    }
  }

  lemma RunOne(s: Sys, step: Step)
    ensures Run(s, [step]) == Apply(s, step)
  {
    hide Apply;
    assert [step][..0] == [];
    assert Run(s, []) == s;
  }

  /** The inbox of the case that `e` names holds it. */
  ghost predicate Consumed(s: Sys, e: Event) {
    e.wid in s.db.cases && e.no in s.db.cases[e.wid].inbox && s.db.cases[e.wid].inbox[e.no] == e
  }

  lemma HandledConsumes(s: Sys, e: Event)
    requires Inv(s) && e in s.queue
    ensures Consumed(Handled(s, e), e)
  {
    hide Inv, CaseInv, Apply, HandleEvent;
    HandledIs(s, e);
    InboxHolds(s.db.cases[e.wid], e, s.now);
  }

  lemma ConsumedDoesNothing(s: Sys, e: Event)
    requires Inv(s) && e in s.queue && Consumed(s, e)
    ensures Handled(s, e) == s
  {
    hide Inv, CaseInv, Apply, ValidApproval, Pause;
    HandledIs(s, e);
    assert With(s, e.wid, s.db.cases[e.wid]) == s;
  }

  lemma ConsumedLasts(s: Sys, e: Event, more: seq<Step>)
    requires Inv(s) && e in s.queue && Consumed(s, e)
    ensures var t := Run(s, more); Inv(t) && e in t.queue && Consumed(t, e)
  {
    hide Inv;
    RunKeeps(s, more);
    RunLasts(s, more);
  }

  /** However much happens in between, a second delivery of an event does nothing. */
  lemma LateDuplicate(s: Sys, e: Event, more: seq<Step>)
    requires Inv(s) && e in s.queue
    ensures var t := Run(Handled(s, e), more); Handled(t, e) == t
  {
    hide Inv, Handled, Consumed;
    HandledKeeps(s, e);
    HandledConsumes(s, e);
    ConsumedLasts(Handled(s, e), e, more);
    ConsumedDoesNothing(Run(Handled(s, e), more), e);
  }

  /** Any repetition can be struck out of a run, wherever it stands. */
  lemma RepetitionStruckOut(s: Sys, a: seq<Step>, i: nat, e: Event, b: seq<Step>)
    requires Inv(s) && i < |a| && a[i] == Deliver(e) && e in Run(s, a[..i]).queue
    ensures Run(s, a + [Deliver(e)] + b) == Run(s, a + b)
  {
    hide Inv, Run, Apply;
    var first := a[..i];
    assert a == first + [Deliver(e)] + a[i + 1..];
    RunSplits(s, first + [Deliver(e)], a[i + 1..]);
    RunSplits(s, first, [Deliver(e)]);
    RunOne(Run(s, first), Deliver(e));
    RunKeeps(s, first);
    LateDuplicate(Run(s, first), e, a[i + 1..]);
    RunSplits(s, a + [Deliver(e)], b);
    RunSplits(s, a, [Deliver(e)]);
    RunOne(Run(s, a), Deliver(e));
    RunSplits(s, a, b);
  }
}
