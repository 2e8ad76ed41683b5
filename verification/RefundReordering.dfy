/**
 Moving a delivery past other steps.  An event that is still unconsumed finds its case
 exactly as it was emitted, so delivering it later does what delivering it now would
 have done, at a later clock reading.
 */
module RefundReordering {
  import opened Wrappers
  import opened RefundRows
  import opened RefundSteps
  import opened ProviderRules
  import opened RefundInvariant
  import opened RefundProtocol
  import opened RefundProtocolProof
  import opened RefundTheorems
  import opened RefundDelivery
  import opened RefundFresh
  import opened RefundPatches

  // ---------- a delivery and a later step ----------

  /** Consuming `e` with the clock at `at`. */
  ghost function DeliveredAt(s: Sys, e: Event, at: int): Sys {
    if e.wid in s.db.cases && HandleEvent(s.db.cases[e.wid], e, at).Ok?
    then With(s, e.wid, HandleEvent(s.db.cases[e.wid], e, at).value.0) else s
  }

  /** Steps that act on what consuming `e` creates: the first task and its event, or the first attempt. */
  predicate Uses(x: Step, e: Event) {
    match e.kind
    case Submitted =>
      CaseNamed(x) == Some(e.wid)
      && (x.DecideBy? || x.Deadline? || (x.Send? && x.no != e.no) || (x.Mark? && x.no != e.no))
    case ApprovalAccepted => x == ClaimBy(e.wid)
    case _ => false
  }

  ghost predicate Awaited(s: Sys, e: Event) {
    Inv(s) && AllFresh(s.db) && e in s.queue && e.wid in s.db.cases && e.no !in s.db.cases[e.wid].inbox
  }

  /** What an unconsumed submission finds. */
  lemma AwaitedSubmission(s: Sys, e: Event)
    requires Awaited(s, e) && e.kind == Submitted
    ensures var c := s.db.cases[e.wid];
      && c.w.state == Received && c.attempts == [] && c.tasks == [] && c.timers == []
      && |c.outbox| == 1 && e.no == 0 && c.outbox[0].event == e
  {
    hide Inv, DecisionsOk, AttemptsOk, LogOk, TaskOk, TimerOk;
    QueueOf(s, e);
    CaseOf(s, e.wid);
  }

  /** What an unconsumed approval finds. */
  lemma AwaitedApproval(s: Sys, e: Event)
    requires Awaited(s, e) && e.kind == ApprovalAccepted
    ensures var c := s.db.cases[e.wid];
      && c.w.state == ReadyToExecute && c.attempts == [] && ValidApproval(c, e)
      && e.no < |c.outbox| && c.outbox[e.no].event == e
      && (forall f: Event :: f in s.queue && f.wid == e.wid && f.no != e.no ==>
            f.kind != ApprovalAccepted && f.no < |c.outbox| && c.outbox[f.no].event == f)
  {
    hide Inv, ChainOk, DecisionsOk, AttemptsOk, PromiseOk;
    QueueOf(s, e);
    CaseOf(s, e.wid);
    var c := s.db.cases[e.wid];
    assert FreshOk(c) && EventOk(c.outbox[e.no].event, e.no, c.w, c.tasks);
    forall f: Event | f in s.queue && f.wid == e.wid && f.no != e.no
      ensures f.kind != ApprovalAccepted && f.no < |c.outbox| && c.outbox[f.no].event == f
    {
      QueueOf(s, f);
    }
  }

  /** No worker, lookup or lease concerns a case that has not started to execute. */
  ghost predicate NotStarted(s: Sys, wid: nat) {
    && wid in s.db.cases
    && var c := s.db.cases[wid];
    && c.w.state in {Received, WaitingApproval, ReadyToExecute}
    && (forall n: nat :: (wid, n) !in s.workers)
    && (forall n | 0 <= n < |c.attempts| :: c.attempts[n].status == Pending)
    && (forall l :: l in s.lookups && l.wid == wid ==> l.version != c.w.version || c.attempts == [])
  }

  lemma AttemptStepsIdle(s: Sys, wid: nat, x: Step)
    requires NotStarted(s, wid) && CaseNamed(x) == Some(wid)
    requires x.Report? || x.LeaseExpires? || x.ReadToReconcile? || x.ApplyAnswer? || x.CloseBy?
    ensures Apply(s, x) == s
  {
    hide Create, Decide, Escalate, HandleEvent, Claim, Finish, PostOf, OutcomeOf, Pay, Restore, Status, PendingNo;
    assert With(s, wid, s.db.cases[wid]) == s;
    if x.Report? { assert x.slot == (wid, x.slot.1); }
  }

  lemma TaskStepsIdle(s: Sys, wid: nat, x: Step)
    requires wid in s.db.cases && s.db.cases[wid].w.state != WaitingApproval && CaseNamed(x) == Some(wid)
    requires x.DecideBy? || x.Deadline?
    ensures Apply(s, x) == s
  {
    hide Create, HandleEvent, Claim, Finish, PostOf, OutcomeOf, Pay, Restore, Status, PendingNo, RecordDecision,
         ReconcileApply, RecoverExpired, OperatorClose, MarkRow, Blank, CommandOf, Issued;
    assert With(s, wid, s.db.cases[wid]) == s;
  }

  lemma NothingToClaim(s: Sys, wid: nat)
    requires wid in s.db.cases && (s.db.cases[wid].attempts == [] || s.db.cases[wid].w.state == WaitingApproval)
    ensures Apply(s, ClaimBy(wid)) == s
  {
    hide Create, Decide, Escalate, HandleEvent, Claim, Finish, PostOf, OutcomeOf, Pay, Restore, Status, PendingNo;
  }

  lemma AwaitedNotStarted(s: Sys, e: Event)
    requires Awaited(s, e) && Effective(e.kind)
    ensures NotStarted(s, e.wid)
  {
    hide Inv, CaseInv, AllFresh, FreshOk;
    if e.kind == Submitted { AwaitedSubmission(s, e); } else { AwaitedApproval(s, e); }
    CaseOf(s, e.wid);
  }

  /** What consuming it leaves: still nothing started. */
  lemma DeliveredNotStarted(s: Sys, e: Event, at: int)
    requires Awaited(s, e) && Effective(e.kind)
    ensures var t := DeliveredAt(s, e, at);
      && NotStarted(t, e.wid) && SameFace(s.db.cases[e.wid], t.db.cases[e.wid])
      && HandleEvent(s.db.cases[e.wid], e, at).Ok?
      && (e.kind == Submitted ==> t.db.cases[e.wid].w.state == WaitingApproval && t.db.cases[e.wid].attempts == [])
      && (e.kind == ApprovalAccepted ==> t.db.cases[e.wid].w.state == ReadyToExecute)
  {
    hide Inv, CaseInv, AllFresh, FreshOk;
    AwaitedNotStarted(s, e);
    if e.kind == Submitted { AwaitedSubmission(s, e); } else {
      AwaitedApproval(s, e);
      forall l | l in s.lookups && l.wid == e.wid ensures l.version != s.db.cases[e.wid].w.version { LookupOf(s, l); }
    }
  }

  lemma SubmissionCommutes(s: Sys, e: Event, at: int, x: Step)
    requires Awaited(s, e) && e.kind == Submitted && CaseNamed(x) == Some(e.wid) && !Uses(x, e) && x != Deliver(e)
    ensures Apply(DeliveredAt(s, e, at), x) == DeliveredAt(Apply(s, x), e, at)
  {
    hide Inv, CaseInv, AllFresh, FreshOk, HandleEvent, Apply, NotStarted;
    AwaitedSubmission(s, e);
    AwaitedNotStarted(s, e);
    DeliveredNotStarted(s, e, at);
    var t := DeliveredAt(s, e, at);
    if x.Deliver? {
      OtherUnsent(s, e, x.e);
      NotSent(s, x.e);
      NotSent(t, x.e);
    } else if x.Send? {
      SubmissionAndSend(s, e, at);
    } else if x.Mark? {
      SubmissionAndMark(s, e, at, x.published);
    } else if x.ClaimBy? {
      NothingToClaim(s, e.wid);
      NothingToClaim(t, e.wid);
    } else {
      AttemptStepsIdle(s, e.wid, x);
      AttemptStepsIdle(t, e.wid, x);
    }
  }

  lemma SubmissionAndSend(s: Sys, e: Event, at: int)
    requires e.wid in s.db.cases && e.kind == Submitted && e.no !in s.db.cases[e.wid].inbox
    requires var c := s.db.cases[e.wid]; c.w.state == Received && e.no < |c.outbox|
    ensures Apply(DeliveredAt(s, e, at), Send(e.wid, e.no)) == DeliveredAt(Apply(s, Send(e.wid, e.no)), e, at)
  {
    hide ValidApproval, TierRole;
  }

  lemma SubmissionAndMark(s: Sys, e: Event, at: int, published: bool)
    requires e.wid in s.db.cases && e.kind == Submitted && e.no !in s.db.cases[e.wid].inbox
    requires var c := s.db.cases[e.wid]; c.w.state == Received && e.no < |c.outbox|
    ensures Apply(DeliveredAt(s, e, at), Mark(e.wid, e.no, published)) ==
            DeliveredAt(Apply(s, Mark(e.wid, e.no, published)), e, at)
  {
    hide Apply, ValidApproval, TierRole;
    AfterMark(s, e.wid, e.no, published);
    AfterMark(DeliveredAt(s, e, at), e.wid, e.no, published);
    MarkAndPause(s.db.cases[e.wid], e, at, published);
  }

  lemma MarkAndPause(c: Case, e: Event, at: int, published: bool)
    requires e.kind == Submitted && e.no !in c.inbox && c.w.state == Received && e.no < |c.outbox|
    ensures var d := HandleEvent(c, e, at).value.0;
      && HandleEvent(c, e, at).Ok? && |c.outbox| <= |d.outbox| && d.outbox[e.no] == c.outbox[e.no]
      && HandleEvent(MarkRow(c, e.no, published), e, at).Ok?
      && HandleEvent(MarkRow(c, e.no, published), e, at).value.0 == MarkRow(d, e.no, published)
  {
    hide TierRole;
    assert HandleEvent(MarkRow(c, e.no, published), e, at).value.0.outbox ==
           MarkRow(HandleEvent(c, e, at).value.0, e.no, published).outbox;
  }

  lemma OtherUnsent(s: Sys, e: Event, f: Event)
    requires Inv(s) && e in s.queue && f.wid == e.wid && f != e && e.wid in s.db.cases && |s.db.cases[e.wid].outbox| == 1
    ensures f !in s.queue
  {
    hide Inv;
    if f in s.queue {
      QueueOf(s, e);
      QueueOf(s, f);
    }
  }

  lemma NotSent(s: Sys, f: Event)
    requires f !in s.queue
    ensures Apply(s, Deliver(f)) == s
  {
    hide Consume;
  }

  lemma ApprovalCommutes(s: Sys, e: Event, at: int, x: Step)
    requires Awaited(s, e) && e.kind == ApprovalAccepted && CaseNamed(x) == Some(e.wid) && !Uses(x, e) && x != Deliver(e)
    ensures Apply(DeliveredAt(s, e, at), x) == DeliveredAt(Apply(s, x), e, at)
  {
    hide Inv, CaseInv, AllFresh, FreshOk, HandleEvent, Apply, NotStarted;
    AwaitedApproval(s, e);
    AwaitedNotStarted(s, e);
    DeliveredNotStarted(s, e, at);
    var t := DeliveredAt(s, e, at);
    if x.Deliver? {
      if x.e in s.queue {
        DistinctNumbers(s, e, x.e);
        ApprovalAndOther(s, e, at, x.e);
      } else {
        NotSent(s, x.e);
        NotSent(t, x.e);
      }
    } else if x.Send? {
      ApprovalAndSend(s, e, at, x.no);
    } else if x.Mark? {
      ApprovalAndMark(s, e, at, x.no, x.published);
    } else if x.DecideBy? || x.Deadline? {
      TaskStepsIdle(s, e.wid, x);
      TaskStepsIdle(t, e.wid, x);
    } else {
      AttemptStepsIdle(s, e.wid, x);
      AttemptStepsIdle(t, e.wid, x);
    }
  }

  lemma ApprovalAndSend(s: Sys, e: Event, at: int, no: nat)
    requires e.wid in s.db.cases && ValidApproval(s.db.cases[e.wid], e) && e.no !in s.db.cases[e.wid].inbox
    requires e.kind == ApprovalAccepted
    ensures Apply(DeliveredAt(s, e, at), Send(e.wid, no)) == DeliveredAt(Apply(s, Send(e.wid, no)), e, at)
  {
    hide ValidApproval, Pause;
  }

  lemma ApprovalAndMark(s: Sys, e: Event, at: int, no: nat, published: bool)
    requires e.wid in s.db.cases && ValidApproval(s.db.cases[e.wid], e) && e.no !in s.db.cases[e.wid].inbox
    requires e.kind == ApprovalAccepted
    ensures Apply(DeliveredAt(s, e, at), Mark(e.wid, no, published)) == DeliveredAt(Apply(s, Mark(e.wid, no, published)), e, at)
  {
    hide Apply, Pause;
    AfterMark(s, e.wid, no, published);
    AfterMark(DeliveredAt(s, e, at), e.wid, no, published);
    var c := s.db.cases[e.wid];
    if no < |c.outbox| {
      assert ValidApproval(MarkRow(c, no, published), e);
    }
  }

  /** Another event of the approved case is only noted. */
  lemma ApprovalAndOther(s: Sys, e: Event, at: int, f: Event)
    requires e.wid in s.db.cases && ValidApproval(s.db.cases[e.wid], e) && e.no !in s.db.cases[e.wid].inbox
    requires e.kind == ApprovalAccepted && f in s.queue && f.wid == e.wid && f.no != e.no && f.kind != ApprovalAccepted
    ensures Apply(DeliveredAt(s, e, at), Deliver(f)) == DeliveredAt(Apply(s, Deliver(f)), e, at)
  {
    hide Apply, HandleEvent;
    AfterDeliver(s, f);
    AfterDeliver(DeliveredAt(s, e, at), f);
    ApprovalAndNoted(s.db.cases[e.wid], e, at, f, s.now);
  }

  lemma ApprovalAndNoted(c: Case, e: Event, at: int, f: Event, now: int)
    requires ValidApproval(c, e) && e.no !in c.inbox && e.kind == ApprovalAccepted
    requires f.no != e.no && f.kind != ApprovalAccepted
    ensures HandleEvent(c, e, at).Ok?
    ensures var first, second := HandleEvent(c, e, at).value.0, HandleEvent(c, f, now);
      && first.w.tenant == c.w.tenant
      && HandleEvent(first, f, now).Ok? == second.Ok?
      && (second.Ok? ==>
        && HandleEvent(second.value.0, e, at).Ok? && second.value.0.w == c.w
        && HandleEvent(first, f, now).value.0 == HandleEvent(second.value.0, e, at).value.0)
  {
    hide Pause;
    assert c.inbox[e.no := e][f.no := f] == c.inbox[f.no := f][e.no := e];
    assert ValidApproval(c.(inbox := c.inbox[f.no := f]), e);
  }

  lemma NeutralIsPatch(s: Sys, e: Event, at: int)
    requires e.wid in s.db.cases && e.no !in s.db.cases[e.wid].inbox && !Effective(e.kind)
    ensures DeliveredAt(s, e, at) == PatchedSys(s, e.wid, Seen(e))
  {
    hide Pause, ValidApproval;
  }

  lemma ConsumedStays(s: Sys, e: Event, at: int)
    requires Consumed(s, e)
    ensures DeliveredAt(s, e, at) == s
  {
    hide Pause, ValidApproval;
    assert With(s, e.wid, s.db.cases[e.wid]) == s;
  }

  lemma InboxIsGenuine(s: Sys, e: Event)
    requires Inv(s) && e in s.queue && e.wid in s.db.cases && e.no in s.db.cases[e.wid].inbox
    ensures Consumed(s, e)
  {
    hide Inv, ChainOk, DecisionsOk, AttemptsOk, PromiseOk, StateOk;
    QueueOf(s, e);
    CaseOf(s, e.wid);
  }

  lemma SameNumber(s: Sys, e: Event, f: Event)
    requires Inv(s) && e in s.queue && f in s.queue && f.wid == e.wid && f.no == e.no
    ensures f == e
  {
    hide Inv;
    QueueOf(s, e);
    QueueOf(s, f);
  }

  lemma DistinctNumbers(s: Sys, e: Event, f: Event)
    requires Inv(s) && e in s.queue && f in s.queue && f.wid == e.wid && f != e
    ensures f.no != e.no
  {
    hide Inv;
    if f.no == e.no { SameNumber(s, e, f); }
  }

  lemma NeutralCommutes(s: Sys, e: Event, at: int, x: Step)
    requires Awaited(s, e) && !Effective(e.kind) && x != Deliver(e)
    ensures Apply(DeliveredAt(s, e, at), x) == DeliveredAt(Apply(s, x), e, at)
  {
    hide Inv, AllFresh, Apply, HandleEvent, Patched, DeliveredAt;
    NeutralIsPatch(s, e, at);
    if x.Deliver? && x.e.wid == e.wid && x.e.no == e.no {
      if x.e in s.queue { SameNumber(s, e, x.e); }
      NotSent(s, x.e);
      NotSent(PatchedSys(s, e.wid, Seen(e)), x.e);
    } else {
      StepUnnoticed(s, e.wid, Seen(e), x);
      NeutralIsPatch(Apply(s, x), e, at);
    }
  }

  /** A delivery and a later step that does not use it come to the same in either order. */
  lemma DeliveryCommutes(s: Sys, e: Event, at: int, x: Step)
    requires Inv(s) && AllFresh(s.db) && e in s.queue && !Uses(x, e) && x != Deliver(e)
    ensures Apply(DeliveredAt(s, e, at), x) == DeliveredAt(Apply(s, x), e, at)
  {
    hide Inv, AllFresh, Apply, HandleEvent, Patched;
    QueueOf(s, e);
    if e.no in s.db.cases[e.wid].inbox {
      InboxIsGenuine(s, e);
      ConsumedStays(s, e, at);
      StepLasts(s, x);
      ConsumedStays(Apply(s, x), e, at);
    } else if !Effective(e.kind) {
      NeutralCommutes(s, e, at, x);
    } else if CaseNamed(x) != Some(e.wid) {
      DeliveredNotStarted(s, e, at);
      StepElsewhere(s, e.wid, DeliveredAt(s, e, at).db.cases[e.wid], x);
    } else if e.kind == Submitted {
      SubmissionCommutes(s, e, at, x);
    } else {
      ApprovalCommutes(s, e, at, x);
    }
  }

  // ---------- whole runs ----------

  lemma {:induction false} DeliveryMoves(s: Sys, e: Event, at: int, mid: seq<Step>)
    requires Inv(s) && AllFresh(s.db) && e in s.queue
    requires forall i | 0 <= i < |mid| :: !Uses(mid[i], e) && mid[i] != Deliver(e)
    ensures Run(DeliveredAt(s, e, at), mid) == DeliveredAt(Run(s, mid), e, at)
  {
    hide Inv, AllFresh, Apply, DeliveredAt, Uses;
    if mid != [] {
      var front := mid[..|mid| - 1];
      DeliveryMoves(s, e, at, front);
      FreshRun(s, front);
      RunLasts(s, front);
      DeliveryCommutes(Run(s, front), e, at, mid[|mid| - 1]);
    }
  }

  /** Some step of the run, at its place, could tell whether the patch has been made. */
  ghost predicate RunNotices(s: Sys, wid: nat, p: Patch, steps: seq<Step>) {
    exists i | 0 <= i < |steps| ::
      var t := Run(s, steps[..i]);
      wid in t.db.cases && Notices(t.db.cases[wid], wid, p, steps[i], t.now)
  }

  lemma {:induction false} RunUnnoticed(s: Sys, wid: nat, p: Patch, steps: seq<Step>)
    requires wid in s.db.cases && Unnoticed(s.db.cases[wid], p, s.now) && !RunNotices(s, wid, p, steps)
    ensures Run(PatchedSys(s, wid, p), steps) == PatchedSys(Run(s, steps), wid, p)
    ensures var t := Run(s, steps); wid in t.db.cases && Unnoticed(t.db.cases[wid], p, t.now)
  {
    hide Apply, PatchedSys, Unnoticed, Notices;
    if steps != [] {
      var front := steps[..|steps| - 1];
      assert forall i | 0 <= i < |front| :: front[..i] == steps[..i];
      RunUnnoticed(s, wid, p, front);
      StepUnnoticed(Run(s, front), wid, p, steps[|steps| - 1]);
    }
  }

  lemma AvailableUnnoticed(s: Sys, wid: nat, at: int, steps: seq<Step>)
    ensures !RunNotices(s, wid, Available(at), steps)
  {
    hide Run;
  }

  /** Deliveries of one event at two clock readings. */
  lemma DeliveredTwoTimes(s: Sys, e: Event, early: int, late: int)
    requires Inv(s) && AllFresh(s.db) && e in s.queue && e.kind != Submitted
    ensures e.kind != ApprovalAccepted ==> DeliveredAt(s, e, early) == DeliveredAt(s, e, late)
    ensures DeliveredAt(s, e, early) == DeliveredAt(s, e, late)
      || (DeliveredAt(s, e, early) == PatchedSys(DeliveredAt(s, e, late), e.wid, Available(early))
          && e.wid in s.db.cases
          && var c := DeliveredAt(s, e, late).db.cases[e.wid]; c.attempts != [] && c.attempts[0].availableAt == late)
  {
    hide Inv, AllFresh, DeliveredAt;
    QueueOf(s, e);
    if e.no in s.db.cases[e.wid].inbox {
      InboxIsGenuine(s, e);
      ConsumedStays(s, e, early);
      ConsumedStays(s, e, late);
    } else if !Effective(e.kind) {
      NeutralIsPatch(s, e, early);
      NeutralIsPatch(s, e, late);
    } else {
      AwaitedApproval(s, e);
      ApprovalTwoTimes(s, e, early, late);
    }
  }

  lemma ApprovalTwoTimes(s: Sys, e: Event, early: int, late: int)
    requires e.wid in s.db.cases && ValidApproval(s.db.cases[e.wid], e) && e.no !in s.db.cases[e.wid].inbox
    requires e.kind == ApprovalAccepted && s.db.cases[e.wid].attempts == []
    ensures DeliveredAt(s, e, early) == PatchedSys(DeliveredAt(s, e, late), e.wid, Available(early))
    ensures var c := DeliveredAt(s, e, late).db.cases[e.wid]; c.attempts != [] && c.attempts[0].availableAt == late
  {
    hide ValidApproval, Pause;
    var c := s.db.cases[e.wid];
    var a, b := HandleEvent(c, e, early).value.0, HandleEvent(c, e, late).value.0;
    assert a.attempts == Patched(b, Available(early)).attempts;
    assert a == Patched(b, Available(early));
    assert s.db.cases[e.wid := b][e.wid := a] == s.db.cases[e.wid := a];
  }

  /** Equal but for the moment from which the first attempt of case `wid` is available. */
  ghost predicate SameButAvailability(s: Sys, t: Sys, wid: nat) {
    s == t || exists at :: s == PatchedSys(t, wid, Available(at))
  }

  /**
   A delivery moved past any steps that do not use what it creates.  An approval, or an
   event that is only noted, leaves the same run afterwards, up to the moment its attempt
   became available; a submission does so too if no time passes, since deadlines count
   from its delivery.
   */
  lemma DeliveryMovedLater(now: int, settings: Settings, before: seq<Step>, e: Event, mid: seq<Step>, rest: seq<Step>)
    requires e in Reached(now, settings, before).queue
    requires forall i | 0 <= i < |mid| :: !Uses(mid[i], e) && mid[i] != Deliver(e)
    ensures var s := Reached(now, settings, before);
      var early, late := Run(s, [Deliver(e)] + mid + rest), Run(s, mid + [Deliver(e)] + rest);
      && (e.kind != Submitted ==> SameButAvailability(early, late, e.wid))
      && (e.kind != Submitted && e.kind != ApprovalAccepted ==> early == late)
      && (Run(s, mid).now == s.now ==> early == late)
  {
    hide Inv, AllFresh, Run, Apply, DeliveredAt, SameButAvailability, Uses;
    var s := Reached(now, settings, before);
    ReachedFresh(now, settings, before);
    var u := Run(s, mid);
    FreshRun(s, mid);
    RunLasts(s, mid);
    SplitRuns(s, e, mid, rest);
    DeliveredNow(s, e);
    DeliveredNow(u, e);
    DeliveryMoves(s, e, s.now, mid);
    if e.kind != Submitted {
      DeliveredTwoTimes(u, e, s.now, u.now);
      if DeliveredAt(u, e, s.now) == DeliveredAt(u, e, u.now) {
        SameIsSame(Run(DeliveredAt(u, e, u.now), rest), e.wid);
      } else {
        DeliveredClock(u, e, u.now);
        AvailableUnnoticed(DeliveredAt(u, e, u.now), e.wid, s.now, rest);
        RunUnnoticed(DeliveredAt(u, e, u.now), e.wid, Available(s.now), rest);
        PatchedIsSame(Run(DeliveredAt(u, e, u.now), rest), e.wid, s.now);
      }
    }
  }

  /** Equal but for the moment at which the first task of case `wid` falls due. */
  ghost predicate SameButDue(s: Sys, t: Sys, wid: nat, later: int) {
    wid in s.db.cases && t == PatchedSys(s, wid, Due(later))
  }

  /**
   A submission moved later leaves the same run afterwards, up to a first deadline later by
   the time that passed, as long as nobody decides or expires the first task in between
   the two deadlines.
   */
  lemma SubmissionMovedLater(now: int, settings: Settings, before: seq<Step>, e: Event, mid: seq<Step>, rest: seq<Step>)
    requires e in Reached(now, settings, before).queue && e.kind == Submitted
    requires forall i | 0 <= i < |mid| :: !Uses(mid[i], e) && mid[i] != Deliver(e)
    requires var s := Reached(now, settings, before);
      !RunNotices(Run(s, [Deliver(e)] + mid), e.wid, Due(Run(s, mid).now - s.now), rest)
    ensures var s := Reached(now, settings, before);
      var early, late := Run(s, [Deliver(e)] + mid + rest), Run(s, mid + [Deliver(e)] + rest);
      early == late || SameButDue(early, late, e.wid, Run(s, mid).now - s.now)
  {
    hide Inv, AllFresh, Run, Apply, DeliveredAt, PatchedSys, Unnoticed, RunNotices, Uses;
    var s := Reached(now, settings, before);
    ReachedFresh(now, settings, before);
    var u := Run(s, mid);
    FreshRun(s, mid);
    RunLasts(s, mid);
    SplitRuns(s, e, mid, rest);
    SplitRuns(s, e, mid, []);
    assert [Deliver(e)] + mid + [] == [Deliver(e)] + mid;
    NothingMore(Run(Handled(s, e), mid));
    DeliveredNow(s, e);
    DeliveredNow(u, e);
    DeliveryMoves(s, e, s.now, mid);
    QueueOf(u, e);
    if e.no in u.db.cases[e.wid].inbox {
      InboxIsGenuine(u, e);
      ConsumedStays(u, e, s.now);
      ConsumedStays(u, e, u.now);
    } else {
      AwaitedSubmission(u, e);
      SubmissionTwoTimes(u, e, s.now, u.now);
      RunUnnoticed(DeliveredAt(u, e, s.now), e.wid, Due(u.now - s.now), rest);
    }
  }

  lemma NothingMore(s: Sys)
    ensures Run(s, []) == s
  {
  }

  lemma SubmissionTwoTimes(s: Sys, e: Event, early: int, late: int)
    requires e.wid in s.db.cases && e.kind == Submitted && e.no !in s.db.cases[e.wid].inbox
    requires var c := s.db.cases[e.wid]; c.w.state == Received && c.tasks == [] && |c.outbox| == 1
    requires s.db.cases[e.wid].timers == []
    ensures SameButDue(DeliveredAt(s, e, early), DeliveredAt(s, e, late), e.wid, late - early)
    ensures var t := DeliveredAt(s, e, early); Unnoticed(t.db.cases[e.wid], Due(late - early), t.now)
  {
    hide TierRole, ValidApproval;
    var c := s.db.cases[e.wid];
    var a, b := HandleEvent(c, e, early).value.0, HandleEvent(c, e, late).value.0;
    var d := Patched(a, Due(late - early));
    assert b.tasks == d.tasks && b.timers == d.timers;
    assert b == d;
    assert s.db.cases[e.wid := a][e.wid := b] == s.db.cases[e.wid := b];
  }

  lemma ReachedFresh(now: int, settings: Settings, steps: seq<Step>)
    ensures Inv(Reached(now, settings, steps)) && AllFresh(Reached(now, settings, steps).db)
  {
    hide Inv;
    StartInv(now, settings);
    FreshRun(Start(now, settings), steps);
  }

  /** The two runs, as deliveries in the middle of them. */
  lemma SplitRuns(s: Sys, e: Event, mid: seq<Step>, rest: seq<Step>)
    ensures Run(s, [Deliver(e)] + mid + rest) == Run(Run(Handled(s, e), mid), rest)
    ensures Run(s, mid + [Deliver(e)] + rest) == Run(Handled(Run(s, mid), e), rest)
  {
    hide Run, Apply;
    RunSplits(s, [Deliver(e)] + mid, rest);
    RunSplits(s, [Deliver(e)], mid);
    RunOne(s, Deliver(e));
    RunSplits(s, mid + [Deliver(e)], rest);
    RunSplits(s, mid, [Deliver(e)]);
    RunOne(Run(s, mid), Deliver(e));
  }

  lemma DeliveredNow(s: Sys, e: Event)
    requires Inv(s) && e in s.queue
    ensures Handled(s, e) == DeliveredAt(s, e, s.now)
  {
    hide Inv, HandleEvent, Apply;
    HandledIs(s, e);
  }

  lemma DeliveredClock(s: Sys, e: Event, at: int)
    ensures DeliveredAt(s, e, at).now == s.now && DeliveredAt(s, e, at).db.cases.Keys == s.db.cases.Keys
  {
    hide HandleEvent;
  }

  lemma SameIsSame(s: Sys, wid: nat)
    ensures SameButAvailability(s, s, wid)
  {
  }

  lemma PatchedIsSame(t: Sys, wid: nat, at: int)
    ensures SameButAvailability(PatchedSys(t, wid, Available(at)), t, wid)
  {
  }
}
