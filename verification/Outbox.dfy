/** Rows of the job outbox and the updates made to one of them. */
module OutboxRules {
  import opened Wrappers

  datatype Row = Row(
    job: nat, availableAt: real, claimedAt: Option<real>, token: Option<nat>,
    publishAttempts: nat, published: bool)

  function NewRow(job: nat, availableAt: real): Row {
    Row(job, availableAt, None, None, 0, false)
  }

  predicate Eligible(row: Row, at: real, timeout: real) {
    !row.published && row.availableAt <= at
    && (row.claimedAt.None? || row.claimedAt.value < at - timeout)
  }

  function ClaimRow(row: Row, token: nat, at: real): Row {
    row.(claimedAt := Some(at), token := Some(token), publishAttempts := row.publishAttempts + 1)
  }

  /** The condition under which a confirmation or a release touches the row. */
  predicate Held(row: Row, token: nat) {
    row.token == Some(token) && !row.published
  }

  function MarkRow(row: Row, token: nat): Row {
    if Held(row, token) then row.(published := true, claimedAt := None, token := None) else row
  }

  function ReleaseRow(row: Row, token: nat): Row {
    if Held(row, token) then row.(claimedAt := None, token := None) else row
  }

  function ClaimRows(rows: seq<Row>, chosen: seq<nat>, token: nat, at: real): seq<Row> {
    seq(|rows|, e requires 0 <= e < |rows| => if e in chosen then ClaimRow(rows[e], token, at) else rows[e])
  }

  predicate Increasing(s: seq<nat>) {
    forall i, j | 0 <= i < j < |s| :: s[i] < s[j]
  }
}

/**
 Any number of publishers over one outbox.  A claim takes any eligible rows (others
 may be locked by a concurrent claim and skipped) under a token nobody used before.
 Sends and confirmations may fail before or after taking effect, and a publisher may
 stop anywhere.  `history` is what happened, in commit order.
 */
module OutboxProtocol {
  import opened Wrappers
  import opened OutboxRules

  datatype Entry =
    | Claimed(event: nat, token: nat, at: real)
    | Sent(event: nat, token: nat)
    | Marked(event: nat, token: nat)
    | Released(event: nat, token: nat)

  datatype Phase = Sending | Marking | Releasing
  datatype Publisher = Publisher(items: seq<nat>, at: nat, phase: Phase)
  datatype Sys = Sys(timeout: real, rows: seq<Row>, publishers: map<nat, Publisher>, used: set<nat>, history: seq<Entry>)

  datatype Outcome = Done | DoneThenRaised | NotDone

  datatype Step =
    | Enqueue(job: nat, availableAt: real)
    | Claim(token: nat, at: real, chosen: seq<nat>)
    | Send(token: nat, outcome: Outcome)
    | Confirm(token: nat, outcome: Outcome)
    | Release(token: nat)
    | Crash(token: nat)

  function Start(timeout: real): Sys {
    Sys(timeout, [], map[], {}, [])
  }

  predicate MayClaim(s: Sys, token: nat, at: real, chosen: seq<nat>) {
    && token !in s.used
    && (forall k | 0 <= k < |chosen| :: chosen[k] < |s.rows| && Eligible(s.rows[chosen[k]], at, s.timeout))
    && Increasing(chosen)
  }

  function Claims(chosen: seq<nat>, token: nat, at: real): seq<Entry> {
    seq(|chosen|, k requires 0 <= k < |chosen| => Claimed(chosen[k], token, at))
  }

  /** Publisher `token` is at its current item, in phase `phase`. */
  predicate AtItem(s: Sys, token: nat, phase: Phase) {
    token in s.publishers
    && var p := s.publishers[token];
       p.at < |p.items| && p.phase == phase && p.items[p.at] < |s.rows|
  }

  function Goes(s: Sys, token: nat, p: Publisher): Sys {
    s.(publishers := s.publishers[token := p])
  }

  function Apply(s: Sys, step: Step): Sys {
    match step
    case Enqueue(job, availableAt) => s.(rows := s.rows + [NewRow(job, availableAt)])
    case Claim(token, at, chosen) =>
      if !MayClaim(s, token, at, chosen) then s
      else
        s.(rows := ClaimRows(s.rows, chosen, token, at),
           publishers := s.publishers[token := Publisher(chosen, 0, Sending)],
           used := s.used + {token},
           history := s.history + Claims(chosen, token, at))
    case Send(token, outcome) =>
      if !AtItem(s, token, Sending) then s
      else
        var p := s.publishers[token];
        var sent := if outcome.NotDone? then s else s.(history := s.history + [Sent(p.items[p.at], token)]);
        Goes(sent, token, p.(phase := if outcome.Done? then Marking else Releasing))
    case Confirm(token, outcome) =>
      if !AtItem(s, token, Marking) then s
      else
        var p := s.publishers[token];
        var e := p.items[p.at];
        var applied := Held(s.rows[e], token) && !outcome.NotDone?;
        var marked :=
          if applied then s.(rows := s.rows[e := MarkRow(s.rows[e], token)], history := s.history + [Marked(e, token)])
          else s;
        Goes(marked, token, if applied && outcome.Done? then p.(at := p.at + 1, phase := Sending) else p.(phase := Releasing))
    case Release(token) =>
      if !AtItem(s, token, Releasing) then s
      else
        var p := s.publishers[token];
        var e := p.items[p.at];
        var freed :=
          if Held(s.rows[e], token)
          then s.(rows := s.rows[e := ReleaseRow(s.rows[e], token)], history := s.history + [Released(e, token)])
          else s;
        freed.(publishers := s.publishers - {token})
    case Crash(token) => s.(publishers := s.publishers - {token})
  }

  function Run(s: Sys, steps: seq<Step>): Sys {
    if steps == [] then s else Apply(Run(s, steps[..|steps| - 1]), steps[|steps| - 1])
  }

  // ---------- lawful histories ----------

  datatype Hold = Hold(token: nat, at: real)

  /** The outstanding claim on an event, if any. */
  function Holder(h: seq<Entry>, e: nat): Option<Hold> {
    if h == [] then None
    else
      var last := h[|h| - 1];
      if last.event != e || last.Sent? then Holder(h[..|h| - 1], e)
      else if last.Claimed? then Some(Hold(last.token, last.at))
      else None
  }

  function ClaimCount(h: seq<Entry>, e: nat): nat {
    if h == [] then 0
    else
      ClaimCount(h[..|h| - 1], e) + if h[|h| - 1].Claimed? && h[|h| - 1].event == e then 1 else 0
  }

  ghost predicate IsMarked(h: seq<Entry>, e: nat) {
    exists i | 0 <= i < |h| :: h[i].Marked? && h[i].event == e
  }

  ghost predicate HasClaim(h: seq<Entry>, e: nat, token: nat) {
    exists i | 0 <= i < |h| :: h[i].Claimed? && h[i].event == e && h[i].token == token
  }

  /** What may happen next after `h`. */
  ghost predicate MayFollow(h: seq<Entry>, x: Entry, timeout: real) {
    var hold := Holder(h, x.event);
    match x
    case Claimed(e, token, at) =>
      !IsMarked(h, e) && !HasClaim(h, e, token) && (hold.Some? ==> hold.value.at + timeout < at)
    case Sent(e, token) => HasClaim(h, e, token) && x !in h
    case Marked(e, token) => hold.Some? && hold.value.token == token && Sent(e, token) in h && !IsMarked(h, e)
    case Released(e, token) => hold.Some? && hold.value.token == token
  }

  ghost predicate Lawful(h: seq<Entry>, timeout: real) {
    forall k | 0 <= k < |h| :: MayFollow(h[..k], h[k], timeout)
  }

  // ---------- the invariant ----------

  /** A row is what its history says it is. */
  ghost predicate RowTrue(row: Row, h: seq<Entry>, e: nat) {
    var hold := Holder(h, e);
    && row.token == (if hold.Some? then Some(hold.value.token) else None)
    && row.claimedAt == (if hold.Some? then Some(hold.value.at) else None)
    && (row.published <==> IsMarked(h, e))
    && row.publishAttempts == ClaimCount(h, e)
  }

  /** Items not sent yet under this token. */
  predicate Unsent(p: Publisher, k: nat) {
    p.at < k || (p.at == k && p.phase.Sending?)
  }

  ghost predicate PublisherOk(token: nat, p: Publisher, h: seq<Entry>) {
    && p.at <= |p.items| && (!p.phase.Sending? ==> p.at < |p.items|)
    && Increasing(p.items)
    && (forall k | 0 <= k < |p.items| :: HasClaim(h, p.items[k], token))
    && (forall k | 0 <= k < |p.items| && Unsent(p, k) :: Sent(p.items[k], token) !in h)
    && (p.phase.Marking? ==> Sent(p.items[p.at], token) in h)
  }

  ghost predicate Known(s: Sys) {
    && (forall k | 0 <= k < |s.history| :: s.history[k].event < |s.rows| && s.history[k].token in s.used)
    && (forall t | t in s.publishers :: t in s.used)
  }

  ghost predicate RowsTrue(s: Sys) {
    forall e | 0 <= e < |s.rows| :: RowTrue(s.rows[e], s.history, e)
  }

  ghost predicate PublishersOk(s: Sys) {
    forall t | t in s.publishers :: PublisherOk(t, s.publishers[t], s.history)
  }

  ghost predicate Inv(s: Sys) {
    Lawful(s.history, s.timeout) && Known(s) && RowsTrue(s) && PublishersOk(s)
  }

  // ---------- nothing is claimed before it is due ----------

  /** The jobs enqueued by some steps, and when each delivery is due. */
  function Enqueued(steps: seq<Step>): seq<(nat, real)> {
    if steps == [] then []
    else
      var last := steps[|steps| - 1];
      Enqueued(steps[..|steps| - 1]) + if last.Enqueue? then [(last.job, last.availableAt)] else []
  }

  /** Row by row, the table is what was enqueued, and no claim was early. */
  ghost predicate AsEnqueued(s: Sys, due: seq<(nat, real)>) {
    && |s.rows| == |due|
    && (forall e | 0 <= e < |due| :: s.rows[e].job == due[e].0 && s.rows[e].availableAt == due[e].1)
    && (forall k | 0 <= k < |s.history| && s.history[k].Claimed? ::
      s.history[k].event < |due| && due[s.history[k].event].1 <= s.history[k].at)
  }

  lemma StepAsEnqueued(s: Sys, x: Step, due: seq<(nat, real)>)
    requires AsEnqueued(s, due)
    ensures AsEnqueued(Apply(s, x), due + if x.Enqueue? then [(x.job, x.availableAt)] else [])
  {
    assert due + [] == due;
  }

  /** In every run a delivery is claimed only once it is due, whatever happened to its row before. */
  lemma {:induction false} NoEarlyClaim(timeout: real, steps: seq<Step>)
    ensures AsEnqueued(Run(Start(timeout), steps), Enqueued(steps))
  {
    hide Apply, AsEnqueued;
    if steps == [] {
      assert AsEnqueued(Start(timeout), []) by { NothingEnqueued(timeout); }
    } else {
      NoEarlyClaim(timeout, steps[..|steps| - 1]);
      StepAsEnqueued(Run(Start(timeout), steps[..|steps| - 1]), steps[|steps| - 1], Enqueued(steps[..|steps| - 1]));
    }
  }

  lemma NothingEnqueued(timeout: real)
    ensures AsEnqueued(Start(timeout), [])
  {
  }

  /** A new row can be claimed exactly from the moment it is due. */
  lemma NewRowWaits(job: nat, availableAt: real, at: real, timeout: real)
    ensures Eligible(NewRow(job, availableAt), at, timeout) <==> availableAt <= at
    ensures NewRow(job, availableAt).job == job && NewRow(job, availableAt).publishAttempts == 0
  {
  }

  // ---------- one more entry ----------

  lemma LawfulGrows(h: seq<Entry>, x: Entry, timeout: real)
    requires Lawful(h, timeout) && MayFollow(h, x, timeout)
    ensures Lawful(h + [x], timeout)
  {
    hide MayFollow;
    var g := h + [x];
    forall k | 0 <= k < |g| ensures MayFollow(g[..k], g[k], timeout) {
      if k < |h| { assert g[..k] == h[..k]; } else { assert g[..k] == h; }
    }
  }

  /** The views of a history after one more entry. */
  lemma Grows(h: seq<Entry>, x: Entry, e: nat)
    ensures Holder(h + [x], e) ==
      if x.event != e || x.Sent? then Holder(h, e) else if x.Claimed? then Some(Hold(x.token, x.at)) else None
    ensures ClaimCount(h + [x], e) == ClaimCount(h, e) + if x.Claimed? && x.event == e then 1 else 0
    ensures IsMarked(h + [x], e) <==> IsMarked(h, e) || (x.Marked? && x.event == e)
  {
    var g := h + [x];
    assert g[..|g| - 1] == h;
    if IsMarked(h, e) {
      var i :| 0 <= i < |h| && h[i].Marked? && h[i].event == e;
      assert g[i] == h[i];
    }
    if x.Marked? && x.event == e {
      assert g[|h|] == x;
    }
    if IsMarked(g, e) {
      var i :| 0 <= i < |g| && g[i].Marked? && g[i].event == e;
      if i < |h| { assert g[i] == h[i]; }
    }
  }

  lemma ClaimStays(h: seq<Entry>, x: Entry, e: nat, token: nat)
    requires HasClaim(h, e, token)
    ensures HasClaim(h + [x], e, token)
  {
    var i :| 0 <= i < |h| && h[i].Claimed? && h[i].event == e && h[i].token == token;
    assert (h + [x])[i] == h[i];
  }

  lemma PublisherKept(token: nat, p: Publisher, h: seq<Entry>, x: Entry)
    requires PublisherOk(token, p, h)
    requires x.token != token || !x.Sent?
    ensures PublisherOk(token, p, h + [x])
  {
    hide HasClaim;
    forall k | 0 <= k < |p.items| ensures HasClaim(h + [x], p.items[k], token) {
      ClaimStays(h, x, p.items[k], token);
    }
  }

  lemma RowsKept(s: Sys, x: Entry, row: Row)
    requires RowsTrue(s) && x.event < |s.rows|
    requires RowTrue(row, s.history + [x], x.event)
    ensures RowsTrue(s.(rows := s.rows[x.event := row], history := s.history + [x]))
  {
    hide IsMarked, Holder, ClaimCount;
    forall e | 0 <= e < |s.rows| && e != x.event ensures RowTrue(s.rows[e], s.history + [x], e) {
      Grows(s.history, x, e);
    }
  }

  lemma Untouched(h: seq<Entry>, e: nat)
    requires forall k | 0 <= k < |h| :: h[k].event != e
    ensures Holder(h, e).None? && ClaimCount(h, e) == 0 && !IsMarked(h, e)
  {
  }

  // ---------- every step keeps the invariant ----------

  lemma EnqueueKeeps(s: Sys, job: nat, availableAt: real)
    requires Inv(s)
    ensures Inv(Apply(s, Enqueue(job, availableAt)))
  {
    hide PublisherOk, Lawful, Holder, IsMarked, ClaimCount;
    Untouched(s.history, |s.rows|);
  }

  lemma SendKeeps(s: Sys, token: nat, outcome: Outcome)
    requires Inv(s)
    ensures Inv(Apply(s, Send(token, outcome)))
  {
    hide Lawful, RowTrue;
    if AtItem(s, token, Sending) {
      var t := Apply(s, Send(token, outcome));
      var p := s.publishers[token];
      if !outcome.NotDone? {
        var x := Sent(p.items[p.at], token);
        LawfulGrows(s.history, x, s.timeout);
        assert RowTrue(s.rows[x.event], t.history, x.event) by {
          Grows(s.history, x, x.event);
          SameRow(s.rows[x.event], s.history, x);
        }
        RowsKept(s, x, s.rows[x.event]);
        assert s.rows[x.event := s.rows[x.event]] == s.rows;
        SenderKept(token, p, t.publishers[token], s.history, x);
        forall q | q in s.publishers && q != token ensures PublisherOk(q, s.publishers[q], t.history) {
          PublisherKept(q, s.publishers[q], s.history, x);
        }
      }
    }
  }

  lemma SameRow(row: Row, h: seq<Entry>, x: Entry)
    requires RowTrue(row, h, x.event) && x.Sent?
    ensures RowTrue(row, h + [x], x.event)
  {
    hide Holder, IsMarked, ClaimCount;
    Grows(h, x, x.event);
  }

  lemma SenderKept(token: nat, p: Publisher, q: Publisher, h: seq<Entry>, x: Entry)
    requires PublisherOk(token, p, h) && p.phase.Sending? && p.at < |p.items|
    requires x == Sent(p.items[p.at], token) && q == p.(phase := q.phase) && !q.phase.Sending?
    ensures PublisherOk(token, q, h + [x])
  {
    hide HasClaim;
    forall k | 0 <= k < |p.items| ensures HasClaim(h + [x], p.items[k], token) {
      ClaimStays(h, x, p.items[k], token);
    }
    forall k | 0 <= k < |p.items| && Unsent(q, k) ensures Sent(p.items[k], token) !in h + [x] {
      assert p.items[p.at] < p.items[k];
    }
    assert (h + [x])[|h|] == x;
  }

  /** A confirmation or a release by the holder. */
  lemma SettleKeeps(s: Sys, x: Entry, row: Row)
    requires Inv(s) && (x.Marked? || x.Released?) && x.event < |s.rows| && x.token in s.used
    requires Held(s.rows[x.event], x.token)
    requires x.Marked? ==> Sent(x.event, x.token) in s.history
    requires row == if x.Marked? then MarkRow(s.rows[x.event], x.token) else ReleaseRow(s.rows[x.event], x.token)
    ensures Inv(s.(rows := s.rows[x.event := row], history := s.history + [x]))
  {
    hide Lawful, PublisherOk, Holder, IsMarked, ClaimCount;
    LawfulGrows(s.history, x, s.timeout);
    Grows(s.history, x, x.event);
    RowsKept(s, x, row);
    forall t | t in s.publishers ensures PublisherOk(t, s.publishers[t], s.history + [x]) {
      PublisherKept(t, s.publishers[t], s.history, x);
    }
  }

  /** Moving one publisher keeps the invariant when its new position is sound. */
  lemma GoesKeeps(s: Sys, token: nat, p: Publisher)
    requires Inv(s) && token in s.used && PublisherOk(token, p, s.history)
    ensures Inv(Goes(s, token, p))
  {
    hide Lawful, PublisherOk, RowTrue;
  }

  lemma ConfirmKeeps(s: Sys, token: nat, outcome: Outcome)
    requires Inv(s)
    ensures Inv(Apply(s, Confirm(token, outcome)))
  {
    hide Lawful, RowTrue, HasClaim, Inv;
    if AtItem(s, token, Marking) {
      var p := s.publishers[token];
      var e := p.items[p.at];
      assert PublisherOk(token, p, s.history) && token in s.used by { InvPublisher(s, token); }
      if Held(s.rows[e], token) && !outcome.NotDone? {
        var x := Marked(e, token);
        SettleKeeps(s, x, MarkRow(s.rows[e], token));
        PublisherKept(token, p, s.history, x);
        var t := s.(rows := s.rows[e := MarkRow(s.rows[e], token)], history := s.history + [x]);
        GoesKeeps(t, token, if outcome.Done? then p.(at := p.at + 1, phase := Sending) else p.(phase := Releasing));
      } else {
        GoesKeeps(s, token, p.(phase := Releasing));
      }
    }
  }

  lemma InvPublisher(s: Sys, token: nat)
    requires Inv(s) && token in s.publishers
    ensures PublisherOk(token, s.publishers[token], s.history) && token in s.used
  {
  }

  lemma CrashKeeps(s: Sys, token: nat)
    requires Inv(s)
    ensures Inv(s.(publishers := s.publishers - {token}))
  {
    hide Lawful, PublisherOk, RowTrue;
  }

  lemma ReleaseKeeps(s: Sys, token: nat)
    requires Inv(s)
    ensures Inv(Apply(s, Release(token)))
  {
    hide Lawful, RowTrue, HasClaim, Inv;
    if AtItem(s, token, Releasing) {
      var p := s.publishers[token];
      var e := p.items[p.at];
      InvPublisher(s, token);
      if Held(s.rows[e], token) {
        var x := Released(e, token);
        SettleKeeps(s, x, ReleaseRow(s.rows[e], token));
        CrashKeeps(s.(rows := s.rows[e := ReleaseRow(s.rows[e], token)], history := s.history + [x]), token);
      } else {
        CrashKeeps(s, token);
      }
    }
  }

  /** Claiming one more row under a token that has no claim on it. */
  lemma ClaimOneKeeps(s: Sys, e: nat, token: nat, at: real)
    requires Inv(s) && e < |s.rows| && Eligible(s.rows[e], at, s.timeout) && token in s.used
    requires !HasClaim(s.history, e, token)
    ensures Inv(s.(rows := s.rows[e := ClaimRow(s.rows[e], token, at)], history := s.history + [Claimed(e, token, at)]))
  {
    hide Lawful, PublisherOk, Holder, IsMarked, ClaimCount;
    var x := Claimed(e, token, at);
    LawfulGrows(s.history, x, s.timeout);
    Grows(s.history, x, e);
    RowsKept(s, x, ClaimRow(s.rows[e], token, at));
    forall t | t in s.publishers ensures PublisherOk(t, s.publishers[t], s.history + [x]) {
      PublisherKept(t, s.publishers[t], s.history, x);
    }
  }

  /** The state after the first claims of one transaction. */
  function ClaimFirst(s: Sys, token: nat, at: real, chosen: seq<nat>): Sys {
    s.(rows := ClaimRows(s.rows, chosen, token, at), used := s.used + {token},
       history := s.history + Claims(chosen, token, at))
  }

  lemma {:induction false} ClaimFirstKeeps(s: Sys, token: nat, at: real, chosen: seq<nat>)
    requires Inv(s) && MayClaim(s, token, at, chosen)
    ensures Inv(ClaimFirst(s, token, at, chosen))
    ensures forall e, t | HasClaim(ClaimFirst(s, token, at, chosen).history, e, t) && t == token :: e in chosen
  {
    hide Inv;
    var t := ClaimFirst(s, token, at, chosen);
    if chosen == [] {
      assert t.rows == s.rows && t.history == s.history;
      NothingClaimed(s, token);
    } else {
      var front, e := chosen[..|chosen| - 1], chosen[|chosen| - 1];
      var before := ClaimFirst(s, token, at, front);
      ClaimFirstKeeps(s, token, at, front);
      assert e !in front;
      ClaimOneKeeps(before, e, token, at);
      assert forall k | 0 <= k < |s.rows| :: k in chosen <==> k in front || k == e;
      assert t.rows == before.rows[e := ClaimRow(before.rows[e], token, at)];
      assert Claims(chosen, token, at) == Claims(front, token, at) + [Claimed(e, token, at)];
      assert t.history == before.history + [Claimed(e, token, at)];
      forall d, u | HasClaim(t.history, d, u) && u == token ensures d in chosen {
        var i :| 0 <= i < |t.history| && t.history[i].Claimed? && t.history[i].event == d && t.history[i].token == token;
        if i < |before.history| { assert before.history[i] == t.history[i]; assert HasClaim(before.history, d, token); }
      }
    }
  }

  lemma NothingClaimed(s: Sys, token: nat)
    requires Inv(s) && token !in s.used
    ensures Inv(s.(used := s.used + {token})) && (forall e :: !HasClaim(s.history, e, token))
  {
    hide Lawful, PublisherOk, RowTrue;
  }

  lemma ClaimKeeps(s: Sys, token: nat, at: real, chosen: seq<nat>)
    requires Inv(s)
    ensures Inv(Apply(s, Claim(token, at, chosen)))
  {
    hide Inv;
    if MayClaim(s, token, at, chosen) {
      var t := ClaimFirst(s, token, at, chosen);
      ClaimFirstKeeps(s, token, at, chosen);
      var p := Publisher(chosen, 0, Sending);
      forall k | 0 <= k < |chosen| ensures HasClaim(t.history, chosen[k], token) {
        assert t.history[|s.history| + k] == Claimed(chosen[k], token, at);
      }
      forall k | 0 <= k < |chosen| ensures Sent(chosen[k], token) !in t.history {
        NotSent(s, token, at, chosen, chosen[k]);
      }
      GoesKeeps(t, token, p);
    }
  }

  lemma NotSent(s: Sys, token: nat, at: real, chosen: seq<nat>, e: nat)
    requires Inv(s) && token !in s.used
    ensures Sent(e, token) !in s.history + Claims(chosen, token, at)
  {
    hide Lawful, PublisherOk, RowTrue;
  }

  lemma StepKeeps(s: Sys, step: Step)
    requires Inv(s)
    ensures Inv(Apply(s, step))
  {
    hide Inv;
    match step
    case Enqueue(job, availableAt) => EnqueueKeeps(s, job, availableAt);
    case Claim(token, at, chosen) => ClaimKeeps(s, token, at, chosen);
    case Send(token, outcome) => SendKeeps(s, token, outcome);
    case Confirm(token, outcome) => ConfirmKeeps(s, token, outcome);
    case Release(token) => ReleaseKeeps(s, token);
    case Crash(token) => CrashKeeps(s, token);
  }

  lemma {:induction false} RunKeeps(s: Sys, steps: seq<Step>)
    requires Inv(s)
    ensures Inv(Run(s, steps)) && Run(s, steps).timeout == s.timeout
  {
    hide Inv;
    if steps != [] {
      RunKeeps(s, steps[..|steps| - 1]);
      StepKeeps(Run(s, steps[..|steps| - 1]), steps[|steps| - 1]);
    }
  }

  // ---------- what every run satisfies ----------

  /** The rows are a function of the history, and the history is lawful. */
  lemma RowsFollowHistory(timeout: real, steps: seq<Step>)
    ensures var s := Run(Start(timeout), steps);
      && Lawful(s.history, timeout)
      && (forall e, at: real | 0 <= e < |s.rows| ::
        Eligible(s.rows[e], at, timeout) <==>
          && !IsMarked(s.history, e) && s.rows[e].availableAt <= at
          && (Holder(s.history, e).Some? ==> Holder(s.history, e).value.at + timeout < at))
      && (forall e | 0 <= e < |s.rows| :: s.rows[e].publishAttempts == ClaimCount(s.history, e))
  {
    hide Run, Lawful, IsMarked, Holder;
    assert Inv(Start(timeout)) by { StartInv(timeout); }
    RunKeeps(Start(timeout), steps);
  }

  lemma StartInv(timeout: real)
    ensures Inv(Start(timeout))
  {
  }

  ghost predicate ClaimedAt(h: seq<Entry>, i: nat, e: nat) {
    i < |h| && h[i].Claimed? && h[i].event == e
  }

  /** An outstanding claim is the latest one, made at or after any given claim. */
  lemma {:induction false} HolderIsLatest(h: seq<Entry>, e: nat, j: nat)
    requires ClaimedAt(h, j, e)
    ensures Holder(h, e).Some? ==>
      exists m: nat :: j <= m < |h| && h[m] == Claimed(e, Holder(h, e).value.token, Holder(h, e).value.at)
  {
    var front, last := h[..|h| - 1], h[|h| - 1];
    if j < |front| {
      HolderIsLatest(front, e, j);
    }
    if Holder(h, e).Some? && last.Claimed? && last.event == e {
      assert h[|h| - 1] == Claimed(e, last.token, last.at);
    }
  }

  /** A claim that nobody replaced, released or confirmed is outstanding. */
  lemma {:induction false} HolderStays(h: seq<Entry>, e: nat, j: nat)
    requires ClaimedAt(h, j, e)
    requires forall k | j < k < |h| :: h[k].event == e ==> h[k].Sent?
    ensures Holder(h, e) == Some(Hold(h[j].token, h[j].at))
  {
    if j < |h| - 1 {
      HolderStays(h[..|h| - 1], e, j);
    }
  }

  /**
   Two successive claims on a row carry different tokens, and either the second comes
   more than the timeout after the first, or the first holder released the row in between.
   */
  lemma {:induction false} ClaimsAreSeparated(h: seq<Entry>, timeout: real, e: nat, i: nat, j: nat)
    requires Lawful(h, timeout) && i < j && ClaimedAt(h, i, e) && ClaimedAt(h, j, e)
    requires forall k | i < k < j :: !ClaimedAt(h, k, e)
    ensures h[i].token != h[j].token
    ensures h[i].at + timeout < h[j].at || exists k | i < k < j :: h[k] == Released(e, h[i].token)
  {
    hide Holder, IsMarked, HasClaim;
    TokensDiffer(h, timeout, e, i, j);
    if k: nat :| i < k < j && h[k].event == e && !h[k].Sent? {
      if h[k].Marked? {
        ConfirmedOnceAfterSend(h, timeout, e, k);
      } else {
        assert !ClaimedAt(h, k, e);
        ReleaseIsByLatest(h, timeout, e, i, k);
      }
    } else {
      assert MayFollow(h[..j], h[j], timeout);
      forall k | i < k < j ensures h[..j][k].event == e ==> h[..j][k].Sent? { assert h[..j][k] == h[k]; }
      HolderStays(h[..j], e, i);
    }
  }

  /** Two claims on a row never share a token. */
  lemma TokensDiffer(h: seq<Entry>, timeout: real, e: nat, i: nat, j: nat)
    requires Lawful(h, timeout) && i < j && ClaimedAt(h, i, e) && ClaimedAt(h, j, e)
    ensures h[i].token != h[j].token
  {
    hide Holder, IsMarked;
    assert MayFollow(h[..j], h[j], timeout);
    assert h[..j][i] == h[i];
  }

  /** A release names the latest claim before it. */
  lemma ReleaseIsByLatest(h: seq<Entry>, timeout: real, e: nat, i: nat, k: nat)
    requires Lawful(h, timeout) && i < k < |h| && ClaimedAt(h, i, e) && h[k].Released? && h[k].event == e
    requires forall m | i < m < k :: !ClaimedAt(h, m, e)
    ensures h[k].token == h[i].token
  {
    hide Holder, IsMarked, HasClaim;
    var p := h[..k];
    assert MayFollow(p, h[k], timeout);
    assert p[i] == h[i];
    HolderIsLatest(p, e, i);
    var m: nat :| i <= m < k && p[m].Claimed? && p[m].event == e && p[m].token == h[k].token;
    assert ClaimedAt(h, m, e);
  }

  /** Once another claim follows, the earlier claimant neither confirms nor releases. */
  lemma TakenOverIsPowerless(h: seq<Entry>, timeout: real, e: nat, i: nat, j: nat, k: nat)
    requires Lawful(h, timeout) && i < j < k < |h| && ClaimedAt(h, i, e) && ClaimedAt(h, j, e)
    ensures h[k] != Marked(e, h[i].token) && h[k] != Released(e, h[i].token)
  {
    if h[k] == Marked(e, h[i].token) || h[k] == Released(e, h[i].token) {
      var p := h[..k];
      assert MayFollow(p, h[k], timeout);
      assert p[j] == h[j];
      HolderIsLatest(p, e, j);
      var m: nat :| j <= m < k && p[m].Claimed? && p[m].event == e && p[m].token == h[i].token;
      assert ClaimedAt(h, m, e);
      TokensDiffer(h, timeout, e, i, m);
    }
  }

  /** A confirmed row was sent under the confirming token, and is never claimed or confirmed again. */
  lemma ConfirmedOnceAfterSend(h: seq<Entry>, timeout: real, e: nat, i: nat)
    requires Lawful(h, timeout) && i < |h| && h[i].Marked? && h[i].event == e
    ensures exists k | 0 <= k < i :: h[k] == Sent(e, h[i].token)
    ensures forall k | i < k < |h| && h[k].event == e :: !h[k].Claimed? && !h[k].Marked?
  {
    assert MayFollow(h[..i], h[i], timeout);
    var k :| 0 <= k < i && h[..i][k] == Sent(e, h[i].token);
    assert h[k] == Sent(e, h[i].token);
    forall k | i < k < |h| && h[k].event == e ensures !h[k].Claimed? && !h[k].Marked? {
      assert MayFollow(h[..k], h[k], timeout);
      assert h[..k][i] == h[i];
    }
  }

  /** Each claim leads to at most one send, and every send was claimed first. */
  lemma OneSendPerClaim(h: seq<Entry>, timeout: real, j: nat)
    requires Lawful(h, timeout) && j < |h| && h[j].Sent?
    ensures exists i | 0 <= i < j :: h[i].Claimed? && h[i].event == h[j].event && h[i].token == h[j].token
    ensures forall i | 0 <= i < |h| && i != j :: h[i] != h[j]
  {
    assert MayFollow(h[..j], h[j], timeout);
    var i :| 0 <= i < j && h[..j][i].Claimed? && h[..j][i].event == h[j].event && h[..j][i].token == h[j].token;
    assert h[i] == h[..j][i];
    forall i | 0 <= i < |h| && i != j ensures h[i] != h[j] {
      if i < j {
        assert h[..j][i] == h[i];
      } else {
        assert MayFollow(h[..i], h[i], timeout);
        assert h[..i][j] == h[j];
      }
    }
  }

  /** Claims within the timeout need not be disjoint: a release in between frees the row at once. */
  lemma ReleaseFreesAtOnce()
    ensures var s := Run(Start(30.0), [Enqueue(7, 0.0), Claim(1, 0.0, [0]), Send(1, NotDone), Release(1), Claim(2, 0.0, [0])]);
      s.history == [Claimed(0, 1, 0.0), Released(0, 1), Claimed(0, 2, 0.0)]
  {
    hide Run, Apply;
    var steps := [Enqueue(7, 0.0), Claim(1, 0.0, [0]), Send(1, NotDone), Release(1), Claim(2, 0.0, [0])];
    RunOfFive(Start(30.0), steps);
    var row := NewRow(7, 0.0);
    var s1 := Apply(Start(30.0), steps[0]);
    assert s1 == Sys(30.0, [row], map[], {}, []) by { Enqueues(30.0); }
    var s2 := Apply(s1, steps[1]);
    ClaimsOnly(s1, 1, row);
    var s4 := Apply(Apply(s2, steps[2]), steps[3]);
    GivesUp(s2, ClaimRow(row, 1, 0.0));
    ClaimsOnly(s4, 2, ReleaseRow(ClaimRow(row, 1, 0.0), 1));
  }

  lemma RunOfFive(s: Sys, p: seq<Step>)
    requires |p| == 5
    ensures Run(s, p) == Apply(Apply(Apply(Apply(Apply(s, p[0]), p[1]), p[2]), p[3]), p[4])
  {
    hide Apply;
    assert p[..4][..3] == p[..3] && p[..3][..2] == p[..2] && p[..2][..1] == p[..1] && p[..1][..0] == [];
    assert Run(s, p[..1]) == Apply(s, p[0]);
    assert Run(s, p[..2]) == Apply(Run(s, p[..1]), p[1]);
    assert Run(s, p[..3]) == Apply(Run(s, p[..2]), p[2]);
    assert Run(s, p[..4]) == Apply(Run(s, p[..3]), p[3]);
  }

  lemma Enqueues(timeout: real)
    ensures Apply(Start(timeout), Enqueue(7, 0.0)) == Sys(timeout, [NewRow(7, 0.0)], map[], {}, [])
  {
  }

  lemma ClaimsOnly(s: Sys, token: nat, row: Row)
    requires s.rows == [row] && Eligible(row, 0.0, s.timeout) && token !in s.used
    ensures var t := Apply(s, Claim(token, 0.0, [0]));
      && t.rows == [ClaimRow(row, token, 0.0)] && t.history == s.history + [Claimed(0, token, 0.0)]
      && t.publishers == s.publishers[token := Publisher([0], 0, Sending)]
      && t.timeout == s.timeout && t.used == s.used + {token}
  {
    assert Claims([0], token, 0.0) == [Claimed(0, token, 0.0)];
  }

  lemma GivesUp(s: Sys, row: Row)
    requires s.rows == [row] && Held(row, 1) && s.publishers == map[1 := Publisher([0], 0, Sending)]
    ensures var t := Apply(Apply(s, Send(1, NotDone)), Release(1));
      && t.rows == [ReleaseRow(row, 1)] && t.history == s.history + [Released(0, 1)]
      && t.publishers == map[] && t.timeout == s.timeout && t.used == s.used
  {
  }
}
