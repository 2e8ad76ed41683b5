/** The outbox table and one run of its publisher, as the service performs them. */
module OutboxService {
  import opened Wrappers
  import opened OutboxRules
  import opened OutboxProtocol

  /** How many of the first `n` rows may be claimed. */
  function EligibleCount(rows: seq<Row>, n: nat, at: real, timeout: real): nat
    requires n <= |rows|
  {
    if n == 0 then 0
    else EligibleCount(rows, n - 1, at, timeout) + if Eligible(rows[n - 1], at, timeout) then 1 else 0
  }

  /** The eligible rows of lowest event id, at most `limit` of them. */
  ghost predicate FirstEligible(chosen: seq<nat>, rows: seq<Row>, n: nat, limit: nat, at: real, timeout: real)
    requires n <= |rows|
  {
    && |chosen| <= limit
    && Increasing(chosen)
    && (forall k | 0 <= k < |chosen| :: chosen[k] < n && Eligible(rows[chosen[k]], at, timeout))
    && (forall e: nat | e < n && Eligible(rows[e], at, timeout) :: e in chosen || |chosen| == limit)
    && (forall e: nat | e < n && Eligible(rows[e], at, timeout) && e !in chosen :: forall k | 0 <= k < |chosen| :: chosen[k] < e)
  }

  /** The rows a claim takes when no other transaction holds a lock. */
  method SelectEligible(rows: seq<Row>, limit: nat, at: real, timeout: real) returns (chosen: seq<nat>)
    ensures FirstEligible(chosen, rows, |rows|, limit, at, timeout)
    ensures var eligible := EligibleCount(rows, |rows|, at, timeout);
      |chosen| == if eligible <= limit then eligible else limit
  {
    chosen := [];
    for e := 0 to |rows|
      invariant FirstEligible(chosen, rows, e, limit, at, timeout)
      invariant |chosen| == if EligibleCount(rows, e, at, timeout) <= limit then EligibleCount(rows, e, at, timeout) else limit
    {
      if Eligible(rows[e], at, timeout) && |chosen| < limit {
        chosen := chosen + [e];
      }
    }
  }

  /** The rows with the claims on some items confirmed. */
  function Confirmed(rows: seq<Row>, items: seq<nat>, token: nat): seq<Row> {
    seq(|rows|, e requires 0 <= e < |rows| => if e in items then MarkRow(rows[e], token) else rows[e])
  }

  /** What a cycle leaves behind when the first `good` sends return and the next one raises. */
  function Published(rows: seq<Row>, items: seq<nat>, token: nat, good: nat): seq<Row>
    requires good <= |items| && forall k | 0 <= k < |items| :: items[k] < |rows|
  {
    var confirmed := Confirmed(rows, items[..good], token);
    if good == |items| then confirmed
    else confirmed[items[good] := ReleaseRow(rows[items[good]], token)]
  }

  lemma ConfirmNext(rows: seq<Row>, items: seq<nat>, token: nat, k: nat)
    requires k < |items| && Increasing(items) && items[k] < |rows|
    ensures Confirmed(rows, items[..k], token)[items[k]] == rows[items[k]]
    ensures Confirmed(rows, items[..k + 1], token) ==
            Confirmed(rows, items[..k], token)[items[k] := MarkRow(rows[items[k]], token)]
  {
    hide MarkRow;
    assert items[..k + 1] == items[..k] + [items[k]];
    assert items[k] !in items[..k];
  }

  lemma ChosenRows(chosen: seq<nat>, rows: seq<Row>, limit: nat, at: real, timeout: real)
    requires FirstEligible(chosen, rows, |rows|, limit, at, timeout)
    ensures Increasing(chosen) && forall k | 0 <= k < |chosen| :: chosen[k] < |rows| && !rows[chosen[k]].published
  {
  }

  class Outbox {
    var rows: seq<Row>
    const timeout: real

    constructor (timeout: real)
      ensures rows == [] && this.timeout == timeout
    {
      rows, this.timeout := [], timeout;
    }

    method Enqueue(job: nat, availableAt: real) returns (event: nat)
      modifies this`rows
      ensures event == |old(rows)| && rows == old(rows) + [NewRow(job, availableAt)]
    {
      event := |rows|;
      rows := rows + [NewRow(job, availableAt)];
    }

    method ClaimUnpublished(limit: nat, token: nat, at: real) returns (items: seq<nat>)
      modifies this`rows
      ensures FirstEligible(items, old(rows), |old(rows)|, limit, at, timeout)
      ensures rows == ClaimRows(old(rows), items, token, at)
    {
      hide EligibleCount, Eligible;
      items := SelectEligible(rows, limit, at, timeout);
      ghost var before := rows;
      for k := 0 to |items|
        invariant rows == ClaimRows(before, items[..k], token, at)
      {
        var row := rows[items[k]];
        rows := rows[items[k] := row.(claimedAt := Some(at), token := Some(token), publishAttempts := row.publishAttempts + 1)];
        assert items[..k + 1] == items[..k] + [items[k]];
      }
      assert items[..|items|] == items;
    }

    /** Raises when the claim was lost. */
    method MarkPublished(event: nat, token: nat) returns (confirmed: bool)
      requires event < |rows|
      modifies this`rows
      ensures confirmed <==> Held(old(rows)[event], token)
      ensures rows == old(rows)[event := MarkRow(old(rows)[event], token)]
    {
      confirmed := rows[event].token == Some(token) && !rows[event].published;
      if confirmed {
        rows := rows[event := rows[event].(published := true, claimedAt := None, token := None)];
      }
    }

    method ReleaseClaim(event: nat, token: nat)
      requires event < |rows|
      modifies this`rows
      ensures rows == old(rows)[event := ReleaseRow(old(rows)[event], token)]
    {
      if rows[event].token == Some(token) && !rows[event].published {
        rows := rows[event := rows[event].(claimedAt := None, token := None)];
      }
    }

    /**
     One publisher cycle with the table to itself: claim, then send and confirm in
     order; `sends(k)` and `confirms(k)` say whether the k-th send and confirmation
     return.  The first that raises frees its row and ends the cycle; later items stay
     claimed until the timeout.
     */
    method PublishOutbox(limit: nat, token: nat, at: real, sends: nat -> bool, confirms: nat -> bool)
      returns (items: seq<nat>, published: nat, raised: bool, sent: seq<nat>)
      modifies this`rows
      ensures FirstEligible(items, old(rows), |old(rows)|, limit, at, timeout)
      ensures published <= |items| && (forall k | 0 <= k < published :: sends(k) && confirms(k))
      ensures raised <==> published < |items|
      ensures raised ==> !sends(published) || !confirms(published)
      ensures |sent| == published + if raised && sends(published) then 1 else 0
      ensures forall k | 0 <= k < |sent| :: sent[k] == old(rows)[items[k]].job
      ensures rows == Published(ClaimRows(old(rows), items, token, at), items, token, published)
    {
      hide Increasing, Confirmed, FirstEligible, ReleaseRow;
      items := ClaimUnpublished(limit, token, at);
      ChosenRows(items, old(rows), limit, at, timeout);
      ghost var claimed := rows;
      assert Confirmed(claimed, [], token) == claimed by { NoneConfirmed(claimed, token); }
      published, raised, sent := 0, false, [];
      assert items[..0] == [];
      for k := 0 to |items|
        invariant published == k && |sent| == k
        invariant forall i | 0 <= i < k :: sends(i) && confirms(i) && sent[i] == old(rows)[items[i]].job
        invariant !raised && |rows| == |claimed| && rows == Confirmed(claimed, items[..k], token)
      {
        ConfirmNext(claimed, items, token, k);
        if !sends(k) {
          ReleaseClaim(items[k], token);
          raised := true;
          return;
        }
        sent := sent + [rows[items[k]].job];
        if !confirms(k) {
          ReleaseClaim(items[k], token);
          raised := true;
          return;
        }
        var confirmed := MarkPublished(items[k], token);
        assert confirmed;
        published := published + 1;
      }
    }
  }

  lemma NoneConfirmed(rows: seq<Row>, token: nat)
    ensures Confirmed(rows, [], token) == rows
  {
  }

  // ---------- a cycle is a run of the protocol ----------

  /** Sends and confirmations of the first items. */
  function GoodSteps(token: nat, good: nat): seq<Step> {
    if good == 0 then [] else GoodSteps(token, good - 1) + [Send(token, Done), Confirm(token, Done)]
  }

  /** The last send or confirmation raised, if items are left. */
  function CycleSteps(items: seq<nat>, token: nat, at: real, good: nat, sent: bool): seq<Step> {
    [Claim(token, at, items)] + GoodSteps(token, good)
    + if good == |items| then []
      else (if sent then [Send(token, Done), Confirm(token, NotDone)] else [Send(token, NotDone)]) + [Release(token)]
  }

  lemma {:induction false} GoodCycle(s: Sys, items: seq<nat>, token: nat, at: real, good: nat)
    requires token !in s.used && good <= |items| && Increasing(items)
    requires forall k | 0 <= k < |items| :: items[k] < |s.rows| && Eligible(s.rows[items[k]], at, s.timeout)
    ensures var t := Run(s, [Claim(token, at, items)] + GoodSteps(token, good));
      && t.rows == Confirmed(ClaimRows(s.rows, items, token, at), items[..good], token)
      && t.publishers == s.publishers[token := Publisher(items, good, Sending)]
  {
    hide Run, Apply, Increasing, Confirmed;
    var claimed := ClaimRows(s.rows, items, token, at);
    var claim := [Claim(token, at, items)];
    if good == 0 {
      RunMore(s, [], claim[0]);
      assert [] + claim == claim == claim + GoodSteps(token, 0);
      RunNothing(s);
      ClaimStep(s, items, token, at);
      NoneConfirmed(claimed, token);
      assert items[..0] == [];
    } else {
      var before := claim + GoodSteps(token, good - 1);
      var t := Run(s, before);
      GoodCycle(s, items, token, at, good - 1);
      RunTwoMore(s, before, Send(token, Done), Confirm(token, Done));
      assert before + [Send(token, Done), Confirm(token, Done)] == claim + GoodSteps(token, good);
      assert |t.rows| == |claimed| by { SameLength(claimed, items[..good - 1], token); }
      ConfirmNext(claimed, items, token, good - 1);
      GoodStep(t, items, token, good - 1);
    }
  }

  lemma ClaimStep(s: Sys, items: seq<nat>, token: nat, at: real)
    requires token !in s.used && Increasing(items)
    requires forall k | 0 <= k < |items| :: items[k] < |s.rows| && Eligible(s.rows[items[k]], at, s.timeout)
    ensures var t := Apply(s, Claim(token, at, items));
      && t.rows == ClaimRows(s.rows, items, token, at)
      && t.publishers == s.publishers[token := Publisher(items, 0, Sending)]
  {
  }

  lemma GoodStep(t: Sys, items: seq<nat>, token: nat, k: nat)
    requires k < |items| && items[k] < |t.rows| && Held(t.rows[items[k]], token)
    requires token in t.publishers && t.publishers[token] == Publisher(items, k, Sending)
    ensures var u := Apply(Apply(t, Send(token, Done)), Confirm(token, Done));
      && u.rows == t.rows[items[k] := MarkRow(t.rows[items[k]], token)]
      && u.publishers == t.publishers[token := Publisher(items, k + 1, Sending)]
  {
  }

  lemma BadStep(t: Sys, items: seq<nat>, token: nat, k: nat)
    requires k < |items| && items[k] < |t.rows| && Held(t.rows[items[k]], token)
    requires token in t.publishers && t.publishers[token] == Publisher(items, k, Sending)
    ensures var freed := t.rows[items[k] := ReleaseRow(t.rows[items[k]], token)];
      && Apply(Apply(t, Send(token, NotDone)), Release(token)).rows == freed
      && Apply(Apply(Apply(t, Send(token, Done)), Confirm(token, NotDone)), Release(token)).rows == freed
  {
  }

  lemma SameLength(rows: seq<Row>, items: seq<nat>, token: nat)
    ensures |Confirmed(rows, items, token)| == |rows|
  {
  }

  lemma RunNothing(s: Sys)
    ensures Run(s, []) == s
  {
  }

  lemma RunMore(s: Sys, steps: seq<Step>, step: Step)
    ensures Run(s, steps + [step]) == Apply(Run(s, steps), step)
  {
    hide Apply;
    assert (steps + [step])[..|steps|] == steps;
  }

  lemma RunTwoMore(s: Sys, steps: seq<Step>, a: Step, b: Step)
    ensures Run(s, steps + [a, b]) == Apply(Apply(Run(s, steps), a), b)
  {
    hide Run, Apply;
    RunMore(s, steps, a);
    RunMore(s, steps + [a], b);
    assert steps + [a] + [b] == steps + [a, b];
  }

  /** What PublishOutbox leaves in the table is what its steps leave in the protocol. */
  lemma CycleIsARun(s: Sys, items: seq<nat>, limit: nat, token: nat, at: real, good: nat, sent: bool)
    requires token !in s.used && good <= |items| && FirstEligible(items, s.rows, |s.rows|, limit, at, s.timeout)
    ensures Run(s, CycleSteps(items, token, at, good, sent)).rows ==
            Published(ClaimRows(s.rows, items, token, at), items, token, good)
  {
    hide Run, Apply, Confirmed, Increasing;
    var before := [Claim(token, at, items)] + GoodSteps(token, good);
    var claimed := ClaimRows(s.rows, items, token, at);
    GoodCycle(s, items, token, at, good);
    if good == |items| {
      assert before + [] == before == CycleSteps(items, token, at, good, sent);
    } else {
      SameLength(claimed, items[..good], token);
      ConfirmNext(claimed, items, token, good);
      BadStep(Run(s, before), items, token, good);
      if sent {
        RunTwoMore(s, before, Send(token, Done), Confirm(token, NotDone));
        RunMore(s, before + [Send(token, Done), Confirm(token, NotDone)], Release(token));
        assert before + [Send(token, Done), Confirm(token, NotDone)] + [Release(token)] == CycleSteps(items, token, at, good, sent);
      } else {
        RunTwoMore(s, before, Send(token, NotDone), Release(token));
        assert before + [Send(token, NotDone), Release(token)] == CycleSteps(items, token, at, good, sent);
      }
    }
  }
}
