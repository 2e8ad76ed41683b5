/**
 The per-client sliding-window limiter.  A bucket keeps the admission times of one
 client, pruned from the front; the theorems compare it with the full history.
 */
module SlidingWindow {
  import opened Hits

  datatype Rule = Rule(limit: int, window: real)

  function Prune(bucket: seq<real>, cutoff: real): seq<real> {
    if bucket != [] && bucket[0] < cutoff then Prune(bucket[1..], cutoff) else bucket
  }

  /** One check against a bucket: the bucket afterwards, and whether the request goes through. */
  function Checked(bucket: seq<real>, rule: Rule, now: real): (seq<real>, bool) {
    var kept := Prune(bucket, now - rule.window);
    if |kept| >= rule.limit then (kept, false) else (kept + [now], true)
  }

  function Bucket(h: seq<Hit>, client: string, rule: Rule): seq<real> {
    if h == [] then []
    else
      var before := Bucket(h[..|h| - 1], client, rule);
      var hit := h[|h| - 1];
      if hit.key == client && rule.limit > 0 then Checked(before, rule, hit.now).0 else before
  }

  /** Whether a request arriving after history `h` is admitted. */
  predicate Admits(h: seq<Hit>, hit: Hit, rule: Rule) {
    rule.limit <= 0 || Checked(Bucket(h, hit.key, rule), rule, hit.now).1
  }

  /** Admission times of one client, oldest first. */
  function Admissions(h: seq<Hit>, client: string, rule: Rule): seq<real> {
    if h == [] then []
    else
      var front, hit := h[..|h| - 1], h[|h| - 1];
      Admissions(front, client, rule) + if hit.key == client && Admits(front, hit, rule) then [hit.now] else []
  }

  /** How many of the times lie in a closed interval. */
  function Within(times: seq<real>, from: real, to: real): nat {
    if times == [] then 0
    else Within(times[..|times| - 1], from, to) + if from <= times[|times| - 1] <= to then 1 else 0
  }

  /** No time is more than `d` below an earlier one; sorted when `d` is zero. */
  ghost predicate SortedUpTo(times: seq<real>, d: real) {
    forall i, j | 0 <= i <= j < |times| :: times[i] - times[j] <= d
  }

  /** The bucket is what is left of the admissions after dropping times before `cutoff`. */
  ghost predicate Suffix(bucket: seq<real>, times: seq<real>, cutoff: real) {
    && |bucket| <= |times| && bucket == times[|times| - |bucket|..]
    && forall i | 0 <= i < |times| - |bucket| :: times[i] < cutoff
  }

  // ---------- pruning ----------

  lemma {:induction false} PruneDrops(bucket: seq<real>, cutoff: real)
    ensures Suffix(Prune(bucket, cutoff), bucket, cutoff)
    ensures Prune(bucket, cutoff) != [] ==> Prune(bucket, cutoff)[0] >= cutoff
  {
    if bucket != [] && bucket[0] < cutoff {
      var rest, kept := bucket[1..], Prune(bucket[1..], cutoff);
      PruneDrops(rest, cutoff);
      var dropped := |bucket| - |kept|;
      assert kept == rest[dropped - 1..] == bucket[dropped..];
      forall i | 0 <= i < dropped ensures bucket[i] < cutoff {
        if i > 0 { assert bucket[i] == rest[i - 1]; }
      }
    }
  }

  lemma PruneSuffix(bucket: seq<real>, times: seq<real>, bound: real, cutoff: real)
    requires Suffix(bucket, times, bound) && cutoff <= bound
    ensures Suffix(Prune(bucket, cutoff), times, bound)
  {
    PruneDrops(bucket, cutoff);
    var dropped, kept := |times| - |bucket|, |Prune(bucket, cutoff)|;
    forall i | dropped <= i < |times| - kept ensures times[i] < bound {
      assert times[i] == bucket[i - dropped];
    }
  }

  /** Only the last `k` times can lie at or above `from`. */
  lemma {:induction false} WithinAtMost(times: seq<real>, k: nat, from: real, to: real)
    requires k <= |times| && forall i | 0 <= i < |times| - k :: times[i] < from
    ensures Within(times, from, to) <= k
  {
    if times != [] {
      WithinAtMost(times[..|times| - 1], if k > 0 then k - 1 else 0, from, to);
    }
  }

  /** The last `k` times all lie in the interval. */
  lemma {:induction false} WithinAtLeast(times: seq<real>, k: nat, from: real, to: real)
    requires k <= |times| && forall i | |times| - k <= i < |times| :: from <= times[i] <= to
    ensures Within(times, from, to) >= k
  {
    if k > 0 {
      WithinAtLeast(times[..|times| - 1], k - 1, from, to);
    }
  }

  lemma WithinMore(times: seq<real>, t: real, from: real, to: real)
    ensures Within(times + [t], from, to) == Within(times, from, to) + if from <= t <= to then 1 else 0
  {
    assert (times + [t])[..|times|] == times;
  }

  /** A narrower interval holds no more times, as long as both reach past every time. */
  lemma {:induction false} WithinNarrower(times: seq<real>, from: real, to: real, wideFrom: real, wideTo: real)
    requires wideFrom <= from && forall i | 0 <= i < |times| :: times[i] <= wideTo
    ensures Within(times, from, to) <= Within(times, wideFrom, wideTo)
  {
    if times != [] {
      WithinNarrower(times[..|times| - 1], from, to, wideFrom, wideTo);
    }
  }

  // ---------- the bucket is the recent history ----------

  /** Bucket and admissions after one more hit. */
  lemma OneMore(h: seq<Hit>, hit: Hit, client: string, rule: Rule)
    ensures Bucket(h + [hit], client, rule) ==
      if hit.key == client && rule.limit > 0 then Checked(Bucket(h, client, rule), rule, hit.now).0 else Bucket(h, client, rule)
    ensures Admissions(h + [hit], client, rule) ==
      Admissions(h, client, rule) + if hit.key == client && Admits(h, hit, rule) then [hit.now] else []
  {
    hide Checked, Admits;
    assert (h + [hit])[..|h|] == h;
  }

  /** The bucket before a check at `now`, when readings go back by at most `d`. */
  ghost predicate Recent(bucket: seq<real>, times: seq<real>, rule: Rule, d: real, now: real) {
    && Suffix(bucket, times, now + d - rule.window)
    && SortedUpTo(times, d)
    && (forall i | 0 <= i < |times| :: times[i] <= now + d)
  }

  /** `hit` was checked between the history of `times` and the check at `now`. */
  lemma CheckKeeps(bucket: seq<real>, times: seq<real>, rule: Rule, d: real, hit: real, now: real)
    requires Recent(bucket, times, rule, d, hit) && Recent(bucket, times, rule, d, now) && hit <= now + d && d >= 0.0
    ensures var (after, allowed) := Checked(bucket, rule, hit);
      Recent(after, times + if allowed then [hit] else [], rule, d, now)
  {
    hide Prune;
    PruneSuffix(bucket, times, now + d - rule.window, hit - rule.window);
  }

  /**
   The bucket before the next check of its client is the tail of the client's admissions:
   what was dropped is older than that check's window, up to the skew.
   */
  lemma {:induction false} BucketIsRecent(h: seq<Hit>, client: string, rule: Rule, d: real, now: real)
    requires SkewAtMost(h + [Hit(client, now)], client, d) && rule.limit > 0
    ensures Recent(Bucket(h, client, rule), Admissions(h, client, rule), rule, d, now)
  {
    hide Recent, Checked, Bucket, Admissions, SkewAtMost;
    if h == [] {
      Nothing(client, rule, d, now);
    } else {
      var front, hit := h[..|h| - 1], h[|h| - 1];
      assert front + [hit] == h;
      SkewWithout(front, hit, client, now, d);
      OneMore(front, hit, client, rule);
      BucketIsRecent(front, client, rule, d, now);
      var bucket, times := Bucket(front, client, rule), Admissions(front, client, rule);
      assert times + [] == times;
      if hit.key == client {
        BucketIsRecent(front, client, rule, d, hit.now);
        CheckKeeps(bucket, times, rule, d, hit.now, now);
        assert Admits(front, hit, rule) <==> Checked(bucket, rule, hit.now).1;
      }
    }
  }

  lemma SkewWithout(h: seq<Hit>, hit: Hit, client: string, now: real, d: real)
    requires SkewAtMost(h + [hit] + [Hit(client, now)], client, d)
    ensures SkewAtMost(h + [Hit(client, now)], client, d) && d >= 0.0
    ensures hit.key == client ==> SkewAtMost(h + [Hit(client, hit.now)], client, d) && hit.now <= now + d
  {
    var g := h + [hit] + [Hit(client, now)];
    assert forall i | 0 <= i < |h| :: g[i] == h[i];
    assert g[|h|] == hit && g[|h| + 1] == Hit(client, now);
  }

  lemma Nothing(client: string, rule: Rule, d: real, now: real)
    requires SkewAtMost([] + [Hit(client, now)], client, d)
    ensures Recent(Bucket([], client, rule), Admissions([], client, rule), rule, d, now)
  {
  }

  lemma KeptAreWithin(bucket: seq<real>, times: seq<real>, rule: Rule, d: real, now: real)
    requires Recent(bucket, times, rule, d, now) && d >= 0.0
    ensures var kept := |Prune(bucket, now - rule.window)|;
      Within(times, now + d - rule.window, now + d) <= kept <= Within(times, now - d - rule.window, now + d)
  {
    hide Prune, Within;
    var cutoff := now - rule.window;
    PruneSuffix(bucket, times, now + d - rule.window, cutoff);
    PruneDrops(bucket, cutoff);
    var kept := Prune(bucket, cutoff);
    var first := |times| - |kept|;
    WithinAtMost(times, |kept|, now + d - rule.window, now + d);
    forall i | first <= i < |times| ensures now - d - rule.window <= times[i] <= now + d {
      assert times[first] == kept[0];
    }
    WithinAtLeast(times, |kept|, now - d - rule.window, now + d);
  }

  // ---------- what a check decides ----------

  /** With readings that go back by at most `d`, the decision is that of the window up to `d` at its ends. */
  lemma AdmitsUpToSkew(h: seq<Hit>, hit: Hit, rule: Rule, d: real)
    requires SkewAtMost(h + [hit], hit.key, d) && rule.limit > 0
    ensures var times := Admissions(h, hit.key, rule);
      && (Within(times, hit.now + d - rule.window, hit.now + d) >= rule.limit ==> !Admits(h, hit, rule))
      && (Within(times, hit.now - d - rule.window, hit.now + d) < rule.limit ==> Admits(h, hit, rule))
  {
    hide Bucket, Admissions, Prune, Within;
    SkewEarlier(h, hit, d);
    BucketIsRecent(h, hit.key, rule, d, hit.now);
    KeptAreWithin(Bucket(h, hit.key, rule), Admissions(h, hit.key, rule), rule, d, hit.now);
  }

  /**
   When the client's own readings are in order, a request goes through iff fewer than
   `limit` of its earlier admissions lie in the window ending now.
   */
  lemma AdmitsMeans(h: seq<Hit>, hit: Hit, rule: Rule)
    requires InOrder(h + [hit], hit.key) && rule.limit > 0
    ensures Admits(h, hit, rule) <==>
            Within(Admissions(h, hit.key, rule), hit.now - rule.window, hit.now) < rule.limit
  {
    hide Admits, Admissions, Within;
    AdmitsUpToSkew(h, hit, rule, 0.0);
  }

  // ---------- how many go through ----------

  /** With readings that go back by at most `d`, intervals shorter than the window by `d` keep the limit. */
  lemma {:induction false} LimitUpToSkew(h: seq<Hit>, client: string, rule: Rule, d: real, from: real)
    requires SkewAtMost(h, client, d) && d >= 0.0 && rule.limit > 0
    ensures Within(Admissions(h, client, rule), from, from + rule.window - d) <= rule.limit
  {
    hide Bucket, Admits, Admissions, Within, SkewAtMost, Suffix, SortedUpTo;
    if h == [] {
      NoneWithin(client, rule, from, from + rule.window - d);
    } else {
      var front, hit := h[..|h| - 1], h[|h| - 1];
      assert front + [hit] == h;
      SkewFront(front, hit, client, d);
      OneMore(front, hit, client, rule);
      LimitUpToSkew(front, client, rule, d, from);
      var times := Admissions(front, client, rule);
      assert times + [] == times;
      if hit.key == client && Admits(front, hit, rule) {
        AdmitsUpToSkew(front, hit, rule, d);
        BucketIsRecent(front, client, rule, d, hit.now);
        OneMoreWithin(times, rule, d, hit.now, from);
      }
    }
  }

  lemma SkewFront(h: seq<Hit>, hit: Hit, client: string, d: real)
    requires SkewAtMost(h + [hit], client, d)
    ensures SkewAtMost(h, client, d) && (hit.key == client ==> h + [hit] == h + [Hit(client, hit.now)])
  {
    var g := h + [hit];
    assert forall i | 0 <= i < |h| :: g[i] == h[i];
  }

  lemma OneMoreWithin(times: seq<real>, rule: Rule, d: real, now: real, from: real)
    requires forall i | 0 <= i < |times| :: times[i] <= now + d
    requires Within(times, from, from + rule.window - d) <= rule.limit
    requires Within(times, now + d - rule.window, now + d) < rule.limit
    ensures Within(times + [now], from, from + rule.window - d) <= rule.limit
  {
    hide Within;
    WithinMore(times, now, from, from + rule.window - d);
    if from <= now <= from + rule.window - d {
      WithinNarrower(times, from, from + rule.window - d, now + d - rule.window, now + d);
    }
  }

  lemma NoneWithin(client: string, rule: Rule, from: real, to: real)
    ensures Within(Admissions([], client, rule), from, to) == 0
  {
  }

  /**
   When the client's own readings are in order, no closed interval of the window's length
   holds more than `limit` of its admissions.
   */
  lemma NeverMoreThanLimit(h: seq<Hit>, client: string, rule: Rule, from: real)
    requires InOrder(h, client) && rule.limit > 0
    ensures Within(Admissions(h, client, rule), from, from + rule.window) <= rule.limit
  {
    hide Admissions, Within;
    LimitUpToSkew(h, client, rule, 0.0, from);
  }

  // ---------- the bound is exact ----------

  function Burst(client: string, now: real, m: nat): seq<Hit> {
    if m == 0 then [] else Burst(client, now, m - 1) + [Hit(client, now)]
  }

  /** Hits at one moment on an empty bucket go through as long as there is room. */
  lemma {:induction false} BurstAdmitted(client: string, rule: Rule, m: nat)
    requires m <= rule.limit
    ensures var h := Burst(client, 0.0, m);
      && |h| == m && (forall i | 0 <= i < m :: h[i] == Hit(client, 0.0))
      && |Bucket(h, client, rule)| <= m
      && (forall i | 0 <= i < |Bucket(h, client, rule)| :: Bucket(h, client, rule)[i] == 0.0)
      && |Admissions(h, client, rule)| == m && (forall i | 0 <= i < m :: Admissions(h, client, rule)[i] == 0.0)
  {
    hide Bucket, Admissions, Prune;
    if m == 0 {
      EmptyStart(client, rule);
    } else {
      var before, hit := Burst(client, 0.0, m - 1), Hit(client, 0.0);
      BurstAdmitted(client, rule, m - 1);
      OneMore(before, hit, client, rule);
      PruneDrops(Bucket(before, client, rule), 0.0 - rule.window);
    }
  }

  lemma EmptyStart(client: string, rule: Rule)
    ensures Bucket([], client, rule) == [] && Admissions([], client, rule) == []
  {
  }

  lemma {:induction false} PruneAll(bucket: seq<real>, cutoff: real)
    requires forall i | 0 <= i < |bucket| :: bucket[i] < cutoff
    ensures Prune(bucket, cutoff) == []
  {
    if bucket != [] { PruneAll(bucket[1..], cutoff); }
  }

  /** A check whose bucket holds less than the limit, whatever is pruned. */
  lemma RoomAdmits(h: seq<Hit>, hit: Hit, rule: Rule)
    requires rule.limit > 0 && |Bucket(h, hit.key, rule)| < rule.limit
    ensures Admits(h, hit, rule)
  {
    hide Bucket;
    PruneDrops(Bucket(h, hit.key, rule), hit.now - rule.window);
  }

  /** Any longer interval can hold one admission too many. */
  lemma Exceeds(client: string, rule: Rule, d: real, length: real) returns (h: seq<Hit>)
    requires rule.limit >= 2 && d >= 0.0 && length >= 0.0 && length > rule.window - d
    ensures SkewAtMost(h, client, d) && Within(Admissions(h, client, rule), 0.0, 0.0 + length) > rule.limit
  {
    hide Bucket, Admissions, Prune, Within, Admits, Burst;
    var burst := Burst(client, 0.0, rule.limit);
    BurstAdmitted(client, rule, rule.limit);
    var ahead, behind := Hit(client, length + d), Hit(client, length);
    OneMore(burst, ahead, client, rule);
    FullAdmits(burst, ahead, rule);
    var more := burst + [ahead];
    OneMore(more, behind, client, rule);
    RoomAdmits(more, behind, rule);
    h := more + [behind];
    var times := Admissions(burst, client, rule);
    WithinAtLeast(times, rule.limit, 0.0, length);
    WithinMore(times, ahead.now, 0.0, length);
    WithinMore(times + [ahead.now], behind.now, 0.0, length);
  }

  /** A late reading empties the bucket of a full burst. */
  lemma FullAdmits(h: seq<Hit>, hit: Hit, rule: Rule)
    requires rule.limit > 0 && hit.now > rule.window
    requires forall i | 0 <= i < |Bucket(h, hit.key, rule)| :: Bucket(h, hit.key, rule)[i] == 0.0
    ensures Admits(h, hit, rule) && Checked(Bucket(h, hit.key, rule), rule, hit.now).0 == [hit.now]
  {
    hide Bucket;
    PruneAll(Bucket(h, hit.key, rule), hit.now - rule.window);
  }

  /** No closed interval of this length holds more than `limit` admissions of the client. */
  ghost predicate KeepsLimit(h: seq<Hit>, client: string, rule: Rule, length: real) {
    forall from: real, to: real | to == from + length :: Within(Admissions(h, client, rule), from, to) <= rule.limit
  }

  /** However the requests of a client arrive, as long as its readings go back by at most `d`. */
  ghost predicate AlwaysKeepsLimit(rule: Rule, d: real, length: real) {
    forall h, client | SkewAtMost(h, client, d) :: KeepsLimit(h, client, rule, length)
  }

  /** Within the skew, the limit holds of the closed intervals of a length exactly up to window - d. */
  lemma BoundIsExact(rule: Rule, d: real, length: real)
    requires rule.limit >= 2 && d >= 0.0 && length >= 0.0
    ensures AlwaysKeepsLimit(rule, d, length) <==> length <= rule.window - d
  {
    hide Admissions, Within, SkewAtMost;
    if length <= rule.window - d {
      forall h, client | SkewAtMost(h, client, d) ensures KeepsLimit(h, client, rule, length) {
        forall from: real, to: real | to == from + length
          ensures Within(Admissions(h, client, rule), from, to) <= rule.limit
        {
          LimitUpToSkew(h, client, rule, d, from);
          Shorter(Admissions(h, client, rule), from, to, from + rule.window - d);
        }
      }
    } else {
      var h := Exceeds("", rule, d, length);
      assert !KeepsLimit(h, "", rule, length);
    }
  }

  lemma {:induction false} Shorter(times: seq<real>, from: real, to: real, longer: real)
    requires to <= longer
    ensures Within(times, from, to) <= Within(times, from, longer)
  {
    if times != [] { Shorter(times[..|times| - 1], from, to, longer); }
  }

  /** The limit holds of the window itself exactly when no reading of the client may go back. */
  lemma WindowNeedsOrder(rule: Rule, d: real)
    requires rule.limit >= 2 && rule.window >= 0.0 && d >= 0.0
    ensures AlwaysKeepsLimit(rule, d, rule.window) <==> d == 0.0
  {
    hide AlwaysKeepsLimit;
    BoundIsExact(rule, d, rule.window);
  }

  // ---------- a limit of one needs no order ----------

  ghost predicate Spaced(times: seq<real>, gap: real) {
    forall i, j | 0 <= i && j == i + 1 && j < |times| :: times[i] + gap < times[j]
  }

  lemma {:induction false} OneAtATime(h: seq<Hit>, client: string, rule: Rule)
    requires rule.limit == 1
    ensures var times := Admissions(h, client, rule);
      Spaced(times, rule.window) && Bucket(h, client, rule) == if times == [] then [] else [times[|times| - 1]]
  {
    hide Bucket, Admissions;
    if h == [] {
      EmptyStart(client, rule);
    } else {
      var front, hit := h[..|h| - 1], h[|h| - 1];
      assert front + [hit] == h;
      OneAtATime(front, client, rule);
      OneMore(front, hit, client, rule);
      assert Admissions(front, client, rule) + [] == Admissions(front, client, rule);
      assert |Bucket(front, client, rule)| <= 1;
      var bucket := Bucket(front, client, rule);
      if bucket != [] {
        assert bucket[1..] == [] && Prune([], hit.now - rule.window) == [];
      }
    }
  }

  lemma {:induction false} SpacedBefore(times: seq<real>, gap: real, i: nat)
    requires Spaced(times, gap) && gap >= 0.0 && i + 1 < |times|
    ensures times[i] + gap < times[|times| - 1]
    decreases |times| - i
  {
    if i + 2 < |times| {
      SpacedBefore(times, gap, i + 1);
    }
  }

  /** With a limit of one the bound holds for readings in any order. */
  lemma LimitOneNeedsNoOrder(h: seq<Hit>, client: string, rule: Rule, from: real)
    requires rule.limit == 1
    ensures Within(Admissions(h, client, rule), from, from + rule.window) <= 1
  {
    hide Admissions, Within;
    OneAtATime(h, client, rule);
    SpacedWithin(Admissions(h, client, rule), rule.window, from);
  }

  lemma {:induction false} SpacedWithin(times: seq<real>, gap: real, from: real)
    requires Spaced(times, gap)
    ensures Within(times, from, from + gap) <= 1
  {
    if times != [] {
      var front, last := times[..|times| - 1], times[|times| - 1];
      SpacedWithin(front, gap, from);
      if from <= last <= from + gap {
        forall i | 0 <= i < |front| ensures front[i] < from { SpacedBefore(times, gap, i); }
        WithinAtMost(front, 0, from, from + gap);
      }
    }
  }

  /** Two requests that take the lock against the order of their readings: three in a window of two. */
  lemma OutOfOrderExceeds()
    ensures var rule := Rule(2, 10.0);
      var h := [Hit("a", 0.5), Hit("a", 0.6), Hit("a", 11.0)];
      var late := Hit("a", 10.4);
      && Admissions(h + [late], "a", rule) == [0.5, 0.6, 11.0, 10.4]
      && Within(Admissions(h + [late], "a", rule), 0.5, 10.5) == 3
      && Admits(h, late, rule) && Within(Admissions(h, "a", rule), 0.4, 10.4) == 2
  {
    hide Bucket, Admissions, Within, Admits;
    var rule := Rule(2, 10.0);
    var a, b, c, late := Hit("a", 0.5), Hit("a", 0.6), Hit("a", 11.0), Hit("a", 10.4);
    EmptyStart("a", rule);
    OneMore([], a, "a", rule);
    assert Prune([], 0.5 - 10.0) == [];
    FirstAdmits(a, rule);
    OneMore([] + [a], b, "a", rule);
    RoomAdmits([] + [a], b, rule);
    assert Prune([0.5], 0.6 - 10.0) == [0.5];
    OneMore([a, b], c, "a", rule);
    Drops();
    assert [] + [a] + [b] == [a, b] && [a, b] + [c] == [a, b, c];
    TwoDropped([a, b], c, rule);
    assert Bucket([a, b, c], "a", rule) == [11.0];
    assert [0.5, 0.6] + [11.0] == [0.5, 0.6, 11.0] && [0.5, 0.6, 11.0] + [10.4] == [0.5, 0.6, 11.0, 10.4];
    OneMore([a, b, c], late, "a", rule);
    RoomAdmits([a, b, c], late, rule);
    assert Admissions([a, b, c], "a", rule) == [0.5, 0.6, 11.0];
    Counts();
  }

  lemma FirstAdmits(hit: Hit, rule: Rule)
    requires rule.limit > 0
    ensures Admits([], hit, rule)
  {
    EmptyStart(hit.key, rule);
  }

  lemma Drops()
    ensures Prune([0.5, 0.6], 1.0) == []
  {
    PruneAll([0.5, 0.6], 1.0);
  }

  lemma TwoDropped(h: seq<Hit>, hit: Hit, rule: Rule)
    requires rule == Rule(2, 10.0) && hit.now == 11.0 && Bucket(h, hit.key, rule) == [0.5, 0.6]
    ensures Admits(h, hit, rule) && Checked(Bucket(h, hit.key, rule), rule, hit.now).0 == [11.0]
  {
    hide Bucket;
    Drops();
  }

  lemma Counts()
    ensures Within([0.5, 0.6, 11.0, 10.4], 0.5, 10.5) == 3 && Within([0.5, 0.6, 11.0], 0.4, 10.4) == 2
  {
    hide Within;
    assert Within([], 0.5, 10.5) == 0 && Within([], 0.4, 10.4) == 0 by { NoTimes(0.5, 10.5); NoTimes(0.4, 10.4); }
    WithinMore([], 0.5, 0.5, 10.5);
    WithinMore([], 0.5, 0.4, 10.4);
    assert [] + [0.5] == [0.5] && [0.5] + [0.6] == [0.5, 0.6] && [0.5, 0.6] + [11.0] == [0.5, 0.6, 11.0];
    WithinMore([0.5], 0.6, 0.5, 10.5);
    WithinMore([0.5], 0.6, 0.4, 10.4);
    WithinMore([0.5, 0.6], 11.0, 0.5, 10.5);
    WithinMore([0.5, 0.6], 11.0, 0.4, 10.4);
    WithinMore([0.5, 0.6, 11.0], 10.4, 0.5, 10.5);
    assert [0.5, 0.6, 11.0] + [10.4] == [0.5, 0.6, 11.0, 10.4];
  }

  lemma NoTimes(from: real, to: real)
    ensures Within([], from, to) == 0
  {
  }

  /** Without a positive limit every request goes through and nothing is remembered. */
  lemma NoLimitNoRecord(h: seq<Hit>, hit: Hit, rule: Rule)
    requires rule.limit <= 0
    ensures Admits(h, hit, rule) && Bucket(h, hit.key, rule) == []
  {
    if h != [] { NoLimitNoRecord(h[..|h| - 1], hit, rule); }
  }

  // ---------- clients do not interfere ----------

  lemma {:induction false} BucketOfOwnHits(h: seq<Hit>, client: string, rule: Rule)
    ensures Bucket(h, client, rule) == Bucket(Only(h, client), client, rule)
  {
    hide Checked, Bucket;
    if h != [] {
      var front, hit := h[..|h| - 1], h[|h| - 1];
      BucketOfOwnHits(front, client, rule);
      assert front + [hit] == h && Only(front, client) + [] == Only(front, client);
      OneMore(front, hit, client, rule);
      OneMore(Only(front, client), hit, client, rule);
    }
  }

  /** A client's requests are answered as if it were alone. */
  lemma ClientsDoNotInterfere(h: seq<Hit>, hit: Hit, rule: Rule)
    ensures Admits(h, hit, rule) <==> Admits(Only(h, hit.key), hit, rule)
  {
    BucketOfOwnHits(h, hit.key, rule);
  }

  // ---------- the limiter ----------

  class Limiter {
    var hits: map<string, seq<real>>
    const rule: Rule
    ghost var history: seq<Hit>

    constructor (rule: Rule)
      ensures Valid() && history == [] && this.rule == rule
    {
      hits, this.rule, history := map[], rule, [];
    }

    ghost predicate Valid()
      reads this
    {
      forall client :: (if client in hits then hits[client] else []) == Bucket(history, client, rule)
    }

    /** Raises the 429 error when it returns false. */
    method Check(client: string, now: real) returns (allowed: bool)
      requires Valid()
      modifies this
      ensures Valid() && history == old(history) + [Hit(client, now)]
      ensures allowed <==> Admits(old(history), Hit(client, now), rule)
    {
      hide Bucket;
      var hit := Hit(client, now);
      forall c ensures Bucket(history + [hit], c, rule) ==
        if c == client && rule.limit > 0 then Checked(Bucket(history, c, rule), rule, now).0 else Bucket(history, c, rule)
      {
        OneMore(history, hit, c, rule);
      }
      history := history + [hit];
      if rule.limit <= 0 {
        return true;
      }
      var cutoff := now - rule.window;
      var bucket := if client in hits then hits[client] else [];
      ghost var before := bucket;
      while bucket != [] && bucket[0] < cutoff
        invariant Prune(bucket, cutoff) == Prune(before, cutoff)
        decreases |bucket|
      {
        bucket := bucket[1..];
      }
      allowed := |bucket| < rule.limit;
      if allowed {
        bucket := bucket + [now];
      }
      hits := hits[client := bucket];
    }
  }
}
