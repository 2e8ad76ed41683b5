/**
 The fixed-window limiter: a window opens at the first admission of a key and is
 replaced by the first admission that comes at least the window's length later.
 */
module FixedWindow {
  import opened Hits
  import opened Wrappers

  datatype Rule = Rule(limit: int, window: real)
  datatype Window = Window(start: real, count: nat)

  function Checked(w: Option<Window>, rule: Rule, now: real): (Option<Window>, bool) {
    var current := if w.Some? then w.value else Window(now, 0);
    var live := if now - current.start >= rule.window then Window(now, 0) else current;
    if live.count >= rule.limit then (w, false) else (Some(Window(live.start, live.count + 1)), true)
  }

  function State(h: seq<Hit>, key: string, rule: Rule): Option<Window> {
    if h == [] then None
    else
      var before := State(h[..|h| - 1], key, rule);
      if h[|h| - 1].key == key then Checked(before, rule, h[|h| - 1].now).0 else before
  }

  predicate Admits(h: seq<Hit>, hit: Hit, rule: Rule) {
    Checked(State(h, hit.key, rule), rule, hit.now).1
  }

  /** Admission times of one key, oldest first. */
  function Admissions(h: seq<Hit>, key: string, rule: Rule): seq<real> {
    if h == [] then []
    else
      var front, hit := h[..|h| - 1], h[|h| - 1];
      Admissions(front, key, rule) + if hit.key == key && Admits(front, hit, rule) then [hit.now] else []
  }

  /** How many of the times lie in a half-open interval. */
  function Count(times: seq<real>, from: real, to: real): nat {
    if times == [] then 0
    else Count(times[..|times| - 1], from, to) + if from <= times[|times| - 1] < to then 1 else 0
  }

  function AtLeast(times: seq<real>, from: real): nat {
    if times == [] then 0
    else AtLeast(times[..|times| - 1], from) + if from <= times[|times| - 1] then 1 else 0
  }

  // ---------- counting ----------

  lemma CountMore(times: seq<real>, t: real, from: real, to: real)
    ensures Count(times + [t], from, to) == Count(times, from, to) + if from <= t < to then 1 else 0
    ensures AtLeast(times + [t], from) == AtLeast(times, from) + if from <= t then 1 else 0
  {
    assert (times + [t])[..|times|] == times;
  }

  lemma {:induction false} CountAtMost(times: seq<real>, from: real, to: real)
    ensures Count(times, from, to) <= AtLeast(times, from)
    ensures to <= from ==> Count(times, from, to) == 0
  {
    if times != [] { CountAtMost(times[..|times| - 1], from, to); }
  }

  lemma {:induction false} FewerLater(times: seq<real>, from: real, later: real)
    requires from <= later
    ensures AtLeast(times, later) <= AtLeast(times, from)
  {
    if times != [] { FewerLater(times[..|times| - 1], from, later); }
  }

  lemma {:induction false} NoneAfter(times: seq<real>, from: real)
    requires forall i | 0 <= i < |times| :: times[i] < from
    ensures AtLeast(times, from) == 0
  {
    if times != [] { NoneAfter(times[..|times| - 1], from); }
  }

  // ---------- the current window and the one before it ----------

  /** What the stored window says about the admissions so far. */
  ghost predicate Anchored(w: Option<Window>, times: seq<real>, rule: Rule) {
    match w
    case None => times == []
    case Some(Window(start, count)) =>
      && 1 <= count <= rule.limit
      && (forall i | 0 <= i < |times| :: times[i] < start + rule.window)
      && AtLeast(times, start) == count
      && (forall from: real | from > start :: AtLeast(times, from) <= count - 1)
      && (forall from: real | from > start - rule.window :: AtLeast(times, from) <= rule.limit - 1 + count)
  }

  lemma OpenKeeps(w: Option<Window>, times: seq<real>, rule: Rule, now: real)
    requires Anchored(w, times, rule) && rule.window > 0.0 && rule.limit >= 1
    requires w.Some? ==> now - w.value.start >= rule.window
    ensures Anchored(Some(Window(now, 1)), times + [now], rule)
  {
    hide AtLeast;
    forall from: real ensures AtLeast(times + [now], from) == AtLeast(times, from) + if from <= now then 1 else 0 {
      CountMore(times, now, from, from);
    }
    forall from: real | from >= now ensures AtLeast(times, from) == 0 {
      NoneAfter(times, from);
    }
    if w.None? {
      forall from: real ensures AtLeast(times, from) == 0 { NoneAfter(times, from); }
    }
  }

  lemma JoinKeeps(w: Window, times: seq<real>, rule: Rule, now: real)
    requires Anchored(Some(w), times, rule)
    requires w.start <= now < w.start + rule.window && w.count < rule.limit
    ensures Anchored(Some(Window(w.start, w.count + 1)), times + [now], rule)
  {
    hide AtLeast;
    forall from: real ensures AtLeast(times + [now], from) == AtLeast(times, from) + if from <= now then 1 else 0 {
      CountMore(times, now, from, from);
    }
  }

  lemma CheckKeeps(w: Option<Window>, times: seq<real>, rule: Rule, now: real)
    requires Anchored(w, times, rule) && rule.window > 0.0 && (w.Some? ==> w.value.start <= now)
    ensures var (after, admitted) := Checked(w, rule, now);
      Anchored(after, times + if admitted then [now] else [], rule) && (after.Some? ==> after.value.start <= now)
  {
    hide Anchored;
    if Checked(w, rule, now).1 {
      if w.None? || now - w.value.start >= rule.window { OpenKeeps(w, times, rule, now); }
      else { JoinKeeps(w.value, times, rule, now); }
    } else {
      assert times + [] == times;
    }
  }

  lemma OneMore(h: seq<Hit>, hit: Hit, key: string, rule: Rule)
    ensures State(h + [hit], key, rule) ==
      if hit.key == key then Checked(State(h, key, rule), rule, hit.now).0 else State(h, key, rule)
    ensures Admissions(h + [hit], key, rule) ==
      Admissions(h, key, rule) + if hit.key == key && Admits(h, hit, rule) then [hit.now] else []
  {
    hide Checked, Admits;
    assert (h + [hit])[..|h|] == h;
  }

  lemma Nothing(key: string, rule: Rule)
    ensures State([], key, rule) == None && Admissions([], key, rule) == []
  {
  }

  lemma {:induction false} StateIsAnchored(h: seq<Hit>, key: string, rule: Rule)
    requires ClockRises(h) && rule.window > 0.0
    ensures Anchored(State(h, key, rule), Admissions(h, key, rule), rule)
    ensures State(h, key, rule).Some? ==> h != [] && State(h, key, rule).value.start <= h[|h| - 1].now
  {
    hide Anchored, State, Admissions, Checked, ClockRises;
    if h == [] {
      Nothing(key, rule);
      assert Anchored(None, [], rule) by { AnchoredNone(rule); }
    } else {
      var front, hit := h[..|h| - 1], h[|h| - 1];
      assert front + [hit] == h;
      Earlier(front, hit);
      StateIsAnchored(front, key, rule);
      OneMore(front, hit, key, rule);
      assert Admissions(front, key, rule) + [] == Admissions(front, key, rule);
      if hit.key == key {
        CheckKeeps(State(front, key, rule), Admissions(front, key, rule), rule, hit.now);
      }
    }
  }

  lemma AnchoredNone(rule: Rule)
    ensures Anchored(None, [], rule)
  {
  }

  // ---------- which requests are admitted ----------

  /** When the current window opened: at the first admission, or at the first that came a window's length later. */
  function Opened(times: seq<real>, window: real): Option<real> {
    if times == [] then None
    else
      var before, last := Opened(times[..|times| - 1], window), times[|times| - 1];
      if before.None? || last - before.value >= window then Some(last) else before
  }

  lemma OpenedMore(times: seq<real>, t: real, window: real)
    ensures Opened(times + [t], window) ==
      var before := Opened(times, window);
      if before.None? || t - before.value >= window then Some(t) else before
  {
    assert (times + [t])[..|times|] == times;
  }

  lemma {:induction false} StateIsOpened(h: seq<Hit>, key: string, rule: Rule)
    requires rule.window > 0.0
    ensures var times := Admissions(h, key, rule);
      match State(h, key, rule)
      case None => times == [] && Opened(times, rule.window) == None
      case Some(w) => Opened(times, rule.window) == Some(w.start)
  {
    hide State, Admissions, Opened;
    if h == [] {
      Nothing(key, rule);
      assert Opened([], rule.window) == None by { NotOpened(rule.window); }
    } else {
      var front, hit := h[..|h| - 1], h[|h| - 1];
      assert front + [hit] == h;
      StateIsOpened(front, key, rule);
      OneMore(front, hit, key, rule);
      var times := Admissions(front, key, rule);
      assert times + [] == times;
      OpenedMore(times, hit.now, rule.window);
    }
  }

  lemma NotOpened(window: real)
    ensures Opened([], window) == None
  {
  }

  /** A request is admitted iff its window is over, or holds fewer than `limit` admissions since it opened. */
  lemma AdmitsMeans(h: seq<Hit>, hit: Hit, rule: Rule)
    requires ClockRises(h + [hit])
    ensures var times := Admissions(h, hit.key, rule);
      Admits(h, hit, rule) <==>
        rule.limit >= 1
        && match Opened(times, rule.window)
           case None => true
           case Some(start) => hit.now - start >= rule.window || AtLeast(times, start) < rule.limit
  {
    hide State, Admissions, Opened, AtLeast;
    Earlier(h, hit);
    if rule.window > 0.0 {
      StateIsOpened(h, hit.key, rule);
      StateIsAnchored(h, hit.key, rule);
    } else {
      OpensAlways(h, hit.key, rule, hit.now);
    }
  }

  /** A window of no length is over at once. */
  lemma {:induction false} OpensAlways(h: seq<Hit>, key: string, rule: Rule, now: real)
    requires rule.window <= 0.0 && forall i | 0 <= i < |h| :: h[i].now <= now
    ensures State(h, key, rule).Some? ==> State(h, key, rule).value.start <= now
    ensures Opened(Admissions(h, key, rule), rule.window).Some? ==> Opened(Admissions(h, key, rule), rule.window).value <= now
  {
    hide State, Admissions, Opened;
    if h == [] {
      Nothing(key, rule);
      NotOpened(rule.window);
    } else {
      var front, hit := h[..|h| - 1], h[|h| - 1];
      assert front + [hit] == h;
      OpensAlways(front, key, rule, now);
      OneMore(front, hit, key, rule);
      var times := Admissions(front, key, rule);
      assert times + [] == times;
      OpenedMore(times, hit.now, rule.window);
    }
  }

  /** One more admission, in terms of the window it falls into. */
  lemma AdmissionBounded(w: Option<Window>, times: seq<real>, rule: Rule, now: real, from: real)
    requires Anchored(w, times, rule) && rule.window > 0.0 && (w.Some? ==> w.value.start <= now)
    requires Checked(w, rule, now).1 && from <= now < from + rule.window
    ensures Count(times + [now], from, from + rule.window) <= 2 * rule.limit - 1
  {
    hide AtLeast, Count;
    CheckKeeps(w, times, rule, now);
    var after := Checked(w, rule, now).0.value;
    assert from > after.start - rule.window;
    assert AtLeast(times + [now], from) <= rule.limit - 1 + after.count;
    CountAtMost(times + [now], from, from + rule.window);
  }

  /** A half-open interval of the window's length holds at most 2 * limit - 1 admissions of a key. */
  lemma {:induction false} IntervalBound(h: seq<Hit>, key: string, rule: Rule, from: real)
    requires ClockRises(h)
    ensures Count(Admissions(h, key, rule), from, from + rule.window) <= if rule.limit >= 1 then 2 * rule.limit - 1 else 0
  {
    hide Anchored, State, Admissions, ClockRises, Count;
    if h == [] || rule.window <= 0.0 {
      CountAtMost(Admissions(h, key, rule), from, from + rule.window);
      Nothing(key, rule);
      assert Count([], from, from + rule.window) == 0 by { CountNone(from, from + rule.window); }
    } else {
      var front, hit := h[..|h| - 1], h[|h| - 1];
      assert front + [hit] == h;
      Earlier(front, hit);
      IntervalBound(front, key, rule, from);
      OneMore(front, hit, key, rule);
      var times := Admissions(front, key, rule);
      assert times + [] == times;
      if hit.key == key && Admits(front, hit, rule) {
        CountMore(times, hit.now, from, from + rule.window);
        StateIsAnchored(front, key, rule);
        if from <= hit.now < from + rule.window {
          AdmissionBounded(State(front, key, rule), times, rule, hit.now, from);
        }
      }
    }
  }

  lemma CountNone(from: real, to: real)
    ensures Count([], from, to) == 0
  {
  }

  /** A window that was open at some moment holds at most `limit` admissions, however the run goes on. */
  lemma {:induction false} AnchoredWindowBound(h: seq<Hit>, key: string, rule: Rule, i: nat)
    requires ClockRises(h) && rule.window > 0.0 && i <= |h| && State(h[..i], key, rule).Some?
    ensures var start := State(h[..i], key, rule).value.start;
      && Count(Admissions(h, key, rule), start, start + rule.window) <= rule.limit
      && State(h, key, rule).Some?
      && var now := State(h, key, rule).value.start; now == start || now >= start + rule.window
  {
    hide Anchored, State, Admissions, ClockRises, Count;
    var start := State(h[..i], key, rule).value.start;
    if i == |h| {
      assert h[..i] == h;
      CurrentBounded(h, key, rule);
    } else {
      var front, hit := h[..|h| - 1], h[|h| - 1];
      assert front + [hit] == h && front[..i] == h[..i];
      Earlier(front, hit);
      AnchoredWindowBound(front, key, rule, i);
      OneMore(front, hit, key, rule);
      StateIsAnchored(front, key, rule);
      assert Admissions(front, key, rule) + [] == Admissions(front, key, rule);
      CountMore(Admissions(front, key, rule), hit.now, start, start + rule.window);
      if State(h, key, rule).value.start == start {
        CurrentBounded(h, key, rule);
      }
    }
  }

  lemma CurrentBounded(h: seq<Hit>, key: string, rule: Rule)
    requires ClockRises(h) && rule.window > 0.0 && State(h, key, rule).Some?
    ensures var start := State(h, key, rule).value.start;
      Count(Admissions(h, key, rule), start, start + rule.window) <= rule.limit
  {
    hide State, Admissions, Count, AtLeast;
    var start := State(h, key, rule).value.start;
    StateIsAnchored(h, key, rule);
    CountAtMost(Admissions(h, key, rule), start, start + rule.window);
  }

  // ---------- the bound is reached ----------

  function Burst(key: string, now: real, m: nat): seq<Hit> {
    if m == 0 then [] else Burst(key, now, m - 1) + [Hit(key, now)]
  }

  /** Hits at one moment inside an open window are admitted as long as there is room. */
  lemma {:induction false} BurstAdmitted(h: seq<Hit>, key: string, rule: Rule, now: real, m: nat, from: real, to: real)
    requires State(h, key, rule).Some?
    requires var w := State(h, key, rule).value; now - w.start < rule.window && w.count + m <= rule.limit
    ensures var w := State(h, key, rule).value;
      State(h + Burst(key, now, m), key, rule) == Some(Window(w.start, w.count + m))
    ensures Count(Admissions(h + Burst(key, now, m), key, rule), from, to) ==
            Count(Admissions(h, key, rule), from, to) + if from <= now < to then m else 0
  {
    hide State, Admissions, Count, Checked;
    if m == 0 {
      assert h + Burst(key, now, 0) == h;
    } else {
      var g := h + Burst(key, now, m - 1);
      BurstAdmitted(h, key, rule, now, m - 1, from, to);
      assert h + Burst(key, now, m) == g + [Hit(key, now)];
      JoinsWindow(g, key, rule, now, from, to);
    }
  }

  /** A hit inside an open window with room. */
  lemma JoinsWindow(h: seq<Hit>, key: string, rule: Rule, now: real, from: real, to: real)
    requires State(h, key, rule).Some?
    requires var w := State(h, key, rule).value; now - w.start < rule.window && w.count < rule.limit
    ensures var w := State(h, key, rule).value;
      State(h + [Hit(key, now)], key, rule) == Some(Window(w.start, w.count + 1))
    ensures Count(Admissions(h + [Hit(key, now)], key, rule), from, to) ==
            Count(Admissions(h, key, rule), from, to) + if from <= now < to then 1 else 0
  {
    hide State, Admissions, Count;
    OneMore(h, Hit(key, now), key, rule);
    CountMore(Admissions(h, key, rule), now, from, to);
  }

  /** A hit that opens a new window. */
  lemma Opens(h: seq<Hit>, key: string, rule: Rule, now: real, from: real, to: real)
    requires rule.limit >= 1 && rule.window > 0.0
    requires State(h, key, rule).Some? ==> now - State(h, key, rule).value.start >= rule.window
    ensures State(h + [Hit(key, now)], key, rule) == Some(Window(now, 1))
    ensures Count(Admissions(h + [Hit(key, now)], key, rule), from, to) ==
            Count(Admissions(h, key, rule), from, to) + if from <= now < to then 1 else 0
  {
    hide State, Admissions, Count;
    OneMore(h, Hit(key, now), key, rule);
    CountMore(Admissions(h, key, rule), now, from, to);
  }

  lemma {:induction false} BurstSteady(key: string, now: real, m: nat)
    ensures |Burst(key, now, m)| == m && forall i | 0 <= i < m :: Burst(key, now, m)[i].now == now
  {
    if m > 0 { BurstSteady(key, now, m - 1); }
  }

  /** For every positive limit some run puts 2 * limit - 1 admissions into one such interval. */
  lemma IntervalBoundReached(key: string, rule: Rule) returns (h: seq<Hit>, from: real)
    requires rule.limit >= 1 && rule.window > 0.0
    ensures ClockRises(h) && Count(Admissions(h, key, rule), from, from + rule.window) == 2 * rule.limit - 1
  {
    hide State, Admissions, Count, Burst;
    var rest := rule.limit - 1;
    var half := rule.window / 2.0;
    from := half;
    var to := half + rule.window;
    Nothing(key, rule);
    CountNone(from, to);
    Opens([], key, rule, 0.0, from, to);
    var h1 := [] + [Hit(key, 0.0)];
    BurstAdmitted(h1, key, rule, half, rest, from, to);
    var h2 := h1 + Burst(key, half, rest);
    Opens(h2, key, rule, rule.window, from, to);
    var h3 := h2 + [Hit(key, rule.window)];
    BurstAdmitted(h3, key, rule, rule.window, rest, from, to);
    h := h3 + Burst(key, rule.window, rest);
    BurstSteady(key, half, rest);
    BurstSteady(key, rule.window, rest);
  }

  /** In every run every half-open interval of the window's length holds at most `limit` admissions of a key. */
  ghost predicate KeepsLimit(rule: Rule) {
    forall h, key, from: real, to: real | ClockRises(h) && to == from + rule.window ::
      Count(Admissions(h, key, rule), from, to) <= if rule.limit >= 0 then rule.limit else 0
  }

  /** The limit holds of intervals that are not aligned to the windows only when it is one, or admits nothing. */
  lemma LimitKeptIff(rule: Rule)
    requires rule.window > 0.0
    ensures KeepsLimit(rule) <==> rule.limit <= 1
  {
    hide Count, Admissions, ClockRises;
    if rule.limit <= 1 {
      forall h, key, from: real, to: real | ClockRises(h) && to == from + rule.window
        ensures Count(Admissions(h, key, rule), from, to) <= if rule.limit >= 0 then rule.limit else 0
      {
        IntervalBound(h, key, rule, from);
      }
    } else {
      var h, from := IntervalBoundReached("", rule);
      assert Count(Admissions(h, "", rule), from, from + rule.window) > rule.limit;
    }
  }

  // ---------- keys do not interfere ----------

  lemma {:induction false} StateOfOwnHits(h: seq<Hit>, key: string, rule: Rule)
    ensures State(h, key, rule) == State(Only(h, key), key, rule)
  {
    hide Checked, State;
    if h != [] {
      var front, hit := h[..|h| - 1], h[|h| - 1];
      StateOfOwnHits(front, key, rule);
      assert front + [hit] == h && Only(front, key) + [] == Only(front, key);
      OneMore(front, hit, key, rule);
      OneMore(Only(front, key), hit, key, rule);
    }
  }

  /** A key's requests are answered as if it were alone. */
  lemma KeysDoNotInterfere(h: seq<Hit>, hit: Hit, rule: Rule)
    ensures Admits(h, hit, rule) <==> Admits(Only(h, hit.key), hit, rule)
  {
    StateOfOwnHits(h, hit.key, rule);
  }

  // ---------- the limiter ----------

  function Find(windows: map<string, Window>, key: string): Option<Window> {
    if key in windows then Some(windows[key]) else None
  }

  class FixedWindowRateLimiter {
    var windows: map<string, Window>
    const rule: Rule
    ghost var history: seq<Hit>

    constructor (rule: Rule)
      ensures Valid() && history == [] && this.rule == rule
    {
      windows, this.rule, history := map[], rule, [];
    }

    ghost predicate Valid()
      reads this
    {
      forall key :: Find(windows, key) == State(history, key, rule)
    }

    /** None stands for the RateLimitError; otherwise the admissions left in the window. */
    method Check(key: string, now: real) returns (remaining: Option<int>)
      requires Valid()
      modifies this
      ensures Valid() && history == old(history) + [Hit(key, now)]
      ensures remaining.Some? <==> Admits(old(history), Hit(key, now), rule)
      ensures remaining.Some? ==> key in windows && remaining.value == rule.limit - windows[key].count >= 0
    {
      hide State;
      forall k ensures State(history + [Hit(key, now)], k, rule) ==
        if k == key then Checked(State(history, k, rule), rule, now).0 else State(history, k, rule)
      {
        OneMore(history, Hit(key, now), k, rule);
      }
      assert Find(windows, key) == State(history, key, rule);
      history := history + [Hit(key, now)];
      var current := if key in windows then windows[key] else Window(now, 0);
      if now - current.start >= rule.window {
        current := Window(now, 0);
      }
      if current.count >= rule.limit {
        return None;
      }
      windows := windows[key := Window(current.start, current.count + 1)];
      remaining := Some(rule.limit - current.count - 1);
    }
  }
}
