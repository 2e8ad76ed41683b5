/** Timed requests to a limiter, each under a key. */
module Hits {
  datatype Hit = Hit(key: string, now: real)

  ghost predicate ClockRises(h: seq<Hit>) {
    forall i, j | 0 <= i <= j < |h| :: h[i].now <= h[j].now
  }

  lemma Earlier(h: seq<Hit>, hit: Hit)
    requires ClockRises(h + [hit])
    ensures ClockRises(h) && forall i | 0 <= i < |h| :: h[i].now <= hit.now
  {
    var g := h + [hit];
    assert forall i | 0 <= i < |h| :: g[i] == h[i];
    assert g[|h|] == hit;
  }

  /** No reading of `key` is more than `d` behind an earlier one; other keys' readings are free. */
  ghost predicate SkewAtMost(h: seq<Hit>, key: string, d: real) {
    forall i, j | 0 <= i <= j < |h| && h[i].key == key && h[j].key == key :: h[i].now - h[j].now <= d
  }

  /** The readings of `key` never go back. */
  ghost predicate InOrder(h: seq<Hit>, key: string) {
    SkewAtMost(h, key, 0.0)
  }

  lemma SkewEarlier(h: seq<Hit>, hit: Hit, d: real)
    requires SkewAtMost(h + [hit], hit.key, d)
    ensures SkewAtMost(h, hit.key, d) && d >= 0.0
    ensures forall i | 0 <= i < |h| && h[i].key == hit.key :: h[i].now <= hit.now + d
  {
    var g := h + [hit];
    assert forall i | 0 <= i < |h| :: g[i] == h[i];
    assert g[|h|] == hit;
  }

  /** The hits of one key, in order. */
  function Only(h: seq<Hit>, key: string): seq<Hit> {
    if h == [] then []
    else Only(h[..|h| - 1], key) + if h[|h| - 1].key == key then [h[|h| - 1]] else []
  }
}
