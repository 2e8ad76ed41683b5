/** Results shared by every component. */
module Wrappers {
  datatype Option<+T> = None | Some(value: T)

  /** Err carries the HTTP status of the source's DomainError. */
  datatype Result<+T> = Ok(value: T) | Err(code: nat)

  /** White space as the source language strips it. */
  predicate IsSpace(c: char) {
    || '\t' <= c <= '\r' || '\U{1C}' <= c <= ' ' || c == '\U{85}' || c == '\U{A0}' || c == '\U{1680}'
    || '\U{2000}' <= c <= '\U{200A}' || '\U{2028}' <= c <= '\U{2029}'
    || c == '\U{202F}' || c == '\U{205F}' || c == '\U{3000}'
  }

  function Pow2(n: nat): nat { if n == 0 then 1 else 2 * Pow2(n - 1) }

  /** A base doubled `k` times. */
  function Grown(base: real, k: nat): real {
    base * (Pow2(k) as real)
  }

  /** Exponential backoff: the k-th delay of a base doubled each time, up to a cap. */
  function Backoff(base: real, cap: real, k: nat): real {
    if cap <= Grown(base, k) then cap else Grown(base, k)
  }

  lemma Product(x: real, y: real)
    requires x >= 0.0 && y >= 0.0
    ensures x * y >= 0.0
  {
  }

  lemma GrowsTwofold(base: real, k: nat)
    ensures Grown(base, 0) == base && Grown(base, k + 1) == 2.0 * Grown(base, k)
    ensures base >= 0.0 ==> Grown(base, k) >= 0.0
  {
    assert Pow2(k + 1) as real == 2.0 * (Pow2(k) as real);
    if base >= 0.0 { Product(base, Pow2(k) as real); }
  }

  /** It starts at the base, doubles until it reaches the cap, and stays there. */
  lemma BackoffDoubles(base: real, cap: real, k: nat)
    requires base >= 0.0
    ensures Backoff(base, cap, 0) == if cap <= base then cap else base
    ensures Backoff(base, cap, k) <= Backoff(base, cap, k + 1) <= cap
    ensures Backoff(base, cap, k + 1) < cap ==> Backoff(base, cap, k + 1) == 2.0 * Backoff(base, cap, k)
    ensures Backoff(base, cap, k) == cap ==> Backoff(base, cap, k + 1) == cap
  {
    hide Grown;
    GrowsTwofold(base, k);
  }

  function Capped(delay: real, cap: real): real {
    if delay < cap then delay else cap
  }

  /** The same delay told by its predecessor: doubled until it reaches the cap. */
  function Doubled(base: real, cap: real, k: nat): real {
    if k == 0 then Capped(base, cap)
    else
      var before := Doubled(base, cap, k - 1);
      if before == cap then cap else Capped(2.0 * before, cap)
  }

  lemma {:induction false} BackoffIsDoubled(base: real, cap: real, k: nat)
    requires base >= 0.0
    ensures Backoff(base, cap, k) == Doubled(base, cap, k)
  {
    hide Grown;
    if k == 0 {
      GrowsTwofold(base, 0);
    } else {
      BackoffIsDoubled(base, cap, k - 1);
      GrowsTwofold(base, k - 1);
    }
  }
}
