/** The idle sweep shared by both service classes: an entry idle for strictly longer than the window
    is dropped, every other entry is kept as it is. */
module SessionExpiry {

  /** `now - lastActive > window`. */
  predicate Expired(now: int, lastActive: int, window: int) {
    now - lastActive > window
  }

  /** The registry after a sweep at time `now`; `stamp` reads an entry's `lastActive`. */
  function Swept<V>(m: map<string, V>, stamp: V -> int, now: int, window: int): (r: map<string, V>)
    ensures forall id :: id in r <==> id in m && !Expired(now, stamp(m[id]), window)
    ensures forall id :: id in r ==> r[id] == m[id]
  {
    map id | id in m && !Expired(now, stamp(m[id]), window) :: m[id]
  }

  /** An entry idle for exactly the window survives; one more millisecond removes it. */
  lemma BoundaryKept<V>(m: map<string, V>, stamp: V -> int, id: string, window: int)
    requires id in m
    ensures id in Swept(m, stamp, stamp(m[id]) + window, window)
    ensures id !in Swept(m, stamp, stamp(m[id]) + window + 1, window)
  {
  }

  /** Sweeping twice at the same time removes nothing more. */
  lemma SweepIdempotent<V>(m: map<string, V>, stamp: V -> int, now: int, window: int)
    ensures Swept(Swept(m, stamp, now, window), stamp, now, window) == Swept(m, stamp, now, window)
  {
  }

  /** A later sweep keeps no more than an earlier one. */
  lemma SweepMonotone<V>(m: map<string, V>, stamp: V -> int, now1: int, now2: int, window: int)
    requires now1 <= now2
    ensures Swept(m, stamp, now2, window).Keys <= Swept(m, stamp, now1, window).Keys
  {
  }
}
