/** The freshness test shared by both cache layers: age strictly below the limit. */
module Freshness {
  import opened Wrappers
  import opened Store

  /** An entry written at `timestamp` may be served at `now` when `now - timestamp < maxAge`. */
  predicate IsFresh(now: int, timestamp: int, maxAge: int) {
    now - timestamp < maxAge
  }

  /** A lookup that yields an entry young enough to be served without refreshing. */
  predicate FreshHit<T>(cached: Option<Entry<T>>, now: int, maxAge: int) {
    cached.Some? && IsFresh(now, cached.value.timestamp, maxAge)
  }

  /** An entry is fresh for exactly `maxAge` seconds after it is written: at age `maxAge` it is stale. */
  lemma FreshWindow(timestamp: int, maxAge: int, age: int)
    ensures IsFresh(timestamp + age, timestamp, maxAge) <==> age < maxAge
    ensures !IsFresh(timestamp + maxAge, timestamp, maxAge)
  {
  }
}
