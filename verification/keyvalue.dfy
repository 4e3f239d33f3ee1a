/**
 * The part of the Redis store the throttle uses: string keys holding a value
 * and an optional absolute expiry time, read against a clock (in seconds). A
 * key whose expiry time has been reached reads as absent. The commands are
 * specified as functions on the key map; `RedisStore` runs them in place.
 */
module KeyValue {
  import opened Wrappers

  /** A stored value: an integer counter (written by INCR) or a non-numeric string. */
  datatype Value = Int(n: int) | Text(s: string)

  datatype Entry = Entry(value: Value, expiresAt: Option<int>)

  type Entries = map<string, Entry>

  /** The key exists and has not expired at time `now`. */
  predicate Live(m: Entries, now: int, key: string)
  {
    key in m && (m[key].expiresAt.None? || now < m[key].expiresAt.value)
  }

  /** The two maps agree on `key`. */
  predicate Same(m: Entries, m': Entries, key: string)
  {
    (key in m <==> key in m') && (key in m ==> m[key] == m'[key])
  }

  /** The integer INCR starts from: 0 for an absent or expired key. */
  function Counter(m: Entries, now: int, key: string): int
  {
    if Live(m, now, key) && m[key].value.Int? then m[key].value.n else 0
  }

  /** The key holds a string, on which INCR fails. */
  predicate HoldsText(m: Entries, now: int, key: string)
  {
    Live(m, now, key) && m[key].value.Text?
  }

  /** The reply to INCR (None for the "not an integer" error) and the store after it. */
  datatype Incremented = Incremented(count: Option<int>, after: Entries)

  /**
   * INCR: adds one to the counter at `key`, an absent or expired key counting
   * as 0 and being created without expiry; a live key keeps its expiry.
   */
  function Incr(m: Entries, now: int, key: string): (r: Incremented)
    ensures r.count.None? <==> HoldsText(m, now, key)
    ensures r.count.None? ==> r.after == m
    ensures r.count.Some? ==> r.count.value == Counter(m, now, key) + 1
    ensures r.count.Some? ==> key in r.after && r.after[key].value == Int(r.count.value)
    ensures r.count.Some? ==> r.after[key].expiresAt == (if Live(m, now, key) then m[key].expiresAt else None)
    ensures r.count.Some? ==> Live(r.after, now, key)
    ensures forall k :: k != key ==> Same(m, r.after, k)
  {
    if !Live(m, now, key) then Incremented(Some(1), m[key := Entry(Int(1), None)])
    else
      match m[key].value
      case Text(_) => Incremented(None, m)
      case Int(n) => Incremented(Some(n + 1), m[key := Entry(Int(n + 1), m[key].expiresAt)])
  }

  /** The reply to EXPIRE (whether the key existed) and the store after it. */
  datatype Expired = Expired(ok: bool, after: Entries)

  /** EXPIRE: a live key keeps its value and now expires `ttl` seconds from now. */
  function ExpireIn(m: Entries, now: int, key: string, ttl: int): (r: Expired)
    requires ttl > 0
    ensures r.ok <==> Live(m, now, key)
    ensures !r.ok ==> r.after == m
    ensures r.ok ==> key in r.after && r.after[key].value == m[key].value
    ensures r.ok ==> r.after[key].expiresAt == Some(now + ttl) && Live(r.after, now, key)
    ensures forall k :: k != key ==> Same(m, r.after, k)
  {
    if Live(m, now, key) then Expired(true, m[key := m[key].(expiresAt := Some(now + ttl))])
    else Expired(false, m)
  }

  /** SET with an expiry: `key` holds `v` for the next `ttl` seconds, whatever it held before. */
  function SetEx(m: Entries, now: int, key: string, v: Value, ttl: int): (m': Entries)
    requires ttl > 0
    ensures key in m' && m'[key] == Entry(v, Some(now + ttl))
    ensures forall t :: now <= t < now + ttl ==> Live(m', t, key)
    ensures forall k :: k != key ==> Same(m, m', k)
  {
    m[key := Entry(v, Some(now + ttl))]
  }

  /** An in-memory Redis: the key map and the clock. */
  class RedisStore {
    var entries: Entries
    var now: int

    constructor(start: int)
      ensures entries == map[] && now == start
    {
      entries := map[];
      now := start;
    }

    /** INCR key. */
    method Increment(key: string) returns (count: Option<int>)
      modifies this
      ensures Incr(old(entries), now, key) == Incremented(count, entries)
      ensures now == old(now)
    {
      if key in entries && (entries[key].expiresAt.None? || now < entries[key].expiresAt.value) {
        var entry := entries[key];
        if entry.value.Text? {
          return None;
        }
        count := Some(entry.value.n + 1);
        entries := entries[key := entry.(value := Int(entry.value.n + 1))];
      } else {
        count := Some(1);
        entries := entries[key := Entry(Int(1), None)];
      }
    }

    /** EXPIRE key ttl. */
    method Expire(key: string, ttl: int) returns (ok: bool)
      requires ttl > 0
      modifies this
      ensures ExpireIn(old(entries), now, key, ttl) == Expired(ok, entries)
      ensures now == old(now)
    {
      ok := key in entries && (entries[key].expiresAt.None? || now < entries[key].expiresAt.value);
      if ok {
        entries := entries[key := entries[key].(expiresAt := Some(now + ttl))];
      }
    }

    /** SET key value with an expiry of `ttl` seconds. */
    method SetWithTtl(key: string, v: Value, ttl: int)
      requires ttl > 0
      modifies this
      ensures entries == SetEx(old(entries), now, key, v, ttl)
      ensures now == old(now)
    {
      entries := entries[key := Entry(v, Some(now + ttl))];
    }

    /** EXISTS key: whether the key is live now. */
    method HasKey(key: string) returns (present: bool)
      ensures present <==> Live(entries, now, key)
    {
      present := key in entries && (entries[key].expiresAt.None? || now < entries[key].expiresAt.value);
    }

    /** The clock moves on; expired keys then read as absent. */
    method Advance(seconds: nat)
      modifies this
      ensures now == old(now) + seconds && entries == old(entries)
    {
      now := now + seconds;
    }
  }
}
