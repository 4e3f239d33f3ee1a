/**
 * The IP throttle. Each failed attempt increments a per-IP counter that lives
 * for one time window from the first failure; once the counter reaches
 * `maxAttempts` the IP gets a block key that lives for the block duration, and
 * the IP is blocked while that key is live. With throttling disabled nothing
 * is blocked and nothing is recorded.
 */
module Throttling {
  import opened Wrappers
  import opened KeyValue

  const AttemptsPrefix: string := "sqli:attempts:"
  const BlockedPrefix: string := "sqli:blocked:"
  const BlockedMarker: string := "blocked"
  const SecondsPerMinute: int := 60

  /** `throttling.enabled`, `max-attempts`, `time-window-minutes` and `block-duration-minutes`. */
  datatype ThrottleConfig = ThrottleConfig(
    enabled: bool,
    maxAttempts: int,
    timeWindowMinutes: int,
    blockDurationMinutes: int)

  /** Both durations are positive. */
  predicate ValidConfig(c: ThrottleConfig)
  {
    c.timeWindowMinutes > 0 && c.blockDurationMinutes > 0
  }

  function Window(c: ThrottleConfig): int
  {
    c.timeWindowMinutes * SecondsPerMinute
  }

  function BlockDuration(c: ThrottleConfig): int
  {
    c.blockDurationMinutes * SecondsPerMinute
  }

  function AttemptsKey(ip: string): string
  {
    AttemptsPrefix + ip
  }

  function BlockedKey(ip: string): string
  {
    BlockedPrefix + ip
  }

  /** The two prefixes differ, so a counter key is never a block key. */
  lemma KeysDistinct(ip: string, ip': string)
    ensures AttemptsKey(ip) != BlockedKey(ip')
  {
    assert AttemptsKey(ip)[5] == 'a';
    assert BlockedKey(ip')[5] == 'b';
  }

  /** Different IPs have different counter keys and different block keys. */
  lemma KeysInjective(ip: string, ip': string)
    requires ip != ip'
    ensures AttemptsKey(ip) != AttemptsKey(ip') && BlockedKey(ip) != BlockedKey(ip')
  {
    assert AttemptsKey(ip)[|AttemptsPrefix|..] == ip && AttemptsKey(ip')[|AttemptsPrefix|..] == ip';
    assert BlockedKey(ip)[|BlockedPrefix|..] == ip && BlockedKey(ip')[|BlockedPrefix|..] == ip';
  }

  /** isBlocked: throttling is on and the IP's block key is live. */
  function Blocked(c: ThrottleConfig, m: Entries, now: int, ip: string): (b: bool)
    ensures !c.enabled ==> !b
    ensures b ==> BlockedKey(ip) in m
  {
    c.enabled && Live(m, now, BlockedKey(ip))
  }

  /**
   * recordFailedAttempt as one step: INCR the counter; on the first attempt
   * set its expiry to one window from now; at or above the threshold SET the
   * block key for the block duration. An INCR error ends the chain.
   */
  function AfterFailedAttempt(c: ThrottleConfig, m: Entries, now: int, ip: string): (m': Entries)
    requires ValidConfig(c)
    ensures !c.enabled ==> m' == m
    ensures forall k :: k != AttemptsKey(ip) && k != BlockedKey(ip) ==> Same(m, m', k)
  {
    if !c.enabled then m
    else
      var attemptKey := AttemptsKey(ip);
      var inc := Incr(m, now, attemptKey);
      match inc.count
      case None => inc.after
      case Some(attempts) =>
        var windowed := if attempts == 1 then ExpireIn(inc.after, now, attemptKey, Window(c)).after else inc.after;
        if attempts >= c.maxAttempts
        then SetEx(windowed, now, BlockedKey(ip), Text(BlockedMarker), BlockDuration(c))
        else windowed
  }

  /** With throttling disabled no IP is blocked and a failure changes nothing. */
  lemma ThrottlingDisabled(c: ThrottleConfig, m: Entries, now: int, ip: string)
    requires ValidConfig(c) && !c.enabled
    ensures !Blocked(c, m, now, ip)
    ensures AfterFailedAttempt(c, m, now, ip) == m
  {
  }

  /** A failure raises the IP's counter by exactly one (a missing or expired counter counts as 0) and leaves it live. */
  lemma FailureIncrementsCounter(c: ThrottleConfig, m: Entries, now: int, ip: string)
    requires ValidConfig(c) && c.enabled && !HoldsText(m, now, AttemptsKey(ip))
    ensures var m' := AfterFailedAttempt(c, m, now, ip);
      Live(m', now, AttemptsKey(ip)) && Counter(m', now, AttemptsKey(ip)) == Counter(m, now, AttemptsKey(ip)) + 1
  {
    KeysDistinct(ip, ip);
  }

  /** The counter's expiry is set to one window from now only when the new count is 1; otherwise it is kept. */
  lemma FailureSetsWindowOnce(c: ThrottleConfig, m: Entries, now: int, ip: string)
    requires ValidConfig(c) && c.enabled && !HoldsText(m, now, AttemptsKey(ip))
    ensures var m', key := AfterFailedAttempt(c, m, now, ip), AttemptsKey(ip);
      key in m' &&
      m'[key].expiresAt == if Counter(m, now, key) == 0 then Some(now + Window(c)) else m[key].expiresAt
  {
    KeysDistinct(ip, ip);
  }

  /** At or above the threshold the block key is written for the block duration; below it, the block key is untouched. */
  lemma FailureBlocksAtThreshold(c: ThrottleConfig, m: Entries, now: int, ip: string)
    requires ValidConfig(c) && c.enabled && !HoldsText(m, now, AttemptsKey(ip))
    ensures var m', key := AfterFailedAttempt(c, m, now, ip), BlockedKey(ip);
      if Counter(m, now, AttemptsKey(ip)) + 1 >= c.maxAttempts
      then key in m' && m'[key] == Entry(Text(BlockedMarker), Some(now + BlockDuration(c)))
           && forall t :: now <= t < now + BlockDuration(c) ==> Blocked(c, m', t, ip)
      else Same(m, m', key)
  {
    KeysDistinct(ip, ip);
    var m' := AfterFailedAttempt(c, m, now, ip);
    if Counter(m, now, AttemptsKey(ip)) + 1 >= c.maxAttempts {
      forall t | now <= t < now + BlockDuration(c)
        ensures Blocked(c, m', t, ip)
      {
        assert Live(m', t, BlockedKey(ip));
      }
    }
  }

  /** When the counter holds a string, INCR fails and the store is left as it was. */
  lemma FailureOnTextCounter(c: ThrottleConfig, m: Entries, now: int, ip: string)
    requires ValidConfig(c) && HoldsText(m, now, AttemptsKey(ip))
    ensures AfterFailedAttempt(c, m, now, ip) == m
  {
  }

  /** Only the IP's own counter and block key can change. */
  lemma FailureTouchesOnlyOwnKeys(c: ThrottleConfig, m: Entries, now: int, ip: string)
    requires ValidConfig(c)
    ensures forall k :: k != AttemptsKey(ip) && k != BlockedKey(ip) ==> Same(m, AfterFailedAttempt(c, m, now, ip), k)
  {
  }

  /** Another IP's counter, block key and blocked status are unchanged. */
  lemma FailureLeavesOtherIps(c: ThrottleConfig, m: Entries, now: int, ip: string, other: string, t: int)
    requires ValidConfig(c) && other != ip
    ensures var m' := AfterFailedAttempt(c, m, now, ip);
      Same(m, m', AttemptsKey(other)) && Same(m, m', BlockedKey(other))
      && Blocked(c, m', t, other) == Blocked(c, m, t, other)
  {
    KeysInjective(ip, other);
    KeysDistinct(ip, other);
    KeysDistinct(other, ip);
    FailureTouchesOnlyOwnKeys(c, m, now, ip);
  }

  /** Failures recorded one after another at the given times, oldest first. */
  function AfterFailedAttempts(c: ThrottleConfig, m: Entries, ip: string, times: seq<int>): Entries
    requires ValidConfig(c)
    decreases |times|
  {
    if |times| == 0 then m
    else AfterFailedAttempt(c, AfterFailedAttempts(c, m, ip, times[..|times| - 1]), times[|times| - 1], ip)
  }

  /** Non-decreasing times, all before the window opened at the first of them closes. */
  predicate WithinOneWindow(c: ThrottleConfig, times: seq<int>)
  {
    |times| > 0
    && (forall i, j :: 0 <= i < j < |times| ==> times[i] <= times[j])
    && (forall i :: 0 <= i < |times| ==> times[i] < times[0] + Window(c))
  }

  /** Inside one window that opened with no counter, n failures leave the counter at n, expiring one window after the first. */
  lemma {:induction false} CounterWithinWindow(c: ThrottleConfig, m: Entries, ip: string, times: seq<int>)
    requires ValidConfig(c) && c.enabled && WithinOneWindow(c, times)
    requires !Live(m, times[0], AttemptsKey(ip))
    ensures var m' := AfterFailedAttempts(c, m, ip, times);
      AttemptsKey(ip) in m' && m'[AttemptsKey(ip)] == Entry(Int(|times|), Some(times[0] + Window(c)))
    decreases |times|
  {
    KeysDistinct(ip, ip);
    var n := |times|;
    var prefix := times[..n - 1];
    if n == 1 {
      assert prefix == [];
    } else {
      assert WithinOneWindow(c, prefix) by {
        assert prefix[0] == times[0];
      }
      CounterWithinWindow(c, m, ip, prefix);
      assert times[0] <= times[n - 1];
    }
  }

  /**
   * Starting with no counter, maxAttempts failures inside one window block
   * the IP (the source blocks on reaching the threshold, not on exceeding it).
   */
  lemma Escalation(c: ThrottleConfig, m: Entries, ip: string, times: seq<int>)
    requires ValidConfig(c) && c.enabled && WithinOneWindow(c, times)
    requires !Live(m, times[0], AttemptsKey(ip))
    requires |times| >= c.maxAttempts
    ensures Blocked(c, AfterFailedAttempts(c, m, ip, times), times[|times| - 1], ip)
  {
    var n := |times|;
    var prefix := times[..n - 1];
    var before := AfterFailedAttempts(c, m, ip, prefix);
    var last := times[n - 1];
    if n == 1 {
      assert prefix == [];
      assert Counter(before, last, AttemptsKey(ip)) == 0;
    } else {
      assert WithinOneWindow(c, prefix) by {
        assert prefix[0] == times[0];
      }
      CounterWithinWindow(c, m, ip, prefix);
      assert times[0] <= last;
      assert Counter(before, last, AttemptsKey(ip)) == n - 1;
    }
    FailureBlocksAtThreshold(c, before, last, ip);
  }

  /** Once the window has passed, a failure starts a fresh count of 1 and, with a threshold above 1, does not write the block key. */
  lemma WindowRestartsCount(c: ThrottleConfig, m: Entries, now: int, ip: string)
    requires ValidConfig(c) && c.enabled && c.maxAttempts > 1
    requires !Live(m, now, AttemptsKey(ip))
    ensures var m' := AfterFailedAttempt(c, m, now, ip);
      Counter(m', now, AttemptsKey(ip)) == 1 && Same(m, m', BlockedKey(ip))
  {
    FailureIncrementsCounter(c, m, now, ip);
    FailureBlocksAtThreshold(c, m, now, ip);
  }

  /** The throttle service over a shared store. */
  class IpThrottlingService {
    const store: RedisStore
    const config: ThrottleConfig

    constructor(store: RedisStore, config: ThrottleConfig)
      requires ValidConfig(config)
      ensures this.store == store && this.config == config
    {
      this.store := store;
      this.config := config;
    }

    /** isBlocked: false when throttling is off, otherwise whether the block key exists. */
    method IsBlocked(ip: string) returns (blocked: bool)
      ensures blocked == Blocked(config, store.entries, store.now, ip)
    {
      if !config.enabled {
        return false;
      }
      blocked := store.HasKey(BlockedKey(ip));
    }

    /** recordFailedAttempt: the INCR / EXPIRE / SET chain, run as one step. */
    method RecordFailedAttempt(ip: string)
      requires ValidConfig(config)
      modifies store
      ensures store.entries == AfterFailedAttempt(config, old(store.entries), old(store.now), ip)
      ensures store.now == old(store.now)
    {
      if !config.enabled {
        return;
      }
      var attemptKey := AttemptsKey(ip);
      var attempts := store.Increment(attemptKey);
      if attempts.None? {
        return;
      }
      if attempts.value == 1 {
        var existed := store.Expire(attemptKey, Window(config));
      }
      if attempts.value >= config.maxAttempts {
        store.SetWithTtl(BlockedKey(ip), Text(BlockedMarker), BlockDuration(config));
      }
    }
  }

  /**
   * Two failures one window apart on the service's store: the first opens a
   * window, the clock moves to its end, and the second finds the counter
   * expired and starts again at 1.
   */
  method FailuresWindowApart(service: IpThrottlingService, ip: string)
    requires ValidConfig(service.config) && service.config.enabled
    requires !Live(service.store.entries, service.store.now, AttemptsKey(ip))
    modifies service.store
    ensures service.store.now == old(service.store.now) + Window(service.config)
    ensures Counter(service.store.entries, service.store.now, AttemptsKey(ip)) == 1
  {
    ghost var start := service.store.now;
    ghost var before := service.store.entries;
    service.RecordFailedAttempt(ip);
    FailureSetsWindowOnce(service.config, before, start, ip);
    ghost var windowed := service.store.entries;
    service.store.Advance(Window(service.config));
    assert !Live(windowed, service.store.now, AttemptsKey(ip));
    service.RecordFailedAttempt(ip);
    FailureIncrementsCounter(service.config, windowed, service.store.now, ip);
  }
}
