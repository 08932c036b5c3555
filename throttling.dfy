/**
 * The per-user throttle: a message gets through only when the user's key is
 * absent from the shared expiring-key store; getting through sets the key for
 * `int(rate)` seconds.
 */
module Throttling {
  import opened Strings

  /** The store key of a user. */
  function ThrottleKey(userId: int): string {
    "throttle:" + IntToDecimal(userId)
  }

  /** Distinct users have distinct keys, so one user's key never throttles another. */
  lemma ThrottleKeyInjective(a: int, b: int)
    requires ThrottleKey(a) == ThrottleKey(b)
    ensures a == b
  {
    assert IntToDecimal(a) == ThrottleKey(a)[9..] == ThrottleKey(b)[9..] == IntToDecimal(b);
    IntToDecimalInjective(a, b);
  }

  /** Python's `int(x)` on a float: truncation toward zero. */
  function TruncateTowardZero(x: real): (r: int)
    ensures 0.0 <= x ==> 0 <= r && r as real <= x < r as real + 1.0
    ensures x < 0.0 ==> r <= 0 && r as real - 1.0 < x <= r as real
  {
    if 0.0 <= x then x.Floor else -((-x).Floor)
  }

  /** How the middleware answered one message. `Raised` is the store refusing a
      non-positive expiry: the exception leaves the middleware and the handler is not called. */
  datatype Verdict = Admitted | Rejected(retryAfter: int) | Raised

  /** Redis's `TTL` reply for a key that does not exist, or has expired. */
  const KeyMissing := -2

  /** Redis's `TTL` reply for a live key with `msLeft` milliseconds to go: whole seconds,
      rounded to the nearest. */
  function TtlSeconds(msLeft: int): (s: int)
    requires msLeft >= 0
    ensures s >= 0 && s * 1000 - 500 <= msLeft < s * 1000 + 500
  {
    (msLeft + 500) / 1000
  }

  /** The middleware with the part of the shared store it uses: `store` maps each key to the
      instant at which it expires, in milliseconds of the store's clock `now`, and `handled`
      lists, in order, the users whose messages reached the handler. */
  class ThrottlingMiddleware {
    const rate: real
    var store: map<string, int>
    var now: int
    var handled: seq<int>

    /** No key outlives the configured time to live: every key this middleware sets has this
        property, a key left in the store under another rate may not. */
    ghost predicate Valid()
      reads this
    {
      forall k :: k in store ==> store[k] <= now + 1000 * TruncateTowardZero(rate)
    }

    /** `EXISTS key`: the key is set and its expiry instant has not passed. */
    predicate Live(key: string)
      reads this
    {
      key in store && now <= store[key]
    }

    /** `__init__`: the middleware takes the shared store as it finds it. */
    constructor (rate: real, store: map<string, int>, now: int)
      ensures this.rate == rate && this.store == store && this.now == now && handled == []
    {
      this.rate := rate;
      this.store := store;
      this.now := now;
      handled := [];
    }

    /** Time passes; keys expire by themselves. */
    method Tick(t: int)
      requires now <= t
      modifies this
      ensures old(Valid()) ==> Valid()
      ensures now == t && store == old(store) && handled == old(handled)
    {
      now := t;
    }

    /** `__call__`: `EXISTS key`, and `lag` milliseconds later the second command. While the
        key is live at `EXISTS` it rejects with the `TTL` reply, which is `KeyMissing` when the
        key has expired in between; otherwise `SETEX key int(rate)` and call the handler. */
    method Call(userId: int, lag: nat) returns (v: Verdict)
      modifies this
      ensures now == old(now) + lag
      ensures old(Valid()) ==> Valid()
      ensures old(Live(ThrottleKey(userId))) ==>
                v == Rejected(if now <= old(store)[ThrottleKey(userId)]
                              then TtlSeconds(old(store)[ThrottleKey(userId)] - now) else KeyMissing)
                && store == old(store) && handled == old(handled)
      ensures !old(Live(ThrottleKey(userId))) && TruncateTowardZero(rate) > 0 ==>
                v == Admitted
                && store == old(store)[ThrottleKey(userId) := now + 1000 * TruncateTowardZero(rate)]
                && handled == old(handled) + [userId]
      ensures !old(Live(ThrottleKey(userId))) && TruncateTowardZero(rate) <= 0 ==>
                v == Raised && store == old(store) && handled == old(handled)
      ensures v.Rejected? && lag == 0 ==> 0 <= v.retryAfter
      ensures v.Rejected? ==> v.retryAfter == KeyMissing || 0 <= v.retryAfter
      ensures v.Rejected? && old(Valid()) ==> v.retryAfter <= TruncateTowardZero(rate)
    {
      var key := ThrottleKey(userId);
      var present := Live(key);
      now := now + lag;
      if present {
        var ttl := if Live(key) then TtlSeconds(store[key] - now) else KeyMissing;
        return Rejected(ttl);
      }
      var seconds := TruncateTowardZero(rate);
      if seconds <= 0 {
        return Raised;
      }
      store := store[key := now + 1000 * seconds];
      handled := handled + [userId];
      v := Admitted;
    }
  }

  /** Two messages of one user, `elapsed` milliseconds apart and each answered at once: when
      `int(rate)` is positive and they are at most that many seconds apart, the first reaches
      the handler and the second is rejected with the time that is left, rounded to whole
      seconds; when `int(rate)` is not positive, both raise however far apart they are. */
  method TwoMessagesWithinRate(m: ThrottlingMiddleware, userId: int, elapsed: int)
    returns (first: Verdict, second: Verdict)
    requires !m.Live(ThrottleKey(userId))
    requires 0 <= elapsed && (TruncateTowardZero(m.rate) > 0 ==> elapsed <= 1000 * TruncateTowardZero(m.rate))
    modifies m
    ensures TruncateTowardZero(m.rate) > 0 ==>
              first == Admitted && second == Rejected(TtlSeconds(1000 * TruncateTowardZero(m.rate) - elapsed))
              && m.handled == old(m.handled) + [userId]
    ensures TruncateTowardZero(m.rate) <= 0 ==> first == Raised && second == Raised && m.handled == old(m.handled)
  {
    first := m.Call(userId, 0);
    m.Tick(m.now + elapsed);
    second := m.Call(userId, 0);
  }

  /** At a rate of 2.0, a second message 1.6 s after the first, or exactly 2 s after it, is
      still rejected, with a reported wait of 0 seconds; one a millisecond later is handled. */
  method SecondMessageExamples(userId: int) returns (early: Verdict, atExpiry: Verdict, after: Verdict)
    ensures early == Rejected(0) && atExpiry == Rejected(0) && after == Admitted
  {
    var m := new ThrottlingMiddleware(2.0, map[], 0);
    var _ := m.Call(userId, 0);
    m.Tick(1600);
    early := m.Call(userId, 0);
    m.Tick(2000);
    atExpiry := m.Call(userId, 0);
    m.Tick(2001);
    after := m.Call(userId, 0);
  }

  /** A key that `EXISTS` still sees but that expires before `TTL` runs is answered with
      Redis's "no such key" reply, so the user is told to wait -2 seconds. */
  method ExpiredBetweenCommands(userId: int) returns (v: Verdict)
    ensures v == Rejected(-2)
  {
    var m := new ThrottlingMiddleware(2.0, map[ThrottleKey(userId) := 1000], 1000);
    v := m.Call(userId, 1);
  }

  /** A key left in the store under a longer rate is honoured as it is: after lowering the
      rate from 10.0 to 2.0, a key with 9 s left still rejects with a wait of 9 seconds. */
  method StaleKeyOutlivesRate(userId: int) returns (v: Verdict)
    ensures v == Rejected(9)
  {
    var m := new ThrottlingMiddleware(2.0, map[ThrottleKey(userId) := 9000], 0);
    v := m.Call(userId, 0);
  }

  /** One user's message never touches another user's key; only the time it takes can let
      that key expire, so with no delay it never changes whether the other user is throttled. */
  method OtherUserUnaffected(m: ThrottlingMiddleware, userId: int, other: int, lag: nat) returns (v: Verdict)
    requires userId != other
    modifies m
    ensures lag == 0 ==> m.Live(ThrottleKey(other)) == old(m.Live(ThrottleKey(other)))
    ensures m.Live(ThrottleKey(other)) ==> old(m.Live(ThrottleKey(other)))
    ensures ThrottleKey(other) in m.store <==> ThrottleKey(other) in old(m.store)
    ensures ThrottleKey(other) in m.store ==> m.store[ThrottleKey(other)] == old(m.store)[ThrottleKey(other)]
  {
    if ThrottleKey(userId) == ThrottleKey(other) {
      ThrottleKeyInjective(userId, other);
    }
    v := m.Call(userId, lag);
  }
}
