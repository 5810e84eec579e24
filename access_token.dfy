/** The `isAlive` instance method of the built-in AccessToken model (lib/models/AccessToken.js). */
module AccessTokens {
  /** A stored token: its creation time in milliseconds and its lifetime in seconds. */
  datatype Token = Token(createdMs: int, ttl: int)

  /** `Math.floor(ms / 1000)`; Dafny's division by a positive divisor rounds down. */
  function Seconds(ms: int): (r: int)
    ensures r * 1000 <= ms < r * 1000 + 1000
  {
    ms / 1000
  }

  /** `isAlive()`: both instants truncated to whole seconds, alive while `created + ttl > now`. */
  predicate IsAlive(t: Token, nowMs: int)
    ensures IsAlive(t, nowMs) ==> nowMs < t.createdMs + 1000 * t.ttl
  {
    Seconds(t.createdMs) + t.ttl > Seconds(nowMs)
  }

  /** The instant a token dies: the first millisecond of its last second plus one. */
  function ExpiresAtMs(t: Token): (r: int)
    ensures r % 1000 == 0
  {
    (Seconds(t.createdMs) + t.ttl) * 1000
  }

  /** A token is alive exactly before the start of the second it expires in. */
  lemma AliveUntilExpiry(t: Token, nowMs: int)
    ensures IsAlive(t, nowMs) <==> nowMs < ExpiresAtMs(t)
  {
    var e := Seconds(t.createdMs) + t.ttl;
    var s := Seconds(nowMs);
    if s < e {
      assert s + 1 <= e;
      assert nowMs < (s + 1) * 1000 <= e * 1000;
    } else {
      assert e * 1000 <= s * 1000 <= nowMs;
    }
  }

  /** Once dead a token stays dead: aliveness only changes from true to false. */
  lemma AliveIsMonotone(t: Token, earlierMs: int, laterMs: int)
    requires earlierMs <= laterMs && IsAlive(t, laterMs)
    ensures IsAlive(t, earlierMs)
  {
    AliveUntilExpiry(t, laterMs);
    AliveUntilExpiry(t, earlierMs);
  }

  /** A token with no positive lifetime is dead from its creation on. */
  lemma NoLifetimeIsDead(t: Token, nowMs: int)
    requires t.ttl <= 0 && t.createdMs <= nowMs
    ensures !IsAlive(t, nowMs)
  {
    AliveUntilExpiry(t, nowMs);
    assert Seconds(t.createdMs) * 1000 <= t.createdMs;
  }

  /**
   * Truncation to seconds can cut the lifetime short by up to a second: a one-second
   * token created at 1.999 s is dead at 2 s.
   */
  lemma TruncationShortensLife()
    ensures IsAlive(Token(1999, 1), 1999)
    ensures !IsAlive(Token(1999, 1), 2000)
  {
    assert Seconds(1999) == 1;
    assert Seconds(2000) == 2;
  }
}
