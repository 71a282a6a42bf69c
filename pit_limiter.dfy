/** The request limiters of `pit/limiter.go`. The token limiter counts the tokens in use:
    `allow` first gives back the tokens that the time since the last grant has earned, at
    `limit` per second, and then grants one more if fewer than `burst` are in use.

    The clock is the parameter `now` in nanoseconds; Go's `float64` is an exact real here. */
module PitLimiter {
  import GoInt

  /** One second in nanoseconds. */
  const Second := 1_000_000_000

  /** `nopeLimiter.allow`: the limiter that never limits. */
  function NopeAllow(): (r: bool)
    ensures r
  {
    true
  }

  /** `revoked(d)`: the tokens earned in `d` nanoseconds at `limit` per second, from the whole
      seconds and the remaining nanoseconds separately, truncated toward zero. */
  function Revoked(d: int, limit: real): int {
    var sec := GoInt.Quo(d, Second) as real * limit;
    var nsec := GoInt.Rem(d, Second) as real * limit;
    GoInt.Trunc(sec + nsec / 1e9)
  }

  /** Dividing naturals as reals and rounding down is integer division. */
  lemma FloorOfQuotient(a: nat, b: nat)
    requires b > 0
    ensures ((a as real) / (b as real)).Floor == a / b
  {
    var q, m := a / b, a % b;
    assert a == b * q + m;
    assert a as real == (b as real) * (q as real) + m as real;
    var x := (a as real) / (b as real);
    assert x == q as real + (m as real) / (b as real);
    assert 0.0 <= (m as real) / (b as real) < 1.0;
  }

  /** The seconds-plus-nanoseconds sum that `revoked` truncates is exactly `d * qps / 1e9`. */
  lemma RevokedSum(d: nat, qps: nat)
    ensures (d / Second) as real * (qps as real) + (d % Second) as real * (qps as real) / 1e9
         == ((d * qps) as real) / (Second as real)
  {
    var q, m := d / Second, d % Second;
    assert d == Second * q + m;
    var Q, M, P, S := q as real, m as real, qps as real, Second as real;
    assert S == 1e9;
    assert (d * qps) as real == (d as real) * P;
    assert d as real == S * Q + M;
    calc {
      ((d * qps) as real) / S;
      == (S * Q + M) * P / S;
      == (S * Q * P + M * P) / S;
      == Q * P + M * P / S;
    }
  }

  /** For a non-negative duration and rate, `revoked` is exactly floor(d * qps / 1e9)
      computed over integers: no token is lost or invented by splitting the duration. */
  lemma RevokedIsFloor(d: nat, qps: nat)
    ensures Revoked(d, qps as real) == (d * qps) / Second
  {
    RevokedSum(d, qps);
    FloorOfQuotient(d * qps, Second);
  }

  /** What `allow` reads and writes. */
  datatype LimState = LimState(limit: real, burst: int, token: int, last: int)

  /** The limiter's invariant: the rate is the burst, and the tokens in use lie within it. */
  predicate Inv(s: LimState) {
    s.limit == s.burst as real && 0 <= s.token <= s.burst
  }

  /** `newTokenLimiter(qps)` at time `now`: every token counted as in use. */
  function NewState(qps: nat, now: int): LimState {
    LimState(qps as real, qps, qps, now)
  }

  /** The tokens in use once those earned since `last` are given back, never below zero. */
  function Refilled(s: LimState, now: int): int {
    var t := s.token - Revoked(now - s.last, s.limit);
    if t < 0 then 0 else t
  }

  /** One `allow` call at time `now`: the new state and whether the request may go. */
  function AllowStep(s: LimState, now: int): (LimState, bool) {
    var t := Refilled(s, now);
    if t < s.burst then (s.(token := t + 1, last := now), true)
    else (s.(token := t), false)
  }

  /** `allow` grants exactly when the refilled count is below `burst`; a grant takes one
      token and records `now`, a refusal leaves `last` alone with every token in use. */
  lemma AllowSpec(s: LimState, now: int)
    requires Inv(s) && s.last <= now
    ensures var (s', ok) := AllowStep(s, now);
      && Inv(s')
      && (ok <==> Refilled(s, now) < s.burst)
      && (ok ==> s'.token == Refilled(s, now) + 1 && s'.last == now)
      && (!ok ==> s'.last == s.last && s'.token == s.burst == s.token)
      && s'.limit == s.limit && s'.burst == s.burst
  {
    RevokedIsFloor(now - s.last, s.burst);
  }

  /** A limiter used at the instant it is created refuses: all its tokens are in use. */
  lemma NewLimiterRefuses(qps: nat, now: int)
    ensures !AllowStep(NewState(qps, now), now).1
  {
    RevokedIsFloor(0, qps);
  }

  /** `n` calls at time `now`: the final state and the answers, in order. */
  function AllowMany(s: LimState, n: nat, now: int): (LimState, seq<bool>)
    decreases n
  {
    if n == 0 then (s, [])
    else
      var (s', ok) := AllowStep(s, now);
      var (s'', oks) := AllowMany(s', n - 1, now);
      (s'', [ok] + oks)
  }

  /** With no time passing, a limiter with `t` tokens in use grants exactly the next
      `burst - t` calls and then refuses. */
  lemma {:induction false} BurstThenRefuse(s: LimState, n: nat, now: int)
    requires Inv(s) && s.last == now && n == s.burst - s.token
    ensures var (s', oks) := AllowMany(s, n, now);
      && |oks| == n && (forall i :: 0 <= i < n ==> oks[i])
      && Inv(s') && s'.last == now && s'.token == s'.burst
      && !AllowStep(s', now).1
    decreases n
  {
    RevokedIsFloor(0, s.burst);
    if n > 0 {
      var (s1, ok) := AllowStep(s, now);
      assert ok && s1.token == s.token + 1;
      BurstThenRefuse(s1, n - 1, now);
    }
  }

  /** Once every token is in use, the next call is granted exactly when at least one token's
      worth of time, `1e9 / qps` nanoseconds, has passed. */
  lemma RefillAfterOneToken(s: LimState, now: int)
    requires Inv(s) && s.token == s.burst && s.last <= now
    ensures AllowStep(s, now).1 <==> (now - s.last) * s.burst >= Second
  {
    RevokedIsFloor(now - s.last, s.burst);
  }

  /** The token limiter object. */
  class TokenLimiter {
    var limit: real
    var burst: int
    var token: int
    var last: int

    function State(): LimState
      reads this
    {
      LimState(limit, burst, token, last)
    }

    ghost predicate Valid()
      reads this
    {
      Inv(State())
    }

    /** `newTokenLimiter(qps)` at time `now`. */
    constructor (qps: nat, now: int)
      ensures State() == NewState(qps, now)
      ensures Valid()
    {
      limit, burst, token, last := qps as real, qps, qps, now;
    }

    /** `allow()` at time `now`, as one critical section; the clock does not go backwards. */
    method Allow(now: int) returns (ok: bool)
      requires Valid() && last <= now
      modifies this`token, this`last
      ensures Valid()
      ensures (State(), ok) == AllowStep(old(State()), now)
    {
      AllowSpec(State(), now);
      token := token - Revoked(now - last, limit);
      if token < 0 {
        token := 0;
      }
      if token < burst {
        token := token + 1;
        last := now;
        return true;
      }
      return false;
    }
  }
}
