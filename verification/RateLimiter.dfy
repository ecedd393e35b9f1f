/** The per-key token bucket of the local gateway (internal/codexlocalgateway/ratelimit.go).

    Tokens are reals, instants are integers (nanoseconds). A key's history is the sequence of
    the instants of its requests; `Level` replays the bucket over a history, and the theorems
    say which requests a bucket admits without mentioning tokens at all. */
module RateLimiter {

  const DEFAULT_RATE_LIMIT_RPM := 30
  const DEFAULT_RATE_LIMIT_BURST := 3
  const NANOSECONDS_PER_MINUTE := 60_000_000_000

  type Instant = int

  function Minutes(from: Instant, to: Instant): real {
    (to - from) as real / NANOSECONDS_PER_MINUTE as real
  }

  /** The tokens that drip in from one instant to another. */
  function Accrued(rpm: nat, from: Instant, to: Instant): real {
    Minutes(from, to) * rpm as real
  }

  /** The tokens in a bucket after the time from `last` to `now`: it never holds more than the burst. */
  function Refilled(rpm: nat, burst: nat, tokens: real, last: Instant, now: Instant): real {
    var refilled := tokens + Accrued(rpm, last, now);
    if refilled > burst as real then burst as real else refilled
  }

  // ----- what the bucket does, replayed over a history -----

  /** The tokens in the bucket when request `j` is decided (a new key starts with a full bucket). */
  function Level(rpm: nat, burst: nat, history: seq<Instant>, j: nat): real
    requires j < |history|
    decreases j, 1
  {
    if j == 0 then burst as real
    else Refilled(rpm, burst, Remaining(rpm, burst, history, j - 1), history[j - 1], history[j])
  }

  predicate Admits(rpm: nat, burst: nat, history: seq<Instant>, j: nat)
    requires j < |history|
    decreases j, 2
  {
    Level(rpm, burst, history, j) >= 1.0
  }

  /** The tokens left in the bucket after request `j` was decided. */
  function Remaining(rpm: nat, burst: nat, history: seq<Instant>, j: nat): real
    requires j < |history|
    decreases j, 3
  {
    if Admits(rpm, burst, history, j) then Level(rpm, burst, history, j) - 1.0 else Level(rpm, burst, history, j)
  }

  // ----- what a rate limit means -----

  /** How many of the requests i, i + 1, ..., j - 1 were admitted. */
  function Admitted(rpm: nat, burst: nat, history: seq<Instant>, i: nat, j: nat): nat
    requires i <= j <= |history|
    decreases j - i
  {
    if i == j then 0
    else Admitted(rpm, burst, history, i, j - 1) + if Admits(rpm, burst, history, j - 1) then 1 else 0
  }

  /** What the limit allows between requests `i` and `j`, times 60_000_000_000: the burst, and `rpm` more in
      each minute, which is so many nanoseconds. */
  function Allowance(rpm: nat, burst: nat, history: seq<Instant>, i: nat, j: nat): int
    requires i <= j < |history|
  {
    60_000_000_000 * burst + rpm * (history[j] - history[i])
  }

  /** Admitting request `j` would put more admissions into the window [i..j] than the limit allows. */
  predicate WouldExceed(rpm: nat, burst: nat, history: seq<Instant>, i: nat, j: nat)
    requires i <= j < |history|
  {
    60_000_000_000 * (Admitted(rpm, burst, history, i, j) + 1) > Allowance(rpm, burst, history, i, j)
  }

  /** Admitting request `j` would break the limit in some window that ends with it. */
  ghost predicate BreaksSomeWindow(rpm: nat, burst: nat, history: seq<Instant>, j: nat)
    requires j < |history|
  {
    exists i: nat :: i <= j && WouldExceed(rpm, burst, history, i, j)
  }

  ghost predicate Nondecreasing(history: seq<Instant>) {
    forall a, b :: 0 <= a <= b < |history| ==> history[a] <= history[b]
  }

  // ----- proofs -----

  lemma AccruedAdds(rpm: nat, a: Instant, b: Instant, c: Instant)
    ensures Accrued(rpm, a, a) == 0.0
    ensures Accrued(rpm, a, b) + Accrued(rpm, b, c) == Accrued(rpm, a, c)
    ensures b <= c ==> Accrued(rpm, b, c) >= 0.0
  {
    assert Minutes(a, b) + Minutes(b, c) == Minutes(a, c);
  }

  /** What drips in, in whole numbers. */
  lemma AccruedIs(rpm: nat, a: Instant, b: Instant)
    ensures 60_000_000_000.0 * Accrued(rpm, a, b) == (rpm * (b - a)) as real
  {
    assert 60_000_000_000.0 * Minutes(a, b) == (b - a) as real;
    assert (rpm * (b - a)) as real == rpm as real * (b - a) as real;
  }

  /** What a window leaves over, in tokens. */
  function LeftOver(rpm: nat, burst: nat, history: seq<Instant>, i: nat, j: nat): real
    requires i <= j < |history|
  {
    burst as real + Accrued(rpm, history[i], history[j]) - Admitted(rpm, burst, history, i, j) as real
  }

  lemma LeftOverIs(rpm: nat, burst: nat, history: seq<Instant>, i: nat, j: nat)
    requires i <= j < |history|
    ensures 60_000_000_000.0 * LeftOver(rpm, burst, history, i, j)
         == (Allowance(rpm, burst, history, i, j) - 60_000_000_000 * Admitted(rpm, burst, history, i, j)) as real
    ensures LeftOver(rpm, burst, history, i, j) < 1.0 <==> WouldExceed(rpm, burst, history, i, j)
  {
    AccruedIs(rpm, history[i], history[j]);
    hide Accrued, Admitted;
  }

  /** The level is at most what every window leaves over. */
  lemma {:induction false} LevelBelowEveryWindow(rpm: nat, burst: nat, history: seq<Instant>, i: nat, j: nat)
    requires i <= j < |history|
    ensures 60_000_000_000.0 * Level(rpm, burst, history, j)
         <= (Allowance(rpm, burst, history, i, j) - 60_000_000_000 * Admitted(rpm, burst, history, i, j)) as real
    ensures Level(rpm, burst, history, j) <= LeftOver(rpm, burst, history, i, j)
    decreases j
  {
    if i == j {
      AccruedAdds(rpm, history[i], history[i], history[i]);
    } else {
      LevelBelowEveryWindow(rpm, burst, history, i, j - 1);
      AccruedAdds(rpm, history[i], history[j - 1], history[j]);
    }
    LeftOverIs(rpm, burst, history, i, j);
    hide Accrued, Allowance, WouldExceed;
  }

  /** Some window leaves over exactly the level: the bucket refuses no more than it must. */
  lemma {:induction false} LevelMetBySomeWindow(rpm: nat, burst: nat, history: seq<Instant>, j: nat) returns (i: nat)
    requires j < |history|
    ensures i <= j
    ensures 60_000_000_000.0 * Level(rpm, burst, history, j)
         == (Allowance(rpm, burst, history, i, j) - 60_000_000_000 * Admitted(rpm, burst, history, i, j)) as real
    ensures Level(rpm, burst, history, j) == LeftOver(rpm, burst, history, i, j)
    decreases j
  {
    if j == 0 || Level(rpm, burst, history, j) == burst as real {
      i := j;
      AccruedAdds(rpm, history[i], history[i], history[i]);
    } else {
      i := LevelMetBySomeWindow(rpm, burst, history, j - 1);
      AccruedAdds(rpm, history[i], history[j - 1], history[j]);
    }
    LeftOverIs(rpm, burst, history, i, j);
    hide Accrued, Allowance, WouldExceed;
  }

  /** The bucket is exact: a request is refused just when admitting it would break the limit in
      some window that ends with it. No assumption about the instants is needed. */
  lemma RefusedIffSomeWindowWouldExceed(rpm: nat, burst: nat, history: seq<Instant>, j: nat)
    requires j < |history|
    ensures !Admits(rpm, burst, history, j) <==>
            exists i :: 0 <= i <= j && 60_000_000_000 * (Admitted(rpm, burst, history, i, j) + 1)
                                       > 60_000_000_000 * burst + rpm * (history[j] - history[i])
    ensures !Admits(rpm, burst, history, j) <==> BreaksSomeWindow(rpm, burst, history, j)
  {
    var w := LevelMetBySomeWindow(rpm, burst, history, j);
    forall i: nat | i <= j ensures Admits(rpm, burst, history, j) ==> !WouldExceed(rpm, burst, history, i, j) {
      LevelBelowEveryWindow(rpm, burst, history, i, j);
      LeftOverIs(rpm, burst, history, i, j);
    }
    if !Admits(rpm, burst, history, j) {
      LeftOverIs(rpm, burst, history, w, j);
      assert WouldExceed(rpm, burst, history, w, j);
    }
    BreaksMeans(rpm, burst, history, j);
    hide Admits, Allowance, WouldExceed, Level, LeftOver;
  }

  lemma BreaksMeans(rpm: nat, burst: nat, history: seq<Instant>, j: nat)
    requires j < |history|
    ensures BreaksSomeWindow(rpm, burst, history, j) <==>
            exists i :: 0 <= i <= j && 60_000_000_000 * (Admitted(rpm, burst, history, i, j) + 1)
                                       > 60_000_000_000 * burst + rpm * (history[j] - history[i])
  {
    hide Admitted;
    if i :| 0 <= i <= j && 60_000_000_000 * (Admitted(rpm, burst, history, i, j) + 1)
                           > 60_000_000_000 * burst + rpm * (history[j] - history[i])
    {
      assert WouldExceed(rpm, burst, history, i, j);
    }
  }

  /** Hence no window ever holds more admissions than the limit allows. */
  lemma {:induction false} EveryWindowWithinLimit(rpm: nat, burst: nat, history: seq<Instant>, i: nat, j: nat)
    requires Nondecreasing(history) && i <= j < |history|
    ensures 60_000_000_000 * Admitted(rpm, burst, history, i, j + 1)
         <= 60_000_000_000 * burst + rpm * (history[j] - history[i])
    decreases j
  {
    if Admits(rpm, burst, history, j) {
      RefusedIffSomeWindowWouldExceed(rpm, burst, history, j);
      assert !WouldExceed(rpm, burst, history, i, j);
    } else if i < j {
      EveryWindowWithinLimit(rpm, burst, history, i, j - 1);
      assert rpm * (history[j - 1] - history[i]) <= rpm * (history[j] - history[i]);
    }
    hide Admits, Allowance;
  }

  lemma {:induction false} LevelNonnegative(rpm: nat, burst: nat, history: seq<Instant>, j: nat)
    requires Nondecreasing(history) && j < |history|
    ensures 0.0 <= Level(rpm, burst, history, j) && 0.0 <= Remaining(rpm, burst, history, j)
    decreases j
  {
    if j > 0 {
      LevelNonnegative(rpm, burst, history, j - 1);
      AccruedAdds(rpm, history[j - 1], history[j - 1], history[j]);
    }
  }

  /** A client that waits at least 1/rpm minutes between requests is never refused. */
  lemma SpacedRequestAdmitted(rpm: nat, burst: nat, history: seq<Instant>, j: nat)
    requires burst >= 1 && Nondecreasing(history) && j < |history|
    requires j > 0 ==> (history[j] - history[j - 1]) * rpm >= NANOSECONDS_PER_MINUTE
    ensures Admits(rpm, burst, history, j)
  {
    if j > 0 {
      LevelNonnegative(rpm, burst, history, j - 1);
      OneTokenAccrued(rpm, history[j - 1], history[j]);
      hide Accrued;
    }
  }

  lemma OneTokenAccrued(rpm: nat, a: Instant, b: Instant)
    requires (b - a) * rpm >= NANOSECONDS_PER_MINUTE
    ensures Accrued(rpm, a, b) >= 1.0
  {
    var gap := b - a;
    assert gap as real * rpm as real == (gap * rpm) as real;
    assert Minutes(a, b) * rpm as real == (gap * rpm) as real / NANOSECONDS_PER_MINUTE as real;
  }

  /** Appending a request changes nothing about the earlier ones: their answers stay what they were. */
  lemma {:induction false} LevelOfPrefix(rpm: nat, burst: nat, history: seq<Instant>, now: Instant, j: nat)
    requires j < |history|
    ensures Admits(rpm, burst, history + [now], j) == Admits(rpm, burst, history, j)
    ensures Level(rpm, burst, history + [now], j) == Level(rpm, burst, history, j)
    ensures Remaining(rpm, burst, history + [now], j) == Remaining(rpm, burst, history, j)
    decreases j
  {
    if j > 0 {
      LevelOfPrefix(rpm, burst, history, now, j - 1);
    }
  }

  /** What one more request means for a key: the answer, and the tokens it leaves. */
  lemma DecisionOfNextRequest(rpm: nat, burst: nat, history: seq<Instant>, now: Instant)
    requires burst >= 1
    ensures var j, next := |history|, history + [now];
      if j == 0 then
        && Admits(rpm, burst, next, 0) && !BreaksSomeWindow(rpm, burst, next, 0)
        && Remaining(rpm, burst, next, 0) == (burst - 1) as real
      else
        var tokens := Refilled(rpm, burst, Remaining(rpm, burst, history, j - 1), history[j - 1], now);
        && (BreaksSomeWindow(rpm, burst, next, j) <==> tokens < 1.0)
        && (Admits(rpm, burst, next, j) <==> tokens >= 1.0)
        && Remaining(rpm, burst, next, j) == if tokens < 1.0 then tokens else tokens - 1.0
  {
    var j, next := |history|, history + [now];
    RefusedIffSomeWindowWouldExceed(rpm, burst, next, j);
    if j > 0 {
      LevelOfPrefix(rpm, burst, history, now, j - 1);
    }
  }

  // ----- the limiter itself -----

  class RateBucket {
    var tokens: real
    var last: Instant

    constructor (tokens: real, last: Instant)
      ensures this.tokens == tokens && this.last == last
    {
      this.tokens, this.last := tokens, last;
    }

    /** The part of `allow` that works on a bucket that exists already. */
    method Take(rpm: nat, burst: nat, now: Instant) returns (ok: bool)
      modifies this
      ensures last == now
      ensures ok <==> Refilled(rpm, burst, old(tokens), old(last), now) >= 1.0
      ensures tokens == Refilled(rpm, burst, old(tokens), old(last), now) - if ok then 1.0 else 0.0
    {
      tokens := tokens + Accrued(rpm, last, now);
      if tokens > burst as real {
        tokens := burst as real;
      }
      last := now;
      if tokens < 1.0 {
        return false;
      }
      tokens := tokens - 1.0;
      return true;
    }

    /** A request decided by a bucket that is in step with the history of its key. */
    method Decide(rpm: nat, burst: nat, ghost history: seq<Instant>, now: Instant) returns (ok: bool)
      requires burst > 0 && Replays(rpm, burst, history)
      modifies this
      ensures Replays(rpm, burst, history + [now])
      ensures !ok <==> BreaksSomeWindow(rpm, burst, history + [now], |history|)
      ensures ok <==> Admits(rpm, burst, history + [now], |history|)
    {
      hide Remaining, Level, Admits, BreaksSomeWindow, Refilled;
      DecisionOfNextRequest(rpm, burst, history, now);
      ok := Take(rpm, burst, now);
    }

    /** The bucket is the one that replaying `history` leaves. */
    ghost predicate Replays(rpm: nat, burst: nat, history: seq<Instant>)
      reads this
    {
      && history != []
      && tokens == Remaining(rpm, burst, history, |history| - 1)
      && last == history[|history| - 1]
    }
  }

  class Limiter {
    const rpm: nat
    const burst: nat
    var buckets: map<string, RateBucket>
    /** Per key, the instants of all its requests so far, in the order they took the lock. */
    ghost var log: map<string, seq<Instant>>

    ghost predicate Valid()
      reads this, buckets.Values
    {
      && rpm > 0 && burst > 0
      && log.Keys == buckets.Keys
      && (forall k, l :: k in buckets && l in buckets && k != l ==> buckets[k] != buckets[l])
      && (forall k :: k in log ==> buckets[k].Replays(rpm, burst, log[k]))
    }

    ghost function History(key: string): seq<Instant>
      reads this
    {
      if key in log then log[key] else []
    }

    constructor (rpm: int, burst: int)
      ensures Valid() && log == map[] && buckets == map[]
      ensures this.rpm == if rpm <= 0 then 30 else rpm
      ensures this.burst == if burst <= 0 then 3 else burst
    {
      this.rpm := if rpm <= 0 then DEFAULT_RATE_LIMIT_RPM else rpm;
      this.burst := if burst <= 0 then DEFAULT_RATE_LIMIT_BURST else burst;
      buckets, log := map[], map[];
    }

    /** Decides a request of `key` at `now`: the answer is the one the windows of this key's whole
        history call for. The log fixes every bucket (`Valid`), so no other key is touched. */
    method Allow(key: string, now: Instant) returns (ok: bool)
      requires Valid()
      modifies this, buckets.Values
      ensures Valid() && fresh(buckets.Values - old(buckets.Values))
      ensures log == old(log)[key := old(History(key)) + [now]]
      ensures var history := log[key]; var j := |history| - 1;
        && ok == Admits(rpm, burst, history, j)
        && (!ok <==> exists i :: 0 <= i <= j && 60_000_000_000 * (Admitted(rpm, burst, history, i, j) + 1)
                                                > 60_000_000_000 * burst + rpm * (history[j] - history[i]))
    {
      hide Admits, Admitted, BreaksSomeWindow, RateBucket.Replays;
      if key !in buckets {
        Start(key, now);
        assert [] + [now] == [now];
        ok := true;
      } else {
        ok := AllowKnown(key, now);
      }
      BreaksMeans(rpm, burst, log[key], |log[key]| - 1);
    }

    /** The first request of a key is always admitted. */
    method Start(key: string, now: Instant)
      requires Valid() && key !in buckets
      modifies this
      ensures Valid() && fresh(buckets.Values - old(buckets.Values))
      ensures log == old(log)[key := [now]]
      ensures Admits(rpm, burst, [now], 0) && !BreaksSomeWindow(rpm, burst, [now], 0)
    {
      hide Remaining, BreaksSomeWindow, Admits;
      DecisionOfNextRequest(rpm, burst, [], now);
      assert [] + [now] == [now];
      var created := new RateBucket((burst - 1) as real, now);
      assert created.Replays(rpm, burst, [now]);
      hide RateBucket.Replays;
      buckets, log := buckets[key := created], log[key := [now]];
    }

    method AllowKnown(key: string, now: Instant) returns (ok: bool)
      requires Valid() && key in buckets
      modifies `log, buckets[key]
      ensures Valid() && log == old(log)[key := old(log)[key] + [now]]
      ensures !ok <==> BreaksSomeWindow(rpm, burst, log[key], |log[key]| - 1)
      ensures ok <==> Admits(rpm, burst, log[key], |log[key]| - 1)
    {
      hide RateBucket.Replays, BreaksSomeWindow, Admits;
      ok := buckets[key].Decide(rpm, burst, log[key], now);
      log := log[key := log[key] + [now]];
    }
  }
}
