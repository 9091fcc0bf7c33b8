/**
 The reconnection back-off of the websocket client; see "Reconnecting", section 5.3 of OCPP
 2.0.1 Part 4. Durations are nanoseconds in a 64-bit integer that wraps around.
 */
module Backoff {
  const SECOND := 1_000_000_000
  const HALF: int := 0x8000_0000_0000_0000
  const MAX_INT64: int := 0x7FFF_FFFF_FFFF_FFFF

  datatype Config = Config(minimum: int, randomRange: nat, repeatTimes: int)

  function Wrap(x: int): (r: int)
    ensures -HALF <= r <= MAX_INT64
    ensures r == x <==> -HALF <= x <= MAX_INT64
  {
    (x + 0x8000_0000_0000_0000) % 0x1_0000_0000_0000_0000 - 0x8000_0000_0000_0000
  }

  function Pow2(n: nat): (r: nat)
    ensures r > 0
  {
    if n == 0 then 1 else 2 * Pow2(n - 1)
  }

  /** The draws of rand.Intn(randomRange + 1), in the order they are made. */
  predicate Drawn(cfg: Config, draws: seq<nat>) {
    forall i :: 0 <= i < |draws| ==> draws[i] <= cfg.randomRange
  }

  /** How many random parts the delay before attempt k contains. */
  function Level(cfg: Config, k: nat): (m: nat)
    requires k >= 1
    ensures 1 <= m <= k
  {
    var most := if cfg.repeatTimes < 1 then 1 else cfg.repeatTimes;
    if k < most then k else most
  }

  /** The delay without wrap-around. */
  function Exact(cfg: Config, draws: seq<nat>, m: nat): (d: int)
    requires 1 <= m <= |draws|
  {
    if m == 1 then cfg.minimum + draws[0] * SECOND
    else 2 * Exact(cfg, draws, m - 1) + draws[m - 1] * SECOND
  }

  /** The delay as the program computes it. */
  function Computed(cfg: Config, draws: seq<nat>, m: nat): (d: int)
    requires 1 <= m <= |draws|
  {
    if m == 1 then Wrap(cfg.minimum + Wrap(draws[0] * SECOND))
    else Wrap(Wrap(2 * Computed(cfg, draws, m - 1)) + Wrap(draws[m - 1] * SECOND))
  }

  // ----- Wrap-around -----

  lemma WrapUnique(x: int, q: int, r: int)
    requires x == r + q * 0x1_0000_0000_0000_0000 && -HALF <= r <= MAX_INT64
    ensures Wrap(x) == r
  {
  }

  /** Wrapping an intermediate result changes nothing after the next wrap. */
  lemma WrapAbsorbs(a: int, b: int)
    ensures Wrap(a + Wrap(b)) == Wrap(a + b)
  {
    var q := (b + 0x8000_0000_0000_0000) / 0x1_0000_0000_0000_0000;
    assert b == Wrap(b) + q * 0x1_0000_0000_0000_0000;
    var r := Wrap(a + Wrap(b));
    var p := (a + Wrap(b) + 0x8000_0000_0000_0000) / 0x1_0000_0000_0000_0000;
    assert a + Wrap(b) == r + p * 0x1_0000_0000_0000_0000;
    WrapUnique(a + b, p + q, r);
  }

  lemma WrapDouble(x: int, part: int)
    ensures Wrap(Wrap(2 * Wrap(x)) + Wrap(part)) == Wrap(2 * x + part)
  {
    var w := Wrap(x);
    assert Wrap(2 * w) == Wrap(2 * x) by {
      WrapAbsorbs(w, x);
      WrapAbsorbs(x, x);
    }
    WrapAbsorbs(Wrap(2 * x), part);
    WrapAbsorbs(part, 2 * x);
  }

  lemma WrapSum(x: int, part: int)
    ensures Wrap(Wrap(2 * x) + Wrap(part)) == Wrap(2 * x + part)
  {
    WrapAbsorbs(Wrap(2 * x), part);
    WrapAbsorbs(part, 2 * x);
  }

  // ----- The loop -----

  /** Each delay follows from the one before: doubled and lengthened at most repeatTimes - 1 times. */
  ghost predicate Recurrent(cfg: Config, draws: seq<nat>, delays: seq<int>)
    requires |draws| >= |delays|
  {
    && (delays != [] ==> delays[0] == Wrap(cfg.minimum + draws[0] * SECOND))
    && forall k :: 1 <= k < |delays| ==>
         delays[k] == if k < cfg.repeatTimes then Wrap(2 * delays[k - 1] + draws[k] * SECOND) else delays[k - 1]
  }

  /** The closed form of such delays. */
  lemma {:induction false} RecurrentIsComputed(cfg: Config, draws: seq<nat>, delays: seq<int>, k: nat)
    requires |draws| >= |delays| && Recurrent(cfg, draws, delays) && 1 <= k <= |delays|
    ensures delays[k - 1] == Computed(cfg, draws, Level(cfg, k))
    decreases k
  {
    if k == 1 {
      WrapAbsorbs(cfg.minimum, draws[0] * SECOND);
    } else {
      RecurrentIsComputed(cfg, draws, delays, k - 1);
      if k - 1 < cfg.repeatTimes {
        assert Level(cfg, k) == k && Level(cfg, k - 1) == k - 1;
        WrapSum(delays[k - 2], draws[k - 1] * SECOND);
      } else {
        assert Level(cfg, k) == Level(cfg, k - 1);
      }
    }
  }

  /**
   handleReconnection for a run that waits `attempts` times before it succeeds or is stopped;
   returns every delay it waited for.
   */
  method HandleReconnection(cfg: Config, draws: seq<nat>, attempts: nat) returns (delays: seq<int>)
    requires |draws| > attempts
    ensures |delays| == attempts
    ensures attempts > 0 ==> delays[0] == Wrap(cfg.minimum + draws[0] * SECOND)
    ensures forall k :: 1 <= k < attempts ==>
      delays[k] == if k < cfg.repeatTimes then Wrap(2 * delays[k - 1] + draws[k] * SECOND) else delays[k - 1]
    ensures forall k :: 1 <= k <= attempts ==> delays[k - 1] == Computed(cfg, draws, Level(cfg, k))
  {
    var delay := Wrap(cfg.minimum + Wrap(draws[0] * SECOND));
    WrapAbsorbs(cfg.minimum, draws[0] * SECOND);
    var reconnectionAttempts := 1;
    delays := [];
    while |delays| < attempts
      invariant |delays| <= attempts && reconnectionAttempts == |delays| + 1
      invariant Recurrent(cfg, draws, delays + [delay])
    {
      delays := delays + [delay];
      WrapSum(delay, draws[reconnectionAttempts] * SECOND);
      if reconnectionAttempts < cfg.repeatTimes {
        delay := Wrap(2 * delay);
        delay := Wrap(delay + Wrap(draws[reconnectionAttempts] * SECOND));
      }
      assert (delays + [delay])[..|delays|] == delays;
      reconnectionAttempts := reconnectionAttempts + 1;
    }
    assert Recurrent(cfg, draws, delays) by {
      assert (delays + [delay])[..|delays|] == delays;
    }
    forall k | 1 <= k <= attempts ensures delays[k - 1] == Computed(cfg, draws, Level(cfg, k)) {
      RecurrentIsComputed(cfg, draws, delays, k);
    }
  }

  /** However often the program overflows on the way, its result is the exact one, wrapped once. */
  lemma {:induction false} ComputedIsWrappedExact(cfg: Config, draws: seq<nat>, m: nat)
    requires 1 <= m <= |draws|
    ensures Computed(cfg, draws, m) == Wrap(Exact(cfg, draws, m))
  {
    if m == 1 {
      WrapAbsorbs(cfg.minimum, draws[0] * SECOND);
    } else {
      ComputedIsWrappedExact(cfg, draws, m - 1);
      WrapDouble(Exact(cfg, draws, m - 1), draws[m - 1] * SECOND);
    }
  }

  // ----- Bounds -----

  function Lower(cfg: Config, m: nat): (d: int)
    requires m >= 1
  {
    Pow2(m - 1) * cfg.minimum
  }

  function Upper(cfg: Config, m: nat): (d: int)
    requires m >= 1
  {
    Pow2(m - 1) * cfg.minimum + (Pow2(m) - 1) * (cfg.randomRange * SECOND)
  }

  lemma BoundsDouble(cfg: Config, m: nat)
    requires m >= 2
    ensures Lower(cfg, m) == 2 * Lower(cfg, m - 1)
    ensures Upper(cfg, m) == 2 * Upper(cfg, m - 1) + cfg.randomRange * SECOND
  {
    var w := cfg.randomRange * SECOND;
    var p := Pow2(m - 1);
    var q := Pow2(m - 2);
    assert p == 2 * q && Pow2(m) == 2 * p;
    assert (2 * q) * cfg.minimum == 2 * (q * cfg.minimum);
    assert (2 * p - 1) * w == 2 * ((p - 1) * w) + w;
  }

  /** For all draws, the exact delay lies between 2^(m-1)*min and 2^(m-1)*min + (2^m - 1)*range. */
  lemma {:induction false} DelayBounds(cfg: Config, draws: seq<nat>, m: nat)
    requires 1 <= m <= |draws| && Drawn(cfg, draws)
    ensures Lower(cfg, m) <= Exact(cfg, draws, m) <= Upper(cfg, m)
  {
    if m == 1 {
      assert Pow2(1) == 2 * Pow2(0) && Pow2(0) == 1;
    } else {
      DelayBounds(cfg, draws, m - 1);
      BoundsDouble(cfg, m);
    }
  }

  /** The largest draws reach the upper bound. */
  lemma {:induction false} UpperIsReached(cfg: Config, draws: seq<nat>, m: nat)
    requires 1 <= m <= |draws| && forall i :: 0 <= i < |draws| ==> draws[i] == cfg.randomRange
    ensures Exact(cfg, draws, m) == Upper(cfg, m)
  {
    if m == 1 {
      assert Pow2(1) == 2 * Pow2(0) && Pow2(0) == 1;
    } else {
      UpperIsReached(cfg, draws, m - 1);
      BoundsDouble(cfg, m);
    }
  }

  /** Draws of zero reach the lower bound. */
  lemma {:induction false} LowerIsReached(cfg: Config, draws: seq<nat>, m: nat)
    requires 1 <= m <= |draws| && forall i :: 0 <= i < |draws| ==> draws[i] == 0
    ensures Exact(cfg, draws, m) == Lower(cfg, m)
  {
    if m == 1 {
      assert Pow2(0) == 1;
    } else {
      LowerIsReached(cfg, draws, m - 1);
      BoundsDouble(cfg, m);
    }
  }

  /** Both bounds of level m are 64-bit durations. */
  predicate InRange(cfg: Config, m: nat)
    requires m >= 1
  {
    -HALF <= Lower(cfg, m) && Upper(cfg, m) <= MAX_INT64
  }

  lemma InRangeMeansExact(cfg: Config, draws: seq<nat>, m: nat)
    requires 1 <= m <= |draws| && Drawn(cfg, draws) && InRange(cfg, m)
    ensures Computed(cfg, draws, m) == Exact(cfg, draws, m)
  {
    DelayBounds(cfg, draws, m);
    ComputedIsWrappedExact(cfg, draws, m);
  }

  /** No draw makes the computation of level m overflow, if and only if both bounds fit. */
  lemma NeverOverflowsIff(cfg: Config, m: nat)
    requires m >= 1
    ensures (forall draws: seq<nat> :: |draws| == m && Drawn(cfg, draws) ==>
               Computed(cfg, draws, m) == Exact(cfg, draws, m))
        <==> InRange(cfg, m)
  {
    if InRange(cfg, m) {
      forall draws: seq<nat> | |draws| == m && Drawn(cfg, draws)
        ensures Computed(cfg, draws, m) == Exact(cfg, draws, m)
      {
        InRangeMeansExact(cfg, draws, m);
      }
    } else if Upper(cfg, m) > MAX_INT64 {
      var draws := seq(m, _ => cfg.randomRange);
      UpperIsReached(cfg, draws, m);
      ComputedIsWrappedExact(cfg, draws, m);
      assert Drawn(cfg, draws) && Computed(cfg, draws, m) != Exact(cfg, draws, m);
    } else {
      var draws := seq(m, _ => 0);
      LowerIsReached(cfg, draws, m);
      ComputedIsWrappedExact(cfg, draws, m);
      assert Drawn(cfg, draws) && Computed(cfg, draws, m) != Exact(cfg, draws, m);
    }
  }

  /** A level that fits makes every smaller level fit. */
  lemma {:induction false} InRangeBelow(cfg: Config, m: nat, n: nat)
    requires 1 <= m <= n && InRange(cfg, n)
    ensures InRange(cfg, m)
    decreases n - m
  {
    if m < n {
      BoundsDouble(cfg, n);
      InRangeBelow(cfg, m, n - 1);
    }
  }

  /**
   The delays of a reconnection whose level at attempt k fits: within their bounds, and constant
   from attempt max(repeatTimes, 1) on.
   */
  lemma DelaysAreBounded(cfg: Config, draws: seq<nat>, j: nat, k: nat)
    requires 1 <= j <= k <= |draws| && Drawn(cfg, draws) && InRange(cfg, Level(cfg, k))
    ensures Lower(cfg, Level(cfg, j)) <= Computed(cfg, draws, Level(cfg, j)) <= Upper(cfg, Level(cfg, j))
    ensures j >= cfg.repeatTimes ==> Computed(cfg, draws, Level(cfg, j)) == Computed(cfg, draws, Level(cfg, k))
  {
    InRangeBelow(cfg, Level(cfg, j), Level(cfg, k));
    InRangeMeansExact(cfg, draws, Level(cfg, j));
    DelayBounds(cfg, draws, Level(cfg, j));
  }

  // ----- Growth -----

  lemma {:induction false} ExactGrows(cfg: Config, draws: seq<nat>, m: nat, n: nat)
    requires 1 <= m <= n <= |draws| && Drawn(cfg, draws) && cfg.minimum >= 0
    ensures 0 <= Exact(cfg, draws, m) <= Exact(cfg, draws, n)
    decreases n
  {
    if n > 1 {
      ExactGrows(cfg, draws, if m < n then m else n - 1, n - 1);
    }
  }

  /** The first n delays are the exact ones and none is shorter than an earlier one. */
  ghost predicate Grows(cfg: Config, draws: seq<nat>, n: nat)
    requires n <= |draws|
  {
    && (forall k :: 1 <= k <= n ==>
          Computed(cfg, draws, Level(cfg, k)) == Exact(cfg, draws, Level(cfg, k)))
    && (forall j, k :: 1 <= j <= k <= n ==>
          Computed(cfg, draws, Level(cfg, j)) <= Computed(cfg, draws, Level(cfg, k)))
  }

  lemma GrowsForAllDraws(cfg: Config, draws: seq<nat>, n: nat)
    requires 1 <= n <= |draws| && Drawn(cfg, draws) && InRange(cfg, Level(cfg, n))
    requires cfg.minimum >= 0 || n == 1 || cfg.repeatTimes <= 1
    ensures Grows(cfg, draws, n)
  {
    forall k | 1 <= k <= n
      ensures Computed(cfg, draws, Level(cfg, k)) == Exact(cfg, draws, Level(cfg, k))
    {
      InRangeBelow(cfg, Level(cfg, k), Level(cfg, n));
      InRangeMeansExact(cfg, draws, Level(cfg, k));
    }
    forall j, k | 1 <= j <= k <= n
      ensures Exact(cfg, draws, Level(cfg, j)) <= Exact(cfg, draws, Level(cfg, k))
    {
      if cfg.minimum >= 0 { ExactGrows(cfg, draws, Level(cfg, j), Level(cfg, k)); }
    }
  }

  /** A negative minimum shrinks: draws of zero make the second delay twice the first. */
  lemma NegativeMinimumShrinks(cfg: Config, draws: seq<nat>, n: nat)
    requires 2 <= n <= |draws| && cfg.minimum < 0 && cfg.repeatTimes >= 2
    requires forall i :: 0 <= i < |draws| ==> draws[i] == 0
    ensures !Grows(cfg, draws, n)
  {
    assert Level(cfg, 1) == 1 && Level(cfg, 2) == 2;
    assert Exact(cfg, draws, Level(cfg, 2)) < Exact(cfg, draws, Level(cfg, 1));
  }

  lemma OverflowSpoils(cfg: Config, n: nat) returns (draws: seq<nat>)
    requires n >= 1 && !InRange(cfg, Level(cfg, n))
    ensures |draws| == n && Drawn(cfg, draws) && !Grows(cfg, draws, n)
  {
    var m := Level(cfg, n);
    if Upper(cfg, m) > MAX_INT64 {
      draws := seq(n, _ => cfg.randomRange);
      UpperIsReached(cfg, draws, m);
    } else {
      draws := seq(n, _ => 0);
      LowerIsReached(cfg, draws, m);
    }
    ComputedIsWrappedExact(cfg, draws, m);
    assert Computed(cfg, draws, Level(cfg, n)) != Exact(cfg, draws, Level(cfg, n));
  }

  /**
   For every configuration: whatever is drawn, the first n delays are exact and never decrease,
   if and only if the level of attempt n fits and the minimum is not negative, or nothing is
   ever doubled.
   */
  lemma DelaysGrowIff(cfg: Config, n: nat)
    requires n >= 1
    ensures (forall draws: seq<nat> :: |draws| == n && Drawn(cfg, draws) ==> Grows(cfg, draws, n))
        <==> InRange(cfg, Level(cfg, n)) && (cfg.minimum >= 0 || n == 1 || cfg.repeatTimes <= 1)
  {
    if !InRange(cfg, Level(cfg, n)) {
      var draws := OverflowSpoils(cfg, n);
    } else if cfg.minimum >= 0 || n == 1 || cfg.repeatTimes <= 1 {
      forall draws: seq<nat> | |draws| == n && Drawn(cfg, draws) ensures Grows(cfg, draws, n) {
        GrowsForAllDraws(cfg, draws, n);
      }
    } else {
      var draws := seq(n, _ => 0);
      NegativeMinimumShrinks(cfg, draws, n);
      assert Drawn(cfg, draws);
    }
  }

  /** Ten seconds, five levels, up to fifteen seconds more per level. */
  const DEFAULTS := Config(10_000_000_000, 15, 5)

  lemma DefaultBounds(m: nat)
    requires 1 <= m <= 5
    ensures 10_000_000_000 <= Lower(DEFAULTS, m) && Upper(DEFAULTS, m) <= 625_000_000_000
  {
    assert Pow2(0) == 1 && Pow2(1) == 2 && Pow2(2) == 4 && Pow2(3) == 8 && Pow2(4) == 16 && Pow2(5) == 32;
  }

  /** With the defaults nothing overflows, delays never decrease, and the longest is 625 seconds. */
  lemma DefaultDelays(draws: seq<nat>, n: nat)
    requires 1 <= n <= |draws| && Drawn(DEFAULTS, draws)
    ensures Grows(DEFAULTS, draws, n)
    ensures 10_000_000_000 <= Computed(DEFAULTS, draws, Level(DEFAULTS, n)) <= 625_000_000_000
    ensures n >= 5 ==> 160_000_000_000 <= Computed(DEFAULTS, draws, Level(DEFAULTS, n))
  {
    assert Pow2(1) == 2 && Pow2(2) == 4 && Pow2(3) == 8 && Pow2(4) == 16 && Pow2(5) == 32;
    assert Upper(DEFAULTS, 5) == 625_000_000_000 && Lower(DEFAULTS, 5) == 160_000_000_000;
    assert InRange(DEFAULTS, 5);
    InRangeBelow(DEFAULTS, Level(DEFAULTS, n), 5);
    GrowsForAllDraws(DEFAULTS, draws, n);
    DefaultBounds(Level(DEFAULTS, n));
    DelayBounds(DEFAULTS, draws, Level(DEFAULTS, n));
  }
}
