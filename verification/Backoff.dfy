/**
 Backoff of the retry policy (src/retry.ts), in exact arithmetic: intervals are parsed milliseconds. Powers with
 natural exponents are computed; `power` is Math.pow for the polynomial strategy, whose exponent may be any
 number.
 */
module Backoff {
  import opened Prelude

  datatype Strategy = Constant | Linear | Exponential | Polynomial

  datatype Policy = Policy(initialMs: real, maxMs: real, coefficient: real, jitter: bool, nonRetryable: seq<string>)

  function Pow(x: real, n: nat): real {
    if n == 0 then 1.0 else x * Pow(x, n - 1)
  }

  type Power = (real, real) -> real

  predicate Valid(p: Policy) {
    p.initialMs >= 0.0 && p.maxMs >= 0.0
  }

  function RawDelay(retry: nat, p: Policy, strategy: Strategy, power: Power): real
    requires retry >= 1
  {
    match strategy
    case Constant => p.initialMs
    case Linear => p.initialMs * retry as real
    case Exponential => p.initialMs * Pow(p.coefficient, retry - 1)
    case Polynomial => p.initialMs * power(retry as real, p.coefficient)
  }

  function Cap(x: real, max: real): real {
    if x <= max then x else max
  }

  function Effective(retry: nat, p: Policy, strategy: Strategy, power: Power): real
    requires retry >= 1
  {
    Cap(RawDelay(retry, p, strategy, power), p.maxMs)
  }

  /** The factor of the strategy is not negative. */
  predicate Positive(retry: nat, p: Policy, strategy: Strategy, power: Power) {
    && (strategy == Exponential ==> p.coefficient >= 0.0)
    && (strategy == Polynomial ==> power(retry as real, p.coefficient) >= 0.0)
  }

  method ComputeBackoff(retry: nat, p: Policy, strategy: Strategy, power: Power, random: real)
    returns (delay: real)
    requires retry >= 1 && Valid(p) && 0.0 <= random < 1.0
    ensures !p.jitter ==> delay == Effective(retry, p, strategy, power)
    ensures var e := Effective(retry, p, strategy, power);
            p.jitter ==> if e >= 0.0 then e * 0.5 <= delay <= Cap(e * 1.5, p.maxMs) else delay == 0.0
    ensures var x := Effective(retry, p, strategy, power) * (0.5 + random);
            p.jitter && x >= 0.0 ==> delay == if x <= p.maxMs then x else p.maxMs
    ensures delay <= p.maxMs && (p.jitter || Positive(retry, p, strategy, power) ==> delay >= 0.0)
  {
    var rawDelay: real;
    match strategy {
      case Constant => rawDelay := p.initialMs;
      case Linear => rawDelay := p.initialMs * retry as real;
      case Exponential => rawDelay := p.initialMs * Pow(p.coefficient, retry - 1);
      case Polynomial => rawDelay := p.initialMs * power(retry as real, p.coefficient);
    }
    var effective := Cap(rawDelay, p.maxMs);
    assert effective == Effective(retry, p, strategy, power);
    if Positive(retry, p, strategy, power) {
      RawNonNegative(retry, p, strategy, power);
    }
    if p.jitter {
      var jittered := effective * (0.5 + random);
      Jittered(effective, random);
      return Cap(if jittered >= 0.0 then jittered else 0.0, p.maxMs);
    }
    delay := effective;
  }

  lemma {:induction false} Product(x: real, y: real)
    requires x >= 0.0 && y >= 0.0
    ensures x * y >= 0.0
  {
  }

  lemma {:induction false} Stretch(x: real, random: real)
    requires x >= 0.0 && 0.0 <= random < 1.0
    ensures x * 0.5 <= x * (0.5 + random) <= x * 1.5
  {
    Product(x, random);
    Product(x, 1.0 - random);
    assert x * (0.5 + random) == x * 0.5 + x * random;
    assert x * (1.0 - random) == x - x * random;
  }

  lemma {:induction false} Jittered(x: real, random: real)
    requires 0.0 <= random < 1.0
    ensures x >= 0.0 ==> x * 0.5 <= x * (0.5 + random) <= x * 1.5
    ensures x < 0.0 ==> x * (0.5 + random) < 0.0
  {
    if x >= 0.0 {
      Stretch(x, random);
    } else {
      Stretch(-x, random);
      assert x * (0.5 + random) == -(-x * (0.5 + random));
    }
  }

  lemma {:induction false} Scale(x: real, y: real, z: real)
    requires x >= 0.0 && y <= z
    ensures x * y <= x * z
  {
    Product(x, z - y);
    assert x * (z - y) == x * z - x * y;
  }

  lemma {:induction false} PowAtLeastOne(x: real, n: nat)
    requires x >= 1.0
    ensures Pow(x, n) >= 1.0 && Pow(x, n) <= Pow(x, n + 1)
  {
    if n > 0 {
      PowAtLeastOne(x, n - 1);
    }
    Scale(Pow(x, n), 1.0, x);
  }

  lemma {:induction false} PowMonotone(x: real, y: real, n: nat)
    requires 1.0 <= x <= y
    ensures Pow(x, n) <= Pow(y, n)
  {
    if n > 0 {
      PowMonotone(x, y, n - 1);
      PowAtLeastOne(x, n - 1);
      PowAtLeastOne(y, n - 1);
      var a, b := Pow(x, n - 1), Pow(y, n - 1);
      Scale(x, a, b);
      Scale(b, x, y);
      assert Pow(x, n) == x * a <= x * b;
      assert x * b == b * x && y * b == b * y;
      assert b * x <= b * y == Pow(y, n);
    }
  }

  lemma {:induction false} PowNonNegative(x: real, n: nat)
    requires x >= 0.0
    ensures Pow(x, n) >= 0.0
  {
    if n > 0 {
      PowNonNegative(x, n - 1);
      Product(x, Pow(x, n - 1));
    }
  }

  lemma {:induction false} RawNonNegative(retry: nat, p: Policy, strategy: Strategy, power: Power)
    requires retry >= 1 && Valid(p) && Positive(retry, p, strategy, power)
    ensures RawDelay(retry, p, strategy, power) >= 0.0
  {
    match strategy
    case Constant =>
    case Linear => Product(p.initialMs, retry as real);
    case Exponential =>
      PowNonNegative(p.coefficient, retry - 1);
      Product(p.initialMs, Pow(p.coefficient, retry - 1));
    case Polynomial => Product(p.initialMs, power(retry as real, p.coefficient));
  }

  ghost predicate Grows(power: Power, exponent: real) {
    forall x, y | 1.0 <= x <= y :: power(x, exponent) <= power(y, exponent)
  }

  /** The factor of the strategy does not shrink with the retry number. */
  ghost predicate Growing(p: Policy, strategy: Strategy, power: Power) {
    (strategy == Exponential ==> p.coefficient >= 1.0) && (strategy == Polynomial ==> Grows(power, p.coefficient))
  }

  lemma {:induction false} NaturalPowersGrow(power: Power, exponent: real, n: nat)
    requires exponent == n as real && forall x | x >= 1.0 :: power(x, exponent) == Pow(x, n)
    ensures Grows(power, exponent)
  {
    forall x, y | 1.0 <= x <= y
      ensures power(x, exponent) <= power(y, exponent)
    {
      PowMonotone(x, y, n);
    }
  }

  lemma {:induction false} RawStep(retry: nat, p: Policy, strategy: Strategy, power: Power)
    requires retry >= 1 && Valid(p) && Growing(p, strategy, power)
    ensures RawDelay(retry, p, strategy, power) <= RawDelay(retry + 1, p, strategy, power)
  {
    match strategy
    case Constant =>
    case Linear => Scale(p.initialMs, retry as real, (retry + 1) as real);
    case Exponential =>
      PowAtLeastOne(p.coefficient, retry - 1);
      Scale(p.initialMs, Pow(p.coefficient, retry - 1), Pow(p.coefficient, retry));
    case Polynomial =>
      Scale(p.initialMs, power(retry as real, p.coefficient), power((retry + 1) as real, p.coefficient));
  }

  /** Without jitter the delay never shrinks with the retry number, never exceeds the cap, and stays at the cap
      once there. */
  lemma {:induction false} BackoffIsMonotone(a: nat, b: nat, p: Policy, strategy: Strategy, power: Power)
    requires 1 <= a <= b && Valid(p) && Growing(p, strategy, power)
    ensures Effective(a, p, strategy, power) <= Effective(b, p, strategy, power) <= p.maxMs
    ensures Effective(a, p, strategy, power) == p.maxMs ==> Effective(b, p, strategy, power) == p.maxMs
  {
    if a < b {
      BackoffIsMonotone(a, b - 1, p, strategy, power);
      RawStep(b - 1, p, strategy, power);
    }
  }

  /** How the delays of each strategy follow one another: they stay the same, are multiples of the first, grow by
      the coefficient as a factor, or are powers of the retry number; and the cap is all that changes them. */
  lemma {:induction false} SuccessiveDelays(retry: nat, p: Policy, power: Power)
    requires retry >= 1
    ensures RawDelay(retry, p, Constant, power) == p.initialMs
    ensures RawDelay(1, p, Linear, power) == p.initialMs == RawDelay(1, p, Exponential, power)
    ensures RawDelay(retry + 1, p, Linear, power) - RawDelay(retry, p, Linear, power) == p.initialMs
    ensures RawDelay(retry + 1, p, Exponential, power) == RawDelay(retry, p, Exponential, power) * p.coefficient
    ensures RawDelay(retry, p, Polynomial, power) == p.initialMs * power(retry as real, p.coefficient)
    ensures forall strategy ::
              Effective(retry, p, strategy, power)
              == if RawDelay(retry, p, strategy, power) <= p.maxMs then RawDelay(retry, p, strategy, power) else p.maxMs
  {
  }

  lemma PowOne(x: real)
    ensures Pow(x, 0) == 1.0 && Pow(x, 1) == x
  {
    assert Pow(x, 1) == x * Pow(x, 0);
  }

  lemma StrictScale(x: real, y: real, z: real)
    requires x > 0.0 && y < z
    ensures x * y < x * z
  {
    assert x * (z - y) == x * z - x * y && x * (z - y) > 0.0;
  }

  lemma {:induction false} RawShrinks(retry: nat, p: Policy, power: Power)
    requires retry >= 1 && p.initialMs > 0.0
    requires Pow(p.coefficient, retry) < Pow(p.coefficient, retry - 1)
    ensures RawDelay(retry + 1, p, Exponential, power) < RawDelay(retry, p, Exponential, power)
  {
    StrictScale(p.initialMs, Pow(p.coefficient, retry), Pow(p.coefficient, retry - 1));
  }

  /** If the first delay is not capped, the exponential strategy never shrinks exactly for coefficients of at
      least 1. */
  lemma {:induction false} ExponentialMonotoneIff(p: Policy, power: Power)
    requires Valid(p) && 0.0 < p.initialMs <= p.maxMs
    ensures (forall a, b | 1 <= a <= b :: Effective(a, p, Exponential, power) <= Effective(b, p, Exponential, power))
       <==> p.coefficient >= 1.0
  {
    if p.coefficient >= 1.0 {
      forall a, b | 1 <= a <= b
        ensures Effective(a, p, Exponential, power) <= Effective(b, p, Exponential, power)
      {
        BackoffIsMonotone(a, b, p, Exponential, power);
      }
    } else {
      PowOne(p.coefficient);
      RawShrinks(1, p, power);
      assert Effective(2, p, Exponential, power) < Effective(1, p, Exponential, power);
    }
  }

  // ---- Errors that are not retried ----

  /** An entry ending in ".*" covers every type with the prefix up to and including the dot. */
  predicate Covers(entry: string, errorType: string) {
    if |entry| >= 2 && entry[|entry| - 2..] == ".*"
    then |entry| - 1 <= |errorType| && errorType[..|entry| - 1] == entry[..|entry| - 1]
    else errorType == entry
  }

  /** An entry "a.*" covers exactly the types "a." and more, so not "ab"; any other entry covers itself only. */
  lemma {:induction false} CoversExactly(stem: string, entry: string, errorType: string)
    ensures Covers(stem + ".*", errorType) <==> exists rest: string :: errorType == stem + "." + rest
    ensures (forall s: string :: entry != s + ".*") ==> (Covers(entry, errorType) <==> errorType == entry)
    ensures !Covers("a.*", "ab") && !Covers("a.*", "a") && Covers("a.*", "a.") && Covers("a.*", "a.b")
  {
    var e := stem + ".*";
    assert e[|e| - 2..] == ".*" && e[..|e| - 1] == stem + ".";
    if Covers(e, errorType) {
      assert errorType == stem + "." + errorType[|stem| + 1..];
    }
    forall rest: string | errorType == stem + "." + rest
      ensures Covers(e, errorType)
    {
      assert errorType[..|stem| + 1] == stem + ".";
    }
    if |entry| >= 2 && entry[|entry| - 2..] == ".*" {
      assert entry == entry[..|entry| - 2] + ".*";
    }
    assert "a.*"[1..] == ".*" && "a.*"[..2] == "a." && "ab"[..2] == "ab" && "a."[..2] == "a." && "a.b"[..2] == "a.";
    assert "ab"[1] != "a."[1];
  }

  method IsNonRetryable(errorType: string, entries: seq<string>) returns (r: bool)
    ensures r <==> exists entry <- entries :: Covers(entry, errorType)
  {
    for i := 0 to |entries|
      invariant forall j | 0 <= j < i :: !Covers(entries[j], errorType)
    {
      var entry := entries[i];
      assert entry in entries;
      if |entry| >= 2 && entry[|entry| - 2..] == ".*" {
        var prefix := entry[..|entry| - 1];
        if |prefix| <= |errorType| && errorType[..|prefix|] == prefix {
          assert Covers(entry, errorType);
          return true;
        }
      } else if errorType == entry {
        return true;
      }
    }
    r := false;
  }
}
