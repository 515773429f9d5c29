/**
 Retries of the HTTP transport (src/transport/http.ts, src/rate-limiter.ts) and of the worker's ack and nack
 requests on top of them (src/worker.ts). Delays are exact rationals; `random` is Math.random.
 */
module HttpRetry {
  import opened Prelude

  datatype RetryConfig = RetryConfig(
    maxRetries: int, minBackoffMs: real, maxBackoffMs: real, enabled: bool, retryServerErrors: bool)

  /** How one execution of the request ends; `retryAfter` is in seconds. */
  datatype Reply =
    | Success(status: nat)
    | RateLimited(retryAfter: Option<real>)
    | ServerError(status: nat)
    | OtherError(error: string)

  datatype Outcome = Settled(reply: Reply) | Aborted | NothingTried

  predicate IsRetryableStatus(status: nat, config: RetryConfig) {
    status == 429 || (config.retryServerErrors && (status == 502 || status == 503 || status == 504))
  }

  predicate IsRetried(config: RetryConfig, reply: Reply) {
    config.enabled && (reply.RateLimited? || (reply.ServerError? && IsRetryableStatus(reply.status, config)))
  }

  function MinReal(a: real, b: real): real {
    if a <= b then a else b
  }

  function Jittered(backoff: real, random: real): real {
    backoff * (0.5 + random * 0.5)
  }

  function ComputeRetryDelay(attempt: nat, config: RetryConfig, retryAfterMs: Option<real>, random: real): real {
    if retryAfterMs.Some? then MinReal(retryAfterMs.value, config.maxBackoffMs)
    else Jittered(MinReal(config.minBackoffMs * Pow2(attempt) as real, config.maxBackoffMs), random)
  }

  function Delay(config: RetryConfig, attempt: nat, reply: Reply, random: real): real {
    var retryAfterMs :=
      if reply.RateLimited? && reply.retryAfter.Some? then Some(reply.retryAfter.value * 1000.0) else None;
    ComputeRetryDelay(attempt, config, retryAfterMs, random)
  }

  ghost predicate Sensible(config: RetryConfig, random: nat -> real) {
    config.minBackoffMs >= 0.0 && config.maxBackoffMs >= 0.0 && forall k: nat :: 0.0 <= random(k) < 1.0
  }

  function Sum(xs: seq<real>): real {
    if xs == [] then 0.0 else Sum(Front(xs)) + Last(xs)
  }

  ghost predicate AreDelays(config: RetryConfig, replies: nat -> Reply, random: nat -> real, sleeps: seq<real>) {
    forall k | 0 <= k < |sleeps| :: sleeps[k] == Delay(config, k, replies(k), random(k))
  }

  // ---- How long a request can sleep ----

  lemma {:induction false} Shrinks(x: real, random: real)
    requires x >= 0.0 && 0.0 <= random < 1.0
    ensures 0.0 <= x * 0.5 <= Jittered(x, random) <= x
  {
    var jitter := 0.5 + random * 0.5;
    Product(x, jitter - 0.5);
    Product(x, 1.0 - jitter);
    assert x * (jitter - 0.5) == x * jitter - x * 0.5;
    assert x * (1.0 - jitter) == x - x * jitter;
  }

  lemma {:induction false} Product(x: real, y: real)
    requires x >= 0.0 && y >= 0.0
    ensures x * y >= 0.0
  {
  }

  lemma {:induction false} NonNegative(x: real, n: nat)
    requires x >= 0.0
    ensures x * n as real >= 0.0
  {
  }

  /** The doubling backoff before jitter. */
  function Doubling(config: RetryConfig, k: nat): real {
    MinReal(config.minBackoffMs * Pow2(k) as real, config.maxBackoffMs)
  }

  /** A delay is never above the cap. Without Retry-After it is the doubling backoff times a factor from a half up
      to 1, and with Retry-After it is that time, clamped. */
  lemma {:induction false} DelayBound(config: RetryConfig, random: nat -> real, k: nat, reply: Reply)
    requires Sensible(config, random)
    ensures Delay(config, k, reply, random(k)) <= config.maxBackoffMs
    ensures (reply.RateLimited? ==> reply.retryAfter.None?) ==>
              Doubling(config, k) * 0.5 <= Delay(config, k, reply, random(k)) <= Doubling(config, k)
    ensures reply.RateLimited? && reply.retryAfter.Some? ==>
              var asked := reply.retryAfter.value * 1000.0;
              Delay(config, k, reply, random(k)) == if asked <= config.maxBackoffMs then asked else config.maxBackoffMs
    ensures (reply.RateLimited? ==> reply.retryAfter.None?) ==>
              var base := config.minBackoffMs * Pow2(k) as real;
              Delay(config, k, reply, random(k))
              == (if base <= config.maxBackoffMs then base else config.maxBackoffMs) * (0.5 + random(k) * 0.5)
  {
    NonNegative(config.minBackoffMs, Pow2(k));
    Shrinks(MinReal(config.minBackoffMs * Pow2(k) as real, config.maxBackoffMs), random(k));
  }

  lemma {:induction false} OneMore(sum: real, delay: real, x: real, n: nat)
    requires sum <= n as real * x && delay <= x
    ensures sum + delay <= (n + 1) as real * x
  {
    assert (n as real + 1.0) * x == n as real * x + x;
  }

  lemma {:induction false} SumBelow(xs: seq<real>, bound: real)
    requires forall i | 0 <= i < |xs| :: xs[i] <= bound
    ensures Sum(xs) <= |xs| as real * bound
  {
    if xs != [] {
      SumBelow(Front(xs), bound);
      OneMore(Sum(Front(xs)), Last(xs), bound, |xs| - 1);
    }
  }

  /** x taken n times. */
  function Times(x: real, n: nat): real {
    if n == 0 then 0.0 else Times(x, n - 1) + x
  }

  lemma {:induction false} TimesIsProduct(x: real, n: nat)
    ensures Times(x, n) == x * n as real
  {
    if n > 0 {
      TimesIsProduct(x, n - 1);
      assert x * ((n - 1) as real + 1.0) == x * (n - 1) as real + x;
    }
  }

  lemma {:induction false} TimesSum(x: real, m: nat, n: nat)
    ensures Times(x, m + n) == Times(x, m) + Times(x, n)
  {
    if n > 0 {
      TimesSum(x, m, n - 1);
    }
  }

  lemma {:induction false} TimesMonotone(x: real, m: nat, n: nat)
    requires x >= 0.0 && m <= n
    ensures Times(x, m) <= Times(x, n)
  {
    if m < n {
      TimesMonotone(x, m, n - 1);
    }
  }

  /** Element i is at most 2^i times x. */
  predicate BelowDoubling(xs: seq<real>, x: real) {
    xs == [] || (Last(xs) <= Times(x, Pow2(|xs| - 1)) && BelowDoubling(Front(xs), x))
  }

  lemma {:induction false} SumBelowDoubling(xs: seq<real>, x: real)
    requires BelowDoubling(xs, x)
    ensures Sum(xs) <= Times(x, Pow2(|xs|) - 1)
  {
    if xs != [] {
      var n := |xs| - 1;
      SumBelowDoubling(Front(xs), x);
      TimesSum(x, Pow2(n) - 1, Pow2(n));
    }
  }

  lemma {:induction false} Pow2Monotone(m: nat, n: nat)
    requires m <= n
    ensures Pow2(m) <= Pow2(n)
  {
    if m < n {
      Pow2Monotone(m, n - 1);
    }
  }

  ghost predicate NoRetryAfter(replies: nat -> Reply) {
    forall k: nat :: replies(k).RateLimited? ==> replies(k).retryAfter.None?
  }

  lemma {:induction false} AtMostScaled(sum: real, x: real, m: nat, n: nat)
    requires x >= 0.0 && m <= n
    ensures sum <= m as real * x ==> sum <= n as real * x
    ensures sum <= x * m as real ==> sum <= x * n as real
  {
    var a, d := m as real, (n - m) as real;
    NonNegative(x, n - m);
    assert x * (a + d) == x * a + x * d;
    assert n as real == a + d;
  }

  /** Whatever the server answers, the sleeps of a request sum to at most maxRetries times the longest backoff. */
  lemma {:induction false} SleepBudget(
    config: RetryConfig, replies: nat -> Reply, random: nat -> real, sleeps: seq<real>)
    requires Sensible(config, random) && AreDelays(config, replies, random, sleeps) && |sleeps| <= config.maxRetries
    ensures Sum(sleeps) <= config.maxRetries as real * config.maxBackoffMs
  {
    forall k | 0 <= k < |sleeps|
      ensures sleeps[k] <= config.maxBackoffMs
    {
      DelayBound(config, random, k, replies(k));
    }
    SumBelow(sleeps, config.maxBackoffMs);
    AtMostScaled(Sum(sleeps), config.maxBackoffMs, |sleeps|, config.maxRetries);
  }

  lemma {:induction false} DelayBelowDoubling(config: RetryConfig, replies: nat -> Reply, random: nat -> real, k: nat)
    requires Sensible(config, random) && NoRetryAfter(replies)
    ensures Delay(config, k, replies(k), random(k)) <= Times(config.minBackoffMs, Pow2(k))
  {
    DelayBound(config, random, k, replies(k));
    TimesIsProduct(config.minBackoffMs, Pow2(k));
  }

  lemma {:induction false} DelaysBelowDoubling(
    config: RetryConfig, replies: nat -> Reply, random: nat -> real, sleeps: seq<real>)
    requires Sensible(config, random) && AreDelays(config, replies, random, sleeps) && NoRetryAfter(replies)
    ensures BelowDoubling(sleeps, config.minBackoffMs)
  {
    if sleeps != [] {
      DelaysBelowDoubling(config, replies, random, Front(sleeps));
      DelayBelowDoubling(config, replies, random, |sleeps| - 1);
    }
  }

  lemma {:induction false} DoublingBudget(xs: seq<real>, x: real, n: nat)
    requires x >= 0.0 && |xs| <= n && BelowDoubling(xs, x)
    ensures Sum(xs) <= Times(x, Pow2(n) - 1)
  {
    SumBelowDoubling(xs, x);
    Pow2Monotone(|xs|, n);
    TimesMonotone(x, Pow2(|xs|) - 1, Pow2(n) - 1);
  }

  /** And without Retry-After to at most 2^maxRetries - 1 times minBackoffMs. */
  lemma {:induction false} SleepBudgetWithoutRetryAfter(
    config: RetryConfig, replies: nat -> Reply, random: nat -> real, sleeps: seq<real>)
    requires Sensible(config, random) && AreDelays(config, replies, random, sleeps) && |sleeps| <= config.maxRetries
    requires NoRetryAfter(replies)
    ensures Sum(sleeps) <= Times(config.minBackoffMs, Pow2(config.maxRetries) - 1)
  {
    DelaysBelowDoubling(config, replies, random, sleeps);
    DoublingBudget(sleeps, config.minBackoffMs, config.maxRetries);
  }

  lemma {:induction false} SleepBudgets(
    config: RetryConfig, replies: nat -> Reply, random: nat -> real, sleeps: seq<real>)
    requires AreDelays(config, replies, random, sleeps) && |sleeps| <= config.maxRetries
    ensures Sensible(config, random) ==> Sum(sleeps) <= config.maxRetries as real * config.maxBackoffMs
    ensures Sensible(config, random) && NoRetryAfter(replies) ==>
              Sum(sleeps) <= Times(config.minBackoffMs, Pow2(config.maxRetries) - 1)
  {
    if Sensible(config, random) {
      SleepBudget(config, replies, random, sleeps);
      if NoRetryAfter(replies) {
        SleepBudgetWithoutRetryAfter(config, replies, random, sleeps);
      }
    }
  }

  // ---- The request loop ----

  /** A request goes on from attempt k exactly when retries are enabled and left, and the server limits the rate,
      or answers 502, 503 or 504 while those are retried, or 429 in another error. */
  ghost predicate GoesOn(config: RetryConfig, k: int, reply: Reply) {
    && config.enabled && k < config.maxRetries
    && match reply
       case RateLimited(_) => true
       case ServerError(status) => status == 429 || (config.retryServerErrors && status in {502, 503, 504})
       case _ => false
  }

  /** The request loop. `sleeps` lists the delays asked for; `cut` says whether the caller's signal aborts the
      k-th of them. */
  method Request(config: RetryConfig, replies: nat -> Reply, random: nat -> real, cut: nat -> bool)
    returns (r: Outcome, attempts: nat, sleeps: seq<real>)
    ensures attempts <= Max(0, config.maxRetries + 1) && (attempts == 0 <==> config.maxRetries < 0)
    ensures r.NothingTried? <==> attempts == 0
    ensures forall k | 0 <= k < attempts - 1 :: IsRetried(config, replies(k)) && !cut(k)
    ensures r.Settled? ==>
              r.reply == replies(attempts - 1) && (IsRetried(config, r.reply) ==> attempts == config.maxRetries + 1)
    ensures r.Aborted? ==>
              attempts <= config.maxRetries && IsRetried(config, replies(attempts - 1)) && cut(attempts - 1)
    ensures forall k | 0 <= k < attempts :: GoesOn(config, k, replies(k)) <==> (k < attempts - 1 || r.Aborted?)
    ensures !config.enabled && config.maxRetries >= 0 ==> r == Settled(replies(0)) && attempts == 1
    ensures forall k | 0 <= k < attempts - 1 ::
              !(replies(k).Success? || replies(k).OtherError? || replies(k) == ServerError(500))
    ensures |sleeps| == if r.Aborted? then attempts else Max(0, attempts - 1)
    ensures AreDelays(config, replies, random, sleeps)
    ensures Sensible(config, random) && attempts > 0 ==>
              Sum(sleeps) <= config.maxRetries as real * config.maxBackoffMs
    ensures Sensible(config, random) && attempts > 0 && NoRetryAfter(replies) ==>
              Sum(sleeps) <= Times(config.minBackoffMs, Pow2(config.maxRetries) - 1)
  {
    attempts, sleeps := 0, [];
    while attempts <= config.maxRetries
      invariant 0 <= attempts <= Max(0, config.maxRetries + 1) && attempts == |sleeps|
      invariant attempts > 0 ==> attempts <= config.maxRetries
      invariant forall k | 0 <= k < attempts :: IsRetried(config, replies(k)) && !cut(k)
      invariant AreDelays(config, replies, random, sleeps)
      decreases config.maxRetries - attempts
    {
      var attempt, reply := attempts, replies(attempts);
      attempts := attempts + 1;
      var isRateLimit := reply.RateLimited?;
      var isServerError := reply.ServerError? && IsRetryableStatus(reply.status, config);
      if (!isRateLimit && !isServerError) || !config.enabled || attempt >= config.maxRetries {
        SleepBudgets(config, replies, random, sleeps);
        return Settled(reply), attempts, sleeps;
      }
      var retryAfterMs := if isRateLimit && reply.retryAfter.Some? then Some(reply.retryAfter.value * 1000.0) else None;
      sleeps := sleeps + [ComputeRetryDelay(attempt, config, retryAfterMs, random(attempt))];
      if cut(attempt) {
        SleepBudgets(config, replies, random, sleeps);
        return Aborted, attempts, sleeps;
      }
    }
    r := NothingTried;
  }

  // ---- Settling a job ----

  const ACK_NACK_MAX_RETRIES := 3

  /** How a request that nobody aborts ends, from attempt k on: with the first reply that is not retried. */
  function FinalReply(config: RetryConfig, replies: nat -> Reply, k: nat): Reply
    decreases config.maxRetries - k
  {
    if k < config.maxRetries && IsRetried(config, replies(k)) then FinalReply(config, replies, k + 1) else replies(k)
  }

  lemma {:induction false} FinalReplyAt(config: RetryConfig, replies: nat -> Reply, k: nat, last: nat)
    requires k <= last <= config.maxRetries && forall i | k <= i < last :: IsRetried(config, replies(i))
    requires IsRetried(config, replies(last)) ==> last == config.maxRetries
    ensures FinalReply(config, replies, k) == replies(last)
    decreases last - k
  {
    if k < last {
      FinalReplyAt(config, replies, k + 1, last);
    }
  }

  /** Where a request that nobody aborts ends, told by statuses. */
  lemma {:induction false} EndsWith(config: RetryConfig, replies: nat -> Reply, last: nat)
    requires config.maxRetries >= 0 && !GoesOn(config, last, replies(last))
    requires forall k | 0 <= k < last :: GoesOn(config, k, replies(k))
    ensures FinalReply(config, replies, 0) == replies(last)
  {
    assert last > 0 ==> GoesOn(config, last - 1, replies(last - 1));
    FinalReplyAt(config, replies, 0, last);
  }

  /** Whether try j of a request succeeds; reply k of try j is replies(j, k). */
  predicate Succeeds(config: RetryConfig, replies: (nat, nat) -> Reply, j: nat) {
    FinalReply(config, (k: nat) => replies(j, k), 0).Success?
  }

  /** The first of the three tries from j on that succeeds, or 3. */
  function FirstSuccess(config: RetryConfig, replies: (nat, nat) -> Reply, j: nat): (n: nat)
    ensures n <= Max(j, ACK_NACK_MAX_RETRIES) && n >= j
    ensures n < ACK_NACK_MAX_RETRIES ==> Succeeds(config, replies, n)
    ensures forall i | j <= i < n && i < ACK_NACK_MAX_RETRIES :: !Succeeds(config, replies, i)
    decreases ACK_NACK_MAX_RETRIES - j
  {
    if j >= ACK_NACK_MAX_RETRIES || Succeeds(config, replies, j) then j else FirstSuccess(config, replies, j + 1)
  }

  function Tries(config: RetryConfig, replies: (nat, nat) -> Reply): nat {
    Min(FirstSuccess(config, replies, 0) + 1, ACK_NACK_MAX_RETRIES)
  }

  /** `requestWithRetry`: try a request up to three times. It ends with the first try that succeeds, and fails
      when none does. */
  method RequestWithRetry(config: RetryConfig, replies: (nat, nat) -> Reply, random: nat -> real)
    returns (ok: bool, tries: nat, http: nat, waits: seq<nat>)
    requires config.maxRetries >= 0
    ensures ok <==> FirstSuccess(config, replies, 0) < ACK_NACK_MAX_RETRIES
    ensures tries == Tries(config, replies)
    ensures 1 <= tries <= 3 && (!ok ==> tries == 3) && (ok ==> Succeeds(config, replies, tries - 1))
    ensures forall j | 0 <= j < tries - 1 || (!ok && j == tries - 1) :: !Succeeds(config, replies, j)
    ensures tries <= http <= tries * (config.maxRetries + 1)
    ensures waits == seq(tries - 1, i => (i + 1) * 500)
  {
    ok, tries, http, waits := false, 0, 0, [];
    while tries < ACK_NACK_MAX_RETRIES
      invariant 0 <= tries <= ACK_NACK_MAX_RETRIES && !ok
      invariant FirstSuccess(config, replies, 0) == FirstSuccess(config, replies, tries)
      invariant tries <= http <= tries * (config.maxRetries + 1)
      invariant waits == seq(if tries < ACK_NACK_MAX_RETRIES then tries else tries - 1, i => (i + 1) * 500)
      decreases ACK_NACK_MAX_RETRIES - tries
    {
      var attempt := tries;
      var r, attempts, sleeps := Request(config, (k: nat) => replies(attempt, k), random, (k: nat) => false);
      FinalReplyAt(config, (k: nat) => replies(attempt, k), 0, attempts - 1);
      tries, http := tries + 1, http + attempts;
      assert tries * (config.maxRetries + 1) == attempt * (config.maxRetries + 1) + (config.maxRetries + 1);
      if r.Settled? && r.reply.Success? {
        return true, tries, http, waits;
      }
      if attempt < ACK_NACK_MAX_RETRIES - 1 {
        waits := waits + [(attempt + 1) * 500];
      }
    }
  }

  datatype Settlement = Acked | Nacked | GivenUp

  /** A job whose handler returned is acked, and nacked when no ack succeeds; a job whose handler threw is
      nacked. Its settlement costs at most 6 * (maxRetries + 1) HTTP attempts. */
  method SettleJob(
    config: RetryConfig, returned: bool, acks: (nat, nat) -> Reply, nacks: (nat, nat) -> Reply, random: nat -> real)
    returns (s: Settlement, acksTried: nat, nacksTried: nat, http: nat)
    requires config.maxRetries >= 0
    ensures s == Acked <==> returned && FirstSuccess(config, acks, 0) < ACK_NACK_MAX_RETRIES
    ensures s == Nacked <==> s != Acked && FirstSuccess(config, nacks, 0) < ACK_NACK_MAX_RETRIES
    ensures acksTried == if returned then Tries(config, acks) else 0
    ensures nacksTried == if s == Acked then 0 else Tries(config, nacks)
    ensures (returned && s != Acked ==> acksTried == 3) && (s == GivenUp ==> nacksTried == 3)
    ensures http <= (acksTried + nacksTried) * (config.maxRetries + 1) <= 6 * (config.maxRetries + 1)
  {
    acksTried, nacksTried, http := 0, 0, 0;
    var ok, n, waits;
    if returned {
      ok, acksTried, http, waits := RequestWithRetry(config, acks, random);
      AtMostThree(acksTried, 0, config.maxRetries + 1);
      if ok {
        return Acked, acksTried, 0, http;
      }
    }
    ok, nacksTried, n, waits := RequestWithRetry(config, nacks, random);
    AtMostThree(acksTried, nacksTried, config.maxRetries + 1);
    http := http + n;
    s := if ok then Nacked else GivenUp;
  }

  lemma {:induction false} AtMostThree(a: nat, b: nat, x: nat)
    requires a <= 3 && b <= 3
    ensures (a + b) * x == a * x + b * x && (a + b) * x <= 6 * x
  {
  }
}
