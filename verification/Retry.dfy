/** `with_retry`: exponential backoff with full jitter, bounded by attempts and by wall clock. */
module Retry {
  import opened Prelude

  // Durations are counted in nanoseconds, as `std::time::Duration` does.
  const MILLI: nat := 1_000_000
  const DURATION_MAX: nat := 18_446_744_073_709_551_615 * 1_000_000_000 + 999_999_999

  // ----- Which errors are transient -----

  datatype RpcError =
    | RpcRequestError
    | ForUser
    | RpcResponseError(code: int, message: string, preflightFailure: bool)
    | ParseError

  datatype ClientError =
    | Io
    | Reqwest(timeout: bool, connect: bool, body: bool, decode: bool)
    | Middleware
    | Rpc(rpc: RpcError)
    | SerdeJson
    | SigningError
    | TransactionError
    | Custom

  function LowerChar(c: char): char {
    if 'A' <= c <= 'Z' then c + 32 as char else c
  }

  function ToLower(s: string): string {
    seq(|s|, i requires 0 <= i < |s| => LowerChar(s[i]))
  }

  predicate MatchesAt(s: string, pattern: string, i: nat) {
    i + |pattern| <= |s| && s[i..i + |pattern|] == pattern
  }

  predicate Contains(s: string, pattern: string) {
    exists i | 0 <= i <= |s| :: MatchesAt(s, pattern, i)
  }

  function ClassifyRpcError(rpc: RpcError): Option<string> {
    match rpc
    case RpcRequestError => Some("rpc-transport")
    case ForUser => Some("rpc-transport")
    case RpcResponseError(code, message, preflightFailure) =>
      if code == -32602 || preflightFailure then
        None
      else
        var lower := ToLower(message);
        if || Contains(lower, "rate limit")
           || Contains(lower, "too many requests")
           || Contains(lower, "server error")
           || Contains(lower, "temporarily unavailable")
           || Contains(lower, "gateway")
           || Contains(lower, "timeout")
        then Some("rpc-transient-response") else None
    case ParseError => Some("rpc-parse")
  }

  function RetryableReason(err: ClientError): Option<string> {
    match err
    case Io => Some("io")
    case Reqwest(timeout, connect, body, decode) =>
      if timeout || connect || body || decode then Some("reqwest-transport") else None
    case Middleware => Some("middleware")
    case Rpc(rpc) => ClassifyRpcError(rpc)
    case SerdeJson => Some("json-decode")
    case SigningError => None
    case TransactionError => None
    case Custom => None
  }

  predicate Transient<T>(r: Result<T, ClientError>) {
    r.Err? && RetryableReason(r.error).Some?
  }

  // ----- Policy -----

  datatype RetryPolicy = RetryPolicy(maxAttempts: nat, initialBackoff: nat, totalBudget: nat)

  /** The environment values, already parsed (None: unset or not a number). */
  function FromEnv(attempts: Option<U64>, backoffMs: Option<U64>, budgetMs: Option<U64>): (p: RetryPolicy)
    ensures 1 <= p.maxAttempts <= 10
    ensures 10 * MILLI <= p.initialBackoff <= 5_000 * MILLI
    ensures 100 * MILLI <= p.totalBudget <= 30_000 * MILLI
    ensures attempts == backoffMs == budgetMs == None ==> p == RetryPolicy(3, 120 * MILLI, 6_000 * MILLI)
  {
    RetryPolicy(
      Clamp(if attempts.Some? then attempts.value else 3, 1, 10),
      Clamp(if backoffMs.Some? then backoffMs.value else 120, 10, 5_000) * MILLI,
      Clamp(if budgetMs.Some? then budgetMs.value else 6_000, 100, 30_000) * MILLI)
  }

  // ----- The environment of one `with_retry` call -----

  /** What happens around attempt k: its outcome, how long it took, the random draw, and by how much the timer overslept. */
  datatype Attempt<+T> = Attempt(result: Result<T, ClientError>, duration: nat, draw: nat, overshoot: nat)

  function BudgetLeft(policy: RetryPolicy, elapsed: nat): nat {
    if elapsed < policy.totalBudget then policy.totalBudget - elapsed else 0
  }

  function Pow2(n: nat): nat {
    if n == 0 then 1 else 2 * Pow2(n - 1)
  }

  /** `1u32.checked_shl(n).unwrap_or(u32::MAX)` */
  function ShiftOrMax(n: nat): nat {
    if n < 32 then Pow2(n) else 0xFFFF_FFFF
  }

  lemma {:induction false} Pow2Monotone(m: nat, n: nat)
    requires m <= n
    ensures 1 <= Pow2(m) <= Pow2(n)
  {
    if m < n {
      Pow2Monotone(m, n - 1);
    } else if m > 0 {
      Pow2Monotone(m - 1, n - 1);
    }
  }

  lemma {:induction false} Pow2Add(m: nat, n: nat)
    ensures Pow2(m + n) == Pow2(m) * Pow2(n)
  {
    if n > 0 {
      Pow2Add(m, n - 1);
      assert Pow2(m) * (2 * Pow2(n - 1)) == 2 * (Pow2(m) * Pow2(n - 1));
    }
  }

  lemma Pow2Of32()
    ensures Pow2(32) == 0x1_0000_0000
  {
    Pow2Add(16, 16);
    Pow2Add(8, 8);
    assert Pow2(8) == 256;
  }

  lemma ShiftWithinPow2(n: nat)
    ensures ShiftOrMax(n) <= Pow2(n)
  {
    if n >= 32 {
      Pow2Of32();
      Pow2Monotone(32, n);
    }
  }

  lemma ScaleUp(m: nat, a: nat, b: nat)
    requires a <= b
    ensures m * a <= m * b
  {
  }

  /** Exponential backoff before jitter, after failed attempt k (counted from 0). */
  function Backoff(policy: RetryPolicy, k: nat): nat {
    Min(policy.initialBackoff * ShiftOrMax(k), DURATION_MAX)
  }

  /** Full jitter: milliseconds to sleep, drawn from 0..=min(base, left) in whole milliseconds held in a u64. */
  function Jitter(base: nat, left: nat, draw: nat): nat {
    draw % (Min(base / MILLI, left / MILLI) % TWO_64 + 1)
  }

  function SleepMs(policy: RetryPolicy, k: nat, left: nat, draw: nat): nat {
    Jitter(Backoff(policy, k), left, draw)
  }

  lemma ModuloAtMost(x: nat, m: nat)
    requires m > 0
    ensures x % m <= x && x % m < m
  {
  }

  lemma JitterWithin(base: nat, left: nat, draw: nat)
    ensures Jitter(base, left, draw) * MILLI <= base
  {
    var whole := Min(base / MILLI, left / MILLI);
    ModuloAtMost(whole, TWO_64);
    ModuloAtMost(draw, whole % TWO_64 + 1);
    assert base / MILLI * MILLI <= base;
  }

  /** The k-th sleep (k from 0) is at most initial * 2^k. */
  lemma SleepWithinBackoff(policy: RetryPolicy, k: nat, left: nat, draw: nat)
    ensures SleepMs(policy, k, left, draw) * MILLI <= policy.initialBackoff * Pow2(k)
  {
    JitterWithin(Backoff(policy, k), left, draw);
    ShiftWithinPow2(k);
    ScaleUp(policy.initialBackoff, ShiftOrMax(k), Pow2(k));
  }

  /** Time since the start of the call at which attempt k begins. */
  function StartOf<T>(env: nat -> Attempt<T>, sleeps: seq<nat>, k: nat): nat
    requires k <= |sleeps|
    decreases k, 0
  {
    if k == 0 then 0
    else FailedAt(env, sleeps, k - 1) + sleeps[k - 1] * MILLI + env(k - 1).overshoot
  }

  /** Time since the start of the call at which attempt k has returned. */
  function FailedAt<T>(env: nat -> Attempt<T>, sleeps: seq<nat>, k: nat): nat
    requires k <= |sleeps|
    decreases k, 1
  {
    StartOf(env, sleeps, k) + env(k).duration
  }

  function TotalSleep(sleeps: seq<nat>): nat {
    if sleeps == [] then 0 else TotalSleep(sleeps[..|sleeps| - 1]) + sleeps[|sleeps| - 1] * MILLI
  }

  /** Attempt k failed, may be retried, and the drawn sleep fits strictly inside what is left of the budget. */
  ghost predicate RetriesAfter<T>(policy: RetryPolicy, env: nat -> Attempt<T>, sleeps: seq<nat>, k: nat)
    requires k <= |sleeps|
  {
    var left := BudgetLeft(policy, FailedAt(env, sleeps, k));
    && Transient(env(k).result)
    && k + 1 < policy.maxAttempts
    && left > MILLI
    && SleepMs(policy, k, left, env(k).draw) * MILLI < left
  }

  /** The sleeps of a call that has gone through |sleeps| retries. */
  ghost predicate RetryHistory<T>(policy: RetryPolicy, env: nat -> Attempt<T>, sleeps: seq<nat>) {
    forall k | 0 <= k < |sleeps| ::
      && RetriesAfter(policy, env, sleeps, k)
      && sleeps[k] == SleepMs(policy, k, BudgetLeft(policy, FailedAt(env, sleeps, k)), env(k).draw)
  }

  /** A call that went through these sleeps and then stopped: no further retry was due. */
  ghost predicate Finished<T>(policy: RetryPolicy, env: nat -> Attempt<T>, sleeps: seq<nat>) {
    RetryHistory(policy, env, sleeps) && !RetriesAfter(policy, env, sleeps, |sleeps|)
  }

  /** The call ends well, at its first attempt or at a later one. */
  ghost predicate Succeeds<T>(policy: RetryPolicy, env: nat -> Attempt<T>) {
    exists sleeps :: Finished(policy, env, sleeps) && env(|sleeps|).result.Ok?
  }

  lemma {:induction false} TimesIgnoreLaterSleeps<T>(env: nat -> Attempt<T>, sleeps: seq<nat>, ms: nat, k: nat)
    requires k <= |sleeps|
    ensures StartOf(env, sleeps + [ms], k) == StartOf(env, sleeps, k)
    ensures FailedAt(env, sleeps + [ms], k) == FailedAt(env, sleeps, k)
  {
    if k > 0 {
      TimesIgnoreLaterSleeps(env, sleeps, ms, k - 1);
    }
  }

  lemma ExtendHistory<T>(policy: RetryPolicy, env: nat -> Attempt<T>, sleeps: seq<nat>, ms: nat)
    requires RetryHistory(policy, env, sleeps)
    requires RetriesAfter(policy, env, sleeps, |sleeps|)
    requires ms == SleepMs(policy, |sleeps|, BudgetLeft(policy, FailedAt(env, sleeps, |sleeps|)), env(|sleeps|).draw)
    ensures RetryHistory(policy, env, sleeps + [ms])
    ensures StartOf(env, sleeps + [ms], |sleeps| + 1)
      == FailedAt(env, sleeps, |sleeps|) + ms * MILLI + env(|sleeps|).overshoot
  {
    TimesIgnoreLaterSleeps(env, sleeps, ms, |sleeps|);
    forall k | 0 <= k < |sleeps + [ms]|
      ensures
        && RetriesAfter(policy, env, sleeps + [ms], k)
        && (sleeps + [ms])[k] == SleepMs(policy, k, BudgetLeft(policy, FailedAt(env, sleeps + [ms], k)), env(k).draw)
    {
      TimesIgnoreLaterSleeps(env, sleeps, ms, k);
      if k < |sleeps| {
        assert RetriesAfter(policy, env, sleeps, k);
      }
    }
  }

  /** The retry loop. `sleeps` lists the sleeps in milliseconds, so |sleeps| + 1 calls were made. */
  method WithRetry<T>(policy: RetryPolicy, env: nat -> Attempt<T>) returns (r: Result<T, ClientError>, sleeps: seq<nat>)
    ensures Finished(policy, env, sleeps)
    ensures r == env(|sleeps|).result
  {
    var elapsed := 0;
    sleeps := [];
    while true
      invariant RetryHistory(policy, env, sleeps)
      invariant elapsed == StartOf(env, sleeps, |sleeps|)
      invariant |sleeps| > 0 ==> |sleeps| < policy.maxAttempts
      decreases policy.maxAttempts - |sleeps|
    {
      var attempt := |sleeps| + 1;
      var now := env(attempt - 1);
      elapsed := elapsed + now.duration;
      if now.result.Ok? {
        return now.result, sleeps;
      }
      var reason := RetryableReason(now.result.error);
      var budgetLeft := BudgetLeft(policy, elapsed);
      var attemptsLeft := if attempt < policy.maxAttempts then policy.maxAttempts - attempt else 0;
      if !(reason.Some? && attemptsLeft > 0 && budgetLeft > MILLI) {
        return now.result, sleeps;
      }
      var sleepMs := SleepMs(policy, attempt - 1, budgetLeft, now.draw);
      if sleepMs * MILLI >= budgetLeft {
        return now.result, sleeps;
      }
      ExtendHistory(policy, env, sleeps, sleepMs);
      elapsed := elapsed + sleepMs * MILLI + now.overshoot;
      sleeps := sleeps + [sleepMs];
    }
  }

  // ----- What every finished call satisfies -----

  lemma {:induction false} SleepsWithinElapsed<T>(env: nat -> Attempt<T>, sleeps: seq<nat>, k: nat)
    requires k <= |sleeps|
    ensures TotalSleep(sleeps[..k]) <= StartOf(env, sleeps, k)
  {
    if k > 0 {
      SleepsWithinElapsed(env, sleeps, k - 1);
      assert sleeps[..k][..k - 1] == sleeps[..k - 1];
    }
  }

  /** Safety of a whole call, for every outcome sequence, call duration, random draw and timer overshoot. */
  lemma RetryIsBounded<T>(policy: RetryPolicy, env: nat -> Attempt<T>, sleeps: seq<nat>)
    requires RetryHistory(policy, env, sleeps)
    // at most max(1, max_attempts) calls, and only transient failures are followed by another
    ensures |sleeps| + 1 <= Max(1, policy.maxAttempts)
    ensures forall k | 0 <= k < |sleeps| :: Transient(env(k).result)
    // the k-th sleep (k from 1) is at most initial * 2^(k-1)
    ensures forall k | 0 <= k < |sleeps| :: sleeps[k] * MILLI <= policy.initialBackoff * Pow2(k)
    // requested sleep never adds up to the budget
    ensures policy.totalBudget > 0 ==> TotalSleep(sleeps) < policy.totalBudget
    // a retry starts strictly inside the budget, up to the timer's own overshoot
    ensures forall k | 0 < k <= |sleeps| :: StartOf(env, sleeps, k) < policy.totalBudget + env(k - 1).overshoot
  {
    forall k | 0 <= k < |sleeps|
      ensures Transient(env(k).result) && k + 1 < policy.maxAttempts
      ensures sleeps[k] * MILLI <= policy.initialBackoff * Pow2(k)
      ensures StartOf(env, sleeps, k + 1) < policy.totalBudget + env(k).overshoot
    {
      OneRetry(policy, env, sleeps, k);
    }
    if |sleeps| > 0 {
      var last := |sleeps| - 1;
      OneRetry(policy, env, sleeps, last);
      SleepsWithinElapsed(env, sleeps, last);
      assert sleeps[..|sleeps|] == sleeps;
    }
  }

  /** The bounds on the k-th retry alone. */
  lemma OneRetry<T>(policy: RetryPolicy, env: nat -> Attempt<T>, sleeps: seq<nat>, k: nat)
    requires RetryHistory(policy, env, sleeps) && k < |sleeps|
    ensures Transient(env(k).result) && k + 1 < policy.maxAttempts
    ensures sleeps[k] * MILLI <= policy.initialBackoff * Pow2(k)
    ensures FailedAt(env, sleeps, k) + sleeps[k] * MILLI < policy.totalBudget
    ensures StartOf(env, sleeps, k + 1) < policy.totalBudget + env(k).overshoot
  {
    assert RetriesAfter(policy, env, sleeps, k);
    SleepWithinBackoff(policy, k, BudgetLeft(policy, FailedAt(env, sleeps, k)), env(k).draw);
  }

  // ----- Two claims of the documentation -----

  /** Every attempt fails at once in the same way, and every draw is 0. */
  function AlwaysFails(e: ClientError): nat -> Attempt<()> {
    (k: nat) => Attempt(Err(e), 0, 0, 0)
  }

  function Zeros(n: nat): seq<nat> {
    seq(n, _ => 0)
  }

  lemma {:induction false} NoTimePasses(e: ClientError, n: nat, k: nat)
    requires k <= n
    ensures StartOf(AlwaysFails(e), Zeros(n), k) == FailedAt(AlwaysFails(e), Zeros(n), k) == 0
  {
    if k > 0 {
      NoTimePasses(e, n, k - 1);
    }
  }

  lemma ZeroDrawSleepsNot(policy: RetryPolicy, k: nat, left: nat)
    ensures SleepMs(policy, k, left, 0) == 0
  {
    ModuloAtMost(0, Min(Backoff(policy, k) / MILLI, left / MILLI) % TWO_64 + 1);
  }

  /** The attempt bound is met, for every policy with more than a millisecond to spend and every transient error. */
  lemma AttemptBoundIsTight(policy: RetryPolicy, e: ClientError)
    requires policy.totalBudget > MILLI && RetryableReason(e).Some?
    ensures Finished(policy, AlwaysFails(e), Zeros(Max(1, policy.maxAttempts) - 1))
  {
    var n := Max(1, policy.maxAttempts) - 1;
    forall k | 0 <= k <= n
      ensures StartOf(AlwaysFails(e), Zeros(n), k) == FailedAt(AlwaysFails(e), Zeros(n), k) == 0
      ensures SleepMs(policy, k, policy.totalBudget, 0) == 0
    {
      NoTimePasses(e, n, k);
      ZeroDrawSleepsNot(policy, k, policy.totalBudget);
    }
  }

  ghost predicate FailsWith(env: nat -> Attempt<()>, e: ClientError) {
    forall k :: env(k).result == Err(e)
  }

  /** An error, SerdeJson or any other, is retried at most once exactly when it is terminal or the policy allows no more. */
  lemma RetriedAtMostOnceIff(policy: RetryPolicy, e: ClientError)
    ensures (forall env, sleeps | FailsWith(env, e) && RetryHistory(policy, env, sleeps) :: |sleeps| <= 1)
      <==> RetryableReason(e) == None || policy.maxAttempts <= 2 || policy.totalBudget <= MILLI
  {
    if RetryableReason(e) == None || policy.maxAttempts <= 2 || policy.totalBudget <= MILLI {
      forall env, sleeps | FailsWith(env, e) && RetryHistory(policy, env, sleeps)
        ensures |sleeps| <= 1
      {
        if |sleeps| > 0 {
          assert RetriesAfter(policy, env, sleeps, |sleeps| - 1);
        }
      }
    } else {
      AttemptBoundIsTight(policy, e);
      var env, sleeps := AlwaysFails(e), Zeros(policy.maxAttempts - 1);
      assert FailsWith(env, e) && RetryHistory(policy, env, sleeps);
    }
  }

  /** Whole milliseconds, none of them lost in the u64: so it is for every policy read from the environment. */
  lemma EnvBackoffIsWhole(policy: RetryPolicy, k: nat, ms: nat)
    requires policy.initialBackoff == ms * MILLI && 10 <= ms <= 5_000
    ensures Backoff(policy, k) == ms * ShiftOrMax(k) * MILLI
    ensures Backoff(policy, k) / MILLI == ms * ShiftOrMax(k)
  {
    ShiftWithin32Bits(k);
    ScaleUp(ms, ShiftOrMax(k), 0x1_0000_0000);
    assert ms * ShiftOrMax(k) <= 5_000 * 0x1_0000_0000;
    assert policy.initialBackoff * ShiftOrMax(k) == ms * ShiftOrMax(k) * MILLI;
  }

  lemma ShiftWithin32Bits(n: nat)
    ensures ShiftOrMax(n) <= 0x1_0000_0000
  {
    Pow2Of32();
    if n < 32 {
      Pow2Monotone(n, 32);
    }
  }

  /** Every sleep up to the cap can be drawn, the cap itself included. */
  lemma EverySleepCanBeDrawn(base: nat, left: nat, ms: nat)
    requires ms <= Min(base / MILLI, left / MILLI) < TWO_64
    ensures Jitter(base, left, ms) == ms
  {
    var cap := Min(base / MILLI, left / MILLI);
    assert cap % TWO_64 == cap;
    assert ms % (cap + 1) == ms;
  }

  /** The drawn sleep stays below its backoff exactly when less than that is left of the budget. */
  lemma SleepStaysBelowBackoffIff(
    attempts: Option<U64>, backoffMs: Option<U64>, budgetMs: Option<U64>, k: nat, left: nat)
    requires left <= FromEnv(attempts, backoffMs, budgetMs).totalBudget
    ensures
      var policy := FromEnv(attempts, backoffMs, budgetMs);
      (forall draw: nat :: SleepMs(policy, k, left, draw) * MILLI < Backoff(policy, k)) <==> left < Backoff(policy, k)
  {
    var policy := FromEnv(attempts, backoffMs, budgetMs);
    var base := Backoff(policy, k);
    EnvBackoffIsWhole(policy, k, policy.initialBackoff / MILLI);
    if left < base {
      forall draw: nat
        ensures SleepMs(policy, k, left, draw) * MILLI < base
      {
        SleepWithinLeft(base, left, draw);
      }
    } else {
      EverySleepCanBeDrawn(base, left, base / MILLI);
      assert SleepMs(policy, k, left, base / MILLI) * MILLI == base;
    }
  }

  lemma SleepWithinLeft(base: nat, left: nat, draw: nat)
    ensures Jitter(base, left, draw) * MILLI <= left
  {
    var whole := Min(base / MILLI, left / MILLI);
    ModuloAtMost(whole, TWO_64);
    ModuloAtMost(draw, whole % TWO_64 + 1);
    assert left / MILLI * MILLI <= left;
  }

  /** A call's history is decided by its environment: two finished calls agree. */
  lemma RetryIsDetermined<T>(policy: RetryPolicy, env: nat -> Attempt<T>, a: seq<nat>, b: seq<nat>)
    requires Finished(policy, env, a) && Finished(policy, env, b)
    ensures a == b
  {
    NotShorter(policy, env, a, b);
    NotShorter(policy, env, b, a);
    HistoriesAgree(policy, env, a, b, |a|);
  }

  /** Any finished history tells whether the call succeeds. */
  lemma OutcomeIsDecided<T>(policy: RetryPolicy, env: nat -> Attempt<T>, sleeps: seq<nat>)
    requires Finished(policy, env, sleeps)
    ensures Succeeds(policy, env) <==> env(|sleeps|).result.Ok?
  {
    if Succeeds(policy, env) {
      var other :| Finished(policy, env, other) && env(|other|).result.Ok?;
      RetryIsDetermined(policy, env, sleeps, other);
    }
  }

  lemma NotShorter<T>(policy: RetryPolicy, env: nat -> Attempt<T>, a: seq<nat>, b: seq<nat>)
    requires Finished(policy, env, a) && RetryHistory(policy, env, b)
    ensures |b| <= |a|
  {
    if |a| < |b| {
      HistoriesAgree(policy, env, a, b, |a|);
      TimesAgree(env, a, b, |a|);
      assert false;
    }
  }

  lemma {:induction false} TimesAgree<T>(env: nat -> Attempt<T>, a: seq<nat>, b: seq<nat>, k: nat)
    requires k <= |a| && k <= |b| && forall j | 0 <= j < k :: a[j] == b[j]
    ensures StartOf(env, a, k) == StartOf(env, b, k) && FailedAt(env, a, k) == FailedAt(env, b, k)
  {
    if k > 0 {
      TimesAgree(env, a, b, k - 1);
    }
  }

  lemma SleepsAgree<T>(policy: RetryPolicy, env: nat -> Attempt<T>, a: seq<nat>, b: seq<nat>, k: nat)
    requires RetryHistory(policy, env, a) && RetryHistory(policy, env, b)
    requires k < |a| && k < |b| && forall j | 0 <= j < k :: a[j] == b[j]
    ensures a[k] == b[k]
  {
    TimesAgree(env, a, b, k);
  }

  lemma {:induction false} HistoriesAgree<T>(policy: RetryPolicy, env: nat -> Attempt<T>, a: seq<nat>, b: seq<nat>, k: nat)
    requires RetryHistory(policy, env, a) && RetryHistory(policy, env, b)
    requires k <= |a| && k <= |b|
    ensures forall j | 0 <= j < k :: a[j] == b[j]
  {
    if k > 0 {
      HistoriesAgree(policy, env, a, b, k - 1);
      SleepsAgree(policy, env, a, b, k - 1);
    }
  }
}
