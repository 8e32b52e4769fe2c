/** The per-minute rate limiter: one Postgres upsert per request. */
module RateLimit {
  import opened Prelude

  const MINUTE: int := 60_000_000      // timestamps are in microseconds
  const I32_MAX: nat := 0x7FFF_FFFF    // the column `count` is an INTEGER

  type Bucket = (string, int)          // key and window start

  /** `date_trunc('minute', t)` */
  function WindowStart(t: int): int {
    t / MINUTE * MINUTE
  }

  /** How far the check's transaction got: a commit may fail to be confirmed and still have been applied. */
  datatype CheckFate = NotApplied | AppliedUnconfirmed | Confirmed

  /** What a check that fails did to the counter: nothing, or take a place within the limit or beyond it. */
  datatype Loss = Uncounted | LostWithin | LostBeyond

  datatype Decision = Admit | Reject | FailOpen(loss: Loss)

  /** One request at the limiter. */
  datatype Request = Request(key: string, at: int, fate: CheckFate)

  function CountOf(counts: map<Bucket, nat>, b: Bucket): nat {
    if b in counts then counts[b] else 0
  }

  function BucketOf(r: Request): Bucket {
    (r.key, WindowStart(r.at))
  }

  // ----- One check -----

  /** The upsert takes effect: it is applied, and the counter stays in the range of its column. */
  predicate Counts(counts: map<Bucket, nat>, r: Request) {
    r.fate != NotApplied && CountOf(counts, BucketOf(r)) != I32_MAX
  }

  function After(counts: map<Bucket, nat>, r: Request): map<Bucket, nat> {
    if Counts(counts, r) then counts[BucketOf(r) := CountOf(counts, BucketOf(r)) + 1] else counts
  }

  /** A failed check lets the request through, counted or not. */
  function Decide(counts: map<Bucket, nat>, r: Request, limit: nat): Decision {
    if !Counts(counts, r) then FailOpen(Uncounted)
    else
      var within := CountOf(counts, BucketOf(r)) + 1 <= limit;
      if r.fate == Confirmed then (if within then Admit else Reject)
      else FailOpen(if within then LostWithin else LostBeyond)
  }

  // ----- Runs -----

  function CountsAfter(run: seq<Request>): map<Bucket, nat> {
    if run == [] then map[] else After(CountsAfter(run[..|run| - 1]), run[|run| - 1])
  }

  class RateBuckets {
    var counts: map<Bucket, nat>
    ghost var log: seq<Request>   // every check made so far

    constructor ()
      ensures counts == map[] && log == []
    {
      counts, log := map[], [];
    }

    /** Err when a statement or the commit fails, which includes a counter past the range of its column. */
    method CheckAndIncrement(key: string, limit: nat, now: int, fate: CheckFate) returns (r: Result<bool, string>)
      modifies this
      ensures counts == After(old(counts), Request(key, now, fate))
      ensures log == old(log) + [Request(key, now, fate)]
      ensures
        match Decide(old(counts), Request(key, now, fate), limit)
        case Admit => r == Ok(true)
        case Reject => r == Ok(false)
        case FailOpen(_) => r.Err?
    {
      log := log + [Request(key, now, fate)];
      if fate == NotApplied {
        return Err("rate limit query failed");
      }
      var bucket := (key, WindowStart(now));
      var count;
      if bucket in counts {
        if counts[bucket] == I32_MAX {
          return Err("integer out of range");
        }
        count := counts[bucket] + 1;
      } else {
        count := 1;
      }
      counts := counts[bucket := count];
      if fate == AppliedUnconfirmed {
        return Err("rate limit commit timed out");
      }
      r := Ok(count <= limit);
    }
  }

  function DecisionAt(run: seq<Request>, i: nat, limit: nat): Decision
    requires i < |run|
  {
    Decide(CountsAfter(run[..i]), run[i], limit)
  }

  /** What one request does to one bucket. */
  function Bumped(count: nat, fate: CheckFate): nat {
    if fate == NotApplied || count == I32_MAX then count else count + 1
  }

  lemma CountAfterOne(counts: map<Bucket, nat>, r: Request, b: Bucket)
    ensures CountOf(After(counts, r), b) == if BucketOf(r) == b then Bumped(CountOf(counts, b), r.fate) else CountOf(counts, b)
  {
  }

  /** A check keeps the counters those of the log. */
  lemma CountsAfterOneMore(run: seq<Request>, r: Request)
    ensures CountsAfter(run + [r]) == After(CountsAfter(run), r)
  {
    assert (run + [r])[..|run|] == run;
  }

  /** The counters after some more checks. */
  function AfterAll(counts: map<Bucket, nat>, checks: seq<Request>): map<Bucket, nat>
    decreases |checks|
  {
    if checks == [] then counts else AfterAll(After(counts, checks[0]), checks[1..])
  }

  lemma {:induction false} CountsAfterMore(run: seq<Request>, checks: seq<Request>)
    ensures CountsAfter(run + checks) == AfterAll(CountsAfter(run), checks)
    decreases |checks|
  {
    if checks == [] {
      assert run + checks == run;
    } else {
      CountsAfterOneMore(run, checks[0]);
      CountsAfterMore(run + [checks[0]], checks[1..]);
      assert run + checks == run + [checks[0]] + checks[1..];
    }
  }

  /** A counter never leaves the range of its column. */
  lemma {:induction false} CountsStayInRange(run: seq<Request>, b: Bucket)
    ensures CountOf(CountsAfter(run), b) <= I32_MAX
  {
    if run != [] {
      CountsStayInRange(run[..|run| - 1], b);
      CountAfterOne(CountsAfter(run[..|run| - 1]), run[|run| - 1], b);
    }
  }

  /** How many of the first n requests satisfy `p` and were decided as `d`. */
  ghost function Tally(run: seq<Request>, limit: nat, p: Request -> bool, d: Decision, n: nat): nat
    requires n <= |run|
  {
    if n == 0 then 0
    else Tally(run, limit, p, d, n - 1) + if p(run[n - 1]) && DecisionAt(run, n - 1, limit) == d then 1 else 0
  }

  function InBucket(b: Bucket): Request -> bool {
    (r: Request) => BucketOf(r) == b
  }

  function InInterval(key: string, from: int): Request -> bool {
    (r: Request) => r.key == key && from <= r.at < from + MINUTE
  }

  lemma {:induction false} CountsAfterStep(run: seq<Request>, n: nat)
    requires n < |run|
    ensures CountsAfter(run[..n + 1]) == After(CountsAfter(run[..n]), run[n])
  {
    assert run[..n + 1][..n] == run[..n];
  }

  lemma {:induction false} TallyOfPrefix(run: seq<Request>, more: seq<Request>, limit: nat, p: Request -> bool, d: Decision, n: nat)
    requires n <= |run|
    ensures Tally(run + more, limit, p, d, n) == Tally(run, limit, p, d, n)
  {
    if n > 0 {
      TallyOfPrefix(run, more, limit, p, d, n - 1);
      assert (run + more)[..n - 1] == run[..n - 1];
    }
  }

  lemma TallyOfOneMore(run: seq<Request>, r: Request, limit: nat, p: Request -> bool, d: Decision)
    ensures Tally(run + [r], limit, p, d, |run| + 1)
      == Tally(run, limit, p, d, |run|) + if p(r) && Decide(CountsAfter(run), r, limit) == d then 1 else 0
  {
    TallyOfPrefix(run, [r], limit, p, d, |run|);
    assert (run + [r])[..|run|] == run;
  }

  lemma {:induction false} TallyIsMonotone(run: seq<Request>, limit: nat, p: Request -> bool, d: Decision, m: nat, n: nat)
    requires m <= n <= |run|
    ensures Tally(run, limit, p, d, m) <= Tally(run, limit, p, d, n)
  {
    if m < n {
      TallyIsMonotone(run, limit, p, d, m, n - 1);
    }
  }

  lemma TallyGrows(run: seq<Request>, more: seq<Request>, limit: nat, p: Request -> bool, d: Decision)
    ensures Tally(run, limit, p, d, |run|) <= Tally(run + more, limit, p, d, |run + more|)
  {
    TallyOfPrefix(run, more, limit, p, d, |run|);
    TallyIsMonotone(run + more, limit, p, d, |run|, |run + more|);
  }

  /** An admitted check counts once more, whatever is checked after it. */
  lemma AdmittedCounts(run: seq<Request>, r: Request, more: seq<Request>, limit: nat, p: Request -> bool)
    ensures
      var longer := run + [r] + more;
      Tally(longer, limit, p, Admit, |longer|)
      >= Tally(run, limit, p, Admit, |run|) + if p(r) && Decide(CountsAfter(run), r, limit) == Admit then 1 else 0
  {
    TallyOfOneMore(run, r, limit, p, Admit);
    TallyGrows(run + [r], more, limit, p, Admit);
  }

  lemma {:induction false} BucketAccounting(run: seq<Request>, limit: nat, b: Bucket, n: nat)
    requires n <= |run|
    ensures
      var counted, p := CountOf(CountsAfter(run[..n]), b), InBucket(b);
      && Tally(run, limit, p, Admit, n) + Tally(run, limit, p, FailOpen(LostWithin), n) == Min(counted, limit)
      && Tally(run, limit, p, Reject, n) + Tally(run, limit, p, FailOpen(LostBeyond), n) == counted - Min(counted, limit)
      && Tally(run, limit, p, FailOpen(Uncounted), n) == CountIf(p, run[..n]) - counted
  {
    if n > 0 {
      BucketAccounting(run, limit, b, n - 1);
      CountsAfterStep(run, n - 1);
      CountIfStep(InBucket(b), run, n - 1);
    }
  }

  /**
   * Exact admission over any run, at any times and in any order: per key and minute, the counted
   * requests fill min(counted, limit) places, each taken by an admitted request or by one whose
   * commit was applied without being confirmed; the rest are rejected or, again, unconfirmed.
   */
  lemma AdmitsExactlyUpToTheLimit(run: seq<Request>, limit: nat, b: Bucket)
    ensures
      var p, n := InBucket(b), |run|;
      var counted := CountIf(p, run) - Tally(run, limit, p, FailOpen(Uncounted), n);
      && counted >= 0
      && Tally(run, limit, p, Admit, n) + Tally(run, limit, p, FailOpen(LostWithin), n) == Min(counted, limit)
      && Tally(run, limit, p, Reject, n) + Tally(run, limit, p, FailOpen(LostBeyond), n) == Max(counted - limit, 0)
  {
    BucketAccounting(run, limit, b, |run|);
    assert run[..|run|] == run;
  }

  /** The requests that got an answer from the database. */
  ghost function Answered(run: seq<Request>, limit: nat, b: Bucket): nat {
    Tally(run, limit, InBucket(b), Admit, |run|) + Tally(run, limit, InBucket(b), Reject, |run|)
  }

  /**
   * Of the requests that got an answer, min(answered, limit) are admitted exactly when nobody is
   * rejected or no unconfirmed commit took a place; otherwise fewer are.
   */
  lemma AdmitsLessExactlyWhen(run: seq<Request>, limit: nat, b: Bucket)
    ensures
      var p, n := InBucket(b), |run|;
      && Tally(run, limit, p, Admit, n) <= Min(Answered(run, limit, b), limit)
      && (Tally(run, limit, p, Admit, n) == Min(Answered(run, limit, b), limit) <==>
            Tally(run, limit, p, Reject, n) == 0 || Tally(run, limit, p, FailOpen(LostWithin), n) == 0)
  {
    AdmitsExactlyUpToTheLimit(run, limit, b);
  }

  /** Limit 2, an unconfirmed commit, then two confirmed ones: the last is rejected, though only two were answered. */
  lemma UnconfirmedCommitCostsAPlace(key: string)
    ensures
      var run := [Request(key, 0, AppliedUnconfirmed), Request(key, 0, Confirmed), Request(key, 0, Confirmed)];
      && DecisionAt(run, 0, 2) == FailOpen(LostWithin) && DecisionAt(run, 1, 2) == Admit && DecisionAt(run, 2, 2) == Reject
  {
    var lost, ok := Request(key, 0, AppliedUnconfirmed), Request(key, 0, Confirmed);
    var run := [lost, ok, ok];
    assert run[..0] == [] && run[..1] == [lost] && run[..2] == [lost, ok];
    CountsAfterStep(run, 0);
    CountsAfterStep(run, 1);
  }

  /** Without database failures the limiter is exact until a counter reaches the end of its column. */
  lemma {:induction false} NeverFailsBelowOverflow(run: seq<Request>, limit: nat, b: Bucket, n: nat)
    requires n <= |run| <= I32_MAX
    requires forall i | 0 <= i < |run| :: run[i].fate == Confirmed
    ensures forall loss :: Tally(run, limit, InBucket(b), FailOpen(loss), n) == 0
    ensures CountOf(CountsAfter(run[..n]), b) <= n
  {
    if n > 0 {
      NeverFailsBelowOverflow(run, limit, b, n - 1);
      CountsAfterStep(run, n - 1);
    }
  }

  lemma {:induction false} IntervalWithinTwoWindows(run: seq<Request>, limit: nat, key: string, from: int, n: nat)
    requires n <= |run|
    ensures
      Tally(run, limit, InInterval(key, from), Admit, n)
      <= Tally(run, limit, InBucket((key, WindowStart(from))), Admit, n)
         + Tally(run, limit, InBucket((key, WindowStart(from) + MINUTE)), Admit, n)
  {
    if n > 0 {
      IntervalWithinTwoWindows(run, limit, key, from, n - 1);
    }
  }

  /** In any half-open interval of 60 seconds at most 2 * limit requests of one key are admitted. */
  lemma SlidingWindowBound(run: seq<Request>, limit: nat, key: string, from: int)
    ensures Tally(run, limit, InInterval(key, from), Admit, |run|) <= 2 * limit
  {
    IntervalWithinTwoWindows(run, limit, key, from, |run|);
    AdmitsExactlyUpToTheLimit(run, limit, (key, WindowStart(from)));
    AdmitsExactlyUpToTheLimit(run, limit, (key, WindowStart(from) + MINUTE));
  }

  /** A burst around a minute boundary: `limit` requests just before it and `limit` just after. */
  function Burst(key: string, limit: nat): seq<Request> {
    seq(2 * limit, i => Request(key, if i < limit then MINUTE - 1 else MINUTE, Confirmed))
  }

  lemma BurstStep(key: string, limit: nat, n: nat)
    requires n < 2 * limit <= I32_MAX
    ensures
      var counts, r := CountsAfter(Burst(key, limit)[..n]), Burst(key, limit)[n];
      && CountsAfter(Burst(key, limit)[..n + 1]) == After(counts, r)
      && r.fate == Confirmed && BucketOf(r) == (key, if n < limit then 0 else MINUTE)
      && InInterval(key, MINUTE - 1)(r)
  {
    CountsAfterStep(Burst(key, limit), n);
  }

  lemma {:induction false} BurstCounts(key: string, limit: nat, n: nat)
    requires n <= 2 * limit <= I32_MAX
    ensures CountOf(CountsAfter(Burst(key, limit)[..n]), (key, 0)) == Min(n, limit)
    ensures CountOf(CountsAfter(Burst(key, limit)[..n]), (key, MINUTE)) == Max(n - limit, 0)
  {
    if n > 0 {
      BurstCounts(key, limit, n - 1);
      BurstStep(key, limit, n - 1);
      var counts, r := CountsAfter(Burst(key, limit)[..n - 1]), Burst(key, limit)[n - 1];
      CountAfterOne(counts, r, (key, 0));
      CountAfterOne(counts, r, (key, MINUTE));
    }
  }

  lemma {:induction false} BurstDecisions(key: string, limit: nat, n: nat)
    requires n <= 2 * limit <= I32_MAX
    ensures Tally(Burst(key, limit), limit, InInterval(key, MINUTE - 1), Admit, n) == n
  {
    if n > 0 {
      BurstDecisions(key, limit, n - 1);
      BurstStep(key, limit, n - 1);
      BurstCounts(key, limit, n - 1);
      assert DecisionAt(Burst(key, limit), n - 1, limit) == Admit;
    }
  }

  /** The bound of 2 * limit is reached, within one microsecond. */
  lemma SlidingWindowBoundIsTight(key: string, limit: nat)
    requires 2 * limit <= I32_MAX
    ensures Tally(Burst(key, limit), limit, InInterval(key, MINUTE - 1), Admit, |Burst(key, limit)|) == 2 * limit
  {
    BurstDecisions(key, limit, 2 * limit);
  }

  // ----- Buckets do not interfere -----

  function IpKey(ip: string): string {
    "ip:" + ip
  }

  function PayerKey(payer: string): string {
    "payer:" + payer
  }

  function HasKey(key: string): Request -> bool {
    (r: Request) => r.key == key
  }

  /** A key's counters after a run are those after its own requests alone. */
  lemma {:induction false} OtherKeysDoNotMatter(run: seq<Request>, key: string, window: int)
    ensures CountOf(CountsAfter(run), (key, window)) == CountOf(CountsAfter(Filter(HasKey(key), run)), (key, window))
  {
    if run != [] {
      var init, last := run[..|run| - 1], run[|run| - 1];
      OtherKeysDoNotMatter(init, key, window);
      var mine := Filter(HasKey(key), init);
      CountAfterOne(CountsAfter(init), last, (key, window));
      if last.key == key {
        assert (mine + [last])[..|mine|] == mine;
        CountAfterOne(CountsAfter(mine), last, (key, window));
      } else {
        assert Filter(HasKey(key), run) == mine;
      }
    }
  }

  /** Client and subscriber buckets never meet, and each names its owner. */
  lemma KeysAreSeparate(ip: string, payer: string, ip': string)
    ensures IpKey(ip) != PayerKey(payer)
    ensures IpKey(ip) == IpKey(ip') <==> ip == ip'
    ensures PayerKey(payer) == PayerKey(ip) <==> payer == ip
  {
    assert IpKey(ip)[0] == 'i' && PayerKey(payer)[0] == 'p';
    assert IpKey(ip)[3..] == ip && IpKey(ip')[3..] == ip';
    assert PayerKey(payer)[6..] == payer && PayerKey(ip)[6..] == ip;
  }
}
