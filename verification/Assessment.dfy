/** A wallet assessed end to end: what a verdict says about the ledger, whatever calls failed. */
module Assessment {
  import opened Prelude
  import opened Bands
  import opened Labels
  import opened Ledger
  import opened Funding
  import opened ChainSignals
  import opened WalletScoring
  import Activity

  // ----- Behaviour flags and the ledger -----

  /** How many of the signatures fall in the last 30 days. */
  function RecentCount(sigs: seq<SigInfo>, now: int): nat {
    CountIf(Since(now - 30 * DAY), sigs)
  }

  lemma RecentCountOfPrefix(sigs: seq<SigInfo>, h: seq<SigInfo>, now: int)
    requires sigs <= h
    ensures RecentCount(h, now) == RecentCount(sigs, now) + RecentCount(h[|sigs|..], now)
  {
    CountIfConcat(Since(now - 30 * DAY), sigs, h[|sigs|..]);
    assert h == sigs + h[|sigs|..];
  }

  /** The arithmetic that ties the counts of one record together. */
  ghost predicate CountsAgree(s: Signals, h: seq<SigInfo>) {
    && s.txCount30d <= s.txCountTotal <= |h|
    && s.isFreshFunded == (s.ageDays < 1 && s.txCountTotal < 5)
    && (s.sigPagesFetched >= 2 ==> s.txCountTotal >= PAGE)
  }

  lemma CountsOfTimes(s: Signals, c: Collection)
    requires TimesReported(s, c)
    ensures CountsAgree(s, c.History())
  {
    CountIfBounds(Since(c.now - 30 * DAY), c.sigs);
  }

  /** The three behaviour flags exclude each other in every collection. */
  lemma BehaviourFlagsExclude(s: Signals, c: Collection)
    requires CollectedIn(s, c)
    ensures |BehaviourFlags(s)| <= 1
  {
    CountsOfTimes(s, c);
    AtMostOneBehaviour(s, c.History());
  }

  lemma AtMostOneBehaviour(s: Signals, h: seq<SigInfo>)
    requires CountsAgree(s, h)
    ensures |BehaviourFlags(s)| <= 1
  {
  }

  lemma BehaviourFlagMembers(s: Signals)
    ensures FreshFunded in BehaviourFlags(s) <==> s.isFreshFunded
    ensures Dormant in BehaviourFlags(s) <==> s.ageDays > 30 && s.txCount30d < 3
    ensures DustPattern in BehaviourFlags(s) <==> s.txCount30d > 50 && s.solBalanceLamports < 10_000_000
  {
  }

  /** Fewer than five transactions, the first of them less than a day ago. */
  predicate IsFresh(h: seq<SigInfo>, now: int) {
    |h| < 5 && AgeDays(FirstOf(h), now) < 1
  }

  /** With block times after 1970: no transaction is a day old. */
  lemma FreshMeansYoung(h: seq<SigInfo>, now: int)
    requires PositiveTimes(h)
    ensures IsFresh(h, now) <==> |h| < 5 && forall s | s in h && s.blockTime.Some? :: now - s.blockTime.value < DAY
  {
    FirstOfPositive(h, FirstOf(h));
  }

  /** FRESH_FUNDED is raised exactly when the wallet is fresh, or when not one page of its history could be read. */
  lemma FreshFundedExactlyWhen(s: Signals, c: Collection)
    requires TimesReported(s, c)
    ensures FreshFunded in BehaviourFlags(s) <==> s.sigPagesFetched == 0 || IsFresh(c.History(), c.now)
  {
    BehaviourFlagMembers(s);
    FirstIsUnique(c.sigs, s.firstSeenTs, FirstOf(c.sigs));
    if s.sigPagesFetched == 0 {
      assert c.sigs == [];
    } else if s.isFreshFunded || |c.History()| < 5 {
      assert c.sigs == c.History();
    }
  }

  /**
   * DUST_PATTERN is raised exactly when over fifty recent transactions were collected and the balance
   * is small or was not read. Only that last case misreports the wallet.
   */
  lemma DustPatternExactlyWhen(s: Signals, c: Collection)
    requires TimesReported(s, c) && BalancesReported(s, c)
    ensures DustPattern in BehaviourFlags(s) <==>
      RecentCount(c.sigs, c.now) > 50 && (c.chain.balance(c.wallet) < 10_000_000 || s.solBalanceLamports == 0)
    ensures DustPattern in BehaviourFlags(s) ==> RecentCount(c.History(), c.now) > 50
  {
    BehaviourFlagMembers(s);
    RecentCountOfPrefix(c.sigs, c.History(), c.now);
  }

  /** No later position of the history has a later block time. */
  ghost predicate NewestFirst(h: seq<SigInfo>) {
    forall i, j | 0 <= i < j < |h| && h[i].blockTime.Some? && h[j].blockTime.Some? ::
      h[j].blockTime.value <= h[i].blockTime.value
  }

  /** Older than a month, with fewer than three transactions in the last one. */
  ghost predicate IsDormant(h: seq<SigInfo>, now: int) {
    && (exists s | s in h :: s.blockTime.Some? && now - s.blockTime.value > 30 * DAY)
    && RecentCount(h, now) < 3
  }

  lemma FirstWasCollected(sigs: seq<SigInfo>, first: int) returns (i: nat)
    requires IsFirst(sigs, first) && first > 0
    ensures i < |sigs| && sigs[i].blockTime == Some(first)
  {
    var k: nat :| StartsAfresh(sigs, k) && IsLowestPositive(sigs[k..], first);
    var s :| s in sigs[k..] && s.blockTime == Some(first);
    i :| 0 <= i < |sigs| && sigs[i] == s;
  }

  lemma QuietPrefix(sigs: seq<SigInfo>, h: seq<SigInfo>, now: int, first: int)
    requires sigs <= h && NewestFirst(h)
    requires IsFirst(sigs, first) && AgeDays(first, now) > 30 && RecentCount(sigs, now) < 3
    ensures IsDormant(h, now)
  {
    var n := |sigs|;
    var i := FirstWasCollected(sigs, first);
    assert h[i] == sigs[i] && h[i] in h;
    RecentCountOfPrefix(sigs, h, now);
    forall sig | sig in h[n..]
      ensures !Since(now - 30 * DAY)(sig)
    {
      var j :| n <= j < |h| && h[j] == sig;
    }
    CountIfBounds(Since(now - 30 * DAY), h[n..]);
  }

  /** DORMANT is raised exactly when what was collected is more than 30 days old, with fewer than three recent ones. */
  lemma DormantExactlyWhen(s: Signals, c: Collection)
    requires TimesReported(s, c)
    ensures Dormant in BehaviourFlags(s) <==>
      AgeDays(FirstOf(c.sigs), c.now) > 30 && RecentCount(c.sigs, c.now) < 3
    ensures PositiveTimes(c.sigs) ==>
      (Dormant in BehaviourFlags(s) <==> OldEnough(c.sigs, c.now) && RecentCount(c.sigs, c.now) < 3)
  {
    BehaviourFlagMembers(s);
    FirstIsUnique(c.sigs, s.firstSeenTs, FirstOf(c.sigs));
    if PositiveTimes(c.sigs) {
      AgeOfPositive(c.sigs, c.now);
    }
  }

  /** Some signature is at least 31 days old. */
  ghost predicate OldEnough(sigs: seq<SigInfo>, now: int) {
    exists s | s in sigs :: s.blockTime.Some? && now - s.blockTime.value >= 31 * DAY
  }

  lemma AgeOfPositive(sigs: seq<SigInfo>, now: int)
    requires PositiveTimes(sigs)
    ensures AgeDays(FirstOf(sigs), now) > 30 <==> OldEnough(sigs, now)
  {
    FirstOfPositive(sigs, FirstOf(sigs));
  }

  /** DORMANT is never raised falsely, whatever calls failed and however little was read. */
  lemma DormantIsTrue(s: Signals, c: Collection)
    requires TimesReported(s, c) && NewestFirst(c.History())
    requires Dormant in BehaviourFlags(s)
    ensures IsDormant(c.History(), c.now)
  {
    BehaviourFlagMembers(s);
    QuietPrefix(c.sigs, c.History(), c.now, s.firstSeenTs);
  }

  // ----- Counterparty exposure -----

  /** Deny-listed (counterparty, label) pairs in the fetched window. */
  ghost function ExposedPairs(c: Collection): set<(Address, string)> {
    Activity.DenyPairs(c.deny, c.Counterparties())
  }

  /** COUNTERPARTY_LABELED carries the number of deny-listed pairs in the window, and is raised when there are any. */
  lemma ExposureIsCounted(s: Signals, c: Collection)
    requires ActivityReported(s, c)
    ensures forall n :: CounterpartyLabeled(n) in ExposureFlags(s) <==> n == |ExposedPairs(c)| && n > 0
  {
    Activity.HitsCountPairs(c.deny, c.Counterparties(), s.counterpartyLabels);
  }

  // ----- The verdict -----

  /** The answer the wallet handler sends for given signals and label entries. */
  function WalletVerdict(s: Signals, deny: seq<LabelEntry>, allow: seq<LabelEntry>): Recommendation {
    RecommendationFrom(
      BandOf(Clamped(RawScore(s, deny, allow))),
      exists e | e in deny + allow :: e.weight > 0,
      QualityOf(s))
  }

  /** ALLOW takes a clean record, a score under 25, and at least one full page of history: no fresh-funded wallet gets it. */
  lemma AllowedExactlyWhen(s: Signals, c: Collection, deny: seq<LabelEntry>, allow: seq<LabelEntry>)
    requires CollectedIn(s, c)
    ensures WalletVerdict(s, deny, allow) == ALLOW <==>
      && (forall e | e in deny + allow :: e.weight <= 0)
      && RawScore(s, deny, allow) < 25
      && s.sigPagesFetched >= 2
    ensures WalletVerdict(s, deny, allow) == ALLOW ==> |c.History()| >= 100 && !s.isFreshFunded
  {
    CountsOfTimes(s, c);
    AllowedOnCounts(s, c.History(), deny, allow);
  }

  lemma AllowedOnCounts(s: Signals, h: seq<SigInfo>, deny: seq<LabelEntry>, allow: seq<LabelEntry>)
    requires CountsAgree(s, h)
    ensures WalletVerdict(s, deny, allow) == ALLOW <==>
      && (forall e | e in deny + allow :: e.weight <= 0)
      && RawScore(s, deny, allow) < 25
      && s.sigPagesFetched >= 2
    ensures WalletVerdict(s, deny, allow) == ALLOW ==> |h| >= 100 && !s.isFreshFunded
  {
  }

  /** BLOCK is exactly a positive label or a score of at least 75. */
  lemma BlockedExactlyWhen(s: Signals, deny: seq<LabelEntry>, allow: seq<LabelEntry>)
    ensures WalletVerdict(s, deny, allow) == BLOCK <==>
      (exists e | e in deny + allow :: e.weight > 0) || RawScore(s, deny, allow) >= 75
  {
  }

  lemma InOneOf(a: seq<Flag>, b: seq<Flag>, c: seq<Flag>, d: seq<Flag>, f: Flag)
    ensures f in a + b + c + d <==> f in a || f in b || f in c || f in d
  {
  }

  datatype Origin = FromBehaviour | FromFunding | FromExposure | FromLabels

  function OriginOf(f: Flag): Origin {
    match f
    case FundedByLabeled => FromFunding
    case FundingChainLabeled(_) => FromFunding
    case FundingUntraced => FromFunding
    case CounterpartyLabeled(_) => FromExposure
    case Label(_) => FromLabels
    case _ => FromBehaviour
  }

  lemma OriginsOfSignals(s: Signals, f: Flag)
    ensures f in BehaviourFlags(s) ==> OriginOf(f) == FromBehaviour
    ensures f in ExposureFlags(s) ==> OriginOf(f) == FromExposure
  {
  }

  lemma OriginsOfProvenance(direct: bool, deepHop: Option<nat>, untraced: bool, f: Flag)
    ensures f in ProvenanceFlags(direct, deepHop, untraced) ==> OriginOf(f) == FromFunding
  {
  }

  /** Every kind of flag comes from one place. */
  lemma FlagsByOrigin(s: Signals, deny: seq<LabelEntry>, f: Flag)
    ensures f in SignalFlags(s) + LabelFlags(deny) <==>
      match OriginOf(f)
      case FromBehaviour => f in BehaviourFlags(s)
      case FromFunding => f in FundingFlags(TraceIn(s))
      case FromExposure => f in ExposureFlags(s)
      case FromLabels => f in LabelFlags(deny)
  {
    var t := TraceIn(s);
    OriginsOfSignals(s, f);
    OriginsOfProvenance(t.funderLabels != [], DeepHop(t.fundingChain), Untraced(t.classification), f);
    assert f in LabelFlags(deny) ==> OriginOf(f) == FromLabels;
    InOneOf(BehaviourFlags(s), FundingFlags(t), ExposureFlags(s), LabelFlags(deny), f);
  }

  lemma FundingFlagsInAnswer(s: Signals, deny: seq<LabelEntry>, flags: seq<Flag>)
    requires flags == SignalFlags(s) + LabelFlags(deny)
    ensures FundedByLabeled in flags <==> FundedByLabeled in FundingFlags(TraceIn(s))
    ensures forall n :: FundingChainLabeled(n) in flags <==> FundingChainLabeled(n) in FundingFlags(TraceIn(s))
  {
    FlagsByOrigin(s, deny, FundedByLabeled);
    forall n
      ensures FundingChainLabeled(n) in flags <==> FundingChainLabeled(n) in FundingFlags(TraceIn(s))
    {
      FlagsByOrigin(s, deny, FundingChainLabeled(n));
    }
  }

  lemma ExposureFlagsInAnswer(s: Signals, deny: seq<LabelEntry>, flags: seq<Flag>)
    requires flags == SignalFlags(s) + LabelFlags(deny)
    ensures forall n :: CounterpartyLabeled(n) in flags <==> CounterpartyLabeled(n) in ExposureFlags(s)
  {
    forall n
      ensures CounterpartyLabeled(n) in flags <==> CounterpartyLabeled(n) in ExposureFlags(s)
    {
      FlagsByOrigin(s, deny, CounterpartyLabeled(n));
    }
  }

  lemma BehaviourFlagsInAnswer(s: Signals, deny: seq<LabelEntry>, flags: seq<Flag>)
    requires flags == SignalFlags(s) + LabelFlags(deny)
    ensures forall f | f in {FreshFunded, Dormant, DustPattern} :: f in flags <==> f in BehaviourFlags(s)
  {
    forall f | f in {FreshFunded, Dormant, DustPattern}
      ensures f in flags <==> f in BehaviourFlags(s)
    {
      FlagsByOrigin(s, deny, f);
    }
  }

  /** Provenance names a hop of the true funding path at which the deny list holds an address. */
  ghost predicate ProvenanceIsTrue(flags: seq<Flag>, path: seq<FundingHop>, deny: LabelIndex) {
    && (FundedByLabeled in flags ==> path != [] && Lookup(deny, path[0].address) != [])
    && (forall n: nat | FundingChainLabeled(n) in flags :: 2 <= n <= |path| && Lookup(deny, path[n - 1].address) != [])
  }

  /** Exposure counts the deny-listed pairs of the fetched window. */
  ghost predicate ExposureIsTrue(flags: seq<Flag>, c: Collection) {
    forall n :: CounterpartyLabeled(n) in flags <==> n == |ExposedPairs(c)| && n > 0
  }

  /** Behaviour is that of the ledger, but for a history or a balance that could not be read. */
  ghost predicate BehaviourIsTrue(flags: seq<Flag>, s: Signals, c: Collection) {
    && (FreshFunded in flags <==> s.sigPagesFetched == 0 || IsFresh(c.History(), c.now))
    && (DustPattern in flags <==>
          RecentCount(c.sigs, c.now) > 50 && (c.chain.balance(c.wallet) < 10_000_000 || s.solBalanceLamports == 0))
    && (DustPattern in flags ==> RecentCount(c.History(), c.now) > 50)
    && (Dormant in flags <==> AgeDays(FirstOf(c.sigs), c.now) > 30 && RecentCount(c.sigs, c.now) < 3)
    && (Dormant in flags && NewestFirst(c.History()) ==> IsDormant(c.History(), c.now))
  }

  lemma ProvenanceOfFlags(s: Signals, c: Collection, deny: seq<LabelEntry>, flags: seq<Flag>)
    requires c.budgets.maxHops >= 1 && TraceReported(s, c)
    requires flags == SignalFlags(s) + LabelFlags(deny)
    ensures ProvenanceIsTrue(flags, c.Trace().fundingChain, c.deny)
  {
    FundingFlagsInAnswer(s, deny, flags);
    FundingFlagsAreTrue(TraceIn(s), c.chain, c.deny, c.wallet, c.budgets);
  }

  lemma ExposureOfFlags(s: Signals, c: Collection, deny: seq<LabelEntry>, flags: seq<Flag>)
    requires ActivityReported(s, c)
    requires flags == SignalFlags(s) + LabelFlags(deny)
    ensures ExposureIsTrue(flags, c)
  {
    ExposureFlagsInAnswer(s, deny, flags);
    ExposureIsCounted(s, c);
  }

  lemma BehaviourOfFlags(s: Signals, c: Collection, deny: seq<LabelEntry>, flags: seq<Flag>)
    requires TimesReported(s, c) && BalancesReported(s, c)
    requires flags == SignalFlags(s) + LabelFlags(deny)
    ensures BehaviourIsTrue(flags, s, c)
  {
    BehaviourFlagsInAnswer(s, deny, flags);
    FreshFundedExactlyWhen(s, c);
    DustPatternExactlyWhen(s, c);
    DormantExactlyWhen(s, c);
    if Dormant in BehaviourFlags(s) && NewestFirst(c.History()) {
      DormantIsTrue(s, c);
    }
  }

  /** Every flag of an answer speaks of the ledger. */
  ghost predicate FlagsAreTrue(flags: seq<Flag>, s: Signals, c: Collection) {
    && ProvenanceIsTrue(flags, c.Trace().fundingChain, c.deny)
    && ExposureIsTrue(flags, c)
    && BehaviourIsTrue(flags, s, c)
  }

  lemma ReportedFlagsAreTrue(s: Signals, c: Collection, deny: seq<LabelEntry>, flags: seq<Flag>)
    requires CollectedIn(s, c)
    requires flags == SignalFlags(s) + LabelFlags(deny)
    ensures FlagsAreTrue(flags, s, c)
  {
    ProvenanceOfFlags(s, c, deny, flags);
    ExposureOfFlags(s, c, deny, flags);
    BehaviourOfFlags(s, c, deny, flags);
  }

  /** BLOCK and ALLOW, as far as the answer itself shows. */
  ghost predicate VerdictIsTrue(r: RiskResult, verdict: Recommendation, h: seq<SigInfo>) {
    && (verdict == BLOCK <==> (exists e | e in r.labels :: e.weight > 0) || r.riskScore >= 75)
    && (verdict == ALLOW ==> |h| >= 100 && r.riskScore < 25)
  }

  lemma ReportedVerdictIsTrue(s: Signals, h: seq<SigInfo>, r: RiskResult, deny: seq<LabelEntry>, allow: seq<LabelEntry>)
    requires CountsAgree(s, h)
    requires r.riskScore == Clamped(RawScore(s, deny, allow)) && r.labels == deny + allow
    ensures VerdictIsTrue(r, WalletVerdict(s, deny, allow), h)
  {
    AllowedOnCounts(s, h, deny, allow);
    BlockedExactlyWhen(s, deny, allow);
  }

  method Judge(s: Signals, wallet: Address, deny: LabelIndex, allow: LabelIndex, ghost h: seq<SigInfo>)
    returns (r: RiskResult, verdict: Recommendation)
    requires CountsAgree(s, h)
    ensures r.signals == s && r.flags == SignalFlags(s) + LabelFlags(Lookup(deny, wallet))
    ensures VerdictIsTrue(r, verdict, h)
  {
    r := ScoreWallet(s, deny, allow, wallet);
    verdict := RecommendationFrom(r.riskBand, exists e | e in r.labels :: e.weight > 0, r.signalQuality);
    ReportedVerdictIsTrue(s, h, r, Lookup(deny, wallet), Lookup(allow, wallet));
  }

  /** Score and recommend, on the record of a collection. */
  method JudgeCollected(s: Signals, wallet: Address, deny: LabelIndex, allow: LabelIndex, ghost c: Collection)
    returns (r: RiskResult, verdict: Recommendation)
    requires CollectedIn(s, c)
    ensures r.signals == s && FlagsAreTrue(r.flags, s, c) && VerdictIsTrue(r, verdict, c.History())
  {
    CountsOfTimes(s, c);
    r, verdict := Judge(s, wallet, deny, allow, c.History());
    ReportedFlagsAreTrue(s, c, Lookup(deny, wallet), r.flags);
  }

  /** Collect, score, recommend. `run` is the ghost record of what was collected. */
  method AssessWallet(
    rpc: RpcClient, wallet: Option<Address>, now: int, b: Budgets, parseCap: nat, deny: LabelIndex, allow: LabelIndex)
    returns (r: Result<RiskResult, string>, verdict: Recommendation, ghost run: Collection)
    requires WellFormed(rpc.chain) && b.maxHops >= 1
    modifies rpc
    ensures r.Ok? <==> wallet.Some?
    ensures r.Ok? ==> run.Asks(rpc.chain, wallet.value, now, b, parseCap, deny)
    ensures r.Ok? ==> CollectedIn(r.value.signals, run)
    ensures r.Ok? && rpc.NoneFailed() ==> CompletelyCollectedIn(r.value.signals, run)
    ensures r.Ok? ==> FlagsAreTrue(r.value.flags, r.value.signals, run) && VerdictIsTrue(r.value, verdict, run.History())
    ensures rpc.Spent(AttemptBudget(rpc.Cap(), b, parseCap))
  {
    verdict := BLOCK;
    var collected;
    collected, run := CollectChainSignals(rpc, wallet, now, b, parseCap, deny);
    if collected.Err? {
      return Err(collected.error), verdict, run;
    }
    var result;
    result, verdict := JudgeCollected(collected.value, wallet.value, deny, allow, run);
    r := Ok(result);
  }
}
