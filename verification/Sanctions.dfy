/** How far deny labels decide the band, and a ledger on which the bound is met. */
module Sanctions {
  import opened Prelude
  import opened Bands
  import opened Labels
  import opened Ledger
  import opened Retry
  import opened Funding
  import opened ChainSignals
  import opened WalletScoring
  import opened Assessment
  import Activity

  predicate IsCritical(s: Signals, deny: seq<LabelEntry>, allow: seq<LabelEntry>) {
    BandOf(Clamped(RawScore(s, deny, allow))) == CRITICAL
  }

  // ----- A ledger with a spotless wallet -----

  /** Who and what appears on the witness ledger: six addresses and eleven signatures. */
  datatype Names = Names(strangers: seq<Address>, sigs: seq<Signature>) {
    /** All different, none of them the wallet or on the deny list. */
    ghost predicate Suit(deny: LabelIndex, wallet: Address) {
      && Distinct(strangers) && Distinct(sigs)
      && wallet !in strangers && forall a | a in strangers :: a !in deny
    }
  }

  type Cast = names: Names | |names.strangers| == 6 && |names.sigs| == 11
    witness Names(seq(6, _ => ""), seq(11, _ => ""))

  function SigAt(cast: Cast, i: nat, now: int): SigInfo
    requires i < 11
  {
    SigInfo(cast.sigs[i], Some(if i < 10 then now else now - 149 * DAY))
  }

  /** Ten transactions today, and one 149 days ago. */
  function SpotlessHistory(cast: Cast, now: int): seq<SigInfo>
  {
    seq(11, i requires 0 <= i < 11 => SigAt(cast, i, now))
  }

  /** A stranger pays the wallet and four others through a program. */
  function Payment(wallet: Address, cast: Cast): TxView {
    TxView(
      [wallet] + cast.strangers,
      [0, 9, 0, 0, 0, 0, 1],
      [1, 4, 1, 1, 1, 1, 1],
      [6])
  }

  const ENOUGH: U64 := 10_000_000

  function SpotlessChain(wallet: Address, cast: Cast, now: int): Chain {
    Chain(
      (a: Address) => if a == wallet then SpotlessHistory(cast, now) else [],
      (sig: Signature) => Some(Payment(wallet, cast)),
      (a: Address) => ENOUGH,
      (a: Address) => 0)
  }

  /** The best-looking record: all the deductions there can be, nothing flagged. */
  function Spotless(cast: Cast, now: int, parseCap: nat): Signals {
    var measured := parseCap > 0;
    Signals(149, 11, 10, if measured then Some(5) else None, ENOUGH, 0, true, if measured then Some(1) else None, false,
            TracedClean, Some(cast.strangers[0]), [], [FundingHop(cast.strangers[0], 1, [])], [],
            now - 149 * DAY, now, !measured, 1)
  }

  lemma SpotlessScore(cast: Cast, now: int, parseCap: nat, deny: seq<LabelEntry>, allow: seq<LabelEntry>)
    ensures RawScore(Spotless(cast, now, parseCap), deny, allow)
      == Weights(deny) + Weights(allow) - if parseCap > 0 then 25 else 15
  {
    var s := Spotless(cast, now, parseCap);
    FundingContribution(TraceIn(s));
    assert SignalFlags(s) == FundingFlags(TraceIn(s));
  }

  lemma SpotlessCounts(cast: Cast, t: int, now: int)
    requires now - 149 * DAY < t <= now
    ensures CountIf(Since(t), SpotlessHistory(cast, now)) == 10
  {
    var h, p := SpotlessHistory(cast, now), Since(t);
    assert h == h[..10] + h[10..];
    CountIfConcat(p, h[..10], h[10..]);
    CountIfAll(p, h[..10]);
    CountIfBounds(p, h[10..]);
  }

  lemma SpotlessTimes(cast: Cast, now: int)
    requires now > 149 * DAY
    ensures Aggregated(SpotlessHistory(cast, now), now, now - 149 * DAY, now, 10, true)
  {
    var h := SpotlessHistory(cast, now);
    SpotlessCounts(cast, now - 30 * DAY, now);
    SpotlessCounts(cast, now - 48 * 3600, now);
    assert h[0] == SigAt(cast, 0, now) && h[10] == SigAt(cast, 10, now);
    assert h[0] in h && h[10] in h;
    FirstOfPositive(h, now - 149 * DAY);
  }

  lemma SpotlessRecent(cast: Cast, now: int)
    ensures RecentSignatures(SpotlessHistory(cast, now), now) != []
  {
    var h, p := SpotlessHistory(cast, now), Since(now - 30 * DAY);
    assert h[0] == SigAt(cast, 0, now);
    assert h[0] in h && p(h[0]);
    FilterMembers(p, h);
    FlatMapEmpty(SignatureOf(), Filter(p, h));
    assert SignatureOf()(h[0]) != [];
  }

  lemma PaymentFunder(wallet: Address, cast: Cast)
    requires wallet !in cast.strangers && Distinct(cast.strangers)
    ensures FunderOfTx(Some(Payment(wallet, cast)), wallet) == Some(cast.strangers[0])
  {
    var tx := Payment(wallet, cast);
    assert GainedAt(tx, wallet, 0) && BiggestLoser(tx, 0, 1);
    FunderIsUnique(tx, wallet, 1);
  }

  /** Who moved lamports, when the last of seven different accounts is the program. */
  lemma FiveMoved(tx: TxView)
    requires Distinct(tx.keys) && |tx.keys| == 7 && tx.programs == [6] && Aligned(tx)
    requires forall i | 0 <= i < 7 :: tx.pre[i] == tx.post[i] <==> i == 6
    ensures |Activity.ProgramsOf(tx)| == 1
    ensures Activity.CounterpartiesOf(tx, tx.keys[0]) == set a | a in tx.keys[1..6]
    ensures |Activity.CounterpartiesOf(tx, tx.keys[0])| == 5
  {
    assert tx.programs[0] == 6 && 6 in tx.programs;
    assert Activity.ProgramsOf(tx) == {tx.keys[6]};
    DistinctSize(tx.keys[1..6]);
    MovedAreTheFive(tx);
  }

  lemma MovedAreTheFive(tx: TxView)
    requires Distinct(tx.keys) && |tx.keys| == 7 && Activity.ProgramsOf(tx) == {tx.keys[6]} && Aligned(tx)
    requires forall i | 0 <= i < 7 :: tx.pre[i] == tx.post[i] <==> i == 6
    ensures Activity.CounterpartiesOf(tx, tx.keys[0]) == set a | a in tx.keys[1..6]
  {
    forall i | 1 <= i < 6
      ensures tx.keys[i] in Activity.CounterpartiesOf(tx, tx.keys[0])
    {
    }
  }

  lemma PaymentKeysDiffer(wallet: Address, cast: Cast)
    requires wallet !in cast.strangers && Distinct(cast.strangers)
    ensures Distinct(Payment(wallet, cast).keys)
    ensures Payment(wallet, cast).keys[1..] == cast.strangers
  {
    assert forall i | 1 <= i < 7 :: Payment(wallet, cast).keys[i] == cast.strangers[i - 1];
  }

  lemma SpotlessTrace(deny: LabelIndex, wallet: Address, cast: Cast, now: int, b: Budgets)
    requires cast.Suit(deny, wallet) && b.sigPages >= 1 && b.maxHops >= 1
    ensures IdealTrace(SpotlessChain(wallet, cast, now), deny, wallet, b)
      == FundingTrace(Some(cast.strangers[0]), [], [FundingHop(cast.strangers[0], 1, [])], TracedClean, true)
  {
    var chain, funder := SpotlessChain(wallet, cast, now), cast.strangers[0];
    PaymentFunder(wallet, cast);
    LabelledIffListed(deny, funder);
    assert chain.history(funder) == [];
    var link, labels := FunderLink(chain, b.hopPages), DenyLabelling(deny);
    assert labels(funder) == [] && link(funder) == None;
    assert ChainFrom(link, labels, funder, 1, b.maxHops) == [FundingHop(funder, 1, [])];
  }

  /** The collection in which every call succeeds. */
  function SpotlessRun(deny: LabelIndex, wallet: Address, cast: Cast, now: int, b: Budgets, parseCap: nat): Collection {
    var recent := RecentSignatures(SpotlessHistory(cast, now), now);
    Collection(
      SpotlessChain(wallet, cast, now), wallet, now, b, parseCap, deny, SpotlessHistory(cast, now),
      seq(Min(parseCap, |recent|), _ => Fetched(Some(Payment(wallet, cast)))))
  }

  /** All the fetches of a window return the same transaction. */
  lemma OneTransactionOnly(outcomes: seq<TxFetch>, tx: TxView, wallet: Address)
    requires outcomes != [] && Aligned(tx) && forall o | o in outcomes :: o == Fetched(Some(tx))
    ensures Activity.AllCounterparties(outcomes, wallet) == Activity.CounterpartiesOf(tx, wallet)
    ensures Activity.AllPrograms(outcomes) == Activity.ProgramsOf(tx)
  {
    assert outcomes[0] in outcomes;
  }

  lemma NobodyListed(deny: LabelIndex, addresses: set<Address>)
    requires forall a | a in addresses :: a !in deny
    ensures Activity.OneHitPerPair(deny, addresses, [])
  {
    assert Activity.DenyPairs(deny, addresses) == {};
  }

  lemma SpotlessActivity(deny: LabelIndex, wallet: Address, cast: Cast, now: int, b: Budgets, parseCap: nat)
    requires cast.Suit(deny, wallet)
    ensures ActivityReported(Spotless(cast, now, parseCap), SpotlessRun(deny, wallet, cast, now, b, parseCap))
  {
    var c, tx := SpotlessRun(deny, wallet, cast, now, b, parseCap), Payment(wallet, cast);
    SpotlessRecent(cast, now);
    PaymentKeysDiffer(wallet, cast);
    FiveMoved(tx);
    if parseCap > 0 {
      OneTransactionOnly(c.outcomes, tx, wallet);
      assert c.outcomes[0] in c.outcomes;
    }
    NobodyListed(deny, c.Counterparties());
  }

  lemma SpotlessTimesReported(deny: LabelIndex, wallet: Address, cast: Cast, now: int, b: Budgets, parseCap: nat)
    requires Distinct(cast.sigs) && now > 149 * DAY && b.sigPages >= 1
    ensures TimesReported(Spotless(cast, now, parseCap), SpotlessRun(deny, wallet, cast, now, b, parseCap))
    ensures WellFormed(SpotlessChain(wallet, cast, now))
  {
    SpotlessTimes(cast, now);
  }

  lemma SpotlessTraceReported(deny: LabelIndex, wallet: Address, cast: Cast, now: int, b: Budgets, parseCap: nat)
    requires cast.Suit(deny, wallet) && b.sigPages >= 1 && b.maxHops >= 1
    ensures TraceReported(Spotless(cast, now, parseCap), SpotlessRun(deny, wallet, cast, now, b, parseCap))
    ensures TraceIn(Spotless(cast, now, parseCap)) == SpotlessRun(deny, wallet, cast, now, b, parseCap).Trace()
  {
    SpotlessTrace(deny, wallet, cast, now, b);
  }

  lemma SpotlessRepliesAreComplete(deny: LabelIndex, wallet: Address, cast: Cast, now: int, b: Budgets, parseCap: nat)
    requires b.sigPages >= 1
    ensures
      var s, c := Spotless(cast, now, parseCap), SpotlessRun(deny, wallet, cast, now, b, parseCap);
      && BalancesReported(s, c)
      && s.sigPagesFetched == PagesFor(c.History(), c.budgets.sigPages)
      && (forall o | o in c.outcomes :: o.Fetched?)
      && s.solBalanceLamports == c.chain.balance(c.wallet)
      && s.splAccountCount == c.chain.tokenAccounts(c.wallet)
  {
  }

  lemma SpotlessIsCollected(deny: LabelIndex, wallet: Address, cast: Cast, now: int, b: Budgets, parseCap: nat)
    requires cast.Suit(deny, wallet) && now > 149 * DAY
    requires b.sigPages >= 1 && b.maxHops >= 1
    ensures CompletelyCollectedIn(Spotless(cast, now, parseCap), SpotlessRun(deny, wallet, cast, now, b, parseCap))
  {
    SpotlessTimesReported(deny, wallet, cast, now, b, parseCap);
    SpotlessTraceReported(deny, wallet, cast, now, b, parseCap);
    SpotlessActivity(deny, wallet, cast, now, b, parseCap);
    SpotlessRepliesAreComplete(deny, wallet, cast, now, b, parseCap);
  }

  /** The collector really returns the spotless record, for any lists, wallet and time, when it reads and parses at all. */
  method CollectSpotless(deny: LabelIndex, wallet: Address, cast: Cast, now: int, b: Budgets, parseCap: nat, policy: RetryPolicy)
    returns (r: Result<Signals, string>)
    requires cast.Suit(deny, wallet) && now > 149 * DAY
    requires b.sigPages >= 1 && b.maxHops >= 1
    ensures r == Ok(Spotless(cast, now, parseCap))
  {
    var chain := SpotlessChain(wallet, cast, now);
    var rpc := new RpcClient(chain, policy, (request: nat) => (attempt: nat) => Attempt(Ok(()), 0, 0, 0));
    SpotlessIsCollected(deny, wallet, cast, now, b, parseCap);
    ghost var run;
    r, run := CollectChainSignals(rpc, Some(wallet), now, b, parseCap, deny);
    CollectionIsDetermined(Spotless(cast, now, parseCap), SpotlessRun(deny, wallet, cast, now, b, parseCap), r.value, run);
  }

  // ----- A wallet of which nothing is read -----

  /** With no page budget the collector sees an empty, untraced history. */
  function Unread(): Signals {
    Signals(0, 0, 0, None, ENOUGH, 0, false, None, true, PartialHistory, None, [], [], [], 0, 0, true, 0)
  }

  function UnreadRun(deny: LabelIndex, wallet: Address, now: int, b: Budgets, parseCap: nat): Collection {
    var chain := Chain((a: Address) => [], (sig: Signature) => None, (a: Address) => ENOUGH, (a: Address) => 0);
    Collection(chain, wallet, now, b, parseCap, deny, [], [])
  }

  lemma UnreadIsReportable(deny: LabelIndex, wallet: Address, now: int, b: Budgets, parseCap: nat)
    requires b.sigPages == 0 && b.maxHops >= 1
    ensures Reportable(Unread(), deny, wallet, now, b, parseCap)
  {
    var c := UnreadRun(deny, wallet, now, b, parseCap);
    FirstOfPositive([], 0);
    NobodyListed(deny, {});
    assert c.Counterparties() == {};
    assert Activity.AllPrograms([]) == {};
    assert CompletelyCollectedIn(Unread(), c);
    assert c.Asks(c.chain, wallet, now, b, parseCap, deny);
  }

  lemma UnreadScore(s: Signals, deny: seq<LabelEntry>, allow: seq<LabelEntry>)
    requires s.ageDays == 0 && s.txCount30d == 0 && s.isFreshFunded
    requires s.fundingSourceRisk == PartialHistory && TraceShape(TraceIn(s))
    ensures RawScore(s, deny, allow) == Weights(deny) + Weights(allow) + 30 + FlagPoints(ExposureFlags(s))
  {
    BehaviourPoints(s);
    FundingContribution(TraceIn(s));
    FlagPointsOfThree(BehaviourFlags(s), FundingFlags(TraceIn(s)), ExposureFlags(s));
  }

  // ----- What labels decide -----

  /** Some ledger makes the collector report s when nothing fails. */
  ghost predicate Reportable(s: Signals, deny: LabelIndex, wallet: Address, now: int, b: Budgets, parseCap: nat) {
    exists c ::
      && CompletelyCollectedIn(s, c)
      && c.Asks(c.chain, wallet, now, b, parseCap, deny)
  }

  /**
   * The least that anything but labels adds to a score: the deductions for age and for measured
   * activity, or, when no page may be read, the points for a fresh and untraced wallet.
   */
  function LeastAdded(b: Budgets, parseCap: nat): int {
    if b.sigPages == 0 then 30 else if parseCap == 0 then -15 else -25
  }

  lemma NeverLess(s: Signals, c: Collection, deny: seq<LabelEntry>, allow: seq<LabelEntry>)
    requires CollectedIn(s, c)
    ensures RawScore(s, deny, allow) >= Weights(deny) + Weights(allow) + LeastAdded(c.budgets, c.parseCap)
  {
    if c.budgets.sigPages == 0 {
      assert c.sigs == [];
      UnreadScore(s, deny, allow);
    } else if c.parseCap == 0 {
      assert c.outcomes == [];
    }
    Deducted(s, deny, allow);
  }

  lemma Deducted(s: Signals, deny: seq<LabelEntry>, allow: seq<LabelEntry>)
    ensures RawScore(s, deny, allow) >= Weights(deny) + Weights(allow) - 25
    ensures s.counterpartyMetricsEstimated ==> RawScore(s, deny, allow) >= Weights(deny) + Weights(allow) - 15
  {
  }

  lemma CriticalFrom75(s: Signals, deny: seq<LabelEntry>, allow: seq<LabelEntry>)
    ensures IsCritical(s, deny, allow) <==> RawScore(s, deny, allow) >= 75
  {
  }

  lemma SpotlessIsReportable(deny: LabelIndex, wallet: Address, cast: Cast, now: int, b: Budgets, parseCap: nat)
    requires cast.Suit(deny, wallet) && now > 149 * DAY
    requires b.sigPages >= 1 && b.maxHops >= 1
    ensures Reportable(Spotless(cast, now, parseCap), deny, wallet, now, b, parseCap)
  {
    SpotlessIsCollected(deny, wallet, cast, now, b, parseCap);
    assert SpotlessRun(deny, wallet, cast, now, b, parseCap).Asks(SpotlessChain(wallet, cast, now), wallet, now, b, parseCap, deny);
  }

  /** The least is reached: on some ledger, when nothing fails. */
  lemma LeastIsReached(
    deny: LabelIndex, wallet: Address, d: seq<LabelEntry>, a: seq<LabelEntry>, now: int, b: Budgets, parseCap: nat, cast: Cast)
    returns (s: Signals)
    requires now > 149 * DAY && b.maxHops >= 1 && cast.Suit(deny, wallet)
    ensures Reportable(s, deny, wallet, now, b, parseCap)
    ensures RawScore(s, d, a) == Weights(d) + Weights(a) + LeastAdded(b, parseCap)
  {
    if b.sigPages == 0 {
      UnreadScore(Unread(), d, a);
      UnreadIsReportable(deny, wallet, now, b, parseCap);
      s := Unread();
    } else {
      SpotlessScore(cast, now, parseCap, d, a);
      SpotlessIsReportable(deny, wallet, cast, now, b, parseCap);
      s := Spotless(cast, now, parseCap);
    }
  }

  /** Heavy enough labels make any record CRITICAL, whatever failed while it was collected. */
  lemma HeavyLabelsAreCritical(s: Signals, c: Collection, deny: seq<LabelEntry>, allow: seq<LabelEntry>)
    requires CollectedIn(s, c)
    requires Weights(deny) + Weights(allow) + LeastAdded(c.budgets, c.parseCap) >= 75
    ensures IsCritical(s, deny, allow)
  {
    NeverLess(s, c, deny, allow);
    CriticalFrom75(s, deny, allow);
  }

  /**
   * Labels force CRITICAL, whatever the chain holds, exactly when deny and allow weights together
   * reach a threshold: 100, or 90 when no transaction is parsed, or 45 when no page is read.
   */
  lemma LabelsForceCriticalIff(
    deny: LabelIndex, allow: LabelIndex, wallet: Address, now: int, b: Budgets, parseCap: nat, cast: Cast)
    requires now > 149 * DAY && b.maxHops >= 1 && cast.Suit(deny, wallet)
    ensures
      (forall s | Reportable(s, deny, wallet, now, b, parseCap) :: IsCritical(s, Lookup(deny, wallet), Lookup(allow, wallet)))
      <==> Weights(Lookup(deny, wallet)) + Weights(Lookup(allow, wallet)) >= 75 - LeastAdded(b, parseCap)
  {
    var d, a := Lookup(deny, wallet), Lookup(allow, wallet);
    if Weights(d) + Weights(a) >= 75 - LeastAdded(b, parseCap) {
      forall s | Reportable(s, deny, wallet, now, b, parseCap)
        ensures IsCritical(s, d, a)
      {
        var c :| CompletelyCollectedIn(s, c) && c.Asks(c.chain, wallet, now, b, parseCap, deny);
        HeavyLabelsAreCritical(s, c, d, a);
      }
    } else {
      var s := LeastIsReached(deny, wallet, d, a, now, b, parseCap, cast);
      CriticalFrom75(s, d, a);
    }
  }

  /**
   * The documented promise for weight 100 fails for every wallet that an allow entry also names: on
   * some ledger its score before clamping is 75 less the allow weight. It is still blocked.
   */
  lemma SanctionedButNotCritical(
    deny: LabelIndex, allow: LabelIndex, wallet: Address, d: LabelEntry, a: LabelEntry, now: int, b: Budgets, parseCap: nat,
    cast: Cast)
    returns (s: Signals)
    requires cast.Suit(deny, wallet)
    requires Lookup(deny, wallet) == [d] && d.weight == 100
    requires Lookup(allow, wallet) == [a] && a.weight < 0
    requires now > 149 * DAY && b.sigPages >= 1 && b.maxHops >= 1 && parseCap >= 1
    ensures Reportable(s, deny, wallet, now, b, parseCap)
    ensures RawScore(s, [d], [a]) == 75 + a.weight
    ensures !IsCritical(s, [d], [a])
    ensures WalletVerdict(s, [d], [a]) == BLOCK
  {
    OneEntry(d);
    OneEntry(a);
    s := LeastIsReached(deny, wallet, [d], [a], now, b, parseCap, cast);
    CriticalFrom75(s, [d], [a]);
    PositiveLabelBlocks(s, [d], [a], d);
  }

  lemma PositiveLabelBlocks(s: Signals, deny: seq<LabelEntry>, allow: seq<LabelEntry>, e: LabelEntry)
    requires e in deny && e.weight > 0
    ensures WalletVerdict(s, deny, allow) == BLOCK
  {
    assert e in deny + allow;
  }

  lemma OneEntry(e: LabelEntry)
    ensures Weights([e]) == e.weight
  {
    assert [e][..0] == [];
  }
}
