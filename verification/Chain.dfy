/** Everything collected about a wallet before it is scored. */
module ChainSignals {
  import opened Prelude
  import opened Labels
  import opened Ledger
  import opened Funding
  import Activity

  datatype Signals = Signals(
    ageDays: nat,
    txCountTotal: nat,
    txCount30d: nat,
    uniqueCounterparties30d: Option<nat>,
    solBalanceLamports: nat,
    splAccountCount: nat,
    hasActivity48h: bool,
    programDiversity30d: Option<nat>,
    isFreshFunded: bool,
    fundingSourceRisk: Classification,
    funder: Option<Address>,
    funderLabels: seq<TxLabelHit>,
    fundingChain: seq<FundingHop>,
    counterpartyLabels: seq<TxLabelHit>,
    firstSeenTs: int,
    latestTxTs: int,
    counterpartyMetricsEstimated: bool,
    sigPagesFetched: nat)

  function TraceIn(s: Signals): FundingTrace {
    FundingTrace(s.funder, s.funderLabels, s.fundingChain, s.fundingSourceRisk, s.fundingSourceRisk != PartialHistory)
  }

  // ----- Paging through the wallet's history -----

  method CollectSignatures(rpc: RpcClient, wallet: Address, maxPages: nat)
    returns (allSigs: seq<SigInfo>, pagesFetched: nat, reachedGenesis: bool)
    requires WellFormed(rpc.chain)
    modifies rpc
    ensures Paged(rpc.chain.history(wallet), allSigs, pagesFetched, maxPages)
    ensures reachedGenesis <==> |allSigs| < PAGE * pagesFetched
    ensures reachedGenesis ==> allSigs == rpc.chain.history(wallet)
    ensures rpc.NoneFailed() ==> pagesFetched == PagesFor(rpc.chain.history(wallet), maxPages)
    ensures rpc.NoneFailed() ==> (reachedGenesis <==> |rpc.chain.history(wallet)| < PAGE * maxPages)
    ensures rpc.Spent(Cost(rpc.Cap(), maxPages))
  {
    ghost var h := rpc.chain.history(wallet);
    assert DistinctSignatures(h);
    allSigs, pagesFetched, reachedGenesis := [], 0, false;
    var before: Option<Signature> := None;
    while pagesFetched < maxPages
      invariant pagesFetched <= maxPages && !reachedGenesis
      invariant |allSigs| == PAGE * pagesFetched <= |h| && allSigs == h[..|allSigs|]
      invariant before == CursorAt(h, |allSigs|)
      invariant rpc.Spent(Cost(rpc.Cap(), pagesFetched)) && rpc.NoneFailed()
    {
      PageAppended(h, |allSigs|);
      CostGrows(rpc.Cap(), pagesFetched + 1, maxPages);
      var reply := rpc.GetSignatures(wallet, before);
      if reply == None {
        return;
      }
      var sigs := reply.value;
      pagesFetched := pagesFetched + 1;
      if sigs != [] {
        before := Some(sigs[|sigs| - 1].signature);
      }
      allSigs := allSigs + sigs;
      if |sigs| < PAGE {
        reachedGenesis := true;
        break;
      }
    }
  }

  /** Pages it takes to see the end of a history, a history of exactly n pages taking n + 1. */
  function PagesFor(h: seq<SigInfo>, maxPages: nat): nat {
    Min(maxPages, |h| / PAGE + 1)
  }

  /** What `pages` successful page reads, the last of them short or not, leave of a history. */
  ghost predicate Paged(h: seq<SigInfo>, sigs: seq<SigInfo>, pages: nat, maxPages: nat) {
    && sigs <= h && |sigs| == Min(|h|, PAGE * pages)
    && pages <= PagesFor(h, maxPages)
  }

  // ----- Activity over time -----

  function Since(t: int): SigInfo -> bool {
    (s: SigInfo) => s.blockTime.Some? && s.blockTime.value >= t
  }

  const DAY: int := 86400

  /** `latest` is the highest block time, or 0 when none is positive. */
  ghost predicate IsLatest(sigs: seq<SigInfo>, latest: int) {
    && latest >= 0
    && (forall s | s in sigs && s.blockTime.Some? :: s.blockTime.value <= latest)
    && (latest == 0 || exists s | s in sigs :: s.blockTime == Some(latest))
  }

  ghost predicate PositiveTimes(sigs: seq<SigInfo>) {
    forall s | s in sigs && s.blockTime.Some? :: s.blockTime.value > 0
  }

  /** `first` is the lowest block time. */
  ghost predicate IsLowest(sigs: seq<SigInfo>, first: int) {
    && (forall s | s in sigs && s.blockTime.Some? :: first <= s.blockTime.value)
    && exists s | s in sigs :: s.blockTime == Some(first)
  }

  /** Every block time is positive, and `first` is the lowest, or 0 when there is none. */
  ghost predicate IsLowestPositive(sigs: seq<SigInfo>, first: int) {
    && PositiveTimes(sigs)
    && if first == 0 then forall s | s in sigs :: s.blockTime == None else IsLowest(sigs, first)
  }

  /** Position k is the start, or follows a block time of 0. */
  predicate StartsAfresh(sigs: seq<SigInfo>, k: nat) {
    k <= |sigs| && (k > 0 ==> sigs[k - 1].blockTime == Some(0))
  }

  /**
   * `first` is the lowest block time, or 0 when there is none. The code holds "none yet" as 0, so a
   * block time of 0 makes it forget the later ones, unless it knows a negative one.
   */
  ghost predicate IsFirst(sigs: seq<SigInfo>, first: int) {
    if first < 0 then IsLowest(sigs, first)
    else
      && (forall s | s in sigs && s.blockTime.Some? :: s.blockTime.value >= 0)
      && exists k: nat :: StartsAfresh(sigs, k) && IsLowestPositive(sigs[k..], first)
  }

  lemma FirstIsUnique(sigs: seq<SigInfo>, first: int, other: int)
    requires IsFirst(sigs, first) && IsFirst(sigs, other)
    ensures first == other
  {
    if first >= 0 && other >= 0 {
      var k: nat :| StartsAfresh(sigs, k) && IsLowestPositive(sigs[k..], first);
      var j: nat :| StartsAfresh(sigs, j) && IsLowestPositive(sigs[j..], other);
      NoRestartWithin(sigs, k, j);
      NoRestartWithin(sigs, j, k);
    }
  }

  lemma NoRestartWithin(sigs: seq<SigInfo>, k: nat, j: nat)
    requires k <= |sigs| && StartsAfresh(sigs, j)
    ensures PositiveTimes(sigs[k..]) ==> j <= k
  {
    if j > k {
      assert sigs[k..][j - 1 - k] == sigs[j - 1];
    }
  }

  /** On a chain that began after 1970 it is simply the lowest. */
  lemma FirstOfPositive(sigs: seq<SigInfo>, first: int)
    requires PositiveTimes(sigs)
    ensures IsFirst(sigs, first) <==> IsLowestPositive(sigs, first)
  {
    assert sigs[0..] == sigs;
    if first >= 0 && IsFirst(sigs, first) {
      var k: nat :| StartsAfresh(sigs, k) && IsLowestPositive(sigs[k..], first);
      NoRestartWithin(sigs, 0, k);
    }
    if IsLowestPositive(sigs, first) {
      assert StartsAfresh(sigs, 0);
    }
  }

  /**
   * First and last block time, how many signatures fall in the last 30 days, and whether any falls
   * in the last 48 hours.
   */
  ghost predicate Aggregated(sigs: seq<SigInfo>, now: int, first: int, latest: int, count30d: nat, active48h: bool) {
    && count30d == CountIf(Since(now - 30 * DAY), sigs)
    && (active48h <==> CountIf(Since(now - 48 * 3600), sigs) > 0)
    && IsLatest(sigs, latest)
    && IsFirst(sigs, first)
  }

  lemma OneMoreLatest(sigs: seq<SigInfo>, sig: SigInfo, latest: int)
    requires IsLatest(sigs, latest)
    ensures
      var bt := if sig.blockTime.Some? then sig.blockTime.value else latest;
      IsLatest(sigs + [sig], if bt > latest then bt else latest)
  {
    assert forall s :: s in sigs + [sig] <==> s in sigs || s == sig;
  }

  /** The update of the first time by one signature. */
  function FirstWith(first: int, sig: SigInfo): int {
    if sig.blockTime.Some? && (first == 0 || sig.blockTime.value < first) then sig.blockTime.value else first
  }

  lemma OneMoreLowest(sigs: seq<SigInfo>, sig: SigInfo, first: int)
    requires IsLowestPositive(sigs, first) && (sig.blockTime.Some? ==> sig.blockTime.value > 0)
    ensures IsLowestPositive(sigs + [sig], FirstWith(first, sig))
  {
    assert forall s :: s in sigs + [sig] <==> s in sigs || s == sig;
    if first != 0 {
      var s :| s in sigs && s.blockTime == Some(first);
      assert s in sigs + [sig];
    }
    assert sig in sigs + [sig];
  }

  lemma OneMoreFirst(sigs: seq<SigInfo>, sig: SigInfo, first: int)
    requires IsFirst(sigs, first)
    ensures IsFirst(sigs + [sig], FirstWith(first, sig))
  {
    var more := sigs + [sig];
    assert forall s :: s in more <==> s in sigs || s == sig;
    if first < 0 {
      var s :| s in sigs && s.blockTime == Some(first);
      assert s in more;
    } else if sig.blockTime.Some? && sig.blockTime.value < 0 {
      assert sig in more;
    } else if sig.blockTime == Some(0) {
      assert more[|more|..] == [];
      assert StartsAfresh(more, |more|) && IsLowestPositive(more[|more|..], 0);
    } else {
      var k: nat :| StartsAfresh(sigs, k) && IsLowestPositive(sigs[k..], first);
      OneMoreLowest(sigs[k..], sig, first);
      assert more[k..] == sigs[k..] + [sig];
      assert StartsAfresh(more, k);
    }
  }

  /** The first time of a list, the one value that IsFirst describes. */
  function FirstOf(sigs: seq<SigInfo>): (first: int)
    ensures IsFirst(sigs, first)
  {
    if sigs == [] then
      FirstOfPositive([], 0);
      0
    else
      var init, last := sigs[..|sigs| - 1], sigs[|sigs| - 1];
      OneMoreFirst(init, last, FirstOf(init));
      assert sigs == init + [last];
      FirstWith(FirstOf(init), last)
  }

  /** The body of the aggregation loop. */
  method AddTime(ghost sigs: seq<SigInfo>, sig: SigInfo, now: int, firstSeen: int, latest: int, count30d: nat, active48h: bool)
    returns (firstSeen': int, latest': int, count30d': nat, active48h': bool)
    requires Aggregated(sigs, now, firstSeen, latest, count30d, active48h)
    ensures Aggregated(sigs + [sig], now, firstSeen', latest', count30d', active48h')
  {
    CountIfConcat(Since(now - 30 * DAY), sigs, [sig]);
    CountIfConcat(Since(now - 48 * 3600), sigs, [sig]);
    assert [sig][..0] == [];
    OneMoreLatest(sigs, sig, latest);
    OneMoreFirst(sigs, sig, firstSeen);
    firstSeen', latest', count30d', active48h' := firstSeen, latest, count30d, active48h;
    if sig.blockTime.Some? {
      var bt := sig.blockTime.value;
      if firstSeen' == 0 || bt < firstSeen' {
        firstSeen' := bt;
      }
      if bt > latest' {
        latest' := bt;
      }
      if bt >= now - 30 * DAY {
        count30d' := count30d' + 1;
      }
      if bt >= now - 48 * 3600 {
        active48h' := true;
      }
    }
  }

  method AggregateTimes(sigs: seq<SigInfo>, now: int) returns (firstSeen: int, latest: int, count30d: nat, active48h: bool)
    ensures Aggregated(sigs, now, firstSeen, latest, count30d, active48h)
  {
    firstSeen, latest, count30d, active48h := 0, 0, 0, false;
    FirstOfPositive([], 0);
    for i := 0 to |sigs|
      invariant Aggregated(sigs[..i], now, firstSeen, latest, count30d, active48h)
    {
      firstSeen, latest, count30d, active48h :=
        AddTime(sigs[..i], sigs[i], now, firstSeen, latest, count30d, active48h);
      assert sigs[..i + 1] == sigs[..i] + [sigs[i]];
    }
    assert sigs[..|sigs|] == sigs;
  }

  function SignatureOf(): SigInfo -> seq<Signature> {
    (s: SigInfo) => [s.signature]
  }

  function AgeDays(firstSeen: int, now: int): nat {
    if firstSeen > 0 then Max((now - firstSeen) / DAY, 0) else 0
  }

  /**
   * RPC attempts one collection may cost: balance, token accounts, the wallet's pages, its genesis
   * transaction, the further hops, and the parsed transactions, each retried up to `cap` times.
   */
  function AttemptBudget(cap: nat, b: Budgets, parseCap: nat): nat
    requires b.maxHops >= 1
  {
    cap + cap + Cost(cap, b.sigPages) + (cap + HopsCost(cap, b.hopPages, b.maxHops - 1)) + Cost(cap, parseCap)
  }

  /** A * (3 + P + (H - 1) * (Q + 1) + C) */
  lemma AttemptBudgetClosedForm(cap: nat, b: Budgets, parseCap: nat)
    requires b.maxHops >= 1
    ensures AttemptBudget(cap, b, parseCap)
      == cap * (3 + b.sigPages + (b.maxHops - 1) * (b.hopPages + 1) + parseCap)
  {
    var hops := (b.maxHops - 1) * (b.hopPages + 1);
    HopsCostIs(cap, b.hopPages, b.maxHops - 1);
    CostIs(cap, b.sigPages);
    CostIs(cap, parseCap);
    SpendingAddsUp(cap, b.sigPages, hops, parseCap);
  }

  /** The signatures of the last 30 days, newest first. */
  function RecentSignatures(sigs: seq<SigInfo>, now: int): seq<Signature> {
    FlatMap(SignatureOf(), Filter(Since(now - 30 * DAY), sigs))
  }

  // ----- What a collection may report -----

  /** One collection: what was asked of which ledger, and what the calls returned. */
  datatype Collection = Collection(
    chain: Chain,
    wallet: Address,
    now: int,
    budgets: Budgets,
    parseCap: nat,
    deny: LabelIndex,
    sigs: seq<SigInfo>,        // the signatures that paging returned
    outcomes: seq<TxFetch>)    // the fetches of the recent window
  {
    function History(): seq<SigInfo> {
      chain.history(wallet)
    }

    function Recent(): seq<Signature> {
      RecentSignatures(sigs, now)
    }

    ghost function Counterparties(): set<Address> {
      Activity.AllCounterparties(outcomes, wallet)
    }

    ghost function Trace(): FundingTrace {
      IdealTrace(chain, deny, wallet, budgets)
    }

    ghost predicate Asks(chain: Chain, wallet: Address, now: int, budgets: Budgets, parseCap: nat, deny: LabelIndex) {
      && this.chain == chain && this.wallet == wallet && this.now == now
      && this.budgets == budgets && this.parseCap == parseCap && this.deny == deny
    }
  }

  ghost predicate TimesReported(s: Signals, c: Collection) {
    && Paged(c.History(), c.sigs, s.sigPagesFetched, c.budgets.sigPages)
    && s.txCountTotal == |c.sigs|
    && Aggregated(c.sigs, c.now, s.firstSeenTs, s.latestTxTs, s.txCount30d, s.hasActivity48h)
    && s.ageDays == AgeDays(s.firstSeenTs, c.now)
    && s.isFreshFunded == (s.ageDays < 1 && s.txCountTotal < 5)
  }

  /** Provenance is never guessed: it is cut short where a call fails, and never made up. */
  ghost predicate TraceReported(s: Signals, c: Collection) {
    && TraceShape(TraceIn(s))
    && (s.fundingSourceRisk == PartialHistory <==> |c.sigs| == PAGE * s.sigPagesFetched)
    && (s.fundingSourceRisk == NoHistory <==> c.sigs == [] && s.sigPagesFetched > 0)
    && s.fundingChain <= c.Trace().fundingChain
  }

  ghost predicate ActivityReported(s: Signals, c: Collection) {
    && |c.outcomes| == Min(c.parseCap, |c.Recent()|) && Activity.WindowOf(c.chain, c.Recent(), c.outcomes)
    && (s.counterpartyMetricsEstimated <==> forall o | o in c.outcomes :: o.Failed?)
    && s.uniqueCounterparties30d == (if s.counterpartyMetricsEstimated then None else Some(|c.Counterparties()|))
    && s.programDiversity30d == (if s.counterpartyMetricsEstimated then None else Some(|Activity.AllPrograms(c.outcomes)|))
    && Activity.OneHitPerPair(c.deny, c.Counterparties(), s.counterpartyLabels)
  }

  ghost predicate BalancesReported(s: Signals, c: Collection) {
    && (s.solBalanceLamports == c.chain.balance(c.wallet) || s.solBalanceLamports == 0)
    && (s.splAccountCount == c.chain.tokenAccounts(c.wallet) || s.splAccountCount == 0)
  }

  /** What every collection reports, whatever calls failed. */
  ghost predicate CollectedIn(s: Signals, c: Collection) {
    && WellFormed(c.chain) && c.budgets.maxHops >= 1
    && TimesReported(s, c)
    && TraceReported(s, c)
    && ActivityReported(s, c)
    && BalancesReported(s, c)
  }

  /** What a collection reports when every request succeeds, be it after retries. */
  ghost predicate CompletelyCollectedIn(s: Signals, c: Collection) {
    && CollectedIn(s, c)
    && s.sigPagesFetched == PagesFor(c.History(), c.budgets.sigPages)
    && TraceIn(s) == c.Trace()
    && (forall o | o in c.outcomes :: o.Fetched?)
    && s.solBalanceLamports == c.chain.balance(c.wallet)
    && s.splAccountCount == c.chain.tokenAccounts(c.wallet)
  }

  ghost predicate SameQuestion(c: Collection, d: Collection) {
    c.Asks(d.chain, d.wallet, d.now, d.budgets, d.parseCap, d.deny)
  }

  lemma SameWindow(c: Collection, d: Collection)
    requires SameQuestion(c, d) && c.sigs == d.sigs
    requires |c.outcomes| == |d.outcomes| == Min(c.parseCap, |c.Recent()|)
    requires Activity.WindowOf(c.chain, c.Recent(), c.outcomes) && Activity.WindowOf(d.chain, d.Recent(), d.outcomes)
    requires (forall o | o in c.outcomes :: o.Fetched?) && (forall o | o in d.outcomes :: o.Fetched?)
    ensures c.outcomes == d.outcomes
  {
    forall i | 0 <= i < |c.outcomes|
      ensures c.outcomes[i] == d.outcomes[i]
    {
      assert c.outcomes[i] in c.outcomes && d.outcomes[i] in d.outcomes;
    }
  }

  lemma SameTimes(sigs: seq<SigInfo>, now: int, s: Signals, t: Signals)
    requires Aggregated(sigs, now, s.firstSeenTs, s.latestTxTs, s.txCount30d, s.hasActivity48h)
    requires Aggregated(sigs, now, t.firstSeenTs, t.latestTxTs, t.txCount30d, t.hasActivity48h)
    ensures s.firstSeenTs == t.firstSeenTs && s.latestTxTs == t.latestTxTs
    ensures s.txCount30d == t.txCount30d && s.hasActivity48h == t.hasActivity48h
  {
    FirstIsUnique(sigs, s.firstSeenTs, t.firstSeenTs);
  }

  /** The ledger decides a collection in which nothing fails, but for the order of the counterparty hits. */
  lemma CollectionIsDetermined(s: Signals, c: Collection, t: Signals, d: Collection)
    requires CompletelyCollectedIn(s, c) && CompletelyCollectedIn(t, d)
    requires SameQuestion(c, d)
    ensures c == d
    ensures t == s.(counterpartyLabels := t.counterpartyLabels)
    ensures |t.counterpartyLabels| == |s.counterpartyLabels|
    ensures Activity.PairsOf(t.counterpartyLabels) == Activity.PairsOf(s.counterpartyLabels)
  {
    assert c.sigs == d.sigs;
    SameWindow(c, d);
    SameTimes(c.sigs, c.now, s, t);
    Activity.HitsCountPairs(c.deny, c.Counterparties(), s.counterpartyLabels);
    Activity.HitsCountPairs(c.deny, c.Counterparties(), t.counterpartyLabels);
    assert TraceIn(s) == TraceIn(t);
  }

  // ----- The collector -----

  /** The fund-flow step of a collection, on the signatures its paging returned. */
  method TraceWallet(
    rpc: RpcClient, deny: LabelIndex, wallet: Address, allSigs: seq<SigInfo>, reached: bool, b: Budgets)
    returns (t: FundingTrace)
    requires WellFormed(rpc.chain) && b.maxHops >= 1
    requires reached ==> allSigs == rpc.chain.history(wallet) && |allSigs| < PAGE * b.sigPages
    modifies rpc
    ensures TraceShape(t) && (t.classification == PartialHistory <==> !reached)
    ensures t.classification == NoHistory <==> reached && allSigs == []
    ensures t.fundingChain <= IdealTrace(rpc.chain, deny, wallet, b).fundingChain
    ensures rpc.NoneFailed() && (reached <==> |rpc.chain.history(wallet)| < PAGE * b.sigPages)
      ==> t == IdealTrace(rpc.chain, deny, wallet, b)
    ensures rpc.Spent(rpc.Cap() + HopsCost(rpc.Cap(), b.hopPages, b.maxHops - 1))
  {
    var earliest := if reached && allSigs != [] then Some(allSigs[|allSigs| - 1].signature) else None;
    t := TraceFunder(rpc, deny, wallet, earliest, reached, b);
  }

  method MeasureActivity(rpc: RpcClient, wallet: Address, sigs: seq<SigInfo>, now: int, cap: nat, deny: LabelIndex)
    returns (m: Activity.ActivityMetrics, ghost outcomes: seq<TxFetch>)
    modifies rpc
    ensures
      var recent := RecentSignatures(sigs, now);
      |outcomes| == Min(cap, |recent|) && Activity.WindowOf(rpc.chain, recent, outcomes)
    ensures rpc.NoneFailed() ==> forall o | o in outcomes :: o.Fetched?
    ensures m.measured <==> exists o | o in outcomes :: o.Fetched?
    ensures m.uniqueCounterparties == |Activity.AllCounterparties(outcomes, wallet)|
    ensures m.programDiversity == |Activity.AllPrograms(outcomes)|
    ensures Activity.OneHitPerPair(deny, Activity.AllCounterparties(outcomes, wallet), m.counterpartyLabels)
    ensures rpc.Spent(Cost(rpc.Cap(), cap))
  {
    m, outcomes := Activity.AnalyzeRecentActivity(rpc, wallet, RecentSignatures(sigs, now), cap, deny);
    CountIfBounds(Activity.IsFetched(), outcomes);
  }

  lemma SpendingWithin(cap: nat, b: Budgets, parseCap: nat, a0: nat, a1: nat, a2: nat, a3: nat, a4: nat)
    requires b.maxHops >= 1
    requires a1 <= a0 + cap + cap && a2 <= a1 + Cost(cap, b.sigPages)
    requires a3 <= a2 + cap + HopsCost(cap, b.hopPages, b.maxHops - 1) && a4 <= a3 + Cost(cap, parseCap)
    ensures a4 <= a0 + AttemptBudget(cap, b, parseCap)
  {
  }

  function Assemble(
    ageDays: nat, total: nat, count30d: nat, balance: nat, splAccounts: nat, active48h: bool,
    t: FundingTrace, m: Activity.ActivityMetrics, firstSeen: int, latest: int, pages: nat): (s: Signals)
    requires TraceShape(t)
    ensures TraceIn(s) == t
  {
    Signals(
      ageDays, total, count30d,
      if m.measured then Some(m.uniqueCounterparties) else None,
      balance, splAccounts, active48h,
      if m.measured then Some(m.programDiversity) else None,
      ageDays < 1 && total < 5,
      t.classification, t.funder, t.funderLabels, t.fundingChain,
      m.counterpartyLabels, firstSeen, latest, !m.measured, pages)
  }

  lemma AssembledAsReported(
    c: Collection, balance: nat, splAccounts: nat, pages: nat, firstSeen: int, latest: int, count30d: nat, active48h: bool,
    t: FundingTrace, m: Activity.ActivityMetrics)
    requires WellFormed(c.chain) && c.budgets.maxHops >= 1
    requires balance == c.chain.balance(c.wallet) || balance == 0
    requires splAccounts == c.chain.tokenAccounts(c.wallet) || splAccounts == 0
    requires Paged(c.History(), c.sigs, pages, c.budgets.sigPages)
    requires Aggregated(c.sigs, c.now, firstSeen, latest, count30d, active48h)
    requires TraceShape(t) && (t.classification == PartialHistory <==> |c.sigs| == PAGE * pages)
    requires t.classification == NoHistory <==> c.sigs == [] && pages > 0
    requires t.fundingChain <= c.Trace().fundingChain
    requires |c.outcomes| == Min(c.parseCap, |c.Recent()|) && Activity.WindowOf(c.chain, c.Recent(), c.outcomes)
    requires m.measured <==> exists o | o in c.outcomes :: o.Fetched?
    requires m.uniqueCounterparties == |c.Counterparties()| && m.programDiversity == |Activity.AllPrograms(c.outcomes)|
    requires Activity.OneHitPerPair(c.deny, c.Counterparties(), m.counterpartyLabels)
    ensures
      var s := Assemble(AgeDays(firstSeen, c.now), |c.sigs|, count30d, balance, splAccounts, active48h,
                        t, m, firstSeen, latest, pages);
      CollectedIn(s, c)
  {
  }

  /** `run` is the ghost record of what was collected. */
  method CollectChainSignals(rpc: RpcClient, wallet: Option<Address>, now: int, b: Budgets, parseCap: nat, deny: LabelIndex)
    returns (r: Result<Signals, string>, ghost run: Collection)
    requires WellFormed(rpc.chain) && b.maxHops >= 1
    modifies rpc
    ensures r.Ok? <==> wallet.Some?
    ensures r.Ok? ==> run.Asks(rpc.chain, wallet.value, now, b, parseCap, deny)
    ensures r.Ok? ==> CollectedIn(r.value, run)
    ensures r.Ok? && rpc.NoneFailed() ==> CompletelyCollectedIn(r.value, run)
    ensures rpc.Spent(AttemptBudget(rpc.Cap(), b, parseCap))
  {
    run := Collection(rpc.chain, "", now, b, parseCap, deny, [], []);
    if wallet == None {
      return Err("invalid pubkey"), run;
    }
    var pubkey := wallet.value;
    ghost var a0 := rpc.attempts;
    var solBalance := rpc.GetBalance(pubkey);
    var splAccounts := rpc.GetTokenAccountCount(pubkey);
    ghost var a1 := rpc.attempts;
    var allSigs, pages, reached := CollectSignatures(rpc, pubkey, b.sigPages);
    ghost var a2 := rpc.attempts;
    var firstSeen, latest, count30d, active48h := AggregateTimes(allSigs, now);
    var trace := TraceWallet(rpc, deny, pubkey, allSigs, reached, b);
    ghost var a3 := rpc.attempts;
    var activity;
    ghost var outcomes;
    activity, outcomes := MeasureActivity(rpc, pubkey, allSigs, now, parseCap, deny);
    SpendingWithin(rpc.Cap(), b, parseCap, a0, a1, a2, a3, rpc.attempts);
    run := Collection(rpc.chain, pubkey, now, b, parseCap, deny, allSigs, outcomes);
    AssembledAsReported(run, solBalance, splAccounts, pages, firstSeen, latest, count30d, active48h, trace, activity);
    r := Ok(Assemble(AgeDays(firstSeen, now), |allSigs|, count30d, solBalance, splAccounts, active48h,
                     trace, activity, firstSeen, latest, pages));
  }

  lemma SpendingAddsUp(cap: nat, pages: nat, hops: nat, parse: nat)
    ensures 2 * cap + cap * pages + cap + cap * hops + cap * parse == cap * (3 + pages + hops + parse)
  {
  }
}
