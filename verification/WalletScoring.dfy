/** The additive wallet score, and what it means for the signals the collector can produce. */
module WalletScoring {
  import opened Prelude
  import opened Labels
  import opened Ledger
  import opened Funding
  import opened ChainSignals
  import opened Bands

  datatype Recommendation = ALLOW | REVIEW | BLOCK

  datatype Flag =
    | FreshFunded | Dormant | DustPattern
    | FundedByLabeled | FundingChainLabeled(hop: nat) | FundingUntraced
    | CounterpartyLabeled(count: nat)
    | Label(name: string)

  datatype RiskResult = RiskResult(
    riskScore: nat, riskBand: Band, signals: Signals, flags: seq<Flag>, labels: seq<LabelEntry>, signalQuality: Quality)

  // ----- Contributions to the score -----

  /** floor(3 ln days), at most 15: the smallest day count for each bonus point. */
  function AgeBonus(days: nat): (bonus: nat)
    ensures bonus <= 15
  {
    if days < 2 then 0 else if days < 3 then 2 else if days < 4 then 3 else if days < 6 then 4
    else if days < 8 then 5 else if days < 11 then 6 else if days < 15 then 7 else if days < 21 then 8
    else if days < 29 then 9 else if days < 40 then 10 else if days < 55 then 11 else if days < 77 then 12
    else if days < 107 then 13 else if days < 149 then 14 else 15
  }

  function Weights(entries: seq<LabelEntry>): int {
    if entries == [] then 0 else Weights(entries[..|entries| - 1]) + entries[|entries| - 1].weight
  }

  function BehaviourFlags(s: Signals): seq<Flag> {
    FlagIf(s.isFreshFunded, FreshFunded)
    + FlagIf(s.ageDays > 30 && s.txCount30d < 3, Dormant)
    + FlagIf(s.txCount30d > 50 && s.solBalanceLamports < 10_000_000, DustPattern)
  }

  /** The labelled hop nearest to the wallet among hops 2 and up. */
  function NearestLabelled(c: seq<FundingHop>): (r: Option<FundingHop>)
    ensures r.Some? ==> r.value in c && r.value.hop >= 2 && r.value.labels != []
    ensures r.Some? ==> forall h | h in c && h.hop >= 2 && h.labels != [] :: r.value.hop <= h.hop
    ensures r.None? ==> forall h | h in c :: h.hop < 2 || h.labels == []
  {
    if c == [] then None
    else
      var init, last := c[..|c| - 1], c[|c| - 1];
      assert c == init + [last];
      var best := NearestLabelled(init);
      if last.hop >= 2 && last.labels != [] && (best == None || last.hop < best.value.hop) then Some(last) else best
  }

  function ProvenanceFlags(direct: bool, deepHop: Option<nat>, untraced: bool): seq<Flag> {
    FlagIf(direct, FundedByLabeled)
    + (if deepHop.Some? then [FundingChainLabeled(deepHop.value)] else [])
    + FlagIf(untraced, FundingUntraced)
  }

  /** The hop number of the labelled hop nearest to the wallet, among hops 2 and up. */
  function DeepHop(c: seq<FundingHop>): Option<nat> {
    var h := NearestLabelled(c);
    if h.Some? then Some(h.value.hop) else None
  }

  predicate Untraced(c: Classification) {
    c == PartialHistory || c == GenesisUntraceable
  }

  function FundingFlags(t: FundingTrace): seq<Flag> {
    ProvenanceFlags(t.funderLabels != [], DeepHop(t.fundingChain), Untraced(t.classification))
  }

  function Points(f: Flag): nat {
    match f
    case FreshFunded => 25
    case Dormant => 10
    case DustPattern => 15
    case FundedByLabeled => 40
    case FundingChainLabeled(hop) => if hop == 2 then 25 else 15
    case FundingUntraced => 5
    case CounterpartyLabeled(_) => 30
    case Label(_) => 0
  }

  /** Points of the first n flags. */
  function PointsUpTo(flags: seq<Flag>, n: nat): nat
    requires n <= |flags|
  {
    if n == 0 then 0 else PointsUpTo(flags, n - 1) + Points(flags[n - 1])
  }

  function FlagPoints(flags: seq<Flag>): nat {
    PointsUpTo(flags, |flags|)
  }

  function FundingPoints(t: FundingTrace): int {
    FlagPoints(FundingFlags(t))
  }

  /** Deductions: age, and activity measured on parsed transactions. */
  function Deductions(s: Signals): (d: nat)
    ensures d <= 25
  {
    AgeBonus(s.ageDays)
    + if !s.counterpartyMetricsEstimated && s.txCount30d >= 10
         && s.uniqueCounterparties30d.Some? && s.uniqueCounterparties30d.value >= 5
      then 10 else 0
  }

  function SignalFlags(s: Signals): seq<Flag> {
    BehaviourFlags(s) + FundingFlags(TraceIn(s))
    + ExposureFlags(s)
  }

  /** The score before clamping to 0..100. */
  function RawScore(s: Signals, deny: seq<LabelEntry>, allow: seq<LabelEntry>): int {
    FlagPoints(SignalFlags(s)) + Weights(deny) - Deductions(s) + Weights(allow)
  }

  function QualityOf(s: Signals): Quality {
    if s.txCountTotal < 5 || s.sigPagesFetched < 2 then QualityLow
    else if s.counterpartyMetricsEstimated then QualityMedium
    else QualityHigh
  }

  function RecommendationFrom(band: Band, hasDenyLabel: bool, quality: Quality): Recommendation {
    if hasDenyLabel || band == CRITICAL then BLOCK
    else if band == HIGH || band == MEDIUM || quality == QualityLow then REVIEW
    else ALLOW
  }

  lemma {:induction false} PointsOfConcat(a: seq<Flag>, b: seq<Flag>, n: nat)
    requires n <= |a + b|
    ensures PointsUpTo(a + b, n) == if n <= |a| then PointsUpTo(a, n) else PointsUpTo(a, |a|) + PointsUpTo(b, n - |a|)
  {
    if n > 0 {
      PointsOfConcat(a, b, n - 1);
    }
  }

  lemma FlagPointsConcat(a: seq<Flag>, b: seq<Flag>)
    ensures FlagPoints(a + b) == FlagPoints(a) + FlagPoints(b)
  {
    PointsOfConcat(a, b, |a + b|);
    assert b == [] ==> a + b == a;
  }

  lemma OneFlag(raised: bool, f: Flag)
    ensures FlagPoints(FlagIf(raised, f)) == if raised then Points(f) else 0
  {
    assert raised ==> PointsUpTo([f], 1) == PointsUpTo([f], 0) + Points(f);
  }

  lemma BehaviourPoints(s: Signals)
    ensures FlagPoints(BehaviourFlags(s)) ==
      (if s.isFreshFunded then 25 else 0)
      + (if s.ageDays > 30 && s.txCount30d < 3 then 10 else 0)
      + (if s.txCount30d > 50 && s.solBalanceLamports < 10_000_000 then 15 else 0)
  {
    var funded := FlagIf(s.isFreshFunded, FreshFunded);
    var dormant := FlagIf(s.ageDays > 30 && s.txCount30d < 3, Dormant);
    var dust := FlagIf(s.txCount30d > 50 && s.solBalanceLamports < 10_000_000, DustPattern);
    FlagPointsConcat(funded + dormant, dust);
    FlagPointsConcat(funded, dormant);
    OneFlag(s.isFreshFunded, FreshFunded);
    OneFlag(s.ageDays > 30 && s.txCount30d < 3, Dormant);
    OneFlag(s.txCount30d > 50 && s.solBalanceLamports < 10_000_000, DustPattern);
  }

  lemma ProvenancePoints(direct: bool, deepHop: Option<nat>, untraced: bool)
    ensures FlagPoints(ProvenanceFlags(direct, deepHop, untraced)) ==
      (if direct then 40 else 0)
      + (if deepHop.Some? then if deepHop.value == 2 then 25 else 15 else 0)
      + (if untraced then 5 else 0)
  {
    var hop := if deepHop.Some? then deepHop.value else 0;
    var deep := FlagIf(deepHop.Some?, FundingChainLabeled(hop));
    FlagPointsConcat(FlagIf(direct, FundedByLabeled) + deep, FlagIf(untraced, FundingUntraced));
    FlagPointsConcat(FlagIf(direct, FundedByLabeled), deep);
    OneFlag(direct, FundedByLabeled);
    OneFlag(deepHop.Some?, FundingChainLabeled(hop));
    OneFlag(untraced, FundingUntraced);
  }

  function LabelFlags(deny: seq<LabelEntry>): seq<Flag> {
    seq(|deny|, i requires 0 <= i < |deny| => Label(deny[i].name))
  }

  method ScoreBehaviour(s: Signals) returns (score: int, flags: seq<Flag>)
    ensures flags == BehaviourFlags(s) && score == FlagPoints(flags)
  {
    score, flags := 0, [];
    if s.isFreshFunded {
      score := score + 25;
      flags := flags + [FreshFunded];
    }
    if s.ageDays > 30 && s.txCount30d < 3 {
      score := score + 10;
      flags := flags + [Dormant];
    }
    if s.txCount30d > 50 && s.solBalanceLamports < 10_000_000 {
      score := score + 15;
      flags := flags + [DustPattern];
    }
    BehaviourPoints(s);
    assert flags == BehaviourFlags(s);
  }

  method ScoreProvenance(direct: bool, deepHop: Option<nat>, untraced: bool) returns (score: int, flags: seq<Flag>)
    ensures flags == ProvenanceFlags(direct, deepHop, untraced) && score == FlagPoints(flags)
  {
    score, flags := 0, [];
    if direct {
      score := score + 40;
      flags := flags + [FundedByLabeled];
    }
    if deepHop.Some? {
      var weight := match deepHop.value case 2 => 25 case _ => 15;
      score := score + weight;
      flags := flags + [FundingChainLabeled(deepHop.value)];
    }
    if untraced {
      score := score + 5;
      flags := flags + [FundingUntraced];
    }
    ProvenancePoints(direct, deepHop, untraced);
    assert flags == ProvenanceFlags(direct, deepHop, untraced);
  }

  method AddWeights(score: int, hits: seq<LabelEntry>) returns (total: int)
    ensures total == score + Weights(hits)
  {
    total := score;
    for i := 0 to |hits|
      invariant total == score + Weights(hits[..i])
    {
      assert hits[..i + 1][..i] == hits[..i];
      total := total + hits[i].weight;
    }
    assert hits[..|hits|] == hits;
  }

  function ExposureFlags(s: Signals): seq<Flag> {
    FlagIf(s.counterpartyLabels != [], CounterpartyLabeled(|s.counterpartyLabels|))
  }

  lemma FlagPointsOfThree(a: seq<Flag>, b: seq<Flag>, c: seq<Flag>)
    ensures FlagPoints(a + b + c) == FlagPoints(a) + FlagPoints(b) + FlagPoints(c)
  {
    FlagPointsConcat(a + b, c);
    FlagPointsConcat(a, b);
  }

  /** Behaviour, provenance and counterparty exposure. */
  method ScoreSignals(s: Signals) returns (score: int, flags: seq<Flag>)
    ensures flags == SignalFlags(s) && score == FlagPoints(SignalFlags(s))
  {
    var behaviourScore, behaviourFlags := ScoreBehaviour(s);
    var fundingScore, fundingFlags :=
      ScoreProvenance(s.funderLabels != [], DeepHop(s.fundingChain), Untraced(s.fundingSourceRisk));
    FlagPointsOfThree(behaviourFlags, fundingFlags, ExposureFlags(s));
    OneFlag(s.counterpartyLabels != [], CounterpartyLabeled(|s.counterpartyLabels|));
    score, flags := behaviourScore + fundingScore, behaviourFlags + fundingFlags;
    if s.counterpartyLabels != [] {
      score := score + 30;
      flags := flags + [CounterpartyLabeled(|s.counterpartyLabels|)];
    }
  }

  method ScoreWallet(s: Signals, denyIndex: LabelIndex, allowIndex: LabelIndex, wallet: Address) returns (r: RiskResult)
    ensures
      var deny, allow := Lookup(denyIndex, wallet), Lookup(allowIndex, wallet);
      && r.riskScore == Clamped(RawScore(s, deny, allow))
      && r.riskBand == BandOf(r.riskScore)
      && r.signals == s
      && r.flags == SignalFlags(s) + LabelFlags(deny)
      && r.labels == deny + allow
      && r.signalQuality == QualityOf(s)
  {
    var score, flags := ScoreSignals(s);
    var denyHits := Lookup(denyIndex, wallet);
    score := AddWeights(score, denyHits);
    if s.ageDays > 0 {
      score := score - AgeBonus(s.ageDays);
    }
    if !s.counterpartyMetricsEstimated && s.txCount30d >= 10
       && (if s.uniqueCounterparties30d.Some? then s.uniqueCounterparties30d.value else 0) >= 5
    {
      score := score - 10;
    }
    var allowHits := Lookup(allowIndex, wallet);
    score := AddWeights(score, allowHits);
    var finalScore := Clamped(score);
    r := RiskResult(finalScore, BandOf(finalScore), s, flags + LabelFlags(denyHits), denyHits + allowHits, QualityOf(s));
  }

  // ----- Funding: one flag at most, diluted with distance -----

  /** In a trace, only the last hop can carry a label, so the nearest labelled hop is the end of a bad chain. */
  lemma LabelSitsAtTheEnd(t: FundingTrace)
    requires TraceShape(t)
    ensures t.funderLabels != [] <==> t.classification == LabeledBad && |t.fundingChain| == 1
    ensures DeepHop(t.fundingChain)
      == if t.classification == LabeledBad && |t.fundingChain| >= 2 then Some(|t.fundingChain|) else None
  {
    var c := t.fundingChain;
    var deep := NearestLabelled(c);
    if deep.Some? {
      var i :| 0 <= i < |c| && c[i] == deep.value;
      assert i == |c| - 1;
    } else if c != [] {
      assert c[|c| - 1] in c;
    }
  }

  /** Points for a classification and the length of the traced chain. */
  function PointsFor(c: Classification, hops: nat): nat {
    match c
    case LabeledBad => if hops == 1 then 40 else if hops == 2 then 25 else 15
    case PartialHistory => 5
    case GenesisUntraceable => 5
    case _ => 0
  }

  /** For every trace the tracer can return, what provenance adds to the score is decided by where the first label sits. */
  lemma FundingContribution(t: FundingTrace)
    requires TraceShape(t)
    ensures |FundingFlags(t)| <= 1
    ensures FundingPoints(t) == PointsFor(t.classification, |t.fundingChain|)
  {
    LabelSitsAtTheEnd(t);
    ProvenancePoints(t.funderLabels != [], DeepHop(t.fundingChain), Untraced(t.classification));
  }

  /** A label further away never weighs more. */
  lemma LabelsDiluteWithDistance(t: FundingTrace, t': FundingTrace)
    requires TraceShape(t) && TraceShape(t')
    requires t.classification == t'.classification == LabeledBad
    requires |t.fundingChain| <= |t'.fundingChain|
    ensures FundingPoints(t) >= FundingPoints(t') >= 15
  {
    FundingContribution(t);
    FundingContribution(t');
  }

  /**
   * Spending more on tracing lowers the funding points only where it turns an unread history
   * into a clean (or empty) one; every other change of budget leaves or raises them.
   */
  lemma MoreTracingLowersOnlyTheUntraced(chain: Chain, deny: LabelIndex, wallet: Address, b: Budgets, b': Budgets)
    requires NoLargerThan(b, b') && b.maxHops >= 1
    ensures
      var t, t' := IdealTrace(chain, deny, wallet, b), IdealTrace(chain, deny, wallet, b');
      FundingPoints(t') < FundingPoints(t) <==>
        t.classification == PartialHistory && (t'.classification == NoHistory || t'.classification == TracedClean)
  {
    var t, t' := IdealTrace(chain, deny, wallet, b), IdealTrace(chain, deny, wallet, b');
    BudgetsOnlyExtend(chain, deny, wallet, b, b');
    IdealTraceShape(chain, deny, wallet, b);
    IdealTraceShape(chain, deny, wallet, b');
    FundingContribution(t);
    FundingContribution(t');
    WhenPointsDrop(t.classification, |t.fundingChain|, t'.classification, |t'.fundingChain|);
  }

  lemma WhenPointsDrop(c: Classification, n: nat, c': Classification, n': nat)
    requires c' != NotChecked
    requires c != PartialHistory && c != TracedClean ==> c' == c && n' == n
    ensures PointsFor(c', n') < PointsFor(c, n) <==> c == PartialHistory && (c' == NoHistory || c' == TracedClean)
  {
  }

  lemma IdealTraceShape(chain: Chain, deny: LabelIndex, wallet: Address, b: Budgets)
    requires b.maxHops >= 1
    ensures TraceShape(IdealTrace(chain, deny, wallet, b))
  {
    var h := chain.history(wallet);
    if h != [] && |h| < PAGE * b.sigPages {
      var hop1 := FunderOfTx(chain.tx(h[|h| - 1].signature), wallet);
      if hop1.Some? {
        var link, labels := FunderLink(chain, b.hopPages), DenyLabelling(deny);
        PrefixShape(link, labels, hop1.value, b.maxHops, ChainFrom(link, labels, hop1.value, 1, b.maxHops));
      }
    }
  }

  lemma {:induction false} IdealLabelsAreDenyHits(chain: Chain, deny: LabelIndex, wallet: Address, b: Budgets)
    requires b.maxHops >= 1
    ensures
      var c := IdealTrace(chain, deny, wallet, b).fundingChain;
      forall i | 0 <= i < |c| :: c[i].labels == DenyHits(deny, c[i].address)
  {
    var h := chain.history(wallet);
    if h != [] && |h| < PAGE * b.sigPages {
      var hop1 := FunderOfTx(chain.tx(h[|h| - 1].signature), wallet);
      if hop1.Some? {
        var link, labels := FunderLink(chain, b.hopPages), DenyLabelling(deny);
        ChainFromIsPath(link, labels, hop1.value, 1, b.maxHops);
        assert forall a :: labels(a) == DenyHits(deny, a);
      }
    }
  }

  lemma FundingFlagMembers(t: FundingTrace, h: nat)
    ensures FundedByLabeled in FundingFlags(t) <==> t.funderLabels != []
    ensures FundingChainLabeled(h) in FundingFlags(t) <==> DeepHop(t.fundingChain) == Some(h)
  {
  }

  lemma FlagsMatchPath(t: FundingTrace, path: seq<FundingHop>, deny: LabelIndex)
    requires TraceShape(t) && t.fundingChain <= path
    requires forall i | 0 <= i < |path| :: path[i].labels == DenyHits(deny, path[i].address)
    ensures FundedByLabeled in FundingFlags(t) ==> path != [] && Lookup(deny, path[0].address) != []
    ensures forall h: nat | FundingChainLabeled(h) in FundingFlags(t) ::
      2 <= h <= |path| && Lookup(deny, path[h - 1].address) != []
  {
    var c := t.fundingChain;
    LabelSitsAtTheEnd(t);
    forall h: nat {
      FundingFlagMembers(t, h);
    }
    if c != [] {
      assert path[|c| - 1] == c[|c| - 1];
      LabelledIffListed(deny, path[|c| - 1].address);
    }
  }

  /**
   * No false accusation: whatever calls failed, a funding flag names a hop at which the wallet's
   * true funding path really holds a deny-listed address.
   */
  lemma FundingFlagsAreTrue(t: FundingTrace, chain: Chain, deny: LabelIndex, wallet: Address, b: Budgets)
    requires b.maxHops >= 1 && TraceShape(t)
    requires t.fundingChain <= IdealTrace(chain, deny, wallet, b).fundingChain
    ensures
      var path := IdealTrace(chain, deny, wallet, b).fundingChain;
      && (FundedByLabeled in FundingFlags(t) ==> path != [] && Lookup(deny, path[0].address) != [])
      && (forall h: nat | FundingChainLabeled(h) in FundingFlags(t) ::
            2 <= h <= |path| && Lookup(deny, path[h - 1].address) != [])
  {
    IdealLabelsAreDenyHits(chain, deny, wallet, b);
    FlagsMatchPath(t, IdealTrace(chain, deny, wallet, b).fundingChain, deny);
  }
}
