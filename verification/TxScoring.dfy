/** The SIGN / REVIEW / BLOCK verdict on screened transactions. */
module TxScoring {
  import opened Prelude
  import opened Labels
  import opened TxScreen
  import opened Bands

  datatype Verdict = SIGN | REVIEW | BLOCK

  datatype Flag =
    | DenyProgram(name: string)
    | AuthorityHandoff(authorityType: string)
    | TokenDelegation(count: nat)
    | CloseAccountFlag(count: nat)
    | UsesLookupTables
    | UnknownPrograms(count: nat)
    | WouldFail
    | OutflowViaUnknown(lamports: int)
    | TokenOutflowViaUnknown

  datatype TxRiskResult = TxRiskResult(
    riskScore: nat, riskBand: Band, recommendation: Verdict, flags: seq<Flag>, signalQuality: Quality)

  function DenyFlag(): TxLabelHit -> seq<Flag> {
    (h: TxLabelHit) => [DenyProgram(h.name)]
  }

  function HandoffFlag(): string -> seq<Flag> {
    (a: string) => [AuthorityHandoff(a)]
  }

  predicate SolOutflowViaUnknown(s: TxSignals) {
    s.netSolChangeLamports.Some? && s.netSolChangeLamports.value < -OUTFLOW_LAMPORTS_THRESHOLD && s.unknownPrograms != []
  }

  predicate TokenOutflow(s: TxSignals) {
    (exists c | c in s.netTokenChanges :: c.deltaRaw < 0) && s.unknownPrograms != []
  }

  function StaticFlags(s: TxSignals): seq<Flag> {
    FlagIf(s.delegations > 0, TokenDelegation(s.delegations))
    + FlagIf(s.closeAccounts > 0, CloseAccountFlag(s.closeAccounts))
    + FlagIf(s.usesLookupTables, UsesLookupTables)
    + FlagIf(s.unknownPrograms != [], UnknownPrograms(|s.unknownPrograms|))
  }

  function SimulationFlags(s: TxSignals): seq<Flag> {
    FlagIf(s.simulationError.Some?, WouldFail)
    + (if SolOutflowViaUnknown(s) then [OutflowViaUnknown(-s.netSolChangeLamports.value)] else [])
    + FlagIf(TokenOutflow(s), TokenOutflowViaUnknown)
  }

  function TxFlags(s: TxSignals): seq<Flag> {
    FlatMap(DenyFlag(), s.denyProgramHits) + FlatMap(HandoffFlag(), s.authorityHandoffs) + StaticFlags(s) + SimulationFlags(s)
  }

  function StaticPoints(s: TxSignals): nat {
    (if s.delegations > 0 then 30 else 0)
    + (if s.closeAccounts > 0 then 20 else 0)
    + (if s.usesLookupTables then 15 else 0)
    + (if s.unknownPrograms != [] then 15 else 0)
  }

  function SimulationPoints(s: TxSignals): nat {
    (if s.simulationError.Some? then 10 else 0)
    + (if SolOutflowViaUnknown(s) then 25 else 0)
    + (if TokenOutflow(s) then 25 else 0)
  }

  /** The i32 sum before clamping. */
  function RawScore(s: TxSignals): nat {
    60 * (|s.denyProgramHits| + |s.authorityHandoffs|) + StaticPoints(s) + SimulationPoints(s)
  }

  predicate HasBlock(s: TxSignals) {
    s.denyProgramHits != [] || s.authorityHandoffs != []
  }

  predicate HasReview(s: TxSignals) {
    || s.delegations > 0
    || s.closeAccounts > 0
    || s.usesLookupTables
    || s.unknownPrograms != []
    || s.simulationError.Some?
    || SolOutflowViaUnknown(s)
    || TokenOutflow(s)
  }

  function VerdictOf(s: TxSignals): Verdict {
    if HasBlock(s) then BLOCK else if HasReview(s) then REVIEW else SIGN
  }

  function QualityOf(s: TxSignals): Quality {
    if s.instructionCount == 0 then QualityLow else if s.usesLookupTables then QualityMedium else QualityHigh
  }

  function Rank(v: Verdict): nat {
    match v case SIGN => 0 case REVIEW => 1 case BLOCK => 2
  }

  method ScoreTx(s: TxSignals) returns (r: TxRiskResult)
    ensures r == TxRiskResult(Clamped(RawScore(s)), BandOf(Clamped(RawScore(s))), VerdictOf(s), TxFlags(s), QualityOf(s))
  {
    var score := 0;
    var flags: seq<Flag> := [];
    for i := 0 to |s.denyProgramHits|
      invariant score == 60 * i && flags == FlatMap(DenyFlag(), s.denyProgramHits[..i])
    {
      FlatMapStep(DenyFlag(), s.denyProgramHits, i);
      score := score + 60;
      flags := flags + [DenyProgram(s.denyProgramHits[i].name)];
    }
    assert s.denyProgramHits[..|s.denyProgramHits|] == s.denyProgramHits;
    ghost var denyFlags := flags;
    for i := 0 to |s.authorityHandoffs|
      invariant score == 60 * (|s.denyProgramHits| + i)
      invariant flags == denyFlags + FlatMap(HandoffFlag(), s.authorityHandoffs[..i])
    {
      FlatMapStep(HandoffFlag(), s.authorityHandoffs, i);
      score := score + 60;
      flags := flags + [AuthorityHandoff(s.authorityHandoffs[i])];
    }
    assert s.authorityHandoffs[..|s.authorityHandoffs|] == s.authorityHandoffs;
    var points, moreFlags := ScoreStatic(s);
    score, flags := score + points, flags + moreFlags;
    points, moreFlags := ScoreSimulation(s);
    score, flags := score + points, flags + moreFlags;
    var finalScore := Clamped(score);
    r := TxRiskResult(finalScore, BandOf(finalScore), VerdictOf(s), flags, QualityOf(s));
  }

  /** REVIEW tier: risky actions and reduced visibility. */
  method ScoreStatic(s: TxSignals) returns (score: nat, flags: seq<Flag>)
    ensures score == StaticPoints(s) && flags == StaticFlags(s)
  {
    score, flags := 0, [];
    if s.delegations > 0 {
      score := score + 30;
      flags := flags + [TokenDelegation(s.delegations)];
    }
    if s.closeAccounts > 0 {
      score := score + 20;
      flags := flags + [CloseAccountFlag(s.closeAccounts)];
    }
    if s.usesLookupTables {
      score := score + 15;
      flags := flags + [UsesLookupTables];
    }
    if s.unknownPrograms != [] {
      score := score + 15;
      flags := flags + [UnknownPrograms(|s.unknownPrograms|)];
    }
  }

  /** REVIEW tier: what the simulation disclosed. */
  method ScoreSimulation(s: TxSignals) returns (score: nat, flags: seq<Flag>)
    ensures score == SimulationPoints(s) && flags == SimulationFlags(s)
  {
    score, flags := 0, [];
    if s.simulationError.Some? {
      score := score + 10;
      flags := flags + [WouldFail];
    }
    if SolOutflowViaUnknown(s) {
      score := score + 25;
      flags := flags + [OutflowViaUnknown(-s.netSolChangeLamports.value)];
    }
    if TokenOutflow(s) {
      score := score + 25;
      flags := flags + [TokenOutflowViaUnknown];
    }
  }

  // ----- The verdict refines a specification over the instructions -----

  /** A static analysis of the instructions, with the outcome of a simulation. */
  ghost predicate Screened(deny: LabelIndex, tx: Transaction, o: SimOutcome, s: TxSignals) {
    && Findings(deny, tx.keys, tx.lookupTables, tx.instructions, s)
    && s.instructionCount == |tx.instructions|
    && s.simulationError == o.error
    && s.netSolChangeLamports == o.netSolChangeLamports
    && s.netTokenChanges == o.netTokenChanges
  }

  /** Nothing about the instruction needs a second look. */
  ghost predicate Benign(deny: LabelIndex, keys: seq<string>, ix: Instruction) {
    && Resolve(keys, ix).Some?
    && IsKnownSafe(Resolve(keys, ix).value)
    && Lookup(deny, Resolve(keys, ix).value) == []
    && (IsTokenProgram(Resolve(keys, ix).value) ==> ix.op.Other? || ix.op.Undecodable?)
  }

  lemma HitsIffDenied(deny: LabelIndex, keys: seq<string>, ixs: seq<Instruction>)
    ensures FlatMap(HitsOf(deny, keys), ixs) != [] <==> exists ix | ix in ixs :: IsDenied(deny, keys, ix)
  {
    FlatMapEmpty(HitsOf(deny, keys), ixs);
    forall ix | ix in ixs
      ensures HitsOf(deny, keys)(ix) != [] <==> IsDenied(deny, keys, ix)
    {
      if Resolve(keys, ix).Some? {
        LabelledIffListed(deny, Resolve(keys, ix).value);
      }
    }
  }

  lemma HandoffsIffSetAuthority(keys: seq<string>, ixs: seq<Instruction>)
    ensures FlatMap(HandoffsOf(keys), ixs) != [] <==> exists ix | ix in ixs :: IsHandoff(keys, ix)
  {
    FlatMapEmpty(HandoffsOf(keys), ixs);
    assert forall ix :: HandoffsOf(keys)(ix) != [] <==> IsHandoff(keys, ix);
  }

  /** BLOCK exactly for a deny-listed program or a token-program SetAuthority, whatever the simulation says. */
  lemma BlockExactlyWhen(deny: LabelIndex, tx: Transaction, o: SimOutcome, s: TxSignals)
    requires Screened(deny, tx, o, s)
    ensures VerdictOf(s) == BLOCK <==>
      exists ix | ix in tx.instructions :: IsDenied(deny, tx.keys, ix) || IsHandoff(tx.keys, ix)
    ensures VerdictOf(s) == BLOCK ==> Clamped(RawScore(s)) >= 60
  {
    HitsIffDenied(deny, tx.keys, tx.instructions);
    HandoffsIffSetAuthority(tx.keys, tx.instructions);
  }

  lemma NoUnknownIff(deny: LabelIndex, keys: seq<string>, tables: nat, ixs: seq<Instruction>, s: TxSignals)
    requires Findings(deny, keys, tables, ixs, s)
    ensures s.unknownPrograms == [] <==> forall ix | ix in ixs :: !IsUnknown(keys, ix)
  {
    if s.unknownPrograms != [] {
      assert s.unknownPrograms[0] in s.unknownPrograms;
    }
    if ix :| ix in ixs && IsUnknown(keys, ix) {
      assert Invokes(keys, ix, keys[ix.programIndex]);
      assert keys[ix.programIndex] in s.unknownPrograms;
    }
  }

  predicate NothingToReport(deny: LabelIndex, keys: seq<string>, ix: Instruction) {
    && Resolve(keys, ix) != None && !IsUnknown(keys, ix) && !IsDenied(deny, keys, ix)
    && !IsHandoff(keys, ix) && !Delegates(keys)(ix) && !Closes(keys)(ix)
  }

  lemma BenignMeansNothingToReport(deny: LabelIndex, keys: seq<string>, ix: Instruction)
    ensures Benign(deny, keys, ix) <==> NothingToReport(deny, keys, ix)
  {
  }

  /** SIGN exactly when nothing hides behind a lookup table, every instruction is benign, and the simulation did not fail. */
  lemma SignExactlyWhen(deny: LabelIndex, tx: Transaction, o: SimOutcome, s: TxSignals)
    requires Screened(deny, tx, o, s)
    ensures VerdictOf(s) == SIGN <==>
      && tx.lookupTables == 0
      && (forall ix | ix in tx.instructions :: Benign(deny, tx.keys, ix))
      && o.error == None
  {
    var keys, ixs := tx.keys, tx.instructions;
    HitsIffDenied(deny, keys, ixs);
    HandoffsIffSetAuthority(keys, ixs);
    NoUnknownIff(deny, keys, tx.lookupTables, ixs, s);
    CountIfBounds(Delegates(keys), ixs);
    CountIfBounds(Closes(keys), ixs);
    forall ix | ix in ixs
      ensures Benign(deny, keys, ix) <==> NothingToReport(deny, keys, ix)
    {
      BenignMeansNothingToReport(deny, keys, ix);
    }
  }

  /** SIGN, a score of 0 and an empty flag list are the same thing. */
  lemma SignIffNothingFound(s: TxSignals)
    ensures VerdictOf(s) == SIGN <==> Clamped(RawScore(s)) == 0
    ensures VerdictOf(s) == SIGN <==> TxFlags(s) == []
  {
    FlatMapEmpty(DenyFlag(), s.denyProgramHits);
    FlatMapEmpty(HandoffFlag(), s.authorityHandoffs);
    if s.denyProgramHits != [] {
      assert s.denyProgramHits[0] in s.denyProgramHits && DenyFlag()(s.denyProgramHits[0]) != [];
    }
    if s.authorityHandoffs != [] {
      assert s.authorityHandoffs[0] in s.authorityHandoffs && HandoffFlag()(s.authorityHandoffs[0]) != [];
    }
  }

  // ----- Instruction order -----

  lemma SameMembers<A>(a: seq<A>, b: seq<A>)
    requires multiset(a) == multiset(b)
    ensures forall x :: x in a <==> x in b
    ensures |a| == |b|
  {
    assert forall x :: x in a <==> x in multiset(a);
    assert |multiset(a)| == |a| && |multiset(b)| == |b|;
  }

  lemma SameVisibility(
    deny: LabelIndex, keys: seq<string>, tables: nat, a: seq<Instruction>, b: seq<Instruction>, s: TxSignals, t: TxSignals)
    requires Findings(deny, keys, tables, a, s) && Findings(deny, keys, tables, b, t)
    requires forall x :: x in a <==> x in b
    ensures forall p :: p in s.unknownPrograms <==> p in t.unknownPrograms
    ensures s.usesLookupTables == t.usesLookupTables
  {
  }

  lemma SameSize<A>(a: seq<A>, b: seq<A>)
    requires Distinct(a) && Distinct(b)
    requires forall p :: p in a <==> p in b
    ensures |a| == |b|
  {
    DistinctSize(a);
    DistinctSize(b);
    assert (set p | p in a) == (set p | p in b);
  }

  /** All that the score reads off the findings. */
  ghost predicate SameTotals(s: TxSignals, t: TxSignals) {
    && multiset(s.denyProgramHits) == multiset(t.denyProgramHits)
    && multiset(s.authorityHandoffs) == multiset(t.authorityHandoffs)
    && s.delegations == t.delegations
    && s.closeAccounts == t.closeAccounts
    && s.usesLookupTables == t.usesLookupTables
    && |s.unknownPrograms| == |t.unknownPrograms|
    && s.instructionCount == t.instructionCount
    && s.simulationError == t.simulationError
    && s.netSolChangeLamports == t.netSolChangeLamports
    && s.netTokenChanges == t.netTokenChanges
  }

  lemma SameTotalsSameScore(s: TxSignals, t: TxSignals)
    requires SameTotals(s, t)
    ensures RawScore(s) == RawScore(t)
    ensures VerdictOf(s) == VerdictOf(t) && QualityOf(s) == QualityOf(t)
  {
    assert |multiset(s.denyProgramHits)| == |s.denyProgramHits| == |t.denyProgramHits|;
    assert |multiset(s.authorityHandoffs)| == |s.authorityHandoffs| == |t.authorityHandoffs|;
  }

  lemma SameTotalsSameFlags(s: TxSignals, t: TxSignals)
    requires SameTotals(s, t)
    ensures multiset(TxFlags(s)) == multiset(TxFlags(t))
  {
    FlatMapPermutation(DenyFlag(), s.denyProgramHits, t.denyProgramHits);
    FlatMapPermutation(HandoffFlag(), s.authorityHandoffs, t.authorityHandoffs);
    SameReviewFlags(s, t);
    MultisetOfFour(FlatMap(DenyFlag(), s.denyProgramHits), FlatMap(HandoffFlag(), s.authorityHandoffs),
                   StaticFlags(s), SimulationFlags(s));
    MultisetOfFour(FlatMap(DenyFlag(), t.denyProgramHits), FlatMap(HandoffFlag(), t.authorityHandoffs),
                   StaticFlags(t), SimulationFlags(t));
  }

  lemma SameReviewFlags(s: TxSignals, t: TxSignals)
    requires SameTotals(s, t)
    ensures StaticFlags(s) == StaticFlags(t) && SimulationFlags(s) == SimulationFlags(t)
  {
  }

  lemma MultisetOfFour(a: seq<Flag>, b: seq<Flag>, c: seq<Flag>, d: seq<Flag>)
    ensures multiset(a + b + c + d) == multiset(a) + multiset(b) + multiset(c) + multiset(d)
  {
  }

  /** Reordering a transaction's instructions changes nothing that is reported but the order of findings. */
  lemma InstructionOrderIsIrrelevant(
    deny: LabelIndex, tx: Transaction, ixs: seq<Instruction>, o: SimOutcome, s: TxSignals, t: TxSignals)
    requires multiset(ixs) == multiset(tx.instructions)
    requires Screened(deny, tx, o, s) && Screened(deny, tx.(instructions := ixs), o, t)
    ensures RawScore(s) == RawScore(t)
    ensures VerdictOf(s) == VerdictOf(t) && QualityOf(s) == QualityOf(t)
    ensures multiset(TxFlags(s)) == multiset(TxFlags(t))
  {
    var keys := tx.keys;
    SameMembers(ixs, tx.instructions);
    FlatMapPermutation(HitsOf(deny, keys), tx.instructions, ixs);
    FlatMapPermutation(HandoffsOf(keys), tx.instructions, ixs);
    CountIfPermutation(Delegates(keys), tx.instructions, ixs);
    CountIfPermutation(Closes(keys), tx.instructions, ixs);
    SameVisibility(deny, keys, tx.lookupTables, tx.instructions, ixs, s, t);
    SameSize(s.unknownPrograms, t.unknownPrograms);
    SameTotalsSameScore(s, t);
    SameTotalsSameFlags(s, t);
  }

  // ----- Appending instructions -----

  lemma MoreInstructionsMoreFindings(
    deny: LabelIndex, keys: seq<string>, tables: nat, a: seq<Instruction>, b: seq<Instruction>, s: TxSignals, t: TxSignals)
    requires Findings(deny, keys, tables, a, s) && Findings(deny, keys, tables, a + b, t)
    ensures s.denyProgramHits <= t.denyProgramHits && s.authorityHandoffs <= t.authorityHandoffs
    ensures s.delegations <= t.delegations && s.closeAccounts <= t.closeAccounts
    ensures s.usesLookupTables ==> t.usesLookupTables
    ensures s.unknownPrograms != [] ==> t.unknownPrograms != []
  {
    FlatMapConcat(HitsOf(deny, keys), a, b);
    FlatMapConcat(HandoffsOf(keys), a, b);
    CountIfConcat(Delegates(keys), a, b);
    CountIfConcat(Closes(keys), a, b);
    NoUnknownIff(deny, keys, tables, a, s);
    NoUnknownIff(deny, keys, tables, a + b, t);
    assert forall ix :: ix in a ==> ix in a + b;
  }

  lemma WorseFindingsWorseResult(s: TxSignals, t: TxSignals)
    requires s.denyProgramHits <= t.denyProgramHits && s.authorityHandoffs <= t.authorityHandoffs
    requires s.delegations <= t.delegations && s.closeAccounts <= t.closeAccounts
    requires s.usesLookupTables ==> t.usesLookupTables
    requires s.unknownPrograms != [] ==> t.unknownPrograms != []
    requires s.simulationError == t.simulationError && s.netSolChangeLamports == t.netSolChangeLamports
    requires s.netTokenChanges == t.netTokenChanges
    ensures RawScore(s) <= RawScore(t)
    ensures Rank(VerdictOf(s)) <= Rank(VerdictOf(t))
  {
    assert StaticPoints(s) <= StaticPoints(t) && SimulationPoints(s) <= SimulationPoints(t);
    assert |s.denyProgramHits| <= |t.denyProgramHits| && |s.authorityHandoffs| <= |t.authorityHandoffs|;
  }

  /** Appending instructions never lowers the score or the verdict. */
  lemma AppendingNeverImproves(
    deny: LabelIndex, tx: Transaction, more: seq<Instruction>, o: SimOutcome, s: TxSignals, t: TxSignals)
    requires Screened(deny, tx, o, s)
    requires Screened(deny, tx.(instructions := tx.instructions + more), o, t)
    ensures RawScore(s) <= RawScore(t)
    ensures Clamped(RawScore(s)) <= Clamped(RawScore(t))
    ensures Rank(VerdictOf(s)) <= Rank(VerdictOf(t))
  {
    MoreInstructionsMoreFindings(deny, tx.keys, tx.lookupTables, tx.instructions, more, s, t);
    WorseFindingsWorseResult(s, t);
  }

  // ----- Simulation enrichment -----

  /**
   * Simulating never lowers score or verdict. The static verdict changes exactly when it was
   * SIGN and the simulation reported an error, and then to REVIEW.
   */
  lemma EnrichmentOnlyEscalates(s: TxSignals, o: SimOutcome)
    requires NotSimulated(s)
    ensures
      var t := Enrich(s, o);
      && RawScore(s) <= RawScore(t)
      && Rank(VerdictOf(s)) <= Rank(VerdictOf(t))
      && VerdictOf(t) == (if VerdictOf(s) == SIGN && o.error.Some? then REVIEW else VerdictOf(s))
  {
  }

  // ----- The handler's pipeline -----

  predicate SimulationFailed(subject: Option<string>, env: SimEnv) {
    subject.Some? && env.subjectParses && env.reply.Some? && env.reply.value.err.Some?
  }

  /** Analyze, simulate, score: the verdict depends on the instructions and on a reported simulation error alone. */
  method ScreenTransaction(tx: Transaction, owner: Option<string>, deny: LabelIndex, env: SimEnv)
    returns (r: TxRiskResult, signals: TxSignals)
    ensures r.recommendation == BLOCK <==>
      exists ix | ix in tx.instructions :: IsDenied(deny, tx.keys, ix) || IsHandoff(tx.keys, ix)
    ensures r.recommendation == SIGN <==>
      && tx.lookupTables == 0
      && (forall ix | ix in tx.instructions :: Benign(deny, tx.keys, ix))
      && !SimulationFailed(signals.subject, env)
    ensures r.recommendation == BLOCK ==> r.riskScore >= 60
    ensures r.recommendation == SIGN <==> r.riskScore == 0
    ensures r.recommendation == SIGN <==> r.flags == []
    ensures signals.subject == if owner.Some? then owner else if tx.keys == [] then None else Some(tx.keys[0])
  {
    var found := Analyze(tx, owner, deny);
    var o := Simulate(tx, found.subject, env);
    signals := Enrich(found, o);
    r := ScoreTx(signals);
    BlockExactlyWhen(deny, tx, o, signals);
    SignExactlyWhen(deny, tx, o, signals);
    SignIffNothingFound(signals);
  }

  // ----- Integer width -----

  /** The running i32 sum cannot overflow below 35 million findings of 60 points. */
  lemma RawScoreFitsI32(s: TxSignals)
    requires |s.denyProgramHits| + |s.authorityHandoffs| <= 35_000_000
    ensures RawScore(s) < 0x8000_0000
  {
  }
}
