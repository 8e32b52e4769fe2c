/** Pre-sign screening: static findings of a decoded transaction, and their best-effort simulation enrichment. */
module TxScreen {
  import opened Prelude
  import opened Labels

  const SYSTEM_PROGRAM := "11111111111111111111111111111111"
  const SPL_TOKEN_PROGRAM := "TokenkegQfeZyiNwAJbNbGKPFXCWuBvf9Ss623VQ5DA"
  const TOKEN_2022_PROGRAM := "TokenzQdBNbLqP5VEhdkAS6EPFLC1PHnBqCXEpPxuEb"
  const ATA_PROGRAM := "ATokenGPvbdGVxr1b2hvZbsiqW5xWH25efTNsLJA8knL"
  const COMPUTE_BUDGET_PROGRAM := "ComputeBudget111111111111111111111111111111"
  const MEMO_PROGRAM := "MemoSq4gqABAXKb96qnH8TysNcWxMyWCqXgDLGmfcHr"
  const MEMO_PROGRAM_V1 := "Memo1UhkJRfHyvLMcVucJwxXeuD728EqVDDwQDxFMNo"

  const OUTFLOW_LAMPORTS_THRESHOLD: int := 10_000_000

  predicate IsKnownSafe(program: string) {
    || program == SYSTEM_PROGRAM
    || program == SPL_TOKEN_PROGRAM
    || program == TOKEN_2022_PROGRAM
    || program == ATA_PROGRAM
    || program == COMPUTE_BUDGET_PROGRAM
    || program == MEMO_PROGRAM
    || program == MEMO_PROGRAM_V1
  }

  predicate IsTokenProgram(program: string) {
    program == SPL_TOKEN_PROGRAM || program == TOKEN_2022_PROGRAM
  }

  /** What the instruction data unpacks to, read as an SPL Token instruction. */
  datatype TokenOp = SetAuthority(authorityType: string) | Approve | ApproveChecked | CloseAccount | Other | Undecodable

  datatype Instruction = Instruction(programIndex: nat, op: TokenOp)

  datatype Transaction = Transaction(keys: seq<string>, instructions: seq<Instruction>, lookupTables: nat)

  datatype TokenChange = TokenChange(mint: string, deltaRaw: int)

  datatype TxSignals = TxSignals(
    feePayer: Option<string>,
    subject: Option<string>,
    instructionCount: nat,
    programs: seq<string>,
    usesLookupTables: bool,
    simulated: bool,
    simulationError: Option<string>,
    netSolChangeLamports: Option<int>,
    netTokenChanges: seq<TokenChange>,
    denyProgramHits: seq<TxLabelHit>,
    authorityHandoffs: seq<string>,
    delegations: nat,
    closeAccounts: nat,
    unknownPrograms: seq<string>)

  // ----- What one instruction amounts to -----

  /** The program an instruction invokes, when the static keys hold it. */
  function Resolve(keys: seq<string>, ix: Instruction): Option<string> {
    if ix.programIndex < |keys| then Some(keys[ix.programIndex]) else None
  }

  predicate Invokes(keys: seq<string>, ix: Instruction, program: string) {
    Resolve(keys, ix) == Some(program)
  }

  predicate IsTokenOp(keys: seq<string>, ix: Instruction) {
    Resolve(keys, ix).Some? && IsTokenProgram(Resolve(keys, ix).value)
  }

  predicate IsDenied(deny: LabelIndex, keys: seq<string>, ix: Instruction) {
    Resolve(keys, ix).Some? && Lookup(deny, Resolve(keys, ix).value) != []
  }

  predicate IsHandoff(keys: seq<string>, ix: Instruction) {
    IsTokenOp(keys, ix) && ix.op.SetAuthority?
  }

  predicate IsUnknown(keys: seq<string>, ix: Instruction) {
    Resolve(keys, ix).Some? && !IsKnownSafe(Resolve(keys, ix).value)
  }

  function HitsOf(deny: LabelIndex, keys: seq<string>): Instruction -> seq<TxLabelHit> {
    (ix: Instruction) => if Resolve(keys, ix).Some? then DenyHits(deny, Resolve(keys, ix).value) else []
  }

  function HandoffsOf(keys: seq<string>): Instruction -> seq<string> {
    (ix: Instruction) => if IsHandoff(keys, ix) then [ix.op.authorityType] else []
  }

  function Delegates(keys: seq<string>): Instruction -> bool {
    (ix: Instruction) => IsTokenOp(keys, ix) && (ix.op.Approve? || ix.op.ApproveChecked?)
  }

  function Closes(keys: seq<string>): Instruction -> bool {
    (ix: Instruction) => IsTokenOp(keys, ix) && ix.op.CloseAccount?
  }

  // ----- Static analysis -----

  /** The programs outside the known list, each once. */
  ghost predicate UnknownsListed(keys: seq<string>, ixs: seq<Instruction>, unknown: seq<string>) {
    && Distinct(unknown)
    && (forall p :: p in unknown <==> exists ix | ix in ixs :: IsUnknown(keys, ix) && Invokes(keys, ix, p))
  }

  /** The findings are exactly those of the instructions, each taken by itself. */
  ghost predicate Findings(deny: LabelIndex, keys: seq<string>, lookupTables: nat, ixs: seq<Instruction>, s: TxSignals) {
    && s.denyProgramHits == FlatMap(HitsOf(deny, keys), ixs)
    && s.authorityHandoffs == FlatMap(HandoffsOf(keys), ixs)
    && s.delegations == CountIf(Delegates(keys), ixs)
    && s.closeAccounts == CountIf(Closes(keys), ixs)
    && (s.usesLookupTables <==> lookupTables > 0 || exists ix | ix in ixs :: Resolve(keys, ix) == None)
    && UnknownsListed(keys, ixs, s.unknownPrograms)
  }

  ghost predicate ProgramsListed(keys: seq<string>, ixs: seq<Instruction>, programs: seq<string>) {
    && Distinct(programs)
    && (forall p :: p in programs <==> exists ix | ix in ixs :: Invokes(keys, ix, p))
  }

  predicate NotSimulated(s: TxSignals) {
    !s.simulated && s.simulationError == None && s.netSolChangeLamports == None && s.netTokenChanges == []
  }

  lemma ProgramSeen(keys: seq<string>, ixs: seq<Instruction>, ix: Instruction, programs: seq<string>, programs': seq<string>)
    requires ProgramsListed(keys, ixs, programs) && Resolve(keys, ix).Some?
    requires programs' == if Resolve(keys, ix).value in programs then programs else programs + [Resolve(keys, ix).value]
    ensures ProgramsListed(keys, ixs + [ix], programs')
  {
    forall p
      ensures p in programs' <==> exists i | i in ixs + [ix] :: Invokes(keys, i, p)
    {
      if Invokes(keys, ix, p) {
        assert ix in ixs + [ix];
      }
      if i :| i in ixs && Invokes(keys, i, p) {
        assert i in ixs + [ix];
      }
    }
  }

  lemma UnknownSeen(keys: seq<string>, ixs: seq<Instruction>, ix: Instruction, unknown: seq<string>, unknown': seq<string>)
    requires UnknownsListed(keys, ixs, unknown)
    requires unknown' ==
      if IsUnknown(keys, ix) && Resolve(keys, ix).value !in unknown then unknown + [Resolve(keys, ix).value] else unknown
    ensures UnknownsListed(keys, ixs + [ix], unknown')
  {
    forall p
      ensures p in unknown' <==> exists i | i in ixs + [ix] :: IsUnknown(keys, i) && Invokes(keys, i, p)
    {
      if IsUnknown(keys, ix) && Invokes(keys, ix, p) {
        assert ix in ixs + [ix];
      }
      if i :| i in ixs && IsUnknown(keys, i) && Invokes(keys, i, p) {
        assert i in ixs + [ix];
      }
    }
  }

  lemma OneMore<B>(f: Instruction -> seq<B>, ixs: seq<Instruction>, ix: Instruction)
    ensures FlatMap(f, ixs + [ix]) == FlatMap(f, ixs) + f(ix)
  {
    assert (ixs + [ix])[..|ixs|] == ixs;
  }

  lemma OneMoreCount(p: Instruction -> bool, ixs: seq<Instruction>, ix: Instruction)
    ensures CountIf(p, ixs + [ix]) == CountIf(p, ixs) + if p(ix) then 1 else 0
  {
    assert (ixs + [ix])[..|ixs|] == ixs;
  }

  lemma OneMoreUnresolved(keys: seq<string>, ixs: seq<Instruction>, ix: Instruction)
    ensures (exists i | i in ixs + [ix] :: Resolve(keys, i) == None)
      <==> (exists i | i in ixs :: Resolve(keys, i) == None) || Resolve(keys, ix) == None
  {
    assert forall i :: i in ixs + [ix] <==> i in ixs || i == ix;
  }

  /** Findings of one more instruction, from the findings so far and what the instruction itself shows. */
  lemma OneMoreInstruction(
    deny: LabelIndex, keys: seq<string>, tables: nat, ixs: seq<Instruction>, ix: Instruction, s: TxSignals, s': TxSignals)
    requires Findings(deny, keys, tables, ixs, s)
    requires s'.denyProgramHits == s.denyProgramHits + HitsOf(deny, keys)(ix)
    requires s'.authorityHandoffs == s.authorityHandoffs + HandoffsOf(keys)(ix)
    requires s'.delegations == s.delegations + if Delegates(keys)(ix) then 1 else 0
    requires s'.closeAccounts == s.closeAccounts + if Closes(keys)(ix) then 1 else 0
    requires s'.usesLookupTables <==> s.usesLookupTables || Resolve(keys, ix) == None
    requires s'.unknownPrograms ==
      if IsUnknown(keys, ix) && Resolve(keys, ix).value !in s.unknownPrograms
      then s.unknownPrograms + [Resolve(keys, ix).value] else s.unknownPrograms
    ensures Findings(deny, keys, tables, ixs + [ix], s')
  {
    OneMore(HitsOf(deny, keys), ixs, ix);
    OneMore(HandoffsOf(keys), ixs, ix);
    OneMoreCount(Delegates(keys), ixs, ix);
    OneMoreCount(Closes(keys), ixs, ix);
    OneMoreUnresolved(keys, ixs, ix);
    UnknownSeen(keys, ixs, ix, s.unknownPrograms, s'.unknownPrograms);
  }

  /** Findings of a resolved instruction, added to the record. */
  method NoteFindings(deny: LabelIndex, program: string, op: TokenOp, s: TxSignals) returns (s': TxSignals)
    ensures s' == s.(
      denyProgramHits := s.denyProgramHits + DenyHits(deny, program),
      authorityHandoffs := s.authorityHandoffs
        + (if IsTokenProgram(program) && op.SetAuthority? then [op.authorityType] else []),
      delegations := s.delegations + (if IsTokenProgram(program) && (op.Approve? || op.ApproveChecked?) then 1 else 0),
      closeAccounts := s.closeAccounts + (if IsTokenProgram(program) && op.CloseAccount? then 1 else 0),
      unknownPrograms :=
        if !IsTokenProgram(program) && !IsKnownSafe(program) && program !in s.unknownPrograms
        then s.unknownPrograms + [program] else s.unknownPrograms)
  {
    s' := s.(denyProgramHits := s.denyProgramHits + DenyHits(deny, program));
    if IsTokenProgram(program) {
      match op {
        case SetAuthority(authorityType) =>
          s' := s'.(authorityHandoffs := s'.authorityHandoffs + [authorityType]);
        case Approve => s' := s'.(delegations := s'.delegations + 1);
        case ApproveChecked => s' := s'.(delegations := s'.delegations + 1);
        case CloseAccount => s' := s'.(closeAccounts := s'.closeAccounts + 1);
        case Other =>
        case Undecodable =>
      }
    } else if !IsKnownSafe(program) && program !in s'.unknownPrograms {
      s' := s'.(unknownPrograms := s'.unknownPrograms + [program]);
    }
  }

  lemma UnresolvedAddsNoProgram(keys: seq<string>, ixs: seq<Instruction>, ix: Instruction, programs: seq<string>)
    requires ProgramsListed(keys, ixs, programs) && Resolve(keys, ix) == None
    ensures ProgramsListed(keys, ixs + [ix], programs)
  {
    assert forall i :: i in ixs + [ix] <==> i in ixs || i == ix;
  }

  /** The body of the instruction loop. */
  method Visit(deny: LabelIndex, keys: seq<string>, ghost tables: nat, ghost ixs: seq<Instruction>, ix: Instruction, s: TxSignals)
    returns (s': TxSignals)
    requires Findings(deny, keys, tables, ixs, s) && ProgramsListed(keys, ixs, s.programs) && NotSimulated(s)
    ensures Findings(deny, keys, tables, ixs + [ix], s') && ProgramsListed(keys, ixs + [ix], s'.programs) && NotSimulated(s')
    ensures s'.feePayer == s.feePayer && s'.subject == s.subject && s'.instructionCount == s.instructionCount
  {
    if ix.programIndex >= |keys| {
      s' := s.(usesLookupTables := true);
      OneMoreInstruction(deny, keys, tables, ixs, ix, s, s');
      UnresolvedAddsNoProgram(keys, ixs, ix, s.programs);
      return;
    }
    var program := keys[ix.programIndex];
    var programs := if program in s.programs then s.programs else s.programs + [program];
    ProgramSeen(keys, ixs, ix, s.programs, programs);
    s' := NoteFindings(deny, program, ix.op, s.(programs := programs));
    OneMoreInstruction(deny, keys, tables, ixs, ix, s, s');
  }

  method Analyze(tx: Transaction, ownerOverride: Option<string>, deny: LabelIndex) returns (s: TxSignals)
    ensures Findings(deny, tx.keys, tx.lookupTables, tx.instructions, s)
    ensures ProgramsListed(tx.keys, tx.instructions, s.programs)
    ensures NotSimulated(s) && s.instructionCount == |tx.instructions|
    ensures s.feePayer == (if tx.keys == [] then None else Some(tx.keys[0]))
    ensures s.subject == (if ownerOverride.Some? then ownerOverride else s.feePayer)
  {
    var feePayer := if tx.keys == [] then None else Some(tx.keys[0]);
    var subject := if ownerOverride.Some? then ownerOverride else feePayer;
    s := TxSignals(feePayer, subject, |tx.instructions|, [], tx.lookupTables > 0,
                   false, None, None, [], [], [], 0, 0, []);
    for i := 0 to |tx.instructions|
      invariant Findings(deny, tx.keys, tx.lookupTables, tx.instructions[..i], s)
      invariant ProgramsListed(tx.keys, tx.instructions[..i], s.programs)
      invariant NotSimulated(s) && s.instructionCount == |tx.instructions|
      invariant s.feePayer == feePayer && s.subject == subject
    {
      s := Visit(deny, tx.keys, tx.lookupTables, tx.instructions[..i], tx.instructions[i], s);
      assert tx.instructions[..i + 1] == tx.instructions[..i] + [tx.instructions[i]];
    }
    assert tx.instructions[..|tx.instructions|] == tx.instructions;
  }

  // ----- Simulation -----

  /** `x as i64` for a u64. */
  function AsI64(x: U64): int {
    if x < TWO_63 then x else x - TWO_64
  }

  /** Two's-complement result of a 64-bit signed operation. */
  function WrapI64(x: int): (r: int)
    ensures -TWO_63 <= r < TWO_63 && (r - x) % TWO_64 == 0
  {
    var m := x % TWO_64;
    if m < TWO_63 then m else m - TWO_64
  }

  function SubI64(post: U64, pre: U64): int {
    WrapI64(AsI64(post) - AsI64(pre))
  }

  /** An account slot of the simulation reply; `token` is None unless it decodes as a token account. */
  datatype SimAccount = SimAccount(lamports: U64, token: Option<(string, U64)>)

  datatype SimReply = SimReply(err: Option<string>, accounts: Option<seq<Option<SimAccount>>>)

  /** One token account of the subject that the transaction references. */
  datatype Touched = Touched(pubkey: string, mint: string, pre: U64)

  datatype OwnedAccount = OwnedAccount(pubkey: string, token: Option<(string, U64)>)

  datatype SimEnv = SimEnv(
    subjectParses: bool,
    owned: Option<seq<OwnedAccount>>,      // None: the call failed
    preSol: Option<U64>,
    reply: Option<SimReply>)

  datatype SimOutcome = SimOutcome(
    simulated: bool, error: Option<string>, netSolChangeLamports: Option<int>, netTokenChanges: seq<TokenChange>)

  function NoSimulation(): SimOutcome {
    SimOutcome(false, None, None, [])
  }

  /** What the node reports for touched account i: nothing, or the balance in slot i + 1 (0 when the slot is null). */
  function PostOf(accounts: Option<seq<Option<SimAccount>>>, i: nat): Option<U64> {
    if accounts.Some? && i + 1 < |accounts.value| then
      var slot := accounts.value[i + 1];
      Some(if slot.Some? && slot.value.token.Some? then slot.value.token.value.1 else 0)
    else None
  }

  function PostsOf(accounts: Option<seq<Option<SimAccount>>>, n: nat): seq<Option<U64>> {
    seq(n, i => if i >= 0 then PostOf(accounts, i) else None)
  }

  function ComputeTokenDeltas(touched: seq<Touched>, posts: seq<Option<U64>>): seq<TokenChange> {
    if touched == [] || posts == [] then []
    else
      (if posts[0].Some? && SubI64(posts[0].value, touched[0].pre) != 0
       then [TokenChange(touched[0].mint, SubI64(posts[0].value, touched[0].pre))] else [])
      + ComputeTokenDeltas(touched[1..], posts[1..])
  }

  function TouchedBy(keys: seq<string>): OwnedAccount -> seq<Touched> {
    (a: OwnedAccount) => if a.pubkey in keys && a.token.Some?
                         then [Touched(a.pubkey, a.token.value.0, a.token.value.1)] else []
  }

  method Simulate(tx: Transaction, subject: Option<string>, env: SimEnv) returns (o: SimOutcome)
    ensures
      var touched := if env.owned.Some? then FlatMap(TouchedBy(tx.keys), env.owned.value) else [];
      if subject.Some? && env.subjectParses && env.reply.Some? then
        var accounts := env.reply.value.accounts;
        && o.simulated && o.error == env.reply.value.err
        && o.netTokenChanges == ComputeTokenDeltas(touched, PostsOf(accounts, |touched|))
        && (o.netSolChangeLamports.Some? <==>
              env.preSol.Some? && accounts.Some? && |accounts.value| > 0 && accounts.value[0].Some?)
        && (o.netSolChangeLamports.Some? ==>
              o.netSolChangeLamports.value == SubI64(accounts.value[0].value.lamports, env.preSol.value))
      else
        o == NoSimulation()
  {
    if subject == None || !env.subjectParses {
      return NoSimulation();
    }
    var touched: seq<Touched> := [];
    if env.owned.Some? {
      var owned := env.owned.value;
      for i := 0 to |owned|
        invariant touched == FlatMap(TouchedBy(tx.keys), owned[..i])
      {
        FlatMapStep(TouchedBy(tx.keys), owned, i);
        if owned[i].pubkey in tx.keys && owned[i].token.Some? {
          touched := touched + [Touched(owned[i].pubkey, owned[i].token.value.0, owned[i].token.value.1)];
        }
      }
      assert owned[..|owned|] == owned;
    }
    if env.reply == None {
      return NoSimulation();
    }
    var reply := env.reply.value;
    var postSol := if reply.accounts.Some? && |reply.accounts.value| > 0 && reply.accounts.value[0].Some?
                   then Some(reply.accounts.value[0].value.lamports) else None;
    var netSol := if env.preSol.Some? && postSol.Some? then Some(SubI64(postSol.value, env.preSol.value)) else None;
    o := SimOutcome(true, reply.err, netSol, ComputeTokenDeltas(touched, PostsOf(reply.accounts, |touched|)));
  }

  function Enrich(s: TxSignals, o: SimOutcome): TxSignals {
    s.(simulated := o.simulated, simulationError := o.error,
       netSolChangeLamports := o.netSolChangeLamports, netTokenChanges := o.netTokenChanges)
  }

  // ----- Token deltas -----

  /** The reported difference is the true one exactly when that fits in an i64. */
  lemma DeltaIsExactIff(post: U64, pre: U64)
    ensures SubI64(post, pre) == post - pre <==> -TWO_63 <= post - pre < TWO_63
  {
    var d: int := AsI64(post) - AsI64(pre);
    var exact: int := (post as int) - (pre as int);
    assert (exact - d) % TWO_64 == 0;
  }

  lemma DeltaByCases(post: U64, pre: U64)
    ensures SubI64(post, pre) == post - pre
      || (post - pre < -TWO_63 && SubI64(post, pre) == post - pre + TWO_64)
      || (post - pre >= TWO_63 && SubI64(post, pre) == post - pre - TWO_64)
  {
    var d: int := AsI64(post) - AsI64(pre);
    var exact: int := (post as int) - (pre as int);
    assert (exact - d) % TWO_64 == 0;
  }

  /** The sign of the reported difference tells drops from gains exactly when the true one fits in an i64. */
  lemma SignIsRightIff(post: U64, pre: U64)
    ensures (SubI64(post, pre) < 0 <==> post < pre) <==> -TWO_63 <= post - pre < TWO_63
    ensures (SubI64(post, pre) > 0 <==> post > pre) <==> -TWO_63 <= post - pre < TWO_63
  {
    DeltaByCases(post, pre);
    DeltaIsExactIff(post, pre);
  }

  /** Emptying a balance is reported as an inflow exactly when it was over 2^63. */
  lemma DrainLooksLikeInflowIff(pre: U64)
    ensures SubI64(0, pre) > 0 <==> pre > TWO_63
    ensures SubI64(0, TWO_63 + 5) == TWO_63 - 5   // for one
  {
    DeltaByCases(0, pre);
    DeltaIsExactIff(0, pre);
  }

  predicate Measured(posts: seq<Option<U64>>, i: nat) {
    i < |posts| && posts[i].Some?
  }

  /** Every measured difference fits in an i64. */
  ghost predicate DifferencesFit(touched: seq<Touched>, posts: seq<Option<U64>>) {
    |posts| == |touched| &&
    forall i | 0 <= i < |touched| && Measured(posts, i) :: -TWO_63 <= Difference(touched, posts, i) < TWO_63
  }

  function Difference(touched: seq<Touched>, posts: seq<Option<U64>>, i: nat): int
    requires i < |touched| && Measured(posts, i)
  {
    var post: int, pre: int := posts[i].value, touched[i].pre;
    post - pre
  }

  /** Balances below 2^63 before and after are enough. */
  lemma SmallBalancesFit(touched: seq<Touched>, posts: seq<Option<U64>>)
    requires |posts| == |touched|
    requires forall t | t in touched :: t.pre < TWO_63
    requires forall p | p in posts && p.Some? :: p.value < TWO_63
    ensures DifferencesFit(touched, posts)
  {
    forall i | 0 <= i < |touched| && Measured(posts, i)
      ensures -TWO_63 <= Difference(touched, posts, i) < TWO_63
    {
      assert touched[i] in touched && posts[i] in posts;
    }
  }

  /** Sums of the measured accounts' balances after and before, and the number of them that changed. */
  function MeasuredNet(touched: seq<Touched>, posts: seq<Option<U64>>): int
    requires |posts| == |touched|
  {
    if touched == [] then 0
    else (if posts[0].Some? then Difference(touched, posts, 0) else 0) + MeasuredNet(touched[1..], posts[1..])
  }

  function ChangedCount(touched: seq<Touched>, posts: seq<Option<U64>>): nat
    requires |posts| == |touched|
  {
    if touched == [] then 0
    else (if posts[0].Some? && posts[0].value != touched[0].pre then 1 else 0) + ChangedCount(touched[1..], posts[1..])
  }

  function DeltaSum(changes: seq<TokenChange>): int {
    if changes == [] then 0 else changes[0].deltaRaw + DeltaSum(changes[1..])
  }

  lemma {:induction false} DeltaSumConcat(a: seq<TokenChange>, b: seq<TokenChange>)
    ensures DeltaSum(a + b) == DeltaSum(a) + DeltaSum(b)
  {
    if a == [] {
      assert a + b == b;
    } else {
      DeltaSumConcat(a[1..], b);
      assert (a + b)[1..] == a[1..] + b;
    }
  }

  /** Change c is the true, non-zero difference of some measured account. */
  ghost predicate Accounted(touched: seq<Touched>, posts: seq<Option<U64>>, c: TokenChange) {
    exists i | 0 <= i < |touched| ::
      Measured(posts, i) && c.mint == touched[i].mint && c.deltaRaw == Difference(touched, posts, i) != 0
  }

  /** The deltas report all measured changes, nothing else, and add up to the measured net. */
  lemma {:induction false} DeltasAreTheMeasuredChanges(touched: seq<Touched>, posts: seq<Option<U64>>)
    requires DifferencesFit(touched, posts)
    ensures
      var deltas := ComputeTokenDeltas(touched, posts);
      && (forall c | c in deltas :: Accounted(touched, posts, c))
      && |deltas| == ChangedCount(touched, posts)
      && DeltaSum(deltas) == MeasuredNet(touched, posts)
  {
    if touched != [] {
      var rest, restPosts := touched[1..], posts[1..];
      forall i | 0 <= i < |rest| && Measured(restPosts, i)
        ensures -TWO_63 <= Difference(rest, restPosts, i) < TWO_63
      {
        assert Measured(posts, i + 1);
        assert Difference(rest, restPosts, i) == Difference(touched, posts, i + 1);
      }
      DeltasAreTheMeasuredChanges(rest, restPosts);
      forall c | c in ComputeTokenDeltas(rest, restPosts)
        ensures Accounted(touched, posts, c)
      {
        var i :| 0 <= i < |rest| && Measured(restPosts, i) && c.mint == rest[i].mint
                 && c.deltaRaw == Difference(rest, restPosts, i) != 0;
        assert Measured(posts, i + 1);
      }
      var first := if posts[0].Some? && SubI64(posts[0].value, touched[0].pre) != 0
                   then [TokenChange(touched[0].mint, SubI64(posts[0].value, touched[0].pre))] else [];
      DeltaSumConcat(first, ComputeTokenDeltas(rest, restPosts));
      if posts[0].Some? {
        assert Measured(posts, 0);
        DeltaIsExactIff(posts[0].value, touched[0].pre);
      }
    }
  }

  /** No outflow is invented or missed: a negative delta appears exactly when a measured balance fell. */
  lemma {:induction false} OutflowIffMeasuredDrop(touched: seq<Touched>, posts: seq<Option<U64>>)
    requires DifferencesFit(touched, posts)
    ensures (exists c | c in ComputeTokenDeltas(touched, posts) :: c.deltaRaw < 0)
      <==> exists i | 0 <= i < |touched| :: Measured(posts, i) && Difference(touched, posts, i) < 0
  {
    DeltasAreTheMeasuredChanges(touched, posts);
    if i :| 0 <= i < |touched| && Measured(posts, i) && Difference(touched, posts, i) < 0 {
      ChangeIsReported(touched, posts, i);
    }
    if c :| c in ComputeTokenDeltas(touched, posts) && c.deltaRaw < 0 {
      assert Accounted(touched, posts, c);
    }
  }

  lemma {:induction false} ChangeIsReported(touched: seq<Touched>, posts: seq<Option<U64>>, i: nat)
    requires DifferencesFit(touched, posts)
    requires i < |touched| && Measured(posts, i) && Difference(touched, posts, i) != 0
    ensures TokenChange(touched[i].mint, Difference(touched, posts, i)) in ComputeTokenDeltas(touched, posts)
  {
    var rest, restPosts := touched[1..], posts[1..];
    if i == 0 {
      DeltaIsExactIff(posts[0].value, touched[0].pre);
    } else {
      forall j | 0 <= j < |rest| && Measured(restPosts, j)
        ensures -TWO_63 <= Difference(rest, restPosts, j) < TWO_63
      {
        assert Measured(posts, j + 1);
        assert Difference(rest, restPosts, j) == Difference(touched, posts, j + 1);
      }
      ChangeIsReported(rest, restPosts, i - 1);
    }
  }
}
