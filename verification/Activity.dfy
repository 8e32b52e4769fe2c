/** Recent counterparties and programs of a wallet, with deny-label exposure. */
module Activity {
  import opened Prelude
  import opened Labels
  import opened Ledger

  datatype ActivityMetrics = ActivityMetrics(
    uniqueCounterparties: nat,
    programDiversity: nat,
    counterpartyLabels: seq<TxLabelHit>,
    txnsParsed: nat,
    measured: bool)

  // ----- One transaction -----

  function ProgramsOf(tx: TxView): set<Address> {
    set k | k in tx.programs && k < |tx.keys| :: tx.keys[k]
  }

  /** Accounts other than the wallet and the invoked programs whose balance changed. */
  function CounterpartiesOf(tx: TxView, wallet: Address): set<Address>
    requires Aligned(tx)
  {
    set i | 0 <= i < |tx.keys| && tx.keys[i] != wallet && tx.keys[i] !in ProgramsOf(tx) && tx.pre[i] != tx.post[i]
      :: tx.keys[i]
  }

  /** (counterparties, programs), without repeats; None when the transaction cannot be mapped. */
  method Extract(encoded: Option<TxView>, wallet: Address) returns (r: Option<(seq<Address>, seq<Address>)>)
    ensures r.Some? <==> encoded.Some? && Aligned(encoded.value)
    ensures r.Some? ==>
      && Distinct(r.value.0) && (set a | a in r.value.0) == CounterpartiesOf(encoded.value, wallet)
      && Distinct(r.value.1) && (set p | p in r.value.1) == ProgramsOf(encoded.value)
  {
    if encoded == None {
      return None;
    }
    var tx := encoded.value;
    if |tx.pre| != |tx.keys| || |tx.post| != |tx.keys| {
      return None;
    }
    var programs: seq<Address> := [];
    for i := 0 to |tx.programs|
      invariant Distinct(programs)
      invariant forall p :: p in programs <==> exists j | 0 <= j < i :: tx.programs[j] < |tx.keys| && tx.keys[tx.programs[j]] == p
    {
      if tx.programs[i] < |tx.keys| {
        var s := tx.keys[tx.programs[i]];
        if s !in programs {
          programs := programs + [s];
        }
      }
    }
    var counterparties: seq<Address> := [];
    for i := 0 to |tx.keys|
      invariant Distinct(counterparties)
      invariant forall a :: a in counterparties <==>
        exists j | 0 <= j < i :: tx.keys[j] == a && a != wallet && a !in programs && tx.pre[j] != tx.post[j]
    {
      var s := tx.keys[i];
      if s == wallet || s in programs {
        continue;
      }
      if tx.pre[i] != tx.post[i] && s !in counterparties {
        counterparties := counterparties + [s];
      }
    }
    r := Some((counterparties, programs));
  }

  // ----- A window of transactions -----

  ghost predicate Mapped(o: TxFetch) {
    o.Fetched? && o.tx.Some? && Aligned(o.tx.value)
  }

  ghost function AllCounterparties(outcomes: seq<TxFetch>, wallet: Address): set<Address> {
    set o, a | o in outcomes && Mapped(o) && a in CounterpartiesOf(o.tx.value, wallet) :: a
  }

  ghost function AllPrograms(outcomes: seq<TxFetch>): set<Address> {
    set o, p | o in outcomes && Mapped(o) && p in ProgramsOf(o.tx.value) :: p
  }

  function IsFetched(): TxFetch -> bool {
    (o: TxFetch) => o.Fetched?
  }

  function PairsOf(hits: seq<TxLabelHit>): set<(Address, string)> {
    set h | h in hits :: (h.program, h.name)
  }

  ghost predicate PairsDistinct(hits: seq<TxLabelHit>) {
    forall i, j | 0 <= i < j < |hits| :: hits[i].program != hits[j].program || hits[i].name != hits[j].name
  }

  /** The (address, label) pairs the deny list holds for the given addresses. */
  ghost function DenyPairs(deny: LabelIndex, addresses: set<Address>): set<(Address, string)> {
    set a, e | a in addresses && e in Lookup(deny, a) :: (a, e.name)
  }

  ghost predicate FromDenyEntry(deny: LabelIndex, h: TxLabelHit) {
    exists e :: e in Lookup(deny, h.program) && e.source == h.source && e.name == h.name
  }

  /** Exactly one hit for each (address, label) pair of the deny list restricted to `addresses`. */
  ghost predicate OneHitPerPair(deny: LabelIndex, addresses: set<Address>, hits: seq<TxLabelHit>) {
    && PairsDistinct(hits)
    && PairsOf(hits) == DenyPairs(deny, addresses)
    && (forall h | h in hits :: FromDenyEntry(deny, h))
  }

  function PairOf(h: TxLabelHit): (Address, string) {
    (h.program, h.name)
  }

  /** So the number of hits is the number of pairs. */
  lemma HitsCountPairs(deny: LabelIndex, addresses: set<Address>, hits: seq<TxLabelHit>)
    requires OneHitPerPair(deny, addresses, hits)
    ensures |hits| == |DenyPairs(deny, addresses)|
  {
    var pairs := seq(|hits|, i requires 0 <= i < |hits| => PairOf(hits[i]));
    DistinctSize(pairs);
    assert (set p | p in pairs) == PairsOf(hits) by {
      forall h | h in hits
        ensures PairOf(h) in pairs
      {
        var i :| 0 <= i < |hits| && hits[i] == h;
        assert pairs[i] == PairOf(h);
      }
    }
  }

  function PairsFor(address: Address, entries: seq<LabelEntry>): set<(Address, string)> {
    set e | e in entries :: (address, e.name)
  }

  lemma HitAppended(deny: LabelIndex, labeled: seq<TxLabelHit>, cp: Address, e: LabelEntry)
    requires PairsDistinct(labeled) && (cp, e.name) !in PairsOf(labeled) && e in Lookup(deny, cp)
    requires forall h | h in labeled :: FromDenyEntry(deny, h)
    ensures
      var labeled' := labeled + [TxLabelHit(cp, e.source, e.name)];
      && PairsDistinct(labeled')
      && PairsOf(labeled') == PairsOf(labeled) + {(cp, e.name)}
      && (forall h | h in labeled' :: FromDenyEntry(deny, h))
  {
    var added := TxLabelHit(cp, e.source, e.name);
    assert FromDenyEntry(deny, added);
    forall i | 0 <= i < |labeled|
      ensures labeled[i].program != cp || labeled[i].name != e.name
    {
      assert (labeled[i].program, labeled[i].name) in PairsOf(labeled);
    }
    assert forall h :: h in labeled + [added] <==> h in labeled || h == added;
  }

  /** Adds the deny hits of one counterparty, skipping pairs already seen. */
  method RecordHits(deny: LabelIndex, cp: Address, labeled: seq<TxLabelHit>, seen: set<(Address, string)>)
    returns (labeled': seq<TxLabelHit>, seen': set<(Address, string)>)
    requires PairsDistinct(labeled) && seen == PairsOf(labeled)
    requires forall h | h in labeled :: FromDenyEntry(deny, h)
    ensures PairsDistinct(labeled') && seen' == PairsOf(labeled')
    ensures forall h | h in labeled' :: FromDenyEntry(deny, h)
    ensures seen' == seen + PairsFor(cp, Lookup(deny, cp))
  {
    labeled', seen' := labeled, seen;
    var hits := Lookup(deny, cp);
    for i := 0 to |hits|
      invariant PairsDistinct(labeled') && seen' == PairsOf(labeled')
      invariant forall h | h in labeled' :: FromDenyEntry(deny, h)
      invariant seen' == seen + PairsFor(cp, hits[..i])
    {
      var hit := hits[i];
      assert PairsFor(cp, hits[..i + 1]) == PairsFor(cp, hits[..i]) + {(cp, hit.name)} by {
        assert hits[..i + 1] == hits[..i] + [hit];
      }
      if (cp, hit.name) !in seen' {
        HitAppended(deny, labeled', cp, hit);
        seen' := seen' + {(cp, hit.name)};
        labeled' := labeled' + [TxLabelHit(cp, hit.source, hit.name)];
      }
    }
    assert hits[..|hits|] == hits;
  }

  lemma PairsGrow(deny: LabelIndex, known: set<Address>, cp: Address)
    ensures DenyPairs(deny, known + {cp}) == DenyPairs(deny, known) + PairsFor(cp, Lookup(deny, cp))
  {
  }

  /** The running totals of the window. */
  datatype Totals = Totals(
    counterparties: set<Address>,
    programs: set<Address>,
    labeled: seq<TxLabelHit>,
    labeledSeen: set<(Address, string)>)

  ghost predicate Consistent(t: Totals, deny: LabelIndex) {
    OneHitPerPair(deny, t.counterparties, t.labeled) && t.labeledSeen == PairsOf(t.labeled)
  }

  /** Folds the accounts of one mapped transaction into the totals. */
  method AddTransaction(deny: LabelIndex, cps: seq<Address>, progs: seq<Address>, t: Totals) returns (t': Totals)
    requires Consistent(t, deny)
    ensures Consistent(t', deny)
    ensures t'.counterparties == t.counterparties + set a | a in cps
    ensures t'.programs == t.programs + set p | p in progs
  {
    var known, labeled, seen := t.counterparties, t.labeled, t.labeledSeen;
    for i := 0 to |cps|
      invariant known == t.counterparties + set a | a in cps[..i]
      invariant OneHitPerPair(deny, known, labeled) && seen == PairsOf(labeled)
    {
      labeled, seen := RecordHits(deny, cps[i], labeled, seen);
      PairsGrow(deny, known, cps[i]);
      known := known + {cps[i]};
    }
    assert cps[..|cps|] == cps;
    t' := Totals(known, t.programs + (set p | p in progs), labeled, seen);
  }

  ghost function CounterpartiesIn(o: TxFetch, wallet: Address): set<Address> {
    if Mapped(o) then CounterpartiesOf(o.tx.value, wallet) else {}
  }

  ghost function ProgramsIn(o: TxFetch): set<Address> {
    if Mapped(o) then ProgramsOf(o.tx.value) else {}
  }

  lemma OutcomeAdded(outcomes: seq<TxFetch>, o: TxFetch, wallet: Address)
    ensures AllCounterparties(outcomes + [o], wallet) == AllCounterparties(outcomes, wallet) + CounterpartiesIn(o, wallet)
    ensures AllPrograms(outcomes + [o]) == AllPrograms(outcomes) + ProgramsIn(o)
  {
    assert forall x :: x in outcomes + [o] <==> x in outcomes || x == o;
  }

  /** `outcomes` is what the fetches of the window returned, in order. */
  ghost predicate WindowOf(chain: Chain, recent: seq<Signature>, outcomes: seq<TxFetch>) {
    && |outcomes| <= |recent|
    && forall i | 0 <= i < |outcomes| && outcomes[i].Fetched? :: outcomes[i].tx == chain.tx(recent[i])
  }

  /** The totals are those of the fetches so far. */
  ghost predicate MeasuredBy(t: Totals, parsed: nat, outcomes: seq<TxFetch>, wallet: Address, deny: LabelIndex) {
    && Consistent(t, deny)
    && t.counterparties == AllCounterparties(outcomes, wallet)
    && t.programs == AllPrograms(outcomes)
    && parsed == CountIf(IsFetched(), outcomes)
  }

  /** Folds one fetch into the totals, whatever it returned. */
  method AddOutcome(deny: LabelIndex, wallet: Address, o: TxFetch, t: Totals, parsed: nat, ghost outcomes: seq<TxFetch>)
    returns (t': Totals, parsed': nat)
    requires MeasuredBy(t, parsed, outcomes, wallet, deny)
    ensures MeasuredBy(t', parsed', outcomes + [o], wallet, deny)
  {
    OutcomeAdded(outcomes, o, wallet);
    OneMoreFetched(outcomes, o);
    t', parsed' := t, parsed;
    if o.Fetched? {
      parsed' := parsed' + 1;
      var extracted := Extract(o.tx, wallet);
      if extracted.Some? {
        t' := AddTransaction(deny, extracted.value.0, extracted.value.1, t);
      }
    }
  }

  lemma OneMoreFetched(outcomes: seq<TxFetch>, o: TxFetch)
    ensures CountIf(IsFetched(), outcomes + [o]) == CountIf(IsFetched(), outcomes) + if o.Fetched? then 1 else 0
  {
    assert (outcomes + [o])[..|outcomes|] == outcomes;
  }

  /** The metrics are exact for whatever the fetches returned, including failures and unmappable transactions. */
  method AnalyzeRecentActivity(rpc: RpcClient, wallet: Address, recent: seq<Signature>, cap: nat, deny: LabelIndex)
    returns (m: ActivityMetrics, ghost outcomes: seq<TxFetch>)
    modifies rpc
    ensures |outcomes| == Min(cap, |recent|) && WindowOf(rpc.chain, recent, outcomes)
    ensures rpc.NoneFailed() ==> forall o | o in outcomes :: o.Fetched?
    ensures m.uniqueCounterparties == |AllCounterparties(outcomes, wallet)|
    ensures m.programDiversity == |AllPrograms(outcomes)|
    ensures OneHitPerPair(deny, AllCounterparties(outcomes, wallet), m.counterpartyLabels)
    ensures m.txnsParsed == CountIf(IsFetched(), outcomes) <= Min(cap, |recent|)
    ensures m.measured <==> m.txnsParsed > 0
    ensures rpc.Spent(Cost(rpc.Cap(), cap))
  {
    outcomes := [];
    if cap == 0 || recent == [] {
      return ActivityMetrics(0, 0, [], 0, false), [];
    }
    var t := Totals({}, {}, [], {});
    var parsed := 0;
    var n := Min(cap, |recent|);
    var i := 0;
    while i < n
      invariant i == |outcomes| <= n && WindowOf(rpc.chain, recent, outcomes)
      invariant rpc.NoneFailed() ==> forall o | o in outcomes :: o.Fetched?
      invariant MeasuredBy(t, parsed, outcomes, wallet, deny)
      invariant rpc.Spent(Cost(rpc.Cap(), i))
    {
      var fetched := rpc.GetTransaction(recent[i]);
      t, parsed := AddOutcome(deny, wallet, fetched, t, parsed, outcomes);
      outcomes := outcomes + [fetched];
      i := i + 1;
    }
    CostGrows(rpc.Cap(), n, cap);
    CountIfBounds(IsFetched(), outcomes);
    m := ActivityMetrics(|t.counterparties|, |t.programs|, t.labeled, parsed, parsed > 0);
  }
}
