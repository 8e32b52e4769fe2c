/** Fund-flow tracing: who funded an address at its genesis, followed hop by hop. */
module Funding {
  import opened Prelude
  import opened Labels
  import opened Ledger

  // ----- Reading the funder off one genesis transaction -----

  predicate FirstAt(keys: seq<Address>, a: Address, w: nat) {
    w < |keys| && keys[w] == a && forall j | 0 <= j < w :: keys[j] != a
  }

  /** The wallet is at position w (its first one) and gained lamports. */
  ghost predicate GainedAt(tx: TxView, wallet: Address, w: nat) {
    && Aligned(tx)
    && FirstAt(tx.keys, wallet, w)
    && tx.pre[w] < tx.post[w]
  }

  function Gain(tx: TxView, i: nat): int
    requires Aligned(tx) && i < |tx.keys|
  {
    var before: int, after: int := tx.pre[i], tx.post[i];
    after - before
  }

  function Loss(tx: TxView, i: nat): nat
    requires Aligned(tx) && i < |tx.keys|
  {
    if tx.post[i] < tx.pre[i] then tx.pre[i] - tx.post[i] else 0
  }

  /** Account i lost the most among all accounts but w, and is the first to have lost that much. */
  ghost predicate BiggestLoser(tx: TxView, w: nat, i: nat)
    requires Aligned(tx)
  {
    && i < |tx.keys| && i != w && Loss(tx, i) > 0
    && (forall j | 0 <= j < |tx.keys| && j != w :: Loss(tx, j) <= Loss(tx, i))
    && (forall j | 0 <= j < i && j != w :: Loss(tx, j) < Loss(tx, i))
  }

  /** Account i of the transaction funded the wallet. */
  ghost predicate Funds(tx: TxView, wallet: Address, i: nat) {
    exists w: nat :: GainedAt(tx, wallet, w) && BiggestLoser(tx, w, i)
  }

  /** The funder, where the transaction shows one. */
  ghost function FunderOfTx(tx: Option<TxView>, wallet: Address): Option<Address> {
    if tx.Some? && exists i: nat :: Funds(tx.value, wallet, i) then
      var i: nat :| Funds(tx.value, wallet, i);
      Some(tx.value.keys[i])
    else None
  }

  lemma SameFunder(tx: TxView, wallet: Address, i: nat, k: nat)
    requires Funds(tx, wallet, i) && Funds(tx, wallet, k)
    ensures i == k
  {
    var w: nat :| GainedAt(tx, wallet, w) && BiggestLoser(tx, w, i);
    var v: nat :| GainedAt(tx, wallet, v) && BiggestLoser(tx, v, k);
    assert v == w;
    assert Loss(tx, i) == Loss(tx, k);
  }

  lemma FunderIsUnique(tx: TxView, wallet: Address, i: nat)
    requires Funds(tx, wallet, i)
    ensures FunderOfTx(Some(tx), wallet) == Some(tx.keys[i])
  {
    var k: nat :| Funds(tx, wallet, k) && FunderOfTx(Some(tx), wallet) == Some(tx.keys[k]);
    SameFunder(tx, wallet, i, k);
  }

  lemma NoFunder(tx: TxView, wallet: Address, w: nat)
    requires GainedAt(tx, wallet, w)
    requires forall i | 0 <= i < |tx.keys| && i != w :: Loss(tx, i) == 0
    ensures FunderOfTx(Some(tx), wallet) == None
  {
    forall i: nat, v: nat | GainedAt(tx, wallet, v) && BiggestLoser(tx, v, i)
      ensures v == w
    {
    }
  }

  method ExtractFunder(encoded: Option<TxView>, wallet: Address) returns (r: Option<Address>)
    ensures r == FunderOfTx(encoded, wallet)
  {
    if encoded == None {
      return None;
    }
    var tx := encoded.value;
    if |tx.pre| != |tx.keys| || |tx.post| != |tx.keys| {
      return None;
    }
    var w := 0;
    while w < |tx.keys| && tx.keys[w] != wallet
      invariant 0 <= w <= |tx.keys|
      invariant forall j | 0 <= j < w :: tx.keys[j] != wallet
    {
      w := w + 1;
    }
    if w == |tx.keys| {
      return None;
    }
    if tx.post[w] <= tx.pre[w] {
      return None;
    }
    var best: Option<(nat, nat)> := None;
    for i := 0 to |tx.keys|
      invariant best == None ==> forall j | 0 <= j < i && j != w :: Loss(tx, j) == 0
      invariant best.Some? ==>
        var (b, d) := best.value;
        && b < i && b != w && d == Loss(tx, b) > 0
        && (forall j | 0 <= j < i && j != w :: Loss(tx, j) <= d)
        && (forall j | 0 <= j < b && j != w :: Loss(tx, j) < d)
    {
      if i != w {
        var decrease := if tx.post[i] < tx.pre[i] then tx.pre[i] - tx.post[i] else 0;
        if decrease > 0 && (best == None || decrease > best.value.1) {
          best := Some((i, decrease));
        }
      }
    }
    if best == None {
      NoFunder(tx, wallet, w);
      return None;
    }
    assert BiggestLoser(tx, w, best.value.0);
    FunderIsUnique(tx, wallet, best.value.0);
    return Some(tx.keys[best.value.0]);
  }

  lemma {:induction false} LoserAmong(tx: TxView, w: nat, n: nat) returns (i: nat)
    requires Aligned(tx) && n <= |tx.keys|
    requires exists j | 0 <= j < n :: j != w && Loss(tx, j) > 0
    ensures i < n && i != w && Loss(tx, i) > 0
    ensures forall j | 0 <= j < n && j != w :: Loss(tx, j) <= Loss(tx, i)
    ensures forall j | 0 <= j < i && j != w :: Loss(tx, j) < Loss(tx, i)
  {
    if exists j | 0 <= j < n - 1 :: j != w && Loss(tx, j) > 0 {
      i := LoserAmong(tx, w, n - 1);
      if n - 1 != w && Loss(tx, i) < Loss(tx, n - 1) {
        i := n - 1;
      }
    } else {
      i := n - 1;
    }
  }

  /** A funder is missing exactly when alignment, the wallet, its gain, or anyone's loss is. */
  lemma FunderExistsIff(tx: TxView, wallet: Address)
    ensures FunderOfTx(Some(tx), wallet).Some? <==>
      exists w: nat, j :: GainedAt(tx, wallet, w) && 0 <= j < |tx.keys| && j != w && Loss(tx, j) > 0
  {
    if w: nat, j :| GainedAt(tx, wallet, w) && 0 <= j < |tx.keys| && j != w && Loss(tx, j) > 0 {
      var i := LoserAmong(tx, w, |tx.keys|);
      assert BiggestLoser(tx, w, i);
      FunderIsUnique(tx, wallet, i);
    }
    if FunderOfTx(Some(tx), wallet).Some? {
      var i: nat :| Funds(tx, wallet, i);
      var w: nat :| GainedAt(tx, wallet, w) && BiggestLoser(tx, w, i);
      assert Loss(tx, i) > 0;
    }
  }

  lemma {:induction false} LossesCoverGain(tx: TxView, w: nat, d: nat, n: nat)
    requires Aligned(tx) && n <= |tx.keys| && w < |tx.keys|
    requires forall j | 0 <= j < |tx.keys| && j != w :: Loss(tx, j) <= d
    ensures Sum(tx.pre[..n]) - Sum(tx.post[..n])
      <= d * (n - if w < n then 1 else 0) - if w < n then Gain(tx, w) else 0
  {
    if n > 0 {
      LossesCoverGain(tx, w, d, n - 1);
      SumStep(tx.pre, n - 1);
      SumStep(tx.post, n - 1);
      if n - 1 != w {
        assert Loss(tx, n - 1) <= d;
        var k := n - 1 - (if w < n - 1 then 1 else 0);
        assert d * (k + 1) == d * k + d;
        assert n - (if w < n then 1 else 0) == k + 1;
      } else {
        assert n - (if w < n then 1 else 0) == n - 1 - (if w < n - 1 then 1 else 0);
      }
    }
  }

  /**
   * Conservation: when no lamports appear from nowhere, whoever is named the funder of a
   * wallet that gained g is another account and lost at least the average share of g.
   */
  lemma FunderPaidItsShare(tx: TxView, wallet: Address, w: nat)
    requires GainedAt(tx, wallet, w) && Distinct(tx.keys)
    requires Sum(tx.post) <= Sum(tx.pre)
    ensures exists i: nat ::
      && BiggestLoser(tx, w, i)
      && FunderOfTx(Some(tx), wallet) == Some(tx.keys[i]) && tx.keys[i] != wallet
      && Loss(tx, i) * (|tx.keys| - 1) >= Gain(tx, w)
  {
    assert tx.pre[..|tx.keys|] == tx.pre && tx.post[..|tx.keys|] == tx.post;
    if !exists j | 0 <= j < |tx.keys| :: j != w && Loss(tx, j) > 0 {
      LossesCoverGain(tx, w, 0, |tx.keys|);
      assert false;
    } else {
      var i := LoserAmong(tx, w, |tx.keys|);
      assert BiggestLoser(tx, w, i);
      FunderIsUnique(tx, wallet, i);
      LossesCoverGain(tx, w, Loss(tx, i), |tx.keys|);
    }
  }

  // ----- One funding link: the funder in an address's genesis transaction -----

  /** The funder of `a`, provided its whole history fits in `pages` pages. */
  ghost function GenesisFunder(chain: Chain, a: Address, pages: nat): Option<Address> {
    var h := chain.history(a);
    if h == [] || |h| >= PAGE * pages then None
    else FunderOfTx(chain.tx(h[|h| - 1].signature), a)
  }

  method FetchFunderFromSig(rpc: RpcClient, sig: Signature, address: Address) returns (r: Option<Address>)
    modifies rpc
    ensures r.Some? ==> rpc.NoneFailed()
    ensures rpc.NoneFailed() ==> r == FunderOfTx(rpc.chain.tx(sig), address)
    ensures rpc.Spent(rpc.Cap())
  {
    var fetched := rpc.GetTransaction(sig);
    if fetched.Failed? {
      return None;
    }
    r := ExtractFunder(fetched.tx, address);
  }

  method FunderOf(rpc: RpcClient, address: Address, hopMaxPages: nat) returns (r: Option<Address>)
    requires WellFormed(rpc.chain)
    modifies rpc
    ensures r.Some? ==> rpc.NoneFailed()
    ensures rpc.NoneFailed() ==> r == GenesisFunder(rpc.chain, address, hopMaxPages)
    ensures rpc.Spent(Cost(rpc.Cap(), hopMaxPages + 1))
  {
    ghost var h := rpc.chain.history(address);
    var before: Option<Signature> := None;
    var earliest: Option<Signature> := None;
    var reached := false;
    var page := 0;
    ghost var read := 0;
    while page < hopMaxPages
      invariant page <= hopMaxPages && read == PAGE * page <= |h| && !reached
      invariant before == earliest == CursorAt(h, read)
      invariant rpc.Spent(Cost(rpc.Cap(), page)) && rpc.NoneFailed()
    {
      assert DistinctSignatures(h);
      PageAppended(h, read);
      CostGrows(rpc.Cap(), page + 1, hopMaxPages + 1);
      var reply := rpc.GetSignatures(address, before);
      if reply == None {
        return None;
      }
      var sigs := reply.value;
      if sigs != [] {
        before := Some(sigs[|sigs| - 1].signature);
        earliest := before;
      }
      page := page + 1;
      read := read + |sigs|;
      if |sigs| < PAGE {
        reached := true;
        break;
      }
    }
    CostGrows(rpc.Cap(), page, hopMaxPages);
    if !reached || earliest == None {
      return None;
    }
    r := FetchFunderFromSig(rpc, earliest.value, address);
  }

  // ----- The chain of funding links -----

  datatype FundingHop = FundingHop(address: Address, hop: nat, labels: seq<TxLabelHit>)

  datatype Classification =
    | NotChecked | NoHistory | PartialHistory | GenesisUntraceable | LabeledBad | TracedClean

  datatype FundingTrace = FundingTrace(
    funder: Option<Address>,
    funderLabels: seq<TxLabelHit>,
    fundingChain: seq<FundingHop>,
    classification: Classification,
    reachedGenesis: bool)

  function SimpleTrace(c: Classification, reached: bool): FundingTrace {
    FundingTrace(None, [], [], c, reached)
  }

  datatype Budgets = Budgets(sigPages: nat, maxHops: nat, hopPages: nat)

  /** Where an address's funding leads, and what the deny list says about an address. */
  type Link = Address -> Option<Address>
  type Labelling = Address -> seq<TxLabelHit>

  ghost function FunderLink(chain: Chain, pages: nat): Link {
    a => GenesisFunder(chain, a, pages)
  }

  function DenyLabelling(deny: LabelIndex): Labelling {
    a => DenyHits(deny, a)
  }

  /**
   * c is the path of funding links from `current`, standing at position `hop`, cut at the first
   * labelled address, the first address whose funder cannot be established, or the hop budget.
   */
  ghost predicate PathFrom(link: Link, labels: Labelling, current: Address, hop: nat, maxHops: nat, c: seq<FundingHop>) {
    && 1 <= |c| <= maxHops - hop + 1
    && c[0].address == current
    && (forall i | 0 <= i < |c| :: c[i].hop == hop + i && c[i].labels == labels(c[i].address))
    && (forall i | 0 <= i < |c| - 1 :: c[i].labels == [] && link(c[i].address) == Some(c[i + 1].address))
    && (|c| == maxHops - hop + 1 || c[|c| - 1].labels != [] || link(c[|c| - 1].address) == None)
  }

  ghost predicate LongestFundingPath(link: Link, labels: Labelling, start: Address, maxHops: nat, c: seq<FundingHop>) {
    PathFrom(link, labels, start, 1, maxHops, c)
  }

  /** The path, hop by hop, from `current` at position `hop`. */
  function ChainFrom(link: Link, labels: Labelling, current: Address, hop: nat, maxHops: nat): seq<FundingHop>
    decreases maxHops - hop
  {
    var here := FundingHop(current, hop, labels(current));
    if here.labels != [] || hop >= maxHops then [here]
    else
      var next := link(current);
      if next == None then [here] else [here] + ChainFrom(link, labels, next.value, hop + 1, maxHops)
  }

  /** Every trace of every run has this shape. */
  ghost predicate TraceShape(t: FundingTrace) {
    var c := t.fundingChain;
    && (t.classification in {LabeledBad, TracedClean} <==> c != [])
    && t.classification != NotChecked
    && (t.reachedGenesis <==> t.classification != PartialHistory)
    && (forall i | 0 <= i < |c| :: c[i].hop == i + 1)
    && (forall i | 0 <= i < |c| - 1 :: c[i].labels == [])
    && (c != [] ==> (t.classification == LabeledBad <==> c[|c| - 1].labels != []))
    && t.funder == (if c == [] then None else Some(c[0].address))
    && t.funderLabels == (if c == [] then [] else c[0].labels)
  }

  /** `link` names the funder link of a ledger without unfolding what a funder is. */
  ghost predicate IsFunderLink(link: Link, chain: Chain, pages: nat) {
    forall a {:trigger GenesisFunder(chain, a, pages)} :: link(a) == GenesisFunder(chain, a, pages)
  }

  method FollowLink(rpc: RpcClient, address: Address, pages: nat, ghost link: Link) returns (r: Option<Address>)
    requires WellFormed(rpc.chain) && IsFunderLink(link, rpc.chain, pages)
    modifies rpc
    ensures r.Some? ==> rpc.NoneFailed()
    ensures rpc.NoneFailed() ==> r == link(address)
    ensures rpc.Spent(Cost(rpc.Cap(), pages + 1))
  {
    r := FunderOf(rpc, address, pages);
  }

  /** The hop loop: from the wallet's direct funder up to the stop. */
  method WalkChain(
    rpc: RpcClient, labels: Labelling, hop1: Address, maxHops: nat, hopPages: nat, ghost link: Link)
    returns (chain: seq<FundingHop>)
    requires WellFormed(rpc.chain) && IsFunderLink(link, rpc.chain, hopPages) && maxHops >= 1
    modifies rpc
    // a prefix of the true path, and the whole of it when no call failed
    ensures [] < chain <= ChainFrom(link, labels, hop1, 1, maxHops)
    ensures rpc.NoneFailed() ==> chain == ChainFrom(link, labels, hop1, 1, maxHops)
    ensures rpc.Spent(HopsCost(rpc.Cap(), hopPages, maxHops - 1))
  {
    ghost var path := ChainFrom(link, labels, hop1, 1, maxHops);
    chain := [];
    var current := hop1;
    var hop := 1;
    while true
      invariant 1 <= hop <= maxHops
      invariant path == chain + ChainFrom(link, labels, current, hop, maxHops)
      invariant rpc.Spent(HopsCost(rpc.Cap(), hopPages, hop - 1)) && rpc.NoneFailed()
      decreases maxHops - hop
    {
      var found := labels(current);
      HopReached(link, labels, current, hop, maxHops, chain, path);
      HopsCostGrows(rpc.Cap(), hopPages, hop - 1, maxHops - 1);
      chain := chain + [FundingHop(current, hop, found)];
      if found != [] || hop >= maxHops {
        break;
      }
      var next := FollowLink(rpc, current, hopPages, link);
      HopsCostGrows(rpc.Cap(), hopPages, hop, maxHops - 1);
      if next == None {
        break;
      }
      current := next.value;
      hop := hop + 1;
    }
  }

  /** Standing at `current` after walking `walked`, the path goes through `current` and on along its link. */
  lemma HopReached(
    link: Link, labels: Labelling, current: Address, hop: nat, maxHops: nat, walked: seq<FundingHop>, path: seq<FundingHop>)
    requires path == walked + ChainFrom(link, labels, current, hop, maxHops)
    ensures
      var here := walked + [FundingHop(current, hop, labels(current))];
      && [] < here <= path
      && (if labels(current) == [] && hop < maxHops && link(current).Some?
          then path == here + ChainFrom(link, labels, link(current).value, hop + 1, maxHops)
          else path == here)
  {
  }

  /** RPC attempts spent on n further hops: `pages` pages and one transaction each. */
  function HopsCost(cap: nat, pages: nat, n: nat): nat {
    if n == 0 then 0 else HopsCost(cap, pages, n - 1) + Cost(cap, pages + 1)
  }

  lemma {:induction false} HopsCostGrows(cap: nat, pages: nat, m: nat, n: nat)
    requires m <= n
    ensures HopsCost(cap, pages, m) <= HopsCost(cap, pages, n)
  {
    if m < n {
      HopsCostGrows(cap, pages, m, n - 1);
    }
  }

  lemma {:induction false} HopsCostIs(cap: nat, pages: nat, n: nat)
    ensures HopsCost(cap, pages, n) == cap * (n * (pages + 1))
  {
    if n > 0 {
      HopsCostIs(cap, pages, n - 1);
      CostIs(cap, pages + 1);
      assert n * (pages + 1) == (n - 1) * (pages + 1) + (pages + 1);
      assert cap * ((n - 1) * (pages + 1) + (pages + 1)) == cap * ((n - 1) * (pages + 1)) + cap * (pages + 1);
    }
  }

  function TraceOf(c: seq<FundingHop>): FundingTrace
    requires c != []
  {
    FundingTrace(Some(c[0].address), c[0].labels, c, if AnyLabelled(c) then LabeledBad else TracedClean, true)
  }

  lemma PrefixShape(link: Link, labels: Labelling, hop1: Address, maxHops: nat, c: seq<FundingHop>)
    requires maxHops >= 1 && [] < c <= ChainFrom(link, labels, hop1, 1, maxHops)
    ensures TraceShape(TraceOf(c))
  {
    var path := ChainFrom(link, labels, hop1, 1, maxHops);
    ChainFromIsPath(link, labels, hop1, 1, maxHops);
    assert forall i | 0 <= i < |c| :: c[i] == path[i];
  }

  /** The trace from the wallet's direct funder on; None when its genesis transaction shows no funder. */
  method TraceFrom(rpc: RpcClient, deny: LabelIndex, hop1: Option<Address>, b: Budgets) returns (t: FundingTrace)
    requires WellFormed(rpc.chain) && b.maxHops >= 1
    modifies rpc
    ensures TraceShape(t) && t.reachedGenesis && t.classification != NoHistory
    ensures hop1 == None ==> t == SimpleTrace(GenesisUntraceable, true)
    ensures
      var ideal := TraceFromHop1(rpc.chain, deny, hop1, b);
      t.fundingChain <= ideal.fundingChain && (rpc.NoneFailed() ==> t == ideal)
    ensures rpc.Spent(HopsCost(rpc.Cap(), b.hopPages, b.maxHops - 1))
  {
    if hop1 == None {
      return SimpleTrace(GenesisUntraceable, true);
    }
    var labels := DenyLabelling(deny);
    ghost var link := FunderLink(rpc.chain, b.hopPages);
    var chain := WalkChain(rpc, labels, hop1.value, b.maxHops, b.hopPages, link);
    PrefixShape(link, labels, hop1.value, b.maxHops, chain);
    t := TraceOf(chain);
  }

  method TraceFunder(
    rpc: RpcClient, deny: LabelIndex, wallet: Address, earliestSig: Option<Signature>, reachedGenesis: bool, b: Budgets)
    returns (t: FundingTrace)
    requires WellFormed(rpc.chain) && b.maxHops >= 1
    modifies rpc
    ensures TraceShape(t)
    ensures !reachedGenesis <==> t.classification == PartialHistory
    ensures reachedGenesis ==> (earliestSig == None <==> t.classification == NoHistory)
    ensures reachedGenesis && earliestSig.Some? ==>
      var ideal := TraceFromHop1(rpc.chain, deny, FunderOfTx(rpc.chain.tx(earliestSig.value), wallet), b);
      t.fundingChain <= ideal.fundingChain && (rpc.NoneFailed() ==> t == ideal)
    ensures rpc.Spent(rpc.Cap() + HopsCost(rpc.Cap(), b.hopPages, b.maxHops - 1))
  {
    if !reachedGenesis {
      return SimpleTrace(PartialHistory, false);
    }
    if earliestSig == None {
      return SimpleTrace(NoHistory, true);
    }
    var hop1 := FetchFunderFromSig(rpc, earliestSig.value, wallet);
    t := TraceFrom(rpc, deny, hop1, b);
  }

  /** The trace of a wallet whose direct funder is known, when every later call succeeds. */
  ghost function TraceFromHop1(chain: Chain, deny: LabelIndex, hop1: Option<Address>, b: Budgets): FundingTrace {
    if hop1 == None then SimpleTrace(GenesisUntraceable, true)
    else TraceOf(ChainFrom(FunderLink(chain, b.hopPages), DenyLabelling(deny), hop1.value, 1, b.maxHops))
  }

  // ----- The traced chain is the longest funding path, and the only one -----

  lemma {:induction false} ChainFromIsPath(link: Link, labels: Labelling, current: Address, hop: nat, maxHops: nat)
    requires 1 <= hop <= maxHops
    ensures PathFrom(link, labels, current, hop, maxHops, ChainFrom(link, labels, current, hop, maxHops))
    decreases maxHops - hop
  {
    var next := link(current);
    if labels(current) == [] && hop < maxHops && next.Some? {
      ChainFromIsPath(link, labels, next.value, hop + 1, maxHops);
    }
  }

  lemma {:induction false} PathPrefixesAgree(
    link: Link, labels: Labelling, start: Address, maxHops: nat, c: seq<FundingHop>, d: seq<FundingHop>, n: nat)
    requires LongestFundingPath(link, labels, start, maxHops, c) && LongestFundingPath(link, labels, start, maxHops, d)
    requires 1 <= n <= |c| && n <= |d|
    ensures c[..n] == d[..n]
  {
    if n == 1 {
      assert c[..1] == [c[0]] && d[..1] == [d[0]];
    } else {
      PathPrefixesAgree(link, labels, start, maxHops, c, d, n - 1);
      assert c[n - 2] == c[..n - 1][n - 2] == d[..n - 1][n - 2] == d[n - 2];
      assert c[..n] == c[..n - 1] + [c[n - 1]] && d[..n] == d[..n - 1] + [d[n - 1]];
    }
  }

  lemma PathIsNotLonger(
    link: Link, labels: Labelling, start: Address, maxHops: nat, c: seq<FundingHop>, d: seq<FundingHop>)
    requires LongestFundingPath(link, labels, start, maxHops, c) && LongestFundingPath(link, labels, start, maxHops, d)
    ensures |d| <= |c|
  {
    if |c| < |d| {
      var next := d[|c|];
      PathPrefixesAgree(link, labels, start, maxHops, c, d, |c|);
    }
  }

  /** For every ledger, deny list and budget, cyclic or not, exactly one sequence is the longest funding path. */
  lemma TracedChainIsTheLongestPath(link: Link, labels: Labelling, start: Address, maxHops: nat, c: seq<FundingHop>)
    requires maxHops >= 1
    ensures LongestFundingPath(link, labels, start, maxHops, c) <==> c == ChainFrom(link, labels, start, 1, maxHops)
  {
    var d := ChainFrom(link, labels, start, 1, maxHops);
    ChainFromIsPath(link, labels, start, 1, maxHops);
    if LongestFundingPath(link, labels, start, maxHops, c) {
      PathIsNotLonger(link, labels, start, maxHops, c, d);
      PathIsNotLonger(link, labels, start, maxHops, d, c);
      PathPrefixesAgree(link, labels, start, maxHops, c, d, |c|);
      assert c == c[..|c|] && d == d[..|c|];
    }
  }

  // ----- Budget monotonicity -----

  predicate NoLargerThan(b: Budgets, b': Budgets) {
    b.sigPages <= b'.sigPages && b.maxHops <= b'.maxHops && b.hopPages <= b'.hopPages
  }

  /** Every funder the first link establishes, the second establishes too. */
  ghost predicate Extends(link: Link, link': Link) {
    forall a | link(a).Some? :: link'(a) == link(a)
  }

  predicate AnyLabelled(c: seq<FundingHop>) {
    exists i | 0 <= i < |c| :: c[i].labels != []
  }

  lemma {:induction false} ChainGrows(
    link: Link, link': Link, labels: Labelling, current: Address, hop: nat, maxHops: nat, maxHops': nat)
    requires Extends(link, link') && maxHops <= maxHops'
    ensures
      var c, c' := ChainFrom(link, labels, current, hop, maxHops), ChainFrom(link', labels, current, hop, maxHops');
      c <= c' && (AnyLabelled(c) ==> c' == c)
    decreases maxHops - hop
  {
    var next := link(current);
    if labels(current) == [] && hop < maxHops && next.Some? {
      ChainGrows(link, link', labels, next.value, hop + 1, maxHops, maxHops');
      var c, rest := ChainFrom(link, labels, current, hop, maxHops), ChainFrom(link, labels, next.value, hop + 1, maxHops);
      if i :| 0 <= i < |c| && c[i].labels != [] {
        assert rest[i - 1].labels != [];
      }
    }
  }

  /** What a wallet's trace is when every call succeeds. */
  ghost function IdealTrace(chain: Chain, deny: LabelIndex, wallet: Address, b: Budgets): FundingTrace {
    var h := chain.history(wallet);
    if |h| >= PAGE * b.sigPages then SimpleTrace(PartialHistory, false)
    else if h == [] then SimpleTrace(NoHistory, true)
    else TraceFromHop1(chain, deny, FunderOfTx(chain.tx(h[|h| - 1].signature), wallet), b)
  }

  /** Looking further only extends the chain, and never clears a wallet already found to be badly funded. */
  lemma BudgetsOnlyExtend(chain: Chain, deny: LabelIndex, wallet: Address, b: Budgets, b': Budgets)
    requires NoLargerThan(b, b')
    ensures
      var t, t' := IdealTrace(chain, deny, wallet, b), IdealTrace(chain, deny, wallet, b');
      && t.fundingChain <= t'.fundingChain
      && (t.classification == LabeledBad ==> t' == t)
      && (t.classification !in {PartialHistory, TracedClean} ==> t' == t)
  {
    assert PAGE * b.sigPages <= PAGE * b'.sigPages && PAGE * b.hopPages <= PAGE * b'.hopPages;
    var h := chain.history(wallet);
    if h != [] && |h| < PAGE * b.sigPages {
      var hop1 := FunderOfTx(chain.tx(h[|h| - 1].signature), wallet);
      if hop1.Some? {
        ChainGrows(FunderLink(chain, b.hopPages), FunderLink(chain, b'.hopPages), DenyLabelling(deny),
                   hop1.value, 1, b.maxHops, b'.maxHops);
      }
    }
  }
}
