/** The chain as the service sees it through RPC: an append-only history per address, read through retried calls. */
module Ledger {
  import opened Prelude
  import opened Retry

  type Address = string
  type Signature = string

  const PAGE: nat := 100

  datatype SigInfo = SigInfo(signature: Signature, blockTime: Option<int>)

  /** A decoded transaction: static keys, lamport balances before and after, and the program index of each instruction. */
  datatype TxView = TxView(keys: seq<Address>, pre: seq<nat>, post: seq<nat>, programs: seq<nat>)

  /** Balances line up with the static keys, so position i of each describes the same account. */
  predicate Aligned(tx: TxView) {
    |tx.pre| == |tx.keys| && |tx.post| == |tx.keys|
  }

  /** `tx` is None for a transaction without metadata, or whose payload does not decode. */
  datatype Chain = Chain(
    history: Address -> seq<SigInfo>,   // newest first
    tx: Signature -> Option<TxView>,
    balance: Address -> U64,
    tokenAccounts: Address -> nat)

  datatype TxFetch = Failed | Fetched(tx: Option<TxView>)

  ghost predicate DistinctSignatures(h: seq<SigInfo>) {
    forall i, j | 0 <= i < j < |h| :: h[i].signature != h[j].signature
  }

  ghost predicate WellFormed(chain: Chain) {
    forall a :: DistinctSignatures(chain.history(a))
  }

  /** The part of a history older than `before`. */
  function Older(h: seq<SigInfo>, before: Option<Signature>): seq<SigInfo> {
    if before == None then h
    else if h == [] then []
    else if h[0].signature == before.value then h[1..]
    else Older(h[1..], before)
  }

  /** `getSignaturesForAddress` with limit 100. */
  function PageOf(h: seq<SigInfo>, before: Option<Signature>): seq<SigInfo> {
    var rest := Older(h, before);
    rest[..Min(|rest|, PAGE)]
  }

  /** Asking for what lies before the n-th signature returns exactly the next hundred. */
  lemma {:induction false} PageAfter(h: seq<SigInfo>, n: nat)
    requires DistinctSignatures(h) && n <= |h|
    ensures PageOf(h, CursorAt(h, n)) == h[n..Min(|h|, n + PAGE)]
  {
    if n > 0 {
      OlderThan(h, n - 1);
    }
  }

  lemma {:induction false} OlderThan(h: seq<SigInfo>, i: nat)
    requires DistinctSignatures(h) && i < |h|
    ensures Older(h, Some(h[i].signature)) == h[i + 1..]
  {
    if i > 0 {
      OlderThan(h[1..], i - 1);
    }
  }

  /** One step of any pager: the first n signatures plus the page behind them, and the cursor that results. */
  lemma PageAppended(h: seq<SigInfo>, n: nat)
    requires DistinctSignatures(h) && n <= |h|
    ensures
      var page := PageOf(h, CursorAt(h, n));
      && n + |page| == Min(|h|, n + PAGE)
      && h[..n] + page == h[..n + |page|]
      && (if page == [] then CursorAt(h, n) else Some(page[|page| - 1].signature)) == CursorAt(h, n + |page|)
  {
    PageAfter(h, n);
  }

  /** The cursor a pager holds after reading the first n signatures. */
  function CursorAt(h: seq<SigInfo>, n: nat): Option<Signature>
    requires n <= |h|
  {
    if n == 0 then None else Some(h[n - 1].signature)
  }

  /** Attempts that n requests may cost, at `cap` attempts each. */
  function Cost(cap: nat, n: nat): nat {
    if n == 0 then 0 else Cost(cap, n - 1) + cap
  }

  lemma {:induction false} CostGrows(cap: nat, m: nat, n: nat)
    requires m <= n
    ensures Cost(cap, m) <= Cost(cap, n)
  {
    if m < n {
      CostGrows(cap, m, n - 1);
    }
  }

  lemma {:induction false} CostIs(cap: nat, n: nat)
    ensures Cost(cap, n) == cap * n
  {
    if n > 0 {
      CostIs(cap, n - 1);
      assert cap * n == cap * (n - 1) + cap;
    }
  }

  /** RPC client: every request goes through `with_retry`; `attempts` counts the calls that reach the node. */
  class RpcClient {
    const chain: Chain
    const policy: RetryPolicy
    const fates: nat -> nat -> Attempt<()>   // what befalls attempt k of request n
    var issued: nat
    var attempts: nat
    ghost var failed: nat                    // requests that failed for good, retries included

    constructor (chain: Chain, policy: RetryPolicy, fates: nat -> nat -> Attempt<()>)
      ensures this.chain == chain && this.policy == policy && this.fates == fates
      ensures issued == 0 && attempts == 0 && failed == 0
    {
      this.chain, this.policy, this.fates := chain, policy, fates;
      issued, attempts, failed := 0, 0, 0;
    }

    /** Retry cap of one request. */
    function Cap(): nat {
      Max(1, policy.maxAttempts)
    }

    /** Nothing ever goes wrong. */
    ghost predicate Undisturbed() {
      forall n :: fates(n)(0).result.Ok?
    }

    /** Since the old state: at most `budget` attempts were made, and failures were counted. */
    twostate predicate Spent(budget: nat)
      reads this
    {
      && old(attempts) <= attempts <= old(attempts) + budget
      && failed >= old(failed)
      && (Undisturbed() ==> failed == old(failed))
    }

    /** Since the old state every request succeeded, be it after retries. */
    twostate predicate NoneFailed()
      reads this
    {
      failed == old(failed)
    }

    method Request() returns (ok: bool)
      modifies this
      ensures ok <==> Succeeds(policy, fates(old(issued)))
      ensures issued == old(issued) + 1
      ensures Spent(Cap()) && attempts > old(attempts)
      ensures ok <==> NoneFailed()
    {
      var r, sleeps := WithRetry(policy, fates(issued));
      RetryIsBounded(policy, fates(issued), sleeps);
      OutcomeIsDecided(policy, fates(issued), sleeps);
      if |sleeps| > 0 {
        assert RetriesAfter(policy, fates(issued), sleeps, 0);
      }
      issued := issued + 1;
      attempts := attempts + |sleeps| + 1;
      ok := r.Ok?;
      failed := failed + if ok then 0 else 1;
    }

    method GetSignatures(address: Address, before: Option<Signature>) returns (r: Option<seq<SigInfo>>)
      modifies this
      ensures r.Some? ==> r.value == PageOf(chain.history(address), before)
      ensures r.Some? <==> NoneFailed()
      ensures Spent(Cap())
    {
      var ok := Request();
      r := if ok then Some(PageOf(chain.history(address), before)) else None;
    }

    method GetTransaction(sig: Signature) returns (r: TxFetch)
      modifies this
      ensures r.Fetched? ==> r.tx == chain.tx(sig)
      ensures r.Fetched? <==> NoneFailed()
      ensures Spent(Cap())
    {
      var ok := Request();
      r := if ok then Fetched(chain.tx(sig)) else Failed;
    }

    /** Falls back to 0 when the request fails. */
    method GetBalance(address: Address) returns (lamports: U64)
      modifies this
      ensures lamports == if NoneFailed() then chain.balance(address) else 0
      ensures Spent(Cap())
    {
      var ok := Request();
      lamports := if ok then chain.balance(address) else 0;
    }

    /** Falls back to 0 when the request fails. */
    method GetTokenAccountCount(address: Address) returns (count: nat)
      modifies this
      ensures count == if NoneFailed() then chain.tokenAccounts(address) else 0
      ensures Spent(Cap())
    {
      var ok := Request();
      count := if ok then chain.tokenAccounts(address) else 0;
    }
  }
}
