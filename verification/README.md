# solrisk, verified

A Dafny model of solrisk's decision engine and of the stateful protocols around it, with proofs of what they promise.

The service answers three paid questions about Solana: how risky is a wallet, how risky is a token, and should an agent
sign this transaction. The model covers

- **fund-flow tracing** (`Funding`, `Ledger`, `Activity`, `ChainSignals`): paging an address back to its genesis,
  naming its funder, walking the funding links hop by hop, and measuring recent counterparties, all through retried RPC
  calls that may fail at any point;
- **wallet scoring** (`Labels`, `WalletScoring`, `Bands`, `Assessment`, `Sanctions`): the additive score, composed with
  what the collector can really produce;
- **pre-sign screening** (`TxScreen`, `TxScoring`): the fold over a transaction's instructions, the
  SIGN / REVIEW / BLOCK verdict, and the best-effort simulation;
- **retry, rate limit, parameters, score cache** (`Retry`, `RateLimit`, `Parameters`, `ScoreCache`);
- **the gate** (`Gate`): bearer token or payment, verify then settle, cache, score, respond.

`Prelude` holds the sequence folds the specifications are written with. `dafny verify dfyconfig.toml` checks everything.

## How the outside world appears

- A `Chain` gives every address a newest-first history and every signature a transaction (or one that cannot be mapped).
  It stays fixed during one collection. `RpcClient` counts the calls that reach the node and lets any of them fail;
  `NoneFailed` says of a run that every request succeeded in the end, be it after retries.
- A `Collection` is the ghost record of one run of the collector: what was asked, of which ledger, and what the calls
  returned.
- A `World` fixes what the facilitator, the database, the clock and the RPC node answer while one request is served.
- A database write, the rate limiter's upsert included, carries its fate: not applied, applied, or applied without being
  confirmed.
- Time is an integer (nanoseconds in `Retry`, microseconds in `RateLimit` and `ScoreCache`, seconds elsewhere) and may
  jump in either direction unless a statement says otherwise.
- Flags are datatype constructors; their text formatting (upper-casing of label names included) is not modelled.
- The age bonus `floor(3 ln d)`, capped at 15, is the integer step function with those thresholds.

## Where the code and its documents disagree

The model follows the code.

- `migrations/LABELS.md:24` promises that weight 100 forces `CRITICAL`. The code adds allow weights too, so a wallet
  that also has an allow entry can come out below it (`Sanctions.SanctionedButNotCritical`). In a deployment that reads
  pages and parses transactions, the promise holds for all the collector can report exactly when deny and allow weights
  together reach 100 (`Sanctions.LabelsForceCriticalIff`). `BLOCK` is unaffected.
- `src/rpc_retry.rs:25` says a `SerdeJson` error is retried once; the code retries it like any transient error, up to the
  attempt limit, and so more than once exactly when that is over 2 and the budget over a millisecond
  (`Retry.RetriedAtMostOnceIff`). The comment at line 208 excludes the upper end of the sleep range; the code can draw it
  exactly when that much is left of the budget (`Retry.SleepStaysBelowBackoffIff`).
- `src/signals/tx.rs:51` presents `delta_raw` as post minus pre. The casts wrap: the difference, and its sign, are right
  if and only if it fits in an i64 (`TxScreen.DeltaIsExactIff`, `TxScreen.SignIsRightIff`), and emptying a balance is
  reported as a gain exactly when it was over 2^63 (`TxScreen.DrainLooksLikeInflowIff`). The release build's wrapping
  arithmetic is modelled.
- `src/parameters.rs:11` describes two kinds of keys in one map. They meet where a "*" row is named like a key, as in
  ("*", "wallet-risk:X402_PAY_TO") (`Parameters.StarRowTakesOver`); `Parameters.RuleHoldsIff` says for which tables. The
  query sorts by endpoint (src/db.rs:140), so of several legacy rows for a name the one it lists first decides.
- `public/agent-integration.md` calls `tx-risk` reserved; the code serves it.

## Model

| member | source | states |
|---|---|---|
| `Retry.WithRetry` | src/rpc_retry.rs:157-226 | the loop's sleeps form a legal retry history, the result is the last call's outcome, and it stopped only when no further retry was due |
| `Retry.RetryIsBounded` | src/rpc_retry.rs:157-226 | for all outcomes, durations, draws and timer overshoots: at most max(1, max_attempts) calls, none after Ok or a terminal error, k-th sleep at most initial * 2^(k-1), total sleep below the budget, every retry starts inside the budget but for the timer's own overshoot |
| `Retry.AttemptBoundIsTight` | src/rpc_retry.rs:190-192 | for every policy with over a millisecond to spend and every transient error, some call makes all max(1, max_attempts) attempts |
| `Retry.RetriedAtMostOnceIff` | src/rpc_retry.rs:86-104 | an error, SerdeJson included, is retried at most once iff it is terminal, max_attempts is at most 2, or the budget is a millisecond or less |
| `Retry.RetryIsDetermined` | src/rpc_retry.rs:169-224 | the environment decides the whole call: two finished histories are equal |
| `Retry.OutcomeIsDecided` | src/rpc_retry.rs:169-224 | a call succeeds, at its first attempt or at a later one, exactly when its finished history ends in Ok |
| `Retry.SleepWithinBackoff` | src/rpc_retry.rs:209-217 | jitter, u64 truncation, saturation and shift overflow never push a sleep over the exponential bound |
| `Retry.SleepStaysBelowBackoffIff` | src/rpc_retry.rs:208-217 | for every policy read from the environment, the drawn sleep always stays below its backoff iff less than that is left of the budget |
| `Retry.FromEnv` | src/rpc_retry.rs:63-78 | the clamped ranges and the defaults |
| `Ledger.PageAfter` | src/signals/funding.rs:203-230 | a page requested before the n-th signature is exactly the next hundred |
| `Ledger.PageAppended` | src/signals/funding.rs:218-230 | one step of a pager: what was read grows to a longer prefix of the history, and the cursor follows |
| `Ledger.RpcClient.Request` | src/rpc_retry.rs:157-226 | a request succeeds exactly when its retry loop does, rescued or not, and costs between one and cap attempts |
| `Labels.Build` | src/signals/labels.rs:25-41 | lookup in the built index is an order-preserving filter of the rows |
| `Labels.PartitionIsExact` | src/signals/labels.rs:102-111 | every row lands in exactly one index, by the sign of its weight |
| `Labels.LabelCache.Refresh` | src/signals/labels.rs:88-121 | TTL, empty or failed reads leave the cache alone; otherwise both indexes are the partitioned rows |
| `Funding.ExtractFunder` | src/signals/funding.rs:242-274 | the argmax loop names the first account, other than the wallet's own slot, with the largest positive loss |
| `Funding.FunderExistsIff` | src/signals/funding.rs:253-273 | a funder is missing exactly when alignment, the wallet, its gain or any positive loss is |
| `Funding.FunderPaidItsShare` | src/signals/funding.rs:253-273 | conservation: the funder is another account and lost d with d * (n - 1) at least the wallet's gain |
| `Funding.FunderOf` | src/signals/funding.rs:197-237 | any answer is the true genesis funder of a history that fits the page budget; unless a request fails for good, so is the lack of one |
| `Funding.TraceFunder` | src/signals/funding.rs:102-167 | under any failures the chain is a prefix of the true path and has the shape of a trace; unless a request fails for good it is the true trace |
| `Funding.TracedChainIsTheLongestPath` | src/signals/funding.rs:119-154 | the traced chain is the unique longest funding path cut at the first label, the first untraceable address or the hop budget, on every ledger, cyclic ones included |
| `Funding.ChainGrows` | src/signals/funding.rs:119-154 | larger hop and page budgets extend the chain; a chain that found a label is final |
| `Funding.BudgetsOnlyExtend` | src/signals/funding.rs:119-154 | raising any budget keeps the old chain as a prefix and never clears a badly funded wallet |
| `Activity.Extract` | src/signals/activity.rs:133-170 | counterparties and programs of one transaction, as repeat-free listings of their defining sets |
| `Activity.AnalyzeRecentActivity` | src/signals/activity.rs:61-128 | for any fetch outcomes: the counts are the sizes of the unions, one deny hit per (address, label) pair, and at most min(cap, signatures) parsed |
| `Activity.HitsCountPairs` | src/signals/activity.rs:106-116 | the number of hits is the number of deny-listed (address, label) pairs |
| `ChainSignals.CollectSignatures` | src/signals/chain.rs:115-162 | the signatures are the first 100 * pages of the history, all of it once genesis is reached; unless a request fails for good, genesis is reached iff the history is shorter than 100 * pages |
| `ChainSignals.AggregateTimes` | src/signals/chain.rs:165-185 | counts and flags of the recent window, the latest time, and the first time, block times of zero and below included |
| `ChainSignals.FirstIsUnique` | src/signals/chain.rs:172-174 | the description of the first time fits one value only |
| `ChainSignals.FirstOfPositive` | src/signals/chain.rs:172-174 | for positive block times it is the lowest one |
| `ChainSignals.CollectChainSignals` | src/signals/chain.rs:78-255 | what every field of the record says about the ledger, whatever fails; what more it says when no request fails for good; and the attempts stay within the budget |
| `ChainSignals.CollectionIsDetermined` | src/signals/chain.rs:78-255 | when no request fails for good the ledger decides the whole record, but for the order of the counterparty hits |
| `ChainSignals.AttemptBudgetClosedForm` | src/signals/chain.rs:89-222 | one collection costs at most A * (3 + P + (H - 1) * (Q + 1) + C) attempts |
| `WalletScoring.NearestLabelled` | src/scoring.rs:70-75 | the labelled hop of least number among hops 2 and up |
| `WalletScoring.ScoreWallet` | src/scoring.rs:42-159 | score, band, flags and labels: the score is the points of its flags plus label weights minus deductions, clamped |
| `WalletScoring.FundingContribution` | src/scoring.rs:62-91 | for every trace the tracer can return: at most one funding flag, worth 40, 25, 15, 5 or 0 by the place of the first label |
| `WalletScoring.LabelsDiluteWithDistance` | src/scoring.rs:68-82 | a label further away never weighs more |
| `WalletScoring.MoreTracingLowersOnlyTheUntraced` | src/scoring.rs:62-91 | a larger tracing budget lowers the funding points iff it turns an unread history into a clean or empty one |
| `WalletScoring.FundingFlagsAreTrue` | src/signals/funding.rs:125-151 | no false accusation: a funding flag names a hop where the true path holds a deny-listed address, whatever calls failed |
| `Assessment.BehaviourFlagsExclude` | src/scoring.rs:47-60 | in every collection at most one of the behaviour flags fires |
| `Assessment.FreshFundedExactlyWhen` | src/scoring.rs:47-50 | FRESH_FUNDED fires exactly when the wallet is fresh on the ledger, or not one page of its history was read |
| `Assessment.FreshMeansYoung` | src/signals/chain.rs:187-193 | fresh means fewer than five transactions, none of them a day old |
| `Assessment.DustPatternExactlyWhen` | src/scoring.rs:57-60 | DUST_PATTERN fires exactly when over fifty recent transactions were read and the balance is small or was not read; the ledger holds those transactions |
| `Assessment.DormantIsTrue` | src/scoring.rs:52-55 | DORMANT never fires falsely on a history in time order, whatever fails and however little is read |
| `Assessment.DormantExactlyWhen` | src/scoring.rs:52-55 | DORMANT fires iff some collected signature is at least 31 days old and fewer than three are recent (positive block times) |
| `Assessment.ExposureIsCounted` | src/scoring.rs:95-101 | COUNTERPARTY_LABELED carries the number of deny-listed pairs of the fetched window, and fires iff there are any |
| `Assessment.AllowedExactlyWhen` | src/scoring.rs:32-40 | ALLOW iff no positive label, score under 25 and two pages of history; so at least 100 signatures and never fresh-funded |
| `Assessment.BlockedExactlyWhen` | src/scoring.rs:32-40 | BLOCK iff some label is positive or the score before clamping is at least 75 |
| `Assessment.AssessWallet` | src/api/handlers.rs:293-311 | end to end under any RPC failures: what every flag says about the ledger, BLOCK iff a positive label or 75 points, ALLOW only with 100 signatures on chain |
| `Sanctions.NeverLess` | src/scoring.rs:103-136 | nothing but labels lowers a score by more than 25, or 15 when nothing is parsed; with no page to read it gains 30 |
| `Sanctions.LeastIsReached` | src/scoring.rs:115-136 | for all lists, wallets and budgets, a ledger over any six unlisted addresses and eleven signatures meets that bound, with nothing failing |
| `Sanctions.CollectSpotless` | src/signals/chain.rs:78-255 | the collector, run on that ledger, returns the record that meets the bound |
| `Sanctions.LabelsForceCriticalIff` | src/scoring.rs:103-144 | label weights force CRITICAL over everything the collector can report iff they sum to at least 100 (90 when no transaction is parsed, 45 when no page is read) |
| `Sanctions.SanctionedButNotCritical` | src/scoring.rs:127-144 | for every wallet with one deny entry of 100 and one allow entry, some ledger scores it below 75; still BLOCK |
| `TxScreen.Analyze` | src/signals/tx.rs:124-200 | the findings are exactly those of the instructions, each taken by itself |
| `TxScreen.Simulate` | src/signals/tx.rs:255-353 | what is disclosed comes only from returned slots; any failure discloses nothing |
| `TxScreen.DeltaIsExactIff` | src/signals/tx.rs:366 | the wrapped i64 difference is the true one iff that fits |
| `TxScreen.SignIsRightIff` | src/signals/tx.rs:366 | the sign of the reported difference tells drops from gains iff the true one fits in an i64 |
| `TxScreen.DrainLooksLikeInflowIff` | src/signals/tx.rs:366 | emptying a balance is reported as a gain iff it was over 2^63 |
| `TxScreen.DeltasAreTheMeasuredChanges` | src/signals/tx.rs:358-373 | when differences fit: every delta is a true non-zero change, all of them are there, and they sum to measured post minus pre |
| `TxScreen.SmallBalancesFit` | src/signals/tx.rs:358-373 | balances below 2^63 before and after make all differences fit |
| `TxScreen.OutflowIffMeasuredDrop` | src/signals/tx.rs:326-341 | a negative delta appears iff a measured balance fell |
| `TxScoring.ScoreTx` | src/scoring_tx.rs:31-143 | score, band, verdict, flags and quality of the findings |
| `TxScoring.BlockExactlyWhen` | src/scoring_tx.rs:101-115 | BLOCK iff an instruction resolves to a deny-listed program or is a token-program SetAuthority; then the score is at least 60 |
| `TxScoring.SignExactlyWhen` | src/scoring_tx.rs:101-115 | SIGN iff no lookup tables, every instruction benign, and no simulation error |
| `TxScoring.SignIffNothingFound` | src/scoring_tx.rs:31-115 | SIGN iff score 0 iff no flags |
| `TxScoring.InstructionOrderIsIrrelevant` | src/signals/tx.rs:155-197 | permuted instructions: same score, verdict, quality and multiset of flags |
| `TxScoring.AppendingNeverImproves` | src/signals/tx.rs:155-197 | appended instructions never lower score or verdict |
| `TxScoring.EnrichmentOnlyEscalates` | src/api/handlers.rs:502-508 | simulation never lowers anything and changes the verdict exactly from SIGN to REVIEW on a reported error |
| `TxScoring.ScreenTransaction` | src/api/handlers.rs:497-508 | the pipeline's verdict in terms of the instructions and the simulation reply |
| `TxScoring.RawScoreFitsI32` | src/scoring_tx.rs:32-43 | the i32 sum cannot overflow below 35 million findings |
| `RateLimit.RateBuckets.CheckAndIncrement` | src/db.rs:233-263 | one upsert in one transaction: the counters and the decision, for a failed statement, a commit applied without being confirmed, and a counter past its range |
| `RateLimit.AdmitsExactlyUpToTheLimit` | src/db.rs:233-263 | over any run with any failures: per key and minute, admitted requests and unconfirmed commits together take min(counted requests, limit) places |
| `RateLimit.AdmitsLessExactlyWhen` | src/db.rs:244-262 | of the requests that get an answer, min(answered, limit) are admitted iff nobody is rejected or no unconfirmed commit took a place; else fewer |
| `RateLimit.UnconfirmedCommitCostsAPlace` | src/db.rs:652-655 | limit 2: after one unconfirmed commit the second answered request is already rejected |
| `RateLimit.NeverFailsBelowOverflow` | src/db.rs:244-262 | without database failures, and below 2^31 requests, no check fails |
| `RateLimit.CountsStayInRange` | src/db.rs:261 | no run takes a counter past the range of its column |
| `RateLimit.SlidingWindowBound` | src/db.rs:244-262 | at most 2 * limit admitted per key in any half-open interval of 60 seconds |
| `RateLimit.SlidingWindowBoundIsTight` | src/db.rs:244-262 | and some run reaches it |
| `RateLimit.OtherKeysDoNotMatter` | src/db.rs:248-252 | a key's counters after a run are those of its own requests alone |
| `RateLimit.KeysAreSeparate` | src/auth/dual.rs:54-77 | `ip:` and `payer:` keys never meet, and each names one owner |
| `Parameters.ParametersCache.Refresh` | src/parameters.rs:49-91 | TTL, map construction, and a failed fetch that keeps the map and stamps the time |
| `Parameters.ParametersCache.LookupCached` | src/parameters.rs:93-109 | the key loop returns the first non-empty slot |
| `Parameters.LookupReadsFourSlots` | src/parameters.rs:64-109 | the answer to every lookup of a name without ':', for tables of any rows, stated on the rows |
| `Parameters.LookupFollowsTheRule` | src/parameters.rs:64-109 | built map and lookup agree with the precedence rule on the rows, repeated rows included, where no name collides |
| `Parameters.RuleHoldsIff` | src/parameters.rs:67-78 | a table follows the rule whatever its values iff no "*" row spelled like a looked-up key takes a missing row's place |
| `Parameters.StarRowTakesOver` | src/parameters.rs:69-72 | the row ("*", "wallet-risk:X402_PAY_TO") alone answers the pay-to lookup of wallet-risk, where the rule finds nothing |
| `Parameters.EverySlot` | src/parameters.rs:66-78 | every key of the built map holds its last writer's value, or else its first filler's, for rows of any name |
| `Parameters.RowOrderIsIrrelevantIff` | src/parameters.rs:66-78 | for any table: every order builds the same map iff rows that write one key agree, and so do rows that fill one key no row writes |
| `Parameters.OnlyLegacyRowsMeet` | src/parameters.rs:66-78 | with unique rows and no ':' in them that is: for each name, the legacy rows agree or a "*" row overrules them |
| `Parameters.FrontRowWins` | src/parameters.rs:69-77 | each row that fills a key no row writes decides it when it comes first |
| `Parameters.LegacyOrderMatters` | src/parameters.rs:73-77 | any two legacy rows of one name with different values build two maps in their two orders |
| `ScoreCache.CacheTable.Get` | src/db.rs:292-315 | a read answers the last applied write while younger than its clamped TTL |
| `ScoreCache.CacheTable.Set` | src/db.rs:318-408 | delete and insert in one transaction, all or nothing, whatever fails and whether or not the commit is confirmed |
| `ScoreCache.OneRowPerKey` | src/db.rs:338-379 | after any run of writes a key has at most one row: its last applied write |
| `ScoreCache.ReadsSeeTheLastWrite` | src/db.rs:302-303 | the read query returns at most one row, the cached answer |
| `Gate.SettleBodyAddsOnlyCorrelationId` | src/x402/facilitator.rs:184-191 | settle repeats the verified body, plus at most an absent `correlationId` |
| `Gate.DuplicateHasNoSignature` | src/x402/facilitator.rs:242-257 | a synthetic settlement never yields a `settlement_sig` |
| `Gate.HitDisclosesOnlyItsOwnPayment` | src/api/handlers.rs:131-143 | a hit is the last write's body, fresh, changed only in `cache_hit`, `cached_at` and the requester's own `settlement_sig` |
| `Gate.ScoreBody` | src/api/handlers.rs:313-333 | no stored body has a `settlement_sig` |
| `Gate.Server.VerifyAndSettle` | src/x402/facilitator.rs:165-223 | one verify; one settle exactly after `isValid: true` (section 7.1 of the x402 v2 specification); the proof it yields |
| `Gate.Server.CheckPayment` | src/x402/payment_handler.rs:361-416 | the order of the payment steps and who passes |
| `Gate.Server.VerifyBearer` | src/auth/dual.rs:92-144 | a bearer passes iff its token is valid, current, confirmed un-revoked and within its rate |
| `Gate.Server.GateIsSafe` | src/auth/dual.rs:147-180 | on every run of the gate the facilitator is called only for a payable request within its rate, on the requester's own payment, settle at most once, right after a valid verify and never with a bearer token; and what those calls yield is what the request obtains |
| `Gate.Server.OverLimitOnlyCounts` | src/auth/dual.rs:47-68 | a request is refused for its client's rate iff it is over the limit, and then only its check happens |
| `Gate.Server.ChargedMeansDisclosed` | src/api/common.rs:44-74 | whoever is charged sent a well-formed, payable request within its rate, and the answer, 200, 422 or 503, carries the settlement; a header means a settle call |
| `Gate.Server.ClientsAreBounded` | src/auth/dual.rs:47-68 | over any run of requests at any times, one client gets at most 2 * limit past the gate in any 60 seconds, failed checks apart |
| `Gate.Server.SubscribersAreBounded` | src/auth/dual.rs:70-90 | the same for one subscriber, from however many clients |
| `Gate.Server.IpCheckDoesNotTouchPayers` | src/auth/dual.rs:153-157 | counting a client's request never uses up a subscriber's allowance, at whatever times the two are counted |
| `Gate.Server.AuthenticatePayment` | src/auth/dual.rs:159-179 | a request without a bearer token passes iff its payment is accepted; why not otherwise; and the calls it makes |
| `Gate.Server.AuthenticateDataRoute` | src/auth/dual.rs:147-180 | who gets past the gate, iff, and why not otherwise; every call made, in order; and the counters afterwards |
| `Gate.Server.HandleCachedRoute` | src/api/handlers.rs:253-440 | wallet and token routes: the gate's calls, then work only if authorised; the header is the settlement those calls yield, with its signature in the body, whatever the status; hits, stored bodies, refusals |
| `Gate.Server.HandleTxRisk` | src/api/handlers.rs:446-541 | transaction route: the same, with 200 or 422 after payment |

## Left out

- HTTP, CORS, routing, health, static pages, the manifest builder and the subscribe route.
- RPC, TLS and Postgres wire handling, timeouts, tracing and environment reads: replies and budgets are parameters.
- Base64, bincode, JWT, JSON and SPL instruction decoding, and header parsing: the model starts from decoded values.
- Malformed signatures in RPC replies (`Signature::from_str` failing): replies are taken to be well formed.
- A history that grows while it is being paged.
- Token scoring, pricing, facilitator discovery and `payTo` rewriting.
- Confidence values and the text of flags and messages.
- The overflow of the i32 wallet score by extreme label weights: weights are unbounded integers here.
- Two requests running at the same time, and races on the in-process caches.
- The scoring log and the columns of the score cache that are never read.
- The environment-variable fallback after `lookup_cached`.
- Gate.Server.HandleCachedRoute: one method stands for the two handlers, which differ only in field names and in the label refresh before scoring a wallet.
