/** Dual auth, verify-then-settle, and the data handlers behind them. */
module Gate {
  import opened Prelude
  import opened ScoreCache
  import opened RateLimit
  import Retry

  // ----- Requests, replies, effects -----

  datatype SettlementProof = SettlementProof(response: Json)

  datatype Claims = Claims(payer: string, iat: int, exp: int)

  datatype TokenCheck = Valid(claims: Claims) | Expired | Malformed

  /** `bearer` is the non-empty token of the Authorization header; `payment` the parsed PAYMENT-SIGNATURE header. */
  datatype Request = Request(ip: string, bearer: Option<string>, payment: Option<Result<Json, string>>)

  /** The settle endpoint's answer; `json` is None when the text does not parse. */
  datatype SettleReply = SettleReply(success2xx: bool, text: string, json: Option<Json>)

  /** What the outside answers while one request is served. */
  datatype World = World(
    ipNow: int, ipFate: CheckFate, payerNow: int, payerFate: CheckFate,
    token: TokenCheck, clock: int, revoked: Result<bool, string>,
    free: bool, requirementsOk: bool,
    verifyReply: Result<Json, string>, settleReply: Result<SettleReply, string>,
    readNow: int, readOk: bool, writeNow: int, writeFate: WriteFate,
    decodes: bool, scored: Result<Scored, string>, txScored: Scored)

  datatype Scored = Scored(
    riskScore: Json, riskBand: Json, riskDomain: Json, checkedAt: Json, signals: Json, flags: Json, labels: Json,
    confidence: Json, signalQuality: Json, scoringVersion: Json, recommendation: Json)

  datatype DataAuth = Subscription(payer: string) | PerCall(proof: Option<SettlementProof>)

  datatype AuthError =
    | TokenExpired | MissingToken | TokenRevoked | RevocationUnverified
    | RateLimited | SubscriberRateLimited
    | PaymentRequired | RequirementsUnavailable

  datatype Code = Served | BadRequest | Denied(error: AuthError) | RpcError | InvalidTransaction

  datatype Effect =
    | RateCheck(key: string)
    | RevocationCheck(payer: string)
    | VerifyCall(body: Json)
    | SettleCall(body: Json)
    | CacheRead(endpoint: string, subject: string)
    | Scoring(subject: string)
    | CacheWrite(endpoint: string, subject: string)

  /** A request that reaches the gate, with the answers of its world. */
  datatype Arrival = Arrival(req: Request, w: World)

  datatype Response = Response(status: int, code: Code, body: Json, paymentResponse: Option<Json>)

  // ----- JSON access -----

  function Field(v: Json, key: string): Option<Json> {
    if v.JObj? && key in v.fields then Some(v.fields[key]) else None
  }

  function AsStr(v: Option<Json>): Option<string> {
    if v.Some? && v.value.JStr? then Some(v.value.s) else None
  }

  function AsBool(v: Option<Json>): Option<bool> {
    if v.Some? && v.value.JBool? then Some(v.value.b) else None
  }

  function NonEmpty(s: Option<string>): Option<string> {
    if s.Some? && s.value != "" then s else None
  }

  // ----- Facilitator -----

  predicate IsValidReply(verify: Json) {
    AsBool(Field(verify, "isValid")) == Some(true)
  }

  predicate IsDuplicateSettleBody(text: string) {
    var lower := Retry.ToLower(text);
    Retry.Contains(lower, "already been processed") || Retry.Contains(lower, "alreadyprocessed")
  }

  function MergeCorrelationId(body: Json, cid: string): Json {
    if body.JObj? && "correlationId" !in body.fields then JObj(body.fields["correlationId" := JStr(cid)]) else body
  }

  /** The body sent to settle after a valid verify reply. */
  function SettleBody(body: Json, verify: Json): Json {
    var cid := NonEmpty(AsStr(Field(verify, "correlationId")));
    if cid.Some? then MergeCorrelationId(body, cid.value) else body
  }

  function NetworkOf(proof: Json): string {
    var reqs := if Field(proof, "paymentRequirements").Some? && Field(Field(proof, "paymentRequirements").value, "network").Some?
                then Field(proof, "paymentRequirements") else Field(proof, "payment_requirements");
    var network := if reqs.Some? then AsStr(Field(reqs.value, "network")) else None;
    if network.Some? then network.value else ""
  }

  function SyntheticSettlement(verify: Json, proof: Json, text: string): Json {
    JObj(map[
      "success" := JBool(true),
      "payer" := if Field(verify, "payer").Some? then Field(verify, "payer").value else JNull,
      "network" := JStr(NetworkOf(proof)),
      "transaction" := JStr(""),
      "settlementNote" := JStr("verify succeeded; settle reported duplicate on-chain"),
      "settleErrorPreview" := JStr(text[..Min(|text|, 240)])])
  }

  /** What settling `body` yields, once verify has answered `verify`: an error, or the settlement JSON. */
  function SettleResult(verify: Json, body: Json, reply: Result<SettleReply, string>): Option<Json> {
    if reply.Err? then None
    else if !reply.value.success2xx then
      if IsDuplicateSettleBody(reply.value.text)
      then Some(SyntheticSettlement(verify, body, reply.value.text)) else None
    else if reply.value.json == None then None
    else if AsBool(Field(reply.value.json.value, "success")) == Some(false) then None
    else reply.value.json
  }

  /** The proof a request's payment yields, if verify accepts it and settle succeeds. */
  function PaymentProof(body: Json, w: World): Option<Json> {
    if w.verifyReply.Ok? && IsValidReply(w.verifyReply.value)
    then SettleResult(w.verifyReply.value, body, w.settleReply) else None
  }

  /** Settling repeats the verified body; at most it gains a `correlationId` it did not have. */
  lemma SettleBodyAddsOnlyCorrelationId(body: Json, verify: Json)
    ensures
      var sent := SettleBody(body, verify);
      sent == body || (
        && body.JObj? && sent.JObj?
        && "correlationId" !in body.fields
        && sent.fields.Keys == body.fields.Keys + {"correlationId"}
        && (forall k | k in body.fields :: sent.fields[k] == body.fields[k])
        && Field(sent, "correlationId") == Field(verify, "correlationId"))
  {
  }

  // ----- Settlement disclosure -----

  function SettlementSig(proof: SettlementProof): Option<string> {
    var tx := Field(proof.response, "transaction");
    NonEmpty(AsStr(if tx.Some? then tx else Field(proof.response, "signature")))
  }

  /** A duplicate settlement is disclosed in the header, but never as a transaction signature. */
  lemma DuplicateHasNoSignature(verify: Json, body: Json, text: string)
    ensures SettlementSig(SettlementProof(SyntheticSettlement(verify, body, text))) == None
  {
    assert Field(SyntheticSettlement(verify, body, text), "transaction") == Some(JStr(""));
  }

  function ProofIn(auth: DataAuth): Option<SettlementProof> {
    if auth.PerCall? then auth.proof else None
  }

  function HeaderOf(proof: Option<SettlementProof>): Option<Json> {
    if proof.Some? then Some(proof.value.response) else None
  }

  /** The signature that a settlement in the header is disclosed with. */
  function SigOf(header: Option<Json>): Option<Json> {
    if header.Some? && SettlementSig(SettlementProof(header.value)).Some?
    then Some(JStr(SettlementSig(SettlementProof(header.value)).value)) else None
  }

  function WithSig(body: Json, proof: Option<SettlementProof>): Json {
    if proof.Some? && SettlementSig(proof.value).Some? && body.JObj?
    then JObj(body.fields["settlement_sig" := JStr(SettlementSig(proof.value).value)]) else body
  }

  function EnrichCached(body: Json, cachedAt: int): Json {
    if body.JObj? then JObj(body.fields["cache_hit" := JBool(true)]["cached_at" := JNum(cachedAt)]) else body
  }

  predicate HasNoSig(body: Json) {
    Field(body, "settlement_sig") == None
  }

  ghost predicate CleanLog(log: seq<Write>) {
    forall w | w in log :: w.body.JObj? && HasNoSig(w.body)
  }

  /**
   * What a cache hit sends: the fields of the last applied write for this key, younger than its
   * TTL, with only the cache disclosure rewritten and no settlement but the requester's own.
   */
  lemma HitDisclosesOnlyItsOwnPayment(
    log: seq<Write>, endpoint: string, subject: string, now: int, proof: Option<SettlementProof>)
    requires CleanLog(log)
    ensures
      var hit := CachedAnswer(log, endpoint, subject, now);
      hit.Some? ==>
        var last := LastWrite(log, endpoint, subject);
        var sent := WithSig(EnrichCached(hit.value.0, hit.value.1), proof);
        && last.Some? && last.value in log && now - last.value.at < ClampTtl(last.value.ttlSecs) * SECOND
        && (forall k | k !in {"cache_hit", "cached_at", "settlement_sig"} :: Field(sent, k) == Field(last.value.body, k))
        && Field(sent, "cache_hit") == Some(JBool(true))
        && Field(sent, "cached_at") == Some(JNum(last.value.at))
        && Field(sent, "settlement_sig") ==
             if proof.Some? && SettlementSig(proof.value).Some? then Some(JStr(SettlementSig(proof.value).value)) else None
  {
    LastWriteKey(log, endpoint, subject);
    DisclosureKeysDiffer();
  }

  lemma DisclosureKeysDiffer()
    ensures "cache_hit" != "cached_at" && "cache_hit" != "settlement_sig" && "cached_at" != "settlement_sig"
  {
    assert "cache_hit"[5] != "cached_at"[5];
    assert "cache_hit"[0] != "settlement_sig"[0];
    assert "cached_at"[0] != "settlement_sig"[0];
  }

  function OkWithPayment(body: Json, proof: Option<SettlementProof>): Response {
    Response(200, Served, WithSig(body, proof), HeaderOf(proof))
  }

  function AuthErrorText(e: AuthError): string {
    match e
    case TokenExpired => "TOKEN_EXPIRED"
    case MissingToken => "MISSING_TOKEN"
    case TokenRevoked => "TOKEN_REVOKED"
    case RevocationUnverified => "REVOCATION_UNVERIFIED"
    case RateLimited => "RATE_LIMIT_EXCEEDED"
    case SubscriberRateLimited => "SUBSCRIBER_RATE_LIMIT_EXCEEDED"
    case PaymentRequired => "PAYMENT_REQUIRED"
    case RequirementsUnavailable => "PAYMENT_REQUIREMENTS_UNAVAILABLE"
  }

  function AuthErrorStatus(e: AuthError): int {
    match e
    case RateLimited => 429
    case SubscriberRateLimited => 429
    case PaymentRequired => 402
    case RequirementsUnavailable => 503
    case _ => 401
  }

  function ErrorBody(text: string): (body: Json)
    ensures body.JObj? && HasNoSig(body)
  {
    JObj(map["error" := JStr(text), "code" := JStr(text)])
  }

  function AuthErrorResponse(e: AuthError): Response {
    Response(AuthErrorStatus(e), Denied(e), ErrorBody(AuthErrorText(e)), None)
  }

  function BadRequestResponse(): Response {
    Response(400, BadRequest, ErrorBody("BAD_REQUEST"), None)
  }

  function ErrorWithSettlement(status: int, code: Code, text: string, auth: DataAuth): Response {
    Response(status, code, WithSig(ErrorBody(text), ProofIn(auth)), HeaderOf(ProofIn(auth)))
  }

  // ----- Routes -----

  datatype CachedRoute = WalletRisk | TokenRisk

  function EndpointOf(route: CachedRoute): string {
    match route case WalletRisk => "wallet-risk" case TokenRisk => "token-risk"
  }

  const CACHE_TTL_SECS: int := 300

  function Envelope(cluster: string, recommendation: Json): map<string, Json> {
    map["cluster" := JStr(cluster), "recommendation" := recommendation, "cache_hit" := JBool(false)]
  }

  function ScoreBody(route: CachedRoute, subject: string, s: Scored, cluster: string): (body: Json)
    ensures body.JObj? && HasNoSig(body)
  {
    var own := match route
      case WalletRisk => map["wallet" := JStr(subject), "labels" := s.labels]
      case TokenRisk => map["mint" := JStr(subject), "risk_domain" := s.riskDomain];
    JObj(map[
      "api_version" := JNum(2), "risk_score" := s.riskScore, "risk_band" := s.riskBand, "checked_at" := s.checkedAt,
      "signals" := s.signals, "flags" := s.flags, "confidence" := s.confidence,
      "signal_quality" := s.signalQuality, "scoring_version" := s.scoringVersion]
      + own + Envelope(cluster, s.recommendation))
  }

  function TxBody(s: Scored, cluster: string): (body: Json)
    ensures body.JObj? && HasNoSig(body)
  {
    JObj(map[
      "api_version" := JNum(2), "risk_domain" := s.riskDomain, "risk_score" := s.riskScore, "risk_band" := s.riskBand,
      "checked_at" := s.checkedAt, "signals" := s.signals, "flags" := s.flags, "confidence" := s.confidence,
      "signal_quality" := s.signalQuality, "scoring_version" := s.scoringVersion]
      + Envelope(cluster, s.recommendation))
  }

  // ----- What a run of the gate may look like -----

  predicate IsGateEffect(e: Effect) {
    e.RateCheck? || e.RevocationCheck? || e.VerifyCall? || e.SettleCall?
  }

  predicate IsWorkEffect(e: Effect) {
    e.CacheRead? || e.Scoring? || e.CacheWrite?
  }

  /** Settle happens at most once, right after a verify that answered `isValid: true`, on the body that was verified. */
  ghost predicate SettleDiscipline(t: seq<Effect>, w: World) {
    && (forall i, j | 0 <= i < j < |t| :: !(t[i].SettleCall? && t[j].SettleCall?))
    && (forall i, j | 0 <= i < j < |t| :: !(t[i].VerifyCall? && t[j].VerifyCall?))
    && (forall i | 0 <= i < |t| && t[i].SettleCall? ::
          && i > 0 && t[i - 1].VerifyCall?
          && w.verifyReply.Ok? && IsValidReply(w.verifyReply.value)
          && t[i].body == SettleBody(t[i - 1].body, w.verifyReply.value))
  }

  /** What the gate does before any work; a request with a bearer token touches no payment. */
  ghost predicate GateTrace(t: seq<Effect>, req: Request, w: World) {
    && (forall e | e in t :: IsGateEffect(e))
    && SettleDiscipline(t, w)
    && (req.bearer.Some? ==> forall e | e in t :: !e.VerifyCall? && !e.SettleCall?)
  }

  ghost predicate Settles(t: seq<Effect>) {
    exists e | e in t :: e.SettleCall?
  }

  /** The request offers a payment that the endpoint can take. */
  ghost predicate Payable(req: Request, w: World) {
    req.bearer == None && req.payment.Some? && req.payment.value.Ok? && !w.free && w.requirementsOk
  }

  /** The settlement that a run's calls yield, if it settles at all. */
  ghost function Settlement(t: seq<Effect>, req: Request, w: World): Option<Json> {
    if Settles(t) && req.payment.Some? && req.payment.value.Ok? then PaymentProof(req.payment.value.value, w) else None
  }

  class Server {
    const hasDb: bool
    const globalLimit: nat
    const payerLimit: nat
    const cluster: string
    const buckets: RateBuckets
    const cache: CacheTable
    ghost var trace: seq<Effect>
    ghost var arrivals: seq<Arrival>   // every request that reached the gate

    ghost predicate Valid()
      reads this, buckets, cache
    {
      && RatesFollow(buckets.counts, buckets.log, arrivals)
      && cache.Valid() && CleanLog(cache.log)
    }

    constructor (hasDb: bool, globalLimit: nat, payerLimit: nat, cluster: string)
      ensures Valid() && fresh(buckets) && fresh(cache) && trace == [] && arrivals == []
    {
      this.hasDb, this.globalLimit, this.payerLimit, this.cluster := hasDb, globalLimit, payerLimit, cluster;
      buckets := new RateBuckets();
      cache := new CacheTable();
      trace, arrivals := [], [];
    }

    // ----- Rate limits -----

    function IpCheck(req: Request, w: World): RateLimit.Request {
      RateLimit.Request(IpKey(req.ip), w.ipNow, w.ipFate)
    }

    function PayerCheck(payer: string, w: World): RateLimit.Request {
      RateLimit.Request(PayerKey(payer), w.payerNow, w.payerFate)
    }

    /** Without a database nobody is limited. */
    predicate Passes(counts: map<Bucket, nat>, check: RateLimit.Request, limit: nat) {
      hasDb ==> Decide(counts, check, limit) != Reject
    }

    /** A database failure lets the request pass. */
    method CheckRate(check: RateLimit.Request, limit: nat) returns (pass: bool)
      modifies this`trace, buckets
      ensures pass == Passes(old(buckets.counts), check, limit)
      ensures buckets.log == old(buckets.log) + if hasDb then [check] else []
      ensures buckets.counts == if hasDb then After(old(buckets.counts), check) else old(buckets.counts)
      ensures trace == old(trace) + if hasDb then [RateCheck(check.key)] else []
    {
      if !hasDb {
        return true;
      }
      trace := trace + [RateCheck(check.key)];
      var r := buckets.CheckAndIncrement(check.key, limit, check.at, check.fate);
      pass := r.Err? || r.value;
    }

    // ----- Bearer tokens -----

    /** The token is valid, current and confirmed un-revoked: an unreadable revocation status counts as revoked. */
    ghost predicate Subscribed(w: World) {
      w.token.Valid? && w.token.claims.exp >= w.clock && (hasDb ==> w.revoked == Ok(false))
    }

    ghost predicate BearerAccepted(counts: map<Bucket, nat>, w: World) {
      Subscribed(w) && Passes(counts, PayerCheck(w.token.claims.payer, w), payerLimit)
    }

    ghost function BearerChecks(w: World): seq<RateLimit.Request> {
      if hasDb && Subscribed(w) then [PayerCheck(w.token.claims.payer, w)] else []
    }

    ghost function BearerEffects(w: World): seq<Effect> {
      if !hasDb || !w.token.Valid? || w.token.claims.exp < w.clock then []
      else
        var payer := w.token.claims.payer;
        [RevocationCheck(payer)] + if Subscribed(w) then [RateCheck(PayerKey(payer))] else []
    }

    /** Why a bearer is refused, when it is. */
    ghost function BearerRefusal(w: World): AuthError {
      if w.token.Malformed? then MissingToken
      else if w.token.Expired? || w.token.claims.exp < w.clock then TokenExpired
      else if Subscribed(w) then SubscriberRateLimited
      else if w.revoked.Err? then RevocationUnverified
      else TokenRevoked
    }

    method VerifyBearer(req: Request, w: World) returns (r: Result<DataAuth, AuthError>)
      modifies this`trace, buckets
      ensures buckets.log == old(buckets.log) + BearerChecks(w)
      ensures buckets.counts == AfterAll(old(buckets.counts), BearerChecks(w))
      ensures trace == old(trace) + BearerEffects(w)
      ensures r.Ok? <==> BearerAccepted(old(buckets.counts), w)
      ensures if r.Ok? then r.value == Subscription(w.token.claims.payer) else r.error == BearerRefusal(w)
    {
      if !w.token.Valid? {
        return Err(if w.token.Expired? then TokenExpired else MissingToken);
      }
      var claims := w.token.claims;
      if claims.exp < w.clock {
        return Err(TokenExpired);
      }
      if hasDb {
        trace := trace + [RevocationCheck(claims.payer)];
        if w.revoked.Err? {
          return Err(RevocationUnverified);
        }
        if w.revoked.value {
          return Err(TokenRevoked);
        }
      }
      var pass := CheckRate(PayerCheck(claims.payer, w), payerLimit);
      if !pass {
        return Err(SubscriberRateLimited);
      }
      return Ok(Subscription(claims.payer));
    }

    // ----- Payment -----

    method VerifyAndSettle(body: Json, w: World) returns (r: Result<SettlementProof, string>)
      modifies this`trace
      ensures r == match PaymentProof(body, w) { case None => Err("payment failed") case Some(json) => Ok(SettlementProof(json)) }
      ensures trace == old(trace) + [VerifyCall(body)]
        + if w.verifyReply.Ok? && IsValidReply(w.verifyReply.value)
          then [SettleCall(SettleBody(body, w.verifyReply.value))] else []
    {
      trace := trace + [VerifyCall(body)];
      if w.verifyReply.Err? {
        return Err("payment failed");
      }
      var verify := w.verifyReply.value;
      var valid := AsBool(Field(verify, "isValid"));
      if valid != Some(true) {
        return Err("payment failed");
      }
      var settleBody := body;
      var cid := NonEmpty(AsStr(Field(verify, "correlationId")));
      if cid.Some? {
        settleBody := MergeCorrelationId(settleBody, cid.value);
      }
      trace := trace + [SettleCall(settleBody)];
      if w.settleReply.Err? {
        return Err("payment failed");
      }
      var reply := w.settleReply.value;
      if !reply.success2xx {
        if IsDuplicateSettleBody(reply.text) {
          return Ok(SettlementProof(SyntheticSettlement(verify, body, reply.text)));
        }
        return Err("payment failed");
      }
      if reply.json == None {
        return Err("payment failed");
      }
      var success := AsBool(Field(reply.json.value, "success"));
      if success.Some? && !success.value {
        return Err("payment failed");
      }
      return Ok(SettlementProof(reply.json.value));
    }

    /** The settlement a per-call request obtains: none when the endpoint is free or the payment fails. */
    ghost function Obtains(req: Request, w: World): Option<Json> {
      if Payable(req, w) then PaymentProof(req.payment.value.value, w) else None
    }

    ghost function ProofOf(req: Request, w: World): Option<SettlementProof> {
      var json := Obtains(req, w);
      if json == None then None else Some(SettlementProof(json.value))
    }

    ghost predicate PaymentAccepted(req: Request, w: World) {
      req.payment.Some? && (w.free || Obtains(req, w).Some?)
    }

    ghost function PaymentEffects(req: Request, w: World): seq<Effect> {
      if !Payable(req, w) then []
      else
        var body := req.payment.value.value;
        [VerifyCall(body)]
        + if w.verifyReply.Ok? && IsValidReply(w.verifyReply.value)
          then [SettleCall(SettleBody(body, w.verifyReply.value))] else []
    }

    method CheckPayment(req: Request, w: World) returns (r: Result<Option<SettlementProof>, AuthError>)
      requires req.bearer == None && req.payment.Some?
      modifies this`trace
      ensures r.Ok? <==> PaymentAccepted(req, w)
      ensures r.Ok? ==> r.value == ProofOf(req, w)
      ensures r.Err? ==> r.error == PaymentRefusal(w)
      ensures trace == old(trace) + PaymentEffects(req, w)
    {
      if w.free {
        return Ok(None);
      }
      if !w.requirementsOk {
        return Err(RequirementsUnavailable);
      }
      var parsed := req.payment.value;
      if parsed.Err? {
        return Err(PaymentRequired);
      }
      var settled := VerifyAndSettle(parsed.value, w);
      if settled.Err? {
        return Err(PaymentRequired);
      }
      return Ok(Some(settled.value));
    }

    // ----- Authentication -----

    /** What follows the client's rate check. */
    ghost function LaterEffects(req: Request, w: World): seq<Effect> {
      if req.bearer.Some? then BearerEffects(w) else PaymentEffects(req, w)
    }

    ghost function LaterChecks(req: Request, w: World): seq<RateLimit.Request> {
      if req.bearer.Some? then BearerChecks(w) else []
    }

    /** A bearer is judged by its subscription, anyone else by the payment. */
    ghost predicate LaterAccepted(counts: map<Bucket, nat>, req: Request, w: World) {
      if req.bearer.Some? then BearerAccepted(counts, w) else PaymentAccepted(req, w)
    }

    ghost function LaterRefusal(req: Request, w: World): AuthError {
      if req.bearer.Some? then BearerRefusal(w) else PaymentRefusal(w)
    }

    /** Why a request is refused, when it is. */
    ghost function Refusal(counts: map<Bucket, nat>, req: Request, w: World): AuthError {
      if Passes(counts, IpCheck(req, w), globalLimit) then LaterRefusal(req, w) else RateLimited
    }

    /** Who gets past the gate, from the counters as they were and the world's answers. */
    ghost predicate Authorised(counts: map<Bucket, nat>, req: Request, w: World) {
      && Passes(counts, IpCheck(req, w), globalLimit)
      && LaterAccepted(counts, req, w)
    }

    /** Everything the gate does, in order. */
    ghost function GateEffects(counts: map<Bucket, nat>, req: Request, w: World): seq<Effect> {
      (if hasDb then [RateCheck(IpKey(req.ip))] else [])
      + (if Passes(counts, IpCheck(req, w), globalLimit) then LaterEffects(req, w) else [])
    }

    /** The rate checks among them. */
    ghost function Checks(counts: map<Bucket, nat>, req: Request, w: World): seq<RateLimit.Request> {
      (if hasDb then [IpCheck(req, w)] else [])
      + (if Passes(counts, IpCheck(req, w), globalLimit) then LaterChecks(req, w) else [])
    }

    /** Counting a request against its client leaves the subscriber's counters alone, whenever either is counted. */
    lemma IpCheckDoesNotTouchPayers(counts: map<Bucket, nat>, req: Request, payer: string, w: World)
      ensures Decide(After(counts, IpCheck(req, w)), PayerCheck(payer, w), payerLimit)
        == Decide(counts, PayerCheck(payer, w), payerLimit)
    {
      KeysAreSeparate(req.ip, payer, req.ip);
      CountAfterOne(counts, IpCheck(req, w), BucketOf(PayerCheck(payer, w)));
    }

    /** Why a request without a bearer token is refused, when it is. */
    ghost function PaymentRefusal(w: World): AuthError {
      if w.requirementsOk then PaymentRequired else RequirementsUnavailable
    }

    /** A request without a bearer token: paid, or told what to pay. */
    method AuthenticatePayment(req: Request, w: World) returns (r: Result<DataAuth, AuthError>)
      requires req.bearer == None
      modifies this`trace
      ensures trace == old(trace) + PaymentEffects(req, w)
      ensures r.Ok? <==> PaymentAccepted(req, w)
      ensures if r.Ok? then ProofIn(r.value) == ProofOf(req, w) else r.error == PaymentRefusal(w)
    {
      if req.payment.Some? {
        var paid := CheckPayment(req, w);
        r := if paid.Ok? then Ok(PerCall(paid.value)) else Err(paid.error);
        return r;
      }
      return Err(if w.requirementsOk then PaymentRequired else RequirementsUnavailable);
    }

    /** The counters after the client's check, if it is made. */
    ghost function AfterIpCheck(counts: map<Bucket, nat>, req: Request, w: World): map<Bucket, nat> {
      if hasDb then After(counts, IpCheck(req, w)) else counts
    }

    /** So what follows the client's check is decided as it would have been before it. */
    lemma LaterUnaffectedByIpCheck(counts: map<Bucket, nat>, req: Request, w: World)
      ensures LaterAccepted(AfterIpCheck(counts, req, w), req, w) <==> LaterAccepted(counts, req, w)
    {
      if w.token.Valid? {
        IpCheckDoesNotTouchPayers(counts, req, w.token.claims.payer, w);
      }
    }

    lemma CheckFirst(counts: map<Bucket, nat>, req: Request, w: World)
      ensures AfterAll(counts, Checks(counts, req, w)) ==
        if Passes(counts, IpCheck(req, w), globalLimit) then AfterAll(AfterIpCheck(counts, req, w), LaterChecks(req, w))
        else AfterIpCheck(counts, req, w)
    {
      var checks := Checks(counts, req, w);
      if hasDb {
        assert checks[0] == IpCheck(req, w);
        assert checks[1..] == if Passes(counts, IpCheck(req, w), globalLimit) then LaterChecks(req, w) else [];
      }
    }

    method AuthenticateChecked(req: Request, w: World) returns (r: Result<DataAuth, AuthError>)
      modifies this`trace, buckets
      ensures buckets.log == old(buckets.log) + LaterChecks(req, w)
      ensures buckets.counts == AfterAll(old(buckets.counts), LaterChecks(req, w))
      ensures trace == old(trace) + LaterEffects(req, w)
      ensures r.Ok? <==> LaterAccepted(old(buckets.counts), req, w)
      ensures if r.Ok? then ProofIn(r.value) == ProofOf(req, w) else r.error == LaterRefusal(req, w)
    {
      if req.bearer.Some? {
        r := VerifyBearer(req, w);
      } else {
        r := AuthenticatePayment(req, w);
        assert buckets.log == buckets.log + [];
      }
    }

    method Authenticate(req: Request, w: World) returns (r: Result<DataAuth, AuthError>)
      modifies this`trace, buckets
      ensures buckets.log == old(buckets.log) + Checks(old(buckets.counts), req, w)
      ensures buckets.counts == AfterAll(old(buckets.counts), Checks(old(buckets.counts), req, w))
      ensures trace == old(trace) + GateEffects(old(buckets.counts), req, w)
      ensures r.Ok? <==> Authorised(old(buckets.counts), req, w)
      ensures if r.Ok? then ProofIn(r.value) == ProofOf(req, w) else r.error == Refusal(old(buckets.counts), req, w)
    {
      LaterUnaffectedByIpCheck(buckets.counts, req, w);
      CheckFirst(buckets.counts, req, w);
      var pass := CheckRate(IpCheck(req, w), globalLimit);
      if !pass {
        return Err(RateLimited);
      }
      r := AuthenticateChecked(req, w);
    }

    method AuthenticateDataRoute(req: Request, w: World) returns (r: Result<DataAuth, AuthError>)
      requires RatesFollow(buckets.counts, buckets.log, arrivals)
      modifies this`trace, this`arrivals, buckets
      ensures RatesFollow(buckets.counts, buckets.log, arrivals)
      ensures arrivals == old(arrivals) + [Arrival(req, w)]
      ensures trace == old(trace) + GateEffects(old(buckets.counts), req, w)
      ensures r.Ok? <==> Authorised(old(buckets.counts), req, w)
      ensures if r.Ok? then ProofIn(r.value) == ProofOf(req, w) else r.error == Refusal(old(buckets.counts), req, w)
    {
      RatesFollowArrival(buckets.counts, buckets.log, arrivals, Arrival(req, w));
      arrivals := arrivals + [Arrival(req, w)];
      r := Authenticate(req, w);
    }

    // ----- What every run of the gate keeps -----

    /**
     * Payments are safe: the facilitator is called only for a payable request within its rate, on
     * the requester's own payment, and in order.
     */
    ghost predicate PaymentSafe(counts: map<Bucket, nat>, gate: seq<Effect>, req: Request, w: World) {
      && GateTrace(gate, req, w)
      && (forall e | e in gate && (e.VerifyCall? || e.SettleCall?) ::
            Payable(req, w) && Passes(counts, IpCheck(req, w), globalLimit))
      && (forall e | e in gate && e.VerifyCall? :: e.body == req.payment.value.value)
    }

    lemma PaymentTrace(first: seq<Effect>, req: Request, w: World)
      requires req.bearer == None && |first| <= 1 && forall i | 0 <= i < |first| :: first[i].RateCheck?
      ensures GateTrace(first + PaymentEffects(req, w), req, w)
      ensures forall e | e in PaymentEffects(req, w) ::
        Payable(req, w) && (e.VerifyCall? ==> e.body == req.payment.value.value)
      ensures Settlement(first + PaymentEffects(req, w), req, w) == Obtains(req, w)
    {
      var t := first + PaymentEffects(req, w);
      if Obtains(req, w).Some? {
        assert t[|first| + 1].SettleCall?;
      }
    }

    lemma ChecksAreHarmless(t: seq<Effect>, req: Request, w: World)
      requires forall i | 0 <= i < |t| :: t[i].RateCheck? || t[i].RevocationCheck?
      ensures GateTrace(t, req, w) && Settlement(t, req, w) == None
      ensures forall e | e in t :: !e.VerifyCall? && !e.SettleCall?
    {
    }

    /** On every run of the gate payments are safe, and what its calls yield is what the request obtains. */
    lemma GateIsSafe(counts: map<Bucket, nat>, req: Request, w: World)
      ensures PaymentSafe(counts, GateEffects(counts, req, w), req, w)
      ensures Settlement(GateEffects(counts, req, w), req, w)
        == if Passes(counts, IpCheck(req, w), globalLimit) then Obtains(req, w) else None
    {
      var first := if hasDb then [RateCheck(IpKey(req.ip))] else [];
      if !Passes(counts, IpCheck(req, w), globalLimit) {
        ChecksAreHarmless(first + [], req, w);
      } else if req.bearer.Some? {
        ChecksAreHarmless(first + BearerEffects(w), req, w);
      } else {
        PaymentTrace(first, req, w);
      }
    }

    /** A request is refused for its client's rate exactly when it is over the limit, and then only its check happens. */
    lemma OverLimitOnlyCounts(counts: map<Bucket, nat>, req: Request, w: World)
      ensures Refusal(counts, req, w) == RateLimited <==> !Passes(counts, IpCheck(req, w), globalLimit)
      ensures Refusal(counts, req, w) == RateLimited ==>
        && !Authorised(counts, req, w)
        && GateEffects(counts, req, w) == [RateCheck(IpKey(req.ip))]
        && Checks(counts, req, w) == [IpCheck(req, w)]
    {
    }

    // ----- Runs of the gate -----

    /** The rate checks of all the requests that reached the gate. */
    ghost function LogAfter(arrivals: seq<Arrival>): seq<RateLimit.Request> {
      if arrivals == [] then []
      else
        var log, last := LogAfter(arrivals[..|arrivals| - 1]), arrivals[|arrivals| - 1];
        log + Checks(CountsAfter(log), last.req, last.w)
    }

    /** The counters and the log of the limiter are those of the requests that reached the gate. */
    ghost predicate RatesFollow(counts: map<Bucket, nat>, log: seq<RateLimit.Request>, arrivals: seq<Arrival>) {
      log == LogAfter(arrivals) && counts == CountsAfter(log)
    }

    lemma RatesFollowArrival(counts: map<Bucket, nat>, log: seq<RateLimit.Request>, arrivals: seq<Arrival>, a: Arrival)
      requires RatesFollow(counts, log, arrivals)
      ensures
        var checks := Checks(counts, a.req, a.w);
        RatesFollow(AfterAll(counts, checks), log + checks, arrivals + [a])
    {
      LogAfterOneMore(arrivals, a);
      CountsAfterMore(log, Checks(counts, a.req, a.w));
    }

    lemma LogAfterOneMore(arrivals: seq<Arrival>, a: Arrival)
      ensures LogAfter(arrivals + [a]) == LogAfter(arrivals) + Checks(CountsAfter(LogAfter(arrivals)), a.req, a.w)
    {
      assert (arrivals + [a])[..|arrivals|] == arrivals;
    }

    ghost predicate FromClient(a: Arrival, ip: string, from: int) {
      a.req.ip == ip && from <= a.w.ipNow < from + MINUTE
    }

    ghost predicate FromSubscriber(a: Arrival, payer: string, from: int) {
      a.req.bearer.Some? && a.w.token.Valid? && a.w.token.claims.payer == payer && from <= a.w.payerNow < from + MINUTE
    }

    /** How many requests of a client got past the gate, not counting those whose rate check failed. */
    ghost function ClientServed(arrivals: seq<Arrival>, ip: string, from: int): nat {
      if arrivals == [] then 0
      else
        var init, a := arrivals[..|arrivals| - 1], arrivals[|arrivals| - 1];
        var counts := CountsAfter(LogAfter(init));
        ClientServed(init, ip, from)
        + if FromClient(a, ip, from) && Authorised(counts, a.req, a.w)
             && !Decide(counts, IpCheck(a.req, a.w), globalLimit).FailOpen? then 1 else 0
    }

    /** How many requests of a subscriber got past the gate, not counting those whose rate check failed. */
    ghost function SubscriberServed(arrivals: seq<Arrival>, payer: string, from: int): nat {
      if arrivals == [] then 0
      else
        var init, a := arrivals[..|arrivals| - 1], arrivals[|arrivals| - 1];
        var counts := CountsAfter(LogAfter(init));
        SubscriberServed(init, payer, from)
        + if FromSubscriber(a, payer, from) && Authorised(counts, a.req, a.w)
             && !Decide(counts, PayerCheck(payer, a.w), payerLimit).FailOpen? then 1 else 0
    }

    /** A client's admitted check counts in the log of the request that makes it. */
    lemma ClientAdmitted(log: seq<RateLimit.Request>, a: Arrival, p: RateLimit.Request -> bool)
      requires hasDb && p(IpCheck(a.req, a.w)) && Decide(CountsAfter(log), IpCheck(a.req, a.w), globalLimit) == Admit
      ensures
        var longer := log + Checks(CountsAfter(log), a.req, a.w);
        Tally(longer, globalLimit, p, Admit, |longer|) >= Tally(log, globalLimit, p, Admit, |log|) + 1
    {
      var check, later := IpCheck(a.req, a.w), LaterChecks(a.req, a.w);
      assert log + Checks(CountsAfter(log), a.req, a.w) == log + [check] + later;
      AdmittedCounts(log, check, later, globalLimit, p);
    }

    lemma {:induction false} ClientServedIsAdmitted(arrivals: seq<Arrival>, ip: string, from: int)
      requires hasDb
      ensures
        var log := LogAfter(arrivals);
        ClientServed(arrivals, ip, from) <= Tally(log, globalLimit, InInterval(IpKey(ip), from), Admit, |log|)
    {
      if arrivals != [] {
        var init, a := arrivals[..|arrivals| - 1], arrivals[|arrivals| - 1];
        ClientServedIsAdmitted(init, ip, from);
        var log, p := LogAfter(init), InInterval(IpKey(ip), from);
        TallyGrows(log, Checks(CountsAfter(log), a.req, a.w), globalLimit, p, Admit);
        if ClientServed(arrivals, ip, from) > ClientServed(init, ip, from) {
          ClientAdmitted(log, a, p);
        }
      }
    }

    /** A subscriber's admitted check counts in the log of the request that makes it. */
    lemma SubscriberAdmitted(log: seq<RateLimit.Request>, a: Arrival, payer: string, p: RateLimit.Request -> bool)
      requires hasDb && Authorised(CountsAfter(log), a.req, a.w)
      requires a.req.bearer.Some? && a.w.token.claims.payer == payer && p(PayerCheck(payer, a.w))
      requires Decide(CountsAfter(log), PayerCheck(payer, a.w), payerLimit) == Admit
      ensures
        var longer := log + Checks(CountsAfter(log), a.req, a.w);
        Tally(longer, payerLimit, p, Admit, |longer|) >= Tally(log, payerLimit, p, Admit, |log|) + 1
    {
      var ip, check := IpCheck(a.req, a.w), PayerCheck(payer, a.w);
      assert log + Checks(CountsAfter(log), a.req, a.w) == log + [ip] + [check] + [];
      TallyGrows(log, [ip], payerLimit, p, Admit);
      CountsAfterOneMore(log, ip);
      IpCheckDoesNotTouchPayers(CountsAfter(log), a.req, payer, a.w);
      AdmittedCounts(log + [ip], check, [], payerLimit, p);
    }

    lemma {:induction false} SubscriberServedIsAdmitted(arrivals: seq<Arrival>, payer: string, from: int)
      requires hasDb
      ensures
        var log := LogAfter(arrivals);
        SubscriberServed(arrivals, payer, from) <= Tally(log, payerLimit, InInterval(PayerKey(payer), from), Admit, |log|)
    {
      if arrivals != [] {
        var init, a := arrivals[..|arrivals| - 1], arrivals[|arrivals| - 1];
        SubscriberServedIsAdmitted(init, payer, from);
        var log, p := LogAfter(init), InInterval(PayerKey(payer), from);
        TallyGrows(log, Checks(CountsAfter(log), a.req, a.w), payerLimit, p, Admit);
        if SubscriberServed(arrivals, payer, from) > SubscriberServed(init, payer, from) {
          SubscriberAdmitted(log, a, payer, p);
        }
      }
    }

    /** Over any run of requests at any times, one client gets at most 2 * limit of them past the gate in any 60 seconds. */
    lemma ClientsAreBounded(arrivals: seq<Arrival>, ip: string, from: int)
      requires hasDb
      ensures ClientServed(arrivals, ip, from) <= 2 * globalLimit
    {
      ClientServedIsAdmitted(arrivals, ip, from);
      SlidingWindowBound(LogAfter(arrivals), globalLimit, IpKey(ip), from);
    }

    /** And so does one subscriber, from however many clients. */
    lemma SubscribersAreBounded(arrivals: seq<Arrival>, payer: string, from: int)
      requires hasDb
      ensures SubscriberServed(arrivals, payer, from) <= 2 * payerLimit
    {
      SubscriberServedIsAdmitted(arrivals, payer, from);
      SlidingWindowBound(LogAfter(arrivals), payerLimit, PayerKey(payer), from);
    }

    // ----- Handlers -----

    method MaybeCached(endpoint: string, subject: string, w: World) returns (hit: Option<(Json, int)>)
      requires cache.Valid()
      modifies this`trace
      ensures hit == if hasDb && w.readOk then CachedAnswer(cache.log, endpoint, subject, w.readNow) else None
      ensures trace == old(trace) + if hasDb then [CacheRead(endpoint, subject)] else []
    {
      if !hasDb {
        return None;
      }
      trace := trace + [CacheRead(endpoint, subject)];
      var r := cache.Get(endpoint, subject, w.readNow, w.readOk);
      hit := if r.Ok? then r.value else None;
    }

    method WriteCache(endpoint: string, subject: string, body: Json, w: World)
      requires cache.Valid()
      modifies this`trace, cache
      ensures cache.Valid()
      ensures cache.log == if hasDb
        then old(cache.log) + [Write(endpoint, subject, body, CACHE_TTL_SECS, w.writeNow, w.writeFate)] else old(cache.log)
      ensures trace == old(trace) + if hasDb then [CacheWrite(endpoint, subject)] else []
    {
      if !hasDb {
        return;
      }
      trace := trace + [CacheWrite(endpoint, subject)];
      var _ := cache.Set(endpoint, subject, body, CACHE_TTL_SECS, w.writeNow, w.writeFate);
    }

    /** The cached answer a request sees, if any. */
    ghost function SeenHit(log: seq<Write>, route: CachedRoute, subject: string, w: World): Option<(Json, int)> {
      if hasDb && w.readOk then CachedAnswer(log, EndpointOf(route), subject, w.readNow) else None
    }

    /** The writes after a request that found nothing cached and scored `body`. */
    ghost function LogWith(log: seq<Write>, route: CachedRoute, subject: string, body: Json, w: World): seq<Write> {
      if hasDb then log + [Write(EndpointOf(route), subject, body, CACHE_TTL_SECS, w.writeNow, w.writeFate)] else log
    }

    /** An authorised request: a hit is sent as stored but for the disclosed fields; a miss is scored, stored, sent. */
    ghost predicate Answered(
      log: seq<Write>, log': seq<Write>, route: CachedRoute, subject: string, w: World, proof: Option<SettlementProof>, resp: Response)
    {
      && resp.paymentResponse == HeaderOf(proof)
      && match SeenHit(log, route, subject, w)
         case Some((body, at)) =>
           resp.status == 200 && resp.code == Served && log' == log && resp.body == WithSig(EnrichCached(body, at), proof)
         case None =>
           if w.scored.Err? then
             resp.status == 503 && resp.code == RpcError && log' == log && resp.body == WithSig(ErrorBody("RPC_ERROR"), proof)
           else
             var body := ScoreBody(route, subject, w.scored.value, cluster);
             && resp.status == 200 && resp.code == Served
             && resp.body == WithSig(body, proof) && log' == LogWith(log, route, subject, body, w)
    }

    /** What follows authentication in `wallet-risk` and `token-risk`. */
    method ServeCachedRoute(route: CachedRoute, subject: string, auth: DataAuth, w: World)
      returns (resp: Response, ghost work: seq<Effect>)
      requires cache.Valid() && CleanLog(cache.log)
      modifies this`trace, cache
      ensures cache.Valid() && CleanLog(cache.log)
      ensures trace == old(trace) + work && forall e | e in work :: IsWorkEffect(e)
      ensures Answered(old(cache.log), cache.log, route, subject, w, ProofIn(auth), resp)
    {
      var endpoint := EndpointOf(route);
      var hit := MaybeCached(endpoint, subject, w);
      work := if hasDb then [CacheRead(endpoint, subject)] else [];
      if hit.Some? {
        resp := OkWithPayment(EnrichCached(hit.value.0, hit.value.1), ProofIn(auth));
        return;
      }
      trace := trace + [Scoring(subject)];
      work := work + [Scoring(subject)];
      if w.scored.Err? {
        resp := ErrorWithSettlement(503, RpcError, "RPC_ERROR", auth);
        return;
      }
      var body := ScoreBody(route, subject, w.scored.value, cluster);
      WriteCache(endpoint, subject, body, w);
      work := work + if hasDb then [CacheWrite(endpoint, subject)] else [];
      resp := OkWithPayment(body, ProofIn(auth));
    }

    /**
     * What a data handler keeps on every run: the gate comes first, work only for the authorised, and the
     * settlement that its calls yield is in the header, with its signature in the body, whatever the status.
     */
    ghost predicate HandlerKept(
      counts: map<Bucket, nat>, wellFormed: bool, req: Request, w: World, gate: seq<Effect>, work: seq<Effect>, resp: Response)
    {
      && gate == (if wellFormed then GateEffects(counts, req, w) else [])
      && (forall e | e in work :: IsWorkEffect(e))
      && resp.paymentResponse == Settlement(gate, req, w)
      && Field(resp.body, "settlement_sig") == SigOf(resp.paymentResponse)
      && (if wellFormed && Authorised(counts, req, w)
          then resp.code in {Served, RpcError, InvalidTransaction}
          else work == [] && resp == if wellFormed then AuthErrorResponse(Refusal(counts, req, w)) else BadRequestResponse())
    }

    /** An answer before or at the gate: nothing was settled, and nothing is disclosed. */
    lemma NothingHappened(counts: map<Bucket, nat>, wellFormed: bool, req: Request, w: World, resp: Response)
      requires wellFormed ==> !Authorised(counts, req, w)
      requires resp == if wellFormed then AuthErrorResponse(Refusal(counts, req, w)) else BadRequestResponse()
      ensures HandlerKept(counts, wellFormed, req, w, if wellFormed then GateEffects(counts, req, w) else [], [], resp)
    {
      GateIsSafe(counts, req, w);
    }

    /** An answer after the gate: it discloses what the request obtained. */
    lemma PaidAnswer(counts: map<Bucket, nat>, req: Request, w: World, work: seq<Effect>, resp: Response)
      requires Authorised(counts, req, w) && forall e | e in work :: IsWorkEffect(e)
      requires resp.code in {Served, RpcError, InvalidTransaction}
      requires resp.paymentResponse == HeaderOf(ProofOf(req, w))
      requires Field(resp.body, "settlement_sig") == SigOf(resp.paymentResponse)
      ensures HandlerKept(counts, true, req, w, GateEffects(counts, req, w), work, resp)
    {
      GateIsSafe(counts, req, w);
    }

    lemma HandlerIsSafe(
      counts: map<Bucket, nat>, wellFormed: bool, req: Request, w: World, gate: seq<Effect>, work: seq<Effect>, resp: Response)
      requires HandlerKept(counts, wellFormed, req, w, gate, work, resp)
      ensures PaymentSafe(counts, gate, req, w)
    {
      GateIsSafe(counts, req, w);
      ChecksAreHarmless([], req, w);
    }

    /** In plain words: who can be charged, for what, and what they learn. */
    lemma ChargedMeansDisclosed(
      counts: map<Bucket, nat>, wellFormed: bool, req: Request, w: World, gate: seq<Effect>, work: seq<Effect>, resp: Response)
      requires HandlerKept(counts, wellFormed, req, w, gate, work, resp)
      ensures Settles(gate) ==> wellFormed && Payable(req, w) && Passes(counts, IpCheck(req, w), globalLimit)
      ensures forall e | e in gate && e.VerifyCall? :: Payable(req, w) && e.body == req.payment.value.value
      ensures Settles(gate) && PaymentProof(req.payment.value.value, w).Some? ==>
        resp.paymentResponse == PaymentProof(req.payment.value.value, w) && resp.code in {Served, RpcError, InvalidTransaction}
      ensures resp.paymentResponse.Some? ==> Settles(gate)
      ensures resp.code == Denied(RateLimited) ==> gate == [RateCheck(IpKey(req.ip))] && work == []
    {
      GateIsSafe(counts, req, w);
      OverLimitOnlyCounts(counts, req, w);
    }

    lemma SigIsDisclosed(body: Json, proof: Option<SettlementProof>)
      requires body.JObj? && HasNoSig(body)
      ensures Field(WithSig(body, proof), "settlement_sig") == SigOf(HeaderOf(proof))
    {
    }

    lemma HitSigIsDisclosed(log: seq<Write>, endpoint: string, subject: string, now: int, proof: Option<SettlementProof>)
      requires CleanLog(log)
      ensures
        var hit := CachedAnswer(log, endpoint, subject, now);
        hit.Some? ==> Field(WithSig(EnrichCached(hit.value.0, hit.value.1), proof), "settlement_sig") == SigOf(HeaderOf(proof))
    {
      HitDisclosesOnlyItsOwnPayment(log, endpoint, subject, now, proof);
    }

    lemma AnswerDisclosesSig(
      log: seq<Write>, log': seq<Write>, route: CachedRoute, subject: string, w: World, proof: Option<SettlementProof>, resp: Response)
      requires CleanLog(log) && Answered(log, log', route, subject, w, proof, resp)
      ensures Field(resp.body, "settlement_sig") == SigOf(resp.paymentResponse)
    {
      HitSigIsDisclosed(log, EndpointOf(route), subject, w.readNow, proof);
      SigIsDisclosed(ErrorBody("RPC_ERROR"), proof);
      if w.scored.Ok? {
        SigIsDisclosed(ScoreBody(route, subject, w.scored.value, cluster), proof);
      }
    }

    /** An authorised request leaves the cache as its answer says, any other leaves it alone. */
    ghost predicate CacheKept(
      counts: map<Bucket, nat>, log: seq<Write>, log': seq<Write>, wellFormed: bool,
      route: CachedRoute, subject: string, req: Request, w: World, resp: Response)
    {
      if wellFormed && Authorised(counts, req, w)
      then Answered(log, log', route, subject, w, ProofOf(req, w), resp)
      else log' == log
    }

    /** What follows the check of the subject. */
    method ServeArrival(route: CachedRoute, subject: string, req: Request, w: World)
      returns (resp: Response, ghost work: seq<Effect>)
      requires Valid()
      modifies this`trace, this`arrivals, buckets, cache
      ensures Valid()
      ensures trace == old(trace) + GateEffects(old(buckets.counts), req, w) + work
      ensures arrivals == old(arrivals) + [Arrival(req, w)]
      ensures HandlerKept(old(buckets.counts), true, req, w, GateEffects(old(buckets.counts), req, w), work, resp)
      ensures CacheKept(old(buckets.counts), old(cache.log), cache.log, true, route, subject, req, w, resp)
    {
      work := [];
      var auth := AuthenticateDataRoute(req, w);
      if auth.Err? {
        resp := AuthErrorResponse(auth.error);
        NothingHappened(old(buckets.counts), true, req, w, resp);
        return;
      }
      resp, work := ServeCachedRoute(route, subject, auth.value, w);
      AnswerDisclosesSig(old(cache.log), cache.log, route, subject, w, ProofOf(req, w), resp);
      PaidAnswer(old(buckets.counts), req, w, work, resp);
    }

    /** `wallet-risk` and `token-risk`. */
    method HandleCachedRoute(route: CachedRoute, subject: string, req: Request, w: World)
      returns (resp: Response, ghost gate: seq<Effect>, ghost work: seq<Effect>)
      requires Valid()
      modifies this`trace, this`arrivals, buckets, cache
      ensures Valid()
      ensures trace == old(trace) + gate + work
      ensures arrivals == old(arrivals) + if 32 <= |subject| <= 44 then [Arrival(req, w)] else []
      ensures HandlerKept(old(buckets.counts), 32 <= |subject| <= 44, req, w, gate, work, resp)
      ensures PaymentSafe(old(buckets.counts), gate, req, w)
      ensures CacheKept(old(buckets.counts), old(cache.log), cache.log, 32 <= |subject| <= 44, route, subject, req, w, resp)
    {
      if |subject| < 32 || |subject| > 44 {
        resp := BadRequestResponse();
        NothingHappened(buckets.counts, false, req, w, resp);
        HandlerIsSafe(buckets.counts, false, req, w, [], [], resp);
        return resp, [], [];
      }
      gate := GateEffects(buckets.counts, req, w);
      resp, work := ServeArrival(route, subject, req, w);
      HandlerIsSafe(old(buckets.counts), true, req, w, gate, work, resp);
    }

    /** A paid transaction is screened, or found not to decode. */
    ghost predicate TxAnswered(w: World, proof: Option<SettlementProof>, resp: Response) {
      && resp.paymentResponse == HeaderOf(proof)
      && if w.decodes
         then resp.status == 200 && resp.code == Served && resp.body == WithSig(TxBody(w.txScored, cluster), proof)
         else resp.status == 422 && resp.code == InvalidTransaction && resp.body == WithSig(ErrorBody("INVALID_TRANSACTION"), proof)
    }

    /** What follows authentication in `tx-risk`. */
    method ServeTransaction(auth: DataAuth, ghost proof: Option<SettlementProof>, w: World)
      returns (resp: Response, ghost work: seq<Effect>)
      requires ProofIn(auth) == proof
      modifies this`trace
      ensures trace == old(trace) + work && forall e | e in work :: IsWorkEffect(e)
      ensures TxAnswered(w, proof, resp) && (!w.decodes ==> work == [])
      ensures Field(resp.body, "settlement_sig") == SigOf(resp.paymentResponse)
    {
      work := [];
      if !w.decodes {
        SigIsDisclosed(ErrorBody("INVALID_TRANSACTION"), proof);
        resp := ErrorWithSettlement(422, InvalidTransaction, "INVALID_TRANSACTION", auth);
        return;
      }
      SigIsDisclosed(TxBody(w.txScored, cluster), proof);
      trace := trace + [Scoring("transaction")];
      work := [Scoring("transaction")];
      resp := OkWithPayment(TxBody(w.txScored, cluster), ProofIn(auth));
    }

    /** What follows the check of the parameter. */
    method ServeTxArrival(req: Request, w: World) returns (resp: Response, ghost work: seq<Effect>)
      requires Valid()
      modifies this`trace, this`arrivals, buckets
      ensures Valid()
      ensures trace == old(trace) + GateEffects(old(buckets.counts), req, w) + work
      ensures arrivals == old(arrivals) + [Arrival(req, w)]
      ensures HandlerKept(old(buckets.counts), true, req, w, GateEffects(old(buckets.counts), req, w), work, resp)
      ensures Authorised(old(buckets.counts), req, w) ==> TxAnswered(w, ProofOf(req, w), resp)
    {
      work := [];
      var auth := AuthenticateDataRoute(req, w);
      if auth.Err? {
        resp := AuthErrorResponse(auth.error);
        NothingHappened(old(buckets.counts), true, req, w, resp);
        return;
      }
      resp, work := ServeTransaction(auth.value, ProofOf(req, w), w);
      PaidAnswer(old(buckets.counts), req, w, work, resp);
    }

    /** `tx-risk`: no cache; a paid transaction that does not decode is answered 422 with the settlement. */
    method HandleTxRisk(base64Ok: bool, req: Request, w: World)
      returns (resp: Response, ghost gate: seq<Effect>, ghost work: seq<Effect>)
      requires Valid()
      modifies this`trace, this`arrivals, buckets
      ensures Valid()
      ensures trace == old(trace) + gate + work
      ensures arrivals == old(arrivals) + if base64Ok then [Arrival(req, w)] else []
      ensures HandlerKept(old(buckets.counts), base64Ok, req, w, gate, work, resp)
      ensures PaymentSafe(old(buckets.counts), gate, req, w)
      ensures base64Ok && Authorised(old(buckets.counts), req, w) ==> TxAnswered(w, ProofOf(req, w), resp)
    {
      if !base64Ok {
        resp := BadRequestResponse();
        NothingHappened(buckets.counts, false, req, w, resp);
        HandlerIsSafe(buckets.counts, false, req, w, [], [], resp);
        return resp, [], [];
      }
      gate := GateEffects(buckets.counts, req, w);
      resp, work := ServeTxArrival(req, w);
      HandlerIsSafe(old(buckets.counts), true, req, w, gate, work, resp);
    }
  }
}
