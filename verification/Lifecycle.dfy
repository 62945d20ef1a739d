/**
 The request lifecycle of the proxy, as the stages a request passes through and as the handler that
 drives them. Every failure ends the request with an error reply; a request is forwarded only after
 its token, user, server, policy and quota have been confirmed, in this order.
 */
module Lifecycle {
  import opened Wrappers
  import opened Uuids
  import opened Keys
  import opened Redis
  import opened Decisions
  import opened Redaction
  import opened Mcp
  import opened Events
  import opened Doubles
  import Tokens
  import RateLimit
  import PolicyTable
  import PolicyEngine

  datatype User = User(role: Uuid, isActive: bool)

  datatype ServerRow = ServerRow(id: Uuid, isActive: bool)

  /** Who calls which tool where. */
  datatype Job = Job(user: string, role: Uuid, server: Uuid, call: ToolCall)

  /** The quota headers of a rate-limited reply. */
  datatype Quota = Quota(limit: int, remaining: int)

  datatype Reply =
    | RpcError(code: int, quota: Option<Quota>)
    | Relayed(result: Option<string>, error: Option<string>)

  /** The fields of an audit event beside its id and times. */
  datatype Submission = Submission(outcome: string, job: Job, params: string, summary: Option<string>)

  datatype Response = Response(result: Option<string>, error: Option<string>)

  /** sent is the job that was forwarded, if any, with the decision it was forwarded under. */
  datatype Stage =
    | Received(request: Request, raw: string)
    | Authenticated(request: Request, user: string)
    | Identified(request: Request, user: string, role: Uuid)
    | Targeted(job: Job)
    | Allowed(job: Job, decision: Decision)
    | Admitted(job: Job, decision: Decision)
    | Done(reply: Reply, event: Option<Submission>, sent: Option<Sent>)

  datatype Sent = Sent(job: Job, decision: Decision)

  /** Answered with an error alone: no event, no forward, no quota. */
  predicate Dismissed(s: Stage) {
    s.Done? && s.event.None? && s.sent.None? && s.reply.RpcError? && s.reply.quota.None?
  }

  function Rejected(code: int): (s: Stage)
    ensures Dismissed(s)
  {
    Done(RpcError(code, None), None, None)
  }

  /** body is the first JSON value of the request, None when it is malformed. */
  function Begin(body: Option<Json>, header: string): (s: Stage)
    ensures s.Received? || Dismissed(s)
  {
    if body.None? || DecodeRequest(body.value).None? then Rejected(CODE_PARSE_ERROR)
    else if Bearer(header).None? then Rejected(CODE_UNAUTHORIZED)
    else Received(DecodeRequest(body.value).value, Bearer(header).value)
  }

  function AfterToken(request: Request, r: Result<string, Tokens.TokenError>): (s: Stage)
    ensures s.Authenticated? || Dismissed(s)
  {
    match r
    case Ok(user) => Authenticated(request, user)
    case Err(LookupFailed) => Rejected(CODE_INTERNAL_ERROR)
    case Err(_) => Rejected(CODE_UNAUTHORIZED)
  }

  function AfterUser(request: Request, user: string, users: map<Uuid, User>, up: bool): (s: Stage)
    ensures s.Identified? || Dismissed(s)
  {
    match Scan(user)
    case None => Rejected(CODE_INTERNAL_ERROR)
    case Some(id) =>
      if !up then Rejected(CODE_INTERNAL_ERROR)
      else if id !in users || !users[id].isActive then Rejected(CODE_UNAUTHORIZED)
      else Identified(request, user, users[id].role)
  }

  function AfterServer(request: Request, user: string, role: Uuid, servers: map<string, ServerRow>, up: bool)
    : (s: Stage)
    ensures s.Targeted? || Dismissed(s)
  {
    match ParseToolCall(request)
    case Err(_) => Rejected(CODE_INVALID_PARAMS)
    case Ok(call) =>
      if !up then Rejected(CODE_INTERNAL_ERROR)
      else if call.server !in servers then Rejected(CODE_INVALID_PARAMS)
      else if !servers[call.server].isActive then Rejected(CODE_FORBIDDEN)
      else Targeted(Job(user, role, servers[call.server].id, call))
  }

  function AuditParams(c: Codec, job: Job, d: Decision): string {
    RedactedBytes(c, c.print_(Obj(CleanParams(job.call))), d.redactFields)
  }

  function AfterPolicy(c: Codec, job: Job, d: Decision): Stage {
    if !d.allowed then
      Done(RpcError(CODE_FORBIDDEN, None), Some(Submission(OUTCOME_DENIED, job, AuditParams(c, job, d), None)), None)
    else Allowed(job, d)
  }

  /** A limiter error fails closed and publishes no event. */
  function AfterQuota(c: Codec, job: Job, d: Decision, q: RateLimit.Outcome, failed: bool): Stage {
    if failed then Rejected(CODE_RATE_LIMITED)
    else if !q.allowed then
      Done(RpcError(CODE_RATE_LIMITED, Some(Quota(q.limit, q.Remaining()))),
           Some(Submission(OUTCOME_RATE_LIMITED, job, AuditParams(c, job, d), None)), None)
    else Admitted(job, d)
  }

  function ErrorSummary(c: Codec, message: string): string {
    c.print_(Obj(map["error" := Str(message)]))
  }

  function AfterForward(c: Codec, job: Job, d: Decision, response: Result<Response, string>): Stage {
    match response
    case Err(message) =>
      Done(RpcError(CODE_UPSTREAM_ERROR, None),
           Some(Submission(OUTCOME_ERROR, job, AuditParams(c, job, d), Some(ErrorSummary(c, message)))),
           Some(Sent(job, d)))
    case Ok(r) =>
      var result := Filtered(c, r.result, d.redactFields);
      Done(Relayed(result, r.error),
           Some(Submission(OUTCOME_ALLOWED, job, AuditParams(c, job, d), result)),
           Some(Sent(job, d)))
  }

  // ---------------------------------------------------------------- what Redis answers a request

  function TokenReply(s: Store, keys: Tokens.TokenKeys, raw: string, at: int, link: Link)
    : Result<string, Tokens.TokenError>
  {
    if |raw| == Tokens.RAW_LENGTH && !link.Healthy? then Err(Tokens.LookupFailed)
    else Tokens.Validated(s, keys, raw, at)
  }

  /** How a call reaches the limiter: the caller's stamp, the time on the Redis clock, the link. */
  datatype Arrival = Arrival(stamp: Nanos, at: int, link: Link)

  /** A limit that is not positive is refused without asking Redis. */
  predicate Records(d: Decision, a: Arrival) {
    d.maxCallsPerMinute > 0 && !a.link.Refused?
  }

  function CallOf(d: Decision, a: Arrival): RateLimit.Call {
    RateLimit.Call(a.stamp, a.at, d.maxCallsPerMinute)
  }

  predicate QuotaFails(s: Store, key: string, d: Decision, a: Arrival) {
    d.maxCallsPerMinute > 0 && (!a.link.Healthy? || WrongType(s, key, a.at))
  }

  /** The timestamps in the window once the call has recorded its own. */
  function QuotaCount(s: Store, key: string, a: Arrival): nat {
    |Prune(Window(s, key, a.at), a.stamp - RATE_LIMIT_WINDOW) + {a.stamp}|
  }

  function QuotaReply(s: Store, key: string, d: Decision, a: Arrival): RateLimit.Outcome {
    var limit := d.maxCallsPerMinute;
    if limit <= 0 || QuotaFails(s, key, d, a) then RateLimit.Outcome(false, 0, limit)
    else RateLimit.Outcome(QuotaCount(s, key, a) <= limit, QuotaCount(s, key, a), limit)
  }

  // ---------------------------------------------------------------- one request on its own

  /** What the outside contributes to one request: the clock at each step, faults, the downstream answer. */
  datatype Outside = Outside(
    authAt: int, tokenLink: Link,
    userAt: int, userUp: bool,
    serverAt: int, serverUp: bool,
    getAt: int, policyLink: Link, readAt: int, policyUp: bool,
    window: Arrival,
    forwardAt: int, finishAt: int,
    response: Result<Response, string>)

  /** What the request reads: the two stores and the database tables. */
  datatype View = View(
    store: Store,
    hash: Tokens.Hash,
    users: map<Uuid, User>,
    servers: map<string, ServerRow>,
    policies: PolicyTable.Table)

  function PolicyReply(v: View, job: Job, o: Outside): PolicyEngine.Evaluation {
    PolicyEngine.Evaluated(v.store, v.policies, Print(job.role), Print(job.server), job.call.name,
                           o.getAt, o.policyLink, o.policyUp)
  }

  function WindowKey(job: Job): string {
    RateLimitKey(job.user, Print(job.server))
  }

  /** The stage a request reaches before its policy is consulted. */
  function UpToTarget(v: View, body: Option<Json>, header: string, o: Outside): (s: Stage)
    ensures s.Targeted? || Dismissed(s)
  {
    var s := Begin(body, header);
    if !s.Received? then s
    else
      var t := AfterToken(s.request, TokenReply(v.store, Tokens.KeysBy(v.hash), s.raw, o.authAt, o.tokenLink));
      if !t.Authenticated? then t
      else
        var u := AfterUser(t.request, t.user, v.users, o.userUp);
        if !u.Identified? then u else AfterServer(u.request, u.user, u.role, v.servers, o.serverUp)
  }

  /** The end of a targeted request, from the answers of the policy engine, the limiter and downstream. */
  function Concluded(c: Codec, job: Job, d: Decision, q: RateLimit.Outcome, failed: bool,
                     response: Result<Response, string>): (s: Stage)
    ensures s.Done?
  {
    var s := AfterPolicy(c, job, d);
    if !s.Allowed? then s
    else
      var t := AfterQuota(c, job, d, q, failed);
      if !t.Admitted? then t else AfterForward(c, job, d, response)
  }

  function Ending(v: View, c: Codec, body: Option<Json>, header: string, o: Outside): (s: Stage)
    ensures s.Done?
  {
    var s := UpToTarget(v, body, header, o);
    if !s.Targeted? then s
    else
      var d := PolicyReply(v, s.job, o).Decision();
      Concluded(c, s.job, d, QuotaReply(v.store, WindowKey(s.job), d, o.window),
                QuotaFails(v.store, WindowKey(s.job), d, o.window), o.response)
  }

  /** The text Redis holds under the key of the token, if it can be read and the token has its length. */
  function TokenOwner(v: View, header: string, o: Outside): Option<string> {
    var raw := Bearer(header);
    if raw.None? || |raw.value| != 64 || !o.tokenLink.Healthy? then None
    else
      match Peek(v.store, TokenKey(v.hash(raw.value)), o.authAt)
      case Some(Text(user)) => Some(user)
      case _ => None
  }

  /** What holds of a request whose caller and target are known. */
  ghost predicate Resolved(v: View, body: Option<Json>, header: string, o: Outside, job: Job) {
    && body.Some? && AsksFor(body.value, job.call)
    && TokenOwner(v, header, o) == Some(job.user)
    && Scan(job.user).Some? && o.userUp
    && Scan(job.user).value in v.users && v.users[Scan(job.user).value] == User(job.role, true)
    && o.serverUp && job.call.server in v.servers && v.servers[job.call.server] == ServerRow(job.server, true)
  }

  /** Every condition a forwarded request has met. */
  ghost predicate Confirmed(v: View, body: Option<Json>, header: string, o: Outside, sent: Sent) {
    var job, d := sent.job, sent.decision;
    && Resolved(v, body, header, o, job)
    && d == PolicyReply(v, job, o).Decision() && d.allowed
    && 0 < d.maxCallsPerMinute && !QuotaFails(v.store, WindowKey(job), d, o.window)
    && QuotaCount(v.store, WindowKey(job), o.window) <= d.maxCallsPerMinute
  }

  lemma ConcludedSent(c: Codec, job: Job, d: Decision, q: RateLimit.Outcome, failed: bool,
                      response: Result<Response, string>)
    ensures Concluded(c, job, d, q, failed, response).sent ==
      if d.allowed && !failed && q.allowed then Some(Sent(job, d)) else None
  {
  }

  lemma QuotaAllowed(s: Store, key: string, d: Decision, a: Arrival)
    ensures QuotaReply(s, key, d, a).allowed <==>
      0 < d.maxCallsPerMinute && !QuotaFails(s, key, d, a) && QuotaCount(s, key, a) <= d.maxCallsPerMinute
  {
  }

  /** A request is forwarded exactly when every condition holds: the pipeline fails closed. */
  lemma ForwardedIffConfirmed(v: View, c: Codec, body: Option<Json>, header: string, o: Outside, sent: Sent)
    ensures Ending(v, c, body, header, o).sent == Some(sent) <==> Confirmed(v, body, header, o, sent)
  {
    var s := UpToTarget(v, body, header, o);
    TargetedIff(v, body, header, o, sent.job);
    if s.Targeted? {
      var d := PolicyReply(v, s.job, o).Decision();
      QuotaAllowed(v.store, WindowKey(s.job), d, o.window);
      ConcludedSent(c, s.job, d, QuotaReply(v.store, WindowKey(s.job), d, o.window),
                    QuotaFails(v.store, WindowKey(s.job), d, o.window), o.response);
    }
  }

  lemma TokenReplyIsOwner(v: View, header: string, o: Outside, user: string)
    requires Bearer(header).Some?
    ensures TokenReply(v.store, Tokens.KeysBy(v.hash), Bearer(header).value, o.authAt, o.tokenLink) == Ok(user)
      <==> TokenOwner(v, header, o) == Some(user)
  {
  }

  lemma TargetedIff(v: View, body: Option<Json>, header: string, o: Outside, job: Job)
    ensures UpToTarget(v, body, header, o) == Targeted(job) <==> Resolved(v, body, header, o, job)
  {
    if body.Some? {
      AskedIff(body.value, job.call);
    }
    if Bearer(header).Some? {
      TokenReplyIsOwner(v, header, o, job.user);
    }
  }

  lemma ConcludedEvent(c: Codec, job: Job, d: Decision, q: RateLimit.Outcome, failed: bool,
                       response: Result<Response, string>)
    ensures var end := Concluded(c, job, d, q, failed, response);
      && (end.sent.Some? <==>
            (end.event.Some? && end.event.value.outcome in [OUTCOME_ALLOWED, OUTCOME_ERROR]))
      && (end.event.Some? && end.event.value.outcome == OUTCOME_ALLOWED <==> end.reply.Relayed?)
      && (end.reply.Relayed? ==> end.event.value.summary == end.reply.result)
      && (end.event.Some? && end.event.value.outcome == OUTCOME_RATE_LIMITED <==>
            end.reply.RpcError? && end.reply.quota.Some?)
      && (end.event.Some? && end.event.value.outcome == OUTCOME_DENIED <==> !d.allowed)
  {
  }

  /**
   The audit event of a request tells how it ended: allowed or error exactly when it was forwarded,
   denied exactly when the policy refused it, rate-limited exactly when the reply carries the quota.
   The summary of an allowed event is the result the agent received.
   */
  lemma EventByEnding(v: View, c: Codec, body: Option<Json>, header: string, o: Outside)
    ensures var end := Ending(v, c, body, header, o);
      && (end.sent.Some? <==>
            (end.event.Some? && end.event.value.outcome in [OUTCOME_ALLOWED, OUTCOME_ERROR]))
      && (end.event.Some? && end.event.value.outcome == OUTCOME_ALLOWED <==> end.reply.Relayed?)
      && (end.reply.Relayed? ==> end.event.value.summary == end.reply.result)
      && (end.event.Some? && end.event.value.outcome == OUTCOME_RATE_LIMITED <==>
            end.reply.RpcError? && end.reply.quota.Some?)
      && (end.event.Some? && end.event.value.outcome == OUTCOME_DENIED <==>
            UpToTarget(v, body, header, o).Targeted? &&
            !PolicyReply(v, UpToTarget(v, body, header, o).job, o).Decision().allowed)
  {
    var s := UpToTarget(v, body, header, o);
    if s.Targeted? {
      var d := PolicyReply(v, s.job, o).Decision();
      ConcludedEvent(c, s.job, d, QuotaReply(v.store, WindowKey(s.job), d, o.window),
                     QuotaFails(v.store, WindowKey(s.job), d, o.window), o.response);
    }
  }

  lemma ConcludedSilent(c: Codec, job: Job, d: Decision, q: RateLimit.Outcome, failed: bool,
                        response: Result<Response, string>)
    ensures Concluded(c, job, d, q, failed, response).event.None? <==> d.allowed && failed
  {
  }

  /**
   A request ends without an audit event exactly when its policy was not consulted, or the policy
   allowed it and the limiter failed.
   */
  lemma SilentExactly(v: View, c: Codec, body: Option<Json>, header: string, o: Outside)
    ensures Ending(v, c, body, header, o).event.None? <==>
      var s := UpToTarget(v, body, header, o);
      !s.Targeted? ||
        var d := PolicyReply(v, s.job, o).Decision();
        d.allowed && QuotaFails(v.store, WindowKey(s.job), d, o.window)
  {
    var s := UpToTarget(v, body, header, o);
    if s.Targeted? {
      var d := PolicyReply(v, s.job, o).Decision();
      ConcludedSilent(c, s.job, d, QuotaReply(v.store, WindowKey(s.job), d, o.window),
                      QuotaFails(v.store, WindowKey(s.job), d, o.window), o.response);
    }
  }

  /** So every request that the policy allows ends silently once the limiter cannot reach Redis. */
  lemma LimiterErrorIsSilent(v: View, c: Codec, body: Option<Json>, header: string, o: Outside)
    requires var s := UpToTarget(v, body, header, o);
      s.Targeted? &&
        var d := PolicyReply(v, s.job, o).Decision();
        d.allowed && 0 < d.maxCallsPerMinute && o.window.link.Refused?
    ensures Ending(v, c, body, header, o) == Done(RpcError(CODE_RATE_LIMITED, None), None, None)
  {
  }

  /** Without a cached decision, the one row of the table answers. */
  lemma PolicyRowAnswers(v: View, job: Job, o: Outside, id: Uuid)
    requires o.policyUp && forall key :: key in v.store ==> !v.store[key].value.PolicyJson?
    requires id in v.policies && v.policies[id].triple == PolicyTable.Triple(job.role, job.server, job.call.name)
    ensures PolicyReply(v, job, o).Decision() ==
      Decision(v.policies[id].rule.allowed, v.policies[id].rule.redactFields, v.policies[id].rule.maxCallsPerMinute)
  {
    ScanPrint(job.role);
    ScanPrint(job.server);
    PolicyTable.FindUnique(v.policies, PolicyTable.Triple(job.role, job.server, job.call.name), id);
  }

  /** One token, one active user, one active server, and one row that allows the call. */
  function Minimal(hash: Tokens.Hash, raw: string, job: Job, user: Uuid, id: Uuid): View {
    View(map[TokenKey(hash(raw)) := Entry(Text(job.user), 0)], hash, map[user := User(job.role, true)],
         map[job.call.server := ServerRow(job.server, true)],
         map[id := PolicyTable.Row(PolicyTable.Triple(job.role, job.server, job.call.name),
                                   PolicyTable.Rule(true, [], 1), 0)])
  }

  function CallBody(call: ToolCall): Json {
    Obj(map["method" := Str("tools/call"), "params" := Obj(CallParams(call))])
  }

  /** Everything works but the limiter's connection. */
  function LimiterDown(): Outside {
    Outside(0, Healthy, 0, true, 0, true, 0, Healthy, 0, true, Arrival(0, 0, Refused), 0, 0, Err(""))
  }

  lemma CallBodyDecodes(call: ToolCall)
    requires call.server != "" && call.name != ""
    ensures var request := DecodeRequest(CallBody(call));
      request.Some? && ParseToolCall(request.value) == Ok(call)
  {
    assert DecodeRequest(CallBody(call)) == Some(Request("tools/call", Some(Obj(CallParams(call)))));
    CallRoundTrip(call, "tools/call");
  }

  lemma BearerOf(raw: string)
    requires raw != ""
    ensures Bearer("Bearer " + raw) == Some(raw)
  {
  }

  lemma MinimalTargets(hash: Tokens.Hash, raw: string, job: Job, user: Uuid, id: Uuid)
    requires |raw| == Tokens.RAW_LENGTH && job.call.server != "" && job.call.name != "" && job.user == Print(user)
    ensures UpToTarget(Minimal(hash, raw, job, user, id), Some(CallBody(job.call)), "Bearer " + raw, LimiterDown()) ==
      Targeted(job)
  {
    var v := Minimal(hash, raw, job, user, id);
    assert TokenReply(v.store, Tokens.KeysBy(hash), raw, 0, Healthy) == Ok(job.user);
    CallerTargets(v, CallBody(job.call), raw, LimiterDown(), job, user);
  }

  /** A known and active caller gets to the active server the call names. */
  lemma CallerTargets(v: View, body: Json, raw: string, o: Outside, job: Job, user: Uuid)
    requires body == CallBody(job.call) && raw != "" && job.call.server != "" && job.call.name != ""
    requires TokenReply(v.store, Tokens.KeysBy(v.hash), raw, o.authAt, o.tokenLink) == Ok(job.user)
    requires job.user == Print(user) && o.userUp && user in v.users && v.users[user] == User(job.role, true)
    requires o.serverUp && job.call.server in v.servers && v.servers[job.call.server] == ServerRow(job.server, true)
    ensures UpToTarget(v, Some(body), "Bearer " + raw, o) == Targeted(job)
  {
    var header := "Bearer " + raw;
    CallBodyDecodes(job.call);
    BearerOf(raw);
    ScanPrint(user);
    TargetedIff(v, Some(body), header, o, job);
  }

  lemma MinimalAllows(hash: Tokens.Hash, raw: string, job: Job, user: Uuid, id: Uuid)
    ensures PolicyReply(Minimal(hash, raw, job, user, id), job, LimiterDown()).Decision() == Decision(true, [], 1)
  {
    PolicyRowAnswers(Minimal(hash, raw, job, user, id), job, LimiterDown(), id);
  }

  /** Such requests exist, for every caller and call: a decision that is never published. */
  lemma UnauditedCall(c: Codec, hash: Tokens.Hash, raw: string, job: Job, user: Uuid, id: Uuid)
    requires |raw| == Tokens.RAW_LENGTH && job.call.server != "" && job.call.name != "" && job.user == Print(user)
    ensures Ending(Minimal(hash, raw, job, user, id), c, Some(CallBody(job.call)), "Bearer " + raw, LimiterDown()) ==
      Done(RpcError(CODE_RATE_LIMITED, None), None, None)
  {
    MinimalTargets(hash, raw, job, user, id);
    MinimalAllows(hash, raw, job, user, id);
    LimiterErrorIsSilent(Minimal(hash, raw, job, user, id), c,
                         Some(CallBody(job.call)), "Bearer " + raw, LimiterDown());
  }

  // ---------------------------------------------------------------- what each error code means

  predicate Fails(s: Stage, code: int) {
    s.Done? && s.reply.RpcError? && s.reply.code == code
  }

  /** The body is JSON, and null or an object whose version and method, as far as present, are strings. */
  predicate Decodes(body: Option<Json>) {
    && body.Some?
    && (body.value.Null? ||
        (body.value.Obj? && Texty(body.value.fields, "jsonrpc") && Texty(body.value.fields, "method")))
  }

  lemma DecodesIff(body: Option<Json>)
    ensures Decodes(body) <==> body.Some? && DecodeRequest(body.value).Some?
  {
    if body.Some? && body.value.Obj? {
      RequestDecodesIff(body.value.fields);
    }
  }

  /** The token resolves to a text that scans as a user id. */
  predicate KnownCaller(v: View, header: string, o: Outside) {
    TokenOwner(v, header, o).Some? && Scan(TokenOwner(v, header, o).value).Some?
  }

  predicate ActiveCaller(v: View, header: string, o: Outside) {
    && KnownCaller(v, header, o) && o.userUp
    && var id := Scan(TokenOwner(v, header, o).value).value;
    && id in v.users && v.users[id].isActive
  }

  /** The token is missing, has the wrong length, or Redis answers that it holds nothing for it. */
  predicate BadToken(v: View, header: string, o: Outside) {
    || Bearer(header).None?
    || |Bearer(header).value| != 64
    || (o.tokenLink.Healthy? && Peek(v.store, TokenKey(v.hash(Bearer(header).value)), o.authAt).None?)
  }

  /** The caller settles the reply, or the request goes on to its target. */
  lemma CallerSettles(v: View, body: Option<Json>, header: string, o: Outside)
    ensures var s := UpToTarget(v, body, header, o);
      && (!Decodes(body) ==> s == Rejected(CODE_PARSE_ERROR))
      && (Decodes(body) && !ActiveCaller(v, header, o) ==>
            s == Rejected(if BadToken(v, header, o) || (KnownCaller(v, header, o) && o.userUp)
                          then CODE_UNAUTHORIZED else CODE_INTERNAL_ERROR))
      && (Decodes(body) && ActiveCaller(v, header, o) ==>
            body.Some? && DecodeRequest(body.value).Some? &&
            var user := TokenOwner(v, header, o).value;
            s == AfterServer(DecodeRequest(body.value).value, user, v.users[Scan(user).value].role,
                             v.servers, o.serverUp))
  {
    DecodesIff(body);
  }

  lemma CallerReplies(v: View, body: Option<Json>, header: string, o: Outside)
    ensures var s := UpToTarget(v, body, header, o);
      && (Fails(s, CODE_PARSE_ERROR) <==> !Decodes(body))
      && (Fails(s, CODE_UNAUTHORIZED) <==>
            Decodes(body) && (BadToken(v, header, o) ||
              (KnownCaller(v, header, o) && o.userUp && !ActiveCaller(v, header, o))))
  {
    CallerSettles(v, body, header, o);
  }

  /** The request of an active caller asks for a call. */
  ghost predicate Asks(body: Option<Json>) {
    body.Some? && exists call :: AsksFor(body.value, call)
  }

  lemma AsksIff(body: Json)
    requires DecodeRequest(body).Some?
    ensures Asks(Some(body)) <==> ParseToolCall(DecodeRequest(body).value).Ok?
  {
    if call :| AsksFor(body, call) {
      AskedIff(body, call);
    }
    var r := ParseToolCall(DecodeRequest(body).value);
    if r.Ok? {
      AskedIff(body, r.value);
    }
  }

  lemma AfterServerFails(request: Request, user: string, role: Uuid, servers: map<string, ServerRow>, up: bool)
    ensures var s, call := AfterServer(request, user, role, servers, up), ParseToolCall(request);
      && (call.Err? ==> s == Rejected(CODE_INVALID_PARAMS))
      && (call.Ok? && !up ==> s == Rejected(CODE_INTERNAL_ERROR))
      && (call.Ok? && up && call.value.server !in servers ==> s == Rejected(CODE_INVALID_PARAMS))
      && (call.Ok? && up && call.value.server in servers && !servers[call.value.server].isActive ==>
            s == Rejected(CODE_FORBIDDEN))
      && (call.Ok? && up && call.value.server in servers && servers[call.value.server].isActive ==> s.Targeted?)
  {
  }

  /** The replies to an active caller who asks for no call, and those no other caller gets. */
  lemma TargetReplies(v: View, body: Option<Json>, header: string, o: Outside)
    ensures var s := UpToTarget(v, body, header, o);
      Fails(s, CODE_INVALID_PARAMS) || Fails(s, CODE_FORBIDDEN) ==> Decodes(body) && ActiveCaller(v, header, o)
    ensures Decodes(body) && ActiveCaller(v, header, o) && !Asks(body) ==>
      UpToTarget(v, body, header, o) == Rejected(CODE_INVALID_PARAMS)
  {
    CallerSettles(v, body, header, o);
    if Decodes(body) && ActiveCaller(v, header, o) {
      var user := TokenOwner(v, header, o).value;
      AsksIff(body.value);
      AfterServerFails(DecodeRequest(body.value).value, user, v.users[Scan(user).value].role, v.servers, o.serverUp);
    }
  }

  /** The replies to an active caller who asks for a call, by the state of the server it names. */
  lemma ServerReplies(v: View, body: Option<Json>, header: string, o: Outside, call: ToolCall)
    requires body.Some? && AsksFor(body.value, call) && ActiveCaller(v, header, o)
    ensures var s := UpToTarget(v, body, header, o);
      && (Fails(s, CODE_INTERNAL_ERROR) <==> !o.serverUp)
      && (Fails(s, CODE_INVALID_PARAMS) <==> o.serverUp && call.server !in v.servers)
      && (Fails(s, CODE_FORBIDDEN) <==>
            o.serverUp && call.server in v.servers && !v.servers[call.server].isActive)
  {
    var user := TokenOwner(v, header, o).value;
    AskedIff(body.value, call);
    CallerSettles(v, body, header, o);
    DecodesIff(body);
    AfterServerFails(DecodeRequest(body.value).value, user, v.users[Scan(user).value].role, v.servers, o.serverUp);
  }

  /** The requests that fail for a fault of the gateway's own before their target is known. */
  lemma InternalErrors(v: View, body: Option<Json>, header: string, o: Outside)
    ensures var s := UpToTarget(v, body, header, o);
      Fails(s, CODE_INTERNAL_ERROR) <==>
        && Decodes(body) && !BadToken(v, header, o)
        && (!KnownCaller(v, header, o) || !o.userUp || (ActiveCaller(v, header, o) && Asks(body) && !o.serverUp))
  {
    CallerSettles(v, body, header, o);
    if Decodes(body) && ActiveCaller(v, header, o) {
      var user := TokenOwner(v, header, o).value;
      AsksIff(body.value);
      AfterServerFails(DecodeRequest(body.value).value, user, v.users[Scan(user).value].role, v.servers, o.serverUp);
    }
  }

  /**
   In any history of the shared Redis, a request with a token of the wrong length, or one that nobody
   holds, is unauthorized: never issued, revoked, issued to another, or past its lifetime.
   */
  lemma UngrantedIsUnauthorized(log: seq<Command>, ttl: int, ops: seq<Tokens.Op>, raw: string,
                                v: View, c: Codec, body: Option<Json>, header: string, o: Outside)
    requires v.store == ExecAll(log) && Decodes(body) && Bearer(header) == Some(raw)
    requires var keys := Tokens.KeysBy(v.hash);
      On(log, keys(raw)) == On(Tokens.Commands(keys, ttl, ops), keys(raw)) && Tokens.NoCollision(keys, ops, raw)
    requires |raw| != 64 || (o.tokenLink.Healthy? && Tokens.Ungranted(ops, ttl, raw, o.authAt))
    ensures Ending(v, c, body, header, o) == Done(RpcError(CODE_UNAUTHORIZED, None), None, None)
  {
    DecodesIff(body);
    Tokens.RefusedIffUngranted(log, Tokens.KeysBy(v.hash), ttl, ops, raw, o.authAt);
  }

  /** The codes that end a targeted request. */
  lemma ConcludedReplies(c: Codec, job: Job, d: Decision, q: RateLimit.Outcome, failed: bool,
                         response: Result<Response, string>)
    ensures var end := Concluded(c, job, d, q, failed, response);
      && (Fails(end, CODE_FORBIDDEN) <==> !d.allowed)
      && (Fails(end, CODE_RATE_LIMITED) <==> d.allowed && (failed || !q.allowed))
      && (Fails(end, CODE_UPSTREAM_ERROR) <==> end.sent.Some? && response.Err?)
      && (end.reply.Relayed? <==> end.sent.Some? && response.Ok?)
      && (end.reply.Relayed? ==> end.reply.error == response.value.error)
  {
  }

  /** A refusal carries the limit of the decision, and nothing remaining. */
  lemma RefusalHeaders(v: View, c: Codec, body: Option<Json>, header: string, o: Outside)
    requires var end := Ending(v, c, body, header, o); end.reply.RpcError? && end.reply.quota.Some?
    ensures var s := UpToTarget(v, body, header, o);
      s.Targeted? &&
      Ending(v, c, body, header, o).reply.quota.value == Quota(PolicyReply(v, s.job, o).Decision().maxCallsPerMinute, 0)
  {
    var s := UpToTarget(v, body, header, o);
    var d := PolicyReply(v, s.job, o).Decision();
    RefusalRemains(v.store, WindowKey(s.job), d, o.window);
    ConcludedQuota(c, s.job, d, QuotaReply(v.store, WindowKey(s.job), d, o.window),
                   QuotaFails(v.store, WindowKey(s.job), d, o.window), o.response);
  }

  lemma RefusalRemains(s: Store, key: string, d: Decision, a: Arrival)
    ensures var q := QuotaReply(s, key, d, a);
      q.limit == d.maxCallsPerMinute && (!q.allowed && !QuotaFails(s, key, d, a) ==> q.Remaining() == 0)
  {
  }

  lemma ConcludedQuota(c: Codec, job: Job, d: Decision, q: RateLimit.Outcome, failed: bool,
                       response: Result<Response, string>)
    ensures var end := Concluded(c, job, d, q, failed, response);
      end.reply.RpcError? && end.reply.quota.Some? ==>
        !failed && !q.allowed && end.reply.quota.value == Quota(q.limit, q.Remaining())
  {
  }

  // ---------------------------------------------------------------- redaction, end to end

  /** The answers of two downstream servers, the same error object with either result. */
  lemma ReplyNoninterference(c: Codec, job: Job, d: Decision, a: string, b: string, e: Option<string>)
    requires Indistinct(c, a, b, d.redactFields)
    ensures AfterForward(c, job, d, Ok(Response(Some(a), e))) == AfterForward(c, job, d, Ok(Response(Some(b), e)))
  {
    if a != b {
      FilteredNoninterference(c, a, b, d.redactFields);
    }
  }

  /**
   What the agent learns from a reply: two downstream responses get the same reply exactly when they
   have the same error object and results that are the same, or indistinct under the redact list.
   */
  lemma ReplyTellsExactly(c: Codec, job: Job, d: Decision, x: Response, y: Response)
    requires RoundTrips(c)
    ensures AfterForward(c, job, d, Ok(x)).reply == AfterForward(c, job, d, Ok(y)).reply <==>
      && x.error == y.error
      && (x.result == y.result ||
          (x.result.Some? && y.result.Some? && Indistinct(c, x.result.value, y.result.value, d.redactFields)))
  {
    FilteredKeepsPresence(c, x.result, d.redactFields);
    FilteredKeepsPresence(c, y.result, d.redactFields);
    if x.result.Some? && y.result.Some? {
      FilteredEqualIff(c, x.result.value, y.result.value, d.redactFields);
    }
  }

  lemma FilteredKeepsPresence(c: Codec, result: Option<string>, fields: seq<string>)
    ensures Filtered(c, result, fields).Some? <==> result.Some?
  {
  }

  /** Nothing is redacted from a downstream error object, nor from the text of a failed forward. */
  lemma ErrorsUnredacted(c: Codec, job: Job, d: Decision, r: Response, message: string)
    requires RoundTrips(c)
    ensures AfterForward(c, job, d, Ok(r)).reply.error == r.error
    ensures r.result.Some? && ToolResultOf(c, r.result.value).None? ==>
      AfterForward(c, job, d, Ok(r)).reply.result == r.result
    ensures var event := AfterForward(c, job, d, Err(message)).event;
      && event.Some? && event.value.summary.Some?
      && c.parse(event.value.summary.value) == Some(Obj(map["error" := Str(message)]))
  {
    assert c.parse(c.print_(Obj(map["error" := Str(message)]))) == Some(Obj(map["error" := Str(message)]));
  }

  lemma ConcludedNoninterference(c: Codec, job: Job, d: Decision, q: RateLimit.Outcome, failed: bool,
                                 a: string, b: string, e: Option<string>)
    requires d.allowed ==> Indistinct(c, a, b, d.redactFields)
    ensures Concluded(c, job, d, q, failed, Ok(Response(Some(a), e))) ==
      Concluded(c, job, d, q, failed, Ok(Response(Some(b), e)))
  {
    if d.allowed {
      ReplyNoninterference(c, job, d, a, b, e);
    }
  }

  lemma TargetBeforeResponse(v: View, body: Option<Json>, header: string, o: Outside, r: Result<Response, string>)
    ensures UpToTarget(v, body, header, o.(response := r)) == UpToTarget(v, body, header, o)
  {
  }

  lemma PolicyBeforeResponse(v: View, job: Job, o: Outside, r: Result<Response, string>)
    ensures PolicyReply(v, job, o.(response := r)) == PolicyReply(v, job, o)
  {
  }

  /** The downstream answer enters a request's ending only where it concludes. */
  lemma EndingByResponse(v: View, c: Codec, body: Option<Json>, header: string, o: Outside, r: Result<Response, string>)
    ensures var s := UpToTarget(v, body, header, o);
      Ending(v, c, body, header, o.(response := r)) ==
        if !s.Targeted? then s
        else
          var d := PolicyReply(v, s.job, o).Decision();
          Concluded(c, s.job, d, QuotaReply(v.store, WindowKey(s.job), d, o.window),
                    QuotaFails(v.store, WindowKey(s.job), d, o.window), r)
  {
    TargetBeforeResponse(v, body, header, o, r);
    var s := UpToTarget(v, body, header, o);
    if s.Targeted? {
      PolicyBeforeResponse(v, s.job, o, r);
    }
  }

  /**
   Two runs of one request, with downstream results that differ only in the fields its decision
   redacts: the agent gets the same reply and the audit log the same event, summary included.
   */
  lemma EndingNoninterference(v: View, c: Codec, body: Option<Json>, header: string, o: Outside,
                              a: string, b: string, e: Option<string>)
    requires var s := UpToTarget(v, body, header, o);
      s.Targeted? ==>
        var d := PolicyReply(v, s.job, o).Decision();
        d.allowed ==> Indistinct(c, a, b, d.redactFields)
    ensures Ending(v, c, body, header, o.(response := Ok(Response(Some(a), e)))) ==
      Ending(v, c, body, header, o.(response := Ok(Response(Some(b), e))))
  {
    var s := UpToTarget(v, body, header, o);
    EndingByResponse(v, c, body, header, o, Ok(Response(Some(a), e)));
    EndingByResponse(v, c, body, header, o, Ok(Response(Some(b), e)));
    if s.Targeted? {
      var d := PolicyReply(v, s.job, o).Decision();
      ConcludedNoninterference(c, s.job, d, QuotaReply(v.store, WindowKey(s.job), d, o.window),
                               QuotaFails(v.store, WindowKey(s.job), d, o.window), a, b, e);
    }
  }

  /** The audited parameters decode to the forwarded ones, masked at the top level. */
  lemma AuditParamsDecode(c: Codec, job: Job, d: Decision)
    requires RoundTrips(c)
    ensures c.parse(AuditParams(c, job, d)) == Some(Obj(Masked(CleanParams(job.call), Fields(d.redactFields))))
  {
    var doc := CleanParams(job.call);
    assert c.parse(c.print_(Obj(doc))) == Some(Obj(doc)) && c.print_(Obj(doc)) != "";
    if d.redactFields == [] {
      assert Masked(doc, Fields([])) == doc;
    } else {
      var masked := Masked(doc, Fields(d.redactFields));
      assert c.parse(c.print_(Obj(masked))) == Some(Obj(masked));
    }
  }

  /**
   So they are in clear exactly when the redact list names neither the
   tool name nor present arguments, unless the name already is the placeholder.
   */
  lemma AuditedInClearIff(c: Codec, job: Job, d: Decision)
    requires RoundTrips(c)
    ensures var fields := Fields(d.redactFields);
      AuditParams(c, job, d) == c.print_(Obj(CleanParams(job.call))) <==>
        && ("name" in fields ==> Str(job.call.name) == PLACEHOLDER)
        && ("arguments" in fields ==> job.call.arguments == map[])
  {
    var doc := CleanParams(job.call);
    AuditParamsDecode(c, job, d);
    AuditParamsUnchangedIff(job.call, Fields(d.redactFields));
    assert c.parse(c.print_(Obj(doc))) == Some(Obj(doc));
    if Masked(doc, Fields(d.redactFields)) == doc && d.redactFields != [] && c.print_(Obj(doc)) != "" {
      assert AuditParams(c, job, d) == c.print_(Obj(Masked(doc, Fields(d.redactFields))));
    }
  }

  lemma ConcludedParams(c: Codec, job: Job, d: Decision, q: RateLimit.Outcome, failed: bool,
                        response: Result<Response, string>)
    ensures var event := Concluded(c, job, d, q, failed, response).event;
      event.Some? ==>
        && event.value.job == job && event.value.params == AuditParams(c, job, d)
        && (event.value.outcome in [OUTCOME_DENIED, OUTCOME_RATE_LIMITED] ==> event.value.summary.None?)
  {
  }

  /**
   Every audit event, whatever its outcome, is about the request's own job, and its parameters decode
   to the forwarded ones with the keys masked that the decision lists. Only a forward has a summary.
   */
  lemma EventRedacted(v: View, c: Codec, body: Option<Json>, header: string, o: Outside)
    requires RoundTrips(c) && Ending(v, c, body, header, o).event.Some?
    ensures var s, event := UpToTarget(v, body, header, o), Ending(v, c, body, header, o).event.value;
      && s.Targeted? && event.job == s.job
      && c.parse(event.params) ==
           Some(Obj(Masked(CleanParams(s.job.call), Fields(PolicyReply(v, s.job, o).Decision().redactFields))))
      && (event.outcome in [OUTCOME_DENIED, OUTCOME_RATE_LIMITED] ==> event.summary.None?)
  {
    var s := UpToTarget(v, body, header, o);
    var d := PolicyReply(v, s.job, o).Decision();
    ConcludedParams(c, s.job, d, QuotaReply(v.store, WindowKey(s.job), d, o.window),
                    QuotaFails(v.store, WindowKey(s.job), d, o.window), o.response);
    AuditParamsDecode(c, s.job, d);
  }

  /** An event carries the parameters in clear exactly when the list names none of their keys. */
  lemma EventInClearIff(v: View, c: Codec, body: Option<Json>, header: string, o: Outside)
    requires RoundTrips(c) && Ending(v, c, body, header, o).event.Some?
    ensures var event := Ending(v, c, body, header, o).event.value;
      var fields := PolicyReply(v, event.job, o).Decision().redactFields;
      event.params == c.print_(Obj(CleanParams(event.job.call))) <==>
        && ("name" in fields ==> Str(event.job.call.name) == PLACEHOLDER)
        && ("arguments" in fields ==> event.job.call.arguments == map[])
  {
    var s := UpToTarget(v, body, header, o);
    var d := PolicyReply(v, s.job, o).Decision();
    ConcludedParams(c, s.job, d, QuotaReply(v.store, WindowKey(s.job), d, o.window),
                    QuotaFails(v.store, WindowKey(s.job), d, o.window), o.response);
    AuditedInClearIff(c, s.job, d);
  }

  lemma ArgumentsAudited(c: Codec, job: Job, d: Decision)
    requires RoundTrips(c) && job.call.arguments != map[] && "arguments" !in d.redactFields
    ensures HoldsArguments(c, AuditParams(c, job, d), job.call)
  {
    AuditParamsDecode(c, job, d);
  }

  /** The text decodes to an object with all the arguments of the call, values included. */
  predicate HoldsArguments(c: Codec, params: string, call: ToolCall) {
    && c.parse(params).Some? && c.parse(params).value.Obj?
    && "arguments" in c.parse(params).value.fields
    && c.parse(params).value.fields["arguments"] == Obj(call.arguments)
  }

  /** Unless the list names the arguments as a whole, every argument is in the event with its value. */
  lemma EventHoldsArguments(v: View, c: Codec, body: Option<Json>, header: string, o: Outside)
    requires RoundTrips(c) && Ending(v, c, body, header, o).event.Some?
    requires var event := Ending(v, c, body, header, o).event.value;
      event.job.call.arguments != map[] && "arguments" !in PolicyReply(v, event.job, o).Decision().redactFields
    ensures var event := Ending(v, c, body, header, o).event.value;
      HoldsArguments(c, event.params, event.job.call)
  {
    var s := UpToTarget(v, body, header, o);
    var d := PolicyReply(v, s.job, o).Decision();
    ConcludedParams(c, s.job, d, QuotaReply(v.store, WindowKey(s.job), d, o.window),
                    QuotaFails(v.store, WindowKey(s.job), d, o.window), o.response);
    ArgumentsAudited(c, s.job, d);
  }

  lemma EndingOfSent(v: View, c: Codec, body: Option<Json>, header: string, o: Outside, sent: Sent)
    requires Ending(v, c, body, header, o).sent == Some(sent)
    ensures Ending(v, c, body, header, o) == AfterForward(c, sent.job, sent.decision, o.response)
  {
    var s := UpToTarget(v, body, header, o);
    var d := PolicyReply(v, s.job, o).Decision();
    ConcludedOfSent(c, s.job, d, QuotaReply(v.store, WindowKey(s.job), d, o.window),
                    QuotaFails(v.store, WindowKey(s.job), d, o.window), o.response);
  }

  lemma ConcludedOfSent(c: Codec, job: Job, d: Decision, q: RateLimit.Outcome, failed: bool,
                        response: Result<Response, string>)
    ensures var end := Concluded(c, job, d, q, failed, response);
      end.sent.Some? ==> end.sent.value == Sent(job, d) && end == AfterForward(c, job, d, response)
  {
  }

  /**
   What the agent gets for a forwarded call whose downstream result describes a tool result: a text
   that describes the same tool result, with the values of the listed fields replaced in every text
   that is an object. The audit event has the same text.
   */
  lemma ReplyRedacted(v: View, c: Codec, body: Option<Json>, header: string, o: Outside, sent: Sent,
                      raw: string, e: Option<string>, j: Json, r: ToolResult)
    returns (text: string, filtered: Json, redacted: ToolResult)
    requires RoundTrips(c) && sent.decision.redactFields != [] && Ending(v, c, body, header, o).sent == Some(sent)
    requires o.response == Ok(Response(Some(raw), e)) && c.parse(raw) == Some(j) && Describes(j, r)
    ensures Ending(v, c, body, header, o).reply == Relayed(Some(text), e)
    ensures var event := Ending(v, c, body, header, o).event; event.Some? && event.value.summary == Some(text)
    ensures c.parse(text) == Some(filtered) && Describes(filtered, redacted)
    ensures redacted.isError == r.isError && |redacted.content| == |r.content|
    ensures forall i :: 0 <= i < |r.content| ==>
      RedactsTo(c, r.content[i], redacted.content[i], sent.decision.redactFields)
  {
    EndingOfSent(v, c, body, header, o, sent);
    filtered, redacted := FilteredDescribes(c, raw, j, r, sent.decision.redactFields);
    text := Filtered(c, Some(raw), sent.decision.redactFields).value;
  }

  // ---------------------------------------------------------------- the handler

  class Proxy {
    const codec: Codec
    const redis: Server
    const tokens: Tokens.TokenManager
    const engine: PolicyEngine.Engine
    const limiter: RateLimit.Limiter
    var users: map<Uuid, User>
    var servers: map<string, ServerRow>
    var submitted: seq<Submission>
    var forwarded: seq<Sent>

    constructor (codec: Codec, redis: Server, tokens: Tokens.TokenManager, engine: PolicyEngine.Engine,
                 limiter: RateLimit.Limiter)
      requires tokens.redis == redis && engine.redis == redis && limiter.redis == redis
      ensures Wired() && submitted == [] && forwarded == []
    {
      this.codec, this.redis, this.tokens, this.engine, this.limiter := codec, redis, tokens, engine, limiter;
      users, servers, submitted, forwarded := map[], map[], [], [];
    }

    ghost predicate Wired() {
      tokens.redis == redis && engine.redis == redis && limiter.redis == redis
    }

    ghost function Sees(): View
      reads this, redis, engine.policies
    {
      View(redis.store, tokens.hash, users, servers, engine.policies.rows)
    }

    /** Steps 1 to 4: up to the job, or an early reply. */
    method Resolve(body: Option<Json>, header: string, o: Outside) returns (s: Stage)
      requires Wired()
      ensures s == UpToTarget(Sees(), body, header, o)
    {
      if body.None? {
        return Rejected(CODE_PARSE_ERROR);
      }
      var request := DecodeRequest(body.value);
      if request.None? {
        return Rejected(CODE_PARSE_ERROR);
      }
      var raw := Bearer(header);
      if raw.None? {
        return Rejected(CODE_UNAUTHORIZED);
      }
      var user := tokens.Validate(raw.value, o.authAt, o.tokenLink);
      if user.Err? {
        return AfterToken(request.value, user);
      }
      var id := Scan(user.value);
      if id.None? || !o.userUp {
        return Rejected(CODE_INTERNAL_ERROR);
      }
      if id.value !in users || !users[id.value].isActive {
        return Rejected(CODE_UNAUTHORIZED);
      }
      var call := ParseToolCall(request.value);
      if call.Err? {
        return Rejected(CODE_INVALID_PARAMS);
      }
      if !o.serverUp {
        return Rejected(CODE_INTERNAL_ERROR);
      }
      if call.value.server !in servers {
        return Rejected(CODE_INVALID_PARAMS);
      }
      var server := servers[call.value.server];
      if !server.isActive {
        return Rejected(CODE_FORBIDDEN);
      }
      s := Targeted(Job(user.value, users[id.value].role, server.id, call.value));
    }

    /** Steps 7 and 8: forward, redact, publish, reply. */
    method Relay(job: Job, d: Decision, response: Result<Response, string>) returns (reply: Reply)
      modifies this`submitted, this`forwarded
      ensures var end := AfterForward(codec, job, d, response);
        && reply == end.reply
        && submitted == old(submitted) + [end.event.value]
        && forwarded == old(forwarded) + [Sent(job, d)]
    {
      forwarded := forwarded + [Sent(job, d)];
      var params := RedactJsonBytes(codec, codec.print_(Obj(CleanParams(job.call))), d.redactFields);
      if response.Err? {
        var summary := ErrorSummary(codec, response.error);
        submitted := submitted + [Submission(OUTCOME_ERROR, job, params, Some(summary))];
        return RpcError(CODE_UPSTREAM_ERROR, None);
      }
      var result := response.value.result;
      if result.Some? && |d.redactFields| > 0 {
        var toolResult := ToolResultOf(codec, result.value);
        if toolResult.Some? {
          var redacted := RedactFields(codec, toolResult.value, d.redactFields);
          result := Some(codec.print_(EncodeToolResult(redacted)));
        }
      }
      submitted := submitted + [Submission(OUTCOME_ALLOWED, job, params, result)];
      reply := Relayed(result, response.value.error);
    }

    method Submit(outcome: string, job: Job, d: Decision)
      modifies this`submitted
      ensures submitted == old(submitted) + [Submission(outcome, job, AuditParams(codec, job, d), None)]
    {
      var params := RedactJsonBytes(codec, codec.print_(Obj(CleanParams(job.call))), d.redactFields);
      submitted := submitted + [Submission(outcome, job, params, None)];
    }

    /** Step 6: the limiter, and nothing else of the proxy, touches Redis. */
    method Admit(job: Job, d: Decision, o: Outside) returns (q: RateLimit.Outcome, failed: bool)
      requires Wired() && redis.Valid()
      modifies redis
      ensures redis.Valid()
      ensures q == QuotaReply(old(redis.store), WindowKey(job), d, o.window)
      ensures failed == QuotaFails(old(redis.store), WindowKey(job), d, o.window)
      ensures redis.log ==
        if Records(d, o.window)
        then old(redis.log) +
          [RateLimit.Recorded(WindowKey(job), CallOf(d, o.window))]
        else old(redis.log)
    {
      q, failed := limiter.Allow(job.user, Print(job.server), d.maxCallsPerMinute,
                                 o.window.stamp, o.window.at, o.window.link);
    }

    /** What follows the limiter's answer. */
    method Settle(job: Job, d: Decision, q: RateLimit.Outcome, failed: bool, response: Result<Response, string>)
      returns (reply: Reply)
      requires d.allowed
      modifies this`submitted, this`forwarded
      ensures var end := Concluded(codec, job, d, q, failed, response);
        && reply == end.reply
        && submitted == (if end.event.None? then old(submitted) else old(submitted) + [end.event.value])
        && forwarded == (if end.sent.None? then old(forwarded) else old(forwarded) + [end.sent.value])
    {
      if failed {
        return RpcError(CODE_RATE_LIMITED, None);
      }
      if !q.allowed {
        Submit(OUTCOME_RATE_LIMITED, job, d);
        return RpcError(CODE_RATE_LIMITED, Some(Quota(q.limit, q.Remaining())));
      }
      reply := Relay(job, d, response);
    }

    /** Steps 5 to 8, from the decision of the policy engine to the reply. */
    method Conclude(job: Job, d: Decision, o: Outside) returns (reply: Reply)
      requires Wired() && redis.Valid()
      modifies this`submitted, this`forwarded, redis
      ensures redis.Valid()
      ensures var q := QuotaReply(old(redis.store), WindowKey(job), d, o.window);
        var failed := QuotaFails(old(redis.store), WindowKey(job), d, o.window);
        var end := Concluded(codec, job, d, q, failed, o.response);
        && reply == end.reply
        && submitted == (if end.event.None? then old(submitted) else old(submitted) + [end.event.value])
        && forwarded == (if end.sent.None? then old(forwarded) else old(forwarded) + [end.sent.value])
      ensures redis.log ==
        if d.allowed && Records(d, o.window)
        then old(redis.log) + [RateLimit.Recorded(WindowKey(job), CallOf(d, o.window))]
        else old(redis.log)
    {
      if !d.allowed {
        Submit(OUTCOME_DENIED, job, d);
        return RpcError(CODE_FORBIDDEN, None);
      }
      var q, failed := Admit(job, d, o);
      reply := Settle(job, d, q, failed, o.response);
    }

    /**
     The whole handler. The reply, the audit event and the forward are those of Ending; Redis is
     touched by the limiter alone, and only once the policy allowed the call.
     */
    method Handle(body: Option<Json>, header: string, o: Outside) returns (reply: Reply)
      requires Wired() && redis.Valid()
      modifies this`submitted, this`forwarded, redis, engine`pending
      ensures redis.Valid()
      ensures var end := Ending(old(Sees()), codec, body, header, o);
        && reply == end.reply
        && submitted == (if end.event.None? then old(submitted) else old(submitted) + [end.event.value])
        && forwarded == (if end.sent.None? then old(forwarded) else old(forwarded) + [end.sent.value])
      ensures var s := UpToTarget(old(Sees()), body, header, o);
        s.Targeted? ==>
          var d := PolicyReply(old(Sees()), s.job, o).Decision();
          redis.log ==
            if d.allowed && Records(d, o.window)
            then old(redis.log) +
              [RateLimit.Recorded(WindowKey(s.job), CallOf(d, o.window))]
            else old(redis.log)
      ensures !UpToTarget(old(Sees()), body, header, o).Targeted? ==>
        redis.log == old(redis.log) && engine.pending == old(engine.pending)
      ensures var s := UpToTarget(old(Sees()), body, header, o);
        s.Targeted? ==>
          var e := PolicyReply(old(Sees()), s.job, o);
          var key := PolicyKey(Print(s.job.role), Print(s.job.server), s.job.call.name);
          engine.pending ==
            if e.Fetched? then old(engine.pending) + multiset{PolicyEngine.WriteFor(key, e.triple, e.found, o.readAt)}
            else old(engine.pending)
    {
      var s := Resolve(body, header, o);
      if !s.Targeted? {
        return s.reply;
      }
      var job := s.job;
      var d, failed := engine.Evaluate(Print(job.role), Print(job.server), job.call.name,
                                       o.getAt, o.policyLink, o.readAt, o.policyUp);
      reply := Conclude(job, d, o);
    }
  }
}
