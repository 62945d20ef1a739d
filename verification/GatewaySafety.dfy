/**
 What every interleaved run of the gateway keeps, and what it means for the calls it forwards: each
 was preceded by a valid token, an active user, an active server, a policy row that allowed it a
 bounded time before, and an admission of the rate limiter.
 */
module GatewaySafety {
  import opened Wrappers
  import opened Uuids
  import opened Keys
  import opened Redis
  import opened Decisions
  import opened Doubles
  import opened Mcp
  import opened Redaction
  import opened Lifecycle
  import opened Gateway
  import Tokens
  import RateLimit
  import PolicyTable
  import PolicyEngine

  // ---------------------------------------------------------------- three stores in one Redis

  /** The history of a token's key is that of the token operations. */
  ghost predicate TokenAgrees(w: World, env: Setting, raw: string) {
    var key := env.tokenKey(raw);
    On(w.log, key) == On(Tokens.Commands(env.tokenKey, env.tokenTtl, w.ops), key)
  }

  /** The history of a window's key is that of the limiter's calls. */
  ghost predicate WindowAgrees(w: World, env: Setting, user: string, server: Uuid) {
    var key := env.windowKey(user, server);
    On(w.log, key) == RateLimit.Script(key, CallsOn(w.calls, key))
  }

  ghost predicate Timely(calls: seq<RateLimit.Call>, now: int) {
    RateLimit.Chronological(calls) && forall i :: 0 <= i < |calls| ==> calls[i].at <= now
  }

  ghost predicate SharedInv(w: World, env: Setting) {
    && env.Separated()
    && PolicyEngine.Inv(Cache(w), env.policy)
    && (forall raw :: TokenAgrees(w, env, raw))
    && (forall user, server :: WindowAgrees(w, env, user, server))
    && (forall key :: Timely(CallsOn(w.calls, key), w.now))
  }

  lemma ExecutedForeign(w: World, s: Step, env: Setting)
    requires env.Separated() && Enabled(w, s, env) && Executed(w, s, env).Some?
    ensures s.act.Land? || s.act.Invalidate? || PolicyEngine.Foreign(Executed(w, s, env).value.key, env.policy)
  {
  }

  /** To the policy engine a step of the gateway is one of its own steps. */
  lemma CacheFollows(w: World, s: Step, env: Setting)
    requires env.Separated() && Enabled(w, s, env)
    ensures PolicyEngine.Enabled(Cache(w), CacheStep(w, s, env), env.policy)
    ensures Cache(Next(w, s, env)) == PolicyEngine.Next(Cache(w), CacheStep(w, s, env), env.policy)
  {
    var c := Executed(w, s, env);
    if c.Some? {
      ExecSnoc(w.log, c.value);
      ExecutedForeign(w, s, env);
    }
  }

  lemma CommandsSnoc(ops: seq<Tokens.Op>, op: Tokens.Op, env: Setting)
    ensures Tokens.Commands(env.tokenKey, env.tokenTtl, ops + [op]) ==
      Tokens.Commands(env.tokenKey, env.tokenTtl, ops) + [Tokens.CommandOf(env.tokenKey, env.tokenTtl, op)]
  {
    assert (ops + [op])[..|ops|] == ops;
  }

  lemma ExecutedOnToken(w: World, s: Step, env: Setting, raw: string)
    requires env.Separated() && Enabled(w, s, env) && PolicyEngine.Inv(Cache(w), env.policy)
    requires Executed(w, s, env).Some? && TokenOp(s).None?
    ensures Executed(w, s, env).value.key != env.tokenKey(raw)
  {
    if s.act.Land? {
      assert PolicyEngine.WriteOk(s.act.write, env.policy, w.now);
    }
    assert PolicyEngine.Foreign(env.tokenKey(raw), env.policy);
  }

  lemma TokenGrows(log: seq<Command>, ops: seq<Tokens.Op>, op: Tokens.Op, env: Setting, key: string)
    requires On(log, key) == On(Tokens.Commands(env.tokenKey, env.tokenTtl, ops), key)
    ensures var c := Tokens.CommandOf(env.tokenKey, env.tokenTtl, op);
      On(log + [c], key) == On(Tokens.Commands(env.tokenKey, env.tokenTtl, ops + [op]), key)
  {
    var c := Tokens.CommandOf(env.tokenKey, env.tokenTtl, op);
    CommandsSnoc(ops, op, env);
    OnSnoc(log, c, key);
    OnSnoc(Tokens.Commands(env.tokenKey, env.tokenTtl, ops), c, key);
  }

  lemma TokenStays(w: World, s: Step, env: Setting, raw: string)
    requires env.Separated() && Enabled(w, s, env) && TokenAgrees(w, env, raw)
    requires PolicyEngine.Inv(Cache(w), env.policy)
    ensures TokenAgrees(Next(w, s, env), env, raw)
  {
    var key, c, op := env.tokenKey(raw), Executed(w, s, env), TokenOp(s);
    if op.Some? {
      TokenGrows(w.log, w.ops, op.value, env, key);
    } else if c.Some? {
      ExecutedOnToken(w, s, env, raw);
      OnSnoc(w.log, c.value, key);
    }
  }

  lemma ExecutedOnWindow(w: World, s: Step, env: Setting, user: string, server: Uuid)
    requires env.Separated() && Enabled(w, s, env) && PolicyEngine.Inv(Cache(w), env.policy)
    requires Executed(w, s, env).Some? && Recording(w, s, env).None?
    ensures Executed(w, s, env).value.key != env.windowKey(user, server)
  {
    if s.act.Land? {
      assert PolicyEngine.WriteOk(s.act.write, env.policy, w.now);
    }
    assert PolicyEngine.Foreign(env.windowKey(user, server), env.policy);
  }

  lemma ScriptSnoc(key: string, calls: seq<RateLimit.Call>, call: RateLimit.Call)
    ensures RateLimit.Script(key, calls + [call]) == RateLimit.Script(key, calls) + [RateLimit.Recorded(key, call)]
  {
    assert (calls + [call])[..|calls|] == calls;
  }

  lemma WindowGrows(log: seq<Command>, key: string, calls: seq<RateLimit.Call>, call: RateLimit.Call)
    requires On(log, key) == RateLimit.Script(key, calls)
    ensures On(log + [RateLimit.Recorded(key, call)], key) == RateLimit.Script(key, calls + [call])
  {
    OnSnoc(log, RateLimit.Recorded(key, call), key);
    ScriptSnoc(key, calls, call);
  }

  /** The calls on a key after a step: one more if the step recorded one there. */
  lemma CallsAfter(w: World, s: Step, env: Setting, key: string)
    requires Enabled(w, s, env)
    ensures var call := Recording(w, s, env);
      CallsOn(Next(w, s, env).calls, key) ==
        if call.Some? && call.value.0 == key then CallsOn(w.calls, key) + [call.value.1] else CallsOn(w.calls, key)
  {
  }

  lemma WindowStays(w: World, s: Step, env: Setting, user: string, server: Uuid)
    requires env.Separated() && Enabled(w, s, env) && WindowAgrees(w, env, user, server)
    requires PolicyEngine.Inv(Cache(w), env.policy)
    ensures WindowAgrees(Next(w, s, env), env, user, server)
  {
    var key, c, call := env.windowKey(user, server), Executed(w, s, env), Recording(w, s, env);
    CallsAfter(w, s, env, key);
    if call.Some? && call.value.0 == key {
      WindowGrows(w.log, key, CallsOn(w.calls, key), call.value.1);
    } else if c.Some? {
      if call.None? {
        ExecutedOnWindow(w, s, env, user, server);
      }
      OnSnoc(w.log, c.value, key);
    }
  }

  lemma TimelyStays(w: World, s: Step, env: Setting, key: string)
    requires Enabled(w, s, env) && Timely(CallsOn(w.calls, key), w.now)
    ensures Timely(CallsOn(Next(w, s, env).calls, key), s.at)
  {
    CallsAfter(w, s, env, key);
  }

  lemma StepKeepsShared(w: World, s: Step, env: Setting)
    requires SharedInv(w, env) && Enabled(w, s, env)
    ensures SharedInv(Next(w, s, env), env)
  {
    var v := Next(w, s, env);
    CacheFollows(w, s, env);
    PolicyEngine.StepKeepsInv(Cache(w), CacheStep(w, s, env), env.policy);
    forall raw ensures TokenAgrees(v, env, raw) {
      TokenStays(w, s, env, raw);
    }
    forall user, server ensures WindowAgrees(v, env, user, server) {
      WindowStays(w, s, env, user, server);
    }
    forall key ensures Timely(CallsOn(v.calls, key), v.now) {
      TimelyStays(w, s, env, key);
    }
  }

  // ---------------------------------------------------------------- what a trail warrants

  /** The request's token was issued to the user, not revoked since, and within its lifetime. */
  ghost predicate Tokened(env: Setting, t: Trail, user: string) {
    && Bearer(t.header).Some? && |Bearer(t.header).value| == 64
    && Tokens.Granted(t.ops, env.tokenTtl, Bearer(t.header).value, user, t.authAt)
  }

  /** The user was active and had the role when looked up. */
  ghost predicate Active(env: Setting, t: Trail, user: string, role: Uuid) {
    && Scan(user).Some? && Scan(user).value in env.users(t.userAt)
    && env.users(t.userAt)[Scan(user).value] == User(role, true)
    && t.authAt <= t.userAt
  }

  ghost predicate Asked(t: Trail, request: Request) {
    t.body.Some? && DecodeRequest(t.body.value) == Some(request)
  }

  /** The body asks for the call, and its server was active when looked up. */
  ghost predicate Aimed(env: Setting, t: Trail, job: Job) {
    && t.body.Some? && AsksFor(t.body.value, job.call)
    && Tokened(env, t, job.user) && Active(env, t, job.user, job.role)
    && job.call.server in env.servers(t.serverAt)
    && env.servers(t.serverAt)[job.call.server] == ServerRow(job.server, true)
    && t.userAt <= t.serverAt
  }

  /** The decision allowed the call and is the one the table gave a bounded time before. */
  ghost predicate Permitted(env: Setting, t: Trail, job: Job, d: Decision) {
    && t.decision == Some(d) && d.allowed && t.serverAt <= t.answeredAt
    && exists r :: PolicyEngine.AsOf(d, TripleOf(job), env.policy, t.answeredAt, r)
  }

  /** The limiter recorded the call on the key of its user and server, and admitted it. */
  ghost predicate Counted(w: World, env: Setting, t: Trail, job: Job, d: Decision) {
    && t.slot.Some? && t.slot.value.key == env.windowKey(job.user, job.server)
    && var calls, i := CallsOn(w.calls, t.slot.value.key), t.slot.value.index;
    && i < |calls| && RateLimit.Admitted(calls, i) && calls[i].limit == d.maxCallsPerMinute
    && t.answeredAt <= calls[i].at
  }

  /** The operations the request's token was checked against are all those done before the check. */
  ghost predicate Informed(w: World, t: Trail) {
    && t.authAt <= w.now && t.ops <= w.ops
    && forall i :: |t.ops| <= i < |w.ops| ==> t.authAt <= w.ops[i].at
  }

  ghost predicate Vouched(w: World, env: Setting, t: Trail, sent: Sent) {
    && Informed(w, t)
    && Aimed(env, t, sent.job) && Permitted(env, t, sent.job, sent.decision)
    && Counted(w, env, t, sent.job, sent.decision)
  }

  ghost predicate Warranted(w: World, env: Setting, f: Flight) {
    var t := f.trail;
    match f.stage
    case Received(request, raw) => Asked(t, request) && Bearer(t.header) == Some(raw)
    case Authenticated(request, user) =>
      Asked(t, request) && Informed(w, t) && Tokened(env, t, user)
    case Identified(request, user, role) =>
      Asked(t, request) && Informed(w, t) && Tokened(env, t, user) && Active(env, t, user, role) && t.userAt <= w.now
    case Targeted(job) => Informed(w, t) && Aimed(env, t, job) && t.serverAt <= w.now
    case Allowed(job, d) => Informed(w, t) && Aimed(env, t, job) && Permitted(env, t, job, d) && t.answeredAt <= w.now
    case Admitted(job, d) => Vouched(w, env, t, Sent(job, d))
    case Done(_, event, sent) =>
      && (event.Some? ==> Aimed(env, t, event.value.job))
      && (sent.Some? ==> Vouched(w, env, t, sent.value))
  }

  /** Histories only grow. */
  ghost predicate Grows(w: World, v: World) {
    && w.now <= v.now && w.ops <= v.ops
    && (forall i :: |w.ops| <= i < |v.ops| ==> w.now <= v.ops[i].at)
    && (forall key :: CallsOn(w.calls, key) <= CallsOn(v.calls, key))
  }

  lemma StepGrows(w: World, s: Step, env: Setting)
    requires Enabled(w, s, env)
    ensures Grows(w, Next(w, s, env))
  {
    forall key ensures CallsOn(w.calls, key) <= CallsOn(Next(w, s, env).calls, key) {
      CallsAfter(w, s, env, key);
    }
  }

  lemma CountedStays(w: World, v: World, env: Setting, t: Trail, job: Job, d: Decision)
    requires Grows(w, v) && Counted(w, env, t, job, d)
    ensures Counted(v, env, t, job, d)
  {
    var before, after := CallsOn(w.calls, t.slot.value.key), CallsOn(v.calls, t.slot.value.key);
    assert after[..t.slot.value.index + 1] == before[..t.slot.value.index + 1];
  }

  lemma WarrantedStays(w: World, v: World, env: Setting, f: Flight)
    requires Grows(w, v) && Warranted(w, env, f)
    ensures Warranted(v, env, f)
  {
    match f.stage {
      case Admitted(job, d) => CountedStays(w, v, env, f.trail, job, d);
      case Done(_, _, Some(sent)) => CountedStays(w, v, env, f.trail, sent.job, sent.decision);
      case _ =>
    }
  }

  // ---------------------------------------------------------------- each move keeps the warrant

  lemma BeginWarrants(w: World, v: World, env: Setting, body: Option<Json>, header: string, t: Trail)
    requires t.body == body && t.header == header
    ensures Warranted(v, env, Flight(Lifecycle.Begin(body, header), t))
  {
  }

  lemma AuthenticateWarrants(w: World, s: Step, env: Setting)
    requires SharedInv(w, env) && Enabled(w, s, env) && s.act.Authenticate?
    requires Warranted(w, env, w.flights[s.act.id])
    ensures Warranted(Next(w, s, env), env, Moved(w, s, env).value.1)
  {
    var Flight(stage, t) := w.flights[s.act.id];
    var reply := TokenReply(ExecAll(w.log), env.tokenKey, stage.raw, s.at, s.act.link);
    if reply.Ok? {
      assert TokenAgrees(w, env, stage.raw);
      Tokens.ValidatedIffGranted(w.log, env.tokenKey, env.tokenTtl, w.ops, stage.raw, reply.value, s.at);
    }
  }

  lemma IdentifyWarrants(w: World, s: Step, env: Setting)
    requires Enabled(w, s, env) && s.act.Identify?
    requires Warranted(w, env, w.flights[s.act.id])
    ensures Warranted(Next(w, s, env), env, Moved(w, s, env).value.1)
  {
  }

  lemma TargetWarrants(w: World, s: Step, env: Setting)
    requires Enabled(w, s, env) && s.act.Target?
    requires Warranted(w, env, w.flights[s.act.id])
    ensures Warranted(Next(w, s, env), env, Moved(w, s, env).value.1)
  {
    var f := w.flights[s.act.id];
    var call := ParseToolCall(f.stage.request);
    if call.Ok? {
      AskedIff(f.trail.body.value, call.value);
    }
  }

  lemma DecisionIsAsOf(w: World, s: Step, env: Setting)
    requires SharedInv(w, env) && Enabled(w, s, env) && (s.act.Consult? || s.act.Read?)
    ensures var d, triple := DecisionFor(w, s, env), TripleOf(w.flights[s.act.id].stage.job);
      d.Some? && d.value.allowed ==> exists r :: PolicyEngine.AsOf(d.value, triple, env.policy, s.at, r)
  {
    var d, triple := DecisionFor(w, s, env), TripleOf(w.flights[s.act.id].stage.job);
    if d.Some? && d.value.allowed {
      CacheFollows(w, s, env);
      var r := PolicyEngine.StepAnswersAsOf(Cache(w), CacheStep(w, s, env), env.policy, triple);
    }
  }

  lemma DecisionWarrants(w: World, s: Step, env: Setting)
    requires SharedInv(w, env) && Enabled(w, s, env) && (s.act.Consult? || s.act.Read?)
    requires Warranted(w, env, w.flights[s.act.id])
    ensures Warranted(Next(w, s, env), env, Moved(w, s, env).value.1)
  {
    DecisionIsAsOf(w, s, env);
  }

  lemma ScriptHoldsRecent(log: seq<Command>, key: string, calls: seq<RateLimit.Call>, call: RateLimit.Call)
    requires On(log, key) == RateLimit.Script(key, calls)
    ensures !WrongType(ExecAll(log), key, call.at)
    ensures Window(ExecAll(log + [RateLimit.Recorded(key, call)]), key, call.at) == RateLimit.Recent(calls + [call])
  {
    RateLimit.StoreHoldsRecent(log, key, calls, call.at);
    WindowGrows(log, key, calls, call);
    assert RateLimit.Last(calls + [call]) == call;
    RateLimit.StoreHoldsRecent(log + [RateLimit.Recorded(key, call)], key, calls + [call], call.at);
  }

  /** What the script counts is the set the whole history leaves. */
  lemma CountedIsRecent(log: seq<Command>, key: string, calls: seq<RateLimit.Call>, call: RateLimit.Call)
    requires On(log, key) == RateLimit.Script(key, calls)
    ensures !WrongType(ExecAll(log), key, call.at)
    ensures Prune(Window(ExecAll(log), key, call.at), call.stamp - RATE_LIMIT_WINDOW) + {call.stamp} ==
      RateLimit.Recent(calls + [call])
  {
    ScriptHoldsRecent(log, key, calls, call);
    ExecSnoc(log, RateLimit.Recorded(key, call));
    RateLimit.RecordedWindow(ExecAll(log), key, call);
  }

  lemma CountIsRecent(log: seq<Command>, key: string, calls: seq<RateLimit.Call>, d: Decision, a: Arrival)
    requires On(log, key) == RateLimit.Script(key, calls)
    ensures !WrongType(ExecAll(log), key, a.at)
    ensures QuotaCount(ExecAll(log), key, a) == |RateLimit.Recent(calls + [CallOf(d, a)])|
  {
    var call, s, recent := CallOf(d, a), ExecAll(log), RateLimit.Recent(calls + [CallOf(d, a)]);
    CountedIsRecent(log, key, calls, call);
    SameCount(s, key, call, a, recent);
  }

  lemma SameCount(s: Store, key: string, call: RateLimit.Call, a: Arrival, recent: set<Nanos>)
    requires call.at == a.at && call.stamp == a.stamp
    requires Prune(Window(s, key, call.at), call.stamp - RATE_LIMIT_WINDOW) + {call.stamp} == recent
    ensures QuotaCount(s, key, a) == |recent|
  {
  }

  lemma AdmittedLast(calls: seq<RateLimit.Call>, call: RateLimit.Call)
    ensures RateLimit.Admitted(calls + [call], |calls|) <==> |RateLimit.Recent(calls + [call])| <= call.limit
  {
    assert (calls + [call])[..|calls| + 1] == calls + [call];
  }

  /** The limiter's answer is the admission rule on the key's whole history of calls. */
  lemma QuotaIsAdmission(log: seq<Command>, key: string, calls: seq<RateLimit.Call>, d: Decision, a: Arrival)
    requires On(log, key) == RateLimit.Script(key, calls) && Records(d, a)
    ensures QuotaFails(ExecAll(log), key, d, a) <==> !a.link.Healthy?
    ensures a.link.Healthy? ==>
      (QuotaReply(ExecAll(log), key, d, a).allowed <==> RateLimit.Admitted(calls + [CallOf(d, a)], |calls|))
  {
    CountIsRecent(log, key, calls, d, a);
    AdmittedLast(calls, CallOf(d, a));
    QuotaAllowed(ExecAll(log), key, d, a);
  }

  lemma AdmittedIsCounted(w: World, v: World, env: Setting, t: Trail, job: Job, d: Decision, a: Arrival)
    requires WindowAgrees(w, env, job.user, job.server) && Records(d, a) && t.answeredAt <= a.at
    requires var key := env.windowKey(job.user, job.server);
      && CallsOn(v.calls, key) == CallsOn(w.calls, key) + [CallOf(d, a)]
      && t.slot == Some(Slot(key, |CallsOn(w.calls, key)|))
      && a.link.Healthy? && QuotaReply(ExecAll(w.log), key, d, a).allowed
    ensures Counted(v, env, t, job, d)
  {
    var key := env.windowKey(job.user, job.server);
    QuotaIsAdmission(w.log, key, CallsOn(w.calls, key), d, a);
  }

  lemma AdmitWarrants(w: World, s: Step, env: Setting)
    requires SharedInv(w, env) && Enabled(w, s, env) && s.act.Admit?
    requires Warranted(w, env, w.flights[s.act.id])
    ensures Warranted(Next(w, s, env), env, Moved(w, s, env).value.1)
  {
    var Flight(Allowed(job, d), t) := w.flights[s.act.id];
    var a := Arrival(s.act.stamp, s.at, s.act.link);
    var f := Moved(w, s, env).value.1;
    if f.stage.Admitted? {
      QuotaAllowed(ExecAll(w.log), env.windowKey(job.user, job.server), d, a);
      CallsAfter(w, s, env, env.windowKey(job.user, job.server));
      AdmittedIsCounted(w, Next(w, s, env), env, f.trail, job, d, a);
    }
  }

  lemma FinishWarrants(w: World, s: Step, env: Setting)
    requires Enabled(w, s, env) && s.act.Finish?
    requires Warranted(w, env, w.flights[s.act.id])
    ensures Warranted(Next(w, s, env), env, Moved(w, s, env).value.1)
  {
    StepGrows(w, s, env);
    WarrantedStays(w, Next(w, s, env), env, w.flights[s.act.id]);
  }

  // ---------------------------------------------------------------- runs

  ghost predicate FlightsInv(w: World, env: Setting) {
    forall id :: id in w.flights ==> Warranted(w, env, w.flights[id])
  }

  /** What was forwarded has passed, or is about to leave, the last stage before its end. */
  ghost predicate Sending(f: Flight) {
    f.stage.Admitted? || (f.stage.Done? && f.stage.sent.Some?)
  }

  ghost predicate ForwardInv(w: World) {
    && (forall id :: id in w.forwarded ==> id in w.flights && Sending(w.flights[id]))
    && (forall id :: id in w.flights && w.flights[id].stage.Done? && w.flights[id].stage.sent.Some? ==>
          id in w.forwarded)
  }

  /** The place of the request's call in the limiter's history, once it has one. */
  function SlotOf(w: World, id: nat): Option<Slot> {
    if id in w.flights then w.flights[id].trail.slot else None
  }

  ghost predicate Owned(w: World, slot: Slot) {
    exists id :: SlotOf(w, id) == Some(slot)
  }

  ghost predicate Early(f: Flight) {
    !f.stage.Admitted? && !f.stage.Done?
  }

  /** Requests that reached the limiter's script and recorded calls correspond one to one. */
  ghost predicate SlotsInv(w: World) {
    && (forall id :: SlotOf(w, id).Some? ==> SlotOf(w, id).value.index < |CallsOn(w.calls, SlotOf(w, id).value.key)|)
    && (forall a, b :: SlotOf(w, a).Some? && SlotOf(w, a) == SlotOf(w, b) ==> a == b)
    && (forall key, i: nat :: i < |CallsOn(w.calls, key)| ==> Owned(w, Slot(key, i)))
    && (forall id :: id in w.flights && Early(w.flights[id]) ==> SlotOf(w, id).None?)
  }

  ghost predicate Inv(w: World, env: Setting) {
    SharedInv(w, env) && FlightsInv(w, env) && ForwardInv(w) && SlotsInv(w)
  }

  lemma MoveWarrants(w: World, s: Step, env: Setting)
    requires SharedInv(w, env) && FlightsInv(w, env) && Enabled(w, s, env) && Moved(w, s, env).Some?
    ensures Warranted(Next(w, s, env), env, Moved(w, s, env).value.1)
  {
    match s.act {
      case Begin(_, body, header) =>
        BeginWarrants(w, Next(w, s, env), env, body, header, Moved(w, s, env).value.1.trail);
      case Authenticate(_, _) => AuthenticateWarrants(w, s, env);
      case Identify(_, _) => IdentifyWarrants(w, s, env);
      case Target(_, _) => TargetWarrants(w, s, env);
      case Consult(_, _) => DecisionWarrants(w, s, env);
      case Read(_, _) => DecisionWarrants(w, s, env);
      case Admit(_, _, _) => AdmitWarrants(w, s, env);
      case Finish(_, _) => FinishWarrants(w, s, env);
    }
  }

  lemma StepKeepsFlights(w: World, s: Step, env: Setting)
    requires SharedInv(w, env) && FlightsInv(w, env) && Enabled(w, s, env)
    ensures FlightsInv(Next(w, s, env), env)
  {
    var v, moved := Next(w, s, env), Moved(w, s, env);
    StepGrows(w, s, env);
    if moved.Some? {
      MoveWarrants(w, s, env);
    }
    forall id | id in v.flights ensures Warranted(v, env, v.flights[id]) {
      if !(moved.Some? && id == moved.value.0) {
        WarrantedStays(w, v, env, w.flights[id]);
      }
    }
  }

  lemma StepKeepsForward(w: World, s: Step, env: Setting)
    requires ForwardInv(w) && Enabled(w, s, env)
    ensures ForwardInv(Next(w, s, env))
  {
  }

  lemma SlotAfter(w: World, s: Step, env: Setting, id: nat)
    requires Enabled(w, s, env)
    ensures var call := Recording(w, s, env);
      SlotOf(Next(w, s, env), id) ==
        if call.Some? && s.act.id == id then Some(Slot(call.value.0, |CallsOn(w.calls, call.value.0)|))
        else SlotOf(w, id)
  {
  }

  lemma OwnerStays(w: World, s: Step, env: Setting, id: nat)
    requires SlotsInv(w) && Enabled(w, s, env) && SlotOf(w, id).Some?
    ensures SlotOf(Next(w, s, env), id) == SlotOf(w, id)
  {
    SlotAfter(w, s, env, id);
    assert !Early(w.flights[id]);
  }

  lemma OldCallsOwned(w: World, s: Step, env: Setting, key: string, i: nat)
    requires SlotsInv(w) && Enabled(w, s, env) && i < |CallsOn(w.calls, key)|
    ensures Owned(Next(w, s, env), Slot(key, i))
  {
    assert Owned(w, Slot(key, i));
    var id :| SlotOf(w, id) == Some(Slot(key, i));
    OwnerStays(w, s, env, id);
  }

  lemma NewCallOwned(w: World, s: Step, env: Setting, key: string)
    requires Enabled(w, s, env) && Recording(w, s, env).Some? && Recording(w, s, env).value.0 == key
    ensures Owned(Next(w, s, env), Slot(key, |CallsOn(w.calls, key)|))
  {
    SlotAfter(w, s, env, s.act.id);
  }

  lemma StepKeepsOwners(w: World, s: Step, env: Setting, key: string, i: nat)
    requires SlotsInv(w) && Enabled(w, s, env)
    requires i < |CallsOn(Next(w, s, env).calls, key)|
    ensures Owned(Next(w, s, env), Slot(key, i))
  {
    CallsAfter(w, s, env, key);
    if i < |CallsOn(w.calls, key)| {
      OldCallsOwned(w, s, env, key, i);
    } else {
      assert i == |CallsOn(w.calls, key)|;
      NewCallOwned(w, s, env, key);
    }
  }

  lemma SlotInRange(w: World, s: Step, env: Setting, id: nat)
    requires SlotsInv(w) && Enabled(w, s, env) && SlotOf(Next(w, s, env), id).Some?
    ensures var v := Next(w, s, env);
      SlotOf(v, id).value.index < |CallsOn(v.calls, SlotOf(v, id).value.key)|
  {
    SlotAfter(w, s, env, id);
    CallsAfter(w, s, env, SlotOf(Next(w, s, env), id).value.key);
  }

  lemma SlotsDiffer(w: World, s: Step, env: Setting, a: nat, b: nat)
    requires SlotsInv(w) && Enabled(w, s, env)
    requires SlotOf(Next(w, s, env), a).Some? && SlotOf(Next(w, s, env), a) == SlotOf(Next(w, s, env), b)
    ensures a == b
  {
    SlotAfter(w, s, env, a);
    SlotAfter(w, s, env, b);
  }

  lemma EarlyHasNoSlot(w: World, s: Step, env: Setting, id: nat)
    requires SlotsInv(w) && Enabled(w, s, env)
    requires id in Next(w, s, env).flights && Early(Next(w, s, env).flights[id])
    ensures SlotOf(Next(w, s, env), id).None?
  {
    SlotAfter(w, s, env, id);
  }

  lemma StepKeepsSlots(w: World, s: Step, env: Setting)
    requires SlotsInv(w) && Enabled(w, s, env)
    ensures SlotsInv(Next(w, s, env))
  {
    var v := Next(w, s, env);
    forall id | SlotOf(v, id).Some?
      ensures SlotOf(v, id).value.index < |CallsOn(v.calls, SlotOf(v, id).value.key)|
    {
      SlotInRange(w, s, env, id);
    }
    forall a, b | SlotOf(v, a).Some? && SlotOf(v, a) == SlotOf(v, b) ensures a == b {
      SlotsDiffer(w, s, env, a, b);
    }
    forall key, i: nat | i < |CallsOn(v.calls, key)| ensures Owned(v, Slot(key, i)) {
      StepKeepsOwners(w, s, env, key, i);
    }
    forall id | id in v.flights && Early(v.flights[id]) ensures SlotOf(v, id).None? {
      EarlyHasNoSlot(w, s, env, id);
    }
  }

  lemma StepKeepsInv(w: World, s: Step, env: Setting)
    requires Inv(w, env) && Enabled(w, s, env)
    ensures Inv(Next(w, s, env), env)
  {
    StepKeepsShared(w, s, env);
    StepKeepsFlights(w, s, env);
    StepKeepsForward(w, s, env);
    StepKeepsSlots(w, s, env);
  }

  lemma {:induction false} RunKeepsInv(start: World, steps: seq<Step>, w: World, env: Setting)
    requires Inv(start, env) && Run(start, steps, env) == Some(w)
    ensures Inv(w, env)
  {
    if steps != [] {
      var n := |steps| - 1;
      var before := Run(start, steps[..n], env).value;
      RunKeepsInv(start, steps[..n], before, env);
      StepKeepsInv(before, steps[n], env);
    }
  }

  lemma StartsInvariant(now: int, env: Setting)
    requires env.Separated()
    ensures Inv(Start(now), env)
  {
    PolicyEngine.StartsConsistent(now, env.policy);
  }

  lemma ReachableInv(w: World, env: Setting)
    requires env.Separated() && Reachable(w, env)
    ensures Inv(w, env)
  {
    var now, steps :| Reaches(now, steps, w, env);
    StartsInvariant(now, env);
    RunKeepsInv(Start(now), steps, w, env);
  }

  // ---------------------------------------------------------------- what is forwarded

  ghost function SentOf(f: Flight): Option<Sent> {
    match f.stage
    case Admitted(job, d) => Some(Sent(job, d))
    case Done(_, _, sent) => sent
    case _ => None
  }

  /** A row of the policies table allowed the call, with this limit. */
  ghost predicate RowAllows(env: Setting, job: Job, limit: int, at: int) {
    var row := env.policy.RowAt(TripleOf(job), at);
    row.Some? && row.value.rule.allowed && row.value.rule.maxCallsPerMinute == limit
  }

  /**
   In every interleaved run, whatever was forwarded had a token that was valid when checked, then an
   active user, then an active server, then a decision that a row of the policies table gave at most
   60 seconds and the write delay before it was used, and then a limiter admission under that row's
   limit; and it is the call the body asked for.
   */
  lemma ForwardsAreJustified(w: World, env: Setting, id: nat) returns (sent: Sent, readAt: int)
    requires env.Separated() && Reachable(w, env) && id in w.forwarded
    ensures id in w.flights && SentOf(w.flights[id]) == Some(sent)
    ensures Vouched(w, env, w.flights[id].trail, sent)
    ensures var t := w.flights[id].trail;
      && RowAllows(env, sent.job, sent.decision.maxCallsPerMinute, readAt)
      && readAt <= t.answeredAt <= readAt + POLICY_TTL + env.policy.delay
      && t.authAt <= t.userAt <= t.serverAt <= t.answeredAt <= w.now
  {
    ReachableInv(w, env);
    var f := w.flights[id];
    sent := SentOf(f).value;
    assert Warranted(w, env, f);
    readAt :| PolicyEngine.AsOf(sent.decision, TripleOf(sent.job), env.policy, f.trail.answeredAt, readAt);
    assert Timely(CallsOn(w.calls, f.trail.slot.value.key), w.now);
  }

  /** The place of the request's call among those on its key. */
  function Place(w: World, id: nat): nat {
    if SlotOf(w, id).Some? then SlotOf(w, id).value.index else 0
  }

  /** The stamp the limiter recorded for the request. */
  function StampOf(w: World, id: nat): int {
    if SlotOf(w, id).Some? && Place(w, id) < |CallsOn(w.calls, SlotOf(w, id).value.key)|
    then CallsOn(w.calls, SlotOf(w, id).value.key)[Place(w, id)].stamp
    else 0
  }

  /** The limit in the decision a request was forwarded under. */
  ghost function LimitOf(w: World, id: nat): int {
    if id in w.flights && SentOf(w.flights[id]).Some? then SentOf(w.flights[id]).value.decision.maxCallsPerMinute else 0
  }

  /** The request was forwarded for the user to the server, with a stamp in the interval. */
  ghost predicate ForwardedIn(w: World, id: nat, user: string, server: Uuid, from: int, to: int) {
    && id in w.forwarded && id in w.flights
    && SentOf(w.flights[id]).Some? && SentOf(w.flights[id]).value.job.user == user
    && SentOf(w.flights[id]).value.job.server == server
    && from < StampOf(w, id) <= to
  }

  lemma ForwardedCounts(w: World, env: Setting, id: nat, user: string, server: Uuid, from: int, to: int)
    requires Inv(w, env) && ForwardedIn(w, id, user, server, from, to)
    ensures var calls, i := CallsOn(w.calls, env.windowKey(user, server)), Place(w, id);
      && SlotOf(w, id) == Some(Slot(env.windowKey(user, server), i))
      && i < |calls| && RateLimit.Admitted(calls, i)
      && calls[i].limit == LimitOf(w, id) && calls[i].stamp == StampOf(w, id)
  {
    assert Warranted(w, env, w.flights[id]);
  }

  /** No call of another user or to another server counts: a forward's slot is on its own key alone. */
  lemma QuotaIsOwn(w: World, env: Setting, id: nat, user: string, server: Uuid)
    requires env.Separated() && Reachable(w, env) && id in w.forwarded && id in w.flights
    requires SlotOf(w, id).Some? && SlotOf(w, id).value.key == env.windowKey(user, server)
    ensures SentOf(w.flights[id]).Some?
    ensures SentOf(w.flights[id]).value.job.user == user && SentOf(w.flights[id]).value.job.server == server
  {
    ReachableInv(w, env);
    assert Warranted(w, env, w.flights[id]);
  }

  lemma {:induction false} AsManyPlaces(w: World, key: string, ids: set<nat>) returns (places: set<nat>)
    requires SlotsInv(w)
    requires forall id :: id in ids ==> SlotOf(w, id) == Some(Slot(key, Place(w, id)))
    ensures |places| == |ids|
    ensures forall id :: id in ids ==> Place(w, id) in places
    ensures forall i :: i in places ==> exists id :: id in ids && Place(w, id) == i
  {
    if |ids| == 0 {
      return {};
    }
    var id :| id in ids;
    var rest := AsManyPlaces(w, key, ids - {id});
    forall other | other in ids - {id} ensures Place(w, other) != Place(w, id) {
      assert SlotOf(w, other) != SlotOf(w, id);
    }
    places := rest + {Place(w, id)};
  }

  /**
   However requests interleave, and for every skew and drift of the calls on their key: the calls
   forwarded for one user to one server with distinct stamps in an interval, shorter than the window
   by the skew and the rounding of scores and than the expiry by the drift, are at most as many as
   the limit in the policy the last of them was decided under, whichever tools they called.
   */
  lemma ForwardsBounded(w: World, env: Setting, user: string, server: Uuid, delta: nat, slack: int,
                        from: int, width: int, ids: set<nat>, last: nat)
    requires env.Separated() && Reachable(w, env)
    requires RateLimit.SkewAtMost(CallsOn(w.calls, env.windowKey(user, server)), delta)
    requires RateLimit.DriftAtMost(CallsOn(w.calls, env.windowKey(user, server)), slack)
    requires RateLimit.Narrow(width, delta, slack)
    requires forall id :: id in ids ==> ForwardedIn(w, id, user, server, from, from + width)
    requires forall a, b :: a in ids && b in ids && a != b ==> StampOf(w, a) != StampOf(w, b)
    requires last in ids && forall id :: id in ids ==> Place(w, id) <= Place(w, last)
    ensures |ids| <= LimitOf(w, last)
  {
    ReachableInv(w, env);
    var key := env.windowKey(user, server);
    var calls := CallsOn(w.calls, key);
    forall id | id in ids
      ensures SlotOf(w, id) == Some(Slot(key, Place(w, id)))
      ensures Place(w, id) < |calls| && RateLimit.Admitted(calls, Place(w, id))
      ensures calls[Place(w, id)].stamp == StampOf(w, id)
    {
      ForwardedCounts(w, env, id, user, server, from, from + width);
    }
    var places := AsManyPlaces(w, key, ids);
    assert Timely(calls, w.now);
    ForwardedCounts(w, env, last, user, server, from, from + width);
    RateLimit.AdmissionsBounded(calls, delta, slack, from, width, places, Place(w, last));
  }
}
