/**
 The gateway as a whole: any number of requests in flight at once, their steps interleaved with
 background cache writes, invalidations and token operations on one Redis, one clock and one
 database. Each request carries the trail of what it has been told so far.
 */
module Gateway {
  import opened Wrappers
  import opened Uuids
  import opened Keys
  import opened Redis
  import opened Decisions
  import opened Redaction
  import opened Doubles
  import opened Lifecycle
  import Tokens
  import RateLimit
  import PolicyTable
  import PolicyEngine

  /** What a run does not change: the database at every instant, the keys, and the token lifetime. */
  datatype Setting = Setting(
    policy: PolicyEngine.Setting,
    users: int -> map<Uuid, User>,
    servers: int -> map<string, ServerRow>,
    tokenKey: Tokens.TokenKeys,
    tokenTtl: int,
    windowKey: (string, Uuid) -> string,
    codec: Codec)
  {
    /** The three key families share no key, and each separates what it is for. */
    ghost predicate Separated() {
      && policy.KeysInjective()
      && (forall raw :: PolicyEngine.Foreign(tokenKey(raw), policy))
      && (forall user, server :: PolicyEngine.Foreign(windowKey(user, server), policy))
      && (forall raw, user, server :: tokenKey(raw) != windowKey(user, server))
      && (forall user, server, user', server' :: windowKey(user, server) == windowKey(user', server') ==>
            user == user' && server == server')
    }
  }

  function WindowKeyOf(user: string, server: Uuid): string {
    RateLimitKey(user, Print(server))
  }

  /** The setting with the keys the proxy builds. */
  function Deployed(db: PolicyEngine.History, delay: nat, users: int -> map<Uuid, User>,
                    servers: int -> map<string, ServerRow>, hash: Tokens.Hash, ttl: int, codec: Codec): Setting {
    Setting(PolicyEngine.Gateway(db, delay), users, servers, Tokens.KeysBy(hash), ttl,
            WindowKeyOf, codec)
  }

  lemma DeployedSeparated(db: PolicyEngine.History, delay: nat, users: int -> map<Uuid, User>,
                          servers: int -> map<string, ServerRow>, hash: Tokens.Hash, ttl: int, codec: Codec)
    ensures Deployed(db, delay, users, servers, hash, ttl, codec).Separated()
  {
    var env := Deployed(db, delay, users, servers, hash, ttl, codec);
    PolicyEngine.GatewayKeysInjective(db, delay);
    forall raw ensures PolicyEngine.Foreign(env.tokenKey(raw), env.policy) {
      TokenKeyForeign(hash(raw), db, delay);
    }
    forall user, server ensures PolicyEngine.Foreign(env.windowKey(user, server), env.policy) {
      WindowKeyForeign(user, server, db, delay);
    }
    forall raw, user, server ensures env.tokenKey(raw) != env.windowKey(user, server) {
      FamiliesDisjoint("", "", "", user, Print(server), hash(raw));
    }
    forall user, server, user', server' | env.windowKey(user, server) == env.windowKey(user', server')
      ensures user == user' && server == server'
    {
      RateLimitKeyInjective(user, server, user', server');
    }
  }

  lemma TokenKeyForeign(hashed: string, db: PolicyEngine.History, delay: nat)
    ensures PolicyEngine.Foreign(TokenKey(hashed), PolicyEngine.Gateway(db, delay))
  {
    forall triple: PolicyTable.Triple ensures PolicyEngine.KeyOf(triple) != TokenKey(hashed) {
      FamiliesDisjoint(Print(triple.role), Print(triple.server), triple.tool, "", "", hashed);
    }
  }

  lemma WindowKeyForeign(user: string, server: Uuid, db: PolicyEngine.History, delay: nat)
    ensures PolicyEngine.Foreign(WindowKeyOf(user, server), PolicyEngine.Gateway(db, delay))
  {
    forall triple: PolicyTable.Triple ensures PolicyEngine.KeyOf(triple) != WindowKeyOf(user, server) {
      FamiliesDisjoint(Print(triple.role), Print(triple.server), triple.tool, user, Print(server), "");
    }
  }

  // ---------------------------------------------------------------- state

  /** Unavailable: the limiter failed, or its answer was lost. */
  datatype Verdict = Unasked | Unavailable | Exceeded | Granted

  /** A place in the limiter's history of calls on a key. */
  datatype Slot = Slot(key: string, index: nat)

  /** What a request was told, and when. ops are the token operations done when it was validated. */
  datatype Trail = Trail(
    body: Option<Json>, header: string,
    authAt: int, ops: seq<Tokens.Op>,
    userAt: int,
    serverAt: int,
    missed: bool,
    answeredAt: int, decision: Option<Decision>,
    verdict: Verdict, slot: Option<Slot>)

  datatype Flight = Flight(stage: Stage, trail: Trail)

  datatype Report = Report(id: nat, submission: Submission)

  datatype World = World(
    log: seq<Command>,
    pending: multiset<PolicyEngine.CacheWrite>,
    now: int,
    ops: seq<Tokens.Op>,
    calls: map<string, seq<RateLimit.Call>>,
    flights: map<nat, Flight>,
    forwarded: set<nat>,
    submitted: seq<Report>)

  function CallsOn(calls: map<string, seq<RateLimit.Call>>, key: string): seq<RateLimit.Call> {
    if key in calls then calls[key] else []
  }

  function Start(now: int): World {
    World([], multiset{}, now, [], map[], map[], {}, [])
  }

  /** The world as the policy engine sees it. */
  function Cache(w: World): PolicyEngine.State {
    PolicyEngine.State(ExecAll(w.log), w.pending, w.now)
  }

  function TripleOf(job: Job): PolicyTable.Triple {
    PolicyTable.Triple(job.role, job.server, job.call.name)
  }

  // ---------------------------------------------------------------- steps

  datatype Act =
    | Begin(id: nat, body: Option<Json>, header: string)
    | Authenticate(id: nat, link: Link)
    | Identify(id: nat, up: bool)
    | Target(id: nat, up: bool)
    | Consult(id: nat, link: Link)
    | Read(id: nat, up: bool)
    | Admit(id: nat, stamp: Nanos, link: Link)
    | Forward(id: nat)
    | Finish(id: nat, response: Result<Response, string>)
    | Land(write: PolicyEngine.CacheWrite)
    | Lose(write: PolicyEngine.CacheWrite)
    | Invalidate(triple: PolicyTable.Triple)
    | Issue(raw: string, user: string)
    | Revoke(raw: string)

  datatype Step = Step(at: int, act: Act)

  /** A token presented for validation collides with none that was issued or revoked. */
  ghost predicate Enabled(w: World, s: Step, env: Setting) {
    && w.now <= s.at
    && match s.act
       case Begin(id, _, _) => id !in w.flights
       case Authenticate(id, _) =>
         id in w.flights && w.flights[id].stage.Received? &&
         Tokens.NoCollision(env.tokenKey, w.ops, w.flights[id].stage.raw)
       case Identify(id, _) => id in w.flights && w.flights[id].stage.Authenticated?
       case Target(id, _) => id in w.flights && w.flights[id].stage.Identified?
       case Consult(id, _) => id in w.flights && w.flights[id].stage.Targeted? && !w.flights[id].trail.missed
       case Read(id, _) => id in w.flights && w.flights[id].stage.Targeted? && w.flights[id].trail.missed
       case Admit(id, _, _) => id in w.flights && w.flights[id].stage.Allowed?
       case Forward(id) => id in w.flights && w.flights[id].stage.Admitted? && id !in w.forwarded
       case Finish(id, _) => id in w.flights && w.flights[id].stage.Admitted? && id in w.forwarded
       case Land(write) => write in w.pending && s.at <= write.readAt + env.policy.delay
       case Lose(write) => write in w.pending
       case Invalidate(_) => true
       case Issue(_, _) => true
       case Revoke(_) => true
  }

  function TokenOp(s: Step): Option<Tokens.Op> {
    match s.act
    case Issue(raw, user) => Some(Tokens.Op.Issue(raw, user, s.at))
    case Revoke(raw) => Some(Tokens.Op.Revoke(raw, s.at))
    case _ => None
  }

  /** The limiter call a step records, if it reaches the script. */
  ghost function Recording(w: World, s: Step, env: Setting): Option<(string, RateLimit.Call)>
    requires Enabled(w, s, env)
  {
    match s.act
    case Admit(id, stamp, link) =>
      var Allowed(job, d) := w.flights[id].stage;
      var a := Arrival(stamp, s.at, link);
      if Records(d, a) then Some((env.windowKey(job.user, job.server), CallOf(d, a))) else None
    case _ => None
  }

  /** The command a step executes at Redis, if any. */
  ghost function Executed(w: World, s: Step, env: Setting): Option<Command>
    requires Enabled(w, s, env)
  {
    match s.act
    case Admit(_, _, _) =>
      var call := Recording(w, s, env);
      if call.Some? then Some(RateLimit.Recorded(call.value.0, call.value.1)) else None
    case Land(write) => Some(Set(write.key, PolicyJson(write.decision), write.ttl, s.at))
    case Invalidate(triple) => Some(Del(env.policy.key(triple), s.at))
    case Issue(_, _) => Some(Tokens.CommandOf(env.tokenKey, env.tokenTtl, TokenOp(s).value))
    case Revoke(_) => Some(Tokens.CommandOf(env.tokenKey, env.tokenTtl, TokenOp(s).value))
    case _ => None
  }

  /** The same step for the policy engine. */
  ghost function CacheStep(w: World, s: Step, env: Setting): PolicyEngine.Step
    requires Enabled(w, s, env)
  {
    match s.act
    case Read(id, true) => PolicyEngine.ReadThrough(TripleOf(w.flights[id].stage.job), s.at)
    case Land(write) => PolicyEngine.Land(write, s.at)
    case Lose(write) => PolicyEngine.Lose(write, s.at)
    case Invalidate(triple) => PolicyEngine.Invalidate(triple, s.at)
    case Consult(id, _) => PolicyEngine.Lookup(TripleOf(w.flights[id].stage.job), s.at)
    case _ =>
      var c := Executed(w, s, env);
      if c.Some? then PolicyEngine.Other(c.value, s.at)
      else PolicyEngine.Wait(s.at)
  }

  /** The decision a step brings a targeted request, None when the cache does not answer. */
  ghost function DecisionFor(w: World, s: Step, env: Setting): Option<Decision>
    requires Enabled(w, s, env) && (s.act.Consult? || s.act.Read?)
  {
    var triple := TripleOf(w.flights[s.act.id].stage.job);
    match s.act
    case Consult(_, link) =>
      if link.Healthy? then PolicyEngine.Answered(Cache(w), CacheStep(w, s, env), env.policy, triple) else None
    case Read(_, up) =>
      if up then PolicyEngine.Answered(Cache(w), CacheStep(w, s, env), env.policy, triple) else Some(DENY)
  }

  ghost function Decided(f: Flight, d: Option<Decision>, at: int, c: Codec): Flight
    requires f.stage.Targeted?
  {
    match d
    case None => f.(trail := f.trail.(missed := true))
    case Some(decision) =>
      Flight(AfterPolicy(c, f.stage.job, decision), f.trail.(answeredAt := at, decision := Some(decision)))
  }

  ghost function Judged(w: World, f: Flight, a: Arrival, env: Setting): Flight
    requires f.stage.Allowed?
  {
    var Allowed(job, d) := f.stage;
    var key := env.windowKey(job.user, job.server);
    var q, failed := QuotaReply(ExecAll(w.log), key, d, a), QuotaFails(ExecAll(w.log), key, d, a);
    var verdict := if failed then Unavailable else if q.allowed then Granted else Exceeded;
    var slot := if Records(d, a) then Some(Slot(key, |CallsOn(w.calls, key)|)) else f.trail.slot;
    Flight(AfterQuota(env.codec, job, d, q, failed), f.trail.(verdict := verdict, slot := slot))
  }

  ghost function Finished(f: Flight, response: Result<Response, string>, c: Codec): Flight
    requires f.stage.Admitted?
  {
    f.(stage := AfterForward(c, f.stage.job, f.stage.decision, response))
  }

  /** The request a step moves, if any, and where to. */
  ghost function Moved(w: World, s: Step, env: Setting): Option<(nat, Flight)>
    requires Enabled(w, s, env)
  {
    match s.act
    case Begin(id, body, header) =>
      Some((id, Flight(Lifecycle.Begin(body, header),
                       Trail(body, header, 0, [], 0, 0, false, 0, None, Unasked, None))))
    case Authenticate(id, link) =>
      var Flight(stage, trail) := w.flights[id];
      Some((id, Flight(AfterToken(stage.request, TokenReply(ExecAll(w.log), env.tokenKey, stage.raw, s.at, link)),
                       trail.(authAt := s.at, ops := w.ops))))
    case Identify(id, up) =>
      var Flight(stage, trail) := w.flights[id];
      Some((id, Flight(AfterUser(stage.request, stage.user, env.users(s.at), up), trail.(userAt := s.at))))
    case Target(id, up) =>
      var Flight(stage, trail) := w.flights[id];
      Some((id, Flight(AfterServer(stage.request, stage.user, stage.role, env.servers(s.at), up),
                       trail.(serverAt := s.at))))
    case Consult(id, _) => Some((id, Decided(w.flights[id], DecisionFor(w, s, env), s.at, env.codec)))
    case Read(id, _) => Some((id, Decided(w.flights[id], DecisionFor(w, s, env), s.at, env.codec)))
    case Admit(id, stamp, link) => Some((id, Judged(w, w.flights[id], Arrival(stamp, s.at, link), env)))
    case Finish(id, response) => Some((id, Finished(w.flights[id], response, env.codec)))
    case _ => None
  }

  function EventOf(f: Flight): Option<Submission> {
    if f.stage.Done? then f.stage.event else None
  }

  ghost function Next(w: World, s: Step, env: Setting): World
    requires Enabled(w, s, env)
  {
    var command, op, call, moved := Executed(w, s, env), TokenOp(s), Recording(w, s, env), Moved(w, s, env);
    World(
      if command.Some? then w.log + [command.value] else w.log,
      PolicyEngine.Next(Cache(w), CacheStep(w, s, env), env.policy).pending,
      s.at,
      if op.Some? then w.ops + [op.value] else w.ops,
      if call.Some? then w.calls[call.value.0 := CallsOn(w.calls, call.value.0) + [call.value.1]] else w.calls,
      if moved.Some? then w.flights[moved.value.0 := moved.value.1] else w.flights,
      if s.act.Forward? then w.forwarded + {s.act.id} else w.forwarded,
      if moved.Some? && EventOf(moved.value.1).Some?
        then w.submitted + [Report(moved.value.0, EventOf(moved.value.1).value)] else w.submitted)
  }

  /** The world after a sequence of steps, None if one of them is not enabled. */
  ghost function Run(start: World, steps: seq<Step>, env: Setting): Option<World> {
    if steps == [] then Some(start)
    else
      var n := |steps| - 1;
      var before := Run(start, steps[..n], env);
      if before.Some? && Enabled(before.value, steps[n], env) then Some(Next(before.value, steps[n], env)) else None
  }

  lemma RunSnoc(start: World, steps: seq<Step>, w: World, s: Step, env: Setting)
    requires Run(start, steps, env) == Some(w) && Enabled(w, s, env)
    ensures Run(start, steps + [s], env) == Some(Next(w, s, env))
  {
    assert (steps + [s])[..|steps|] == steps;
  }

  ghost predicate Reaches(now: int, steps: seq<Step>, w: World, env: Setting) {
    Run(Start(now), steps, env) == Some(w)
  }

  ghost predicate Reachable(w: World, env: Setting) {
    exists now, steps :: Reaches(now, steps, w, env)
  }
}
