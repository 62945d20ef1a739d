/**
 The handler is a run of the interleaved gateway: its steps, taken one after another with nothing in
 between, bring a request to the end that the handler gives it.
 */
module HandlerRun {
  import opened Wrappers
  import opened Uuids
  import opened Keys
  import opened Redis
  import opened Decisions
  import opened Redaction
  import opened Mcp
  import opened Lifecycle
  import opened Gateway
  import Tokens
  import RateLimit
  import PolicyTable
  import PolicyEngine
  import GatewaySafety

  /** The database, the hash and the codec of a deployment. */
  datatype Site = Site(
    db: PolicyEngine.History,
    delay: nat,
    users: int -> map<Uuid, User>,
    servers: int -> map<string, ServerRow>,
    hash: Tokens.Hash,
    ttl: int,
    codec: Codec)
  {
    function Setting(): Gateway.Setting {
      Deployed(db, delay, users, servers, hash, ttl, codec)
    }

    /** What a request reads: the store, and each table when it gets to it. */
    function ViewOf(store: Store, o: Outside): View {
      View(store, hash, users(o.userAt), servers(o.serverAt), db(o.readAt))
    }
  }

  /** The request begins at an instant and takes its steps one after another, each as late as it likes. */
  predicate Ordered(at: int, o: Outside) {
    at <= o.authAt <= o.userAt <= o.serverAt <= o.getAt <= o.readAt <= o.window.at <= o.forwardAt <= o.finishAt
  }

  function Rank(s: Stage): nat {
    match s
    case Received(_, _) => 6
    case Authenticated(_, _) => 5
    case Identified(_, _, _) => 4
    case Targeted(_) => 3
    case Allowed(_, _) => 2
    case Admitted(_, _) => 1
    case Done(_, _, _) => 0
  }

  /** The cache write an evaluation launches, if it read the database. */
  function Launched(e: PolicyEngine.Evaluation, job: Job, readAt: int): multiset<PolicyEngine.CacheWrite> {
    if e.Fetched? then
      multiset{PolicyEngine.WriteFor(PolicyKey(Print(job.role), Print(job.server), job.call.name),
                                     e.triple, e.found, readAt)}
    else multiset{}
  }

  /** The command of a request whose policy allowed it. */
  function Charged(job: Job, d: Decision, a: Arrival): seq<Command> {
    if Records(d, a) then [RateLimit.Recorded(WindowKey(job), CallOf(d, a))] else []
  }

  /** What the handler is told at each step, and what it leaves behind: cache writes and Redis commands. */
  datatype Answers = Answers(
    token: string -> Result<string, Tokens.TokenError>,
    users: map<Uuid, User>, userUp: bool,
    servers: map<string, ServerRow>, serverUp: bool,
    policy: Job -> Decision,
    quota: (Job, Decision) -> RateLimit.Outcome,
    failed: (Job, Decision) -> bool,
    response: Result<Response, string>,
    launched: Job -> multiset<PolicyEngine.CacheWrite>,
    charged: (Job, Decision) -> seq<Command>)

  function Told(v: View, o: Outside): Answers {
    Answers(
      raw => TokenReply(v.store, Tokens.KeysBy(v.hash), raw, o.authAt, o.tokenLink),
      v.users, o.userUp, v.servers, o.serverUp,
      job => PolicyReply(v, job, o).Decision(),
      (job, d) => QuotaReply(v.store, WindowKey(job), d, o.window),
      (job, d) => QuotaFails(v.store, WindowKey(job), d, o.window),
      o.response,
      job => Launched(PolicyReply(v, job, o), job, o.readAt),
      (job, d) => Charged(job, d, o.window))
  }

  /** The next stage of the handler. */
  function Onward(a: Answers, c: Codec, s: Stage): (r: Stage)
    requires !s.Done?
    ensures Rank(r) < Rank(s)
  {
    match s
    case Received(request, raw) => AfterToken(request, a.token(raw))
    case Authenticated(request, user) => AfterUser(request, user, a.users, a.userUp)
    case Identified(request, user, role) => AfterServer(request, user, role, a.servers, a.serverUp)
    case Targeted(job) => AfterPolicy(c, job, a.policy(job))
    case Allowed(job, d) => AfterQuota(c, job, d, a.quota(job, d), a.failed(job, d))
    case Admitted(job, d) => AfterForward(c, job, d, a.response)
  }

  /** Where the handler takes a request from a stage. */
  function Rest(a: Answers, c: Codec, s: Stage): (r: Stage)
    ensures r.Done?
    decreases Rank(s)
  {
    if s.Done? then s else Rest(a, c, Onward(a, c, s))
  }

  /** Cache writes launched and commands executed. */
  datatype Wake = Wake(writes: multiset<PolicyEngine.CacheWrite>, commands: seq<Command>)

  /** What leaving a stage adds. */
  function Adds(a: Answers, s: Stage): Wake {
    match s
    case Targeted(job) => Wake(a.launched(job), [])
    case Allowed(job, d) => Wake(multiset{}, a.charged(job, d))
    case _ => Wake(multiset{}, [])
  }

  /** What the handler leaves behind from a stage on. */
  function Owed(a: Answers, c: Codec, s: Stage): Wake
    decreases Rank(s)
  {
    if s.Done? then Wake(multiset{}, [])
    else
      var rest := Owed(a, c, Onward(a, c, s));
      Wake(Adds(a, s).writes + rest.writes, Adds(a, s).commands + rest.commands)
  }

  /** From the target on: the write of the evaluation, and the command of the limiter if it is asked. */
  lemma OwedOfTarget(a: Answers, c: Codec, job: Job)
    ensures Owed(a, c, Targeted(job)) ==
      Wake(a.launched(job), if a.policy(job).allowed then a.charged(job, a.policy(job)) else [])
  {
    var s := Onward(a, c, Targeted(job));
    if s.Allowed? {
      var t := Onward(a, c, s);
      assert Owed(a, c, t) == Wake(multiset{}, []) by {
        if t.Admitted? {
          assert Owed(a, c, Onward(a, c, t)) == Wake(multiset{}, []);
        }
      }
      assert Owed(a, c, s) == Wake(multiset{}, a.charged(job, a.policy(job)));
    } else {
      assert Owed(a, c, s) == Wake(multiset{}, []);
    }
  }

  lemma RestOfTarget(a: Answers, c: Codec, job: Job)
    ensures Rest(a, c, Targeted(job)) ==
      var d := a.policy(job);
      Concluded(c, job, d, a.quota(job, d), a.failed(job, d), a.response)
  {
    var s := Onward(a, c, Targeted(job));
    if s.Allowed? {
      var t := Onward(a, c, s);
      assert Rest(a, c, s) == Rest(a, c, t);
      if t.Admitted? {
        assert Rest(a, c, t) == Rest(a, c, Onward(a, c, t));
      }
    }
  }

  /** The stages have the same ending, and leave the same behind. */
  predicate Alike(a: Answers, c: Codec, s: Stage, t: Stage) {
    Rest(a, c, s) == Rest(a, c, t) && Owed(a, c, s) == Owed(a, c, t)
  }

  lemma EarlyAlike(a: Answers, c: Codec, s: Stage)
    requires s.Received? || s.Authenticated? || s.Identified?
    ensures Alike(a, c, s, Onward(a, c, s))
  {
  }

  lemma ToldToken(v: View, o: Outside, raw: string)
    ensures Told(v, o).token(raw) == TokenReply(v.store, Tokens.KeysBy(v.hash), raw, o.authAt, o.tokenLink)
  {
  }

  lemma OnwardFromReceived(a: Answers, c: Codec, request: Request, raw: string)
    ensures Onward(a, c, Received(request, raw)) == AfterToken(request, a.token(raw))
  {
  }

  lemma AuthenticatedAlike(a: Answers, c: Codec, s: Stage)
    requires s.Authenticated?
    ensures var u := AfterUser(s.request, s.user, a.users, a.userUp);
      Alike(a, c, s, if u.Identified? then AfterServer(u.request, u.user, u.role, a.servers, a.serverUp) else u)
  {
    EarlyAlike(a, c, s);
    var u := Onward(a, c, s);
    if u.Identified? {
      EarlyAlike(a, c, u);
    }
  }

  /** Up to the target, the stages are those of the handler's first half. */
  lemma BeginAlike(v: View, c: Codec, body: Option<Json>, header: string, o: Outside)
    ensures Alike(Told(v, o), c, Lifecycle.Begin(body, header), UpToTarget(v, body, header, o))
  {
    var a, s := Told(v, o), Lifecycle.Begin(body, header);
    if s.Received? {
      ToldToken(v, o, s.raw);
      OnwardFromReceived(a, c, s.request, s.raw);
      EarlyAlike(a, c, s);
      var t := Onward(a, c, s);
      if t.Authenticated? {
        AuthenticatedAlike(a, c, t);
      }
    }
  }

  /** The handler's ending is what its stages lead to. */
  lemma RestOfBegin(v: View, c: Codec, body: Option<Json>, header: string, o: Outside)
    ensures Rest(Told(v, o), c, Lifecycle.Begin(body, header)) == Ending(v, c, body, header, o)
  {
    BeginAlike(v, c, body, header, o);
    var s := UpToTarget(v, body, header, o);
    if s.Targeted? {
      var d := PolicyReply(v, s.job, o).Decision();
      RestOfTarget(Told(v, o), c, s.job);
      ToldPolicy(v, o, s.job);
      ToldQuota(v, o, s.job, d);
    }
  }

  /** What a whole request leaves behind, as the handler does. */
  function WakeOf(v: View, body: Option<Json>, header: string, o: Outside): Wake {
    var s := UpToTarget(v, body, header, o);
    if !s.Targeted? then Wake(multiset{}, [])
    else
      var e := PolicyReply(v, s.job, o);
      Wake(Launched(e, s.job, o.readAt),
           if e.Decision().allowed then Charged(s.job, e.Decision(), o.window) else [])
  }

  lemma OwedOfBegin(v: View, c: Codec, body: Option<Json>, header: string, o: Outside)
    ensures Owed(Told(v, o), c, Lifecycle.Begin(body, header)) == WakeOf(v, body, header, o)
  {
    BeginAlike(v, c, body, header, o);
    var s := UpToTarget(v, body, header, o);
    if s.Targeted? {
      OwedOfTarget(Told(v, o), c, s.job);
      ToldPolicy(v, o, s.job);
      ToldWake(v, o, s.job, PolicyReply(v, s.job, o).Decision());
    }
  }

  // ---------------------------------------------------------------- the run

  /** The request's next step. */
  ghost function ActOf(w: World, id: nat, o: Outside): Act
    requires id in w.flights
  {
    var f := w.flights[id];
    match f.stage
    case Received(_, _) => Authenticate(id, o.tokenLink)
    case Authenticated(_, _) => Identify(id, o.userUp)
    case Identified(_, _, _) => Target(id, o.serverUp)
    case Targeted(_) => if f.trail.missed then Read(id, o.policyUp) else Consult(id, o.policyLink)
    case Allowed(_, _) => Admit(id, o.window.stamp, o.window.link)
    case _ => if id in w.forwarded then Finish(id, o.response) else Forward(id)
  }

  ghost function ClockOf(w: World, id: nat, o: Outside): int
    requires id in w.flights
  {
    var f := w.flights[id];
    match f.stage
    case Received(_, _) => o.authAt
    case Authenticated(_, _) => o.userAt
    case Identified(_, _, _) => o.serverAt
    case Targeted(_) => if f.trail.missed then o.readAt else o.getAt
    case Allowed(_, _) => o.window.at
    case _ => if id in w.forwarded then o.finishAt else o.forwardAt
  }

  ghost function StepOf(w: World, id: nat, o: Outside): Step
    requires id in w.flights
  {
    Step(ClockOf(w, id, o), ActOf(w, id, o))
  }

  /** The request has the world to itself: up to the limiter the store is the one it began with. */
  ghost predicate Alone(w: World, id: nat, site: Site, v: View, o: Outside) {
    && id in w.flights && Ordered(o.authAt, o) && w.now <= ClockOf(w, id, o)
    && v == site.ViewOf(v.store, o)
    && var f := w.flights[id];
    && (!f.stage.Admitted? && !f.stage.Done? ==> ExecAll(w.log) == v.store)
    && (f.stage.Received? ==> Tokens.NoCollision(site.Setting().tokenKey, w.ops, f.stage.raw))
    && (f.stage.Targeted? && f.trail.missed ==> !PolicyReply(v, f.stage.job, o).Hit?)
    && (!f.trail.missed || f.stage.Targeted? || f.stage.Allowed? || f.stage.Admitted? || f.stage.Done?)
  }

  /** The steps a stage can take before it is left: a cache miss, and the forward itself. */
  ghost function Ahead(w: World, id: nat): nat
    requires id in w.flights
  {
    (if w.flights[id].trail.missed then 0 else 1) + if id in w.forwarded then 0 else 1
  }

  ghost predicate Own(s: Step, id: nat) {
    !s.act.Land? && !s.act.Lose? && !s.act.Invalidate? && !s.act.Issue? && !s.act.Revoke? && s.act.id == id
  }

  lemma StageKeepsRest(a: Answers, c: Codec, before: Stage, after: Stage, aheadBefore: nat, aheadAfter: nat)
    requires !before.Done? && aheadAfter <= 2
    requires after == Onward(a, c, before) || (after == before && aheadAfter < aheadBefore)
    ensures Rest(a, c, after) == Rest(a, c, before)
    ensures 3 * Rank(after) + aheadAfter < 3 * Rank(before) + aheadBefore
  {
  }

  /** Nothing is left behind but what the stages owe. */
  ghost predicate Behind(w: World, t: World, id: nat, a: Answers, c: Codec)
    requires id in w.flights && id in t.flights
  {
    var before, after := Owed(a, c, w.flights[id].stage), Owed(a, c, t.flights[id].stage);
    t.pending + after.writes == w.pending + before.writes && t.log + after.commands == w.log + before.commands
  }

  lemma LeavesBehind(w: World, t: World, id: nat, a: Answers, c: Codec)
    requires id in w.flights && id in t.flights && !w.flights[id].stage.Done?
    requires t.flights[id].stage == Onward(a, c, w.flights[id].stage)
    requires t.pending == w.pending + Adds(a, w.flights[id].stage).writes
    requires t.log == w.log + Adds(a, w.flights[id].stage).commands
    ensures Behind(w, t, id, a, c)
  {
  }

  /** Still alone with the world, bound for the same ending, and nearer to it. */
  ghost predicate Reached(w: World, t: World, id: nat, site: Site, v: View, o: Outside, a: Answers)
    requires id in w.flights
  {
    && Alone(t, id, site, v, o) && Behind(w, t, id, a, site.codec)
    && Rest(a, site.codec, t.flights[id].stage) == Rest(a, site.codec, w.flights[id].stage)
    && 3 * Rank(t.flights[id].stage) + Ahead(t, id) < 3 * Rank(w.flights[id].stage) + Ahead(w, id)
  }

  /** The request's step is enabled and takes it where the handler goes. */
  ghost predicate Follows(w: World, id: nat, site: Site, v: View, o: Outside, a: Answers)
    requires id in w.flights
  {
    var s, env := StepOf(w, id, o), site.Setting();
    Enabled(w, s, env) && Own(s, id) && Reached(w, Next(w, s, env), id, site, v, o, a)
  }

  /** The next stage of the handler, with the rest of the request's trail whatever it is. */
  lemma MovedOn(w: World, t: World, id: nat, site: Site, v: View, o: Outside, a: Answers, f: Flight)
    requires Alone(w, id, site, v, o) && !w.flights[id].stage.Done?
    requires t.flights == w.flights[id := f] && t.forwarded == w.forwarded && t.now == ClockOf(w, id, o)
    requires f.stage == Onward(a, site.codec, w.flights[id].stage) && f.trail.missed == w.flights[id].trail.missed
    requires !f.stage.Admitted? && !f.stage.Done? ==> t.log == w.log
    requires t.pending == w.pending + Adds(a, w.flights[id].stage).writes
    requires t.log == w.log + Adds(a, w.flights[id].stage).commands
    ensures Reached(w, t, id, site, v, o, a)
  {
    LeavesBehind(w, t, id, a, site.codec);
    StageKeepsRest(a, site.codec, w.flights[id].stage, f.stage, Ahead(w, id), Ahead(t, id));
  }

  lemma EarlyMoves(w: World, s: Step, env: Gateway.Setting)
    requires Enabled(w, s, env) && (s.act.Authenticate? || s.act.Identify? || s.act.Target?)
    ensures var t := Next(w, s, env);
      && Moved(w, s, env).Some? && Moved(w, s, env).value.0 == s.act.id
      && t.flights == w.flights[s.act.id := Moved(w, s, env).value.1]
      && t.log == w.log && t.pending == w.pending && t.now == s.at && t.forwarded == w.forwarded
  {
  }

  lemma TokenStepFollows(w: World, id: nat, site: Site, v: View, o: Outside, a: Answers)
    requires Alone(w, id, site, v, o) && w.flights[id].stage.Received?
    requires var raw := w.flights[id].stage.raw;
      a.token(raw) == TokenReply(v.store, Tokens.KeysBy(v.hash), raw, o.authAt, o.tokenLink)
    ensures Follows(w, id, site, v, o, a)
  {
    var s, env := Step(o.authAt, Authenticate(id, o.tokenLink)), site.Setting();
    EarlyMoves(w, s, env);
    OnwardFromReceived(a, site.codec, w.flights[id].stage.request, w.flights[id].stage.raw);
    MovedOn(w, Next(w, s, env), id, site, v, o, a, Moved(w, s, env).value.1);
  }

  lemma UserStepFollows(w: World, id: nat, site: Site, v: View, o: Outside, a: Answers)
    requires Alone(w, id, site, v, o) && w.flights[id].stage.Authenticated?
    requires a.users == v.users && a.userUp == o.userUp
    ensures Follows(w, id, site, v, o, a)
  {
    var s, env := Step(o.userAt, Identify(id, o.userUp)), site.Setting();
    EarlyMoves(w, s, env);
    MovedOn(w, Next(w, s, env), id, site, v, o, a, Moved(w, s, env).value.1);
  }

  lemma ServerStepFollows(w: World, id: nat, site: Site, v: View, o: Outside, a: Answers)
    requires Alone(w, id, site, v, o) && w.flights[id].stage.Identified?
    requires a.servers == v.servers && a.serverUp == o.serverUp
    ensures Follows(w, id, site, v, o, a)
  {
    var s, env := Step(o.serverAt, Target(id, o.serverUp)), site.Setting();
    EarlyMoves(w, s, env);
    MovedOn(w, Next(w, s, env), id, site, v, o, a, Moved(w, s, env).value.1);
  }

  lemma ConsultMoves(w: World, id: nat, link: Link, at: int, env: Gateway.Setting)
    requires Enabled(w, Step(at, Consult(id, link)), env)
    ensures var s := Step(at, Consult(id, link));
      var v := Next(w, s, env);
      && v.flights == w.flights[id := Decided(w.flights[id], DecisionFor(w, s, env), at, env.codec)]
      && v.log == w.log && v.pending == w.pending && v.now == at && v.forwarded == w.forwarded
  {
  }

  /** The write a read of the database launches. */
  ghost function ReadWrite(env: Gateway.Setting, job: Job, at: int): PolicyEngine.CacheWrite {
    var triple := TripleOf(job);
    PolicyEngine.WriteFor(env.policy.key(triple), triple, env.policy.RowAt(triple, at), at)
  }

  lemma ReadMoves(w: World, id: nat, up: bool, at: int, env: Gateway.Setting)
    requires Enabled(w, Step(at, Read(id, up)), env)
    ensures var s := Step(at, Read(id, up));
      var v := Next(w, s, env);
      && v.flights == w.flights[id := Decided(w.flights[id], DecisionFor(w, s, env), at, env.codec)]
      && v.log == w.log && v.now == at && v.forwarded == w.forwarded
      && v.pending == if up then w.pending + multiset{ReadWrite(env, w.flights[id].stage.job, at)} else w.pending
  {
  }

  /** The cache answers the lookup when the engine hits, with the same decision. */
  lemma ConsultDecides(w: World, id: nat, site: Site, v: View, o: Outside)
    requires Alone(w, id, site, v, o) && w.flights[id].stage.Targeted?
    requires Enabled(w, Step(o.getAt, Consult(id, o.policyLink)), site.Setting())
    ensures var e := PolicyReply(v, w.flights[id].stage.job, o);
      DecisionFor(w, Step(o.getAt, Consult(id, o.policyLink)), site.Setting()) ==
        if e.Hit? then Some(e.Decision()) else None
  {
  }

  lemma ReadDecides(w: World, id: nat, site: Site, v: View, o: Outside)
    requires Alone(w, id, site, v, o) && w.flights[id].stage.Targeted?
    requires Enabled(w, Step(o.readAt, Read(id, o.policyUp)), site.Setting())
    ensures DecisionFor(w, Step(o.readAt, Read(id, o.policyUp)), site.Setting()) ==
      Some(PolicyReply(v, w.flights[id].stage.job, o).Decision())
  {
    var job := w.flights[id].stage.job;
    ScanPrint(job.role);
    ScanPrint(job.server);
  }

  /** The write is the one the engine launches, and none when the database is down. */
  lemma ReadLaunches(id: nat, site: Site, v: View, o: Outside, job: Job)
    requires v == site.ViewOf(v.store, o) && !PolicyReply(v, job, o).Hit?
    ensures Launched(PolicyReply(v, job, o), job, o.readAt) ==
      if o.policyUp then multiset{ReadWrite(site.Setting(), job, o.readAt)} else multiset{}
  {
    ScanPrint(job.role);
    ScanPrint(job.server);
  }

  lemma ToldWake(v: View, o: Outside, job: Job, d: Decision)
    ensures Told(v, o).launched(job) == Launched(PolicyReply(v, job, o), job, o.readAt)
    ensures Told(v, o).charged(job, d) == Charged(job, d, o.window)
  {
  }

  lemma ToldPolicy(v: View, o: Outside, job: Job)
    ensures Told(v, o).policy(job) == PolicyReply(v, job, o).Decision()
  {
  }

  lemma OnwardFromTargeted(a: Answers, c: Codec, job: Job)
    ensures Onward(a, c, Targeted(job)) == AfterPolicy(c, job, a.policy(job))
  {
  }

  lemma DecidedOn(w: World, t: World, id: nat, site: Site, v: View, o: Outside, a: Answers)
    requires Alone(w, id, site, v, o) && w.flights[id].stage.Targeted?
    requires var f := w.flights[id];
      t.flights == w.flights[id := Decided(f, Some(a.policy(f.stage.job)), t.now, site.codec)]
    requires t.log == w.log && t.now == ClockOf(w, id, o) && t.forwarded == w.forwarded
    requires t.pending == w.pending + a.launched(w.flights[id].stage.job)
    ensures Reached(w, t, id, site, v, o, a)
  {
    var f := w.flights[id];
    OnwardFromTargeted(a, site.codec, f.stage.job);
    MovedOn(w, t, id, site, v, o, a, Decided(f, Some(a.policy(f.stage.job)), t.now, site.codec));
  }

  lemma HitFollows(w: World, id: nat, site: Site, v: View, o: Outside, a: Answers)
    requires Alone(w, id, site, v, o) && w.flights[id].stage.Targeted? && !w.flights[id].trail.missed
    requires var e := PolicyReply(v, w.flights[id].stage.job, o);
      e.Hit? && a.policy(w.flights[id].stage.job) == e.Decision()
    requires a.launched(w.flights[id].stage.job) == multiset{}
    ensures Follows(w, id, site, v, o, a)
  {
    var s, env := Step(o.getAt, Consult(id, o.policyLink)), site.Setting();
    ConsultMoves(w, id, o.policyLink, o.getAt, env);
    ConsultDecides(w, id, site, v, o);
    DecidedOn(w, Next(w, s, env), id, site, v, o, a);
  }

  lemma MissedOn(w: World, t: World, id: nat, site: Site, v: View, o: Outside, a: Answers)
    requires Alone(w, id, site, v, o) && w.flights[id].stage.Targeted? && !w.flights[id].trail.missed
    requires !PolicyReply(v, w.flights[id].stage.job, o).Hit?
    requires t.flights == w.flights[id := Decided(w.flights[id], None, o.getAt, site.codec)]
    requires t.log == w.log && t.pending == w.pending && t.now == o.getAt && t.forwarded == w.forwarded
    ensures Reached(w, t, id, site, v, o, a)
  {
  }

  lemma MissFollows(w: World, id: nat, site: Site, v: View, o: Outside, a: Answers)
    requires Alone(w, id, site, v, o) && w.flights[id].stage.Targeted? && !w.flights[id].trail.missed
    requires !PolicyReply(v, w.flights[id].stage.job, o).Hit?
    ensures Follows(w, id, site, v, o, a)
  {
    var s, env := Step(o.getAt, Consult(id, o.policyLink)), site.Setting();
    ConsultMoves(w, id, o.policyLink, o.getAt, env);
    ConsultDecides(w, id, site, v, o);
    MissedOn(w, Next(w, s, env), id, site, v, o, a);
  }

  lemma ReadStepFollows(w: World, id: nat, site: Site, v: View, o: Outside, a: Answers)
    requires Alone(w, id, site, v, o) && w.flights[id].stage.Targeted? && w.flights[id].trail.missed
    requires a.policy(w.flights[id].stage.job) == PolicyReply(v, w.flights[id].stage.job, o).Decision()
    requires a.launched(w.flights[id].stage.job) ==
      Launched(PolicyReply(v, w.flights[id].stage.job, o), w.flights[id].stage.job, o.readAt)
    ensures Follows(w, id, site, v, o, a)
  {
    ReadLaunches(id, site, v, o, w.flights[id].stage.job);
    var s, env := Step(o.readAt, Read(id, o.policyUp)), site.Setting();
    ReadMoves(w, id, o.policyUp, o.readAt, env);
    ReadDecides(w, id, site, v, o);
    DecidedOn(w, Next(w, s, env), id, site, v, o, a);
  }

  lemma ToldQuota(v: View, o: Outside, job: Job, d: Decision)
    ensures Told(v, o).quota(job, d) == QuotaReply(v.store, WindowKey(job), d, o.window)
    ensures Told(v, o).failed(job, d) == QuotaFails(v.store, WindowKey(job), d, o.window)
  {
  }

  lemma OnwardFromAllowed(a: Answers, c: Codec, job: Job, d: Decision)
    ensures Onward(a, c, Allowed(job, d)) == AfterQuota(c, job, d, a.quota(job, d), a.failed(job, d))
  {
  }

  lemma AdmitMoves(w: World, id: nat, a: Arrival, env: Setting)
    requires Enabled(w, Step(a.at, Admit(id, a.stamp, a.link)), env)
    ensures var v := Next(w, Step(a.at, Admit(id, a.stamp, a.link)), env);
      && v.flights == w.flights[id := Judged(w, w.flights[id], a, env)]
      && v.now == a.at && v.forwarded == w.forwarded && v.pending == w.pending
      && v.log == w.log + var Allowed(job, d) := w.flights[id].stage;
           if Records(d, a) then [RateLimit.Recorded(env.windowKey(job.user, job.server), CallOf(d, a))] else []
  {
  }

  lemma QuotaStepFollows(w: World, id: nat, site: Site, v: View, o: Outside, a: Answers)
    requires Alone(w, id, site, v, o) && w.flights[id].stage.Allowed?
    requires var Allowed(job, d) := w.flights[id].stage;
      && a.quota(job, d) == QuotaReply(v.store, WindowKey(job), d, o.window)
      && a.failed(job, d) == QuotaFails(v.store, WindowKey(job), d, o.window)
      && a.charged(job, d) == Charged(job, d, o.window)
    ensures Follows(w, id, site, v, o, a)
  {
    var f, env := w.flights[id], site.Setting();
    var s := Step(o.window.at, Admit(id, o.window.stamp, o.window.link));
    AdmitMoves(w, id, o.window, env);
    OnwardFromAllowed(a, site.codec, f.stage.job, f.stage.decision);
    MovedOn(w, Next(w, s, env), id, site, v, o, a, Judged(w, f, o.window, env));
  }

  lemma OnwardFromAdmitted(a: Answers, c: Codec, f: Flight)
    requires f.stage.Admitted?
    ensures Onward(a, c, f.stage) == Finished(f, a.response, c).stage && Adds(a, f.stage) == Wake(multiset{}, [])
  {
  }

  lemma FinishMoves(w: World, id: nat, response: Result<Response, string>, at: int, env: Gateway.Setting)
    requires Enabled(w, Step(at, Finish(id, response)), env)
    ensures var v := Next(w, Step(at, Finish(id, response)), env);
      && v.flights == w.flights[id := Finished(w.flights[id], response, env.codec)]
      && v.now == at && v.forwarded == w.forwarded && v.log == w.log && v.pending == w.pending
  {
  }

  lemma ForwardMoves(w: World, id: nat, at: int, env: Gateway.Setting)
    requires Enabled(w, Step(at, Forward(id)), env)
    ensures var v := Next(w, Step(at, Forward(id)), env);
      && v.flights == w.flights && v.forwarded == w.forwarded + {id} && v.now == at
      && v.log == w.log && v.pending == w.pending
  {
  }

  lemma ForwardStepFollows(w: World, id: nat, site: Site, v: View, o: Outside, a: Answers)
    requires Alone(w, id, site, v, o) && w.flights[id].stage.Admitted? && id !in w.forwarded
    ensures Follows(w, id, site, v, o, a)
  {
    ForwardMoves(w, id, o.forwardAt, site.Setting());
  }

  lemma FinishStepFollows(w: World, id: nat, site: Site, v: View, o: Outside, a: Answers)
    requires Alone(w, id, site, v, o) && w.flights[id].stage.Admitted? && id in w.forwarded
    requires a.response == o.response
    ensures Follows(w, id, site, v, o, a)
  {
    var f, s, env := w.flights[id], Step(o.finishAt, Finish(id, o.response)), site.Setting();
    FinishMoves(w, id, o.response, o.finishAt, env);
    OnwardFromAdmitted(a, site.codec, f);
    MovedOn(w, Next(w, s, env), id, site, v, o, a, Finished(f, o.response, site.codec));
  }

  /** The run past goes on with steps of the request alone and brings it to the end. */
  ghost predicate Ends(start: World, past: seq<Step>, id: nat, site: Site, steps: seq<Step>, t: World, end: Stage) {
    && past <= steps && (forall i :: |past| <= i < |steps| ==> Own(steps[i], id))
    && Run(start, steps, site.Setting()) == Some(t)
    && id in t.flights && t.flights[id].stage == end
  }

  lemma StageStepFollows(w: World, id: nat, site: Site, v: View, o: Outside)
    requires Alone(w, id, site, v, o) && !w.flights[id].stage.Done?
    ensures Follows(w, id, site, v, o, Told(v, o))
  {
    var a, stage := Told(v, o), w.flights[id].stage;
    match stage {
      case Received(_, raw) =>
        ToldToken(v, o, raw);
        TokenStepFollows(w, id, site, v, o, a);
      case Authenticated(_, _) => UserStepFollows(w, id, site, v, o, a);
      case Identified(_, _, _) => ServerStepFollows(w, id, site, v, o, a);
      case Targeted(job) =>
        ToldPolicy(v, o, job);
        ToldWake(v, o, job, PolicyReply(v, job, o).Decision());
        if w.flights[id].trail.missed {
          ReadStepFollows(w, id, site, v, o, a);
        } else if PolicyReply(v, job, o).Hit? {
          HitFollows(w, id, site, v, o, a);
        } else {
          MissFollows(w, id, site, v, o, a);
        }
      case Allowed(job, d) =>
        ToldQuota(v, o, job, d);
        ToldWake(v, o, job, d);
        QuotaStepFollows(w, id, site, v, o, a);
      case Admitted(_, _) =>
        if id in w.forwarded {
          FinishStepFollows(w, id, site, v, o, a);
        } else {
          ForwardStepFollows(w, id, site, v, o, a);
        }
    }
  }

  lemma OneMore(start: World, past: seq<Step>, s: Step, id: nat, site: Site, steps: seq<Step>, t: World, end: Stage)
    requires Own(s, id) && Ends(start, past + [s], id, site, steps, t, end)
    ensures Ends(start, past, id, site, steps, t, end)
  {
    assert past <= past + [s] <= steps;
    assert steps[|past|] == (past + [s])[|past|];
  }

  lemma {:induction false} RunFollows(start: World, past: seq<Step>, w: World,
                                      id: nat, site: Site, v: View, o: Outside)
    returns (steps: seq<Step>, t: World)
    requires Run(start, past, site.Setting()) == Some(w) && Alone(w, id, site, v, o)
    ensures Ends(start, past, id, site, steps, t, Rest(Told(v, o), site.codec, w.flights[id].stage))
    ensures var owed := Owed(Told(v, o), site.codec, w.flights[id].stage);
      t.pending == w.pending + owed.writes && t.log == w.log + owed.commands
    decreases 3 * Rank(w.flights[id].stage) + Ahead(w, id)
  {
    if w.flights[id].stage.Done? {
      return past, w;
    }
    var s, env := StepOf(w, id, o), site.Setting();
    StageStepFollows(w, id, site, v, o);
    RunSnoc(start, past, w, s, env);
    var next := Next(w, s, env);
    steps, t := RunFollows(start, past + [s], next, id, site, v, o);
    OneMore(start, past, s, id, site, steps, t, Rest(Told(v, o), site.codec, next.flights[id].stage));
  }

  lemma BeginMoves(w: World, id: nat, body: Option<Json>, header: string, at: int, env: Gateway.Setting)
    requires Enabled(w, Step(at, Act.Begin(id, body, header)), env)
    ensures var v := Next(w, Step(at, Act.Begin(id, body, header)), env);
      && id in v.flights && v.flights[id].stage == Lifecycle.Begin(body, header) && !v.flights[id].trail.missed
      && v.log == w.log && v.pending == w.pending && v.ops == w.ops && v.now == at
  {
  }

  lemma BeginsAlone(w: World, id: nat, site: Site, body: Option<Json>, header: string, o: Outside, at: int)
    requires id !in w.flights && w.now <= at && Ordered(at, o)
    requires Bearer(header).Some? ==> Tokens.NoCollision(site.Setting().tokenKey, w.ops, Bearer(header).value)
    ensures var s := Step(at, Act.Begin(id, body, header));
      && Enabled(w, s, site.Setting()) && Own(s, id)
      && Alone(Next(w, s, site.Setting()), id, site, site.ViewOf(ExecAll(w.log), o), o)
      && Next(w, s, site.Setting()).flights[id].stage == Lifecycle.Begin(body, header)
      && Next(w, s, site.Setting()).pending == w.pending && Next(w, s, site.Setting()).log == w.log
  {
    BeginMoves(w, id, body, header, at, site.Setting());
  }

  /**
   From any world of any run, the run can go on with the request's own steps alone, at whatever
   successive instants, to the ending that the handler, started in that world, gives the request.
   */
  lemma HandlerIsRun(start: World, past: seq<Step>, w: World, id: nat, site: Site,
                     body: Option<Json>, header: string, o: Outside, at: int)
    returns (steps: seq<Step>, t: World)
    requires Run(start, past, site.Setting()) == Some(w)
    requires id !in w.flights && w.now <= at && Ordered(at, o)
    requires Bearer(header).Some? ==> Tokens.NoCollision(site.Setting().tokenKey, w.ops, Bearer(header).value)
    ensures Ends(start, past, id, site, steps, t, Ending(site.ViewOf(ExecAll(w.log), o), site.codec, body, header, o))
    ensures var wake := WakeOf(site.ViewOf(ExecAll(w.log), o), body, header, o);
      t.pending == w.pending + wake.writes && t.log == w.log + wake.commands
  {
    var v, env, s := site.ViewOf(ExecAll(w.log), o), site.Setting(), Step(at, Act.Begin(id, body, header));
    BeginsAlone(w, id, site, body, header, o, at);
    RestOfBegin(v, site.codec, body, header, o);
    OwedOfBegin(v, site.codec, body, header, o);
    RunSnoc(start, past, w, s, env);
    steps, t := RunFollows(start, past + [s], Next(w, s, env), id, site, v, o);
    OneMore(start, past, s, id, site, steps, t, Ending(v, site.codec, body, header, o));
  }

  lemma SentIsForwarded(t: World, env: Gateway.Setting, id: nat, sent: Sent)
    requires env.Separated() && Reachable(t, env)
    requires id in t.flights && t.flights[id].stage.Done? && t.flights[id].stage.sent == Some(sent)
    ensures id in t.forwarded && GatewaySafety.SentOf(t.flights[id]) == Some(sent)
  {
    GatewaySafety.ReachableInv(t, env);
  }

  /**
   The converse of the gateway's safety: a new request that, from a reachable world on, meets every
   condition as it gets to it is forwarded, with that job and decision, in a run that goes on from
   there.
   */
  lemma ConfirmedIsForwarded(now: int, past: seq<Step>, w: World, id: nat, site: Site,
                             body: Option<Json>, header: string, o: Outside, at: int, sent: Sent)
    returns (steps: seq<Step>, t: World)
    requires Reaches(now, past, w, site.Setting()) && id !in w.flights && w.now <= at && Ordered(at, o)
    requires Confirmed(site.ViewOf(ExecAll(w.log), o), body, header, o, sent)
    requires Tokens.NoCollision(site.Setting().tokenKey, w.ops, Bearer(header).value)
    ensures past <= steps && Reaches(now, steps, t, site.Setting())
    ensures id in t.forwarded && id in t.flights && GatewaySafety.SentOf(t.flights[id]) == Some(sent)
  {
    steps, t := HandlerIsRun(Start(now), past, w, id, site, body, header, o, at);
    ForwardedIffConfirmed(site.ViewOf(ExecAll(w.log), o), site.codec, body, header, o, sent);
    assert Reaches(now, steps, t, site.Setting());
    DeployedSeparated(site.db, site.delay, site.users, site.servers, site.hash, site.ttl, site.codec);
    SentIsForwarded(t, site.Setting(), id, sent);
  }
}
