/**
 The policy engine: a read-through cache of policy decisions with default deny. A decision read from
 the database is written to Redis by a separate goroutine, so writes may land late, be lost, overlap
 or land in the wrong order.
 */
module PolicyEngine {
  import opened Wrappers
  import opened Uuids
  import opened Keys
  import opened Redis
  import opened Decisions
  import opened PolicyTable

  const NO_POLICY_TTL := 10 * SECOND

  /** No row means deny. */
  function Answer(found: Option<Found>): (d: Decision)
    ensures found.None? ==> !d.allowed && d.redactFields == [] && d.maxCallsPerMinute == 0
    ensures found.Some? ==>
      var rule := found.value.rule;
      d.allowed == rule.allowed && d.redactFields == rule.redactFields && d.maxCallsPerMinute == rule.maxCallsPerMinute
  {
    match found
    case None => DENY
    case Some(Found(_, Rule(allowed, redactFields, maxCalls))) => Decision(allowed, redactFields, maxCalls)
  }

  function TtlFor(found: Option<Found>): int {
    if found.None? then NO_POLICY_TTL else POLICY_TTL
  }

  function KeyOf(triple: Triple): string {
    PolicyKey(Print(triple.role), Print(triple.server), triple.tool)
  }

  /** A cache write launched but not finished, with the instant of the database read behind it. */
  datatype CacheWrite = CacheWrite(key: string, decision: Decision, ttl: int, triple: Triple, readAt: int)

  function WriteFor(key: string, triple: Triple, found: Option<Found>, readAt: int): (w: CacheWrite)
    ensures w.ttl == if found.None? then 10 * SECOND else 60 * SECOND
  {
    CacheWrite(key, Answer(found), TtlFor(found), triple, readAt)
  }

  /** How one evaluation was answered. */
  datatype Evaluation =
    | Hit(cached: Decision)
    | Fetched(triple: Triple, found: Option<Found>)
    | Failed
  {
    function Decision(): Decision {
      match this
      case Hit(cached) => cached
      case Fetched(_, found) => Answer(found)
      case Failed => DENY
    }
  }

  function Evaluated(s: Store, rows: Table, role: string, server: string, tool: string,
                     getAt: int, link: Link, dbUp: bool): Evaluation
  {
    var found := Peek(s, PolicyKey(role, server, tool), getAt);
    if link.Healthy? && found.Some? && found.value.PolicyJson? then Hit(found.value.decision)
    else
      match (Scan(role), Scan(server))
      case (Some(r), Some(v)) => if dbUp then Fetched(Triple(r, v, tool), Find(rows, Triple(r, v, tool))) else Failed
      case _ => Failed
  }

  class Engine {
    const redis: Server
    const policies: Policies
    var pending: multiset<CacheWrite>

    constructor (redis: Server, policies: Policies)
      ensures this.redis == redis && this.policies == policies && pending == multiset{}
    {
      this.redis := redis;
      this.policies := policies;
      pending := multiset{};
    }

    /** Looks in Redis at getAt and, failing that, in the database at readAt. */
    method Evaluate(role: string, server: string, tool: string, getAt: int, link: Link, readAt: int, dbUp: bool)
      returns (decision: Decision, failed: bool)
      modifies this`pending
      ensures var e := Evaluated(redis.store, policies.rows, role, server, tool, getAt, link, dbUp);
        && decision == e.Decision() && failed == e.Failed?
        && pending == if e.Fetched?
             then old(pending) + multiset{WriteFor(PolicyKey(role, server, tool), e.triple, e.found, readAt)}
             else old(pending)
      ensures failed ==> decision == DENY
    {
      var key := PolicyKey(role, server, tool);
      var reply := redis.Get(key, getAt, link);
      if reply.Ok? && reply.value.Some? && reply.value.value.PolicyJson? {
        return reply.value.value.decision, false;
      }
      var roleId, serverId := Scan(role), Scan(server);
      if roleId.None? || serverId.None? || !dbUp {
        return DENY, true;
      }
      var triple := Triple(roleId.value, serverId.value, tool);
      var found := policies.GetPolicyByRoleServerTool(triple);
      pending := pending + multiset{WriteFor(key, triple, found, readAt)};
      match found
      case None => return DENY, false;
      case Some(row) =>
        return Decision(row.rule.allowed, row.rule.redactFields, row.rule.maxCallsPerMinute), false;
    }

    /** One background write runs to its end; a failure is logged and forgotten. */
    method CacheDecisionTtl(w: CacheWrite, at: int, link: Link)
      requires redis.Valid() && w in pending
      modifies redis, this`pending
      ensures redis.Valid()
      ensures pending == old(pending) - multiset{w}
      ensures redis.log == if link.Refused? then old(redis.log)
        else old(redis.log) + [Set(w.key, PolicyJson(w.decision), w.ttl, at)]
    {
      var ok := redis.SetKey(w.key, PolicyJson(w.decision), w.ttl, at, link);
      pending := pending - multiset{w};
    }

    method InvalidatePolicy(role: string, server: string, tool: string, at: int, link: Link)
      requires redis.Valid()
      modifies redis
      ensures redis.Valid()
      ensures redis.log == if link.Refused? then old(redis.log)
        else old(redis.log) + [Del(PolicyKey(role, server, tool), at)]
    {
      var ok := redis.Delete(PolicyKey(role, server, tool), at, link);
    }
  }

  /** An allowed decision always comes from a cached decision or a row that allows. */
  lemma AllowedNeedsARow(s: Store, rows: Table, role: string, server: string, tool: string,
                         getAt: int, link: Link, dbUp: bool)
    requires Evaluated(s, rows, role, server, tool, getAt, link, dbUp).Decision().allowed
    ensures var e := Evaluated(s, rows, role, server, tool, getAt, link, dbUp);
      || (e.Fetched? && e.found.Some? && e.found.value.rule.allowed)
      || (e.Hit? && Peek(s, PolicyKey(role, server, tool), getAt) == Some(PolicyJson(e.cached)))
  {
  }

  lemma KeyOfInjective(a: Triple, b: Triple)
    requires KeyOf(a) == KeyOf(b)
    ensures a == b
  {
    PolicyKeyInjective(a.role, a.server, a.tool, b.role, b.server, b.tool);
  }

  // ---------------------------------------------------------------- runs

  /** The content of the policies table at every instant. */
  type History = int -> Table

  /**
   What a run does not change: the table's history, the key of each triple, and the longest delay
   from the database read of an evaluation to the end of its cache write.
   */
  datatype Setting = Setting(db: History, key: Triple -> string, delay: nat) {
    function RowAt(triple: Triple, at: int): Option<Found> {
      Find(db(at), triple)
    }

    ghost predicate KeysInjective() {
      forall a, b :: key(a) == key(b) ==> a == b
    }
  }

  /** The setting of the gateway, whose keys are injective. */
  function Gateway(db: History, delay: nat): Setting {
    Setting(db, triple => KeyOf(triple), delay)
  }

  lemma GatewayKeysInjective(db: History, delay: nat)
    ensures Gateway(db, delay).KeysInjective()
  {
    forall a, b | KeyOf(a) == KeyOf(b) ensures a == b {
      KeyOfInjective(a, b);
    }
  }

  datatype State = State(store: Store, pending: multiset<CacheWrite>, now: int)

  /**
   The atomic steps of any number of concurrent evaluations, background writes and invalidations.
   An evaluation is a Lookup, followed by a ReadThrough when that does not hit or Redis fails.
   Other stands for every command on a key outside the policy family, Wait for everything that does
   not concern the cache.
   */
  datatype Step =
    | Lookup(triple: Triple, at: int)
    | ReadThrough(triple: Triple, at: int)
    | Land(write: CacheWrite, at: int)
    | Lose(write: CacheWrite, at: int)
    | Invalidate(triple: Triple, at: int)
    | Other(command: Command, at: int)
    | Wait(at: int)

  ghost predicate Foreign(key: string, env: Setting) {
    forall triple :: env.key(triple) != key
  }

  ghost predicate Enabled(s: State, step: Step, env: Setting) {
    && s.now <= step.at
    && match step
       case Land(w, at) => w in s.pending && at <= w.readAt + env.delay
       case Lose(w, _) => w in s.pending
       case Other(c, _) => Foreign(c.key, env)
       case _ => true
  }

  ghost function Next(s: State, step: Step, env: Setting): State {
    match step
    case Lookup(_, at) => s.(now := at)
    case ReadThrough(triple, at) =>
      s.(pending := s.pending + multiset{WriteFor(env.key(triple), triple, env.RowAt(triple, at), at)}, now := at)
    case Land(w, at) =>
      State(Exec(s.store, Set(w.key, PolicyJson(w.decision), w.ttl, at)), s.pending - multiset{w}, at)
    case Lose(w, at) => s.(pending := s.pending - multiset{w}, now := at)
    case Invalidate(triple, at) => s.(store := Exec(s.store, Del(env.key(triple), at)), now := at)
    case Other(c, at) => s.(store := Exec(s.store, c), now := at)
    case Wait(at) => s.(now := at)
  }

  /** What a step answers for a triple, if it answers. */
  ghost function Answered(s: State, step: Step, env: Setting, triple: Triple): Option<Decision> {
    match step
    case Lookup(asked, at) =>
      var found := Peek(s.store, env.key(triple), at);
      if asked == triple && found.Some? && found.value.PolicyJson? then Some(found.value.decision) else None
    case ReadThrough(asked, at) =>
      if asked == triple then Some(Answer(env.RowAt(triple, at))) else None
    case _ => None
  }

  ghost predicate ValidRun(s: State, steps: seq<Step>, env: Setting)
    decreases |steps|
  {
    steps != [] ==> Enabled(s, steps[0], env) && ValidRun(Next(s, steps[0], env), steps[1..], env)
  }

  ghost function Run(s: State, steps: seq<Step>, env: Setting): State
    decreases |steps|
  {
    if steps == [] then s else Run(Next(s, steps[0], env), steps[1..], env)
  }

  /** A run in which some step answers the triple with the decision. */
  ghost predicate Serves(s: State, steps: seq<Step>, env: Setting, triple: Triple, d: Decision)
    decreases |steps|
  {
    steps != [] &&
    (Answered(s, steps[0], env, triple) == Some(d) || Serves(Next(s, steps[0], env), steps[1..], env, triple, d))
  }

  ghost predicate ServingRun(s: State, steps: seq<Step>, env: Setting, triple: Triple, d: Decision) {
    ValidRun(s, steps, env) && Serves(s, steps, env, triple, d)
  }

  /**
   The engine's Evaluate on printed UUIDs is a Lookup that answers, or a ReadThrough that answers
   and launches the same write, or an error.
   */
  lemma EvaluateIsSteps(s: State, db: History, delay: nat, triple: Triple,
                        getAt: int, link: Link, readAt: int, dbUp: bool)
    ensures var env, key := Gateway(db, delay), KeyOf(triple);
      var e := Evaluated(s.store, db(readAt), Print(triple.role), Print(triple.server), triple.tool, getAt, link, dbUp);
      && (e.Hit? <==> link.Healthy? && Answered(s, Lookup(triple, getAt), env, triple).Some?)
      && (e.Hit? ==> Answered(s, Lookup(triple, getAt), env, triple) == Some(e.Decision()))
      && (e.Fetched? <==> !e.Hit? && dbUp)
      && (e.Fetched? ==>
            && Answered(s, ReadThrough(triple, readAt), env, triple) == Some(e.Decision())
            && Next(s, ReadThrough(triple, readAt), env).pending ==
                 s.pending + multiset{WriteFor(key, e.triple, e.found, readAt)})
      && (e.Failed? ==> e.Decision() == DENY)
  {
    ScanPrint(triple.role);
    ScanPrint(triple.server);
  }

  // ---------------------------------------------------------------- bounded staleness

  /** The entry holds what the table said at readAt and expires within its lifetime and the delay. */
  ghost predicate FromRead(e: Entry, triple: Triple, env: Setting, readAt: int) {
    var found := env.RowAt(triple, readAt);
    e.value == PolicyJson(Answer(found)) && e.expires <= readAt + env.delay + TtlFor(found)
  }

  ghost predicate WriteOk(w: CacheWrite, env: Setting, now: int) {
    && w == WriteFor(env.key(w.triple), w.triple, env.RowAt(w.triple, w.readAt), w.readAt)
    && w.readAt <= now
  }

  ghost predicate EntryOk(s: Store, triple: Triple, env: Setting, now: int) {
    env.key(triple) in s ==> exists r :: r <= now && FromRead(s[env.key(triple)], triple, env, r)
  }

  ghost predicate Inv(s: State, env: Setting) {
    && env.KeysInjective()
    && (forall w :: w in s.pending ==> WriteOk(w, env, s.now))
    && (forall triple :: EntryOk(s.store, triple, env, s.now))
  }

  lemma SetKeepsEntry(s: Store, w: CacheWrite, at: int, triple: Triple, env: Setting, now: int)
    requires env.KeysInjective() && EntryOk(s, triple, env, now) && WriteOk(w, env, now)
    requires now <= at <= w.readAt + env.delay
    ensures EntryOk(Exec(s, Set(w.key, PolicyJson(w.decision), w.ttl, at)), triple, env, at)
  {
    if env.key(triple) == w.key {
      assert triple == w.triple;
      var after := Exec(s, Set(w.key, PolicyJson(w.decision), w.ttl, at));
      assert FromRead(after[w.key], triple, env, w.readAt);
    }
  }

  lemma OtherKeepsEntry(s: Store, c: Command, triple: Triple, env: Setting, now: int, at: int)
    requires EntryOk(s, triple, env, now) && now <= at
    requires c.key != env.key(triple) || c.Del?
    ensures EntryOk(Exec(s, c), triple, env, at)
  {
  }

  lemma StepKeepsInv(s: State, step: Step, env: Setting)
    requires Inv(s, env) && Enabled(s, step, env)
    ensures Inv(Next(s, step, env), env)
  {
    var t := Next(s, step, env);
    forall triple ensures EntryOk(t.store, triple, env, t.now) {
      assert EntryOk(s.store, triple, env, s.now);
      match step {
        case Land(w, at) => SetKeepsEntry(s.store, w, at, triple, env, s.now);
        case Invalidate(asked, at) => OtherKeepsEntry(s.store, Del(env.key(asked), at), triple, env, s.now, at);
        case Other(c, at) => OtherKeepsEntry(s.store, c, triple, env, s.now, at);
        case _ =>
      }
    }
  }

  /** The decision is the one the table gave at some instant in the bounded past of at. */
  ghost predicate AsOf(d: Decision, triple: Triple, env: Setting, at: int, readAt: int) {
    var found := env.RowAt(triple, readAt);
    d == Answer(found) && readAt <= at <= readAt + env.delay + TtlFor(found)
  }

  lemma StepAnswersAsOf(s: State, step: Step, env: Setting, triple: Triple) returns (readAt: int)
    requires Inv(s, env) && Enabled(s, step, env) && Answered(s, step, env, triple).Some?
    ensures AsOf(Answered(s, step, env, triple).value, triple, env, step.at, readAt)
  {
    assert EntryOk(s.store, triple, env, s.now);
    if step.Lookup? {
      readAt :| readAt <= s.now && FromRead(s.store[env.key(triple)], triple, env, readAt);
    } else {
      readAt := step.at;
    }
  }

  ghost predicate BoundedStaleness(s: State, steps: seq<Step>, env: Setting)
    decreases |steps|
  {
    steps != [] ==>
      && (forall triple :: Answered(s, steps[0], env, triple).Some? ==>
            exists r :: AsOf(Answered(s, steps[0], env, triple).value, triple, env, steps[0].at, r))
      && BoundedStaleness(Next(s, steps[0], env), steps[1..], env)
  }

  /**
   In every run, every decision returned without error at an instant is the one the table gave at
   some instant at most 60 seconds and the write delay earlier, 10 seconds and the delay for the
   denial of a triple without policy.
   */
  lemma {:induction false} StalenessBounded(s: State, steps: seq<Step>, env: Setting)
    requires Inv(s, env) && ValidRun(s, steps, env)
    ensures BoundedStaleness(s, steps, env)
    ensures Inv(Run(s, steps, env), env)
    decreases |steps|
  {
    if steps != [] {
      forall triple | Answered(s, steps[0], env, triple).Some?
        ensures exists r :: AsOf(Answered(s, steps[0], env, triple).value, triple, env, steps[0].at, r)
      {
        var r := StepAnswersAsOf(s, steps[0], env, triple);
      }
      StepKeepsInv(s, steps[0], env);
      StalenessBounded(Next(s, steps[0], env), steps[1..], env);
    }
  }

  lemma StartsConsistent(now: int, env: Setting)
    requires env.KeysInjective()
    ensures Inv(State(map[], multiset{}, now), env)
  {
  }

  /** A row left alone for a minute and the delay is what every evaluation returns. */
  lemma SettledRowIsReturned(s: State, step: Step, env: Setting, triple: Triple)
    requires Inv(s, env) && Enabled(s, step, env) && Answered(s, step, env, triple).Some?
    requires forall r :: step.at - POLICY_TTL - env.delay <= r <= step.at ==>
      env.RowAt(triple, r) == env.RowAt(triple, step.at)
    ensures Answered(s, step, env, triple) == Some(Answer(env.RowAt(triple, step.at)))
  {
    var r := StepAnswersAsOf(s, step, env, triple);
    assert env.RowAt(triple, r) == env.RowAt(triple, step.at);
  }

  /** What the rule of a row decides. */
  ghost predicate DecidedBy(d: Decision, rule: Rule) {
    && d.allowed == rule.allowed && d.redactFields == rule.redactFields
    && d.maxCallsPerMinute == rule.maxCallsPerMinute
  }

  /**
   A triple that had a row for ten seconds and the delay is not denied for the lack of one: over every
   run, an answer is the decision of a row present at most 60 seconds and the delay before.
   */
  lemma PresentRowAnswers(now: int, steps: seq<Step>, step: Step, env: Setting, triple: Triple)
    returns (readAt: int)
    requires var start := State(map[], multiset{}, now);
      && env.KeysInjective() && ValidRun(start, steps, env) && Enabled(Run(start, steps, env), step, env)
      && Answered(Run(start, steps, env), step, env, triple).Some?
    requires forall r :: step.at - 10 * SECOND - env.delay <= r <= step.at ==> env.RowAt(triple, r).Some?
    ensures step.at - 60 * SECOND - env.delay <= readAt <= step.at && env.RowAt(triple, readAt).Some?
    ensures DecidedBy(Answered(Run(State(map[], multiset{}, now), steps, env), step, env, triple).value,
                      env.RowAt(triple, readAt).value.rule)
  {
    var start := State(map[], multiset{}, now);
    StartsConsistent(now, env);
    StalenessBounded(start, steps, env);
    readAt := StepAnswersAsOf(Run(start, steps, env), step, env, triple);
    assert readAt >= step.at - 10 * SECOND - env.delay ==> env.RowAt(triple, readAt).Some?;
  }

  /** The step leaves what the cache holds for the triple alone. */
  ghost predicate Spares(step: Step, triple: Triple, env: Setting) {
    match step
    case Land(w, _) => w.key != env.key(triple)
    case Invalidate(asked, _) => asked != triple
    case Other(c, _) => c.key != env.key(triple)
    case _ => true
  }

  lemma {:induction false} SparedEntryStays(s: State, steps: seq<Step>, env: Setting, triple: Triple)
    requires env.KeysInjective() && ValidRun(s, steps, env) && env.key(triple) in s.store
    requires forall step :: step in steps ==> Spares(step, triple, env)
    ensures var t := Run(s, steps, env);
      env.key(triple) in t.store && t.store[env.key(triple)] == s.store[env.key(triple)]
    decreases |steps|
  {
    if steps != [] {
      assert Spares(steps[0], triple, env);
      SparedEntryStays(Next(s, steps[0], env), steps[1..], env, triple);
    }
  }

  /**
   A write that landed answers every lookup until its lifetime ends, and none after, unless it is
   overwritten or invalidated: 60 seconds for a row, ten for the lack of one.
   */
  lemma LandedWriteServes(s: State, w: CacheWrite, at: int, steps: seq<Step>, env: Setting, later: int)
    requires Inv(s, env) && Enabled(s, Land(w, at), env)
    requires ValidRun(Next(s, Land(w, at), env), steps, env)
    requires forall step :: step in steps ==> Spares(step, w.triple, env)
    ensures var found := env.RowAt(w.triple, w.readAt);
      var t := Run(Next(s, Land(w, at), env), steps, env);
      && Answered(t, Lookup(w.triple, later), env, w.triple) ==
           (if later <= at + (if found.Some? then 60 * SECOND else 10 * SECOND) then Some(w.decision) else None)
      && (found.Some? ==> DecidedBy(w.decision, found.value.rule))
      && (found.None? ==> !w.decision.allowed)
  {
    assert WriteOk(w, env, s.now);
    SparedEntryStays(Next(s, Land(w, at), env), steps, env, w.triple);
  }

  // ---------------------------------------------------------------- invalidation

  /** A cached decision still live, or a write of it that can still land. */
  ghost predicate Held(s: State, triple: Triple, d: Decision, env: Setting) {
    || Peek(s.store, env.key(triple), s.now) == Some(PolicyJson(d))
    || exists w :: Landing(s, w, triple, d, env)
  }

  lemma LateWriteServes(s: State, w: CacheWrite, env: Setting)
    requires Inv(s, env) && w in s.pending && s.now <= w.readAt + env.delay
    ensures var steps := [Land(w, s.now)] + [Lookup(w.triple, s.now)];
      ValidRun(s, steps, env) && Serves(s, steps, env, w.triple, w.decision)
  {
    var first, rest := Land(w, s.now), [Lookup(w.triple, s.now)];
    assert WriteOk(w, env, s.now);
    CachedServes(Next(s, first, env), env, w.triple, w.decision);
    var steps := [first] + rest;
    assert steps[0] == first && steps[1..] == rest;
  }

  lemma CachedServes(s: State, env: Setting, triple: Triple, d: Decision)
    requires Peek(s.store, env.key(triple), s.now) == Some(PolicyJson(d))
    ensures ValidRun(s, [Lookup(triple, s.now)], env) && Serves(s, [Lookup(triple, s.now)], env, triple, d)
  {
    var steps := [Lookup(triple, s.now)];
    assert Answered(s, steps[0], env, triple) == Some(d);
    assert steps[1..] == [];
  }

  lemma HeldServes(s: State, env: Setting, triple: Triple, d: Decision) returns (steps: seq<Step>)
    requires Inv(s, env) && Held(s, triple, d, env)
    ensures ServingRun(s, steps, env, triple, d)
  {
    if Peek(s.store, env.key(triple), s.now) == Some(PolicyJson(d)) {
      CachedServes(s, env, triple, d);
      steps := [Lookup(triple, s.now)];
    } else {
      var w :| Landing(s, w, triple, d, env);
      LateWriteServes(s, w, env);
      steps := [Land(w, s.now)] + [Lookup(w.triple, s.now)];
    }
  }

  /** A write of d for the triple that can still land. */
  ghost predicate Landing(s: State, w: CacheWrite, triple: Triple, d: Decision, env: Setting) {
    w in s.pending && w.triple == triple && w.decision == d && s.now <= w.readAt + env.delay
  }

  lemma StepLandsNothingOld(s: State, step: Step, env: Setting, triple: Triple, d: Decision, w: CacheWrite)
    requires Enabled(s, step, env) && Answer(env.RowAt(triple, step.at)) != d
    requires Landing(Next(s, step, env), w, triple, d, env)
    ensures Landing(s, w, triple, d, env)
  {
  }

  lemma StepCachesNothingOld(s: State, step: Step, env: Setting, triple: Triple, d: Decision)
    requires Inv(s, env) && Enabled(s, step, env)
    requires !Held(s, triple, d, env)
    ensures Peek(Next(s, step, env).store, env.key(triple), step.at) != Some(PolicyJson(d))
  {
    match step {
      case Land(w, at) =>
        assert WriteOk(w, env, s.now);
        if env.key(triple) == w.key {
          assert triple == w.triple;
          assert !Landing(s, w, triple, d, env);
        }
      case Other(c, _) => assert c.key != env.key(triple);
      case _ =>
    }
  }

  /** What the table no longer says is not picked up again once neither cache nor writes hold it. */
  lemma StepKeepsUnheld(s: State, step: Step, env: Setting, triple: Triple, d: Decision)
    requires Inv(s, env) && Enabled(s, step, env) && !Held(s, triple, d, env)
    requires forall r :: r >= s.now ==> Answer(env.RowAt(triple, r)) != d
    ensures !Held(Next(s, step, env), triple, d, env)
    ensures Answered(s, step, env, triple) != Some(d)
  {
    StepCachesNothingOld(s, step, env, triple, d);
    assert Answer(env.RowAt(triple, step.at)) != d;
    if w :| Landing(Next(s, step, env), w, triple, d, env) {
      StepLandsNothingOld(s, step, env, triple, d, w);
    }
  }

  lemma {:induction false} UnheldIsNotServed(s: State, steps: seq<Step>, env: Setting, triple: Triple, d: Decision)
    requires Inv(s, env) && ValidRun(s, steps, env) && !Held(s, triple, d, env)
    requires forall r :: r >= s.now ==> Answer(env.RowAt(triple, r)) != d
    ensures !Serves(s, steps, env, triple, d)
    decreases |steps|
  {
    if steps != [] {
      StepKeepsInv(s, steps[0], env);
      StepKeepsUnheld(s, steps[0], env, triple, d);
      UnheldIsNotServed(Next(s, steps[0], env), steps[1..], env, triple, d);
    }
  }

  /**
   From now on the table never gives decision d for the triple. Some continuation still serves d
   exactly when the cache holds it live or a write of it can still land.
   */
  lemma OldDecisionServable(s: State, env: Setting, triple: Triple, d: Decision)
    requires Inv(s, env)
    requires forall r :: r >= s.now ==> Answer(env.RowAt(triple, r)) != d
    ensures (exists steps :: ServingRun(s, steps, env, triple, d)) <==> Held(s, triple, d, env)
  {
    if Held(s, triple, d, env) {
      var steps := HeldServes(s, env, triple, d);
    } else {
      forall steps | ValidRun(s, steps, env) ensures !ServingRun(s, steps, env, triple, d) {
        UnheldIsNotServed(s, steps, env, triple, d);
      }
    }
  }

  /**
   After an invalidation the old decision can come back exactly through a write that was pending:
   with none from before the change, every later answer is of the new row or a later one.
   */
  lemma InvalidationIsFresh(s: State, at: int, env: Setting, triple: Triple, d: Decision)
    requires Inv(s, env) && s.now <= at
    requires forall r :: r >= at ==> Answer(env.RowAt(triple, r)) != d
    ensures var t := Next(s, Invalidate(triple, at), env);
      (exists steps :: ServingRun(t, steps, env, triple, d)) <==> exists w :: Landing(s.(now := at), w, triple, d, env)
  {
    var t := Next(s, Invalidate(triple, at), env);
    StepKeepsInv(s, Invalidate(triple, at), env);
    OldDecisionServable(t, env, triple, d);
    if w :| Landing(s.(now := at), w, triple, d, env) {
      assert Landing(t, w, triple, d, env);
    }
    if w :| Landing(t, w, triple, d, env) {
      assert Landing(s.(now := at), w, triple, d, env);
    }
  }

  // ---------------------------------------------------------------- freshness by instant of reading

  ghost predicate PendingSince(s: State, triple: Triple, since: int) {
    forall w :: w in s.pending && w.triple == triple ==> since <= w.readAt
  }

  ghost predicate EntrySince(s: State, triple: Triple, env: Setting, since: int) {
    env.key(triple) in s.store ==>
      exists r :: since <= r <= s.now && FromRead(s.store[env.key(triple)], triple, env, r)
  }

  /** Cache and writes hold nothing for the triple read before since. */
  ghost predicate FreshSince(s: State, triple: Triple, env: Setting, since: int) {
    PendingSince(s, triple, since) && EntrySince(s, triple, env, since)
  }

  ghost predicate FreshAnswer(s: State, step: Step, triple: Triple, env: Setting, since: int) {
    Answered(s, step, env, triple).Some? ==>
      exists r :: since <= r && AsOf(Answered(s, step, env, triple).value, triple, env, step.at, r)
  }

  ghost predicate FreshAnswers(s: State, steps: seq<Step>, triple: Triple, env: Setting, since: int)
    decreases |steps|
  {
    steps != [] ==>
      && FreshAnswer(s, steps[0], triple, env, since)
      && FreshAnswers(Next(s, steps[0], env), steps[1..], triple, env, since)
  }

  /** After a write that changes the triple's entry, the entry comes from the read behind the write. */
  lemma LandLeaves(s: State, w: CacheWrite, at: int, triple: Triple, env: Setting)
    requires Inv(s, env) && Enabled(s, Land(w, at), env) && env.key(triple) == w.key
    ensures w.triple == triple
    ensures FromRead(Next(s, Land(w, at), env).store[env.key(triple)], triple, env, w.readAt)
  {
    assert WriteOk(w, env, s.now);
  }

  lemma StepKeepsPendingFresh(s: State, step: Step, triple: Triple, env: Setting, since: int)
    requires Enabled(s, step, env) && since <= s.now && PendingSince(s, triple, since)
    ensures PendingSince(Next(s, step, env), triple, since)
  {
  }

  lemma StepKeepsEntryFresh(s: State, step: Step, triple: Triple, env: Setting, since: int)
    requires Inv(s, env) && Enabled(s, step, env) && since <= s.now && FreshSince(s, triple, env, since)
    ensures EntrySince(Next(s, step, env), triple, env, since)
  {
    var key, t := env.key(triple), Next(s, step, env);
    if step.Land? && key == step.write.key {
      LandLeaves(s, step.write, step.at, triple, env);
    } else if key in t.store {
      assert step.Other? ==> step.command.key != key;
      assert t.store[key] == s.store[key];
    }
  }

  lemma StepAnswersFresh(s: State, step: Step, triple: Triple, env: Setting, since: int)
    requires Enabled(s, step, env) && since <= s.now && FreshSince(s, triple, env, since)
    ensures FreshAnswer(s, step, triple, env, since)
  {
    var answer := Answered(s, step, env, triple);
    if answer.Some? && step.Lookup? {
      var r :| since <= r <= s.now && FromRead(s.store[env.key(triple)], triple, env, r);
      assert AsOf(answer.value, triple, env, step.at, r);
    } else if answer.Some? {
      assert AsOf(answer.value, triple, env, step.at, step.at);
    }
  }

  lemma {:induction false} FreshStays(s: State, steps: seq<Step>, triple: Triple, env: Setting, since: int)
    requires Inv(s, env) && ValidRun(s, steps, env) && since <= s.now && FreshSince(s, triple, env, since)
    ensures FreshAnswers(s, steps, triple, env, since)
    decreases |steps|
  {
    if steps != [] {
      StepKeepsInv(s, steps[0], env);
      StepKeepsPendingFresh(s, steps[0], triple, env, since);
      StepKeepsEntryFresh(s, steps[0], triple, env, since);
      StepAnswersFresh(s, steps[0], triple, env, since);
      FreshStays(Next(s, steps[0], env), steps[1..], triple, env, since);
    }
  }

  /**
   A row changed at since and its key was deleted later, with no write pending that was read before
   the change. Then every later answer for the triple is the row at since or at a later instant.
   */
  lemma AnswersAfterInvalidation(s: State, at: int, steps: seq<Step>, triple: Triple, env: Setting, since: int)
    requires Inv(s, env) && since <= s.now <= at
    requires PendingSince(s, triple, since)
    requires ValidRun(Next(s, Invalidate(triple, at), env), steps, env)
    ensures FreshAnswers(Next(s, Invalidate(triple, at), env), steps, triple, env, since)
  {
    StepKeepsInv(s, Invalidate(triple, at), env);
    FreshStays(Next(s, Invalidate(triple, at), env), steps, triple, env, since);
  }
}
