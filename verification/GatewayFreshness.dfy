/** Freshness after an invalidation, for the calls the gateway forwards. */
module GatewayFreshness {
  import opened Wrappers
  import opened Lifecycle
  import opened Gateway
  import opened GatewaySafety
  import PolicyTable
  import PolicyEngine

  /** The decision a request goes on with, once it has one that allowed it. */
  ghost function Allowing(f: Flight): Option<Sent> {
    if f.stage.Allowed? then Some(Sent(f.stage.job, f.stage.decision)) else SentOf(f)
  }

  /** No request asks for the triple with a decision older than since. */
  ghost predicate FreshFlight(f: Flight, triple: PolicyTable.Triple, env: Setting, since: int) {
    Allowing(f).Some? && TripleOf(Allowing(f).value.job) == triple ==>
      exists r :: since <= r &&
        PolicyEngine.AsOf(Allowing(f).value.decision, triple, env.policy, f.trail.answeredAt, r)
  }

  /** The request had no decision yet, if it had begun at all. */
  ghost predicate Undecided(w: World, id: nat) {
    id in w.flights ==> w.flights[id].trail.decision.None?
  }

  ghost predicate FreshInv(w: World, v: World, triple: PolicyTable.Triple, env: Setting, since: int) {
    && since <= v.now && PolicyEngine.FreshSince(Cache(v), triple, env.policy, since)
    && (forall id :: id in v.flights && Undecided(w, id) ==> FreshFlight(v.flights[id], triple, env, since))
  }

  lemma CacheStaysFresh(v: World, s: Step, triple: PolicyTable.Triple, env: Setting, since: int)
    requires Inv(v, env) && Enabled(v, s, env) && since <= v.now
    requires PolicyEngine.FreshSince(Cache(v), triple, env.policy, since)
    ensures PolicyEngine.FreshSince(Cache(Next(v, s, env)), triple, env.policy, since)
    ensures PolicyEngine.FreshAnswer(Cache(v), CacheStep(v, s, env), triple, env.policy, since)
  {
    CacheFollows(v, s, env);
    PolicyEngine.StepKeepsPendingFresh(Cache(v), CacheStep(v, s, env), triple, env.policy, since);
    PolicyEngine.StepKeepsEntryFresh(Cache(v), CacheStep(v, s, env), triple, env.policy, since);
    PolicyEngine.StepAnswersFresh(Cache(v), CacheStep(v, s, env), triple, env.policy, since);
  }

  lemma DecisionIsFresh(v: World, s: Step, triple: PolicyTable.Triple, env: Setting, since: int)
    requires Enabled(v, s, env) && (s.act.Consult? || s.act.Read?)
    requires PolicyEngine.FreshAnswer(Cache(v), CacheStep(v, s, env), triple, env.policy, since)
    ensures FreshFlight(Moved(v, s, env).value.1, triple, env, since)
  {
  }

  lemma MovedIsFresh(v: World, s: Step, triple: PolicyTable.Triple, env: Setting, since: int)
    requires Enabled(v, s, env) && Moved(v, s, env).Some?
    requires PolicyEngine.FreshAnswer(Cache(v), CacheStep(v, s, env), triple, env.policy, since)
    requires s.act.id in v.flights ==> FreshFlight(v.flights[s.act.id], triple, env, since)
    ensures FreshFlight(Moved(v, s, env).value.1, triple, env, since)
  {
    if s.act.Consult? || s.act.Read? {
      DecisionIsFresh(v, s, triple, env, since);
    }
  }

  lemma StepKeepsFresh(w: World, v: World, s: Step, triple: PolicyTable.Triple, env: Setting, since: int)
    requires Inv(v, env) && Enabled(v, s, env) && FreshInv(w, v, triple, env, since)
    ensures FreshInv(w, Next(v, s, env), triple, env, since)
  {
    var t, moved := Next(v, s, env), Moved(v, s, env);
    CacheStaysFresh(v, s, triple, env, since);
    if moved.Some? && Undecided(w, moved.value.0) {
      MovedIsFresh(v, s, triple, env, since);
    }
  }

  lemma {:induction false} RunKeepsFresh(w: World, start: World, steps: seq<Step>, v: World,
                                         triple: PolicyTable.Triple, env: Setting, since: int)
    requires Inv(start, env) && FreshInv(w, start, triple, env, since) && Run(start, steps, env) == Some(v)
    ensures Inv(v, env) && FreshInv(w, v, triple, env, since)
  {
    if steps != [] {
      var n := |steps| - 1;
      var before := Run(start, steps[..n], env).value;
      RunKeepsFresh(w, start, steps[..n], before, triple, env, since);
      StepKeepsInv(before, steps[n], env);
      StepKeepsFresh(w, before, steps[n], triple, env, since);
    }
  }

  lemma InvalidatedIsFresh(w: World, at: int, triple: PolicyTable.Triple, env: Setting, since: int)
    requires Inv(w, env) && since <= w.now <= at && PolicyEngine.PendingSince(Cache(w), triple, since)
    ensures Enabled(w, Step(at, Invalidate(triple)), env)
    ensures FreshInv(w, Next(w, Step(at, Invalidate(triple)), env), triple, env, since)
  {
    var s := Step(at, Invalidate(triple));
    CacheFollows(w, s, env);
    forall id | id in w.flights && Undecided(w, id) ensures FreshFlight(w.flights[id], triple, env, since) {
      assert Warranted(w, env, w.flights[id]);
    }
  }

  /**
   A row changed at since and its key was deleted later, with no cache write pending that was read
   before the change. From then on, in every interleaved run, each call forwarded for the triple by a
   request that had no decision at the deletion is forwarded under the row at since or a later one.
   */
  lemma ForwardsAfterInvalidation(w: World, at: int, steps: seq<Step>, v: World, id: nat,
                                  triple: PolicyTable.Triple, env: Setting, since: int)
    returns (sent: Sent, readAt: int)
    requires env.Separated() && Reachable(w, env)
    requires since <= w.now <= at && PolicyEngine.PendingSince(Cache(w), triple, since)
    requires Enabled(w, Step(at, Invalidate(triple)), env)
    requires Run(Next(w, Step(at, Invalidate(triple)), env), steps, env) == Some(v)
    requires id in v.forwarded && id in v.flights && Undecided(w, id)
    requires SentOf(v.flights[id]).Some? && TripleOf(SentOf(v.flights[id]).value.job) == triple
    ensures SentOf(v.flights[id]) == Some(sent) && since <= readAt
    ensures PolicyEngine.AsOf(sent.decision, triple, env.policy, v.flights[id].trail.answeredAt, readAt)
  {
    ReachableInv(w, env);
    var s := Step(at, Invalidate(triple));
    InvalidatedIsFresh(w, at, triple, env, since);
    StepKeepsInv(w, s, env);
    RunKeepsFresh(w, Next(w, s, env), steps, v, triple, env, since);
    sent := SentOf(v.flights[id]).value;
    assert FreshFlight(v.flights[id], triple, env, since);
    var answeredAt := v.flights[id].trail.answeredAt;
    readAt :| since <= readAt && PolicyEngine.AsOf(sent.decision, triple, env.policy, answeredAt, readAt);
  }
}
