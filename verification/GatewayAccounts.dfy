/**
 The books of the gateway: what was forwarded, what the limiter was charged for and what was
 reported to the audit log agree, whatever the interleaving.
 */
module GatewayAccounts {
  import opened Wrappers
  import opened Decisions
  import opened Events
  import opened Lifecycle
  import opened Gateway
  import opened GatewaySafety
  import RateLimit

  ghost predicate DeniedBy(t: Trail) {
    t.decision.Some? && !t.decision.value.allowed
  }

  ghost predicate Says(event: Option<Submission>, outcome: string) {
    event.Some? && event.value.outcome == outcome
  }

  /** The decision and verdict on the trail fit the stage and, at the end, the event published. */
  ghost predicate Booked(f: Flight) {
    var t := f.trail;
    match f.stage
    case Received(_, _) => t.decision.None? && t.verdict.Unasked?
    case Authenticated(_, _) => t.decision.None? && t.verdict.Unasked?
    case Identified(_, _, _) => t.decision.None? && t.verdict.Unasked?
    case Targeted(_) => t.decision.None? && t.verdict.Unasked?
    case Allowed(_, d) => t.decision == Some(d) && d.allowed && t.verdict.Unasked?
    case Admitted(_, d) => t.decision == Some(d) && d.allowed && t.verdict.Granted?
    case Done(_, event, sent) =>
      && (sent.Some? <==> t.verdict.Granted?)
      && (Says(event, OUTCOME_DENIED) <==> DeniedBy(t))
      && (Says(event, OUTCOME_RATE_LIMITED) <==> t.verdict.Exceeded?)
      && ((Says(event, OUTCOME_ALLOWED) || Says(event, OUTCOME_ERROR)) <==> t.verdict.Granted?)
      && (DeniedBy(t) || t.decision.None? <==> t.verdict.Unasked?)
      && (event.None? <==> t.decision.None? || t.verdict.Unavailable?)
  }

  /** A recorded call was admitted if the answer said so, refused if it said so, and never unasked. */
  ghost predicate TrueVerdict(w: World, t: Trail) {
    && (t.verdict.Granted? ==> t.slot.Some?)
    && (t.slot.Some? ==>
          var calls, i := CallsOn(w.calls, t.slot.value.key), t.slot.value.index;
          && !t.verdict.Unasked? && i < |calls|
          && (t.verdict.Granted? ==> RateLimit.Admitted(calls, i))
          && (t.verdict.Exceeded? ==> !RateLimit.Admitted(calls, i)))
  }

  ghost predicate BooksInv(w: World) {
    && (forall id :: id in w.flights ==> Booked(w.flights[id]) && TrueVerdict(w, w.flights[id].trail))
    && (forall i, j :: 0 <= i < j < |w.submitted| ==> w.submitted[i].id != w.submitted[j].id)
    && (forall r :: r in w.submitted <==> r.id in w.flights && EventOf(w.flights[r.id]) == Some(r.submission))
  }

  lemma DecidedBooked(f: Flight, d: Option<Decision>, at: int, env: Setting)
    requires f.stage.Targeted? && Booked(f)
    ensures Booked(Decided(f, d, at, env.codec))
  {
  }

  lemma JudgedBooked(w: World, f: Flight, a: Arrival, env: Setting)
    requires f.stage.Allowed? && Booked(f)
    ensures Booked(Judged(w, f, a, env))
  {
  }

  lemma MoveBooked(w: World, s: Step, env: Setting)
    requires BooksInv(w) && Enabled(w, s, env) && Moved(w, s, env).Some?
    ensures Booked(Moved(w, s, env).value.1)
  {
    match s.act {
      case Consult(id, _) => DecidedBooked(w.flights[id], DecisionFor(w, s, env), s.at, env);
      case Read(id, _) => DecidedBooked(w.flights[id], DecisionFor(w, s, env), s.at, env);
      case Admit(id, stamp, link) => JudgedBooked(w, w.flights[id], Arrival(stamp, s.at, link), env);
      case _ =>
    }
  }

  lemma VerdictStays(w: World, v: World, t: Trail)
    requires Grows(w, v) && TrueVerdict(w, t)
    ensures TrueVerdict(v, t)
  {
    if t.slot.Some? {
      var before, after := CallsOn(w.calls, t.slot.value.key), CallsOn(v.calls, t.slot.value.key);
      assert after[..t.slot.value.index + 1] == before[..t.slot.value.index + 1];
    }
  }

  lemma AdmitVerdict(w: World, s: Step, env: Setting)
    requires Inv(w, env) && BooksInv(w) && Enabled(w, s, env) && s.act.Admit?
    ensures TrueVerdict(Next(w, s, env), Moved(w, s, env).value.1.trail)
  {
    var Flight(Allowed(job, d), t) := w.flights[s.act.id];
    var a := Arrival(s.act.stamp, s.at, s.act.link);
    var key := env.windowKey(job.user, job.server);
    assert WindowAgrees(w, env, job.user, job.server);
    assert SlotOf(w, s.act.id).None? by {
      assert Early(w.flights[s.act.id]);
    }
    if Records(d, a) {
      QuotaIsAdmission(w.log, key, CallsOn(w.calls, key), d, a);
      CallsAfter(w, s, env, key);
    }
  }

  lemma MoveVerdict(w: World, s: Step, env: Setting)
    requires Inv(w, env) && BooksInv(w) && Enabled(w, s, env) && Moved(w, s, env).Some?
    ensures TrueVerdict(Next(w, s, env), Moved(w, s, env).value.1.trail)
  {
    if s.act.Admit? {
      AdmitVerdict(w, s, env);
    } else if !s.act.Begin? {
      StepGrows(w, s, env);
      VerdictStays(w, Next(w, s, env), w.flights[s.act.id].trail);
    }
  }

  lemma StepKeepsReports(w: World, s: Step, env: Setting)
    requires BooksInv(w) && Enabled(w, s, env)
    ensures var v := Next(w, s, env);
      && (forall i, j :: 0 <= i < j < |v.submitted| ==> v.submitted[i].id != v.submitted[j].id)
      && (forall r :: r in v.submitted <==> r.id in v.flights && EventOf(v.flights[r.id]) == Some(r.submission))
  {
    var v, moved := Next(w, s, env), Moved(w, s, env);
    if moved.Some? {
      assert moved.value.0 in w.flights ==> EventOf(w.flights[moved.value.0]).None?;
    }
  }

  lemma StepKeepsBooks(w: World, s: Step, env: Setting)
    requires Inv(w, env) && BooksInv(w) && Enabled(w, s, env)
    ensures BooksInv(Next(w, s, env))
  {
    var v, moved := Next(w, s, env), Moved(w, s, env);
    StepGrows(w, s, env);
    StepKeepsReports(w, s, env);
    if moved.Some? {
      MoveBooked(w, s, env);
      MoveVerdict(w, s, env);
    }
    forall id | id in v.flights ensures Booked(v.flights[id]) && TrueVerdict(v, v.flights[id].trail) {
      if !(moved.Some? && id == moved.value.0) {
        VerdictStays(w, v, w.flights[id].trail);
      }
    }
  }

  lemma {:induction false} RunKeepsBooks(start: World, steps: seq<Step>, w: World, env: Setting)
    requires Inv(start, env) && BooksInv(start) && Run(start, steps, env) == Some(w)
    ensures Inv(w, env) && BooksInv(w)
  {
    if steps != [] {
      var n := |steps| - 1;
      var before := Run(start, steps[..n], env).value;
      RunKeepsBooks(start, steps[..n], before, env);
      StepKeepsInv(before, steps[n], env);
      StepKeepsBooks(before, steps[n], env);
    }
  }

  lemma ReachableBooks(w: World, env: Setting)
    requires env.Separated() && Reachable(w, env)
    ensures Inv(w, env) && BooksInv(w)
  {
    var now, steps :| Reaches(now, steps, w, env);
    StartsInvariant(now, env);
    RunKeepsBooks(Start(now), steps, w, env);
  }

  // ---------------------------------------------------------------- counting

  function Tally(reports: seq<Report>, outcome: string): nat {
    if reports == [] then 0
    else
      var last := reports[|reports| - 1];
      Tally(reports[..|reports| - 1], outcome) + if last.submission.outcome == outcome then 1 else 0
  }

  /** The ids of the reports with an outcome. */
  function Ids(reports: seq<Report>, outcome: string): set<nat> {
    set r | r in reports && r.submission.outcome == outcome :: r.id
  }

  /** When no id reports twice, as many reports as ids. */
  lemma {:induction false} TallyCounts(reports: seq<Report>, outcome: string)
    requires forall i, j :: 0 <= i < j < |reports| ==> reports[i].id != reports[j].id
    ensures Tally(reports, outcome) == |Ids(reports, outcome)|
  {
    if reports != [] {
      var front, last := reports[..|reports| - 1], reports[|reports| - 1];
      TallyCounts(front, outcome);
      assert last.id !in Ids(front, outcome);
      assert Ids(reports, outcome) ==
        Ids(front, outcome) + (if last.submission.outcome == outcome then {last.id} else {});
    }
  }

  /** Requests the policy denied. */
  ghost function Denials(w: World): set<nat> {
    set id | id in w.flights && DeniedBy(w.flights[id].trail)
  }

  /** Requests whose quota was exceeded. */
  ghost function Refusals(w: World): set<nat> {
    set id | id in w.flights && w.flights[id].trail.verdict.Exceeded?
  }

  /** Forwarded requests that have been answered. */
  ghost function Answered(w: World): set<nat> {
    set id | id in w.forwarded && id in w.flights && w.flights[id].stage.Done?
  }

  /** Every request has been answered. */
  ghost predicate Settled(w: World) {
    forall id :: id in w.flights ==> w.flights[id].stage.Done?
  }

  lemma DenialsReported(w: World, env: Setting)
    requires Inv(w, env) && BooksInv(w)
    ensures Ids(w.submitted, OUTCOME_DENIED) == Denials(w)
    ensures Ids(w.submitted, OUTCOME_RATE_LIMITED) == Refusals(w)
  {
    forall id ensures id in Ids(w.submitted, OUTCOME_DENIED) <==> id in Denials(w) {
      ReportOf(w, id, OUTCOME_DENIED);
    }
    forall id ensures id in Ids(w.submitted, OUTCOME_RATE_LIMITED) <==> id in Refusals(w) {
      ReportOf(w, id, OUTCOME_RATE_LIMITED);
    }
  }

  /** A request is among the reports of an outcome when its event has that outcome. */
  lemma ReportOf(w: World, id: nat, outcome: string)
    requires BooksInv(w)
    ensures id in Ids(w.submitted, outcome) <==> id in w.flights && Says(EventOf(w.flights[id]), outcome)
  {
    if id in w.flights && Says(EventOf(w.flights[id]), outcome) {
      assert Report(id, EventOf(w.flights[id]).value) in w.submitted;
    }
  }

  lemma ForwardsReported(w: World, env: Setting)
    requires Inv(w, env) && BooksInv(w)
    ensures Ids(w.submitted, OUTCOME_ALLOWED) + Ids(w.submitted, OUTCOME_ERROR) == Answered(w)
    ensures Ids(w.submitted, OUTCOME_ALLOWED) !! Ids(w.submitted, OUTCOME_ERROR)
  {
    forall id
      ensures id in Ids(w.submitted, OUTCOME_ALLOWED) || id in Ids(w.submitted, OUTCOME_ERROR) <==> id in Answered(w)
      ensures !(id in Ids(w.submitted, OUTCOME_ALLOWED) && id in Ids(w.submitted, OUTCOME_ERROR))
    {
      ReportOf(w, id, OUTCOME_ALLOWED);
      ReportOf(w, id, OUTCOME_ERROR);
    }
  }

  /**
   At every moment of every run the denied events are as many as the requests the policy denied, the
   rate-limited events as many as the quota refusals, and the allowed and error events together as
   many as the forwards answered; once every request is answered, that is every forward.
   */
  lemma EventsCountAnswers(w: World, env: Setting)
    requires env.Separated() && Reachable(w, env)
    ensures Tally(w.submitted, OUTCOME_DENIED) == |Denials(w)|
    ensures Tally(w.submitted, OUTCOME_RATE_LIMITED) == |Refusals(w)|
    ensures Tally(w.submitted, OUTCOME_ALLOWED) + Tally(w.submitted, OUTCOME_ERROR) == |Answered(w)|
    ensures Settled(w) ==> Answered(w) == w.forwarded
  {
    ReachableBooks(w, env);
    TallyCounts(w.submitted, OUTCOME_DENIED);
    TallyCounts(w.submitted, OUTCOME_RATE_LIMITED);
    TallyCounts(w.submitted, OUTCOME_ALLOWED);
    TallyCounts(w.submitted, OUTCOME_ERROR);
    DenialsReported(w, env);
    ForwardsReported(w, env);
  }

  /**
   In every run an answered request is missing from the audit log exactly when its policy was not
   consulted or the limiter failed it: every other decision is submitted, once.
   */
  lemma UnreportedExactly(w: World, env: Setting, id: nat)
    requires env.Separated() && Reachable(w, env) && id in w.flights && w.flights[id].stage.Done?
    ensures (forall r :: r in w.submitted ==> r.id != id) <==>
      w.flights[id].trail.decision.None? || w.flights[id].trail.verdict.Unavailable?
  {
    ReachableBooks(w, env);
    var event := EventOf(w.flights[id]);
    if event.Some? {
      assert Report(id, event.value) in w.submitted;
    }
  }

  /** The limiter fails a request exactly when the limit is positive and Redis or its reply is lost. */
  lemma UnavailableByLink(w: World, s: Step, env: Setting)
    requires Inv(w, env) && Enabled(w, s, env) && s.act.Admit?
    ensures Moved(w, s, env).value.1.trail.verdict.Unavailable? <==>
      0 < w.flights[s.act.id].stage.decision.maxCallsPerMinute && !s.act.link.Healthy?
  {
    var Flight(Allowed(job, d), _) := w.flights[s.act.id];
    var a := Arrival(s.act.stamp, s.at, s.act.link);
    var key := env.windowKey(job.user, job.server);
    assert WindowAgrees(w, env, job.user, job.server);
    if Records(d, a) {
      QuotaIsAdmission(w.log, key, CallsOn(w.calls, key), d, a);
    }
  }

  /** A request whose reply from the limiter is lost is charged all the same, and neither forwarded nor reported. */
  lemma LostReplyCharges(w: World, s: Step, env: Setting)
    requires Inv(w, env) && Enabled(w, s, env) && s.act.Admit? && s.act.link.ReplyLost?
    requires 0 < w.flights[s.act.id].stage.decision.maxCallsPerMinute
    ensures var Allowed(job, d) := w.flights[s.act.id].stage;
      var key := env.windowKey(job.user, job.server);
      CallsOn(Next(w, s, env).calls, key) ==
        CallsOn(w.calls, key) + [RateLimit.Call(s.act.stamp, s.at, d.maxCallsPerMinute)]
    ensures Dismissed(Moved(w, s, env).value.1.stage)
  {
    UnavailableByLink(w, s, env);
  }

  /** The limiter failed the request, so its recorded call, if any, was answered to nobody. */
  ghost predicate Unanswered(w: World, id: nat) {
    id in w.flights && w.flights[id].trail.verdict.Unavailable?
  }

  /**
   Every call the limiter recorded belongs to exactly one request, which the policy had not denied;
   once every request is answered, a recorded call whose answer arrived was admitted exactly when
   its request was forwarded.
   */
  lemma AdmissionsAreForwards(w: World, env: Setting, key: string, i: nat) returns (id: nat)
    requires env.Separated() && Reachable(w, env) && i < |CallsOn(w.calls, key)|
    ensures SlotOf(w, id) == Some(Slot(key, i)) && id !in Denials(w)
    ensures forall other :: SlotOf(w, other) == Some(Slot(key, i)) ==> other == id
    ensures Settled(w) && !Unanswered(w, id) ==>
      (RateLimit.Admitted(CallsOn(w.calls, key), i) <==> id in w.forwarded)
  {
    ReachableBooks(w, env);
    assert Owned(w, Slot(key, i));
    id :| SlotOf(w, id) == Some(Slot(key, i));
    assert Booked(w.flights[id]) && TrueVerdict(w, w.flights[id].trail);
  }
}
