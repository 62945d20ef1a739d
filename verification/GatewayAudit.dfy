/**
 From the gateway to the audit table: what a request submits, completed as the proxy completes it,
 passes every check on its way.
 */
module GatewayAudit {
  import opened Wrappers
  import opened Decisions
  import opened Mcp
  import opened Redaction
  import opened Uuids
  import opened Events
  import opened Topics
  import opened Lifecycle
  import opened Gateway
  import opened GatewaySafety
  import opened GatewayAccounts
  import Alerting
  import AuditWriter

  /** The event of a submission, with the id, latency and time that are given to it. */
  function Completed(s: Submission, id: Uuid, latency: Option<int>, at: int): Event {
    Event(Print(id), s.job.user, Print(s.job.server), s.job.call.name, Some(s.params), s.outcome, s.summary,
          latency, Some(at))
  }

  /** What holds of the submission of every request. */
  ghost predicate Sound(s: Submission) {
    Scan(s.job.user).Some? && s.job.call.name != "" && Listed(s.outcome)
  }

  lemma CompletedIsStorable(s: Submission, id: Uuid, latency: Option<int>, at: int)
    requires Sound(s)
    ensures var e := Completed(s, id, latency, at);
      && Validate(e).Ok?
      && AuditWriter.RowOf(e) == Some(AuditWriter.Key(id, AuditWriter.AuditRow(
           Scan(s.job.user).value, s.job.server, s.job.call.name, Some(s.params), s.outcome, s.summary, latency, at)))
  {
    ScanPrint(id);
    ScanPrint(s.job.server);
  }

  lemma SubmittedIsSound(w: World, env: Setting, r: Report)
    requires Inv(w, env) && BooksInv(w) && r in w.submitted
    ensures Sound(r.submission)
  {
    var f := w.flights[r.id];
    assert Booked(f) && Warranted(w, env, f);
    assert EventOf(f) == Some(r.submission);
  }

  /**
   In every run, every event of a request is valid, has a row of its own with exactly its fields, is
   routed to the persist queue, and to the alerting queue if and only if the call was blocked. So no
   event of the proxy is ever dead-lettered for its content.
   */
  lemma SubmittedIsStorable(w: World, env: Setting, r: Report, id: Uuid, latency: Option<int>, at: int)
    requires env.Separated() && Reachable(w, env) && r in w.submitted
    ensures var s, e := r.submission, Completed(r.submission, id, latency, at);
      && AuditWriter.WellFormed(AuditWriter.Encoded(e))
      && Scan(s.job.user).Some?
      && AuditWriter.RowOf(e) == Some(AuditWriter.Key(id, AuditWriter.AuditRow(
           Scan(s.job.user).value, s.job.server, s.job.call.name, Some(s.params), s.outcome, s.summary, latency, at)))
      && Alerting.Routed(e, Persist) && (Alerting.Routed(e, Topics.Alerting) <==> Alerting.Alarming(e))
  {
    var e := Completed(r.submission, id, latency, at);
    ReachableBooks(w, env);
    SubmittedIsSound(w, env, r);
    CompletedIsStorable(r.submission, id, latency, at);
    ValidEventRouted(e);
    Alerting.AlertingReceives(e);
  }

  // ---------------------------------------------------------------- what the events disclose

  /** The parameters of the event are redacted by the decision on the trail; only a forward has a summary. */
  ghost predicate Reported(f: Flight, c: Codec) {
    EventOf(f).Some? ==>
      var event, d := EventOf(f).value, f.trail.decision;
      && d.Some? && event.params == AuditParams(c, event.job, d.value)
      && (event.outcome in [OUTCOME_DENIED, OUTCOME_RATE_LIMITED] ==> event.summary.None?)
  }

  ghost predicate ReportsInv(w: World, env: Setting) {
    forall id :: id in w.flights ==> Reported(w.flights[id], env.codec)
  }

  lemma DecidedReported(f: Flight, d: Option<Decision>, at: int, c: Codec)
    requires f.stage.Targeted?
    ensures Reported(Decided(f, d, at, c), c)
  {
  }

  lemma JudgedReported(w: World, f: Flight, a: Arrival, env: Setting)
    requires f.stage.Allowed? && f.trail.decision == Some(f.stage.decision)
    ensures Reported(Judged(w, f, a, env), env.codec)
  {
  }

  lemma FinishedReported(f: Flight, response: Result<Response, string>, c: Codec)
    requires f.stage.Admitted? && f.trail.decision == Some(f.stage.decision)
    ensures Reported(Finished(f, response, c), c)
  {
  }

  lemma MoveReported(w: World, s: Step, env: Setting)
    requires BooksInv(w) && Enabled(w, s, env) && Moved(w, s, env).Some?
    ensures Reported(Moved(w, s, env).value.1, env.codec)
  {
    match s.act {
      case Consult(id, _) => DecidedReported(w.flights[id], DecisionFor(w, s, env), s.at, env.codec);
      case Read(id, _) => DecidedReported(w.flights[id], DecisionFor(w, s, env), s.at, env.codec);
      case Admit(id, stamp, link) =>
        assert Booked(w.flights[id]);
        JudgedReported(w, w.flights[id], Arrival(stamp, s.at, link), env);
      case Finish(id, response) =>
        assert Booked(w.flights[id]);
        FinishedReported(w.flights[id], response, env.codec);
      case _ =>
    }
  }

  lemma {:induction false} RunKeepsReports(start: World, steps: seq<Step>, w: World, env: Setting)
    requires Inv(start, env) && BooksInv(start) && ReportsInv(start, env) && Run(start, steps, env) == Some(w)
    ensures Inv(w, env) && BooksInv(w) && ReportsInv(w, env)
  {
    if steps != [] {
      var n := |steps| - 1;
      var before := Run(start, steps[..n], env).value;
      RunKeepsReports(start, steps[..n], before, env);
      StepKeepsInv(before, steps[n], env);
      StepKeepsBooks(before, steps[n], env);
      StepKeepsReported(before, steps[n], env);
    }
  }

  lemma StepKeepsReported(w: World, s: Step, env: Setting)
    requires BooksInv(w) && ReportsInv(w, env) && Enabled(w, s, env)
    ensures ReportsInv(Next(w, s, env), env)
  {
    if Moved(w, s, env).Some? {
      MoveReported(w, s, env);
    }
  }

  /**
   In every run the parameters of every event submitted decode to the forwarded ones, with the keys
   masked that the decision of its request lists; denied and rate-limited events have no summary.
   */
  lemma SubmittedIsRedacted(w: World, env: Setting, r: Report)
    requires env.Separated() && RoundTrips(env.codec) && Reachable(w, env) && r in w.submitted
    ensures r.id in w.flights && w.flights[r.id].trail.decision.Some?
    ensures env.codec.parse(r.submission.params) ==
      Some(Obj(Masked(CleanParams(r.submission.job.call), Fields(w.flights[r.id].trail.decision.value.redactFields))))
    ensures r.submission.outcome in [OUTCOME_DENIED, OUTCOME_RATE_LIMITED] ==> r.submission.summary.None?
  {
    var now, steps :| Reaches(now, steps, w, env);
    StartsInvariant(now, env);
    RunKeepsReports(Start(now), steps, w, env);
    assert Reported(w.flights[r.id], env.codec);
    AuditParamsDecode(env.codec, r.submission.job, w.flights[r.id].trail.decision.value);
  }
}
