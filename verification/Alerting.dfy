/** The alert consumer: it alerts on every event of its queue and acknowledges every message. */
module Alerting {
  import opened Events
  import opened Topics
  import opened Wrappers
  import opened Brokers
  import AuditWriter

  class AlertConsumer {
    ghost var alerts: seq<Event>
    var acked: nat

    constructor ()
      ensures alerts == [] && acked == 0
    {
      alerts, acked := [], 0;
    }

    method Alert(e: Event)
      modifies this`alerts
      ensures alerts == old(alerts) + [e]
    {
      alerts := alerts + [e];
    }

    /** The loop over deliveries, until the context is cancelled after stop of them. */
    method ConsumeLoop(bodies: seq<AuditWriter.Body>, stop: nat)
      modifies this
      ensures var taken := if stop < |bodies| then stop else |bodies|;
        alerts == old(alerts) + Decoded(bodies[..taken]) && acked == old(acked) + taken
    {
      var taken := 0;
      while taken < |bodies| && taken < stop
        invariant taken <= |bodies| && taken <= stop
        invariant alerts == old(alerts) + Decoded(bodies[..taken]) && acked == old(acked) + taken
      {
        assert bodies[..taken + 1][..taken] == bodies[..taken];
        if bodies[taken].Encoded? {
          Alert(bodies[taken].event);
        }
        acked := acked + 1;
        taken := taken + 1;
      }
    }
  }

  /** The events of the bodies that decode. */
  function Decoded(bodies: seq<AuditWriter.Body>): seq<Event> {
    if bodies == [] then []
    else
      var last := bodies[|bodies| - 1];
      Decoded(bodies[..|bodies| - 1]) + if last.Encoded? then [last.event] else []
  }

  predicate Routed(e: Event, q: Queue) {
    RoutesTo(AuditExchange, RoutingKey(e.outcome), q)
  }

  /** The event names a blocked call. */
  predicate Alarming(e: Event) {
    e.outcome == OUTCOME_DENIED || e.outcome == OUTCOME_RATE_LIMITED
  }

  function Kept(events: seq<Event>, keep: Event -> bool): seq<Event> {
    if events == [] then []
    else
      var last := events[|events| - 1];
      Kept(events[..|events| - 1], keep) + if keep(last) then [last] else []
  }

  function Encodings(events: seq<Event>): (r: seq<AuditWriter.Body>)
    ensures |r| == |events|
  {
    if events == [] then [] else Encodings(events[..|events| - 1]) + [AuditWriter.Encoded(events[|events| - 1])]
  }

  /** What a queue of the audit exchange receives of the published events. */
  function Received(events: seq<Event>, q: Queue): seq<AuditWriter.Body> {
    Encodings(Kept(events, e => Routed(e, q)))
  }

  lemma {:induction false} EncodingsDecode(events: seq<Event>)
    ensures Decoded(Encodings(events)) == events
  {
    if events != [] {
      var front, last := events[..|events| - 1], events[|events| - 1];
      EncodingsDecode(front);
      assert Encodings(events)[..|front|] == Encodings(front);
    }
  }

  lemma {:induction false} KeptAlike(events: seq<Event>, f: Event -> bool, g: Event -> bool)
    requires forall e :: e in events ==> f(e) == g(e)
    ensures Kept(events, f) == Kept(events, g)
  {
    if events != [] {
      KeptAlike(events[..|events| - 1], f, g);
    }
  }

  lemma {:induction false} KeptAll(events: seq<Event>, f: Event -> bool)
    requires forall e :: e in events ==> f(e)
    ensures Kept(events, f) == events
  {
    if events != [] {
      KeptAll(events[..|events| - 1], f);
    }
  }

  lemma AlertingReceives(e: Event)
    ensures Routed(e, Alerting) <==> Alarming(e)
  {
    AlertingBindingsExact(e.outcome);
  }

  /** With each message delivered once, the alerts are exactly the blocked events, in the order of publication. */
  lemma AlertsAreBlocked(events: seq<Event>)
    ensures Decoded(Received(events, Alerting)) == Kept(events, e => Alarming(e))
  {
    var routed, alarming := (e: Event) => Routed(e, Alerting), (e: Event) => Alarming(e);
    forall e ensures routed(e) == alarming(e) {
      AlertingReceives(e);
    }
    KeptAlike(events, routed, alarming);
    EncodingsDecode(Kept(events, routed));
  }

  /** The persist queue receives every published event that passes validation, in order. */
  lemma PersistReceivesAll(events: seq<Event>)
    requires forall e :: e in events ==> Validate(e).Ok?
    ensures Decoded(Received(events, Persist)) == events
  {
    var routed := (e: Event) => Routed(e, Persist);
    forall e | e in events ensures routed(e) {
      ValidEventRouted(e);
    }
    KeptAll(events, routed);
    EncodingsDecode(events);
  }

  // ---------------------------------------------------------------- redelivery

  /**
   The alerting queue over a run. Messages are numbered in the order of publication, whether or not
   they are routed here. A crash between an alert and its acknowledgement delivers the message again.
   */
  datatype State = State(published: seq<Event>, queue: Backlog, alerts: multiset<nat>, crashes: nat)

  const INIT := State([], EMPTY, multiset{}, 0)

  datatype Step =
    | Publish(event: Event)
    | Deliver(m: nat)
    | Handle(m: nat)
    | Settle(m: nat)
    | Crash

  predicate Enabled(s: State, step: Step) {
    match step
    case Publish(_) => true
    case Deliver(m) => m in s.queue.ready
    case Handle(m) => m in s.queue.unacked && m !in s.queue.settling
    case Settle(m) => m in s.queue.unacked && m in s.queue.settling
    case Crash => true
  }

  ghost function Next(s: State, step: Step): State
    requires Enabled(s, step)
  {
    match step
    case Publish(e) =>
      s.(published := s.published + [e],
         queue := if Routed(e, Alerting) then s.queue.Offer(|s.published|) else s.queue)
    case Deliver(m) => s.(queue := s.queue.Deliver(m))
    case Handle(m) => s.(alerts := s.alerts + multiset{m}, queue := s.queue.Judge(m, Ack))
    case Settle(m) => s.(queue := s.queue.Settle(m))
    case Crash => s.(queue := s.queue.Crash(), crashes := s.crashes + 1)
  }

  /** The state after a run, None when a step of it is not enabled. */
  ghost function Run(s: State, steps: seq<Step>): Option<State> {
    if steps == [] then Some(s)
    else
      var n := |steps| - 1;
      var before := Run(s, steps[..n]);
      if before.Some? && Enabled(before.value, steps[n]) then Some(Next(before.value, steps[n])) else None
  }

  /** A blocked event is in exactly one place, any other in none. */
  ghost predicate Placed(s: State, m: nat) {
    s.queue.Places(m) == if m < |s.published| && Alarming(s.published[m]) then 1 else 0
  }

  /** Alerts are raised for messages of the queue, before their acknowledgement, and again only after a crash. */
  ghost predicate Sounded(s: State, m: nat) {
    && (m in s.queue.settling ==> s.queue.settling[m] == Ack) && m !in s.queue.dead
    && (m in s.alerts ==> m < |s.published| && Alarming(s.published[m]))
    && (m in s.queue.settling || m in s.queue.acked ==> 1 <= s.alerts[m])
    && s.alerts[m] <= s.crashes + if m in s.queue.settling || m in s.queue.acked then 1 else 0
  }

  ghost predicate Inv(s: State) {
    s.queue.Tidy() && forall m: nat :: Placed(s, m) && Sounded(s, m)
  }

  lemma StepPlaces(s: State, step: Step, m: nat)
    requires s.queue.Tidy() && Placed(s, m) && Enabled(s, step)
    ensures Next(s, step).queue.Tidy() && Placed(Next(s, step), m)
  {
    match step {
      case Publish(e) =>
        AlertingReceives(e);
        StepsConserve(s.queue, |s.published|, Ack, m);
      case Crash => StepsConserve(s.queue, 0, Ack, m);
      case _ => StepsConserve(s.queue, step.m, Ack, m);
    }
  }

  lemma StepSounds(s: State, step: Step, m: nat)
    requires Inv(s) && Enabled(s, step)
    ensures Sounded(Next(s, step), m)
  {
    assert Placed(s, m) && Sounded(s, m);
    if step.Handle? || step.Settle? {
      assert Placed(s, step.m) && Sounded(s, step.m);
    }
  }

  lemma StepKeepsInv(s: State, step: Step)
    requires Inv(s) && Enabled(s, step)
    ensures Inv(Next(s, step))
  {
    assert Placed(s, 0);
    StepPlaces(s, step, 0);
    forall m: nat ensures Placed(Next(s, step), m) && Sounded(Next(s, step), m) {
      assert Placed(s, m);
      StepPlaces(s, step, m);
      StepSounds(s, step, m);
    }
  }

  lemma {:induction false} RunKeepsInv(steps: seq<Step>, s: State)
    requires Run(INIT, steps) == Some(s)
    ensures Inv(s)
  {
    if steps != [] {
      var n := |steps| - 1;
      var before := Run(INIT, steps[..n]).value;
      RunKeepsInv(steps[..n], before);
      StepKeepsInv(before, steps[n]);
    }
  }

  /**
   Over every run with crashes and redelivery: only blocked events raise alerts; a blocked event
   waits in the queue until it is acknowledged, and by then has raised one; and no event raises more
   than one alert beyond the crashes, so exactly one when the consumer never crashes.
   */
  lemma AlertedAtLeastOnce(steps: seq<Step>, s: State, m: nat)
    requires Run(INIT, steps) == Some(s)
    ensures m in s.alerts ==> m < |s.published| && Alarming(s.published[m])
    ensures m < |s.published| && Alarming(s.published[m]) ==>
      m in s.queue.ready || m in s.queue.unacked || (m in s.queue.acked && 1 <= s.alerts[m])
    ensures s.alerts[m] <= s.crashes + 1
  {
    RunKeepsInv(steps, s);
    assert Placed(s, m) && Sounded(s, m);
  }

  lemma RunSnoc(steps: seq<Step>, s: State, step: Step)
    requires Run(INIT, steps) == Some(s) && Enabled(s, step)
    ensures Run(INIT, steps + [step]) == Some(Next(s, step))
  {
    assert (steps + [step])[..|steps|] == steps;
  }

  /** Each crash between an alert and its acknowledgement repeats the alert, any number of times. */
  lemma {:induction false} CrashesRepeatAlert(e: Event, crashes: nat) returns (steps: seq<Step>, s: State)
    requires Alarming(e)
    ensures Run(INIT, steps) == Some(s)
    ensures s.published == [e] && s.crashes == crashes && s.alerts[0] == crashes + 1
    ensures 0 in s.queue.unacked && 0 in s.queue.settling
  {
    if crashes == 0 {
      AlertingReceives(e);
      RunSnoc([], INIT, Step.Publish(e));
      steps, s := [] + [Step.Publish(e)], Next(INIT, Step.Publish(e));
    } else {
      steps, s := CrashesRepeatAlert(e, crashes - 1);
      RunSnoc(steps, s, Crash);
      steps, s := steps + [Crash], Next(s, Crash);
    }
    RunSnoc(steps, s, Deliver(0));
    steps, s := steps + [Deliver(0)], Next(s, Deliver(0));
    RunSnoc(steps, s, Handle(0));
    steps, s := steps + [Handle(0)], Next(s, Handle(0));
  }
}
