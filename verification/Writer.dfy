/**
 The audit writer: it takes events from the persist queue of a broker that redelivers, inserts each
 into the audit table under its own id, and acknowledges, requeues or dead-letters the message.
 */
module AuditWriter {
  import opened Wrappers
  import opened Uuids
  import opened Events
  import opened Brokers

  /** The columns of an audit row beside its id. */
  datatype AuditRow = AuditRow(
    user: Uuid,
    server: Uuid,
    toolName: string,
    params: Option<string>,
    outcome: string,
    summary: Option<string>,
    latencyMs: Option<int>,
    occurredAt: int)

  datatype InsertError = NoRow | Failed

  type Table = map<Uuid, AuditRow>

  /** The table after an insert with ON CONFLICT (id) DO NOTHING. */
  function Inserted(rows: Table, id: Uuid, row: AuditRow, link: Link): Table {
    if link.Refused? || id in rows then rows else rows[id := row]
  }

  class AuditEvents {
    var rows: Table

    constructor ()
      ensures rows == map[]
    {
      rows := map[];
    }

    /** A conflict returns no row, which the one-row query reports as an error. */
    method InsertAuditEventWithID(id: Uuid, row: AuditRow, link: Link) returns (r: Result<AuditRow, InsertError>)
      modifies this
      ensures rows == Inserted(old(rows), id, row, link)
      ensures r.Ok? <==> link.Healthy? && id !in old(rows)
      ensures r.Ok? ==> r.value == row && id in rows && rows[id] == row
      ensures r == Err(NoRow) <==> link.Healthy? && id in old(rows)
    {
      if link.Refused? {
        return Err(Failed);
      }
      if id in rows {
        return if link.Healthy? then Err(NoRow) else Err(Failed);
      }
      rows := rows[id := row];
      r := if link.Healthy? then Ok(row) else Err(Failed);
    }
  }

  /** A message body, as far as it decodes. */
  datatype Body = Garbage | Encoded(event: Event)

  datatype Key = Key(id: Uuid, row: AuditRow)

  /** The row of an event: its three ids must be UUIDs and its time must be set. */
  function RowOf(e: Event): Option<Key> {
    match (Scan(e.id), Scan(e.userId), Scan(e.serverId), e.occurredAt)
    case (Some(id), Some(user), Some(server), Some(at)) =>
      Some(Key(id, AuditRow(user, server, e.toolName, e.params, e.outcome, e.summary, e.latencyMs, at)))
    case _ => None
  }

  /** The event can be stored: its three ids scan and its time is set. */
  predicate Storable(e: Event) {
    Scan(e.id).Some? && Scan(e.userId).Some? && Scan(e.serverId).Some? && e.occurredAt.Some?
  }

  /** The row says what the event says. */
  predicate SaysAs(row: AuditRow, e: Event) {
    && Scan(e.userId) == Some(row.user) && Scan(e.serverId) == Some(row.server)
    && row.toolName == e.toolName && row.params == e.params && row.outcome == e.outcome
    && row.summary == e.summary && row.latencyMs == e.latencyMs && e.occurredAt == Some(row.occurredAt)
  }

  lemma RowOfExactly(e: Event)
    ensures RowOf(e).Some? <==> Storable(e)
    ensures RowOf(e).Some? ==> Scan(e.id) == Some(RowOf(e).value.id) && SaysAs(RowOf(e).value.row, e)
  {
  }

  /** A body that decodes to an event passing validation. */
  predicate WellFormed(body: Body) {
    body.Encoded? && Validate(body.event).Ok?
  }

  function Handled(rows: Table, body: Body, link: Link): (Table, Verdict) {
    if !WellFormed(body) then (rows, DeadLetter)
    else
      match RowOf(body.event)
      case None => (rows, Requeue)
      case Some(Key(id, row)) =>
        (Inserted(rows, id, row, link), if link.Healthy? && id !in rows then Ack else Requeue)
  }

  class Writer {
    const table: AuditEvents

    constructor (table: AuditEvents)
      ensures this.table == table
    {
      this.table := table;
    }

    method Persist(e: Event, link: Link) returns (ok: bool)
      modifies table
      ensures RowOf(e).None? ==> !ok && table.rows == old(table.rows)
      ensures RowOf(e).Some? ==>
        && ok == (link.Healthy? && RowOf(e).value.id !in old(table.rows))
        && table.rows == Inserted(old(table.rows), RowOf(e).value.id, RowOf(e).value.row, link)
    {
      var id, user, server := Scan(e.id), Scan(e.userId), Scan(e.serverId);
      if id.None? || user.None? || server.None? || e.occurredAt.None? {
        return false;
      }
      var row := AuditRow(user.value, server.value, e.toolName, e.params, e.outcome, e.summary,
                          e.latencyMs, e.occurredAt.value);
      var r := table.InsertAuditEventWithID(id.value, row, link);
      ok := r.Ok?;
    }

    /**
     Acknowledged exactly when this delivery inserted the row, dead-lettered exactly when the body
     does not decode or validate, and requeued in every other case, a duplicate id included.
     */
    method HandleDelivery(body: Body, link: Link) returns (verdict: Verdict)
      modifies table
      ensures (table.rows, verdict) == Handled(old(table.rows), body, link)
      ensures verdict == DeadLetter <==> !WellFormed(body)
      ensures verdict == Ack <==>
        WellFormed(body) && RowOf(body.event).Some? && RowOf(body.event).value.id !in old(table.rows) && link.Healthy?
    {
      if body.Garbage? {
        return DeadLetter;
      }
      if Validate(body.event).Err? {
        return DeadLetter;
      }
      var ok := Persist(body.event, link);
      verdict := if ok then Ack else Requeue;
    }

    /** The loop over deliveries, until the context is cancelled after stop of them. */
    method ConsumeLoop(bodies: seq<Body>, links: seq<Link>, stop: nat) returns (verdicts: seq<Verdict>)
      requires |links| == |bodies|
      modifies table
      ensures |verdicts| == if stop < |bodies| then stop else |bodies|
      ensures (table.rows, verdicts) == HandledAll(old(table.rows), bodies[..|verdicts|], links[..|verdicts|])
    {
      verdicts := [];
      while |verdicts| < |bodies| && |verdicts| < stop
        invariant |verdicts| <= |bodies| && |verdicts| <= stop
        invariant (table.rows, verdicts) == HandledAll(old(table.rows), bodies[..|verdicts|], links[..|verdicts|])
      {
        ghost var n := |verdicts|;
        assert bodies[..n + 1][..n] == bodies[..n] && links[..n + 1][..n] == links[..n];
        var verdict := HandleDelivery(bodies[|verdicts|], links[|verdicts|]);
        verdicts := verdicts + [verdict];
      }
    }
  }

  function HandledAll(rows: Table, bodies: seq<Body>, links: seq<Link>): (r: (Table, seq<Verdict>))
    requires |links| == |bodies|
    ensures |r.1| == |bodies|
  {
    if bodies == [] then (rows, [])
    else
      var n := |bodies| - 1;
      var before := HandledAll(rows, bodies[..n], links[..n]);
      var last := Handled(before.0, bodies[n], links[n]);
      (last.0, before.1 + [last.1])
  }

  // ---------------------------------------------------------------- the broker

  /**
   The persist queue over a run, its messages numbered in the order of publication, and the table. A
   crash between the insert and the acknowledgement redelivers a message whose row is there already.
   author is a history: which message inserted the row under an id.
   */
  datatype State = State(published: seq<Body>, queue: Backlog, rows: Table, author: map<Uuid, nat>)

  const INIT := State([], EMPTY, map[], map[])

  datatype Step =
    | Publish(body: Body)
    | Deliver(m: nat)
    | Handle(m: nat, link: Link)
    | Settle(m: nat)
    | Crash

  predicate Enabled(s: State, step: Step) {
    match step
    case Publish(_) => true
    case Deliver(m) => m in s.queue.ready
    case Handle(m, _) => m in s.queue.unacked && m !in s.queue.settling && m < |s.published|
    case Settle(m) => m in s.queue.unacked && m in s.queue.settling
    case Crash => true
  }

  function Next(s: State, step: Step): State
    requires Enabled(s, step)
  {
    match step
    case Publish(body) => s.(published := s.published + [body], queue := s.queue.Offer(|s.published|))
    case Deliver(m) => s.(queue := s.queue.Deliver(m))
    case Handle(m, link) =>
      var r := Handled(s.rows, s.published[m], link);
      s.(rows := r.0, queue := s.queue.Judge(m, r.1),
         author := if r.0 == s.rows then s.author else s.author[RowOf(s.published[m].event).value.id := m])
    case Settle(m) => s.(queue := s.queue.Settle(m))
    case Crash => s.(queue := s.queue.Crash())
  }

  ghost predicate ValidRun(s: State, steps: seq<Step>)
    decreases |steps|
  {
    steps != [] ==> Enabled(s, steps[0]) && ValidRun(Next(s, steps[0]), steps[1..])
  }

  ghost function Run(s: State, steps: seq<Step>): State
    requires ValidRun(s, steps)
    decreases |steps|
  {
    if steps == [] then s else Run(Next(s, steps[0]), steps[1..])
  }

  // ---------------------------------------------------------------- the invariant

  /** Every published message is in exactly one place, and only published messages are. */
  ghost predicate Conserved(s: State) {
    && (forall m: nat :: s.queue.Places(m) == if m < |s.published| then 1 else 0)
    && s.queue.Tidy()
  }

  /** The key the message would insert. */
  ghost predicate Inserts(s: State, m: nat, key: Key) {
    m < |s.published| && WellFormed(s.published[m]) && RowOf(s.published[m].event) == Some(key)
  }

  /** Message m is the one whose delivery inserted the row it describes. */
  ghost predicate Authored(s: State, m: nat) {
    exists key :: Inserts(s, m, key) && key.id in s.rows && s.rows[key.id] == key.row &&
      key.id in s.author && s.author[key.id] == m
  }

  /** Acknowledgement, given or on its way, means a row equal to the event, inserted by this message. */
  ghost predicate AckedStored(s: State) {
    && (forall m :: m in s.queue.acked ==> Authored(s, m))
    && (forall m :: m in s.queue.settling && s.queue.settling[m] == Ack ==> Authored(s, m))
  }

  ghost predicate DeadMalformed(s: State) {
    && (forall m :: m in s.queue.dead ==> m < |s.published| && !WellFormed(s.published[m]))
    && (forall m :: m in s.queue.settling && s.queue.settling[m] == DeadLetter ==>
          m < |s.published| && !WellFormed(s.published[m]))
  }

  ghost predicate RowExplained(s: State, id: Uuid) {
    id in s.rows ==>
      id in s.author && Inserts(s, s.author[id], Key(id, s.rows[id]))
  }

  ghost predicate Inv(s: State) {
    && Conserved(s) && AckedStored(s) && DeadMalformed(s)
    && (forall id :: RowExplained(s, id))
  }

  lemma StepConserves(s: State, step: Step)
    requires Conserved(s) && Enabled(s, step)
    ensures Conserved(Next(s, step))
  {
    var t := Next(s, step);
    forall m: nat ensures t.queue.Places(m) == (if m < |t.published| then 1 else 0) && t.queue.Tidy() {
      assert s.queue.Places(m) == if m < |s.published| then 1 else 0;
      match step {
        case Publish(_) => StepsConserve(s.queue, |s.published|, Ack, m);
        case Handle(k, link) => StepsConserve(s.queue, k, Handled(s.rows, s.published[k], link).1, m);
        case Deliver(k) => StepsConserve(s.queue, k, Ack, m);
        case Settle(k) => StepsConserve(s.queue, k, Ack, m);
        case Crash => StepsConserve(s.queue, 0, Ack, m);
      }
    }
  }

  /** Rows are never changed or removed, nor is the message that inserted them. */
  lemma StepKeepsRows(s: State, step: Step, id: Uuid)
    requires Enabled(s, step) && id in s.rows
    ensures id in Next(s, step).rows && Next(s, step).rows[id] == s.rows[id]
    ensures id in s.author ==> id in Next(s, step).author && Next(s, step).author[id] == s.author[id]
  {
  }

  lemma StepKeepsAuthored(s: State, step: Step, m: nat)
    requires Enabled(s, step) && Authored(s, m)
    ensures Authored(Next(s, step), m)
  {
    var key :| Inserts(s, m, key) && key.id in s.rows && s.rows[key.id] == key.row &&
      key.id in s.author && s.author[key.id] == m;
    StepKeepsRows(s, step, key.id);
    assert Inserts(Next(s, step), m, key);
  }

  lemma HandleAuthors(s: State, m: nat, link: Link)
    requires Enabled(s, Handle(m, link)) && Handled(s.rows, s.published[m], link).1 == Ack
    ensures Authored(Next(s, Handle(m, link)), m)
  {
    var key := RowOf(s.published[m].event).value;
    assert Inserts(Next(s, Handle(m, link)), m, key);
  }

  lemma StepKeepsAckedStored(s: State, step: Step)
    requires AckedStored(s) && Enabled(s, step)
    ensures AckedStored(Next(s, step))
  {
    var t := Next(s, step);
    forall m | m in t.queue.acked || (m in t.queue.settling && t.queue.settling[m] == Ack) ensures Authored(t, m) {
      if step.Handle? && step.m == m && t.queue.settling[m] == Ack && !(m in s.queue.acked) {
        HandleAuthors(s, m, step.link);
      } else {
        StepKeepsAuthored(s, step, m);
      }
    }
  }

  lemma StepKeepsDeadMalformed(s: State, step: Step)
    requires DeadMalformed(s) && Enabled(s, step)
    ensures DeadMalformed(Next(s, step))
  {
  }

  lemma StepExplainsRow(s: State, step: Step, id: Uuid)
    requires RowExplained(s, id) && Enabled(s, step)
    ensures RowExplained(Next(s, step), id)
  {
    if id in s.rows {
      StepKeepsRows(s, step, id);
    }
  }

  lemma StepKeepsInv(s: State, step: Step)
    requires Inv(s) && Enabled(s, step)
    ensures Inv(Next(s, step))
  {
    StepConserves(s, step);
    StepKeepsAckedStored(s, step);
    StepKeepsDeadMalformed(s, step);
    forall id ensures RowExplained(Next(s, step), id) {
      StepExplainsRow(s, step, id);
    }
  }

  // ---------------------------------------------------------------- what every run guarantees

  /**
   Over every run, with crashes and redelivery: a message is in exactly one place; an acknowledged
   one has a row equal to its event; a dead-lettered one is malformed; every row comes from a
   well-formed message; and what was in the table stays as it was.
   */
  lemma {:induction false} RunKeepsInv(s: State, steps: seq<Step>)
    requires Inv(s) && ValidRun(s, steps)
    ensures Inv(Run(s, steps))
    ensures forall id :: id in s.rows ==> id in Run(s, steps).rows && Run(s, steps).rows[id] == s.rows[id]
    decreases |steps|
  {
    if steps != [] {
      StepKeepsInv(s, steps[0]);
      RunKeepsInv(Next(s, steps[0]), steps[1..]);
      forall id | id in s.rows ensures id in Run(s, steps).rows && Run(s, steps).rows[id] == s.rows[id] {
        StepKeepsRows(s, steps[0], id);
      }
    }
  }

  lemma StartsInvariant()
    ensures Inv(INIT)
  {
  }

  /** So the table holds only what a valid event can say, under the ids and with the fields it says. */
  lemma RowsAreOfEvents(s: State, id: Uuid) returns (m: nat)
    requires Inv(s) && id in s.rows
    ensures m < |s.published| && s.published[m].Encoded?
    ensures var e, row := s.published[m].event, s.rows[id];
      Scan(e.id) == Some(id) && SaysAs(row, e) && row.toolName != "" && Listed(row.outcome)
  {
    assert RowExplained(s, id);
    m := s.author[id];
  }

  /** Two acknowledged messages never carry the same event id. */
  lemma AckedIdsDistinct(s: State, m: nat, n: nat, mKey: Key, nKey: Key)
    requires Inv(s) && m in s.queue.acked && n in s.queue.acked
    requires Inserts(s, m, mKey) && Inserts(s, n, nKey) && mKey.id == nKey.id
    ensures m == n
  {
    assert Authored(s, m) && Authored(s, n);
  }

  // ---------------------------------------------------------------- duplicates

  /** Well-formed, with an id whose row exists and no acknowledgement given or on its way. */
  ghost predicate Stuck(s: State, m: nat) {
    && m < |s.published| && WellFormed(s.published[m]) && m !in s.queue.acked
    && !(m in s.queue.settling && s.queue.settling[m] == Ack)
    && (Storable(s.published[m].event) ==> Scan(s.published[m].event.id).value in s.rows)
  }

  lemma HandleNeverAcksStuck(s: State, m: nat, link: Link)
    requires Stuck(s, m)
    ensures Handled(s.rows, s.published[m], link).1 != Ack
  {
  }

  lemma StepKeepsStuck(s: State, step: Step, m: nat)
    requires Stuck(s, m) && Enabled(s, step)
    ensures Stuck(Next(s, step), m)
  {
    var t := Next(s, step);
    assert t.published[m] == s.published[m];
    if RowOf(s.published[m].event).Some? {
      StepKeepsRows(s, step, RowOf(s.published[m].event).value.id);
    }
    if step.Handle? && step.m == m {
      HandleNeverAcksStuck(s, m, step.link);
    }
  }

  lemma {:induction false} StuckForever(s: State, steps: seq<Step>, m: nat)
    requires Inv(s) && Stuck(s, m) && ValidRun(s, steps)
    ensures Inv(Run(s, steps)) && Stuck(Run(s, steps), m)
    decreases |steps|
  {
    if steps != [] {
      StepKeepsInv(s, steps[0]);
      StepKeepsStuck(s, steps[0], m);
      StuckForever(Next(s, steps[0]), steps[1..], m);
    }
  }

  lemma RunOne(s: State, step: Step, rest: seq<Step>)
    requires Enabled(s, step) && ValidRun(Next(s, step), rest)
    ensures ValidRun(s, [step] + rest) && Run(s, [step] + rest) == Run(Next(s, step), rest)
  {
    assert ([step] + rest)[1..] == rest;
  }

  lemma SettleAcks(s: State, m: nat)
    requires m in s.queue.unacked && m in s.queue.settling && s.queue.settling[m] == Ack
    ensures ValidRun(s, [Settle(m)]) && m in Run(s, [Settle(m)]).queue.acked
  {
    assert [Settle(m)] == [Settle(m)] + [];
    RunOne(s, Settle(m), []);
  }

  lemma HandleAcks(s: State, m: nat)
    requires m in s.queue.unacked && m !in s.queue.settling && m < |s.published| && WellFormed(s.published[m])
    requires RowOf(s.published[m].event).Some? && RowOf(s.published[m].event).value.id !in s.rows
    ensures ValidRun(s, [Handle(m, Healthy)] + [Settle(m)])
    ensures m in Run(s, [Handle(m, Healthy)] + [Settle(m)]).queue.acked
  {
    SettleAcks(Next(s, Handle(m, Healthy)), m);
    RunOne(s, Handle(m, Healthy), [Settle(m)]);
  }

  /** A message that was requeued but not yet settled goes round once more. */
  lemma RedeliveryAcks(s: State, m: nat) returns (steps: seq<Step>)
    requires Conserved(s) && m < |s.published| && WellFormed(s.published[m])
    requires m !in s.queue.acked && m !in s.queue.dead
    requires RowOf(s.published[m].event).Some? && RowOf(s.published[m].event).value.id !in s.rows
    ensures ValidRun(s, steps) && m in Run(s, steps).queue.acked
  {
    assert s.queue.Places(m) == 1;
    var t := Next(s, Crash);
    var u := Next(t, Deliver(m));
    HandleAcks(u, m);
    steps := [Handle(m, Healthy)] + [Settle(m)];
    RunOne(t, Deliver(m), steps);
    steps := [Deliver(m)] + steps;
    RunOne(s, Crash, steps);
    steps := [Crash] + steps;
  }

  ghost predicate AcksIn(s: State, steps: seq<Step>, m: nat) {
    ValidRun(s, steps) && m in Run(s, steps).queue.acked
  }

  /**
   The insert is idempotent but the duplicate is not acknowledged: a well-formed message can still
   become acknowledged exactly when its acknowledgement is on its way, or its ids parse and no row
   has its id. Otherwise it is redelivered for ever, never dead-lettered.
   */
  lemma CanBeAckedExactly(s: State, m: nat)
    requires Inv(s) && m < |s.published| && WellFormed(s.published[m]) && m !in s.queue.acked
    ensures (exists steps :: AcksIn(s, steps, m)) <==> !Stuck(s, m) && Storable(s.published[m].event)
  {
    assert m !in s.queue.dead;
    if RowOf(s.published[m].event).None? || Stuck(s, m) {
      forall steps | ValidRun(s, steps) ensures !AcksIn(s, steps, m) {
        if RowOf(s.published[m].event).None? {
          assert m in s.queue.settling && s.queue.settling[m] == Ack ==> Authored(s, m);
        }
        StuckForever(s, steps, m);
      }
    } else if m in s.queue.settling && s.queue.settling[m] == Ack {
      SettleAcks(s, m);
      assert AcksIn(s, [Settle(m)], m);
    } else {
      var steps := RedeliveryAcks(s, m);
      assert AcksIn(s, steps, m);
    }
  }

  /** A stuck message stays ready or unacknowledged in every continuation. */
  lemma StuckStaysWaiting(s: State, steps: seq<Step>, m: nat)
    requires Inv(s) && Stuck(s, m) && ValidRun(s, steps)
    ensures var q := Run(s, steps).queue; (m in q.ready || m in q.unacked) && m !in q.acked && m !in q.dead
  {
    StuckForever(s, steps, m);
    assert Run(s, steps).queue.Places(m) == 1;
  }

  /** Publishing an event twice leaves one of the two stuck as soon as the other is stored. */
  lemma DuplicateIsStuck(s: State, m: nat, n: nat, mKey: Key, nKey: Key)
    requires Inv(s) && m in s.queue.acked && m != n
    requires Inserts(s, m, mKey) && Inserts(s, n, nKey) && mKey.id == nKey.id
    ensures Stuck(s, n)
  {
    assert Authored(s, m);
    assert Authored(s, n) ==> m == n;
  }

  /** Another way to get stuck: the database inserts the row, but its reply is lost. */
  lemma LostReplyLeavesStuck(s: State, m: nat)
    requires Inv(s) && Enabled(s, Handle(m, ReplyLost))
    requires WellFormed(s.published[m]) && Storable(s.published[m].event)
    ensures Stuck(Next(s, Handle(m, ReplyLost)), m)
  {
    assert s.queue.Places(m) == 1;
  }

  /**
   The usual way to get stuck: the consumer crashes between the insert and the acknowledgement, and
   the broker redelivers a message whose row is there.
   */
  lemma CrashLeavesStuck(body: Body) returns (steps: seq<Step>)
    requires WellFormed(body) && RowOf(body.event).Some?
    ensures ValidRun(INIT, steps)
    ensures var s := Run(INIT, steps);
      && s.published == [body] && Stuck(s, 0) && 0 in s.queue.ready
      && s.rows == map[RowOf(body.event).value.id := RowOf(body.event).value.row]
  {
    var s1 := Next(INIT, Publish(body));
    var s2 := Next(s1, Deliver(0));
    var s3 := Next(s2, Handle(0, Healthy));
    RunOne(s3, Crash, []);
    RunOne(s2, Handle(0, Healthy), [Crash]);
    RunOne(s1, Deliver(0), [Handle(0, Healthy), Crash]);
    RunOne(INIT, Publish(body), [Deliver(0), Handle(0, Healthy), Crash]);
    steps := [Publish(body)] + [Deliver(0), Handle(0, Healthy), Crash];
    assert [Deliver(0)] + [Handle(0, Healthy), Crash] == [Deliver(0), Handle(0, Healthy), Crash];
    assert [Handle(0, Healthy)] + [Crash] == [Handle(0, Healthy), Crash];
    assert [Crash] + [] == [Crash];
  }
}
