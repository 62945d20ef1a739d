/**
 The audit publisher: a bounded channel filled by concurrent callers and emptied by one worker, and
 a close that drains it. Publish checks the closed flag under the mutex but enqueues outside it, so
 the two are separate steps, interleaved here with those of the worker and of Close.
 */
module Publishing {
  import opened Events

  /** An event and the Publish call that submitted it. */
  datatype Item = Item(call: nat, event: Event)

  /** Receiving is the point between the length test of the drain loop and its receive. */
  datatype Worker =
    | Idle
    | Sending(item: Item)
    | Draining
    | Receiving
    | DrainSending(item: Item)
    | Exited

  /**
   calls are the Publish calls begun so far and inFlight those past the closed check. accepted and
   dispatched are histories: what entered the channel, and what the worker handed to the broker.
   The last three fields record |accepted| and inFlight at the close and |accepted| at the exit.
   */
  datatype State = State(
    capacity: nat,
    queue: seq<Item>,
    isDone: bool,
    worker: Worker,
    returned: bool,
    calls: set<nat>,
    inFlight: set<Item>,
    accepted: seq<Item>,
    dispatched: seq<Item>,
    acceptedAtClose: nat,
    inFlightAtClose: set<Item>,
    acceptedAtExit: nat)

  function Init(capacity: nat): State {
    State(capacity, [], false, Idle, false, {}, {}, [], [], 0, {}, 0)
  }

  datatype Step =
    | Check(item: Item)
    | Enqueue(item: Item)
    | Receive
    | Send
    | SeeClosed
    | TestLength
    | DrainReceive
    | DrainSend
    | Close
    | CloseReturns

  predicate Enabled(s: State, step: Step) {
    match step
    case Check(item) => item.call !in s.calls
    case Enqueue(item) => item in s.inFlight
    case Receive => s.worker.Idle? && s.queue != []
    case Send => s.worker.Sending?
    case SeeClosed => s.worker.Idle? && s.isDone
    case TestLength => s.worker.Draining?
    case DrainReceive => s.worker.Receiving? && s.queue != []
    case DrainSend => s.worker.DrainSending?
    case Close => true
    case CloseReturns => s.isDone && s.worker.Exited?
  }

  /** Publish returns an error when the flag was set, and drops the event when the channel is full. */
  function Next(s: State, step: Step): State
    requires Enabled(s, step)
  {
    match step
    case Check(item) =>
      s.(calls := s.calls + {item.call}, inFlight := if s.isDone then s.inFlight else s.inFlight + {item})
    case Enqueue(item) =>
      if |s.queue| < s.capacity then
        s.(inFlight := s.inFlight - {item}, queue := s.queue + [item], accepted := s.accepted + [item])
      else s.(inFlight := s.inFlight - {item})
    case Receive => s.(worker := Sending(s.queue[0]), queue := s.queue[1..])
    case Send => s.(worker := Idle, dispatched := s.dispatched + [s.worker.item])
    case SeeClosed => s.(worker := Draining)
    case TestLength =>
      if |s.queue| > 0 then s.(worker := Receiving)
      else s.(worker := Exited, acceptedAtExit := |s.accepted|)
    case DrainReceive => s.(worker := DrainSending(s.queue[0]), queue := s.queue[1..])
    case DrainSend => s.(worker := Draining, dispatched := s.dispatched + [s.worker.item])
    case Close =>
      if s.isDone then s
      else s.(isDone := true, acceptedAtClose := |s.accepted|, inFlightAtClose := s.inFlight)
    case CloseReturns => s.(returned := true)
  }

  ghost predicate ValidRun(s: State, steps: seq<Step>)
    decreases |steps|
  {
    steps != [] ==> Enabled(s, steps[0]) && ValidRun(Next(s, steps[0]), steps[1..])
  }

  ghost function Run(s: State, steps: seq<Step>): State
    requires ValidRun(s, steps)
    decreases |steps|
  {
    if steps == [] then s else Run(Next(s, steps[0]), steps[1..])
  }

  // ---------------------------------------------------------------- the invariant

  function InHand(w: Worker): seq<Item> {
    match w
    case Sending(item) => [item]
    case DrainSending(item) => [item]
    case _ => []
  }

  /** Accepted items leave in the order they entered, none twice, none lost. */
  ghost predicate Fifo(s: State) {
    s.accepted == s.dispatched + InHand(s.worker) + s.queue && |s.queue| <= s.capacity
  }

  ghost predicate SawClose(w: Worker) {
    w.Draining? || w.Receiving? || w.DrainSending? || w.Exited?
  }

  ghost predicate CloseOrder(s: State) {
    && (SawClose(s.worker) ==> s.isDone)
    && (s.worker.Receiving? ==> s.queue != [])
    && (s.returned ==> s.worker.Exited?)
    && (s.isDone ==> s.acceptedAtClose <= |s.accepted|)
    && (s.worker.Exited? ==> s.acceptedAtClose <= s.acceptedAtExit == |s.dispatched|)
  }

  /** What enters after the close was past the check before it. */
  ghost predicate Residue(s: State) {
    s.isDone ==>
      && s.inFlight <= s.inFlightAtClose
      && (forall k :: s.acceptedAtClose <= k < |s.accepted| ==> s.accepted[k] in s.inFlightAtClose)
      && |s.accepted| - s.acceptedAtClose + |s.inFlight| <= |s.inFlightAtClose|
  }

  ghost predicate Inv(s: State) {
    Fifo(s) && CloseOrder(s) && Residue(s)
  }

  lemma StepKeepsFifo(s: State, step: Step)
    requires Fifo(s) && Enabled(s, step)
    ensures Fifo(Next(s, step))
  {
    if step.Receive? || step.DrainReceive? {
      assert s.queue == [s.queue[0]] + s.queue[1..];
    }
  }

  lemma StepKeepsCloseOrder(s: State, step: Step)
    requires Fifo(s) && CloseOrder(s) && Enabled(s, step)
    ensures CloseOrder(Next(s, step))
  {
  }

  lemma StepKeepsResidue(s: State, step: Step)
    requires CloseOrder(s) && Residue(s) && Enabled(s, step)
    ensures Residue(Next(s, step))
  {
    if step.Enqueue? {
      assert |s.inFlight - {step.item}| == |s.inFlight| - 1;
    }
  }

  /** Every interleaving keeps the invariant. */
  lemma {:induction false} RunKeepsInv(s: State, steps: seq<Step>)
    requires Inv(s) && ValidRun(s, steps)
    ensures Inv(Run(s, steps))
    decreases |steps|
  {
    if steps != [] {
      StepKeepsFifo(s, steps[0]);
      StepKeepsCloseOrder(s, steps[0]);
      StepKeepsResidue(s, steps[0]);
      RunKeepsInv(Next(s, steps[0]), steps[1..]);
    }
  }

  // ---------------------------------------------------------------- what every run guarantees

  /** In every run the dispatched items are a prefix of the accepted ones and the channel is bounded. */
  lemma DispatchedIsPrefix(capacity: nat, steps: seq<Step>)
    requires ValidRun(Init(capacity), steps)
    ensures var s := Run(Init(capacity), steps);
      s.dispatched <= s.accepted && |s.queue| <= capacity && s.capacity == capacity
  {
    RunKeepsInv(Init(capacity), steps);
    CapacityFixed(Init(capacity), steps);
  }

  lemma {:induction false} CapacityFixed(s: State, steps: seq<Step>)
    requires ValidRun(s, steps)
    ensures Run(s, steps).capacity == s.capacity
    decreases |steps|
  {
    if steps != [] { CapacityFixed(Next(s, steps[0]), steps[1..]); }
  }

  /** Everything enqueued before the close is dispatched before Close returns. */
  lemma CloseLosesNothing(capacity: nat, steps: seq<Step>)
    requires ValidRun(Init(capacity), steps) && Run(Init(capacity), steps).returned
    ensures var s := Run(Init(capacity), steps);
      && s.acceptedAtClose <= |s.dispatched| <= |s.accepted|
      && s.accepted[..s.acceptedAtClose] <= s.dispatched
  {
    RunKeepsInv(Init(capacity), steps);
    var s := Run(Init(capacity), steps);
    assert s.dispatched == s.accepted[..|s.dispatched|];
  }

  /**
   What stays behind is exactly what was enqueued after the worker's last length test. Each such
   item was past the closed check when the channel was closed, and there are at most as many.
   */
  lemma LeftBehindExactly(capacity: nat, steps: seq<Step>)
    requires ValidRun(Init(capacity), steps) && Run(Init(capacity), steps).worker.Exited?
    ensures var s := Run(Init(capacity), steps);
      && s.acceptedAtExit <= |s.accepted| && s.queue == s.accepted[s.acceptedAtExit..]
      && (forall item :: item in s.queue ==> item in s.inFlightAtClose)
      && |s.queue| + |s.inFlight| <= |s.inFlightAtClose|
  {
    RunKeepsInv(Init(capacity), steps);
    var s := Run(Init(capacity), steps);
    assert s.accepted[|s.dispatched|..] == s.queue;
  }

  /** A worker that has exited dispatches nothing more, whatever is enqueued. */
  lemma {:induction false} ExitedStays(s: State, steps: seq<Step>)
    requires s.worker.Exited? && ValidRun(s, steps)
    ensures Run(s, steps).worker.Exited? && Run(s, steps).dispatched == s.dispatched
    decreases |steps|
  {
    if steps != [] {
      ExitedStays(Next(s, steps[0]), steps[1..]);
    }
  }

  /** Such a loss is possible: Publish succeeds for an item that no continuation ever dispatches. */
  lemma LateEnqueueIsLost(capacity: nat, item: Item) returns (steps: seq<Step>)
    requires capacity > 0
    ensures ValidRun(Init(capacity), steps)
    ensures var s := Run(Init(capacity), steps);
      s.returned && s.accepted == [item] && forall more :: ValidRun(s, more) ==> Run(s, more).dispatched == []
  {
    steps := LateEnqueue(capacity, item);
    var s := Run(Init(capacity), steps);
    forall more | ValidRun(s, more) ensures Run(s, more).dispatched == [] {
      ExitedStays(s, more);
    }
  }

  lemma LateEnqueue(capacity: nat, item: Item) returns (steps: seq<Step>)
    requires capacity > 0
    ensures ValidRun(Init(capacity), steps)
    ensures var s := Run(Init(capacity), steps);
      s.returned && s.worker.Exited? && s.accepted == [item] && s.dispatched == []
  {
    steps := [Check(item), Close, SeeClosed, TestLength, CloseReturns, Enqueue(item)];
    var s0 := Init(capacity);
    var s1 := Next(s0, Check(item));
    var s2 := Next(s1, Close);
    var s3 := Next(s2, SeeClosed);
    var s4 := Next(s3, TestLength);
    var s5 := Next(s4, CloseReturns);
    RunOne(s5, Enqueue(item), []);
    RunOne(s4, CloseReturns, [Enqueue(item)]);
    RunOne(s3, TestLength, [CloseReturns, Enqueue(item)]);
    RunOne(s2, SeeClosed, [TestLength, CloseReturns, Enqueue(item)]);
    RunOne(s1, Close, [SeeClosed, TestLength, CloseReturns, Enqueue(item)]);
    RunOne(s0, Check(item), [Close, SeeClosed, TestLength, CloseReturns, Enqueue(item)]);
    assert steps == [Check(item)] + [Close, SeeClosed, TestLength, CloseReturns, Enqueue(item)];
  }

  lemma RunOne(s: State, step: Step, rest: seq<Step>)
    requires Enabled(s, step) && ValidRun(Next(s, step), rest)
    ensures ValidRun(s, [step] + rest) && Run(s, [step] + rest) == Run(Next(s, step), rest)
  {
    assert ([step] + rest)[1..] == rest;
  }

  /**
   A Close that is not the first returns at once, in every state, so what was enqueued before it need
   not be dispatched by then.
   */
  lemma LaterCloseWaitsForNothing(s: State)
    requires s.isDone
    ensures Enabled(s, Close) && Next(s, Close) == s
  {
  }

  lemma SecondCloseReturnsEarly(capacity: nat, item: Item) returns (steps: seq<Step>)
    requires capacity > 0
    ensures ValidRun(Init(capacity), steps) && steps != [] && steps[|steps| - 1] == Close
    ensures var s := Run(Init(capacity), steps); s.isDone && s.accepted == [item] && s.dispatched == []
  {
    var s1 := Next(Init(capacity), Check(item));
    var s2 := Next(s1, Enqueue(item));
    var s3 := Next(s2, Close);
    RunOne(s3, Close, []);
    RunOne(s2, Close, [Close]);
    RunOne(s1, Enqueue(item), [Close, Close]);
    RunOne(Init(capacity), Check(item), [Enqueue(item), Close, Close]);
    steps := [Check(item), Enqueue(item), Close, Close];
    assert steps == [Check(item)] + [Enqueue(item), Close, Close];
  }

  // ---------------------------------------------------------------- the drain ends

  /** The step of the worker that is enabled once the channel is closed. */
  function WorkerStep(s: State): Step
    requires !s.worker.Exited?
  {
    match s.worker
    case Idle => SeeClosed
    case Sending(_) => Send
    case Draining => TestLength
    case Receiving => DrainReceive
    case DrainSending(_) => DrainSend
  }

  /** After the close the worker is never blocked, on its receive least of all, until it exits. */
  lemma WorkerNeverBlocks(s: State)
    requires Inv(s) && s.isDone && !s.worker.Exited?
    ensures Enabled(s, WorkerStep(s))
  {
  }

  function Rank(w: Worker): nat {
    match w
    case Exited => 0
    case Receiving => 1
    case Draining => 2
    case DrainSending(_) => 3
    case Idle => 4
    case Sending(_) => 5
  }

  /** Publishers past the check weigh most, since each can still fill the channel. */
  function Measure(s: State): nat {
    4 * |s.inFlight| + 3 * |s.queue| + Rank(s.worker)
  }

  /** A step that does something after the close. */
  predicate Works(step: Step) {
    !step.Check? && !step.Close? && !step.CloseReturns?
  }

  function Work(steps: seq<Step>): nat {
    if steps == [] then 0 else (if Works(steps[0]) then 1 else 0) + Work(steps[1..])
  }

  lemma StepSpendsMeasure(s: State, step: Step)
    requires s.isDone && Enabled(s, step)
    ensures Next(s, step).isDone
    ensures Measure(Next(s, step)) + (if Works(step) then 1 else 0) <= Measure(s)
  {
    if step.Enqueue? {
      assert |s.inFlight - {step.item}| == |s.inFlight| - 1;
    }
  }

  /**
   From the close on, worker and enqueuing publishers together take at most Measure steps however
   they are interleaved; as the worker is never blocked, it exits and Close returns.
   */
  lemma {:induction false} DrainTerminates(s: State, steps: seq<Step>)
    requires s.isDone && ValidRun(s, steps)
    ensures Work(steps) + Measure(Run(s, steps)) <= Measure(s)
    decreases |steps|
  {
    if steps != [] {
      StepSpendsMeasure(s, steps[0]);
      DrainTerminates(Next(s, steps[0]), steps[1..]);
    }
  }

  /** From any reachable state after the close, worker steps alone lead to the exit. */
  lemma {:induction false} WorkerReachesExit(s: State) returns (steps: seq<Step>)
    requires Inv(s) && s.isDone
    ensures ValidRun(s, steps) && Run(s, steps).worker.Exited?
    ensures forall step :: step in steps ==> Works(step) && !step.Enqueue?
    decreases Measure(s)
  {
    if s.worker.Exited? {
      steps := [];
    } else {
      var step := WorkerStep(s);
      WorkerNeverBlocks(s);
      StepSpendsMeasure(s, step);
      RunKeepsInv(s, [step]);
      assert [step][1..] == [] && Run(s, [step]) == Next(s, step);
      var rest := WorkerReachesExit(Next(s, step));
      RunOne(s, step, rest);
      steps := [step] + rest;
    }
  }

  // ---------------------------------------------------------------- the object

  class RabbitMQPublisher {
    const capacity: nat
    var queue: seq<Item>
    var isDone: bool
    var worker: Worker
    var returned: bool
    ghost var calls: set<nat>
    ghost var inFlight: set<Item>
    ghost var accepted: seq<Item>
    ghost var dispatched: seq<Item>
    ghost var acceptedAtClose: nat
    ghost var inFlightAtClose: set<Item>
    ghost var acceptedAtExit: nat

    ghost function Abstract(): State
      reads this
    {
      State(capacity, queue, isDone, worker, returned, calls, inFlight, accepted, dispatched,
            acceptedAtClose, inFlightAtClose, acceptedAtExit)
    }

    ghost predicate Valid()
      reads this
    {
      Inv(Abstract())
    }

    /** A buffer size that is not positive stands for the default. */
    constructor (bufferSize: int)
      ensures Valid()
      ensures Abstract() == Init(if bufferSize <= 0 then 2048 else bufferSize)
    {
      capacity := if bufferSize <= 0 then 2048 else bufferSize;
      queue, isDone, worker, returned := [], false, Idle, false;
      calls, inFlight, accepted, dispatched := {}, {}, [], [];
      acceptedAtClose, inFlightAtClose, acceptedAtExit := 0, {}, 0;
    }

    /** The first half of Publish, under the mutex. */
    method CheckOpen(item: Item) returns (open: bool)
      requires Valid() && item.call !in calls
      modifies this
      ensures Valid() && Abstract() == Next(old(Abstract()), Check(item))
      ensures open == !old(isDone)
    {
      StepKeepsResidue(Abstract(), Check(item));
      open := !isDone;
      calls := calls + {item.call};
      if open {
        inFlight := inFlight + {item};
      }
    }

    /** The second half of Publish, outside the mutex. */
    method TryEnqueue(item: Item) returns (ok: bool)
      requires Valid() && item in inFlight
      modifies this
      ensures Valid() && Abstract() == Next(old(Abstract()), Enqueue(item))
      ensures ok == (|old(queue)| < capacity)
    {
      StepKeepsFifo(Abstract(), Enqueue(item));
      StepKeepsCloseOrder(Abstract(), Enqueue(item));
      StepKeepsResidue(Abstract(), Enqueue(item));
      inFlight := inFlight - {item};
      ok := |queue| < capacity;
      if ok {
        queue := queue + [item];
        accepted := accepted + [item];
      }
    }

    /** An uninterrupted Publish succeeds exactly when open with room, and then the item is last in the channel. */
    method Publish(item: Item) returns (ok: bool)
      requires Valid() && item.call !in calls && item !in inFlight
      modifies this
      ensures Valid()
      ensures ok == (!old(isDone) && |old(queue)| < capacity)
      ensures queue == if ok then old(queue) + [item] else old(queue)
      ensures accepted == if ok then old(accepted) + [item] else old(accepted)
      ensures dispatched == old(dispatched) && inFlight == old(inFlight) && isDone == old(isDone)
    {
      var open := CheckOpen(item);
      if !open {
        return false;
      }
      ok := TryEnqueue(item);
    }

    /** The select of the worker loop takes an event. */
    method TakeOne()
      requires Valid() && Enabled(Abstract(), Receive)
      modifies this
      ensures Valid() && Abstract() == Next(old(Abstract()), Receive)
    {
      StepKeepsFifo(Abstract(), Receive);
      worker, queue := Sending(queue[0]), queue[1..];
    }

    method FinishSend()
      requires Valid() && Enabled(Abstract(), Send)
      modifies this
      ensures Valid() && Abstract() == Next(old(Abstract()), Send)
    {
      dispatched := dispatched + [worker.item];
      worker := Idle;
    }

    /** The drain loop of the worker, with no publisher running beside it. */
    method Drain()
      requires Valid() && worker.Draining?
      modifies this
      ensures Valid() && worker.Exited? && queue == []
      ensures dispatched == old(dispatched) + old(queue) && accepted == old(accepted)
      ensures isDone && inFlight == old(inFlight) && acceptedAtClose == old(acceptedAtClose)
    {
      while |queue| > 0
        invariant Valid() && worker.Draining?
        invariant dispatched + queue == old(dispatched) + old(queue) && accepted == old(accepted)
        invariant inFlight == old(inFlight) && acceptedAtClose == old(acceptedAtClose)
        decreases |queue|
      {
        ghost var s := Abstract();
        var item := queue[0];
        queue := queue[1..];
        dispatched := dispatched + [item];
        assert s.queue == [item] + queue;
      }
      acceptedAtExit := |accepted|;
      worker := Exited;
    }

    /** The worker from the close of the channel to its return, again with no publisher beside it. */
    method RunToExit()
      requires Valid() && isDone && (worker.Idle? || worker.Sending?)
      modifies this
      ensures Valid() && isDone && worker.Exited? && queue == []
      ensures accepted == old(accepted) && dispatched == accepted
    {
      if worker.Sending? {
        FinishSend();
      }
      worker := Draining;
      Drain();
    }

    /** A Close that nothing interrupts leaves nothing behind; a second Close does nothing. */
    method CloseQuietly()
      requires Valid()
      modifies this
      ensures Valid() && isDone && accepted == old(accepted)
      ensures old(isDone) ==> Abstract() == old(Abstract())
      ensures !old(isDone) ==> returned && queue == [] && dispatched == accepted
    {
      if isDone {
        return;
      }
      isDone := true;
      acceptedAtClose, inFlightAtClose := |accepted|, inFlight;
      RunToExit();
      returned := true;
    }
  }
}
