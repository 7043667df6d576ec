/**
 The object of src/modem/worker.rs: the arms of its loop as methods, each proved to make the steps
 of `Worker` that it stands for.
 */
module WorkerObject {
  import opened Text
  import opened Framing
  import opened Types
  import opened StateMachine
  import opened Worker
  import opened Buffer
  import opened StateMachineObject

  /** What reading the port gives. */
  datatype ReadResult = Bytes(data: string) | Closed | Failed(error: string)

  class ModemWorker {
    var status: ModemStatus
    const stateMachine: ModemStateMachine
    const lineBuffer: LineBuffer
    /** The command channel, with the ledger of what it has accepted, and the receivers given up. */
    var commands: seq<OutgoingCommand>
    const capacity: nat
    var accepted: seq<ModemRequest>
    var gone: set<nat>
    /** Where the worker stands in the shutdown arm. */
    ghost var phase: Phase

    ghost function Model(): State
      reads this, stateMachine, lineBuffer
    {
      State(status, phase, stateMachine.Model(), lineBuffer.buffer, lineBuffer.maxBufferSize,
            commands, capacity, accepted, gone)
    }

    /** The worker when `initialize_modem` has succeeded or failed. */
    constructor (initialized: bool, lineBufferSize: nat, capacity: nat)
      ensures Model() == Initial(initialized, lineBufferSize, capacity)
      ensures fresh(stateMachine) && fresh(lineBuffer)
    {
      status := Startup;
      stateMachine := new ModemStateMachine();
      lineBuffer := new LineBuffer.WithMaxSize(lineBufferSize);
      commands := [];
      this.capacity := capacity;
      accepted := [];
      gone := {};
      phase := Polling;
      new;
      SetStatus(if initialized then Online else Offline);
    }

    /** `try_send` at the other end of the command channel. */
    method TrySend(sequence: nat, request: ModemRequest, timeout: Option<nat>) returns (queued: bool)
      modifies `commands, `accepted
      ensures Model() == Submit(old(Model()), sequence, request, timeout)
      ensures queued <==> |old(commands)| < capacity
    {
      if |commands| >= capacity {
        return false;
      }
      commands := commands + [OutgoingCommand(sequence, request, timeout, |accepted|, true)];
      accepted := accepted + [request];
      return true;
    }

    method SetStatus(newStatus: ModemStatus)
      modifies `status, stateMachine`sent
      ensures Model() == SetStatusTo(old(Model()), newStatus)
    {
      if status == newStatus {
        return;
      }
      var previous := status;
      status := newStatus;
      stateMachine.sent := stateMachine.sent + [ModemStatusUpdate(previous, newStatus)];
    }

    method FailActiveCommand(reason: string)
      modifies stateMachine
      ensures Model() == Fail(old(Model()), reason)
    {
      stateMachine.FailActiveCommand(reason, gone);
    }

    /** Fails the command that is held, and goes offline. */
    method GoOffline(reason: string)
      modifies `status, stateMachine
      ensures Model() == SetStatusTo(Fail(old(Model()), reason), Offline)
    {
      FailActiveCommand(reason);
      SetStatus(Offline);
    }

    method HandleWorkerEvent(portAccepts: bool)
      requires stateMachine.workerEvents != []
      modifies `status, stateMachine
      ensures Model() == Worker.HandleWorkerEvent(old(Model()), portAccepts)
    {
      var event := stateMachine.workerEvents[0];
      stateMachine.workerEvents := stateMachine.workerEvents[1..];
      match event {
        case SetStatus(newStatus) => SetStatus(newStatus);
        case WriteCommand(_) =>
          var written := status == Online && portAccepts;
          if !written {
            GoOffline("Write failed");
          }
      }
    }

    /** A command from the channel, while online and idle. */
    method AcceptCommand(now: nat, decoder: Decoder)
      requires Enabled(Model(), Start(now))
      modifies `commands, stateMachine
      ensures Model() == Perform(old(Model()), Start(now), decoder)
    {
      var cmd := commands[0];
      commands := commands[1..];
      stateMachine.StartCommand(cmd, now);
    }

    /** The line events of one read, each with its error path. */
    method HandleLineEvents(events: seq<LineEvent>, decoder: Decoder)
      modifies stateMachine
      ensures stateMachine.Model() == HandleLines(old(stateMachine.Model()), events, decoder, gone)
    {
      var i := 0;
      while i < |events|
        invariant i <= |events|
        invariant HandleLines(stateMachine.Model(), events[i..], decoder, gone)
          == HandleLines(old(stateMachine.Model()), events, decoder, gone)
      {
        assert events[i..][0] == events[i] && events[i..][1..] == events[i + 1..];
        HandleLineEvent(events[i], decoder);
        i := i + 1;
      }
    }

    method HandleLineEvent(event: LineEvent, decoder: Decoder)
      modifies stateMachine
      ensures stateMachine.Model() == HandleLine(old(stateMachine.Model()), event, decoder, gone)
    {
      var ok := stateMachine.TransitionState(event, decoder, gone);
      if !ok {
        stateMachine.FailActiveCommand("State machine error", gone);
        stateMachine.ResetToIdle();
      }
    }

    method ReadBytes(data: string, decoder: Decoder)
      requires Enabled(Model(), Read(data))
      modifies stateMachine, lineBuffer
      ensures Model() == Perform(old(Model()), Read(data), decoder)
    {
      var events := lineBuffer.ProcessData(data);
      HandleLineEvents(events, decoder);
    }

    function StepOf(result: ReadResult): Step {
      match result
      case Bytes(data) => Read(data)
      case Closed => ReadNothing
      case Failed(error) => ReadFailed(error)
    }

    method HandleRead(result: ReadResult, decoder: Decoder)
      requires Enabled(Model(), StepOf(result))
      modifies `status, stateMachine, lineBuffer
      ensures Model() == Perform(old(Model()), StepOf(result), decoder)
    {
      match result {
        case Bytes(data) => ReadBytes(data, decoder);
        case Closed => GoOffline("Serial port closed");
        case Failed(error) => GoOffline("Read error: " + error);
      }
    }

    method HandleTick(now: nat, decoder: Decoder)
      requires Enabled(Model(), Tick(now))
      modifies stateMachine, lineBuffer
      ensures Model() == Perform(old(Model()), Tick(now), decoder)
    {
      var timedOut := stateMachine.HandleCommandTimeout(now, gone);
      if timedOut {
        lineBuffer.Clear();
      }
    }

    /** Answers the oldest queued command with an error. */
    method Refuse(reason: string)
      requires commands != []
      modifies `commands, stateMachine
      ensures Model() == TurnAway(old(Model()), reason)
    {
      var cmd := commands[0];
      commands := commands[1..];
      var _ := stateMachine.Respond(cmd, Error(reason), gone);
    }

    method ResetAll()
      modifies stateMachine, lineBuffer
      ensures Model() == Reset(old(Model()))
    {
      stateMachine.ResetToIdle();
      lineBuffer.Clear();
    }

    /** `connected` and `initialized` tell how the modem answers the test and the initialization. */
    method TryReconnect(connected: bool, initialized: bool) returns (reconnected: bool)
      modifies `status, stateMachine`sent
      ensures reconnected <==> old(status) == Offline && connected && initialized
      ensures Model() == if reconnected then SetStatusTo(old(Model()), Online) else old(Model())
    {
      if status != Offline || !connected || !initialized {
        return false;
      }
      SetStatus(Online);
      return true;
    }

    method HandleReconnectTick(connected: bool, initialized: bool, decoder: Decoder)
      requires Enabled(Model(), Reconnect(connected && initialized))
      modifies `status, stateMachine, lineBuffer
      ensures Model() == Perform(old(Model()), Reconnect(connected && initialized), decoder)
    {
      var reconnected := TryReconnect(connected, initialized);
      if reconnected {
        ResetAll();
      }
    }

    // --- the shutdown arm ---

    /** What other callers submit meanwhile, each at the command channel. */
    method Arrive(submissions: seq<Submission>, ghost start: State, ghost steps: seq<Step>, decoder: Decoder)
      returns (ghost steps': seq<Step>)
      requires Reached(start, steps, Model(), decoder)
      modifies `commands, `accepted
      ensures Reached(start, steps', Model(), decoder) && steps <= steps'
    {
      steps' := steps;
      var i := 0;
      while i < |submissions|
        invariant Reached(start, steps', Model(), decoder) && steps <= steps'
        invariant unchanged(`phase) && unchanged(`status)
      {
        var x := submissions[i];
        var _ := TrySend(x.sequence, x.request, x.timeout);
        ReachedNext(start, steps', Enqueue(x.sequence, x.request, x.timeout), decoder);
        steps' := steps' + [Enqueue(x.sequence, x.request, x.timeout)];
        i := i + 1;
      }
    }

    /** Processes any pending worker events; `accepts(n)` tells of the write with n events left. */
    method DrainEvents(accepts: nat -> bool, ghost start: State, ghost steps: seq<Step>, decoder: Decoder)
      returns (ghost steps': seq<Step>)
      requires phase == Draining && Reached(start, steps, Model(), decoder)
      modifies `status, stateMachine
      ensures Reached(start, steps', Model(), decoder) && steps <= steps' && stateMachine.workerEvents == []
    {
      steps' := steps;
      while stateMachine.workerEvents != []
        invariant Reached(start, steps', Model(), decoder) && steps <= steps'
        decreases |stateMachine.workerEvents|
      {
        ghost var s := HandleEvent(accepts(|stateMachine.workerEvents|));
        ReachedNext(start, steps', s, decoder);
        HandleWorkerEvent(accepts(|stateMachine.workerEvents|));
        steps' := steps' + [s];
      }
    }

    /** Rejects any pending commands, and those that arrive before the queue is found empty. */
    method RefuseAll(arrivals: seq<seq<Submission>>, ghost start: State, ghost steps: seq<Step>, decoder: Decoder)
      returns (ghost steps': seq<Step>, k: nat)
      requires phase == Refusing && Reached(start, steps, Model(), decoder)
      modifies `commands, `accepted, stateMachine
      ensures Reached(start, steps', Model(), decoder) && steps <= steps' && commands == [] && k <= |arrivals|
    {
      steps', k := steps, 0;
      while commands != []
        invariant Reached(start, steps', Model(), decoder) && steps <= steps' && k <= |arrivals|
        decreases |arrivals| - k, |commands|
      {
        ReachedNext(start, steps', Step.Refuse, decoder);
        Refuse("Modem is shutting down");
        steps' := steps' + [Step.Refuse];
        if k < |arrivals| {
          steps' := Arrive(arrivals[k], start, steps', decoder);
          k := k + 1;
        }
      }
    }

    /** Processes the events and fails the command that is held, while commands arrive. */
    method BeginShutdown(accepts: nat -> bool, early: seq<Submission>, decoder: Decoder)
      returns (ghost steps: seq<Step>)
      requires status == ShuttingDown && phase == Polling
      modifies `phase, `status, `commands, `accepted, stateMachine
      ensures Reached(old(Model()), steps, Model(), decoder) && phase == Refusing
      ensures steps != [] && steps[0] == EnterShutdown
    {
      ghost var start := Model();
      ReachedNext(start, [], EnterShutdown, decoder);
      phase := Draining;
      steps := [] + [EnterShutdown];
      steps := DrainEvents(accepts, start, steps, decoder);
      steps := Arrive(early, start, steps, decoder);
      ReachedNext(start, steps, FinishDraining, decoder);
      FailActiveCommand("Modem is shutting down");
      phase := Refusing;
      steps := steps + [FinishDraining];
    }

    /** Sleeps, while commands arrive, and goes offline. */
    method SleepAndWake(arrivals: seq<seq<Submission>>, ghost start: State, ghost steps: seq<Step>, decoder: Decoder)
      returns (ghost steps': seq<Step>)
      requires phase == Sleeping && Reached(start, steps, Model(), decoder)
      modifies `phase, `status, `commands, `accepted, stateMachine, lineBuffer
      ensures Reached(start, steps', Model(), decoder)
      ensures steps < steps' && steps'[|steps'| - 1] == Wake
      ensures status == Offline && phase == Polling && stateMachine.state == Idle && lineBuffer.buffer == ""
    {
      steps' := steps;
      var k := 0;
      while k < |arrivals|
        invariant Reached(start, steps', Model(), decoder) && phase == Sleeping && steps <= steps'
      {
        steps' := Arrive(arrivals[k], start, steps', decoder);
        k := k + 1;
      }
      ReachedNext(start, steps', Wake, decoder);
      SetStatus(Offline);
      ResetAll();
      phase := Polling;
      steps' := steps' + [Wake];
    }

    /**
     The shutdown arm, while commands arrive: some when the events are processed, some when the
     queue is refused, the others while the arm sleeps. It makes a run of the worker's steps, each
     of them enabled at its turn, that enters the shutdown arm first and leaves it last.
     */
    method ShutDown(accepts: nat -> bool, early: seq<Submission>, arrivals: seq<seq<Submission>>, decoder: Decoder)
      returns (ghost steps: seq<Step>)
      requires status == ShuttingDown && phase == Polling
      modifies `phase, `status, `commands, `accepted, stateMachine, lineBuffer
      ensures Reached(old(Model()), steps, Model(), decoder)
      ensures |steps| > 1 && steps[0] == EnterShutdown && steps[|steps| - 1] == Wake
      ensures status == Offline && phase == Polling && stateMachine.state == Idle && lineBuffer.buffer == ""
    {
      ghost var start := Model();
      var k;
      steps := BeginShutdown(accepts, early, decoder);
      steps, k := RefuseAll(arrivals, start, steps, decoder);
      ReachedNext(start, steps, FinishRefusing, decoder);
      phase := Sleeping;
      steps := steps + [FinishRefusing];
      steps := SleepAndWake(arrivals[k..], start, steps, decoder);
    }
  }

  datatype Submission = Submission(sequence: nat, request: ModemRequest, timeout: Option<nat>)

  /** Every step is enabled at its turn. */
  predicate Allowed(w: State, steps: seq<Step>, decoder: Decoder)
    decreases |steps|
  {
    steps == [] || (Enabled(w, steps[0]) && Allowed(Perform(w, steps[0], decoder), steps[1..], decoder))
  }

  /** The steps lead from `start` to `w`, each of them enabled at its turn. */
  predicate Reached(start: State, steps: seq<Step>, w: State, decoder: Decoder) {
    Allowed(start, steps, decoder) && Run(start, steps, decoder) == w
  }

  lemma {:induction false} AllowedNext(w: State, steps: seq<Step>, s: Step, decoder: Decoder)
    requires Allowed(w, steps, decoder) && Enabled(Run(w, steps, decoder), s)
    ensures Allowed(w, steps + [s], decoder)
    decreases |steps|
  {
    if steps == [] {
      assert [] + [s] == [s] && [s][1..] == [];
    } else {
      assert (steps + [s])[1..] == steps[1..] + [s];
      AllowedNext(Perform(w, steps[0], decoder), steps[1..], s, decoder);
    }
  }

  lemma ReachedNext(start: State, steps: seq<Step>, s: Step, decoder: Decoder)
    requires Allowed(start, steps, decoder) && Enabled(Run(start, steps, decoder), s)
    ensures Reached(start, steps + [s], Perform(Run(start, steps, decoder), s, decoder), decoder)
  {
    AllowedNext(start, steps, s, decoder);
    RunConcat(start, steps, [s], decoder);
  }
}
