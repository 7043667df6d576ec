/**
 The modem worker of src/modem/worker.rs as a state machine over its steps: one arm of its
 `select!` loops, one iteration of its shutdown loops, or one act of the rest of the program at
 the channels it shares with the worker.
 */
module Worker {
  import opened Text
  import opened Framing
  import opened Chunking
  import opened Types
  import opened Handlers
  import opened StateMachine

  /** Where the worker stands: at the head of its loop, or inside the shutdown arm. */
  datatype Phase = Polling | Draining | Refusing | Sleeping

  /**
   `accepted` is the ledger of the requests taken by the command channel; the command with request
   `accepted[c]` has reply channel `c`. `gone` are the reply channels whose receiver is gone.
   */
  datatype State = State(
    status: ModemStatus,
    phase: Phase,
    machine: Machine,
    buffer: string,
    max: nat,
    commands: seq<OutgoingCommand>,
    capacity: nat,
    accepted: seq<ModemRequest>,
    gone: set<nat>)

  datatype Step =
    | Enqueue(sequence: nat, request: ModemRequest, timeout: Option<nat>)
    | Abandon(channel: nat)
    | HandleEvent(portAccepts: bool)
    | Start(now: nat)
    | Read(data: string)
    | ReadNothing
    | ReadFailed(error: string)
    | Tick(now: nat)
    | EnterShutdown
    | FinishDraining
    | Refuse
    | FinishRefusing
    | Wake
    | Reject
    | Reconnect(success: bool)

  /** The loop of `run` is biased towards worker events, and each arm has its own condition. */
  predicate Enabled(w: State, s: Step) {
    var listening := w.phase == Polling && w.status == Online && w.machine.queue == [];
    match s
    case Enqueue(_, _, _) => true
    case Abandon(_) => true
    case HandleEvent(_) =>
      w.machine.queue != [] && (w.phase == Draining || (w.phase == Polling && (w.status.Online? || w.status.Offline?)))
    case Start(_) => listening && w.machine.state == Idle && w.commands != []
    case Read(_) => listening
    case ReadNothing => listening
    case ReadFailed(_) => listening
    case Tick(_) => listening
    case EnterShutdown => w.phase == Polling && w.status == ShuttingDown
    case FinishDraining => w.phase == Draining && w.machine.queue == []
    case Refuse => w.phase == Refusing && w.commands != []
    case FinishRefusing => w.phase == Refusing && w.commands == []
    case Wake => w.phase == Sleeping
    case Reject => w.phase == Polling && w.status == Offline && w.commands != []
    case Reconnect(_) => w.phase == Polling && w.status == Offline
  }

  function SetStatusTo(w: State, status: ModemStatus): State {
    if w.status == status then w
    else
      var update := ModemStatusUpdate(w.status, status);
      w.(status := status, machine := w.machine.(sent := w.machine.sent + [update]))
  }

  function Fail(w: State, reason: string): State {
    w.(machine := FailActiveCommand(w.machine, reason, w.gone))
  }

  function Reset(w: State): State {
    w.(machine := ResetToIdle(w.machine), buffer := "")
  }

  /** `handle_worker_event` on the oldest event; the port is written to only while online. */
  function HandleWorkerEvent(w: State, portAccepts: bool): State
    requires w.machine.queue != []
  {
    var next := w.(machine := w.machine.(queue := w.machine.queue[1..]));
    match w.machine.queue[0]
    case SetStatus(status) => SetStatusTo(next, status)
    case WriteCommand(_) =>
      if w.status == Online && portAccepts then next
      else SetStatusTo(Fail(next, "Write failed"), Offline)
  }

  /** Answers the oldest queued command with an error. */
  function TurnAway(w: State, reason: string): State
    requires w.commands != []
  {
    w.(commands := w.commands[1..],
       machine := Respond(w.machine, w.commands[0], Error(reason), w.gone).machine)
  }

  /** `ModemSender::send_request` at the command channel: refused when the channel is full. */
  function Submit(w: State, sequence: nat, request: ModemRequest, timeout: Option<nat>): State {
    if |w.commands| >= w.capacity then w
    else w.(commands := w.commands + [OutgoingCommand(sequence, request, timeout, |w.accepted|, true)],
            accepted := w.accepted + [request])
  }

  function Perform(w: State, s: Step, decoder: Decoder): State
    requires Enabled(w, s)
  {
    match s
    case Enqueue(sequence, request, timeout) => Submit(w, sequence, request, timeout)
    case Abandon(channel) => w.(gone := w.gone + {channel})
    case HandleEvent(portAccepts) => HandleWorkerEvent(w, portAccepts)
    case Start(now) =>
      w.(commands := w.commands[1..], machine := StartCommand(w.machine, w.commands[0], now))
    case Read(data) =>
      w.(machine := HandleLines(w.machine, Events(w.buffer + data), decoder, w.gone),
         buffer := Keep(Rest(w.buffer + data), w.max))
    case ReadNothing => SetStatusTo(Fail(w, "Serial port closed"), Offline)
    case ReadFailed(error) => SetStatusTo(Fail(w, "Read error: " + error), Offline)
    case Tick(now) =>
      var o := HandleCommandTimeout(w.machine, now, w.gone);
      w.(machine := o.machine, buffer := if o.ok then "" else w.buffer)
    case EnterShutdown => w.(phase := Draining)
    case FinishDraining => Fail(w, "Modem is shutting down").(phase := Refusing)
    case Refuse => TurnAway(w, "Modem is shutting down")
    case FinishRefusing => w.(phase := Sleeping)
    case Wake => Reset(SetStatusTo(w, Offline)).(phase := Polling)
    case Reject => TurnAway(w, "Modem is offline")
    case Reconnect(success) => if success then Reset(SetStatusTo(w, Online)) else w
  }

  /** The worker as `initialize_and_run` leaves it before its loop. */
  function Initial(online: bool, max: nat, capacity: nat): State {
    SetStatusTo(State(Startup, Polling, Machine(Idle, [], [], [], []), "", max, [], capacity, [], {}),
                if online then Online else Offline)
  }

  /** Any run: steps that are not enabled when their turn comes are passed over. */
  function Run(w: State, steps: seq<Step>, decoder: Decoder): State
    decreases |steps|
  {
    if steps == [] then w
    else Run(if Enabled(w, steps[0]) then Perform(w, steps[0], decoder) else w, steps[1..], decoder)
  }

  lemma {:induction false} RunConcat(w: State, a: seq<Step>, b: seq<Step>, decoder: Decoder)
    ensures Run(w, a + b, decoder) == Run(Run(w, a, decoder), b, decoder)
    decreases |a|
  {
    if a == [] {
      assert a + b == b;
    } else {
      assert (a + b)[1..] == a[1..] + b;
      RunConcat(if Enabled(w, a[0]) then Perform(w, a[0], decoder) else w, a[1..], b, decoder);
    }
  }

  lemma RunCons(w: State, s: Step, steps: seq<Step>, decoder: Decoder)
    requires Enabled(w, s)
    ensures Run(w, [s] + steps, decoder) == Run(Perform(w, s, decoder), steps, decoder)
  {
    assert ([s] + steps)[1..] == steps;
  }

  lemma RunThrough(w: State, steps: seq<Step>, s: Step, rest: seq<Step>, decoder: Decoder)
    requires Enabled(Run(w, steps, decoder), s)
    ensures Run(w, steps + ([s] + rest), decoder) == Run(Perform(Run(w, steps, decoder), s, decoder), rest, decoder)
  {
    RunConcat(w, steps, [s] + rest, decoder);
    RunCons(Run(w, steps, decoder), s, rest, decoder);
  }

  // --- what the machine keeps ---

  function Range(n: nat): seq<nat> {
    if n == 0 then [] else Range(n - 1) + [n - 1]
  }

  lemma {:induction false} RangeCount(n: nat, c: nat)
    ensures multiset(Range(n))[c] == if c < n then 1 else 0
  {
    if n > 0 { RangeCount(n - 1, c); }
  }

  predicate HeldIsAccepted(state: MachineState, accepted: seq<ModemRequest>) {
    Held(state).Some? ==>
      var command := Held(state).value.command;
      command.open && command.channel < |accepted| && command.request == accepted[command.channel]
  }

  predicate RepliesFit(replies: seq<Reply>, accepted: seq<ModemRequest>) {
    forall r :: r in replies ==> r.channel < |accepted| && Fits(accepted[r.channel], r.response)
  }

  predicate OnlyShutdowns(queue: seq<WorkerEvent>) {
    forall e :: e in queue && e.SetStatus? ==> e.status == ShuttingDown
  }

  function Updates(sent: seq<ModemIncomingMessage>): seq<ModemIncomingMessage> {
    if sent == [] then []
    else (if sent[0].ModemStatusUpdate? then [sent[0]] else []) + Updates(sent[1..])
  }

  lemma {:induction false} UpdatesAppend(sent: seq<ModemIncomingMessage>, message: ModemIncomingMessage)
    ensures Updates(sent + [message]) ==
      Updates(sent) + if message.ModemStatusUpdate? then [message] else []
  {
    if sent == [] {
      assert (sent + [message])[1..] == [];
    } else {
      assert (sent + [message])[0] == sent[0] && (sent + [message])[1..] == sent[1..] + [message];
      UpdatesAppend(sent[1..], message);
    }
  }

  /** The part of the invariant that speaks of the machine and the ledger of `taken` commands. */
  ghost predicate MachineInv(m: Machine, accepted: seq<ModemRequest>, taken: nat) {
    && taken <= |accepted|
    && HeldIsAccepted(m.state, accepted)
    && RepliesFit(m.replies, accepted)
    && Ledger(m) == multiset(Range(taken))
  }

  lemma MovesInv(m: Machine, n: Machine, accepted: seq<ModemRequest>, taken: nat)
    requires MachineInv(m, accepted, taken)
    requires Kept(m, n) || Answered(m, n) || (Dropped(m, n) && n.state == Idle)
    ensures MachineInv(n, accepted, taken)
  {
    MovesLedger(m, n);
    if Answered(m, n) {
      assert n.replies == m.replies + [n.replies[|m.replies|]];
    }
  }

  /** A line event adds at most one message, never a status update, and raises only shutdowns. */
  predicate Quiet(m: Machine, n: Machine) {
    && (OnlyShutdowns(m.queue) ==> OnlyShutdowns(n.queue))
    && (n.sent == m.sent ||
        (n.sent != [] && n.sent[..|n.sent| - 1] == m.sent && !n.sent[|n.sent| - 1].ModemStatusUpdate?))
  }

  lemma UnsolicitedQuiet(m: Machine, kind: UnsolicitedMessageKind, content: string, decoder: Decoder)
    ensures Quiet(m, HandleUnsolicited(m, kind, content, decoder))
  {
  }

  lemma ResponseQuiet(m: Machine, execution: CommandExecution, content: string, decoder: Decoder, gone: set<nat>)
    ensures Quiet(m, ProcessResponse(m, execution, content, decoder, gone).machine)
  {
  }

  lemma PromptQuiet(m: Machine, execution: CommandExecution, gone: set<nat>)
    ensures Quiet(m, ProcessPrompt(m, execution, gone).machine)
  {
  }

  lemma LineQuiet(m: Machine, event: LineEvent, decoder: Decoder, gone: set<nat>)
    ensures Quiet(m, HandleLine(m, event, decoder, gone))
  {
    ErrorPathIdle(m, event, decoder, gone);
    var e := Classify(m.state, event);
    match m.state
    case Idle =>
      if e.UnsolicitedMessage? { UnsolicitedQuiet(m, e.kind, e.header, decoder); }
    case Unsolicited(kind, _) =>
      if e.Data? { UnsolicitedQuiet(m, kind, e.content, decoder); }
    case Command(x) =>
      match e
      case UnsolicitedMessage(kind, header) => UnsolicitedQuiet(m, kind, header, decoder);
      case PromptReceived(_) => PromptQuiet(m, x, gone);
      case CommandResponse(content) => ResponseQuiet(m, x, content, decoder, gone);
      case Data(content) => ResponseQuiet(m, x, content, decoder, gone);
  }

  /** The commands that a read loses: one for each misplaced event that finds a command held. */
  function Lost(m: Machine, events: seq<LineEvent>, decoder: Decoder, gone: set<nat>): seq<nat>
    decreases |events|
  {
    if events == [] then []
    else (if Misplaced(m.state, events[0]) then HeldChannels(m.state) else [])
         + Lost(HandleLine(m, events[0], decoder, gone), events[1..], decoder, gone)
  }

  lemma LineUpdates(m: Machine, event: LineEvent, decoder: Decoder, gone: set<nat>)
    ensures Updates(HandleLine(m, event, decoder, gone).sent) == Updates(m.sent)
    ensures OnlyShutdowns(m.queue) ==> OnlyShutdowns(HandleLine(m, event, decoder, gone).queue)
  {
    var n := HandleLine(m, event, decoder, gone);
    LineQuiet(m, event, decoder, gone);
    if n.sent != m.sent {
      var last := n.sent[|n.sent| - 1];
      assert n.sent == m.sent + [last];
      UpdatesAppend(m.sent, last);
    }
  }

  lemma LineInv(m: Machine, event: LineEvent, decoder: Decoder, gone: set<nat>,
                accepted: seq<ModemRequest>, taken: nat)
    requires MachineInv(m, accepted, taken)
    ensures MachineInv(HandleLine(m, event, decoder, gone), accepted, taken)
  {
    LineMoves(m, event, decoder, gone);
    MovesInv(m, HandleLine(m, event, decoder, gone), accepted, taken);
  }

  lemma {:induction false} LinesInv(m: Machine, events: seq<LineEvent>, decoder: Decoder, gone: set<nat>,
                                    accepted: seq<ModemRequest>, taken: nat)
    requires MachineInv(m, accepted, taken)
    ensures MachineInv(HandleLines(m, events, decoder, gone), accepted, taken)
    decreases |events|
  {
    if events != [] {
      LineInv(m, events[0], decoder, gone, accepted, taken);
      LinesInv(HandleLine(m, events[0], decoder, gone), events[1..], decoder, gone, accepted, taken);
    }
  }

  lemma {:induction false} LinesLost(m: Machine, events: seq<LineEvent>, decoder: Decoder, gone: set<nat>)
    requires Answerable(m.state)
    ensures HandleLines(m, events, decoder, gone).dropped == m.dropped + Lost(m, events, decoder, gone)
    decreases |events|
  {
    if events != [] {
      var n := HandleLine(m, events[0], decoder, gone);
      LineMoves(m, events[0], decoder, gone);
      LinesLost(n, events[1..], decoder, gone);
      Reassociate(m.dropped, if Misplaced(m.state, events[0]) then HeldChannels(m.state) else [],
                  Lost(n, events[1..], decoder, gone));
    }
  }

  lemma {:induction false} LinesUpdates(m: Machine, events: seq<LineEvent>, decoder: Decoder, gone: set<nat>)
    ensures Updates(HandleLines(m, events, decoder, gone).sent) == Updates(m.sent)
    ensures OnlyShutdowns(m.queue) ==> OnlyShutdowns(HandleLines(m, events, decoder, gone).queue)
    decreases |events|
  {
    if events != [] {
      LineUpdates(m, events[0], decoder, gone);
      LinesUpdates(HandleLine(m, events[0], decoder, gone), events[1..], decoder, gone);
    }
  }
}
