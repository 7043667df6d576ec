/**
 The single-flight AT command state machine of src/modem/state_machine.rs, on values.

 A `Machine` holds the state and, as ledgers, everything the machine has sent: events to the
 worker, messages to the program, replies on the commands' one-shot channels, and the channels
 whose sending half went out of scope without a reply.
 */
module StateMachine {
  import opened Text
  import opened Framing
  import opened Types
  import opened Handlers

  datatype CommandExecution = CommandExecution(context: CommandContext, command: OutgoingCommand, timeoutAt: nat)

  datatype MachineState =
    | Idle
    | Command(execution: CommandExecution)
    | Unsolicited(kind: UnsolicitedMessageKind, interrupted: Option<CommandExecution>)

  /** One use of a reply channel; `delivered` is false when its receiver was gone. */
  datatype Reply = Reply(channel: nat, response: ModemResponse, delivered: bool)

  datatype Machine = Machine(
    state: MachineState,
    queue: seq<WorkerEvent>,
    sent: seq<ModemIncomingMessage>,
    replies: seq<Reply>,
    dropped: seq<nat>)

  datatype Outcome = Outcome(machine: Machine, ok: bool)

  /** The command that a state owns, active or interrupted. */
  function Held(state: MachineState): Option<CommandExecution> {
    match state
    case Idle => None
    case Command(execution) => Some(execution)
    case Unsolicited(_, interrupted) => interrupted
  }

  /** The reply channel that is dropped with a state. */
  function OpenChannels(state: MachineState): seq<nat> {
    match Held(state)
    case Some(execution) => if execution.command.open then [execution.command.channel] else []
    case None => []
  }

  /** Assignment to `self.state`: the old state, and what it owns, goes out of scope. */
  function Assign(m: Machine, state: MachineState): Machine {
    m.(state := state, dropped := m.dropped + OpenChannels(m.state))
  }

  /** `OutgoingCommand::respond` on a command that is discarded afterwards. */
  function Respond(m: Machine, command: OutgoingCommand, response: ModemResponse, gone: set<nat>): Outcome {
    if command.open then
      var delivered := command.channel !in gone;
      Outcome(m.(replies := m.replies + [Reply(command.channel, response, delivered)]), delivered)
    else Outcome(m, false)
  }

  function ResetToIdle(m: Machine): Machine {
    Assign(m, Idle)
  }

  function FailActiveCommand(m: Machine, reason: string, gone: set<nat>): Machine {
    match Held(m.state)
    case Some(execution) => Respond(m.(state := Idle), execution.command, Error(reason), gone).machine
    case None => m
  }

  function StartCommand(m: Machine, cmd: OutgoingCommand, now: nat): Machine {
    var (event, state) := CommandSender(cmd.request);
    var context := CommandContext(cmd.sequence, state, "");
    var execution := CommandExecution(context, cmd, now + cmd.RequestTimeout());
    Assign(m.(queue := m.queue + [event]), Command(execution))
  }

  /** `handle_command_timeout`; the outcome says whether the worker sees a timeout. */
  function HandleCommandTimeout(m: Machine, now: nat, gone: set<nat>): Outcome {
    if m.state.Command? && now >= m.state.execution.timeoutAt then
      Respond(m.(state := Idle), m.state.execution.command, Error("Command timed out!"), gone)
    else Outcome(m, false)
  }

  function ClassifyLine(state: MachineState, content: string): ModemEvent {
    var trimmed := Trim(content);
    match FromHeader(trimmed)
    case Some(kind) => UnsolicitedMessage(kind, trimmed)
    case None =>
      if state.Command? && (WaitingForOk.IsComplete(trimmed)
                            || StartsWith(trimmed, state.execution.command.request.ExpectedResponsePrefix()))
      then CommandResponse(trimmed)
      else Data(trimmed)
  }

  function Classify(state: MachineState, event: LineEvent): ModemEvent {
    match event
    case Line(content) => ClassifyLine(state, content)
    case Prompt(content) => PromptReceived(content)
  }

  function HandleUnsolicited(m: Machine, kind: UnsolicitedMessageKind, content: string, decoder: Decoder): Machine {
    match HandleUnsolicitedMessage(kind, content, decoder)
    case Emit(message) => m.(sent := m.sent + [message])
    case Raise(event) => m.(queue := m.queue + [event])
    case Nothing => m
  }

  function Finish(m: Machine, execution: CommandExecution, response: ModemResponse, gone: set<nat>): Outcome {
    Respond(m.(state := Idle), execution.command, response, gone)
  }

  function Buffered(execution: CommandExecution, content: string): CommandExecution {
    execution.(context := execution.context.(responseBuffer := execution.context.responseBuffer + content + "\n"))
  }

  /** A line of a command's response. */
  function ProcessResponse(m: Machine, execution: CommandExecution, content: string,
                           decoder: Decoder, gone: set<nat>): Outcome {
    var next := Buffered(execution, content);
    if execution.context.state.IsComplete(content) then
      Finish(m, next, Answer(execution.command.request, next.context.responseBuffer, decoder), gone)
    else Outcome(m.(state := Command(next)), true)
  }

  function ProcessPrompt(m: Machine, execution: CommandExecution, gone: set<nat>): Outcome {
    match PromptHandler(execution.command.request)
    case Some((event, state)) =>
      var next := execution.(context := execution.context.(state := state));
      Outcome(m.(queue := m.queue + [event], state := Command(next)), true)
    case None => Finish(m, execution, Error("Command completed during prompt handling"), gone)
  }

  /** An unsolicited header while idle or in a command, which `held` then is. */
  function BeginUnsolicited(m: Machine, held: Option<CommandExecution>, kind: UnsolicitedMessageKind,
                            header: string, decoder: Decoder): Machine {
    if kind.HasNextLine() then m.(state := Unsolicited(kind, held))
    else HandleUnsolicited(m, kind, header, decoder)
  }

  /** The payload line of an unsolicited message, after which an interrupted command resumes. */
  function EndUnsolicited(m: Machine, held: Option<CommandExecution>, kind: UnsolicitedMessageKind,
                          content: string, decoder: Decoder): Machine {
    var state := match held case Some(execution) => Command(execution) case None => Idle;
    HandleUnsolicited(m, kind, content, decoder).(state := state)
  }

  function ProcessEvent(m: Machine, event: ModemEvent, decoder: Decoder, gone: set<nat>): Outcome {
    match m.state
    case Unsolicited(kind, held) =>
      if event.Data? then Outcome(EndUnsolicited(m, held, kind, event.content, decoder), true)
      else Outcome(Assign(m, Idle), false)  // invalid state transition
    case Command(execution) =>
      (match event
       case UnsolicitedMessage(kind, header) =>
         Outcome(BeginUnsolicited(m, Some(execution), kind, header, decoder), true)
       case PromptReceived(_) => ProcessPrompt(m, execution, gone)
       case CommandResponse(content) => ProcessResponse(m, execution, content, decoder, gone)
       case Data(content) => ProcessResponse(m, execution, content, decoder, gone))
    case Idle =>
      match event
      case UnsolicitedMessage(kind, header) => Outcome(BeginUnsolicited(m, None, kind, header, decoder), true)
      case _ => Outcome(m, true)  // unexpected while idle
  }

  function TransitionState(m: Machine, event: LineEvent, decoder: Decoder, gone: set<nat>): Outcome {
    ProcessEvent(m, Classify(m.state, event), decoder, gone)
  }

  /** One line event in the worker's read loop, with its error path. */
  function HandleLine(m: Machine, event: LineEvent, decoder: Decoder, gone: set<nat>): Machine {
    var o := TransitionState(m, event, decoder, gone);
    if o.ok then o.machine
    else ResetToIdle(FailActiveCommand(o.machine, "State machine error", gone))
  }

  function HandleLines(m: Machine, events: seq<LineEvent>, decoder: Decoder, gone: set<nat>): Machine
    decreases |events|
  {
    if events == [] then m
    else HandleLines(HandleLine(m, events[0], decoder, gone), events[1..], decoder, gone)
  }

  lemma {:induction false} HandleLinesConcat(m: Machine, a: seq<LineEvent>, b: seq<LineEvent>,
                                             decoder: Decoder, gone: set<nat>)
    ensures HandleLines(m, a + b, decoder, gone) == HandleLines(HandleLines(m, a, decoder, gone), b, decoder, gone)
    decreases |a|
  {
    if a == [] {
      assert a + b == b;
    } else {
      assert (a + b)[1..] == a[1..] + b;
      HandleLinesConcat(HandleLine(m, a[0], decoder, gone), a[1..], b, decoder, gone);
    }
  }

  /** A failed transition has nothing left to fail or reset: the error path changes nothing. */
  lemma ErrorPathIdle(m: Machine, event: LineEvent, decoder: Decoder, gone: set<nat>)
    ensures var o := TransitionState(m, event, decoder, gone);
      (!o.ok ==> o.machine.state == Idle) && HandleLine(m, event, decoder, gone) == o.machine
  {
    var o := TransitionState(m, event, decoder, gone);
    if !o.ok {
      assert o.machine.dropped + [] == o.machine.dropped;
    }
  }

  /**
   What a line does depends on whether it is the header of an unsolicited message, and no more of
   its class: the prefix that a command expects of its response plays no part.
   */
  lemma PrefixPlaysNoPart(m: Machine, content: string, decoder: Decoder, gone: set<nat>)
    ensures var line := Trim(content);
      TransitionState(m, Line(content), decoder, gone) ==
        ProcessEvent(m, if FromHeader(line).Some? then UnsolicitedMessage(FromHeader(line).value, line) else Data(line),
                     decoder, gone)
  {
  }

  // --- what a line does to the command ---

  /** Every held command can still be answered. */
  predicate Answerable(state: MachineState) {
    Held(state).Some? ==> Held(state).value.command.open
  }

  /** A line event that the state machine has no valid transition for. */
  predicate Misplaced(state: MachineState, event: LineEvent) {
    state.Unsolicited? && (event.Prompt? || FromHeader(Trim(event.content)).Some?)
  }

  function HeldChannels(state: MachineState): seq<nat> {
    match Held(state)
    case Some(execution) => [execution.command.channel]
    case None => []
  }

  /** The command, its deadline and its place are what they were; nothing is answered or lost. */
  predicate Kept(m: Machine, n: Machine) {
    && n.replies == m.replies && n.dropped == m.dropped
    && (Held(m.state).Some? <==> Held(n.state).Some?)
    && (Held(m.state).Some? ==>
          Held(n.state).value.command == Held(m.state).value.command &&
          Held(n.state).value.timeoutAt == Held(m.state).value.timeoutAt &&
          Held(n.state).value.context.sequence == Held(m.state).value.context.sequence)
  }

  /** The command has been given one reply, fitting its request, and is gone. */
  predicate Answered(m: Machine, n: Machine) {
    && Held(m.state).Some? && Held(n.state).None? && n.dropped == m.dropped
    && |n.replies| == |m.replies| + 1 && n.replies[..|m.replies|] == m.replies
    && var reply := n.replies[|m.replies|];
       reply.channel == Held(m.state).value.command.channel && Fits(Held(m.state).value.command.request, reply.response)
  }

  /** The command has been lost without a reply. */
  predicate Dropped(m: Machine, n: Machine) {
    n.replies == m.replies && Held(n.state).None? && n.dropped == m.dropped + HeldChannels(m.state)
  }

  lemma RespondAnswers(m: Machine, execution: CommandExecution, response: ModemResponse, gone: set<nat>)
    requires Held(m.state) == Some(execution) && execution.command.open && Fits(execution.command.request, response)
    ensures Answered(m, Respond(m.(state := Idle), execution.command, response, gone).machine)
  {
  }

  lemma FailAnswers(m: Machine, reason: string, gone: set<nat>)
    requires Answerable(m.state)
    ensures var n := FailActiveCommand(m, reason, gone);
      if Held(m.state).Some? then Answered(m, n) && n.state == Idle else n == m
  {
    if Held(m.state).Some? {
      RespondAnswers(m, Held(m.state).value, Error(reason), gone);
    }
  }

  lemma TimeoutAnswers(m: Machine, now: nat, gone: set<nat>)
    requires Answerable(m.state)
    ensures var n := HandleCommandTimeout(m, now, gone).machine;
      if m.state.Command? && now >= m.state.execution.timeoutAt then Answered(m, n) && n.state == Idle else n == m
  {
    if m.state.Command? {
      RespondAnswers(m, m.state.execution, Error("Command timed out!"), gone);
    }
  }

  lemma UnsolicitedKeeps(m: Machine, kind: UnsolicitedMessageKind, content: string, decoder: Decoder)
    ensures var n := HandleUnsolicited(m, kind, content, decoder);
      n.state == m.state && n.replies == m.replies && n.dropped == m.dropped
  {
  }

  lemma ResponseMoves(m: Machine, execution: CommandExecution, content: string, decoder: Decoder, gone: set<nat>)
    requires m.state == Command(execution) && execution.command.open
    ensures var n := ProcessResponse(m, execution, content, decoder, gone).machine;
      if execution.context.state.IsComplete(content) then Answered(m, n) else Kept(m, n)
  {
    var next := Buffered(execution, content);
    RespondAnswers(m, execution, Answer(execution.command.request, next.context.responseBuffer, decoder), gone);
  }

  lemma PromptMoves(m: Machine, execution: CommandExecution, gone: set<nat>)
    requires m.state == Command(execution) && execution.command.open
    ensures var n := ProcessPrompt(m, execution, gone).machine;
      if execution.command.request.SendSMS? then Kept(m, n) else Answered(m, n)
  {
    RespondAnswers(m, execution, Error("Command completed during prompt handling"), gone);
  }

  lemma CommandMoves(m: Machine, event: ModemEvent, decoder: Decoder, gone: set<nat>)
    requires m.state.Command? && Answerable(m.state)
    ensures var n := ProcessEvent(m, event, decoder, gone).machine; Kept(m, n) || Answered(m, n)
  {
    var execution := m.state.execution;
    match event
    case UnsolicitedMessage(kind, header) => UnsolicitedKeeps(m, kind, header, decoder);
    case PromptReceived(_) => PromptMoves(m, execution, gone);
    case CommandResponse(content) => ResponseMoves(m, execution, content, decoder, gone);
    case Data(content) => ResponseMoves(m, execution, content, decoder, gone);
  }

  /**
   A line event leaves the command where it is, or answers it once, or drops it: the last exactly
   when the event is misplaced, a prompt or a header where a payload line was due.
   */
  lemma LineMoves(m: Machine, event: LineEvent, decoder: Decoder, gone: set<nat>)
    requires Answerable(m.state)
    ensures var n := HandleLine(m, event, decoder, gone);
      if Misplaced(m.state, event) then Dropped(m, n) && n.state == Idle
      else (Kept(m, n) || Answered(m, n)) && Answerable(n.state)
  {
    ErrorPathIdle(m, event, decoder, gone);
    var e := Classify(m.state, event);
    match m.state
    case Idle =>
      if e.UnsolicitedMessage? { UnsolicitedKeeps(m, e.kind, e.header, decoder); }
    case Command(_) =>
      CommandMoves(m, e, decoder, gone);
    case Unsolicited(kind, _) =>
      if e.Data? { UnsolicitedKeeps(m, kind, e.content, decoder); }
  }

  /** Replies are never taken back. */
  lemma {:induction false} RepliesGrow(m: Machine, events: seq<LineEvent>, decoder: Decoder, gone: set<nat>)
    requires Answerable(m.state)
    ensures m.replies <= HandleLines(m, events, decoder, gone).replies
    decreases |events|
  {
    if events != [] {
      LineMoves(m, events[0], decoder, gone);
      RepliesGrow(HandleLine(m, events[0], decoder, gone), events[1..], decoder, gone);
    }
  }

  /** Which receivers are gone matters for the held command's only. */
  predicate SameReceiver(state: MachineState, gone: set<nat>, later: set<nat>) {
    Held(state).Some? ==> var channel := Held(state).value.command.channel; (channel in gone <==> channel in later)
  }

  lemma LineSame(m: Machine, event: LineEvent, decoder: Decoder, gone: set<nat>, later: set<nat>)
    requires SameReceiver(m.state, gone, later)
    ensures HandleLine(m, event, decoder, gone) == HandleLine(m, event, decoder, later)
  {
    ErrorPathIdle(m, event, decoder, gone);
    ErrorPathIdle(m, event, decoder, later);
  }

  lemma {:induction false} LinesSame(m: Machine, events: seq<LineEvent>, decoder: Decoder, gone: set<nat>,
                                     later: set<nat>)
    requires Answerable(m.state) && SameReceiver(m.state, gone, later)
    ensures HandleLines(m, events, decoder, gone) == HandleLines(m, events, decoder, later)
    decreases |events|
  {
    if events != [] {
      LineSame(m, events[0], decoder, gone, later);
      LineMoves(m, events[0], decoder, gone);
      LinesSame(HandleLine(m, events[0], decoder, gone), events[1..], decoder, gone, later);
    }
  }

  // --- the ledger of commands ---

  function RepliedChannels(replies: seq<Reply>): seq<nat> {
    if replies == [] then [] else [replies[0].channel] + RepliedChannels(replies[1..])
  }

  lemma {:induction false} RepliedAppend(replies: seq<Reply>, r: Reply)
    ensures RepliedChannels(replies + [r]) == RepliedChannels(replies) + [r.channel]
  {
    if replies != [] {
      assert (replies + [r])[1..] == replies[1..] + [r];
      RepliedAppend(replies[1..], r);
    } else {
      assert (replies + [r])[1..] == [];
    }
  }

  /** Every command the machine has taken, wherever it is now. */
  function Ledger(m: Machine): multiset<nat> {
    multiset(HeldChannels(m.state)) + multiset(RepliedChannels(m.replies)) + multiset(m.dropped)
  }

  lemma AnsweredLedger(m: Machine, n: Machine)
    requires Answered(m, n)
    ensures Ledger(n) == Ledger(m)
  {
    var r := n.replies[|m.replies|];
    assert n.replies == m.replies + [r];
    RepliedAppend(m.replies, r);
    assert HeldChannels(n.state) == [] && HeldChannels(m.state) == [r.channel];
  }

  lemma DroppedLedger(m: Machine, n: Machine)
    requires Dropped(m, n)
    ensures Ledger(n) == Ledger(m)
  {
    assert HeldChannels(n.state) == [];
  }

  lemma MovesLedger(m: Machine, n: Machine)
    requires Kept(m, n) || Answered(m, n) || Dropped(m, n)
    ensures Ledger(n) == Ledger(m)
  {
    if Answered(m, n) {
      AnsweredLedger(m, n);
    } else if Dropped(m, n) {
      DroppedLedger(m, n);
    } else {
      assert HeldChannels(n.state) == HeldChannels(m.state);
    }
  }
}
