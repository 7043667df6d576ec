/**
 The object of src/modem/state_machine.rs, whose methods change its state in place. Each is proved
 against the function of `StateMachine` that it carries out.
 */
module StateMachineObject {
  import opened Framing
  import opened Types
  import opened Handlers
  import opened StateMachine

  class ModemStateMachine {
    var state: MachineState
    /** The events sent to the worker and not yet received by it. */
    var workerEvents: seq<WorkerEvent>
    /** Ledgers: the messages sent to the program, the replies, and the channels dropped unused. */
    var sent: seq<ModemIncomingMessage>
    var replies: seq<Reply>
    var dropped: seq<nat>

    ghost function Model(): Machine
      reads this
    {
      Machine(state, workerEvents, sent, replies, dropped)
    }

    constructor ()
      ensures Model() == Machine(Idle, [], [], [], [])
    {
      state := Idle;
      workerEvents := [];
      sent := [];
      replies := [];
      dropped := [];
    }

    predicate CanAcceptCommand()
      reads this
      ensures CanAcceptCommand() <==> Model().state == Idle
    {
      state.Idle?
    }

    /** A value of the state goes out of scope, and with it a reply channel that it owns. */
    method Drop(value: MachineState)
      modifies `dropped
      ensures dropped == old(dropped) + OpenChannels(value)
    {
      dropped := dropped + OpenChannels(value);
    }

    method ResetToIdle()
      modifies this
      ensures Model() == StateMachine.ResetToIdle(old(Model()))
    {
      Drop(state);
      state := Idle;
    }

    /** Uses the command's reply channel; false if it was used before or nobody listens. */
    method Respond(command: OutgoingCommand, response: ModemResponse, gone: set<nat>) returns (ok: bool)
      modifies `replies
      ensures var o := StateMachine.Respond(old(Model()), command, response, gone); Model() == o.machine && ok == o.ok
    {
      if command.open {
        ok := command.channel !in gone;
        replies := replies + [Reply(command.channel, response, ok)];
      } else {
        ok := false;
      }
    }

    method FailActiveCommand(reason: string, gone: set<nat>)
      modifies this
      ensures Model() == StateMachine.FailActiveCommand(old(Model()), reason, gone)
    {
      var taken := state;
      state := Idle;
      match taken {
        case Command(execution) =>
          var _ := Respond(execution.command, Error(reason), gone);
        case Unsolicited(_, Some(execution)) =>
          var _ := Respond(execution.command, Error(reason), gone);
        case other =>
          state := other;  // nothing to fail: what was taken is put back
      }
    }

    method StartCommand(cmd: OutgoingCommand, now: nat)
      modifies this
      ensures Model() == StateMachine.StartCommand(old(Model()), cmd, now)
    {
      var (event, commandState) := CommandSender(cmd.request);
      workerEvents := workerEvents + [event];
      var context := CommandContext(cmd.sequence, commandState, "");
      Drop(state);
      state := Command(CommandExecution(context, cmd, now + cmd.RequestTimeout()));
    }

    method HandleCommandTimeout(now: nat, gone: set<nat>) returns (timedOut: bool)
      modifies this
      ensures var o := StateMachine.HandleCommandTimeout(old(Model()), now, gone);
        Model() == o.machine && timedOut == o.ok
    {
      match state {
        case Command(execution) =>
          if now < execution.timeoutAt {
            return false;
          }
          state := Idle;
          timedOut := Respond(execution.command, Error("Command timed out!"), gone);
        case Idle => timedOut := false;
        case Unsolicited(_, _) => timedOut := false;
      }
    }

    method HandleUnsolicited(kind: UnsolicitedMessageKind, content: string, decoder: Decoder)
      modifies `workerEvents, `sent
      ensures Model() == StateMachine.HandleUnsolicited(old(Model()), kind, content, decoder)
    {
      match HandleUnsolicitedMessage(kind, content, decoder) {
        case Emit(message) => sent := sent + [message];
        case Raise(event) => workerEvents := workerEvents + [event];
        case Nothing =>
      }
    }

    /** A prompt or a line for the command that has been taken out of the state. */
    method ProcessCommand(execution: CommandExecution, event: ModemEvent, decoder: Decoder, gone: set<nat>)
      returns (ok: bool, next: MachineState)
      requires state == Idle && !event.UnsolicitedMessage?
      modifies `workerEvents, `replies
      ensures var o := StateMachine.ProcessEvent(old(Model()).(state := Command(execution)), event, decoder, gone);
        Model().(state := if ok then next else Idle) == o.machine && ok == o.ok
    {
      match event {
        case PromptReceived(_) => ok, next := AnswerPrompt(execution, gone);
        case CommandResponse(content) => ok, next := TakeLine(execution, content, decoder, gone);
        case Data(content) => ok, next := TakeLine(execution, content, decoder, gone);
      }
    }

    method AnswerPrompt(execution: CommandExecution, gone: set<nat>) returns (ok: bool, next: MachineState)
      requires state == Idle
      modifies `workerEvents, `replies
      ensures var o := ProcessPrompt(old(Model()).(state := Command(execution)), execution, gone);
        Model().(state := if ok then next else Idle) == o.machine && ok == o.ok
    {
      match PromptHandler(execution.command.request) {
        case Some((event, commandState)) =>
          workerEvents := workerEvents + [event];
          return true, Command(execution.(context := execution.context.(state := commandState)));
        case None =>
          ok := Respond(execution.command, Error("Command completed during prompt handling"), gone);
          next := Idle;
      }
    }

    method TakeLine(execution: CommandExecution, content: string, decoder: Decoder, gone: set<nat>)
      returns (ok: bool, next: MachineState)
      requires state == Idle
      modifies `replies
      ensures var o := ProcessResponse(old(Model()).(state := Command(execution)), execution, content, decoder, gone);
        Model().(state := if ok then next else Idle) == o.machine && ok == o.ok
    {
      var updated := Buffered(execution, content);
      if updated.context.state.IsComplete(content) {
        var response := Answer(updated.command.request, updated.context.responseBuffer, decoder);
        ok := Respond(updated.command, response, gone);
        next := Idle;
      } else {
        return true, Command(updated);
      }
    }

    /** Takes the state, and gives the next one if there is a valid transition. */
    method ProcessEvent(event: ModemEvent, decoder: Decoder, gone: set<nat>) returns (ok: bool, next: MachineState)
      modifies this
      ensures var o := StateMachine.ProcessEvent(old(Model()), event, decoder, gone);
        Model().(state := if ok then next else Idle) == o.machine && ok == o.ok && state == Idle
    {
      var taken := state;
      state := Idle;
      match taken {
        case Unsolicited(kind, interrupted) =>
          if event.Data? {
            HandleUnsolicited(kind, event.content, decoder);
            return true, match interrupted case Some(execution) => Command(execution) case None => Idle;
          }
          // Invalid state transition.
          Drop(taken);
          return false, Idle;
        case Command(execution) =>
          if event.UnsolicitedMessage? {
            next := StartUnsolicited(taken, event.kind, event.header, decoder);
            return true, next;
          }
          ok, next := ProcessCommand(execution, event, decoder, gone);
        case Idle =>
          if event.UnsolicitedMessage? {
            next := StartUnsolicited(taken, event.kind, event.header, decoder);
            return true, next;
          }
          return true, Idle;
      }
    }

    method StartUnsolicited(taken: MachineState, kind: UnsolicitedMessageKind, header: string, decoder: Decoder)
      returns (next: MachineState)
      requires state == Idle && !taken.Unsolicited?
      modifies `workerEvents, `sent
      ensures Model().(state := next)
        == BeginUnsolicited(old(Model()).(state := taken), Held(taken), kind, header, decoder)
    {
      if kind.HasNextLine() {
        return Unsolicited(kind, Held(taken));
      }
      HandleUnsolicited(kind, header, decoder);
      return taken;
    }

    method TransitionState(event: LineEvent, decoder: Decoder, gone: set<nat>) returns (ok: bool)
      modifies this
      ensures var o := StateMachine.TransitionState(old(Model()), event, decoder, gone);
        Model() == o.machine && ok == o.ok
    {
      var modemEvent := Classify(state, event);
      var next;
      ok, next := ProcessEvent(modemEvent, decoder, gone);
      if ok {
        state := next;
      }
    }
  }
}
