/**
 What the steps of the worker do to the commands, to the status and to the line buffer, each in its
 own words; and what emptying the line buffer is for.
 */
module StepEffects {
  import opened Text
  import opened Framing
  import opened Chunking
  import opened Types
  import opened Parsers
  import opened StateMachine
  import opened Interleaving
  import opened EndToEnd
  import opened Queries
  import opened Worker
  import opened Conversation

  // --- replies that the worker gives of itself ---

  /** The command that is held, if one is, has been answered with this error; the queue is as it was. */
  predicate Fails(w: State, n: State, reason: string) {
    && n.commands == w.commands && n.accepted == w.accepted && Held(n.machine.state).None?
    && n.machine.replies == w.machine.replies +
         match Held(w.machine.state)
         case Some(x) => [Reply(x.command.channel, Error(reason), x.command.channel !in w.gone)]
         case None => []
  }

  /** The status is this, and a change of it has been told, once. */
  predicate Becomes(w: State, n: State, status: ModemStatus) {
    && n.status == status
    && n.machine.sent == w.machine.sent + if w.status == status then [] else [ModemStatusUpdate(w.status, status)]
  }

  lemma FailingFails(w: State, reason: string)
    requires Answerable(w.machine.state)
    ensures Fails(w, Fail(w, reason), reason)
    ensures Becomes(w, SetStatusTo(Fail(w, reason), Offline), Offline)
  {
    assert w.machine.replies + [] == w.machine.replies && w.machine.sent + [] == w.machine.sent;
  }

  /** Losing the port fails the command that is held, and takes the worker offline. */
  lemma PortLost(w: State, s: Step, decoder: Decoder)
    requires WorkerRuns.Inv(w) && (s.ReadNothing? || s.ReadFailed?)
    requires w.phase == Polling && w.status == Online && w.machine.queue == []
    ensures Enabled(w, s)
    ensures var n := Perform(w, s, decoder);
      Fails(w, n, if s.ReadNothing? then "Serial port closed" else "Read error: " + s.error) && Becomes(w, n, Offline)
  {
    FailingFails(w, if s.ReadNothing? then "Serial port closed" else "Read error: " + s.error);
  }

  /** So does a write that the port does not take, or that comes when it is not online. */
  lemma EventTaken(w: State, portAccepts: bool, decoder: Decoder)
    requires WorkerRuns.Inv(w) && w.machine.queue != []
    requires w.phase == Draining || (w.phase == Polling && (w.status == Online || w.status == Offline))
    ensures Enabled(w, HandleEvent(portAccepts))
    ensures var n := Perform(w, HandleEvent(portAccepts), decoder);
      && n.machine.queue == w.machine.queue[1..]
      && (match w.machine.queue[0]
          case SetStatus(status) => Becomes(w, n, status) && n.machine.replies == w.machine.replies
          case WriteCommand(_) =>
            if w.status == Online && portAccepts then
              Becomes(w, n, Online) && n.machine.replies == w.machine.replies && n.machine.state == w.machine.state
            else Fails(w, n, "Write failed") && Becomes(w, n, Offline))
  {
    FailingFails(w.(machine := w.machine.(queue := w.machine.queue[1..])), "Write failed");
    assert w.machine.sent + [] == w.machine.sent;
  }

  /** The oldest command that waits is taken and answered: while shutting down, and while offline. */
  lemma TurnedAway(w: State, s: Step, decoder: Decoder)
    requires WorkerRuns.Inv(w) && w.commands != []
    requires (s.Refuse? && w.phase == Refusing) || (s.Reject? && w.phase == Polling && w.status == Offline)
    ensures Enabled(w, s)
    ensures var n := Perform(w, s, decoder);
      var reason := if s.Refuse? then "Modem is shutting down" else "Modem is offline";
      var channel := w.commands[0].channel;
      && n.commands == w.commands[1..] && n.machine.state == w.machine.state && n.status == w.status
      && n.machine.replies == w.machine.replies + [Reply(channel, Error(reason), channel !in w.gone)]
  {
    assert w.commands[0].open;
  }

  /** The same error to each of these commands, in their order. */
  function Refusals(commands: seq<OutgoingCommand>, reason: string, gone: set<nat>): seq<Reply> {
    if commands == [] then []
    else
      [Reply(commands[0].channel, Error(reason), commands[0].channel !in gone)]
      + Refusals(commands[1..], reason, gone)
  }

  function Repeated(s: Step, n: nat): seq<Step> {
    if n == 0 then [] else [s] + Repeated(s, n - 1)
  }

  /** The worker after the commands that wait have all been told that the modem is offline. */
  function AllRefused(w: State): State {
    w.(commands := [],
       machine := w.machine.(replies := w.machine.replies + Refusals(w.commands, "Modem is offline", w.gone)))
  }

  lemma RejectOne(w: State, decoder: Decoder)
    requires WorkerRuns.Inv(w) && w.phase == Polling && w.status == Offline && w.commands != []
    ensures Enabled(w, Reject) && WorkerRuns.Inv(Perform(w, Reject, decoder))
    ensures var n := Perform(w, Reject, decoder);
      && n.phase == Polling && n.status == Offline && |n.commands| == |w.commands| - 1
      && AllRefused(n) == AllRefused(w)
  {
    assert w.commands[0].open;
    var refusal := Reply(w.commands[0].channel, Error("Modem is offline"), w.commands[0].channel !in w.gone);
    Reassociate(w.machine.replies, [refusal], Refusals(w.commands[1..], "Modem is offline", w.gone));
    WorkerRuns.StepInv(w, Reject, decoder);
  }

  /** While offline, the commands that wait can all be answered in their order; nothing else changes. */
  lemma {:induction false} OfflineTurnsAway(w: State, decoder: Decoder)
    requires WorkerRuns.Inv(w) && w.phase == Polling && w.status == Offline
    ensures Run(w, Repeated(Reject, |w.commands|), decoder) == AllRefused(w)
    decreases |w.commands|
  {
    if w.commands == [] {
      assert w.machine.replies + [] == w.machine.replies;
    } else {
      RejectOne(w, decoder);
      OfflineTurnsAway(Perform(w, Reject, decoder), decoder);
      RunCons(w, Reject, Repeated(Reject, |w.commands| - 1), decoder);
    }
  }

  lemma DiscardOne(w: State, portAccepts: bool, decoder: Decoder)
    requires WorkerRuns.Inv(w) && w.phase == Polling && w.status == Offline
    requires w.machine.queue != [] && w.machine.queue[0].WriteCommand?
    ensures Enabled(w, HandleEvent(portAccepts))
    ensures Perform(w, HandleEvent(portAccepts), decoder) == w.(machine := w.machine.(queue := w.machine.queue[1..]))
  {
  }

  /** While offline, writes that were still queued are taken and not written; nothing else changes. */
  lemma {:induction false} OfflineDiscards(w: State, portAccepts: bool, decoder: Decoder)
    requires WorkerRuns.Inv(w) && w.phase == Polling && w.status == Offline
    requires forall e :: e in w.machine.queue ==> e.WriteCommand?
    ensures Run(w, Repeated(HandleEvent(portAccepts), |w.machine.queue|), decoder)
      == w.(machine := w.machine.(queue := []))
    decreases |w.machine.queue|
  {
    if w.machine.queue != [] {
      var step := HandleEvent(portAccepts);
      DiscardOne(w, portAccepts, decoder);
      WorkerRuns.StepInv(w, step, decoder);
      OfflineDiscards(Perform(w, step, decoder), portAccepts, decoder);
      RunCons(w, step, Repeated(step, |w.machine.queue| - 1), decoder);
    }
  }

  lemma DrainingEnds(w: State, decoder: Decoder)
    requires WorkerRuns.Inv(w) && w.phase == Draining && w.machine.queue == []
    ensures Enabled(w, FinishDraining)
    ensures Fails(w, Perform(w, FinishDraining, decoder), "Modem is shutting down")
  {
    FailingFails(w, "Modem is shutting down");
  }

  /** A command that is active is told when its deadline has come; nothing else happens at a tick. */
  lemma TimeoutTold(w: State, now: nat, decoder: Decoder)
    requires WorkerRuns.Inv(w) && w.phase == Polling && w.status == Online && w.machine.queue == []
    ensures Enabled(w, Tick(now))
    ensures var n := Perform(w, Tick(now), decoder);
      && n.status == w.status && n.machine.sent == w.machine.sent && n.machine.queue == w.machine.queue
      && (if w.machine.state.Command? && w.machine.state.execution.timeoutAt <= now
          then Fails(w, n, "Command timed out!") else n.machine == w.machine)
  {
  }

  /** The worker comes back, and leaves the shutdown arm, idle, with its change of status told. */
  lemma Resumes(w: State, s: Step, decoder: Decoder)
    requires WorkerRuns.Inv(w)
    requires (s == Reconnect(true) && w.phase == Polling && w.status == Offline) || (s.Wake? && w.phase == Sleeping)
    ensures Enabled(w, s)
    ensures var n := Perform(w, s, decoder);
      && n.phase == Polling && n.machine.state == Idle && n.machine.replies == w.machine.replies
      && Becomes(w, n, if s.Wake? then Offline else Online)
  {
    assert w.machine.sent + [] == w.machine.sent;
  }

  // --- who hears a reply ---

  /** Replies are added, and reach their callers exactly if those still wait. */
  predicate Told(m: Machine, n: Machine, gone: set<nat>) {
    && m.replies <= n.replies
    && (forall i :: |m.replies| <= i < |n.replies| ==> (n.replies[i].delivered <==> n.replies[i].channel !in gone))
  }

  lemma ResponseTold(m: Machine, execution: CommandExecution, content: string, decoder: Decoder, gone: set<nat>)
    ensures Told(m, ProcessResponse(m, execution, content, decoder, gone).machine, gone)
  {
  }

  lemma PromptTold(m: Machine, execution: CommandExecution, gone: set<nat>)
    ensures Told(m, ProcessPrompt(m, execution, gone).machine, gone)
  {
  }

  lemma EventTold(m: Machine, event: ModemEvent, decoder: Decoder, gone: set<nat>)
    ensures Told(m, ProcessEvent(m, event, decoder, gone).machine, gone)
  {
    if m.state.Command? && (event.CommandResponse? || event.Data?) {
      ResponseTold(m, m.state.execution, event.content, decoder, gone);
    } else if m.state.Command? && event.PromptReceived? {
      PromptTold(m, m.state.execution, gone);
    } else if event.UnsolicitedMessage? {
      UnsolicitedKeeps(m, event.kind, event.header, decoder);
    } else if m.state.Unsolicited? {
      UnsolicitedKeeps(m, m.state.kind, event.content, decoder);
    }
  }

  lemma LineTold(m: Machine, event: LineEvent, decoder: Decoder, gone: set<nat>)
    ensures Told(m, HandleLine(m, event, decoder, gone), gone)
  {
    EventTold(m, Classify(m.state, event), decoder, gone);
    ErrorPathIdle(m, event, decoder, gone);
  }

  lemma {:induction false} LinesTold(m: Machine, events: seq<LineEvent>, decoder: Decoder, gone: set<nat>)
    ensures Told(m, HandleLines(m, events, decoder, gone), gone)
    decreases |events|
  {
    if events != [] {
      LineTold(m, events[0], decoder, gone);
      LinesTold(HandleLine(m, events[0], decoder, gone), events[1..], decoder, gone);
    }
  }

  lemma EndingStepTold(w: State, s: Step, decoder: Decoder)
    requires Enabled(w, s) && (s.ReadNothing? || s.ReadFailed? || s.Tick? || s.FinishDraining?)
    ensures Told(w.machine, Perform(w, s, decoder).machine, w.gone)
  {
  }

  lemma EventStepTold(w: State, portAccepts: bool, decoder: Decoder)
    requires Enabled(w, HandleEvent(portAccepts))
    ensures Told(w.machine, Perform(w, HandleEvent(portAccepts), decoder).machine, w.gone)
  {
  }

  lemma OtherStepTold(w: State, s: Step, decoder: Decoder)
    requires Enabled(w, s) && !s.ReadNothing? && !s.ReadFailed? && !s.Tick? && !s.FinishDraining?
    requires !s.HandleEvent? && !s.Read?
    ensures Told(w.machine, Perform(w, s, decoder).machine, w.gone)
  {
  }

  lemma StepGone(w: State, s: Step, decoder: Decoder)
    requires Enabled(w, s)
    ensures Perform(w, s, decoder).gone == w.gone + if s.Abandon? then {s.channel} else {}
  {
  }

  lemma StepTold(w: State, s: Step, decoder: Decoder)
    requires Enabled(w, s)
    ensures Told(w.machine, Perform(w, s, decoder).machine, w.gone)
  {
    match s
    case Read(data) => LinesTold(w.machine, Events(w.buffer + data), decoder, w.gone);
    case HandleEvent(portAccepts) => EventStepTold(w, portAccepts, decoder);
    case _ =>
      if s.ReadNothing? || s.ReadFailed? || s.Tick? || s.FinishDraining? {
        EndingStepTold(w, s, decoder);
      } else {
        OtherStepTold(w, s, decoder);
      }
  }

  /** A caller that has given up hears nothing more, whatever follows. */
  lemma {:induction false} GoneHearsNothing(w: State, steps: seq<Step>, channel: nat, decoder: Decoder)
    requires channel in w.gone
    ensures var before, after := w.machine.replies, Run(w, steps, decoder).machine.replies;
      && before <= after
      && (forall i :: |before| <= i < |after| && after[i].channel == channel ==> !after[i].delivered)
    decreases |steps|
  {
    if steps != [] {
      if Enabled(w, steps[0]) {
        StepTold(w, steps[0], decoder);
        StepGone(w, steps[0], decoder);
      }
      GoneHearsNothing(if Enabled(w, steps[0]) then Perform(w, steps[0], decoder) else w, steps[1..], channel, decoder);
    }
  }

  // --- the command queue ---

  /** A command is queued as it was given, on the next channel, unless the queue is full. */
  lemma EnqueueAppends(w: State, sequence: nat, request: ModemRequest, timeout: Option<nat>, decoder: Decoder)
    ensures var n := Perform(w, Enqueue(sequence, request, timeout), decoder);
      if |w.commands| < w.capacity then
        && n.accepted == w.accepted + [request]
        && n.commands == w.commands + [OutgoingCommand(sequence, request, timeout, |w.accepted|, true)]
      else n == w
  {
  }

  lemma StepBounded(w: State, s: Step, decoder: Decoder)
    requires Enabled(w, s) && |w.commands| <= w.capacity
    ensures var n := Perform(w, s, decoder); |n.commands| <= n.capacity && n.capacity == w.capacity
  {
  }

  /** The queue never holds more commands than it has room for. */
  lemma {:induction false} QueueBounded(w: State, steps: seq<Step>, decoder: Decoder)
    requires |w.commands| <= w.capacity
    ensures var n := Run(w, steps, decoder); |n.commands| <= n.capacity && n.capacity == w.capacity
    decreases |steps|
  {
    if steps != [] {
      if Enabled(w, steps[0]) { StepBounded(w, steps[0], decoder); }
      QueueBounded(if Enabled(w, steps[0]) then Perform(w, steps[0], decoder) else w, steps[1..], decoder);
    }
  }

  // --- the line buffer ---

  /** Where what is pending of a line is thrown away: also at a timeout that its caller is told of. */
  predicate Empties(w: State, s: Step) {
    match s
    case Tick(now) =>
      && w.machine.state.Command? && w.machine.state.execution.timeoutAt <= now
      && w.machine.state.execution.command.channel !in w.gone
    case Wake => true
    case Reconnect(success) => success
    case _ => false
  }

  lemma BufferAtTick(w: State, now: nat, decoder: Decoder)
    requires WorkerRuns.Inv(w) && Enabled(w, Tick(now))
    ensures Perform(w, Tick(now), decoder).buffer == if Empties(w, Tick(now)) then "" else w.buffer
  {
  }

  lemma BufferKept(w: State, s: Step, decoder: Decoder)
    requires Enabled(w, s) && !s.Read? && !s.Tick?
    ensures Perform(w, s, decoder).buffer == if Empties(w, s) then "" else w.buffer
  {
  }

  /** A read leaves the unfinished line at its end, or as much of its end as there is room for. */
  lemma BufferAtRead(w: State, data: string, decoder: Decoder)
    requires Enabled(w, Read(data))
    ensures var pending := Rest(w.buffer + data);
      Perform(w, Read(data), decoder).buffer == if |pending| > w.max then pending[|pending| - w.max..] else pending
  {
  }

  lemma LimitKept(w: State, s: Step, decoder: Decoder)
    requires Enabled(w, s)
    ensures Perform(w, s, decoder).max == w.max
  {
  }

  /** What every other step does to the pending text. */
  lemma BufferAfterStep(w: State, s: Step, decoder: Decoder)
    requires WorkerRuns.Inv(w) && Enabled(w, s) && !s.Read?
    ensures Perform(w, s, decoder).buffer == if Empties(w, s) then "" else w.buffer
  {
    if s.Tick? { BufferAtTick(w, s.now, decoder); } else { BufferKept(w, s, decoder); }
  }

  /** A timeout that the caller has given up waiting for empties nothing. */
  lemma GivenUp(w: State, now: nat, decoder: Decoder)
    requires WorkerRuns.Inv(w) && Enabled(w, Tick(now)) && w.machine.state.Command?
    ensures var abandoned := Perform(w, Abandon(w.machine.state.execution.command.channel), decoder);
      Enabled(abandoned, Tick(now)) && Perform(abandoned, Tick(now), decoder).buffer == w.buffer
  {
    var abandon := Abandon(w.machine.state.execution.command.channel);
    WorkerRuns.StepInv(w, abandon, decoder);
    BufferAfterStep(Perform(w, abandon, decoder), Tick(now), decoder);
  }

  predicate NoReads(steps: seq<Step>) {
    forall s :: s in steps ==> !s.Read?
  }

  /** Without reads an empty line buffer stays empty. */
  lemma {:induction false} StaysEmpty(w: State, steps: seq<Step>, decoder: Decoder)
    requires WorkerRuns.Inv(w) && w.buffer == "" && NoReads(steps)
    ensures var n := Run(w, steps, decoder); n.buffer == "" && n.max == w.max && WorkerRuns.Inv(n)
    decreases |steps|
  {
    if steps != [] {
      var s := steps[0];
      assert s in steps;
      if Enabled(w, s) {
        BufferAfterStep(w, s, decoder);
        LimitKept(w, s, decoder);
        WorkerRuns.StepInv(w, s, decoder);
      }
      StaysEmpty(if Enabled(w, s) then Perform(w, s, decoder) else w, steps[1..], decoder);
    }
  }

  /**
   Calm steps and a due read that bring the response to a query, whose text begins with them: nothing
   is in the line buffer before it.
   */
  predicate BringsOwn(w: State, wait: Wait, lines: seq<string>, blocks: seq<Block>, pieces: seq<Piece>,
                      steps: seq<Step>, last: string, extra: string, decoder: Decoder) {
    && IsResponse(lines) && Erased(blocks) == LineEvents(lines) && ReadAs(pieces, blocks)
    && CalmUntil(w, wait, steps, decoder) && Enabled(Run(w, steps, decoder), Read(last + extra)) && EndsLine(last)
    && Delivers("", Concat(DataOf(steps) + [last]), "", TextOf(pieces), "")
    && Untruncated("", w.max, DataOf(steps) + [last])
  }

  lemma HeardAlone(lines: seq<string>)
    ensures !AwaitsPayload("") && Heard("", lines) == lines
  {
    TrimBlank("");
    assert [] + lines == lines;
  }

  /** A query that finds the line buffer empty is answered from its own lines. */
  lemma OwnLines(w: State, now: nat, lines: seq<string>, blocks: seq<Block>, pieces: seq<Piece>, steps: seq<Step>,
                 last: string, extra: string, rest: seq<Step>, decoder: Decoder)
    requires WorkerRuns.Inv(w) && w.buffer == "" && Enabled(w, Start(now)) && !w.commands[0].request.SendSMS?
    requires BringsOwn(Perform(w, Start(now), decoder), WaitFrom(w, now), lines, blocks, pieces, steps, last, extra,
                       decoder)
    ensures NextReply(w.machine, Run(w, [Start(now)] + (steps + ([Read(last + extra)] + rest)), decoder).machine,
                      QueryReply(w.commands[0], lines, decoder, w.gone))
  {
    StartWaits(w, now, decoder);
    HeardAlone(lines);
    QueryFromQueue(w, now, "", lines, blocks, pieces, steps, last, extra, rest, decoder);
  }

  /**
   What a timeout is told for, and coming back, empty the line buffer: a query started afterwards,
   before anything else is read, is answered from its own lines, whatever was pending before.
   */
  lemma QueryAfterEmptying(w: State, s: Step, between: seq<Step>, now: nat, lines: seq<string>, blocks: seq<Block>,
                           pieces: seq<Piece>, steps: seq<Step>, last: string, extra: string, rest: seq<Step>,
                           decoder: Decoder)
    requires WorkerRuns.Inv(w) && Enabled(w, s) && Empties(w, s) && NoReads(between)
    requires var idle := Run(Perform(w, s, decoder), between, decoder);
      && Enabled(idle, Start(now)) && !idle.commands[0].request.SendSMS?
      && BringsOwn(Perform(idle, Start(now), decoder), WaitFrom(idle, now), lines, blocks, pieces, steps, last, extra,
                   decoder)
    ensures var idle := Run(Perform(w, s, decoder), between, decoder);
      var n := Run(w, [s] + (between + ([Start(now)] + (steps + ([Read(last + extra)] + rest)))), decoder);
      NextReply(idle.machine, n.machine, QueryReply(idle.commands[0], lines, decoder, idle.gone))
  {
    var emptied := Perform(w, s, decoder);
    var idle := Run(emptied, between, decoder);
    var query := [Start(now)] + (steps + ([Read(last + extra)] + rest));
    BufferAfterStep(w, s, decoder);
    WorkerRuns.StepInv(w, s, decoder);
    StaysEmpty(emptied, between, decoder);
    OwnLines(idle, now, lines, blocks, pieces, steps, last, extra, rest, decoder);
    RunConcat(emptied, between, query, decoder);
    RunCons(w, s, between + query, decoder);
  }

  // --- a schedule that meets these conditions ---

  function SignalPieces(rssi: i32, ber: i32): seq<Piece> {
    OkPieces(SignalLine(rssi, ber))
  }

  lemma SignalReads(rssi: i32, ber: i32)
    ensures var lines := [SignalLine(rssi, ber), "OK"];
      && IsResponse(lines) && ReadAs(SignalPieces(rssi, ber), LineEvents(lines))
      && Erased(LineEvents(lines)) == LineEvents(lines) && EndsLine(TextOf(SignalPieces(rssi, ber)))
  {
    SignalLineShape(rssi, ber);
    OkIsReplyLine();
    assert SignalLine(rssi, ber)[0] == '+';
    OkPiecesRead(SignalLine(rssi, ber));
    OkPiecesAreGood(SignalLine(rssi, ber));
  }

  /** Start, write, answer: a signal query that finds the line buffer empty is told these values. */
  lemma ScheduledSignal(w: State, now: nat, rssi: i32, ber: i32, decoder: Decoder)
    requires WorkerRuns.Inv(w) && w.buffer == "" && Enabled(w, Start(now))
    requires w.commands[0].request == GetSignalStrength && w.max >= |TextOf(SignalPieces(rssi, ber))|
    ensures var text := TextOf(SignalPieces(rssi, ber));
      var n := Run(w, [Start(now)] + ([HandleEvent(true)] + ([Read(text + "")] + [])), decoder);
      var channel := w.commands[0].channel;
      NextReply(w.machine, n.machine, Reply(channel, SignalStrength(rssi, ber), channel !in w.gone))
  {
    var lines := [SignalLine(rssi, ber), "OK"];
    SignalReads(rssi, ber);
    SignalDue(w, now, rssi, ber, decoder);
    OwnLines(w, now, lines, LineEvents(lines), SignalPieces(rssi, ber), [HandleEvent(true)],
             TextOf(SignalPieces(rssi, ber)), "", [], decoder);
    SignalAnswers(rssi, ber, Unlines(["OK"]));
    assert lines[1..] == ["OK"];
    SignalStrengthValues(lines, rssi, ber, decoder);
  }

  lemma OneWrite(w: State, wait: Wait, decoder: Decoder)
    requires w.phase == Polling && w.status == Online && |w.machine.queue| == 1 && w.machine.queue[0].WriteCommand?
    ensures CalmUntil(w, wait, [HandleEvent(true)], decoder) && DataOf([HandleEvent(true)]) == []
    ensures Run(w, [HandleEvent(true)], decoder) == w.(machine := w.machine.(queue := []))
  {
    WriteDone(w, decoder);
    assert [HandleEvent(true)][1..] == [];
    RunCons(w, HandleEvent(true), [], decoder);
    assert [HandleEvent(true)] + [] == [HandleEvent(true)];
  }

  lemma OneRead(text: string, max: nat)
    requires max >= |text|
    ensures Delivers("", Concat([] + [text]), "", text, "") && Untruncated("", max, [] + [text])
  {
    ConcatAfter([], text);
    assert Concat([]) + text == text && text + "" == text && "" + text == text && text[..0] == "";
    SmallStreamUntruncated("", max, [] + [text]);
  }

  lemma StartWrites(w: State, now: nat, decoder: Decoder)
    requires WorkerRuns.Inv(w) && Enabled(w, Start(now))
    ensures var n := Perform(w, Start(now), decoder);
      n.phase == Polling && n.status == Online && |n.machine.queue| == 1 && n.machine.queue[0].WriteCommand?
      && n.max == w.max
  {
    assert w.commands[0].open;
    StartAsks(w.machine, w.commands[0], now);
  }

  lemma OkDue(w: State, wait: Wait, line: string, decoder: Decoder)
    requires IsResponse([line, "OK"]) && IsReplyLine(line) && line[0] != '>'
    requires w.phase == Polling && w.status == Online && |w.machine.queue| == 1 && w.machine.queue[0].WriteCommand?
    requires w.max >= |TextOf(OkPieces(line))|
    ensures BringsOwn(w, wait, [line, "OK"], LineEvents([line, "OK"]), OkPieces(line), [HandleEvent(true)],
                      TextOf(OkPieces(line)), "", decoder)
  {
    OkPiecesRead(line);
    OkPiecesAreGood(line);
    OneWrite(w, wait, decoder);
    OneRead(TextOf(OkPieces(line)), w.max);
  }

  lemma SignalDue(w: State, now: nat, rssi: i32, ber: i32, decoder: Decoder)
    requires WorkerRuns.Inv(w) && Enabled(w, Start(now)) && w.max >= |TextOf(SignalPieces(rssi, ber))|
    ensures var lines := [SignalLine(rssi, ber), "OK"];
      BringsOwn(Perform(w, Start(now), decoder), WaitFrom(w, now), lines, LineEvents(lines), SignalPieces(rssi, ber),
                [HandleEvent(true)], TextOf(SignalPieces(rssi, ber)), "", decoder)
  {
    SignalReads(rssi, ber);
    SignalLineShape(rssi, ber);
    assert SignalLine(rssi, ber)[0] == '+';
    StartWrites(w, now, decoder);
    OkDue(Perform(w, Start(now), decoder), WaitFrom(w, now), SignalLine(rssi, ber), decoder);
  }
}
