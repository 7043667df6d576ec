/**
 The end-to-end property of the whole worker: between the start of an SMS submission and its reply
 the loop also writes to the port, ticks, and accepts further commands.
 */
module Conversation {
  import opened Text
  import opened Framing
  import opened Chunking
  import opened Types
  import opened StateMachine
  import opened Interleaving
  import opened EndToEnd
  import opened Queries
  import opened Worker
  import WorkerRuns

  /** A step that neither fails nor times out nor ends the wait of the command on `channel`. */
  predicate IsCalm(s: Step, deadline: nat, channel: nat) {
    match s
    case Enqueue(_, _, _) => true
    case Abandon(other) => other != channel
    case HandleEvent(portAccepts) => portAccepts
    case Tick(now) => now < deadline
    case Read(_) => true
    case _ => false
  }

  predicate AllCalm(steps: seq<Step>, deadline: nat, channel: nat) {
    forall s :: s in steps ==> IsCalm(s, deadline, channel)
  }

  /** The data that the steps read. */
  function DataOf(steps: seq<Step>): seq<string> {
    if steps == [] then []
    else (if steps[0].Read? then [steps[0].data] else []) + DataOf(steps[1..])
  }

  /** Every read comes when the loop listens to the port, so that its data is not passed over. */
  predicate ReadsWhenDue(w: State, steps: seq<Step>, decoder: Decoder)
    decreases |steps|
  {
    steps == [] ||
    ((steps[0].Read? ==> Enabled(w, steps[0]))
     && ReadsWhenDue(if Enabled(w, steps[0]) then Perform(w, steps[0], decoder) else w, steps[1..], decoder))
  }

  predicate OnlyWrites(queue: seq<WorkerEvent>) {
    forall e :: e in queue ==> e.WriteCommand?
  }

  predicate IsPowerDown(event: LineEvent) {
    event.Line? && FromHeader(Trim(event.content)) == Some(PoweringDown)
  }

  predicate NoPowerDown(events: seq<LineEvent>) {
    forall e :: e in events ==> !IsPowerDown(e)
  }

  // --- a line without a power-down notice raises writes only, and keeps the deadline ---

  function Unqueued(m: Machine): Machine {
    m.(queue := [])
  }

  /** A command that is held is this one, and an awaited payload is of a kind that has one. */
  predicate Steady(state: MachineState, deadline: nat, channel: nat) {
    && Answerable(state)
    && (Held(state).Some? ==> Held(state).value.timeoutAt == deadline && Held(state).value.command.channel == channel)
    && (state.Unsolicited? ==> state.kind.HasNextLine())
  }

  lemma UnsolicitedRaises(m: Machine, kind: UnsolicitedMessageKind, content: string, decoder: Decoder)
    requires kind != PoweringDown && OnlyWrites(m.queue)
    ensures OnlyWrites(HandleUnsolicited(m, kind, content, decoder).queue)
  {
  }

  lemma ResponseRaises(m: Machine, execution: CommandExecution, content: string, decoder: Decoder, gone: set<nat>)
    requires m.state == Command(execution)
    ensures var n := ProcessResponse(m, execution, content, decoder, gone).machine;
      n.queue == m.queue && !n.state.Unsolicited?
  {
  }

  lemma CommandRaises(m: Machine, event: ModemEvent, decoder: Decoder, gone: set<nat>)
    requires m.state.Command? && OnlyWrites(m.queue)
    requires event.UnsolicitedMessage? ==> event.kind != PoweringDown
    ensures var n := ProcessEvent(m, event, decoder, gone).machine;
      OnlyWrites(n.queue) && (n.state.Unsolicited? ==> n.state.kind.HasNextLine())
  {
    match event
    case UnsolicitedMessage(kind, header) => UnsolicitedRaises(m, kind, header, decoder);
    case PromptReceived(_) =>
    case CommandResponse(content) => ResponseRaises(m, m.state.execution, content, decoder, gone);
    case Data(content) => ResponseRaises(m, m.state.execution, content, decoder, gone);
  }

  lemma LineRaises(m: Machine, event: LineEvent, deadline: nat, channel: nat, decoder: Decoder, gone: set<nat>)
    requires Steady(m.state, deadline, channel) && OnlyWrites(m.queue) && !IsPowerDown(event)
    ensures var n := HandleLine(m, event, decoder, gone);
      OnlyWrites(n.queue) && (n.state.Unsolicited? ==> n.state.kind.HasNextLine())
  {
    ErrorPathIdle(m, event, decoder, gone);
    var e := Classify(m.state, event);
    match m.state
    case Idle =>
      if e.UnsolicitedMessage? { UnsolicitedRaises(m, e.kind, e.header, decoder); }
    case Unsolicited(kind, _) =>
      if e.Data? { UnsolicitedRaises(m, kind, e.content, decoder); }
    case Command(_) => CommandRaises(m, e, decoder, gone);
  }

  lemma LineSteady(m: Machine, event: LineEvent, deadline: nat, channel: nat, decoder: Decoder, gone: set<nat>)
    requires Steady(m.state, deadline, channel) && OnlyWrites(m.queue) && !IsPowerDown(event)
    ensures var n := HandleLine(m, event, decoder, gone); Steady(n.state, deadline, channel) && OnlyWrites(n.queue)
  {
    LineRaises(m, event, deadline, channel, decoder, gone);
    LineMoves(m, event, decoder, gone);
  }

  lemma {:induction false} LinesSteady(m: Machine, events: seq<LineEvent>, deadline: nat, channel: nat,
                                       decoder: Decoder, gone: set<nat>)
    requires Steady(m.state, deadline, channel) && OnlyWrites(m.queue) && NoPowerDown(events)
    ensures var n := HandleLines(m, events, decoder, gone); Steady(n.state, deadline, channel) && OnlyWrites(n.queue)
    decreases |events|
  {
    if events != [] {
      assert events[0] in events;
      LineSteady(m, events[0], deadline, channel, decoder, gone);
      LinesSteady(HandleLine(m, events[0], decoder, gone), events[1..], deadline, channel, decoder, gone);
    }
  }

  // --- the queue of writes makes no difference to the lines ---

  lemma LineUnqueued(m: Machine, n: Machine, event: LineEvent, decoder: Decoder, gone: set<nat>)
    requires Unqueued(m) == Unqueued(n)
    ensures Unqueued(HandleLine(m, event, decoder, gone)) == Unqueued(HandleLine(n, event, decoder, gone))
  {
    Frame(m, event, decoder, gone);
    Frame(n, event, decoder, gone);
    assert Bare(m) == Bare(n) by { assert Bare(m) == Bare(Unqueued(m)) && Bare(n) == Bare(Unqueued(n)); }
  }

  lemma {:induction false} LinesUnqueued(m: Machine, n: Machine, events: seq<LineEvent>, decoder: Decoder,
                                         gone: set<nat>)
    requires Unqueued(m) == Unqueued(n)
    ensures Unqueued(HandleLines(m, events, decoder, gone)) == Unqueued(HandleLines(n, events, decoder, gone))
    decreases |events|
  {
    if events != [] {
      LineUnqueued(m, n, events[0], decoder, gone);
      LinesUnqueued(HandleLine(m, events[0], decoder, gone), HandleLine(n, events[0], decoder, gone),
                    events[1..], decoder, gone);
    }
  }

  // --- runs of calm steps ---

  /** The command that is waited for, its deadline, and the receivers that were gone at its start. */
  datatype Wait = Wait(channel: nat, deadline: nat, gone: set<nat>)

  /** The worker listens, and its machine is `m` but for writes that are still due or done. */
  predicate Attentive(w: State, m: Machine, wait: Wait) {
    && w.phase == Polling && w.status == Online && OnlyWrites(w.machine.queue)
    && Steady(m.state, wait.deadline, wait.channel) && Unqueued(w.machine) == Unqueued(m)
    && (wait.channel in w.gone <==> wait.channel in wait.gone)
  }

  /** A calm step other than a read leaves all but the queues. */
  lemma CalmStep(w: State, s: Step, m: Machine, wait: Wait, decoder: Decoder)
    requires Attentive(w, m, wait) && IsCalm(s, wait.deadline, wait.channel) && !s.Read? && Enabled(w, s)
    ensures var n := Perform(w, s, decoder);
      Attentive(n, m, wait) && n.buffer == w.buffer && n.max == w.max
  {
    match s
    case Enqueue(_, _, _) =>
    case Abandon(_) =>
    case HandleEvent(_) => assert w.machine.queue[0] in w.machine.queue;
    case Tick(_) => assert m.state == Unqueued(m).state;
  }

  /** The lines of a read do with the worker's machine what they do with `m`. */
  lemma ReadLines(w: State, events: seq<LineEvent>, m: Machine, wait: Wait, decoder: Decoder)
    requires Attentive(w, m, wait)
    ensures Unqueued(HandleLines(w.machine, events, decoder, w.gone))
      == Unqueued(HandleLines(m, events, decoder, wait.gone))
  {
    LinesUnqueued(w.machine, m, events, decoder, w.gone);
    LinesSame(m, events, decoder, w.gone, wait.gone);
  }

  lemma ReadStep(w: State, data: string, m: Machine, wait: Wait, decoder: Decoder)
    requires Attentive(w, m, wait) && Enabled(w, Read(data)) && NoPowerDown(Events(w.buffer + data))
    ensures var n := Perform(w, Read(data), decoder);
      && n.buffer == Keep(Rest(w.buffer + data), w.max) && n.max == w.max
      && Attentive(n, HandleLines(m, Events(w.buffer + data), decoder, wait.gone), wait)
  {
    var events := Events(w.buffer + data);
    LinesSteady(w.machine, events, wait.deadline, wait.channel, decoder, w.gone);
    ReadLines(w, events, m, wait, decoder);
  }

  /** Over calm steps the worker does with its machine what the lines read do with `m`. */
  lemma {:induction false} CalmRun(w: State, m: Machine, steps: seq<Step>, wait: Wait, decoder: Decoder)
    requires Attentive(w, m, wait) && AllCalm(steps, wait.deadline, wait.channel) && ReadsWhenDue(w, steps, decoder)
    requires NoPowerDown(EventsOfReads(w.buffer, w.max, DataOf(steps)))
    ensures var n := Run(w, steps, decoder);
      && Attentive(n, HandleLines(m, EventsOfReads(w.buffer, w.max, DataOf(steps)), decoder, wait.gone), wait)
      && n.buffer == BufferAfter(w.buffer, w.max, DataOf(steps)) && n.max == w.max
    decreases |steps|
  {
    if steps != [] {
      var s, more := steps[0], steps[1..];
      assert s in steps;
      if s.Read? {
        var events := Events(w.buffer + s.data);
        var n := Perform(w, s, decoder);
        var later := EventsOfReads(Keep(Rest(w.buffer + s.data), w.max), w.max, DataOf(more));
        ReadStep(w, s.data, m, wait, decoder);
        HandleLinesConcat(m, events, later, decoder, wait.gone);
        CalmRun(n, HandleLines(m, events, decoder, wait.gone), more, wait, decoder);
      } else {
        assert DataOf(steps) == DataOf(more);
        if Enabled(w, s) { CalmStep(w, s, m, wait, decoder); }
        CalmRun(if Enabled(w, s) then Perform(w, s, decoder) else w, m, more, wait, decoder);
      }
    }
  }

  // --- the answer to any command ---

  /** The worker waits for the answer to a command. */
  predicate Waiting(w: State) {
    && w.phase == Polling && w.status == Online && OnlyWrites(w.machine.queue)
    && w.machine.state.Command? && w.machine.state.execution.command.open
  }

  function WaitOf(w: State): Wait
    requires Waiting(w)
  {
    Wait(w.machine.state.execution.command.channel, w.machine.state.execution.timeoutAt, w.gone)
  }

  /** The lines read of these chunks end the wait with this reply. */
  predicate Settles(w: State, chunks: seq<string>, reply: Reply, decoder: Decoder) {
    var n := HandleLines(w.machine, EventsOfReads(w.buffer, w.max, chunks), decoder, w.gone);
    n.state == Idle && n.dropped == w.machine.dropped && n.replies == w.machine.replies + [reply]
  }

  /** What steps before a read that is due bring: nothing that ends the wait from outside. */
  predicate CalmUntil(w: State, wait: Wait, steps: seq<Step>, decoder: Decoder) {
    && AllCalm(steps, wait.deadline, wait.channel) && ReadsWhenDue(w, steps, decoder)
    && NoPowerDown(EventsOfReads(w.buffer, w.max, DataOf(steps)))
  }

  /** The worker gives the reply that the lines give, and no other. */
  lemma AnsweredByWorker(w: State, wait: Wait, steps: seq<Step>, reply: Reply, decoder: Decoder)
    requires Waiting(w) && wait == WaitOf(w) && CalmUntil(w, wait, steps, decoder)
    requires Settles(w, DataOf(steps), reply, decoder)
    ensures var n := Run(w, steps, decoder);
      && n.status == Online && n.machine.state == Idle && n.machine.dropped == w.machine.dropped
      && n.machine.replies == w.machine.replies + [reply]
  {
    CalmRun(w, w.machine, steps, wait, decoder);
  }

  /** `reply` is the first one given since `m`. */
  predicate NextReply(m: Machine, n: Machine, reply: Reply) {
    m.replies + [reply] <= n.replies
  }

  /** The lines of the last read up to the end of the answer, and those of what it brings beyond. */
  lemma LastRead(w: State, wn: State, m: Machine, events: seq<LineEvent>, extra: seq<LineEvent>, reply: Reply,
                 decoder: Decoder)
    requires Waiting(w) && Attentive(wn, m, WaitOf(w))
    requires var n := HandleLines(m, events, decoder, w.gone);
      n.state == Idle && n.replies == w.machine.replies + [reply]
    ensures NextReply(w.machine, HandleLines(wn.machine, events + extra, decoder, wn.gone), reply)
  {
    var first := HandleLines(wn.machine, events, decoder, wn.gone);
    ReadLines(wn, events, m, WaitOf(w), decoder);
    HandleLinesConcat(wn.machine, events, extra, decoder, wn.gone);
    RepliesGrow(first, extra, decoder, wn.gone);
  }

  lemma EventsBeyond(buffer: string, last: string, extra: string)
    requires EndsLine(last)
    ensures Events(buffer + (last + extra)) == Events(buffer + last) + Events(extra)
  {
    Reassociate(buffer, last, extra);
    assert (buffer + last)[|buffer + last| - 1] == last[|last| - 1];
    ReadBeyond(buffer + last, extra);
  }

  /** Calm steps, and then a read that is due and ends the answer with `last`; what else it brings is `extra`. */
  predicate Brings(w: State, wait: Wait, steps: seq<Step>, last: string, extra: string, reply: Reply,
                   decoder: Decoder) {
    && CalmUntil(w, wait, steps, decoder) && Enabled(Run(w, steps, decoder), Read(last + extra))
    && EndsLine(last) && Settles(w, DataOf(steps) + [last], reply, decoder)
  }

  lemma LastReadReplies(w: State, wait: Wait, steps: seq<Step>, last: string, extra: string, reply: Reply,
                        decoder: Decoder)
    requires Waiting(w) && wait == WaitOf(w) && Brings(w, wait, steps, last, extra, reply, decoder)
    ensures NextReply(w.machine, Perform(Run(w, steps, decoder), Read(last + extra), decoder).machine, reply)
  {
    var wn := Run(w, steps, decoder);
    var before := EventsOfReads(w.buffer, w.max, DataOf(steps));
    var m := HandleLines(w.machine, before, decoder, w.gone);
    CalmRun(w, w.machine, steps, wait, decoder);
    ReadAfter(w.buffer, w.max, DataOf(steps), last);
    HandleLinesConcat(w.machine, before, Events(wn.buffer + last), decoder, w.gone);
    EventsBeyond(wn.buffer, last, extra);
    LastRead(w, wn, m, Events(wn.buffer + last), Events(extra), reply, decoder);
  }

  /**
   The reply is given by the read that brings the end of the answer, whatever that read holds
   beyond it and whatever happens afterwards: further notices, the start of the next command,
   shutdown, loss of the port.
   */
  lemma RepliedByRead(w: State, wait: Wait, steps: seq<Step>, last: string, extra: string, reply: Reply,
                      rest: seq<Step>, decoder: Decoder)
    requires WorkerRuns.Inv(w) && Waiting(w) && wait == WaitOf(w)
    requires Brings(w, wait, steps, last, extra, reply, decoder)
    ensures NextReply(w.machine, Run(w, steps + ([Read(last + extra)] + rest), decoder).machine, reply)
  {
    var wn := Run(w, steps, decoder);
    var n := Perform(wn, Read(last + extra), decoder);
    LastReadReplies(w, wait, steps, last, extra, reply, decoder);
    WorkerRuns.RunInv(w, steps, decoder);
    WorkerRuns.StepInv(wn, Read(last + extra), decoder);
    WorkerRuns.RunGrows(n, rest, decoder);
    RunThrough(w, steps, Read(last + extra), rest, decoder);
  }

  /** What is waited for when the command at the head of the queue is started. */
  function WaitFrom(w: State, now: nat): Wait
    requires w.commands != []
  {
    Wait(w.commands[0].channel, now + w.commands[0].RequestTimeout(), w.gone)
  }

  /** A command at the head of the queue is waited for once it is started. */
  lemma StartWaits(w: State, now: nat, decoder: Decoder)
    requires WorkerRuns.Inv(w) && Enabled(w, Start(now))
    ensures var n := Perform(w, Start(now), decoder);
      && Waiting(n) && WaitOf(n) == WaitFrom(w, now)
      && (if w.commands[0].request.SendSMS? then JustSubmitted(n.machine) else JustAsked(n.machine))
      && n.machine.replies == w.machine.replies && n.machine.state.execution.command == w.commands[0]
      && n.buffer == w.buffer && n.max == w.max && n.gone == w.gone
  {
    assert w.commands[0].open;
    StartAsks(w.machine, w.commands[0], now);
  }

  /** The same from the command queue on: the command is started, and its channel gets the reply. */
  lemma RepliedFromQueue(w: State, now: nat, steps: seq<Step>, last: string, extra: string, reply: Reply,
                         rest: seq<Step>, decoder: Decoder)
    requires WorkerRuns.Inv(w) && Enabled(w, Start(now))
    requires Brings(Perform(w, Start(now), decoder), WaitFrom(w, now), steps, last, extra, reply, decoder)
    ensures NextReply(w.machine, Run(w, [Start(now)] + (steps + ([Read(last + extra)] + rest)), decoder).machine,
                      reply)
  {
    StartWaits(w, now, decoder);
    WorkerRuns.StepInv(w, Start(now), decoder);
    RepliedByRead(Perform(w, Start(now), decoder), WaitFrom(w, now), steps, last, extra, reply, rest, decoder);
    RunCons(w, Start(now), steps + ([Read(last + extra)] + rest), decoder);
  }

  // --- a command that is lost ---

  /** The lines read of these chunks drop the command that is waited for. */
  predicate Drops(w: State, chunks: seq<string>, channel: nat, decoder: Decoder) {
    var n := HandleLines(w.machine, EventsOfReads(w.buffer, w.max, chunks), decoder, w.gone);
    n.dropped == w.machine.dropped + [channel]
  }

  /** The command of this channel is gone without a reply: it is dropped, and nowhere else. */
  predicate IsLost(w: State, channel: nat) {
    && channel in w.machine.dropped && channel !in RepliedChannels(w.machine.replies)
    && channel !in HeldChannels(w.machine.state) && channel !in WorkerRuns.QueuedChannels(w.commands)
  }

  lemma DroppedIsLost(w: State, channel: nat)
    requires WorkerRuns.Inv(w) && channel in w.machine.dropped
    ensures IsLost(w, channel)
  {
    WorkerRuns.PlacesCount(w, channel);
    assert WorkerRuns.Places(w)[channel] <= 1;
  }

  /** A command once dropped stays lost, whatever happens. */
  lemma LostForGood(w: State, steps: seq<Step>, channel: nat, decoder: Decoder)
    requires WorkerRuns.Inv(w) && channel in w.machine.dropped
    ensures IsLost(Run(w, steps, decoder), channel)
  {
    WorkerRuns.RunInv(w, steps, decoder);
    WorkerRuns.OnlyMisplacedLose(w, steps, decoder);
    DroppedIsLost(Run(w, steps, decoder), channel);
  }

  lemma DropsRead(w: State, wn: State, m: Machine, events: seq<LineEvent>, extra: seq<LineEvent>, channel: nat,
                  decoder: Decoder)
    requires Waiting(w) && Attentive(wn, m, WaitOf(w)) && Answerable(wn.machine.state)
    requires channel in HandleLines(m, events, decoder, w.gone).dropped
    ensures channel in HandleLines(wn.machine, events + extra, decoder, wn.gone).dropped
  {
    var first := HandleLines(wn.machine, events, decoder, wn.gone);
    ReadLines(wn, events, m, WaitOf(w), decoder);
    assert Unqueued(first).dropped == first.dropped;
    HandleLinesConcat(wn.machine, events, extra, decoder, wn.gone);
    StaysAnswerable(wn.machine, events, decoder, wn.gone);
    LinesLost(first, extra, decoder, wn.gone);
  }

  lemma {:induction false} StaysAnswerable(m: Machine, events: seq<LineEvent>, decoder: Decoder, gone: set<nat>)
    requires Answerable(m.state)
    ensures Answerable(HandleLines(m, events, decoder, gone).state)
    decreases |events|
  {
    if events != [] {
      LineMoves(m, events[0], decoder, gone);
      StaysAnswerable(HandleLine(m, events[0], decoder, gone), events[1..], decoder, gone);
    }
  }

  /**
   A command that the lines drop is lost to the worker: from the read that brings their end on, and
   whatever happens afterwards, it is never answered.
   */
  lemma LostByRead(w: State, wait: Wait, steps: seq<Step>, last: string, extra: string, rest: seq<Step>,
                   decoder: Decoder)
    requires WorkerRuns.Inv(w) && Waiting(w) && wait == WaitOf(w) && CalmUntil(w, wait, steps, decoder)
    requires Enabled(Run(w, steps, decoder), Read(last + extra)) && EndsLine(last)
    requires Drops(w, DataOf(steps) + [last], wait.channel, decoder)
    ensures IsLost(Run(w, steps + ([Read(last + extra)] + rest), decoder), wait.channel)
  {
    var wn := Run(w, steps, decoder);
    var before := EventsOfReads(w.buffer, w.max, DataOf(steps));
    var m := HandleLines(w.machine, before, decoder, w.gone);
    CalmRun(w, w.machine, steps, wait, decoder);
    ReadAfter(w.buffer, w.max, DataOf(steps), last);
    HandleLinesConcat(w.machine, before, Events(wn.buffer + last), decoder, w.gone);
    EventsBeyond(wn.buffer, last, extra);
    WorkerRuns.RunInv(w, steps, decoder);
    DropsRead(w, wn, m, Events(wn.buffer + last), Events(extra), wait.channel, decoder);
    WorkerRuns.StepInv(wn, Read(last + extra), decoder);
    LostForGood(Perform(wn, Read(last + extra), decoder), rest, wait.channel, decoder);
    RunThrough(w, steps, Read(last + extra), rest, decoder);
  }

  // --- what is written to the end ---

  /**
   Calm steps and a due read that between them bring these pieces, read as `blocks`, to a line end
   behind them, and `extra` beyond it.
   */
  predicate BringsText(w: State, wait: Wait, stale: string, blocks: seq<Block>, pieces: seq<Piece>, steps: seq<Step>,
                       last: string, extra: string, decoder: Decoder) {
    && CalmUntil(w, wait, steps, decoder) && Enabled(Run(w, steps, decoder), Read(last + extra)) && EndsLine(last)
    && ReadAs(pieces, blocks) && Delivers(w.buffer, Concat(DataOf(steps) + [last]), stale, TextOf(pieces), "")
    && Untruncated(w.buffer, w.max, DataOf(steps) + [last])
  }

  // --- submissions ---

  /**
   End to end, for the worker: from the start of a submission, whatever else the loop and other
   callers do in between while the port works, the deadline has not come and the modem stays on,
   once the transcript has been read the submission has been answered, once, from its lines.
   */
  lemma SubmissionAnsweredByWorker(w: State, wait: Wait, stale: string, early: seq<string>, lines: seq<string>,
                                   blocks: seq<Block>, pieces: seq<Piece>, rest: string, steps: seq<Step>,
                                   decoder: Decoder)
    requires Waiting(w) && JustSubmitted(w.machine) && wait == WaitOf(w) && CalmUntil(w, wait, steps, decoder)
    requires !AwaitsPayload(stale) && AreReplyLines(early) && Concludes(lines)
    requires ReadAs(pieces, blocks) && Erased(blocks) == Dialogue(early, lines)
    requires Delivers(w.buffer, Concat(DataOf(steps)), stale, TextOf(pieces), rest)
    requires Untruncated(w.buffer, w.max, DataOf(steps))
    ensures var n := Run(w, steps, decoder);
      var command := w.machine.state.execution.command;
      var heard := StaleLines(stale) + early + lines;
      var reply := SubmissionReply(command, heard, decoder, w.gone);
      && n.status == Online && n.machine.state == Idle && n.machine.dropped == w.machine.dropped
      && n.machine.replies == w.machine.replies + [reply] && IsReplyTo(command, heard, reply, w.gone)
  {
    var heard := StaleLines(stale) + early + lines;
    var reply := SubmissionReply(w.machine.state.execution.command, heard, decoder, w.gone);
    SubmissionAnswered(w.machine, w.buffer, stale, early, lines, blocks, pieces, rest, w.max, DataOf(steps), decoder,
                       w.gone);
    AnsweredByWorker(w, wait, steps, reply, decoder);
  }

  /** A submission is waited for, and its transcript brought to an end. */
  predicate BringsTranscript(w: State, wait: Wait, stale: string, early: seq<string>, lines: seq<string>,
                             blocks: seq<Block>, pieces: seq<Piece>, steps: seq<Step>, last: string, extra: string,
                             decoder: Decoder) {
    && JustSubmitted(w.machine) && AreReplyLines(early) && Concludes(lines) && Erased(blocks) == Dialogue(early, lines)
    && BringsText(w, wait, stale, blocks, pieces, steps, last, extra, decoder)
  }

  lemma TranscriptBrings(w: State, wait: Wait, stale: string, early: seq<string>, lines: seq<string>,
                         blocks: seq<Block>, pieces: seq<Piece>, steps: seq<Step>, last: string, extra: string,
                         decoder: Decoder)
    requires BringsTranscript(w, wait, stale, early, lines, blocks, pieces, steps, last, extra, decoder)
    requires !AwaitsPayload(stale)
    ensures var command := w.machine.state.execution.command;
      var heard := StaleLines(stale) + early + lines;
      var reply := SubmissionReply(command, heard, decoder, w.gone);
      Brings(w, wait, steps, last, extra, reply, decoder) && IsReplyTo(command, heard, reply, w.gone)
  {
    SubmissionAnswered(w.machine, w.buffer, stale, early, lines, blocks, pieces, "", w.max, DataOf(steps) + [last],
                       decoder, w.gone);
  }

  /** The reply is given by the read that brings the end of the transcript, whatever happens afterwards. */
  lemma SubmissionReplied(w: State, wait: Wait, stale: string, early: seq<string>, lines: seq<string>,
                          blocks: seq<Block>, pieces: seq<Piece>, steps: seq<Step>, last: string, extra: string,
                          rest: seq<Step>, decoder: Decoder)
    requires WorkerRuns.Inv(w) && Waiting(w) && wait == WaitOf(w) && !AwaitsPayload(stale)
    requires BringsTranscript(w, wait, stale, early, lines, blocks, pieces, steps, last, extra, decoder)
    ensures var command := w.machine.state.execution.command;
      var heard := StaleLines(stale) + early + lines;
      var reply := SubmissionReply(command, heard, decoder, w.gone);
      && NextReply(w.machine, Run(w, steps + ([Read(last + extra)] + rest), decoder).machine, reply)
      && IsReplyTo(command, heard, reply, w.gone)
  {
    var heard := StaleLines(stale) + early + lines;
    var reply := SubmissionReply(w.machine.state.execution.command, heard, decoder, w.gone);
    TranscriptBrings(w, wait, stale, early, lines, blocks, pieces, steps, last, extra, decoder);
    RepliedByRead(w, wait, steps, last, extra, reply, rest, decoder);
  }

  /** The same from the command queue on. */
  lemma SubmissionFromQueue(w: State, now: nat, stale: string, early: seq<string>, lines: seq<string>,
                            blocks: seq<Block>, pieces: seq<Piece>, steps: seq<Step>, last: string, extra: string,
                            rest: seq<Step>, decoder: Decoder)
    requires WorkerRuns.Inv(w) && Enabled(w, Start(now)) && w.commands[0].request.SendSMS? && !AwaitsPayload(stale)
    requires BringsTranscript(Perform(w, Start(now), decoder), WaitFrom(w, now), stale, early, lines, blocks, pieces,
                              steps, last, extra, decoder)
    ensures var n := Run(w, [Start(now)] + (steps + ([Read(last + extra)] + rest)), decoder);
      var heard := StaleLines(stale) + early + lines;
      var reply := SubmissionReply(w.commands[0], heard, decoder, w.gone);
      NextReply(w.machine, n.machine, reply) && IsReplyTo(w.commands[0], heard, reply, w.gone)
  {
    var reply := SubmissionReply(w.commands[0], StaleLines(stale) + early + lines, decoder, w.gone);
    StartWaits(w, now, decoder);
    TranscriptBrings(Perform(w, Start(now), decoder), WaitFrom(w, now), stale, early, lines, blocks, pieces, steps,
                     last, extra, decoder);
    RepliedFromQueue(w, now, steps, last, extra, reply, rest, decoder);
  }

  /**
   Behind a header left over whose payload is due a submission without early lines, or with a notice
   before them, is lost to the worker too, for good.
   */
  lemma SubmissionLost(w: State, wait: Wait, stale: string, early: seq<string>, lines: seq<string>,
                       blocks: seq<Block>, pieces: seq<Piece>, steps: seq<Step>, last: string, extra: string,
                       rest: seq<Step>, decoder: Decoder)
    requires WorkerRuns.Inv(w) && Waiting(w) && wait == WaitOf(w) && AwaitsPayload(stale)
    requires BringsTranscript(w, wait, stale, early, lines, blocks, pieces, steps, last, extra, decoder)
    requires blocks != [] && (early == [] || !blocks[0].Plain?)
    ensures IsLost(Run(w, steps + ([Read(last + extra)] + rest), decoder), wait.channel)
  {
    SubmissionBehindHeader(w.machine, w.buffer, stale, early, lines, blocks, pieces, "", w.max,
                           DataOf(steps) + [last], decoder, w.gone);
    LostByRead(w, wait, steps, last, extra, rest, decoder);
  }

  /** With an early line and nothing before it, that line is taken for the payload, and the rest is answered. */
  lemma SubmissionRepliedBehind(w: State, wait: Wait, stale: string, early: seq<string>, lines: seq<string>,
                                blocks: seq<Block>, pieces: seq<Piece>, steps: seq<Step>, last: string, extra: string,
                                rest: seq<Step>, decoder: Decoder)
    requires WorkerRuns.Inv(w) && Waiting(w) && wait == WaitOf(w) && AwaitsPayload(stale)
    requires BringsTranscript(w, wait, stale, early, lines, blocks, pieces, steps, last, extra, decoder)
    requires blocks != [] && early != [] && blocks[0].Plain?
    ensures var reply := SubmissionReply(w.machine.state.execution.command, early[1..] + lines, decoder, w.gone);
      NextReply(w.machine, Run(w, steps + ([Read(last + extra)] + rest), decoder).machine, reply)
  {
    var reply := SubmissionReply(w.machine.state.execution.command, early[1..] + lines, decoder, w.gone);
    SubmissionBehindHeader(w.machine, w.buffer, stale, early, lines, blocks, pieces, "", w.max,
                           DataOf(steps) + [last], decoder, w.gone);
    RepliedByRead(w, wait, steps, last, extra, reply, rest, decoder);
  }

  // --- queries ---

  /** A query is waited for, and its response brought to an end. */
  predicate BringsResponse(w: State, wait: Wait, stale: string, lines: seq<string>, blocks: seq<Block>,
                           pieces: seq<Piece>, steps: seq<Step>, last: string, extra: string, decoder: Decoder) {
    && JustAsked(w.machine) && IsResponse(lines) && Erased(blocks) == LineEvents(lines)
    && BringsText(w, wait, stale, blocks, pieces, steps, last, extra, decoder)
  }

  lemma ResponseBrings(w: State, wait: Wait, stale: string, lines: seq<string>, blocks: seq<Block>,
                       pieces: seq<Piece>, steps: seq<Step>, last: string, extra: string, decoder: Decoder)
    requires BringsResponse(w, wait, stale, lines, blocks, pieces, steps, last, extra, decoder)
    requires !AwaitsPayload(stale)
    ensures var command := w.machine.state.execution.command;
      var reply := QueryReply(command, Heard(stale, lines), decoder, w.gone);
      Brings(w, wait, steps, last, extra, reply, decoder)
      && IsQueryReply(command, stale, lines, reply, decoder, w.gone)
  {
    QueryAnswered(w.machine, w.buffer, stale, lines, blocks, pieces, "", w.max, DataOf(steps) + [last], decoder,
                  w.gone);
  }

  /** A query is answered by the read that brings the end of its response, whatever happens afterwards. */
  lemma QueryReplied(w: State, wait: Wait, stale: string, lines: seq<string>, blocks: seq<Block>, pieces: seq<Piece>,
                     steps: seq<Step>, last: string, extra: string, rest: seq<Step>, decoder: Decoder)
    requires WorkerRuns.Inv(w) && Waiting(w) && wait == WaitOf(w) && !AwaitsPayload(stale)
    requires BringsResponse(w, wait, stale, lines, blocks, pieces, steps, last, extra, decoder)
    ensures var command := w.machine.state.execution.command;
      var reply := QueryReply(command, Heard(stale, lines), decoder, w.gone);
      && NextReply(w.machine, Run(w, steps + ([Read(last + extra)] + rest), decoder).machine, reply)
      && IsQueryReply(command, stale, lines, reply, decoder, w.gone)
  {
    var reply := QueryReply(w.machine.state.execution.command, Heard(stale, lines), decoder, w.gone);
    ResponseBrings(w, wait, stale, lines, blocks, pieces, steps, last, extra, decoder);
    RepliedByRead(w, wait, steps, last, extra, reply, rest, decoder);
  }

  /** The same from the command queue on. */
  lemma QueryFromQueue(w: State, now: nat, stale: string, lines: seq<string>, blocks: seq<Block>, pieces: seq<Piece>,
                       steps: seq<Step>, last: string, extra: string, rest: seq<Step>, decoder: Decoder)
    requires WorkerRuns.Inv(w) && Enabled(w, Start(now)) && !w.commands[0].request.SendSMS? && !AwaitsPayload(stale)
    requires BringsResponse(Perform(w, Start(now), decoder), WaitFrom(w, now), stale, lines, blocks, pieces, steps,
                            last, extra, decoder)
    ensures var n := Run(w, [Start(now)] + (steps + ([Read(last + extra)] + rest)), decoder);
      var reply := QueryReply(w.commands[0], Heard(stale, lines), decoder, w.gone);
      NextReply(w.machine, n.machine, reply) && IsQueryReply(w.commands[0], stale, lines, reply, decoder, w.gone)
  {
    var reply := QueryReply(w.commands[0], Heard(stale, lines), decoder, w.gone);
    StartWaits(w, now, decoder);
    ResponseBrings(Perform(w, Start(now), decoder), WaitFrom(w, now), stale, lines, blocks, pieces, steps, last, extra,
                   decoder);
    RepliedFromQueue(w, now, steps, last, extra, reply, rest, decoder);
  }

  /** Behind a header left over a query loses its first line, or, if a notice comes first, is lost itself, for good. */
  lemma QueryBehind(w: State, wait: Wait, stale: string, lines: seq<string>, blocks: seq<Block>, pieces: seq<Piece>,
                    steps: seq<Step>, last: string, extra: string, rest: seq<Step>, decoder: Decoder)
    requires WorkerRuns.Inv(w) && Waiting(w) && wait == WaitOf(w) && AwaitsPayload(stale)
    requires BringsResponse(w, wait, stale, lines, blocks, pieces, steps, last, extra, decoder)
    ensures blocks != []
    ensures var n := Run(w, steps + ([Read(last + extra)] + rest), decoder);
      && (!blocks[0].Plain? ==> IsLost(n, wait.channel))
      && (blocks[0].Plain? && |lines| > 1 ==>
            NextReply(w.machine, n.machine,
                      QueryReply(w.machine.state.execution.command, lines[1..], decoder, w.gone)))
  {
    QueryBehindHeader(w.machine, w.buffer, stale, lines, blocks, pieces, "", w.max, DataOf(steps) + [last], decoder,
                      w.gone);
    if !blocks[0].Plain? {
      LostByRead(w, wait, steps, last, extra, rest, decoder);
    } else if |lines| > 1 {
      var reply := QueryReply(w.machine.state.execution.command, lines[1..], decoder, w.gone);
      RepliedByRead(w, wait, steps, last, extra, reply, rest, decoder);
    }
  }

  /** A query whose only line is so lost waits on, as before, when its bytes have been read. */
  lemma QueryWaitsOn(w: State, wait: Wait, stale: string, lines: seq<string>, blocks: seq<Block>, pieces: seq<Piece>,
                     rest: string, steps: seq<Step>, decoder: Decoder)
    requires Waiting(w) && wait == WaitOf(w) && CalmUntil(w, wait, steps, decoder)
    requires JustAsked(w.machine) && IsResponse(lines) && |lines| == 1 && AwaitsPayload(stale)
    requires ReadAs(pieces, blocks) && Erased(blocks) == LineEvents(lines) && blocks != [] && blocks[0].Plain?
    requires Delivers(w.buffer, Concat(DataOf(steps)), stale, TextOf(pieces), rest)
    requires Untruncated(w.buffer, w.max, DataOf(steps))
    ensures var n := Run(w, steps, decoder);
      n.machine.state == w.machine.state && n.machine.replies == w.machine.replies
      && n.machine.dropped == w.machine.dropped
  {
    QueryBehindHeader(w.machine, w.buffer, stale, lines, blocks, pieces, rest, w.max, DataOf(steps), decoder, w.gone);
    CalmRun(w, w.machine, steps, wait, decoder);
  }

  // --- a schedule that meets these conditions ---

  function AnswerLines(reference: u8): seq<string> {
    [ReferenceLine(reference), "OK"]
  }

  function AnswerPieces(reference: u8): seq<Piece> {
    OkPieces(ReferenceLine(reference))
  }

  function AnswerText(reference: u8): string {
    TextOf(AnswerPieces(reference))
  }

  /** The prompt, and then the answer. */
  function DialoguePieces(reference: u8): seq<Piece> {
    [PromptPiece("\r\n", " ")] + AnswerPieces(reference)
  }

  /** A prompt in front of pieces that begin with a line end. */
  lemma PromptBefore(pieces: seq<Piece>, blocks: seq<Block>)
    requires ReadAs(pieces, blocks) && Erased(blocks) == blocks && pieces != [] && pieces[0].before != ""
    ensures var prompt := Plain(Prompt(">"));
      ReadAs([PromptPiece("\r\n", " ")] + pieces, [prompt] + blocks) && Erased([prompt] + blocks) == [prompt] + blocks
  {
    var prompt := Plain(Prompt(">"));
    var all := [PromptPiece("\r\n", " ")] + pieces;
    assert ([prompt] + blocks)[1..] == blocks && all[1..] == pieces;
    assert CuesOf(all) == [PromptCue] + CuesOf(pieces);
    assert ([PromptCue] + CuesOf(pieces))[1..] == CuesOf(pieces);
    StreamCons(prompt, blocks);
    forall k | 0 < k < |all| && all[k - 1].PromptPiece? ensures Follows(all[k - 1].spaces != "", all[k]) {
      assert all[k] == pieces[k - 1];
      if k > 1 { assert all[k - 1] == pieces[k - 2]; }
    }
  }

  lemma DialogueReads(reference: u8)
    ensures var blocks := Dialogue([], AnswerLines(reference));
      ReadAs(DialoguePieces(reference), blocks) && Erased(blocks) == blocks
  {
    var answer := LineEvents(AnswerLines(reference));
    ReferenceLineShape(reference);
    assert ReferenceLine(reference)[0] == '+';
    OkPiecesRead(ReferenceLine(reference));
    PromptBefore(AnswerPieces(reference), answer);
    assert Dialogue([], AnswerLines(reference)) == [Plain(Prompt(">"))] + answer;
  }

  /** Write the command, read the prompt, write the PDU; then the answer can be read. */
  function Schedule(): seq<Step> {
    [HandleEvent(true), Read("\r\n> "), HandleEvent(true)]
  }

  lemma ScheduleData(reference: u8)
    ensures DataOf(Schedule()) == ["\r\n> "]
    ensures Concat(DataOf(Schedule()) + [AnswerText(reference)]) == TextOf(DialoguePieces(reference))
  {
    assert [HandleEvent(true)][1..] == [];
    assert DataOf([HandleEvent(true)]) == [];
    ConcatAfter(["\r\n> "], AnswerText(reference));
    assert DialoguePieces(reference)[1..] == AnswerPieces(reference);
    assert PieceText(PromptPiece("\r\n", " ")) == "\r\n> ";
  }

  /** One piece, read alone. */
  lemma PieceRead(p: Piece)
    requires GoodPiece(p)
    ensures Events("" + PieceText(p)) == Announce([PieceCue(p)])
    ensures p.LinePiece? ==> Rest("" + PieceText(p)) == ""
  {
    ReadPiece(AtStart, p);
    FeedIsTokenize(PieceText(p));
    LastByteMode(PieceText(p));
    assert "" + PieceText(p) == PieceText(p);
  }

  lemma PromptRead()
    ensures Events("" + "\r\n> ") == [Prompt(">")]
  {
    assert PieceText(PromptPiece("\r\n", " ")) == "\r\n> ";
    PieceRead(PromptPiece("\r\n", " "));
    assert [PromptCue][1..] == [];
  }

  /** After the prompt is read the only thing due is the write of the PDU. */
  lemma PromptDue(w: State, decoder: Decoder)
    requires Enabled(w, Read("\r\n> ")) && w.buffer == "" && JustSubmitted(w.machine)
    ensures var n := Perform(w, Read("\r\n> "), decoder);
      n.phase == Polling && n.status == Online && |n.machine.queue| == 1 && n.machine.queue[0].WriteCommand?
  {
    PromptRead();
    PromptStep(w.machine, [], decoder, w.gone);
    OneLine(w.machine, Prompt(">"), decoder, w.gone);
  }

  /** A due write leaves the loop listening. */
  lemma WriteDone(w: State, decoder: Decoder)
    requires w.phase == Polling && w.status == Online && |w.machine.queue| == 1 && w.machine.queue[0].WriteCommand?
    ensures Enabled(w, HandleEvent(true))
    ensures Perform(w, HandleEvent(true), decoder) == w.(machine := w.machine.(queue := []))
  {
    assert w.machine.queue[1..] == [];
  }

  lemma ScheduleDue(w: State, now: nat, data: string, decoder: Decoder)
    requires WorkerRuns.Inv(w) && Enabled(w, Start(now)) && w.buffer == "" && w.commands[0].request.SendSMS?
    ensures var started := Perform(w, Start(now), decoder);
      ReadsWhenDue(started, Schedule(), decoder) && Enabled(Run(started, Schedule(), decoder), Read(data))
  {
    var steps := Schedule();
    assert steps[1..] == [Read("\r\n> "), HandleEvent(true)];
    assert steps[1..][1..] == [HandleEvent(true)] && steps[1..][1..][1..] == [];
    assert w.commands[0].open;
    StartAsks(w.machine, w.commands[0], now);
    var a := Perform(w, Start(now), decoder);
    WriteDone(a, decoder);
    var b := Perform(a, HandleEvent(true), decoder);
    PromptDue(b, decoder);
    var c := Perform(b, Read("\r\n> "), decoder);
    WriteDone(c, decoder);
    var d := Perform(c, HandleEvent(true), decoder);
    assert Run(d, [], decoder) == d;
    assert Run(c, steps[1..][1..], decoder) == d && ReadsWhenDue(c, steps[1..][1..], decoder);
    assert Run(b, steps[1..], decoder) == d && ReadsWhenDue(b, steps[1..], decoder);
  }

  lemma ScheduleDelivers(reference: u8, max: nat)
    requires max >= |TextOf(DialoguePieces(reference))|
    ensures var chunks := DataOf(Schedule()) + [AnswerText(reference)];
      Delivers("", Concat(chunks), "", TextOf(DialoguePieces(reference)), "") && Untruncated("", max, chunks)
  {
    var text := TextOf(DialoguePieces(reference));
    ScheduleData(reference);
    assert "" + text == text && text + "" == text && text[..0] == "";
    SmallStreamUntruncated("", max, DataOf(Schedule()) + [AnswerText(reference)]);
  }

  lemma ScheduleHears(max: nat)
    ensures NoPowerDown(EventsOfReads("", max, ["\r\n> "]))
  {
    PromptRead();
    EventsOfOneRead("", max, "\r\n> ");
  }

  lemma ScheduleCalm(deadline: nat, channel: nat)
    ensures AllCalm(Schedule(), deadline, channel) && DataOf(Schedule()) == ["\r\n> "]
  {
    ScheduleData(0);
  }

  lemma ScheduleIsCalm(w: State, wait: Wait, decoder: Decoder)
    requires w.buffer == "" && ReadsWhenDue(w, Schedule(), decoder)
    ensures CalmUntil(w, wait, Schedule(), decoder)
  {
    ScheduleCalm(wait.deadline, wait.channel);
    ScheduleHears(w.max);
  }

  lemma AnswerEnds(reference: u8)
    ensures EndsLine(AnswerText(reference))
  {
    ReferenceLineShape(reference);
    assert ReferenceLine(reference)[0] == '+';
    OkPiecesAreGood(ReferenceLine(reference));
  }

  lemma ScheduleBringsText(w: State, wait: Wait, reference: u8, decoder: Decoder)
    requires w.buffer == "" && w.max >= |TextOf(DialoguePieces(reference))|
    requires ReadsWhenDue(w, Schedule(), decoder)
    requires Enabled(Run(w, Schedule(), decoder), Read(AnswerText(reference) + ""))
    ensures BringsText(w, wait, "", Dialogue([], AnswerLines(reference)), DialoguePieces(reference), Schedule(),
                       AnswerText(reference), "", decoder)
  {
    ScheduleIsCalm(w, wait, decoder);
    ScheduleDelivers(reference, w.max);
    DialogueReads(reference);
    AnswerEnds(reference);
  }

  /** The schedule brings the transcript of a submission that is waited for. */
  lemma ScheduleBrings(w: State, wait: Wait, reference: u8, decoder: Decoder)
    requires JustSubmitted(w.machine) && w.buffer == "" && w.max >= |TextOf(DialoguePieces(reference))|
    requires ReadsWhenDue(w, Schedule(), decoder)
    requires Enabled(Run(w, Schedule(), decoder), Read(AnswerText(reference) + ""))
    ensures BringsTranscript(w, wait, "", [], AnswerLines(reference), Dialogue([], AnswerLines(reference)),
                             DialoguePieces(reference), Schedule(), AnswerText(reference), "", decoder)
  {
    SuccessConcludes(reference);
    DialogueReads(reference);
    ScheduleBringsText(w, wait, reference, decoder);
  }

  lemma OwnReference(command: OutgoingCommand, reference: u8, reply: Reply, gone: set<nat>)
    requires IsReplyTo(command, StaleLines("") + [] + AnswerLines(reference), reply, gone)
    ensures !AwaitsPayload("")
    ensures reply == Reply(command.channel, SendResult(reference), command.channel !in gone)
  {
    var line := ReferenceLine(reference);
    TrimBlank("");
    ReferenceNumber(reference, ["OK"]);
    assert StaleLines("") + [] + AnswerLines(reference) == [line] + ["OK"];
  }

  /** A submission started with nothing left over, and told its reference and OK. */
  lemma ReferenceFromQueue(w: State, now: nat, reference: u8, blocks: seq<Block>, pieces: seq<Piece>, steps: seq<Step>,
                           last: string, extra: string, decoder: Decoder)
    requires WorkerRuns.Inv(w) && Enabled(w, Start(now)) && w.commands[0].request.SendSMS?
    requires BringsTranscript(Perform(w, Start(now), decoder), WaitFrom(w, now), "", [], AnswerLines(reference),
                              blocks, pieces, steps, last, extra, decoder)
    ensures var n := Run(w, [Start(now)] + (steps + ([Read(last + extra)] + [])), decoder);
      var channel := w.commands[0].channel;
      NextReply(w.machine, n.machine, Reply(channel, SendResult(reference), channel !in w.gone))
  {
    var lines := AnswerLines(reference);
    TrimBlank("");
    SubmissionFromQueue(w, now, "", [], lines, blocks, pieces, steps, last, extra, [], decoder);
    OwnReference(w.commands[0], reference, SubmissionReply(w.commands[0], StaleLines("") + [] + lines, decoder, w.gone),
                 w.gone);
  }

  /** On that schedule every submission at the head of the queue is answered, whatever its reference. */
  lemma ScheduledSubmission(w: State, now: nat, reference: u8, decoder: Decoder)
    requires WorkerRuns.Inv(w) && Enabled(w, Start(now)) && w.buffer == "" && w.commands[0].request.SendSMS?
    requires w.max >= |TextOf(DialoguePieces(reference))|
    ensures var n := Run(w, [Start(now)] + (Schedule() + ([Read(AnswerText(reference) + "")] + [])), decoder);
      var channel := w.commands[0].channel;
      NextReply(w.machine, n.machine, Reply(channel, SendResult(reference), channel !in w.gone))
  {
    var text := AnswerText(reference);
    StartWaits(w, now, decoder);
    ScheduleDue(w, now, text + "", decoder);
    ScheduleBrings(Perform(w, Start(now), decoder), WaitFrom(w, now), reference, decoder);
    ReferenceFromQueue(w, now, reference, Dialogue([], AnswerLines(reference)), DialoguePieces(reference), Schedule(),
                       text, "", decoder);
  }

  // --- a loss that can be reached ---

  /** A header whose payload is overtaken by the prompt of the submission it interrupts. */
  const OVERTAKEN: seq<Step> := [
    Enqueue(1, SendSMS(1, "00"), None), Start(0), HandleEvent(true), Read("\r\n+CMT\r\n"), Read("\r\n> ")]

  lemma HeaderText()
    ensures PieceText(LinePiece("\r\n", "+CMT", "\r\n")) == "\r\n+CMT\r\n"
  {
  }

  lemma HeaderRead()
    ensures Events("" + "\r\n+CMT\r\n") == [Line("+CMT")] && Rest("" + "\r\n+CMT\r\n") == ""
  {
    TrimTight("+CMT");
    HeaderText();
    PieceRead(LinePiece("\r\n", "+CMT", "\r\n"));
  }

  lemma HeaderInterrupts(m: Machine, decoder: Decoder, gone: set<nat>)
    requires m.state.Command? && m.state.execution.command.open
    ensures var n := HandleLines(m, [Line("+CMT")], decoder, gone);
      n == m.(state := Unsolicited(IncomingSMS, Some(m.state.execution)))
  {
    TrimTight("+CMT");
    OneLine(m, Line("+CMT"), decoder, gone);
  }

  lemma PromptDrops(m: Machine, decoder: Decoder, gone: set<nat>)
    requires m.state.Unsolicited? && m.state.interrupted.Some? && m.state.interrupted.value.command.open
    ensures var n := HandleLines(m, [Prompt(">")], decoder, gone);
      n.dropped == m.dropped + [m.state.interrupted.value.command.channel] && n.replies == m.replies
  {
    LineMoves(m, Prompt(">"), decoder, gone);
    OneLine(m, Prompt(">"), decoder, gone);
  }

  lemma OvertakenReads(w: State, decoder: Decoder)
    requires Enabled(w, Read("\r\n+CMT\r\n")) && w.buffer == "" && w.machine.dropped == []
    requires w.machine.state.Command? && w.machine.state.execution.command.open
    requires w.machine.state.execution.command.channel == 0
    ensures Run(w, [Read("\r\n+CMT\r\n"), Read("\r\n> ")], decoder).machine.dropped == [0]
  {
    var a := Perform(w, Read("\r\n+CMT\r\n"), decoder);
    HeaderRead();
    HeaderInterrupts(w.machine, decoder, w.gone);
    PromptRead();
    PromptDrops(a.machine, decoder, a.gone);
    RunCons(w, Read("\r\n+CMT\r\n"), [Read("\r\n> ")], decoder);
  }

  lemma OvertakenRun(w: State, late: seq<Step>, decoder: Decoder)
    requires Enabled(w, Start(0)) && w.buffer == "" && w.machine.dropped == []
    requires w.commands[0].open && w.commands[0].channel == 0
    requires late == [Read("\r\n+CMT\r\n"), Read("\r\n> ")]
    ensures Run(w, [Start(0)] + ([HandleEvent(true)] + late), decoder).machine.dropped == [0]
  {
    var a := Perform(w, Start(0), decoder);
    StartAsks(w.machine, w.commands[0], 0);
    WriteDone(a, decoder);
    OvertakenReads(Perform(a, HandleEvent(true), decoder), decoder);
    RunCons(a, HandleEvent(true), late, decoder);
    RunCons(w, Start(0), [HandleEvent(true)] + late, decoder);
  }

  /** So a run from the start can lose a command without a reply. */
  lemma LossIsReachable(max: nat, decoder: Decoder)
    ensures Run(Initial(true, max, 1), OVERTAKEN, decoder).machine.dropped == [0]
  {
    var w := Initial(true, max, 1);
    var late := [Read("\r\n+CMT\r\n"), Read("\r\n> ")];
    OvertakenRun(Perform(w, OVERTAKEN[0], decoder), late, decoder);
    RunCons(w, OVERTAKEN[0], [Start(0)] + ([HandleEvent(true)] + late), decoder);
    assert OVERTAKEN == [OVERTAKEN[0]] + ([Start(0)] + ([HandleEvent(true)] + late));
  }

  // --- an answer that comes late ---

  /** A query that times out, its answer that comes then but for the last line end, and the next query. */
  const LATE: seq<Step> := [
    Enqueue(1, GetSignalStrength, Some(0)), Start(0), HandleEvent(true), Tick(0), Read("\r\nOK"),
    Enqueue(2, GetSignalStrength, None)]

  /** Behind a line end an unfinished line gives no event, and is kept. */
  lemma UnfinishedRead(line: string)
    requires IsRemainder(line)
    ensures Events("\r\n" + line) == [] && Rest("\r\n" + line) == line
  {
    FeedConcat(AtStart, "\r\n", line);
    FeedRemainder(line);
    FeedIsTokenize("\r\n" + line);
  }

  lemma LateRead()
    ensures Events("" + "\r\nOK") == [] && Rest("" + "\r\nOK") == "OK"
  {
    UnfinishedRead("OK");
    assert "" + "\r\nOK" == "\r\n" + "OK";
  }

  lemma LateQuery(w: State, decoder: Decoder)
    requires w.phase == Polling && w.status == Online && w.machine.state == Idle && w.machine.queue == []
    requires w.buffer == "" && w.max >= 2 && w.commands == [] && w.capacity >= 1
    ensures var n := Run(w, [Read("\r\nOK"), Enqueue(2, GetSignalStrength, None)], decoder);
      n.buffer == "OK" && Enabled(n, Start(0)) && n.commands[0].request == GetSignalStrength
  {
    var enqueue := Enqueue(2, GetSignalStrength, None);
    LateRead();
    RunCons(w, Read("\r\nOK"), [enqueue], decoder);
    RunCons(Perform(w, Read("\r\nOK"), decoder), enqueue, [], decoder);
    assert [enqueue] + [] == [enqueue];
  }

  /** A query written at once, and timed out at once. */
  lemma TimedOutAtOnce(w: State, decoder: Decoder)
    requires Enabled(w, Start(0)) && w.buffer == "" && |w.commands| == 1 && w.commands[0].open
    requires w.commands[0].RequestTimeout() == 0 && w.commands[0].channel !in w.gone
    ensures var n := Run(w, [Start(0), HandleEvent(true), Tick(0)], decoder);
      && n.phase == Polling && n.status == Online && n.machine.state == Idle && n.machine.queue == []
      && n.buffer == "" && n.max == w.max && n.commands == [] && n.capacity == w.capacity
  {
    var a := Perform(w, Start(0), decoder);
    StartAsks(w.machine, w.commands[0], 0);
    WriteDone(a, decoder);
    var b := Perform(a, HandleEvent(true), decoder);
    RunCons(b, Tick(0), [], decoder);
    RunCons(a, HandleEvent(true), [Tick(0)], decoder);
    RunCons(w, Start(0), [HandleEvent(true), Tick(0)], decoder);
    assert [Tick(0)] + [] == [Tick(0)];
  }

  lemma LateRun(w: State, early: seq<Step>, late: seq<Step>, decoder: Decoder)
    requires Enabled(w, Start(0)) && w.buffer == "" && |w.commands| == 1 && w.commands[0].open
    requires w.commands[0].RequestTimeout() == 0 && w.commands[0].channel !in w.gone && w.max >= 2 && w.capacity >= 1
    requires early == [Start(0), HandleEvent(true), Tick(0)]
    requires late == [Read("\r\nOK"), Enqueue(2, GetSignalStrength, None)]
    ensures var n := Run(w, early + late, decoder);
      n.buffer == "OK" && Enabled(n, Start(0)) && n.commands[0].request == GetSignalStrength
  {
    TimedOutAtOnce(w, decoder);
    LateQuery(Run(w, early, decoder), decoder);
    RunConcat(w, early, late, decoder);
  }

  /** So a run from the start can leave an OK over that answers the query started next. */
  lemma LateAnswerIsLeftOver(max: nat, decoder: Decoder)
    requires max >= 2
    ensures var n := Run(Initial(true, max, 1), LATE, decoder);
      n.buffer == "OK" && Enabled(n, Start(0)) && n.commands[0].request == GetSignalStrength
  {
    var w := Initial(true, max, 1);
    LateRun(Perform(w, LATE[0], decoder), LATE[1..4], LATE[4..], decoder);
    RunCons(w, LATE[0], LATE[1..4] + LATE[4..], decoder);
    assert LATE == [LATE[0]] + (LATE[1..4] + LATE[4..]);
  }
}
