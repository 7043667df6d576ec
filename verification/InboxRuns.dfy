/**
 Incoming messages and reports over whole runs of the worker: whatever the worker does for its
 commands in between, they are sent on and handled as the bytes read bring them.
 */
module InboxRuns {
  import opened Text
  import opened Framing
  import opened Chunking
  import opened Types
  import opened StateMachine
  import opened Interleaving
  import opened EndToEnd
  import opened Worker
  import opened Inbox
  import Conversation

  // --- the machine ---

  /** Whether the next line is taken for a payload, and of which kind. */
  function Due(state: MachineState): Option<UnsolicitedMessageKind> {
    match state
    case Unsolicited(kind, _) => Some(kind)
    case _ => None
  }

  /** As far as incoming messages go the machines are alike, whatever commands they hold. */
  predicate Alike(m: Machine, n: Machine) {
    Due(m.state) == Due(n.state) && Passed(m.sent) == Passed(n.sent)
  }

  lemma ResponseAlike(m: Machine, execution: CommandExecution, content: string, decoder: Decoder, gone: set<nat>)
    requires m.state == Command(execution)
    ensures Alike(m, ProcessResponse(m, execution, content, decoder, gone).machine)
  {
  }

  /** What a line passes on, in terms of what is due. */
  function Given(due: Option<UnsolicitedMessageKind>, event: LineEvent, decoder: Decoder): seq<ModemIncomingMessage> {
    if event.Prompt? then []
    else
      var line := Trim(event.content);
      match due
      case Some(kind) => if FromHeader(line).None? then PassedBy(kind, line, decoder) else []
      case None =>
        if FromHeader(line).Some? && !FromHeader(line).value.HasNextLine() then
          PassedBy(FromHeader(line).value, line, decoder)
        else []
  }

  function DueAfter(due: Option<UnsolicitedMessageKind>, event: LineEvent): Option<UnsolicitedMessageKind> {
    if due.None? && event.Line? && IsHeader(event.content, true) then FromHeader(Trim(event.content)) else None
  }

  lemma FreeLine(m: Machine, line: string, decoder: Decoder, gone: set<nat>)
    requires !m.state.Unsolicited?
    ensures var n := HandleLine(m, Line(line), decoder, gone);
      && Due(n.state) == DueAfter(None, Line(line))
      && Passed(n.sent) == Passed(m.sent) + Given(None, Line(line), decoder)
  {
    ErrorPathIdle(m, Line(line), decoder, gone);
    PrefixPlaysNoPart(m, line, decoder, gone);
    var kind := FromHeader(Trim(line));
    if kind.Some? && !kind.value.HasNextLine() {
      UnsolicitedPasses(m, kind.value, Trim(line), decoder);
      UnsolicitedKeeps(m, kind.value, Trim(line), decoder);
    } else if kind.None? && m.state.Command? {
      ResponseAlike(m, m.state.execution, Trim(line), decoder, gone);
    }
  }

  lemma FreePrompt(m: Machine, prompt: string, decoder: Decoder, gone: set<nat>)
    requires !m.state.Unsolicited?
    ensures Alike(m, HandleLine(m, Prompt(prompt), decoder, gone))
  {
    ErrorPathIdle(m, Prompt(prompt), decoder, gone);
  }

  lemma LineGives(m: Machine, event: LineEvent, decoder: Decoder, gone: set<nat>)
    ensures var n := HandleLine(m, event, decoder, gone);
      && Due(n.state) == DueAfter(Due(m.state), event)
      && Passed(n.sent) == Passed(m.sent) + Given(Due(m.state), event, decoder)
  {
    if m.state.Unsolicited? {
      ErrorPathIdle(m, event, decoder, gone);
      if !Misplaced(m.state, event) { UnsolicitedPasses(m, m.state.kind, Trim(event.content), decoder); }
    } else if event.Line? {
      FreeLine(m, event.content, decoder, gone);
    } else {
      FreePrompt(m, event.content, decoder, gone);
    }
  }

  lemma {:induction false} LinesAlike(m: Machine, n: Machine, events: seq<LineEvent>, decoder: Decoder,
                                      gone: set<nat>, later: set<nat>)
    requires Alike(m, n)
    ensures Alike(HandleLines(m, events, decoder, gone), HandleLines(n, events, decoder, later))
    decreases |events|
  {
    if events != [] {
      LineGives(m, events[0], decoder, gone);
      LineGives(n, events[0], decoder, later);
      LinesAlike(HandleLine(m, events[0], decoder, gone), HandleLine(n, events[0], decoder, later), events[1..],
                 decoder, gone, later);
    }
  }

  // --- the worker ---

  /** The worker stays at its port, and only reads change what it has pending of a line. */
  predicate KeepsListening(w: State, steps: seq<Step>, decoder: Decoder)
    decreases |steps|
  {
    steps == [] ||
    (var s := steps[0];
     var n := if Enabled(w, s) then Perform(w, s, decoder) else w;
     && (if s.Read? then Enabled(w, s) else n.buffer == w.buffer)
     && n.phase == Polling && n.status == Online && KeepsListening(n, steps[1..], decoder))
  }

  /** Such a step other than a read leaves incoming messages alone. */
  lemma StepAlike(w: State, s: Step, decoder: Decoder)
    requires w.phase == Polling && w.status == Online && Enabled(w, s) && !s.Read?
    requires var n := Perform(w, s, decoder); n.phase == Polling && n.status == Online
    ensures Alike(w.machine, Perform(w, s, decoder).machine) && Perform(w, s, decoder).max == w.max
  {
  }

  /**
   Incoming messages do not depend on the commands: over any steps at all, starts, timeouts and
   replies among them, what is sent on is what the lines read would give alone.
   */
  lemma {:induction false} RunAlike(w: State, m: Machine, steps: seq<Step>, decoder: Decoder)
    requires w.phase == Polling && w.status == Online && KeepsListening(w, steps, decoder) && Alike(w.machine, m)
    ensures Alike(Run(w, steps, decoder).machine,
                  HandleLines(m, EventsOfReads(w.buffer, w.max, Conversation.DataOf(steps)), decoder, {}))
    decreases |steps|
  {
    if steps != [] {
      var s, more := steps[0], steps[1..];
      var n := if Enabled(w, s) then Perform(w, s, decoder) else w;
      if s.Read? {
        var events := Events(w.buffer + s.data);
        LinesAlike(w.machine, m, events, decoder, w.gone, {});
        HandleLinesConcat(m, events, EventsOfReads(n.buffer, n.max, Conversation.DataOf(more)), decoder, {});
        RunAlike(n, HandleLines(m, events, decoder, {}), more, decoder);
      } else {
        assert Conversation.DataOf(steps) == Conversation.DataOf(more);
        if Enabled(w, s) { StepAlike(w, s, decoder); }
        RunAlike(n, m, more, decoder);
      }
    }
  }

  /** The bytes as the worker reads them over such a run. */
  lemma RunBringsOn(w: State, stale: string, pieces: seq<Piece>, blocks: seq<Block>, rest: string, steps: seq<Step>,
                    sent: seq<ModemIncomingMessage>, decoder: Decoder)
    requires w.phase == Polling && w.status == Online && KeepsListening(w, steps, decoder)
    requires !w.machine.state.Unsolicited? && !AwaitsPayload(stale) && ReadAs(pieces, blocks)
    requires var chunks := Conversation.DataOf(steps);
      Delivers(w.buffer, Concat(chunks), stale, TextOf(pieces), rest) && Untruncated(w.buffer, w.max, chunks)
    requires Run(w, steps, decoder).machine.sent == w.machine.sent + sent
    ensures BringsOn(sent, blocks, decoder)
  {
    RunAlike(w, w.machine, steps, decoder);
    FramedReads(w.buffer, stale, pieces, rest, w.max, Conversation.DataOf(steps));
    StaleStream(stale, blocks);
    NoticesPass(w.machine, StaleBlocks(stale) + blocks, decoder, {});
    PassedBringsOn(w.machine.sent, sent, stale, blocks, decoder);
  }

  /**
   From bytes to rows, for the worker: over any steps that keep it at its port, whatever commands
   they start, answer or time out, a message whose parts are notified in what is read is stored by a
   receiver that is given what the worker sends on, with no part late.
   */
  lemma MultipartStoredByRun(w: State, stale: string, pieces: seq<Piece>, blocks: seq<Block>, rest: string,
                             steps: seq<Step>, sent: seq<ModemIncomingMessage>, decoder: Decoder, key: Reception.Key,
                             texts: seq<string>, events: seq<Reception.Event>, from: nat)
    requires w.phase == Polling && w.status == Online && KeepsListening(w, steps, decoder)
    requires !w.machine.state.Unsolicited? && !AwaitsPayload(stale) && ReadAs(pieces, blocks)
    requires var chunks := Conversation.DataOf(steps);
      Delivers(w.buffer, Concat(chunks), stale, TextOf(pieces), rest) && Untruncated(w.buffer, w.max, chunks)
    requires var parts := PartsFor(key, AllNotified(Notifications(blocks), decoder));
      BringTexts(parts, texts) && JustComplete(parts, |texts|)
    requires Run(w, steps, decoder).machine.sent == w.machine.sent + sent
    requires Received(events) == SmsOf(sent) && Reception.Ordered(events, from)
    requires Reception.Timely(key, None, 0, events)
    ensures Deliveries.Row(key.phoneNumber, Multipart.ConcatFrom(texts, 0), None, false, None, false)
      in Stored(map[], events)
  {
    RunBringsOn(w, stale, pieces, blocks, rest, steps, sent, decoder);
    PartsStored(key, texts, SmsOf(sent), events, from);
  }

  /** A message of one part that is notified in what is read is stored as it is. */
  lemma WholeStoredByRun(w: State, stale: string, pieces: seq<Piece>, blocks: seq<Block>, rest: string,
                         steps: seq<Step>, sent: seq<ModemIncomingMessage>, decoder: Decoder, sms: IncomingSms,
                         groups: Reception.Groups, events: seq<Reception.Event>)
    requires w.phase == Polling && w.status == Online && KeepsListening(w, steps, decoder)
    requires !w.machine.state.Unsolicited? && !AwaitsPayload(stale) && ReadAs(pieces, blocks)
    requires var chunks := Conversation.DataOf(steps);
      Delivers(w.buffer, Concat(chunks), stale, TextOf(pieces), rest) && Untruncated(w.buffer, w.max, chunks)
    requires sms in AllNotified(Notifications(blocks), decoder) && sms.header.None?
    requires Run(w, steps, decoder).machine.sent == w.machine.sent + sent && Received(events) == SmsOf(sent)
    ensures Deliveries.Row(sms.phoneNumber, sms.content, None, false, None, false) in Stored(groups, events)
  {
    RunBringsOn(w, stale, pieces, blocks, rest, steps, sent, decoder);
    WholeStored(groups, events, sms);
  }

  /** And over any such run the reports that the notices bring complete the rows of each address. */
  lemma ReportsHandledByRun(w: State, stale: string, pieces: seq<Piece>, blocks: seq<Block>, rest: string,
                            steps: seq<Step>, sent: seq<ModemIncomingMessage>, decoder: Decoder, s: Deliveries.State,
                            calls: seq<Deliveries.Step>, address: Deliveries.Address, isFinal: u8 -> bool)
    requires w.phase == Polling && w.status == Online && KeepsListening(w, steps, decoder)
    requires !w.machine.state.Unsolicited? && !AwaitsPayload(stale) && ReadAs(pieces, blocks)
    requires var chunks := Conversation.DataOf(steps);
      Delivers(w.buffer, Concat(chunks), stale, TextOf(pieces), rest) && Untruncated(w.buffer, w.max, chunks)
    requires Run(w, steps, decoder).machine.sent == w.machine.sent + sent
    requires Deliveries.Inv(s, isFinal) && Handled(Deliveries.Effects(s, calls, isFinal)) == ReportsIn(sent)
    ensures Completes(Deliveries.Settled(s, isFinal),
                      Deliveries.Settled(Deliveries.Run(s, calls, isFinal), isFinal),
                      Deliveries.Effects(s, calls, isFinal), AllReported(Notifications(blocks), decoder), address,
                      isFinal)
  {
    RunBringsOn(w, stale, pieces, blocks, rest, steps, sent, decoder);
    ReportsComplete(s, calls, address, isFinal);
  }
}
