/**
 What becomes of a command that is held when the modem announces that it powers down: the loop takes
 the status change before it reads again, and the command is failed.
 */
module Shutdown {
  import opened Text
  import opened Framing
  import opened Chunking
  import opened Types
  import opened StateMachine
  import opened Interleaving
  import opened EndToEnd
  import opened Queries
  import opened Worker
  import opened Conversation

  // --- a power-down notice that is read while a command is held ---

  lemma {:induction false} NotHeldStays(m: Machine, events: seq<LineEvent>, decoder: Decoder, gone: set<nat>)
    requires Held(m.state).None?
    ensures Held(HandleLines(m, events, decoder, gone).state).None?
    decreases |events|
  {
    if events != [] {
      LineMoves(m, events[0], decoder, gone);
      NotHeldStays(HandleLine(m, events[0], decoder, gone), events[1..], decoder, gone);
    }
  }

  /** A command that is still held has not been answered. */
  lemma {:induction false} HeldIsKept(m: Machine, events: seq<LineEvent>, decoder: Decoder, gone: set<nat>)
    requires Answerable(m.state) && Held(HandleLines(m, events, decoder, gone).state).Some?
    ensures Kept(m, HandleLines(m, events, decoder, gone))
    decreases |events|
  {
    if events != [] {
      var n := HandleLine(m, events[0], decoder, gone);
      LineMoves(m, events[0], decoder, gone);
      if Held(n.state).None? { NotHeldStays(n, events[1..], decoder, gone); }
      HeldIsKept(n, events[1..], decoder, gone);
    }
  }

  lemma {:induction false} QueuedStays(m: Machine, events: seq<LineEvent>, e: WorkerEvent, decoder: Decoder,
                                       gone: set<nat>)
    requires e in m.queue
    ensures e in HandleLines(m, events, decoder, gone).queue
    decreases |events|
  {
    if events != [] {
      Frame(m, events[0], decoder, gone);
      QueuedStays(HandleLine(m, events[0], decoder, gone), events[1..], e, decoder, gone);
    }
  }

  lemma NoticeQueued(m: Machine, event: LineEvent, decoder: Decoder, gone: set<nat>)
    requires m.state.Command? && IsPowerDown(event)
    ensures SetStatus(ShuttingDown) in HandleLine(m, event, decoder, gone).queue
  {
    ErrorPathIdle(m, event, decoder, gone);
  }

  /** If lines hold a power-down notice and the command is held behind them, the status change is due. */
  lemma {:induction false} PowerDownQueued(m: Machine, events: seq<LineEvent>, decoder: Decoder, gone: set<nat>)
    requires Answerable(m.state) && !NoPowerDown(events)
    requires Held(HandleLines(m, events, decoder, gone).state).Some?
    ensures SetStatus(ShuttingDown) in HandleLines(m, events, decoder, gone).queue
    decreases |events|
  {
    var n := HandleLine(m, events[0], decoder, gone);
    LineMoves(m, events[0], decoder, gone);
    if Held(n.state).None? {
      NotHeldStays(n, events[1..], decoder, gone);
    } else if IsPowerDown(events[0]) {
      NoticeQueued(m, events[0], decoder, gone);
      QueuedStays(n, events[1..], SetStatus(ShuttingDown), decoder, gone);
    } else {
      PowerDownQueued(n, events[1..], decoder, gone);
    }
  }

  // --- from the notice to the reply ---

  /** The worker holds the command of this channel, and is bound to shut down before it reads again. */
  predicate Closing(w: State, channel: nat) {
    && Held(w.machine.state).Some? && Held(w.machine.state).value.command.channel == channel
    && Held(w.machine.state).value.command.open && OnlyShutdowns(w.machine.queue)
    && (match w.phase
        case Polling =>
          w.status == ShuttingDown || (w.status == Online && SetStatus(ShuttingDown) in w.machine.queue)
        case Draining => w.status == ShuttingDown
        case _ => false)
  }

  /** A write is due: the PDU, say, whose prompt came with the notice. */
  predicate WriteIsDue(m: Machine) {
    exists e :: e in m.queue && e.WriteCommand?
  }

  /** `n` has failed the command of this channel; that a write failed can be the reason only if one was due. */
  predicate ShutDownReply(m: Machine, n: Machine, channel: nat) {
    && |n.replies| > |m.replies| && m.replies <= n.replies
    && var reply := n.replies[|m.replies|];
       reply.channel == channel
       && (reply.response == Error("Modem is shutting down")
           || (reply.response == Error("Write failed") && WriteIsDue(m)))
  }

  /** Still on the way, and nothing else has been answered. */
  predicate Underway(w: State, n: State, channel: nat) {
    Closing(n, channel) && n.machine.replies == w.machine.replies && (WriteIsDue(n.machine) ==> WriteIsDue(w.machine))
  }

  lemma ClosingEvent(w: State, portAccepts: bool, channel: nat, decoder: Decoder)
    requires Closing(w, channel) && Enabled(w, HandleEvent(portAccepts))
    ensures var n := Perform(w, HandleEvent(portAccepts), decoder);
      Underway(w, n, channel) || ShutDownReply(w.machine, n.machine, channel)
  {
    var e := w.machine.queue[0];
    assert e in w.machine.queue;
    assert w.machine.queue == [e] + w.machine.queue[1..];
    if e.SetStatus? { assert e == SetStatus(ShuttingDown); }
  }

  lemma ClosingStep(w: State, s: Step, channel: nat, decoder: Decoder)
    requires Closing(w, channel) && Enabled(w, s)
    ensures var n := Perform(w, s, decoder);
      Underway(w, n, channel) || ShutDownReply(w.machine, n.machine, channel)
  {
    if s.HandleEvent? { ClosingEvent(w, s.portAccepts, channel, decoder); }
  }

  lemma UnderwayOn(w: State, n: State, k: State, channel: nat)
    requires Underway(w, n, channel)
    ensures Underway(n, k, channel) ==> Underway(w, k, channel)
    ensures ShutDownReply(n.machine, k.machine, channel) ==> ShutDownReply(w.machine, k.machine, channel)
  {
  }

  lemma ReplyStays(m: Machine, w: State, steps: seq<Step>, channel: nat, decoder: Decoder)
    requires WorkerRuns.Inv(w) && ShutDownReply(m, w.machine, channel)
    ensures ShutDownReply(m, Run(w, steps, decoder).machine, channel)
  {
    WorkerRuns.RunGrows(w, steps, decoder);
  }

  /** Over any steps the command is underway to being failed, or has been, before any other reply. */
  lemma {:induction false} ClosingRun(w: State, steps: seq<Step>, channel: nat, decoder: Decoder)
    requires WorkerRuns.Inv(w) && Closing(w, channel)
    ensures var n := Run(w, steps, decoder);
      Underway(w, n, channel) || ShutDownReply(w.machine, n.machine, channel)
    decreases |steps|
  {
    if steps != [] {
      var s, more := steps[0], steps[1..];
      if !Enabled(w, s) {
        ClosingRun(w, more, channel, decoder);
      } else {
        var n := Perform(w, s, decoder);
        ClosingStep(w, s, channel, decoder);
        WorkerRuns.StepInv(w, s, decoder);
        if Underway(w, n, channel) {
          ClosingRun(n, more, channel, decoder);
          UnderwayOn(w, n, Run(n, more, decoder), channel);
        } else {
          ReplyStays(w.machine, n, more, channel, decoder);
        }
      }
    }
  }

  /** How far the worker is from failing the command: the phases to go through, and the events due. */
  function PhasesLeft(w: State): nat {
    if w.phase == Draining then 0 else if w.status == ShuttingDown then 1 else 2
  }

  /** The arm that the worker takes next. */
  function NextArm(w: State): Step {
    if w.machine.queue != [] && (w.phase == Draining || w.status == Online) then HandleEvent(true)
    else if w.phase == Draining then FinishDraining
    else EnterShutdown
  }

  predicate Nearer(w: State, n: State) {
    PhasesLeft(n) < PhasesLeft(w) || (PhasesLeft(n) == PhasesLeft(w) && |n.machine.queue| < |w.machine.queue|)
  }

  lemma ArmAdvances(w: State, channel: nat, decoder: Decoder)
    requires Closing(w, channel)
    ensures Enabled(w, NextArm(w))
    ensures var n := Perform(w, NextArm(w), decoder);
      if Underway(w, n, channel) then Nearer(w, n) else ShutDownReply(w.machine, n.machine, channel)
  {
    ClosingStep(w, NextArm(w), channel, decoder);
  }

  predicate IsOwnArm(s: Step) {
    s == HandleEvent(true) || s == EnterShutdown || s == FinishDraining
  }

  lemma ReplyAfter(w: State, s: Step, more: seq<Step>, channel: nat, decoder: Decoder)
    requires Enabled(w, s) && var n := Perform(w, s, decoder);
      if Underway(w, n, channel) then ShutDownReply(n.machine, Run(n, more, decoder).machine, channel)
      else more == [] && ShutDownReply(w.machine, n.machine, channel)
    ensures ShutDownReply(w.machine, Run(w, [s] + more, decoder).machine, channel)
  {
    var n := Perform(w, s, decoder);
    RunCons(w, s, more, decoder);
    if Underway(w, n, channel) { UnderwayOn(w, n, Run(n, more, decoder), channel); }
  }

  /** And the worker's own steps get there: none has to wait for the modem, the port or a caller. */
  lemma {:induction false} ClosingEnds(w: State, channel: nat, decoder: Decoder) returns (steps: seq<Step>)
    requires WorkerRuns.Inv(w) && Closing(w, channel)
    ensures ShutDownReply(w.machine, Run(w, steps, decoder).machine, channel)
    ensures forall s :: s in steps ==> IsOwnArm(s)
    decreases PhasesLeft(w), |w.machine.queue|
  {
    var s := NextArm(w);
    ArmAdvances(w, channel, decoder);
    var n := Perform(w, s, decoder);
    var more := [];
    if Underway(w, n, channel) {
      WorkerRuns.StepInv(w, s, decoder);
      more := ClosingEnds(n, channel, decoder);
    }
    ReplyAfter(w, s, more, channel, decoder);
    steps := [s] + more;
  }

  // --- from the start of the command ---

  /**
   Calm steps, and then a read that is due, brings the first power-down notice, and leaves the command
   held: its answer has not been read to the end.
   */
  predicate BringsNotice(w: State, wait: Wait, steps: seq<Step>, data: string, decoder: Decoder) {
    && CalmUntil(w, wait, steps, decoder) && Enabled(Run(w, steps, decoder), Read(data))
    && !NoPowerDown(EventsOfReads(w.buffer, w.max, DataOf(steps) + [data]))
    && Held(HandleLines(w.machine, EventsOfReads(w.buffer, w.max, DataOf(steps) + [data]), decoder, w.gone).state).Some?
  }

  /** The worker's machine holds what `m` holds, at the end of the read. */
  lemma SameHeld(w: State, wn: State, m: Machine, events: seq<LineEvent>, decoder: Decoder)
    requires Waiting(w) && Attentive(wn, m, WaitOf(w))
    requires Held(HandleLines(m, events, decoder, w.gone).state).Some?
    ensures Held(HandleLines(wn.machine, events, decoder, wn.gone).state).Some?
  {
    ReadLines(wn, events, m, WaitOf(w), decoder);
    assert Unqueued(HandleLines(wn.machine, events, decoder, wn.gone)).state
        == Unqueued(HandleLines(m, events, decoder, w.gone)).state;
  }

  lemma NoticeCloses(wn: State, data: string, channel: nat, decoder: Decoder)
    requires WorkerRuns.Inv(wn) && Enabled(wn, Read(data)) && !NoPowerDown(Events(wn.buffer + data))
    requires Held(HandleLines(wn.machine, Events(wn.buffer + data), decoder, wn.gone).state).Some?
    requires Held(wn.machine.state).Some? ==> Held(wn.machine.state).value.command.channel == channel
    ensures var n := Perform(wn, Read(data), decoder);
      Closing(n, channel) && n.machine.replies == wn.machine.replies
  {
    var events := Events(wn.buffer + data);
    HeldIsKept(wn.machine, events, decoder, wn.gone);
    PowerDownQueued(wn.machine, events, decoder, wn.gone);
    WorkerRuns.StepInv(wn, Read(data), decoder);
  }

  lemma BeforeNotice(w: State, wait: Wait, steps: seq<Step>, data: string, decoder: Decoder)
    requires Waiting(w) && wait == WaitOf(w) && BringsNotice(w, wait, steps, data, decoder)
    ensures var wn := Run(w, steps, decoder);
      && !NoPowerDown(Events(wn.buffer + data)) && wn.machine.replies == w.machine.replies
      && Held(HandleLines(wn.machine, Events(wn.buffer + data), decoder, wn.gone).state).Some?
      && (Held(wn.machine.state).Some? ==> Held(wn.machine.state).value.command.channel == wait.channel)
  {
    var wn := Run(w, steps, decoder);
    var before := EventsOfReads(w.buffer, w.max, DataOf(steps));
    var m := HandleLines(w.machine, before, decoder, w.gone);
    CalmRun(w, w.machine, steps, wait, decoder);
    ReadAfter(w.buffer, w.max, DataOf(steps), data);
    var events := Events(wn.buffer + data);
    assert !NoPowerDown(before + events);
    HandleLinesConcat(w.machine, before, events, decoder, w.gone);
    SameHeld(w, wn, m, events, decoder);
    if Held(m.state).None? { NotHeldStays(m, events, decoder, w.gone); }
    HeldIsKept(w.machine, before, decoder, w.gone);
  }

  /**
   A command that is held behind the read of a power-down notice is failed: over any steps that
   follow it is on the way to that or has been failed, before anything else is answered.
   */
  lemma ShutDownWhileHeld(w: State, wait: Wait, steps: seq<Step>, data: string, rest: seq<Step>, decoder: Decoder)
    requires WorkerRuns.Inv(w) && Waiting(w) && wait == WaitOf(w) && BringsNotice(w, wait, steps, data, decoder)
    ensures var read := Perform(Run(w, steps, decoder), Read(data), decoder);
      var n := Run(w, steps + ([Read(data)] + rest), decoder);
      && Closing(read, wait.channel) && read.machine.replies == w.machine.replies
      && (Underway(read, n, wait.channel) || ShutDownReply(read.machine, n.machine, wait.channel))
  {
    var wn := Run(w, steps, decoder);
    var read := Perform(wn, Read(data), decoder);
    BeforeNotice(w, wait, steps, data, decoder);
    WorkerRuns.RunInv(w, steps, decoder);
    WorkerRuns.StepInv(wn, Read(data), decoder);
    NoticeCloses(wn, data, wait.channel, decoder);
    ClosingRun(read, rest, wait.channel, decoder);
    RunThrough(w, steps, Read(data), rest, decoder);
  }

  // --- the answer read in part ---

  /** What is read of notices and plain lines leaves the state that the plain lines alone leave. */
  lemma PlainState(m: Machine, buffer: string, stale: string, pieces: seq<Piece>, blocks: seq<Block>, rest: string,
                   max: nat, chunks: seq<string>, decoder: Decoder, gone: set<nat>)
    requires !m.state.Unsolicited? && !AwaitsPayload(stale) && ReadAs(pieces, blocks)
    requires Delivers(buffer, Concat(chunks), stale, TextOf(pieces), rest) && Untruncated(buffer, max, chunks)
    ensures HandleLines(m, EventsOfReads(buffer, max, chunks), decoder, gone).state
      == HandleLines(m, Stream(LineEvents(StaleLines(stale)) + Erased(blocks)), decoder, gone).state
  {
    FramedReads(buffer, stale, pieces, rest, max, chunks);
    StaleStream(stale, blocks);
    NonInterference(m, StaleBlocks(stale) + blocks, decoder, gone);
  }

  /** A submission is held before its prompt has come, whatever lines have ... */
  lemma EarlyHeld(m: Machine, stale: string, early: seq<string>, decoder: Decoder, gone: set<nat>)
    requires JustSubmitted(m) && IsRemainder(stale) && AreReplyLines(early)
    ensures HandleLines(m, Stream(LineEvents(StaleLines(stale)) + LineEvents(early)), decoder, gone).state.Command?
  {
    StaleIsReplyLine(stale);
    LineEventsConcat(StaleLines(stale), early);
    HeardLines(m, WaitingForPrompt, [], StaleLines(stale) + early, decoder, gone);
  }

  /** ... and behind it as long as no line concludes. */
  lemma DialogueHeld(m: Machine, early: seq<string>, lines: seq<string>, decoder: Decoder, gone: set<nat>)
    requires JustSubmitted(m) && AreReplyLines(early) && Continues(WaitingForOk, lines)
    ensures HandleLines(m, Stream(Dialogue(early, lines)), decoder, gone).state.Command?
  {
    var waiting := HandleLines(m, Stream(LineEvents(early)), decoder, gone);
    HeardLines(m, WaitingForPrompt, [], early, decoder, gone);
    assert [] + early == early;
    PromptStep(waiting, early, decoder, gone);
    HeardLines(HandleLine(waiting, Prompt(">"), decoder, gone), WaitingForOk, early, lines, decoder, gone);
    DialogueStream(m, early, lines, decoder, gone);
  }

  /**
   So whatever part of a transcript has been read, before its prompt or without a line that
   concludes, leaves the submission held.
   */
  lemma TranscriptSoFar(m: Machine, buffer: string, stale: string, early: seq<string>, lines: seq<string>,
                        pieces: seq<Piece>, blocks: seq<Block>, rest: string, max: nat, chunks: seq<string>,
                        decoder: Decoder, gone: set<nat>)
    requires JustSubmitted(m) && !AwaitsPayload(stale) && AreReplyLines(early) && Continues(WaitingForOk, lines)
    requires ReadAs(pieces, blocks) && (Erased(blocks) == LineEvents(early) || Erased(blocks) == Dialogue(early, lines))
    requires Delivers(buffer, Concat(chunks), stale, TextOf(pieces), rest) && Untruncated(buffer, max, chunks)
    ensures Held(HandleLines(m, EventsOfReads(buffer, max, chunks), decoder, gone).state).Some?
  {
    PlainState(m, buffer, stale, pieces, blocks, rest, max, chunks, decoder, gone);
    StaleIsReplyLine(stale);
    if Erased(blocks) == LineEvents(early) {
      EarlyHeld(m, stale, early, decoder, gone);
    } else {
      StaleIsEarly(stale, early, lines);
      DialogueHeld(m, StaleLines(stale) + early, lines, decoder, gone);
    }
  }

  /** The same for a query, as long as the final line of its response has not come. */
  lemma {:induction false} LinesHeld(m: Machine, heard: string, lines: seq<string>, decoder: Decoder, gone: set<nat>)
    requires Asking(m, heard)
    requires forall line :: line in lines ==>
      Trim(line) == line && FromHeader(line).None? && !WaitingForData.IsComplete(line)
    ensures HandleLines(m, Stream(LineEvents(lines)), decoder, gone).state.Command?
    decreases |lines|
  {
    if lines != [] {
      var line, more := lines[0], lines[1..];
      assert line in lines;
      StreamCons(Plain(Line(line)), LineEvents(more));
      OneLine(m, Line(line), decoder, gone);
      HandleLinesConcat(m, [Line(line)], Stream(LineEvents(more)), decoder, gone);
      ReplyLineStep(m, heard, line, decoder, gone);
      LinesHeld(HandleLine(m, Line(line), decoder, gone), heard + line + "\n", more, decoder, gone);
    }
  }

  lemma UnfinishedLines(stale: string, lines: seq<string>, k: nat)
    requires IsResponse(lines) && k < |lines| && !WaitingForData.IsComplete(Trim(stale))
    ensures forall line :: line in StaleLines(stale) + lines[..k] ==>
      Trim(line) == line && FromHeader(line).None? && !WaitingForData.IsComplete(line)
  {
    TrimIdempotent(stale);
    forall line | line in lines[..k] ensures IsReplyLine(line) && !WaitingForData.IsComplete(line) {
      var j :| 0 <= j < k && line == lines[..k][j];
      assert lines[j] in lines;
    }
  }

  lemma ResponseSoFar(m: Machine, buffer: string, stale: string, lines: seq<string>, k: nat, pieces: seq<Piece>,
                      blocks: seq<Block>, rest: string, max: nat, chunks: seq<string>, decoder: Decoder, gone: set<nat>)
    requires JustAsked(m) && IsResponse(lines) && !AwaitsPayload(stale) && !WaitingForData.IsComplete(Trim(stale))
    requires ReadAs(pieces, blocks) && k < |lines| && Erased(blocks) == LineEvents(lines[..k])
    requires Delivers(buffer, Concat(chunks), stale, TextOf(pieces), rest) && Untruncated(buffer, max, chunks)
    ensures Held(HandleLines(m, EventsOfReads(buffer, max, chunks), decoder, gone).state).Some?
  {
    PlainState(m, buffer, stale, pieces, blocks, rest, max, chunks, decoder, gone);
    UnfinishedHeld(m, stale, lines, k, decoder, gone);
  }

  lemma UnfinishedHeld(m: Machine, stale: string, lines: seq<string>, k: nat, decoder: Decoder, gone: set<nat>)
    requires JustAsked(m) && IsResponse(lines) && k < |lines| && !WaitingForData.IsComplete(Trim(stale))
    ensures HandleLines(m, Stream(LineEvents(StaleLines(stale)) + LineEvents(lines[..k])), decoder, gone).state.Command?
  {
    LineEventsConcat(StaleLines(stale), lines[..k]);
    UnfinishedLines(stale, lines, k);
    LinesHeld(m, "", StaleLines(stale) + lines[..k], decoder, gone);
  }

  // --- a schedule that meets these conditions ---

  const NOTICE := "\r\nSHUTDOWN\r\n"

  lemma NoticePiece()
    ensures GoodPiece(LinePiece("\r\n", "SHUTDOWN", "\r\n"))
    ensures PieceText(LinePiece("\r\n", "SHUTDOWN", "\r\n")) == NOTICE
    ensures Trim("SHUTDOWN") == "SHUTDOWN"
  {
    TrimTight("SHUTDOWN");
  }

  lemma NoticeRead()
    ensures Events("" + NOTICE) == [Line("SHUTDOWN")] && IsPowerDown(Line("SHUTDOWN"))
  {
    NoticePiece();
    PieceRead(LinePiece("\r\n", "SHUTDOWN", "\r\n"));
    assert [LineCue("SHUTDOWN")][1..] == [];
  }

  lemma NoticeHandled(m: Machine, decoder: Decoder, gone: set<nat>)
    requires m.state.Command?
    ensures HandleLines(m, [Line("SHUTDOWN")], decoder, gone) == m.(queue := m.queue + [SetStatus(ShuttingDown)])
  {
    TrimTight("SHUTDOWN");
    OneLine(m, Line("SHUTDOWN"), decoder, gone);
    ErrorPathIdle(m, Line("SHUTDOWN"), decoder, gone);
  }

  lemma NoticePerformed(w: State, decoder: Decoder)
    requires Enabled(w, Read(NOTICE)) && w.buffer == "" && w.machine.state.Command?
    ensures var n := Perform(w, Read(NOTICE), decoder);
      n.machine == w.machine.(queue := [SetStatus(ShuttingDown)]) && n.phase == Polling && n.status == Online
  {
    NoticeRead();
    NoticeHandled(w.machine, decoder, w.gone);
  }

  /** A notice read right behind the write of any command: nothing else is due. */
  lemma NoticeAlone(w: State, decoder: Decoder)
    requires Enabled(w, Read(NOTICE)) && w.buffer == ""
    requires w.machine.state.Command? && w.machine.state.execution.command.open
    ensures var n := Perform(w, Read(NOTICE), decoder);
      && Closing(n, w.machine.state.execution.command.channel)
      && n.machine.replies == w.machine.replies && !WriteIsDue(n.machine)
  {
    NoticePerformed(w, decoder);
    assert SetStatus(ShuttingDown) in [SetStatus(ShuttingDown)];
  }

  /** So any command at the head of the queue can be started and then be failed for the shutdown. */
  lemma ScheduledShutdown(w: State, now: nat, decoder: Decoder) returns (rest: seq<Step>)
    requires WorkerRuns.Inv(w) && Enabled(w, Start(now)) && w.buffer == ""
    ensures var n := Run(w, [Start(now)] + ([HandleEvent(true)] + ([Read(NOTICE)] + rest)), decoder).machine;
      && |n.replies| > |w.machine.replies| && w.machine.replies <= n.replies
      && var reply := n.replies[|w.machine.replies|];
         reply.channel == w.commands[0].channel && reply.response == Error("Modem is shutting down")
  {
    var a := Perform(w, Start(now), decoder);
    StartWaits(w, now, decoder);
    StartAsks(w.machine, w.commands[0], now);
    WorkerRuns.StepInv(w, Start(now), decoder);
    WriteDone(a, decoder);
    var b := Perform(a, HandleEvent(true), decoder);
    WorkerRuns.StepInv(a, HandleEvent(true), decoder);
    NoticeAlone(b, decoder);
    WorkerRuns.StepInv(b, Read(NOTICE), decoder);
    var c := Perform(b, Read(NOTICE), decoder);
    rest := ClosingEnds(c, w.commands[0].channel, decoder);
    RunCons(b, Read(NOTICE), rest, decoder);
    RunCons(a, HandleEvent(true), [Read(NOTICE)] + rest, decoder);
    RunCons(w, Start(now), [HandleEvent(true)] + ([Read(NOTICE)] + rest), decoder);
  }
}
