/** Unsolicited messages between the lines of a command's response leave the command alone. */
module Interleaving {
  import opened Text
  import opened Framing
  import opened Types
  import opened Parsers
  import opened Handlers
  import opened StateMachine

  // --- queues and messages only grow at the end ---

  function Bare(m: Machine): Machine {
    m.(queue := [], sent := [])
  }

  /** `n` is `b` with what was already queued and sent in `m` in front. */
  predicate Extends(m: Machine, n: Machine, b: Machine) {
    && n.state == b.state && n.replies == b.replies && n.dropped == b.dropped
    && n.queue == m.queue + b.queue && n.sent == m.sent + b.sent
  }

  lemma FrameUnsolicited(m: Machine, kind: UnsolicitedMessageKind, content: string, decoder: Decoder)
    ensures Extends(m, HandleUnsolicited(m, kind, content, decoder),
                    HandleUnsolicited(Bare(m), kind, content, decoder))
  {
  }

  lemma FrameResponse(m: Machine, execution: CommandExecution, content: string, decoder: Decoder, gone: set<nat>)
    requires m.state == Command(execution)
    ensures Extends(m, ProcessResponse(m, execution, content, decoder, gone).machine,
                    ProcessResponse(Bare(m), execution, content, decoder, gone).machine)
  {
    var next := Buffered(execution, content);
    var answer := Answer(execution.command.request, next.context.responseBuffer, decoder);
  }

  lemma FramePrompt(m: Machine, execution: CommandExecution, gone: set<nat>)
    requires m.state == Command(execution)
    ensures Extends(m, ProcessPrompt(m, execution, gone).machine, ProcessPrompt(Bare(m), execution, gone).machine)
  {
  }

  /** What a line does does not depend on what was queued or sent before. */
  lemma Frame(m: Machine, event: LineEvent, decoder: Decoder, gone: set<nat>)
    ensures Extends(m, HandleLine(m, event, decoder, gone), HandleLine(Bare(m), event, decoder, gone))
  {
    ErrorPathIdle(m, event, decoder, gone);
    ErrorPathIdle(Bare(m), event, decoder, gone);
    var e := Classify(m.state, event);
    match m.state
    case Idle =>
      if e.UnsolicitedMessage? { FrameUnsolicited(m, e.kind, e.header, decoder); }
    case Unsolicited(kind, _) =>
      if e.Data? { FrameUnsolicited(m, kind, e.content, decoder); }
    case Command(x) =>
      match e
      case UnsolicitedMessage(kind, header) => FrameUnsolicited(m, kind, header, decoder);
      case PromptReceived(_) => FramePrompt(m, x, gone);
      case CommandResponse(content) => FrameResponse(m, x, content, decoder, gone);
      case Data(content) => FrameResponse(m, x, content, decoder, gone);
  }

  // --- streams of blocks ---

  /** What the modem sends at a line boundary: a line of its own, or a whole unsolicited message. */
  datatype Block =
    | Plain(event: LineEvent)
    | Notification(header: string)
    | NotificationWithPayload(header: string, payload: string)

  predicate IsHeader(line: string, hasNextLine: bool) {
    var kind := FromHeader(Trim(line));
    kind.Some? && kind.value.HasNextLine() == hasNextLine
  }

  predicate WellFormed(b: Block) {
    match b
    case Plain(event) => event.Prompt? || FromHeader(Trim(event.content)).None?
    case Notification(header) => IsHeader(header, false)
    case NotificationWithPayload(header, payload) => IsHeader(header, true) && FromHeader(Trim(payload)).None?
  }

  predicate AllWellFormed(blocks: seq<Block>) {
    forall b :: b in blocks ==> WellFormed(b)
  }

  function BlockEvents(b: Block): seq<LineEvent> {
    match b
    case Plain(event) => [event]
    case Notification(header) => [Line(header)]
    case NotificationWithPayload(header, payload) => [Line(header), Line(payload)]
  }

  function Stream(blocks: seq<Block>): seq<LineEvent> {
    if blocks == [] then [] else BlockEvents(blocks[0]) + Stream(blocks[1..])
  }

  /** The stream without its unsolicited messages ... */
  function Erased(blocks: seq<Block>): seq<Block> {
    if blocks == [] then []
    else (if blocks[0].Plain? then [blocks[0]] else []) + Erased(blocks[1..])
  }

  /** ... and the unsolicited messages alone. */
  function Notifications(blocks: seq<Block>): seq<Block> {
    if blocks == [] then []
    else (if blocks[0].Plain? then [] else [blocks[0]]) + Notifications(blocks[1..])
  }

  function Writes(queue: seq<WorkerEvent>): seq<WorkerEvent> {
    if queue == [] then []
    else (if queue[0].WriteCommand? then [queue[0]] else []) + Writes(queue[1..])
  }

  function StatusChanges(queue: seq<WorkerEvent>): seq<WorkerEvent> {
    if queue == [] then []
    else (if queue[0].SetStatus? then [queue[0]] else []) + StatusChanges(queue[1..])
  }

  lemma {:induction false} WritesConcat(a: seq<WorkerEvent>, b: seq<WorkerEvent>)
    ensures Writes(a + b) == Writes(a) + Writes(b)
  {
    if a == [] {
      assert a + b == b;
    } else {
      assert (a + b)[1..] == a[1..] + b;
      WritesConcat(a[1..], b);
      Reassociate(if a[0].WriteCommand? then [a[0]] else [], Writes(a[1..]), Writes(b));
    }
  }

  lemma {:induction false} StatusChangesConcat(a: seq<WorkerEvent>, b: seq<WorkerEvent>)
    ensures StatusChanges(a + b) == StatusChanges(a) + StatusChanges(b)
  {
    if a == [] {
      assert a + b == b;
    } else {
      assert (a + b)[1..] == a[1..] + b;
      StatusChangesConcat(a[1..], b);
      Reassociate(if a[0].SetStatus? then [a[0]] else [], StatusChanges(a[1..]), StatusChanges(b));
    }
  }

  const FRESH := Machine(Idle, [], [], [], [])

  /**
   `m` has read a stream, `e` the same stream erased, `u` its unsolicited messages alone. Before
   the stream `m` and `e` were the same machine and `u` was `FRESH`.
   */
  predicate Parallel(m: Machine, e: Machine, u: Machine) {
    && !m.state.Unsolicited? && u.state == Idle
    && m.state == e.state && m.replies == e.replies && m.dropped == e.dropped
    && m.sent == e.sent + u.sent
    && Writes(m.queue) == Writes(e.queue)
    && StatusChanges(m.queue) == StatusChanges(e.queue) + StatusChanges(u.queue)
  }

  /** At most a write. */
  predicate AtMostWrite(queue: seq<WorkerEvent>) {
    queue == [] || (|queue| == 1 && queue[0].WriteCommand?)
  }

  /** A plain event neither sends a message nor changes the status. */
  lemma PlainBare(m: Machine, event: LineEvent, decoder: Decoder, gone: set<nat>)
    requires !m.state.Unsolicited? && WellFormed(Plain(event)) && m == Bare(m)
    ensures var b := HandleLine(m, event, decoder, gone);
      !b.state.Unsolicited? && b.sent == [] && AtMostWrite(b.queue)
  {
    ErrorPathIdle(m, event, decoder, gone);
    var e := Classify(m.state, event);
    if m.state.Command? && !e.PromptReceived? {
      ResponseIsSilent(m, m.state.execution, e.content, decoder, gone);
    }
  }

  lemma ResponseIsSilent(m: Machine, execution: CommandExecution, content: string, decoder: Decoder, gone: set<nat>)
    requires m.state == Command(execution)
    ensures var b := ProcessResponse(m, execution, content, decoder, gone).machine;
      !b.state.Unsolicited? && b.sent == m.sent && b.queue == m.queue
  {
  }

  lemma PlainStep(m: Machine, event: LineEvent, decoder: Decoder, gone: set<nat>)
    requires !m.state.Unsolicited? && WellFormed(Plain(event))
    ensures var n := HandleLine(m, event, decoder, gone);
      var b := HandleLine(Bare(m), event, decoder, gone);
      && !n.state.Unsolicited? && n.state == b.state && n.replies == b.replies && n.dropped == b.dropped
      && n.sent == m.sent && StatusChanges(n.queue) == StatusChanges(m.queue)
      && Writes(n.queue) == Writes(m.queue) + b.queue
  {
    Frame(m, event, decoder, gone);
    PlainBare(Bare(m), event, decoder, gone);
    var b := HandleLine(Bare(m), event, decoder, gone);
    WritesConcat(m.queue, b.queue);
    StatusChangesConcat(m.queue, b.queue);
    SmallFilters(b.queue);
  }

  lemma SmallFilters(queue: seq<WorkerEvent>)
    requires AtMostWrite(queue)
    ensures Writes(queue) == queue && StatusChanges(queue) == []
  {
    if queue != [] {
      assert queue[1..] == [];
    }
  }

  lemma PlainParallel(m: Machine, e: Machine, u: Machine, event: LineEvent, decoder: Decoder, gone: set<nat>)
    requires Parallel(m, e, u) && WellFormed(Plain(event))
    ensures Parallel(HandleLine(m, event, decoder, gone), HandleLine(e, event, decoder, gone), u)
  {
    PlainStep(m, event, decoder, gone);
    PlainStep(e, event, decoder, gone);
    assert Bare(m) == Bare(e);
  }

  /** An unsolicited block as a whole: only its message or status change is new. */
  lemma BlockStep(m: Machine, b: Block, decoder: Decoder, gone: set<nat>)
    requires !m.state.Unsolicited? && WellFormed(b) && !b.Plain?
    ensures HandleLines(m, BlockEvents(b), decoder, gone) ==
      HandleUnsolicited(m, FromHeader(Trim(b.header)).value,
                        Trim(if b.Notification? then b.header else b.payload), decoder)
  {
    var kind := FromHeader(Trim(b.header)).value;
    var n := HandleLine(m, Line(b.header), decoder, gone);
    if b.Notification? {
      OneLine(m, Line(b.header), decoder, gone);
    } else {
      assert BlockEvents(b)[1..] == [Line(b.payload)];
      OneLine(n, Line(b.payload), decoder, gone);
    }
  }

  function WithRealNumber(sms: IncomingSms): IncomingSms {
    sms.(phoneNumber := GetRealNumber(sms.phoneNumber))
  }

  /** What handling a message of each kind with a payload sends on. */
  lemma PayloadMessages(m: Machine, kind: UnsolicitedMessageKind, data: string, decoder: Decoder)
    ensures var n := HandleUnsolicited(m, kind, data, decoder);
      && (kind == IncomingSMS ==>
            var sms := decoder.sms(data);
            n == m.(sent := m.sent + if sms.Some? then [SmsReceived(WithRealNumber(sms.value))] else []))
      && (kind == DeliveryReport ==>
            var r := decoder.report(data);
            n == m.(sent := m.sent +
              if r.Some? then [ReportReceived(r.value.(phoneNumber := GetRealNumber(r.value.phoneNumber)))] else []))
      && (kind == NetworkStatusChange ==> n == m.(sent := m.sent + [NetworkStatusChanged(0)]))
      && (kind == PoweringDown ==> n == m.(queue := m.queue + [SetStatus(ShuttingDown)]))
  {
    assert m.sent + [] == m.sent;
  }

  /** What the program receives of an unsolicited message, told by its header line. */
  lemma NotificationDelivered(m: Machine, header: string, payload: string, decoder: Decoder, gone: set<nat>)
    requires !m.state.Unsolicited? && FromHeader(Trim(payload)).None? && Trim(header) == header
    ensures var n := HandleLines(m, [Line(header), Line(payload)], decoder, gone);
      var o := HandleLines(m, [Line(header)], decoder, gone);
      var data := Trim(payload);
      && (StartsWith(header, "+CMT") ==>
            var sms := decoder.sms(data);
            var number := if sms.Some? then sms.value.phoneNumber else "";
            var trueNumber := if number == "ASDAmobile" then "2732" else number;
            n == m.(sent := m.sent + if sms.Some? then [SmsReceived(sms.value.(phoneNumber := trueNumber))] else []))
      && (StartsWith(header, "+CDS") ==>
            var r := decoder.report(data);
            var number := if r.Some? then r.value.phoneNumber else "";
            var trueNumber := if number == "ASDAmobile" then "2732" else number;
            n == m.(sent := m.sent + if r.Some? then [ReportReceived(r.value.(phoneNumber := trueNumber))] else []))
      && (StartsWith(header, "+CGREG:") ==> n == m.(sent := m.sent + [NetworkStatusChanged(0)]))
      && (IsPowerDownNotice(header) ==> o == m.(queue := m.queue + [SetStatus(ShuttingDown)]))
  {
    var kind := FromHeader(header);
    HeaderKinds(header);
    if kind.Some? && kind.value.HasNextLine() {
      BlockStep(m, NotificationWithPayload(header, payload), decoder, gone);
      PayloadMessages(m, kind.value, Trim(payload), decoder);
    } else if kind.Some? {
      BlockStep(m, Notification(header), decoder, gone);
      PayloadMessages(m, kind.value, header, decoder);
    }
  }

  lemma PositionLine(m: Machine, header: string, decoder: Decoder, gone: set<nat>)
    requires !m.state.Unsolicited? && FromHeader(header) == Some(GNSSPositionReport) && Trim(header) == header
    ensures HandleLines(m, [Line(header)], decoder, gone)
      == HandleUnsolicited(m, GNSSPositionReport, header, decoder)
  {
    BlockStep(m, Notification(header), decoder, gone);
  }

  lemma PositionMessage(m: Machine, header: string, decoder: Decoder)
    ensures HandleUnsolicited(m, GNSSPositionReport, header, decoder) ==
      match ParseCgnsinfResponse(header, true, decoder)
      case Ok(report) => m.(sent := m.sent + [PositionReceived(report)])
      case Err(_) => m
  {
  }

  /**
   A position report, which has its data on the header line: behind the first colon with a space, or
   nowhere, and then nothing is passed on.
   */
  lemma PositionDelivered(m: Machine, header: string, decoder: Decoder, gone: set<nat>)
    requires !m.state.Unsolicited? && StartsWith(header, "+UGNSINF") && '\n' !in header && Trim(header) == header
    ensures var n := HandleLines(m, [Line(header)], decoder, gone);
      && (NoSeparator(header) ==> n == m)
      && (forall data :: FirstBehind(header, data) ==>
            var report := Trim(data);
            n == if decoder.position(Split(report, ',')) then m.(sent := m.sent + [PositionReceived(report)]) else m)
  {
    HeaderKinds(header);
    PositionParsed(header, decoder);
    PositionLine(m, header, decoder, gone);
    PositionMessage(m, header, decoder);
  }

  /** The headers are these and no other lines, and the prefixes exclude each other. */
  lemma HeaderKinds(header: string)
    ensures StartsWith(header, "+CMT") ==> FromHeader(header) == Some(IncomingSMS)
    ensures StartsWith(header, "+CDS") ==> FromHeader(header) == Some(DeliveryReport)
    ensures StartsWith(header, "+CGREG:") ==> FromHeader(header) == Some(NetworkStatusChange)
    ensures StartsWith(header, "+UGNSINF") ==> FromHeader(header) == Some(GNSSPositionReport)
    ensures header == "NORMAL POWER DOWN" || header == "POWER DOWN" || header == "SHUTDOWN" || header == "POWERING DOWN"
      ==> FromHeader(header) == Some(PoweringDown)
    ensures FromHeader(header).Some? ==>
      || StartsWith(header, "+CMT") || StartsWith(header, "+CDS") || StartsWith(header, "+CGREG:")
      || StartsWith(header, "+UGNSINF") || header == "NORMAL POWER DOWN" || header == "POWER DOWN"
      || header == "SHUTDOWN" || header == "POWERING DOWN"
  {
    assert StartsWith(header, "+CDS") ==> header[2] == 'D';
    assert StartsWith(header, "+CMT") ==> header[2] == 'M';
    assert StartsWith(header, "+CGREG:") ==> header[2] == 'G';
    assert StartsWith(header, "+UGNSINF") ==> header[1] == 'U';
    assert IsPowerDownNotice(header) ==> header[0] != '+';
  }

  lemma NoticeParallel(m: Machine, e: Machine, u: Machine, kind: UnsolicitedMessageKind, content: string,
                       decoder: Decoder)
    requires Parallel(m, e, u)
    ensures Parallel(HandleUnsolicited(m, kind, content, decoder), e, HandleUnsolicited(u, kind, content, decoder))
  {
    NoticeQueue(m, kind, content, decoder);
    NoticeQueue(u, kind, content, decoder);
    FrameUnsolicited(m, kind, content, decoder);
    FrameUnsolicited(u, kind, content, decoder);
    Reassociate(e.sent, u.sent, HandleUnsolicited(FRESH, kind, content, decoder).sent);
    Reassociate(StatusChanges(e.queue), StatusChanges(u.queue), HandleUnsolicited(FRESH, kind, content, decoder).queue);
  }

  lemma BlockParallel(m: Machine, e: Machine, u: Machine, b: Block, decoder: Decoder, gone: set<nat>)
    requires Parallel(m, e, u) && WellFormed(b) && !b.Plain?
    ensures Parallel(HandleLines(m, BlockEvents(b), decoder, gone), e, HandleLines(u, BlockEvents(b), decoder, gone))
  {
    BlockStep(m, b, decoder, gone);
    BlockStep(u, b, decoder, gone);
    NoticeParallel(m, e, u, FromHeader(Trim(b.header)).value, Trim(if b.Notification? then b.header else b.payload),
                   decoder);
  }

  /** What handling a message raises: at most a status change. */
  lemma Raised(m: Machine, kind: UnsolicitedMessageKind, content: string, decoder: Decoder)
    ensures var raised := HandleUnsolicited(FRESH, kind, content, decoder).queue;
      && HandleUnsolicited(m, kind, content, decoder).queue == m.queue + raised
      && (raised == [] || (|raised| == 1 && raised[0].SetStatus?))
  {
  }

  lemma NoticeQueue(m: Machine, kind: UnsolicitedMessageKind, content: string, decoder: Decoder)
    ensures var n := HandleUnsolicited(m, kind, content, decoder);
      var raised := HandleUnsolicited(FRESH, kind, content, decoder).queue;
      Writes(n.queue) == Writes(m.queue) && StatusChanges(n.queue) == StatusChanges(m.queue) + raised
  {
    var raised := HandleUnsolicited(FRESH, kind, content, decoder).queue;
    Raised(m, kind, content, decoder);
    WritesConcat(m.queue, raised);
    StatusChangesConcat(m.queue, raised);
    assert Writes(m.queue) + [] == Writes(m.queue);
  }

  lemma {:induction false} StreamsParallel(m: Machine, e: Machine, u: Machine, blocks: seq<Block>,
                                           decoder: Decoder, gone: set<nat>)
    requires Parallel(m, e, u) && AllWellFormed(blocks)
    ensures Parallel(HandleLines(m, Stream(blocks), decoder, gone),
                     HandleLines(e, Stream(Erased(blocks)), decoder, gone),
                     HandleLines(u, Stream(Notifications(blocks)), decoder, gone))
    decreases |blocks|
  {
    if blocks != [] {
      var b, more := blocks[0], blocks[1..];
      HandleLinesConcat(m, BlockEvents(b), Stream(more), decoder, gone);
      var n := HandleLines(m, BlockEvents(b), decoder, gone);
      if b.Plain? {
        PlainParallel(m, e, u, b.event, decoder, gone);
        OneLine(m, b.event, decoder, gone);
        OneLine(e, b.event, decoder, gone);
        StreamsParallel(n, HandleLine(e, b.event, decoder, gone), u, more, decoder, gone);
        StreamCons(b, Erased(more));
        HandleLinesConcat(e, BlockEvents(b), Stream(Erased(more)), decoder, gone);
        assert Notifications(blocks) == Notifications(more);
      } else {
        BlockParallel(m, e, u, b, decoder, gone);
        var v := HandleLines(u, BlockEvents(b), decoder, gone);
        StreamsParallel(n, e, v, more, decoder, gone);
        StreamCons(b, Notifications(more));
        HandleLinesConcat(u, BlockEvents(b), Stream(Notifications(more)), decoder, gone);
        assert Erased(blocks) == Erased(more);
      }
    }
  }

  lemma OneLine(m: Machine, event: LineEvent, decoder: Decoder, gone: set<nat>)
    ensures HandleLines(m, [event], decoder, gone) == HandleLine(m, event, decoder, gone)
  {
    assert [event][1..] == [];
  }

  lemma StreamCons(b: Block, blocks: seq<Block>)
    ensures Stream([b] + blocks) == BlockEvents(b) + Stream(blocks)
  {
    assert ([b] + blocks)[1..] == blocks;
  }

  /**
   Non-interference: on any stream of plain events and whole unsolicited messages the state, the
   command's context, response buffer and deadline in it, the replies and the writes are those of
   the stream without the messages, and the messages emitted, with the status changes raised, are
   those of the messages alone, whether or not they can be decoded.
   */
  lemma NonInterference(m: Machine, blocks: seq<Block>, decoder: Decoder, gone: set<nat>)
    requires !m.state.Unsolicited? && AllWellFormed(blocks)
    ensures var n := HandleLines(m, Stream(blocks), decoder, gone);
      var e := HandleLines(m, Stream(Erased(blocks)), decoder, gone);
      var u := HandleLines(FRESH, Stream(Notifications(blocks)), decoder, gone);
      && n.state == e.state && n.replies == e.replies && n.dropped == e.dropped
      && Writes(n.queue) == Writes(e.queue)
      && n.sent == e.sent + u.sent
      && StatusChanges(n.queue) == StatusChanges(e.queue) + StatusChanges(u.queue)
  {
    StreamsParallel(m, m, FRESH, blocks, decoder, gone);
  }

  /** The erased stream sends nothing and raises no status change. */
  lemma {:induction false} ErasedIsSilent(m: Machine, blocks: seq<Block>, decoder: Decoder, gone: set<nat>)
    requires !m.state.Unsolicited? && AllWellFormed(blocks)
    ensures var e := HandleLines(m, Stream(Erased(blocks)), decoder, gone);
      e.sent == m.sent && StatusChanges(e.queue) == StatusChanges(m.queue)
    decreases |blocks|
  {
    if blocks != [] {
      var b, more := blocks[0], blocks[1..];
      if b.Plain? {
        var n := HandleLine(m, b.event, decoder, gone);
        PlainStep(m, b.event, decoder, gone);
        ErasedIsSilent(n, more, decoder, gone);
        StreamCons(b, Erased(more));
        HandleLinesConcat(m, BlockEvents(b), Stream(Erased(more)), decoder, gone);
        OneLine(m, b.event, decoder, gone);
      } else {
        ErasedIsSilent(m, more, decoder, gone);
        assert Erased(blocks) == Erased(more);
      }
    }
  }
}
