/**
 From bytes to reply for the other requests: any response lines, any notices between them and any
 cut into reads, down to the values that were printed, and what a line left over from before does to
 them. Also what becomes of a refused submission.
 */
module Queries {
  import opened Text
  import opened Framing
  import opened Chunking
  import opened Types
  import opened Parsers
  import opened Handlers
  import opened StateMachine
  import opened Interleaving
  import opened EndToEnd

  /** A query that has been started and has heard nothing yet. */
  predicate JustAsked(m: Machine) {
    m.state.Command? && var x := m.state.execution;
      !x.command.request.SendSMS? && x.command.open
      && x.context.state == WaitingForData && x.context.responseBuffer == ""
  }

  /** The line prefix that the interpretation of a response looks for. */
  function ReplyPrefix(request: ModemRequest): string {
    if request.GetGNSSLocation? then "+CGNSINF" else request.ExpectedResponsePrefix()
  }

  /** Whether `s` is `name` behind a plus sign, and a colon behind it or not. */
  predicate Names(s: string, name: string) {
    s == "+" + name + ":" || s == "+" + name
  }

  /**
   What is written asks for what is read: the name behind the plus sign is that of the line from which
   the answer is taken, and a submission is announced with the length of its PDU.
   */
  predicate Asks(request: ModemRequest, written: string, name: string) {
    match request
    case SendSMS(len, _) =>
      && written == "AT+CMGS=" + name + "\r\n" && ParseUnsigned(name, len) == Some(len)
    case _ =>
      Names(ReplyPrefix(request), name) && written == "AT+" + name + (if IsRead(request) then "?" else "") + "\r\n"
  }

  /** The name in the command that a request writes; for a submission, the length that it prints. */
  function AskedName(request: ModemRequest): string {
    match request
    case SendSMS(len, _) => Decimal(len)
    case GetNetworkStatus => "CREG"
    case GetSignalStrength => "CSQ"
    case GetNetworkOperator => "COPS"
    case GetServiceProvider => "CSPN"
    case GetBatteryLevel => "CBC"
    case GetGNSSStatus => "CGPSSTATUS"
    case GetGNSSLocation => "CGNSINF"
  }

  lemma PrefixNames(request: ModemRequest)
    requires !request.SendSMS?
    ensures Names(ReplyPrefix(request), AskedName(request))
  {
  }

  predicate IsRead(request: ModemRequest) {
    request.GetNetworkStatus? || request.GetNetworkOperator? || request.GetServiceProvider? || request.GetGNSSStatus?
  }

  lemma QueryText(request: ModemRequest)
    requires !request.SendSMS?
    ensures AtCommand(request) == "AT+" + AskedName(request) + (if IsRead(request) then "?" else "")
  {
  }

  lemma WritesAsk(request: ModemRequest)
    ensures Asks(request, AtCommand(request) + "\r\n", AskedName(request))
  {
    if request.SendSMS? {
      ParsePrintedUnsigned(request.len, request.len);
    } else {
      PrefixNames(request);
      QueryText(request);
    }
  }

  /** Starting a request makes it so, asks for what its answer is read for, and sets its deadline. */
  lemma StartAsks(m: Machine, cmd: OutgoingCommand, now: nat)
    requires m.state == Idle && cmd.open
    ensures var n := StartCommand(m, cmd, now);
      && (if cmd.request.SendSMS? then JustSubmitted(n) else JustAsked(n))
      && |n.queue| == |m.queue| + 1 && m.queue <= n.queue && n.queue[|m.queue|].WriteCommand?
      && Asks(cmd.request, n.queue[|m.queue|].data, AskedName(cmd.request))
      && n.state.execution.timeoutAt ==
           now + (match cmd.timeout case Some(t) => t case None => if cmd.request.SendSMS? then 30 else 5)
      && n.state.execution.command == cmd && n.state.execution.context.sequence == cmd.sequence
      && n.replies == m.replies && n.dropped == m.dropped && n.sent == m.sent
  {
    WritesAsk(cmd.request);
    assert m.dropped + [] == m.dropped;
  }

  predicate IsFinal(line: string) {
    line == "OK" || line == "ERROR"
  }

  /** The lines of a response to a query: only the last is final. */
  predicate IsResponse(lines: seq<string>) {
    && lines != [] && AreReplyLines(lines) && IsFinal(lines[|lines| - 1])
    && (forall k :: 0 <= k < |lines| - 1 ==> !WaitingForData.IsComplete(lines[k]))
  }

  // --- the lines alone ---

  /** A query in progress that has heard the text `heard`. */
  predicate Asking(m: Machine, heard: string) {
    m.state.Command? && var x := m.state.execution;
      !x.command.request.SendSMS? && x.command.open
      && x.context.state == WaitingForData && x.context.responseBuffer == heard
  }

  lemma ReplyLineStep(m: Machine, heard: string, line: string, decoder: Decoder, gone: set<nat>)
    requires Asking(m, heard) && Trim(line) == line && FromHeader(line).None? && !WaitingForData.IsComplete(line)
    ensures var n := HandleLine(m, Line(line), decoder, gone);
      Asking(n, heard + line + "\n") && n == m.(state := Command(Buffered(m.state.execution, line)))
  {
    PrefixPlaysNoPart(m, line, decoder, gone);
  }

  lemma FinalStep(m: Machine, heard: string, line: string, decoder: Decoder, gone: set<nat>)
    requires Asking(m, heard) && Trim(line) == line && FromHeader(line).None? && WaitingForData.IsComplete(line)
    ensures var command := m.state.execution.command;
      HandleLine(m, Line(line), decoder, gone) ==
        m.(state := Idle,
           replies := m.replies + [Reply(command.channel, Answer(command.request, heard + line + "\n", decoder),
                                         command.channel !in gone)])
  {
    var x := m.state.execution;
    ErrorPathIdle(m, Line(line), decoder, gone);
    PrefixPlaysNoPart(m, line, decoder, gone);
    assert Buffered(x, line).context.responseBuffer == heard + line + "\n";
    assert TransitionState(m, Line(line), decoder, gone) == ProcessResponse(m, x, line, decoder, gone);
  }

  lemma MoreIsResponse(lines: seq<string>)
    requires IsResponse(lines) && |lines| > 1
    ensures IsResponse(lines[1..])
  {
    assert forall k :: 0 <= k < |lines[1..]| ==> lines[1..][k] == lines[k + 1];
  }

  lemma {:induction false} PlainResponse(m: Machine, heard: string, lines: seq<string>, decoder: Decoder,
                                         gone: set<nat>)
    requires Asking(m, heard) && IsResponse(lines)
    ensures var command := m.state.execution.command;
      HandleLines(m, Stream(LineEvents(lines)), decoder, gone) ==
        m.(state := Idle,
           replies := m.replies + [Reply(command.channel, Answer(command.request, heard + Unlines(lines), decoder),
                                         command.channel !in gone)])
    decreases |lines|
  {
    var line, more := lines[0], lines[1..];
    assert line in lines;
    StreamCons(Plain(Line(line)), LineEvents(more));
    HandleLinesConcat(m, [Line(line)], Stream(LineEvents(more)), decoder, gone);
    OneLine(m, Line(line), decoder, gone);
    Reassociate(heard, line + "\n", Unlines(more));
    Reassociate(heard, line, "\n");
    if more == [] {
      FinalStep(m, heard, line, decoder, gone);
      assert heard + line + "\n" + "" == heard + line + "\n";
    } else {
      ReplyLineStep(m, heard, line, decoder, gone);
      MoreIsResponse(lines);
      PlainResponse(HandleLine(m, Line(line), decoder, gone), heard + line + "\n", more, decoder, gone);
    }
  }

  /** Which lines end a command: a query, a submission before its prompt, and behind it. */
  predicate IsLast(state: CommandState, line: string) {
    match state
    case WaitingForData => line == "OK" || line == "ERROR" || StartsWith(line, "+CMGS:")
    case WaitingForPrompt => false
    case WaitingForOk =>
      line == "OK" || line == "ERROR" || StartsWith(line, "+CME ERROR:") || StartsWith(line, "+CMS ERROR:")
  }

  /** A line that is no header ends the command that is active if and only if it is one of those. */
  lemma LineEnds(m: Machine, line: string, decoder: Decoder, gone: set<nat>)
    requires m.state.Command? && m.state.execution.command.open && Trim(line) == line && FromHeader(line).None?
    ensures var x := m.state.execution;
      var n := HandleLine(m, Line(line), decoder, gone);
      if IsLast(x.context.state, line) then
        && n.state == Idle && |n.replies| == |m.replies| + 1 && m.replies <= n.replies
        && n.replies[|m.replies|].channel == x.command.channel
      else
        && n.replies == m.replies && n.state.Command?
        && n.state.execution.context.responseBuffer == x.context.responseBuffer + line + "\n"
  {
    PrefixPlaysNoPart(m, line, decoder, gone);
    ErrorPathIdle(m, Line(line), decoder, gone);
    ResponseMoves(m, m.state.execution, line, decoder, gone);
  }

  /** A prompt ends a query, which has nothing to send: with an error. */
  lemma PromptEndsQuery(m: Machine, heard: string, decoder: Decoder, gone: set<nat>)
    requires Asking(m, heard)
    ensures var channel := m.state.execution.command.channel;
      HandleLine(m, Prompt(">"), decoder, gone) ==
        m.(state := Idle,
           replies := m.replies +
             [Reply(channel, Error("Command completed during prompt handling"), channel !in gone)])
  {
    ErrorPathIdle(m, Prompt(">"), decoder, gone);
  }

  // --- what a line left over does to the answer ---

  lemma SamePayload(name: string, a: string, b: string)
    requires FindLine(Lines(a), "+" + name + ":") == FindLine(Lines(b), "+" + name + ":")
    ensures Payload(a, name) == Payload(b, name)
  {
  }

  lemma NamedPrefix(request: ModemRequest) returns (name: string)
    requires !request.GetGNSSStatus? && !request.GetGNSSLocation?
    ensures ReplyPrefix(request) == "+" + name + ":"
    ensures name == match request
      case SendSMS(_, _) => "CMGS"
      case GetNetworkStatus => "CREG"
      case GetSignalStrength => "CSQ"
      case GetNetworkOperator => "COPS"
      case GetServiceProvider => "CSPN"
      case _ => "CBC"
  {
    name := ReplyPrefix(request)[1..|ReplyPrefix(request)| - 1];
  }

  /** The answer depends on the first line with that prefix only ... */
  lemma SameFirstLine(request: ModemRequest, a: string, b: string, decoder: Decoder)
    requires FindLine(Lines(a), ReplyPrefix(request)) == FindLine(Lines(b), ReplyPrefix(request))
    ensures InterpretResponse(request, a, decoder) == InterpretResponse(request, b, decoder)
  {
    if request.GetGNSSStatus? {
      assert ParseCgpsstatusResponse(a, decoder) == ParseCgpsstatusResponse(b, decoder);
    } else if request.GetGNSSLocation? {
      assert ParseCgnsinfResponse(a, false, decoder) == ParseCgnsinfResponse(b, false, decoder);
    } else {
      var name := NamedPrefix(request);
      SamePayload(name, a, b);
    }
  }

  /** ... and is an error without one. */
  lemma NoFirstLine(request: ModemRequest, response: string, decoder: Decoder)
    requires FindLine(Lines(response), ReplyPrefix(request)).None?
    ensures InterpretResponse(request, response, decoder).Err?
  {
    if !request.GetGNSSStatus? && !request.GetGNSSLocation? {
      var name := NamedPrefix(request);
      assert Payload(response, name).Err?;
    }
  }

  predicate IsSuccess(lines: seq<string>) {
    IsResponse(lines) && lines[|lines| - 1] == "OK"
  }

  /** The values that a line carries by itself. */
  function AnswerOfLine(request: ModemRequest, line: string, decoder: Decoder): ModemResponse {
    match InterpretResponse(request, line, decoder)
    case Ok(answer) => answer
    case Err(e) => Error(e)
  }

  lemma SameAnswer(request: ModemRequest, a: string, b: string, decoder: Decoder)
    requires FindLine(Lines(a), ReplyPrefix(request)) == FindLine(Lines(b), ReplyPrefix(request))
    requires EndsWith(TrimEnd(a), "OK")
    ensures Answer(request, a, decoder) == AnswerOfLine(request, b, decoder)
  {
    SameFirstLine(request, a, b, decoder);
  }

  lemma FirstOfMore(line: string, lines: seq<string>, prefix: string)
    requires OneLiners([line]) && OneLiners(lines)
    ensures FindLine(Lines(Unlines([line] + lines)), prefix)
      == if StartsWith(line, prefix) then Some(line) else FindLine(Lines(Unlines(lines)), prefix)
  {
    var all := [line] + lines;
    assert all[1..] == lines && [line][0] == line;
    LinesOfUnlines(lines);
    LinesOfUnlines(all);
  }

  lemma FirstOfLine(line: string, prefix: string)
    requires OneLiners([line]) && line != "" && StartsWith(line, prefix)
    ensures FindLine(Lines(line), prefix) == Some(line)
  {
    assert [line][0] == line;
    UndividedLine(line);
  }

  /** A line heard before a response. */
  lemma AnswerBehind(request: ModemRequest, line: string, lines: seq<string>, decoder: Decoder)
    requires IsSuccess(lines) && OneLiners([line]) && line != ""
    ensures Answer(request, Unlines([line] + lines), decoder) ==
      if StartsWith(line, ReplyPrefix(request)) then AnswerOfLine(request, line, decoder)
      else Answer(request, Unlines(lines), decoder)
  {
    var all, prefix := Unlines([line] + lines), ReplyPrefix(request);
    ReplyLinesAreOneLiners(lines);
    FirstOfMore(line, lines, prefix);
    EndsAlike(line, lines);
    if StartsWith(line, prefix) {
      FirstOfLine(line, prefix);
      SameAnswer(request, all, line, decoder);
    } else {
      SameAnswer(request, all, Unlines(lines), decoder);
      SameAnswer(request, Unlines(lines), Unlines(lines), decoder);
    }
  }

  lemma EndsAlike(line: string, lines: seq<string>)
    requires IsSuccess(lines)
    ensures EndsWith(TrimEnd(Unlines(lines)), "OK") && EndsWith(TrimEnd(Unlines([line] + lines)), "OK")
  {
    var before := lines[..|lines| - 1];
    assert lines == before + ["OK"];
    LastLineDecides(before, "OK");
    Reassociate([line], before, ["OK"]);
    LastLineDecides([line] + before, "OK");
  }

  /** What ends a query before its response has come is no answer to it. */
  lemma FinalLineIsError(request: ModemRequest, line: string, decoder: Decoder)
    requires !request.SendSMS? && WaitingForData.IsComplete(line) && OneLiners([line])
    ensures Answer(request, Unlines([line]), decoder).Error?
  {
    assert [line][0] == line;
    LinesOfUnlines([line]);
    var at := if line == "OK" || line == "ERROR" then 0 else 2;
    NotPrefix(line, ReplyPrefix(request), at);
    assert FindLine([line], ReplyPrefix(request)).None?;
    NoFirstLine(request, Unlines([line]), decoder);
  }

  /** The lines that a query hears, behind a line left over, up to the first that completes it. */
  function Heard(stale: string, lines: seq<string>): seq<string> {
    if WaitingForData.IsComplete(Trim(stale)) then [Trim(stale)] else StaleLines(stale) + lines
  }

  /** The line left over neither completes the query nor carries values other than its own. */
  predicate LeavesAlone(request: ModemRequest, stale: string, own: ModemResponse, decoder: Decoder) {
    && !WaitingForData.IsComplete(Trim(stale))
    && (StartsWith(Trim(stale), ReplyPrefix(request)) ==> AnswerOfLine(request, Trim(stale), decoder) == own)
  }

  lemma HeaderIsNoReply(request: ModemRequest, line: string)
    requires FromHeader(line).Some? && !IsHeader(line, true) && Trim(line) == line
    ensures !StartsWith(line, ReplyPrefix(request)) && !WaitingForData.IsComplete(line)
  {
    if StartsWith(line, "+UGNSINF") {
      assert line[1] == 'U';
    } else {
      assert IsPowerDownNotice(line) && line[0] != '+';
    }
  }

  lemma FinalIsHeard(stale: string)
    requires WaitingForData.IsComplete(Trim(stale))
    ensures IsHeard(stale)
  {
    var line := Trim(stale);
    if StartsWith(line, "+CMGS:") {
      CmgsIsNoHeader(line);
    } else {
      NotPrefix(line, "+CMT", 0);
      NotPrefix(line, "+CDS", 0);
      NotPrefix(line, "+CGREG:", 0);
      NotPrefix(line, "+UGNSINF", 0);
    }
  }

  /**
   The answer to a query whose response follows a line left over: that to the response, exactly when
   the line left over leaves it alone. A failure is an error in any case.
   */
  lemma HeardAnswer(request: ModemRequest, stale: string, lines: seq<string>, decoder: Decoder)
    requires !request.SendSMS? && IsRemainder(stale) && !AwaitsPayload(stale) && IsSuccess(lines)
    ensures var answer := Answer(request, Unlines(Heard(stale, lines)), decoder);
      var own := Answer(request, Unlines(lines), decoder);
      && (WaitingForData.IsComplete(Trim(stale)) ==> answer.Error?)
      && (!own.Error? ==> (answer == own <==> LeavesAlone(request, stale, own, decoder)))
  {
    var line := Trim(stale);
    StaleIsReplyLine(stale);
    if WaitingForData.IsComplete(line) {
      FinalIsHeard(stale);
      FinalLineIsError(request, line, decoder);
    } else if IsHeard(stale) {
      AnswerBehind(request, line, lines, decoder);
    } else {
      assert [] + lines == lines;
      TrimIdempotent(stale);
      if line != "" { HeaderIsNoReply(request, line); }
    }
  }

  /** A failed response is an error, whatever was left over. */
  lemma HeardFailure(request: ModemRequest, stale: string, lines: seq<string>, decoder: Decoder)
    requires !request.SendSMS? && IsRemainder(stale) && IsResponse(lines) && lines[|lines| - 1] == "ERROR"
    ensures Answer(request, Unlines(Heard(stale, lines)), decoder).Error?
  {
    StaleIsReplyLine(stale);
    if WaitingForData.IsComplete(Trim(stale)) {
      FinalIsHeard(stale);
      FinalLineIsError(request, Trim(stale), decoder);
    } else {
      var before := lines[..|lines| - 1];
      assert lines == before + ["ERROR"];
      Reassociate(StaleLines(stale), before, ["ERROR"]);
      LastLineDecides(StaleLines(stale) + before, "ERROR");
    }
  }

  // --- from bytes to reply ---

  lemma {:induction false} IdleLines(m: Machine, lines: seq<string>, decoder: Decoder, gone: set<nat>)
    requires m.state == Idle && AreReplyLines(lines)
    ensures HandleLines(m, Stream(LineEvents(lines)), decoder, gone) == m
  {
    if lines != [] {
      assert lines[0] in lines;
      IdleLines(m, lines[1..], decoder, gone);
      StreamCons(Plain(Line(lines[0])), LineEvents(lines[1..]));
      OneLine(m, Line(lines[0]), decoder, gone);
      HandleLinesConcat(m, [Line(lines[0])], Stream(LineEvents(lines[1..])), decoder, gone);
    }
  }

  function QueryReply(command: OutgoingCommand, heard: seq<string>, decoder: Decoder, gone: set<nat>): Reply {
    Reply(command.channel, Answer(command.request, Unlines(heard), decoder), command.channel !in gone)
  }

  lemma StaleFinal(m: Machine, line: string, lines: seq<string>, decoder: Decoder, gone: set<nat>)
    requires JustAsked(m) && IsResponse(lines)
    requires Trim(line) == line && FromHeader(line).None? && WaitingForData.IsComplete(line)
    ensures HandleLines(HandleLine(m, Line(line), decoder, gone), Stream(LineEvents(lines)), decoder, gone) ==
      m.(state := Idle, replies := m.replies + [QueryReply(m.state.execution.command, [line], decoder, gone)])
  {
    UnlinesOne(line);
    assert "" + line + "\n" == line + "\n";
    FinalStep(m, "", line, decoder, gone);
    IdleLines(HandleLine(m, Line(line), decoder, gone), lines, decoder, gone);
  }

  lemma StaleData(m: Machine, line: string, lines: seq<string>, decoder: Decoder, gone: set<nat>)
    requires JustAsked(m) && IsResponse(lines)
    requires Trim(line) == line && FromHeader(line).None? && !WaitingForData.IsComplete(line)
    ensures HandleLines(HandleLine(m, Line(line), decoder, gone), Stream(LineEvents(lines)), decoder, gone) ==
      m.(state := Idle, replies := m.replies + [QueryReply(m.state.execution.command, [line] + lines, decoder, gone)])
  {
    UnlinesOne(line);
    UnlinesConcat([line], lines);
    assert "" + line + "\n" == line + "\n";
    ReplyLineStep(m, "", line, decoder, gone);
    PlainResponse(HandleLine(m, Line(line), decoder, gone), line + "\n", lines, decoder, gone);
  }

  lemma StaleResponse(m: Machine, stale: string, lines: seq<string>, decoder: Decoder, gone: set<nat>)
    requires JustAsked(m) && IsResponse(lines)
    ensures HandleLines(m, Stream(LineEvents(StaleLines(stale)) + LineEvents(lines)), decoder, gone) ==
      m.(state := Idle,
         replies := m.replies + [QueryReply(m.state.execution.command, Heard(stale, lines), decoder, gone)])
  {
    var line := Trim(stale);
    if WaitingForData.IsComplete(line) { FinalIsHeard(stale); }
    if !IsHeard(stale) {
      assert LineEvents(StaleLines(stale)) + LineEvents(lines) == LineEvents(lines);
      assert [] + lines == lines && "" + Unlines(lines) == Unlines(lines);
      PlainResponse(m, "", lines, decoder, gone);
    } else {
      TrimIdempotent(stale);
      assert [line][1..] == [] && LineEvents([line]) == [Plain(Line(line))];
      StreamCons(Plain(Line(line)), LineEvents(lines));
      OneLine(m, Line(line), decoder, gone);
      HandleLinesConcat(m, [Line(line)], Stream(LineEvents(lines)), decoder, gone);
      if WaitingForData.IsComplete(line) {
        StaleFinal(m, line, lines, decoder, gone);
      } else {
        StaleData(m, line, lines, decoder, gone);
      }
    }
  }

  /** The reply to a query, told by the response and the line left over before it. */
  predicate IsQueryReply(command: OutgoingCommand, stale: string, lines: seq<string>, reply: Reply, decoder: Decoder,
                         gone: set<nat>)
    requires lines != []
  {
    var own := Answer(command.request, Unlines(lines), decoder);
    && reply.channel == command.channel && reply.delivered == (command.channel !in gone)
    && (lines[|lines| - 1] == "ERROR" || WaitingForData.IsComplete(Trim(stale)) ==> reply.response.Error?)
    && (!own.Error? ==> (reply.response == own <==> LeavesAlone(command.request, stale, own, decoder)))
  }

  lemma QueryReplyIs(command: OutgoingCommand, stale: string, lines: seq<string>, decoder: Decoder, gone: set<nat>)
    requires !command.request.SendSMS? && IsRemainder(stale) && !AwaitsPayload(stale) && IsResponse(lines)
    ensures IsQueryReply(command, stale, lines, QueryReply(command, Heard(stale, lines), decoder, gone), decoder, gone)
  {
    if lines[|lines| - 1] == "ERROR" {
      FailureIsError(command.request, lines, decoder);
      HeardFailure(command.request, stale, lines, decoder);
    } else {
      assert lines[|lines| - 1] == "OK";
      HeardAnswer(command.request, stale, lines, decoder);
    }
  }

  /**
   End to end for queries: whatever notices surround the lines of the response and however it is cut
   into reads, the query is answered once, with what the lines heard stand for. A successful response
   is answered with its own values if and only if no line that completes the query, or carries
   other values, was left over, unfinished, when the query began.
   */
  lemma QueryAnswered(m: Machine, buffer: string, stale: string, lines: seq<string>, blocks: seq<Block>,
                      pieces: seq<Piece>, rest: string, max: nat, chunks: seq<string>, decoder: Decoder, gone: set<nat>)
    requires JustAsked(m) && IsResponse(lines) && !AwaitsPayload(stale)
    requires ReadAs(pieces, blocks) && Erased(blocks) == LineEvents(lines)
    requires Delivers(buffer, Concat(chunks), stale, TextOf(pieces), rest) && Untruncated(buffer, max, chunks)
    ensures var n := HandleLines(m, EventsOfReads(buffer, max, chunks), decoder, gone);
      var command := m.state.execution.command;
      var reply := QueryReply(command, Heard(stale, lines), decoder, gone);
      && n.state == Idle && n.dropped == m.dropped && Writes(n.queue) == Writes(m.queue)
      && n.replies == m.replies + [reply] && IsQueryReply(command, stale, lines, reply, decoder, gone)
  {
    FramedReads(buffer, stale, pieces, rest, max, chunks);
    StaleStream(stale, blocks);
    NonInterference(m, StaleBlocks(stale) + blocks, decoder, gone);
    StaleResponse(m, stale, lines, decoder, gone);
    QueryReplyIs(m.state.execution.command, stale, lines, decoder, gone);
  }

  /** Nothing has been answered or lost, and the query still waits as it did. */
  predicate StillAsking(m: Machine, n: Machine) {
    n.state == m.state && n.replies == m.replies && n.dropped == m.dropped && Writes(n.queue) == Writes(m.queue)
  }

  /** A response whose first line is taken for the payload of a header left over. */
  lemma PayloadTaken(m: Machine, stale: string, lines: seq<string>, more: seq<Block>, decoder: Decoder, gone: set<nat>)
    requires JustAsked(m) && IsResponse(lines) && AwaitsPayload(stale)
    requires AllWellFormed(more) && Erased(more) == LineEvents(lines[1..])
    ensures var n := HandleLines(m, StaleEvents(stale) + Stream([Plain(Line(lines[0]))] + more), decoder, gone);
      if |lines| == 1 then StillAsking(m, n)
      else
        && n.state == Idle && n.dropped == m.dropped && Writes(n.queue) == Writes(m.queue)
        && n.replies == m.replies + [QueryReply(m.state.execution.command, lines[1..], decoder, gone)]
  {
    assert lines[0] in lines;
    TakenBlocks(stale, lines[0], more);
    NonInterference(m, [NotificationWithPayload(Trim(stale), lines[0])] + more, decoder, gone);
    if |lines| > 1 {
      MoreIsResponse(lines);
      PlainResponse(m, "", lines[1..], decoder, gone);
      assert "" + Unlines(lines[1..]) == Unlines(lines[1..]);
    }
  }

  /**
   Behind a header left over whose payload is due, the first line of the response is lost: the rest
   is the answer, or the query waits on. A notice there makes it lose the query itself.
   */
  lemma QueryBehindHeader(m: Machine, buffer: string, stale: string, lines: seq<string>, blocks: seq<Block>,
                          pieces: seq<Piece>, rest: string, max: nat, chunks: seq<string>, decoder: Decoder,
                          gone: set<nat>)
    requires JustAsked(m) && IsResponse(lines) && AwaitsPayload(stale)
    requires ReadAs(pieces, blocks) && Erased(blocks) == LineEvents(lines)
    requires Delivers(buffer, Concat(chunks), stale, TextOf(pieces), rest) && Untruncated(buffer, max, chunks)
    ensures var n := HandleLines(m, EventsOfReads(buffer, max, chunks), decoder, gone);
      var command := m.state.execution.command;
      blocks != [] &&
      if !blocks[0].Plain? then Quiescent(m.(dropped := m.dropped + [command.channel]), n)
      else if |lines| == 1 then StillAsking(m, n)
      else
        && n.state == Idle && n.dropped == m.dropped && Writes(n.queue) == Writes(m.queue)
        && n.replies == m.replies + [QueryReply(command, lines[1..], decoder, gone)]
  {
    FramedReads(buffer, stale, pieces, rest, max, chunks);
    FirstBlock(blocks, Line(lines[0]), LineEvents(lines[1..]));
    if blocks[0].Plain? {
      PayloadTaken(m, stale, lines, blocks[1..], decoder, gone);
    } else {
      NoPayloadDrops(m, stale, blocks[0], blocks[1..], decoder, gone);
    }
  }

  // --- the values of a response ---

  lemma {:induction false} UnlinesEnd(lines: seq<string>) returns (before: string)
    requires lines != []
    ensures Unlines(lines) == before + lines[|lines| - 1] + "\n"
  {
    var last := lines[|lines| - 1];
    if |lines| == 1 {
      before := "";
      assert lines[1..] == [];
      assert last + "\n" + "" == "" + last + "\n";
    } else {
      before := UnlinesEnd(lines[1..]);
      Reassociate(lines[0] + "\n", before, last + "\n");
      Reassociate(before, last, "\n");
      Reassociate(lines[0] + "\n" + before, last, "\n");
      before := lines[0] + "\n" + before;
    }
  }

  /** Only the last line decides whether a response is a success. */
  lemma FinalLineDecides(lines: seq<string>)
    requires IsResponse(lines)
    ensures EndsWith(TrimEnd(Unlines(lines)), "OK") <==> lines[|lines| - 1] == "OK"
  {
    var last := lines[|lines| - 1];
    var before := UnlinesEnd(lines);
    TrimEndOf(before + last, "\n");
    if last == "ERROR" {
      assert (before + last)[|before + last| - 1] == 'R';
    }
  }

  lemma FailureIsError(request: ModemRequest, lines: seq<string>, decoder: Decoder)
    requires IsResponse(lines) && lines[|lines| - 1] == "ERROR"
    ensures Answer(request, Unlines(lines), decoder) == Error("Modem response does not end with OK")
  {
    FinalLineDecides(lines);
  }

  // --- refused submissions ---

  predicate IsRefusal(line: string) {
    line == "ERROR" || StartsWith(line, "+CME ERROR:") || StartsWith(line, "+CMS ERROR:")
  }

  lemma RefusalIsNoHeader(line: string)
    requires IsRefusal(line)
    ensures FromHeader(line).None? && |line| >= 2
  {
    if line == "ERROR" {
      NotPrefix(line, "+CMT", 0);
      NotPrefix(line, "+CDS", 0);
      NotPrefix(line, "+UGNSINF", 0);
    } else {
      assert line[0] == '+' && line[1] == 'C' && line[2] == 'M' && line[3] != 'T';
    }
  }

  predicate IsRefusalAnswer(answer: ModemResponse, heard: seq<string>, line: string) {
    && (answer.Error? <==> !EndsWith(line, "OK") || FirstNumber(heard).None?)
    && (!answer.Error? ==> answer.SendResult? && FirstNumber(heard) == Some(answer.reference))
  }

  /**
   A refusal answers a submission with an error if and only if its own text does not end in OK or
   no number was heard before on a first `+CMGS:` line; else that number is the answer.
   */
  lemma SubmissionRefused(m: Machine, heard: seq<string>, line: string, decoder: Decoder, gone: set<nat>)
    requires Submission(m, WaitingForOk, heard) && OneLiners(heard)
    requires IsRefusal(line) && Trim(line) == line && '\n' !in line
    ensures var command := m.state.execution.command;
      var answer := Answer(command.request, Unlines(heard + [line]), decoder);
      && HandleLine(m, Line(line), decoder, gone) ==
           m.(state := Idle, replies := m.replies + [Reply(command.channel, answer, command.channel !in gone)])
      && IsRefusalAnswer(answer, heard, line)
  {
    RefusalIsNoHeader(line);
    FinalLineStep(m, heard, line, decoder, gone);
    AnswerOfLines(m.state.execution.command.request, heard, line, decoder);
    RefusalIsNoReference(heard, line);
  }

  lemma RefusalIsNoReference(heard: seq<string>, line: string)
    requires IsRefusal(line)
    ensures FirstNumber(heard + [line]) == FirstNumber(heard)
  {
    NotPrefix(line, "+CMGS:", if line == "ERROR" then 0 else 3);
    LastIsNoReference(heard, line);
  }

  lemma {:induction false} LastIsNoReference(heard: seq<string>, line: string)
    requires !IsReference(line)
    ensures FirstNumber(heard + [line]) == FirstNumber(heard)
  {
    if heard == [] {
      assert ([] + [line])[1..] == [];
    } else {
      assert (heard + [line])[1..] == heard[1..] + [line];
      LastIsNoReference(heard[1..], line);
    }
  }

  /** So a refusal can be taken for a success. */
  lemma RefusalTaken(decoder: Decoder)
    ensures Answer(SendSMS(1, "00"), Unlines(["+CMGS: 5"] + ["+CMS ERROR: NOT OK"]), decoder) == SendResult(5)
  {
    TrimTight("+CMGS: 5");
    TrimTight("+CMS ERROR: NOT OK");
    TrimOf(" ", "5", "");
    assert "+CMGS: 5"[6..] == " " + "5" + "";
    assert FirstNumber(["+CMGS: 5"]) == Some(5);
    RefusalIsNoReference(["+CMGS: 5"], "+CMS ERROR: NOT OK");
    AnswerOfLines(SendSMS(1, "00"), ["+CMGS: 5"], "+CMS ERROR: NOT OK", decoder);
  }

  // A successful response is answered with the values that its first line with the prefix prints.

  lemma NetworkStatusValues(lines: seq<string>, registration: u8, technology: u8, decoder: Decoder)
    requires IsSuccess(lines) && Answers(Unlines(lines), "CREG", Decimal(registration) + "," + Decimal(technology))
    ensures Answer(GetNetworkStatus, Unlines(lines), decoder) == NetworkStatus(registration, technology)
  {
    FinalLineDecides(lines);
    CregRoundTrip(Unlines(lines), registration, technology);
  }

  lemma SignalStrengthValues(lines: seq<string>, rssi: i32, ber: i32, decoder: Decoder)
    requires IsSuccess(lines) && Answers(Unlines(lines), "CSQ", DecimalInt(rssi) + "," + DecimalInt(ber))
    ensures Answer(GetSignalStrength, Unlines(lines), decoder) == SignalStrength(rssi, ber)
  {
    FinalLineDecides(lines);
    CsqRoundTrip(Unlines(lines), rssi, ber);
  }

  lemma OperatorAnswer(text: string, status: u8, format: u8, operator: string, decoder: Decoder)
    requires EndsWith(TrimEnd(text), "OK") && ParseCopsResponse(text) == Ok((status, format, operator))
    ensures Answer(GetNetworkOperator, text, decoder) == NetworkOperator(status, format, operator)
  {
  }

  lemma NetworkOperatorValues(lines: seq<string>, status: u8, format: u8, operator: string, decoder: Decoder)
    requires IsSuccess(lines) && ',' !in operator && '\n' !in operator
    requires Answers(Unlines(lines), "COPS", Decimal(status) + "," + (Decimal(format) + "," + Quoted(operator)))
    ensures Answer(GetNetworkOperator, Unlines(lines), decoder) == NetworkOperator(status, format, operator)
  {
    FinalLineDecides(lines);
    CopsRoundTrip(Unlines(lines), status, format, operator);
    OperatorAnswer(Unlines(lines), status, format, operator, decoder);
  }

  lemma ProviderAnswer(text: string, name: string, decoder: Decoder)
    requires EndsWith(TrimEnd(text), "OK") && ParseCspnResponse(text) == Ok(name)
    ensures Answer(GetServiceProvider, text, decoder) == ServiceProvider(name)
  {
  }

  lemma ServiceProviderValues(lines: seq<string>, name: string, tail: string, decoder: Decoder)
    requires IsSuccess(lines) && '\n' !in name
    requires '\n' !in tail && '"' !in tail && (tail != "" ==> !IsWhite(tail[|tail| - 1]))
    requires Answers(Unlines(lines), "CSPN", Quoted(name) + tail)
    ensures Answer(GetServiceProvider, Unlines(lines), decoder) == ServiceProvider(name)
  {
    FinalLineDecides(lines);
    CspnRoundTrip(Unlines(lines), name, tail);
    ProviderAnswer(Unlines(lines), name, decoder);
  }

  lemma BatteryAnswer(text: string, status: u8, charge: u8, voltage: real, decoder: Decoder)
    requires EndsWith(TrimEnd(text), "OK") && ParseCbcResponse(text) == Ok((status, charge, voltage))
    ensures Answer(GetBatteryLevel, text, decoder) == BatteryLevel(status, charge, voltage)
  {
  }

  lemma BatteryLevelValues(lines: seq<string>, status: u8, charge: u8, millivolts: nat, decoder: Decoder)
    requires IsSuccess(lines) && millivolts < 0x1_0000_0000
    requires Answers(Unlines(lines), "CBC", Decimal(status) + "," + (Decimal(charge) + "," + Decimal(millivolts)))
    ensures exists voltage: real ::
      1000.0 * voltage == millivolts as real
      && Answer(GetBatteryLevel, Unlines(lines), decoder) == BatteryLevel(status, charge, voltage)
  {
    FinalLineDecides(lines);
    var voltage := CbcRoundTrip(Unlines(lines), status, charge, millivolts);
    BatteryAnswer(Unlines(lines), status, charge, voltage, decoder);
  }

  /** The first line of a response that begins with this prefix, which others may follow. */
  predicate FirstIs(lines: seq<string>, prefix: string, line: string) {
    exists k :: 0 <= k < |lines| && lines[k] == line && StartsWith(line, prefix)
      && forall j :: 0 <= j < k ==> !StartsWith(lines[j], prefix)
  }

  lemma {:induction false} FirstIsFound(lines: seq<string>, prefix: string, line: string)
    requires AreReplyLines(lines) && FirstIs(lines, prefix, line)
    ensures FindLine(lines, prefix) == Some(line)
  {
    assert lines[0] in lines;
    if !StartsWith(lines[0], prefix) {
      var k :| 0 <= k < |lines| && lines[k] == line && forall j :: 0 <= j < k ==> !StartsWith(lines[j], prefix);
      assert lines[1..][k - 1] == line;
      assert forall j :: 0 <= j < k - 1 ==> lines[1..][j] == lines[j + 1];
      FirstIsFound(lines[1..], prefix, line);
    }
  }

  lemma SeparatorBehind(name: string, data: string)
    requires ':' !in name
    ensures AfterSeparator(name + (": " + data)) == Some(data)
  {
    var s := name + (": " + data);
    assert SeparatorAt(s, |name|);
    forall j: nat | j < |name| ensures !SeparatorAt(s, j) { assert s[j] == name[j] && name[j] in name; }
    SeparatorFound(s, |name|);
    assert s[|name| + 2..] == data;
  }

  lemma FixStatusAnswer(text: string, line: string, data: string, decoder: Decoder)
    requires EndsWith(TrimEnd(text), "OK") && FindLine(Lines(text), "+CGPSSTATUS:") == Some(line)
    requires AfterSeparator(line) == Some(data)
    ensures Answer(GetGNSSStatus, text, decoder)
      == if decoder.fixStatus(Trim(data)) then GNSSStatus(Trim(data)) else Error("Unknown fix status")
  {
  }

  lemma LocationAnswer(text: string, line: string, data: string, decoder: Decoder)
    requires EndsWith(TrimEnd(text), "OK") && FindLine(Lines(text), "+CGNSINF") == Some(line)
    requires AfterSeparator(line) == Some(data)
    ensures Answer(GetGNSSLocation, text, decoder)
      == if decoder.position(Split(Trim(data), ',')) then GNSSLocation(Trim(data)) else Error("Invalid position report")
  {
  }

  lemma FirstGives(lines: seq<string>, prefix: string, name: string, data: string)
    requires IsSuccess(lines) && FirstIs(lines, prefix, name + (": " + data)) && ':' !in name
    ensures EndsWith(TrimEnd(Unlines(lines)), "OK")
    ensures FindLine(Lines(Unlines(lines)), prefix) == Some(name + (": " + data))
    ensures AfterSeparator(name + (": " + data)) == Some(data)
  {
    FinalLineDecides(lines);
    ReplyLinesAreOneLiners(lines);
    LinesOfUnlines(lines);
    FirstIsFound(lines, prefix, name + (": " + data));
    SeparatorBehind(name, data);
  }

  /** A fix status is what the line prints, if it is one. */
  lemma FixStatusValue(lines: seq<string>, name: string, data: string, decoder: Decoder)
    requires IsSuccess(lines) && name == "+CGPSSTATUS" && FirstIs(lines, "+CGPSSTATUS:", name + (": " + data))
    ensures Answer(GetGNSSStatus, Unlines(lines), decoder)
      == if decoder.fixStatus(Trim(data)) then GNSSStatus(Trim(data)) else Error("Unknown fix status")
  {
    FirstGives(lines, "+CGPSSTATUS:", name, data);
    FixStatusAnswer(Unlines(lines), name + (": " + data), data, decoder);
  }

  /** A position is what the line prints, if it can be decoded. */
  lemma LocationValue(lines: seq<string>, name: string, data: string, decoder: Decoder)
    requires IsSuccess(lines) && name == "+CGNSINF" && FirstIs(lines, "+CGNSINF", name + (": " + data))
    ensures Answer(GetGNSSLocation, Unlines(lines), decoder)
      == if decoder.position(Split(Trim(data), ',')) then GNSSLocation(Trim(data)) else Error("Invalid position report")
  {
    FirstGives(lines, "+CGNSINF", name, data);
    LocationAnswer(Unlines(lines), name + (": " + data), data, decoder);
  }

  // --- lines left over that change the answer ---

  /** An OK left over, say of an answer that came late, answers the next query: with an error. */
  lemma FinalLeftOver(request: ModemRequest, lines: seq<string>, decoder: Decoder)
    requires !request.SendSMS?
    ensures Heard("OK", lines) == ["OK"] && Answer(request, Unlines(Heard("OK", lines)), decoder).Error?
  {
    TrimTight("OK");
    assert ["OK"][0] == "OK";
    FinalLineIsError(request, "OK", decoder);
  }

  function SignalLine(rssi: i32, ber: i32): string {
    "+CSQ: " + (DecimalInt(rssi) + "," + DecimalInt(ber))
  }

  lemma SignalLineText(rssi: i32, ber: i32)
    ensures var line := SignalLine(rssi, ber);
      && |line| > 6 && line[0] == '+' && line[1] == 'C' && line[2] == 'S' && line[3] == 'Q'
      && Trim(line) == line && NoBreak(line)
  {
    var line := SignalLine(rssi, ber);
    PrintedSignedShape(rssi);
    PrintedSignedShape(ber);
    assert line[|line| - 1] == DecimalInt(ber)[|DecimalInt(ber)| - 1];
    TrimTight(line);
    forall k | 0 <= k < |line| ensures !IsBreak(line[k]) {
      assert line[k] in "+CSQ: " || line[k] in DecimalInt(rssi) || line[k] == ',' || line[k] in DecimalInt(ber);
    }
  }

  lemma SignalIsNoHeader(line: string)
    requires |line| > 3 && line[0] == '+' && line[1] == 'C' && line[2] == 'S'
    ensures FromHeader(line).None? && !WaitingForData.IsComplete(line)
  {
    NotPrefix(line, "+CMT", 2);
    NotPrefix(line, "+CDS", 2);
    NotPrefix(line, "+CGREG:", 2);
    NotPrefix(line, "+UGNSINF", 1);
    NotPrefix(line, "+CMGS:", 2);
  }

  lemma SignalLineShape(rssi: i32, ber: i32)
    ensures var line := SignalLine(rssi, ber);
      IsReplyLine(line) && IsHeard(line) && !WaitingForData.IsComplete(line)
  {
    SignalLineText(rssi, ber);
    SignalIsNoHeader(SignalLine(rssi, ber));
  }

  /** A signal line left over wins over that of the response, for every two pairs of values. */
  lemma StaleValuesWin(rssi: i32, ber: i32, lines: seq<string>, decoder: Decoder)
    requires IsSuccess(lines)
    ensures Answer(GetSignalStrength, Unlines(Heard(SignalLine(rssi, ber), lines)), decoder)
      == SignalStrength(rssi, ber)
  {
    var line := SignalLine(rssi, ber);
    var all := [line] + lines;
    SignalLineShape(rssi, ber);
    assert IsSuccess(all) by {
      assert forall k :: 0 < k < |all| ==> all[k] == lines[k - 1];
    }
    SignalAnswers(rssi, ber, Unlines(lines));
    assert all[1..] == lines;
    SignalStrengthValues(all, rssi, ber, decoder);
  }

  lemma SignalAnswers(rssi: i32, ber: i32, rest: string)
    ensures Answers(SignalLine(rssi, ber) + "\n" + rest, "CSQ", DecimalInt(rssi) + "," + DecimalInt(ber))
  {
    var payload := DecimalInt(rssi) + "," + DecimalInt(ber);
    var pre: seq<string> := [];
    var prefix := "+" + "CSQ" + ":";
    assert Lacks(pre, prefix) && Padding("") && Padding(" ");
    assert ReplyLine("", prefix, " ", payload, "") == SignalLine(rssi, ber);
    assert SignalLine(rssi, ber) + "\n" + rest
      == Unlines(pre) + (ReplyLine("", prefix, " ", payload, "") + "\n" + rest);
  }
}
