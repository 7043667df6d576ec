/**
 From bytes to reply: framing, the state machine and the parsers composed. Whatever unsolicited
 messages the modem puts between the lines of its answer, however it divides them and however the
 reads cut the stream, an SMS submission is answered once, with the reference the modem gave.
 */
module EndToEnd {
  import opened Text
  import opened Framing
  import opened Chunking
  import opened Types
  import opened Parsers
  import opened Handlers
  import opened StateMachine
  import opened Interleaving

  // --- what the modem writes ---

  /**
   A line with the line ends that close it, or a prompt with its spaces; `before` are line ends in
   front. Between two lines there is at least one line end, of either kind, and any number more.
   */
  datatype Piece =
    | LinePiece(before: string, body: string, after: string)
    | PromptPiece(before: string, spaces: string)

  function PieceText(p: Piece): string {
    match p
    case LinePiece(before, body, after) => before + (body + after)
    case PromptPiece(before, spaces) => before + (">" + spaces)
  }

  function PieceCue(p: Piece): Cue {
    match p
    case LinePiece(_, body, _) => LineCue(body)
    case PromptPiece(_, _) => PromptCue
  }

  predicate LineEnds(s: string) {
    forall c :: c in s ==> c == '\r' || c == '\n'
  }

  predicate Unbroken(s: string) {
    '\r' !in s && '\n' !in s
  }

  predicate GoodPiece(p: Piece) {
    LineEnds(p.before) &&
    match p
    case LinePiece(_, body, after) =>
      body != "" && Unbroken(body) && body[0] != '>' && after != "" && LineEnds(after)
    case PromptPiece(_, spaces) => forall c :: c in spaces ==> c == ' '
  }

  lemma LineEndsAreBreaks(s: string)
    ensures LineEnds(s) <==> AllBreaks(s)
  {
    if LineEnds(s) {
      forall i | 0 <= i < |s| ensures IsBreak(s[i]) { assert s[i] in s; }
    }
  }

  lemma UnbrokenHasNoBreak(s: string)
    ensures Unbroken(s) <==> NoBreak(s)
  {
    if Unbroken(s) {
      forall i | 0 <= i < |s| ensures !IsBreak(s[i]) { assert s[i] in s; }
    }
  }

  /** The same in the terms of the tokenizer. */
  lemma PieceParts(p: Piece)
    requires GoodPiece(p)
    ensures AllBreaks(p.before)
    ensures p.LinePiece? ==> IsRemainder(p.body) && AllBreaks(p.after)
    ensures p.PromptPiece? ==> AllSpaces(p.spaces)
  {
    LineEndsAreBreaks(p.before);
    if p.LinePiece? {
      UnbrokenHasNoBreak(p.body);
      LineEndsAreBreaks(p.after);
    } else {
      forall i | 0 <= i < |p.spaces| ensures p.spaces[i] == ' ' { assert p.spaces[i] in p.spaces; }
    }
  }

  /** Right behind a prompt spaces are the prompt's, and behind those comes no other prompt. */
  predicate Follows(spaced: bool, p: Piece) {
    p.before == "" ==> (match p
                        case LinePiece(_, body, _) => body == "" || body[0] != ' '
                        case PromptPiece(_, _) => !spaced)
  }

  predicate GoodPieces(pieces: seq<Piece>) {
    && (forall p :: p in pieces ==> GoodPiece(p))
    && (forall k :: 0 < k < |pieces| && pieces[k - 1].PromptPiece? ==> Follows(pieces[k - 1].spaces != "", pieces[k]))
  }

  function TextOf(pieces: seq<Piece>): string {
    if pieces == [] then "" else PieceText(pieces[0]) + TextOf(pieces[1..])
  }

  function CuesOf(pieces: seq<Piece>): seq<Cue> {
    if pieces == [] then [] else [PieceCue(pieces[0])] + CuesOf(pieces[1..])
  }

  lemma {:induction false} ReadBreaks(mode: Mode, s: string)
    requires !mode.InBody? && AllBreaks(s)
    ensures FeedAll(mode, s) == (if s == "" then mode else AtStart) && AllCues(mode, s) == [] && Clean(mode, s)
    decreases |s|
  {
    if s != "" { ReadBreaks(AtStart, s[1..]); }
  }

  lemma ReadRemainder(mode: Mode, s: string)
    requires !mode.InBody? && IsRemainder(s) && (mode.AfterPrompt? && s != "" ==> s[0] != ' ')
    ensures FeedAll(mode, s) == (if s == "" then mode else InBody(s)) && AllCues(mode, s) == [] && Clean(mode, s)
  {
    if s != "" {
      FeedBody([s[0]], s[1..]);
      CleanBody([s[0]], s[1..]);
      assert [s[0]] + s[1..] == s;
    }
  }

  lemma ReadBody(mode: Mode, body: string, after: string)
    requires !mode.InBody? && body != "" && IsRemainder(body) && (mode.AfterPrompt? ==> body[0] != ' ')
    requires after != "" && AllBreaks(after)
    ensures FeedAll(mode, body + after) == AtStart && AllCues(mode, body + after) == [LineCue(body)]
    ensures Clean(mode, body + after)
  {
    ReadRemainder(mode, body);
    ReadBreaks(AtStart, after[1..]);
    FeedConcat(mode, body, after);
    CleanConcat(mode, body, after);
  }

  lemma ReadPrompt(mode: Mode, spaces: string)
    requires !mode.InBody? && mode != AfterPrompt(true) && AllSpaces(spaces)
    ensures FeedAll(mode, ">" + spaces) == AfterPrompt(spaces != "") && AllCues(mode, ">" + spaces) == [PromptCue]
    ensures Clean(mode, ">" + spaces)
  {
    assert (">" + spaces)[1..] == spaces;
    FeedSpaces(false, spaces);
    CleanSpaces(false, spaces);
  }

  function ModeBehind(p: Piece): Mode {
    if p.PromptPiece? then AfterPrompt(p.spaces != "") else AtStart
  }

  lemma ReadPiece(mode: Mode, p: Piece)
    requires !mode.InBody? && GoodPiece(p) && (mode.AfterPrompt? ==> Follows(mode.spaced, p))
    ensures FeedAll(mode, PieceText(p)) == ModeBehind(p) && AllCues(mode, PieceText(p)) == [PieceCue(p)]
    ensures Clean(mode, PieceText(p))
  {
    var tail := if p.LinePiece? then p.body + p.after else ">" + p.spaces;
    var start := FeedAll(mode, p.before);
    PieceParts(p);
    ReadBreaks(mode, p.before);
    FeedConcat(mode, p.before, tail);
    CleanConcat(mode, p.before, tail);
    if p.LinePiece? { ReadBody(start, p.body, p.after); } else { ReadPrompt(start, p.spaces); }
  }

  lemma MorePieces(pieces: seq<Piece>)
    requires GoodPieces(pieces) && pieces != []
    ensures GoodPieces(pieces[1..])
  {
    var more := pieces[1..];
    forall k | 0 < k < |more| && more[k - 1].PromptPiece? ensures Follows(more[k - 1].spaces != "", more[k]) {
      assert more[k - 1] == pieces[k] && more[k] == pieces[k + 1];
    }
  }

  lemma {:induction false} ReadPieces(mode: Mode, pieces: seq<Piece>)
    requires !mode.InBody? && GoodPieces(pieces)
    requires mode.AfterPrompt? && pieces != [] ==> Follows(mode.spaced, pieces[0])
    ensures !FeedAll(mode, TextOf(pieces)).InBody?
    ensures AllCues(mode, TextOf(pieces)) == CuesOf(pieces)
    ensures Clean(mode, TextOf(pieces))
    decreases |pieces|
  {
    if pieces != [] {
      var p, more := pieces[0], pieces[1..];
      assert p in pieces;
      MorePieces(pieces);
      if more != [] { assert more[0] == pieces[1]; }
      ReadPiece(mode, p);
      FeedConcat(mode, PieceText(p), TextOf(more));
      CleanConcat(mode, PieceText(p), TextOf(more));
      ReadPieces(ModeBehind(p), more);
    }
  }

  predicate BeginsWithBreak(text: string) {
    text != "" && IsBreak(text[0])
  }

  predicate EndsLine(text: string) {
    text != "" && IsBreak(text[|text| - 1])
  }

  /** Of `text` all has still to be read but some line ends at its head. */
  predicate Remaining(text: string, unread: string) {
    |unread| <= |text| && AllBreaks(text[..|text| - |unread|]) && text[|text| - |unread|..] == unread
  }

  /** The beginning of a further line behind `text`. */
  predicate Unfinished(text: string, rest: string) {
    IsRemainder(rest) && (rest != "" && rest[0] == ' ' ==> text == "" || EndsLine(text))
  }

  /**
   `data`, read with `buffer` pending, delivers `text`, and the beginning `rest` of a further line:
   behind a line `stale` begun before, or, without one, with line ends at its head read already.
   */
  predicate Delivers(buffer: string, data: string, stale: string, text: string, rest: string) {
    && IsRemainder(buffer) && IsRemainder(stale) && Unfinished(text, rest)
    && (if stale == "" then Remaining(text + rest, buffer + data)
        else BeginsWithBreak(text) && buffer + data == stale + (text + rest))
  }

  /** The event of an unfinished line, once it ends. */
  function StaleEvents(stale: string): seq<LineEvent> {
    if Trim(stale) == "" then [] else [Line(Trim(stale))]
  }

  lemma ReadStale(stale: string, text: string)
    requires stale != "" && IsRemainder(stale) && BeginsWithBreak(text) && Clean(AtStart, text)
    ensures Announce(AllCues(AtStart, stale + text)) == StaleEvents(stale) + Announce(AllCues(AtStart, text))
    ensures Clean(AtStart, stale + text)
  {
    CleanConcat(AtStart, stale, text);
    CleanRemainder(stale);
    FeedRemainder(stale);
    FeedBodyToken(stale, text);
    AnnounceLine(stale, AllCues(AtStart, text));
  }

  lemma ReadRemaining(text: string, unread: string)
    requires Remaining(text, unread) && Clean(AtStart, text)
    ensures AllCues(AtStart, unread) == AllCues(AtStart, text) && Clean(AtStart, unread)
  {
    var breaks := text[..|text| - |unread|];
    assert text == breaks + unread;
    ReadBreaks(AtStart, breaks);
    FeedConcat(AtStart, breaks, unread);
    CleanConcat(AtStart, breaks, unread);
    assert [] + AllCues(AtStart, unread) == AllCues(AtStart, unread);
  }

  lemma ReadDelivery(buffer: string, data: string, stale: string, text: string, rest: string)
    requires Delivers(buffer, data, stale, text, rest) && Clean(AtStart, text + rest)
    ensures Announce(AllCues(AtStart, buffer + data)) == StaleEvents(stale) + Announce(AllCues(AtStart, text + rest))
    ensures Clean(AtStart, buffer + data)
  {
    if stale == "" {
      ReadRemaining(text + rest, buffer + data);
      TrimBlank(stale);
    } else {
      assert (text + rest)[0] == text[0];
      ReadStale(stale, text + rest);
    }
  }

  lemma ReadRest(pieces: seq<Piece>, rest: string)
    requires GoodPieces(pieces) && Unfinished(TextOf(pieces), rest)
    ensures AllCues(AtStart, TextOf(pieces) + rest) == CuesOf(pieces) && Clean(AtStart, TextOf(pieces) + rest)
  {
    var text := TextOf(pieces);
    ReadPieces(AtStart, pieces);
    LastByteMode(text);
    ReadRemainder(FeedAll(AtStart, text), rest);
    FeedConcat(AtStart, text, rest);
    CleanConcat(AtStart, text, rest);
  }

  /** A stream of lines and prompts is read as exactly those, however they are divided and it is cut. */
  lemma FramedReads(buffer: string, stale: string, pieces: seq<Piece>, rest: string, max: nat, chunks: seq<string>)
    requires GoodPieces(pieces)
    requires Delivers(buffer, Concat(chunks), stale, TextOf(pieces), rest) && Untruncated(buffer, max, chunks)
    ensures EventsOfReads(buffer, max, chunks) == StaleEvents(stale) + Announce(CuesOf(pieces))
  {
    ReadRest(pieces, rest);
    ReadDelivery(buffer, Concat(chunks), stale, TextOf(pieces), rest);
    AnyReads(buffer, max, chunks);
    FeedIsTokenize(buffer + Concat(chunks));
  }

  // --- unsolicited messages among the lines ---

  /** The pieces are written as the stream of blocks: their lines, trimmed and without blank ones. */
  predicate ReadAs(pieces: seq<Piece>, blocks: seq<Block>) {
    GoodPieces(pieces) && AllWellFormed(blocks) && Announce(CuesOf(pieces)) == Stream(blocks)
  }

  lemma {:induction false} StreamConcat(a: seq<Block>, b: seq<Block>)
    ensures Stream(a + b) == Stream(a) + Stream(b)
  {
    if a == [] {
      assert a + b == b;
    } else {
      assert (a + b)[1..] == a[1..] + b;
      StreamConcat(a[1..], b);
      Reassociate(BlockEvents(a[0]), Stream(a[1..]), Stream(b));
    }
  }

  lemma OnePiece(p: Piece)
    ensures TextOf([p]) == PieceText(p) && CuesOf([p]) == [PieceCue(p)]
  {
    assert [p][1..] == [];
  }

  lemma TwoPieces(p: Piece, q: Piece)
    ensures TextOf([p, q]) == PieceText(p) + PieceText(q) && CuesOf([p, q]) == [PieceCue(p)] + ([PieceCue(q)] + [])
  {
    OnePiece(q);
    assert [p, q][1..] == [q];
  }

  lemma AnnounceTwo(a: string, b: string)
    requires Trim(a) != "" && Trim(b) != ""
    ensures Announce([LineCue(a)] + ([LineCue(b)] + [])) == [Line(Trim(a)), Line(Trim(b))]
  {
    AnnounceLine(a, [LineCue(b)] + []);
    AnnounceLine(b, []);
  }

  /** The usual form of a message: a line end in front, and single ones behind header and payload. */
  function MessagePieces(header: string, payload: string): seq<Piece> {
    [LinePiece("\r\n", header, "\r\n"), LinePiece("", payload, "\r\n")]
  }

  lemma MessageText(header: string, payload: string)
    ensures TextOf(MessagePieces(header, payload)) == "\r\n" + header + "\r\n" + payload + "\r\n"
    ensures CuesOf(MessagePieces(header, payload)) == [LineCue(header)] + ([LineCue(payload)] + [])
  {
    TwoPieces(LinePiece("\r\n", header, "\r\n"), LinePiece("", payload, "\r\n"));
  }

  lemma MessageBlock(header: string, payload: string)
    requires IsHeader(header, true) && FromHeader(Trim(payload)).None?
    ensures var b := NotificationWithPayload(Trim(header), Trim(payload));
      AllWellFormed([b]) && Stream([b]) == [Line(Trim(header)), Line(Trim(payload))] && Trim(header) != ""
  {
    TrimIdempotent(header);
    TrimIdempotent(payload);
    var b := NotificationWithPayload(Trim(header), Trim(payload));
    StreamCons(b, []);
    assert [b] + [] == [b];
  }

  /** It is read as one message. */
  lemma MessageRead(header: string, payload: string)
    requires IsRemainder(header) && IsRemainder(payload) && Trim(payload) != ""
    requires IsHeader(header, true) && FromHeader(Trim(payload)).None?
    ensures ReadAs(MessagePieces(header, payload), [NotificationWithPayload(Trim(header), Trim(payload))])
  {
    MessageText(header, payload);
    MessageBlock(header, payload);
    AnnounceTwo(header, payload);
    TrimBlank(header);
    TrimBlank(payload);
    UnbrokenHasNoBreak(header);
    UnbrokenHasNoBreak(payload);
    assert LineEnds("\r\n") && LineEnds("");
  }

  // --- an SMS submission from its first write to its reply ---

  /** An SMS submission in this state, that has heard these lines. */
  predicate Submission(m: Machine, state: CommandState, heard: seq<string>) {
    m.state.Command? && var x := m.state.execution;
      x.command.request.SendSMS? && x.command.open
      && x.context.state == state && x.context.responseBuffer == Unlines(heard)
  }

  /** An SMS submission that has been started and has heard nothing yet. */
  predicate JustSubmitted(m: Machine) {
    Submission(m, WaitingForPrompt, [])
  }

  /** A line of a response, without the blanks around it. */
  predicate IsReplyLine(line: string) {
    line != "" && NoBreak(line) && Trim(line) == line && FromHeader(line).None?
  }

  predicate AreReplyLines(lines: seq<string>) {
    forall line :: line in lines ==> IsReplyLine(line)
  }

  /** The lines that answer a submission once its prompt has come: only the last is final, well or ill. */
  predicate Concludes(lines: seq<string>) {
    && lines != [] && AreReplyLines(lines) && WaitingForOk.IsComplete(lines[|lines| - 1])
    && (forall k :: 0 <= k < |lines| - 1 ==> !WaitingForOk.IsComplete(lines[k]))
  }

  function LineEvents(lines: seq<string>): seq<Block> {
    if lines == [] then [] else [Plain(Line(lines[0]))] + LineEvents(lines[1..])
  }

  /** A whole dialogue: early lines, the prompt, and the lines that answer. */
  function Dialogue(early: seq<string>, lines: seq<string>): seq<Block> {
    LineEvents(early) + ([Plain(Prompt(">"))] + LineEvents(lines))
  }

  lemma {:induction false} LineEventsConcat(a: seq<string>, b: seq<string>)
    ensures LineEvents(a + b) == LineEvents(a) + LineEvents(b)
  {
    if a == [] {
      assert a + b == b;
    } else {
      assert (a + b)[1..] == a[1..] + b;
      LineEventsConcat(a[1..], b);
      Reassociate([Plain(Line(a[0]))], LineEvents(a[1..]), LineEvents(b));
    }
  }

  lemma NotPrefix(s: string, prefix: string, k: nat)
    requires k < |s| && k < |prefix| && s[k] != prefix[k]
    ensures !StartsWith(s, prefix) && s != prefix
  {
  }

  lemma CmgsIsNoHeader(line: string)
    requires StartsWith(line, "+CMGS:")
    ensures FromHeader(line).None? && !WaitingForOk.IsComplete(line)
  {
    assert line[0] == '+' && line[1] == 'C' && line[2] == 'M' && line[3] == 'G';
    NotPrefix(line, "+CMS ERROR:", 3);
    NotPrefix(line, "+CME ERROR:", 3);
  }

  lemma UnlinesMore(heard: seq<string>, line: string)
    ensures Unlines(heard + [line]) == Unlines(heard) + line + "\n"
  {
    UnlinesConcat(heard, [line]);
    UnlinesOne(line);
    Reassociate(Unlines(heard), line, "\n");
  }

  lemma LastLineDecides(heard: seq<string>, line: string)
    requires Tight(line) && |line| >= 2
    ensures EndsWith(TrimEnd(Unlines(heard + [line])), "OK") <==> EndsWith(line, "OK")
  {
    UnlinesMore(heard, line);
    TrimEndOf(Unlines(heard) + line, "\n");
    assert (Unlines(heard) + line)[|Unlines(heard)| + |line| - 2..] == line[|line| - 2..];
  }

  /**
   What a submission that has heard these lines is answered on a final one: the number on its first
   `+CMGS:` line, if that is a number and the final line ends in OK, and an error otherwise.
   */
  lemma AnswerOfLines(request: ModemRequest, heard: seq<string>, line: string, decoder: Decoder)
    requires request.SendSMS? && OneLiners(heard + [line]) && |line| >= 2
    ensures var answer := Answer(request, Unlines(heard + [line]), decoder);
      var number := FirstNumber(heard + [line]);
      if EndsWith(line, "OK") && number.Some? then answer == SendResult(number.value)
      else answer.Error?
  {
    var lines := heard + [line];
    assert lines[|heard|] == line;
    var a, b := TrimSplit(line);
    LastLineDecides(heard, line);
    CmgsIsFirstNumber(lines);
  }

  lemma ReplyLinesAreOneLiners(lines: seq<string>)
    requires AreReplyLines(lines)
    ensures OneLiners(lines)
  {
    forall k | 0 <= k < |lines| ensures '\n' !in lines[k] && Trim(lines[k]) == lines[k] {
      assert lines[k] in lines && IsReplyLine(lines[k]);
    }
  }

  lemma {:induction false} PlainLines(lines: seq<string>)
    requires AreReplyLines(lines)
    ensures AllWellFormed(LineEvents(lines)) && Erased(LineEvents(lines)) == LineEvents(lines)
  {
    if lines != [] {
      assert lines[0] in lines;
      PlainLines(lines[1..]);
      assert LineEvents(lines)[1..] == LineEvents(lines[1..]);
    }
  }

  /** A line that is no header and does not end the submission. */
  lemma HeardStep(m: Machine, state: CommandState, heard: seq<string>, line: string, decoder: Decoder, gone: set<nat>)
    requires Submission(m, state, heard) && IsReplyLine(line) && !state.IsComplete(line)
    ensures var n := HandleLine(m, Line(line), decoder, gone);
      && Submission(n, state, heard + [line])
      && n == m.(state := Command(Buffered(m.state.execution, line)))
  {
    UnlinesMore(heard, line);
    PrefixPlaysNoPart(m, line, decoder, gone);
  }

  /** Lines none of which ends a command in this state. */
  predicate Continues(state: CommandState, lines: seq<string>) {
    AreReplyLines(lines) && forall line :: line in lines ==> !state.IsComplete(line)
  }

  lemma ContinuesOn(state: CommandState, lines: seq<string>)
    requires Continues(state, lines) && lines != []
    ensures IsReplyLine(lines[0]) && !state.IsComplete(lines[0]) && Continues(state, lines[1..])
  {
    assert lines[0] in lines && forall line :: line in lines[1..] ==> line in lines;
  }

  /** `n` is `m` but for what the submission has heard. */
  predicate SameButHeard(m: Machine, n: Machine) {
    && m.state.Command? && n.state.Command? && n == m.(state := n.state)
    && n.state.execution.command == m.state.execution.command
  }

  lemma {:induction false} HeardLines(m: Machine, state: CommandState, heard: seq<string>, lines: seq<string>,
                                      decoder: Decoder, gone: set<nat>)
    requires Submission(m, state, heard) && Continues(state, lines)
    ensures var n := HandleLines(m, Stream(LineEvents(lines)), decoder, gone);
      Submission(n, state, heard + lines) && SameButHeard(m, n)
    decreases |lines|
  {
    if lines == [] {
      assert heard + lines == heard;
    } else {
      var line, more := lines[0], lines[1..];
      ContinuesOn(state, lines);
      StreamCons(Plain(Line(line)), LineEvents(more));
      OneLine(m, Line(line), decoder, gone);
      HandleLinesConcat(m, [Line(line)], Stream(LineEvents(more)), decoder, gone);
      HeardStep(m, state, heard, line, decoder, gone);
      Reassociate(heard, [line], more);
      assert [line] + more == lines;
      HeardLines(HandleLine(m, Line(line), decoder, gone), state, heard + [line], more, decoder, gone);
    }
  }

  lemma PromptStep(m: Machine, heard: seq<string>, decoder: Decoder, gone: set<nat>)
    requires Submission(m, WaitingForPrompt, heard)
    ensures var x := m.state.execution;
      var n := HandleLine(m, Prompt(">"), decoder, gone);
      && Submission(n, WaitingForOk, heard)
      && n == m.(queue := m.queue + [WriteCommand(x.command.request.pdu + [26 as char])],
                 state := Command(x.(context := x.context.(state := WaitingForOk))))
  {
  }

  /** The line that ends a submission, well or ill. */
  lemma FinalLineStep(m: Machine, heard: seq<string>, line: string, decoder: Decoder, gone: set<nat>)
    requires Submission(m, WaitingForOk, heard)
    requires Trim(line) == line && FromHeader(line).None? && WaitingForOk.IsComplete(line)
    ensures var command := m.state.execution.command;
      var answer := Answer(command.request, Unlines(heard + [line]), decoder);
      HandleLine(m, Line(line), decoder, gone) ==
        m.(state := Idle, replies := m.replies + [Reply(command.channel, answer, command.channel !in gone)])
  {
    var x := m.state.execution;
    UnlinesMore(heard, line);
    ErrorPathIdle(m, Line(line), decoder, gone);
    assert TransitionState(m, Line(line), decoder, gone) == ProcessResponse(m, x, line, decoder, gone);
    assert Buffered(x, line).context.responseBuffer == Unlines(heard + [line]);
  }

  function SubmissionReply(command: OutgoingCommand, heard: seq<string>, decoder: Decoder, gone: set<nat>): Reply {
    Reply(command.channel, Answer(command.request, Unlines(heard), decoder), command.channel !in gone)
  }

  lemma ConcludesWith(lines: seq<string>)
    requires Concludes(lines)
    ensures var before := lines[..|lines| - 1];
      var last := lines[|lines| - 1];
      lines == before + [last] && Continues(WaitingForOk, before) && IsReplyLine(last)
  {
    var before := lines[..|lines| - 1];
    assert lines[|lines| - 1] in lines;
    forall line | line in before ensures IsReplyLine(line) && !WaitingForOk.IsComplete(line) {
      var k :| 0 <= k < |before| && before[k] == line;
      assert lines[k] in lines;
    }
  }

  lemma ConclusionStream(before: seq<string>, last: string)
    ensures Stream(LineEvents(before + [last])) == Stream(LineEvents(before)) + [Line(last)]
  {
    LineEventsConcat(before, [last]);
    assert [last][1..] == [];
    assert LineEvents([last]) == [Plain(Line(last))] + [];
    StreamCons(Plain(Line(last)), []);
    StreamConcat(LineEvents(before), LineEvents([last]));
  }

  /** From the prompt on: one reply, to all lines heard. */
  lemma Conclusion(m: Machine, heard: seq<string>, lines: seq<string>, decoder: Decoder, gone: set<nat>)
    requires Submission(m, WaitingForOk, heard) && Concludes(lines)
    ensures HandleLines(m, Stream(LineEvents(lines)), decoder, gone) ==
      m.(state := Idle,
         replies := m.replies + [SubmissionReply(m.state.execution.command, heard + lines, decoder, gone)])
  {
    var before, last := lines[..|lines| - 1], lines[|lines| - 1];
    var n := HandleLines(m, Stream(LineEvents(before)), decoder, gone);
    ConcludesWith(lines);
    ConclusionStream(before, last);
    HeardLines(m, WaitingForOk, heard, before, decoder, gone);
    HandleLinesConcat(m, Stream(LineEvents(before)), [Line(last)], decoder, gone);
    OneLine(n, Line(last), decoder, gone);
    FinalLineStep(n, heard + before, last, decoder, gone);
    assert heard + before + [last] == heard + lines;
  }

  lemma DialogueStream(m: Machine, early: seq<string>, lines: seq<string>, decoder: Decoder, gone: set<nat>)
    ensures var waiting := HandleLines(m, Stream(LineEvents(early)), decoder, gone);
      HandleLines(m, Stream(Dialogue(early, lines)), decoder, gone) ==
        HandleLines(HandleLine(waiting, Prompt(">"), decoder, gone), Stream(LineEvents(lines)), decoder, gone)
  {
    var waiting := HandleLines(m, Stream(LineEvents(early)), decoder, gone);
    OneLine(waiting, Prompt(">"), decoder, gone);
    StreamCons(Plain(Prompt(">")), LineEvents(lines));
    StreamConcat(LineEvents(early), [Plain(Prompt(">"))] + LineEvents(lines));
    HandleLinesConcat(m, Stream(LineEvents(early)), [Prompt(">")] + Stream(LineEvents(lines)), decoder, gone);
    HandleLinesConcat(waiting, [Prompt(">")], Stream(LineEvents(lines)), decoder, gone);
  }

  /** Without unsolicited messages: one write of the PDU, one reply, idle again. */
  lemma PlainDialogue(m: Machine, early: seq<string>, lines: seq<string>, decoder: Decoder, gone: set<nat>)
    requires JustSubmitted(m) && AreReplyLines(early) && Concludes(lines)
    ensures var command := m.state.execution.command;
      HandleLines(m, Stream(Dialogue(early, lines)), decoder, gone) ==
        m.(state := Idle,
           queue := m.queue + [WriteCommand(command.request.pdu + [26 as char])],
           replies := m.replies + [SubmissionReply(command, early + lines, decoder, gone)])
  {
    var waiting := HandleLines(m, Stream(LineEvents(early)), decoder, gone);
    HeardLines(m, WaitingForPrompt, [], early, decoder, gone);
    assert [] + early == early;
    PromptStep(waiting, early, decoder, gone);
    Conclusion(HandleLine(waiting, Prompt(">"), decoder, gone), early, lines, decoder, gone);
    DialogueStream(m, early, lines, decoder, gone);
  }

  // --- a line left over at the start ---

  /** A header left over, whose payload is then due. */
  predicate AwaitsPayload(stale: string) {
    IsHeader(stale, true)
  }

  predicate IsHeard(stale: string) {
    Trim(stale) != "" && FromHeader(Trim(stale)).None?
  }

  /** A line left over in the buffer at the start, as a command hears it that begins then. */
  function StaleLines(stale: string): seq<string> {
    if IsHeard(stale) then [Trim(stale)] else []
  }

  lemma StaleIsReplyLine(stale: string)
    requires IsRemainder(stale)
    ensures AreReplyLines(StaleLines(stale)) && OneLiners(StaleLines(stale))
  {
    TrimIdempotent(stale);
    TrimNoBreak(stale);
  }

  /** The block that a line left over makes, if it is no header whose payload is due. */
  function StaleBlocks(stale: string): seq<Block> {
    if Trim(stale) == "" then []
    else if IsHeard(stale) then [Plain(Line(Trim(stale)))]
    else [Notification(Trim(stale))]
  }

  /** The stream read when a transcript follows a line left over. */
  lemma StaleStream(stale: string, blocks: seq<Block>)
    requires !AwaitsPayload(stale) && AllWellFormed(blocks)
    ensures AllWellFormed(StaleBlocks(stale) + blocks)
    ensures Stream(StaleBlocks(stale) + blocks) == StaleEvents(stale) + Stream(blocks)
    ensures Erased(StaleBlocks(stale) + blocks) == LineEvents(StaleLines(stale)) + Erased(blocks)
  {
    TrimIdempotent(stale);
    if Trim(stale) == "" {
      assert StaleBlocks(stale) + blocks == blocks;
      assert [] + Stream(blocks) == Stream(blocks) && [] + Erased(blocks) == Erased(blocks);
    } else {
      assert (StaleBlocks(stale) + blocks)[1..] == blocks;
      StreamCons(StaleBlocks(stale)[0], blocks);
      assert [Trim(stale)][1..] == [];
    }
  }

  /** It is heard as one early line more. */
  lemma StaleIsEarly(stale: string, early: seq<string>, lines: seq<string>)
    ensures LineEvents(StaleLines(stale)) + Dialogue(early, lines) == Dialogue(StaleLines(stale) + early, lines)
  {
    LineEventsConcat(StaleLines(stale), early);
    Reassociate(LineEvents(StaleLines(stale)), LineEvents(early), [Plain(Prompt(">"))] + LineEvents(lines));
  }

  // --- from bytes to reply ---

  /**
   The reply to a submission that has heard these lines: the number on the first `+CMGS:` line of
   them, if that is a number and the last line ends in OK, and an error otherwise.
   */
  predicate IsReplyTo(command: OutgoingCommand, heard: seq<string>, reply: Reply, gone: set<nat>)
    requires heard != []
  {
    && reply.channel == command.channel && reply.delivered == (command.channel !in gone)
    && (if EndsWith(heard[|heard| - 1], "OK") && FirstNumber(heard).Some?
        then reply.response == SendResult(FirstNumber(heard).value)
        else reply.response.Error?)
  }

  lemma SubmissionReplyIs(command: OutgoingCommand, before: seq<string>, lines: seq<string>, decoder: Decoder,
                          gone: set<nat>)
    requires command.request.SendSMS? && AreReplyLines(before) && Concludes(lines)
    ensures IsReplyTo(command, before + lines, SubmissionReply(command, before + lines, decoder, gone), gone)
  {
    var last := lines[|lines| - 1];
    var heard := before + lines[..|lines| - 1];
    ConcludesWith(lines);
    assert before + lines == heard + [last];
    ReplyLinesAreOneLiners(before + lines);
    AnswerOfLines(command.request, heard, last, decoder);
  }

  /** One write of the PDU and one reply, to these lines; nothing is held or lost. */
  predicate Submitted(m: Machine, n: Machine, heard: seq<string>, decoder: Decoder, gone: set<nat>)
    requires m.state.Command? && m.state.execution.command.request.SendSMS?
  {
    var command := m.state.execution.command;
    && n.state == Idle && n.dropped == m.dropped
    && n.replies == m.replies + [SubmissionReply(command, heard, decoder, gone)]
    && Writes(n.queue) == Writes(m.queue) + [WriteCommand(command.request.pdu + [26 as char])]
  }

  lemma DialogueAmong(m: Machine, blocks: seq<Block>, early: seq<string>, lines: seq<string>, decoder: Decoder,
                      gone: set<nat>)
    requires JustSubmitted(m) && AreReplyLines(early) && Concludes(lines)
    requires AllWellFormed(blocks) && Erased(blocks) == Dialogue(early, lines)
    ensures Submitted(m, HandleLines(m, Stream(blocks), decoder, gone), early + lines, decoder, gone)
  {
    var pdu := WriteCommand(m.state.execution.command.request.pdu + [26 as char]);
    NonInterference(m, blocks, decoder, gone);
    PlainDialogue(m, early, lines, decoder, gone);
    WritesConcat(m.queue, [pdu]);
    SmallFilters([pdu]);
  }

  /**
   End to end: whatever notices surround the lines of the dialogue, whatever line ends divide the
   lines, and however the transcript is cut into reads that do not overflow the line buffer, the
   submission is answered once, success or refusal; the PDU is written once, no command is dropped,
   and the messages sent on are those of the notices alone. A line left over, unfinished, when the
   submission began is heard before the others.
   */
  lemma SubmissionAnswered(m: Machine, buffer: string, stale: string, early: seq<string>, lines: seq<string>,
                           blocks: seq<Block>, pieces: seq<Piece>, rest: string, max: nat, chunks: seq<string>,
                           decoder: Decoder, gone: set<nat>)
    requires JustSubmitted(m) && !AwaitsPayload(stale) && AreReplyLines(early) && Concludes(lines)
    requires ReadAs(pieces, blocks) && Erased(blocks) == Dialogue(early, lines)
    requires Delivers(buffer, Concat(chunks), stale, TextOf(pieces), rest) && Untruncated(buffer, max, chunks)
    ensures var n := HandleLines(m, EventsOfReads(buffer, max, chunks), decoder, gone);
      var command := m.state.execution.command;
      var heard := StaleLines(stale) + early + lines;
      var reply := SubmissionReply(command, heard, decoder, gone);
      var notices := Notifications(StaleBlocks(stale) + blocks);
      && Submitted(m, n, heard, decoder, gone) && IsReplyTo(command, heard, reply, gone)
      && n.sent == m.sent + HandleLines(FRESH, Stream(notices), decoder, gone).sent
  {
    FramedReads(buffer, stale, pieces, rest, max, chunks);
    StaleStream(stale, blocks);
    NonInterference(m, StaleBlocks(stale) + blocks, decoder, gone);
    StaleIsReplyLine(stale);
    StaleIsEarly(stale, early, lines);
    DialogueAmong(m, StaleBlocks(stale) + blocks, StaleLines(stale) + early, lines, decoder, gone);
    ErasedIsSilent(m, StaleBlocks(stale) + blocks, decoder, gone);
    SubmissionReplyIs(m.state.execution.command, StaleLines(stale) + early, lines, decoder, gone);
  }

  // --- a line and OK, as they are usually written ---

  lemma OkIsReplyLine()
    ensures IsReplyLine("OK")
  {
    TrimTight("OK");
    NotPrefix("OK", "+CMT", 0);
    NotPrefix("OK", "+CDS", 0);
    NotPrefix("OK", "+CGREG:", 0);
    NotPrefix("OK", "+UGNSINF", 0);
  }

  function OkPieces(line: string): seq<Piece> {
    [LinePiece("\r\n", line, "\r\n"), LinePiece("", "OK", "\r\n")]
  }

  lemma OkPiecesAreGood(line: string)
    requires IsReplyLine(line) && line[0] != '>'
    ensures GoodPieces(OkPieces(line)) && EndsLine(TextOf(OkPieces(line)))
  {
    UnbrokenHasNoBreak(line);
    assert GoodPiece(OkPieces(line)[0]) && GoodPiece(OkPieces(line)[1]);
    OkEnds(line);
  }

  lemma OkEnds(line: string)
    ensures EndsLine(TextOf(OkPieces(line)))
  {
    var text := PieceText(OkPieces(line)[0]) + PieceText(OkPieces(line)[1]);
    TwoPieces(OkPieces(line)[0], OkPieces(line)[1]);
    assert text[|text| - 1] == PieceText(OkPieces(line)[1])[3];
  }

  lemma OkStream(line: string)
    requires IsReplyLine(line)
    ensures Announce(CuesOf(OkPieces(line))) == [Line(line), Line("OK")]
    ensures Stream(LineEvents([line, "OK"])) == [Line(line), Line("OK")]
  {
    OkIsReplyLine();
    TwoPieces(OkPieces(line)[0], OkPieces(line)[1]);
    AnnounceTwo(line, "OK");
    assert [line, "OK"][1..] == ["OK"] && ["OK"][1..] == [];
    StreamCons(Plain(Line("OK")), []);
    StreamCons(Plain(Line(line)), [Plain(Line("OK"))] + []);
  }

  lemma OkPiecesRead(line: string)
    requires IsReplyLine(line) && line[0] != '>'
    ensures var blocks := LineEvents([line, "OK"]); ReadAs(OkPieces(line), blocks) && Erased(blocks) == blocks
  {
    OkIsReplyLine();
    PlainLines([line, "OK"]);
    OkPiecesAreGood(line);
    OkStream(line);
  }

  // --- the reference of a successful submission ---

  function ReferenceLine(reference: u8): string {
    "+CMGS: " + Decimal(reference)
  }

  lemma ReferenceLineShape(reference: u8)
    ensures IsReplyLine(ReferenceLine(reference)) && !WaitingForOk.IsComplete(ReferenceLine(reference))
  {
    var line := ReferenceLine(reference);
    ParsePrintedUnsigned(reference, 255);
    TrimTight(line);
    assert line == "+CMGS:" + (" " + Decimal(reference));
    CmgsIsNoHeader(line);
  }

  lemma SuccessConcludes(reference: u8)
    ensures Concludes([ReferenceLine(reference), "OK"])
  {
    ReferenceLineShape(reference);
    OkIsReplyLine();
  }

  lemma ReferenceNumber(reference: u8, more: seq<string>)
    ensures var line := ReferenceLine(reference);
      IsReference(line) && FirstNumber([line] + more) == Some(reference)
  {
    var line := ReferenceLine(reference);
    assert line == "+CMGS:" + (" " + Decimal(reference));
    ParsePrintedUnsigned(reference, 255);
    TrimOf(" ", Decimal(reference), "");
    assert line[6..] == " " + Decimal(reference) + "";
  }

  /** The first number heard is that of an earlier `+CMGS:` line, if there is one. */
  lemma {:induction false} FirstReference(before: seq<string>, more: seq<string>)
    ensures FirstNumber(before + more) ==
      if exists line :: line in before && IsReference(line) then FirstNumber(before) else FirstNumber(more)
  {
    if before == [] {
      assert before + more == more;
    } else {
      assert (before + more)[1..] == before[1..] + more;
      assert before == [before[0]] + before[1..];
      FirstReference(before[1..], more);
    }
  }

  /**
   A submission that is told a reference and OK is answered with it, if and only if no `+CMGS:` line
   without it was heard before: left over, or early.
   */
  lemma ReferenceReplied(request: ModemRequest, before: seq<string>, reference: u8, decoder: Decoder)
    requires request.SendSMS? && AreReplyLines(before)
    ensures var answer := Answer(request, Unlines(before + [ReferenceLine(reference), "OK"]), decoder);
      answer == SendResult(reference) <==>
        (exists line :: line in before && IsReference(line)) ==> FirstNumber(before) == Some(reference)
  {
    var line := ReferenceLine(reference);
    var lines := before + [line, "OK"];
    SuccessConcludes(reference);
    ReplyLinesAreOneLiners(lines);
    assert lines == before + [line] + ["OK"];
    AnswerOfLines(request, before + [line], "OK", decoder);
    FirstReference(before, [line, "OK"]);
    ReferenceNumber(reference, ["OK"]);
    assert [line] + ["OK"] == [line, "OK"];
  }

  /** A `+CMGS:` line left over from before wins over the one in the transcript. */
  lemma StaleReferenceWins(request: ModemRequest, other: u8, reference: u8, decoder: Decoder)
    requires request.SendSMS?
    ensures StaleLines(ReferenceLine(other)) == [ReferenceLine(other)]
    ensures Answer(request, Unlines([ReferenceLine(other)] + [ReferenceLine(reference), "OK"]), decoder)
      == SendResult(other)
  {
    var stale, line := ReferenceLine(other), ReferenceLine(reference);
    var lines := [stale] + [line, "OK"];
    ReferenceLineShape(other);
    SuccessConcludes(reference);
    ReplyLinesAreOneLiners(lines);
    assert lines == [stale, line] + ["OK"] && lines == [stale] + ([line] + ["OK"]);
    AnswerOfLines(request, [stale, line], "OK", decoder);
    ReferenceNumber(other, [line] + ["OK"]);
  }

  // --- a header left over whose payload is due ---

  /** While no command is held, lines and whole notices answer and lose nothing. */
  lemma {:induction false} PlainIdle(m: Machine, blocks: seq<Block>, decoder: Decoder, gone: set<nat>)
    requires m.state == Idle && AllWellFormed(blocks)
    ensures HandleLines(m, Stream(Erased(blocks)), decoder, gone) == m
    decreases |blocks|
  {
    if blocks != [] {
      var b, more := blocks[0], blocks[1..];
      PlainIdle(m, more, decoder, gone);
      if b.Plain? {
        assert b in blocks;
        StreamCons(b, Erased(more));
        OneLine(m, b.event, decoder, gone);
        HandleLinesConcat(m, [b.event], Stream(Erased(more)), decoder, gone);
      } else {
        assert Erased(blocks) == Erased(more);
      }
    }
  }

  predicate Quiescent(m: Machine, n: Machine) {
    n.state == Idle && n.replies == m.replies && n.dropped == m.dropped && Writes(n.queue) == Writes(m.queue)
  }

  lemma BlocksIdle(m: Machine, blocks: seq<Block>, decoder: Decoder, gone: set<nat>)
    requires m.state == Idle && AllWellFormed(blocks)
    ensures Quiescent(m, HandleLines(m, Stream(blocks), decoder, gone))
  {
    PlainIdle(m, blocks, decoder, gone);
    NonInterference(m, blocks, decoder, gone);
  }

  /** A prompt or a notice, which no payload line is. */
  predicate NoPayload(b: Block) {
    Interleaving.WellFormed(b) && (b.Plain? ==> b.event.Prompt?)
  }

  /** What is left of a block behind its first line. */
  function Remains(b: Block): seq<Block> {
    if b.NotificationWithPayload? then [Plain(Line(b.payload))] else []
  }

  lemma FirstEvent(b: Block, rest: seq<Block>)
    requires NoPayload(b) && AllWellFormed(rest)
    ensures Stream([b] + rest) == [BlockEvents(b)[0]] + Stream(Remains(b) + rest)
    ensures AllWellFormed(Remains(b) + rest)
  {
    StreamCons(b, rest);
    if b.NotificationWithPayload? {
      StreamCons(Plain(Line(b.payload)), rest);
      assert BlockEvents(b) == [Line(b.header)] + [Line(b.payload)];
      Reassociate([Line(b.header)], [Line(b.payload)], Stream(rest));
    } else {
      assert [] + rest == rest;
    }
  }

  /** A header left over interrupts the command at once. */
  lemma StaleHeaderStep(m: Machine, stale: string, decoder: Decoder, gone: set<nat>)
    requires m.state.Command? && AwaitsPayload(stale)
    ensures HandleLines(m, StaleEvents(stale), decoder, gone)
      == m.(state := Unsolicited(FromHeader(Trim(stale)).value, Some(m.state.execution)))
  {
    TrimIdempotent(stale);
    OneLine(m, Line(Trim(stale)), decoder, gone);
  }

  lemma MisplacedDrops(m: Machine, event: LineEvent, decoder: Decoder, gone: set<nat>)
    requires m.state.Unsolicited? && m.state.interrupted.Some? && m.state.interrupted.value.command.open
    requires Misplaced(m.state, event)
    ensures HandleLine(m, event, decoder, gone)
      == m.(state := Idle, dropped := m.dropped + [m.state.interrupted.value.command.channel])
  {
    ErrorPathIdle(m, event, decoder, gone);
  }

  /** What is no payload drops the command, and what comes then finds nothing to answer. */
  lemma NoPayloadDrops(m: Machine, stale: string, b: Block, rest: seq<Block>, decoder: Decoder, gone: set<nat>)
    requires m.state.Command? && m.state.execution.command.open && AwaitsPayload(stale)
    requires NoPayload(b) && AllWellFormed(rest)
    ensures var n := HandleLines(m, StaleEvents(stale) + Stream([b] + rest), decoder, gone);
      Quiescent(m.(dropped := m.dropped + [m.state.execution.command.channel]), n)
  {
    var first := BlockEvents(b)[0];
    var interrupted := HandleLines(m, StaleEvents(stale), decoder, gone);
    StaleHeaderStep(m, stale, decoder, gone);
    FirstEvent(b, rest);
    MisplacedDrops(interrupted, first, decoder, gone);
    OneLine(interrupted, first, decoder, gone);
    HandleLinesConcat(m, StaleEvents(stale), Stream([b] + rest), decoder, gone);
    HandleLinesConcat(interrupted, [first], Stream(Remains(b) + rest), decoder, gone);
    BlocksIdle(HandleLine(interrupted, first, decoder, gone), Remains(b) + rest, decoder, gone);
  }

  /** Where a stream begins: with its first plain event, or with a notice before that. */
  lemma FirstBlock(blocks: seq<Block>, event: LineEvent, plain: seq<Block>)
    requires AllWellFormed(blocks) && Erased(blocks) == [Plain(event)] + plain
    ensures blocks != [] && blocks == [blocks[0]] + blocks[1..] && AllWellFormed(blocks[1..])
    ensures Interleaving.WellFormed(blocks[0])
    ensures blocks[0].Plain? ==> blocks[0].event == event && Erased(blocks[1..]) == plain
  {
    assert blocks[0] in blocks && forall x :: x in blocks[1..] ==> x in blocks;
    if blocks[0].Plain? {
      assert Erased(blocks)[0] == blocks[0] && Erased(blocks)[1..] == Erased(blocks[1..]);
      assert ([Plain(event)] + plain)[1..] == plain;
    }
  }

  /** Behind a header left over a line is its payload: the two are one message, and the line is not heard. */
  lemma TakenBlocks(stale: string, line: string, more: seq<Block>)
    requires AwaitsPayload(stale) && IsReplyLine(line) && AllWellFormed(more)
    ensures var blocks := [NotificationWithPayload(Trim(stale), line)] + more;
      && AllWellFormed(blocks) && Erased(blocks) == Erased(more)
      && Stream(blocks) == StaleEvents(stale) + Stream([Plain(Line(line))] + more)
  {
    var taken := NotificationWithPayload(Trim(stale), line);
    TrimIdempotent(stale);
    assert ([taken] + more)[1..] == more;
    assert [] + Erased(more) == Erased(more);
    StreamCons(Plain(Line(line)), more);
    StreamCons(taken, more);
    Reassociate([Line(Trim(stale))], [Line(line)], Stream(more));
  }

  lemma DialogueFirst(early: seq<string>, lines: seq<string>)
    ensures Dialogue(early, lines) ==
      if early == [] then [Plain(Prompt(">"))] + LineEvents(lines)
      else [Plain(Line(early[0]))] + Dialogue(early[1..], lines)
  {
    if early == [] {
      assert [] + ([Plain(Prompt(">"))] + LineEvents(lines)) == [Plain(Prompt(">"))] + LineEvents(lines);
    } else {
      Reassociate([Plain(Line(early[0]))], LineEvents(early[1..]), [Plain(Prompt(">"))] + LineEvents(lines));
    }
  }

  /**
   A submission whose transcript follows a header left over: its first early line is not heard, and
   without one, or if a notice comes before it, the submission is lost without a reply.
   */
  lemma SubmissionBehindHeader(m: Machine, buffer: string, stale: string, early: seq<string>, lines: seq<string>,
                               blocks: seq<Block>, pieces: seq<Piece>, rest: string, max: nat, chunks: seq<string>,
                               decoder: Decoder, gone: set<nat>)
    requires JustSubmitted(m) && AwaitsPayload(stale) && AreReplyLines(early) && Concludes(lines)
    requires ReadAs(pieces, blocks) && Erased(blocks) == Dialogue(early, lines)
    requires Delivers(buffer, Concat(chunks), stale, TextOf(pieces), rest) && Untruncated(buffer, max, chunks)
    ensures blocks != []
    ensures var n := HandleLines(m, EventsOfReads(buffer, max, chunks), decoder, gone);
      if early == [] || !blocks[0].Plain? then
        Quiescent(m.(dropped := m.dropped + [m.state.execution.command.channel]), n)
      else Submitted(m, n, early[1..] + lines, decoder, gone)
  {
    FramedReads(buffer, stale, pieces, rest, max, chunks);
    DialogueFirst(early, lines);
    if early == [] {
      FirstBlock(blocks, Prompt(">"), LineEvents(lines));
      NoPayloadDrops(m, stale, blocks[0], blocks[1..], decoder, gone);
    } else {
      FirstBlock(blocks, Line(early[0]), Dialogue(early[1..], lines));
      if blocks[0].Plain? {
        assert early[0] in early;
        TakenBlocks(stale, early[0], blocks[1..]);
        DialogueAmong(m, [NotificationWithPayload(Trim(stale), early[0])] + blocks[1..], early[1..], lines, decoder,
                      gone);
      } else {
        NoPayloadDrops(m, stale, blocks[0], blocks[1..], decoder, gone);
      }
    }
  }
}
