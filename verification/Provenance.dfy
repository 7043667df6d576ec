/** Where a command's response buffer, and the reference in its reply, come from. */
module Provenance {
  import opened Text
  import opened Framing
  import opened Types
  import opened Parsers
  import opened Handlers
  import opened StateMachine
  import opened Interleaving

  /** Whether a payload line is due after `event`. */
  predicate Awaits(event: LineEvent) {
    event.Line? && IsHeader(event.content, true)
  }

  /** The line, if any, that `event` adds to the response of the command being executed. */
  function HeardLine(awaiting: bool, event: LineEvent): seq<string> {
    if awaiting || event.Prompt? || FromHeader(Trim(event.content)).Some? then [] else [Trim(event.content)]
  }

  /** The lines of a stream of events that are neither prompts nor parts of unsolicited messages. */
  function Heard(awaiting: bool, events: seq<LineEvent>): seq<string>
    decreases |events|
  {
    if events == [] then []
    else HeardLine(awaiting, events[0]) + Heard(Awaits(events[0]), events[1..])
  }

  /** Whether a payload line is due after a stream of events. */
  predicate AwaitsAfter(awaiting: bool, events: seq<LineEvent>)
    decreases |events|
  {
    if events == [] then awaiting else AwaitsAfter(Awaits(events[0]), events[1..])
  }

  lemma {:induction false} HeardConcat(awaiting: bool, a: seq<LineEvent>, b: seq<LineEvent>)
    ensures Heard(awaiting, a + b) == Heard(awaiting, a) + Heard(AwaitsAfter(awaiting, a), b)
    ensures AwaitsAfter(awaiting, a + b) == AwaitsAfter(AwaitsAfter(awaiting, a), b)
    decreases |a|
  {
    if a == [] {
      assert a + b == b;
    } else {
      assert (a + b)[1..] == a[1..] + b;
      HeardConcat(Awaits(a[0]), a[1..], b);
      Reassociate(HeardLine(awaiting, a[0]), Heard(Awaits(a[0]), a[1..]), Heard(AwaitsAfter(awaiting, a), b));
    }
  }

  /** Neither answered nor dropped. */
  predicate Silent(m: Machine, n: Machine) {
    |n.replies| == |m.replies| && |n.dropped| == |m.dropped|
  }

  function ResponseBuffer(m: Machine): string
    requires Held(m.state).Some?
  {
    Held(m.state).value.context.responseBuffer
  }

  /** While the command is neither answered nor dropped a line event adds exactly its heard line. */
  lemma HeardStep(m: Machine, event: LineEvent, decoder: Decoder, gone: set<nat>)
    requires Held(m.state).Some? && Answerable(m.state) && Silent(m, HandleLine(m, event, decoder, gone))
    ensures var n := HandleLine(m, event, decoder, gone);
      && Kept(m, n) && Answerable(n.state) && n.state.Unsolicited? == Awaits(event)
      && ResponseBuffer(n) == ResponseBuffer(m) + Unlines(HeardLine(m.state.Unsolicited?, event))
  {
    LineMoves(m, event, decoder, gone);
    ErrorPathIdle(m, event, decoder, gone);
    var x := Held(m.state).value;
    var b := x.context.responseBuffer;
    assert b + "" == b;
    if event.Line? {
      var line := Trim(event.content);
      UnlinesOne(line);
      assert b + (line + "\n") == b + line + "\n";
      if FromHeader(line).Some? {
        UnsolicitedKeeps(m, FromHeader(line).value, line, decoder);
      } else if m.state.Unsolicited? {
        UnsolicitedKeeps(m, m.state.kind, line, decoder);
      }
    }
  }

  lemma {:induction false} Monotone(m: Machine, events: seq<LineEvent>, decoder: Decoder, gone: set<nat>)
    requires Answerable(m.state)
    ensures var n := HandleLines(m, events, decoder, gone);
      |n.replies| >= |m.replies| && |n.dropped| >= |m.dropped| && Answerable(n.state)
    decreases |events|
  {
    if events != [] {
      LineMoves(m, events[0], decoder, gone);
      Monotone(HandleLine(m, events[0], decoder, gone), events[1..], decoder, gone);
    }
  }

  /**
   As long as a command is neither answered nor dropped its response buffer holds, in order and each
   followed by a newline, exactly the lines received since then that are neither prompts nor parts
   of unsolicited messages; its command and deadline stay, and it is interrupted
   exactly while a payload line is due.
   */
  lemma {:induction false} BufferProvenance(m: Machine, events: seq<LineEvent>, decoder: Decoder, gone: set<nat>)
    requires Held(m.state).Some? && Answerable(m.state)
    requires Silent(m, HandleLines(m, events, decoder, gone))
    ensures var n := HandleLines(m, events, decoder, gone);
      && Kept(m, n) && Answerable(n.state)
      && ResponseBuffer(n) == ResponseBuffer(m) + Unlines(Heard(m.state.Unsolicited?, events))
      && n.state.Unsolicited? == AwaitsAfter(m.state.Unsolicited?, events)
    decreases |events|
  {
    if events == [] {
      assert ResponseBuffer(m) + "" == ResponseBuffer(m);
    } else {
      var n := HandleLine(m, events[0], decoder, gone);
      LineMoves(m, events[0], decoder, gone);
      Monotone(n, events[1..], decoder, gone);
      HeardStep(m, events[0], decoder, gone);
      BufferProvenance(n, events[1..], decoder, gone);
      var a := HeardLine(m.state.Unsolicited?, events[0]);
      var b := Heard(Awaits(events[0]), events[1..]);
      UnlinesConcat(a, b);
      Reassociate(ResponseBuffer(m), Unlines(a), Unlines(b));
    }
  }

  // --- the reference of a submission ---

  lemma {:induction false} HeardAreOneLiners(awaiting: bool, events: seq<LineEvent>)
    requires forall e :: e in events ==> '\n' !in e.content
    ensures OneLiners(Heard(awaiting, events))
    decreases |events|
  {
    if events != [] {
      var a, b := TrimSplit(events[0].content);
      TrimIdempotent(events[0].content);
      HeardAreOneLiners(Awaits(events[0]), events[1..]);
    }
  }

  /** The next reply is this reference. */
  predicate Gives(m: Machine, n: Machine, reference: u8) {
    |n.replies| > |m.replies| && n.replies[|m.replies|].response == SendResult(reference)
  }

  /** A positive reply to a submission carries the number on the first `+CMGS:` line heard. */
  lemma ReplyOfLine(m: Machine, event: LineEvent, decoder: Decoder, gone: set<nat>, reference: u8)
    requires m.state.Command? && Answerable(m.state) && m.state.execution.command.request.SendSMS?
    ensures Gives(m, HandleLine(m, event, decoder, gone), reference) ==>
      && HeardLine(false, event) != []
      && ParseCmgsResult(m.state.execution.context.responseBuffer + Unlines(HeardLine(false, event))) == Ok(reference)
  {
    ErrorPathIdle(m, event, decoder, gone);
    var x := m.state.execution;
    if event.Line? {
      var line := Trim(event.content);
      UnlinesOne(line);
      if FromHeader(line).Some? {
        UnsolicitedKeeps(m, FromHeader(line).value, line, decoder);
      } else {
        var next := Buffered(x, line);
        assert next.context.responseBuffer == x.context.responseBuffer + (line + "\n");
        AnswerSource(x.command.request, next.context.responseBuffer, decoder, reference);
      }
    }
  }

  lemma AnswerSource(request: ModemRequest, response: string, decoder: Decoder, reference: u8)
    requires request.SendSMS?
    ensures Answer(request, response, decoder) == SendResult(reference) ==> ParseCmgsResult(response) == Ok(reference)
  {
  }

  lemma {:induction false} NobodyAnswered(m: Machine, events: seq<LineEvent>, decoder: Decoder, gone: set<nat>)
    requires Held(m.state).None?
    ensures HandleLines(m, events, decoder, gone).replies == m.replies
    decreases |events|
  {
    if events != [] {
      LineMoves(m, events[0], decoder, gone);
      NobodyAnswered(HandleLine(m, events[0], decoder, gone), events[1..], decoder, gone);
    }
  }

  /** The lines heard so far, and the one that `event` adds. */
  lemma HeardText(heard: seq<string>, awaiting: bool, event: LineEvent)
    requires OneLiners(heard) && '\n' !in event.content
    ensures var lines := heard + HeardLine(awaiting, event);
      OneLiners(lines) && Lines(Unlines(lines)) == lines
      && Unlines(lines) == Unlines(heard) + Unlines(HeardLine(awaiting, event))
  {
    UnlinesConcat(heard, HeardLine(awaiting, event));
    var a, b := TrimSplit(event.content);
    TrimIdempotent(event.content);
    LinesOfUnlines(heard + HeardLine(awaiting, event));
  }

  lemma Answering(m: Machine, event: LineEvent, decoder: Decoder, gone: set<nat>)
    requires Held(m.state).Some? && Answerable(m.state)
    requires |HandleLine(m, event, decoder, gone).replies| > |m.replies|
    ensures var n := HandleLine(m, event, decoder, gone);
      && m.state.Command? && |n.replies| == |m.replies| + 1
      && Fits(m.state.execution.command.request, n.replies[|m.replies|].response)
  {
    LineMoves(m, event, decoder, gone);
  }

  /** The event that answers a submission with a reference ends what it has heard. */
  lemma ReferenceHeard(m: Machine, heard: seq<string>, event: LineEvent, decoder: Decoder, gone: set<nat>,
                       reference: u8)
    requires Held(m.state).Some? && Answerable(m.state) && ResponseBuffer(m) == Unlines(heard)
    requires OneLiners(heard) && '\n' !in event.content
    ensures Gives(m, HandleLine(m, event, decoder, gone), reference) ==>
      FirstNumber(heard + HeardLine(m.state.Unsolicited?, event)) == Some(reference)
  {
    if Gives(m, HandleLine(m, event, decoder, gone), reference) {
      Answering(m, event, decoder, gone);
      ReplyOfLine(m, event, decoder, gone, reference);
      HeardText(heard, false, event);
      CmgsIsFirstNumber(heard + HeardLine(false, event));
    }
  }

  /** Without a reply to it the command has heard one line more, if any. */
  lemma ReferenceLater(m: Machine, heard: seq<string>, event: LineEvent, decoder: Decoder, gone: set<nat>)
    requires Held(m.state).Some? && Answerable(m.state) && ResponseBuffer(m) == Unlines(heard)
    requires OneLiners(heard) && '\n' !in event.content
    requires var n := HandleLine(m, event, decoder, gone); |n.replies| <= |m.replies| && Held(n.state).Some?
    ensures var n := HandleLine(m, event, decoder, gone);
      var lines := heard + HeardLine(m.state.Unsolicited?, event);
      && |n.replies| == |m.replies| && Answerable(n.state)
      && n.state.Unsolicited? == Awaits(event) && ResponseBuffer(n) == Unlines(lines) && OneLiners(lines)
  {
    LineMoves(m, event, decoder, gone);
    HeardStep(m, event, decoder, gone);
    HeardText(heard, m.state.Unsolicited?, event);
  }

  lemma HeardMore(heard: seq<string>, awaiting: bool, event: LineEvent, more: seq<LineEvent>)
    ensures heard + Heard(awaiting, [event] + more) == heard + HeardLine(awaiting, event) + Heard(Awaits(event), more)
  {
    assert ([event] + more)[1..] == more;
    Reassociate(heard, HeardLine(awaiting, event), Heard(Awaits(event), more));
  }

  /**
   A submission that is answered `SendResult(reference)` has heard that number on the first line,
   of all that it has heard, that begins with `+CMGS:`.
   */
  lemma {:induction false} ReferenceProvenance(m: Machine, heard: seq<string>, events: seq<LineEvent>,
                                               decoder: Decoder, gone: set<nat>, reference: u8)
    requires Held(m.state).Some? && Answerable(m.state) && ResponseBuffer(m) == Unlines(heard)
    requires OneLiners(heard) && forall e :: e in events ==> '\n' !in e.content
    requires Gives(m, HandleLines(m, events, decoder, gone), reference)
    ensures FirstNumber(heard + Heard(m.state.Unsolicited?, events)) == Some(reference)
    decreases |events|
  {
    var event, more := events[0], events[1..];
    assert event in events;
    assert events == [event] + more;
    HeardMore(heard, m.state.Unsolicited?, event, more);
    var lines := heard + HeardLine(m.state.Unsolicited?, event);
    var n := HandleLine(m, event, decoder, gone);
    LineMoves(m, event, decoder, gone);
    RepliesGrow(n, more, decoder, gone);
    if |n.replies| > |m.replies| {
      ReferenceHeard(m, heard, event, decoder, gone, reference);
      FirstNumberStays(lines, Heard(Awaits(event), more));
    } else {
      if Held(n.state).None? { NobodyAnswered(n, more, decoder, gone); }
      ReferenceLater(m, heard, event, decoder, gone);
      ReferenceProvenance(n, lines, more, decoder, gone, reference);
    }
  }

  /** The scanner's events satisfy what the provenance of a reference asks of them. */
  lemma ScannedEventsAreOneLiners(s: string)
    ensures forall e :: e in Events(s) ==> NoBreak(e.content)
  {
    TokenizeShape(s);
    CuesAreOneLiners(Tokenize(s).tokens);
    AnnounceOneLiners(Cues(Tokenize(s).tokens));
  }

  lemma {:induction false} CuesAreOneLiners(tokens: seq<Token>)
    requires forall t :: t in tokens ==> Framing.WellFormed(t)
    ensures forall c :: c in Cues(tokens) && c.LineCue? ==> NoBreak(c.body)
  {
    if tokens != [] {
      CuesAreOneLiners(tokens[1..]);
      assert Framing.WellFormed(tokens[0]);
    }
  }

  lemma {:induction false} AnnounceOneLiners(cues: seq<Cue>)
    requires forall c :: c in cues && c.LineCue? ==> NoBreak(c.body)
    ensures forall e :: e in Announce(cues) ==> NoBreak(e.content)
  {
    if cues != [] {
      AnnounceOneLiners(cues[1..]);
      if cues[0].LineCue? {
        assert cues[0] in cues;
        TrimNoBreak(cues[0].body);
      }
    }
  }
}
