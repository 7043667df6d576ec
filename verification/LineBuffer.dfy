/** The in-place scanner of src/modem/buffer.rs, proved against the tokenizer. */
module Buffer {
  import opened Text
  import opened Framing
  import opened Chunking

  /** A line's event, if it has one. */
  function LineEvents(body: string): seq<LineEvent> {
    match TryCreateEvent(body)
    case None => []
    case Some(content) => [Line(content)]
  }

  /** `events` and the reading of `tail` make up the reading of `s`. */
  ghost predicate ReadTo(s: string, tail: string, events: seq<LineEvent>) {
    && Announce(AllCues(AtStart, s)) == events + Announce(AllCues(AtStart, tail))
    && Pending(FeedAll(AtStart, s)) == Pending(FeedAll(AtStart, tail))
  }

  lemma ReadLine(s: string, body: string, t: string, events: seq<LineEvent>)
    requires body != "" && IsRemainder(body) && t != "" && IsBreak(t[0])
    requires ReadTo(s, body + t, events)
    ensures ReadTo(s, t, events + LineEvents(body))
  {
    TryCreateEventIsTrim(body);
    FeedBodyToken(body, t);
    AnnounceLine(body, AllCues(AtStart, t));
    Reassociate(events, LineEvents(body), Announce(AllCues(AtStart, t)));
  }

  lemma ReadBreaks(s: string, run: string, t: string, events: seq<LineEvent>)
    requires AllBreaks(run) && ReadTo(s, run + t, events)
    ensures ReadTo(s, t, events)
  {
    FeedBreakToken(run, t);
  }

  lemma ReadPrompt(s: string, spaces: string, t: string, events: seq<LineEvent>)
    requires AllSpaces(spaces) && (t != "" ==> t[0] != ' ')
    requires ReadTo(s, ">" + (spaces + t), events)
    ensures ReadTo(s, t, events + [Prompt(">")])
  {
    FeedPromptToken(spaces, t);
    assert ([PromptCue] + AllCues(AtStart, t))[1..] == AllCues(AtStart, t);
  }

  lemma ReadRemainder(s: string, tail: string, events: seq<LineEvent>)
    requires ReadTo(s, tail, events) && IsRemainder(tail)
    ensures events == Events(s) && tail == Rest(s)
  {
    FeedIsTokenize(s);
    FeedRemainder(tail);
  }

  lemma PromptText(run: string)
    requires run != "" && run[0] == '>' && AllSpaces(run[1..])
    ensures TryCreateEvent(run) == Some(">")
  {
    TryCreateEventIsTrim(run);
    TrimOf("", ">", run[1..]);
    assert run == "" + ">" + run[1..];
  }

  /** The scan stands at `i` in a line that began at `start`. */
  ghost predicate Scanning(s: string, start: nat, i: nat, events: seq<LineEvent>) {
    start <= i <= |s| && IsRemainder(s[start..i]) && ReadTo(s, s[start..], events)
  }

  lemma ScanBegin(s: string)
    ensures Scanning(s, 0, 0, [])
  {
    assert s[0..] == s;
  }

  lemma ScanEnd(s: string, start: nat, i: nat, events: seq<LineEvent>)
    requires i == |s| && Scanning(s, start, i, events)
    ensures events == Events(s) && s[start..] == Rest(s)
  {
    assert s[start..i] == s[start..];
    ReadRemainder(s, s[start..], events);
  }

  /** Behind the first byte of an unfinished line a `>` is no prompt. */
  lemma PromptPosition(s: string, start: nat, i: nat, events: seq<LineEvent>)
    requires Scanning(s, start, i, events)
    ensures start < i ==> !IsBreak(s[i - 1])
  {
    assert start < i ==> s[start..i][i - start - 1] == s[i - 1];
  }

  lemma ScanChar(s: string, start: nat, i: nat, events: seq<LineEvent>)
    requires i < |s| && Scanning(s, start, i, events) && !IsBreak(s[i])
    requires start == i ==> s[i] != '>'
    ensures Scanning(s, start, i + 1, events)
  {
    assert s[start..i + 1] == s[start..i] + [s[i]];
  }

  lemma ScanLine(s: string, start: nat, i: nat, events: seq<LineEvent>)
    requires start < i < |s| && Scanning(s, start, i, events) && IsBreak(s[i])
    ensures Scanning(s, i, i, events + LineEvents(s[start..i]))
  {
    assert s[start..] == s[start..i] + s[i..];
    ReadLine(s, s[start..i], s[i..], events);
  }

  lemma ScanBreaks(s: string, i: nat, j: nat, events: seq<LineEvent>)
    requires i <= j <= |s| && AllBreaks(s[i..j]) && Scanning(s, i, i, events)
    ensures Scanning(s, j, j, events)
  {
    assert s[i..] == s[i..j] + s[j..];
    ReadBreaks(s, s[i..j], s[j..], events);
  }

  lemma ScanPrompt(s: string, i: nat, j: nat, events: seq<LineEvent>)
    requires i < j <= |s| && s[i] == '>' && AllSpaces(s[i + 1..j]) && (j < |s| ==> s[j] != ' ')
    requires Scanning(s, i, i, events)
    ensures Scanning(s, j, j, events + [Prompt(">")])
  {
    assert s[i..] == ">" + (s[i + 1..j] + s[j..]);
    ReadPrompt(s, s[i + 1..j], s[j..], events);
  }

  lemma PromptRunText(s: string, i: nat, j: nat)
    requires i < j <= |s| && s[i] == '>' && AllSpaces(s[i + 1..j])
    ensures TryCreateEvent(s[i..j]) == Some(">")
  {
    assert s[i..j][1..] == s[i + 1..j];
    PromptText(s[i..j]);
  }

  lemma RunGrows(s: string, i: nat, j: nat)
    requires i <= j < |s|
    ensures AllBreaks(s[i..j]) && IsBreak(s[j]) ==> AllBreaks(s[i..j + 1])
    ensures AllSpaces(s[i..j]) && s[j] == ' ' ==> AllSpaces(s[i..j + 1])
  {
    assert s[i..j + 1] == s[i..j] + [s[j]];
  }

  /** The end of the run of line ends at `i`. */
  method SkipBreaks(buffer: string, i: nat) returns (next: nat)
    requires i < |buffer| && IsBreak(buffer[i])
    ensures i < next <= |buffer| && AllBreaks(buffer[i..next])
  {
    next := i + 1;
    while next < |buffer| && IsBreak(buffer[next])
      invariant i < next <= |buffer| && AllBreaks(buffer[i..next])
    {
      RunGrows(buffer, i, next);
      next := next + 1;
    }
  }

  /** The end of the run of spaces at `i`. */
  method SkipSpaces(buffer: string, i: nat) returns (next: nat)
    requires i <= |buffer|
    ensures i <= next <= |buffer| && AllSpaces(buffer[i..next]) && (next < |buffer| ==> buffer[next] != ' ')
  {
    next := i;
    while next < |buffer| && buffer[next] == ' '
      invariant i <= next <= |buffer| && AllSpaces(buffer[i..next])
    {
      RunGrows(buffer, i, next);
      next := next + 1;
    }
  }

  /** A line end at `i`: announces the line, then skips the line ends. */
  method EndLine(buffer: string, start: nat, i: nat, events: seq<LineEvent>)
    returns (events': seq<LineEvent>, next: nat)
    requires i < |buffer| && IsBreak(buffer[i]) && Scanning(buffer, start, i, events)
    ensures i < next <= |buffer| && Scanning(buffer, next, next, events')
  {
    events' := events;
    if i > start {
      ScanLine(buffer, start, i, events);
      events' := events + LineEvents(buffer[start..i]);
    }
    next := SkipBreaks(buffer, i);
    ScanBreaks(buffer, i, next, events');
  }

  /** A prompt at `i`: consumes it with the spaces behind it, and announces it. */
  method TakePrompt(buffer: string, i: nat, events: seq<LineEvent>)
    returns (events': seq<LineEvent>, next: nat)
    requires i < |buffer| && buffer[i] == '>' && Scanning(buffer, i, i, events)
    ensures i < next <= |buffer| && Scanning(buffer, next, next, events')
  {
    next := SkipSpaces(buffer, i + 1);
    ScanPrompt(buffer, i, next, events);
    PromptRunText(buffer, i, next);
    var promptEvent := TryCreateEvent(buffer[i..next]);
    events' := if promptEvent.Some? then events + [Prompt(promptEvent.value)] else events;
  }

  /** The scan of `process_data`: its events, and where the unfinished line begins. */
  method Scan(buffer: string) returns (events: seq<LineEvent>, start: nat)
    ensures events == Events(buffer)
    ensures start <= |buffer| && buffer[start..] == Rest(buffer)
  {
    events := [];
    start := 0;
    var i := 0;
    ScanBegin(buffer);
    while i < |buffer|
      invariant start <= i <= |buffer| && Scanning(buffer, start, i, events)
    {
      if IsBreak(buffer[i]) {
        events, i := EndLine(buffer, start, i, events);
        start := i;
      } else if buffer[i] == '>' {
        PromptPosition(buffer, start, i, events);
        // A `>` counts where a line can begin.
        var isPrompt := start == i || (i > 0 && (buffer[i - 1] == '\n' || buffer[i - 1] == '\r'));
        if isPrompt {
          events, i := TakePrompt(buffer, i, events);
          start := i;
        } else {
          ScanChar(buffer, start, i, events);
          i := i + 1;
        }
      } else {
        ScanChar(buffer, start, i, events);
        i := i + 1;
      }
    }
    ScanEnd(buffer, start, i, events);
  }

  /** How much of an over-long buffer goes: up to the last newline before the limit, if any. */
  method TrimPoint(buffer: string, max: nat) returns (trimTo: nat)
    requires |buffer| > max
    ensures trimTo <= |buffer|
    ensures '\n' !in buffer[..|buffer| - max] ==> buffer[trimTo..] == Keep(buffer, max)
    ensures '\n' in buffer[..|buffer| - max] ==>
      0 < trimTo <= |buffer| - max && buffer[trimTo - 1] == '\n' && '\n' !in buffer[trimTo..|buffer| - max]
  {
    var keepFrom := |buffer| - max;
    var pos := keepFrom;
    while pos > 0 && buffer[pos - 1] != '\n'
      invariant 0 <= pos <= keepFrom
      invariant '\n' !in buffer[pos..keepFrom]
    {
      pos := pos - 1;
    }
    trimTo := if pos == 0 then keepFrom else pos;
  }

  class LineBuffer {
    var buffer: string
    const maxBufferSize: nat

    /** What every call leaves: at most `maxBufferSize` bytes of one unfinished line. */
    ghost predicate Valid()
      reads this
    {
      NoBreak(buffer) && |buffer| <= maxBufferSize
    }

    constructor WithMaxSize(size: nat)
      ensures Valid() && buffer == "" && maxBufferSize == size
    {
      buffer := "";
      maxBufferSize := size;
    }

    method Clear()
      modifies this
      ensures Valid() && buffer == ""
    {
      buffer := "";
    }

    method ProcessData(data: string) returns (events: seq<LineEvent>)
      modifies this
      ensures events == Events(old(buffer) + data)
      ensures buffer == Keep(Rest(old(buffer) + data), maxBufferSize)
      ensures Valid()
      ensures |Rest(old(buffer) + data)| <= maxBufferSize ==> IsRemainder(buffer)
    {
      buffer := buffer + data;
      var start;
      events, start := Scan(buffer);
      TokenizeShape(buffer);
      // What is left is one unfinished line.
      buffer := buffer[start..];
      if |buffer| > maxBufferSize {
        var trimTo := TrimPoint(buffer, maxBufferSize);
        buffer := buffer[trimTo..];
      }
    }
  }
}
