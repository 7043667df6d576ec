/**
 How the way the serial port slices its byte stream into reads shows, or does not show, in the
 events. The line buffer keeps only the text after the last complete event, so it forgets that
 a read ended inside a prompt run; everything here turns on that.
 */
module Chunking {
  import opened Text
  import opened Framing

  // --- one boundary ---

  lemma {:induction false} LastByteMode(s: string)
    ensures s == "" ==> FeedAll(AtStart, s) == AtStart
    ensures s != "" ==> (FeedAll(AtStart, s) == AtStart <==> IsBreak(s[|s| - 1]))
    ensures FeedAll(AtStart, s).InBody? ==> FeedAll(AtStart, s).text != ""
  {
    if s != "" {
      var a := s[..|s| - 1];
      assert s == a + [s[|s| - 1]];
      FeedConcat(AtStart, a, [s[|s| - 1]]);
    }
  }

  /** The scan of `s` stops inside a prompt run: nothing is kept, and `s` has no line end last. */
  predicate EndsInPrompt(s: string) {
    s != "" && Rest(s) == "" && !IsBreak(s[|s| - 1])
  }

  lemma EndsInPromptMode(s: string)
    ensures EndsInPrompt(s) <==> FeedAll(AtStart, s).AfterPrompt?
  {
    LastByteMode(s);
    FeedIsTokenize(s);
  }

  /** Scanning the kept text again brings the reader back, unless it was inside a prompt run. */
  lemma Resume(s: string)
    ensures FeedAll(AtStart, Rest(s)) == if EndsInPrompt(s) then AtStart else FeedAll(AtStart, s)
    ensures AllCues(AtStart, Rest(s)) == []
  {
    TokenizeShape(s);
    FeedIsTokenize(s);
    FeedRemainder(Rest(s));
    LastByteMode(s);
    EndsInPromptMode(s);
  }

  /** What reading `b` adds after `s` has been read, in one piece or in two. */
  lemma Boundary(s: string, b: string)
    ensures Events(s + b) == Events(s) + Announce(AllCues(FeedAll(AtStart, s), b))
    ensures Rest(s + b) == Pending(FeedAll(FeedAll(AtStart, s), b))
    ensures var m := if EndsInPrompt(s) then AtStart else FeedAll(AtStart, s);
      Events(Rest(s) + b) == Announce(AllCues(m, b)) && Rest(Rest(s) + b) == Pending(FeedAll(m, b))
  {
    FeedIsTokenize(s);
    FeedIsTokenize(s + b);
    FeedConcat(AtStart, s, b);
    AnnounceConcat(AllCues(AtStart, s), AllCues(FeedAll(AtStart, s), b));
    Resume(s);
    FeedIsTokenize(Rest(s) + b);
    FeedConcat(AtStart, Rest(s), b);
    assert [] + AllCues(FeedAll(AtStart, Rest(s)), b) == AllCues(FeedAll(AtStart, Rest(s)), b);
  }

  /** A read that begins with a space which belongs to the prompt run of the read before. */
  predicate CutsPromptRun(s: string, b: string) {
    EndsInPrompt(s) && b != "" && b[0] == ' '
  }

  /** The cut leaves a trace: the rest of the line is still open, or is itself a prompt. */
  predicate CutShows(b: string) {
    NoBreak(b) || (SpaceRun(b) < |b| && b[SpaceRun(b)] == '>')
  }

  lemma AnnounceLine(body: string, rest: seq<Cue>)
    ensures Announce([LineCue(body)] + rest) ==
      (if Trim(body) == "" then [] else [Line(Trim(body))]) + Announce(rest)
  {
    assert ([LineCue(body)] + rest)[1..] == rest;
  }

  /** A read `sp + c`, `sp` its leading spaces, after a prompt run that is still known ... */
  lemma SpacesAfterPrompt(spaced: bool, sp: string, c: string)
    requires AllSpaces(sp) && (c != "" ==> c[0] != ' ')
    ensures AllCues(AfterPrompt(spaced), sp + c) == AllCues(AtStart, c)
    ensures Pending(FeedAll(AfterPrompt(spaced), sp + c)) == Pending(FeedAll(AtStart, c))
  {
    FeedConcat(AfterPrompt(spaced), sp, c);
    FeedSpaces(spaced, sp);
    FeedNonSpace(spaced || sp != "", c);
  }

  /** ... and the same read after a prompt run that has been forgotten. */
  lemma SpacesAtStart(sp: string, x: string, t: string)
    requires sp != "" && AllSpaces(sp) && NoBreak(x)
    requires t != "" && IsBreak(t[0])
    ensures AllCues(AtStart, sp + x + t) == [LineCue(sp + x)] + AllCues(AtStart, t)
    ensures FeedAll(AtStart, sp + x + t) == FeedAll(AtStart, t)
  {
    assert (sp + x)[0] == ' ';
    FeedBodyToken(sp + x, t);
  }

  /** When the line after the forgotten spaces ends in this read and is no prompt, nothing shows. */
  lemma HiddenCut(spaced: bool, sp: string, x: string, t: string)
    requires sp != "" && AllSpaces(sp) && IsRemainder(x) && (x != "" ==> x[0] != ' ')
    requires t != "" && IsBreak(t[0])
    ensures Announce(AllCues(AfterPrompt(spaced), sp + x + t)) == Announce(AllCues(AtStart, sp + x + t))
    ensures Pending(FeedAll(AfterPrompt(spaced), sp + x + t)) == Pending(FeedAll(AtStart, sp + x + t))
  {
    assert sp + x + t == sp + (x + t);
    SpacesAfterPrompt(spaced, sp, x + t);
    SpacesAtStart(sp, x, t);
    TrimLeadingWhite(sp, x);
    AnnounceLine(sp + x, AllCues(AtStart, t));
    if x == "" {
      assert x + t == t;
      TrimBlank(x);
    } else {
      FeedBodyToken(x, t);
      AnnounceLine(x, AllCues(AtStart, t));
    }
  }

  predicate BeginsWithPrompt(events: seq<LineEvent>) {
    events != [] && events[0].Prompt?
  }

  lemma MissedClosedPrompt(sp: string, x: string, t: string)
    requires sp != "" && AllSpaces(sp) && NoBreak(x) && x != "" && x[0] == '>'
    requires t != "" && IsBreak(t[0])
    ensures !BeginsWithPrompt(Announce(AllCues(AtStart, sp + x + t)))
  {
    SpacesAtStart(sp, x, t);
    AnnounceLine(sp + x, AllCues(AtStart, t));
    TrimLeadingWhite(sp, x);
    TrimBlank(x);
    assert !IsWhite(x[0]);
  }

  lemma MissedOpenPrompt(b: string)
    requires NoBreak(b) && (b != "" ==> b[0] != '>')
    ensures !BeginsWithPrompt(Announce(AllCues(AtStart, b)))
  {
    FeedRemainder(b);
  }

  lemma SeenPrompt(spaced: bool, sp: string, c: string)
    requires AllSpaces(sp) && c != "" && c[0] == '>'
    ensures BeginsWithPrompt(Announce(AllCues(AfterPrompt(spaced), sp + c)))
  {
    SpacesAfterPrompt(spaced, sp, c);
    assert AllCues(AtStart, c)[0] == PromptCue;
  }

  /** When it is a prompt, the forgetful reader misses it. */
  lemma MissedPrompt(sp: string, c: string)
    requires sp != "" && AllSpaces(sp) && c != "" && c[0] == '>'
    ensures !BeginsWithPrompt(Announce(AllCues(AtStart, sp + c)))
  {
    var n := BodyRun(c);
    var x, t := c[..n], c[n..];
    assert c == x + t;
    assert sp + x + t == sp + c;
    if t == "" {
      MissedOpenPrompt(sp + c);
    } else {
      MissedClosedPrompt(sp, x, t);
    }
  }

  lemma PendingShorter(s: string)
    ensures |Pending(FeedAll(AtStart, s))| <= |s|
  {
    FeedIsTokenize(s);
    TokenizeLossless(s);
  }

  /** The first line of `c`, when it ends and is no prompt. */
  lemma FirstBody(sp: string, c: string) returns (x: string, t: string)
    requires AllSpaces(sp) && !NoBreak(sp + c) && c != "" && c[0] != '>'
    ensures IsRemainder(x) && (x != "" ==> x[0] == c[0])
    ensures t != "" && IsBreak(t[0]) && sp + x + t == sp + c
  {
    var k := BodyRun(c);
    assert k < |c|;
    x, t := c[..k], c[k..];
    assert sp + x + t == sp + c;
  }

  /** The same when the line after the spaces ends and is no prompt. */
  lemma HiddenCutIn(spaced: bool, sp: string, c: string)
    requires sp != "" && AllSpaces(sp) && !NoBreak(sp + c) && c != "" && c[0] != ' ' && c[0] != '>'
    ensures Announce(AllCues(AfterPrompt(spaced), sp + c)) == Announce(AllCues(AtStart, sp + c))
    ensures Pending(FeedAll(AfterPrompt(spaced), sp + c)) == Pending(FeedAll(AtStart, sp + c))
  {
    var x, t := FirstBody(sp, c);
    HiddenCut(spaced, sp, x, t);
  }

  /** A forgotten prompt run changes what a read beginning with a space gives exactly if it shows. */
  lemma ForgottenPrompt(spaced: bool, b: string)
    requires b != "" && b[0] == ' '
    ensures (Announce(AllCues(AfterPrompt(spaced), b)) == Announce(AllCues(AtStart, b))
             && Pending(FeedAll(AfterPrompt(spaced), b)) == Pending(FeedAll(AtStart, b)))
      <==> !CutShows(b)
  {
    var n := SpaceRun(b);
    var sp, c := b[..n], b[n..];
    assert b == sp + c && n > 0;
    if c != "" && c[0] == '>' {
      SeenPrompt(spaced, sp, c);
      MissedPrompt(sp, c);
    } else if NoBreak(b) {
      SpacesAfterPrompt(spaced, sp, c);
      FeedRemainder(b);
      PendingShorter(c);
    } else {
      HiddenCutIn(spaced, sp, c);
    }
  }

  /**
   Reading `s` and then `b` gives the events and the kept text of reading `s + b`, except
   exactly when `b` begins with a space of the prompt run that ends `s` and either leaves that
   line open or puts another prompt after the spaces.
   */
  lemma TwoReads(s: string, b: string)
    ensures (Events(s) + Events(Rest(s) + b) == Events(s + b) && Rest(Rest(s) + b) == Rest(s + b))
      <==> !(CutsPromptRun(s, b) && CutShows(b))
  {
    Boundary(s, b);
    EndsInPromptMode(s);
    AppendCancel(Events(s), Events(Rest(s) + b), Announce(AllCues(FeedAll(AtStart, s), b)));
    if EndsInPrompt(s) {
      var spaced := FeedAll(AtStart, s).spaced;
      if b != "" && b[0] == ' ' {
        ForgottenPrompt(spaced, b);
      } else {
        FeedNonSpace(spaced, b);
      }
    }
  }

  // --- any number of boundaries ---

  /** `process_data`'s retention: the last `max` bytes. */
  function Keep(s: string, max: nat): (k: string)
    ensures |k| <= max
  {
    if |s| > max then s[|s| - max..] else s
  }

  /** The buffer after reading the chunks one after the other. */
  function BufferAfter(buffer: string, max: nat, chunks: seq<string>): string
    decreases |chunks|
  {
    if chunks == [] then buffer
    else BufferAfter(Keep(Rest(buffer + chunks[0]), max), max, chunks[1..])
  }

  /** All events given by reading the chunks one after the other. */
  function EventsOfReads(buffer: string, max: nat, chunks: seq<string>): seq<LineEvent>
    decreases |chunks|
  {
    if chunks == [] then []
    else Events(buffer + chunks[0]) + EventsOfReads(Keep(Rest(buffer + chunks[0]), max), max, chunks[1..])
  }

  /** One read after others. */
  lemma {:induction false} ReadAfter(buffer: string, max: nat, chunks: seq<string>, last: string)
    ensures var pending := BufferAfter(buffer, max, chunks);
      && EventsOfReads(buffer, max, chunks + [last]) == EventsOfReads(buffer, max, chunks) + Events(pending + last)
      && BufferAfter(buffer, max, chunks + [last]) == Keep(Rest(pending + last), max)
    decreases |chunks|
  {
    if chunks == [] {
      assert ([] + [last])[1..] == [];
    } else {
      assert (chunks + [last])[1..] == chunks[1..] + [last];
      var next := Keep(Rest(buffer + chunks[0]), max);
      ReadAfter(next, max, chunks[1..], last);
      Reassociate(Events(buffer + chunks[0]), EventsOfReads(next, max, chunks[1..]),
                  Events(BufferAfter(next, max, chunks[1..]) + last));
    }
  }

  lemma {:induction false} ConcatAfter(chunks: seq<string>, last: string)
    ensures Concat(chunks + [last]) == Concat(chunks) + last
  {
    if chunks == [] {
      assert [] + [last] == [last];
    } else {
      assert (chunks + [last])[1..] == chunks[1..] + [last];
      ConcatAfter(chunks[1..], last);
      Reassociate(chunks[0], Concat(chunks[1..]), last);
    }
  }

  /** What a read holds beyond a line end is read as if it came alone. */
  lemma ReadBeyond(s: string, extra: string)
    requires s != "" && IsBreak(s[|s| - 1])
    ensures Events(s + extra) == Events(s) + Events(extra)
  {
    LastByteMode(s);
    Boundary(s, extra);
    FeedIsTokenize(extra);
  }

  function Concat(chunks: seq<string>): string {
    if chunks == [] then "" else chunks[0] + Concat(chunks[1..])
  }

  /** No read leaves more than the buffer may keep. */
  predicate Untruncated(buffer: string, max: nat, chunks: seq<string>)
    decreases |chunks|
  {
    chunks == [] ||
    (|Rest(buffer + chunks[0])| <= max && Untruncated(Rest(buffer + chunks[0]), max, chunks[1..]))
  }

  /** A buffer as large as the stream never truncates. */
  lemma {:induction false} SmallStreamUntruncated(buffer: string, max: nat, chunks: seq<string>)
    requires |buffer| + |Concat(chunks)| <= max
    ensures Untruncated(buffer, max, chunks)
    decreases |chunks|
  {
    if chunks != [] {
      TokenizeLossless(buffer + chunks[0]);
      SmallStreamUntruncated(Rest(buffer + chunks[0]), max, chunks[1..]);
    }
  }

  /** No boundary between the chunks cuts a prompt run where it shows. */
  predicate FineCuts(buffer: string, chunks: seq<string>)
    decreases |chunks|
  {
    chunks == [] ||
    var s, later := buffer + chunks[0], Concat(chunks[1..]);
    !(CutsPromptRun(s, later) && CutShows(later)) && FineCuts(Rest(s), chunks[1..])
  }

  lemma FineRead(buffer: string, x: string, later: string)
    requires !(CutsPromptRun(buffer + x, later) && CutShows(later))
    ensures Events(buffer + x) + Events(Rest(buffer + x) + later) == Events(buffer + (x + later))
    ensures Rest(Rest(buffer + x) + later) == Rest(buffer + (x + later))
  {
    TwoReads(buffer + x, later);
    assert buffer + x + later == buffer + (x + later);
  }

  /** Cut so, a stream read in any number of pieces gives the events and the kept text of the whole. */
  lemma {:induction false} ReadsWithFineCuts(buffer: string, max: nat, chunks: seq<string>)
    requires IsRemainder(buffer) && Untruncated(buffer, max, chunks) && FineCuts(buffer, chunks)
    ensures EventsOfReads(buffer, max, chunks) == Events(buffer + Concat(chunks))
    ensures BufferAfter(buffer, max, chunks) == Rest(buffer + Concat(chunks))
    decreases |chunks|
  {
    if chunks != [] {
      TokenizeShape(buffer + chunks[0]);
      FineRead(buffer, chunks[0], Concat(chunks[1..]));
      ReadsWithFineCuts(Rest(buffer + chunks[0]), max, chunks[1..]);
    }
  }

  /** In `s`, read from `mode`, no prompt run with spaces is directly followed by a prompt. */
  predicate Clean(mode: Mode, s: string)
    decreases |s|
  {
    s == "" || (!(mode == AfterPrompt(true) && s[0] == '>') && Clean(Feed(mode, s[0]), s[1..]))
  }

  lemma {:induction false} CleanConcat(mode: Mode, a: string, b: string)
    ensures Clean(mode, a + b) <==> Clean(mode, a) && Clean(FeedAll(mode, a), b)
    decreases |a|
  {
    if a == "" {
      assert a + b == b;
    } else {
      assert (a + b)[1..] == a[1..] + b;
      CleanConcat(Feed(mode, a[0]), a[1..], b);
    }
  }

  /** `buffer` is `rest` with nothing but spaces before it. */
  predicate SpacesThen(buffer: string, rest: string) {
    exists n :: 0 <= n <= |buffer| && AllSpaces(buffer[..n]) && buffer[n..] == rest
  }

  /** `chunked` holds spaces that `whole` has counted to a prompt run. */
  predicate Lags(whole: Mode, chunked: Mode) {
    (whole == AfterPrompt(true) || whole.InBody?) && chunked.InBody? && SpacesThen(chunked.text, Pending(whole))
  }

  /** `chunked` may have forgotten prompt runs on the way to where `whole` is. */
  predicate Trails(whole: Mode, chunked: Mode) {
    whole == chunked || (whole.AfterPrompt? && chunked.AtStart?) || Lags(whole, chunked)
  }

  lemma SpacesThenTrim(buffer: string, rest: string)
    requires SpacesThen(buffer, rest)
    ensures Trim(buffer) == Trim(rest)
  {
    var n :| 0 <= n <= |buffer| && AllSpaces(buffer[..n]) && buffer[n..] == rest;
    assert buffer == buffer[..n] + rest;
    TrimLeadingWhite(buffer[..n], rest);
  }

  lemma SpacesThenGrow(buffer: string, rest: string, c: char)
    requires SpacesThen(buffer, rest)
    ensures SpacesThen(buffer + [c], rest + [c])
    ensures rest == "" && c == ' ' ==> SpacesThen(buffer + [c], "")
  {
    var n :| 0 <= n <= |buffer| && AllSpaces(buffer[..n]) && buffer[n..] == rest;
    var grown := buffer + [c];
    assert grown[..n] == buffer[..n] && grown[n..] == rest + [c];
    if rest == "" && c == ' ' {
      assert AllSpaces(grown[..n + 1]) && grown[n + 1..] == "";
    }
  }

  lemma TrailsStep(whole: Mode, chunked: Mode, c: char)
    requires Trails(whole, chunked) && !(whole == AfterPrompt(true) && c == '>')
    ensures Trails(Feed(whole, c), Feed(chunked, c))
    ensures Announce(FeedCues(whole, c)) == Announce(FeedCues(chunked, c))
  {
    if Lags(whole, chunked) {
      if IsBreak(c) {
        SpacesThenTrim(chunked.text, Pending(whole));
        TrimBlank("");
      } else {
        SpacesThenGrow(chunked.text, Pending(whole), c);
        assert "" + [c] == [c];
      }
    } else if c == ' ' && whole.AfterPrompt? && chunked.AtStart? {
      assert AllSpaces([c][..1]) && [c][1..] == "";
    }
  }

  lemma {:induction false} TrailsAll(whole: Mode, chunked: Mode, s: string)
    requires Trails(whole, chunked) && Clean(whole, s)
    ensures Trails(FeedAll(whole, s), FeedAll(chunked, s))
    ensures Announce(AllCues(whole, s)) == Announce(AllCues(chunked, s))
    decreases |s|
  {
    if s != "" {
      var w, c := Feed(whole, s[0]), Feed(chunked, s[0]);
      TrailsStep(whole, chunked, s[0]);
      TrailsAll(w, c, s[1..]);
      AnnounceConcat(FeedCues(whole, s[0]), AllCues(w, s[1..]));
      AnnounceConcat(FeedCues(chunked, s[0]), AllCues(c, s[1..]));
    }
  }

  lemma TrailsPending(whole: Mode, chunked: Mode)
    requires Trails(whole, chunked)
    ensures SpacesThen(Pending(chunked), Pending(whole))
  {
    if !Lags(whole, chunked) {
      var b := Pending(chunked);
      assert AllSpaces(b[..0]) && b[0..] == Pending(whole);
    }
  }

  /** The mode in which the next read finds the scanner. */
  function Settle(mode: Mode): Mode {
    if mode.AfterPrompt? then AtStart else mode
  }

  lemma ReadOne(chunked: Mode, x: string)
    requires FeedAll(AtStart, Pending(chunked)) == chunked && AllCues(AtStart, Pending(chunked)) == []
    ensures Events(Pending(chunked) + x) == Announce(AllCues(chunked, x))
    ensures var next := Settle(FeedAll(chunked, x));
      Rest(Pending(chunked) + x) == Pending(next) &&
      FeedAll(AtStart, Pending(next)) == next && AllCues(AtStart, Pending(next)) == []
  {
    var s := Pending(chunked) + x;
    FeedConcat(AtStart, Pending(chunked), x);
    FeedIsTokenize(s);
    assert [] + AllCues(chunked, x) == AllCues(chunked, x);
    Resume(s);
    EndsInPromptMode(s);
  }

  lemma {:induction false} CleanReads(whole: Mode, chunked: Mode, max: nat, chunks: seq<string>)
    requires Trails(whole, chunked) && Clean(whole, Concat(chunks))
    requires FeedAll(AtStart, Pending(chunked)) == chunked && AllCues(AtStart, Pending(chunked)) == []
    requires Untruncated(Pending(chunked), max, chunks)
    ensures EventsOfReads(Pending(chunked), max, chunks) == Announce(AllCues(whole, Concat(chunks)))
    ensures SpacesThen(BufferAfter(Pending(chunked), max, chunks), Pending(FeedAll(whole, Concat(chunks))))
    decreases |chunks|
  {
    if chunks == [] {
      TrailsPending(whole, chunked);
    } else {
      var x, more := chunks[0], chunks[1..];
      var next := Settle(FeedAll(chunked, x));
      ReadOne(chunked, x);
      CleanConcat(whole, x, Concat(more));
      TrailsAll(whole, chunked, x);
      CleanReads(FeedAll(whole, x), next, max, more);
      FeedConcat(whole, x, Concat(more));
      AnnounceConcat(AllCues(whole, x), AllCues(FeedAll(whole, x), Concat(more)));
    }
  }

  /** Reading a clean stream in any pieces gives the events of reading it whole. */
  lemma AnyReads(buffer: string, max: nat, chunks: seq<string>)
    requires IsRemainder(buffer) && Untruncated(buffer, max, chunks)
    requires Clean(AtStart, buffer + Concat(chunks))
    ensures EventsOfReads(buffer, max, chunks) == Events(buffer + Concat(chunks))
    ensures SpacesThen(BufferAfter(buffer, max, chunks), Rest(buffer + Concat(chunks)))
  {
    var data := Concat(chunks);
    FeedRemainder(buffer);
    var mode := FeedAll(AtStart, buffer);
    CleanConcat(AtStart, buffer, data);
    CleanReads(mode, mode, max, chunks);
    FeedConcat(AtStart, buffer, data);
    FeedIsTokenize(buffer + data);
    assert [] + AllCues(mode, data) == AllCues(mode, data);
  }

  predicate PromptAfterSpaces(b: string) {
    b != "" && b[0] == ' ' && SpaceRun(b) < |b| && b[SpaceRun(b)] == '>'
  }

  lemma CleanAfterSpaces(sp: string, c: string)
    requires AllSpaces(sp) && sp != "" && !Clean(AfterPrompt(false), sp + c)
    ensures FeedAll(AfterPrompt(false), sp) == AfterPrompt(true)
    ensures !Clean(AfterPrompt(true), c)
  {
    FeedSpaces(false, sp);
    CleanSpaces(false, sp);
    CleanConcat(AfterPrompt(false), sp, c);
  }

  /** A stream that is not clean has a place, right after a `>`, where a cut shows. */
  lemma {:induction false} DirtyCut(mode: Mode, s: string) returns (a: string, b: string)
    requires !Clean(mode, s) && mode != AfterPrompt(true)
    ensures s == a + b && FeedAll(mode, a) == AfterPrompt(false)
    ensures PromptAfterSpaces(b)
    decreases |s|
  {
    if mode == AfterPrompt(false) && s[0] == ' ' {
      var n := SpaceRun(s);
      assert n > 0;
      assert s == s[..n] + s[n..];
      CleanAfterSpaces(s[..n], s[n..]);
      if s[n] == '>' {
        return "", s;
      }
      var next := Feed(AfterPrompt(true), s[n]);
      a, b := DirtyCut(next, s[n..][1..]);
      FeedConcat(mode, s[..n], [s[n]] + a);
      a := s[..n] + ([s[n]] + a);
    } else {
      a, b := DirtyCut(Feed(mode, s[0]), s[1..]);
      a := [s[0]] + a;
    }
  }

  lemma {:induction false} CleanSpaces(spaced: bool, sp: string)
    requires AllSpaces(sp)
    ensures Clean(AfterPrompt(spaced), sp)
    decreases |sp|
  {
    if sp != "" { CleanSpaces(true, sp[1..]); }
  }

  lemma CleanRemainder(s: string)
    requires IsRemainder(s)
    ensures Clean(AtStart, s)
  {
    if s != "" { CleanBody([s[0]], s[1..]); }
  }

  lemma {:induction false} CleanBody(text: string, s: string)
    requires NoBreak(s)
    ensures Clean(InBody(text), s)
    decreases |s|
  {
    if s != "" { CleanBody(text + [s[0]], s[1..]); }
  }

  lemma MissedPromptIn(spaced: bool, b: string)
    requires PromptAfterSpaces(b)
    ensures Announce(AllCues(AfterPrompt(spaced), b)) != Events(b)
  {
    var n := SpaceRun(b);
    assert b == b[..n] + b[n..];
    SeenPrompt(spaced, b[..n], b[n..]);
    MissedPrompt(b[..n], b[n..]);
    FeedIsTokenize(b);
  }

  lemma ShowEvents(s: string, b: string)
    requires EndsInPrompt(s) && PromptAfterSpaces(b)
    ensures Events(s) + Events(b) != Events(s + b)
  {
    EndsInPromptMode(s);
    MissedPromptIn(FeedAll(AtStart, s).spaced, b);
    Boundary(s, b);
    AppendCancel(Events(s), Events(b), Announce(AllCues(FeedAll(AtStart, s), b)));
  }

  lemma ConcatTwo(a: string, b: string)
    ensures Concat([a, b]) == a + b
  {
    assert [a, b][1..] == [b] && [b][1..] == [];
    assert Concat([b]) == b + "";
  }

  lemma EventsOfOneRead(buffer: string, max: nat, b: string)
    ensures EventsOfReads(buffer, max, [b]) == Events(buffer + b)
  {
    assert [b][1..] == [];
  }

  lemma EventsOfTwoReads(buffer: string, max: nat, a: string, b: string)
    requires |Rest(buffer + a)| <= max
    ensures EventsOfReads(buffer, max, [a, b]) == Events(buffer + a) + Events(Rest(buffer + a) + b)
  {
    assert [a, b][1..] == [b];
    EventsOfOneRead(Rest(buffer + a), max, b);
  }

  lemma EventsOfTwoForgetfulReads(buffer: string, max: nat, a: string, b: string)
    requires Rest(buffer + a) == ""
    ensures EventsOfReads(buffer, max, [a, b]) == Events(buffer + a) + Events(b)
  {
    EventsOfTwoReads(buffer, max, a, b);
    assert "" + b == b;
  }

  lemma DirtyReadsAt(buffer: string, max: nat, a: string, b: string)
    requires FeedAll(AtStart, buffer + a) == AfterPrompt(false) && PromptAfterSpaces(b)
    ensures EventsOfReads(buffer, max, [a, b]) != Events(buffer + a + b)
  {
    EndsInPromptMode(buffer + a);
    EventsOfTwoForgetfulReads(buffer, max, a, b);
    ShowEvents(buffer + a, b);
  }

  lemma DirtySplit(buffer: string, data: string) returns (a: string, b: string)
    requires IsRemainder(buffer) && !Clean(AtStart, buffer + data)
    ensures data == a + b && buffer + data == buffer + a + b
    ensures FeedAll(AtStart, buffer + a) == AfterPrompt(false) && PromptAfterSpaces(b)
  {
    DirtyData(buffer, data);
    a, b := DirtyCut(FeedAll(AtStart, buffer), data);
    FeedConcat(AtStart, buffer, a);
    Reassociate(buffer, a, b);
  }

  /** An unfinished line is clean, so what is not clean comes after it. */
  lemma DirtyData(buffer: string, data: string)
    requires IsRemainder(buffer) && !Clean(AtStart, buffer + data)
    ensures !Clean(FeedAll(AtStart, buffer), data)
    ensures FeedAll(AtStart, buffer) != AfterPrompt(true)
  {
    CleanRemainder(buffer);
    CleanConcat(AtStart, buffer, data);
    FeedRemainder(buffer);
  }

  /** For a stream that is not clean some way of cutting it changes the events. */
  lemma DirtyReads(buffer: string, data: string, max: nat) returns (chunks: seq<string>)
    requires IsRemainder(buffer) && !Clean(AtStart, buffer + data) && |buffer| + |data| <= max
    ensures Concat(chunks) == data && Untruncated(buffer, max, chunks)
    ensures EventsOfReads(buffer, max, chunks) != Events(buffer + data)
  {
    var a, b := DirtySplit(buffer, data);
    chunks := [a, b];
    DirtyReadsAt(buffer, max, a, b);
    ConcatTwo(a, b);
    SmallStreamUntruncated(buffer, max, chunks);
  }

  /**
   The events of a stream do not depend on how it is cut into reads, for any buffer that does
   not truncate, exactly when the stream is clean.
   */
  lemma ChunkInvariance(buffer: string, data: string)
    requires IsRemainder(buffer)
    ensures (forall max: nat, chunks: seq<string> | Concat(chunks) == data && Untruncated(buffer, max, chunks) ::
              EventsOfReads(buffer, max, chunks) == Events(buffer + data))
      <==> Clean(AtStart, buffer + data)
  {
    if Clean(AtStart, buffer + data) {
      forall max: nat, chunks: seq<string> | Concat(chunks) == data && Untruncated(buffer, max, chunks)
        ensures EventsOfReads(buffer, max, chunks) == Events(buffer + data)
      {
        AnyReads(buffer, max, chunks);
      }
    } else {
      var chunks := DirtyReads(buffer, data, |buffer| + |data|);
    }
  }

  /** A prompt cut from its space shows while the line is open, and `> >` is read in two ways. */
  lemma CutsThatShow()
    ensures CutsPromptRun(">", " ") && CutShows(" ")
    ensures !Clean(AtStart, "> >")
  {
    assert ">"[1..] == "";
    EndsInPromptMode(">");
    assert "> >"[1..] == " >" && " >"[1..] == ">";
  }
}
