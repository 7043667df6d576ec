/**
 Line framing (src/modem/buffer.rs): how the raw byte stream of the serial port becomes a
 sequence of line and prompt events.

 `Tokenize` is the reference: a recursive, lossless split of a text into line bodies, runs of
 CR and LF, and prompt runs. `Feed` reads the same language one byte at a time, which is what
 makes statements about chunked reads provable.
 */
module Framing {
  import opened Text

  datatype LineEvent = Line(content: string) | Prompt(content: string)

  predicate IsBreak(c: char) {
    c == '\r' || c == '\n'
  }

  predicate NoBreak(s: string) {
    forall i :: 0 <= i < |s| ==> !IsBreak(s[i])
  }

  predicate AllBreaks(s: string) {
    forall i :: 0 <= i < |s| ==> IsBreak(s[i])
  }

  predicate AllSpaces(s: string) {
    forall i :: 0 <= i < |s| ==> s[i] == ' '
  }

  lemma TrimNoBreak(s: string)
    requires NoBreak(s)
    ensures NoBreak(Trim(s))
  {
    var a, b := TrimSplit(s);
    forall i | 0 <= i < |Trim(s)|
      ensures !IsBreak(Trim(s)[i])
    {
      assert s[|a| + i] == Trim(s)[i];
    }
  }

  /** A text the scanner keeps for later: no CR or LF, and not a prompt. */
  predicate IsRemainder(s: string) {
    NoBreak(s) && (s != "" ==> s[0] != '>')
  }

  // --- the reference tokenizer ---

  datatype Token =
    | Body(text: string)       // a complete line without its terminator
    | Break(text: string)      // a run of CR and LF
    | PromptRun(text: string)  // '>' at the start of a line, with the spaces after it

  datatype Tokens = Tokens(tokens: seq<Token>, rest: string)

  function BreakRun(s: string): (n: nat)
    ensures n <= |s| && (n < |s| ==> !IsBreak(s[n])) && AllBreaks(s[..n])
  {
    if s == "" || !IsBreak(s[0]) then 0 else 1 + BreakRun(s[1..])
  }

  function SpaceRun(s: string): (n: nat)
    ensures n <= |s| && (n < |s| ==> s[n] != ' ') && AllSpaces(s[..n])
  {
    if s == "" || s[0] != ' ' then 0 else 1 + SpaceRun(s[1..])
  }

  function BodyRun(s: string): (n: nat)
    ensures n <= |s| && (n < |s| ==> IsBreak(s[n])) && NoBreak(s[..n])
  {
    if s == "" || IsBreak(s[0]) then 0 else 1 + BodyRun(s[1..])
  }

  predicate WellFormed(t: Token) {
    match t
    case Body(text) => text != "" && IsRemainder(text)
    case Break(text) => text != "" && AllBreaks(text)
    case PromptRun(text) => text != "" && text[0] == '>' && AllSpaces(text[1..])
  }

  /** The length of the first token, or of the remainder when no token is complete. */
  function FirstRun(s: string): (n: nat)
    requires s != ""
    ensures 0 < n <= |s|
  {
    if IsBreak(s[0]) then BreakRun(s)
    else if s[0] == '>' then 1 + SpaceRun(s[1..])
    else BodyRun(s)
  }

  function FirstToken(s: string): (t: Token)
    requires s != ""
    ensures t.text == s[..FirstRun(s)]
    ensures WellFormed(t)
  {
    var text := s[..FirstRun(s)];
    if IsBreak(s[0]) then Break(text)
    else if s[0] == '>' then
      assert text[1..] == s[1..][..SpaceRun(s[1..])];
      PromptRun(text)
    else Body(text)
  }

  function Tokenize(s: string): Tokens
    decreases |s|
  {
    if s == "" || IsRemainder(s) then Tokens([], s)
    else
      var tail := Tokenize(s[FirstRun(s)..]);
      Tokens([FirstToken(s)] + tail.tokens, tail.rest)
  }

  function Flatten(tokens: seq<Token>): string {
    if tokens == [] then "" else tokens[0].text + Flatten(tokens[1..])
  }

  /** No byte is lost, invented or moved. */
  lemma {:induction false} TokenizeLossless(s: string)
    ensures Flatten(Tokenize(s).tokens) + Tokenize(s).rest == s
    decreases |s|
  {
    if s != "" && !IsRemainder(s) {
      var t := s[FirstRun(s)..];
      TokenizeLossless(t);
      assert ([FirstToken(s)] + Tokenize(t).tokens)[1..] == Tokenize(t).tokens;
      Reassociate(FirstToken(s).text, Flatten(Tokenize(t).tokens), Tokenize(t).rest);
    }
  }

  /** Each token has the shape its kind promises, and the rest holds no CR, LF or prompt. */
  lemma {:induction false} TokenizeShape(s: string)
    ensures forall t :: t in Tokenize(s).tokens ==> WellFormed(t)
    ensures IsRemainder(Tokenize(s).rest)
    decreases |s|
  {
    if s != "" && !IsRemainder(s) {
      TokenizeShape(s[FirstRun(s)..]);
    }
  }

  // --- cues and events ---

  /** What a token announces before its text is trimmed. */
  datatype Cue = LineCue(body: string) | PromptCue

  function Cues(tokens: seq<Token>): seq<Cue> {
    if tokens == [] then []
    else
      (match tokens[0]
       case Body(text) => [LineCue(text)]
       case Break(_) => []
       case PromptRun(_) => [PromptCue])
      + Cues(tokens[1..])
  }

  lemma CuesCons(t: Token, ts: seq<Token>)
    ensures Cues([t] + ts) == Cues([t]) + Cues(ts)
  {
    assert ([t] + ts)[1..] == ts;
  }

  predicate AllAsciiWhitespace(s: string) {
    forall i :: 0 <= i < |s| ==> IsAsciiWhitespace(s[i])
  }

  /** `try_create_event`: nothing for blank text, the trimmed text otherwise. */
  function TryCreateEvent(data: string): Option<string> {
    if data == "" || AllAsciiWhitespace(data) then None
    else if Trim(data) != "" then Some(Trim(data))
    else None
  }

  /** Blank text of any kind gives no event, other text exactly its trimmed content. */
  lemma TryCreateEventIsTrim(data: string)
    ensures TryCreateEvent(data) == if Trim(data) == "" then None else Some(Trim(data))
  {
    TrimBlank(data);
  }

  /** The events of a sequence of cues: trimmed, non-blank, in order. */
  function Announce(cues: seq<Cue>): seq<LineEvent> {
    if cues == [] then []
    else
      (match cues[0]
       case LineCue(body) => if Trim(body) == "" then [] else [Line(Trim(body))]
       case PromptCue => [Prompt(">")])
      + Announce(cues[1..])
  }

  lemma {:induction false} AnnounceConcat(a: seq<Cue>, b: seq<Cue>)
    ensures Announce(a + b) == Announce(a) + Announce(b)
  {
    if a == [] {
      assert a + b == b;
    } else {
      assert (a + b)[1..] == a[1..] + b;
      AnnounceConcat(a[1..], b);
    }
  }

  function Events(s: string): seq<LineEvent> {
    Announce(Cues(Tokenize(s).tokens))
  }

  function Rest(s: string): string {
    Tokenize(s).rest
  }

  /** Every event is a tight non-blank line or the prompt `>`. */
  lemma {:induction false} EventsShape(cues: seq<Cue>)
    ensures forall e :: e in Announce(cues) ==>
      (e.Prompt? ==> e.content == ">") && e.content != "" && Tight(e.content)
  {
    if cues != [] {
      EventsShape(cues[1..]);
      if cues[0].LineCue? {
        var a, b := TrimSplit(cues[0].body);
      }
    }
  }

  // --- the same language, one byte at a time ---

  datatype Mode =
    | AtStart                   // nothing of the current line seen
    | AfterPrompt(spaced: bool) // inside a prompt run, with or without a space seen
    | InBody(text: string)      // inside a line

  function Feed(mode: Mode, c: char): Mode {
    if IsBreak(c) then AtStart
    else if mode.InBody? then InBody(mode.text + [c])
    else if c == '>' then AfterPrompt(false)
    else if mode.AfterPrompt? && c == ' ' then AfterPrompt(true)
    else InBody([c])
  }

  function FeedCues(mode: Mode, c: char): seq<Cue> {
    if mode.InBody? then if IsBreak(c) then [LineCue(mode.text)] else []
    else if c == '>' then [PromptCue]
    else []
  }

  function FeedAll(mode: Mode, s: string): Mode
    decreases |s|
  {
    if s == "" then mode else FeedAll(Feed(mode, s[0]), s[1..])
  }

  function AllCues(mode: Mode, s: string): seq<Cue>
    decreases |s|
  {
    if s == "" then [] else FeedCues(mode, s[0]) + AllCues(Feed(mode, s[0]), s[1..])
  }

  function Pending(mode: Mode): string {
    if mode.InBody? then mode.text else ""
  }

  lemma {:induction false} FeedConcat(mode: Mode, a: string, b: string)
    ensures FeedAll(mode, a + b) == FeedAll(FeedAll(mode, a), b)
    ensures AllCues(mode, a + b) == AllCues(mode, a) + AllCues(FeedAll(mode, a), b)
    decreases |a|
  {
    if a == "" {
      assert a + b == b;
    } else {
      assert (a + b)[1..] == a[1..] + b;
      FeedConcat(Feed(mode, a[0]), a[1..], b);
      Reassociate(FeedCues(mode, a[0]), AllCues(Feed(mode, a[0]), a[1..]), AllCues(FeedAll(mode, a), b));
    }
  }

  lemma {:induction false} FeedBody(text: string, s: string)
    requires NoBreak(s)
    ensures FeedAll(InBody(text), s) == InBody(text + s) && AllCues(InBody(text), s) == []
    decreases |s|
  {
    if s == "" {
      assert text + s == text;
    } else {
      assert text + [s[0]] + s[1..] == text + s;
      FeedBody(text + [s[0]], s[1..]);
    }
  }

  lemma {:induction false} FeedBreaks(s: string)
    requires AllBreaks(s)
    ensures FeedAll(AtStart, s) == AtStart && AllCues(AtStart, s) == []
  {
    if s != "" { FeedBreaks(s[1..]); }
  }

  lemma {:induction false} FeedSpaces(spaced: bool, s: string)
    requires AllSpaces(s)
    ensures FeedAll(AfterPrompt(spaced), s) == AfterPrompt(spaced || s != "")
    ensures AllCues(AfterPrompt(spaced), s) == []
    decreases |s|
  {
    if s != "" { FeedSpaces(true, s[1..]); }
  }

  /** A fresh line without CR, LF or leading `>` is only collected. */
  lemma FeedRemainder(s: string)
    requires IsRemainder(s)
    ensures FeedAll(AtStart, s) == (if s == "" then AtStart else InBody(s)) && AllCues(AtStart, s) == []
  {
    if s != "" {
      FeedBody([s[0]], s[1..]);
      assert [s[0]] + s[1..] == s;
    }
  }

  /** After a prompt run only a further space is read differently from a line start. */
  lemma FeedNonSpace(spaced: bool, s: string)
    requires s != "" ==> s[0] != ' '
    ensures AllCues(AfterPrompt(spaced), s) == AllCues(AtStart, s)
    ensures Pending(FeedAll(AfterPrompt(spaced), s)) == Pending(FeedAll(AtStart, s))
  {
  }

  lemma FeedBreakToken(run: string, t: string)
    requires AllBreaks(run)
    ensures AllCues(AtStart, run + t) == AllCues(AtStart, t)
    ensures FeedAll(AtStart, run + t) == FeedAll(AtStart, t)
  {
    FeedConcat(AtStart, run, t);
    FeedBreaks(run);
  }

  lemma FeedPromptToken(spaces: string, t: string)
    requires AllSpaces(spaces) && (t != "" ==> t[0] != ' ')
    ensures AllCues(AtStart, ">" + (spaces + t)) == [PromptCue] + AllCues(AtStart, t)
    ensures Pending(FeedAll(AtStart, ">" + (spaces + t))) == Pending(FeedAll(AtStart, t))
  {
    assert (">" + (spaces + t))[1..] == spaces + t;
    FeedConcat(AfterPrompt(false), spaces, t);
    FeedSpaces(false, spaces);
    FeedNonSpace(spaces != "", t);
  }

  lemma FeedBodyToken(body: string, t: string)
    requires body != "" && IsRemainder(body) && t != "" && IsBreak(t[0])
    ensures AllCues(AtStart, body + t) == [LineCue(body)] + AllCues(AtStart, t)
    ensures FeedAll(AtStart, body + t) == FeedAll(AtStart, t)
  {
    FeedConcat(AtStart, body, t);
    FeedRemainder(body);
  }

  /** What the byte-wise reader makes of one complete token. */
  lemma FeedToken(s: string)
    requires !IsRemainder(s)
    ensures var t := s[FirstRun(s)..];
      AllCues(AtStart, s) == Cues([FirstToken(s)]) + AllCues(AtStart, t) &&
      Pending(FeedAll(AtStart, s)) == Pending(FeedAll(AtStart, t))
  {
    var n := FirstRun(s);
    var t := s[n..];
    assert s == s[..n] + t;
    if IsBreak(s[0]) {
      FeedBreakToken(s[..n], t);
    } else if s[0] == '>' {
      var spaces := s[1..][..n - 1];
      assert s == ">" + (spaces + t);
      FeedPromptToken(spaces, t);
    } else {
      FeedBodyToken(s[..n], t);
    }
  }

  /** The byte-wise reader and the tokenizer read the same language. */
  lemma {:induction false} FeedIsTokenize(s: string)
    ensures AllCues(AtStart, s) == Cues(Tokenize(s).tokens)
    ensures Pending(FeedAll(AtStart, s)) == Rest(s)
    decreases |s|
  {
    if IsRemainder(s) {
      FeedRemainder(s);
    } else {
      var t := s[FirstRun(s)..];
      FeedToken(s);
      FeedIsTokenize(t);
      CuesCons(FirstToken(s), Tokenize(t).tokens);
    }
  }
}
