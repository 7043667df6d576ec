/**
 Provenance over whole worker runs: in every reachable state the response buffer and the deadline
 of the command in execution come from what was read, and when it began, since it was started.
 */
module History {
  import opened Text
  import opened Framing
  import opened Types
  import opened Parsers
  import opened StateMachine
  import opened Worker
  import opened WorkerRuns
  import opened Provenance

  /** When the last command was started, and the line events read since then. */
  datatype Past = Past(started: nat, events: seq<LineEvent>)

  function After(past: Past, w: State, s: Step): Past {
    match s
    case Start(now) => Past(now, [])
    case Read(data) => past.(events := past.events + Events(w.buffer + data))
    case _ => past
  }

  function PastOf(past: Past, w: State, steps: seq<Step>, decoder: Decoder): Past
    decreases |steps|
  {
    if steps == [] then past
    else if Enabled(w, steps[0]) then
      PastOf(After(past, w, steps[0]), Perform(w, steps[0], decoder), steps[1..], decoder)
    else PastOf(past, w, steps[1..], decoder)
  }

  predicate Recalls(state: MachineState, past: Past) {
    Held(state).Some? ==>
      var x := Held(state).value;
      && x.timeoutAt == past.started + x.command.RequestTimeout()
      && x.context.responseBuffer == Unlines(Heard(false, past.events))
      && state.Unsolicited? == AwaitsAfter(false, past.events)
  }

  predicate Legible(events: seq<LineEvent>) {
    forall e :: e in events ==> NoBreak(e.content)
  }

  /** A command held after a read was held, unanswered, all through it. */
  lemma {:induction false} HeldThroughout(m: Machine, events: seq<LineEvent>, decoder: Decoder, gone: set<nat>)
    requires Answerable(m.state) && Held(HandleLines(m, events, decoder, gone).state).Some?
    ensures Held(m.state).Some? && Silent(m, HandleLines(m, events, decoder, gone))
    decreases |events|
  {
    if events != [] {
      LineMoves(m, events[0], decoder, gone);
      HeldThroughout(HandleLine(m, events[0], decoder, gone), events[1..], decoder, gone);
    }
  }

  lemma ReadRecalls(m: Machine, events: seq<LineEvent>, past: Past, decoder: Decoder, gone: set<nat>)
    requires Answerable(m.state) && Recalls(m.state, past)
    ensures Recalls(HandleLines(m, events, decoder, gone).state, past.(events := past.events + events))
  {
    var n := HandleLines(m, events, decoder, gone);
    if Held(n.state).Some? {
      HeldThroughout(m, events, decoder, gone);
      BufferProvenance(m, events, decoder, gone);
      HeardConcat(false, past.events, events);
      UnlinesConcat(Heard(false, past.events), Heard(AwaitsAfter(false, past.events), events));
    }
  }

  lemma StartRecalls(m: Machine, cmd: OutgoingCommand, now: nat)
    ensures Recalls(StartCommand(m, cmd, now).state, Past(now, []))
  {
  }

  /** A step that neither reads nor starts a command leaves the held one as it is, or ends it. */
  lemma StepKeepsState(w: State, s: Step, decoder: Decoder)
    requires Enabled(w, s) && !s.Read? && !s.Start?
    ensures var n := Perform(w, s, decoder).machine.state; Held(n).Some? ==> n == w.machine.state
  {
    match s
    case HandleEvent(portAccepts) => EventKeepsState(w, portAccepts);
    case _ =>
  }

  lemma EventKeepsState(w: State, portAccepts: bool)
    requires w.machine.queue != []
    ensures var n := HandleWorkerEvent(w, portAccepts).machine.state; Held(n).Some? ==> n == w.machine.state
  {
  }

  ghost predicate Remembers(w: State, past: Past) {
    Recalls(w.machine.state, past) && Legible(past.events)
  }

  lemma StepRemembers(w: State, s: Step, past: Past, decoder: Decoder)
    requires Inv(w) && Enabled(w, s) && Remembers(w, past)
    ensures Remembers(Perform(w, s, decoder), After(past, w, s))
  {
    match s
    case Read(data) =>
      ReadRecalls(w.machine, Events(w.buffer + data), past, decoder, w.gone);
      ScannedEventsAreOneLiners(w.buffer + data);
    case Start(now) => StartRecalls(w.machine, w.commands[0], now);
    case _ => StepKeepsState(w, s, decoder);
  }

  lemma {:induction false} RunRemembers(w: State, steps: seq<Step>, past: Past, decoder: Decoder)
    requires Inv(w) && Remembers(w, past)
    ensures Remembers(Run(w, steps, decoder), PastOf(past, w, steps, decoder))
    decreases |steps|
  {
    if steps != [] {
      var s := steps[0];
      if Enabled(w, s) {
        StepRemembers(w, s, past, decoder);
        StepInv(w, s, decoder);
        RunRemembers(Perform(w, s, decoder), steps[1..], After(past, w, s), decoder);
      } else {
        RunRemembers(w, steps[1..], past, decoder);
      }
    }
  }

  const NOTHING_READ := Past(0, [])

  /**
   In every reachable state the response buffer of the command in execution is precisely the lines
   read since it was started that are neither prompts nor parts of unsolicited messages, in order
   and each followed by a newline; its deadline is the one set at its start; and it is interrupted
   exactly while a payload line is due.
   */
  lemma BufferHistory(online: bool, max: nat, capacity: nat, steps: seq<Step>, decoder: Decoder)
    ensures var w := Run(Initial(online, max, capacity), steps, decoder);
      Remembers(w, PastOf(NOTHING_READ, Initial(online, max, capacity), steps, decoder))
  {
    InitialInv(online, max, capacity);
    RunRemembers(Initial(online, max, capacity), steps, NOTHING_READ, decoder);
  }

  lemma HeardLegible(events: seq<LineEvent>)
    requires Legible(events)
    ensures OneLiners(Heard(false, events))
  {
    HeardAreOneLiners(false, events);
  }

  lemma ReadReference(m: Machine, past: Past, events: seq<LineEvent>, decoder: Decoder, gone: set<nat>, reference: u8)
    requires Answerable(m.state) && Recalls(m.state, past) && Legible(past.events) && Legible(events)
    requires var n := HandleLines(m, events, decoder, gone);
      |n.replies| > |m.replies| && n.replies[|m.replies|].response == SendResult(reference)
    ensures FirstNumber(Heard(false, past.events + events)) == Some(reference)
  {
    if Held(m.state).None? {
      NobodyAnswered(m, events, decoder, gone);
    } else {
      HeardLegible(past.events);
      ReferenceProvenance(m, Heard(false, past.events), events, decoder, gone, reference);
      HeardConcat(false, past.events, events);
    }
  }

  /** Only reads give references. */
  lemma OthersGiveNone(w: State, s: Step, decoder: Decoder)
    requires Enabled(w, s) && !s.Read?
    ensures var n := Perform(w, s, decoder).machine;
      |n.replies| > |w.machine.replies| ==> n.replies[|w.machine.replies|].response.Error?
  {
    match s
    case HandleEvent(portAccepts) => EventGivesNone(w, portAccepts);
    case _ =>
  }

  lemma EventGivesNone(w: State, portAccepts: bool)
    requires w.machine.queue != []
    ensures var n := HandleWorkerEvent(w, portAccepts).machine;
      |n.replies| > |w.machine.replies| ==> n.replies[|w.machine.replies|].response.Error?
  {
  }

  /**
   Whenever, in any run, a step answers with a reference, it is the number on the first `+CMGS:`
   line among all lines read since the answered command was started.
   */
  lemma ReferenceHistory(online: bool, max: nat, capacity: nat, steps: seq<Step>, s: Step, decoder: Decoder,
                         reference: u8)
    requires var w := Run(Initial(online, max, capacity), steps, decoder);
      Enabled(w, s) &&
      var n := Perform(w, s, decoder);
      |n.machine.replies| > |w.machine.replies| &&
      n.machine.replies[|w.machine.replies|].response == SendResult(reference)
    ensures var w := Run(Initial(online, max, capacity), steps, decoder);
      var past := PastOf(NOTHING_READ, Initial(online, max, capacity), steps, decoder);
      s.Read? && FirstNumber(Heard(false, After(past, w, s).events)) == Some(reference)
  {
    var start := Initial(online, max, capacity);
    var w := Run(start, steps, decoder);
    BufferHistory(online, max, capacity, steps, decoder);
    InitialInv(online, max, capacity);
    RunInv(start, steps, decoder);
    if s.Read? {
      ScannedEventsAreOneLiners(w.buffer + s.data);
      ReadReference(w.machine, PastOf(NOTHING_READ, start, steps, decoder), Events(w.buffer + s.data), decoder, w.gone,
                    reference);
    } else {
      OthersGiveNone(w, s, decoder);
    }
  }
}
