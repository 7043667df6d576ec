/** What every run of the modem worker keeps: no command is lost, forgotten or answered twice. */
module WorkerRuns {
  import opened Text
  import opened Framing
  import opened Types
  import opened StateMachine
  import opened Worker

  /** Commands that have left the queue; they left it in the order of their channels. */
  function Taken(w: State): nat
    requires |w.commands| <= |w.accepted|
  {
    |w.accepted| - |w.commands|
  }

  /** The queue holds the last accepted commands, oldest first, none of them answered. */
  predicate InOrder(w: State) {
    && |w.commands| <= |w.accepted|
    && (forall i :: 0 <= i < |w.commands| ==>
          && w.commands[i].channel == Taken(w) + i && w.commands[i].open
          && w.commands[i].request == w.accepted[Taken(w) + i])
  }

  /** Status updates chain from `first` to `last`, along moves the worker may make. */
  predicate MayMove(previous: ModemStatus, current: ModemStatus) {
    && previous != current && current != Startup
    && (current == Online ==> previous == Startup || previous == Offline)
    && (previous == ShuttingDown ==> current == Offline)
  }

  predicate Chain(first: ModemStatus, updates: seq<ModemIncomingMessage>, last: ModemStatus)
    decreases |updates|
  {
    if updates == [] then first == last
    else
      var u := updates[0];
      && u.ModemStatusUpdate? && u.previous == first && MayMove(u.previous, u.current)
      && Chain(u.current, updates[1..], last)
  }

  lemma {:induction false} ChainAppend(first: ModemStatus, updates: seq<ModemIncomingMessage>, last: ModemStatus,
                                       next: ModemStatus)
    requires Chain(first, updates, last) && MayMove(last, next)
    ensures Chain(first, updates + [ModemStatusUpdate(last, next)], next)
    decreases |updates|
  {
    var u := ModemStatusUpdate(last, next);
    if updates == [] {
      assert ([] + [u])[1..] == [];
    } else {
      assert (updates + [u])[0] == updates[0] && (updates + [u])[1..] == updates[1..] + [u];
      ChainAppend(updates[0].current, updates[1..], last, next);
    }
  }

  /** Where no command may be held: offline, and after the shutdown arm has failed it. */
  predicate Resting(w: State) {
    w.status == Offline || w.phase == Refusing || w.phase == Sleeping
  }

  ghost predicate CommandsInv(w: State) {
    InOrder(w) && MachineInv(w.machine, w.accepted, Taken(w))
  }

  ghost predicate StatusInv(w: State) {
    && w.status != Startup
    && (w.phase != Polling ==> w.status == ShuttingDown || w.status == Offline)
    && (Resting(w) ==> Held(w.machine.state).None?)
    && OnlyShutdowns(w.machine.queue)
    && Chain(Startup, Updates(w.machine.sent), w.status)
  }

  ghost predicate BufferInv(w: State) {
    NoBreak(w.buffer) && |w.buffer| <= w.max
  }

  ghost predicate Inv(w: State) {
    CommandsInv(w) && StatusInv(w) && BufferInv(w)
  }

  lemma InitialInv(online: bool, max: nat, capacity: nat)
    ensures Inv(Initial(online, max, capacity))
  {
    var update := ModemStatusUpdate(Startup, if online then Online else Offline);
    UpdatesAppend([], update);
    assert [] + [update] == [update] && [update][1..] == [];
    assert multiset(Range(0)) == multiset{};
  }

  // --- the commands ---

  /** The queue is untouched and the held command stays or is answered. */
  predicate Moves(w: State, n: State) {
    n.commands == w.commands && n.accepted == w.accepted
    && (Kept(w.machine, n.machine) || Answered(w.machine, n.machine))
  }

  /** The invariant depends on the queue, the accepted requests and the machine only. */
  lemma WithMachine(w: State, n: State)
    requires InOrder(w) && n.commands == w.commands && n.accepted == w.accepted
    requires MachineInv(n.machine, w.accepted, Taken(w))
    ensures CommandsInv(n)
  {
  }

  lemma MovesCommands(w: State, n: State)
    requires CommandsInv(w) && Moves(w, n)
    ensures CommandsInv(n) && n.machine.dropped == w.machine.dropped
  {
    MovesInv(w.machine, n.machine, w.accepted, Taken(w));
    WithMachine(w, n);
  }

  lemma FailMoves(w: State, reason: string)
    requires Answerable(w.machine.state)
    ensures Moves(w, Fail(w, reason)) && Held(Fail(w, reason).machine.state).None?
    ensures Fail(w, reason).machine.queue == w.machine.queue && Fail(w, reason).machine.sent == w.machine.sent
  {
    FailAnswers(w.machine, reason, w.gone);
  }

  lemma SetStatusMoves(w: State, n: State, status: ModemStatus)
    requires Moves(w, n)
    ensures Moves(w, SetStatusTo(n, status)) && SetStatusTo(n, status).machine.state == n.machine.state
  {
  }

  lemma SubmitInOrder(w: State, sequence: nat, request: ModemRequest, timeout: Option<nat>)
    requires InOrder(w)
    ensures var n := Submit(w, sequence, request, timeout); InOrder(n) && Taken(n) == Taken(w)
  {
  }

  lemma SubmitCommands(w: State, sequence: nat, request: ModemRequest, timeout: Option<nat>)
    requires CommandsInv(w)
    ensures CommandsInv(Submit(w, sequence, request, timeout))
  {
    SubmitInOrder(w, sequence, request, timeout);
  }

  /** A command taken from the head of the queue is the next in order. */
  lemma HeadOfQueue(w: State)
    requires InOrder(w) && w.commands != []
    ensures var cmd := w.commands[0];
      cmd.channel == Taken(w) && cmd.open && Taken(w) < |w.accepted| && cmd.request == w.accepted[Taken(w)]
    ensures InOrder(w.(commands := w.commands[1..])) && Taken(w.(commands := w.commands[1..])) == Taken(w) + 1
  {
  }

  /** The next command is in the machine's ledger now, held or replied to. */
  lemma TakeNext(m: Machine, n: Machine, accepted: seq<ModemRequest>, taken: nat)
    requires MachineInv(m, accepted, taken) && taken < |accepted|
    requires HeldIsAccepted(n.state, accepted) && RepliesFit(n.replies, accepted)
    requires Ledger(n) == Ledger(m) + multiset{taken}
    ensures MachineInv(n, accepted, taken + 1)
  {
  }

  /** `n` is `w` after the machine has taken the oldest queued command. */
  lemma TakeCommands(w: State, n: State)
    requires CommandsInv(w) && w.commands != []
    requires n.commands == w.commands[1..] && n.accepted == w.accepted
    requires HeldIsAccepted(n.machine.state, n.accepted) && RepliesFit(n.machine.replies, n.accepted)
    requires Ledger(n.machine) == Ledger(w.machine) + multiset{w.commands[0].channel}
    ensures CommandsInv(n)
  {
    HeadOfQueue(w);
    TakeNext(w.machine, n.machine, w.accepted, Taken(w));
  }

  lemma StartCommands(w: State, now: nat)
    requires CommandsInv(w) && w.commands != [] && w.machine.state == Idle
    ensures CommandsInv(w.(commands := w.commands[1..], machine := StartCommand(w.machine, w.commands[0], now)))
    ensures StartCommand(w.machine, w.commands[0], now).dropped == w.machine.dropped
  {
    HeadOfQueue(w);
    var m := StartCommand(w.machine, w.commands[0], now);
    TakeCommands(w, w.(commands := w.commands[1..], machine := m));
  }

  lemma RefuseLedger(m: Machine, cmd: OutgoingCommand, reason: string, gone: set<nat>)
    requires cmd.open
    ensures var n := Respond(m, cmd, Error(reason), gone).machine;
      && Ledger(n) == Ledger(m) + multiset{cmd.channel}
      && n.dropped == m.dropped && n.state == m.state
  {
    RepliedAppend(m.replies, Reply(cmd.channel, Error(reason), cmd.channel !in gone));
  }

  lemma TurnAwayCommands(w: State, reason: string)
    requires CommandsInv(w) && w.commands != []
    ensures CommandsInv(TurnAway(w, reason))
    ensures TurnAway(w, reason).machine.state == w.machine.state
    ensures TurnAway(w, reason).machine.dropped == w.machine.dropped
  {
    HeadOfQueue(w);
    RefuseLedger(w.machine, w.commands[0], reason, w.gone);
    TakeCommands(w, TurnAway(w, reason));
  }

  lemma EventMoves(w: State, portAccepts: bool)
    requires Answerable(w.machine.state) && w.machine.queue != []
    ensures Moves(w, HandleWorkerEvent(w, portAccepts))
  {
    var next := w.(machine := w.machine.(queue := w.machine.queue[1..]));
    match w.machine.queue[0]
    case SetStatus(status) => SetStatusMoves(w, next, status);
    case WriteCommand(_) =>
      FailMoves(next, "Write failed");
      SetStatusMoves(w, Fail(next, "Write failed"), Offline);
  }

  lemma TickMoves(w: State, s: Step, decoder: Decoder)
    requires Answerable(w.machine.state) && s.Tick? && Enabled(w, s)
    ensures Moves(w, Perform(w, s, decoder))
  {
    TimeoutAnswers(w.machine, s.now, w.gone);
  }

  lemma OfflineMoves(w: State, reason: string)
    requires Answerable(w.machine.state)
    ensures Moves(w, SetStatusTo(Fail(w, reason), Offline))
    ensures Held(SetStatusTo(Fail(w, reason), Offline).machine.state).None?
  {
    FailMoves(w, reason);
    SetStatusMoves(w, Fail(w, reason), Offline);
  }

  lemma RestMoves(w: State, status: ModemStatus)
    requires Held(w.machine.state).None?
    ensures Moves(w, Reset(SetStatusTo(w, status)))
  {
    SetStatusMoves(w, w, status);
  }

  /** Steps that end the command that is held, if any. */
  lemma EndingStepMoves(w: State, s: Step, decoder: Decoder)
    requires Answerable(w.machine.state) && Enabled(w, s)
    requires s.HandleEvent? || s.ReadNothing? || s.ReadFailed? || s.Tick? || s.FinishDraining?
    ensures Moves(w, Perform(w, s, decoder))
  {
    match s
    case HandleEvent(portAccepts) => EventMoves(w, portAccepts);
    case ReadNothing => OfflineMoves(w, "Serial port closed");
    case ReadFailed(error) => OfflineMoves(w, "Read error: " + error);
    case Tick(now) => TickMoves(w, s, decoder);
    case FinishDraining => FailMoves(w, "Modem is shutting down");
  }

  /** Steps that leave every command where it is. */
  lemma IdleStepMoves(w: State, s: Step, decoder: Decoder)
    requires (Resting(w) ==> Held(w.machine.state).None?) && Enabled(w, s)
    requires s.Abandon? || s.EnterShutdown? || s.FinishRefusing? || s.Wake? || s.Reconnect?
    ensures Moves(w, Perform(w, s, decoder))
  {
    match s
    case Wake => RestMoves(w, Offline);
    case Reconnect(_) => RestMoves(w, Online);
    case _ =>
  }

  lemma ReadCommands(w: State, s: Step, decoder: Decoder)
    requires CommandsInv(w) && s.Read? && Enabled(w, s)
    ensures CommandsKept(w, s, Perform(w, s, decoder), decoder)
  {
    ReadMachine(w.machine, Events(w.buffer + s.data), decoder, w.gone, w.accepted, Taken(w));
    WithMachine(w, Perform(w, s, decoder));
  }

  lemma ReadMachine(m: Machine, events: seq<LineEvent>, decoder: Decoder, gone: set<nat>,
                    accepted: seq<ModemRequest>, taken: nat)
    requires MachineInv(m, accepted, taken)
    ensures var n := HandleLines(m, events, decoder, gone);
      MachineInv(n, accepted, taken) && n.dropped == m.dropped + Lost(m, events, decoder, gone)
  {
    LinesInv(m, events, decoder, gone, accepted, taken);
    LinesLost(m, events, decoder, gone);
  }

  /** What a step loses: nothing, unless it is a read with misplaced events. */
  function StepLost(w: State, s: Step, decoder: Decoder): seq<nat> {
    if s.Read? then Lost(w.machine, Events(w.buffer + s.data), decoder, w.gone) else []
  }

  ghost predicate CommandsKept(w: State, s: Step, n: State, decoder: Decoder) {
    CommandsInv(n) && n.machine.dropped == w.machine.dropped + StepLost(w, s, decoder)
  }

  lemma NothingLost(w: State, s: Step, n: State, decoder: Decoder)
    requires !s.Read? && CommandsInv(n) && n.machine.dropped == w.machine.dropped
    ensures CommandsKept(w, s, n, decoder)
  {
    assert w.machine.dropped + [] == w.machine.dropped;
  }

  /** Steps at the command queue. */
  lemma QueueStepCommands(w: State, s: Step, decoder: Decoder)
    requires CommandsInv(w) && Enabled(w, s) && (s.Enqueue? || s.Start? || s.Refuse? || s.Reject?)
    ensures CommandsInv(Perform(w, s, decoder)) && Perform(w, s, decoder).machine.dropped == w.machine.dropped
  {
    match s
    case Enqueue(sequence, request, timeout) => SubmitCommands(w, sequence, request, timeout);
    case Start(now) => StartCommands(w, now);
    case Refuse => TurnAwayCommands(w, "Modem is shutting down");
    case Reject => TurnAwayCommands(w, "Modem is offline");
  }

  /**
   Every step keeps the ledger of commands, and a command is lost without a reply only by a read
   that puts a prompt or a second header where the payload of an unsolicited message was due.
   */
  lemma StepCommands(w: State, s: Step, decoder: Decoder)
    requires CommandsInv(w) && (Resting(w) ==> Held(w.machine.state).None?) && Enabled(w, s)
    ensures CommandsKept(w, s, Perform(w, s, decoder), decoder)
  {
    var n := Perform(w, s, decoder);
    if s.Read? {
      ReadCommands(w, s, decoder);
    } else if s.Enqueue? || s.Start? || s.Refuse? || s.Reject? {
      QueueStepCommands(w, s, decoder);
      NothingLost(w, s, n, decoder);
    } else {
      if s.HandleEvent? || s.ReadNothing? || s.ReadFailed? || s.Tick? || s.FinishDraining? {
        EndingStepMoves(w, s, decoder);
      } else {
        IdleStepMoves(w, s, decoder);
      }
      MovesCommands(w, n);
      NothingLost(w, s, n, decoder);
    }
  }

  // --- the status ---

  lemma SetStatusKeeps(w: State, status: ModemStatus)
    requires Chain(Startup, Updates(w.machine.sent), w.status)
    requires w.status == status || MayMove(w.status, status)
    ensures var n := SetStatusTo(w, status);
      n.status == status && Chain(Startup, Updates(n.machine.sent), n.status)
  {
    if w.status != status {
      UpdatesAppend(w.machine.sent, ModemStatusUpdate(w.status, status));
      ChainAppend(Startup, Updates(w.machine.sent), w.status, status);
    }
  }

  lemma EventStatus(w: State, portAccepts: bool)
    requires Inv(w) && Enabled(w, HandleEvent(portAccepts))
    ensures StatusInv(HandleWorkerEvent(w, portAccepts))
  {
    var next := w.(machine := w.machine.(queue := w.machine.queue[1..]));
    match w.machine.queue[0]
    case SetStatus(status) =>
      assert w.machine.queue[0] in w.machine.queue;
      SetStatusKeeps(next, status);
    case WriteCommand(_) =>
      FailMoves(next, "Write failed");
      SetStatusKeeps(Fail(next, "Write failed"), Offline);
  }

  lemma OfflineStatus(w: State, reason: string)
    requires Inv(w)
    ensures StatusInv(SetStatusTo(Fail(w, reason), Offline))
  {
    FailMoves(w, reason);
    SetStatusKeeps(Fail(w, reason), Offline);
  }

  lemma RestStatus(w: State, status: ModemStatus)
    requires StatusInv(w) && Held(w.machine.state).None?
    requires if status == Online then w.status == Offline
             else status == Offline && (w.status == ShuttingDown || w.status == Offline)
    ensures var n := Reset(SetStatusTo(w, status)).(phase := Polling); StatusInv(n)
  {
    SetStatusKeeps(w, status);
  }

  lemma ReadStatus(w: State, s: Step, decoder: Decoder)
    requires Inv(w) && Enabled(w, s) && s.Read?
    ensures StatusInv(Perform(w, s, decoder))
  {
    LinesUpdates(w.machine, Events(w.buffer + s.data), decoder, w.gone);
  }

  lemma DrainStatus(w: State, reason: string)
    requires Inv(w) && w.phase == Draining
    ensures StatusInv(Fail(w, reason).(phase := Refusing))
  {
    FailMoves(w, reason);
  }

  lemma StepStatus(w: State, s: Step, decoder: Decoder)
    requires Inv(w) && Enabled(w, s)
    ensures StatusInv(Perform(w, s, decoder))
  {
    match s
    case HandleEvent(portAccepts) => EventStatus(w, portAccepts);
    case Read(_) => ReadStatus(w, s, decoder);
    case ReadNothing => OfflineStatus(w, "Serial port closed");
    case ReadFailed(error) => OfflineStatus(w, "Read error: " + error);
    case FinishDraining => DrainStatus(w, "Modem is shutting down");
    case Wake => RestStatus(w, Offline);
    case Reconnect(_) => RestStatus(w, Online);
    case _ => OtherStatus(w, s, decoder);
  }

  lemma OtherStatus(w: State, s: Step, decoder: Decoder)
    requires Inv(w) && Enabled(w, s)
    requires s.Enqueue? || s.Abandon? || s.Start? || s.Tick? || s.EnterShutdown? || s.Refuse?
             || s.FinishRefusing? || s.Reject?
    ensures StatusInv(Perform(w, s, decoder))
  {
  }

  // --- every run ---

  lemma StepBuffer(w: State, s: Step, decoder: Decoder)
    requires BufferInv(w) && Enabled(w, s)
    ensures BufferInv(Perform(w, s, decoder))
  {
    if s.Read? {
      TokenizeShape(w.buffer + s.data);
    }
  }

  lemma StepInv(w: State, s: Step, decoder: Decoder)
    requires Inv(w) && Enabled(w, s)
    ensures Inv(Perform(w, s, decoder))
  {
    StepCommands(w, s, decoder);
    StepStatus(w, s, decoder);
    StepBuffer(w, s, decoder);
  }

  lemma {:induction false} RunInv(w: State, steps: seq<Step>, decoder: Decoder)
    requires Inv(w)
    ensures Inv(Run(w, steps, decoder))
    decreases |steps|
  {
    if steps != [] {
      if Enabled(w, steps[0]) { StepInv(w, steps[0], decoder); }
      RunInv(if Enabled(w, steps[0]) then Perform(w, steps[0], decoder) else w, steps[1..], decoder);
    }
  }

  // --- what that means for the commands ---

  function QueuedChannels(commands: seq<OutgoingCommand>): seq<nat> {
    if commands == [] then [] else [commands[0].channel] + QueuedChannels(commands[1..])
  }

  /** How often each command is queued, held, replied to or dropped, all four together. */
  function Places(w: State): multiset<nat> {
    multiset(QueuedChannels(w.commands)) + Ledger(w.machine)
  }

  lemma {:induction false} QueueCount(commands: seq<OutgoingCommand>, first: nat, c: nat)
    requires forall i :: 0 <= i < |commands| ==> commands[i].channel == first + i
    ensures multiset(QueuedChannels(commands))[c] == if first <= c < first + |commands| then 1 else 0
  {
    if commands != [] {
      QueueCount(commands[1..], first + 1, c);
    }
  }

  lemma PlacesCount(w: State, channel: nat)
    requires CommandsInv(w)
    ensures Places(w)[channel] == if channel < |w.accepted| then 1 else 0
  {
    QueueCount(w.commands, Taken(w), channel);
    RangeCount(Taken(w), channel);
  }

  /**
   Conservation: after any run each accepted command is in exactly one place, queued, held, replied
   to or dropped, and there once; nothing else is anywhere.
   */
  lemma Conservation(online: bool, max: nat, capacity: nat, steps: seq<Step>, decoder: Decoder, channel: nat)
    ensures var w := Run(Initial(online, max, capacity), steps, decoder);
      Places(w)[channel] == if channel < |w.accepted| then 1 else 0
  {
    InitialInv(online, max, capacity);
    RunInv(Initial(online, max, capacity), steps, decoder);
    PlacesCount(Run(Initial(online, max, capacity), steps, decoder), channel);
  }

  /** Every run keeps the queue in order and gives each command at most replies that fit it. */
  lemma OrderedAndTyped(online: bool, max: nat, capacity: nat, steps: seq<Step>, decoder: Decoder)
    ensures var w := Run(Initial(online, max, capacity), steps, decoder);
      InOrder(w) && RepliesFit(w.machine.replies, w.accepted) && Answerable(w.machine.state)
  {
    InitialInv(online, max, capacity);
    RunInv(Initial(online, max, capacity), steps, decoder);
  }

  /** `n` has taken no command that `w` had queued, or just the next in order. */
  predicate NextTaken(w: State, n: State)
    requires InOrder(w)
  {
    InOrder(n) && (Taken(n) == Taken(w) || (
      && Taken(n) == Taken(w) + 1
      && (HeldChannels(n.machine.state) == [Taken(w)]
          || (n.machine.replies != [] && n.machine.replies[|n.machine.replies| - 1].channel == Taken(w)))))
  }

  lemma SameQueue(w: State, n: State)
    requires InOrder(w) && n.commands == w.commands && n.accepted == w.accepted
    ensures NextTaken(w, n)
  {
  }

  lemma QueueStepTakesNext(w: State, s: Step, decoder: Decoder)
    requires InOrder(w) && Enabled(w, s) && (s.Enqueue? || s.Start? || s.Refuse? || s.Reject?)
    ensures NextTaken(w, Perform(w, s, decoder))
  {
    if s.Enqueue? {
      SubmitInOrder(w, s.sequence, s.request, s.timeout);
    } else {
      HeadOfQueue(w);
    }
  }

  /** Commands leave the queue oldest first: the one a step takes is the next in order. */
  lemma FirstInFirstOut(w: State, s: Step, decoder: Decoder)
    requires InOrder(w) && Enabled(w, s)
    ensures NextTaken(w, Perform(w, s, decoder))
  {
    if s.Enqueue? || s.Start? || s.Refuse? || s.Reject? {
      QueueStepTakesNext(w, s, decoder);
    } else {
      SameQueue(w, Perform(w, s, decoder));
    }
  }

  /** The commands that a run loses, step by step. */
  function RunLost(w: State, steps: seq<Step>, decoder: Decoder): seq<nat>
    decreases |steps|
  {
    if steps == [] then []
    else if Enabled(w, steps[0]) then
      StepLost(w, steps[0], decoder) + RunLost(Perform(w, steps[0], decoder), steps[1..], decoder)
    else RunLost(w, steps[1..], decoder)
  }

  /**
   The only commands a run ever drops without a reply are those held when a read put a prompt or
   a second header where a payload was due; resets, shutdown and reconnection drop none.
   */
  lemma {:induction false} OnlyMisplacedLose(w: State, steps: seq<Step>, decoder: Decoder)
    requires Inv(w)
    ensures Run(w, steps, decoder).machine.dropped == w.machine.dropped + RunLost(w, steps, decoder)
    decreases |steps|
  {
    if steps == [] {
      assert w.machine.dropped + [] == w.machine.dropped;
    } else if Enabled(w, steps[0]) {
      var n := Perform(w, steps[0], decoder);
      StepInv(w, steps[0], decoder);
      StepCommands(w, steps[0], decoder);
      OnlyMisplacedLose(n, steps[1..], decoder);
      Reassociate(w.machine.dropped, StepLost(w, steps[0], decoder), RunLost(n, steps[1..], decoder));
    } else {
      OnlyMisplacedLose(w, steps[1..], decoder);
    }
  }

  /** Offline safety: whenever the worker is offline no command is active or interrupted. */
  lemma OfflineSafety(online: bool, max: nat, capacity: nat, steps: seq<Step>, decoder: Decoder)
    ensures var w := Run(Initial(online, max, capacity), steps, decoder);
      w.status == Offline ==> Held(w.machine.state).None?
  {
    InitialInv(online, max, capacity);
    RunInv(Initial(online, max, capacity), steps, decoder);
  }

  /** When the shutdown arm has emptied the queue every command accepted so far is settled. */
  lemma ShutdownSettles(w: State, channel: nat)
    requires Inv(w) && Enabled(w, FinishRefusing) && channel < |w.accepted|
    ensures (multiset(RepliedChannels(w.machine.replies)) + multiset(w.machine.dropped))[channel] == 1
  {
    RangeCount(|w.accepted|, channel);
  }

  /**
   Status history: the updates sent chain from Startup to the present status, each a move the
   worker may make: never to where it is, never back to Startup, to Online only from Startup or
   Offline, and from ShuttingDown only to Offline.
   */
  lemma StatusHistory(online: bool, max: nat, capacity: nat, steps: seq<Step>, decoder: Decoder)
    ensures var w := Run(Initial(online, max, capacity), steps, decoder);
      w.status != Startup && Chain(Startup, Updates(w.machine.sent), w.status)
  {
    InitialInv(online, max, capacity);
    RunInv(Initial(online, max, capacity), steps, decoder);
  }

  /** Between reads the line buffer holds one unfinished line within its limit. */
  lemma BufferBounded(online: bool, max: nat, capacity: nat, steps: seq<Step>, decoder: Decoder)
    ensures var w := Run(Initial(online, max, capacity), steps, decoder);
      NoBreak(w.buffer) && |w.buffer| <= w.max
  {
    InitialInv(online, max, capacity);
    RunInv(Initial(online, max, capacity), steps, decoder);
  }

  // --- accepted requests and replies are never taken back ---

  predicate Grows(w: State, n: State) {
    w.accepted <= n.accepted && w.machine.replies <= n.machine.replies
  }

  lemma QueueStepGrows(w: State, s: Step, decoder: Decoder)
    requires Enabled(w, s) && (s.Enqueue? || s.Start? || s.Refuse? || s.Reject?)
    ensures Grows(w, Perform(w, s, decoder))
  {
  }

  lemma MovesGrow(w: State, n: State)
    requires Moves(w, n)
    ensures Grows(w, n)
  {
  }

  lemma ReadGrows(w: State, s: Step, decoder: Decoder)
    requires Answerable(w.machine.state) && Enabled(w, s) && s.Read?
    ensures Grows(w, Perform(w, s, decoder))
  {
    RepliesGrow(w.machine, Events(w.buffer + s.data), decoder, w.gone);
  }

  lemma StepGrows(w: State, s: Step, decoder: Decoder)
    requires Inv(w) && Enabled(w, s)
    ensures Grows(w, Perform(w, s, decoder))
  {
    if s.Read? {
      ReadGrows(w, s, decoder);
    } else if s.Enqueue? || s.Start? || s.Refuse? || s.Reject? {
      QueueStepGrows(w, s, decoder);
    } else {
      if s.HandleEvent? || s.ReadNothing? || s.ReadFailed? || s.Tick? || s.FinishDraining? {
        EndingStepMoves(w, s, decoder);
      } else {
        IdleStepMoves(w, s, decoder);
      }
      MovesGrow(w, Perform(w, s, decoder));
    }
  }

  lemma {:induction false} RunGrows(w: State, steps: seq<Step>, decoder: Decoder)
    requires Inv(w)
    ensures Inv(Run(w, steps, decoder)) && Grows(w, Run(w, steps, decoder))
    decreases |steps|
  {
    if steps != [] {
      if Enabled(w, steps[0]) {
        StepInv(w, steps[0], decoder);
        StepGrows(w, steps[0], decoder);
        RunGrows(Perform(w, steps[0], decoder), steps[1..], decoder);
      } else {
        RunGrows(w, steps[1..], decoder);
      }
    }
  }
}
