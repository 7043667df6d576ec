/**
 Messages and delivery reports: the tables of src/sms/database.rs and the handling of a report in
 src/sms/mod.rs. A report is handled in three database calls, one after the other; messages can be
 stored between any two of them.
 */
module Deliveries {
  import opened Text
  import opened Types

  datatype Row = Row(
    phoneNumber: string, content: string, reference: Option<u8>, isOutgoing: bool,
    status: Option<u8>, completed: bool)

  datatype Report = Report(messageId: nat, status: u8, isFinal: bool)

  /** Rows are never deleted, so message n is the n-th row, counting from 1. */
  datatype Tables = Tables(messages: seq<Row>, reports: seq<Report>)

  /** The number and message reference by which a report names its message. */
  datatype Address = Address(phoneNumber: string, reference: u8)

  function AddressOf(report: PartialReport): Address {
    Address(report.phoneNumber, report.reference)
  }

  /** `insert_message`; the message's identifier is the number of rows afterwards. */
  function InsertMessage(t: Tables, message: Row, isFinal: bool): Tables {
    t.(messages := t.messages + [message.(completed := isFinal)])
  }

  function InsertDeliveryReport(t: Tables, messageId: nat, status: u8, isFinal: bool): Tables {
    t.(reports := t.reports + [Report(messageId, status, isFinal)])
  }

  function UpdateMessageStatus(t: Tables, messageId: nat, status: u8, completed: bool): Tables {
    if 1 <= messageId <= |t.messages| then
      var row := t.messages[messageId - 1];
      t.(messages := t.messages[messageId - 1 := row.(status := Some(status), completed := completed || row.completed)])
    else t
  }

  /** The rows that a report with this address may be about. */
  predicate IsOpen(row: Row, address: Address) {
    && !row.completed && row.isOutgoing
    && row.phoneNumber == address.phoneNumber && row.reference == Some(address.reference)
  }

  /** `get_delivery_report_target_message`: the newest open row with this address, if there is one. */
  function Target(messages: seq<Row>, address: Address): (r: Option<nat>)
    ensures r.Some? ==>
      && 1 <= r.value <= |messages| && IsOpen(messages[r.value - 1], address)
      && (forall i :: r.value <= i < |messages| ==> !IsOpen(messages[i], address))
    ensures r.None? ==> forall i :: 0 <= i < |messages| ==> !IsOpen(messages[i], address)
    decreases |messages|
  {
    if messages == [] then None
    else if IsOpen(messages[|messages| - 1], address) then Some(|messages|)
    else Target(messages[..|messages| - 1], address)
  }

  // --- storing what was sent ---

  /** What `SMSManager::send_sms` leaves: the tables, a failure recorded for a message, its result. */
  datatype Stored = Stored(tables: Tables, failure: Option<(nat, string)>, result: Result<(Option<nat>, ModemResponse)>)

  /** `message` is the outgoing message as it would be stored, but for its reference. */
  function StoreResponse(t: Tables, message: Row, response: ModemResponse): Stored {
    match response
    case SendResult(reference) =>
      var n := InsertMessage(t, message.(reference := Some(reference)), false);
      Stored(n, None, Ok((Some(|n.messages|), response)))
    case Error(text) =>
      var n := InsertMessage(t, message.(status := None), true);
      Stored(n, Some((|n.messages|, text)), Ok((Some(|n.messages|), response)))
    case _ => Stored(t, None, Err("Got invalid ModemResponse back from sending SMS message!"))
  }

  function StoreSent(t: Tables, message: Row, sent: Result<(bool, Option<ModemResponse>)>): Stored {
    match sent
    case Err(e) => Stored(t, None, Err(e))
    case Ok((success, last)) =>
      match last
      case None => Stored(t, None, Err("Missing any valid SendSMS response!"))
      case Some(response) =>
        if !success then Stored(t, None, Ok((None, response))) else StoreResponse(t, message, response)
  }

  // --- the report handler and the senders, step by step ---

  /** Where `handle_delivery_report` stands. */
  datatype Handler = Ready | Found(messageId: nat, status: u8) | Recorded(messageId: nat, status: u8)

  /** `stored` is the ledger of the rows as they were first stored. */
  datatype State = State(tables: Tables, handler: Handler, stored: seq<Row>)

  datatype Step = Store(message: Row, isFinal: bool) | Receive(report: PartialReport) | Record | Update

  predicate Enabled(s: State, step: Step) {
    match step
    case Store(_, _) => true
    case Receive(_) => s.handler.Ready?
    case Record => s.handler.Found?
    case Update => s.handler.Recorded?
  }

  /** `isFinal` tells which TP-Status values end the delivery (3GPP TS 23.040, section 9.2.3.15). */
  function Perform(s: State, step: Step, isFinal: u8 -> bool): State
    requires Enabled(s, step)
  {
    match step
    case Store(message, final) =>
      s.(tables := InsertMessage(s.tables, message, final), stored := s.stored + [message.(completed := final)])
    case Receive(report) =>
      (match Target(s.tables.messages, AddressOf(report))
       case Some(id) => s.(handler := Found(id, report.status))
       case None => s)
    case Record =>
      s.(tables := InsertDeliveryReport(s.tables, s.handler.messageId, s.handler.status, isFinal(s.handler.status)),
         handler := Recorded(s.handler.messageId, s.handler.status))
    case Update =>
      s.(tables := UpdateMessageStatus(s.tables, s.handler.messageId, s.handler.status, isFinal(s.handler.status)),
         handler := Ready)
  }

  const START := State(Tables([], []), Ready, [])

  /** Any run: steps that are not enabled when their turn comes are passed over. */
  function Run(s: State, steps: seq<Step>, isFinal: u8 -> bool): State
    decreases |steps|
  {
    if steps == [] then s
    else Run(if Enabled(s, steps[0]) then Perform(s, steps[0], isFinal) else s, steps[1..], isFinal)
  }

  /** The reports stored for a message, oldest first. */
  function ReportsOf(reports: seq<Report>, messageId: nat): seq<Report>
    decreases |reports|
  {
    if reports == [] then []
    else
      var last := reports[|reports| - 1];
      ReportsOf(reports[..|reports| - 1], messageId) + if last.messageId == messageId then [last] else []
  }

  lemma ReportsAppend(reports: seq<Report>, report: Report, messageId: nat)
    ensures ReportsOf(reports + [report], messageId) ==
      ReportsOf(reports, messageId) + if report.messageId == messageId then [report] else []
  {
    assert (reports + [report])[..|reports|] == reports;
  }

  lemma {:induction false} NoReports(reports: seq<Report>, messageId: nat)
    requires forall r :: r in reports ==> r.messageId != messageId
    ensures ReportsOf(reports, messageId) == []
    decreases |reports|
  {
    if reports != [] {
      assert reports[|reports| - 1] in reports;
      NoReports(reports[..|reports| - 1], messageId);
    }
  }

  /** The row is as first stored, up to the effects of the reports in `applied`. */
  predicate Reflects(row: Row, first: Row, applied: seq<Report>) {
    var last := |applied| - 1;
    && row == first.(status := row.status, completed := row.completed)
    && row.status == (if applied == [] then first.status else Some(applied[last].status))
    && (row.completed <==> first.completed || (applied != [] && applied[last].isFinal))
  }

  /** Only the last report of a message can be final, and a message stored as final has none. */
  predicate OnlyLastFinal(first: Row, reports: seq<Report>) {
    && (forall i :: 0 <= i < |reports| - 1 ==> !reports[i].isFinal)
    && (reports != [] ==> !first.completed && first.isOutgoing)
  }

  /** What holds of one message; `recorded` says that its last report has not been applied yet. */
  predicate MessageInv(row: Row, first: Row, reports: seq<Report>, recorded: bool) {
    && OnlyLastFinal(first, reports)
    && (recorded ==> reports != [] && !row.completed)
    && Reflects(row, first, if recorded then reports[..|reports| - 1] else reports)
  }

  predicate IsRecorded(handler: Handler, messageId: nat) {
    handler.Recorded? && handler.messageId == messageId
  }

  /** The handler's message is an open outgoing one. */
  predicate HandlerInv(s: State, isFinal: u8 -> bool) {
    s.handler.Ready? ||
    (var id := s.handler.messageId;
     && 1 <= id <= |s.tables.messages| && !s.tables.messages[id - 1].completed && s.tables.messages[id - 1].isOutgoing
     && (s.handler.Recorded? ==>
           var mine := ReportsOf(s.tables.reports, id);
           mine != [] && mine[|mine| - 1] == Report(id, s.handler.status, isFinal(s.handler.status))))
  }

  predicate ReportsInv(t: Tables, isFinal: u8 -> bool) {
    forall r :: r in t.reports ==> 1 <= r.messageId <= |t.messages| && r.isFinal == isFinal(r.status)
  }

  ghost predicate MessagesInv(s: State) {
    && |s.stored| == |s.tables.messages|
    && (forall id {:trigger ReportsOf(s.tables.reports, id)} :: 1 <= id <= |s.stored| ==>
          MessageInv(s.tables.messages[id - 1], s.stored[id - 1],
                     ReportsOf(s.tables.reports, id), IsRecorded(s.handler, id)))
  }

  ghost predicate Inv(s: State, isFinal: u8 -> bool) {
    HandlerInv(s, isFinal) && ReportsInv(s.tables, isFinal) && MessagesInv(s)
  }

  lemma StoreInv(s: State, message: Row, final: bool, isFinal: u8 -> bool)
    requires Inv(s, isFinal)
    ensures Inv(Perform(s, Store(message, final), isFinal), isFinal)
  {
    NoReports(s.tables.reports, |s.stored| + 1);
  }

  lemma ReceiveInv(s: State, report: PartialReport, isFinal: u8 -> bool)
    requires Inv(s, isFinal) && s.handler.Ready?
    ensures Inv(Perform(s, Receive(report), isFinal), isFinal)
  {
  }

  lemma RecordOne(row: Row, first: Row, mine: seq<Report>, report: Report)
    requires MessageInv(row, first, mine, false) && !row.completed && row.isOutgoing
    ensures MessageInv(row, first, mine + [report], true)
  {
    assert (mine + [report])[..|mine|] == mine;
  }

  lemma RecordMessage(s: State, isFinal: u8 -> bool, id: nat)
    requires Inv(s, isFinal) && s.handler.Found? && 1 <= id <= |s.stored|
    ensures var n := Perform(s, Record, isFinal);
      MessageInv(s.tables.messages[id - 1], s.stored[id - 1],
                 ReportsOf(n.tables.reports, id), IsRecorded(n.handler, id))
  {
    var target := s.handler.messageId;
    var report := Report(target, s.handler.status, isFinal(s.handler.status));
    var mine := ReportsOf(s.tables.reports, id);
    ReportsAppend(s.tables.reports, report, id);
    if id == target {
      RecordOne(s.tables.messages[id - 1], s.stored[id - 1], mine, report);
    } else {
      assert mine + [] == mine;
    }
  }

  lemma RecordMessages(s: State, isFinal: u8 -> bool)
    requires Inv(s, isFinal) && s.handler.Found?
    ensures MessagesInv(Perform(s, Record, isFinal))
  {
    var n := Perform(s, Record, isFinal);
    forall id | 1 <= id <= |n.stored|
      ensures MessageInv(n.tables.messages[id - 1], n.stored[id - 1],
                         ReportsOf(n.tables.reports, id), IsRecorded(n.handler, id))
    {
      RecordMessage(s, isFinal, id);
    }
  }

  lemma RecordInv(s: State, isFinal: u8 -> bool)
    requires Inv(s, isFinal) && s.handler.Found?
    ensures Inv(Perform(s, Record, isFinal), isFinal)
  {
    var n := Perform(s, Record, isFinal);
    RecordMessages(s, isFinal);
    assert HandlerInv(n, isFinal) by {
      var id := s.handler.messageId;
      ReportsAppend(s.tables.reports, Report(id, s.handler.status, isFinal(s.handler.status)), id);
    }
  }

  lemma UpdateInv(s: State, isFinal: u8 -> bool)
    requires Inv(s, isFinal) && s.handler.Recorded?
    ensures Inv(Perform(s, Update, isFinal), isFinal)
  {
    var n := Perform(s, Update, isFinal);
    forall id | 1 <= id <= |s.stored|
      ensures MessageInv(n.tables.messages[id - 1], n.stored[id - 1],
                         ReportsOf(n.tables.reports, id), IsRecorded(n.handler, id))
    {
    }
  }

  lemma StepInv(s: State, step: Step, isFinal: u8 -> bool)
    requires Inv(s, isFinal) && Enabled(s, step)
    ensures Inv(Perform(s, step, isFinal), isFinal)
  {
    match step
    case Store(message, final) => StoreInv(s, message, final, isFinal);
    case Receive(report) => ReceiveInv(s, report, isFinal);
    case Record => RecordInv(s, isFinal);
    case Update => UpdateInv(s, isFinal);
  }

  lemma {:induction false} RunInv(s: State, steps: seq<Step>, isFinal: u8 -> bool)
    requires Inv(s, isFinal)
    ensures Inv(Run(s, steps, isFinal), isFinal)
    decreases |steps|
  {
    if steps != [] {
      if Enabled(s, steps[0]) { StepInv(s, steps[0], isFinal); }
      RunInv(if Enabled(s, steps[0]) then Perform(s, steps[0], isFinal) else s, steps[1..], isFinal);
    }
  }

  /**
   The ledger of deliveries, on every run: between reports each message has at most one final
   report, which is its last; a message sent is completed exactly if it has one; its status is that
   of its last report, or the one it was stored with; and nothing else of it ever changes.
   */
  lemma DeliveryLedger(steps: seq<Step>, isFinal: u8 -> bool, id: nat)
    ensures var s := Run(START, steps, isFinal);
      1 <= id <= |s.tables.messages| && s.handler.Ready? ==>
        && |s.stored| == |s.tables.messages|
        && var row := s.tables.messages[id - 1];
           var first := s.stored[id - 1];
           var mine := ReportsOf(s.tables.reports, id);
           && (forall i :: 0 <= i < |mine| - 1 ==> !mine[i].isFinal)
           && (forall r :: r in mine ==> r.isFinal == isFinal(r.status))
           && (row.completed <==> first.completed || (mine != [] && mine[|mine| - 1].isFinal))
           && row.status == (if mine == [] then first.status else Some(mine[|mine| - 1].status))
           && row == first.(status := row.status, completed := row.completed)
  {
    RunInv(START, steps, isFinal);
    var s := Run(START, steps, isFinal);
    ReportsAmong(s.tables.reports, id);
  }

  lemma {:induction false} ReportsAmong(reports: seq<Report>, id: nat)
    ensures forall r :: r in ReportsOf(reports, id) ==> r in reports && r.messageId == id
    decreases |reports|
  {
    if reports != [] {
      ReportsAmong(reports[..|reports| - 1], id);
    }
  }

  // --- completion is for good ---

  /** The rows of one are kept in the other, and those completed stay so. */
  predicate KeepsRows(t: Tables, n: Tables) {
    && |t.messages| <= |n.messages|
    && (forall k :: 0 <= k < |t.messages| ==>
          && n.messages[k].phoneNumber == t.messages[k].phoneNumber && n.messages[k].content == t.messages[k].content
          && (t.messages[k].completed ==> n.messages[k].completed))
  }

  /** From whatever state, at whatever point a report stands: nothing opens a row again. */
  lemma {:induction false} CompletedStays(s: State, steps: seq<Step>, isFinal: u8 -> bool)
    ensures KeepsRows(s.tables, Run(s, steps, isFinal).tables)
    decreases |steps|
  {
    if steps != [] {
      var n := if Enabled(s, steps[0]) then Perform(s, steps[0], isFinal) else s;
      assert KeepsRows(s.tables, n.tables);
      CompletedStays(n, steps[1..], isFinal);
    }
  }

  // --- whole reports ---

  /** Sends and whole reports, in the order in which the database sees them. */
  datatype Action = Send(message: Row, isFinal: bool) | Deliver(report: PartialReport)

  /** `handle_delivery_report` with nothing in between: its result is the message found. */
  function HandleReport(t: Tables, report: PartialReport, isFinal: u8 -> bool): (Tables, Option<nat>) {
    match Target(t.messages, AddressOf(report))
    case Some(id) =>
      var final := isFinal(report.status);
      (UpdateMessageStatus(InsertDeliveryReport(t, id, report.status, final), id, report.status, final), Some(id))
    case None => (t, None)
  }

  /** A row that a report is about: open, outgoing, to its number and with its reference. */
  predicate IsMeant(row: Row, report: PartialReport) {
    && !row.completed && row.isOutgoing
    && row.phoneNumber == report.phoneNumber && row.reference == Some(report.reference)
  }

  /** `found` is the newest row that the report is about, if and only if there is one. */
  predicate IsNewestMeant(messages: seq<Row>, report: PartialReport, found: Option<nat>) {
    match found
    case Some(id) =>
      && 1 <= id <= |messages| && IsMeant(messages[id - 1], report)
      && (forall i :: id <= i < |messages| ==> !IsMeant(messages[i], report))
    case None => forall i :: 0 <= i < |messages| ==> !IsMeant(messages[i], report)
  }

  lemma FindsNewest(messages: seq<Row>, report: PartialReport)
    ensures IsNewestMeant(messages, report, Target(messages, AddressOf(report)))
  {
    assert forall row :: IsMeant(row, report) <==> IsOpen(row, AddressOf(report));
  }

  /**
   A report finds the newest row it is about. It is recorded for that row, whose status becomes the
   report's, and which is completed if the report is final; without such a row nothing changes.
   */
  lemma ReportApplied(t: Tables, report: PartialReport, isFinal: u8 -> bool)
    ensures var (n, found) := HandleReport(t, report, isFinal);
      && IsNewestMeant(t.messages, report, found)
      && (match found
          case None => n == t
          case Some(id) =>
            var row := t.messages[id - 1];
            var final := isFinal(report.status);
            && n.reports == t.reports + [Report(id, report.status, final)]
            && n.messages == t.messages[id - 1 := row.(status := Some(report.status), completed := final)])
  {
    FindsNewest(t.messages, report);
  }

  /** So does the first of the handler's steps, with whatever is stored before the others. */
  lemma ReceiveFinds(s: State, report: PartialReport, isFinal: u8 -> bool)
    requires s.handler.Ready?
    ensures var n := Perform(s, Receive(report), isFinal);
      && n.tables == s.tables && n.stored == s.stored
      && (match n.handler
          case Ready => IsNewestMeant(s.tables.messages, report, None)
          case Found(id, status) => status == report.status && IsNewestMeant(s.tables.messages, report, Some(id))
          case Recorded(_, _) => false)
  {
    FindsNewest(s.tables.messages, report);
  }

  /** The three steps of the handler, uninterrupted, are `HandleReport`. */
  lemma StepsHandleReport(s: State, report: PartialReport, isFinal: u8 -> bool)
    requires s.handler.Ready?
    ensures Run(s, [Receive(report), Record, Update], isFinal)
      == s.(tables := HandleReport(s.tables, report, isFinal).0)
  {
    var a := Perform(s, Receive(report), isFinal);
    assert [Receive(report), Record, Update][1..] == [Record, Update];
    assert [Record, Update][1..] == [Update] && [Update][1..] == [];
    assert Run(s, [Receive(report), Record, Update], isFinal) == Run(a, [Record, Update], isFinal);
    if a.handler.Found? {
      var b := Perform(a, Record, isFinal);
      assert Run(a, [Record, Update], isFinal) == Run(b, [Update], isFinal);
      assert Run(b, [Update], isFinal) == Run(Perform(b, Update, isFinal), [], isFinal);
    } else {
      assert Run(a, [Record, Update], isFinal) == Run(a, [Update], isFinal);
    }
  }

  function Act(t: Tables, action: Action, isFinal: u8 -> bool): Tables {
    match action
    case Send(message, final) => InsertMessage(t, message, final)
    case Deliver(report) => HandleReport(t, report, isFinal).0
  }

  function ActAll(t: Tables, actions: seq<Action>, isFinal: u8 -> bool): Tables
    decreases |actions|
  {
    if actions == [] then t else ActAll(Act(t, actions[0], isFinal), actions[1..], isFinal)
  }

  predicate IsReportFor(action: Action, address: Address) {
    && action.Deliver? && action.report.phoneNumber == address.phoneNumber
    && action.report.reference == address.reference
  }

  // --- interleaved handling is handling in one step ---

  /** The tables once the report in hand, if any, is recorded and applied. */
  function Settled(s: State, isFinal: u8 -> bool): Tables {
    match s.handler
    case Ready => s.tables
    case Found(id, status) =>
      UpdateMessageStatus(InsertDeliveryReport(s.tables, id, status, isFinal(status)), id, status, isFinal(status))
    case Recorded(id, status) => UpdateMessageStatus(s.tables, id, status, isFinal(status))
  }

  /** What a step amounts to: a report takes its place where its message is found. */
  function Effect(s: State, step: Step): seq<Action> {
    match step
    case Store(message, final) => [Send(message, final)]
    case Receive(report) => if s.handler.Ready? then [Deliver(report)] else []
    case Record => []
    case Update => []
  }

  function Effects(s: State, steps: seq<Step>, isFinal: u8 -> bool): seq<Action>
    decreases |steps|
  {
    if steps == [] then []
    else Effect(s, steps[0])
         + Effects(if Enabled(s, steps[0]) then Perform(s, steps[0], isFinal) else s, steps[1..], isFinal)
  }

  lemma StoreSettled(s: State, message: Row, final: bool, isFinal: u8 -> bool)
    requires HandlerInv(s, isFinal)
    ensures Settled(Perform(s, Store(message, final), isFinal), isFinal)
      == InsertMessage(Settled(s, isFinal), message, final)
  {
    if !s.handler.Ready? {
      var id := s.handler.messageId;
      var row := message.(completed := final);
      var updated := UpdateMessageStatus(s.tables, id, s.handler.status, isFinal(s.handler.status)).messages[id - 1];
      assert (s.tables.messages + [row])[id - 1 := updated] == s.tables.messages[id - 1 := updated] + [row];
    }
  }

  lemma StepSettled(s: State, step: Step, isFinal: u8 -> bool)
    requires HandlerInv(s, isFinal) && Enabled(s, step)
    ensures Settled(Perform(s, step, isFinal), isFinal) == ActAll(Settled(s, isFinal), Effect(s, step), isFinal)
  {
    if step.Store? {
      StoreSettled(s, step.message, step.isFinal, isFinal);
    }
  }

  lemma {:induction false} ActConcat(t: Tables, a: seq<Action>, b: seq<Action>, isFinal: u8 -> bool)
    ensures ActAll(t, a + b, isFinal) == ActAll(ActAll(t, a, isFinal), b, isFinal)
    decreases |a|
  {
    if a == [] {
      assert a + b == b;
    } else {
      assert (a + b)[1..] == a[1..] + b;
      ActConcat(Act(t, a[0], isFinal), a[1..], b, isFinal);
    }
  }

  /**
   Reports handled in three calls with sends between them amount to whole reports: each completes
   the message that was the newest open one when it was received, whatever was sent before its last
   call. So the stack of open messages and its draining hold of every interleaving.
   */
  lemma {:induction false} RunIsActions(s: State, steps: seq<Step>, isFinal: u8 -> bool)
    requires Inv(s, isFinal)
    ensures Settled(Run(s, steps, isFinal), isFinal)
      == ActAll(Settled(s, isFinal), Effects(s, steps, isFinal), isFinal)
    decreases |steps|
  {
    if steps != [] {
      if Enabled(s, steps[0]) {
        var n := Perform(s, steps[0], isFinal);
        StepInv(s, steps[0], isFinal);
        StepSettled(s, steps[0], isFinal);
        RunIsActions(n, steps[1..], isFinal);
        ActConcat(Settled(s, isFinal), Effect(s, steps[0]), Effects(n, steps[1..], isFinal), isFinal);
      } else {
        RunIsActions(s, steps[1..], isFinal);
        assert [] + Effects(s, steps[1..], isFinal) == Effects(s, steps[1..], isFinal);
      }
    }
  }

  // --- newest first ---

  /** The messages that the reports with this address find, in order. */
  function Targets(t: Tables, actions: seq<Action>, address: Address, isFinal: u8 -> bool): seq<Option<nat>>
    decreases |actions|
  {
    if actions == [] then []
    else
      (if IsReportFor(actions[0], address) then [HandleReport(t, actions[0].report, isFinal).1] else [])
      + Targets(Act(t, actions[0], isFinal), actions[1..], address, isFinal)
  }

  /** The open messages with this address, newest first. */
  function Open(messages: seq<Row>, address: Address): seq<nat>
    decreases |messages|
  {
    if messages == [] then []
    else
      (if IsOpen(messages[|messages| - 1], address) then [|messages|] else [])
      + Open(messages[..|messages| - 1], address)
  }

  predicate Descending(ids: seq<nat>) {
    forall i, j :: 0 <= i < j < |ids| ==> ids[i] > ids[j]
  }

  lemma {:induction false} OpenMembers(messages: seq<Row>, address: Address)
    ensures forall id :: id in Open(messages, address) <==>
              && 1 <= id <= |messages| && var row := messages[id - 1];
                 && !row.completed && row.isOutgoing
                 && row.phoneNumber == address.phoneNumber && row.reference == Some(address.reference)
    ensures Descending(Open(messages, address))
    decreases |messages|
  {
    if messages != [] {
      var before := messages[..|messages| - 1];
      OpenMembers(before, address);
      var open := Open(before, address);
      assert forall i :: 0 <= i < |open| ==> open[i] in open;
    }
  }

  lemma OpenDescends(messages: seq<Row>, address: Address)
    ensures Descending(Open(messages, address))
  {
    OpenMembers(messages, address);
  }

  lemma {:induction false} TargetIsFirstOpen(messages: seq<Row>, address: Address)
    ensures var open := Open(messages, address);
      Target(messages, address) == if open == [] then None else Some(open[0])
    decreases |messages|
  {
    if messages != [] && !IsOpen(messages[|messages| - 1], address) {
      TargetIsFirstOpen(messages[..|messages| - 1], address);
    }
  }

  /** The stack of open messages of one address: a send pushes, a final report pops. */
  function StackAfter(open: seq<nat>, next: nat, action: Action, address: Address, isFinal: u8 -> bool): seq<nat> {
    match action
    case Send(message, final) =>
      if IsOpen(message.(completed := final), address) then [next] + open else open
    case Deliver(report) =>
      if IsReportFor(action, address) && isFinal(report.status) && open != [] then open[1..] else open
  }

  function NextId(next: nat, action: Action): nat {
    if action.Send? then next + 1 else next
  }

  /** What the reports of one address find, told by the stack alone. */
  function StackTargets(open: seq<nat>, next: nat, actions: seq<Action>, address: Address, isFinal: u8 -> bool)
    : seq<Option<nat>>
    decreases |actions|
  {
    if actions == [] then []
    else
      (if IsReportFor(actions[0], address) then [if open == [] then None else Some(open[0])] else [])
      + StackTargets(StackAfter(open, next, actions[0], address, isFinal), NextId(next, actions[0]),
                     actions[1..], address, isFinal)
  }

  function StackAfterAll(open: seq<nat>, next: nat, actions: seq<Action>, address: Address, isFinal: u8 -> bool)
    : seq<nat>
    decreases |actions|
  {
    if actions == [] then open
    else StackAfterAll(StackAfter(open, next, actions[0], address, isFinal), NextId(next, actions[0]),
                       actions[1..], address, isFinal)
  }

  /** Changing a row that stays open, or is not, for an address leaves its stack. */
  lemma {:induction false} OpenUnchanged(messages: seq<Row>, k: nat, row: Row, address: Address)
    requires k < |messages| && (IsOpen(row, address) <==> IsOpen(messages[k], address))
    ensures Open(messages[k := row], address) == Open(messages, address)
    decreases |messages|
  {
    var updated := messages[k := row];
    if k < |messages| - 1 {
      assert updated[..|messages| - 1] == messages[..|messages| - 1][k := row];
      OpenUnchanged(messages[..|messages| - 1], k, row, address);
    } else {
      assert updated[..|messages| - 1] == messages[..|messages| - 1];
    }
  }

  /** Closing the newest open row pops it. */
  lemma {:induction false} CloseFirst(messages: seq<Row>, row: Row, address: Address)
    requires Target(messages, address).Some? && !IsOpen(row, address)
    ensures var id := Target(messages, address).value;
      var open := Open(messages, address);
      open != [] && open[0] == id && Open(messages[id - 1 := row], address) == open[1..]
    decreases |messages|
  {
    var id := Target(messages, address).value;
    var updated := messages[id - 1 := row];
    if id < |messages| {
      assert updated[..|messages| - 1] == messages[..|messages| - 1][id - 1 := row];
      CloseFirst(messages[..|messages| - 1], row, address);
    } else {
      assert updated[..|messages| - 1] == messages[..|messages| - 1];
    }
  }

  lemma SendStack(t: Tables, message: Row, final: bool, address: Address, isFinal: u8 -> bool)
    ensures Open(InsertMessage(t, message, final).messages, address)
      == StackAfter(Open(t.messages, address), |t.messages| + 1, Send(message, final), address, isFinal)
  {
    assert InsertMessage(t, message, final).messages[..|t.messages|] == t.messages;
  }

  lemma DeliverStack(t: Tables, report: PartialReport, address: Address, isFinal: u8 -> bool)
    ensures Open(HandleReport(t, report, isFinal).0.messages, address)
      == StackAfter(Open(t.messages, address), |t.messages| + 1, Deliver(report), address, isFinal)
  {
    TargetIsFirstOpen(t.messages, AddressOf(report));
    var target := Target(t.messages, AddressOf(report));
    if target.Some? {
      var row := t.messages[target.value - 1];
      var final := isFinal(report.status);
      var updated := row.(status := Some(report.status), completed := final || row.completed);
      assert HandleReport(t, report, isFinal).0.messages == t.messages[target.value - 1 := updated];
      if IsReportFor(Deliver(report), address) && final {
        CloseFirst(t.messages, updated, address);
      } else {
        OpenUnchanged(t.messages, target.value - 1, updated, address);
      }
    }
  }

  lemma ActStack(t: Tables, action: Action, address: Address, isFinal: u8 -> bool)
    ensures var n := Act(t, action, isFinal);
      var open := Open(t.messages, address);
      && Open(n.messages, address) == StackAfter(open, |t.messages| + 1, action, address, isFinal)
      && |n.messages| + 1 == NextId(|t.messages| + 1, action)
      && (IsReportFor(action, address) ==>
            HandleReport(t, action.report, isFinal).1 == if open == [] then None else Some(open[0]))
  {
    match action
    case Send(message, final) => SendStack(t, message, final, address, isFinal);
    case Deliver(report) =>
      DeliverStack(t, report, address, isFinal);
      TargetIsFirstOpen(t.messages, AddressOf(report));
  }

  /**
   Newest first: whatever else is sent and reported in between, the open messages of one address
   are a stack, on which each send pushes, and whose top each report finds and a final one pops.
   */
  lemma {:induction false} AddressIsStack(t: Tables, actions: seq<Action>, address: Address, isFinal: u8 -> bool)
    ensures var open := Open(t.messages, address);
      var next := |t.messages| + 1;
      && Targets(t, actions, address, isFinal) == StackTargets(open, next, actions, address, isFinal)
      && Open(ActAll(t, actions, isFinal).messages, address) == StackAfterAll(open, next, actions, address, isFinal)
    decreases |actions|
  {
    if actions != [] {
      ActStack(t, actions[0], address, isFinal);
      AddressIsStack(Act(t, actions[0], isFinal), actions[1..], address, isFinal);
    }
  }

  // --- draining ---

  /** No message with this address is sent. */
  predicate NoSends(actions: seq<Action>, address: Address) {
    forall a :: a in actions && a.Send? ==> !IsOpen(a.message.(completed := a.isFinal), address)
  }

  function FinalReports(actions: seq<Action>, address: Address, isFinal: u8 -> bool): nat {
    if actions == [] then 0
    else (if IsReportFor(actions[0], address) && isFinal(actions[0].report.status) then 1 else 0)
         + FinalReports(actions[1..], address, isFinal)
  }

  /** The i-th message to be completed, while there is one. */
  function NthOpen(open: seq<nat>, i: nat): Option<nat> {
    if i < |open| then Some(open[i]) else None
  }

  /** For each report with this address, the open message after those the final reports before it took. */
  function DrainTargets(open: seq<nat>, taken: nat, actions: seq<Action>, address: Address, isFinal: u8 -> bool)
    : seq<Option<nat>>
    decreases |actions|
  {
    if actions == [] then []
    else if IsReportFor(actions[0], address) then
      [NthOpen(open, taken)]
      + DrainTargets(open, if isFinal(actions[0].report.status) then taken + 1 else taken,
                     actions[1..], address, isFinal)
    else DrainTargets(open, taken, actions[1..], address, isFinal)
  }

  function Left(open: seq<nat>, taken: nat): seq<nat> {
    if taken <= |open| then open[taken..] else []
  }

  lemma {:induction false} StackDrains(open: seq<nat>, taken: nat, next: nat, actions: seq<Action>, address: Address,
                                       isFinal: u8 -> bool)
    requires NoSends(actions, address)
    ensures StackTargets(Left(open, taken), next, actions, address, isFinal)
      == DrainTargets(open, taken, actions, address, isFinal)
    ensures StackAfterAll(Left(open, taken), next, actions, address, isFinal)
      == Left(open, taken + FinalReports(actions, address, isFinal))
    decreases |actions|
  {
    if actions != [] {
      var action := actions[0];
      var pops := IsReportFor(action, address) && isFinal(action.report.status);
      assert action.Send? ==> !IsOpen(action.message.(completed := action.isFinal), address);
      assert StackAfter(Left(open, taken), next, action, address, isFinal)
        == Left(open, if pops then taken + 1 else taken);
      StackDrains(open, if pops then taken + 1 else taken, NextId(next, action), actions[1..], address, isFinal);
    }
  }

  /** `open` as a stack nothing is pushed on: the final reports take it from the top. */
  lemma DrainStack(open: seq<nat>, next: nat, actions: seq<Action>, address: Address, isFinal: u8 -> bool)
    requires NoSends(actions, address)
    ensures StackTargets(open, next, actions, address, isFinal) == DrainTargets(open, 0, actions, address, isFinal)
    ensures StackAfterAll(open, next, actions, address, isFinal)
      == Left(open, FinalReports(actions, address, isFinal))
  {
    StackDrains(open, 0, next, actions, address, isFinal);
    assert Left(open, 0) == open;
  }

  /**
   Draining: while no message with the address is sent, each report with it finds the newest
   message not yet taken by a final one, so final reports complete the open messages once each,
   newest first, non-final ones leave the target, and once all are taken reports find none.
   */
  lemma Draining(t: Tables, actions: seq<Action>, address: Address, isFinal: u8 -> bool)
    requires NoSends(actions, address)
    ensures var open := Open(t.messages, address);
      && Descending(open)
      && Targets(t, actions, address, isFinal) == DrainTargets(open, 0, actions, address, isFinal)
      && Open(ActAll(t, actions, isFinal).messages, address) == Left(open, FinalReports(actions, address, isFinal))
  {
    OpenDescends(t.messages, address);
    AddressIsStack(t, actions, address, isFinal);
    DrainStack(Open(t.messages, address), |t.messages| + 1, actions, address, isFinal);
  }
}
