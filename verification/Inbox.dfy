/**
 From bytes to tables: the parts of a message, notified in any transcripts, between any other notices
 and cut into any reads, are decoded, sent on, put together and stored as one; delivery reports are
 decoded, sent on and matched to the messages sent.
 */
module Inbox {
  import opened Text
  import opened Chunking
  import opened Types
  import opened Handlers
  import opened StateMachine
  import opened Interleaving
  import opened EndToEnd
  import opened Multipart
  import opened Reception
  import Deliveries
  import Receiver

  // --- what notices send on ---

  /** What the modem notified among the messages sent; the others are the worker's status updates. */
  function Passed(sent: seq<ModemIncomingMessage>): seq<ModemIncomingMessage> {
    if sent == [] then []
    else (if sent[0].ModemStatusUpdate? then [] else [sent[0]]) + Passed(sent[1..])
  }

  /** The messages among those sent to the program ... */
  function SmsOf(sent: seq<ModemIncomingMessage>): seq<IncomingSms> {
    if sent == [] then []
    else (if sent[0].SmsReceived? then [sent[0].sms] else []) + SmsOf(sent[1..])
  }

  /** ... and the delivery reports. */
  function ReportsIn(sent: seq<ModemIncomingMessage>): seq<PartialReport> {
    if sent == [] then []
    else (if sent[0].ReportReceived? then [sent[0].report] else []) + ReportsIn(sent[1..])
  }

  lemma {:induction false} PassedConcat(a: seq<ModemIncomingMessage>, b: seq<ModemIncomingMessage>)
    ensures Passed(a + b) == Passed(a) + Passed(b)
  {
    if a == [] {
      assert a + b == b;
    } else {
      assert (a + b)[1..] == a[1..] + b;
      PassedConcat(a[1..], b);
      Reassociate(if a[0].ModemStatusUpdate? then [] else [a[0]], Passed(a[1..]), Passed(b));
    }
  }

  lemma {:induction false} SmsOfConcat(a: seq<ModemIncomingMessage>, b: seq<ModemIncomingMessage>)
    ensures SmsOf(a + b) == SmsOf(a) + SmsOf(b)
  {
    if a == [] {
      assert a + b == b;
    } else {
      assert (a + b)[1..] == a[1..] + b;
      SmsOfConcat(a[1..], b);
      Reassociate(if a[0].SmsReceived? then [a[0].sms] else [], SmsOf(a[1..]), SmsOf(b));
    }
  }

  lemma {:induction false} ReportsInConcat(a: seq<ModemIncomingMessage>, b: seq<ModemIncomingMessage>)
    ensures ReportsIn(a + b) == ReportsIn(a) + ReportsIn(b)
  {
    if a == [] {
      assert a + b == b;
    } else {
      assert (a + b)[1..] == a[1..] + b;
      ReportsInConcat(a[1..], b);
      Reassociate(if a[0].ReportReceived? then [a[0].report] else [], ReportsIn(a[1..]), ReportsIn(b));
    }
  }

  /** Both are among what is passed on. */
  lemma {:induction false} OfPassed(sent: seq<ModemIncomingMessage>)
    ensures SmsOf(Passed(sent)) == SmsOf(sent) && ReportsIn(Passed(sent)) == ReportsIn(sent)
  {
    if sent != [] {
      OfPassed(sent[1..]);
      if !sent[0].ModemStatusUpdate? {
        assert Passed(sent)[1..] == Passed(sent[1..]);
      } else {
        assert Passed(sent) == Passed(sent[1..]);
      }
    }
  }

  /** The message that a block notifies, if it does and can be decoded. */
  function Notified(b: Block, decoder: Decoder): seq<IncomingSms> {
    if b.NotificationWithPayload? && FromHeader(Trim(b.header)) == Some(IncomingSMS) then
      match decoder.sms(Trim(b.payload))
      case Some(sms) => [WithRealNumber(sms)]
      case None => []
    else []
  }

  function AllNotified(blocks: seq<Block>, decoder: Decoder): seq<IncomingSms> {
    if blocks == [] then [] else Notified(blocks[0], decoder) + AllNotified(blocks[1..], decoder)
  }

  /** The delivery report that a block notifies. */
  function Reported(b: Block, decoder: Decoder): seq<PartialReport> {
    if b.NotificationWithPayload? && FromHeader(Trim(b.header)) == Some(DeliveryReport) then
      match decoder.report(Trim(b.payload))
      case Some(report) => [report.(phoneNumber := GetRealNumber(report.phoneNumber))]
      case None => []
    else []
  }

  function AllReported(blocks: seq<Block>, decoder: Decoder): seq<PartialReport> {
    if blocks == [] then [] else Reported(blocks[0], decoder) + AllReported(blocks[1..], decoder)
  }

  function PassedBy(kind: UnsolicitedMessageKind, content: string, decoder: Decoder): seq<ModemIncomingMessage> {
    match HandleUnsolicitedMessage(kind, content, decoder)
    case Emit(message) => [message]
    case _ => []
  }

  /** What a notice passes on, of whatever kind. */
  function BlockPasses(b: Block, decoder: Decoder): seq<ModemIncomingMessage> {
    if b.Plain? || FromHeader(Trim(b.header)).None? then []
    else PassedBy(FromHeader(Trim(b.header)).value, Trim(if b.Notification? then b.header else b.payload), decoder)
  }

  function AllPassed(blocks: seq<Block>, decoder: Decoder): seq<ModemIncomingMessage> {
    if blocks == [] then [] else BlockPasses(blocks[0], decoder) + AllPassed(blocks[1..], decoder)
  }

  lemma UnsolicitedPasses(m: Machine, kind: UnsolicitedMessageKind, content: string, decoder: Decoder)
    ensures Passed(HandleUnsolicited(m, kind, content, decoder).sent)
      == Passed(m.sent) + PassedBy(kind, content, decoder)
  {
    var effect := HandleUnsolicitedMessage(kind, content, decoder);
    if effect.Emit? {
      PassedConcat(m.sent, [effect.message]);
      assert [effect.message][1..] == [];
    }
  }

  lemma BlockPassesOn(m: Machine, b: Block, decoder: Decoder, gone: set<nat>)
    requires !m.state.Unsolicited? && Interleaving.WellFormed(b) && !b.Plain?
    ensures var n := HandleLines(m, BlockEvents(b), decoder, gone);
      Passed(n.sent) == Passed(m.sent) + BlockPasses(b, decoder) && n.state == m.state
  {
    BlockStep(m, b, decoder, gone);
    var kind := FromHeader(Trim(b.header)).value;
    var content := Trim(if b.Notification? then b.header else b.payload);
    UnsolicitedPasses(m, kind, content, decoder);
    UnsolicitedKeeps(m, kind, content, decoder);
  }

  /** What is passed on from a stream of notices is what they notify, in order. */
  lemma {:induction false} StreamPasses(m: Machine, blocks: seq<Block>, decoder: Decoder, gone: set<nat>)
    requires !m.state.Unsolicited? && AllWellFormed(blocks) && forall b :: b in blocks ==> !b.Plain?
    ensures Passed(HandleLines(m, Stream(blocks), decoder, gone).sent) == Passed(m.sent) + AllPassed(blocks, decoder)
    decreases |blocks|
  {
    if blocks == [] {
      assert Passed(m.sent) + [] == Passed(m.sent);
    } else {
      var b, more := blocks[0], blocks[1..];
      assert b in blocks;
      var n := HandleLines(m, BlockEvents(b), decoder, gone);
      HandleLinesConcat(m, BlockEvents(b), Stream(more), decoder, gone);
      BlockPassesOn(m, b, decoder, gone);
      StreamPasses(n, more, decoder, gone);
      Reassociate(Passed(m.sent), BlockPasses(b, decoder), AllPassed(more, decoder));
    }
  }

  lemma OfBlock(b: Block, decoder: Decoder)
    requires Interleaving.WellFormed(b)
    ensures SmsOf(BlockPasses(b, decoder)) == Notified(b, decoder)
    ensures ReportsIn(BlockPasses(b, decoder)) == Reported(b, decoder)
  {
    var passed := BlockPasses(b, decoder);
    if passed != [] { assert passed[1..] == []; }
  }

  /** The messages and the reports among it are those notified. */
  lemma {:induction false} OfAllPassed(blocks: seq<Block>, decoder: Decoder)
    requires AllWellFormed(blocks)
    ensures SmsOf(AllPassed(blocks, decoder)) == AllNotified(blocks, decoder)
    ensures ReportsIn(AllPassed(blocks, decoder)) == AllReported(blocks, decoder)
  {
    if blocks != [] {
      var b, more := blocks[0], blocks[1..];
      assert b in blocks;
      OfBlock(b, decoder);
      OfAllPassed(more, decoder);
      SmsOfConcat(BlockPasses(b, decoder), AllPassed(more, decoder));
      ReportsInConcat(BlockPasses(b, decoder), AllPassed(more, decoder));
    }
  }

  lemma {:induction false} NotificationsOnly(blocks: seq<Block>)
    requires AllWellFormed(blocks)
    ensures AllWellFormed(Notifications(blocks)) && forall b :: b in Notifications(blocks) ==> !b.Plain?
  {
    if blocks != [] {
      assert blocks[0] in blocks;
      NotificationsOnly(blocks[1..]);
    }
  }

  // --- the parts of one message ---

  /** The messages that the receiver is given, in order. */
  function Received(events: seq<Event>): seq<IncomingSms> {
    if events == [] then []
    else (if events[0].Receive? then [events[0].sms] else []) + Received(events[1..])
  }

  function PartsFor(key: Key, messages: seq<IncomingSms>): seq<IncomingSms> {
    if messages == [] then []
    else (if HasKey(messages[0], key) then [messages[0]] else []) + PartsFor(key, messages[1..])
  }

  function ArrivalsOf(key: Key, events: seq<Event>): seq<Arrival> {
    if events == [] then []
    else
      (if IsPart(events[0], key) then [Arrival(events[0].sms, events[0].sms.header.value.index, events[0].now)] else [])
      + ArrivalsOf(key, events[1..])
  }

  /** The arrivals bring these parts, one each. */
  predicate Brought(arrivals: seq<Arrival>, parts: seq<IncomingSms>) {
    && |arrivals| == |parts|
    && (forall i :: 0 <= i < |parts| ==>
          && parts[i].header.Some? && arrivals[i].message == parts[i]
          && arrivals[i].index == parts[i].header.value.index)
  }

  lemma {:induction false} ArrivalsBring(key: Key, events: seq<Event>)
    ensures Brought(ArrivalsOf(key, events), PartsFor(key, Received(events)))
    decreases |events|
  {
    if events != [] {
      var e, more := events[0], events[1..];
      ArrivalsBring(key, more);
      if e.Receive? {
        assert Received(events)[1..] == Received(more);
      } else {
        assert Received(events) == Received(more);
      }
    }
  }

  /** Each part brings the text of its place: an index i the i-th text, and an index 0 the first. */
  predicate BringTexts(parts: seq<IncomingSms>, texts: seq<string>) {
    forall p :: p in parts ==>
      && p.header.Some? && p.header.value.total == |texts|
      && var index := p.header.value.index;
         && (1 <= index <= |texts| ==> Stripped(p.content) == texts[index - 1])
         && (index == 0 && texts != [] ==> Stripped(p.content) == texts[0])
  }

  /** The i-th part is there: an index i, or 0 for the first. */
  predicate Has(parts: seq<IncomingSms>, i: nat) {
    exists p :: p in parts && p.header.Some? && (p.header.value.index == i || (p.header.value.index == 0 && i == 1))
  }

  predicate HasAll(parts: seq<IncomingSms>, total: nat) {
    forall i :: 1 <= i <= total ==> Has(parts, i)
  }

  /** All parts are there, and without the last one they are not. */
  predicate JustComplete(parts: seq<IncomingSms>, total: nat) {
    parts != [] && HasAll(parts, total) && !HasAll(parts[..|parts| - 1], total)
  }

  lemma HasArrived(arrivals: seq<Arrival>, parts: seq<IncomingSms>, i: nat)
    requires Brought(arrivals, parts)
    ensures Arrived(arrivals, i) <==> Has(parts, i)
  {
    if Arrived(arrivals, i) {
      var x :| x in arrivals && (x.index == i || (x.index == 0 && i == 1));
      var k :| 0 <= k < |arrivals| && arrivals[k] == x;
      assert parts[k] in parts;
    }
    if Has(parts, i) {
      var p :| p in parts && p.header.Some? && (p.header.value.index == i || (p.header.value.index == 0 && i == 1));
      var k :| 0 <= k < |parts| && parts[k] == p;
      assert arrivals[k] in arrivals;
    }
  }

  /** The assembly is complete after the last arrival and not before. */
  predicate CompletesLast(a: Assembly, arrivals: seq<Arrival>) {
    && IsComplete(AddAll(a, arrivals))
    && (forall k :: 0 < k < |arrivals| ==> !IsComplete(AddAll(a, arrivals[..k])))
  }

  lemma PrefixHasAll(parts: seq<IncomingSms>, j: nat, k: nat, total: nat)
    requires j <= k <= |parts| && HasAll(parts[..j], total)
    ensures HasAll(parts[..k], total)
  {
    forall i | 1 <= i <= total ensures Has(parts[..k], i) {
      assert Has(parts[..j], i);
      assert forall p :: p in parts[..j] ==> p in parts[..k];
    }
  }

  lemma NotYet(total: nat, start: nat, arrivals: seq<Arrival>, parts: seq<IncomingSms>, k: nat)
    requires Brought(arrivals, parts) && JustComplete(parts, total) && 0 < k < |arrivals|
    ensures !IsComplete(AddAll(WithCapacity(total, start), arrivals[..k]))
  {
    AssembledContent(total, start, arrivals[..k]);
    if IsComplete(AddAll(WithCapacity(total, start), arrivals[..k])) {
      forall i | 1 <= i <= total ensures Has(parts[..k], i) {
        assert Arrived(arrivals[..k], i);
        HasArrived(arrivals[..k], parts[..k], i);
      }
      PrefixHasAll(parts, k, |parts| - 1, total);
    }
  }

  lemma AllHaveArrived(total: nat, arrivals: seq<Arrival>, parts: seq<IncomingSms>)
    requires Brought(arrivals, parts) && HasAll(parts, total)
    ensures AllArrived(arrivals, total)
  {
    forall i | 1 <= i <= total ensures Arrived(arrivals, i) {
      assert Has(parts, i);
      HasArrived(arrivals, parts, i);
    }
  }

  lemma CompletesWithParts(total: nat, start: nat, arrivals: seq<Arrival>, parts: seq<IncomingSms>)
    requires Brought(arrivals, parts) && JustComplete(parts, total)
    ensures CompletesLast(WithCapacity(total, start), arrivals)
  {
    AllHaveArrived(total, arrivals, parts);
    AssembledContent(total, start, arrivals);
    forall k | 0 < k < |arrivals| ensures !IsComplete(AddAll(WithCapacity(total, start), arrivals[..k])) {
      NotYet(total, start, arrivals, parts, k);
    }
  }

  // --- what becomes of them ---

  function LastResult(placings: seq<Placing>): Option<Result<SmsMessage>> {
    if placings == [] then None else placings[|placings| - 1].result
  }

  lemma {:induction false} NoPlacings(key: Key, group: Option<Assembly>, events: seq<Event>)
    requires ArrivalsOf(key, events) == []
    ensures PlacingsAlone(key, group, events) == []
    decreases |events|
  {
    if events != [] { NoPlacings(key, group, events[1..]); }
  }

  lemma CompletesNext(a: Assembly, arrivals: seq<Arrival>)
    requires |arrivals| > 1 && CompletesLast(a, arrivals)
    ensures var x := arrivals[0];
      var after := AddMessage(a, x.message, x.index, x.now);
      !IsComplete(after) && CompletesLast(after, arrivals[1..]) && AddAll(a, arrivals) == AddAll(after, arrivals[1..])
  {
    var x := arrivals[0];
    var after := AddMessage(a, x.message, x.index, x.now);
    assert arrivals[..1][1..] == [];
    assert AddAll(a, arrivals[..1]) == after;
    forall k | 0 < k < |arrivals[1..]| ensures !IsComplete(AddAll(after, arrivals[1..][..k])) {
      assert arrivals[..k + 1][1..] == arrivals[1..][..k];
      assert !IsComplete(AddAll(a, arrivals[..k + 1]));
    }
  }

  lemma NextArrivals(key: Key, events: seq<Event>)
    requires events != []
    ensures var e, later := events[0], ArrivalsOf(key, events[1..]);
      ArrivalsOf(key, events) ==
        if IsPart(e, key) then [Arrival(e.sms, e.sms.header.value.index, e.now)] + later else later
  {
    assert [] + ArrivalsOf(key, events[1..]) == ArrivalsOf(key, events[1..]);
  }

  /** The only part gives the message. */
  lemma OnlyGivesMessage(key: Key, a: Assembly, events: seq<Event>)
    requires events != [] && IsPart(events[0], key) && ArrivalsOf(key, events[1..]) == []
    requires CompletesLast(a, ArrivalsOf(key, events))
    ensures PlacingsAlone(key, Some(a), events) == [Place(Some(a), events[0])]
    ensures Place(Some(a), events[0]).result == Some(Compile(AddAll(a, ArrivalsOf(key, events))))
  {
    var e := events[0];
    NextArrivals(key, events);
    NoPlacings(key, GroupAfter(Some(a), e), events[1..]);
    assert AddAll(a, ArrivalsOf(key, events)) == AddMessage(a, e.sms, e.sms.header.value.index, e.now);
  }

  /** A group that completes with the last part for it gives the compiled message with that part. */
  lemma {:induction false} LastGivesMessage(key: Key, a: Assembly, events: seq<Event>)
    requires ArrivalsOf(key, events) != [] && CompletesLast(a, ArrivalsOf(key, events))
    ensures PlacingsAlone(key, Some(a), events) != []
    ensures LastResult(PlacingsAlone(key, Some(a), events)) == Some(Compile(AddAll(a, ArrivalsOf(key, events))))
    decreases |events|
  {
    var e, more := events[0], events[1..];
    NextArrivals(key, events);
    if !IsPart(e, key) {
      LastGivesMessage(key, a, more);
    } else if ArrivalsOf(key, more) == [] {
      OnlyGivesMessage(key, a, events);
    } else {
      var group := GroupAfter(Some(a), e);
      CompletesNext(a, ArrivalsOf(key, events));
      assert ArrivalsOf(key, events)[1..] == ArrivalsOf(key, more);
      LastGivesMessage(key, group.value, more);
    }
  }

  lemma {:induction false} PartsAmong(key: Key, events: seq<Event>, e: Event)
    requires e in events && IsPart(e, key)
    ensures e.sms in PartsFor(key, Received(events))
  {
    if e == events[0] {
      assert Received(events)[0] == e.sms;
    } else {
      PartsAmong(key, events[1..], e);
      if events[0].Receive? {
        assert Received(events)[1..] == Received(events[1..]);
      } else {
        assert Received(events) == Received(events[1..]);
      }
    }
  }

  /** The first part begins a group: the placings are those of a group begun with its total and time. */
  lemma {:induction false} FirstBegins(key: Key, events: seq<Event>, total: nat)
    requires ArrivalsOf(key, events) != []
    requires forall e :: e in events && IsPart(e, key) ==> e.sms.header.value.total == total
    ensures var a := WithCapacity(total, ArrivalsOf(key, events)[0].now);
      && LastResult(PlacingsAlone(key, None, events)) == LastResult(PlacingsAlone(key, Some(a), events))
      && |PlacingsAlone(key, None, events)| == |PlacingsAlone(key, Some(a), events)|
    decreases |events|
  {
    var e, more := events[0], events[1..];
    NextArrivals(key, events);
    if IsPart(e, key) {
      assert e in events;
      FirstPlaced(e, total);
    } else {
      FirstBegins(key, more, total);
    }
  }

  lemma FirstPlaced(e: Event, total: nat)
    requires e.Receive? && e.sms.header.Some? && e.sms.header.value.total == total
    ensures var a := WithCapacity(total, e.now);
      Place(None, e).result == Place(Some(a), e).result && GroupAfter(None, e) == GroupAfter(Some(a), e)
  {
  }

  lemma {:induction false} PartsHaveKey(key: Key, messages: seq<IncomingSms>)
    ensures forall p :: p in PartsFor(key, messages) ==> HasKey(p, key)
  {
    if messages != [] { PartsHaveKey(key, messages[1..]); }
  }

  lemma PartsTogether(key: Key, events: seq<Event>, total: nat)
    requires JustComplete(PartsFor(key, Received(events)), total)
    requires forall e :: e in events && IsPart(e, key) ==> e.sms.header.value.total == total
    ensures var arrivals := ArrivalsOf(key, events);
      && arrivals != [] && PlacingsAlone(key, None, events) != []
      && LastResult(PlacingsAlone(key, None, events))
           == Some(Compile(AddAll(WithCapacity(total, arrivals[0].now), arrivals)))
  {
    var arrivals := ArrivalsOf(key, events);
    ArrivalsBring(key, events);
    FirstBegins(key, events, total);
    CompletesWithParts(total, arrivals[0].now, arrivals, PartsFor(key, Received(events)));
    LastGivesMessage(key, WithCapacity(total, arrivals[0].now), events);
  }

  lemma PartsCompile(key: Key, arrivals: seq<Arrival>, parts: seq<IncomingSms>, texts: seq<string>, start: nat)
    requires Brought(arrivals, parts) && arrivals != [] && BringTexts(parts, texts) && HasAll(parts, |texts|)
    requires forall p :: p in parts ==> HasKey(p, key)
    ensures Compile(AddAll(WithCapacity(|texts|, start), arrivals))
      == Ok(SmsMessage(key.phoneNumber, ConcatFrom(texts, 0)))
  {
    AllHaveArrived(|texts|, arrivals, parts);
    CompleteContent(texts, start, arrivals);
    assert parts[0] in parts;
  }

  /**
   The parts of a key alone, in any order and with duplicates: if all are there, and the last one is
   needed, it gives the message of the key's number that is their texts in order.
   */
  lemma PartsGiveMessage(key: Key, events: seq<Event>, texts: seq<string>)
    requires var parts := PartsFor(key, Received(events)); BringTexts(parts, texts) && JustComplete(parts, |texts|)
    ensures PlacingsAlone(key, None, events) != []
    ensures LastResult(PlacingsAlone(key, None, events)) == Some(Ok(SmsMessage(key.phoneNumber, ConcatFrom(texts, 0))))
  {
    var parts := PartsFor(key, Received(events));
    var arrivals := ArrivalsOf(key, events);
    forall e | e in events && IsPart(e, key) ensures e.sms.header.value.total == |texts| {
      PartsAmong(key, events, e);
    }
    PartsTogether(key, events, |texts|);
    ArrivalsBring(key, events);
    PartsHaveKey(key, Received(events));
    PartsCompile(key, arrivals, parts, texts, arrivals[0].now);
  }

  // --- what is stored ---

  /** The rows stored in a run of the receiver: one for each message that a step gives. */
  function Stored(groups: Groups, events: seq<Event>): seq<Deliveries.Row>
    decreases |events|
  {
    if events == [] then []
    else StoredBy(groups, events[0]) + Stored(Step(groups, events[0]), events[1..])
  }

  function StoredBy(groups: Groups, event: Event): seq<Deliveries.Row> {
    if event.Sweep? then []
    else
      match Incoming(groups, event.sms, event.now).1
      case Some(Ok(message)) => [Receiver.IncomingRow(message)]
      case _ => []
  }

  lemma {:induction false} PlacedIsStored(key: Key, groups: Groups, events: seq<Event>, message: SmsMessage)
    requires LastResult(Placings(key, groups, events)) == Some(Ok(message))
    ensures Receiver.IncomingRow(message) in Stored(groups, events)
    decreases |events|
  {
    var e, more := events[0], events[1..];
    var later := Placings(key, Step(groups, e), more);
    if later != [] {
      assert LastResult(Placings(key, groups, events)) == LastResult(later);
      PlacedIsStored(key, Step(groups, e), more, message);
    } else {
      assert Incoming(groups, e.sms, e.now).1 == Some(Ok(message));
      assert Receiver.IncomingRow(message) in StoredBy(groups, e);
    }
  }

  /** A message without a header is stored as it is. */
  lemma {:induction false} WholeStored(groups: Groups, events: seq<Event>, sms: IncomingSms)
    requires sms in Received(events) && sms.header.None?
    ensures Deliveries.Row(sms.phoneNumber, sms.content, None, false, None, false) in Stored(groups, events)
    decreases |events|
  {
    var e, more := events[0], events[1..];
    if e.Receive? && e.sms == sms {
      assert StoredBy(groups, e)[0] == Deliveries.Row(sms.phoneNumber, sms.content, None, false, None, false);
    } else {
      assert sms in Received(more);
      WholeStored(Step(groups, e), more, sms);
    }
  }

  lemma PartsStored(key: Key, texts: seq<string>, notified: seq<IncomingSms>, events: seq<Event>, from: nat)
    requires var parts := PartsFor(key, notified); BringTexts(parts, texts) && JustComplete(parts, |texts|)
    requires Received(events) == notified && Ordered(events, from) && Timely(key, None, 0, events)
    ensures Deliveries.Row(key.phoneNumber, ConcatFrom(texts, 0), None, false, None, false) in Stored(map[], events)
  {
    PartsGiveMessage(key, events, texts);
    KeyedIsolation(key, events, from);
    PlacedIsStored(key, map[], events, SmsMessage(key.phoneNumber, ConcatFrom(texts, 0)));
  }

  // --- what becomes of reports ---

  /** The reports that the handler takes in hand, in order. */
  function Handled(actions: seq<Deliveries.Action>): seq<PartialReport> {
    if actions == [] then []
    else (if actions[0].Deliver? then [actions[0].report] else []) + Handled(actions[1..])
  }

  predicate IsFor(report: PartialReport, address: Deliveries.Address) {
    report.phoneNumber == address.phoneNumber && report.reference == address.reference
  }

  /** For each report of the address, the open message that is left when those before it have been taken. */
  function ReportTargets(open: seq<nat>, taken: nat, reports: seq<PartialReport>, address: Deliveries.Address,
                         isFinal: u8 -> bool): seq<Option<nat>>
    decreases |reports|
  {
    if reports == [] then []
    else if IsFor(reports[0], address) then
      [Deliveries.NthOpen(open, taken)]
      + ReportTargets(open, if isFinal(reports[0].status) then taken + 1 else taken, reports[1..], address, isFinal)
    else ReportTargets(open, taken, reports[1..], address, isFinal)
  }

  /** How many reports end the delivery of a message of the address. */
  function FinalsFor(reports: seq<PartialReport>, address: Deliveries.Address, isFinal: u8 -> bool): nat {
    if reports == [] then 0
    else (if IsFor(reports[0], address) && isFinal(reports[0].status) then 1 else 0)
         + FinalsFor(reports[1..], address, isFinal)
  }

  lemma {:induction false} TargetsOfReports(open: seq<nat>, taken: nat, actions: seq<Deliveries.Action>,
                                            address: Deliveries.Address, isFinal: u8 -> bool)
    ensures Deliveries.DrainTargets(open, taken, actions, address, isFinal)
      == ReportTargets(open, taken, Handled(actions), address, isFinal)
    ensures Deliveries.FinalReports(actions, address, isFinal) == FinalsFor(Handled(actions), address, isFinal)
    decreases |actions|
  {
    if actions != [] {
      var a, more := actions[0], actions[1..];
      if a.Deliver? {
        assert Handled(actions)[1..] == Handled(more);
        var final := IsFor(a.report, address) && isFinal(a.report.status);
        TargetsOfReports(open, if final then taken + 1 else taken, more, address, isFinal);
      } else {
        assert Handled(actions) == Handled(more);
        TargetsOfReports(open, taken, more, address, isFinal);
      }
    }
  }

  /**
   The rows of an address after reports were handled, with sends between any two of the handler's
   calls: a stack, from which, while nothing is sent to the address, the reports take the newest
   message each time, one for each final report.
   */
  ghost predicate Completes(t: Deliveries.Tables, n: Deliveries.Tables, actions: seq<Deliveries.Action>,
                            reports: seq<PartialReport>, address: Deliveries.Address, isFinal: u8 -> bool) {
    var open, next := Deliveries.Open(t.messages, address), |t.messages| + 1;
    && Deliveries.Targets(t, actions, address, isFinal)
         == Deliveries.StackTargets(open, next, actions, address, isFinal)
    && Deliveries.Open(n.messages, address) == Deliveries.StackAfterAll(open, next, actions, address, isFinal)
    && (Deliveries.NoSends(actions, address) ==>
          && Deliveries.Targets(t, actions, address, isFinal) == ReportTargets(open, 0, reports, address, isFinal)
          && Deliveries.Open(n.messages, address) == Deliveries.Left(open, FinalsFor(reports, address, isFinal)))
  }

  lemma ReportsComplete(s: Deliveries.State, steps: seq<Deliveries.Step>, address: Deliveries.Address,
                        isFinal: u8 -> bool)
    requires Deliveries.Inv(s, isFinal)
    ensures var actions := Deliveries.Effects(s, steps, isFinal);
      Completes(Deliveries.Settled(s, isFinal), Deliveries.Settled(Deliveries.Run(s, steps, isFinal), isFinal),
                actions, Handled(actions), address, isFinal)
  {
    var t := Deliveries.Settled(s, isFinal);
    var actions := Deliveries.Effects(s, steps, isFinal);
    Deliveries.RunIsActions(s, steps, isFinal);
    Deliveries.AddressIsStack(t, actions, address, isFinal);
    TargetsOfReports(Deliveries.Open(t.messages, address), 0, actions, address, isFinal);
    if Deliveries.NoSends(actions, address) { Deliveries.Draining(t, actions, address, isFinal); }
  }

  // --- from bytes ---

  /** What a stream of plain lines and whole notices adds to the messages sent. */
  lemma StreamAdds(m: Machine, blocks: seq<Block>, decoder: Decoder, gone: set<nat>)
    requires !m.state.Unsolicited? && AllWellFormed(blocks)
    ensures HandleLines(m, Stream(blocks), decoder, gone).sent
      == m.sent + HandleLines(FRESH, Stream(Notifications(blocks)), decoder, gone).sent
  {
    NonInterference(m, blocks, decoder, gone);
    ErasedIsSilent(m, blocks, decoder, gone);
  }

  lemma NoticesPass(m: Machine, blocks: seq<Block>, decoder: Decoder, gone: set<nat>)
    requires !m.state.Unsolicited? && AllWellFormed(blocks)
    ensures Passed(HandleLines(m, Stream(blocks), decoder, gone).sent)
      == Passed(m.sent) + AllPassed(Notifications(blocks), decoder)
  {
    var alone := HandleLines(FRESH, Stream(Notifications(blocks)), decoder, gone).sent;
    StreamAdds(m, blocks, decoder, gone);
    NotificationsOnly(blocks);
    StreamPasses(FRESH, Notifications(blocks), decoder, gone);
    PassedConcat(m.sent, alone);
    assert [] + AllPassed(Notifications(blocks), decoder) == AllPassed(Notifications(blocks), decoder);
  }

  lemma NotNotified(b: Block, blocks: seq<Block>, decoder: Decoder)
    requires !b.NotificationWithPayload?
    ensures AllNotified((if b.Plain? then [] else [b]) + blocks, decoder) == AllNotified(blocks, decoder)
    ensures AllReported((if b.Plain? then [] else [b]) + blocks, decoder) == AllReported(blocks, decoder)
  {
    if b.Plain? {
      assert [] + blocks == blocks;
    } else {
      assert ([b] + blocks)[1..] == blocks;
    }
  }

  /** A line left over notifies no message and no report. */
  lemma StaleNotifies(stale: string, blocks: seq<Block>, decoder: Decoder)
    ensures var all := Notifications(StaleBlocks(stale) + blocks);
      && AllNotified(all, decoder) == AllNotified(Notifications(blocks), decoder)
      && AllReported(all, decoder) == AllReported(Notifications(blocks), decoder)
  {
    var all := StaleBlocks(stale) + blocks;
    if StaleBlocks(stale) == [] {
      assert all == blocks;
    } else {
      assert all[1..] == blocks;
      NotNotified(all[0], Notifications(blocks), decoder);
    }
  }

  /** What is passed on while bytes are read: the messages and the reports that their notices bring. */
  predicate BringsOn(passed: seq<ModemIncomingMessage>, blocks: seq<Block>, decoder: Decoder) {
    && SmsOf(passed) == AllNotified(Notifications(blocks), decoder)
    && ReportsIn(passed) == AllReported(Notifications(blocks), decoder)
  }

  lemma PassedBringsOn(before: seq<ModemIncomingMessage>, sent: seq<ModemIncomingMessage>, stale: string,
                       blocks: seq<Block>, decoder: Decoder)
    requires !AwaitsPayload(stale) && AllWellFormed(blocks)
    requires Passed(before + sent) == Passed(before) + AllPassed(Notifications(StaleBlocks(stale) + blocks), decoder)
    ensures BringsOn(sent, blocks, decoder)
  {
    var notices := Notifications(StaleBlocks(stale) + blocks);
    StaleStream(stale, blocks);
    NotificationsOnly(StaleBlocks(stale) + blocks);
    PassedConcat(before, sent);
    AppendCancel(Passed(before), Passed(sent), AllPassed(notices, decoder));
    OfPassed(sent);
    OfAllPassed(notices, decoder);
    StaleNotifies(stale, blocks, decoder);
  }

  /** The bytes as the machine reads them. */
  lemma ReadsBringOn(m: Machine, buffer: string, stale: string, pieces: seq<Piece>, blocks: seq<Block>, rest: string,
                     max: nat, chunks: seq<string>, sent: seq<ModemIncomingMessage>, decoder: Decoder, gone: set<nat>)
    requires !m.state.Unsolicited? && !AwaitsPayload(stale) && ReadAs(pieces, blocks)
    requires Delivers(buffer, Concat(chunks), stale, TextOf(pieces), rest) && Untruncated(buffer, max, chunks)
    requires HandleLines(m, EventsOfReads(buffer, max, chunks), decoder, gone).sent == m.sent + sent
    ensures BringsOn(sent, blocks, decoder)
  {
    FramedReads(buffer, stale, pieces, rest, max, chunks);
    StaleStream(stale, blocks);
    NoticesPass(m, StaleBlocks(stale) + blocks, decoder, gone);
    PassedBringsOn(m.sent, sent, stale, blocks, decoder);
  }

  /**
   From bytes to rows: for any lines and notices, in the transcripts of any commands or between
   them, divided by any line ends, any cut of their bytes into reads, and any times and sweeps, if
   the notices bring the parts of one message, the last of them needed, and the receiver is given what
   is sent on, with no part late, then the slot-order concatenation of the texts is stored, under the
   sender's number.
   */
  lemma MultipartStored(m: Machine, buffer: string, stale: string, pieces: seq<Piece>, blocks: seq<Block>,
                        rest: string, max: nat, chunks: seq<string>, sent: seq<ModemIncomingMessage>, decoder: Decoder,
                        gone: set<nat>, key: Key, texts: seq<string>, events: seq<Event>, from: nat)
    requires !m.state.Unsolicited? && !AwaitsPayload(stale) && ReadAs(pieces, blocks)
    requires Delivers(buffer, Concat(chunks), stale, TextOf(pieces), rest) && Untruncated(buffer, max, chunks)
    requires var parts := PartsFor(key, AllNotified(Notifications(blocks), decoder));
      BringTexts(parts, texts) && JustComplete(parts, |texts|)
    requires HandleLines(m, EventsOfReads(buffer, max, chunks), decoder, gone).sent == m.sent + sent
    requires Received(events) == SmsOf(sent) && Ordered(events, from) && Timely(key, None, 0, events)
    ensures Deliveries.Row(key.phoneNumber, ConcatFrom(texts, 0), None, false, None, false) in Stored(map[], events)
  {
    ReadsBringOn(m, buffer, stale, pieces, blocks, rest, max, chunks, sent, decoder, gone);
    PartsStored(key, texts, SmsOf(sent), events, from);
  }

  /**
   From bytes to the ledger of messages sent: the delivery reports that the notices bring, handed on
   in order to the report handler, between whose calls messages may be stored, complete the rows of
   each address newest first, as `Completes` says.
   */
  lemma ReportsHandled(m: Machine, buffer: string, stale: string, pieces: seq<Piece>, blocks: seq<Block>,
                       rest: string, max: nat, chunks: seq<string>, sent: seq<ModemIncomingMessage>, decoder: Decoder,
                       gone: set<nat>, s: Deliveries.State, steps: seq<Deliveries.Step>, address: Deliveries.Address,
                       isFinal: u8 -> bool)
    requires !m.state.Unsolicited? && !AwaitsPayload(stale) && ReadAs(pieces, blocks)
    requires Delivers(buffer, Concat(chunks), stale, TextOf(pieces), rest) && Untruncated(buffer, max, chunks)
    requires HandleLines(m, EventsOfReads(buffer, max, chunks), decoder, gone).sent == m.sent + sent
    requires Deliveries.Inv(s, isFinal) && Handled(Deliveries.Effects(s, steps, isFinal)) == ReportsIn(sent)
    ensures Completes(Deliveries.Settled(s, isFinal),
                      Deliveries.Settled(Deliveries.Run(s, steps, isFinal), isFinal),
                      Deliveries.Effects(s, steps, isFinal), AllReported(Notifications(blocks), decoder), address,
                      isFinal)
  {
    ReadsBringOn(m, buffer, stale, pieces, blocks, rest, max, chunks, sent, decoder, gone);
    ReportsComplete(s, steps, address, isFinal);
  }
}
