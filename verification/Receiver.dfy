/**
 The objects of src/sms: the assembler, the tables and the receiver that shares them out, each
 method proved against the functions of `Multipart`, `Reception` and `Deliveries`.
 */
module Receiver {
  import opened Text
  import opened Types
  import opened Multipart
  import opened Reception
  import opened Deliveries

  class SMSMultipartMessages {
    const totalSize: nat
    var lastUpdated: nat
    var firstMessage: Option<IncomingSms>
    var textLen: nat
    var textParts: seq<Option<string>>
    var receivedCount: nat

    ghost function Value(): Assembly
      reads this
    {
      Assembly(totalSize, lastUpdated, firstMessage, textLen, textParts, receivedCount)
    }

    constructor WithCapacity(totalSize: nat, now: nat)
      ensures Value() == Multipart.WithCapacity(totalSize, now)
    {
      this.totalSize := totalSize;
      lastUpdated := now;
      firstMessage := None;
      textLen := 0;
      textParts := seq(totalSize, i => None);
      receivedCount := 0;
    }

    method AddMessage(message: IncomingSms, index: u8, now: nat) returns (complete: bool)
      modifies this
      ensures Value() == Multipart.AddMessage(old(Value()), message, index, now)
      ensures complete == IsComplete(Value())
    {
      lastUpdated := now;
      var slot := Slot(index);
      if slot < |textParts| && textParts[slot].None? {
        var content := Stripped(message.content);
        textLen := textLen + Utf8Len(content);
        textParts := textParts[slot := Some(content)];
        receivedCount := receivedCount + 1;
      }
      if firstMessage.None? {
        firstMessage := Some(message);
      }
      complete := receivedCount >= totalSize;
    }

    method Compile() returns (r: Result<SmsMessage>)
      ensures r == Multipart.Compile(Value())
    {
      match firstMessage {
        case None => return Err("Missing required first message to convert into SMSMessage!");
        case Some(first) =>
          var content := "";
          var i := 0;
          while i < |textParts|
            invariant i <= |textParts|
            invariant content + Joined(textParts[i..]) == Joined(textParts)
          {
            JoinedNext(textParts, i, content);
            match textParts[i] {
              case Some(text) => content := content + text;
              case None =>
            }
            i := i + 1;
          }
          assert content + "" == content;
          return Ok(SmsMessage(first.phoneNumber, content));
      }
    }

    predicate HasStalled(now: nat)
      reads this
      ensures HasStalled(now) == IsStalled(Value(), now)
    {
      now - lastUpdated > STALLED_AFTER
    }
  }

  class SMSDatabase {
    var messages: seq<Row>
    var reports: seq<Report>

    ghost function Contents(): Tables
      reads this
    {
      Tables(messages, reports)
    }

    constructor ()
      ensures Contents() == Tables([], [])
    {
      messages := [];
      reports := [];
    }

    method InsertMessage(message: Row, isFinal: bool) returns (messageId: nat)
      modifies this
      ensures Contents() == Deliveries.InsertMessage(old(Contents()), message, isFinal)
      ensures messageId == |messages|
    {
      messages := messages + [message.(completed := isFinal)];
      messageId := |messages|;
    }

    method InsertDeliveryReport(messageId: nat, status: u8, isFinal: bool)
      modifies this
      ensures Contents() == Deliveries.InsertDeliveryReport(old(Contents()), messageId, status, isFinal)
    {
      reports := reports + [Report(messageId, status, isFinal)];
    }

    method UpdateMessageStatus(messageId: nat, status: u8, completed: bool)
      modifies this
      ensures Contents() == Deliveries.UpdateMessageStatus(old(Contents()), messageId, status, completed)
    {
      if 1 <= messageId <= |messages| {
        var row := messages[messageId - 1].(status := Some(status));
        messages := messages[messageId - 1 := if completed then row.(completed := true) else row];
      }
    }
  }

  class SMSManager {
    const database: SMSDatabase

    constructor (database: SMSDatabase)
      ensures this.database == database
    {
      this.database := database;
    }

    method StoreResponse(message: Row, response: ModemResponse)
      returns (result: Result<(Option<nat>, ModemResponse)>)
      modifies database
      ensures var stored := Deliveries.StoreResponse(old(database.Contents()), message, response);
        database.Contents() == stored.tables && result == stored.result
    {
      if response.SendResult? {
        var id := database.InsertMessage(message.(reference := Some(response.reference)), false);
        return Ok((Some(id), response));
      } else if response.Error? {
        var id := database.InsertMessage(message.(status := None), true);
        return Ok((Some(id), response));
      }
      return Err("Got invalid ModemResponse back from sending SMS message!");
    }

    /** What is done with the outcome of sending. */
    method Store(message: Row, sent: Result<(bool, Option<ModemResponse>)>)
      returns (result: Result<(Option<nat>, ModemResponse)>)
      modifies database
      ensures var stored := StoreSent(old(database.Contents()), message, sent);
        database.Contents() == stored.tables && result == stored.result
    {
      if sent.Err? {
        return Err(sent.error);
      }
      var (success, last) := sent.value;
      if last.None? {
        return Err("Missing any valid SendSMS response!");
      }
      if !success {
        return Ok((None, last.value));
      }
      result := StoreResponse(message, last.value);
    }
  }

  /** An incoming message is stored without reference or status. */
  function IncomingRow(message: SmsMessage): Row {
    Row(message.phoneNumber, message.content, None, false, None, false)
  }

  class SMSReceiver {
    var multipart: map<Key, SMSMultipartMessages>
    const database: SMSDatabase

    /** Each group has an assembler of its own. */
    ghost predicate Valid()
      reads this
    {
      forall k, l :: k in multipart && l in multipart && k != l ==> multipart[k] != multipart[l]
    }

    ghost function Unfinished(): Groups
      reads this, multipart.Values
    {
      map key | key in multipart :: multipart[key].Value()
    }

    constructor (database: SMSDatabase)
      ensures Valid() && Unfinished() == map[] && this.database == database
    {
      multipart := map[];
      this.database := database;
    }

    method Insert(key: Key, group: SMSMultipartMessages)
      requires Valid() && key !in multipart && group !in multipart.Values
      modifies `multipart
      ensures Valid() && multipart == old(multipart)[key := group]
      ensures Unfinished() == old(Unfinished())[key := group.Value()]
    {
      assert forall k :: k in multipart ==> multipart[k] in multipart.Values;
      multipart := multipart[key := group];
    }

    method Remove(key: Key)
      requires Valid()
      modifies `multipart
      ensures Valid() && multipart == old(multipart) - {key}
      ensures Unfinished() == old(Unfinished()) - {key}
    {
      multipart := multipart - {key};
    }

    /** A part of a group that is already there. */
    method AddToGroup(key: Key, sms: IncomingSms, header: MultipartHeader, now: nat)
      returns (r: Option<Result<SmsMessage>>)
      requires Valid() && key in multipart
      modifies this, multipart[key]
      ensures Valid() && multipart.Values <= old(multipart.Values)
      ensures var (group, result) := AddPart(Some(old(multipart[key].Value())), sms, header, now);
        Unfinished() == Reception.Store(old(Unfinished()), key, group) && r == result
    {
      var group := multipart[key];
      var complete := group.AddMessage(sms, header.index, now);
      assert Unfinished() == old(Unfinished())[key := group.Value()];
      if complete {
        Remove(key);
        var compiled := group.Compile();
        r := Some(compiled);
      } else {
        r := None;
      }
    }

    /** The first part of a group. */
    method NewGroup(key: Key, sms: IncomingSms, header: MultipartHeader, now: nat)
      returns (r: Option<Result<SmsMessage>>)
      requires Valid() && key !in multipart
      modifies this
      ensures Valid() && fresh(multipart.Values - old(multipart.Values))
      ensures var (group, result) := AddPart(None, sms, header, now);
        Unfinished() == Reception.Store(old(Unfinished()), key, group) && r == result
    {
      var group := new SMSMultipartMessages.WithCapacity(header.total, now);
      var complete := group.AddMessage(sms, header.index, now);
      assert Unfinished() == old(Unfinished());
      if complete {
        // A group that its first part completes is never stored.
        var compiled := group.Compile();
        r := Some(compiled);
      } else {
        Insert(key, group);
        r := None;
      }
    }

    method GetIncomingSmsMessage(sms: IncomingSms, now: nat) returns (r: Option<Result<SmsMessage>>)
      requires Valid()
      modifies this, multipart.Values
      ensures Valid() && fresh(multipart.Values - old(multipart.Values))
      ensures (Unfinished(), r) == Incoming(old(Unfinished()), sms, now)
    {
      if sms.header.None? {
        return Some(Ok(SmsMessage(sms.phoneNumber, sms.content)));
      }
      var header := sms.header.value;
      var key := Key(sms.phoneNumber, header.reference);
      if key in multipart {
        r := AddToGroup(key, sms, header, now);
      } else {
        r := NewGroup(key, sms, header, now);
      }
    }

    method CleanupStalledMultipart(now: nat)
      requires Valid()
      modifies this
      ensures Valid() && multipart.Values <= old(multipart.Values)
      ensures Unfinished() == Cleanup(old(Unfinished()), now)
    {
      var keys := multipart.Keys;
      while keys != {}
        invariant Valid() && keys <= multipart.Keys <= old(multipart.Keys)
        invariant forall key :: key in multipart ==> multipart[key] == old(multipart[key])
        invariant forall key :: key in old(multipart) && key !in keys ==>
                    (key in multipart <==> !old(multipart[key]).HasStalled(now))
        decreases keys
      {
        var key :| key in keys;
        keys := keys - {key};
        if multipart[key].HasStalled(now) {
          multipart := multipart - {key};
        }
      }
    }

    /** Stores what a message completes; a part that completes nothing is kept for later. */
    method HandleIncomingSms(sms: IncomingSms, now: nat) returns (r: Option<Result<nat>>)
      requires Valid()
      modifies this, multipart.Values, database
      ensures Valid() && fresh(multipart.Values - old(multipart.Values))
      ensures Unfinished() == Incoming(old(Unfinished()), sms, now).0
      ensures match Incoming(old(Unfinished()), sms, now).1
        case Some(Ok(message)) =>
          database.Contents() == Deliveries.InsertMessage(old(database.Contents()), IncomingRow(message), false)
          && r == Some(Ok(|database.messages|))
        case Some(Err(e)) => database.Contents() == old(database.Contents()) && r == Some(Err(e))
        case None => database.Contents() == old(database.Contents()) && r == None
    {
      var compiled := GetIncomingSmsMessage(sms, now);
      match compiled {
        case Some(Ok(message)) =>
          var id := database.InsertMessage(IncomingRow(message), false);
          return Some(Ok(id));
        case Some(Err(e)) => return Some(Err(e));
        case None => return None;
      }
    }

    method HandleDeliveryReport(report: PartialReport, isFinal: u8 -> bool) returns (r: Result<nat>)
      modifies database
      ensures var (tables, target) := HandleReport(old(database.Contents()), report, isFinal);
        && database.Contents() == tables
        && (if target.Some? then r == Ok(target.value) else r.Err?)
    {
      var target := Target(database.messages, AddressOf(report));
      match target {
        case None => return Err("Could not find target message for delivery report!");
        case Some(messageId) =>
          // A final report is the last one the message gets.
          var final := isFinal(report.status);
          database.InsertDeliveryReport(messageId, report.status, final);
          database.UpdateMessageStatus(messageId, report.status, final);
          return Ok(messageId);
      }
    }
  }
}
