/**
 Reception of messages (src/sms/mod.rs): the map of unfinished groups, one per number and message
 reference, and the cleanup that removes groups that have stalled. Both run under one lock, so each
 arrival and each sweep is one step.
 */
module Reception {
  import opened Text
  import opened Types
  import opened Multipart

  datatype Key = Key(phoneNumber: string, reference: u8)

  type Groups = map<Key, Assembly>

  /** A received message, or a sweep of the cleanup task. */
  datatype Event = Receive(sms: IncomingSms, now: nat) | Sweep(now: nat)

  /** A part and the group it belongs to, if there is one: the group then, if unfinished, and the result. */
  function AddPart(group: Option<Assembly>, sms: IncomingSms, header: MultipartHeader, now: nat)
    : (Option<Assembly>, Option<Result<SmsMessage>>)
  {
    var before := match group case Some(a) => a case None => WithCapacity(header.total, now);
    var after := AddMessage(before, sms, header.index, now);
    if IsComplete(after) then (None, Some(Compile(after))) else (Some(after), None)
  }

  function Lookup(groups: Groups, key: Key): Option<Assembly> {
    if key in groups then Some(groups[key]) else None
  }

  function Store(groups: Groups, key: Key, group: Option<Assembly>): Groups {
    match group
    case Some(a) => groups[key := a]
    case None => groups - {key}
  }

  /** `get_incoming_sms_message` */
  function Incoming(groups: Groups, sms: IncomingSms, now: nat): (Groups, Option<Result<SmsMessage>>) {
    match sms.header
    case None => (groups, Some(Ok(SmsMessage(sms.phoneNumber, sms.content))))
    case Some(header) =>
      var key := Key(sms.phoneNumber, header.reference);
      var (group, result) := AddPart(Lookup(groups, key), sms, header, now);
      (Store(groups, key, group), result)
  }

  /** `cleanup_stalled_multipart` */
  function Cleanup(groups: Groups, now: nat): Groups {
    map key | key in groups && !IsStalled(groups[key], now) :: groups[key]
  }

  // --- what every run keeps ---

  /** A stored group is consistent, unfinished, and has only messages of its number. */
  predicate GroupInv(key: Key, a: Assembly) {
    AssemblyInv(a) && !IsComplete(a) && a.firstMessage.Some? && a.firstMessage.value.phoneNumber == key.phoneNumber
  }

  predicate GroupsInv(groups: Groups) {
    forall key :: key in groups ==> GroupInv(key, groups[key])
  }

  lemma PartInv(group: Option<Assembly>, sms: IncomingSms, header: MultipartHeader, now: nat)
    requires group.Some? ==> GroupInv(Key(sms.phoneNumber, header.reference), group.value)
    ensures var (after, result) := AddPart(group, sms, header, now);
      && (after.Some? ==> GroupInv(Key(sms.phoneNumber, header.reference), after.value))
      && (result.Some? ==> result.value.Ok? && result.value.value.phoneNumber == sms.phoneNumber)
  {
    if group.None? { NewInv(header.total, now); }
    var before := match group case Some(a) => a case None => WithCapacity(header.total, now);
    AddInv(before, sms, header.index, now);
  }

  /** Reception keeps the groups sound, and compiling a finished group never fails. */
  lemma IncomingInv(groups: Groups, sms: IncomingSms, now: nat)
    requires GroupsInv(groups)
    ensures var (after, result) := Incoming(groups, sms, now);
      && GroupsInv(after)
      && (result.Some? ==> result.value.Ok? && result.value.value.phoneNumber == sms.phoneNumber)
  {
    if sms.header.Some? {
      PartInv(Lookup(groups, Key(sms.phoneNumber, sms.header.value.reference)), sms, sms.header.value, now);
    }
  }

  function Step(groups: Groups, event: Event): Groups {
    match event
    case Receive(sms, now) => Incoming(groups, sms, now).0
    case Sweep(now) => Cleanup(groups, now)
  }

  function Run(groups: Groups, events: seq<Event>): Groups
    decreases |events|
  {
    if events == [] then groups else Run(Step(groups, events[0]), events[1..])
  }

  lemma {:induction false} RunInv(groups: Groups, events: seq<Event>)
    requires GroupsInv(groups)
    ensures GroupsInv(Run(groups, events))
    decreases |events|
  {
    if events != [] {
      match events[0]
      case Receive(sms, now) =>
        IncomingInv(groups, sms, now);
        RunInv(Step(groups, events[0]), events[1..]);
      case Sweep(now) =>
        RunInv(Step(groups, events[0]), events[1..]);
    }
  }

  // --- one key among others ---

  /** A part of the message with this number and reference. */
  predicate HasKey(sms: IncomingSms, key: Key) {
    sms.phoneNumber == key.phoneNumber && sms.header.Some? && sms.header.value.reference == key.reference
  }

  /** Whether `event` is a part for `key`. */
  predicate IsPart(event: Event, key: Key) {
    event.Receive? && HasKey(event.sms, key)
  }

  /** What becomes of a part: the unfinished group that it finds, and the result that it gives. */
  datatype Placing = Placing(found: Option<Assembly>, result: Option<Result<SmsMessage>>)

  function Place(group: Option<Assembly>, event: Event): Placing
    requires event.Receive? && event.sms.header.Some?
  {
    Placing(group, AddPart(group, event.sms, event.sms.header.value, event.now).1)
  }

  /** What becomes of the parts of `key`, in a run with all other keys and with sweeps. */
  function Placings(key: Key, groups: Groups, events: seq<Event>): seq<Placing>
    decreases |events|
  {
    if events == [] then []
    else
      (if IsPart(events[0], key) then [Placing(Lookup(groups, key), Incoming(groups, events[0].sms, events[0].now).1)]
       else [])
      + Placings(key, Step(groups, events[0]), events[1..])
  }

  /** The group of `key` after a part of its own. */
  function GroupAfter(group: Option<Assembly>, event: Event): Option<Assembly>
    requires event.Receive? && event.sms.header.Some?
  {
    AddPart(group, event.sms, event.sms.header.value, event.now).0
  }

  /** What becomes of the same parts alone, without sweeps. */
  function PlacingsAlone(key: Key, group: Option<Assembly>, events: seq<Event>): seq<Placing>
    decreases |events|
  {
    if events == [] then []
    else if IsPart(events[0], key) then
      [Place(group, events[0])] + PlacingsAlone(key, GroupAfter(group, events[0]), events[1..])
    else PlacingsAlone(key, group, events[1..])
  }

  /** Time does not run backwards. */
  predicate Ordered(events: seq<Event>, from: nat) {
    events == [] || (from <= events[0].now && Ordered(events[1..], events[0].now))
  }

  /**
   Each part for a group of `key` that is unfinished comes within 30 minutes, in seconds, of the part
   before, which came at `last`.
   */
  predicate Timely(key: Key, group: Option<Assembly>, last: nat, events: seq<Event>)
    decreases |events|
  {
    events == [] ||
    (if IsPart(events[0], key) then
       (group.Some? ==> events[0].now - last <= 1800)
       && Timely(key, GroupAfter(group, events[0]), events[0].now, events[1..])
     else Timely(key, group, last, events[1..]))
  }

  /** The group, if there is one, was last added to at this time. */
  predicate AddedAt(group: Option<Assembly>, last: nat) {
    group.Some? ==> group.value.lastUpdated == last
  }

  lemma AddedNow(group: Option<Assembly>, event: Event)
    requires event.Receive? && event.sms.header.Some?
    ensures AddedAt(GroupAfter(group, event), event.now)
  {
  }

  lemma StepLookup(groups: Groups, event: Event, key: Key)
    ensures event.Receive? && !IsPart(event, key) ==> Lookup(Step(groups, event), key) == Lookup(groups, key)
    ensures IsPart(event, key) ==>
      && Lookup(Step(groups, event), key) == GroupAfter(Lookup(groups, key), event)
      && Incoming(groups, event.sms, event.now).1 == Place(Lookup(groups, key), event).result
    ensures event.Sweep? ==>
      Lookup(Step(groups, event), key) ==
        if key in groups && IsStalled(groups[key], event.now) then None else Lookup(groups, key)
  {
  }

  /** A group past its time gets no further part in a timely run. */
  lemma {:induction false} StalledIsOver(key: Key, a: Assembly, last: nat, groups: Groups, events: seq<Event>, now: nat)
    requires now - last > 1800 && Ordered(events, now) && Timely(key, Some(a), last, events)
    ensures Placings(key, groups, events) == [] && PlacingsAlone(key, Some(a), events) == []
    decreases |events|
  {
    if events != [] {
      assert !IsPart(events[0], key);
      StalledIsOver(key, a, last, Step(groups, events[0]), events[1..], events[0].now);
    }
  }

  lemma {:induction false} Isolation(key: Key, groups: Groups, last: nat, events: seq<Event>, from: nat)
    requires Ordered(events, from) && Timely(key, Lookup(groups, key), last, events)
    requires AddedAt(Lookup(groups, key), last)
    ensures Placings(key, groups, events) == PlacingsAlone(key, Lookup(groups, key), events)
    decreases |events|
  {
    if events != [] {
      var e, more := events[0], events[1..];
      var next := Step(groups, e);
      StepLookup(groups, e, key);
      if e.Sweep? && key in groups && IsStalled(groups[key], e.now) {
        StalledIsOver(key, groups[key], last, next, more, e.now);
      } else if IsPart(e, key) {
        AddedNow(Lookup(groups, key), e);
        Isolation(key, next, e.now, more, e.now);
      } else {
        Isolation(key, next, last, more, e.now);
      }
    }
  }

  /**
   Keyed isolation: for any interleaving with parts of other keys, with messages of one part and
   with sweeps at any times, each part of a key finds the group and gives the result that it would
   alone, if each part of an unfinished group of the key comes within 30 minutes of the one before.
   The receiver begins without groups.
   */
  lemma KeyedIsolation(key: Key, events: seq<Event>, from: nat)
    requires Ordered(events, from) && Timely(key, None, 0, events)
    ensures Placings(key, map[], events) == PlacingsAlone(key, None, events)
  {
    Isolation(key, map[], 0, events, from);
  }

  // --- the 30 minutes are needed ---

  function WithoutSweeps(events: seq<Event>): seq<Event> {
    if events == [] then []
    else (if events[0].Sweep? then [] else [events[0]]) + WithoutSweeps(events[1..])
  }

  /** Whether and how parts arrive has nothing to do with sweeps. */
  lemma {:induction false} SweepsAside(key: Key, group: Option<Assembly>, last: nat, events: seq<Event>)
    ensures Timely(key, group, last, WithoutSweeps(events)) <==> Timely(key, group, last, events)
    ensures PlacingsAlone(key, group, WithoutSweeps(events)) == PlacingsAlone(key, group, events)
    decreases |events|
  {
    if events != [] {
      var e, more := events[0], events[1..];
      var after := if IsPart(e, key) then GroupAfter(group, e) else group;
      SweepsAside(key, after, if IsPart(e, key) then e.now else last, more);
      if !e.Sweep? {
        assert WithoutSweeps(events)[0] == e && WithoutSweeps(events)[1..] == WithoutSweeps(more);
      } else {
        assert WithoutSweeps(events) == WithoutSweeps(more);
      }
    }
  }

  lemma ConsEvent(e: Event, events: seq<Event>, from: nat)
    requires Ordered(events, e.now) && from <= e.now
    ensures Ordered([e] + events, from)
    ensures WithoutSweeps([e] + events) == (if e.Sweep? then [] else [e]) + WithoutSweeps(events)
  {
    assert ([e] + events)[1..] == events;
  }

  /** A sweep just before a part that is late takes away the group that the part was for. */
  lemma SweptBefore(key: Key, groups: Groups, last: nat, events: seq<Event>, from: nat) returns (swept: seq<Event>)
    requires events != [] && Ordered(events, from) && IsPart(events[0], key)
    requires key in groups && AddedAt(Some(groups[key]), last) && events[0].now - last > 1800
    ensures Ordered(swept, from) && WithoutSweeps(swept) == WithoutSweeps(events)
    ensures Placings(key, groups, swept) != PlacingsAlone(key, Lookup(groups, key), events)
  {
    var e := events[0];
    var sweep := Sweep(e.now);
    assert events == [e] + events[1..];
    ConsEvent(e, events[1..], e.now);
    ConsEvent(sweep, events, from);
    swept := [sweep] + events;
    StepLookup(groups, sweep, key);
    assert swept[1..] == events;
    assert [] + Placings(key, Step(groups, sweep), events) == Placings(key, Step(groups, sweep), events);
    assert Placings(key, groups, swept)[0].found == None;
    assert PlacingsAlone(key, Lookup(groups, key), events)[0].found == Some(groups[key]);
  }

  lemma {:induction false} LateIsLost(key: Key, groups: Groups, last: nat, events: seq<Event>, from: nat)
      returns (swept: seq<Event>)
    requires Ordered(events, from) && !Timely(key, Lookup(groups, key), last, events)
    requires AddedAt(Lookup(groups, key), last)
    ensures Ordered(swept, from) && WithoutSweeps(swept) == WithoutSweeps(events)
    ensures Placings(key, groups, swept) != PlacingsAlone(key, Lookup(groups, key), events)
    decreases |events|
  {
    var e, more := events[0], events[1..];
    if IsPart(e, key) && key in groups && e.now - last > 1800 {
      swept := SweptBefore(key, groups, last, events, from);
    } else if e.Sweep? {
      swept := LateIsLost(key, groups, last, more, from);
    } else {
      StepLookup(groups, e, key);
      if IsPart(e, key) { AddedNow(Lookup(groups, key), e); }
      var later := LateIsLost(key, Step(groups, e), if IsPart(e, key) then e.now else last, more, e.now);
      ConsEvent(e, later, from);
      swept := [e] + later;
      assert swept[1..] == later;
      var placed := if IsPart(e, key) then [Place(Lookup(groups, key), e)] else [];
      assert Placings(key, groups, swept) == placed + Placings(key, Step(groups, e), later);
      AppendCancel(placed, Placings(key, Step(groups, e), later),
                   PlacingsAlone(key, Lookup(Step(groups, e), key), more));
    }
  }

  /** If a part comes late, some placement of sweeps makes a part lose its group. */
  lemma LatePartIsLost(key: Key, events: seq<Event>, from: nat) returns (swept: seq<Event>)
    requires Ordered(events, from) && !Timely(key, None, 0, events)
    ensures Ordered(swept, from) && WithoutSweeps(swept) == WithoutSweeps(events)
    ensures Placings(key, map[], swept) != PlacingsAlone(key, None, events)
  {
    swept := LateIsLost(key, map[], 0, events, from);
  }

  /**
   Exactly then: the parts of a key are placed as they would be alone, wherever the sweeps fall, if
   and only if each part of an unfinished group comes within 30 minutes of the one before.
   */
  lemma IsolationIffTimely(key: Key, events: seq<Event>, from: nat)
    requires Ordered(events, from)
    ensures (forall swept: seq<Event> | Ordered(swept, from) && WithoutSweeps(swept) == WithoutSweeps(events) ::
              Placings(key, map[], swept) == PlacingsAlone(key, None, events))
      <==> Timely(key, None, 0, events)
  {
    if Timely(key, None, 0, events) {
      forall swept: seq<Event> | Ordered(swept, from) && WithoutSweeps(swept) == WithoutSweeps(events)
        ensures Placings(key, map[], swept) == PlacingsAlone(key, None, events)
      {
        SweepsAside(key, None, 0, events);
        SweepsAside(key, None, 0, swept);
        KeyedIsolation(key, swept, from);
      }
    } else {
      var swept := LatePartIsLost(key, events, from);
    }
  }
}
