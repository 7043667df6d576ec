/**
 Assembly of concatenated short messages (src/sms/multipart.rs; 3GPP TS 23.040, section
 9.2.3.24.1, except that sequence number 0 is put in the first slot instead of being ignored).
 */
module Multipart {
  import opened Text
  import opened Types

  /** What is stored of a message: `SmsMessage`, as far as reception sets it. */
  datatype SmsMessage = SmsMessage(phoneNumber: string, content: string)

  /** The value of an assembler. Times are in seconds. */
  datatype Assembly = Assembly(
    totalSize: nat,
    lastUpdated: nat,
    firstMessage: Option<IncomingSms>,
    textLen: nat,
    textParts: seq<Option<string>>,
    receivedCount: nat)

  const STALLED_AFTER: nat := 30 * 60

  function WithCapacity(totalSize: nat, now: nat): Assembly {
    Assembly(totalSize, now, None, 0, seq(totalSize, i => None), 0)
  }

  /** `(index as usize).saturating_sub(1)` */
  function Slot(index: u8): nat {
    if index == 0 then 0 else index - 1
  }

  /** The text without its separator character. */
  function Stripped(content: string): (text: string)
    ensures content == text + "@" || (content == text && !EndsWith(text, "@"))
  {
    if content != "" && content[|content| - 1] == '@' then content[..|content| - 1] else content
  }

  /** `String::len`: the number of bytes of the UTF-8 encoding. */
  function Utf8Len(s: string): nat {
    if s == "" then 0
    else
      (if s[0] < 128 as char then 1 else if s[0] < 2048 as char then 2 else if s[0] < 65536 as char then 3 else 4)
      + Utf8Len(s[1..])
  }

  function AddMessage(a: Assembly, message: IncomingSms, index: u8, now: nat): Assembly {
    var slot := Slot(index);
    var filled :=
      if slot < |a.textParts| && a.textParts[slot].None? then
        a.(textLen := a.textLen + Utf8Len(Stripped(message.content)),
           textParts := a.textParts[slot := Some(Stripped(message.content))],
           receivedCount := a.receivedCount + 1)
      else a;
    filled.(lastUpdated := now,
            firstMessage := if a.firstMessage.None? then Some(message) else a.firstMessage)
  }

  /** The value `add_message` returns after the addition. */
  predicate IsComplete(a: Assembly) {
    a.receivedCount >= a.totalSize
  }

  /** The texts present, in slot order. */
  function Joined(parts: seq<Option<string>>): string {
    if parts == [] then ""
    else (match parts[0] case Some(text) => text case None => "") + Joined(parts[1..])
  }

  /** What stands before the rest of the texts, with the next one behind it. */
  lemma JoinedNext(parts: seq<Option<string>>, i: nat, before: string)
    requires i < |parts|
    ensures before + Joined(parts[i..]) ==
      (match parts[i] case Some(text) => before + text case None => before) + Joined(parts[i + 1..])
  {
    assert parts[i..][1..] == parts[i + 1..];
    match parts[i]
    case Some(text) => Reassociate(before, text, Joined(parts[i + 1..]));
    case None => assert "" + Joined(parts[i + 1..]) == Joined(parts[i + 1..]);
  }

  function Compile(a: Assembly): Result<SmsMessage> {
    match a.firstMessage
    case None => Err("Missing required first message to convert into SMSMessage!")
    case Some(first) => Ok(SmsMessage(first.phoneNumber, Joined(a.textParts)))
  }

  predicate IsStalled(a: Assembly, now: nat) {
    now - a.lastUpdated > STALLED_AFTER
  }

  // --- what every assembler keeps ---

  function Filled(parts: seq<Option<string>>): nat {
    if parts == [] then 0 else (if parts[0].Some? then 1 else 0) + Filled(parts[1..])
  }

  /** The counters are what they are meant to count. */
  predicate AssemblyInv(a: Assembly) {
    && |a.textParts| == a.totalSize
    && a.receivedCount == Filled(a.textParts)
    && a.textLen == Utf8Len(Joined(a.textParts))
    && (a.receivedCount > 0 ==> a.firstMessage.Some?)
  }

  lemma {:induction false} Utf8LenConcat(a: string, b: string)
    ensures Utf8Len(a + b) == Utf8Len(a) + Utf8Len(b)
  {
    if a == "" {
      assert a + b == b;
    } else {
      assert (a + b)[1..] == a[1..] + b;
      Utf8LenConcat(a[1..], b);
    }
  }

  /** The lengths at which UTF-8 goes from one byte to two, to three and to four. */
  lemma Utf8LenOfOne(c: char)
    ensures Utf8Len([c]) == if c <= '\U{7F}' then 1 else if c <= '\U{7FF}' then 2 else if c <= '\U{FFFF}' then 3 else 4
  {
    assert [c][1..] == "" && Utf8Len("") == 0;
  }

  lemma {:induction false} FillSlot(parts: seq<Option<string>>, k: nat, text: string)
    requires k < |parts| && parts[k].None?
    ensures Filled(parts[k := Some(text)]) == Filled(parts) + 1
    ensures Utf8Len(Joined(parts[k := Some(text)])) == Utf8Len(Joined(parts)) + Utf8Len(text)
  {
    var updated := parts[k := Some(text)];
    if k == 0 {
      assert updated[1..] == parts[1..];
      Utf8LenConcat(text, Joined(parts[1..]));
      assert "" + Joined(parts[1..]) == Joined(parts[1..]);
    } else {
      assert updated[1..] == parts[1..][k - 1 := Some(text)];
      FillSlot(parts[1..], k - 1, text);
      var head := match parts[0] case Some(t) => t case None => "";
      Utf8LenConcat(head, Joined(parts[1..]));
      Utf8LenConcat(head, Joined(updated[1..]));
    }
  }

  lemma {:induction false} EmptyParts(parts: seq<Option<string>>)
    requires forall i :: 0 <= i < |parts| ==> parts[i].None?
    ensures Filled(parts) == 0 && Joined(parts) == ""
  {
    if parts != [] { EmptyParts(parts[1..]); }
  }

  lemma NewInv(totalSize: nat, now: nat)
    ensures AssemblyInv(WithCapacity(totalSize, now))
  {
    EmptyParts(WithCapacity(totalSize, now).textParts);
  }

  lemma AddInv(a: Assembly, message: IncomingSms, index: u8, now: nat)
    requires AssemblyInv(a)
    ensures AssemblyInv(AddMessage(a, message, index, now))
  {
    var slot := Slot(index);
    if slot < |a.textParts| && a.textParts[slot].None? {
      FillSlot(a.textParts, slot, Stripped(message.content));
    }
  }

  lemma {:induction false} FilledAll(parts: seq<Option<string>>)
    ensures Filled(parts) <= |parts|
    ensures Filled(parts) == |parts| <==> forall i :: 0 <= i < |parts| ==> parts[i].Some?
  {
    if parts != [] {
      FilledAll(parts[1..]);
      if forall i :: 0 <= i < |parts| ==> parts[i].Some? {
        forall i | 0 <= i < |parts[1..]| ensures parts[1..][i].Some? { assert parts[i + 1].Some?; }
      }
    }
  }

  /** An assembler reports completion exactly when every slot holds a text. */
  lemma CompleteIffFilled(a: Assembly)
    requires AssemblyInv(a)
    ensures IsComplete(a) <==> forall i :: 0 <= i < a.totalSize ==> a.textParts[i].Some?
  {
    FilledAll(a.textParts);
  }

  // --- runs of one assembler ---

  datatype Arrival = Arrival(message: IncomingSms, index: u8, now: nat)

  function AddAll(a: Assembly, arrivals: seq<Arrival>): Assembly
    decreases |arrivals|
  {
    if arrivals == [] then a
    else AddAll(AddMessage(a, arrivals[0].message, arrivals[0].index, arrivals[0].now), arrivals[1..])
  }

  /** Whether an arrival is the i-th part, counting from 1; an index 0 is taken for 1. */
  predicate IsNumber(index: u8, i: nat) {
    index == i || (index == 0 && i == 1)
  }

  /** The text of the first arrival of the i-th part. */
  function FirstText(arrivals: seq<Arrival>, i: nat): Option<string> {
    if arrivals == [] then None
    else if IsNumber(arrivals[0].index, i) then Some(Stripped(arrivals[0].message.content))
    else FirstText(arrivals[1..], i)
  }

  /** An arrival fills its own slot, if that is empty, and no other. */
  lemma SlotAfter(a: Assembly, x: Arrival, k: nat)
    requires k < |a.textParts|
    ensures var b := AddMessage(a, x.message, x.index, x.now);
      && |b.textParts| == |a.textParts|
      && b.textParts[k] ==
           if a.textParts[k].Some? then a.textParts[k]
           else if IsNumber(x.index, k + 1) then Some(Stripped(x.message.content)) else None
  {
  }

  /** Every slot holds the text of its part's first arrival, whatever came in between. */
  lemma {:induction false} SlotsHoldFirstTexts(a: Assembly, arrivals: seq<Arrival>)
    requires AssemblyInv(a)
    ensures var b := AddAll(a, arrivals);
      && AssemblyInv(b) && b.totalSize == a.totalSize
      && (forall k :: 0 <= k < a.totalSize ==>
            b.textParts[k] == if a.textParts[k].Some? then a.textParts[k] else FirstText(arrivals, k + 1))
      && (a.firstMessage.None? && arrivals != [] ==> b.firstMessage == Some(arrivals[0].message))
      && (a.firstMessage.Some? ==> b.firstMessage == a.firstMessage)
    decreases |arrivals|
  {
    if arrivals != [] {
      var x := arrivals[0];
      AddInv(a, x.message, x.index, x.now);
      SlotsHoldFirstTexts(AddMessage(a, x.message, x.index, x.now), arrivals[1..]);
      forall k | 0 <= k < a.totalSize
        ensures AddAll(a, arrivals).textParts[k]
             == if a.textParts[k].Some? then a.textParts[k] else FirstText(arrivals, k + 1)
      {
        SlotAfter(a, x, k);
      }
    }
  }

  /** The first-received texts of the parts behind the k-th, in order. */
  function FirstTexts(arrivals: seq<Arrival>, k: nat, total: nat): string
    requires k <= total
    decreases total - k
  {
    if k == total then ""
    else (match FirstText(arrivals, k + 1) case Some(text) => text case None => "") + FirstTexts(arrivals, k + 1, total)
  }

  lemma {:induction false} JoinedIsFirstTexts(parts: seq<Option<string>>, arrivals: seq<Arrival>, k: nat, total: nat)
    requires k <= total == |parts|
    requires forall i :: 0 <= i < total ==> parts[i] == FirstText(arrivals, i + 1)
    ensures Joined(parts[k..]) == FirstTexts(arrivals, k, total)
    decreases total - k
  {
    if k < total {
      assert parts[k..][1..] == parts[k + 1..];
      JoinedIsFirstTexts(parts, arrivals, k + 1, total);
    }
  }

  /** The i-th part has arrived: an index i, or 0 for the first. */
  predicate Arrived(arrivals: seq<Arrival>, i: nat) {
    exists x :: x in arrivals && (x.index == i || (x.index == 0 && i == 1))
  }

  lemma {:induction false} ArrivedHasText(arrivals: seq<Arrival>, i: nat)
    ensures FirstText(arrivals, i).Some? <==> Arrived(arrivals, i)
  {
    if arrivals != [] {
      ArrivedHasText(arrivals[1..], i);
      assert arrivals == [arrivals[0]] + arrivals[1..];
      if IsNumber(arrivals[0].index, i) { assert arrivals[0] in arrivals; }
    }
  }

  /**
   The result of an assembly: complete exactly when each part has arrived, it compiles to the number
   of the first arrival and the concatenation of first-received texts, in the order of the parts.
   */
  lemma AssembledContent(total: nat, start: nat, arrivals: seq<Arrival>)
    requires arrivals != []
    ensures var b := AddAll(WithCapacity(total, start), arrivals);
      && (IsComplete(b) <==> forall i :: 1 <= i <= total ==> Arrived(arrivals, i))
      && Compile(b) == Ok(SmsMessage(arrivals[0].message.phoneNumber, FirstTexts(arrivals, 0, total)))
  {
    var a := WithCapacity(total, start);
    var b := AddAll(a, arrivals);
    NewInv(total, start);
    SlotsHoldFirstTexts(a, arrivals);
    CompleteIffFilled(b);
    JoinedIsFirstTexts(b.textParts, arrivals, 0, total);
    assert b.textParts[0..] == b.textParts;
    forall k | 0 <= k < total ensures b.textParts[k] == FirstText(arrivals, k + 1) {}
    forall i | 1 <= i <= total ensures b.textParts[i - 1].Some? <==> Arrived(arrivals, i) {
      ArrivedHasText(arrivals, i);
    }
    if forall i :: 1 <= i <= total ==> Arrived(arrivals, i) {
      forall k | 0 <= k < total ensures b.textParts[k].Some? { assert Arrived(arrivals, k + 1); }
    }
  }

  /** Each arrival carries the text of its part: an index i the i-th text, and an index 0 the first. */
  predicate Carries(arrivals: seq<Arrival>, texts: seq<string>) {
    forall x :: x in arrivals ==>
      && (1 <= x.index <= |texts| ==> Stripped(x.message.content) == texts[x.index - 1])
      && (x.index == 0 && texts != [] ==> Stripped(x.message.content) == texts[0])
  }

  lemma {:induction false} FirstTextCarried(arrivals: seq<Arrival>, texts: seq<string>, i: nat)
    requires Carries(arrivals, texts) && 1 <= i <= |texts| && FirstText(arrivals, i).Some?
    ensures FirstText(arrivals, i) == Some(texts[i - 1])
  {
    if IsNumber(arrivals[0].index, i) {
      assert arrivals[0] in arrivals;
    } else {
      FirstTextCarried(arrivals[1..], texts, i);
    }
  }

  function ConcatFrom(texts: seq<string>, k: nat): string
    requires k <= |texts|
    decreases |texts| - k
  {
    if k == |texts| then "" else texts[k] + ConcatFrom(texts, k + 1)
  }

  /** Every part has arrived. */
  predicate AllArrived(arrivals: seq<Arrival>, total: nat) {
    forall i :: 1 <= i <= total ==> Arrived(arrivals, i)
  }

  lemma ArrivedCarried(arrivals: seq<Arrival>, texts: seq<string>, i: nat)
    requires Carries(arrivals, texts) && 1 <= i <= |texts| && Arrived(arrivals, i)
    ensures FirstText(arrivals, i) == Some(texts[i - 1])
  {
    ArrivedHasText(arrivals, i);
    FirstTextCarried(arrivals, texts, i);
  }

  /** The texts stand at their places. */
  predicate FirstTextsAre(arrivals: seq<Arrival>, texts: seq<string>) {
    forall k :: 0 <= k < |texts| ==> FirstText(arrivals, k + 1) == Some(texts[k])
  }

  lemma AllCarried(arrivals: seq<Arrival>, texts: seq<string>)
    requires Carries(arrivals, texts) && AllArrived(arrivals, |texts|)
    ensures FirstTextsAre(arrivals, texts)
  {
    forall k | 0 <= k < |texts| ensures FirstText(arrivals, k + 1) == Some(texts[k]) {
      ArrivedCarried(arrivals, texts, k + 1);
    }
  }

  lemma {:induction false} FirstTextsCarried(arrivals: seq<Arrival>, texts: seq<string>, k: nat)
    requires k <= |texts| && FirstTextsAre(arrivals, texts)
    ensures FirstTexts(arrivals, k, |texts|) == ConcatFrom(texts, k)
    decreases |texts| - k
  {
    if k < |texts| { FirstTextsCarried(arrivals, texts, k + 1); }
  }

  /**
   Arrivals in any order, with any duplicates and with any indexes beyond the total, that carry the
   texts of all parts make a complete message, of the number of the first and with the texts in order.
   */
  lemma CompleteContent(texts: seq<string>, start: nat, arrivals: seq<Arrival>)
    requires arrivals != [] && Carries(arrivals, texts) && AllArrived(arrivals, |texts|)
    ensures var a := AddAll(WithCapacity(|texts|, start), arrivals);
      IsComplete(a) && Compile(a) == Ok(SmsMessage(arrivals[0].message.phoneNumber, ConcatFrom(texts, 0)))
  {
    AssembledContent(|texts|, start, arrivals);
    AllCarried(arrivals, texts);
    FirstTextsCarried(arrivals, texts, 0);
  }

  /** Order independence: any two such series of arrivals compile to the same content. */
  lemma OrderIndependence(texts: seq<string>, start: nat, one: seq<Arrival>, other: seq<Arrival>)
    requires one != [] && other != [] && Carries(one, texts) && Carries(other, texts)
    ensures var a := AddAll(WithCapacity(|texts|, start), one);
      var b := AddAll(WithCapacity(|texts|, start), other);
      && (IsComplete(a) <==> AllArrived(one, |texts|)) && (IsComplete(b) <==> AllArrived(other, |texts|))
      && (IsComplete(a) && IsComplete(b) ==>
            Compile(a).Ok? && Compile(b).Ok?
            && Compile(a).value.content == Compile(b).value.content == ConcatFrom(texts, 0))
  {
    AssembledContent(|texts|, start, one);
    AssembledContent(|texts|, start, other);
    if AllArrived(one, |texts|) { CompleteContent(texts, start, one); }
    if AllArrived(other, |texts|) { CompleteContent(texts, start, other); }
  }
}
