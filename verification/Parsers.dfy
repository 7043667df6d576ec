/** The response parsers of src/modem/parsers.rs and their round trips. */
module Parsers {
  import opened Text
  import opened Types

  /** The first line whose trimmed text begins with `prefix`. */
  function FindLine(lines: seq<string>, prefix: string): Option<string> {
    if lines == [] then None
    else if StartsWith(Trim(lines[0]), prefix) then Some(lines[0])
    else FindLine(lines[1..], prefix)
  }

  /** The trimmed text after the prefix of that line. */
  function Payload(response: string, name: string): Result<string> {
    var prefix := "+" + name + ":";
    match FindLine(Lines(response), prefix)
    case None => Err("No " + name + " response found in buffer")
    case Some(line) =>
      if StartsWith(Trim(line), prefix) then Ok(Trim(Trim(line)[|prefix|..]))
      else Err("Malformed " + name + " response")
  }

  /** `parts.next()`, trimmed and parsed as an unsigned number. */
  function Unsigned(parts: seq<string>, k: nat, max: nat, what: string): (r: Result<nat>)
    ensures r.Ok? ==> r.value <= max
  {
    if |parts| <= k then Err("Missing " + what)
    else match ParseUnsigned(Trim(parts[k]), max)
         case None => Err("Invalid " + what)
         case Some(v) => Ok(v)
  }

  function Signed(parts: seq<string>, k: nat, what: string): (r: Result<i32>) {
    if |parts| <= k then Err("Missing " + what)
    else match ParseSigned(Trim(parts[k]), -0x8000_0000, 0x7FFF_FFFF)
         case None => Err("Invalid " + what)
         case Some(v) => Ok(v)
  }

  function ParseCmgsResult(response: string): Result<u8> {
    match Payload(response, "CMGS")
    case Err(e) => Err(e)
    case Ok(data) =>
      match ParseUnsigned(data, 255)
      case None => Err("Invalid CMGS message reference number")
      case Some(v) => Ok(v)
  }

  function CregFields(parts: seq<string>): Result<(u8, u8)> {
    match Unsigned(parts, 0, 255, "registration status")
    case Err(e) => Err(e)
    case Ok(registration) =>
      match Unsigned(parts, 1, 255, "technology status")
      case Err(e) => Err(e)
      case Ok(technology) => Ok((registration, technology))
  }

  function ParseCregResponse(response: string): Result<(u8, u8)> {
    match Payload(response, "CREG")
    case Err(e) => Err(e)
    case Ok(data) => CregFields(Split(data, ','))
  }

  function CsqFields(parts: seq<string>): Result<(i32, i32)> {
    match Signed(parts, 0, "RSSI value")
    case Err(e) => Err(e)
    case Ok(rssi) =>
      match Signed(parts, 1, "BER value")
      case Err(e) => Err(e)
      case Ok(ber) => Ok((rssi, ber))
  }

  function ParseCsqResponse(response: string): Result<(i32, i32)> {
    match Payload(response, "CSQ")
    case Err(e) => Err(e)
    case Ok(data) => CsqFields(Split(data, ','))
  }

  /** `strip_prefix('"')` and then `strip_suffix('"')`. */
  function Unquote(s: string): Option<string> {
    if |s| >= 2 && s[0] == '"' && s[|s| - 1] == '"' then Some(s[1..|s| - 1]) else None
  }

  function CopsFields(parts: seq<string>): Result<(u8, u8, string)> {
    match Unsigned(parts, 0, 255, "operator status")
    case Err(e) => Err(e)
    case Ok(status) =>
      match Unsigned(parts, 1, 255, "operator format")
      case Err(e) => Err(e)
      case Ok(format) =>
        if |parts| <= 2 then Err("Missing operator name")
        else match Unquote(Trim(parts[2]))
             case None => Err("Operator name not properly quoted")
             case Some(operator) => Ok((status, format, operator))
  }

  function ParseCopsResponse(response: string): Result<(u8, u8, string)> {
    match Payload(response, "COPS")
    case Err(e) => Err(e)
    case Ok(data) => CopsFields(Split(data, ','))
  }

  /** The index just after the last `c`, or 0. */
  function AfterLast(s: string, c: char): (n: nat)
    ensures n <= |s| && (n > 0 ==> s[n - 1] == c)
    ensures forall j :: n <= j < |s| ==> s[j] != c
  {
    if s == "" then 0
    else if s[|s| - 1] == c then |s|
    else AfterLast(s[..|s| - 1], c)
  }

  /** What stands between the first and the last quote. */
  function CspnName(data: string): Result<string> {
    var open := IndexOf(data, '"');
    var close := AfterLast(data, '"');
    if close == 0 then Err("Missing opening quote for operator name")
    else if open >= close - 1 then Err("Invalid quoted operator name")
    else Ok(data[open + 1..close - 1])
  }

  function ParseCspnResponse(response: string): Result<string> {
    match Payload(response, "CSPN")
    case Err(e) => Err(e)
    case Ok(data) => CspnName(data)
  }

  function CbcFields(parts: seq<string>): Result<(u8, u8, real)> {
    match Unsigned(parts, 0, 255, "battery status")
    case Err(e) => Err(e)
    case Ok(status) =>
      match Unsigned(parts, 1, 255, "battery charge")
      case Err(e) => Err(e)
      case Ok(charge) =>
        match Unsigned(parts, 2, 0xFFFF_FFFF, "battery voltage")
        case Err(e) => Err(e)
        case Ok(millivolts) => Ok((status, charge, millivolts as real / 1000.0))
  }

  function ParseCbcResponse(response: string): Result<(u8, u8, real)> {
    match Payload(response, "CBC")
    case Err(e) => Err(e)
    case Ok(data) => CbcFields(Split(data, ','))
  }

  /** `split_once(": ")`: the text after the first such separator. */
  function AfterSeparator(s: string): Option<string> {
    if |s| < 2 then None
    else if s[0] == ':' && s[1] == ' ' then Some(s[2..])
    else AfterSeparator(s[1..])
  }

  function ParseCgpsstatusResponse(response: string, decoder: Decoder): Result<string> {
    match FindLine(Lines(response), "+CGPSSTATUS:")
    case None => Err("No CGPSSTATUS response found in buffer")
    case Some(line) =>
      match AfterSeparator(line)
      case None => Err("Missing CGPS status")
      case Some(status) =>
        if decoder.fixStatus(Trim(status)) then Ok(Trim(status)) else Err("Unknown fix status")
  }

  function ParseCgnsinfResponse(response: string, unsolicited: bool, decoder: Decoder): Result<string> {
    match FindLine(Lines(response), if unsolicited then "+UGNSINF" else "+CGNSINF")
    case None => Err("No CGNSINF response found in buffer")
    case Some(line) =>
      match AfterSeparator(line)
      case None => Err("Missing CGNSINF data")
      case Some(data) =>
        if decoder.position(Split(Trim(data), ',')) then Ok(Trim(data)) else Err("Invalid position report")
  }

  // --- round trips ---

  /** Lines as the response buffer holds them: each followed by an LF. */
  function Unlines(lines: seq<string>): string {
    if lines == [] then "" else lines[0] + "\n" + Unlines(lines[1..])
  }

  predicate Lacks(lines: seq<string>, prefix: string) {
    forall k :: 0 <= k < |lines| ==> '\n' !in lines[k] && !StartsWith(Trim(lines[k]), prefix)
  }

  /** Blank text inside one line. */
  predicate Padding(s: string) {
    AllWhite(s) && '\n' !in s
  }

  lemma {:induction false} FindLineAfter(pre: seq<string>, line: string, rest: string, prefix: string)
    requires Lacks(pre, prefix) && '\n' !in line && StartsWith(Trim(line), prefix)
    ensures FindLine(Lines(Unlines(pre) + (line + "\n" + rest)), prefix) == Some(StripCr(line))
  {
    var tail := line + "\n" + rest;
    if pre == [] {
      assert Unlines(pre) + tail == tail;
      LinesCons(line, rest);
      TrimStripCr(line);
    } else {
      assert Unlines(pre) + tail == pre[0] + "\n" + (Unlines(pre[1..]) + tail);
      LinesCons(pre[0], Unlines(pre[1..]) + tail);
      TrimStripCr(pre[0]);
      FindLineAfter(pre[1..], line, rest, prefix);
    }
  }

  /** The reply line of a command: prefix and payload, each with any blanks around it. */
  function ReplyLine(a: string, prefix: string, b: string, payload: string, c: string): string {
    a + (prefix + b + payload) + c
  }

  lemma ReplyLineTrim(a: string, prefix: string, b: string, payload: string, c: string)
    requires Padding(a) && Padding(b) && Padding(c) && Tight(payload) && payload != ""
    requires Tight(prefix) && prefix != ""
    ensures Trim(ReplyLine(a, prefix, b, payload, c)) == prefix + b + payload
    ensures Trim((prefix + b + payload)[|prefix|..]) == payload
  {
    TrimOf(a, prefix + b + payload, c);
    TrimOf(b, payload, "");
    assert (prefix + b + payload)[|prefix|..] == b + payload + "";
  }

  /** A response whose first line with the prefix is the given reply line. */
  ghost predicate Answers(response: string, name: string, payload: string) {
    exists pre: seq<string>, a: string, b: string, c: string, rest: string ::
      Lacks(pre, "+" + name + ":") && Padding(a) && Padding(b) && Padding(c) &&
      response == Unlines(pre) + (ReplyLine(a, "+" + name + ":", b, payload, c) + "\n" + rest)
  }

  lemma PayloadOf(response: string, name: string, payload: string)
    requires Answers(response, name, payload)
    requires Tight(payload) && payload != "" && '\n' !in payload && '\n' !in name
    ensures Payload(response, name) == Ok(payload)
  {
    var prefix := "+" + name + ":";
    var pre, a, b, c, rest :| Lacks(pre, prefix) && Padding(a) && Padding(b) && Padding(c) &&
      response == Unlines(pre) + (ReplyLine(a, prefix, b, payload, c) + "\n" + rest);
    var line := ReplyLine(a, prefix, b, payload, c);
    ReplyLineTrim(a, prefix, b, payload, c);
    FindLineAfter(pre, line, rest, prefix);
    TrimStripCr(line);
  }

  lemma CmgsRoundTrip(response: string, reference: u8)
    requires Answers(response, "CMGS", Decimal(reference))
    ensures ParseCmgsResult(response) == Ok(reference)
  {
    ParsePrintedUnsigned(reference, 255);
    PayloadOf(response, "CMGS", Decimal(reference));
  }

  lemma SplitPair(x: string, y: string)
    requires ',' !in x && ',' !in y
    ensures Split(x + "," + y, ',') == [x, y]
  {
    SplitHead(x, ',', y);
  }

  lemma UnsignedField(parts: seq<string>, k: nat, max: nat, what: string, n: nat)
    requires k < |parts| && parts[k] == Decimal(n) && n <= max
    ensures Unsigned(parts, k, max, what) == Ok(n)
  {
    ParsePrintedUnsigned(n, max);
    TrimTight(Decimal(n));
  }

  lemma SignedField(parts: seq<string>, k: nat, what: string, n: i32)
    requires k < |parts| && parts[k] == DecimalInt(n)
    ensures Signed(parts, k, what) == Ok(n)
  {
    ParsePrintedSigned(n, -0x8000_0000, 0x7FFF_FFFF);
    PrintedSignedShape(n);
    TrimTight(DecimalInt(n));
  }

  lemma CregRoundTrip(response: string, registration: u8, technology: u8)
    requires Answers(response, "CREG", Decimal(registration) + "," + Decimal(technology))
    ensures ParseCregResponse(response) == Ok((registration, technology))
  {
    var x, y := Decimal(registration), Decimal(technology);
    ParsePrintedUnsigned(registration, 255);
    ParsePrintedUnsigned(technology, 255);
    PayloadOf(response, "CREG", x + "," + y);
    SplitPair(x, y);
    UnsignedField([x, y], 0, 255, "registration status", registration);
    UnsignedField([x, y], 1, 255, "technology status", technology);
  }

  lemma CsqRoundTrip(response: string, rssi: i32, ber: i32)
    requires Answers(response, "CSQ", DecimalInt(rssi) + "," + DecimalInt(ber))
    ensures ParseCsqResponse(response) == Ok((rssi, ber))
  {
    var x, y := DecimalInt(rssi), DecimalInt(ber);
    PrintedSignedShape(rssi);
    PrintedSignedShape(ber);
    PayloadOf(response, "CSQ", x + "," + y);
    SplitPair(x, y);
    SignedField([x, y], 0, "RSSI value", rssi);
    SignedField([x, y], 1, "BER value", ber);
  }

  function Quoted(name: string): string {
    "\"" + name + "\""
  }

  lemma CopsFieldsOf(parts: seq<string>, status: u8, format: u8, operator: string)
    requires parts == [Decimal(status), Decimal(format), Quoted(operator)]
    ensures CopsFields(parts) == Ok((status, format, operator))
  {
    UnsignedField(parts, 0, 255, "operator status", status);
    UnsignedField(parts, 1, 255, "operator format", format);
    TrimTight(Quoted(operator));
    assert Quoted(operator)[1..|Quoted(operator)| - 1] == operator;
  }

  lemma SplitTriple(x: string, y: string, z: string)
    requires ',' !in x && ',' !in y && ',' !in z
    ensures Split(x + "," + (y + "," + z), ',') == [x, y, z]
  {
    SplitHead(x, ',', y + "," + z);
    SplitPair(y, z);
  }

  lemma PayloadTight(x: string, rest: string)
    requires x != "" && rest != "" && Tight(x) && Tight(rest) && '\n' !in x && '\n' !in rest
    ensures Tight(x + "," + rest) && '\n' !in x + "," + rest
  {
  }

  lemma CopsData(status: u8, format: u8, operator: string)
    requires ',' !in operator && '\n' !in operator
    ensures var data := Decimal(status) + "," + (Decimal(format) + "," + Quoted(operator));
      && data != "" && Tight(data) && '\n' !in data
      && Split(data, ',') == [Decimal(status), Decimal(format), Quoted(operator)]
  {
    var x, y, z := Decimal(status), Decimal(format), Quoted(operator);
    ParsePrintedUnsigned(status, 255);
    ParsePrintedUnsigned(format, 255);
    PayloadTight(y, z);
    PayloadTight(x, y + "," + z);
    SplitTriple(x, y, z);
  }

  lemma CopsRoundTrip(response: string, status: u8, format: u8, operator: string)
    requires ',' !in operator && '\n' !in operator
    requires Answers(response, "COPS", Decimal(status) + "," + (Decimal(format) + "," + Quoted(operator)))
    ensures ParseCopsResponse(response) == Ok((status, format, operator))
  {
    CopsData(status, format, operator);
    CopsFieldsOf([Decimal(status), Decimal(format), Quoted(operator)], status, format, operator);
    PayloadOf(response, "COPS", Decimal(status) + "," + (Decimal(format) + "," + Quoted(operator)));
  }

  lemma CbcData(status: u8, charge: u8, millivolts: nat)
    ensures var data := Decimal(status) + "," + (Decimal(charge) + "," + Decimal(millivolts));
      && data != "" && Tight(data) && '\n' !in data
      && Split(data, ',') == [Decimal(status), Decimal(charge), Decimal(millivolts)]
  {
    var x, y, z := Decimal(status), Decimal(charge), Decimal(millivolts);
    ParsePrintedUnsigned(status, 255);
    ParsePrintedUnsigned(charge, 255);
    ParsePrintedUnsigned(millivolts, millivolts);
    PayloadTight(y, z);
    PayloadTight(x, y + "," + z);
    SplitTriple(x, y, z);
  }

  lemma CbcFieldsFrom(parts: seq<string>, status: u8, charge: u8, millivolts: nat) returns (voltage: real)
    requires Unsigned(parts, 0, 255, "battery status") == Ok(status)
    requires Unsigned(parts, 1, 255, "battery charge") == Ok(charge)
    requires Unsigned(parts, 2, 0xFFFF_FFFF, "battery voltage") == Ok(millivolts)
    ensures CbcFields(parts) == Ok((status, charge, voltage)) && 1000.0 * voltage == millivolts as real
  {
    voltage := millivolts as real / 1000.0;
  }

  lemma CbcFieldsOf(parts: seq<string>, status: u8, charge: u8, millivolts: nat) returns (voltage: real)
    requires parts == [Decimal(status), Decimal(charge), Decimal(millivolts)] && millivolts < 0x1_0000_0000
    ensures CbcFields(parts) == Ok((status, charge, voltage)) && 1000.0 * voltage == millivolts as real
  {
    UnsignedField(parts, 0, 255, "battery status", status);
    UnsignedField(parts, 1, 255, "battery charge", charge);
    UnsignedField(parts, 2, 0xFFFF_FFFF, "battery voltage", millivolts);
    voltage := CbcFieldsFrom(parts, status, charge, millivolts);
  }

  lemma CbcFromPayload(response: string, data: string, status: u8, charge: u8, millivolts: nat)
    returns (voltage: real)
    requires Payload(response, "CBC") == Ok(data) && millivolts < 0x1_0000_0000
    requires Split(data, ',') == [Decimal(status), Decimal(charge), Decimal(millivolts)]
    ensures ParseCbcResponse(response) == Ok((status, charge, voltage)) && 1000.0 * voltage == millivolts as real
  {
    voltage := CbcFieldsOf(Split(data, ','), status, charge, millivolts);
  }

  /** The voltage is printed in thousandths. */
  lemma CbcRoundTrip(response: string, status: u8, charge: u8, millivolts: nat) returns (voltage: real)
    requires millivolts < 0x1_0000_0000
    requires Answers(response, "CBC", Decimal(status) + "," + (Decimal(charge) + "," + Decimal(millivolts)))
    ensures ParseCbcResponse(response) == Ok((status, charge, voltage)) && 1000.0 * voltage == millivolts as real
  {
    var data := Decimal(status) + "," + (Decimal(charge) + "," + Decimal(millivolts));
    CbcData(status, charge, millivolts);
    PayloadOf(response, "CBC", data);
    voltage := CbcFromPayload(response, data, status, charge, millivolts);
  }

  lemma AfterLastOf(s: string, c: char, n: nat)
    requires 0 < n <= |s| && s[n - 1] == c && forall j :: n <= j < |s| ==> s[j] != c
    ensures AfterLast(s, c) == n
  {
  }

  lemma CspnNameOf(name: string, tail: string)
    requires '"' !in tail
    ensures CspnName(Quoted(name) + tail) == Ok(name)
  {
    var data := Quoted(name) + tail;
    AfterLastOf(data, '"', |name| + 2);
    IndexOfUnique(data, '"', 0);
    assert data[1..|name| + 1] == name;
  }

  /** The name survives whatever it holds, quotes included, and so does any tail without quotes. */
  lemma CspnRoundTrip(response: string, name: string, tail: string)
    requires '\n' !in name && '\n' !in tail && '"' !in tail && (tail != "" ==> !IsWhite(tail[|tail| - 1]))
    requires Answers(response, "CSPN", Quoted(name) + tail)
    ensures ParseCspnResponse(response) == Ok(name)
  {
    PayloadOf(response, "CSPN", Quoted(name) + tail);
    CspnNameOf(name, tail);
  }

  // --- what is refused ---

  /** The k-th field, without blanks around it, is there and is a number up to `max`, plus sign or not. */
  predicate IsUnsigned(parts: seq<string>, k: nat, max: nat, n: nat) {
    k < |parts| && var text := Trim(parts[k]);
    var digits := if text != "" && text[0] == '+' then text[1..] else text;
    digits != "" && AllDigits(digits) && DigitsValue(digits) == n && n <= max
  }

  lemma UnsignedIs(parts: seq<string>, k: nat, max: nat, what: string, n: nat)
    ensures Unsigned(parts, k, max, what) == Ok(n) <==> IsUnsigned(parts, k, max, n)
  {
  }

  /** The k-th field is there and is a number of 32 bits, with a sign or without. */
  predicate IsSigned(parts: seq<string>, k: nat, n: int) {
    k < |parts| && var text := Trim(parts[k]);
    var digits := if text != "" && (text[0] == '+' || text[0] == '-') then text[1..] else text;
    && digits != "" && AllDigits(digits) && -0x8000_0000 <= n <= 0x7FFF_FFFF
    && n == if text != "" && text[0] == '-' then 0 - DigitsValue(digits) else DigitsValue(digits)
  }

  lemma SignedIs(parts: seq<string>, k: nat, what: string, n: i32)
    ensures Signed(parts, k, what) == Ok(n) <==> IsSigned(parts, k, n)
  {
  }

  /** A reply is understood if and only if its first line with the prefix has the fields that it needs. */
  lemma CregUnderstood(response: string, registration: u8, technology: u8)
    ensures ParseCregResponse(response) == Ok((registration, technology)) <==>
      Payload(response, "CREG").Ok? && var parts := Split(Payload(response, "CREG").value, ',');
      IsUnsigned(parts, 0, 255, registration) && IsUnsigned(parts, 1, 255, technology)
  {
    if Payload(response, "CREG").Ok? {
      var parts := Split(Payload(response, "CREG").value, ',');
      UnsignedIs(parts, 0, 255, "registration status", registration);
      UnsignedIs(parts, 1, 255, "technology status", technology);
    }
  }

  lemma CsqUnderstood(response: string, rssi: i32, ber: i32)
    ensures ParseCsqResponse(response) == Ok((rssi, ber)) <==>
      Payload(response, "CSQ").Ok? && var parts := Split(Payload(response, "CSQ").value, ',');
      IsSigned(parts, 0, rssi) && IsSigned(parts, 1, ber)
  {
    if Payload(response, "CSQ").Ok? {
      var parts := Split(Payload(response, "CSQ").value, ',');
      SignedIs(parts, 0, "RSSI value", rssi);
      SignedIs(parts, 1, "BER value", ber);
    }
  }

  lemma CopsUnderstood(response: string, status: u8, format: u8, operator: string)
    ensures ParseCopsResponse(response) == Ok((status, format, operator)) <==>
      Payload(response, "COPS").Ok? && var parts := Split(Payload(response, "COPS").value, ',');
      && IsUnsigned(parts, 0, 255, status) && IsUnsigned(parts, 1, 255, format)
      && |parts| > 2 && Trim(parts[2]) == Quoted(operator)
  {
    if Payload(response, "COPS").Ok? {
      var parts := Split(Payload(response, "COPS").value, ',');
      UnsignedIs(parts, 0, 255, "operator status", status);
      UnsignedIs(parts, 1, 255, "operator format", format);
      if |parts| > 2 { UnquoteIs(Trim(parts[2]), operator); }
    }
  }

  lemma UnquoteIs(text: string, name: string)
    ensures Unquote(text) == Some(name) <==> text == Quoted(name)
  {
    if Unquote(text) == Some(name) {
      assert text == [text[0]] + text[1..|text| - 1] + [text[|text| - 1]];
    }
    if text == Quoted(name) {
      assert text[1..|text| - 1] == name;
    }
  }

  // --- position reports ---

  predicate SeparatorAt(s: string, k: nat) {
    k + 1 < |s| && s[k] == ':' && s[k + 1] == ' '
  }

  /** `data` stands behind the first colon with a space in `s`. */
  ghost predicate FirstBehind(s: string, data: string) {
    exists k: nat :: SeparatorAt(s, k) && data == s[k + 2..] && forall j: nat :: j < k ==> !SeparatorAt(s, j)
  }

  ghost predicate NoSeparator(s: string) {
    forall k: nat :: !SeparatorAt(s, k)
  }

  lemma {:induction false} SeparatorFound(s: string, k: nat)
    requires SeparatorAt(s, k) && forall j: nat :: j < k ==> !SeparatorAt(s, j)
    ensures AfterSeparator(s) == Some(s[k + 2..])
  {
    if k > 0 {
      assert !SeparatorAt(s, 0);
      forall j: nat | j < k - 1 ensures !SeparatorAt(s[1..], j) {
        assert !SeparatorAt(s, j + 1);
      }
      SeparatorFound(s[1..], k - 1);
      assert s[1..][k + 1..] == s[k + 2..];
    }
  }

  lemma {:induction false} SeparatorMissing(s: string)
    requires NoSeparator(s)
    ensures AfterSeparator(s) == None
  {
    if |s| >= 2 {
      assert !SeparatorAt(s, 0);
      forall k: nat ensures !SeparatorAt(s[1..], k) {
        assert !SeparatorAt(s, k + 1);
      }
      SeparatorMissing(s[1..]);
    }
  }

  lemma UndividedLine(s: string)
    requires s != "" && '\n' !in s
    ensures Lines(s) == [s]
  {
  }

  /**
   A position report on a line of its own is what stands behind the first colon with a space, if it
   can be decoded; without one there is no report.
   */
  lemma PositionParsed(line: string, decoder: Decoder)
    requires StartsWith(line, "+UGNSINF") && '\n' !in line && Trim(line) == line
    ensures var r := ParseCgnsinfResponse(line, true, decoder);
      && (NoSeparator(line) ==> r == Err("Missing CGNSINF data"))
      && (forall data :: FirstBehind(line, data) ==>
            r == if decoder.position(Split(Trim(data), ',')) then Ok(Trim(data)) else Err("Invalid position report"))
  {
    UndividedLine(line);
    assert FindLine([line], "+UGNSINF") == Some(line);
    if NoSeparator(line) { SeparatorMissing(line); }
    forall data | FirstBehind(line, data) ensures AfterSeparator(line) == Some(data) {
      var k: nat :| SeparatorAt(line, k) && data == line[k + 2..] && forall j: nat :: j < k ==> !SeparatorAt(line, j);
      SeparatorFound(line, k);
    }
  }

  // --- the reference of a submission ---

  /** Lines as the response buffer of a command holds them: trimmed, and without line ends. */
  predicate OneLiners(lines: seq<string>) {
    forall k :: 0 <= k < |lines| ==> '\n' !in lines[k] && Trim(lines[k]) == lines[k]
  }

  lemma {:induction false} LinesOfUnlines(lines: seq<string>)
    requires OneLiners(lines)
    ensures Lines(Unlines(lines)) == lines
  {
    if lines != [] {
      LinesCons(lines[0], Unlines(lines[1..]));
      LinesOfUnlines(lines[1..]);
      NoTrailingCr(lines[0]);
    }
  }

  lemma NoTrailingCr(line: string)
    requires Trim(line) == line
    ensures StripCr(line) == line
  {
    var a, b := TrimSplit(line);
  }

  lemma {:induction false} UnlinesConcat(a: seq<string>, b: seq<string>)
    ensures Unlines(a + b) == Unlines(a) + Unlines(b)
  {
    if a == [] {
      assert a + b == b;
    } else {
      assert (a + b)[1..] == a[1..] + b;
      UnlinesConcat(a[1..], b);
      Reassociate(a[0] + "\n", Unlines(a[1..]), Unlines(b));
    }
  }

  lemma UnlinesOne(line: string)
    ensures Unlines([line]) == line + "\n"
  {
    assert [line][1..] == [];
    assert Unlines([line]) == line + "\n" + "";
  }

  /** The number on the first line that begins with `+CMGS:`, if it has one. */
  function FirstNumber(lines: seq<string>): (number: Option<nat>)
    ensures number.Some? ==> number.value < 256
  {
    if lines == [] then None
    else if IsReference(lines[0]) then ParseUnsigned(Trim(lines[0][6..]), 255)
    else FirstNumber(lines[1..])
  }

  predicate IsReference(line: string) {
    StartsWith(line, "+CMGS:")
  }

  lemma {:induction false} FirstNumberIsFound(lines: seq<string>)
    requires OneLiners(lines)
    ensures FindLine(lines, "+CMGS:").None? ==> FirstNumber(lines) == None
    ensures FindLine(lines, "+CMGS:").Some? ==>
      var line := FindLine(lines, "+CMGS:").value;
      StartsWith(Trim(line), "+CMGS:") && FirstNumber(lines) == ParseUnsigned(Trim(Trim(line)[6..]), 255)
  {
    if lines != [] { FirstNumberIsFound(lines[1..]); }
  }

  lemma CmgsPayload(response: string, line: Option<string>)
    requires line == FindLine(Lines(response), "+CMGS:")
    requires line.Some? ==> StartsWith(Trim(line.value), "+CMGS:")
    ensures line.None? ==> Payload(response, "CMGS").Err?
    ensures line.Some? ==> Payload(response, "CMGS") == Ok(Trim(Trim(line.value)[6..]))
  {
    assert "+" + "CMGS" + ":" == "+CMGS:";
  }

  /** What is parsed of a response is the number on its first `+CMGS:` line. */
  lemma CmgsIsFirstNumber(lines: seq<string>)
    requires OneLiners(lines)
    ensures match FirstNumber(lines)
      case Some(number) => ParseCmgsResult(Unlines(lines)) == Ok(number)
      case None => ParseCmgsResult(Unlines(lines)).Err?
  {
    LinesOfUnlines(lines);
    FirstNumberIsFound(lines);
    CmgsPayload(Unlines(lines), FindLine(lines, "+CMGS:"));
  }

  /** Later lines do not change the first number. */
  lemma {:induction false} FirstNumberStays(lines: seq<string>, more: seq<string>)
    requires FirstNumber(lines).Some?
    ensures FirstNumber(lines + more) == FirstNumber(lines)
  {
    assert (lines + more)[1..] == lines[1..] + more;
    if !IsReference(lines[0]) { FirstNumberStays(lines[1..], more); }
  }

  /** Lines of another kind before it do not either. */
  lemma {:induction false} FirstNumberSkips(lines: seq<string>, more: seq<string>)
    requires forall line :: line in lines ==> !IsReference(line)
    ensures FirstNumber(lines + more) == FirstNumber(more)
  {
    if lines == [] {
      assert lines + more == more;
    } else {
      assert lines[0] in lines;
      assert (lines + more)[1..] == lines[1..] + more;
      FirstNumberSkips(lines[1..], more);
    }
  }
}
