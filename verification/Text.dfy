/**
 ASCII text as the modem code sees it: the string operations of Rust's standard library that
 the framing, parsing and classification code calls, with the laws the proofs need.
 A `char` stands for one ASCII byte.
 */
module Text {

  datatype Option<+T> = None | Some(value: T)

  lemma Reassociate<T>(a: seq<T>, b: seq<T>, c: seq<T>)
    ensures a + (b + c) == a + b + c
  {
  }

  lemma AppendCancel<T>(a: seq<T>, x: seq<T>, y: seq<T>)
    ensures a + x == a + y <==> x == y
  {
    if a + x == a + y {
      assert x == (a + x)[|a|..] && y == (a + y)[|a|..];
    }
  }

  /** `char::is_whitespace` on ASCII: HT, LF, VT, FF, CR and space. */
  predicate IsWhite(c: char) {
    c == ' ' || '\t' <= c <= '\r'
  }

  /** `u8::is_ascii_whitespace`: the same set without VT. */
  predicate IsAsciiWhitespace(c: char) {
    IsWhite(c) && c != 11 as char
  }

  predicate AllWhite(s: string) {
    forall i :: 0 <= i < |s| ==> IsWhite(s[i])
  }

  /** `s` neither begins nor ends with white space. */
  predicate Tight(s: string) {
    s != "" ==> !IsWhite(s[0]) && !IsWhite(s[|s| - 1])
  }

  function TrimStart(s: string): string {
    if s != "" && IsWhite(s[0]) then TrimStart(s[1..]) else s
  }

  function TrimEnd(s: string): string {
    if s != "" && IsWhite(s[|s| - 1]) then TrimEnd(s[..|s| - 1]) else s
  }

  function Trim(s: string): string {
    TrimEnd(TrimStart(s))
  }

  lemma {:induction false} TrimStartOf(a: string, t: string)
    requires AllWhite(a)
    requires t == "" || !IsWhite(t[0])
    ensures TrimStart(a + t) == t
  {
    if a == "" {
      assert a + t == t;
    } else {
      assert (a + t)[1..] == a[1..] + t;
      TrimStartOf(a[1..], t);
    }
  }

  lemma {:induction false} TrimEndOf(t: string, b: string)
    requires AllWhite(b)
    requires t == "" || !IsWhite(t[|t| - 1])
    ensures TrimEnd(t + b) == t
  {
    if b == "" {
      assert t + b == t;
    } else {
      assert (t + b)[..|t + b| - 1] == t + b[..|b| - 1];
      TrimEndOf(t, b[..|b| - 1]);
    }
  }

  /** Trimming recovers a tight text from any white padding around it. */
  lemma TrimOf(a: string, t: string, b: string)
    requires AllWhite(a) && AllWhite(b) && Tight(t)
    ensures Trim(a + t + b) == t
  {
    if t == "" {
      TrimStartOf(a + b, "");
      assert a + t + b == (a + b) + "";
    } else {
      TrimStartOf(a, t + b);
      assert a + t + b == a + (t + b);
      TrimEndOf(t, b);
    }
  }

  lemma {:induction false} TrimStartSplit(s: string) returns (a: string)
    ensures AllWhite(a) && s == a + TrimStart(s)
    ensures TrimStart(s) == "" || !IsWhite(TrimStart(s)[0])
  {
    if s != "" && IsWhite(s[0]) {
      var a' := TrimStartSplit(s[1..]);
      a := [s[0]] + a';
      assert s == [s[0]] + s[1..];
      Reassociate([s[0]], a', TrimStart(s[1..]));
    } else {
      a := "";
    }
  }

  lemma {:induction false} TrimEndSplit(s: string) returns (b: string)
    ensures AllWhite(b) && s == TrimEnd(s) + b
    ensures TrimEnd(s) == "" || !IsWhite(TrimEnd(s)[|TrimEnd(s)| - 1])
  {
    if s != "" && IsWhite(s[|s| - 1]) {
      var b' := TrimEndSplit(s[..|s| - 1]);
      b := b' + [s[|s| - 1]];
      assert s == s[..|s| - 1] + [s[|s| - 1]];
      Reassociate(TrimEnd(s[..|s| - 1]), b', [s[|s| - 1]]);
    } else {
      b := "";
    }
  }

  /** `Trim` removes white space only, and all of it at both ends. */
  lemma TrimSplit(s: string) returns (a: string, b: string)
    ensures AllWhite(a) && AllWhite(b) && Tight(Trim(s))
    ensures s == a + Trim(s) + b
  {
    a := TrimStartSplit(s);
    b := TrimEndSplit(TrimStart(s));
    if Trim(s) != "" {
      assert TrimStart(s)[0] == Trim(s)[0];
    }
  }

  lemma TrimIdempotent(s: string)
    ensures Trim(Trim(s)) == Trim(s)
  {
    var a, b := TrimSplit(s);
    TrimOf("", Trim(s), "");
    assert "" + Trim(s) + "" == Trim(s);
  }

  lemma TrimTight(s: string)
    requires Tight(s)
    ensures Trim(s) == s
  {
    TrimOf("", s, "");
    assert "" + s + "" == s;
  }

  lemma TrimBlank(s: string)
    ensures Trim(s) == "" <==> AllWhite(s)
  {
    var a, b := TrimSplit(s);
    if AllWhite(s) {
      TrimStartOf(s, "");
      assert s + "" == s;
    }
    if Trim(s) == "" {
      assert s == a + b;
    }
  }

  lemma TrimLeadingWhite(a: string, s: string)
    requires AllWhite(a)
    ensures Trim(a + s) == Trim(s)
  {
    var x, y := TrimSplit(s);
    TrimOf(a + x, Trim(s), y);
    assert a + s == (a + x) + Trim(s) + y;
  }

  predicate StartsWith(s: string, prefix: string) {
    prefix <= s
  }

  predicate EndsWith(s: string, suffix: string) {
    |suffix| <= |s| && s[|s| - |suffix|..] == suffix
  }

  /** The index of the first `c` in `s`, or the length of `s`. */
  function IndexOf(s: string, c: char): (n: nat)
    ensures n <= |s|
    ensures forall j :: 0 <= j < n ==> s[j] != c
    ensures n < |s| ==> s[n] == c
  {
    if s == "" || s[0] == c then 0 else 1 + IndexOf(s[1..], c)
  }

  lemma IndexOfUnique(s: string, c: char, n: nat)
    requires n < |s| && s[n] == c && forall j :: 0 <= j < n ==> s[j] != c
    ensures IndexOf(s, c) == n
  {
  }

  /** `str::lines`: pieces between LFs, each without a trailing CR; no empty last piece. */
  function Lines(s: string): seq<string> {
    if s == "" then []
    else
      var n := IndexOf(s, '\n');
      if n == |s| then [s] else [StripCr(s[..n])] + Lines(s[n + 1..])
  }

  function StripCr(s: string): string {
    if s != "" && s[|s| - 1] == '\r' then s[..|s| - 1] else s
  }

  /** `str::split` on one character. */
  function Split(s: string, c: char): (parts: seq<string>)
    ensures |parts| >= 1
    decreases |s|
  {
    var n := IndexOf(s, c);
    if n == |s| then [s] else [s[..n]] + Split(s[n + 1..], c)
  }

  lemma SplitHead(a: string, c: char, rest: string)
    requires c !in a
    ensures Split(a + [c] + rest, c) == [a] + Split(rest, c)
  {
    var s := a + [c] + rest;
    assert forall j :: 0 <= j < |a| ==> s[j] == a[j];
    IndexOfUnique(s, c, |a|);
    assert s[..|a|] == a && s[|a| + 1..] == rest;
  }

  /** A text is its first line, an LF, and the text after it. */
  lemma LinesCons(line: string, rest: string)
    requires '\n' !in line
    ensures Lines(line + "\n" + rest) == [StripCr(line)] + Lines(rest)
  {
    var s := line + "\n" + rest;
    assert forall j :: 0 <= j < |line| ==> s[j] == line[j];
    IndexOfUnique(s, '\n', |line|);
    assert s[..|line|] == line && s[|line| + 1..] == rest;
  }

  lemma TrimStripCr(s: string)
    ensures Trim(StripCr(s)) == Trim(s)
  {
    if StripCr(s) != s {
      var a, b := TrimSplit(StripCr(s));
      TrimOf(a, Trim(StripCr(s)), b + "\r");
      assert s == a + Trim(StripCr(s)) + (b + "\r");
    }
  }

  // --- decimal numbers ---

  predicate IsDigit(c: char) {
    '0' <= c <= '9'
  }

  predicate AllDigits(s: string) {
    forall i :: 0 <= i < |s| ==> IsDigit(s[i])
  }

  function DigitsValue(s: string): nat
    requires AllDigits(s)
  {
    if s == "" then 0 else 10 * DigitsValue(s[..|s| - 1]) + (s[|s| - 1] as int - '0' as int)
  }

  /** How Rust prints an unsigned integer. */
  function Decimal(n: nat): string {
    var digit := ('0' as int + n % 10) as char;
    if n < 10 then [digit] else Decimal(n / 10) + [digit]
  }

  /** How Rust prints a signed integer. */
  function DecimalInt(n: int): string {
    if n < 0 then "-" + Decimal(-n) else Decimal(n)
  }

  lemma {:induction false} DecimalDigits(n: nat)
    ensures AllDigits(Decimal(n)) && |Decimal(n)| > 0 && DigitsValue(Decimal(n)) == n
  {
    if n < 10 {
      assert Decimal(n)[..0] == "";
    } else {
      DecimalDigits(n / 10);
      assert Decimal(n)[..|Decimal(n)| - 1] == Decimal(n / 10);
    }
  }

  /** `str::parse` for an unsigned type with the given maximum. */
  function ParseUnsigned(s: string, max: nat): (n: Option<nat>)
    ensures n.Some? ==> n.value <= max
  {
    var digits := if StartsWith(s, "+") then s[1..] else s;
    if digits == "" || !AllDigits(digits) || DigitsValue(digits) > max then None
    else Some(DigitsValue(digits))
  }

  /** `str::parse` for a signed type with the given bounds. */
  function ParseSigned(s: string, min: int, max: int): (n: Option<int>)
    ensures n.Some? ==> min <= n.value <= max
  {
    var negative := StartsWith(s, "-");
    var digits := if StartsWith(s, "+") || negative then s[1..] else s;
    if digits == "" || !AllDigits(digits) then None
    else
      var magnitude: int := DigitsValue(digits);
      var v := if negative then -magnitude else magnitude;
      if min <= v <= max then Some(v) else None
  }

  lemma ParsePrintedUnsigned(n: nat, max: nat)
    requires n <= max
    ensures ParseUnsigned(Decimal(n), max) == Some(n)
    ensures Tight(Decimal(n)) && Decimal(n) != "" && AllDigits(Decimal(n))
  {
    DecimalDigits(n);
  }

  lemma ParsePrintedSigned(n: int, min: int, max: int)
    requires min <= n <= max
    ensures ParseSigned(DecimalInt(n), min, max) == Some(n)
  {
    if n < 0 {
      DecimalDigits(-n);
      assert DecimalInt(n)[1..] == Decimal(-n);
    } else {
      DecimalDigits(n);
      assert IsDigit(Decimal(n)[0]);
    }
  }

  lemma PrintedSignedShape(n: int)
    ensures Tight(DecimalInt(n)) && DecimalInt(n) != ""
    ensures forall c :: c in DecimalInt(n) ==> c == '-' || IsDigit(c)
  {
    DecimalDigits(if n < 0 then -n else n);
  }

  lemma DigitAppended(s: string, c: char)
    requires AllDigits(s) && IsDigit(c)
    ensures AllDigits(s + [c]) && DigitsValue(s + [c]) == 10 * DigitsValue(s) + (c as int - '0' as int)
  {
    assert (s + [c])[..|s|] == s;
  }

  /** The number that three digits print, each worth ten times the next. */
  lemma ThreeDigits(a: char, b: char, c: char)
    requires IsDigit(a) && IsDigit(b) && IsDigit(c)
    ensures AllDigits([a, b, c])
    ensures DigitsValue([a, b, c]) ==
      100 * (a as int - '0' as int) + 10 * (b as int - '0' as int) + (c as int - '0' as int)
  {
    DigitAppended("", a);
    DigitAppended([a], b);
    DigitAppended([a, b], c);
    assert "" + [a] == [a] && [a] + [b] == [a, b] && [a, b] + [c] == [a, b, c];
  }

  /** Digits count as usual, with a sign or without, up to the limits of the type. */
  lemma DigitsCount()
    ensures ParseUnsigned("205", 255) == Some(205) && ParseUnsigned("+205", 255) == Some(205)
    ensures ParseUnsigned("256", 255) == None && ParseUnsigned("-205", 255) == None && ParseUnsigned("", 255) == None
    ensures ParseSigned("-113", -0x8000_0000, 0x7FFF_FFFF) == Some(-113)
  {
    ThreeDigits('2', '0', '5');
    ThreeDigits('2', '5', '6');
    ThreeDigits('1', '1', '3');
    assert "205" == ['2', '0', '5'] && "256" == ['2', '5', '6'];
    assert "+205"[1..] == "205" && "-113"[1..] == ['1', '1', '3'];
    assert !IsDigit("-205"[0]) && "205"[0] == '2' && "256"[0] == '2';
  }

  /** Trimming takes away blanks of every kind, and nothing else. */
  lemma BlanksTrimmed(c: char)
    ensures Trim([c] + "x" + [c]) == "x" <==> c in " \t\n\r" || c == 11 as char || c == 12 as char
  {
    var s := [c] + "x" + [c];
    if IsWhite(c) {
      TrimOf([c], "x", [c]);
    } else {
      TrimTight(s);
      assert |s| == 3;
    }
  }
}
