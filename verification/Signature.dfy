/**
 Signed webhook content: what is fed to the keyed hash, how uniquely it reads back, and
 which messages the two published verifiers accept.  The keyed hash is a parameter.
 */
module Signature {
  import opened Wrappers

  // Decimal numbers, as %d prints them

  function DigitChar(d: nat): char
    requires d < 10
  {
    '0' + (d as char)
  }

  predicate IsDigit(c: char) {
    '0' <= c <= '9'
  }

  function DigitValue(c: char): nat
    requires IsDigit(c)
  {
    (c - '0') as nat
  }

  function PrintNat(n: nat): (s: string)
    ensures s != "" && forall i :: 0 <= i < |s| ==> IsDigit(s[i])
  {
    if n < 10 then [DigitChar(n)] else PrintNat(n / 10) + [DigitChar(n % 10)]
  }

  function Print(n: int): string {
    if n < 0 then "-" + PrintNat(-n) else PrintNat(n)
  }

  predicate AllDigits(s: string) {
    forall i :: 0 <= i < |s| ==> IsDigit(s[i])
  }

  function ParseNat(s: string): nat
    requires AllDigits(s)
  {
    if s == "" then 0 else 10 * ParseNat(s[..|s| - 1]) + DigitValue(s[|s| - 1])
  }

  /** A decimal with an optional minus sign; None for any other text. */
  function Parse(s: string): Option<int> {
    if s != "" && AllDigits(s) then Some(ParseNat(s))
    else if |s| > 1 && s[0] == '-' && AllDigits(s[1..]) then
      var magnitude: int := ParseNat(s[1..]);
      Some(-magnitude)
    else None
  }

  lemma {:induction false} ParsePrintNat(n: nat)
    ensures ParseNat(PrintNat(n)) == n
  {
    if n >= 10 {
      ParsePrintNat(n / 10);
      assert PrintNat(n)[..|PrintNat(n)| - 1] == PrintNat(n / 10);
    }
  }

  /** Printed numbers have no leading zero. */
  lemma {:induction false} NoLeadingZero(n: nat)
    ensures PrintNat(0) == "0" && (n > 0 ==> PrintNat(n)[0] != '0')
  {
    if n >= 10 { NoLeadingZero(n / 10); }
  }

  lemma ParseMinus(digits: string)
    requires digits != "" && AllDigits(digits)
    ensures var m: int := ParseNat(digits); Parse("-" + digits) == Some(-m)
  {
    var s := "-" + digits;
    assert s[1..] == digits && !IsDigit(s[0]);
  }

  lemma PrintDotFree(n: int)
    ensures DotFree(Print(n))
  {
  }

  lemma ParsePrint(n: int)
    ensures Parse(Print(n)) == Some(n) && DotFree(Print(n))
  {
    PrintDotFree(n);
    if n < 0 {
      ParsePrintNat(-n);
      ParseMinus(PrintNat(-n));
    } else {
      ParsePrintNat(n);
    }
  }

  // The signer

  datatype Signed = Signed(id: string, timestamp: int, signature: string)

  function Content(id: string, timestampText: string, body: string): string {
    id + "." + timestampText + "." + body
  }

  function Sign(id: string, secret: string, body: string, timestamp: int, mac: (string, string) -> string): Signed {
    Signed(id, timestamp, "v1," + mac(secret, Content(id, Print(timestamp), body)))
  }

  /** What is hashed and what is sent, in full. */
  lemma SignedInFull(id: string, secret: string, body: string, timestamp: int, mac: (string, string) -> string)
    ensures Sign(id, secret, body, timestamp, mac) ==
      Signed(id, timestamp, "v1," + mac(secret, id + "." + Print(timestamp) + "." + body))
  {
  }

  // Reading the content back

  predicate DotFree(s: string) {
    forall i :: 0 <= i < |s| ==> s[i] != '.'
  }

  /** The position of the first dot, or the length when there is none. */
  function FirstDot(s: string): (n: nat)
    ensures n <= |s| && DotFree(s[..n]) && (n < |s| ==> s[n] == '.')
  {
    if s == "" || s[0] == '.' then 0
    else
      var n := 1 + FirstDot(s[1..]);
      assert forall i :: 0 < i < n ==> s[..n][i] == s[1..][..n - 1][i - 1];
      n
  }

  datatype Triple = Triple(id: string, timestamp: int, body: string)

  /** Splits at the first two dots and parses what lies between them. */
  function ReadContent(c: string): Option<Triple> {
    var n := FirstDot(c);
    if n == |c| then None
    else
      var rest := c[n + 1..];
      var m := FirstDot(rest);
      if m == |rest| then None
      else match Parse(rest[..m])
        case None => None
        case Some(t) => Some(Triple(c[..n], t, rest[m + 1..]))
  }

  lemma {:induction false} FirstDotAfter(head: string, tail: string)
    requires DotFree(head)
    ensures FirstDot(head + "." + tail) == |head|
  {
    if head != "" {
      FirstDotAfter(head[1..], tail);
      assert (head + "." + tail)[1..] == head[1..] + "." + tail;
    }
  }

  /** Two dot-free fields can be read off the front. */
  lemma FieldsReadBack(id: string, text: string, body: string)
    requires DotFree(id) && DotFree(text)
    ensures var c := Content(id, text, body);
      && FirstDot(c) == |id| < |c| && c[..|id|] == id
      && var rest := c[|id| + 1..];
         FirstDot(rest) == |text| < |rest| && rest[..|text|] == text && rest[|text| + 1..] == body
  {
    var c := Content(id, text, body);
    assert c == id + "." + (text + "." + body);
    FirstDotAfter(id, text + "." + body);
    assert c[|id| + 1..] == text + "." + body;
    FirstDotAfter(text, body);
  }

  /** The content reads back as what was signed exactly when the id has no dot. */
  lemma ContentReadsBack(id: string, timestamp: int, body: string)
    ensures ReadContent(Content(id, Print(timestamp), body)) == Some(Triple(id, timestamp, body)) <==> DotFree(id)
  {
    var c := Content(id, Print(timestamp), body);
    ParsePrint(timestamp);
    if DotFree(id) {
      FieldsReadBack(id, Print(timestamp), body);
    } else {
      assert ReadContent(c).Some? ==> ReadContent(c).value.id == c[..FirstDot(c)];
    }
  }

  /** Distinct messages with dot-free ids never give the hash the same input. */
  lemma ContentIsInjective(a: Triple, b: Triple)
    requires DotFree(a.id) && DotFree(b.id)
    requires Content(a.id, Print(a.timestamp), a.body) == Content(b.id, Print(b.timestamp), b.body)
    ensures a == b
  {
    ContentReadsBack(a.id, a.timestamp, a.body);
    ContentReadsBack(b.id, b.timestamp, b.body);
  }

  /** With dots in ids two different messages can share one input. */
  lemma DottedIdsCollide()
    ensures Content("a.1", Print(2), "b") == Content("a", Print(1), "2.b")
  {
    assert Print(1) == "1" && Print(2) == "2";
    assert "a.1" + "." + "2" + "." + "b" == "a.1.2.b";
    assert "a" + "." + "1" + "." + "2.b" == "a.1.2.b";
  }

  // The worker's message ids

  predicate IsUuidText(s: string) {
    forall i :: 0 <= i < |s| ==> IsDigit(s[i]) || 'a' <= s[i] <= 'f' || s[i] == '-'
  }

  /** The id header is the row's UUID after a fixed prefix, so it has no dot and its
      content always reads back. */
  lemma WorkerContentReadsBack(uuid: string, timestamp: int, body: string)
    requires IsUuidText(uuid)
    ensures ReadContent(Content("msg_" + uuid, Print(timestamp), body)) == Some(Triple("msg_" + uuid, timestamp, body))
  {
    assert DotFree("msg_" + uuid);
    ContentReadsBack("msg_" + uuid, timestamp, body);
  }

  // The verifiers

  const TOLERANCE: int := 300

  datatype Headers = Headers(id: string, timestamp: string, signature: string)

  function HeadersOf(s: Signed): Headers {
    Headers(s.id, Print(s.timestamp), s.signature)
  }

  /** Both published verifiers: the text of the timestamp passes a check of the time, and the
      signature is that of the content put together from the headers and the body. */
  predicate Verify(h: Headers, body: string, secret: string, mac: (string, string) -> string, fits: string -> bool) {
    fits(h.timestamp) && h.signature == "v1," + mac(secret, Content(h.id, h.timestamp, body))
  }

  lemma VerifiedInFull(h: Headers, body: string, secret: string, mac: (string, string) -> string, fits: string -> bool)
    ensures Verify(h, body, secret, mac, fits) <==>
      fits(h.timestamp) && h.signature == "v1," + mac(secret, h.id + "." + h.timestamp + "." + body)
  {
  }

  // The check of the Node verifier: parseInt, with NaN compared to the tolerance

  function Abs(n: int): nat {
    if n < 0 then -n else n
  }

  /** What counts as blank is the language's business, but nothing that numbers are written with
      does, nor a dot or a brace. */
  ghost predicate Blanks(blank: char -> bool) {
    forall c :: blank(c) ==> !IsDigit(c) && c != '-' && c != '+' && c != '.' && c != '{'
  }

  function TrimBlanks(s: string, blank: char -> bool): string {
    if s != "" && blank(s[0]) then TrimBlanks(s[1..], blank) else s
  }

  predicate IsHexDigit(c: char) {
    IsDigit(c) || 'a' <= c <= 'f' || 'A' <= c <= 'F'
  }

  function HexValue(c: char): nat
    requires IsHexDigit(c)
  {
    if IsDigit(c) then DigitValue(c) else if c >= 'a' then 10 + (c - 'a') as nat else 10 + (c - 'A') as nat
  }

  predicate AllHex(s: string) {
    forall i :: 0 <= i < |s| ==> IsHexDigit(s[i])
  }

  function ParseHex(s: string): nat
    requires AllHex(s)
  {
    if s == "" then 0 else 16 * ParseHex(s[..|s| - 1]) + HexValue(s[|s| - 1])
  }

  function Pow16(n: nat): nat {
    if n == 0 then 1 else 16 * Pow16(n - 1)
  }

  /** A hexadecimal digit has the value of its place among the sixteen. */
  lemma HexDigits(c: char)
    requires IsHexDigit(c)
    ensures HexValue(c) < 16
    ensures c == "0123456789abcdef"[HexValue(c)] || c == "0123456789ABCDEF"[HexValue(c)]
  {
  }

  lemma Sixteenfold(v: nat, p: nat, q: nat)
    requires q == 16 * p
    ensures 16 * (v * p) == v * q
  {
  }

  /** And it counts 16 times for each digit after it. */
  lemma {:induction false} HexPlaces(c: char, s: string)
    requires IsHexDigit(c) && AllHex(s)
    ensures var v := HexValue(c);
      && v < 16 && (c == "0123456789abcdef"[v] || c == "0123456789ABCDEF"[v])
      && ParseHex("") == 0 && ParseHex([c] + s) == v * Pow16(|s|) + ParseHex(s)
  {
    HexDigits(c);
    if s == "" {
      assert ([c] + s)[..0] == "";
    } else {
      var init := s[..|s| - 1];
      assert ([c] + s)[..|s|] == [c] + init;
      HexPlaces(c, init);
      Sixteenfold(HexValue(c), Pow16(|init|), Pow16(|s|));
    }
  }

  /** The longest front of s that `digit` holds of. */
  function Front(s: string, digit: char -> bool): (n: nat)
    ensures n <= |s| && (forall i :: 0 <= i < n ==> digit(s[i])) && (n < |s| ==> !digit(s[n]))
  {
    if s == "" || !digit(s[0]) then 0
    else
      var n := 1 + Front(s[1..], digit);
      assert forall i :: 0 < i < n ==> s[i] == s[1..][i - 1];
      n
  }

  predicate IsHex(s: string) {
    |s| >= 2 && s[0] == '0' && (s[1] == 'x' || s[1] == 'X')
  }

  /** Digits up to the first character that is none; None when there is no digit. */
  function Magnitude(s: string): Option<nat> {
    if IsHex(s) then
      var n := Front(s[2..], IsHexDigit);
      if n == 0 then None else Some(ParseHex(s[2..][..n]))
    else
      var n := Front(s, IsDigit);
      if n == 0 then None else Some(ParseNat(s[..n]))
  }

  /** parseInt without a radix: blanks, a sign, digits, and then anything; None for NaN. */
  function ParseInt(s: string, blank: char -> bool): Option<int> {
    var t := TrimBlanks(s, blank);
    if t != "" && t[0] == '-' then
      match Magnitude(t[1..])
      case None => None
      case Some(n) => var magnitude: int := n; Some(-magnitude)
    else
      match Magnitude(if t != "" && t[0] == '+' then t[1..] else t)
      case None => None
      case Some(n) => Some(n)
  }

  /** `Math.abs(now - parseInt(text)) > 300` does not hold; no comparison with NaN does. */
  predicate NodeFits(text: string, now: int, blank: char -> bool) {
    match ParseInt(text, blank)
    case None => true
    case Some(t) => Abs(now - t) <= TOLERANCE
  }

  /** The check refuses exactly what is a number more than 300 seconds away. */
  lemma NodeRefuses(text: string, now: int, blank: char -> bool)
    ensures !NodeFits(text, now, blank) <==>
      exists t :: ParseInt(text, blank) == Some(t) && (now - t > 300 || now - t < -300)
  {
    if !NodeFits(text, now, blank) { assert ParseInt(text, blank) == Some(ParseInt(text, blank).value); }
  }

  lemma {:induction false} BlanksTrimmed(front: string, s: string, blank: char -> bool)
    requires (forall i :: 0 <= i < |front| ==> blank(front[i])) && (s == "" || !blank(s[0]))
    ensures TrimBlanks(front + s, blank) == s
  {
    if front == "" {
      assert front + s == s;
    } else {
      BlanksTrimmed(front[1..], s, blank);
      assert (front + s)[1..] == front[1..] + s;
    }
  }

  predicate IsSign(sign: string) {
    sign == "" || sign == "-" || sign == "+"
  }

  function WithSign(sign: string, n: int): int {
    if sign == "-" then -n else n
  }

  lemma ParseIntOf(front: string, sign: string, text: string, blank: char -> bool)
    requires Blanks(blank) && (forall i :: 0 <= i < |front| ==> blank(front[i])) && IsSign(sign)
    requires text == "" || sign != "" || (!blank(text[0]) && text[0] != '-' && text[0] != '+')
    ensures ParseInt(front + sign + text, blank) ==
      match Magnitude(text)
      case None => None
      case Some(n) => var m: int := n; Some(WithSign(sign, m))
  {
    assert front + sign + text == front + (sign + text);
    BlanksTrimmed(front, sign + text, blank);
    if sign != "" { assert (sign + text)[1..] == text; } else { assert sign + text == text; }
  }

  /** Decimal digits count up to the first character that is none. */
  lemma ParseIntDecimal(front: string, sign: string, digits: string, rest: string, blank: char -> bool)
    requires Blanks(blank) && (forall i :: 0 <= i < |front| ==> blank(front[i])) && IsSign(sign)
    requires digits != "" && AllDigits(digits) && (rest == "" || !IsDigit(rest[0])) && !IsHex(digits + rest)
    ensures ParseInt(front + sign + (digits + rest), blank) == Some(WithSign(sign, ParseNat(digits)))
  {
    FrontIs(digits + rest, IsDigit, |digits|);
    assert (digits + rest)[..|digits|] == digits;
    ParseIntOf(front, sign, digits + rest, blank);
  }

  /** After 0x or 0X it is hexadecimal digits that count. */
  lemma ParseIntHexadecimal(front: string, sign: string, x: char, digits: string, rest: string, blank: char -> bool)
    requires Blanks(blank) && (forall i :: 0 <= i < |front| ==> blank(front[i])) && IsSign(sign)
    requires (x == 'x' || x == 'X') && AllHex(digits) && (rest == "" || !IsHexDigit(rest[0]))
    ensures ParseInt(front + sign + (['0', x] + (digits + rest)), blank) ==
      if digits == "" then None else Some(WithSign(sign, ParseHex(digits)))
  {
    var text := ['0', x] + (digits + rest);
    assert text[2..] == digits + rest;
    FrontIs(digits + rest, IsHexDigit, |digits|);
    assert (digits + rest)[..|digits|] == digits;
    ParseIntOf(front, sign, text, blank);
  }

  /** Without a digit behind the blanks and the sign there is no number. */
  lemma ParseIntNaN(front: string, sign: string, rest: string, blank: char -> bool)
    requires Blanks(blank) && (forall i :: 0 <= i < |front| ==> blank(front[i])) && IsSign(sign)
    requires rest == "" || !IsDigit(rest[0])
    requires rest == "" || sign != "" || (!blank(rest[0]) && rest[0] != '-' && rest[0] != '+')
    ensures ParseInt(front + sign + rest, blank) == None
  {
    FrontIs(rest, IsDigit, 0);
    ParseIntOf(front, sign, rest, blank);
  }

  lemma {:induction false} FrontIs(s: string, digit: char -> bool, n: nat)
    requires n <= |s| && (forall i :: 0 <= i < n ==> digit(s[i])) && (n < |s| ==> !digit(s[n]))
    ensures Front(s, digit) == n
  {
    if n > 0 { FrontIs(s[1..], digit, n - 1); }
  }

  lemma MagnitudeReads(n: nat, rest: string)
    requires rest == "" || (!IsDigit(rest[0]) && rest[0] != 'x' && rest[0] != 'X')
    ensures Magnitude(PrintNat(n) + rest) == Some(n)
  {
    var s, k := PrintNat(n) + rest, |PrintNat(n)|;
    assert !IsHex(s) by { assert s[1..] != "" && k > 1 ==> IsDigit(s[1]); }
    FrontIs(s, IsDigit, k);
    assert s[..k] == PrintNat(n);
    ParsePrintNat(n);
  }

  lemma ParseIntMinus(s: string, n: int, blank: char -> bool)
    requires Blanks(blank) && n < 0 && s != "" && s[0] == '-' && Magnitude(s[1..]) == Some(-n)
    ensures ParseInt(s, blank) == Some(n)
  {
    assert TrimBlanks(s, blank) == s;
  }

  lemma ParseIntDigits(s: string, n: nat, blank: char -> bool)
    requires Blanks(blank) && s != "" && IsDigit(s[0]) && Magnitude(s) == Some(n)
    ensures ParseInt(s, blank) == Some(n)
  {
    assert TrimBlanks(s, blank) == s;
  }

  /** A printed number is read back, whatever follows after a dot. */
  lemma ParseIntReads(n: int, rest: string, blank: char -> bool)
    requires Blanks(blank) && (rest == "" || rest[0] == '.')
    ensures ParseInt(Print(n) + rest, blank) == Some(n)
  {
    if n < 0 {
      var s := "-" + PrintNat(-n) + rest;
      assert s[1..] == PrintNat(-n) + rest;
      MagnitudeReads(-n, rest);
      ParseIntMinus(s, n, blank);
    } else {
      MagnitudeReads(n, rest);
      ParseIntDigits(PrintNat(n) + rest, n, blank);
    }
  }

  // The check of the Python verifier

  /** int() raises on a text with a dot and reads every printed number. */
  ghost predicate Strict(read: string -> Option<int>) {
    && (forall s :: read(s).Some? ==> DotFree(s))
    && (forall n :: read(Print(n)) == Some(n))
  }

  lemma ParseIsStrict()
    ensures Strict(Parse)
  {
    forall s | Parse(s).Some? ensures DotFree(s) { ParsedIsDotFree(s); }
    forall n ensures Parse(Print(n)) == Some(n) { ParsePrint(n); }
  }

  /** The clock of this verifier has fractions of a second. */
  predicate PythonFits(text: string, now: real, read: string -> Option<int>) {
    match read(text)
    case None => false
    case Some(t) => -300.0 <= now - t as real <= 300.0
  }

  /** Both verifiers accept a signed message exactly within five minutes of its timestamp. */
  lemma SignedIsAccepted(id: string, secret: string, body: string, timestamp: int, now: int, clock: real,
                         mac: (string, string) -> string, blank: char -> bool, read: string -> Option<int>)
    requires Blanks(blank) && Strict(read)
    ensures var h := HeadersOf(Sign(id, secret, body, timestamp, mac));
      && (Verify(h, body, secret, mac, text => NodeFits(text, now, blank)) <==> -300 <= now - timestamp <= 300)
      && (Verify(h, body, secret, mac, text => PythonFits(text, clock, read)) <==> -300.0 <= clock - timestamp as real <= 300.0)
  {
    ParseIntReads(timestamp, "", blank);
    assert Print(timestamp) + "" == Print(timestamp);
  }

  lemma ParsedIsDotFree(s: string)
    requires Parse(s).Some?
    ensures DotFree(s)
  {
    if !AllDigits(s) { assert forall i :: 0 < i < |s| ==> s[i] == s[1..][i - 1]; }
  }

  // Which messages a signature is accepted for

  /** The part of the body from start to stop begins the body or follows a dot, and is followed
      by a dot. */
  predicate BetweenDots(body: string, start: nat, stop: nat) {
    start <= stop < |body| && body[stop] == '.' && (start == 0 || body[start - 1] == '.')
  }

  /** What goes before that part, as an id. */
  function IdUpTo(id: string, timestamp: int, body: string, start: nat): string
    requires start <= |body|
  {
    id + "." + Print(timestamp) + if start == 0 then "" else "." + body[..start - 1]
  }

  /** The same content split at the dots around that part. */
  predicate SplitAt(id: string, timestamp: int, body: string, h: Headers, received: string, start: nat, stop: nat) {
    && BetweenDots(body, start, stop)
    && h.id == IdUpTo(id, timestamp, body, start) && h.timestamp == body[start..stop] && received == body[stop + 1..]
  }

  /** The same content with the timestamp going on to a dot of the body. */
  predicate KeepsId(id: string, timestamp: int, body: string, h: Headers, received: string, stop: nat) {
    && stop < |body| && body[stop] == '.'
    && h.id == id && h.timestamp == Print(timestamp) + "." + body[..stop] && received == body[stop + 1..]
  }

  lemma Regroup(front: string, middle: string, text: string, rest: string)
    ensures Content(front + "." + middle, text, rest) == front + "." + (middle + "." + (text + "." + rest))
    ensures Content(front, text, rest) == front + "." + (text + "." + rest)
  {
    assert Content(front, text, rest) == front + "." + (text + "." + rest);
    assert Content(front + "." + middle, text, rest) == front + "." + (middle + "." + (text + "." + rest));
  }

  lemma Cut(body: string, start: nat, stop: nat)
    requires start <= stop < |body| && body[stop] == '.'
    ensures body[start..] == body[start..stop] + "." + body[stop + 1..]
    ensures start > 0 && body[start - 1] == '.' ==> body == body[..start - 1] + "." + body[start..]
  {
  }

  lemma SplitKeepsContent(id: string, timestamp: int, body: string, start: nat, stop: nat)
    requires BetweenDots(body, start, stop)
    ensures Content(IdUpTo(id, timestamp, body, start), body[start..stop], body[stop + 1..]) == Content(id, Print(timestamp), body)
  {
    var front, text, rest := id + "." + Print(timestamp), body[start..stop], body[stop + 1..];
    Cut(body, start, stop);
    assert Content(id, Print(timestamp), body) == front + "." + body;
    if start == 0 {
      assert IdUpTo(id, timestamp, body, 0) == front;
      Regroup(front, "", text, rest);
    } else {
      assert IdUpTo(id, timestamp, body, start) == front + "." + body[..start - 1];
      Regroup(front, body[..start - 1], text, rest);
    }
  }

  /** Whatever the hash, the signature is good for every such split whose timestamp passes. */
  lemma SplitIsAccepted(id: string, secret: string, body: string, timestamp: int, start: nat, stop: nat,
                        h: Headers, received: string, mac: (string, string) -> string, fits: string -> bool)
    requires h.signature == Sign(id, secret, body, timestamp, mac).signature && fits(h.timestamp)
    requires SplitAt(id, timestamp, body, h, received, start, stop) || KeepsId(id, timestamp, body, h, received, stop)
    ensures Verify(h, received, secret, mac, fits)
  {
    if SplitAt(id, timestamp, body, h, received, start, stop) {
      SplitKeepsContent(id, timestamp, body, start, stop);
    } else {
      Cut(body, 0, stop);
      assert body[0..] == body && body[0..stop] == body[..stop];
      assert Content(h.id, h.timestamp, received) == Content(id, Print(timestamp), body);
    }
  }

  lemma SplitsAgree(a: string, b: string, c: string, d: string)
    requires a + "." + b == c + "." + d && |a| == |c|
    ensures a == c && b == d
  {
    var s := a + "." + b;
    assert s[..|a|] == a && s[|a| + 1..] == b;
    assert s[..|c|] == c && s[|c| + 1..] == d;
  }

  /** Of two splits of a string at a dot, the longer first part has the shorter one and a dot. */
  lemma SplitsCompare(a: string, b: string, c: string, d: string)
    requires a + "." + b == c + "." + d && |a| < |c|
    ensures c[|a|] == '.' && c == a + "." + c[|a| + 1..] && b == c[|a| + 1..] + "." + d
  {
    var s := a + "." + b;
    assert s[..|a|] == a && s[|a|] == '.' && s[|a| + 1..] == b;
    assert s[..|c|] == c && s[|c|] == '.' && s[|c| + 1..] == d;
    assert c[..|a|] == s[..|a|] && c[|a|] == s[|a|];
    assert s[|a| + 1..] == s[|a| + 1..|c|] + s[|c|..];
    assert s[|a| + 1..|c|] == c[|a| + 1..] && s[|c|..] == "." + d;
  }

  /** Whether a header and a body are those the signer made. */
  predicate IsSigned(id: string, timestamp: int, body: string, h: Headers, received: string) {
    h.id == id && h.timestamp == Print(timestamp) && received == body
  }

  /** One of the splits of the content of a message at two of its dots. */
  ghost predicate IsReading(id: string, timestamp: int, body: string, h: Headers, received: string) {
    || IsSigned(id, timestamp, body, h, received)
    || (exists stop: nat :: KeepsId(id, timestamp, body, h, received, stop))
    || exists start: nat, stop: nat :: SplitAt(id, timestamp, body, h, received, start, stop)
  }

  /** Everything that can be read out of the content of a message with a dot-free id. */
  lemma ReadingsOfContent(id: string, timestamp: int, body: string, h: Headers, received: string)
    requires DotFree(id) && Content(h.id, h.timestamp, received) == Content(id, Print(timestamp), body)
    ensures IsReading(id, timestamp, body, h, received)
  {
    var text, tail := Print(timestamp), h.timestamp + "." + received;
    Regroup(id, "", text, body);
    Regroup(h.id, "", h.timestamp, received);
    if |h.id| < |id| {
      SplitsCompare(h.id, tail, id, text + "." + body);
      assert false;
    } else if |h.id| == |id| {
      SplitsAgree(h.id, tail, id, text + "." + body);
      ReadingsWithId(id, timestamp, body, h, received);
    } else {
      SplitsCompare(id, text + "." + body, h.id, tail);
      ReadingsOfRest(id, timestamp, body, h, received, h.id[|id| + 1..]);
    }
  }

  lemma ReadingsWithId(id: string, timestamp: int, body: string, h: Headers, received: string)
    requires h.id == id && Print(timestamp) + "." + body == h.timestamp + "." + received
    ensures IsReading(id, timestamp, body, h, received)
  {
    var text := Print(timestamp);
    ParsePrint(timestamp);
    if |h.timestamp| < |text| {
      SplitsCompare(h.timestamp, received, text, body);
      assert false;
    } else if |h.timestamp| == |text| {
      SplitsAgree(text, body, h.timestamp, received);
    } else {
      SplitsCompare(text, body, h.timestamp, received);
      var before := h.timestamp[|text| + 1..];
      assert body[..|before|] == before && body[|before|] == '.' && body[|before| + 1..] == received;
      assert KeepsId(id, timestamp, body, h, received, |before|);
    }
  }

  lemma ReadingsOfRest(id: string, timestamp: int, body: string, h: Headers, received: string, front: string)
    requires h.id == id + "." + front && Print(timestamp) + "." + body == front + "." + (h.timestamp + "." + received)
    ensures exists start: nat, stop: nat :: SplitAt(id, timestamp, body, h, received, start, stop)
  {
    var text, tail := Print(timestamp), h.timestamp + "." + received;
    ParsePrint(timestamp);
    if |front| < |text| {
      SplitsCompare(front, tail, text, body);
      assert false;
    } else if |front| == |text| {
      SplitsAgree(text, body, front, tail);
      var stop := |h.timestamp|;
      assert body[0..stop] == h.timestamp && body[stop + 1..] == received;
      assert SplitAt(id, timestamp, body, h, received, 0, stop);
    } else {
      SplitsCompare(text, body, front, tail);
      var before := front[|text| + 1..];
      var start := |before| + 1;
      var stop := start + |h.timestamp|;
      assert body == before + "." + tail;
      assert body[..start - 1] == before && body[start..] == tail;
      assert body[start..stop] == h.timestamp && body[stop + 1..] == received;
      assert h.id == IdUpTo(id, timestamp, body, start);
      assert SplitAt(id, timestamp, body, h, received, start, stop);
    }
  }

  ghost predicate CollisionFree(mac: (string, string) -> string, secret: string) {
    forall c, d :: mac(secret, c) == mac(secret, d) ==> c == d
  }

  /** If the hash has no collision under this secret, a signature is accepted for the splits of
      the signed content whose timestamp passes, whatever the check, and for no other message. */
  lemma AcceptedMessages(id: string, secret: string, body: string, timestamp: int,
                         h: Headers, received: string, mac: (string, string) -> string, fits: string -> bool)
    requires CollisionFree(mac, secret) && DotFree(id)
    requires h.signature == Sign(id, secret, body, timestamp, mac).signature
    ensures Verify(h, received, secret, mac, fits) <==> fits(h.timestamp) && IsReading(id, timestamp, body, h, received)
  {
    if Verify(h, received, secret, mac, fits) {
      var x, y := mac(secret, Content(h.id, h.timestamp, received)), mac(secret, Content(id, Print(timestamp), body));
      assert ("v1," + x)[3..] == x && ("v1," + y)[3..] == y;
      assert Content(h.id, h.timestamp, received) == Content(id, Print(timestamp), body);
      ReadingsOfContent(id, timestamp, body, h, received);
    }
    if fits(h.timestamp) && IsReading(id, timestamp, body, h, received) && !IsSigned(id, timestamp, body, h, received) {
      if stop: nat :| KeepsId(id, timestamp, body, h, received, stop) {
        SplitIsAccepted(id, secret, body, timestamp, 0, stop, h, received, mac, fits);
      } else {
        var start: nat, stop: nat :| SplitAt(id, timestamp, body, h, received, start, stop);
        SplitIsAccepted(id, secret, body, timestamp, start, stop, h, received, mac, fits);
      }
    }
  }

  /** Some message other than the signed one is accepted under its signature. */
  ghost predicate AcceptsAnother(id: string, secret: string, body: string, timestamp: int,
                                 mac: (string, string) -> string, fits: string -> bool)
  {
    exists h: Headers, received :: h.signature == Sign(id, secret, body, timestamp, mac).signature
      && Verify(h, received, secret, mac, fits) && !IsSigned(id, timestamp, body, h, received)
  }

  /** Some text that passes the check stands in the body up to a dot: between dots, or as what
      follows the timestamp. */
  ghost predicate FitsWithin(timestamp: int, body: string, fits: string -> bool) {
    || (exists stop: nat :: stop < |body| && body[stop] == '.' && fits(Print(timestamp) + "." + body[..stop]))
    || exists start: nat, stop: nat :: BetweenDots(body, start, stop) && fits(body[start..stop])
  }

  lemma ReadingFits(id: string, secret: string, body: string, timestamp: int,
                    mac: (string, string) -> string, fits: string -> bool)
    requires CollisionFree(mac, secret) && DotFree(id) && AcceptsAnother(id, secret, body, timestamp, mac, fits)
    ensures FitsWithin(timestamp, body, fits)
  {
    var h: Headers, received :| h.signature == Sign(id, secret, body, timestamp, mac).signature
      && Verify(h, received, secret, mac, fits) && !IsSigned(id, timestamp, body, h, received);
    AcceptedMessages(id, secret, body, timestamp, h, received, mac, fits);
    if !(exists stop: nat :: KeepsId(id, timestamp, body, h, received, stop)) {
      var start: nat, stop: nat :| SplitAt(id, timestamp, body, h, received, start, stop);
      assert BetweenDots(body, start, stop) && fits(body[start..stop]);
    }
  }

  /** Another message is accepted wherever a text passes, for any hash and any id. */
  lemma FittingIsAccepted(id: string, secret: string, body: string, timestamp: int,
                          mac: (string, string) -> string, fits: string -> bool)
    requires FitsWithin(timestamp, body, fits)
    ensures AcceptsAnother(id, secret, body, timestamp, mac, fits)
  {
    var signature := Sign(id, secret, body, timestamp, mac).signature;
    if stop: nat :| stop < |body| && body[stop] == '.' && fits(Print(timestamp) + "." + body[..stop]) {
      var h := Headers(id, Print(timestamp) + "." + body[..stop], signature);
      assert KeepsId(id, timestamp, body, h, body[stop + 1..], stop);
      SplitIsAccepted(id, secret, body, timestamp, 0, stop, h, body[stop + 1..], mac, fits);
      assert |body[stop + 1..]| < |body|;
    } else {
      var start: nat, stop: nat :| BetweenDots(body, start, stop) && fits(body[start..stop]);
      var h := Headers(IdUpTo(id, timestamp, body, start), body[start..stop], signature);
      assert SplitAt(id, timestamp, body, h, body[stop + 1..], start, stop);
      SplitIsAccepted(id, secret, body, timestamp, start, stop, h, body[stop + 1..], mac, fits);
      assert |body[stop + 1..]| < |body|;
    }
  }

  predicate HasDot(s: string) {
    exists i :: 0 <= i < |s| && s[i] == '.'
  }

  /** The Node verifier accepts another message if and only if the body has a dot while the
      signed message is accepted itself, or some part of it between dots, up to a dot, is no
      number or a time within five minutes of now. */
  lemma OnlyTheSignedMessage(id: string, secret: string, body: string, timestamp: int, now: int,
                             mac: (string, string) -> string, blank: char -> bool)
    requires CollisionFree(mac, secret) && DotFree(id) && Blanks(blank)
    ensures AcceptsAnother(id, secret, body, timestamp, mac, text => NodeFits(text, now, blank)) <==>
      || (HasDot(body) && -300 <= now - timestamp <= 300)
      || exists start: nat, stop: nat :: BetweenDots(body, start, stop) && NodeFits(body[start..stop], now, blank)
  {
    var fits := text => NodeFits(text, now, blank);
    forall stop: nat | stop < |body| && body[stop] == '.'
      ensures fits(Print(timestamp) + "." + body[..stop]) <==> Abs(now - timestamp) <= TOLERANCE
    {
      ParseIntReads(timestamp, "." + body[..stop], blank);
      assert Print(timestamp) + ("." + body[..stop]) == Print(timestamp) + "." + body[..stop];
    }
    if AcceptsAnother(id, secret, body, timestamp, mac, fits) { ReadingFits(id, secret, body, timestamp, mac, fits); }
    if FitsWithin(timestamp, body, fits) { FittingIsAccepted(id, secret, body, timestamp, mac, fits); }
  }

  /** So a JSON object with a dot in it is good for another message at any time, whatever the hash
      and the id: the text before the first dot is no number. */
  lemma ObjectsFitForEver(id: string, secret: string, body: string, timestamp: int, now: int,
                          mac: (string, string) -> string, blank: char -> bool)
    requires Blanks(blank) && HasDot(body) && body[0] == '{'
    ensures AcceptsAnother(id, secret, body, timestamp, mac, text => NodeFits(text, now, blank))
  {
    var fits := text => NodeFits(text, now, blank);
    var stop := FirstDot(body);
    assert stop < |body|;
    assert BetweenDots(body, 0, stop) && body[0..stop][0] == '{';
    assert fits(body[0..stop]);
    FittingIsAccepted(id, secret, body, timestamp, mac, fits);
  }

  /** The Python verifier accepts another message if and only if some part of the body between
      dots, up to a dot, is a time within five minutes of now. */
  lemma OnlyTheSignedStrictly(id: string, secret: string, body: string, timestamp: int, now: real,
                              mac: (string, string) -> string, read: string -> Option<int>)
    requires CollisionFree(mac, secret) && DotFree(id) && Strict(read)
    ensures AcceptsAnother(id, secret, body, timestamp, mac, text => PythonFits(text, now, read)) <==>
      exists start: nat, stop: nat :: BetweenDots(body, start, stop) && PythonFits(body[start..stop], now, read)
  {
    var fits := text => PythonFits(text, now, read);
    forall stop: nat | stop < |body| && body[stop] == '.' ensures !fits(Print(timestamp) + "." + body[..stop]) {
      assert (Print(timestamp) + "." + body[..stop])[|Print(timestamp)|] == '.';
    }
    if AcceptsAnother(id, secret, body, timestamp, mac, fits) { ReadingFits(id, secret, body, timestamp, mac, fits); }
    if FitsWithin(timestamp, body, fits) { FittingIsAccepted(id, secret, body, timestamp, mac, fits); }
  }

  lemma KeptIdDotsTime(id: string, timestamp: int, body: string, h: Headers, received: string, stop: nat)
    requires KeepsId(id, timestamp, body, h, received, stop)
    ensures !DotFree(h.timestamp)
  {
    assert h.timestamp[|Print(timestamp)|] == '.';
  }

  /** What it accepts beside the signed message always comes with another id, one with a dot. */
  lemma OtherIdsHaveDots(id: string, secret: string, body: string, timestamp: int, h: Headers, received: string,
                         now: real, mac: (string, string) -> string, read: string -> Option<int>)
    requires CollisionFree(mac, secret) && DotFree(id) && Strict(read)
    requires h.signature == Sign(id, secret, body, timestamp, mac).signature
    requires Verify(h, received, secret, mac, text => PythonFits(text, now, read))
    ensures IsSigned(id, timestamp, body, h, received) || !DotFree(h.id)
  {
    AcceptedMessages(id, secret, body, timestamp, h, received, mac, text => PythonFits(text, now, read));
    forall stop: nat | KeepsId(id, timestamp, body, h, received, stop) ensures !DotFree(h.timestamp) {
      KeptIdDotsTime(id, timestamp, body, h, received, stop);
    }
    if !IsSigned(id, timestamp, body, h, received) { assert h.id[|id|] == '.'; }
  }
}
