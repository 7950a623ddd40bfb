/**
 Webhook signatures: `t=<unix seconds>,v1=<hex>`, a MAC over the timestamp, a point and the
 body. The MAC is any function of a secret and a text, section 2 of RFC 2104 being one.
 */
module Signature {
  import opened Core
  import opened Text

  type Mac = (seq<Byte>, seq<Byte>) -> seq<Byte>

  datatype VerifyError = Malformed | Mismatch | Stale

  datatype Verdict = Accepted | Rejected(error: VerifyError)

  const I64_MIN: int := 0 - I64_MAX - 1
  const TWO_63: int := I64_MAX + 1
  const TWO_64: int := U64_MAX + 1

  predicate IsI64(n: int) {
    I64_MIN <= n <= I64_MAX
  }

  // ------------------------------------------------------ numbers and bytes

  function Decimal(n: int): string {
    if n < 0 then "-" + Digits(0 - n) else Digits(n)
  }

  /** Decimal text with an optional sign, refused outside the signed 64-bit range. */
  function ParseI64(s: string): Option<int> {
    var signed := |s| > 0 && (s[0] == '-' || s[0] == '+');
    var digits := if signed then s[1..] else s;
    if |digits| == 0 || !AllDigits(digits) then None
    else
      var n := if signed && s[0] == '-' then 0 - Value(digits) else Value(digits);
      if IsI64(n) then Some(n) else None
  }

  lemma PlainDigitsRead(digits: string)
    requires |digits| > 0 && AllDigits(digits) && IsI64(Value(digits))
    ensures ParseI64(digits) == Some(Value(digits))
  {
    assert IsDigit(digits[0]);
  }

  lemma NegatedDigitsRead(digits: string)
    requires |digits| > 0 && AllDigits(digits) && IsI64(0 - Value(digits))
    ensures ParseI64("-" + digits) == Some(0 - Value(digits))
  {
    assert ("-" + digits)[1..] == digits;
  }

  lemma DecimalReadsBack(n: int)
    requires IsI64(n)
    ensures ParseI64(Decimal(n)) == Some(n)
  {
    if n < 0 {
      ValueOfDigits(0 - n);
      NegatedDigitsRead(Digits(0 - n));
    } else {
      ValueOfDigits(n);
      PlainDigitsRead(Digits(n));
    }
  }

  /** The text is digits, perhaps signed, that spell `n`. */
  predicate Spells(s: string, digits: string, n: int) {
    && |digits| > 0 && AllDigits(digits)
    && (((s == digits || s == "+" + digits) && n == Value(digits)) || (s == "-" + digits && n == 0 - Value(digits)))
  }

  lemma SignedDigitsRead(s: string, digits: string, n: int)
    requires Spells(s, digits, n) && IsI64(n)
    ensures ParseI64(s) == Some(n)
  {
    if s == digits {
      assert IsDigit(s[0]);
    } else {
      assert s[1..] == digits;
    }
  }

  /** A number is read exactly from digits with an optional sign that spell it within range. */
  lemma ReadsExactlyWhen(s: string, n: int)
    ensures ParseI64(s) == Some(n) <==> IsI64(n) && exists digits :: Spells(s, digits, n)
  {
    if digits :| Spells(s, digits, n) && IsI64(n) {
      SignedDigitsRead(s, digits, n);
    }
    if ParseI64(s) == Some(n) {
      if s[0] == '-' || s[0] == '+' {
        assert s == [s[0]] + s[1..];
        assert Spells(s, s[1..], n);
      } else {
        assert Spells(s, s, n);
      }
    }
  }

  predicate PlainChar(c: char) {
    IsDigit(c) || 'a' <= c <= 'f' || c == '-'
  }

  predicate Plain(s: string) {
    forall k :: 0 <= k < |s| ==> PlainChar(s[k])
  }

  lemma DecimalIsPlain(n: int)
    ensures Plain(Decimal(n))
  {
  }

  function HexChar(d: nat): (c: char)
    requires d < 16
    ensures PlainChar(c) && HexValue(c) == Some(d)
  {
    if d < 10 then DigitChar(d) else ('a' as int + d - 10) as char
  }

  function HexValue(c: char): Option<nat> {
    if IsDigit(c) then Some(DigitValue(c))
    else if 'a' <= c <= 'f' then Some(c as int - 'a' as int + 10)
    else if 'A' <= c <= 'F' then Some(c as int - 'A' as int + 10)
    else None
  }

  function HexEncode(bytes: seq<Byte>): string {
    if |bytes| == 0 then ""
    else [HexChar(bytes[0] / 16), HexChar(bytes[0] % 16)] + HexEncode(bytes[1..])
  }

  function HexDecode(s: string): Option<seq<Byte>> {
    if |s| == 0 then Some([])
    else if |s| == 1 then None
    else
      var high, low, rest := HexValue(s[0]), HexValue(s[1]), HexDecode(s[2..]);
      if high.None? || low.None? || rest.None? then None
      else
        NibblesFit(s[0], s[1]);
        Some([16 * high.value + low.value] + rest.value)
  }

  /** A digit of either case stands for its place in the sixteen digits. */
  lemma HexDigitsAre(c: char, v: nat)
    ensures HexValue(c) == Some(v) <==> v < 16 && (c == "0123456789abcdef"[v] || c == "0123456789ABCDEF"[v])
  {
  }

  /** Byte `k` of the decoding is read from the two digits at `2k`. */
  predicate Reads(s: string, bytes: seq<Byte>, k: nat)
    requires k < |bytes| && |s| == 2 * |bytes|
  {
    && HexValue(s[2 * k]).Some? && HexValue(s[2 * k + 1]).Some?
    && bytes[k] == 16 * HexValue(s[2 * k]).value + HexValue(s[2 * k + 1]).value
  }

  /** Text decodes exactly when it is pairs of hex digits, and to the bytes they spell. */
  lemma {:induction false} DecodesExactlyWhen(s: string, bytes: seq<Byte>)
    ensures HexDecode(s) == Some(bytes) <==> |s| == 2 * |bytes| && forall k :: 0 <= k < |bytes| ==> Reads(s, bytes, k)
  {
    if |s| >= 2 {
      if |bytes| > 0 {
        DecodesExactlyWhen(s[2..], bytes[1..]);
        assert bytes == [bytes[0]] + bytes[1..];
        NibblesFit(s[0], s[1]);
        if |s| == 2 * |bytes| {
          assert Reads(s, bytes, 0) <==>
            HexValue(s[0]).Some? && HexValue(s[1]).Some? && bytes[0] == 16 * HexValue(s[0]).value + HexValue(s[1]).value;
          forall k | 0 <= k < |bytes| - 1 ensures Reads(s[2..], bytes[1..], k) <==> Reads(s, bytes, k + 1) {
            assert s[2..][2 * k] == s[2 * (k + 1)] && s[2..][2 * k + 1] == s[2 * (k + 1) + 1];
          }
          FirstAndRest(s, bytes);
        }
      }
    }
  }

  lemma FirstAndRest(s: string, bytes: seq<Byte>)
    requires |bytes| > 0 && |s| == 2 * |bytes|
    requires forall k :: 0 <= k < |bytes| - 1 ==> (Reads(s[2..], bytes[1..], k) <==> Reads(s, bytes, k + 1))
    ensures (forall k :: 0 <= k < |bytes| ==> Reads(s, bytes, k))
       <==> Reads(s, bytes, 0) && forall k :: 0 <= k < |bytes| - 1 ==> Reads(s[2..], bytes[1..], k)
  {
    if Reads(s, bytes, 0) && forall k :: 0 <= k < |bytes| - 1 ==> Reads(s[2..], bytes[1..], k) {
      forall k | 0 <= k < |bytes| ensures Reads(s, bytes, k) {
        if k > 0 {
          assert Reads(s[2..], bytes[1..], k - 1);
        }
      }
    }
  }

  lemma NibblesFit(a: char, b: char)
    ensures HexValue(a).Some? ==> HexValue(a).value < 16
    ensures HexValue(b).Some? ==> HexValue(b).value < 16
  {
  }

  lemma OneByteMore(b: Byte, rest: string, decoded: seq<Byte>)
    requires Plain(rest) && HexDecode(rest) == Some(decoded)
    ensures var text := [HexChar(b / 16), HexChar(b % 16)] + rest;
            Plain(text) && HexDecode(text) == Some([b] + decoded)
  {
    var text := [HexChar(b / 16), HexChar(b % 16)] + rest;
    assert text[2..] == rest;
  }

  lemma {:induction false} HexReadsBack(bytes: seq<Byte>)
    ensures Plain(HexEncode(bytes)) && HexDecode(HexEncode(bytes)) == Some(bytes)
  {
    if |bytes| > 0 {
      HexReadsBack(bytes[1..]);
      OneByteMore(bytes[0], HexEncode(bytes[1..]), bytes[1..]);
      assert bytes == [bytes[0]] + bytes[1..];
    }
  }

  /** The bytes of plain text. */
  function Ascii(s: string): (bytes: seq<Byte>)
    requires Plain(s)
    ensures |bytes| == |s| && forall k :: 0 <= k < |s| ==> bytes[k] == s[k] as int
  {
    seq(|s|, k requires 0 <= k < |s| => s[k] as int)
  }

  /** What the MAC covers. */
  function SignedText(timestamp: int, body: seq<Byte>): seq<Byte> {
    DecimalIsPlain(timestamp);
    Ascii(Decimal(timestamp)) + ['.' as int] + body
  }

  function Sign(mac: Mac, secret: seq<Byte>, timestamp: int, body: seq<Byte>): string {
    "t=" + Decimal(timestamp) + ",v1=" + HexEncode(mac(secret, SignedText(timestamp, body)))
  }

  // ------------------------------------------------------------- the header

  /** The characters with the Unicode property White_Space. */
  predicate IsSpace(c: char) {
    || '\U{9}' <= c <= '\U{D}' || c == ' ' || c == '\U{85}' || c == '\U{A0}' || c == '\U{1680}'
    || '\U{2000}' <= c <= '\U{200A}' || c == '\U{2028}' || c == '\U{2029}' || c == '\U{202F}'
    || c == '\U{205F}' || c == '\U{3000}'
  }

  function Trim(s: string): string {
    if |s| == 0 then s
    else if IsSpace(s[0]) then Trim(s[1..])
    else if IsSpace(s[|s| - 1]) then Trim(s[..|s| - 1])
    else s
  }

  predicate AllSpace(s: string) {
    forall k :: 0 <= k < |s| ==> IsSpace(s[k])
  }

  predicate Bare(s: string) {
    |s| > 0 ==> !IsSpace(s[0]) && !IsSpace(s[|s| - 1])
  }

  /** `text` is what is left of `s` between white space. */
  predicate Between(s: string, from: nat, to: nat, text: string) {
    && from <= to <= |s| && text == s[from..to]
    && (forall k :: 0 <= k < from ==> IsSpace(s[k])) && (forall k :: to <= k < |s| ==> IsSpace(s[k]))
  }

  lemma BetweenAfterFirst(s: string, from: nat, to: nat, text: string)
    requires |s| > 0 && IsSpace(s[0]) && Between(s[1..], from, to, text)
    ensures Between(s, from + 1, to + 1, text)
  {
    assert s[1..][from..to] == s[from + 1..to + 1];
    forall k | 0 <= k < from + 1 ensures IsSpace(s[k]) {
      assert k > 0 ==> IsSpace(s[1..][k - 1]);
    }
    forall k | to + 1 <= k < |s| ensures IsSpace(s[k]) {
      assert IsSpace(s[1..][k - 1]);
    }
  }

  lemma BetweenBeforeLast(s: string, from: nat, to: nat, text: string)
    requires |s| > 0 && IsSpace(s[|s| - 1]) && Between(s[..|s| - 1], from, to, text)
    ensures Between(s, from, to, text)
  {
    var init := s[..|s| - 1];
    assert init[from..to] == s[from..to];
    forall k | 0 <= k < from ensures IsSpace(s[k]) {
      assert IsSpace(init[k]);
    }
    forall k | to <= k < |s| ensures IsSpace(s[k]) {
      assert k < |s| - 1 ==> IsSpace(init[k]);
    }
  }

  /** Trimming takes away white space at both ends, and all of it. */
  lemma {:induction false} TrimLeavesBare(s: string) returns (from: nat, to: nat)
    ensures Between(s, from, to, Trim(s)) && Bare(Trim(s))
  {
    from, to := 0, |s|;
    if |s| == 0 {
    } else if IsSpace(s[0]) {
      from, to := TrimLeavesBare(s[1..]);
      BetweenAfterFirst(s, from, to, Trim(s));
      from, to := from + 1, to + 1;
    } else if IsSpace(s[|s| - 1]) {
      from, to := TrimLeavesBare(s[..|s| - 1]);
      BetweenBeforeLast(s, from, to, Trim(s));
    } else {
      assert s[0..|s|] == s;
    }
  }

  /** White space around a part makes no difference. */
  lemma {:induction false} TrimFindsBare(front: string, text: string, back: string)
    requires AllSpace(front) && AllSpace(back) && Bare(text) && |text| > 0
    ensures Trim(front + text + back) == text
    decreases |front| + |back|
  {
    var s := front + text + back;
    if |front| > 0 {
      assert s[0] == front[0] && s[1..] == front[1..] + text + back;
      TrimFindsBare(front[1..], text, back);
    } else if |back| > 0 {
      assert s[0] == text[0] && s[|s| - 1] == back[|back| - 1];
      assert s[..|s| - 1] == front + text + back[..|back| - 1];
      TrimFindsBare(front, text, back[..|back| - 1]);
    } else {
      assert s == text;
    }
  }

  function Field(part: string): Option<(string, string)> {
    SplitOnce(Trim(part), '=')
  }

  predicate IsTime(part: string) {
    Field(part).Some? && Field(part).value.0 == "t"
  }

  function TimeOf(part: string): Option<int>
    requires IsTime(part)
  {
    ParseI64(Field(part).value.1)
  }

  /** The MAC a part offers, if it is a `v1` that decodes. */
  function Candidate(part: string): Option<seq<Byte>> {
    if Field(part).Some? && Field(part).value.0 == "v1" then HexDecode(Field(part).value.1) else None
  }

  /** Part `k` is the last that gives a time, and gives `t`. */
  predicate LastTime(parts: seq<string>, k: nat, t: int) {
    && k < |parts| && IsTime(parts[k]) && TimeOf(parts[k]) == Some(t)
    && forall j :: k < j < |parts| ==> !IsTime(parts[j])
  }

  function Timestamp(parts: seq<string>): Option<int> {
    if |parts| == 0 then None
    else if IsTime(parts[|parts| - 1]) then TimeOf(parts[|parts| - 1])
    else Timestamp(parts[..|parts| - 1])
  }

  predicate Offers(parts: seq<string>, sig: seq<Byte>) {
    exists k :: 0 <= k < |parts| && Candidate(parts[k]) == Some(sig)
  }

  predicate OffersAny(parts: seq<string>) {
    exists k :: 0 <= k < |parts| && Candidate(parts[k]).Some?
  }

  /** Two's complement wrap-around of 64 bits. */
  function Wrap(n: int): int {
    var low := n % TWO_64;
    if low < TWO_63 then low else low - TWO_64
  }

  /** The clock difference as computed: both the subtraction and the absolute value wrap. */
  function Distance(now: int, t: int): int {
    var d := Wrap(now - t);
    if d < 0 then Wrap(0 - d) else d
  }

  /** What verification says, over the parts of the header. */
  function Judge(mac: Mac, secret: seq<Byte>, parts: seq<string>, body: seq<Byte>, now: int, tolerance: int): Verdict {
    var t := Timestamp(parts);
    if t.None? || !OffersAny(parts) then Rejected(Malformed)
    else if !Offers(parts, mac(secret, SignedText(t.value, body))) then Rejected(Mismatch)
    else if Distance(now, t.value) > tolerance then Rejected(Stale)
    else Accepted
  }

  function Candidates(parts: seq<string>): seq<seq<Byte>> {
    if |parts| == 0 then []
    else
      var rest, last := Candidates(parts[..|parts| - 1]), Candidate(parts[|parts| - 1]);
      if last.Some? then rest + [last.value] else rest
  }

  lemma {:induction false} CandidatesAreOffered(parts: seq<string>, sig: seq<Byte>)
    ensures sig in Candidates(parts) <==> Offers(parts, sig)
  {
    if |parts| > 0 {
      var last := |parts| - 1;
      var init := parts[..last];
      CandidatesAreOffered(init, sig);
      if sig in Candidates(init) {
        var k :| 0 <= k < |init| && Candidate(init[k]) == Some(sig);
        assert Candidate(parts[k]) == Some(sig);
      }
      if k :| 0 <= k < |parts| && Candidate(parts[k]) == Some(sig) {
        if k < last {
          assert Candidate(init[k]) == Some(sig);
        }
      }
    }
  }

  lemma CandidatesAppear(parts: seq<string>)
    ensures |Candidates(parts)| > 0 <==> OffersAny(parts)
  {
    if |Candidates(parts)| > 0 {
      CandidatesAreOffered(parts, Candidates(parts)[0]);
    }
    if k :| 0 <= k < |parts| && Candidate(parts[k]).Some? {
      CandidatesAreOffered(parts, Candidate(parts[k]).value);
    }
  }

  /** Reads the parts in order, keeping the latest time and every decodable candidate. */
  method ReadParts(parts: seq<string>) returns (timestamp: Option<int>, candidates: seq<seq<Byte>>)
    ensures timestamp == Timestamp(parts) && candidates == Candidates(parts)
    ensures |candidates| > 0 <==> OffersAny(parts)
    ensures forall sig :: sig in candidates <==> Offers(parts, sig)
  {
    timestamp, candidates := None, [];
    for i := 0 to |parts|
      invariant timestamp == Timestamp(parts[..i]) && candidates == Candidates(parts[..i])
    {
      assert parts[..i + 1][..i] == parts[..i];
      var field := SplitOnce(Trim(parts[i]), '=');
      if field.Some? && field.value.0 == "t" {
        timestamp := ParseI64(field.value.1);
      } else if field.Some? && field.value.0 == "v1" {
        var bytes := HexDecode(field.value.1);
        if bytes.Some? {
          candidates := candidates + [bytes.value];
        }
      }
    }
    assert parts[..|parts|] == parts;
    CandidatesAppear(parts);
    forall sig ensures sig in candidates <==> Offers(parts, sig) {
      CandidatesAreOffered(parts, sig);
    }
  }

  /** Looks at every candidate, whichever matches first. */
  method AnyMatches(candidates: seq<seq<Byte>>, expected: seq<Byte>) returns (ok: bool)
    ensures ok <==> expected in candidates
  {
    ok := false;
    for i := 0 to |candidates|
      invariant ok <==> expected in candidates[..i]
    {
      ok := ok || candidates[i] == expected;
    }
    assert candidates[..|candidates|] == candidates;
  }

  method Verify(mac: Mac, secret: seq<Byte>, header: string, body: seq<Byte>, now: int, tolerance: int)
    returns (verdict: Verdict)
    requires IsI64(now) && IsI64(tolerance)
    ensures verdict == Judge(mac, secret, Split(header, ','), body, now, tolerance)
  {
    var timestamp, candidates := ReadParts(Split(header, ','));
    if timestamp.None? || |candidates| == 0 {
      return Rejected(Malformed);
    }
    var ok := AnyMatches(candidates, mac(secret, SignedText(timestamp.value, body)));
    if !ok {
      return Rejected(Mismatch);
    }
    if Distance(now, timestamp.value) > tolerance {
      return Rejected(Stale);
    }
    return Accepted;
  }

  // ------------------------------------------------- what acceptance means

  lemma {:induction false} LastTimeIsFound(parts: seq<string>, k: nat, t: int)
    requires LastTime(parts, k, t)
    ensures Timestamp(parts) == Some(t)
  {
    var last := |parts| - 1;
    if k < last {
      LastTimeIsFound(parts[..last], k, t);
    }
  }

  lemma LastTimeStaysLast(parts: seq<string>, part: string, k: nat, t: int)
    requires LastTime(parts, k, t) && !IsTime(part)
    ensures LastTime(parts + [part], k, t)
  {
  }

  lemma {:induction false} FoundTimeIsLast(parts: seq<string>, t: int) returns (k: nat)
    requires Timestamp(parts) == Some(t)
    ensures LastTime(parts, k, t)
  {
    var last := |parts| - 1;
    k := last;
    if !IsTime(parts[last]) {
      k := FoundTimeIsLast(parts[..last], t);
      LastTimeStaysLast(parts[..last], parts[last], k, t);
      assert parts[..last] + [parts[last]] == parts;
    }
  }

  /** Part `i` is the last time, `t`, and part `j` offers the MAC of the body at that time. */
  predicate Confirms(mac: Mac, secret: seq<Byte>, parts: seq<string>, body: seq<Byte>, i: nat, j: nat, t: int) {
    LastTime(parts, i, t) && j < |parts| && Candidate(parts[j]) == Some(mac(secret, SignedText(t, body)))
  }

  lemma ConfirmedIsJudged(
    mac: Mac, secret: seq<Byte>, parts: seq<string>, body: seq<Byte>, i: nat, j: nat, t: int, now: int, tolerance: int)
    requires Confirms(mac, secret, parts, body, i, j, t)
    ensures Judge(mac, secret, parts, body, now, tolerance) == if Distance(now, t) > tolerance then Rejected(Stale) else Accepted
  {
    LastTimeIsFound(parts, i, t);
    assert OffersAny(parts) && Offers(parts, mac(secret, SignedText(t, body)));
  }

  lemma AcceptedIsConfirmed(
    mac: Mac, secret: seq<Byte>, parts: seq<string>, body: seq<Byte>, now: int, tolerance: int)
    returns (i: nat, j: nat, t: int)
    requires Judge(mac, secret, parts, body, now, tolerance) == Accepted
    ensures Confirms(mac, secret, parts, body, i, j, t) && Distance(now, t) <= tolerance
  {
    t := Timestamp(parts).value;
    i := FoundTimeIsLast(parts, t);
    j :| 0 <= j < |parts| && Candidate(parts[j]) == Some(mac(secret, SignedText(t, body)));
  }

  /** A header is accepted exactly when some decodable `v1` is the MAC under its last `t` and the clock check passes. */
  lemma AcceptedExactlyWhen(
    mac: Mac, secret: seq<Byte>, parts: seq<string>, body: seq<Byte>, now: int, tolerance: int)
    ensures Judge(mac, secret, parts, body, now, tolerance) == Accepted <==>
      exists i, j, t :: Confirms(mac, secret, parts, body, i, j, t) && Distance(now, t) <= tolerance
  {
    if i, j, t :| Confirms(mac, secret, parts, body, i, j, t) && Distance(now, t) <= tolerance {
      ConfirmedIsJudged(mac, secret, parts, body, i, j, t, now, tolerance);
    }
    if Judge(mac, secret, parts, body, now, tolerance) == Accepted {
      var i, j, t := AcceptedIsConfirmed(mac, secret, parts, body, now, tolerance);
    }
  }

  // ---------------------------------------------------- signed headers verify

  lemma PlainField(name: string, text: string)
    requires |name| > 0 && Plain(text) && (name == "t" || name == "v1")
    ensures Field(name + "=" + text) == Some((name, text)) && Free(name + "=" + text, ',')
  {
    SplitOnceAt(name, '=', text);
    var part := name + "=" + text;
    assert part[0] == name[0];
    assert |text| > 0 ==> part[|part| - 1] == text[|text| - 1];
    assert |text| == 0 ==> part[|part| - 1] == '=';
    assert Trim(part) == part;
  }

  lemma SignedParts(mac: Mac, secret: seq<Byte>, t: int, body: seq<Byte>)
    ensures var parts := Split(Sign(mac, secret, t, body), ',');
            && |parts| == 2
            && Field(parts[0]) == Some(("t", Decimal(t)))
            && Field(parts[1]) == Some(("v1", HexEncode(mac(secret, SignedText(t, body)))))
  {
    var sig := mac(secret, SignedText(t, body));
    DecimalIsPlain(t);
    HexReadsBack(sig);
    PlainField("t", Decimal(t));
    PlainField("v1", HexEncode(sig));
    Layout(Decimal(t), HexEncode(sig));
    TwoParts("t" + "=" + Decimal(t), "v1" + "=" + HexEncode(sig));
  }

  lemma Layout(time: string, hex: string)
    ensures "t=" + time + ",v1=" + hex == ("t" + "=" + time) + [','] + ("v1" + "=" + hex)
  {
    assert "t=" == "t" + "=" && ",v1=" == [','] + "v1" + "=";
  }

  lemma TwoParts(first: string, second: string)
    requires Free(first, ',') && Free(second, ',')
    ensures Split(first + [','] + second, ',') == [first, second]
  {
    SplitOnceAt(first, ',', second);
    SplitOnceMeans(second, ',');
    assert Split(second, ',') == [second];
  }

  /** A header of one time and one candidate gives that time and offers that candidate only. */
  lemma TimeAndCandidate(parts: seq<string>, t: int, sig: seq<Byte>)
    requires |parts| == 2 && IsI64(t)
    requires Field(parts[0]) == Some(("t", Decimal(t))) && Field(parts[1]) == Some(("v1", HexEncode(sig)))
    ensures Timestamp(parts) == Some(t) && OffersAny(parts)
    ensures forall other :: Offers(parts, other) <==> other == sig
  {
    DecimalReadsBack(t);
    HexReadsBack(sig);
    LastTimeIsFound(parts, 0, t);
    OnlyCandidate(parts, sig);
  }

  lemma OnlyCandidate(parts: seq<string>, sig: seq<Byte>)
    requires |parts| == 2 && Candidate(parts[0]).None? && Candidate(parts[1]) == Some(sig)
    ensures OffersAny(parts) && forall other :: Offers(parts, other) <==> other == sig
  {
  }

  /** The verdict on a header made by `Sign`, over any body. */
  lemma SignedHeaderIsJudged(
    mac: Mac, secret: seq<Byte>, t: int, body: seq<Byte>, claimed: seq<Byte>, now: int, tolerance: int)
    requires IsI64(t)
    ensures Judge(mac, secret, Split(Sign(mac, secret, t, body), ','), claimed, now, tolerance)
         == if mac(secret, SignedText(t, claimed)) != mac(secret, SignedText(t, body)) then Rejected(Mismatch)
            else if Distance(now, t) > tolerance then Rejected(Stale)
            else Accepted
  {
    SignedParts(mac, secret, t, body);
    TimeAndCandidate(Split(Sign(mac, secret, t, body), ','), t, mac(secret, SignedText(t, body)));
  }

  function Gap(now: int, t: int): nat {
    if now < t then t - now else now - t
  }

  /** The difference does not fit 64 bits, and what it wraps to looks fresh. */
  predicate ClockWraps(now: int, t: int, tolerance: int) {
    Gap(now, t) == TWO_63 || (Gap(now, t) > TWO_63 && TWO_64 - Gap(now, t) <= tolerance)
  }

  lemma DistanceIs(now: int, t: int)
    requires IsI64(now) && IsI64(t)
    ensures Distance(now, t) == if Gap(now, t) < TWO_63 then Gap(now, t)
                                else if Gap(now, t) == TWO_63 then I64_MIN
                                else TWO_64 - Gap(now, t)
  {
    WrapIs(now - t);
    WrapIs(0 - Wrap(now - t));
  }

  lemma WrapIs(n: int)
    requires 0 - TWO_64 < n < TWO_64
    ensures Wrap(n) == if n < 0 - TWO_63 then n + TWO_64 else if n < TWO_63 then n else n - TWO_64
  {
    if n < 0 {
      assert n % TWO_64 == n + TWO_64;
    }
  }

  /**
   Verification accepts what `Sign` made exactly when the clocks differ by at most the
   tolerance, for every secret, time, body and clock for which the difference does not wrap
   to something that looks fresh; for those it does not.
   */
  lemma SignedIsAcceptedWhenFresh(mac: Mac, secret: seq<Byte>, t: int, body: seq<Byte>, now: int, tolerance: int)
    requires IsI64(t) && IsI64(now) && IsI64(tolerance)
    ensures (Judge(mac, secret, Split(Sign(mac, secret, t, body), ','), body, now, tolerance) == Accepted
             <==> Gap(now, t) <= tolerance)
       <==> !ClockWraps(now, t, tolerance)
  {
    SignedHeaderIsJudged(mac, secret, t, body, body, now, tolerance);
    DistanceIs(now, t);
  }

  /** A header from 292 billion years away is accepted. */
  lemma WrappedClockIsAccepted(mac: Mac, secret: seq<Byte>, body: seq<Byte>)
    ensures Judge(mac, secret, Split(Sign(mac, secret, -1, body), ','), body, I64_MAX, 300) == Accepted
    ensures Gap(I64_MAX, -1) > 300
  {
    SignedHeaderIsJudged(mac, secret, -1, body, body, I64_MAX, 300);
    DistanceIs(I64_MAX, -1);
  }

  // ------------------------------------------------ the signed text is exact

  lemma TimeEndsAtThePoint(t: int, body: seq<Byte>)
    ensures |SignedText(t, body)| == |Decimal(t)| + 1 + |body|
    ensures SignedText(t, body)[|Decimal(t)|] == '.' as int
    ensures forall k :: 0 <= k < |Decimal(t)| ==>
      SignedText(t, body)[k] == Decimal(t)[k] as int && SignedText(t, body)[k] != '.' as int
    ensures SignedText(t, body)[|Decimal(t)| + 1..] == body
  {
    DecimalIsPlain(t);
    forall k | 0 <= k < |Decimal(t)|
      ensures SignedText(t, body)[k] == Decimal(t)[k] as int && SignedText(t, body)[k] != '.' as int
    {
      assert PlainChar(Decimal(t)[k]);
    }
  }

  /** The signed text determines both the timestamp and the body. */
  lemma SignedTextDetermines(t: int, body: seq<Byte>, u: int, other: seq<Byte>)
    requires IsI64(t) && IsI64(u)
    ensures SignedText(t, body) == SignedText(u, other) <==> t == u && body == other
  {
    if SignedText(t, body) == SignedText(u, other) {
      TimeEndsAtThePoint(t, body);
      TimeEndsAtThePoint(u, other);
      assert |Decimal(t)| == |Decimal(u)|;
      assert forall k :: 0 <= k < |Decimal(t)| ==> Decimal(t)[k] == Decimal(u)[k];
      assert Decimal(t) == Decimal(u);
      DecimalReadsBack(t);
      DecimalReadsBack(u);
    }
  }

  /** With a MAC that never collides, a signed header fails to match exactly the bodies it was not made for. */
  lemma ChangedBodyIsRejected(
    mac: Mac, secret: seq<Byte>, t: int, body: seq<Byte>, claimed: seq<Byte>, now: int, tolerance: int)
    requires IsI64(t)
    requires forall a, b :: mac(secret, a) == mac(secret, b) ==> a == b
    ensures Judge(mac, secret, Split(Sign(mac, secret, t, body), ','), claimed, now, tolerance) == Rejected(Mismatch)
       <==> claimed != body
  {
    SignedHeaderIsJudged(mac, secret, t, body, claimed, now, tolerance);
    SignedTextDetermines(t, body, t, claimed);
  }
}
