/** Session references: any id as one canonical URI (query/reference.py). Text is code points, so that the
    unpaired surrogates a session id may hold can be written. */
module References {
  import opened Prelude

  type CodePoint = n: int | 0 <= n < 0x110000

  type Text = seq<CodePoint>

  type Byte = n: int | 0 <= n < 256

  const QUOTE: CodePoint := 34
  const BACKSLASH: CodePoint := 92
  const LETTER_U: CodePoint := 117

  /** `dsh-session:` */
  const SCHEME: Text := [100, 115, 104, 45, 115, 101, 115, 115, 105, 111, 110, 58]

  // ------------------------------------------------------------------ JSON strings in ASCII

  predicate High(n: int) {
    0xD800 <= n <= 0xDBFF
  }

  predicate Low(n: int) {
    0xDC00 <= n <= 0xDFFF
  }

  function HexDigit(d: int): CodePoint
    requires 0 <= d < 16
  {
    if d < 10 then 48 + d else 87 + d
  }

  /** Upper and lower case both read. */
  function HexValue(c: int): Option<int> {
    if 48 <= c <= 57 then Some(c - 48)
    else if 97 <= c <= 102 then Some(c - 87)
    else if 65 <= c <= 70 then Some(c - 55)
    else None
  }

  /** A backslash, a `u` and four hexadecimal digits. */
  function HexEscape(n: int): (t: Text)
    requires 0 <= n < 0x10000
    ensures |t| == 6
  {
    [BACKSLASH, LETTER_U, HexDigit(n / 4096), HexDigit(n / 256 % 16), HexDigit(n / 16 % 16), HexDigit(n % 16)]
  }

  /** The letter of a short escape. */
  function ShortEscape(c: int): Option<CodePoint> {
    if c == 34 || c == 92 then Some(c)
    else if c == 8 then Some(98)
    else if c == 12 then Some(102)
    else if c == 10 then Some(110)
    else if c == 13 then Some(114)
    else if c == 9 then Some(116)
    else None
  }

  /** What a short escape's letter stands for; a slash may be escaped too, though it never is. */
  function ShortValue(e: int): Option<CodePoint> {
    if e == 34 || e == 92 || e == 47 then Some(e)
    else if e == 98 then Some(8)
    else if e == 102 then Some(12)
    else if e == 110 then Some(10)
    else if e == 114 then Some(13)
    else if e == 116 then Some(9)
    else None
  }

  ghost predicate Ascii(t: Text) {
    forall i :: 0 <= i < |t| ==> t[i] < 128
  }

  function EscapeOne(c: CodePoint): (t: Text)
    ensures Ascii(t)
  {
    if ShortEscape(c).Some? then [BACKSLASH, ShortEscape(c).value]
    else if 32 <= c <= 126 then [c]
    else if c < 0x10000 then HexEscape(c)
    else HexEscape(0xD800 + (c - 0x10000) / 1024) + HexEscape(0xDC00 + (c - 0x10000) % 1024)
  }

  /** What is printable ASCII is written as it is, a quote, a backslash and the five controls that have a letter take
      two characters, and everything else takes six for each of its UTF-16 units. */
  lemma EscapeLength(c: CodePoint)
    ensures |EscapeOne(c)| ==
            if c == 34 || c == 92 || 8 <= c <= 10 || 12 <= c <= 13 then 2
            else if 32 <= c <= 126 then 1
            else if c < 0x10000 then 6
            else 12
    ensures 32 <= c <= 126 && c != 34 && c != 92 ==> EscapeOne(c) == [c]
  {
    hide HexDigit;
  }

  function EscapeAll(s: Text): (t: Text)
    ensures Ascii(t)
  {
    if s == [] then [] else EscapeOne(s[0]) + EscapeAll(s[1..])
  }

  function Dumps(s: Text): Text {
    [QUOTE] + EscapeAll(s) + [QUOTE]
  }

  /** The number of a hexadecimal escape at the front. */
  function HexAt(t: Text): Option<int> {
    if |t| >= 6 && t[0] == BACKSLASH && t[1] == LETTER_U && HexValue(t[2]).Some? && HexValue(t[3]).Some?
       && HexValue(t[4]).Some? && HexValue(t[5]).Some? then
      Some(HexValue(t[2]).value * 4096 + HexValue(t[3]).value * 256 + HexValue(t[4]).value * 16 + HexValue(t[5]).value)
    else None
  }

  lemma HexAtEscape(n: int, rest: Text)
    requires 0 <= n < 0x10000
    ensures HexAt(HexEscape(n) + rest) == Some(n)
    ensures (HexEscape(n) + rest)[6..] == rest
  {
    hide HexDigit, HexValue;
    var t := HexEscape(n) + rest;
    HexDigits(n / 4096);
    HexDigits(n / 256 % 16);
    HexDigits(n / 16 % 16);
    HexDigits(n % 16);
    assert t[0] == BACKSLASH && t[1] == LETTER_U;
    HexSum(n);
  }

  lemma HexDigits(d: int)
    requires 0 <= d < 16
    ensures HexValue(HexDigit(d)) == Some(d)
  {
  }

  lemma HexSum(n: int)
    requires 0 <= n < 0x10000
    ensures n == n / 4096 * 4096 + n / 256 % 16 * 256 + n / 16 % 16 * 16 + n % 16
  {
    assert n / 16 / 16 == n / 256 && n / 256 / 16 == n / 4096;
  }

  function Combine(hi: int, lo: int): CodePoint
    requires High(hi) && Low(lo)
  {
    0x10000 + (hi - 0xD800) * 1024 + (lo - 0xDC00)
  }

  function Prepend(c: CodePoint, rest: Option<Text>): Option<Text> {
    if rest.Some? then Some([c] + rest.value) else None
  }

  /** Read the rest of a JSON string, up to the quote that must end it. */
  function ParseBody(t: Text): Option<Text>
    decreases |t|
  {
    if t == [] then None
    else if t[0] == QUOTE then (if |t| == 1 then Some([]) else None)
    else if t[0] < 32 then None
    else if t[0] != BACKSLASH then Prepend(t[0], ParseBody(t[1..]))
    else if |t| >= 2 && ShortValue(t[1]).Some? then Prepend(ShortValue(t[1]).value, ParseBody(t[2..]))
    else
      var n := HexAt(t);
      if n.None? || !(0 <= n.value < 0x10000) then None
      else
        var second := HexAt(t[6..]);
        if High(n.value) && second.Some? && Low(second.value) then
          Prepend(Combine(n.value, second.value), ParseBody(t[12..]))
        else Prepend(n.value, ParseBody(t[6..]))
  }

  /** Two surrogates that stand next to each other read as the one character they spell. */
  function Joined(s: Text): Text {
    if |s| >= 2 && High(s[0]) && Low(s[1]) then [Combine(s[0], s[1])] + Joined(s[2..])
    else if s == [] then []
    else [s[0]] + Joined(s[1..])
  }

  /** Some high surrogate is directly followed by a low one. */
  ghost predicate HasPair(s: Text) {
    exists i :: 0 <= i < |s| - 1 && PairAt(s, i)
  }

  predicate PairAt(s: Text, i: int) {
    0 <= i < |s| - 1 && High(s[i]) && Low(s[i + 1])
  }

  lemma {:induction false} JoinedShrinks(s: Text)
    ensures |Joined(s)| <= |s|
  {
    if |s| >= 2 && High(s[0]) && Low(s[1]) {
      JoinedShrinks(s[2..]);
    } else if s != [] {
      JoinedShrinks(s[1..]);
    }
  }

  lemma {:induction false} JoinedIsSame(s: Text)
    ensures Joined(s) == s <==> !HasPair(s)
  {
    if |s| >= 2 && High(s[0]) && Low(s[1]) {
      JoinedShrinks(s[2..]);
      assert PairAt(s, 0);
    } else if s != [] {
      JoinedIsSame(s[1..]);
      if HasPair(s) {
        var i :| 0 <= i < |s| - 1 && PairAt(s, i);
        assert PairAt(s[1..], i - 1);
      }
      if HasPair(s[1..]) {
        var i :| 0 <= i < |s[1..]| - 1 && PairAt(s[1..], i);
        assert PairAt(s, i + 1);
      }
      assert s == [s[0]] + s[1..];
    }
  }

  lemma NotHex(t: Text)
    requires |t| < 2 || t[0] != BACKSLASH || t[1] != LETTER_U
    ensures HexAt(t) == None
  {
  }

  lemma LowInFront(c: CodePoint, rest: Text)
    ensures var n := HexAt(EscapeOne(c) + rest); n.Some? && Low(n.value) <==> Low(c)
  {
    hide HexAt, HexEscape;
    var t := EscapeOne(c) + rest;
    if ShortEscape(c).Some? || 32 <= c <= 126 {
      NotHex(t);
    } else if c < 0x10000 {
      HexAtEscape(c, rest);
    } else {
      var hi, lo := 0xD800 + (c - 0x10000) / 1024, 0xDC00 + (c - 0x10000) % 1024;
      HexAtEscape(hi, HexEscape(lo) + rest);
      assert t == HexEscape(hi) + (HexEscape(lo) + rest);
    }
  }

  /** What follows begins with the escape of a low surrogate only when the next character is one. */
  lemma NextIsLow(s: Text)
    ensures var n := HexAt(EscapeAll(s) + [QUOTE]);
            n.Some? && Low(n.value) <==> s != [] && Low(s[0])
  {
    hide HexAt, EscapeOne;
    var t := EscapeAll(s) + [QUOTE];
    if s == [] {
      NotHex(t);
    } else {
      LowInFront(s[0], EscapeAll(s[1..]) + [QUOTE]);
      assert t == EscapeOne(s[0]) + (EscapeAll(s[1..]) + [QUOTE]);
    }
  }

  lemma ParsePlain(c: CodePoint, rest: Text)
    requires 32 <= c <= 126 && c != QUOTE && c != BACKSLASH
    ensures ParseBody([c] + rest) == Prepend(c, ParseBody(rest))
  {
    assert ([c] + rest)[1..] == rest;
  }

  lemma ParseShort(c: CodePoint, rest: Text)
    requires ShortEscape(c).Some?
    ensures ParseBody(EscapeOne(c) + rest) == Prepend(c, ParseBody(rest))
  {
    var t := EscapeOne(c) + rest;
    assert t[0] == BACKSLASH && t[1] == ShortEscape(c).value && t[2..] == rest;
  }

  lemma ParseHex(n: CodePoint, rest: Text)
    requires n < 0x10000 && (High(n) ==> !(HexAt(rest).Some? && Low(HexAt(rest).value)))
    ensures ParseBody(HexEscape(n) + rest) == Prepend(n, ParseBody(rest))
  {
    hide HexAt, HexDigit;
    var t := HexEscape(n) + rest;
    HexAtEscape(n, rest);
    assert t[0] == BACKSLASH && t[1] == LETTER_U;
  }

  lemma ParsePair(hi: int, lo: int, rest: Text)
    requires High(hi) && Low(lo)
    ensures ParseBody(HexEscape(hi) + HexEscape(lo) + rest) == Prepend(Combine(hi, lo), ParseBody(rest))
  {
    hide HexAt, HexDigit;
    var t := HexEscape(hi) + HexEscape(lo) + rest;
    assert t == HexEscape(hi) + (HexEscape(lo) + rest);
    HexAtEscape(hi, HexEscape(lo) + rest);
    HexAtEscape(lo, rest);
    assert t[0] == BACKSLASH && t[1] == LETTER_U && t[12..] == t[6..][6..];
  }

  /** One character is read back, unless it is a high surrogate with a low one behind it. */
  lemma ParseOne(c: CodePoint, rest: Text)
    requires High(c) ==> !(HexAt(rest).Some? && Low(HexAt(rest).value))
    ensures ParseBody(EscapeOne(c) + rest) == Prepend(c, ParseBody(rest))
  {
    hide ParseBody, HexEscape, HexAt;
    if ShortEscape(c).Some? {
      ParseShort(c, rest);
    } else if 32 <= c <= 126 {
      ParsePlain(c, rest);
    } else if c < 0x10000 {
      ParseHex(c, rest);
    } else {
      ParsePair(0xD800 + (c - 0x10000) / 1024, 0xDC00 + (c - 0x10000) % 1024, rest);
    }
  }

  lemma PairIsHex(hi: CodePoint, lo: CodePoint)
    requires High(hi) && Low(lo)
    ensures EscapeOne(hi) == HexEscape(hi) && EscapeOne(lo) == HexEscape(lo)
  {
    hide HexEscape;
  }

  /** Reading what was written joins surrogate pairs and changes nothing else. */
  lemma {:induction false} ParseEscaped(s: Text)
    ensures ParseBody(EscapeAll(s) + [QUOTE]) == Some(Joined(s))
  {
    hide ParseBody, HexEscape, HexAt, EscapeOne;
    if s == [] {
      assert EscapeAll(s) + [QUOTE] == [QUOTE];
      ParseQuote();
    } else {
      var c, rest := s[0], EscapeAll(s[1..]) + [QUOTE];
      assert EscapeAll(s) + [QUOTE] == EscapeOne(c) + rest;
      if |s| >= 2 && High(c) && Low(s[1]) {
        ParseEscaped(s[2..]);
        PairIsHex(c, s[1]);
        assert s[1..][1..] == s[2..];
        assert rest == HexEscape(s[1]) + (EscapeAll(s[2..]) + [QUOTE]);
        assert EscapeOne(c) + rest == HexEscape(c) + HexEscape(s[1]) + (EscapeAll(s[2..]) + [QUOTE]);
        ParsePair(c, s[1], EscapeAll(s[2..]) + [QUOTE]);
      } else {
        ParseEscaped(s[1..]);
        NextIsLow(s[1..]);
        ParseOne(c, rest);
      }
    }
  }

  lemma ParseQuote()
    ensures ParseBody([QUOTE]) == Some([])
  {
  }

  lemma EscapePair(hi: CodePoint, lo: CodePoint)
    requires High(hi) && Low(lo)
    ensures EscapeOne(Combine(hi, lo)) == EscapeOne(hi) + EscapeOne(lo)
  {
    hide HexEscape;
    var n := Combine(hi, lo) - 0x10000;
    assert n / 1024 == hi - 0xD800 && n % 1024 == lo - 0xDC00;
  }

  /** Joining a pair does not change how it is written. */
  lemma {:induction false} EscapeJoined(s: Text)
    ensures EscapeAll(Joined(s)) == EscapeAll(s)
  {
    hide EscapeOne;
    if |s| >= 2 && High(s[0]) && Low(s[1]) {
      EscapeJoined(s[2..]);
      var c := Combine(s[0], s[1]);
      EscapePair(s[0], s[1]);
      assert Joined(s)[1..] == Joined(s[2..]) && s[1..][1..] == s[2..];
      assert EscapeAll(s[1..]) == EscapeOne(s[1]) + EscapeAll(s[2..]);
    } else if s != [] {
      EscapeJoined(s[1..]);
      assert Joined(s)[1..] == Joined(s[1..]);
    }
  }

  // ------------------------------------------------------------------ base64 for URLs, without padding

  /** A to Z, a to z, 0 to 9, the hyphen and the underscore. */
  function Digit(d: int): CodePoint
    requires 0 <= d < 64
  {
    if d < 26 then 65 + d else if d < 52 then 71 + d else if d < 62 then d - 4 else if d == 62 then 45 else 95
  }

  function DigitValue(c: int): Option<int> {
    if 65 <= c <= 90 then Some(c - 65)
    else if 97 <= c <= 122 then Some(c - 71)
    else if 48 <= c <= 57 then Some(c + 4)
    else if c == 45 then Some(62)
    else if c == 95 then Some(63)
    else None
  }

  predicate IsPayload(c: int) {
    DigitValue(c).Some?
  }

  function Base64(bs: seq<Byte>): (t: Text)
    ensures forall i :: 0 <= i < |t| ==> IsPayload(t[i])
    ensures bs != [] ==> t != []
  {
    if bs == [] then []
    else if |bs| == 1 then [Digit(bs[0] / 4), Digit(bs[0] % 4 * 16)]
    else if |bs| == 2 then [Digit(bs[0] / 4), Digit(bs[0] % 4 * 16 + bs[1] / 16), Digit(bs[1] % 16 * 4)]
    else
      [Digit(bs[0] / 4), Digit(bs[0] % 4 * 16 + bs[1] / 16), Digit(bs[1] % 16 * 4 + bs[2] / 64), Digit(bs[2] % 64)] +
      Base64(bs[3..])
  }

  function Val(c: int): (v: int)
    requires IsPayload(c)
    ensures 0 <= v < 64
  {
    DigitValue(c).value
  }

  /** The bytes; spare low bits of a short last group are ignored, and one digit alone is no group. */
  function UnBase64(t: Text): Option<seq<Byte>>
    requires forall i :: 0 <= i < |t| ==> IsPayload(t[i])
  {
    if t == [] then Some([])
    else if |t| == 1 then None
    else if |t| == 2 then Some([Val(t[0]) * 4 + Val(t[1]) / 16])
    else if |t| == 3 then Some([Val(t[0]) * 4 + Val(t[1]) / 16, Val(t[1]) % 16 * 16 + Val(t[2]) / 4])
    else
      var rest := UnBase64(t[4..]);
      if rest.None? then None
      else
        Some([Val(t[0]) * 4 + Val(t[1]) / 16, Val(t[1]) % 16 * 16 + Val(t[2]) / 4, Val(t[2]) % 4 * 64 + Val(t[3])] +
             rest.value)
  }

  lemma DigitRoundTrips(d: int)
    requires 0 <= d < 64
    ensures IsPayload(Digit(d)) && Val(Digit(d)) == d
  {
  }

  lemma {:induction false} Base64RoundTrips(bs: seq<Byte>)
    ensures UnBase64(Base64(bs)) == Some(bs)
  {
    hide Digit, DigitValue, IsPayload, Val;
    if bs == [] {
    } else {
      DigitRoundTrips(bs[0] / 4);
      if |bs| == 1 {
        DigitRoundTrips(bs[0] % 4 * 16);
        assert bs == [bs[0]];
      } else {
        DigitRoundTrips(bs[0] % 4 * 16 + bs[1] / 16);
        if |bs| == 2 {
          DigitRoundTrips(bs[1] % 16 * 4);
          assert bs == [bs[0], bs[1]];
        } else {
          DigitRoundTrips(bs[1] % 16 * 4 + bs[2] / 64);
          DigitRoundTrips(bs[2] % 64);
          Base64RoundTrips(bs[3..]);
          assert Base64(bs)[4..] == Base64(bs[3..]);
          assert bs == [bs[0], bs[1], bs[2]] + bs[3..];
        }
      }
    }
  }

  // ------------------------------------------------------------------ the URI

  function AsBytes(t: Text): (bs: seq<Byte>)
    requires Ascii(t)
    ensures |bs| == |t|
  {
    seq(|t|, i requires 0 <= i < |t| => t[i])
  }

  function AsText(bs: seq<Byte>): (t: Text)
    ensures |t| == |bs|
  {
    seq(|bs|, i requires 0 <= i < |bs| => bs[i])
  }

  function Encode(id: Text): Text {
    SCHEME + Base64(AsBytes(Dumps(id)))
  }

  datatype ReferenceError = InvalidReference

  /** The JSON string the payload bytes spell. Bytes outside ASCII, and any other spelling JSON tolerates
      around or instead of a string, are refused here; the last check of Decode would refuse them anyway. */
  function Loads(bs: seq<Byte>): Option<Text> {
    if bs == [] || bs[0] != 34 || exists i :: 0 <= i < |bs| && bs[i] >= 128 then None
    else ParseBody(AsText(bs)[1..])
  }

  /** The id a URI stands for, when the URI is what encoding that id gives. */
  function Decode(uri: Text): Result<Text, ReferenceError> {
    if !(SCHEME <= uri) then Err(InvalidReference)
    else
      var payload := uri[|SCHEME|..];
      if payload == [] || exists i :: 0 <= i < |payload| && !IsPayload(payload[i]) then Err(InvalidReference)
      else
        var bs := UnBase64(payload);
        if bs.None? || Loads(bs.value).None? then Err(InvalidReference)
        else if Encode(Loads(bs.value).value) != uri then Err(InvalidReference)
        else Ok(Loads(bs.value).value)
  }

  lemma LoadsDumps(id: Text)
    ensures Loads(AsBytes(Dumps(id))) == Some(Joined(id))
  {
    hide ParseBody, EscapeAll, Joined;
    ParseEscaped(id);
    var bs := AsBytes(Dumps(id));
    assert AsText(bs)[1..] == EscapeAll(id) + [QUOTE];
  }

  /** Decoding what was encoded gives the id back with its surrogate pairs joined. */
  lemma DecodeEncoded(id: Text)
    ensures Decode(Encode(id)) == Ok(Joined(id))
  {
    hide Loads, EscapeAll, Joined, Base64, UnBase64, IsPayload;
    LoadsDumps(id);
    Base64RoundTrips(AsBytes(Dumps(id)));
    EscapeJoined(id);
    assert Encode(id)[|SCHEME|..] == Base64(AsBytes(Dumps(id)));
    assert Encode(Joined(id)) == Encode(id);
  }

  /** An id survives exactly when it has no high surrogate right before a low one; ids of Unicode scalar
      values always do. */
  lemma RoundTripExactly(id: Text)
    ensures Decode(Encode(id)) == Ok(id) <==> !HasPair(id)
    ensures (forall i :: 0 <= i < |id| ==> !High(id[i]) && !Low(id[i])) ==> Decode(Encode(id)) == Ok(id)
  {
    DecodeEncoded(id);
    JoinedIsSame(id);
  }

  /** A URI is canonical: what is accepted is exactly what encoding some id gives, and one id has one accepted
      URI. */
  lemma AcceptedIsCanonical(u: Text, v: Text)
    ensures Decode(u).Ok? <==> exists id :: u == Encode(id)
    ensures Decode(u).Ok? && Decode(u) == Decode(v) ==> u == v
  {
    hide Encode, Loads, UnBase64;
    if Decode(u).Ok? {
      assert u == Encode(Decode(u).value);
    } else if id :| u == Encode(id) {
      DecodeEncoded(id);
      assert false;
    }
  }
}
