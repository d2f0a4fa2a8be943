/** UTF-8 as section 4 of RFC 3629 defines it, and the two boundary repairs of
    bounded/retention.py. */
module Utf8 {
  import opened Prelude

  type Byte = bv8
  type Bytes = seq<Byte>

  predicate IsContinuation(b: Byte) {
    b & 0xC0 == 0x80
  }

  /** The width a leading byte announces; any other byte counts as one. */
  function LeadWidth(b: Byte): (w: nat)
    ensures 1 <= w <= 4
  {
    if b & 0xF8 == 0xF0 then 4
    else if b & 0xF0 == 0xE0 then 3
    else if b & 0xE0 == 0xC0 then 2
    else 1
  }

  // --------------------------------------------------------- well-formed UTF-8

  predicate Within(b: Byte, lo: Byte, hi: Byte) {
    lo <= b <= hi
  }

  predicate Tail(s: Bytes, i: nat) {
    i < |s| && Within(s[i], 0x80, 0xBF)
  }

  /** The range of the second byte after each lead of three or four bytes. */
  predicate SecondByte(lead: Byte, b: Byte) {
    if lead == 0xE0 then Within(b, 0xA0, 0xBF)
    else if lead == 0xED then Within(b, 0x80, 0x9F)
    else if lead == 0xF0 then Within(b, 0x90, 0xBF)
    else if lead == 0xF4 then Within(b, 0x80, 0x8F)
    else Within(b, 0x80, 0xBF)
  }

  /** The length of the UTF8-char at the front, or 0 when there is none. */
  function CharLen(s: Bytes): nat {
    if s == [] then 0
    else if s[0] <= 0x7F then 1
    else if Within(s[0], 0xC2, 0xDF) then if Tail(s, 1) then 2 else 0
    else if Within(s[0], 0xE0, 0xEF) then
      if |s| >= 2 && SecondByte(s[0], s[1]) && Tail(s, 2) then 3 else 0
    else if Within(s[0], 0xF0, 0xF4) then
      if |s| >= 2 && SecondByte(s[0], s[1]) && Tail(s, 2) && Tail(s, 3) then 4 else 0
    else 0
  }

  /** The code point that n bytes of this shape hold. */
  function Scalar(s: Bytes, n: nat): bv32
    requires 1 <= n <= 4 && n <= |s|
  {
    if n == 1 then s[0] as bv32
    else if n == 2 then ((s[0] & 0x1F) as bv32 << 6) | Low(s[1])
    else if n == 3 then ((s[0] & 0x0F) as bv32 << 12) | (Low(s[1]) << 6) | Low(s[2])
    else ((s[0] & 0x07) as bv32 << 18) | (Low(s[1]) << 12) | (Low(s[2]) << 6) | Low(s[3])
  }

  function Low(b: Byte): bv32 {
    (b & 0x3F) as bv32
  }

  /** A leading byte and as many continuation bytes as it announces. */
  predicate Shaped(s: Bytes, n: nat) {
    && 1 <= n <= |s| && LeadWidth(s[0]) == n && (n == 1 ==> s[0] < 0x80)
    && forall i :: 1 <= i < n ==> IsContinuation(s[i])
  }

  /** A Unicode scalar value that needs exactly n bytes. */
  predicate NeedsWidth(v: bv32, n: nat) {
    || (n == 1 && v <= 0x7F)
    || (n == 2 && 0x80 <= v <= 0x7FF)
    || (n == 3 && 0x800 <= v <= 0xFFFF && !(0xD800 <= v <= 0xDFFF))
    || (n == 4 && 0x10000 <= v <= 0x10FFFF)
  }

  /** The table accepts at the front of a text exactly the shortest forms of Unicode scalar values. */
  lemma CharIsScalar(s: Bytes, n: nat)
    requires s != [] && n > 0
    ensures CharLen(s) == n <==> Shaped(s, n) && NeedsWidth(Scalar(s, n), n)
  {
    if n == 1 {
      OneByte(s);
    } else if n == 2 {
      TwoBytes(s);
    } else if n == 3 {
      ThreeBytes(s);
    } else if n == 4 {
      FourBytes(s);
    }
  }

  lemma OneByte(s: Bytes)
    requires s != []
    ensures CharLen(s) == 1 <==> Shaped(s, 1) && NeedsWidth(Scalar(s, 1), 1)
  {
  }

  lemma TwoBytes(s: Bytes)
    requires s != []
    ensures CharLen(s) == 2 <==> Shaped(s, 2) && NeedsWidth(Scalar(s, 2), 2)
  {
    assert |s| >= 2 ==> (IsContinuation(s[1]) <==> Within(s[1], 0x80, 0xBF));
  }

  lemma ThreeBytes(s: Bytes)
    requires s != []
    ensures CharLen(s) == 3 <==> Shaped(s, 3) && NeedsWidth(Scalar(s, 3), 3)
  {
    assert |s| >= 3 ==> (IsContinuation(s[1]) <==> Within(s[1], 0x80, 0xBF));
    assert |s| >= 3 ==> (IsContinuation(s[2]) <==> Within(s[2], 0x80, 0xBF));
  }

  lemma FourBytes(s: Bytes)
    requires s != []
    ensures CharLen(s) == 4 <==> Shaped(s, 4) && NeedsWidth(Scalar(s, 4), 4)
  {
    assert |s| >= 4 ==> (IsContinuation(s[1]) <==> Within(s[1], 0x80, 0xBF));
    assert |s| >= 4 ==> (IsContinuation(s[2]) <==> Within(s[2], 0x80, 0xBF));
    assert |s| >= 4 ==> (IsContinuation(s[3]) <==> Within(s[3], 0x80, 0xBF));
  }

  lemma CharShape(s: Bytes)
    requires CharLen(s) > 0
    ensures var n := CharLen(s);
            n <= |s| && n == LeadWidth(s[0]) && !IsContinuation(s[0]) &&
            forall i :: 1 <= i < n ==> IsContinuation(s[i])
  {
    var n := CharLen(s);
    assert n == 1 || IsContinuation(s[1]);
    assert n <= 2 || IsContinuation(s[2]);
    assert n <= 3 || IsContinuation(s[3]);
  }

  /** A character is decided by its own bytes alone. */
  lemma CharLocal(s: Bytes, m: nat)
    requires CharLen(s) > 0 && m <= |s|
    ensures CharLen(s[..m]) == if m >= CharLen(s) then CharLen(s) else 0
  {
  }

  lemma ContinuationStartsNothing(s: Bytes)
    requires s != [] && IsContinuation(s[0])
    ensures CharLen(s) == 0
  {
  }

  /** UTF8-octets: a sequence of characters and nothing else. */
  predicate Valid(s: Bytes) {
    s == [] || (CharLen(s) > 0 && CharLen(s) <= |s| && Valid(s[CharLen(s)..]))
  }

  predicate AtBoundary(s: Bytes, i: nat)
    requires i <= |s|
  {
    i == |s| || !IsContinuation(s[i])
  }

  /** In valid text the places where it can be cut are exactly those not followed by a
      continuation byte. */
  lemma {:induction false} CutsAreBoundaries(s: Bytes, i: nat)
    requires Valid(s) && i <= |s|
    ensures Valid(s[..i]) <==> i == 0 || AtBoundary(s, i)
    ensures Valid(s[i..]) <==> AtBoundary(s, i)
    decreases |s|
  {
    hide CharLen, IsContinuation, LeadWidth;
    if s == [] {
      assert s[..i] == [] && s[i..] == [];
    } else {
      var n := CharLen(s);
      CharShape(s);
      if i == 0 {
        assert s[..i] == [] && s[i..] == s;
      } else if i < n {
        CharLocal(s, i);
        ContinuationStartsNothing(s[i..]);
      } else {
        CutsAreBoundaries(s[n..], i - n);
        CharLocal(s, i);
        assert s[..i][n..] == s[n..][..i - n];
        assert s[i..] == s[n..][i - n..];
      }
    }
  }

  /** The character that ends at or spans position h. */
  lemma {:induction false} CharAround(s: Bytes, h: nat) returns (l: nat, n: nat)
    requires Valid(s) && 0 < h <= |s|
    ensures l < h <= l + n <= |s| && n <= 4 && n == LeadWidth(s[l])
    ensures !IsContinuation(s[l]) && forall i :: l < i < l + n ==> IsContinuation(s[i])
    ensures AtBoundary(s, l + n)
    decreases |s|
  {
    hide CharLen, IsContinuation, LeadWidth;
    n := CharLen(s);
    CharShape(s);
    if h <= n {
      l := 0;
      CutsAreBoundaries(s, n);
    } else {
      var l', n' := CharAround(s[n..], h - n);
      l, n := n + l', n';
      assert forall i :: l <= i < l + n ==> s[i] == s[|s| - |s[CharLen(s)..]|..][i - CharLen(s)];
    }
  }

  // ------------------------------------------------------------ the two repairs

  /** Where the walk back over continuation bytes stops. */
  function BackTo(data: Bytes, index: int, steps: nat): (r: int)
    requires -1 <= index < |data|
    ensures -1 <= r <= index
    decreases index + 1
  {
    if index >= 0 && IsContinuation(data[index]) && steps < 4 then BackTo(data, index - 1, steps + 1) else index
  }

  function TrimTrailing(data: Bytes): Bytes {
    if data == [] then data
    else
      var index := BackTo(data, |data| - 1, 0);
      if index < 0 then []
      else if index + LeadWidth(data[index]) > |data| then data[..index]
      else data
  }

  function TrimLeading(data: Bytes): Bytes {
    if data != [] && IsContinuation(data[0]) then TrimLeading(data[1..]) else data
  }

  method TrimTrailingPartialUtf8(data: Bytes) returns (r: Bytes)
    ensures r == TrimTrailing(data)
  {
    if data == [] {
      return data;
    }
    var index, steps := |data| - 1, 0;
    while index >= 0 && IsContinuation(data[index]) && steps < 4
      invariant -1 <= index < |data| && BackTo(data, |data| - 1, 0) == BackTo(data, index, steps)
      decreases index + 1
    {
      index := index - 1;
      steps := steps + 1;
    }
    if index < 0 {
      return [];
    }
    var width := LeadWidth(data[index]);
    return if index + width > |data| then data[..index] else data;
  }

  method TrimLeadingContinuationUtf8(data: Bytes) returns (r: Bytes)
    ensures r == TrimLeading(data)
  {
    var index := 0;
    while index < |data| && IsContinuation(data[index])
      invariant 0 <= index <= |data| && TrimLeading(data) == TrimLeading(data[index..])
    {
      assert data[index..][1..] == data[index + 1..];
      index := index + 1;
    }
    return data[index..];
  }

  lemma {:induction false} BackOver(data: Bytes, l: nat, index: nat, steps: nat)
    requires l <= index < |data| && !IsContinuation(data[l])
    requires forall i :: l < i <= index ==> IsContinuation(data[i])
    requires steps + (index - l) < 4
    ensures BackTo(data, index, steps) == l
  {
    if index > l {
      BackOver(data, l, index - 1, steps + 1);
    }
  }

  /** Cutting valid text at h: the repair keeps the longest valid prefix of the window and
      drops at most three bytes. */
  lemma TrimTrailingIsLongest(s: Bytes, h: nat)
    requires Valid(s) && h <= |s|
    ensures var r := TrimTrailing(s[..h]);
            && r <= s[..h] && Valid(r) && h - |r| <= 3
            && forall k :: |r| < k <= h ==> !Valid(s[..k])
  {
    hide IsContinuation, LeadWidth, Valid, TrimTrailing;
    if h > 0 {
      var l, n := CharAround(s, h);
      TrimmedAt(s, h, l, n);
      LongestCut(s, h, l, n);
    } else {
      assert s[..h] == [];
      NothingTrimmed();
    }
  }

  lemma NothingTrimmed()
    ensures TrimTrailing([]) == [] && Valid([])
  {
  }

  /** The character at l, of n bytes, ends at h or is cut there. */
  ghost predicate Spans(s: Bytes, h: nat, l: nat, n: nat) {
    && l < h <= l + n <= |s| && n <= 4 && n == LeadWidth(s[l])
    && !IsContinuation(s[l]) && (forall i :: l < i < l + n ==> IsContinuation(s[i])) && AtBoundary(s, l + n)
  }

  lemma TrimmedAt(s: Bytes, h: nat, l: nat, n: nat)
    requires h <= |s| && Spans(s, h, l, n)
    ensures TrimTrailing(s[..h]) == s[..if h < l + n then l else h]
  {
    hide IsContinuation, LeadWidth, BackTo;
    var data := s[..h];
    assert forall i :: l <= i < h ==> data[i] == s[i];
    BackOver(data, l, h - 1, 0);
    assert data[..l] == s[..l];
  }

  lemma LongestCut(s: Bytes, h: nat, l: nat, n: nat)
    requires Valid(s) && h <= |s| && Spans(s, h, l, n)
    ensures var r := if h < l + n then l else h;
            Valid(s[..r]) && h - r <= 3 && forall k :: r < k <= h ==> !Valid(s[..k])
  {
    hide IsContinuation, LeadWidth, Valid;
    var r := if h < l + n then l else h;
    CutsAreBoundaries(s, r);
    forall k | r < k <= h
      ensures !Valid(s[..k])
    {
      CutsAreBoundaries(s, k);
    }
  }

  lemma {:induction false} TrimLeadingSkips(data: Bytes) returns (k: nat)
    ensures k <= |data| && TrimLeading(data) == data[k..]
    ensures forall i :: 0 <= i < k ==> IsContinuation(data[i])
    ensures k < |data| ==> !IsContinuation(data[k])
  {
    if data != [] && IsContinuation(data[0]) {
      var k' := TrimLeadingSkips(data[1..]);
      k := k' + 1;
      assert data[1..][k'..] == data[k..];
      assert forall i :: 1 <= i < |data| ==> data[i] == data[1..][i - 1];
    } else {
      k := 0;
    }
  }

  /** Cutting valid text at t: the repair keeps the longest suffix of the window that starts on
      a boundary, it is valid, and at most three bytes are dropped. */
  lemma TrimLeadingIsLongest(s: Bytes, t: nat)
    requires Valid(s) && t <= |s|
    ensures var r := TrimLeading(s[t..]);
            && |r| <= |s| - t && r == s[|s| - |r|..] && Valid(r) && (|s| - t) - |r| <= 3
            && forall j :: t <= j < |s| - |r| ==> !Valid(s[j..])
  {
    hide IsContinuation, Valid;
    var k := TrimLeadingSkips(s[t..]);
    assert s[t..][k..] == s[t + k..];
    forall i | t <= i < t + k
      ensures IsContinuation(s[i])
    {
      assert s[i] == s[t..][i - t];
    }
    if t + k < |s| {
      assert s[t + k] == s[t..][k];
    }
    SkippedIsShort(s, t, k);
    SkippedIsInvalid(s, t, k);
  }

  lemma SkippedIsInvalid(s: Bytes, t: nat, k: nat)
    requires Valid(s) && t + k <= |s| && forall i :: t <= i < t + k ==> IsContinuation(s[i])
    requires t + k < |s| ==> !IsContinuation(s[t + k])
    ensures Valid(s[t + k..]) && forall j :: t <= j < t + k ==> !Valid(s[j..])
  {
    hide IsContinuation, Valid;
    CutsAreBoundaries(s, t + k);
    forall j | t <= j < t + k
      ensures !Valid(s[j..])
    {
      CutsAreBoundaries(s, j);
    }
  }

  lemma SkippedIsShort(s: Bytes, t: nat, k: nat)
    requires Valid(s) && t + k <= |s| && forall i :: t <= i < t + k ==> IsContinuation(s[i])
    ensures k <= 3
  {
    hide IsContinuation, LeadWidth, Valid;
    if k > 0 {
      var l, n := CharAround(s, t + k);
    }
  }
}
