/** Mentions of other sessions inside text: writing one, and finding them all again (query/reference.py). */
module Mentions {
  import opened Prelude
  import opened References

  const AT: CodePoint := 64
  const OPEN_BRACKET: CodePoint := 91
  const CLOSE_BRACKET: CodePoint := 93
  const OPEN_PAREN: CodePoint := 40
  const CLOSE_PAREN: CodePoint := 41
  const NEWLINE: CodePoint := 10

  // ------------------------------------------------------------------ labels

  function Escaped(title: Text): Text {
    if title == [] then []
    else if title[0] == BACKSLASH || title[0] == CLOSE_BRACKET then [BACKSLASH, title[0]] + Escaped(title[1..])
    else [title[0]] + Escaped(title[1..])
  }

  /** A backslash gives way to the character after it, unless that is a newline. */
  function Unescaped(raw: Text): Text {
    if raw == [] then []
    else if raw[0] == BACKSLASH && |raw| > 1 && raw[1] != NEWLINE then [raw[1]] + Unescaped(raw[2..])
    else [raw[0]] + Unescaped(raw[1..])
  }

  lemma {:induction false} LabelRoundTrips(title: Text)
    ensures Unescaped(Escaped(title)) == title
  {
    if title != [] {
      LabelRoundTrips(title[1..]);
      var e := Escaped(title);
      if title[0] == BACKSLASH || title[0] == CLOSE_BRACKET {
        assert e[2..] == Escaped(title[1..]);
      } else {
        assert e[1..] == Escaped(title[1..]);
      }
      assert title == [title[0]] + title[1..];
    }
  }

  // ------------------------------------------------------------------ matching, as the pattern describes it

  /** Escaped characters, and characters other than a backslash and a closing bracket. */
  predicate IsLabel(raw: Text) {
    if raw == [] then true
    else if raw[0] == BACKSLASH then |raw| > 1 && raw[1] != NEWLINE && IsLabel(raw[2..])
    else raw[0] != CLOSE_BRACKET && IsLabel(raw[1..])
  }

  ghost predicate IsTarget(run: Text) {
    forall i :: 0 <= i < |run| ==> !IsSpace(run[i]) && run[i] != CLOSE_PAREN
  }

  ghost predicate IsRun(run: Text) {
    forall i :: 0 <= i < |run| ==> IsPayload(run[i])
  }

  /** `@[label](dsh-session:...)` */
  function Linked(raw: Text, run: Text): Text {
    [AT, OPEN_BRACKET] + raw + [CLOSE_BRACKET, OPEN_PAREN] + SCHEME + run + [CLOSE_PAREN]
  }

  /** How far a label reaches. */
  function LabelLength(t: Text): (n: nat)
    ensures n <= |t| && IsLabel(t[..n])
  {
    if t == [] || t[0] == CLOSE_BRACKET then 0
    else if t[0] == BACKSLASH then
      if |t| > 1 && t[1] != NEWLINE then
        var n := LabelLength(t[2..]);
        assert t[..n + 2][2..] == t[2..][..n];
        n + 2
      else 0
    else
      var n := LabelLength(t[1..]);
      assert t[..n + 1][1..] == t[1..][..n];
      n + 1
  }

  function TargetLength(t: Text): (n: nat)
    ensures n <= |t| && IsTarget(t[..n])
    ensures n < |t| ==> IsSpace(t[n]) || t[n] == CLOSE_PAREN
  {
    if t == [] || IsSpace(t[0]) || t[0] == CLOSE_PAREN then 0 else 1 + TargetLength(t[1..])
  }

  function RunLength(t: Text): (n: nat)
    ensures n <= |t| && IsRun(t[..n])
    ensures n < |t| ==> !IsPayload(t[n])
  {
    if t == [] || !IsPayload(t[0]) then 0 else 1 + RunLength(t[1..])
  }

  /** A match: the raw label of a link, or none for a bare URI; the URI; and how much text it covers. */
  datatype Match = Match(raw: Option<Text>, uri: Text, length: nat)

  function MatchLink(t: Text): (m: Option<Match>)
    ensures m.Some? ==> m.value.raw.Some? && 0 < m.value.length <= |t| && SCHEME <= m.value.uri
    ensures m.Some? ==> IsLabel(m.value.raw.value) && IsTarget(m.value.uri[|SCHEME|..])
                        && t[..m.value.length] == Linked(m.value.raw.value, m.value.uri[|SCHEME|..])
  {
    if !([AT, OPEN_BRACKET] <= t) then None
    else
      var n := LabelLength(t[2..]);
      var rest := t[2 + n..];
      if !([CLOSE_BRACKET, OPEN_PAREN] + SCHEME <= rest) then None
      else
        var target := rest[2 + |SCHEME|..];
        var k := TargetLength(target);
        if k < |target| && target[k] == CLOSE_PAREN then
          var length := 2 + n + 2 + |SCHEME| + k + 1;
          LinkedIs(t, n, k);
          Some(Match(Some(t[2..2 + n]), SCHEME + target[..k], length))
        else None
  }

  lemma LinkedIs(t: Text, n: nat, k: nat)
    requires 2 + n <= |t| && [AT, OPEN_BRACKET] <= t && [CLOSE_BRACKET, OPEN_PAREN] + SCHEME <= t[2 + n..]
    requires var target := t[2 + n..][2 + |SCHEME|..]; k < |target| && target[k] == CLOSE_PAREN
    ensures var target := t[2 + n..][2 + |SCHEME|..]; var length := 2 + n + 2 + |SCHEME| + k + 1;
            length <= |t| && t[..length] == Linked(t[2..2 + n], target[..k]) && t[2..][..n] == t[2..2 + n]
            && (SCHEME + target[..k])[|SCHEME|..] == target[..k]
  {
    var middle := [CLOSE_BRACKET, OPEN_PAREN] + SCHEME;
    assert |middle| == 2 + |SCHEME|;
    Between(t, [AT, OPEN_BRACKET], n, middle, k);
    LinkedPieces(t[2..2 + n], t[2 + n..][2 + |SCHEME|..][..k]);
  }

  lemma LinkedPieces(raw: Text, run: Text)
    ensures Linked(raw, run) == [AT, OPEN_BRACKET] + raw + ([CLOSE_BRACKET, OPEN_PAREN] + SCHEME) + run + [CLOSE_PAREN]
    ensures (SCHEME + run)[|SCHEME|..] == run
  {
    Regroup([AT, OPEN_BRACKET] + raw, [CLOSE_BRACKET, OPEN_PAREN], SCHEME);
  }

  lemma Regroup(a: Text, b: Text, c: Text)
    ensures a + b + c == a + (b + c)
  {
  }

  /** A text that starts with a, n more characters, and then b and k more, up to one character further. */
  lemma Between(t: Text, a: Text, n: nat, b: Text, k: nat)
    requires |a| + n <= |t| && a <= t && b <= t[|a| + n..] && k < |t[|a| + n..][|b|..]|
    ensures var target, length := t[|a| + n..][|b|..], |a| + n + |b| + k + 1;
            && length <= |t| && t[|a|..][..n] == t[|a|..|a| + n]
            && t[..length] == a + t[|a|..|a| + n] + b + target[..k] + [target[k]]
  {
  }

  function MatchBare(t: Text): (m: Option<Match>)
    ensures m.Some? ==> m.value.raw.None? && 0 < m.value.length <= |t| && m.value.uri == t[..m.value.length]
    ensures m.Some? <==> SCHEME <= t && |t| > |SCHEME| && IsPayload(t[|SCHEME|])
    ensures m.Some? ==> m.value.length > |SCHEME| && IsRun(t[|SCHEME|..m.value.length])
    ensures m.Some? && m.value.length < |t| ==> !IsPayload(t[m.value.length])
  {
    if !(SCHEME <= t) then None
    else
      var n := RunLength(t[|SCHEME|..]);
      assert t[|SCHEME|..][..n] == t[|SCHEME|..|SCHEME| + n];
      if n == 0 then None else Some(Match(None, t[..|SCHEME| + n], |SCHEME| + n))
  }

  function MatchAt(t: Text): (m: Option<Match>)
    ensures m.Some? ==> 0 < m.value.length <= |t|
  {
    if MatchLink(t).Some? then MatchLink(t) else MatchBare(t)
  }

  lemma {:induction false} LabelIsWhole(raw: Text, rest: Text)
    requires IsLabel(raw) && rest != [] && rest[0] == CLOSE_BRACKET
    ensures LabelLength(raw + rest) == |raw|
  {
    var t := raw + rest;
    if raw == [] {
      assert t == rest;
    } else if raw[0] == BACKSLASH {
      LabelIsWhole(raw[2..], rest);
      assert t[2..] == raw[2..] + rest;
    } else {
      LabelIsWhole(raw[1..], rest);
      assert t[1..] == raw[1..] + rest;
    }
  }

  lemma {:induction false} TargetIsWhole(run: Text, rest: Text)
    requires IsTarget(run) && rest != [] && rest[0] == CLOSE_PAREN
    ensures TargetLength(run + rest) == |run|
  {
    if run == [] {
      assert run + rest == rest;
    } else {
      TargetIsWhole(run[1..], rest);
      assert (run + rest)[1..] == run[1..] + rest;
    }
  }

  lemma {:induction false} RunIsWhole(run: Text, rest: Text)
    requires IsRun(run) && (rest == [] || !IsPayload(rest[0]))
    ensures RunLength(run + rest) == |run|
  {
    if run == [] {
      assert run + rest == rest;
    } else {
      RunIsWhole(run[1..], rest);
      assert (run + rest)[1..] == run[1..] + rest;
    }
  }

  lemma LinkedParts(raw: Text, run: Text, rest: Text)
    ensures var t := Linked(raw, run) + rest;
            var after := [CLOSE_PAREN] + rest;
            var tail := [CLOSE_BRACKET, OPEN_PAREN] + SCHEME + (run + after);
            && [AT, OPEN_BRACKET] <= t && t[2..] == raw + tail && t[2..2 + |raw|] == raw && t[2 + |raw|..] == tail
            && tail[2 + |SCHEME|..] == run + after && [CLOSE_BRACKET, OPEN_PAREN] + SCHEME <= tail
            && (run + after)[..|run|] == run && (run + after)[|run|] == CLOSE_PAREN
  {
    var t := Linked(raw, run) + rest;
    var after := [CLOSE_PAREN] + rest;
    var tail := [CLOSE_BRACKET, OPEN_PAREN] + SCHEME + (run + after);
    LinkedPieces(raw, run);
    var middle := [CLOSE_BRACKET, OPEN_PAREN] + SCHEME;
    assert |middle| == 2 + |SCHEME|;
    Around([AT, OPEN_BRACKET], raw, middle, run, [CLOSE_PAREN], rest);
    Ahead([AT, OPEN_BRACKET], raw, tail);
    Ahead(middle, run, after);
    Ahead(run, [CLOSE_PAREN], rest);
  }

  lemma Around(a: Text, b: Text, c: Text, d: Text, e: Text, f: Text)
    ensures a + b + c + d + e + f == a + (b + (c + (d + (e + f))))
  {
  }

  lemma Ahead(a: Text, b: Text, c: Text)
    ensures var t := a + (b + c);
            a <= t && t[..|a|] == a && t[|a|..] == b + c && t[|a|..|a| + |b|] == b && t[|a| + |b|..] == c
  {
  }

  /** The pattern matches a link in exactly one way, and the matcher finds it. */
  lemma LinkMatches(raw: Text, run: Text, rest: Text)
    requires IsLabel(raw) && IsTarget(run)
    ensures MatchLink(Linked(raw, run) + rest) == Some(Match(Some(raw), SCHEME + run, |Linked(raw, run)|))
  {
    hide IsLabel, IsTarget, LabelLength, TargetLength;
    var after := [CLOSE_PAREN] + rest;
    var tail := [CLOSE_BRACKET, OPEN_PAREN] + SCHEME + (run + after);
    assert |Linked(raw, run)| == 2 + |raw| + 2 + |SCHEME| + |run| + 1;
    hide Linked;
    LinkedParts(raw, run, rest);
    LabelIsWhole(raw, tail);
    TargetIsWhole(run, after);
  }

  lemma BareMatches(run: Text, rest: Text)
    requires IsRun(run) && run != [] && (rest == [] || !IsPayload(rest[0]))
    ensures MatchAt(SCHEME + run + rest) == Some(Match(None, SCHEME + run, |SCHEME + run|))
  {
    var t := SCHEME + run + rest;
    assert t[|SCHEME|..] == run + rest;
    assert t[..|SCHEME| + |run|] == SCHEME + run;
    assert SCHEME <= t && t[0] == 100;
    RunIsWhole(run, rest);
  }

  // ------------------------------------------------------------------ substituting every match

  datatype Reference = Reference(id: Text, title: Text)

  datatype Parsed = Parsed(text: Text, references: seq<Reference>)

  function ReferenceOf(m: Match): Result<Reference, ReferenceError> {
    var id := Decode(m.uri);
    if id.Err? then Err(id.error)
    else Ok(Reference(id.value, if m.raw.Some? then Unescaped(m.raw.value) else id.value))
  }

  function Joining(text: Text, references: seq<Reference>,
                   rest: Result<Parsed, ReferenceError>): Result<Parsed, ReferenceError> {
    if rest.Err? then rest else Ok(Parsed(text + rest.value.text, references + rest.value.references))
  }

  /** Leftmost matches first; a reference that cannot be decoded fails the whole text. */
  function Parse(t: Text): Result<Parsed, ReferenceError>
    decreases |t|
  {
    if t == [] then Ok(Parsed([], []))
    else if MatchAt(t).Some? then
      var m := MatchAt(t).value;
      var r := ReferenceOf(m);
      if r.Err? then Err(r.error) else Joining([AT] + r.value.title, [r.value], Parse(t[m.length..]))
    else Joining([t[0]], [], Parse(t[1..]))
  }

  /** The loop gives the leftmost substitution, or its first failure. */
  method ParseReferences(t: Text) returns (r: Result<Parsed, ReferenceError>)
    ensures r == Parse(t)
  {
    hide MatchAt, ReferenceOf;
    var text: Text, references: seq<Reference>, i: nat := [], [], 0;
    assert t[0..] == t;
    JoiningNothing(Parse(t));
    while i < |t|
      invariant i <= |t| && Parse(t) == Joining(text, references, Parse(t[i..]))
      decreases |t| - i
    {
      var m := MatchAt(t[i..]);
      if m.Some? {
        var found := ReferenceOf(m.value);
        if found.Err? {
          return Err(found.error);
        }
        assert t[i..][m.value.length..] == t[i + m.value.length..];
        JoiningTwice(text, references, [AT] + found.value.title, [found.value], Parse(t[i + m.value.length..]));
        text := text + ([AT] + found.value.title);
        references := references + [found.value];
        i := i + m.value.length;
      } else {
        assert t[i..][1..] == t[i + 1..];
        JoiningTwice(text, references, [t[i]], [], Parse(t[i + 1..]));
        text := text + [t[i]];
        references := references + [];
        i := i + 1;
      }
    }
    JoiningLast(text, references);
    return Ok(Parsed(text, references));
  }

  lemma JoiningNothing(rest: Result<Parsed, ReferenceError>)
    ensures Joining([], [], rest) == rest
  {
    if rest.Ok? {
      assert [] + rest.value.text == rest.value.text && [] + rest.value.references == rest.value.references;
    }
  }

  lemma JoiningLast(text: Text, references: seq<Reference>)
    ensures Joining(text, references, Parse([])) == Ok(Parsed(text, references))
  {
    assert text + [] == text && references + [] == references;
  }

  lemma JoiningTwice(text: Text, refs: seq<Reference>, more: Text, others: seq<Reference>,
                     rest: Result<Parsed, ReferenceError>)
    ensures Joining(text, refs, Joining(more, others, rest)) == Joining(text + more, refs + others, rest)
  {
    if rest.Ok? {
      assert text + (more + rest.value.text) == text + more + rest.value.text;
      assert refs + (others + rest.value.references) == refs + others + rest.value.references;
    }
  }

  // ------------------------------------------------------------------ writing mentions

  /** an absent or empty label falls back to the id. */
  function LabelFor(id: Text, title: Option<Text>): Text {
    if title.Some? && title.value != [] then title.value else id
  }

  function FormatMention(id: Text, title: Option<Text>): Text {
    [AT, OPEN_BRACKET] + Escaped(LabelFor(id, title)) + [CLOSE_BRACKET, OPEN_PAREN] + Encode(id) + [CLOSE_PAREN]
  }

  lemma {:induction false} EscapedIsLabel(title: Text)
    ensures IsLabel(Escaped(title))
  {
    if title != [] {
      EscapedIsLabel(title[1..]);
      var e := Escaped(title);
      if title[0] == BACKSLASH || title[0] == CLOSE_BRACKET {
        assert e[2..] == Escaped(title[1..]);
      } else {
        assert e[1..] == Escaped(title[1..]);
      }
    }
  }

  function PayloadOf(id: Text): Text {
    Encode(id)[|SCHEME|..]
  }

  lemma PayloadIsRun(id: Text)
    ensures Encode(id) == SCHEME + PayloadOf(id) && IsRun(PayloadOf(id)) && PayloadOf(id) != []
            && IsTarget(PayloadOf(id))
  {
    hide Base64, EscapeAll;
    assert PayloadOf(id) == Base64(AsBytes(Dumps(id)));
  }

  /** A mention is found again whole, with its id and its label. */
  lemma MentionMatches(id: Text, title: Option<Text>, rest: Text)
    ensures var t, m := FormatMention(id, title) + rest, MatchAt(FormatMention(id, title) + rest);
            && m.Some? && t[m.value.length..] == rest
            && ReferenceOf(m.value) ==
               Ok(Reference(Joined(id), if title.Some? && title.value != [] then title.value else id))
  {
    hide MatchLink, MatchBare, Escaped, Unescaped, Encode, Decode, Joined, IsLabel, IsTarget;
    var raw, run := Escaped(LabelFor(id, title)), PayloadOf(id);
    PayloadIsRun(id);
    EscapedIsLabel(LabelFor(id, title));
    LabelRoundTrips(LabelFor(id, title));
    DecodeEncoded(id);
    assert FormatMention(id, title) == Linked(raw, run);
    LinkMatches(raw, run, rest);
    assert (Linked(raw, run) + rest)[|Linked(raw, run)|..] == rest;
  }

  lemma BareIsFound(id: Text, rest: Text)
    requires rest == [] || !IsPayload(rest[0])
    ensures var t, m := Encode(id) + rest, MatchAt(Encode(id) + rest);
            && m.Some? && t[m.value.length..] == rest
            && ReferenceOf(m.value) == Ok(Reference(Joined(id), Joined(id)))
  {
    hide MatchAt, Encode, Decode, Joined, IsRun;
    PayloadIsRun(id);
    DecodeEncoded(id);
    BareMatches(PayloadOf(id), rest);
    assert (Encode(id) + rest)[|Encode(id)|..] == rest;
  }

  // ------------------------------------------------------------------ text with mentions in it

  /** Nothing in the text could begin a reference. */
  predicate Free(t: Text) {
    t == [] || (!([AT, OPEN_BRACKET] <= t) && !(SCHEME <= t) && Free(t[1..]))
  }

  /** That is, no mention and no URI begins anywhere in it. */
  lemma {:induction false} FreeExactly(t: Text)
    ensures Free(t) <==> forall i :: 0 <= i < |t| ==> !([AT, OPEN_BRACKET] <= t[i..]) && !(SCHEME <= t[i..])
  {
    if t != [] {
      FreeExactly(t[1..]);
      assert t[0..] == t;
      assert forall i :: 0 <= i < |t| - 1 ==> t[1..][i..] == t[i + 1..];
      if Free(t) {
        forall i | 0 <= i < |t|
          ensures !([AT, OPEN_BRACKET] <= t[i..]) && !(SCHEME <= t[i..])
        {
          assert i > 0 ==> t[1..][i - 1..] == t[i..];
        }
      }
    }
  }

  /** Some plain text, then a mention with an optional label, or a bare URI. */
  datatype Item = Mention(before: Text, id: Text, title: Option<Text>) | Bare(before: Text, id: Text)

  function Written(item: Item): Text {
    match item
    case Mention(_, id, title) => FormatMention(id, title)
    case Bare(_, id) => Encode(id)
  }

  function Build(items: seq<Item>, tail: Text): Text {
    if items == [] then tail else items[0].before + (Written(items[0]) + Build(items[1..], tail))
  }

  /** Plain text is free of references, and a bare URI is not run into by the text after it. */
  ghost predicate Separate(items: seq<Item>, tail: Text) {
    if items == [] then Free(tail)
    else
      var rest := Build(items[1..], tail);
      && Free(items[0].before)
      && (items[0].Bare? ==> rest == [] || !IsPayload(rest[0]))
      && Separate(items[1..], tail)
  }

  function Shown(item: Item): Text {
    match item
    case Mention(_, id, title) => LabelFor(id, title)
    case Bare(_, id) => Joined(id)
  }

  /** What a reader should get back. */
  function Expected(items: seq<Item>, tail: Text): Parsed {
    if items == [] then Parsed(tail, [])
    else
      var rest := Expected(items[1..], tail);
      Parsed(items[0].before + ([AT] + Shown(items[0]) + rest.text),
             [Reference(Joined(items[0].id), Shown(items[0]))] + rest.references)
  }

  /** A place in free text begins no reference, whatever reference follows the text. */
  lemma NoMatchInside(plain: Text, rest: Text)
    requires plain != [] && Free(plain) && (rest == [] || rest[0] == AT || rest[0] == 100)
    ensures MatchAt(plain + rest).None?
  {
    hide Free;
    FreeFront(plain);
    PrefixReaches([AT, OPEN_BRACKET], plain, rest);
    PrefixReaches(SCHEME, plain, rest);
    if |plain| < |SCHEME| {
      SchemeLetters(|plain|);
    }
  }

  /** What only begins a text once something follows it reaches into what follows. */
  lemma PrefixReaches(mark: Text, plain: Text, rest: Text)
    requires !(mark <= plain)
    ensures mark <= plain + rest ==> |plain| < |mark| && rest != [] && rest[0] == mark[|plain|]
  {
    var t := plain + rest;
    if |plain| >= |mark| {
      assert t[..|mark|] == plain[..|mark|];
    } else if mark <= t {
      assert t[|plain|] == mark[|plain|];
    }
  }

  lemma SchemeLetters(k: nat)
    requires 0 < k < |SCHEME|
    ensures SCHEME[k] != AT && SCHEME[k] != 100
  {
  }

  lemma FreeFront(plain: Text)
    requires plain != [] && Free(plain)
    ensures !([AT, OPEN_BRACKET] <= plain) && !(SCHEME <= plain) && Free(plain[1..])
  {
  }

  lemma {:induction false} PlainPasses(plain: Text, rest: Text)
    requires Free(plain) && (rest == [] || rest[0] == AT || rest[0] == 100)
    ensures Parse(plain + rest) == Joining(plain, [], Parse(rest))
  {
    hide MatchAt, ReferenceOf, Free;
    if plain == [] {
      assert plain + rest == rest;
      JoiningNothing(Parse(rest));
    } else {
      FreeFront(plain);
      NoMatchInside(plain, rest);
      PlainPasses(plain[1..], rest);
      assert (plain + rest)[1..] == plain[1..] + rest && (plain + rest)[0] == plain[0];
      JoiningTwice([plain[0]], [], plain[1..], [], Parse(rest));
      assert plain == [plain[0]] + plain[1..];
      var none: seq<Reference> := [];
      assert none + none == none;
    }
  }

  lemma ItemIsFound(item: Item, rest: Text)
    requires item.Bare? ==> rest == [] || !IsPayload(rest[0])
    ensures Parse(Written(item) + rest) ==
            Joining([AT] + Shown(item), [Reference(Joined(item.id), Shown(item))], Parse(rest))
  {
    hide MatchAt, ReferenceOf, FormatMention, Encode, Joined;
    var t := Written(item) + rest;
    match item
    case Mention(_, id, title) => MentionMatches(id, title, rest);
    case Bare(_, id) => BareIsFound(id, rest);
  }

  lemma FirstLetter(item: Item)
    ensures Written(item) != [] && (Written(item)[0] == AT || Written(item)[0] == 100)
  {
    hide Base64, EscapeAll, Escaped;
  }

  /** Parsing text with mentions in it gives back every id and label in order, and readable text. */
  lemma {:induction false} ParseFindsEveryMention(items: seq<Item>, tail: Text)
    requires Separate(items, tail)
    ensures Parse(Build(items, tail)) == Ok(Expected(items, tail))
  {
    hide Parse, Written, Shown, Free, Joined;
    if items == [] {
      PlainPasses(tail, []);
      assert tail + [] == tail;
      JoiningLast(tail, []);
    } else {
      var item, rest := items[0], Build(items[1..], tail);
      ParseFindsEveryMention(items[1..], tail);
      FirstLetter(item);
      ItemIsFound(item, rest);
      assert (Written(item) + rest)[0] == Written(item)[0];
      PlainPasses(item.before, Written(item) + rest);
      var r := [Reference(Joined(item.id), Shown(item))];
      JoiningTwice(item.before, [], [AT] + Shown(item), r, Parse(rest));
      assert [] + r == r;
      var e := Expected(items[1..], tail);
      assert item.before + ([AT] + Shown(item)) + e.text == item.before + ([AT] + Shown(item) + e.text);
    }
  }

  /** For ids without a split surrogate pair the ids come back as they were. */
  lemma IdsComeBack(items: seq<Item>, tail: Text, k: nat)
    requires Separate(items, tail) && k < |items| && !HasPair(items[k].id)
    ensures var r := Parse(Build(items, tail));
            && r.Ok? && |r.value.references| == |items| && r.value.references[k].id == items[k].id
            && r.value.references[k].title ==
               (if items[k].Mention? then LabelFor(items[k].id, items[k].title) else items[k].id)
  {
    ParseFindsEveryMention(items, tail);
    ExpectedAt(items, tail, k);
    JoinedIsSame(items[k].id);
  }

  lemma {:induction false} ExpectedAt(items: seq<Item>, tail: Text, k: nat)
    requires k < |items|
    ensures var e := Expected(items, tail);
            |e.references| == |items| && e.references[k] == Reference(Joined(items[k].id), Shown(items[k]))
  {
    hide Joined, Shown;
    if k > 0 {
      ExpectedAt(items[1..], tail, k - 1);
    } else if |items| > 1 {
      ExpectedAt(items[1..], tail, 0);
    }
  }
}
