/** Translating a stream and folding the frames back gives the answer the raw deltas spell out. */
module StreamLaws {
  import opened Prelude
  import opened Messages
  import opened Assembler
  import opened Translation

  // ------------------------------------------------- while the stream is still open

  function OpenFor(keys: seq<Key>, k: Key, s: string): Option<Open> {
    if k in keys then Some(Open(IndexOf(keys, k), s)) else None
  }

  function CallFor(ps: seq<Piece>, i: nat, wire: int): OpenCall {
    OpenCall(i, LastId(ps, wire), NameOr(LastName(ps, wire)), AllArguments(ps, wire))
  }

  function CallsFrom(ps: seq<Piece>, keys: seq<Key>, n: nat): map<nat, OpenCall> {
    map i: nat | n <= i < |keys| && keys[i].CallKey? :: CallFor(ps, i, keys[i].wire)
  }

  /** The assembler's state after the frames of these pieces: its order numbers are the harness indices. */
  function Shape(ps: seq<Piece>): State {
    var keys := Keys(ps);
    State(OpenFor(keys, TextKey, AllText(ps)), OpenFor(keys, ReasoningKey, AllReasoning(ps)),
          CallsFrom(ps, keys, 0), |keys|, [], None, Stop)
  }

  /** Announcing a block just before its first delta tells the assembler nothing. */
  lemma StartIsRedundant(s: State, ps: seq<Piece>, p: Piece, index: nat)
    ensures Pushed(Pushed(s, BlockStart(index, TypeOf(KeyOf(p)))), DeltaFrame(ps, p, index))
         == Pushed(s, DeltaFrame(ps, p, index))
  {
  }

  function IndexFor(ps: seq<Piece>, p: Piece): (i: nat)
    ensures i < |Grown(Keys(ps), KeyOf(p))| && Grown(Keys(ps), KeyOf(p))[i] == KeyOf(p)
  {
    if KeyOf(p) in Keys(ps) then IndexOf(Keys(ps), KeyOf(p)) else |Keys(ps)|
  }

  lemma {:induction false} KeysDistinct(ps: seq<Piece>)
    ensures Distinct(Keys(ps))
  {
    if ps != [] {
      KeysDistinct(ps[..|ps| - 1]);
      GrowKeys(Keys(ps[..|ps| - 1]), KeyOf(ps[|ps| - 1]));
    }
  }

  /** One delta moves the open state from the pieces before it to the pieces with it. */
  lemma DeltaKeepsShape(ps: seq<Piece>, p: Piece)
    ensures Pushed(Shape(ps), DeltaFrame(ps, p, IndexFor(ps, p))) == Shape(ps + [p])
  {
    hide Keys, AllText, AllReasoning, AllArguments, LastId, LastName, IndexOf, CallsFrom, Distinct;
    KeysDistinct(ps);
    OpensGrow(ps, p);
    if p.Call? {
      var i: nat, before: map<nat, OpenCall> := IndexFor(ps, p), CallsFrom(ps, Keys(ps), 0);
      var hollow: map<nat, OpenCall> := before[i := OpenCall(|Keys(ps)|, "", "", "")];
      CallsGrow(ps, p.c, i);
      SeenGrows(ps, p);
      assert hollow[i := CallFor(ps + [p], i, p.c.wire)] == before[i := CallFor(ps + [p], i, p.c.wire)];
    } else {
      CallsStay(ps, p);
    }
  }

  /** The open text and reasoning, and the number of blocks, after one more piece. */
  lemma OpensGrow(ps: seq<Piece>, p: Piece)
    requires Distinct(Keys(ps))
    ensures var s, s' := Shape(ps), Shape(ps + [p]);
            && s'.nextOrder == (if KeyOf(p) in Keys(ps) then s.nextOrder else s.nextOrder + 1)
            && (p.Say? ==>
                  s'.text == Some(Open(IndexFor(ps, p), (if s.text.Some? then s.text.value.text else "") + p.s)))
            && (p.Say? ==> IndexFor(ps, p) == if s.text.Some? then s.text.value.order else s.nextOrder)
            && (p.Think? ==>
                  s'.reasoning == Some(Open(IndexFor(ps, p),
                    (if s.reasoning.Some? then s.reasoning.value.text else "") + p.s)))
            && (p.Think? ==> IndexFor(ps, p) == if s.reasoning.Some? then s.reasoning.value.order else s.nextOrder)
            && (!p.Say? ==> s'.text == s.text)
            && (!p.Think? ==> s'.reasoning == s.reasoning)
  {
    hide Keys, AllText, AllReasoning, AllArguments, LastId, LastName, IndexOf, CallsFrom, Distinct;
    SeenGrows(ps, p);
    GrowKeys(Keys(ps), KeyOf(p));
  }

  lemma CallsStay(ps: seq<Piece>, p: Piece)
    requires !p.Call?
    ensures CallsFrom(ps + [p], Keys(ps + [p]), 0) == CallsFrom(ps, Keys(ps), 0)
  {
    hide Keys, AllText, AllReasoning, AllArguments, LastId, LastName, IndexOf;
    SeenGrows(ps, p);
  }

  lemma CallsGrow(ps: seq<Piece>, c: CallDelta, i: nat)
    requires Distinct(Keys(ps)) && i == IndexFor(ps, Call(c))
    ensures var before, p := CallsFrom(ps, Keys(ps), 0), Call(c);
            && (if CallKey(c.wire) in Keys(ps) then i in before && before[i] == CallFor(ps, i, c.wire)
                else i !in before && i == |Keys(ps)|)
            && CallsFrom(ps + [p], Keys(ps + [p]), 0) == before[i := CallFor(ps + [p], i, c.wire)]
  {
    hide Keys, CallFor, IndexOf, Distinct;
    var p := Call(c);
    KeysGrow(ps, p);
    var keys, keys' := Keys(ps), Keys(ps + [p]);
    forall j: nat | j < |keys| && j != i && keys[j].CallKey?
      ensures keys[j] == keys'[j] && CallFor(ps + [p], j, keys[j].wire) == CallFor(ps, j, keys[j].wire)
    {
      OtherKey(keys, j, i, CallKey(c.wire));
      OtherCallStays(ps, c, j, keys[j].wire);
    }
    assert keys'[i] == CallKey(c.wire);
    assert CallsFrom(ps + [p], keys', 0).Keys == CallsFrom(ps, keys, 0).Keys + {i};
  }

  lemma KeysGrow(ps: seq<Piece>, p: Piece)
    ensures Keys(ps + [p]) == Grown(Keys(ps), KeyOf(p))
  {
    SeenGrows(ps, p);
  }

  lemma OtherCallStays(ps: seq<Piece>, c: CallDelta, i: nat, wire: int)
    requires wire != c.wire
    ensures CallFor(ps + [Call(c)], i, wire) == CallFor(ps, i, wire)
  {
    hide Keys;
    SeenGrows(ps, Call(c));
  }

  predicate IsEdge(c: Chunk) {
    c.BlockStart? || c.BlockEnd?
  }

  /** The same frames without the block starts and ends. */
  function Bare(chunks: seq<Chunk>): seq<Chunk> {
    if chunks == [] then []
    else Bare(chunks[..|chunks| - 1]) + (if IsEdge(chunks[|chunks| - 1]) then [] else [chunks[|chunks| - 1]])
  }

  lemma {:induction false} BareConcat(a: seq<Chunk>, b: seq<Chunk>)
    ensures Bare(a + b) == Bare(a) + Bare(b)
  {
    if b == [] {
      assert a + b == a;
    } else {
      assert (a + b)[..|a + b| - 1] == a + b[..|b| - 1];
      BareConcat(a, b[..|b| - 1]);
    }
  }

  lemma BareOf(ps: seq<Piece>, p: Piece)
    ensures Bare(FramesFor(ps, p)) == [DeltaFrame(ps, p, IndexFor(ps, p))]
  {
    hide Keys, IndexFor, FramesFor, DeltaFrame, Bare, IsEdge;
    var d := DeltaFrame(ps, p, IndexFor(ps, p));
    FramesAre(ps, p);
    BareOne(d);
    if KeyOf(p) !in Keys(ps) {
      var start := BlockStart(|Keys(ps)|, TypeOf(KeyOf(p)));
      BareOne(start);
      BareConcat([start], [d]);
    }
  }

  lemma BareOne(c: Chunk)
    ensures Bare([c]) == if IsEdge(c) then [] else [c]
  {
    assert [c][..0] == [];
  }

  lemma FramesAre(ps: seq<Piece>, p: Piece)
    ensures var d := DeltaFrame(ps, p, IndexFor(ps, p));
            && !IsEdge(d)
            && FramesFor(ps, p) ==
               if KeyOf(p) in Keys(ps) then [d] else [BlockStart(|Keys(ps)|, TypeOf(KeyOf(p)))] + [d]
    ensures IsEdge(BlockStart(|Keys(ps)|, TypeOf(KeyOf(p))))
  {
    hide Keys, IndexOf, LastId, LastName;
  }

  lemma PushOne(s: State, c: Chunk)
    ensures PushAll(s, [c]) == Pushed(s, c)
  {
    assert [c][..0] == [];
  }

  lemma FramesOfPiece(s: State, ps: seq<Piece>, p: Piece)
    ensures PushAll(s, FramesFor(ps, p)) == Pushed(s, DeltaFrame(ps, p, IndexFor(ps, p)))
    ensures PushAll(s, Bare(FramesFor(ps, p))) == Pushed(s, DeltaFrame(ps, p, IndexFor(ps, p)))
  {
    hide Pushed, DeltaFrame, Keys, IndexOf;
    var d := DeltaFrame(ps, p, IndexFor(ps, p));
    BareOf(ps, p);
    PushOne(s, d);
    if KeyOf(p) !in Keys(ps) {
      var start := BlockStart(|Keys(ps)|, TypeOf(KeyOf(p)));
      assert FramesFor(ps, p) == [start] + [d];
      PushConcat(s, [start], [d]);
      PushOne(s, start);
      PushOne(Pushed(s, start), d);
      StartIsRedundant(s, ps, p, |Keys(ps)|);
    }
  }

  /** The simulation: the assembler follows the translator, with or without block starts. */
  lemma {:induction false} AssemblerFollows(ps: seq<Piece>)
    ensures PushAll(EMPTY, Frames(ps)) == Shape(ps)
    ensures PushAll(EMPTY, Bare(Frames(ps))) == Shape(ps)
  {
    if ps == [] {
      assert CallsFrom([], [], 0) == map[];
    } else {
      hide Shape, Pushed;
      var before, p := ps[..|ps| - 1], ps[|ps| - 1];
      assert ps == before + [p];
      AssemblerFollows(before);
      PushConcat(EMPTY, Frames(before), FramesFor(before, p));
      BareConcat(Frames(before), FramesFor(before, p));
      PushConcat(EMPTY, Bare(Frames(before)), Bare(FramesFor(before, p)));
      FramesOfPiece(Shape(before), before, p);
      DeltaKeepsShape(before, p);
    }
  }

  // ---------------------------------------------------------- closing block by block

  function ClosedUpTo(ps: seq<Piece>, n: nat): (c: Closed)
    requires n <= |Keys(ps)|
    ensures |c| == n
  {
    seq(n, i requires 0 <= i < n => (i, BlockFor(Keys(ps)[i], ps)))
  }

  function OpenPast(open: Option<Open>, n: nat): Option<Open> {
    if open.Some? && n <= open.value.order then open else None
  }

  function ShapeAt(ps: seq<Piece>, n: nat): State
    requires n <= |Keys(ps)|
  {
    var s := Shape(ps);
    s.(text := OpenPast(s.text, n), reasoning := OpenPast(s.reasoning, n),
       calls := CallsFrom(ps, Keys(ps), n), closed := ClosedUpTo(ps, n))
  }

  lemma EndClosesOne(ps: seq<Piece>, n: nat)
    requires n < |Keys(ps)|
    ensures Pushed(ShapeAt(ps, n), BlockEnd(n, Some(BlockFor(Keys(ps)[n], ps)), None)) == ShapeAt(ps, n + 1)
  {
    hide Keys, CallsFrom, OpenPast, OpenFor, ClosedUpTo, IndexOf, LastId, LastName;
    NextCloses(ps, n);
    match Keys(ps)[n]
    case TextKey => TextCloses(ps, n);
    case ReasoningKey => ReasoningCloses(ps, n);
    case CallKey(_) => CallCloses(ps, n);
  }

  /** What one more closed block changes in the shape. */
  lemma NextCloses(ps: seq<Piece>, n: nat)
    requires n < |Keys(ps)|
    ensures var keys := Keys(ps);
            && ClosedUpTo(ps, n + 1) == ClosedUpTo(ps, n) + [(n, BlockFor(keys[n], ps))]
            && CallsFrom(ps, keys, n + 1) == (if keys[n].CallKey? then CallsFrom(ps, keys, n) - {n}
                                              else CallsFrom(ps, keys, n))
            && (n in CallsFrom(ps, keys, n) <==> keys[n].CallKey?)
            && (keys[n].CallKey? ==> CallsFrom(ps, keys, n)[n].order == n)
  {
    hide Keys, BlockFor, AllArguments, LastId, LastName;
  }

  lemma TextCloses(ps: seq<Piece>, n: nat)
    requires n < |Keys(ps)| && Keys(ps)[n] == TextKey
    ensures Pushed(ShapeAt(ps, n), BlockEnd(n, Some(BlockFor(Keys(ps)[n], ps)), None)) == ShapeAt(ps, n + 1)
  {
    hide Keys, CallsFrom, OpenPast, OpenFor, ClosedUpTo, IndexOf, AllText, AllReasoning;
    NextCloses(ps, n);
    KeysDistinct(ps);
    OpenPastNext(Keys(ps), TextKey, AllText(ps), n);
    OpenPastNext(Keys(ps), ReasoningKey, AllReasoning(ps), n);
  }

  lemma ReasoningCloses(ps: seq<Piece>, n: nat)
    requires n < |Keys(ps)| && Keys(ps)[n] == ReasoningKey
    ensures Pushed(ShapeAt(ps, n), BlockEnd(n, Some(BlockFor(Keys(ps)[n], ps)), None)) == ShapeAt(ps, n + 1)
  {
    hide Keys, CallsFrom, OpenPast, OpenFor, ClosedUpTo, IndexOf, AllText, AllReasoning;
    NextCloses(ps, n);
    KeysDistinct(ps);
    OpenPastNext(Keys(ps), TextKey, AllText(ps), n);
    OpenPastNext(Keys(ps), ReasoningKey, AllReasoning(ps), n);
  }

  lemma CallCloses(ps: seq<Piece>, n: nat)
    requires n < |Keys(ps)| && Keys(ps)[n].CallKey?
    ensures Pushed(ShapeAt(ps, n), BlockEnd(n, Some(BlockFor(Keys(ps)[n], ps)), None)) == ShapeAt(ps, n + 1)
  {
    hide Keys, CallsFrom, OpenPast, OpenFor, ClosedUpTo, IndexOf, AllText, AllReasoning, AllArguments, LastId, LastName;
    NextCloses(ps, n);
    KeysDistinct(ps);
    OpenPastNext(Keys(ps), TextKey, AllText(ps), n);
    OpenPastNext(Keys(ps), ReasoningKey, AllReasoning(ps), n);
  }

  lemma OpenPastNext(keys: seq<Key>, k: Key, s: string, n: nat)
    requires Distinct(keys) && n < |keys|
    ensures keys[n] == k ==> OpenPast(OpenFor(keys, k, s), n) == Some(Open(n, s))
    ensures OpenPast(OpenFor(keys, k, s), n + 1) == if keys[n] == k then None else OpenPast(OpenFor(keys, k, s), n)
  {
    IndexOfDistinct(keys, n);
  }

  lemma NothingClosed(ps: seq<Piece>)
    ensures ShapeAt(ps, 0) == Shape(ps)
  {
    hide Keys, IndexOf, CallsFrom, AllText, AllReasoning;
    assert ClosedUpTo(ps, 0) == [];
  }

  lemma {:induction false} EndsCloseInOrder(ps: seq<Piece>, n: nat)
    requires n <= |Keys(ps)|
    ensures PushAll(Shape(ps), EndFrames(ps, n)) == ShapeAt(ps, n)
    ensures Bare(EndFrames(ps, n)) == []
  {
    hide Shape, ShapeAt, Pushed, Keys, BlockFor;
    if n == 0 {
      NothingClosed(ps);
    } else {
      EndsCloseInOrder(ps, n - 1);
      var end := BlockEnd(n - 1, Some(BlockFor(Keys(ps)[n - 1], ps)), None);
      PushSnoc(Shape(ps), EndFrames(ps, n - 1), end);
      EndClosesOne(ps, n - 1);
      BareConcat(EndFrames(ps, n - 1), [end]);
      assert Bare([end]) == [];
    }
  }

  lemma AllClosed(ps: seq<Piece>)
    ensures var s := ShapeAt(ps, |Keys(ps)|);
            s.text == None && s.reasoning == None && s.calls == map[] && Blocks(s.closed) == Answer(ps)
  {
    hide Keys, IndexOf, Sorted;
    KeysDistinct(ps);
    var s := ShapeAt(ps, |Keys(ps)|);
    SortedIs(s.closed, s.closed);
  }

  // ----------------------------------------------- a stream that is cut off, or has no ends

  /** A call whose id, name and arguments are all still empty. */
  predicate Hollow(b: Block) {
    b.ToolCallBlock? && b.id == "" && b.name == "" && b.arguments == ""
  }

  function WithoutHollow(blocks: seq<Block>): seq<Block> {
    if blocks == [] then []
    else
      WithoutHollow(blocks[..|blocks| - 1]) +
      (if Hollow(blocks[|blocks| - 1]) then [] else [blocks[|blocks| - 1]])
  }

  function KeptPairs(ps: seq<Piece>, n: nat): Closed
    requires n <= |Keys(ps)|
  {
    if n == 0 then []
    else
      var b := BlockFor(Keys(ps)[n - 1], ps);
      KeptPairs(ps, n - 1) + (if Hollow(b) then [] else [(n - 1, b)])
  }

  ghost predicate IsKept(ps: seq<Piece>, n: nat, y: (nat, Block)) {
    y.0 < n <= |Keys(ps)| && y.1 == BlockFor(Keys(ps)[y.0], ps) && !Hollow(y.1)
  }

  lemma {:induction false} KeptPairsAre(ps: seq<Piece>, n: nat)
    requires n <= |Keys(ps)|
    ensures Rising(KeptPairs(ps, n))
    ensures forall y :: y in KeptPairs(ps, n) <==> IsKept(ps, n, y)
  {
    hide Keys, BlockFor, Hollow;
    if n > 0 {
      KeptPairsAre(ps, n - 1);
      var before := KeptPairs(ps, n - 1);
      assert forall i :: 0 <= i < |before| ==> before[i] in before;
    }
  }

  lemma {:induction false} KeptBlocks(ps: seq<Piece>, n: nat)
    requires n <= |Keys(ps)|
    ensures BlocksOf(KeptPairs(ps, n)) == WithoutHollow(Answer(ps)[..n])
  {
    hide Keys, BlockFor, Hollow;
    if n > 0 {
      KeptBlocks(ps, n - 1);
      assert Answer(ps)[..n][..n - 1] == Answer(ps)[..n - 1];
    }
  }

  ghost predicate IsCallEnd(calls: map<nat, OpenCall>, y: (nat, Block)) {
    y.0 in calls && Started(calls[y.0]) && y.1 == CallBlock(calls[y.0])
  }

  lemma {:induction false} ClosedCallsAre(calls: map<nat, OpenCall>)
    requires forall i :: i in calls ==> calls[i].order == i
    ensures Rising(ClosedCalls(calls))
    ensures forall y :: y in ClosedCalls(calls) <==> IsCallEnd(calls, y)
    decreases |calls.Keys|
  {
    hide Started, CallBlock;
    if calls.Keys != {} {
      var i := Least(calls.Keys);
      var rest := calls - {i};
      ClosedCallsStep(calls, i);
      ClosedCallsAre(rest);
      var after := ClosedCalls(rest);
      assert forall k :: 0 <= k < |after| ==> after[k] in after;
      assert forall y :: IsCallEnd(calls, y) <==>
             IsCallEnd(rest, y) || (y == (i, CallBlock(calls[i])) && Started(calls[i]));
    }
  }

  function TextPair(open: Option<Open>): Closed {
    if open.Some? then [(open.value.order, TextBlock(open.value.text))] else []
  }

  function ReasoningPair(open: Option<Open>): Closed {
    if open.Some? then [(open.value.order, ReasoningBlock(open.value.text))] else []
  }

  lemma FinalizedShape(ps: seq<Piece>)
    ensures Finalized(Shape(ps)).closed ==
            TextPair(Shape(ps).text) + ReasoningPair(Shape(ps).reasoning) + ClosedCalls(Shape(ps).calls)
  {
    hide Keys, IndexOf, ClosedCalls;
  }

  lemma KeptCalls(ps: seq<Piece>, y: (nat, Block))
    ensures IsCallEnd(CallsFrom(ps, Keys(ps), 0), y) <==> IsKept(ps, |Keys(ps)|, y) && Keys(ps)[y.0].CallKey?
  {
    hide Keys, LastId, LastName, AllArguments;
  }

  lemma KeptText(ps: seq<Piece>, y: (nat, Block))
    ensures y in TextPair(Shape(ps).text) <==> IsKept(ps, |Keys(ps)|, y) && Keys(ps)[y.0] == TextKey
    ensures y in ReasoningPair(Shape(ps).reasoning) <==> IsKept(ps, |Keys(ps)|, y) && Keys(ps)[y.0] == ReasoningKey
  {
    hide Keys, AllText, AllReasoning, CallsFrom, IndexOf;
    KeysDistinct(ps);
    if y.0 < |Keys(ps)| {
      IndexOfDistinct(Keys(ps), y.0);
    }
  }

  /** Closing everything still open keeps every block but the hollow calls, in order of appearance. */
  lemma CutOffKeepsTheRest(ps: seq<Piece>)
    ensures Blocks(Finalized(Shape(ps)).closed) == WithoutHollow(Answer(ps))
  {
    hide Keys, Shape, Finalized, TextPair, ReasoningPair, ClosedCalls, IsKept, IsCallEnd, KeptPairs, Answer, Sorted;
    var n, closed := |Keys(ps)|, Finalized(Shape(ps)).closed;
    FinalizedShape(ps);
    ClosedMembers(ps);
    KeptPairsAre(ps, n);
    SortedIs(closed, KeptPairs(ps, n));
    KeptBlocks(ps, n);
    assert Answer(ps)[..n] == Answer(ps);
  }

  lemma CallOrders(ps: seq<Piece>)
    ensures forall i :: i in Shape(ps).calls ==> Shape(ps).calls[i].order == i
  {
  }

  lemma ClosedMembers(ps: seq<Piece>)
    ensures var closed := TextPair(Shape(ps).text) + ReasoningPair(Shape(ps).reasoning) + ClosedCalls(Shape(ps).calls);
            DistinctOrders(closed) && forall y :: y in closed <==> IsKept(ps, |Keys(ps)|, y)
  {
    hide Keys, ClosedCalls, IsCallEnd, IndexOf, CallsFrom, BlockFor, Hollow;
    var t, r, c := TextPair(Shape(ps).text), ReasoningPair(Shape(ps).reasoning), ClosedCalls(Shape(ps).calls);
    CallOrders(ps);
    ClosedCallsAre(Shape(ps).calls);
    forall y: (nat, Block)
      ensures y in t <==> IsKept(ps, |Keys(ps)|, y) && Keys(ps)[y.0] == TextKey
      ensures y in r <==> IsKept(ps, |Keys(ps)|, y) && Keys(ps)[y.0] == ReasoningKey
      ensures y in c <==> IsKept(ps, |Keys(ps)|, y) && Keys(ps)[y.0].CallKey?
    {
      KeptText(ps, y);
      KeptCalls(ps, y);
    }
    PartsDistinct(t, r, c, Keys(ps));
  }

  lemma PartsDistinct(t: Closed, r: Closed, c: Closed, keys: seq<Key>)
    requires |t| <= 1 && |r| <= 1 && Rising(c)
    requires forall y :: y in t ==> y.0 < |keys| && keys[y.0] == TextKey
    requires forall y :: y in r ==> y.0 < |keys| && keys[y.0] == ReasoningKey
    requires forall y :: y in c ==> y.0 < |keys| && keys[y.0].CallKey?
    ensures DistinctOrders(t + r + c)
    ensures forall y :: y in t + r + c <==> y in t || y in r || y in c
  {
    assert forall i :: 0 <= i < |c| ==> c[i] in c;
    assert |t| == 1 ==> t[0] in t;
    assert |r| == 1 ==> r[0] in r;
  }

  // ------------------------------------------------------------------- the main results

  lemma CodaEnds(s: State, ps: seq<Piece>, finish: Option<Finish>, usage: Option<int>)
    requires s.usage == None
    ensures PushAll(s, Coda(ps, finish, usage)) == Finalized(s.(usage := usage, finish := FinishFor(ps, finish)))
    ensures Bare(Coda(ps, finish, usage)) == Coda(ps, finish, usage)
  {
    var f := FinishChunk(Some(FinishFor(ps, finish)));
    var s1 := s.(usage := usage);
    assert Bare([f]) == [f];
    FinishFinalizes(s1, FinishFor(ps, finish));
    hide Pushed, Finalized, FinishFor, PushAll;
    PushOne(s1, f);
    if usage.Some? {
      var u := UsageChunk(usage.value);
      UsageIsKept(s, usage.value);
      PushConcat(s, [u], [f]);
      PushOne(s, u);
      BareConcat([u], [f]);
      assert Bare([u]) == [u];
    } else {
      assert Coda(ps, finish, usage) == [f];
    }
  }

  lemma FinishFinalizes(s: State, finish: Finish)
    ensures Pushed(s, FinishChunk(Some(finish))) == Finalized(s.(finish := finish))
  {
  }

  lemma UsageIsKept(s: State, usage: int)
    ensures Pushed(s, UsageChunk(usage)) == s.(usage := Some(usage))
  {
  }

  /** Translate then assemble: one block per key in order of appearance, each with its deltas in full. */
  lemma TranslateThenAssemble(ps: seq<Piece>, finish: Option<Finish>, usage: Option<int>)
    ensures var a := PushAll(EMPTY, Frames(ps) + TailFrames(ps, finish, usage));
            Blocks(a.closed) == Answer(ps) && a.usage == usage && a.finish == FinishFor(ps, finish)
  {
    var n := |Keys(ps)|;
    assert ShapeAt(ps, n).usage == None;
    hide Frames, EndFrames, Coda, Shape, ShapeAt, Answer, FinishFor, Keys, PushAll, Blocks;
    AssemblerFollows(ps);
    var ends, coda := EndFrames(ps, n), Coda(ps, finish, usage);
    PushConcat(EMPTY, Frames(ps), ends + coda);
    PushConcat(Shape(ps), ends, coda);
    EndsCloseInOrder(ps, n);
    AllClosed(ps);
    CodaEnds(ShapeAt(ps, n), ps, finish, usage);
    FinalizeClosed(ShapeAt(ps, n).(usage := usage, finish := FinishFor(ps, finish)));
  }

  lemma FinalizeClosed(s: State)
    requires s.text == None && s.reasoning == None && s.calls == map[]
    ensures Finalized(s) == s
  {
  }

  lemma FinalizeIgnoresUsage(s: State, usage: Option<int>, finish: Finish)
    ensures Finalized(s.(usage := usage, finish := finish)) == Finalized(s).(usage := usage, finish := finish)
  {
    hide ClosedCalls;
  }

  /** Without any block starts and ends the answer only loses the calls that never received anything. */
  lemma EdgesOnlyKeepHollowCalls(ps: seq<Piece>, finish: Option<Finish>, usage: Option<int>)
    ensures var a := PushAll(EMPTY, Bare(Frames(ps) + TailFrames(ps, finish, usage)));
            Blocks(a.closed) == WithoutHollow(Answer(ps)) && a.usage == usage && a.finish == FinishFor(ps, finish)
  {
    assert Shape(ps).usage == None;
    hide Frames, EndFrames, Coda, Shape, Answer, FinishFor, Keys, PushAll, Blocks, Bare, WithoutHollow, Finalized;
    AssemblerFollows(ps);
    var ends, coda := EndFrames(ps, |Keys(ps)|), Coda(ps, finish, usage);
    BareConcat(Frames(ps), ends + coda);
    BareConcat(ends, coda);
    EndsCloseInOrder(ps, |Keys(ps)|);
    CodaEnds(Shape(ps), ps, finish, usage);
    assert [] + coda == coda;
    PushConcat(EMPTY, Bare(Frames(ps)), coda);
    FinalizeIgnoresUsage(Shape(ps), usage, FinishFor(ps, finish));
    CutOffKeepsTheRest(ps);
  }

  /** A stream that broke off, finalized by the loop, still gives every block that received anything. */
  lemma BrokenStreamKeepsTheRest(ps: seq<Piece>)
    ensures Blocks(Finalized(PushAll(EMPTY, Frames(ps))).closed) == WithoutHollow(Answer(ps))
  {
    AssemblerFollows(ps);
    CutOffKeepsTheRest(ps);
  }

  /** A whole exchange: translate the payloads, push every frame, finalize, read the blocks. */
  method Exchange(payloads: seq<Payload>)
    returns (blocks: seq<Block>, usage: Option<int>, finish: Finish, r: Result<(), LlmError>)
    ensures var n := Stops(payloads);
            var before := payloads[..n];
            var ps := Pieces(before);
            && (r.Ok? <==> n < |payloads| && payloads[n].Done?)
            && (r.Ok? ==>
                  blocks == Answer(ps) && usage == LastUsage(before) && finish == FinishFor(ps, LastFinish(before)))
            && (r.Ok? ==> FinishedAs(Reasons(before), ps == [], finish))
            && (r.Err? ==> blocks == WithoutHollow(Answer(ps)))
  {
    hide FinishedAs, Reasons, Pieces, Frames, TailFrames, FinishFor, LastUsage, LastFinish, Answer, WithoutHollow,
         Stops, Pushed, Finalized, Blocks;
    var frames;
    frames, r := Translate(payloads);
    var a := new BlockAssembler();
    for i := 0 to |frames|
      invariant fresh(a) && a.Model() == PushAll(EMPTY, frames[..i])
    {
      assert frames[..i + 1] == frames[..i] + [frames[i]];
      PushSnoc(EMPTY, frames[..i], frames[i]);
      a.Push(frames[i]);
    }
    assert frames[..|frames|] == frames;
    ghost var before := payloads[..Stops(payloads)];
    ghost var ps := Pieces(before);
    if r.Ok? {
      TranslateThenAssemble(ps, LastFinish(before), LastUsage(before));
      FinishesFinal(ps, LastFinish(before), LastUsage(before));
      LastReasonDecides(before, ps);
    } else {
      BrokenStreamKeepsTheRest(ps);
    }
    a.Finalize();
    blocks := a.GetBlocks();
    usage, finish := a.usage, a.finish;
  }

  /** The finish frame already finalized. */
  lemma FinishesFinal(ps: seq<Piece>, finish: Option<Finish>, usage: Option<int>)
    ensures var a := PushAll(EMPTY, Frames(ps) + TailFrames(ps, finish, usage)); Finalized(a) == a
  {
    hide Frames, EndFrames, Coda, FinishFor, Keys, Shape, ShapeAt;
    AssemblerFollows(ps);
    var ends, coda := EndFrames(ps, |Keys(ps)|), Coda(ps, finish, usage);
    PushConcat(EMPTY, Frames(ps), ends + coda);
    PushConcat(Shape(ps), ends, coda);
    var s := PushAll(Shape(ps), ends);
    LastFinalizes(s, ps, finish, usage);
  }

  lemma LastFinalizes(s: State, ps: seq<Piece>, finish: Option<Finish>, usage: Option<int>)
    ensures var a := PushAll(s, Coda(ps, finish, usage)); Finalized(a) == a
  {
    var f := FinishFor(ps, finish);
    var front := if usage.Some? then [UsageChunk(usage.value)] else [];
    PushSnoc(s, front, FinishChunk(Some(f)));
    FinishFinalizes(PushAll(s, front), f);
    FinalizeTwice(PushAll(s, front).(finish := f));
  }
}
