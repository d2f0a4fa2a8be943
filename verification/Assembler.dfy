/** Stream frames, and folding them into a finished message
    (llm/chunks.py, agent/assembler.py). */
module Assembler {
  import opened Prelude
  import opened Messages

  datatype BlockType = TextType | ReasoningType | ToolCallType

  datatype Finish = Stop | ToolCallsFinish | MaxTokens | ErrorFinish(code: string)

  /** One frame. A frame without an index reads as index 0, one without text as the empty text. */
  datatype Chunk =
    | BlockStart(index: nat, blockType: BlockType)
    | TextDelta(index: nat, text: string)
    | ReasoningDelta(index: nat, reasoning: string)
    | ToolCallDelta(index: nat, id: Option<string>, name: Option<string>, arguments: string)
    | BlockEnd(index: nat, block: Option<Block>, endType: Option<BlockType>)
    | UsageChunk(usage: int)
    | FinishChunk(finish: Option<Finish>)

  datatype Open = Open(order: nat, text: string)

  datatype OpenCall = OpenCall(order: nat, id: string, name: string, arguments: string)

  /** A call that some id, name or argument text has reached. */
  predicate Started(c: OpenCall) {
    c.id != "" || c.name != "" || c.arguments != ""
  }

  type Closed = seq<(nat, Block)>

  datatype State = State(
    text: Option<Open>, reasoning: Option<Open>, calls: map<nat, OpenCall>, nextOrder: nat,
    closed: Closed, usage: Option<int>, finish: Finish)

  const EMPTY := State(None, None, map[], 0, [], None, Stop)

  // ------------------------------------------------------------ one frame, as a function

  function OpenText(s: State): State {
    if s.text.Some? then s else s.(text := Some(Open(s.nextOrder, "")), nextOrder := s.nextOrder + 1)
  }

  function OpenReasoning(s: State): State {
    if s.reasoning.Some? then s else s.(reasoning := Some(Open(s.nextOrder, "")), nextOrder := s.nextOrder + 1)
  }

  function OpenToolCall(s: State, index: nat): (s': State)
    ensures index in s'.calls
  {
    if index in s.calls then s
    else s.(calls := s.calls[index := OpenCall(s.nextOrder, "", "", "")], nextOrder := s.nextOrder + 1)
  }

  function AddDelta(c: OpenCall, id: Option<string>, name: Option<string>, arguments: string): OpenCall {
    OpenCall(c.order, if id.Some? then id.value else c.id, if name.Some? then name.value else c.name,
             c.arguments + arguments)
  }

  function CloseText(s: State, block: Option<Block>): State {
    if block.None? && s.text.None? then s
    else if s.text.Some? then
      s.(text := None,
         closed := s.closed + [(s.text.value.order, if block.Some? then block.value else TextBlock(s.text.value.text))])
    else s.(nextOrder := s.nextOrder + 1, closed := s.closed + [(s.nextOrder, block.value)])
  }

  function CloseReasoning(s: State, block: Option<Block>): State {
    if block.None? && s.reasoning.None? then s
    else if s.reasoning.Some? then
      s.(reasoning := None,
         closed := s.closed +
           [(s.reasoning.value.order, if block.Some? then block.value else ReasoningBlock(s.reasoning.value.text))])
    else s.(nextOrder := s.nextOrder + 1, closed := s.closed + [(s.nextOrder, block.value)])
  }

  function CallBlock(c: OpenCall): Block {
    ToolCallBlock(c.id, c.name, c.arguments)
  }

  function CloseToolCall(s: State, index: nat, block: Option<Block>): State {
    if index in s.calls then
      var c := s.calls[index];
      s.(calls := s.calls - {index},
         closed := s.closed + [(c.order, if block.Some? then block.value else CallBlock(c))])
    else if block.None? then s
    else s.(nextOrder := s.nextOrder + 1, closed := s.closed + [(s.nextOrder, block.value)])
  }

  function LeastFrom(keys: set<nat>, k: nat, top: nat): (m: nat)
    requires k <= top && top in keys && forall j :: j in keys ==> k <= j
    ensures m in keys && forall j :: j in keys ==> m <= j
    decreases top - k
  {
    if k in keys then k else LeastFrom(keys, k + 1, top)
  }

  ghost function Least(keys: set<nat>): (m: nat)
    requires keys != {}
    ensures m in keys && forall j :: j in keys ==> m <= j
  {
    var top :| top in keys;
    LeastFrom(keys, 0, top)
  }

  /** The calls worth keeping, closed in index order. */
  ghost function ClosedCalls(calls: map<nat, OpenCall>): Closed
    decreases |calls.Keys|
  {
    if calls.Keys == {} then []
    else
      var i := Least(calls.Keys);
      var rest := calls - {i};
      assert rest.Keys == calls.Keys - {i};
      if Started(calls[i]) then [(calls[i].order, CallBlock(calls[i]))] + ClosedCalls(rest)
      else ClosedCalls(rest)
  }

  lemma ClosedCallsStep(calls: map<nat, OpenCall>, i: nat)
    requires i in calls && forall j :: j in calls ==> i <= j
    ensures (calls - {i}).Keys < calls.Keys
    ensures ClosedCalls(calls) ==
            (if Started(calls[i]) then [(calls[i].order, CallBlock(calls[i]))] else []) + ClosedCalls(calls - {i})
  {
    assert i in calls.Keys && i == Least(calls.Keys);
  }

  lemma ClosedCallsEmpty(calls: map<nat, OpenCall>)
    requires calls.Keys == {}
    ensures ClosedCalls(calls) == []
  {
  }

  /** Close whatever is still open, dropping calls nothing arrived for. */
  ghost function Finalized(s: State): State {
    var s1 := CloseReasoning(CloseText(s, None), None);
    s1.(calls := map[], closed := s1.closed + ClosedCalls(s1.calls))
  }

  ghost function Pushed(s: State, chunk: Chunk): State {
    match chunk
    case BlockStart(index, blockType) =>
      (match blockType
       case TextType => OpenText(s)
       case ReasoningType => OpenReasoning(s)
       case ToolCallType => OpenToolCall(s, index))
    case TextDelta(_, text) =>
      var s1 := OpenText(s);
      s1.(text := Some(Open(s1.text.value.order, s1.text.value.text + text)))
    case ReasoningDelta(_, reasoning) =>
      var s1 := OpenReasoning(s);
      s1.(reasoning := Some(Open(s1.reasoning.value.order, s1.reasoning.value.text + reasoning)))
    case ToolCallDelta(index, id, name, arguments) =>
      var s1 := OpenToolCall(s, index);
      s1.(calls := s1.calls[index := AddDelta(s1.calls[index], id, name, arguments)])
    case BlockEnd(index, block, endType) =>
      if block.Some? && block.value.TextBlock? then CloseText(s, block)
      else if block.Some? && block.value.ReasoningBlock? then CloseReasoning(s, block)
      else if block.Some? && block.value.ToolCallBlock? then CloseToolCall(s, index, block)
      else if endType.None? then s
      else
        (match endType.value
         case TextType => CloseText(s, None)
         case ReasoningType => CloseReasoning(s, None)
         case ToolCallType => CloseToolCall(s, index, None))
    case UsageChunk(usage) => s.(usage := Some(usage))
    case FinishChunk(finish) => Finalized(s.(finish := if finish.Some? then finish.value else Stop))
  }

  ghost function PushAll(s: State, chunks: seq<Chunk>): State {
    if chunks == [] then s else Pushed(PushAll(s, chunks[..|chunks| - 1]), chunks[|chunks| - 1])
  }

  lemma PushSnoc(s: State, chunks: seq<Chunk>, chunk: Chunk)
    ensures PushAll(s, chunks + [chunk]) == Pushed(PushAll(s, chunks), chunk)
  {
    assert (chunks + [chunk])[..|chunks|] == chunks;
  }

  lemma {:induction false} PushConcat(s: State, a: seq<Chunk>, b: seq<Chunk>)
    ensures PushAll(s, a + b) == PushAll(PushAll(s, a), b)
  {
    if b == [] {
      assert a + b == a;
    } else {
      assert (a + b)[..|a + b| - 1] == a + b[..|b| - 1];
      PushConcat(s, a, b[..|b| - 1]);
    }
  }

  // ------------------------------------------------------------ the order of blocks

  function Insert(x: (nat, Block), sorted: Closed): Closed {
    if sorted == [] then [x]
    else if sorted[0].0 <= x.0 then [sorted[0]] + Insert(x, sorted[1..])
    else [x] + sorted
  }

  /** The closed pairs by order, equal orders as they came. */
  function Sorted(closed: Closed): Closed {
    if closed == [] then [] else Insert(closed[|closed| - 1], Sorted(closed[..|closed| - 1]))
  }

  function BlocksOf(closed: Closed): seq<Block> {
    seq(|closed|, i requires 0 <= i < |closed| => closed[i].1)
  }

  function Blocks(closed: Closed): seq<Block> {
    BlocksOf(Sorted(closed))
  }

  ghost predicate Rising(s: Closed) {
    forall i, j :: 0 <= i < j < |s| ==> s[i].0 < s[j].0
  }

  lemma {:induction false} InsertRises(x: (nat, Block), s: Closed)
    requires Rising(s) && forall i :: 0 <= i < |s| ==> s[i].0 != x.0
    ensures Rising(Insert(x, s))
    ensures forall y :: y in Insert(x, s) <==> y == x || y in s
  {
    if s != [] && s[0].0 <= x.0 {
      assert Rising(s[1..]);
      InsertRises(x, s[1..]);
      var r := Insert(x, s[1..]);
      assert forall y :: y in s <==> y == s[0] || y in s[1..];
      assert forall i :: 0 <= i < |r| ==> r[i] in r;
      assert forall y :: y in [s[0]] + r <==> y == s[0] || y in r;
    } else if s != [] {
      assert forall y :: y in [x] + s <==> y == x || y in s;
    }
  }

  ghost predicate NonDecreasing(s: Closed) {
    forall i, j :: 0 <= i < j < |s| ==> s[i].0 <= s[j].0
  }

  /** The blocks of the same pairs, arranged by order. */
  ghost predicate InOpeningOrder(closed: Closed, blocks: seq<Block>) {
    exists p: Closed :: NonDecreasing(p) && multiset(p) == multiset(closed) && blocks == BlocksOf(p)
  }

  lemma {:induction false} InsertPermutes(x: (nat, Block), s: Closed)
    ensures multiset(Insert(x, s)) == multiset(s) + multiset{x}
  {
    if s != [] && s[0].0 <= x.0 {
      InsertPermutes(x, s[1..]);
      assert s == [s[0]] + s[1..];
    }
  }

  lemma {:induction false} InsertOrders(x: (nat, Block), s: Closed)
    requires NonDecreasing(s)
    ensures NonDecreasing(Insert(x, s))
    ensures Insert(x, s) != [] && (Insert(x, s)[0] == x || (s != [] && Insert(x, s)[0] == s[0]))
  {
    if s != [] && s[0].0 <= x.0 {
      InsertOrders(x, s[1..]);
    }
  }

  lemma {:induction false} SortedOrders(s: Closed)
    ensures NonDecreasing(Sorted(s))
  {
    if s != [] {
      hide Insert, NonDecreasing;
      SortedOrders(s[..|s| - 1]);
      InsertOrders(s[|s| - 1], Sorted(s[..|s| - 1]));
    } else {
      assert Sorted(s) == [];
    }
  }

  lemma {:induction false} SortedPermutes(s: Closed)
    ensures multiset(Sorted(s)) == multiset(s)
  {
    if s != [] {
      hide Insert;
      var init, x := s[..|s| - 1], s[|s| - 1];
      SortedPermutes(init);
      InsertPermutes(x, Sorted(init));
      assert s == init + [x];
    }
  }

  ghost predicate DistinctOrders(s: Closed) {
    forall i, j :: 0 <= i < j < |s| ==> s[i].0 != s[j].0
  }

  lemma {:induction false} SortedRises(s: Closed)
    requires DistinctOrders(s)
    ensures Rising(Sorted(s)) && forall y :: y in Sorted(s) <==> y in s
  {
    if s != [] {
      var init, x := s[..|s| - 1], s[|s| - 1];
      SortedRises(init);
      var r := Sorted(init);
      forall i | 0 <= i < |r|
        ensures r[i].0 != x.0
      {
        assert r[i] in init;
      }
      InsertRises(x, r);
      assert forall y :: y in s <==> y in init || y == x;
    }
  }

  lemma HasMember(s: Closed)
    requires s != []
    ensures exists y :: y in s
  {
    assert s[0] in s;
  }

  /** Two rising sequences with the same members are the same. */
  lemma {:induction false} RisingUnique(a: Closed, b: Closed)
    requires Rising(a) && Rising(b) && forall y :: y in a <==> y in b
    ensures a == b
  {
    if a == [] {
      if b != [] {
        HasMember(b);
      }
    } else {
      assert a[0] in b && b != [];
      assert b[0] in a;
      assert a[0] == b[0];
      forall y
        ensures y in a[1..] <==> y in b[1..]
      {
        TailMembers(a, y);
        TailMembers(b, y);
      }
      RisingUnique(a[1..], b[1..]);
      assert a == [a[0]] + a[1..] && b == [b[0]] + b[1..];
    }
  }

  lemma TailMembers(s: Closed, y: (nat, Block))
    requires Rising(s) && s != []
    ensures y in s[1..] <==> y in s && y != s[0]
  {
    assert s == [s[0]] + s[1..];
  }

  /** Sorting distinct orders gives the one rising sequence with those members. */
  lemma SortedIs(s: Closed, r: Closed)
    requires DistinctOrders(s) && Rising(r) && forall y :: y in s <==> y in r
    ensures Sorted(s) == r
  {
    SortedRises(s);
    RisingUnique(Sorted(s), r);
  }

  // ------------------------------------------------------------ the assembler itself

  class BlockAssembler {
    var text: Option<Open>
    var reasoning: Option<Open>
    var calls: map<nat, OpenCall>
    var nextOrder: nat
    var closed: Closed
    var usage: Option<int>
    var finish: Finish

    ghost function Model(): State
      reads this
    {
      State(text, reasoning, calls, nextOrder, closed, usage, finish)
    }

    constructor ()
      ensures Model() == EMPTY
    {
      text, reasoning, calls, nextOrder, closed, usage, finish := None, None, map[], 0, [], None, Stop;
    }

    method Push(chunk: Chunk)
      modifies this
      ensures Model() == Pushed(old(Model()), chunk)
    {
      match chunk {
        case BlockStart(index, blockType) =>
          match blockType {
            case TextType => StartText();
            case ReasoningType => StartReasoning();
            case ToolCallType => StartToolCall(index);
          }
        case TextDelta(_, more) =>
          StartText();
          text := Some(Open(text.value.order, text.value.text + more));
        case ReasoningDelta(_, more) =>
          StartReasoning();
          reasoning := Some(Open(reasoning.value.order, reasoning.value.text + more));
        case ToolCallDelta(index, id, name, arguments) =>
          StartToolCall(index);
          calls := calls[index := AddDelta(calls[index], id, name, arguments)];
        case BlockEnd(index, block, endType) =>
          if block.Some? && block.value.TextBlock? {
            EndText(block);
          } else if block.Some? && block.value.ReasoningBlock? {
            EndReasoning(block);
          } else if block.Some? && block.value.ToolCallBlock? {
            EndToolCall(index, block);
          } else if endType.Some? {
            match endType.value {
              case TextType => EndText(None);
              case ReasoningType => EndReasoning(None);
              case ToolCallType => EndToolCall(index, None);
            }
          }
        case UsageChunk(used) =>
          usage := Some(used);
        case FinishChunk(how) =>
          finish := if how.Some? then how.value else Stop;
          Finalize();
      }
    }

    method StartText()
      modifies this
      ensures Model() == OpenText(old(Model()))
      ensures text.Some?
    {
      if text.None? {
        text := Some(Open(nextOrder, ""));
        nextOrder := nextOrder + 1;
      }
    }

    method StartReasoning()
      modifies this
      ensures Model() == OpenReasoning(old(Model()))
      ensures reasoning.Some?
    {
      if reasoning.None? {
        reasoning := Some(Open(nextOrder, ""));
        nextOrder := nextOrder + 1;
      }
    }

    method StartToolCall(index: nat)
      modifies this
      ensures Model() == OpenToolCall(old(Model()), index)
    {
      if index !in calls {
        calls := calls[index := OpenCall(nextOrder, "", "", "")];
        nextOrder := nextOrder + 1;
      }
    }

    method EndText(block: Option<Block>)
      modifies this
      ensures Model() == CloseText(old(Model()), block)
    {
      var open := text;
      text := None;
      if block.None? && open.None? {
        return;
      }
      var order := nextOrder;
      if open.Some? {
        order := open.value.order;
      } else {
        nextOrder := nextOrder + 1;
      }
      closed := closed + [(order, if block.Some? then block.value else TextBlock(open.value.text))];
    }

    method EndReasoning(block: Option<Block>)
      modifies this
      ensures Model() == CloseReasoning(old(Model()), block)
    {
      var open := reasoning;
      reasoning := None;
      if block.None? && open.None? {
        return;
      }
      var order := nextOrder;
      if open.Some? {
        order := open.value.order;
      } else {
        nextOrder := nextOrder + 1;
      }
      closed := closed + [(order, if block.Some? then block.value else ReasoningBlock(open.value.text))];
    }

    method EndToolCall(index: nat, block: Option<Block>)
      modifies this
      ensures Model() == CloseToolCall(old(Model()), index, block)
    {
      var call := if index in calls then Some(calls[index]) else None;
      calls := calls - {index};
      if block.None? && call.None? {
        return;
      }
      var order := nextOrder;
      if call.Some? {
        order := call.value.order;
      } else {
        nextOrder := nextOrder + 1;
      }
      closed := closed + [(order, if block.Some? then block.value else CallBlock(call.value))];
    }

    method Finalize()
      modifies this
      ensures Model() == Finalized(old(Model()))
    {
      hide ClosedCalls;
      if text.Some? {
        EndText(None);
      }
      if reasoning.Some? {
        EndReasoning(None);
      }
      EndCalls();
    }

    /** Close every started call in index order; a call nothing arrived for is dropped. */
    method EndCalls()
      modifies this`calls, this`closed
      ensures calls == map[] && closed == old(closed) + ClosedCalls(old(calls))
    {
      hide ClosedCalls, Least, LeastFrom;
      var open := calls;
      while open.Keys != {}
        invariant closed + ClosedCalls(open) == old(closed) + ClosedCalls(calls) && calls == old(calls)
        decreases |open.Keys|
      {
        ghost var least := Least(open.Keys);
        var i :| i in open.Keys && forall j :: j in open.Keys ==> i <= j;
        ClosedCallsStep(open, i);
        if Started(open[i]) {
          closed := closed + [(open[i].order, CallBlock(open[i]))];
        }
        open := open - {i};
      }
      ClosedCallsEmpty(open);
      calls := map[];
    }

    /** Each closed block once, arranged so that opening orders never fall. */
    method GetBlocks() returns (blocks: seq<Block>)
      ensures InOpeningOrder(closed, blocks) && blocks == Blocks(closed)
    {
      SortedPermutes(closed);
      SortedOrders(closed);
      return BlocksOf(Sorted(closed));
    }
  }

  /** Finalizing again does nothing. */
  lemma FinalizeTwice(s: State)
    ensures Finalized(Finalized(s)) == Finalized(s)
  {
  }
}
