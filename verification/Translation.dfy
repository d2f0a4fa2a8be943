/** Turning wire payloads into stream frames (llm/adapters/openai_compatible.py). */
module Translation {
  import opened Prelude
  import opened Messages
  import opened Assembler

  // ------------------------------------------------------------------ the wire

  /** A fragment of one tool call; `wire` is the provider's own index, 0 when it gives none. */
  datatype CallDelta = CallDelta(wire: int, id: Option<string>, name: Option<string>, arguments: string)

  /** Absent and empty text read the same. */
  datatype Choice = Choice(reasoning: string, content: string, calls: seq<CallDelta>, finishReason: Option<string>)

  datatype Payload =
    | Done
    | Malformed
    | NotAnObject
    | Frame(choices: seq<Choice>, usage: Option<int>)

  /** The last is no error of the stream's own but an attribute error that escapes from it. */
  datatype LlmError = MalformedResponse | StreamClosed | AttributeFailure

  function MapFinishReason(reason: string): Finish {
    if reason == "stop" then Stop
    else if reason == "tool_calls" then ToolCallsFinish
    else if reason == "length" then MaxTokens
    else ErrorFinish(reason)
  }

  // ------------------------------------------------------------------ the pieces

  /** The raw deltas of a stream, one by one. */
  datatype Piece = Think(s: string) | Say(s: string) | Call(c: CallDelta)

  function CallPieces(calls: seq<CallDelta>): (ps: seq<Piece>)
    ensures |ps| == |calls|
  {
    seq(|calls|, i requires 0 <= i < |calls| => Call(calls[i]))
  }

  function ChoicePieces(c: Choice): seq<Piece> {
    (if c.reasoning != "" then [Think(c.reasoning)] else []) +
    (if c.content != "" then [Say(c.content)] else []) + CallPieces(c.calls)
  }

  function FramePieces(choices: seq<Choice>): seq<Piece> {
    if choices == [] then []
    else FramePieces(choices[..|choices| - 1]) + ChoicePieces(choices[|choices| - 1])
  }

  function Pieces(payloads: seq<Payload>): seq<Piece> {
    if payloads == [] then []
    else
      var p := payloads[|payloads| - 1];
      Pieces(payloads[..|payloads| - 1]) + (if p.Frame? then FramePieces(p.choices) else [])
  }

  function ChoicesFinish(choices: seq<Choice>, before: Option<Finish>): Option<Finish> {
    if choices == [] then before
    else
      var c := choices[|choices| - 1];
      if c.finishReason.Some? then Some(MapFinishReason(c.finishReason.value))
      else ChoicesFinish(choices[..|choices| - 1], before)
  }

  function LastFinish(payloads: seq<Payload>): Option<Finish> {
    if payloads == [] then None
    else
      var p, before := payloads[|payloads| - 1], LastFinish(payloads[..|payloads| - 1]);
      if p.Frame? then ChoicesFinish(p.choices, before) else before
  }

  /** The finish reasons that choices give, in order. */
  function ChoiceReasons(choices: seq<Choice>): seq<string> {
    if choices == [] then []
    else
      var c := choices[|choices| - 1];
      ChoiceReasons(choices[..|choices| - 1]) + (if c.finishReason.Some? then [c.finishReason.value] else [])
  }

  function Reasons(payloads: seq<Payload>): seq<string> {
    if payloads == [] then []
    else
      var p := payloads[|payloads| - 1];
      Reasons(payloads[..|payloads| - 1]) + (if p.Frame? then ChoiceReasons(p.choices) else [])
  }

  function LastUsage(payloads: seq<Payload>): Option<int> {
    if payloads == [] then None
    else
      var p := payloads[|payloads| - 1];
      if p.Frame? && p.usage.Some? then p.usage else LastUsage(payloads[..|payloads| - 1])
  }

  // ---------------------------------------------------- what the answer should be

  /** A block of the answer: the one text, the one reasoning, or one call by its wire index. */
  datatype Key = TextKey | ReasoningKey | CallKey(wire: int)

  function KeyOf(p: Piece): Key {
    match p
    case Think(_) => ReasoningKey
    case Say(_) => TextKey
    case Call(c) => CallKey(c.wire)
  }

  /** The blocks in order of first appearance. */
  function Keys(ps: seq<Piece>): seq<Key> {
    if ps == [] then []
    else
      var before, k := Keys(ps[..|ps| - 1]), KeyOf(ps[|ps| - 1]);
      if k in before then before else before + [k]
  }

  function AllText(ps: seq<Piece>): string {
    if ps == [] then ""
    else if ps[|ps| - 1].Say? then AllText(ps[..|ps| - 1]) + ps[|ps| - 1].s
    else AllText(ps[..|ps| - 1])
  }

  function AllReasoning(ps: seq<Piece>): string {
    if ps == [] then ""
    else if ps[|ps| - 1].Think? then AllReasoning(ps[..|ps| - 1]) + ps[|ps| - 1].s
    else AllReasoning(ps[..|ps| - 1])
  }

  predicate IsCall(p: Piece, wire: int) {
    p.Call? && p.c.wire == wire
  }

  function AllArguments(ps: seq<Piece>, wire: int): string {
    if ps == [] then ""
    else if IsCall(ps[|ps| - 1], wire) then AllArguments(ps[..|ps| - 1], wire) + ps[|ps| - 1].c.arguments
    else AllArguments(ps[..|ps| - 1], wire)
  }

  /** The last id a call was given, or the empty text. */
  function LastId(ps: seq<Piece>, wire: int): string {
    if ps == [] then ""
    else if IsCall(ps[|ps| - 1], wire) && ps[|ps| - 1].c.id.Some? then ps[|ps| - 1].c.id.value
    else LastId(ps[..|ps| - 1], wire)
  }

  function LastName(ps: seq<Piece>, wire: int): Option<string> {
    if ps == [] then None
    else if IsCall(ps[|ps| - 1], wire) && ps[|ps| - 1].c.name.Some? then ps[|ps| - 1].c.name
    else LastName(ps[..|ps| - 1], wire)
  }

  function NameOr(name: Option<string>): string {
    if name.Some? then name.value else ""
  }

  function BlockFor(k: Key, ps: seq<Piece>): Block {
    match k
    case TextKey => TextBlock(AllText(ps))
    case ReasoningKey => ReasoningBlock(AllReasoning(ps))
    case CallKey(w) => ToolCallBlock(LastId(ps, w), NameOr(LastName(ps, w)), AllArguments(ps, w))
  }

  /** The answer the raw deltas spell out. */
  function Answer(ps: seq<Piece>): (blocks: seq<Block>)
    ensures |blocks| == |Keys(ps)|
  {
    seq(|Keys(ps)|, i requires 0 <= i < |Keys(ps)| => BlockFor(Keys(ps)[i], ps))
  }

  function FinishFor(ps: seq<Piece>, pending: Option<Finish>): Finish {
    var finish := if pending.Some? then pending.value else Stop;
    if finish == Stop && ps == [] then ErrorFinish("EMPTY_RESPONSE") else finish
  }

  /** What the reasons a stream gave come to. The last one decides, and giving none means "stop". Stopping is clean
      only behind some content; otherwise it is an error, as is every reason that is not known. */
  ghost predicate FinishedAs(reasons: seq<string>, empty: bool, finish: Finish) {
    var last := if reasons == [] then "stop" else reasons[|reasons| - 1];
    && (finish.Stop? <==> last == "stop" && !empty)
    && (finish.ToolCallsFinish? <==> last == "tool_calls")
    && (finish.MaxTokens? <==> last == "length")
    && (finish.ErrorFinish? ==> finish.code == if last == "stop" then "EMPTY_RESPONSE" else last)
  }

  /** The finish of the last reason given, or an earlier one. */
  ghost predicate FollowsReasons(reasons: seq<string>, before: Option<Finish>, finish: Option<Finish>) {
    finish == if reasons == [] then before else Some(MapFinishReason(reasons[|reasons| - 1]))
  }

  lemma {:induction false} ChoicesFollow(choices: seq<Choice>, before: Option<Finish>)
    ensures FollowsReasons(ChoiceReasons(choices), before, ChoicesFinish(choices, before))
  {
    if choices != [] {
      hide MapFinishReason;
      ChoicesFollow(choices[..|choices| - 1], before);
    }
  }

  lemma {:induction false} PayloadsFollow(payloads: seq<Payload>)
    ensures FollowsReasons(Reasons(payloads), None, LastFinish(payloads))
  {
    if payloads != [] {
      hide MapFinishReason, ChoiceReasons, ChoicesFinish;
      var p, before := payloads[|payloads| - 1], payloads[..|payloads| - 1];
      PayloadsFollow(before);
      if p.Frame? {
        ChoicesFollow(p.choices, LastFinish(before));
      }
    }
  }

  /** The last reason of a stream decides how it finished. */
  lemma LastReasonDecides(payloads: seq<Payload>, ps: seq<Piece>)
    ensures FinishedAs(Reasons(payloads), ps == [], FinishFor(ps, LastFinish(payloads)))
  {
    hide Reasons, LastFinish;
    PayloadsFollow(payloads);
  }

  // ------------------------------------------------------------------ the translator

  function TypeOf(k: Key): BlockType {
    match k
    case TextKey => TextType
    case ReasoningKey => ReasoningType
    case CallKey(_) => ToolCallType
  }

  /** The frame that carries one piece, given everything before it and its block's index. */
  function DeltaFrame(ps: seq<Piece>, p: Piece, index: nat): Chunk {
    match p
    case Think(s) => ReasoningDelta(index, s)
    case Say(s) => TextDelta(index, s)
    case Call(c) =>
      ToolCallDelta(index, Some(LastId(ps + [p], c.wire)), LastName(ps + [p], c.wire), c.arguments)
  }

  /** The frames emitted for one more piece: a start when its block is new, then the delta. */
  function FramesFor(ps: seq<Piece>, p: Piece): seq<Chunk> {
    var keys, k := Keys(ps), KeyOf(p);
    if k in keys then [DeltaFrame(ps, p, IndexOf(keys, k))]
    else [BlockStart(|keys|, TypeOf(k)), DeltaFrame(ps, p, |keys|)]
  }

  function Frames(ps: seq<Piece>): seq<Chunk> {
    if ps == [] then [] else Frames(ps[..|ps| - 1]) + FramesFor(ps[..|ps| - 1], ps[|ps| - 1])
  }

  function EndFrames(ps: seq<Piece>, n: nat): seq<Chunk>
    requires n <= |Keys(ps)|
  {
    if n == 0 then [] else EndFrames(ps, n - 1) + [BlockEnd(n - 1, Some(BlockFor(Keys(ps)[n - 1], ps)), None)]
  }

  function Coda(ps: seq<Piece>, finish: Option<Finish>, usage: Option<int>): seq<Chunk> {
    (if usage.Some? then [UsageChunk(usage.value)] else []) + [FinishChunk(Some(FinishFor(ps, finish)))]
  }

  /** The coherent tail sent at the end: every block closed whole, usage, finish. */
  function TailFrames(ps: seq<Piece>, finish: Option<Finish>, usage: Option<int>): seq<Chunk> {
    EndFrames(ps, |Keys(ps)|) + Coda(ps, finish, usage)
  }

  datatype CallState = CallState(id: string, name: Option<string>, arguments: string)

  class Translator {
    /** The kinds of the blocks by harness index. */
    var order: seq<BlockType>
    var text: Option<(nat, string)>
    var reasoning: Option<(nat, string)>
    var tools: map<nat, CallState>
    var wireToIndex: map<int, nat>
    var pendingFinish: Option<Finish>
    var pendingUsage: Option<int>
    ghost var seen: seq<Piece>

    /** The open blocks are exactly what the pieces seen so far spell out. */
    ghost predicate Valid()
      reads this
    {
      BlocksMatch(order, text, reasoning, tools, wireToIndex, seen)
    }

    constructor ()
      ensures Valid() && seen == [] && pendingFinish == None && pendingUsage == None
    {
      order, text, reasoning, tools, wireToIndex := [], None, None, map[], map[];
      pendingFinish, pendingUsage := None, None;
      seen := [];
    }

    method OnReasoning(s: string) returns (out: seq<Chunk>)
      requires Valid()
      modifies this`order, this`reasoning, this`seen
      ensures Valid() && seen == old(seen) + [Think(s)] && out == FramesFor(old(seen), Think(s))
    {
      hide Keys, AllText, AllReasoning, AllArguments, LastId, LastName, IndexOf, ToolsOk, WiresOk, Distinct;
      SeenGrows(seen, Think(s));
      GrowKeys(Keys(seen), KeyOf(Think(s)));
      OthersStay(tools, wireToIndex, seen, Think(s));
      out := [];
      if reasoning.None? {
        reasoning := Some((|order|, ""));
        out := [BlockStart(|order|, ReasoningType)];
        order := order + [ReasoningType];
      }
      reasoning := Some((reasoning.value.0, reasoning.value.1 + s));
      out := out + [ReasoningDelta(reasoning.value.0, s)];
      seen := seen + [Think(s)];
    }

    method OnContent(s: string) returns (out: seq<Chunk>)
      requires Valid()
      modifies this`order, this`text, this`seen
      ensures Valid() && seen == old(seen) + [Say(s)] && out == FramesFor(old(seen), Say(s))
    {
      hide Keys, AllText, AllReasoning, AllArguments, LastId, LastName, IndexOf, ToolsOk, WiresOk, Distinct;
      SeenGrows(seen, Say(s));
      GrowKeys(Keys(seen), KeyOf(Say(s)));
      OthersStay(tools, wireToIndex, seen, Say(s));
      out := [];
      if text.None? {
        text := Some((|order|, ""));
        out := [BlockStart(|order|, TextType)];
        order := order + [TextType];
      }
      text := Some((text.value.0, text.value.1 + s));
      out := out + [TextDelta(text.value.0, s)];
      seen := seen + [Say(s)];
    }

    method OnCall(c: CallDelta) returns (out: seq<Chunk>)
      requires Valid()
      modifies this`order, this`tools, this`wireToIndex, this`seen
      ensures Valid() && seen == old(seen) + [Call(c)] && out == FramesFor(old(seen), Call(c))
    {
      hide Keys, AllText, AllReasoning, AllArguments, LastId, LastName, IndexOf, ToolsOk, WiresOk, Distinct, StateOf;
      CallSeen(seen, c);
      GrowKeys(Keys(seen), CallKey(c.wire));
      FindCall(tools, wireToIndex, seen, c.wire);
      out := [];
      var index := |order|;
      var state := CallState("", None, "");
      if c.wire in wireToIndex {
        index := wireToIndex[c.wire];
        state := tools[index];
      } else {
        out := [BlockStart(index, ToolCallType)];
        order := order + [ToolCallType];
      }
      if c.id.Some? {
        state := state.(id := c.id.value);
      }
      if c.name.Some? {
        state := state.(name := c.name);
      }
      state := state.(arguments := state.arguments + c.arguments);
      ToolsGrow(tools, seen, c, index, state);
      WiresGrow(wireToIndex, Keys(seen), c.wire, index);
      tools := tools[index := state];
      wireToIndex := wireToIndex[c.wire := index];
      out := out + [ToolCallDelta(index, Some(state.id), state.name, c.arguments)];
      seen := seen + [Call(c)];
    }

    method OnCalls(calls: seq<CallDelta>) returns (out: seq<Chunk>)
      requires Valid()
      modifies this`order, this`tools, this`wireToIndex, this`seen
      ensures Valid() && seen == old(seen) + CallPieces(calls)
      ensures Frames(seen) == Frames(old(seen)) + out
    {
      hide BlocksMatch, FramesFor, Frames;
      out := [];
      for i := 0 to |calls|
        invariant Valid() && seen == old(seen) + CallPieces(calls[..i])
        invariant Frames(seen) == Frames(old(seen)) + out
      {
        assert CallPieces(calls[..i + 1]) == CallPieces(calls[..i]) + [Call(calls[i])];
        FramesSnoc(seen, Call(calls[i]));
        var more := OnCall(calls[i]);
        out := out + more;
      }
      assert calls[..|calls|] == calls;
    }

    method OnChoice(c: Choice) returns (out: seq<Chunk>)
      requires Valid()
      modifies this
      ensures Valid() && seen == old(seen) + ChoicePieces(c)
      ensures Frames(seen) == Frames(old(seen)) + out
      ensures pendingUsage == old(pendingUsage)
      ensures pendingFinish ==
              if c.finishReason.Some? then Some(MapFinishReason(c.finishReason.value)) else old(pendingFinish)
    {
      hide BlocksMatch, FramesFor, Frames;
      ghost var start := seen;
      out := [];
      if c.reasoning != "" {
        FramesSnoc(seen, Think(c.reasoning));
        var more := OnReasoning(c.reasoning);
        out := out + more;
      }
      ghost var thought := if c.reasoning != "" then [Think(c.reasoning)] else [];
      if c.content != "" {
        FramesSnoc(seen, Say(c.content));
        var more := OnContent(c.content);
        out := out + more;
      }
      ghost var said := if c.content != "" then [Say(c.content)] else [];
      var rest := OnCalls(c.calls);
      out := out + rest;
      assert seen == start + ChoicePieces(c);
      if c.finishReason.Some? {
        pendingFinish := Some(MapFinishReason(c.finishReason.value));
      }
    }

    method OnFrame(choices: seq<Choice>) returns (out: seq<Chunk>)
      requires Valid()
      modifies this
      ensures Valid() && seen == old(seen) + FramePieces(choices)
      ensures Frames(seen) == Frames(old(seen)) + out
      ensures pendingUsage == old(pendingUsage)
      ensures pendingFinish == ChoicesFinish(choices, old(pendingFinish))
    {
      hide BlocksMatch, FramesFor, ChoicePieces;
      out := [];
      for i := 0 to |choices|
        invariant Valid() && seen == old(seen) + FramePieces(choices[..i])
        invariant Frames(seen) == Frames(old(seen)) + out && pendingUsage == old(pendingUsage)
        invariant pendingFinish == ChoicesFinish(choices[..i], old(pendingFinish))
      {
        assert choices[..i + 1][..i] == choices[..i];
        var more := OnChoice(choices[i]);
        out := out + more;
      }
      assert choices[..|choices|] == choices;
    }

    /** The frames sent once the wire says it is done. */
    method OnDone() returns (out: seq<Chunk>)
      requires Valid()
      ensures out == TailFrames(seen, pendingFinish, pendingUsage)
    {
      out := Ends();
      KeysEmpty(seen);
      hide Keys, BlocksMatch, EndFrames;
      if pendingUsage.Some? {
        out := out + [UsageChunk(pendingUsage.value)];
      }
      var finish := if pendingFinish.Some? then pendingFinish.value else Stop;
      if finish == Stop && order == [] {
        finish := ErrorFinish("EMPTY_RESPONSE");
      }
      out := out + [FinishChunk(Some(finish))];
    }

    method Ends() returns (out: seq<Chunk>)
      requires Valid()
      ensures out == EndFrames(seen, |Keys(seen)|) && |order| == |Keys(seen)|
    {
      hide Keys, BlockFor, BlocksMatch;
      SameLength(order, text, reasoning, tools, wireToIndex, seen);
      out := [];
      for i := 0 to |order|
        invariant out == EndFrames(seen, i)
      {
        BlockAt(order, text, reasoning, tools, wireToIndex, seen, i);
        var block;
        match order[i] {
          case TextType => block := TextBlock(text.value.1);
          case ReasoningType => block := ReasoningBlock(reasoning.value.1);
          case ToolCallType =>
            block := ToolCallBlock(tools[i].id, NameOr(tools[i].name), tools[i].arguments);
        }
        out := out + [BlockEnd(i, Some(block), None)];
      }
    }
  }

  ghost predicate BlocksMatch(
    order: seq<BlockType>, text: Option<(nat, string)>, reasoning: Option<(nat, string)>,
    tools: map<nat, CallState>, wireToIndex: map<int, nat>, ps: seq<Piece>)
  {
    && OrderOk(order, Keys(ps))
    && text == OpenAs(Keys(ps), TextKey, AllText(ps))
    && reasoning == OpenAs(Keys(ps), ReasoningKey, AllReasoning(ps))
    && ToolsOk(tools, Keys(ps), ps)
    && WiresOk(wireToIndex, Keys(ps))
  }

  lemma SameLength(
    order: seq<BlockType>, text: Option<(nat, string)>, reasoning: Option<(nat, string)>,
    tools: map<nat, CallState>, wireToIndex: map<int, nat>, ps: seq<Piece>)
    requires BlocksMatch(order, text, reasoning, tools, wireToIndex, ps)
    ensures |order| == |Keys(ps)|
  {
  }

  /** The block the translator would build at an index is the one the pieces spell out. */
  lemma BlockAt(
    order: seq<BlockType>, text: Option<(nat, string)>, reasoning: Option<(nat, string)>,
    tools: map<nat, CallState>, wireToIndex: map<int, nat>, ps: seq<Piece>, i: nat)
    requires BlocksMatch(order, text, reasoning, tools, wireToIndex, ps) && i < |order|
    ensures i < |Keys(ps)|
    ensures order[i] == TextType ==> text.Some? && TextBlock(text.value.1) == BlockFor(Keys(ps)[i], ps)
    ensures order[i] == ReasoningType ==>
              reasoning.Some? && ReasoningBlock(reasoning.value.1) == BlockFor(Keys(ps)[i], ps)
    ensures order[i] == ToolCallType ==>
              i in tools && ToolCallBlock(tools[i].id, NameOr(tools[i].name), tools[i].arguments) ==
                BlockFor(Keys(ps)[i], ps)
  {
    hide Keys, AllText, AllReasoning, AllArguments, LastId, LastName, IndexOf, WiresOk, Distinct;
    var k := Keys(ps)[i];
    assert k in Keys(ps) && order[i] == TypeOf(k);
  }

  ghost predicate OrderOk(order: seq<BlockType>, keys: seq<Key>) {
    |order| == |keys| && Distinct(keys) && forall i :: 0 <= i < |keys| ==> order[i] == TypeOf(keys[i])
  }

  function OpenAs(keys: seq<Key>, k: Key, s: string): Option<(nat, string)> {
    if k in keys then Some((IndexOf(keys, k), s)) else None
  }

  function StateOf(ps: seq<Piece>, wire: int): CallState {
    CallState(LastId(ps, wire), LastName(ps, wire), AllArguments(ps, wire))
  }

  ghost predicate ToolsOk(tools: map<nat, CallState>, keys: seq<Key>, ps: seq<Piece>) {
    forall i :: 0 <= i < |keys| && keys[i].CallKey? ==> i in tools && tools[i] == StateOf(ps, keys[i].wire)
  }

  ghost predicate WiresOk(wireToIndex: map<int, nat>, keys: seq<Key>) {
    && (forall w :: w in wireToIndex <==> CallKey(w) in keys)
    && (forall w :: w in wireToIndex ==> wireToIndex[w] == IndexOf(keys, CallKey(w)))
  }

  function Grown(keys: seq<Key>, k: Key): seq<Key> {
    if k in keys then keys else keys + [k]
  }

  lemma GrowKeys(keys: seq<Key>, k: Key)
    requires Distinct(keys)
    ensures Distinct(Grown(keys, k))
    ensures forall x :: x in Grown(keys, k) <==> x in keys || x == k
    ensures forall x :: x in keys ==> IndexOf(Grown(keys, k), x) == IndexOf(keys, x)
    ensures k !in keys ==> IndexOf(Grown(keys, k), k) == |keys|
  {
    var keys' := Grown(keys, k);
    forall x | x in keys
      ensures IndexOf(keys', x) == IndexOf(keys, x)
    {
      var i := IndexOf(keys, x);
      assert keys'[i] == x;
      IndexOfDistinct(keys', i);
    }
    if k !in keys {
      assert keys'[|keys|] == k;
      IndexOfDistinct(keys', |keys|);
    }
  }

  /** A piece that is not a call leaves the calls alone. */
  lemma OthersStay(tools: map<nat, CallState>, wireToIndex: map<int, nat>, ps: seq<Piece>, p: Piece)
    requires !p.Call? && Distinct(Keys(ps)) && ToolsOk(tools, Keys(ps), ps) && WiresOk(wireToIndex, Keys(ps))
    ensures ToolsOk(tools, Keys(ps + [p]), ps + [p]) && WiresOk(wireToIndex, Keys(ps + [p]))
  {
    hide Keys, AllText, AllReasoning, AllArguments, LastId, LastName, IndexOf;
    SeenGrows(ps, p);
    GrowKeys(Keys(ps), KeyOf(p));
  }

  function Merged(state: CallState, c: CallDelta): CallState {
    CallState(if c.id.Some? then c.id.value else state.id, if c.name.Some? then c.name else state.name,
              state.arguments + c.arguments)
  }

  lemma CallSeen(ps: seq<Piece>, c: CallDelta)
    ensures var ps' := ps + [Call(c)];
            && Keys(ps') == Grown(Keys(ps), CallKey(c.wire))
            && AllText(ps') == AllText(ps) && AllReasoning(ps') == AllReasoning(ps)
            && StateOf(ps', c.wire) == Merged(StateOf(ps, c.wire), c)
            && StateOf(ps', c.wire) == CallState(LastId(ps', c.wire), LastName(ps', c.wire), AllArguments(ps', c.wire))
    ensures CallKey(c.wire) !in Keys(ps) ==> StateOf(ps, c.wire) == CallState("", None, "")
  {
    hide Keys;
    SeenGrows(ps, Call(c));
  }

  lemma FindCall(tools: map<nat, CallState>, wireToIndex: map<int, nat>, ps: seq<Piece>, wire: int)
    requires Distinct(Keys(ps)) && ToolsOk(tools, Keys(ps), ps) && WiresOk(wireToIndex, Keys(ps))
    ensures wire in wireToIndex <==> CallKey(wire) in Keys(ps)
    ensures wire in wireToIndex ==>
              wireToIndex[wire] == IndexOf(Keys(ps), CallKey(wire)) && wireToIndex[wire] in tools
              && tools[wireToIndex[wire]] == StateOf(ps, wire)
  {
  }

  /** A call piece updates the state at its own block's index and no other. */
  lemma ToolsGrow(tools: map<nat, CallState>, ps: seq<Piece>, c: CallDelta, index: nat, state: CallState)
    requires Distinct(Keys(ps)) && ToolsOk(tools, Keys(ps), ps)
    requires index == if CallKey(c.wire) in Keys(ps) then IndexOf(Keys(ps), CallKey(c.wire)) else |Keys(ps)|
    requires state == StateOf(ps + [Call(c)], c.wire)
    ensures ToolsOk(tools[index := state], Keys(ps + [Call(c)]), ps + [Call(c)])
  {
    hide Keys, AllText, AllReasoning, AllArguments, LastId, LastName, IndexOf, Distinct;
    SeenGrows(ps, Call(c));
    var keys, keys', tools' := Keys(ps), Keys(ps + [Call(c)]), tools[index := state];
    forall i | 0 <= i < |keys'| && keys'[i].CallKey?
      ensures i in tools' && tools'[i] == StateOf(ps + [Call(c)], keys'[i].wire)
    {
      if i == index {
        assert keys'[index] == CallKey(c.wire);
      } else {
        assert i < |keys| && keys'[i] == keys[i];
        OtherKey(keys, i, index, CallKey(c.wire));
      }
    }
  }

  lemma OtherKey(keys: seq<Key>, i: nat, index: nat, k: Key)
    requires Distinct(keys) && i < |keys| && i != index
    requires index == if k in keys then IndexOf(keys, k) else |keys|
    ensures keys[i] != k
  {
  }

  lemma WiresGrow(wireToIndex: map<int, nat>, keys: seq<Key>, wire: int, index: nat)
    requires Distinct(keys) && WiresOk(wireToIndex, keys)
    requires index == if CallKey(wire) in keys then IndexOf(keys, CallKey(wire)) else |keys|
    ensures WiresOk(wireToIndex[wire := index], Grown(keys, CallKey(wire)))
  {
    hide IndexOf, Distinct;
    GrowKeys(keys, CallKey(wire));
    assert CallKey(wire) in keys ==> Grown(keys, CallKey(wire)) == keys;
  }

  lemma FramesSnoc(ps: seq<Piece>, p: Piece)
    ensures Frames(ps + [p]) == Frames(ps) + FramesFor(ps, p)
  {
    assert (ps + [p])[..|ps|] == ps;
  }

  lemma {:induction false} KeysEmpty(ps: seq<Piece>)
    ensures Keys(ps) == [] <==> ps == []
  {
    if ps != [] {
      KeysEmpty(ps[..|ps| - 1]);
    }
  }

  /** What one more piece does to the blocks: its own grows, the others stay. */
  lemma SeenGrows(ps: seq<Piece>, p: Piece)
    ensures var ps' := ps + [p];
            && Keys(ps') == Grown(Keys(ps), KeyOf(p))
            && AllText(ps') == (if p.Say? then AllText(ps) + p.s else AllText(ps))
            && AllReasoning(ps') == (if p.Think? then AllReasoning(ps) + p.s else AllReasoning(ps))
            && (forall w :: AllArguments(ps', w) ==
                  if IsCall(p, w) then AllArguments(ps, w) + p.c.arguments else AllArguments(ps, w))
            && (forall w :: LastId(ps', w) == if IsCall(p, w) && p.c.id.Some? then p.c.id.value else LastId(ps, w))
            && (forall w :: LastName(ps', w) == if IsCall(p, w) && p.c.name.Some? then p.c.name else LastName(ps, w))
    ensures KeyOf(p) !in Keys(ps) ==> NothingYet(KeyOf(p), ps)
  {
    assert (ps + [p])[..|ps|] == ps;
    if KeyOf(p) !in Keys(ps) {
      AbsentKey(KeyOf(p), ps);
    }
  }

  ghost predicate NothingYet(k: Key, ps: seq<Piece>) {
    match k
    case TextKey => AllText(ps) == ""
    case ReasoningKey => AllReasoning(ps) == ""
    case CallKey(w) => LastId(ps, w) == "" && LastName(ps, w) == None && AllArguments(ps, w) == ""
  }

  lemma {:induction false} AbsentKey(k: Key, ps: seq<Piece>)
    requires k !in Keys(ps)
    ensures NothingYet(k, ps)
  {
    if ps != [] {
      AbsentKey(k, ps[..|ps| - 1]);
    }
  }

  /** The whole translation: frames until the wire is done, or the reason it broke off. */
  method Translate(payloads: seq<Payload>) returns (out: seq<Chunk>, r: Result<(), LlmError>)
    ensures var n := Stops(payloads);
            var before := payloads[..n];
            if n == |payloads| then r == Err(StreamClosed) && out == Frames(Pieces(before))
            else if payloads[n].Malformed? then r == Err(MalformedResponse) && out == Frames(Pieces(before))
            else if payloads[n].NotAnObject? then r == Err(AttributeFailure) && out == Frames(Pieces(before))
            else
              r == Ok(()) &&
              out == Frames(Pieces(before)) + TailFrames(Pieces(before), LastFinish(before), LastUsage(before))
  {
    assert Frames([]) == [];
    hide Frames, TailFrames, FramePieces, ChoicesFinish, BlocksMatch, Stops, Pieces, LastFinish, LastUsage;
    NothingRead();
    var t := new Translator();
    out := [];
    for i := 0 to |payloads|
      invariant fresh(t) && t.Valid() && forall j :: 0 <= j < i ==> payloads[j].Frame?
      invariant t.seen == Pieces(payloads[..i]) && out == Frames(t.seen)
      invariant t.pendingFinish == LastFinish(payloads[..i]) && t.pendingUsage == LastUsage(payloads[..i])
    {
      StopsAt(payloads, i);
      PayloadRead(payloads, i);
      match payloads[i] {
        case Done =>
          var tail := t.OnDone();
          return out + tail, Ok(());
        case Malformed =>
          return out, Err(MalformedResponse);
        case NotAnObject =>
          return out, Err(AttributeFailure);
        case Frame(choices, usage) =>
          var more := t.OnFrame(choices);
          out := out + more;
          if usage.Some? {
            t.pendingUsage := usage;
          }
      }
    }
    StopsAt(payloads, |payloads|);
    assert payloads[..|payloads|] == payloads;
    return out, Err(StreamClosed);
  }

  lemma NothingRead()
    ensures Pieces([]) == [] && LastFinish([]) == None && LastUsage([]) == None
  {
  }

  lemma PayloadRead(payloads: seq<Payload>, i: nat)
    requires i < |payloads|
    ensures payloads[i].Frame? ==>
              && Pieces(payloads[..i + 1]) == Pieces(payloads[..i]) + FramePieces(payloads[i].choices)
              && LastFinish(payloads[..i + 1]) == ChoicesFinish(payloads[i].choices, LastFinish(payloads[..i]))
              && LastUsage(payloads[..i + 1]) ==
                 (if payloads[i].usage.Some? then payloads[i].usage else LastUsage(payloads[..i]))
  {
    hide FramePieces, ChoicesFinish;
    assert payloads[..i + 1][..i] == payloads[..i];
  }

  /** The first payload that is not a frame. */
  function Stops(payloads: seq<Payload>): (n: nat)
    ensures n <= |payloads| && (n < |payloads| ==> !payloads[n].Frame?)
    ensures forall j :: 0 <= j < n ==> payloads[j].Frame?
  {
    if payloads == [] || !payloads[0].Frame? then 0 else 1 + Stops(payloads[1..])
  }

  lemma StopsAt(payloads: seq<Payload>, i: nat)
    requires i <= |payloads| && forall j :: 0 <= j < i ==> payloads[j].Frame?
    ensures Stops(payloads) >= i
    ensures i < |payloads| && !payloads[i].Frame? ==> Stops(payloads) == i
  {
  }
}
