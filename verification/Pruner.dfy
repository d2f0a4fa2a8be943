/** Tool results cut to head, marker and tail, and the sessions they are replaced in (bounded/pruner.py). */
module Pruner {
  import opened Prelude
  import opened Messages
  import opened Sessions
  import opened Pairing

  function PruneMarker(): string {
    "\n\n[... tool result middle pruned ...]\n\n"
  }

  const DEFAULT_THRESHOLD_CHARS := 8192
  const DEFAULT_HEAD_CHARS := 4096
  const DEFAULT_TAIL_CHARS := 1024

  // ------------------------------------------------------------ configuration

  datatype RawValue = IntValue(n: int) | BoolValue(b: bool) | OtherValue

  datatype RawConfig = RawConfig(
    unknown: set<string>, threshold: Option<RawValue>, head: Option<RawValue>, tail: Option<RawValue>)

  datatype Config = Config(threshold: int, head: int, tail: int)

  datatype ConfigError = UnknownKeys(keys: set<string>) | BadThreshold | BadHead | BadTail | TooMuchEmitted

  function GetOr(v: Option<RawValue>, default: int): RawValue {
    if v.Some? then v.value else IntValue(default)
  }

  /** What makes a configuration workable: a prune under it always fits. */
  predicate Workable(c: Config) {
    c.threshold > 0 && c.head >= 0 && c.tail >= 0 && c.head + |PruneMarker()| + c.tail <= c.threshold
  }

  predicate AtLeast(v: RawValue, least: int) {
    v.IntValue? && v.n >= least
  }

  /** The settings asked for, with defaults for those that were not. */
  ghost predicate AskedFor(raw: RawConfig, c: Config) {
    && IntValue(c.threshold) == GetOr(raw.threshold, DEFAULT_THRESHOLD_CHARS)
    && IntValue(c.head) == GetOr(raw.head, DEFAULT_HEAD_CHARS)
    && IntValue(c.tail) == GetOr(raw.tail, DEFAULT_TAIL_CHARS)
  }

  /** Accepted are exactly workable settings with no unknown key; a refusal names the first thing wrong. */
  function ResolveConfig(raw: RawConfig): (r: Result<Config, ConfigError>)
    ensures r.Ok? <==> raw.unknown == {} && exists c :: AskedFor(raw, c) && Workable(c)
    ensures r.Ok? ==> AskedFor(raw, r.value) && Workable(r.value)
    ensures r == Err(UnknownKeys(raw.unknown)) <==> raw.unknown != {}
    ensures r == Err(BadThreshold) <==>
              raw.unknown == {} && !AtLeast(GetOr(raw.threshold, DEFAULT_THRESHOLD_CHARS), 1)
    ensures r == Err(BadHead) ==> !AtLeast(GetOr(raw.head, DEFAULT_HEAD_CHARS), 0)
    ensures r == Err(BadTail) ==> !AtLeast(GetOr(raw.tail, DEFAULT_TAIL_CHARS), 0)
    ensures r == Err(TooMuchEmitted) ==> exists c :: AskedFor(raw, c) && c.head + |PruneMarker()| + c.tail > c.threshold
  {
    var threshold := GetOr(raw.threshold, DEFAULT_THRESHOLD_CHARS);
    var head, tail := GetOr(raw.head, DEFAULT_HEAD_CHARS), GetOr(raw.tail, DEFAULT_TAIL_CHARS);
    if raw.unknown != {} then Err(UnknownKeys(raw.unknown))
    else if !threshold.IntValue? || threshold.n <= 0 then Err(BadThreshold)
    else if !head.IntValue? || head.n < 0 then Err(BadHead)
    else if !tail.IntValue? || tail.n < 0 then Err(BadTail)
    else
      var c := Config(threshold.n, head.n, tail.n);
      assert AskedFor(raw, c);
      if head.n + |PruneMarker()| + tail.n > threshold.n then Err(TooMuchEmitted) else Ok(c)
  }

  /** Every workable configuration can be asked for, and is resolved to itself. */
  lemma WorkableIsAccepted(c: Config)
    ensures var raw := RawConfig({}, Some(IntValue(c.threshold)), Some(IntValue(c.head)), Some(IntValue(c.tail)));
            ResolveConfig(raw) == Ok(c) <==> Workable(c)
  {
  }

  // ------------------------------------------------------------ pruning content

  /** All the text of some blocks, joined. */
  function Joined(blocks: seq<Block>): string {
    if blocks == [] then ""
    else
      var b := blocks[|blocks| - 1];
      if b.TextBlock? then Joined(blocks[..|blocks| - 1]) + b.text else Joined(blocks[..|blocks| - 1])
  }

  function NonText(blocks: seq<Block>): seq<Block> {
    if blocks == [] then []
    else
      var b := blocks[|blocks| - 1];
      if b.TextBlock? then NonText(blocks[..|blocks| - 1]) else NonText(blocks[..|blocks| - 1]) + [b]
  }

  /** `at` are the places of all blocks that are no text, in rising order, and `others` are those blocks. */
  ghost predicate OthersAt(blocks: seq<Block>, others: seq<Block>, at: seq<nat>) {
    && |others| == |at| && (forall i, j :: 0 <= i < j < |at| ==> at[i] < at[j])
    && (forall i :: 0 <= i < |at| ==> at[i] < |blocks| && others[i] == blocks[at[i]])
    && (forall k: nat :: k < |blocks| ==> (k in at <==> !blocks[k].TextBlock?))
  }

  lemma {:induction false} NonTextIsAll(blocks: seq<Block>) returns (at: seq<nat>)
    ensures OthersAt(blocks, NonText(blocks), at)
  {
    at := [];
    if blocks != [] {
      hide OthersAt;
      var n := |blocks| - 1;
      at := NonTextIsAll(blocks[..n]);
      OthersSnoc(blocks, NonText(blocks[..n]), at);
      at := if blocks[n].TextBlock? then at else at + [n];
    }
  }

  lemma OthersSnoc(blocks: seq<Block>, others: seq<Block>, at: seq<nat>)
    requires blocks != [] && OthersAt(blocks[..|blocks| - 1], others, at)
    ensures var n := |blocks| - 1;
            if blocks[n].TextBlock? then OthersAt(blocks, others, at)
            else OthersAt(blocks, others + [blocks[n]], at + [n])
  {
    var n := |blocks| - 1;
    assert forall k: nat :: k < n ==> blocks[..n][k] == blocks[k];
    assert forall k :: k in at ==> k < n;
    assert forall k :: k in at + [n] <==> k in at || k == n;
  }

  /** Characters across the text blocks. */
  function Measure(blocks: seq<Block>): (n: nat)
    ensures n == |Joined(blocks)|
  {
    if blocks == [] then 0
    else
      var b := blocks[|blocks| - 1];
      Measure(blocks[..|blocks| - 1]) + (if b.TextBlock? then |b.text| else 0)
  }

  /** What pruning leaves of a text as it grows: the head, then the marker once the removed
      range has begun, then whatever lies past it. */
  function Kept(t: string, head: nat, resume: nat): string
    requires head <= resume
  {
    if |t| <= head then t
    else if |t| <= resume then t[..head] + PruneMarker()
    else t[..head] + PruneMarker() + t[resume..]
  }

  datatype PruneError = NothingMatched | NotSmaller

  class ToolResultPruner {
    const config: Config

    constructor (config: Config)
      requires Workable(config)
      ensures this.config == config
    {
      this.config := config;
    }

    /** Over-budget content becomes its head, the marker and its tail; neither failure the
        walk guards against can happen. */
    method PruneContent(blocks: seq<Block>) returns (r: Result<Option<seq<Block>>, PruneError>)
      requires Workable(config)
      ensures r == Ok(Pruned(blocks, config))
    {
      hide PruneMarker, Joined, Kept, NonText, CutText, Measure, CutMiddle;
      NothingCut(config.head, Measure(blocks) - config.tail);
      var total := Measure(blocks);
      if total <= config.threshold {
        return Ok(None);
      }
      var removedFrom, removedTo := config.head, total - config.tail;
      var pruned: seq<Block>, consumed, marked := [], 0, false;
      for i := 0 to |blocks|
        invariant consumed == Measure(blocks[..i]) && marked == (consumed > removedFrom)
        invariant pruned == CutMiddle(blocks[..i], removedFrom, removedTo)
      {
        assert blocks[..i + 1] == blocks[..i] + [blocks[i]];
        CutSnoc(blocks[..i], blocks[i], removedFrom, removedTo);
        var block := blocks[i];
        if !block.TextBlock? {
          pruned := pruned + [block];
        } else {
          var text;
          text, marked := CutBlock(block.text, consumed, marked, removedFrom, removedTo);
          consumed := consumed + |block.text|;
          if text != [] {
            pruned := pruned + [TextBlock(text)];
          }
        }
      }
      assert blocks[..|blocks|] == blocks;
      if !marked {
        assert false;
      }
      PruneIsExact(blocks, config);
      var after := Measure(pruned);
      if after >= total || after > config.threshold {
        assert false;
      }
      return Ok(Some(pruned));
    }

    /** What stays of one text block, given the characters before it and whether the marker
        is already out. */
    method CutBlock(characters: string, start: nat, marked: bool, removedFrom: nat, removedTo: nat)
      returns (text: string, marked': bool)
      requires removedFrom < removedTo && marked == (start > removedFrom)
      ensures text == CutText(characters, start, removedFrom, removedTo)
      ensures marked' == (start + |characters| > removedFrom)
    {
      hide PruneMarker;
      var end := start + |characters|;
      var headEnd := Min(|characters|, Max(0, removedFrom - start));
      var tailStart := Min(|characters|, Max(0, removedTo - start));
      var overlaps := start < removedTo && end > removedFrom;
      var marker := "";
      marked' := marked;
      if overlaps && !marked {
        marker := PruneMarker();
        marked' := true;
      }
      text := characters[..headEnd] + marker + characters[tailStart..];
    }

    method PruneBlock(block: Block) returns (r: Block)
      requires Workable(config)
      ensures r == PrunedBlock(block, config)
    {
      if !block.ToolResultBlock? {
        return block;
      }
      var pruned := PruneContent(block.content);
      if pruned.value.None? {
        return block;
      }
      return block.(content := pruned.value.value);
    }

    /** The session ends as the one in which each prunable result was replaced once, in surface order. */
    method PruneSession(session: Session) returns (pruned: seq<int>)
      requires Workable(config) && WellFormed(session.Model())
      modifies session
      ensures var s := old(session.Model());
              session.Model() == Run(s, PruneCommands(s, s.view.surface, config)) &&
              pruned == PrunedNodes(s, s.view.surface, config)
      ensures WellFormed(session.Model())
    {
      hide Workable, AppendStep, Distinct, PruneCommands, PrunedNodes, Run, PrunedBlocks, ResultChars, EventOf;
      ghost var s := session.Model();
      NothingPrunedYet(s, config);
      var nodes, events := session.surface, session.events;
      pruned := [];
      for i := 0 to |nodes|
        invariant session.Model() == Run(s, PruneCommands(s, nodes[..i], config))
        invariant pruned == PrunedNodes(s, nodes[..i], config)
        invariant WellFormed(session.Model())
      {
        assert nodes[..i + 1] == nodes[..i] + [nodes[i]];
        EventOfNumbered(events, nodes[i]);
        var event := EventOf(events, nodes[i]).value;
        PruneSnoc(s, nodes[..i], nodes[i], config);
        if event.kind.ToolResult? && event.data.MessageData? {
          var before := CountChars(event.data.message.content);
          if before > config.threshold {
            var content := PruneAll(event.data.message.content);
            var after := CountChars(content);
            if after < before {
              var c := Command(ToolResult, MessageData(event.data.message.(content := content)),
                               Replace(nodes[i], nodes[i]), [nodes[i]]);
              AppendWellFormed(session.Model(), c);
              var _ := session.Append(c);
              pruned := pruned + [nodes[i]];
            }
          }
        }
      }
      assert nodes[..|nodes|] == nodes;
    }

    /** The characters of a tool result, counted inside its result blocks. */
    method CountChars(blocks: seq<Block>) returns (n: nat)
      ensures n == ResultChars(blocks)
    {
      n := 0;
      for i := 0 to |blocks|
        invariant n == ResultChars(blocks[..i])
      {
        assert blocks[..i + 1][..i] == blocks[..i];
        match blocks[i] {
          case ToolResultBlock(_, content, _) => n := n + Measure(content);
          case TextBlock(text) =>
            MeasureOne(blocks[i]);
            n := n + |text|;
          case _ => MeasureOne(blocks[i]);
        }
      }
      assert blocks[..|blocks|] == blocks;
    }

    method PruneAll(blocks: seq<Block>) returns (r: seq<Block>)
      requires Workable(config)
      ensures r == PrunedBlocks(blocks, config)
    {
      r := [];
      for i := 0 to |blocks|
        invariant r == PrunedBlocks(blocks[..i], config)
      {
        assert blocks[..i + 1][..i] == blocks[..i];
        var b := PruneBlock(blocks[i]);
        r := r + [b];
      }
      assert blocks[..|blocks|] == blocks;
    }
  }

  /** One text block, given how many characters came before it. */
  function CutText(text: string, start: nat, head: nat, resume: nat): string {
    var headEnd := Min(|text|, Max(0, head - start));
    var tailStart := Min(|text|, Max(0, resume - start));
    text[..headEnd] + (if start <= head < start + |text| then PruneMarker() else "") + text[tailStart..]
  }

  function CutMiddle(blocks: seq<Block>, head: nat, resume: nat): seq<Block> {
    if blocks == [] then []
    else
      var before, b := blocks[..|blocks| - 1], blocks[|blocks| - 1];
      if !b.TextBlock? then CutMiddle(before, head, resume) + [b]
      else
        var text := CutText(b.text, Measure(before), head, resume);
        if text == [] then CutMiddle(before, head, resume) else CutMiddle(before, head, resume) + [TextBlock(text)]
  }

  lemma NothingCut(head: nat, resume: int)
    ensures Measure([]) == 0 && (resume >= 0 ==> CutMiddle([], head, resume) == [])
  {
  }

  lemma CutSnoc(before: seq<Block>, b: Block, head: nat, resume: nat)
    ensures Measure(before + [b]) == Measure(before) + (if b.TextBlock? then |b.text| else 0)
    ensures CutMiddle(before + [b], head, resume) ==
            if !b.TextBlock? then CutMiddle(before, head, resume) + [b]
            else
              var text := CutText(b.text, Measure(before), head, resume);
              if text == [] then CutMiddle(before, head, resume)
                else CutMiddle(before, head, resume) + [TextBlock(text)]
  {
    assert (before + [b])[..|before|] == before;
  }

  function Pruned(blocks: seq<Block>, c: Config): Option<seq<Block>>
    requires Workable(c)
  {
    if Measure(blocks) <= c.threshold then None
    else Some(CutMiddle(blocks, c.head, Measure(blocks) - c.tail))
  }

  lemma Assoc(a: string, b: string, c: string, d: string)
    ensures a + (b + c + d) == a + b + c + d
  {
  }

  lemma CutBefore(t: string, text: string, k: nat)
    requires k <= |t|
    ensures (t + text)[..k] == t[..k] && (t + text)[k..] == t[k..] + text
  {
  }

  lemma CutAfter(t: string, text: string, k: nat)
    requires |t| <= k <= |t| + |text|
    ensures (t + text)[..k] == t + text[..k - |t|] && (t + text)[k..] == text[k - |t|..]
  {
  }

  lemma CutEnds(text: string)
    ensures text[..0] == "" && text[0..] == text && text[|text|..] == "" && text[..|text|] == text
  {
  }

  lemma {:induction false} Units(a: string, b: string)
    ensures a + "" == a && "" + a == a && a + ("" + "" + b) == a + b && a + (b + "" + "") == a + b
  {
  }

  lemma CutTextKeeps(t: string, text: string, head: nat, resume: nat)
    requires head < resume
    ensures Kept(t, head, resume) + CutText(text, |t|, head, resume) == Kept(t + text, head, resume)
  {
    hide Min, Max;
    CutEnds(text);
    var headEnd, tailStart := Min(|text|, Max(0, head - |t|)), Min(|text|, Max(0, resume - |t|));
    MinMax(|text|, head - |t|);
    MinMax(|text|, resume - |t|);
    if |t| + |text| <= head {
      Units(t, text);
    } else if |t| <= head {
      CutAfter(t, text, head);
      if |t| + |text| <= resume {
        Units(text[..headEnd] + PruneMarker(), "");
        Units(t, text);
      } else {
        CutAfter(t, text, resume);
      }
      Assoc(t, text[..headEnd], PruneMarker(), text[tailStart..]);
    } else {
      CutBefore(t, text, head);
      if |t| > resume {
        CutBefore(t, text, resume);
        assert t[..head] + PruneMarker() + (t[resume..] + text) == t[..head] + PruneMarker() + t[resume..] + text;
      } else if |t| + |text| > resume {
        CutAfter(t, text, resume);
      }
      Units(Kept(t, head, resume), text[tailStart..]);
    }
  }

  lemma MinMax(n: nat, x: int)
    ensures Min(n, Max(0, x)) == if x <= 0 then 0 else if x >= n then n else x
  {
  }

  /** After any number of blocks the walk has kept exactly the head, the marker and the tail of
      the text so far, and every block that is not text; so each of those blocks still stands
      behind what was kept of the text it stood behind. */
  lemma {:induction false} CutKeeps(blocks: seq<Block>, head: nat, resume: nat)
    requires head < resume
    ensures Joined(CutMiddle(blocks, head, resume)) == Kept(Joined(blocks), head, resume)
    ensures NonText(CutMiddle(blocks, head, resume)) == NonText(blocks)
  {
    if blocks != [] {
      var before, b := blocks[..|blocks| - 1], blocks[|blocks| - 1];
      CutKeeps(before, head, resume);
      var w := CutMiddle(before, head, resume);
      if b.TextBlock? {
        hide Kept;
        CutTextKeeps(Joined(before), b.text, head, resume);
        var text := CutText(b.text, |Joined(before)|, head, resume);
        assert (w + [TextBlock(text)])[..|w|] == w;
      } else {
        assert (w + [b])[..|w|] == w;
      }
    }
  }

  /** What a prune says: the first head characters, the marker once, the last tail
      characters; other blocks kept in order; it fits, it shrinks, and pruning it again does
      nothing. */
  lemma PruneIsExact(blocks: seq<Block>, c: Config)
    requires Workable(c)
    ensures Pruned(blocks, c).None? <==> |Joined(blocks)| <= c.threshold
    ensures Pruned(blocks, c).Some? ==>
              var text, p := Joined(blocks), Pruned(blocks, c).value;
              && c.head + c.tail <= |text|
              && Joined(p) == text[..c.head] + PruneMarker() + text[|text| - c.tail..]
              && NonText(p) == NonText(blocks)
              && |Joined(p)| <= c.threshold < |text|
              && Pruned(p, c).None?
  {
    hide PruneMarker, Joined, NonText, CutMiddle;
    if Pruned(blocks, c).Some? {
      CutKeeps(blocks, c.head, Measure(blocks) - c.tail);
    }
  }

  // ------------------------------------------------------------ pruning a session

  function ResultChars(blocks: seq<Block>): nat {
    if blocks == [] then 0
    else
      var b := blocks[|blocks| - 1];
      ResultChars(blocks[..|blocks| - 1]) + (if b.ToolResultBlock? then Measure(b.content) else Measure([b]))
  }

  lemma MeasureOne(b: Block)
    ensures Measure([b]) == if b.TextBlock? then |b.text| else 0
  {
    assert [b][..0] == [];
  }

  /** A tool's result is pruned exactly when its text is over the threshold, and what replaces it is the same result
      with its content pruned. */
  lemma ToolResultIsPruned(e: Event, c: Config)
    requires Workable(c) && e.kind.ToolResult? && e.data.MessageData?
    requires |e.data.message.content| == 1 && e.data.message.content[0].ToolResultBlock?
    ensures var b := e.data.message.content[0];
            && (Prunable(e, c) <==> |Joined(b.content)| > c.threshold)
            && (Prunable(e, c) <==> Pruned(b.content, c).Some?)
            && (Prunable(e, c) ==>
                  PruneCommand(e, 1, c).data ==
                  MessageData(e.data.message.(content := [b.(content := Pruned(b.content, c).value)])))
  {
    hide Joined, CutMiddle, Workable;
    var m := e.data.message;
    var b := m.content[0];
    assert m.content == [b];
    OneResult(b, c);
    PruneIsExact(b.content, c);
  }

  lemma OneResult(b: Block, c: Config)
    requires Workable(c) && b.ToolResultBlock?
    ensures ResultChars([b]) == Measure(b.content) && PrunedBlocks([b], c) == [PrunedBlock(b, c)]
    ensures ResultChars([PrunedBlock(b, c)]) == Measure(PrunedBlock(b, c).content)
  {
    hide Measure, Pruned;
    assert [b][..0] == [] && [PrunedBlock(b, c)][..0] == [];
  }

  function PrunedBlock(b: Block, c: Config): Block
    requires Workable(c)
  {
    if b.ToolResultBlock? && Pruned(b.content, c).Some? then b.(content := Pruned(b.content, c).value) else b
  }

  function PrunedBlocks(blocks: seq<Block>, c: Config): seq<Block>
    requires Workable(c)
  {
    if blocks == [] then []
    else PrunedBlocks(blocks[..|blocks| - 1], c) + [PrunedBlock(blocks[|blocks| - 1], c)]
  }

  /** A tool result that is over budget and that pruning makes smaller. */
  predicate Prunable(e: Event, c: Config)
    requires Workable(c)
  {
    e.kind.ToolResult? && e.data.MessageData?
    && ResultChars(e.data.message.content) > c.threshold
    && ResultChars(PrunedBlocks(e.data.message.content, c)) < ResultChars(e.data.message.content)
  }

  function PruneCommand(e: Event, node: int, c: Config): Command
    requires Workable(c) && Prunable(e, c)
  {
    Command(ToolResult, MessageData(e.data.message.(content := PrunedBlocks(e.data.message.content, c))),
            Replace(node, node), [node])
  }

  function PruneCommands(s: State, nodes: seq<int>, c: Config): seq<Command>
    requires Workable(c) && InLog(s.events, nodes)
  {
    if nodes == [] then []
    else
      var before, node := PruneCommands(s, nodes[..|nodes| - 1], c), nodes[|nodes| - 1];
      if Prunable(s.events[node - 1], c) then before + [PruneCommand(s.events[node - 1], node, c)] else before
  }

  function PrunedNodes(s: State, nodes: seq<int>, c: Config): seq<int>
    requires Workable(c) && InLog(s.events, nodes)
  {
    if nodes == [] then []
    else
      var before, node := PrunedNodes(s, nodes[..|nodes| - 1], c), nodes[|nodes| - 1];
      if Prunable(s.events[node - 1], c) then before + [node] else before
  }

  lemma PruneSnoc(s: State, nodes: seq<int>, node: int, c: Config)
    requires Workable(c) && InLog(s.events, nodes + [node])
    ensures InLog(s.events, nodes) && 1 <= node <= |s.events|
    ensures var e := s.events[node - 1];
            PruneCommands(s, nodes + [node], c) ==
              (if Prunable(e, c) then PruneCommands(s, nodes, c) + [PruneCommand(e, node, c)]
               else PruneCommands(s, nodes, c)) &&
            PrunedNodes(s, nodes + [node], c) ==
              (if Prunable(e, c) then PrunedNodes(s, nodes, c) + [node] else PrunedNodes(s, nodes, c)) &&
            (Prunable(e, c) ==>
               Run(s, PruneCommands(s, nodes + [node], c)) ==
               Append(Run(s, PruneCommands(s, nodes, c)), PruneCommand(e, node, c)))
  {
    assert (nodes + [node])[..|nodes|] == nodes;
    assert (nodes + [node])[|nodes|] == node;
    var e := s.events[node - 1];
    if Prunable(e, c) {
      var before := PruneCommands(s, nodes, c);
      assert (before + [PruneCommand(e, node, c)])[..|before|] == before;
    }
  }

  /** The surface after pruning its first i nodes: same shape, each prunable result swapped for
      its pruned form in place, the rest of the surface and the tool pairing untouched. */
  lemma PruneKeepsShape(s: State, i: nat, c: Config)
    requires Workable(c) && WellFormed(s) && i <= |s.view.surface|
    ensures var s' := Run(s, PruneCommands(s, s.view.surface[..i], c));
            && WellFormed(s')
            && s.events <= s'.events
            && |s'.view.surface| == |s.view.surface|
            && StateDeltas(s') == StateDeltas(s)
            && (forall k :: 0 <= k < |s.view.surface| ==> PrunedAt(s, s', k, c, i))
  {
    hide Workable, StateDeltas, PruneCommands, Run, WellFormed, PrunedAt, InLog;
    SurfaceInLog(s);
    KeepsShape(s, i, c);
  }

  /** From s to s' the first upTo nodes were pruned where they are, and nothing else moved. */
  ghost predicate ShapeKept(s: State, s': State, c: Config, upTo: nat)
    requires Workable(c) && WellFormed(s)
  {
    && WellFormed(s') && s.events <= s'.events && |s'.view.surface| == |s.view.surface|
    && StateDeltas(s') == StateDeltas(s)
    && (forall k :: 0 <= k < |s.view.surface| ==> PrunedAt(s, s', k, c, upTo))
  }

  lemma {:induction false} KeepsShape(s: State, i: nat, c: Config)
    requires Workable(c) && WellFormed(s) && i <= |s.view.surface|
    ensures InLog(s.events, s.view.surface[..i])
    ensures ShapeKept(s, Run(s, PruneCommands(s, s.view.surface[..i], c)), c, i)
  {
    hide Workable, Append, PruneCommands, Run, WellFormed, Prunable, PruneCommand, ShapeKept, PrunedNodes, InLog;
    var nodes := s.view.surface;
    PrefixInLog(s, i);
    if i == 0 {
      assert nodes[..0] == [];
      NothingPrunedYet(s, c);
    } else {
      KeepsShape(s, i - 1, c);
      assert nodes[..i] == nodes[..i - 1] + [nodes[i - 1]];
      PruneSnoc(s, nodes[..i - 1], nodes[i - 1], c);
      var e, before := s.events[nodes[i - 1] - 1], Run(s, PruneCommands(s, nodes[..i - 1], c));
      if Prunable(e, c) {
        PruneOne(s, before, i - 1, c, i);
      } else {
        PruneNone(s, before, i - 1, c, i);
      }
    }
  }

  lemma PrefixInLog(s: State, i: nat)
    requires WellFormed(s) && i <= |s.view.surface|
    ensures InLog(s.events, s.view.surface[..i])
  {
  }

  lemma SurfaceInLog(s: State)
    requires WellFormed(s)
    ensures InLog(s.events, s.view.surface)
  {
  }

  lemma NothingPrunedYet(s: State, c: Config)
    requires Workable(c) && WellFormed(s)
    ensures PruneCommands(s, [], c) == [] && Run(s, PruneCommands(s, [], c)) == s && PrunedNodes(s, [], c) == []
    ensures ShapeKept(s, s, c, 0)
  {
  }

  lemma PruneNone(s: State, before: State, at: nat, c: Config, next: nat)
    requires Workable(c) && WellFormed(s) && at < |s.view.surface| && next == at + 1
    requires ShapeKept(s, before, c, at) && !Prunable(s.events[s.view.surface[at] - 1], c)
    ensures ShapeKept(s, before, c, next)
  {
    hide Workable, Prunable, StateDeltas, Distinct;
    forall k | 0 <= k < |s.view.surface|
      ensures PrunedAt(s, before, k, c, next)
    {
      assert PrunedAt(s, before, k, c, at);
    }
  }

  /** What stands at position k: the original event, or its pruned form once it was reached. */
  ghost predicate PrunedAt(s: State, s': State, k: nat, c: Config, upTo: nat)
    requires Workable(c) && WellFormed(s) && WellFormed(s')
    requires k < |s.view.surface| && |s'.view.surface| == |s.view.surface|
  {
    var e, e' := s.events[s.view.surface[k] - 1], s'.events[s'.view.surface[k] - 1];
    if k < upTo && Prunable(e, c) then
      e'.kind == e.kind && e'.data == PruneCommand(e, s.view.surface[k], c).data
      && e'.sources == [s.view.surface[k]]
    else s'.view.surface[k] == s.view.surface[k] && e' == e
  }

  lemma PruneOne(s: State, before: State, at: nat, c: Config, next: nat)
    requires Workable(c) && WellFormed(s) && at < |s.view.surface| && next == at + 1
    requires ShapeKept(s, before, c, at) && Prunable(s.events[s.view.surface[at] - 1], c)
    ensures ShapeKept(s, Append(before, PruneCommand(s.events[s.view.surface[at] - 1], s.view.surface[at], c)), c, next)
  {
    hide Workable, AppendStep, PrunedBlocks, ResultChars, StateDeltas, Distinct;
    var e := s.events[s.view.surface[at] - 1];
    var command := PruneCommand(e, s.view.surface[at], c);
    assert PrunedAt(s, before, at, c, at);
    PruneIsSafe(before, command, at);
    var s' := Append(before, command);
    SpliceAt(before.view.surface, at, at, before.view.seqNo + 1);
    PrunedInPlace(s, before, s', at, c, next, command);
  }

  lemma PrunedInPlace(s: State, before: State, s': State, at: nat, c: Config, next: nat, command: Command)
    requires Workable(c) && WellFormed(s) && WellFormed(before) && WellFormed(s')
    requires at < |s.view.surface| == |before.view.surface| == |s'.view.surface| && next == at + 1
    requires forall k :: 0 <= k < |s.view.surface| ==> PrunedAt(s, before, k, c, at)
    requires s'.events == before.events + [Stored(before, command)]
    requires forall k :: 0 <= k < |s'.view.surface| ==>
      s'.view.surface[k] == if k == at then |before.events| + 1 else before.view.surface[k]
    requires Prunable(s.events[s.view.surface[at] - 1], c)
    requires command == PruneCommand(s.events[s.view.surface[at] - 1], s.view.surface[at], c)
    ensures forall k :: 0 <= k < |s.view.surface| ==> PrunedAt(s, s', k, c, next)
  {
    hide Workable, Prunable, Distinct, PrunedBlocks;
    assert s.events[s.view.surface[at] - 1].kind.ToolResult? by {
      PrunableIsResult(s.events[s.view.surface[at] - 1], c);
    }
    forall k | 0 <= k < |s.view.surface|
      ensures PrunedAt(s, s', k, c, next)
    {
      assert PrunedAt(s, before, k, c, at);
    }
  }

  lemma PrunableIsResult(e: Event, c: Config)
    requires Workable(c) && Prunable(e, c)
    ensures e.kind.ToolResult?
  {
  }

  // ------------------------------------------------------------ pruning twice

  lemma PrunedBlockFits(b: Block, c: Config)
    requires Workable(c)
    ensures PrunedBlock(PrunedBlock(b, c), c) == PrunedBlock(b, c)
  {
    if b.ToolResultBlock? {
      PruneIsExact(b.content, c);
    }
  }

  lemma {:induction false} PrunedBlocksFit(blocks: seq<Block>, c: Config)
    requires Workable(c)
    ensures PrunedBlocks(PrunedBlocks(blocks, c), c) == PrunedBlocks(blocks, c)
  {
    if blocks != [] {
      var before, b := blocks[..|blocks| - 1], blocks[|blocks| - 1];
      PrunedBlocksFit(before, c);
      PrunedBlockFits(b, c);
      var p := PrunedBlocks(before, c);
      assert (p + [PrunedBlock(b, c)])[..|p|] == p;
    }
  }

  /** A pruned session has nothing left to prune. */
  lemma PruningTwiceDoesNothing(s: State, k: nat, c: Config)
    requires Workable(c) && WellFormed(s) && k < |s.view.surface|
    ensures var s' := Run(s, PruneCommands(s, s.view.surface, c));
            WellFormed(s') && k < |s'.view.surface| && !Prunable(s'.events[s'.view.surface[k] - 1], c)
  {
    hide Workable, Run, PruneCommands, PrunedBlocks, ResultChars, StateDeltas;
    var s' := Run(s, PruneCommands(s, s.view.surface, c));
    assert s.view.surface[..|s.view.surface|] == s.view.surface;
    PruneKeepsShape(s, |s.view.surface|, c);
    var e := s.events[s.view.surface[k] - 1];
    assert PrunedAt(s, s', k, c, |s.view.surface|);
    if Prunable(e, c) {
      PrunedBlocksFit(e.data.message.content, c);
    }
  }
}
