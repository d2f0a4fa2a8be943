/** What compacting the candidate region does, and when it does what it is for (compaction/basic.py). */
module CompactionLaws {
  import opened Prelude
  import opened Messages
  import opened Sessions
  import opened Pairing
  import opened Compaction

  // ------------------------------------------------------------------ committing a candidate

  /** No node from position n on is numbered between the two ends of the first n. */
  predicate NothingBehind(nodes: seq<int>, n: nat)
    requires 1 <= n <= |nodes|
  {
    forall m :: n <= m < |nodes| ==> !(nodes[0] <= nodes[m] <= nodes[n - 1])
  }

  /** A region whose first node carries the higher number is refused as empty. */
  lemma InvertedIsEmpty(nodes: seq<int>, n: nat)
    requires 1 <= n <= |nodes|
    ensures Between(nodes, nodes[0], nodes[n - 1]) == [] <==> nodes[0] > nodes[n - 1]
  {
    BetweenAll(nodes, nodes[0], nodes[n - 1]);
  }

  /** The run that is committed starts at the front and reaches at least to the candidate's end. */
  lemma CandidateEdges(nodes: seq<int>, n: nat) returns (last: nat)
    requires 1 <= n <= |nodes| && nodes[0] <= nodes[n - 1]
    ensures n - 1 <= last < |nodes| && Edges(nodes, nodes[0], nodes[n - 1], 0, last)
    ensures last == n - 1 <==> NothingBehind(nodes, n)
  {
    InvertedIsEmpty(nodes, n);
    var first;
    first, last := EdgesOf(nodes, nodes[0], nodes[n - 1]);
  }

  /** While nothing behind it is in range, a balanced candidate passes every check. */
  lemma CandidateIsAccepted(s: State, limit: nat, n: nat)
    requires WellFormed(s) && limit <= |s.view.surface| && NonNegative(StateDeltas(s))
    requires LongestBalanced(StateDeltas(s), limit, n)
    requires var nodes := s.view.surface; nodes[0] <= nodes[n - 1] && NothingBehind(nodes, n)
    ensures var nodes := s.view.surface;
            CheckedAs(s, nodes[0], nodes[n - 1], Ok(Between(nodes, nodes[0], nodes[n - 1])))
  {
    hide StateDeltas, NonNegative, Between, NothingBehind, Edges, CheckedAs;
    var nodes := s.view.surface;
    var last := CandidateEdges(nodes, n);
    InvertedIsEmpty(nodes, n);
    EdgesCheck(s, nodes[0], nodes[n - 1], 0, last, Ok(Between(nodes, nodes[0], nodes[n - 1])));
  }

  /** Committing the first n nodes replaces them by the checkpoint and leaves everything from position n on, the
      keep-recent nodes and what was appended meanwhile included, if and only if no node from position n on is
      numbered between the two ends. */
  lemma CandidateCommits(s: State, n: nat, during: seq<Command>, id: string, summary: string)
    requires WellFormed(s) && 1 <= n <= |s.view.surface|
    requires s.view.surface[0] <= s.view.surface[n - 1]
    requires forall i :: 0 <= i < |during| ==> !during[i].op.Replace?
    ensures Between(s.view.surface, s.view.surface[0], s.view.surface[n - 1]) != []
    ensures var nodes := s.view.surface;
            var recorded := Between(nodes, nodes[0], nodes[n - 1]);
            var s1 := Summarised(s, recorded, during);
            var s' := Committed(s, recorded, during, id, summary);
            && nodes <= s1.view.surface
            && (s'.view.surface == [s'.view.seqNo] + s1.view.surface[n..] <==> NothingBehind(nodes, n))
            && (|s'.view.surface| == |s1.view.surface| - (n - 1) <==> NothingBehind(nodes, n))
            && (NothingBehind(nodes, n) ==>
                  s'.view.replacements == s.view.replacements + [Replacement(s'.view.seqNo, nodes[..n])])
  {
    hide Between, WellFormed, NothingBehind, Summarised, Committed;
    var nodes := s.view.surface;
    var last := CandidateEdges(nodes, n);
    CommitIsPositional(s, nodes[0], nodes[n - 1], during, id, summary, 0, last);
    var recorded := Between(nodes, nodes[0], nodes[n - 1]);
    var s1, s' := Summarised(s, recorded, during), Committed(s, recorded, during, id, summary);
    hide Edges;
    FrontSplice(nodes, s1.view.surface, last, s'.view.seqNo);
    assert nodes[0..last + 1] == nodes[..last + 1];
  }

  lemma FrontSplice(a: seq<int>, b: seq<int>, last: nat, x: int)
    requires last < |a| && a <= b
    ensures Splice(a, 0, last, x) + b[|a|..] == [x] + b[last + 1..]
  {
    assert b == a + b[|a|..];
  }

  /** On an increasing surface nothing behind the candidate is ever in range, so the candidate's commit keeps
      the window it promises to keep, and records exactly what it shadows. */
  lemma IncreasingCandidate(nodes: seq<int>, n: nat)
    requires Increasing(nodes) && 1 <= n <= |nodes|
    ensures nodes[0] <= nodes[n - 1] && NothingBehind(nodes, n)
    ensures Between(nodes, nodes[0], nodes[n - 1]) == nodes[..n]
  {
    IncreasingRecordsTheRun(nodes, 0, n - 1);
    assert nodes[0..n] == nodes[..n];
  }

  /** The candidate is the first n nodes, and its compaction passes every check and records these. */
  ghost predicate Candidate(s: State, keepRecent: nat, n: nat, recorded: seq<int>)
    requires WellFormed(s)
  {
    var nodes := s.view.surface;
    && NonNegative(StateDeltas(s)) && LongestBalanced(StateDeltas(s), Limit(nodes, keepRecent), n)
    && 2 <= Limit(nodes, keepRecent) && CheckedAs(s, nodes[0], nodes[n - 1], Ok(recorded))
  }

  // ------------------------------------------------------------------ a pruned result in the candidate

  function Say(): Command {
    Command(UserMessage, OtherData(0), AppendOp, [])
  }

  const SOURCE := Source("model", "", "", "", "", "", None, None)

  function Ask(): Command {
    Command(AssistantMessage, MessageData(Message("m", "assistant", [ToolCallBlock("c", "read", "{}")], SOURCE)),
      AppendOp, [])
  }

  function Answer(): Command {
    Command(ToolResult, OtherData(0), AppendOp, [])
  }

  /** Event 6 stands on the surface for the tool result 3. */
  function Prune(): Command {
    Answer().(op := Replace(3, 3))
  }

  /** A user, an assistant asking for one call, its result, two more users, then the result pruned. */
  function PrunedRun(): seq<Command> {
    [Say(), Ask(), Answer(), Say(), Say(), Prune()]
  }

  lemma Harmless()
    ensures forall c :: c in [Say(), Ask(), Answer()] ==> IsSurface(c.kind) && !c.data.LossyData? && !c.op.Replace?
  {
  }

  lemma ThreeAppended() returns (s: State)
    ensures WellFormed(s) && s.view.surface == [1, 2, 3] && s.view.seqNo == 3
    ensures s == Run(EMPTY, [Say(), Ask(), Answer()])
    ensures |s.events| == 3 && StateDeltas(s) == [0, 1, -1]
  {
    hide WellFormed, AppendStep, Run, StateDeltas, Delta, Say, Ask, Answer, WeightOf;
    EmptyIsWellFormed();
    s := EMPTY;
    RunNone();
    Weights();
    Harmless();
    Three(Say(), Ask(), Answer());
    Three(1, 2, 3);
    Three(0, 1, -1);
    s := OneMore(s, [], Say());
    s := OneMore(s, [Say()], Ask());
    s := OneMore(s, [Say(), Ask()], Answer());
  }

  lemma Three<T>(a: T, b: T, c: T)
    ensures [] + [a] == [a] && [a] + [b] == [a, b] && [a, b] + [c] == [a, b, c]
  {
  }

  lemma FiveAppended() returns (s: State)
    ensures WellFormed(s) && s.view.surface == [1, 2, 3, 4, 5] && s.view.seqNo == 5
    ensures s == Run(EMPTY, [Say(), Ask(), Answer(), Say(), Say()])
    ensures |s.events| == 5 && StateDeltas(s) == [0, 1, -1, 0, 0]
  {
    hide WellFormed, AppendStep, Run, StateDeltas, Delta, Say, Ask, Answer, WeightOf;
    s := ThreeAppended();
    Weights();
    Harmless();
    assert [Say(), Ask(), Answer()] + [Say()] == [Say(), Ask(), Answer(), Say()];
    s := OneMore(s, [Say(), Ask(), Answer()], Say());
    assert [Say(), Ask(), Answer(), Say()] + [Say()] == [Say(), Ask(), Answer(), Say(), Say()];
    s := OneMore(s, [Say(), Ask(), Answer(), Say()], Say());
  }

  lemma RunNone()
    ensures Run(EMPTY, []) == EMPTY && StateDeltas(EMPTY) == []
  {
  }

  lemma Placed(s: State)
    requires WellFormed(s)
    ensures InLog(s.events, s.view.surface)
  {
  }

  lemma EmptyIsWellFormed()
    ensures WellFormed(EMPTY)
  {
  }

  /** One more surface event, at the end of log and surface. */
  lemma OneMore(s: State, cs: seq<Command>, c: Command) returns (s': State)
    requires WellFormed(s) && s == Run(EMPTY, cs) && IsSurface(c.kind)
    requires !c.data.LossyData? && !c.op.Replace?
    ensures WellFormed(s') && s' == Run(EMPTY, cs + [c])
    ensures s'.view.surface == s.view.surface + [s.view.seqNo + 1] && s'.view.seqNo == s.view.seqNo + 1
    ensures |s'.events| == |s.events| + 1
    ensures StateDeltas(s') == StateDeltas(s) + [WeightOf(c)]
  {
    hide Delta;
    s' := Append(s, c);
    RunSnoc(EMPTY, cs, c);
    AppendWellFormed(s, c);
    Weighed(s, c);
    assert s' == Surfaced(s, c);
  }

  function WeightOf(c: Command): int {
    Delta(Event(c.kind, 0, c.data, c.op, c.sources))
  }

  lemma Weighed(s: State, c: Command)
    ensures Delta(Stored(s, c)) == WeightOf(c)
  {
  }

  lemma Weights()
    ensures WeightOf(Say()) == 0 && WeightOf(Ask()) == 1 && WeightOf(Answer()) == -1 && WeightOf(Prune()) == -1
  {
    var b := ToolCallBlock("c", "read", "{}");
    assert [b][..0] == [];
    assert CountCalls([b]) == 1;
  }

  /** With two nodes to keep, the candidate of this surface is [1, 2, 6], every check passes, and committing it
      shadows all five nodes, the two it should have kept among them. */
  lemma PrunedResultTakesTheWindow(id: string, summary: string) returns (s: State)
    ensures s == Run(EMPTY, PrunedRun()) && WellFormed(s)
    ensures s.view.surface == [1, 2, 6, 4, 5] && Candidate(s, 2, 3, [1, 2, 6, 4, 5])
    ensures var s' := Committed(s, [1, 2, 6, 4, 5], [], id, summary);
            s'.view.surface == [s'.view.seqNo]
  {
    hide WellFormed, AppendStep, Run, StateDeltas, Delta, Committed, CheckedAs, Between, Summarised;
    var s5 := FiveAppended();
    assert [Say(), Ask(), Answer(), Say(), Say()] + [Prune()] == PrunedRun();
    RunSnoc(EMPTY, [Say(), Ask(), Answer(), Say(), Say()], Prune());
    s := PrunedBy(s5);
    Placed(s);
    var nodes, ds := s.view.surface, StateDeltas(s);
    Counts(ds);
    BetweenAll(nodes, 1, 6);
    assert Between(nodes, 1, 6) == nodes;
    assert Edges(nodes, 1, 6, 0, 4);
    EdgesCheck(s, 1, 6, 0, 4, Ok(nodes));
    CommitIsPositional(s, 1, 6, [], id, summary, 0, 4);
    NothingMeanwhile(s, nodes);
  }

  lemma NothingMeanwhile(s: State, recorded: seq<int>)
    requires recorded != []
    ensures Summarised(s, recorded, []).view.surface == s.view.surface
  {
  }

  lemma PrunedBy(s5: State) returns (s: State)
    requires WellFormed(s5) && s5.view.surface == [1, 2, 3, 4, 5] && s5.view.seqNo == 5
    requires StateDeltas(s5) == [0, 1, -1, 0, 0]
    ensures s == Append(s5, Prune()) && WellFormed(s) && s.view.surface == [1, 2, 6, 4, 5]
    ensures StateDeltas(s) == [0, 1, -1, 0, 0]
  {
    hide AppendStep, Delta, StateDeltas;
    s := Append(s5, Prune());
    AppendReplacing(s5, Prune(), 2, 2);
    AppendWellFormed(s5, Prune());
    DeltasOfSplice(s5, Prune(), 2, 2);
    Weights();
    Weighed(s5, Prune());
  }

  lemma Counts(ds: seq<int>)
    requires ds == [0, 1, -1, 0, 0]
    ensures Outstanding(ds, 0) == 0 && Outstanding(ds, 1) == 0 && Outstanding(ds, 2) == 1 && Outstanding(ds, 3) == 0
    ensures Outstanding(ds, 4) == 0 && Outstanding(ds, 5) == 0 && NonNegative(ds)
  {
    OutstandingStep(ds, 0);
    OutstandingStep(ds, 1);
    OutstandingStep(ds, 2);
    OutstandingStep(ds, 3);
    OutstandingStep(ds, 4);
  }

  // ------------------------------------------------------------------ the compaction after that

  /** Appends without replacements put rising numbers, all above the old ones, at the end of the surface. */
  lemma {:induction false} AppendsRise(s: State, cs: seq<Command>)
    requires WellFormed(s) && forall i :: 0 <= i < |cs| ==> !cs[i].op.Replace?
    ensures var s' := Run(s, cs);
            && WellFormed(s') && Extends(s, s') && s.view.seqNo <= s'.view.seqNo
            && Rises(s'.view.surface[|s.view.surface|..], s.view.seqNo, s'.view.seqNo)
  {
    hide WellFormed, AppendStep;
    if cs != [] {
      var mid, c := Run(s, cs[..|cs| - 1]), cs[|cs| - 1];
      AppendsRise(s, cs[..|cs| - 1]);
      AppendExtends(mid, c);
      AppendRises(s, mid, c);
    }
  }

  /** Increasing, above lo and not above hi. */
  ghost predicate Rises(nodes: seq<int>, lo: int, hi: int) {
    Increasing(nodes) && forall i :: 0 <= i < |nodes| ==> lo < nodes[i] <= hi
  }

  lemma AppendRises(s: State, mid: State, c: Command)
    requires !c.op.Replace? && s.view.surface <= mid.view.surface && s.view.seqNo <= mid.view.seqNo
    requires Rises(mid.view.surface[|s.view.surface|..], s.view.seqNo, mid.view.seqNo)
    ensures var s' := Append(mid, c);
            && s.view.surface <= s'.view.surface && s.view.seqNo <= s'.view.seqNo
            && Rises(s'.view.surface[|s.view.surface|..], s.view.seqNo, s'.view.seqNo)
  {
    var s' := Append(mid, c);
    var n := |s.view.surface|;
    if s'.view.surface != mid.view.surface {
      assert s'.view.surface == mid.view.surface + [mid.view.seqNo + 1];
      assert s'.view.surface[n..] == mid.view.surface[n..] + [mid.view.seqNo + 1];
    }
  }

  /** Compacting a candidate of an increasing surface, whatever is appended meanwhile and afterwards, leaves the
      checkpoint in front of an increasing rest. The checkpoint is older than its neighbour exactly when the
      candidate was the whole surface and nothing joined it meanwhile. */
  lemma CheckpointThenIncreasing(s: State, n: nat, during: seq<Command>, id: string, summary: string,
                                 later: seq<Command>)
    requires WellFormed(s) && Increasing(s.view.surface) && 1 <= n <= |s.view.surface|
    requires forall i :: 0 <= i < |during| ==> !during[i].op.Replace?
    requires forall i :: 0 <= i < |later| ==> !later[i].op.Replace?
    ensures var s1 := Summarised(s, s.view.surface[..n], during);
            var s' := Committed(s, s.view.surface[..n], during, id, summary);
            var t := Run(Append(s', EndCommand(false)), later);
            && WellFormed(t) && |t.view.surface| >= 1 && t.view.surface[0] == s'.view.seqNo
            && n <= |s1.view.surface| && Increasing(t.view.surface[1..])
            && s1.view.surface[n..] <= t.view.surface[1..]
            && (|t.view.surface| > 1 ==> (t.view.surface[0] <= t.view.surface[1] <==> |s1.view.surface| == n))
  {
    hide WellFormed, AppendStep, Between, Run, Summarised, Committed, NothingBehind;
    var nodes := s.view.surface;
    IncreasingCandidate(nodes, n);
    CandidateCommits(s, n, during, id, summary);
    var s1, s' := Summarised(s, nodes[..n], during), Committed(s, nodes[..n], during, id, summary);
    CommittedNumbers(s, n, during, id, summary);
    var u := Append(s', EndCommand(false));
    EndAdds(s');
    AppendsRise(u, later);
    var t := Run(u, later);
    var ext := t.view.surface[|u.view.surface|..];
    assert t.view.surface == [s'.view.seqNo] + (s1.view.surface[n..] + ext);
    BothRise(s1.view.surface[n..], ext, s'.view.seqNo, u.view.seqNo, t.view.seqNo);
  }

  lemma BothRise(a: seq<int>, b: seq<int>, x: int, lo: int, hi: int)
    requires Increasing(a) && (forall i :: 0 <= i < |a| ==> a[i] < x) && x <= lo && Rises(b, lo, hi)
    ensures Increasing(a + b)
    ensures a + b != [] ==> (x <= (a + b)[0] <==> a == [])
  {
  }

  lemma EndAdds(s: State)
    requires WellFormed(s)
    ensures var u := Append(s, EndCommand(false));
            WellFormed(u) && u.view.surface == s.view.surface && u.view.seqNo == s.view.seqNo + 1
  {
    AppendWellFormed(s, EndCommand(false));
  }

  /** The checkpoint is numbered above everything on the surface it replaced part of. */
  lemma CommittedNumbers(s: State, n: nat, during: seq<Command>, id: string, summary: string)
    requires WellFormed(s) && Increasing(s.view.surface) && 1 <= n <= |s.view.surface|
    requires forall i :: 0 <= i < |during| ==> !during[i].op.Replace?
    ensures var s1 := Summarised(s, s.view.surface[..n], during);
            var s' := Committed(s, s.view.surface[..n], during, id, summary);
            && WellFormed(s') && s.view.surface <= s1.view.surface && Increasing(s1.view.surface[n..])
            && forall i :: n <= i < |s1.view.surface| ==> s1.view.surface[i] < s'.view.seqNo
  {
    hide AppendStep, Run, Between, WellFormed, NothingBehind, Edges, Summarised;
    var nodes := s.view.surface;
    IncreasingCandidate(nodes, n);
    var last := CandidateEdges(nodes, n);
    CommittedIsReplaced(s, nodes[0], nodes[n - 1], during, id, summary, 0, last);
    SummarisedRises(s, n, during);
    var s1 := Summarised(s, nodes[..n], during);
    var s2 := Append(s1, SummaryCommand(nodes[..n]));
    AppendWellFormed(s2, CheckpointCommand(id, summary, s.view.seqNo + 1, s2.view.seqNo, nodes[..n]));
  }

  lemma SummarisedRises(s: State, n: nat, during: seq<Command>)
    requires WellFormed(s) && Increasing(s.view.surface) && 1 <= n <= |s.view.surface|
    requires forall i :: 0 <= i < |during| ==> !during[i].op.Replace?
    ensures var s1 := Summarised(s, s.view.surface[..n], during);
            && s.view.surface <= s1.view.surface && Increasing(s1.view.surface[n..])
            && forall i :: n <= i < |s1.view.surface| ==> s1.view.surface[i] <= s1.view.seqNo
  {
    hide AppendStep, Run, Distinct;
    var nodes := s.view.surface;
    StartAdds(s, nodes[..n]);
    var u := Append(s, StartCommand(nodes[..n]));
    AppendsRise(u, during);
    var s1 := Run(u, during);
    assert forall i :: 0 <= i < |nodes| ==> nodes[i] <= u.view.seqNo;
    hide WellFormed;
    RiseTogether(nodes, s1.view.surface[|nodes|..], n, u.view.seqNo, s1.view.seqNo);
    assert s1.view.surface == nodes + s1.view.surface[|nodes|..];
  }

  lemma RiseTogether(a: seq<int>, b: seq<int>, n: nat, lo: int, hi: int)
    requires Increasing(a) && n <= |a| && (forall i :: 0 <= i < |a| ==> a[i] <= lo) && lo <= hi && Rises(b, lo, hi)
    ensures Increasing((a + b)[n..]) && forall i :: 0 <= i < |a + b| ==> (a + b)[i] <= hi
  {
  }

  lemma StartAdds(s: State, recorded: seq<int>)
    requires WellFormed(s) && recorded != []
    ensures var u := Append(s, StartCommand(recorded));
            WellFormed(u) && u.view.surface == s.view.surface && u.view.seqNo == s.view.seqNo + 1
  {
    AppendWellFormed(s, StartCommand(recorded));
  }

  /** The next compaction, of a region from the front of what such a run leaves behind: what it records is what
      it shadows if and only if the first compaction took the whole surface and nothing joined it meanwhile. */
  lemma SecondRecordsExactly(s: State, n: nat, during: seq<Command>, id: string, summary: string, later: seq<Command>,
                             k: nat, last: nat)
    requires WellFormed(s) && Increasing(s.view.surface) && 1 <= n <= |s.view.surface|
    requires forall i :: 0 <= i < |during| ==> !during[i].op.Replace?
    requires forall i :: 0 <= i < |later| ==> !later[i].op.Replace?
    requires var done := Committed(s, s.view.surface[..n], during, id, summary);
             var nodes := Run(Append(done, EndCommand(false)), later).view.surface;
             1 <= k < |nodes| && Edges(nodes, nodes[0], nodes[k], 0, last)
    ensures var done := Committed(s, s.view.surface[..n], during, id, summary);
            var nodes := Run(Append(done, EndCommand(false)), later).view.surface;
            Between(nodes, nodes[0], nodes[k]) == nodes[..last + 1] <==>
            |Summarised(s, s.view.surface[..n], during).view.surface| == n
  {
    hide WellFormed, Between, Run, Summarised, Committed;
    CheckpointThenIncreasing(s, n, during, id, summary, later);
    var done := Committed(s, s.view.surface[..n], during, id, summary);
    var nodes := Run(Append(done, EndCommand(false)), later).view.surface;
    FrontRecorded(nodes, k, last);
  }

  lemma FrontRecorded(nodes: seq<int>, k: nat, last: nat)
    requires 1 <= k < |nodes| && Increasing(nodes[1..]) && Edges(nodes, nodes[0], nodes[k], 0, last)
    ensures Between(nodes, nodes[0], nodes[k]) == nodes[..last + 1] <==> nodes[0] <= nodes[1]
  {
    hide Between;
    RecordedIsShadowed(nodes, nodes[0], nodes[k], 0, last);
    assert nodes[0..last + 1] == nodes[..last + 1];
    if nodes[0] <= nodes[1] {
      forall m | 0 <= m <= last
        ensures nodes[0] <= nodes[m] <= nodes[k]
      {
        if m > 0 {
          assert nodes[1..][0] <= nodes[1..][m - 1] <= nodes[1..][last - 1];
        }
      }
    } else {
      assert k <= last;
    }
  }

  /** Three users, one node to keep. The first compaction takes nodes 1 and 2; two more users follow; the second
      takes the region from its checkpoint 6 to node 8, passes every check, records 6 and 8, and shadows 6, 3
      and 8: node 3 is gone from the surface and was never summarised. */
  lemma SecondCompactionDropsANode(id: string, summary: string) returns (s: State, t: State)
    ensures s == Run(EMPTY, [Say(), Say(), Say()]) && WellFormed(s) && s.view.surface == [1, 2, 3]
    ensures Candidate(s, 1, 2, [1, 2])
    ensures t == Run(Append(Committed(s, [1, 2], [], id, summary), EndCommand(false)), [Say(), Say()])
    ensures WellFormed(t) && t.view.surface == [6, 3, 8, 9] && Candidate(t, 1, 3, [6, 8])
    ensures var t' := Committed(t, [6, 8], [], id, summary);
            && t'.view.surface == [t'.view.seqNo, 9] && t'.view.replacements != []
            && t'.view.replacements[|t'.view.replacements| - 1].shadowed == [6, 3, 8]
            && SummaryCommand([6, 8]).data == NodesData([6, 8])
  {
    hide WellFormed, AppendStep, Run, StateDeltas, Delta, Committed, Candidate, Summarised;
    s := ThreeSaid();
    FirstTakesTwo(s);
    t := AfterFirst(s, id, summary);
    SecondDrops(t, id, summary);
  }

  lemma ThreeSaid() returns (s: State)
    ensures s == Run(EMPTY, [Say(), Say(), Say()]) && WellFormed(s)
    ensures s.view.surface == [1, 2, 3] && s.view.seqNo == 3 && StateDeltas(s) == [0, 0, 0]
  {
    hide WellFormed, AppendStep, Run, StateDeltas, Delta, Say, WeightOf;
    EmptyIsWellFormed();
    RunNone();
    Weights();
    Harmless();
    Three(Say(), Say(), Say());
    Three(1, 2, 3);
    Three(0, 0, 0);
    s := OneMore(EMPTY, [], Say());
    s := OneMore(s, [Say()], Say());
    s := OneMore(s, [Say(), Say()], Say());
    Placed(s);
  }

  lemma FirstTakesTwo(s: State)
    requires WellFormed(s) && s.view.surface == [1, 2, 3] && StateDeltas(s) == [0, 0, 0]
    ensures Candidate(s, 1, 2, [1, 2])
  {
    hide WellFormed, StateDeltas, CheckedAs, Between, NothingBehind;
    Placed(s);
    Flat(StateDeltas(s));
    IncreasingCandidate(s.view.surface, 2);
    CandidateIsAccepted(s, 2, 2);
    assert s.view.surface[..2] == [1, 2];
  }

  lemma SecondDrops(t: State, id: string, summary: string)
    requires WellFormed(t) && t.view.surface == [6, 3, 8, 9] && StateDeltas(t) == [0, 0, 0, 0]
    ensures Candidate(t, 1, 3, [6, 8])
    ensures var t' := Committed(t, [6, 8], [], id, summary);
            && t'.view.surface == [t'.view.seqNo, 9] && t'.view.replacements != []
            && t'.view.replacements[|t'.view.replacements| - 1].shadowed == [6, 3, 8]
  {
    hide WellFormed, AppendStep, Run, StateDeltas, Delta, Committed, CheckedAs, Between, Summarised, NothingBehind,
         Edges;
    Placed(t);
    Flat(StateDeltas(t));
    SixToEight(t.view.surface);
    EdgesCheck(t, 6, 8, 0, 2, Ok([6, 8]));
    CommitIsPositional(t, 6, 8, [], id, summary, 0, 2);
    NothingMeanwhile(t, [6, 8]);
    assert t.view.surface[0..3] == [6, 3, 8];
  }

  lemma SixToEight(nodes: seq<int>)
    requires nodes == [6, 3, 8, 9]
    ensures Between(nodes, 6, 8) == [6, 8] && Edges(nodes, 6, 8, 0, 2)
  {
    assert nodes == [6, 3] + [8, 9];
    BetweenConcat([6, 3], [8, 9], 6, 8);
    assert [6, 3][..1] == [6] && [8, 9][..1] == [8];
    assert Between([6, 3], 6, 8) == [6] && Between([8, 9], 6, 8) == [8];
  }

  lemma Flat(ds: seq<int>)
    requires forall i :: 0 <= i < |ds| ==> ds[i] == 0
    ensures forall k :: 0 <= k <= |ds| ==> Outstanding(ds, k) == 0
  {
    forall k | 0 <= k <= |ds|
      ensures Outstanding(ds, k) == 0
    {
      FlatTo(ds, k);
    }
  }

  lemma {:induction false} FlatTo(ds: seq<int>, k: nat)
    requires k <= |ds| && forall i :: 0 <= i < |ds| ==> ds[i] == 0
    ensures Outstanding(ds, k) == 0
  {
    if k > 0 {
      FlatTo(ds, k - 1);
      OutstandingStep(ds, k - 1);
    }
  }

  lemma AfterFirst(s: State, id: string, summary: string) returns (t: State)
    requires WellFormed(s) && s.view.surface == [1, 2, 3] && s.view.seqNo == 3 && StateDeltas(s) == [0, 0, 0]
    ensures t == Run(Append(Committed(s, [1, 2], [], id, summary), EndCommand(false)), [Say(), Say()])
    ensures WellFormed(t) && t.view.surface == [6, 3, 8, 9] && StateDeltas(t) == [0, 0, 0, 0]
  {
    hide WellFormed, AppendStep, Run, StateDeltas, Delta, Between, NothingBehind, Edges, Committed, Summarised;
    Placed(s);
    Flat(StateDeltas(s));
    assert s.view.surface[..2] == [1, 2];
    IncreasingCandidate(s.view.surface, 2);
    CandidateCommits(s, 2, [], id, summary);
    FirstNumbers(s, id, summary);
    var s' := Committed(s, [1, 2], [], id, summary);
    EndAdds(s');
    EndWeighs(s');
    var u := Append(s', EndCommand(false));
    var u1 := Append(u, Say());
    SayAdds(u);
    SayAdds(u1);
    t := Append(u1, Say());
    TwoMore(u, Say(), Say());
  }

  lemma TwoMore(s: State, a: Command, b: Command)
    ensures Run(s, [a, b]) == Append(Append(s, a), b)
  {
    assert [a, b][..1] == [a] && [a][..0] == [];
    assert Run(s, []) == s && Run(s, [a]) == Append(s, a);
  }

  lemma SayAdds(s: State)
    requires WellFormed(s)
    ensures var s' := Append(s, Say());
            && WellFormed(s') && s'.view.surface == s.view.surface + [s.view.seqNo + 1]
            && s'.view.seqNo == s.view.seqNo + 1 && StateDeltas(s') == StateDeltas(s) + [0]
  {
    hide Delta;
    AppendWellFormed(s, Say());
    Weights();
    Weighed(s, Say());
  }

  lemma EndWeighs(s: State)
    requires WellFormed(s) && WellFormed(Append(s, EndCommand(false)))
    requires Append(s, EndCommand(false)).view.surface == s.view.surface
    ensures StateDeltas(Append(s, EndCommand(false))) == StateDeltas(s)
  {
    hide Delta;
    DeltasStable(s.events, Stored(s, EndCommand(false)), s.view.surface);
    AppendLogOnly(s, EndCommand(false));
  }

  /** Start 4, summary 5, checkpoint 6. */
  lemma FirstNumbers(s: State, id: string, summary: string)
    requires WellFormed(s) && s.view.surface == [1, 2, 3] && s.view.seqNo == 3 && StateDeltas(s) == [0, 0, 0]
    ensures var s' := Committed(s, [1, 2], [], id, summary);
            WellFormed(s') && s'.view.seqNo == 6 && s'.view.surface == [6, 3] && StateDeltas(s') == [0, 0]
  {
    hide WellFormed, AppendStep, Run, StateDeltas, Delta, Between, NothingBehind, Committed, Summarised, Edges,
         KeepsCuts, NonNegative, Outstanding;
    Placed(s);
    FlatEdges(StateDeltas(s));
    IncreasingCandidate(s.view.surface, 2);
    assert s.view.surface[..2] == [1, 2];
    var last := CandidateEdges(s.view.surface, 2);
    CommittedIsReplaced(s, 1, 2, [], id, summary, 0, last);
    CommitKeepsPairing(s, 1, 2, [], id, summary, 0, last);
    CountedNumbers(s);
  }

  lemma FlatEdges(ds: seq<int>)
    requires ds == [0, 0, 0]
    ensures Outstanding(ds, 0) == 0 && Outstanding(ds, 2) == 0
  {
    Flat(ds);
  }

  lemma CountedNumbers(s: State)
    requires WellFormed(s) && StateDeltas(s) == [0, 0, 0]
    ensures var s1 := Summarised(s, [1, 2], []);
            && WellFormed(s1) && s1.view.seqNo == s.view.seqNo + 1 && s1.view.surface == s.view.surface
            && StateDeltas(s1) == [0, 0, 0]
  {
    hide Delta;
    StartAdds(s, [1, 2]);
    DeltasStable(s.events, Stored(s, StartCommand([1, 2])), s.view.surface);
    AppendLogOnly(s, StartCommand([1, 2]));
  }
}
