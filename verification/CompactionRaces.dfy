/** What others do to the surface while a compaction waits for its summary (compaction/basic.py). */
module CompactionRaces {
  import opened Prelude
  import opened Sessions
  import opened Pairing
  import opened Compaction

  // ------------------------------------------------------------------ where a node stands

  /** A splice keeps the nodes outside the run, in their order, and drops those inside. */
  lemma SpliceIndex(nodes: seq<int>, first: nat, last: nat, x: int, a: int)
    requires first <= last < |nodes| && Distinct(nodes) && x !in nodes && a != x
    ensures var nodes', i := Splice(nodes, first, last, x), IndexOf(nodes, a);
            && (a in nodes' <==> a in nodes && !(first <= i <= last))
            && (a in nodes' ==> IndexOf(nodes', a) == if i < first then i else i - (last - first))
  {
    hide IndexOf, Distinct;
    var nodes', i := Splice(nodes, first, last, x), IndexOf(nodes, a);
    SpliceDistinct(nodes, first, last, x);
    SpliceAt(nodes, first, last, x);
    if a in nodes && i < first {
      assert nodes'[i] == a;
      IndexOfDistinct(nodes', i);
    } else if a in nodes && i > last {
      assert nodes'[i - (last - first)] == a;
      IndexOfDistinct(nodes', i - (last - first));
    } else if a in nodes' {
      Dropped(nodes, first, last, x, a, IndexOf(nodes', a));
    }
  }

  lemma Dropped(nodes: seq<int>, first: nat, last: nat, x: int, a: int, j: nat)
    requires first <= last < |nodes| && Distinct(nodes) && a != x
    requires j < |Splice(nodes, first, last, x)| && Splice(nodes, first, last, x)[j] == a
    ensures a in nodes && !(first <= IndexOf(nodes, a) <= last)
  {
    hide IndexOf, Distinct;
    SpliceAt(nodes, first, last, x);
    var k := if j < first then j else j + last - first;
    assert nodes[k] == a;
    IndexOfDistinct(nodes, k);
  }

  /** Two logged nodes that are both still there stand in this order. */
  ghost predicate InOrder(s: State, a: int, b: int) {
    && a <= s.view.seqNo && b <= s.view.seqNo
    && (a in s.view.surface && b in s.view.surface ==> NamesRun(s.view.surface, a, b))
  }

  lemma ReplacedKeepsOrder(s: State, c: Command, first: nat, last: nat, a: int, b: int)
    requires WellFormed(s) && InOrder(s, a, b) && first <= last < |s.view.surface|
    ensures InOrder(Replaced(s, c, first, last), a, b)
    ensures var nodes := Replaced(s, c, first, last).view.surface;
            (a in nodes ==> a in s.view.surface) && (b in nodes ==> b in s.view.surface)
  {
    var nodes, x := s.view.surface, s.view.seqNo + 1;
    assert Replaced(s, c, first, last).view.surface == Splice(nodes, first, last, x);
    assert Distinct(nodes) && x !in nodes;
    hide WellFormed, Splice, IndexOf, Distinct, Replaced;
    SpliceIndex(nodes, first, last, x, a);
    SpliceIndex(nodes, first, last, x, b);
  }

  /** No append changes the order of two nodes, and none brings a node back. */
  lemma AppendKeepsOrder(s: State, c: Command, a: int, b: int)
    requires WellFormed(s) && InOrder(s, a, b)
    ensures WellFormed(Append(s, c)) && InOrder(Append(s, c), a, b)
    ensures var nodes := Append(s, c).view.surface;
            (a in nodes ==> a in s.view.surface) && (b in nodes ==> b in s.view.surface)
  {
    hide WellFormed, InOrder, IndexOf, Replaced;
    AppendWellFormed(s, c);
    var surface := s.view.surface;
    if Append(s, c) == s {
    } else if c.op.Replace? && NamesRun(surface, c.op.start, c.op.end) {
      ReplacedKeepsOrder(s, c, IndexOf(surface, c.op.start), IndexOf(surface, c.op.end), a, b);
    } else if c.op.Replace? || !IsSurface(c.kind) {
      LoggedKeepsOrder(s, c, a, b);
    } else {
      SurfacedKeepsOrder(s, c, a, b);
    }
  }

  lemma LoggedKeepsOrder(s: State, c: Command, a: int, b: int)
    requires InOrder(s, a, b)
    ensures InOrder(Logged(s, c), a, b)
  {
  }

  lemma SurfacedKeepsOrder(s: State, c: Command, a: int, b: int)
    requires InOrder(s, a, b)
    ensures InOrder(Surfaced(s, c), a, b)
    ensures var nodes := Surfaced(s, c).view.surface;
            (a in nodes ==> a in s.view.surface) && (b in nodes ==> b in s.view.surface)
  {
    hide IndexOf;
    SurfacedIndex(s.view.surface, s.view.seqNo + 1, a);
    SurfacedIndex(s.view.surface, s.view.seqNo + 1, b);
  }

  lemma SurfacedIndex(nodes: seq<int>, x: int, a: int)
    requires a != x
    ensures a in nodes + [x] <==> a in nodes
    ensures a in nodes ==> IndexOf(nodes + [x], a) == IndexOf(nodes, a)
  {
    if a in nodes {
      var i := IndexOf(nodes + [x], a);
      assert (nodes + [x])[IndexOf(nodes, a)] == a;
      assert (nodes + [x])[i] == nodes[i];
    }
  }

  lemma {:induction false} RunKeepsOrder(s: State, cs: seq<Command>, a: int, b: int)
    requires WellFormed(s) && InOrder(s, a, b)
    ensures WellFormed(Run(s, cs)) && InOrder(Run(s, cs), a, b)
    ensures var nodes := Run(s, cs).view.surface;
            (a in nodes ==> a in s.view.surface) && (b in nodes ==> b in s.view.surface)
  {
    hide WellFormed, InOrder, Append;
    if cs != [] {
      RunKeepsOrder(s, cs[..|cs| - 1], a, b);
      AppendKeepsOrder(Run(s, cs[..|cs| - 1]), cs[|cs| - 1], a, b);
    }
  }

  // ------------------------------------------------------------------ when the checkpoint commits

  /** Both ends of the region are on the surface. */
  predicate EndsStand(surface: seq<int>, recorded: seq<int>)
    requires recorded != []
  {
    recorded[0] in surface && recorded[|recorded| - 1] in surface
  }

  lemma RecordedInOrder(s: State, start: int, end: int)
    requires WellFormed(s) && Between(s.view.surface, start, end) != []
    ensures var r := Between(s.view.surface, start, end);
            EndsStand(s.view.surface, r) && InOrder(s, r[0], r[|r| - 1])
  {
    var first, last := EdgesOf(s.view.surface, start, end);
    IndexOfDistinct(s.view.surface, first);
    IndexOfDistinct(s.view.surface, last);
  }

  lemma SummarisedKeepsOrder(s: State, start: int, end: int, during: seq<Command>)
    requires WellFormed(s) && Between(s.view.surface, start, end) != []
    ensures var r := Between(s.view.surface, start, end);
            WellFormed(Summarised(s, r, during)) && InOrder(Summarised(s, r, during), r[0], r[|r| - 1])
  {
    hide WellFormed, InOrder, Append, Run, Between;
    var r := Between(s.view.surface, start, end);
    RecordedInOrder(s, start, end);
    AppendKeepsOrder(s, StartCommand(r), r[0], r[|r| - 1]);
    RunKeepsOrder(Append(s, StartCommand(r)), during, r[0], r[|r| - 1]);
  }

  /** Whatever others append or replace while the summary is written, the checkpoint takes the place of what then
      stands from one end of the region to the other if and only if both ends are still on the surface. When one
      is not, the checkpoint is in the log and the surface is as the others left it. */
  lemma CheckpointCommits(s: State, start: int, end: int, during: seq<Command>, id: string, summary: string)
    requires WellFormed(s) && Between(s.view.surface, start, end) != []
    ensures var r := Between(s.view.surface, start, end);
            var surface := Summarised(s, r, during).view.surface;
            var done := Committed(s, r, during, id, summary);
            && WellFormed(done) && |done.events| == |Summarised(s, r, during).events| + 2
            && (NamesRun(surface, r[0], r[|r| - 1]) <==> EndsStand(surface, r))
            && (NamesRun(surface, r[0], r[|r| - 1]) ==>
                  done.view.surface ==
                  Splice(surface, IndexOf(surface, r[0]), IndexOf(surface, r[|r| - 1]), done.view.seqNo))
            && (!EndsStand(surface, r) ==> done.view.surface == surface)
  {
    hide WellFormed, AppendStep, Run, Between;
    var r := Between(s.view.surface, start, end);
    SummarisedKeepsOrder(s, start, end, during);
    var s1 := Summarised(s, r, during);
    AppendLogOnly(s1, SummaryCommand(r));
    AppendWellFormed(s1, SummaryCommand(r));
    var s2 := Append(s1, SummaryCommand(r));
    CheckpointStep(s2, id, summary, s.view.seqNo + 1, s2.view.seqNo, r);
    AppendWellFormed(s2, CheckpointCommand(id, summary, s.view.seqNo + 1, s2.view.seqNo, r));
  }

  lemma {:induction false} RunConcat(s: State, a: seq<Command>, b: seq<Command>)
    ensures Run(s, a + b) == Run(Run(s, a), b)
  {
    if b == [] {
      assert a + b == a;
    } else {
      hide Append;
      assert (a + b)[..|a + b| - 1] == a + b[..|b| - 1];
      RunConcat(s, a, b[..|b| - 1]);
    }
  }

  /** All that a compaction and the others append until the summary arrives. */
  function UntilSummary(cs: seq<Command>, recorded: seq<int>, during: seq<Command>): seq<Command>
    requires recorded != []
  {
    cs + [StartCommand(recorded)] + during
  }

  lemma UntilSummaryRuns(cs: seq<Command>, recorded: seq<int>, during: seq<Command>)
    requires recorded != []
    ensures Run(EMPTY, UntilSummary(cs, recorded, during)) == Summarised(Run(EMPTY, cs), recorded, during)
  {
    hide Append, Run;
    RunConcat(EMPTY, cs + [StartCommand(recorded)], during);
    RunSnoc(EMPTY, cs, StartCommand(recorded));
  }

  lemma AllNamedSnoc(cs: seq<Command>, c: Command)
    ensures AllNamed(EMPTY, cs + [c]) <==> AllNamed(EMPTY, cs) && !CommitsThenFails(Run(EMPTY, cs), c)
  {
    hide CommitsThenFails, Run;
    assert (cs + [c])[..|cs|] == cs;
  }

  /** The log of a session that got its checkpoint can be replayed if and only if every earlier replacement named
      its run and both ends of the region were still on the surface when the summary arrived. */
  lemma CheckpointReplays(cs: seq<Command>, start: int, end: int, during: seq<Command>, id: string, summary: string)
    requires Between(Run(EMPTY, cs).view.surface, start, end) != []
    ensures var s := Run(EMPTY, cs);
            var r := Between(s.view.surface, start, end);
            var done := Committed(s, r, during, id, summary);
            var before := UntilSummary(cs, r, during);
            if AllNamed(EMPTY, before) && EndsStand(Summarised(s, r, during).view.surface, r)
            then Replay(done.events) == Ok(done.view)
            else Replay(done.events).Err?
  {
    hide WellFormed, AppendStep, Run, Between, NamesRun, AllNamed, CommitsThenFails, Replay;
    var s := Run(EMPTY, cs);
    var r := Between(s.view.surface, start, end);
    var before := UntilSummary(cs, r, during);
    RunWellFormed(cs);
    CheckpointCommits(s, start, end, during, id, summary);
    UntilSummaryRuns(cs, r, during);
    var s1 := Summarised(s, r, during);
    AppendLogOnly(s1, SummaryCommand(r));
    RunSnoc(EMPTY, before, SummaryCommand(r));
    AllNamedSnoc(before, SummaryCommand(r));
    var s2 := Append(s1, SummaryCommand(r));
    var c := CheckpointCommand(id, summary, s.view.seqNo + 1, s2.view.seqNo, r);
    CheckpointOp(id, summary, s.view.seqNo + 1, s2.view.seqNo, r);
    RunSnoc(EMPTY, before + [SummaryCommand(r)], c);
    AllNamedSnoc(before + [SummaryCommand(r)], c);
    Failing(s2, c);
    Failing(s1, SummaryCommand(r));
    LiveEqualsReplayed(before + [SummaryCommand(r)] + [c]);
  }

  lemma Failing(s: State, c: Command)
    ensures CommitsThenFails(s, c) <==> c.op.Replace? && IsSurface(c.kind) && !c.data.LossyData? &&
                                        !NamesRun(s.view.surface, c.op.start, c.op.end)
  {
  }

  // ------------------------------------------------------------------ two compactions at once

  lemma GoneForGood(s: State, cs: seq<Command>, a: int, b: int)
    requires WellFormed(s) && InOrder(s, a, b) && !(a in s.view.surface && b in s.view.surface)
    ensures !(a in Run(s, cs).view.surface && b in Run(s, cs).view.surface)
  {
    hide WellFormed, InOrder, Run;
    RunKeepsOrder(s, cs, a, b);
  }

  /** A checkpoint over a region takes an end of it off the surface, unless one was already gone. */
  lemma CheckpointTakesAnEnd(s: State, id: string, summary: string, startSeq: int, summarySeq: int, r: seq<int>)
    requires WellFormed(s) && r != [] && InOrder(s, r[0], r[|r| - 1])
    ensures !EndsStand(Append(s, CheckpointCommand(id, summary, startSeq, summarySeq, r)).view.surface, r)
  {
    hide AppendStep, CheckpointCommand;
    CheckpointStep(s, id, summary, startSeq, summarySeq, r);
    var nodes := s.view.surface;
    if NamesRun(nodes, r[0], r[|r| - 1]) {
      SpliceIndex(nodes, IndexOf(nodes, r[0]), IndexOf(nodes, r[|r| - 1]), s.view.seqNo + 1, r[0]);
    }
  }

  /** Of two compactions of one region that run at the same time, the one whose summary arrives last never
      commits: its checkpoint goes to the log, the surface stays as it is, and the log can no longer be replayed,
      whatever is appended to it. */
  lemma LastOfTwoFails(cs: seq<Command>, start: int, end: int, a: seq<Command>, b: seq<Command>,
                       otherId: string, otherSummary: string, otherStart: int, otherSeq: int,
                       id: string, summary: string, more: seq<Event>)
    requires Between(Run(EMPTY, cs).view.surface, start, end) != []
    ensures var s := Run(EMPTY, cs);
            var r := Between(s.view.surface, start, end);
            var during := a + [CheckpointCommand(otherId, otherSummary, otherStart, otherSeq, r)] + b;
            var done := Committed(s, r, during, id, summary);
            && !EndsStand(Summarised(s, r, during).view.surface, r)
            && done.view.surface == Summarised(s, r, during).view.surface
            && Replay(done.events + more).Err?
  {
    hide WellFormed, AppendStep, Run, Between, NamesRun, AllNamed, Replay, InOrder, EndsStand, CheckpointCommand;
    var s := Run(EMPTY, cs);
    var r := Between(s.view.surface, start, end);
    var other := CheckpointCommand(otherId, otherSummary, otherStart, otherSeq, r);
    var during := a + [other] + b;
    RunWellFormed(cs);
    SummarisedKeepsOrder(s, start, end, a);
    var u := Summarised(s, r, a);
    CheckpointTakesAnEnd(u, otherId, otherSummary, otherStart, otherSeq, r);
    AppendKeepsOrder(u, other, r[0], r[|r| - 1]);
    StillGone(Append(u, other), b, r);
    RunSnoc(Append(s, StartCommand(r)), a, other);
    RunConcat(Append(s, StartCommand(r)), a + [other], b);
    CheckpointCommits(s, start, end, during, id, summary);
    CheckpointReplays(cs, start, end, during, id, summary);
    ReplayFailureSticks(Committed(s, r, during, id, summary).events, more);
  }

  lemma StillGone(s: State, cs: seq<Command>, r: seq<int>)
    requires WellFormed(s) && r != [] && InOrder(s, r[0], r[|r| - 1]) && !EndsStand(s.view.surface, r)
    ensures !EndsStand(Run(s, cs).view.surface, r)
  {
    GoneForGood(s, cs, r[0], r[|r| - 1]);
  }

  // ------------------------------------------------------------------ pairing across safe edits

  /** Every append of a run is one the rest of the system makes. */
  ghost predicate SafeFrom(s: State, cs: seq<Command>) {
    cs == [] ||
    (SafeFrom(s, cs[..|cs| - 1]) &&
     WellFormed(Run(s, cs[..|cs| - 1])) && PairingSafe(Run(s, cs[..|cs| - 1]), cs[|cs| - 1]))
  }

  /** How many calls are unanswered on the two sides of a node. */
  function Sides(s: State, x: int): (int, int)
    requires InLog(s.events, s.view.surface) && x in s.view.surface
  {
    var i := IndexOf(s.view.surface, x);
    (Outstanding(StateDeltas(s), i), Outstanding(StateDeltas(s), i + 1))
  }

  lemma LoggedKeepsSides(s: State, c: Command, x: int)
    requires WellFormed(s) && x in s.view.surface
    ensures InLog(Logged(s, c).events, s.view.surface) && Sides(Logged(s, c), x) == Sides(s, x)
  {
    DeltasStable(s.events, Stored(s, c), s.view.surface);
  }

  lemma SurfacedKeepsSides(s: State, c: Command, x: int)
    requires WellFormed(s) && x in s.view.surface && WellFormed(Surfaced(s, c))
    ensures x in Surfaced(s, c).view.surface && Sides(Surfaced(s, c), x) == Sides(s, x)
  {
    hide Sum, StateDeltas, IndexOf, WellFormed, Distinct, InLog;
    WellFormedHolds(s);
    WellFormedHolds(Surfaced(s, c));
    SurfacedIndex(s.view.surface, s.view.seqNo + 1, x);
    SurfacedDeltas(s, c);
    var i := IndexOf(s.view.surface, x);
    var ds, ds' := StateDeltas(s), StateDeltas(Surfaced(s, c));
    assert ds'[..i] == ds[..i] && ds'[..i + 1] == ds[..i + 1];
  }

  lemma KeepsSides(ds: seq<int>, first: nat, last: nat, d: int, j: nat)
    requires first <= last < |ds| && KeepsCuts(ds, first, last, d)
    requires j < |Splice(ds, first, last, d)| && j != first
    ensures var i := if j < first then j else j + last - first;
            && Outstanding(Splice(ds, first, last, d), j) == Outstanding(ds, i)
            && Outstanding(Splice(ds, first, last, d), j + 1) == Outstanding(ds, i + 1)
  {
    hide Outstanding;
  }

  lemma ReplacedKeepsSides(s: State, c: Command, first: nat, last: nat, x: int)
    requires WellFormed(s) && first <= last < |s.view.surface| && WellFormed(Replaced(s, c, first, last))
    requires Outstanding(StateDeltas(s), first) + Delta(Stored(s, c)) == Outstanding(StateDeltas(s), last + 1)
    requires x <= s.view.seqNo && x in Replaced(s, c, first, last).view.surface
    ensures x in s.view.surface && Sides(Replaced(s, c, first, last), x) == Sides(s, x)
  {
    hide Delta, IndexOf, Outstanding, StateDeltas, KeepsCuts, WellFormed, Distinct, InLog, Splice;
    WellFormedHolds(s);
    WellFormedHolds(Replaced(s, c, first, last));
    var ds, d := StateDeltas(s), Delta(Stored(s, c));
    SpliceIndex(s.view.surface, first, last, s.view.seqNo + 1, x);
    DeltasOfSplice(s, c, first, last);
    BalancedReplacement(ds, first, last, d);
    KeepsSides(ds, first, last, d, IndexOf(Replaced(s, c, first, last).view.surface, x));
  }

  /** A node that outlives a safe append keeps the counts on its two sides. */
  lemma SafeAppendKeepsSides(s: State, c: Command, x: int)
    requires WellFormed(s) && PairingSafe(s, c) && x <= s.view.seqNo
    ensures WellFormed(Append(s, c))
    ensures x in Append(s, c).view.surface ==> x in s.view.surface && Sides(Append(s, c), x) == Sides(s, x)
  {
    hide Delta, Outstanding, StateDeltas, Sides, Distinct, IndexOf;
    AppendWellFormed(s, c);
    var nodes := s.view.surface;
    if Append(s, c) == s || x !in Append(s, c).view.surface {
    } else if c.op.Replace? && NamesRun(nodes, c.op.start, c.op.end) {
      ReplacedKeepsSides(s, c, IndexOf(nodes, c.op.start), IndexOf(nodes, c.op.end), x);
    } else if c.op.Replace? || !IsSurface(c.kind) {
      LoggedKeepsSides(s, c, x);
    } else {
      SurfacedKeepsSides(s, c, x);
    }
  }

  lemma {:induction false} SafeRunKeepsSides(s: State, cs: seq<Command>, x: int)
    requires WellFormed(s) && SafeFrom(s, cs) && x <= s.view.seqNo && NonNegative(StateDeltas(s))
    ensures WellFormed(Run(s, cs)) && s.view.seqNo <= Run(s, cs).view.seqNo && NonNegative(StateDeltas(Run(s, cs)))
    ensures x in Run(s, cs).view.surface ==> x in s.view.surface && Sides(Run(s, cs), x) == Sides(s, x)
  {
    hide WellFormed, PairingSafe, Sides, Append, NonNegative;
    if cs != [] {
      var mid, c := Run(s, cs[..|cs| - 1]), cs[|cs| - 1];
      SafeRunKeepsSides(s, cs[..|cs| - 1], x);
      SafeAppendKeepsSides(mid, c, x);
      SafeAppendNonNegative(mid, c);
      NumbersGrow(mid, c);
    }
  }

  lemma NumbersGrow(s: State, c: Command)
    ensures s.view.seqNo <= Append(s, c).view.seqNo
  {
  }

  lemma CheckedSides(s: State, start: int, end: int)
    requires WellFormed(s) && Between(s.view.surface, start, end) != []
    requires CheckedAs(s, start, end, Ok(Between(s.view.surface, start, end)))
    ensures var r := Between(s.view.surface, start, end);
            && NonNegative(StateDeltas(s)) && EndsStand(s.view.surface, r)
            && Sides(s, r[0]).0 == 0 && Sides(s, r[|r| - 1]).1 == 0
  {
    hide StateDeltas, Outstanding, NonNegative, IndexOf, Between, Edges, CheckedAs, WellFormed, InLog, Distinct;
    WellFormedHolds(s);
    var first, last := EdgesOf(s.view.surface, start, end);
    EdgesInside(s.view.surface, start, end, first, last);
    CheckedEdges(s, start, end, first, last);
    IndexOfDistinct(s.view.surface, first);
    IndexOfDistinct(s.view.surface, last);
    var r := Between(s.view.surface, start, end);
    assert IndexOf(s.view.surface, r[0]) == first && IndexOf(s.view.surface, r[|r| - 1]) == last;
  }

  lemma CheckedEdges(s: State, start: int, end: int, first: nat, last: nat)
    requires WellFormed(s) && Edges(s.view.surface, start, end, first, last)
    requires Between(s.view.surface, start, end) != []
    requires CheckedAs(s, start, end, Ok(Between(s.view.surface, start, end)))
    ensures NonNegative(StateDeltas(s)) && last < |StateDeltas(s)|
    ensures Outstanding(StateDeltas(s), first) == 0 && Outstanding(StateDeltas(s), last + 1) == 0
  {
    hide Between, NonNegative, Outstanding, StateDeltas, Distinct;
    WellFormedHolds(s);
    var after := Outstanding(StateDeltas(s), last + 1);
    assert Edges(s.view.surface, start, end, first, last);
  }

  /** The region passed its checks, the others appended and replaced safely, and both ends are still there: then
      the checkpoint is safe, whatever now stands between the ends, and no count turns negative. */
  lemma SafeEditsMeanwhile(s: State, start: int, end: int, during: seq<Command>, id: string, summary: string)
    requires WellFormed(s) && Between(s.view.surface, start, end) != []
    requires var r := Between(s.view.surface, start, end);
             && CheckedAs(s, start, end, Ok(r)) && SafeFrom(Append(s, StartCommand(r)), during)
             && EndsStand(Summarised(s, r, during).view.surface, r)
    ensures var r := Between(s.view.surface, start, end);
            var s2 := Append(Summarised(s, r, during), SummaryCommand(r));
            var done := Committed(s, r, during, id, summary);
            && WellFormed(s2) && WellFormed(done) && NonNegative(StateDeltas(done))
            && PairingSafe(s2, CheckpointCommand(id, summary, s.view.seqNo + 1, s2.view.seqNo, r))
  {
    hide WellFormed, Between, Sides, NonNegative, AppendStep, Run, StateDeltas, PairingSafe, SafeFrom, InOrder,
         CheckedAs;
    CheckedSides(s, start, end);
    var r := Between(s.view.surface, start, end);
    var lo, hi := r[0], r[|r| - 1];
    RecordedInOrder(s, start, end);
    OrderBounds(s, lo, hi);
    LogOnly(s, StartCommand(r), lo);
    LogOnly(s, StartCommand(r), hi);
    var u := Append(s, StartCommand(r));
    SafeRunKeepsSides(u, during, lo);
    SafeRunKeepsSides(u, during, hi);
    var s1 := Summarised(s, r, during);
    LogOnly(s1, SummaryCommand(r), lo);
    LogOnly(s1, SummaryCommand(r), hi);
    SummarisedKeepsOrder(s, start, end, during);
    var s2 := Append(s1, SummaryCommand(r));
    OrderNames(s1, lo, hi);
    BalancedCheckpoint(s2, id, summary, s.view.seqNo + 1, s2.view.seqNo, r);
    SafeAppendNonNegative(s2, CheckpointCommand(id, summary, s.view.seqNo + 1, s2.view.seqNo, r));
  }

  lemma OrderBounds(s: State, a: int, b: int)
    requires InOrder(s, a, b)
    ensures a <= s.view.seqNo && b <= s.view.seqNo
  {
  }

  lemma OrderNames(s: State, a: int, b: int)
    requires InOrder(s, a, b) && a in s.view.surface && b in s.view.surface
    ensures NamesRun(s.view.surface, a, b)
  {
  }

  /** An event that is only logged moves nothing. */
  lemma LogOnly(s: State, c: Command, x: int)
    requires WellFormed(s) && NonNegative(StateDeltas(s)) && x in s.view.surface
    requires !IsSurface(c.kind) && !c.kind.Unknown? && !c.op.Replace? && !c.data.LossyData?
    ensures var s' := Append(s, c);
            && WellFormed(s') && s'.view.surface == s.view.surface && s'.view.seqNo == s.view.seqNo + 1
            && NonNegative(StateDeltas(s')) && Sides(s', x) == Sides(s, x)
  {
    hide NonNegative, Sides, Delta;
    AppendLogOnly(s, c);
    AppendWellFormed(s, c);
    LoggedKeepsSides(s, c, x);
    DeltasStable(s.events, Stored(s, c), s.view.surface);
  }

  lemma BalancedCheckpoint(s: State, id: string, summary: string, startSeq: int, summarySeq: int, r: seq<int>)
    requires WellFormed(s) && r != [] && NamesRun(s.view.surface, r[0], r[|r| - 1])
    requires Sides(s, r[0]).0 == 0 && Sides(s, r[|r| - 1]).1 == 0
    ensures PairingSafe(s, CheckpointCommand(id, summary, startSeq, summarySeq, r))
  {
    hide WellFormed, Outstanding, StateDeltas;
  }
}
