/** Summarising the oldest safe region of the surface (compaction/basic.py). */
module Compaction {
  import opened Prelude
  import opened Messages
  import opened Sessions
  import opened Pairing

  const CHECKPOINT_PREFIX := "[Earlier conversation, summarised]\n\n"

  datatype CompactionError =
    | Empty
    | Inverted
    | Unbalanced(node: int)
    | Corrupt(cause: PairingError)
    | SummaryFailed
    | CheckpointFailed(refusal: SessionError)

  datatype Compacted = Compacted(startSeq: int, summarySeq: int, checkpointSeq: int, shadowed: seq<int>)

  /** The nodes whose sequence numbers lie in a range, in surface order. */
  function Between(nodes: seq<int>, lo: int, hi: int): seq<int> {
    if nodes == [] then []
    else if lo <= nodes[|nodes| - 1] <= hi then Between(nodes[..|nodes| - 1], lo, hi) + [nodes[|nodes| - 1]]
    else Between(nodes[..|nodes| - 1], lo, hi)
  }

  /** first and last are the outermost surface positions whose nodes are numbered in a range. */
  ghost predicate Edges(nodes: seq<int>, lo: int, hi: int, first: nat, last: nat) {
    && first <= last < |nodes|
    && lo <= nodes[first] <= hi && lo <= nodes[last] <= hi
    && forall m :: 0 <= m < |nodes| && lo <= nodes[m] <= hi ==> first <= m <= last
  }

  /** The longest prefix of the first `limit` nodes that ends on a balanced cut has length n. */
  ghost predicate LongestBalanced(ds: seq<int>, limit: nat, n: nat)
    requires limit <= |ds|
  {
    1 <= n <= limit && Outstanding(ds, n) == 0 && forall m :: n < m <= limit ==> Outstanding(ds, m) != 0
  }

  function Limit(nodes: seq<int>, keepRecent: nat): (n: nat)
    ensures n <= |nodes|
  {
    if |nodes| <= keepRecent then 0 else |nodes| - keepRecent
  }

  // -------------------------------------------------- what one compaction writes

  function StartCommand(recorded: seq<int>): Command
    requires recorded != []
  {
    Command(CompactionStart, NodesData([recorded[0], recorded[|recorded| - 1]]), AppendOp, [])
  }

  function EndCommand(failed: bool): Command {
    Command(CompactionEnd, OtherData(if failed then 1 else 0), AppendOp, [])
  }

  function SummaryCommand(recorded: seq<int>): Command {
    Command(CompactionSummary, NodesData(recorded), AppendOp, [])
  }

  function Checkpoint(id: string, summary: string): Message {
    Message(id, "user", [TextBlock(CHECKPOINT_PREFIX + summary)],
            Source("plugin", "compaction", "summary", "", "", "", None, None))
  }

  function CheckpointCommand(id: string, summary: string, startSeq: int, summarySeq: int, recorded: seq<int>): Command
    requires recorded != []
  {
    Command(UserMessage, MessageData(Checkpoint(id, summary)),
            Replace(recorded[0], recorded[|recorded| - 1]), [startSeq, summarySeq] + recorded)
  }

  /** The session when the summary arrives: whatever was appended meanwhile is in. */
  function Summarised(s: State, recorded: seq<int>, during: seq<Command>): State
    requires recorded != []
  {
    Run(Append(s, StartCommand(recorded)), during)
  }

  function Committed(s: State, recorded: seq<int>, during: seq<Command>, id: string, summary: string): State
    requires recorded != []
  {
    var s2 := Append(Summarised(s, recorded, during), SummaryCommand(recorded));
    Append(s2, CheckpointCommand(id, summary, s.view.seqNo + 1, s2.view.seqNo, recorded))
  }

  /** The checks of a compaction, in order, and what they say. */
  ghost predicate CheckedAs(s: State, start: int, end: int, r: Result<seq<int>, CompactionError>)
    requires WellFormed(s)
  {
    var recorded := Between(s.view.surface, start, end);
    if recorded == [] then r == Err(Empty)
    else if !NonNegative(StateDeltas(s)) then r.Err? && r.error.Corrupt?
    else
      forall first: nat, last: nat :: Edges(s.view.surface, start, end, first, last) ==>
        r == if Outstanding(StateDeltas(s), first) != 0 then Err(Unbalanced(s.view.surface[first]))
             else if Outstanding(StateDeltas(s), last + 1) != 0 then Err(Unbalanced(s.view.surface[last]))
             else Ok(recorded)
  }

  /** What compacting the nodes numbered from start to end does to the session, and answers. */
  ghost predicate CompactedAs(s: State, s': State, start: int, end: int, during: seq<Command>,
                              summary: Option<string>, id: string, r: Result<Compacted, CompactionError>)
    requires WellFormed(s)
  {
    var recorded := Between(s.view.surface, start, end);
    if r.Err? && !r.error.SummaryFailed? && !r.error.CheckpointFailed? then
      CheckedAs(s, start, end, Err(r.error)) && s' == s
    else
      CheckedAs(s, start, end, Ok(recorded)) && recorded != [] &&
      WrittenAs(s, s', recorded, during, summary, id, r)
  }

  /** Why a checkpoint over a region whose ends name no run is refused. */
  function Refusal(surface: seq<int>, recorded: seq<int>): SessionError
    requires recorded != []
  {
    var lo, hi := recorded[0], recorded[|recorded| - 1];
    if lo !in surface then NotOnSurface(lo) else if hi !in surface then NotOnSurface(hi) else NotARun(lo, hi)
  }

  /** What is written once the checks have passed. A checkpoint whose ends name no run by then is refused, and
      that refusal is not recorded. */
  ghost predicate WrittenAs(s: State, s': State, recorded: seq<int>, during: seq<Command>,
                            summary: Option<string>, id: string, r: Result<Compacted, CompactionError>)
    requires recorded != []
  {
    var s1 := Summarised(s, recorded, during);
    if summary.None? then r == Err(SummaryFailed) && s' == Append(s1, EndCommand(true))
    else
      var done := Committed(s, recorded, during, id, summary.value);
      if NamesRun(s1.view.surface, recorded[0], recorded[|recorded| - 1]) then
        && r == Ok(Compacted(s.view.seqNo + 1, done.view.seqNo - 1, done.view.seqNo, recorded))
        && s' == Append(done, EndCommand(false))
      else
        r == Err(CheckpointFailed(Refusal(s1.view.surface, recorded))) && s' == done
  }

  /** A record of the log that is no message. */
  ghost predicate IsRecord(e: Event, kind: Kind, data: Payload) {
    e.kind == kind && e.data == data && e.op == NoOp
  }

  const DONE := OtherData(0)
  const FAILED := OtherData(1)

  /** The record of the summary at position k of the log and the checkpoint behind it: a user's message holding
      one text, the prefix and the summary, that stands for everything recorded and names its sources. */
  ghost predicate SummaryAt(events: seq<Event>, k: nat, startSeq: int, recorded: seq<int>, summary: string,
                            id: string)
    requires recorded != []
  {
    && k + 1 < |events| && IsRecord(events[k], CompactionSummary, NodesData(recorded))
    && events[k + 1].kind == UserMessage
    && events[k + 1].data == MessageData(Message(id, "user", [TextBlock(CHECKPOINT_PREFIX + summary)],
                                                 Source("plugin", "compaction", "summary", "", "", "", None, None)))
    && events[k + 1].op == Replace(recorded[0], recorded[|recorded| - 1])
    && events[k + 1].sources == [startSeq, k + 1] + recorded
  }

  /** What a compaction that got past its checks leaves in a log that was n events long: its start with the two
      ends, the summary and the checkpoint if there was a summary, and an end that says whether it failed, which
      is missing when the checkpoint was refused. */
  ghost predicate LeavesBehind(events: seq<Event>, n: nat, recorded: seq<int>, summary: Option<string>, id: string,
                               r: Result<Compacted, CompactionError>) {
    && recorded != [] && n < |events|
    && IsRecord(events[n], CompactionStart, NodesData([recorded[0], recorded[|recorded| - 1]]))
    && var last := |events| - 1;
       match r
       case Ok(done) =>
         && summary.Some? && n < last - 2 && done == Compacted(n + 1, last - 1, last, recorded)
         && SummaryAt(events, last - 2, n + 1, recorded, summary.value, id)
         && IsRecord(events[last], CompactionEnd, DONE)
       case Err(SummaryFailed) => summary.None? && n < last && IsRecord(events[last], CompactionEnd, FAILED)
       case Err(CheckpointFailed(_)) =>
         summary.Some? && n < last - 1 && SummaryAt(events, last - 1, n + 1, recorded, summary.value, id)
       case Err(_) => false
  }

  /** The log has grown, and positions and numbers still agree. */
  ghost predicate Grown(s: State, s': State) {
    Numbered(s') && s.events <= s'.events
  }

  lemma AppendGrows(s: State, c: Command)
    requires Numbered(s)
    ensures Grown(s, Append(s, c))
    ensures Append(s, c).events == s.events || Append(s, c).events == s.events + [Stored(s, c)]
    ensures !c.kind.Unknown? && !c.data.LossyData? && (c.op.Replace? ==> IsSurface(c.kind)) ==>
              Append(s, c).events == s.events + [Stored(s, c)]
  {
  }

  lemma {:induction false} RunGrows(s: State, cs: seq<Command>)
    requires Numbered(s)
    ensures Grown(s, Run(s, cs))
  {
    if cs != [] {
      hide AppendStep;
      RunGrows(s, cs[..|cs| - 1]);
      AppendGrows(Run(s, cs[..|cs| - 1]), cs[|cs| - 1]);
    }
  }

  /** The log when the summary arrives begins with what was there and the start record. */
  lemma StartIsRecorded(s: State, recorded: seq<int>, during: seq<Command>)
    requires Numbered(s) && recorded != []
    ensures var s1 := Summarised(s, recorded, during);
            && Numbered(s1) && s.events + [Stored(s, StartCommand(recorded))] <= s1.events
            && IsRecord(Stored(s, StartCommand(recorded)), CompactionStart,
                        NodesData([recorded[0], recorded[|recorded| - 1]]))
  {
    hide AppendStep, Run;
    AppendGrows(s, StartCommand(recorded));
    RunGrows(Append(s, StartCommand(recorded)), during);
  }

  /** The two records and the message that a commit adds. */
  lemma CommitIsRecorded(s: State, recorded: seq<int>, during: seq<Command>, id: string, summary: string)
    requires Numbered(s) && recorded != []
    ensures var s1, done := Summarised(s, recorded, during), Committed(s, recorded, during, id, summary);
            && Numbered(done) && s1.events <= done.events && |done.events| == |s1.events| + 2
            && SummaryAt(done.events, |s1.events|, s.view.seqNo + 1, recorded, summary, id)
  {
    hide AppendStep, Summarised;
    StartIsRecorded(s, recorded, during);
    var s1 := Summarised(s, recorded, during);
    AppendGrows(s1, SummaryCommand(recorded));
    var s2 := Append(s1, SummaryCommand(recorded));
    AppendGrows(s2, CheckpointCommand(id, summary, s.view.seqNo + 1, s2.view.seqNo, recorded));
  }

  lemma EndIsRecorded(s: State, failed: bool)
    requires Numbered(s)
    ensures Append(s, EndCommand(failed)).events == s.events + [Stored(s, EndCommand(failed))]
    ensures IsRecord(Stored(s, EndCommand(failed)), CompactionEnd, if failed then FAILED else DONE)
  {
  }

  /** Whatever was written is in the log, record by record. */
  lemma WritesAreLeft(s: State, s': State, recorded: seq<int>, during: seq<Command>, summary: Option<string>,
                      id: string, r: Result<Compacted, CompactionError>)
    requires Numbered(s) && recorded != [] && WrittenAs(s, s', recorded, during, summary, id, r)
    ensures s.events <= s'.events && LeavesBehind(s'.events, |s.events|, recorded, summary, id, r)
  {
    hide Append, Summarised, Committed, NamesRun, Refusal, StartCommand, IsRecord, SummaryAt;
    StartIsRecorded(s, recorded, during);
    var s1 := Summarised(s, recorded, during);
    assert s1.events[|s.events|] == Stored(s, StartCommand(recorded));
    if summary.None? {
      EndIsRecorded(s1, true);
    } else {
      CommitIsRecorded(s, recorded, during, id, summary.value);
      var done := Committed(s, recorded, during, id, summary.value);
      EndIsRecorded(done, false);
      if r.Ok? {
        SummaryStays(done.events, s'.events, |s1.events|, s.view.seqNo + 1, recorded, summary.value, id);
      }
    }
  }

  lemma SummaryStays(events: seq<Event>, more: seq<Event>, k: nat, startSeq: int, recorded: seq<int>, summary: string,
                     id: string)
    requires recorded != [] && SummaryAt(events, k, startSeq, recorded, summary, id) && events <= more
    ensures SummaryAt(more, k, startSeq, recorded, summary, id)
  {
  }

  lemma LeftIsShadowed(events: seq<Event>, n: nat, recorded: seq<int>, summary: Option<string>, id: string,
                       done: Compacted)
    requires LeavesBehind(events, n, recorded, summary, id, Ok(done))
    ensures done.shadowed == recorded
  {
  }

  /** A compaction that got past its checks. */
  predicate Wrote(r: Result<Compacted, CompactionError>) {
    r.Ok? || r.error.SummaryFailed? || r.error.CheckpointFailed?
  }

  predicate Answered(r: Result<Option<Compacted>, CompactionError>, done: Result<Compacted, CompactionError>) {
    r == if done.Err? then Err(done.error) else Ok(Some(done.value))
  }

  lemma EdgesCheck(s: State, start: int, end: int, first: nat, last: nat, r: Result<seq<int>, CompactionError>)
    requires WellFormed(s) && Edges(s.view.surface, start, end, first, last)
    requires Between(s.view.surface, start, end) != [] && NonNegative(StateDeltas(s))
    requires r == if Outstanding(StateDeltas(s), first) != 0 then Err(Unbalanced(s.view.surface[first]))
                  else if Outstanding(StateDeltas(s), last + 1) != 0 then Err(Unbalanced(s.view.surface[last]))
                  else Ok(Between(s.view.surface, start, end))
    ensures CheckedAs(s, start, end, r)
  {
    hide WellFormed, Between, StateDeltas, Edges, NonNegative, Outstanding;
    forall first': nat, last': nat | Edges(s.view.surface, start, end, first', last')
      ensures first' == first && last' == last
    {
      EdgesSame(s.view.surface, start, end, first, last, first', last');
    }
  }

  lemma EdgesSame(nodes: seq<int>, lo: int, hi: int, first: nat, last: nat, first': nat, last': nat)
    requires Edges(nodes, lo, hi, first, last) && Edges(nodes, lo, hi, first', last')
    ensures first' == first && last' == last
  {
  }

  lemma NothingToCheck(s: State, start: int, end: int, r: Result<seq<int>, CompactionError>)
    requires WellFormed(s)
    requires if Between(s.view.surface, start, end) == [] then r == Err(Empty)
             else !NonNegative(StateDeltas(s)) && r.Err? && r.error.Corrupt?
    ensures CheckedAs(s, start, end, r)
  {
  }

  lemma EdgesInside(nodes: seq<int>, lo: int, hi: int, first: nat, last: nat)
    requires Edges(nodes, lo, hi, first, last)
    ensures first <= last < |nodes| && nodes[first] in nodes && nodes[last] in nodes
  {
  }

  class BasicCompaction {
    const keepRecent: nat
    const cache: BalanceCache

    constructor (keepRecent: nat, cache: BalanceCache)
      ensures this.keepRecent == keepRecent && this.cache == cache
    {
      this.keepRecent, this.cache := keepRecent, cache;
    }

    /** The longest balanced prefix outside the keep-recent window. */
    method CandidateRegion(session: Session) returns (r: Result<Option<(int, int)>, PairingError>)
      requires WellFormed(session.Model()) && Coherent(cache.cached, session.Model())
      modifies cache
      ensures Coherent(cache.cached, session.Model())
      ensures var ds, limit := StateDeltas(session.Model()), Limit(session.surface, keepRecent);
              if limit < 2 then r == Ok(None)
              else if !NonNegative(ds) then r.Err?
              else r.Ok? &&
                   if r.value.None? then forall n :: 1 <= n <= limit ==> Outstanding(ds, n) != 0
                   else (exists n: nat :: LongestBalanced(ds, limit, n) &&
                                          r.value.value == (session.surface[0], session.surface[n - 1]))
    {
      assert Outstanding(StateDeltas(session.Model()), 0) == 0;
      hide Coherent, NonNegative, Outstanding, IndexOf, StateDeltas;
      var nodes := session.surface;
      var available := nodes[..Limit(nodes, keepRecent)];
      if |available| < 2 {
        return Ok(None);
      }
      IndexOfDistinct(nodes, 0);
      var before := cache.Cut(session, available[0], 0);
      if before.Err? {
        return Err(before.error);
      }
      if !before.value {
        assert false;
      }
      var n := LastBalanced(session, available);
      return Ok(if n == 0 then None else Some((available[0], available[n - 1])));
    }

    /** Walk the available nodes backwards to the last one with a balanced cut behind it. */
    method LastBalanced(session: Session, available: seq<int>) returns (n: nat)
      requires WellFormed(session.Model()) && Coherent(cache.cached, session.Model())
      requires available <= session.surface && NonNegative(StateDeltas(session.Model()))
      modifies cache
      ensures Coherent(cache.cached, session.Model())
      ensures var ds := StateDeltas(session.Model());
              if n == 0 then forall m :: 1 <= m <= |available| ==> Outstanding(ds, m) != 0
              else LongestBalanced(ds, |available|, n)
    {
      hide Coherent, NonNegative, Outstanding, IndexOf;
      n := |available|;
      while n > 0
        invariant 0 <= n <= |available| && Coherent(cache.cached, session.Model())
        invariant forall m :: n < m <= |available| ==> Outstanding(StateDeltas(session.Model()), m) != 0
      {
        IndexOfDistinct(session.surface, n - 1);
        var after := cache.Cut(session, available[n - 1], 1);
        if after.Err? {
          assert false;
        } else if after.value {
          return;
        }
        n := n - 1;
      }
    }

    /** The refusals of `compact_region`, before anything is written. */
    method CheckRegion(session: Session, start: int, end: int) returns (r: Result<seq<int>, CompactionError>)
      requires WellFormed(session.Model()) && Coherent(cache.cached, session.Model())
      modifies cache
      ensures Coherent(cache.cached, session.Model())
      ensures CheckedAs(session.Model(), start, end, r)
      ensures r.Ok? ==> r.value == Between(session.surface, start, end) && r.value != []
      ensures r.Err? ==> !r.error.SummaryFailed? && !r.error.CheckpointFailed?
    {
      hide Between, Outstanding, NonNegative, Coherent, IndexOf, Edges, CheckedAs;
      ghost var s := session.Model();
      var recorded := Between(session.surface, start, end);
      if recorded == [] {
        NothingToCheck(s, start, end, Err(Empty));
        return Err(Empty);
      }
      ghost var first, last := EdgesOf(session.surface, start, end);
      IndexOfDistinct(session.surface, first);
      IndexOfDistinct(session.surface, last);
      EdgesInside(s.view.surface, start, end, first, last);
      if start > end {
        assert false;
      }
      var before := cache.Cut(session, recorded[0], 0);
      if before.Err? {
        NothingToCheck(s, start, end, Err(Corrupt(before.error)));
        return Err(Corrupt(before.error));
      }
      if !before.value {
        EdgesCheck(s, start, end, first, last, Err(Unbalanced(recorded[0])));
        return Err(Unbalanced(recorded[0]));
      }
      var after := cache.Cut(session, recorded[|recorded| - 1], 1);
      if after.Err? {
        assert false;
      } else if !after.value {
        EdgesCheck(s, start, end, first, last, Err(Unbalanced(recorded[|recorded| - 1])));
        return Err(Unbalanced(recorded[|recorded| - 1]));
      }
      EdgesCheck(s, start, end, first, last, Ok(recorded));
      return Ok(recorded);
    }

    /** Compact the nodes numbered from start to end. `during` is what other code appends
        while the model writes the summary. */
    method CompactRegion(session: Session, start: int, end: int, during: seq<Command>,
                         summary: Option<string>, id: string)
      returns (r: Result<Compacted, CompactionError>)
      requires WellFormed(session.Model()) && Coherent(cache.cached, session.Model())
      modifies session, cache
      ensures WellFormed(session.Model()) && Coherent(cache.cached, session.Model())
      ensures CompactedAs(old(session.Model()), session.Model(), start, end, during, summary, id, r)
      ensures Wrote(r) ==> LeavesBehind(session.events, |old(session.events)|,
                                        Between(old(session.surface), start, end), summary, id, r)
    {
      hide Between, Outstanding, StateDeltas, NonNegative, Coherent, Run, IndexOf, AppendStep, Replaced, LeavesBehind,
           WrittenAs;
      var checked := CheckRegion(session, start, end);
      if checked.Err? {
        return Err(checked.error);
      }
      r := CommitRegion(session, checked.value, during, summary, id);
      WritesAreLeft(old(session.Model()), session.Model(), checked.value, during, summary, id, r);
    }

    /** Compact the candidate region, when there is one. */
    method CompactNow(session: Session, during: seq<Command>, summary: Option<string>, id: string)
      returns (r: Result<Option<Compacted>, CompactionError>)
      requires WellFormed(session.Model()) && Coherent(cache.cached, session.Model())
      modifies session, cache
      ensures WellFormed(session.Model()) && Coherent(cache.cached, session.Model())
      ensures var s := old(session.Model());
              var nodes, ds, limit := s.view.surface, StateDeltas(s), Limit(s.view.surface, keepRecent);
              if limit < 2 then r == Ok(None) && session.Model() == s
              else if !NonNegative(ds) then r.Err? && r.error.Corrupt? && session.Model() == s
              else if forall n :: 1 <= n <= limit ==> Outstanding(ds, n) != 0 then r == Ok(None) && session.Model() == s
              else
                exists n: nat, done :: LongestBalanced(ds, limit, n) && Answered(r, done)
                  && CompactedAs(s, session.Model(), nodes[0], nodes[n - 1], during, summary, id, done)
      ensures r.Ok? && r.value.Some? ==>
                LeavesBehind(session.events, |old(session.events)|, r.value.value.shadowed, summary, id,
                             Ok(r.value.value))
    {
      hide Outstanding, StateDeltas, NonNegative, Coherent, CompactedAs, LeavesBehind;
      var region := CandidateRegion(session);
      if region.Err? {
        return Err(Corrupt(region.error));
      }
      if region.value.None? {
        return Ok(None);
      }
      var done := CompactRegion(session, region.value.value.0, region.value.value.1, during, summary, id);
      if done.Ok? {
        ghost var recorded := Between(old(session.surface), region.value.value.0, region.value.value.1);
        LeftIsShadowed(session.events, |old(session.events)|, recorded, summary, id, done.value);
      }
      r := if done.Err? then Err(done.error) else Ok(Some(done.value));
      assert Answered(r, done);
    }

    /** The writes of a compaction whose checks have passed. */
    method CommitRegion(session: Session, recorded: seq<int>, during: seq<Command>, summary: Option<string>,
                        id: string)
      returns (r: Result<Compacted, CompactionError>)
      requires WellFormed(session.Model()) && Coherent(cache.cached, session.Model()) && recorded != []
      modifies session
      ensures WellFormed(session.Model()) && Coherent(cache.cached, session.Model())
      ensures WrittenAs(old(session.Model()), session.Model(), recorded, during, summary, id, r) && Wrote(r)
    {
      hide Coherent, Run, IndexOf, AppendStep, Replaced, NamesRun, WellFormed, Refusal;
      ghost var s := session.Model();
      AppendLogOnly(s, StartCommand(recorded));
      var startEvent := Write(session, StartCommand(recorded));
      WriteAll(session, during);
      if summary.None? {
        var _ := Write(session, EndCommand(true));
        return Err(SummaryFailed);
      }
      AppendLogOnly(session.Model(), SummaryCommand(recorded));
      var summaryEvent := Write(session, SummaryCommand(recorded));
      var c := CheckpointCommand(id, summary.value, startEvent.value.seqNo, summaryEvent.value.seqNo, recorded);
      CheckpointStep(session.Model(), id, summary.value, s.view.seqNo + 1, summaryEvent.value.seqNo, recorded);
      var checkpoint := Write(session, c);
      assert session.Model() == Committed(s, recorded, during, id, summary.value);
      if checkpoint.Err? {
        return Err(CheckpointFailed(checkpoint.error));
      }
      var _ := Write(session, EndCommand(false));
      return Ok(Compacted(startEvent.value.seqNo, summaryEvent.value.seqNo, checkpoint.value.seqNo, recorded));
    }

    /** One append, seen by the cache's invariant. */
    method Write(session: Session, c: Command) returns (r: Result<Event, SessionError>)
      requires WellFormed(session.Model()) && Coherent(cache.cached, session.Model())
      modifies session
      ensures session.Model() == Append(old(session.Model()), c)
      ensures r == AppendStep(old(session.Model()), c).1
      ensures WellFormed(session.Model()) && Coherent(cache.cached, session.Model())
    {
      AppendKeepsCoherent(cache.cached, session.Model(), c);
      r := session.Append(c);
    }

    method WriteAll(session: Session, cs: seq<Command>)
      requires WellFormed(session.Model()) && Coherent(cache.cached, session.Model())
      modifies session
      ensures session.Model() == Run(old(session.Model()), cs)
      ensures WellFormed(session.Model()) && Coherent(cache.cached, session.Model())
    {
      for i := 0 to |cs|
        invariant session.Model() == Run(old(session.Model()), cs[..i])
        invariant WellFormed(session.Model()) && Coherent(cache.cached, session.Model())
      {
        RunSnoc(old(session.Model()), cs[..i], cs[i]);
        assert cs[..i + 1] == cs[..i] + [cs[i]];
        var _ := Write(session, cs[i]);
      }
      assert cs[..|cs|] == cs;
    }
  }

  // ---------------------------------------------------------------- properties

  lemma RunSnoc(s: State, cs: seq<Command>, c: Command)
    ensures Run(s, cs + [c]) == Append(Run(s, cs), c)
  {
    assert (cs + [c])[..|cs|] == cs;
  }

  lemma {:induction false} RunWithoutReplacements(s: State, cs: seq<Command>)
    requires WellFormed(s) && forall i :: 0 <= i < |cs| ==> !cs[i].op.Replace?
    ensures WellFormed(Run(s, cs)) && Extends(s, Run(s, cs))
  {
    if cs != [] {
      RunWithoutReplacements(s, cs[..|cs| - 1]);
      AppendExtends(Run(s, cs[..|cs| - 1]), cs[|cs| - 1]);
    }
  }

  /** Nothing was replaced on the way from s to s'. */
  ghost predicate Extends(s: State, s': State) {
    && s.view.surface <= s'.view.surface && s.events <= s'.events
    && s'.view.generation == s.view.generation && s'.view.replacements == s.view.replacements
  }

  lemma AppendExtends(s: State, c: Command)
    requires WellFormed(s) && !c.op.Replace?
    ensures WellFormed(Append(s, c)) && Extends(s, Append(s, c))
  {
    AppendWellFormed(s, c);
  }

  lemma {:induction false} EdgesOf(nodes: seq<int>, lo: int, hi: int) returns (first: nat, last: nat)
    requires Between(nodes, lo, hi) != []
    ensures Edges(nodes, lo, hi, first, last)
    ensures var r := Between(nodes, lo, hi); nodes[first] == r[0] && nodes[last] == r[|r| - 1]
    ensures lo <= hi
  {
    var n := |nodes| - 1;
    var init := nodes[..n];
    if Between(init, lo, hi) != [] {
      first, last := EdgesOf(init, lo, hi);
      assert nodes[first] == init[first] && nodes[last] == init[last];
      if lo <= nodes[n] <= hi {
        last := n;
      }
    } else {
      BetweenAll(init, lo, hi);
      forall m | 0 <= m < n
        ensures !(lo <= nodes[m] <= hi)
      {
        assert init[m] == nodes[m];
      }
      first, last := n, n;
    }
  }

  lemma EdgesUnique(nodes: seq<int>, lo: int, hi: int, first: nat, last: nat)
    requires Edges(nodes, lo, hi, first, last)
    ensures var r := Between(nodes, lo, hi); r != [] && r[0] == nodes[first] && r[|r| - 1] == nodes[last]
  {
    BetweenAll(nodes, lo, hi);
    var f, l := EdgesOf(nodes, lo, hi);
  }

  lemma SummarisedExtends(s: State, recorded: seq<int>, during: seq<Command>)
    requires WellFormed(s) && recorded != []
    requires forall i :: 0 <= i < |during| ==> !during[i].op.Replace?
    ensures WellFormed(Summarised(s, recorded, during)) && Extends(s, Summarised(s, recorded, during))
  {
    AppendExtends(s, StartCommand(recorded));
    RunWithoutReplacements(Append(s, StartCommand(recorded)), during);
  }

  lemma CommittedIsReplaced(s: State, start: int, end: int, during: seq<Command>, id: string, summary: string,
                            first: nat, last: nat)
    requires WellFormed(s) && Edges(s.view.surface, start, end, first, last)
    requires forall i :: 0 <= i < |during| ==> !during[i].op.Replace?
    ensures var recorded := Between(s.view.surface, start, end);
            recorded != [] &&
            var s1 := Summarised(s, recorded, during);
            var s2 := Append(s1, SummaryCommand(recorded));
            var c := CheckpointCommand(id, summary, s.view.seqNo + 1, s2.view.seqNo, recorded);
            && WellFormed(s1) && Extends(s, s1) && WellFormed(s2)
            && s2 == Logged(s1, SummaryCommand(recorded)) && last < |s2.view.surface|
            && c.op == Replace(s2.view.surface[first], s2.view.surface[last])
            && Committed(s, recorded, during, id, summary) == Replaced(s2, c, first, last)
  {
    hide Between, Run, AppendStep, Replaced, CheckpointCommand;
    var recorded := Between(s.view.surface, start, end);
    EdgesUnique(s.view.surface, start, end, first, last);
    SummarisedExtends(s, recorded, during);
    var s1 := Summarised(s, recorded, during);
    AppendWellFormed(s1, SummaryCommand(recorded));
    AppendLogOnly(s1, SummaryCommand(recorded));
    var s2 := Append(s1, SummaryCommand(recorded));
    var c := CheckpointCommand(id, summary, s.view.seqNo + 1, s2.view.seqNo, recorded);
    CheckpointOp(id, summary, s.view.seqNo + 1, s2.view.seqNo, recorded);
    assert s1.view.surface[first] == recorded[0] && s1.view.surface[last] == recorded[|recorded| - 1];
    AppendReplacing(s2, c, first, last);
  }

  /** Appending a checkpoint: it succeeds when its ends name a run, and is in the log either way. */
  lemma CheckpointStep(s: State, id: string, summary: string, startSeq: int, summarySeq: int, recorded: seq<int>)
    requires recorded != []
    ensures var c := CheckpointCommand(id, summary, startSeq, summarySeq, recorded);
            var (lo, hi) := (recorded[0], recorded[|recorded| - 1]);
            && (AppendStep(s, c).1.Ok? <==> NamesRun(s.view.surface, lo, hi))
            && (AppendStep(s, c).1.Err? ==> AppendStep(s, c).1.error == Refusal(s.view.surface, recorded))
            && (AppendStep(s, c).1.Ok? ==> AppendStep(s, c).1.value.seqNo == s.view.seqNo + 1)
            && Append(s, c) == (if NamesRun(s.view.surface, lo, hi)
                                then Replaced(s, c, IndexOf(s.view.surface, lo), IndexOf(s.view.surface, hi))
                                else Logged(s, c))
            && Append(s, c).view.seqNo == s.view.seqNo + 1
  {
  }

  lemma CheckpointOp(id: string, summary: string, startSeq: int, summarySeq: int, recorded: seq<int>)
    requires recorded != []
    ensures var c := CheckpointCommand(id, summary, startSeq, summarySeq, recorded);
            && c.kind == UserMessage && !c.data.LossyData?
            && c.op == Replace(recorded[0], recorded[|recorded| - 1])
  {
  }

  /** The commit swaps exactly one positional run for the checkpoint; everything before it,
      everything after it and everything appended meanwhile stays, in order. */
  lemma CommitIsPositional(s: State, start: int, end: int, during: seq<Command>, id: string, summary: string,
                           first: nat, last: nat)
    requires WellFormed(s) && Edges(s.view.surface, start, end, first, last)
    requires forall i :: 0 <= i < |during| ==> !during[i].op.Replace?
    ensures Between(s.view.surface, start, end) != []
    ensures var recorded := Between(s.view.surface, start, end);
            var s1 := Summarised(s, recorded, during);
            var s' := Committed(s, recorded, during, id, summary);
            && s.view.surface <= s1.view.surface
            && s'.view.surface ==
               Splice(s.view.surface, first, last, s'.view.seqNo) + s1.view.surface[|s.view.surface|..]
            && s'.view.generation == s.view.generation + 1
            && s'.view.replacements ==
               s.view.replacements + [Replacement(s'.view.seqNo, s.view.surface[first..last + 1])]
  {
    hide Between, Run, WellFormed, Splice, AppendStep;
    CommittedIsReplaced(s, start, end, during, id, summary, first, last);
    SpliceOfLonger(s.view.surface, Summarised(s, Between(s.view.surface, start, end), during).view.surface, first, last,
                   Committed(s, Between(s.view.surface, start, end), during, id, summary).view.seqNo);
  }

  lemma SpliceOfLonger(a: seq<int>, b: seq<int>, first: nat, last: nat, x: int)
    requires first <= last < |a| && a <= b
    ensures Splice(b, first, last, x) == Splice(a, first, last, x) + b[|a|..]
    ensures b[first..last + 1] == a[first..last + 1]
  {
    assert b == a + b[|a|..];
  }

  lemma DeltasPrefix(s: State, s1: State, k: nat)
    requires WellFormed(s) && WellFormed(s1) && k <= |s.view.surface| && Extends(s, s1)
    ensures Outstanding(StateDeltas(s1), k) == Outstanding(StateDeltas(s), k)
  {
    assert StateDeltas(s1)[..k] == StateDeltas(s)[..k];
  }

  /** A compaction that passed its checks moves no surviving cut's count. */
  lemma CommitKeepsPairing(s: State, start: int, end: int, during: seq<Command>, id: string, summary: string,
                           first: nat, last: nat)
    requires WellFormed(s) && Edges(s.view.surface, start, end, first, last)
    requires forall i :: 0 <= i < |during| ==> !during[i].op.Replace?
    requires Outstanding(StateDeltas(s), first) == 0 && Outstanding(StateDeltas(s), last + 1) == 0
    ensures Between(s.view.surface, start, end) != []
    ensures var recorded := Between(s.view.surface, start, end);
            var s1 := Summarised(s, recorded, during);
            var s' := Committed(s, recorded, during, id, summary);
            && WellFormed(s1) && WellFormed(s') && last < |s1.view.surface|
            && StateDeltas(s') == Splice(StateDeltas(s1), first, last, 0)
            && KeepsCuts(StateDeltas(s1), first, last, 0)
            && (NonNegative(StateDeltas(s1)) ==> NonNegative(StateDeltas(s')))
  {
    var recorded := Between(s.view.surface, start, end);
    CommittedIsReplaced(s, start, end, during, id, summary, first, last);
    var s1 := Summarised(s, recorded, during);
    DeltasPrefix(s, s1, first);
    DeltasPrefix(s, s1, last + 1);
    DeltasStable(s1.events, Stored(s1, SummaryCommand(recorded)), s1.view.surface);
    var s2 := Append(s1, SummaryCommand(recorded));
    var c := CheckpointCommand(id, summary, s.view.seqNo + 1, s2.view.seqNo, recorded);
    CheckpointIsSafe(s2, c, first, last);
    BalancedReplacement(StateDeltas(s1), first, last, 0);
  }

  // -------------------------------- the numeric filter against the positional run

  lemma {:induction false} BetweenConcat(a: seq<int>, b: seq<int>, lo: int, hi: int)
    ensures Between(a + b, lo, hi) == Between(a, lo, hi) + Between(b, lo, hi)
  {
    if b == [] {
      assert a + b == a;
    } else {
      assert (a + b)[..|a + b| - 1] == a + b[..|b| - 1];
      BetweenConcat(a, b[..|b| - 1], lo, hi);
    }
  }

  ghost predicate AllWithin(nodes: seq<int>, lo: int, hi: int) {
    forall m :: 0 <= m < |nodes| ==> lo <= nodes[m] <= hi
  }

  ghost predicate NoneWithin(nodes: seq<int>, lo: int, hi: int) {
    forall m :: 0 <= m < |nodes| ==> !(lo <= nodes[m] <= hi)
  }

  lemma BetweenAll(nodes: seq<int>, lo: int, hi: int)
    ensures Between(nodes, lo, hi) == nodes <==> forall m :: 0 <= m < |nodes| ==> lo <= nodes[m] <= hi
    ensures Between(nodes, lo, hi) == [] <==> forall m :: 0 <= m < |nodes| ==> !(lo <= nodes[m] <= hi)
    ensures |Between(nodes, lo, hi)| <= |nodes|
  {
    hide Between;
    BetweenKeeps(nodes, lo, hi);
    assert AllWithin(nodes, lo, hi) <==> forall m :: 0 <= m < |nodes| ==> lo <= nodes[m] <= hi;
    assert NoneWithin(nodes, lo, hi) <==> forall m :: 0 <= m < |nodes| ==> !(lo <= nodes[m] <= hi);
  }

  lemma {:induction false} BetweenKeeps(nodes: seq<int>, lo: int, hi: int)
    ensures Between(nodes, lo, hi) == nodes <==> AllWithin(nodes, lo, hi)
    ensures Between(nodes, lo, hi) == [] <==> NoneWithin(nodes, lo, hi)
    ensures |Between(nodes, lo, hi)| <= |nodes|
  {
    if nodes != [] {
      hide AllWithin, NoneWithin;
      var init, x := nodes[..|nodes| - 1], nodes[|nodes| - 1];
      BetweenKeeps(init, lo, hi);
      InitAndLast(nodes, lo, hi);
      assert nodes == init + [x];
    }
  }

  lemma InitAndLast(nodes: seq<int>, lo: int, hi: int)
    requires nodes != []
    ensures var init, x := nodes[..|nodes| - 1], nodes[|nodes| - 1];
            && (AllWithin(nodes, lo, hi) <==> AllWithin(init, lo, hi) && lo <= x <= hi)
            && (NoneWithin(nodes, lo, hi) <==> NoneWithin(init, lo, hi) && !(lo <= x <= hi))
  {
    var n := |nodes| - 1;
    var init, x := nodes[..n], nodes[n];
    assert forall m :: 0 <= m < n ==> init[m] == nodes[m];
    if (forall m :: 0 <= m < n ==> lo <= init[m] <= hi) && lo <= x <= hi {
      forall m | 0 <= m <= n
        ensures lo <= nodes[m] <= hi
      {
        assert m < n ==> init[m] == nodes[m];
      }
    }
    if (forall m :: 0 <= m < n ==> !(lo <= init[m] <= hi)) && !(lo <= x <= hi) {
      forall m | 0 <= m <= n
        ensures !(lo <= nodes[m] <= hi)
      {
        assert m < n ==> init[m] == nodes[m];
      }
    }
  }

  /** What a compaction shadows is what it recorded exactly when no node standing inside the
      run is numbered outside the range. */
  lemma RecordedIsShadowed(nodes: seq<int>, lo: int, hi: int, first: nat, last: nat)
    requires Edges(nodes, lo, hi, first, last)
    ensures Between(nodes, lo, hi) == Between(nodes[first..last + 1], lo, hi)
    ensures Between(nodes, lo, hi) == nodes[first..last + 1] <==>
            forall m :: first <= m <= last ==> lo <= nodes[m] <= hi
  {
    BetweenMiddle(nodes, lo, hi, first, last);
    var b := nodes[first..last + 1];
    BetweenAll(b, lo, hi);
    if forall m :: 0 <= m < |b| ==> lo <= b[m] <= hi {
      forall m | first <= m <= last
        ensures lo <= nodes[m] <= hi
      {
        assert nodes[m] == b[m - first];
      }
    }
  }

  lemma BetweenMiddle(nodes: seq<int>, lo: int, hi: int, first: nat, last: nat)
    requires first <= last < |nodes|
    requires forall m :: 0 <= m < |nodes| && lo <= nodes[m] <= hi ==> first <= m <= last
    ensures Between(nodes, lo, hi) == Between(nodes[first..last + 1], lo, hi)
  {
    hide Between;
    var a, b, c := nodes[..first], nodes[first..last + 1], nodes[last + 1..];
    assert nodes == a + b + c;
    BetweenConcat(a + b, c, lo, hi);
    BetweenConcat(a, b, lo, hi);
    NoneBetween(a, lo, hi);
    NoneBetween(c, lo, hi);
  }

  lemma NoneBetween(nodes: seq<int>, lo: int, hi: int)
    requires forall m :: 0 <= m < |nodes| ==> !(lo <= nodes[m] <= hi)
    ensures Between(nodes, lo, hi) == []
  {
    BetweenAll(nodes, lo, hi);
  }

  ghost predicate Increasing(nodes: seq<int>) {
    forall i, j :: 0 <= i < j < |nodes| ==> nodes[i] < nodes[j]
  }

  /** Until the first replacement the surface increases and the numeric filter is the run. */
  lemma IncreasingRecordsTheRun(nodes: seq<int>, first: nat, last: nat)
    requires Increasing(nodes) && first <= last < |nodes|
    ensures Between(nodes, nodes[first], nodes[last]) == nodes[first..last + 1]
  {
    hide Between;
    var lo, hi := nodes[first], nodes[last];
    forall m | 0 <= m < |nodes|
      ensures lo <= nodes[m] <= hi <==> first <= m <= last
    {
    }
    assert Edges(nodes, lo, hi, first, last);
    RecordedIsShadowed(nodes, lo, hi, first, last);
  }
}
