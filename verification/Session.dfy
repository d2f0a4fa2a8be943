/** The session log, its writer and its replay, and the surface both of them fold (session/session.py). */
module Sessions {
  import opened Prelude
  import opened Messages

  datatype Kind =
    | UserMessage | AssistantMessage | ToolResult
    | TurnStart | TurnEnd | StepStart | StepEnd
    | AssistantChunk | ToolCall
    | CompactionStart | CompactionSummary | CompactionEnd
    | TodoWrite | GoalChange | ScheduleChange | InboxSpliced | PlanMode | FeedbackRecord
    | Unknown(name: string)

  predicate IsSurface(k: Kind) {
    k.UserMessage? || k.AssistantMessage? || k.ToolResult?
  }

  /** Event data is opaque except for the message it may carry, and for data that JSON would not give back
      unchanged, which no event may hold. */
  datatype Payload = MessageData(message: Message) | NodesData(nodes: seq<int>) | OtherData(note: int) | LossyData

  datatype SurfaceOp = NoOp | AppendOp | Replace(start: int, end: int)

  datatype Event = Event(kind: Kind, seqNo: int, data: Payload, op: SurfaceOp, sources: seq<int>)

  datatype Replacement = Replacement(newSeq: int, shadowed: seq<int>)

  /** Everything a session derives from its log. */
  datatype View = View(seqNo: int, surface: seq<int>, generation: nat, replacements: seq<Replacement>)

  datatype State = State(events: seq<Event>, view: View)

  datatype SessionError =
    | CannotReplace(kind: Kind)
    | UnknownEventType(name: string)
    | InvalidEventData
    | NotOnSurface(node: int)
    | NotARun(start: int, end: int)

  /** One call of append: what is recorded and how it touches the surface. */
  datatype Command = Command(kind: Kind, data: Payload, op: SurfaceOp, sources: seq<int>)

  const EMPTY_VIEW := View(0, [], 0, [])
  const EMPTY := State([], EMPTY_VIEW)

  // ---------------------------------------------------------------- the fold

  function Splice<T>(s: seq<T>, first: nat, last: nat, x: T): seq<T>
    requires first <= last < |s|
  {
    s[..first] + [x] + s[last + 1..]
  }

  /** `start` and `end` are nodes of the surface, in that order. */
  predicate NamesRun(surface: seq<int>, start: int, end: int) {
    start in surface && end in surface && IndexOf(surface, start) <= IndexOf(surface, end)
  }

  function ApplyReplace(v: View, start: int, end: int, newSeq: int): Result<View, SessionError> {
    if start !in v.surface then Err(NotOnSurface(start))
    else if end !in v.surface then Err(NotOnSurface(end))
    else
      var first, last := IndexOf(v.surface, start), IndexOf(v.surface, end);
      if last < first then Err(NotARun(start, end))
      else Ok(v.(surface := Splice(v.surface, first, last, newSeq),
                 generation := v.generation + 1,
                 replacements := v.replacements + [Replacement(newSeq, v.surface[first..last + 1])]))
  }

  /** Folding one stored event into the view. */
  function SeedStep(v: View, e: Event): Result<View, SessionError> {
    var v' := v.(seqNo := Max(v.seqNo, e.seqNo));
    if e.op.Replace? then ApplyReplace(v', e.op.start, e.op.end, e.seqNo)
    else if IsSurface(e.kind) then Ok(v'.(surface := v'.surface + [e.seqNo]))
    else Ok(v')
  }

  function Replay(events: seq<Event>): Result<View, SessionError> {
    if events == [] then Ok(EMPTY_VIEW)
    else
      var before := Replay(events[..|events| - 1]);
      if before.Err? then before else SeedStep(before.value, events[|events| - 1])
  }

  // -------------------------------------------------------------- the writer

  function Stored(s: State, c: Command): Event {
    Event(c.kind, s.view.seqNo + 1, c.data, if IsSurface(c.kind) then c.op else NoOp, c.sources)
  }

  /** The event is in the log and the surface is as it was. */
  function Logged(s: State, c: Command): State {
    State(s.events + [Stored(s, c)], s.view.(seqNo := s.view.seqNo + 1))
  }

  /** The event is in the log and at the end of the surface. */
  function Surfaced(s: State, c: Command): State {
    State(s.events + [Stored(s, c)],
          s.view.(seqNo := s.view.seqNo + 1, surface := s.view.surface + [s.view.seqNo + 1]))
  }

  /** The event is in the log and stands on the surface for the nodes from first to last. */
  function Replaced(s: State, c: Command, first: nat, last: nat): State
    requires first <= last < |s.view.surface|
  {
    var x := s.view.seqNo + 1;
    State(s.events + [Stored(s, c)],
          View(x, Splice(s.view.surface, first, last, x), s.view.generation + 1,
               s.view.replacements + [Replacement(x, s.view.surface[first..last + 1])]))
  }

  /** `append`: refusals leave the state alone, but a replacement that names no run fails
      with its event in the log. */
  function AppendStep(s: State, c: Command): (State, Result<Event, SessionError>) {
    if c.op.Replace? && !IsSurface(c.kind) then (s, Err(CannotReplace(c.kind)))
    else if c.kind.Unknown? then (s, Err(UnknownEventType(c.kind.name)))
    else if c.data.LossyData? then (s, Err(InvalidEventData))
    else if c.op.Replace? then
      var surface := s.view.surface;
      if c.op.start !in surface then (Logged(s, c), Err(NotOnSurface(c.op.start)))
      else if c.op.end !in surface then (Logged(s, c), Err(NotOnSurface(c.op.end)))
      else if IndexOf(surface, c.op.end) < IndexOf(surface, c.op.start) then
        (Logged(s, c), Err(NotARun(c.op.start, c.op.end)))
      else
        (Replaced(s, c, IndexOf(surface, c.op.start), IndexOf(surface, c.op.end)), Ok(Stored(s, c)))
    else if IsSurface(c.kind) then (Surfaced(s, c), Ok(Stored(s, c)))
    else (Logged(s, c), Ok(Stored(s, c)))
  }

  function Append(s: State, c: Command): State {
    AppendStep(s, c).0
  }

  /** A log-only event leaves the surface alone. */
  lemma AppendLogOnly(s: State, c: Command)
    requires !IsSurface(c.kind) && !c.kind.Unknown? && !c.op.Replace? && !c.data.LossyData?
    ensures AppendStep(s, c) == (Logged(s, c), Ok(Stored(s, c)))
  {
  }

  /** A replacement that names its run by the nodes at two positions. */
  lemma AppendReplacing(s: State, c: Command, first: nat, last: nat)
    requires first <= last < |s.view.surface| && Distinct(s.view.surface)
    requires IsSurface(c.kind) && !c.data.LossyData?
    requires c.op == Replace(s.view.surface[first], s.view.surface[last])
    ensures AppendStep(s, c) == (Replaced(s, c, first, last), Ok(Stored(s, c)))
    ensures Append(s, c).view.seqNo == s.view.seqNo + 1
  {
    IndexOfDistinct(s.view.surface, first);
    IndexOfDistinct(s.view.surface, last);
  }

  function Run(s: State, cs: seq<Command>): State {
    if cs == [] then s else Append(Run(s, cs[..|cs| - 1]), cs[|cs| - 1])
  }

  /** The one way an append can fail after the event is committed. */
  predicate CommitsThenFails(s: State, c: Command) {
    && c.op.Replace? && IsSurface(c.kind) && !c.data.LossyData?
    && !NamesRun(s.view.surface, c.op.start, c.op.end)
  }

  /** Every replacement named a run of the surface at the moment it was appended. */
  predicate AllNamed(s: State, cs: seq<Command>) {
    cs == [] ||
    (AllNamed(s, cs[..|cs| - 1]) && !CommitsThenFails(Run(s, cs[..|cs| - 1]), cs[|cs| - 1]))
  }

  class Session {
    var events: seq<Event>
    var lastSeq: int
    var surface: seq<int>
    var generation: nat
    var replacements: seq<Replacement>

    ghost function Model(): State
      reads this
    {
      State(events, View(lastSeq, surface, generation, replacements))
    }

    constructor ()
      ensures Model() == EMPTY
    {
      events, lastSeq, surface, generation, replacements := [], 0, [], 0, [];
    }

    method ApplySurfaceReplace(start: int, end: int, newSeq: int) returns (r: Result<(), SessionError>)
      modifies this`surface, this`generation, this`replacements
      ensures r.Ok? <==> NamesRun(old(surface), start, end)
      ensures match ApplyReplace(old(Model()).view, start, end, newSeq)
              case Ok(v) => r.Ok? && Model() == old(Model()).(view := v)
              case Err(error) => r == Err(error) && Model() == old(Model())
    {
      if start !in surface {
        return Err(NotOnSurface(start));
      }
      if end !in surface {
        return Err(NotOnSurface(end));
      }
      var first, last := IndexOf(surface, start), IndexOf(surface, end);
      if last < first {
        return Err(NotARun(start, end));
      }
      var shadowed := surface[first..last + 1];
      surface := surface[..first] + [newSeq] + surface[last + 1..];
      generation := generation + 1;
      replacements := replacements + [Replacement(newSeq, shadowed)];
      return Ok(());
    }

    method Append(c: Command) returns (r: Result<Event, SessionError>)
      modifies this
      ensures Model() == AppendStep(old(Model()), c).0
      ensures r == AppendStep(old(Model()), c).1
    {
      if c.op.Replace? && !IsSurface(c.kind) {
        return Err(CannotReplace(c.kind));
      }
      if c.kind.Unknown? {
        return Err(UnknownEventType(c.kind.name));
      }
      if c.data.LossyData? {
        return Err(InvalidEventData);
      }
      lastSeq := lastSeq + 1;
      var e := Event(c.kind, lastSeq, c.data, if IsSurface(c.kind) then c.op else NoOp, c.sources);
      events := events + [e];
      if c.op.Replace? {
        var replaced := ApplySurfaceReplace(c.op.start, c.op.end, e.seqNo);
        if replaced.Err? {
          return Err(replaced.error);
        }
      } else if IsSurface(c.kind) {
        surface := surface + [e.seqNo];
      }
      return Ok(e);
    }

    method Seed(e: Event) returns (r: Result<(), SessionError>)
      modifies this
      ensures events == old(events) + [e]
      ensures match SeedStep(old(Model()).view, e)
              case Ok(v) => r.Ok? && Model().view == v
              case Err(error) => r == Err(error)
    {
      events := events + [e];
      lastSeq := Max(lastSeq, e.seqNo);
      if e.op.Replace? {
        r := ApplySurfaceReplace(e.op.start, e.op.end, e.seqNo);
      } else {
        if IsSurface(e.kind) {
          surface := surface + [e.seqNo];
        }
        r := Ok(());
      }
    }

    /** Rebuild a session from stored events, as `from_json` and `load` do. */
    static method FromEvents(stored: seq<Event>) returns (r: Result<Session, SessionError>)
      ensures match Replay(stored)
              case Ok(v) => r.Ok? && fresh(r.value) && r.value.Model() == State(stored, v)
              case Err(error) => r == Err(error)
    {
      hide SeedStep;
      var session := new Session();
      for i := 0 to |stored|
        invariant fresh(session) && session.events == stored[..i]
        invariant Replay(stored[..i]) == Ok(session.Model().view)
      {
        assert stored[..i + 1][..i] == stored[..i];
        var seeded := session.Seed(stored[i]);
        if seeded.Err? {
          ReplayFailureSticks(stored[..i + 1], stored[i + 1..]);
          assert stored[..i + 1] + stored[i + 1..] == stored;
          return Err(seeded.error);
        }
      }
      assert stored[..|stored|] == stored;
      return Ok(session);
    }
  }

  lemma {:induction false} ReplayFailureSticks(events: seq<Event>, more: seq<Event>)
    requires Replay(events).Err?
    ensures Replay(events + more) == Replay(events)
  {
    if more == [] {
      assert events + more == events;
    } else {
      ReplayFailureSticks(events, more[..|more| - 1]);
      assert (events + more)[..|events + more| - 1] == events + more[..|more| - 1];
    }
  }

  // ---------------------------------------------------------- live = replayed

  /** Log positions and sequence numbers agree: the i-th event has seq i + 1. */
  ghost predicate Numbered(s: State) {
    s.view.seqNo == |s.events| && forall i :: 0 <= i < |s.events| ==> s.events[i].seqNo == i + 1
  }

  lemma {:induction false} RunNumbered(cs: seq<Command>)
    ensures Numbered(Run(EMPTY, cs))
  {
    if cs != [] {
      RunNumbered(cs[..|cs| - 1]);
    }
  }

  lemma AppendSeedsTheSame(s: State, c: Command)
    requires Numbered(s)
    requires Append(s, c) != s
    ensures var e := Stored(s, c);
            Append(s, c).events == s.events + [e] &&
            SeedStep(s.view, e) == if CommitsThenFails(s, c) then Err(AppendStep(s, c).1.error)
                                   else Ok(Append(s, c).view)
  {
  }

  /** A live session equals the session rebuilt from its log exactly when every replacement
      named a run; one that did not leaves a log that can never be rebuilt. */
  lemma {:induction false} LiveEqualsReplayed(cs: seq<Command>)
    ensures AllNamed(EMPTY, cs) ==> Replay(Run(EMPTY, cs).events) == Ok(Run(EMPTY, cs).view)
    ensures !AllNamed(EMPTY, cs) ==> Replay(Run(EMPTY, cs).events).Err?
  {
    if cs != [] {
      var before, c := Run(EMPTY, cs[..|cs| - 1]), cs[|cs| - 1];
      LiveEqualsReplayed(cs[..|cs| - 1]);
      RunNumbered(cs[..|cs| - 1]);
      if Append(before, c) != before {
        AppendSeedsTheSame(before, c);
        assert (before.events + [Stored(before, c)])[..|before.events|] == before.events;
      }
    }
  }

  /** The smallest witness: replacing a node that is not there is refused, yet it is in the log. */
  lemma FailedReplaceIsCommitted()
    ensures var c := Command(UserMessage, OtherData(0), Replace(1, 1), []);
            AppendStep(EMPTY, c).1 == Err(NotOnSurface(1)) &&
            |Append(EMPTY, c).events| == 1 &&
            Replay(Append(EMPTY, c).events) == Err(NotOnSurface(1))
  {
    var e := Stored(EMPTY, Command(UserMessage, OtherData(0), Replace(1, 1), []));
    assert [e][..0] == [];
    assert SeedStep(EMPTY_VIEW, e) == Err(NotOnSurface(1));
  }

  // --------------------------------------------------- nothing lost or doubled

  function SurfaceSeqs(events: seq<Event>): seq<int> {
    if events == [] then []
    else
      var e := events[|events| - 1];
      if IsSurface(e.kind) then SurfaceSeqs(events[..|events| - 1]) + [e.seqNo]
      else SurfaceSeqs(events[..|events| - 1])
  }

  function Shadowed(rs: seq<Replacement>): seq<int> {
    if rs == [] then [] else Shadowed(rs[..|rs| - 1]) + rs[|rs| - 1].shadowed
  }

  /** The seqs of the replacements that failed after being committed. */
  function Lost(s: State, cs: seq<Command>): seq<int> {
    if cs == [] then []
    else
      var before := Run(s, cs[..|cs| - 1]);
      if CommitsThenFails(before, cs[|cs| - 1]) then Lost(s, cs[..|cs| - 1]) + [before.view.seqNo + 1]
      else Lost(s, cs[..|cs| - 1])
  }

  /** Every element of `total` is in exactly one of the three places, as often as in `total`. */
  ghost predicate Accounted(total: seq<int>, on: seq<int>, off: seq<int>, lost: seq<int>) {
    multiset(total) == multiset(on) + multiset(off) + multiset(lost)
  }

  lemma AccountedSplice(total: seq<int>, on: seq<int>, off: seq<int>, lost: seq<int>, first: nat, last: nat, x: int)
    requires Accounted(total, on, off, lost) && first <= last < |on|
    ensures Accounted(total + [x], Splice(on, first, last, x), off + on[first..last + 1], lost)
  {
    var a, b, c := on[..first], on[first..last + 1], on[last + 1..];
    assert on == a + b + c;
    assert multiset(a + [x] + c) == multiset(a) + multiset{x} + multiset(c);
  }

  lemma SurfaceSeqsSnoc(events: seq<Event>, e: Event)
    ensures SurfaceSeqs(events + [e]) ==
            if IsSurface(e.kind) then SurfaceSeqs(events) + [e.seqNo] else SurfaceSeqs(events)
  {
    assert (events + [e])[..|events|] == events;
  }

  lemma ShadowedSnoc(rs: seq<Replacement>, r: Replacement)
    ensures Shadowed(rs + [r]) == Shadowed(rs) + r.shadowed
  {
    assert (rs + [r])[..|rs|] == rs;
  }

  ghost predicate StateAccounted(s: State, lost: seq<int>) {
    Accounted(SurfaceSeqs(s.events), s.view.surface, Shadowed(s.view.replacements), lost)
  }

  lemma ReplacedAccounted(s: State, c: Command, lost: seq<int>, first: nat, last: nat)
    requires StateAccounted(s, lost) && IsSurface(c.kind) && first <= last < |s.view.surface|
    ensures StateAccounted(Replaced(s, c, first, last), lost)
  {
    hide SurfaceSeqs, Shadowed, Accounted, Splice;
    var x := s.view.seqNo + 1;
    SurfaceSeqsSnoc(s.events, Stored(s, c));
    AccountedSplice(SurfaceSeqs(s.events), s.view.surface, Shadowed(s.view.replacements), lost, first, last, x);
    ShadowedSnoc(s.view.replacements, Replacement(x, s.view.surface[first..last + 1]));
  }

  lemma SurfacedAccounted(s: State, c: Command, lost: seq<int>)
    requires StateAccounted(s, lost) && IsSurface(c.kind)
    ensures StateAccounted(Surfaced(s, c), lost)
  {
    SurfaceSeqsSnoc(s.events, Stored(s, c));
  }

  lemma LoggedAccounted(s: State, c: Command, lost: seq<int>)
    requires StateAccounted(s, lost)
    ensures StateAccounted(Logged(s, c), if IsSurface(c.kind) then lost + [s.view.seqNo + 1] else lost)
  {
    SurfaceSeqsSnoc(s.events, Stored(s, c));
  }

  /** What one append does to the account of surface events. */
  lemma AppendAccounted(s: State, c: Command, lost: seq<int>)
    requires StateAccounted(s, lost)
    ensures StateAccounted(Append(s, c), if CommitsThenFails(s, c) then lost + [s.view.seqNo + 1] else lost)
  {
    if c.op.Replace? && !IsSurface(c.kind) {
    } else if c.kind.Unknown? || c.data.LossyData? {
    } else if c.op.Replace? && NamesRun(s.view.surface, c.op.start, c.op.end) {
      ReplacedAccounted(s, c, lost, IndexOf(s.view.surface, c.op.start), IndexOf(s.view.surface, c.op.end));
    } else if c.op.Replace? || !IsSurface(c.kind) {
      LoggedAccounted(s, c, lost);
      assert Append(s, c) == Logged(s, c);
    } else {
      SurfacedAccounted(s, c, lost);
    }
  }

  /** The surface-typed events are the disjoint union of the current surface, the shadowed
      lists and the replacements that failed. */
  lemma {:induction false} SurfacePartition(cs: seq<Command>)
    ensures StateAccounted(Run(EMPTY, cs), Lost(EMPTY, cs))
  {
    hide StateAccounted, Append, CommitsThenFails;
    if cs == [] {
      NothingAccounted();
    } else {
      SurfacePartition(cs[..|cs| - 1]);
      AppendAccounted(Run(EMPTY, cs[..|cs| - 1]), cs[|cs| - 1], Lost(EMPTY, cs[..|cs| - 1]));
    }
  }

  lemma NothingAccounted()
    ensures StateAccounted(EMPTY, [])
  {
  }

  lemma {:induction false} NothingLost(cs: seq<Command>)
    ensures AllNamed(EMPTY, cs) <==> Lost(EMPTY, cs) == []
  {
    if cs != [] {
      hide CommitsThenFails, Run;
      NothingLost(cs[..|cs| - 1]);
    }
  }

  lemma {:induction false} SurfaceSeqsDistinct(events: seq<Event>)
    requires forall i :: 0 <= i < |events| ==> events[i].seqNo == i + 1
    ensures forall x :: x in SurfaceSeqs(events) <==> 1 <= x <= |events| && IsSurface(events[x - 1].kind)
    ensures Distinct(SurfaceSeqs(events))
  {
    if events != [] {
      SurfaceSeqsDistinct(events[..|events| - 1]);
      var before := SurfaceSeqs(events[..|events| - 1]);
      assert forall i :: 0 <= i < |before| ==> before[i] in before;
    }
  }

  /** In a run without failed replacements no event is on the surface twice, nor both on the
      surface and shadowed, nor shadowed twice. */
  lemma ShadowedOnce(cs: seq<Command>, x: int)
    requires AllNamed(EMPTY, cs)
    ensures var s := Run(EMPTY, cs);
            multiset(s.view.surface)[x] + multiset(Shadowed(s.view.replacements))[x] ==
            if 1 <= x <= |s.events| && IsSurface(s.events[x - 1].kind) then 1 else 0
  {
    hide Run, SurfaceSeqs, Shadowed, AllNamed, Lost, StateAccounted, IsSurface;
    var s := Run(EMPTY, cs);
    RunNumbered(cs);
    SurfacePartition(cs);
    NothingLost(cs);
    SurfaceSeqsDistinct(s.events);
    DistinctCount(SurfaceSeqs(s.events), x);
    AccountOf(s, x);
  }

  lemma AccountOf(s: State, x: int)
    requires StateAccounted(s, [])
    ensures multiset(SurfaceSeqs(s.events))[x] ==
            multiset(s.view.surface)[x] + multiset(Shadowed(s.view.replacements))[x]
  {
    hide SurfaceSeqs, Shadowed;
    var none: seq<int> := [];
    assert multiset(none) == multiset{};
  }

  lemma {:induction false} DistinctCount(s: seq<int>, x: int)
    requires Distinct(s)
    ensures multiset(s)[x] == if x in s then 1 else 0
  {
    if s != [] {
      DistinctCount(s[1..], x);
      assert s == [s[0]] + s[1..];
    }
  }

  /** Every surface node is a surface-typed event of the log, and no node appears twice. */
  ghost predicate WellFormed(s: State) {
    && Numbered(s)
    && Distinct(s.view.surface)
    && forall i :: 0 <= i < |s.view.surface| ==>
         1 <= s.view.surface[i] <= |s.events| && IsSurface(s.events[s.view.surface[i] - 1].kind)
  }

  lemma SpliceDistinct(s: seq<int>, first: nat, last: nat, x: int)
    requires first <= last < |s| && Distinct(s) && x !in s
    ensures Distinct(Splice(s, first, last, x))
  {
    var s' := Splice(s, first, last, x);
    forall i, j | 0 <= i < j < |s'|
      ensures s'[i] != s'[j]
    {
      var i' := if i < first then i else i + (last - first);
      var j' := if j < first then j else j + (last - first);
      assert i == first || s'[i] == s[i'];
      assert j == first || s'[j] == s[j'];
    }
  }

  /** Well-formedness is kept by each append, failed or not. */
  lemma AppendWellFormed(s: State, c: Command)
    requires WellFormed(s)
    ensures WellFormed(Append(s, c))
  {
    hide WellFormed;
    if c.op.Replace? && !IsSurface(c.kind) {
    } else if c.kind.Unknown? || c.data.LossyData? {
    } else if c.op.Replace? && NamesRun(s.view.surface, c.op.start, c.op.end) {
      ReplacedWellFormed(s, c, IndexOf(s.view.surface, c.op.start), IndexOf(s.view.surface, c.op.end));
    } else if c.op.Replace? || !IsSurface(c.kind) {
      LoggedWellFormed(s, c);
      assert Append(s, c) == Logged(s, c);
    } else {
      SurfacedWellFormed(s, c);
    }
  }

  lemma LoggedWellFormed(s: State, c: Command)
    requires WellFormed(s)
    ensures WellFormed(Logged(s, c))
  {
  }

  lemma SurfacedWellFormed(s: State, c: Command)
    requires WellFormed(s) && IsSurface(c.kind)
    ensures WellFormed(Surfaced(s, c))
  {
  }

  lemma ReplacedWellFormed(s: State, c: Command, first: nat, last: nat)
    requires WellFormed(s) && IsSurface(c.kind) && first <= last < |s.view.surface|
    ensures WellFormed(Replaced(s, c, first, last))
  {
    SpliceDistinct(s.view.surface, first, last, s.view.seqNo + 1);
  }

  lemma {:induction false} RunWellFormed(cs: seq<Command>)
    ensures WellFormed(Run(EMPTY, cs))
  {
    if cs != [] {
      RunWellFormed(cs[..|cs| - 1]);
      AppendWellFormed(Run(EMPTY, cs[..|cs| - 1]), cs[|cs| - 1]);
    }
  }

  // ---------------------------------------------------------- derived messages

  /** The event of the log with this number. */
  function EventOf(events: seq<Event>, node: int): Option<Event> {
    if events == [] then None
    else if events[|events| - 1].seqNo == node then Some(events[|events| - 1])
    else EventOf(events[..|events| - 1], node)
  }

  lemma {:induction false} EventOfNumbered(events: seq<Event>, node: int)
    requires forall i :: 0 <= i < |events| ==> events[i].seqNo == i + 1
    ensures EventOf(events, node) == if 1 <= node <= |events| then Some(events[node - 1]) else None
  {
    if events != [] {
      EventOfNumbered(events[..|events| - 1], node);
    }
  }

  function DeriveEventMessage(e: Event): Option<Payload> {
    match e.kind
    case UserMessage => Some(e.data)
    case AssistantMessage => if e.data.MessageData? then Some(e.data) else None
    case ToolResult => if e.data.MessageData? then Some(e.data) else None
    case _ => None
  }

  predicate InLog(events: seq<Event>, nodes: seq<int>) {
    forall i :: 0 <= i < |nodes| ==> 1 <= nodes[i] <= |events|
  }

  function MessagesOf(events: seq<Event>, nodes: seq<int>): seq<Payload>
    requires InLog(events, nodes)
  {
    if nodes == [] then []
    else
      var m := DeriveEventMessage(events[nodes[|nodes| - 1] - 1]);
      MessagesOf(events, nodes[..|nodes| - 1]) + (if m.Some? then [m.value] else [])
  }

  /** An event the model gets to see: what a user said, or an answer or a result whose data holds a message. */
  predicate IsSeen(e: Event) {
    e.kind.UserMessage? || ((e.kind.AssistantMessage? || e.kind.ToolResult?) && e.data.MessageData?)
  }

  /** `at` are the places, in rising order, of the nodes whose events the model gets to see, and the messages are
      the data of those events. */
  ghost predicate SeenAt(events: seq<Event>, nodes: seq<int>, messages: seq<Payload>, at: seq<nat>)
    requires InLog(events, nodes)
  {
    && (forall i, j :: 0 <= i < j < |at| ==> at[i] < at[j])
    && (forall i :: 0 <= i < |at| ==> at[i] < |nodes|)
    && (forall k: nat :: k < |nodes| ==> (k in at <==> IsSeen(events[nodes[k] - 1])))
    && |messages| == |at|
    && (forall i :: 0 <= i < |at| ==> messages[i] == events[nodes[at[i]] - 1].data)
  }

  /** Every node's event holds a message. */
  ghost predicate AllHold(events: seq<Event>, nodes: seq<int>)
    requires InLog(events, nodes)
  {
    forall k :: 0 <= k < |nodes| ==> IsSurface(events[nodes[k] - 1].kind) && events[nodes[k] - 1].data.MessageData?
  }

  lemma MessagesSnoc(events: seq<Event>, nodes: seq<int>)
    requires nodes != [] && InLog(events, nodes)
    ensures var n := |nodes| - 1;
            var e := events[nodes[n] - 1];
            MessagesOf(events, nodes) ==
            if IsSeen(e) then MessagesOf(events, nodes[..n]) + [e.data] else MessagesOf(events, nodes[..n])
  {
  }

  lemma NothingSeen(events: seq<Event>)
    ensures SeenAt(events, [], MessagesOf(events, []), []) && OneForOne(events, [], MessagesOf(events, []))
  {
  }

  lemma {:induction false} MessagesAreSeen(events: seq<Event>, nodes: seq<int>) returns (at: seq<nat>)
    requires InLog(events, nodes)
    ensures SeenAt(events, nodes, MessagesOf(events, nodes), at)
  {
    hide IsSeen, SeenAt, MessagesOf;
    NothingSeen(events);
    at := [];
    if nodes != [] {
      var n := |nodes| - 1;
      at := MessagesAreSeen(events, nodes[..n]);
      MessagesSnoc(events, nodes);
      SeenSnoc(events, nodes, MessagesOf(events, nodes[..n]), at);
      at := if IsSeen(events[nodes[n] - 1]) then at + [n] else at;
    }
  }

  lemma SeenSnoc(events: seq<Event>, nodes: seq<int>, messages: seq<Payload>, at: seq<nat>)
    requires nodes != [] && InLog(events, nodes) && SeenAt(events, nodes[..|nodes| - 1], messages, at)
    ensures var n := |nodes| - 1;
            var e := events[nodes[n] - 1];
            if IsSeen(e) then SeenAt(events, nodes, messages + [e.data], at + [n])
            else SeenAt(events, nodes, messages, at)
  {
    hide IsSeen;
    var n := |nodes| - 1;
    assert forall k: nat :: k < n ==> nodes[..n][k] == nodes[k];
    assert forall k :: k in at ==> k < n;
    assert forall k :: k in at + [n] <==> k in at || k == n;
  }

  /** The messages are the data of the nodes' events, one for one. */
  ghost predicate OneForOne(events: seq<Event>, nodes: seq<int>, messages: seq<Payload>)
    requires InLog(events, nodes)
  {
    |messages| == |nodes| && forall i :: 0 <= i < |nodes| ==> messages[i] == events[nodes[i] - 1].data
  }

  lemma AllHoldInit(events: seq<Event>, nodes: seq<int>)
    requires nodes != [] && InLog(events, nodes) && AllHold(events, nodes)
    ensures AllHold(events, nodes[..|nodes| - 1]) && IsSeen(events[nodes[|nodes| - 1] - 1])
  {
  }

  lemma OneMore(events: seq<Event>, nodes: seq<int>, messages: seq<Payload>)
    requires nodes != [] && InLog(events, nodes) && OneForOne(events, nodes[..|nodes| - 1], messages)
    ensures OneForOne(events, nodes, messages + [events[nodes[|nodes| - 1] - 1].data])
  {
  }

  lemma {:induction false} AllMessagesAreSeen(events: seq<Event>, nodes: seq<int>)
    requires InLog(events, nodes) && AllHold(events, nodes)
    ensures OneForOne(events, nodes, MessagesOf(events, nodes))
  {
    hide AllHold, OneForOne, IsSeen;
    if nodes == [] {
      NothingSeen(events);
    } else {
      hide MessagesOf;
      var n := |nodes| - 1;
      AllHoldInit(events, nodes);
      AllMessagesAreSeen(events, nodes[..n]);
      OneMore(events, nodes, MessagesOf(events, nodes[..n]));
      MessagesSnoc(events, nodes);
    }
  }

  /** What the model sees of the nodes: the data of those events it gets to see, in order; of nodes that all hold
      messages, the messages of all. */
  ghost predicate Follows(events: seq<Event>, nodes: seq<int>, messages: seq<Payload>) {
    && InLog(events, nodes)
    && (exists at :: SeenAt(events, nodes, messages, at))
    && (AllHold(events, nodes) ==> OneForOne(events, nodes, messages))
  }

  lemma MessagesFollow(events: seq<Event>, nodes: seq<int>)
    requires InLog(events, nodes)
    ensures Follows(events, nodes, MessagesOf(events, nodes))
  {
    hide MessagesOf, SeenAt, AllHold, OneForOne;
    var _ := MessagesAreSeen(events, nodes);
    if AllHold(events, nodes) {
      AllMessagesAreSeen(events, nodes);
    }
  }

  /** `derive_messages` never finds a dangling node and follows the surface in order. */
  method DeriveMessages(session: Session) returns (r: Result<seq<Payload>, int>)
    requires WellFormed(session.Model())
    ensures r == Ok(MessagesOf(session.events, session.surface))
    ensures Follows(session.events, session.surface, r.value)
  {
    hide DeriveEventMessage, Follows;
    var messages: seq<Payload> := [];
    var nodes := session.surface;
    for i := 0 to |nodes|
      invariant messages == MessagesOf(session.events, nodes[..i])
    {
      EventOfNumbered(session.events, nodes[i]);
      var event := EventOf(session.events, nodes[i]);
      assert nodes[..i + 1][..i] == nodes[..i];
      if event.None? {
        assert false;
      } else {
        var message := DeriveEventMessage(event.value);
        if message.Some? {
          messages := messages + [message.value];
        }
      }
    }
    assert nodes[..|nodes|] == nodes;
    MessagesFollow(session.events, nodes);
    return Ok(messages);
  }

  lemma {:induction false} MessagesOfConcat(events: seq<Event>, a: seq<int>, b: seq<int>)
    requires InLog(events, a) && InLog(events, b)
    ensures MessagesOf(events, a + b) == MessagesOf(events, a) + MessagesOf(events, b)
  {
    if b == [] {
      assert a + b == a;
    } else {
      assert (a + b)[..|a + b| - 1] == a + b[..|b| - 1];
      MessagesOfConcat(events, a, b[..|b| - 1]);
    }
  }
}
