/** Outstanding tool calls as prefix sums over the surface, and the memoised balance of its cuts
    (session/pairing.py). */
module Pairing {
  import opened Prelude
  import opened Messages
  import opened Sessions

  /** How one surface event changes the number of unanswered tool calls. */
  function Delta(e: Event): int {
    match e.kind
    case AssistantMessage => if e.data.MessageData? then CountCalls(e.data.message.content) else 0
    case ToolResult => -1
    case _ => 0
  }

  function Deltas(events: seq<Event>, nodes: seq<int>): (ds: seq<int>)
    requires InLog(events, nodes)
    ensures |ds| == |nodes|
  {
    seq(|nodes|, i requires 0 <= i < |nodes| => Delta(events[nodes[i] - 1]))
  }

  function StateDeltas(s: State): seq<int>
    requires InLog(s.events, s.view.surface)
  {
    Deltas(s.events, s.view.surface)
  }

  /** The number of unanswered calls before the node at position k. */
  function Outstanding(ds: seq<int>, k: nat): int
    requires k <= |ds|
  {
    Sum(ds[..k])
  }

  ghost predicate NonNegativeTo(ds: seq<int>, n: nat)
    requires n <= |ds|
  {
    forall k :: 0 <= k <= n ==> Outstanding(ds, k) >= 0
  }

  ghost predicate NonNegative(ds: seq<int>) {
    NonNegativeTo(ds, |ds|)
  }

  lemma OutstandingStep(ds: seq<int>, i: nat)
    requires i < |ds|
    ensures Outstanding(ds, i + 1) == Outstanding(ds, i) + ds[i]
  {
    assert ds[..i + 1] == ds[..i] + [ds[i]];
    SumSnoc(ds[..i], ds[i]);
  }

  datatype Balance = Balance(generation: nat, cuts: seq<bool>, index: map<int, nat>)

  datatype PairingError = Unanswered(node: int) | Dangling(node: int) | NotOnTheSurface(node: int)

  function CutsOf(ds: seq<int>): seq<bool> {
    seq(|ds| + 1, k requires 0 <= k <= |ds| => Outstanding(ds, k) == 0)
  }

  function IndexMap(nodes: seq<int>): (m: map<int, nat>)
    ensures forall n :: n in m <==> n in nodes
    ensures forall n :: n in m ==> m[n] == IndexOf(nodes, n)
  {
    map n | n in nodes :: IndexOf(nodes, n)
  }

  function BalanceOf(generation: nat, events: seq<Event>, nodes: seq<int>): Balance
    requires InLog(events, nodes)
  {
    Balance(generation, CutsOf(Deltas(events, nodes)), IndexMap(nodes))
  }

  /** The recomputed answer: an error exactly when some prefix answers more than was asked. */
  ghost predicate IsFresh(s: State, r: Result<Balance, PairingError>)
    requires InLog(s.events, s.view.surface)
  {
    var ds := StateDeltas(s);
    if NonNegative(ds) then r == Ok(BalanceOf(s.view.generation, s.events, s.view.surface))
    else exists k: nat :: FirstNegative(ds, k) && r == Err(Unanswered(s.view.surface[k]))
  }

  ghost predicate FirstNegative(ds: seq<int>, k: nat) {
    k < |ds| && Outstanding(ds, k + 1) < 0 && NonNegativeTo(ds, k)
  }

  /** What the cache may hold: an answer from an earlier generation, or the answer for a
      prefix of today's surface. */
  ghost predicate Coherent(cached: Option<Balance>, s: State)
    requires InLog(s.events, s.view.surface)
  {
    cached.Some? ==>
      var b := cached.value;
      && b.generation <= s.view.generation
      && 1 <= |b.cuts|
      && (b.generation == s.view.generation ==>
            && |b.cuts| - 1 <= |s.view.surface|
            && var nodes := s.view.surface[..|b.cuts| - 1];
               InLog(s.events, nodes) && NonNegative(Deltas(s.events, nodes))
               && b == BalanceOf(b.generation, s.events, nodes))
  }

  predicate Hit(cached: Option<Balance>, s: State) {
    cached.Some? && cached.value.generation == s.view.generation
    && |cached.value.cuts| == |s.view.surface| + 1
  }

  /** A hit is always the freshly computed answer. */
  lemma HitIsFresh(cached: Option<Balance>, s: State)
    requires InLog(s.events, s.view.surface)
    requires Coherent(cached, s) && Hit(cached, s)
    ensures IsFresh(s, Ok(cached.value))
  {
    assert s.view.surface[..|s.view.surface|] == s.view.surface;
  }

  lemma DeltasStable(events: seq<Event>, e: Event, nodes: seq<int>)
    requires InLog(events, nodes)
    ensures InLog(events + [e], nodes) && Deltas(events + [e], nodes) == Deltas(events, nodes)
  {
  }

  /** Nothing a session can append, failed replacements included, makes the cache stale. */
  lemma AppendKeepsCoherent(cached: Option<Balance>, s: State, c: Command)
    requires WellFormed(s) && Coherent(cached, s)
    ensures WellFormed(Append(s, c)) && Coherent(cached, Append(s, c))
  {
    AppendWellFormed(s, c);
    var s' := Append(s, c);
    if s' != s && cached.Some? && cached.value.generation == s'.view.generation {
      var nodes := s.view.surface[..|cached.value.cuts| - 1];
      assert s'.view.surface[..|cached.value.cuts| - 1] == nodes;
      DeltasStable(s.events, Stored(s, c), nodes);
    }
  }

  ghost predicate Walked(ds: seq<int>, nodes: seq<int>, n: nat, cuts: seq<bool>, index: map<int, nat>)
    requires |ds| == |nodes| && n <= |nodes|
  {
    && NonNegativeTo(ds, n)
    && |cuts| == n + 1
    && (forall k :: 0 <= k <= n ==> cuts[k] == (Outstanding(ds, k) == 0))
    && (forall x :: x in index <==> x in nodes[..n])
    && (forall j :: 0 <= j < n ==> nodes[j] in index && index[nodes[j]] == j)
  }

  lemma WalkStep(ds: seq<int>, nodes: seq<int>, n: nat, cuts: seq<bool>, index: map<int, nat>)
    requires |ds| == |nodes| && n < |nodes| && Distinct(nodes) && Walked(ds, nodes, n, cuts, index)
    requires Outstanding(ds, n + 1) >= 0
    ensures Walked(ds, nodes, n + 1, cuts + [Outstanding(ds, n + 1) == 0], index[nodes[n] := n])
  {
    assert nodes[..n + 1] == nodes[..n] + [nodes[n]];
  }

  /** How one event changes the number of unanswered tool calls: it asks for each of its calls, or answers one. */
  method OutstandingDelta(e: Event) returns (d: int)
    ensures d == Delta(e)
  {
    d := 0;
    if e.kind.AssistantMessage? && e.data.MessageData? {
      var content := e.data.message.content;
      for i := 0 to |content|
        invariant d == CountCalls(content[..i])
      {
        assert content[..i + 1][..i] == content[..i];
        if content[i].ToolCallBlock? {
          d := d + 1;
        }
      }
      assert content[..|content|] == content;
    } else if e.kind.ToolResult? {
      d := -1;
    }
  }

  /** The walk over the surface: the balanced cuts and where each node sits. */
  method Walk(events: seq<Event>, nodes: seq<int>)
    returns (r: Result<(seq<bool>, map<int, nat>), PairingError>)
    requires forall i :: 0 <= i < |events| ==> events[i].seqNo == i + 1
    requires InLog(events, nodes) && Distinct(nodes)
    ensures var ds := Deltas(events, nodes);
            match r
            case Ok(w) => Walked(ds, nodes, |nodes|, w.0, w.1)
            case Err(error) => exists k: nat :: FirstNegative(ds, k) && error == Unanswered(nodes[k])
  {
    ghost var ds := Deltas(events, nodes);
    var cuts: seq<bool>, index: map<int, nat>, outstanding := [true], map[], 0;
    for i := 0 to |nodes|
      invariant outstanding == Outstanding(ds, i) && Walked(ds, nodes, i, cuts, index)
    {
      EventOfNumbered(events, nodes[i]);
      var event := EventOf(events, nodes[i]);
      if event.None? {
        assert false;
      } else {
        OutstandingStep(ds, i);
        var delta := OutstandingDelta(event.value);
        outstanding := outstanding + delta;
        if outstanding < 0 {
          assert FirstNegative(ds, i);
          return Err(Unanswered(nodes[i]));
        }
        WalkStep(ds, nodes, i, cuts, index);
        cuts := cuts + [outstanding == 0];
        index := index[nodes[i] := i];
      }
    }
    return Ok((cuts, index));
  }

  class BalanceCache {
    var cached: Option<Balance>

    constructor ()
      ensures cached == None
    {
      cached := None;
    }

    method SurfaceBalance(session: Session) returns (r: Result<Balance, PairingError>)
      requires WellFormed(session.Model()) && Coherent(cached, session.Model())
      modifies this
      ensures IsFresh(session.Model(), r)
      ensures Coherent(cached, session.Model())
    {
      var nodes, events := session.surface, session.events;
      if cached.Some? && cached.value.generation == session.generation
         && |cached.value.cuts| == |nodes| + 1
      {
        HitIsFresh(cached, session.Model());
        return Ok(cached.value);
      }
      var walked := Walk(events, nodes);
      if walked.Err? {
        return Err(walked.error);
      }
      var (cuts, index) := walked.value;
      ComputedIsFresh(session.Model(), cuts, index);
      cached := Some(Balance(session.generation, cuts, index));
      return Ok(cached.value);
    }

    /** Whether the surface may be cut before the node (offset 0) or after it (offset 1). */
    method Cut(session: Session, node: int, offset: nat) returns (r: Result<bool, PairingError>)
      requires offset <= 1
      requires WellFormed(session.Model()) && Coherent(cached, session.Model())
      modifies this
      ensures Coherent(cached, session.Model())
      ensures var s := session.Model();
              if !NonNegative(StateDeltas(s)) then r.Err? && r.error.Unanswered?
              else if node !in s.view.surface then r == Err(NotOnTheSurface(node))
              else r == Ok(Outstanding(StateDeltas(s), IndexOf(s.view.surface, node) + offset) == 0)
    {
      hide WellFormed, Distinct, InLog, Coherent, Outstanding, NonNegative, StateDeltas, FirstNegative, IsFresh;
      ghost var s := session.Model();
      var balance := SurfaceBalance(session);
      WellFormedHolds(s);
      FreshTells(s, balance);
      if balance.Err? {
        return Err(balance.error);
      }
      if node !in balance.value.index {
        return Err(NotOnTheSurface(node));
      }
      var at := balance.value.index[node];
      return Ok(balance.value.cuts[at + offset]);
    }
  }

  /** What a fresh answer says: the cuts, and where each node is. */
  lemma FreshTells(s: State, r: Result<Balance, PairingError>)
    requires InLog(s.events, s.view.surface) && |StateDeltas(s)| == |s.view.surface| && IsFresh(s, r)
    ensures r.Ok? <==> NonNegative(StateDeltas(s))
    ensures r.Err? ==> r.error.Unanswered?
    ensures r.Ok? ==>
              && |r.value.cuts| == |s.view.surface| + 1
              && (forall k :: 0 <= k < |r.value.cuts| ==> r.value.cuts[k] == (Outstanding(StateDeltas(s), k) == 0))
              && (forall n :: n in r.value.index <==> n in s.view.surface)
              && (forall n :: n in r.value.index ==> r.value.index[n] == IndexOf(s.view.surface, n))
  {
    hide Outstanding, NonNegative, FirstNegative, InLog, Deltas;
  }

  lemma IndexMapIs(nodes: seq<int>, index: map<int, nat>)
    requires forall n :: n in index <==> n in nodes
    requires forall j :: 0 <= j < |nodes| ==> nodes[j] in index && index[nodes[j]] == j
    ensures index == IndexMap(nodes)
  {
    var m := IndexMap(nodes);
    forall n | n in nodes
      ensures n in index && m[n] == index[n]
    {
      assert nodes[IndexOf(nodes, n)] == n;
    }
    assert forall n :: n in index <==> n in m;
    assert index == m;
  }

  lemma WellFormedHolds(s: State)
    requires WellFormed(s)
    ensures InLog(s.events, s.view.surface) && Distinct(s.view.surface) && s.view.seqNo + 1 !in s.view.surface
    ensures |StateDeltas(s)| == |s.view.surface|
  {
  }

  lemma ComputedIsFresh(s: State, cuts: seq<bool>, index: map<int, nat>)
    requires WellFormed(s)
    requires Walked(StateDeltas(s), s.view.surface, |s.view.surface|, cuts, index)
    ensures var b := Balance(s.view.generation, cuts, index);
            IsFresh(s, Ok(b)) && Coherent(Some(b), s)
  {
    hide WellFormed, Distinct, Outstanding, Walked, NonNegative, InLog, Coherent, CutsOf, IndexMap;
    WellFormedHolds(s);
    WalkedAll(StateDeltas(s), s.view.surface, cuts, index);
    FreshCoheres(s);
  }

  /** A walk over all nodes has every cut and every position. */
  lemma WalkedAll(ds: seq<int>, nodes: seq<int>, cuts: seq<bool>, index: map<int, nat>)
    requires |ds| == |nodes| && Walked(ds, nodes, |nodes|, cuts, index)
    ensures NonNegative(ds) && cuts == CutsOf(ds) && index == IndexMap(nodes)
  {
    hide Outstanding, IndexMap;
    assert nodes[..|nodes|] == nodes;
    IndexMapIs(nodes, index);
  }

  /** The answer for the whole of today's surface may be cached. */
  lemma FreshCoheres(s: State)
    requires InLog(s.events, s.view.surface) && NonNegative(StateDeltas(s))
    ensures Coherent(Some(BalanceOf(s.view.generation, s.events, s.view.surface)), s)
  {
    hide Outstanding, NonNegative;
    assert s.view.surface[..|s.view.surface|] == s.view.surface;
  }

  // ------------------------------------------------------------ whole histories

  /** A session being written and asked for its balance, in any order. */
  datatype Act = Write(c: Command) | Ask

  datatype Asked = Asked(s: State, cached: Option<Balance>)

  ghost function Answer(a: Asked): Option<Balance>
    requires InLog(a.s.events, a.s.view.surface)
  {
    if Hit(a.cached, a.s) then a.cached
    else if NonNegative(StateDeltas(a.s)) then Some(BalanceOf(a.s.view.generation, a.s.events, a.s.view.surface))
    else None
  }

  /** Asked while no node answers more than was asked, the cache gives what a recomputation gives. */
  lemma AnswerIsFresh(a: Asked)
    requires WellFormed(a.s) && Coherent(a.cached, a.s) && NonNegative(StateDeltas(a.s))
    ensures Answer(a) == Some(BalanceOf(a.s.view.generation, a.s.events, a.s.view.surface))
  {
    if Hit(a.cached, a.s) {
      HitIsFresh(a.cached, a.s);
    }
  }

  ghost function Perform(a: Asked, act: Act): (a': Asked)
    requires WellFormed(a.s)
    ensures WellFormed(a'.s)
  {
    match act
    case Write(c) => AppendWellFormed(a.s, c); a.(s := Append(a.s, c))
    case Ask => a.(cached := if Answer(a).Some? then Answer(a) else a.cached)
  }

  ghost function History(acts: seq<Act>): (a: Asked)
    ensures WellFormed(a.s)
  {
    if acts == [] then Asked(EMPTY, None)
    else Perform(History(acts[..|acts| - 1]), acts[|acts| - 1])
  }

  lemma AskKeepsCoherent(a: Asked)
    requires WellFormed(a.s) && Coherent(a.cached, a.s)
    ensures Coherent(Perform(a, Ask).cached, a.s)
  {
    hide Delta, Append;
    if !Hit(a.cached, a.s) && NonNegative(StateDeltas(a.s)) {
      assert a.s.view.surface[..|a.s.view.surface|] == a.s.view.surface;
    }
  }

  lemma {:induction false} AlwaysCoherent(acts: seq<Act>)
    ensures Coherent(History(acts).cached, History(acts).s)
  {
    if acts != [] {
      hide Coherent, Append, Answer;
      var a, act := History(acts[..|acts| - 1]), acts[|acts| - 1];
      AlwaysCoherent(acts[..|acts| - 1]);
      if act.Write? {
        AppendKeepsCoherent(a.cached, a.s, act.c);
      } else {
        AskKeepsCoherent(a);
      }
    }
  }

  /** Over every history of writes and questions, a hit equals a fresh recomputation. */
  lemma NeverStale(acts: seq<Act>)
    ensures var a := History(acts);
            Coherent(a.cached, a.s) && (Hit(a.cached, a.s) ==> IsFresh(a.s, Ok(a.cached.value)))
  {
    hide Coherent, IsFresh, History;
    var a := History(acts);
    AlwaysCoherent(acts);
    if Hit(a.cached, a.s) {
      HitIsFresh(a.cached, a.s);
    }
  }

  // ----------------------------------------------- replacements and the balance

  /** A run [first..last] replaced by a node of delta d moves every later cut by the same
      amount, so the counts at the surviving cuts are kept exactly when the new node's delta
      equals the whole run's. */
  lemma SpliceShifts(ds: seq<int>, first: nat, last: nat, d: int, k: nat)
    requires first <= last < |ds| && k <= |Splice(ds, first, last, d)|
    ensures var ds' := Splice(ds, first, last, d);
            Outstanding(ds', k) ==
              if k <= first then Outstanding(ds, k)
              else Outstanding(ds, k + last - first) +
                   (Outstanding(ds, first) + d - Outstanding(ds, last + 1))
  {
    var ds' := Splice(ds, first, last, d);
    if k <= first {
      assert ds'[..k] == ds[..k];
    } else {
      var rest := ds[last + 1..k + last - first];
      assert ds'[..k] == (ds[..first] + [d]) + rest;
      assert ds[..k + last - first] == ds[..last + 1] + rest;
      SumConcat(ds[..first] + [d], rest);
      SumSnoc(ds[..first], d);
      SumConcat(ds[..last + 1], rest);
    }
  }

  /** The surviving cuts: those at or before the run and those after it. */
  ghost predicate KeepsCuts(ds: seq<int>, first: nat, last: nat, d: int)
    requires first <= last < |ds|
  {
    var ds' := Splice(ds, first, last, d);
    forall k :: 0 <= k <= |ds'| ==>
      Outstanding(ds', k) == Outstanding(ds, if k <= first then k else k + last - first)
  }

  lemma BalancedReplacement(ds: seq<int>, first: nat, last: nat, d: int)
    requires first <= last < |ds|
    ensures KeepsCuts(ds, first, last, d) <==> Outstanding(ds, first) + d == Outstanding(ds, last + 1)
    ensures KeepsCuts(ds, first, last, d) && NonNegative(ds) ==> NonNegative(Splice(ds, first, last, d))
  {
    var ds' := Splice(ds, first, last, d);
    SpliceShifts(ds, first, last, d, first + 1);
    if Outstanding(ds, first) + d == Outstanding(ds, last + 1) {
      forall k | 0 <= k <= |ds'|
        ensures Outstanding(ds', k) == Outstanding(ds, if k <= first then k else k + last - first)
      {
        SpliceShifts(ds, first, last, d, k);
      }
    } else {
      assert Outstanding(ds', first + 1) != Outstanding(ds, first + 1 + last - first);
    }
  }

  lemma DeltasOfSplice(s: State, c: Command, first: nat, last: nat)
    requires WellFormed(s) && first <= last < |s.view.surface|
    ensures var s' := Replaced(s, c, first, last);
            InLog(s'.events, s'.view.surface) &&
            StateDeltas(s') == Splice(StateDeltas(s), first, last, Delta(Stored(s, c)))
  {
    hide Delta;
    var s' := Replaced(s, c, first, last);
    SpliceAt(s.view.surface, first, last, s.view.seqNo + 1);
    SpliceAt(StateDeltas(s), first, last, Delta(Stored(s, c)));
  }

  lemma SpliceAt<T>(s: seq<T>, first: nat, last: nat, x: T)
    requires first <= last < |s|
    ensures var s' := Splice(s, first, last, x);
            |s'| == |s| - (last - first) &&
            forall i :: 0 <= i < |s'| ==>
              s'[i] == if i < first then s[i] else if i == first then x else s[i + last - first]
  {
  }

  /** The appends the rest of the system makes: surface events that answer no more than is
      outstanding, replacements whose new node weighs what the run weighed, log-only events,
      and appends that are refused. */
  ghost predicate PairingSafe(s: State, c: Command)
    requires WellFormed(s)
  {
    var ds := StateDeltas(s);
    IsSurface(c.kind) && !c.data.LossyData? ==>
      if !c.op.Replace? then Sum(ds) + Delta(Stored(s, c)) >= 0
      else NamesRun(s.view.surface, c.op.start, c.op.end) ==>
        Outstanding(ds, IndexOf(s.view.surface, c.op.start)) + Delta(Stored(s, c)) ==
        Outstanding(ds, IndexOf(s.view.surface, c.op.end) + 1)
  }

  ghost predicate AllSafe(cs: seq<Command>) {
    cs == [] ||
    (AllSafe(cs[..|cs| - 1]) &&
     WellFormed(Run(EMPTY, cs[..|cs| - 1])) && PairingSafe(Run(EMPTY, cs[..|cs| - 1]), cs[|cs| - 1]))
  }

  lemma SafeSurfacedNonNegative(s: State, c: Command)
    requires WellFormed(s) && NonNegative(StateDeltas(s)) && IsSurface(c.kind)
    requires Sum(StateDeltas(s)) + Delta(Stored(s, c)) >= 0
    requires WellFormed(Surfaced(s, c))
    ensures NonNegative(StateDeltas(Surfaced(s, c)))
  {
    hide Delta, Outstanding, StateDeltas, NonNegative;
    SurfacedDeltas(s, c);
    NonNegativeSnoc(StateDeltas(s), Delta(Stored(s, c)));
  }

  lemma SurfacedDeltas(s: State, c: Command)
    requires WellFormed(s) && WellFormed(Surfaced(s, c))
    ensures StateDeltas(Surfaced(s, c)) == StateDeltas(s) + [Delta(Stored(s, c))]
  {
    hide Delta;
  }

  lemma NonNegativeSnoc(ds: seq<int>, d: int)
    requires NonNegative(ds) && Sum(ds) + d >= 0
    ensures NonNegative(ds + [d])
  {
    hide Sum;
    SumSnoc(ds, d);
    forall k | 0 <= k <= |ds + [d]|
      ensures Outstanding(ds + [d], k) >= 0
    {
      if k <= |ds| {
        assert (ds + [d])[..k] == ds[..k];
        assert Outstanding(ds, k) >= 0;
      } else {
        assert (ds + [d])[..k] == ds + [d];
      }
    }
  }

  lemma SafeReplacedNonNegative(s: State, c: Command, first: nat, last: nat)
    requires WellFormed(s) && NonNegative(StateDeltas(s)) && first <= last < |s.view.surface|
    requires Outstanding(StateDeltas(s), first) + Delta(Stored(s, c)) == Outstanding(StateDeltas(s), last + 1)
    requires WellFormed(Replaced(s, c, first, last))
    ensures NonNegative(StateDeltas(Replaced(s, c, first, last)))
  {
    DeltasOfSplice(s, c, first, last);
    BalancedReplacement(StateDeltas(s), first, last, Delta(Stored(s, c)));
  }

  lemma SafeAppendNonNegative(s: State, c: Command)
    requires WellFormed(s) && NonNegative(StateDeltas(s)) && PairingSafe(s, c)
    ensures WellFormed(Append(s, c)) && NonNegative(StateDeltas(Append(s, c)))
  {
    AppendWellFormed(s, c);
    var surface := s.view.surface;
    if Append(s, c) == s {
    } else if c.op.Replace? && NamesRun(surface, c.op.start, c.op.end) {
      SafeReplacedNonNegative(s, c, IndexOf(surface, c.op.start), IndexOf(surface, c.op.end));
    } else if c.op.Replace? || !IsSurface(c.kind) {
      DeltasStable(s.events, Stored(s, c), surface);
    } else {
      SafeSurfacedNonNegative(s, c);
    }
  }

  /** Over every run of safe appends no prefix count is negative, so the surface is never
      reported corrupt. */
  lemma {:induction false} NeverCorrupt(cs: seq<Command>)
    requires AllSafe(cs)
    ensures var s := Run(EMPTY, cs);
            WellFormed(s) && NonNegative(StateDeltas(s)) &&
            forall r :: IsFresh(s, r) ==> r.Ok?
  {
    RunWellFormed(cs);
    if cs != [] {
      NeverCorrupt(cs[..|cs| - 1]);
      SafeAppendNonNegative(Run(EMPTY, cs[..|cs| - 1]), cs[|cs| - 1]);
    }
  }

  /** A surface event that replaces the run between two positions, and when it is safe. */
  lemma ReplacingRun(s: State, c: Command, first: nat, last: nat)
    requires WellFormed(s) && first <= last < |s.view.surface|
    requires IsSurface(c.kind) && !c.data.LossyData?
    requires c.op == Replace(s.view.surface[first], s.view.surface[last])
    ensures Append(s, c) == Replaced(s, c, first, last) && WellFormed(Append(s, c))
    ensures StateDeltas(Append(s, c)) == Splice(StateDeltas(s), first, last, Delta(Stored(s, c)))
    ensures Outstanding(StateDeltas(s), first) + Delta(Stored(s, c)) == Outstanding(StateDeltas(s), last + 1) ==>
              PairingSafe(s, c)
  {
    hide Delta, Outstanding, StateDeltas, WellFormed, Distinct, InLog, Replaced, AppendStep;
    WellFormedHolds(s);
    IndexOfDistinct(s.view.surface, first);
    IndexOfDistinct(s.view.surface, last);
    AppendReplacing(s, c, first, last);
    AppendWellFormed(s, c);
    DeltasOfSplice(s, c, first, last);
  }

  /** Replacing a run whose two edges are balanced by a user message is safe. */
  lemma CheckpointIsSafe(s: State, c: Command, first: nat, last: nat)
    requires WellFormed(s) && first <= last < |s.view.surface|
    requires c.kind.UserMessage? && !c.data.LossyData?
    requires c.op == Replace(s.view.surface[first], s.view.surface[last])
    requires Outstanding(StateDeltas(s), first) == 0 && Outstanding(StateDeltas(s), last + 1) == 0
    ensures PairingSafe(s, c)
    ensures Append(s, c) == Replaced(s, c, first, last)
    ensures WellFormed(Append(s, c)) && KeepsCuts(StateDeltas(s), first, last, 0)
    ensures StateDeltas(Append(s, c)) == Splice(StateDeltas(s), first, last, 0)
  {
    hide Outstanding, StateDeltas, WellFormed, Distinct, InLog, Replaced, AppendStep, PairingSafe, KeepsCuts, Splice;
    WellFormedHolds(s);
    ReplacingRun(s, c, first, last);
    BalancedReplacement(StateDeltas(s), first, last, 0);
  }

  /** Replacing one tool result by another changes no count at all. */
  lemma PruneIsSafe(s: State, c: Command, at: nat)
    requires WellFormed(s) && at < |s.view.surface|
    requires s.events[s.view.surface[at] - 1].kind.ToolResult?
    requires c.kind.ToolResult? && !c.data.LossyData?
    requires c.op == Replace(s.view.surface[at], s.view.surface[at])
    ensures PairingSafe(s, c)
    ensures Append(s, c) == Replaced(s, c, at, at)
    ensures WellFormed(Append(s, c)) && StateDeltas(Append(s, c)) == StateDeltas(s)
  {
    ResultDelta(s, at);
    hide Outstanding, StateDeltas, WellFormed, Distinct, InLog, Replaced, AppendStep, PairingSafe, Splice;
    WellFormedHolds(s);
    ReplacingRun(s, c, at, at);
    OutstandingStep(StateDeltas(s), at);
    SpliceSame(StateDeltas(s), at);
  }

  lemma ResultDelta(s: State, at: nat)
    requires WellFormed(s) && at < |s.view.surface|
    requires s.events[s.view.surface[at] - 1].kind.ToolResult?
    ensures StateDeltas(s)[at] == -1
  {
  }

  lemma SpliceSame(ds: seq<int>, at: nat)
    requires at < |ds|
    ensures Splice(ds, at, at, ds[at]) == ds
  {
  }
}
