/** What the model gets to see of an agent's log (agent/agent.py over session/session.py). */
module Transcripts {
  import opened Prelude
  import opened Messages
  import opened AgentRuns
  import opened RunGrammar
  import S = Sessions

  /** What an event says to the model, message or not. */
  function Says(e: RunEvent): seq<S.Payload> {
    match e
    case UserEvent(m) => [S.MessageData(m)]
    case AssistantEvent(_, _, m, _) => [S.MessageData(m)]
    case ResultEvent(_, _, m) => [S.MessageData(m)]
    case ForeignEvent(c) => if c.kind.UserMessage? && !c.data.LossyData? then [c.data] else []
    case _ => []
  }

  function Said(es: seq<RunEvent>): seq<S.Payload> {
    if es == [] then [] else Said(es[..|es| - 1]) + Says(es[|es| - 1])
  }

  ghost predicate NothingReplaced(es: seq<RunEvent>) {
    forall i :: 0 <= i < |es| && es[i].ForeignEvent? ==> !es[i].command.op.Replace?
  }

  /** The messages a session derives for the next request. */
  function Seen(s: S.State): seq<S.Payload>
    requires S.WellFormed(s)
  {
    S.MessagesOf(s.events, s.view.surface)
  }

  // ------------------------------------------------------------------ the next request

  lemma {:induction false} MessagesStable(events: seq<S.Event>, e: S.Event, nodes: seq<int>)
    requires S.InLog(events, nodes)
    ensures S.MessagesOf(events + [e], nodes) == S.MessagesOf(events, nodes)
  {
    if nodes != [] {
      MessagesStable(events, e, nodes[..|nodes| - 1]);
    }
  }

  /** What an append that replaces nothing adds to the next request. */
  function Adds(c: S.Command): seq<S.Payload> {
    if c.data.LossyData? then []
    else if c.kind.UserMessage? then [c.data]
    else if (c.kind.AssistantMessage? || c.kind.ToolResult?) && c.data.MessageData? then [c.data]
    else []
  }

  lemma AppendIsSeen(s: S.State, c: S.Command)
    requires S.WellFormed(s) && !c.op.Replace?
    ensures S.WellFormed(S.Append(s, c)) && Seen(S.Append(s, c)) == Seen(s) + Adds(c)
  {
    S.AppendWellFormed(s, c);
    if c.kind.Unknown? || c.data.LossyData? {
    } else {
      MessagesStable(s.events, S.Stored(s, c), s.view.surface);
      if S.IsSurface(c.kind) {
        AppendSurfaces(s, c);
        SurfacedIsSeen(s, c);
      } else {
        assert S.Append(s, c) == S.Logged(s, c);
      }
    }
  }

  lemma OneMoreSeen(events: seq<S.Event>, e: S.Event, nodes: seq<int>)
    requires S.InLog(events + [e], nodes) && S.IsSurface(e.kind)
    ensures S.InLog(events + [e], nodes + [|events| + 1])
    ensures S.MessagesOf(events + [e], nodes + [|events| + 1]) ==
            S.MessagesOf(events + [e], nodes) + (if S.IsSeen(e) then [e.data] else [])
  {
    hide S.MessagesOf, S.IsSeen;
    var more := nodes + [|events| + 1];
    assert more[..|more| - 1] == nodes;
    S.MessagesSnoc(events + [e], more);
  }

  lemma SurfacedIsSeen(s: S.State, c: S.Command)
    requires S.WellFormed(s) && S.IsSurface(c.kind) && !c.op.Replace? && !c.data.LossyData?
    requires S.WellFormed(S.Surfaced(s, c)) && S.InLog(s.events + [S.Stored(s, c)], s.view.surface)
    requires S.MessagesOf(s.events + [S.Stored(s, c)], s.view.surface) == Seen(s)
    ensures Seen(S.Surfaced(s, c)) == Seen(s) + Adds(c)
  {
    assert s.view.seqNo == |s.events|;
    hide S.MessagesOf, S.WellFormed, S.InLog;
    var e := S.Stored(s, c);
    OneMoreSeen(s.events, e, s.view.surface);
    assert S.Surfaced(s, c).view.surface == s.view.surface + [|s.events| + 1];
    assert Adds(c) == if S.IsSeen(e) then [e.data] else [];
  }

  lemma AppendSurfaces(s: S.State, c: S.Command)
    requires S.IsSurface(c.kind) && !c.op.Replace? && !c.data.LossyData?
    ensures S.Append(s, c) == S.Surfaced(s, c)
  {
  }

  lemma SaysWhatItAdds(e: RunEvent)
    requires e.ForeignEvent? ==> !e.command.op.Replace?
    ensures !CommandOf(e).op.Replace? && Adds(CommandOf(e)) == Says(e)
  {
  }

  /** While no hook replaces anything, the next request holds exactly what the log says, in the order of the log:
      what users said, every reply and every tool's result. */
  lemma {:induction false} ModelSeesTheLog(es: seq<RunEvent>)
    requires NothingReplaced(es)
    ensures var s := S.Run(S.EMPTY, Commands(es)); S.WellFormed(s) && Seen(s) == Said(es)
  {
    hide S.AppendStep, S.WellFormed, CommandOf, Says, Adds;
    S.RunWellFormed(Commands(es));
    if es != [] {
      var before, e := es[..|es| - 1], es[|es| - 1];
      ModelSeesTheLog(before);
      CommandsSnoc(es);
      SaysWhatItAdds(e);
      AppendIsSeen(S.Run(S.EMPTY, Commands(before)), CommandOf(e));
    }
  }

  // ------------------------------------------------------------------ a result is seen twice

  lemma {:induction false} SaidConcat(a: seq<RunEvent>, b: seq<RunEvent>)
    ensures Said(a + b) == Said(a) + Said(b)
  {
    hide Says;
    if b == [] {
      assert a + b == a;
    } else {
      assert (a + b)[..|a + b| - 1] == a + b[..|b| - 1];
      SaidConcat(a, b[..|b| - 1]);
    }
  }

  lemma {:induction false} EventIsSaid(es: seq<RunEvent>, i: nat, p: S.Payload)
    requires i < |es| && p in Says(es[i])
    ensures p in Said(es)
  {
    hide Says;
    if i < |es| - 1 {
      EventIsSaid(es[..|es| - 1], i, p);
    }
  }

  lemma {:induction false} HeardIsSaid(es: seq<RunEvent>, m: Message)
    requires m in Heard(es)
    ensures S.MessageData(m) in Said(es)
  {
    if es != [] && m in Heard(es[..|es| - 1]) {
      HeardIsSaid(es[..|es| - 1], m);
    }
  }

  lemma ResultIsSaid(turn: nat, step: nat, blocks: seq<Block>, at: seq<nat>, outcomes: nat -> Outcome,
                     es: seq<RunEvent>, results: seq<Message>, m: Message)
    requires RunInOrder(turn, step, blocks, at, outcomes, es, results) && m in results
    ensures S.MessageData(m) in Said(es)
  {
    hide CallsAt, IsResultOf, Said;
    var k :| 0 <= k < |results| && results[k] == m;
    assert es[2 * k + 1] == ResultEvent(turn, step, results[k]);
    EventIsSaid(es, 2 * k + 1, S.MessageData(m));
  }

  lemma StepSaysResults(o: Options, turn: nat, step: nat, p: StepPlan, m: Message)
    requires Step(o, turn, step, p).outcome.Continues? && m in Step(o, turn, step, p).outcome.results
    ensures S.MessageData(m) in Said(Step(o, turn, step, p).events)
  {
    StepShows(o, turn, step, p);
    var run := Step(o, turn, step, p);
    var reply, usage, hooks := Reply(o, p), Assembled(p.chunks).usage, Foreigns(p.tools.appended);
    hide Step, Reply, Assembled, Before, Foreigns, Said, RunInOrder;
    var at, es :| RunInOrder(turn, step, reply.content, at, p.tools.answer.value, es, run.outcome.results) && at != []
                  && run.events == Before(turn, step, p) + [AssistantEvent(turn, step, reply, usage)] + hooks + es;
    ResultIsSaid(turn, step, reply.content, at, p.tools.answer.value, es, run.outcome.results, m);
    SaidConcat(Before(turn, step, p) + [AssistantEvent(turn, step, reply, usage)] + hooks, es);
  }

  lemma RoundSaysResults(o: Options, turn: nat, taken: nat, pending: seq<Message>, p: StepPlan, m: Message)
    requires RoundOf(o, turn, taken, pending, p).Goes? && m in RoundOf(o, turn, taken, pending, p).results
    ensures S.MessageData(m) in Said(EventsOf(RoundOf(o, turn, taken, pending, p)))
  {
    var input := Foreigns(p.pre.appended) + UserEvents(Entering(p.pre.answer.value, pending));
    var step := Step(o, turn, taken + 1, p);
    RoundLetIn(o, turn, taken, pending, p);
    hide Step, Said, Foreigns, UserEvents;
    StepSaysResults(o, turn, taken + 1, p, m);
    var start, end := [StepStart(turn, taken + 1)], [StepEnd(turn, taken + 1)];
    SaidConcat(start, step.events);
    SaidConcat(start + step.events, end);
    SaidConcat(input, start + step.events + end);
  }

  lemma TwiceInBoth(a: seq<S.Payload>, b: seq<S.Payload>, p: S.Payload)
    requires p in a && p in b
    ensures multiset(a + b)[p] >= 2
  {
    assert p in multiset(a) && p in multiset(b);
    assert multiset(a + b) == multiset(a) + multiset(b);
  }

  /** The results of a step are logged as results and then, as the input of the next step, as something a user
      said. When the next step's hooks have no opinion its request holds each of them twice. */
  lemma ResultsAreSaidTwice(o: Options, turn: nat, taken: nat, pending: seq<Message>, p: StepPlan, next: StepPlan,
                            m: Message)
    requires RoundOf(o, turn, taken, pending, p).Goes? && m in RoundOf(o, turn, taken, pending, p).results
    requires LetsIn(o, taken + 1, next) && next.pre.answer.value.NoOpinion?
    ensures var round := RoundOf(o, turn, taken, pending, p);
            multiset(Said(round.events + EventsOf(RoundOf(o, turn, taken + 1, round.results, next))))[S.MessageData(m)]
            >= 2
  {
    var round := RoundOf(o, turn, taken, pending, p);
    hide Said, RoundOf, Heard, LetsIn;
    var later := EventsOf(RoundOf(o, turn, taken + 1, round.results, next));
    RoundSaysResults(o, turn, taken, pending, p, m);
    RoundHears(o, turn, taken + 1, round.results, next);
    HeardIsSaid(later, m);
    SaidConcat(round.events, later);
    TwiceInBoth(Said(round.events), Said(later), S.MessageData(m));
  }
}
