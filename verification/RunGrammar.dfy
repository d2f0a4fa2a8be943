/** The shape every agent log has, stated without the loop that writes it, and what follows from it. */
module RunGrammar {
  import opened Prelude
  import opened Messages
  import opened AgentRuns
  import S = Sessions
  import P = Pairing
  import I = Inboxes

  // ------------------------------------------------------------------ the grammar

  /** How the latest step of a turn came out. */
  datatype LastStep =
    | NoStep
    | Silent
    | Answered(calls: nat)
    | Unanswered(calls: nat)

  datatype Phase =
    | Idle
    | Between(turn: nat, steps: nat, last: LastStep)
    | Streaming(turn: nat, step: nat)
    | Asked(turn: nat, step: nat, count: nat, pending: seq<Block>)
    | Answering(turn: nat, step: nat, count: nat, call: Block, pending: seq<Block>)

  /** Where a log stands: turns so far, the phase, and the calls whose step ended without running them. */
  datatype Grammar = Grammar(turns: nat, phase: Phase, owed: nat)

  const START := Grammar(0, Idle, 0)

  /** Whether the turn may take input and another step. */
  predicate MayGoOn(last: LastStep) {
    last.NoStep? || (last.Answered? && last.calls > 0)
  }

  /** What a turn's closing reason says about how it went. */
  predicate Explains(maxSteps: int, phase: Phase, reason: Reason)
    requires phase.Between?
  {
    match reason
    case Completed => phase.last == Answered(0)
    case TokensExhausted => phase.last == Answered(0) || phase.last.Unanswered?
    case StepsExhausted => MayGoOn(phase.last) && phase.steps >= maxSteps
    case Blocked => MayGoOn(phase.last) && phase.steps < maxSteps
    case ModelError(_) => phase.last.Silent?
    case Cancelled(_) => true
    case Failed(_) => true
  }

  predicate Answers(m: Message, call: Block)
    requires call.ToolCallBlock?
  {
    |m.content| == 1 && m.content[0].ToolResultBlock? && m.content[0].callId == call.id
  }

  /** The step's calls either all ran or none did. */
  function Closed(count: nat, pending: seq<Block>): Option<LastStep> {
    if pending == [] then Some(Answered(count))
    else if |pending| == count then Some(Unanswered(count))
    else None
  }

  function Next(maxSteps: int, g: Grammar, e: RunEvent): Option<Grammar> {
    if e.ForeignEvent? then Some(g)
    else
      match g.phase
      case Idle =>
        if e.TurnStart? && e.turn == g.turns + 1 then Some(Grammar(e.turn, Between(e.turn, 0, NoStep), g.owed))
        else None
      case Between(turn, steps, last) =>
        if e.UserEvent? && MayGoOn(last) && steps < maxSteps then Some(g)
        else if e.StepStart? && MayGoOn(last) && steps < maxSteps && e.turn == turn && e.step == steps + 1 then
          Some(g.(phase := Streaming(turn, e.step)))
        else if e.TurnEnd? && e.turn == turn && Explains(maxSteps, g.phase, e.reason) then Some(g.(phase := Idle))
        else None
      case Streaming(turn, step) =>
        if e.ChunkEvent? && e.turn == turn && e.step == step then Some(g)
        else if e.AssistantEvent? && e.turn == turn && e.step == step then
          Some(g.(phase := Asked(turn, step, |CallsIn(e.message.content)|, CallsIn(e.message.content))))
        else if e.StepEnd? && e.turn == turn && e.step == step then Some(g.(phase := Between(turn, step, Silent)))
        else None
      case Asked(turn, step, count, pending) =>
        if e.CallEvent? && e.turn == turn && e.step == step && pending != [] && e.call == pending[0]
          && e.call.ToolCallBlock? then
          Some(g.(phase := Answering(turn, step, count, e.call, pending[1..])))
        else if e.StepEnd? && e.turn == turn && e.step == step && Closed(count, pending).Some? then
          Some(Grammar(g.turns, Between(turn, step, Closed(count, pending).value), g.owed + |pending|))
        else None
      case Answering(turn, step, count, call, pending) =>
        if e.ResultEvent? && e.turn == turn && e.step == step && call.ToolCallBlock? && Answers(e.message, call) then
          Some(g.(phase := Asked(turn, step, count, pending)))
        else None
  }

  /** Where a log leads from a standing, or nothing when it breaks the grammar. */
  function After(maxSteps: int, g: Grammar, es: seq<RunEvent>): Option<Grammar> {
    if es == [] then Some(g)
    else
      var before := After(maxSteps, g, es[..|es| - 1]);
      if before.None? then None else Next(maxSteps, before.value, es[|es| - 1])
  }

  lemma AfterOne(maxSteps: int, g: Grammar, e: RunEvent)
    ensures After(maxSteps, g, [e]) == Next(maxSteps, g, e)
  {
    assert [e][..0] == [];
  }

  lemma {:induction false} AfterConcat(maxSteps: int, g: Grammar, a: seq<RunEvent>, b: seq<RunEvent>)
    ensures After(maxSteps, g, a + b) ==
            var mid := After(maxSteps, g, a); if mid.None? then None else After(maxSteps, mid.value, b)
  {
    hide Next;
    if b == [] {
      assert a + b == a;
    } else {
      assert (a + b)[..|a + b| - 1] == a + b[..|b| - 1];
      AfterConcat(maxSteps, g, a, b[..|b| - 1]);
    }
  }

  lemma AfterVia(maxSteps: int, g: Grammar, a: seq<RunEvent>, mid: Grammar, b: seq<RunEvent>)
    requires After(maxSteps, g, a) == Some(mid)
    ensures After(maxSteps, g, a + b) == After(maxSteps, mid, b)
  {
    AfterConcat(maxSteps, g, a, b);
  }

  /** A turn takes input or another step only at its start and behind a step that ran calls, and only below the
      limit; behind any other step it ends. */
  lemma GoesOnOnlyBehindCalls(maxSteps: int, g: Grammar, e: RunEvent)
    requires g.phase.Between? && Next(maxSteps, g, e).Some? && !e.ForeignEvent? && !e.TurnEnd?
    ensures e.UserEvent? || e.StepStart?
    ensures g.phase.steps < maxSteps
    ensures g.phase.last.NoStep? || (g.phase.last.Answered? && g.phase.last.calls != 0)
  {
  }

  /** A step that was asked for calls ends with none of them left to run, or with all of them. */
  lemma StepEndsWithAllOrNone(maxSteps: int, g: Grammar, e: RunEvent)
    requires g.phase.Asked? && e.StepEnd? && Next(maxSteps, g, e).Some?
    ensures g.phase.pending == [] || |g.phase.pending| == g.phase.count
    ensures Next(maxSteps, g, e).value.owed == g.owed + |g.phase.pending|
  {
  }

  // ------------------------------------------------------------------ runs of one kind of event

  lemma {:induction false} ForeignsPass(maxSteps: int, g: Grammar, cs: seq<Hooked>)
    ensures After(maxSteps, g, Foreigns(cs)) == Some(g)
  {
    if cs != [] {
      ForeignsPass(maxSteps, g, cs[..|cs| - 1]);
      assert Foreigns(cs)[..|cs| - 1] == Foreigns(cs[..|cs| - 1]);
    }
  }

  lemma {:induction false} ChunksPass(maxSteps: int, g: Grammar, turn: nat, step: nat, chunks: seq<Chunk>)
    requires g.phase == Streaming(turn, step)
    ensures After(maxSteps, g, ChunkEvents(turn, step, chunks)) == Some(g)
  {
    if chunks != [] {
      ChunksPass(maxSteps, g, turn, step, chunks[..|chunks| - 1]);
      assert ChunkEvents(turn, step, chunks)[..|chunks| - 1] == ChunkEvents(turn, step, chunks[..|chunks| - 1]);
    }
  }

  lemma {:induction false} UsersPass(maxSteps: int, g: Grammar, messages: seq<Message>)
    requires g.phase.Between? && MayGoOn(g.phase.last) && g.phase.steps < maxSteps
    ensures After(maxSteps, g, UserEvents(messages)) == Some(g)
  {
    if messages != [] {
      UsersPass(maxSteps, g, messages[..|messages| - 1]);
      assert UserEvents(messages)[..|messages| - 1] == UserEvents(messages[..|messages| - 1]);
    }
  }

  lemma {:induction false} RetriesPass(maxSteps: int, g: Grammar, turn: nat, step: nat, retries: seq<Attempt>)
    requires g.phase == Streaming(turn, step)
    ensures After(maxSteps, g, RetryEvents(turn, step, retries)) == Some(g)
  {
    hide Next, After;
    if retries == [] {
      ForeignsPass(maxSteps, g, []);
      assert Foreigns([]) == [];
    } else {
      var a := retries[|retries| - 1];
      var before := RetryEvents(turn, step, retries[..|retries| - 1]);
      RetriesPass(maxSteps, g, turn, step, retries[..|retries| - 1]);
      ChunksPass(maxSteps, g, turn, step, a.chunks);
      ForeignsPass(maxSteps, g, a.appended);
      AfterVia(maxSteps, g, before, g, ChunkEvents(turn, step, a.chunks));
      AfterVia(maxSteps, g, before + ChunkEvents(turn, step, a.chunks), g, Foreigns(a.appended));
    }
  }

  lemma BeforePass(maxSteps: int, g: Grammar, turn: nat, step: nat, p: StepPlan)
    requires g.phase == Streaming(turn, step)
    ensures After(maxSteps, g, Foreigns(p.request.appended)) == Some(g)
    ensures After(maxSteps, g, Foreigns(p.request.appended) + Foreigns(p.build.appended)) == Some(g)
    ensures After(maxSteps, g, Before(turn, step, p)) == Some(g)
  {
    hide Next, After, Foreigns, ChunkEvents, RetryEvents;
    var a, b := Foreigns(p.request.appended), Foreigns(p.build.appended);
    var c, d := RetryEvents(turn, step, p.retries), ChunkEvents(turn, step, p.chunks);
    ForeignsPass(maxSteps, g, p.request.appended);
    ForeignsPass(maxSteps, g, p.build.appended);
    RetriesPass(maxSteps, g, turn, step, p.retries);
    ChunksPass(maxSteps, g, turn, step, p.chunks);
    ForeignsPass(maxSteps, g, p.stream.appended);
    AfterVia(maxSteps, g, a, g, b);
    AfterVia(maxSteps, g, a + b, g, c);
    AfterVia(maxSteps, g, a + b + c, g, d);
    AfterVia(maxSteps, g, a + b + c + d, g, Foreigns(p.stream.appended));
  }

  /** All calls asked for are answered one by one, in the order they were asked. */
  lemma {:induction false} ResultsAnswer(
    maxSteps: int, g: Grammar, turn: nat, step: nat, calls: seq<Block>, n: nat, outcomes: nat -> Outcome)
    requires g.phase == Asked(turn, step, |calls|, calls) && n <= |calls|
    requires forall c :: c in calls ==> c.ToolCallBlock?
    ensures After(maxSteps, g, ResultEvents(turn, step, calls[..n], outcomes)) ==
            Some(g.(phase := Asked(turn, step, |calls|, calls[n..])))
  {
    hide Next;
    if n > 0 {
      var k := n - 1;
      var done := ResultEvents(turn, step, calls[..k], outcomes);
      ResultsAnswer(maxSteps, g, turn, step, calls, k, outcomes);
      assert calls[..n][..k] == calls[..k] && calls[..n][k] == calls[k];
      var mid := g.(phase := Asked(turn, step, |calls|, calls[k..]));
      OneAnswer(maxSteps, mid, calls[k], outcomes(k));
      assert calls[k..][1..] == calls[n..];
      AfterVia(maxSteps, g, done, mid,
               [CallEvent(turn, step, calls[k]), ResultEvent(turn, step, ResultMessage(calls[k], outcomes(k)))]);
    }
  }

  lemma OneAnswer(maxSteps: int, g: Grammar, call: Block, outcome: Outcome)
    requires g.phase.Asked? && g.phase.pending != [] && g.phase.pending[0] == call && call.ToolCallBlock?
    ensures var p := g.phase;
            After(maxSteps, g, [CallEvent(p.turn, p.step, call),
              ResultEvent(p.turn, p.step, ResultMessage(call, outcome))]) ==
            Some(g.(phase := Asked(p.turn, p.step, p.count, p.pending[1..])))
  {
    var p := g.phase;
    var c, r := CallEvent(p.turn, p.step, call), ResultEvent(p.turn, p.step, ResultMessage(call, outcome));
    AfterOne(maxSteps, g, c);
    assert [c, r][..1] == [c];
  }

  // ------------------------------------------------------------------ a step

  /** What a step leaves behind: its standing once it is closed, and the calls it left unanswered. */
  ghost predicate StepLeaves(outcome: StepOutcome, last: LastStep, owed: nat) {
    && (outcome.Continues? ==> last.Answered? && last.calls > 0)
    && (last.Unanswered? ==> owed == last.calls && owed > 0)
    && (!last.Unanswered? ==> owed == 0)
    && (outcome.Ends? ==>
          match outcome.reason
          case Completed => last == Answered(0)
          case TokensExhausted => last == Answered(0) || last.Unanswered?
          case ModelError(_) => last.Silent?
          case _ => false)
  }

  ghost predicate StepDone(maxSteps: int, g: Grammar, turn: nat, step: nat, events: seq<RunEvent>,
                           outcome: StepOutcome) {
    exists last: LastStep, owed: nat ::
      StepLeaves(outcome, last, owed) &&
      After(maxSteps, g, events + [StepEnd(turn, step)]) ==
        Some(Grammar(g.turns, Between(turn, step, last), g.owed + owed))
  }

  lemma ClosesSilent(maxSteps: int, g: Grammar, turn: nat, step: nat, events: seq<RunEvent>, outcome: StepOutcome)
    requires g.phase == Streaming(turn, step) && After(maxSteps, g, events) == Some(g)
    requires outcome.Cut? || (outcome.Ends? && outcome.reason.ModelError?)
    ensures StepDone(maxSteps, g, turn, step, events, outcome)
  {
    AfterVia(maxSteps, g, events, g, [StepEnd(turn, step)]);
    AfterOne(maxSteps, g, StepEnd(turn, step));
    assert StepLeaves(outcome, Silent, 0);
  }

  lemma ClosesAsked(maxSteps: int, g: Grammar, turn: nat, step: nat, events: seq<RunEvent>, outcome: StepOutcome,
                    count: nat, pending: seq<Block>)
    requires g.phase == Streaming(turn, step)
    requires After(maxSteps, g, events) == Some(g.(phase := Asked(turn, step, count, pending)))
    requires Closed(count, pending).Some? && StepLeaves(outcome, Closed(count, pending).value, |pending|)
    ensures StepDone(maxSteps, g, turn, step, events, outcome)
  {
    hide After, Explains, MayGoOn, Closed, Answers, CallsIn;
    var mid := g.(phase := Asked(turn, step, count, pending));
    AfterVia(maxSteps, g, events, mid, [StepEnd(turn, step)]);
    AfterOne(maxSteps, mid, StepEnd(turn, step));
  }

  lemma Tells(maxSteps: int, g: Grammar, turn: nat, step: nat, before: seq<RunEvent>, m: Message, usage: Option<int>)
    requires g.phase == Streaming(turn, step) && After(maxSteps, g, before) == Some(g)
    ensures var calls := CallsIn(m.content);
            After(maxSteps, g, before + [AssistantEvent(turn, step, m, usage)]) ==
            Some(g.(phase := Asked(turn, step, |calls|, calls)))
  {
    AfterVia(maxSteps, g, before, g, [AssistantEvent(turn, step, m, usage)]);
    AfterOne(maxSteps, g, AssistantEvent(turn, step, m, usage));
  }

  lemma StepIsWellFormed(o: Options, g: Grammar, turn: nat, step: nat, p: StepPlan)
    requires g.phase == Streaming(turn, step)
    ensures var run := Step(o, turn, step, p); StepDone(o.maxSteps, g, turn, step, run.events, run.outcome)
  {
    hide Next, After, StepDone, Before, Foreigns, CallsIn, ResultEvents, ResultMessages, Assembled, Reply;
    var run := Step(o, turn, step, p);
    BeforePass(o.maxSteps, g, turn, step, p);
    var a := Assembled(p.chunks);
    if p.request.answer.Err? || p.build.answer.Err? || p.stream.answer.Err? || a.finish.ErrorFinish? {
      ClosesSilent(o.maxSteps, g, turn, step, run.events, run.outcome);
    } else {
      var m := Reply(o, p);
      var calls := CallsIn(m.content);
      Tells(o.maxSteps, g, turn, step, Before(turn, step, p), m, a.usage);
      var told := Before(turn, step, p) + [AssistantEvent(turn, step, m, a.usage)];
      var asked := g.(phase := Asked(turn, step, |calls|, calls));
      if a.finish.MaxTokens? || calls == [] {
        ClosesAsked(o.maxSteps, g, turn, step, told, run.outcome, |calls|, calls);
      } else {
        ForeignsPass(o.maxSteps, asked, p.tools.appended);
        AfterVia(o.maxSteps, g, told, asked, Foreigns(p.tools.appended));
        if p.tools.answer.Err? {
          ClosesAsked(o.maxSteps, g, turn, step, run.events, run.outcome, |calls|, calls);
        } else {
          RunsTools(o, g, turn, step, told + Foreigns(p.tools.appended), calls, p.tools.answer.value);
        }
      }
    }
  }

  lemma RunsTools(o: Options, g: Grammar, turn: nat, step: nat, told: seq<RunEvent>, calls: seq<Block>,
                  outcomes: nat -> Outcome)
    requires g.phase == Streaming(turn, step) && calls != []
    requires forall c :: c in calls ==> c.ToolCallBlock?
    requires After(o.maxSteps, g, told) == Some(g.(phase := Asked(turn, step, |calls|, calls)))
    ensures StepDone(o.maxSteps, g, turn, step, told + ResultEvents(turn, step, calls, outcomes),
                     Continues(ResultMessages(calls, outcomes)))
  {
    hide Next, After, StepDone, ResultEvents, ResultMessages;
    var asked := g.(phase := Asked(turn, step, |calls|, calls));
    assert calls[..|calls|] == calls && calls[|calls|..] == [];
    ResultsAnswer(o.maxSteps, asked, turn, step, calls, |calls|, outcomes);
    AfterVia(o.maxSteps, g, told, asked, ResultEvents(turn, step, calls, outcomes));
    ClosesAsked(o.maxSteps, g, turn, step, told + ResultEvents(turn, step, calls, outcomes),
                Continues(ResultMessages(calls, outcomes)), |calls|, []);
  }

  // ------------------------------------------------------------------ a turn

  /** From a standing between steps, these events stay inside the turn and the reason explains them. */
  ghost predicate Stays(maxSteps: int, g: Grammar, turn: nat, events: seq<RunEvent>, reason: Reason) {
    exists g': Grammar ::
      After(maxSteps, g, events) == Some(g') && g'.turns == g.turns && g'.phase.Between? && g'.phase.turn == turn
      && Explains(maxSteps, g'.phase, reason)
  }

  lemma StaysVia(maxSteps: int, g: Grammar, mid: Grammar, turn: nat, a: seq<RunEvent>, b: seq<RunEvent>, reason: Reason)
    requires After(maxSteps, g, a) == Some(mid) && mid.turns == g.turns && Stays(maxSteps, mid, turn, b, reason)
    ensures Stays(maxSteps, g, turn, a + b, reason)
  {
    AfterVia(maxSteps, g, a, mid, b);
  }

  ghost predicate Open(g: Grammar, turn: nat, taken: nat) {
    g.phase.Between? && g.phase.turn == turn && g.phase.steps == taken && MayGoOn(g.phase.last)
  }

  /** A round from an open turn either stops with a reason that fits, or leaves the turn open again. */
  ghost predicate RoundFits(maxSteps: int, g: Grammar, turn: nat, taken: nat, r: Round) {
    if r.Stops? then Stays(maxSteps, g, turn, r.run.events, r.run.reason)
    else
      exists g': Grammar :: After(maxSteps, g, r.events) == Some(g') && g'.turns == g.turns && Open(g', turn, taken + 1)
  }

  lemma StopsAtOnce(maxSteps: int, g: Grammar, turn: nat, taken: nat, events: seq<RunEvent>, reason: Reason)
    requires Open(g, turn, taken) && After(maxSteps, g, events) == Some(g) && Explains(maxSteps, g.phase, reason)
    ensures Stays(maxSteps, g, turn, events, reason)
  {
  }

  lemma StepOpens(o: Options, g: Grammar, turn: nat, taken: nat, asked: seq<RunEvent>, ms: seq<Message>)
    requires Open(g, turn, taken) && taken < o.maxSteps && After(o.maxSteps, g, asked) == Some(g)
    ensures After(o.maxSteps, g, asked + UserEvents(ms) + [StepStart(turn, taken + 1)]) ==
            Some(g.(phase := Streaming(turn, taken + 1)))
  {
    var start := StepStart(turn, taken + 1);
    AfterOne(o.maxSteps, g, start);
    hide After, UserEvents;
    UsersPass(o.maxSteps, g, ms);
    AfterVia(o.maxSteps, g, asked, g, UserEvents(ms));
    AfterVia(o.maxSteps, g, asked + UserEvents(ms), g, [start]);
  }

  lemma StepEvents(o: Options, g: Grammar, turn: nat, taken: nat, asked: seq<RunEvent>, ms: seq<Message>, p: StepPlan)
    requires Open(g, turn, taken) && taken < o.maxSteps && After(o.maxSteps, g, asked) == Some(g)
    ensures var run := Step(o, turn, taken + 1, p);
            exists last: LastStep, owed: nat ::
              StepLeaves(run.outcome, last, owed) &&
              After(o.maxSteps, g, asked + UserEvents(ms) + [StepStart(turn, taken + 1)] + run.events
                + [StepEnd(turn, taken + 1)])
                == Some(Grammar(g.turns, Between(turn, taken + 1, last), g.owed + owed))
  {
    hide Next, After, Step, UserEvents, StepLeaves;
    var run := Step(o, turn, taken + 1, p);
    var streaming := g.(phase := Streaming(turn, taken + 1));
    var front, end := asked + UserEvents(ms) + [StepStart(turn, taken + 1)], [StepEnd(turn, taken + 1)];
    StepOpens(o, g, turn, taken, asked, ms);
    StepIsWellFormed(o, streaming, turn, taken + 1, p);
    var last: LastStep, owed: nat :| StepLeaves(run.outcome, last, owed) &&
      After(o.maxSteps, streaming, run.events + end) ==
      Some(Grammar(streaming.turns, Between(turn, taken + 1, last), streaming.owed + owed));
    hide StepDone, Open;
    AfterVia(o.maxSteps, g, front, streaming, run.events + end);
    assert front + (run.events + end) == front + run.events + end;
  }

  lemma RoundIsWellFormed(o: Options, g: Grammar, turn: nat, taken: nat, pending: seq<Message>, p: StepPlan)
    requires Open(g, turn, taken)
    ensures RoundFits(o.maxSteps, g, turn, taken, RoundOf(o, turn, taken, pending, p))
  {
    hide Next, Step, Foreigns, UserEvents, After;
    ForeignsPass(o.maxSteps, g, p.pre.appended);
    AfterNothing(o.maxSteps, g);
    var r := RoundOf(o, turn, taken, pending, p);
    if p.abortedBefore.Some? || taken >= o.maxSteps || p.pre.answer.Err? || p.pre.answer.value.Reject? {
      StopsAtOnce(o.maxSteps, g, turn, taken, r.run.events, r.run.reason);
    } else {
      StepRoundIsWellFormed(o, g, turn, taken, pending, p);
    }
  }

  lemma AfterNothing(maxSteps: int, g: Grammar)
    ensures After(maxSteps, g, []) == Some(g)
  {
  }

  lemma StepRoundIsWellFormed(o: Options, g: Grammar, turn: nat, taken: nat, pending: seq<Message>, p: StepPlan)
    requires Open(g, turn, taken) && taken < o.maxSteps && p.abortedBefore.None?
    requires p.pre.answer.Ok? && !p.pre.answer.value.Reject?
    ensures RoundFits(o.maxSteps, g, turn, taken, RoundOf(o, turn, taken, pending, p))
  {
    hide Next, Step, Foreigns, UserEvents, After;
    var r, ms := RoundOf(o, turn, taken, pending, p), Entering(p.pre.answer.value, pending);
    var run := Step(o, turn, taken + 1, p);
    ForeignsPass(o.maxSteps, g, p.pre.appended);
    StepEvents(o, g, turn, taken, Foreigns(p.pre.appended), ms, p);
    var events :=
      Foreigns(p.pre.appended) + UserEvents(ms) + [StepStart(turn, taken + 1)] + run.events
        + [StepEnd(turn, taken + 1)];
    var last: LastStep, owed: nat :| StepLeaves(run.outcome, last, owed) &&
      After(o.maxSteps, g, events) == Some(Grammar(g.turns, Between(turn, taken + 1, last), g.owed + owed));
    RoundCloses(o.maxSteps, g, turn, taken, r, events, run.outcome, last, owed);
  }

  lemma RoundCloses(maxSteps: int, g: Grammar, turn: nat, taken: nat, r: Round, events: seq<RunEvent>,
                    outcome: StepOutcome, last: LastStep, owed: nat)
    requires StepLeaves(outcome, last, owed)
    requires After(maxSteps, g, events) == Some(Grammar(g.turns, Between(turn, taken + 1, last), g.owed + owed))
    requires if r.Stops? then r.run.events == events else r.events == events && outcome.Continues?
    requires r.Stops? ==>
             r.run.reason.Cancelled? || r.run.reason.Failed? || (outcome.Ends? && r.run.reason == outcome.reason)
    ensures RoundFits(maxSteps, g, turn, taken, r)
  {
    hide After;
    var g' := Grammar(g.turns, Between(turn, taken + 1, last), g.owed + owed);
    if r.Stops? {
      assert Explains(maxSteps, g'.phase, r.run.reason);
    } else {
      assert Open(g', turn, taken + 1);
    }
  }

  lemma {:induction false} TurnStays(o: Options, w: World, g: Grammar, turn: nat, taken: nat, pending: seq<Message>)
    requires Open(g, turn, taken)
    ensures var run := TurnFrom(o, w, turn, taken, pending); Stays(o.maxSteps, g, turn, run.events, run.reason)
    decreases o.maxSteps - taken
  {
    hide Next, After, RoundOf, Stays, Open;
    var round := RoundOf(o, turn, taken, pending, w(turn, taken));
    RoundIsWellFormed(o, g, turn, taken, pending, w(turn, taken));
    if round.Goes? {
      var g': Grammar :| After(o.maxSteps, g, round.events) == Some(g') && g'.turns == g.turns
          && Open(g', turn, taken + 1);
      TurnStays(o, w, g', turn, taken + 1, round.results);
      var rest := TurnFrom(o, w, turn, taken + 1, round.results);
      StaysVia(o.maxSteps, g, g', turn, round.events, rest.events, rest.reason);
    }
  }

  /** A log between turns. */
  ghost predicate Resting(maxSteps: int, g: Grammar, events: seq<RunEvent>, turns: nat) {
    exists g': Grammar :: After(maxSteps, g, events) == Some(g') && g'.turns == turns && g'.phase.Idle?
  }

  lemma RestingVia(maxSteps: int, g: Grammar, mid: Grammar, a: seq<RunEvent>, b: seq<RunEvent>, turns: nat)
    requires After(maxSteps, g, a) == Some(mid) && Resting(maxSteps, mid, b, turns)
    ensures Resting(maxSteps, g, a + b, turns)
  {
    AfterVia(maxSteps, g, a, mid, b);
  }

  lemma TurnIsWellFormed(o: Options, w: World, g: Grammar, claimed: seq<Message>)
    requires g.phase.Idle?
    ensures Resting(o.maxSteps, g, Turn(o, w, g.turns + 1, claimed), g.turns + 1)
  {
    var turn := g.turns + 1;
    var g1 := Grammar(turn, Between(turn, 0, NoStep), g.owed);
    var run := TurnFrom(o, w, turn, 0, claimed);
    TurnStays(o, w, g1, turn, 0, claimed);
    AfterOne(o.maxSteps, g, TurnStart(turn));
    AfterVia(o.maxSteps, g, [TurnStart(turn)], g1, run.events);
    var g2: Grammar :| After(o.maxSteps, g1, run.events) == Some(g2) && g2.turns == turn && g2.phase.Between?
                       && g2.phase.turn == turn && Explains(o.maxSteps, g2.phase, run.reason);
    AfterVia(o.maxSteps, g, [TurnStart(turn)] + run.events, g2, [TurnEnd(turn, run.reason)]);
    AfterOne(o.maxSteps, g2, TurnEnd(turn, run.reason));
  }

  /** Any drain, whatever fails or is cancelled in it, leaves a log between turns. */
  lemma {:induction false} DrainIsWellFormed(o: Options, w: World, g: Grammar, inbox: I.State, arrivals: seq<Arrival>)
    requires g.phase.Idle?
    ensures var run := Drain(o, w, g.turns, inbox, arrivals); Resting(o.maxSteps, g, run.events, run.lastTurn)
    decreases |arrivals|
  {
    hide Next, Turn, TurnFrom, I.DoAll, I.Do;
    AfterNothing(o.maxSteps, g);
    if arrivals != [] {
      var s := I.DoAll(inbox, arrivals[0].ops);
      if HasPending(s) && arrivals[0].aborted.None? {
        var turn, claimed, after := g.turns + 1, Claimed(s), I.Do(s, I.Claim(I.NEXT_TURN));
        var events := Turn(o, w, turn, claimed);
        TurnIsWellFormed(o, w, g, claimed);
        var g': Grammar :| After(o.maxSteps, g, events) == Some(g') && g'.turns == turn && g'.phase.Idle?;
        if !TurnFrom(o, w, turn, 0, claimed).raised {
          DrainIsWellFormed(o, w, g', after, arrivals[1..]);
          var rest := Drain(o, w, turn, after, arrivals[1..]);
          RestingVia(o.maxSteps, g, g', events, rest.events, rest.lastTurn);
        }
      }
    }
  }

  // ------------------------------------------------------------------ what the grammar gives

  /** Listeners may add other events anywhere in a log without changing where it stands. */
  lemma ForeignAnywhere(maxSteps: int, g: Grammar, a: seq<RunEvent>, c: Hooked, b: seq<RunEvent>)
    ensures After(maxSteps, g, a + [ForeignEvent(c)] + b) == After(maxSteps, g, a + b)
  {
    AfterConcat(maxSteps, g, a + [ForeignEvent(c)], b);
    AfterConcat(maxSteps, g, a, [ForeignEvent(c)]);
    AfterConcat(maxSteps, g, a, b);
    if After(maxSteps, g, a).Some? {
      AfterOne(maxSteps, After(maxSteps, g, a).value, ForeignEvent(c));
    }
  }

  function StartedTurns(es: seq<RunEvent>): seq<nat> {
    if es == [] then []
    else StartedTurns(es[..|es| - 1]) + (if es[|es| - 1].TurnStart? then [es[|es| - 1].turn] else [])
  }

  function EndedTurns(es: seq<RunEvent>): seq<nat> {
    if es == [] then []
    else EndedTurns(es[..|es| - 1]) + (if es[|es| - 1].TurnEnd? then [es[|es| - 1].turn] else [])
  }

  function UpTo(n: nat): seq<nat> {
    if n == 0 then [] else UpTo(n - 1) + [n]
  }

  /** What one event does to the turn the log stands in. */
  lemma NextMoves(maxSteps: int, g: Grammar, e: RunEvent)
    requires Next(maxSteps, g, e).Some?
    ensures var g' := Next(maxSteps, g, e).value;
            if e.TurnStart? then
              && g.phase.Idle? && e.turn == g.turns + 1 == g'.turns
              && !g'.phase.Idle? && g'.phase.turn == g'.turns
            else if e.TurnEnd? then !g.phase.Idle? && e.turn == g.phase.turn && g'.phase.Idle? && g'.turns == g.turns
            else
              && g'.turns == g.turns && (g'.phase.Idle? <==> g.phase.Idle?)
              && (!g.phase.Idle? ==> g'.phase.turn == g.phase.turn)
  {
    hide Explains, MayGoOn, Closed, Answers, CallsIn;
  }

  /** Turns are numbered one after another; each start has its one end before the next start. */
  lemma {:induction false} TurnsNest(maxSteps: int, es: seq<RunEvent>)
    requires After(maxSteps, START, es).Some?
    ensures var g := After(maxSteps, START, es).value;
            && StartedTurns(es) == UpTo(g.turns)
            && (g.phase.Idle? ==> EndedTurns(es) == UpTo(g.turns))
            && (!g.phase.Idle? ==> g.turns > 0 && g.phase.turn == g.turns && EndedTurns(es) == UpTo(g.turns - 1))
  {
    hide Next;
    if es != [] {
      TurnsNest(maxSteps, es[..|es| - 1]);
      NextMoves(maxSteps, After(maxSteps, START, es[..|es| - 1]).value, es[|es| - 1]);
    }
  }

  function StartedSteps(es: seq<RunEvent>, turn: nat): seq<nat> {
    if es == [] then []
    else
      var e := es[|es| - 1];
      StartedSteps(es[..|es| - 1], turn) + (if e.StepStart? && e.turn == turn then [e.step] else [])
  }

  function EndedSteps(es: seq<RunEvent>, turn: nat): seq<nat> {
    if es == [] then []
    else
      var e := es[|es| - 1];
      EndedSteps(es[..|es| - 1], turn) + (if e.StepEnd? && e.turn == turn then [e.step] else [])
  }

  function StepOf(phase: Phase): nat {
    match phase
    case Idle => 0
    case Between(_, steps, _) => steps
    case Streaming(_, step) => step
    case Asked(_, step, _, _) => step
    case Answering(_, step, _, _, _) => step
  }

  ghost predicate StepsFit(maxSteps: int, g: Grammar, turn: nat, started: seq<nat>, ended: seq<nat>) {
    var k := |started|;
    && (k == 0 || k <= maxSteps)
    && started == UpTo(k)
    && (turn > g.turns ==> k == 0)
    && (turn == g.turns && !g.phase.Idle? ==> k == StepOf(g.phase))
    && (if turn == g.turns && !g.phase.Idle? && !g.phase.Between? then k > 0 && ended == UpTo(k - 1)
        else ended == UpTo(k))
  }

  /** The steps of every turn run from 1 to at most the limit, and each start has its one end. */
  lemma {:induction false} StepsNest(maxSteps: int, es: seq<RunEvent>, turn: nat)
    requires After(maxSteps, START, es).Some?
    ensures StepsFit(maxSteps, After(maxSteps, START, es).value, turn, StartedSteps(es, turn), EndedSteps(es, turn))
  {
    if es != [] {
      var before := es[..|es| - 1];
      TurnsNest(maxSteps, before);
      StepsNest(maxSteps, before, turn);
      StepFits(maxSteps, After(maxSteps, START, before).value, es[|es| - 1], turn,
               StartedSteps(before, turn), EndedSteps(before, turn));
    }
  }

  lemma StepFits(maxSteps: int, g: Grammar, e: RunEvent, turn: nat, started: seq<nat>, ended: seq<nat>)
    requires Next(maxSteps, g, e).Some? && StepsFit(maxSteps, g, turn, started, ended)
    requires !g.phase.Idle? ==> g.phase.turn == g.turns
    ensures StepsFit(maxSteps, Next(maxSteps, g, e).value, turn,
                     started + (if e.StepStart? && e.turn == turn then [e.step] else []),
                     ended + (if e.StepEnd? && e.turn == turn then [e.step] else []))
  {
    assert started + [] == started && ended + [] == ended;
    UpToLength(|started|);
  }

  lemma {:induction false} UpToLength(n: nat)
    ensures |UpTo(n)| == n
  {
    if n > 0 {
      UpToLength(n - 1);
    }
  }

  /** Only a turn start moves the count of turns, and by one. */
  lemma NextTurn(maxSteps: int, g: Grammar, e: RunEvent)
    requires Next(maxSteps, g, e).Some?
    ensures e.TurnStart? ==> e.turn == g.turns + 1
    ensures Next(maxSteps, g, e).value.turns == if e.TurnStart? then g.turns + 1 else g.turns
  {
  }

  /** Continuing a log that has started so many turns. */
  lemma {:induction false} TurnsAreCounted(maxSteps: int, g: Grammar, before: seq<RunEvent>, es: seq<RunEvent>)
    requires After(maxSteps, g, es).Some? && LastTurn(before) == g.turns && StartedTurns(before) == UpTo(g.turns)
    ensures var g' := After(maxSteps, g, es).value;
            LastTurn(before + es) == g'.turns && StartedTurns(before + es) == UpTo(g'.turns)
  {
    if es == [] {
      assert before + es == before;
    } else {
      hide Next;
      var init, e := es[..|es| - 1], es[|es| - 1];
      assert (before + es)[..|before + es| - 1] == before + init && (before + es)[|before + es| - 1] == e;
      TurnsAreCounted(maxSteps, g, before, init);
      NextTurn(maxSteps, After(maxSteps, g, init).value, e);
    }
  }

  /** A prefix of a log that obeys the grammar obeys it. */
  lemma {:induction false} PrefixObeys(maxSteps: int, g: Grammar, es: seq<RunEvent>, n: nat)
    requires n <= |es| && After(maxSteps, g, es).Some?
    ensures After(maxSteps, g, es[..n]).Some?
    decreases |es|
  {
    if n == |es| {
      assert es[..n] == es;
    } else {
      assert es[..|es| - 1][..n] == es[..n];
      PrefixObeys(maxSteps, g, es[..|es| - 1], n);
    }
  }

  // ------------------------------------------------------------------ outstanding calls

  function Weight(e: RunEvent): int {
    match e
    case AssistantEvent(_, _, m, _) => CountCalls(m.content)
    case ResultEvent(_, _, _) => -1
    case _ => 0
  }

  function TotalWeight(es: seq<RunEvent>): int {
    if es == [] then 0 else TotalWeight(es[..|es| - 1]) + Weight(es[|es| - 1])
  }

  /** Calls left behind by closed steps, and those the open step has yet to answer. */
  function OwedNow(g: Grammar): nat {
    g.owed +
    (match g.phase
     case Asked(_, _, _, pending) => |pending|
     case Answering(_, _, _, _, pending) => |pending| + 1
     case _ => 0)
  }

  /** The outstanding count is the calls whose step ended without running them, plus the step in hand's. */
  lemma {:induction false} OutstandingIsUnanswered(maxSteps: int, g: Grammar, es: seq<RunEvent>)
    requires After(maxSteps, g, es).Some?
    ensures OwedNow(g) + TotalWeight(es) == OwedNow(After(maxSteps, g, es).value)
  {
    if es != [] {
      OutstandingIsUnanswered(maxSteps, g, es[..|es| - 1]);
    }
  }

  lemma {:induction false} WeightConcat(a: seq<RunEvent>, b: seq<RunEvent>)
    ensures TotalWeight(a + b) == TotalWeight(a) + TotalWeight(b)
  {
    if b == [] {
      assert a + b == a;
    } else {
      assert (a + b)[..|a + b| - 1] == a + b[..|b| - 1];
      WeightConcat(a, b[..|b| - 1]);
    }
  }

  function KindOf(e: RunEvent): S.Kind {
    match e
    case TurnStart(_) => S.TurnStart
    case TurnEnd(_, _) => S.TurnEnd
    case StepStart(_, _) => S.StepStart
    case StepEnd(_, _) => S.StepEnd
    case UserEvent(_) => S.UserMessage
    case ChunkEvent(_, _, _) => S.AssistantChunk
    case AssistantEvent(_, _, _, _) => S.AssistantMessage
    case CallEvent(_, _, _) => S.ToolCall
    case ResultEvent(_, _, _) => S.ToolResult
    case ForeignEvent(c) => c.kind
  }

  /** The session append an agent event is. */
  function CommandOf(e: RunEvent): S.Command {
    match e
    case UserEvent(m) => S.Command(S.UserMessage, S.MessageData(m), S.NoOp, [])
    case AssistantEvent(_, _, m, _) => S.Command(S.AssistantMessage, S.MessageData(m), S.NoOp, [])
    case ResultEvent(_, _, m) => S.Command(S.ToolResult, S.MessageData(m), S.NoOp, [])
    case ForeignEvent(c) => c
    case _ => S.Command(KindOf(e), S.OtherData(0), S.NoOp, [])
  }

  function Commands(es: seq<RunEvent>): seq<S.Command> {
    if es == [] then [] else Commands(es[..|es| - 1]) + [CommandOf(es[|es| - 1])]
  }

  lemma CommandDelta(s: S.State, e: RunEvent)
    ensures var c := CommandOf(e);
            if c.op.Replace? then e.ForeignEvent? && Weight(e) == 0
            else if S.IsSurface(c.kind) && !c.data.LossyData? then P.Delta(S.Stored(s, c)) == Weight(e)
            else Weight(e) == 0
  {
  }

  /** What the hooks replace, they replace safely: as a compaction or a pruning does. */
  ghost predicate HooksSafe(es: seq<RunEvent>) {
    es == [] ||
    (HooksSafe(es[..|es| - 1]) &&
     (CommandOf(es[|es| - 1]).op.Replace? ==>
        var s := S.Run(S.EMPTY, Commands(es[..|es| - 1]));
        S.WellFormed(s) && P.PairingSafe(s, CommandOf(es[|es| - 1]))))
  }

  lemma CommandWeighs(s: S.State, e: RunEvent)
    requires S.WellFormed(s) && (CommandOf(e).op.Replace? ==> P.PairingSafe(s, CommandOf(e)))
    ensures var c := CommandOf(e);
            && S.WellFormed(S.Append(s, c))
            && Sum(P.StateDeltas(S.Append(s, c))) == Sum(P.StateDeltas(s)) + Weight(e)
            && (Sum(P.StateDeltas(s)) + Weight(e) >= 0 ==> P.PairingSafe(s, c))
  {
    hide CommandOf, Weight, P.Delta;
    var c := CommandOf(e);
    CommandDelta(s, e);
    if c.op.Replace? {
      ReplacementWeighs(s, c);
    } else {
      AppendWeighs(s, c);
    }
  }

  lemma AppendWeighs(s: S.State, c: S.Command)
    requires S.WellFormed(s) && !c.op.Replace?
    ensures S.WellFormed(S.Append(s, c))
    ensures Sum(P.StateDeltas(S.Append(s, c))) ==
            Sum(P.StateDeltas(s)) +
            (if S.IsSurface(c.kind) && !c.data.LossyData? then P.Delta(S.Stored(s, c)) else 0)
  {
    hide P.Delta;
    S.AppendWellFormed(s, c);
    if c.kind.Unknown? || c.data.LossyData? {
    } else if S.IsSurface(c.kind) {
      assert P.StateDeltas(S.Surfaced(s, c)) == P.StateDeltas(s) + [P.Delta(S.Stored(s, c))];
      SumSnoc(P.StateDeltas(s), P.Delta(S.Stored(s, c)));
    } else {
      P.DeltasStable(s.events, S.Stored(s, c), s.view.surface);
    }
  }

  /** A safe replacement leaves the surface's weight alone; so does one that fails. */
  lemma ReplacementWeighs(s: S.State, c: S.Command)
    requires S.WellFormed(s) && c.op.Replace? && P.PairingSafe(s, c)
    ensures S.WellFormed(S.Append(s, c)) && Sum(P.StateDeltas(S.Append(s, c))) == Sum(P.StateDeltas(s))
  {
    hide P.Delta, IndexOf;
    S.AppendWellFormed(s, c);
    var surface := s.view.surface;
    if S.Append(s, c) == s {
    } else if S.NamesRun(surface, c.op.start, c.op.end) {
      RunWeighs(s, c, IndexOf(surface, c.op.start), IndexOf(surface, c.op.end));
    } else {
      P.DeltasStable(s.events, S.Stored(s, c), surface);
    }
  }

  lemma RunWeighs(s: S.State, c: S.Command, first: nat, last: nat)
    requires S.WellFormed(s) && first <= last < |s.view.surface| && S.WellFormed(S.Replaced(s, c, first, last))
    requires P.Outstanding(P.StateDeltas(s), first) + P.Delta(S.Stored(s, c)) ==
             P.Outstanding(P.StateDeltas(s), last + 1)
    ensures Sum(P.StateDeltas(S.Replaced(s, c, first, last))) == Sum(P.StateDeltas(s))
  {
    hide P.Delta, S.Splice;
    P.DeltasOfSplice(s, c, first, last);
    SpliceSum(P.StateDeltas(s), first, last, P.Delta(S.Stored(s, c)));
  }

  lemma SpliceSum(ds: seq<int>, first: nat, last: nat, d: int)
    requires first <= last < |ds| && P.Outstanding(ds, first) + d == P.Outstanding(ds, last + 1)
    ensures Sum(S.Splice(ds, first, last, d)) == Sum(ds)
  {
    hide S.Splice, Sum;
    var ds' := S.Splice(ds, first, last, d);
    P.SpliceAt(ds, first, last, d);
    P.SpliceShifts(ds, first, last, d, |ds'|);
    assert ds'[..|ds'|] == ds';
    assert ds[..|ds|] == ds;
  }

  /** Replaying a log through the session: when no prefix weighs less than nothing and hooks replace safely, the
      surface weighs what the log weighs, and every append was safe. */
  lemma {:induction false} SurfaceWeighsTheLog(es: seq<RunEvent>)
    requires HooksSafe(es) && forall n :: 0 <= n <= |es| ==> TotalWeight(es[..n]) >= 0
    ensures var s := S.Run(S.EMPTY, Commands(es));
            S.WellFormed(s) && Sum(P.StateDeltas(s)) == TotalWeight(es) && P.AllSafe(Commands(es))
  {
    hide TotalWeight, P.StateDeltas, P.PairingSafe, S.WellFormed, CommandOf, Weight;
    S.RunWellFormed(Commands(es));
    if es == [] {
      NothingWeighs();
    } else {
      var before, e := es[..|es| - 1], es[|es| - 1];
      assert forall n :: 0 <= n <= |before| ==> before[..n] == es[..n];
      SurfaceWeighsTheLog(before);
      CommandsSnoc(es);
      assert es[..|es|] == es;
      WeightSnoc(es);
      CommandWeighs(S.Run(S.EMPTY, Commands(before)), e);
    }
  }

  lemma NothingWeighs()
    ensures S.WellFormed(S.EMPTY) && Sum(P.StateDeltas(S.EMPTY)) == 0 && TotalWeight([]) == 0
  {
  }

  lemma WeightSnoc(es: seq<RunEvent>)
    requires es != []
    ensures TotalWeight(es) == TotalWeight(es[..|es| - 1]) + Weight(es[|es| - 1])
  {
  }

  lemma CommandsSnoc(es: seq<RunEvent>)
    requires es != []
    ensures var cs := Commands(es);
            cs != [] && cs[..|cs| - 1] == Commands(es[..|es| - 1]) && cs[|cs| - 1] == CommandOf(es[|es| - 1])
  {
  }
}
