/** What one run of the agent loop writes to the log (agent/agent.py). */
module AgentRuns {
  import opened Prelude
  import opened Messages
  import Assembler
  import I = Inboxes
  import Sessions

  type Chunk = Assembler.Chunk

  /** Why a turn ended. */
  datatype Reason =
    | Completed
    | TokensExhausted
    | StepsExhausted
    | Blocked
    | ModelError(code: string)
    | Cancelled(cause: string)
    | Failed(error: string)

  /** What hooks may append: anything that is no call and no result of a call, and replacements, by which hooks
      compact and prune. */
  type Hooked = c: Sessions.Command |
    c.op.Replace? || (!c.kind.AssistantMessage? && !c.kind.ToolResult?)
    witness Sessions.Command(Sessions.TodoWrite, Sessions.OtherData(0), Sessions.NoOp, [])

  datatype RunEvent =
    | TurnStart(turn: nat)
    | TurnEnd(turn: nat, reason: Reason)
    | StepStart(turn: nat, step: nat)
    | StepEnd(turn: nat, step: nat)
    | UserEvent(message: Message)
    | ChunkEvent(turn: nat, step: nat, chunk: Chunk)
    | AssistantEvent(turn: nat, step: nat, message: Message, usage: Option<int>)
    | CallEvent(turn: nat, step: nat, call: Block)
    | ResultEvent(turn: nat, step: nat, message: Message)
    | ForeignEvent(command: Hooked)

  // ------------------------------------------------------------- what the world answers

  /** Any call out may be cancelled or may raise. */
  datatype Fail = Cancel(cause: string) | Raise(error: string)

  /** What a hook appended, and its answer. */
  datatype Hook<T> = Hook(appended: seq<Hooked>, answer: Result<T, Fail>)

  datatype Decision = Reject | Enter(messages: seq<Message>) | NoOpinion

  /** A model call that failed and that a plugin chose to retry. */
  datatype Attempt = Attempt(chunks: seq<Chunk>, appended: seq<Hooked>)

  datatype Outcome = Outcome(id: string, text: string, isError: bool)

  datatype StepPlan = StepPlan(
    abortedBefore: Option<string>,
    pre: Hook<Decision>,
    request: Hook<()>,
    build: Hook<()>,
    retries: seq<Attempt>,
    chunks: seq<Chunk>,
    stream: Hook<()>,
    messageId: string,
    tools: Hook<nat -> Outcome>,
    abortedAfter: Option<string>)

  /** The answers by turn and by the number of steps already taken in it. */
  type World = (nat, nat) -> StepPlan

  datatype Options = Options(maxSteps: int, provider: string, model: string)

  // ------------------------------------------------------------- one step

  function Foreigns(cs: seq<Hooked>): (es: seq<RunEvent>)
    ensures |es| == |cs|
  {
    seq(|cs|, i requires 0 <= i < |cs| => ForeignEvent(cs[i]))
  }

  function ChunkEvents(turn: nat, step: nat, chunks: seq<Chunk>): (es: seq<RunEvent>)
    ensures |es| == |chunks|
  {
    seq(|chunks|, i requires 0 <= i < |chunks| => ChunkEvent(turn, step, chunks[i]))
  }

  function RetryEvents(turn: nat, step: nat, retries: seq<Attempt>): seq<RunEvent> {
    if retries == [] then []
    else
      var a := retries[|retries| - 1];
      RetryEvents(turn, step, retries[..|retries| - 1]) + ChunkEvents(turn, step, a.chunks) + Foreigns(a.appended)
  }

  lemma RetrySnoc(turn: nat, step: nat, retries: seq<Attempt>, a: Attempt)
    ensures RetryEvents(turn, step, retries + [a]) ==
            RetryEvents(turn, step, retries) + ChunkEvents(turn, step, a.chunks) + Foreigns(a.appended)
  {
    assert (retries + [a])[..|retries|] == retries;
  }

  lemma NothingRetried(turn: nat, step: nat)
    ensures RetryEvents(turn, step, []) == []
  {
  }

  /** The tool calls of a message, in order. */
  function CallsIn(blocks: seq<Block>): (calls: seq<Block>)
    ensures |calls| == CountCalls(blocks)
    ensures forall c :: c in calls ==> c.ToolCallBlock?
  {
    if blocks == [] then []
    else
      CallsIn(blocks[..|blocks| - 1]) +
      (if blocks[|blocks| - 1].ToolCallBlock? then [blocks[|blocks| - 1]] else [])
  }

  /** `at` are the places of all tool calls among the blocks, in rising order. */
  ghost predicate CallsAt(blocks: seq<Block>, at: seq<nat>) {
    && (forall i, j :: 0 <= i < j < |at| ==> at[i] < at[j])
    && (forall i :: 0 <= i < |at| ==> at[i] < |blocks| && blocks[at[i]].ToolCallBlock?)
    && (forall k: nat :: k < |blocks| && blocks[k].ToolCallBlock? ==> k in at)
  }

  /** The calls are the blocks at these places. */
  ghost predicate InPlace(blocks: seq<Block>, at: seq<nat>, calls: seq<Block>) {
    CallsAt(blocks, at) && |calls| == |at| && forall i :: 0 <= i < |at| ==> calls[i] == blocks[at[i]]
  }

  lemma {:induction false} CallsAreInPlace(blocks: seq<Block>) returns (at: seq<nat>)
    ensures InPlace(blocks, at, CallsIn(blocks))
  {
    at := [];
    if blocks != [] {
      hide InPlace;
      var n := |blocks| - 1;
      at := CallsAreInPlace(blocks[..n]);
      InPlaceSnoc(blocks, at, CallsIn(blocks[..n]));
      at := if blocks[n].ToolCallBlock? then at + [n] else at;
    }
  }

  lemma InPlaceSnoc(blocks: seq<Block>, at: seq<nat>, calls: seq<Block>)
    requires blocks != [] && InPlace(blocks[..|blocks| - 1], at, calls)
    ensures var n := |blocks| - 1;
            if blocks[n].ToolCallBlock? then InPlace(blocks, at + [n], calls + [blocks[n]])
            else InPlace(blocks, at, calls + [])
  {
    var n := |blocks| - 1;
    assert forall k: nat :: k < n ==> blocks[..n][k] == blocks[k];
    assert forall k :: k in at + [n] <==> k in at || k == n;
    assert calls + [] == calls;
  }

  function ResultMessage(call: Block, outcome: Outcome): Message
    requires call.ToolCallBlock?
  {
    Message(outcome.id, "user", [ToolResultBlock(call.id, [TextBlock(outcome.text)], outcome.isError)],
            Source("tool", "", "", "", "", "", None, None))
  }

  function ResultEvents(turn: nat, step: nat, calls: seq<Block>, outcomes: nat -> Outcome): seq<RunEvent>
    requires forall c :: c in calls ==> c.ToolCallBlock?
  {
    if calls == [] then []
    else
      var n := |calls| - 1;
      ResultEvents(turn, step, calls[..n], outcomes) +
      [CallEvent(turn, step, calls[n]), ResultEvent(turn, step, ResultMessage(calls[n], outcomes(n)))]
  }

  function ResultMessages(calls: seq<Block>, outcomes: nat -> Outcome): (ms: seq<Message>)
    requires forall c :: c in calls ==> c.ToolCallBlock?
    ensures |ms| == |calls|
  {
    seq(|calls|, i requires 0 <= i < |calls| => ResultMessage(calls[i], outcomes(i)))
  }

  /** The events are a call and its result for each tool call among the blocks, in the order of the blocks, and the
      results come in that order too. */
  ghost predicate RunInOrder(turn: nat, step: nat, blocks: seq<Block>, at: seq<nat>, outcomes: nat -> Outcome,
                             es: seq<RunEvent>, results: seq<Message>) {
    && CallsAt(blocks, at) && |es| == 2 * |at| && |results| == |at|
    && forall k :: 0 <= k < |at| ==>
         && es[2 * k] == CallEvent(turn, step, blocks[at[k]])
         && es[2 * k + 1] == ResultEvent(turn, step, results[k])
         && IsResultOf(results[k], blocks[at[k]], outcomes(k))
  }

  /** The message a tool's outcome goes back to the model in. */
  predicate IsResultOf(m: Message, call: Block, outcome: Outcome) {
    && call.ToolCallBlock? && m.id == outcome.id && m.role == "user" && m.source.kind == "tool"
    && m.content == [ToolResultBlock(call.id, [TextBlock(outcome.text)], outcome.isError)]
  }

  /** The events and the results of calls run one after another, in pairs. */
  ghost predicate Paired(turn: nat, step: nat, calls: seq<Block>, outcomes: nat -> Outcome, es: seq<RunEvent>,
                         results: seq<Message>) {
    && |es| == 2 * |calls| && |results| == |calls|
    && forall k :: 0 <= k < |calls| ==>
         && es[2 * k] == CallEvent(turn, step, calls[k])
         && es[2 * k + 1] == ResultEvent(turn, step, results[k])
         && IsResultOf(results[k], calls[k], outcomes(k))
  }

  lemma {:induction false} ResultsArePaired(turn: nat, step: nat, calls: seq<Block>, outcomes: nat -> Outcome)
    requires forall c :: c in calls ==> c.ToolCallBlock?
    ensures Paired(turn, step, calls, outcomes, ResultEvents(turn, step, calls, outcomes),
                   ResultMessages(calls, outcomes))
  {
    if calls != [] {
      hide Paired;
      var n := |calls| - 1;
      ResultsArePaired(turn, step, calls[..n], outcomes);
      assert ResultMessages(calls, outcomes) == ResultMessages(calls[..n], outcomes) +
                                                [ResultMessage(calls[n], outcomes(n))];
      PairedSnoc(turn, step, calls, outcomes, ResultEvents(turn, step, calls[..n], outcomes),
                 ResultMessages(calls[..n], outcomes), ResultMessage(calls[n], outcomes(n)));
    }
  }

  lemma PairedSnoc(turn: nat, step: nat, calls: seq<Block>, outcomes: nat -> Outcome, es: seq<RunEvent>,
                   results: seq<Message>, m: Message)
    requires calls != [] && Paired(turn, step, calls[..|calls| - 1], outcomes, es, results)
    requires IsResultOf(m, calls[|calls| - 1], outcomes(|calls| - 1))
    ensures Paired(turn, step, calls, outcomes,
                   es + [CallEvent(turn, step, calls[|calls| - 1]), ResultEvent(turn, step, m)], results + [m])
  {
    hide IsResultOf;
    var n := |calls| - 1;
    assert forall k :: 0 <= k < n ==> calls[..n][k] == calls[k];
  }

  /** Running the calls of a message runs its tool-call blocks in their order. */
  lemma CallsRunInOrder(turn: nat, step: nat, blocks: seq<Block>, outcomes: nat -> Outcome)
    ensures exists at :: RunInOrder(turn, step, blocks, at, outcomes,
                                    ResultEvents(turn, step, CallsIn(blocks), outcomes),
                                    ResultMessages(CallsIn(blocks), outcomes))
  {
    hide CallsIn, ResultEvents, ResultMessages, IsResultOf;
    var at := CallsAreInPlace(blocks);
    ResultsArePaired(turn, step, CallsIn(blocks), outcomes);
    assert RunInOrder(turn, step, blocks, at, outcomes, ResultEvents(turn, step, CallsIn(blocks), outcomes),
                      ResultMessages(CallsIn(blocks), outcomes));
  }

  datatype StepOutcome = Ends(reason: Reason) | Continues(results: seq<Message>) | Cut(how: Fail)

  datatype StepRun = StepRun(events: seq<RunEvent>, outcome: StepOutcome)

  ghost function Assembled(chunks: seq<Chunk>): Assembler.State {
    Assembler.Finalized(Assembler.PushAll(Assembler.EMPTY, chunks))
  }

  ghost function Reply(o: Options, p: StepPlan): Message {
    Message(p.messageId, "assistant", Assembler.Blocks(Assembled(p.chunks).closed),
            Source("model", "", "", o.provider, o.model, "", None, None))
  }

  function Before(turn: nat, step: nat, p: StepPlan): seq<RunEvent> {
    Foreigns(p.request.appended) + Foreigns(p.build.appended) +
    RetryEvents(turn, step, p.retries) + ChunkEvents(turn, step, p.chunks) + Foreigns(p.stream.appended)
  }

  lemma BeforeFrom(log: seq<RunEvent>, turn: nat, step: nat, p: StepPlan)
    ensures log + Foreigns(p.request.appended) + Foreigns(p.build.appended) + RetryEvents(turn, step, p.retries) +
            ChunkEvents(turn, step, p.chunks) + Foreigns(p.stream.appended) == log + Before(turn, step, p)
  {
    hide Foreigns, RetryEvents, ChunkEvents;
  }

  /** Everything one step writes between its start and its end. */
  ghost function Step(o: Options, turn: nat, step: nat, p: StepPlan): StepRun {
    if p.request.answer.Err? then StepRun(Foreigns(p.request.appended), Cut(p.request.answer.error))
    else if p.build.answer.Err? then
      StepRun(Foreigns(p.request.appended) + Foreigns(p.build.appended), Cut(p.build.answer.error))
    else if p.stream.answer.Err? then StepRun(Before(turn, step, p), Cut(p.stream.answer.error))
    else
      var a := Assembled(p.chunks);
      if a.finish.ErrorFinish? then StepRun(Before(turn, step, p), Ends(ModelError(a.finish.code)))
      else
        var m := Reply(o, p);
        var told := Before(turn, step, p) + [AssistantEvent(turn, step, m, a.usage)];
        var calls := CallsIn(m.content);
        if a.finish.MaxTokens? then StepRun(told, Ends(TokensExhausted))
        else if calls == [] then StepRun(told, Ends(Completed))
        else if p.tools.answer.Err? then StepRun(told + Foreigns(p.tools.appended), Cut(p.tools.answer.error))
        else
          StepRun(told + Foreigns(p.tools.appended) + ResultEvents(turn, step, calls, p.tools.answer.value),
                  Continues(ResultMessages(calls, p.tools.answer.value)))
  }

  /** The step told the model's reply, ran its tool calls in the order the reply holds them, and goes on with their
      results in that order. */
  ghost predicate RanItsCalls(before: seq<RunEvent>, turn: nat, step: nat, m: Message, usage: Option<int>,
                              hooks: seq<RunEvent>, outcomes: nat -> Outcome, events: seq<RunEvent>,
                              results: seq<Message>) {
    exists at, es ::
      && RunInOrder(turn, step, m.content, at, outcomes, es, results) && at != []
      && events == before + [AssistantEvent(turn, step, m, usage)] + hooks + es
  }

  /** What the events of a step say about its outcome: it goes on exactly with the results of its reply's tool calls,
      all of them and in order; otherwise it ran none, and one that completes the turn had none to run. */
  ghost predicate Shows(o: Options, turn: nat, step: nat, p: StepPlan, events: seq<RunEvent>, outcome: StepOutcome) {
    var m, usage := Reply(o, p), Assembled(p.chunks).usage;
    && (outcome.Continues? ==>
          p.tools.answer.Ok? &&
          RanItsCalls(Before(turn, step, p), turn, step, m, usage, Foreigns(p.tools.appended),
                      p.tools.answer.value, events, outcome.results))
    && (!outcome.Continues? ==> NoneRun(events))
    && (outcome == Ends(Completed) ==>
          events == Before(turn, step, p) + [AssistantEvent(turn, step, m, usage)]
          && forall b :: b in m.content ==> !b.ToolCallBlock?)
  }

  ghost predicate NoneRun(es: seq<RunEvent>) {
    forall i :: 0 <= i < |es| ==> !es[i].CallEvent? && !es[i].ResultEvent?
  }

  lemma NoneRunConcat(a: seq<RunEvent>, b: seq<RunEvent>)
    requires NoneRun(a) && NoneRun(b)
    ensures NoneRun(a + b)
  {
  }

  lemma {:induction false} RetriesRunNone(turn: nat, step: nat, retries: seq<Attempt>)
    ensures NoneRun(RetryEvents(turn, step, retries))
  {
    if retries != [] {
      RetriesRunNone(turn, step, retries[..|retries| - 1]);
    }
  }

  lemma HooksRunNone(turn: nat, step: nat, cs: seq<Hooked>, chunks: seq<Chunk>)
    ensures NoneRun(Foreigns(cs)) && NoneRun(ChunkEvents(turn, step, chunks))
  {
  }

  lemma BeforeRunsNone(turn: nat, step: nat, p: StepPlan)
    ensures NoneRun(Foreigns(p.request.appended) + Foreigns(p.build.appended))
    ensures NoneRun(Before(turn, step, p))
  {
    HooksRunNone(turn, step, p.request.appended, p.chunks);
    HooksRunNone(turn, step, p.build.appended, p.chunks);
    HooksRunNone(turn, step, p.stream.appended, p.chunks);
    RetriesRunNone(turn, step, p.retries);
    hide NoneRun, Foreigns, ChunkEvents, RetryEvents;
    var a, b := Foreigns(p.request.appended), Foreigns(p.build.appended);
    NoneRunConcat(a, b);
    NoneRunConcat(a + b, RetryEvents(turn, step, p.retries));
    NoneRunConcat(a + b + RetryEvents(turn, step, p.retries), ChunkEvents(turn, step, p.chunks));
    NoneRunConcat(a + b + RetryEvents(turn, step, p.retries) + ChunkEvents(turn, step, p.chunks),
                  Foreigns(p.stream.appended));
  }

  /** A step that does not go on has run none of the calls it was asked for. */
  lemma StoppedStepRunsNone(o: Options, turn: nat, step: nat, p: StepPlan)
    ensures var run := Step(o, turn, step, p); !run.outcome.Continues? ==> NoneRun(run.events)
  {
    HooksRunNone(turn, step, p.request.appended, []);
    HooksRunNone(turn, step, p.tools.appended, []);
    BeforeRunsNone(turn, step, p);
    var told := [AssistantEvent(turn, step, Reply(o, p), Assembled(p.chunks).usage)];
    assert NoneRun(told);
    hide NoneRun, Foreigns, Before, Reply, Assembled, CallsIn, ResultEvents, ResultMessages;
    NoneRunConcat(Before(turn, step, p), told);
    NoneRunConcat(Before(turn, step, p) + told, Foreigns(p.tools.appended));
  }

  lemma StepShows(o: Options, turn: nat, step: nat, p: StepPlan)
    ensures var run := Step(o, turn, step, p); Shows(o, turn, step, p, run.events, run.outcome)
  {
    hide Before, Foreigns, Assembled, CallsIn, ResultEvents, ResultMessages, RunInOrder, Reply, NoneRun;
    StoppedStepRunsNone(o, turn, step, p);
    var blocks := Reply(o, p).content;
    var at := CallsAreInPlace(blocks);
    if Step(o, turn, step, p).outcome.Continues? {
      var outcomes := p.tools.answer.value;
      var es, results := ResultEvents(turn, step, CallsIn(blocks), outcomes), ResultMessages(CallsIn(blocks), outcomes);
      CallsRunInOrder(turn, step, blocks, outcomes);
      var at' :| RunInOrder(turn, step, blocks, at', outcomes, es, results);
      SomeCall(turn, step, blocks, at', outcomes, es, results);
    }
  }

  lemma SomeCall(turn: nat, step: nat, blocks: seq<Block>, at: seq<nat>, outcomes: nat -> Outcome, es: seq<RunEvent>,
                 results: seq<Message>)
    requires RunInOrder(turn, step, blocks, at, outcomes, es, results) && results != []
    ensures at != []
  {
  }

  // ------------------------------------------------------------- one turn

  function UserEvents(messages: seq<Message>): (es: seq<RunEvent>)
    ensures |es| == |messages|
  {
    seq(|messages|, i requires 0 <= i < |messages| => UserEvent(messages[i]))
  }

  function ReasonOf(how: Fail): Reason {
    match how
    case Cancel(cause) => Cancelled(cause)
    case Raise(error) => Failed(error)
  }

  /** The events of a turn from some step on, why it ended, and whether an exception escapes. */
  datatype TurnRun = TurnRun(events: seq<RunEvent>, reason: Reason, raised: bool)

  function CutTurn(events: seq<RunEvent>, how: Fail): TurnRun {
    TurnRun(events, ReasonOf(how), how.Raise?)
  }

  function Entering(d: Decision, pending: seq<Message>): seq<Message> {
    if d.Enter? then d.messages else pending
  }

  /** One round of the loop: the turn stops here, or goes on with the results of its tools. */
  datatype Round = Stops(run: TurnRun) | Goes(events: seq<RunEvent>, results: seq<Message>)

  ghost function RoundOf(o: Options, turn: nat, taken: nat, pending: seq<Message>, p: StepPlan): (r: Round)
    ensures r.Goes? ==> taken < o.maxSteps
  {
    var asked := Foreigns(p.pre.appended);
    if p.abortedBefore.Some? then Stops(TurnRun([], Cancelled(p.abortedBefore.value), false))
    else if taken >= o.maxSteps then Stops(TurnRun([], StepsExhausted, false))
    else if p.pre.answer.Err? then Stops(CutTurn(asked, p.pre.answer.error))
    else if p.pre.answer.value.Reject? then Stops(TurnRun(asked, Blocked, false))
    else
      var run := Step(o, turn, taken + 1, p);
      var events := asked + UserEvents(Entering(p.pre.answer.value, pending)) + [StepStart(turn, taken + 1)] +
                    run.events + [StepEnd(turn, taken + 1)];
      if run.outcome.Cut? then Stops(CutTurn(events, run.outcome.how))
      else if p.abortedAfter.Some? then Stops(TurnRun(events, Cancelled(p.abortedAfter.value), false))
      else if run.outcome.Ends? then Stops(TurnRun(events, run.outcome.reason, false))
      else Goes(events, run.outcome.results)
  }

  ghost function TurnFrom(o: Options, w: World, turn: nat, taken: nat, pending: seq<Message>): TurnRun
    decreases o.maxSteps - taken
  {
    var round := RoundOf(o, turn, taken, pending, w(turn, taken));
    if round.Stops? then round.run
    else
      var rest := TurnFrom(o, w, turn, taken + 1, round.results);
      TurnRun(round.events + rest.events, rest.reason, rest.raised)
  }

  ghost function Turn(o: Options, w: World, turn: nat, claimed: seq<Message>): seq<RunEvent> {
    var run := TurnFrom(o, w, turn, 0, claimed);
    [TurnStart(turn)] + run.events + [TurnEnd(turn, run.reason)]
  }

  // ------------------------------------------------------------- what a turn takes in

  /** The messages that enter a log as what users said, in order. */
  function Heard(es: seq<RunEvent>): seq<Message> {
    if es == [] then []
    else
      var e := es[|es| - 1];
      Heard(es[..|es| - 1]) + (if e.UserEvent? then [e.message] else [])
  }

  lemma {:induction false} HeardConcat(a: seq<RunEvent>, b: seq<RunEvent>)
    ensures Heard(a + b) == Heard(a) + Heard(b)
  {
    if b == [] {
      assert a + b == a;
    } else {
      assert (a + b)[..|a + b| - 1] == a + b[..|b| - 1];
      HeardConcat(a, b[..|b| - 1]);
    }
  }

  ghost predicate NobodySpeaks(es: seq<RunEvent>) {
    forall i :: 0 <= i < |es| ==> !es[i].UserEvent?
  }

  lemma {:induction false} NothingHeard(es: seq<RunEvent>)
    requires NobodySpeaks(es)
    ensures Heard(es) == []
  {
    if es != [] {
      NothingHeard(es[..|es| - 1]);
    }
  }

  lemma {:induction false} AllHeard(messages: seq<Message>)
    ensures Heard(UserEvents(messages)) == messages
  {
    if messages != [] {
      AllHeard(messages[..|messages| - 1]);
      assert UserEvents(messages)[..|messages| - 1] == UserEvents(messages[..|messages| - 1]);
    }
  }

  lemma {:induction false} RetriesAreSilent(turn: nat, step: nat, retries: seq<Attempt>)
    ensures NobodySpeaks(RetryEvents(turn, step, retries))
  {
    if retries != [] {
      RetriesAreSilent(turn, step, retries[..|retries| - 1]);
    }
  }

  lemma {:induction false} ResultsAreSilent(turn: nat, step: nat, calls: seq<Block>, outcomes: nat -> Outcome)
    requires forall c :: c in calls ==> c.ToolCallBlock?
    ensures NobodySpeaks(ResultEvents(turn, step, calls, outcomes))
  {
    if calls != [] {
      ResultsAreSilent(turn, step, calls[..|calls| - 1], outcomes);
    }
  }

  lemma SilentConcat(a: seq<RunEvent>, b: seq<RunEvent>)
    requires NobodySpeaks(a) && NobodySpeaks(b)
    ensures NobodySpeaks(a + b)
  {
  }

  lemma HooksAreSilent(turn: nat, step: nat, cs: seq<Hooked>, chunks: seq<Chunk>)
    ensures NobodySpeaks(Foreigns(cs)) && NobodySpeaks(ChunkEvents(turn, step, chunks))
  {
  }

  lemma BeforeIsSilent(turn: nat, step: nat, p: StepPlan)
    ensures NobodySpeaks(Foreigns(p.request.appended) + Foreigns(p.build.appended))
    ensures NobodySpeaks(Before(turn, step, p))
  {
    HooksAreSilent(turn, step, p.request.appended, p.chunks);
    HooksAreSilent(turn, step, p.build.appended, p.chunks);
    HooksAreSilent(turn, step, p.stream.appended, p.chunks);
    RetriesAreSilent(turn, step, p.retries);
    hide NobodySpeaks, Foreigns, ChunkEvents, RetryEvents;
    var a, b := Foreigns(p.request.appended), Foreigns(p.build.appended);
    SilentConcat(a, b);
    SilentConcat(a + b, RetryEvents(turn, step, p.retries));
    SilentConcat(a + b + RetryEvents(turn, step, p.retries), ChunkEvents(turn, step, p.chunks));
    SilentConcat(a + b + RetryEvents(turn, step, p.retries) + ChunkEvents(turn, step, p.chunks),
                 Foreigns(p.stream.appended));
  }

  lemma StepIsSilent(o: Options, turn: nat, step: nat, p: StepPlan)
    ensures NobodySpeaks(Step(o, turn, step, p).events)
  {
    HooksAreSilent(turn, step, p.request.appended, []);
    HooksAreSilent(turn, step, p.tools.appended, []);
    BeforeIsSilent(turn, step, p);
    var m, usage := Reply(o, p), Assembled(p.chunks).usage;
    var told := [AssistantEvent(turn, step, m, usage)];
    assert NobodySpeaks(told);
    hide NobodySpeaks, Foreigns, Before, Reply, Assembled, CallsIn, ResultEvents, ResultMessages;
    SilentConcat(Before(turn, step, p), told);
    SilentConcat(Before(turn, step, p) + told, Foreigns(p.tools.appended));
    if Step(o, turn, step, p).outcome.Continues? {
      ResultsAreSilent(turn, step, CallsIn(m.content), p.tools.answer.value);
      SilentConcat(Before(turn, step, p) + told + Foreigns(p.tools.appended),
                   ResultEvents(turn, step, CallsIn(m.content), p.tools.answer.value));
    }
  }

  /** Nothing stops the round before its step, so that input enters. */
  predicate LetsIn(o: Options, taken: nat, p: StepPlan) {
    p.abortedBefore.None? && taken < o.maxSteps && p.pre.answer.Ok? && !p.pre.answer.value.Reject?
  }

  function EventsOf(round: Round): seq<RunEvent> {
    if round.Stops? then round.run.events else round.events
  }

  lemma HeardBetween(a: seq<RunEvent>, said: seq<Message>, b: seq<RunEvent>)
    requires NobodySpeaks(a) && NobodySpeaks(b)
    ensures Heard(a + UserEvents(said) + b) == said
  {
    hide NobodySpeaks, UserEvents, Heard;
    NothingHeard(a);
    NothingHeard(b);
    AllHeard(said);
    HeardConcat(a, UserEvents(said));
    HeardConcat(a + UserEvents(said), b);
  }

  lemma RoundLetIn(o: Options, turn: nat, taken: nat, pending: seq<Message>, p: StepPlan)
    requires LetsIn(o, taken, p)
    ensures EventsOf(RoundOf(o, turn, taken, pending, p)) ==
            Foreigns(p.pre.appended) + UserEvents(Entering(p.pre.answer.value, pending)) +
            ([StepStart(turn, taken + 1)] + Step(o, turn, taken + 1, p).events + [StepEnd(turn, taken + 1)])
  {
    hide Foreigns, UserEvents, Entering, Step;
  }

  lemma RoundKeptOut(o: Options, turn: nat, taken: nat, pending: seq<Message>, p: StepPlan)
    requires !LetsIn(o, taken, p)
    ensures EventsOf(RoundOf(o, turn, taken, pending, p)) in {[], Foreigns(p.pre.appended)}
  {
  }

  lemma StepBetweenIsSilent(o: Options, turn: nat, step: nat, p: StepPlan)
    ensures NobodySpeaks([StepStart(turn, step)] + Step(o, turn, step, p).events + [StepEnd(turn, step)])
  {
    StepIsSilent(o, turn, step, p);
    assert NobodySpeaks([StepStart(turn, step)]) && NobodySpeaks([StepEnd(turn, step)]);
    hide NobodySpeaks, Step;
    SilentConcat([StepStart(turn, step)], Step(o, turn, step, p).events);
    SilentConcat([StepStart(turn, step)] + Step(o, turn, step, p).events, [StepEnd(turn, step)]);
  }

  /** A round whose hooks have no opinion takes in what was pending, all of it and in order; hooks that decide have
      their messages taken in instead, and a round that stops first takes in nothing. */
  lemma RoundHears(o: Options, turn: nat, taken: nat, pending: seq<Message>, p: StepPlan)
    ensures var heard := Heard(EventsOf(RoundOf(o, turn, taken, pending, p)));
            if !LetsIn(o, taken, p) then heard == []
            else if p.pre.answer.value.NoOpinion? then heard == pending
            else heard == p.pre.answer.value.messages
  {
    HooksAreSilent(turn, taken + 1, p.pre.appended, []);
    hide NobodySpeaks, Foreigns, Step, Heard, UserEvents, RoundOf;
    if LetsIn(o, taken, p) {
      RoundLetIn(o, turn, taken, pending, p);
      StepBetweenIsSilent(o, turn, taken + 1, p);
      HeardBetween(Foreigns(p.pre.appended), Entering(p.pre.answer.value, pending),
                   [StepStart(turn, taken + 1)] + Step(o, turn, taken + 1, p).events + [StepEnd(turn, taken + 1)]);
    } else {
      RoundKeptOut(o, turn, taken, pending, p);
      NothingHeard(Foreigns(p.pre.appended));
      HeardNothing();
    }
  }

  lemma HeardNothing()
    ensures Heard([]) == []
  {
  }

  lemma TurnHears(o: Options, w: World, turn: nat, claimed: seq<Message>)
    ensures Heard(Turn(o, w, turn, claimed)) == Heard(TurnFrom(o, w, turn, 0, claimed).events)
  {
    var run := TurnFrom(o, w, turn, 0, claimed);
    var start, end := [TurnStart(turn)], [TurnEnd(turn, run.reason)];
    NothingHeard(start);
    NothingHeard(end);
    hide Heard, TurnFrom;
    HeardConcat(start, run.events);
    HeardConcat(start + run.events, end);
  }

  /** The input of a turn is the first that enters its log, and when the first round lets nothing in the turn takes
      in nothing at all. */
  lemma InputIsHeard(o: Options, w: World, turn: nat, claimed: seq<Message>)
    ensures var p, heard := w(turn, 0), Heard(Turn(o, w, turn, claimed));
            if !LetsIn(o, 0, p) then heard == []
            else if p.pre.answer.value.NoOpinion? then claimed <= heard
            else p.pre.answer.value.messages <= heard
  {
    hide Heard, RoundOf, TurnFrom, Turn;
    TurnHears(o, w, turn, claimed);
    RoundHears(o, turn, 0, claimed, w(turn, 0));
    FirstRound(o, w, turn, claimed);
  }

  lemma FirstRound(o: Options, w: World, turn: nat, claimed: seq<Message>)
    ensures Heard(EventsOf(RoundOf(o, turn, 0, claimed, w(turn, 0)))) <= Heard(TurnFrom(o, w, turn, 0, claimed).events)
    ensures !LetsIn(o, 0, w(turn, 0)) ==>
              TurnFrom(o, w, turn, 0, claimed).events == EventsOf(RoundOf(o, turn, 0, claimed, w(turn, 0)))
  {
    hide Heard, Step;
    var round := RoundOf(o, turn, 0, claimed, w(turn, 0));
    if round.Goes? {
      HeardConcat(round.events, TurnFrom(o, w, turn, 1, round.results).events);
    }
  }

  /** An exception leaves a turn exactly when the turn's end says that it failed. */
  lemma {:induction false} RaisedExactly(o: Options, w: World, turn: nat, taken: nat, pending: seq<Message>)
    ensures var run := TurnFrom(o, w, turn, taken, pending); run.raised <==> run.reason.Failed?
    decreases o.maxSteps - taken
  {
    hide Foreigns, UserEvents;
    var round := RoundOf(o, turn, taken, pending, w(turn, taken));
    StepEndsWell(o, turn, taken + 1, w(turn, taken));
    hide Step;
    if round.Goes? {
      RaisedExactly(o, w, turn, taken + 1, round.results);
    }
  }

  lemma StepEndsWell(o: Options, turn: nat, step: nat, p: StepPlan)
    ensures var outcome := Step(o, turn, step, p).outcome; outcome.Ends? ==> !outcome.reason.Failed?
  {
    hide Foreigns, Before, Assembled, Reply, CallsIn, ResultEvents, ResultMessages;
  }

  // ------------------------------------------------------------- a drain

  /** What others do to the inbox before a round of the drain looks at it, and whether the activity was
      cancelled by then. */
  datatype Arrival = Arrival(ops: seq<I.Op>, aborted: Option<string>)

  predicate HasPending(s: I.State) {
    s.waiting.turn != [] || s.waiting.step != []
  }

  /** What a claim for a new turn takes. */
  function Claimed(s: I.State): seq<Message> {
    s.waiting.step + I.Cut(s.waiting.turn, 0, 1)
  }

  /** The events of a drain, the last turn, the inbox it leaves and the input of each turn it ran. */
  datatype DrainRun = DrainRun(events: seq<RunEvent>, lastTurn: nat, inbox: I.State, inputs: seq<seq<Message>>)

  /** As many rounds of a drain as there are arrivals to watch. */
  ghost function Drain(o: Options, w: World, lastTurn: nat, inbox: I.State, arrivals: seq<Arrival>): DrainRun
    decreases |arrivals|
  {
    if arrivals == [] then DrainRun([], lastTurn, inbox, [])
    else
      var s := I.DoAll(inbox, arrivals[0].ops);
      if !HasPending(s) || arrivals[0].aborted.Some? then DrainRun([], lastTurn, s, [])
      else
        var turn, claimed, after := lastTurn + 1, Claimed(s), I.Do(s, I.Claim(I.NEXT_TURN));
        var events := Turn(o, w, turn, claimed);
        if TurnFrom(o, w, turn, 0, claimed).raised then DrainRun(events, turn, after, [claimed])
        else
          var rest := Drain(o, w, turn, after, arrivals[1..]);
          DrainRun(events + rest.events, rest.lastTurn, rest.inbox, [claimed] + rest.inputs)
  }

  /** The highest turn number a log has started. */
  function LastTurn(log: seq<RunEvent>): nat {
    if log == [] then 0
    else
      var before, e := LastTurn(log[..|log| - 1]), log[|log| - 1];
      if e.TurnStart? && e.turn > before then e.turn else before
  }

  // ------------------------------------------------------------- the loop itself

  class Agent {
    const options: Options
    const inbox: I.Inbox
    var log: seq<RunEvent>
    var lastTurn: nat

    /** An agent over a session's log, new or resumed, counts turns on where the log left off; its inbox starts
        with empty queues. `splices` is the inbox's share of the log. */
    constructor (options: Options, log: seq<RunEvent>, splices: seq<I.Event>, ghost before: I.State)
      requires before.log == splices
      ensures this.options == options && this.log == log && lastTurn == LastTurn(log)
      ensures fresh(inbox) && inbox.Model() == I.Restarted(before)
    {
      var queues := new I.Inbox(splices, before);
      this.options, this.inbox, this.log := options, queues, log;
      var last := 0;
      for i := 0 to |log|
        invariant last == LastTurn(log[..i])
      {
        assert log[..i + 1][..i] == log[..i];
        if log[i].TurnStart? && log[i].turn > last {
          last := log[i].turn;
        }
      }
      assert log[..|log|] == log;
      lastTurn := last;
    }

    /** Whatever hooks append, in the order they append it. */
    method AppendHooked(commands: seq<Hooked>)
      modifies this`log
      ensures log == old(log) + Foreigns(commands)
    {
      for i := 0 to |commands|
        invariant log == old(log) + Foreigns(commands[..i])
      {
        assert Foreigns(commands[..i + 1]) == Foreigns(commands[..i]) + [ForeignEvent(commands[i])];
        log := log + [ForeignEvent(commands[i])];
      }
      assert commands[..|commands|] == commands;
    }

    method AppendUsers(messages: seq<Message>)
      modifies this`log
      ensures log == old(log) + UserEvents(messages)
    {
      for i := 0 to |messages|
        invariant log == old(log) + UserEvents(messages[..i])
      {
        assert UserEvents(messages[..i + 1]) == UserEvents(messages[..i]) + [UserEvent(messages[i])];
        log := log + [UserEvent(messages[i])];
      }
      assert messages[..|messages|] == messages;
    }

    /** Stream one call; every failed attempt a plugin retries starts over with a new assembler. */
    method Stream(turn: nat, step: nat, p: StepPlan) returns (a: Assembler.BlockAssembler)
      modifies this`log
      ensures fresh(a) && a.Model() == Assembler.PushAll(Assembler.EMPTY, p.chunks)
      ensures log == old(log) + RetryEvents(turn, step, p.retries) + ChunkEvents(turn, step, p.chunks) +
                     Foreigns(p.stream.appended)
    {
      hide ChunkEvents, Foreigns, RetryEvents, Assembler.PushAll;
      NothingRetried(turn, step);
      for i := 0 to |p.retries|
        invariant log == old(log) + RetryEvents(turn, step, p.retries[..i])
      {
        RetrySnoc(turn, step, p.retries[..i], p.retries[i]);
        assert p.retries[..i + 1] == p.retries[..i] + [p.retries[i]];
        var failed := Attend(turn, step, p.retries[i].chunks);
        AppendHooked(p.retries[i].appended);
      }
      assert p.retries[..|p.retries|] == p.retries;
      a := Attend(turn, step, p.chunks);
      AppendHooked(p.stream.appended);
    }

    /** Log and assemble every frame of one attempt. */
    method Attend(turn: nat, step: nat, chunks: seq<Chunk>) returns (a: Assembler.BlockAssembler)
      modifies this`log
      ensures fresh(a) && a.Model() == Assembler.PushAll(Assembler.EMPTY, chunks)
      ensures log == old(log) + ChunkEvents(turn, step, chunks)
    {
      hide Assembler.Pushed;
      a := new Assembler.BlockAssembler();
      for i := 0 to |chunks|
        invariant fresh(a) && a.Model() == Assembler.PushAll(Assembler.EMPTY, chunks[..i])
        invariant log == old(log) + ChunkEvents(turn, step, chunks[..i])
      {
        assert chunks[..i + 1] == chunks[..i] + [chunks[i]];
        Assembler.PushSnoc(Assembler.EMPTY, chunks[..i], chunks[i]);
        log := log + [ChunkEvent(turn, step, chunks[i])];
        a.Push(chunks[i]);
      }
      assert chunks[..|chunks|] == chunks;
    }

    /** The call and the result of each of these calls in turn, and the results as messages. */
    method ExecuteToolCalls(turn: nat, step: nat, calls: seq<Block>, outcomes: nat -> Outcome)
      returns (results: seq<Message>)
      requires forall c :: c in calls ==> c.ToolCallBlock?
      modifies this`log
      ensures log == old(log) + ResultEvents(turn, step, calls, outcomes)
      ensures results == ResultMessages(calls, outcomes)
    {
      results := [];
      for i := 0 to |calls|
        invariant log == old(log) + ResultEvents(turn, step, calls[..i], outcomes)
        invariant results == ResultMessages(calls[..i], outcomes)
      {
        assert calls[..i + 1][..i] == calls[..i];
        log := log + [CallEvent(turn, step, calls[i])];
        var m := ResultMessage(calls[i], outcomes(i));
        log := log + [ResultEvent(turn, step, m)];
        results := results + [m];
      }
      assert calls[..|calls|] == calls;
    }

    method RunStep(turn: nat, step: nat, p: StepPlan) returns (outcome: StepOutcome)
      modifies this`log
      ensures var run := Step(options, turn, step, p); log == old(log) + run.events && outcome == run.outcome
      ensures Shows(options, turn, step, p, Step(options, turn, step, p).events, outcome)
    {
      StepShows(options, turn, step, p);
      hide Shows, Assembler.Finalized, Assembler.PushAll, Assembler.Blocks, CallsIn, RetryEvents, ResultEvents,
           ChunkEvents, Foreigns, ResultMessages, Before;
      ghost var began := log;
      AppendHooked(p.request.appended);
      if p.request.answer.Err? {
        return Cut(p.request.answer.error);
      }
      AppendHooked(p.build.appended);
      if p.build.answer.Err? {
        return Cut(p.build.answer.error);
      }
      var a := Stream(turn, step, p);
      BeforeFrom(began, turn, step, p);
      if p.stream.answer.Err? {
        return Cut(p.stream.answer.error);
      }
      a.Finalize();
      if a.finish.ErrorFinish? {
        return Ends(ModelError(a.finish.code));
      }
      var blocks := a.GetBlocks();
      var m := Message(p.messageId, "assistant", blocks,
                       Source("model", "", "", options.provider, options.model, "", None, None));
      log := log + [AssistantEvent(turn, step, m, a.usage)];
      if a.finish.MaxTokens? {
        return Ends(TokensExhausted);
      }
      var calls := CallsIn(blocks);
      if calls == [] {
        return Ends(Completed);
      }
      AppendHooked(p.tools.appended);
      if p.tools.answer.Err? {
        return Cut(p.tools.answer.error);
      }
      var results := ExecuteToolCalls(turn, step, calls, p.tools.answer.value);
      return Continues(results);
    }

    /** What the handlers around a turn make of a cancellation or an exception, and whether it goes on. */
    method Interrupted(how: Fail) returns (reason: Reason, raised: bool)
      ensures reason == ReasonOf(how) && raised == how.Raise?
    {
      match how {
        case Cancel(cause) => return Cancelled(cause), false;
        case Raise(error) => return Failed(error), true;
      }
    }

    /** One round of a turn: no reason means the turn goes on with the results. */
    method RunRound(turn: nat, taken: nat, pending: seq<Message>, p: StepPlan)
      returns (reason: Option<Reason>, raised: bool, results: seq<Message>)
      modifies this`log
      ensures var round := RoundOf(options, turn, taken, pending, p);
              if round.Stops? then
                log == old(log) + round.run.events && reason == Some(round.run.reason) && raised == round.run.raised
              else
                log == old(log) + round.events && reason == None && !raised && results == round.results
    {
      hide Step, Shows, Foreigns, UserEvents;
      reason, raised, results := None, false, [];
      if p.abortedBefore.Some? {
        return Some(Cancelled(p.abortedBefore.value)), false, [];
      }
      if taken >= options.maxSteps {
        return Some(StepsExhausted), false, [];
      }
      AppendHooked(p.pre.appended);
      if p.pre.answer.Err? {
        var why, out := Interrupted(p.pre.answer.error);
        return Some(why), out, [];
      }
      if p.pre.answer.value.Reject? {
        return Some(Blocked), false, [];
      }
      if p.pre.answer.value.Enter? {
        AppendUsers(p.pre.answer.value.messages);
      } else {
        AppendUsers(pending);
      }
      log := log + [StepStart(turn, taken + 1)];
      var outcome := RunStep(turn, taken + 1, p);
      log := log + [StepEnd(turn, taken + 1)];
      if outcome.Cut? {
        var why, out := Interrupted(outcome.how);
        return Some(why), out, [];
      }
      if p.abortedAfter.Some? {
        return Some(Cancelled(p.abortedAfter.value)), false, [];
      }
      if outcome.Ends? {
        return Some(outcome.reason), false, [];
      }
      return None, false, outcome.results;
    }

    /** The log grows by exactly the events of the turn, its end included however its rounds stop. */
    method RunTurn(turn: nat, claimed: seq<Message>, w: World) returns (raised: bool)
      modifies this`log
      ensures log == old(log) + Turn(options, w, turn, claimed)
      ensures raised == TurnFrom(options, w, turn, 0, claimed).raised
    {
      hide Step, RoundOf;
      log := log + [TurnStart(turn)];
      var taken: nat, pending, reason := 0, claimed, None;
      raised := false;
      ghost var start := log;
      ghost var whole := TurnFrom(options, w, turn, 0, claimed);
      while reason.None?
        invariant reason.None? ==> !raised && AsPlanned(start, log, TurnFrom(options, w, turn, taken, pending), whole)
        invariant reason.Some? ==> log == start + whole.events && reason.value == whole.reason && raised == whole.raised
        decreases reason.None?, options.maxSteps - taken
      {
        ghost var round := RoundOf(options, turn, taken, pending, w(turn, taken));
        reason, raised, pending := RunRound(turn, taken, pending, w(turn, taken));
        taken := taken + 1;
      }
      log := log + [TurnEnd(turn, reason.value)];
    }

    /** The inbox as others change it while the agent is not looking. */
    method Receive(ops: seq<I.Op>)
      modifies inbox
      ensures inbox.Model() == I.DoAll(old(inbox.Model()), ops)
    {
      hide I.Do;
      for i := 0 to |ops|
        invariant inbox.Model() == I.DoAll(old(inbox.Model()), ops[..i])
      {
        assert ops[..i + 1][..i] == ops[..i];
        match ops[i] {
          case Append(target, message) => var _ := inbox.Append(target, message);
          case Prepend(target, message) => var _ := inbox.Prepend(target, message);
          case Claim(target) => var _ := inbox.Claim(target);
          case Remove(id) => var _ := inbox.Remove(id);
          case Clear => inbox.Clear();
          case Foreign => inbox.LogOther();
        }
      }
      assert ops[..|ops|] == ops;
    }

    /** The log, the inbox and the turn count end as those of the specified drain. */
    method DrainInbox(arrivals: seq<Arrival>, w: World)
      modifies this, inbox
      ensures var run := Drain(options, w, old(lastTurn), old(inbox.Model()), arrivals);
              log == old(log) + run.events && lastTurn == run.lastTurn && inbox.Model() == run.inbox
    {
      hide TurnFrom, Turn, I.Do, I.DoAll;
      var i := 0;
      ghost var whole := Drain(options, w, lastTurn, inbox.Model(), arrivals);
      assert arrivals[0..] == arrivals;
      while i < |arrivals|
        invariant i <= |arrivals|
        invariant var rest := Drain(options, w, lastTurn, inbox.Model(), arrivals[i..]);
                  log + rest.events == old(log) + whole.events && rest.lastTurn == whole.lastTurn
                  && rest.inbox == whole.inbox
      {
        assert arrivals[i..][1..] == arrivals[i + 1..];
        Receive(arrivals[i].ops);
        if (inbox.turn == [] && inbox.step == []) || arrivals[i].aborted.Some? {
          return;
        }
        ghost var s := inbox.Model();
        var claimed := inbox.Claim(I.NEXT_TURN);
        assert claimed == Claimed(s);
        if claimed == [] {
          assert false;
        }
        lastTurn := lastTurn + 1;
        var raised := RunTurn(lastTurn, claimed, w);
        if raised {
          return;
        }
        i := i + 1;
      }
    }
  }

  /** Part of a turn is on the log; what is left of the plan completes the whole. */
  ghost predicate AsPlanned(start: seq<RunEvent>, log: seq<RunEvent>, rest: TurnRun, whole: TurnRun) {
    log + rest.events == start + whole.events && rest.reason == whole.reason && rest.raised == whole.raised
  }
}
