/** One agent process after another over the same session (agent/agent.py, agent/registry.py). */
module AgentLives {
  import opened Prelude
  import opened Messages
  import opened AgentRuns
  import opened RunGrammar
  import S = Sessions
  import P = Pairing
  import I = Inboxes

  /** How a process was killed: after others had done `ops` to the inbox and, when it claims, after the claim of
      one more turn, of whose events the first `kept` reached the log. `later` is what others did to the inbox
      while that turn ran. */
  datatype Kill = Kill(ops: seq<I.Op>, claims: bool, kept: nat, later: seq<I.Op>)

  /** What one process drains, and whether it was killed then. */
  datatype Life = Life(world: World, arrivals: seq<Arrival>, kill: Option<Kill>)

  /** How a process that takes over finds its queues: empty, as the code builds them, or rebuilt from the log,
      as `Replay` is there for. */
  datatype Resume = WithEmptyQueues | ThroughReplay

  function Resumed(how: Resume, s: I.State): I.State {
    if how.WithEmptyQueues? then I.Restarted(s) else I.Recovered(s)
  }

  /** The last round of a process that was killed in it. Its input counts once its turn has started. */
  ghost function KilledRound(o: Options, w: World, lastTurn: nat, inbox: I.State, kill: Kill): DrainRun {
    var s := I.DoAll(inbox, kill.ops);
    if !kill.claims || !HasPending(s) then DrainRun([], lastTurn, s, [])
    else
      var after := I.DoAll(I.Do(s, I.Claim(I.NEXT_TURN)), kill.later);
      if kill.kept == 0 then DrainRun([], lastTurn, after, [])
      else
        var events := Turn(o, w, lastTurn + 1, Claimed(s));
        DrainRun(if kill.kept <= |events| then events[..kill.kept] else events, lastTurn + 1, after, [Claimed(s)])
  }

  /** The whole of a process, over the queues and the turn count it starts with. */
  ghost function Process(o: Options, life: Life, lastTurn: nat, inbox: I.State): DrainRun {
    var run := Drain(o, life.world, lastTurn, inbox, life.arrivals);
    if life.kill.None? then run
    else
      var end := KilledRound(o, life.world, run.lastTurn, run.inbox, life.kill.value);
      DrainRun(run.events + end.events, end.lastTurn, end.inbox, run.inputs + end.inputs)
  }

  datatype History = History(log: seq<RunEvent>, inbox: I.State, inputs: seq<seq<Message>>)

  /** Every process counts turns on from the log it finds. */
  ghost function Lived(how: Resume, o: Options, lives: seq<Life>): History {
    if lives == [] then History([], I.START, [])
    else
      var before := Lived(how, o, lives[..|lives| - 1]);
      var run := Process(o, lives[|lives| - 1], LastTurn(before.log), Resumed(how, before.inbox));
      History(before.log + run.events, run.inbox, before.inputs + run.inputs)
  }

  ghost function LastProcess(how: Resume, o: Options, lives: seq<Life>): DrainRun
    requires lives != []
  {
    var before := Lived(how, o, lives[..|lives| - 1]);
    Process(o, lives[|lives| - 1], LastTurn(before.log), Resumed(how, before.inbox))
  }

  ghost function LogOf(how: Resume, o: Options, lives: seq<Life>): seq<RunEvent> {
    Lived(how, o, lives).log
  }

  ghost predicate NoneKilled(lives: seq<Life>) {
    forall l :: 0 <= l < |lives| ==> lives[l].kill.None?
  }

  // ------------------------------------------------------------------ the log

  lemma NoTurnsYet()
    ensures LastTurn([]) == START.turns && StartedTurns([]) == UpTo(START.turns)
  {
  }

  lemma TurnsOf(maxSteps: int, es: seq<RunEvent>)
    requires After(maxSteps, START, es).Some?
    ensures LastTurn(es) == After(maxSteps, START, es).value.turns
  {
    NoTurnsYet();
    TurnsAreCounted(maxSteps, START, [], es);
    assert [] + es == es;
  }

  /** While no process is killed, every log obeys the grammar and rests between turns. */
  lemma {:induction false} EveryLogIsWellFormed(how: Resume, o: Options, lives: seq<Life>)
    requires NoneKilled(lives)
    ensures var es := LogOf(how, o, lives); Resting(o.maxSteps, START, es, LastTurn(es))
  {
    hide Next, Drain, LastTurn, Resumed;
    if lives == [] {
      AfterNothing(o.maxSteps, START);
      TurnsOf(o.maxSteps, []);
    } else {
      var before, life := Lived(how, o, lives[..|lives| - 1]), lives[|lives| - 1];
      EveryLogIsWellFormed(how, o, lives[..|lives| - 1]);
      var g: Grammar :| After(o.maxSteps, START, before.log) == Some(g) && g.turns == LastTurn(before.log) &&
                         g.phase.Idle?;
      var queues := Resumed(how, before.inbox);
      var run := Drain(o, life.world, g.turns, queues, life.arrivals);
      DrainIsWellFormed(o, life.world, g, queues, life.arrivals);
      RestingVia(o.maxSteps, START, g, before.log, run.events, run.lastTurn);
      TurnsOf(o.maxSteps, LogOf(how, o, lives));
    }
  }

  lemma {:induction false} PrefixesWeigh(maxSteps: int, es: seq<RunEvent>)
    requires After(maxSteps, START, es).Some?
    ensures forall n :: 0 <= n <= |es| ==> TotalWeight(es[..n]) >= 0
  {
    forall n | 0 <= n <= |es|
      ensures TotalWeight(es[..n]) >= 0
    {
      PrefixObeys(maxSteps, START, es, n);
      OutstandingIsUnanswered(maxSteps, START, es[..n]);
    }
  }

  /** No agent's log ever makes the surface look corrupt, hooks that compact and prune included, and at rest the
      number of outstanding calls is exactly the number in messages whose step ended without running them. */
  lemma AgentLogsNeverCorrupt(how: Resume, o: Options, lives: seq<Life>)
    requires NoneKilled(lives) && HooksSafe(LogOf(how, o, lives))
    ensures var es := LogOf(how, o, lives);
            var s := S.Run(S.EMPTY, Commands(es));
            && S.WellFormed(s) && P.NonNegative(P.StateDeltas(s))
            && (forall r :: P.IsFresh(s, r) ==> r.Ok?)
            && After(o.maxSteps, START, es).Some?
            && Sum(P.StateDeltas(s)) == After(o.maxSteps, START, es).value.owed
  {
    hide LogOf, Next, HooksSafe, After, LastTurn, TotalWeight, OwedNow, S.WellFormed, P.NonNegative, P.StateDeltas,
         P.IsFresh, P.AllSafe, Commands, S.Run;
    var es := LogOf(how, o, lives);
    EveryLogIsWellFormed(how, o, lives);
    PrefixesWeigh(o.maxSteps, es);
    SurfaceWeighsTheLog(es);
    OutstandingIsUnanswered(o.maxSteps, START, es);
    AtRestOwes(START);
    AtRestOwes(After(o.maxSteps, START, es).value);
    P.NeverCorrupt(Commands(es));
  }

  lemma AtRestOwes(g: Grammar)
    requires g.phase.Idle?
    ensures OwedNow(g) == g.owed
  {
  }

  // ------------------------------------------------------------------ what becomes of a message

  /** How often a message is part of a turn's input. */
  function Handled(inputs: seq<seq<Message>>, m: Message): nat {
    if inputs == [] then 0 else Handled(inputs[..|inputs| - 1], m) + I.Times(inputs[|inputs| - 1], m)
  }

  lemma {:induction false} HandledConcat(a: seq<seq<Message>>, b: seq<seq<Message>>, m: Message)
    ensures Handled(a + b, m) == Handled(a, m) + Handled(b, m)
  {
    if b == [] {
      assert a + b == a;
    } else {
      assert (a + b)[..|a + b| - 1] == a + b[..|b| - 1];
      HandledConcat(a, b[..|b| - 1], m);
    }
  }

  /** Others deliver, cancel and clear, but claiming is the agent's. */
  predicate LeavesClaiming(ops: seq<I.Op>) {
    forall op :: op in ops ==> !op.Claim?
  }

  predicate OthersDoNotClaim(life: Life) {
    && (forall i :: 0 <= i < |life.arrivals| ==> LeavesClaiming(life.arrivals[i].ops))
    && (life.kill.Some? ==> LeavesClaiming(life.kill.value.ops) && LeavesClaiming(life.kill.value.later))
  }

  ghost predicate AgentClaims(lives: seq<Life>) {
    forall l :: 0 <= l < |lives| ==> OthersDoNotClaim(lives[l])
  }

  function TimesClaimed(s: I.State, m: Message): nat {
    I.Times(s.claimed.turn, m) + I.Times(s.claimed.step, m)
  }

  lemma {:induction false} OthersClaimNothing(s: I.State, ops: seq<I.Op>)
    requires LeavesClaiming(ops)
    ensures I.DoAll(s, ops).claimed == s.claimed
  {
    if ops != [] {
      var op := ops[|ops| - 1];
      assert op in ops;
      OthersClaimNothing(s, ops[..|ops| - 1]);
      hide I.DoAll, I.Splice, I.EncodeAll, I.Find;
    }
  }

  lemma ClaimCounts(s: I.State, m: Message)
    ensures TimesClaimed(I.Do(s, I.Claim(I.NEXT_TURN)), m) == TimesClaimed(s, m) + I.Times(Claimed(s), m)
  {
    hide I.Splice, I.EncodeAll, I.Cut, I.Times;
    I.TimesConcat(s.claimed.step, s.waiting.step, m);
    I.TimesConcat(s.claimed.turn, I.Cut(s.waiting.turn, 0, 1), m);
    I.TimesConcat(s.waiting.step, I.Cut(s.waiting.turn, 0, 1), m);
  }

  /** What a drain claims it hands to turns, and what it does to the inbox loses no message. */
  lemma {:induction false} DrainAccounts(
    o: Options, w: World, lastTurn: nat, inbox: I.State, arrivals: seq<Arrival>, m: Message)
    requires forall i :: 0 <= i < |arrivals| ==> LeavesClaiming(arrivals[i].ops)
    ensures var run := Drain(o, w, lastTurn, inbox, arrivals);
            && TimesClaimed(run.inbox, m) == TimesClaimed(inbox, m) + Handled(run.inputs, m)
            && I.Times(run.inbox.delivered, m) - I.Tally(run.inbox, m) ==
               I.Times(inbox.delivered, m) - I.Tally(inbox, m)
    decreases |arrivals|
  {
    hide Turn, TurnFrom, I.DoAll, Claimed, I.Do, I.Times, I.Tally;
    if arrivals != [] {
      var s := I.DoAll(inbox, arrivals[0].ops);
      OthersClaimNothing(inbox, arrivals[0].ops);
      I.RunConserves(inbox, arrivals[0].ops, m);
      if HasPending(s) && arrivals[0].aborted.None? {
        var turn, claimed, after := lastTurn + 1, Claimed(s), I.Do(s, I.Claim(I.NEXT_TURN));
        ClaimCounts(s, m);
        I.DoConserves(s, I.Claim(I.NEXT_TURN), m);
        OneInput(claimed, m);
        if !TurnFrom(o, w, turn, 0, claimed).raised {
          DrainAccounts(o, w, turn, after, arrivals[1..], m);
          HandledConcat([claimed], Drain(o, w, turn, after, arrivals[1..]).inputs, m);
        }
      }
    }
  }

  lemma OneInput(claimed: seq<Message>, m: Message)
    ensures Handled([claimed], m) == I.Times(claimed, m)
  {
    assert [claimed][..0] == [];
  }

  lemma {:induction false} DrainReplays(o: Options, w: World, lastTurn: nat, inbox: I.State, arrivals: seq<Arrival>)
    requires I.Faithfully(inbox)
    ensures I.Faithfully(Drain(o, w, lastTurn, inbox, arrivals).inbox)
    decreases |arrivals|
  {
    hide Turn, TurnFrom, I.DoAll, Claimed, I.Do;
    if arrivals != [] {
      var s := I.DoAll(inbox, arrivals[0].ops);
      I.ReplayIsLive(inbox, arrivals[0].ops);
      if HasPending(s) && arrivals[0].aborted.None? {
        var turn, claimed, after := lastTurn + 1, Claimed(s), I.Do(s, I.Claim(I.NEXT_TURN));
        I.DoIsFaithful(s, I.Claim(I.NEXT_TURN));
        if !TurnFrom(o, w, turn, 0, claimed).raised {
          DrainReplays(o, w, turn, after, arrivals[1..]);
        }
      }
    }
  }

  /** Nothing was claimed by the killed round without its turn being started. */
  predicate Started(s: I.State, kill: Kill) {
    kill.claims && HasPending(I.DoAll(s, kill.ops)) ==> kill.kept > 0
  }

  /** How often a message was claimed by a process that was killed before it started the turn. */
  ghost function StrandedIn(s: I.State, kill: Kill, m: Message): nat {
    if Started(s, kill) then 0 else I.Times(Claimed(I.DoAll(s, kill.ops)), m)
  }

  lemma KilledRoundAccounts(o: Options, w: World, lastTurn: nat, inbox: I.State, kill: Kill, m: Message)
    requires LeavesClaiming(kill.ops) && LeavesClaiming(kill.later)
    ensures var run := KilledRound(o, w, lastTurn, inbox, kill);
            && TimesClaimed(run.inbox, m) ==
               TimesClaimed(inbox, m) + Handled(run.inputs, m) + StrandedIn(inbox, kill, m)
            && I.Times(run.inbox.delivered, m) - I.Tally(run.inbox, m) ==
               I.Times(inbox.delivered, m) - I.Tally(inbox, m)
  {
    hide Turn, TurnFrom, I.DoAll, Claimed, I.Do, I.Times, I.Tally;
    var s := I.DoAll(inbox, kill.ops);
    OthersClaimNothing(inbox, kill.ops);
    I.RunConserves(inbox, kill.ops, m);
    NoInput(m);
    if kill.claims && HasPending(s) {
      var after := I.Do(s, I.Claim(I.NEXT_TURN));
      ClaimCounts(s, m);
      I.DoConserves(s, I.Claim(I.NEXT_TURN), m);
      OthersClaimNothing(after, kill.later);
      I.RunConserves(after, kill.later, m);
      OneInput(Claimed(s), m);
    }
  }

  lemma NoInput(m: Message)
    ensures Handled([], m) == 0
  {
  }

  lemma KilledRoundReplays(o: Options, w: World, lastTurn: nat, inbox: I.State, kill: Kill)
    requires I.Faithfully(inbox)
    ensures I.Faithfully(KilledRound(o, w, lastTurn, inbox, kill).inbox)
  {
    hide Turn, TurnFrom, I.DoAll, Claimed, I.Do;
    var s := I.DoAll(inbox, kill.ops);
    I.ReplayIsLive(inbox, kill.ops);
    if kill.claims && HasPending(s) {
      I.DoIsFaithful(s, I.Claim(I.NEXT_TURN));
      I.ReplayIsLive(I.Do(s, I.Claim(I.NEXT_TURN)), kill.later);
    }
  }

  /** What was stranded when a process was killed. */
  ghost function StrandedBy(o: Options, life: Life, lastTurn: nat, inbox: I.State, m: Message): nat {
    if life.kill.None? then 0
    else StrandedIn(Drain(o, life.world, lastTurn, inbox, life.arrivals).inbox, life.kill.value, m)
  }

  lemma ProcessAccounts(o: Options, life: Life, lastTurn: nat, inbox: I.State, m: Message)
    requires OthersDoNotClaim(life)
    ensures var run := Process(o, life, lastTurn, inbox);
            && TimesClaimed(run.inbox, m) ==
               TimesClaimed(inbox, m) + Handled(run.inputs, m) + StrandedBy(o, life, lastTurn, inbox, m)
            && I.Times(run.inbox.delivered, m) - I.Tally(run.inbox, m) ==
               I.Times(inbox.delivered, m) - I.Tally(inbox, m)
  {
    hide Drain, KilledRound, I.Times, I.Tally, TimesClaimed, StrandedIn;
    DrainAccounts(o, life.world, lastTurn, inbox, life.arrivals, m);
    if life.kill.Some? {
      var run := Drain(o, life.world, lastTurn, inbox, life.arrivals);
      KilledRoundAccounts(o, life.world, run.lastTurn, run.inbox, life.kill.value, m);
      var end := KilledRound(o, life.world, run.lastTurn, run.inbox, life.kill.value);
      HandledConcat(run.inputs, end.inputs, m);
    }
  }

  lemma ProcessReplays(o: Options, life: Life, lastTurn: nat, inbox: I.State)
    requires I.Faithfully(inbox)
    ensures I.Faithfully(Process(o, life, lastTurn, inbox).inbox)
  {
    hide Drain, KilledRound, I.Faithfully;
    DrainReplays(o, life.world, lastTurn, inbox, life.arrivals);
    if life.kill.Some? {
      var run := Drain(o, life.world, lastTurn, inbox, life.arrivals);
      KilledRoundReplays(o, life.world, run.lastTurn, run.inbox, life.kill.value);
    }
  }

  /** How often a message was waiting when a process ended and the next one started with empty queues. */
  ghost function Forgotten(how: Resume, o: Options, lives: seq<Life>, m: Message): nat {
    if lives == [] then 0
    else
      var before := lives[..|lives| - 1];
      Forgotten(how, o, before, m) +
      (if how.WithEmptyQueues? then I.Waiting(Lived(how, o, before).inbox, m) else 0)
  }

  /** How often a message was claimed by a process that was killed before it started the turn. */
  ghost function Stranded(how: Resume, o: Options, lives: seq<Life>, m: Message): nat {
    if lives == [] then 0
    else
      var before := Lived(how, o, lives[..|lives| - 1]);
      Stranded(how, o, lives[..|lives| - 1], m) +
      StrandedBy(o, lives[|lives| - 1], LastTurn(before.log), Resumed(how, before.inbox), m)
  }

  lemma StartAccounts(m: Message)
    ensures I.Tally(I.START, m) == 0 && I.Times(I.START.delivered, m) == 0 && TimesClaimed(I.START, m) == 0
  {
  }

  lemma {:induction false} LivesReplay(o: Options, lives: seq<Life>)
    ensures I.Faithfully(Lived(ThroughReplay, o, lives).inbox)
  {
    if lives != [] {
      hide Process, I.Faithfully, I.Recovered;
      var before := Lived(ThroughReplay, o, lives[..|lives| - 1]);
      LivesReplay(o, lives[..|lives| - 1]);
      I.RecoveryIsLive(before.inbox);
      ProcessReplays(o, lives[|lives| - 1], LastTurn(before.log), Resumed(ThroughReplay, before.inbox));
    }
  }

  lemma ResumedAccounts(how: Resume, s: I.State, m: Message)
    requires how.ThroughReplay? ==> I.Faithfully(s)
    ensures var s' := Resumed(how, s);
            && s'.delivered == s.delivered && s'.claimed == s.claimed
            && I.Tally(s', m) == I.Tally(s, m) - (if how.WithEmptyQueues? then I.Waiting(s, m) else 0)
  {
    I.RestartForgets(s, m);
    if how.ThroughReplay? {
      I.RecoveryIsLive(s);
    }
  }

  lemma {:induction false} LivesAccount(how: Resume, o: Options, lives: seq<Life>, m: Message)
    requires AgentClaims(lives)
    ensures var end := Lived(how, o, lives);
            && TimesClaimed(end.inbox, m) == Handled(end.inputs, m) + Stranded(how, o, lives, m)
            && I.Times(end.inbox.delivered, m) == I.Tally(end.inbox, m) + Forgotten(how, o, lives, m)
  {
    if lives == [] {
      StartAccounts(m);
    } else {
      hide Process, StrandedBy, I.Times, I.Tally, I.Waiting, Resumed, I.Faithfully, OthersDoNotClaim;
      var before, life := Lived(how, o, lives[..|lives| - 1]), lives[|lives| - 1];
      LivesAccount(how, o, lives[..|lives| - 1], m);
      if how.ThroughReplay? {
        LivesReplay(o, lives[..|lives| - 1]);
      }
      ResumedAccounts(how, before.inbox, m);
      var queues := Resumed(how, before.inbox);
      ProcessAccounts(o, life, LastTurn(before.log), queues, m);
      HandledConcat(before.inputs, Process(o, life, LastTurn(before.log), queues).inputs, m);
    }
  }

  /** Whatever fails and wherever processes are killed, a delivered message is waiting, dropped, part of the input
      of a turn, was forgotten by a process that took over, or was stranded by one that was killed between its
      claim and its turn, together as often as it was delivered. */
  lemma EveryMessageIsAccounted(how: Resume, o: Options, lives: seq<Life>, m: Message)
    requires AgentClaims(lives)
    ensures var end := Lived(how, o, lives);
            I.Times(end.inbox.delivered, m) ==
            I.Waiting(end.inbox, m) + I.Times(end.inbox.dropped, m) + Handled(end.inputs, m) +
            Forgotten(how, o, lives, m) + Stranded(how, o, lives, m)
  {
    hide Lived, I.Times, Handled, Forgotten, Stranded;
    LivesAccount(how, o, lives, m);
  }

  /** Nothing delivered is lost or handled twice. */
  ghost predicate HandledOnce(end: History, m: Message) {
    I.Times(end.inbox.delivered, m) ==
    I.Waiting(end.inbox, m) + I.Times(end.inbox.dropped, m) + Handled(end.inputs, m)
  }

  /** Every process but the last ended with nothing waiting. */
  ghost predicate EndedEmpty(o: Options, lives: seq<Life>) {
    lives == [] ||
    (EndedEmpty(o, lives[..|lives| - 1]) &&
     Lived(WithEmptyQueues, o, lives[..|lives| - 1]).inbox.waiting == I.NOTHING)
  }

  /** A process started every turn it claimed for. */
  ghost predicate StartsItsTurns(o: Options, life: Life, lastTurn: nat, inbox: I.State) {
    life.kill.Some? ==> Started(Drain(o, life.world, lastTurn, inbox, life.arrivals).inbox, life.kill.value)
  }

  /** No process was killed between a claim and the start of its turn. */
  ghost predicate ClaimsStarted(how: Resume, o: Options, lives: seq<Life>) {
    lives == [] ||
    var before := Lived(how, o, lives[..|lives| - 1]);
    && ClaimsStarted(how, o, lives[..|lives| - 1])
    && StartsItsTurns(o, lives[|lives| - 1], LastTurn(before.log), Resumed(how, before.inbox))
  }

  lemma {:induction false} NothingForgotten(o: Options, lives: seq<Life>, m: Message)
    requires EndedEmpty(o, lives)
    ensures Forgotten(WithEmptyQueues, o, lives, m) == 0
  {
    if lives != [] {
      hide Lived, I.Waiting;
      NothingForgotten(o, lives[..|lives| - 1], m);
      NothingWaits(Lived(WithEmptyQueues, o, lives[..|lives| - 1]).inbox);
    }
  }

  lemma {:induction false} SomethingForgotten(o: Options, lives: seq<Life>) returns (m: Message)
    requires !EndedEmpty(o, lives)
    ensures Forgotten(WithEmptyQueues, o, lives, m) > 0
  {
    hide Lived, I.Waiting;
    var before := lives[..|lives| - 1];
    if EndedEmpty(o, before) {
      m := I.SomethingWaits(Lived(WithEmptyQueues, o, before).inbox);
    } else {
      m := SomethingForgotten(o, before);
    }
  }

  lemma NothingWaits(s: I.State)
    requires s.waiting == I.NOTHING
    ensures forall m :: I.Waiting(s, m) == 0
  {
  }

  lemma {:induction false} NothingStranded(how: Resume, o: Options, lives: seq<Life>, m: Message)
    requires ClaimsStarted(how, o, lives)
    ensures Stranded(how, o, lives, m) == 0
  {
    if lives != [] {
      hide Lived, Drain, Started, LastTurn, Resumed;
      NothingStranded(how, o, lives[..|lives| - 1], m);
    }
  }

  lemma {:induction false} SomethingStranded(how: Resume, o: Options, lives: seq<Life>) returns (m: Message)
    requires !ClaimsStarted(how, o, lives)
    ensures Stranded(how, o, lives, m) > 0
  {
    hide Lived, Drain, Started, StrandedIn, LastTurn, Resumed;
    var before, life := Lived(how, o, lives[..|lives| - 1]), lives[|lives| - 1];
    if ClaimsStarted(how, o, lives[..|lives| - 1]) {
      var run := Drain(o, life.world, LastTurn(before.log), Resumed(how, before.inbox), life.arrivals);
      m := ClaimedButNotStarted(run.inbox, life.kill.value);
    } else {
      m := SomethingStranded(how, o, lives[..|lives| - 1]);
    }
  }

  lemma ClaimedButNotStarted(s: I.State, kill: Kill) returns (m: Message)
    requires !Started(s, kill)
    ensures StrandedIn(s, kill, m) > 0
  {
    hide I.DoAll;
    var claimed := Claimed(I.DoAll(s, kill.ops));
    m := claimed[0];
    assert m in claimed;
  }

  /** With the queues the code gives a resumed agent, no message is ever lost or handled twice if and only if
      every process that was followed by another ended with nothing waiting and none was killed between a claim
      and the start of its turn. */
  lemma HandledOnceExactly(o: Options, lives: seq<Life>)
    requires AgentClaims(lives)
    ensures (forall m :: HandledOnce(Lived(WithEmptyQueues, o, lives), m)) <==>
            EndedEmpty(o, lives) && ClaimsStarted(WithEmptyQueues, o, lives)
  {
    hide Lived, Handled, Forgotten, Stranded, I.Times, I.Waiting, EndedEmpty, ClaimsStarted, AgentClaims;
    if EndedEmpty(o, lives) && ClaimsStarted(WithEmptyQueues, o, lives) {
      forall m
        ensures HandledOnce(Lived(WithEmptyQueues, o, lives), m)
      {
        NothingForgotten(o, lives, m);
        NothingStranded(WithEmptyQueues, o, lives, m);
        EveryMessageIsAccounted(WithEmptyQueues, o, lives, m);
      }
    } else {
      var m;
      if EndedEmpty(o, lives) {
        m := SomethingStranded(WithEmptyQueues, o, lives);
      } else {
        m := SomethingForgotten(o, lives);
      }
      EveryMessageIsAccounted(WithEmptyQueues, o, lives, m);
      assert !HandledOnce(Lived(WithEmptyQueues, o, lives), m);
    }
  }

  /** While processes end with nothing waiting, the log of every process also replays to its live queues. */
  lemma {:induction false} EmptyHandoverReplays(o: Options, lives: seq<Life>)
    requires EndedEmpty(o, lives)
    ensures I.Faithfully(Lived(WithEmptyQueues, o, lives).inbox)
  {
    if lives != [] {
      hide Process, I.Faithfully;
      var before := Lived(WithEmptyQueues, o, lives[..|lives| - 1]);
      EmptyHandoverReplays(o, lives[..|lives| - 1]);
      assert Resumed(WithEmptyQueues, before.inbox) == before.inbox;
      ProcessReplays(o, lives[|lives| - 1], LastTurn(before.log), before.inbox);
    }
  }

  /** Resuming through the replay instead, the log always replays to the live queues, however each process ended,
      and nothing is lost or handled twice if and only if none was killed between a claim and the start of its
      turn. */
  lemma ReplayedHandover(o: Options, lives: seq<Life>)
    requires AgentClaims(lives)
    ensures var end := Lived(ThroughReplay, o, lives); I.Replayed(end.inbox.log) == Some(end.inbox.waiting)
    ensures (forall m :: HandledOnce(Lived(ThroughReplay, o, lives), m)) <==> ClaimsStarted(ThroughReplay, o, lives)
  {
    hide Lived, Handled, Stranded, I.Times, I.Waiting, ClaimsStarted, AgentClaims;
    LivesReplay(o, lives);
    if ClaimsStarted(ThroughReplay, o, lives) {
      forall m
        ensures HandledOnce(Lived(ThroughReplay, o, lives), m)
      {
        NothingStranded(ThroughReplay, o, lives, m);
        ReplayForgetsNothing(o, lives, m);
        EveryMessageIsAccounted(ThroughReplay, o, lives, m);
      }
    } else {
      var m := SomethingStranded(ThroughReplay, o, lives);
      ReplayForgetsNothing(o, lives, m);
      EveryMessageIsAccounted(ThroughReplay, o, lives, m);
      assert !HandledOnce(Lived(ThroughReplay, o, lives), m);
    }
  }

  lemma {:induction false} ReplayForgetsNothing(o: Options, lives: seq<Life>, m: Message)
    ensures Forgotten(ThroughReplay, o, lives, m) == 0
  {
    if lives != [] {
      ReplayForgetsNothing(o, lives[..|lives| - 1], m);
    }
  }

  /** One message delivered and claimed, and the process killed before the turn started: nothing is on the log, and
      the message is in no queue, in no turn and not dropped. */
  lemma KillStrandsAMessage(how: Resume, o: Options, w: World, m: Message)
    ensures var end := Lived(how, o, [StrandingLife(w, m)]);
            && end.log == [] && end.inputs == [] && end.inbox.delivered == [m]
            && end.inbox.waiting == I.NOTHING && end.inbox.dropped == [] && !HandledOnce(end, m)
  {
    var none: seq<Life> := [];
    assert [StrandingLife(w, m)][..0] == none;
    assert Resumed(how, I.START) == I.START;
    ClaimedAtOnce(m);
    var s := I.Do(I.DoAll(I.START, [I.Append(I.NEXT_TURN, m)]), I.Claim(I.NEXT_TURN));
    assert I.DoAll(s, []) == s;
  }

  function StrandingLife(w: World, m: Message): Life {
    Life(w, [], Some(Kill([I.Append(I.NEXT_TURN, m)], true, 0, [])))
  }

  lemma ClaimedAtOnce(m: Message)
    ensures var s := I.DoAll(I.START, [I.Append(I.NEXT_TURN, m)]);
            && HasPending(s)
            && var s' := I.Do(s, I.Claim(I.NEXT_TURN));
               s'.delivered == [m] && s'.waiting == I.NOTHING && s'.dropped == []
  {
    hide I.EncodeAll;
    var op := I.Append(I.NEXT_TURN, m);
    assert [op][..0] == [];
    assert I.DoAll(I.START, [op]) == I.Do(I.DoAll(I.START, []), op);
    assert I.Do(I.START, op).waiting == I.Queues([m], []);
  }

  // ------------------------------------------------------------------ from the account to the log

  /** Nothing keeps a turn's input out and no hook puts other messages in its place. */
  ghost predicate Unhindered(o: Options, w: World) {
    forall turn: nat :: LetsIn(o, 0, w(turn, 0)) && w(turn, 0).pre.answer.value.NoOpinion?
  }

  lemma PrefixCounts(a: seq<Message>, b: seq<Message>, m: Message)
    requires a <= b
    ensures I.Times(a, m) <= I.Times(b, m)
  {
    assert b == a + b[|a|..];
    I.TimesConcat(a, b[|a|..], m);
  }

  lemma HeardCounts(a: seq<RunEvent>, b: seq<RunEvent>, m: Message)
    ensures I.Times(Heard(a + b), m) == I.Times(Heard(a), m) + I.Times(Heard(b), m)
  {
    HeardConcat(a, b);
    I.TimesConcat(Heard(a), Heard(b), m);
  }

  lemma {:induction false} DrainIsHeard(
    o: Options, w: World, lastTurn: nat, inbox: I.State, arrivals: seq<Arrival>, m: Message)
    requires Unhindered(o, w)
    ensures var run := Drain(o, w, lastTurn, inbox, arrivals); Handled(run.inputs, m) <= I.Times(Heard(run.events), m)
    decreases |arrivals|
  {
    hide Turn, TurnFrom, I.DoAll, Claimed, I.Do, I.Times, Heard, Handled, LetsIn;
    NoInput(m);
    if arrivals != [] {
      var s := I.DoAll(inbox, arrivals[0].ops);
      if HasPending(s) && arrivals[0].aborted.None? {
        var turn, claimed, after := lastTurn + 1, Claimed(s), I.Do(s, I.Claim(I.NEXT_TURN));
        assert LetsIn(o, 0, w(turn, 0));
        InputIsHeard(o, w, turn, claimed);
        PrefixCounts(claimed, Heard(Turn(o, w, turn, claimed)), m);
        OneInput(claimed, m);
        if !TurnFrom(o, w, turn, 0, claimed).raised {
          var rest := Drain(o, w, turn, after, arrivals[1..]);
          DrainIsHeard(o, w, turn, after, arrivals[1..], m);
          HandledConcat([claimed], rest.inputs, m);
          HeardCounts(Turn(o, w, turn, claimed), rest.events, m);
        }
      }
    }
  }

  /** While nothing keeps input out and no process is killed, the log holds every message that was part of a turn's
      input as something a user said, as often as it was. */
  lemma {:induction false} HandledIsHeard(how: Resume, o: Options, lives: seq<Life>, m: Message)
    requires NoneKilled(lives) && forall l :: 0 <= l < |lives| ==> Unhindered(o, lives[l].world)
    ensures var end := Lived(how, o, lives); Handled(end.inputs, m) <= I.Times(Heard(end.log), m)
  {
    hide Drain, I.Times, Heard, Handled, LastTurn, Resumed, Unhindered;
    NoInput(m);
    if lives != [] {
      var before, life := Lived(how, o, lives[..|lives| - 1]), lives[|lives| - 1];
      HandledIsHeard(how, o, lives[..|lives| - 1], m);
      var lastTurn, queues := LastTurn(before.log), Resumed(how, before.inbox);
      var run := Drain(o, life.world, lastTurn, queues, life.arrivals);
      DrainIsHeard(o, life.world, lastTurn, queues, life.arrivals, m);
      HandledConcat(before.inputs, run.inputs, m);
      HeardCounts(before.log, run.events, m);
    }
  }

  // ------------------------------------------------------------------ processes killed inside a turn

  /** Where a log stands for a process that takes over: between turns, the open step's calls left behind. */
  function Abandoned(g: Grammar): Grammar {
    Grammar(g.turns, Idle, OwedNow(g))
  }

  /** Each process's own stretch of the log obeys the grammar, from rest to wherever it was killed. */
  ghost function Standing(how: Resume, o: Options, lives: seq<Life>): Option<Grammar> {
    if lives == [] then Some(START)
    else
      var before := Standing(how, o, lives[..|lives| - 1]);
      if before.None? then None
      else After(o.maxSteps, Abandoned(before.value), LastProcess(how, o, lives).events)
  }

  lemma ProcessObeys(o: Options, life: Life, lastTurn: nat, inbox: I.State, g: Grammar)
    requires g.phase.Idle? && g.turns == lastTurn
    ensures After(o.maxSteps, g, Process(o, life, lastTurn, inbox).events).Some?
  {
    hide Next, Drain, After, KilledRound;
    DrainIsWellFormed(o, life.world, g, inbox, life.arrivals);
    var run := Drain(o, life.world, lastTurn, inbox, life.arrivals);
    if life.kill.Some? {
      var mid: Grammar :| After(o.maxSteps, g, run.events) == Some(mid) && mid.turns == run.lastTurn && mid.phase.Idle?;
      KilledRoundObeys(o, life.world, run.lastTurn, run.inbox, life.kill.value, mid);
      var end := KilledRound(o, life.world, run.lastTurn, run.inbox, life.kill.value);
      AfterVia(o.maxSteps, g, run.events, mid, end.events);
    }
  }

  lemma KilledRoundObeys(o: Options, w: World, lastTurn: nat, inbox: I.State, kill: Kill, g: Grammar)
    requires g.phase.Idle? && g.turns == lastTurn
    ensures After(o.maxSteps, g, KilledRound(o, w, lastTurn, inbox, kill).events).Some?
  {
    hide Next, After, Turn, I.DoAll, I.Do;
    AfterNothing(o.maxSteps, g);
    var claimed := Claimed(I.DoAll(inbox, kill.ops));
    TurnIsWellFormed(o, w, g, claimed);
    var events := Turn(o, w, lastTurn + 1, claimed);
    if kill.kept <= |events| {
      PrefixObeys(o.maxSteps, g, events, kill.kept);
    }
  }

  /** What survives being killed: every stretch obeys the grammar, turns are still numbered 1, 2, 3 and so on
      across all of them, and the outstanding count is still the calls asked for and not answered. */
  lemma {:induction false} KilledLogsStand(how: Resume, o: Options, lives: seq<Life>)
    ensures var es, g := LogOf(how, o, lives), Standing(how, o, lives);
            && g.Some? && LastTurn(es) == g.value.turns && StartedTurns(es) == UpTo(g.value.turns)
            && TotalWeight(es) == OwedNow(g.value)
            && forall n :: 0 <= n <= |es| ==> TotalWeight(es[..n]) >= 0
  {
    hide After, Next, Process, TotalWeight, LastTurn, StartedTurns, UpTo, OwedNow, Resumed;
    if lives == [] {
      NoTurnsYet();
      AtStart();
    } else {
      var before := Lived(how, o, lives[..|lives| - 1]);
      KilledLogsStand(how, o, lives[..|lives| - 1]);
      var g := Abandoned(Standing(how, o, lives[..|lives| - 1]).value);
      var es := LastProcess(how, o, lives).events;
      ProcessObeys(o, lives[|lives| - 1], LastTurn(before.log), Resumed(how, before.inbox), g);
      TurnsAreCounted(o.maxSteps, g, before.log, es);
      AbandonedOwes(Standing(how, o, lives[..|lives| - 1]).value);
      StretchWeighs(o.maxSteps, g, before.log, es);
    }
  }

  lemma AtStart()
    ensures TotalWeight([]) == 0 && OwedNow(START) == 0
  {
  }

  lemma AbandonedOwes(g: Grammar)
    ensures OwedNow(Abandoned(g)) == OwedNow(g)
  {
  }

  lemma StretchWeighs(maxSteps: int, g: Grammar, before: seq<RunEvent>, es: seq<RunEvent>)
    requires After(maxSteps, g, es).Some? && TotalWeight(before) == OwedNow(g)
    requires forall n :: 0 <= n <= |before| ==> TotalWeight(before[..n]) >= 0
    ensures TotalWeight(before + es) == OwedNow(After(maxSteps, g, es).value)
    ensures forall n :: 0 <= n <= |before + es| ==> TotalWeight((before + es)[..n]) >= 0
  {
    hide After, TotalWeight, OwedNow;
    WeightConcat(before, es);
    OutstandingIsUnanswered(maxSteps, g, es);
    forall n | 0 <= n <= |before + es|
      ensures TotalWeight((before + es)[..n]) >= 0
    {
      if n <= |before| {
        assert (before + es)[..n] == before[..n];
      } else {
        var k := n - |before|;
        assert (before + es)[..n] == before + es[..k];
        WeightConcat(before, es[..k]);
        PrefixObeys(maxSteps, g, es, k);
        OutstandingIsUnanswered(maxSteps, g, es[..k]);
      }
    }
  }

  /** Not even logs of killed processes make the surface look corrupt. */
  lemma KilledLogsNeverCorrupt(how: Resume, o: Options, lives: seq<Life>)
    requires HooksSafe(LogOf(how, o, lives))
    ensures var s := S.Run(S.EMPTY, Commands(LogOf(how, o, lives)));
            && S.WellFormed(s) && P.NonNegative(P.StateDeltas(s)) && (forall r :: P.IsFresh(s, r) ==> r.Ok?)
            && Standing(how, o, lives).Some? && Sum(P.StateDeltas(s)) == OwedNow(Standing(how, o, lives).value)
  {
    hide LogOf, Standing, HooksSafe, OwedNow, TotalWeight;
    KilledLogsStand(how, o, lives);
    SurfaceWeighsTheLog(LogOf(how, o, lives));
    P.NeverCorrupt(Commands(LogOf(how, o, lives)));
  }

  /** Every turn that was started has its end. */
  predicate AtRest(log: seq<RunEvent>) {
    StartedTurns(log) == EndedTurns(log)
  }

  /** Every process that started a turn found the log between turns. */
  ghost predicate FoundAtRest(how: Resume, o: Options, lives: seq<Life>) {
    lives == [] ||
    (FoundAtRest(how, o, lives[..|lives| - 1]) &&
     (StartedTurns(LastProcess(how, o, lives).events) == [] || AtRest(LogOf(how, o, lives[..|lives| - 1]))))
  }

  /** A log that obeys the grammar stands between turns exactly when every turn it started has its end. */
  lemma RestsExactly(maxSteps: int, log: seq<RunEvent>)
    requires After(maxSteps, START, log).Some?
    ensures After(maxSteps, START, log).value.phase.Idle? <==> AtRest(log)
  {
    hide Next, After, StartedTurns, EndedTurns;
    TurnsNest(maxSteps, log);
    var g := After(maxSteps, START, log).value;
    UpToLength(g.turns);
    if g.turns > 0 {
      UpToLength(g.turns - 1);
    }
  }

  /** Events that are in order at rest are in order inside a turn only while they start none. */
  lemma {:induction false} StartsInsideATurn(maxSteps: int, g: Grammar, es: seq<RunEvent>)
    requires !g.phase.Idle? && After(maxSteps, Abandoned(g), es).Some?
    ensures After(maxSteps, g, es) == if StartedTurns(es) == [] then Some(g) else None
    ensures StartedTurns(es) == [] ==> After(maxSteps, Abandoned(g), es) == Some(Abandoned(g))
  {
    if es != [] {
      StartsInsideATurn(maxSteps, g, es[..|es| - 1]);
    }
  }

  /** What does not survive: the whole log obeys the grammar if and only if every process that started a turn found
      every turn before it ended, that is, none before it was killed inside one. */
  lemma {:induction false} KillBreaksTheNesting(how: Resume, o: Options, lives: seq<Life>)
    ensures After(o.maxSteps, START, LogOf(how, o, lives)).Some? <==> FoundAtRest(how, o, lives)
  {
    hide After, Next, Process, StartedTurns, EndedTurns, LastTurn, Resumed;
    if lives == [] {
      AfterNothing(o.maxSteps, START);
    } else {
      var before, life := Lived(how, o, lives[..|lives| - 1]), lives[|lives| - 1];
      var log, es := before.log, LastProcess(how, o, lives).events;
      KillBreaksTheNesting(how, o, lives[..|lives| - 1]);
      AfterConcat(o.maxSteps, START, log, es);
      if After(o.maxSteps, START, log).Some? {
        var g := After(o.maxSteps, START, log).value;
        TurnsOf(o.maxSteps, log);
        RestsExactly(o.maxSteps, log);
        if g.phase.Idle? {
          ProcessObeys(o, life, LastTurn(log), Resumed(how, before.inbox), g);
        } else {
          ProcessObeys(o, life, LastTurn(log), Resumed(how, before.inbox), Abandoned(g));
          StartsInsideATurn(o.maxSteps, g, es);
        }
      }
    }
  }
}
