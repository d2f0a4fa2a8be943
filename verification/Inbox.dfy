/** The agent's pending input: two queues kept as a projection of the session log (agent/inbox.py). */
module Inboxes {
  import opened Prelude
  import opened Messages
  import opened Payloads

  const NEXT_TURN := "next-turn"
  const NEXT_STEP := "next-step"

  /** One entry of the session log. A splice without a removed count removes nothing. */
  datatype Event =
    | Spliced(target: string, start: nat, inserted: seq<Json>, removedCount: Option<nat>, canceled: bool)
    | OtherEvent

  datatype Queues = Queues(turn: seq<Message>, step: seq<Message>) {
    function On(target: string): seq<Message> {
      if target == NEXT_TURN then turn else step
    }

    function With(target: string, queue: seq<Message>): Queues {
      if target == NEXT_TURN then Queues(queue, step) else Queues(turn, queue)
    }
  }

  const NOTHING := Queues([], [])

  // ------------------------------------------------------------------ splicing a list

  /** Slice bounds past the end of a list mean its end. */
  function Clamp<T>(queue: seq<T>, i: nat): (c: nat)
    ensures c <= |queue| && c <= i && (i <= |queue| ==> c == i)
  {
    if i <= |queue| then i else |queue|
  }

  function Cut<T>(queue: seq<T>, start: nat, count: nat): seq<T> {
    queue[Clamp(queue, start)..Clamp(queue, start + count)]
  }

  function Splice<T>(queue: seq<T>, start: nat, count: nat, inserted: seq<T>): seq<T> {
    queue[..Clamp(queue, start)] + inserted + queue[Clamp(queue, start + count)..]
  }

  // ------------------------------------------------------------------ replaying the log

  function EncodeAll(messages: seq<Message>): (js: seq<Json>)
    ensures |js| == |messages|
  {
    seq(|messages|, i requires 0 <= i < |messages| => Encode(Msg(messages[i])))
  }

  function DecodeAll(js: seq<Json>): Option<seq<Message>> {
    if js == [] then Some([])
    else
      var first, rest := Decode(js[0]), DecodeAll(js[1..]);
      if first.Ok? && first.value.Msg? && rest.Some? then Some([first.value.message] + rest.value) else None
  }

  lemma {:induction false} EncodedDecodes(messages: seq<Message>)
    ensures DecodeAll(EncodeAll(messages)) == Some(messages)
  {
    hide Encode, Decode;
    if messages != [] {
      MessageRoundTrips(messages[0]);
      EncodedDecodes(messages[1..]);
      assert EncodeAll(messages)[1..] == EncodeAll(messages[1..]);
      assert messages == [messages[0]] + messages[1..];
    }
  }

  predicate KnownTarget(target: string) {
    target == NEXT_TURN || target == NEXT_STEP
  }

  function CountOf(removedCount: Option<nat>): nat {
    if removedCount.Some? then removedCount.value else 0
  }

  /** The queues after one more event; nothing when the event cannot be replayed. */
  function Applied(q: Queues, e: Event): Option<Queues> {
    if e.OtherEvent? then Some(q)
    else if !KnownTarget(e.target) then None
    else
      var inserted := DecodeAll(e.inserted);
      if inserted.None? then None
      else Some(q.With(e.target, Splice(q.On(e.target), e.start, CountOf(e.removedCount), inserted.value)))
  }

  function Replayed(log: seq<Event>): Option<Queues> {
    if log == [] then Some(NOTHING)
    else
      var before := Replayed(log[..|log| - 1]);
      if before.None? then None else Applied(before.value, log[|log| - 1])
  }

  lemma ReplaySnoc(log: seq<Event>, e: Event)
    ensures Replayed(log + [e]) == var before := Replayed(log); if before.None? then None else Applied(before.value, e)
  {
    assert (log + [e])[..|log|] == log;
  }

  /** An event that replay can read: one of others, or a splice of a known queue whose messages decode. */
  predicate Readable(e: Event) {
    e.OtherEvent? || ((e.target == NEXT_TURN || e.target == NEXT_STEP) && DecodeAll(e.inserted).Some?)
  }

  /** A log replays exactly when every one of its events can be read. */
  lemma {:induction false} ReplaysExactly(log: seq<Event>)
    ensures Replayed(log).Some? <==> forall i :: 0 <= i < |log| ==> Readable(log[i])
  {
    hide DecodeAll, Splice;
    if log != [] {
      var n := |log| - 1;
      ReplaysExactly(log[..n]);
      assert forall i :: 0 <= i < n ==> log[..n][i] == log[i];
      assert (forall i :: 0 <= i < |log| ==> Readable(log[i])) <==>
             (forall i :: 0 <= i < n ==> Readable(log[..n][i])) && Readable(log[n]);
    }
  }

  /** Rebuild the queues from a log, or refuse one with an event that cannot be read. */
  method Replay(log: seq<Event>) returns (r: Option<Queues>)
    ensures r == Replayed(log)
    ensures r.Some? <==> forall i :: 0 <= i < |log| ==> Readable(log[i])
  {
    ReplaysExactly(log);
    var q := NOTHING;
    for i := 0 to |log|
      invariant Replayed(log[..i]) == Some(q)
    {
      assert log[..i + 1] == log[..i] + [log[i]];
      ReplaySnoc(log[..i], log[i]);
      var next := Applied(q, log[i]);
      if next.None? {
        StaysBroken(log, i + 1);
        return None;
      }
      q := next.value;
    }
    assert log[..|log|] == log;
    return Some(q);
  }

  lemma {:induction false} StaysBroken(log: seq<Event>, n: nat)
    requires n <= |log| && Replayed(log[..n]) == None
    ensures Replayed(log) == None
    decreases |log|
  {
    if n == |log| {
      assert log[..n] == log;
    } else {
      assert log[..|log| - 1][..n] == log[..n];
      StaysBroken(log[..|log| - 1], n);
    }
  }

  // ------------------------------------------------------------------ what the inbox does

  datatype Op =
    | Append(target: string, message: Message)
    | Prepend(target: string, message: Message)
    | Claim(target: string)
    | Remove(id: string)
    | Clear
    | Foreign

  /** Everything that ever happened to the messages: who waits, who was taken, who was dropped. */
  datatype State = State(
    log: seq<Event>, waiting: Queues, delivered: seq<Message>, claimed: Queues, dropped: seq<Message>)

  const START := State([], NOTHING, [], NOTHING, [])

  /** The log gains the event of this splice and the queue is as the event says. */
  function Change(s: State, target: string, start: nat, count: nat, inserted: seq<Message>): State {
    if inserted == [] && count == 0 then s
    else
      s.(log := s.log + [Spliced(target, start, EncodeAll(inserted), if count > 0 then Some(count) else None,
                                 count > 0 && inserted == [])],
         waiting := s.waiting.With(target, Splice(s.waiting.On(target), start, count, inserted)))
  }

  /** The position of the first waiting message with this id, or the length. */
  function Find(queue: seq<Message>, id: string): (i: nat)
    ensures i <= |queue| && (i < |queue| ==> queue[i].id == id)
    ensures forall j :: 0 <= j < i ==> queue[j].id != id
  {
    if queue == [] || queue[0].id == id then 0 else 1 + Find(queue[1..], id)
  }

  function TakeStep(s: State): State {
    var s1 := Change(s, NEXT_STEP, 0, |s.waiting.step|, []);
    s1.(claimed := s.claimed.(step := s.claimed.step + s.waiting.step))
  }

  function TakeTurn(s: State): State {
    var s1 := Change(s, NEXT_TURN, 0, 1, []);
    s1.(claimed := s.claimed.(turn := s.claimed.turn + Cut(s.waiting.turn, 0, 1)))
  }

  function DropAt(s: State, target: string, i: nat): State {
    var s1 := Change(s, target, i, 1, []);
    s1.(dropped := s.dropped + Cut(s.waiting.On(target), i, 1))
  }

  function DropAll(s: State, target: string): State {
    var s1 := Change(s, target, 0, |s.waiting.On(target)|, []);
    s1.(dropped := s.dropped + s.waiting.On(target))
  }

  /** One operation. Delivering to a queue that does not exist is refused and changes nothing. */
  function Do(s: State, op: Op): State {
    match op
    case Append(target, m) =>
      if !KnownTarget(target) then s
      else Change(s, target, |s.waiting.On(target)|, 0, [m]).(delivered := s.delivered + [m])
    case Prepend(target, m) =>
      if !KnownTarget(target) then s else Change(s, target, 0, 0, [m]).(delivered := s.delivered + [m])
    case Claim(target) => if target == NEXT_TURN then TakeTurn(TakeStep(s)) else TakeStep(s)
    case Remove(id) =>
      var i, j := Find(s.waiting.step, id), Find(s.waiting.turn, id);
      if i < |s.waiting.step| then DropAt(s, NEXT_STEP, i)
      else if j < |s.waiting.turn| then DropAt(s, NEXT_TURN, j)
      else s
    case Clear => DropAll(DropAll(s, NEXT_STEP), NEXT_TURN)
    case Foreign => s.(log := s.log + [OtherEvent])
  }

  function DoAll(s: State, ops: seq<Op>): State {
    if ops == [] then s else Do(DoAll(s, ops[..|ops| - 1]), ops[|ops| - 1])
  }

  /** An inbox built over a session's log, as every new or resumed agent builds one: its queues start empty,
      whatever the log says. */
  function Restarted(s: State): State {
    s.(waiting := NOTHING)
  }

  /** An inbox rebuilt from the log through `Replay`. */
  function Recovered(s: State): State {
    if Replayed(s.log).Some? then s.(waiting := Replayed(s.log).value) else s
  }

  // ------------------------------------------------------------------ the log tells all

  ghost predicate Faithfully(s: State) {
    Replayed(s.log) == Some(s.waiting)
  }

  lemma ChangeIsFaithful(s: State, target: string, start: nat, count: nat, inserted: seq<Message>)
    requires Faithfully(s) && KnownTarget(target)
    ensures Faithfully(Change(s, target, start, count, inserted))
  {
    hide EncodeAll, DecodeAll, Splice;
    EncodedDecodes(inserted);
    var e := Spliced(target, start, EncodeAll(inserted), if count > 0 then Some(count) else None,
                     count > 0 && inserted == []);
    ReplaySnoc(s.log, e);
  }

  lemma TakeIsFaithful(s: State)
    requires Faithfully(s)
    ensures Faithfully(TakeStep(s)) && Faithfully(TakeTurn(s))
  {
    hide Change, Replayed;
    ChangeIsFaithful(s, NEXT_STEP, 0, |s.waiting.step|, []);
    ChangeIsFaithful(s, NEXT_TURN, 0, 1, []);
  }

  lemma DropIsFaithful(s: State, target: string, i: nat)
    requires Faithfully(s) && KnownTarget(target)
    ensures Faithfully(DropAt(s, target, i)) && Faithfully(DropAll(s, target))
  {
    hide Change, Replayed;
    ChangeIsFaithful(s, target, i, 1, []);
    ChangeIsFaithful(s, target, 0, |s.waiting.On(target)|, []);
  }

  lemma DoIsFaithful(s: State, op: Op)
    requires Faithfully(s)
    ensures Faithfully(Do(s, op))
  {
    hide Change, Replayed, TakeStep, TakeTurn, DropAt, DropAll, Find;
    match op
    case Append(target, m) =>
      if KnownTarget(target) {
        ChangeIsFaithful(s, target, |s.waiting.On(target)|, 0, [m]);
      }
    case Prepend(target, m) =>
      if KnownTarget(target) {
        ChangeIsFaithful(s, target, 0, 0, [m]);
      }
    case Claim(_) =>
      TakeIsFaithful(s);
      TakeIsFaithful(TakeStep(s));
    case Remove(id) =>
      DropIsFaithful(s, NEXT_STEP, Find(s.waiting.step, id));
      DropIsFaithful(s, NEXT_TURN, Find(s.waiting.turn, id));
    case Clear =>
      DropIsFaithful(s, NEXT_STEP, 0);
      DropIsFaithful(DropAll(s, NEXT_STEP), NEXT_TURN, 0);
    case Foreign => ReplaySnoc(s.log, OtherEvent);
  }

  /** From any state the log agrees with, whatever is done, replaying the log gives the live queues. */
  lemma {:induction false} ReplayIsLive(s: State, ops: seq<Op>)
    requires Faithfully(s)
    ensures Replayed(DoAll(s, ops).log) == Some(DoAll(s, ops).waiting)
  {
    if ops != [] {
      ReplayIsLive(s, ops[..|ops| - 1]);
      DoIsFaithful(DoAll(s, ops[..|ops| - 1]), ops[|ops| - 1]);
    }
  }

  // ------------------------------------------------------------------ nothing is lost or doubled

  function Times(queue: seq<Message>, m: Message): nat {
    multiset(queue)[m]
  }

  /** How often a message is waiting, claimed or dropped. */
  function Tally(s: State, m: Message): nat {
    Times(s.waiting.turn, m) + Times(s.waiting.step, m) + Times(s.claimed.turn, m) + Times(s.claimed.step, m) +
    Times(s.dropped, m)
  }

  lemma TimesConcat(a: seq<Message>, b: seq<Message>, m: Message)
    ensures Times(a + b, m) == Times(a, m) + Times(b, m)
  {
  }

  lemma SpliceConserves(queue: seq<Message>, start: nat, count: nat, inserted: seq<Message>, m: Message)
    ensures Times(Splice(queue, start, count, inserted), m) + Times(Cut(queue, start, count), m)
         == Times(queue, m) + Times(inserted, m)
  {
    var i, j := Clamp(queue, start), Clamp(queue, start + count);
    assert queue == queue[..i] + queue[i..j] + queue[j..];
  }

  lemma AllIsCut(queue: seq<Message>)
    ensures Cut(queue, 0, |queue|) == queue && Splice(queue, 0, |queue|, []) == []
  {
  }

  lemma TakeConserves(s: State, m: Message)
    ensures Tally(TakeStep(s), m) == Tally(s, m) && TakeStep(s).delivered == s.delivered
    ensures Tally(TakeTurn(s), m) == Tally(s, m) && TakeTurn(s).delivered == s.delivered
  {
    hide Splice, Cut, Times;
    AllIsCut(s.waiting.step);
    SpliceConserves(s.waiting.step, 0, |s.waiting.step|, [], m);
    TimesConcat(s.claimed.step, s.waiting.step, m);
    SpliceConserves(s.waiting.turn, 0, 1, [], m);
    TimesConcat(s.claimed.turn, Cut(s.waiting.turn, 0, 1), m);
    NoTimes(m);
  }

  lemma NoTimes(m: Message)
    ensures Times([], m) == 0 && Times([m], m) == 1
  {
  }

  lemma DropConserves(s: State, target: string, i: nat, m: Message)
    requires KnownTarget(target)
    ensures Tally(DropAt(s, target, i), m) == Tally(s, m) && DropAt(s, target, i).delivered == s.delivered
    ensures Tally(DropAll(s, target), m) == Tally(s, m) && DropAll(s, target).delivered == s.delivered
  {
    hide Splice, Cut, Times;
    var queue := s.waiting.On(target);
    AllIsCut(queue);
    NoTimes(m);
    SpliceConserves(queue, 0, |queue|, [], m);
    TimesConcat(s.dropped, queue, m);
    SpliceConserves(queue, i, 1, [], m);
    TimesConcat(s.dropped, Cut(queue, i, 1), m);
  }

  lemma InsertConserves(s: State, target: string, start: nat, inserted: Message, m: Message)
    requires KnownTarget(target)
    ensures Tally(Change(s, target, start, 0, [inserted]), m) == Tally(s, m) + Times([inserted], m)
  {
    var queue := s.waiting.On(target);
    assert Cut(queue, start, 0) == [];
    hide Splice, Cut, Times;
    SpliceConserves(queue, start, 0, [inserted], m);
    NoTimes(m);
  }

  /** No operation changes by how much a message's deliveries exceed its tally. */
  lemma DoConserves(s: State, op: Op, m: Message)
    ensures Times(Do(s, op).delivered, m) - Tally(Do(s, op), m) == Times(s.delivered, m) - Tally(s, m)
  {
    hide Change, TakeStep, TakeTurn, DropAt, DropAll, Find, Times;
    match op
    case Append(target, x) =>
      if KnownTarget(target) {
        InsertConserves(s, target, |s.waiting.On(target)|, x, m);
        TimesConcat(s.delivered, [x], m);
      }
    case Prepend(target, x) =>
      if KnownTarget(target) {
        InsertConserves(s, target, 0, x, m);
        TimesConcat(s.delivered, [x], m);
      }
    case Claim(_) =>
      TakeConserves(s, m);
      TakeConserves(TakeStep(s), m);
    case Remove(id) =>
      DropConserves(s, NEXT_STEP, Find(s.waiting.step, id), m);
      DropConserves(s, NEXT_TURN, Find(s.waiting.turn, id), m);
    case Clear =>
      DropConserves(s, NEXT_STEP, 0, m);
      DropConserves(DropAll(s, NEXT_STEP), NEXT_TURN, 0, m);
    case Foreign =>
  }

  lemma {:induction false} RunConserves(s: State, ops: seq<Op>, m: Message)
    ensures var s' := DoAll(s, ops); Times(s'.delivered, m) - Tally(s', m) == Times(s.delivered, m) - Tally(s, m)
  {
    if ops != [] {
      hide Do, Tally, Times;
      RunConserves(s, ops[..|ops| - 1], m);
      DoConserves(DoAll(s, ops[..|ops| - 1]), ops[|ops| - 1], m);
    }
  }

  /** A message delivered so many times is that many times pending, claimed or dropped, never lost or doubled. */
  lemma EveryMessageIsSomewhereOnce(ops: seq<Op>, m: Message)
    ensures var s := DoAll(START, ops);
            Times(s.delivered, m) == Times(s.waiting.turn, m) + Times(s.waiting.step, m) +
                                     Times(s.claimed.turn, m) + Times(s.claimed.step, m) + Times(s.dropped, m)
  {
    RunConserves(START, ops, m);
  }

  // ------------------------------------------------------------------ resuming over an old log

  /** Every message is accounted for. */
  ghost predicate Conserved(s: State) {
    forall m :: Times(s.delivered, m) == Tally(s, m)
  }

  function Waiting(s: State, m: Message): nat {
    Times(s.waiting.turn, m) + Times(s.waiting.step, m)
  }

  lemma SomethingWaits(s: State) returns (m: Message)
    requires s.waiting != NOTHING
    ensures Waiting(s, m) > 0
  {
    m := if s.waiting.turn != [] then s.waiting.turn[0] else s.waiting.step[0];
    assert m in s.waiting.turn || m in s.waiting.step;
  }

  /** What a restart forgets is exactly what was waiting. */
  lemma RestartForgets(s: State, m: Message)
    ensures Tally(Restarted(s), m) == Tally(s, m) - Waiting(s, m)
  {
  }

  /** Replay equals live after a restart and everything done later, and every message stays accounted for, if
      and only if nothing was waiting when the restart came. */
  lemma RestartSurvivesExactly(s: State)
    requires Faithfully(s) && Conserved(s)
    ensures (forall ops :: Faithfully(DoAll(Restarted(s), ops))) <==> s.waiting == NOTHING
    ensures Conserved(Restarted(s)) <==> s.waiting == NOTHING
  {
    hide Do, Replayed, Tally, Times;
    if s.waiting == NOTHING {
      assert Restarted(s) == s;
      forall ops
        ensures Faithfully(DoAll(Restarted(s), ops))
      {
        ReplayIsLive(s, ops);
      }
    } else {
      var none: seq<Op> := [];
      assert !Faithfully(Restarted(s));
      assert !Faithfully(DoAll(Restarted(s), none));
      var m := SomethingWaits(s);
      RestartForgets(s, m);
      assert Times(Restarted(s).delivered, m) != Tally(Restarted(s), m);
    }
  }

  /** One message delivered, then a restart, then another delivered: the first is in no queue, was neither
      claimed nor dropped, and the log replays to two messages where one is live. */
  lemma RestartLosesAMessage(m: Message, n: Message)
    ensures var s := Restarted(Do(START, Append(NEXT_TURN, m)));
            var s' := Do(s, Append(NEXT_TURN, n));
            && s.delivered == [m] && Tally(s, m) == 0
            && s'.waiting == Queues([n], []) && Replayed(s'.log) == Some(Queues([n, m], []))
  {
    hide EncodeAll, DecodeAll, Replayed;
    var s0 := OneDelivered(m);
    var s := Restarted(s0);
    EncodedDecodes([n]);
    var e := Spliced(NEXT_TURN, 0, EncodeAll([n]), None, false);
    ReplaySnoc(s.log, e);
    assert Splice([m], 0, 0, [n]) == [n, m] && Splice(s.waiting.turn, 0, 0, [n]) == [n];
    assert Do(s, Append(NEXT_TURN, n)).log == s.log + [e];
  }

  lemma OneDelivered(m: Message) returns (s: State)
    ensures s == Do(START, Append(NEXT_TURN, m)) && Tally(Restarted(s), m) == 0
    ensures s.delivered == [m] && s.waiting == Queues([m], []) && Replayed(s.log) == Some(s.waiting)
  {
    hide EncodeAll, DecodeAll, Replayed;
    s := Do(START, Append(NEXT_TURN, m));
    NothingFaithful();
    ChangeIsFaithful(START, NEXT_TURN, 0, 0, [m]);
    assert Splice(START.waiting.turn, 0, 0, [m]) == [m];
  }

  lemma NothingFaithful()
    ensures Faithfully(START)
  {
  }

  /** Resuming through the replay loses nothing: from a log that agrees it gives back the state as it was. */
  lemma RecoveryIsLive(s: State)
    requires Faithfully(s)
    ensures Recovered(s) == s
  {
  }

  // ------------------------------------------------------------------ first come, first served

  /** The messages appended to one queue, in order. */
  function AppendedTo(ops: seq<Op>, target: string): seq<Message> {
    if ops == [] then []
    else
      var op := ops[|ops| - 1];
      AppendedTo(ops[..|ops| - 1], target) + AppendsOf(op, target)
  }

  ghost predicate NeverPrepended(ops: seq<Op>, target: string) {
    forall op :: op in ops ==> !(op.Prepend? && op.target == target)
  }

  ghost predicate NeverDropped(ops: seq<Op>) {
    forall op :: op in ops ==> !op.Remove? && !op.Clear?
  }

  /** `a` is `b` with some entries left out. */
  predicate Subsequence(a: seq<Message>, b: seq<Message>) {
    if a == [] then true
    else if b == [] then false
    else if a[|a| - 1] == b[|b| - 1] && Subsequence(a[..|a| - 1], b[..|b| - 1]) then true
    else Subsequence(a, b[..|b| - 1])
  }

  lemma SubsequenceSnoc(a: seq<Message>, b: seq<Message>, m: Message)
    requires Subsequence(a, b)
    ensures Subsequence(a + [m], b + [m])
  {
    assert (a + [m])[..|a|] == a && (b + [m])[..|b|] == b;
  }

  lemma {:induction false} SubsequenceWithout(a: seq<Message>, b: seq<Message>, i: nat, j: nat)
    requires i <= j <= |a| && Subsequence(a, b)
    ensures Subsequence(a[..i] + a[j..], b)
    decreases |b|
  {
    var c := a[..i] + a[j..];
    if c != [] {
      var a', b' := a[..|a| - 1], b[..|b| - 1];
      if a[|a| - 1] == b[|b| - 1] && Subsequence(a', b') {
        if j < |a| {
          SubsequenceWithout(a', b', i, j);
          assert c[..|c| - 1] == a'[..i] + a'[j..];
        } else if i < |a| {
          SubsequenceWithout(a', b', i, |a'|);
          assert c == a'[..i] + a'[|a'|..];
        } else {
          assert c == a;
        }
      } else {
        SubsequenceWithout(a, b', i, j);
      }
    }
  }

  /** What was claimed from a queue, followed by what still waits in it. */
  function Line(s: State, target: string): seq<Message> {
    s.claimed.On(target) + s.waiting.On(target)
  }

  lemma AppendLines(s: State, target: string, m: Message)
    requires KnownTarget(target)
    ensures var s' := Do(s, Append(target, m));
            && Line(s', target) == Line(s, target) + [m]
            && forall t :: KnownTarget(t) && t != target ==> Line(s', t) == Line(s, t)
  {
    hide EncodeAll;
    var queue := s.waiting.On(target);
    assert Splice(queue, |queue|, 0, [m]) == queue + [m];
  }

  lemma TakeLines(s: State, target: string)
    requires KnownTarget(target)
    ensures Line(TakeStep(s), target) == Line(s, target) && Line(TakeTurn(s), target) == Line(s, target)
  {
    hide EncodeAll;
    var turn, step := s.waiting.turn, s.waiting.step;
    assert Splice(step, 0, |step|, []) == [];
    assert Cut(turn, 0, 1) + Splice(turn, 0, 1, []) == turn;
    assert s.claimed.turn + Cut(turn, 0, 1) + Splice(turn, 0, 1, []) == s.claimed.turn + turn;
  }

  ghost predicate IsWithout(c: seq<Message>, a: seq<Message>) {
    exists i, j :: WithoutAt(c, a, i, j)
  }

  ghost predicate WithoutAt(c: seq<Message>, a: seq<Message>, i: int, j: int) {
    0 <= i <= j <= |a| && c == a[..i] + a[j..]
  }

  lemma WithoutMiddle(c: seq<Message>, queue: seq<Message>, a: nat, b: nat)
    requires a <= b <= |queue|
    ensures WithoutAt(c + (queue[..a] + [] + queue[b..]), c + queue, |c| + a, |c| + b)
  {
  }

  lemma DropAtLine(s: State, from: string, i: nat, target: string)
    requires KnownTarget(target) && KnownTarget(from)
    ensures IsWithout(Line(DropAt(s, from, i), target), Line(s, target))
  {
    hide EncodeAll, WithoutAt;
    var queue, taken := s.waiting.On(target), s.claimed.On(target);
    WithoutMiddle(taken, queue, 0, 0);
    assert taken + (queue[..0] + [] + queue[0..]) == taken + queue;
    WithoutMiddle(taken, queue, Clamp(queue, i), Clamp(queue, i + 1));
  }

  lemma DropAllLine(s: State, from: string, target: string)
    requires KnownTarget(target) && KnownTarget(from)
    ensures IsWithout(Line(DropAll(s, from), target), Line(s, target))
  {
    hide EncodeAll, Splice;
    var queue, n := s.waiting.On(target), |s.claimed.On(target)|;
    var line' := Line(DropAll(s, from), target);
    if from == target {
      AllIsCut(queue);
      assert line' == s.claimed.On(target);
      assert WithoutAt(line', Line(s, target), n, n + |queue|);
    } else {
      assert line' == Line(s, target);
      assert WithoutAt(line', Line(s, target), 0, 0);
    }
  }

  lemma KeepsOrder(c: seq<Message>, a: seq<Message>, b: seq<Message>)
    requires IsWithout(c, a) && Subsequence(a, b)
    ensures Subsequence(c, b)
  {
    var i, j :| WithoutAt(c, a, i, j);
    SubsequenceWithout(a, b, i, j);
  }

  lemma PrependOther(s: State, target: string, m: Message, other: string)
    requires KnownTarget(other) && target != other
    ensures Line(Do(s, Prepend(target, m)), other) == Line(s, other)
  {
  }

  lemma DropsKeepOrder(s: State, op: Op, target: string, b: seq<Message>)
    requires KnownTarget(target) && (op.Remove? || op.Clear?) && Subsequence(Line(s, target), b)
    ensures Subsequence(Line(Do(s, op), target), b)
  {
    hide Line, DropAt, DropAll, Find, Subsequence, IsWithout;
    if op.Remove? {
      var i, j := Find(s.waiting.step, op.id), Find(s.waiting.turn, op.id);
      if i < |s.waiting.step| {
        DropAtLine(s, NEXT_STEP, i, target);
        KeepsOrder(Line(DropAt(s, NEXT_STEP, i), target), Line(s, target), b);
      } else if j < |s.waiting.turn| {
        DropAtLine(s, NEXT_TURN, j, target);
        KeepsOrder(Line(DropAt(s, NEXT_TURN, j), target), Line(s, target), b);
      }
    } else {
      var s1 := DropAll(s, NEXT_STEP);
      DropAllLine(s, NEXT_STEP, target);
      KeepsOrder(Line(s1, target), Line(s, target), b);
      DropAllLine(s1, NEXT_TURN, target);
      KeepsOrder(Line(DropAll(s1, NEXT_TURN), target), Line(s1, target), b);
    }
  }

  lemma ClaimLines(s: State, from: string, target: string)
    requires KnownTarget(target)
    ensures Line(Do(s, Claim(from)), target) == Line(s, target)
  {
    hide Line, TakeStep, TakeTurn;
    TakeLines(s, target);
    TakeLines(TakeStep(s), target);
  }

  function AppendsOf(op: Op, target: string): seq<Message> {
    if op.Append? && op.target == target then [op.message] else []
  }

  lemma DoKeepsOrder(s: State, op: Op, target: string, b: seq<Message>)
    requires KnownTarget(target) && !(op.Prepend? && op.target == target)
    requires Subsequence(Line(s, target), b)
    ensures Subsequence(Line(Do(s, op), target), b + AppendsOf(op, target))
    ensures !op.Remove? && !op.Clear? && Line(s, target) == b ==> Line(Do(s, op), target) == b + AppendsOf(op, target)
  {
    hide Line, Subsequence, DropAt, DropAll, TakeStep, TakeTurn, Change, Find;
    assert b + [] == b;
    match op
    case Append(t, m) =>
      if KnownTarget(t) {
        AppendLines(s, t, m);
        if t == target {
          SubsequenceSnoc(Line(s, target), b, m);
        }
      }
    case Prepend(t, m) => PrependOther(s, t, m, target);
    case Claim(t) => ClaimLines(s, t, target);
    case Remove(_) => DropsKeepOrder(s, op, target, b);
    case Clear => DropsKeepOrder(s, op, target, b);
    case Foreign => LineIgnoresLog(s, s.log + [OtherEvent], target);
  }

  lemma LineIgnoresLog(s: State, log: seq<Event>, target: string)
    ensures Line(s.(log := log), target) == Line(s, target)
  {
  }

  /** Claims keep queue order: what was claimed and then what waits follow the order of delivery,
      and nothing is missing when nothing was dropped. */
  lemma {:induction false} FirstComeFirstServed(ops: seq<Op>, target: string)
    requires KnownTarget(target) && NeverPrepended(ops, target)
    ensures Subsequence(Line(DoAll(START, ops), target), AppendedTo(ops, target))
    ensures NeverDropped(ops) ==> Line(DoAll(START, ops), target) == AppendedTo(ops, target)
  {
    if ops != [] {
      hide Line, Subsequence, Do;
      var before, op := ops[..|ops| - 1], ops[|ops| - 1];
      FirstComeFirstServed(before, target);
      assert op in ops;
      DoKeepsOrder(DoAll(START, before), op, target, AppendedTo(before, target));
    }
  }

  // ------------------------------------------------------------------ the inbox itself

  /** The first message of a queue with this id was taken out of it, and all others stayed as they were. */
  ghost predicate FirstTaken(before: seq<Message>, after: seq<Message>, id: string, taken: seq<Message>) {
    exists i :: 0 <= i < |before| && IsFirst(before, i, id)
      && taken == [before[i]] && after == before[..i] + before[i + 1..]
  }

  ghost predicate IsFirst(queue: seq<Message>, i: int, id: string)
    requires 0 <= i < |queue|
  {
    queue[i].id == id && forall j :: 0 <= j < i ==> queue[j].id != id
  }

  predicate Holds(queue: seq<Message>, id: string) {
    exists m :: m in queue && m.id == id
  }

  lemma FoundIsTaken(queue: seq<Message>, i: nat, id: string)
    requires i < |queue| && queue[i].id == id && forall j :: 0 <= j < i ==> queue[j].id != id
    ensures Holds(queue, id) && FirstTaken(queue, Splice(queue, i, 1, []), id, Cut(queue, i, 1))
  {
    assert queue[i] in queue && IsFirst(queue, i, id);
    assert Splice(queue, i, 1, []) == queue[..i] + queue[i + 1..];
  }

  datatype TargetError = UnknownTarget

  class Inbox {
    var log: seq<Event>
    var turn: seq<Message>
    var step: seq<Message>
    ghost var delivered: seq<Message>
    ghost var claimed: Queues
    ghost var dropped: seq<Message>

    ghost function Model(): State
      reads this
    {
      State(log, Queues(turn, step), delivered, claimed, dropped)
    }

    /** An inbox over a session's log, with empty queues; `before` is what happened to its messages so far. */
    constructor (log: seq<Event>, ghost before: State)
      requires before.log == log
      ensures Model() == Restarted(before)
    {
      this.log, turn, step := log, [], [];
      delivered, claimed, dropped := before.delivered, before.claimed, before.dropped;
    }

    /** The one path that changes a queue: the event is committed before memory is touched. */
    method SpliceQueue(target: string, start: nat, count: nat, inserted: seq<Message>)
      returns (r: Result<seq<Message>, TargetError>)
      modifies this`log, this`turn, this`step
      ensures r.Ok? <==> KnownTarget(target)
      ensures r.Err? ==> Model() == old(Model())
      ensures r.Ok? ==> Model() == Change(old(Model()), target, start, count, inserted)
      ensures r.Ok? ==> r.value == Cut(old(Model()).waiting.On(target), start, count)
    {
      if !KnownTarget(target) {
        return Err(UnknownTarget);
      }
      if inserted == [] && count == 0 {
        return Ok([]);
      }
      log := log + [Spliced(target, start, EncodeAll(inserted), if count > 0 then Some(count) else None,
                            count > 0 && inserted == [])];
      if target == NEXT_TURN {
        r := Ok(Cut(turn, start, count));
        turn := Splice(turn, start, count, inserted);
      } else {
        r := Ok(Cut(step, start, count));
        step := Splice(step, start, count, inserted);
      }
    }

    method Append(target: string, message: Message) returns (r: Result<(), TargetError>)
      modifies this
      ensures Model() == Do(old(Model()), Op.Append(target, message))
      ensures r.Ok? <==> KnownTarget(target)
      ensures turn == if target == NEXT_TURN then old(turn) + [message] else old(turn)
      ensures step == if target == NEXT_STEP then old(step) + [message] else old(step)
    {
      if !KnownTarget(target) {
        return Err(UnknownTarget);
      }
      var end := if target == NEXT_TURN then |turn| else |step|;
      var _ := SpliceQueue(target, end, 0, [message]);
      delivered := delivered + [message];
      return Ok(());
    }

    method Prepend(target: string, message: Message) returns (r: Result<(), TargetError>)
      modifies this
      ensures Model() == Do(old(Model()), Op.Prepend(target, message))
      ensures r.Ok? <==> KnownTarget(target)
      ensures turn == if target == NEXT_TURN then [message] + old(turn) else old(turn)
      ensures step == if target == NEXT_STEP then [message] + old(step) else old(step)
    {
      var spliced := SpliceQueue(target, 0, 0, [message]);
      if spliced.Err? {
        return Err(UnknownTarget);
      }
      delivered := delivered + [message];
      return Ok(());
    }

    /** Everything waiting for the next step and, for a new turn, the one prompt at its head. */
    method Claim(target: string) returns (batch: seq<Message>)
      modifies this
      ensures Model() == Do(old(Model()), Op.Claim(target))
      ensures step == [] && batch == old(step) + old(turn)[..|old(turn)| - |turn|]
      ensures turn == if target == NEXT_TURN && old(turn) != [] then old(turn)[1..] else old(turn)
      ensures target == NEXT_TURN ==> (batch == [] <==> old(turn) == [] && old(step) == [])
    {
      hide EncodeAll;
      var taken := SpliceQueue(NEXT_STEP, 0, |step|, []);
      batch := taken.value;
      claimed := claimed.(step := claimed.step + batch);
      if target == NEXT_TURN {
        taken := SpliceQueue(NEXT_TURN, 0, 1, []);
        batch := batch + taken.value;
        claimed := claimed.(turn := claimed.turn + taken.value);
      }
    }

    /** Cancel the first waiting message with this id; the queue for the next step is searched first. */
    method Remove(id: string) returns (found: bool)
      modifies this
      ensures Model() == Do(old(Model()), Op.Remove(id))
      ensures found <==> Holds(old(step), id) || Holds(old(turn), id)
      ensures old(dropped) <= dropped
      ensures if Holds(old(step), id) then
                turn == old(turn) && FirstTaken(old(step), step, id, dropped[|old(dropped)|..])
              else if Holds(old(turn), id) then
                step == old(step) && FirstTaken(old(turn), turn, id, dropped[|old(dropped)|..])
              else Model() == old(Model())
    {
      hide EncodeAll, FirstTaken, Splice, Cut;
      var i := Find(step, id);
      if i < |step| {
        FoundIsTaken(step, i, id);
        var removed := SpliceQueue(NEXT_STEP, i, 1, []);
        dropped := dropped + removed.value;
        return true;
      }
      var j := Find(turn, id);
      if j < |turn| {
        FoundIsTaken(turn, j, id);
        var removed := SpliceQueue(NEXT_TURN, j, 1, []);
        dropped := dropped + removed.value;
        return true;
      }
      return false;
    }

    /** Something else is logged. */
    method LogOther()
      modifies this`log
      ensures Model() == Do(old(Model()), Op.Foreign)
    {
      log := log + [OtherEvent];
    }

    method Clear()
      modifies this
      ensures Model() == Do(old(Model()), Op.Clear)
      ensures turn == [] && step == []
    {
      hide EncodeAll;
      var removed := SpliceQueue(NEXT_STEP, 0, |step|, []);
      dropped := dropped + removed.value;
      removed := SpliceQueue(NEXT_TURN, 0, |turn|, []);
      dropped := dropped + removed.value;
    }
  }
}
