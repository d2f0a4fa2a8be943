/** Flushing a live log, and checkpointing folds of it, with appends racing and crashes
    anywhere (session/persistence.py, session/cache.py). */
module Durability {
  import opened Prelude
  import opened Sessions
  import opened Projection
  import opened ColdRead

  // ------------------------------------------------------------- the event table

  type Table = map<int, Event>

  /** Insert-or-replace of some events, in order. */
  function Inserted(table: Table, events: seq<Event>): Table {
    if events == [] then table
    else Inserted(table, events[..|events| - 1])[events[|events| - 1].seqNo := events[|events| - 1]]
  }

  /** The events a session object has appended since its last acknowledged flush. */
  function Unsaved(log: seq<Event>, watermark: int): seq<Event> {
    if log == [] then []
    else if log[|log| - 1].seqNo > watermark then Unsaved(log[..|log| - 1], watermark) + [log[|log| - 1]]
    else Unsaved(log[..|log| - 1], watermark)
  }

  function WrittenUpTo(unsaved: seq<Event>, watermark: int): int {
    if unsaved != [] then unsaved[|unsaved| - 1].seqNo else watermark
  }

  /** The table holds exactly this log. */
  ghost predicate Holds(table: Table, log: seq<Event>) {
    && NumberedLog(log)
    && (forall k :: k in table <==> 1 <= k <= |log|)
    && (forall k :: 1 <= k <= |log| ==> table[k] == log[k - 1])
  }

  lemma {:induction false} UnsavedIsSuffix(log: seq<Event>, watermark: nat)
    requires NumberedLog(log) && watermark <= |log|
    ensures Unsaved(log, watermark) == log[watermark..]
    ensures WrittenUpTo(Unsaved(log, watermark), watermark) == |log|
  {
    if |log| > watermark {
      NumberedInit(log);
      hide NumberedLog;
      var init, e := log[..|log| - 1], log[|log| - 1];
      UnsavedIsSuffix(init, watermark);
      assert log[watermark..] == init[watermark..] + [e];
    } else {
      NothingUnsaved(log, watermark);
    }
  }

  lemma {:induction false} NothingUnsaved(log: seq<Event>, watermark: nat)
    requires NumberedLog(log) && |log| <= watermark
    ensures Unsaved(log, watermark) == []
  {
    if log != [] {
      NumberedInit(log);
      hide NumberedLog;
      NothingUnsaved(log[..|log| - 1], watermark);
    }
  }

  /** Insert-or-replace of one event at or right after the end. */
  lemma InsertOne(table: Table, log: seq<Event>, e: Event)
    requires Holds(table, log) && 1 <= e.seqNo <= |log| + 1
    ensures Holds(table[e.seqNo := e], if e.seqNo <= |log| then log[e.seqNo - 1 := e] else log + [e])
  {
  }

  /** Inserting the event at b of a log whose first n events are held, none of them skipped: once more, or the next. */
  lemma InsertNext(table: Table, log: seq<Event>, n: nat, b: nat)
    requires NumberedLog(log) && b < |log| && b <= n <= |log| && Holds(table, log[..n])
    ensures Holds(table[log[b].seqNo := log[b]], log[..if b + 1 > n then b + 1 else n])
  {
    hide Holds;
    InsertOne(table, log[..n], log[b]);
    if b < n {
      assert log[..n][b := log[b]] == log[..n];
    } else {
      assert log[..n] + [log[b]] == log[..b + 1];
    }
  }

  /** Writing log[a..b] into a table that holds log[..d], with a <= d, skips nothing. */
  lemma {:induction false} InsertSuffix(table: Table, log: seq<Event>, d: nat, a: nat, b: nat)
    requires NumberedLog(log) && a <= d <= |log| && a <= b <= |log| && Holds(table, log[..d])
    ensures Holds(Inserted(table, log[a..b]), log[..if b > d then b else d])
    decreases b
  {
    hide Holds, NumberedLog;
    if a == b {
      assert log[a..b] == [];
    } else {
      var events := log[a..b];
      assert events[..|events| - 1] == log[a..b - 1] && events[|events| - 1] == log[b - 1];
      InsertSuffix(table, log, d, a, b - 1);
      InsertNext(Inserted(table, log[a..b - 1]), log, if b - 1 > d then b - 1 else d, b - 1);
    }
  }

  /** A log written over another one that is not empty: its events, and behind them those it does not reach. */
  function Overlaid(prior: seq<Event>, renewed: seq<Event>): seq<Event> {
    if |renewed| < |prior| then renewed + prior[|renewed|..] else renewed
  }

  lemma {:induction false} InsertOver(table: Table, prior: seq<Event>, renewed: seq<Event>)
    requires Holds(table, prior) && NumberedLog(renewed)
    ensures Holds(Inserted(table, renewed), Overlaid(prior, renewed))
  {
    if renewed == [] {
      assert Overlaid(prior, renewed) == prior;
    } else {
      var init, e := renewed[..|renewed| - 1], renewed[|renewed| - 1];
      NumberedInit(renewed);
      hide Holds, NumberedLog, Overlaid;
      InsertOver(table, prior, init);
      OverlayOne(prior, init, e);
      InsertOne(Inserted(table, init), Overlaid(prior, init), e);
    }
  }

  lemma OverlayOne(prior: seq<Event>, init: seq<Event>, e: Event)
    requires e.seqNo == |init| + 1
    ensures var log := Overlaid(prior, init);
            && e.seqNo <= |log| + 1
            && Overlaid(prior, init + [e]) == if e.seqNo <= |log| then log[e.seqNo - 1 := e] else log + [e]
  {
  }

  // ------------------------------------------------------------------ the backend

  class SqliteSessionPersistence {
    var events: Table
    var header: Option<Header>
    /** Watermarks by identity of the live session object. */
    var persistedSeq: map<int, int>

    constructor ()
      ensures events == map[] && header == None && persistedSeq == map[]
    {
      events, header, persistedSeq := map[], None, map[];
    }

    /** One transaction: the header row, then every unsaved event. The watermark returned is
        what was written, not where the session has got to since. */
    method WriteUnsaved(owner: int, meta: Header, log: seq<Event>) returns (written: int)
      modifies this`events, this`header
      ensures var from := if owner in persistedSeq then persistedSeq[owner] else 0;
              events == Inserted(old(events), Unsaved(log, from)) &&
              written == WrittenUpTo(Unsaved(log, from), from)
      ensures header == Some(meta)
    {
      var from := if owner in persistedSeq then persistedSeq[owner] else 0;
      var unsaved := Unsaved(log, from);
      written := if unsaved != [] then unsaved[|unsaved| - 1].seqNo else from;
      header := Some(meta);
      for i := 0 to |unsaved|
        invariant events == Inserted(old(events), unsaved[..i]) && header == Some(meta)
      {
        assert unsaved[..i + 1][..i] == unsaved[..i];
        events := events[unsaved[i].seqNo := unsaved[i]];
      }
      assert unsaved[..|unsaved|] == unsaved;
    }

    /** A whole flush with nothing in between. */
    method Flush(owner: int, meta: Header, log: seq<Event>, ghost d: nat)
      requires NumberedLog(log) && d <= |log| && Holds(events, log[..d])
      requires owner in persistedSeq ==> 0 <= persistedSeq[owner] <= d
      modifies this
      ensures Holds(events, log)
      ensures persistedSeq == old(persistedSeq)[owner := |log|]
    {
      hide Inserted, Holds, NumberedLog, Unsaved;
      ghost var from: nat := if owner in persistedSeq then persistedSeq[owner] else 0;
      UnsavedIsSuffix(log, from);
      InsertSuffix(events, log, d, from, |log|);
      assert log[from..|log|] == log[from..] && log[..|log|] == log;
      var written := WriteUnsaved(owner, meta, log);
      persistedSeq := persistedSeq[owner := written];
    }
  }

  // ----------------------------------------------------------- the whole protocol

  /** A flush that holds the lock: what it captured when it began, and whether its transaction
      has committed. */
  datatype Flight = Flight(unsaved: seq<Event>, upTo: int, began: nat, committed: bool, owner: Option<nat>)

  datatype Phase = Taken | Flushing | Flushed

  /** A checkpoint on its way to the table: the events its rows were folded from. */
  datatype Task = Task(evidence: seq<Event>, phase: Phase)

  datatype World = World(
    live: seq<Event>,
    table: Table,
    watermark: int,
    flight: Option<Flight>,
    tasks: map<nat, Task>,
    stored: Option<seq<Event>>,
    acknowledged: nat)

  const START := World([], map[], 0, None, map[], None, 0)

  datatype Step =
    | Append(e: Event)
    | Begin(owner: Option<nat>)
    | CommitFlush
    | Acknowledge
    | LoseAcknowledgement
    | Take(task: nat)
    | TakeCold(task: nat)
    | Put(task: nat)
    | PutUnflushed(task: nat)
    | Drop(task: nat)
    | Crash
    | Recreate

  /** One step of the system, from w to w'. */
  ghost predicate Next(w: World, step: Step, w': World) {
    match step
    case Append(e) =>
      w' == w.(live := w.live + [e.(seqNo := |w.live| + 1)])
    case Begin(owner) =>
      // The lock is free; a checkpoint's own flush begins after its rows were taken.
      && w.flight.None?
      && (owner.Some? ==> owner.value in w.tasks && w.tasks[owner.value].phase.Taken?)
      && var unsaved := Unsaved(w.live, w.watermark);
         w' == w.(flight := Some(Flight(unsaved, WrittenUpTo(unsaved, w.watermark), |w.live|, false, owner)),
                  tasks := if owner.Some? then w.tasks[owner.value := w.tasks[owner.value].(phase := Flushing)]
                           else w.tasks)
    case CommitFlush =>
      && w.flight.Some? && !w.flight.value.committed
      && w' == w.(table := Inserted(w.table, w.flight.value.unsaved),
                  flight := Some(w.flight.value.(committed := true)))
    case Acknowledge =>
      && w.flight.Some? && w.flight.value.committed
      && var f := w.flight.value;
         w' == w.(flight := None, watermark := f.upTo,
                  acknowledged := if f.began > w.acknowledged then f.began else w.acknowledged,
                  tasks := if f.owner.Some? && f.owner.value in w.tasks
                           then w.tasks[f.owner.value := w.tasks[f.owner.value].(phase := Flushed)] else w.tasks)
    case LoseAcknowledgement =>
      // The transaction failed, or committed and the caller never heard: the watermark stays
      // and a checkpoint waiting for it gives up.
      && w.flight.Some?
      && var owner := w.flight.value.owner;
         w' == w.(flight := None, tasks := if owner.Some? then w.tasks - {owner.value} else w.tasks)
    case Take(task) =>
      task !in w.tasks && w' == w.(tasks := w.tasks[task := Task(w.live, Taken)])
    case TakeCold(task) =>
      // A cold read folded the durable log and is about to write its rows back.
      && task !in w.tasks
      && exists log :: Holds(w.table, log) && w' == w.(tasks := w.tasks[task := Task(log, Flushed)])
    case Put(task) =>
      && task in w.tasks && w.tasks[task].phase.Flushed?
      && w' == w.(stored := Some(w.tasks[task].evidence), tasks := w.tasks - {task})
    case PutUnflushed(task) =>
      // The session has left the store, or no backend is attached: the rows are stored without a flush.
      && task in w.tasks && w.tasks[task].phase.Taken?
      && w' == w.(stored := Some(w.tasks[task].evidence), tasks := w.tasks - {task})
    case Drop(task) =>
      && task in w.tasks && (w.flight.Some? ==> w.flight.value.owner != Some(task))
      && w' == w.(tasks := w.tasks - {task})
    case Crash =>
      // Memory is gone; the session is loaded again as a new object.
      && Holds(w.table, w'.live)
      && w' == w.(live := w'.live, watermark := 0, flight := None, tasks := map[])
    case Recreate =>
      // Memory is gone; a new session is created under the same id, and nothing looks at what is stored.
      w' == w.(live := [], watermark := 0, flight := None, tasks := map[])
  }

  /** What can be checked before a step: rows of an unflushed checkpoint were folded from events the durable log
      holds, and a session is created only under an id nothing is stored for. */
  ghost predicate Covered(w: World, step: Step) {
    && (step.PutUnflushed? && step.task in w.tasks ==>
          exists log :: Holds(w.table, log) && w.tasks[step.task].evidence <= log)
    && (step.Recreate? ==> w.table == map[])
  }

  ghost predicate FlightOk(w: World, d: nat)
    requires d <= |w.live|
  {
    w.flight.Some? ==>
      var f := w.flight.value;
      && 0 <= w.watermark <= f.upTo == f.began <= |w.live|
      && f.unsaved == w.live[w.watermark..f.upTo]
      && (f.committed ==> f.upTo <= d)
      && (f.owner.Some? ==> f.owner.value in w.tasks && w.tasks[f.owner.value].phase.Flushing?)
  }

  ghost predicate TaskOk(w: World, d: nat, t: nat) {
    t in w.tasks ==>
      && w.tasks[t].evidence <= w.live
      && (w.tasks[t].phase.Flushed? ==> |w.tasks[t].evidence| <= d)
      && (w.tasks[t].phase.Flushing? ==>
            w.flight.Some? && w.flight.value.owner == Some(t) && |w.tasks[t].evidence| <= w.flight.value.began)
  }

  /** The durable log is the first d events of the live one, the watermark and every
      acknowledged flush lie within it, and no stored or flushed row was folded from more. */
  ghost predicate SafeAt(w: World, d: nat) {
    && NumberedLog(w.live) && d <= |w.live|
    && Holds(w.table, w.live[..d])
    && 0 <= w.watermark <= d && w.acknowledged <= d
    && FlightOk(w, d)
    && (forall t: nat :: TaskOk(w, d, t))
    && (w.stored.Some? ==> w.stored.value <= w.live[..d])
  }

  ghost predicate Safe(w: World) {
    exists d: nat :: SafeAt(w, d)
  }

  lemma HoldsUnique(table: Table, a: seq<Event>, b: seq<Event>)
    requires Holds(table, a) && Holds(table, b)
    ensures a == b
  {
    assert |a| > 0 ==> |a| in table;
    assert |b| > 0 ==> |b| in table;
    forall i | 0 <= i < |a|
      ensures a[i] == b[i]
    {
      assert table[i + 1] == a[i];
    }
  }

  lemma AppendSafe(w: World, e: Event, w': World, d: nat)
    requires SafeAt(w, d) && Next(w, Append(e), w')
    ensures SafeAt(w', d)
  {
    hide Holds;
    assert w'.live[..d] == w.live[..d];
    forall t: nat
      ensures TaskOk(w', d, t)
    {
      assert TaskOk(w, d, t);
    }
  }

  lemma BeginSafe(w: World, owner: Option<nat>, w': World, d: nat)
    requires SafeAt(w, d) && Next(w, Begin(owner), w')
    ensures SafeAt(w', d)
  {
    hide Holds, NumberedLog, Unsaved;
    UnsavedIsSuffix(w.live, w.watermark);
    assert w.live[w.watermark..|w.live|] == w.live[w.watermark..];
    forall t: nat
      ensures TaskOk(w', d, t)
    {
      assert TaskOk(w, d, t);
    }
  }

  lemma CommitSafe(w: World, w': World, d: nat) returns (d': nat)
    requires SafeAt(w, d) && Next(w, CommitFlush, w')
    ensures SafeAt(w', d') && d <= d'
  {
    var f := w.flight.value;
    d' := if f.upTo > d then f.upTo else d;
    InsertSuffix(w.table, w.live, d, w.watermark, f.upTo);
    forall t: nat
      ensures TaskOk(w', d', t)
    {
      assert TaskOk(w, d, t);
    }
    assert w.live[..d] <= w.live[..d'];
  }

  /** An acknowledged flush covers every event that was in the log when it began. */
  lemma AcknowledgeSafe(w: World, w': World, d: nat)
    requires SafeAt(w, d) && Next(w, Acknowledge, w')
    ensures SafeAt(w', d) && w.flight.value.began <= w'.acknowledged
  {
    hide Holds, NumberedLog;
    forall t: nat
      ensures TaskOk(w', d, t)
    {
      assert TaskOk(w, d, t);
    }
  }

  lemma TaskStepSafe(w: World, step: Step, w': World, d: nat)
    requires SafeAt(w, d) && Next(w, step, w')
    requires step.LoseAcknowledgement? || step.Take? || step.Drop?
    ensures SafeAt(w', d)
  {
    hide Holds, NumberedLog;
    forall t: nat
      ensures TaskOk(w', d, t)
    {
      assert TaskOk(w, d, t);
    }
  }

  lemma TakeColdSafe(w: World, task: nat, w': World, d: nat)
    requires SafeAt(w, d) && Next(w, TakeCold(task), w')
    ensures SafeAt(w', d)
  {
    hide NumberedLog, Holds;
    var log :| Holds(w.table, log) && w' == w.(tasks := w.tasks[task := Task(log, Flushed)]);
    HoldsUnique(w.table, log, w.live[..d]);
    forall t: nat
      ensures TaskOk(w', d, t)
    {
      assert TaskOk(w, d, t);
    }
  }

  lemma PutSafe(w: World, task: nat, w': World, d: nat)
    requires SafeAt(w, d) && Next(w, Put(task), w')
    ensures SafeAt(w', d)
  {
    hide NumberedLog, Holds;
    assert TaskOk(w, d, task);
    forall t: nat
      ensures TaskOk(w', d, t)
    {
      assert TaskOk(w, d, t);
    }
  }

  lemma CrashSafe(w: World, w': World, d: nat)
    requires SafeAt(w, d) && Next(w, Crash, w')
    ensures SafeAt(w', d) && w'.live == w.live[..d]
  {
    HoldsUnique(w.table, w'.live, w.live[..d]);
    assert w'.live[..d] == w'.live;
  }

  /** A checkpoint that skips its flush keeps the protocol safe exactly when the durable log already holds what its
      rows were folded from. */
  lemma UnflushedExactly(w: World, task: nat, w': World)
    requires Safe(w) && Next(w, PutUnflushed(task), w')
    ensures Safe(w') <==> Covered(w, PutUnflushed(task))
  {
    var d: nat :| SafeAt(w, d);
    var evidence := w.tasks[task].evidence;
    if Covered(w, PutUnflushed(task)) {
      var log :| Holds(w.table, log) && evidence <= log;
      HoldsUnique(w.table, log, w.live[..d]);
      hide Holds, NumberedLog;
      forall t: nat
        ensures TaskOk(w', d, t)
      {
        assert TaskOk(w, d, t);
      }
      assert SafeAt(w', d);
    }
    if Safe(w') {
      var d': nat :| SafeAt(w', d');
      assert Holds(w.table, w.live[..d']) && evidence <= w.live[..d'];
    }
  }

  /** Creating a session under an id that was used before keeps the protocol safe exactly when nothing is stored
      for it. */
  lemma RecreatedExactly(w: World, w': World)
    requires Safe(w) && Next(w, Recreate, w')
    ensures Safe(w') <==> w.table == map[]
  {
    var d: nat :| SafeAt(w, d);
    if w.table == map[] {
      assert d > 0 ==> d in w.table;
      assert SafeAt(w', 0);
    }
    if Safe(w') {
      assert Holds(w.table, []);
      assert forall k :: k !in w.table;
    }
  }

  lemma StepSafe(w: World, step: Step, w': World)
    requires Safe(w) && Next(w, step, w') && Covered(w, step)
    ensures Safe(w')
  {
    var d: nat :| SafeAt(w, d);
    hide Next, SafeAt, Covered;
    match step {
      case PutUnflushed(task) => UnflushedExactly(w, task, w');
      case Recreate => Recreating(w, w');
      case Append(e) => AppendSafe(w, e, w', d);
      case Begin(owner) => BeginSafe(w, owner, w', d);
      case CommitFlush => var d' := CommitSafe(w, w', d);
      case Acknowledge => AcknowledgeSafe(w, w', d);
      case Crash => CrashSafe(w, w', d);
      case TakeCold(task) => TakeColdSafe(w, task, w', d);
      case Put(task) => PutSafe(w, task, w', d);
      case _ => TaskStepSafe(w, step, w', d);
    }
  }

  lemma Recreating(w: World, w': World)
    requires Safe(w) && Next(w, Recreate, w') && Covered(w, Recreate)
    ensures Safe(w')
  {
    RecreatedExactly(w, w');
  }

  /** Worlds joined by steps. */
  ghost predicate IsChain(worlds: seq<World>, steps: seq<Step>) {
    |worlds| == |steps| + 1 && forall i :: 0 <= i < |steps| ==> Next(worlds[i], steps[i], worlds[i + 1])
  }

  /** A run from the empty start in which rows stored without a flush are covered and sessions are created only
      where nothing is stored. */
  ghost predicate IsRun(worlds: seq<World>, steps: seq<Step>) {
    && IsChain(worlds, steps) && worlds[0] == START
    && (forall i :: 0 <= i < |steps| ==> Covered(worlds[i], steps[i]))
  }

  /** Safety over every run. */
  lemma {:induction false} EveryRunSafe(worlds: seq<World>, steps: seq<Step>, n: nat)
    requires IsRun(worlds, steps) && n < |worlds|
    ensures Safe(worlds[n])
  {
    if n == 0 {
      assert SafeAt(START, 0);
    } else {
      EveryRunSafe(worlds, steps, n - 1);
      StepSafe(worlds[n - 1], steps[n - 1], worlds[n]);
    }
  }

  /** The invariant holds all along if and only if every step was covered. */
  lemma SafeExactly(worlds: seq<World>, steps: seq<Step>)
    requires IsChain(worlds, steps) && worlds[0] == START
    ensures (forall n :: 0 <= n < |worlds| ==> Safe(worlds[n])) <==> IsRun(worlds, steps)
  {
    hide Next, Safe;
    if IsRun(worlds, steps) {
      forall n | 0 <= n < |worlds|
        ensures Safe(worlds[n])
      {
        EveryRunSafe(worlds, steps, n);
      }
    } else {
      var i :| 0 <= i < |steps| && !Covered(worlds[i], steps[i]);
      if Safe(worlds[i]) && Safe(worlds[i + 1]) {
        UncoveredIsUnsafe(worlds[i], steps[i], worlds[i + 1]);
      }
    }
  }

  lemma UncoveredIsUnsafe(w: World, step: Step, w': World)
    requires Safe(w) && Next(w, step, w') && !Covered(w, step)
    ensures !Safe(w')
  {
    hide Next, Safe;
    if step.Recreate? {
      RecreatedExactly(w, w');
    } else {
      UnflushedExactly(w, step.task, w');
    }
  }

  /** What safety says to a reader: the durable log is a prefix of the live log with nothing
      skipped, every acknowledged flush is inside it, and stored rows never lead it. */
  lemma SafetyMeans(w: World)
    requires Safe(w)
    ensures exists log :: Holds(w.table, log) && log <= w.live && w.acknowledged <= |log| &&
                          (w.stored.Some? ==> w.stored.value <= log)
  {
    var d: nat :| SafeAt(w, d);
    assert Holds(w.table, w.live[..d]) && w.live[..d] <= w.live;
  }

  /** In every reachable world a cold read from the stored rows is served by its first read:
      the rows are true of the durable log and none of them leads it. */
  lemma StoredRowsServeColdReads<S, V>(
    worlds: seq<World>, steps: seq<Step>, n: nat, units: seq<Unit<S, V>>, rows: Rows<S>, log: seq<Event>)
    requires IsRun(worlds, steps) && n < |worlds| && worlds[n].stored.Some?
    requires RowsOf(units, worlds[n].stored.value, rows) && Holds(worlds[n].table, log)
    ensures RowsTrue(units, rows, log)
    ensures forall i :: 0 <= i < |units| ==> !Leads(units[i], rows, log)
  {
    EveryRunSafe(worlds, steps, n);
    SafetyMeans(worlds[n]);
    var evidence := worlds[n].stored.value;
    var durable :| Holds(worlds[n].table, durable) && evidence <= durable;
    HoldsUnique(worlds[n].table, durable, log);
    hide Holds, Next, IsRun, Safe;
    assert PrefixTo(log, |evidence|) == evidence;
  }

  // ------------------------------------------------------------------ a session that left the store

  /** The steps lead from w to w'. */
  ghost predicate Reaches(w: World, steps: seq<Step>, w': World) {
    exists worlds :: IsChain(worlds, steps) && worlds[0] == w && worlds[|steps|] == w'
  }

  lemma ReachesItself(w: World)
    ensures Reaches(w, [], w)
  {
    assert IsChain([w], []);
  }

  lemma ReachesOn(w: World, steps: seq<Step>, mid: World, step: Step, w': World)
    requires Reaches(w, steps, mid) && Next(mid, step, w')
    ensures Reaches(w, steps + [step], w')
  {
    hide Next;
    var worlds :| IsChain(worlds, steps) && worlds[0] == w && worlds[|steps|] == mid;
    assert IsChain(worlds + [w'], steps + [step]);
  }

  lemma ThenAppend(w: World, steps: seq<Step>, mid: World, e: Event) returns (w': World)
    requires Reaches(w, steps, mid) && e.seqNo == |mid.live| + 1
    ensures Reaches(w, steps + [Append(e)], w') && w' == mid.(live := mid.live + [e])
  {
    w' := mid.(live := mid.live + [e]);
    hide Reaches;
    ReachesOn(w, steps, mid, Append(e), w');
  }

  lemma ThenTake(w: World, steps: seq<Step>, mid: World) returns (w': World)
    requires Reaches(w, steps, mid) && mid.tasks == map[]
    ensures Reaches(w, steps + [Take(0)], w') && w' == mid.(tasks := map[0 := Task(mid.live, Taken)])
  {
    w' := mid.(tasks := map[0 := Task(mid.live, Taken)]);
    hide Reaches;
    ReachesOn(w, steps, mid, Take(0), w');
  }

  lemma ThenStoreUnflushed(w: World, steps: seq<Step>, mid: World, evidence: seq<Event>) returns (w': World)
    requires Reaches(w, steps, mid) && mid.tasks == map[0 := Task(evidence, Taken)]
    ensures Reaches(w, steps + [PutUnflushed(0)], w') && w' == mid.(stored := Some(evidence), tasks := map[])
  {
    w' := mid.(stored := Some(evidence), tasks := map[]);
    assert mid.tasks - {0} == map[];
    hide Reaches;
    ReachesOn(w, steps, mid, PutUnflushed(0), w');
  }

  lemma ThenStore(w: World, steps: seq<Step>, mid: World, evidence: seq<Event>) returns (w': World)
    requires Reaches(w, steps, mid) && mid.tasks == map[0 := Task(evidence, Flushed)]
    ensures Reaches(w, steps + [Put(0)], w') && w' == mid.(stored := Some(evidence), tasks := map[])
  {
    w' := mid.(stored := Some(evidence), tasks := map[]);
    assert mid.tasks - {0} == map[];
    hide Reaches;
    ReachesOn(w, steps, mid, Put(0), w');
  }

  /** A flush of everything with nothing in between, a checkpoint's own when `owner` names it. */
  lemma ThenFlush(w: World, steps: seq<Step>, mid: World, owner: Option<nat>) returns (w': World)
    requires Reaches(w, steps, mid) && NumberedLog(mid.live) && mid.watermark == 0 && mid.flight.None?
    requires owner.Some? ==> mid.tasks == map[owner.value := Task(mid.live, Taken)]
    ensures Reaches(w, steps + [Begin(owner)] + [CommitFlush] + [Acknowledge], w')
    ensures w' == mid.(table := Inserted(mid.table, mid.live), watermark := |mid.live|,
                       acknowledged := Max(|mid.live|, mid.acknowledged),
                       tasks := if owner.Some? then map[owner.value := Task(mid.live, Flushed)] else mid.tasks)
  {
    hide Reaches, Next, NumberedLog, Inserted;
    var w1 := FlushBegins(mid, owner);
    var w2 := w1.(table := Inserted(mid.table, mid.live), flight := Some(w1.flight.value.(committed := true)));
    FlushCommits(w1, w2);
    w' := FlushEnds(w2, mid.tasks);
    ReachesOn(w, steps, mid, Begin(owner), w1);
    ReachesOn(w, steps + [Begin(owner)], w1, CommitFlush, w2);
    ReachesOn(w, steps + [Begin(owner)] + [CommitFlush], w2, Acknowledge, w');
  }

  lemma FlushBegins(mid: World, owner: Option<nat>) returns (w: World)
    requires NumberedLog(mid.live) && mid.watermark == 0 && mid.flight.None?
    requires owner.Some? ==> mid.tasks == map[owner.value := Task(mid.live, Taken)]
    ensures Next(mid, Begin(owner), w)
    ensures w == mid.(flight := Some(Flight(mid.live, |mid.live|, |mid.live|, false, owner)),
                      tasks := if owner.Some? then map[owner.value := Task(mid.live, Flushing)] else mid.tasks)
  {
    hide NumberedLog;
    UnsavedIsSuffix(mid.live, 0);
    assert mid.live[0..] == mid.live;
    w := mid.(flight := Some(Flight(mid.live, |mid.live|, |mid.live|, false, owner)),
              tasks := if owner.Some? then map[owner.value := Task(mid.live, Flushing)] else mid.tasks);
  }

  lemma FlushCommits(w: World, w': World)
    requires w.flight.Some? && !w.flight.value.committed
    requires w' == w.(table := Inserted(w.table, w.flight.value.unsaved),
                      flight := Some(w.flight.value.(committed := true)))
    ensures Next(w, CommitFlush, w')
  {
  }

  lemma FlushEnds(w: World, tasks: map<nat, Task>) returns (w': World)
    requires w.flight.Some? && w.flight.value.committed && w.flight.value.upTo == w.flight.value.began == |w.live|
    requires var owner := w.flight.value.owner;
             w.tasks == if owner.Some? then map[owner.value := Task(w.live, Flushing)] else tasks
    ensures Next(w, Acknowledge, w')
    ensures var owner := w.flight.value.owner;
            w' == w.(flight := None, watermark := |w.live|, acknowledged := Max(|w.live|, w.acknowledged),
                     tasks := if owner.Some? then map[owner.value := Task(w.live, Flushed)] else tasks)
  {
    var owner := w.flight.value.owner;
    w' := w.(flight := None, watermark := |w.live|, acknowledged := Max(|w.live|, w.acknowledged),
             tasks := if owner.Some? then map[owner.value := Task(w.live, Flushed)] else tasks);
    if owner.Some? {
      assert w.tasks[owner.value := w.tasks[owner.value].(phase := Flushed)] ==
             map[owner.value := Task(w.live, Flushed)];
    }
  }

  /** A process that restarts, by loading the session or by creating it again, appends one event and flushes it. */
  lemma OneFlushed(w: World, restart: Step, f: Event) returns (w': World)
    requires f.seqNo == 1 && (restart.Recreate? || (restart.Crash? && w.table == map[]))
    ensures Reaches(w, [restart, Append(f), Begin(None), CommitFlush, Acknowledge], w')
    ensures w' == World([f], Inserted(w.table, [f]), 1, None, map[], w.stored, Max(1, w.acknowledged))
  {
    hide Reaches, Next, Inserted, NumberedLog;
    var v := RestartsEmpty(w, restart);
    var v1 := ThenAppend(w, [restart], v, f);
    assert v1.live == [f];
    OneNumbered(f);
    w' := ThenFlush(w, [restart] + [Append(f)], v1, None);
    FiveSteps(restart, Append(f), Begin(None), CommitFlush, Acknowledge);
  }

  lemma RestartsEmpty(w: World, restart: Step) returns (v: World)
    requires restart.Recreate? || (restart.Crash? && w.table == map[])
    ensures Reaches(w, [restart], v) && v == World([], w.table, 0, None, map[], w.stored, w.acknowledged)
  {
    v := World([], w.table, 0, None, map[], w.stored, w.acknowledged);
    assert Next(w, restart, v);
    hide Next, Reaches;
    ReachesItself(w);
    ReachesOn(w, [], w, restart, v);
    assert [] + [restart] == [restart];
  }

  lemma OneNumbered(f: Event)
    requires f.seqNo == 1
    ensures NumberedLog([f])
  {
  }

  lemma FiveSteps(a: Step, b: Step, c: Step, d: Step, e: Step)
    ensures [a] + [b] + [c] + [d] + [e] == [a, b, c, d, e]
  {
  }

  lemma StoredUnflushed(e: Event) returns (w: World)
    requires e.seqNo == 1
    ensures Reaches(START, [Append(e), Take(0), PutUnflushed(0)], w)
    ensures w == START.(live := [e], stored := Some([e]))
  {
    hide Reaches;
    ReachesItself(START);
    var none: seq<Step> := [];
    w := ThenAppend(START, none, START, e);
    assert w.live == [e];
    w := ThenTake(START, none + [Append(e)], w);
    w := ThenStoreUnflushed(START, none + [Append(e)] + [Take(0)], w, [e]);
    assert none + [Append(e)] + [Take(0)] + [PutUnflushed(0)] == [Append(e), Take(0), PutUnflushed(0)];
  }

  /** One event appended, a checkpoint taken, the session removed, its rows stored without a flush: they lead the
      durable log. The session is loaded again, another event appended and flushed: the rows no longer lead, and
      they are folds of an event the log never had. */
  lemma RemovedSessionStoresUntrueRows(e: Event, f: Event) returns (w: World, v: World)
    requires e != f && e.seqNo == 1 && f.seqNo == 1
    ensures Reaches(START, [Append(e), Take(0), PutUnflushed(0)], w)
    ensures Reaches(w, [Crash, Append(f), Begin(None), CommitFlush, Acknowledge], v)
    ensures w.stored == Some([e]) && Holds(w.table, []) && !Safe(w)
    ensures v.stored == Some([e]) && Holds(v.table, [f]) && !Safe(v)
  {
    hide Reaches;
    w := StoredUnflushed(e);
    v := OneFlushed(w, Crash, f);
    InsertOver(map[], [], [f]);
    NeverSafe(w, [], [e]);
    NeverSafe(v, [f], [e]);
  }

  lemma NeverSafe(w: World, log: seq<Event>, evidence: seq<Event>)
    requires Holds(w.table, log) && w.stored == Some(evidence) && !(evidence <= log)
    ensures !Safe(w)
  {
    if Safe(w) {
      var d: nat :| SafeAt(w, d);
      HoldsUnique(w.table, log, w.live[..d]);
    }
  }

  // ------------------------------------------------------------------ a session created again under its id

  /** A session created over a stored log, flushed with everything it has appended: its events stand in front of
      those of the stored log it has not reached. What is stored is a prefix of the session's log if and only if
      its log is by now at least as long as the stored one. */
  lemma RecreatedLogIsOverlaid(table: Table, prior: seq<Event>, renewed: seq<Event>)
    requires Holds(table, prior) && NumberedLog(renewed)
    ensures Holds(Inserted(table, Unsaved(renewed, 0)), Overlaid(prior, renewed))
    ensures Overlaid(prior, renewed) <= renewed <==> |prior| <= |renewed|
  {
    UnsavedIsSuffix(renewed, 0);
    assert renewed[0..] == renewed;
    InsertOver(table, prior, renewed);
  }

  lemma TwoStored(e1: Event, e2: Event) returns (w: World)
    requires e1.seqNo == 1 && e2.seqNo == 2
    ensures Reaches(START, [Append(e1), Append(e2), Take(0), Begin(Some(0)), CommitFlush, Acknowledge, Put(0)], w)
    ensures w == World([e1, e2], Inserted(map[], [e1, e2]), 2, None, map[], Some([e1, e2]), 2)
  {
    hide Reaches, Inserted;
    ReachesItself(START);
    var none: seq<Step> := [];
    w := ThenAppend(START, none, START, e1);
    w := ThenAppend(START, none + [Append(e1)], w, e2);
    assert w.live == [e1, e2];
    var taken := none + [Append(e1)] + [Append(e2)] + [Take(0)];
    w := ThenTake(START, none + [Append(e1)] + [Append(e2)], w);
    w := ThenFlush(START, taken, w, Some(0));
    w := ThenStore(START, taken + [Begin(Some(0))] + [CommitFlush] + [Acknowledge], w, [e1, e2]);
    assert taken + [Begin(Some(0))] + [CommitFlush] + [Acknowledge] + [Put(0)] ==
           [Append(e1), Append(e2), Take(0), Begin(Some(0)), CommitFlush, Acknowledge, Put(0)];
  }

  /** Two events appended and checkpointed; after a restart the session is created again under its id, one event
      appended and flushed. What is stored is a log no session ever had, and the stored rows are of neither. */
  lemma RecreatedSessionMixesLogs(e1: Event, e2: Event, f: Event) returns (w: World, v: World)
    requires e1 != f && e1.seqNo == 1 && e2.seqNo == 2 && f.seqNo == 1
    ensures Reaches(START, [Append(e1), Append(e2), Take(0), Begin(Some(0)), CommitFlush, Acknowledge, Put(0)], w)
    ensures Reaches(w, [Recreate, Append(f), Begin(None), CommitFlush, Acknowledge], v)
    ensures Safe(w) && Holds(w.table, [e1, e2]) && w.stored == Some([e1, e2])
    ensures v.live == [f] && Holds(v.table, [f, e2]) && v.stored == Some([e1, e2]) && !Safe(v)
  {
    hide Reaches, Next;
    w := TwoStored(e1, e2);
    v := OneFlushed(w, Recreate, f);
    EmptyHolds();
    InsertOver(map[], [], [e1, e2]);
    InsertOver(w.table, [e1, e2], [f]);
    assert [f] + [e1, e2][1..] == [f, e2];
    assert [e1, e2][..2] == [e1, e2];
    assert SafeAt(w, 2);
    NeverSafe(v, [f, e2], [e1, e2]);
  }

  lemma EmptyHolds()
    ensures Holds(map[], [])
  {
  }

  /** A unit that remembers what it has seen. */
  function Seen(): Unit<seq<Event>, seq<Event>> {
    Unit("seen", [], (s: seq<Event>, e: Event) => Some(s + [e]), (s: seq<Event>, e: Event) => false,
         (s: seq<Event>) => Some(s), 1)
  }

  lemma {:induction false} SeenSees(log: seq<Event>)
    ensures Fold(Seen(), log) == Some(log)
  {
    if log != [] {
      SeenSees(log[..|log| - 1]);
      assert log == log[..|log| - 1] + [log[|log| - 1]];
    }
  }

  /** The rows such a run leaves carry the identity of the new session too, unless its creator told the two apart
      by their creation times. They are served as current, and they are no fold of what is stored now. */
  lemma RowsOfTheOldSessionAreServed(id: string, cwd: string, before: Option<int>, now: Option<int>,
                                     e1: Event, e2: Event, f: Event)
    requires e1 != f
    ensures IdentityOf(NewHeader(id, before, cwd)) == IdentityOf(NewHeader(id, now, cwd)) <==>
            (if before.Some? then before.value else 0) == (if now.Some? then now.value else 0)
    ensures var u, rows := Seen(), map["seen" := Row(1, 2, [e1, e2])];
            && RowsOf([u], [e1, e2], rows)
            && ViewRows([u], rows) == Some(map["seen" := [e1, e2]])
            && !RowTrue(u, rows, [f, e2])
            && forall n :: 0 <= n <= 2 ==> ValueOf(u, [f, e2][..n]) != Some([e1, e2])
  {
    var u, rows := Seen(), map["seen" := Row(1, 2, [e1, e2])];
    SeenSees([e1, e2]);
    SeenSees([f, e2]);
    assert [u][..0] == [];
    forall n | 0 <= n <= 2
      ensures ValueOf(u, [f, e2][..n]) != Some([e1, e2])
    {
      SeenSees([f, e2][..n]);
      if n == 2 {
        assert [f, e2][..n][0] == f;
      }
    }
  }
}
