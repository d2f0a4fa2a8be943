/** Durable reminders: a fold over changes, and the runtime that delivers what is due
    (governance/schedule_domain.py, governance/schedule.py). Instants are in milliseconds. */
module Schedules {
  import opened Prelude

  const MIN_EVERY_SECONDS := 300
  const MAX_TIMER_MS := 300 * 1000
  /** The first and the last instant of a four-digit year. */
  const MIN_INSTANT := -62135596800000
  const MAX_INSTANT := 253402300799000

  datatype Kind = At | After | Every

  /** `every` is the period in seconds of a repeating reminder. */
  datatype Record = Record(id: nat, kind: Kind, prompt: string, scheduledAt: int, every: Option<int>)

  datatype Change =
    | Created(record: Record)
    | Deleted(id: nat)
    | Fired(id: nat, firedAt: int, nextAt: Option<int>)

  datatype ScheduleError = InvalidPrompt | InvalidRule | FrequencyTooHigh

  datatype LogEvent = ChangeEvent(change: Change) | ReminderEvent(text: string, late: int) | OtherEvent

  // ------------------------------------------------------------------ making and reading records

  function TrimLeft(s: string): (t: string)
    ensures t == [] || !IsSpace(t[0] as int)
    ensures |t| <= |s| && t == s[|s| - |t|..]
  {
    if s == [] then s else if IsSpace(s[0] as int) then TrimLeft(s[1..]) else s
  }

  function TrimRight(s: string): (t: string)
    ensures t == [] || !IsSpace(t[|t| - 1] as int)
    ensures |t| <= |s| && t == s[..|t|]
  {
    if s == [] then s else if IsSpace(s[|s| - 1] as int) then TrimRight(s[..|s| - 1]) else s
  }

  function Trim(s: string): string {
    TrimRight(TrimLeft(s))
  }

  lemma TrimTwice(s: string)
    ensures Trim(Trim(s)) == Trim(s)
  {
    var l := TrimLeft(s);
    var t := TrimRight(l);
    if t != [] {
      assert t[0] == l[0];
    }
  }

  predicate InRange(instant: int) {
    MIN_INSTANT <= instant <= MAX_INSTANT
  }

  function Making(id: nat, kind: Kind, prompt: string, target: int, now: int,
                  every: Option<int>): Result<Record, ScheduleError> {
    if Trim(prompt) == "" then Err(InvalidPrompt)
    else if !InRange(target) || target <= now then Err(InvalidRule)
    else Ok(Record(id, kind, Trim(prompt), target, every))
  }

  /** The first rule given, in the order of the cases, decides. */
  datatype Rule = Rule(every: Option<int>, after: Option<int>, at: Option<int>)

  function RecordFor(id: nat, prompt: string, rule: Rule, now: int): Result<Record, ScheduleError> {
    if rule.every.Some? then
      if rule.every.value < MIN_EVERY_SECONDS then Err(FrequencyTooHigh)
      else Making(id, Every, prompt, now + rule.every.value * 1000, now, rule.every)
    else if rule.after.Some? then
      if rule.after.value <= 0 then Err(InvalidRule)
      else Making(id, After, prompt, now + rule.after.value * 1000, now, None)
    else if rule.at.Some? then Making(id, At, prompt, rule.at.value, now, None)
    else Err(InvalidRule)
  }

  /** Validate a stored record. */
  function Decode(r: Record): Result<Record, ScheduleError> {
    if Trim(r.prompt) == "" then Err(InvalidPrompt)
    else if !InRange(r.scheduledAt) then Err(InvalidRule)
    else if r.kind.Every? && (r.every.None? || r.every.value < MIN_EVERY_SECONDS) then Err(FrequencyTooHigh)
    else if !r.kind.Every? && r.every.Some? then Err(InvalidRule)
    else Ok(r.(prompt := Trim(r.prompt)))
  }

  ghost predicate Trimmed(s: string) {
    s == "" || (!IsSpace(s[0] as int) && !IsSpace(s[|s| - 1] as int))
  }

  lemma TrimTrims(s: string)
    ensures Trimmed(Trim(s)) && Trim(s) <= TrimLeft(s) && TrimLeft(s) == s[|s| - |TrimLeft(s)|..]
    ensures Trim(s) == "" <==> forall i :: 0 <= i < |s| ==> IsSpace(s[i] as int)
  {
    hide IsSpace;
    TrimLeftOnlySpace(s);
    TrimRightOnlySpace(TrimLeft(s));
    var l := TrimLeft(s);
    var t := TrimRight(l);
    if t != [] {
      assert t[0] == l[0];
    }
    if l != [] {
      assert l[0] == s[|s| - |l|];
    }
  }

  lemma TrimLeftOnlySpace(s: string)
    ensures forall i :: 0 <= i < |s| - |TrimLeft(s)| ==> IsSpace(s[i] as int)
  {
    hide IsSpace;
    if s != [] && IsSpace(s[0] as int) {
      TrimLeftOnlySpace(s[1..]);
      forall i | 0 <= i < |s| - |TrimLeft(s)|
        ensures IsSpace(s[i] as int)
      {
        assert i > 0 ==> s[i] == s[1..][i - 1];
      }
    }
  }

  lemma TrimRightOnlySpace(s: string)
    ensures forall i :: |TrimRight(s)| <= i < |s| ==> IsSpace(s[i] as int)
  {
    hide IsSpace;
    if s != [] && IsSpace(s[|s| - 1] as int) {
      TrimRightOnlySpace(s[..|s| - 1]);
      assert forall i :: 0 <= i < |s| - 1 ==> s[i] == s[..|s| - 1][i];
    }
  }

  /** A stored record is read exactly when it says something, its target can be written down and it repeats exactly
      if it is of the kind that does, no more often than is allowed; only white space around its text is dropped. */
  lemma ReadsExactly(r: Record)
    ensures Decode(r).Ok? <==>
              && (exists i :: 0 <= i < |r.prompt| && !IsSpace(r.prompt[i] as int)) && InRange(r.scheduledAt)
              && (r.kind.Every? <==> r.every.Some?) && (r.every.Some? ==> r.every.value >= MIN_EVERY_SECONDS)
    ensures Decode(r).Ok? ==> Trimmed(Decode(r).value.prompt) && Decode(r).value == r.(prompt := Trim(r.prompt))
  {
    hide Trim, IsSpace, InRange;
    TrimTrims(r.prompt);
  }

  /** What creating accepts, reading accepts, unchanged. */
  lemma MadeIsDecodable(id: nat, prompt: string, rule: Rule, now: int)
    ensures var r := RecordFor(id, prompt, rule, now);
            r.Ok? ==> Decode(r.value) == Ok(r.value) && r.value.id == id && r.value.scheduledAt > now
  {
    hide Trim;
    TrimTwice(prompt);
  }

  // ------------------------------------------------------------------ the fold

  type Active = map<nat, Record>

  function ChangeStep(active: Active, c: Change): Result<Active, ScheduleError> {
    match c
    case Created(record) =>
      var r := Decode(record);
      if r.Err? then Err(r.error) else Ok(active[record.id := r.value])
    case Deleted(id) => Ok(active - {id})
    case Fired(id, _, nextAt) =>
      if id !in active then Ok(active)
      else if nextAt.None? then Ok(active - {id})
      else Ok(active[id := active[id].(scheduledAt := nextAt.value)])
  }

  function EventStep(active: Active, e: LogEvent): Result<Active, ScheduleError> {
    if e.ChangeEvent? then ChangeStep(active, e.change) else Ok(active)
  }

  function Folded(log: seq<LogEvent>): Result<Active, ScheduleError> {
    if log == [] then Ok(map[])
    else
      var before := Folded(log[..|log| - 1]);
      if before.Err? then before else EventStep(before.value, log[|log| - 1])
  }

  lemma FoldedSnoc(log: seq<LogEvent>, e: LogEvent)
    ensures Folded(log + [e]) == var before := Folded(log); if before.Err? then before else EventStep(before.value, e)
  {
    assert (log + [e])[..|log|] == log;
  }

  predicate Earlier(a: Record, b: Record) {
    a.scheduledAt < b.scheduledAt || (a.scheduledAt == b.scheduledAt && a.id <= b.id)
  }

  /** Soonest first, and of one target the lower id first. */
  ghost predicate InOrder(records: seq<Record>) {
    forall i, j :: 0 <= i < j < |records| ==>
      records[i].scheduledAt < records[j].scheduledAt
      || (records[i].scheduledAt == records[j].scheduledAt && records[i].id <= records[j].id)
  }

  ghost predicate Listed(records: seq<Record>, active: Active, now: int, overdue: bool) {
    && InOrder(records)
    && DistinctIds(records)
    && (forall r :: r in records ==> r.id in active && active[r.id] == r && (r.scheduledAt <= now <==> overdue))
    && (forall id :: id in active && (active[id].scheduledAt <= now <==> overdue) ==> active[id] in records)
  }

  ghost predicate Keyed(active: Active) {
    forall id :: id in active ==> active[id].id == id
  }

  /** Replay the changes, then split the schedules by their target, soonest first. */
  method FoldSchedules(log: seq<LogEvent>, now: int)
    returns (r: Result<(seq<Record>, seq<Record>), ScheduleError>)
    ensures r.Ok? <==> Folded(log).Ok?
    ensures r.Ok? ==>
              Listed(r.value.0, Folded(log).value, now, false) && Listed(r.value.1, Folded(log).value, now, true)
  {
    hide EventStep, Listed;
    var active: Active := map[];
    for i := 0 to |log|
      invariant Folded(log[..i]) == Ok(active)
    {
      assert log[..i + 1] == log[..i] + [log[i]];
      FoldedSnoc(log[..i], log[i]);
      var next := EventStep(active, log[i]);
      if next.Err? {
        StaysBroken(log, i + 1);
        return Err(next.error);
      }
      active := next.value;
    }
    assert log[..|log|] == log;
    FoldedKeyed(log);
    var later := Select(active, now, false);
    var overdue := Select(active, now, true);
    return Ok((later, overdue));
  }

  lemma {:induction false} StaysBroken(log: seq<LogEvent>, n: nat)
    requires n <= |log| && Folded(log[..n]).Err?
    ensures Folded(log).Err?
    decreases |log|
  {
    if n == |log| {
      assert log[..n] == log;
    } else {
      assert log[..|log| - 1][..n] == log[..n];
      StaysBroken(log[..|log| - 1], n);
    }
  }

  /** The overdue, or the others, in order of target and then id. */
  method Select(active: Active, now: int, overdue: bool) returns (records: seq<Record>)
    requires Keyed(active)
    ensures Listed(records, active, now, overdue)
  {
    hide Picked, Listed, Keyed, Earlier;
    records := [];
    var rest := set id | id in active && (active[id].scheduledAt <= now <==> overdue);
    NonePicked(rest, active, now, overdue);
    while rest != {}
      invariant Picked(records, rest, active, now, overdue)
    {
      SoonestPicked(records, rest, active, now, overdue);
      var id :| id in rest && forall j :: j in rest ==> Earlier(active[id], active[j]);
      PickOne(records, rest, active, now, overdue, id);
      records := records + [active[id]];
      rest := rest - {id};
    }
    AllPicked(records, active, now, overdue);
  }

  /** Some of the wanted records are picked, in order, and the ids in `rest` are still to come. */
  ghost predicate Picked(records: seq<Record>, rest: set<nat>, active: Active, now: int, overdue: bool) {
    && (forall id :: id in rest ==> id in active && (active[id].scheduledAt <= now <==> overdue))
    && (forall r :: r in records ==>
          r.id in active && active[r.id] == r && r.id !in rest && (r.scheduledAt <= now <==> overdue))
    && (forall id :: id in active && (active[id].scheduledAt <= now <==> overdue) ==>
          id in rest || active[id] in records)
    && DistinctIds(records)
    && InOrder(records) && (forall r, id :: r in records && id in rest ==> Earlier(r, active[id]))
  }

  ghost predicate DistinctIds(records: seq<Record>) {
    forall i, j :: 0 <= i < j < |records| ==> records[i].id != records[j].id
  }

  lemma NonePicked(rest: set<nat>, active: Active, now: int, overdue: bool)
    requires forall id :: id in rest <==> id in active && (active[id].scheduledAt <= now <==> overdue)
    ensures Picked([], rest, active, now, overdue)
  {
  }

  lemma AllPicked(records: seq<Record>, active: Active, now: int, overdue: bool)
    requires Picked(records, {}, active, now, overdue)
    ensures Listed(records, active, now, overdue)
  {
    hide Earlier, InOrder;
  }

  lemma SoonestPicked(records: seq<Record>, rest: set<nat>, active: Active, now: int, overdue: bool)
    requires Keyed(active) && Picked(records, rest, active, now, overdue) && rest != {}
    ensures forall id :: id in rest ==> id in active
    ensures exists id :: id in rest && forall j :: j in rest ==> Earlier(active[id], active[j])
  {
    hide InOrder, Earlier, DistinctIds;
    Soonest(active, rest);
  }

  lemma PickOne(records: seq<Record>, rest: set<nat>, active: Active, now: int, overdue: bool, id: nat)
    requires Keyed(active) && Picked(records, rest, active, now, overdue) && id in rest && id in active
    requires forall j :: j in rest ==> j in active && Earlier(active[id], active[j])
    ensures Picked(records + [active[id]], rest - {id}, active, now, overdue)
  {
    hide Earlier, InOrder, DistinctIds;
    OrderedSnoc(records, active[id]);
    DistinctIdsSnoc(records, active[id]);
  }

  lemma DistinctIdsSnoc(records: seq<Record>, r: Record)
    requires DistinctIds(records) && forall x :: x in records ==> x.id != r.id
    ensures DistinctIds(records + [r])
  {
    assert forall i :: 0 <= i < |records| ==> records[i] in records;
  }

  lemma OrderedSnoc(records: seq<Record>, r: Record)
    ensures forall x :: x in records + [r] <==> x in records || x == r
    ensures InOrder(records) && (forall x :: x in records ==> Earlier(x, r)) ==> InOrder(records + [r])
  {
    if InOrder(records) && forall x :: x in records ==> Earlier(x, r) {
      assert forall i :: 0 <= i < |records| ==> Earlier(records[i], r);
    }
  }

  lemma {:induction false} Soonest(active: Active, ids: set<nat>)
    requires ids != {} && forall id :: id in ids ==> id in active && active[id].id == id
    ensures exists id :: id in ids && forall j :: j in ids ==> Earlier(active[id], active[j])
    decreases |ids|
  {
    var x :| x in ids;
    if ids - {x} != {} {
      Soonest(active, ids - {x});
      var y :| y in ids - {x} && forall j :: j in ids - {x} ==> Earlier(active[y], active[j]);
      var least := if Earlier(active[x], active[y]) then x else y;
      assert forall j :: j in ids ==> Earlier(active[least], active[j]);
    } else {
      assert ids == {x};
    }
  }

  // ------------------------------------------------------------------ delivering

  function NextOf(r: Record, stamp: int): Option<int> {
    if r.kind.Every? && r.every.Some? then Some(stamp + r.every.value * 1000) else None
  }

  /** The reminder, then the record that it fired. */
  function Delivery(r: Record, stamp: int): seq<LogEvent> {
    [ReminderEvent(r.prompt, stamp - r.scheduledAt), ChangeEvent(Fired(r.id, stamp, NextOf(r, stamp)))]
  }

  function Deliveries(records: seq<Record>, stamp: int): seq<LogEvent> {
    if records == [] then []
    else Deliveries(records[..|records| - 1], stamp) + Delivery(records[|records| - 1], stamp)
  }

  class ScheduleRuntime {
    /** The log of the session the reminders belong to. */
    var log: seq<LogEvent>
    /** How long the session's one timer is armed for. */
    var timer: Option<int>

    constructor ()
      ensures log == [] && timer == None
    {
      log, timer := [], None;
    }

    /** Record a reminder and arm the timer; a refused one leaves no trace. */
    method Create(id: nat, prompt: string, rule: Rule, stamp: int, now: int) returns (r: Result<Record, ScheduleError>)
      requires Folded(log).Ok?
      modifies this
      ensures r == RecordFor(id, prompt, rule, stamp)
      ensures log == old(log) + if r.Ok? then [ChangeEvent(Created(r.value))] else []
      ensures r.Err? ==> timer == old(timer)
      ensures r.Ok? ==> Folded(log) == Ok(Folded(old(log)).value[id := r.value])
                        && WakesInTime(timer, Folded(log).value, now)
    {
      r := RecordFor(id, prompt, rule, stamp);
      if r.Ok? {
        MadeIsDecodable(id, prompt, rule, stamp);
        FoldedSnoc(log, ChangeEvent(Created(r.value)));
        log := log + [ChangeEvent(Created(r.value))];
        Arm(now);
      }
    }

    method Delete(id: nat, now: int) returns (found: bool)
      requires Folded(log).Ok?
      modifies this
      ensures found <==> id in Folded(old(log)).value
      ensures log == old(log) + if found then [ChangeEvent(Deleted(id))] else []
      ensures found ==> Folded(log) == Ok(Folded(old(log)).value - {id}) && WakesInTime(timer, Folded(log).value, now)
    {
      hide Listed, EventStep, Folded, WakesInTime;
      var folded := FoldSchedules(log, now);
      found := false;
      var all := folded.value.0 + folded.value.1;
      for i := 0 to |all|
        invariant found <==> exists j :: 0 <= j < i && all[j].id == id
      {
        found := found || all[i].id == id;
      }
      FoundById(log, folded.value.0, folded.value.1, now, id);
      if found {
        FoldedSnoc(log, ChangeEvent(Deleted(id)));
        DeletingWorks(Folded(log).value, id);
        log := log + [ChangeEvent(Deleted(id))];
        Arm(now);
      }
    }

    /** The timer afterwards wakes in time for every schedule, and runs only when there is one. */
    method Arm(now: int)
      requires Folded(log).Ok?
      modifies this`timer
      ensures WakesInTime(timer, Folded(log).value, now)
    {
      var folded := FoldSchedules(log, now);
      var active, overdue := folded.value.0, folded.value.1;
      if active == [] && overdue == [] {
        timer := None;
        return;
      }
      var delay := if overdue != [] then 0 else Max(0, active[0].scheduledAt - now);
      timer := Some(Min(delay, MAX_TIMER_MS));
      forall id | id in Folded(log).value
        ensures now + timer.value <= Max(now, Folded(log).value[id].scheduledAt)
      {
        var r := Folded(log).value[id];
        assert r in active || r in overdue;
        if overdue == [] {
          var k :| 0 <= k < |active| && active[k] == r;
        }
      }
      assert active != [] ==> active[0] in active;
      assert overdue != [] ==> overdue[0] in overdue;
    }

    /** Deliver whatever is due at this stamp, once each, soonest first. */
    method Tick(stamp: int) returns (delivered: seq<Record>)
      requires Folded(log).Ok?
      modifies this`log
      ensures Listed(delivered, Folded(old(log)).value, stamp, true)
      ensures log == old(log) + Deliveries(delivered, stamp)
    {
      hide Listed, Folded, Deliveries, Due;
      var folded := FoldSchedules(log, stamp);
      ListedIsDue(folded.value.1, Folded(log).value, stamp);
      delivered := Deliver(folded.value.1, stamp);
    }

    /** Deliver those of some reminders that are due, each followed by the record that it fired. */
    method Deliver(records: seq<Record>, stamp: int) returns (delivered: seq<Record>)
      modifies this`log
      ensures delivered == Due(records, stamp) && log == old(log) + Deliveries(delivered, stamp)
    {
      hide Deliveries, Delivery, NextOf, Due;
      delivered := [];
      NoneDelivered(stamp);
      for i := 0 to |records|
        invariant delivered == Due(records[..i], stamp) && log == old(log) + Deliveries(delivered, stamp)
      {
        var r := records[i];
        assert records[..i + 1] == records[..i] + [r];
        DueSnoc(records[..i], r, stamp);
        if r.scheduledAt <= stamp {
          DeliveriesSnoc(delivered, r, stamp);
          log := log + [ReminderEvent(r.prompt, stamp - r.scheduledAt)];
          log := log + [ChangeEvent(Fired(r.id, stamp, NextOf(r, stamp)))];
          delivered := delivered + [r];
        }
      }
      assert records[..|records|] == records;
    }
  }

  /** The records whose target has passed. */
  function Due(records: seq<Record>, stamp: int): seq<Record> {
    if records == [] then []
    else
      var before, r := Due(records[..|records| - 1], stamp), records[|records| - 1];
      if r.scheduledAt <= stamp then before + [r] else before
  }

  lemma DueSnoc(records: seq<Record>, r: Record, stamp: int)
    ensures Due(records + [r], stamp) ==
            if r.scheduledAt <= stamp then Due(records, stamp) + [r] else Due(records, stamp)
  {
    assert (records + [r])[..|records|] == records;
  }

  lemma NoneDelivered(stamp: int)
    ensures Deliveries([], stamp) == [] && Due([], stamp) == []
  {
  }

  lemma DeliveriesSnoc(records: seq<Record>, r: Record, stamp: int)
    ensures Deliveries(records + [r], stamp) ==
            Deliveries(records, stamp) + [ReminderEvent(r.prompt, stamp - r.scheduledAt)] +
            [ChangeEvent(Fired(r.id, stamp, NextOf(r, stamp)))]
  {
    assert (records + [r])[..|records|] == records;
  }

  lemma ListedIsDue(records: seq<Record>, active: Active, stamp: int)
    requires Listed(records, active, stamp, true)
    ensures Due(records, stamp) == records
  {
    forall i | 0 <= i < |records|
      ensures records[i].scheduledAt <= stamp
    {
      assert records[i] in records;
    }
    AllDue(records, stamp);
  }

  lemma {:induction false} AllDue(records: seq<Record>, stamp: int)
    requires forall i :: 0 <= i < |records| ==> records[i].scheduledAt <= stamp
    ensures Due(records, stamp) == records
  {
    if records != [] {
      AllDue(records[..|records| - 1], stamp);
    }
  }

  lemma FoundById(log: seq<LogEvent>, active: seq<Record>, overdue: seq<Record>, now: int, id: nat)
    requires Folded(log).Ok? && Listed(active, Folded(log).value, now, false)
             && Listed(overdue, Folded(log).value, now, true)
    ensures id in Folded(log).value <==> exists j :: 0 <= j < |active + overdue| && (active + overdue)[j].id == id
  {
    var all := active + overdue;
    FoldedKeyed(log);
    assert forall j :: 0 <= j < |all| ==> all[j] in active || all[j] in overdue;
    if id in Folded(log).value {
      var r := Folded(log).value[id];
      assert r in active || r in overdue;
      assert r in all;
    }
  }

  lemma DeletingWorks(active: Active, id: nat)
    ensures EventStep(active, ChangeEvent(Deleted(id))) == Ok(active - {id})
  {
  }

  lemma {:induction false} FoldedKeyed(log: seq<LogEvent>)
    ensures Folded(log).Ok? ==> Keyed(Folded(log).value)
  {
    hide EventStep, Keyed;
    if log == [] {
      NothingKeyed();
    } else {
      FoldedKeyed(log[..|log| - 1]);
      var before := Folded(log[..|log| - 1]);
      if before.Ok? {
        StepKeyed(before.value, log[|log| - 1]);
      }
    }
  }

  lemma NothingKeyed()
    ensures Keyed(map[])
  {
  }

  lemma StepKeyed(active: Active, e: LogEvent)
    requires Keyed(active)
    ensures EventStep(active, e).Ok? ==> Keyed(EventStep(active, e).value)
  {
    hide Trim;
  }

  /** The timer runs exactly while there are schedules, wakes no later than any target, and wakes no sooner than
      the first of them unless the longest delay a timer takes is shorter. */
  ghost predicate WakesInTime(timer: Option<int>, active: Active, now: int) {
    && (timer.None? <==> active == map[])
    && (timer.Some? ==> 0 <= timer.value <= MAX_TIMER_MS)
    && (timer.Some? ==> forall id :: id in active ==> now + timer.value <= Max(now, active[id].scheduledAt))
    && (timer.Some? ==> timer.value == MAX_TIMER_MS
                        || exists id :: id in active && now + timer.value == Max(now, active[id].scheduledAt))
  }
}
