/** What the reminder runtime guarantees over every run, under any clock. */
module ScheduleLaws {
  import opened Prelude
  import opened Schedules

  // ------------------------------------------------------------------ runs

  /** One call of the runtime, or anything else that is logged. Stamps may go backward. */
  datatype Action =
    | Create(id: nat, prompt: string, rule: Rule, stamp: int)
    | Delete(id: nat)
    | Tick(stamp: int, delivered: seq<Record>)
    | Other

  function Created(log: seq<LogEvent>): set<nat> {
    if log == [] then {}
    else
      var e := log[|log| - 1];
      Created(log[..|log| - 1]) + (if IsCreate(e) then {e.change.record.id} else {})
  }

  function Deletions(log: seq<LogEvent>): set<nat> {
    if log == [] then {}
    else
      var e := log[|log| - 1];
      Deletions(log[..|log| - 1]) + (if e.ChangeEvent? && e.change.Deleted? then {e.change.id} else {})
  }

  predicate IsCreate(e: LogEvent) {
    e.ChangeEvent? && e.change.Created?
  }

  /** What one action appends. */
  function Appends(log: seq<LogEvent>, a: Action): seq<LogEvent> {
    match a
    case Create(id, prompt, rule, stamp) =>
      var r := RecordFor(id, prompt, rule, stamp);
      if r.Ok? then [ChangeEvent(Change.Created(r.value))] else []
    case Delete(id) =>
      var folded := Folded(log);
      if folded.Ok? && id in folded.value then [ChangeEvent(Deleted(id))] else []
    case Tick(stamp, delivered) => Deliveries(delivered, stamp)
    case Other => [OtherEvent]
  }

  /** New ids are unused, and a tick delivers exactly what is overdue at its stamp. */
  ghost predicate Allowed(log: seq<LogEvent>, a: Action) {
    match a
    case Create(id, _, _, _) => id !in Created(log)
    case Tick(stamp, delivered) => Folded(log).Ok? && Listed(delivered, Folded(log).value, stamp, true)
    case _ => true
  }

  function LogOf(actions: seq<Action>): seq<LogEvent> {
    if actions == [] then []
    else
      var log := LogOf(actions[..|actions| - 1]);
      log + Appends(log, actions[|actions| - 1])
  }

  ghost predicate AllAllowed(actions: seq<Action>) {
    actions == [] ||
    (AllAllowed(actions[..|actions| - 1]) && Allowed(LogOf(actions[..|actions| - 1]), actions[|actions| - 1]))
  }

  // ------------------------------------------------------------------ the life of one reminder

  /** The stamps at which a reminder was delivered. */
  function Fires(log: seq<LogEvent>, id: nat): seq<int> {
    if log == [] then []
    else
      var e := log[|log| - 1];
      Fires(log[..|log| - 1], id) + (if IsFire(e, id) then [e.change.firedAt] else [])
  }

  predicate IsFire(e: LogEvent, id: nat) {
    e.ChangeEvent? && e.change.Fired? && e.change.id == id
  }

  /** The record a reminder was created with. */
  function Origin(log: seq<LogEvent>, id: nat): Option<Record> {
    if log == [] then None
    else
      var before, e := Origin(log[..|log| - 1], id), log[|log| - 1];
      if before.None? && IsCreate(e) && e.change.record.id == id then Some(e.change.record) else before
  }

  function Period(r: Record): int {
    if r.every.Some? then r.every.value * 1000 else 0
  }

  /** The target the log holds for a live reminder after these deliveries. */
  function Due(r: Record, fires: seq<int>): int {
    if fires == [] then r.scheduledAt else fires[|fires| - 1] + Period(r)
  }

  /** Never before the first target, a one-shot at most once, repeats a full period apart. */
  ghost predicate Spaced(r: Record, fires: seq<int>) {
    && (fires != [] ==> fires[0] >= r.scheduledAt)
    && (!r.kind.Every? ==> |fires| <= 1)
    && (forall k :: 0 < k < |fires| ==> fires[k] >= fires[k - 1] + Period(r))
  }

  /** A reminder is live exactly when it was created, was not deleted and, if it comes only once, has not come yet;
      the fold then holds it with its next target. */
  ghost predicate Lives(origin: Option<Record>, fires: seq<int>, deleted: bool, active: Active, id: nat) {
    match origin
    case None => fires == [] && id !in active && !deleted
    case Some(r) =>
      && r.id == id && Decode(r) == Ok(r)
      && Spaced(r, fires)
      && (id in active <==> !deleted && (r.kind.Every? || fires == []))
      && (id in active ==> active[id] == r.(scheduledAt := Due(r, fires)))
  }

  ghost predicate Healthy(log: seq<LogEvent>, id: nat) {
    Folded(log).Ok? && Lives(Origin(log, id), Fires(log, id), id in Deletions(log), Folded(log).value, id)
    && (Origin(log, id).Some? <==> id in Created(log))
  }

  lemma Snoc(log: seq<LogEvent>, e: LogEvent, id: nat)
    ensures Fires(log + [e], id) == Fires(log, id) + (if IsFire(e, id) then [e.change.firedAt] else [])
    ensures Origin(log + [e], id) ==
            if Origin(log, id).None? && IsCreate(e) && e.change.record.id == id then Some(e.change.record)
            else Origin(log, id)
    ensures Created(log + [e]) == Created(log) + (if IsCreate(e) then {e.change.record.id} else {})
    ensures Deletions(log + [e]) ==
            Deletions(log) + (if e.ChangeEvent? && e.change.Deleted? then {e.change.id} else {})
    ensures Folded(log + [e]) == var before := Folded(log); if before.Err? then before else EventStep(before.value, e)
  {
    assert (log + [e])[..|log|] == log;
  }

  // ------------------------------------------------------------------ each event keeps it

  lemma CreateKeeps(log: seq<LogEvent>, r: Record, id: nat)
    requires Healthy(log, id) && r.id !in Created(log) && Decode(r) == Ok(r)
    ensures Healthy(log + [ChangeEvent(Change.Created(r))], id)
  {
    hide Decode;
    Snoc(log, ChangeEvent(Change.Created(r)), id);
  }

  lemma DeleteKeeps(log: seq<LogEvent>, gone: nat, id: nat)
    requires Healthy(log, id) && gone in Folded(log).value
    ensures Healthy(log + [ChangeEvent(Deleted(gone))], id)
  {
    hide Decode;
    Snoc(log, ChangeEvent(Deleted(gone)), id);
  }

  lemma OtherKeeps(log: seq<LogEvent>, e: LogEvent, id: nat)
    requires Healthy(log, id) && !e.ChangeEvent?
    ensures Healthy(log + [e], id)
  {
    hide Decode;
    Snoc(log, e, id);
  }

  /** A delivery at or after the target its log holds. */
  ghost predicate OnTime(log: seq<LogEvent>, r: Record, stamp: int) {
    Folded(log).Ok? && r.id in Folded(log).value && Folded(log).value[r.id] == r && r.scheduledAt <= stamp
  }

  lemma FiredSpaced(r: Record, fires: seq<int>, stamp: int)
    requires Spaced(r, fires) && Due(r, fires) <= stamp && (!r.kind.Every? ==> fires == [])
    ensures Spaced(r, fires + [stamp])
  {
  }

  lemma FireKeeps(log: seq<LogEvent>, r: Record, stamp: int, id: nat)
    requires Healthy(log, id) && OnTime(log, r, stamp)
    ensures Healthy(log + [ChangeEvent(Fired(r.id, stamp, NextOf(r, stamp)))], id)
  {
    hide Decode, Folded, Fires, Origin, Created, Deletions, Spaced;
    var e := ChangeEvent(Fired(r.id, stamp, NextOf(r, stamp)));
    Snoc(log, e, id);
    var fires := Fires(log, id);
    assert fires + [] == fires && Created(log) + {} == Created(log) && Deletions(log) + {} == Deletions(log);
    if r.id == id {
      FiredSpaced(Origin(log, id).value, fires, stamp);
      NextIsDue(Origin(log, id).value, r, fires, stamp);
    }
  }

  /** The target a delivery records is the one its stamp and period make due. */
  lemma NextIsDue(o: Record, r: Record, fires: seq<int>, stamp: int)
    requires Decode(o) == Ok(o) && r == o.(scheduledAt := Due(o, fires))
    ensures NextOf(r, stamp) == if o.kind.Every? then Some(Due(o, fires + [stamp])) else None
  {
    hide Trim;
  }

  /** Delivering one reminder leaves the others' targets as they were. */
  lemma FireLeavesOthers(log: seq<LogEvent>, r: Record, stamp: int, id: nat)
    requires Folded(log).Ok? && id != r.id
    ensures var log' := log + Delivery(r, stamp);
            && Folded(log').Ok?
            && (id in Folded(log').value <==> id in Folded(log).value)
            && (id in Folded(log').value ==> Folded(log').value[id] == Folded(log).value[id])
  {
    DeliveryFolds(log, r, stamp);
  }

  lemma DeliveryFolds(log: seq<LogEvent>, r: Record, stamp: int)
    requires Folded(log).Ok?
    ensures Folded(log + Delivery(r, stamp)) == ChangeStep(Folded(log).value, Fired(r.id, stamp, NextOf(r, stamp)))
  {
    hide ChangeStep, NextOf, Folded;
    var note, fire := ReminderEvent(r.prompt, stamp - r.scheduledAt), ChangeEvent(Fired(r.id, stamp, NextOf(r, stamp)));
    FoldedSnoc(log, note);
    FoldedSnoc(log + [note], fire);
    assert log + Delivery(r, stamp) == log + [note] + [fire];
  }

  lemma DeliveryKeeps(log: seq<LogEvent>, r: Record, stamp: int, id: nat)
    requires Healthy(log, id) && OnTime(log, r, stamp)
    ensures Healthy(log + Delivery(r, stamp), id)
  {
    hide Healthy;
    var note, fire := ReminderEvent(r.prompt, stamp - r.scheduledAt), ChangeEvent(Fired(r.id, stamp, NextOf(r, stamp)));
    OtherKeeps(log, note, id);
    FoldedSnoc(log, note);
    FireKeeps(log + [note], r, stamp, id);
    assert log + Delivery(r, stamp) == log + [note] + [fire];
  }

  // ------------------------------------------------------------------ a whole tick

  ghost predicate DistinctIds(records: seq<Record>) {
    forall i, j :: 0 <= i < j < |records| ==> records[i].id != records[j].id
  }

  /** While a tick works through its list, what is still to come is as it was. */
  lemma {:induction false} StillOnTime(log: seq<LogEvent>, records: seq<Record>, stamp: int, n: nat, k: nat)
    requires n <= k < |records| && DistinctIds(records) && OnTime(log, records[k], stamp)
    ensures OnTime(log + Deliveries(records[..n], stamp), records[k], stamp)
  {
    hide Delivery, Folded;
    if n == 0 {
      assert log + Deliveries(records[..0], stamp) == log;
    } else {
      StillOnTime(log, records, stamp, n - 1, k);
      DeliveriesStep(log, records, stamp, n);
      FireLeavesOthers(log + Deliveries(records[..n - 1], stamp), records[n - 1], stamp, records[k].id);
    }
  }

  lemma DeliveriesStep(log: seq<LogEvent>, records: seq<Record>, stamp: int, n: nat)
    requires 0 < n <= |records|
    ensures log + Deliveries(records[..n], stamp) ==
            log + Deliveries(records[..n - 1], stamp) + Delivery(records[n - 1], stamp)
  {
    assert records[..n][..n - 1] == records[..n - 1];
  }

  lemma {:induction false} TickKeeps(log: seq<LogEvent>, records: seq<Record>, stamp: int, n: nat, id: nat)
    requires n <= |records| && DistinctIds(records) && Healthy(log, id)
    requires forall k :: 0 <= k < |records| ==> OnTime(log, records[k], stamp)
    ensures Healthy(log + Deliveries(records[..n], stamp), id)
  {
    hide Delivery, Healthy, OnTime;
    if n == 0 {
      assert log + Deliveries(records[..0], stamp) == log;
    } else {
      TickKeeps(log, records, stamp, n - 1, id);
      DeliveriesStep(log, records, stamp, n);
      StillOnTime(log, records, stamp, n - 1, n - 1);
      DeliveryKeeps(log + Deliveries(records[..n - 1], stamp), records[n - 1], stamp, id);
    }
  }

  lemma OverdueOnTime(log: seq<LogEvent>, records: seq<Record>, stamp: int)
    requires Folded(log).Ok? && Listed(records, Folded(log).value, stamp, true)
    ensures DistinctIds(records) && forall k :: 0 <= k < |records| ==> OnTime(log, records[k], stamp)
  {
    assert forall k :: 0 <= k < |records| ==> records[k] in records;
  }

  lemma StillHealthy(log: seq<LogEvent>, id: nat)
    requires Healthy(log, id)
    ensures Folded(log).Ok?
  {
  }

  lemma ActionKeeps(log: seq<LogEvent>, a: Action, id: nat)
    requires Healthy(log, id) && Allowed(log, a)
    ensures Healthy(log + Appends(log, a), id)
  {
    hide Healthy, Listed, RecordFor, Decode, Deliveries;
    assert log + [] == log;
    match a
    case Create(new_, prompt, rule, stamp) =>
      MadeIsDecodable(new_, prompt, rule, stamp);
      var r := RecordFor(new_, prompt, rule, stamp);
      if r.Ok? {
        CreateKeeps(log, r.value, id);
      }
    case Delete(gone) =>
      StillHealthy(log, id);
      if gone in Folded(log).value {
        DeleteKeeps(log, gone, id);
      }
    case Tick(stamp, delivered) =>
      OverdueOnTime(log, delivered, stamp);
      TickKeeps(log, delivered, stamp, |delivered|, id);
      assert delivered[..|delivered|] == delivered;
    case Other => OtherKeeps(log, OtherEvent, id);
  }

  /** The main result, for every reminder in every run. The fold never fails on a runtime's own log; a
      reminder is never early, a one-shot comes at most once, repeats are a full period apart, and until it is
      deleted a repeating one stays live with its next target a period after the last delivery. */
  lemma {:induction false} NeverEarly(actions: seq<Action>, id: nat)
    requires AllAllowed(actions)
    ensures var log := LogOf(actions);
            && Folded(log).Ok?
            && Lives(Origin(log, id), Fires(log, id), id in Deletions(log), Folded(log).value, id)
    ensures Healthy(LogOf(actions), id)
  {
    if actions != [] {
      hide Allowed, Appends, Healthy;
      NeverEarly(actions[..|actions| - 1], id);
      ActionKeeps(LogOf(actions[..|actions| - 1]), actions[|actions| - 1], id);
    }
  }

  // ------------------------------------------------------------------ as asked for

  lemma {:induction false} OriginStays(log: seq<LogEvent>, more: seq<LogEvent>, id: nat)
    requires Origin(log, id).Some?
    ensures Origin(log + more, id) == Origin(log, id)
  {
    if more == [] {
      assert log + more == log;
    } else {
      assert (log + more)[..|log + more| - 1] == log + more[..|more| - 1];
      OriginStays(log, more[..|more| - 1], id);
    }
  }

  lemma {:induction false} OriginIsTheCreation(actions: seq<Action>, k: nat)
    requires AllAllowed(actions) && k < |actions| && actions[k].Create?
    requires var a := actions[k]; RecordFor(a.id, a.prompt, a.rule, a.stamp).Ok?
    ensures var a := actions[k];
            Origin(LogOf(actions), a.id) == Some(RecordFor(a.id, a.prompt, a.rule, a.stamp).value)
  {
    hide RecordFor, Healthy;
    var before, a := actions[..|actions| - 1], actions[k];
    if k < |actions| - 1 {
      OriginIsTheCreation(before, k);
      OriginStays(LogOf(before), Appends(LogOf(before), actions[|actions| - 1]), a.id);
    } else {
      NeverEarly(before, a.id);
      HealthyOrigin(LogOf(before), a.id);
      var r := RecordFor(a.id, a.prompt, a.rule, a.stamp).value;
      MadeIsDecodable(a.id, a.prompt, a.rule, a.stamp);
      Snoc(LogOf(before), ChangeEvent(Change.Created(r)), a.id);
    }
  }

  lemma HealthyOrigin(log: seq<LogEvent>, id: nat)
    requires Healthy(log, id)
    ensures Origin(log, id).Some? <==> id in Created(log)
  {
  }

  lemma {:induction false} SpacedAfterFirst(r: Record, fires: seq<int>, k: nat)
    requires Spaced(r, fires) && Period(r) >= 0 && k < |fires|
    ensures fires[k] >= r.scheduledAt + k * Period(r)
  {
    if k > 0 {
      SpacedAfterFirst(r, fires, k - 1);
      assert k * Period(r) == (k - 1) * Period(r) + Period(r);
    }
  }

  /** The instant a rule asks for. */
  function Asked(rule: Rule, stamp: int): int {
    if rule.every.Some? then stamp + rule.every.value * 1000
    else if rule.after.Some? then stamp + rule.after.value * 1000
    else if rule.at.Some? then rule.at.value
    else stamp
  }

  /** A reminder is accepted exactly when it says something and its rule asks for an instant after the stamp that can
      be written down, repeating no more often than is allowed; it is then kept with just that target. */
  lemma AcceptedAsAsked(id: nat, prompt: string, rule: Rule, stamp: int)
    ensures var r := RecordFor(id, prompt, rule, stamp);
            && (r.Ok? <==>
                  && Trim(prompt) != "" && stamp < Asked(rule, stamp)
                  && MIN_INSTANT <= Asked(rule, stamp) <= MAX_INSTANT
                  && (rule.every.Some? ==> rule.every.value >= MIN_EVERY_SECONDS))
            && (r.Ok? ==>
                  && r.value.prompt == Trim(prompt) && r.value.scheduledAt == Asked(rule, stamp)
                  && r.value.every == rule.every && (r.value.kind.Every? <==> rule.every.Some?))
  {
    hide Trim;
  }

  /** Action k created a reminder, and it has been delivered more than n times. */
  ghost predicate Delivered(actions: seq<Action>, k: nat, n: nat) {
    && k < |actions| && actions[k].Create?
    && RecordFor(actions[k].id, actions[k].prompt, actions[k].rule, actions[k].stamp).Ok?
    && n < |Fires(LogOf(actions), actions[k].id)|
  }

  /** From the request to the delivery: delivery n of a reminder is at or after the instant its rule asked for,
      plus n of its periods, and only a repeating one has a second. */
  lemma DeliveredAsAsked(actions: seq<Action>, k: nat, n: nat)
    requires AllAllowed(actions)
    ensures Delivered(actions, k, n) ==>
              var a := actions[k];
              var fire := Fires(LogOf(actions), a.id)[n];
              if a.rule.every.Some? then fire >= Asked(a.rule, a.stamp) + n * (a.rule.every.value * 1000)
              else n == 0 && fire >= Asked(a.rule, a.stamp) > a.stamp
  {
    hide LogOf, Fires, Origin, Healthy, Folded, AllAllowed, Trim;
    if Delivered(actions, k, n) {
      var a := actions[k];
      var r := RecordFor(a.id, a.prompt, a.rule, a.stamp).value;
      NeverEarly(actions, a.id);
      OriginIsTheCreation(actions, k);
      SpacedAfterFirst(r, Fires(LogOf(actions), a.id), n);
    }
  }

  // ------------------------------------------------------------------ nothing is left overdue

  ghost predicate Overdue(log: seq<LogEvent>, id: nat, stamp: int) {
    Folded(log).Ok? && id in Folded(log).value && Folded(log).value[id].scheduledAt <= stamp
  }

  /** A delivered reminder is gone or due strictly later. */
  lemma DeliveredIsNotOverdue(log: seq<LogEvent>, r: Record, stamp: int)
    requires OnTime(log, r, stamp) && (r.kind.Every? ==> r.every.Some? && r.every.value > 0)
    ensures !Overdue(log + Delivery(r, stamp), r.id, stamp)
  {
    DeliveryFolds(log, r, stamp);
  }

  lemma {:induction false} DeliveredStays(log: seq<LogEvent>, records: seq<Record>, stamp: int, n: nat, k: nat)
    requires k < n <= |records| && DistinctIds(records)
    requires forall j :: 0 <= j < |records| ==> OnTime(log, records[j], stamp)
    requires records[k].kind.Every? ==> records[k].every.Some? && records[k].every.value > 0
    ensures Folded(log + Deliveries(records[..n], stamp)).Ok?
    ensures !Overdue(log + Deliveries(records[..n], stamp), records[k].id, stamp)
    decreases n
  {
    hide Delivery, Folded;
    var before := log + Deliveries(records[..n - 1], stamp);
    DeliveriesStep(log, records, stamp, n);
    StillOnTime(log, records, stamp, n - 1, n - 1);
    DeliveryFolds(before, records[n - 1], stamp);
    if k == n - 1 {
      DeliveredIsNotOverdue(before, records[k], stamp);
    } else {
      DeliveredStays(log, records, stamp, n - 1, k);
      FireLeavesOthers(before, records[n - 1], stamp, records[k].id);
    }
  }

  lemma {:induction false} UndeliveredStays(log: seq<LogEvent>, records: seq<Record>, stamp: int, n: nat, id: nat)
    requires n <= |records| && Folded(log).Ok? && forall k :: 0 <= k < |records| ==> records[k].id != id
    ensures var log' := log + Deliveries(records[..n], stamp);
            Folded(log').Ok? && (Overdue(log', id, stamp) <==> Overdue(log, id, stamp))
  {
    hide Delivery, Folded;
    if n == 0 {
      assert log + Deliveries(records[..0], stamp) == log;
    } else {
      UndeliveredStays(log, records, stamp, n - 1, id);
      DeliveriesStep(log, records, stamp, n);
      FireLeavesOthers(log + Deliveries(records[..n - 1], stamp), records[n - 1], stamp, id);
    }
  }

  /** After a tick nothing is overdue at its stamp, whatever the clock did before. */
  lemma NothingLeftOverdue(actions: seq<Action>, stamp: int, delivered: seq<Record>, id: nat)
    requires AllAllowed(actions) && Allowed(LogOf(actions), Tick(stamp, delivered))
    ensures !Overdue(LogOf(actions) + Deliveries(delivered, stamp), id, stamp)
  {
    hide Deliveries, LogOf, Folded;
    var log := LogOf(actions);
    OverdueOnTime(log, delivered, stamp);
    assert delivered[..|delivered|] == delivered;
    if exists k :: 0 <= k < |delivered| && delivered[k].id == id {
      var k :| 0 <= k < |delivered| && delivered[k].id == id;
      NeverEarly(actions, id);
      RepeatsForward(Origin(log, id), Fires(log, id), id in Deletions(log), Folded(log).value, id);
      DeliveredStays(log, delivered, stamp, |delivered|, k);
    } else {
      FoldedKeyed(log);
      UndeliveredStays(log, delivered, stamp, |delivered|, id);
    }
  }

  lemma RepeatsForward(origin: Option<Record>, fires: seq<int>, deleted: bool, active: Active, id: nat)
    requires Lives(origin, fires, deleted, active, id) && id in active
    ensures active[id].kind.Every? ==> active[id].every.Some? && active[id].every.value > 0
  {
    hide Trim;
  }

  // ------------------------------------------------------------------ gone is gone

  lemma {:induction false} DeliveriesSkip(log: seq<LogEvent>, records: seq<Record>, stamp: int, n: nat, id: nat)
    requires n <= |records| && forall k :: 0 <= k < |records| ==> records[k].id != id
    requires Folded(log).Ok? && id in Created(log) && id !in Folded(log).value
    ensures var log' := log + Deliveries(records[..n], stamp);
            && Folded(log').Ok? && id in Created(log') && id !in Folded(log').value
            && Fires(log', id) == Fires(log, id)
  {
    hide Folded, Created, Fires;
    if n == 0 {
      assert log + Deliveries(records[..0], stamp) == log;
    } else {
      DeliveriesSkip(log, records, stamp, n - 1, id);
      var mid, r := log + Deliveries(records[..n - 1], stamp), records[n - 1];
      var note, fire := ReminderEvent(r.prompt, stamp - r.scheduledAt),
          ChangeEvent(Fired(r.id, stamp, NextOf(r, stamp)));
      DeliveriesStep(log, records, stamp, n);
      assert mid + Delivery(r, stamp) == mid + [note] + [fire];
      FireLeavesOthers(mid, r, stamp, id);
      Snoc(mid, note, id);
      Snoc(mid + [note], fire, id);
      assert Fires(mid, id) + [] == Fires(mid, id);
    }
  }

  /** One action brings back no reminder that is gone, and delivers none. */
  lemma GoneIsGone(log: seq<LogEvent>, a: Action, id: nat)
    requires Folded(log).Ok? && id in Created(log) && id !in Folded(log).value && Allowed(log, a)
    ensures var log' := log + Appends(log, a);
            && Folded(log').Ok? && id in Created(log') && id !in Folded(log').value
            && Fires(log', id) == Fires(log, id)
  {
    hide Folded, Created, Fires, RecordFor, Decode, Deliveries, ChangeStep;
    assert log + [] == log && Fires(log, id) + [] == Fires(log, id);
    match a
    case Create(new_, prompt, rule, stamp) =>
      var r := RecordFor(new_, prompt, rule, stamp);
      MadeIsDecodable(new_, prompt, rule, stamp);
      if r.Ok? {
        CreateGone(log, r.value, id);
      }
    case Delete(gone) => DeleteGone(log, gone, id);
    case Tick(stamp, delivered) =>
      assert forall k :: 0 <= k < |delivered| ==> delivered[k] in delivered;
      DeliveriesSkip(log, delivered, stamp, |delivered|, id);
      assert delivered[..|delivered|] == delivered;
    case Other => Snoc(log, OtherEvent, id);
  }

  lemma CreateGone(log: seq<LogEvent>, r: Record, id: nat)
    requires Folded(log).Ok? && id in Created(log) && id !in Folded(log).value
    requires r.id !in Created(log) && Decode(r) == Ok(r)
    ensures var log' := log + [ChangeEvent(Change.Created(r))];
            Folded(log').Ok? && id in Created(log') && id !in Folded(log').value && Fires(log', id) == Fires(log, id)
  {
    hide Decode;
    Snoc(log, ChangeEvent(Change.Created(r)), id);
  }

  lemma DeleteGone(log: seq<LogEvent>, gone: nat, id: nat)
    requires Folded(log).Ok? && id in Created(log) && id !in Folded(log).value
    ensures var log' := log + [ChangeEvent(Deleted(gone))];
            Folded(log').Ok? && id in Created(log') && id !in Folded(log').value && Fires(log', id) == Fires(log, id)
  {
    Snoc(log, ChangeEvent(Deleted(gone)), id);
  }

  /** Created once, and no longer live. */
  ghost predicate Gone(log: seq<LogEvent>, id: nat) {
    Folded(log).Ok? && id in Created(log) && id !in Folded(log).value
  }

  /** A reminder that was deleted, or that fired its last, is never delivered again. */
  lemma {:induction false} GoneForever(actions: seq<Action>, n: nat, id: nat)
    requires AllAllowed(actions)
    ensures n <= |actions| && Gone(LogOf(actions[..n]), id) ==>
              Gone(LogOf(actions), id) && Fires(LogOf(actions), id) == Fires(LogOf(actions[..n]), id)
    decreases |actions|
  {
    hide Folded, Created, Fires, Allowed, Appends;
    if n == |actions| {
      assert actions[..n] == actions;
    } else if n < |actions| && Gone(LogOf(actions[..n]), id) {
      var before := actions[..|actions| - 1];
      assert before[..n] == actions[..n];
      GoneForever(before, n, id);
      GoneIsGone(LogOf(before), actions[|actions| - 1], id);
    }
  }
}
