/** Folds of the log kept in step with it: the fold, the per-session cells driven by appends, and the
    restore of a fold from stored rows (session/projection.py). */
module Projection {
  import opened Prelude
  import opened Sessions

  const EMPTY_WATERMARK := 0
  const FIRST_SEQ := 1

  /** One domain's unit. `apply` and `view` answer None where the original's would raise; a validator is part
      of the view. `keeps` says whether `apply` hands back the very object it was given: nothing changed. */
  datatype Unit<!S, !V> = Unit(
    key: string, init: S, apply: (S, Event) -> Option<S>, keeps: (S, Event) -> bool, view: S -> Option<V>,
    version: nat)

  ghost predicate NumberedLog(log: seq<Event>) {
    forall i :: 0 <= i < |log| ==> log[i].seqNo == i + 1
  }

  // ------------------------------------------------------------------ the fold

  function FoldFrom<S, V>(u: Unit<S, V>, state: S, events: seq<Event>): Option<S> {
    if events == [] then Some(state)
    else
      var before := FoldFrom(u, state, events[..|events| - 1]);
      if before.None? then None else u.apply(before.value, events[|events| - 1])
  }

  function Fold<S, V>(u: Unit<S, V>, events: seq<Event>): Option<S> {
    FoldFrom(u, u.init, events)
  }

  lemma {:induction false} FoldConcat<S, V>(u: Unit<S, V>, state: S, a: seq<Event>, b: seq<Event>)
    ensures FoldFrom(u, state, a + b) ==
            if FoldFrom(u, state, a).None? then None else FoldFrom(u, FoldFrom(u, state, a).value, b)
  {
    if b == [] {
      assert a + b == a;
    } else {
      assert (a + b)[..|a + b| - 1] == a + b[..|b| - 1];
      FoldConcat(u, state, a, b[..|b| - 1]);
    }
  }

  lemma FoldSnoc<S, V>(u: Unit<S, V>, log: seq<Event>, e: Event)
    ensures Fold(u, log + [e]) == if Fold(u, log).None? then None else u.apply(Fold(u, log).value, e)
  {
    assert (log + [e])[..|log|] == log;
  }

  // ------------------------------------------------------------------ the cells

  datatype Cell<S> = Cell(state: S, watermark: int, faulted: bool)

  /** A cell's state is the fold up to its watermark; unfaulted it has seen the whole log,
      faulted the unit fails on the very next event. */
  ghost predicate CellOk<S, V>(u: Unit<S, V>, cell: Cell<S>, log: seq<Event>) {
    && 0 <= cell.watermark <= |log|
    && Fold(u, log[..cell.watermark]) == Some(cell.state)
    && (if cell.faulted then cell.watermark < |log| && Fold(u, log[..cell.watermark + 1]).None?
        else cell.watermark == |log|)
  }

  lemma CellTells<S, V>(u: Unit<S, V>, cell: Cell<S>, log: seq<Event>)
    requires CellOk(u, cell, log)
    ensures cell.faulted <==> Fold(u, log).None?
    ensures !cell.faulted ==> Fold(u, log) == Some(cell.state)
  {
    if cell.faulted {
      var w := cell.watermark + 1;
      assert log == log[..w] + log[w..];
      FoldConcat(u, u.init, log[..w], log[w..]);
    } else {
      assert log[..cell.watermark] == log;
    }
  }

  lemma CellSeesAll<S, V>(u: Unit<S, V>, cell: Cell<S>, log: seq<Event>)
    requires CellOk(u, cell, log) && !cell.faulted
    ensures cell.watermark == |log|
  {
  }

  /** One event, taken by one cell. A faulted cell stays as it is. */
  function DrivenCell<S, V>(u: Unit<S, V>, cell: Cell<S>, e: Event): Cell<S> {
    if cell.faulted then cell
    else
      var next := u.apply(cell.state, e);
      if next.None? then cell.(faulted := true) else Cell(next.value, e.seqNo, false)
  }

  /** The cell of a unit first touched after these events. */
  function FoldedCell<S, V>(u: Unit<S, V>, events: seq<Event>): Cell<S> {
    if events == [] then Cell(u.init, EMPTY_WATERMARK, false)
    else DrivenCell(u, FoldedCell(u, events[..|events| - 1]), events[|events| - 1])
  }

  lemma DrivenCellOk<S, V>(u: Unit<S, V>, cell: Cell<S>, before: seq<Event>, e: Event)
    requires e.seqNo == |before| + 1 && CellOk(u, cell, before)
    ensures CellOk(u, DrivenCell(u, cell, e), before + [e])
  {
    var log := before + [e];
    FoldSnoc(u, before, e);
    assert forall w :: 0 <= w <= |before| ==> log[..w] == before[..w];
    assert before[..|before|] == before && log[..|log|] == log;
  }

  lemma {:induction false} FoldedCellOk<S, V>(u: Unit<S, V>, events: seq<Event>)
    requires NumberedLog(events)
    ensures CellOk(u, FoldedCell(u, events), events)
  {
    if events != [] {
      var before, e := events[..|events| - 1], events[|events| - 1];
      FoldedCellOk(u, before);
      DrivenCellOk(u, FoldedCell(u, before), before, e);
      assert events == before + [e];
    }
  }

  lemma {:induction false} FaultedStays<S, V>(u: Unit<S, V>, events: seq<Event>, n: nat)
    requires n <= |events| && FoldedCell(u, events[..n]).faulted
    ensures FoldedCell(u, events) == FoldedCell(u, events[..n])
    decreases |events|
  {
    if n == |events| {
      assert events[..n] == events;
    } else {
      assert events[..|events| - 1][..n] == events[..n];
      FaultedStays(u, events[..|events| - 1], n);
    }
  }

  /** `_fold`: the cell agrees with the fold of these events, faulted at the first failure. */
  method FoldCell<S, V>(u: Unit<S, V>, events: seq<Event>) returns (cell: Cell<S>)
    ensures cell == FoldedCell(u, events)
  {
    var state, watermark := u.init, EMPTY_WATERMARK;
    for i := 0 to |events|
      invariant FoldedCell(u, events[..i]) == Cell(state, watermark, false)
    {
      assert events[..i + 1][..i] == events[..i];
      var next := u.apply(state, events[i]);
      if next.None? {
        FaultedStays(u, events, i + 1);
        return Cell(state, watermark, true);
      }
      state, watermark := next.value, events[i].seqNo;
    }
    assert events[..|events|] == events;
    return Cell(state, watermark, false);
  }

  datatype Registration<!S, !V> = Registration(unit: Unit<S, V>, cell: Option<Cell<S>>, refs: nat)

  /** One unit's folded state as it is stored: its version and how far it had seen. */
  datatype Row<S> = Row(ver: int, seqNo: int, val: S)

  type Rows<S> = map<string, Row<S>>

  datatype RegisterError = VersionConflict(existing: nat)

  function Position<S, V>(rs: seq<Registration<S, V>>, key: string): (i: nat)
    ensures i <= |rs| && (i < |rs| ==> rs[i].unit.key == key)
    ensures forall j :: 0 <= j < i ==> rs[j].unit.key != key
  {
    if rs == [] then 0 else if rs[0].unit.key == key then 0 else 1 + Position(rs[1..], key)
  }

  /** The event that is being dispatched: the log so far without it, and it. */
  ghost predicate Last(log: seq<Event>, e: Event) {
    log != [] && log[|log| - 1] == e && NumberedLog(log)
  }

  function Before(events: seq<Event>, n: int): seq<Event> {
    if events == [] then []
    else if events[|events| - 1].seqNo < n then Before(events[..|events| - 1], n) + [events[|events| - 1]]
    else Before(events[..|events| - 1], n)
  }

  lemma NumberedInit(log: seq<Event>)
    requires NumberedLog(log) && log != []
    ensures NumberedLog(log[..|log| - 1]) && log[|log| - 1].seqNo == |log|
    ensures log == log[..|log| - 1] + [log[|log| - 1]]
  {
  }

  lemma {:induction false} BeforeAll(events: seq<Event>, n: int)
    requires NumberedLog(events) && |events| < n
    ensures Before(events, n) == events
  {
    if events != [] {
      NumberedInit(events);
      hide NumberedLog;
      BeforeAll(events[..|events| - 1], n);
    }
  }

  // ------------------------------------------------------------------ what each call does to the registry

  /** Keys are registered once, and only while somebody holds them. */
  ghost predicate Shape<S, V>(rs: seq<Registration<S, V>>) {
    && (forall i :: 0 <= i < |rs| ==> rs[i].refs >= 1)
    && (forall i, j :: 0 <= i < j < |rs| ==> rs[i].unit.key != rs[j].unit.key)
  }

  ghost predicate CellsOk<S, V>(rs: seq<Registration<S, V>>, log: seq<Event>) {
    forall i :: 0 <= i < |rs| && rs[i].cell.Some? ==> CellOk(rs[i].unit, rs[i].cell.value, log)
  }

  ghost predicate SameUnits<S, V>(a: seq<Registration<S, V>>, b: seq<Registration<S, V>>) {
    |a| == |b| && forall i :: 0 <= i < |a| ==> a[i].unit == b[i].unit && a[i].refs == b[i].refs
  }

  function UnitsOf<S, V>(rs: seq<Registration<S, V>>): (us: seq<Unit<S, V>>)
    ensures |us| == |rs| && forall i :: 0 <= i < |rs| ==> us[i] == rs[i].unit
  {
    seq(|rs|, i requires 0 <= i < |rs| => rs[i].unit)
  }

  /** A new key, one more holder of a known one, or a version that cannot be shared. */
  function Registering<S, V>(rs: seq<Registration<S, V>>, u: Unit<S, V>): seq<Registration<S, V>> {
    var i := Position(rs, u.key);
    if i == |rs| then rs + [Registration(u, None, 1)]
    else if rs[i].unit.version != u.version then rs
    else rs[i := rs[i].(refs := rs[i].refs + 1)]
  }

  function Disposing<S, V>(rs: seq<Registration<S, V>>, key: string): seq<Registration<S, V>> {
    var i := Position(rs, key);
    if i == |rs| then rs
    else if rs[i].refs <= 1 then rs[..i] + rs[i + 1..]
    else rs[i := rs[i].(refs := rs[i].refs - 1)]
  }

  /** The cell a registration has, or the one it gets on first touch. */
  function CellBefore<S, V>(r: Registration<S, V>, events: seq<Event>): Cell<S> {
    if r.cell.Some? then r.cell.value else FoldedCell(r.unit, events)
  }

  function Taken<S, V>(r: Registration<S, V>, before: seq<Event>, e: Event): Registration<S, V> {
    r.(cell := Some(DrivenCell(r.unit, CellBefore(r, before), e)))
  }

  /** Publishing this unit's change raises: somebody listens, and the unit has no value for its new state. */
  predicate Raises<S, V>(r: Registration<S, V>, before: seq<Event>, e: Event, listening: bool) {
    var cell := CellBefore(r, before);
    listening && !cell.faulted &&
    var next := r.unit.apply(cell.state, e);
    next.Some? && !r.unit.keeps(cell.state, e) && r.unit.view(next.value).None?
  }

  /** How many registrations an event reaches: publishing that raises ends the walk. */
  function Reached<S, V>(rs: seq<Registration<S, V>>, before: seq<Event>, e: Event, listening: bool): (n: nat)
    ensures n <= |rs|
    ensures forall k :: 0 <= k < n - 1 ==> !Raises(rs[k], before, e, listening)
    ensures n < |rs| ==> n > 0 && Raises(rs[n - 1], before, e, listening)
  {
    if rs == [] then 0
    else if Raises(rs[0], before, e, listening) then 1
    else 1 + Reached(rs[1..], before, e, listening)
  }

  function Driven<S, V>(rs: seq<Registration<S, V>>, before: seq<Event>, e: Event, n: nat)
    : (rs': seq<Registration<S, V>>)
    ensures |rs'| == |rs|
  {
    seq(|rs|, i requires 0 <= i < |rs| => if i < n then Taken(rs[i], before, e) else rs[i])
  }

  lemma DrivenNone<S, V>(rs: seq<Registration<S, V>>, before: seq<Event>, e: Event)
    ensures Driven(rs, before, e, 0) == rs
  {
  }

  lemma DrivenOne<S, V>(rs: seq<Registration<S, V>>, before: seq<Event>, e: Event, i: nat)
    requires i < |rs|
    ensures Driven(rs, before, e, i)[i] == rs[i]
    ensures Driven(rs, before, e, i)[i := Taken(rs[i], before, e)] == Driven(rs, before, e, i + 1)
  {
    hide Taken;
  }

  function ReadOf<S, V>(r: Registration<S, V>, log: seq<Event>): Option<V> {
    var cell := CellBefore(r, log);
    if cell.faulted then None else r.unit.view(cell.state)
  }

  /** How many registrations a read looks at: it ends at the first that has no value. */
  function Visited<S, V>(rs: seq<Registration<S, V>>, log: seq<Event>): (n: nat)
    ensures n <= |rs| && forall k :: 0 <= k < n - 1 ==> ReadOf(rs[k], log).Some?
    ensures n < |rs| ==> n > 0 && ReadOf(rs[n - 1], log).None?
  {
    if rs == [] then 0 else if ReadOf(rs[0], log).None? then 1 else 1 + Visited(rs[1..], log)
  }

  /** How many registrations a checkpoint looks at: it ends at the first faulted one. */
  function Kept<S, V>(rs: seq<Registration<S, V>>, log: seq<Event>): (n: nat)
    ensures n <= |rs| && forall k :: 0 <= k < n - 1 ==> !CellBefore(rs[k], log).faulted
    ensures n < |rs| ==> n > 0 && CellBefore(rs[n - 1], log).faulted
  {
    if rs == [] then 0 else if CellBefore(rs[0], log).faulted then 1 else 1 + Kept(rs[1..], log)
  }

  /** The first n registrations have their cells. */
  function Touched<S, V>(rs: seq<Registration<S, V>>, log: seq<Event>, n: nat): (rs': seq<Registration<S, V>>)
    ensures |rs'| == |rs|
  {
    seq(|rs|, i requires 0 <= i < |rs| => if i < n then rs[i].(cell := Some(CellBefore(rs[i], log))) else rs[i])
  }

  lemma TouchedNone<S, V>(rs: seq<Registration<S, V>>, log: seq<Event>)
    ensures Touched(rs, log, 0) == rs
  {
  }

  lemma TouchedOne<S, V>(rs: seq<Registration<S, V>>, log: seq<Event>, i: nat)
    requires i < |rs|
    ensures Touched(rs, log, i)[i] == rs[i]
    ensures Touched(rs, log, i)[i := rs[i].(cell := Some(CellBefore(rs[i], log)))] == Touched(rs, log, i + 1)
  {
    hide CellBefore;
  }

  function CellValues<S, V>(rs: seq<Registration<S, V>>, log: seq<Event>): Option<map<string, V>> {
    if rs == [] then Some(map[])
    else
      var r := rs[|rs| - 1];
      var before, value := CellValues(rs[..|rs| - 1], log), ReadOf(r, log);
      if before.None? || value.None? then None else Some(before.value[r.unit.key := value.value])
  }

  function CellRows<S, V>(rs: seq<Registration<S, V>>, log: seq<Event>): Option<Rows<S>> {
    if rs == [] then Some(map[])
    else
      var r := rs[|rs| - 1];
      var before, cell := CellRows(rs[..|rs| - 1], log), CellBefore(r, log);
      if before.None? || cell.faulted then None
      else Some(before.value[r.unit.key := Row(r.unit.version, cell.watermark, cell.state)])
  }

  lemma NoValuesYet<S, V>(rs: seq<Registration<S, V>>, log: seq<Event>)
    ensures CellValues(rs[..0], log) == Some(map[]) && CellRows(rs[..0], log) == Some(map[])
  {
  }

  lemma ValueNext<S, V>(rs: seq<Registration<S, V>>, log: seq<Event>, i: nat)
    requires i < |rs|
    ensures CellValues(rs[..i], log).Some? && ReadOf(rs[i], log).Some? ==>
              CellValues(rs[..i + 1], log) ==
              Some(CellValues(rs[..i], log).value[rs[i].unit.key := ReadOf(rs[i], log).value])
  {
    hide ReadOf;
    assert rs[..i + 1][..i] == rs[..i];
  }

  lemma RowNext<S, V>(rs: seq<Registration<S, V>>, log: seq<Event>, i: nat)
    requires i < |rs|
    ensures var cell := CellBefore(rs[i], log);
            CellRows(rs[..i], log).Some? && !cell.faulted ==>
              CellRows(rs[..i + 1], log) ==
              Some(CellRows(rs[..i], log).value[
                     rs[i].unit.key := Row(rs[i].unit.version, cell.watermark, cell.state)])
  {
    hide CellBefore;
    assert rs[..i + 1][..i] == rs[..i];
  }

  lemma VisitEnds<S, V>(rs: seq<Registration<S, V>>, log: seq<Event>, n: nat)
    requires n <= |rs| && forall k :: 0 <= k < n ==> ReadOf(rs[k], log).Some?
    ensures n == |rs| ==> Visited(rs, log) == n
    ensures n < |rs| && ReadOf(rs[n], log).None? ==> Visited(rs, log) == n + 1
  {
    hide ReadOf;
  }

  lemma KeepingEnds<S, V>(rs: seq<Registration<S, V>>, log: seq<Event>, n: nat)
    requires n <= |rs| && forall k :: 0 <= k < n ==> !CellBefore(rs[k], log).faulted
    ensures n == |rs| ==> Kept(rs, log) == n
    ensures n < |rs| && CellBefore(rs[n], log).faulted ==> Kept(rs, log) == n + 1
  {
    hide CellBefore;
  }

  // ------------------------------------------------------------------ the registry itself

  class SessionProjections<S, V> {
    /** Registrations in registration order, with their cells for one session. */
    var registrations: seq<Registration<S, V>>
    /** How many subscribers the change stream has. What they do is contained and cannot change a cell. */
    var listeners: nat

    constructor ()
      ensures registrations == [] && listeners == 0
    {
      registrations, listeners := [], 0;
    }

    method Register(u: Unit<S, V>) returns (r: Result<(), RegisterError>)
      modifies this`registrations
      ensures registrations == Registering(old(registrations), u)
      ensures forall log :: CellsOk(old(registrations), log) ==> CellsOk(registrations, log)
      ensures var i := Position(old(registrations), u.key);
              r == if i < |old(registrations)| && old(registrations)[i].unit.version != u.version
                   then Err(VersionConflict(old(registrations)[i].unit.version)) else Ok(())
    {
      hide CellOk;
      var i := Position(registrations, u.key);
      if i == |registrations| {
        registrations := registrations + [Registration(u, None, 1)];
      } else if registrations[i].unit.version != u.version {
        return Err(VersionConflict(registrations[i].unit.version));
      } else {
        registrations := registrations[i := registrations[i].(refs := registrations[i].refs + 1)];
      }
      return Ok(());
    }

    /** What a disposer does the first time it is called. */
    method Dispose(key: string)
      modifies this`registrations
      ensures registrations == Disposing(old(registrations), key)
    {
      var i := Position(registrations, key);
      if i < |registrations| {
        if registrations[i].refs <= 1 {
          registrations := registrations[..i] + registrations[i + 1..];
        } else {
          registrations := registrations[i := registrations[i].(refs := registrations[i].refs - 1)];
        }
      }
    }

    method OnChanged()
      modifies this`listeners
      ensures listeners == old(listeners) + 1
    {
      listeners := listeners + 1;
    }

    /** What unsubscribing does the first time it is called. */
    method Unsubscribe()
      modifies this`listeners
      ensures listeners == if old(listeners) == 0 then 0 else old(listeners) - 1
    {
      if listeners > 0 {
        listeners := listeners - 1;
      }
    }

    /** `_cell_for`: the cell, agreeing with the log even when nothing had touched it before; None when faulted. */
    method CellFor(i: nat, log: seq<Event>) returns (r: Option<Cell<S>>)
      requires i < |registrations|
      modifies this`registrations
      ensures var cell := CellBefore(old(registrations)[i], log);
              && registrations == old(registrations)[i := old(registrations)[i].(cell := Some(cell))]
              && r == if cell.faulted then None else Some(cell)
      ensures NumberedLog(log) && CellsOk(old(registrations), log) ==>
                CellsOk(registrations, log) && (r.Some? <==> Fold(registrations[i].unit, log).Some?)
                && (r.Some? ==> Fold(registrations[i].unit, log) == Some(r.value.state))
    {
      var registration := registrations[i];
      var cell;
      if registration.cell.None? {
        cell := FoldCell(registration.unit, log);
        registrations := registrations[i := registration.(cell := Some(cell))];
      } else {
        cell := registration.cell.value;
      }
      TouchOk(old(registrations), i, log);
      return if cell.faulted then None else Some(cell);
    }

    /** `_drive`: take one committed event through the registered units. Publishing a change is outside the
        containment, so it may end the walk; the answer says whether it reached the end. */
    method Drive(log: seq<Event>, e: Event) returns (completed: bool)
      requires Last(log, e)
      modifies this`registrations
      ensures var before, rs := log[..|log| - 1], old(registrations);
              && registrations == Driven(rs, before, e, Reached(rs, before, e, listeners > 0))
              && (completed <==> forall k :: 0 <= k < |rs| ==> !Raises(rs[k], before, e, listeners > 0))
              && (CellsOk(rs, before) ==> (CellsOk(registrations, log) <==> Harmless(rs, before, e, listeners > 0)))
    {
      hide CellsOk, CellOk, NumberedLog, Taken, Raises, Driven, Harmless;
      var before := Before(log, e.seqNo);
      BeforeEvent(log, e);
      ghost var rs := registrations;
      DriveKeepsAgreement(rs, before, e, listeners > 0, log);
      DrivenNone(rs, before, e);
      for i := 0 to |registrations|
        invariant |registrations| == |rs| && registrations == Driven(rs, before, e, i)
        invariant forall k :: 0 <= k < i ==> !Raises(rs[k], before, e, listeners > 0)
      {
        DrivenOne(rs, before, e, i);
        var raised := TakeOne(i, before, e);
        if raised {
          return false;
        }
      }
      return true;
    }

    /** One registration takes an event and publishes its change. */
    method TakeOne(i: nat, before: seq<Event>, e: Event) returns (raised: bool)
      requires i < |registrations|
      modifies this`registrations
      ensures registrations == old(registrations)[i := Taken(old(registrations)[i], before, e)]
      ensures raised <==> Raises(old(registrations)[i], before, e, listeners > 0)
    {
      var registration := registrations[i];
      var cell;
      if registration.cell.None? {
        cell := FoldCell(registration.unit, before);
      } else {
        cell := registration.cell.value;
      }
      var next := DriveCell(registration.unit, cell, e);
      registrations := registrations[i := registration.(cell := Some(next))];
      var changed := !cell.faulted && !next.faulted && !registration.unit.keeps(cell.state, e);
      raised := changed && listeners > 0 && registration.unit.view(next.state).None?;
    }

    /** One unit's step on one event. */
    method DriveCell(u: Unit<S, V>, cell: Cell<S>, e: Event) returns (cell': Cell<S>)
      ensures cell' == DrivenCell(u, cell, e)
    {
      if cell.faulted {
        return cell;
      }
      var next := u.apply(cell.state, e);
      if next.None? {
        return cell.(faulted := true);
      }
      return Cell(next.value, e.seqNo, false);
    }

    /** A read across every unit. While the cells agree with the log, all its values are folds of the whole
        log, and it fails exactly when some unit has no value to give. */
    method Snapshot(log: seq<Event>) returns (r: Option<map<string, V>>)
      modifies this`registrations
      ensures registrations == Touched(old(registrations), log, Visited(old(registrations), log))
      ensures r == CellValues(old(registrations), log)
      ensures NumberedLog(log) && CellsOk(old(registrations), log) ==>
                CellsOk(registrations, log) && r == ValuesOf(UnitsOf(registrations), log)
    {
      hide CellsOk, NumberedLog, CellBefore, ValuesOf, Touched, CellValues, Visited, Fold;
      ghost var rs := registrations;
      SnapshotTells(rs, log);
      var values: map<string, V> := map[];
      TouchedNone(rs, log);
      NoValuesYet(rs, log);
      for i := 0 to |registrations|
        invariant |registrations| == |rs| && registrations == Touched(rs, log, i)
        invariant forall k :: 0 <= k < i ==> ReadOf(rs[k], log).Some?
        invariant CellValues(rs[..i], log) == Some(values)
      {
        TouchedOne(rs, log, i);
        ValueNext(rs, log, i);
        var unit := registrations[i].unit;
        var cell := CellFor(i, log);
        if cell.None? || unit.view(cell.value.state).None? {
          VisitEnds(rs, log, i);
          NoCellValues(rs, i + 1, log);
          return None;
        }
        values := values[unit.key := unit.view(cell.value.state).value];
      }
      assert rs[..|rs|] == rs;
      VisitEnds(rs, log, |rs|);
      return Some(values);
    }

    /** Rows for every unit, or nothing when some unit is faulted. */
    method Checkpoint(log: seq<Event>) returns (r: Option<Rows<S>>)
      modifies this`registrations
      ensures registrations == Touched(old(registrations), log, Kept(old(registrations), log))
      ensures r == CellRows(old(registrations), log)
      ensures Shape(registrations) && NumberedLog(log) && CellsOk(old(registrations), log) ==>
                && CellsOk(registrations, log)
                && (r.Some? <==> forall i :: 0 <= i < |registrations| ==> Fold(registrations[i].unit, log).Some?)
                && (r.Some? ==> RowsOf(UnitsOf(registrations), log, r.value))
    {
      hide CellsOk, NumberedLog, CellBefore, RowsOf, Fold, Touched, CellRows, Kept, Shape;
      ghost var rs := registrations;
      CheckpointTells(rs, log);
      var rows: Rows<S> := map[];
      TouchedNone(rs, log);
      NoValuesYet(rs, log);
      for i := 0 to |registrations|
        invariant |registrations| == |rs| && registrations == Touched(rs, log, i)
        invariant forall k :: 0 <= k < i ==> !CellBefore(rs[k], log).faulted
        invariant CellRows(rs[..i], log) == Some(rows)
      {
        TouchedOne(rs, log, i);
        RowNext(rs, log, i);
        var unit := registrations[i].unit;
        var cell := CellFor(i, log);
        if cell.None? {
          KeepingEnds(rs, log, i);
          NoCellRows(rs, i + 1, log);
          return None;
        }
        rows := rows[unit.key := Row(unit.version, cell.value.watermark, cell.value.state)];
      }
      assert rs[..|rs|] == rs;
      KeepingEnds(rs, log, |rs|);
      return Some(rows);
    }
  }

  // ------------------------------------------------------------------ when the cells agree with the log

  /** The registrations an event does not reach have no live cell that would miss it. */
  predicate Harmless<S, V>(rs: seq<Registration<S, V>>, before: seq<Event>, e: Event, listening: bool) {
    forall k :: Reached(rs, before, e, listening) <= k < |rs| ==> NoLiveCell(rs[k])
  }

  predicate NoLiveCell<S, V>(r: Registration<S, V>) {
    r.cell.None? || r.cell.value.faulted
  }

  /** A faulted cell agrees with every longer log, and a live one with none. */
  lemma UnseenEvent<S, V>(u: Unit<S, V>, cell: Cell<S>, before: seq<Event>, e: Event)
    requires CellOk(u, cell, before)
    ensures CellOk(u, cell, before + [e]) <==> cell.faulted
  {
    var log := before + [e];
    assert forall w :: 0 <= w <= |before| ==> log[..w] == before[..w];
  }

  /** One event keeps every cell in agreement exactly when the registrations it does not reach have no live
      cell. */
  lemma DriveKeepsAgreement<S, V>(
    rs: seq<Registration<S, V>>, before: seq<Event>, e: Event, listening: bool, log: seq<Event>)
    requires Last(log, e) && before == log[..|log| - 1]
    ensures CellsOk(rs, before) ==>
              (CellsOk(Driven(rs, before, e, Reached(rs, before, e, listening)), log) <==>
               Harmless(rs, before, e, listening))
  {
    hide CellOk, FoldedCell, DrivenCell, Reached;
    var n := Reached(rs, before, e, listening);
    var rs' := Driven(rs, before, e, n);
    assert log == before + [e];
    if CellsOk(rs, before) {
      forall k | 0 <= k < |rs| && k < n
        ensures CellOk(rs'[k].unit, rs'[k].cell.value, log)
      {
        FoldedCellOk(rs[k].unit, before);
        DrivenCellOk(rs[k].unit, CellBefore(rs[k], before), before, e);
      }
      forall k | n <= k < |rs| && rs[k].cell.Some?
        ensures CellOk(rs'[k].unit, rs'[k].cell.value, log) <==> NoLiveCell(rs[k])
      {
        UnseenEvent(rs[k].unit, rs[k].cell.value, before, e);
      }
      if !Harmless(rs, before, e, listening) {
        var k :| n <= k < |rs| && !NoLiveCell(rs[k]);
        assert !CellOk(rs'[k].unit, rs'[k].cell.value, log);
      }
    }
  }

  /** Without a subscriber, or when every unit has a value for its new state, every event is harmless. */
  lemma QuietIsHarmless<S, V>(rs: seq<Registration<S, V>>, before: seq<Event>, e: Event, listening: bool)
    requires !listening || forall k :: 0 <= k < |rs| ==> !Raises(rs[k], before, e, listening)
    ensures Harmless(rs, before, e, listening)
  {
    hide CellBefore;
    assert forall k :: 0 <= k < |rs| ==> !Raises(rs[k], before, e, listening);
  }

  lemma TouchOk<S, V>(rs: seq<Registration<S, V>>, i: nat, log: seq<Event>)
    requires i < |rs|
    ensures var cell := CellBefore(rs[i], log);
            NumberedLog(log) && CellsOk(rs, log) ==>
              && CellsOk(rs[i := rs[i].(cell := Some(cell))], log)
              && (!cell.faulted <==> Fold(rs[i].unit, log).Some?)
              && (!cell.faulted ==> Fold(rs[i].unit, log) == Some(cell.state) && cell.watermark == |log|)
  {
    hide CellOk, FoldedCell, Fold;
    if NumberedLog(log) && CellsOk(rs, log) {
      FoldedCellOk(rs[i].unit, log);
      CellTells(rs[i].unit, CellBefore(rs[i], log), log);
      if !CellBefore(rs[i], log).faulted {
        CellSeesAll(rs[i].unit, CellBefore(rs[i], log), log);
      }
    }
  }

  lemma TouchedOk<S, V>(rs: seq<Registration<S, V>>, log: seq<Event>, n: nat)
    requires NumberedLog(log) && CellsOk(rs, log)
    ensures CellsOk(Touched(rs, log, n), log)
  {
    hide CellOk, FoldedCell;
    forall k | 0 <= k < |rs|
      ensures CellOk(rs[k].unit, CellBefore(rs[k], log), log)
    {
      FoldedCellOk(rs[k].unit, log);
    }
  }

  lemma {:induction false} CellValuesAreFolds<S, V>(rs: seq<Registration<S, V>>, log: seq<Event>)
    requires NumberedLog(log) && CellsOk(rs, log)
    ensures CellValues(rs, log) == ValuesOf(UnitsOf(rs), log)
  {
    hide CellOk, FoldedCell, Fold;
    if rs == [] {
      NoValues<S, V>(log);
      assert UnitsOf(rs) == [];
    } else {
      var init, r := rs[..|rs| - 1], rs[|rs| - 1];
      CellValuesAreFolds(init, log);
      TouchOk(rs, |rs| - 1, log);
      assert UnitsOf(rs) == UnitsOf(init) + [r.unit];
      ValuesSnoc(UnitsOf(init), r.unit, log);
    }
  }

  lemma SnapshotTells<S, V>(rs: seq<Registration<S, V>>, log: seq<Event>)
    ensures var rs' := Touched(rs, log, Visited(rs, log));
            NumberedLog(log) && CellsOk(rs, log) ==>
              CellsOk(rs', log) && CellValues(rs, log) == ValuesOf(UnitsOf(rs'), log)
  {
    hide CellsOk, NumberedLog, Visited, FoldedCell, ValuesOf, CellValues;
    if NumberedLog(log) && CellsOk(rs, log) {
      TouchedOk(rs, log, Visited(rs, log));
      CellValuesAreFolds(rs, log);
      assert UnitsOf(Touched(rs, log, Visited(rs, log))) == UnitsOf(rs);
    }
  }

  lemma {:induction false} CellRowsAreFolds<S, V>(rs: seq<Registration<S, V>>, log: seq<Event>)
    requires Shape(rs) && NumberedLog(log) && CellsOk(rs, log)
    ensures CellRows(rs, log).Some? <==> forall i :: 0 <= i < |rs| ==> Fold(rs[i].unit, log).Some?
    ensures CellRows(rs, log).Some? ==> RowsOf(UnitsOf(rs), log, CellRows(rs, log).value)
  {
    hide CellOk, FoldedCell, Fold;
    if rs != [] {
      var init, r := rs[..|rs| - 1], rs[|rs| - 1];
      CellRowsAreFolds(init, log);
      TouchOk(rs, |rs| - 1, log);
      assert UnitsOf(rs) == UnitsOf(init) + [r.unit];
      if CellRows(rs, log).Some? {
        RowsOfSnoc(UnitsOf(init), r.unit, log, CellRows(init, log).value, CellBefore(r, log).state);
      }
    }
  }

  lemma CheckpointTells<S, V>(rs: seq<Registration<S, V>>, log: seq<Event>)
    ensures var rs' := Touched(rs, log, Kept(rs, log));
            Shape(rs') && NumberedLog(log) && CellsOk(rs, log) ==>
              && CellsOk(rs', log)
              && (CellRows(rs, log).Some? <==> forall i :: 0 <= i < |rs'| ==> Fold(rs'[i].unit, log).Some?)
              && (CellRows(rs, log).Some? ==> RowsOf(UnitsOf(rs'), log, CellRows(rs, log).value))
  {
    hide CellsOk, NumberedLog, Kept, FoldedCell, RowsOf, CellRows, Fold;
    var rs' := Touched(rs, log, Kept(rs, log));
    if Shape(rs') && NumberedLog(log) && CellsOk(rs, log) {
      assert forall i :: 0 <= i < |rs| ==> rs'[i].unit == rs[i].unit && rs'[i].refs == rs[i].refs;
      TouchedOk(rs, log, Kept(rs, log));
      CellRowsAreFolds(rs, log);
      assert UnitsOf(rs') == UnitsOf(rs);
    }
  }

  lemma {:induction false} NoCellValues<S, V>(rs: seq<Registration<S, V>>, n: nat, log: seq<Event>)
    requires 0 < n <= |rs| && ReadOf(rs[n - 1], log).None?
    ensures CellValues(rs, log).None?
    decreases |rs|
  {
    if n < |rs| {
      NoCellValues(rs[..|rs| - 1], n, log);
    }
  }

  lemma {:induction false} NoCellRows<S, V>(rs: seq<Registration<S, V>>, n: nat, log: seq<Event>)
    requires 0 < n <= |rs| && CellBefore(rs[n - 1], log).faulted
    ensures CellRows(rs, log).None?
    decreases |rs|
  {
    if n < |rs| {
      NoCellRows(rs[..|rs| - 1], n, log);
    }
  }

  lemma RowsOfSnoc<S, V>(units: seq<Unit<S, V>>, u: Unit<S, V>, log: seq<Event>, rows: Rows<S>, state: S)
    requires RowsOf(units, log, rows) && Fold(u, log) == Some(state)
    requires forall i :: 0 <= i < |units| ==> units[i].key != u.key
    ensures RowsOf(units + [u], log, rows[u.key := Row(u.version, |log|, state)])
  {
    hide Fold;
  }

  /** Rows of these units, folded over exactly this log. */
  ghost predicate RowsOf<S, V>(units: seq<Unit<S, V>>, log: seq<Event>, rows: Rows<S>) {
    forall i :: 0 <= i < |units| ==>
      && units[i].key in rows && Fold(units[i], log).Some?
      && rows[units[i].key] == Row(units[i].version, |log|, Fold(units[i], log).value)
  }

  lemma BeforeEvent(log: seq<Event>, e: Event)
    requires Last(log, e)
    ensures Before(log, e.seqNo) == log[..|log| - 1]
  {
    BeforeAll(log[..|log| - 1], e.seqNo);
  }

  // ---------------------------------------------------------- values of a full fold

  function ValueOf<S, V>(u: Unit<S, V>, log: seq<Event>): Option<V> {
    var state := Fold(u, log);
    if state.None? then None else u.view(state.value)
  }

  /** Every unit's view of the fold of the whole log, or None when some unit has none. */
  function ValuesOf<S, V>(units: seq<Unit<S, V>>, log: seq<Event>): Option<map<string, V>> {
    if units == [] then Some(map[])
    else
      var u := units[|units| - 1];
      var before, value := ValuesOf(units[..|units| - 1], log), ValueOf(u, log);
      if before.None? || value.None? then None else Some(before.value[u.key := value.value])
  }

  lemma NoValues<S, V>(log: seq<Event>)
    ensures var none: seq<Unit<S, V>> := []; ValuesOf(none, log) == Some(map[])
  {
  }

  lemma ValuesSnoc<S, V>(units: seq<Unit<S, V>>, u: Unit<S, V>, log: seq<Event>)
    ensures ValuesOf(units + [u], log) ==
            if ValuesOf(units, log).None? || ValueOf(u, log).None? then None
            else Some(ValuesOf(units, log).value[u.key := ValueOf(u, log).value])
  {
    assert (units + [u])[..|units|] == units;
  }

  lemma {:induction false} ValuesMissing<S, V>(units: seq<Unit<S, V>>, n: nat, log: seq<Event>)
    requires n <= |units| && ValuesOf(units[..n], log).None?
    ensures ValuesOf(units, log).None?
    decreases |units|
  {
    if n == |units| {
      assert units[..n] == units;
    } else {
      assert units[..|units| - 1][..n] == units[..n];
      ValuesMissing(units[..|units| - 1], n, log);
    }
  }

  /** What a snapshot's map means, key by key. */
  lemma {:induction false} ValuesByKey<S, V>(units: seq<Unit<S, V>>, log: seq<Event>, i: nat)
    requires i < |units| && ValuesOf(units, log).Some?
    requires forall j :: i < j < |units| ==> units[j].key != units[i].key
    ensures units[i].key in ValuesOf(units, log).value
    ensures Some(ValuesOf(units, log).value[units[i].key]) == ValueOf(units[i], log)
  {
    if i < |units| - 1 {
      ValuesByKey(units[..|units| - 1], log, i);
    }
  }

  lemma FaultIsForever<S, V>(u: Unit<S, V>, log: seq<Event>, more: seq<Event>)
    requires Fold(u, log).None?
    ensures ValueOf(u, log + more).None?
  {
    FoldConcat(u, u.init, log, more);
  }

  // ------------------------------------------------------------ any interleaving

  /** `Miss` is an event that is committed but never broadcast: a replacement that fails after its event is in
      the log. */
  datatype DriverStep<!S, !V> =
    | Join(u: Unit<S, V>)
    | Leave(key: string)
    | Commit(e: Event)
    | Miss(e: Event)
    | Read
    | Rows
    | Listen
    | Unlisten

  /** How many handles on each key are not disposed yet; keys without one are absent. */
  type Handles = map<string, nat>

  datatype Driver<!S, !V> = Driver(
    registrations: seq<Registration<S, V>>, log: seq<Event>, live: Handles, listeners: nat)

  function Fresh<S, V>(): Driver<S, V> {
    Driver([], [], map[], 0)
  }

  function Joined(live: Handles, key: string): Handles {
    live[key := if key in live then live[key] + 1 else 1]
  }

  function Left(live: Handles, key: string): Handles {
    if key !in live then live
    else if live[key] <= 1 then live - {key}
    else live[key := live[key] - 1]
  }

  function Next<S, V>(d: Driver<S, V>, e: Event): Event {
    e.(seqNo := |d.log| + 1)
  }

  predicate Conflicts<S, V>(rs: seq<Registration<S, V>>, u: Unit<S, V>) {
    var i := Position(rs, u.key);
    i < |rs| && rs[i].unit.version != u.version
  }

  /** One call. A disposer acts once, so leaving does something only while a handle on the key is live. */
  function Performed<S, V>(d: Driver<S, V>, step: DriverStep<S, V>): Driver<S, V> {
    match step
    case Join(u) =>
      d.(registrations := Registering(d.registrations, u),
         live := if Conflicts(d.registrations, u) then d.live else Joined(d.live, u.key))
    case Leave(key) =>
      if key !in d.live then d
      else d.(registrations := Disposing(d.registrations, key), live := Left(d.live, key))
    case Commit(e) =>
      var n := Reached(d.registrations, d.log, Next(d, e), d.listeners > 0);
      d.(registrations := Driven(d.registrations, d.log, Next(d, e), n), log := d.log + [Next(d, e)])
    case Miss(e) => d.(log := d.log + [Next(d, e)])
    case Read => d.(registrations := Touched(d.registrations, d.log, Visited(d.registrations, d.log)))
    case Rows => d.(registrations := Touched(d.registrations, d.log, Kept(d.registrations, d.log)))
    case Listen => d.(listeners := d.listeners + 1)
    case Unlisten => d.(listeners := if d.listeners == 0 then 0 else d.listeners - 1)
  }

  function RunDriver<S, V>(steps: seq<DriverStep<S, V>>): Driver<S, V> {
    if steps == [] then Fresh()
    else Performed(RunDriver(steps[..|steps| - 1]), steps[|steps| - 1])
  }

  /** What can be checked before a step: an event reaches every registration with a live cell. */
  predicate SafeStep<S, V>(d: Driver<S, V>, step: DriverStep<S, V>) {
    match step
    case Commit(e) => Harmless(d.registrations, d.log, Next(d, e), d.listeners > 0)
    case Miss(_) => forall k :: 0 <= k < |d.registrations| ==> NoLiveCell(d.registrations[k])
    case _ => true
  }

  predicate AllSafe<S, V>(steps: seq<DriverStep<S, V>>) {
    steps == [] ||
    (AllSafe(steps[..|steps| - 1]) && SafeStep(RunDriver(steps[..|steps| - 1]), steps[|steps| - 1]))
  }

  ghost predicate Registered<S, V>(rs: seq<Registration<S, V>>, key: string) {
    exists i :: 0 <= i < |rs| && rs[i].unit.key == key
  }

  /** Registrations are counted: a key is registered exactly while some handle on it is live. */
  ghost predicate RefsMatch<S, V>(rs: seq<Registration<S, V>>, live: Handles) {
    && (forall i :: 0 <= i < |rs| ==> rs[i].unit.key in live && rs[i].refs == live[rs[i].unit.key])
    && (forall k :: k in live ==> Registered(rs, k))
  }

  ghost predicate Orderly<S, V>(d: Driver<S, V>) {
    NumberedLog(d.log) && Shape(d.registrations) && RefsMatch(d.registrations, d.live)
  }

  /** Registrations, handles and the log stay in order whatever happens to the cells. */
  lemma StepIsOrderly<S, V>(d: Driver<S, V>, step: DriverStep<S, V>)
    requires Orderly(d)
    ensures Orderly(Performed(d, step))
  {
    hide Reached, Visited, Kept, FoldedCell, DrivenCell, RefsMatch, Shape, NumberedLog, Position, Joined, Left;
    match step
    case Join(u) => JoinMatches(d.registrations, d.live, u);
    case Leave(key) =>
      if key in d.live {
        LeaveMatches(d.registrations, d.live, key);
      }
    case Commit(e) =>
      SameUnitsMatch(d.registrations, Performed(d, step).registrations, d.live);
      CommitIsLast(d.log, Next(d, e));
    case Miss(e) => CommitIsLast(d.log, Next(d, e));
    case Read => SameUnitsMatch(d.registrations, Performed(d, step).registrations, d.live);
    case Rows => SameUnitsMatch(d.registrations, Performed(d, step).registrations, d.live);
    case Listen =>
    case Unlisten =>
  }

  lemma {:induction false} RunIsOrderly<S, V>(steps: seq<DriverStep<S, V>>)
    ensures Orderly(RunDriver(steps))
  {
    if steps != [] {
      hide Performed, Orderly;
      RunIsOrderly(steps[..|steps| - 1]);
      StepIsOrderly(RunDriver(steps[..|steps| - 1]), steps[|steps| - 1]);
    }
  }

  /** From agreement, one step keeps every cell in agreement with the log exactly when it is safe. */
  lemma StepAgreesExactly<S, V>(d: Driver<S, V>, step: DriverStep<S, V>)
    requires Orderly(d) && CellsOk(d.registrations, d.log)
    ensures var d' := Performed(d, step); CellsOk(d'.registrations, d'.log) <==> SafeStep(d, step)
  {
    hide Reached, Visited, Kept, FoldedCell, DrivenCell, RefsMatch, CellOk, Harmless, Driven, Touched;
    match step
    case Join(u) =>
    case Leave(key) => DisposingKeepsCells(d.registrations, key, d.log);
    case Commit(e) =>
      CommitIsLast(d.log, Next(d, e));
      DriveKeepsAgreement(d.registrations, d.log, Next(d, e), d.listeners > 0, d.log + [Next(d, e)]);
    case Miss(e) => MissKeepsAgreement(d.registrations, d.log, Next(d, e));
    case Read => TouchedOk(d.registrations, d.log, Visited(d.registrations, d.log));
    case Rows => TouchedOk(d.registrations, d.log, Kept(d.registrations, d.log));
    case Listen =>
    case Unlisten =>
  }

  lemma DisposingKeepsCells<S, V>(rs: seq<Registration<S, V>>, key: string, log: seq<Event>)
    requires CellsOk(rs, log)
    ensures CellsOk(Disposing(rs, key), log)
  {
    hide CellOk;
    var i, rs' := Position(rs, key), Disposing(rs, key);
    assert forall j :: 0 <= j < |rs'| && |rs'| < |rs| ==> rs'[j] == rs[if j >= i then j + 1 else j];
  }

  lemma MissKeepsAgreement<S, V>(rs: seq<Registration<S, V>>, log: seq<Event>, e: Event)
    requires CellsOk(rs, log)
    ensures CellsOk(rs, log + [e]) <==> forall k :: 0 <= k < |rs| ==> NoLiveCell(rs[k])
  {
    hide CellOk;
    forall k | 0 <= k < |rs| && rs[k].cell.Some?
      ensures CellOk(rs[k].unit, rs[k].cell.value, log + [e]) <==> NoLiveCell(rs[k])
    {
      UnseenEvent(rs[k].unit, rs[k].cell.value, log, e);
    }
  }

  /** Over every interleaving of safe steps each live cell is the fold of the whole log. */
  lemma {:induction false} DriverAgrees<S, V>(steps: seq<DriverStep<S, V>>)
    requires AllSafe(steps)
    ensures var d := RunDriver(steps); CellsOk(d.registrations, d.log)
  {
    if steps != [] {
      hide Performed, SafeStep, CellsOk;
      DriverAgrees(steps[..|steps| - 1]);
      RunIsOrderly(steps[..|steps| - 1]);
      StepAgreesExactly(RunDriver(steps[..|steps| - 1]), steps[|steps| - 1]);
    } else {
      hide CellOk;
    }
  }

  /** With no subscriber and no failed replacement every step is safe. */
  lemma {:induction false} UnheardRunsAgree<S, V>(steps: seq<DriverStep<S, V>>)
    requires forall i :: 0 <= i < |steps| ==> !steps[i].Listen? && !steps[i].Miss?
    ensures AllSafe(steps) && RunDriver(steps).listeners == 0
  {
    hide Harmless, Reached, Driven, Touched, Registering, Disposing;
    if steps != [] {
      var before, step := steps[..|steps| - 1], steps[|steps| - 1];
      UnheardRunsAgree(before);
      var d := RunDriver(before);
      if step.Commit? {
        QuietIsHarmless(d.registrations, d.log, Next(d, step.e), false);
      }
    }
  }

  /** Any interleaving, performed. */
  method Interleave<S, V>(steps: seq<DriverStep<S, V>>)
    returns (p: SessionProjections<S, V>, log: seq<Event>, live: Handles)
    ensures RunDriver(steps) == Driver(p.registrations, log, live, p.listeners)
    ensures NumberedLog(log) && Shape(p.registrations) && RefsMatch(p.registrations, live)
    ensures AllSafe(steps) ==> CellsOk(p.registrations, log)
  {
    hide RefsMatch, Shape, NumberedLog, CellsOk, Registering, Disposing, Driven, Touched, AllSafe, Reached, Visited,
         Kept;
    p := new SessionProjections<S, V>();
    log, live := [], map[];
    for i := 0 to |steps|
      invariant fresh(p) && RunDriver(steps[..i]) == Driver(p.registrations, log, live, p.listeners)
    {
      assert steps[..i + 1][..i] == steps[..i];
      match steps[i] {
        case Join(u) =>
          var r := p.Register(u);
          if r.Ok? {
            live := Joined(live, u.key);
          }
        case Leave(key) =>
          if key in live {
            p.Dispose(key);
            live := Left(live, key);
          }
        case Commit(e) =>
          RunIsOrderly(steps[..i]);
          var committed := e.(seqNo := |log| + 1);
          CommitIsLast(log, committed);
          log := log + [committed];
          var _ := p.Drive(log, committed);
        case Miss(e) => log := log + [e.(seqNo := |log| + 1)];
        case Read => var _ := p.Snapshot(log);
        case Rows => var _ := p.Checkpoint(log);
        case Listen => p.OnChanged();
        case Unlisten => p.Unsubscribe();
      }
    }
    assert steps[..|steps|] == steps;
    RunIsOrderly(steps);
    if AllSafe(steps) {
      DriverAgrees(steps);
    }
  }

  lemma CommitIsLast(log: seq<Event>, e: Event)
    requires NumberedLog(log) && e.seqNo == |log| + 1
    ensures Last(log + [e], e) && (log + [e])[..|log|] == log
  {
  }

  lemma SameUnitsMatch<S, V>(a: seq<Registration<S, V>>, b: seq<Registration<S, V>>, live: Handles)
    requires SameUnits(b, a) && RefsMatch(a, live) && Shape(a)
    ensures RefsMatch(b, live) && Shape(b)
  {
    forall k | k in live
      ensures Registered(b, k)
    {
      var i :| 0 <= i < |a| && a[i].unit.key == k;
      assert b[i].unit.key == k;
    }
  }

  lemma JoinMatches<S, V>(rs: seq<Registration<S, V>>, live: Handles, u: Unit<S, V>)
    requires RefsMatch(rs, live) && Shape(rs)
    ensures Shape(Registering(rs, u))
    ensures RefsMatch(Registering(rs, u), if Conflicts(rs, u) then live else Joined(live, u.key))
  {
    hide RefsMatch, Joined;
    var i := Position(rs, u.key);
    if i == |rs| {
      JoinNew(rs, live, u);
    } else {
      JoinExisting(rs, live, i);
    }
  }

  lemma JoinNew<S, V>(rs: seq<Registration<S, V>>, live: Handles, u: Unit<S, V>)
    requires RefsMatch(rs, live) && forall i :: 0 <= i < |rs| ==> rs[i].unit.key != u.key
    ensures RefsMatch(rs + [Registration(u, None, 1)], Joined(live, u.key))
  {
    var rs' := rs + [Registration(u, None, 1)];
    forall k | k in Joined(live, u.key)
      ensures Registered(rs', k)
    {
      if k == u.key {
        assert rs'[|rs|].unit.key == k;
      } else {
        var j :| 0 <= j < |rs| && rs[j].unit.key == k;
        assert rs'[j].unit.key == k;
      }
    }
  }

  lemma JoinExisting<S, V>(rs: seq<Registration<S, V>>, live: Handles, i: nat)
    requires RefsMatch(rs, live) && Shape(rs) && i < |rs|
    ensures RefsMatch(rs[i := rs[i].(refs := rs[i].refs + 1)], Joined(live, rs[i].unit.key))
  {
    var rs' := rs[i := rs[i].(refs := rs[i].refs + 1)];
    forall k | k in Joined(live, rs[i].unit.key)
      ensures Registered(rs', k)
    {
      var j :| 0 <= j < |rs| && rs[j].unit.key == k;
      assert rs'[j].unit.key == k;
    }
  }

  lemma LeaveMatches<S, V>(rs: seq<Registration<S, V>>, live: Handles, key: string)
    requires RefsMatch(rs, live) && Shape(rs) && key in live
    ensures Shape(Disposing(rs, key)) && RefsMatch(Disposing(rs, key), Left(live, key))
  {
    hide Left, RefsMatch;
    LiveIsRegistered(rs, live, key);
    var i := Position(rs, key);
    if rs[i].refs <= 1 {
      LeaveLast(rs, live, i, key);
      ShapeWithout(rs, i);
    } else {
      LeaveOne(rs, live, i, key);
    }
  }

  lemma LiveIsRegistered<S, V>(rs: seq<Registration<S, V>>, live: Handles, key: string)
    requires RefsMatch(rs, live) && key in live
    ensures Position(rs, key) < |rs|
  {
    assert Registered(rs, key);
  }

  lemma ShapeWithout<S, V>(rs: seq<Registration<S, V>>, i: nat)
    requires Shape(rs) && i < |rs|
    ensures Shape(rs[..i] + rs[i + 1..])
  {
    var rs' := rs[..i] + rs[i + 1..];
    assert forall j :: 0 <= j < |rs'| ==> rs'[j] == rs[if j >= i then j + 1 else j];
  }

  /** The key at position i, and no other position, is `key`. */
  ghost predicate OnlyAt<S, V>(rs: seq<Registration<S, V>>, i: nat, key: string) {
    i < |rs| && rs[i].unit.key == key && forall j :: 0 <= j < |rs| && j != i ==> rs[j].unit.key != key
  }

  lemma LeaveLast<S, V>(rs: seq<Registration<S, V>>, live: Handles, i: nat, key: string)
    requires RefsMatch(rs, live) && OnlyAt(rs, i, key) && rs[i].refs <= 1
    ensures RefsMatch(rs[..i] + rs[i + 1..], Left(live, key))
  {
    var rs', live' := rs[..i] + rs[i + 1..], Left(live, key);
    forall j | 0 <= j < |rs'|
      ensures rs'[j].unit.key in live' && rs'[j].refs == live'[rs'[j].unit.key]
    {
      assert rs'[j] == rs[if j >= i then j + 1 else j];
    }
    forall k | k in live'
      ensures Registered(rs', k)
    {
      assert Registered(rs, k);
      var j :| 0 <= j < |rs| && rs[j].unit.key == k;
      assert rs'[if j > i then j - 1 else j].unit.key == k;
    }
  }

  lemma LeaveOne<S, V>(rs: seq<Registration<S, V>>, live: Handles, i: nat, key: string)
    requires RefsMatch(rs, live) && OnlyAt(rs, i, key) && rs[i].refs > 1
    ensures RefsMatch(rs[i := rs[i].(refs := rs[i].refs - 1)], Left(live, key))
  {
    var rs', live' := rs[i := rs[i].(refs := rs[i].refs - 1)], Left(live, key);
    forall k | k in live'
      ensures Registered(rs', k)
    {
      assert Registered(rs, k);
      var j :| 0 <= j < |rs| && rs[j].unit.key == k;
      assert rs'[j].unit.key == k;
    }
  }

  // ------------------------------------------------------------ an event that one unit never sees

  const TICK := Event(Unknown("tick"), 0, OtherData(0), NoOp, [])

  /** Counts events; its value fails, or does not, on one count. */
  function Counter(key: string, noValueAt: int): Unit<int, int> {
    Unit(key, 0, (state, event) => Some(state + 1), (state, event) => false,
         state => if state == noValueAt then None else Some(state), 1)
  }

  function MissedEvent(): seq<DriverStep<int, int>> {
    [Join(Counter("a", 2)), Join(Counter("b", -1)), Listen, Commit(TICK), Commit(TICK), Commit(TICK)]
  }

  lemma Unrolled<S, V>(steps: seq<DriverStep<S, V>>, step: DriverStep<S, V>)
    ensures RunDriver(steps + [step]) == Performed(RunDriver(steps), step)
  {
    assert (steps + [step])[..|steps|] == steps;
  }

  function At(key: string, noValueAt: int, state: int, watermark: int): Registration<int, int> {
    Registration(Counter(key, noValueAt), Some(Cell(state, watermark, false)), 1)
  }

  lemma TickTaken(key: string, noValueAt: int, state: int, watermark: int, before: seq<Event>, e: Event)
    ensures var r := At(key, noValueAt, state, watermark);
            && Taken(r, before, e) == At(key, noValueAt, state + 1, e.seqNo)
            && (Raises(r, before, e, true) <==> state + 1 == noValueAt)
  {
  }

  lemma FirstTick(key: string, noValueAt: int, e: Event)
    requires noValueAt != 1
    ensures var r := Registration(Counter(key, noValueAt), None, 1);
            Taken(r, [], e) == At(key, noValueAt, 1, e.seqNo) && !Raises(r, [], e, true)
  {
    hide Counter;
    var u := Counter(key, noValueAt);
    assert FoldedCell(u, []) == Cell(u.init, EMPTY_WATERMARK, false);
    TickTaken(key, noValueAt, 0, EMPTY_WATERMARK, [], e);
    CounterStarts(key, noValueAt);
  }

  lemma CounterStarts(key: string, noValueAt: int)
    ensures Counter(key, noValueAt).init == 0
  {
  }

  lemma DriveTwo(a: Registration<int, int>, b: Registration<int, int>, before: seq<Event>, e: Event)
    ensures var n := Reached([a, b], before, e, true);
            Driven([a, b], before, e, n) ==
            [Taken(a, before, e), if Raises(a, before, e, true) then b else Taken(b, before, e)]
  {
    hide Taken, Raises;
    assert [a, b][1..] == [b] && [b][1..] == [];
  }

  /** Two units, one subscriber, three events. On the second the first unit has no value for its new state, so
      publishing raises and the second unit never sees the event: it ends unfaulted, at the log's end, one
      short, and so does the row a checkpoint would store for it. */
  lemma LaterUnitMissesAnEvent()
    ensures var d, u := RunDriver(MissedEvent()), Counter("b", -1);
            && |d.log| == 3 && NumberedLog(d.log) && |d.registrations| == 2
            && d.registrations[1].unit == u && d.registrations[1].cell == Some(Cell(2, 3, false))
            && Fold(u, d.log) == Some(3) && !CellOk(u, Cell(2, 3, false), d.log)
            && CellRows(d.registrations, d.log) == Some(map["a" := Row(1, 3, 3), "b" := Row(1, 3, 2)])
  {
    hide Counter, Taken, Raises, Performed, At, CellOk, Fold, CellRows;
    var joined := Subscribed();
    var e1, e2, e3 := TICK.(seqNo := 1), TICK.(seqNo := 2), TICK.(seqNo := 3);
    FirstTick("a", 2, e1);
    FirstTick("b", -1, e1);
    CommitTwo(joined, e1);
    var d1 := Performed(joined, Commit(TICK));
    assert d1 == joined.(registrations := [At("a", 2, 1, 1), At("b", -1, 1, 1)], log := [e1]);
    TickTaken("a", 2, 1, 1, d1.log, e2);
    CommitTwo(d1, e2);
    var d2 := Performed(d1, Commit(TICK));
    assert d2 == joined.(registrations := [At("a", 2, 2, 2), At("b", -1, 1, 1)], log := [e1, e2]);
    TickTaken("a", 2, 2, 2, d2.log, e3);
    TickTaken("b", -1, 1, 1, d2.log, e3);
    CommitTwo(d2, e3);
    var d3 := Performed(d2, Commit(TICK));
    assert d3 == joined.(registrations := [At("a", 2, 3, 3), At("b", -1, 2, 3)], log := [e1, e2, e3]);
    ThreeCommits(joined);
    ThreeTicks(e1, e2, e3);
    CountedRows(d3.log);
  }

  /** One event on two units while somebody listens. */
  lemma CommitTwo(d: Driver<int, int>, e: Event)
    requires |d.registrations| == 2 && d.listeners == 1 && e == TICK.(seqNo := |d.log| + 1)
    ensures var a, b := d.registrations[0], d.registrations[1];
            Performed(d, Commit(TICK)) ==
            d.(registrations := [Taken(a, d.log, e), if Raises(a, d.log, e, true) then b else Taken(b, d.log, e)],
               log := d.log + [e])
  {
    hide Taken, Raises, Reached, Driven;
    assert d.registrations == [d.registrations[0], d.registrations[1]];
    DriveTwo(d.registrations[0], d.registrations[1], d.log, e);
  }

  /** Both units registered, one subscriber, nothing logged yet. */
  function Subscribed(): Driver<int, int> {
    Driver([Registration(Counter("a", 2), None, 1), Registration(Counter("b", -1), None, 1)], [],
           map["a" := 1, "b" := 1], 1)
  }

  lemma ThreeCommits(joined: Driver<int, int>)
    requires joined == Subscribed()
    ensures RunDriver(MissedEvent()) ==
            Performed(Performed(Performed(joined, Commit(TICK)), Commit(TICK)), Commit(TICK))
  {
    var a, b := Join(Counter("a", 2)), Join(Counter("b", -1));
    SetUp();
    hide Performed, Counter, Subscribed;
    Unrolled([a, b, Listen], Commit(TICK));
    Unrolled([a, b, Listen, Commit(TICK)], Commit(TICK));
    Unrolled([a, b, Listen, Commit(TICK), Commit(TICK)], Commit(TICK));
    assert MissedEvent() == [a, b, Listen, Commit(TICK), Commit(TICK)] + [Commit(TICK)];
    assert [a, b, Listen] + [Commit(TICK)] == [a, b, Listen, Commit(TICK)];
    assert [a, b, Listen, Commit(TICK)] + [Commit(TICK)] == [a, b, Listen, Commit(TICK), Commit(TICK)];
  }

  lemma SetUp()
    ensures RunDriver([Join(Counter("a", 2)), Join(Counter("b", -1)), Listen]) == Subscribed()
  {
    hide Performed;
    var a, b := Counter("a", 2), Counter("b", -1);
    var none: seq<DriverStep<int, int>> := [];
    Unrolled(none, Join(a));
    Unrolled([Join(a)], Join(b));
    Unrolled([Join(a), Join(b)], Listen);
    assert none + [Join(a)] == [Join(a)] && [Join(a)] + [Join(b)] == [Join(a), Join(b)];
    assert [Join(a), Join(b)] + [Listen] == [Join(a), Join(b), Listen];
    TwoJoin(a, b);
  }

  lemma TwoJoin<S, V>(a: Unit<S, V>, b: Unit<S, V>)
    requires a.key != b.key
    ensures Performed(Performed(Performed(Fresh(), Join(a)), Join(b)), Listen) ==
            Driver([Registration(a, None, 1), Registration(b, None, 1)], [], map[a.key := 1, b.key := 1], 1)
  {
    var rs: seq<Registration<S, V>> := [];
    assert Position(rs, a.key) == 0 && rs + [Registration(a, None, 1)] == [Registration(a, None, 1)];
    var d1 := Performed(Fresh(), Join(a));
    assert d1 == Driver([Registration(a, None, 1)], [], map[a.key := 1], 0);
    JoinOther(d1, a, b);
  }

  lemma JoinOther<S, V>(d: Driver<S, V>, a: Unit<S, V>, b: Unit<S, V>)
    requires a.key != b.key && d == Driver([Registration(a, None, 1)], [], map[a.key := 1], 0)
    ensures Performed(d, Join(b)) ==
            Driver([Registration(a, None, 1), Registration(b, None, 1)], [], map[a.key := 1, b.key := 1], 0)
  {
    assert d.registrations[1..] == [];
    assert Position(d.registrations, b.key) == 1;
    assert d.registrations + [Registration(b, None, 1)] == [Registration(a, None, 1), Registration(b, None, 1)];
  }

  lemma ThreeTicks(e1: Event, e2: Event, e3: Event)
    ensures Fold(Counter("b", -1), [e1, e2, e3]) == Some(3)
    ensures !CellOk(Counter("b", -1), Cell(2, 3, false), [e1, e2, e3])
  {
    assert [e1, e2, e3][..3] == [e1, e2, e3];
    var u := Counter("b", -1);
    FoldSnoc(u, [], e1);
    FoldSnoc(u, [e1], e2);
    FoldSnoc(u, [e1, e2], e3);
    assert [] + [e1] == [e1] && [e1] + [e2] == [e1, e2] && [e1, e2] + [e3] == [e1, e2, e3];
  }

  lemma CountedRows(log: seq<Event>)
    ensures CellRows([At("a", 2, 3, 3), At("b", -1, 2, 3)], log) ==
            Some(map["a" := Row(1, 3, 3), "b" := Row(1, 3, 2)])
    ensures At("b", -1, 2, 3).unit == Counter("b", -1) && At("b", -1, 2, 3).cell == Some(Cell(2, 3, false))
  {
    var a, b := At("a", 2, 3, 3), At("b", -1, 2, 3);
    assert [a, b][..1] == [a] && [a][..0] == [];
    assert CellRows([a], log) == Some(map["a" := Row(1, 3, 3)]);
    assert CellBefore(b, log) == Cell(2, 3, false) && b.unit.key == "b" && b.unit.version == 1;
    assert map["a" := Row(1, 3, 3)]["b" := Row(1, 3, 2)] == map["a" := Row(1, 3, 3), "b" := Row(1, 3, 2)];
  }
}
