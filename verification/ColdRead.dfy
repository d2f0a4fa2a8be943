/** Restoring folds from stored rows, and the cache of those rows
    (session/projection.py, session/cache.py). */
module ColdRead {
  import opened Prelude
  import opened Sessions
  import opened Projection

  function PrefixTo(log: seq<Event>, n: int): seq<Event> {
    if n <= 0 then [] else if n >= |log| then log else log[..n]
  }

  /** A row that claims this version and no more than the log holds is the fold of that much
      of the log. Rows of other versions and rows ahead of the log may hold anything. */
  ghost predicate RowTrue<S, V>(u: Unit<S, V>, rows: Rows<S>, log: seq<Event>) {
    u.key in rows && rows[u.key].ver == u.version && rows[u.key].seqNo <= |log| ==>
      Fold(u, PrefixTo(log, rows[u.key].seqNo)) == Some(rows[u.key].val)
  }

  ghost predicate RowsTrue<S, V>(units: seq<Unit<S, V>>, rows: Rows<S>, log: seq<Event>) {
    forall i :: 0 <= i < |units| ==> RowTrue(units[i], rows, log)
  }

  predicate Leads<S, V>(u: Unit<S, V>, rows: Rows<S>, log: seq<Event>) {
    u.key in rows && rows[u.key].ver == u.version && rows[u.key].seqNo > |log|
  }

  // ----------------------------------------------------------------- the restore

  /** The first event a unit still needs. */
  function Need<S, V>(u: Unit<S, V>, rows: Rows<S>): int {
    if u.key in rows && rows[u.key].ver == u.version then rows[u.key].seqNo + 1 else FIRST_SEQ
  }

  function LeastNeed<S, V>(units: seq<Unit<S, V>>, rows: Rows<S>): (least: int)
    requires units != []
    ensures forall i :: 0 <= i < |units| ==> least <= Need(units[i], rows)
    ensures exists i :: 0 <= i < |units| && least == Need(units[i], rows)
  {
    var last := Need(units[|units| - 1], rows);
    if |units| == 1 then last
    else
      var init := units[..|units| - 1];
      var least := LeastNeed(init, rows);
      assert forall i :: 0 <= i < |init| ==> init[i] == units[i];
      if last < least then last else least
  }

  function RestoreFloor<S, V>(units: seq<Unit<S, V>>, rows: Rows<S>): Option<int> {
    if units == [] then None else Some(Max(LeastNeed(units, rows) - 1, EMPTY_WATERMARK))
  }

  /** The stored events at or after a sequence number. */
  function ReadFrom(log: seq<Event>, from: int): seq<Event> {
    if log == [] then []
    else if log[|log| - 1].seqNo >= from then ReadFrom(log[..|log| - 1], from) + [log[|log| - 1]]
    else ReadFrom(log[..|log| - 1], from)
  }

  lemma {:induction false} ReadFromIsSuffix(log: seq<Event>, from: int)
    requires NumberedLog(log)
    ensures ReadFrom(log, from) == if from <= 1 then log else if from > |log| then [] else log[from - 1..]
  {
    if log != [] {
      NumberedInit(log);
      hide NumberedLog;
      var init, e := log[..|log| - 1], log[|log| - 1];
      ReadFromIsSuffix(init, from);
      if 1 < from < |log| {
        assert log[from - 1..] == init[from - 1..] + [e];
      } else if 1 < from == |log| {
        assert log[from - 1..] == [e];
      }
    }
  }

  datatype RestoreError = Refused(key: string) | ApplyRaised(key: string) | ViewRaised(key: string)

  datatype Restored<!S, !V> = Restored(asOf: int, values: map<string, V>, rows: Rows<S>)

  function FoldAfter<S, V>(u: Unit<S, V>, state: S, events: seq<Event>, from: int): Option<S> {
    if events == [] then Some(state)
    else
      var before, e := FoldAfter(u, state, events[..|events| - 1], from), events[|events| - 1];
      if before.None? then None else if e.seqNo > from then u.apply(before.value, e) else before
  }

  function EndSeq(events: seq<Event>, base: int): int {
    if events != [] then events[|events| - 1].seqNo else base - 1
  }

  predicate Usable<S, V>(u: Unit<S, V>, rows: Rows<S>, events: seq<Event>, base: int) {
    u.key in rows && rows[u.key].ver == u.version && base - 1 <= rows[u.key].seqNo <= EndSeq(events, base)
  }

  function RestoreOne<S, V>(u: Unit<S, V>, rows: Rows<S>, events: seq<Event>,
                            base: int): Result<(V, Row<S>), RestoreError> {
    if Usable(u, rows, events, base) then
      Finish(u, FoldAfter(u, rows[u.key].val, events, rows[u.key].seqNo), EndSeq(events, base))
    else if base > FIRST_SEQ then Err(Refused(u.key))
    else Finish(u, FoldAfter(u, u.init, events, base - 1), EndSeq(events, base))
  }

  function Finish<S, V>(u: Unit<S, V>, state: Option<S>, asOf: int): Result<(V, Row<S>), RestoreError> {
    if state.None? then Err(ApplyRaised(u.key))
    else
      var view := u.view(state.value);
      if view.None? then Err(ViewRaised(u.key)) else Ok((view.value, Row(u.version, asOf, state.value)))
  }

  function Restore<S, V>(units: seq<Unit<S, V>>, rows: Rows<S>, events: seq<Event>,
                         base: int): Result<Restored<S, V>, RestoreError> {
    if units == [] then Ok(Restored(EndSeq(events, base), map[], map[]))
    else
      var u, before := units[|units| - 1], Restore(units[..|units| - 1], rows, events, base);
      if before.Err? then before
      else
        var one := RestoreOne(u, rows, events, base);
        if one.Err? then Err(one.error)
        else Ok(Restored(before.value.asOf, before.value.values[u.key := one.value.0],
                         before.value.rows[u.key := one.value.1]))
  }

  /** `restore`: all units, each from its usable row on, or none when one of them refuses. */
  method RestoreUnits<S, V>(units: seq<Unit<S, V>>, rows: Rows<S>, events: seq<Event>, base: int)
    returns (r: Result<Restored<S, V>, RestoreError>)
    ensures r == Restore(units, rows, events, base)
  {
    hide FoldAfter;
    var endSeq := EndSeq(events, base);
    var values: map<string, V>, refreshed: Rows<S> := map[], map[];
    for i := 0 to |units|
      invariant Restore(units[..i], rows, events, base) == Ok(Restored(endSeq, values, refreshed))
    {
      assert units[..i + 1][..i] == units[..i];
      var u := units[i];
      var usable := Usable(u, rows, events, base);
      if !usable && base > FIRST_SEQ {
        RestoreFailed(units, i + 1, rows, events, base);
        return Err(Refused(u.key));
      }
      var state := FoldTail(u, if usable then rows[u.key].val else u.init, events,
                            if usable then rows[u.key].seqNo else base - 1);
      if state.None? {
        RestoreFailed(units, i + 1, rows, events, base);
        return Err(ApplyRaised(u.key));
      }
      var view := u.view(state.value);
      if view.None? {
        RestoreFailed(units, i + 1, rows, events, base);
        return Err(ViewRaised(u.key));
      }
      values := values[u.key := view.value];
      refreshed := refreshed[u.key := Row(u.version, endSeq, state.value)];
    }
    assert units[..|units|] == units;
    return Ok(Restored(endSeq, values, refreshed));
  }

  method FoldTail<S, V>(u: Unit<S, V>, start: S, events: seq<Event>, from: int) returns (state: Option<S>)
    ensures state == FoldAfter(u, start, events, from)
  {
    state := Some(start);
    for j := 0 to |events|
      invariant state.Some? && FoldAfter(u, start, events[..j], from) == state
    {
      assert events[..j + 1][..j] == events[..j];
      if events[j].seqNo > from {
        state := u.apply(state.value, events[j]);
        if state.None? {
          FoldFailed(u, start, events, j + 1, from);
          return;
        }
      }
    }
    assert events[..|events|] == events;
  }

  lemma {:induction false} FoldFailed<S, V>(u: Unit<S, V>, start: S, events: seq<Event>, n: nat, from: int)
    requires n <= |events| && FoldAfter(u, start, events[..n], from).None?
    ensures FoldAfter(u, start, events, from).None?
    decreases |events|
  {
    if n == |events| {
      assert events[..n] == events;
    } else {
      assert events[..|events| - 1][..n] == events[..n];
      FoldFailed(u, start, events[..|events| - 1], n, from);
    }
  }

  lemma {:induction false} RestoreFailed<S, V>(units: seq<Unit<S, V>>, n: nat, rows: Rows<S>, events: seq<Event>,
                                               base: int)
    requires n <= |units| && Restore(units[..n], rows, events, base).Err?
    ensures Restore(units, rows, events, base) == Restore(units[..n], rows, events, base)
    decreases |units|
  {
    if n == |units| {
      assert units[..n] == units;
    } else {
      assert units[..|units| - 1][..n] == units[..n];
      RestoreFailed(units[..|units| - 1], n, rows, events, base);
    }
  }

  /** What a read owes: every unit folded from init over the whole log. */
  function FullRead<S, V>(units: seq<Unit<S, V>>, log: seq<Event>, asOf: int): Result<Restored<S, V>, RestoreError> {
    if units == [] then Ok(Restored(asOf, map[], map[]))
    else
      var u, before := units[|units| - 1], FullRead(units[..|units| - 1], log, asOf);
      if before.Err? then before
      else
        var one := Finish(u, Fold(u, log), asOf);
        if one.Err? then Err(one.error)
        else Ok(Restored(asOf, before.value.values[u.key := one.value.0], before.value.rows[u.key := one.value.1]))
  }

  /** The position a read of the whole log reports: its last event, or nothing at all. */
  ghost predicate ReportsEnd(log: seq<Event>, asOf: int) {
    if log == [] then -1 <= asOf <= 0 else asOf == |log|
  }

  // ------------------------------------------------- restoring is folding the log

  lemma {:induction false} FoldAfterIsFold<S, V>(u: Unit<S, V>, state: S, log: seq<Event>, lo: nat, from: int)
    requires NumberedLog(log) && lo <= |log| && lo <= Max(from, 0) <= |log|
    ensures FoldAfter(u, state, log[lo..], from) == FoldFrom(u, state, log[Max(from, 0)..])
    decreases |log|
  {
    var n := Max(from, 0);
    if |log| > n {
      NumberedInit(log);
      hide NumberedLog, FoldAfter, FoldFrom;
      var init, e := log[..|log| - 1], log[|log| - 1];
      FoldAfterIsFold(u, state, init, lo, from);
      assert log[lo..] == init[lo..] + [e] && log[n..] == init[n..] + [e];
      FoldAfterSnoc(u, state, init[lo..], e, from);
      FoldFromSnoc(u, state, init[n..], e);
    } else {
      assert log[n..] == [];
      NothingAfter(u, state, log[lo..], from);
    }
  }

  lemma FoldAfterSnoc<S, V>(u: Unit<S, V>, state: S, events: seq<Event>, e: Event, from: int)
    requires e.seqNo > from
    ensures var before := FoldAfter(u, state, events, from);
            FoldAfter(u, state, events + [e], from) == if before.None? then None else u.apply(before.value, e)
  {
    assert (events + [e])[..|events|] == events;
  }

  lemma FoldFromSnoc<S, V>(u: Unit<S, V>, state: S, events: seq<Event>, e: Event)
    ensures var before := FoldFrom(u, state, events);
            FoldFrom(u, state, events + [e]) == if before.None? then None else u.apply(before.value, e)
  {
    assert (events + [e])[..|events|] == events;
  }

  lemma {:induction false} NothingAfter<S, V>(u: Unit<S, V>, state: S, events: seq<Event>, from: int)
    requires forall i :: 0 <= i < |events| ==> events[i].seqNo <= from
    ensures FoldAfter(u, state, events, from) == Some(state)
  {
    if events != [] {
      NothingAfter(u, state, events[..|events| - 1], from);
    }
  }

  /** A tail from `base` on holds every event this unit may need. */
  predicate Serves<S, V>(base: int, u: Unit<S, V>, rows: Rows<S>) {
    0 <= base <= Max(Need(u, rows) - 1, 0) || (base == FIRST_SEQ && u.key !in rows)
  }

  /** One unit, given a tail that starts early enough for it: the restore either refuses or is
      the fold of the whole log, and it refuses only a row that leads the log. */
  lemma RestoreOneIsFull<S, V>(u: Unit<S, V>, rows: Rows<S>, log: seq<Event>, base: int)
    requires NumberedLog(log) && RowTrue(u, rows, log)
    requires Serves(base, u, rows)
    ensures var events := ReadFrom(log, base);
            var r := RestoreOne(u, rows, events, base);
            || r == Finish(u, Fold(u, log), EndSeq(events, base))
            || (r == Err(Refused(u.key)) && base > FIRST_SEQ && Leads(u, rows, log))
    ensures var r := RestoreOne(u, rows, ReadFrom(log, base), base);
            (r.Err? && r.error.Refused?) || base <= Max(|log|, 1)
  {
    hide PrefixTo, Fold, ReadFrom, FoldAfter, Finish, RestoreOne, RowTrue, Usable;
    var lo := TailShape(log, base);
    if Usable(u, rows, ReadFrom(log, base), base) {
      RestoreUsable(u, rows, log, base, lo);
    } else {
      RestoreFresh(u, rows, log, base, lo);
    }
  }

  lemma RestoreUsable<S, V>(u: Unit<S, V>, rows: Rows<S>, log: seq<Event>, base: int, lo: nat)
    requires NumberedLog(log) && RowTrue(u, rows, log) && Serves(base, u, rows)
    requires lo == (if base <= 1 then 0 else if base > |log| then |log| else base - 1) <= |log|
    requires ReadFrom(log, base) == log[lo..]
    requires EndSeq(ReadFrom(log, base), base) == if lo < |log| then |log| else base - 1
    requires Usable(u, rows, ReadFrom(log, base), base)
    ensures RestoreOne(u, rows, ReadFrom(log, base), base) == Finish(u, Fold(u, log), EndSeq(ReadFrom(log, base), base))
    ensures base <= Max(|log|, 1)
  {
    hide PrefixTo, Fold, ReadFrom, FoldAfter, Finish, EndSeq, NumberedLog;
    TopUp(u, rows[u.key].val, log, lo, rows[u.key].seqNo);
  }

  lemma RestoreFresh<S, V>(u: Unit<S, V>, rows: Rows<S>, log: seq<Event>, base: int, lo: nat)
    requires NumberedLog(log) && Serves(base, u, rows)
    requires lo == (if base <= 1 then 0 else if base > |log| then |log| else base - 1) <= |log|
    requires ReadFrom(log, base) == log[lo..]
    requires EndSeq(ReadFrom(log, base), base) == if lo < |log| then |log| else base - 1
    requires !Usable(u, rows, ReadFrom(log, base), base)
    ensures if base > FIRST_SEQ then
              RestoreOne(u, rows, ReadFrom(log, base), base) == Err(Refused(u.key)) && Leads(u, rows, log)
            else
              RestoreOne(u, rows, ReadFrom(log, base), base) ==
                Finish(u, Fold(u, log), EndSeq(ReadFrom(log, base), base))
  {
    hide NumberedLog, FoldAfter, Fold, ReadFrom, EndSeq, PrefixTo;
    if base <= FIRST_SEQ {
      NothingFolded(u, log, base - 1);
      TopUp(u, u.init, log, lo, base - 1);
    }
  }

  lemma NothingFolded<S, V>(u: Unit<S, V>, log: seq<Event>, n: int)
    requires n <= 0
    ensures Fold(u, PrefixTo(log, n)) == Some(u.init)
  {
  }

  /** Where a tail starts in the log, and the position it ends at. */
  lemma TailShape(log: seq<Event>, base: int) returns (lo: nat)
    requires NumberedLog(log)
    ensures lo == (if base <= 1 then 0 else if base > |log| then |log| else base - 1) <= |log|
    ensures ReadFrom(log, base) == log[lo..]
    ensures EndSeq(ReadFrom(log, base), base) == if lo < |log| then |log| else base - 1
  {
    ReadFromIsSuffix(log, base);
    lo := if base <= 1 then 0 else if base > |log| then |log| else base - 1;
  }

  /** Folding a tail on top of the fold of what comes before it. */
  lemma TopUp<S, V>(u: Unit<S, V>, state: S, log: seq<Event>, lo: nat, from: int)
    requires NumberedLog(log) && lo <= |log| && lo <= Max(from, 0) <= |log|
    requires Fold(u, PrefixTo(log, from)) == Some(state)
    ensures FoldAfter(u, state, log[lo..], from) == Fold(u, log)
  {
    hide FoldAfter;
    FoldAfterIsFold(u, state, log, lo, from);
    var n := Max(from, 0);
    assert log == log[..n] + log[n..] && PrefixTo(log, from) == log[..n];
    FoldConcat(u, u.init, log[..n], log[n..]);
  }

  /** The shortest tail a row that does not lead the log can do with is the one right behind it. */
  lemma TailBehindTheRow<S, V>(u: Unit<S, V>, rows: Rows<S>, log: seq<Event>)
    requires NumberedLog(log) && RowTrue(u, rows, log) && !Leads(u, rows, log)
    requires u.key in rows && rows[u.key].ver == u.version && rows[u.key].seqNo >= 0
    ensures RestoreOne(u, rows, ReadFrom(log, Need(u, rows)), Need(u, rows)) == Finish(u, Fold(u, log), |log|)
  {
    hide PrefixTo, Fold, ReadFrom, FoldAfter, Finish, EndSeq, NumberedLog;
    var lo := TailShape(log, Need(u, rows));
    TopUp(u, rows[u.key].val, log, lo, rows[u.key].seqNo);
  }

  lemma {:induction false} RestoreIsFull<S, V>(units: seq<Unit<S, V>>, rows: Rows<S>, log: seq<Event>, base: int)
    requires NumberedLog(log) && RowsTrue(units, rows, log)
    requires forall i :: 0 <= i < |units| ==>
      Serves(base, units[i], rows)
    ensures var r := Restore(units, rows, ReadFrom(log, base), base);
            && (|| r == FullRead(units, log, EndSeq(ReadFrom(log, base), base))
                || (r.Err? && r.error.Refused? && base > FIRST_SEQ))
            && ((forall i :: 0 <= i < |units| ==> !Leads(units[i], rows, log)) ==>
                  r == FullRead(units, log, EndSeq(ReadFrom(log, base), base)))
            && (units == [] || (r.Err? && r.error.Refused?) || base <= Max(|log|, 1))
  {
    hide RestoreOne, Finish, Fold, ReadFrom, RowTrue, Leads, Serves, EndSeq, NumberedLog;
    if units != [] {
      var init, u := units[..|units| - 1], units[|units| - 1];
      assert forall i :: 0 <= i < |init| ==> init[i] == units[i];
      RestoreIsFull(init, rows, log, base);
      RestoreOneIsFull(u, rows, log, base);
    }
  }

  /** The rows a full read writes back are true again, whatever the log grows to. */
  lemma {:induction false} RefreshedAreTrue<S, V>(units: seq<Unit<S, V>>, log: seq<Event>, asOf: int, i: nat,
                                                  longer: seq<Event>)
    requires NumberedLog(log) && ReportsEnd(log, asOf) && i < |units| && log <= longer
    requires FullRead(units, log, asOf).Ok?
    requires forall j, k :: 0 <= j < k < |units| ==> units[j].key != units[k].key
    ensures var rows := FullRead(units, log, asOf).value.rows;
            && units[i].key in rows && rows[units[i].key].seqNo <= |longer|
            && RowTrue(units[i], rows, longer)
            && FullRead(units, log, asOf).value.values.Keys == rows.Keys
            && Some(FullRead(units, log, asOf).value.values[units[i].key]) == ValueOf(units[i], log)
  {
    var init, u := units[..|units| - 1], units[|units| - 1];
    FullReadKeys(units, log, asOf);
    if i == |units| - 1 {
      assert PrefixTo(longer, asOf) == log;
    } else {
      assert init[i] == units[i];
      RefreshedAreTrue(init, log, asOf, i, longer);
    }
  }

  lemma {:induction false} FullReadKeys<S, V>(units: seq<Unit<S, V>>, log: seq<Event>, asOf: int)
    requires FullRead(units, log, asOf).Ok?
    ensures FullRead(units, log, asOf).value.values.Keys == FullRead(units, log, asOf).value.rows.Keys
    ensures FullRead(units, log, asOf).value.asOf == asOf
  {
    if units != [] {
      FullReadKeys(units[..|units| - 1], log, asOf);
    }
  }

  /** The values of a full read are those of a snapshot of the same log. */
  lemma {:induction false} FullReadIsSnapshot<S, V>(units: seq<Unit<S, V>>, log: seq<Event>, asOf: int)
    ensures FullRead(units, log, asOf).Ok? <==> ValuesOf(units, log).Some?
    ensures FullRead(units, log, asOf).Ok? ==> FullRead(units, log, asOf).value.values == ValuesOf(units, log).value
    ensures FullRead(units, log, asOf).Err? ==> !FullRead(units, log, asOf).error.Refused?
  {
    if units != [] {
      FullReadIsSnapshot(units[..|units| - 1], log, asOf);
    }
  }

  // ------------------------------------------------------------------- the cache

  /** What ties stored rows to one session's lifetime. */
  datatype Header = Header(id: string, createdAt: int, version: int, cwd: string)

  datatype Identity = Identity(id: string, createdAt: int, version: int)

  function IdentityOf(h: Header): Identity {
    Identity(h.id, h.createdAt, h.version)
  }

  const FORMAT_VERSION := 0

  /** The header of a session the store creates: without a creation time it gets the same one every time. */
  function NewHeader(id: string, createdAt: Option<int>, cwd: string): Header {
    Header(id, if createdAt.Some? then createdAt.value else 0, FORMAT_VERSION, cwd)
  }

  datatype Record<S> = Record(identity: Identity, rows: Rows<S>)

  /** What the backend holds for a session at the moment of one read. */
  datatype Stored = Stored(meta: Header, log: seq<Event>)

  datatype ColdError = NoSuchSession | Failed(cause: RestoreError)

  /** Stored rows of this lifetime are true of the log; rows of another may say anything. */
  ghost predicate RecordTrue<S, V>(units: seq<Unit<S, V>>, record: Option<Record<S>>, stored: Stored) {
    record.Some? && record.value.identity == IdentityOf(stored.meta) ==> RowsTrue(units, record.value.rows, stored.log)
  }

  class ProjectionCache<S, V> {
    const units: seq<Unit<S, V>>
    var table: map<string, Record<S>>

    constructor (units: seq<Unit<S, V>>)
      ensures this.units == units && table == map[]
    {
      this.units, table := units, map[];
    }

    /** A cold read. `first` and `second` are what the two reads of the log would find: the log
        may grow in between. `putFails` is the soft write-back failing. */
    method ColdSnapshot(id: string, first: Option<Stored>, second: Option<Stored>, putFails: bool)
      returns (r: Result<(int, map<string, V>), ColdError>)
      requires first.Some? ==>
        NumberedLog(first.value.log) &&
        RecordTrue(units, if id in table then Some(table[id]) else None, first.value)
      requires second.Some? ==> NumberedLog(second.value.log)
      modifies this
      ensures units != [] ==> ColdResult(units, first, second, putFails, id, old(table), table, r)
      ensures units == [] ==>
        r == (if first.None? then Err(NoSuchSession) else Ok((|first.value.log|, map[]))) && table == old(table)
    {
      hide Restore, FullRead, ReportsEnd, ReadFrom, ValuesOf, Leads, RowTrue, NumberedLog;
      var record := if id in table then Some(table[id]) else None;
      var cached: Rows<S> := if record.Some? then record.value.rows else map[];
      NoRows(units, first);
      var floor := RestoreFloor(units, cached);
      if floor.None? {
        if first.None? {
          return Err(NoSuchSession);
        }
        ReadFromIsSuffix(first.value.log, FIRST_SEQ);
        if first.value.log != [] {
          LastNumber(first.value.log);
        }
        var events := ReadFrom(first.value.log, FIRST_SEQ);
        return Ok((if events != [] then events[|events| - 1].seqNo else 0, map[]));
      }
      if first.None? {
        return Err(NoSuchSession);
      }
      var related := record.None? || record.value.identity == IdentityOf(first.value.meta);
      var meta := first.value.meta;
      var restored := RestoreUnits(units, cached, ReadFrom(first.value.log, floor.value), floor.value);
      if related {
        FirstTry(units, cached, first.value.log);
      }
      if !related || restored.Err? {
        if second.None? {
          return Err(NoSuchSession);
        }
        meta := second.value.meta;
        restored := RestoreUnits(units, map[], ReadFrom(second.value.log, FIRST_SEQ), FIRST_SEQ);
        WholeLog(units, second.value.log);
        if restored.Err? {
          return Err(Failed(restored.error));
        }
      }
      if !putFails {
        table := table[id := Record(IdentityOf(meta), restored.value.rows)];
      }
      return Ok((restored.value.asOf, restored.value.values));
    }

    /** Values from stored rows alone; rows of another lifetime are never served. */
    method CachedSnapshot(header: Header) returns (r: Result<Option<(int, map<string, V>)>, ()>)
      ensures if header.id !in table || table[header.id].identity != IdentityOf(header) then r == Ok(None)
              else
                var rows := table[header.id].rows;
                if ViewRows(units, rows).None? then r.Err?
                else if ViewRows(units, rows).value == map[] then r == Ok(None)
                else LeastSeq(units, rows).Some? && IsLeast(units, rows, LeastSeq(units, rows).value) &&
                     r == Ok(Some((LeastSeq(units, rows).value, ViewRows(units, rows).value)))
    {
      if header.id !in table || table[header.id].identity != IdentityOf(header) {
        return Ok(None);
      }
      var rows := table[header.id].rows;
      var values: map<string, V>, least: Option<int> := map[], None;
      for i := 0 to |units|
        invariant ViewRows(units[..i], rows) == Some(values) && LeastSeq(units[..i], rows) == least
        invariant values != map[] ==> least.Some?
      {
        assert units[..i + 1][..i] == units[..i];
        var u := units[i];
        if Matches(u, rows) {
          var view := u.view(rows[u.key].val);
          if view.None? {
            ViewMissing(units, i + 1, rows);
            return Err(());
          }
          values := values[u.key := view.value];
          if least.None? || rows[u.key].seqNo < least.value {
            least := Some(rows[u.key].seqNo);
          }
        }
      }
      assert units[..|units|] == units;
      LeastIsLeast(units, rows);
      return Ok(if |values| == 0 then None else Some((least.value, values)));
    }
  }

  // ------------------------------------------------- reading rows without the log

  predicate Matches<S, V>(u: Unit<S, V>, rows: Rows<S>) {
    u.key in rows && rows[u.key].ver == u.version
  }

  /** The views of the rows whose version still matches, or None when a view raised. */
  function ViewRows<S, V>(units: seq<Unit<S, V>>, rows: Rows<S>): Option<map<string, V>> {
    if units == [] then Some(map[])
    else
      var u, before := units[|units| - 1], ViewRows(units[..|units| - 1], rows);
      if before.None? || !Matches(u, rows) then before
      else
        var view := u.view(rows[u.key].val);
        if view.None? then None else Some(before.value[u.key := view.value])
  }

  function LeastSeq<S, V>(units: seq<Unit<S, V>>, rows: Rows<S>): Option<int> {
    if units == [] then None
    else
      var u, before := units[|units| - 1], LeastSeq(units[..|units| - 1], rows);
      if !Matches(u, rows) then before
      else if before.None? || rows[u.key].seqNo < before.value then Some(rows[u.key].seqNo)
      else before
  }

  /** This is the position of some row whose version matches, and of none before it. */
  ghost predicate IsLeast<S, V>(units: seq<Unit<S, V>>, rows: Rows<S>, n: int) {
    && (exists i :: 0 <= i < |units| && Matches(units[i], rows) && rows[units[i].key].seqNo == n)
    && (forall i :: 0 <= i < |units| && Matches(units[i], rows) ==> n <= rows[units[i].key].seqNo)
  }

  lemma {:induction false} LeastIsLeast<S, V>(units: seq<Unit<S, V>>, rows: Rows<S>)
    ensures LeastSeq(units, rows).Some? ==> IsLeast(units, rows, LeastSeq(units, rows).value)
    ensures LeastSeq(units, rows).None? ==> forall i :: 0 <= i < |units| ==> !Matches(units[i], rows)
  {
    if units != [] {
      var init := units[..|units| - 1];
      LeastIsLeast(init, rows);
      hide Matches;
      assert forall i :: 0 <= i < |init| ==> init[i] == units[i];
    }
  }

  lemma {:induction false} ViewMissing<S, V>(units: seq<Unit<S, V>>, n: nat, rows: Rows<S>)
    requires n <= |units| && ViewRows(units[..n], rows).None?
    ensures ViewRows(units, rows).None?
    decreases |units|
  {
    if n == |units| {
      assert units[..n] == units;
    } else {
      assert units[..|units| - 1][..n] == units[..n];
      ViewMissing(units[..|units| - 1], n, rows);
    }
  }

  /** What is served without touching the log: each value is a fold of some prefix of the log,
      at least as long as the position reported. */
  lemma {:induction false} ServedIsAPrefixFold<S, V>(units: seq<Unit<S, V>>, rows: Rows<S>, log: seq<Event>, i: nat)
    requires i < |units| && Matches(units[i], rows) && RowTrue(units[i], rows, log) && !Leads(units[i], rows, log)
    requires forall j, k :: 0 <= j < k < |units| ==> units[j].key != units[k].key
    requires ViewRows(units, rows).Some?
    ensures units[i].key in ViewRows(units, rows).value
    ensures Some(ViewRows(units, rows).value[units[i].key]) ==
            ValueOf(units[i], PrefixTo(log, rows[units[i].key].seqNo))
    ensures LeastSeq(units, rows).Some? && LeastSeq(units, rows).value <= rows[units[i].key].seqNo <= |log|
  {
    if i < |units| - 1 {
      hide ValueOf, RowTrue, PrefixTo;
      var init := units[..|units| - 1];
      assert init[i] == units[i];
      ServedIsAPrefixFold(init, rows, log, i);
    }
  }

  lemma LastNumber(log: seq<Event>)
    requires NumberedLog(log) && log != []
    ensures log[|log| - 1].seqNo == |log|
  {
  }

  lemma NoRows<S, V>(units: seq<Unit<S, V>>, stored: Option<Stored>)
    ensures forall rows: Rows<S> {:trigger RowsTrue(units, rows, stored.value.log)} ::
      stored.Some? && rows == map[] ==> RowsTrue(units, rows, stored.value.log)
  {
  }

  /** Restoring from true rows: an answer is a full read, and there is one unless a row leads
      the log or a unit has no value. */
  lemma FirstTry<S, V>(units: seq<Unit<S, V>>, rows: Rows<S>, log: seq<Event>)
    requires units != [] && NumberedLog(log) && RowsTrue(units, rows, log)
    ensures var floor := RestoreFloor(units, rows).value;
            var r := Restore(units, rows, ReadFrom(log, floor), floor);
            && (r.Ok? ==> ReportsEnd(log, r.value.asOf) && r == FullRead(units, log, r.value.asOf))
            && ((forall i :: 0 <= i < |units| ==> !Leads(units[i], rows, log)) && ValuesOf(units, log).Some? ==> r.Ok?)
  {
    FloorServesAll(units, rows, log);
    var floor := RestoreFloor(units, rows).value;
    RestoreIsFull(units, rows, log, floor);
    var asOf := EndSeq(ReadFrom(log, floor), floor);
    if floor <= Max(|log|, 1) {
      EndReported(log, floor);
    }
    FullReadIsSnapshot(units, log, asOf);
    if FullRead(units, log, asOf).Ok? {
      FullReadKeys(units, log, asOf);
    }
  }

  /** Restoring the whole log with no rows is a full read of it. */
  lemma WholeLog<S, V>(units: seq<Unit<S, V>>, log: seq<Event>)
    requires NumberedLog(log)
    ensures var r := Restore(units, map[], ReadFrom(log, FIRST_SEQ), FIRST_SEQ);
            var asOf := EndSeq(ReadFrom(log, FIRST_SEQ), FIRST_SEQ);
            ReportsEnd(log, asOf) && r == FullRead(units, log, asOf) && (r.Ok? ==> r.value.asOf == asOf)
  {
    RestoreIsFull(units, map[], log, FIRST_SEQ);
    EndReported(log, FIRST_SEQ);
    var asOf := EndSeq(ReadFrom(log, FIRST_SEQ), FIRST_SEQ);
    if FullRead(units, log, asOf).Ok? {
      FullReadKeys(units, log, asOf);
    }
  }

  lemma FloorServesAll<S, V>(units: seq<Unit<S, V>>, rows: Rows<S>, log: seq<Event>)
    requires units != []
    ensures var floor := RestoreFloor(units, rows).value;
            floor >= 0 && forall i :: 0 <= i < |units| ==> Serves(floor, units[i], rows)
    ensures (forall i :: 0 <= i < |units| ==> !Leads(units[i], rows, log)) ==> RestoreFloor(units, rows).value <= |log|
  {
    var least := LeastNeed(units, rows);
    var i :| 0 <= i < |units| && least == Need(units[i], rows);
  }

  /** No row is read from earlier than it must: without a row for some unit from the front, and otherwise from the
      position of the row that lags most. */
  lemma FloorIsLatest<S, V>(units: seq<Unit<S, V>>, rows: Rows<S>)
    requires units != []
    ensures var floor := RestoreFloor(units, rows).value;
            if forall i :: 0 <= i < |units| ==> Matches(units[i], rows) && rows[units[i].key].seqNo >= 0
            then IsLeast(units, rows, floor)
            else floor == EMPTY_WATERMARK
  {
    if forall i :: 0 <= i < |units| ==> Matches(units[i], rows) && rows[units[i].key].seqNo >= 0 {
      var least := LeastNeed(units, rows);
      var i :| 0 <= i < |units| && least == Need(units[i], rows);
      assert Matches(units[i], rows);
    } else {
      var i :| 0 <= i < |units| && !(Matches(units[i], rows) && rows[units[i].key].seqNo >= 0);
      assert LeastNeed(units, rows) <= Need(units[i], rows) <= FIRST_SEQ;
    }
  }

  lemma EndReported(log: seq<Event>, base: int)
    requires NumberedLog(log) && base >= 0
    ensures base <= Max(|log|, 1) ==> ReportsEnd(log, EndSeq(ReadFrom(log, base), base))
  {
    ReadFromIsSuffix(log, base);
  }

  /** The read's answer is a full fold of the log as one of the two reads found it. When no row
      leads that log the first read suffices. A written row comes from the same full fold. */
  ghost predicate ColdResult<S, V>(
    units: seq<Unit<S, V>>, first: Option<Stored>, second: Option<Stored>, putFails: bool, id: string,
    before: map<string, Record<S>>, after: map<string, Record<S>>, r: Result<(int, map<string, V>), ColdError>)
  {
    var record := if id in before then Some(before[id]) else None;
    var cached: Rows<S> := if record.Some? then record.value.rows else map[];
    if first.None? then r == Err(NoSuchSession) && after == before
    else
      && (|| IsFullRead(units, first.value, putFails, id, before, after, r)
          || (if second.None? then r == Err(NoSuchSession) && after == before
              else IsFullRead(units, second.value, putFails, id, before, after, r)))
      && ((record.None? || record.value.identity == IdentityOf(first.value.meta))
          && (forall i :: 0 <= i < |units| ==> !Leads(units[i], cached, first.value.log))
          && ValuesOf(units, first.value.log).Some? ==>
            IsFullRead(units, first.value, putFails, id, before, after, r))
  }

  ghost predicate IsFullRead<S, V>(
    units: seq<Unit<S, V>>, stored: Stored, putFails: bool, id: string,
    before: map<string, Record<S>>, after: map<string, Record<S>>, r: Result<(int, map<string, V>), ColdError>)
  {
    exists asOf :: ReportsEnd(stored.log, asOf) && IsFullReadAt(units, stored, asOf, putFails, id, before, after, r)
  }

  ghost predicate IsFullReadAt<S, V>(
    units: seq<Unit<S, V>>, stored: Stored, asOf: int, putFails: bool, id: string,
    before: map<string, Record<S>>, after: map<string, Record<S>>, r: Result<(int, map<string, V>), ColdError>)
  {
    var full := FullRead(units, stored.log, asOf);
    if full.Err? then r == Err(Failed(full.error)) && after == before
    else
      r == Ok((asOf, full.value.values)) &&
      after == if putFails then before else before[id := Record(IdentityOf(stored.meta), full.value.rows)]
  }
}
