/** A storage domain: memory over a durable medium, one write at a time (storage/domain.py). */
module StorageDomains {
  import opened Prelude
  import opened Payloads

  /** Validates one stored value: the value to keep, possibly coerced, or a refusal. */
  type Check = Json -> Option<Json>

  /** A global value may be declared without a check; without an initial value it starts as null. */
  datatype GlobalSpec = GlobalSpec(check: Option<Check>, initial: Json)

  datatype Spec = Spec(tables: map<string, Check>, global: Option<GlobalSpec>)

  /** What declaring a domain demands of its global check: it must not accept null, the medium's mark for a
      value never written. Declaring no check at all is allowed. */
  predicate Declarable(spec: Spec) {
    spec.global.Some? && spec.global.value.check.Some? ==> spec.global.value.check.value(JNull).None?
  }

  function GlobalChecked(g: GlobalSpec, raw: Json): Option<Json> {
    if g.check.None? then Some(raw) else g.check.value(raw)
  }

  type Key = (string, string)

  /** The records by table and key, and the single value; null when there is none. */
  datatype Store = Store(records: map<Key, Json>, global: Json)

  /** One change of the medium; also what is announced about it. */
  datatype Write = PutWrite(key: Key, value: Json) | DeleteWrite(key: Key) | SetWrite(value: Json)

  function Applied(s: Store, w: Write): Store {
    match w
    case PutWrite(key, value) => s.(records := s.records[key := value])
    case DeleteWrite(key) => s.(records := s.records - {key})
    case SetWrite(value) => s.(global := value)
  }

  // ------------------------------------------------------------------ opening

  predicate Loadable(spec: Spec, medium: Store) {
    && (forall k :: k in medium.records && k.0 in spec.tables ==> spec.tables[k.0](medium.records[k]).Some?)
    && (spec.global.Some? && medium.global != JNull ==> GlobalChecked(spec.global.value, medium.global).Some?)
  }

  /** A stored null reads as never written. */
  function LoadGlobal(spec: Spec, stored: Json): Json
    requires spec.global.Some? && stored != JNull ==> GlobalChecked(spec.global.value, stored).Some?
  {
    if spec.global.None? then JNull
    else if stored == JNull then spec.global.value.initial
    else GlobalChecked(spec.global.value, stored).value
  }

  /** What a domain opened on this medium holds: every declared record, checked. */
  function Load(spec: Spec, medium: Store): Option<Store> {
    if !Loadable(spec, medium) then None
    else
      Some(Store(LoadRecords(spec, medium.records), LoadGlobal(spec, medium.global)))
  }

  function LoadRecords(spec: Spec, records: map<Key, Json>): (loaded: map<Key, Json>)
    requires forall k :: k in records && k.0 in spec.tables ==> spec.tables[k.0](records[k]).Some?
    ensures forall k :: k in loaded <==> k in records && k.0 in spec.tables
    ensures forall k :: k in loaded ==> Some(loaded[k]) == spec.tables[k.0](records[k])
  {
    map k | k in records && k.0 in spec.tables :: spec.tables[k.0](records[k]).value
  }

  ghost predicate Idempotent(check: Check) {
    forall raw :: check(raw).Some? ==> check(check(raw).value) == check(raw)
  }

  /** A global value that opening would give back as it is. */
  predicate GlobalComesBack(g: GlobalSpec, value: Json) {
    if value == JNull then g.initial == JNull else GlobalChecked(g, value) == Some(value)
  }

  /** Checking an already checked value changes nothing, and null cannot be set unless it is the initial value. */
  ghost predicate AllSettle(spec: Spec) {
    && (forall t :: t in spec.tables ==> Idempotent(spec.tables[t]))
    && (spec.global.Some? ==>
          forall raw :: GlobalChecked(spec.global.value, raw).Some? ==>
            GlobalComesBack(spec.global.value, GlobalChecked(spec.global.value, raw).value))
  }

  /** A write of a declared place whose value opening would give back as it is. */
  predicate Settled(spec: Spec, w: Write) {
    match w
    case PutWrite(key, value) => key.0 in spec.tables && spec.tables[key.0](value) == Some(value)
    case DeleteWrite(key) => key.0 in spec.tables
    case SetWrite(value) => spec.global.Some? && GlobalComesBack(spec.global.value, value)
  }

  /** Writing the medium and then loading it is loading it and then writing memory. */
  lemma LoadAfterWrite(spec: Spec, medium: Store, w: Write)
    requires Settled(spec, w) && Load(spec, medium).Some?
    ensures Load(spec, Applied(medium, w)) == Some(Applied(Load(spec, medium).value, w))
  {
    hide Load;
    match w
    case PutWrite(key, value) => LoadAfterPut(spec, medium, key, value);
    case DeleteWrite(key) => LoadAfterDelete(spec, medium, key);
    case SetWrite(value) => LoadAfterSet(spec, medium, value);
  }

  lemma LoadAfterPut(spec: Spec, medium: Store, key: Key, value: Json)
    requires key.0 in spec.tables && spec.tables[key.0](value) == Some(value) && Load(spec, medium).Some?
    ensures Load(spec, medium.(records := medium.records[key := value])) ==
            Some(Load(spec, medium).value.(records := Load(spec, medium).value.records[key := value]))
  {
    hide GlobalChecked, LoadGlobal, LoadRecords;
    var after := medium.(records := medium.records[key := value]);
    assert Loadable(spec, after);
    assert LoadRecords(spec, after.records) == LoadRecords(spec, medium.records)[key := value];
  }

  lemma LoadAfterDelete(spec: Spec, medium: Store, key: Key)
    requires Load(spec, medium).Some?
    ensures Load(spec, medium.(records := medium.records - {key})) ==
            Some(Load(spec, medium).value.(records := Load(spec, medium).value.records - {key}))
  {
    hide GlobalChecked, LoadGlobal, LoadRecords;
    var after := medium.(records := medium.records - {key});
    assert Loadable(spec, after);
    assert LoadRecords(spec, after.records) == LoadRecords(spec, medium.records) - {key};
  }

  lemma LoadAfterSet(spec: Spec, medium: Store, value: Json)
    requires spec.global.Some? && GlobalComesBack(spec.global.value, value) && Load(spec, medium).Some?
    ensures Load(spec, medium.(global := value)) == Some(Load(spec, medium).value.(global := value))
  {
    hide LoadRecords;
    assert Loadable(spec, medium.(global := value));
  }

  // ------------------------------------------------------------------ the write chain

  datatype Job =
    | PutJob(key: Key, value: Json)
    | DeleteJob(key: Key)
    | UpdateJob(key: Key, change: Json -> Option<Json>)
    | SetJob(value: Json)
    | DrainJob

  datatype DomainError = MissingTable | NoGlobal | InvalidRecord | MissingKey | ChangeFailed | ClosedDomain

  datatype Decision = Send(write: Write) | Nothing | Refuse(error: DomainError)

  /** What a job does with its slot, decided against memory as it stands then. */
  function Decide(spec: Spec, memory: Store, job: Job): Decision {
    match job
    case PutJob(key, value) => Send(PutWrite(key, value))
    case DeleteJob(key) => if key in memory.records then Send(DeleteWrite(key)) else Nothing
    case UpdateJob(key, change) =>
      if key !in memory.records || key.0 !in spec.tables then Refuse(MissingKey)
      else
        var changed := change(memory.records[key]);
        if changed.None? then Refuse(ChangeFailed)
        else if spec.tables[key.0](changed.value).None? then Refuse(InvalidRecord)
        else Send(PutWrite(key, spec.tables[key.0](changed.value).value))
    case SetJob(value) => Send(SetWrite(value))
    case DrainJob => Nothing
  }

  /** The write holding the slot, and whether the medium already has it. */
  datatype Flight = Flight(job: Job, write: Write, landed: bool)

  /** A job that had its slot, and whether the medium refused its write. */
  datatype Done = Done(job: Job, failed: bool)

  datatype State = State(
    memory: Store, medium: Store, queue: seq<Job>, flight: Option<Flight>, announced: seq<Write>,
    closing: bool, drained: bool, closed: bool,
    accepted: seq<Job>, done: seq<Done>, committed: seq<Write>)

  datatype Action =
    | Put(key: Key, raw: Json)
    | Delete(key: Key)
    | Update(key: Key, change: Json -> Option<Json>)
    | SetGlobal(raw: Json)
    | Begin
    | Land
    | Fail
    | Finish
    | StartClose
    | CloseUnit

  function Enqueued(s: State, job: Job): State {
    if s.closing then s else s.(queue := s.queue + [job], accepted := s.accepted + [job])
  }

  function Began(spec: Spec, s: State): State {
    if s.flight.Some? || s.queue == [] then s
    else
      var job, rest := s.queue[0], s.queue[1..];
      var d := Decide(spec, s.memory, job);
      if d.Send? then s.(queue := rest, flight := Some(Flight(job, d.write, false)))
      else s.(queue := rest, done := s.done + [Done(job, false)], drained := s.drained || job.DrainJob?)
  }

  /** One step between two awaits. */
  function Do(spec: Spec, s: State, a: Action): State {
    match a
    case Put(key, raw) =>
      if key.0 !in spec.tables || spec.tables[key.0](raw).None? then s
      else Enqueued(s, PutJob(key, spec.tables[key.0](raw).value))
    case Delete(key) => if key.0 !in spec.tables then s else Enqueued(s, DeleteJob(key))
    case Update(key, change) => if key.0 !in spec.tables then s else Enqueued(s, UpdateJob(key, change))
    case SetGlobal(raw) =>
      if spec.global.None? || GlobalChecked(spec.global.value, raw).None? then s
      else Enqueued(s, SetJob(GlobalChecked(spec.global.value, raw).value))
    case Begin => Began(spec, s)
    case Land =>
      if s.flight.None? || s.flight.value.landed then s
      else
        s.(medium := Applied(s.medium, s.flight.value.write), flight := Some(s.flight.value.(landed := true)),
           committed := s.committed + [s.flight.value.write])
    case Fail =>
      if s.flight.None? || s.flight.value.landed then s
      else s.(flight := None, done := s.done + [Done(s.flight.value.job, true)])
    case Finish =>
      if s.flight.None? || !s.flight.value.landed then s
      else
        s.(memory := Applied(s.memory, s.flight.value.write), flight := None,
           announced := s.announced + [s.flight.value.write], done := s.done + [Done(s.flight.value.job, false)])
    case StartClose =>
      if s.closed then s
      else s.(closing := true, queue := s.queue + [DrainJob], accepted := s.accepted + [DrainJob])
    case CloseUnit => if s.drained then s.(closed := true) else s
  }

  function Opened(memory: Store, medium: Store): State {
    State(memory, medium, [], None, [], false, false, false, [], [], [])
  }

  function DoAll(spec: Spec, s: State, actions: seq<Action>): State {
    if actions == [] then s
    else Do(spec, DoAll(spec, s, actions[..|actions| - 1]), actions[|actions| - 1])
  }

  // ------------------------------------------------------------------ one at a time

  /** Running jobs strictly one after another: the reference the write chain is measured against. */
  function Serial(spec: Spec, start: Store, done: seq<Done>): Store {
    if done == [] then start
    else
      var before, d := Serial(spec, start, done[..|done| - 1]), done[|done| - 1];
      var decision := Decide(spec, before, d.job);
      if decision.Send? && !d.failed then Applied(before, decision.write) else before
  }

  /** The changes that running them makes, in order. */
  function SerialWrites(spec: Spec, start: Store, done: seq<Done>): seq<Write> {
    if done == [] then []
    else
      var before, d := Serial(spec, start, done[..|done| - 1]), done[|done| - 1];
      var decision := Decide(spec, before, d.job);
      SerialWrites(spec, start, done[..|done| - 1]) +
      (if decision.Send? && !d.failed then [decision.write] else [])
  }

  function AppliedAll(s: Store, ws: seq<Write>): Store {
    if ws == [] then s else Applied(AppliedAll(s, ws[..|ws| - 1]), ws[|ws| - 1])
  }

  function Jobs(done: seq<Done>): (js: seq<Job>)
    ensures |js| == |done|
  {
    seq(|done|, i requires 0 <= i < |done| => done[i].job)
  }

  function Holding(flight: Option<Flight>): seq<Job> {
    if flight.Some? then [flight.value.job] else []
  }

  function Landed(flight: Option<Flight>): seq<Write> {
    if flight.Some? && flight.value.landed then [flight.value.write] else []
  }

  // ------------------------------------------------------------------ the invariant, part by part

  /** Jobs get their slots in the order they were accepted. */
  ghost predicate InOrder(s: State) {
    s.accepted == Jobs(s.done) + Holding(s.flight) + s.queue
  }

  /** Memory and the announcements are what the finished jobs make of the start, one at a time. */
  ghost predicate Serialized(spec: Spec, start: Store, s: State) {
    && s.memory == Serial(spec, start, s.done)
    && s.announced == SerialWrites(spec, start, s.done)
    && (s.flight.Some? ==> Decide(spec, s.memory, s.flight.value.job) == Send(s.flight.value.write))
  }

  /** Durable first: the medium has what memory has, and the one landed write in flight. */
  ghost predicate DurableFirst(spec: Spec, origin: Store, s: State) {
    && s.committed == s.announced + Landed(s.flight)
    && s.medium == AppliedAll(origin, s.committed)
    && Load(spec, s.medium) == Some(AppliedAll(s.memory, Landed(s.flight)))
  }

  predicate SoundJob(spec: Spec, job: Job) {
    match job
    case PutJob(key, value) => Settled(spec, PutWrite(key, value))
    case DeleteJob(key) => key.0 in spec.tables
    case UpdateJob(key, _) => key.0 in spec.tables
    case SetJob(value) => Settled(spec, SetWrite(value))
    case DrainJob => true
  }

  ghost predicate SoundJobs(spec: Spec, s: State) {
    && (forall i :: 0 <= i < |s.queue| ==> SoundJob(spec, s.queue[i]))
    && (s.flight.Some? ==> Settled(spec, s.flight.value.write))
  }

  ghost predicate OnlyDrains(queue: seq<Job>) {
    forall i :: 0 <= i < |queue| ==> queue[i].DrainJob?
  }

  /** Closing lets in no more writes and waits for those let in before. */
  ghost predicate Draining(s: State) {
    && (s.closed ==> s.drained)
    && (s.drained ==> s.closing && s.flight.None? && OnlyDrains(s.queue))
    && (!s.closing ==> forall i :: 0 <= i < |s.queue| ==> !s.queue[i].DrainJob?)
    && (forall i, j :: 0 <= i < j < |s.queue| && s.queue[i].DrainJob? ==> s.queue[j].DrainJob?)
    && (s.flight.Some? ==> !s.flight.value.job.DrainJob?)
  }

  ghost predicate Inv(spec: Spec, start: Store, origin: Store, s: State) {
    InOrder(s) && Serialized(spec, start, s) && DurableFirst(spec, origin, s) && SoundJobs(spec, s) && Draining(s)
  }

  // ------------------------------------------------------------------ each part is kept

  lemma JobsSnoc(done: seq<Done>, d: Done)
    ensures Jobs(done + [d]) == Jobs(done) + [d.job]
  {
  }

  lemma OrderOnRequest(s: State, s': State, job: Job)
    requires InOrder(s) && s'.queue == s.queue + [job] && s'.accepted == s.accepted + [job]
    requires s'.done == s.done && s'.flight == s.flight
    ensures InOrder(s')
  {
    hide Jobs, Holding;
  }

  lemma OrderOnBegin(spec: Spec, s: State)
    requires InOrder(s)
    ensures InOrder(Began(spec, s))
  {
    hide Decide, Jobs;
    if s.flight.None? && s.queue != [] {
      assert s.queue == [s.queue[0]] + s.queue[1..];
      JobsSnoc(s.done, Done(s.queue[0], false));
    }
  }

  lemma OrderOnEnd(s: State, s': State, d: Done)
    requires InOrder(s) && s.flight.Some? && d.job == s.flight.value.job
    requires s'.queue == s.queue && s'.accepted == s.accepted && s'.done == s.done + [d] && s'.flight.None?
    ensures InOrder(s')
  {
    JobsSnoc(s.done, d);
    hide Jobs;
  }

  lemma OrderKept(spec: Spec, s: State, a: Action)
    requires InOrder(s)
    ensures InOrder(Do(spec, s, a))
  {
    var s' := Do(spec, s, a);
    if |s'.accepted| > |s.accepted| {
      OrderOnRequest(s, s', s'.accepted[|s.accepted|]);
    } else if a.Begin? {
      OrderOnBegin(spec, s);
    } else if (a.Fail? || a.Finish?) && s' != s {
      OrderOnEnd(s, s', s'.done[|s.done|]);
    }
  }

  lemma SerialSnoc(spec: Spec, start: Store, done: seq<Done>, d: Done)
    ensures var before := Serial(spec, start, done);
            var decision := Decide(spec, before, d.job);
            && Serial(spec, start, done + [d]) ==
               (if decision.Send? && !d.failed then Applied(before, decision.write) else before)
            && SerialWrites(spec, start, done + [d]) ==
               SerialWrites(spec, start, done) + (if decision.Send? && !d.failed then [decision.write] else [])
  {
    assert (done + [d])[..|done|] == done;
  }

  lemma SerialKept(spec: Spec, start: Store, s: State, a: Action)
    requires Serialized(spec, start, s)
    ensures Serialized(spec, start, Do(spec, s, a))
  {
    hide Decide, Applied, Serial, SerialWrites;
    var s' := Do(spec, s, a);
    if s'.done != s.done {
      SerialSnoc(spec, start, s.done, s'.done[|s.done|]);
    }
  }

  lemma DecideIsSound(spec: Spec, memory: Store, job: Job)
    requires AllSettle(spec) && SoundJob(spec, job) && Decide(spec, memory, job).Send?
    ensures Settled(spec, Decide(spec, memory, job).write)
  {
  }

  lemma SoundKept(spec: Spec, s: State, a: Action)
    requires AllSettle(spec) && SoundJobs(spec, s)
    ensures SoundJobs(spec, Do(spec, s, a))
  {
    var s' := Do(spec, s, a);
    if a.Begin? && s'.flight != s.flight {
      DecideIsSound(spec, s.memory, s.queue[0]);
    } else if |s'.queue| > |s.queue| {
      NewJobIsSound(spec, s, a);
    }
  }

  lemma NewJobIsSound(spec: Spec, s: State, a: Action)
    requires AllSettle(spec) && |Do(spec, s, a).queue| > |s.queue|
    ensures Do(spec, s, a).queue[..|s.queue|] == s.queue && |Do(spec, s, a).queue| == |s.queue| + 1
    ensures SoundJob(spec, Do(spec, s, a).queue[|s.queue|])
  {
  }

  lemma AppliedSnoc(s: Store, ws: seq<Write>, w: Write)
    ensures AppliedAll(s, ws + [w]) == Applied(AppliedAll(s, ws), w)
  {
    assert (ws + [w])[..|ws|] == ws;
  }

  lemma LandDoes(spec: Spec, s: State)
    requires s.flight.Some? && !s.flight.value.landed
    ensures var s' := Do(spec, s, Land);
            && s'.medium == Applied(s.medium, s.flight.value.write) && s'.memory == s.memory
            && s'.committed == s.committed + [s.flight.value.write] && s'.announced == s.announced
            && Landed(s.flight) == [] && Landed(s'.flight) == [s.flight.value.write]
  {
  }

  lemma DurableOnLand(spec: Spec, origin: Store, s: State)
    requires DurableFirst(spec, origin, s) && SoundJobs(spec, s) && s.flight.Some? && !s.flight.value.landed
    ensures DurableFirst(spec, origin, Do(spec, s, Land))
  {
    LandDoes(spec, s);
    hide Load, Applied, Settled, SoundJob, Do;
    var w := s.flight.value.write;
    LoadAfterWrite(spec, s.medium, w);
    AppliedSnoc(origin, s.committed, w);
    AppliedSnoc(s.memory, [], w);
    assert [] + [w] == [w];
  }

  lemma DurableOnFinish(spec: Spec, origin: Store, s: State)
    requires DurableFirst(spec, origin, s) && s.flight.Some? && s.flight.value.landed
    ensures DurableFirst(spec, origin, Do(spec, s, Finish))
  {
    hide Load, Applied;
    AppliedSnoc(s.memory, [], s.flight.value.write);
    assert [] + [s.flight.value.write] == [s.flight.value.write];
  }

  lemma DurableStays(spec: Spec, origin: Store, s: State, s': State)
    requires DurableFirst(spec, origin, s) && s'.memory == s.memory && s'.medium == s.medium
    requires s'.announced == s.announced && s'.committed == s.committed && Landed(s'.flight) == Landed(s.flight)
    ensures DurableFirst(spec, origin, s')
  {
  }

  predicate MovesStores(s: State, a: Action) {
    s.flight.Some? && ((a.Land? && !s.flight.value.landed) || (a.Finish? && s.flight.value.landed))
  }

  lemma OthersLeaveStores(spec: Spec, s: State, a: Action)
    requires !MovesStores(s, a)
    ensures var s' := Do(spec, s, a);
            && s'.memory == s.memory && s'.medium == s.medium
            && s'.announced == s.announced && s'.committed == s.committed && Landed(s'.flight) == Landed(s.flight)
  {
    hide Applied, Decide;
  }

  lemma DurableKept(spec: Spec, origin: Store, s: State, a: Action)
    requires DurableFirst(spec, origin, s) && SoundJobs(spec, s)
    ensures DurableFirst(spec, origin, Do(spec, s, a))
  {
    hide Do, DurableFirst, SoundJobs;
    if !MovesStores(s, a) {
      OthersLeaveStores(spec, s, a);
      DurableStays(spec, origin, s, Do(spec, s, a));
    } else if a.Land? {
      DurableOnLand(spec, origin, s);
    } else {
      DurableOnFinish(spec, origin, s);
    }
  }

  lemma DrainingKept(spec: Spec, s: State, a: Action)
    requires Draining(s)
    ensures Draining(Do(spec, s, a))
  {
    hide Applied;
    if a.Begin? && s.flight.None? && s.queue != [] {
      assert forall i :: 0 <= i < |s.queue| - 1 ==> s.queue[1..][i] == s.queue[i + 1];
      if s.queue[0].DrainJob? {
        assert OnlyDrains(s.queue);
      }
    }
  }

  lemma StepKept(spec: Spec, start: Store, origin: Store, s: State, a: Action)
    requires AllSettle(spec) && Inv(spec, start, origin, s)
    ensures Inv(spec, start, origin, Do(spec, s, a))
  {
    hide Do, InOrder, Serialized, DurableFirst, SoundJobs, Draining, AllSettle;
    OrderKept(spec, s, a);
    SerialKept(spec, start, s, a);
    DurableKept(spec, origin, s, a);
    SoundKept(spec, s, a);
    DrainingKept(spec, s, a);
  }

  /** Over every interleaving of requests, slots, failing writes and closing. */
  lemma {:induction false} EveryRunKeeps(spec: Spec, medium: Store, actions: seq<Action>)
    requires AllSettle(spec) && Load(spec, medium).Some?
    ensures var start := Load(spec, medium).value;
            Inv(spec, start, medium, DoAll(spec, Opened(start, medium), actions))
  {
    hide Do, Load;
    var start := Load(spec, medium).value;
    if actions != [] {
      hide Inv;
      EveryRunKeeps(spec, medium, actions[..|actions| - 1]);
      StepKept(spec, start, medium, DoAll(spec, Opened(start, medium), actions[..|actions| - 1]),
        actions[|actions| - 1]);
    }
  }

  // ------------------------------------------------------------------ what the invariant means

  /** While the slot is free, reopening the medium gives exactly memory; while it is held, at most the one
      write in flight is ahead. */
  lemma MemoryIsTheMedium(spec: Spec, start: Store, origin: Store, s: State)
    requires Inv(spec, start, origin, s)
    ensures s.flight.None? ==> Load(spec, s.medium) == Some(s.memory) && s.announced == s.committed
    ensures s.flight.Some? ==>
              Load(spec, s.medium) ==
              Some(if s.flight.value.landed then Applied(s.memory, s.flight.value.write) else s.memory)
    ensures s.announced <= s.committed && |s.committed| <= |s.announced| + 1
    ensures s.memory == Serial(spec, start, s.done) && s.announced == SerialWrites(spec, start, s.done)
  {
    hide Load, Serial, SerialWrites, Applied;
    if s.flight.Some? {
      AppliedSnoc(s.memory, [], s.flight.value.write);
      assert [] + [s.flight.value.write] == [s.flight.value.write];
    }
  }

  /** Once closed, no step touches the medium, memory or the announcements, and every write let in
      before had its slot. */
  lemma NothingAfterClose(spec: Spec, start: Store, origin: Store, s: State, a: Action)
    requires Inv(spec, start, origin, s) && s.closed
    ensures var s' := Do(spec, s, a);
            s'.closed && s'.medium == s.medium && s'.memory == s.memory && s'.announced == s.announced
    ensures forall j :: j in s.accepted && !j.DrainJob? ==> j in Jobs(s.done)
  {
    assert OnlyDrains(s.queue);
    assert forall j :: j in s.queue ==> j.DrainJob?;
  }

  const NOTHING := Store(map[], JNull)

  lemma NothingLoads(spec: Spec)
    ensures Load(spec, NOTHING).Some? && Load(spec, NOTHING).value.records == map[]
  {
  }

  /** With the slot free, a fresh open gives exactly memory. */
  predicate Reopens(spec: Spec, medium: Store, s: State) {
    s.flight.None? ==> Load(spec, s.medium) == Some(s.memory)
  }

  /** With a check that would change its own answer, one put leaves memory and a later open disagreeing. */
  lemma UnsettledCheckForks(spec: Spec, key: Key, raw: Json)
    requires key.0 in spec.tables && spec.tables[key.0](raw).Some?
    requires spec.tables[key.0](spec.tables[key.0](raw).value) != spec.tables[key.0](raw)
    ensures var s := DoAll(spec, Opened(Load(spec, NOTHING).value, NOTHING), [Put(key, raw), Begin, Land, Finish]);
            s.flight.None? && key in s.memory.records && Load(spec, s.medium) != Some(s.memory)
  {
    var value := spec.tables[key.0](raw).value;
    var s0 := Opened(Load(spec, NOTHING).value, NOTHING);
    var s1 := Do(spec, s0, Put(key, raw));
    var s2 := Do(spec, s1, Begin);
    var s3 := Do(spec, s2, Land);
    var s4 := Do(spec, s3, Finish);
    assert s1.queue == [PutJob(key, value)];
    FourSteps(spec, s0, Put(key, raw), Begin, Land, Finish);
    assert s4.memory.records[key] == value && s4.medium.records[key] == value;
  }

  /** A global value that opening would not give back, null among them, is lost to a later open once set. */
  lemma LostGlobalForks(spec: Spec, raw: Json)
    requires spec.global.Some? && GlobalChecked(spec.global.value, raw).Some?
    requires !GlobalComesBack(spec.global.value, GlobalChecked(spec.global.value, raw).value)
    ensures var value := GlobalChecked(spec.global.value, raw).value;
            var s := DoAll(spec, Opened(Load(spec, NOTHING).value, NOTHING), [SetGlobal(raw), Begin, Land, Finish]);
            && s.flight.None? && s.memory.global == value && Load(spec, s.medium) != Some(s.memory)
            && (value == JNull ==>
               Load(spec, s.medium).Some? && Load(spec, s.medium).value.global == spec.global.value.initial)
  {
    var value := GlobalChecked(spec.global.value, raw).value;
    var s0 := Opened(Load(spec, NOTHING).value, NOTHING);
    var s1 := Do(spec, s0, SetGlobal(raw));
    var s2 := Do(spec, s1, Begin);
    var s3 := Do(spec, s2, Land);
    var s4 := Do(spec, s3, Finish);
    assert s1.queue == [SetJob(value)];
    FourSteps(spec, s0, SetGlobal(raw), Begin, Land, Finish);
    assert s4.memory.global == value && s4.medium == NOTHING.(global := value);
  }

  /** A global declared without a check, as declaring allows, with an initial value that is not null: setting it
      to null is durable as never written, and the next open shows the initial value again. */
  lemma NullGlobalIsForgotten()
    ensures var spec := Spec(map[], Some(GlobalSpec(None, JStr("light"))));
            var s := DoAll(spec, Opened(Load(spec, NOTHING).value, NOTHING), [SetGlobal(JNull), Begin, Land, Finish]);
            Declarable(spec) && s.memory.global == JNull
            && Load(spec, s.medium).Some? && Load(spec, s.medium).value.global == JStr("light")
  {
    LostGlobalForks(Spec(map[], Some(GlobalSpec(None, JStr("light")))), JNull);
  }

  /** Exactly when checks settle and null cannot be set over a non-null initial value, a fresh open gives memory
      after every run on every medium that can be opened. */
  lemma ReopensExactly(spec: Spec)
    ensures AllSettle(spec) <==>
            forall medium, actions :: Load(spec, medium).Some? ==>
              Reopens(spec, medium, DoAll(spec, Opened(Load(spec, medium).value, medium), actions))
  {
    hide Load, Do, DoAll, Settled, Idempotent, GlobalComesBack;
    if AllSettle(spec) {
      forall medium, actions | Load(spec, medium).Some?
        ensures Reopens(spec, medium, DoAll(spec, Opened(Load(spec, medium).value, medium), actions))
      {
        EveryRunKeeps(spec, medium, actions);
        MemoryIsTheMedium(spec, Load(spec, medium).value, medium,
                          DoAll(spec, Opened(Load(spec, medium).value, medium), actions));
      }
    } else {
      NothingLoads(spec);
      var raw, actions := Unsettled(spec);
      assert !Reopens(spec, NOTHING, DoAll(spec, Opened(Load(spec, NOTHING).value, NOTHING), actions));
    }
  }

  /** Without the condition, a run that forks memory from the medium. */
  lemma Unsettled(spec: Spec) returns (raw: Json, actions: seq<Action>)
    requires !AllSettle(spec)
    ensures Load(spec, NOTHING).Some?
    ensures !Reopens(spec, NOTHING, DoAll(spec, Opened(Load(spec, NOTHING).value, NOTHING), actions))
  {
    hide Load, Do, DoAll;
    NothingLoads(spec);
    if t :| t in spec.tables && !Idempotent(spec.tables[t]) {
      raw :| spec.tables[t](raw).Some? && spec.tables[t](spec.tables[t](raw).value) != spec.tables[t](raw);
      UnsettledCheckForks(spec, (t, ""), raw);
      actions := [Put((t, ""), raw), Begin, Land, Finish];
    } else {
      raw :| GlobalChecked(spec.global.value, raw).Some?
             && !GlobalComesBack(spec.global.value, GlobalChecked(spec.global.value, raw).value);
      LostGlobalForks(spec, raw);
      actions := [SetGlobal(raw), Begin, Land, Finish];
    }
  }

  /** A check that follows the declaration's rule keeps null out, so only its own settling is left. */
  lemma CheckedGlobalSettles(spec: Spec)
    requires Declarable(spec) && spec.global.Some? && spec.global.value.check.Some?
    requires Idempotent(spec.global.value.check.value)
    requires forall t :: t in spec.tables ==> Idempotent(spec.tables[t])
    ensures AllSettle(spec)
  {
    var g := spec.global.value;
    forall raw | GlobalChecked(g, raw).Some?
      ensures GlobalComesBack(g, GlobalChecked(g, raw).value)
    {
      assert g.check.value(g.check.value(raw).value) == g.check.value(raw);
    }
  }

  lemma FourSteps(spec: Spec, s: State, a: Action, b: Action, c: Action, d: Action)
    ensures DoAll(spec, s, [a, b, c, d]) == Do(spec, Do(spec, Do(spec, Do(spec, s, a), b), c), d)
  {
    hide Do;
    assert [a, b, c, d][..3] == [a, b, c] && [a, b, c][..2] == [a, b] && [a, b][..1] == [a] && [a][..0] == [];
    assert DoAll(spec, s, []) == s;
    assert DoAll(spec, s, [a]) == Do(spec, s, a);
    assert DoAll(spec, s, [a, b]) == Do(spec, Do(spec, s, a), b);
    assert DoAll(spec, s, [a, b, c]) == Do(spec, Do(spec, Do(spec, s, a), b), c);
  }

  // ------------------------------------------------------------------ what a request does

  /** Nothing else than this record differs. */
  ghost predicate SameBut(a: Store, b: Store, key: Key) {
    && a.global == b.global
    && forall k :: k != key ==>
         (k in a.records <==> k in b.records) && (k in a.records ==> a.records[k] == b.records[k])
  }

  ghost predicate Holds(s: Store, key: Key, value: Json) {
    key in s.records && s.records[key] == value
  }

  /** What running one job makes of the records and the global value, and what it announces. */
  ghost predicate Effect(spec: Spec, before: Store, d: Done, after: Store, said: seq<Write>) {
    if d.failed then after == before && said == []
    else
      match d.job
      case PutJob(key, value) =>
        SameBut(before, after, key) && Holds(after, key, value) && said == [PutWrite(key, value)]
      case DeleteJob(key) =>
        SameBut(before, after, key) && key !in after.records
        && said == if key in before.records then [DeleteWrite(key)] else []
      case UpdateJob(key, change) =>
        if Changed(spec, before, key, change).None? then after == before && said == []
        else
          var value := Changed(spec, before, key, change).value;
          SameBut(before, after, key) && Holds(after, key, value) && said == [PutWrite(key, value)]
      case SetJob(value) => after.records == before.records && after.global == value && said == [SetWrite(value)]
      case DrainJob => after == before && said == []
  }

  /** The checked result of changing a record; none when there is no such record, when changing it raises or when
      the check refuses what comes out. */
  function Changed(spec: Spec, before: Store, key: Key, change: Json -> Option<Json>): Option<Json> {
    if key !in before.records || key.0 !in spec.tables || change(before.records[key]).None? then None
    else spec.tables[key.0](change(before.records[key]).value)
  }

  /** Each job, one at a time, has its own effect on what the jobs before it left, and no other. */
  lemma EachJobTakesEffect(spec: Spec, start: Store, done: seq<Done>, d: Done)
    ensures SerialWrites(spec, start, done) <= SerialWrites(spec, start, done + [d])
    ensures Effect(spec, Serial(spec, start, done), d, Serial(spec, start, done + [d]),
                   SerialWrites(spec, start, done + [d])[|SerialWrites(spec, start, done)|..])
  {
    hide Serial, SerialWrites;
    SerialSnoc(spec, start, done, d);
    DecidedEffect(spec, Serial(spec, start, done), d);
  }

  lemma DecidedEffect(spec: Spec, before: Store, d: Done)
    ensures var decision := Decide(spec, before, d.job);
            if decision.Send? && !d.failed then
              Effect(spec, before, d, Applied(before, decision.write), [decision.write])
            else Effect(spec, before, d, before, [])
  {
  }

  /** Nothing is queued or under way, and memory is what opening the medium gives. */
  ghost predicate AtRest(spec: Spec, s: State) {
    s.flight.None? && s.queue == [] && !s.closing && Load(spec, s.medium) == Some(s.memory)
  }

  /** Such are a store just opened and, when checks settle, every run that has nothing left to do. */
  lemma QuietIsAtRest(spec: Spec, medium: Store, actions: seq<Action>)
    requires AllSettle(spec) && Load(spec, medium).Some?
    ensures AtRest(spec, Opened(Load(spec, medium).value, medium))
    ensures var s := DoAll(spec, Opened(Load(spec, medium).value, medium), actions);
            AtRest(spec, s) <==> s.flight.None? && s.queue == [] && !s.closing
  {
    hide Load, Do, DoAll, Inv, AllSettle;
    EveryRunKeeps(spec, medium, actions);
    MemoryIsTheMedium(spec, Load(spec, medium).value, medium,
                      DoAll(spec, Opened(Load(spec, medium).value, medium), actions));
  }

  lemma AppliedMeans(s: Store, w: Write)
    ensures match w
            case PutWrite(key, value) => SameBut(s, Applied(s, w), key) && Holds(Applied(s, w), key, value)
            case DeleteWrite(key) => SameBut(s, Applied(s, w), key) && key !in Applied(s, w).records
            case SetWrite(value) => Applied(s, w) == s.(global := value)
  {
  }

  /** A job that was let in gets its slot and makes its write, or makes none. */
  lemma JobRuns(spec: Spec, s: State, a: Action, job: Job)
    requires AtRest(spec, s) && Do(spec, s, a) == Enqueued(s, job) && !job.DrainJob?
    ensures var s', d := DoAll(spec, s, [a, Begin, Land, Finish]), Decide(spec, s.memory, job);
            && s'.flight.None? && s'.queue == []
            && if d.Send? then
                 s'.memory == Applied(s.memory, d.write) && s'.medium == Applied(s.medium, d.write)
                 && s'.announced == s.announced + [d.write]
               else s'.memory == s.memory && s'.medium == s.medium && s'.announced == s.announced
  {
    hide Decide, Applied, Load;
    FourSteps(spec, s, a, Begin, Land, Finish);
    assert Enqueued(s, job).queue == [job];
    var s1 := Enqueued(s, job);
    var s2 := Began(spec, s1);
  }

  lemma SameRecords(spec: Spec, s: State, key: Key)
    requires AtRest(spec, s) && key.0 in spec.tables
    ensures key in s.memory.records <==> key in s.medium.records
  {
  }

  /** After a deletion has run the record is in neither store; it is announced exactly when there was one. */
  lemma DeleteDeletes(spec: Spec, s: State, key: Key)
    requires AtRest(spec, s) && key.0 in spec.tables
    ensures var s' := DoAll(spec, s, [Delete(key), Begin, Land, Finish]);
            && key !in s'.memory.records && key !in s'.medium.records
            && SameBut(s.memory, s'.memory, key) && SameBut(s.medium, s'.medium, key)
            && s'.announced == s.announced + (if key in s.medium.records then [DeleteWrite(key)] else [])
            && s'.flight.None? && s'.queue == []
  {
    JobRuns(spec, s, Delete(key), DeleteJob(key));
    hide DoAll, Applied, Do, AtRest;
    SameRecords(spec, s, key);
    AppliedMeans(s.memory, DeleteWrite(key));
    AppliedMeans(s.medium, DeleteWrite(key));
  }

  /** Afterwards both stores hold this record, it was announced, and nothing else changed. */
  ghost predicate Stored(s: State, s': State, key: Key, value: Json) {
    && Holds(s'.memory, key, value) && Holds(s'.medium, key, value)
    && SameBut(s.memory, s'.memory, key) && SameBut(s.medium, s'.medium, key)
    && s'.announced == s.announced + [PutWrite(key, value)] && s'.flight.None? && s'.queue == []
  }

  lemma RecordStored(s: State, s': State, key: Key, value: Json)
    requires s'.memory == Applied(s.memory, PutWrite(key, value))
    requires s'.medium == Applied(s.medium, PutWrite(key, value))
    requires s'.announced == s.announced + [PutWrite(key, value)] && s'.flight.None? && s'.queue == []
    ensures Stored(s, s', key, value)
  {
    hide Applied;
    AppliedMeans(s.memory, PutWrite(key, value));
    AppliedMeans(s.medium, PutWrite(key, value));
  }

  /** What the check makes of the value is afterwards what both stores hold; a refused value changes nothing. */
  lemma PutStores(spec: Spec, s: State, key: Key, raw: Json)
    requires AtRest(spec, s) && key.0 in spec.tables
    ensures var s' := DoAll(spec, s, [Put(key, raw), Begin, Land, Finish]);
            if spec.tables[key.0](raw).None? then s' == s else Stored(s, s', key, spec.tables[key.0](raw).value)
  {
    if spec.tables[key.0](raw).Some? {
      var value := spec.tables[key.0](raw).value;
      JobRuns(spec, s, Put(key, raw), PutJob(key, value));
      hide DoAll, Applied, Do, AtRest, Stored;
      RecordStored(s, DoAll(spec, s, [Put(key, raw), Begin, Land, Finish]), key, value);
    } else {
      RefusedRuns(spec, s, Put(key, raw));
    }
  }

  lemma RefusedRuns(spec: Spec, s: State, a: Action)
    requires AtRest(spec, s) && Do(spec, s, a) == s
    ensures DoAll(spec, s, [a, Begin, Land, Finish]) == s
  {
    FourSteps(spec, s, a, Begin, Land, Finish);
  }

  /** An update stores what the check makes of the changed record. Without such a record, when changing it raises
      or when the check refuses, it changes nothing in either store. */
  lemma UpdateStores(spec: Spec, s: State, key: Key, change: Json -> Option<Json>)
    requires AtRest(spec, s) && key.0 in spec.tables
    ensures var s' := DoAll(spec, s, [Update(key, change), Begin, Land, Finish]);
            if key in s.memory.records && change(s.memory.records[key]).Some?
               && spec.tables[key.0](change(s.memory.records[key]).value).Some? then
              Stored(s, s', key, spec.tables[key.0](change(s.memory.records[key]).value).value)
            else s'.memory == s.memory && s'.medium == s.medium && s'.announced == s.announced && s'.flight.None?
  {
    JobRuns(spec, s, Update(key, change), UpdateJob(key, change));
    hide DoAll, Applied, Do, AtRest, Stored;
    if Decide(spec, s.memory, UpdateJob(key, change)).Send? {
      RecordStored(s, DoAll(spec, s, [Update(key, change), Begin, Land, Finish]), key,
                   Decide(spec, s.memory, UpdateJob(key, change)).write.value);
    }
  }

  lemma SetStores(spec: Spec, s: State, raw: Json)
    requires AtRest(spec, s) && spec.global.Some?
    ensures var s' := DoAll(spec, s, [SetGlobal(raw), Begin, Land, Finish]);
            if GlobalChecked(spec.global.value, raw).None? then s' == s
            else
              var value := GlobalChecked(spec.global.value, raw).value;
              && s'.memory == s.memory.(global := value) && s'.medium == s.medium.(global := value)
              && s'.announced == s.announced + [SetWrite(value)] && s'.flight.None? && s'.queue == []
  {
    hide GlobalChecked;
    if GlobalChecked(spec.global.value, raw).Some? {
      JobRuns(spec, s, SetGlobal(raw), SetJob(GlobalChecked(spec.global.value, raw).value));
    } else {
      RefusedRuns(spec, s, SetGlobal(raw));
    }
  }

  // ------------------------------------------------------------------ the JSON file unit

  /** The unit of the JSON backend: the copy it rewrites the file from, and the file. */
  datatype JsonUnit = JsonUnit(copy: Store, file: Store)

  /** Its copy moves before the file is written, and does not move back when writing fails. */
  function JsonStep(u: JsonUnit, w: Write, persists: bool): JsonUnit {
    var copy := Applied(u.copy, w);
    JsonUnit(copy, if persists then copy else u.file)
  }

  predicate SamePlace(a: Write, b: Write) {
    if a.SetWrite? || b.SetWrite? then a.SetWrite? && b.SetWrite? else a.key == b.key
  }

  /** A refused write stays out of the file after the next good one exactly when it changed nothing or the
      next one covers its place; otherwise the file then holds what the caller was told had failed. */
  lemma RefusedWriteResurfaces(u: JsonUnit, refused: Write, next: Write)
    ensures var file := JsonStep(JsonStep(u, refused, false), next, true).file;
            file == Applied(u.copy, next) <==> SamePlace(refused, next) || Applied(u.copy, refused) == u.copy
  {
    var file, wanted := JsonStep(JsonStep(u, refused, false), next, true).file, Applied(u.copy, next);
    if SamePlace(refused, next) {
      assert file.records == wanted.records && file.global == wanted.global;
    } else if file == wanted {
      var after := Applied(u.copy, refused);
      if !refused.SetWrite? {
        var k := refused.key;
        assert k in file.records <==> k in after.records;
        assert k in wanted.records <==> k in u.copy.records;
        assert k in after.records ==> file.records[k] == after.records[k] && wanted.records[k] == u.copy.records[k];
        assert forall j :: j != k ==> (j in after.records <==> j in u.copy.records);
        assert after.records == u.copy.records;
      } else {
        assert after.global == file.global && wanted.global == u.copy.global;
      }
    }
  }

  // ------------------------------------------------------------------ the domain itself

  /** What a job may do with its slot. */
  ghost predicate Decided(spec: Spec, memory: Store, job: Job, d: Decision) {
    && (d.Send? ==>
          match d.write
          case PutWrite(key, value) =>
            job == PutJob(key, value)
            || (job.UpdateJob? && job.key == key && Changed(spec, memory, key, job.change) == Some(value))
          case DeleteWrite(key) => job == DeleteJob(key) && key in memory.records
          case SetWrite(value) => job == SetJob(value))
    && (d.Nothing? <==> job.DrainJob? || (job.DeleteJob? && job.key !in memory.records))
    && (d.Refuse? <==> job.UpdateJob? && Changed(spec, memory, job.key, job.change).None?)
    && (d.Refuse? ==> d.error == if job.key !in memory.records || job.key.0 !in spec.tables then MissingKey
                                 else if job.change(memory.records[job.key]).None? then ChangeFailed
                                 else InvalidRecord)
  }

  /** All declared records were read as their checks give them, or there is one a check refuses. */
  ghost predicate ReadAs(spec: Spec, medium: Store, r: Option<map<Key, Json>>) {
    if r.None? then exists k :: k in medium.records && k.0 in spec.tables && spec.tables[k.0](medium.records[k]).None?
    else
      && (forall k :: k in r.value <==> k in medium.records && k.0 in spec.tables)
      && (forall k :: k in r.value ==> Some(r.value[k]) == spec.tables[k.0](medium.records[k]))
  }

  lemma RefusedRecord(spec: Spec, medium: Store, k: Key)
    requires k in medium.records && k.0 in spec.tables && spec.tables[k.0](medium.records[k]).None?
    ensures ReadAs(spec, medium, None)
  {
  }

  lemma AllRead(spec: Spec, medium: Store, records: map<Key, Json>)
    requires forall k :: k in records ==>
      k in medium.records && k.0 in spec.tables && Some(records[k]) == spec.tables[k.0](medium.records[k])
    requires forall k :: k in medium.records && k.0 in spec.tables ==> k in records
    ensures ReadAs(spec, medium, Some(records))
  {
  }

  lemma LoadedIs(spec: Spec, medium: Store, r: Option<map<Key, Json>>)
    requires ReadAs(spec, medium, r)
    ensures Load(spec, medium).Some? <==>
              r.Some? && (spec.global.Some? && medium.global != JNull ==>
                            GlobalChecked(spec.global.value, medium.global).Some?)
    ensures Load(spec, medium).Some? ==> Load(spec, medium).value == Store(r.value, LoadGlobal(spec, medium.global))
  {
    hide GlobalChecked, LoadGlobal;
    if Load(spec, medium).Some? {
      assert Load(spec, medium).value.records == r.value;
    }
  }

  class Domain {
    const spec: Spec
    var records: map<Key, Json>
    var globalValue: Json
    var queue: seq<Job>
    var flight: Option<Flight>
    var announced: seq<Write>
    var closing: bool
    var drained: bool
    var closed: bool
    /** The unit's own durable contents. */
    var unit: Store
    ghost var accepted: seq<Job>
    ghost var done: seq<Done>
    ghost var committed: seq<Write>

    ghost function Model(): State
      reads this
    {
      State(Store(records, globalValue), unit, queue, flight, announced, closing, drained, closed,
            accepted, done, committed)
    }

    constructor (spec: Spec, loaded: Store, unit: Store)
      ensures this.spec == spec && Model() == Opened(loaded, unit)
    {
      this.spec, this.unit := spec, unit;
      records, globalValue := loaded.records, loaded.global;
      queue, flight, announced, closing, drained, closed := [], None, [], false, false, false;
      accepted, done, committed := [], [], [];
    }

    /** Open a domain: every declared record and the global value are checked and kept as the check gives them. */
    static method Open(spec: Spec, medium: Store) returns (r: Result<Domain, DomainError>)
      ensures r.Ok? <==>
                && (forall k :: k in medium.records && k.0 in spec.tables ==>
                      spec.tables[k.0](medium.records[k]).Some?)
                && (spec.global.Some? && medium.global != JNull ==>
                      GlobalChecked(spec.global.value, medium.global).Some?)
      ensures r.Err? ==> r.error == InvalidRecord
      ensures r.Ok? ==>
                var d := r.value;
                && fresh(d) && d.spec == spec && d.unit == medium
                && (forall k :: k in d.records <==> k in medium.records && k.0 in spec.tables)
                && (forall k :: k in d.records ==> Some(d.records[k]) == spec.tables[k.0](medium.records[k]))
                && d.globalValue == LoadGlobal(spec, medium.global)
                && d.Model() == Opened(Load(spec, medium).value, medium)
    {
      hide Load, LoadGlobal, GlobalChecked;
      var read := ReadRecords(spec, medium);
      LoadedIs(spec, medium, read);
      if read.None? {
        return Err(InvalidRecord);
      }
      if spec.global.Some? && medium.global != JNull && GlobalChecked(spec.global.value, medium.global).None? {
        return Err(InvalidRecord);
      }
      var d := new Domain(spec, Store(read.value, LoadGlobal(spec, medium.global)), medium);
      return Ok(d);
    }

    /** Every declared record as its check gives it, unless a check refuses one. */
    static method ReadRecords(spec: Spec, medium: Store) returns (r: Option<map<Key, Json>>)
      ensures ReadAs(spec, medium, r)
    {
      hide ReadAs;
      var records: map<Key, Json> := map[];
      var rest := set k | k in medium.records && k.0 in spec.tables;
      while rest != {}
        invariant forall k :: k in rest ==> k in medium.records && k.0 in spec.tables
        invariant forall k :: k in records ==>
                    k in medium.records && k.0 in spec.tables && Some(records[k]) == spec.tables[k.0](medium.records[k])
        invariant forall k :: k in medium.records && k.0 in spec.tables ==> k in rest || k in records
      {
        var k :| k in rest;
        var checked := spec.tables[k.0](medium.records[k]);
        if checked.None? {
          RefusedRecord(spec, medium, k);
          return None;
        }
        records := records[k := checked.value];
        rest := rest - {k};
      }
      AllRead(spec, medium, records);
      return Some(records);
    }

    method Get(key: Key) returns (r: Result<Option<Json>, DomainError>)
      ensures r == if closed then Err(ClosedDomain)
                   else Ok(if key in records then Some(records[key]) else None)
    {
      if closed {
        return Err(ClosedDomain);
      }
      return Ok(if key in records then Some(records[key]) else None);
    }

    method Enqueue(job: Job) returns (r: Result<(), DomainError>)
      modifies this`queue, this`accepted
      ensures Model() == Enqueued(old(Model()), job)
      ensures r == if closing then Err(ClosedDomain) else Ok(())
    {
      if closing {
        return Err(ClosedDomain);
      }
      queue, accepted := queue + [job], accepted + [job];
      return Ok(());
    }

    method PutRecord(key: Key, raw: Json) returns (r: Result<(), DomainError>)
      modifies this`queue, this`accepted
      ensures Model() == Do(spec, old(Model()), Put(key, raw))
      ensures r.Ok? <==> key.0 in spec.tables && spec.tables[key.0](raw).Some? && !closing
    {
      if key.0 !in spec.tables {
        return Err(MissingTable);
      }
      var checked := spec.tables[key.0](raw);
      if checked.None? {
        return Err(InvalidRecord);
      }
      r := Enqueue(PutJob(key, checked.value));
    }

    method DeleteRecord(key: Key) returns (r: Result<(), DomainError>)
      modifies this`queue, this`accepted
      ensures Model() == Do(spec, old(Model()), Delete(key))
      ensures r.Ok? <==> key.0 in spec.tables && !closing
    {
      if key.0 !in spec.tables {
        return Err(MissingTable);
      }
      r := Enqueue(DeleteJob(key));
    }

    method UpdateRecord(key: Key, change: Json -> Option<Json>) returns (r: Result<(), DomainError>)
      modifies this`queue, this`accepted
      ensures Model() == Do(spec, old(Model()), Update(key, change))
      ensures r.Ok? <==> key.0 in spec.tables && !closing
    {
      if key.0 !in spec.tables {
        return Err(MissingTable);
      }
      r := Enqueue(UpdateJob(key, change));
    }

    method SetValue(raw: Json) returns (r: Result<(), DomainError>)
      modifies this`queue, this`accepted
      ensures Model() == Do(spec, old(Model()), SetGlobal(raw))
      ensures r.Ok? <==> spec.global.Some? && GlobalChecked(spec.global.value, raw).Some? && !closing
    {
      if spec.global.None? {
        return Err(NoGlobal);
      }
      var checked := GlobalChecked(spec.global.value, raw);
      if checked.None? {
        return Err(InvalidRecord);
      }
      r := Enqueue(SetJob(checked.value));
    }

    /** The slot passes to the job that waited longest; it runs up to its write, if it makes one. */
    method TakeSlot() returns (d: Option<Decision>)
      modifies this
      ensures Model() == Do(spec, old(Model()), Begin)
      ensures d.None? <==> old(flight).Some? || old(queue) == []
      ensures d.Some? ==> Decided(spec, old(Model()).memory, old(queue)[0], d.value)
    {
      if flight.Some? || queue == [] {
        return None;
      }
      var job := queue[0];
      queue := queue[1..];
      var decision := Decide(spec, Store(records, globalValue), job);
      if decision.Send? {
        flight := Some(Flight(job, decision.write, false));
      } else {
        done := done + [Done(job, false)];
        drained := drained || job.DrainJob?;
      }
      return Some(decision);
    }

    /** The medium takes the write in flight, whole. */
    method LandWrite()
      modifies this`unit, this`flight, this`committed
      ensures Model() == Do(spec, old(Model()), Land)
    {
      if flight.Some? && !flight.value.landed {
        unit := Applied(unit, flight.value.write);
        committed := committed + [flight.value.write];
        flight := Some(flight.value.(landed := true));
      }
    }

    /** The medium refuses the write in flight; nothing moves. */
    method FailWrite()
      modifies this`flight, this`done
      ensures Model() == Do(spec, old(Model()), Fail)
    {
      if flight.Some? && !flight.value.landed {
        done := done + [Done(flight.value.job, true)];
        flight := None;
      }
    }

    /** The write has landed: memory moves, then the change is announced. */
    method FinishWrite()
      modifies this
      ensures Model() == Do(spec, old(Model()), Finish)
    {
      if flight.Some? && flight.value.landed {
        match flight.value.write {
          case PutWrite(key, value) => records := records[key := value];
          case DeleteWrite(key) => records := records - {key};
          case SetWrite(value) => globalValue := value;
        }
        announced := announced + [flight.value.write];
        done := done + [Done(flight.value.job, false)];
        flight := None;
      }
    }

    method Close()
      modifies this`closing, this`queue, this`accepted
      ensures Model() == Do(spec, old(Model()), StartClose)
    {
      if !closed {
        closing := true;
        queue, accepted := queue + [DrainJob], accepted + [DrainJob];
      }
    }

    method ReleaseUnit()
      modifies this`closed
      ensures Model() == Do(spec, old(Model()), CloseUnit)
    {
      if drained {
        closed := true;
      }
    }
  }
}
