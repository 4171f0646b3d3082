/** The files of one build ID and the meaning of its materialization journal.

    A digest of a stored model is the model itself, so equal digests mean equal contents. */
module BuildJournal {
  import opened Outcomes

  type BuildId = nat
  type AttemptId = nat
  type Identity = nat

  datatype State =
    | Vacant | Building | Publishing | Present
    | Cleaning | Cleaned | Rehydrating | Discarding

  /** What rehashing a build root reads again: the files behind the artifact-set ID, and the files
      beside them (CMake cache, compile database) with the tools that captured it. */
  datatype Contents = Contents(setId: nat, observations: nat)

  /** A capture also holds what is never read again: inspections with their tool output, targets and
      tool versions. */
  datatype Artifacts = Artifacts(setId: nat, observations: nat, inspections: nat) {
    function Rehashed(): Contents {
      Contents(setId, observations)
    }
  }

  datatype Owner = Owner(attempt: AttemptId, build: BuildId, device: nat, inode: nat)
  datatype Record = Record(build: BuildId, producer: AttemptId, identity: Identity, artifacts: Artifacts)
  datatype Index = Index(build: BuildId, canonical: Record, producer: AttemptId)
  datatype Evidence = Evidence(build: BuildId, attempt: AttemptId, canonical: Record, artifacts: Artifacts)

  datatype Bindings = Bindings(
    canonical: Option<Record>,
    staging: Option<Record>,
    materialization: Option<Evidence>,
    device: Option<nat>,
    inode: Option<nat>)

  const NOTHING := Bindings(None, None, None, None, None)

  datatype Event = Event(
    build: BuildId,
    attempt: AttemptId,
    sequence: nat,
    previous: Option<Event>,
    from: Option<State>,
    to: State,
    bindings: Bindings)

  datatype Registry = Registry(
    build: BuildId,
    attempt: AttemptId,
    state: State,
    sequence: nat,
    last: Event,
    bindings: Bindings)

  /** A writer temp in the events directory; no payload means a torn write. */
  datatype Temp = Temp(sequence: nat, payload: Option<Event>)

  /** A build root; `tree` is what rehashing the directory reads, if it is whole. */
  datatype Root = Root(device: nat, inode: nat, marker: Option<Owner>, tree: Option<Contents>)

  datatype ExecutionClass = Built | CacheHit | Rehydrated | Recovered
  datatype AttemptOutcome = Success | Failed | Interrupted
  datatype Provenance = Provenance(build: BuildId, producer: AttemptId, identity: Identity, artifacts: Artifacts)
  datatype BuildResult = BuildResult(build: BuildId, canonical: Record, class_: ExecutionClass, setId: nat)

  /** The evidence an attempt has written so far, and the immutable record it becomes. */
  datatype Draft = Draft(provenance: Option<Provenance>, result: Option<BuildResult>)
  datatype AttemptRecord = AttemptRecord(
    attempt: AttemptId, outcome: AttemptOutcome, build: Option<BuildId>, files: Draft)

  datatype Attestation = Attestation(
    build: BuildId,
    canonical: Record,
    attestor: AttemptId,
    class_: ExecutionClass,
    setId: nat,
    producerRecord: AttemptRecord,
    attestorRecord: AttemptRecord)

  /** Everything on disk that concerns one build ID. A staged file without a record is torn. */
  datatype Disk = Disk(
    events: map<nat, Event>,
    temps: seq<Temp>,
    current: Option<Registry>,
    evidence: Option<Evidence>,
    staging: map<AttemptId, Option<Record>>,
    record: Option<Record>,
    index: Option<Index>,
    attestation: Option<Attestation>,
    root: Option<Root>,
    active: map<AttemptId, Draft>,
    attempts: map<AttemptId, AttemptRecord>)

  const EMPTY_DISK := Disk(map[], [], None, None, map[], None, None, None, None, map[], map[])

  // ---------------------------------------------------------------- journal

  predicate Legal(from: Option<State>, to: State) {
    match from
    case None => to == Building
    case Some(Vacant) => to == Building
    case Some(Building) => to == Building || to == Publishing || to == Discarding
    case Some(Publishing) => to == Present || to == Discarding
    case Some(Present) => to == Cleaning
    case Some(Cleaning) => to == Cleaned
    case Some(Cleaned) => to == Rehydrating
    case Some(Rehydrating) => to == Rehydrating || to == Present || to == Discarding
    case Some(Discarding) => to == Vacant || to == Cleaned
  }

  predicate Recoverable(state: State) {
    state.Building? || state.Rehydrating? || state.Publishing? || state.Discarding? || state.Cleaning?
  }

  function Carry<T>(asked: Option<T>, previous: Option<T>): Option<T> {
    if asked.Some? then asked else previous
  }

  function CarryAll(asked: Bindings, previous: Bindings): Bindings {
    Bindings(
      Carry(asked.canonical, previous.canonical),
      Carry(asked.staging, previous.staging),
      Carry(asked.materialization, previous.materialization),
      Carry(asked.device, previous.device),
      Carry(asked.inode, previous.inode))
  }

  function NextSequence(current: Option<Registry>): nat {
    if current.None? then 1 else current.value.sequence + 1
  }

  function StateOf(current: Option<Registry>): Option<State> {
    if current.None? then None else Some(current.value.state)
  }

  function LastEvent(current: Option<Registry>): Option<Event> {
    if current.None? then None else Some(current.value.last)
  }

  function NextEvent(previous: Option<Registry>, build: BuildId, attempt: AttemptId, state: State, asked: Bindings): Event {
    Event(
      build, attempt, NextSequence(previous), LastEvent(previous), StateOf(previous), state,
      CarryAll(asked, if previous.None? then NOTHING else previous.value.bindings))
  }

  function RegistryOf(event: Event): Registry {
    Registry(event.build, event.attempt, event.to, event.sequence, event, event.bindings)
  }

  predicate Links(event: Event, build: BuildId, sequence: nat, previous: Option<Event>, from: Option<State>) {
    && event.build == build
    && event.sequence == sequence
    && event.previous == previous
    && event.from == from
  }

  function Range(n: nat): (s: set<nat>)
    ensures forall i :: i in s <==> 1 <= i <= n
  {
    if n == 0 then {} else Range(n - 1) + {n}
  }

  function Before(events: map<nat, Event>, i: nat): Option<Event> {
    if i - 1 in events && i > 1 then Some(events[i - 1]) else None
  }

  /** Event `i` is the exact next link after event `i - 1`. */
  predicate LinkAt(events: map<nat, Event>, build: BuildId, i: nat)
    requires i in events
  {
    var previous := Before(events, i);
    var from := if previous.None? then None else Some(previous.value.to);
    Links(events[i], build, i, previous, from) && Legal(from, events[i].to)
  }

  /** What the event-chain verifier must establish. */
  predicate ChainAccepted(events: map<nat, Event>, registry: Registry) {
    && registry.sequence >= 1
    && events.Keys == Range(registry.sequence)
    && (forall i | i in events :: LinkAt(events, registry.build, i))
    && registry.sequence in events
    && registry == RegistryOf(events[registry.sequence])
  }

  /** What recovery promotes to `current.json`: an orphan next event, else the projection. */
  function Logical(d: Disk): Option<Registry> {
    if NextSequence(d.current) in d.events then Some(RegistryOf(d.events[NextSequence(d.current)])) else d.current
  }

  function Reconciled(d: Disk): Disk {
    d.(temps := [], current := Logical(d))
  }

  predicate TempTolerated(d: Disk) {
    || d.temps == []
    || (&& |d.temps| == 1
        && (if d.temps[0].sequence in d.events
            then d.temps[0].payload == Some(d.events[d.temps[0].sequence])
            else d.temps[0].sequence == NextSequence(d.current)))
  }

  predicate OrphanTolerated(d: Disk, build: BuildId) {
    var next := NextSequence(d.current);
    next in d.events ==>
      && Links(d.events[next], build, next, LastEvent(d.current), StateOf(d.current))
      && Legal(StateOf(d.current), d.events[next].to)
  }

  /** Two disks that differ at most in the journal directory. */
  predicate SameFiles(a: Disk, b: Disk) {
    a.(events := b.events, temps := b.temps, current := b.current) == b
  }

  /** How a transition treats the canonical binding: set only on reaching Present, kept ever
      after, and a discard ends in Cleaned exactly when it is set. */
  predicate BindingStep(previous: Option<Event>, event: Event) {
    var bound := if previous.None? then None else previous.value.bindings.canonical;
    && (bound.Some? ==> event.bindings.canonical == bound)
    && (bound.None? && event.bindings.canonical.Some? ==> event.to.Present?)
    && (event.to.Present? ==> event.bindings.canonical.Some?)
    && (event.from == Some(Discarding) ==> (event.to.Cleaned? <==> bound.Some?))
  }

  predicate GoodEvent(events: map<nat, Event>, build: BuildId, i: nat) {
    i in events && LinkAt(events, build, i) && BindingStep(Before(events, i), events[i])
  }

  function Top(d: Disk): nat {
    if NextSequence(d.current) in d.events then NextSequence(d.current) else NextSequence(d.current) - 1
  }

  /** The journal as any sequence of crashed and completed transitions leaves it. */
  predicate JournalInv(d: Disk, build: BuildId) {
    && d.events.Keys == Range(Top(d))
    && (forall i | 1 <= i <= Top(d) :: GoodEvent(d.events, build, i))
    && (d.current.Some? ==>
          && d.current.value.sequence in d.events
          && d.current.value == RegistryOf(d.events[d.current.value.sequence]))
    && (d.temps == [] || (|d.temps| == 1 && Top(d) == NextSequence(d.current) - 1 && d.temps[0].sequence == Top(d) + 1))
  }

  predicate Bound(state: State, canonical: Option<Record>) {
    match state
    case Vacant => canonical.None?
    case Building => canonical.None?
    case Publishing => canonical.None?
    case Discarding => true
    case _ => canonical.Some?
  }

  /** Canonical-binding lifetime, at every event of every reachable journal. */
  lemma {:induction false} BindingLifetime(d: Disk, build: BuildId, i: nat)
    requires JournalInv(d, build) && 1 <= i <= Top(d)
    ensures i in d.events
    ensures Bound(d.events[i].to, d.events[i].bindings.canonical)
  {
    assert GoodEvent(d.events, build, i);
    if i > 1 {
      BindingLifetime(d, build, i - 1);
      assert Before(d.events, i) == Some(d.events[i - 1]);
    }
  }

  /** Once a canonical digest is bound it never changes, and the journal never returns to a
      pre-publication state. */
  lemma {:induction false} NoReturnAfterPublication(d: Disk, build: BuildId, i: nat, j: nat)
    requires JournalInv(d, build) && 1 <= i <= j <= Top(d)
    requires i in d.events && d.events[i].bindings.canonical.Some?
    ensures j in d.events
    ensures d.events[j].bindings.canonical == d.events[i].bindings.canonical
    ensures !d.events[j].to.Vacant? && !d.events[j].to.Building? && !d.events[j].to.Publishing?
  {
    BindingLifetime(d, build, j);
    assert GoodEvent(d.events, build, j);
    if i < j {
      NoReturnAfterPublication(d, build, i, j - 1);
      assert Before(d.events, j) == Some(d.events[j - 1]);
    }
  }

  /** A reachable journal passes the event-chain verifier with the registry recovery promotes. */
  lemma JournalAccepted(d: Disk, build: BuildId)
    requires JournalInv(d, build) && Logical(d).Some?
    ensures ChainAccepted(d.events, Logical(d).value)
    ensures Logical(d).value.build == build
    ensures Bound(Logical(d).value.state, Logical(d).value.bindings.canonical)
  {
    var n := Top(d);
    assert n in d.events;
    BindingLifetime(d, build, n);
    assert Logical(d) == Some(RegistryOf(d.events[n]));
    forall i | i in d.events
      ensures LinkAt(d.events, build, i)
    {
      assert GoodEvent(d.events, build, i);
    }
    assert GoodEvent(d.events, build, n);
  }

  /** The journal reached by making `states` one after the other, binding `c` at Present. */
  function Chain(build: BuildId, attempt: AttemptId, c: Record, states: seq<State>): (d: Disk)
    decreases |states|
  {
    if states == [] then EMPTY_DISK
    else
      var d := Chain(build, attempt, c, states[..|states| - 1]);
      var to := states[|states| - 1];
      var event := NextEvent(d.current, build, attempt, to, NOTHING.(canonical := if to.Present? then Some(c) else None));
      d.(events := d.events[event.sequence := event], current := Some(RegistryOf(event)))
  }

  predicate LegalPath(states: seq<State>) {
    forall i | 0 <= i < |states| :: LegalAt(states, i)
  }

  predicate LegalAt(states: seq<State>, i: nat)
    requires i < |states|
  {
    Legal(if i == 0 then None else Some(states[i - 1]), states[i])
  }

  /** A chain the verifier accepts stays one when its next legal event is appended. */
  lemma AcceptedAppend(events: map<nat, Event>, previous: Option<Registry>, build: BuildId, event: Event)
    requires previous.None? ==> events == map[]
    requires previous.Some? ==> ChainAccepted(events, previous.value) && previous.value.build == build
    requires event.build == build && event.sequence == NextSequence(previous)
    requires event.previous == LastEvent(previous) && event.from == StateOf(previous) && Legal(event.from, event.to)
    ensures ChainAccepted(events[event.sequence := event], RegistryOf(event))
  {
    var n := event.sequence;
    var longer := events[n := event];
    assert longer.Keys == Range(n);
    forall i | i in longer
      ensures LinkAt(longer, build, i)
    {
      if i < n {
        assert LinkAt(events, build, i) && Before(longer, i) == Before(events, i);
      } else if n > 1 {
        assert Before(longer, n) == Some(events[n - 1]);
      }
    }
  }

  /** Any path of the legal table is a chain the verifier accepts, whatever it carries. */
  lemma {:induction false} LegalPathAccepted(build: BuildId, attempt: AttemptId, c: Record, states: seq<State>)
    requires states != [] && LegalPath(states)
    ensures var d := Chain(build, attempt, c, states);
      && d.current.Some? && ChainAccepted(d.events, d.current.value) && d.current.value.build == build
      && d.current.value.state == states[|states| - 1]
      && d.current.value.bindings.canonical == (if Present in states then Some(c) else None)
  {
    hide ChainAccepted, Legal;
    var shorter := states[..|states| - 1];
    var to := states[|states| - 1];
    assert states == shorter + [to];
    assert LegalAt(states, |states| - 1);
    var d := Chain(build, attempt, c, shorter);
    if shorter != [] {
      forall i | 0 <= i < |shorter|
        ensures LegalAt(shorter, i)
      {
        assert LegalAt(states, i);
      }
      LegalPathAccepted(build, attempt, c, shorter);
    }
    AcceptedAppend(d.events, d.current, build, NextEvent(d.current, build, attempt, to, NOTHING.(canonical := if to.Present? then Some(c) else None)));
  }

  /** The legal-transition table alone admits what the journal never does: a chain the verifier
      accepts that comes back to Vacant after a publication, its canonical digest still bound. */
  lemma LegalAloneIsWeaker(build: BuildId, attempt: AttemptId, c: Record)
    ensures exists events: map<nat, Event>, registry: Registry ::
      && ChainAccepted(events, registry)
      && registry.state.Vacant? && registry.bindings.canonical == Some(c)
  {
    var states := [Building, Publishing, Present, Cleaning, Cleaned, Rehydrating, Discarding, Vacant];
    assert states[2] == Present;
    LegalPathAccepted(build, attempt, c, states);
    var d := Chain(build, attempt, c, states);
    assert ChainAccepted(d.events, d.current.value);
  }
}
