/** Build attempts of one recipe: mutable root, immutable record and recipe-index entry.

    A record digest is the recorded content itself. An attempt ID is its recipe and nonce, so it
    identifies both. */
module AttemptModel {
  import opened Outcomes

  type RecipeId = nat
  type BuildId = nat
  datatype AttemptId = AttemptId(recipe: RecipeId, nonce: nat)

  datatype AttemptOutcome = Success | Failed | Interrupted | CacheHit
  datatype State = Allocated | Active | Finalizing | RecordPublished | TornDown

  datatype Event = Event(attempt: AttemptId, sequence: nat, from: Option<State>, to: State)

  datatype Registry = Registry(
    attempt: AttemptId,
    state: State,
    outcome: Option<AttemptOutcome>,
    build: Option<BuildId>,
    record: Option<Content>,
    owner: nat,
    device: nat,
    inode: nat)

  /** The recorded part of an attempt root: everything but its private directory. */
  datatype Content = Content(registry: Registry, events: seq<Event>, files: map<string, nat>)

  datatype Root = Root(
    device: nat, inode: nat, current: Option<Registry>, events: seq<Event>, files: map<string, nat>, private_: bool)

  datatype Entry = Entry(state: State, outcome: Option<AttemptOutcome>, build: Option<BuildId>, record: Option<Content>)

  /** One attempt as the three stores see it. */
  datatype Slot = Slot(root: Option<Root>, record: Option<Content>, entry: Option<Entry>)

  const ABSENT := Slot(None, None, None)

  predicate Legal(from: Option<State>, to: State) {
    match from
    case None => to == Allocated
    case Some(Allocated) => to == Active || to == Finalizing
    case Some(Active) => to == Finalizing
    case Some(Finalizing) => to == RecordPublished
    case _ => false
  }

  predicate HasOutcome(state: State) {
    state.Finalizing? || state.RecordPublished? || state.TornDown?
  }

  predicate NeedsBuild(outcome: AttemptOutcome) {
    outcome.Success? || outcome.CacheHit?
  }

  predicate IsRecorded(state: State) {
    state.RecordPublished? || state.TornDown?
  }

  predicate Cardinality(state: State, outcome: Option<AttemptOutcome>, record: Option<Content>) {
    HasOutcome(state) == outcome.Some? && IsRecorded(state) == record.Some?
  }

  function LastState(events: seq<Event>): Option<State> {
    if events == [] then None else Some(events[|events| - 1].to)
  }

  predicate LinkedAt(events: seq<Event>, attempt: AttemptId, i: nat)
    requires i < |events|
  {
    && events[i].attempt == attempt && events[i].sequence == i + 1
    && events[i].from == LastState(events[..i])
    && Legal(events[i].from, events[i].to)
  }

  predicate Linked(events: seq<Event>, attempt: AttemptId) {
    forall i | 0 <= i < |events| :: LinkedAt(events, attempt, i)
  }

  /** What the event-chain validator accepts. */
  predicate ChainReaches(events: seq<Event>, registry: Registry) {
    events != [] && Linked(events, registry.attempt) && LastState(events) == Some(registry.state)
  }

  /** The event chain is at the registry's state, or one legal event behind it. */
  predicate LagsAtMostOne(events: seq<Event>, registry: Registry) {
    && Linked(events, registry.attempt)
    && (LastState(events) == Some(registry.state) || Legal(LastState(events), registry.state))
  }

  function ContentOf(root: Root): Content
    requires root.current.Some?
  {
    Content(root.current.value, root.events, root.files)
  }

  /** A published record: the finalizing registry, with its outcome and its whole chain. */
  predicate Sealed(content: Content, id: AttemptId) {
    && content.registry.attempt == id && content.registry.state.Finalizing?
    && content.registry.outcome.Some? && content.registry.record.None?
    && ChainReaches(content.events, content.registry)
  }

  function EntryOf(state: State, content: Content): Entry {
    Entry(state, content.registry.outcome, content.registry.build, Some(content))
  }

  /** An entry that has not seen finalization yet: it may be missing or lag behind the root. */
  predicate LiveEntry(entry: Option<Entry>) {
    entry.Some? ==> entry.value == Entry(Allocated, None, None, None) || entry.value == Entry(Active, None, None, None)
  }

  predicate RootOk(root: Root, registry: Registry, id: AttemptId) {
    && registry.attempt == id && registry.device == root.device && registry.inode == root.inode
    && Cardinality(registry.state, registry.outcome, registry.record)
    && (registry.outcome.Some? && NeedsBuild(registry.outcome.value) ==> registry.build.Some?)
    && LagsAtMostOne(root.events, registry)
  }

  /** What every crashed and resumed run keeps true of one attempt. */
  predicate SlotOk(slot: Slot, id: AttemptId) {
    match slot.root
    case None =>
      if slot.record.None? then slot.entry.None?
      else
        && Sealed(slot.record.value, id)
        && (slot.entry == Some(EntryOf(RecordPublished, slot.record.value)) || slot.entry == Some(EntryOf(TornDown, slot.record.value)))
    case Some(root) =>
      match root.current
      case None =>
        root.events == [] && root.files == map[] && !root.private_ && slot.record.None? && slot.entry.None?
      case Some(registry) =>
        && RootOk(root, registry, id)
        && (match registry.state
            case Allocated => registry.build.None? && slot.record.None? && LiveEntry(slot.entry)
            case Active => registry.build.None? && slot.record.None? && LiveEntry(slot.entry)
            case Finalizing =>
              && (slot.record.Some? ==>
                    !root.private_ && slot.record.value == ContentOf(root) && Sealed(slot.record.value, id))
              && (LiveEntry(slot.entry) || slot.entry == Some(Entry(Finalizing, registry.outcome, registry.build, None)))
            case RecordPublished =>
              && slot.record == registry.record && Sealed(slot.record.value, id) && !root.private_
              && slot.record.value.registry == registry.(state := Finalizing, record := None)
              && (LiveEntry(slot.entry) || slot.entry == Some(Entry(Finalizing, registry.outcome, registry.build, None))
                  || slot.entry == Some(EntryOf(RecordPublished, slot.record.value)))
            case TornDown => false)
  }

  /** One immutable record and a torn-down entry holding its digest. */
  predicate Settled(slot: Slot, id: AttemptId) {
    && slot.root.None? && slot.record.Some? && Sealed(slot.record.value, id)
    && slot.entry == Some(EntryOf(TornDown, slot.record.value))
  }

  /** The durable outcome, once the attempt is finalizing. */
  function DurableOutcome(slot: Slot): Option<(AttemptOutcome, Option<BuildId>)> {
    if slot.record.Some? && slot.record.value.registry.outcome.Some? then
      Some((slot.record.value.registry.outcome.value, slot.record.value.registry.build))
    else if slot.root.Some? && slot.root.value.current.Some? && slot.root.value.current.value.outcome.Some? then
      Some((slot.root.value.current.value.outcome.value, slot.root.value.current.value.build))
    else None
  }

  /** The attempt's evidence: in its record once there is one, else in its root. */
  function FilesOf(slot: Slot): map<string, nat> {
    if slot.record.Some? then slot.record.value.files
    else if HasCurrent(slot) then slot.root.value.files
    else map[]
  }

  predicate HasCurrent(slot: Slot) {
    slot.root.Some? && slot.root.value.current.Some?
  }

  /** What no step undoes: evidence, a durable outcome, an immutable record, its digest in the index; and a
      root disappears only when its recorded content is already in the index; and the process and the
      inode an attempt was allocated with. */
  predicate Advances(a: Slot, b: Slot) {
    && (DurableOutcome(a).Some? ==> DurableOutcome(b) == DurableOutcome(a))
    && (a.record.Some? ==> b.record == a.record)
    && (a.entry.Some? ==> b.entry.Some? && (a.entry.value.record.Some? ==> b.entry.value.record == a.entry.value.record))
    && (a.entry.Some? && a.entry.value.state.TornDown? ==> b.entry == a.entry)
    && (HasCurrent(a) && b.root.None? ==> b.record.Some? && b.entry.Some? && b.entry.value.record == b.record)
    && (HasCurrent(a) && b.root.Some? ==> HasCurrent(b))
    && (a.record.Some? && a.root.None? ==> b.root.None?)
    && (HasCurrent(a) && HasCurrent(b) ==> SameOwner(a.root.value.current.value, b.root.value.current.value))
    && (HasCurrent(a) && b.record.Some? ==> SameOwner(a.root.value.current.value, b.record.value.registry))
    && EvidenceKept(a, b)
  }

  predicate EvidenceKept(a: Slot, b: Slot) {
    forall f | f in FilesOf(a) :: f in FilesOf(b) && FilesOf(b)[f] == FilesOf(a)[f]
  }

  predicate SameOwner(a: Registry, b: Registry) {
    b.owner == a.owner && b.device == a.device && b.inode == a.inode
  }

  lemma AdvancesTransitive(a: Slot, b: Slot, c: Slot)
    requires Advances(a, b) && Advances(b, c)
    ensures Advances(a, c)
  {
  }

  lemma {:induction false} LinkedAppend(events: seq<Event>, attempt: AttemptId, event: Event)
    requires Linked(events, attempt)
    requires event == Event(attempt, |events| + 1, LastState(events), event.to) && Legal(LastState(events), event.to)
    ensures Linked(events + [event], attempt) && LastState(events + [event]) == Some(event.to)
  {
    var longer := events + [event];
    forall i | 0 <= i < |longer|
      ensures LinkedAt(longer, attempt, i)
    {
      if i < |events| {
        assert LinkedAt(events, attempt, i) && longer[..i] == events[..i];
      } else {
        assert longer[..i] == events;
      }
    }
  }
}
