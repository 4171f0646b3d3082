/** The pure content of the materialization cache: what its reads return, which disk images its
    writes can leave behind, and why every one of them is recoverable. */
module BuildSteps {
  import opened Outcomes
  import opened BuildJournal
  import opened BuildInvariant

  datatype Classification = Miss | Hit | Rehydrate

  datatype CacheLookup = CacheLookup(
    classification: Classification,
    canonical: Option<Record>,
    owner: Option<Owner>,
    needsAttestation: bool)

  datatype Inspection = Inspection(registry: Registry, canonical: Record, owner: Option<Owner>, attested: bool)

  /** The record and index as stored; a file bound to another build raises. */
  function LoadCanonical(d: Disk, build: BuildId): (r: Outcome<(Option<Record>, Option<Index>)>) {
    if d.record.Some? && d.record.value.build != build then Raised
    else if d.index.Some? && d.index.value.build != build then Raised
    else Done((d.record, d.index))
  }

  /** The record when it and its index agree, nothing when both are absent. */
  function LoadCanonicalPair(d: Disk, build: BuildId): (r: Outcome<Option<Record>>)
    ensures r.Done? && r.value.Some? ==> r.value.value.build == build && PairIntact(d, r.value.value)
    ensures forall c: Record | c.build == build && PairIntact(d, c) :: r == Done(Some(c))
    ensures r == Done(None) <==> d.record.None? && d.index.None?
  {
    var (record, index) :- LoadCanonical(d, build);
    if record.None? && index.None? then Done(None)
    else if record.None? || index.None? then Raised
    else if index.value.canonical != record.value || index.value.producer != record.value.producer then Raised
    else Done(record)
  }

  /** The staged record that may complete an interrupted publication, if it is usable. */
  function LoadStaged(d: Disk, registry: Registry): (r: Option<Record>)
    ensures r.Some? ==>
      r == registry.bindings.staging && r.value.build == registry.build && r.value.producer == registry.attempt
  {
    if registry.bindings.staging.None? || registry.attempt !in d.staging then None
    else
      var payload := d.staging[registry.attempt];
      if payload != registry.bindings.staging then None
      else if payload.value.build != registry.build || payload.value.producer != registry.attempt then None
      else payload
  }

  /** Materialization evidence authenticated against the registry. */
  function LoadEvidence(d: Disk, registry: Registry): (r: Outcome<Evidence>) {
    if registry.bindings.materialization.None? || registry.bindings.canonical.None? then Raised
    else if d.evidence != registry.bindings.materialization then Raised
    else
      var e := d.evidence.value;
      if e.build != registry.build || e.attempt != registry.attempt || Some(e.canonical) != registry.bindings.canonical
      then Raised else Done(e)
  }

  predicate RootVerified(d: Disk, registry: Registry, canonical: Record) {
    var evidence := LoadEvidence(d, registry);
    && evidence.Done?
    && evidence.value.artifacts.setId == canonical.artifacts.setId
    && d.root.Some? && d.root.value.tree == Some(evidence.value.artifacts.Rehashed())
  }

  /** Making this transition treats the canonical binding as the journal promises. */
  predicate NextBinds(previous: Option<Registry>, build: BuildId, attempt: AttemptId, state: State, asked: Bindings) {
    BindingStep(LastEvent(previous), NextEvent(previous, build, attempt, state, asked))
  }

  /** Loaded, with nothing left to reconcile. */
  predicate Ready(d: Disk, registry: Registry) {
    && d.temps == [] && d.current == Some(registry) && d.events.Keys == Range(registry.sequence)
  }

  /** The exact disk images a transition to `event` can leave behind. */
  predicate TransitionImage(before: Disk, after: Disk, build: BuildId, event: Event, r: Outcome<Registry>) {
    var loads := TempTolerated(before) && OrphanTolerated(before, build);
    var loaded := Reconciled(before);
    var appended := loaded.(events := before.events[event.sequence := event]);
    match r
    case Done(registry) =>
      loads && Legal(event.from, event.to) && registry == RegistryOf(event) && after == appended.(current := Some(registry))
    case Raised =>
      if !loads then after == before || (TempTolerated(before) && after == before.(temps := []))
      else after == loaded && (!Legal(event.from, event.to) || event.sequence in before.events)
    case Crashed =>
      || after == before
      || (TempTolerated(before) && after == before.(temps := []))
      || (loads && Legal(event.from, event.to)
          && after in {loaded, loaded.(temps := [Temp(event.sequence, None)]),
                       loaded.(temps := [Temp(event.sequence, Some(event))]), appended})
  }

  /** The journal after a completed, crashed or refused transition: recovery will find the
      registry of before, or the next one. */
  predicate Moved(before: Disk, after: Disk, build: BuildId, event: Event, r: Outcome<Registry>) {
    && JournalInv(after, build)
    && (Logical(after) == Logical(before) || (Legal(event.from, event.to) && Logical(after) == Some(RegistryOf(event))))
    && (r.Raised? ==> Logical(after) == Logical(before) && !Legal(event.from, event.to))
    && (r.Done? ==> Logical(after) == Some(r.value))
  }

  /** What inspection, leasing and cleanup verify. */
  predicate Inspectable(d: Disk, registry: Registry, c: Record) {
    && registry.bindings.canonical == Some(c) && PairIntact(d, c) && ProducerVerified(d, c)
    && (registry.state.Present? || registry.state.Cleaned?)
    && (registry.state.Present? ==> OwnerMatches(d.root, registry) && RootVerified(d, registry, c))
    && (registry.state.Cleaned? ==> d.attestation.Some?)
    && (d.attestation.Some? ==> Authentic(d, c, d.attestation.value))
  }

  /** On a reachable disk a build is inspectable as soon as it is Present or Cleaned and its
      producer's record is final. */
  predicate InspectableNow(d: Disk) {
    && Logical(d).Some? && (Logical(d).value.state.Present? || Logical(d).value.state.Cleaned?)
    && Logical(d).value.bindings.canonical.Some? && ProducerVerified(d, Logical(d).value.bindings.canonical.value)
  }

  /** Nothing stands in the way of this attempt attesting this canonical build. */
  predicate MayAttest(d: Disk, build: BuildId, attestor: AttemptId, c: Record, class_: ExecutionClass) {
    && c.build == build && PairIntact(d, c) && ProducerVerified(d, c)
    && (d.attestation.Some? ==>
          && d.attestation.value.attestor == attestor && d.attestation.value.class_ == class_
          && Authentic(d, c, d.attestation.value))
    && attestor in d.attempts && d.attempts[attestor].outcome.Success? && d.attempts[attestor].build == Some(build)
    && d.attempts[attestor].files.result == Some(BuildResult(build, c, class_, c.artifacts.setId))
  }

  /** The journal still speaks for the attempt that made the materialization. */
  predicate AttemptKept(before: Disk, after: Disk) {
    Logical(before).Some? ==> Logical(after).Some? && Logical(after).value.attempt == Logical(before).value.attempt
  }

  predicate CanonicalKept(before: Disk, after: Disk) {
    Logical(before).Some? && Logical(before).value.bindings.canonical.Some? ==>
      Logical(after).Some? && Logical(after).value.bindings.canonical == Logical(before).value.bindings.canonical
  }

  predicate MayBegin(registry: Option<Registry>, rehydrate: bool) {
    if rehydrate then registry.Some? && registry.value.state.Cleaned?
    else registry.None? || registry.value.state.Vacant?
  }

  predicate MayBind(registry: Option<Registry>, build: BuildId, attempt: AttemptId, owner: Owner) {
    && registry.Some? && (registry.value.state.Building? || registry.value.state.Rehydrating?)
    && owner.attempt == attempt && owner.build == build
  }

  /** `now` is `was` with this attempt's root bound. */
  predicate BindsTo(was: Option<Registry>, now: Option<Registry>, build: BuildId, attempt: AttemptId, owner: Owner) {
    && was.Some? && now.Some?
    && now.value.attempt == attempt && now.value.build == build && now.value.state == was.value.state
    && now.value.bindings == was.value.bindings.(device := Some(owner.device), inode := Some(owner.inode))
  }

  /** The root this attempt built is bound to the journal in `state`. */
  predicate RootBound(d: Disk, build: BuildId, attempt: AttemptId, state: State) {
    && Logical(d).Some? && Logical(d).value.state == state && Logical(d).value.attempt == attempt
    && OwnerMatches(d.root, Logical(d).value)
    && attempt in d.active
  }

  /** What the driver establishes before a fresh publication. */
  predicate BuiltReady(d: Disk, build: BuildId, attempt: AttemptId, record: Record) {
    && RootBound(d, build, attempt, Building)
    && record.build == build && record.producer == attempt && Produced(d, record)
    && d.root.value.tree == Some(record.artifacts.Rehashed())
  }

  predicate StagedReady(d: Disk, build: BuildId, attempt: AttemptId, record: Record) {
    BuiltReady(d, build, attempt, record) && attempt in d.staging && d.staging[attempt] == Some(record)
  }

  predicate RehydrateReady(d: Disk, build: BuildId, attempt: AttemptId) {
    RootBound(d, build, attempt, Rehydrating)
  }

  /** The approved rehydration equivalence, and the rebuilt root against its own capture. */
  predicate Equivalent(d: Disk, existing: Record, record: Record) {
    && existing.identity == record.identity && existing.artifacts.setId == record.artifacts.setId
    && d.root.Some? && d.root.value.tree == Some(record.artifacts.Rehashed())
    && record.build == existing.build
  }

  predicate AttestationKept(before: Disk, after: Disk) {
    && after.attestation == before.attestation && after.active == before.active && after.attempts == before.attempts
    && Keeps(before, after)
  }

  /** A publication, completed or stopped: nothing earlier is lost, and a completed one is
      Present on exactly this canonical record. */
  predicate PublishedOk(before: Disk, after: Disk, build: BuildId, attempt: AttemptId, canonical: Record, r: Outcome<Record>) {
    && Inv(after, build) && AttestationKept(before, after)
    && (r.Done? ==>
          && r.value == canonical && Logical(after).Some? && Logical(after).value.state.Present?
          && Logical(after).value.attempt == attempt
          && Logical(after).value.bindings.canonical == Some(canonical))
  }

  /** The evidence of the materialization is this capture. */
  predicate Captured(d: Disk, artifacts: Artifacts) {
    d.evidence.Some? && d.evidence.value.artifacts == artifacts
  }

  /** The files a load or a recovery never touches, and the ones it only adds to. */
  predicate RecoveryFrame(before: Disk, after: Disk) {
    && after.active == before.active && after.attempts == before.attempts && after.staging == before.staging
    && after.attestation == before.attestation
    && Keeps(before, after)
  }

  /** An interrupted materialization whose root recovery refuses to touch. */
  predicate Unrecoverable(d: Disk) {
    Logical(d).Some? && Recoverable(Logical(d).value.state) && Blocked(d, Logical(d).value)
  }

  /** What the caller's invocation must match for the canonical build to be reused. */
  predicate Admissible(d: Disk, registry: Registry, identity: Identity) {
    && registry.bindings.canonical.Some?
    && registry.bindings.canonical.value.identity == identity
    && ProducerVerified(d, registry.bindings.canonical.value)
  }

  /** A hit or rehydration hands out only an authenticated canonical build, and a hit counts as
      reusable exactly when an authenticated attestation exists. */
  predicate Reusable(d: Disk, build: BuildId, registry: Registry, identity: Identity, l: CacheLookup) {
    && Admissible(d, registry, identity)
    && var c := registry.bindings.canonical.value;
    && l.canonical == Some(c) && PairIntact(d, c)
    && (if registry.state.Cleaned? then l == CacheLookup(Rehydrate, Some(c), None, false) && d.root.None?
        else
          && registry.state.Present? && l.classification.Hit? && OwnerMatches(d.root, registry)
          && l.owner == d.root.value.marker && RootVerified(d, registry, c)
          && (l.needsAttestation <==> d.attestation.None?)
          && (d.attestation.Some? ==> Authentic(d, c, d.attestation.value)))
  }

  /** Lookup on a reachable disk. It fails exactly when the root blocks recovery, or when the
      invocation does not match the canonical build. */
  predicate LookupOk(before: Disk, after: Disk, build: BuildId, identity: Identity, r: Outcome<CacheLookup>) {
    && Inv(after, build)
    && (r.Raised? ==>
          || (Unrecoverable(before) && Unrecoverable(after))
          || (&& !Unrecoverable(before) && RecoveredTo(before, after) && Logical(after).Some? && !Logical(after).value.state.Vacant?
              && !Admissible(after, Logical(after).value, identity)))
    && (r.Done? ==> !Unrecoverable(before) && RecoveredTo(before, after) && LookupMeans(after, build, identity, r.value))
  }

  /** A miss means nothing was ever published; anything else hands out the bound canonical. */
  predicate LookupMeans(d: Disk, build: BuildId, identity: Identity, l: CacheLookup) {
    match Logical(d)
    case None => l == CacheLookup(Miss, None, None, false)
    case Some(registry) =>
      if registry.state.Vacant? then l == CacheLookup(Miss, None, None, false)
      else (registry.state.Cleaned? || registry.state.Present?) && Reusable(d, build, registry, identity, l)
  }


  function PresentBindings(registry: Registry, record: Record, evidence: Evidence): Bindings {
    Bindings(Some(record), None, Some(evidence), registry.bindings.device, registry.bindings.inode)
  }

  /** The disk images completing a publication can leave behind. */
  predicate CompletionImage(before: Disk, after: Disk, build: BuildId, registry: Registry, record: Record, r: Outcome<Registry>) {
    var evidence := Evidence(build, registry.attempt, record, record.artifacts);
    var published := before.(record := Some(record), index := Some(IndexOf(record)), evidence := Some(evidence));
    var verified := OwnerMatches(before.root, registry) && before.root.value.tree == Some(record.artifacts.Rehashed());
    if r.Raised? then
      after == before && (!verified || (before.index.Some? && before.index != Some(IndexOf(record))))
    else
      && verified
      && ((r.Crashed? && PartlyPublished(before, after, record))
          || TransitionImage(published, after, build, NextEvent(Some(registry), build, registry.attempt, Present, PresentBindings(registry, record, evidence)), r))
  }

  predicate PartlyPublished(before: Disk, after: Disk, record: Record) {
    && after == before.(record := after.record, index := after.index)
    && (after.record == before.record || (before.record.None? && after.record == Some(record)))
    && (after.index == before.index || (before.index.None? && PairIntact(after, record)))
  }

  /** No recovery failure costs anything: a refusal changes nothing, a root is touched only when
      its marker is the journal-bound owner, and no immutable file is ever replaced. */
  predicate FailClosed(before: Disk, after: Disk, registry: Registry, r: Outcome<Registry>) {
    && (r.Raised? ==> after == before)
    && (after.root != before.root ==> OwnerMatches(before.root, registry))
    && after.active == before.active && after.attempts == before.attempts && after.staging == before.staging
    && after.attestation == before.attestation
    && Keeps(before, after)
    && (r.Done? ==> r.value.state in {Vacant, Cleaned, Present} && Ready(after, r.value))
  }

  /** Recovery from a reachable disk: refused exactly when the root is blocked, and otherwise,
      when it is not stopped, it ends in the one state its journal calls for. */
  predicate RecoveryOk(before: Disk, after: Disk, build: BuildId, registry: Registry, r: Outcome<Registry>) {
    && Inv(after, build)
    && (r.Raised? <==> Blocked(before, registry))
    && (r.Done? ==> Logical(after) == Some(r.value) && RecoversTo(after, registry, r.value))
  }

  /** An interrupted registry recovers to the one its state calls for. */
  predicate RecoversTo(after: Disk, registry: Registry, recovered: Registry) {
    && recovered.state == RecoveryTarget(registry) && recovered.bindings.canonical == RecoveredCanonical(registry)
    && recovered.attempt == registry.attempt
    && (registry.state.Publishing? ==>
          recovered.bindings.canonical.Some? && after.evidence.Some?
          && after.evidence.value.artifacts == recovered.bindings.canonical.value.artifacts)
  }

  /** What loading and recovering make of a reachable disk. */
  predicate RecoveredTo(before: Disk, after: Disk) {
    match Logical(before)
    case None => Logical(after) == None
    case Some(registry) =>
      Logical(after).Some?
      && if Recoverable(registry.state) then RecoversTo(after, registry, Logical(after).value)
         else Logical(after).value == registry && after.evidence == before.evidence
  }

  /** A writer temp of the next event, torn or whole, is a leftover recovery tolerates. */
  lemma TempTolerable(before: Disk, build: BuildId, temp: Temp)
    requires JournalInv(before, build) && temp.sequence == NextSequence(Logical(before))
    ensures JournalInv(Reconciled(before), build) && Logical(Reconciled(before)) == Logical(before)
    ensures JournalInv(Reconciled(before).(temps := [temp]), build)
    ensures Logical(Reconciled(before).(temps := [temp])) == Logical(before)
    ensures temp.sequence == Top(before) + 1 && temp.sequence !in before.events
  {
    if Top(before) > 0 {
      assert GoodEvent(before.events, build, Top(before));
    }
  }

  /** Appending the next event after a reconciled load keeps the journal. */
  lemma Appended(before: Disk, build: BuildId, event: Event, after: Disk)
    requires JournalInv(before, build)
    requires event == NextEvent(Logical(before), build, event.attempt, event.to, event.bindings)
    requires Legal(event.from, event.to) && BindingStep(LastEvent(Logical(before)), event)
    requires after == Reconciled(before).(events := before.events[event.sequence := event])
    ensures JournalInv(after, build) && JournalInv(after.(current := Some(RegistryOf(event))), build)
    ensures Logical(after) == Some(RegistryOf(event)) == Logical(after.(current := Some(RegistryOf(event))))
  {
    var n := Top(before);
    if n > 0 {
      assert GoodEvent(before.events, build, n);
    }
    assert event.sequence == n + 1;
    assert after.events.Keys == Range(n + 1);
    forall i | 1 <= i <= n + 1
      ensures GoodEvent(after.events, build, i)
    {
      if i <= n {
        assert GoodEvent(before.events, build, i);
        assert Before(after.events, i) == Before(before.events, i);
      } else if n > 0 {
        assert Before(after.events, i) == Some(before.events[n]);
      }
    }
  }

  /** Crash atomicity of the journal: whatever disk step a transition stops at, recovery finds
      the registry of before or the next one, and the journal is again one it accepts. */
  lemma TransitionCrashAtomic(
    before: Disk, after: Disk, build: BuildId, attempt: AttemptId, state: State, asked: Bindings, r: Outcome<Registry>)
    requires JournalInv(before, build) && NextBinds(Logical(before), build, attempt, state, asked)
    requires TransitionImage(before, after, build, NextEvent(Logical(before), build, attempt, state, asked), r)
    ensures Moved(before, after, build, NextEvent(Logical(before), build, attempt, state, asked), r)
  {
    var event := NextEvent(Logical(before), build, attempt, state, asked);
    LoadTolerates(before, build);
    TempTolerable(before, build, Temp(event.sequence, None));
    TempTolerable(before, build, Temp(event.sequence, Some(event)));
    if Legal(event.from, state) {
      Appended(before, build, event, Reconciled(before).(events := before.events[event.sequence := event]));
    }
  }

  lemma LoadTolerates(before: Disk, build: BuildId)
    requires JournalInv(before, build)
    ensures TempTolerated(before) && OrphanTolerated(before, build)
    ensures JournalInv(before.(temps := []), build) && Logical(before.(temps := [])) == Logical(before)
  {
    if NextSequence(before.current) in before.events {
      assert GoodEvent(before.events, build, Top(before));
    }
  }

  lemma JournalFrame(a: Disk, b: Disk, build: BuildId)
    requires JournalInv(a, build) && a.events == b.events && a.temps == b.temps && a.current == b.current
    ensures JournalInv(b, build) && Logical(a) == Logical(b)
  {
  }

  lemma PartialPublicationSettled(before: Disk, after: Disk, registry: Registry, record: Record)
    requires registry.state.Publishing? && Settled(before, Some(registry))
    requires registry.bindings.staging == Some(record) && PartlyPublished(before, after, record)
    ensures Settled(after, Some(registry))
  {
  }

  lemma CompletedPublicationSettled(before: Disk, published: Disk, after: Disk, registry: Registry, record: Record)
    requires registry.state.Publishing? && Settled(before, Some(registry)) && AttemptsOk(before)
    requires registry.bindings.staging == Some(record)
    requires var evidence := Evidence(registry.build, registry.attempt, record, record.artifacts);
      published == before.(record := Some(record), index := Some(IndexOf(record)), evidence := Some(evidence))
    requires SameFiles(published, after)
    ensures var event := NextEvent(Some(registry), registry.build, registry.attempt, Present, PresentBindings(registry, record, published.evidence.value));
      Settled(after, Some(RegistryOf(event))) && Settled(after, Some(registry)) && AttemptsOk(after)
  {
  }

  /** Completing a publication recovers: refused never (the root of a reachable Publishing
      journal is owned and intact), and otherwise on the way to Present. */
  lemma CompletionRecovers(before: Disk, after: Disk, build: BuildId, registry: Registry, record: Record, r: Outcome<Registry>)
    requires Inv(before, build) && Ready(before, registry) && registry.state.Publishing?
    requires registry.bindings.staging == Some(record)
    requires CompletionImage(before, after, build, registry, record, r)
    ensures RecoveryOk(before, after, build, registry, r)
  {
    ReadyIsLogical(before, registry);
    var evidence := Evidence(build, registry.attempt, record, record.artifacts);
    var published := before.(record := Some(record), index := Some(IndexOf(record)), evidence := Some(evidence));
    var bindings := PresentBindings(registry, record, evidence);
    if r.Raised? {
      assert false;
    } else if r.Crashed? && PartlyPublished(before, after, record) {
      PartialPublication(before, after, build, registry, record);
    } else {
      CompletedPublication(before, published, after, build, registry, record, r);
    }
  }

  lemma PartialPublication(before: Disk, after: Disk, build: BuildId, registry: Registry, record: Record)
    requires Inv(before, build) && Logical(before) == Some(registry) && registry.state.Publishing?
    requires registry.bindings.staging == Some(record) && PartlyPublished(before, after, record)
    ensures Inv(after, build)
  {
    hide JournalInv, Settled;
    JournalFrame(before, after, build);
    PartialPublicationSettled(before, after, registry, record);
  }

  lemma CompletedPublication(before: Disk, published: Disk, after: Disk, build: BuildId, registry: Registry, record: Record, r: Outcome<Registry>)
    requires Inv(before, build) && Logical(before) == Some(registry) && registry.state.Publishing?
    requires registry.bindings.staging == Some(record)
    requires var evidence := Evidence(build, registry.attempt, record, record.artifacts);
      && published == before.(record := Some(record), index := Some(IndexOf(record)), evidence := Some(evidence))
      && TransitionImage(published, after, build, NextEvent(Some(registry), build, registry.attempt, Present, PresentBindings(registry, record, evidence)), r)
    ensures Inv(after, build) && !r.Raised?
    ensures r.Done? ==> r.value.state.Present? && Logical(after) == Some(r.value)
    ensures r.Done? ==> r.value.bindings.canonical == Some(record) && after.evidence == published.evidence
  {
    var evidence := Evidence(build, registry.attempt, record, record.artifacts);
    var bindings := PresentBindings(registry, record, evidence);
    var event := NextEvent(Some(registry), build, registry.attempt, Present, bindings);
    RegistryBuild(before, build);
    hide JournalInv, Settled, TransitionImage;
    JournalFrame(before, published, build);
    PresentBinds(before, registry, build, record, evidence);
    TransitionCrashAtomic(published, after, build, registry.attempt, Present, bindings, r);
    ImageSameFiles(published, after, build, event, r);
    if r.Done? {
      DoneIsEvent(published, after, build, event, r);
    }
    CompletedPublicationSettled(before, published, after, registry, record);
  }

  lemma RegistryBuild(d: Disk, build: BuildId)
    requires JournalInv(d, build) && Logical(d).Some?
    ensures Logical(d).value.build == build && Logical(d).value.last.to == Logical(d).value.state
    ensures Logical(d).value.last.bindings == Logical(d).value.bindings
  {
    JournalAccepted(d, build);
  }

  lemma PresentBinds(d: Disk, registry: Registry, build: BuildId, record: Record, evidence: Evidence)
    requires Settled(d, Some(registry)) && registry.state.Publishing?
    requires registry.last.bindings == registry.bindings
    ensures NextBinds(Some(registry), build, registry.attempt, Present, PresentBindings(registry, record, evidence))
  {
  }

  lemma DoneIsEvent(before: Disk, after: Disk, build: BuildId, event: Event, r: Outcome<Registry>)
    requires TransitionImage(before, after, build, event, r) && r.Done?
    ensures r.value == RegistryOf(event)
  {
  }

  lemma ImageSameFiles(before: Disk, after: Disk, build: BuildId, event: Event, r: Outcome<Registry>)
    requires TransitionImage(before, after, build, event, r)
    ensures SameFiles(before, after)
  {
  }

  lemma TransitionKeeps(
    before: Disk, after: Disk, build: BuildId, attempt: AttemptId, state: State, asked: Bindings, r: Outcome<Registry>)
    requires TransitionImage(before, after, build, NextEvent(Logical(before), build, attempt, state, asked), r)
    ensures SameFiles(before, after)
    ensures before.current.Some? && Ready(before, before.current.value) ==>
      && (r.Raised? ==> after == before && !Legal(Some(before.current.value.state), state))
      && (r.Done? ==> Ready(after, r.value) && Legal(Some(before.current.value.state), state))
    ensures JournalInv(before, build) && NextBinds(Logical(before), build, attempt, state, asked) ==>
      Moved(before, after, build, NextEvent(Logical(before), build, attempt, state, asked), r)
    ensures
      && Inv(before, build) && NextBinds(Logical(before), build, attempt, state, asked)
      && Settled(before, Some(RegistryOf(NextEvent(Logical(before), build, attempt, state, asked))))
      ==> Inv(after, build)
  {
    ReadyTransition(before, after, build, attempt, state, asked, r);
    ImageSameFiles(before, after, build, NextEvent(Logical(before), build, attempt, state, asked), r);
    hide TransitionImage, JournalInv, Settled, Ready;
    if JournalInv(before, build) && NextBinds(Logical(before), build, attempt, state, asked) {
      TransitionCrashAtomic(before, after, build, attempt, state, asked, r);
      if Inv(before, build) && Settled(before, Some(RegistryOf(NextEvent(Logical(before), build, attempt, state, asked)))) {
        SettledFrame(before, after, Logical(before));
        SettledFrame(before, after, Some(RegistryOf(NextEvent(Logical(before), build, attempt, state, asked))));
      }
    }
  }

  /** Reconciling the journal leaves everything else, and what it means, as it was. */
  lemma LoadKeeps(before: Disk, after: Disk, build: BuildId)
    requires JournalInv(before, build) ==> JournalInv(after, build) && Logical(after) == Logical(before)
    requires after == before || after == before.(temps := []) || after == Reconciled(before)
    ensures Inv(before, build) ==> Inv(after, build)
    ensures SameFiles(before, after)
  {
    hide JournalInv, Settled;
    if Inv(before, build) {
      SettledFrame(before, after, Logical(before));
    }
  }

  lemma SettledFrame(a: Disk, b: Disk, logical: Option<Registry>)
    requires SameFiles(a, b) && Settled(a, logical)
    ensures Settled(b, logical)
  {
  }

  lemma ReadyTransition(
    before: Disk, after: Disk, build: BuildId, attempt: AttemptId, state: State, asked: Bindings, r: Outcome<Registry>)
    requires TransitionImage(before, after, build, NextEvent(Logical(before), build, attempt, state, asked), r)
    ensures before.current.Some? && Ready(before, before.current.value) ==>
      && (r.Raised? ==> after == before && !Legal(Some(before.current.value.state), state))
      && (r.Done? ==> Ready(after, r.value) && Legal(Some(before.current.value.state), state))
  {
    if before.current.Some? && Ready(before, before.current.value) {
      var n := before.current.value.sequence;
      assert n + 1 !in before.events;
      assert TempTolerated(before) && OrphanTolerated(before, build);
      if r.Done? {
        assert after.events.Keys == Range(n + 1);
      }
    }
  }

  lemma ReadyIsLogical(d: Disk, registry: Registry)
    requires Ready(d, registry)
    ensures Logical(d) == Some(registry)
  {
    assert registry.sequence + 1 !in d.events;
  }

  lemma BoundPair(d: Disk, build: BuildId, registry: Registry)
    requires Inv(d, build) && Logical(d) == Some(registry)
    ensures registry.build == build && registry.last.bindings == registry.bindings && registry.last.to == registry.state
    ensures registry.bindings.canonical.Some? ==>
      LoadCanonicalPair(d, build) == Done(registry.bindings.canonical) && PairIntact(d, registry.bindings.canonical.value)
  {
    RegistryBuild(d, build);
    hide JournalInv;
    if registry.bindings.canonical.Some? {
      var c := registry.bindings.canonical.value;
      assert c.build == build && PairIntact(d, c);
    }
  }

  lemma DiscardingNext(d: Disk, build: BuildId, registry: Registry, bindings: Bindings)
    requires Inv(d, build) && Logical(d) == Some(registry)
    requires registry.state.Building? || registry.state.Rehydrating?
    requires bindings.canonical == registry.bindings.canonical
    ensures NextBinds(Some(registry), build, registry.attempt, Discarding, bindings)
    ensures Settled(d, Some(RegistryOf(NextEvent(Some(registry), build, registry.attempt, Discarding, bindings))))
  {
    BoundPair(d, build, registry);
  }

  lemma DiscardedNext(d: Disk, build: BuildId, registry: Registry, destination: State)
    requires Inv(d, build) && Logical(d) == Some(registry) && d.root.None? && registry.state.Discarding?
    requires destination == if registry.bindings.canonical.Some? then Cleaned else Vacant
    ensures var bindings := NOTHING.(canonical := registry.bindings.canonical);
      && NextBinds(Some(registry), build, registry.attempt, destination, bindings)
      && Settled(d, Some(RegistryOf(NextEvent(Some(registry), build, registry.attempt, destination, bindings))))
  {
    BoundPair(d, build, registry);
  }

  /** While the journal builds, rehydrates, discards or cleans, any root contents are acceptable. */
  lemma RootIsFree(before: Disk, after: Disk, build: BuildId, registry: Registry)
    requires Inv(before, build) && Logical(before) == Some(registry)
    requires registry.state in {Building, Rehydrating, Discarding, Cleaning}
    requires after == before.(root := after.root)
    ensures Inv(after, build) && Logical(after) == Logical(before)
  {
    hide JournalInv;
    JournalFrame(before, after, build);
  }

  lemma CleanedNext(d: Disk, build: BuildId, registry: Registry)
    requires Inv(d, build) && Logical(d) == Some(registry) && d.root.None? && registry.state.Cleaning?
    ensures var bindings := NOTHING.(canonical := registry.bindings.canonical);
      && NextBinds(Some(registry), build, registry.attempt, Cleaned, bindings)
      && Settled(d, Some(RegistryOf(NextEvent(Some(registry), build, registry.attempt, Cleaned, bindings))))
  {
    BoundPair(d, build, registry);
  }

  /** A reachable Publishing journal can always be completed from the record or the staged file. */
  lemma PublishingIsStaged(d: Disk, build: BuildId, registry: Registry)
    requires Inv(d, build) && Logical(d) == Some(registry) && registry.state.Publishing?
    ensures LoadCanonical(d, build).Done?
    ensures LoadStaged(d, registry) == registry.bindings.staging && registry.bindings.staging.Some?
    ensures registry.bindings.staging.value.producer == registry.attempt
    ensures if d.record.Some? then d.record == registry.bindings.staging else d.index.None?
  {
    BoundPair(d, build, registry);
  }

  lemma AbsentIsClean(d: Disk, build: BuildId)
    requires Inv(d, build)
    ensures Logical(d).None? || Logical(d).value.state.Vacant? ==>
      LoadCanonical(d, build).Done? && d.record.None? && d.index.None? && d.root.None?
  {
  }

  lemma BegunNext(d: Disk, build: BuildId, attempt: AttemptId, rehydrate: bool)
    requires Inv(d, build) && MayBegin(Logical(d), rehydrate)
    ensures var state := if rehydrate then Rehydrating else Building;
      && NextBinds(Logical(d), build, attempt, state, NOTHING)
      && Settled(d, Some(RegistryOf(NextEvent(Logical(d), build, attempt, state, NOTHING))))
  {
    if Logical(d).Some? {
      BoundPair(d, build, Logical(d).value);
    }
  }

  lemma BoundNext(d: Disk, build: BuildId, registry: Registry, attempt: AttemptId, bindings: Bindings)
    requires Inv(d, build) && Logical(d) == Some(registry)
    requires registry.state.Building? || registry.state.Rehydrating?
    requires bindings.canonical.None?
    ensures NextBinds(Some(registry), build, attempt, registry.state, bindings)
    ensures Settled(d, Some(RegistryOf(NextEvent(Some(registry), build, attempt, registry.state, bindings))))
  {
    BoundPair(d, build, registry);
  }

  lemma StagingIsFree(before: Disk, after: Disk, build: BuildId, attempt: AttemptId, record: Record)
    requires Inv(before, build) && attempt in before.active && after == before.(staging := after.staging)
    requires
      || after.staging == before.staging
      || (attempt !in before.staging
          && (after.staging == before.staging[attempt := None] || after.staging == before.staging[attempt := Some(record)]))
    ensures Inv(after, build)
  {
    hide JournalInv;
    JournalFrame(before, after, build);
    if Logical(before).Some? && Logical(before).value.state.Publishing? {
      assert Logical(before).value.attempt in before.staging;
    }
  }

  lemma PublishingNext(d: Disk, build: BuildId, registry: Registry, attempt: AttemptId, record: Record)
    requires Inv(d, build) && Logical(d) == Some(registry) && StagedReady(d, build, attempt, record)
    ensures var bindings := NOTHING.(staging := Some(record), device := registry.bindings.device, inode := registry.bindings.inode);
      && NextBinds(Some(registry), build, attempt, Publishing, bindings)
      && Settled(d, Some(RegistryOf(NextEvent(Some(registry), build, attempt, Publishing, bindings))))
  {
    BoundPair(d, build, registry);
  }

  lemma SameNext(registry: Registry, build: BuildId, record: Record, evidence: Evidence)
    requires registry.bindings.staging == Some(record)
    ensures
      NextEvent(Some(registry), build, registry.attempt, Present, PresentBindings(registry, record, evidence).(staging := Some(record)))
      == NextEvent(Some(registry), build, registry.attempt, Present, PresentBindings(registry, record, evidence))
  {
  }

  lemma RehydratedNext(before: Disk, d: Disk, build: BuildId, registry: Registry, attempt: AttemptId, existing: Record, evidence: Evidence)
    requires Inv(before, build) && Logical(before) == Some(registry) && RehydrateReady(before, build, attempt)
    requires registry.bindings.canonical == Some(existing)
    requires d == before.(evidence := Some(evidence))
    requires evidence.build == build && evidence.attempt == attempt && evidence.canonical == existing
    requires evidence.artifacts.setId == existing.artifacts.setId && before.root.value.tree == Some(evidence.artifacts.Rehashed())
    ensures Inv(d, build)
    ensures NextBinds(Some(registry), build, attempt, Present, PresentBindings(registry, existing, evidence))
    ensures Settled(d, Some(RegistryOf(NextEvent(Some(registry), build, attempt, Present, PresentBindings(registry, existing, evidence)))))
  {
    BoundPair(before, build, registry);
    hide JournalInv;
    JournalFrame(before, d, build);
  }

  lemma CleanedHasNoRoot(d: Disk, build: BuildId)
    requires Inv(d, build) && Logical(d).Some? && Logical(d).value.state.Cleaned?
    ensures d.root.None?
  {
  }

  lemma CleaningNext(d: Disk, build: BuildId, registry: Registry, bindings: Bindings)
    requires Inv(d, build) && Logical(d) == Some(registry) && registry.state.Present? && d.attestation.Some?
    requires bindings.canonical == registry.bindings.canonical
    ensures NextBinds(Some(registry), build, registry.attempt, Cleaning, bindings)
    ensures Settled(d, Some(RegistryOf(NextEvent(Some(registry), build, registry.attempt, Cleaning, bindings))))
  {
    BoundPair(d, build, registry);
  }

  /** On reachable disks a present record whose build is bound is the bound canonical. */
  lemma CanonicalOf(before: Disk, after: Disk, build: BuildId)
    requires Inv(before, build) && Inv(after, build) && after.attestation.Some?
    requires after.record == before.record
    ensures CanonicalKept(before, after)
  {
  }

  lemma AttestedSettles(before: Disk, after: Disk, build: BuildId, c: Record)
    requires Inv(before, build) && Logical(before).Some? && Logical(before).value.bindings.canonical == Some(c)
    requires after == before.(attestation := after.attestation) && after.attestation.Some?
    requires Authentic(before, c, after.attestation.value)
    ensures Inv(after, build)
  {
    hide JournalInv;
    JournalFrame(before, after, build);
  }

  lemma InspectableHolds(d: Disk, build: BuildId)
    requires Inv(d, build) && InspectableNow(d)
    ensures var registry := Logical(d).value; var c := registry.bindings.canonical.value;
      Inspectable(d, registry, c) && LoadCanonicalPair(d, build) == Done(Some(c))
  {
    BoundPair(d, build, Logical(d).value);
    hide JournalInv;
  }

  lemma InspectableMeans(d: Disk, registry: Registry, c: Record)
    requires Inspectable(d, registry, c)
    ensures registry.bindings.canonical == Some(c) && ProducerVerified(d, c)
    ensures registry.state.Present? || registry.state.Cleaned?
    ensures registry.state.Present? ==> d.root.Some? && OwnerMatches(d.root, registry)
  {
  }
}
