/** What every crashed and resumed run keeps true of one build ID's files. */
module BuildInvariant {
  import opened Outcomes
  import opened BuildJournal

  function IndexOf(c: Record): Index {
    Index(c.build, c, c.producer)
  }

  function ExpectedProvenance(c: Record): Provenance {
    Provenance(c.build, c.producer, c.identity, c.artifacts)
  }

  /** The producer's own evidence names this canonical build, in its draft or its record. */
  predicate Produced(d: Disk, c: Record) {
    || (c.producer in d.active && d.active[c.producer].provenance == Some(ExpectedProvenance(c)))
    || (c.producer in d.attempts && d.attempts[c.producer].files.provenance == Some(ExpectedProvenance(c)))
  }

  predicate ProducerVerified(d: Disk, c: Record) {
    c.producer in d.attempts && d.attempts[c.producer].files.provenance == Some(ExpectedProvenance(c))
  }

  /** The attestation names this canonical digest and an immutable SUCCESS attempt whose own
      result binds it. */
  predicate Authentic(d: Disk, c: Record, a: Attestation) {
    && a.build == c.build && a.canonical == c && a.setId == c.artifacts.setId
    && c.producer in d.attempts && a.producerRecord == d.attempts[c.producer]
    && a.attestor in d.attempts && a.attestorRecord == d.attempts[a.attestor]
    && a.attestorRecord.outcome.Success?
    && a.attestorRecord.build == Some(c.build)
    && a.attestorRecord.files.result == Some(BuildResult(c.build, c, a.class_, c.artifacts.setId))
  }

  /** The root exists, its inode is its own, and its marker is the journal-bound owner. */
  predicate OwnerMatches(root: Option<Root>, registry: Registry) {
    && root.Some? && registry.bindings.device.Some? && registry.bindings.inode.Some?
    && root.value.device == registry.bindings.device.value
    && root.value.inode == registry.bindings.inode.value
    && root.value.marker == Some(Owner(
         registry.attempt, registry.build, registry.bindings.device.value, registry.bindings.inode.value))
  }

  /** A root that recovery refuses to touch. */
  predicate Blocked(d: Disk, registry: Registry) {
    !registry.state.Publishing? && d.root.Some? && !OwnerMatches(d.root, registry)
  }

  predicate PairIntact(d: Disk, c: Record) {
    d.record == Some(c) && d.index == Some(IndexOf(c))
  }

  predicate PublishingOk(d: Disk, registry: Registry) {
    && registry.bindings.staging.Some?
    && var staged := registry.bindings.staging.value;
    && staged.build == registry.build && staged.producer == registry.attempt && Produced(d, staged)
    && registry.attempt in d.staging && d.staging[registry.attempt] == Some(staged)
    && (d.record == None || d.record == Some(staged))
    && (d.index == None || PairIntact(d, staged))
    && OwnerMatches(d.root, registry) && d.root.value.tree == Some(staged.artifacts.Rehashed())
  }

  predicate PresentSound(d: Disk, registry: Registry)
    requires registry.bindings.canonical.Some?
  {
    && OwnerMatches(d.root, registry)
    && d.evidence.Some? && registry.bindings.materialization == d.evidence
    && var e := d.evidence.value;
    && e.build == registry.build && e.attempt == registry.attempt
    && e.canonical == registry.bindings.canonical.value
    && e.artifacts.setId == e.canonical.artifacts.setId
    && d.root.value.tree == Some(e.artifacts.Rehashed())
  }

  /** The journal's logical state agrees with every other file. */
  predicate Settled(d: Disk, logical: Option<Registry>) {
    match logical
    case None => d.record.None? && d.index.None? && d.attestation.None? && d.root.None?
    case Some(registry) =>
      && Bound(registry.state, registry.bindings.canonical)
      && (registry.bindings.canonical.None? ==>
            && d.attestation.None?
            && (!registry.state.Publishing? ==> d.record.None? && d.index.None?))
      && (registry.bindings.canonical.Some? ==>
            var c := registry.bindings.canonical.value;
            && c.build == registry.build && PairIntact(d, c) && Produced(d, c)
            && (d.attestation.Some? ==> Authentic(d, c, d.attestation.value))
            && (!registry.state.Present? ==> d.attestation.Some?)
            && (registry.state.Present? ==> PresentSound(d, registry)))
      && (registry.state.Publishing? ==> PublishingOk(d, registry))
      && (registry.state.Vacant? || registry.state.Cleaned? ==> d.root.None?)
  }

  predicate AttemptsOk(d: Disk) {
    && d.active.Keys !! d.attempts.Keys
    && d.staging.Keys <= d.active.Keys + d.attempts.Keys
  }

  predicate Inv(d: Disk, build: BuildId) {
    JournalInv(d, build) && Settled(d, Logical(d)) && AttemptsOk(d)
  }


  /** What no step of any run undoes: immutable records, a bound canonical pair, an attestation. */
  predicate Keeps(a: Disk, b: Disk) {
    && (forall k | k in a.attempts :: k in b.attempts && b.attempts[k] == a.attempts[k])
    && (a.record.Some? ==> b.record == a.record)
    && (a.index.Some? ==> b.index == a.index)
    && (a.attestation.Some? ==> b.attestation == a.attestation)
  }

  /** The state a recovery ends in when nothing blocks it. */
  function RecoveryTarget(registry: Registry): State {
    match registry.state
    case Publishing => Present
    case Cleaning => Cleaned
    case _ => if registry.bindings.canonical.Some? then Cleaned else Vacant
  }

  /** The canonical record it is bound to then. */
  function RecoveredCanonical(registry: Registry): Option<Record> {
    if registry.state.Publishing? then registry.bindings.staging else registry.bindings.canonical
  }

  /** Attestation safety, read off the invariant. */
  lemma AttestationSafety(d: Disk, build: BuildId)
    requires Inv(d, build)
    ensures d.attestation.Some? ==>
      && d.record.Some? && d.index == Some(IndexOf(d.record.value))
      && Logical(d).Some? && Logical(d).value.bindings.canonical == d.record
      && var a := d.attestation.value;
      && a.attestor in d.attempts && d.attempts[a.attestor].outcome.Success?
      && d.attempts[a.attestor].files.result == Some(BuildResult(build, d.record.value, a.class_, a.setId))
    ensures Logical(d).Some? && Logical(d).value.state in {Cleaning, Cleaned, Rehydrating} ==> d.attestation.Some?
  {
    if Logical(d).Some? {
      JournalAccepted(d, build);
    }
  }
}
