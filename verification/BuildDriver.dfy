/** One whole build invocation over the materialization cache, and every history of them.

    The driver fixes the order begin, create root, bind, build, publish, finalize, attest. Tool
    failures happen at arbitrary points, other processes run between the build-ID locks, and the
    process may stop between any two disk steps. */
module BuildDriver {
  import opened Outcomes
  import opened BuildJournal
  import opened BuildInvariant
  import opened BuildSteps
  import opened BuildCache

  /** What the tools, the sources and the machine do to one invocation. `others` are the cleanups
      other processes start between its build-ID locks, with the disk steps each of them makes. */
  datatype World = World(drifts: bool, makeFails: bool, markFails: bool, buildFails: bool, checkFails: bool, others: seq<nat>)

  /** Making and marking the root, building in it and checking the result all succeed. */
  predicate Smooth(w: World) {
    !w.makeFails && !w.markFails && !w.buildFails && !w.checkFails
  }

  /** The root is made, and then writing its owner marker fails. */
  predicate Unmarked(w: World) {
    !w.makeFails && w.markFails
  }

  datatype BuildOutput = BuildOutput(canonical: Record, class_: ExecutionClass)

  /** A later disk keeps everything a completed build relies on. */
  predicate Progress(before: Disk, after: Disk, build: BuildId) {
    Inv(before, build) ==> Inv(after, build) && Keeps(before, after)
  }

  /** What a completed invocation leaves: its canonical build, its own immutable SUCCESS record
      binding it, and an authenticated attestation of it. */
  predicate Completed(d: Disk, build: BuildId, attempt: AttemptId, identity: Identity, output: BuildOutput) {
    && PairIntact(d, output.canonical) && output.canonical.identity == identity
    && Succeeded(d, build, attempt, output)
    && d.attestation.Some? && Authentic(d, output.canonical, d.attestation.value)
    && (output.class_.Built? || output.class_.Recovered? ==>
          d.attestation.value.attestor == attempt && d.attestation.value.class_ == output.class_)
  }

  // ------------------------------------------------------------- attempts

  /** Register a fresh attempt after finalizing every earlier unfinished one as interrupted. */
  method BeginAttempt(cache: BuildCache, attempt: AttemptId) returns (r: Outcome<()>)
    modifies cache
    ensures cache.budget <= old(cache.budget) && (r.Crashed? ==> cache.budget == 0)
    ensures Progress(old(cache.disk), cache.disk, cache.build)
    ensures cache.disk == old(cache.disk).(active := cache.disk.active, attempts := cache.disk.attempts)
    ensures Inv(old(cache.disk), cache.build) ==> Closing(old(cache.disk), cache.disk)
    ensures r.Raised? ==>
      && attempt in old(cache.disk).attempts.Keys + old(cache.disk).active.Keys
      && cache.disk.active == map[]
      && cache.disk.attempts.Keys == old(cache.disk).attempts.Keys + old(cache.disk).active.Keys
    ensures r.Done? ==>
      && attempt !in old(cache.disk).attempts.Keys + old(cache.disk).active.Keys
      && cache.disk.active == map[attempt := Draft(None, None)]
      && cache.disk.attempts.Keys == old(cache.disk).attempts.Keys + old(cache.disk).active.Keys
      && cache.disk.staging == old(cache.disk).staging
  {
    ghost var before := cache.disk;
    var taken := attempt in cache.disk.attempts || attempt in cache.disk.active;
    while cache.disk.active != map[]
      invariant Progress(before, cache.disk, cache.build)
      invariant Inv(before, cache.build) ==> Closing(before, cache.disk)
      invariant cache.disk == before.(active := cache.disk.active, attempts := cache.disk.attempts)
      invariant cache.disk.attempts.Keys + cache.disk.active.Keys == before.attempts.Keys + before.active.Keys
      invariant cache.budget <= old(cache.budget)
      decreases cache.disk.active.Keys
    {
      var stale :| stale in cache.disk.active;
      ghost var here := cache.disk;
      var _ :- FinalizeAttempt(cache, stale, Interrupted, None);
      assert stale !in cache.disk.active && cache.disk.active.Keys < here.active.Keys;
    }
    if taken {
      return Raised;
    }
    ghost var here := cache.disk;
    var _ :- cache.Write(cache.disk.(active := cache.disk.active[attempt := Draft(None, None)]));
    if Inv(before, cache.build) {
      DraftKeeps(here, cache.disk, cache.build, attempt);
    }
    return Done(());
  }

  /** Every attempt that was unfinished is as it was, or closed as interrupted with its own files. */
  predicate Closing(before: Disk, after: Disk) {
    forall k | k in before.active ::
      || (k in after.active && after.active[k] == before.active[k])
      || ClosedAs(after, k, Interrupted, before.active[k])
  }

  /** Every attempt that was unfinished is closed as interrupted with its own files. */
  predicate Interruptions(before: Disk, after: Disk) {
    forall k | k in before.active :: ClosedAs(after, k, Interrupted, before.active[k])
  }

  /** The attempt's immutable record has this outcome, no build and these files. */
  predicate ClosedAs(d: Disk, attempt: AttemptId, outcome: AttemptOutcome, files: Draft) {
    attempt in d.attempts && d.attempts[attempt] == AttemptRecord(attempt, outcome, None, files)
  }

  /** Turn an unfinished attempt into its immutable record. */
  method FinalizeAttempt(cache: BuildCache, attempt: AttemptId, outcome: AttemptOutcome, build: Option<BuildId>)
    returns (r: Outcome<()>)
    modifies cache
    ensures cache.budget <= old(cache.budget) && (r.Crashed? ==> cache.budget == 0)
    ensures r.Raised? <==> attempt !in old(cache.disk).active
    ensures !r.Done? ==> cache.disk == old(cache.disk)
    ensures r.Done? ==> cache.disk == Finalized(old(cache.disk), attempt, outcome, build)
    ensures Progress(old(cache.disk), cache.disk, cache.build)
    ensures Inv(old(cache.disk), cache.build) ==> Logical(cache.disk) == Logical(old(cache.disk))
  {
    if attempt !in cache.disk.active {
      return Raised;
    }
    ghost var before := cache.disk;
    var _ :- cache.Write(Finalized(cache.disk, attempt, outcome, build));
    if Inv(before, cache.build) {
      FinalizedKeeps(before, cache.build, attempt, outcome, build);
    }
    return Done(());
  }

  function Finalized(d: Disk, attempt: AttemptId, outcome: AttemptOutcome, build: Option<BuildId>): Disk
    requires attempt in d.active
  {
    d.(active := d.active - {attempt},
       attempts := d.attempts[attempt := AttemptRecord(attempt, outcome, build, d.active[attempt])])
  }

  method WriteDraft(cache: BuildCache, attempt: AttemptId, draft: Draft) returns (r: Outcome<()>)
    requires attempt in cache.disk.active
    requires cache.disk.active[attempt].provenance.Some? ==> draft.provenance == cache.disk.active[attempt].provenance
    modifies cache
    ensures cache.budget <= old(cache.budget) && (r.Crashed? ==> cache.budget == 0)
    ensures !r.Raised?
    ensures cache.disk == (if r.Done? then old(cache.disk).(active := old(cache.disk).active[attempt := draft]) else old(cache.disk))
    ensures Progress(old(cache.disk), cache.disk, cache.build)
    ensures Inv(old(cache.disk), cache.build) ==> Logical(cache.disk) == Logical(old(cache.disk))
  {
    ghost var before := cache.disk;
    r := cache.Write(cache.disk.(active := cache.disk.active[attempt := draft]));
    if Inv(before, cache.build) && r.Done? {
      DraftKeeps(before, cache.disk, cache.build, attempt);
    }
  }

  /** Any number of cleanups by other processes, each stopped wherever it stops. */
  method OtherProcesses(cache: BuildCache, others: seq<nat>)
    modifies cache
    ensures others == [] ==> cache.disk == old(cache.disk)
    ensures cache.budget == old(cache.budget)
    ensures RecoveryFrame(old(cache.disk), cache.disk)
    ensures Inv(old(cache.disk), cache.build) ==> Undisturbed(old(cache.disk), cache.disk, cache.build)
  {
    var mine := cache.budget;
    for i := 0 to |others|
      invariant others == [] ==> cache.disk == old(cache.disk)
      invariant RecoveryFrame(old(cache.disk), cache.disk)
      invariant Inv(old(cache.disk), cache.build) ==> Undisturbed(old(cache.disk), cache.disk, cache.build)
    {
      hide Inv, SameFiles;
      cache.budget := others[i];
      var _ := cache.CleanupBuild();
    }
    cache.budget := mine;
  }

  /** Cleanups keep the canonical binding, and do not touch an unattested build at all. */
  predicate Undisturbed(before: Disk, after: Disk, build: BuildId) {
    && Inv(after, build) && CanonicalKept(before, after)
    && (before.attestation.None? ==> SameFiles(before, after) && Logical(after) == Logical(before))
  }

  // --------------------------------------------------------- materializing

  /** Create, own, bind and build the root, then write the producer provenance. A failure reports
      the owner marker this attempt wrote, if any. */
  method BuildRoot(cache: BuildCache, attempt: AttemptId, rehydrate: bool, record: Record, device: nat, inode: nat, world: World)
    returns (r: Outcome<()>, owned: Option<Owner>)
    modifies cache
    ensures r.Done? ==> Smooth(world) && OwnRoot(cache.disk, cache.build, attempt, device, inode, record.artifacts)
    ensures Inv(old(cache.disk), cache.build) && Begun(old(cache.disk), attempt, rehydrate) && Untouched(old(cache.disk), attempt) ==>
      && (r.Raised? ==> !Smooth(world))
      && (r.Raised? && world.makeFails ==> owned.None? && cache.disk.root.None?)
      && (r.Raised? && Unmarked(world) ==> owned.None? && cache.disk.root == Some(Root(device, inode, None, None)))
      && (r.Raised? && !world.makeFails && !world.markFails ==>
            owned == Some(Owner(attempt, cache.build, device, inode)) && Marked(cache.disk.root, owned))
    ensures cache.budget <= old(cache.budget) && (r.Crashed? ==> cache.budget == 0)
    ensures Inv(old(cache.disk), cache.build) && Begun(old(cache.disk), attempt, rehydrate) && record.build == cache.build ==>
      && Inv(cache.disk, cache.build)
      && RecoveryFrame(old(cache.disk).(active := cache.disk.active), cache.disk)
      && SameUnfinished(old(cache.disk), cache.disk)
      && Begun(cache.disk, attempt, rehydrate)
      && SameCanonical(old(cache.disk), cache.disk)
      && (r.Done? ==> (if rehydrate then RehydrateReady(cache.disk, cache.build, attempt) && cache.disk.root.value.tree == Some(record.artifacts.Rehashed())
                       else record.producer == attempt ==> BuiltReady(cache.disk, cache.build, attempt, record)))
  {
    owned := None;
    r := Raised;
    if cache.disk.root.Some? || world.makeFails {
      return;
    }
    r := WriteRoot(cache, attempt, rehydrate, Root(device, inode, None, None));
    if !r.Done? || world.markFails {
      r := if r.Crashed? then Crashed else Raised;
      return;
    }
    var owner := Owner(attempt, cache.build, device, inode);
    r := WriteRoot(cache, attempt, rehydrate, Root(device, inode, Some(owner), None));
    if !r.Done? {
      return;
    }
    owned := Some(owner);
    r := BindAndBuild(cache, attempt, rehydrate, record, owner, world);
  }

  method BindAndBuild(cache: BuildCache, attempt: AttemptId, rehydrate: bool, record: Record, owner: Owner, world: World)
    returns (r: Outcome<()>)
    requires owner.attempt == attempt && owner.build == cache.build
    modifies cache
    ensures r.Done? ==>
      !world.buildFails && !world.checkFails && OwnRoot(cache.disk, cache.build, attempt, owner.device, owner.inode, record.artifacts)
    ensures
      && Inv(old(cache.disk), cache.build) && Begun(old(cache.disk), attempt, rehydrate)
      && old(cache.disk).root == Some(Root(owner.device, owner.inode, Some(owner), None))
      && (!rehydrate ==> old(cache.disk).active[attempt].provenance.None?) ==>
      && (r.Raised? ==> world.buildFails || world.checkFails)
      && (r.Raised? ==> Marked(cache.disk.root, Some(owner)))
    ensures cache.budget <= old(cache.budget) && (r.Crashed? ==> cache.budget == 0)
    ensures
      && Inv(old(cache.disk), cache.build) && Begun(old(cache.disk), attempt, rehydrate) && record.build == cache.build
      && old(cache.disk).root == Some(Root(owner.device, owner.inode, Some(owner), None)) ==>
      && Inv(cache.disk, cache.build)
      && RecoveryFrame(old(cache.disk).(active := cache.disk.active), cache.disk)
      && SameUnfinished(old(cache.disk), cache.disk)
      && Begun(cache.disk, attempt, rehydrate)
      && SameCanonical(old(cache.disk), cache.disk)
      && (r.Done? ==> (if rehydrate then RehydrateReady(cache.disk, cache.build, attempt) && cache.disk.root.value.tree == Some(record.artifacts.Rehashed())
                       else record.producer == attempt ==> BuiltReady(cache.disk, cache.build, attempt, record)))
  {
    hide JournalInv, Settled;
    var _ :- cache.BindRoot(attempt, owner);
    var partial: Option<Contents> := *;
    var _ :- WriteRoot(cache, attempt, rehydrate, Root(owner.device, owner.inode, Some(owner), partial));
    if world.buildFails {
      return Raised;
    }
    var _ :- WriteRoot(cache, attempt, rehydrate, Root(owner.device, owner.inode, Some(owner), Some(record.artifacts.Rehashed())));
    if world.checkFails || attempt !in cache.disk.active {
      return Raised;
    }
    if rehydrate || cache.disk.active[attempt].provenance.Some? {
      return if rehydrate then Done(()) else Raised;
    }
    var draft := cache.disk.active[attempt].(provenance := Some(ExpectedProvenance(record)));
    r := WriteDraft(cache, attempt, draft);
  }

  /** A step inside the build root while the journal is Building or Rehydrating. */
  method WriteRoot(cache: BuildCache, attempt: AttemptId, rehydrate: bool, root: Root) returns (r: Outcome<()>)
    modifies cache
    ensures cache.budget <= old(cache.budget) && (r.Crashed? ==> cache.budget == 0)
    ensures !r.Raised?
    ensures cache.disk == (if r.Done? then old(cache.disk).(root := Some(root)) else old(cache.disk))
    ensures Inv(old(cache.disk), cache.build) && Begun(old(cache.disk), attempt, rehydrate) ==>
      Inv(cache.disk, cache.build) && Begun(cache.disk, attempt, rehydrate) && Logical(cache.disk) == Logical(old(cache.disk))
  {
    ghost var before := cache.disk;
    r := cache.Write(cache.disk.(root := Some(root)));
    if Inv(before, cache.build) && Begun(before, attempt, rehydrate) {
      RootIsFree(before, cache.disk, cache.build, Logical(before).value);
    }
  }

  /** The root this attempt created at this inode, marked as its own, holding the capture. */
  predicate OwnRoot(d: Disk, build: BuildId, attempt: AttemptId, device: nat, inode: nat, built: Artifacts) {
    d.root == Some(Root(device, inode, Some(Owner(attempt, build, device, inode)), Some(built.Rehashed())))
  }

  /** The journal is this attempt's own Building or Rehydrating. */
  predicate Begun(d: Disk, attempt: AttemptId, rehydrate: bool) {
    && Logical(d).Some? && Logical(d).value.attempt == attempt && attempt in d.active
    && Logical(d).value.state == (if rehydrate then Rehydrating else Building)
  }

  /** The attempt has written nothing about the build yet, and there is no root. */
  predicate Untouched(d: Disk, attempt: AttemptId) {
    attempt in d.active && d.active[attempt] == Draft(None, None) && attempt !in d.staging && d.root.None?
  }

  /** The same attempts are unfinished, and none has written a result in between. */
  predicate SameUnfinished(before: Disk, after: Disk) {
    after.active.Keys == before.active.Keys && forall k | k in after.active :: after.active[k].result == before.active[k].result
  }

  predicate SameCanonical(before: Disk, after: Disk) {
    && Logical(before).Some? && Logical(after).Some?
    && Logical(after).value.bindings.canonical == Logical(before).value.bindings.canonical
  }

  predicate Marked(root: Option<Root>, owned: Option<Owner>) {
    && owned.Some? && root.Some?
    && root.value == Root(owned.value.device, owned.value.inode, owned, root.value.tree)
  }

  /** Remove the root this attempt made, if its marker is still the one it wrote. */
  method DiscardOwnRoot(cache: BuildCache, attempt: AttemptId, rehydrate: bool, owned: Option<Owner>) returns (r: Outcome<()>)
    modifies cache
    ensures cache.budget <= old(cache.budget) && (r.Crashed? ==> cache.budget == 0)
    ensures !r.Raised? && cache.disk == old(cache.disk).(root := cache.disk.root)
    ensures r.Done? ==> cache.disk.root == if Marked(old(cache.disk).root, owned) then None else old(cache.disk).root
    ensures Inv(old(cache.disk), cache.build) && Begun(old(cache.disk), attempt, rehydrate) ==>
      Inv(cache.disk, cache.build) && Logical(cache.disk) == Logical(old(cache.disk))
  {
    ghost var before := cache.disk;
    r := Done(());
    if Marked(cache.disk.root, owned) {
      r := cache.RemoveTree();
    }
    if Inv(before, cache.build) && Begun(before, attempt, rehydrate) {
      RootIsFree(before, cache.disk, cache.build, Logical(before).value);
    }
  }

  /** Build or rehydrate after a miss, and publish. */
  method Materialize(
    cache: BuildCache, attempt: AttemptId, identity: Identity, lookup: CacheLookup, built: Artifacts, device: nat, inode: nat,
    world: World)
    returns (r: Outcome<BuildOutput>)
    requires !lookup.classification.Hit?
    requires lookup.classification.Rehydrate? ==> lookup.canonical.Some?
    modifies cache
    ensures cache.budget <= old(cache.budget) && (r.Crashed? ==> cache.budget == 0)
    ensures MayMaterialize(old(cache.disk), cache.build, attempt, identity, lookup) ==>
      && Materialized(old(cache.disk), cache.disk, cache.build, attempt, identity, r)
      && (r.Done? ==>
            && Captured(cache.disk, built) && OwnRoot(cache.disk, cache.build, attempt, device, inode, built)
            && Logical(cache.disk).Some? && Logical(cache.disk).value.state.Present?
            && r.value == if lookup.classification.Rehydrate? then BuildOutput(lookup.canonical.value, Rehydrated)
                          else BuildOutput(Record(cache.build, attempt, identity, built), Built))
      && (attempt !in old(cache.disk).staging && !r.Crashed? ==>
            && (r.Done? <==> Smooth(world) && (lookup.classification.Rehydrate? ==> built.setId == lookup.canonical.value.artifacts.setId))
            && (r.Raised? ==> (Unrecoverable(cache.disk) <==> Unmarked(world))))
  {
    hide JournalInv, Settled;
    ghost var before := cache.disk;
    var rehydrate := lookup.classification.Rehydrate?;
    var producer := if rehydrate then lookup.canonical.value.producer else attempt;
    var record := Record(cache.build, producer, identity, built);
    if MayMaterialize(before, cache.build, attempt, identity, lookup) {
      NothingThere(before, cache.build, attempt, identity, lookup);
    }
    var _ :- cache.BeginMaterialization(attempt, rehydrate);
    ghost var begun := cache.disk;
    if MayMaterialize(before, cache.build, attempt, identity, lookup) {
      AttestedIffPublished(begun, cache.build, attempt, rehydrate);
    }
    r := MaterializeBegun(cache, attempt, rehydrate, record, device, inode, world);
  }

  /** Build the root, or clean up after a failed build, then publish. */
  method MaterializeBegun(cache: BuildCache, attempt: AttemptId, rehydrate: bool, record: Record, device: nat, inode: nat, world: World)
    returns (r: Outcome<BuildOutput>)
    modifies cache
    ensures cache.budget <= old(cache.budget) && (r.Crashed? ==> cache.budget == 0)
    ensures
      && Inv(old(cache.disk), cache.build) && Begun(old(cache.disk), attempt, rehydrate)
      && record.build == cache.build && (!rehydrate ==> record.producer == attempt) ==>
      && Inv(cache.disk, cache.build) && AttestationKept(old(cache.disk).(active := cache.disk.active), cache.disk)
      && SameUnfinished(old(cache.disk), cache.disk)
      && (r.Done? ==>
            && Logical(cache.disk).Some? && Logical(cache.disk).value.state.Present?
            && Logical(cache.disk).value.bindings.canonical == Some(r.value.canonical)
            && r.value.class_ == (if rehydrate then Rehydrated else Built)
            && (if rehydrate then Some(r.value.canonical) == Logical(old(cache.disk)).value.bindings.canonical else r.value.canonical == record))
      && (r.Done? ==>
            Captured(cache.disk, record.artifacts) && OwnRoot(cache.disk, cache.build, attempt, device, inode, record.artifacts))
      && (Untouched(old(cache.disk), attempt) && !r.Crashed? ==>
            && (r.Done? <==> Smooth(world) && (rehydrate ==> Retained(old(cache.disk), record)))
            && (r.Raised? ==> (Unrecoverable(cache.disk) <==> Unmarked(world))))
  {
    hide JournalInv, Settled;
    ghost var begun := cache.disk;
    var root, owned := BuildRoot(cache, attempt, rehydrate, record, device, inode, world);
    if root.Crashed? {
      return Crashed;
    }
    if root.Raised? {
      var _ :- DiscardOwnRoot(cache, attempt, rehydrate, owned);
      return Raised;
    }
    if Inv(cache.disk, cache.build) && rehydrate && Begun(cache.disk, attempt, rehydrate) {
      AttestedIffPublished(cache.disk, cache.build, attempt, rehydrate);
    }
    var canonical :- cache.Publish(attempt, record, rehydrate);
    return Done(BuildOutput(canonical, if rehydrate then Rehydrated else Built));
  }

  /** The bound canonical build is the one this record rebuilds. */
  predicate Retained(d: Disk, record: Record) {
    && Logical(d).Some? && Logical(d).value.bindings.canonical.Some?
    && var c := Logical(d).value.bindings.canonical.value;
    && c.identity == record.identity && c.artifacts.setId == record.artifacts.setId
  }

  /** A fresh attempt whose lookup on this very disk was a miss or a rehydration. */
  predicate MayMaterialize(d: Disk, build: BuildId, attempt: AttemptId, identity: Identity, lookup: CacheLookup) {
    && Inv(d, build) && LookupMeans(d, build, identity, lookup)
    && attempt in d.active && d.active[attempt] == Draft(None, None)
  }

  /** Before a miss or a rehydration there is no root, and the journal may begin. */
  lemma NothingThere(d: Disk, build: BuildId, attempt: AttemptId, identity: Identity, lookup: CacheLookup)
    requires MayMaterialize(d, build, attempt, identity, lookup) && !lookup.classification.Hit?
    ensures d.root.None? && MayBegin(Logical(d), lookup.classification.Rehydrate?)
    ensures lookup.classification.Rehydrate? ==>
      && lookup.canonical.Some? && Logical(d).value.bindings.canonical == lookup.canonical
      && lookup.canonical.value.identity == identity
  {
    hide JournalInv;
  }

  predicate Materialized(before: Disk, after: Disk, build: BuildId, attempt: AttemptId, identity: Identity, r: Outcome<BuildOutput>) {
    && Inv(after, build) && Keeps(before, after)
    && SameUnfinished(before, after) && after.attempts == before.attempts
    && (r.Done? ==> OutputReady(after, build, identity, r.value) && (r.value.class_.Built? || r.value.class_.Rehydrated?))
  }

  /** A verified output waiting to be finalized: bound in the journal, attested exactly when it
      is not this attempt's to attest. */
  predicate OutputReady(d: Disk, build: BuildId, identity: Identity, output: BuildOutput) {
    && Logical(d).Some? && Logical(d).value.bindings.canonical == Some(output.canonical)
    && output.canonical.identity == identity && output.canonical.build == build
    && (output.class_.Built? || output.class_.Recovered? <==> d.attestation.None?)
    && (d.attestation.None? ==> Logical(d).value.state.Present?)
  }

  // ----------------------------------------------------- whole invocations

  /** Reuse a hit. The root is revalidated against the canonical artifacts, not against the
      evidence of the materialization that made it. */
  method ReuseHit(cache: BuildCache, lookup: CacheLookup, drifted: bool) returns (r: Outcome<BuildOutput>)
    requires lookup.classification.Hit? && lookup.canonical.Some?
    ensures !r.Crashed?
    ensures r.Done? <==> !drifted && Revalidates(cache.disk, lookup)
    ensures r.Done? ==>
      r.value == BuildOutput(lookup.canonical.value, if lookup.needsAttestation then Recovered else CacheHit)
  {
    if drifted || !Revalidates(cache.disk, lookup) {
      return Raised;
    }
    return Done(BuildOutput(lookup.canonical.value, if lookup.needsAttestation then Recovered else CacheHit));
  }

  predicate Revalidates(d: Disk, lookup: CacheLookup)
    requires lookup.canonical.Some?
  {
    && d.root.Some? && d.root.value.tree == Some(lookup.canonical.value.artifacts.Rehashed())
    && d.root.value.marker == lookup.owner
  }

  /** Look up, then reuse or materialize, under the build-ID lock. */
  method Obtain(cache: BuildCache, attempt: AttemptId, identity: Identity, built: Artifacts, device: nat, inode: nat, world: World)
    returns (r: Outcome<BuildOutput>)
    modifies cache
    ensures cache.budget <= old(cache.budget) && (r.Crashed? ==> cache.budget == 0)
    ensures Inv(old(cache.disk), cache.build) && attempt in old(cache.disk).active && old(cache.disk).active[attempt] == Draft(None, None) ==>
      && Inv(cache.disk, cache.build) && Keeps(old(cache.disk), cache.disk)
      && SameUnfinished(old(cache.disk), cache.disk) && cache.disk.attempts == old(cache.disk).attempts
      && (r.Done? ==> OutputReady(cache.disk, cache.build, identity, r.value))
    ensures
      && Inv(old(cache.disk), cache.build) && old(cache.disk).active == map[attempt := Draft(None, None)]
      && attempt !in old(cache.disk).staging && !r.Crashed? ==>
      && (r.Done? <==> Obtainable(old(cache.disk), identity, built, world))
      && (r.Done? ==>
            && Materialization(cache.disk, r.value, built)
            && (r.value.class_.Built? || r.value.class_.Rehydrated? ==>
                  OwnRoot(cache.disk, cache.build, attempt, device, inode, built))
            && r.value == Expected(old(cache.disk), cache.build, attempt, identity, built))
      && (r.Raised? ==>
            (Unrecoverable(cache.disk) <==> Unrecoverable(old(cache.disk)) || (Materializes(old(cache.disk), identity) && Unmarked(world))))
  {
    ghost var before := cache.disk;
    hide JournalInv, Settled;
    var looked := cache.Lookup(identity);
    ghost var found := cache.disk;
    if !looked.Done? {
      if Inv(before, cache.build) && looked.Raised? && found.active == map[attempt := Draft(None, None)] {
        RefusedMeans(before, found, cache.build, identity, attempt, built, world);
      }
      return if looked.Raised? then Raised else Crashed;
    }
    var lookup := looked.value;
    if Inv(before, cache.build) {
      FoundIsReady(found, cache.build, identity, lookup);
      FoundMeans(before, found, cache.build, identity, lookup, built, world);
    }
    hide LookupMeans, RecoveredTo, Obtainable, Expected, Revalidates;
    if lookup.classification.Hit? && lookup.canonical.Some? {
      r := ReuseHit(cache, lookup, world.drifts);
    } else if lookup.classification.Hit? || (lookup.classification.Rehydrate? && lookup.canonical.None?) {
      return Raised;
    } else {
      r := Materialize(cache, attempt, identity, lookup, built, device, inode, world);
    }
  }

  /** The root is there, and what was built for it is this capture. */
  predicate Materialization(d: Disk, output: BuildOutput, built: Artifacts) {
    && Logical(d).Some? && Logical(d).value.state.Present?
    && (output.class_.Built? || output.class_.Rehydrated? ==> Captured(d, built))
  }

  /** The state and the canonical record an invocation finds after recovery. */
  function FoundState(registry: Registry): State {
    if Recoverable(registry.state) then RecoveryTarget(registry) else registry.state
  }

  /** On a reachable disk an invocation obtains its build: nothing blocks recovery, and then a miss is
      built, a cleaned build of this identity is rebuilt to the same artifact set, and a present one is
      still as it was rehashed for the canonical record. */
  predicate Obtainable(d: Disk, identity: Identity, built: Artifacts, world: World) {
    && !Unrecoverable(d)
    && match Logical(d)
       case None => Smooth(world)
       case Some(registry) =>
         if FoundState(registry).Vacant? then Smooth(world)
         else
           && RecoveredCanonical(registry).Some?
           && var c := RecoveredCanonical(registry).value;
           && c.identity == identity
           && if FoundState(registry).Cleaned? then Smooth(world) && built.setId == c.artifacts.setId
              else !world.drifts && (registry.state.Publishing? || SameRehashed(d, c))
  }

  /** An invocation has to make the root: there never was a build, or this one was cleaned. */
  predicate Materializes(d: Disk, identity: Identity) {
    && !Unrecoverable(d)
    && match Logical(d)
       case None => true
       case Some(registry) =>
         || FoundState(registry).Vacant?
         || (FoundState(registry).Cleaned? && RecoveredCanonical(registry).Some? && RecoveredCanonical(registry).value.identity == identity)
  }

  /** What an invocation that obtains its build hands out. */
  function Expected(d: Disk, build: BuildId, attempt: AttemptId, identity: Identity, built: Artifacts): BuildOutput
  {
    if Logical(d).None? || FoundState(Logical(d).value).Vacant? || RecoveredCanonical(Logical(d).value).None? then
      BuildOutput(Record(build, attempt, identity, built), Built)
    else
      var c := RecoveredCanonical(Logical(d).value).value;
      if FoundState(Logical(d).value).Cleaned? then BuildOutput(c, Rehydrated)
      else BuildOutput(c, if d.attestation.None? then Recovered else CacheHit)
  }

  /** A lookup that refuses leaves nothing to obtain. */
  lemma RefusedMeans(before: Disk, after: Disk, build: BuildId, identity: Identity, attempt: AttemptId, built: Artifacts, world: World)
    requires Inv(before, build) && LookupOk(before, after, build, identity, Raised)
    requires after.active == map[attempt := Draft(None, None)]
    ensures !Obtainable(before, identity, built, world)
    ensures !Materializes(before, identity) && (Unrecoverable(after) <==> Unrecoverable(before))
  {
    hide JournalInv;
    if !Unrecoverable(before) {
      var registry := Logical(after).value;
      assert registry.bindings.canonical.Some? ==> ProducerVerified(after, registry.bindings.canonical.value);
    }
  }

  /** What a lookup found says whether the build can be obtained. */
  lemma FoundMeans(before: Disk, after: Disk, build: BuildId, identity: Identity, lookup: CacheLookup, built: Artifacts, world: World)
    requires Inv(before, build) && LookupOk(before, after, build, identity, Done(lookup))
    ensures Obtainable(before, identity, built, world) <==>
      match lookup.classification
      case Miss => Smooth(world)
      case Rehydrate => lookup.canonical.Some? && Smooth(world) && built.setId == lookup.canonical.value.artifacts.setId
      case Hit => lookup.canonical.Some? && !world.drifts && Revalidates(after, lookup)
    ensures Materializes(before, identity) <==> !lookup.classification.Hit?
    ensures !Unrecoverable(before) && !Unrecoverable(after)
    ensures after.attestation == before.attestation ==>
      forall attempt :: Expected(before, build, attempt, identity, built) ==
        match lookup.classification
        case Miss => BuildOutput(Record(build, attempt, identity, built), Built)
        case Rehydrate => BuildOutput(lookup.canonical.value, Rehydrated)
        case Hit => BuildOutput(lookup.canonical.value, if lookup.needsAttestation then Recovered else CacheHit)
  {
    hide JournalInv;
  }

  /** The materialization was captured with the canonical observations. */
  predicate SameRehashed(d: Disk, c: Record) {
    d.evidence.Some? && d.evidence.value.artifacts.Rehashed() == c.artifacts.Rehashed()
  }

  /** Finalize SUCCESS with the result that binds the canonical build. */
  method RecordSuccess(cache: BuildCache, attempt: AttemptId, identity: Identity, output: BuildOutput, others: seq<nat>) returns (r: Outcome<()>)
    modifies cache
    ensures cache.budget <= old(cache.budget) && (r.Crashed? ==> cache.budget == 0)
    ensures Inv(old(cache.disk), cache.build) && OutputReady(old(cache.disk), cache.build, identity, output) && attempt in old(cache.disk).active ==>
      && Inv(cache.disk, cache.build) && Keeps(old(cache.disk), cache.disk)
      && (r.Done? ==> OutputReady(cache.disk, cache.build, identity, output) && Succeeded(cache.disk, cache.build, attempt, output))
    ensures attempt in old(cache.disk).active ==> !r.Raised?
    ensures r.Done? && old(cache.disk).active.Keys == {attempt} ==>
      cache.disk.active == map[] && cache.disk.attempts.Keys == old(cache.disk).attempts.Keys + {attempt}
    ensures others == [] ==> SameMaterialization(old(cache.disk), cache.disk)
  {
    ghost var before := cache.disk;
    hide JournalInv, Settled;
    OtherProcesses(cache, others);
    if attempt !in cache.disk.active {
      return Raised;
    }
    var result := BuildResult(cache.build, output.canonical, output.class_, output.canonical.artifacts.setId);
    var _ :- WriteDraft(cache, attempt, cache.disk.active[attempt].(result := Some(result)));
    r := FinalizeAttempt(cache, attempt, Success, Some(cache.build));
  }

  /** The attempt's immutable record is a SUCCESS that binds the output. */
  predicate Succeeded(d: Disk, build: BuildId, attempt: AttemptId, output: BuildOutput) {
    && attempt in d.attempts && d.attempts[attempt].outcome.Success? && d.attempts[attempt].build == Some(build)
    && d.attempts[attempt].files.result ==
         Some(BuildResult(build, output.canonical, output.class_, output.canonical.artifacts.setId))
  }

  /** Record the result, finalize SUCCESS, and attest what this attempt has to attest. */
  method Finish(cache: BuildCache, attempt: AttemptId, identity: Identity, output: BuildOutput, others: seq<nat>) returns (r: Outcome<()>)
    modifies cache
    ensures cache.budget <= old(cache.budget) && (r.Crashed? ==> cache.budget == 0)
    ensures Inv(old(cache.disk), cache.build) && OutputReady(old(cache.disk), cache.build, identity, output) && attempt in old(cache.disk).active ==>
      && Inv(cache.disk, cache.build) && Keeps(old(cache.disk), cache.disk)
      && (r.Done? ==> Completed(cache.disk, cache.build, attempt, identity, output))
      && (old(cache.disk).active.Keys == {attempt} ==> !r.Raised?)
    ensures r.Done? && old(cache.disk).active.Keys == {attempt} ==>
      cache.disk.active == map[] && cache.disk.attempts.Keys == old(cache.disk).attempts.Keys + {attempt}
    ensures others == [] ==> SameMaterialization(old(cache.disk), cache.disk)
  {
    ghost var before := cache.disk;
    hide JournalInv, Settled;
    var _ :- RecordSuccess(cache, attempt, identity, output, others);
    OtherProcesses(cache, others);
    r := Attest(cache, attempt, identity, output);
  }

  /** Publish the attestation of what this attempt made or completed. */
  method Attest(cache: BuildCache, attempt: AttemptId, identity: Identity, output: BuildOutput) returns (r: Outcome<()>)
    modifies cache
    ensures cache.budget <= old(cache.budget) && (r.Crashed? ==> cache.budget == 0)
    ensures cache.disk == old(cache.disk).(attestation := cache.disk.attestation)
    ensures
      && Inv(old(cache.disk), cache.build) && OutputReady(old(cache.disk), cache.build, identity, output)
      && Succeeded(old(cache.disk), cache.build, attempt, output) ==>
      && Inv(cache.disk, cache.build) && Keeps(old(cache.disk), cache.disk)
      && (r.Done? ==> Completed(cache.disk, cache.build, attempt, identity, output))
      && (old(cache.disk).active == map[] ==> !r.Raised?)
  {
    hide JournalInv, Settled, MayAttest;
    if Inv(cache.disk, cache.build) && CanonicalBound(cache.disk, output.canonical) {
      CanonicalIsAuthentic(cache.disk, cache.build, output.canonical);
    }
    if !output.class_.Built? && !output.class_.Recovered? {
      return Done(());
    }
    if Inv(cache.disk, cache.build) && CanonicalBound(cache.disk, output.canonical) && cache.disk.active == map[] {
      OwnRecordIsFinal(cache.disk, cache.build, attempt, output);
    }
    r := cache.PublishBuildAttestation(attempt, output.canonical, output.class_);
  }

  /** The journal, the root and its evidence are as they were. */
  predicate SameMaterialization(a: Disk, b: Disk) {
    && b.events == a.events && b.temps == a.temps && b.current == a.current
    && b.root == a.root && b.evidence == a.evidence
  }

  /** When no attempt is unfinished, the producer's record is final. */
  lemma OwnRecordIsFinal(d: Disk, build: BuildId, attempt: AttemptId, output: BuildOutput)
    requires Inv(d, build) && CanonicalBound(d, output.canonical) && d.active == map[]
    ensures d.attestation.None? && Succeeded(d, build, attempt, output) ==> MayAttest(d, build, attempt, output.canonical, output.class_)
  {
    BoundPair(d, build, Logical(d).value);
    hide JournalInv;
  }

  predicate CanonicalBound(d: Disk, c: Record) {
    Logical(d).Some? && Logical(d).value.bindings.canonical == Some(c)
  }

  /** Unless it is stopped, an invocation completes exactly when its attempt is new and it obtains the
      build. */
  predicate Executable(d: Disk, attempt: AttemptId, identity: Identity, built: Artifacts, world: World) {
    attempt !in d.attempts && attempt !in d.active && Obtainable(d, identity, built, world)
  }

  /** One whole invocation: begin an attempt, obtain the build, finish; fail the attempt on error. */
  method ExecuteBuild(cache: BuildCache, attempt: AttemptId, identity: Identity, built: Artifacts, device: nat, inode: nat, world: World)
    returns (r: Outcome<BuildOutput>)
    modifies cache
    ensures r.Crashed? ==> cache.budget == 0
    ensures Inv(old(cache.disk), cache.build) && !r.Crashed? ==>
      && (r.Done? <==> Executable(old(cache.disk), attempt, identity, built, world))
      && (r.Done? ==> r.value == Expected(old(cache.disk), cache.build, attempt, identity, built))
      && (r.Done? && world.others == [] ==>
            && Materialization(cache.disk, r.value, built)
            && (r.value.class_.Built? || r.value.class_.Rehydrated? ==>
                  OwnRoot(cache.disk, cache.build, attempt, device, inode, built)))
      && (r.Done? ==>
            && cache.disk.active == map[]
            && cache.disk.attempts.Keys == old(cache.disk).attempts.Keys + old(cache.disk).active.Keys + {attempt})
    ensures Inv(old(cache.disk), cache.build) && !r.Crashed? ==>
      && cache.disk.active == map[] && Interruptions(old(cache.disk), cache.disk)
      && (r.Raised? && attempt in old(cache.disk).attempts.Keys + old(cache.disk).active.Keys ==>
            cache.disk.attempts.Keys == old(cache.disk).attempts.Keys + old(cache.disk).active.Keys)
      && (r.Raised? && attempt !in old(cache.disk).attempts.Keys + old(cache.disk).active.Keys ==>
            && cache.disk.attempts.Keys == old(cache.disk).attempts.Keys + old(cache.disk).active.Keys + {attempt}
            && ClosedAs(cache.disk, attempt, Failed, Draft(cache.disk.attempts[attempt].files.provenance, None))
            && (Unrecoverable(cache.disk) <==> Unrecoverable(old(cache.disk)) || (Materializes(old(cache.disk), identity) && Unmarked(world))))
    ensures Inv(old(cache.disk), cache.build) ==>
      && Inv(cache.disk, cache.build) && Keeps(old(cache.disk), cache.disk)
      && (r.Done? ==> Completed(cache.disk, cache.build, attempt, identity, r.value))
  {
    hide JournalInv, Settled, Completed, OutputReady;
    var _ :- BeginAttempt(cache, attempt);
    var output := Obtain(cache, attempt, identity, built, device, inode, world);
    r := Leave(cache, attempt, identity, output, world.others);
  }

  /** Finish with the output, or close the attempt as failed. */
  method Leave(cache: BuildCache, attempt: AttemptId, identity: Identity, output: Outcome<BuildOutput>, others: seq<nat>)
    returns (r: Outcome<BuildOutput>)
    modifies cache
    ensures output.Crashed? ==> r == Crashed && cache.disk == old(cache.disk) && cache.budget == old(cache.budget)
    ensures !output.Crashed? && r.Crashed? ==> cache.budget == 0
    ensures r.Done? ==> r == output
    ensures
      && Inv(old(cache.disk), cache.build) && old(cache.disk).active.Keys == {attempt}
      && (output.Done? ==> OutputReady(old(cache.disk), cache.build, identity, output.value)) ==>
      && Inv(cache.disk, cache.build) && Keeps(old(cache.disk), cache.disk)
      && (r.Raised? ==> output.Raised? && ClosedAs(cache.disk, attempt, Failed, old(cache.disk).active[attempt]))
      && (r.Done? ==> Completed(cache.disk, cache.build, attempt, identity, r.value))
      && (!r.Crashed? ==>
            cache.disk.active == map[] && cache.disk.attempts.Keys == old(cache.disk).attempts.Keys + {attempt})
    ensures output.Raised? ==> SameMaterialization(old(cache.disk), cache.disk)
    ensures others == [] ==> SameMaterialization(old(cache.disk), cache.disk)
  {
    hide JournalInv, Settled, Completed, OutputReady;
    r := output;
    if output.Done? {
      var finished := Finish(cache, attempt, identity, output.value, others);
      r := if finished.Done? then output else if finished.Raised? then Raised else Crashed;
    }
    if r.Raised? && attempt in cache.disk.active {
      var _ :- FinalizeAttempt(cache, attempt, Failed, None);
    }
  }

  datatype Command =
    | Execute(attempt: AttemptId, identity: Identity, built: Artifacts, device: nat, inode: nat, world: World)
    | Cleanup
    | Inspect

  /** Every disk of the trace satisfies the invariant, and nothing immutable is lost from one to a later. */
  ghost predicate Forward(trace: seq<Disk>, build: BuildId) {
    && (forall i | 0 <= i < |trace| :: Inv(trace[i], build))
    && (forall i, j | 0 <= i <= j < |trace| :: Keeps(trace[i], trace[j]))
  }

  lemma ForwardGrows(trace: seq<Disk>, next: Disk, build: BuildId)
    requires trace != [] && Forward(trace, build) && Inv(next, build) && Keeps(trace[|trace| - 1], next)
    ensures Forward(trace + [next], build)
  {
    hide Inv;
    var longer := trace + [next];
    forall i, j | 0 <= i <= j < |longer|
      ensures Keeps(longer[i], longer[j])
    {
      if i < |trace| == j {
        assert Keeps(trace[i], trace[|trace| - 1]);
      }
    }
  }

  /** Every history of invocations, cleanups and inspections, each with its own stopping point. The
      trace holds the disk before the first and after each one. */
  method RunHistory(build: BuildId, history: seq<(Command, nat)>) returns (cache: BuildCache, ghost trace: seq<Disk>)
    ensures cache.build == build && Inv(cache.disk, build)
    ensures |trace| == |history| + 1 && trace[|history|] == cache.disk && Forward(trace, build)
    ensures cache.disk.attestation.Some? ==>
      && cache.disk.record.Some? && Authentic(cache.disk, cache.disk.record.value, cache.disk.attestation.value)
    ensures Logical(cache.disk).Some? && Logical(cache.disk).value.state in {Cleaning, Cleaned, Rehydrating} ==>
      cache.disk.attestation.Some?
    ensures Logical(cache.disk).Some? && Logical(cache.disk).value.state.Present? ==>
      Logical(cache.disk).value.bindings.canonical.Some? && PresentSound(cache.disk, Logical(cache.disk).value)
  {
    cache := new BuildCache(build);
    trace := [cache.disk];
    for i := 0 to |history|
      invariant cache.build == build && Inv(cache.disk, build) && fresh(cache)
      invariant |trace| == i + 1 && trace[i] == cache.disk && Forward(trace, build)
    {
      hide Forward;
      cache.budget := history[i].1;
      match history[i].0 {
        case Execute(attempt, identity, built, device, inode, world) =>
          var _ := ExecuteBuild(cache, attempt, identity, built, device, inode, world);
        case Cleanup =>
          var _ := cache.CleanupBuild();
        case Inspect =>
          var _ := cache.InspectLocked();
      }
      ForwardGrows(trace, cache.disk, build);
      trace := trace + [cache.disk];
    }
    AttestationSafety(cache.disk, build);
  }

  // ------------------------------------------------------------- lemmas

  /** Writing an unfinished attempt's own evidence, or registering a new one, keeps the invariant. */
  lemma DraftKeeps(before: Disk, after: Disk, build: BuildId, attempt: AttemptId)
    requires Inv(before, build) && attempt !in before.attempts
    requires attempt in after.active && after == before.(active := before.active[attempt := after.active[attempt]])
    requires attempt in before.active && before.active[attempt].provenance.Some? ==>
      after.active[attempt].provenance == before.active[attempt].provenance
    ensures Inv(after, build) && Keeps(before, after) && Logical(after) == Logical(before)
  {
    hide JournalInv;
    JournalFrame(before, after, build);
  }

  lemma FinalizedKeeps(before: Disk, build: BuildId, attempt: AttemptId, outcome: AttemptOutcome, result: Option<BuildId>)
    requires Inv(before, build) && attempt in before.active
    ensures var after := Finalized(before, attempt, outcome, result);
      Inv(after, build) && Keeps(before, after) && Logical(after) == Logical(before)
  {
    var after := Finalized(before, attempt, outcome, result);
    hide JournalInv, Settled;
    JournalFrame(before, after, build);
    FinalizedSettled(before, Logical(before), attempt, outcome, result);
  }

  lemma FinalizedSettled(before: Disk, logical: Option<Registry>, attempt: AttemptId, outcome: AttemptOutcome, result: Option<BuildId>)
    requires Settled(before, logical) && AttemptsOk(before) && attempt in before.active
    ensures var after := Finalized(before, attempt, outcome, result);
      Settled(after, logical) && AttemptsOk(after)
  {
  }

  /** Before the first publication nothing is attested; a rehydration starts from an attested build. */
  lemma AttestedIffPublished(d: Disk, build: BuildId, attempt: AttemptId, rehydrate: bool)
    requires Inv(d, build) && Begun(d, attempt, rehydrate)
    ensures if rehydrate then d.attestation.Some? else d.attestation.None?
    ensures rehydrate ==> Logical(d).value.bindings.canonical.Some? && Logical(d).value.bindings.canonical.value.build == build
  {
    RegistryBuild(d, build);
  }

  lemma FoundIsReady(d: Disk, build: BuildId, identity: Identity, lookup: CacheLookup)
    requires Inv(d, build) && LookupMeans(d, build, identity, lookup)
    ensures lookup.classification.Hit? ==>
      && lookup.canonical.Some?
      && OutputReady(d, build, identity, BuildOutput(lookup.canonical.value, if lookup.needsAttestation then Recovered else CacheHit))
    ensures lookup.classification.Rehydrate? ==> lookup.canonical.Some?
  {
    if Logical(d).Some? {
      BoundPair(d, build, Logical(d).value);
    }
  }

  lemma CanonicalIsAuthentic(d: Disk, build: BuildId, c: Record)
    requires Inv(d, build) && Logical(d).Some? && Logical(d).value.bindings.canonical == Some(c)
    ensures PairIntact(d, c) && c.build == build
    ensures d.attestation.Some? ==> Authentic(d, c, d.attestation.value)
  {
    BoundPair(d, build, Logical(d).value);
  }

  /** On a reachable disk a hit survives its own revalidation exactly when what was rehashed of the
      materialization equals what was rehashed of the canonical producer's; inspections may differ. */
  lemma HitSurvivesIffSameObservations(d: Disk, build: BuildId, identity: Identity, lookup: CacheLookup)
    requires Inv(d, build) && LookupMeans(d, build, identity, lookup) && lookup.classification.Hit?
    ensures lookup.canonical.Some? && d.evidence.Some?
    ensures d.evidence.value.artifacts.setId == lookup.canonical.value.artifacts.setId
    ensures Revalidates(d, lookup) <==> d.evidence.value.artifacts.Rehashed() == lookup.canonical.value.artifacts.Rehashed()
  {
    BoundPair(d, build, Logical(d).value);
  }
}
