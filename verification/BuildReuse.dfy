/** Reusing a rehydrated build: when a later invocation accepts it, over whole runs. */
module BuildReuse {
  import opened Outcomes
  import opened BuildJournal
  import opened BuildInvariant
  import opened BuildSteps
  import opened BuildCache
  import opened BuildDriver

  const CALM := World(false, false, false, false, false, [])

  /** A build, its cleanup and a rehydration, each by its own process on a calm machine. The second
      capture has the artifact set of the first. `stopped` when a process ran out of its disk steps. */
  method Rehydrated(build: BuildId, identity: Identity, first: Artifacts, second: Artifacts, budgets: (nat, nat, nat))
    returns (cache: BuildCache, stopped: bool)
    requires second.setId == first.setId
    ensures fresh(cache) && cache.build == build && Inv(cache.disk, build)
    ensures !stopped ==> RehydratedBuild(cache.disk, build, identity, first, second)
    ensures stopped ==> cache.budget == 0
  {
    hide JournalInv, Settled;
    cache := new BuildCache(build);
    cache.budget := budgets.0;
    var built := ExecuteBuild(cache, 1, identity, first, 0, 0, CALM);
    if built.Crashed? {
      return cache, true;
    }
    assert built == Done(BuildOutput(Record(build, 1, identity, first), Built));
    PresentIsInspectable(cache.disk, build, built.value.canonical);
    ghost var present := cache.disk;
    cache.budget := budgets.1;
    var cleaned := cache.CleanupBuild();
    if cleaned.Crashed? {
      return cache, true;
    }
    CleanedNow(present, cache.disk, build, built.value.canonical);
    cache.budget := budgets.2;
    var rebuilt := ExecuteBuild(cache, 2, identity, second, 0, 1, CALM);
    if rebuilt.Crashed? {
      return cache, true;
    }
    assert rebuilt == Done(BuildOutput(built.value.canonical, BuildJournal.Rehydrated));
    PresentIsInspectable(cache.disk, build, built.value.canonical);
    return cache, false;
  }

  /** Present, attested, bound to the first build's record and materialized by the second capture. */
  predicate RehydratedBuild(d: Disk, build: BuildId, identity: Identity, first: Artifacts, second: Artifacts) {
    && Logical(d).Some? && Logical(d).value.state.Present?
    && Logical(d).value.bindings.canonical == Some(Record(build, 1, identity, first))
    && Captured(d, second) && d.attestation.Some?
    && d.attempts.Keys == {1, 2} && d.active == map[]
  }

  lemma PresentIsInspectable(d: Disk, build: BuildId, c: Record)
    requires Inv(d, build) && Logical(d).Some? && Logical(d).value.state.Present?
    requires PairIntact(d, c) && d.attestation.Some?
    ensures InspectableNow(d) && Logical(d).value.bindings.canonical == Some(c)
  {
    BoundPair(d, build, Logical(d).value);
    hide JournalInv;
  }

  lemma CleanedNow(before: Disk, after: Disk, build: BuildId, c: Record)
    requires Inv(after, build) && CanonicalKept(before, after)
    requires Logical(before).Some? && Logical(before).value.bindings.canonical == Some(c)
    requires Logical(after).Some? && Logical(after).value.state.Cleaned?
    ensures Logical(after).value.bindings.canonical == Some(c)
  {
  }

  /** A third invocation reuses the rehydrated build if and only if the second capture rehashes to what
      the first one does: its inspections may differ, its CMake cache, compile database and capture
      tools may not. */
  method ReuseRehydrated(build: BuildId, identity: Identity, first: Artifacts, second: Artifacts, third: Artifacts,
      budgets: (nat, nat, nat), budget: nat)
    returns (cache: BuildCache, stopped: bool, r: Outcome<BuildOutput>)
    requires second.setId == first.setId
    ensures fresh(cache) && (stopped ==> cache.budget == 0)
    ensures !stopped ==>
      if second.Rehashed() == first.Rehashed() then r == Done(BuildOutput(Record(build, 1, identity, first), CacheHit)) else r == Raised
  {
    hide JournalInv, Settled;
    r := Raised;
    cache, stopped := Rehydrated(build, identity, first, second, budgets);
    if stopped {
      return;
    }
    cache.budget := budget;
    r := ExecuteBuild(cache, 3, identity, third, 0, 2, CALM);
    stopped := r.Crashed?;
  }

  /** A build whose root is made but not marked, because writing the marker fails, closes its attempt as
      failed, and after that no invocation ever obtains the build: recovery refuses the unmarked root. */
  method UnmarkedRootBlocks(build: BuildId, identity: Identity, built: Artifacts, budget: nat, later: seq<(World, nat)>)
    returns (cache: BuildCache, stopped: bool)
    ensures fresh(cache) && cache.build == build && Inv(cache.disk, build) && (stopped ==> cache.budget == 0)
    ensures !stopped ==>
      && Unrecoverable(cache.disk) && (forall i: nat :: i in cache.disk.attempts <==> i <= |later|)
      && forall i | i in cache.disk.attempts :: cache.disk.attempts[i].outcome.Failed?
  {
    hide JournalInv, Settled;
    cache := new BuildCache(build);
    cache.budget := budget;
    var first := ExecuteBuild(cache, 0, identity, built, 0, 0, CALM.(markFails := true));
    if first.Crashed? {
      return cache, true;
    }
    assert first.Raised?;
    for i := 0 to |later|
      invariant fresh(cache) && cache.build == build && Inv(cache.disk, build) && Unrecoverable(cache.disk) && cache.disk.active == map[]
      invariant forall k: nat :: k in cache.disk.attempts <==> k <= i
      invariant forall k | k in cache.disk.attempts :: cache.disk.attempts[k].outcome.Failed?
    {
      ghost var before := cache.disk;
      cache.budget := later[i].1;
      var next := ExecuteBuild(cache, i + 1, identity, built, 0, i + 1, later[i].0);
      if next.Crashed? {
        return cache, true;
      }
      assert next.Raised?;
      forall k | k in cache.disk.attempts
        ensures cache.disk.attempts[k].outcome.Failed?
      {
        assert k in before.attempts || k == i + 1;
      }
    }
    return cache, false;
  }

  // ------------------------------------------------ one such disk, spelled out

  /** A completed transition of a journal with nothing to reconcile. */
  function Enter(d: Disk, build: BuildId, attempt: AttemptId, state: State, asked: Bindings): Disk {
    var event := NextEvent(d.current, build, attempt, state, asked);
    d.(events := d.events[event.sequence := event], current := Some(RegistryOf(event)))
  }

  /** The journal is sound and reconciled. */
  predicate Quiet(d: Disk, build: BuildId) {
    JournalInv(d, build) && d.temps == [] && Logical(d) == d.current
  }

  /** The last event says this. */
  predicate Stands(d: Disk, build: BuildId, attempt: AttemptId, state: State, bindings: Bindings) {
    && d.current.Some? && d.current.value.build == build && d.current.value.attempt == attempt
    && d.current.value.state == state && d.current.value.bindings == bindings
    && d.current.value.last.to == state && d.current.value.last.bindings == bindings
    && d == EMPTY_DISK.(events := d.events, current := d.current)
  }

  lemma Entered(d: Disk, build: BuildId, attempt: AttemptId, state: State, asked: Bindings)
    requires Quiet(d, build) && Legal(StateOf(d.current), state) && NextBinds(d.current, build, attempt, state, asked)
    requires d == EMPTY_DISK.(events := d.events, current := d.current)
    ensures var e, event := Enter(d, build, attempt, state, asked), NextEvent(d.current, build, attempt, state, asked);
      Quiet(e, build) && TransitionImage(d, e, build, event, Done(RegistryOf(event)))
    ensures Stands(Enter(d, build, attempt, state, asked), build, attempt, state,
      CarryAll(asked, if d.current.None? then NOTHING else d.current.value.bindings))
  {
    var event := NextEvent(d.current, build, attempt, state, asked);
    LoadTolerates(d, build);
    Appended(d, build, event, Reconciled(d).(events := d.events[event.sequence := event]));
  }

  function FirstEvidence(build: BuildId, c: Record): Evidence {
    Evidence(build, 1, c, c.artifacts)
  }

  const ROOTED := Bindings(None, None, None, Some(0), Some(0))

  /** Attempt 1 builds, binds, publishes and presents. */
  function FirstJournal(build: BuildId, c: Record): Disk {
    var d := Enter(EMPTY_DISK, build, 1, Building, NOTHING);
    var d := Enter(d, build, 1, Building, ROOTED);
    var d := Enter(d, build, 1, Publishing, ROOTED.(staging := Some(c)));
    Enter(d, build, 1, Present, Bindings(Some(c), Some(c), Some(FirstEvidence(build, c)), Some(0), Some(0)))
  }

  /** The build is cleaned, and attempt 2 rehydrates, binds and presents its own capture. */
  function Journal(build: BuildId, c: Record, second: Artifacts): Disk {
    var d := FirstJournal(build, c);
    var d := Enter(d, build, 1, Cleaning, ROOTED.(canonical := Some(c)));
    var d := Enter(d, build, 1, Cleaned, NOTHING.(canonical := Some(c)));
    var d := Enter(d, build, 2, State.Rehydrating, NOTHING);
    var d := Enter(d, build, 2, State.Rehydrating, ROOTED.(inode := Some(1)));
    Enter(d, build, 2, Present, Bindings(Some(c), None, Some(Evidence(build, 2, c, second)), Some(0), Some(1)))
  }

  lemma FirstQuiet(build: BuildId, c: Record)
    ensures var d := FirstJournal(build, c);
      && Quiet(d, build)
      && Stands(d, build, 1, Present, Bindings(Some(c), Some(c), Some(FirstEvidence(build, c)), Some(0), Some(0)))
  {
    EmptyIsQuiet(build);
    hide Quiet, Enter, TransitionImage;
    Entered(EMPTY_DISK, build, 1, Building, NOTHING);
    var d := Enter(EMPTY_DISK, build, 1, Building, NOTHING);
    Entered(d, build, 1, Building, ROOTED);
    d := Enter(d, build, 1, Building, ROOTED);
    Entered(d, build, 1, Publishing, ROOTED.(staging := Some(c)));
    d := Enter(d, build, 1, Publishing, ROOTED.(staging := Some(c)));
    Entered(d, build, 1, Present, Bindings(Some(c), Some(c), Some(FirstEvidence(build, c)), Some(0), Some(0)));
  }

  lemma JournalQuiet(build: BuildId, c: Record, second: Artifacts)
    ensures var d := Journal(build, c, second);
      && Quiet(d, build)
      && Stands(d, build, 2, Present, Bindings(Some(c), Some(c), Some(Evidence(build, 2, c, second)), Some(0), Some(1)))
  {
    FirstQuiet(build, c);
    hide FirstJournal, Quiet, Enter, TransitionImage;
    var d := FirstJournal(build, c);
    Entered(d, build, 1, Cleaning, ROOTED.(canonical := Some(c)));
    d := Enter(d, build, 1, Cleaning, ROOTED.(canonical := Some(c)));
    Entered(d, build, 1, Cleaned, NOTHING.(canonical := Some(c)));
    d := Enter(d, build, 1, Cleaned, NOTHING.(canonical := Some(c)));
    Entered(d, build, 2, State.Rehydrating, NOTHING);
    d := Enter(d, build, 2, State.Rehydrating, NOTHING);
    Entered(d, build, 2, State.Rehydrating, ROOTED.(inode := Some(1)));
    d := Enter(d, build, 2, State.Rehydrating, ROOTED.(inode := Some(1)));
    Entered(d, build, 2, Present, Bindings(Some(c), None, Some(Evidence(build, 2, c, second)), Some(0), Some(1)));
  }

  lemma EmptyIsQuiet(build: BuildId)
    ensures Quiet(EMPTY_DISK, build)
  {
  }

  function Attempt(c: Record, attempt: AttemptId): AttemptRecord {
    var class_ := if attempt == c.producer then Built else ExecutionClass.Rehydrated;
    AttemptRecord(attempt, Success, Some(c.build),
      Draft(if attempt == c.producer then Some(ExpectedProvenance(c)) else None, Some(BuildResult(c.build, c, class_, c.artifacts.setId))))
  }

  /** The whole disk then: both attempts succeeded, the first one attested. */
  function RehydratedDisk(build: BuildId, c: Record, second: Artifacts): Disk {
    Journal(build, c, second).(
      evidence := Some(Evidence(build, 2, c, second)), staging := map[1 := Some(c)],
      record := Some(c), index := Some(IndexOf(c)),
      attestation := Some(Attestation(build, c, 1, Built, c.artifacts.setId, Attempt(c, 1), Attempt(c, 1))),
      root := Some(Root(0, 1, Some(Owner(2, build, 0, 1)), Some(second.Rehashed()))),
      active := map[], attempts := map[1 := Attempt(c, 1), 2 := Attempt(c, 2)])
  }

  /** The files agree with a registry that presents the second capture. */
  lemma FilesAgree(d: Disk, build: BuildId, c: Record, second: Artifacts, registry: Registry)
    requires c.build == build && c.producer == 1 && second.setId == c.artifacts.setId
    requires d == RehydratedDisk(build, c, second)
    requires registry.build == build && registry.attempt == 2 && registry.state.Present?
    requires registry.bindings == Bindings(Some(c), Some(c), Some(Evidence(build, 2, c, second)), Some(0), Some(1))
    ensures Settled(d, Some(registry)) && AttemptsOk(d)
  {
    hide Journal;
    assert PresentSound(d, registry);
    assert Authentic(d, c, d.attestation.value);
  }

  /** The disk satisfies the invariant and is what `Rehydrated` ends with. */
  lemma RehydratedDiskSound(build: BuildId, identity: Identity, first: Artifacts, second: Artifacts)
    requires second.setId == first.setId
    ensures var d := RehydratedDisk(build, Record(build, 1, identity, first), second);
      Inv(d, build) && RehydratedBuild(d, build, identity, first, second)
  {
    var c := Record(build, 1, identity, first);
    JournalQuiet(build, c, second);
    hide Journal, Settled, AttemptsOk;
    var d := RehydratedDisk(build, c, second);
    JournalFrame(Journal(build, c, second), d, build);
    hide JournalInv;
    FilesAgree(d, build, c, second, d.current.value);
  }

  /** A cache hit is promised to check the root against its own materialization. Whenever the second
      capture rehashes differently there is an attested hit on a sound disk that reuse refuses. */
  lemma RehydratedHitIsRefused(build: BuildId, identity: Identity, first: Artifacts, second: Artifacts)
    returns (d: Disk, lookup: CacheLookup)
    requires second.setId == first.setId && second.Rehashed() != first.Rehashed()
    ensures Inv(d, build) && RehydratedBuild(d, build, identity, first, second)
    ensures LookupMeans(d, build, identity, lookup) && lookup.classification.Hit? && !lookup.needsAttestation
    ensures lookup.canonical.Some? && !Revalidates(d, lookup)
  {
    var c := Record(build, 1, identity, first);
    d := RehydratedDisk(build, c, second);
    RehydratedDiskSound(build, identity, first, second);
    JournalQuiet(build, c, second);
    hide Journal, JournalInv;
    lookup := CacheLookup(Hit, Some(c), Some(Owner(2, build, 0, 1)), false);
  }
}
