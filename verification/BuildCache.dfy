/** The materialization cache of one build ID: journal, lookup, publication, recovery, cleanup
    and attestation, one disk step at a time. */
module BuildCache {
  import opened Outcomes
  import opened BuildJournal
  import opened BuildInvariant
  import opened BuildSteps

  class BuildCache {
    const build: BuildId
    var disk: Disk
    /** Disk steps this process still completes before it stops. */
    var budget: nat

    constructor (build: BuildId)
      ensures this.build == build && disk == EMPTY_DISK && Inv(disk, build)
    {
      this.build := build;
      disk := EMPTY_DISK;
      budget := 0;
    }

    /** One atomic disk step. */
    method Write(next: Disk) returns (r: Outcome<()>)
      modifies this
      ensures r == if old(budget) == 0 then Crashed else Done(())
      ensures r.Done? ==> disk == next && budget == old(budget) - 1
      ensures r.Crashed? ==> disk == old(disk) && budget == 0
    {
      if budget == 0 {
        return Crashed;
      }
      budget := budget - 1;
      disk := next;
      return Done(());
    }

    // -------------------------------------------------------------- journal

    /** Load the registry, removing one tolerated writer temp and adopting one orphan event. */
    method LoadRegistry() returns (r: Outcome<Option<Registry>>)
      modifies this
      ensures budget <= old(budget) && (r.Crashed? ==> budget == 0)
      ensures r.Done? ==>
        && TempTolerated(old(disk)) && OrphanTolerated(old(disk), build)
        && r.value == Logical(old(disk)) && disk == Reconciled(old(disk))
      ensures r.Raised? ==> !(TempTolerated(old(disk)) && OrphanTolerated(old(disk), build))
      ensures !r.Done? ==> disk == old(disk) || (TempTolerated(old(disk)) && disk == old(disk).(temps := []))
      ensures JournalInv(old(disk), build) ==>
        !r.Raised? && JournalInv(disk, build) && Logical(disk) == Logical(old(disk))
    {
      var registry := disk.current;
      if |disk.temps| > 1 {
        return Raised;
      }
      if |disk.temps| == 1 {
        var temp := disk.temps[0];
        if temp.sequence in disk.events {
          if temp.payload != Some(disk.events[temp.sequence]) {
            return Raised;
          }
        } else if temp.sequence != NextSequence(registry) {
          return Raised;
        }
        var _ :- Write(disk.(temps := []));
      }
      var next := NextSequence(registry);
      if next !in disk.events {
        return Done(registry);
      }
      var event := disk.events[next];
      assert JournalInv(old(disk), build) ==> GoodEvent(old(disk).events, build, next);
      if !Links(event, build, next, LastEvent(registry), StateOf(registry)) || !Legal(StateOf(registry), event.to) {
        return Raised;
      }
      var reconciled := RegistryOf(event);
      var _ :- Write(disk.(current := Some(reconciled)));
      return Done(Some(reconciled));
    }

    /** What linking means for one event of a contiguous chain. */
    static lemma LinkMeans(events: map<nat, Event>, build: BuildId, n: nat, i: nat)
      requires events.Keys == Range(n) && 1 <= i <= n
      ensures i in events && (i > 1 ==> i - 1 in events)
      ensures LinkAt(events, build, i) <==>
        (var previous := if i == 1 then None else Some(events[i - 1]);
         var from := if i == 1 then None else Some(events[i - 1].to);
         Links(events[i], build, i, previous, from) && Legal(from, events[i].to))
    {
      hide Legal, Links;
      assert i in Range(n) && (i > 1 ==> i - 1 in Range(n));
    }

    static lemma KeysMean(events: map<nat, Event>, n: nat)
      requires events.Keys == Range(n)
      ensures forall i | i in events :: 1 <= i <= n
    {
      assert forall i | i in events :: i in Range(n);
    }

    static lemma LastMeans(events: map<nat, Event>, build: BuildId, n: nat)
      requires n in events && LinkAt(events, build, n)
      ensures events[n].build == build && events[n].sequence == n
    {
    }

    /** Accept exactly the contiguous, linked, legal chain that ends in the registry. */
    method VerifyEventChain(registry: Registry) returns (accepted: bool)
      ensures accepted <==> ChainAccepted(disk.events, registry)
    {
      hide Legal, Links, LinkAt, Before, Range;
      var events := disk.events;
      if events.Keys != Range(registry.sequence) {
        return false;
      }
      KeysMean(events, registry.sequence);
      var previous: Option<Event> := None;
      var state: Option<State> := None;
      var sequence := 1;
      while sequence <= registry.sequence
        invariant 1 <= sequence <= registry.sequence + 1
        invariant forall i | i in events && i < sequence :: LinkAt(events, registry.build, i)
        invariant previous == if sequence == 1 then None else Some(events[sequence - 1])
        invariant state == if sequence == 1 then None else Some(events[sequence - 1].to)
      {
        LinkMeans(events, registry.build, registry.sequence, sequence);
        var event := events[sequence];
        assert LinkAt(events, registry.build, sequence) <==>
          Links(event, registry.build, sequence, previous, state) && Legal(state, event.to);
        if !Links(event, registry.build, sequence, previous, state) || !Legal(state, event.to) {
          return false;
        }
        previous := Some(event);
        state := Some(event.to);
        sequence := sequence + 1;
      }
      if previous.None? {
        return false;
      }
      var terminal := previous.value;
      LinkMeans(events, registry.build, registry.sequence, registry.sequence);
      LastMeans(events, registry.build, registry.sequence);
      accepted :=
        && terminal == registry.last && state == Some(registry.state)
        && terminal.attempt == registry.attempt && terminal.bindings == registry.bindings;
      assert accepted <==> registry == RegistryOf(terminal);
    }

    /** Load, reconcile and verify: the only way a registry is trusted for reuse. */
    method LoadVerifiedRegistry() returns (r: Outcome<Option<Registry>>)
      modifies this
      ensures budget <= old(budget) && (r.Crashed? ==> budget == 0)
      ensures SameFiles(old(disk), disk)
      ensures r.Done? ==>
        && TempTolerated(old(disk)) && OrphanTolerated(old(disk), build)
        && r.value == Logical(old(disk)) && disk == Reconciled(old(disk))
        && (r.value.Some? ==>
              ChainAccepted(disk.events, r.value.value) && Ready(disk, r.value.value) && r.value.value.build == build)
      ensures JournalInv(old(disk), build) ==>
        !r.Raised? && JournalInv(disk, build) && Logical(disk) == Logical(old(disk))
      ensures Inv(old(disk), build) ==> Inv(disk, build)
    {
      var loaded := LoadRegistry();
      LoadKeeps(old(disk), disk, build);
      if !loaded.Done? {
        return if loaded.Raised? then Raised else Crashed;
      }
      hide Inv, SameFiles;
      var registry := loaded.value;
      if registry.Some? {
        ghost var before := old(disk);
        if JournalInv(before, build) {
          JournalAccepted(before, build);
        }
        var accepted := VerifyEventChain(registry.value);
        // The journal directory is per build: a chain of another build is not modelled further.
        if !accepted || registry.value.build != build {
          return Raised;
        }
      }
      return Done(registry);
    }

    /** Publish one event: torn temp, whole temp, no-replace rename. */
    method PublishEvent(event: Event) returns (r: Outcome<()>)
      requires disk.temps == []
      modifies this
      ensures budget <= old(budget) && (r.Crashed? ==> budget == 0)
      ensures r.Done? ==>
        event.sequence !in old(disk).events && disk == old(disk).(events := old(disk).events[event.sequence := event])
      ensures r.Raised? ==> event.sequence in old(disk).events && disk == old(disk)
      ensures r.Crashed? ==>
        || disk == old(disk)
        || disk == old(disk).(temps := [Temp(event.sequence, None)])
        || disk == old(disk).(temps := [Temp(event.sequence, Some(event))])
    {
      var _ :- Write(disk.(temps := [Temp(event.sequence, None)]));
      var _ :- Write(disk.(temps := [Temp(event.sequence, Some(event))]));
      if event.sequence in disk.events {
        var _ :- Write(disk.(temps := []));
        return Raised;
      }
      var _ :- Write(disk.(temps := [], events := disk.events[event.sequence := event]));
      return Done(());
    }

    /** Append the next event, then replace the projection. */
    method AppendNext(attempt: AttemptId, state: State, asked: Bindings) returns (r: Outcome<Registry>)
      modifies this
      ensures budget <= old(budget) && (r.Crashed? ==> budget == 0)
      ensures TransitionImage(old(disk), disk, build, NextEvent(Logical(old(disk)), build, attempt, state, asked), r)
    {
      var previous :- LoadRegistry();
      var from := StateOf(previous);
      if !Legal(from, state) {
        return Raised;
      }
      var event := NextEvent(previous, build, attempt, state, asked);
      var _ :- PublishEvent(event);
      var registry := RegistryOf(event);
      var _ :- Write(disk.(current := Some(registry)));
      return Done(registry);
    }

    /** A transition, with what it means for the journal. */
    method Transition(attempt: AttemptId, state: State, asked: Bindings) returns (r: Outcome<Registry>)
      modifies this
      ensures budget <= old(budget) && (r.Crashed? ==> budget == 0)
      ensures TransitionImage(old(disk), disk, build, NextEvent(Logical(old(disk)), build, attempt, state, asked), r)
      ensures SameFiles(old(disk), disk)
      ensures old(disk).current.Some? && Ready(old(disk), old(disk).current.value) ==>
        && (r.Raised? ==> disk == old(disk) && !Legal(Some(old(disk).current.value.state), state))
        && (r.Done? ==> Ready(disk, r.value) && Legal(Some(old(disk).current.value.state), state))
      ensures JournalInv(old(disk), build) && NextBinds(Logical(old(disk)), build, attempt, state, asked) ==>
        Moved(old(disk), disk, build, NextEvent(Logical(old(disk)), build, attempt, state, asked), r)
      ensures
        && Inv(old(disk), build) && NextBinds(Logical(old(disk)), build, attempt, state, asked)
        && Settled(old(disk), Some(RegistryOf(NextEvent(Logical(old(disk)), build, attempt, state, asked))))
        ==> Inv(disk, build)
    {
      r := AppendNext(attempt, state, asked);
      TransitionKeeps(old(disk), disk, build, attempt, state, asked, r);
    }

    // ---------------------------------------------------- recovery

    /** Remove a tree: its contents vanish in any order before the directory does. */
    method RemoveTree() returns (r: Outcome<()>)
      modifies this
      ensures budget <= old(budget) && (r.Crashed? ==> budget == 0)
      ensures !r.Raised? && disk == old(disk).(root := disk.root)
      ensures r.Done? ==> disk.root.None?
    {
      var partial: Root := *;
      var _ :- Write(disk.(root := Some(partial)));
      var _ :- Write(disk.(root := None));
      return Done(());
    }

    /** Publish the record and then its index; an equal existing file is accepted. */
    method PublishCanonical(record: Record) returns (r: Outcome<()>)
      modifies this
      ensures budget <= old(budget) && (r.Crashed? ==> budget == 0)
      ensures disk == old(disk).(record := disk.record, index := disk.index)
      ensures disk.record == old(disk).record || (old(disk).record.None? && disk.record == Some(record))
      ensures disk.index == old(disk).index || (old(disk).index.None? && PairIntact(disk, record))
      ensures r.Done? ==> PairIntact(disk, record)
      ensures r.Raised? ==>
        || (old(disk).record.Some? && old(disk).record != Some(record))
        || (old(disk).index.Some? && old(disk).index != Some(IndexOf(record)))
      ensures r.Raised? && old(disk).record.Some? ==> disk == old(disk)
    {
      if disk.record.Some? {
        if disk.record != Some(record) {
          return Raised;
        }
      } else {
        var _ :- Write(disk.(record := Some(record)));
      }
      if disk.index.Some? {
        if disk.index != Some(IndexOf(record)) {
          return Raised;
        }
      } else {
        var _ :- Write(disk.(index := Some(IndexOf(record))));
      }
      return Done(());
    }

    /** Move to Discarding, unless an interrupted discard is already there. */
    method EnterDiscarding(registry: Registry, bindings: Bindings) returns (r: Outcome<Registry>)
      requires Ready(disk, registry)
      requires registry.state in {Building, Rehydrating, Discarding, Publishing}
      requires bindings.canonical == registry.bindings.canonical
      modifies this
      ensures budget <= old(budget) && (r.Crashed? ==> budget == 0)
      ensures !r.Raised? && SameFiles(old(disk), disk)
      ensures r.Done? ==>
        && Ready(disk, r.value) && r.value.state.Discarding?
        && r.value.bindings.canonical == registry.bindings.canonical && r.value.attempt == registry.attempt
      ensures Inv(old(disk), build) && !registry.state.Publishing? ==> Inv(disk, build)
    {
      if registry.state.Discarding? {
        return Done(registry);
      }
      ReadyIsLogical(disk, registry);
      if Inv(disk, build) && !registry.state.Publishing? {
        DiscardingNext(disk, build, registry, bindings);
      }
      hide JournalInv, Settled, Ready, NextBinds;
      r := Transition(registry.attempt, Discarding, bindings);
    }

    /** Remove the root of a discarded materialization and settle where its binding says. */
    method FinishDiscard(registry: Registry, destination: State) returns (r: Outcome<Registry>)
      requires Ready(disk, registry) && registry.state.Discarding?
      requires destination == if registry.bindings.canonical.Some? then Cleaned else Vacant
      modifies this
      ensures budget <= old(budget) && (r.Crashed? ==> budget == 0)
      ensures !r.Raised? && SameFiles(old(disk).(root := disk.root), disk)
      ensures old(disk).root.None? ==> disk.root.None?
      ensures r.Done? ==> disk.root.None? && Ready(disk, r.value) && r.value.state == destination && r.value.attempt == registry.attempt
      ensures r.Done? ==> r.value.bindings.canonical == registry.bindings.canonical
      ensures Inv(old(disk), build) ==> Inv(disk, build)
    {
      ghost var before := disk;
      if disk.root.Some? {
        r := RemoveTreeOf(registry);
        if !r.Done? {
          return r;
        }
      }
      ReadyIsLogical(disk, registry);
      if Inv(before, build) {
        DiscardedNext(disk, build, registry, destination);
      }
      hide JournalInv, Settled, Ready, NextBinds;
      r := Transition(registry.attempt, destination, NOTHING.(canonical := registry.bindings.canonical));
    }

    /** Remove the root while the journal says it is being discarded or cleaned. */
    method RemoveTreeOf(registry: Registry) returns (r: Outcome<Registry>)
      requires Ready(disk, registry) && (registry.state.Discarding? || registry.state.Cleaning?)
      modifies this
      ensures budget <= old(budget) && (r.Crashed? ==> budget == 0)
      ensures !r.Raised? && disk == old(disk).(root := disk.root) && Ready(disk, registry)
      ensures r.Done? ==> r.value == registry && disk.root.None?
      ensures Inv(old(disk), build) ==> Inv(disk, build)
    {
      ghost var before := disk;
      ReadyIsLogical(disk, registry);
      var removed := RemoveTree();
      if Inv(before, build) {
        RootIsFree(before, disk, build, registry);
      }
      if removed.Crashed? {
        return Crashed;
      }
      return Done(registry);
    }

    /** Discard an uncommitted materialization: Discarding, remove the owned root, then Vacant, or
        Cleaned when a canonical digest is bound. */
    method Discard(registry: Registry) returns (r: Outcome<Registry>)
      requires Ready(disk, registry) && registry.build == build
      requires registry.state in {Building, Rehydrating, Discarding, Publishing}
      modifies this
      ensures budget <= old(budget) && (r.Crashed? ==> budget == 0)
      ensures FailClosed(old(disk), disk, registry, r)
      ensures Inv(old(disk), build) && !registry.state.Publishing? ==> RecoveryOk(old(disk), disk, build, registry, r)
    {
      ReadyIsLogical(disk, registry);
      if Inv(disk, build) {
        BoundPair(disk, build, registry);
      }
      hide JournalInv, Settled, Ready, OwnerMatches;
      var destination := Vacant;
      if registry.bindings.canonical.Some? {
        if LoadCanonicalPair(disk, build) != Done(registry.bindings.canonical) {
          return Raised;
        }
        destination := Cleaned;
      }
      var bindings := NOTHING.(canonical := registry.bindings.canonical);
      if disk.root.Some? {
        if !OwnerMatches(disk.root, registry) {
          return Raised;
        }
        bindings := bindings.(device := registry.bindings.device, inode := registry.bindings.inode);
      }
      var discarding :- EnterDiscarding(registry, bindings);
      r := FinishDiscard(discarding, destination);
      if r.Done? {
        ReadyIsLogical(disk, r.value);
      }
    }

    /** Finish an interrupted publication of `record` from its owned, intact root. */
    method CompletePublishing(registry: Registry, record: Record) returns (r: Outcome<Registry>)
      requires Ready(disk, registry) && registry.build == build && registry.state.Publishing?
      requires record.build == build && record.producer == registry.attempt && registry.bindings.staging == Some(record)
      requires disk.record.None? ==> disk.index.None?
      requires disk.record.Some? ==> disk.record == Some(record)
      modifies this
      ensures budget <= old(budget) && (r.Crashed? ==> budget == 0)
      ensures FailClosed(old(disk), disk, registry, r)
      ensures CompletionImage(old(disk), disk, build, registry, record, r)
    {
      if !OwnerMatches(disk.root, registry) || disk.root.value.tree != Some(record.artifacts.Rehashed()) {
        return Raised;
      }
      var _ :- PublishCanonical(record);
      var evidence := Evidence(build, registry.attempt, record, record.artifacts);
      var _ :- Write(disk.(evidence := Some(evidence)));
      ReadyIsLogical(disk, registry);
      r := Transition(registry.attempt, Present, PresentBindings(registry, record, evidence));
    }

    /** Finish an interrupted cleanup, after checking that the canonical pair is still there. */
    method FinishCleaning(registry: Registry) returns (r: Outcome<Registry>)
      requires Ready(disk, registry) && registry.build == build && registry.state.Cleaning?
      modifies this
      ensures budget <= old(budget) && (r.Crashed? ==> budget == 0)
      ensures FailClosed(old(disk), disk, registry, r)
      ensures Inv(old(disk), build) ==> RecoveryOk(old(disk), disk, build, registry, r)
    {
      ghost var before := disk;
      ReadyIsLogical(disk, registry);
      if Inv(disk, build) {
        BoundPair(disk, build, registry);
      }
      var canonical := LoadCanonicalPair(disk, build);
      if !canonical.Done? || canonical.value.None? || canonical.value != registry.bindings.canonical {
        return Raised;
      }
      if disk.root.Some? {
        if !OwnerMatches(disk.root, registry) {
          return Raised;
        }
        r := RemoveTreeOf(registry);
        if !r.Done? {
          return r;
        }
      }
      r := MarkCleaned(registry);
    }

    method MarkCleaned(registry: Registry) returns (r: Outcome<Registry>)
      requires Ready(disk, registry) && registry.build == build && registry.state.Cleaning? && disk.root.None?
      modifies this
      ensures budget <= old(budget) && (r.Crashed? ==> budget == 0)
      ensures !r.Raised? && SameFiles(old(disk), disk)
      ensures r.Done? ==> r.value.state.Cleaned? && Ready(disk, r.value) && Logical(disk) == Some(r.value) && r.value.attempt == registry.attempt
      ensures r.Done? ==> r.value.bindings.canonical == registry.bindings.canonical
      ensures Inv(old(disk), build) ==> Inv(disk, build)
    {
      ReadyIsLogical(disk, registry);
      if Inv(disk, build) {
        CleanedNext(disk, build, registry);
      }
      hide JournalInv, Settled, Ready, NextBinds;
      r := Transition(registry.attempt, Cleaned, NOTHING.(canonical := registry.bindings.canonical));
      if r.Done? {
        ReadyIsLogical(disk, r.value);
      }
    }

    /** Recovery of an interrupted publication. */
    method RecoverPublishing(registry: Registry) returns (r: Outcome<Registry>)
      requires Ready(disk, registry) && registry.build == build && registry.state.Publishing?
      modifies this
      ensures budget <= old(budget) && (r.Crashed? ==> budget == 0)
      ensures FailClosed(old(disk), disk, registry, r)
      ensures Inv(old(disk), build) ==> RecoveryOk(old(disk), disk, build, registry, r)
    {
      ghost var before := disk;
      ReadyIsLogical(disk, registry);
      if Inv(disk, build) {
        PublishingIsStaged(disk, build, registry);
      }
      hide JournalInv, Settled, Ready, OwnerMatches, PublishingOk;
      var loaded := LoadCanonical(disk, build);
      if !loaded.Done? {
        return Raised;
      }
      var staged := disk.record;
      if staged.Some? {
        if staged.value.producer != registry.attempt || registry.bindings.staging != staged {
          return Raised;
        }
      } else {
        if disk.index.Some? {
          return Raised;
        }
        staged := LoadStaged(disk, registry);
      }
      if staged.Some? {
        r := CompletePublishing(registry, staged.value);
        if Inv(before, build) {
          CompletionRecovers(before, disk, build, registry, staged.value, r);
        }
        return r;
      }
      // Nothing was published and nothing usable was staged.
      if disk.root.None? {
        return Raised;
      }
      r := Discard(registry);
    }

    /** Bring an interrupted materialization to Vacant, Cleaned or Present, or refuse. */
    method RecoverIncomplete(registry: Registry) returns (r: Outcome<Registry>)
      requires Ready(disk, registry) && registry.build == build && Recoverable(registry.state)
      modifies this
      ensures budget <= old(budget) && (r.Crashed? ==> budget == 0)
      ensures FailClosed(old(disk), disk, registry, r)
      ensures Inv(old(disk), build) ==> RecoveryOk(old(disk), disk, build, registry, r)
    {
      if registry.state.Publishing? {
        r := RecoverPublishing(registry);
      } else if registry.state.Cleaning? {
        r := FinishCleaning(registry);
      } else {
        r := Discard(registry);
      }
    }

    // ------------------------------------------------------ reuse

    /** Load the verified registry and recover an interrupted materialization. */
    method LoadRecovered() returns (r: Outcome<Option<Registry>>)
      modifies this
      ensures budget <= old(budget) && (r.Crashed? ==> budget == 0)
      ensures RecoveryFrame(old(disk), disk)
      ensures r.Done? ==>
        && r.value == Logical(disk)
        && (r.value.Some? ==> Ready(disk, r.value.value) && !Recoverable(r.value.value.state))
      ensures Inv(old(disk), build) ==>
        && Inv(disk, build)
        && (r.Raised? ==> Unrecoverable(old(disk)) && Unrecoverable(disk))
        && (r.Done? ==> !Unrecoverable(old(disk)) && RecoveredTo(old(disk), disk))
    {
      ghost var before := disk;
      var registry :- LoadVerifiedRegistry();
      if registry.Some? {
        ReadyIsLogical(disk, registry.value);
      }
      hide JournalInv, Settled, Ready, OwnerMatches;
      if registry.None? || !Recoverable(registry.value.state) {
        return Done(registry);
      }
      var recovered :- RecoverIncomplete(registry.value);
      ReadyIsLogical(disk, recovered);
      return Done(Some(recovered));
    }

    /** Classify the build for one invocation, recovering an interrupted materialization first. */
    method Lookup(identity: Identity) returns (r: Outcome<CacheLookup>)
      modifies this
      ensures budget <= old(budget) && (r.Crashed? ==> budget == 0)
      ensures RecoveryFrame(old(disk), disk)
      ensures Inv(old(disk), build) ==> LookupOk(old(disk), disk, build, identity, r)
    {
      var registry :- LoadRecovered();
      if Inv(disk, build) {
        AbsentIsClean(disk, build);
      }
      hide JournalInv, Settled, Ready, OwnerMatches;
      if registry.None? || registry.value.state.Vacant? {
        r := LookupAbsent();
      } else {
        r := LookupMaterialized(registry.value, identity);
      }
    }

    /** A build without a materialization must have no state at all. */
    method LookupAbsent() returns (r: Outcome<CacheLookup>)
      ensures !r.Crashed?
      ensures r.Done? ==> r.value == CacheLookup(Miss, None, None, false)
      ensures r.Done? <==> LoadCanonical(disk, build).Done? && disk.record.None? && disk.index.None? && disk.root.None?
    {
      var loaded := LoadCanonical(disk, build);
      if !loaded.Done? || loaded.value.0.Some? || loaded.value.1.Some? || disk.root.Some? {
        return Raised;
      }
      return Done(CacheLookup(Miss, None, None, false));
    }

    /** Authenticate everything a hit or a rehydration reuses. */
    method LookupMaterialized(registry: Registry, identity: Identity) returns (r: Outcome<CacheLookup>)
      ensures !r.Crashed?
      ensures r.Done? ==> Reusable(disk, build, registry, identity, r.value)
      ensures Inv(disk, build) && Logical(disk) == Some(registry) && !Recoverable(registry.state) && !registry.state.Vacant? ==>
        (r.Done? <==> Admissible(disk, registry, identity))
    {
      if Inv(disk, build) && Logical(disk) == Some(registry) {
        BoundPair(disk, build, registry);
      }
      hide JournalInv;
      var pair := LoadCanonicalPair(disk, build);
      if !pair.Done? || pair.value.None? {
        return Raised;
      }
      var canonical := pair.value.value;
      if registry.bindings.canonical != Some(canonical) || canonical.identity != identity || !ProducerVerified(disk, canonical) {
        return Raised;
      }
      if registry.state.Cleaned? {
        return if disk.root.Some? then Raised else Done(CacheLookup(Rehydrate, Some(canonical), None, false));
      }
      if !registry.state.Present? || !OwnerMatches(disk.root, registry) || !RootVerified(disk, registry, canonical) {
        return Raised;
      }
      var owner := disk.root.value.marker;
      if disk.attestation.None? {
        return Done(CacheLookup(Hit, Some(canonical), owner, true));
      }
      if !Authentic(disk, canonical, disk.attestation.value) {
        return Raised;
      }
      return Done(CacheLookup(Hit, Some(canonical), owner, false));
    }

    // ------------------------------------------------- materialization

    /** Start a build on vacant state, or a rehydration of a cleaned build. */
    method BeginMaterialization(attempt: AttemptId, rehydrate: bool) returns (r: Outcome<()>)
      modifies this
      ensures budget <= old(budget) && (r.Crashed? ==> budget == 0)
      ensures SameFiles(old(disk), disk)
      ensures Inv(old(disk), build) ==>
        && Inv(disk, build)
        && (r.Raised? ==> !MayBegin(Logical(old(disk)), rehydrate))
        && (r.Done? ==>
              && MayBegin(Logical(old(disk)), rehydrate)
              && Logical(disk).Some? && Logical(disk).value.attempt == attempt
              && Logical(disk).value.state == (if rehydrate then Rehydrating else Building)
              && (rehydrate ==> Logical(disk).value.bindings.canonical == Logical(old(disk)).value.bindings.canonical))
    {
      ghost var before := disk;
      var loaded := LoadRegistry();
      LoadKeeps(before, disk, build);
      hide JournalInv, Settled;
      if !loaded.Done? {
        return if loaded.Raised? then Raised else Crashed;
      }
      var registry := loaded.value;
      if !MayBegin(registry, rehydrate) {
        return Raised;
      }
      var state := if rehydrate then Rehydrating else Building;
      if Inv(before, build) {
        BegunNext(disk, build, attempt, rehydrate);
      }
      var _ :- Transition(attempt, state, NOTHING);
      return Done(());
    }

    /** Bind the owned root to the journal. */
    method BindRoot(attempt: AttemptId, owner: Owner) returns (r: Outcome<()>)
      modifies this
      ensures budget <= old(budget) && (r.Crashed? ==> budget == 0)
      ensures SameFiles(old(disk), disk)
      ensures Inv(old(disk), build) ==>
        && Inv(disk, build)
        && (r.Raised? ==> !MayBind(Logical(old(disk)), build, attempt, owner))
        && (Logical(disk) == Logical(old(disk)) || BindsTo(Logical(old(disk)), Logical(disk), build, attempt, owner))
        && (r.Done? ==>
              MayBind(Logical(old(disk)), build, attempt, owner)
              && BindsTo(Logical(old(disk)), Logical(disk), build, attempt, owner))
    {
      ghost var before := disk;
      var registry :- LoadVerifiedRegistry();
      hide JournalInv, Settled, Ready;
      if !MayBind(registry, build, attempt, owner) {
        return Raised;
      }
      if registry.Some? {
        ReadyIsLogical(disk, registry.value);
      }
      var bindings := NOTHING.(device := Some(owner.device), inode := Some(owner.inode));
      if Inv(before, build) {
        BoundNext(disk, build, registry.value, attempt, bindings);
      }
      var _ :- Transition(attempt, registry.value.state, bindings);
      return Done(());
    }

    /** Write the staged record: a torn file first, then the whole one. */
    method Stage(attempt: AttemptId, record: Record) returns (r: Outcome<()>)
      modifies this
      ensures budget <= old(budget) && (r.Crashed? ==> budget == 0)
      ensures r.Raised? <==> attempt in old(disk).staging
      ensures r.Raised? ==> disk == old(disk)
      ensures disk == old(disk).(staging := disk.staging)
      ensures
        || disk.staging == old(disk).staging
        || disk.staging == old(disk).staging[attempt := None]
        || disk.staging == old(disk).staging[attempt := Some(record)]
      ensures r.Done? ==> disk.staging == old(disk).staging[attempt := Some(record)]
    {
      if attempt in disk.staging {
        return Raised;
      }
      var _ :- Write(disk.(staging := disk.staging[attempt := None]));
      var _ :- Write(disk.(staging := disk.staging[attempt := Some(record)]));
      return Done(());
    }

    /** Publish a freshly built materialization: stage, Publishing, record and index, evidence, Present. */
    method PublishFresh(attempt: AttemptId, record: Record) returns (r: Outcome<Record>)
      modifies this
      ensures budget <= old(budget) && (r.Crashed? ==> budget == 0)
      ensures Inv(old(disk), build) && BuiltReady(old(disk), build, attempt, record) ==>
        PublishedOk(old(disk), disk, build, attempt, record, r) && (r.Raised? ==> attempt in old(disk).staging)
      ensures r.Done? ==> Captured(disk, record.artifacts)
      ensures disk.root == old(disk).root
    {
      ghost var before := disk;
      ghost var ready := Inv(before, build) && BuiltReady(before, build, attempt, record);
      if record.build != build || record.producer != attempt {
        return Raised;
      }
      var staged := Stage(attempt, record);
      if ready {
        StagingIsFree(before, disk, build, attempt, record);
      }
      if !staged.Done? {
        return if staged.Raised? then Raised else Crashed;
      }
      r := PublishStaged(attempt, record);
      if ready {
        assert AttestationKept(before, disk);
      }
    }

    /** The publication after its record is staged. */
    method PublishStaged(attempt: AttemptId, record: Record) returns (r: Outcome<Record>)
      requires record.build == build && record.producer == attempt
      modifies this
      ensures budget <= old(budget) && (r.Crashed? ==> budget == 0)
      ensures Inv(old(disk), build) && StagedReady(old(disk), build, attempt, record) ==>
        PublishedOk(old(disk), disk, build, attempt, record, r) && !r.Raised?
      ensures r.Done? ==> Captured(disk, record.artifacts)
      ensures disk.root == old(disk).root
    {
      ghost var before := disk;
      ghost var ready := Inv(before, build) && StagedReady(before, build, attempt, record);
      var registry :- LoadVerifiedRegistry();
      if registry.None? {
        return Raised;
      }
      ReadyIsLogical(disk, registry.value);
      var bindings := NOTHING.(staging := Some(record), device := registry.value.bindings.device, inode := registry.value.bindings.inode);
      if ready {
        PublishingNext(disk, build, registry.value, attempt, record);
      }
      hide JournalInv, Settled, Ready, NextBinds;
      var publishing :- Transition(attempt, Publishing, bindings);
      ghost var mid := disk;
      ReadyIsLogical(disk, publishing);
      r := PublishPresent(publishing, record);
    }

    /** Record, index, evidence and the Present transition. */
    method PublishPresent(registry: Registry, record: Record) returns (r: Outcome<Record>)
      requires Ready(disk, registry) && registry.state.Publishing? && registry.build == build
      requires registry.bindings.staging == Some(record)
      modifies this
      ensures budget <= old(budget) && (r.Crashed? ==> budget == 0)
      ensures Inv(old(disk), build) ==> PublishedOk(old(disk), disk, build, registry.attempt, record, r) && !r.Raised?
      ensures r.Done? ==> Captured(disk, record.artifacts)
      ensures disk.root == old(disk).root
    {
      ghost var before := disk;
      var published := PublishCanonical(record);
      ghost var paired := disk;
      ReadyIsLogical(before, registry);
      if Inv(before, build) {
        PublishingIsStaged(before, build, registry);
        PartialPublication(before, disk, build, registry, record);
      }
      if !published.Done? {
        return if published.Raised? then Raised else Crashed;
      }
      var evidence := Evidence(build, registry.attempt, record, record.artifacts);
      var written := Write(disk.(evidence := Some(evidence)));
      if written.Crashed? {
        return Crashed;
      }
      ReadyIsLogical(disk, registry);
      ghost var complete := disk;
      var present := Transition(registry.attempt, Present, PresentBindings(registry, record, evidence).(staging := Some(record)));
      SameNext(registry, build, record, evidence);
      if Inv(before, build) {
        CompletedPublication(before, complete, disk, build, registry, record, present);
      }
      r := if present.Done? then Done(record) else if present.Raised? then Raised else Crashed;
    }

    /** Publish a rehydrated materialization against the retained canonical record. */
    method PublishRehydrated(attempt: AttemptId, record: Record) returns (r: Outcome<Record>)
      modifies this
      ensures budget <= old(budget) && (r.Crashed? ==> budget == 0)
      ensures Inv(old(disk), build) && RehydrateReady(old(disk), build, attempt) ==>
        && PublishedOk(old(disk), disk, build, attempt, Logical(old(disk)).value.bindings.canonical.value, r)
        && (r.Raised? <==> !Equivalent(old(disk), Logical(old(disk)).value.bindings.canonical.value, record) && !r.Crashed?)
        && (r.Raised? ==> disk == old(disk))
      ensures r.Done? ==> Captured(disk, record.artifacts)
      ensures disk.root == old(disk).root
    {
      ghost var before := disk;
      ghost var ready := Inv(before, build) && RehydrateReady(before, build, attempt);
      if ready {
        BoundPair(before, build, Logical(before).value);
      }
      if record.build != build {
        return Raised;
      }
      var pair := LoadCanonicalPair(disk, build);
      if !pair.Done? || pair.value.None? {
        return Raised;
      }
      var existing := pair.value.value;
      if !Equivalent(disk, existing, record) {
        return Raised;
      }
      var registry :- LoadVerifiedRegistry();
      if registry.None? {
        return Raised;
      }
      r := RehydratePresent(registry.value, attempt, existing, record.artifacts);
    }

    method RehydratePresent(registry: Registry, attempt: AttemptId, existing: Record, artifacts: Artifacts) returns (r: Outcome<Record>)
      requires Ready(disk, registry) && registry.build == build
      modifies this
      ensures budget <= old(budget) && (r.Crashed? ==> budget == 0)
      ensures
        && Inv(old(disk), build) && RehydrateReady(old(disk), build, attempt)
        && registry.bindings.canonical == Some(existing)
        && artifacts.setId == existing.artifacts.setId && old(disk).root.value.tree == Some(artifacts.Rehashed())
        ==> PublishedOk(old(disk), disk, build, attempt, existing, r) && !r.Raised?
      ensures r.Done? ==> Captured(disk, artifacts)
      ensures disk.root == old(disk).root
    {
      ghost var before := disk;
      ghost var ready :=
        && Inv(disk, build) && RehydrateReady(disk, build, attempt) && registry.bindings.canonical == Some(existing)
        && artifacts.setId == existing.artifacts.setId && disk.root.value.tree == Some(artifacts.Rehashed());
      var evidence := Evidence(build, attempt, existing, artifacts);
      ReadyIsLogical(disk, registry);
      var written := Write(disk.(evidence := Some(evidence)));
      if written.Crashed? {
        return Crashed;
      }
      ReadyIsLogical(disk, registry);
      var bindings := PresentBindings(registry, existing, evidence);
      if ready {
        RehydratedNext(before, disk, build, registry, attempt, existing, evidence);
      }
      hide JournalInv, Settled, Ready, NextBinds;
      var _ :- Transition(attempt, Present, bindings);
      return Done(existing);
    }

    /** Publication as the driver calls it. */
    method Publish(attempt: AttemptId, record: Record, rehydrate: bool) returns (r: Outcome<Record>)
      modifies this
      ensures budget <= old(budget) && (r.Crashed? ==> budget == 0)
      ensures !rehydrate && Inv(old(disk), build) && BuiltReady(old(disk), build, attempt, record) ==>
        PublishedOk(old(disk), disk, build, attempt, record, r) && (r.Raised? ==> attempt in old(disk).staging)
      ensures rehydrate && Inv(old(disk), build) && RehydrateReady(old(disk), build, attempt) ==>
        && PublishedOk(old(disk), disk, build, attempt, Logical(old(disk)).value.bindings.canonical.value, r)
        && (r.Raised? <==> !Equivalent(old(disk), Logical(old(disk)).value.bindings.canonical.value, record) && !r.Crashed?)
        && (r.Raised? ==> disk == old(disk))
      ensures r.Done? ==> Captured(disk, record.artifacts)
      ensures disk.root == old(disk).root
    {
      if rehydrate {
        r := PublishRehydrated(attempt, record);
      } else {
        r := PublishFresh(attempt, record);
      }
    }

    // ------------------------------------- inspection, cleanup, attestation

    /** Verify a Present or Cleaned build under the held lock. */
    method InspectLocked() returns (r: Outcome<Inspection>)
      modifies this
      ensures budget <= old(budget) && (r.Crashed? ==> budget == 0)
      ensures SameFiles(old(disk), disk)
      ensures r.Done? ==>
        && Logical(old(disk)) == Some(r.value.registry)
        && Ready(disk, r.value.registry) && r.value.registry.build == build
        && Inspectable(disk, r.value.registry, r.value.canonical)
        && r.value.attested == disk.attestation.Some?
        && (r.value.registry.state.Present? ==> r.value.owner == disk.root.value.marker)
      ensures Inv(old(disk), build) ==>
        && Inv(disk, build) && Logical(disk) == Logical(old(disk))
        && (r.Raised? ==> !InspectableNow(old(disk)))
        && (r.Done? ==> InspectableNow(old(disk)))
    {
      hide Settled, ChainAccepted, JournalInv, SameFiles;
      var loaded :- LoadVerifiedRegistry();
      if Inv(disk, build) && InspectableNow(disk) {
        InspectableHolds(disk, build);
      }
      hide Ready, Inspectable;
      if loaded.None? {
        return Raised;
      }
      var registry := loaded.value;
      var pair := LoadCanonicalPair(disk, build);
      if !pair.Done? || pair.value.None? {
        return Raised;
      }
      var c := pair.value.value;
      if !Inspectable(disk, registry, c) {
        return Raised;
      }
      InspectableMeans(disk, registry, c);
      var owner := if registry.state.Present? then disk.root.value.marker else None;
      return Done(Inspection(registry, c, owner, disk.attestation.Some?));
    }

    /** Remove a Present, attested root; its evidence stays. */
    method CleanupBuild() returns (r: Outcome<()>)
      modifies this
      ensures budget <= old(budget) && (r.Crashed? ==> budget == 0)
      ensures RecoveryFrame(old(disk), disk)
      ensures disk.root != old(disk).root ==> old(disk).attestation.Some? && Logical(old(disk)).Some? && OwnerMatches(old(disk).root, Logical(old(disk)).value)
      ensures Inv(old(disk), build) ==>
        && Inv(disk, build)
        && (r.Done? ==>
              && Logical(disk).Some? && Logical(disk).value.state.Cleaned? && disk.root.None?
              && InspectableNow(old(disk)) && AttemptKept(old(disk), disk))
        && (r.Raised? ==> !(InspectableNow(old(disk)) && old(disk).attestation.Some?))
        && (old(disk).attestation.None? ==> !r.Done? && SameFiles(old(disk), disk) && Logical(disk) == Logical(old(disk)))
        && CanonicalKept(old(disk), disk)
    {
      var inspected :- InspectLocked();
      if inspected.registry.state.Cleaned? {
        ReadyIsLogical(disk, inspected.registry);
        if Inv(old(disk), build) {
          CleanedHasNoRoot(disk, build);
        }
        return Done(());
      }
      if !inspected.attested {
        return Raised;
      }
      r := CleanPresent(inspected.registry, inspected.canonical);
    }

    /** Cleaning, remove the tree, Cleaned. */
    method CleanPresent(registry: Registry, c: Record) returns (r: Outcome<()>)
      requires Ready(disk, registry) && registry.build == build && registry.state.Present?
      requires registry.bindings.canonical == Some(c)
      modifies this
      ensures budget <= old(budget) && (r.Crashed? ==> budget == 0)
      ensures !r.Raised? && SameFiles(old(disk).(root := disk.root), disk)
      ensures Inv(old(disk), build) && old(disk).attestation.Some? ==>
        && Inv(disk, build) && CanonicalKept(old(disk), disk)
        && (r.Done? ==>
              && Logical(disk).Some? && Logical(disk).value.state.Cleaned? && disk.root.None?
              && Logical(disk).value.attempt == registry.attempt)
    {
      ghost var before := disk;
      ghost var inv := Inv(disk, build) && disk.attestation.Some?;
      ReadyIsLogical(disk, registry);
      var bindings := NOTHING.(canonical := Some(c), device := registry.bindings.device, inode := registry.bindings.inode);
      if inv {
        CleaningNext(disk, build, registry, bindings);
      }
      var cleaning := StartCleaning(registry, bindings);
      if !cleaning.Done? {
        if inv {
          CanonicalOf(before, disk, build);
        }
        return if cleaning.Raised? then Raised else Crashed;
      }
      r := FinishClean(cleaning.value);
      if inv {
        CanonicalOf(before, disk, build);
      }
    }

    method StartCleaning(registry: Registry, bindings: Bindings) returns (r: Outcome<Registry>)
      requires Ready(disk, registry) && registry.build == build && registry.state.Present?
      modifies this
      ensures budget <= old(budget) && (r.Crashed? ==> budget == 0)
      ensures !r.Raised? && SameFiles(old(disk), disk)
      ensures r.Done? ==> r.value.state.Cleaning? && Ready(disk, r.value) && r.value.build == build && r.value.attempt == registry.attempt
      ensures
        && Inv(old(disk), build) && NextBinds(Some(registry), build, registry.attempt, Cleaning, bindings)
        && Settled(old(disk), Some(RegistryOf(NextEvent(Some(registry), build, registry.attempt, Cleaning, bindings))))
        ==> Inv(disk, build)
    {
      ReadyIsLogical(disk, registry);
      hide JournalInv, Settled, Ready, NextBinds;
      r := Transition(registry.attempt, Cleaning, bindings);
    }

    method FinishClean(registry: Registry) returns (r: Outcome<()>)
      requires Ready(disk, registry) && registry.build == build && registry.state.Cleaning?
      modifies this
      ensures budget <= old(budget) && (r.Crashed? ==> budget == 0)
      ensures !r.Raised? && SameFiles(old(disk).(root := disk.root), disk)
      ensures Inv(old(disk), build) ==>
        && Inv(disk, build)
        && (r.Done? ==>
              && Logical(disk).Some? && Logical(disk).value.state.Cleaned? && disk.root.None?
              && Logical(disk).value.attempt == registry.attempt)
    {
      hide JournalInv, Settled;
      var removed := RemoveTreeOf(registry);
      if !removed.Done? {
        return if removed.Raised? then Raised else Crashed;
      }
      var _ :- MarkCleaned(registry);
      return Done(());
    }

    /** Publish the attestation of a finalized SUCCESS attempt, after authenticating it. */
    method PublishBuildAttestation(attestor: AttemptId, canonical: Record, class_: ExecutionClass) returns (r: Outcome<()>)
      modifies this
      ensures budget <= old(budget) && (r.Crashed? ==> budget == 0)
      ensures disk == old(disk).(attestation := disk.attestation) && Keeps(old(disk), disk)
      ensures r.Done? ==>
        && PairIntact(disk, canonical) && disk.attestation.Some? && Authentic(disk, canonical, disk.attestation.value)
        && disk.attestation.value.attestor == attestor && disk.attestation.value.class_ == class_
      ensures
        && Inv(old(disk), build) && Logical(old(disk)).Some?
        && Logical(old(disk)).value.bindings.canonical == Some(canonical) && Logical(old(disk)).value.state.Present?
        ==> Inv(disk, build)
      ensures !r.Crashed? ==> (r.Done? <==> MayAttest(old(disk), build, attestor, canonical, class_))
    {
      var pair := LoadCanonicalPair(disk, build);
      if pair != Done(Some(canonical)) || !ProducerVerified(disk, canonical) || attestor !in disk.attempts {
        return Raised;
      }
      var attestation := Attestation(
        build, canonical, attestor, class_, canonical.artifacts.setId,
        disk.attempts[canonical.producer], disk.attempts[attestor]);
      if !Authentic(disk, canonical, attestation) {
        return Raised;
      }
      if disk.attestation.Some? {
        return if disk.attestation.value == attestation then Done(()) else Raised;
      }
      ghost var before := disk;
      var _ :- Write(disk.(attestation := Some(attestation)));
      if Inv(before, build) && Logical(before).Some? && Logical(before).value.bindings.canonical == Some(canonical) && Logical(before).value.state.Present? {
        AttestedSettles(before, disk, build, canonical);
      }
      return Done(());
    }
  }
}
