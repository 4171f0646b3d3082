/** The attempt lifecycle over its two stores, with the projection written before its event. */
module AttemptStore {
  import opened Outcomes
  import opened AttemptModel

  predicate Inv(slots: map<AttemptId, Slot>, recipe: RecipeId) {
    && (forall id | id in slots && id.recipe == recipe :: SlotOk(slots[id], id))
    && (forall id | id in slots :: Named(slots[id], id))
  }

  /** A root directory is named after the attempt it registers. */
  predicate Named(slot: Slot, id: AttemptId) {
    HasCurrent(slot) ==> slot.root.value.current.value.attempt == id
  }

  function SlotOf(slots: map<AttemptId, Slot>, id: AttemptId): Slot {
    if id in slots then slots[id] else ABSENT
  }

  /** Only this attempt changed, and it moved forward. */
  predicate Step(before: map<AttemptId, Slot>, after: map<AttemptId, Slot>, id: AttemptId) {
    && after.Keys == before.Keys + {id}
    && (forall k | k in before && k != id :: after[k] == before[k])
    && (SlotOk(SlotOf(before, id), id) ==> SlotOk(after[id], id) && Advances(SlotOf(before, id), after[id]))
  }

  /** Nothing any attempt relies on is lost. */
  predicate Preserves(before: map<AttemptId, Slot>, after: map<AttemptId, Slot>, recipe: RecipeId) {
    && before.Keys <= after.Keys
    && (Inv(before, recipe) ==>
          Inv(after, recipe) && forall k | k in before && k.recipe == recipe :: Advances(before[k], after[k]))
    && (forall k | k in before && k.recipe != recipe && before[k].root.Some? && before[k].root.value.current.Some? :: after[k] == before[k])
  }

  class AttemptStore {
    const recipe: RecipeId
    var slots: map<AttemptId, Slot>
    /** Disk steps this process still completes before it stops. */
    var budget: nat

    constructor (recipe: RecipeId)
      ensures this.recipe == recipe && slots == map[] && Inv(slots, recipe)
    {
      this.recipe := recipe;
      slots := map[];
      budget := 0;
    }

    /** One atomic disk step on one attempt. */
    method Write(id: AttemptId, next: Slot) returns (r: Outcome<()>)
      modifies this
      ensures r == if old(budget) == 0 then Crashed else Done(())
      ensures r.Done? ==> slots == old(slots)[id := next] && budget == old(budget) - 1
      ensures r.Crashed? ==> slots == old(slots) && budget == 0
    {
      if budget == 0 {
        return Crashed;
      }
      budget := budget - 1;
      slots := slots[id := next];
      return Done(());
    }

    /** The projection first, then the event. */
    method Transition(id: AttemptId, root: Root, registry: Registry) returns (r: Outcome<Root>)
      requires id in slots && slots[id].root == Some(root) && root.current.Some?
      modifies this
      ensures budget <= old(budget) && (r.Crashed? ==> budget == 0)
      ensures r.Raised? <==> !Legal(Some(root.current.value.state), registry.state) || (registry.state.RecordPublished? && registry.record.None?)
      ensures r.Raised? ==> slots == old(slots)
      ensures r.Done? ==>
        && r.value == Transitioned(root, id, registry)
        && slots == old(slots)[id := old(slots)[id].(root := Some(r.value))]
      ensures r.Crashed? ==>
        || slots == old(slots)
        || slots == old(slots)[id := old(slots)[id].(root := Some(root.(current := Some(registry))))]
    {
      var from := root.current.value.state;
      if !Legal(Some(from), registry.state) || (registry.state.RecordPublished? && registry.record.None?) {
        return Raised;
      }
      var sequence := |root.events| + 1;
      var _ :- Write(id, slots[id].(root := Some(root.(current := Some(registry)))));
      var moved := Transitioned(root, id, registry);
      var _ :- Write(id, slots[id].(root := Some(moved)));
      return Done(moved);
    }

    /** Append the one event a crash may have left unwritten. */
    method ReconcileMissingEvent(id: AttemptId, root: Root) returns (r: Outcome<Root>)
      requires id in slots && slots[id].root == Some(root) && root.current.Some?
      modifies this
      ensures budget <= old(budget) && (r.Crashed? ==> budget == 0)
      ensures !r.Done? ==> slots == old(slots)
      ensures r.Done? ==>
        && r.value == (if LastState(root.events) == Some(root.current.value.state) then root else CaughtUp(root, id))
        && slots == old(slots)[id := old(slots)[id].(root := Some(r.value))]
      ensures LagsAtMostOne(root.events, root.current.value) && root.current.value.attempt == id ==>
        !r.Raised? && (r.Done? ==> ChainReaches(r.value.events, root.current.value))
    {
      var registry := root.current.value;
      var previous: Option<State> := None;
      var sequence := 1;
      if root.events != [] {
        var last := root.events[|root.events| - 1];
        if last.to == registry.state {
          assert slots[id] == slots[id].(root := Some(root));
          return Done(root);
        }
        previous := Some(last.to);
        sequence := last.sequence + 1;
      }
      if !Legal(previous, registry.state) {
        return Raised;
      }
      var event := Event(registry.attempt, sequence, previous, registry.state);
      var updated := root.(events := root.events + [event]);
      if LagsAtMostOne(root.events, registry) && registry.attempt == id {
        assert root.events != [] ==> LinkedAt(root.events, id, |root.events| - 1);
        LinkedAppend(root.events, id, event);
      }
      var _ :- Write(id, slots[id].(root := Some(updated)));
      return Done(updated);
    }

    /** Accept exactly a contiguous, linked, legal chain that reaches the registry state. */
    method ValidateEventChain(events: seq<Event>, registry: Registry) returns (accepted: bool)
      ensures accepted <==> ChainReaches(events, registry)
    {
      if events == [] {
        return false;
      }
      var previous: Option<State> := None;
      for i := 0 to |events|
        invariant previous == LastState(events[..i])
        invariant forall j | 0 <= j < i :: LinkedAt(events, registry.attempt, j)
      {
        var event := events[i];
        if event.attempt != registry.attempt || event.sequence != i + 1 || event.from != previous || !Legal(event.from, event.to) {
          assert !LinkedAt(events, registry.attempt, i);
          return false;
        }
        previous := Some(event.to);
        assert events[..i + 1] == events[..i] + [event];
      }
      assert events[..|events|] == events;
      return previous == Some(registry.state);
    }

    /** Authenticate a mutable root, completing its journal first. */
    method ValidateAttemptRoot(id: AttemptId) returns (r: Outcome<Root>)
      requires HasCurrent(SlotOf(slots, id))
      modifies this
      ensures budget <= old(budget) && (r.Crashed? ==> budget == 0)
      ensures Step(old(slots), slots, id) && CaughtUpOnly(old(slots)[id], slots[id], id)
      ensures r.Done? ==>
        && slots[id] == old(slots)[id].(root := Some(r.value))
        && r.value.current == old(slots)[id].root.value.current && r.value.private_ == old(slots)[id].root.value.private_
        && ChainReaches(r.value.events, r.value.current.value)
        && r.value.current.value.attempt == id
        && Cardinality(r.value.current.value.state, r.value.current.value.outcome, r.value.current.value.record)
      ensures !r.Done? ==> HasCurrent(slots[id]) && slots[id].root.value.current == old(slots)[id].root.value.current
      ensures SlotOk(old(slots)[id], id) ==> !r.Raised?
    {
      ghost var before := slots;
      var root := slots[id].root.value;
      var registry := root.current.value;
      if registry.device != root.device || registry.inode != root.inode || registry.attempt != id
         || !Cardinality(registry.state, registry.outcome, registry.record) {
        return Raised;
      }
      var reconciled :- ReconcileMissingEvent(id, root);
      if SlotOk(before[id], id) {
        CatchingUpKeeps(before[id], id, reconciled);
      }
      var accepted := ValidateEventChain(reconciled.events, registry);
      if !accepted {
        return Raised;
      }
      return Done(reconciled);
    }

    /** Reach the finalizing state, with its outcome durable in the root and noted in the index. */
    method EnsureFinalizing(id: AttemptId, root: Root, outcome: AttemptOutcome, build: Option<BuildId>) returns (r: Outcome<Root>)
      requires id in slots && slots[id].root == Some(root) && root.current.Some?
      requires root.current.value.state in {Allocated, Active, Finalizing}
      requires ChainReaches(root.events, root.current.value) && root.current.value.attempt == id
      requires NeedsBuild(outcome) ==> build.Some?
      modifies this
      ensures budget <= old(budget) && (r.Crashed? ==> budget == 0)
      ensures Step(old(slots), slots, id)
      ensures r.Raised? <==> root.current.value.state.Finalizing? && !OutcomeFits(root.current.value, outcome, build)
      ensures r.Raised? ==> slots == old(slots)
      ensures r.Done? ==>
        && slots[id].root == Some(r.value) && r.value.current.Some? && r.value.private_ == root.private_ && r.value.files == root.files
        && (!root.current.value.state.Finalizing? ==> slots[id].entry == Some(Entry(Finalizing, Some(outcome), build, None)))
        && slots[id].record == old(slots)[id].record
        && var t := r.value.current.value;
        && t.state.Finalizing? && t.outcome == Some(outcome) && t.build == build && t.attempt == id
        && t.record == root.current.value.record
        && ChainReaches(r.value.events, t)
    {
      ghost var before := slots;
      var registry := root.current.value;
      if registry.state.Finalizing? {
        if registry.outcome != Some(outcome) || registry.build != build {
          return Raised;
        }
        return Done(root);
      }
      var terminal := registry.(state := Finalizing, outcome := Some(outcome), build := build);
      LinkedAppend(root.events, id, Event(id, |root.events| + 1, Some(registry.state), Finalizing));
      var moved :- Transition(id, root, terminal);
      var _ :- Write(id, slots[id].(entry := Some(Entry(Finalizing, Some(outcome), build, None))));
      return Done(moved);
    }

    /** Publish the record no-replace, then bind its digest in the root. */
    method EnsureRecord(id: AttemptId, root: Root) returns (r: Outcome<Content>)
      requires id in slots && slots[id].root == Some(root) && root.current.Some? && !root.private_
      requires root.current.value.state.Finalizing? && ChainReaches(root.events, root.current.value) && root.current.value.attempt == id
      modifies this
      ensures budget <= old(budget) && (r.Crashed? ==> budget == 0)
      ensures Step(old(slots), slots, id)
      ensures SlotOk(old(slots)[id], id) ==> !r.Raised?
      ensures r.Done? ==>
        && id in slots && slots[id].record == Some(r.value) && r.value == ContentOf(root)
        && slots[id].root == Some(Transitioned(root, id, root.current.value.(state := RecordPublished, record := Some(r.value))))
    {
      ghost var before := slots;
      var content := ContentOf(root);
      if slots[id].record.Some? {
        if slots[id].record.value != content {
          return Raised;
        }
      } else {
        var _ :- Write(id, slots[id].(record := Some(content)));
      }
      LinkedAppend(root.events, id, Event(id, |root.events| + 1, Some(Finalizing), RecordPublished));
      var _ :- Transition(id, root, root.current.value.(state := RecordPublished, record := Some(content)));
      return Done(content);
    }

    /** Index the record, remove the mutable root, and close the entry. */
    method TearDown(id: AttemptId, content: Content) returns (r: Outcome<()>)
      requires id in slots
      modifies this
      ensures budget <= old(budget) && (r.Crashed? ==> budget == 0)
      ensures !r.Raised?
      ensures SlotOk(old(slots)[id], id) && Indexable(old(slots)[id], content) ==>
        Step(old(slots), slots, id) && slots[id].record == Some(content) && (r.Done? ==> Settled(slots[id], id))
    {
      var _ :- Write(id, slots[id].(entry := Some(EntryOf(RecordPublished, content))));
      var _ :- Write(id, slots[id].(root := None));
      var _ :- Write(id, slots[id].(entry := Some(EntryOf(TornDown, content))));
      return Done(());
    }

    /** The recorded registry must be this attempt's finalizing one, with its whole chain. */
    method CheckBinding(content: Content, id: AttemptId, outcome: AttemptOutcome, build: Option<BuildId>) returns (bound: bool)
      ensures bound <==> Sealed(content, id) && OutcomeFits(content.registry, outcome, build)
    {
      var chained := ValidateEventChain(content.events, content.registry);
      return
        && content.registry.attempt == id && content.registry.state.Finalizing?
        && content.registry.outcome == Some(outcome) && content.registry.build == build
        && content.registry.record.None? && chained;
    }

    /** Finish an attempt whose record is already bound in its root. */
    method FinishRecorded(id: AttemptId, root: Root, outcome: AttemptOutcome, build: Option<BuildId>) returns (r: Outcome<()>)
      requires id in slots && slots[id].root == Some(root) && root.current.Some? && IsRecorded(root.current.value.state)
      modifies this
      ensures budget <= old(budget) && (r.Crashed? ==> budget == 0)
      ensures SlotOk(old(slots)[id], id) ==> FinalizedAs(old(slots), slots, id, outcome, build, r)
    {
      ghost var before := slots;
      if SlotOk(slots[id], id) {
        RecordedOutcome(slots[id], id);
      }
      hide SlotOk, Step, Sealed, DurableOutcome, Settled;
      var record := slots[id].record;
      if record.None? || root.current.value.record != record {
        return Raised;
      }
      var bound := CheckBinding(record.value, id, outcome, build);
      if !bound {
        return Raised;
      }
      r := TearDown(id, record.value);
      if SlotOk(before[id], id) {
        TornDownAs(before, slots, id, outcome, build, r);
      }
    }

    /** Make the outcome durable and publish the record that carries it. */
    method PublishOutcome(id: AttemptId, root: Root, outcome: AttemptOutcome, build: Option<BuildId>) returns (r: Outcome<Content>)
      requires id in slots && slots[id].root == Some(root) && root.current.Some? && !root.private_
      requires !IsRecorded(root.current.value.state) && (NeedsBuild(outcome) ==> build.Some?)
      requires root.current.value.record.None?
      requires ChainReaches(root.events, root.current.value) && root.current.value.attempt == id
      modifies this
      ensures budget <= old(budget) && (r.Crashed? ==> budget == 0)
      ensures SlotOk(old(slots)[id], id) ==>
        && Step(old(slots), slots, id)
        && (r.Raised? ==> slots == old(slots) && !MayFinalize(slots[id], outcome, build))
        && (r.Done? ==> FilesOf(slots[id]) == FilesOf(old(slots)[id]))
      ensures r.Done? ==>
        && id in slots && Indexable(slots[id], r.value)
        && Sealed(r.value, id) && OutcomeFits(r.value.registry, outcome, build)
    {
      ghost var before := slots;
      hide SlotOk, Step, ChainReaches, MayFinalize, DurableOutcome, FilesOf, Sealed, Advances;
      var terminal :- MakeFinal(id, root, outcome, build);
      ghost var finalizing := slots;
      r := EnsureRecord(id, terminal);
      if SlotOk(before[id], id) {
        RecordHoldsRoot(before[id], slots[id], id);
        StepTransitive(before, finalizing, slots, id);
      }
    }

    /** Make the outcome durable, or refuse another one. */
    method MakeFinal(id: AttemptId, root: Root, outcome: AttemptOutcome, build: Option<BuildId>) returns (r: Outcome<Root>)
      requires id in slots && slots[id].root == Some(root) && root.current.Some? && !root.private_
      requires !IsRecorded(root.current.value.state) && (NeedsBuild(outcome) ==> build.Some?)
      requires root.current.value.record.None?
      requires ChainReaches(root.events, root.current.value) && root.current.value.attempt == id
      modifies this
      ensures budget <= old(budget) && (r.Crashed? ==> budget == 0)
      ensures SlotOk(old(slots)[id], id) ==>
        && Step(old(slots), slots, id) && SlotOk(SlotOf(slots, id), id)
        && (r.Raised? ==> slots == old(slots) && !MayFinalize(slots[id], outcome, build))
      ensures r.Done? ==>
        && id in slots && slots[id].root == Some(r.value) && r.value.current.Some? && !r.value.private_
        && r.value.current.value.state.Finalizing? && r.value.current.value.attempt == id && r.value.files == root.files
        && ChainReaches(r.value.events, r.value.current.value)
        && Sealed(ContentOf(r.value), id) && OutcomeFits(r.value.current.value, outcome, build)
    {
      ghost var before := slots;
      if SlotOk(before[id], id) && root.current.value.state.Finalizing? {
        FinalizingOutcome(before[id], id, outcome, build);
      }
      hide SlotOk, Step, ChainReaches, MayFinalize, Sealed;
      r := EnsureFinalizing(id, root, outcome, build);
      if SlotOk(before[id], id) {
        StepKeeps(before, slots, id);
      }
      if r.Done? {
        SealedContent(r.value, id);
      }
    }

    /** Finish an attempt that may still need its outcome, its record, or both. */
    method FinishUnrecorded(id: AttemptId, root: Root, outcome: AttemptOutcome, build: Option<BuildId>) returns (r: Outcome<()>)
      requires id in slots && slots[id].root == Some(root) && root.current.Some? && !root.private_
      requires !IsRecorded(root.current.value.state) && (NeedsBuild(outcome) ==> build.Some?)
      requires root.current.value.record.None?
      requires ChainReaches(root.events, root.current.value) && root.current.value.attempt == id
      modifies this
      ensures budget <= old(budget) && (r.Crashed? ==> budget == 0)
      ensures SlotOk(old(slots)[id], id) ==> FinalizedAs(old(slots), slots, id, outcome, build, r)
    {
      ghost var before := slots;
      hide SlotOk, Step, ChainReaches, Settled, DurableOutcome, FinalizedAs, MayFinalize, Sealed;
      var published := PublishOutcome(id, root, outcome, build);
      ghost var recorded := slots;
      if !published.Done? {
        if SlotOk(before[id], id) {
          UnfinishedAs(before, recorded, id, outcome, build, published.Raised?);
        }
        return if published.Raised? then Raised else Crashed;
      }
      var content := published.value;
      var bound := CheckBinding(content, id, outcome, build);
      if !bound {
        assert false;
        return Raised;
      }
      if SlotOk(before[id], id) {
        StepKeeps(before, recorded, id);
      }
      r := TearDown(id, content);
      if SlotOk(before[id], id) {
        FinishTransitive(before, recorded, slots, id, outcome, build, r);
      }
    }

    /** Finalize one attempt from whatever durable state it is in. */
    method FinalizeAttempt(id: AttemptId, outcome: AttemptOutcome, build: Option<BuildId>) returns (r: Outcome<()>)
      requires HasCurrent(SlotOf(slots, id))
      modifies this
      ensures budget <= old(budget) && (r.Crashed? ==> budget == 0)
      ensures SlotOk(old(slots)[id], id) ==> FinalizedAs(old(slots), slots, id, outcome, build, r)
      ensures SlotOk(old(slots)[id], id) && r.Raised? ==> HasCurrent(slots[id])
    {
      ghost var before := slots;
      if NeedsBuild(outcome) && build.None? {
        StepReflexive(slots, id);
        return Raised;
      }
      hide SlotOk, Step, ChainReaches, Settled, DurableOutcome, FinalizedAs, HasCurrent;
      var root, validated := ValidatePublicRoot(id);
      if !validated.Done? {
        if SlotOk(before[id], id) {
          UnfinishedAs(before, slots, id, outcome, build, false);
        }
        return if validated.Raised? then Raised else Crashed;
      }
      ghost var public := slots;
      if SlotOk(before[id], id) {
        StepKeeps(before, public, id);
      }
      if IsRecorded(root.current.value.state) {
        r := FinishRecorded(id, root, outcome, build);
      } else {
        r := FinishUnrecorded(id, root, outcome, build);
      }
      if SlotOk(before[id], id) {
        FinalizedTransitive(before, public, slots, id, outcome, build, r);
      }
    }

    /** Validate the root, then remove its private directory. */
    method ValidatePublicRoot(id: AttemptId) returns (root: Root, r: Outcome<()>)
      requires HasCurrent(SlotOf(slots, id))
      modifies this
      ensures budget <= old(budget) && (r.Crashed? ==> budget == 0)
      ensures Step(old(slots), slots, id)
      ensures SlotOk(old(slots)[id], id) ==> !r.Raised?
      ensures r.Done? ==> DurableOutcome(slots[id]) == DurableOutcome(old(slots)[id]) && FilesOf(slots[id]) == FilesOf(old(slots)[id])
      ensures r.Done? ==>
        && slots[id].root == Some(root) && root.current.Some? && !root.private_ && HasCurrent(slots[id])
        && ChainReaches(root.events, root.current.value) && root.current.value.attempt == id
        && Cardinality(root.current.value.state, root.current.value.outcome, root.current.value.record)
    {
      ghost var before := slots;
      root := slots[id].root.value;
      var validated := ValidateAttemptRoot(id);
      if !validated.Done? {
        return root, if validated.Raised? then Raised else Crashed;
      }
      root := validated.value;
      ghost var here := slots;
      r := Done(());
      if root.private_ {
        r := Write(id, slots[id].(root := Some(root.(private_ := false))));
        root := root.(private_ := false);
      }
      if r.Done? && SlotOk(before[id], id) {
        PrivateIsFree(here[id], id, slots[id]);
        AdvancesTransitive(before[id], here[id], slots[id]);
      }
    }

    // --------------------------------------------------------- recovery

    /** Remove roots an allocation left without a registry. */
    method RemovePreallocationOrphans() returns (r: Outcome<()>)
      modifies this
      ensures budget <= old(budget) && (r.Crashed? ==> budget == 0)
      ensures !r.Raised? && Preserves(old(slots), slots, recipe) && slots.Keys == old(slots).Keys
      ensures forall k | k in slots :: slots[k] == old(slots)[k] || (!HasCurrent(old(slots)[k]) && slots[k] == old(slots)[k].(root := None))
      ensures r.Done? ==> forall k | k in slots :: slots[k].root.Some? ==> HasCurrent(slots[k]) || !Removable(slots[k])
    {
      PreservesReflexive(slots, recipe);
      hide SlotOk, Advances;
      ghost var before := slots;
      var todo := slots.Keys;
      while todo != {}
        invariant todo <= slots.Keys == before.Keys
        invariant Preserves(before, slots, recipe) && budget <= old(budget)
        invariant forall k | k in todo :: slots[k] == before[k]
        invariant forall k | k in slots :: slots[k] == before[k] || (!HasCurrent(before[k]) && slots[k] == before[k].(root := None))
        invariant forall k | k in slots && k !in todo :: slots[k].root.Some? ==> HasCurrent(slots[k]) || !Removable(slots[k])
        decreases todo
      {
        var id :| id in todo;
        todo := todo - {id};
        if slots[id].root.Some? && !HasCurrent(slots[id]) && Removable(slots[id]) {
          ghost var here := slots;
          var _ :- Write(id, slots[id].(root := None));
          OrphanStep(here, slots, id);
          StepPreserves(before, here, slots, id, recipe);
        }
      }
      return Done(());
    }

    /** Finalize every attempt of the recipe that a stopped process left behind; refuse when one
        is still owned by a live process. */
    method RecoverStaleAttempts(live: set<nat>) returns (r: Outcome<()>)
      modifies this
      ensures budget <= old(budget) && (r.Crashed? ==> budget == 0)
      ensures Inv(old(slots), recipe) ==> StaleRecovered(old(slots), slots, recipe, live, r)
    {
      ghost var before := slots;
      var todo := slots.Keys;
      while todo != {}
        invariant todo <= before.Keys && budget <= old(budget)
        invariant Inv(before, recipe) ==>
          && slots.Keys == before.Keys && Preserves(before, slots, recipe)
          && (forall k | k in todo :: slots[k] == before[k])
          && (forall k | k in slots && k !in todo && k.recipe == recipe ::
                && !HasCurrent(slots[k]) && RecoveredAs(before[k], slots[k]) && !OwnedBy(before[k], live)
                && (!HasCurrent(before[k]) ==> slots[k] == before[k]))
        decreases todo
      {
        var id :| id in todo;
        todo := todo - {id};
        if HasCurrent(SlotOf(slots, id)) && slots[id].root.value.current.value.attempt.recipe == recipe {
          ghost var here := slots;
          assert Inv(before, recipe) ==> Named(before[id], id);
          hide SlotOk, Step, RecoveredAs, Advances;
          var recovered := RecoverStale(id, live);
          if Inv(before, recipe) {
            StaleStep(before, here, slots, id, recipe, live, recovered);
          }
          if !recovered.Done? {
            return recovered;
          }
        } else if Inv(before, recipe) && id.recipe == recipe {
          NotStale(slots[id], id, live);
        }
      }
      return Done(());
    }

    /** Validate one stale attempt, refuse it when its owner lives, and finalize it. */
    method RecoverStale(id: AttemptId, live: set<nat>) returns (r: Outcome<()>)
      requires HasCurrent(SlotOf(slots, id))
      modifies this
      ensures budget <= old(budget) && (r.Crashed? ==> budget == 0)
      ensures SlotOk(old(slots)[id], id) ==>
        && Step(old(slots), slots, id)
        && (r.Raised? ==> OwnedBy(old(slots)[id], live))
        && (OwnedBy(old(slots)[id], live) ==> CaughtUpOnly(old(slots)[id], slots[id], id))
        && (r.Done? ==> !OwnedBy(old(slots)[id], live) && RecoveredAs(old(slots)[id], slots[id]) && Settled(slots[id], id))
    {
      ghost var before := slots;
      if SlotOk(before[id], id) {
        StaleOutcome(before[id], id);
      }
      hide SlotOk, Step, ChainReaches, Settled, DurableOutcome, Cardinality, Advances;
      var root :- ValidateAttemptRoot(id);
      var registry := root.current.value;
      if registry.owner in live {
        return Raised;
      }
      var outcome := StaleOutcomeOf(registry);
      ghost var here := slots;
      if SlotOk(before[id], id) {
        StepKeeps(before, here, id);
        StaleOutcome(here[id], id);
      }
      r := FinalizeAttempt(id, outcome, registry.build);
      if SlotOk(before[id], id) {
        RecoveredStep(before, here, slots, id, outcome, registry.build, r);
      }
    }

    /** Complete the teardown of every attempt whose record is already in the index. */
    method RecoverIndexTeardowns() returns (r: Outcome<()>)
      modifies this
      ensures budget <= old(budget) && (r.Crashed? ==> budget == 0)
      ensures Inv(old(slots), recipe) ==>
        && !r.Raised? && slots.Keys == old(slots).Keys && Preserves(old(slots), slots, recipe)
        && (r.Done? ==> forall k | k in slots && k.recipe == recipe ::
              slots[k] == old(slots)[k] || (PendingTeardown(old(slots)[k]) && Settled(slots[k], k)))
        && (r.Done? ==> forall k | k in slots && k.recipe == recipe :: !PendingTeardown(slots[k]))
    {
      ghost var before := slots;
      var todo := slots.Keys;
      PreservesReflexive(slots, recipe);
      hide SlotOk, Advances, Settled;
      while todo != {}
        invariant todo <= before.Keys && budget <= old(budget)
        invariant Inv(before, recipe) ==>
          && slots.Keys == before.Keys && Preserves(before, slots, recipe)
          && (forall k | k in todo :: slots[k] == before[k])
          && (forall k | k in slots && k.recipe == recipe ::
                slots[k] == before[k] || (PendingTeardown(before[k]) && Settled(slots[k], k)))
          && (forall k | k in slots && k !in todo && k.recipe == recipe :: !PendingTeardown(slots[k]))
        decreases todo
      {
        var id :| id in todo;
        todo := todo - {id};
        if id.recipe == recipe && PendingTeardown(SlotOf(slots, id)) {
          ghost var here := slots;
          hide SlotOk, Step, Settled, Advances;
          var torn := RecoverTeardown(id);
          if Inv(before, recipe) {
            StepPreserves(before, here, slots, id, recipe);
            SettledIsClosed(slots, id, torn);
          }
          if !torn.Done? {
            return torn;
          }
        }
      }
      return Done(());
    }

    method RecoverTeardown(id: AttemptId) returns (r: Outcome<()>)
      requires id in slots && PendingTeardown(slots[id])
      modifies this
      ensures budget <= old(budget) && (r.Crashed? ==> budget == 0)
      ensures SlotOk(old(slots)[id], id) ==> !r.Raised? && Step(old(slots), slots, id) && (r.Done? ==> Settled(slots[id], id))
    {
      var entry := slots[id].entry.value;
      if entry.record.None? || entry.outcome.None? || slots[id].record != entry.record {
        return Raised;
      }
      var content := entry.record.value;
      var bound := CheckBinding(content, id, entry.outcome.value, entry.build);
      if !bound {
        return Raised;
      }
      if slots[id].root.Some? {
        if !HasCurrent(slots[id]) {
          return Raised;
        }
        var current := slots[id].root.value.current.value;
        if !current.state.RecordPublished? || current.attempt != id || current.outcome != entry.outcome
           || current.build != entry.build || current.record != entry.record {
          return Raised;
        }
        var _ :- Write(id, slots[id].(root := None));
      }
      var _ :- Write(id, slots[id].(entry := Some(entry.(state := TornDown))));
      return Done(());
    }

    // ------------------------------------------------------- allocation

    /** Allocate a fresh root: directory, registry, first event, index entry. */
    method Allocate(nonce: nat, owner: nat, device: nat, inode: nat) returns (r: Outcome<Registry>)
      requires SlotOf(slots, AttemptId(recipe, nonce)) == ABSENT
      modifies this
      ensures budget <= old(budget) && (r.Crashed? ==> budget == 0)
      ensures !r.Raised?
      ensures slots == old(slots) || Step(old(slots), slots, AttemptId(recipe, nonce))
      ensures slots == old(slots) || Allocating(slots, NewRegistry(AttemptId(recipe, nonce), owner, device, inode))
      ensures r.Done? ==> r.value == NewRegistry(AttemptId(recipe, nonce), owner, device, inode) && Begun(slots, r.value)
    {
      var id := AttemptId(recipe, nonce);
      var registry := NewRegistry(id, owner, device, inode);
      var bare := Root(device, inode, None, [], map[], false);
      var journaled := bare.(current := Some(registry), events := [Event(id, 1, None, Allocated)]);
      ghost var before := slots;
      AllocationSteps(before, registry);
      hide Step, Allocating, Begun;
      var _ :- Write(id, ABSENT.(root := Some(bare)));
      var _ :- Write(id, ABSENT.(root := Some(bare.(current := Some(registry)))));
      assert slots == before[id := ABSENT.(root := Some(bare.(current := Some(registry))))];
      var _ :- Write(id, ABSENT.(root := Some(journaled)));
      assert slots == before[id := ABSENT.(root := Some(journaled))];
      var _ :- Write(id, Slot(Some(journaled), None, Some(Entry(Allocated, None, None, None))));
      assert slots == before[id := Slot(Some(journaled), None, Some(Entry(Allocated, None, None, None)))];
      return Done(registry);
    }

    /** Begin a fresh attempt: only after every earlier one of the recipe is closed. */
    method BeginBuildAttempt(nonce: nat, live: set<nat>, owner: nat, device: nat, inode: nat) returns (r: Outcome<Registry>)
      requires SlotOf(slots, AttemptId(recipe, nonce)) == ABSENT
      modifies this
      ensures budget <= old(budget) && (r.Crashed? ==> budget == 0)
      ensures Inv(old(slots), recipe) ==>
        && Preserves(old(slots), slots, recipe)
        && (r.Raised? ==> exists k | k in old(slots) && k.recipe == recipe :: OwnedBy(old(slots)[k], live))
        && (forall k | k in old(slots) && k.recipe == recipe && OwnedBy(old(slots)[k], live) ::
              !r.Done? && k in slots && CaughtUpOnly(old(slots)[k], slots[k], k))
        && (r.Done? ==>
              && r.value == NewRegistry(AttemptId(recipe, nonce), owner, device, inode) && Begun(slots, r.value)
              && forall k | k in old(slots) && k.recipe == recipe && k != AttemptId(recipe, nonce) ::
                   && k in slots && (Settled(slots[k], k) || slots[k] == ABSENT)
                   && RecoveredAs(old(slots)[k], slots[k]) && !OwnedBy(old(slots)[k], live))
    {
      ghost var before := slots;
      var id := AttemptId(recipe, nonce);
      hide SlotOk, Step, Settled, Advances, RecoveredAs, OwnedBy;
      var orphans := RemovePreallocationOrphans();
      ghost var cleaned := slots;
      OrphansUnowned(before, cleaned, recipe, live);
      if orphans.Crashed? {
        return Crashed;
      }
      var stale := RecoverStaleAttempts(live);
      ghost var recovered := slots;
      if !stale.Done? {
        if Inv(before, recipe) {
          PreservesTransitive(before, cleaned, recovered, recipe);
        }
        return if stale.Raised? then Raised else Crashed;
      }
      var torn := RecoverIndexTeardowns();
      ghost var closed := slots;
      if Inv(before, recipe) {
        AllClosed(before, cleaned, recovered, closed, recipe, live, torn);
      }
      if !torn.Done? {
        return if torn.Raised? then Raised else Crashed;
      }
      if SlotOf(slots, id) != ABSENT {
        return Raised;
      }
      r := Allocate(nonce, owner, device, inode);
      if Inv(before, recipe) {
        AllocatedAfter(before, closed, slots, id, recipe);
      }
    }
  }

  function Transitioned(root: Root, id: AttemptId, registry: Registry): Root
    requires root.current.Some?
  {
    root.(current := Some(registry),
          events := root.events + [Event(id, |root.events| + 1, Some(root.current.value.state), registry.state)])
  }

  predicate OutcomeFits(registry: Registry, outcome: AttemptOutcome, build: Option<BuildId>) {
    registry.outcome == Some(outcome) && registry.build == build
  }

  /** A finalization may only repeat the durable outcome. */
  predicate MayFinalize(slot: Slot, outcome: AttemptOutcome, build: Option<BuildId>) {
    && (NeedsBuild(outcome) ==> build.Some?)
    && (DurableOutcome(slot).Some? ==> DurableOutcome(slot) == Some((outcome, build)))
  }

  /** A finalization from a reachable slot: it moves the attempt forward, is refused exactly for
      another outcome than the durable one, and a completed one is settled with this outcome. */
  predicate FinalizedAs(
    before: map<AttemptId, Slot>, after: map<AttemptId, Slot>, id: AttemptId,
    outcome: AttemptOutcome, build: Option<BuildId>, r: Outcome<()>)
  {
    && id in after && Step(before, after, id)
    && (r.Raised? ==> !MayFinalize(SlotOf(before, id), outcome, build) && HasCurrent(after[id]) == HasCurrent(SlotOf(before, id)))
    && (r.Done? ==>
          && FilesOf(after[id]) == FilesOf(SlotOf(before, id))
          && MayFinalize(SlotOf(before, id), outcome, build)
          && Settled(after[id], id) && DurableOutcome(after[id]) == Some((outcome, build)))
  }

  lemma StepReflexive(slots: map<AttemptId, Slot>, id: AttemptId)
    requires id in slots
    ensures Step(slots, slots, id)
  {
    assert slots.Keys == slots.Keys + {id};
  }

  lemma StepKeeps(a: map<AttemptId, Slot>, b: map<AttemptId, Slot>, id: AttemptId)
    requires Step(a, b, id) && SlotOk(SlotOf(a, id), id)
    ensures id in b && SlotOk(b[id], id) && Advances(SlotOf(a, id), b[id])
  {
  }

  lemma StepTransitive(a: map<AttemptId, Slot>, b: map<AttemptId, Slot>, c: map<AttemptId, Slot>, id: AttemptId)
    requires Step(a, b, id) && Step(b, c, id) && SlotOk(SlotOf(a, id), id)
    ensures Step(a, c, id)
  {
    AdvancesTransitive(SlotOf(a, id), b[id], c[id]);
  }

  /** A record holds the evidence of the finalizing root it was made from. */
  lemma RecordHoldsRoot(before: Slot, after: Slot, id: AttemptId)
    requires SlotOk(before, id) && HasCurrent(before) && !IsRecorded(before.root.value.current.value.state)
    ensures after.record.Some? && after.record.value.files == before.root.value.files ==> FilesOf(after) == FilesOf(before)
  {
  }

  lemma SealedContent(root: Root, id: AttemptId)
    requires root.current.Some? && root.current.value.state.Finalizing? && root.current.value.attempt == id
    requires root.current.value.outcome.Some? && root.current.value.record.None?
    requires ChainReaches(root.events, root.current.value)
    ensures Sealed(ContentOf(root), id)
  {
  }

  lemma RecordedOutcome(slot: Slot, id: AttemptId)
    requires SlotOk(slot, id) && HasCurrent(slot) && IsRecorded(slot.root.value.current.value.state)
    ensures slot.root.value.current.value.state.RecordPublished?
    ensures slot.record.Some? && slot.root.value.current.value.record == slot.record && Sealed(slot.record.value, id)
    ensures DurableOutcome(slot) == Some((slot.record.value.registry.outcome.value, slot.record.value.registry.build))
  {
  }

  lemma TornDownAs(
    before: map<AttemptId, Slot>, after: map<AttemptId, Slot>, id: AttemptId,
    outcome: AttemptOutcome, build: Option<BuildId>, r: Outcome<()>)
    requires id in before && id in after && Step(before, after, id) && !r.Raised?
    requires before[id].record.Some? && after[id].record == before[id].record
    requires OutcomeFits(before[id].record.value.registry, outcome, build)
    requires NeedsBuild(outcome) ==> build.Some?
    requires r.Done? ==> Settled(after[id], id)
    ensures FinalizedAs(before, after, id, outcome, build, r)
  {
  }

  lemma FinishTransitive(
    before: map<AttemptId, Slot>, recorded: map<AttemptId, Slot>, after: map<AttemptId, Slot>, id: AttemptId,
    outcome: AttemptOutcome, build: Option<BuildId>, r: Outcome<()>)
    requires SlotOk(SlotOf(before, id), id) && Step(before, recorded, id) && Step(recorded, after, id) && !r.Raised?
    requires FilesOf(recorded[id]) == FilesOf(SlotOf(before, id))
    requires recorded[id].record.Some? && after[id].record == recorded[id].record
    requires OutcomeFits(recorded[id].record.value.registry, outcome, build)
    requires NeedsBuild(outcome) ==> build.Some?
    requires r.Done? ==> Settled(after[id], id)
    ensures FinalizedAs(before, after, id, outcome, build, r)
  {
    StepTransitive(before, recorded, after, id);
  }

  lemma FinalizingOutcome(slot: Slot, id: AttemptId, outcome: AttemptOutcome, build: Option<BuildId>)
    requires SlotOk(slot, id) && HasCurrent(slot) && slot.root.value.current.value.state.Finalizing?
    ensures MayFinalize(slot, outcome, build) ==> OutcomeFits(slot.root.value.current.value, outcome, build)
  {
  }

  /** A finalization stopped part way, or refused for another outcome. */
  lemma UnfinishedAs(
    before: map<AttemptId, Slot>, after: map<AttemptId, Slot>, id: AttemptId,
    outcome: AttemptOutcome, build: Option<BuildId>, refused: bool)
    requires Step(before, after, id)
    requires refused ==> after == before && !MayFinalize(SlotOf(before, id), outcome, build)
    ensures FinalizedAs(before, after, id, outcome, build, if refused then Raised else Crashed)
  {
  }

  lemma FinalizedTransitive(
    before: map<AttemptId, Slot>, public: map<AttemptId, Slot>, after: map<AttemptId, Slot>, id: AttemptId,
    outcome: AttemptOutcome, build: Option<BuildId>, r: Outcome<()>)
    requires SlotOk(SlotOf(before, id), id) && Step(before, public, id) && FinalizedAs(public, after, id, outcome, build, r)
    requires HasCurrent(SlotOf(before, id)) && HasCurrent(SlotOf(public, id))
    requires DurableOutcome(SlotOf(public, id)) == DurableOutcome(SlotOf(before, id)) && FilesOf(SlotOf(public, id)) == FilesOf(SlotOf(before, id))
    ensures FinalizedAs(before, after, id, outcome, build, r)
    ensures r.Raised? ==> HasCurrent(after[id])
  {
    StepTransitive(before, public, after, id);
  }

  predicate Indexable(slot: Slot, content: Content) {
    && slot.record == Some(content)
    && slot.root.Some? && slot.root.value.current.Some? && slot.root.value.current.value.state.RecordPublished?
  }

  lemma CatchingUpKeeps(slot: Slot, id: AttemptId, root: Root)
    requires SlotOk(slot, id) && HasCurrent(slot)
    requires root ==
      if LastState(slot.root.value.events) == Some(slot.root.value.current.value.state) then slot.root.value
      else CaughtUp(slot.root.value, id)
    requires ChainReaches(root.events, slot.root.value.current.value)
    ensures SlotOk(slot.(root := Some(root)), id) && Advances(slot, slot.(root := Some(root)))
  {
  }

  lemma PrivateIsFree(before: Slot, id: AttemptId, after: Slot)
    requires SlotOk(before, id) && HasCurrent(before) && after == before.(root := Some(before.root.value.(private_ := false)))
    ensures SlotOk(after, id) && Advances(before, after)
  {
  }

  /** The root with the event its registry is ahead by. */
  function CaughtUp(root: Root, id: AttemptId): Root
    requires root.current.Some?
  {
    var sequence := if root.events == [] then 1 else root.events[|root.events| - 1].sequence + 1;
    root.(events := root.events + [Event(root.current.value.attempt, sequence, LastState(root.events), root.current.value.state)])
  }

  predicate Removable(slot: Slot)
    requires slot.root.Some?
  {
    slot.root.value.events == [] && slot.root.value.files == map[] && !slot.root.value.private_
  }

  predicate PendingTeardown(slot: Slot) {
    slot.entry.Some? && slot.entry.value.state.RecordPublished?
  }

  predicate OwnedBy(slot: Slot, live: set<nat>) {
    HasCurrent(slot) && slot.root.value.current.value.owner in live
  }

  /** Recovery closes an attempt with its durable outcome, else as interrupted, and with its evidence. */
  function StaleOutcomeOf(registry: Registry): AttemptOutcome {
    if (registry.state.Finalizing? || registry.state.RecordPublished?) && registry.outcome.Some? then registry.outcome.value
    else Interrupted
  }

  predicate RecoveredAs(before: Slot, after: Slot) {
    HasCurrent(before) ==>
      FilesOf(after) == FilesOf(before) &&
      DurableOutcome(after) == if DurableOutcome(before).Some? then DurableOutcome(before) else Some((Interrupted, None))
  }

  /** A fresh attempt's registry names the process that runs it and the inode of its root. */
  function NewRegistry(id: AttemptId, owner: nat, device: nat, inode: nat): Registry {
    Registry(id, Allocated, None, None, None, owner, device, inode)
  }

  /** The three stores right after an allocation: the registry and its first event are durable, there is
      no evidence and no record yet, and the index lists the attempt. */
  predicate Begun(slots: map<AttemptId, Slot>, registry: Registry) {
    && registry.attempt in slots
    && slots[registry.attempt] == Slot(
         Some(Root(registry.device, registry.inode, Some(registry), [Event(registry.attempt, 1, None, Allocated)], map[], false)),
         None, Some(Entry(Allocated, None, None, None)))
    && ChainReaches(slots[registry.attempt].root.value.events, registry)
  }

  /** An allocation that may have stopped: the root is there, and a registry in it is the new one. */
  predicate Allocating(slots: map<AttemptId, Slot>, registry: Registry) {
    && registry.attempt in slots && slots[registry.attempt].root.Some? && slots[registry.attempt].record.None?
    && slots[registry.attempt].root.value.device == registry.device && slots[registry.attempt].root.value.inode == registry.inode
    && slots[registry.attempt].root.value.files == map[]
    && slots[registry.attempt].root.value.current in {None, Some(registry)}
  }

  /** As it was, but for the one event its journal may have been behind by. */
  predicate CaughtUpOnly(before: Slot, after: Slot, id: AttemptId) {
    || after == before
    || (&& HasCurrent(before) && LastState(before.root.value.events) != Some(before.root.value.current.value.state)
        && after == before.(root := Some(CaughtUp(before.root.value, id))))
  }

  predicate StaleRecovered(before: map<AttemptId, Slot>, after: map<AttemptId, Slot>, recipe: RecipeId, live: set<nat>, r: Outcome<()>) {
    && after.Keys == before.Keys && Preserves(before, after, recipe)
    && (r.Raised? ==> exists k | k in before && k.recipe == recipe :: OwnedBy(before[k], live))
    && (forall k | k in before && k.recipe == recipe && OwnedBy(before[k], live) :: CaughtUpOnly(before[k], after[k], k))
    && (r.Done? ==> forall k | k in after && k.recipe == recipe ::
          && !HasCurrent(after[k]) && RecoveredAs(before[k], after[k]) && !OwnedBy(before[k], live)
          && (!HasCurrent(before[k]) ==> after[k] == before[k]))
  }

  lemma OrphanStep(before: map<AttemptId, Slot>, after: map<AttemptId, Slot>, id: AttemptId)
    requires id in before && before[id].root.Some? && !HasCurrent(before[id])
    requires after == before[id := before[id].(root := None)]
    ensures Step(before, after, id)
  {
  }

  /** One attempt's step, after whatever preserved the rest, preserves everything. */
  lemma StepPreserves(before: map<AttemptId, Slot>, here: map<AttemptId, Slot>, after: map<AttemptId, Slot>, id: AttemptId, recipe: RecipeId)
    requires Preserves(before, here, recipe) && Step(here, after, id)
    requires id.recipe == recipe || (id in before && !HasCurrent(before[id]) && !HasCurrent(SlotOf(after, id)))
    ensures Preserves(before, after, recipe)
  {
    if Inv(before, recipe) {
      forall k | k in before && k.recipe == recipe
        ensures Advances(before[k], after[k])
      {
        if k == id {
          AdvancesTransitive(before[k], here[k], after[k]);
        }
      }
    }
  }

  lemma PreservesReflexive(slots: map<AttemptId, Slot>, recipe: RecipeId)
    ensures Preserves(slots, slots, recipe)
  {
  }

  lemma PreservesTransitive(a: map<AttemptId, Slot>, b: map<AttemptId, Slot>, c: map<AttemptId, Slot>, recipe: RecipeId)
    requires Preserves(a, b, recipe) && Preserves(b, c, recipe)
    ensures Preserves(a, c, recipe)
  {
    if Inv(a, recipe) {
      forall k | k in a && k.recipe == recipe
        ensures Advances(a[k], c[k])
      {
        AdvancesTransitive(a[k], b[k], c[k]);
      }
    }
    hide Inv, Advances;
    forall k | k in a && k.recipe != recipe && a[k].root.Some? && a[k].root.value.current.Some?
      ensures c[k] == a[k]
    {
      assert b[k] == a[k];
    }
  }

  /** Removing allocation leftovers changes no attempt that anyone owns. */
  lemma OrphansUnowned(before: map<AttemptId, Slot>, cleaned: map<AttemptId, Slot>, recipe: RecipeId, live: set<nat>)
    requires cleaned.Keys == before.Keys
    requires forall k | k in cleaned :: cleaned[k] == before[k] || (!HasCurrent(before[k]) && cleaned[k] == before[k].(root := None))
    ensures forall k | k in before :: OwnedBy(cleaned[k], live) <==> OwnedBy(before[k], live)
    ensures forall k | k in before :: HasCurrent(before[k]) ==> cleaned[k] == before[k]
    ensures forall k | k in before && OwnedBy(before[k], live) :: cleaned[k] == before[k]
  {
  }

  lemma ClosedSlot(before: Slot, cleaned: Slot, recovered: Slot, closed: Slot, id: AttemptId)
    requires SlotOk(cleaned, id) && SlotOk(recovered, id) && SlotOk(closed, id)
    requires cleaned.root.Some? ==> HasCurrent(cleaned) || !Removable(cleaned)
    requires HasCurrent(before) ==> cleaned == before
    requires Advances(cleaned, recovered) && Advances(recovered, closed)
    requires !HasCurrent(recovered) && RecoveredAs(cleaned, recovered) && (!HasCurrent(cleaned) ==> recovered == cleaned)
    requires closed == recovered || Settled(closed, id)
    requires !PendingTeardown(closed)
    ensures Settled(closed, id) || closed == ABSENT
    ensures RecoveredAs(before, closed)
  {
  }

  /** After the three recovery passes every attempt of the recipe is closed. */
  lemma AllClosed(
    before: map<AttemptId, Slot>, cleaned: map<AttemptId, Slot>, recovered: map<AttemptId, Slot>, closed: map<AttemptId, Slot>,
    recipe: RecipeId, live: set<nat>, r: Outcome<()>)
    requires Inv(before, recipe) && Preserves(before, cleaned, recipe) && cleaned.Keys == before.Keys
    requires forall k | k in before :: HasCurrent(before[k]) ==> cleaned[k] == before[k]
    requires forall k | k in cleaned :: cleaned[k].root.Some? ==> HasCurrent(cleaned[k]) || !Removable(cleaned[k])
    requires StaleRecovered(cleaned, recovered, recipe, live, Done(()))
    requires closed.Keys == recovered.Keys && Preserves(recovered, closed, recipe)
    requires r.Done? ==> forall k | k in closed && k.recipe == recipe ::
      (closed[k] == recovered[k] || (PendingTeardown(recovered[k]) && Settled(closed[k], k))) && !PendingTeardown(closed[k])
    ensures Preserves(before, closed, recipe) && closed.Keys == before.Keys
    ensures r.Done? ==> forall k | k in before && k.recipe == recipe ::
      && (Settled(closed[k], k) || closed[k] == ABSENT) && RecoveredAs(before[k], closed[k])
      && (before[k] == ABSENT && cleaned[k] == ABSENT ==> closed[k] == ABSENT)
  {
    PreservesTransitive(before, cleaned, recovered, recipe);
    PreservesTransitive(before, recovered, closed, recipe);
    if r.Done? {
      forall k | k in before && k.recipe == recipe
        ensures (Settled(closed[k], k) || closed[k] == ABSENT) && RecoveredAs(before[k], closed[k])
        ensures before[k] == ABSENT && cleaned[k] == ABSENT ==> closed[k] == ABSENT
      {
        ClosedSlot(before[k], cleaned[k], recovered[k], closed[k], k);
      }
    }
  }

  lemma AllocatedAfter(before: map<AttemptId, Slot>, closed: map<AttemptId, Slot>, after: map<AttemptId, Slot>, id: AttemptId, recipe: RecipeId)
    requires Preserves(before, closed, recipe) && id.recipe == recipe
    requires after == closed || Step(closed, after, id)
    ensures Preserves(before, after, recipe)
    ensures forall k | k in closed && k != id :: k in after && after[k] == closed[k]
  {
    if after != closed {
      StepPreserves(before, closed, after, id, recipe);
    }
  }

  lemma StaleOutcome(slot: Slot, id: AttemptId)
    requires SlotOk(slot, id) && HasCurrent(slot)
    ensures var registry := slot.root.value.current.value;
      && registry.attempt == id
      && (DurableOutcome(slot).Some? ==> DurableOutcome(slot) == Some((StaleOutcomeOf(registry), registry.build)))
      && (DurableOutcome(slot).None? ==> StaleOutcomeOf(registry) == Interrupted && registry.build == None)
      && (NeedsBuild(StaleOutcomeOf(registry)) ==> registry.build.Some?)
  {
  }

  lemma NotStale(slot: Slot, id: AttemptId, live: set<nat>)
    requires SlotOk(slot, id) && !(HasCurrent(slot) && slot.root.value.current.value.attempt.recipe == id.recipe)
    ensures !HasCurrent(slot) && RecoveredAs(slot, slot) && !OwnedBy(slot, live)
  {
  }

  lemma RecoveredStep(
    before: map<AttemptId, Slot>, here: map<AttemptId, Slot>, after: map<AttemptId, Slot>, id: AttemptId,
    outcome: AttemptOutcome, build: Option<BuildId>, r: Outcome<()>)
    requires id in before && SlotOk(before[id], id) && Step(before, here, id) && FinalizedAs(here, after, id, outcome, build, r)
    requires HasCurrent(before[id]) && HasCurrent(here[id])
    requires here[id].root.value.current == before[id].root.value.current && FilesOf(here[id]) == FilesOf(before[id])
    requires outcome == StaleOutcomeOf(before[id].root.value.current.value) && build == before[id].root.value.current.value.build
    ensures Step(before, after, id) && !r.Raised?
    ensures r.Done? ==> RecoveredAs(before[id], after[id]) && Settled(after[id], id)
  {
    StaleOutcome(before[id], id);
    StaleOutcome(here[id], id);
    StepTransitive(before, here, after, id);
    StepKeeps(before, here, id);
  }

  lemma StaleStep(
    before: map<AttemptId, Slot>, here: map<AttemptId, Slot>, after: map<AttemptId, Slot>,
    id: AttemptId, recipe: RecipeId, live: set<nat>, r: Outcome<()>)
    requires Inv(before, recipe) && Preserves(before, here, recipe) && here.Keys == before.Keys
    requires id in before && here[id] == before[id] && HasCurrent(before[id]) && id.recipe == recipe
    requires SlotOk(here[id], id) ==>
      && Step(here, after, id)
      && (r.Raised? ==> OwnedBy(here[id], live))
      && (OwnedBy(here[id], live) ==> CaughtUpOnly(here[id], after[id], id))
      && (r.Done? ==> !OwnedBy(here[id], live) && RecoveredAs(here[id], after[id]) && Settled(after[id], id))
    ensures after.Keys == before.Keys && Preserves(before, after, recipe)
    ensures forall k | k in before && k != id :: after[k] == here[k]
    ensures r.Raised? ==> exists k | k in before && k.recipe == recipe :: OwnedBy(before[k], live)
    ensures OwnedBy(before[id], live) ==> CaughtUpOnly(before[id], after[id], id)
    ensures r.Done? ==> !HasCurrent(after[id]) && RecoveredAs(before[id], after[id]) && !OwnedBy(before[id], live)
  {
    StepPreserves(before, here, after, id, recipe);
  }

  lemma SettledIsClosed(slots: map<AttemptId, Slot>, id: AttemptId, r: Outcome<()>)
    requires id in slots && (r.Done? ==> Settled(slots[id], id))
    ensures r.Done? ==> !PendingTeardown(slots[id])
  {
  }

  /** The slot after each disk step of an allocation. */
  function AllocationImages(registry: Registry): seq<Slot> {
    var bare := Root(registry.device, registry.inode, None, [], map[], false);
    var journaled := bare.(current := Some(registry), events := [Event(registry.attempt, 1, None, Allocated)]);
    [ABSENT.(root := Some(bare)), ABSENT.(root := Some(bare.(current := Some(registry)))), ABSENT.(root := Some(journaled)),
     Slot(Some(journaled), None, Some(Entry(Allocated, None, None, None)))]
  }

  /** Every disk step of an allocation moves the new attempt forward, and the last one begins it. */
  lemma AllocationSteps(slots: map<AttemptId, Slot>, registry: Registry)
    requires SlotOf(slots, registry.attempt) == ABSENT
    requires registry == NewRegistry(registry.attempt, registry.owner, registry.device, registry.inode)
    ensures forall i | 0 <= i < 4 ::
      && Step(slots, slots[registry.attempt := AllocationImages(registry)[i]], registry.attempt)
      && Allocating(slots[registry.attempt := AllocationImages(registry)[i]], registry)
    ensures Begun(slots[registry.attempt := AllocationImages(registry)[3]], registry)
  {
    AllocationKeeps(registry);
    hide SlotOk, Advances;
  }

  lemma AllocationKeeps(registry: Registry)
    requires registry == NewRegistry(registry.attempt, registry.owner, registry.device, registry.inode)
    ensures forall i | 0 <= i < 4 ::
      SlotOk(AllocationImages(registry)[i], registry.attempt) && Advances(ABSENT, AllocationImages(registry)[i])
    ensures ChainReaches([Event(registry.attempt, 1, None, Allocated)], registry)
  {
    LinkedAppend([], registry.attempt, Event(registry.attempt, 1, None, Allocated));
    assert [Event(registry.attempt, 1, None, Allocated)] == [] + [Event(registry.attempt, 1, None, Allocated)];
  }
}
