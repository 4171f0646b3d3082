/** One build attempt from allocation to closure, and every history of attempts of a recipe. */
module AttemptSession {
  import opened Outcomes
  import opened AttemptModel
  import opened AttemptStore

  /** Names an attempt may not use for evidence. */
  const RESERVED := {"current.json", "events", "terminal.json"}

  class BuildAttemptSession {
    const store: AttemptStore
    const id: AttemptId
    var registry: Registry
    var finalized: bool

    constructor (store: AttemptStore, registry: Registry)
      ensures this.store == store && id == registry.attempt && this.registry == registry && !finalized
    {
      this.store := store;
      this.id := registry.attempt;
      this.registry := registry;
      finalized := false;
    }

    /** The session's registry is the durable one, and the attempt still collects evidence. */
    ghost predicate Collecting()
      reads this, store
    {
      && id.recipe == store.recipe && Inv(store.slots, store.recipe)
      && id in store.slots && HasCurrent(store.slots[id]) && store.slots[id].root.value.current.value == registry
      && (registry.state.Allocated? || registry.state.Active?) && !finalized
      && ChainReaches(store.slots[id].root.value.events, registry) && registry.attempt == id
    }

    /** The attempt is under way or closed, whatever step of it failed last. */
    ghost predicate UnderWay()
      reads this, store
    {
      && id.recipe == store.recipe && Inv(store.slots, store.recipe) && id in store.slots && Registered(store.slots[id])
      && (finalized ==> Settled(store.slots[id], id))
    }

    /** The attempt's root is there and no outcome is durable. */
    ghost predicate Unsealed()
      reads this, store
    {
      && UnderWay() && HasCurrent(store.slots[id])
      && (store.slots[id].root.value.current.value.state.Allocated? || store.slots[id].root.value.current.value.state.Active?)
    }

    /** Write one evidence file, exclusively. */
    method WriteEvidence(path: string, content: nat) returns (r: Outcome<()>)
      requires Collecting()
      modifies store
      ensures store.budget <= old(store.budget) && (r.Crashed? ==> store.budget == 0)
      ensures Collecting() && Preserves(old(store.slots), store.slots, store.recipe)
      ensures r.Raised? <==> path in RESERVED || path in old(store.slots)[id].root.value.files
      ensures !r.Done? ==> store.slots == old(store.slots)
      ensures r.Done? ==> store.slots[id].root.value.files == old(store.slots)[id].root.value.files[path := content]
    {
      var root := store.slots[id].root.value;
      if path in RESERVED || path in root.files {
        return Raised;
      }
      r := WriteFile(path, content);
    }

    method WriteFile(path: string, content: nat) returns (r: Outcome<()>)
      requires Unsealed() && path !in store.slots[id].root.value.files
      modifies store
      ensures store.budget <= old(store.budget) && (r.Crashed? ==> store.budget == 0)
      ensures !r.Raised? && Unsealed() && (old(Collecting()) ==> Collecting())
      ensures Preserves(old(store.slots), store.slots, store.recipe)
      ensures !r.Done? ==> store.slots == old(store.slots)
      ensures r.Done? ==> store.slots[id].root.value.files == old(store.slots)[id].root.value.files[path := content]
    {
      ghost var before := store.slots;
      var root := store.slots[id].root.value;
      var next := store.slots[id].(root := Some(root.(files := root.files[path := content])));
      FilesAreFree(before[id], id, next);
      var _ :- store.Write(id, next);
      StepPreserves(before, before, store.slots, id, store.recipe);
      return Done(());
    }

    /** Mark the attempt active in its root and in the index. */
    method MarkActive() returns (r: Outcome<()>)
      requires Collecting()
      modifies this, store
      ensures store.budget <= old(store.budget) && (r.Crashed? ==> store.budget == 0)
      ensures Preserves(old(store.slots), store.slots, store.recipe)
      ensures r.Raised? <==> old(registry).state.Active?
      ensures r.Raised? ==> store.slots == old(store.slots)
      ensures !r.Crashed? ==> Collecting()
      ensures finalized == old(finalized)
      ensures r.Done? ==> registry == old(registry).(state := Active) && store.slots[id].entry == Some(Entry(Active, None, None, None))
    {
      ghost var before := store.slots;
      var root := store.slots[id].root.value;
      var updated := registry.(state := Active);
      if registry.state.Allocated? {
        ActiveKeeps(before[id], id, updated);
      }
      hide SlotOk, Advances, Inv, Preserves;
      var marked := MarkSteps(root, updated);
      if marked.Raised? {
        PreservesReflexive(before, store.recipe);
      } else {
        StepIsPreserved(before, store.slots, id, store.recipe);
      }
      if marked.Done? {
        registry := updated;
      }
      return marked;
    }

    method MarkSteps(root: Root, updated: Registry) returns (r: Outcome<()>)
      requires id in store.slots && store.slots[id].root == Some(root) && root.current == Some(registry)
      requires updated == registry.(state := Active)
      modifies store
      ensures store.budget <= old(store.budget) && (r.Crashed? ==> store.budget == 0)
      ensures r.Raised? <==> !registry.state.Allocated?
      ensures r.Raised? ==> store.slots == old(store.slots)
      ensures !r.Raised? ==>
        && id in store.slots && store.slots == old(store.slots)[id := store.slots[id]]
        && store.slots[id] in ActiveImages(old(store.slots)[id], id, updated)
      ensures r.Done? ==>
        store.slots == old(store.slots)[id := Slot(Some(Transitioned(root, id, updated)), old(store.slots)[id].record, Some(Entry(Active, None, None, None)))]
    {
      ghost var before := store.slots;
      var moved := store.Transition(id, root, updated);
      ghost var images := ActiveImages(before[id], id, updated);
      assert images[0] in images && images[1] in images && images[2] in images && images[3] in images;
      assert before == before[id := before[id]];
      if !moved.Done? {
        return if moved.Raised? then Raised else Crashed;
      }
      var _ :- store.Write(id, store.slots[id].(entry := Some(Entry(Active, None, None, None))));
      return Done(());
    }

    /** Finalize with the given outcome, once. */
    method Finalize(outcome: AttemptOutcome, build: Option<BuildId>) returns (r: Outcome<()>)
      requires Collecting()
      modifies this, store
      ensures store.budget <= old(store.budget) && (r.Crashed? ==> store.budget == 0)
      ensures Preserves(old(store.slots), store.slots, store.recipe)
      ensures r.Raised? ==> NeedsBuild(outcome) && build.None? && Collecting()
      ensures finalized <==> r.Done?
      ensures r.Done? ==> Closed(outcome, build) && FilesOf(store.slots[id]) == FilesOf(old(store.slots)[id])
    {
      ghost var before := store.slots;
      if NeedsBuild(outcome) && build.None? {
        PreservesReflexive(before, store.recipe);
        return Raised;
      }
      assert DurableOutcome(before[id]).None?;
      hide SlotOk, Advances, Inv, Preserves, Step, Settled, DurableOutcome;
      SlotIsOk();
      r := store.FinalizeAttempt(id, outcome, build);
      FinalizedPreserves(before, store.slots, id, store.recipe, outcome, build, r);
      if r.Done? {
        finalized := true;
      }
    }

    lemma SlotIsOk()
      requires Collecting()
      ensures id in store.slots && SlotOk(store.slots[id], id) && HasCurrent(store.slots[id])
    {
    }

    /** The attempt is closed with this outcome. */
    ghost predicate Closed(outcome: AttemptOutcome, build: Option<BuildId>)
      reads store
    {
      id in store.slots && Settled(store.slots[id], id) && DurableOutcome(store.slots[id]) == Some((outcome, build))
    }

    /** Leave the attempt, also after one of its steps failed part-way. A durable outcome is kept and
        finished; an attempt without one is closed as failed; one whose root is gone is torn down. */
    method Leave() returns (r: Outcome<()>)
      requires UnderWay()
      modifies this, store
      ensures store.budget <= old(store.budget) && (r.Crashed? ==> store.budget == 0)
      ensures Preserves(old(store.slots), store.slots, store.recipe) && UnderWay()
      ensures old(finalized) ==> r.Done? && store.slots == old(store.slots)
      ensures r.Done? ==> Settled(store.slots[id], id) && DurableOutcome(store.slots[id]) == Some(LeftAs(old(store.slots)[id]))
      ensures r.Done? ==> FilesOf(store.slots[id]) == LeftFiles(old(store.slots)[id])
      ensures !r.Crashed? ==>
        (r.Raised? <==>
          DurableOutcome(old(store.slots)[id]).None? && "terminal.json" in FilesOf(old(store.slots)[id]))
    {
      ghost var before := store.slots;
      PreservesReflexive(before, store.recipe);
      if finalized {
        return Done(());
      }
      SlotFacts(before[id], id);
      if store.slots[id].root.None? {
        hide SlotOk, Advances, Settled, DurableOutcome;
        r := store.RecoverIndexTeardowns();
        if r.Done? {
          TornDownNow(before[id], store.slots[id], id);
        }
        StillUnderWay(before);
        return r;
      }
      var durable := store.slots[id].root.value.current.value;
      if durable.state.Finalizing? || durable.state.RecordPublished? {
        r := Close(durable.outcome.value, durable.build);
        return r;
      }
      if "terminal.json" in store.slots[id].root.value.files {
        return Raised;
      }
      var _ :- WriteFile("terminal.json", 0);
      ghost var here := store.slots;
      SlotFacts(here[id], id);
      r := Close(Failed, None);
      PreservesTransitive(before, here, store.slots, store.recipe);
    }

    lemma UnderWaySlot()
      requires UnderWay()
      ensures id in store.slots && SlotOk(store.slots[id], id)
    {
    }

    /** Whatever step came between, the attempt is still under way. */
    lemma StillUnderWay(before: map<AttemptId, Slot>)
      requires id.recipe == store.recipe && Inv(before, store.recipe) && id in before && Registered(before[id])
      requires Preserves(before, store.slots, store.recipe) && (finalized ==> Settled(store.slots[id], id))
      ensures UnderWay()
    {
      StillRegistered(before[id], store.slots[id], id);
    }

    /** Finalize whatever the durable registry says, with an outcome it allows. */
    method Close(outcome: AttemptOutcome, build: Option<BuildId>) returns (r: Outcome<()>)
      requires UnderWay() && HasCurrent(store.slots[id]) && MayFinalize(store.slots[id], outcome, build) && !finalized
      modifies this, store
      ensures store.budget <= old(store.budget) && (r.Crashed? ==> store.budget == 0)
      ensures Preserves(old(store.slots), store.slots, store.recipe) && UnderWay() && !r.Raised?
      ensures r.Done? ==> Closed(outcome, build) && FilesOf(store.slots[id]) == FilesOf(old(store.slots)[id])
    {
      ghost var before := store.slots;
      hide Advances, Inv, Preserves, Step, Settled, DurableOutcome, MayFinalize;
      UnderWaySlot();
      r := store.FinalizeAttempt(id, outcome, build);
      PreservesReflexive(before, store.recipe);
      FinalizedFacts(before, store.slots, id, outcome, build, r);
      StepPreserves(before, before, store.slots, id, store.recipe);
      StillUnderWay(before);
      if r.Done? {
        finalized := true;
      }
    }
  }

  lemma FinalizedFacts(
    before: map<AttemptId, Slot>, after: map<AttemptId, Slot>, id: AttemptId, outcome: AttemptOutcome, build: Option<BuildId>, r: Outcome<()>)
    requires id in before && FinalizedAs(before, after, id, outcome, build, r) && MayFinalize(before[id], outcome, build)
    ensures id in after && Step(before, after, id) && !r.Raised?
    ensures r.Done? ==> Settled(after[id], id) && DurableOutcome(after[id]) == Some((outcome, build)) && FilesOf(after[id]) == FilesOf(before[id])
  {
  }

  /** A registered attempt whose root is there has a durable outcome exactly when it is past collecting
      evidence. */
  lemma SlotFacts(slot: Slot, id: AttemptId)
    requires SlotOk(slot, id) && Registered(slot)
    ensures slot.root.Some? ==> HasCurrent(slot)
    ensures HasCurrent(slot) ==>
      var registry := slot.root.value.current.value;
      if registry.state.Finalizing? || registry.state.RecordPublished? then
        && registry.outcome.Some? && DurableOutcome(slot) == Some((registry.outcome.value, registry.build))
        && MayFinalize(slot, registry.outcome.value, registry.build)
      else
        && (registry.state.Allocated? || registry.state.Active?) && DurableOutcome(slot).None? && MayFinalize(slot, Failed, None)
        && slot.record.None?
  {
  }

  lemma TornDownNow(before: Slot, after: Slot, id: AttemptId)
    requires SlotOk(before, id) && Registered(before) && before.root.None?
    requires after == before || Settled(after, id)
    requires !PendingTeardown(after) && Advances(before, after)
    ensures Settled(after, id) && DurableOutcome(after) == Some(LeftAs(before)) && FilesOf(after) == FilesOf(before)
  {
  }

  lemma StillRegistered(before: Slot, after: Slot, id: AttemptId)
    requires SlotOk(before, id) && Registered(before) && Advances(before, after)
    ensures Registered(after)
  {
  }

  /** What leaving an attempt closes it as. */
  function LeftAs(slot: Slot): (AttemptOutcome, Option<BuildId>) {
    if DurableOutcome(slot).Some? then DurableOutcome(slot).value else (Failed, None)
  }

  /** The evidence it is closed with: a failure is noted in it. */
  function LeftFiles(slot: Slot): map<string, nat> {
    if DurableOutcome(slot).Some? then FilesOf(slot) else FilesOf(slot)["terminal.json" := 0]
  }

  /** The slot after each disk step of marking an attempt active. */
  function ActiveImages(slot: Slot, id: AttemptId, updated: Registry): seq<Slot>
    requires HasCurrent(slot)
  {
    var root := slot.root.value;
    var moved := slot.(root := Some(Transitioned(root, id, updated)));
    [slot, slot.(root := Some(root.(current := Some(updated)))), moved, moved.(entry := Some(Entry(Active, None, None, None)))]
  }

  lemma ActiveKeeps(slot: Slot, id: AttemptId, updated: Registry)
    requires SlotOk(slot, id) && HasCurrent(slot) && slot.root.value.current.value.state.Allocated?
    requires ChainReaches(slot.root.value.events, slot.root.value.current.value)
    requires updated == slot.root.value.current.value.(state := Active)
    ensures forall s | s in ActiveImages(slot, id, updated) :: SlotOk(s, id) && Advances(slot, s)
    ensures ChainReaches(Transitioned(slot.root.value, id, updated).events, updated)
  {
    LinkedAppend(slot.root.value.events, id, Event(id, |slot.root.value.events| + 1, Some(Allocated), Active));
  }

  lemma FilesAreFree(slot: Slot, id: AttemptId, next: Slot)
    requires SlotOk(slot, id) && HasCurrent(slot)
    requires slot.root.value.current.value.state.Allocated? || slot.root.value.current.value.state.Active?
    requires next.root.Some? && next == slot.(root := Some(slot.root.value.(files := next.root.value.files)))
    requires forall f | f in slot.root.value.files :: f in next.root.value.files && next.root.value.files[f] == slot.root.value.files[f]
    ensures SlotOk(next, id) && Advances(slot, next)
  {
  }

  lemma StepIsPreserved(before: map<AttemptId, Slot>, after: map<AttemptId, Slot>, id: AttemptId, recipe: RecipeId)
    requires Inv(before, recipe) && id in before && id.recipe == recipe
    requires id in after && after == before[id := after[id]] && SlotOk(after[id], id) && Advances(before[id], after[id])
    ensures Preserves(before, after, recipe) && Inv(after, recipe)
  {
    PreservesReflexive(before, recipe);
    StepPreserves(before, before, after, id, recipe);
  }

  lemma FinalizedPreserves(
    before: map<AttemptId, Slot>, after: map<AttemptId, Slot>, id: AttemptId, recipe: RecipeId,
    outcome: AttemptOutcome, build: Option<BuildId>, r: Outcome<()>)
    requires id in before && id.recipe == recipe && FinalizedAs(before, after, id, outcome, build, r)
    requires DurableOutcome(before[id]).None? && (NeedsBuild(outcome) ==> build.Some?)
    ensures Preserves(before, after, recipe) && !r.Raised?
    ensures r.Done? ==>
      && id in after && Settled(after[id], id) && DurableOutcome(after[id]) == Some((outcome, build))
      && FilesOf(after[id]) == FilesOf(before[id])
  {
    PreservesReflexive(before, recipe);
    StepPreserves(before, before, after, id, recipe);
  }

  datatype Action =
    | Evidence(path: string, content: nat)
    | Activate
    | Finish(outcome: AttemptOutcome, build: Option<BuildId>)

  /** One attempt of a history: its fresh nonce, the live processes it sees, what its caller does,
      where it stops, and how many disk steps the process still makes if that was only a failed action. */
  datatype Run = Run(nonce: nat, live: set<nat>, owner: nat, device: nat, inode: nat, actions: seq<Action>, budget: nat, again: nat)

  /** Run the caller's actions until one fails, then leave the attempt. */
  method RunActions(session: BuildAttemptSession, actions: seq<Action>) returns (r: Outcome<()>)
    requires session.Collecting()
    modifies session, session.store
    ensures Preserves(old(session.store.slots), session.store.slots, session.store.recipe)
    ensures session.UnderWay()
  {
    var store := session.store;
    PreservesReflexive(store.slots, store.recipe);
    for i := 0 to |actions|
      invariant session.Collecting() && session.UnderWay() && Preserves(old(store.slots), store.slots, store.recipe)
    {
      ghost var here := store.slots;
      var step: Outcome<()>;
      match actions[i] {
        case Evidence(path, content) =>
          step := session.WriteEvidence(path, content);
        case Activate =>
          step := session.MarkActive();
        case Finish(outcome, build) =>
          step := session.Finalize(outcome, build);
      }
      PreservesTransitive(old(store.slots), here, store.slots, store.recipe);
      session.StillUnderWay(here);
      if !step.Done? || session.finalized {
        return step;
      }
    }
    return Done(());
  }

  /** An attempt with a registry or a record. */
  predicate Registered(slot: Slot) {
    HasCurrent(slot) || slot.record.Some?
  }

  /** One whole attempt. It runs only after every earlier attempt of the recipe is closed, with
      the outcome it had, and, unless it is stopped, it is closed itself. */
  method RunAttempt(store: AttemptStore, run: Run) returns (r: Outcome<()>)
    requires Inv(store.slots, store.recipe) && SlotOf(store.slots, AttemptId(store.recipe, run.nonce)) == ABSENT
    modifies store
    ensures Preserves(old(store.slots), store.slots, store.recipe) && Inv(store.slots, store.recipe)
    ensures r.Done? ==>
      && AttemptId(store.recipe, run.nonce) in store.slots
      && Settled(store.slots[AttemptId(store.recipe, run.nonce)], AttemptId(store.recipe, run.nonce))
      && SameOwner(FirstRegistry(store.recipe, run), store.slots[AttemptId(store.recipe, run.nonce)].record.value.registry)
      && forall k | k in old(store.slots) && k.recipe == store.recipe && Registered(old(store.slots)[k]) ::
           Settled(store.slots[k], k) && RecoveredAs(old(store.slots)[k], store.slots[k]) && !OwnedBy(old(store.slots)[k], run.live)
  {
    ghost var before := store.slots;
    var registry :- store.BeginBuildAttempt(run.nonce, run.live, run.owner, run.device, run.inode);
    ghost var begun := store.slots;
    var session := new BuildAttemptSession(store, registry);
    var acted := RunActions(session, run.actions);
    ghost var active := store.slots;
    PreservesTransitive(before, begun, active, store.recipe);
    if acted.Crashed? {
      store.budget := run.again;
    }
    r := session.Leave();
    PreservesTransitive(before, active, store.slots, store.recipe);
    PreservesTransitive(begun, active, store.slots, store.recipe);
    forall k | k in before && k.recipe == store.recipe && Registered(before[k])
      ensures Settled(store.slots[k], k) && RecoveredAs(before[k], store.slots[k])
    {
      StaysSettled(before[k], begun[k], store.slots[k], k);
    }
  }

  /** The registry an attempt is allocated with. */
  function FirstRegistry(recipe: RecipeId, run: Run): Registry {
    NewRegistry(AttemptId(recipe, run.nonce), run.owner, run.device, run.inode)
  }

  /** Begin one attempt, let its caller act on it, and begin another attempt of the recipe from another
      process. While the first is not closed and its process is seen alive, the second never begins, and
      it leaves the first one's registry, outcome and evidence as they were, whether it is refused or
      stopped. */
  method BeginWhileLive(store: AttemptStore, run: Run, other: Run)
    returns (first: Outcome<Registry>, second: Outcome<Registry>, ghost between: Snapshot)
    requires Inv(store.slots, store.recipe) && run.nonce != other.nonce
    requires SlotOf(store.slots, AttemptId(store.recipe, run.nonce)) == ABSENT
    requires SlotOf(store.slots, AttemptId(store.recipe, other.nonce)) == ABSENT
    modifies store
    ensures Inv(store.slots, store.recipe)
    ensures first.Done? ==> first.value == FirstRegistry(store.recipe, run) && first.value.attempt in between
    ensures first.Done? && HasCurrent(between[first.value.attempt]) ==>
      SameOwner(first.value, between[first.value.attempt].root.value.current.value)
    ensures first.Done? && HasCurrent(between[first.value.attempt]) && run.owner in other.live ==>
      && !second.Done? && first.value.attempt in store.slots
      && CaughtUpOnly(between[first.value.attempt], store.slots[first.value.attempt], first.value.attempt)
      && HasCurrent(store.slots[first.value.attempt])
      && store.slots[first.value.attempt].root.value.current == between[first.value.attempt].root.value.current
      && DurableOutcome(store.slots[first.value.attempt]) == DurableOutcome(between[first.value.attempt])
  {
    second, between := Raised, store.slots;
    first := store.BeginBuildAttempt(run.nonce, run.live, run.owner, run.device, run.inode);
    if !first.Done? {
      return;
    }
    ghost var begun := store.slots;
    var session := new BuildAttemptSession(store, first.value);
    var _ := RunActions(session, run.actions);
    between := store.slots;
    assert Advances(begun[first.value.attempt], between[first.value.attempt]);
    if SlotOf(store.slots, AttemptId(store.recipe, other.nonce)) == ABSENT {
      store.budget := other.budget;
      second := store.BeginBuildAttempt(other.nonce, other.live, other.owner, other.device, other.inode);
    }
  }

  lemma StaysSettled(before: Slot, begun: Slot, after: Slot, id: AttemptId)
    requires SlotOk(before, id) && SlotOk(begun, id) && SlotOk(after, id) && Registered(before)
    requires Advances(before, begun) && Advances(begun, after)
    requires Settled(begun, id) || begun == ABSENT
    requires RecoveredAs(before, begun)
    ensures Settled(after, id) && RecoveredAs(before, after)
  {
  }

  type Snapshot = map<AttemptId, Slot>

  /** Every attempt has moved forward from each snapshot to each later one. */
  ghost predicate Forward(trace: seq<Snapshot>, recipe: RecipeId) {
    && (forall i | 0 <= i < |trace| :: Inv(trace[i], recipe))
    && (forall i, j | 0 <= i <= j < |trace| :: Preserves(trace[i], trace[j], recipe))
  }

  lemma ForwardGrows(trace: seq<Snapshot>, next: Snapshot, recipe: RecipeId)
    requires trace != [] && Forward(trace, recipe) && Inv(next, recipe) && Preserves(trace[|trace| - 1], next, recipe)
    ensures Forward(trace + [next], recipe)
  {
    hide Inv, Preserves;
    var longer := trace + [next];
    forall i, j | 0 <= i <= j < |longer|
      ensures Preserves(longer[i], longer[j], recipe)
    {
      if i == |trace| {
        PreservesReflexive(next, recipe);
      } else if j == |trace| {
        PreservesTransitive(trace[i], trace[|trace| - 1], next, recipe);
      }
    }
  }

  /** In every history the outcome, the record and the indexed digest of an attempt never change once
      they are durable. */
  lemma OutcomesStay(trace: seq<Snapshot>, recipe: RecipeId, i: nat, j: nat, id: AttemptId)
    requires Forward(trace, recipe) && i <= j < |trace| && id in trace[i] && id.recipe == recipe
    ensures id in trace[j]
    ensures DurableOutcome(trace[i][id]).Some? ==> DurableOutcome(trace[j][id]) == DurableOutcome(trace[i][id])
    ensures trace[i][id].record.Some? ==> trace[j][id].record == trace[i][id].record
    ensures Settled(trace[i][id], id) ==> Settled(trace[j][id], id)
    ensures HasCurrent(trace[i][id]) && HasCurrent(trace[j][id]) ==>
      SameOwner(trace[i][id].root.value.current.value, trace[j][id].root.value.current.value)
  {
    assert Preserves(trace[i], trace[j], recipe) && Inv(trace[i], recipe) && Inv(trace[j], recipe);
    assert Advances(trace[i][id], trace[j][id]) && SlotOk(trace[j][id], id);
  }

  /** Every history of attempts of one recipe, each stopped or failed anywhere. The trace holds the two
      stores before the first attempt and after each one. */
  method RunHistory(recipe: RecipeId, runs: seq<Run>) returns (store: AttemptStore, ghost trace: seq<Snapshot>)
    ensures store.recipe == recipe && |trace| == |runs| + 1 && trace[|runs|] == store.slots
    ensures Forward(trace, recipe)
  {
    hide SlotOk, Advances;
    store := new AttemptStore(recipe);
    trace := [store.slots];
    PreservesReflexive(store.slots, recipe);
    for i := 0 to |runs|
      invariant store.recipe == recipe && fresh(store) && |trace| == i + 1 && trace[i] == store.slots && Forward(trace, recipe)
    {
      PreservesReflexive(store.slots, recipe);
      if SlotOf(store.slots, AttemptId(recipe, runs[i].nonce)) == ABSENT {
        store.budget := runs[i].budget;
        var _ := RunAttempt(store, runs[i]);
      }
      ForwardGrows(trace, store.slots, recipe);
      trace := trace + [store.slots];
    }
  }
}
