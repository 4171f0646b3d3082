/** Executing and resuming a campaign. */
module Campaigns {
  import opened Outcomes
  import opened CampaignModel

  /** The running phase has gone further: it kept its evidence, and no other phase changed. */
  predicate Progress(s: State, t: State) {
    && s.phases != [] && SameButLast(s.phases, t.phases) && Continues(s, t)
    && Current(s).evidence <= Current(t).evidence && Current(s).comparisons <= Current(t).comparisons && t.reserved == s.reserved
  }

  /** The executions with these ids were made for this phase, in order, and are all different. */
  predicate ArmsRan(runs: seq<SuiteRun>, candidate: Option<CandidateId>, kind: PhaseKind, ids: seq<RunId>) {
    && |ids| <= |Order(kind)|
    && (forall i | 0 <= i < |ids| :: RanAs(runs, candidate, kind, Order(kind)[i], ids[i]))
    && (forall i, j | 0 <= i < j < |ids| :: ids[i] != ids[j])
  }

  predicate Linked(phases: seq<Phase>, id: RunId) {
    exists p | p in phases :: Link(SuiteLink, id) in p.evidence
  }

  /** A candidate is done: it was screened, and confirmed if it passed. */
  predicate EvaluatedOne(phases: seq<Phase>, candidate: CandidateId) {
    && HasPhase(phases, Some(candidate), Screening)
    && (forall i | 0 <= i < |phases| && phases[i].candidate == Some(candidate) && phases[i].kind.Screening? && phases[i].decision == Some(ObjectiveMet) ::
          HasPhase(phases, Some(candidate), Confirmation))
  }

  /** It is this candidate's turn: every earlier one of the plan is done. */
  predicate Due(phases: seq<Phase>, candidates: seq<CandidateId>, candidate: CandidateId) {
    exists i | 0 <= i < |candidates| :: candidates[i] == candidate && forall j | 0 <= j < i :: EvaluatedOne(phases, candidates[j])
  }

  /** The phase is next, and what is left of the budget does not cover it. */
  predicate DoesNotFit(s: State, candidates: seq<CandidateId>, candidate: Option<CandidateId>, kind: PhaseKind) {
    && !HasPhase(s.phases, candidate, kind) && Admissible(s.phases, candidate, kind)
    && (candidate.Some? ==> Due(s.phases, candidates, candidate.value))
    && s.reserved + SlotsOf(kind) > s.maxRuns
  }

  predicate CalibrationInterrupted(phases: seq<Phase>) {
    phases != [] && phases[0].status.Interrupted?
  }

  /** The calibration is over, and it does not vouch for the machine. */
  predicate CalibrationFailed(phases: seq<Phase>) {
    && phases != [] && (phases[0].status.Completed? || phases[0].status.Failed?)
    && phases[0].decision != Some(Judged(Inconclusive))
  }

  predicate AllEvaluated(phases: seq<Phase>, candidates: seq<CandidateId>) {
    InconclusiveCalibration(phases) && forall c | c in candidates :: EvaluatedOne(phases, c)
  }

  /** What a saved status says about what happened. */
  ghost predicate StatusOk(s: State, candidates: seq<CandidateId>) {
    && (s.status.Stopped? <==> CalibrationInterrupted(s.phases))
    && match s.status
       case Ready => s.phases == []
       case Active => s.phases != []
       case Stopped => true
       case Blocked => CalibrationFailed(s.phases)
       case BudgetExhausted => exists candidate, kind :: DoesNotFit(s, candidates, candidate, kind)
       case Finished => AllEvaluated(s.phases, candidates)
  }

  /** The terminal status that the phases call for. */
  function SettledStatus(phases: seq<Phase>, candidates: seq<CandidateId>): CampaignStatus {
    if CalibrationInterrupted(phases) then Stopped
    else if CalibrationFailed(phases) then Blocked
    else if AllEvaluated(phases, candidates) then Finished
    else BudgetExhausted
  }

  /** A campaign that has ended says why: its status is what its phases call for, and a budget is
      exhausted only when the next phase of the plan does not fit. */
  lemma SettledMeans(s: State, candidates: seq<CandidateId>)
    requires StatusOk(s, candidates) && IsTerminal(s.status)
    ensures s.status == SettledStatus(s.phases, candidates)
    ensures s.status.BudgetExhausted? ==> exists candidate, kind :: DoesNotFit(s, candidates, candidate, kind)
    ensures s.phases == [] ==> s.reserved + SlotsOf(Calibration) > s.maxRuns
  {
    if s.status.BudgetExhausted? {
      var candidate, kind :| DoesNotFit(s, candidates, candidate, kind);
      assert candidate.Some? ==> !EvaluatedOne(s.phases, candidate.value);
    }
  }

  /** The executions were all made and gave an answer. */
  predicate Concluded(d: Decision) {
    IsVerdict(d) || d.CorrectnessFailed?
  }

  /** Every phase reserved since has concluded, and every slot reserved since has been used. */
  predicate UsedUp(before: State, runsBefore: nat, after: State, runsAfter: nat) {
    && |before.phases| <= |after.phases|
    && (forall i | |before.phases| <= i < |after.phases| ::
          after.phases[i].decision.Some? && Concluded(after.phases[i].decision.value))
    && runsAfter - runsBefore == after.reserved - before.reserved
  }

  lemma NothingUsed(a: State, b: State, k: nat)
    requires |b.phases| == |a.phases| && b.reserved == a.reserved
    ensures UsedUp(a, k, b, k)
  {
  }

  /** A calibration that gave an answer was executed on both arms. */
  lemma CalibrationUsedUp(before: State, i: nat, s: State, runs: seq<SuiteRun>)
    requires Inv(s, runs) && before.phases == [] && s.phases != [] && UsedUp(before, i, s, |runs|)
    ensures CountRuns(runs, None, Calibration) == 2
  {
    assert Gated(s.phases, 0) && Measured(s.phases[0], runs, s.policy);
    assert s.phases[..0] == [];
  }

  lemma UsedUpSince(a: State, b: State, i: nat, c: State, k: nat)
    requires |b.phases| == |a.phases| && b.reserved == a.reserved
    ensures UsedUp(b, i, c, k) ==> UsedUp(a, i, c, k)
  {
  }

  class CampaignController {
    const candidates: seq<CandidateId>
    /** The saved state, and the controller's own copy. */
    var disk: State
    var state: State
    /** Every suite execution so far, in order. */
    var runs: seq<SuiteRun>
    /** Saves and suite executions this process still completes before it stops. */
    var budget: nat
    /** While this process runs, no tool and no suite execution fails, and nothing drifts. */
    var calm: bool

    constructor (candidates: seq<CandidateId>, maxRuns: nat, policy: Policy)
      ensures this.candidates == candidates && runs == [] && disk.maxRuns == maxRuns && disk.policy == policy && Sound()
    {
      this.candidates := candidates;
      disk := State(Ready, maxRuns, policy, 0, None, []);
      state := State(Ready, maxRuns, policy, 0, None, []);
      runs := [];
      budget := 0;
      calm := false;
    }

    /** What holds of the saved state after any history. */
    ghost predicate Sound()
      reads this
    {
      Inv(disk, runs) && StatusOk(disk, candidates)
    }

    /** The phase (candidate, kind) is running with `spent` of its slots used, on disk and in
        memory alike. */
    ghost predicate InPhase(candidate: Option<CandidateId>, kind: PhaseKind, spent: nat)
      reads this
    {
      && state.phases != [] && disk.phases != [] && Current(state).candidate == candidate && Current(state).kind == kind
      && PhaseRuns(state, runs, candidate, kind, spent) && PhaseRuns(disk, runs, candidate, kind, spent) && Progress(disk, state)
    }

    /** Replace the saved state atomically. */
    method Save() returns (r: Outcome<()>)
      modifies this`disk, this`budget
      ensures r == (if old(budget) == 0 then Crashed else Done(())) && (r.Crashed? ==> budget == 0)
      ensures disk == if r.Done? then state else old(disk)
    {
      if budget == 0 {
        return Crashed;
      }
      budget := budget - 1;
      disk := state;
      return Done(());
    }

    /** Record progress of the running phase and save it. */
    method Checkpoint(stage: Stage, links: seq<Link>, comparisons: seq<Comparison>,
        ghost candidate: Option<CandidateId>, ghost kind: PhaseKind, ghost spent: nat)
      returns (r: Outcome<()>)
      requires InPhase(candidate, kind, spent) && StageFits(stage, kind, spent)
      modifies this`disk, this`state, this`budget
      ensures !r.Raised? && (r.Crashed? ==> budget == 0) && (r.Done? ==> disk == state)
      ensures state == Amend(old(state), stage, links, comparisons)
      ensures InPhase(candidate, kind, spent) && Progress(old(state), state) && Progress(old(disk), disk)
    {
      hide PhaseRuns, Progress, StageFits;
      ghost var s, d := state, disk;
      PhaseSound(s, runs, candidate, kind, spent);
      AmendKeeps(s, runs, candidate, kind, spent, stage, links, comparisons);
      AmendProgresses(s, stage, links, comparisons);
      hide Inv;
      var n := |state.phases| - 1;
      var p := state.phases[n];
      state := state.(phases := state.phases[n := p.(stage := stage, evidence := p.evidence + links, comparisons := p.comparisons + comparisons)]);
      ProgressTransitive(d, s, state);
      r := Save();
      ProgressReflexive(state);
      ProgressReflexive(d);
    }

    /** Prepare a source and build it, each step checkpointed; either may fail. */
    method Prepare(ghost candidate: Option<CandidateId>, ghost kind: PhaseKind) returns (r: Outcome<BuildId>)
      requires InPhase(candidate, kind, 0)
      modifies this`disk, this`state, this`budget
      ensures InPhase(candidate, kind, 0) && Progress(old(state), state) && Progress(old(disk), disk)
      ensures (r.Crashed? ==> budget == 0) && (r.Done? ==> disk == state) && (r.Raised? ==> !calm)
      ensures state.baseline == old(state).baseline && Current(state).comparisons == Current(old(state)).comparisons
      ensures r.Done? ==> FirstBuild(Current(state).evidence).Some?
      ensures r.Done? && FirstBuild(Current(old(state)).evidence).None? ==> FirstBuild(Current(state).evidence) == Some(r.value)
    {
      hide PhaseRuns, Progress;
      ghost var evidence := Current(state).evidence;
      var source: nat :| true;
      var build: nat :| true;
      var sourceFails: bool := *;
      var buildFails: bool := *;
      ghost var s0, d0 := state, disk;
      var _ :- Checkpoint(SourceStage, [], [], candidate, kind, 0);
      if sourceFails && !calm {
        return Raised;
      }
      ghost var s1, d1 := state, disk;
      var saved := Checkpoint(BuildStage, [Link(SourceLink, source)], [], candidate, kind, 0);
      ProgressTransitive(s0, s1, state);
      ProgressTransitive(d0, d1, disk);
      if saved.Crashed? || (buildFails && !calm) {
        return if saved.Crashed? then Crashed else Raised;
      }
      ghost var s2, d2 := state, disk;
      saved := Checkpoint(BuildStage, [Link(BuildLink, build)], [], candidate, kind, 0);
      ProgressTransitive(s0, s2, state);
      ProgressTransitive(d0, d2, disk);
      assert Current(state).evidence == evidence + [Link(SourceLink, source), Link(BuildLink, build)];
      FirstBuildAppends(evidence, [Link(SourceLink, source), Link(BuildLink, build)]);
      return if saved.Crashed? then Crashed else Done(build);
    }

    /** One suite execution, after its checkpoint. */
    method RunSuite(ghost candidate: Option<CandidateId>, kind: PhaseKind, run: SuiteRun, ghost spent: nat) returns (r: Outcome<RunId>)
      requires InPhase(candidate, kind, spent) && disk == state && spent < SlotsOf(kind) && Current(state).stage.SuiteStage?
      requires run.candidate == candidate && run.kind == kind && RunJustified(state, run)
      modifies this`runs, this`budget
      ensures r.Crashed? ==> runs == old(runs) && budget == 0
      ensures !r.Crashed? ==> runs == old(runs) + [run] && InPhase(candidate, kind, spent + 1)
      ensures (r.Done? ==> r.value == run.id) && (r.Raised? ==> !calm)
    {
      if budget == 0 {
        return Crashed;
      }
      budget := budget - 1;
      RunAccounted(state, runs, run, candidate, kind, spent);
      hide PhaseRuns, Progress;
      runs := runs + [run];
      var fails: bool := *;
      return if fails && !calm then Raised else Done(run.id);
    }

    /** The first phase of this candidate and kind, if any. */
    method FindPhase(candidate: Option<CandidateId>, kind: PhaseKind) returns (found: Option<nat>)
      ensures found.None? <==> !HasPhase(state.phases, candidate, kind)
      ensures found.Some? ==>
        found.value < |state.phases| && state.phases[found.value].candidate == candidate && state.phases[found.value].kind == kind
    {
      for i := 0 to |state.phases|
        invariant forall j | 0 <= j < i :: state.phases[j].candidate != candidate || state.phases[j].kind != kind
      {
        if state.phases[i].candidate == candidate && state.phases[i].kind == kind {
          return Some(i);
        }
      }
      return None;
    }

    /** Prepare, build and verify the baseline once, and remember its build. */
    method EnsureBaseline(ghost candidate: Option<CandidateId>, ghost kind: PhaseKind) returns (r: Outcome<BuildId>)
      requires InPhase(candidate, kind, 0) && disk == state
      modifies this`disk, this`state, this`budget
      ensures InPhase(candidate, kind, 0) && Progress(old(state), state) && Progress(old(disk), disk)
      ensures (r.Crashed? ==> budget == 0) && (r.Done? ==> disk == state && state.baseline == Some(r.value)) && (r.Raised? ==> !calm)
      ensures Current(state).comparisons == Current(old(state)).comparisons
      ensures old(state).baseline.Some? ==> r.Done? && state == old(state)
    {
      hide PhaseRuns, Progress;
      ghost var s0, d0 := state, disk;
      ProgressReflexive(s0);
      if state.baseline.Some? {
        return Done(state.baseline.value);
      }
      var build :- Prepare(candidate, kind);
      ghost var s1, d1 := state, disk;
      var receiptFails: bool := *;
      var staged := Checkpoint(ModelStage, [], [], candidate, kind, 0);
      assert Current(state).comparisons == Current(s1).comparisons + [] == Current(s1).comparisons;
      ProgressTransitive(s0, s1, state);
      ProgressTransitive(d0, d1, disk);
      if staged.Crashed? || (receiptFails && !calm) {
        return if staged.Crashed? then Crashed else Raised;
      }
      ghost var s2, d2 := state, disk;
      BaselineSet(state, runs, candidate, kind, build);
      BaselineProgresses(state, build);
      state := state.(baseline := Some(build));
      ProgressTransitive(s0, s2, state);
      ProgressTransitive(d0, s2, state);
      var saved := Save();
      ProgressReflexive(state);
      return if saved.Crashed? then Crashed else Done(build);
    }

    /** The build a confirmation measures: exactly the one its screening made. */
    method ScreenedCandidate(candidate: Option<CandidateId>) returns (r: Outcome<BuildId>)
      requires InPhase(candidate, Confirmation, 0) && disk == state
      modifies this`disk, this`state, this`budget
      ensures InPhase(candidate, Confirmation, 0) && Progress(old(state), state) && Progress(old(disk), disk)
      ensures (r.Crashed? ==> budget == 0) && (r.Done? ==> disk == state) && !r.Raised?
      ensures state.baseline == old(state).baseline && Current(state).comparisons == Current(old(state)).comparisons
      ensures r.Done? ==> ScreenedBuild(state.phases, candidate, r.value) && FirstBuild(Current(state).evidence).Some?
    {
      hide PhaseRuns, Progress;
      ghost var s := state;
      ProgressReflexive(s);
      var screening := FindPhase(candidate, Screening);
      ScreeningPassed(s, runs, candidate, 0);
      if screening.None? {
        assert false;
        return Raised;
      }
      var link := FirstBuild(state.phases[screening.value].evidence);
      if link.None? {
        assert false;
        return Raised;
      }
      assert ScreenedBuild(s.phases, candidate, link.value);
      FirstBuildAppends(Current(s).evidence, [Link(BuildLink, link.value)]);
      PhaseSound(s, runs, candidate, Confirmation, 0);
      var saved := Checkpoint(Current(state).stage, [Link(BuildLink, link.value)], [], candidate, Confirmation, 0);
      assert Current(state).comparisons == Current(s).comparisons + [] == Current(s).comparisons;
      StillScreened(s, state, candidate, link.value);
      return if saved.Crashed? then Crashed else Done(link.value);
    }

    /** The build the candidate's side measures: the baseline's, a fresh one, or the screened one. */
    method CandidateBuild(candidate: Option<CandidateId>, kind: PhaseKind, baseline: BuildId) returns (r: Outcome<BuildId>)
      requires InPhase(candidate, kind, 0) && disk == state && state.baseline == Some(baseline)
      requires candidate.None? <==> kind.Calibration?
      requires kind.Screening? ==> FirstBuild(Current(state).evidence).None?
      modifies this`disk, this`state, this`budget
      ensures InPhase(candidate, kind, 0) && Progress(old(state), state) && Progress(old(disk), disk)
      ensures (r.Crashed? ==> budget == 0) && (r.Done? ==> disk == state) && (r.Raised? ==> !calm)
      ensures state.baseline == Some(baseline) && Current(state).comparisons == Current(old(state)).comparisons
      ensures r.Done? ==> MeasuredBuild(state, candidate, kind, r.value)
    {
      if candidate.None? {
        ProgressReflexive(state);
        return Done(baseline);
      }
      if kind.Confirmation? {
        r := ScreenedCandidate(candidate);
        return r;
      }
      r := Prepare(candidate, kind);
      if r.Done? {
        CurrentIsScreened(state, candidate, r.value);
      }
    }

    /** One arm of a phase: a fresh suite execution, linked as evidence. `None` means it failed. */
    method MeasureArm(candidate: Option<CandidateId>, kind: PhaseKind, role: Role, build: BuildId, ghost spent: nat)
      returns (r: Outcome<Option<RunId>>)
      requires InPhase(candidate, kind, spent) && spent < SlotsOf(kind) && state.baseline.Some?
      requires if role.BaselineRole? then build == state.baseline.value else MeasuredBuild(state, candidate, kind, build)
      modifies this`disk, this`state, this`runs, this`budget
      ensures InPhase(candidate, kind, CountRuns(runs, candidate, kind)) && Progress(old(state), state) && Progress(old(disk), disk)
      ensures (r.Crashed? ==> budget == 0) && (r.Done? ==> disk == state) && (calm ==> !r.Raised? && r != Done(None))
      ensures state.baseline == old(state).baseline && Current(state).comparisons == Current(old(state)).comparisons
      ensures r.Done? ==> CountRuns(runs, candidate, kind) == spent + 1
      ensures r.Done? && r.value.Some? ==>
        && runs == old(runs) + [SuiteRun(candidate, kind, role, build, r.value.value)]
        && !Linked(old(state).phases, r.value.value) && Link(SuiteLink, r.value.value) in Current(state).evidence
    {
      hide PhaseRuns, Progress, CountRuns;
      ghost var s, d, before := state, disk, runs;
      ProgressReflexive(s);
      ProgressReflexive(d);
      Spent(state, runs, candidate, kind, spent);
      var drifted: bool := *;
      if drifted && !calm {
        return Raised;
      }
      var _ :- Checkpoint(SuiteStage, [], [], candidate, kind, spent);
      ghost var s1, d1 := state, disk;
      Unlinked(state.phases);
      var id: nat :| calm ==> !Linked(state.phases, id);
      var run := SuiteRun(candidate, kind, role, build, id);
      ArmJustified(s, s1, runs, run, spent);
      var result := RunSuite(candidate, kind, run, spent);
      if result.Crashed? {
        return Crashed;
      }
      Spent(state, runs, candidate, kind, spent + 1);
      if result.Raised? {
        return Raised;
      }
      LinksKept(s, s1, id);
      r := LinkArm(candidate, kind, id, spent + 1);
      ProgressTransitive(s, s1, state);
      ProgressTransitive(d, d1, disk);
    }

    /** Link a suite execution as evidence, unless it was linked before. `None` means its suite failed. */
    method LinkArm(ghost candidate: Option<CandidateId>, kind: PhaseKind, id: RunId, ghost spent: nat) returns (r: Outcome<Option<RunId>>)
      requires InPhase(candidate, kind, spent) && (calm ==> !Linked(state.phases, id))
      modifies this`disk, this`state, this`budget
      ensures InPhase(candidate, kind, spent) && Progress(old(state), state) && Progress(old(disk), disk)
      ensures (r.Crashed? ==> budget == 0) && (r.Done? ==> disk == state) && (calm ==> !r.Raised? && r != Done(None))
      ensures state.baseline == old(state).baseline && Current(state).comparisons == Current(old(state)).comparisons
      ensures r.Done? ==> (r.value.Some? ==> r.value.value == id) && !Linked(old(state).phases, id) && Link(SuiteLink, id) in Current(state).evidence
    {
      hide PhaseRuns, Progress, CountRuns;
      ProgressReflexive(state);
      ProgressReflexive(disk);
      if Linked(state.phases, id) {
        return Raised;
      }
      var saved := Checkpoint(SuiteStage, [Link(SuiteLink, id)], [], candidate, kind, spent);
      if saved.Crashed? {
        return Crashed;
      }
      var passed: bool := *;
      return Done(if passed || calm then Some(id) else None);
    }

    /** All arms of a phase, in order, each a fresh execution. `None` means one failed. */
    method MeasureArms(candidate: Option<CandidateId>, kind: PhaseKind, baseline: BuildId, build: BuildId)
      returns (r: Outcome<Option<seq<RunId>>>)
      requires InPhase(candidate, kind, 0) && disk == state && state.baseline == Some(baseline)
      requires MeasuredBuild(state, candidate, kind, build)
      modifies this`disk, this`state, this`runs, this`budget
      ensures InPhase(candidate, kind, CountRuns(runs, candidate, kind)) && Progress(old(state), state) && Progress(old(disk), disk)
      ensures (r.Crashed? ==> budget == 0) && (r.Done? ==> disk == state && MeasuredBuild(state, candidate, kind, build))
      ensures (calm ==> !r.Raised? && r != Done(None)) && (r == Done(None) ==> 1 <= CountRuns(runs, candidate, kind))
      ensures r.Done? && r.value.Some? ==> |runs| == |old(runs)| + SlotsOf(kind)
      ensures state.baseline == Some(baseline) && Current(state).comparisons == Current(old(state)).comparisons
      ensures r.Done? && r.value.Some? ==>
        |r.value.value| == SlotsOf(kind) == CountRuns(runs, candidate, kind) && ArmsRan(runs, candidate, kind, r.value.value)
    {
      hide PhaseRuns, Progress, CountRuns, MeasuredBuild, RanAs, Linked;
      ghost var s, d := state, disk;
      ProgressReflexive(s);
      ProgressReflexive(d);
      Spent(state, runs, candidate, kind, 0);
      var ids: seq<RunId> := [];
      var order := Order(kind);
      for i := 0 to |order|
        invariant InPhase(candidate, kind, i) && Progress(s, state) && Progress(d, disk) && disk == state
        invariant state.baseline == Some(baseline) && Current(state).comparisons == Current(s).comparisons
        invariant MeasuredBuild(state, candidate, kind, build)
        invariant |ids| == i && ArmsRan(runs, candidate, kind, ids) && |runs| == |old(runs)| + i
        invariant forall id | id in ids :: Link(SuiteLink, id) in Current(state).evidence
      {
        ghost var s1, d1, before := state, disk, runs;
        var id := MeasureArm(candidate, kind, order[i], if order[i].BaselineRole? then baseline else build, i);
        ProgressTransitive(s, s1, state);
        ProgressTransitive(d, d1, disk);
        StillMeasured(s1, state, candidate, kind, build);
        if !id.Done? {
          return if id.Raised? then Raised else Crashed;
        }
        if id.value.None? {
          return Done(None);
        }
        FreshArm(s1, state, ids, id.value.value);
        ArmAdded(before, runs[|before|], kind, ids);
        ids := ids + [id.value.value];
      }
      Spent(state, runs, candidate, kind, |order|);
      return Done(Some(ids));
    }

    /** Compare the arms pairwise and decide. */
    method CompareArms(ghost candidate: Option<CandidateId>, kind: PhaseKind, ids: seq<RunId>) returns (r: Outcome<Decision>)
      requires InPhase(candidate, kind, SlotsOf(kind)) && disk == state && Current(state).comparisons == []
      requires |ids| == SlotsOf(kind) && ArmsRan(runs, candidate, kind, ids)
      modifies this`disk, this`state, this`budget
      ensures InPhase(candidate, kind, SlotsOf(kind)) && Progress(old(state), state) && Progress(old(disk), disk)
      ensures (r.Crashed? ==> budget == 0) && (r.Done? ==> disk == state) && state.baseline == old(state).baseline
      ensures (r.Raised? ==> !calm) && (r == Done(CorrectnessFailed) ==> |Current(state).comparisons| < SlotsOf(kind) / 2)
      ensures r.Done? && IsVerdict(r.value) ==>
        Balanced(Current(state), runs) && Supported(kind, r.value, Current(state).comparisons, state.policy)
      ensures r.Done? ==> IsVerdict(r.value) || r.value.CorrectnessFailed?
    {
      hide PhaseRuns, Progress, ArmsRan, MeetsObjective, Balanced, Supported;
      ghost var s, d := state, disk;
      ProgressReflexive(s);
      ProgressReflexive(d);
      var comparisons: seq<Comparison> := [];
      var pairs := Pairs(kind);
      for i := 0 to |pairs|
        invariant InPhase(candidate, kind, SlotsOf(kind)) && Progress(s, state) && Progress(d, disk) && disk == state
        invariant state.baseline == s.baseline && state.policy == s.policy
        invariant Current(state).comparisons == comparisons && Paired(comparisons, kind, ids) && |comparisons| == i
      {
        ghost var s1, d1 := state, disk;
        var pair := pairs[i];
        var compared := Compare(candidate, kind, ids[pair.0], ids[pair.1]);
        ProgressTransitive(s, s1, state);
        ProgressTransitive(d, d1, disk);
        if !compared.Done? {
          return if compared.Raised? then Raised else Crashed;
        }
        if compared.value.None? {
          return Done(CorrectnessFailed);
        }
        comparisons := comparisons + [compared.value.value];
      }
      PairsBalance(Current(state), runs, candidate, kind, ids);
      r := Done(Decide(kind, comparisons, state.policy));
      DecisionSupported(kind, comparisons, state.policy);
    }

    /** One comparison. `None` means the arms produced different tokens. */
    method Compare(ghost candidate: Option<CandidateId>, ghost kind: PhaseKind, baseline: RunId, challenger: RunId)
      returns (r: Outcome<Option<Comparison>>)
      requires InPhase(candidate, kind, SlotsOf(kind))
      modifies this`disk, this`state, this`budget
      ensures InPhase(candidate, kind, SlotsOf(kind)) && Progress(old(state), state) && Progress(old(disk), disk)
      ensures (r.Crashed? ==> budget == 0) && (r.Done? ==> disk == state) && (r.Raised? ==> !calm)
      ensures state.baseline == old(state).baseline && state.policy == old(state).policy
      ensures r == Done(None) ==> Current(state).comparisons == Current(old(state)).comparisons
      ensures r.Done? && r.value.Some? ==>
        && r.value.value.baseline == baseline && r.value.value.candidate == challenger
        && Current(state).comparisons == Current(old(state)).comparisons + [r.value.value]
    {
      hide PhaseRuns, Progress;
      ghost var s, d := state, disk;
      var _ :- Checkpoint(ComparisonStage, [], [], candidate, kind, SlotsOf(kind));
      ghost var s1, d1 := state, disk;
      var unavailable: bool := *;
      if unavailable && !calm {
        return Raised;
      }
      var sameTokens: bool := *;
      if !sameTokens {
        return Done(None);
      }
      var fails: bool := *;
      if fails && !calm {
        return Raised;
      }
      var id: nat :| true;
      var verdict: Verdict :| true;
      var cases: seq<CaseReport> :| true;
      var comparison := Comparison(baseline, challenger, verdict, cases);
      var saved := Checkpoint(ComparisonStage, [Link(ComparisonLink, id)], [], candidate, kind, SlotsOf(kind));
      ProgressTransitive(s, s1, state);
      ProgressTransitive(d, d1, disk);
      if saved.Crashed? {
        return Crashed;
      }
      ghost var s2, d2 := state, disk;
      saved := Checkpoint(ComparisonStage, [], [comparison], candidate, kind, SlotsOf(kind));
      ProgressTransitive(s, s2, state);
      ProgressTransitive(d, d2, disk);
      return if saved.Crashed? then Crashed else Done(Some(comparison));
    }

    /** Everything between the reservation of a phase and its decision. */
    method ExecutePhase(candidate: Option<CandidateId>, kind: PhaseKind) returns (r: Outcome<Decision>)
      requires InPhase(candidate, kind, 0) && disk == state
      requires candidate.None? <==> kind.Calibration?
      requires Current(state).comparisons == [] && Current(state).evidence == []
      requires !kind.Calibration? ==> state.baseline.Some?
      modifies this`disk, this`state, this`runs, this`budget
      ensures InPhase(candidate, kind, CountRuns(runs, candidate, kind)) && Progress(old(state), state) && Progress(old(disk), disk)
      ensures (r.Crashed? ==> budget == 0) && (r.Done? ==> disk == state && state.baseline.Some?)
      ensures r.Done? ==> Measured(Current(Close(state, Completed, r.value)), runs, state.policy) && !r.value.ExecutionFailed?
      ensures calm ==> !r.Raised? && (r.Done? ==> Concluded(r.value) && |runs| == |old(runs)| + SlotsOf(kind))
    {
      hide PhaseRuns, Progress, CountRuns, MeasuredBuild, ArmsRan, Balanced, Supported;
      ghost var s, d := state, disk;
      Spent(state, runs, candidate, kind, 0);
      var baseline :- EnsureBaseline(candidate, kind);
      ghost var s1, d1 := state, disk;
      var build := CandidateBuild(candidate, kind, baseline);
      ProgressTransitive(s, s1, state);
      ProgressTransitive(d, d1, disk);
      if !build.Done? {
        return if build.Raised? then Raised else Crashed;
      }
      ghost var s2, d2 := state, disk;
      var arms := MeasureArms(candidate, kind, baseline, build.value);
      ProgressTransitive(s, s2, state);
      ProgressTransitive(d, d2, disk);
      if !arms.Done? {
        return if arms.Raised? then Raised else Crashed;
      }
      if arms.value.None? {
        return Done(SuiteFailed);
      }
      ghost var s3, d3 := state, disk;
      r := CompareArms(candidate, kind, arms.value.value);
      ProgressTransitive(s, s3, state);
      ProgressTransitive(d, d3, disk);
      if r.Done? {
        StillMeasured(s3, state, candidate, kind, build.value);
        DecisionMeasured(state, runs, candidate, kind, build.value, r.value);
      }
    }

    /** Reserve a phase, durably, before any side effect; then execute and close it. `false` means
        the budget does not cover it. */
    method RunPhase(candidate: Option<CandidateId>, kind: PhaseKind, stable: bool) returns (r: Outcome<bool>)
      requires Sound() && disk == state && Idle(state) && !IsTerminal(state.status)
      requires !HasPhase(state.phases, candidate, kind) && Admissible(state.phases, candidate, kind)
      requires candidate.Some? ==> Due(state.phases, candidates, candidate.value)
      modifies this`disk, this`state, this`runs, this`budget
      ensures Sound() && Continues(old(disk), disk)
      ensures (r.Crashed? ==> budget == 0) && (r.Raised? ==> !stable && disk == old(disk) && runs == old(runs))
      ensures r.Done? ==> disk == state && Idle(state)
      ensures r.Done? && !r.value ==>
        state == old(state).(status := BudgetExhausted) && state.reserved + SlotsOf(kind) > state.maxRuns && runs == old(runs)
      ensures r.Done? && r.value ==>
        && state.status.Active? && |state.phases| == |old(state).phases| + 1 && old(state).phases <= state.phases
        && Current(state).candidate == candidate && Current(state).kind == kind
      ensures calm && r.Done? ==> UsedUp(old(state), |old(runs)|, state, |runs|)
    {
      hide PhaseRuns, Progress, Continues, Inv, Idle, Admissible, HasPhase, EvaluatedOne, Due;
      ghost var s := state;
      ContinuesReflexive(s);
      if state.reserved + SlotsOf(kind) > state.maxRuns {
        StatusKeeps(s, BudgetExhausted, runs);
        assert DoesNotFit(s.(status := BudgetExhausted), candidates, candidate, kind);
        state := state.(status := BudgetExhausted);
        var _ :- Save();
        return Done(false);
      }
      var drifted: bool := *;
      if drifted && !stable {
        return Raised;
      }
      ReserveKeeps(s, runs, candidate, kind);
      GateShape(s, runs, candidate, kind);
      ReserveShape(s, candidate, kind);
      state := state.(status := Active, reserved := state.reserved + SlotsOf(kind),
        phases := state.phases + [Phase(candidate, kind, SlotsOf(kind), Running, Reserved, None, [], [])]);
      var _ :- Save();
      r := ClosePhase(s, candidate, kind);
    }

    /** Execute a reserved phase and record how it ended. */
    method ClosePhase(ghost before: State, candidate: Option<CandidateId>, kind: PhaseKind) returns (r: Outcome<bool>)
      requires InPhase(candidate, kind, 0) && disk == state && state == Reserve(before, candidate, kind)
      requires candidate.None? <==> kind.Calibration?
      requires !kind.Calibration? ==> state.baseline.Some?
      requires Continues(before, state)
      modifies this`disk, this`state, this`runs, this`budget
      ensures Sound() && Continues(before, disk) && r != Done(false) && !r.Raised? && (r.Crashed? ==> budget == 0)
      ensures r.Done? ==>
        && disk == state && Idle(state) && state.status.Active? && |state.phases| == |before.phases| + 1 && before.phases <= state.phases
        && Current(state).candidate == candidate && Current(state).kind == kind
      ensures calm && r.Done? ==> UsedUp(before, |old(runs)|, state, |runs|)
    {
      hide PhaseRuns, Progress, CountRuns, Continues, Inv, Idle, Measured, StatusOk, Concluded, StageFits;
      ghost var s := state;
      var decision := ExecutePhase(candidate, kind);
      ghost var spent := CountRuns(runs, candidate, kind);
      ProgressContinues(s, state, before);
      ProgressContinues(s, disk, before);
      PhaseSound(disk, runs, candidate, kind, spent);
      PhaseSound(state, runs, candidate, kind, spent);
      RunningIsActive(disk, runs, candidates);
      if decision.Crashed? {
        return Crashed;
      }
      ghost var executed := state;
      if decision.Raised? {
        LinkFailure(candidate, kind, spent);
        ProgressTransitive(s, executed, state);
      }
      ghost var t := state;
      PhaseSound(t, runs, candidate, kind, spent);
      var status := if decision.Raised? then Failed else Completed;
      var outcome := if decision.Raised? then ExecutionFailed(Current(state).stage) else decision.value;
      FailureMeasured(state, runs, candidate, kind, spent);
      CloseKeeps(state, runs, status, outcome);
      CloseShape(s, t, before, status, outcome);
      ClosedIsActive(state, runs, candidates, status, outcome);
      if calm {
        ClosedUsedUp(before, candidate, kind, t, status, outcome, |old(runs)|, |runs|);
      }
      hide UsedUp;
      state := Close(state, status, outcome);
      var _ :- Save();
      return Done(true);
    }

    /** Keep the evidence of the execution that failed, if it is known; it is saved with the decision. */
    method LinkFailure(ghost candidate: Option<CandidateId>, ghost kind: PhaseKind, ghost spent: nat)
      requires InPhase(candidate, kind, spent)
      modifies this`state
      ensures InPhase(candidate, kind, spent) && Progress(old(state), state)
    {
      hide PhaseRuns, Progress, Inv;
      ghost var s := state;
      ProgressReflexive(s);
      var known: bool := *;
      if known {
        var id: nat :| true;
        var link := Link(if Current(state).stage.ComparisonStage? then ComparisonLink else SuiteLink, id);
        PhaseSound(s, runs, candidate, kind, spent);
        AmendKeeps(s, runs, candidate, kind, spent, Current(s).stage, [link], []);
        AmendProgresses(s, Current(s).stage, [link], []);
        ProgressTransitive(disk, s, Amend(s, Current(s).stage, [link], []));
        state := Amend(state, Current(state).stage, [link], []);
      }
    }

    /** The phases with everything that was running marked as interrupted. */
    method Interrupt(before: seq<Phase>) returns (phases: seq<Phase>, pending: bool, calibration: bool)
      ensures |phases| == |before| && forall j | 0 <= j < |phases| :: phases[j] == SpentPhase(before[j])
      ensures pending <==> exists j | 0 <= j < |before| :: before[j].status.Running?
      ensures calibration <==> exists j | 0 <= j < |before| :: before[j].status.Running? && before[j].kind.Calibration?
    {
      phases, pending, calibration := before, false, false;
      for i := 0 to |before|
        invariant |phases| == |before|
        invariant forall j | 0 <= j < i :: phases[j] == SpentPhase(before[j])
        invariant forall j | i <= j < |phases| :: phases[j] == before[j]
        invariant pending <==> exists j | 0 <= j < i :: before[j].status.Running?
        invariant calibration <==> exists j | 0 <= j < i :: before[j].status.Running? && before[j].kind.Calibration?
      {
        if before[i].status.Running? {
          phases := phases[i := before[i].(status := Interrupted, decision := Some(UnknownOutcome), stage := Terminal)];
          pending := true;
          calibration := calibration || before[i].kind.Calibration?;
        }
      }
    }

    /** Work that was running when an earlier process stopped is spent, never replayed. */
    method SpendPending() returns (r: Outcome<()>)
      requires Sound() && disk == state
      modifies this`disk, this`state, this`budget
      ensures Sound() && Continues(old(disk), disk) && !r.Raised? && (r.Crashed? ==> budget == 0)
      ensures r.Done? ==> disk == state && Idle(state) && |disk.phases| == |old(disk).phases| && disk.reserved == old(disk).reserved
      ensures Idle(old(disk)) ==> r.Done? && disk == old(disk)
    {
      IdleMeans(state);
      hide Inv, Continues, Idle;
      var phases, pending, calibration := Interrupt(state.phases);
      ContinuesReflexive(state);
      if !pending {
        return Done(());
      }
      SpendKeeps(state, phases, runs);
      StatusKeeps(state.(phases := phases), if calibration then Stopped else Active, runs);
      ContinuesTransitive(state, state.(phases := phases), state.(phases := phases, status := if calibration then Stopped else Active));
      SpentStatus(state, phases, runs, candidates, calibration);
      state := state.(phases := phases, status := if calibration then Stopped else Active);
      r := Save();
    }

    /** Screen one candidate, and confirm it if the screening passed. `false` means the budget ended
        the campaign. */
    method Evaluate(candidate: CandidateId, stable: bool) returns (r: Outcome<bool>)
      requires Sound() && disk == state && Idle(state) && !IsTerminal(state.status) && InconclusiveCalibration(state.phases)
      requires Due(state.phases, candidates, candidate)
      modifies this`disk, this`state, this`runs, this`budget
      ensures Sound() && Continues(old(disk), disk)
      ensures (r.Crashed? ==> budget == 0) && (r.Raised? ==> !stable)
      ensures r.Done? ==> disk == state && Idle(state) && old(state).phases <= state.phases && (r.value <==> !IsTerminal(state.status))
      ensures r == Done(true) ==> EvaluatedOne(state.phases, candidate)
      ensures calm && r.Done? ==> UsedUp(old(state), |old(runs)|, state, |runs|)
    {
      hide Continues, Idle, Inv, EvaluatedOne;
      ghost var d := disk;
      ContinuesReflexive(d);
      var screening := FindPhase(Some(candidate), Screening);
      if screening.None? {
        var admitted := RunPhase(Some(candidate), Screening, stable);
        if !admitted.Done? || !admitted.value {
          return admitted;
        }
        screening := Some(|state.phases| - 1);
      }
      ghost var d1 := disk;
      StillCalibrated(old(state).phases, state.phases);
      StillDue(old(state), state, runs, candidates, candidate);
      r := ConfirmIfPassed(candidate, screening.value, stable);
      ContinuesTransitive(d, d1, disk);
    }

    /** Confirm a screened candidate, once, if its screening passed. */
    method ConfirmIfPassed(candidate: CandidateId, screening: nat, stable: bool) returns (r: Outcome<bool>)
      requires Sound() && disk == state && Idle(state) && !IsTerminal(state.status) && InconclusiveCalibration(state.phases)
      requires Due(state.phases, candidates, candidate)
      requires screening < |state.phases| && state.phases[screening].candidate == Some(candidate) && state.phases[screening].kind.Screening?
      modifies this`disk, this`state, this`runs, this`budget
      ensures Sound() && Continues(old(disk), disk)
      ensures (r.Crashed? ==> budget == 0) && (r.Raised? ==> !stable)
      ensures r.Done? ==> disk == state && Idle(state) && old(state).phases <= state.phases && (r.value <==> !IsTerminal(state.status))
      ensures r == Done(true) ==> EvaluatedOne(state.phases, candidate)
      ensures calm && r.Done? ==> UsedUp(old(state), |old(runs)|, state, |runs|)
    {
      hide Continues, Idle, Inv, InconclusiveCalibration, EvaluatedOne, Admissible;
      ContinuesReflexive(disk);
      ScreeningDecides(state, runs, candidate, screening);
      if state.phases[screening].decision != Some(ObjectiveMet) {
        return Done(true);
      }
      var confirmation := FindPhase(Some(candidate), Confirmation);
      if confirmation.Some? {
        return Done(true);
      }
      ghost var phases := state.phases;
      r := RunPhase(Some(candidate), Confirmation, stable);
      if r == Done(true) {
        ConfirmedNow(phases, state.phases, candidate);
      }
    }

    /** Admit phases in order: calibration once, then every candidate of the plan. */
    method Admit(stable: bool) returns (r: Outcome<()>)
      requires Sound() && disk == state && Idle(state) && !IsTerminal(state.status)
      modifies this`disk, this`state, this`runs, this`budget
      ensures Sound() && Continues(old(disk), disk)
      ensures (r.Crashed? ==> budget == 0) && (r.Raised? ==> !stable)
      ensures r.Done? ==> IsTerminal(disk.status) && disk == state
      ensures calm && r.Done? ==> UsedUp(old(state), |old(runs)|, state, |runs|)
    {
      hide Continues, Idle, Inv;
      ghost var d := disk;
      ContinuesReflexive(d);
      if state.phases == [] {
        var admitted :- RunPhase(None, Calibration, stable);
        if !admitted {
          return Done(());
        }
      }
      ghost var d1 := disk;
      CalibrationIsOver(state, candidates);
      if state.phases[0].decision != Some(Judged(Inconclusive)) {
        r := Settle(Blocked);
        ContinuesTransitive(d, d1, disk);
        return r;
      }
      CalibratedMeans(state, runs);
      for i := 0 to |candidates|
        invariant Sound() && disk == state && Idle(state) && !IsTerminal(state.status) && Continues(d, disk)
        invariant InconclusiveCalibration(state.phases)
        invariant forall j | 0 <= j < i :: EvaluatedOne(state.phases, candidates[j])
        invariant calm ==> UsedUp(d, |old(runs)|, state, |runs|)
      {
        ghost var d2 := disk;
        var more := Evaluate(candidates[i], stable);
        ContinuesTransitive(d, d2, disk);
        if !more.Done? {
          return if more.Raised? then Raised else Crashed;
        }
        if !more.value {
          return Done(());
        }
        forall j | 0 <= j < i
          ensures EvaluatedOne(state.phases, candidates[j])
        {
          StillEvaluated(d2, disk, runs, candidates[j]);
        }
      }
      ghost var d3 := disk;
      r := Settle(Finished);
      ContinuesTransitive(d, d3, disk);
    }

    /** Record a terminal status. */
    method Settle(status: CampaignStatus) returns (r: Outcome<()>)
      requires Sound() && disk == state && Idle(state)
      requires status == SettledStatus(state.phases, candidates) && (status.Blocked? || status.Finished?)
      modifies this`disk, this`state, this`budget
      ensures Sound() && Continues(old(disk), disk) && !r.Raised? && (r.Crashed? ==> budget == 0)
      ensures r.Done? ==> disk == state && state == old(state).(status := status)
    {
      StatusKeeps(state, status, runs);
      ContinuesReflexive(state);
      hide Inv, Continues, Idle, EvaluatedOne;
      state := state.(status := status);
      r := Save();
    }

    lemma EndedIsIdle()
      requires Sound()
      ensures IsTerminal(disk.status) ==> Idle(disk)
    {
    }

    /** Resume the campaign: spend interrupted work, then admit phases until the plan is evaluated,
        blocked or out of budget. `stable` says that no input, receipt or evidence drifted. */
    method Resume(stable: bool) returns (r: Outcome<()>)
      requires Sound()
      modifies this`disk, this`state, this`runs, this`budget
      ensures Sound() && Continues(old(disk), disk)
      ensures (r.Crashed? ==> budget == 0) && (r.Raised? ==> !stable)
      ensures r.Done? ==> IsTerminal(disk.status) && disk == state && disk.status == SettledStatus(disk.phases, candidates)
      ensures r.Done? && disk.phases == [] ==> disk.reserved + SlotsOf(Calibration) > disk.maxRuns
      ensures IsTerminal(old(disk).status) ==> disk == old(disk) && runs == old(runs)
      ensures calm && r.Done? ==> UsedUp(old(disk), |old(runs)|, disk, |runs|)
      ensures calm && r.Done? && old(disk).phases == [] && disk.phases != [] ==> CountRuns(runs, None, Calibration) == 2
    {
      hide Inv, Continues, Idle, StatusOk, UsedUp, SettledStatus, CountRuns, InconclusiveCalibration;
      ghost var d := disk;
      ContinuesReflexive(d);
      EndedIsIdle();
      state := disk;
      var drifted: bool := *;
      if drifted && !stable {
        return Raised;
      }
      var _ :- SpendPending();
      if IsTerminal(state.status) {
        SettledMeans(state, candidates);
        NothingUsed(d, disk, |runs|);
        return Done(());
      }
      var stale: bool := *;
      if state.baseline.Some? && stale && !stable {
        return Raised;
      }
      ghost var d1 := disk;
      r := Admit(stable);
      ContinuesTransitive(d, d1, disk);
      if r.Done? {
        SettledMeans(disk, candidates);
        UsedUpSince(d, d1, |old(runs)|, disk, |runs|);
        if calm && d.phases == [] && disk.phases != [] {
          CalibrationUsedUp(d, |old(runs)|, disk, runs);
        }
      }
    }

    /** Any number of processes resume the campaign, each stopping wherever its budget ends. A campaign
        that has ended has the status its phases call for. */
    method RunHistory(processes: seq<(nat, bool, bool)>)
      requires Sound()
      modifies this
      ensures Sound() && Continues(old(disk), disk)
      ensures IsTerminal(disk.status) ==> disk.status == SettledStatus(disk.phases, candidates)
    {
      hide Inv, Continues;
      ghost var d := disk;
      ContinuesReflexive(d);
      for i := 0 to |processes|
        invariant Sound() && Continues(d, disk)
      {
        ghost var d1 := disk;
        budget, calm := processes[i].0, processes[i].1;
        var _ := Resume(processes[i].2);
        ContinuesTransitive(d, d1, disk);
      }
      if IsTerminal(disk.status) {
        SettledMeans(disk, candidates);
      }
    }
  }

  /** The build a phase's candidate side is about; a candidate's phase has linked it. */
  predicate MeasuredBuild(s: State, candidate: Option<CandidateId>, kind: PhaseKind, build: BuildId)
    requires s.phases != []
  {
    if kind.Calibration? then s.baseline == Some(build)
    else ScreenedBuild(s.phases, candidate, build) && FirstBuild(Current(s).evidence).Some?
  }

  lemma Spent(s: State, runs: seq<SuiteRun>, candidate: Option<CandidateId>, kind: PhaseKind, spent: nat)
    requires PhaseRuns(s, runs, candidate, kind, spent)
    ensures CountRuns(runs, candidate, kind) == spent
  {
  }

  lemma ArmJustified(s: State, t: State, runs: seq<SuiteRun>, run: SuiteRun, spent: nat)
    requires Progress(s, t) && s.baseline.Some? && PhaseRuns(t, runs, run.candidate, run.kind, spent)
    requires if run.role.BaselineRole? then run.build == s.baseline.value else MeasuredBuild(s, run.candidate, run.kind, run.build)
    ensures RunJustified(t, run)
  {
    SameKeys(s.phases, t.phases);
    assert t.phases[|t.phases| - 1] == Current(t);
  }

  lemma StillMeasured(s: State, t: State, candidate: Option<CandidateId>, kind: PhaseKind, build: BuildId)
    requires Progress(s, t) && MeasuredBuild(s, candidate, kind, build)
    ensures MeasuredBuild(t, candidate, kind, build)
  {
    SameKeys(s.phases, t.phases);
  }

  /** Earlier ids stay linked, so an id that was not linked differs from all of them. */
  lemma FreshArm(s: State, t: State, ids: seq<RunId>, id: RunId)
    requires Progress(s, t) && !Linked(s.phases, id) && forall k | k in ids :: Link(SuiteLink, k) in Current(s).evidence
    ensures id !in ids && forall k | k in ids :: Link(SuiteLink, k) in Current(t).evidence
  {
    assert Current(s) in s.phases;
    assert forall l | l in Current(s).evidence :: l in Current(t).evidence;
  }

  lemma ArmAdded(runs: seq<SuiteRun>, run: SuiteRun, kind: PhaseKind, ids: seq<RunId>)
    requires ArmsRan(runs, run.candidate, kind, ids) && run.kind == kind && |ids| < |Order(kind)|
    requires run.role == Order(kind)[|ids|] && run.id !in ids
    ensures ArmsRan(runs + [run], run.candidate, kind, ids + [run.id])
  {
    var longer, more := runs + [run], ids + [run.id];
    assert longer[|runs|] == run;
    forall i | 0 <= i < |more|
      ensures RanAs(longer, run.candidate, kind, Order(kind)[i], more[i])
    {
      if i < |ids| {
        StillRan(runs, run, run.candidate, kind, Order(kind)[i], ids[i]);
      }
    }
  }

  /** The comparisons made so far follow the pairing of the phase. */
  predicate Paired(comparisons: seq<Comparison>, kind: PhaseKind, ids: seq<RunId>)
    requires |ids| == SlotsOf(kind)
  {
    && |comparisons| <= |Pairs(kind)|
    && forall i | 0 <= i < |comparisons| ::
         comparisons[i].baseline == ids[Pairs(kind)[i].0] && comparisons[i].candidate == ids[Pairs(kind)[i].1]
  }

  /** The decision of a phase: the common verdict of its comparisons, or mixed. */
  function Decide(kind: PhaseKind, comparisons: seq<Comparison>, policy: Policy): Decision
    requires |comparisons| == SlotsOf(kind) / 2
  {
    if kind.Calibration? then Judged(comparisons[0].verdict)
    else
      var first, second := MeetsObjective(comparisons[0].cases, policy), MeetsObjective(comparisons[1].cases, policy);
      if first != second then Mixed else if first then ObjectiveMet else ObjectiveNotMet
  }

  lemma DecisionSupported(kind: PhaseKind, comparisons: seq<Comparison>, policy: Policy)
    requires |comparisons| == SlotsOf(kind) / 2
    ensures Supported(kind, Decide(kind, comparisons, policy), comparisons, policy)
  {
    hide MeetsObjective;
  }

  lemma PairsBalance(p: Phase, runs: seq<SuiteRun>, candidate: Option<CandidateId>, kind: PhaseKind, ids: seq<RunId>)
    requires p.candidate == candidate && p.kind == kind && |ids| == SlotsOf(kind) && ArmsRan(runs, candidate, kind, ids)
    requires Paired(p.comparisons, kind, ids) && |p.comparisons| == |Pairs(kind)|
    ensures Balanced(p, runs)
  {
    hide RanAs;
    assert forall i | 0 <= i < |ids| :: RanAs(runs, candidate, kind, Order(kind)[i], ids[i]);
  }

  lemma DecisionMeasured(s: State, runs: seq<SuiteRun>, candidate: Option<CandidateId>, kind: PhaseKind, build: BuildId, d: Decision)
    requires PhaseRuns(s, runs, candidate, kind, SlotsOf(kind)) && MeasuredBuild(s, candidate, kind, build)
    requires if IsVerdict(d) then Balanced(Current(s), runs) && Supported(kind, d, Current(s).comparisons, s.policy)
             else d.CorrectnessFailed? && |Current(s).comparisons| < SlotsOf(kind) / 2
    ensures Measured(Current(Close(s, Completed, d)), runs, s.policy)
  {
    hide RanAs, MeetsObjective, Gated, Counted, RunJustified, Loadable;
  }

  lemma StatusKeeps(s: State, status: CampaignStatus, runs: seq<SuiteRun>)
    requires Inv(s, runs) && Idle(s)
    ensures Inv(s.(status := status), runs) && Continues(s, s.(status := status)) && Idle(s.(status := status))
  {
    hide Gated, Measured, Counted, HasPhase, ScreenedBuild;
    forall run | run in runs
      ensures RunJustified(s.(status := status), run)
    {
      assert RunJustified(s, run);
    }
  }

  /** While a phase runs, the calibration is running or has vouched for the machine. */
  lemma RunningIsActive(s: State, runs: seq<SuiteRun>, candidates: seq<CandidateId>)
    requires Inv(s, runs) && s.phases != [] && Current(s).status.Running? && s.status.Active?
    ensures StatusOk(s, candidates)
    ensures |s.phases| > 1 ==> InconclusiveCalibration(s.phases)
    ensures Current(s).kind.Calibration? <==> |s.phases| == 1
  {
    assert Gated(s.phases, |s.phases| - 1);
  }

  lemma ClosedIsActive(s: State, runs: seq<SuiteRun>, candidates: seq<CandidateId>, status: PhaseStatus, decision: Decision)
    requires Inv(s, runs) && s.phases != [] && Current(s).status.Running? && s.status.Active?
    requires status.Completed? || status.Failed?
    ensures StatusOk(Close(s, status, decision), candidates)
  {
    RunningIsActive(s, runs, candidates);
  }

  lemma SpentStatus(s: State, phases: seq<Phase>, runs: seq<SuiteRun>, candidates: seq<CandidateId>, calibration: bool)
    requires Inv(s, runs) && |phases| == |s.phases| && forall j | 0 <= j < |phases| :: phases[j] == SpentPhase(s.phases[j])
    requires exists j | 0 <= j < |s.phases| :: s.phases[j].status.Running?
    requires calibration <==> exists j | 0 <= j < |s.phases| :: s.phases[j].status.Running? && s.phases[j].kind.Calibration?
    ensures StatusOk(s.(phases := phases, status := if calibration then Stopped else Active), candidates)
  {
    assert Current(s).status.Running?;
    RunningIsActive(s, runs, candidates);
  }

  /** Once it is not running, the calibration of an open campaign has ended with a decision. */
  lemma CalibrationIsOver(s: State, candidates: seq<CandidateId>)
    requires StatusOk(s, candidates) && Idle(s) && !IsTerminal(s.status) && s.phases != []
    ensures CalibrationFailed(s.phases) <==> s.phases[0].decision != Some(Judged(Inconclusive))
    ensures !CalibrationInterrupted(s.phases)
  {
    assert s.phases[0] in s.phases;
  }

  lemma StillDue(s: State, t: State, runs: seq<SuiteRun>, candidates: seq<CandidateId>, candidate: CandidateId)
    requires Inv(t, runs) && s.phases <= t.phases && Due(s.phases, candidates, candidate)
    ensures Due(t.phases, candidates, candidate)
  {
    var i :| 0 <= i < |candidates| && candidates[i] == candidate && forall j | 0 <= j < i :: EvaluatedOne(s.phases, candidates[j]);
    forall j | 0 <= j < i
      ensures EvaluatedOne(t.phases, candidates[j])
    {
      StillEvaluated(s, t, runs, candidates[j]);
    }
  }

  lemma GateShape(s: State, runs: seq<SuiteRun>, candidate: Option<CandidateId>, kind: PhaseKind)
    requires Inv(s, runs) && Admissible(s.phases, candidate, kind)
    ensures candidate.None? <==> kind.Calibration?
    ensures !kind.Calibration? ==> s.baseline.Some?
  {
  }

  /** A number larger than every link's id. */
  function Above(links: seq<Link>): nat {
    if links == [] then 0
    else
      var rest := Above(links[1..]);
      if links[0].id < rest then rest else links[0].id + 1
  }

  function AboveAll(phases: seq<Phase>): nat {
    if phases == [] then 0
    else
      var first, rest := Above(phases[0].evidence), AboveAll(phases[1..]);
      if first < rest then rest else first
  }

  lemma {:induction false} AboveMeans(links: seq<Link>)
    ensures forall l | l in links :: l.id < Above(links)
  {
    if links != [] {
      AboveMeans(links[1..]);
      assert forall l | l in links :: l == links[0] || l in links[1..];
    }
  }

  /** There is always an id no evidence links yet. */
  lemma {:induction false} Unlinked(phases: seq<Phase>)
    ensures !Linked(phases, AboveAll(phases))
    ensures forall id | AboveAll(phases) <= id :: !Linked(phases, id)
  {
    if phases != [] {
      Unlinked(phases[1..]);
      AboveMeans(phases[0].evidence);
      forall id, p | AboveAll(phases) <= id && p in phases
        ensures Link(SuiteLink, id) !in p.evidence
      {
        if p != phases[0] {
          assert p in phases[1..] && !Linked(phases[1..], id);
        }
      }
    }
  }

  /** A confirmation that runs has a screening that passed, the only one of its candidate. */
  lemma ScreeningPassed(s: State, runs: seq<SuiteRun>, candidate: Option<CandidateId>, spent: nat)
    requires PhaseRuns(s, runs, candidate, Confirmation, spent)
    ensures HasPhase(s.phases, candidate, Screening)
    ensures forall i | 0 <= i < |s.phases| && s.phases[i].candidate == candidate && s.phases[i].kind.Screening? ::
      FirstBuild(s.phases[i].evidence).Some?
  {
    GateMeans(s, runs, |s.phases| - 1);
    var j :| 0 <= j < |s.phases| - 1 && s.phases[j].candidate == candidate && s.phases[j].kind.Screening? && Passed(s.phases[j]);
    PhaseUnique(s, runs, j);
  }

  lemma ReserveShape(s: State, candidate: Option<CandidateId>, kind: PhaseKind)
    ensures Progress(Reserve(s, candidate, kind), Reserve(s, candidate, kind))
  {
  }

  lemma ProgressContinues(s: State, t: State, before: State)
    requires Progress(s, t) && Continues(before, s)
    ensures Continues(before, t)
  {
    ContinuesTransitive(before, s, t);
  }

  lemma PhaseSound(s: State, runs: seq<SuiteRun>, candidate: Option<CandidateId>, kind: PhaseKind, spent: nat)
    requires PhaseRuns(s, runs, candidate, kind, spent)
    ensures Inv(s, runs) && s.status.Active? && Current(s).decision.None? && Current(s).status.Running?
    ensures StageFits(Current(s).stage, kind, spent)
  {
    assert Measured(s.phases[|s.phases| - 1], runs, s.policy);
  }

  lemma FailureMeasured(s: State, runs: seq<SuiteRun>, candidate: Option<CandidateId>, kind: PhaseKind, spent: nat)
    requires PhaseRuns(s, runs, candidate, kind, spent)
    ensures Measured(Current(Close(s, Failed, ExecutionFailed(Current(s).stage))), runs, s.policy)
  {
  }

  lemma CloseShape(s: State, t: State, before: State, status: PhaseStatus, decision: Decision)
    requires Progress(s, t) && Continues(before, s) && before.phases == s.phases[..|s.phases| - 1] && t.status.Active?
    requires Current(t).decision.None?
    ensures var u := Close(t, status, decision);
      && Continues(before, u) && |u.phases| == |before.phases| + 1 && before.phases <= u.phases && u.status.Active?
      && Current(u).candidate == Current(s).candidate && Current(u).kind == Current(s).kind
  {
    SameKeys(s.phases, t.phases);
    var u := Close(t, status, decision);
    assert u.phases[..|before.phases|] == before.phases;
  }

  lemma ClosedUsedUp(before: State, candidate: Option<CandidateId>, kind: PhaseKind, t: State, status: PhaseStatus, decision: Decision,
      i: nat, k: nat)
    requires Progress(Reserve(before, candidate, kind), t) && Concluded(decision) && k == i + SlotsOf(kind)
    ensures UsedUp(before, i, Close(t, status, decision), k)
  {
  }

  function SpentPhase(p: Phase): Phase {
    if p.status.Running? then p.(status := Interrupted, decision := Some(UnknownOutcome), stage := Terminal) else p
  }

  lemma SpendKeeps(s: State, phases: seq<Phase>, runs: seq<SuiteRun>)
    requires Inv(s, runs) && |phases| == |s.phases| && forall j | 0 <= j < |phases| :: phases[j] == SpentPhase(s.phases[j])
    requires exists j | 0 <= j < |s.phases| :: s.phases[j].status.Running?
    ensures var t := s.(phases := phases); Inv(t, runs) && Continues(s, t) && Idle(t)
  {
    var n := |phases| - 1;
    assert s.phases[n].status.Running? && s.phases[n] == Current(s);
    var t := Close(s, Interrupted, UnknownOutcome);
    assert Measured(s.phases[n], runs, s.policy);
    assert t.phases == phases;
    hide Admissible, HasPhase, ScreenedBuild, Ledger, CountRuns, Balanced, Supported, RanAs, FirstBuild;
    CloseKeeps(s, runs, Interrupted, UnknownOutcome);
  }

  /** A candidate has at most one screening. */
  lemma PhaseUnique(s: State, runs: seq<SuiteRun>, k: nat)
    requires Inv(s, runs) && k < |s.phases|
    ensures forall i | 0 <= i < |s.phases| && s.phases[i].candidate == s.phases[k].candidate && s.phases[i].kind == s.phases[k].kind :: i == k
  {
  }

  lemma StillCalibrated(a: seq<Phase>, b: seq<Phase>)
    requires InconclusiveCalibration(a) && a <= b
    ensures InconclusiveCalibration(b)
  {
    assert b[0] == a[0];
  }

  /** The screening's decision settles the candidate or admits its confirmation. */
  lemma ScreeningDecides(s: State, runs: seq<SuiteRun>, candidate: CandidateId, k: nat)
    requires Inv(s, runs) && InconclusiveCalibration(s.phases)
    requires k < |s.phases| && s.phases[k].candidate == Some(candidate) && s.phases[k].kind.Screening?
    ensures HasPhase(s.phases, Some(candidate), Screening)
    ensures s.phases[k].decision != Some(ObjectiveMet) || HasPhase(s.phases, Some(candidate), Confirmation) ==> EvaluatedOne(s.phases, candidate)
    ensures s.phases[k].decision == Some(ObjectiveMet) ==> Admissible(s.phases, Some(candidate), Confirmation)
  {
    PhaseUnique(s, runs, k);
    assert Measured(s.phases[k], runs, s.policy);
  }

  lemma IdleMeans(s: State)
    ensures Idle(s) <==> !exists j | 0 <= j < |s.phases| :: s.phases[j].status.Running?
  {
    if exists p | p in s.phases :: p.status.Running? {
    }
  }

  lemma ConfirmedNow(before: seq<Phase>, phases: seq<Phase>, candidate: CandidateId)
    requires before <= phases && |phases| == |before| + 1 && HasPhase(before, Some(candidate), Screening)
    requires phases[|before|].candidate == Some(candidate) && phases[|before|].kind == Confirmation
    ensures EvaluatedOne(phases, candidate)
  {
    assert HasPhase(phases, Some(candidate), Confirmation);
    var i :| 0 <= i < |before| && before[i].candidate == Some(candidate) && before[i].kind.Screening?;
    assert phases[i] == before[i];
  }

  lemma CalibratedMeans(s: State, runs: seq<SuiteRun>)
    requires Inv(s, runs) && s.phases != [] && s.phases[0].decision == Some(Judged(Inconclusive))
    ensures InconclusiveCalibration(s.phases)
  {
    assert Measured(s.phases[0], runs, s.policy);
  }

  lemma StillEvaluated(s: State, t: State, runs: seq<SuiteRun>, candidate: CandidateId)
    requires Inv(t, runs) && s.phases <= t.phases && EvaluatedOne(s.phases, candidate)
    ensures EvaluatedOne(t.phases, candidate)
  {
    var i :| 0 <= i < |s.phases| && s.phases[i].candidate == Some(candidate) && s.phases[i].kind == Screening;
    assert t.phases[i] == s.phases[i];
    PhaseUnique(t, runs, i);
    if t.phases[i].decision == Some(ObjectiveMet) {
      var j :| 0 <= j < |s.phases| && s.phases[j].candidate == Some(candidate) && s.phases[j].kind == Confirmation;
      assert t.phases[j] == s.phases[j];
    }
  }

  /** What the saved state and the executions mean together, after any history. */
  lemma CampaignSafety(s: State, runs: seq<SuiteRun>, run: SuiteRun)
    requires Inv(s, runs) && run in runs
    ensures |runs| <= s.maxRuns && CountRuns(runs, run.candidate, run.kind) <= SlotsOf(run.kind)
    ensures !run.kind.Calibration? ==> InconclusiveCalibration(s.phases)
    ensures run.kind.Confirmation? ==> exists i | 0 <= i < |s.phases| ::
      && s.phases[i].candidate == run.candidate && s.phases[i].kind.Screening? && s.phases[i].decision == Some(ObjectiveMet)
      && (run.role.CandidateRole? ==> FirstBuild(s.phases[i].evidence) == Some(run.build))
  {
    hide Inv, Counted, CountRuns, Passed;
    RunMeans(s, runs, run);
    var i :| 0 <= i < |s.phases| && s.phases[i].candidate == run.candidate && s.phases[i].kind == run.kind;
    GateMeans(s, runs, i);
    if run.kind.Confirmation? {
      var j :| 0 <= j < i && s.phases[j].candidate == run.candidate && s.phases[j].kind.Screening? && Passed(s.phases[j]);
      PassedDecision(s.phases[j]);
      PhaseUnique(s, runs, j);
    }
  }

  lemma PassedDecision(p: Phase)
    requires Passed(p)
    ensures p.decision == Some(ObjectiveMet)
  {
  }

  lemma RunMeans(s: State, runs: seq<SuiteRun>, run: SuiteRun)
    requires Inv(s, runs) && run in runs
    ensures RunJustified(s, run) && |runs| <= s.maxRuns && CountRuns(runs, run.candidate, run.kind) <= SlotsOf(run.kind)
  {
  }

  lemma GateMeans(s: State, runs: seq<SuiteRun>, i: nat)
    requires Inv(s, runs) && i < |s.phases|
    ensures !s.phases[i].kind.Calibration? ==> InconclusiveCalibration(s.phases)
    ensures s.phases[i].kind.Confirmation? ==> exists j | 0 <= j < i ::
      s.phases[j].candidate == s.phases[i].candidate && s.phases[j].kind.Screening? && Passed(s.phases[j])
  {
    assert Gated(s.phases, i);
    if s.phases[i].kind.Confirmation? {
      var j :| 0 <= j < i && s.phases[..i][j].candidate == s.phases[i].candidate && s.phases[..i][j].kind.Screening? && Passed(s.phases[..i][j]);
      assert s.phases[j] == s.phases[..i][j];
    }
  }

  lemma StillScreened(s: State, t: State, candidate: Option<CandidateId>, build: BuildId)
    requires Progress(s, t) && ScreenedBuild(s.phases, candidate, build)
    ensures ScreenedBuild(t.phases, candidate, build)
  {
    SameKeys(s.phases, t.phases);
  }

  lemma CurrentIsScreened(s: State, candidate: Option<CandidateId>, build: BuildId)
    requires s.phases != [] && Current(s).candidate == candidate && Current(s).kind.Screening?
    requires FirstBuild(Current(s).evidence) == Some(build)
    ensures ScreenedBuild(s.phases, candidate, build)
  {
    assert s.phases[|s.phases| - 1] == Current(s);
  }

  lemma LinksKept(s: State, t: State, id: RunId)
    requires Progress(s, t)
    ensures !Linked(t.phases, id) ==> !Linked(s.phases, id)
  {
    SameKeys(s.phases, t.phases);
  }

  lemma ProgressReflexive(s: State)
    requires s.phases != []
    ensures Progress(s, s)
  {
  }

  lemma ProgressTransitive(a: State, b: State, c: State)
    requires Progress(a, b) && Progress(b, c)
    ensures Progress(a, c)
  {
    SameKeys(a.phases, b.phases);
    SameKeys(b.phases, c.phases);
  }

  lemma AmendProgresses(s: State, stage: Stage, links: seq<Link>, comparisons: seq<Comparison>)
    requires s.phases != [] && Current(s).decision.None?
    ensures Progress(s, Amend(s, stage, links, comparisons))
  {
    FirstBuildAppends(Current(s).evidence, links);
  }

  lemma BaselineProgresses(s: State, build: BuildId)
    requires s.phases != [] && s.baseline.None?
    ensures Progress(s, s.(baseline := Some(build)))
  {
  }
}
