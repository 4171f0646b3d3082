/** The campaign controller: it reserves suite slots before it executes, never replays a phase,
    and gates every phase on the decisions of earlier ones. */
module CampaignModel {
  import opened Outcomes

  type CandidateId = nat
  type BuildId = nat
  type RunId = nat

  datatype PhaseKind = Calibration | Screening | Confirmation
  datatype PhaseStatus = Running | Completed | Failed | Interrupted
  datatype Stage = Reserved | SourceStage | BuildStage | ModelStage | SuiteStage | ComparisonStage | Terminal
  datatype Verdict = Inconclusive | Improvement | Regression

  datatype Decision =
    | Judged(verdict: Verdict)
    | ObjectiveMet
    | ObjectiveNotMet
    | Mixed
    | SuiteFailed
    | CorrectnessFailed
    | ExecutionFailed(stage: Stage)
    | UnknownOutcome

  datatype LinkKind = SourceLink | BuildLink | SuiteLink | ComparisonLink
  datatype Link = Link(kind: LinkKind, id: nat)

  datatype CaseReport = CaseReport(id: nat, verdict: Verdict, low: real)

  /** A judged comparison of a baseline run with a candidate run. */
  datatype Comparison = Comparison(baseline: RunId, candidate: RunId, verdict: Verdict, cases: seq<CaseReport>)

  /** No candidate means the baseline. */
  datatype Phase = Phase(
    candidate: Option<CandidateId>,
    kind: PhaseKind,
    reserved: nat,
    status: PhaseStatus,
    stage: Stage,
    decision: Option<Decision>,
    evidence: seq<Link>,
    comparisons: seq<Comparison>)

  /** The cases that must improve, and how far the others may drop. */
  datatype Policy = Policy(objectives: set<nat>, margin: real)

  datatype CampaignStatus = Ready | Active | Finished | Blocked | Stopped | BudgetExhausted

  datatype State = State(
    status: CampaignStatus,
    maxRuns: nat,
    policy: Policy,
    reserved: nat,
    baseline: Option<BuildId>,
    phases: seq<Phase>)

  datatype Role = BaselineRole | CandidateRole

  /** One execution of the suite, as the machine saw it. */
  datatype SuiteRun = SuiteRun(candidate: Option<CandidateId>, kind: PhaseKind, role: Role, build: BuildId, id: RunId)

  predicate IsTerminal(status: CampaignStatus) {
    status.Finished? || status.Blocked? || status.Stopped? || status.BudgetExhausted?
  }

  function SlotsOf(kind: PhaseKind): nat {
    if kind.Calibration? then 2 else 4
  }

  function Order(kind: PhaseKind): seq<Role> {
    if kind.Calibration? then [BaselineRole, CandidateRole]
    else [BaselineRole, CandidateRole, CandidateRole, BaselineRole]
  }

  /** The positions in `Order` that are compared: a baseline run, then a candidate run. */
  function Pairs(kind: PhaseKind): seq<(nat, nat)> {
    if kind.Calibration? then [(0, 1)] else [(0, 1), (3, 2)]
  }

  /** Every objective case is present and improves; no other case drops below the margin. */
  predicate MeetsObjective(cases: seq<CaseReport>, policy: Policy) {
    && (forall c | c in cases :: if c.id in policy.objectives then c.verdict.Improvement? else c.low >= -policy.margin)
    && (forall id | id in policy.objectives :: exists i | 0 <= i < |cases| :: cases[i].id == id)
  }

  /** The cases with an improvement. */
  function Improved(cases: seq<CaseReport>): set<nat> {
    set c | c in cases && c.verdict.Improvement? :: c.id
  }

  /** The cases with anything but an improvement. */
  function NotImproved(cases: seq<CaseReport>): set<nat> {
    set c | c in cases && !c.verdict.Improvement? :: c.id
  }

  /** The cases whose lower bound drops below the margin. */
  function Dropped(cases: seq<CaseReport>, margin: real): set<nat> {
    set c | c in cases && c.low + margin < 0.0 :: c.id
  }

  /** The objective is met exactly when every objective case improves and is never reported otherwise,
      and only objective cases drop. */
  lemma ObjectiveSets(cases: seq<CaseReport>, policy: Policy)
    ensures MeetsObjective(cases, policy) <==>
      && policy.objectives <= Improved(cases) - NotImproved(cases)
      && Dropped(cases, policy.margin) <= policy.objectives
  {
    if MeetsObjective(cases, policy) {
      forall id | id in policy.objectives
        ensures id in Improved(cases) - NotImproved(cases)
      {
        var i :| 0 <= i < |cases| && cases[i].id == id;
        assert cases[i] in cases;
      }
    }
    if policy.objectives <= Improved(cases) - NotImproved(cases) && Dropped(cases, policy.margin) <= policy.objectives {
      forall id | id in policy.objectives
        ensures exists i | 0 <= i < |cases| :: cases[i].id == id
      {
        var c :| c in cases && c.verdict.Improvement? && c.id == id;
        var i :| 0 <= i < |cases| && cases[i] == c;
        assert cases[i].id == id;
      }
      forall c | c in cases
        ensures if c.id in policy.objectives then c.verdict.Improvement? else c.low >= -policy.margin
      {
        assert !c.verdict.Improvement? ==> c.id in NotImproved(cases);
        assert c.low + policy.margin < 0.0 ==> c.id in Dropped(cases, policy.margin);
      }
    }
  }

  /** Reports of more cases outside the objective cannot turn an unmet objective into a met one. */
  lemma MoreCases(cases: seq<CaseReport>, more: seq<CaseReport>, policy: Policy)
    requires MeetsObjective(cases + more, policy) && forall c | c in more :: c.id !in policy.objectives
    ensures MeetsObjective(cases, policy)
  {
    forall id | id in policy.objectives
      ensures exists i | 0 <= i < |cases| :: cases[i].id == id
    {
      assert forall k | 0 <= k < |more| :: more[k] in more && more[k].id != id;
      var i :| 0 <= i < |cases + more| && (cases + more)[i].id == id;
      assert i < |cases| && cases[i].id == id;
    }
    assert forall c | c in cases :: c in cases + more;
  }

  function Ledger(phases: seq<Phase>): nat {
    if phases == [] then 0 else Ledger(phases[..|phases| - 1]) + phases[|phases| - 1].reserved
  }

  predicate HasPhase(phases: seq<Phase>, candidate: Option<CandidateId>, kind: PhaseKind) {
    exists i | 0 <= i < |phases| :: phases[i].candidate == candidate && phases[i].kind == kind
  }

  /** What loading a saved state re-checks. */
  predicate Loadable(s: State) {
    && s.reserved <= s.maxRuns
    && (forall p | p in s.phases :: p.reserved == SlotsOf(p.kind))
    && (forall i, j | 0 <= i < j < |s.phases| ::
          s.phases[i].candidate != s.phases[j].candidate || s.phases[i].kind != s.phases[j].kind)
    && s.reserved == Ledger(s.phases)
  }

  function FirstBuild(evidence: seq<Link>): Option<BuildId> {
    if evidence == [] then None
    else if evidence[0].kind.BuildLink? then Some(evidence[0].id)
    else FirstBuild(evidence[1..])
  }

  /** The build a candidate's screening made. */
  predicate ScreenedBuild(phases: seq<Phase>, candidate: Option<CandidateId>, build: BuildId) {
    exists i | 0 <= i < |phases| ::
      phases[i].candidate == candidate && phases[i].kind.Screening? && FirstBuild(phases[i].evidence) == Some(build)
  }

  /** A suite execution belongs to a reserved phase and measures the build that phase is about. */
  predicate RunJustified(s: State, run: SuiteRun) {
    && HasPhase(s.phases, run.candidate, run.kind)
    && s.baseline.Some?
    && (run.role.BaselineRole? || run.kind.Calibration? ==> run.build == s.baseline.value)
    && (run.role.CandidateRole? && !run.kind.Calibration? ==> ScreenedBuild(s.phases, run.candidate, run.build))
  }

  function CountRuns(runs: seq<SuiteRun>, candidate: Option<CandidateId>, kind: PhaseKind): nat {
    if runs == [] then 0
    else
      var last := runs[|runs| - 1];
      CountRuns(runs[..|runs| - 1], candidate, kind) + if last.candidate == candidate && last.kind == kind then 1 else 0
  }

  predicate InconclusiveCalibration(phases: seq<Phase>) {
    phases != [] && phases[0].status.Completed? && phases[0].decision == Some(Judged(Inconclusive))
  }

  /** A screening that earned a confirmation; it made a build. */
  predicate Passed(p: Phase) {
    p.status.Completed? && p.decision == Some(ObjectiveMet) && FirstBuild(p.evidence).Some?
  }

  /** A phase may follow `before` only behind the decisions it depends on. */
  predicate Admissible(before: seq<Phase>, candidate: Option<CandidateId>, kind: PhaseKind) {
    match kind
    case Calibration => before == [] && candidate.None?
    case Screening => candidate.Some? && InconclusiveCalibration(before)
    case Confirmation =>
      && candidate.Some? && InconclusiveCalibration(before)
      && exists j | 0 <= j < |before| ::
           before[j].candidate == candidate && before[j].kind.Screening? && Passed(before[j])
  }

  predicate Gated(phases: seq<Phase>, i: nat)
    requires i < |phases|
  {
    Admissible(phases[..i], phases[i].candidate, phases[i].kind)
  }

  /** Some suite execution of this phase produced `id` for this arm. */
  predicate RanAs(runs: seq<SuiteRun>, candidate: Option<CandidateId>, kind: PhaseKind, role: Role, id: RunId) {
    exists i | 0 <= i < |runs| ::
      runs[i].candidate == candidate && runs[i].kind == kind && runs[i].role == role && runs[i].id == id
  }

  /** The comparisons of a phase set baseline runs against candidate runs and use no run twice. */
  predicate Balanced(p: Phase, runs: seq<SuiteRun>) {
    && |p.comparisons| == SlotsOf(p.kind) / 2
    && (forall c | c in p.comparisons ::
          RanAs(runs, p.candidate, p.kind, BaselineRole, c.baseline) && RanAs(runs, p.candidate, p.kind, CandidateRole, c.candidate))
    && (forall i | 0 <= i < |p.comparisons| :: p.comparisons[i].baseline != p.comparisons[i].candidate)
    && (forall i, j | 0 <= i < |p.comparisons| && 0 <= j < |p.comparisons| && i != j ::
          && p.comparisons[i].baseline != p.comparisons[j].baseline
          && p.comparisons[i].candidate != p.comparisons[j].candidate
          && p.comparisons[i].baseline != p.comparisons[j].candidate)
  }

  predicate IsVerdict(d: Decision) {
    d.Judged? || d.ObjectiveMet? || d.ObjectiveNotMet? || d.Mixed?
  }

  /** What the comparisons must say for a decision to stand. */
  predicate Supported(kind: PhaseKind, d: Decision, comparisons: seq<Comparison>, policy: Policy) {
    match d
    case Judged(v) => kind.Calibration? && forall c | c in comparisons :: c.verdict == v
    case ObjectiveMet => !kind.Calibration? && forall c | c in comparisons :: MeetsObjective(c.cases, policy)
    case ObjectiveNotMet => !kind.Calibration? && forall c | c in comparisons :: !MeetsObjective(c.cases, policy)
    case Mixed =>
      && !kind.Calibration?
      && (exists i | 0 <= i < |comparisons| :: MeetsObjective(comparisons[i].cases, policy))
      && (exists i | 0 <= i < |comparisons| :: !MeetsObjective(comparisons[i].cases, policy))
    case _ => true
  }

  /** How many executions can have been made in a stage. */
  predicate StageFits(stage: Stage, kind: PhaseKind, spent: nat) {
    match stage
    case SuiteStage => true
    case ComparisonStage => spent == SlotsOf(kind)
    case Terminal => false
    case _ => spent == 0
  }

  /** A verdict rests on every reserved execution, compared arm against arm; differing tokens are found
      after every execution, a failed suite after at least one. */
  predicate Measured(p: Phase, runs: seq<SuiteRun>, policy: Policy) {
    && (p.status.Running? <==> p.decision.None?)
    && (p.decision.Some? && IsVerdict(p.decision.value) ==>
          && p.status.Completed?
          && CountRuns(runs, p.candidate, p.kind) == SlotsOf(p.kind)
          && Balanced(p, runs) && Supported(p.kind, p.decision.value, p.comparisons, policy))
    && (p.decision == Some(ObjectiveMet) ==> FirstBuild(p.evidence).Some?)
    && (p.decision == Some(SuiteFailed) ==> p.status.Completed? && 1 <= CountRuns(runs, p.candidate, p.kind))
    && (p.decision == Some(CorrectnessFailed) ==>
          p.status.Completed? && CountRuns(runs, p.candidate, p.kind) == SlotsOf(p.kind) && |p.comparisons| < SlotsOf(p.kind) / 2)
    && (p.status.Failed? <==> p.decision.Some? && p.decision.value.ExecutionFailed?)
    && (p.status.Failed? ==> StageFits(p.decision.value.stage, p.kind, CountRuns(runs, p.candidate, p.kind)))
    && (p.status.Interrupted? <==> p.decision == Some(UnknownOutcome))
  }

  predicate Idle(s: State) {
    forall p | p in s.phases :: !p.status.Running?
  }

  /** Each candidate and kind has used no more executions than it reserved, and none unreserved. */
  ghost predicate Counted(phases: seq<Phase>, runs: seq<SuiteRun>) {
    forall c, k :: CountRuns(runs, c, k) <= if HasPhase(phases, c, k) then SlotsOf(k) else 0
  }

  /** What every saved state and the suite executions so far satisfy together. */
  ghost predicate Inv(s: State, runs: seq<SuiteRun>) {
    && Loadable(s)
    && |runs| <= s.reserved
    && (forall run | run in runs :: RunJustified(s, run))
    && Counted(s.phases, runs)
    && (forall i | 0 <= i < |s.phases| :: Gated(s.phases, i) && Measured(s.phases[i], runs, s.policy))
    && (forall i | 0 <= i < |s.phases| - 1 :: !s.phases[i].status.Running?)
    && (Idle(s) || s.status.Active?)
    && (InconclusiveCalibration(s.phases) ==> s.baseline.Some?)
  }

  /** A later state of the same campaign: nothing admitted is dropped or admitted twice, and a
      decision, once made, stays. */
  predicate Continues(a: State, b: State) {
    && b.maxRuns == a.maxRuns && b.policy == a.policy && |a.phases| <= |b.phases| && a.reserved <= b.reserved
    && (a.baseline.Some? ==> b.baseline == a.baseline)
    && (forall i | 0 <= i < |a.phases| ::
          && b.phases[i].candidate == a.phases[i].candidate && b.phases[i].kind == a.phases[i].kind
          && (a.phases[i].decision.Some? ==> b.phases[i] == a.phases[i]))
  }

  /** The phase a controller is executing. */
  function Current(s: State): Phase
    requires s.phases != []
  {
    s.phases[|s.phases| - 1]
  }

  /** The state with progress recorded for the current phase. */
  function Amend(s: State, stage: Stage, links: seq<Link>, comparisons: seq<Comparison>): State
    requires s.phases != []
  {
    var p := Current(s);
    s.(phases := s.phases[|s.phases| - 1 :=
         p.(stage := stage, evidence := p.evidence + links, comparisons := p.comparisons + comparisons)])
  }

  /** The state with the current phase closed. */
  function Close(s: State, status: PhaseStatus, decision: Decision): State
    requires s.phases != []
  {
    s.(phases := s.phases[|s.phases| - 1 := Current(s).(status := status, stage := Terminal, decision := Some(decision))])
  }

  /** The state with a new phase reserved. */
  function Reserve(s: State, candidate: Option<CandidateId>, kind: PhaseKind): State {
    s.(status := Active, reserved := s.reserved + SlotsOf(kind),
       phases := s.phases + [Phase(candidate, kind, SlotsOf(kind), Running, Reserved, None, [], [])])
  }

  /** The phase (candidate, kind) is running with `spent` of its slots used. */
  ghost predicate PhaseRuns(s: State, runs: seq<SuiteRun>, candidate: Option<CandidateId>, kind: PhaseKind, spent: nat) {
    && Inv(s, runs) && s.phases != []
    && Current(s).candidate == candidate && Current(s).kind == kind && Current(s).status.Running?
    && spent <= SlotsOf(kind) && CountRuns(runs, candidate, kind) == spent && StageFits(Current(s).stage, kind, spent)
    && |runs| + SlotsOf(kind) - spent <= s.reserved
    && s.status.Active?
  }

  lemma ContinuesReflexive(s: State)
    ensures Continues(s, s)
  {
  }

  lemma ContinuesTransitive(a: State, b: State, c: State)
    requires Continues(a, b) && Continues(b, c)
    ensures Continues(a, c)
  {
  }

  lemma {:induction false} FirstBuildAppends(evidence: seq<Link>, more: seq<Link>)
    ensures FirstBuild(evidence + more) == if FirstBuild(evidence).Some? then FirstBuild(evidence) else FirstBuild(more)
  {
    if evidence == [] {
      assert evidence + more == more;
    } else {
      assert (evidence + more)[1..] == evidence[1..] + more;
      FirstBuildAppends(evidence[1..], more);
    }
  }

  lemma LedgerSame(a: seq<Phase>, b: seq<Phase>)
    requires |a| == |b| && forall i | 0 <= i < |a| :: a[i].reserved == b[i].reserved
    ensures Ledger(a) == Ledger(b)
  {
    if a != [] {
      LedgerSame(a[..|a| - 1], b[..|b| - 1]);
    }
  }

  /** The same phases, except that the last one has progressed. */
  predicate SameButLast(a: seq<Phase>, b: seq<Phase>) {
    && a != [] && |b| == |a| && b[..|a| - 1] == a[..|a| - 1]
    && b[|a| - 1].candidate == a[|a| - 1].candidate && b[|a| - 1].kind == a[|a| - 1].kind
    && b[|a| - 1].reserved == a[|a| - 1].reserved
    && (FirstBuild(a[|a| - 1].evidence).Some? ==> FirstBuild(b[|a| - 1].evidence) == FirstBuild(a[|a| - 1].evidence))
  }

  lemma SameKeys(a: seq<Phase>, b: seq<Phase>)
    requires SameButLast(a, b)
    ensures forall i | 0 <= i < |a| :: b[i].candidate == a[i].candidate && b[i].kind == a[i].kind && b[i].reserved == a[i].reserved
    ensures forall i | 0 <= i < |a| - 1 :: b[i] == a[i]
    ensures forall i | 0 <= i < |a| :: b[..i] == a[..i]
    ensures forall c, k :: HasPhase(a, c, k) <==> HasPhase(b, c, k)
    ensures forall c: Option<CandidateId>, build: BuildId :: ScreenedBuild(a, c, build) ==> ScreenedBuild(b, c, build)
    ensures Ledger(a) == Ledger(b)
  {
    forall i | 0 <= i < |a| - 1
      ensures b[i] == a[i]
    {
      assert b[i] == b[..|a| - 1][i] == a[..|a| - 1][i];
    }
    LedgerSame(a, b);
    forall c: Option<CandidateId>, build: BuildId | ScreenedBuild(a, c, build)
      ensures ScreenedBuild(b, c, build)
    {
      var i :| 0 <= i < |a| && a[i].candidate == c && a[i].kind.Screening? && FirstBuild(a[i].evidence) == Some(build);
      assert b[i].candidate == c && b[i].kind.Screening? && FirstBuild(b[i].evidence) == Some(build);
    }
  }

  /** The invariant survives any progress of the running phase that leaves it running or closes it
      with a measured decision. */
  lemma SamePhases(s: State, t: State, runs: seq<SuiteRun>)
    requires Inv(s, runs) && SameButLast(s.phases, t.phases) && Current(s).status.Running?
    requires Measured(Current(t), runs, t.policy)
    requires t.maxRuns == s.maxRuns && t.reserved == s.reserved && t.policy == s.policy
    requires s.baseline.Some? ==> t.baseline == s.baseline
    requires InconclusiveCalibration(t.phases) ==> t.baseline.Some?
    requires Current(t).status.Running? ==> t.status.Active?
    ensures Inv(t, runs) && Continues(s, t)
  {
    hide Ledger, FirstBuild, CountRuns, RanAs, Measured, Admissible;
    SameKeys(s.phases, t.phases);
    SameRuns(s, t, runs);
    hide HasPhase, ScreenedBuild, InconclusiveCalibration, RunJustified;
    forall i | 0 <= i < |t.phases|
      ensures Gated(t.phases, i) && Measured(t.phases[i], runs, t.policy)
    {
      assert Gated(s.phases, i) && Measured(s.phases[i], runs, s.policy);
    }
    if !t.status.Active? {
      assert forall i | 0 <= i < |t.phases| :: !t.phases[i].status.Running?;
    }
    MeasuredDecides(Current(s), runs, s.policy);
  }

  lemma MeasuredDecides(p: Phase, runs: seq<SuiteRun>, policy: Policy)
    requires Measured(p, runs, policy)
    ensures p.status.Running? <==> p.decision.None?
  {
  }

  lemma SameRuns(s: State, t: State, runs: seq<SuiteRun>)
    requires SameButLast(s.phases, t.phases) && (s.baseline.Some? ==> t.baseline == s.baseline)
    requires Counted(s.phases, runs) && forall run | run in runs :: RunJustified(s, run)
    ensures Counted(t.phases, runs) && forall run | run in runs :: RunJustified(t, run)
  {
    SameKeys(s.phases, t.phases);
    hide CountRuns, HasPhase, ScreenedBuild;
    forall run | run in runs
      ensures RunJustified(t, run)
    {
      assert RunJustified(s, run);
    }
  }

  /** More evidence or another stage of the running phase changes nothing that is accounted. */
  lemma AmendKeeps(s: State, runs: seq<SuiteRun>, candidate: Option<CandidateId>, kind: PhaseKind, spent: nat,
      stage: Stage, links: seq<Link>, comparisons: seq<Comparison>)
    requires PhaseRuns(s, runs, candidate, kind, spent) && StageFits(stage, kind, spent)
    ensures PhaseRuns(Amend(s, stage, links, comparisons), runs, candidate, kind, spent)
    ensures Continues(s, Amend(s, stage, links, comparisons))
  {
    var t := Amend(s, stage, links, comparisons);
    FirstBuildAppends(Current(s).evidence, links);
    assert s.phases[|s.phases| - 1].status.Running?;
    hide Admissible, HasPhase, ScreenedBuild, Ledger, CountRuns, Balanced, Supported, RanAs;
    SamePhases(s, t, runs);
  }

  lemma CloseKeeps(s: State, runs: seq<SuiteRun>, status: PhaseStatus, decision: Decision)
    requires Inv(s, runs) && s.phases != [] && Current(s).status.Running? && !status.Running?
    requires Measured(Current(Close(s, status, decision)), runs, s.policy)
    requires decision == Judged(Inconclusive) ==> s.baseline.Some?
    ensures Inv(Close(s, status, decision), runs) && Continues(s, Close(s, status, decision)) && Idle(Close(s, status, decision))
  {
    hide Admissible, HasPhase, ScreenedBuild, Ledger, CountRuns, Balanced, Supported, RanAs, FirstBuild;
    SamePhases(s, Close(s, status, decision), runs);
  }

  lemma RunAccounted(s: State, runs: seq<SuiteRun>, run: SuiteRun, candidate: Option<CandidateId>, kind: PhaseKind, spent: nat)
    requires PhaseRuns(s, runs, candidate, kind, spent) && spent < SlotsOf(kind) && Current(s).stage.SuiteStage?
    requires run.candidate == candidate && run.kind == kind && RunJustified(s, run)
    ensures PhaseRuns(s, runs + [run], candidate, kind, spent + 1)
  {
    assert CountRuns(runs + [run], candidate, kind) == spent + 1 by {
      OneMore(runs, run);
    }
    OneMoreMeasured(s, runs, run, candidate, kind, spent);
    OneMoreCounted(s.phases, runs, run, spent);
    hide Loadable, Measured, Gated, CountRuns, RunJustified, Counted, InconclusiveCalibration;
    forall other | other in runs + [run]
      ensures RunJustified(s, other)
    {
      assert other in runs || other == run;
    }
  }

  lemma OneMoreCounted(phases: seq<Phase>, runs: seq<SuiteRun>, run: SuiteRun, spent: nat)
    requires Counted(phases, runs) && HasPhase(phases, run.candidate, run.kind)
    requires CountRuns(runs, run.candidate, run.kind) == spent < SlotsOf(run.kind)
    ensures Counted(phases, runs + [run])
  {
    OneMore(runs, run);
    hide CountRuns, HasPhase;
  }

  /** A run of the current phase leaves what earlier phases rest on untouched. */
  lemma OneMoreMeasured(s: State, runs: seq<SuiteRun>, run: SuiteRun, candidate: Option<CandidateId>, kind: PhaseKind, spent: nat)
    requires PhaseRuns(s, runs, candidate, kind, spent) && run.candidate == candidate && run.kind == kind
    ensures forall i | 0 <= i < |s.phases| :: Measured(s.phases[i], runs + [run], s.policy)
  {
    OneMore(runs, run);
    hide CountRuns, Balanced, Supported, Gated, InconclusiveCalibration, Counted, RunJustified, FirstBuild;
    forall i | 0 <= i < |s.phases|
      ensures Measured(s.phases[i], runs + [run], s.policy)
    {
      var p := s.phases[i];
      assert Measured(p, runs, s.policy);
      assert i < |s.phases| - 1 ==> p.candidate != candidate || p.kind != kind;
      if i < |s.phases| - 1 && p.decision.Some? && IsVerdict(p.decision.value) {
        StillBalanced(p, runs, run);
      }
    }
  }

  lemma OneMore(runs: seq<SuiteRun>, run: SuiteRun)
    ensures forall c, k :: CountRuns(runs + [run], c, k) == CountRuns(runs, c, k) + if run.candidate == c && run.kind == k then 1 else 0
  {
    assert (runs + [run])[..|runs|] == runs;
  }

  lemma StillBalanced(p: Phase, runs: seq<SuiteRun>, run: SuiteRun)
    requires Balanced(p, runs)
    ensures Balanced(p, runs + [run])
  {
    forall c | c in p.comparisons
      ensures RanAs(runs + [run], p.candidate, p.kind, BaselineRole, c.baseline) && RanAs(runs + [run], p.candidate, p.kind, CandidateRole, c.candidate)
    {
      StillRan(runs, run, p.candidate, p.kind, BaselineRole, c.baseline);
      StillRan(runs, run, p.candidate, p.kind, CandidateRole, c.candidate);
    }
  }

  lemma StillRan(runs: seq<SuiteRun>, run: SuiteRun, candidate: Option<CandidateId>, kind: PhaseKind, role: Role, id: RunId)
    requires RanAs(runs, candidate, kind, role, id)
    ensures RanAs(runs + [run], candidate, kind, role, id)
  {
    var i :| 0 <= i < |runs| && runs[i].candidate == candidate && runs[i].kind == kind && runs[i].role == role && runs[i].id == id;
    assert (runs + [run])[i] == runs[i];
  }

  lemma BaselineSet(s: State, runs: seq<SuiteRun>, candidate: Option<CandidateId>, kind: PhaseKind, build: BuildId)
    requires PhaseRuns(s, runs, candidate, kind, 0) && s.baseline.None?
    ensures PhaseRuns(s.(baseline := Some(build)), runs, candidate, kind, 0) && Continues(s, s.(baseline := Some(build)))
  {
    assert SameButLast(s.phases, s.(baseline := Some(build)).phases);
    SamePhases(s, s.(baseline := Some(build)), runs);
  }

  /** Reserving an admissible phase within the budget starts it with no slot used. */
  lemma ReserveKeeps(s: State, runs: seq<SuiteRun>, candidate: Option<CandidateId>, kind: PhaseKind)
    requires Inv(s, runs) && Idle(s) && !HasPhase(s.phases, candidate, kind)
    requires Admissible(s.phases, candidate, kind) && s.reserved + SlotsOf(kind) <= s.maxRuns
    ensures PhaseRuns(Reserve(s, candidate, kind), runs, candidate, kind, 0) && Continues(s, Reserve(s, candidate, kind))
  {
    hide Admissible, Ledger, CountRuns, FirstBuild, HasPhase, ScreenedBuild, Measured, Gated, Loadable, InconclusiveCalibration, Counted, RunJustified;
    var t := Reserve(s, candidate, kind);
    var n := |s.phases|;
    ReserveLoads(s, candidate, kind);
    ReserveGates(s, runs, candidate, kind);
    ReserveCounts(s, runs, candidate, kind);
    assert Current(t) == t.phases[n];
    forall i | 0 <= i < n
      ensures t.phases[i] == s.phases[i] && !t.phases[i].status.Running?
    {
      assert s.phases[i] in s.phases;
    }
  }

  lemma ReserveCounts(s: State, runs: seq<SuiteRun>, candidate: Option<CandidateId>, kind: PhaseKind)
    requires Counted(s.phases, runs) && !HasPhase(s.phases, candidate, kind) && forall run | run in runs :: RunJustified(s, run)
    ensures var t := Reserve(s, candidate, kind);
      Counted(t.phases, runs) && CountRuns(runs, candidate, kind) == 0 && forall run | run in runs :: RunJustified(t, run)
  {
    var t := Reserve(s, candidate, kind);
    HasPhaseGrows(s.phases, t.phases[|s.phases|]);
    assert CountRuns(runs, candidate, kind) == 0;
    forall run | run in runs
      ensures RunJustified(t, run)
    {
      hide CountRuns, HasPhase, ScreenedBuild;
      assert RunJustified(s, run);
    }
  }

  lemma ReserveLoads(s: State, candidate: Option<CandidateId>, kind: PhaseKind)
    requires Loadable(s) && !HasPhase(s.phases, candidate, kind) && s.reserved + SlotsOf(kind) <= s.maxRuns
    ensures Loadable(Reserve(s, candidate, kind))
  {
    LedgerGrows(s.phases, Reserve(s, candidate, kind).phases[|s.phases|]);
  }

  lemma ReserveGates(s: State, runs: seq<SuiteRun>, candidate: Option<CandidateId>, kind: PhaseKind)
    requires forall i | 0 <= i < |s.phases| :: Gated(s.phases, i) && Measured(s.phases[i], runs, s.policy)
    requires Admissible(s.phases, candidate, kind)
    ensures var t := Reserve(s, candidate, kind);
      && (forall i | 0 <= i < |t.phases| :: Gated(t.phases, i) && Measured(t.phases[i], runs, s.policy))
      && (InconclusiveCalibration(t.phases) ==> InconclusiveCalibration(s.phases))
  {
    hide Admissible, Balanced, Supported, FirstBuild, CountRuns;
    var t := Reserve(s, candidate, kind);
    var n := |s.phases|;
    assert t.phases[..n] == s.phases;
    assert Measured(t.phases[n], runs, t.policy);
    hide Measured;
    forall i | 0 <= i < |t.phases|
      ensures Gated(t.phases, i) && Measured(t.phases[i], runs, t.policy)
    {
      if i < n {
        assert Gated(s.phases, i) && Measured(s.phases[i], runs, s.policy);
        assert t.phases[..i] == s.phases[..i];
      }
    }
  }

  lemma LedgerGrows(phases: seq<Phase>, p: Phase)
    ensures Ledger(phases + [p]) == Ledger(phases) + p.reserved
  {
    assert (phases + [p])[..|phases|] == phases;
  }

  lemma HasPhaseGrows(phases: seq<Phase>, p: Phase)
    ensures forall c, k :: HasPhase(phases + [p], c, k) <==> HasPhase(phases, c, k) || (p.candidate == c && p.kind == k)
    ensures forall c: Option<CandidateId>, b: BuildId :: ScreenedBuild(phases, c, b) ==> ScreenedBuild(phases + [p], c, b)
  {
    var longer := phases + [p];
    assert longer[|phases|] == p;
    assert forall i | 0 <= i < |phases| :: longer[i] == phases[i];
  }
}
