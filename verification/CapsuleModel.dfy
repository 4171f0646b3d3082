/** The capsule protocol: its messages, what one child's behaviour amounts to, and the independent
    validators of what is recorded. A digest is modelled as the value it is a digest of. */
module CapsuleModel {
  import opened Outcomes

  const MAX_COORDINATES := 128

  datatype Operation = Describe | Correctness | Benchmark

  const OPERATIONS := [Describe, Correctness, Benchmark]

  datatype Coordinate = Coordinate(
    id: nat,
    caseId: nat,
    evaluation: bool,
    mode: nat,
    order: nat,
    input: nat,
    inputDigest: nat,
    samples: nat)

  datatype Scenario = Scenario(comparison: nat, coordinates: seq<Coordinate>)

  /** Capsule, candidate and the digests every message is bound to. */
  datatype Identity = Identity(capsule: nat, candidate: nat, scenario: nat, manifest: nat, executable: nat)

  datatype Request = Request(
    operation: Operation,
    identity: Identity,
    prior: Option<Response>,
    contract: Option<Scenario>,
    scenario: Option<Scenario>)

  datatype Checked = Checked(coordinate: Coordinate, passed: bool)
  datatype Timed = Timed(coordinate: Coordinate, latencies: seq<real>)

  datatype Body = Described(scenario: Scenario) | CheckedAll(checked: seq<Checked>) | TimedAll(timed: seq<Timed>)

  datatype Response = Response(
    operation: Operation,
    request: Request,
    identity: Identity,
    prior: Option<Response>,
    contract: Option<Scenario>,
    body: Body,
    opaque_: string)

  datatype ChildOutcome = Exited | TimedOut | SpawnFailed | CaptureFailed
  datatype Category = NoFailure | CaptureFailure | SpawnFailure | TimeOut | NonzeroExit | IncompleteCapture

  /** What a stream holds: canonical JSON, other UTF-8 text, or neither. */
  datatype Stream = Json(value: Value) | PlainText(text: string) | Binary(bytes: nat)
  datatype Value =
    | RequestValue(request: Request)
    | ResponseValue(response: Response)
    | ProcessValue(process: Process)
    | ResultValue(result: Result)
    | OtherValue(text: string)

  /** One child as the runner reported it: the streams as captured, what was digested of them, and
      the verdicts of the secret scan. */
  datatype Child = Child(
    outcome: ChildOutcome,
    returncode: Option<int>,
    captureError: bool,
    stdoutTruncated: bool,
    stderrTruncated: bool,
    stdout: Option<Stream>,
    stderr: Option<Stream>,
    stdoutSeen: Stream,
    stderrSeen: Stream,
    duration: real,
    stdoutSafe: bool,
    stderrSafe: bool)

  datatype Process = Process(
    outcome: ChildOutcome,
    returncode: Option<int>,
    duration: real,
    stdoutSeen: Stream,
    stderrSeen: Stream,
    stdoutComplete: bool,
    stderrComplete: bool,
    stdoutTruncated: bool,
    stderrTruncated: bool,
    captureError: bool,
    category: Category)

  datatype FailureKind = NotFailed | ProcessFailed | ResponseInvalid | UnsafeOutput

  datatype Phase = Phase(
    operation: Operation,
    request: Request,
    process: Process,
    response: Option<Response>,
    accepted: bool,
    failure: FailureKind)

  datatype Reason =
    | Passed
    | PhaseFailed(operation: Operation, kind: FailureKind)
    | CorrectnessIncomplete
    | CorrectnessFailed
    | BenchmarkIncomplete

  datatype Result = Result(
    identity: Identity,
    passed: bool,
    reason: Reason,
    phases: seq<Phase>,
    scenario: Option<Scenario>,
    correctness: Option<seq<Checked>>,
    benchmark: Option<seq<Timed>>)

  // ---------------------------------------------------------------- the validators

  predicate ScenarioOk(s: Scenario) {
    && 1 <= |s.coordinates| <= MAX_COORDINATES
    && (forall i, j | 0 <= i < j < |s.coordinates| ::
          && s.coordinates[i].id != s.coordinates[j].id
          && !(s.coordinates[i].caseId == s.coordinates[j].caseId && s.coordinates[i].mode == s.coordinates[j].mode))
    && (exists i | 0 <= i < |s.coordinates| :: s.coordinates[i].evaluation)
    && (forall i | 0 <= i < |s.coordinates| :: s.coordinates[i].order == i)
    && (forall i, j | 0 <= i < j < |s.coordinates| && s.coordinates[i].caseId == s.coordinates[j].caseId ::
          && s.coordinates[i].evaluation == s.coordinates[j].evaluation
          && s.coordinates[i].input == s.coordinates[j].input && s.coordinates[i].inputDigest == s.coordinates[j].inputDigest)
  }

  /** Only later requests carry the accepted scenario and the response chain. */
  predicate RequestOk(r: Request) {
    !r.operation.Describe? <==> r.prior.Some? && r.contract.Some? && r.scenario.Some?
  }

  /** A response parses as a response of this operation. */
  predicate ResponseOk(r: Response, operation: Operation) {
    && r.operation == operation
    && match operation
       case Describe => r.prior.None? && r.contract.None? && r.body.Described? && ScenarioOk(r.body.scenario)
       case Correctness => r.prior.Some? && r.contract.Some? && r.body.CheckedAll? && r.body.checked != []
       case Benchmark =>
         && r.prior.Some? && r.contract.Some? && r.body.TimedAll? && r.body.timed != []
         && forall t | t in r.body.timed :: |t.latencies| == t.coordinate.samples && forall l | l in t.latencies :: l > 0.0
  }

  function ExactCategory(p: Process): Category {
    match p.outcome
    case SpawnFailed => SpawnFailure
    case TimedOut => TimeOut
    case CaptureFailed => CaptureFailure
    case Exited =>
      if p.returncode != Some(0) then NonzeroExit
      else if p.captureError || p.stdoutTruncated || p.stderrTruncated || !p.stdoutComplete || !p.stderrComplete then IncompleteCapture
      else NoFailure
  }

  predicate ProcessOk(p: Process) {
    && p.category == ExactCategory(p)
    && (if p.outcome.SpawnFailed? then p.returncode.None? else p.returncode.Some?)
    && (p.outcome.CaptureFailed? ==> p.captureError) && p.duration >= 0.0
  }

  predicate PhaseOk(p: Phase) {
    && (if p.failure.NotFailed? then p.accepted && p.response.Some? else !p.accepted && p.response.None?)
    && (p.accepted ==> p.process.category.NoFailure?)
    && (p.failure.ProcessFailed? ==> !p.process.category.NoFailure?)
    && (p.failure.ResponseInvalid? || p.failure.UnsafeOutput? ==> p.process.category.NoFailure?)
  }

  function CoordinatesOf(checked: seq<Checked>): seq<Coordinate> {
    seq(|checked|, i requires 0 <= i < |checked| => checked[i].coordinate)
  }

  function TimedCoordinates(timed: seq<Timed>): seq<Coordinate> {
    seq(|timed|, i requires 0 <= i < |timed| => timed[i].coordinate)
  }

  predicate CorrectnessMatches(r: Result) {
    r.scenario.Some? && r.correctness.Some? && CoordinatesOf(r.correctness.value) == r.scenario.value.coordinates
  }

  predicate BenchmarkMatches(r: Result) {
    r.scenario.Some? && r.benchmark.Some? && TimedCoordinates(r.benchmark.value) == r.scenario.value.coordinates
  }

  predicate AllPassed(checked: seq<Checked>) {
    forall c | c in checked :: c.passed
  }

  predicate CorrectnessPassed(r: Result) {
    CorrectnessMatches(r) && AllPassed(r.correctness.value)
  }

  predicate OperationPrefix(phases: seq<Phase>) {
    1 <= |phases| <= |OPERATIONS| && forall i | 0 <= i < |phases| :: phases[i].operation == OPERATIONS[i]
  }

  /** The payload a result rejected in this operation may carry. */
  predicate RejectedShape(r: Result, operation: Operation) {
    match operation
    case Describe => r.scenario.None? && r.correctness.None? && r.benchmark.None?
    case Correctness => r.scenario.Some? && r.correctness.None? && r.benchmark.None?
    case Benchmark => CorrectnessPassed(r) && r.benchmark.None?
  }

  /** The payload and phases a semantic reason requires. */
  predicate ReasonShape(r: Result) {
    match r.reason
    case Passed => |r.phases| == 3 && CorrectnessPassed(r) && BenchmarkMatches(r)
    case CorrectnessIncomplete =>
      |r.phases| == 2 && r.scenario.Some? && r.correctness.Some? && !CorrectnessMatches(r) && r.benchmark.None?
    case CorrectnessFailed => |r.phases| == 2 && CorrectnessMatches(r) && !AllPassed(r.correctness.value) && r.benchmark.None?
    case BenchmarkIncomplete => |r.phases| == 3 && CorrectnessPassed(r) && r.benchmark.Some? && !BenchmarkMatches(r)
    case PhaseFailed(_, _) => false
  }

  /** The independent validator of a terminal result. */
  predicate ResultOk(r: Result) {
    && OperationPrefix(r.phases)
    && (forall i | 0 <= i < |r.phases| - 1 :: r.phases[i].accepted)
    && (r.passed <==> r.reason.Passed?)
    && var last := r.phases[|r.phases| - 1];
    if !last.failure.NotFailed? then
      r.reason == PhaseFailed(last.operation, last.failure) && !last.accepted && RejectedShape(r, last.operation)
    else
      (forall i | 0 <= i < |r.phases| :: r.phases[i].accepted) && ReasonShape(r)
  }

  /** The terminal reason is a function of the recorded evidence: no two valid results disagree on
      it. */
  lemma ReasonDetermined(a: Result, b: Result)
    requires ResultOk(a) && ResultOk(b)
    requires a.phases == b.phases && a.scenario == b.scenario && a.correctness == b.correctness && a.benchmark == b.benchmark
    ensures a.reason == b.reason && a.passed == b.passed
  {
  }

  /** A valid passing result has three accepted phases, each with a complete successful process, and
      measures exactly the described coordinates, all of them correct. */
  lemma PassedMeans(r: Result)
    requires ResultOk(r) && r.passed && forall p | p in r.phases :: PhaseOk(p)
    ensures |r.phases| == 3
    ensures forall i | 0 <= i < 3 ::
      r.phases[i].operation == OPERATIONS[i] && r.phases[i].response.Some? && r.phases[i].process.category.NoFailure?
    ensures r.scenario.Some? && r.correctness.Some? && r.benchmark.Some?
    ensures |r.correctness.value| == |r.benchmark.value| == |r.scenario.value.coordinates|
    ensures forall i | 0 <= i < |r.scenario.value.coordinates| ::
      && r.correctness.value[i] == Checked(r.scenario.value.coordinates[i], true)
      && r.benchmark.value[i].coordinate == r.scenario.value.coordinates[i]
  {
    assert forall i | 0 <= i < 3 :: r.phases[i] in r.phases;
    var coordinates := r.scenario.value.coordinates;
    forall i | 0 <= i < |coordinates|
      ensures r.correctness.value[i] == Checked(coordinates[i], true) && r.benchmark.value[i].coordinate == coordinates[i]
    {
      assert coordinates[i] == CoordinatesOf(r.correctness.value)[i] == TimedCoordinates(r.benchmark.value)[i];
      assert r.correctness.value[i] in r.correctness.value;
    }
  }

  // ---------------------------------------------------------------- one child

  /** What the runner may report: a return code and capture error as its outcome demands, and both
      streams unless capturing failed. */
  predicate Truthful(c: Child) {
    && (if c.outcome.SpawnFailed? then c.returncode.None? else c.returncode.Some?)
    && (c.outcome.CaptureFailed? ==> c.captureError)
    && (!c.outcome.CaptureFailed? ==> c.stdout.Some? && c.stderr.Some?)
    && (c.stdout.Some? ==> c.stdout.value == c.stdoutSeen) && (c.stderr.Some? ==> c.stderr.value == c.stderrSeen)
    && c.duration >= 0.0
  }

  function CategoryOf(c: Child): Category {
    if c.outcome.CaptureFailed? then CaptureFailure
    else if c.outcome.SpawnFailed? then SpawnFailure
    else if c.outcome.TimedOut? then TimeOut
    else if c.returncode != Some(0) then NonzeroExit
    else if c.captureError || c.stdoutTruncated || c.stderrTruncated || c.stdout.None? || c.stderr.None? then IncompleteCapture
    else NoFailure
  }

  function Project(c: Child): Process {
    Process(c.outcome, c.returncode, c.duration, c.stdoutSeen, c.stderrSeen, c.stdout.Some?, c.stderr.Some?, c.stdoutTruncated, c.stderrTruncated, c.captureError, CategoryOf(c))
  }

  /** The projection of a truthful child passes its validator. */
  lemma ProjectionOk(c: Child)
    requires Truthful(c)
    ensures ProcessOk(Project(c))
  {
  }

  /** The response answers this very request. */
  predicate BindingMatches(r: Response, q: Request) {
    && r.operation == q.operation && r.request == q && r.identity == q.identity
    && r.prior == q.prior && r.contract == q.contract
  }

  /** The child ran cleanly, leaked nothing, and its output is a response to `q`. */
  predicate Accepts(c: Child, q: Request, comparison: nat) {
    && CategoryOf(c).NoFailure? && c.stdoutSafe && c.stderrSafe
    && c.stdout.Some? && c.stdout.value.Json? && c.stdout.value.value.ResponseValue?
    && ResponseOk(c.stdout.value.value.response, q.operation)
    && BindingMatches(c.stdout.value.value.response, q)
    && (q.operation.Describe? ==> c.stdout.value.value.response.body.scenario.comparison == comparison)
  }

  /** An accepted answer was made for this request alone, and repeats all of it. */
  lemma AcceptedOnce(c: Child, q: Request, comparison: nat, other: Request, otherComparison: nat)
    requires Accepts(c, q, comparison)
    ensures ResponseOf(c) == Response(q.operation, q, q.identity, q.prior, q.contract, ResponseOf(c).body, ResponseOf(c).opaque_)
    ensures Accepts(c, other, otherComparison) ==> other == q
    ensures q.operation.Describe? && Accepts(c, other, otherComparison) ==> otherComparison == comparison
  {
  }

  /** An answer of one run of the protocol is accepted in no other: its identity, the answer before it
      and the scenario would have to be the same. */
  lemma NoReplay(c: Child, operation: Operation, a: Identity, prior: Response, s: Scenario, b: Identity, otherPrior: Response, t: Scenario,
      comparison: nat)
    requires Accepts(c, LaterRequest(operation, a, prior, s), comparison)
    requires (a, prior, s) != (b, otherPrior, t)
    ensures !Accepts(c, LaterRequest(operation, b, otherPrior, t), comparison)
  {
    if Accepts(c, LaterRequest(operation, b, otherPrior, t), comparison) {
      AcceptedOnce(c, LaterRequest(operation, a, prior, s), comparison, LaterRequest(operation, b, otherPrior, t), comparison);
    }
  }

  function ResponseOf(c: Child): Response
    requires c.stdout.Some? && c.stdout.value.Json? && c.stdout.value.value.ResponseValue?
  {
    c.stdout.value.value.response
  }

  // ---------------------------------------------------------------- the whole protocol

  function DescribeRequest(identity: Identity): Request {
    Request(Describe, identity, None, None, None)
  }

  function LaterRequest(operation: Operation, identity: Identity, prior: Response, scenario: Scenario): Request {
    Request(operation, identity, Some(prior), Some(scenario), Some(scenario))
  }

  /** The three children carry the protocol through: each accepts the request chained to the answer
      before it, and both later answers cover exactly the described coordinates, all correct. */
  predicate Succeeds(identity: Identity, comparison: nat, describe: Child, correctness: Child, benchmark: Child) {
    && Accepts(describe, DescribeRequest(identity), comparison)
    && var scenario := ResponseOf(describe).body.scenario;
    && Accepts(correctness, LaterRequest(Correctness, identity, ResponseOf(describe), scenario), comparison)
    && CoordinatesOf(ResponseOf(correctness).body.checked) == scenario.coordinates
    && AllPassed(ResponseOf(correctness).body.checked)
    && Accepts(benchmark, LaterRequest(Benchmark, identity, ResponseOf(correctness), scenario), comparison)
    && TimedCoordinates(ResponseOf(benchmark).body.timed) == scenario.coordinates
  }

  /** Each accepted response is the next request's prior response, and answers its own request. */
  predicate Chained(phases: seq<Phase>) {
    && (forall i | 0 <= i < |phases| :: RequestOk(phases[i].request) && phases[i].request.operation == phases[i].operation)
    && (forall i | 0 <= i < |phases| && phases[i].accepted && phases[i].response.Some? :: BindingMatches(phases[i].response.value, phases[i].request))
    && (forall i | 0 < i < |phases| :: phases[i].request.prior == phases[i - 1].response)
  }
}
