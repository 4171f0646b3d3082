/** Running the capsule protocol and publishing its evidence. */
module Capsules {
  import opened Outcomes
  import opened CapsuleModel
  import opened PortableModel

  const JSON := "application/json"
  const TEXT := "text/plain"
  const EVIDENCE_ROOT := "capsule/protocol"

  /** One published evidence file. Files with equal content are one blob of the portable store. */
  datatype Artifact = Artifact(path: string, content: Stream, media: string)

  function Name(operation: Operation): string {
    match operation
    case Describe => "describe"
    case Correctness => "correctness"
    case Benchmark => "benchmark"
  }

  function PathIn(operation: Operation, name: string): string {
    EVIDENCE_ROOT + "/" + Name(operation) + "/" + name
  }

  // ------------------------------------------------- what the portable store refuses

  /** The portable store refuses a blob under a second media type. */
  predicate Conflicts(store: seq<Artifact>, a: Artifact) {
    exists i | 0 <= i < |store| :: store[i].content == a.content && store[i].media != a.media
  }

  predicate ConsistentMedia(store: seq<Artifact>) {
    forall i, j | 0 <= i < |store| && 0 <= j < |store| && store[i].content == store[j].content :: store[i].media == store[j].media
  }

  /** No control characters but tab and line ends. */
  predicate CleanText(s: string) {
    forall c | c in s :: (c >= ' ' || c in "\t\r\n") && c as int != 127
  }

  /** The content policy: text without control characters. Only a child's own text can hold any. */
  predicate Clean(content: Stream) {
    match content
    case PlainText(text) => CleanText(text)
    case Json(ResponseValue(response)) => CleanText(response.opaque_)
    case Json(OtherValue(text)) => CleanText(text)
    case Json(_) => true
    case Binary(_) => false
  }

  predicate Holds(store: seq<Artifact>, content: Stream) {
    exists i | 0 <= i < |store| :: store[i].content == content
  }

  /** How many blobs a store has, and how many bytes. */
  function BlobCount(store: seq<Artifact>): nat {
    if store == [] then 0
    else
      var rest := store[..|store| - 1];
      BlobCount(rest) + if Holds(rest, store[|store| - 1].content) then 0 else 1
  }

  function BlobBytes(store: seq<Artifact>, size: Stream -> nat): nat {
    if store == [] then 0
    else
      var rest := store[..|store| - 1];
      BlobBytes(rest, size) + if Holds(rest, store[|store| - 1].content) then 0 else size(store[|store| - 1].content)
  }

  /** The limits of the portable store. */
  predicate Exceeds(store: seq<Artifact>, a: Artifact, size: Stream -> nat) {
    || size(a.content) > MAX_MEMBER_BYTES || |store| >= MAX_ENTRIES
    || BlobBytes(store + [a], size) > MAX_AGGREGATE_BYTES
    || BlobCount(store + [a]) + |store| + 1 > MAX_TOTAL_FILES
  }

  /** This content is refused, wherever it is written. */
  predicate RefusesContent(store: seq<Artifact>, a: Artifact, size: Stream -> nat) {
    !Clean(a.content) || Conflicts(store, a) || Exceeds(store, a, size)
  }

  /** Writing this file is refused. */
  predicate Refuses(store: seq<Artifact>, a: Artifact, size: Stream -> nat) {
    RefusesContent(store, a, size) || exists i | 0 <= i < |store| :: store[i].path == a.path
  }

  /** Publishing these artifacts in order meets a refusal. */
  predicate Refused(store: seq<Artifact>, artifacts: seq<Artifact>, size: Stream -> nat) {
    exists k | 0 <= k < |artifacts| :: Refuses(store + artifacts[..k], artifacts[k], size)
  }

  lemma RefusedFirst(store: seq<Artifact>, a: seq<Artifact>, b: seq<Artifact>, k: nat, size: Stream -> nat)
    requires k < |a|
    ensures Refuses(store + (a + b)[..k], (a + b)[k], size) <==> Refuses(store + a[..k], a[k], size)
  {
    hide Refuses;
    assert (a + b)[..k] == a[..k];
  }

  lemma RefusedSecond(store: seq<Artifact>, a: seq<Artifact>, b: seq<Artifact>, k: nat, size: Stream -> nat)
    requires k < |b|
    ensures Refuses(store + (a + b)[..|a| + k], (a + b)[|a| + k], size) <==> Refuses(store + a + b[..k], b[k], size)
  {
    hide Refuses;
    assert store + (a + b)[..|a| + k] == store + a + b[..k];
  }

  lemma RefusedAppend(store: seq<Artifact>, a: seq<Artifact>, b: seq<Artifact>, size: Stream -> nat)
    ensures Refused(store, a + b, size) <==> Refused(store, a, size) || Refused(store + a, b, size)
  {
    hide Refuses;
    var both := a + b;
    if Refused(store, both, size) {
      var k :| 0 <= k < |both| && Refuses(store + both[..k], both[k], size);
      if k < |a| {
        RefusedFirst(store, a, b, k, size);
      } else {
        RefusedSecond(store, a, b, k - |a|, size);
      }
    }
    if Refused(store, a, size) {
      var k :| 0 <= k < |a| && Refuses(store + a[..k], a[k], size);
      RefusedFirst(store, a, b, k, size);
    }
    if Refused(store + a, b, size) {
      var k :| 0 <= k < |b| && Refuses(store + a + b[..k], b[k], size);
      RefusedSecond(store, a, b, k, size);
    }
  }

  // ------------------------------------------------- the evidence and the result

  const WITHHELD := PlainText("stdout withheld: secret-safety validation failed\n")
  const UNAVAILABLE := PlainText("stdout unavailable as complete canonical UTF-8 JSON\n")

  function StdoutArtifact(q: Request, c: Child): Artifact {
    if c.stdoutSafe && c.stdout.Some? && c.stdout.value.Json? then Artifact(PathIn(q.operation, "stdout.json"), c.stdout.value, JSON)
    else if c.stdoutSafe && c.stdout.Some? && c.stdout.value.PlainText? then Artifact(PathIn(q.operation, "stdout.txt"), c.stdout.value, TEXT)
    else Artifact(PathIn(q.operation, "stdout-unavailable.txt"), if c.stdoutSafe then UNAVAILABLE else WITHHELD, TEXT)
  }

  /** Standard error is published only as safe text that is not already JSON evidence of this phase. */
  function StderrArtifacts(q: Request, c: Child, before: seq<Artifact>): seq<Artifact> {
    if c.stderrSafe && c.stderr.Some? && !c.stderr.value.Binary? && c.stderr.value != PlainText("")
       && !exists i | 0 <= i < |before| :: before[i].content == c.stderr.value && before[i].media != TEXT
    then [Artifact(PathIn(q.operation, "stderr.txt"), c.stderr.value, TEXT)]
    else []
  }

  /** The evidence of one phase, in the order it is published. */
  function PhaseArtifacts(q: Request, c: Child): seq<Artifact> {
    var before := [
      Artifact(PathIn(q.operation, "request.json"), Json(RequestValue(q)), JSON),
      Artifact(PathIn(q.operation, "process.json"), Json(ProcessValue(Project(c))), JSON), StdoutArtifact(q, c)];
    before + StderrArtifacts(q, c, before)
  }

  function ResultArtifact(result: Result): Artifact {
    Artifact(EVIDENCE_ROOT + "/result.json", Json(ResultValue(result)), JSON)
  }

  /** The phase record of a child's answer to a request. */
  function PhaseOf(q: Request, c: Child, comparison: nat): Phase {
    var accepted := Accepts(c, q, comparison);
    Phase(q.operation, q, Project(c), if accepted then Some(ResponseOf(c)) else None, accepted,
      if !CategoryOf(c).NoFailure? then ProcessFailed
      else if !c.stdoutSafe || !c.stderrSafe then UnsafeOutput
      else if accepted then NotFailed
      else ResponseInvalid)
  }

  /** What the three children amount to. */
  datatype Protocol = Protocol(identity: Identity, comparison: nat, describe: Child, correctness: Child, benchmark: Child) {
    function First(): Phase {
      PhaseOf(DescribeRequest(identity), describe, comparison)
    }

    function Contract(): Scenario
      requires First().accepted
    {
      ResponseOf(describe).body.scenario
    }

    function CheckRequest(): Request
      requires First().accepted
    {
      LaterRequest(Correctness, identity, ResponseOf(describe), Contract())
    }

    function Second(): Phase
      requires First().accepted
    {
      PhaseOf(CheckRequest(), correctness, comparison)
    }

    predicate Correct()
      requires First().accepted && Second().accepted
    {
      CoordinatesOf(ResponseOf(correctness).body.checked) == Contract().coordinates && AllPassed(ResponseOf(correctness).body.checked)
    }

    function TimeRequest(): Request
      requires First().accepted && Second().accepted
    {
      LaterRequest(Benchmark, identity, ResponseOf(correctness), Contract())
    }

    function Third(): Phase
      requires First().accepted && Second().accepted
    {
      PhaseOf(TimeRequest(), benchmark, comparison)
    }

    /** The terminal result. */
    function Terminal(): Result {
      if !First().accepted then Result(identity, false, PhaseFailed(Describe, First().failure), [First()], None, None, None)
      else if !Second().accepted then
        Result(identity, false, PhaseFailed(Correctness, Second().failure), [First(), Second()], Some(Contract()), None, None)
      else
        var checked := ResponseOf(correctness).body.checked;
        if !Correct() then
          Result(identity, false, if CoordinatesOf(checked) != Contract().coordinates then CorrectnessIncomplete else CorrectnessFailed,
            [First(), Second()], Some(Contract()), Some(checked), None)
        else if !Third().accepted then
          Result(identity, false, PhaseFailed(Benchmark, Third().failure), [First(), Second(), Third()], Some(Contract()), Some(checked), None)
        else
          var timed := ResponseOf(benchmark).body.timed;
          var passed := TimedCoordinates(timed) == Contract().coordinates;
          Result(identity, passed, if passed then Passed else BenchmarkIncomplete,
            [First(), Second(), Third()], Some(Contract()), Some(checked), Some(timed))
    }

    /** Everything it publishes: the evidence of the phases that run, and the result last. */
    function Evidence(): seq<Artifact> {
      PhaseArtifacts(DescribeRequest(identity), describe) + if First().accepted then LaterEvidence() else [ResultArtifact(Terminal())]
    }

    function LaterEvidence(): seq<Artifact>
      requires First().accepted
    {
      PhaseArtifacts(CheckRequest(), correctness)
      + if Second().accepted && Correct() then LastEvidence() else [ResultArtifact(Terminal())]
    }

    function LastEvidence(): seq<Artifact>
      requires First().accepted && Second().accepted && Correct()
    {
      PhaseArtifacts(TimeRequest(), benchmark) + [ResultArtifact(Terminal())]
    }
  }

  /** Nothing is lost, and what is new is a first part of these artifacts, in order. */
  predicate Published(before: seq<Artifact>, after: seq<Artifact>, artifacts: seq<Artifact>) {
    before <= after <= before + artifacts
  }

  /** There is no protocol evidence yet. */
  predicate Preflight(store: seq<Artifact>) {
    forall i | 0 <= i < |store| ::
      store[i].path != EVIDENCE_ROOT && !(EVIDENCE_ROOT + "/" <= store[i].path)
  }

  class CapsuleRun {
    /** The portable evidence of the run so far. */
    var store: seq<Artifact>
    /** How many bytes a content has. */
    const size: Stream -> nat

    constructor (store: seq<Artifact>, size: Stream -> nat)
      ensures this.store == store && this.size == size
    {
      this.store := store;
      this.size := size;
    }

    /** Publish one artifact. */
    method Publish(a: Artifact) returns (r: Outcome<()>)
      modifies this
      ensures !r.Crashed? && (r.Raised? <==> Refuses(old(store), a, size))
      ensures store == if r.Done? then old(store) + [a] else old(store)
    {
      if Refuses(store, a, size) {
        return Raised;
      }
      store := store + [a];
      return Done(());
    }

    /** Publish the artifacts of a phase in order. */
    method PublishAll(artifacts: seq<Artifact>) returns (r: Outcome<()>)
      modifies this
      ensures !r.Crashed? && (r.Raised? <==> Refused(old(store), artifacts, size))
      ensures r.Done? ==> store == old(store) + artifacts
      ensures Published(old(store), store, artifacts)
    {
      hide Refuses;
      for i := 0 to |artifacts|
        invariant store == old(store) + artifacts[..i]
        invariant forall k | 0 <= k < i :: !Refuses(old(store) + artifacts[..k], artifacts[k], size)
      {
        r := Publish(artifacts[i]);
        if r.Raised? {
          return Raised;
        }
        assert artifacts[..i + 1] == artifacts[..i] + [artifacts[i]];
      }
      assert artifacts[..|artifacts|] == artifacts;
      return Done(());
    }

    /** Run one child on a request, classify its answer and publish the evidence. */
    method ExecutePhase(q: Request, c: Child, comparison: nat, stable: bool) returns (r: Outcome<Phase>)
      requires Truthful(c)
      modifies this
      ensures !r.Crashed? && (r.Done? ==> r.value == PhaseOf(q, c, comparison) && store == old(store) + PhaseArtifacts(q, c))
      ensures r.Done? ==> !Refused(old(store), PhaseArtifacts(q, c), size)
      ensures Published(old(store), store, PhaseArtifacts(q, c))
      ensures stable ==> (r.Raised? <==> Refused(old(store), PhaseArtifacts(q, c), size))
    {
      var drifted: bool := *;
      if drifted && !stable {
        return Raised;
      }
      var process := Project(c);
      var failure: FailureKind;
      var response: Option<Response> := None;
      if !process.category.NoFailure? {
        failure := ProcessFailed;
      } else if !c.stdoutSafe || !c.stderrSafe {
        failure := UnsafeOutput;
      } else if !c.stdout.value.Json? {
        failure := ResponseInvalid;
      } else {
        var value := c.stdout.value.value;
        if !value.ResponseValue? || !ResponseOk(value.response, q.operation) {
          failure := ResponseInvalid;
        } else if !BindingMatches(value.response, q)
          || (q.operation.Describe? && value.response.body.scenario.comparison != comparison) {
          failure := ResponseInvalid;
        } else {
          response, failure := Some(value.response), NotFailed;
        }
      }
      hide PhaseArtifacts, Refused;
      var _ :- PublishAll(PhaseArtifacts(q, c));
      return Done(Phase(q.operation, q, process, response, response.Some?, failure));
    }

    /** Publish the terminal result last. */
    method Finish(result: Result, stable: bool) returns (r: Outcome<Result>)
      modifies this
      ensures !r.Crashed? && (r.Done? ==> r.value == result && store == old(store) + [ResultArtifact(result)])
      ensures r.Done? ==> !Refused(old(store), [ResultArtifact(result)], size)
      ensures Published(old(store), store, [ResultArtifact(result)])
      ensures stable ==> (r.Raised? <==> Refused(old(store), [ResultArtifact(result)], size))
    {
      var drifted: bool := *;
      if drifted && !stable {
        return Raised;
      }
      hide Refused;
      var _ :- PublishAll([ResultArtifact(result)]);
      return Done(result);
    }

    /** Describe, check correctness, benchmark. `stable` says that neither the executable nor the
        evidence drifts. */
    method RunProtocol(p: Protocol, stable: bool) returns (r: Outcome<Result>)
      requires Truthful(p.describe) && Truthful(p.correctness) && Truthful(p.benchmark)
      modifies this
      ensures !r.Crashed? && (r.Done? ==> r.value == p.Terminal() && store == old(store) + p.Evidence())
      ensures r.Done? ==> Preflight(old(store)) && !Refused(old(store), p.Evidence(), size)
      ensures Published(old(store), store, p.Evidence())
      ensures stable ==> (r.Raised? <==> !Preflight(old(store)) || Refused(old(store), p.Evidence(), size))
    {
      hide PhaseArtifacts, Refused, Refuses, Truthful, Accepts, Project;
      if !Preflight(store) {
        return Raised;
      }
      hide Preflight;
      ghost var before := store;
      var q := DescribeRequest(p.identity);
      ghost var mine := PhaseArtifacts(q, p.describe);
      RefusedAppend(before, mine, if p.First().accepted then p.LaterEvidence() else [ResultArtifact(p.Terminal())], size);
      var first :- ExecutePhase(q, p.describe, p.comparison, stable);
      if first.response.None? {
        r := Finish(Result(p.identity, false, PhaseFailed(Describe, first.failure), [first], None, None, None), stable);
      } else {
        r := RunLater(p, first, stable);
      }
    }

    /** The two later phases, behind an accepted description. */
    method RunLater(p: Protocol, first: Phase, stable: bool) returns (r: Outcome<Result>)
      requires Truthful(p.correctness) && Truthful(p.benchmark) && first == p.First() && first.accepted
      modifies this
      ensures !r.Crashed? && (r.Done? ==> r.value == p.Terminal() && store == old(store) + p.LaterEvidence())
      ensures r.Done? ==> !Refused(old(store), p.LaterEvidence(), size)
      ensures Published(old(store), store, p.LaterEvidence())
      ensures stable ==> (r.Raised? <==> Refused(old(store), p.LaterEvidence(), size))
    {
      hide PhaseArtifacts, Refused, Refuses, Truthful, Project;
      var scenario := first.response.value.body.scenario;
      var q := Request(Correctness, p.identity, first.response, Some(scenario), Some(scenario));
      ghost var mine := PhaseArtifacts(q, p.correctness);
      RefusedAppend(store, mine, if p.Second().accepted && p.Correct() then p.LastEvidence() else [ResultArtifact(p.Terminal())], size);
      var second :- ExecutePhase(q, p.correctness, p.comparison, stable);
      if second.response.None? {
        r := Finish(
          Result(p.identity, false, PhaseFailed(Correctness, second.failure), [first, second], Some(scenario), None, None), stable);
        return r;
      }
      var checked := second.response.value.body.checked;
      var reason :=
        if CoordinatesOf(checked) != scenario.coordinates then CorrectnessIncomplete
        else if !AllPassed(checked) then CorrectnessFailed
        else Passed;
      if !reason.Passed? {
        r := Finish(Result(p.identity, false, reason, [first, second], Some(scenario), Some(checked), None), stable);
      } else {
        r := RunBenchmark(p, first, second, stable);
      }
    }

    /** The last phase, behind accepted and complete correctness. */
    method RunBenchmark(p: Protocol, first: Phase, second: Phase, stable: bool) returns (r: Outcome<Result>)
      requires Truthful(p.benchmark) && first == p.First() && first.accepted && second == p.Second() && second.accepted && p.Correct()
      modifies this
      ensures !r.Crashed? && (r.Done? ==> r.value == p.Terminal() && store == old(store) + p.LastEvidence())
      ensures r.Done? ==> !Refused(old(store), p.LastEvidence(), size)
      ensures Published(old(store), store, p.LastEvidence())
      ensures stable ==> (r.Raised? <==> Refused(old(store), p.LastEvidence(), size))
    {
      hide PhaseArtifacts, Refused, Refuses, Truthful, Project, AllPassed, CoordinatesOf, TimedCoordinates;
      var scenario := first.response.value.body.scenario;
      var checked := second.response.value.body.checked;
      var q := Request(Benchmark, p.identity, second.response, Some(scenario), Some(scenario));
      RefusedAppend(store, PhaseArtifacts(q, p.benchmark), [ResultArtifact(p.Terminal())], size);
      var third :- ExecutePhase(q, p.benchmark, p.comparison, stable);
      if third.response.None? {
        r := Finish(
          Result(p.identity, false, PhaseFailed(Benchmark, third.failure), [first, second, third], Some(scenario), Some(checked), None),
          stable);
        return r;
      }
      var timed := third.response.value.body.timed;
      var reason := if TimedCoordinates(timed) != scenario.coordinates then BenchmarkIncomplete else Passed;
      r := Finish(
        Result(p.identity, reason.Passed?, reason, [first, second, third], Some(scenario), Some(checked), Some(timed)), stable);
    }
  }

  lemma PhaseSound(q: Request, c: Child, comparison: nat)
    requires Truthful(c)
    ensures var p := PhaseOf(q, c, comparison);
      && PhaseOk(p) && ProcessOk(p.process) && p.operation == q.operation && p.request == q
      && (p.accepted <==> Accepts(c, q, comparison)) && (p.accepted <==> p.failure.NotFailed?)
      && (p.accepted ==> p.response == Some(ResponseOf(c)) && BindingMatches(p.response.value, q))
  {
    ProjectionOk(c);
  }

  /** The phases that run, in order. */
  lemma PhasesSound(p: Protocol)
    requires Truthful(p.describe) && Truthful(p.correctness) && Truthful(p.benchmark)
    ensures var r := p.Terminal();
      && OperationPrefix(r.phases) && Chained(r.phases)
      && (forall i | 0 <= i < |r.phases| :: PhaseOk(r.phases[i]) && ProcessOk(r.phases[i].process))
  {
    PhaseSound(DescribeRequest(p.identity), p.describe, p.comparison);
    if p.First().accepted {
      PhaseSound(p.CheckRequest(), p.correctness, p.comparison);
      if p.Second().accepted {
        PhaseSound(p.TimeRequest(), p.benchmark, p.comparison);
      }
    }
    hide PhaseOf, PhaseOk, ProcessOk, Accepts, BindingMatches, AllPassed, CoordinatesOf, TimedCoordinates;
  }

  lemma ResultSound(p: Protocol)
    requires Truthful(p.describe) && Truthful(p.correctness) && Truthful(p.benchmark) && OperationPrefix(p.Terminal().phases)
    ensures ResultOk(p.Terminal())
  {
    PhaseSound(DescribeRequest(p.identity), p.describe, p.comparison);
    if p.First().accepted {
      PhaseSound(p.CheckRequest(), p.correctness, p.comparison);
      if p.Second().accepted {
        PhaseSound(p.TimeRequest(), p.benchmark, p.comparison);
      }
    }
    hide PhaseOf, PhaseOk, ProcessOk, BindingMatches, AllPassed, CoordinatesOf, TimedCoordinates, OperationPrefix;
  }

  /** The result is sound: its validators accept it, its phases are chained, and it passed exactly when
      the children carried the protocol through. */
  lemma TerminalSound(p: Protocol)
    requires Truthful(p.describe) && Truthful(p.correctness) && Truthful(p.benchmark)
    ensures var r := p.Terminal();
      && ResultOk(r) && r.identity == p.identity && Chained(r.phases)
      && (forall i | 0 <= i < |r.phases| :: PhaseOk(r.phases[i]) && ProcessOk(r.phases[i].process))
      && (r.passed <==> Succeeds(p.identity, p.comparison, p.describe, p.correctness, p.benchmark))
  {
    PhasesSound(p);
    ResultSound(p);
    hide ResultOk, Chained, PhaseOk, ProcessOk, Truthful, Project, ResponseOk, BindingMatches, AllPassed, CoordinatesOf, TimedCoordinates;
  }

  /** What is published of a child does not depend on a stream that is not safe to show: two children
      that differ only there leave the same evidence. */
  lemma UnsafeStaysHidden(q: Request, c: Child, d: Child)
    requires Project(c) == Project(d) && c.stdoutSafe == d.stdoutSafe && c.stderrSafe == d.stderrSafe
    requires c.stdoutSafe ==> c.stdout == d.stdout
    requires c.stderrSafe ==> c.stderr == d.stderr
    ensures PhaseArtifacts(q, c) == PhaseArtifacts(q, d)
    ensures !c.stdoutSafe ==> PhaseArtifacts(q, c)[2].content == WITHHELD
    ensures !c.stderrSafe ==> |PhaseArtifacts(q, c)| == 3
  {
  }

  // ---------------------------------------------------------------- evidence paths

  /** The path is in the protocol's directory. */
  predicate InDirectory(path: string) {
    |path| > |EVIDENCE_ROOT| + 1 && EVIDENCE_ROOT + "/" <= path
  }

  /** How its next component starts. */
  function Mark(path: string): char
    requires InDirectory(path)
  {
    path[|EVIDENCE_ROOT| + 1]
  }

  predicate AllUnder(artifacts: seq<Artifact>, marks: set<char>) {
    forall i | 0 <= i < |artifacts| :: InDirectory(artifacts[i].path) && Mark(artifacts[i].path) in marks
  }

  predicate DistinctPaths(artifacts: seq<Artifact>) {
    forall i, j | 0 <= i < j < |artifacts| :: artifacts[i].path != artifacts[j].path
  }

  lemma PathInjective(operation: Operation, m: string, n: string)
    ensures InDirectory(PathIn(operation, m)) && Mark(PathIn(operation, m)) == Name(operation)[0]
    ensures PathIn(operation, m) == PathIn(operation, n) ==> m == n
  {
    var directory := EVIDENCE_ROOT + "/" + Name(operation) + "/";
    assert PathIn(operation, m) == directory + m && PathIn(operation, n) == directory + n;
    assert (directory + m)[|directory|..] == m && (directory + n)[|directory|..] == n;
    assert directory[|EVIDENCE_ROOT| + 1] == Name(operation)[0];
  }

  /** The names of the files of one phase. */
  function NamesIn(c: Child, stderr: bool): seq<string> {
    ["request.json", "process.json",
     if c.stdoutSafe && c.stdout.Some? && c.stdout.value.Json? then "stdout.json"
     else if c.stdoutSafe && c.stdout.Some? && c.stdout.value.PlainText? then "stdout.txt"
     else "stdout-unavailable.txt"]
    + if stderr then ["stderr.txt"] else []
  }

  lemma NamesDiffer(c: Child, stderr: bool)
    ensures forall i, j | 0 <= i < j < |NamesIn(c, stderr)| :: NamesIn(c, stderr)[i] != NamesIn(c, stderr)[j]
  {
    var names := NamesIn(c, stderr);
    assert names[0][0] == 'r' && names[1][0] == 'p' && names[2][0] == 's' && names[2][3] == 'o';
    assert stderr ==> names[3][0] == 's' && names[3][3] == 'e';
  }

  lemma PhaseNames(q: Request, c: Child)
    ensures var artifacts, names := PhaseArtifacts(q, c), NamesIn(c, |PhaseArtifacts(q, c)| > 3);
      |names| == |artifacts| && forall i | 0 <= i < |names| :: artifacts[i].path == PathIn(q.operation, names[i])
  {
    hide PathIn, Project;
  }

  lemma PhasePaths(q: Request, c: Child)
    ensures AllUnder(PhaseArtifacts(q, c), {Name(q.operation)[0]}) && DistinctPaths(PhaseArtifacts(q, c))
  {
    var artifacts := PhaseArtifacts(q, c);
    var names := NamesIn(c, |artifacts| > 3);
    PhaseNames(q, c);
    NamesDiffer(c, |artifacts| > 3);
    hide PhaseArtifacts, NamesIn, PathIn, InDirectory;
    forall i | 0 <= i < |artifacts|
      ensures InDirectory(artifacts[i].path) && Mark(artifacts[i].path) == Name(q.operation)[0]
    {
      PathInjective(q.operation, names[i], names[i]);
    }
    forall i, j | 0 <= i < j < |artifacts|
      ensures artifacts[i].path != artifacts[j].path
    {
      PathInjective(q.operation, names[i], names[j]);
    }
  }

  lemma ResultPath(result: Result)
    ensures AllUnder([ResultArtifact(result)], {'r'}) && DistinctPaths([ResultArtifact(result)])
  {
    var path := ResultArtifact(result).path;
    assert path[|EVIDENCE_ROOT| + 1] == "/result.json"[1] == 'r';
  }

  lemma PathsJoin(a: seq<Artifact>, x: set<char>, b: seq<Artifact>, y: set<char>)
    requires AllUnder(a, x) && AllUnder(b, y) && x !! y && DistinctPaths(a) && DistinctPaths(b)
    ensures AllUnder(a + b, x + y) && DistinctPaths(a + b)
  {
    hide InDirectory;
    forall i, j | 0 <= i < |a| && 0 <= j < |b|
      ensures a[i].path != b[j].path
    {
      assert Mark(a[i].path) in x && Mark(b[j].path) in y;
    }
  }

  lemma PathsWiden(a: seq<Artifact>, x: set<char>, y: set<char>)
    requires AllUnder(a, x) && x <= y
    ensures AllUnder(a, y)
  {
  }

  /** Every file of a run has its own path in the protocol's directory. */
  lemma EvidencePaths(p: Protocol)
    ensures AllUnder(p.Evidence(), {'d', 'c', 'b', 'r'}) && DistinctPaths(p.Evidence())
  {
    ResultPath(p.Terminal());
    PhasePaths(DescribeRequest(p.identity), p.describe);
    assert Name(Describe)[0] == 'd' && Name(Correctness)[0] == 'c' && Name(Benchmark)[0] == 'b';
    hide PhaseArtifacts, AllUnder, DistinctPaths, ResultArtifact, PhaseOf, Name;
    var first, result := PhaseArtifacts(DescribeRequest(p.identity), p.describe), [ResultArtifact(p.Terminal())];
    if !p.First().accepted {
      PathsJoin(first, {'d'}, result, {'r'});
      PathsWiden(p.Evidence(), {'d'} + {'r'}, {'d', 'c', 'b', 'r'});
      return;
    }
    PhasePaths(p.CheckRequest(), p.correctness);
    var second := PhaseArtifacts(p.CheckRequest(), p.correctness);
    if !(p.Second().accepted && p.Correct()) {
      PathsJoin(second, {'c'}, result, {'r'});
      PathsJoin(first, {'d'}, second + result, {'c'} + {'r'});
      PathsWiden(p.Evidence(), {'d'} + ({'c'} + {'r'}), {'d', 'c', 'b', 'r'});
      return;
    }
    PhasePaths(p.TimeRequest(), p.benchmark);
    var third := PhaseArtifacts(p.TimeRequest(), p.benchmark);
    PathsJoin(third, {'b'}, result, {'r'});
    PathsJoin(second, {'c'}, third + result, {'b'} + {'r'});
    PathsJoin(first, {'d'}, second + (third + result), {'c'} + ({'b'} + {'r'}));
    PathsWiden(p.Evidence(), {'d'} + ({'c'} + ({'b'} + {'r'})), {'d', 'c', 'b', 'r'});
  }

  /** On a run without protocol evidence, publication is refused for the content of a file alone: its
      characters, its media type or the limits. */
  lemma OnlyContentRefuses(p: Protocol, store: seq<Artifact>, size: Stream -> nat)
    requires Preflight(store)
    ensures Refused(store, p.Evidence(), size) <==>
      exists k | 0 <= k < |p.Evidence()| :: RefusesContent(store + p.Evidence()[..k], p.Evidence()[k], size)
  {
    EvidencePaths(p);
    var evidence := p.Evidence();
    hide RefusesContent, Mark;
    forall k | 0 <= k < |evidence|
      ensures Refuses(store + evidence[..k], evidence[k], size) <==> RefusesContent(store + evidence[..k], evidence[k], size)
    {
      var before := store + evidence[..k];
      forall i | 0 <= i < |before|
        ensures before[i].path != evidence[k].path
      {
        if i >= |store| {
          assert before[i] == evidence[i - |store|];
        }
      }
    }
  }

  /** Within one phase the artifacts never conflict with each other. */
  lemma PhaseConsistent(q: Request, c: Child)
    ensures ConsistentMedia(PhaseArtifacts(q, c))
  {
  }

  /** Across phases they can. A child that is accepted and prints the next request, which it can compute
      from its own answer, on its standard error makes every run of the protocol fail: the request is
      published as JSON although its content is there as text. */
  lemma CrossPhaseConflict(p: Protocol, store: seq<Artifact>, size: Stream -> nat)
    requires p.First().accepted && p.describe.stderrSafe && p.describe.stderr == Some(Json(RequestValue(p.CheckRequest())))
    ensures Refused(store, p.Evidence(), size)
  {
    var mine, next := PhaseArtifacts(DescribeRequest(p.identity), p.describe), PhaseArtifacts(p.CheckRequest(), p.correctness);
    assert mine[3] == Artifact(PathIn(Describe, "stderr.txt"), p.describe.stderr.value, TEXT);
    assert (store + mine + next[..0])[|store| + 3] == mine[3];
    assert Refuses(store + mine + next[..0], next[0], size);
    assert Refused(store + mine, next, size);
    hide PhaseArtifacts, Refused, Refuses;
    RefusedAppend(store + mine, next, if p.Second().accepted && p.Correct() then p.LastEvidence() else [ResultArtifact(p.Terminal())], size);
    RefusedAppend(store, mine, p.LaterEvidence(), size);
  }

  /** So does a child that prints a control character, a terminal colour say, on its standard error. */
  lemma ControlCharacter(p: Protocol, text: string, store: seq<Artifact>, size: Stream -> nat)
    requires p.describe.stderrSafe && p.describe.stderr == Some(PlainText(text)) && !CleanText(text)
    ensures Refused(store, p.Evidence(), size)
  {
    var mine := PhaseArtifacts(DescribeRequest(p.identity), p.describe);
    assert text != "";
    assert mine[3] == Artifact(PathIn(Describe, "stderr.txt"), PlainText(text), TEXT);
    assert Refuses(store + mine[..3], mine[3], size);
    assert Refused(store, mine, size);
    hide PhaseArtifacts, Refused, Refuses;
    RefusedAppend(store, mine, if p.First().accepted then p.LaterEvidence() else [ResultArtifact(p.Terminal())], size);
  }

  function Description(identity: Identity, scenario: Scenario): Response {
    Response(Describe, DescribeRequest(identity), identity, None, None, Described(scenario), "")
  }

  /** A child that describes the scenario, exits cleanly, and prints this on its standard error. */
  function Describing(identity: Identity, scenario: Scenario, stderr: Stream): Child {
    var stdout := Json(ResponseValue(Description(identity, scenario)));
    Child(Exited, Some(0), false, false, false, Some(stdout), Some(stderr), stdout, stderr, 0.0, true, true)
  }

  /** Two ordinary children, each accepted by its own phase, whose protocol nevertheless ends in an
      integrity error: one echoes the next request, one prints a colour. */
  method Unlucky(identity: Identity, scenario: Scenario, correctness: Child, benchmark: Child, size: Stream -> nat, colour: bool)
    returns (r: Outcome<Result>)
    requires ScenarioOk(scenario) && Truthful(correctness) && Truthful(benchmark)
    ensures r.Raised?
  {
    var next := LaterRequest(Correctness, identity, Description(identity, scenario), scenario);
    var describe := Describing(identity, scenario, if colour then PlainText("\U{1B}[31m") else Json(RequestValue(next)));
    var p := Protocol(identity, scenario.comparison, describe, correctness, benchmark);
    assert Accepts(describe, DescribeRequest(identity), scenario.comparison);
    if colour {
      assert "\U{1B}[31m"[0] in "\U{1B}[31m";
      ControlCharacter(p, "\U{1B}[31m", [], size);
    } else {
      CrossPhaseConflict(p, [], size);
    }
    var run := new CapsuleRun([], size);
    r := run.RunProtocol(p, true);
  }
}
