/** Capturing the artifacts of a build: the target outputs and their exact runtime closure. */
module Closure {
  import opened Outcomes

  type Path = string

  datatype ElfType = Relocatable | ExecFile | SharedObject | CoreFile | OtherElf

  datatype Kind = Elf(elfType: ElfType) | Archive

  datatype File = File(kind: Kind, executable: bool, digest: nat)

  /** One dynamic dependency as inspection resolved it. */
  datatype Dependency = Dependency(path: Option<Path>, inRoot: bool)

  datatype TargetType = Executable | SharedLibrary | ModuleLibrary | StaticLibrary | ObjectLibrary

  datatype Target = Target(name: string, kind: TargetType, outputs: set<Path>)

  datatype Artifact = Artifact(path: Path, file: File, targets: set<string>, runtimeDependency: bool)

  /** A build root: its files, and what the inspecting tools report of an ELF file; a file without a
      report cannot be inspected. Beside them the digests of the CMake cache and the compile database, and the
      tools on the machine by name, each with its path, mode and content. */
  datatype Root = Root(
    files: map<Path, File>,
    reports: map<Path, seq<Dependency>>,
    cache: Option<nat>,
    database: Option<nat>,
    tools: map<string, nat>)

  /** The tools that inspect. */
  const INSPECTORS := {"ldd", "readelf"}

  predicate FormatOk(target: Target, file: File) {
    match target.kind
    case StaticLibrary => file.kind.Archive?
    case Executable => file.kind == Elf(ExecFile) || file.kind == Elf(SharedObject)
    case SharedLibrary => file.kind == Elf(SharedObject)
    case ModuleLibrary => file.kind == Elf(SharedObject)
    case ObjectLibrary => file.kind == Elf(Relocatable)
  }

  /** Dependencies are listed for executables and shared objects alone. */
  predicate Dynamic(file: File) {
    file.kind.Elf? && (file.kind.elfType.ExecFile? || file.kind.elfType.SharedObject?)
  }

  /** The dependencies an inspection records. */
  function Listed(root: Root, p: Path): seq<Dependency>
    requires p in root.files && p in root.reports
  {
    if Dynamic(root.files[p]) then root.reports[p] else []
  }

  predicate IsOutput(targets: seq<Target>, p: Path) {
    exists i | 0 <= i < |targets| :: p in targets[i].outputs
  }

  /** `q` is an in-root dependency of the ELF artifact `p`. */
  predicate Edge(root: Root, p: Path, q: Path) {
    && p in root.files && root.files[p].kind.Elf? && p in root.reports
    && exists i | 0 <= i < |Listed(root, p)| :: Listed(root, p)[i].inRoot && Listed(root, p)[i].path == Some(q)
  }

  /** A chain of dependencies that starts at a target output. */
  predicate Walk(root: Root, targets: seq<Target>, w: seq<Path>) {
    w != [] && IsOutput(targets, w[0]) && forall i | 0 <= i < |w| - 1 :: Edge(root, w[i], w[i + 1])
  }

  ghost predicate Reachable(root: Root, targets: seq<Target>, p: Path) {
    exists w :: Walk(root, targets, w) && w[|w| - 1] == p
  }

  /** The file is there, and inspectable if it is ELF. */
  predicate Usable(root: Root, p: Path) {
    p in root.files && (root.files[p].kind.Elf? ==> p in root.reports)
  }

  /** Capture succeeds: everything reachable is usable, every output has its target's format, and the
      tools and the CMake cache are there. */
  ghost predicate Capturable(root: Root, targets: seq<Target>) {
    && INSPECTORS <= root.tools.Keys && root.cache.Some?
    && (forall p | Reachable(root, targets, p) :: Usable(root, p))
    && (forall i, p | 0 <= i < |targets| && p in targets[i].outputs :: p in root.files && FormatOk(targets[i], root.files[p]))
  }

  function NamesOf(targets: seq<Target>, p: Path): set<string> {
    set i | 0 <= i < |targets| && p in targets[i].outputs :: targets[i].name
  }

  function Outputs(targets: seq<Target>): set<Path> {
    set i, p | 0 <= i < |targets| && p in targets[i].outputs :: p
  }

  /** What a capture records. */
  datatype Capture = Capture(
    artifacts: map<Path, Artifact>,
    inspections: map<Path, seq<Dependency>>,
    tools: map<string, nat>,
    cache: nat,
    database: Option<nat>)

  /** The recorded artifacts are exactly the outputs and their reachable in-root dependencies; an
      output is never marked a runtime dependency; the inspected files are exactly the ELF ones; the
      inspecting tools, the CMake cache and the compile database are as they are. */
  ghost predicate Exact(root: Root, targets: seq<Target>, c: Capture) {
    && root.cache == Some(c.cache) && root.database == c.database
    && c.tools.Keys == INSPECTORS && (forall t | t in c.tools :: t in root.tools && c.tools[t] == root.tools[t])
    && (forall p :: p in c.artifacts <==> Reachable(root, targets, p))
    && (forall p | p in c.artifacts ::
          && p in root.files
          && c.artifacts[p] == Artifact(p, root.files[p], NamesOf(targets, p), !IsOutput(targets, p)))
    && (forall p :: p in c.inspections <==> p in c.artifacts && root.files[p].kind.Elf?)
    && (forall p | p in c.inspections :: p in root.reports && c.inspections[p] == Listed(root, p))
  }

  lemma OutputReachable(root: Root, targets: seq<Target>, p: Path)
    requires IsOutput(targets, p)
    ensures Reachable(root, targets, p)
  {
    assert Walk(root, targets, [p]) && [p][|[p]| - 1] == p;
  }

  lemma EdgeReachable(root: Root, targets: seq<Target>, p: Path, q: Path)
    requires Reachable(root, targets, p) && Edge(root, p, q)
    ensures Reachable(root, targets, q)
  {
    var w :| Walk(root, targets, w) && w[|w| - 1] == p;
    var longer := w + [q];
    assert forall i | 0 <= i < |longer| - 1 :: Edge(root, longer[i], longer[i + 1]);
    assert Walk(root, targets, longer) && longer[|longer| - 1] == q;
  }

  /** A set that holds the outputs and is closed under dependencies holds everything reachable. */
  lemma {:induction false} ClosedContains(root: Root, targets: seq<Target>, s: set<Path>, w: seq<Path>)
    requires Walk(root, targets, w)
    requires forall p | IsOutput(targets, p) :: p in s
    requires forall p, q | p in s && Edge(root, p, q) :: q in s
    ensures w[|w| - 1] in s
  {
    if |w| > 1 {
      var prefix := w[..|w| - 1];
      forall i | 0 <= i < |prefix| - 1
        ensures Edge(root, prefix[i], prefix[i + 1])
      {
        assert Edge(root, w[i], w[i + 1]);
      }
      ClosedContains(root, targets, s, prefix);
      assert Edge(root, w[|w| - 2], w[|w| - 1]);
    }
  }

  /** What the format check leaves of an output: an archive is a static library's and is not inspected;
      any other output is inspected, an object library's is no program and no shared library, and a
      shared library's or a module's is one that a program can load. */
  predicate Fits(target: Target, a: Artifact, inspected: bool) {
    && (a.file.kind.Archive? <==> target.kind.StaticLibrary?) && (inspected <==> !target.kind.StaticLibrary?)
    && (target.kind.ObjectLibrary? || target.kind.StaticLibrary? <==> !Dynamic(a.file))
    && (target.kind.SharedLibrary? || target.kind.ModuleLibrary? ==> a.file.kind == Elf(SharedObject))
    && a.file.kind != Elf(CoreFile) && a.file.kind != Elf(OtherElf)
  }

  /** Two targets that name one file agree on what it is; otherwise nothing is captured. */
  lemma SharedOutput(root: Root, targets: seq<Target>, i: nat, j: nat, p: Path)
    requires i < |targets| && j < |targets| && p in targets[i].outputs && p in targets[j].outputs
    requires Capturable(root, targets)
    ensures targets[i].kind.StaticLibrary? <==> targets[j].kind.StaticLibrary?
    ensures targets[i].kind.ObjectLibrary? <==> targets[j].kind.ObjectLibrary?
  {
    assert FormatOk(targets[i], root.files[p]) && FormatOk(targets[j], root.files[p]);
  }

  /** The outputs of the requested targets, with the targets that name each. */
  method InitialArtifacts(root: Root, targets: seq<Target>) returns (r: Outcome<map<Path, Artifact>>)
    ensures !r.Crashed?
    ensures r.Done? ==> r.value.Keys == Outputs(targets)
    ensures r.Done? ==> forall p | p in r.value :: p in root.files && r.value[p] == Artifact(p, root.files[p], NamesOf(targets, p), false)
    ensures r.Done? <==> forall i, p | 0 <= i < |targets| && p in targets[i].outputs :: p in root.files && FormatOk(targets[i], root.files[p])
  {
    var paths := Outputs(targets);
    if exists p | p in paths :: p !in root.files {
      return Raised;
    }
    assert forall p | p in paths :: p in root.files;
    var artifacts := map p | p in paths :: Artifact(p, root.files[p], NamesOf(targets, p), false);
    for i := 0 to |targets|
      invariant forall j, p | 0 <= j < i && p in targets[j].outputs :: p in root.files && FormatOk(targets[j], root.files[p])
    {
      assert forall p | p in targets[i].outputs :: p in paths;
      if exists p | p in targets[i].outputs :: p in artifacts && !FormatOk(targets[i], artifacts[p].file) {
        return Raised;
      }
    }
    return Done(artifacts);
  }

  /** Each of these paths is listed exactly once. */
  ghost predicate OnceEach(listed: seq<Path>, paths: set<Path>) {
    && (forall p :: p in listed <==> p in paths)
    && forall i, j | 0 <= i < j < |listed| :: listed[i] != listed[j]
  }

  /** The state of the worklist between two rounds. */
  class Worklist {
    const root: Root
    const targets: seq<Target>
    var artifacts: map<Path, Artifact>
    var inspections: map<Path, seq<Dependency>>
    var pending: seq<Path>
    var observed: set<Path>
    /** Every inspection made, in order. */
    var inspected: seq<Path>

    constructor (root: Root, targets: seq<Target>, initial: map<Path, Artifact>, queue: seq<Path>)
      requires initial.Keys == Outputs(targets)
      requires forall p | p in initial :: p in root.files && initial[p] == Artifact(p, root.files[p], NamesOf(targets, p), false)
      requires forall p :: p in queue <==> p in initial && root.files[p].kind.Elf?
      ensures this.root == root && this.targets == targets && Valid() && observed == {} && pending == queue
    {
      this.root := root;
      this.targets := targets;
      artifacts := initial;
      inspections := map[];
      pending := queue;
      observed := {};
      inspected := [];
      new;
      hide Reachable, NamesOf, IsOutput;
      forall p
        ensures p in initial <==> IsOutput(targets, p)
        ensures IsOutput(targets, p) ==> Reachable(root, targets, p)
      {
        OutputsMean(targets, p);
        if IsOutput(targets, p) {
          OutputReachable(root, targets, p);
        }
      }
    }

    /** Artifacts are reachable and recorded truly. */
    ghost predicate Sound()
      reads this
    {
      && (forall p | p in artifacts ::
            && Reachable(root, targets, p) && p in root.files
            && artifacts[p] == Artifact(p, root.files[p], NamesOf(targets, p), !IsOutput(targets, p)))
      && (forall p | IsOutput(targets, p) :: p in artifacts)
    }

    /** Every ELF artifact is observed or pending, and observed ones were inspected exactly once. */
    ghost predicate Tracked()
      reads this
    {
      && (forall p | p in artifacts && artifacts[p].file.kind.Elf? :: p in observed || p in pending)
      && (forall p | p in pending || p in observed :: p in artifacts && artifacts[p].file.kind.Elf?)
      && inspections.Keys == observed
      && (forall p | p in observed :: p in root.files && p in root.reports && inspections[p] == Listed(root, p))
      && (forall p :: p in inspected <==> p in observed)
      && (forall i, j | 0 <= i < j < |inspected| :: inspected[i] != inspected[j])
    }

    ghost predicate Valid()
      reads this
    {
      Sound() && Tracked() && forall p, q | p in observed && Edge(root, p, q) :: q in artifacts
    }

    /** Take the next pending artifact and, unless it was inspected already, inspect it and queue its
        new ELF dependencies. */
    method Step() returns (ok: bool)
      requires Valid() && pending != []
      modifies this
      ensures ok ==> Valid()
      ensures ok ==> observed == old(observed) + {old(pending)[0]} && old(pending)[0] in root.files
      ensures ok && old(pending)[0] in old(observed) ==> |pending| < |old(pending)|
      ensures !ok ==> exists p :: Reachable(root, targets, p) && !Usable(root, p)
    {
      hide Reachable, NamesOf, IsOutput, Edge, Listed;
      var relative := pending[0];
      assert pending == [relative] + pending[1..];
      pending := pending[1..];
      if relative in observed {
        assert observed == observed + {relative};
        return true;
      }
      if relative !in root.reports {
        assert Reachable(root, targets, relative) && !Usable(root, relative);
        return false;
      }
      observed := observed + {relative};
      inspected := inspected + [relative];
      inspections := inspections[relative := Listed(root, relative)];
      ok := Follow(relative);
    }

    /** Record the dependencies of the artifact inspected last. */
    method Follow(relative: Path) returns (ok: bool)
      requires Sound() && Tracked() && relative in observed
      requires forall p, q | p in observed && p != relative && Edge(root, p, q) :: q in artifacts
      modifies this`artifacts, this`pending
      ensures ok ==> Valid()
      ensures !ok ==> exists p :: Reachable(root, targets, p) && !Usable(root, p)
    {
      hide Reachable, NamesOf, IsOutput, Usable, Listed;
      var dependencies := Listed(root, relative);
      for i := 0 to |dependencies|
        invariant Sound() && Tracked() && artifacts.Keys >= old(artifacts).Keys
        invariant forall j | 0 <= j < i && dependencies[j].inRoot && dependencies[j].path.Some? :: dependencies[j].path.value in artifacts
      {
        ok := Depend(relative, i);
        if !ok {
          return false;
        }
      }
      return true;
    }

    /** Record one dependency of an observed artifact. */
    method Depend(relative: Path, i: nat) returns (ok: bool)
      requires Sound() && Tracked() && relative in observed && i < |Listed(root, relative)|
      modifies this`artifacts, this`pending
      ensures ok ==> Sound() && Tracked() && artifacts.Keys >= old(artifacts).Keys
      ensures ok ==> var d := Listed(root, relative)[i]; d.inRoot && d.path.Some? ==> d.path.value in artifacts
      ensures !ok ==> exists p :: Reachable(root, targets, p) && !Usable(root, p)
    {
      hide Reachable, IsOutput, NamesOf, Listed;
      var d := Listed(root, relative)[i];
      if !d.inRoot || d.path.None? {
        return true;
      }
      var p := d.path.value;
      EdgeReachable(root, targets, relative, p);
      if p !in artifacts {
        if p !in root.files {
          assert !Usable(root, p);
          return false;
        }
        NoNames(targets, p);
        artifacts := artifacts[p := Artifact(p, root.files[p], {}, true)];
      }
      if artifacts[p].file.kind.Elf? && p !in observed {
        pending := pending + [p];
      }
      return true;
    }
  }

  lemma OutputsMean(targets: seq<Target>, p: Path)
    ensures p in Outputs(targets) <==> IsOutput(targets, p)
  {
  }

  lemma NoNames(targets: seq<Target>, p: Path)
    ensures !IsOutput(targets, p) ==> NamesOf(targets, p) == {}
  {
  }

  /** The ELF paths of a map, in any order. */
  method Queue(artifacts: map<Path, Artifact>) returns (queue: seq<Path>)
    ensures forall p :: p in queue <==> p in artifacts && artifacts[p].file.kind.Elf?
  {
    queue := [];
    var rest := set p | p in artifacts && artifacts[p].file.kind.Elf?;
    while rest != {}
      invariant forall p | p in rest :: p in artifacts && artifacts[p].file.kind.Elf?
      invariant forall p :: p in queue || p in rest <==> p in artifacts && artifacts[p].file.kind.Elf?
    {
      var p :| p in rest;
      queue := queue + [p];
      rest := rest - {p};
    }
  }

  /** Discover the outputs and follow dependencies until nothing is pending. */
  method CaptureArtifacts(root: Root, targets: seq<Target>) returns (r: Outcome<Capture>, inspected: seq<Path>)
    ensures !r.Crashed?
    ensures r.Done? <==> Capturable(root, targets)
    ensures r.Done? ==> Exact(root, targets, r.value)
    ensures r.Done? ==> OnceEach(inspected, r.value.inspections.Keys)
    ensures r.Done? ==> forall i, p | 0 <= i < |targets| && p in targets[i].outputs ::
      p in r.value.artifacts && Fits(targets[i], r.value.artifacts[p], p in r.value.inspections)
  {
    hide Reachable, NamesOf, IsOutput, Exact, Outputs, FormatOk, Fits, Listed;
    var initial := InitialArtifacts(root, targets);
    if initial.Raised? {
      return Raised, [];
    }
    if !(INSPECTORS <= root.tools.Keys) {
      return Raised, [];
    }
    var tools := map t | t in INSPECTORS :: root.tools[t];
    var queue := Queue(initial.value);
    var work := new Worklist(root, targets, initial.value, queue);
    while work.pending != []
      invariant work.Valid() && work.root == root && work.targets == targets && work.observed <= root.files.Keys
      decreases root.files.Keys - work.observed, |work.pending|
    {
      ghost var before := work.observed;
      ghost var next := work.pending[0];
      var ok := work.Step();
      if !ok {
        return Raised, work.inspected;
      }
      if next !in before {
        assert next in root.files.Keys - before && next !in root.files.Keys - work.observed;
      } else {
        assert work.observed == before;
      }
    }
    if root.cache.None? {
      return Raised, work.inspected;
    }
    Finished(work, tools, root.cache.value);
    OutputsFit(root, targets, Capture(work.artifacts, work.inspections, tools, root.cache.value, root.database));
    return Done(Capture(work.artifacts, work.inspections, tools, root.cache.value, root.database)), work.inspected;
  }

  lemma OutputsFit(root: Root, targets: seq<Target>, c: Capture)
    requires Exact(root, targets, c)
    requires forall i, p | 0 <= i < |targets| && p in targets[i].outputs :: p in root.files && FormatOk(targets[i], root.files[p])
    ensures forall i, p | 0 <= i < |targets| && p in targets[i].outputs ::
      p in c.artifacts && Fits(targets[i], c.artifacts[p], p in c.inspections)
  {
    hide Reachable, NamesOf;
    forall i, p | 0 <= i < |targets| && p in targets[i].outputs
      ensures p in c.artifacts && Fits(targets[i], c.artifacts[p], p in c.inspections)
    {
      OutputReachable(root, targets, p);
    }
  }

  lemma Finished(work: Worklist, tools: map<string, nat>, cache: nat)
    requires work.Valid() && work.pending == [] && work.root.cache == Some(cache)
    requires tools.Keys == INSPECTORS && forall t | t in tools :: t in work.root.tools && tools[t] == work.root.tools[t]
    ensures Exact(work.root, work.targets, Capture(work.artifacts, work.inspections, tools, cache, work.root.database)) && OnceEach(work.inspected, work.inspections.Keys)
    ensures forall p | Reachable(work.root, work.targets, p) :: Usable(work.root, p)
  {
    forall p | Reachable(work.root, work.targets, p)
      ensures p in work.artifacts && Usable(work.root, p)
    {
      var w :| Walk(work.root, work.targets, w) && w[|w| - 1] == p;
      ClosedContains(work.root, work.targets, work.artifacts.Keys, w);
    }
  }

  /** Re-read every captured artifact, the CMake cache, the compile database and the tools, and
      compare. Inspections are not repeated. */
  method VerifyCapture(now: Root, expected: Capture) returns (ok: bool)
    ensures ok <==> expected.artifacts != map[] && Unchanged(now, expected)
  {
    if expected.artifacts == map[] {
      return false;
    }
    var rest := expected.artifacts.Keys;
    while rest != {}
      invariant rest <= expected.artifacts.Keys
      invariant forall p | p in expected.artifacts && p !in rest :: SameFile(now, expected, p)
    {
      var p :| p in rest;
      if p !in now.files || now.files[p] != expected.artifacts[p].file {
        return false;
      }
      rest := rest - {p};
    }
    if now.cache != Some(expected.cache) {
      return false;
    }
    if expected.database.None? {
      if now.database.Some? {
        return false;
      }
    } else if now.database.None? || now.database != expected.database {
      return false;
    }
    var tools := expected.tools.Keys;
    while tools != {}
      invariant tools <= expected.tools.Keys
      invariant forall t | t in expected.tools && t !in tools :: t in now.tools && now.tools[t] == expected.tools[t]
    {
      var t :| t in tools;
      if t !in now.tools || now.tools[t] != expected.tools[t] {
        return false;
      }
      tools := tools - {t};
    }
    return true;
  }

  predicate SameFile(now: Root, c: Capture, p: Path)
    requires p in c.artifacts
  {
    p in now.files && now.files[p] == c.artifacts[p].file
  }

  /** What verification compares is as it was captured. */
  ghost predicate Unchanged(now: Root, c: Capture) {
    && (forall p | p in c.artifacts :: SameFile(now, c, p))
    && now.cache == Some(c.cache) && now.database == c.database
    && (forall t | t in c.tools :: t in now.tools && now.tools[t] == c.tools[t])
  }

  /** A capture verifies against another state of the root exactly when every output, every reachable
      dependency, the CMake cache, the compile database and the inspecting tools are as they were. */
  lemma VerifiesIffUnchanged(root: Root, targets: seq<Target>, c: Capture, now: Root)
    requires Exact(root, targets, c)
    ensures Unchanged(root, c)
    ensures Unchanged(now, c) <==>
      && (forall p | Reachable(root, targets, p) :: p in root.files && p in now.files && now.files[p] == root.files[p])
      && now.cache == root.cache && now.database == root.database
      && (forall t | t in INSPECTORS :: t in root.tools && t in now.tools && now.tools[t] == root.tools[t])
  {
  }
}
