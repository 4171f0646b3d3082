/** Exporting the bundle of a finalized run. */
module BundleExport {
  import opened Outcomes
  import opened Checksums
  import opened PortableModel
  import opened RunModel
  import opened BundleModel
  import opened Bundles

  type Files = map<RunPath, File>

  /** The record directory `files` stores the finalized tree `t`: every file under its path, the
      checksums over all of them, and the record manifest over those and the checksums. */
  ghost predicate Stores(files: Files, t: Tree, run: RunId, n: nat) {
    && FinalRecord(t, run, n) && Readable(t, n)
    && RunJson in files && files[RunJson].DescriptorFile? && files[RunJson].descriptor == t.descriptor
    && StatusJson in files && files[StatusJson].StatusFile? && files[StatusJson].status == t.status.value
    && InputYaml in files && files[InputYaml] == RawFile(t.input)
    && ResolvedYaml in files && files[ResolvedYaml] == RawFile(t.resolved)
    && StoresEvents(files, t) && StoresPortable(files, t) && StoresEvidence(files, t)
    && ChecksumsPath in files && files[ChecksumsPath].ChecksumFile?
    && files[ChecksumsPath].digests == files - {ChecksumsPath, RecordManifestPath}
    && StoresManifest(files)
  }

  ghost predicate StoresEvents(files: Files, t: Tree) {
    && (forall k: nat :: EventPath(k) in files <==> k in t.events)
    && (forall k | k in t.events :: files[EventPath(k)].EventFile? && files[EventPath(k)].event == t.events[k])
  }

  ghost predicate StoresPortable(files: Files, t: Tree) {
    && (forall k: nat :: EntryPath(k) in files <==> k in t.portable.entries)
    && (forall k | k in t.portable.entries :: files[EntryPath(k)].EntryFile? && files[EntryPath(k)].entry == t.portable.entries[k])
    && (forall b :: BlobPath(b) in files <==> b in t.portable.blobs)
    && (forall b | b in t.portable.blobs :: files[BlobPath(b)] == RawFile(b))
  }

  ghost predicate StoresEvidence(files: Files, t: Tree) {
    && (forall f :: EvidencePath(f) in files <==> f in t.files)
    && (forall f | f in t.files :: files[EvidencePath(f)] == RawFile(t.files[f]))
  }

  ghost predicate StoresManifest(files: Files) {
    && RecordManifestPath in files && files[RecordManifestPath].ManifestFile? && files[RecordManifestPath].form.id == 0
    && var entries := files[RecordManifestPath].entries;
    && DistinctEntries(entries) && RecordPaths(entries) == files.Keys - {RecordManifestPath}
    && forall i | 0 <= i < |entries| ::
         entries[i].path in files && entries[i].digest == files[entries[i].path] && entries[i].size == Size(files[entries[i].path]) && !entries[i].executable
  }

  /** The paths of a tree's payload. */
  function PayloadPaths(t: Tree): set<RunPath> {
    {RunJson, StatusJson, InputYaml, ResolvedYaml}
    + (set k | k in t.events :: EventPath(k)) + (set k | k in t.portable.entries :: EntryPath(k))
    + (set b | b in t.portable.blobs :: BlobPath(b)) + (set f | f in t.files :: EvidencePath(f))
  }

  /** The file of a payload path. */
  function FileAt(t: Tree, p: RunPath, size: RunPath -> nat): File
    requires t.status.Some? && p in PayloadPaths(t)
  {
    match p
    case RunJson => DescriptorFile(Form(0, size(p)), t.descriptor)
    case StatusJson => StatusFile(Form(0, size(p)), t.status.value)
    case InputYaml => RawFile(t.input)
    case ResolvedYaml => RawFile(t.resolved)
    case EventPath(k) => EventFile(Form(0, size(p)), t.events[k])
    case EntryPath(k) => EntryFile(Form(0, size(p)), t.portable.entries[k])
    case BlobPath(b) => RawFile(b)
    case EvidencePath(f) => RawFile(t.files[f])
  }

  function PayloadFiles(t: Tree, size: RunPath -> nat): Files
    requires t.status.Some?
  {
    map p | p in PayloadPaths(t) :: FileAt(t, p, size)
  }

  /** Every finalized tree can be stored, whatever its files encode to. */
  lemma Storable(t: Tree, run: RunId, n: nat, size: RunPath -> nat) returns (files: Files)
    requires FinalRecord(t, run, n) && Readable(t, n)
    ensures Stores(files, t, run, n) && forall p | p in files && !files[p].RawFile? :: Size(files[p]) == size(p)
  {
    hide FinalRecord, Readable, PayloadFiles, StoresEvents, StoresPortable, StoresEvidence, StoresManifest;
    RecordOutcome(t, run, n);
    var payload := PayloadFiles(t, size);
    PayloadMeans(t, size);
    var summed := payload[ChecksumsPath := ChecksumFile(Form(0, size(ChecksumsPath)), payload)];
    var entries := ListFiles(summed);
    files := summed[RecordManifestPath := ManifestFile(Form(0, size(RecordManifestPath)), entries)];
    assert files - {ChecksumsPath, RecordManifestPath} == payload;
    ManifestStored(summed, entries, files);
    SameEventsStored(payload, files, t);
    SamePortableStored(payload, files, t);
    SameEvidenceStored(payload, files, t);
    PayloadSizes(t, size);
  }

  lemma PayloadSizes(t: Tree, size: RunPath -> nat)
    requires t.status.Some?
    ensures var files := PayloadFiles(t, size); forall p | p in files && !files[p].RawFile? :: Size(files[p]) == size(p)
  {
    hide PayloadPaths;
  }

  lemma ManifestStored(summed: Files, entries: seq<RecordEntry>, files: Files)
    requires RecordManifestPath !in summed && DistinctEntries(entries) && RecordPaths(entries) == summed.Keys
    requires forall i | 0 <= i < |entries| ::
      entries[i].path in summed && entries[i].digest == summed[entries[i].path] && entries[i].size == Size(summed[entries[i].path]) && !entries[i].executable
    requires files.Keys == summed.Keys + {RecordManifestPath} && (forall p | p in summed :: files[p] == summed[p])
    requires files[RecordManifestPath].ManifestFile? && files[RecordManifestPath].form.id == 0 && files[RecordManifestPath].entries == entries
    ensures StoresManifest(files)
  {
    assert files.Keys - {RecordManifestPath} == summed.Keys;
  }

  lemma SameEventsStored(a: Files, b: Files, t: Tree)
    requires StoresEvents(a, t) && forall p: RunPath | p.EventPath? :: (p in a <==> p in b) && (p in a ==> b[p] == a[p])
    ensures StoresEvents(b, t)
  {
    forall k: nat
      ensures EventPath(k) in b <==> k in t.events
    {
      assert EventPath(k).EventPath?;
    }
  }

  lemma SamePortableStored(a: Files, b: Files, t: Tree)
    requires StoresPortable(a, t)
    requires forall p: RunPath | p.EntryPath? || p.BlobPath? :: (p in a <==> p in b) && (p in a ==> b[p] == a[p])
    ensures StoresPortable(b, t)
  {
    forall k: nat
      ensures EntryPath(k) in b <==> k in t.portable.entries
    {
      assert EntryPath(k).EntryPath?;
    }
    forall n
      ensures BlobPath(n) in b <==> n in t.portable.blobs
    {
      assert BlobPath(n).BlobPath?;
    }
  }

  lemma SameEvidenceStored(a: Files, b: Files, t: Tree)
    requires StoresEvidence(a, t) && forall p: RunPath | p.EvidencePath? :: (p in a <==> p in b) && (p in a ==> b[p] == a[p])
    ensures StoresEvidence(b, t)
  {
    forall f
      ensures EvidencePath(f) in b <==> f in t.files
    {
      assert EvidencePath(f).EvidencePath?;
    }
  }

  predicate InPayload(t: Tree, p: RunPath) {
    match p
    case RunJson | StatusJson | InputYaml | ResolvedYaml => true
    case EventPath(k) => k in t.events
    case EntryPath(k) => k in t.portable.entries
    case BlobPath(b) => b in t.portable.blobs
    case EvidencePath(f) => f in t.files
    case _ => false
  }

  lemma PayloadPathsMean(t: Tree, p: RunPath)
    ensures p in PayloadPaths(t) <==> InPayload(t, p)
  {
    match p
    case EventPath(k) =>
    case EntryPath(k) =>
    case BlobPath(b) =>
    case EvidencePath(f) =>
    case _ =>
  }

  lemma PayloadAt(t: Tree, p: RunPath, size: RunPath -> nat)
    requires t.status.Some?
    ensures p in PayloadFiles(t, size) <==> InPayload(t, p)
    ensures InPayload(t, p) ==> p in PayloadPaths(t) && PayloadFiles(t, size)[p] == FileAt(t, p, size)
  {
    PayloadPathsMean(t, p);
    hide PayloadPaths, InPayload;
  }

  lemma PayloadMeans(t: Tree, size: RunPath -> nat)
    requires t.status.Some?
    ensures var files := PayloadFiles(t, size);
      && RecordManifestPath !in files && ChecksumsPath !in files
      && RunJson in files && files[RunJson].DescriptorFile? && files[RunJson].descriptor == t.descriptor
      && StatusJson in files && files[StatusJson].StatusFile? && files[StatusJson].status == t.status.value
      && InputYaml in files && files[InputYaml] == RawFile(t.input)
      && ResolvedYaml in files && files[ResolvedYaml] == RawFile(t.resolved)
      && StoresEvents(files, t) && StoresPortable(files, t) && StoresEvidence(files, t)
  {
    hide PayloadPaths, PayloadFiles, StoresEvents, StoresPortable, StoresEvidence;
    PayloadAt(t, RecordManifestPath, size);
    PayloadAt(t, ChecksumsPath, size);
    PayloadAt(t, RunJson, size);
    PayloadAt(t, StatusJson, size);
    PayloadAt(t, InputYaml, size);
    PayloadAt(t, ResolvedYaml, size);
    PayloadEvents(t, size);
    PayloadPortable(t, size);
    PayloadEvidence(t, size);
  }

  lemma PayloadEvidence(t: Tree, size: RunPath -> nat)
    requires t.status.Some?
    ensures StoresEvidence(PayloadFiles(t, size), t)
  {
    hide PayloadPaths, PayloadFiles;
    forall f
      ensures EvidencePath(f) in PayloadFiles(t, size) <==> f in t.files
      ensures f in t.files ==> PayloadFiles(t, size)[EvidencePath(f)] == RawFile(t.files[f])
    {
      PayloadAt(t, EvidencePath(f), size);
    }
  }

  lemma PayloadEvents(t: Tree, size: RunPath -> nat)
    requires t.status.Some?
    ensures StoresEvents(PayloadFiles(t, size), t)
  {
    hide PayloadPaths, PayloadFiles;
    forall k: nat
      ensures EventPath(k) in PayloadFiles(t, size) <==> k in t.events
      ensures k in t.events ==>
        var f := PayloadFiles(t, size)[EventPath(k)]; f.EventFile? && f.event == t.events[k]
    {
      PayloadAt(t, EventPath(k), size);
    }
  }

  lemma PayloadPortable(t: Tree, size: RunPath -> nat)
    requires t.status.Some?
    ensures StoresPortable(PayloadFiles(t, size), t)
  {
    hide PayloadPaths, PayloadFiles;
    forall k: nat
      ensures EntryPath(k) in PayloadFiles(t, size) <==> k in t.portable.entries
      ensures k in t.portable.entries ==>
        var f := PayloadFiles(t, size)[EntryPath(k)]; f.EntryFile? && f.entry == t.portable.entries[k]
    {
      PayloadAt(t, EntryPath(k), size);
    }
    forall b
      ensures BlobPath(b) in PayloadFiles(t, size) <==> b in t.portable.blobs
      ensures b in t.portable.blobs ==> PayloadFiles(t, size)[BlobPath(b)] == RawFile(b)
    {
      PayloadAt(t, BlobPath(b), size);
    }
  }

  /** List files as record entries, each once. */
  lemma ListFiles(files: Files) returns (entries: seq<RecordEntry>)
    ensures DistinctEntries(entries) && RecordPaths(entries) == files.Keys
    ensures forall i | 0 <= i < |entries| ::
      entries[i].path in files && entries[i].digest == files[entries[i].path] && entries[i].size == Size(files[entries[i].path]) && !entries[i].executable
    decreases files.Keys
  {
    if files == map[] {
      return [];
    }
    var p :| p in files;
    var rest := ListFiles(files - {p});
    entries := rest + [RecordEntry(p, files[p], Size(files[p]), false)];
    forall q | q in files
      ensures q in RecordPaths(entries)
    {
      if q == p {
        assert entries[|rest|].path == q;
      } else {
        assert q in RecordPaths(rest);
        var i :| 0 <= i < |rest| && rest[i].path == q;
        assert entries[i].path == q;
      }
    }
  }

  /** The allowlisted files: everything but local evidence. */
  function Exportable(files: Files): Contents {
    map p | p in files && !p.EvidencePath? :: InRun(p) := files[p]
  }

  /** The limits under which members are collected; the bundle manifest only counts as one file. */
  ghost predicate Collectable(files: Files) {
    && |Exportable(files)| + 1 <= MAX_TOTAL_FILES && SumSizes(Exportable(files)) <= MAX_AGGREGATE_BYTES
    && forall p | p in Exportable(files) :: Size(Exportable(files)[p]) <= MAX_MEMBER_BYTES
  }

  /** A member is declared with the media type of its class. */
  predicate MediaOk(member: Member, entries: map<nat, Entry>) {
    && member.path.InRun?
    && match member.path.path
       case BlobPath(name) => exists k | k in entries :: entries[k].blob == name && entries[k].media == member.media
       case EntryPath(_) | EventPath(_) => member.media == JSON
       case p => Some(member.media) == ControlMedia(p)
  }

  /** What has been collected so far: each member once, as the record has it. */
  ghost predicate Collected(members: seq<Member>, c: Contents, files: Files, entries: map<nat, Entry>) {
    && DistinctMembers(members) && c.Keys == DeclaredPaths(members) && Part(c, Exportable(files))
    && (forall i | 0 <= i < |members| :: MemberMatches(members[i], c) && MediaOk(members[i], entries) && Size(members[i].digest) <= MAX_MEMBER_BYTES)
  }

  const CONTROLS := [RecordManifestPath, RunJson, StatusJson, InputYaml, ResolvedYaml, ChecksumsPath]

  /** The event numbers among the files. */
  function EventsIn(files: Files): set<nat> {
    set p | p in files && p.EventPath? :: p.sequence
  }

  function EntriesIn(files: Files): set<nat> {
    set p | p in files && p.EntryPath? :: p.sequence
  }

  /** Collects the members of the bundle of one finalized record. */
  class Collector {
    const files: Files
    ghost const tree: Tree
    ghost const run: RunId
    ghost const n: nat
    var members: seq<Member>
    var contents: Contents

    constructor (files: Files, ghost tree: Tree, ghost run: RunId, ghost n: nat)
      requires Stores(files, tree, run, n)
      ensures this.files == files && this.tree == tree && this.run == run && this.n == n && Valid() && contents == map[]
    {
      this.files := files;
      this.tree := tree;
      this.run := run;
      this.n := n;
      members := [];
      contents := map[];
    }

    ghost predicate Valid()
      reads this
    {
      Stores(files, tree, run, n) && Collected(members, contents, files, tree.portable.entries)
    }

    /** Add one file under its path, if it is within the member limit. */
    method Add(p: RunPath, media: string) returns (ok: bool)
      requires Valid() && p in files && !p.EvidencePath? && InRun(p) !in contents
      requires MediaOk(Member(InRun(p), files[p], Size(files[p]), media), tree.portable.entries)
      modifies this
      ensures Valid() && (ok <==> Size(files[p]) <= MAX_MEMBER_BYTES) && (!ok ==> !Collectable(files))
      ensures contents == if ok then old(contents)[InRun(p) := files[p]] else old(contents)
    {
      hide Stores, MediaOk, Collectable;
      var file := files[p];
      if Size(file) > MAX_MEMBER_BYTES {
        TooBig(files, p);
        return false;
      }
      var member := Member(InRun(p), file, Size(file), media);
      CollectedGrows(members, contents, files, member, tree.portable.entries);
      hide Collected;
      members := members + [member];
      contents := contents[InRun(p) := file];
      return true;
    }

    lemma ControlFacts()
      requires Valid()
      ensures forall p | IsControl(p) :: p in files
    {
    }

    /** Collect the control files. */
    method CollectControls() returns (ok: bool)
      requires Valid() && contents == map[]
      modifies this
      ensures Valid() && (!ok ==> !Collectable(files))
      ensures ok ==> forall p :: p in contents <==> p.InRun? && IsControl(p.path)
    {
      hide Stores, Collected, Collectable;
      ControlFacts();
      for i := 0 to |CONTROLS|
        invariant Valid()
        invariant forall p :: p in contents <==> p.InRun? && p.path in CONTROLS[..i]
      {
        var p := CONTROLS[i];
        ok := Add(p, ControlMedia(p).value);
        if !ok {
          return false;
        }
        assert CONTROLS[..i + 1] == CONTROLS[..i] + [p];
      }
      assert CONTROLS[..|CONTROLS|] == CONTROLS;
      return true;
    }

    lemma EventFacts()
      requires Valid()
      ensures EventsIn(files) == Range(|EventsIn(files)|)
      ensures forall k: nat :: EventPath(k) in files <==> k in EventsIn(files)
    {
      EventNumbersStored(files, tree);
      RecordRanges(tree, run, n);
    }

    /** Collect the event chain, which must be contiguous. */
    method CollectEvents() returns (ok: bool)
      requires Valid() && forall p | p in contents :: p.InRun? && IsControl(p.path)
      modifies this
      ensures Valid() && (!ok ==> !Collectable(files))
      ensures ok ==> forall p :: p in contents <==> p in old(contents) || (p.InRun? && p.path.EventPath? && p.path in files)
    {
      hide Stores, Collected, Collectable;
      ghost var before := contents;
      EventFacts();
      var numbers := EventsIn(files);
      hide EventsIn;
      if numbers != Range(|numbers|) {
        assert false;
      }
      for k := 1 to |numbers| + 1
        invariant Valid()
        invariant forall p :: p in contents <==> p in before || (p.InRun? && p.path.EventPath? && 1 <= p.path.sequence < k)
      {
        assert k in numbers;
        ok := Add(EventPath(k), JSON);
        if !ok {
          return false;
        }
      }
      return true;
    }

    lemma EntryFacts()
      requires Valid()
      ensures EntriesIn(files) == Range(|EntriesIn(files)|) == tree.portable.entries.Keys && |EntriesIn(files)| <= MAX_ENTRIES
      ensures forall k: nat :: EntryPath(k) in files <==> k in EntriesIn(files)
      ensures DistinctPaths(tree.portable.entries) && SingleMedia(tree.portable.entries)
    {
      EntryNumbersStored(files, tree);
      RecordRanges(tree, run, n);
      EntriesSound(tree, run, n);
      hide FinalRecord;
    }

    lemma EntryFact(k: nat)
      requires Valid() && EntryPath(k) in files
      ensures k in tree.portable.entries && EntryPolicy(tree.portable.entries[k], k)
      ensures files[EntryPath(k)].EntryFile? && files[EntryPath(k)].entry == tree.portable.entries[k]
    {
      EntriesSound(tree, run, n);
      hide FinalRecord;
    }

    /** Collect one portable entry, revalidating it. */
    method CollectEntry(k: nat) returns (ok: bool, entry: Entry)
      requires Valid() && EntryPath(k) in files && InRun(EntryPath(k)) !in contents
      modifies this
      ensures Valid() && (!ok ==> !Collectable(files)) && k in tree.portable.entries && entry == tree.portable.entries[k]
      ensures ok ==> contents == old(contents)[InRun(EntryPath(k)) := files[EntryPath(k)]]
    {
      hide Stores, Collected, Collectable, EntryPolicy;
      EntryFact(k);
      var file := files[EntryPath(k)];
      if !file.EntryFile? || !EntryPolicy(file.entry, k) {
        assert false;
      }
      ok := Add(EntryPath(k), JSON);
      return ok, file.entry;
    }

    /** Collect the portable entries in order. */
    method CollectEntries() returns (ok: bool, entries: map<nat, Entry>)
      requires Valid() && forall p | p in contents :: p.InRun? && (IsControl(p.path) || p.path.EventPath?)
      modifies this
      ensures Valid() && (!ok ==> !Collectable(files))
      ensures ok ==> entries == tree.portable.entries
      ensures ok ==> forall p :: p in contents <==> p in old(contents) || (p.InRun? && p.path.EntryPath? && p.path in files)
    {
      hide Stores, Collected, Collectable, DistinctPaths, SingleMedia, SameBelow, EntriesIn, Range;
      EntryFacts();
      var numbers := EntriesIn(files);
      ok, entries := CollectNumbered(|numbers|);
      if !ok {
        return false, entries;
      }
      SameAll(entries, tree.portable.entries, |numbers|);
      if !DistinctPaths(entries) || !SingleMedia(entries) || |numbers| > MAX_ENTRIES {
        assert false;
      }
      return true, entries;
    }

    /** Collect the entries numbered 1 to count. */
    method CollectNumbered(count: nat) returns (ok: bool, entries: map<nat, Entry>)
      requires Valid() && forall p | p in contents :: p.InRun? && !p.path.EntryPath?
      requires forall k: nat :: EntryPath(k) in files <==> 1 <= k <= count
      modifies this
      ensures Valid() && (!ok ==> !Collectable(files))
      ensures ok ==> SameBelow(entries, tree.portable.entries, count + 1)
      ensures ok ==> forall p :: p in contents <==> p in old(contents) || (p.InRun? && p.path.EntryPath? && p.path in files)
    {
      hide Stores, Collected, Collectable, SameBelow;
      ghost var before := contents;
      BelowNothing();
      entries := map[];
      for k := 1 to count + 1
        invariant Valid() && SameBelow(entries, tree.portable.entries, k)
        invariant forall p :: p in contents <==> p in before || (p.InRun? && p.path.EntryPath? && 1 <= p.path.sequence < k)
      {
        var added, entry := CollectEntry(k);
        if !added {
          return false, entries;
        }
        SameOneMore(entries, tree.portable.entries, k);
        entries := entries[k := entry];
      }
      return true, entries;
    }

    lemma BelowNothing()
      requires Valid()
      ensures SameBelow(map[], tree.portable.entries, 1)
    {
      RecordRanges(tree, run, n);
    }

    lemma BlobFacts()
      requires Valid()
      ensures forall b :: BlobPath(b) in files <==> b in Referenced(tree.portable.entries)
      ensures forall b | b in Referenced(tree.portable.entries) :: files[BlobPath(b)] == RawFile(b)
      ensures forall k | k in tree.portable.entries :: tree.portable.entries[k].size == |tree.portable.entries[k].blob|
    {
      EntriesSound(tree, run, n);
      hide FinalRecord;
    }

    /** Collect every referenced blob, checking its address and size again. */
    method CollectBlobs(entries: map<nat, Entry>) returns (ok: bool)
      requires Valid() && entries == tree.portable.entries && forall p | p in contents :: p.InRun? && !p.path.BlobPath?
      modifies this
      ensures Valid() && (!ok ==> !Collectable(files))
      ensures ok ==> forall p :: p in contents <==> p in old(contents) || (p.InRun? && p.path.BlobPath? && p.path in files)
    {
      hide Stores, Collected, Collectable;
      ghost var before := contents;
      BlobFacts();
      var rest := Referenced(entries);
      while rest != {}
        invariant Valid() && rest <= Referenced(entries)
        invariant forall p :: p in contents <==> p in before || (p.InRun? && p.path.BlobPath? && p.path.name in Referenced(entries) - rest)
      {
        var b :| b in rest;
        var k :| k in entries && entries[k].blob == b;
        if BlobPath(b) !in files || files[BlobPath(b)] != RawFile(b) || Size(files[BlobPath(b)]) != entries[k].size {
          assert false;
        }
        ok := Add(BlobPath(b), entries[k].media);
        if !ok {
          return false;
        }
        rest := rest - {b};
      }
      return true;
    }

    lemma AllCollected()
      requires Valid() && forall p :: p in contents <==> p.InRun? && p.path in files && !p.path.EvidencePath?
      ensures contents == Exportable(files)
    {
      hide Stores;
      assert contents.Keys == Exportable(files).Keys;
    }

    lemma SizesChecked()
      requires Valid()
      ensures DistinctMembers(members) && contents.Keys == DeclaredPaths(members)
      ensures forall i | 0 <= i < |members| :: MemberMatches(members[i], contents)
      ensures contents == Exportable(files) ==> forall p | p in Exportable(files) :: Size(Exportable(files)[p]) <= MAX_MEMBER_BYTES
    {
      hide Stores, Exportable, MediaOk;
      forall p | p in contents
        ensures Size(contents[p]) <= MAX_MEMBER_BYTES
      {
        var i :| 0 <= i < |members| && members[i].path == p;
        assert MemberMatches(members[i], contents);
      }
    }

    /** Collect every allowlisted file, within the limits. */
    method CollectMembers() returns (ok: bool)
      requires Valid() && contents == map[]
      modifies this
      ensures Valid() && (ok <==> Collectable(files))
      ensures ok ==> contents == Exportable(files)
    {
      hide Stores, Collected, Exportable;
      var controls := CollectControls();
      if !controls {
        return false;
      }
      var events := CollectEvents();
      if !events {
        return false;
      }
      var some, entries := CollectEntries();
      if !some {
        return false;
      }
      var blobs := CollectBlobs(entries);
      if !blobs {
        return false;
      }
      ControlFacts();
      AllCollected();
      SizesChecked();
      var matched, aggregate := CheckSizes(members, contents);
      return matched && |contents| + 1 <= MAX_TOTAL_FILES && aggregate <= MAX_AGGREGATE_BYTES;
    }

    /** The manifest a finalized record's bundle gets. */
    ghost predicate Describes(m: BundleManifest)
      reads this
      requires RecordManifestPath in files && tree.status.Some?
    {
      m.run == run && m.record == files[RecordManifestPath] && m.members == members && Some(m.outcome) == tree.status.value.outcome
    }

    lemma ManifestStored()
      requires Valid()
      ensures RecordManifestPath in files && tree.status.Some? && tree.status.value.outcome.Some?
    {
      RecordOutcome(tree, run, n);
    }

    /** Everything collected from a finalized record is an acceptable bundle. */
    lemma Complete(m: BundleManifest)
      requires Valid() && contents == Exportable(files) && SumSizes(contents) <= MAX_AGGREGATE_BYTES
      requires RecordManifestPath in files && tree.status.Some? && Describes(m)
      ensures Accepted(m, contents)
    {
      hide SumSizes, Stores, Collected, Exportable, MembersMatch, ManifestBound, RunBound, EventsBound, ChecksumsBound, EntriesBound, BlobsBound, MemberBound;
      SizesChecked();
      ControlsBound(m);
      PortableBound();
      var digests, entries := files[ChecksumsPath].digests, tree.portable.entries;
      forall i | 0 <= i < |members|
        ensures MemberBound(members[i], m.record.entries, digests, entries)
      {
        MemberExported(i);
      }
      SameMembers(m);
      assert AcceptedWith(m, contents, digests, entries);
    }

    lemma ChecksumsAreDeclarable()
      requires Valid()
      ensures Declarable(files)
    {
      hide FinalRecord, Readable, StoresEvents, StoresPortable, StoresEvidence, StoresManifest, Collected, Declarable;
      EvidenceDeclarable(files, tree, run, n);
    }

    lemma ControlsBound(m: BundleManifest)
      requires Valid() && RecordManifestPath in files && tree.status.Some? && Describes(m)
      ensures ManifestBound(m, Exportable(files)) && RunBound(m, Exportable(files))
      ensures ChecksumsPath in files && files[ChecksumsPath].ChecksumFile? && m.record.ManifestFile?
      ensures ChecksumsParsed(Exportable(files), files[ChecksumsPath].digests)
      ensures ChecksumsBound(m.record.entries, files[ChecksumsPath].digests)
      ensures EventsBound(Exportable(files), Exportable(files)[InRun(StatusJson)].status)
    {
      RecordFacts();
      hide FinalRecord, StoresEvents, StoresPortable, StoresManifest, Collected, EventsBound, ManifestBound, ChecksumsParsed, ChecksumsBound;
      ManifestExported(files, m);
      RunExported(files, tree, run, n, m);
      EventsExported(files, tree, run, n);
      ChecksumsAreDeclarable();
      ChecksumsExported(files);
    }

    lemma PortableBound()
      requires Valid()
      ensures EntriesBound(Exportable(files), tree.portable.entries) && BlobsBound(Exportable(files), tree.portable.entries)
    {
      hide FinalRecord, StoresPortable, Collected, EntriesBound, BlobsBound;
      PortableExported(files, tree, run, n);
    }

    lemma SameMembers(m: BundleManifest)
      requires Valid() && m.members == members && contents == Exportable(files)
      ensures MembersMatch(m, contents)
    {
      hide Stores, Collected;
      SizesChecked();
      ExportedAt(files);
    }

    lemma MemberShape(i: nat)
      requires Valid() && i < |members| && contents == Exportable(files)
      ensures var member := members[i];
        && MediaOk(member, tree.portable.entries) && member.path.InRun? && member.path.path in files
        && member.digest == files[member.path.path] && member.size == Size(member.digest)
    {
      hide Stores, MediaOk, Exportable;
      var member := members[i];
      assert MemberMatches(member, contents) && MediaOk(member, tree.portable.entries);
      ExportedAt(files);
      MediaInRun(member, tree.portable.entries);
    }

    lemma RecordFacts()
      requires Valid()
      ensures StoresManifest(files) && RecordManifestPath in files && files[RecordManifestPath].ManifestFile?
      ensures ChecksumsPath in files && files[ChecksumsPath].ChecksumFile?
      ensures files[ChecksumsPath].digests == files - {ChecksumsPath, RecordManifestPath}
    {
    }

    lemma MemberExported(i: nat)
      requires Valid() && i < |members| && contents == Exportable(files)
      ensures RecordManifestPath in files && files[RecordManifestPath].ManifestFile?
      ensures ChecksumsPath in files && files[ChecksumsPath].ChecksumFile?
      ensures MemberBound(members[i], files[RecordManifestPath].entries, files[ChecksumsPath].digests, tree.portable.entries)
    {
      hide Stores, Collected, Exportable, MediaOk, Classified;
      MemberShape(i);
      RecordFacts();
      BlobFacts();
      var member := members[i];
      var p := member.path.path;
      if p != RecordManifestPath {
        var entries := files[RecordManifestPath].entries;
        assert p in RecordPaths(entries);
        ReferencedSize(tree.portable.entries, p, member);
      }
    }

    /** Export the bundle of the finalized run, whose manifest encodes in `encoded` bytes. A bundle
        is published exactly when its members fit the limits, and the published directory verifies
        exactly when its own manifest still fits them too. */
    method Export(inspection: Index, encoded: nat) returns (r: Option<Contents>)
      requires Valid() && contents == map[] && Inspected(inspection)
      modifies this
      ensures r.Some? <==> Collectable(files)
      ensures r.Some? ==> BundleJson in r.value && r.value - {BundleJson} == Exportable(files)
      ensures r.Some? ==>
        (BundleOk(r.value) <==> encoded <= MAX_MEMBER_BYTES && SumSizes(Exportable(files)) + encoded <= MAX_AGGREGATE_BYTES)
      ensures r.Some? ==>
        && RecordManifestPath in files && r.value[BundleJson].BundleFile? && r.value[BundleJson].form == Form(0, encoded)
        && r.value[BundleJson].manifest.record == files[RecordManifestPath]
        && r.value[BundleJson].manifest.run == inspection.run && r.value[BundleJson].manifest.outcome == inspection.outcome
        && Accepted(r.value[BundleJson].manifest, Exportable(files))
    {
      hide Stores, Collected, Accepted, SumSizes, Exportable, BundleOk, Collectable;
      var ok := CollectMembers();
      if !ok {
        return None;
      }
      ManifestStored();
      InspectionSays(inspection);
      LimitsKept();
      var manifest := BundleManifest(inspection.run, files[RecordManifestPath], inspection.outcome, members);
      Complete(manifest);
      var verified := VerifySnapshot(manifest, contents);
      if !verified {
        assert false;
      }
      PublishedVerifies(contents, files, manifest, encoded);
      return Some(contents[BundleJson := BundleFile(Form(0, encoded), manifest)]);
    }

    /** The inspection is that of the finalized run. */
    ghost predicate Inspected(inspection: Index)
      reads this
      requires Valid()
    {
      inspection == IndexOf(tree, tree.events[n])
    }

    lemma InspectionSays(inspection: Index)
      requires Valid() && Inspected(inspection)
      ensures inspection.run == run && tree.status.Some? && Some(inspection.outcome) == tree.status.value.outcome
    {
      IndexSays(tree, run, n);
    }

    lemma LimitsKept()
      requires Valid() && contents == Exportable(files) && Collectable(files)
      ensures SumSizes(contents) <= MAX_AGGREGATE_BYTES
    {
    }
  }

  lemma CollectedGrows(members: seq<Member>, c: Contents, files: Files, member: Member, entries: map<nat, Entry>)
    requires Collected(members, c, files, entries) && member.path !in c
    requires member.path in Exportable(files) && member.digest == Exportable(files)[member.path]
    requires member.size == Size(member.digest) <= MAX_MEMBER_BYTES && MediaOk(member, entries)
    ensures Collected(members + [member], c[member.path := member.digest], files, entries)
  {
    hide MediaOk, Exportable, Part, DeclaredPaths, DistinctMembers;
    var more, d := members + [member], c[member.path := member.digest];
    assert more[..|members|] == members && more[..|members| + 1] == more;
    DeclaredGrows(more, |members|);
    StillPart(c, Exportable(files), member.path);
    DistinctGrows(members, c, member);
    assert d.Keys == c.Keys + {member.path};
    forall i | 0 <= i < |more|
      ensures MemberMatches(more[i], d) && MediaOk(more[i], entries) && Size(more[i].digest) <= MAX_MEMBER_BYTES
    {
      if i < |members| {
        assert MemberMatches(members[i], c);
      }
    }
  }

  /** The entries numbered below k have been read. */
  ghost predicate SameBelow(a: map<nat, Entry>, b: map<nat, Entry>, k: nat) {
    (forall j | j in a :: j in b && a[j] == b[j]) && (forall j | j in b && j < k :: j in a)
  }

  lemma SameOneMore(a: map<nat, Entry>, b: map<nat, Entry>, k: nat)
    requires SameBelow(a, b, k) && k in b
    ensures SameBelow(a[k := b[k]], b, k + 1)
  {
  }

  lemma SameAll(a: map<nat, Entry>, b: map<nat, Entry>, n: nat)
    requires SameBelow(a, b, n + 1) && b.Keys == Range(n)
    ensures a == b
  {
  }

  lemma DistinctGrows(members: seq<Member>, c: Contents, member: Member)
    requires DistinctMembers(members) && c.Keys == DeclaredPaths(members) && member.path !in c
    ensures DistinctMembers(members + [member])
  {
  }

  lemma TooBig(files: Files, p: RunPath)
    requires p in files && !p.EvidencePath? && Size(files[p]) > MAX_MEMBER_BYTES
    ensures !Collectable(files)
  {
    assert Exportable(files)[InRun(p)] == files[p];
  }

  lemma RecordRanges(t: Tree, run: RunId, n: nat)
    requires FinalRecord(t, run, n)
    ensures t.events.Keys == Range(|t.events.Keys|) && t.portable.entries.Keys == Range(|t.portable.entries.Keys|)
  {
    RangeOf(t.events.Keys, n);
    RangeOf(t.portable.entries.Keys, |t.portable.entries|);
  }

  lemma EventNumbersStored(files: Files, t: Tree)
    requires StoresEvents(files, t)
    ensures EventsIn(files) == t.events.Keys
  {
    forall k | k in t.events
      ensures k in EventsIn(files)
    {
      assert EventPath(k) in files && EventPath(k).sequence == k;
    }
  }

  lemma EntryNumbersStored(files: Files, t: Tree)
    requires StoresPortable(files, t)
    ensures EntriesIn(files) == t.portable.entries.Keys
  {
    forall k | k in t.portable.entries
      ensures k in EntriesIn(files)
    {
      assert EntryPath(k) in files && EntryPath(k).sequence == k;
    }
  }

  /** The portable store of a final record is reconciled and satisfies the policy. */
  lemma EntriesSound(t: Tree, run: RunId, n: nat)
    requires FinalRecord(t, run, n)
    ensures t.portable.blobs == Referenced(t.portable.entries) && PortableInv(t.portable)
    ensures forall k | k in t.portable.entries :: EntryPolicy(t.portable.entries[k], k) && t.portable.entries[k].size == |t.portable.entries[k].blob|
    ensures |t.portable.entries.Keys| <= MAX_ENTRIES && DistinctPaths(t.portable.entries) && SingleMedia(t.portable.entries)
  {
    hide RunRelative, TotalSize, Chain;
    assert forall k | k in t.portable.entries :: EntryOk(t.portable.entries[k], k, t.portable.blobs);
  }

  lemma RecordOutcome(t: Tree, run: RunId, n: nat)
    requires FinalRecord(t, run, n) && Readable(t, n)
    ensures t.status.Some? && t.status.value.outcome.Some? && t.status.value.state.Terminal? && t.status.value.run == run
    ensures t.descriptor.run == run && t.descriptor.input == t.input && t.descriptor.resolved == t.resolved
  {
    FinalVerifies(t, run, n);
  }

  /** A blob member's size is what its entry says. */
  lemma ReferencedSize(entries: map<nat, Entry>, p: RunPath, member: Member)
    requires forall k | k in entries :: entries[k].size == |entries[k].blob|
    requires MediaOk(member, entries) && member.path == InRun(p) && (p.BlobPath? ==> member.digest == RawFile(p.name) && member.size == |p.name|)
    ensures Classified(member, p, entries)
  {
  }

  /** The exported contents, path by path. */
  lemma ExportedAt(files: Files)
    ensures BundleJson !in Exportable(files)
    ensures forall p: RunPath :: InRun(p) in Exportable(files) <==> p in files && !p.EvidencePath?
    ensures forall p: RunPath | InRun(p) in Exportable(files) :: Exportable(files)[InRun(p)] == files[p]
  {
  }

  lemma MediaInRun(member: Member, entries: map<nat, Entry>)
    requires MediaOk(member, entries)
    ensures member.path.InRun?
  {
  }

  lemma ManifestExported(files: Files, m: BundleManifest)
    requires StoresManifest(files) && m.record == files[RecordManifestPath]
    ensures ManifestBound(m, Exportable(files))
  {
    ExportedAt(files);
    hide Exportable;
    assert InRun(RecordManifestPath) in Exportable(files);
  }

  lemma RunExported(files: Files, t: Tree, run: RunId, n: nat, m: BundleManifest)
    requires Stores(files, t, run, n) && m.run == run && t.status.Some? && Some(m.outcome) == t.status.value.outcome
    ensures RunBound(m, Exportable(files))
  {
    hide FinalRecord, StoresEvents, StoresPortable, StoresManifest, Exportable;
    RecordOutcome(t, run, n);
    ExportedAt(files);
    var c := Exportable(files);
    assert InRun(RunJson) in c && InRun(StatusJson) in c && InRun(InputYaml) in c && InRun(ResolvedYaml) in c;
  }

  lemma EventsExported(files: Files, t: Tree, run: RunId, n: nat)
    requires Stores(files, t, run, n)
    ensures InRun(StatusJson) in Exportable(files) && Exportable(files)[InRun(StatusJson)].StatusFile?
    ensures EventsBound(Exportable(files), Exportable(files)[InRun(StatusJson)].status)
  {
    hide FinalRecord, StoresEvents, StoresPortable, StoresManifest, Exportable, Verified;
    FinalVerifies(t, run, n);
    ExportedAt(files);
    assert InRun(StatusJson) in Exportable(files);
    VerifiedChain(t, run);
    EventsStored(files, t, t.status.value);
  }

  lemma VerifiedChain(t: Tree, run: RunId)
    requires Verified(t, run)
    ensures t.status.Some? && ChainVerified(t, t.status.value)
  {
  }

  lemma EventsStored(files: Files, t: Tree, status: Status)
    requires StoresEvents(files, t) && ChainVerified(t, status)
    ensures EventsBound(Exportable(files), status)
  {
    hide Exportable, StoresEvents, Chain, ChainMatches, IsEvent, ChainVerified;
    var c, m := Exportable(files), status.sequence;
    VerifiedRange(t, status);
    forall k: nat
      ensures InRun(EventPath(k)) in c <==> 1 <= k <= m
      ensures 1 <= k <= m ==> IsEvent(c, k)
    {
      EventStored(files, t, k);
    }
    EventsAt(c, m);
    forall k | 0 <= k < m
      ensures Events(c, m)[k] == t.events[k + 1]
    {
      EventStored(files, t, k + 1);
      assert IsEvent(c, k + 1) && Events(c, m)[k] == c[InRun(EventPath(k + 1))].event;
    }
    ChainMatchesMeans(t, Events(c, m), status);
  }

  lemma VerifiedRange(t: Tree, status: Status)
    requires ChainVerified(t, status)
    ensures t.eventTemps == [] && t.events.Keys == Range(status.sequence)
    ensures forall k :: k in t.events <==> 1 <= k <= status.sequence
  {
    hide Chain;
    assert forall k :: k in t.events <==> k in Range(status.sequence);
  }

  lemma EventStored(files: Files, t: Tree, k: nat)
    requires StoresEvents(files, t)
    ensures InRun(EventPath(k)) in Exportable(files) <==> k in t.events
    ensures k in t.events ==>
      && IsEvent(Exportable(files), k) && InRun(EventPath(k)) in Exportable(files)
      && Exportable(files)[InRun(EventPath(k))].EventFile? && Exportable(files)[InRun(EventPath(k))].event == t.events[k]
  {
    ExportedAt(files);
    hide Exportable;
    assert EventPath(k) in files <==> k in t.events;
  }

  lemma {:induction false} EventsAt(c: Contents, n: nat)
    requires forall k | 1 <= k <= n :: IsEvent(c, k)
    ensures forall k | 0 <= k < n :: IsEvent(c, k + 1) && Events(c, n)[k] == c[InRun(EventPath(k + 1))].event
  {
    if n > 0 {
      EventsAt(c, n - 1);
      assert IsEvent(c, n);
    }
  }

  lemma PortableExported(files: Files, t: Tree, run: RunId, n: nat)
    requires StoresPortable(files, t) && FinalRecord(t, run, n)
    ensures EntriesBound(Exportable(files), t.portable.entries) && BlobsBound(Exportable(files), t.portable.entries)
  {
    hide FinalRecord, EntryPolicy, DistinctPaths, SingleMedia, PortableInv, Exportable, Numbered, Referenced;
    EntriesSound(t, run, n);
    NumberedStored(t, run, n);
    ExportedAt(files);
    forall k: nat
      ensures k in t.portable.entries <==> InRun(EntryPath(k)) in Exportable(files)
    {
      assert EntryPath(k) in files <==> k in t.portable.entries;
    }
  }

  lemma NumberedStored(t: Tree, run: RunId, n: nat)
    requires FinalRecord(t, run, n)
    ensures Numbered(t.portable.entries) && |t.portable.entries| <= MAX_ENTRIES
  {
  }

  /** The evidence of a finalized run can be declared. */
  lemma EvidenceDeclarable(files: Files, t: Tree, run: RunId, n: nat)
    requires StoresEvidence(files, t) && FinalRecord(t, run, n) && Readable(t, n)
    ensures Declarable(files)
  {
    hide RunRelative, Unbroken;
    assert Listable(t);
    forall p | p in files && p.EvidencePath?
      ensures p.file in t.files
    {
      assert EvidencePath(p.file) == p;
    }
  }

  lemma ChecksumsExported(files: Files)
    requires StoresManifest(files) && ChecksumsPath in files && files[ChecksumsPath].ChecksumFile?
    requires files[ChecksumsPath].digests == files - {ChecksumsPath, RecordManifestPath} && Declarable(files)
    ensures ChecksumsParsed(Exportable(files), files[ChecksumsPath].digests)
    ensures ChecksumsBound(files[RecordManifestPath].entries, files[ChecksumsPath].digests)
  {
    assert InRun(ChecksumsPath) in Exportable(files);
    assert files[ChecksumsPath].digests.Keys == RecordPaths(files[RecordManifestPath].entries) - {ChecksumsPath};
  }

  lemma IndexSays(t: Tree, run: RunId, n: nat)
    requires FinalRecord(t, run, n)
    ensures var i := IndexOf(t, t.events[n]); i.run == run && t.status.Some? && Some(i.outcome) == t.status.value.outcome
  {
  }

  lemma PublishedVerifies(c: Contents, files: Files, m: BundleManifest, encoded: nat)
    requires c == Exportable(files) && Collectable(files) && Accepted(m, c)
    ensures var directory := c[BundleJson := BundleFile(Form(0, encoded), m)];
      && directory - {BundleJson} == c
      && (BundleOk(directory) <==> encoded <= MAX_MEMBER_BYTES && SumSizes(c) + encoded <= MAX_AGGREGATE_BYTES)
  {
    hide Accepted, SumSizes, Exportable, Walkable;
    ExportedAt(files);
    var file := BundleFile(Form(0, encoded), m);
    assert c[BundleJson := file] - {BundleJson} == c;
    WalkableWith(c, file);
  }

  lemma WalkableWith(c: Contents, file: File)
    requires BundleJson !in c && |c| + 1 <= MAX_TOTAL_FILES && forall p | p in c :: Size(c[p]) <= MAX_MEMBER_BYTES
    ensures Walkable(c[BundleJson := file]) <==> Size(file) <= MAX_MEMBER_BYTES && SumSizes(c) + Size(file) <= MAX_AGGREGATE_BYTES
  {
    hide SumSizes, Size;
    var directory := c[BundleJson := file];
    SumAdds(c, BundleJson, file);
    assert |directory| == |c| + 1 by { assert directory.Keys == c.Keys + {BundleJson}; }
    assert directory[BundleJson] == file;
    assert forall p | p in c :: directory[p] == c[p];
  }
}
