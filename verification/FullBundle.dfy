/** Finalized runs whose bundle is exported and then does not verify: portable blobs, as the run may
    write them, fill what the other members leave of the limit, and the bundle manifest counts too. */
module FullBundle {
  import opened Outcomes
  import opened Checksums
  import opened TempPaths
  import opened PortableModel
  import opened RunModel
  import opened BundleModel
  import opened BundleExport

  /** No structured file is larger than this. */
  const SMALL := 65536

  /** `n` times the same letter. */
  function Fill(c: char, n: nat): (s: string)
    ensures |s| == n && forall i | 0 <= i < n :: s[i] == c
  {
    seq(n, i => c)
  }

  // ------------------------------------------------- the portable store

  const LETTERS := "abcd"

  /** The k-th blob; the last one has `n` bytes. */
  function Blob(k: nat, n: nat): Bytes
    requires 1 <= k <= 4
  {
    Fill(LETTERS[k - 1], if k == 4 then n else MAX_MEMBER_BYTES)
  }

  function EntryAt(k: nat, n: nat): Entry
    requires 1 <= k <= 4
  {
    Entry(k, [LETTERS[k - 1]], "text/plain", "samples", Blob(k, n), |Blob(k, n)|)
  }

  function Blobs(n: nat): set<Bytes> {
    {Blob(1, n), Blob(2, n), Blob(3, n), Blob(4, n)}
  }

  /** The store after the first `k` entries. */
  function Written(k: nat, n: nat): Portable
    requires k <= 4
  {
    if k == 0 then Portable(map[], [], Blobs(n), []) else Extended(Written(k - 1, n), EntryAt(k, n))
  }

  function SizeUpTo(k: nat, n: nat): nat {
    if k == 4 then 3 * MAX_MEMBER_BYTES + n else k * MAX_MEMBER_BYTES
  }

  ghost predicate Grown(p: Portable, k: nat, n: nat)
    requires k <= 4
  {
    && PortableInv(p) && p.entryTemps == [] && p.blobTemps == [] && p.blobs == Blobs(n)
    && |p.entries| == k && (forall j | j in p.entries :: 1 <= j <= k && p.entries[j] == EntryAt(j, n))
    && |Referenced(p.entries)| == k && TotalSize(Referenced(p.entries)) == SizeUpTo(k, n)
  }

  lemma DistinctBlobs(j: nat, k: nat, n: nat)
    requires 1 <= j < k <= 4 && n > 0
    ensures Blob(j, n) != Blob(k, n)
  {
    assert Blob(j, n)[0] == LETTERS[j - 1] && Blob(k, n)[0] == LETTERS[k - 1];
  }

  lemma LetterPath(k: nat)
    requires 1 <= k <= 4
    ensures RunRelative([LETTERS[k - 1]])
  {
    OneComponent([LETTERS[k - 1]]);
    EncodeAscii([LETTERS[k - 1]]);
  }

  lemma NewBlob(p: Portable, k: nat, n: nat)
    requires 1 <= k <= 4 && n > 0 && forall j | j in p.entries :: 1 <= j < k && p.entries[j] == EntryAt(j, n)
    ensures Blob(k, n) !in Referenced(p.entries)
  {
    forall j | j in p.entries
      ensures p.entries[j].blob != Blob(k, n)
    {
      DistinctBlobs(j, k, n);
    }
  }

  lemma NextIsOk(p: Portable, k: nat, n: nat)
    requires 1 <= k <= 4 && p.blobs == Blobs(n) && |p.entries| == k - 1
    requires forall j | j in p.entries :: 1 <= j < k && p.entries[j] == EntryAt(j, n)
    ensures NextEntry(p, EntryAt(k, n))
  {
    LetterPath(k);
    hide RunRelative, Blob;
    forall j | j in p.entries
      ensures p.entries[j].path != [LETTERS[k - 1]]
    {
      assert p.entries[j].path[0] == LETTERS[j - 1];
    }
  }

  lemma BlobSize(k: nat, n: nat)
    requires 1 <= k <= 4
    ensures |Blob(k, n)| == if k == 4 then n else MAX_MEMBER_BYTES
  {
  }

  /** A small entry with a new blob is admitted. */
  lemma NewIsAdmitted(p: Portable, e: Entry)
    requires |p.entries| <= 3 && |Referenced(p.entries)| <= 3 && e.blob !in Referenced(p.entries)
    requires e.size == |e.blob| <= MAX_MEMBER_BYTES && TotalSize(Referenced(p.entries)) + |e.blob| <= MAX_AGGREGATE_BYTES
    ensures Admits(p, e) && TotalSize(Referenced(p.entries) + {e.blob}) == TotalSize(Referenced(p.entries)) + |e.blob|
  {
    TotalSizeGrows(Referenced(p.entries), e.blob);
    hide TotalSize;
    forall j | j in p.entries
      ensures p.entries[j].blob in Referenced(p.entries)
    {
    }
  }

  lemma NextIsAdmitted(p: Portable, k: nat, n: nat)
    requires 1 <= k <= 4 && 0 < n <= MAX_MEMBER_BYTES && |p.entries| == k - 1 && |Referenced(p.entries)| == k - 1
    requires TotalSize(Referenced(p.entries)) == SizeUpTo(k - 1, n) && Blob(k, n) !in Referenced(p.entries)
    ensures Admits(p, EntryAt(k, n))
    ensures TotalSize(Referenced(p.entries) + {Blob(k, n)}) == SizeUpTo(k, n)
  {
    BlobSize(k, n);
    hide TotalSize, Blob, Admits, Referenced;
    NewIsAdmitted(p, EntryAt(k, n));
  }

  /** Each entry is admitted after the ones before it. */
  lemma WrittenSound(k: nat, n: nat)
    requires k <= 4 && 0 < n <= MAX_MEMBER_BYTES
    ensures Grown(Written(k, n), k, n)
  {
    hide Blob, Blobs;
    if k == 0 {
      assert Referenced(map[]) == {};
    } else {
      WrittenSound(k - 1, n);
      WrittenNext(Written(k - 1, n), k, n);
    }
  }

  lemma WrittenNext(p: Portable, k: nat, n: nat)
    requires 1 <= k <= 4 && 0 < n <= MAX_MEMBER_BYTES && Grown(p, k - 1, n)
    ensures Grown(Extended(p, EntryAt(k, n)), k, n)
  {
    NewBlob(p, k, n);
    NextIsOk(p, k, n);
    NextIsAdmitted(p, k, n);
    EntriesNext(p, k, n);
    EntryIs(k, n);
    hide Blob, Blobs, TotalSize, EntryAt, NextEntry, Admits, Extended, PortableInv, Referenced;
    Stored(p, EntryAt(k, n));
  }

  lemma EntriesNext(p: Portable, k: nat, n: nat)
    requires 1 <= k <= 4 && forall j | j in p.entries :: 1 <= j < k && p.entries[j] == EntryAt(j, n)
    ensures var q := Extended(p, EntryAt(k, n));
      && q.blobs == p.blobs && q.entryTemps == p.entryTemps && q.blobTemps == p.blobTemps
      && (forall j | j in q.entries :: 1 <= j <= k && q.entries[j] == EntryAt(j, n))
  {
    hide Blob;
  }

  lemma Stored(p: Portable, e: Entry)
    requires PortableInv(p) && p.entryTemps == [] && NextEntry(p, e) && Admits(p, e) && e.blob !in Referenced(p.entries)
    ensures var q := Extended(p, e);
      && PortableInv(q) && |q.entries| == |p.entries| + 1 && q.blobs == p.blobs && q.entryTemps == [] && q.blobTemps == p.blobTemps
      && Referenced(q.entries) == Referenced(p.entries) + {e.blob} && |Referenced(q.entries)| == |Referenced(p.entries)| + 1
  {
    ExtendedKeeps(p, e);
    hide PortableInv, Referenced;
  }

  lemma EntryIs(k: nat, n: nat)
    requires 1 <= k <= 4
    ensures EntryAt(k, n).sequence == k && EntryAt(k, n).blob == Blob(k, n)
  {
  }

  // ------------------------------------------------- the run

  const ALLOCATED := Event(0, 1, None, None, Allocated, None, None, 0)
  const ACTIVATED := Event(0, 2, Some(ALLOCATED), Some(Allocated), Active, None, None, 0)
  const SUCCEEDED := Event(0, 3, Some(ACTIVATED), Some(Active), Terminal, Some(Success), None, 0)

  /** A run that wrote the four entries and succeeded. */
  function Closed(n: nat, input: Bytes, resolved: Bytes): Tree {
    Tree(
      Descriptor(0, 0, input, resolved), input, resolved, map[1 := ALLOCATED, 2 := ACTIVATED, 3 := SUCCEEDED], [], Some(Project(SUCCEEDED)),
      0, None, 0, 0, map[], Written(4, n))
  }

  lemma ClosedChain(n: nat, input: Bytes, resolved: Bytes)
    ensures Chain(Closed(n, input, resolved).events, 0, 3)
  {
    assert LinkAt(Closed(n, input, resolved).events, 0, 1) && LinkAt(Closed(n, input, resolved).events, 0, 2) && LinkAt(Closed(n, input, resolved).events, 0, 3);
  }

  lemma ClosedSound(n: nat, input: Bytes, resolved: Bytes)
    requires 0 < n <= MAX_MEMBER_BYTES
    ensures TreeInv(Closed(n, input, resolved), 0, 3)
  {
    hide Written;
    ClosedChain(n, input, resolved);
    WrittenSound(4, n);
    hide Chain, PortableInv;
  }

  /** The four entries reference the four blobs. */
  lemma AllReferenced(n: nat)
    requires 0 < n <= MAX_MEMBER_BYTES
    ensures Referenced(Written(4, n).entries) == Blobs(n) && Reconciled(Written(4, n)) == Written(4, n)
    ensures Written(4, n).entries.Keys == {1, 2, 3, 4}
  {
    hide Blob;
    WrittenSound(4, n);
    assert Written(4, n).entries.Keys == {1, 2, 3, 4};
    hide Written, PortableInv;
    var entries := Written(4, n).entries;
    assert entries[1].blob == Blob(1, n) && entries[2].blob == Blob(2, n) && entries[3].blob == Blob(3, n) && entries[4].blob == Blob(4, n);
  }

  lemma ClosedIsReadable(n: nat, input: Bytes, resolved: Bytes)
    requires 0 < n <= MAX_MEMBER_BYTES && |input| <= SMALL && |resolved| <= SMALL
    ensures Readable(Final(Closed(n, input, resolved), SUCCEEDED), 3)
  {
    FourEntries(n);
    AllReferenced(n);
    hide Written, Blobs, Referenced;
    var t := Final(Closed(n, input, resolved), SUCCEEDED);
    assert t.files.Keys == {} && t.portable.entries == Written(4, n).entries;
  }

  lemma FourEntries(n: nat)
    requires 0 < n <= MAX_MEMBER_BYTES
    ensures |Written(4, n).entries| == 4 && |Referenced(Written(4, n).entries)| == 4
  {
    WrittenSound(4, n);
    hide Written, PortableInv, Blobs, Referenced;
  }

  lemma ClosedIsFinal(n: nat, input: Bytes, resolved: Bytes)
    requires 0 < n <= MAX_MEMBER_BYTES && |input| <= SMALL && |resolved| <= SMALL
    ensures FinalRecord(Final(Closed(n, input, resolved), SUCCEEDED), 0, 3)
    ensures Readable(Final(Closed(n, input, resolved), SUCCEEDED), 3)
  {
    ClosedIsReadable(n, input, resolved);
    hide Readable;
    hide Written, Blobs;
    ClosedSound(n, input, resolved);
    AllReferenced(n);
    ChecksumsCommitted(Closed(n, input, resolved), 0, 3);
    hide TreeInv, Reconciled;
    Sealed(Final(Closed(n, input, resolved), SUCCEEDED), 0, 3);
  }

  // ------------------------------------------------- its bundle

  const CONTROL_FILES := [RecordManifestPath, RunJson, StatusJson, ChecksumsPath]
  const EVENT_FILES := [EventPath(1), EventPath(2), EventPath(3)]
  const ENTRY_FILES := [EntryPath(1), EntryPath(2), EntryPath(3), EntryPath(4)]
  const STRUCTURED := CONTROL_FILES + EVENT_FILES + ENTRY_FILES
  const INPUTS := [InputYaml, ResolvedYaml]

  function BlobPaths(n: nat): seq<RunPath> {
    [BlobPath(Blob(1, n)), BlobPath(Blob(2, n)), BlobPath(Blob(3, n)), BlobPath(Blob(4, n))]
  }

  function Members(n: nat): seq<RunPath> {
    STRUCTURED + INPUTS + BlobPaths(n)
  }

  /** The size of each member. */
  function SizeOf(p: RunPath, input: Bytes, resolved: Bytes, size: RunPath -> nat): nat {
    match p
    case InputYaml => |input|
    case ResolvedYaml => |resolved|
    case BlobPath(b) => |b|
    case _ => size(p)
  }

  function Total(list: seq<RunPath>, f: RunPath -> nat): nat {
    if list == [] then 0 else Total(list[..|list| - 1], f) + f(list[|list| - 1])
  }

  lemma {:induction false} TotalAppend(a: seq<RunPath>, b: seq<RunPath>, f: RunPath -> nat)
    ensures Total(a + b, f) == Total(a, f) + Total(b, f)
  {
    if b == [] {
      assert a + b == a;
    } else {
      TotalAppend(a, b[..|b| - 1], f);
      assert (a + b)[..|a + b| - 1] == a + b[..|b| - 1];
    }
  }

  lemma {:induction false} TotalBound(list: seq<RunPath>, f: RunPath -> nat, most: nat)
    requires forall i | 0 <= i < |list| :: f(list[i]) <= most
    ensures Total(list, f) <= |list| * most
  {
    if list != [] {
      TotalBound(list[..|list| - 1], f, most);
    }
  }

  lemma {:induction false} SumList(c: Contents, list: seq<RunPath>, f: RunPath -> nat)
    requires forall i, j | 0 <= i < j < |list| :: list[i] != list[j]
    requires forall p | p in c :: p.InRun? && p.path in list
    requires forall i | 0 <= i < |list| :: InRun(list[i]) in c && Size(c[InRun(list[i])]) == f(list[i])
    ensures SumSizes(c) == Total(list, f) && |c| == |list|
  {
    hide Size;
    if list == [] {
      assert c == map[] by {
        assert c.Keys == {};
      }
    } else {
      var p := InRun(list[|list| - 1]);
      var rest := list[..|list| - 1];
      SumAdds(c - {p}, p, c[p]);
      assert (c - {p})[p := c[p]] == c;
      assert c.Keys == (c - {p}).Keys + {p};
      forall q | q in c - {p}
        ensures q.InRun? && q.path in rest
      {
        var i :| 0 <= i < |list| && list[i] == q.path;
        assert rest[i] == q.path;
      }
      SumList(c - {p}, rest, f);
    }
  }

  lemma DistinctMembers(n: nat)
    requires n > 0
    ensures forall i, j | 0 <= i < j < |Members(n)| :: Members(n)[i] != Members(n)[j]
  {
    var fixed := STRUCTURED + INPUTS;
    assert forall i, j | 0 <= i < j < |fixed| :: fixed[i] != fixed[j];
    assert forall i | 0 <= i < |fixed| :: !fixed[i].BlobPath?;
    forall i, j | 0 <= i < j < |Members(n)|
      ensures Members(n)[i] != Members(n)[j]
    {
      if i >= |fixed| {
        DistinctBlobs(i - |fixed| + 1, j - |fixed| + 1, n);
        assert Members(n)[i] == BlobPath(Blob(i - |fixed| + 1, n)) && Members(n)[j] == BlobPath(Blob(j - |fixed| + 1, n));
      }
    }
  }

  /** What the stored files of this run are. */
  predicate MemberAt(files: Files, p: RunPath, n: nat, input: Bytes, resolved: Bytes) {
    && (!p.EvidencePath? ==> (p in files <==> p in Members(n)))
    && (p in files && !p.EvidencePath? ==>
          match p
          case InputYaml => files[p] == RawFile(input)
          case ResolvedYaml => files[p] == RawFile(resolved)
          case BlobPath(b) => files[p] == RawFile(b)
          case _ => !files[p].RawFile?)
  }

  /** What the tree says of its files. */
  predicate Shape(t: Tree, n: nat, input: Bytes, resolved: Bytes) {
    && t.events.Keys == {1, 2, 3} && t.portable.entries.Keys == {1, 2, 3, 4} && t.portable.blobs == Blobs(n)
    && t.input == input && t.resolved == resolved
  }

  /** The control files are there and structured. */
  predicate Controls(files: Files, input: Bytes, resolved: Bytes) {
    && RecordManifestPath in files && !files[RecordManifestPath].RawFile?
    && RunJson in files && !files[RunJson].RawFile?
    && StatusJson in files && !files[StatusJson].RawFile?
    && ChecksumsPath in files && !files[ChecksumsPath].RawFile?
    && InputYaml in files && files[InputYaml] == RawFile(input)
    && ResolvedYaml in files && files[ResolvedYaml] == RawFile(resolved)
  }

  lemma ControlsStored(files: Files, t: Tree)
    requires Stores(files, t, 0, 3)
    ensures Controls(files, t.input, t.resolved) && StoresEvents(files, t) && StoresPortable(files, t)
  {
    hide FinalRecord, Readable, StoresEvents, StoresPortable, StoresEvidence;
  }

  predicate Listed(p: RunPath, n: nat) {
    match p
    case EventPath(k) => k in {1, 2, 3}
    case EntryPath(k) => k in {1, 2, 3, 4}
    case BlobPath(b) => b in Blobs(n)
    case EvidencePath(_) => false
    case _ => true
  }

  lemma MemberListed(p: RunPath, n: nat)
    ensures p in Members(n) <==> Listed(p, n)
  {
    FixedListed(p);
    BlobListed(p, n);
    var fixed := STRUCTURED + INPUTS;
    assert p in fixed <==> p in STRUCTURED || p in INPUTS;
    hide Blob, BlobPaths, Blobs;
  }

  lemma BlobListed(p: RunPath, n: nat)
    ensures p in BlobPaths(n) <==> p.BlobPath? && p.name in Blobs(n)
  {
    hide Blob;
  }

  lemma FixedListed(p: RunPath)
    ensures p in STRUCTURED || p in INPUTS <==> !p.BlobPath? && Listed(p, 0)
  {
    hide Blobs;
    assert p in STRUCTURED <==> p in CONTROL_FILES || p in EVENT_FILES || p in ENTRY_FILES;
    assert p in EVENT_FILES <==> p.EventPath? && p.sequence in {1, 2, 3};
    assert p in ENTRY_FILES <==> p.EntryPath? && p.sequence in {1, 2, 3, 4};
    assert p in CONTROL_FILES || p in INPUTS <==> !p.EventPath? && !p.EntryPath? && !p.BlobPath? && !p.EvidencePath?;
  }

  lemma MemberStored(files: Files, t: Tree, p: RunPath, n: nat, input: Bytes, resolved: Bytes)
    requires Shape(t, n, input, resolved) && Controls(files, input, resolved)
    requires StoresEvents(files, t) && StoresPortable(files, t)
    ensures MemberAt(files, p, n, input, resolved)
  {
    MemberListed(p, n);
    hide Blobs, Members;
    match p
    case EventPath(k) =>
      assert p in files <==> k in t.events;
    case EntryPath(k) =>
      assert p in files <==> k in t.portable.entries;
    case BlobPath(b) =>
      assert p in files <==> b in t.portable.blobs;
    case _ =>
  }

  lemma ClosedShape(n: nat, input: Bytes, resolved: Bytes)
    requires 0 < n <= MAX_MEMBER_BYTES
    ensures Shape(Final(Closed(n, input, resolved), SUCCEEDED), n, input, resolved)
  {
    hide Written, Blob;
    AllReferenced(n);
  }

  ghost predicate Known(files: Files, n: nat, input: Bytes, resolved: Bytes) {
    forall p: RunPath :: MemberAt(files, p, n, input, resolved)
  }

  lemma StoredIsKnown(files: Files, n: nat, input: Bytes, resolved: Bytes)
    requires 0 < n <= MAX_MEMBER_BYTES && Stores(files, Final(Closed(n, input, resolved), SUCCEEDED), 0, 3)
    ensures Known(files, n, input, resolved)
  {
    var t := Final(Closed(n, input, resolved), SUCCEEDED);
    ClosedShape(n, input, resolved);
    ControlsStored(files, t);
    hide Stores, Final, Closed, Controls, StoresEvents, StoresPortable, MemberAt;
    forall p: RunPath
      ensures MemberAt(files, p, n, input, resolved)
    {
      MemberStored(files, t, p, n, input, resolved);
    }
  }

  lemma InRunOnly(files: Files, p: MemberPath)
    requires p in Exportable(files)
    ensures p.InRun? && !p.path.EvidencePath?
  {
  }

  lemma MemberKnown(files: Files, n: nat, input: Bytes, resolved: Bytes, size: RunPath -> nat, p: RunPath)
    requires Known(files, n, input, resolved) && !p.EvidencePath?
    requires forall q | q in files && !files[q].RawFile? :: Size(files[q]) == size(q)
    ensures p in files <==> p in Members(n)
    ensures p in files ==> Size(files[p]) == SizeOf(p, input, resolved, size)
  {
    assert MemberAt(files, p, n, input, resolved);
    hide Members;
  }

  lemma MembersSum(files: Files, n: nat, input: Bytes, resolved: Bytes, size: RunPath -> nat, f: RunPath -> nat)
    requires n > 0 && Known(files, n, input, resolved)
    requires forall p | p in files && !files[p].RawFile? :: Size(files[p]) == size(p)
    requires forall p :: f(p) == SizeOf(p, input, resolved, size)
    ensures SumSizes(Exportable(files)) == Total(Members(n), f) && |Exportable(files)| == |Members(n)|
    ensures forall p | p in Exportable(files) :: p.InRun? && p.path in Members(n) && Size(Exportable(files)[p]) == f(p.path)
  {
    ExportedAt(files);
    DistinctMembers(n);
    hide Members, Exportable, Known, SizeOf, Size;
    var c := Exportable(files);
    forall p | p in c
      ensures p.InRun? && p.path in Members(n) && Size(c[p]) == f(p.path)
    {
      InRunOnly(files, p);
      MemberKnown(files, n, input, resolved, size, p.path);
      assert InRun(p.path) in c;
    }
    forall i | 0 <= i < |Members(n)|
      ensures InRun(Members(n)[i]) in c && Size(c[InRun(Members(n)[i])]) == f(Members(n)[i])
    {
      NoEvidenceMember(n, i);
      MemberKnown(files, n, input, resolved, size, Members(n)[i]);
    }
    SumList(c, Members(n), f);
  }

  lemma NoEvidenceMember(n: nat, i: nat)
    requires i < |Members(n)|
    ensures !Members(n)[i].EvidencePath?
  {
    MemberListed(Members(n)[i], n);
  }

  lemma TotalOne(p: RunPath, f: RunPath -> nat)
    ensures Total([p], f) == f(p)
  {
    assert [p][..0] == [];
  }

  lemma BlobTotal(n: nat, f: RunPath -> nat)
    requires forall b :: f(BlobPath(b)) == |b|
    ensures Total(BlobPaths(n), f) == 3 * MAX_MEMBER_BYTES + n
  {
    var a, b, c, d := BlobPath(Blob(1, n)), BlobPath(Blob(2, n)), BlobPath(Blob(3, n)), BlobPath(Blob(4, n));
    assert f(a) == f(b) == f(c) == MAX_MEMBER_BYTES && f(d) == n;
    TotalOne(a, f);
    TotalOne(b, f);
    TotalOne(c, f);
    TotalOne(d, f);
    TotalAppend([a], [b], f);
    TotalAppend([a] + [b], [c], f);
    TotalAppend([a] + [b] + [c], [d], f);
    assert BlobPaths(n) == [a] + [b] + [c] + [d];
  }

  /** How much the members without the blobs take. */
  lemma FixedTotal(input: Bytes, resolved: Bytes, size: RunPath -> nat, f: RunPath -> nat)
    requires |input| <= SMALL && |resolved| <= SMALL && forall p :: size(p) <= SMALL
    requires forall p :: f(p) == SizeOf(p, input, resolved, size)
    ensures Total(STRUCTURED + INPUTS, f) < MAX_MEMBER_BYTES
    ensures forall n: nat :: Total(Members(n), f) == Total(STRUCTURED + INPUTS, f) + 3 * MAX_MEMBER_BYTES + n
  {
    var fixed := STRUCTURED + INPUTS;
    TotalBound(fixed, f, SMALL);
    forall n: nat
      ensures Total(Members(n), f) == Total(fixed, f) + 3 * MAX_MEMBER_BYTES + n
    {
      TotalAppend(fixed, BlobPaths(n), f);
      BlobTotal(n, f);
    }
  }

  /** Whatever the inputs and the structured files encode to, as long as each is small, there is a run
      whose members fill the limit exactly: its bundle is exported, and no manifest fits. */
  lemma FullBundleFails(input: Bytes, resolved: Bytes, size: RunPath -> nat) returns (n: nat, files: Files)
    requires |input| <= SMALL && |resolved| <= SMALL && forall p :: size(p) <= SMALL
    ensures 0 < n <= MAX_MEMBER_BYTES && Stores(files, Final(Closed(n, input, resolved), SUCCEEDED), 0, 3)
    ensures forall p | p in files && !files[p].RawFile? :: Size(files[p]) == size(p)
    ensures Collectable(files) && SumSizes(Exportable(files)) == MAX_AGGREGATE_BYTES
  {
    var f := (p: RunPath) => SizeOf(p, input, resolved, size);
    FixedTotal(input, resolved, size, f);
    n := MAX_MEMBER_BYTES - Total(STRUCTURED + INPUTS, f);
    ClosedIsFinal(n, input, resolved);
    hide FinalRecord, Final, Closed, Readable, Stores, Exportable, SumSizes, Size, Total, Known, Members, SizeOf;
    files := Storable(Final(Closed(n, input, resolved), SUCCEEDED), 0, 3, size);
    StoredIsKnown(files, n, input, resolved);
    MembersSum(files, n, input, resolved, size, f);
    forall i | 0 <= i < |Members(n)|
      ensures f(Members(n)[i]) <= MAX_MEMBER_BYTES
    {
      MemberFits(n, i, input, resolved, size);
    }
    MemberCount(n);
  }

  lemma MemberCount(n: nat)
    ensures |Members(n)| == 17
  {
  }

  lemma MemberFits(n: nat, i: nat, input: Bytes, resolved: Bytes, size: RunPath -> nat)
    requires i < |Members(n)| && n <= MAX_MEMBER_BYTES && |input| <= SMALL && |resolved| <= SMALL && forall p :: size(p) <= SMALL
    ensures SizeOf(Members(n)[i], input, resolved, size) <= MAX_MEMBER_BYTES
  {
    var p := Members(n)[i];
    MemberListed(p, n);
    if p.BlobPath? {
      assert |Blob(1, n)| == |Blob(2, n)| == |Blob(3, n)| == MAX_MEMBER_BYTES && |Blob(4, n)| == n;
    }
  }
}
