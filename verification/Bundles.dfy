/** Verifying a bundle directory from a snapshot of its files. */
module Bundles {
  import opened Outcomes
  import opened Checksums
  import opened PortableModel
  import opened RunModel
  import opened BundleModel

  /** The declared paths, if none is declared twice and the manifest does not declare itself. */
  method Declare(members: seq<Member>) returns (ok: bool, declared: set<MemberPath>)
    ensures ok <==> DistinctMembers(members) && BundleJson !in DeclaredPaths(members)
    ensures ok ==> declared == DeclaredPaths(members)
  {
    declared := {};
    for i := 0 to |members|
      invariant declared == DeclaredPaths(members[..i]) && BundleJson !in declared
      invariant forall j, k | 0 <= j < k < i :: members[j].path != members[k].path
    {
      if members[i].path in declared || members[i].path == BundleJson {
        assert members[i].path in DeclaredPaths(members);
        return false, declared;
      }
      DeclaredGrows(members, i);
      declared := declared + {members[i].path};
    }
    assert members[..|members|] == members;
    return true, declared;
  }

  lemma DeclaredGrows(members: seq<Member>, i: nat)
    requires i < |members|
    ensures DeclaredPaths(members[..i + 1]) == DeclaredPaths(members[..i]) + {members[i].path}
  {
    var less, more := members[..i], members[..i + 1];
    assert forall j | 0 <= j < i :: more[j] == less[j];
    assert more[i] == members[i];
    forall p | p in DeclaredPaths(less) + {members[i].path}
      ensures p in DeclaredPaths(more)
    {
      if p in DeclaredPaths(less) {
        var j :| 0 <= j < i && less[j].path == p;
        assert more[j].path == p;
      } else {
        assert more[i].path == p;
      }
    }
  }

  /** Every declared member has its digest and size; also their total size. */
  method CheckSizes(members: seq<Member>, c: Contents) returns (ok: bool, aggregate: nat)
    requires DistinctMembers(members) && c.Keys == DeclaredPaths(members)
    ensures ok <==> forall i | 0 <= i < |members| :: MemberMatches(members[i], c)
    ensures ok ==> aggregate == SumSizes(c)
  {
    hide SumSizes, DistinctMembers, DeclaredPaths, Part;
    aggregate := 0;
    ghost var read: Contents := map[];
    NoFiles(c);
    NothingDeclared();
    for i := 0 to |members|
      invariant forall j | 0 <= j < i :: MemberMatches(members[j], c)
      invariant read.Keys == DeclaredPaths(members[..i]) && Part(read, c) && aggregate == SumSizes(read)
    {
      var member := members[i];
      if !MemberMatches(member, c) {
        return false, aggregate;
      }
      StillPart(read, c, member.path);
      DeclaredGrows(members, i);
      NotDeclaredBefore(members, i);
      SumAdds(read, member.path, c[member.path]);
      read := read[member.path := c[member.path]];
      aggregate := aggregate + member.size;
    }
    assert members[..|members|] == members;
    WholeRead(read, c);
    return true, aggregate;
  }

  lemma NothingDeclared()
    ensures DeclaredPaths([]) == {}
  {
  }

  lemma StillPart(part: Contents, whole: Contents, p: MemberPath)
    requires Part(part, whole) && p in whole
    ensures Part(part[p := whole[p]], whole)
  {
  }

  lemma NotDeclaredBefore(members: seq<Member>, i: nat)
    requires DistinctMembers(members) && i < |members|
    ensures members[i].path !in DeclaredPaths(members[..i])
  {
  }

  /** Every declared member once, with its digest and size, and nothing else; also their total size. */
  method CheckMembers(m: BundleManifest, c: Contents) returns (ok: bool, aggregate: nat)
    ensures ok <==> MembersMatch(m, c)
    ensures ok ==> aggregate == SumSizes(c)
  {
    hide MemberMatches, DeclaredPaths, DistinctMembers, SumSizes;
    var distinct, declared := Declare(m.members);
    aggregate := 0;
    if !distinct || c.Keys != declared {
      return false, aggregate;
    }
    ok, aggregate := CheckSizes(m.members, c);
  }

  function EventNumbers(c: Contents): set<nat> {
    set p | p in c && p.InRun? && p.path.EventPath? :: p.path.sequence
  }

  function EntryNumbers(c: Contents): set<nat> {
    set p | p in c && p.InRun? && p.path.EntryPath? :: p.path.sequence
  }

  lemma EventNumbersMean(c: Contents)
    ensures forall k: nat :: k in EventNumbers(c) <==> InRun(EventPath(k)) in c
  {
    forall k: nat | InRun(EventPath(k)) in c
      ensures k in EventNumbers(c)
    {
      assert InRun(EventPath(k)).path.sequence == k;
    }
  }

  lemma EntryNumbersMean(c: Contents)
    ensures forall k: nat :: k in EntryNumbers(c) <==> InRun(EntryPath(k)) in c
  {
    forall k: nat | InRun(EntryPath(k)) in c
      ensures k in EntryNumbers(c)
    {
      assert InRun(EntryPath(k)).path.sequence == k;
    }
  }

  /** The embedded events, in order, must be exactly the chain the status names. */
  method VerifyEvents(c: Contents, status: Status) returns (ok: bool)
    ensures ok <==> EventsBound(c, status)
  {
    hide ChainMatches, IsEvent;
    var numbers := EventNumbers(c);
    EventNumbersMean(c);
    hide EventNumbers;
    var n := |numbers|;
    EventsAre(c, status, numbers);
    if numbers != Range(n) {
      return false;
    }
    var payloads: seq<Event> := [];
    for k := 1 to n + 1
      invariant (forall j | 1 <= j < k :: IsEvent(c, j)) && payloads == Events(c, k - 1)
    {
      if !IsEvent(c, k) {
        return false;
      }
      EventsGrow(c, k);
      payloads := payloads + [c[InRun(EventPath(k))].event];
    }
    ok := ValidateEventChain(payloads, status.run, status);
    ChainLength(payloads, status);
  }

  lemma EventsAre(c: Contents, status: Status, numbers: set<nat>)
    requires forall k: nat :: k in numbers <==> InRun(EventPath(k)) in c
    ensures EventsBound(c, status) ==> numbers == Range(|numbers|) && status.sequence == |numbers|
    ensures EventsBound(c, status) ==> forall k | 1 <= k <= |numbers| :: IsEvent(c, k)
    ensures numbers == Range(|numbers|) ==> forall k: nat :: InRun(EventPath(k)) in c <==> 1 <= k <= |numbers|
  {
    hide ChainMatches;
    if EventsBound(c, status) {
      forall k: nat
        ensures k in numbers <==> 1 <= k <= status.sequence
      {
        if 1 <= k <= status.sequence {
          assert IsEvent(c, k);
        }
      }
      RangeOf(numbers, status.sequence);
    }
  }

  lemma EventsGrow(c: Contents, k: nat)
    requires k >= 1 && (forall j | 1 <= j <= k :: IsEvent(c, j))
    ensures IsEvent(c, k) && InRun(EventPath(k)) in c && c[InRun(EventPath(k))].EventFile?
    ensures Events(c, k) == Events(c, k - 1) + [c[InRun(EventPath(k))].event]
  {
    assert IsEvent(c, k);
  }

  lemma ChainLength(payloads: seq<Event>, status: Status)
    ensures ChainMatches(payloads, status.run, status) ==> |payloads| == status.sequence
  {
  }

  /** A set that is a range of numbers is the range of its size. */
  lemma RangeOf(numbers: set<nat>, n: nat)
    ensures (forall k: nat :: k in numbers <==> 1 <= k <= n) ==> numbers == Range(n) && |numbers| == n
  {
    if forall k: nat :: k in numbers <==> 1 <= k <= n {
      assert numbers == Range(n);
    }
  }

  /** Parse and authenticate the portable entry files. */
  method AuthenticatedEntries(c: Contents) returns (r: Option<map<nat, Entry>>)
    ensures r.Some? ==> EntriesBound(c, r.value)
    ensures r.None? ==> forall entries :: !EntriesBound(c, entries)
  {
    hide IsEntry, EntriesBound, DistinctPaths, SingleMedia, Range;
    var numbers := EntryNumbers(c);
    EntryNumbersMean(c);
    var parsed, bad := ParseEntries(c, numbers);
    if parsed.None? {
      BadEntry(c, bad);
      return None;
    }
    var entries := parsed.value;
    EntriesDecide(c, entries);
    if !DistinctPaths(entries) || !SingleMedia(entries) || |entries| > MAX_ENTRIES || entries.Keys != Range(|entries|) {
      return None;
    }
    return Some(entries);
  }

  /** Parse the entry files with these numbers; `bad` is the first that is malformed. */
  method ParseEntries(c: Contents, numbers: set<nat>) returns (r: Option<map<nat, Entry>>, ghost bad: nat)
    requires forall k | k in numbers :: InRun(EntryPath(k)) in c
    ensures r.Some? ==> r.value.Keys == numbers && forall k | k in numbers :: IsEntry(c, k, r.value[k])
    ensures r.None? ==> bad in numbers && !exists e :: IsEntry(c, bad, e)
  {
    hide EntryPolicy;
    var entries: map<nat, Entry> := map[];
    var rest := numbers;
    bad := 0;
    while rest != {}
      invariant rest <= numbers && entries.Keys == numbers - rest
      invariant forall k | k in entries :: IsEntry(c, k, entries[k])
    {
      var k :| k in rest;
      var file := c[InRun(EntryPath(k))];
      if !file.EntryFile? || !EntryPolicy(file.entry, k) {
        return None, k;
      }
      entries := entries[k := file.entry];
      rest := rest - {k};
    }
    return Some(entries), 0;
  }

  /** The k-th entry file holds `e`, which satisfies the policy. */
  predicate IsEntry(c: Contents, k: nat, e: Entry) {
    && InRun(EntryPath(k)) in c && c[InRun(EntryPath(k))].EntryFile? && c[InRun(EntryPath(k))].entry == e
    && EntryPolicy(e, k)
  }

  lemma BadEntry(c: Contents, k: nat)
    requires InRun(EntryPath(k)) in c && !exists e :: IsEntry(c, k, e)
    ensures forall entries :: !EntriesBound(c, entries)
  {
    hide IsEntry, EntriesBound;
    forall entries
      ensures !EntriesBound(c, entries)
    {
      if EntriesBound(c, entries) {
        EntryThere(c, entries, k);
      }
    }
  }

  lemma EntryThere(c: Contents, entries: map<nat, Entry>, k: nat)
    requires EntriesBound(c, entries) && InRun(EntryPath(k)) in c
    ensures exists e :: IsEntry(c, k, e)
  {
    hide EntryPolicy, DistinctPaths, SingleMedia, Numbered;
    assert IsEntry(c, k, entries[k]);
  }

  /** The parsed entries are the only candidates. */
  lemma EntriesDecide(c: Contents, entries: map<nat, Entry>)
    requires forall k: nat :: k in entries <==> InRun(EntryPath(k)) in c
    requires forall k | k in entries :: IsEntry(c, k, entries[k])
    ensures
      if DistinctPaths(entries) && SingleMedia(entries) && |entries| <= MAX_ENTRIES && entries.Keys == Range(|entries|)
      then EntriesBound(c, entries)
      else forall others :: !EntriesBound(c, others)
  {
    hide EntryPolicy, DistinctPaths, SingleMedia;
    assert Numbered(entries) <==> entries.Keys == Range(|entries|);
    forall others | EntriesBound(c, others)
      ensures others == entries
    {
      assert others.Keys == entries.Keys;
      assert forall k | k in entries :: IsEntry(c, k, entries[k]);
    }
  }

  /** The checksums cover exactly the record. */
  method VerifyChecksums(entries: seq<RecordEntry>, digests: map<RunPath, File>) returns (ok: bool)
    ensures ok <==> ChecksumsBound(entries, digests)
  {
    if digests.Keys != RecordPaths(entries) - {ChecksumsPath} {
      return false;
    }
    for i := 0 to |entries|
      invariant forall j | 0 <= j < i && entries[j].path in digests :: digests[entries[j].path] == entries[j].digest
    {
      if entries[i].path in digests && digests[entries[i].path] != entries[i].digest {
        return false;
      }
    }
    return true;
  }

  /** Bind every member to the record and collect the blobs that are declared. */
  method VerifyMembers(m: BundleManifest, c: Contents, record: seq<RecordEntry>, digests: map<RunPath, File>, entries: map<nat, Entry>)
    returns (ok: bool)
    requires MembersMatch(m, c)
    ensures ok <==> (forall i | 0 <= i < |m.members| :: MemberBound(m.members[i], record, digests, entries)) && BlobsBound(c, entries)
  {
    hide MemberBound, Referenced, DistinctMembers, MemberMatches;
    var declaredBlobs: set<Bytes> := {};
    for i := 0 to |m.members|
      invariant forall j | 0 <= j < i :: MemberBound(m.members[j], record, digests, entries)
      invariant forall b :: b in declaredBlobs ==> InRun(BlobPath(b)) in c
      invariant forall j | 0 <= j < i && m.members[j].path.InRun? && m.members[j].path.path.BlobPath? ::
        m.members[j].path.path.name in declaredBlobs
    {
      var member := m.members[i];
      if !MemberBound(member, record, digests, entries) {
        return false;
      }
      if member.path.InRun? && member.path.path.BlobPath? {
        assert member.path in DeclaredPaths(m.members);
        declaredBlobs := declaredBlobs + {member.path.path.name};
      }
    }
    forall b: Bytes
      ensures b in declaredBlobs <==> InRun(BlobPath(b)) in c
    {
      if InRun(BlobPath(b)) in c {
        var j :| 0 <= j < |m.members| && m.members[j].path == InRun(BlobPath(b));
      }
    }
    return declaredBlobs == Referenced(entries);
  }

  /** Validate a fully read snapshot against its manifest. */
  method VerifySnapshot(m: BundleManifest, c: Contents) returns (ok: bool)
    ensures ok <==> Accepted(m, c)
  {
    hide MembersMatch, ManifestBound, RunBound, EventsBound, ChecksumsBound, EntriesBound, MemberBound, BlobsBound, SumSizes;
    var matched, aggregate := CheckMembers(m, c);
    if !matched || aggregate > MAX_AGGREGATE_BYTES || !ManifestBound(m, c) || !RunBound(m, c) {
      return false;
    }
    ManifestShape(m, c);
    var chained := VerifyEvents(c, c[InRun(StatusJson)].status);
    if !chained {
      return false;
    }
    var digests: map<RunPath, File> := map[];
    if InRun(ChecksumsPath) in c {
      if !c[InRun(ChecksumsPath)].ChecksumFile? || !Declarable(c[InRun(ChecksumsPath)].digests) {
        return false;
      }
      digests := c[InRun(ChecksumsPath)].digests;
    }
    var covered := VerifyChecksums(m.record.entries, digests);
    if !covered {
      return false;
    }
    var entries := AuthenticatedEntries(c);
    if entries.None? {
      return false;
    }
    ok := VerifyMembers(m, c, m.record.entries, digests, entries.value);
    if ok {
      assert AcceptedWith(m, c, digests, entries.value);
    } else {
      forall ds: map<RunPath, File>, es: map<nat, Entry>
        ensures !AcceptedWith(m, c, ds, es)
      {
        if EntriesBound(c, es) {
          EntriesUnique(c, es, entries.value);
        }
      }
    }
  }

  lemma ManifestShape(m: BundleManifest, c: Contents)
    requires ManifestBound(m, c) && RunBound(m, c)
    ensures m.record.ManifestFile? && InRun(StatusJson) in c && c[InRun(StatusJson)].StatusFile?
  {
  }

  lemma EntriesUnique(c: Contents, a: map<nat, Entry>, b: map<nat, Entry>)
    requires EntriesBound(c, a) && EntriesBound(c, b)
    ensures a == b
  {
    hide EntryPolicy, Numbered, DistinctPaths, SingleMedia;
  }

  /** The limits of the directory walk; it counts the bundle manifest. */
  ghost predicate Walkable(snapshot: Contents) {
    && |snapshot| <= MAX_TOTAL_FILES && SumSizes(snapshot) <= MAX_AGGREGATE_BYTES
    && forall p | p in snapshot :: Size(snapshot[p]) <= MAX_MEMBER_BYTES
  }

  /** What was read so far is part of the directory. */
  predicate Part(part: Contents, whole: Contents) {
    part.Keys <= whole.Keys && forall p | p in part :: part[p] == whole[p]
  }

  /** Read every file of a bundle directory within the limits; the directory order is arbitrary. */
  method WalkAndRead(directory: Contents) returns (ok: bool)
    ensures ok <==> Walkable(directory)
  {
    hide SumSizes, Part;
    NoFiles(directory);
    var members: Contents := map[];
    var aggregate := 0;
    var rest := directory.Keys;
    while rest != {}
      invariant rest <= directory.Keys && members.Keys == directory.Keys - rest && Part(members, directory)
      invariant forall p | p in directory && p !in rest :: Size(directory[p]) <= MAX_MEMBER_BYTES
      invariant |members| <= MAX_TOTAL_FILES && aggregate == SumSizes(members) <= MAX_AGGREGATE_BYTES
      decreases rest
    {
      var p :| p in rest;
      OneMoreFile(members, directory, p);
      if |members| + 1 > MAX_TOTAL_FILES || aggregate + Size(directory[p]) > MAX_AGGREGATE_BYTES || Size(directory[p]) > MAX_MEMBER_BYTES {
        return false;
      }
      aggregate := aggregate + Size(directory[p]);
      members := members[p := directory[p]];
      rest := rest - {p};
    }
    WholeRead(members, directory);
    return true;
  }

  lemma NoFiles(directory: Contents)
    ensures SumSizes(map[]) == 0 && Part(map[], directory)
  {
  }

  lemma WholeRead(members: Contents, directory: Contents)
    requires Part(members, directory) && members.Keys == directory.Keys
    ensures members == directory
  {
  }

  lemma OneMoreFile(members: Contents, directory: Contents, p: MemberPath)
    requires p in directory && p !in members && Part(members, directory)
    ensures SumSizes(members[p := directory[p]]) == SumSizes(members) + Size(directory[p]) <= SumSizes(directory)
    ensures |members[p := directory[p]]| == |members| + 1 <= |directory| && Part(members[p := directory[p]], directory)
  {
    hide SumSizes;
    var more := members[p := directory[p]];
    SumAdds(members, p, directory[p]);
    assert more.Keys == members.Keys + {p};
    PartOf(more, directory);
  }

  /** A part of a directory is no bigger than the whole. */
  lemma {:induction false} PartOf(part: Contents, whole: Contents)
    requires Part(part, whole)
    ensures SumSizes(part) <= SumSizes(whole) && |part| <= |whole|
    decreases whole.Keys - part.Keys
  {
    hide SumSizes;
    if part.Keys == whole.Keys {
      assert part == whole;
    } else {
      var p := Missing(part, whole);
      var more := part[p := whole[p]];
      SumAdds(part, p, whole[p]);
      assert more.Keys == part.Keys + {p};
      assert whole.Keys - more.Keys < whole.Keys - part.Keys by {
        assert p in whole.Keys - part.Keys && p !in whole.Keys - more.Keys;
      }
      PartOf(more, whole);
    }
  }

  lemma Missing(part: Contents, whole: Contents) returns (p: MemberPath)
    requires Part(part, whole) && part.Keys != whole.Keys
    ensures p in whole && p !in part
  {
    if forall q | q in whole :: q in part {
      assert false;
    }
    p :| p in whole && p !in part;
  }

  /** What an acceptable bundle directory is. */
  ghost predicate BundleOk(directory: Contents) {
    && Walkable(directory)
    && BundleJson in directory && directory[BundleJson].BundleFile? && directory[BundleJson].form.id == 0
    && Accepted(directory[BundleJson].manifest, directory - {BundleJson})
  }

  /** Verify a bundle directory; the result is what its manifest claims. */
  method VerifyBundle(directory: Contents) returns (r: Option<BundleManifest>)
    ensures r.Some? <==> BundleOk(directory)
    ensures r.Some? ==> r.value == directory[BundleJson].manifest
  {
    hide Accepted, Walkable;
    var walked := WalkAndRead(directory);
    if !walked || BundleJson !in directory {
      return None;
    }
    var file := directory[BundleJson];
    if !file.BundleFile? || file.form.id != 0 {
      return None;
    }
    var ok := VerifySnapshot(file.manifest, directory - {BundleJson});
    return if ok then Some(file.manifest) else None;
  }
}
