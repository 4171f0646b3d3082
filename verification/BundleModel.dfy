/** The files of an evidence bundle and what an acceptable bundle is. The digest of a file is
    modelled as the file itself; two files that parse alike differ in their form. */
module BundleModel {
  import opened Outcomes
  import opened Checksums
  import opened PortableModel
  import opened RunModel

  /** Paths inside the run record. */
  datatype RunPath =
    | RecordManifestPath
    | RunJson
    | StatusJson
    | InputYaml
    | ResolvedYaml
    | ChecksumsPath
    | EventPath(sequence: nat)
    | EntryPath(sequence: nat)
    | BlobPath(name: Bytes)
    | EvidencePath(file: FileName)

  datatype MemberPath = BundleJson | InRun(path: RunPath) | OutsideRun(other: string)

  /** Which of the byte strings that parse to a value this is, and how long it is. The writer's
      canonical encoding is number zero. */
  datatype Form = Form(id: nat, size: nat)

  datatype File =
    | ManifestFile(form: Form, entries: seq<RecordEntry>)
    | DescriptorFile(form: Form, descriptor: Descriptor)
    | StatusFile(form: Form, status: Status)
    | ChecksumFile(form: Form, digests: map<RunPath, File>)
    | EventFile(form: Form, event: Event)
    | EntryFile(form: Form, entry: Entry)
    | RawFile(bytes: Bytes)
    | BundleFile(form: Form, manifest: BundleManifest)

  datatype RecordEntry = RecordEntry(path: RunPath, digest: File, size: nat, executable: bool)

  datatype Member = Member(path: MemberPath, digest: File, size: nat, media: string)

  datatype BundleManifest = BundleManifest(run: RunId, record: File, outcome: RunOutcome, members: seq<Member>)

  function Size(f: File): nat {
    if f.RawFile? then |f.bytes| else f.form.size
  }

  /** The members a bundle was read into, the bundle manifest excluded. */
  type Contents = map<MemberPath, File>

  ghost function SumSizes(c: Contents): nat {
    if c == map[] then 0
    else
      var p :| p in c;
      Size(c[p]) + SumSizes(c - {p})
  }

  lemma {:induction false} SumAdds(c: Contents, p: MemberPath, f: File)
    requires p !in c
    ensures SumSizes(c[p := f]) == SumSizes(c) + Size(f)
    decreases c.Keys
  {
    var more := c[p := f];
    assert p in more;
    var x :| x in more && SumSizes(more) == Size(more[x]) + SumSizes(more - {x});
    if x == p {
      assert more - {p} == c;
    } else {
      var less := c - {x};
      assert more - {x} == less[p := f];
      assert less.Keys < c.Keys;
      SumAdds(less, p, f);
      SumAdds(less, x, c[x]);
      assert less[x := c[x]] == c;
    }
  }

  const JSON := "application/json"

  /** The media type a control file must be declared with. */
  function ControlMedia(p: RunPath): Option<string> {
    match p
    case RecordManifestPath | RunJson | StatusJson => Some(JSON)
    case InputYaml | ResolvedYaml => Some("application/yaml")
    case ChecksumsPath => Some("text/plain")
    case _ => None
  }

  predicate DistinctMembers(members: seq<Member>) {
    forall i, j | 0 <= i < j < |members| :: members[i].path != members[j].path
  }

  predicate DistinctEntries(entries: seq<RecordEntry>) {
    forall i, j | 0 <= i < j < |entries| :: entries[i].path != entries[j].path
  }

  function DeclaredPaths(members: seq<Member>): set<MemberPath> {
    set i | 0 <= i < |members| :: members[i].path
  }

  /** The member is there, with its digest and size. */
  predicate MemberMatches(member: Member, c: Contents) {
    member.path in c && c[member.path] == member.digest && Size(member.digest) == member.size
  }

  /** The members and the declarations are the same, file by file. */
  ghost predicate MembersMatch(m: BundleManifest, c: Contents) {
    && DistinctMembers(m.members) && c.Keys == DeclaredPaths(m.members) && BundleJson !in c
    && (forall i | 0 <= i < |m.members| :: MemberMatches(m.members[i], c))
  }

  /** The record manifest embedded in the bundle. */
  predicate ManifestBound(m: BundleManifest, c: Contents) {
    && InRun(RecordManifestPath) in c && c[InRun(RecordManifestPath)] == m.record
    && m.record.ManifestFile? && m.record.form.id == 0 && DistinctEntries(m.record.entries)
  }

  predicate RunBound(m: BundleManifest, c: Contents) {
    && InRun(RunJson) in c && c[InRun(RunJson)].DescriptorFile?
    && InRun(StatusJson) in c && c[InRun(StatusJson)].StatusFile?
    && var descriptor, status := c[InRun(RunJson)].descriptor, c[InRun(StatusJson)].status;
    && descriptor.run == m.run && status.run == m.run
    && status.state.Terminal? && status.outcome == Some(m.outcome)
    && InRun(InputYaml) in c && c[InRun(InputYaml)] == RawFile(descriptor.input)
    && InRun(ResolvedYaml) in c && c[InRun(ResolvedYaml)] == RawFile(descriptor.resolved)
  }

  predicate IsEvent(c: Contents, k: nat) {
    InRun(EventPath(k)) in c && c[InRun(EventPath(k))].EventFile?
  }

  /** The embedded events 1 to n, in order. */
  function Events(c: Contents, n: nat): (events: seq<Event>)
    requires forall k | 1 <= k <= n :: IsEvent(c, k)
    ensures |events| == n
  {
    if n == 0 then [] else Events(c, n - 1) + (assert IsEvent(c, n); [c[InRun(EventPath(n))].event])
  }

  /** The embedded events are a contiguous chain that projects onto the status. */
  ghost predicate EventsBound(c: Contents, status: Status) {
    && (forall k: nat :: InRun(EventPath(k)) in c ==> 1 <= k <= status.sequence)
    && (forall k | 1 <= k <= status.sequence :: IsEvent(c, k))
    && ChainMatches(Events(c, status.sequence), status.run, status)
  }

  /** A checksum file cannot declare other evidence paths. */
  predicate Declarable(digests: map<RunPath, File>) {
    forall p | p in digests && p.EvidencePath? :: RunRelative(p.file.path) && Unbroken(p.file.path)
  }

  /** What the checksum file declares; nothing when it is missing. */
  predicate ChecksumsParsed(c: Contents, digests: map<RunPath, File>) {
    if InRun(ChecksumsPath) in c then
      && c[InRun(ChecksumsPath)].ChecksumFile? && digests == c[InRun(ChecksumsPath)].digests && Declarable(digests)
    else digests == map[]
  }

  function RecordPaths(entries: seq<RecordEntry>): set<RunPath> {
    set i | 0 <= i < |entries| :: entries[i].path
  }

  /** The checksums cover exactly the record's payload, themselves excluded, with its digests. */
  ghost predicate ChecksumsBound(entries: seq<RecordEntry>, digests: map<RunPath, File>) {
    && digests.Keys == RecordPaths(entries) - {ChecksumsPath}
    && (forall i | 0 <= i < |entries| && entries[i].path in digests :: digests[entries[i].path] == entries[i].digest)
  }

  /** Portable entry files parse, satisfy the policy, and are numbered from one without a gap. */
  ghost predicate EntriesBound(c: Contents, entries: map<nat, Entry>) {
    && (forall k: nat :: k in entries <==> InRun(EntryPath(k)) in c)
    && (forall k | k in entries :: c[InRun(EntryPath(k))].EntryFile? && c[InRun(EntryPath(k))].entry == entries[k])
    && (forall k | k in entries :: EntryPolicy(entries[k], k))
    && Numbered(entries) && DistinctPaths(entries) && SingleMedia(entries) && |entries| <= MAX_ENTRIES
  }

  predicate EntryPolicy(e: Entry, sequence: nat) {
    e.sequence == sequence && e.role in ROLES && e.media in MEDIA_TYPES && RunRelative(e.path)
  }

  /** A blob member is named by its content, referenced, and declared as its entries say. */
  predicate BlobOk(member: Member, name: Bytes, entries: map<nat, Entry>) {
    && member.digest == RawFile(name)
    && (exists k | k in entries :: entries[k].blob == name && entries[k].media == member.media)
    && (exists k | k in entries :: entries[k].blob == name && entries[k].size == member.size)
  }

  /** The member is declared with the media type of its class. */
  predicate Classified(member: Member, p: RunPath, entries: map<nat, Entry>) {
    match p
    case BlobPath(name) => BlobOk(member, name, entries)
    case EntryPath(_) | EventPath(_) => member.media == JSON
    case _ => Some(member.media) == ControlMedia(p)
  }

  /** The member is a file of the immutable record, and of its checksums. */
  predicate MemberBound(member: Member, record: seq<RecordEntry>, digests: map<RunPath, File>, entries: map<nat, Entry>) {
    member.path == InRun(RecordManifestPath)
    || (&& member.path.InRun?
        && var p := member.path.path;
        && (exists i | 0 <= i < |record| ::
              record[i].path == p && record[i].digest == member.digest && record[i].size == member.size && !record[i].executable)
        && (p == ChecksumsPath || (p in digests && digests[p] == member.digest))
        && Classified(member, p, entries))
  }

  /** Exactly the referenced blobs are members. */
  ghost predicate BlobsBound(c: Contents, entries: map<nat, Entry>) {
    forall b :: InRun(BlobPath(b)) in c <==> b in Referenced(entries)
  }

  /** An acceptable snapshot, with the checksums and the entries it carries. */
  ghost predicate AcceptedWith(m: BundleManifest, c: Contents, digests: map<RunPath, File>, entries: map<nat, Entry>) {
    && MembersMatch(m, c) && SumSizes(c) <= MAX_AGGREGATE_BYTES
    && ManifestBound(m, c) && RunBound(m, c) && EventsBound(c, c[InRun(StatusJson)].status)
    && ChecksumsParsed(c, digests) && ChecksumsBound(m.record.entries, digests)
    && EntriesBound(c, entries)
    && (forall i | 0 <= i < |m.members| :: MemberBound(m.members[i], m.record.entries, digests, entries))
    && BlobsBound(c, entries)
  }

  ghost predicate Accepted(m: BundleManifest, c: Contents) {
    exists digests, entries :: AcceptedWith(m, c, digests, entries)
  }

  /** A member other than the manifest is the file the record lists under its path. */
  lemma MemberRecorded(m: BundleManifest, c: Contents, digests: map<RunPath, File>, entries: map<nat, Entry>, p: RunPath)
    requires AcceptedWith(m, c, digests, entries) && InRun(p) in c && p != RecordManifestPath
    ensures exists i | 0 <= i < |m.record.entries| :: m.record.entries[i].path == p && m.record.entries[i].digest == c[InRun(p)]
  {
    hide EventsBound, EntriesBound, BlobsBound, ChecksumsBound, RunBound, Classified;
    var i :| 0 <= i < |m.members| && m.members[i].path == InRun(p);
    assert MemberBound(m.members[i], m.record.entries, digests, entries);
  }

  /** Two accepted bundles of one record agree on every member they share. */
  lemma SharedMembersAgree(a: BundleManifest, c: Contents, b: BundleManifest, d: Contents, p: MemberPath)
    requires Accepted(a, c) && Accepted(b, d) && a.record == b.record && p in c && p in d
    ensures c[p] == d[p]
  {
    hide AcceptedWith;
    var dc: map<RunPath, File>, ec: map<nat, Entry> :| AcceptedWith(a, c, dc, ec);
    var dd: map<RunPath, File>, ed: map<nat, Entry> :| AcceptedWith(b, d, dd, ed);
    InsideRun(a, c, dc, ec, p);
    if p == InRun(RecordManifestPath) {
      ManifestIs(a, c, dc, ec);
      ManifestIs(b, d, dd, ed);
    } else {
      MemberRecorded(a, c, dc, ec, p.path);
      MemberRecorded(b, d, dd, ed, p.path);
      ManifestIs(a, c, dc, ec);
    }
  }

  lemma ManifestIs(m: BundleManifest, c: Contents, digests: map<RunPath, File>, entries: map<nat, Entry>)
    requires AcceptedWith(m, c, digests, entries)
    ensures ManifestBound(m, c)
  {
  }

  /** Nothing outside the run is a member. */
  lemma InsideRun(m: BundleManifest, c: Contents, digests: map<RunPath, File>, entries: map<nat, Entry>, p: MemberPath)
    requires AcceptedWith(m, c, digests, entries) && p in c
    ensures p.InRun? && !p.path.EvidencePath?
  {
    hide EventsBound, EntriesBound, BlobsBound, ChecksumsBound, ChecksumsParsed, RunBound, MemberBound, SumSizes;
    var i :| 0 <= i < |m.members| && m.members[i].path == p;
    BoundInside(m.members[i], m.record.entries, digests, entries);
  }

  lemma BoundInside(member: Member, record: seq<RecordEntry>, digests: map<RunPath, File>, entries: map<nat, Entry>)
    requires MemberBound(member, record, digests, entries)
    ensures member.path.InRun? && !member.path.path.EvidencePath?
  {
    hide BlobOk;
  }

  predicate IsControl(p: RunPath) {
    p.RecordManifestPath? || p.RunJson? || p.StatusJson? || p.InputYaml? || p.ResolvedYaml? || p.ChecksumsPath?
  }

  /** Every accepted bundle has all control files: even the checksums, which no check asks for by
      name, because an absent checksum file covers nothing of a record that has a descriptor. */
  lemma ControlsPresent(m: BundleManifest, c: Contents, p: RunPath)
    requires Accepted(m, c) && IsControl(p)
    ensures InRun(p) in c
  {
    hide AcceptedWith;
    var digests: map<RunPath, File>, entries: map<nat, Entry> :| AcceptedWith(m, c, digests, entries);
    ControlsOf(m, c, digests, entries);
    MemberRecorded(m, c, digests, entries, RunJson);
    ChecksumsPresent(m, c, digests, entries, RunJson);
  }

  lemma ControlsOf(m: BundleManifest, c: Contents, digests: map<RunPath, File>, entries: map<nat, Entry>)
    requires AcceptedWith(m, c, digests, entries)
    ensures forall p: RunPath | IsControl(p) && !p.ChecksumsPath? :: InRun(p) in c
  {
  }

  /** Checksums that cover a recorded file cannot be absent. */
  lemma ChecksumsPresent(m: BundleManifest, c: Contents, digests: map<RunPath, File>, entries: map<nat, Entry>, p: RunPath)
    requires AcceptedWith(m, c, digests, entries) && p in RecordPaths(m.record.entries) && p != ChecksumsPath
    ensures InRun(ChecksumsPath) in c
  {
    hide EventsBound, EntriesBound, BlobsBound, RunBound, MemberBound, MembersMatch;
    assert ChecksumsBound(m.record.entries, digests);
    assert p in digests;
  }

  /** Two accepted bundles of one record carry the same events: the record's whole chain. */
  lemma SameEvents(a: BundleManifest, c: Contents, b: BundleManifest, d: Contents, k: nat)
    requires Accepted(a, c) && Accepted(b, d) && a.record == b.record
    ensures InRun(EventPath(k)) in c <==> InRun(EventPath(k)) in d
  {
    ControlsPresent(a, c, StatusJson);
    ControlsPresent(b, d, StatusJson);
    SharedMembersAgree(a, c, b, d, InRun(StatusJson));
    EventRange(a, c, k);
    EventRange(b, d, k);
  }

  lemma EventRange(m: BundleManifest, c: Contents, k: nat)
    requires Accepted(m, c)
    ensures InRun(StatusJson) in c && c[InRun(StatusJson)].StatusFile?
    ensures InRun(EventPath(k)) in c <==> 1 <= k <= c[InRun(StatusJson)].status.sequence
  {
    hide AcceptedWith;
    var digests: map<RunPath, File>, entries: map<nat, Entry> :| AcceptedWith(m, c, digests, entries);
    EventsOf(m, c, digests, entries);
    hide ChainMatches;
    assert 1 <= k <= c[InRun(StatusJson)].status.sequence ==> IsEvent(c, k);
  }

  lemma EventsOf(m: BundleManifest, c: Contents, digests: map<RunPath, File>, entries: map<nat, Entry>)
    requires AcceptedWith(m, c, digests, entries)
    ensures RunBound(m, c) && EventsBound(c, c[InRun(StatusJson)].status)
  {
  }

  lemma EntriesOf(m: BundleManifest, c: Contents, digests: map<RunPath, File>, entries: map<nat, Entry>)
    requires AcceptedWith(m, c, digests, entries)
    ensures EntriesBound(c, entries) && BlobsBound(c, entries)
  {
  }

  /** The portable entries of an accepted bundle are numbered from one; their count. */
  lemma EntryRange(m: BundleManifest, c: Contents) returns (n: nat)
    requires Accepted(m, c)
    ensures forall k: nat :: InRun(EntryPath(k)) in c <==> 1 <= k <= n
  {
    hide AcceptedWith;
    var digests: map<RunPath, File>, entries: map<nat, Entry> :| AcceptedWith(m, c, digests, entries);
    n := |entries|;
    EntriesOf(m, c, digests, entries);
  }

  /** The blobs of a bundle are exactly those its entries reference. */
  lemma BlobRange(m: BundleManifest, c: Contents, b: Bytes)
    requires Accepted(m, c)
    ensures InRun(BlobPath(b)) in c <==>
      exists k: nat :: InRun(EntryPath(k)) in c && c[InRun(EntryPath(k))].EntryFile? && c[InRun(EntryPath(k))].entry.blob == b
  {
    hide AcceptedWith;
    var digests: map<RunPath, File>, entries: map<nat, Entry> :| AcceptedWith(m, c, digests, entries);
    EntriesOf(m, c, digests, entries);
    if InRun(BlobPath(b)) in c {
      var k :| k in entries && entries[k].blob == b;
      assert InRun(EntryPath(k)) in c;
    }
    if k: nat :| InRun(EntryPath(k)) in c && c[InRun(EntryPath(k))].EntryFile? && c[InRun(EntryPath(k))].entry.blob == b {
      assert k in entries && entries[k].blob == b;
    }
  }

  /** Two accepted bundles of one record differ only in how many portable entries they carry, and in
      the blobs those reference: the members of one are members of the other. */
  lemma OneExtendsTheOther(a: BundleManifest, c: Contents, b: BundleManifest, d: Contents)
    requires Accepted(a, c) && Accepted(b, d) && a.record == b.record
    ensures (forall p | p in c :: p in d && d[p] == c[p]) || (forall p | p in d :: p in c && c[p] == d[p])
    ensures forall p: RunPath | !p.EntryPath? && !p.BlobPath? :: InRun(p) in c <==> InRun(p) in d
  {
    var n := EntryRange(a, c);
    var m := EntryRange(b, d);
    forall p: RunPath | !p.EntryPath? && !p.BlobPath?
      ensures InRun(p) in c <==> InRun(p) in d
    {
      SameOutsidePortable(a, c, b, d, p);
    }
    if n <= m {
      Extends(a, c, n, b, d, m);
    } else {
      Extends(b, d, m, a, c, n);
    }
  }

  lemma SameOutsidePortable(a: BundleManifest, c: Contents, b: BundleManifest, d: Contents, p: RunPath)
    requires Accepted(a, c) && Accepted(b, d) && a.record == b.record && !p.EntryPath? && !p.BlobPath?
    ensures InRun(p) in c <==> InRun(p) in d
  {
    if IsControl(p) {
      ControlsPresent(a, c, p);
      ControlsPresent(b, d, p);
    } else if p.EventPath? {
      SameEvents(a, c, b, d, p.sequence);
    } else {
      NoEvidence(a, c, p);
      NoEvidence(b, d, p);
    }
  }

  lemma NoEvidence(m: BundleManifest, c: Contents, p: RunPath)
    requires Accepted(m, c) && p.EvidencePath?
    ensures InRun(p) !in c
  {
    hide AcceptedWith;
    var digests: map<RunPath, File>, entries: map<nat, Entry> :| AcceptedWith(m, c, digests, entries);
    if InRun(p) in c {
      InsideRun(m, c, digests, entries, InRun(p));
      assert false;
    }
  }

  lemma Extends(a: BundleManifest, c: Contents, n: nat, b: BundleManifest, d: Contents, m: nat)
    requires Accepted(a, c) && Accepted(b, d) && a.record == b.record && n <= m
    requires forall k: nat :: InRun(EntryPath(k)) in c <==> 1 <= k <= n
    requires forall k: nat :: InRun(EntryPath(k)) in d <==> 1 <= k <= m
    ensures forall p | p in c :: p in d && d[p] == c[p]
  {
    hide Accepted;
    forall p | p in c
      ensures p in d && d[p] == c[p]
    {
      MemberInRun(a, c, p);
      if p.path.BlobPath? {
        BlobRange(a, c, p.path.name);
        BlobRange(b, d, p.path.name);
        var k: nat :| InRun(EntryPath(k)) in c && c[InRun(EntryPath(k))].EntryFile? && c[InRun(EntryPath(k))].entry.blob == p.path.name;
        assert InRun(EntryPath(k)) in d;
        SharedMembersAgree(a, c, b, d, InRun(EntryPath(k)));
      } else if p.path.EntryPath? {
        assert InRun(EntryPath(p.path.sequence)) in c;
      } else {
        SameOutsidePortable(a, c, b, d, p.path);
      }
      SharedMembersAgree(a, c, b, d, p);
    }
  }

  lemma MemberInRun(m: BundleManifest, c: Contents, p: MemberPath)
    requires Accepted(m, c) && p in c
    ensures p.InRun?
  {
    hide AcceptedWith;
    var digests: map<RunPath, File>, entries: map<nat, Entry> :| AcceptedWith(m, c, digests, entries);
    InsideRun(m, c, digests, entries, p);
  }
}
