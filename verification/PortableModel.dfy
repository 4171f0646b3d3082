/** The content-addressed portable evidence of a run, as a value. The digest of some content is
    modelled as the content itself. */
module PortableModel {
  import opened Outcomes
  import opened Checksums

  type Bytes = string

  const MAX_ENTRIES := 1024
  const MAX_MEMBER_BYTES := 16 * 1024 * 1024
  const MAX_AGGREGATE_BYTES := 64 * 1024 * 1024
  const MAX_TOTAL_FILES := 4096

  const ROLES := {"environment", "source", "build", "correctness", "samples", "profiler-summary", "comparison", "summary"}
  const MEDIA_TYPES := {
    "application/json", "application/x-ndjson", "application/yaml", "text/plain", "text/csv", "text/markdown", "text/x-diff"}

  datatype Entry = Entry(sequence: nat, path: Path, media: string, role: string, blob: Bytes, size: nat)

  /** A writer temp of an entry; no content means it does not parse. */
  datatype EntryTemp = EntryTemp(sequence: nat, content: Option<Entry>)

  /** A writer temp of a blob, named after the digest it will have. */
  datatype BlobTemp = BlobTemp(name: Bytes, content: Bytes)

  datatype Portable = Portable(
    entries: map<nat, Entry>,
    entryTemps: seq<EntryTemp>,
    blobs: set<Bytes>,
    blobTemps: seq<BlobTemp>)

  /** One entry satisfies the closed policy and its blob is there. */
  predicate EntryOk(e: Entry, sequence: nat, blobs: set<Bytes>) {
    && e.sequence == sequence && RunRelative(e.path) && e.role in ROLES && e.media in MEDIA_TYPES
    && e.blob in blobs && e.size == |e.blob|
  }

  predicate FreshPath(entries: map<nat, Entry>, path: Path) {
    forall k | k in entries :: entries[k].path != path
  }

  /** Entries are numbered from one without a gap. */
  ghost predicate Numbered(entries: map<nat, Entry>) {
    forall k :: k in entries <==> 1 <= k <= |entries|
  }

  predicate DistinctPaths(entries: map<nat, Entry>) {
    forall j, k | j in entries && k in entries && j != k :: entries[j].path != entries[k].path
  }

  /** A blob shared between entries has one media type. */
  predicate SingleMedia(entries: map<nat, Entry>) {
    forall j, k | j in entries && k in entries && entries[j].blob == entries[k].blob :: entries[j].media == entries[k].media
  }

  predicate EntriesOk(entries: map<nat, Entry>, blobs: set<Bytes>) {
    forall k | k in entries :: EntryOk(entries[k], k, blobs)
  }

  /** What loading the committed entries checks. */
  ghost predicate Committed(p: Portable) {
    && Numbered(p.entries) && EntriesOk(p.entries, p.blobs) && DistinctPaths(p.entries) && SingleMedia(p.entries)
  }

  function Referenced(entries: map<nat, Entry>): set<Bytes> {
    set k | k in entries :: entries[k].blob
  }

  ghost function TotalSize(blobs: set<Bytes>): nat {
    if blobs == {} then 0
    else
      var b :| b in blobs;
      |b| + TotalSize(blobs - {b})
  }

  ghost predicate WithinLimits(entries: map<nat, Entry>) {
    && |entries| <= MAX_ENTRIES
    && (forall k | k in entries :: entries[k].size <= MAX_MEMBER_BYTES)
    && TotalSize(Referenced(entries)) <= MAX_AGGREGATE_BYTES
    && |Referenced(entries)| + |entries| <= MAX_TOTAL_FILES
  }

  /** A whole entry temp is a legal next entry. */
  predicate NextEntry(p: Portable, e: Entry) {
    EntryOk(e, |p.entries| + 1, p.blobs) && FreshPath(p.entries, e.path)
  }

  ghost predicate PortableInv(p: Portable) {
    && Committed(p) && WithinLimits(p.entries)
    && |p.entryTemps| + |p.blobTemps| <= 1
    && (forall t | t in p.entryTemps :: t.sequence == |p.entries| + 1 && (t.content.Some? ==> NextEntry(p, t.content.value)))
  }

  /** Loading tolerates the writer temps that are there. */
  predicate EntryTempOk(p: Portable, t: EntryTemp) {
    if t.sequence in p.entries then t.content == Some(p.entries[t.sequence])
    else t.sequence == |p.entries| + 1 && t.content.Some? && NextEntry(p, t.content.value)
  }

  /** Recovery of the portable store succeeds. */
  predicate Reconcilable(p: Portable) {
    && |p.entryTemps| <= 1 && (forall t | t in p.entryTemps :: EntryTempOk(p, t))
    && |p.blobTemps| <= 1 && (forall t | t in p.blobTemps :: t.content == t.name)
  }

  /** The store recovery leaves: the committed entries and exactly their blobs. */
  function Reconciled(p: Portable): Portable {
    Portable(p.entries, [], Referenced(p.entries), [])
  }

  lemma {:induction false} TotalSizeGrows(blobs: set<Bytes>, b: Bytes)
    requires b !in blobs
    ensures TotalSize(blobs + {b}) == TotalSize(blobs) + |b|
    decreases blobs
  {
    var more := blobs + {b};
    var x :| x in more && TotalSize(more) == |x| + TotalSize(more - {x});
    if x == b {
      assert more - {b} == blobs;
    } else {
      assert more - {x} == (blobs - {x}) + {b};
      TotalSizeGrows(blobs - {x}, b);
      TotalSizeGrows(blobs - {x}, x);
      assert (blobs - {x}) + {x} == blobs;
    }
  }

  /** Recovery is idempotent and keeps the invariant; it never drops a referenced blob. */
  lemma ReconciledKeeps(p: Portable)
    requires PortableInv(p)
    ensures PortableInv(Reconciled(p)) && Reconciled(Reconciled(p)) == Reconciled(p)
    ensures Reconcilable(Reconciled(p)) && Reconciled(p).blobs <= p.blobs
  {
    hide RunRelative, TotalSize;
    hide DistinctPaths, SingleMedia, Numbered;
  }

  /** The entry `e` committed as the next one. */
  function Extended(p: Portable, e: Entry): Portable {
    p.(entries := p.entries[e.sequence := e])
  }

  /** The limits hold with one more entry. */
  ghost predicate Admits(p: Portable, e: Entry) {
    && |p.entries| < MAX_ENTRIES && e.size <= MAX_MEMBER_BYTES
    && (forall k | k in p.entries && p.entries[k].blob == e.blob :: p.entries[k].media == e.media)
    && TotalSize(Referenced(p.entries) + {e.blob}) <= MAX_AGGREGATE_BYTES
    && |Referenced(p.entries) + {e.blob}| + |p.entries| + 1 <= MAX_TOTAL_FILES
  }

  lemma ExtendedKeeps(p: Portable, e: Entry)
    requires PortableInv(p) && p.entryTemps == [] && NextEntry(p, e) && Admits(p, e)
    ensures PortableInv(Extended(p, e)) && Referenced(Extended(p, e).entries) == Referenced(p.entries) + {e.blob}
    ensures |Extended(p, e).entries| == |p.entries| + 1
  {
    EntryOkMeans(e, |p.entries| + 1, p.blobs);
    hide EntryOk, TotalSize, DistinctPaths, SingleMedia, EntriesOk, Numbered, Referenced;
    ExtendedNumbered(p.entries, e);
    ReferencedGrows(p.entries, e);
    ExtendedEntries(p.entries, p.blobs, e);
    ExtendedLimits(p, e);
    hide WithinLimits, Admits, FreshPath;
  }

  lemma ExtendedLimits(p: Portable, e: Entry)
    requires WithinLimits(p.entries) && Admits(p, e) && |Extended(p, e).entries| == |p.entries| + 1
    requires Referenced(Extended(p, e).entries) == Referenced(p.entries) + {e.blob}
    ensures WithinLimits(Extended(p, e).entries)
  {
    hide TotalSize, Referenced;
  }

  lemma EntryOkMeans(e: Entry, sequence: nat, blobs: set<Bytes>)
    requires EntryOk(e, sequence, blobs)
    ensures e.sequence == sequence && e.blob in blobs
  {
  }

  lemma ExtendedNumbered(entries: map<nat, Entry>, e: Entry)
    requires Numbered(entries) && e.sequence == |entries| + 1
    ensures e.sequence !in entries && Numbered(entries[e.sequence := e]) && |entries[e.sequence := e]| == |entries| + 1
  {
    assert entries[e.sequence := e].Keys == entries.Keys + {e.sequence};
  }

  lemma ExtendedEntries(entries: map<nat, Entry>, blobs: set<Bytes>, e: Entry)
    requires e.sequence !in entries && FreshPath(entries, e.path)
    requires EntriesOk(entries, blobs) && DistinctPaths(entries) && SingleMedia(entries) && EntryOk(e, e.sequence, blobs)
    requires forall k | k in entries && entries[k].blob == e.blob :: entries[k].media == e.media
    ensures var more := entries[e.sequence := e]; EntriesOk(more, blobs) && DistinctPaths(more) && SingleMedia(more)
  {
    hide EntryOk;
    var more := entries[e.sequence := e];
    forall j, k | j in more && k in more && j != k
      ensures more[j].path != more[k].path
    {
    }
    forall j, k | j in more && k in more && more[j].blob == more[k].blob
      ensures more[j].media == more[k].media
    {
    }
  }

  lemma ReferencedGrows(entries: map<nat, Entry>, e: Entry)
    requires e.sequence !in entries
    ensures Referenced(entries[e.sequence := e]) == Referenced(entries) + {e.blob}
  {
    var more := entries[e.sequence := e];
    forall b | b in Referenced(entries) + {e.blob}
      ensures b in Referenced(more)
    {
      if b == e.blob {
        assert more[e.sequence].blob == b;
      } else {
        var k :| k in entries && entries[k].blob == b;
        assert more[k].blob == b;
      }
    }
  }

  function Range(n: nat): (r: set<nat>)
    ensures |r| == n && forall k :: k in r <==> 1 <= k <= n
  {
    if n == 0 then {} else Range(n - 1) + {n}
  }

  lemma AllPresent(entries: map<nat, Entry>)
    requires forall k | 1 <= k <= |entries| :: k in entries
    ensures Numbered(entries)
  {
    var range := Range(|entries|);
    assert range <= entries.Keys;
    SubsetOfSameSize(range, entries.Keys);
  }

  lemma {:induction false} SubsetOfSameSize(a: set<nat>, b: set<nat>)
    requires a <= b && |a| == |b|
    ensures a == b
    decreases a
  {
    if a == {} {
      assert b == {};
    } else {
      var x :| x in a;
      SubsetOfSameSize(a - {x}, b - {x});
      assert a == (a - {x}) + {x} && b == (b - {x}) + {x};
    }
  }

  /** Load the committed entries in order, checking each against the policy and its blob. */
  method LoadEntries(p: Portable) returns (ok: bool)
    ensures ok <==> Committed(p)
  {
    hide EntryOk;
    var seen: set<string> := {};
    for index := 1 to |p.entries| + 1
      invariant forall k | 1 <= k < index :: k in p.entries && EntryOk(p.entries[k], k, p.blobs)
      invariant forall k | 1 <= k < index :: p.entries[k].path in seen
      invariant forall path | path in seen :: exists k | 1 <= k < index :: p.entries[k].path == path
      invariant forall j, k | 1 <= j < k < index :: p.entries[j].path != p.entries[k].path
    {
      if index !in p.entries {
        return false;
      }
      var e := p.entries[index];
      if !EntryOk(e, index, p.blobs) || e.path in seen {
        return false;
      }
      seen := seen + {e.path};
    }
    AllPresent(p.entries);
    ok := RequireSingleMedia(p.entries);
  }

  /** Every blob is referenced under exactly one media type. */
  method RequireSingleMedia(entries: map<nat, Entry>) returns (ok: bool)
    requires Numbered(entries)
    ensures ok <==> SingleMedia(entries)
  {
    var mediaByBlob: map<Bytes, string> := map[];
    for index := 1 to |entries| + 1
      invariant forall k | 1 <= k < index :: entries[k].blob in mediaByBlob && mediaByBlob[entries[k].blob] == entries[k].media
      invariant forall b | b in mediaByBlob :: exists k | 1 <= k < index :: entries[k].blob == b && entries[k].media == mediaByBlob[b]
    {
      var e := entries[index];
      if e.blob in mediaByBlob {
        if mediaByBlob[e.blob] != e.media {
          return false;
        }
      } else {
        mediaByBlob := mediaByBlob[e.blob := e.media];
      }
    }
    return true;
  }

  /** The size of all referenced blobs together, each counted once, and how many they are. */
  method AggregateSize(entries: map<nat, Entry>) returns (blobs: set<Bytes>, size: nat)
    requires Numbered(entries) && forall k | k in entries :: entries[k].size == |entries[k].blob|
    ensures blobs == Referenced(entries) && size == TotalSize(blobs)
  {
    blobs, size := {}, 0;
    for index := 1 to |entries| + 1
      invariant blobs == (set k | k in entries && k < index :: entries[k].blob) && size == TotalSize(blobs)
    {
      var e := entries[index];
      ghost var before := blobs;
      if e.blob !in blobs {
        TotalSizeGrows(blobs, e.blob);
        blobs, size := blobs + {e.blob}, size + e.size;
      }
      assert forall k | k in entries && k < index + 1 :: k < index || k == index;
      assert blobs == before + {e.blob};
    }
  }

  lemma EntryTempRemoved(p: Portable)
    requires PortableInv(p)
    ensures PortableInv(p.(entryTemps := [])) && Reconciled(p.(entryTemps := [])) == Reconciled(p)
  {
    hide EntryOk, TotalSize;
  }

  lemma OrphanRemoved(p: Portable, b: Bytes)
    requires PortableInv(p) && p.entryTemps == [] && b !in Referenced(p.entries)
    ensures PortableInv(p.(blobs := p.blobs - {b})) && Reconciled(p.(blobs := p.blobs - {b})) == Reconciled(p)
  {
    hide TotalSize, RunRelative, DistinctPaths, SingleMedia, Numbered;
    assert forall k | k in p.entries :: p.entries[k].blob in Referenced(p.entries);
  }

  lemma BlobTempRemoved(p: Portable)
    requires PortableInv(p)
    ensures PortableInv(p.(blobTemps := [])) && Reconciled(p.(blobTemps := [])) == Reconciled(p)
  {
    hide EntryOk, TotalSize;
  }
}
