/** The live session of a run: evidence writes and finalization, and every history of a run. */
module RunSession {
  import opened Outcomes
  import opened Checksums
  import opened PortableModel
  import opened RunModel
  import opened RunStore
  import opened TempPaths

  /** The request to `WritePortable` satisfies the closed policy and the limits. */
  ghost predicate Acceptable(p: Portable, path: Path, content: Bytes, media: string, role: string) {
    && role in ROLES && media in MEDIA_TYPES && RunRelative(path) && FreshPath(p.entries, path)
    && Admits(p, Entry(|p.entries| + 1, path, media, role, content, |content|))
  }

  /** The path goes through a file. */
  predicate Blocked(t: Tree, path: Path) {
    exists f | f in t.files :: Inside(path, f.path)
  }

  /** The path is a file, or a directory that holds one. */
  predicate Taken(t: Tree, path: Path) {
    exists f | f in t.files :: f.path == path || Inside(f.path, path)
  }

  /** The tree with a writer temp for evidence at `path`, beside it. */
  function Staged(t: Tree, path: Path, token: string, partial: Bytes): Tree {
    if '/' in path then t.(files := t.files[NestedTemp(TempPath(path, token)) := partial]) else t.(strayTemps := 1)
  }

  lemma EvidenceSteps(t: Tree, run: RunId, n: nat, path: Path, content: Bytes, token: string, partial: Bytes)
    requires TreeInv(t, run, n) && !t.events[n].to.Terminal? && t.strayTemps == 0
    requires NestedTemp(TempPath(path, token)) !in t.files
    requires Written(path) in t.files ==> content == t.files[Written(path)]
    ensures TreeStep(t, n, Staged(t, path, token, partial), n, run)
    ensures TreeStep(Staged(t, path, token, partial), n, t.(files := t.files[Written(path) := content]), n, run)
    ensures TreeStep(Staged(t, path, token, partial), n, t, n, run)
    ensures TempCount(Staged(t, path, token, partial)) <= TempCount(t) + 1
  {
    hide TreeStep;
    var staged := Staged(t, path, token, partial);
    FilesChanged(t, run, n, staged.files, staged.strayTemps);
    assert staged == t.(files := staged.files, strayTemps := staged.strayTemps);
    TreeStepMeans(t, n, staged, run);
    var files := t.files[Written(path) := content];
    hide TreeInv;
    FilesChanged(staged, run, n, files, 0);
    assert staged.(files := files, strayTemps := 0) == t.(files := files);
    FilesChanged(staged, run, n, t.files, 0);
    assert staged.(files := t.files, strayTemps := 0) == t;
  }

  lemma TreeStepMeans(t: Tree, n: nat, u: Tree, run: RunId)
    requires TreeInv(t, run, n) && TreeStep(t, n, u, n, run)
    ensures TreeInv(u, run, n)
  {
  }

  /** A portable write that stopped: writer temps and the new blob may be there, and the entry is not
      committed. */
  predicate Unfinished(before: Tree, after: Tree, content: Bytes) {
    && after == before.(portable := after.portable)
    && after.portable.entries == before.portable.entries
    && (after.portable.blobs == before.portable.blobs || after.portable.blobs == before.portable.blobs + {content})
  }

  /** A torn writer temp, or one at the run root that is no control file's. */
  predicate Torn(t: Tree) {
    || t.strayTemps > 0
    || (exists temp | temp in t.eventTemps :: temp.content.None?)
    || (exists temp | temp in t.portable.entryTemps :: temp.content.None?)
    || (exists temp | temp in t.portable.blobTemps :: temp.content != temp.name)
  }

  /** After one crash, recovery is blocked by nothing but a torn temp or a path the checksum file
      cannot hold. */
  lemma OneCrashRecovers(t: Tree, run: RunId, n: nat, terminal: bool, alive: bool)
    requires TreeInv(t, run, n) && TempCount(t) <= 1 && !Torn(t)
    ensures Recoverable(t, n, terminal, alive) <==>
      (terminal || !alive ==> Listable(t) && Readable(t, if terminal then n else n + 1))
  {
    hide Follows, Chain, Committed, WithinLimits, NextEntry, Final, Listable, Readable;
    var p := t.portable;
    assert forall temp | temp in p.entryTemps :: temp.sequence == |p.entries| + 1;
    NotCommitted(p);
  }

  lemma NotCommitted(p: Portable)
    requires PortableInv(p)
    ensures |p.entries| + 1 !in p.entries
  {
  }

  /** A session that stops while it writes `path` leaves a tree that can be finalized exactly when the
      path is nested, short enough for its temp, and breaks no line. */
  lemma CrashedWrite(t: Tree, path: Path, token: string, partial: Bytes, k: nat)
    requires TempCount(t) == 0 && Listable(t) && Readable(t, k) && RunRelative(path) && IsToken(token)
    ensures Finalizable(Staged(t, path, token, partial), k) <==>
      '/' in path && |Encode(path)| + TEMP_BYTES <= MAX_PATH_BYTES && Unbroken(path) && WithinRead(Staged(t, path, token, partial), k)
  {
    hide RunRelative, Unbroken, Encode, TempPath;
    TempRelative(path, token);
    var staged := Staged(t, path, token, partial);
    if '/' in path {
      var temp := NestedTemp(TempPath(path, token));
      assert temp in staged.files;
      NoTempsReconcile(staged);
    }
  }

  /** Evidence whose path breaks a line can be written, and then the run can never be finalized. */
  lemma BrokenPathBlocks(t: Tree, path: Path, k: nat)
    requires Written(path) in t.files && !Unbroken(path)
    ensures !Finalizable(t, k)
    ensures RunRelative("a\U{2028}") && !Unbroken("a\U{2028}")
  {
    var p := "a\U{2028}";
    OneComponent(p);
    assert |Encode(p)| == 4;
    assert p[1] in p && IsBreak(p[1]);
  }

  /** So is a run whose manifests or checksum file are larger than what finalization reads. */
  lemma LargeFilesBlock(t: Tree, k: nat)
    ensures |t.input| > MODEL_LIMIT || |t.resolved| > MODEL_LIMIT ==> !Finalizable(t, k)
    ensures ControlLines(t.portable.entries, k) + EvidenceLines(t.files.Keys) > MODEL_LIMIT ==> !Finalizable(t, k)
  {
  }

  /** A torn event blocks every recovery; two status temps, left by two crashes in a row, block
      closing the run. */
  lemma TornBlocks(t: Tree, n: nat, terminal: bool, alive: bool)
    ensures (exists temp | temp in t.eventTemps :: temp.content.None?) ==> !Recoverable(t, n, terminal, alive)
    ensures t.statusTemps == 2 && (terminal || !alive) ==> !Recoverable(t, n, terminal, alive)
    ensures t.strayTemps > 0 && (terminal || !alive) ==> !Recoverable(t, n, terminal, alive)
  {
  }

  /** From a durable terminal event on, crashes change nothing: whatever steps and recoveries follow,
      the record is the final form of the tree as it was, closed by that event. */
  lemma CrashesChangeNothing(a: Disk, n: nat, b: Disk, m: nat, record: Tree, k: nat, run: RunId)
    requires DiskInv(a, run, n) && a.index.None? && a.active.value.tree.events[n].to.Terminal?
    requires Step(a, n, b, m, run)
    requires k in record.events && FinishedAs(b, m, record, k, run)
    ensures k == n && record == Final(a.active.value.tree, a.active.value.tree.events[n])
  {
    hide Follows, PortableInv, Chain;
    SameLast(Holding(a), n, Holding(b), m);
    if b.index.Some? {
      assert record == Final(record, record.events[m]);
    }
  }

  class RunSession {
    const store: RunStore
    var status: Status
    var finalized: bool

    constructor (store: RunStore, status: Status)
      ensures this.store == store && this.status == status && !finalized
    {
      this.store := store;
      this.status := status;
      finalized := false;
    }

    /** The session owns an active tree without writer temps and knows its status. */
    ghost predicate Live()
      reads this, store
    {
      && store.Open() && !finalized && TempCount(store.Held()) == 0 && Listable(store.Held()) && !Ended(store.Held(), store.n)
      && store.Held().status == Some(status) && status == Project(store.Held().events[store.n]) && status.state.Active?
    }

    lemma LiveFacts()
      requires Live()
      ensures store.Held().eventTemps == [] && store.Held().portable.entryTemps == [] && store.Held().portable.blobTemps == []
      ensures store.Held().checksums.None? && TreeInv(store.Held(), store.run, store.n) && !store.Held().events[store.n].to.Terminal?
      ensures PortableInv(store.Held().portable)
    {
      store.Facts();
      store.EventFacts();
    }

    /** Write one evidence file through a writer temp, without replacing. */
    method WriteEvidence(path: Path, content: Bytes, token: string) returns (r: Outcome<()>)
      requires Live() && IsToken(token) && NestedTemp(TempPath(path, token)) !in store.Held().files
      modifies store
      ensures store.Open() && Step(old(store.disk), old(store.n), store.disk, store.n, store.run) && store.n == old(store.n)
      ensures (r.Crashed? ==> store.budget == 0) && TempCount(store.Held()) <= 1
      ensures r.Raised? ==> !RunRelative(path) || Blocked(old(store.Held()), path) || Taken(old(store.Held()), path)
      ensures r.Done? ==> RunRelative(path) && !Blocked(old(store.Held()), path) && !Taken(old(store.Held()), path)
      ensures !r.Crashed? ==> Live()
      ensures r.Raised? ==> store.disk == old(store.disk)
      ensures r.Done? ==> store.Held() == old(store.Held()).(files := old(store.Held()).files[Written(path) := content])
      ensures r.Crashed? ==> store.Held() == old(store.Held()) || exists partial :: store.Held() == Staged(old(store.Held()), path, token, partial)
    {
      hide DiskInv, Step, TreeStep, TreeInv, RunRelative, TempPath, Inside;
      LiveFacts();
      store.Stay();
      var t := store.disk.active.value.tree;
      if !RunRelative(path) || Blocked(t, path) {
        return Raised;
      }
      ghost var d0, n := store.disk, store.n;
      var partial: Bytes :| true;
      ghost var there := if Written(path) in t.files then t.files[Written(path)] else content;
      EvidenceSteps(t, store.run, n, path, there, token, partial);
      var _ :- store.WriteTree(Staged(t, path, token, partial), n);
      ghost var d1 := store.disk;
      if Taken(t, path) {
        r := store.WriteTree(t, n);
        StepTransitive(d0, n, d1, n, store.disk, n, store.run);
        return if r.Crashed? then Crashed else Raised;
      }
      r := store.WriteTree(t.(files := t.files[Written(path) := content]), n);
      StepTransitive(d0, n, d1, n, store.disk, n, store.run);
    }

    /** Publish one portable entry: its blob, unless there already, then the entry itself. */
    method WritePortable(path: Path, content: Bytes, media: string, role: string) returns (r: Outcome<Entry>)
      requires Live()
      modifies store
      ensures store.Open() && Step(old(store.disk), old(store.n), store.disk, store.n, store.run) && store.n == old(store.n)
      ensures (r.Crashed? ==> store.budget == 0) && TempCount(store.Held()) <= 1
      ensures r.Raised? ==> !Acceptable(old(store.Held()).portable, path, content, media, role) && store.disk == old(store.disk)
      ensures !r.Crashed? ==> Live()
      ensures r.Done? ==>
        && var p := old(store.Held()).portable;
        && Acceptable(p, path, content, media, role)
        && r.value == Entry(|p.entries| + 1, path, media, role, content, |content|)
        && store.Held() == old(store.Held()).(portable := p.(entries := p.entries[|p.entries| + 1 := r.value], blobs := p.blobs + {content}))
      ensures r.Crashed? ==> Unfinished(old(store.Held()), store.Held(), content)
    {
      hide DiskInv, Step, TreeStep, TreeInv, PortableInv, Admits, RunRelative, FreshPath, NextEntry;
      LiveFacts();
      store.Stay();
      var p := store.disk.active.value.tree.portable;
      var e := Entry(|p.entries| + 1, path, media, role, content, |content|);
      var accepted := Check(p, e);
      if !accepted {
        return Raised;
      }
      ghost var d0, n := store.disk, store.n;
      var _ :- PublishBlob(content);
      ghost var d1 := store.disk;
      MorePortable(p, content, e);
      r := PublishEntry(e);
      StepTransitive(d0, n, d1, n, store.disk, n, store.run);
    }

    /** Every check a portable write makes before it touches the store. */
    method Check(p: Portable, e: Entry) returns (ok: bool)
      requires PortableInv(p) && e.sequence == |p.entries| + 1 && e.size == |e.blob|
      ensures ok <==> Acceptable(p, e.path, e.blob, e.media, e.role)
    {
      hide RunRelative, TotalSize, Referenced, DistinctPaths, SingleMedia;
      if e.role !in ROLES || e.media !in MEDIA_TYPES || !RunRelative(e.path) || e.size > MAX_MEMBER_BYTES {
        return false;
      }
      var loaded := LoadEntries(p);
      if !loaded || !FreshPath(p.entries, e.path) || |p.entries| >= MAX_ENTRIES {
        return false;
      }
      if exists k | k in p.entries :: p.entries[k].blob == e.blob && p.entries[k].media != e.media {
        return false;
      }
      ok := CheckLimits(p.entries, e);
    }

    /** The aggregate limits, each blob counted once. */
    method CheckLimits(entries: map<nat, Entry>, e: Entry) returns (ok: bool)
      requires Numbered(entries) && (forall k | k in entries :: entries[k].size == |entries[k].blob|) && e.size == |e.blob|
      ensures ok <==>
        && TotalSize(Referenced(entries) + {e.blob}) <= MAX_AGGREGATE_BYTES
        && |Referenced(entries) + {e.blob}| + |entries| + 1 <= MAX_TOTAL_FILES
    {
      hide Referenced, TotalSize;
      var blobs, size := AggregateSize(entries);
      if e.blob !in blobs {
        TotalSizeGrows(blobs, e.blob);
        blobs, size := blobs + {e.blob}, size + e.size;
      } else {
        assert blobs + {e.blob} == blobs;
      }
      return size <= MAX_AGGREGATE_BYTES && |blobs| + |entries| + 1 <= MAX_TOTAL_FILES;
    }

    /** Write a blob under its digest, unless it is already there. */
    method PublishBlob(content: Bytes) returns (r: Outcome<()>)
      requires Live()
      modifies store
      ensures store.Open() && Step(old(store.disk), old(store.n), store.disk, store.n, store.run) && store.n == old(store.n)
      ensures !r.Raised? && (r.Crashed? ==> store.budget == 0) && TempCount(store.Held()) <= 1
      ensures r.Done? ==>
        && Live()
        && store.Held() == old(store.Held()).(portable := old(store.Held()).portable.(blobs := old(store.Held()).portable.blobs + {content}))
      ensures r.Crashed? ==> Unfinished(old(store.Held()), store.Held(), content)
    {
      hide DiskInv, Step, TreeStep, TreeInv, PortableInv;
      LiveFacts();
      store.Stay();
      var t := store.disk.active.value.tree;
      if content in t.portable.blobs {
        assert t.portable.blobs + {content} == t.portable.blobs;
        return Done(());
      }
      ghost var d0, n := store.disk, store.n;
      var partial: Bytes :| true;
      BlobTempAdded(t.portable, content, partial);
      var _ :- store.WritePortable(t.portable.(blobTemps := [BlobTemp(content, partial)]));
      ghost var d1 := store.disk;
      BlobTempAdded(t.portable, content, content);
      var written := store.WritePortable(t.portable.(blobTemps := [BlobTemp(content, content)]));
      StepTransitive(d0, n, d1, n, store.disk, n, store.run);
      if written.Crashed? {
        return Crashed;
      }
      ghost var d2 := store.disk;
      BlobAdded(t.portable, content);
      r := store.WritePortable(t.portable.(blobs := t.portable.blobs + {content}));
      StepTransitive(d0, n, d2, n, store.disk, n, store.run);
    }

    /** Commit the next entry. */
    method PublishEntry(e: Entry) returns (r: Outcome<Entry>)
      requires Live() && NextEntry(store.Held().portable, e) && Admits(store.Held().portable, e)
      modifies store
      ensures store.Open() && Step(old(store.disk), old(store.n), store.disk, store.n, store.run) && store.n == old(store.n)
      ensures !r.Raised? && (r.Crashed? ==> store.budget == 0) && TempCount(store.Held()) <= 1
      ensures r.Done? ==>
        && r.value == e && Live()
        && store.Held() == old(store.Held()).(portable := Extended(old(store.Held()).portable, e))
      ensures r.Crashed? ==> Unfinished(old(store.Held()), store.Held(), e.blob)
    {
      hide DiskInv, Step, TreeStep, TreeInv, PortableInv, Admits, NextEntry;
      LiveFacts();
      var t := store.disk.active.value.tree;
      var p := t.portable;
      EntryTempAdded(p, e);
      ExtendedKeeps(p, e);
      ghost var d0, n := store.disk, store.n;
      var _ :- store.WritePortable(p.(entryTemps := [EntryTemp(e.sequence, None)]));
      ghost var d1 := store.disk;
      var written := store.WritePortable(p.(entryTemps := [EntryTemp(e.sequence, Some(e))]));
      StepTransitive(d0, n, d1, n, store.disk, n, store.run);
      if written.Crashed? {
        return Crashed;
      }
      ghost var d2 := store.disk;
      store.Facts();
      EntryCommits(p, e);
      PortableChanged(store.disk.active.value.tree, store.run, n, Extended(p, e));
      written := store.WriteTree(t.(portable := Extended(p, e)), n);
      StepTransitive(d0, n, d2, n, store.disk, n, store.run);
      return if written.Crashed? then Crashed else Done(e);
    }

    /** End the run with an outcome, then finalize it. */
    method Finalize(outcome: RunOutcome, reason: Option<string>, timestamp: nat) returns (r: Outcome<Index>)
      requires Live()
      modifies this, store
      ensures store.Inv() && Step(old(store.disk), old(store.n), store.disk, store.n, store.run)
      ensures (r.Crashed? ==> store.budget == 0) && finalized
      ensures r.Raised? ==> !Readable(old(store.Held()), old(store.n) + 1) && store.disk.index.None?
      ensures r.Done? ==> Readable(old(store.Held()), old(store.n) + 1)
      ensures store.disk.index.None? ==> TempCount(store.Held()) <= 1
      ensures r.Done? ==>
        && var e := Event(store.run, old(store.n) + 1, Some(old(store.Held()).events[old(store.n)]), Some(old(status).state), Terminal, Some(outcome), reason, timestamp);
        && store.n == old(store.n) + 1
        && store.disk == Disk(None, Some(Final(old(store.Held()).(events := old(store.Held()).events[store.n := e]), e)), Some(r.value))
        && r.value.outcome == outcome
    {
      hide DiskInv, Step, TreeStep, TreeInv, PortableInv, Reconcilable;
      LiveFacts();
      store.EventFacts();
      ghost var d0, n, t := store.disk, store.n, store.Held();
      finalized := true;
      var e := Event(store.run, status.sequence + 1, Some(status.last), Some(status.state), Terminal, Some(outcome), reason, timestamp);
      assert Follows(e, store.run, Some(t.events[n]));
      hide Follows;
      var _ :- store.PublishEvent(e);
      ghost var d1 := store.disk;
      NoTempsReconcile(store.Held());
      r := store.CompleteFinalization();
      StepTransitive(d0, n, d1, n + 1, store.disk, store.n, store.run);
    }
  }

  /** A run begins with its allocation and then its activation. */
  predicate Begins(events: map<nat, Event>, k: nat, run: RunId, created: nat, activated: nat)
    requires k in events
  {
    || (k == 1 && events[k] == Event(run, 1, None, None, Allocated, None, None, created))
    || (k == 2 && 1 in events && events[k] == Event(run, 2, Some(events[1]), Some(Allocated), Active, None, None, activated))
  }

  /** Allocate a run, whose staged tree appears whole, and mark it active. */
  method BeginRun(run: RunId, inode: Inode, input: Bytes, resolved: Bytes, created: nat, activated: nat, budget: nat)
    returns (store: RunStore, r: Outcome<RunSession>)
    ensures fresh(store) && store.Open() && store.run == run && !r.Raised?
    ensures store.Staged(inode, input, resolved)
    ensures forall k | k in store.Held().events :: Begins(store.Held().events, k, run, created, activated)
    ensures r.Crashed? ==> TempCount(store.Held()) <= 1 && store.n <= 2
    ensures r.Done? ==>
      && fresh(r.value) && r.value.store == store && r.value.Live() && store.Held().events.Keys == {1, 2}
      && r.value.status.state.Active? && store.Held().status == Some(r.value.status)
  {
    store := new RunStore(run, inode, input, resolved, created);
    store.budget := budget;
    store.EventFacts();
    var e := Event(run, 2, Some(store.disk.active.value.tree.status.value.last), Some(Allocated), Active, None, None, activated);
    hide DiskInv, Step, TreeInv;
    var activated := store.PublishEvent(e);
    if activated.Crashed? {
      return store, Crashed;
    }
    var session := new RunSession(store, Project(e));
    return store, Done(session);
  }

  datatype Action =
    | Evidence(path: Path, content: Bytes, token: string)
    | PortableEvidence(path: Path, content: Bytes, media: string, role: string)

  /** The acknowledged writes are in the tree. */
  ghost predicate Acknowledged(files: map<FileName, Bytes>, entries: map<nat, Entry>, t: Tree) {
    && (forall f | f in files :: !f.NestedTemp? && f in t.files && t.files[f] == files[f])
    && (forall k | k in entries :: k in t.portable.entries && t.portable.entries[k] == entries[k])
  }

  lemma AcknowledgedStays(files: map<FileName, Bytes>, entries: map<nat, Entry>, a: Tree, b: Tree)
    requires Acknowledged(files, entries, a) && Kept(a, b)
    ensures Acknowledged(files, entries, b)
  {
  }

  lemma StepKeeps(a: Disk, n: nat, b: Disk, m: nat, run: RunId)
    requires DiskInv(a, run, n) && Step(a, n, b, m, run)
    ensures Kept(Holding(a), Holding(b))
  {
  }

  /** A whole history of a run: the session writes until it is finalized or the process stops
      anywhere; then processes recover the run, each stopping anywhere. Every write that was
      acknowledged is in the evidence the disk holds at the end. */
  method RunHistory(store: RunStore, session: RunSession, actions: seq<Action>, outcome: RunOutcome,
      reason: Option<string>, recoveries: seq<(nat, bool)>)
    returns (ghost files: map<FileName, Bytes>, ghost entries: map<nat, Entry>)
    requires session.store == store && session.Live()
    modifies session, store
    ensures store.Inv() && Step(old(store.disk), old(store.n), store.disk, store.n, store.run)
    ensures Acknowledged(files, entries, store.Held())
  {
    hide DiskInv, Step, Kept, Acknowledged;
    ghost var d0, n0 := store.disk, store.n;
    NothingAcknowledged(store.Held());
    files, entries := map[], map[];
    store.Stay();
    var crashed := false;
    var i := 0;
    while i < |actions| && !crashed
      invariant store.Inv() && Step(d0, n0, store.disk, store.n, store.run) && Acknowledged(files, entries, store.Held())
      invariant crashed || session.Live()
      decreases |actions| - i
    {
      ghost var d1, n1 := store.disk, store.n;
      crashed, files, entries := Perform(session, actions[i], files, entries);
      StepTransitive(d0, n0, d1, n1, store.disk, store.n, store.run);
      i := i + 1;
    }
    ghost var d2, n2, before := store.disk, store.n, store.Held();
    if !crashed {
      var _ := session.Finalize(outcome, reason, 0);
      StepTransitive(d0, n0, d2, n2, store.disk, store.n, store.run);
      StepKeeps(d2, n2, store.disk, store.n, store.run);
      AcknowledgedStays(files, entries, before, store.Held());
    }
    ghost var d3, n3 := store.disk, store.n;
    Recoveries(store, recoveries, files, entries);
    StepTransitive(d0, n0, d3, n3, store.disk, store.n, store.run);
  }

  lemma NothingAcknowledged(t: Tree)
    ensures Acknowledged(map[], map[], t)
  {
  }

  /** One write of the session. */
  method Perform(session: RunSession, action: Action, ghost files: map<FileName, Bytes>, ghost entries: map<nat, Entry>)
    returns (crashed: bool, ghost files': map<FileName, Bytes>, ghost entries': map<nat, Entry>)
    requires session.Live() && Acknowledged(files, entries, session.store.Held())
    modifies session.store
    ensures session.store.Inv() && (crashed || session.Live())
    ensures Step(old(session.store.disk), old(session.store.n), session.store.disk, session.store.n, session.store.run)
    ensures Acknowledged(files', entries', session.store.Held())
  {
    hide DiskInv, Step, Acknowledged;
    files', entries' := files, entries;
    match action {
      case Evidence(path, content, token) =>
        crashed, files' := PerformEvidence(session, path, content, token, files, entries);
      case PortableEvidence(path, content, media, role) =>
        crashed, entries' := PerformPortable(session, path, content, media, role, files, entries);
    }
  }

  method PerformEvidence(session: RunSession, path: Path, content: Bytes, token: string,
      ghost files: map<FileName, Bytes>, ghost entries: map<nat, Entry>)
    returns (crashed: bool, ghost files': map<FileName, Bytes>)
    requires session.Live() && Acknowledged(files, entries, session.store.Held())
    modifies session.store
    ensures session.store.Inv() && (crashed || session.Live())
    ensures Step(old(session.store.disk), old(session.store.n), session.store.disk, session.store.n, session.store.run)
    ensures Acknowledged(files', entries, session.store.Held())
  {
    hide DiskInv, Step, Kept;
    var store := session.store;
    ghost var d, n, held := store.disk, store.n, store.Held();
    store.Stay();
    crashed, files' := false, files;
    if !IsToken(token) || NestedTemp(TempPath(path, token)) in store.disk.active.value.tree.files {
      return;
    }
    var written := session.WriteEvidence(path, content, token);
    crashed := written.Crashed?;
    files' := if written.Done? then files[Written(path) := content] else files;
    StepKeeps(d, n, store.disk, store.n, store.run);
    AcknowledgedStays(files, entries, held, store.Held());
  }

  method PerformPortable(session: RunSession, path: Path, content: Bytes, media: string, role: string,
      ghost files: map<FileName, Bytes>, ghost entries: map<nat, Entry>)
    returns (crashed: bool, ghost entries': map<nat, Entry>)
    requires session.Live() && Acknowledged(files, entries, session.store.Held())
    modifies session.store
    ensures session.store.Inv() && (crashed || session.Live())
    ensures Step(old(session.store.disk), old(session.store.n), session.store.disk, session.store.n, session.store.run)
    ensures Acknowledged(files, entries', session.store.Held())
  {
    hide DiskInv, Step, Kept;
    var store := session.store;
    ghost var d, n, held := store.disk, store.n, store.Held();
    var written := session.WritePortable(path, content, media, role);
    crashed := written.Crashed?;
    entries' := if written.Done? then entries[|held.portable.entries| + 1 := written.value] else entries;
    StepKeeps(d, n, store.disk, store.n, store.run);
    AcknowledgedStays(files, entries, held, store.Held());
  }

  /** Any number of processes recover the run, each stopping wherever its budget ends. */
  method Recoveries(store: RunStore, recoveries: seq<(nat, bool)>, ghost files: map<FileName, Bytes>, ghost entries: map<nat, Entry>)
    requires store.Inv() && Acknowledged(files, entries, store.Held())
    modifies store
    ensures store.Inv() && Step(old(store.disk), old(store.n), store.disk, store.n, store.run)
    ensures Acknowledged(files, entries, store.Held())
  {
    hide DiskInv, Step, Kept, Acknowledged;
    ghost var d0, n0 := store.disk, store.n;
    store.Stay();
    for i := 0 to |recoveries|
      invariant store.Inv() && Step(d0, n0, store.disk, store.n, store.run) && Acknowledged(files, entries, store.Held())
    {
      ghost var d1, n1, held := store.disk, store.n, store.Held();
      store.budget := recoveries[i].0;
      var _ := store.Recover(recoveries[i].1, i);
      StepTransitive(d0, n0, d1, n1, store.disk, store.n, store.run);
      StepKeeps(d1, n1, store.disk, store.n, store.run);
      AcknowledgedStays(files, entries, held, store.Held());
    }
  }

  lemma NoTempsReconcile(t: Tree)
    ensures TempCount(t) == 0 ==> forall k :: Finalizable(t, k) <==> Listable(t) && Readable(t, k)
  {
  }

  lemma MorePortable(p: Portable, content: Bytes, e: Entry)
    requires PortableInv(p) && Acceptable(p, e.path, content, e.media, e.role) && e.blob == content && e.size == |content|
    requires e.sequence == |p.entries| + 1
    ensures NextEntry(p.(blobs := p.blobs + {content}), e) && Admits(p.(blobs := p.blobs + {content}), e)
    ensures Extended(p.(blobs := p.blobs + {content}), e) == p.(entries := p.entries[|p.entries| + 1 := e], blobs := p.blobs + {content})
  {
    hide RunRelative, TotalSize, Referenced, Committed;
    assert e == Entry(|p.entries| + 1, e.path, e.media, e.role, content, |content|);
  }

  lemma BlobTempAdded(p: Portable, name: Bytes, content: Bytes)
    requires PortableInv(p) && p.entryTemps == []
    ensures PortableInv(p.(blobTemps := [BlobTemp(name, content)]))
    ensures Reconciled(p.(blobTemps := [BlobTemp(name, content)])) == Reconciled(p)
  {
    hide TotalSize, EntryOk;
  }

  lemma BlobAdded(p: Portable, b: Bytes)
    requires PortableInv(p) && p.entryTemps == []
    ensures PortableInv(p.(blobs := p.blobs + {b})) && Reconciled(p.(blobs := p.blobs + {b})) == Reconciled(p)
  {
    hide TotalSize, RunRelative, DistinctPaths, SingleMedia, Numbered;
  }

  lemma EntryTempAdded(p: Portable, e: Entry)
    requires PortableInv(p) && p.entryTemps == [] && p.blobTemps == [] && NextEntry(p, e)
    ensures PortableInv(p.(entryTemps := [EntryTemp(e.sequence, None)])) && PortableInv(p.(entryTemps := [EntryTemp(e.sequence, Some(e))]))
    ensures Reconciled(p.(entryTemps := [EntryTemp(e.sequence, None)])) == Reconciled(p)
    ensures Reconciled(p.(entryTemps := [EntryTemp(e.sequence, Some(e))])) == Reconciled(p)
  {
    hide TotalSize, RunRelative, DistinctPaths, SingleMedia, Numbered;
  }

  lemma EntryCommits(p: Portable, e: Entry)
    requires PortableInv(p) && NextEntry(p, e)
    ensures forall k | k in p.entries :: k in Extended(p, e).entries && Extended(p, e).entries[k] == p.entries[k]
  {
    NotCommitted(p);
  }
}
