/** The files of one run: its active tree, its immutable record and its index, as values. Digests
    are modelled as the values they are digests of. */
module RunModel {
  import opened Outcomes
  import opened Checksums
  import opened PortableModel

  type RunId = nat
  type Inode = nat

  datatype RunState = Allocated | Active | Terminal
  datatype RunOutcome = Success | Failure | Interrupted

  datatype Event = Event(
    run: RunId,
    sequence: nat,
    previous: Option<Event>,
    from: Option<RunState>,
    to: RunState,
    outcome: Option<RunOutcome>,
    reason: Option<string>,
    timestamp: nat)

  datatype Status = Status(
    run: RunId,
    state: RunState,
    sequence: nat,
    last: Event,
    outcome: Option<RunOutcome>,
    reason: Option<string>)

  datatype Descriptor = Descriptor(run: RunId, inode: Inode, input: Bytes, resolved: Bytes)

  /** A writer temp of an event; no content means it does not parse. */
  datatype EventTemp = EventTemp(sequence: nat, content: Option<Event>)

  /** Evidence is written beside the control files, or in a subdirectory, where a writer temp left
      by a crash is not told apart from evidence. */
  datatype FileName = Written(path: Path) | NestedTemp(path: Path)

  datatype Tree = Tree(
    descriptor: Descriptor,
    input: Bytes,
    resolved: Bytes,
    events: map<nat, Event>,
    eventTemps: seq<EventTemp>,
    status: Option<Status>,
    statusTemps: nat,
    checksums: Option<Tree>,
    checksumTemps: nat,
    strayTemps: nat,
    files: map<FileName, Bytes>,
    portable: Portable)

  datatype Node = Node(inode: Inode, tree: Tree)

  datatype Index = Index(run: RunId, outcome: RunOutcome, record: Tree, terminal: Event, checksums: Tree, inode: Inode)

  datatype Disk = Disk(active: Option<Node>, record: Option<Tree>, index: Option<Index>)

  predicate Legal(from: Option<RunState>, to: RunState) {
    match from
    case None => to.Allocated?
    case Some(Allocated) => to.Active? || to.Terminal?
    case Some(Active) => to.Terminal?
    case Some(Terminal) => false
  }

  /** A terminal state has an outcome; any other state has neither outcome nor reason. */
  predicate MetadataOk(e: Event) {
    if e.to.Terminal? then e.outcome.Some? else e.outcome.None? && e.reason.None?
  }

  /** `e` is a legal next event after `last`. */
  predicate Follows(e: Event, run: RunId, last: Option<Event>) {
    && e.run == run && e.previous == last && MetadataOk(e)
    && e.sequence == (if last.None? then 1 else last.value.sequence + 1)
    && e.from == (if last.None? then None else Some(last.value.to))
    && Legal(e.from, e.to)
  }

  function Before(events: map<nat, Event>, k: nat): Option<Event> {
    if k <= 1 || k - 1 !in events then None else Some(events[k - 1])
  }

  predicate LinkAt(events: map<nat, Event>, run: RunId, k: nat) {
    k in events && Follows(events[k], run, Before(events, k))
  }

  /** Events 1 to n are a complete chain, and there are no others. */
  ghost predicate Chain(events: map<nat, Event>, run: RunId, n: nat) {
    && (forall k :: k in events <==> 1 <= k <= n)
    && (forall k | 1 <= k <= n :: LinkAt(events, run, k))
  }

  function Project(e: Event): Status {
    Status(e.run, e.to, e.sequence, e, e.outcome, e.reason)
  }

  /** Every evidence path may stand in the checksum file. */
  predicate Listable(t: Tree) {
    forall f | f in t.files :: RunRelative(f.path)
  }

  /** No evidence path breaks the line it is printed on. */
  predicate UnbrokenPaths(t: Tree) {
    forall f | f in t.files :: Unbroken(f.path)
  }

  /** Larger files are not read. */
  const MODEL_LIMIT := 64 * 1024 * 1024

  /** A checksum line: digest, two spaces, path, newline. */
  function LineBytes(path: nat): nat {
    64 + 2 + path + 1
  }

  /** The lines of the evidence files together. */
  ghost function EvidenceLines(files: set<FileName>): nat {
    if files == {} then 0
    else
      var f :| f in files;
      LineBytes(|Encode(f.path)|) + EvidenceLines(files - {f})
  }

  /** The lines of the control files, of `k` events, and of the portable entries with their blobs. */
  function ControlLines(entries: map<nat, Entry>, k: nat): nat {
    LineBytes(|"run.json"|) + LineBytes(|"status.json"|) + LineBytes(|"manifest.input.yaml"|) + LineBytes(|"manifest.resolved.yaml"|)
    + k * LineBytes(|"events/00000000.json"|) + |entries| * LineBytes(|"portable/entries/00000000.json"|)
    + |Referenced(entries)| * LineBytes(|"portable/blobs/"| + 64)
  }

  /** The manifests and the checksum file of the tree with `k` events are small enough to be read. */
  ghost predicate WithinRead(t: Tree, k: nat) {
    && |t.input| <= MODEL_LIMIT && |t.resolved| <= MODEL_LIMIT
    && ControlLines(t.portable.entries, k) + EvidenceLines(t.files.Keys) <= MODEL_LIMIT
  }

  /** Everything finalization reads back of the tree with `k` events can be read. */
  ghost predicate Readable(t: Tree, k: nat) {
    UnbrokenPaths(t) && WithinRead(t, k)
  }

  lemma {:induction false} LinesGrow(files: set<FileName>, f: FileName)
    requires f !in files
    ensures EvidenceLines(files + {f}) == EvidenceLines(files) + LineBytes(|Encode(f.path)|)
    decreases files
  {
    hide Encode;
    var more := files + {f};
    var x :| x in more && EvidenceLines(more) == LineBytes(|Encode(x.path)|) + EvidenceLines(more - {x});
    if x == f {
      assert more - {f} == files;
    } else {
      assert more - {x} == (files - {x}) + {f};
      LinesGrow(files - {x}, f);
      LinesGrow(files - {x}, x);
      assert (files - {x}) + {x} == files;
    }
  }

  lemma NoLines()
    ensures EvidenceLines({}) == 0
  {
  }

  /** How long the checksum file is. */
  method ListingBytes(t: Tree, k: nat) returns (bytes: nat)
    ensures bytes == ControlLines(t.portable.entries, k) + EvidenceLines(t.files.Keys)
  {
    hide Encode, ControlLines, EvidenceLines, LineBytes;
    bytes := ControlLines(t.portable.entries, k);
    NoLines();
    var rest := t.files.Keys;
    ghost var done: set<FileName> := {};
    while rest != {}
      invariant rest + done == t.files.Keys && rest !! done
      invariant bytes == ControlLines(t.portable.entries, k) + EvidenceLines(done)
    {
      var f :| f in rest;
      LinesGrow(done, f);
      bytes, rest, done := bytes + LineBytes(|Encode(f.path)|), rest - {f}, done + {f};
    }
    assert done == t.files.Keys;
  }

  /** Everything in the tree but the checksum file itself. */
  function Payload(t: Tree): Tree {
    t.(checksums := None)
  }

  /** The tree as finalization leaves it when its last event is `e`. */
  function Final(t: Tree, e: Event): Tree {
    var clean := t.(eventTemps := [], status := Some(Project(e)), statusTemps := 0, checksumTemps := 0,
                    portable := Reconciled(t.portable), checksums := None);
    clean.(checksums := Some(clean))
  }

  /** The events are a chain of length n, and the status lags behind it by at most one. */
  ghost predicate Journaled(t: Tree, run: RunId, n: nat) {
    && n >= 1 && Chain(t.events, run, n)
    && t.status.Some?
    && (t.status.value == Project(t.events[n]) || (n >= 2 && t.status.value == Project(t.events[n - 1])))
  }

  /** At most one event temp, left by a write of the event after the recorded status. */
  ghost predicate TempsOk(t: Tree, run: RunId, n: nat)
    requires n in t.events
  {
    && |t.eventTemps| <= 1
    && (t.eventTemps != [] ==>
          && t.status == Some(Project(t.events[n])) && t.eventTemps[0].sequence == n + 1
          && (t.eventTemps[0].content.Some? ==> Follows(t.eventTemps[0].content.value, run, Some(t.events[n]))))
  }

  /** What an active tree satisfies after any crash; n is the number of durable events. */
  ghost predicate TreeInv(t: Tree, run: RunId, n: nat) {
    && t.descriptor.run == run && t.descriptor.input == t.input && t.descriptor.resolved == t.resolved
    && Journaled(t, run, n) && TempsOk(t, run, n) && PortableInv(t.portable)
    && (t.checksums.Some? ==> t.events[n].to.Terminal? && t == Final(t, t.events[n]) && Listable(t))
  }

  /** What finalization publishes as the record. */
  ghost predicate FinalRecord(t: Tree, run: RunId, n: nat) {
    TreeInv(t, run, n) && t.checksums.Some? && t.strayTemps == 0 && t.events[n].outcome.Some?
  }

  function IndexOf(t: Tree, e: Event): Index
    requires t.checksums.Some? && e.outcome.Some?
  {
    Index(t.descriptor.run, e.outcome.value, t, e, t.checksums.value, t.descriptor.inode)
  }

  /** The tree whose evidence the disk holds: the active one until the index names the record. */
  function Holding(d: Disk): Tree
    requires if d.index.Some? then d.record.Some? else d.active.Some?
  {
    if d.index.Some? then d.record.value else d.active.value.tree
  }

  /** What the disk satisfies between any two disk steps. */
  ghost predicate DiskInv(d: Disk, run: RunId, n: nat) {
    if d.index.None? then
      && d.active.Some? && TreeInv(d.active.value.tree, run, n)
      && d.active.value.inode == d.active.value.tree.descriptor.inode
      && (d.record.Some? ==> FinalRecord(d.record.value, run, n) && d.record.value == d.active.value.tree)
    else
      && d.record.Some? && FinalRecord(d.record.value, run, n) && Readable(d.record.value, n)
      && d.index.value == IndexOf(d.record.value, d.record.value.events[n])
      && (d.active.Some? ==> d.active.value.inode == d.index.value.inode)
  }

  /** Nothing durable is lost: manifests, committed evidence, portable entries with their blobs,
      and events are kept. */
  ghost predicate Kept(a: Tree, b: Tree) {
    && b.descriptor == a.descriptor && b.input == a.input && b.resolved == a.resolved
    && (forall f | f in a.files && !f.NestedTemp? :: f in b.files && b.files[f] == a.files[f])
    && (forall k | k in a.portable.entries :: k in b.portable.entries && b.portable.entries[k] == a.portable.entries[k])
    && (forall k | k in a.events :: k in b.events && b.events[k] == a.events[k])
  }

  /** From a durable terminal event on, the final record is settled. */
  ghost predicate Settles(a: Tree, n: nat, b: Tree, m: nat)
    requires n in a.events && m in b.events
  {
    a.events[n].to.Terminal? ==> m == n && Final(b, b.events[m]) == Final(a, a.events[n])
  }

  /** One or more steps of the same run. */
  ghost predicate Step(a: Disk, n: nat, b: Disk, m: nat, run: RunId)
    requires DiskInv(a, run, n)
  {
    && DiskInv(b, run, m) && n <= m && Kept(Holding(a), Holding(b)) && Settles(Holding(a), n, Holding(b), m)
  }

  lemma StepReflexive(a: Disk, n: nat, run: RunId)
    requires DiskInv(a, run, n)
    ensures Step(a, n, a, n, run)
  {
  }

  lemma StepTransitive(a: Disk, n: nat, b: Disk, m: nat, c: Disk, k: nat, run: RunId)
    requires DiskInv(a, run, n) && Step(a, n, b, m, run) && Step(b, m, c, k, run)
    ensures Step(a, n, c, k, run)
  {
    KeptTransitive(Holding(a), Holding(b), Holding(c));
    hide Kept, Final, Follows, PortableInv;
    assert Settles(Holding(a), n, Holding(b), m) && Settles(Holding(b), m, Holding(c), k);
    SameLast(Holding(a), n, Holding(b), m);
  }

  lemma SameLast(a: Tree, n: nat, b: Tree, m: nat)
    requires n in a.events && m in b.events && Settles(a, n, b, m) && Kept(a, b)
    ensures a.events[n].to.Terminal? ==> m == n && b.events[m] == a.events[n]
  {
  }

  lemma KeptTransitive(a: Tree, b: Tree, c: Tree)
    requires Kept(a, b) && Kept(b, c)
    ensures Kept(a, c)
  {
  }

  /** One or more steps inside the active tree. */
  ghost predicate TreeStep(a: Tree, n: nat, b: Tree, m: nat, run: RunId)
    requires TreeInv(a, run, n)
  {
    TreeInv(b, run, m) && n <= m && Kept(a, b) && Settles(a, n, b, m)
  }

  /** While nothing but the active tree exists, a step inside it is a step of the disk. */
  lemma TreeStepIsStep(d: Disk, n: nat, t: Tree, m: nat, run: RunId)
    requires DiskInv(d, run, n) && d.index.None? && d.record.None?
    requires TreeStep(d.active.value.tree, n, t, m, run)
    ensures Step(d, n, d.(active := Some(Node(d.active.value.inode, t))), m, run)
  {
    hide Follows, PortableInv, Chain;
  }

  lemma FollowsOpen(t: Tree, run: RunId, n: nat, e: Event)
    requires TreeInv(t, run, n) && Follows(e, run, Some(t.events[n]))
    ensures !t.events[n].to.Terminal? && t.checksums.None? && e.sequence == n + 1
  {
    assert LinkAt(t.events, run, n);
    ChainSequence(t.events, run, n, n);
  }

  lemma {:induction false} ChainSequence(events: map<nat, Event>, run: RunId, n: nat, k: nat)
    requires Chain(events, run, n) && 1 <= k <= n
    ensures events[k].sequence == k
  {
    if k > 1 {
      ChainSequence(events, run, n, k - 1);
    }
    assert LinkAt(events, run, k);
  }

  /** The shape of every chain: allocated first, ended by its only terminal event, never more than three
      events; only the terminal one has an outcome or a reason. */
  lemma ChainShape(events: map<nat, Event>, run: RunId, n: nat, k: nat)
    requires Chain(events, run, n) && 1 <= k <= n
    ensures n <= 3 && (events[k].to.Allocated? <==> k == 1) && (events[k].to.Terminal? ==> k == n)
    ensures events[k].outcome.Some? <==> events[k].to.Terminal?
    ensures events[k].reason.Some? ==> events[k].to.Terminal?
    ensures events[k].previous == if k == 1 then None else Some(events[k - 1])
  {
    assert LinkAt(events, run, 1) && LinkAt(events, run, k);
    assert n >= 2 ==> LinkAt(events, run, 2);
    assert n >= 3 ==> LinkAt(events, run, 3);
    assert n >= 4 ==> LinkAt(events, run, 4);
    assert k < n ==> LinkAt(events, run, k + 1);
  }

  lemma EventTempCreated(t: Tree, run: RunId, n: nat, e: Event, whole: bool)
    requires TreeInv(t, run, n) && t.status == Some(Project(t.events[n])) && Follows(e, run, Some(t.events[n]))
    ensures TreeStep(t, n, t.(eventTemps := [EventTemp(n + 1, if whole then Some(e) else None)]), n, run)
  {
    FollowsOpen(t, run, n, e);
    hide Follows, PortableInv, Chain;
  }

  lemma EventCommitted(t: Tree, run: RunId, n: nat, e: Event)
    requires TreeInv(t, run, n) && t.status == Some(Project(t.events[n])) && Follows(e, run, Some(t.events[n]))
    ensures TreeStep(t, n, t.(eventTemps := [], events := t.events[n + 1 := e]), n + 1, run)
  {
    var u := t.(eventTemps := [], events := t.events[n + 1 := e]);
    FollowsOpen(t, run, n, e);
    ChainGrows(t.events, run, n, e);
    StillJournaled(t, run, n, e);
    hide Follows, PortableInv, Final, Project, LinkAt, Journaled;
    assert n + 1 !in t.events;
    hide Chain;
    assert Kept(t, u);
  }

  lemma StillJournaled(t: Tree, run: RunId, n: nat, e: Event)
    requires n >= 1 && n in t.events && t.status == Some(Project(t.events[n])) && Chain(t.events[n + 1 := e], run, n + 1)
    ensures Journaled(t.(eventTemps := [], events := t.events[n + 1 := e]), run, n + 1)
  {
    hide Chain;
  }

  lemma ChainGrows(events: map<nat, Event>, run: RunId, n: nat, e: Event)
    requires Chain(events, run, n) && n >= 1 && Follows(e, run, Some(events[n]))
    ensures Chain(events[n + 1 := e], run, n + 1)
  {
    hide Follows;
    var more := events[n + 1 := e];
    forall k | 1 <= k <= n
      ensures LinkAt(more, run, k)
    {
      assert LinkAt(events, run, k);
      assert more[k] == events[k] && Before(more, k) == Before(events, k);
    }
    assert LinkAt(more, run, n + 1);
  }

  lemma EventTempsRemoved(t: Tree, run: RunId, n: nat)
    requires TreeInv(t, run, n)
    ensures TreeStep(t, n, t.(eventTemps := []), n, run)
  {
    hide Follows, PortableInv, Chain;
  }

  lemma ControlTempsChanged(t: Tree, run: RunId, n: nat, statusTemps: nat, checksumTemps: nat)
    requires TreeInv(t, run, n)
    requires t.checksums.None? || (statusTemps == 0 && checksumTemps == 0)
    ensures TreeStep(t, n, t.(statusTemps := statusTemps, checksumTemps := checksumTemps), n, run)
  {
    hide Follows, PortableInv, Chain;
  }

  lemma StatusCommitted(t: Tree, run: RunId, n: nat, statusTemps: nat)
    requires TreeInv(t, run, n) && t.eventTemps == [] && t.checksums.None?
    ensures TreeStep(t, n, t.(status := Some(Project(t.events[n])), statusTemps := statusTemps), n, run)
  {
    hide Follows, PortableInv, Chain;
  }

  lemma PortableChanged(t: Tree, run: RunId, n: nat, q: Portable)
    requires TreeInv(t, run, n) && PortableInv(q)
    requires forall k | k in t.portable.entries :: k in q.entries && q.entries[k] == t.portable.entries[k]
    requires t.events[n].to.Terminal? ==> Reconciled(q) == Reconciled(t.portable)
    requires t.checksums.Some? ==> q == t.portable
    ensures TreeStep(t, n, t.(portable := q), n, run)
  {
    hide Follows, PortableInv, Chain;
  }

  lemma FilesChanged(t: Tree, run: RunId, n: nat, files: map<FileName, Bytes>, strayTemps: nat)
    requires TreeInv(t, run, n) && !t.events[n].to.Terminal?
    requires forall f | f in t.files && !f.NestedTemp? :: f in files && files[f] == t.files[f]
    ensures TreeStep(t, n, t.(files := files, strayTemps := strayTemps), n, run)
  {
    hide Follows, PortableInv, Chain;
  }

  /** Everything but the checksum file is as finalization leaves it. */
  predicate Clean(t: Tree) {
    && t.eventTemps == [] && t.statusTemps == 0 && t.checksumTemps == 0 && t.strayTemps == 0
    && t.portable == Reconciled(t.portable)
  }

  lemma ChecksumsCommitted(t: Tree, run: RunId, n: nat)
    requires TreeInv(t, run, n) && t.events[n].to.Terminal? && t.checksums.None?
    requires Clean(t.(checksumTemps := 0)) && t.status == Some(Project(t.events[n])) && Listable(t)
    ensures var u := t.(checksumTemps := 0); TreeStep(t, n, u.(checksums := Some(u)), n, run)
    ensures var u := t.(checksumTemps := 0); u.(checksums := Some(u)) == Final(t, t.events[n])
  {
    hide Follows, PortableInv, Chain;
  }

  predicate Linked(payloads: seq<Event>, run: RunId, k: nat)
    requires k < |payloads|
  {
    Follows(payloads[k], run, if k == 0 then None else Some(payloads[k - 1]))
  }

  /** An ordered list of events is a complete chain that projects onto `status`. */
  predicate ChainMatches(payloads: seq<Event>, run: RunId, status: Status) {
    && |payloads| == status.sequence && payloads != []
    && (forall k | 0 <= k < |payloads| :: Linked(payloads, run, k))
    && status == Project(payloads[|payloads| - 1]).(run := status.run)
  }

  /** Authenticate an ordered event chain and bind it to `status`. */
  method ValidateEventChain(payloads: seq<Event>, run: RunId, status: Status) returns (ok: bool)
    ensures ok <==> ChainMatches(payloads, run, status)
  {
    if |payloads| != status.sequence {
      return false;
    }
    var previous: Option<Event> := None;
    for index := 0 to |payloads|
      invariant previous == if index == 0 then None else Some(payloads[index - 1])
      invariant forall k | 0 <= k < index :: Linked(payloads, run, k)
      invariant index > 0 ==> payloads[index - 1].sequence == index
    {
      var e := payloads[index];
      assert Linked(payloads, run, index) <==> Follows(e, run, previous);
      if e.run != run || e.sequence != index + 1 || e.previous != previous || !MetadataOk(e)
        || e.from != (if previous.None? then None else Some(previous.value.to)) || !Legal(e.from, e.to) {
        return false;
      }
      previous := Some(e);
    }
    return previous.Some? && previous.value == status.last && previous.value.to == status.state
      && previous.value.outcome == status.outcome && previous.value.reason == status.reason;
  }

  /** The committed events of a tree are exactly the chain its status names. */
  ghost predicate ChainVerified(t: Tree, status: Status) {
    && t.eventTemps == [] && status.sequence >= 1
    && t.events.Keys == Range(status.sequence) && Chain(t.events, status.run, status.sequence)
    && status == Project(t.events[status.sequence])
  }

  method VerifyEventChain(t: Tree, status: Status) returns (ok: bool)
    ensures ok <==> ChainVerified(t, status)
  {
    if t.eventTemps != [] || t.events.Keys != Range(status.sequence) {
      return false;
    }
    var payloads: seq<Event> := [];
    for sequence := 1 to status.sequence + 1
      invariant |payloads| == sequence - 1 && forall k | 0 <= k < |payloads| :: payloads[k] == t.events[k + 1]
    {
      payloads := payloads + [t.events[sequence]];
    }
    ok := ValidateEventChain(payloads, status.run, status);
    ChainMatchesMeans(t, payloads, status);
  }

  lemma ChainMatchesMeans(t: Tree, payloads: seq<Event>, status: Status)
    requires t.eventTemps == [] && t.events.Keys == Range(status.sequence) && |payloads| == status.sequence
    requires forall k | 0 <= k < |payloads| :: payloads[k] == t.events[k + 1]
    ensures ChainMatches(payloads, status.run, status) <==> ChainVerified(t, status)
  {
    hide Follows;
    var run := status.run;
    forall k | 0 <= k < |payloads|
      ensures Before(t.events, k + 2) == Some(payloads[k])
    {
      assert k + 1 in Range(status.sequence);
    }
    assert forall k :: k in t.events <==> k in Range(status.sequence);
    if ChainMatches(payloads, run, status) {
      forall k | 1 <= k <= status.sequence
        ensures LinkAt(t.events, run, k)
      {
        LinkIs(t.events, payloads, run, k - 1);
        assert Linked(payloads, run, k - 1);
      }
      assert Linked(payloads, run, |payloads| - 1);
      LinkedRun(payloads, run, |payloads| - 1);
    }
    if ChainVerified(t, status) {
      forall k | 0 <= k < |payloads|
        ensures Linked(payloads, run, k)
      {
        LinkIs(t.events, payloads, run, k);
        assert LinkAt(t.events, run, k + 1);
      }
      assert payloads[|payloads| - 1] == t.events[|payloads| - 1 + 1];
    }
  }

  lemma LinkedRun(payloads: seq<Event>, run: RunId, k: nat)
    requires k < |payloads| && Linked(payloads, run, k)
    ensures payloads[k].run == run
  {
  }

  lemma LinkIs(events: map<nat, Event>, payloads: seq<Event>, run: RunId, k: nat)
    requires k < |payloads| && forall j | 0 <= j < |payloads| :: Before(events, j + 2) == Some(payloads[j])
    ensures LinkAt(events, run, k + 1) <==> Linked(payloads, run, k)
  {
    hide Follows;
    assert Before(events, k + 2) == Some(payloads[k]);
    if k > 0 {
      assert Before(events, k - 1 + 2) == Some(payloads[k - 1]);
    }
  }

  /** The complete semantic check of a record. */
  ghost predicate Verified(t: Tree, run: RunId) {
    && t.descriptor.run == run && t.descriptor.input == t.input && t.descriptor.resolved == t.resolved
    && t.status.Some? && t.status.value.run == run && t.status.value.state.Terminal? && t.status.value.outcome.Some?
    && ChainVerified(t, t.status.value)
    && t.checksums == Some(Payload(t)) && Listable(t) && Readable(t, t.status.value.sequence)
  }

  method VerifyFinalizedRecord(t: Tree, run: RunId) returns (ok: bool)
    ensures ok <==> Verified(t, run)
  {
    if t.descriptor.run != run || t.status.None? {
      return false;
    }
    var status := t.status.value;
    if status.run != run || !status.state.Terminal? || status.outcome.None? {
      return false;
    }
    if t.descriptor.input != t.input || t.descriptor.resolved != t.resolved {
      return false;
    }
    var chained := VerifyEventChain(t, status);
    if |t.input| > MODEL_LIMIT || |t.resolved| > MODEL_LIMIT || !chained || t.checksums != Some(Payload(t)) {
      return false;
    }
    var listing := ListingBytes(t, status.sequence);
    return listing <= MODEL_LIMIT && Listable(t) && UnbrokenPaths(t);
  }

  /** A published record passes the whole check exactly when its checksum file can be read back. */
  lemma FinalVerifies(t: Tree, run: RunId, n: nat)
    requires FinalRecord(t, run, n)
    ensures (Verified(t, run) <==> Readable(t, n)) && t.events[n].sequence == n && t.status.value.last == t.events[n]
  {
    ChainSequence(t.events, run, n, n);
    assert LinkAt(t.events, run, n);
    hide Follows, PortableInv;
    assert t.events.Keys == Range(n);
  }

  /** The checksum file of a tree parses back to the digests it was printed from exactly when
      no evidence path breaks a line. */
  lemma ReadableMeans(t: Tree, paths: seq<Path>, digests: map<Path, Digest>)
    requires Lists(paths, digests) && forall p | p in digests :: RunRelative(p) && IsSha256(digests[p])
    requires forall f | f in t.files :: f.path in digests
    requires forall p | p in digests :: Unbroken(p) || exists f | f in t.files :: f.path == p
    ensures Parsed(Print(paths, digests)) == Some(digests) <==> UnbrokenPaths(t)
  {
    hide Lists, Parsed, Print, RunRelative, IsSha256, Unbroken;
    RoundTrip(paths, digests);
  }

  lemma StatusSequence(t: Tree, run: RunId, n: nat)
    requires TreeInv(t, run, n)
    ensures t.status.value.run == run && t.status.value.sequence in t.events
    ensures t.status.value == Project(t.events[t.status.value.sequence])
    ensures t.status.value.sequence == n || (t.status.value.sequence == n - 1 && t.status.value != Project(t.events[n]))
  {
    ChainSequence(t.events, run, n, n);
    assert LinkAt(t.events, run, n);
    if n >= 2 {
      ChainSequence(t.events, run, n, n - 1);
      assert LinkAt(t.events, run, n - 1);
    }
    hide PortableInv, Final;
  }

  /** The journal of a sound tree passes its check once the status has caught up. */
  lemma JournalVerifies(t: Tree, run: RunId, n: nat)
    requires TreeInv(t, run, n) && t.eventTemps == [] && t.status == Some(Project(t.events[n]))
    ensures ChainVerified(t, t.status.value)
  {
    ChainSequence(t.events, run, n, n);
    assert LinkAt(t.events, run, n);
    hide Follows, PortableInv;
    assert t.events.Keys == Range(n);
  }

  lemma Sealed(t: Tree, run: RunId, n: nat)
    requires TreeInv(t, run, n) && t.checksums.Some? && t.strayTemps == 0
    ensures FinalRecord(t, run, n)
  {
    assert LinkAt(t.events, run, n);
  }

  lemma RecordPublished(d: Disk, n: nat, run: RunId)
    requires DiskInv(d, run, n) && d.index.None? && FinalRecord(d.active.value.tree, run, n)
    ensures Step(d, n, d.(record := Some(d.active.value.tree)), n, run)
  {
    hide Follows, PortableInv, Chain, Final, Project, Journaled, TempsOk;
  }

  lemma IndexPublished(d: Disk, n: nat, run: RunId)
    requires DiskInv(d, run, n) && d.index.None? && d.record.Some? && Readable(d.record.value, n)
    ensures FinalRecord(d.record.value, run, n)
    ensures Step(d, n, d.(index := Some(IndexOf(d.record.value, d.record.value.events[n]))), n, run)
  {
    hide Follows, PortableInv, Chain, Final, Project, Journaled, TempsOk;
  }

  /** Once indexed, anything may happen to the active tree. */
  lemma Removable(d: Disk, n: nat, run: RunId, active: Option<Node>)
    requires DiskInv(d, run, n) && d.index.Some?
    requires active.Some? ==> active.value.inode == d.index.value.inode
    ensures Step(d, n, d.(active := active), n, run)
  {
    hide Follows, PortableInv, Chain, Final;
  }
}
