/** Finalizing and recovering one run, disk step by disk step. */
module RunStore {
  import opened Outcomes
  import opened PortableModel
  import opened RunModel

  /** All writer temps, wherever they are. */
  function TempCount(t: Tree): nat {
    |t.eventTemps| + t.statusTemps + t.checksumTemps + t.strayTemps + |t.portable.entryTemps| + |t.portable.blobTemps|
  }

  /** The run-root temps a finalization tolerates. */
  predicate ControlOk(t: Tree) {
    t.strayTemps == 0 && t.statusTemps <= 1 && t.checksumTemps <= 1
  }

  predicate EventTempsOk(t: Tree) {
    forall temp | temp in t.eventTemps :: temp.content.Some?
  }

  /** Finalization of this tree with `k` events succeeds: what it has to clean up is there at most once
      and not torn, and its manifests and the checksums of its evidence can be read back. */
  ghost predicate Finalizable(t: Tree, k: nat) {
    ControlOk(t) && Reconcilable(t.portable) && Listable(t) && Readable(t, k)
  }

  /** A recovery of this tree succeeds. */
  ghost predicate Recoverable(t: Tree, n: nat, terminal: bool, alive: bool) {
    EventTempsOk(t) && (terminal || !alive ==> Finalizable(t, if terminal then n else n + 1))
  }

  const OWNER_DEAD := "run-interrupted-owner-dead"

  /** The n-th event ends the run. */
  predicate Ended(t: Tree, n: nat) {
    n in t.events && t.events[n].to.Terminal?
  }

  /** The record a recovery finishes with: the indexed one, or the final form of the tree, closed by
      its own terminal event or else as interrupted. */
  ghost predicate FinishedAs(d: Disk, n: nat, record: Tree, m: nat, run: RunId)
    requires DiskInv(d, run, n) && m in record.events
  {
    if d.index.Some? then record == d.record.value && m == n
    else
      var t := d.active.value.tree;
      var e := record.events[m];
      if t.events[n].to.Terminal? then m == n && record == Final(t, t.events[n])
      else
        && m == n + 1 && Follows(e, run, Some(t.events[n])) && e.outcome == Some(Interrupted) && e.reason == Some(OWNER_DEAD)
        && record == Final(t.(events := t.events[m := e]), e)
  }

  class RunStore {
    const run: RunId
    var disk: Disk
    /** How many events are durable. */
    ghost var n: nat
    /** Disk steps this process still completes before it stops. */
    var budget: nat

    /** A freshly staged run: its whole initial tree appears by one rename. */
    constructor (run: RunId, inode: Inode, input: Bytes, resolved: Bytes, timestamp: nat)
      ensures this.run == run && n == 1 && Open() && TempCount(Held()) == 0 && Staged(inode, input, resolved)
      ensures Held().events == map[1 := Event(run, 1, None, None, Allocated, None, None, timestamp)]
      ensures Held().status == Some(Project(Held().events[1]))
    {
      this.run := run;
      var e := Event(run, 1, None, None, Allocated, None, None, timestamp);
      disk := Disk(
        Some(Node(inode, Tree(Descriptor(run, inode, input, resolved), input, resolved, map[1 := e], [], Some(Project(e)),
                              0, None, 0, 0, map[], Portable(map[], [], {}, [])))),
        None, None);
      n := 1;
      budget := 0;
      new;
      assert LinkAt(map[1 := e], run, 1);
      EmptyPortable();
    }

    ghost predicate Inv()
      reads this
    {
      DiskInv(disk, run, n)
    }

    /** The tree at this inode was begun with these manifests, each in its own file and bound by the
        descriptor, and it holds no evidence. */
    ghost predicate Staged(inode: Inode, input: Bytes, resolved: Bytes)
      reads this
      requires Pending()
    {
      && disk.active.value.inode == inode && Held().descriptor == Descriptor(run, inode, input, resolved)
      && Held().input == input && Held().resolved == resolved
      && Held().files == map[] && Held().portable == Portable(map[], [], {}, [])
    }

    /** The run is not indexed, so its evidence is in the active tree. */
    ghost predicate Pending()
      reads this
    {
      Inv() && disk.index.None? && disk.active.Some?
    }

    /** Only the active tree exists. */
    ghost predicate Open()
      reads this
    {
      Pending() && disk.record.None?
    }

    /** The tree the run's evidence is in. */
    ghost function Held(): Tree
      reads this
      requires Inv()
    {
      Holding(disk)
    }

    lemma Stay()
      requires Inv()
      ensures Step(disk, n, disk, n, run)
    {
      StepReflexive(disk, n, run);
    }

    /** Before the index there is either nothing but the active tree, or that tree is final. */
    lemma Facts()
      requires Pending()
      ensures TreeInv(disk.active.value.tree, run, n) && PortableInv(disk.active.value.tree.portable)
      ensures disk.active.value.tree.checksums.None? ==> Open()
      ensures var t := disk.active.value.tree;
        t.checksums.Some? ==> t == Final(t, t.events[n]) && t.portable == Reconciled(t.portable)
      ensures Referenced(disk.active.value.tree.portable.entries) <= disk.active.value.tree.portable.blobs
    {
      ReferencedThere(disk.active.value.tree.portable);
    }

    method Write(next: Disk, ghost m: nat) returns (r: Outcome<()>)
      requires Inv() && Step(disk, n, next, m, run)
      modifies this
      ensures Inv() && Step(old(disk), old(n), disk, n, run)
      ensures r == (if old(budget) == 0 then Crashed else Done(())) && (r.Crashed? ==> budget == 0)
      ensures r.Crashed? ==> disk == old(disk) && n == old(n)
      ensures r.Done? ==> disk == next && n == m
    {
      if budget == 0 {
        StepReflexive(disk, n, run);
        return Crashed;
      }
      budget := budget - 1;
      disk := next;
      n := m;
      return Done(());
    }

    /** Replace the active tree by one disk step. */
    method WriteTree(t: Tree, ghost m: nat) returns (r: Outcome<()>)
      requires Open() && TreeStep(disk.active.value.tree, n, t, m, run)
      modifies this
      ensures Open() && Step(old(disk), old(n), disk, n, run)
      ensures r == (if old(budget) == 0 then Crashed else Done(())) && (r.Crashed? ==> budget == 0)
      ensures r.Crashed? ==> disk == old(disk) && n == old(n)
      ensures r.Done? ==> disk == old(disk).(active := Some(Node(old(disk).active.value.inode, t))) && n == m
    {
      TreeStepIsStep(disk, n, t, m, run);
      hide DiskInv, Step, TreeStep;
      r := Write(disk.(active := Some(Node(disk.active.value.inode, t))), m);
    }

    /** Publish the next event, then its projection; each through a writer temp. */
    method PublishEvent(e: Event) returns (r: Outcome<()>)
      requires Open() && Held().eventTemps == [] && Held().status == Some(Project(Held().events[n]))
      requires Follows(e, run, Some(Held().events[n]))
      modifies this
      ensures Open() && Step(old(disk), old(n), disk, n, run) && !r.Raised? && (r.Crashed? ==> budget == 0)
      ensures n == old(n) || (n == old(n) + 1 && Held().events == old(Held()).events[n := e])
      ensures TempCount(Held()) <= TempCount(old(Held())) + 1
      ensures disk == old(disk).(active := Some(Node(old(disk).active.value.inode, Held())))
      ensures Held() == old(Held()).(
        events := Held().events, eventTemps := Held().eventTemps, status := Held().status, statusTemps := Held().statusTemps)
      ensures n == old(n) ==> Held().events == old(Held()).events
      ensures r.Done? ==> n == old(n) + 1 && Held() == old(Held()).(events := old(Held()).events[n := e], status := Some(Project(e)))
    {
      hide Follows, PortableInv, Chain, Kept, Settles, Final;
      ghost var d0, n0 := disk, n;
      var t := disk.active.value.tree;
      FollowsOpen(t, run, n, e);
      EventTempCreated(t, run, n, e, false);
      EventTempCreated(t, run, n, e, true);
      EventCommitted(t, run, n, e);
      var _ :- WriteTree(t.(eventTemps := [EventTemp(e.sequence, None)]), n);
      ghost var d1 := disk;
      ReplaceTemps(t, run, n, [EventTemp(e.sequence, None)], [EventTemp(e.sequence, Some(e))]);
      var written := WriteTree(t.(eventTemps := [EventTemp(e.sequence, Some(e))]), n);
      StepTransitive(d0, n0, d1, n0, disk, n, run);
      if written.Crashed? {
        return Crashed;
      }
      ghost var d2 := disk;
      ghost var m := n + 1;
      var u := t.(events := t.events[e.sequence := e]);
      CommitFromTemp(t, run, n, e);
      written := WriteTree(u, m);
      StepTransitive(d0, n0, d2, n0, disk, n, run);
      if written.Crashed? {
        return Crashed;
      }
      r := PublishStatus(Project(e));
      StepTransitive(d0, n0, d0.(active := Some(Node(d0.active.value.inode, u))), m, disk, n, run);
    }

    /** Replace the status projection by that of the last event. */
    method PublishStatus(status: Status) returns (r: Outcome<()>)
      requires Open() && Held().eventTemps == [] && Held().checksums.None?
      requires status == Project(Held().events[n])
      modifies this
      ensures Open() && Step(old(disk), old(n), disk, n, run) && !r.Raised? && (r.Crashed? ==> budget == 0) && n == old(n)
      ensures TempCount(Held()) <= TempCount(old(Held())) + 1
      ensures disk == old(disk).(active := Some(Node(old(disk).active.value.inode, Held())))
      ensures Held() == old(Held()).(status := Held().status, statusTemps := Held().statusTemps)
      ensures r.Done? ==> Held() == old(Held()).(status := Some(status))
    {
      hide Follows, PortableInv, Chain, Kept, Settles, Final;
      ghost var d0 := disk;
      var t := disk.active.value.tree;
      ControlTempsChanged(t, run, n, t.statusTemps + 1, t.checksumTemps);
      StatusCommitted(t, run, n, t.statusTemps);
      var u := t.(statusTemps := t.statusTemps + 1);
      var _ :- WriteTree(u, n);
      ghost var d1 := disk;
      StatusCommitted(u, run, n, t.statusTemps);
      assert u.(status := Some(status), statusTemps := t.statusTemps) == t.(status := Some(status));
      r := WriteTree(u.(status := Some(status), statusTemps := t.statusTemps), n);
      StepTransitive(d0, n, d1, n, disk, n, run);
    }

    /** Remove the run-root temps of atomic writers, each at most once. */
    method ReconcileControlTemps() returns (r: Outcome<()>)
      requires Pending()
      modifies this
      ensures Pending() && Step(old(disk), old(n), disk, n, run) && n == old(n) && (r.Crashed? ==> budget == 0)
      ensures r.Raised? ==> !ControlOk(old(Held()))
      ensures r.Done? ==> ControlOk(old(Held())) && Held() == old(Held()).(statusTemps := 0, checksumTemps := 0)
      ensures TempCount(Held()) <= TempCount(old(Held()))
    {
      hide DiskInv, Step, TreeStep;
      ghost var d0 := disk;
      Stay();
      Facts();
      var t := disk.active.value.tree;
      if t.strayTemps > 0 || t.statusTemps > 1 {
        return Raised;
      }
      if t.statusTemps == 1 {
        ControlTempsChanged(t, run, n, 0, t.checksumTemps);
        var _ :- WriteTree(t.(statusTemps := 0), n);
      }
      if t.checksumTemps > 1 {
        return Raised;
      }
      if t.checksumTemps == 1 {
        ghost var d1 := disk;
        ControlTempsChanged(disk.active.value.tree, run, n, 0, 0);
        r := WriteTree(disk.active.value.tree.(statusTemps := 0, checksumTemps := 0), n);
        StepTransitive(d0, n, d1, n, disk, n, run);
        return r;
      }
      return Done(());
    }

    /** Replace the portable store by one disk step. */
    method WritePortable(q: Portable) returns (r: Outcome<()>)
      requires Open() && Held().checksums.None? && PortableInv(q)
      requires q.entries == Held().portable.entries && Reconciled(q) == Reconciled(Held().portable)
      modifies this
      ensures Open() && Step(old(disk), old(n), disk, n, run) && n == old(n) && !r.Raised? && (r.Crashed? ==> budget == 0)
      ensures Held() == if r.Done? then old(Held()).(portable := q) else old(Held())
    {
      hide Step, TreeStep;
      PortableChanged(disk.active.value.tree, run, n, q);
      r := WriteTree(disk.active.value.tree.(portable := q), n);
    }

    /** Validate the portable entries, then remove what is not referenced by them. */
    method RecoverPortable() returns (r: Outcome<()>)
      requires Pending()
      modifies this
      ensures Pending() && Step(old(disk), old(n), disk, n, run) && n == old(n) && (r.Crashed? ==> budget == 0)
      ensures r.Raised? ==> !Reconcilable(old(Held()).portable)
      ensures r.Done? ==> Reconcilable(old(Held()).portable) && Held() == old(Held()).(portable := Reconciled(old(Held()).portable))
      ensures TempCount(Held()) <= TempCount(old(Held()))
    {
      hide DiskInv, Step, TreeStep, EntryTempOk, Committed;
      ghost var d0 := disk;
      Stay();
      Facts();
      var t := disk.active.value.tree;
      var p := t.portable;
      var loaded := LoadEntries(p);
      if !loaded || |p.entryTemps| > 1 {
        return Raised;
      }
      if |p.entryTemps| == 1 {
        if !EntryTempOk(p, p.entryTemps[0]) {
          return Raised;
        }
        EntryTempRemoved(p);
        var _ :- WritePortable(p.(entryTemps := []));
        p := p.(entryTemps := []);
      }
      if |p.blobTemps| > 1 {
        return Raised;
      }
      ghost var d1 := disk;
      r := RemoveOrphans();
      StepTransitive(d0, n, d1, n, disk, n, run);
      if !r.Done? || p.blobTemps == [] {
        return r;
      }
      if p.blobTemps[0].content != p.blobTemps[0].name {
        return Raised;
      }
      ghost var d2 := disk;
      Facts();
      var u := disk.active.value.tree;
      BlobTempRemoved(u.portable);
      r := WritePortable(u.portable.(blobTemps := []));
      StepTransitive(d0, n, d2, n, disk, n, run);
    }

    /** Remove one blob no entry references. */
    method RemoveOrphan(b: Bytes) returns (r: Outcome<()>)
      requires Pending() && Held().portable.entryTemps == []
      requires b in Held().portable.blobs && b !in Referenced(Held().portable.entries)
      modifies this
      ensures Pending() && Step(old(disk), old(n), disk, n, run) && n == old(n) && !r.Raised? && (r.Crashed? ==> budget == 0)
      ensures Held() == if r.Done? then WithBlobs(old(Held()), old(Held()).portable.blobs - {b}) else old(Held())
    {
      hide DiskInv, Step, TreeStep;
      var t := disk.active.value.tree;
      Facts();
      OrphanRemoved(t.portable, b);
      r := WritePortable(t.portable.(blobs := t.portable.blobs - {b}));
    }

    /** Remove every blob no entry references. */
    method RemoveOrphans() returns (r: Outcome<()>)
      requires Pending() && Held().portable.entryTemps == []
      modifies this
      ensures Pending() && Step(old(disk), old(n), disk, n, run) && n == old(n) && !r.Raised? && (r.Crashed? ==> budget == 0)
      ensures TempCount(Held()) == TempCount(old(Held()))
      ensures r.Done? ==> Held() == WithBlobs(old(Held()), Referenced(old(Held()).portable.entries))
    {
      hide DiskInv, Step, TreeInv, PortableInv, Committed, Referenced, TempCount, WithBlobs;
      ghost var d0, t := disk, disk.active.value.tree;
      Stay();
      Facts();
      SameBlobs(t);
      var referenced := Referenced(disk.active.value.tree.portable.entries);
      var orphans := disk.active.value.tree.portable.blobs - referenced;
      assert referenced + orphans == t.portable.blobs;
      while orphans != {}
        invariant Pending() && Step(d0, old(n), disk, n, run) && n == old(n) && orphans !! referenced
        invariant disk.active.value.tree == WithBlobs(t, referenced + orphans)
      {
        var b :| b in orphans;
        ghost var d1 := disk;
        assert (referenced + orphans) - {b} == referenced + (orphans - {b});
        r := RemoveOrphan(b);
        OtherBlobs(t, referenced + orphans, referenced + (orphans - {b}));
        StepTransitive(d0, n, d1, n, disk, n, run);
        if r.Crashed? {
          return Crashed;
        }
        orphans := orphans - {b};
      }
      assert referenced + {} == referenced;
      return Done(());
    }

    /** Write the checksum file of a clean terminal tree, or check the one that is there. */
    method EnsureChecksums() returns (r: Outcome<()>)
      requires Pending() && Clean(Held()) && Held().events[n].to.Terminal? && Held().status == Some(Project(Held().events[n]))
      modifies this
      ensures Pending() && Step(old(disk), old(n), disk, n, run) && n == old(n) && (r.Crashed? ==> budget == 0)
      ensures TempCount(Held()) <= TempCount(old(Held())) + 1
      ensures r.Raised? ==> !(Listable(old(Held())) && Readable(old(Held()), n)) && disk == old(disk)
      ensures r.Done? ==> Listable(old(Held())) && Held() == Final(old(Held()), old(Held()).events[n])
    {
      hide DiskInv, Step, TreeStep;
      Stay();
      Facts();
      var t := disk.active.value.tree;
      if t.checksums.Some? {
        var declared := ListingBytes(t, t.status.value.sequence);
        if declared > MODEL_LIMIT {
          EventFacts();
          return Raised;
        }
      }
      if !Listable(t) {
        return Raised;
      }
      if t.checksums.Some? {
        if t.checksums != Some(Payload(t)) {
          assert false;
        }
        return Done(());
      }
      ghost var d0 := disk;
      ControlTempsChanged(t, run, n, 0, 1);
      var u := t.(checksumTemps := 1);
      var _ :- WriteTree(u, n);
      ghost var d1 := disk;
      Facts();
      assert u.(checksumTemps := 0) == t && Payload(t) == t;
      ChecksumsCommitted(u, run, n);
      r := WriteTree(t.(checksums := Some(Payload(t))), n);
      StepTransitive(d0, n, d1, n, disk, n, run);
    }

    /** Remove the active tree, bound to the indexed inode; it may vanish piece by piece. */
    method TeardownActive() returns (r: Outcome<()>)
      requires Inv() && disk.index.Some?
      modifies this
      ensures Inv() && Step(old(disk), old(n), disk, n, run) && n == old(n) && !r.Raised? && (r.Crashed? ==> budget == 0)
      ensures disk.record == old(disk).record && disk.index == old(disk).index
      ensures r.Done? ==> disk.active.None?
    {
      hide DiskInv, Step;
      Stay();
      IndexFacts();
      if disk.active.None? {
        return Done(());
      }
      if disk.active.value.inode != disk.index.value.inode {
        assert false;
      }
      ghost var d0 := disk;
      var inode := disk.active.value.inode;
      var pieces: nat :| true;
      for i := 0 to pieces
        invariant Inv() && Step(d0, old(n), disk, n, run) && n == old(n)
        invariant disk == d0.(active := disk.active) && disk.active.Some? && disk.active.value.inode == inode
      {
        ghost var d1 := disk;
        var partial: Tree :| true;
        RemovableNow(Some(Node(inode, partial)));
        r := Write(disk.(active := Some(Node(inode, partial))), n);
        StepTransitive(d0, n, d1, n, disk, n, run);
        if r.Crashed? {
          return Crashed;
        }
      }
      ghost var d2 := disk;
      RemovableNow(None);
      r := Write(disk.(active := None), n);
      StepTransitive(d0, n, d2, n, disk, n, run);
    }

    lemma IndexFacts()
      requires Inv() && disk.index.Some?
      ensures disk.record.Some? && FinalRecord(disk.record.value, run, n) && Verified(disk.record.value, run)
      ensures Readable(disk.record.value, n)
      ensures disk.index.value == IndexOf(disk.record.value, disk.record.value.events[n])
      ensures disk.active.Some? ==> disk.active.value.inode == disk.index.value.inode
    {
      FinalVerifies(disk.record.value, run, n);
    }

    lemma RemovableNow(active: Option<Node>)
      requires Inv() && disk.index.Some? && (active.Some? ==> active.value.inode == disk.index.value.inode)
      ensures Step(disk, n, disk.(active := active), n, run)
    {
      Removable(disk, n, run, active);
    }

    /** Re-verify the indexed record, then finish removing the active tree. */
    method FinishFromIndex() returns (r: Outcome<Index>)
      requires Inv() && disk.index.Some?
      modifies this
      ensures Inv() && Step(old(disk), old(n), disk, n, run) && n == old(n) && !r.Raised? && (r.Crashed? ==> budget == 0)
      ensures r.Done? ==> disk == Disk(None, old(disk).record, Some(r.value)) && r.value == old(disk).index.value
    {
      hide DiskInv, Step;
      IndexFacts();
      RecordStatus(disk.record.value, run, n);
      var index := disk.index.value;
      var record := disk.record.value;
      var verified := VerifyFinalizedRecord(record, run);
      if !verified || record != index.record || record.checksums != Some(index.checksums)
        || record.status.value.last != index.terminal || record.status.value.outcome != Some(index.outcome)
        || record.descriptor.inode != index.inode {
        assert false;
      }
      var _ :- TeardownActive();
      return Done(index);
    }

    /** Publish the record, index it, and remove the active tree. */
    method Conclude() returns (r: Outcome<Index>)
      requires Pending() && Held().checksums.Some? && Held().strayTemps == 0
      modifies this
      ensures Inv() && Step(old(disk), old(n), disk, n, run) && n == old(n) && (r.Crashed? ==> budget == 0)
      ensures disk.index.Some? || TempCount(Held()) == TempCount(old(Held()))
      ensures r.Raised? ==> !Readable(old(Held()), n) && disk == old(disk).(record := Some(old(Held())))
      ensures r.Done? ==> Readable(old(Held()), n) && disk == Disk(None, Some(old(Held())), Some(r.value)) && r.value == IndexOf(old(Held()), old(Held()).events[n])
    {
      hide DiskInv, Step;
      ghost var d0 := disk;
      SealedNow();
      if disk.record.None? {
        var _ :- Write(disk.(record := Some(disk.active.value.tree)), n);
      } else {
        Stay();
      }
      ghost var d1 := disk;
      RecordNow();
      var record := disk.record.value;
      var verified := VerifyFinalizedRecord(record, run);
      if !verified {
        return Raised;
      }
      IndexableNow();
      RecordStatus(record, run, n);
      var index := IndexOf(record, record.status.value.last);
      var indexed := Write(disk.(index := Some(index)), n);
      StepTransitive(d0, n, d1, n, disk, n, run);
      if indexed.Crashed? {
        return Crashed;
      }
      ghost var d2 := disk;
      var removed := TeardownActive();
      StepTransitive(d0, n, d2, n, disk, n, run);
      return if removed.Crashed? then Crashed else Done(index);
    }

    lemma SealedNow()
      requires Pending() && Held().checksums.Some? && Held().strayTemps == 0
      ensures Step(disk, n, disk.(record := Some(disk.active.value.tree)), n, run)
      ensures disk.record.Some? ==> disk.record.value == disk.active.value.tree
    {
      Sealed(disk.active.value.tree, run, n);
      RecordPublished(disk, n, run);
    }

    lemma RecordNow()
      requires Pending() && disk.record.Some?
      ensures FinalRecord(disk.record.value, run, n) && disk.record.value == Held()
      ensures Verified(disk.record.value, run) <==> Readable(Held(), n)
    {
      FinalVerifies(disk.record.value, run, n);
    }

    lemma IndexableNow()
      requires Pending() && disk.record.Some? && Readable(disk.record.value, n)
      ensures Step(disk, n, disk.(index := Some(IndexOf(disk.record.value, disk.record.value.events[n]))), n, run)
    {
      IndexPublished(disk, n, run);
    }

    /** Checksums, record, index and teardown of a clean terminal tree. */
    method Seal() returns (r: Outcome<Index>)
      requires Pending() && Settled() && Clean(Held())
      modifies this
      ensures Inv() && Step(old(disk), old(n), disk, n, run) && n == old(n) && (r.Crashed? ==> budget == 0)
      ensures r.Raised? ==> !(Listable(old(Held())) && Readable(old(Held()), n)) && disk.index.None?
      ensures r.Done? ==> Listable(old(Held())) && Readable(old(Held()), n)
      ensures disk.index.None? ==> TempCount(Held()) <= TempCount(old(Held())) + 1
      ensures r.Done? ==>
        && disk == Disk(None, Some(Final(old(Held()), old(Held()).events[n])), Some(r.value))
        && r.value == IndexOf(disk.record.value, disk.record.value.events[n])
    {
      hide DiskInv, Step, Listable, Readable;
      ghost var d0, t := disk, Held();
      var _ :- EnsureChecksums();
      ghost var d1 := disk;
      SameFiles(t, Held());
      r := Conclude();
      StepTransitive(d0, n, d1, n, disk, n, run);
    }

    /** Finalize a terminal run: checksums, record, index, teardown. */
    method CompleteFinalization() returns (r: Outcome<Index>)
      requires Inv()
      requires disk.index.None? ==> Pending() && Settled()
      modifies this
      ensures Inv() && Step(old(disk), old(n), disk, n, run) && n == old(n) && (r.Crashed? ==> budget == 0)
      ensures r.Raised? ==> old(disk).index.None? && disk.index.None? && !Finalizable(old(Held()), n)
      ensures old(disk).index.None? && r.Done? ==> Finalizable(old(Held()), n)
      ensures old(disk).index.None? && disk.index.None? ==> TempCount(Held()) <= TempCount(old(Held())) + 1
      ensures r.Done? ==>
        && disk == Disk(None, Some(if old(disk).index.Some? then old(Held()) else Final(old(Held()), old(Held()).events[n])), Some(r.value))
        && r.value == IndexOf(disk.record.value, disk.record.value.events[n])
    {
      if disk.index.Some? {
        hide DiskInv, Step;
        IndexFacts();
        r := FinishFromIndex();
        return r;
      }
      hide DiskInv, Step, Reconcilable, Listable, Readable;
      ghost var d0, t := disk, Held();
      var _ :- ReconcileControlTemps();
      ghost var d1 := disk;
      var recovered := RecoverPortable();
      StepTransitive(d0, n, d1, n, disk, n, run);
      if !recovered.Done? {
        return if recovered.Raised? then Raised else Crashed;
      }
      ghost var d2, u := disk, Held();
      SameFiles(t, u);
      r := Seal();
      StepTransitive(d0, n, d2, n, disk, n, run);
    }

    /** The terminal event is durable and projected. */
    ghost predicate Settled()
      reads this
      requires Pending()
    {
      Held().eventTemps == [] && Held().status == Some(Project(Held().events[n])) && Held().events[n].to.Terminal?
    }

    /** Authenticate and remove a leftover event temp. */
    method ReconcileEventTemp(status: Status) returns (r: Outcome<()>)
      requires Pending() && Held().status == Some(status)
      modifies this
      ensures Pending() && Step(old(disk), old(n), disk, n, run) && n == old(n) && (r.Crashed? ==> budget == 0)
      ensures r.Raised? ==> !EventTempsOk(old(Held()))
      ensures Held() == if r.Done? then old(Held()).(eventTemps := []) else old(Held())
      ensures r.Done? ==> EventTempsOk(old(Held()))
    {
      hide DiskInv, Step, TreeStep;
      Stay();
      Facts();
      EventTempFacts();
      var t := disk.active.value.tree;
      if t.eventTemps == [] {
        return Done(());
      }
      if |t.eventTemps| > 1 {
        assert false;
      }
      var temp := t.eventTemps[0];
      if temp.content.None? {
        return Raised;
      }
      var e := temp.content.value;
      // A temp never stays beside its committed event: the rename that commits it takes it away.
      if temp.sequence in t.events {
        assert false;
      } else if temp.sequence != status.sequence + 1 || !Follows(e, status.run, Some(status.last)) || e.sequence != temp.sequence {
        assert false;
      }
      EventTempsRemoved(t, run, n);
      r := WriteTree(t.(eventTemps := []), n);
    }

    lemma EventTempFacts()
      requires Pending()
      ensures var t := disk.active.value.tree;
        && |t.eventTemps| <= 1
        && (t.eventTemps != [] ==>
              && t.checksums.None? && t.status == Some(Project(t.events[n])) && t.events[n].sequence == n && t.events[n].run == run
              && t.eventTemps[0].sequence == n + 1 && n + 1 !in t.events
              && (t.eventTemps[0].content.Some? ==> Follows(t.eventTemps[0].content.value, run, Some(t.events[n]))))
    {
      var t := disk.active.value.tree;
      ChainSequence(t.events, run, n, n);
      assert LinkAt(t.events, run, n);
      hide Follows, PortableInv;
    }

    /** Adopt at most one authenticated event beyond the recorded status, and verify the chain. */
    method RequiredStatus() returns (r: Outcome<Status>)
      requires Pending()
      modifies this
      ensures Pending() && Step(old(disk), old(n), disk, n, run) && n == old(n) && (r.Crashed? ==> budget == 0)
      ensures r.Raised? ==> !EventTempsOk(old(Held()))
      ensures TempCount(Held()) <= TempCount(old(Held())) + 1
      ensures r.Done? ==> EventTempsOk(old(Held())) && r.value == Project(old(Held()).events[n])
      ensures r.Done? ==> Held() == old(Held()).(eventTemps := [], status := Some(r.value))
    {
      hide DiskInv, Step, TreeStep, EventTempsOk;
      ghost var d0 := disk;
      StatusFacts();
      var status := disk.active.value.tree.status.value;
      var _ :- ReconcileEventTemp(status);
      ghost var d1 := disk;
      StatusFacts();
      var t := disk.active.value.tree;
      if status.sequence + 1 in t.events {
        var e := t.events[status.sequence + 1];
        if !Follows(e, status.run, Some(status.last)) || e.sequence != status.sequence + 1 {
          assert false;
        }
        status := Project(e);
        Facts();
        var adopted := PublishStatus(status);
        StepTransitive(d0, n, d1, n, disk, n, run);
        if adopted.Crashed? {
          return Crashed;
        }
      }
      ChainFacts();
      var ok := VerifyEventChain(disk.active.value.tree, status);
      if !ok {
        assert false;
      }
      return Done(status);
    }

    /** The recorded status is that of the last event, or of the one before it. */
    lemma StatusFacts()
      requires Pending()
      ensures var t := disk.active.value.tree;
        && t.status.Some?
        && var status := t.status.value;
        && status.run == run && status.last.sequence == status.sequence && status.sequence in t.events && status == Project(t.events[status.sequence])
        && (status.sequence + 1 in t.events <==> status.sequence == n - 1)
        && (status.sequence == n - 1 ==> t.checksums.None? && Follows(t.events[n], run, Some(status.last)) && t.events[n].sequence == n)
        && (status.sequence != n - 1 ==> status == Project(t.events[n]))
    {
      var t := disk.active.value.tree;
      StatusSequence(t, run, n);
      ChainSequence(t.events, run, n, n);
      assert LinkAt(t.events, run, n);
      hide PortableInv, Final, Follows;
    }

    lemma ChainFacts()
      requires Pending() && Held().eventTemps == [] && Held().status == Some(Project(Held().events[n]))
      ensures ChainVerified(disk.active.value.tree, Project(disk.active.value.tree.events[n]))
    {
      JournalVerifies(disk.active.value.tree, run, n);
    }

    /** Recover the run once. `alive` says whether its owner still lives; no value means the run is
        left to its owner. */
    method Recover(alive: bool, timestamp: nat) returns (r: Outcome<Option<Index>>)
      requires Inv()
      modifies this
      ensures Inv() && Step(old(disk), old(n), disk, n, run) && (r.Crashed? ==> budget == 0)
      ensures r.Raised? ==> old(disk).index.None? && !Recoverable(old(Held()), old(n), Ended(old(Held()), old(n)), alive)
      ensures r.Done? && old(disk).index.None? ==> Recoverable(old(Held()), old(n), Ended(old(Held()), old(n)), alive)
      ensures r.Done? && r.value.None? ==> old(disk).index.None? && alive && !Ended(old(Held()), old(n)) && n == old(n)
      ensures r.Done? && r.value.Some? ==>
        && disk.record.Some? && n in disk.record.value.events && disk == Disk(None, disk.record, r.value)
        && FinishedAs(old(disk), old(n), disk.record.value, n, run)
        && (old(disk).index.None? && !Ended(old(Held()), old(n)) ==> disk.record.value.events[n].timestamp == timestamp)
      ensures old(disk).index.None? && disk.index.None? ==> TempCount(Held()) <= TempCount(old(Held())) + 1
    {
      hide DiskInv, Step, Recoverable, TempCount, Final;
      if disk.index.Some? {
        IndexFacts();
        var finished :- CompleteFinalization();
        return Done(Some(finished));
      }
      Unindexed();
      r := RecoverActive(alive, timestamp);
    }

    lemma Unindexed()
      requires Inv() && disk.index.None?
      ensures Pending()
    {
    }

    /** Recover a run that is not indexed yet. */
    method RecoverActive(alive: bool, timestamp: nat) returns (r: Outcome<Option<Index>>)
      requires Pending()
      modifies this
      ensures Inv() && Step(old(disk), old(n), disk, n, run) && (r.Crashed? ==> budget == 0)
      ensures r.Raised? ==> !Recoverable(old(Held()), old(n), Ended(old(Held()), old(n)), alive)
      ensures r.Done? ==> Recoverable(old(Held()), old(n), Ended(old(Held()), old(n)), alive)
      ensures r.Done? && r.value.None? ==> alive && !Ended(old(Held()), old(n)) && n == old(n)
      ensures r.Done? && r.value.Some? ==>
        && disk.record.Some? && n in disk.record.value.events && disk == Disk(None, disk.record, r.value)
        && FinishedAs(old(disk), old(n), disk.record.value, n, run)
        && (!Ended(old(Held()), old(n)) ==> disk.record.value.events[n].timestamp == timestamp)
      ensures disk.index.None? ==> TempCount(Held()) <= TempCount(old(Held())) + 1
    {
      hide DiskInv, Step, Reconcilable, EventTempsOk, ControlOk, TempCount;
      ghost var d0, n0, t := disk, n, Held();
      EventFacts();
      var status :- RequiredStatus();
      ghost var d1, u := disk, Held();
      SameTemps(t, u);
      if !status.state.Terminal? && alive {
        return Done(None);
      }
      if status.state.Terminal? {
        var finished := CompleteFinalization();
        assert Final(u, u.events[n]) == Final(t, t.events[n]);
        r := if finished.Done? then Done(Some(finished.value)) else if finished.Raised? then Raised else Crashed;
      } else {
        r := Interrupt(status, timestamp);
        if r.Done? {
          AfterStatus(d0, d1, n0, disk.record.value, n);
        }
      }
      StepTransitive(d0, n0, d1, n0, disk, n, run);
    }

    /** Reconciling the journal first does not change how a dead run is closed. */
    lemma AfterStatus(d: Disk, e: Disk, k: nat, record: Tree, m: nat)
      requires DiskInv(d, run, k) && DiskInv(e, run, k) && d.index.None? && e.index.None?
      requires e.active.value.tree == d.active.value.tree.(eventTemps := [], status := e.active.value.tree.status)
      requires m in record.events && FinishedAs(e, k, record, m, run)
      ensures FinishedAs(d, k, record, m, run)
    {
    }

    /** Close a run whose owner is gone. */
    method Interrupt(status: Status, timestamp: nat) returns (r: Outcome<Option<Index>>)
      requires Pending() && Held().eventTemps == [] && Held().status == Some(status) && status == Project(Held().events[n])
      requires !status.state.Terminal?
      modifies this
      ensures Inv() && Step(old(disk), old(n), disk, n, run) && (r.Crashed? ==> budget == 0)
      ensures r.Raised? ==> !Finalizable(old(Held()), old(n) + 1)
      ensures r.Done? ==> Finalizable(old(Held()), old(n) + 1)
      ensures r.Done? ==>
        && r.value.Some? && disk.record.Some? && n in disk.record.value.events && disk == Disk(None, disk.record, r.value)
        && FinishedAs(old(disk), old(n), disk.record.value, n, run)
        && disk.record.value.events[n].timestamp == timestamp
      ensures disk.index.None? ==> TempCount(Held()) <= TempCount(old(Held())) + 1
    {
      hide DiskInv, Step, Reconcilable;
      ghost var d0, n0, t := disk, n, Held();
      EventFacts();
      Facts();
      var e := Event(run, status.sequence + 1, Some(status.last), Some(status.state), Terminal, Some(Interrupted),
        Some(OWNER_DEAD), timestamp);
      assert Follows(e, run, Some(t.events[n]));
      hide Follows;
      var _ :- PublishEvent(e);
      ghost var d1 := disk;
      assert Held() == t.(events := t.events[n := e], status := Some(Project(e)));
      var finished := CompleteFinalization();
      StepTransitive(d0, n0, d1, n, disk, n, run);
      return if finished.Done? then Done(Some(finished.value)) else if finished.Raised? then Raised else Crashed;
    }

    lemma EventFacts()
      requires Pending()
      ensures n in Held().events && Held().events[n].sequence == n && Held().events[n].run == run
      ensures Held().events[n].to.Terminal? || Held().events[n].to.Active? || Held().events[n].to.Allocated?
    {
      ChainSequence(Held().events, run, n, n);
      assert LinkAt(Held().events, run, n);
    }
  }

  function WithBlobs(t: Tree, blobs: set<Bytes>): (u: Tree)
    ensures TempCount(u) == TempCount(t) && u.portable.blobs == blobs
    ensures u.portable.entries == t.portable.entries && u.portable.entryTemps == t.portable.entryTemps
  {
    t.(portable := t.portable.(blobs := blobs))
  }

  lemma SameFiles(t: Tree, u: Tree)
    requires u.files == t.files && u.input == t.input && u.resolved == t.resolved && u.portable.entries == t.portable.entries
    ensures Listable(u) == Listable(t) && forall k :: Readable(u, k) == Readable(t, k)
  {
  }

  lemma SameBlobs(t: Tree)
    ensures WithBlobs(t, t.portable.blobs) == t
  {
  }

  lemma OtherBlobs(t: Tree, a: set<Bytes>, b: set<Bytes>)
    ensures WithBlobs(WithBlobs(t, a), b) == WithBlobs(t, b)
  {
  }

  lemma RecordStatus(t: Tree, run: RunId, n: nat)
    requires FinalRecord(t, run, n)
    ensures t.status.Some? && t.status.value == Project(t.events[n]) && t.events[n].outcome.Some?
  {
  }

  lemma SameTemps(t: Tree, u: Tree)
    requires u == t.(eventTemps := [], status := u.status)
    ensures TempCount(u) <= TempCount(t) && ControlOk(u) == ControlOk(t)
  {
  }

  lemma ReferencedThere(p: Portable)
    requires PortableInv(p)
    ensures Referenced(p.entries) <= p.blobs
  {
    assert forall k | k in p.entries :: EntryOk(p.entries[k], k, p.blobs);
  }

  lemma EmptyPortable()
    ensures PortableInv(Portable(map[], [], {}, []))
  {
    assert Referenced(map[]) == {};
  }

  lemma ReplaceTemps(t: Tree, run: RunId, n: nat, a: seq<EventTemp>, b: seq<EventTemp>)
    requires TreeInv(t, run, n)
    requires TreeStep(t, n, t.(eventTemps := a), n, run) && TreeStep(t, n, t.(eventTemps := b), n, run)
    ensures TreeStep(t.(eventTemps := a), n, t.(eventTemps := b), n, run)
  {
    hide Follows, PortableInv, Chain;
  }

  lemma CommitFromTemp(t: Tree, run: RunId, n: nat, e: Event)
    requires TreeInv(t, run, n) && t.eventTemps == [] && e.sequence == n + 1
    requires TreeStep(t, n, t.(eventTemps := [EventTemp(n + 1, Some(e))]), n, run)
    requires TreeStep(t, n, t.(eventTemps := [], events := t.events[n + 1 := e]), n + 1, run)
    requires !t.events[n].to.Terminal?
    ensures TreeStep(t.(eventTemps := [EventTemp(n + 1, Some(e))]), n, t.(events := t.events[n + 1 := e]), n + 1, run)
  {
    hide Follows, PortableInv, Chain;
    assert t.(eventTemps := [], events := t.events[n + 1 := e]) == t.(events := t.events[n + 1 := e]);
  }
}
