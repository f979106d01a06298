/** How the life of an image task uses its files (relay/app.ts): committing the outputs, and
    the restart loop that decides which interrupted tasks are delivered. The JSON value of an
    output stands for its candidate index. */
module ImageRecovery {
  import opened RelayTasks
  import L = ImageTaskLife
  import R = ImageResults
  import F = ResultFiles
  import RelayStoring

  /** Readers of this directory see exactly the outputs that the life calls stored. */
  predicate Holds(d: F.Disk, dir: F.Directory, stored: seq<nat>) {
    F.Shows(d, dir, if stored == [] then F.None else F.Some(stored))
  }

  /** After a crash at a crash-safe moment the commit has happened as a whole or not at all. */
  lemma CrashAtCommit(w: L.World, d: F.Disk, kept: set<nat>, lost: map<F.Inode, F.Content>)
    requires w.runner.Some? && w.runner.value.phase.Delivering? && w.stored == []
    requires 1 <= |w.runner.value.phase.images| <= L.MAX_OUTPUT_FILES
    requires F.CrashSafe(d, F.None, w.runner.value.phase.images)
    ensures var c := F.Crashed(d, kept, lost);
            Holds(c, c.durable, w.stored) || Holds(c, c.durable, L.CommitStep(w).stored)
  {
    var images := w.runner.value.phase.images;
    var c := F.Crashed(d, kept, lost);
    assert F.SeesOldOrNew(c, c.durable, F.None, images);
    hide F.Shows, F.Crashed;
  }

  /** Whatever the moment of a crash, the next process finds the files of a world before or
      after the commit. */
  ghost predicate CommittedOrNot(d: F.Disk, w: L.World)
    requires w.runner.Some? && w.runner.value.phase.Delivering?
  {
    forall kept, lost ::
      var c := F.Crashed(d, kept, lost);
      Holds(c, c.durable, w.stored) || Holds(c, c.durable, L.CommitStep(w).stored)
  }

  /** Commits the images of a task that has no outputs yet, as one step of its life. */
  method CommitOutputs(blobs: F.DiskBlobStore, images: seq<nat>, ghost w: L.World) returns (ok: bool)
    requires w.runner.Some? && w.runner.value.phase.Delivering? && w.runner.value.phase.images == images && images != []
    requires w.stored == [] && Holds(blobs.disk, F.Live(blobs.disk), w.stored) && F.Manifest !in F.Live(blobs.disk)
    requires F.Numbered(blobs.disk) && blobs.disk.pending == [] && blobs.disk.durable.Values <= blobs.disk.synced
    modifies blobs
    ensures ok <==> L.CommitStep(w).runner.value.phase.Stored?
    ensures Holds(blobs.disk, F.Live(blobs.disk), L.CommitStep(w).stored)
    ensures |blobs.history| >= |old(blobs.history)|
    ensures forall i :: |old(blobs.history)| <= i < |blobs.history| ==> CommittedOrNot(blobs.history[i], w)
  {
    hide F.CrashSafe, F.Numbered, F.Live, F.AllOutputs, F.Delivers, F.OutputCount;
    ghost var from := |blobs.history|;
    ok := blobs.PutOutputs(images);
    forall i | from <= i < |blobs.history| ensures CommittedOrNot(blobs.history[i], w) {
      forall kept, lost
        ensures var c := F.Crashed(blobs.history[i], kept, lost);
                Holds(c, c.durable, w.stored) || Holds(c, c.durable, L.CommitStep(w).stored)
      {
        CrashAtCommit(w, blobs.history[i], kept, lost);
      }
    }
  }

  /** The restart loop for one task that was running: its outputs are read one by one, and it
      is delivered if one of them is a valid candidate. This is the last step of its life. */
  method RecoverInterrupted(store: RelayStoring.TaskStore, blobs: F.DiskBlobStore, id: Id, expected: Option<nat>,
                            passing: set<nat>, now: nat, ghost w: L.World)
    requires w.unsettled && w.store == store.View() && Holds(blobs.disk, F.Live(blobs.disk), w.stored)
    requires expected == if w.input.Some? then Some(w.input.value.count) else None
    modifies store
    ensures store.View() == L.ProjectStep(w, id, passing, true, false, now).store
  {
    if expected.None? {
      return;
    }
    hide F.Live, F.AllOutputs, F.OutputAt, F.OutputCount;
    var directory := F.Live(blobs.disk);
    var found: seq<R.Found> := [];
    for at := 0 to F.OutputCount(blobs.disk, directory)
      invariant at <= |w.stored| && |found| == at && found == L.FoundIn(w.stored, passing)[..at]
    {
      match F.OutputAt(blobs.disk, directory, at) {
        case None => found := found + [R.Found([], false)];
        case Some(value) => found := found + [R.Found([value], value in passing)];
      }
    }
    var seen, _ := R.ProjectStored(found, expected.value);
    assert found == L.FoundIn(w.stored, passing);
    if seen != {} {
      var i :| i in seen;
      assert R.Verified(found, expected.value, |found|, i);
      var _ := store.RecoverSucceededManifestResult(id, now);
    }
  }
}
