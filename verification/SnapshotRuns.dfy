/** Every run of the snapshot cache keeps its rows and its readers in agreement with the files. */
module SnapshotRuns {
  import opened Basics
  import opened SnapshotIndex
  import opened Snapshots

  // ---------------------------------------------------------------------------
  // What a step must respect for snapshots taken before it to stay sound after it
  // ---------------------------------------------------------------------------

  ghost predicate SameFile(before: Disk, after: Disk, path: Path)
    requires before.Valid() && after.Valid() && path in before.link && path in after.link
  {
    && after.StampOf(path) == before.StampOf(path)
    && after.data[after.link[path]] == before.data[before.link[path]]
    && after.writes[after.link[path]] == before.writes[before.link[path]]
  }

  /** Whatever `path` still shows with its version unmoved, it showed before; and its content stayed or is excused. */
  ghost predicate Carries(s: System, t: System, path: Path)
    requires s.disk.Valid() && t.disk.Valid()
  {
    && s.seen <= t.seen
    && s.Version(path) <= t.Version(path)
    && (path in t.disk.link && (path, t.disk.StampOf(path)) in s.seen && t.Version(path) == s.Version(path) ==>
          && s.disk.Shows(path, t.disk.StampOf(path))
          && (t.Excused(path) || (!s.Excused(path) && SameFile(s.disk, t.disk, path))))
  }

  lemma CarriesRow(s: System, t: System, path: Path, row: Row<Content>)
    requires s.disk.Valid() && t.disk.Valid() && Carries(s, t, path) && Sound(s, path, row)
    ensures Sound(t, path, row)
  {
  }

  lemma CarriesReader(s: System, t: System, path: Path, reader: Reader)
    requires s.disk.Valid() && t.disk.Valid() && Carries(s, t, path) && ReaderSound(s, path, reader)
    ensures ReaderSound(t, path, reader)
  {
    match reader
    case Stamped(_) =>
    case Versioned(_, _) =>
    case Missed(_, _) =>
    case Reading(stamp, version, inode, count) =>
    case _ => CarriesRow(s, t, path, reader.row);
  }

  /** The part of the invariant that is not about single paths. */
  ghost predicate Ground(s: System) {
    && s.disk.Valid()
    && (forall path :: path in s.disk.link ==> (path, s.disk.StampOf(path)) in s.seen)
    && EventsSound(s)
  }

  // ---------------------------------------------------------------------------
  // Files change
  // ---------------------------------------------------------------------------

  lemma SeenGrows(seen: set<(Path, Stamp)>, disk: Disk)
    requires disk.Valid()
    ensures seen <= SeenAfter(seen, disk)
    ensures forall path :: path in disk.link ==> (path, disk.StampOf(path)) in SeenAfter(seen, disk)
  {
  }

  /** An in-place write excuses every alias whose content it changed. */
  lemma WriteExcuses(s: System, via: Path, content: Content, mark: nat, paths: set<Path>, path: Path)
    requires Ground(s) && via in s.disk.link && via in paths
    requires path in s.disk.link && s.disk.link[path] == s.disk.link[via]
    requires var disk := Written(s.disk, s.disk.link[via], content, mark); StampsAdvance(s.disk, disk, s.seen)
    ensures ApplyWrite(s, via, content, mark, paths).Excused(path)
  {
    var t, inode := ApplyWrite(s, via, content, mark, paths), s.disk.link[via];
    var event := Event(s.nextId, via, inode, paths);
    if s.watching {
      assert event in t.undelivered;
      assert event !in s.undelivered;
      if path !in paths && path !in Unreached(s, via, inode, paths) {
        assert t.AliasDue(event, path);
      }
    } else if !s.RepairDue() {
      assert path in Aliases(s.disk, inode);
    }
  }

  lemma OwedLasts(s: System, t: System, path: Path)
    requires s.Owed(path) && s.undelivered <= t.undelivered
    requires path in s.disk.link ==> path in t.disk.link && t.disk.link[path] == s.disk.link[path]
    requires t.index == s.index && t.dispatcher == s.dispatcher
    requires s.RepairDue() ==> t.RepairDue()
    ensures t.Owed(path)
  {
    if event :| event in s.undelivered && (path in event.paths || s.AliasDue(event, path)) {
      assert event in t.undelivered;
      assert path in event.paths || t.AliasDue(event, path);
    }
  }

  /** The write happens: the path exists, the event names it and no stamp recurs. */
  ghost predicate Writes(s: System, via: Path, content: Content, mark: nat, paths: set<Path>)
    requires s.disk.Valid()
  {
    && via in s.disk.link && via in paths
    && StampsAdvance(s.disk, Written(s.disk, s.disk.link[via], content, mark), s.seen)
  }

  lemma WriteIs(s: System, via: Path, content: Content, mark: nat, paths: set<Path>) returns (disk: Disk)
    requires s.disk.Valid()
    ensures var t := ApplyWrite(s, via, content, mark, paths);
      if !Writes(s, via, content, mark, paths) then t == s && disk == s.disk else
        && disk == t.disk == Written(s.disk, s.disk.link[via], content, mark)
        && disk.Valid()
        && t.seen == SeenAfter(s.seen, disk)
        && t.index == s.index && t.rows == s.rows && t.readers == s.readers
        && t.dispatcher == s.dispatcher && t.watching == s.watching
        && t.repair == s.repair && t.repairer == s.repairer && t.lossOpen == s.lossOpen
        && s.uncovered <= t.uncovered && s.undelivered <= t.undelivered
        && (forall event :: event in t.undelivered && event !in s.undelivered ==>
              event == Event(s.nextId, via, s.disk.link[via], paths) && t.nextId == s.nextId + 1)
        && s.nextId <= t.nextId
  {
    disk := ApplyWrite(s, via, content, mark, paths).disk;
  }

  lemma WriteKeepsGround(s: System, via: Path, content: Content, mark: nat, paths: set<Path>)
    requires Ground(s)
    ensures Ground(ApplyWrite(s, via, content, mark, paths))
  {
    var disk := WriteIs(s, via, content, mark, paths);
    SeenGrows(s.seen, disk);
    hide ApplyWrite, SeenAfter, StampsAdvance;
  }

  lemma WriteCarries(s: System, via: Path, content: Content, mark: nat, paths: set<Path>, path: Path)
    requires Ground(s)
    ensures Ground(ApplyWrite(s, via, content, mark, paths))
    ensures Carries(s, ApplyWrite(s, via, content, mark, paths), path)
  {
    WriteKeepsGround(s, via, content, mark, paths);
    var t := ApplyWrite(s, via, content, mark, paths);
    var disk := WriteIs(s, via, content, mark, paths);
    if Writes(s, via, content, mark, paths) {
      SeenGrows(s.seen, disk);
      if path in s.disk.link && s.disk.link[path] == s.disk.link[via] {
        assert path in disk.link && (path, disk.StampOf(path)) in s.seen ==> s.disk.Shows(path, disk.StampOf(path));
        WriteExcuses(s, via, content, mark, paths, path);
      } else if s.Owed(path) {
        hide ApplyWrite, SeenAfter, StampsAdvance;
        OwedLasts(s, t, path);
      }
    }
  }

  lemma ReplaceCarries(s: System, disk: Disk, path: Path)
    requires Ground(s)
    ensures Ground(ApplyReplace(s, disk)) && Carries(s, ApplyReplace(s, disk), path)
  {
    var t := ApplyReplace(s, disk);
    if disk.Valid() && StampsAdvance(s.disk, disk, s.seen) && SameBehindStamps(s.disk, disk) {
      SeenGrows(s.seen, disk);
      if path in disk.link && s.disk.Shows(path, disk.StampOf(path)) && s.Owed(path) {
        OwedLasts(s, t, path);
      }
    }
  }

  // ---------------------------------------------------------------------------
  // Versions rise
  // ---------------------------------------------------------------------------

  lemma StoreKeepsOwed(s: System, stored: Path, row: Row<Content>, path: Path)
    requires Ground(s) && s.Owed(path) && (stored, row.stamp) in s.seen
    requires path !in Displaced(s.index, stored, row.stamp.inode)
    requires path == stored ==> path in s.disk.link && s.disk.link[path] == row.stamp.inode
    ensures ApplyStore(s, stored, row).Owed(path)
  {
    var t := ApplyStore(s, stored, row);
    IndexFileRaises(s.index, stored, row.stamp.inode);
    if event :| event in s.undelivered && (path in event.paths || s.AliasDue(event, path)) {
      assert event in t.undelivered;
      if path !in event.paths {
        assert t.AliasDue(event, path) by {
          assert s.AliasDue(event, path);
          assert event.via == stored ==> row.stamp.inode == event.inode;
        }
      }
    }
  }

  lemma StoreCarries(s: System, stored: Path, row: Row<Content>, path: Path)
    requires Ground(s) && (stored, row.stamp) in s.seen
    requires path == stored ==> path in s.disk.link && s.disk.link[path] == row.stamp.inode
    ensures Carries(s, ApplyStore(s, stored, row), path)
  {
    IndexFileRaises(s.index, stored, row.stamp.inode);
    if path !in Displaced(s.index, stored, row.stamp.inode) && s.Owed(path) {
      StoreKeepsOwed(s, stored, row, path);
    }
  }

  lemma RaiseAllCarries(s: System, t: System, path: Path)
    requires Ground(s) && t.disk == s.disk && t.seen == s.seen && t.index == InvalidateAll(s.index)
    ensures Carries(s, t, path)
  {
    InvalidateAllRaises(s.index);
  }

  lemma InvalidateKeepsOwed(s: System, path: Path)
    requires Ground(s) && s.dispatcher.Looking? && s.dispatcher.left == {}
    requires s.Owed(path) && path !in s.dispatcher.affected
    ensures ApplyWatcher(s, Invalidate).Owed(path)
  {
    var t, busy := ApplyWatcher(s, Invalidate), s.dispatcher;
    hide InvalidateFiles;
    if event :| event in s.undelivered && (path in event.paths || s.AliasDue(event, path)) {
      assert event != busy.event;
      assert event in t.undelivered;
      assert path in event.paths || t.AliasDue(event, path);
    }
  }

  lemma InvalidateCarries(s: System, path: Path)
    requires Ground(s) && s.dispatcher.Looking? && s.dispatcher.left == {}
    ensures Carries(s, ApplyWatcher(s, Invalidate), path)
  {
    InvalidateFilesRaises(s.index, s.dispatcher.affected);
    if path !in s.dispatcher.affected && s.Owed(path) {
      InvalidateKeepsOwed(s, path);
    }
    hide InvalidateFiles, System.Owed;
  }

  // ---------------------------------------------------------------------------
  // The watcher moves on
  // ---------------------------------------------------------------------------

  /** Nothing about files or versions changed, and whoever was owed still is. */
  ghost predicate Waits(s: System, t: System) {
    && t.disk == s.disk && t.seen == s.seen && t.index == s.index && t.uncovered == s.uncovered
    && forall path :: s.Owed(path) ==> t.Owed(path)
  }

  lemma QueryWaits(s: System)
    requires Ground(s) && s.dispatcher.Stated?
    ensures Waits(s, ApplyWatcher(s, Query))
  {
    var t, busy := ApplyWatcher(s, Query), s.dispatcher;
    forall path | s.Owed(path) ensures t.Owed(path) {
      if event :| event in s.undelivered && (path in event.paths || s.AliasDue(event, path)) {
        if path !in event.paths && !t.AliasDue(event, path) {
          assert busy.event == event && event.via == busy.path;
          assert path in PathsSharingFile(s.index, busy.path, busy.current);
        }
      }
    }
  }

  lemma ReceiveWaits(s: System, event: Event)
    requires Ground(s)
    ensures Waits(s, ApplyWatcher(s, Receive(event)))
  {
    var t := ApplyWatcher(s, Receive(event));
    forall path | s.Owed(path) ensures t.Owed(path) {
      if other :| other in s.undelivered && (path in other.paths || s.AliasDue(other, path)) {
        assert path in other.paths || t.AliasDue(other, path);
      }
    }
  }

  lemma StatWaits(s: System, via: Path)
    requires Ground(s)
    ensures Waits(s, ApplyWatcher(s, Stat(via)))
  {
    var t := ApplyWatcher(s, Stat(via));
    forall path | s.Owed(path) ensures t.Owed(path) {
      if other :| other in s.undelivered && (path in other.paths || s.AliasDue(other, path)) {
        if s.dispatcher.Looking? && via in s.dispatcher.left {
          assert t.dispatcher.Pending() == s.dispatcher.Pending();
        }
        assert path in other.paths || t.AliasDue(other, path);
      }
    }
  }

  /** What the watch will not raise any more is uncovered, and what the repair loop raises stays owed. */
  lemma AbandonCarries(s: System, path: Path)
    requires Ground(s) && !s.dispatcher.Leaving?
    ensures Carries(s, Abandon(s), path)
  {
    hide System.WatchRaises;
  }

  lemma StopLoopCarries(s: System, path: Path)
    requires Ground(s)
    ensures Carries(s, StopLoop(s), path)
  {
    var t := StopLoop(s);
    if s.WatchRaises(path) {
      WatchRaisesLasts(s, t, path);
    }
  }

  lemma WatchRaisesLasts(s: System, t: System, path: Path)
    requires s.WatchRaises(path) && s.undelivered <= t.undelivered && s.lossOpen == t.lossOpen
    requires t.disk == s.disk && t.index == s.index && t.dispatcher == s.dispatcher
    ensures t.WatchRaises(path)
  {
    if event :| event in s.undelivered && (path in event.paths || s.AliasDue(event, path)) {
      assert event in t.undelivered && (path in event.paths || t.AliasDue(event, path));
    }
  }

  /** A repair request covers everything, unless it comes too late; then what it should cover is uncovered. */
  lemma UnheardCarries(s: System, t: System, path: Path)
    requires s.disk.Valid() && t.disk == s.disk && t.seen == s.seen && t.index == s.index && t.uncovered == Unheard(s)
    requires s.repairer != Over ==> t.RepairDue()
    ensures Carries(s, t, path)
  {
    if s.repairer != Over {
      RepairDueCarries(s, t, path);
    } else {
      hide System.WatchRaises;
    }
  }

  // ---------------------------------------------------------------------------
  // Readers
  // ---------------------------------------------------------------------------

  /** Only the reader of one path changed. */
  ghost predicate OnlyReader(s: System, t: System, path: Path) {
    t == s.(readers := t.readers) && t.readers - {path} == s.readers - {path}
  }

  lemma StepMovesOnlyReader(s: System, path: Path, step: ReaderStep)
    requires s.disk.Valid() && !Stores(s, path, step)
    ensures OnlyReader(s, ApplyReader(s, path, step), path)
  {
    hide Advance;
  }

  lemma ReadIsExact(s: System, path: Path, torn: Content, reader: Reader)
    requires Ground(s) && reader.Reading? && ReaderSound(s, path, reader)
    ensures var next := Advance(s, path, EndRead(torn), reader);
      next.Some? && next.value.Got? && Sound(s, path, next.value.row)
  {
  }

  /** Each step of a reader leads to a sound state of it. */
  lemma AdvanceIsSound(s: System, path: Path, step: ReaderStep, reader: Reader)
    requires Ground(s) && ReaderSound(s, path, reader) && (path in s.rows ==> Sound(s, path, s.rows[path]))
    ensures var next := Advance(s, path, step, reader); next.Some? ==> ReaderSound(s, path, next.value)
  {
    if step.EndRead? && reader.Reading? {
      ReadIsExact(s, path, step.torn, reader);
    }
    hide System.Excused;
  }

  lemma ReaderStays(s: System, path: Path, step: ReaderStep)
    requires Ground(s) && PathSound(s, path) && !Stores(s, path, step)
    ensures var t := ApplyReader(s, path, step); path in t.readers ==> ReaderSound(s, path, t.readers[path])
  {
    if path in s.readers {
      AdvanceIsSound(s, path, step, s.readers[path]);
    }
    hide Advance;
  }

  /** Soundness does not depend on the readers. */
  lemma ReadersAreAside(s: System, t: System, path: Path, reader: Reader)
    requires s.disk.Valid() && t == s.(readers := t.readers) && ReaderSound(s, path, reader)
    ensures ReaderSound(t, path, reader)
    ensures path in s.rows && Sound(s, path, s.rows[path]) ==> Sound(t, path, s.rows[path])
  {
  }

  lemma StoredIsSound(s: System, path: Path, row: Row<Content>)
    requires Ground(s) && Sound(s, path, row)
    ensures Sound(ApplyStore(s, path, row), path, row)
  {
    var t := ApplyStore(s, path, row);
    IndexFileRaises(s.index, path, row.stamp.inode);
    if t.Alive(path, row.stamp, row.version) && s.Owed(path) {
      StoreKeepsOwed(s, path, row, path);
    }
  }

  // ---------------------------------------------------------------------------
  // All steps
  // ---------------------------------------------------------------------------

  lemma WaitingCarries(s: System, t: System, path: Path)
    requires s.disk.Valid() && Waits(s, t)
    ensures Carries(s, t, path)
  {
    hide System.Owed;
  }

  lemma RepairDueCarries(s: System, t: System, path: Path)
    requires s.disk.Valid() && t.disk == s.disk && t.seen == s.seen && t.index == s.index && t.RepairDue()
    ensures Carries(s, t, path)
  {
    assert t.Owed(path);
    hide System.Owed;
  }

  lemma WatcherCarries(s: System, move: WatcherStep, path: Path)
    requires Ground(s)
    ensures Carries(s, ApplyWatcher(s, move), path)
  {
    var t := ApplyWatcher(s, move);
    match move
    case Receive(event) => ReceiveWaits(s, event); WaitingCarries(s, t, path);
    case Stat(via) => StatWaits(s, via); WaitingCarries(s, t, path);
    case Query => if s.dispatcher.Stated? { QueryWaits(s); } WaitingCarries(s, t, path);
    case Invalidate => if s.dispatcher.Looking? && s.dispatcher.left == {} { InvalidateCarries(s, path); }
    case DispatcherFails => if t != s { AbandonCarries(s, path); }
    case DispatcherStops => if t != s { AbandonCarries(s, path); }
    case Overflow(_) => if t != s { UnheardCarries(s, t, path); }
    case LoseWatch(_) => if t != s { RepairDueCarries(s, t, path); }
    case HandleLoss(ok) =>
      if t != s {
        if ok { RaiseAllCarries(s, t, path); } else { UnheardCarries(s, t, path); }
      }
    case AskRepair => if t != s { AskingCarries(s, path); }
  }

  lemma AskingCarries(s: System, path: Path)
    requires Ground(s) && s.dispatcher.Leaving?
    ensures Carries(s, ApplyWatcher(s, AskRepair), path)
  {
    assert s.WatchRaises(path) ==> false;
    hide System.WatchRaises;
  }

  lemma WatcherKeepsGround(s: System, move: WatcherStep)
    requires Ground(s)
    ensures Ground(ApplyWatcher(s, move))
  {
    hide InvalidateFiles, InvalidateAll, PathsSharingFile, System.WatchRaises, System.AliasDue, Unheard;
  }

  /** What a sound path needs from a step that touches neither its row nor, unless it drops it, its reader. */
  lemma KeptPathIsSound(s: System, t: System, path: Path)
    requires Ground(s) && t.disk.Valid() && Carries(s, t, path) && PathSound(s, path)
    requires path in t.rows ==> path in s.rows && t.rows[path] == s.rows[path]
    requires path in t.readers ==> path in s.readers && t.readers[path] == s.readers[path]
    ensures PathSound(t, path)
  {
    if path in t.rows { CarriesRow(s, t, path, t.rows[path]); }
    if path in t.readers { CarriesReader(s, t, path, t.readers[path]); }
  }

  lemma StoreKeepsPath(s: System, reading: Path, row: Row<Content>, path: Path)
    requires Ground(s) && Sound(s, reading, row) && PathSound(s, path)
    ensures Ground(ApplyStore(s, reading, row)) && PathSound(ApplyStore(s, reading, row), path)
  {
    if path == reading {
      StoredIsSound(s, reading, row);
    } else {
      StoreCarries(s, reading, row, path);
      KeptPathIsSound(s, ApplyStore(s, reading, row), path);
    }
  }

  lemma MoveKeepsPath(s: System, t: System, reading: Path, path: Path)
    requires Ground(s) && PathSound(s, path) && OnlyReader(s, t, reading)
    requires reading in t.readers ==> ReaderSound(s, reading, t.readers[reading])
    ensures Ground(t) && PathSound(t, path)
  {
    if path in t.readers {
      assert path != reading ==> path in t.readers - {reading};
      ReadersAreAside(s, t, path, t.readers[path]);
    } else if path in s.rows {
      assert Carries(s, t, path);
      CarriesRow(s, t, path, s.rows[path]);
    }
  }

  lemma ReaderKeepsPath(s: System, reading: Path, step: ReaderStep, path: Path)
    requires Ground(s) && PathSound(s, reading) && PathSound(s, path)
    ensures Ground(ApplyReader(s, reading, step)) && PathSound(ApplyReader(s, reading, step), path)
  {
    if Stores(s, reading, step) {
      StoreKeepsPath(s, reading, s.readers[reading].row, path);
    } else {
      StepMovesOnlyReader(s, reading, step);
      ReaderStays(s, reading, step);
      hide ApplyReader, OnlyReader, PathSound, Ground;
      MoveKeepsPath(s, ApplyReader(s, reading, step), reading, path);
    }
  }

  lemma RestartKeepsPath(s: System, path: Path)
    requires Ground(s) && PathSound(s, path)
    ensures Ground(ApplyRestart(s)) && PathSound(ApplyRestart(s), path)
  {
    assert ApplyRestart(s).index == s.index;
    if path in s.rows && s.Owed(path) {
      assert path in ApplyRestart(s).uncovered;
    }
  }

  lemma RaiseEpochKeepsPath(s: System, t: System, path: Path)
    requires Ground(s) && PathSound(s, path)
    requires t.disk == s.disk && t.seen == s.seen && t.index == InvalidateAll(s.index)
    requires t.rows == s.rows && t.readers == s.readers
    ensures PathSound(t, path)
  {
    RaiseAllCarries(s, t, path);
    KeptPathIsSound(s, t, path);
  }

  lemma FilesKeepPath(s: System, step: Step, path: Path)
    requires Ground(s) && PathSound(s, path) && (step.Write? || step.Replace?)
    ensures Ground(Next(s, step)) && PathSound(Next(s, step), path)
  {
    match step {
      case Write(via, content, mark, paths) =>
        WriteCarries(s, via, content, mark, paths, path);
        var disk := WriteIs(s, via, content, mark, paths);
      case Replace(disk) =>
        ReplaceCarries(s, disk, path);
    }
    KeptPathIsSound(s, Next(s, step), path);
  }

  lemma WatcherKeepsPath(s: System, move: WatcherStep, path: Path)
    requires Ground(s) && PathSound(s, path)
    ensures Ground(ApplyWatcher(s, move)) && PathSound(ApplyWatcher(s, move), path)
  {
    WatcherCarries(s, move, path);
    WatcherKeepsTables(s, move);
    WatcherKeepsGround(s, move);
    hide ApplyWatcher;
    KeptPathIsSound(s, ApplyWatcher(s, move), path);
  }

  lemma RepairKeepsPath(s: System, step: Step, path: Path)
    requires Ground(s) && PathSound(s, path)
    requires step.RequestRepair? || step.StartRepair? || step.RaiseEpoch? || step.Shutdown?
    ensures Ground(Next(s, step)) && PathSound(Next(s, step), path)
  {
    var t := Next(s, step);
    RepairKeepsGround(s, step);
    hide Ground, EventsSound;
    if step == RaiseEpoch(true) {
      hide PathSound, Sound, ReaderSound;
      if t != s { RaiseEpochKeepsPath(s, t, path); }
    } else {
      RepairCarries(s, step, path);
      hide PathSound, Sound, ReaderSound, Carries;
      KeptPathIsSound(s, t, path);
    }
  }

  lemma RepairKeepsGround(s: System, step: Step)
    requires Ground(s) && (step.RequestRepair? || step.StartRepair? || step.RaiseEpoch? || step.Shutdown?)
    ensures Ground(Next(s, step)) && Next(s, step).rows == s.rows && Next(s, step).readers == s.readers
  {
    assert s.disk.Valid();
    hide *;
    RepairIsAside(s, step);
    SameGround(s, Next(s, step));
  }

  /** The repair loop touches no file, no event and neither row nor reader. */
  ghost predicate SameWatch(s: System, t: System) {
    && t.disk == s.disk && t.seen == s.seen && t.undelivered == s.undelivered && t.nextId == s.nextId
    && t.dispatcher == s.dispatcher && t.watching == s.watching && t.lossOpen == s.lossOpen
    && t.rows == s.rows && t.readers == s.readers
  }

  lemma RepairIsAside(s: System, step: Step)
    requires s.disk.Valid() && (step.RequestRepair? || step.StartRepair? || step.RaiseEpoch? || step.Shutdown?)
    ensures SameWatch(s, Next(s, step))
  {
    hide ApplyReader, ApplyWatcher, ApplyWrite, ApplyReplace, ApplyRestart, InvalidateAll, Disk.Valid;
  }

  lemma SameGround(s: System, t: System)
    requires Ground(s) && SameWatch(s, t)
    ensures Ground(t) && t.rows == s.rows && t.readers == s.readers
  {
  }

  lemma RepairCarries(s: System, step: Step, path: Path)
    requires Ground(s) && (step.RequestRepair? || step.StartRepair? || step == RaiseEpoch(false) || step.Shutdown?)
    ensures Carries(s, Next(s, step), path)
  {
    var t := Next(s, step);
    match step
    case StartRepair => if t != s { RepairDueCarries(s, t, path); }
    case RequestRepair =>
      if s.repairer != Over {
        RepairDueCarries(s, t, path);
      } else if s.WatchRaises(path) {
        WatchRaisesLasts(s, t, path);
      }
    case _ => StopLoopCarries(s, path);
  }

  lemma NextKeepsPath(s: System, step: Step, path: Path)
    requires Inv(s)
    ensures Ground(Next(s, step)) && PathSound(Next(s, step), path)
  {
    assert PathSound(s, path) && Ground(s);
    match step
    case Write(_, _, _, _) => FilesKeepPath(s, step, path);
    case Replace(_) => FilesKeepPath(s, step, path);
    case Read(reading, action) =>
      assert PathSound(s, reading);
      ReaderKeepsPath(s, reading, action, path);
    case Watch(move) => WatcherKeepsPath(s, move, path);
    case RequestRepair => RepairKeepsPath(s, step, path);
    case StartRepair => RepairKeepsPath(s, step, path);
    case RaiseEpoch(_) => RepairKeepsPath(s, step, path);
    case Shutdown => RepairKeepsPath(s, step, path);
    case Restart => RestartKeepsPath(s, path);
  }

  lemma WatcherKeepsTables(s: System, move: WatcherStep)
    requires s.disk.Valid()
    ensures ApplyWatcher(s, move).rows == s.rows && ApplyWatcher(s, move).readers == s.readers
  {
  }

  lemma NextKeepsInv(s: System, step: Step)
    requires Inv(s)
    ensures Inv(Next(s, step))
  {
    var t := Next(s, step);
    forall path ensures Ground(t) && PathSound(t, path) {
      NextKeepsPath(s, step, path);
    }
    assert Ground(t) by { NextKeepsPath(s, step, Path(Directory(0), "", Lrc(0))); }
  }

  function Run(s: System, steps: seq<Step>): (t: System)
    requires s.disk.Valid()
    ensures t.disk.Valid()
    decreases |steps|
  {
    if steps == [] then s else Run(Next(s, steps[0]), steps[1..])
  }

  lemma {:induction false} RunKeepsInv(s: System, steps: seq<Step>)
    requires Inv(s)
    ensures Inv(Run(s, steps))
    decreases |steps|
  {
    if steps != [] {
      NextKeepsInv(s, steps[0]);
      RunKeepsInv(Next(s, steps[0]), steps[1..]);
    }
  }
}
