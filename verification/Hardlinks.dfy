/** Which names of a written inode have their version raised when the write's event is dispatched (src/db.rs, src/watch.rs). */
module Hardlinks {
  import opened Basics
  import opened SnapshotIndex
  import opened Snapshots
  import opened SnapshotRuns
  import opened SnapshotGuarantees

  ghost predicate IndexedAs(s: System, path: Path, inode: Inode) {
    path in s.index.identities && s.index.identities[path] == inode
  }

  // ---------------------------------------------------------------------------
  // Names that stay indexed are reached
  // ---------------------------------------------------------------------------

  /** The service neither fails nor stops by this step. */
  predicate Serving(step: Step) {
    && !step.Restart? && !step.Shutdown? && step != RaiseEpoch(false)
    && step != Watch(DispatcherFails) && step != Watch(DispatcherStops)
  }

  ghost predicate StaysIndexed(s: System, steps: seq<Step>, path: Path, inode: Inode)
    requires s.disk.Valid()
    decreases |steps|
  {
    IndexedAs(s, path, inode) && (steps == [] || StaysIndexed(Next(s, steps[0]), steps[1..], path, inode))
  }

  /** The version of `path` rose above `before`, or will before `event` is done. */
  ghost predicate AliasCovered(s: System, event: Event, path: Path, before: nat) {
    && before <= s.Version(path) && s.repairer != Over
    && (|| s.Version(path) > before
        || s.RepairDue()
        || (event in s.undelivered && IndexedAs(s, event.via, event.inode)
            && (s.dispatcher.Busy() && s.dispatcher.event == event ==> event.via in s.dispatcher.Pending()))
        || (s.dispatcher.Busy() && s.dispatcher.event == event && path in s.dispatcher.affected))
  }

  lemma WatcherKeepsAlias(s: System, move: WatcherStep, event: Event, path: Path, before: nat)
    requires Ground(s) && AliasCovered(s, event, path, before) && IndexedAs(s, path, event.inode) && Serving(Watch(move))
    ensures AliasCovered(ApplyWatcher(s, move), event, path, before)
  {
    hide System.WatchRaises, System.AliasDue;
    match move
    case Receive(_) =>
    case Stat(_) =>
    case Query =>
    case Invalidate =>
      if s.dispatcher.Looking? && s.dispatcher.left == {} {
        InvalidateFilesRaises(s.index, s.dispatcher.affected);
      }
    case Overflow(_) =>
    case LoseWatch(_) =>
    case HandleLoss(_) => InvalidateAllRaises(s.index);
    case AskRepair =>
  }

  lemma StoreKeepsAlias(s: System, stored: Path, row: Row<Content>, event: Event, path: Path, before: nat)
    requires AliasCovered(s, event, path, before) && IndexedAs(s, path, event.inode) && path != event.via
    ensures AliasCovered(ApplyStore(s, stored, row), event, path, before)
  {
    IndexFileRaises(s.index, stored, row.stamp.inode);
    if stored == event.via && row.stamp.inode != event.inode && IndexedAs(s, event.via, event.inode) {
      assert path in Displaced(s.index, stored, row.stamp.inode);
    }
  }

  lemma NextKeepsAlias(s: System, step: Step, event: Event, path: Path, before: nat)
    requires Ground(s) && AliasCovered(s, event, path, before) && path != event.via && Serving(step)
    requires IndexedAs(s, path, event.inode)
    ensures AliasCovered(Next(s, step), event, path, before)
  {
    match step
    case Write(via, content, mark, paths) =>
      var disk := WriteIs(s, via, content, mark, paths);
      hide ApplyWrite;
    case Replace(disk) =>
    case Read(reading, action) =>
      if Stores(s, reading, action) {
        StoreKeepsAlias(s, reading, s.readers[reading].row, event, path, before);
      } else {
        StepMovesOnlyReader(s, reading, action);
        hide ApplyReader;
      }
    case Watch(move) => WatcherKeepsAlias(s, move, event, path, before);
    case RequestRepair =>
    case StartRepair =>
    case RaiseEpoch(_) => InvalidateAllRaises(s.index);
  }

  lemma {:induction false} RunKeepsAlias(s: System, steps: seq<Step>, event: Event, path: Path, before: nat)
    requires Inv(s) && AliasCovered(s, event, path, before) && path != event.via
    requires StaysIndexed(s, steps, path, event.inode) && forall k :: 0 <= k < |steps| ==> Serving(steps[k])
    ensures AliasCovered(Run(s, steps), event, path, before)
    decreases |steps|
  {
    if steps != [] {
      assert Serving(steps[0]);
      NextKeepsInv(s, steps[0]);
      NextKeepsAlias(s, steps[0], event, path, before);
      hide Inv, Next, AliasCovered, Serving;
      RunKeepsAlias(Next(s, steps[0]), steps[1..], event, path, before);
    }
  }

  /**
   A write through a path indexed as the written inode. Once its event is dispatched, every other
   path that was indexed as that inode, and has not been stored under another one meanwhile, has had
   its version raised (or a repair that raises them all is due).
   */
  lemma HardlinkCoverage(s: System, via: Path, content: Content, mark: nat, paths: set<Path>, steps: seq<Step>,
    path: Path)
    requires Inv(s) && s.watching && s.repairer != Over && Writes(s, via, content, mark, paths)
    requires IndexedAs(s, via, s.disk.link[via]) && path != via
    requires StaysIndexed(Next(s, Write(via, content, mark, paths)), steps, path, s.disk.link[via])
    requires forall k :: 0 <= k < |steps| ==> Serving(steps[k])
    ensures var t := Run(Next(s, Write(via, content, mark, paths)), steps);
      t.Version(path) > s.Version(path) || t.RepairDue()
      || Event(s.nextId, via, s.disk.link[via], paths) in t.undelivered
  {
    var step, event := Write(via, content, mark, paths), Event(s.nextId, via, s.disk.link[via], paths);
    NextKeepsInv(s, step);
    assert s.dispatcher.Busy() ==> s.dispatcher.event != event;
    assert AliasCovered(Next(s, step), event, path, s.Version(path));
    RunKeepsAlias(Next(s, step), steps, event, path, s.Version(path));
    var t := Run(Next(s, step), steps);
    RunKeepsInv(Next(s, step), steps);
    assert EventsSound(t);
  }

  // ---------------------------------------------------------------------------
  // Exactly which names are reached
  // ---------------------------------------------------------------------------

  /** The step raises the version of `path`. */
  ghost predicate Raises(s: System, step: Step, path: Path)
    requires s.disk.Valid()
  {
    || RaisesEpoch(s, step)
    || (step.Read? && Stores(s, step.path, step.action)
        && path in Displaced(s.index, step.path, s.readers[step.path].row.stamp.inode))
    || (step == Watch(Invalidate) && s.dispatcher.Looking? && s.dispatcher.left == {} && path in s.dispatcher.affected)
  }

  /** The step ends the dispatch of `event`. */
  predicate Dispatches(s: System, step: Step, event: Event) {
    step == Watch(Invalidate) && s.dispatcher.Looking? && s.dispatcher.left == {} && s.dispatcher.event == event
  }

  /** The dispatcher, at work on `event`, finds `path` as an alias of one of its names. */
  predicate Finds(s: System, step: Step, event: Event, path: Path) {
    step == Watch(Query) && s.dispatcher.Stated? && s.dispatcher.event == event
    && path in PathsSharingFile(s.index, s.dispatcher.path, s.dispatcher.current)
  }

  lemma WatcherRaisesExactly(s: System, move: WatcherStep, path: Path)
    requires Inv(s)
    ensures ApplyWatcher(s, move).Version(path) == s.Version(path) + (if Raises(s, Watch(move), path) then 1 else 0)
  {
    InvalidateAllRaises(s.index);
    if s.dispatcher.Looking? { InvalidateFilesRaises(s.index, s.dispatcher.affected); }
    hide InvalidateFiles, InvalidateAll, System.WatchRaises, PathsSharingFile, Inv, Index.Counter;
  }

  lemma ReaderRaisesExactly(s: System, reading: Path, action: ReaderStep, path: Path)
    requires s.disk.Valid()
    ensures ApplyReader(s, reading, action).Version(path)
      == s.Version(path) + (if Raises(s, Read(reading, action), path) then 1 else 0)
  {
    if Stores(s, reading, action) {
      IndexFileRaises(s.index, reading, s.readers[reading].row.stamp.inode);
      hide IndexFile;
    } else {
      StepMovesOnlyReader(s, reading, action);
      hide ApplyReader;
    }
  }

  lemma RaisesExactly(s: System, step: Step, path: Path)
    requires Inv(s)
    ensures Next(s, step).Version(path) == s.Version(path) + (if Raises(s, step, path) then 1 else 0)
  {
    assert s.disk.Valid();
    hide Inv, ApplyWatcher, ApplyReader, InvalidateAll, Index.FileVersion, System.LoopRaises;
    match step
    case Write(via, content, mark, paths) =>
      var disk := WriteIs(s, via, content, mark, paths);
      hide ApplyWrite;
    case Replace(disk) =>
    case Read(reading, action) => ReaderRaisesExactly(s, reading, action, path);
    case Watch(move) => WatcherRaisesExactly(s, move, path);
    case RequestRepair =>
    case StartRepair =>
    case RaiseEpoch(_) => InvalidateAllRaises(s.index);
    case Shutdown =>
    case Restart =>
  }

  ghost predicate FoundIn(s: System, steps: seq<Step>, event: Event, path: Path)
    requires s.disk.Valid()
    decreases |steps|
  {
    steps != [] && (Finds(s, steps[0], event, path) || FoundIn(Next(s, steps[0]), steps[1..], event, path))
  }

  ghost predicate DispatchedIn(s: System, steps: seq<Step>, event: Event)
    requires s.disk.Valid()
    decreases |steps|
  {
    steps != [] && (Dispatches(s, steps[0], event) || DispatchedIn(Next(s, steps[0]), steps[1..], event))
  }

  /** Something else raises the version of `path`: the epoch, another event, or a name of its inode that is stored anew. */
  ghost predicate RaisedOtherwise(s: System, steps: seq<Step>, event: Event, path: Path)
    requires s.disk.Valid()
    decreases |steps|
  {
    steps != []
    && (|| (Raises(s, steps[0], path) && !Dispatches(s, steps[0], event))
        || RaisedOtherwise(Next(s, steps[0]), steps[1..], event, path))
  }

  /** The event is over: it is not waiting, and no new event will be mistaken for it. */
  ghost predicate Past(s: System, event: Event) { event !in s.undelivered && event.id < s.nextId }

  /** Events arrive with new numbers, and only the watcher takes them away. */
  lemma EventsArrive(s: System, step: Step)
    requires Inv(s) && !step.Watch? && !step.Restart?
    ensures var t := Next(s, step);
      && t.dispatcher == s.dispatcher && s.undelivered <= t.undelivered && s.nextId <= t.nextId
      && forall event :: event in t.undelivered && event !in s.undelivered ==> event.id >= s.nextId
  {
    assert s.disk.Valid();
    hide Inv, ApplyWatcher, ApplyReader, InvalidateAll, System.LoopRaises;
    match step
    case Write(via, content, mark, paths) =>
      var disk := WriteIs(s, via, content, mark, paths);
      hide ApplyWrite;
    case Read(reading, action) => ReaderKeepsEvents(s, reading, action);
    case _ => hide ApplyWrite;
  }

  lemma EventsLeave(s: System, move: WatcherStep)
    requires Inv(s)
    ensures var t := ApplyWatcher(s, move);
      && t.undelivered <= s.undelivered && t.nextId == s.nextId
  {
    hide PathsSharingFile, InvalidateFiles, InvalidateAll, System.WatchRaises, System.AliasDue, PathSound;
  }

  lemma StaysPast(s: System, step: Step, event: Event)
    requires Inv(s) && Past(s, event)
    ensures Past(Next(s, step), event) && !Dispatches(s, step, event)
    ensures forall path :: !Finds(s, step, event, path)
  {
    assert s.dispatcher.Busy() ==> s.dispatcher.event in s.undelivered;
    if step.Watch? {
      EventsLeave(s, step.move);
    } else if !step.Restart? {
      EventsArrive(s, step);
    }
    hide Inv, ApplyWatcher, ApplyReader, ApplyWrite, ApplyReplace, PathsSharingFile, InvalidateAll;
  }

  lemma ReaderKeepsEvents(s: System, reading: Path, action: ReaderStep)
    requires s.disk.Valid()
    ensures var t := ApplyReader(s, reading, action);
      t.undelivered == s.undelivered && t.nextId == s.nextId && t.dispatcher == s.dispatcher
  {
    hide Advance, IndexFile;
  }

  /** Once the event is over, only other causes raise anything. */
  lemma {:induction false} PastRaises(s: System, steps: seq<Step>, event: Event, path: Path)
    requires Inv(s) && Past(s, event)
    ensures s.Version(path) <= Run(s, steps).Version(path)
    ensures Run(s, steps).Version(path) > s.Version(path) <==> RaisedOtherwise(s, steps, event, path)
    ensures !FoundIn(s, steps, event, path) && !DispatchedIn(s, steps, event)
    decreases |steps|
  {
    if steps != [] {
      StaysPast(s, steps[0], event);
      RaisesExactly(s, steps[0], path);
      NextKeepsInv(s, steps[0]);
      hide Inv, Next, Past, Raises, Finds, Dispatches;
      PastRaises(Next(s, steps[0]), steps[1..], event, path);
    }
  }

  /** The dispatcher, at work on `event`, has found `path`. */
  predicate Caught(s: System, event: Event, path: Path) {
    s.dispatcher.Busy() && s.dispatcher.event == event && path in s.dispatcher.affected
  }

  lemma WatcherCatches(s: System, move: WatcherStep, event: Event, path: Path)
    requires Inv(s) && event in s.undelivered && path !in event.paths && !Dispatches(s, Watch(move), event)
    requires event in ApplyWatcher(s, move).undelivered
    ensures Caught(ApplyWatcher(s, move), event, path) <==> Caught(s, event, path) || Finds(s, Watch(move), event, path)
  {
    hide PathsSharingFile, InvalidateFiles, InvalidateAll, System.WatchRaises, System.AliasDue, PathSound;
  }

  lemma CatchesByFinding(s: System, step: Step, event: Event, path: Path)
    requires Inv(s) && event in s.undelivered && path !in event.paths
    ensures var t := Next(s, step);
      && (Dispatches(s, step, event) || event !in t.undelivered ==> Past(t, event))
      && (!Dispatches(s, step, event) && event in t.undelivered ==>
            (Caught(t, event, path) <==> Caught(s, event, path) || Finds(s, step, event, path)))
  {
    assert event.id < s.nextId;
    if step.Watch? {
      EventsLeave(s, step.move);
      if !Dispatches(s, step, event) && event in ApplyWatcher(s, step.move).undelivered {
        WatcherCatches(s, step.move, event, path);
      }
      DispatchEnds(s, step, event);
    } else if !step.Restart? {
      EventsArrive(s, step);
    }
    hide Inv, ApplyWatcher, ApplyReader, ApplyWrite, ApplyReplace, PathsSharingFile, InvalidateAll, Finds;
  }

  lemma DispatchEnds(s: System, step: Step, event: Event)
    requires s.disk.Valid()
    ensures Dispatches(s, step, event) ==> event !in Next(s, step).undelivered
  {
    hide InvalidateFiles;
  }

  lemma DispatchRaisesCaught(s: System, step: Step, event: Event, path: Path)
    requires Inv(s) && Dispatches(s, step, event)
    ensures Raises(s, step, path) <==> Caught(s, event, path)
  {
  }

  /**
   Exactly which aliases a dispatch reaches: from any state in which the event still waits to the end of
   any run in which it was dispatched, the version of a path that the event does not name rises exactly
   if the dispatcher finds the path at one of its lookups, or something else raises it.
   */
  lemma {:induction false} DispatchRaisesExactly(s: System, steps: seq<Step>, event: Event, path: Path)
    requires Inv(s) && event in s.undelivered && path !in event.paths && DispatchedIn(s, steps, event)
    ensures s.Version(path) <= Run(s, steps).Version(path)
    ensures Run(s, steps).Version(path) > s.Version(path) <==>
      Caught(s, event, path) || FoundIn(s, steps, event, path) || RaisedOtherwise(s, steps, event, path)
    decreases |steps|
  {
    var step, t := steps[0], Next(s, steps[0]);
    CatchesByFinding(s, step, event, path);
    RaisesExactly(s, step, path);
    NextKeepsInv(s, step);
    if Dispatches(s, step, event) {
      DispatchRaisesCaught(s, step, event, path);
      PastRaises(t, steps[1..], event, path);
      assert !Finds(s, step, event, path);
    } else if event !in t.undelivered {
      PastRaises(t, steps[1..], event, path);
    } else {
      hide Inv, Next, Raises, Finds, Dispatches, Caught;
      DispatchRaisesExactly(t, steps[1..], event, path);
    }
  }

  /** At each lookup for `event`, `path` is indexed neither under the inode of the name nor under the one recorded for it. */
  ghost predicate Strays(s: System, steps: seq<Step>, event: Event, path: Path)
    requires s.disk.Valid()
    decreases |steps|
  {
    steps != [] ==>
      && (steps[0] == Watch(Query) && s.dispatcher.Stated? && s.dispatcher.event == event && path in s.index.identities ==>
            && s.dispatcher.current != Some(s.index.identities[path])
            && !IndexedAs(s, s.dispatcher.path, s.index.identities[path]))
      && Strays(Next(s, steps[0]), steps[1..], event, path)
  }

  lemma {:induction false} StraysIsNotFound(s: System, steps: seq<Step>, event: Event, path: Path)
    requires s.disk.Valid()
    ensures Strays(s, steps, event, path) <==> !FoundIn(s, steps, event, path)
    decreases |steps|
  {
    if steps != [] {
      hide Next;
      StraysIsNotFound(Next(s, steps[0]), steps[1..], event, path);
    }
  }

  /**
   The other half of the claim about hard links. An alias of the written inode that the event does not
   name keeps its version through the dispatch exactly if it strays: whenever the dispatcher looks, the
   alias has been stored under another inode than the name has or had, and nothing else raises it, so
   that in particular the written name was not stored anew before.
   */
  lemma AliasEscapesExactly(s: System, via: Path, content: Content, mark: nat, paths: set<Path>, steps: seq<Step>,
    path: Path)
    requires Inv(s) && s.watching && Writes(s, via, content, mark, paths) && path !in paths
    requires DispatchedIn(Next(s, Write(via, content, mark, paths)), steps, Event(s.nextId, via, s.disk.link[via], paths))
    ensures var u, event := Next(s, Write(via, content, mark, paths)), Event(s.nextId, via, s.disk.link[via], paths);
      Run(u, steps).Version(path) == s.Version(path) <==>
        Strays(u, steps, event, path) && !RaisedOtherwise(u, steps, event, path)
  {
    var step, event := Write(via, content, mark, paths), Event(s.nextId, via, s.disk.link[via], paths);
    var u := Next(s, step);
    NextKeepsInv(s, step);
    assert !Caught(u, event, path);
    RaisesExactly(s, step, path);
    DispatchRaisesExactly(u, steps, event, path);
    StraysIsNotFound(u, steps, event, path);
  }

  // ---------------------------------------------------------------------------
  // No alias keeps a stale row
  // ---------------------------------------------------------------------------

  /**
   Raised or not, no alias of a written inode keeps a row that matches and is stale: along any run that
   respects the premises, a row from before the write, once nothing is owed to its path any more, either
   no longer matches the file or holds what the file holds.
   */
  lemma AliasKeepsNoStaleRow(disk: Disk, steps: seq<Step>, write: Step, more: seq<Step>, path: Path)
    requires disk.Valid() && write.Write? && PremisedRun(Fresh(disk), steps + [write] + more)
    requires var s := Run(Fresh(disk), steps);
      write.via in s.disk.link && path in s.disk.link && s.disk.link[path] == s.disk.link[write.via] && path in s.rows
    ensures var s, t := Run(Fresh(disk), steps), Run(Fresh(disk), steps + [write] + more);
      path in t.rows && t.rows[path] == s.rows[path] && path in t.disk.link && !t.Owed(path) ==>
        var hit := Lookup(t.rows, path, t.disk.StampOf(path), t.Version(path));
        hit.None? || hit.value == t.Content(path)
  {
    PremisedCoherence(disk, steps + [write] + more, path);
  }
}
