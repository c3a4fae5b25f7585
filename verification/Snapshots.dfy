/**
 The content-snapshot cache under every interleaving (src/scan.rs, src/db.rs, src/watch.rs).

 Readers stamp a file, read its version, look the pair up, read the file, recheck both and store
 under the old pair. Meanwhile files are written in place (their stamp may stay), replaced or
 linked, events travel to the dispatcher or get lost, and repairs raise the library epoch.

 Premises: a stamp that has changed never recurs for its path; while the watch is intact, each
 write in place raises an event naming its path or loses the watch; and a path has one reader at
 a time, because its directory has one owner. `uncovered` names the paths with a change for which
 nobody will raise a version any more.
 */
module Snapshots {
  import opened Basics
  import opened SnapshotIndex
  import opened Tags

  /** What reading a file gives: the tags of an audio file, the text of a sidecar, or nothing. */
  datatype Content = Recording(tags: TrackTags) | Lyrics(text: string) | Unreadable

  // ---------------------------------------------------------------------------
  // Files
  // ---------------------------------------------------------------------------

  /** `writes` counts the content changes of an inode, so that a read can tell whether it was torn. */
  datatype Disk = Disk(link: map<Path, Inode>, data: map<Inode, Content>, mark: map<Inode, nat>, writes: map<Inode, nat>)
  {
    predicate Valid() {
      forall path :: path in link ==> link[path] in data && link[path] in mark && link[path] in writes
    }

    function StampOf(path: Path): Stamp
      requires path in link && link[path] in mark
    {
      Stamp(link[path], mark[link[path]])
    }

    predicate Shows(path: Path, stamp: Stamp)
      requires Valid()
    {
      path in link && StampOf(path) == stamp
    }
  }

  /** Every path keeps its stamp or shows one that it never showed before. */
  predicate StampsAdvance(before: Disk, after: Disk, seen: set<(Path, Stamp)>)
    requires before.Valid() && after.Valid()
  {
    forall path :: path in after.link ==>
      before.Shows(path, after.StampOf(path)) || (path, after.StampOf(path)) !in seen
  }

  /** What a path with an unchanged stamp shows is unchanged. */
  predicate SameBehindStamps(before: Disk, after: Disk)
    requires before.Valid() && after.Valid()
  {
    forall path :: path in after.link && before.Shows(path, after.StampOf(path)) ==>
      after.data[after.link[path]] == before.data[before.link[path]]
      && after.writes[after.link[path]] == before.writes[before.link[path]]
  }

  // ---------------------------------------------------------------------------
  // The whole system
  // ---------------------------------------------------------------------------

  /** A write to `inode` through `via`, notified for `paths`. */
  datatype Event = Event(id: nat, via: Path, inode: Inode, paths: set<Path>)

  datatype Dispatcher =
    | Idle
    | Looking(event: Event, left: set<Path>, affected: set<Path>)
    | Stated(event: Event, left: set<Path>, affected: set<Path>, path: Path, current: Option<Inode>)
    | Leaving
    | Gone
  {
    predicate Busy() { Looking? || Stated? }

    /** The paths whose aliases are still to be looked up. */
    function Pending(): set<Path>
      requires Busy()
    {
      if Looking? then left else left + {path}
    }
  }

  /** The repair loop is over when the service stops or when it could not raise the epoch. */
  datatype Repairer = Watching | Invalidating | Over

  datatype Reader =
    | Stamped(stamp: Stamp)
    | Versioned(stamp: Stamp, version: nat)
    | Missed(stamp: Stamp, version: nat)
    | Reading(stamp: Stamp, version: nat, inode: Inode, count: nat)
    | Got(row: Row<Content>, cached: bool)
    | Restamped(row: Row<Content>, cached: bool)
    | Confirmed(row: Row<Content>, cached: bool)
    | Held(row: Row<Content>)
    | Agreed(row: Row<Content>)

  datatype System = System(
    disk: Disk,
    seen: set<(Path, Stamp)>,
    index: Index,
    rows: map<Path, Row<Content>>,
    readers: map<Path, Reader>,
    undelivered: set<Event>,
    nextId: nat,
    dispatcher: Dispatcher,
    repairer: Repairer,
    repair: bool,
    watching: bool,
    lossOpen: bool,
    uncovered: set<Path>)
  {
    function Version(path: Path): nat { index.FileVersion(path) }

    /** The repair loop will raise the epoch: it is at it, was asked to, or is about to be asked. */
    predicate LoopRaises() { repairer != Over && (repair || repairer == Invalidating || dispatcher.Leaving?) }

    /** Somebody will raise the epoch: the repair loop, or the dispatcher for the lost watch. */
    predicate RepairDue() { LoopRaises() || lossOpen }

    /** The dispatcher will find `path` as an alias of the file that `event` reports. */
    predicate AliasDue(event: Event, path: Path) {
      && event in undelivered
      && path in disk.link && disk.link[path] == event.inode
      && path in index.identities && index.identities[path] == event.inode
      && event.via in index.identities && index.identities[event.via] == event.inode
      && (dispatcher.Busy() && dispatcher.event == event ==> event.via in dispatcher.Pending())
    }

    /** The dispatcher will raise the version of `path`. */
    predicate WatchRaises(path: Path) {
      || lossOpen
      || (exists event :: event in undelivered && (path in event.paths || AliasDue(event, path)))
      || (dispatcher.Busy() && path in dispatcher.affected)
    }

    /** The version of `path` will still be raised for a change that has already happened. */
    predicate Owed(path: Path) { LoopRaises() || WatchRaises(path) }

    predicate Excused(path: Path) { Owed(path) || path in uncovered }

    predicate Alive(path: Path, stamp: Stamp, version: nat)
      requires disk.Valid()
    {
      disk.Shows(path, stamp) && Version(path) == version
    }

    /** What `path` holds now. */
    function Content(path: Path): Content
      requires path in disk.link && disk.link[path] in disk.data
    {
      disk.data[disk.link[path]]
    }
  }

  // ---------------------------------------------------------------------------
  // Steps
  // ---------------------------------------------------------------------------

  datatype ReaderStep =
    | Begin | TakeVersion | LookUp | Open | EndRead(torn: Content)
    | RecheckStamp | RecheckVersion | Store | AgreeStamp | AgreeVersion | Drop

  datatype WatcherStep =
    | Receive(event: Event) | Stat(path: Path) | Query | Invalidate | DispatcherFails | DispatcherStops
    | Overflow(event: Event) | LoseWatch(lost: set<Event>) | HandleLoss(ok: bool) | AskRepair

  datatype Step =
    | Write(via: Path, content: Content, mark: nat, paths: set<Path>)
    | Replace(disk: Disk)
    | Read(path: Path, action: ReaderStep)
    | Watch(move: WatcherStep)
    | RequestRepair
    | StartRepair
    | RaiseEpoch(ok: bool)
    | Shutdown
    | Restart

  function Aliases(disk: Disk, inode: Inode): set<Path> {
    set path | path in disk.link && disk.link[path] == inode
  }

  function SeenAfter(seen: set<(Path, Stamp)>, disk: Disk): set<(Path, Stamp)> {
    seen + (set path | path in disk.link && disk.link[path] in disk.mark :: (path, disk.StampOf(path)))
  }

  function Written(disk: Disk, inode: Inode, content: Content, mark: nat): Disk
    requires inode in disk.writes
  {
    Disk(disk.link, disk.data[inode := content], disk.mark[inode := mark], disk.writes[inode := disk.writes[inode] + 1])
  }

  /** The aliases that the event of a write through `via` does not reach. */
  function Unreached(s: System, via: Path, inode: Inode, paths: set<Path>): set<Path> {
    set path | path in Aliases(s.disk, inode) && path !in paths
      && !(path in s.index.identities && s.index.identities[path] == inode
           && via in s.index.identities && s.index.identities[via] == inode)
  }

  function ApplyWrite(s: System, via: Path, content: Content, mark: nat, paths: set<Path>): (t: System)
    requires s.disk.Valid()
    ensures t.disk.Valid()
  {
    if via !in s.disk.link || via !in paths then s
    else
      var inode := s.disk.link[via];
      var disk := Written(s.disk, inode, content, mark);
      if !StampsAdvance(s.disk, disk, s.seen) then s
      else
        var u := s.(disk := disk, seen := SeenAfter(s.seen, disk));
        if s.watching then
          u.(undelivered := s.undelivered + {Event(s.nextId, via, inode, paths)},
             nextId := s.nextId + 1,
             uncovered := s.uncovered + Unreached(s, via, inode, paths))
        else if s.RepairDue() then u
        else u.(uncovered := s.uncovered + Aliases(s.disk, inode))
  }

  function ApplyReplace(s: System, disk: Disk): (t: System)
    requires s.disk.Valid()
    ensures t.disk.Valid()
  {
    if disk.Valid() && StampsAdvance(s.disk, disk, s.seen) && SameBehindStamps(s.disk, disk) then
      s.(disk := disk, seen := SeenAfter(s.seen, disk),
         uncovered := set path | path in s.uncovered && path in disk.link && s.disk.Shows(path, disk.StampOf(path)))
    else s
  }

  /** A reader's next state of mind; a failed check drops it. */
  function Advance(s: System, path: Path, step: ReaderStep, reader: Reader): Option<Reader>
    requires s.disk.Valid()
  {
    match (step, reader)
    case (TakeVersion, Stamped(stamp)) => Some(Versioned(stamp, s.Version(path)))
    case (LookUp, Versioned(stamp, version)) =>
      var hit := Lookup(s.rows, path, stamp, version);
      if hit.Some? then Some(Got(Row(stamp, version, hit.value), true)) else Some(Missed(stamp, version))
    case (Open, Missed(stamp, version)) =>
      if path in s.disk.link then Some(Reading(stamp, version, s.disk.link[path], s.disk.writes[s.disk.link[path]]))
      else None
    case (EndRead(torn), Reading(stamp, version, inode, count)) =>
      var exact := path in s.disk.link && s.disk.link[path] == inode && s.disk.writes[inode] == count;
      Some(Got(Row(stamp, version, if exact then s.Content(path) else torn), false))
    case (RecheckStamp, Got(row, cached)) =>
      if s.disk.Shows(path, row.stamp) then Some(Restamped(row, cached)) else None
    case (RecheckVersion, Restamped(row, cached)) =>
      if s.Version(path) == row.version then Some(Confirmed(row, cached)) else None
    case (Store, Confirmed(row, cached)) => Some(Held(row))
    case (AgreeStamp, Held(row)) => if s.disk.Shows(path, row.stamp) then Some(Agreed(row)) else None
    case (AgreeVersion, Agreed(row)) => if s.Version(path) == row.version then Some(Held(row)) else None
    case (Drop, _) => None
    case _ => Some(reader)
  }

  function WithReader(s: System, path: Path, reader: Option<Reader>): System {
    s.(readers := if reader.Some? then s.readers[path := reader.value] else s.readers - {path})
  }

  /** The step at which a reader stores what it read itself. */
  predicate Stores(s: System, path: Path, step: ReaderStep) {
    step.Store? && path in s.readers && s.readers[path].Confirmed? && !s.readers[path].cached
  }

  /** The steps of the one reader of `path`. */
  function ApplyReader(s: System, path: Path, step: ReaderStep): (t: System)
    requires s.disk.Valid()
    ensures t.disk.Valid()
  {
    if step.Begin? then
      if path in s.disk.link && path !in s.readers then WithReader(s, path, Some(Stamped(s.disk.StampOf(path)))) else s
    else if path !in s.readers then s
    else if Stores(s, path, step) then ApplyStore(s, path, s.readers[path].row)
    else WithReader(s, path, Advance(s, path, step, s.readers[path]))
  }

  /** One transaction: the row, the index entry and the displaced aliases. */
  function ApplyStore(s: System, path: Path, row: Row<Content>): System {
    WithReader(
      s.(rows := s.rows[path := row],
         index := IndexFile(s.index, path, row.stamp.inode),
         uncovered := s.uncovered - Displaced(s.index, path, row.stamp.inode)),
      path, Some(Held(row)))
  }

  function RaiseAll(s: System): System { s.(index := InvalidateAll(s.index), uncovered := {}) }

  /** The dispatcher leaves for good, and its watch, its events and its debts with it. */
  function Abandon(s: System): System {
    s.(dispatcher := Gone, watching := false, undelivered := {}, lossOpen := false,
       uncovered := s.uncovered + set path | path in s.disk.link && s.WatchRaises(path))
  }

  /** The repair loop ends, and with it what it was to raise. */
  function StopLoop(s: System): System {
    s.(repairer := Over, uncovered := if s.LoopRaises() then s.uncovered + s.disk.link.Keys else s.uncovered)
  }

  function ApplyWatcher(s: System, step: WatcherStep): (t: System)
    requires s.disk.Valid()
    ensures t.disk.Valid()
  {
    match (step, s.dispatcher)
    case (Receive(event), Idle) =>
      if event in s.undelivered then s.(dispatcher := Looking(event, event.paths, event.paths)) else s
    case (Stat(path), Looking(event, left, affected)) =>
      if path in left then
        s.(dispatcher := Stated(event, left - {path}, affected, path,
             if path in s.disk.link then Some(s.disk.link[path]) else None))
      else s
    case (Query, Stated(event, left, affected, path, current)) =>
      s.(dispatcher := Looking(event, left, affected + PathsSharingFile(s.index, path, current)))
    case (Invalidate, Looking(event, left, affected)) =>
      if left == {} then
        s.(index := InvalidateFiles(s.index, affected), undelivered := s.undelivered - {event},
           uncovered := s.uncovered - affected, dispatcher := Idle)
      else s
    case (DispatcherFails, _) => if s.dispatcher.Busy() then Abandon(s) else s
    case (DispatcherStops, Idle) => if s.repairer == Over then Abandon(s) else s
    case (Overflow(event), _) =>
      if event in s.undelivered && !(s.dispatcher.Busy() && s.dispatcher.event == event) then
        s.(undelivered := s.undelivered - {event}, repair := true, uncovered := Unheard(s))
      else s
    case (LoseWatch(lost), _) =>
      if s.watching && !(s.dispatcher.Busy() && s.dispatcher.event in lost) then
        s.(undelivered := s.undelivered - lost, watching := false, lossOpen := true)
      else s
    case (HandleLoss(ok), Idle) =>
      if !s.lossOpen then s
      else
        var t := s.(dispatcher := Leaving, undelivered := {}, lossOpen := false, uncovered := Unheard(s));
        if ok then RaiseAll(t) else t
    case (AskRepair, Leaving) => s.(repair := true, dispatcher := Gone)
    case _ => s
  }

  /** A repair request that comes after the end of the repair loop helps nobody. */
  function Unheard(s: System): set<Path> {
    if s.repairer == Over then s.uncovered + set path | path in s.disk.link && s.WatchRaises(path) else s.uncovered
  }

  /** The process stops and starts again: only the disk and the database survive. */
  function ApplyRestart(s: System): System {
    s.(readers := map[], undelivered := {}, dispatcher := Idle, repairer := Watching, repair := false,
       watching := true, lossOpen := false,
       uncovered := s.uncovered + set path | path in s.rows && s.Owed(path))
  }

  function Next(s: System, step: Step): (t: System)
    requires s.disk.Valid()
    ensures t.disk.Valid()
  {
    match step
    case Write(via, content, mark, paths) => ApplyWrite(s, via, content, mark, paths)
    case Replace(disk) => ApplyReplace(s, disk)
    case Read(path, action) => ApplyReader(s, path, action)
    case Watch(move) => ApplyWatcher(s, move)
    case RequestRepair => s.(repair := true)
    case StartRepair => if s.repairer == Watching then s.(repairer := Invalidating, repair := false) else s
    case RaiseEpoch(ok) =>
      if s.repairer != Invalidating then s
      else if ok then RaiseAll(s).(repairer := Watching)
      else StopLoop(s)
    case Shutdown => StopLoop(s)
    case Restart => ApplyRestart(s)
  }

  // ---------------------------------------------------------------------------
  // The invariant
  // ---------------------------------------------------------------------------

  /** A snapshot that still matches its file holds what the file holds, or is excused. */
  ghost predicate Sound(s: System, path: Path, row: Row<Content>)
    requires s.disk.Valid()
  {
    && (path, row.stamp) in s.seen && row.version <= s.Version(path)
    && (s.Alive(path, row.stamp, row.version) ==> row.value == s.Content(path) || s.Excused(path))
  }

  ghost predicate ReaderSound(s: System, path: Path, reader: Reader)
    requires s.disk.Valid()
  {
    match reader
    case Stamped(stamp) => (path, stamp) in s.seen
    case Versioned(stamp, version) => (path, stamp) in s.seen && version <= s.Version(path)
    case Missed(stamp, version) => (path, stamp) in s.seen && version <= s.Version(path)
    case Reading(stamp, version, inode, count) =>
      && (path, stamp) in s.seen && version <= s.Version(path)
      && (s.Alive(path, stamp, version) ==>
            (s.disk.link[path] == inode && s.disk.writes[inode] == count) || s.Excused(path))
    case _ => Sound(s, path, reader.row)
  }

  ghost predicate EventsSound(s: System) {
    && (forall event :: event in s.undelivered ==> event.via in event.paths && event.id < s.nextId)
    && (forall a, b :: a in s.undelivered && b in s.undelivered && a.id == b.id ==> a == b)
    && (s.dispatcher.Busy() ==>
          s.dispatcher.event in s.undelivered && s.dispatcher.event.paths <= s.dispatcher.affected)
    && (s.dispatcher.Leaving? || s.dispatcher.Gone? ==> !s.watching && !s.lossOpen && s.undelivered == {})
    && (s.lossOpen ==> !s.watching)
  }

  ghost predicate PathSound(s: System, path: Path)
    requires s.disk.Valid()
  {
    && (path in s.rows ==> Sound(s, path, s.rows[path]))
    && (path in s.readers ==> ReaderSound(s, path, s.readers[path]))
  }

  ghost predicate Inv(s: System) {
    && s.disk.Valid()
    && (forall path :: path in s.disk.link ==> (path, s.disk.StampOf(path)) in s.seen)
    && EventsSound(s)
    && forall path :: PathSound(s, path)
  }
}
