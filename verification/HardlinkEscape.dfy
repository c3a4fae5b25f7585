/** Where the plain claim about hard links stops: a run in which an alias of a written inode escapes its event. */
module HardlinkEscape {
  import opened Basics
  import opened SnapshotIndex
  import opened Snapshots
  import opened SnapshotRuns
  import opened SnapshotGuarantees
  import opened Hardlinks

  const WRITTEN := Path(Directory(0), "a", Lrc(0))
  const ALIAS := Path(Directory(0), "b", Lrc(0))
  const ZERO := Inode(0)
  const ONE := Inode(1)

  lemma RunFirst(s: System, step: Step, rest: seq<Step>)
    requires s.disk.Valid()
    ensures Run(s, [step] + rest) == Run(Next(s, step), rest)
  {
    assert ([step] + rest)[1..] == rest;
  }

  // ---------------------------------------------------------------------------
  // One undisturbed reading
  // ---------------------------------------------------------------------------

  function At(s: System, path: Path, reader: Reader): System { s.(readers := s.readers[path := reader]) }

  /** One undisturbed pass of a reader over a file that the cache does not know. */
  function Pass(path: Path, rest: seq<Step>): seq<Step> {
    [Read(path, Begin)] + ([Read(path, TakeVersion)] + ([Read(path, LookUp)] + ([Read(path, Open)] + Ending(path, rest))))
  }

  function Ending(path: Path, rest: seq<Step>): seq<Step> {
    [Read(path, EndRead(Unreadable))] + ([Read(path, RecheckStamp)] + ([Read(path, RecheckVersion)]
      + ([Read(path, Store)] + ([Read(path, Drop)] + rest))))
  }

  lemma GoesOn(s: System, path: Path, reader: Reader, action: ReaderStep, next: Reader, rest: seq<Step>)
    requires s.disk.Valid() && !action.Begin? && !action.Store? && Advance(s, path, action, reader) == Some(next)
    ensures Run(At(s, path, reader), [Read(path, action)] + rest) == Run(At(s, path, next), rest)
  {
    AdvanceIsLocal(s, path, reader, action);
    hide Run, Advance;
    RunFirst(At(s, path, reader), Read(path, action), rest);
    assert At(s, path, reader).readers[path := next] == s.readers[path := next];
  }

  lemma AdvanceIsLocal(s: System, path: Path, reader: Reader, action: ReaderStep)
    requires s.disk.Valid()
    ensures Advance(At(s, path, reader), path, action, reader) == Advance(s, path, action, reader)
  {
    assert At(s, path, reader).Version(path) == s.Version(path);
    hide Index.Counter;
  }

  /** What the pass stores. */
  function Taken(s: System, path: Path): Row<Content>
    requires s.disk.Valid() && path in s.disk.link
  {
    Row(s.disk.StampOf(path), s.Version(path), s.Content(path))
  }

  function Stored(s: System, path: Path): System
    requires s.disk.Valid() && path in s.disk.link
  {
    ApplyStore(s, path, Taken(s, path)).(readers := s.readers)
  }

  lemma FirstSteps(s: System, path: Path)
    requires s.disk.Valid() && path in s.disk.link && path !in s.readers
    requires Lookup(s.rows, path, s.disk.StampOf(path), s.Version(path)).None?
    ensures var row := Taken(s, path);
      && Next(s, Read(path, Begin)) == At(s, path, Stamped(row.stamp))
      && Advance(s, path, TakeVersion, Stamped(row.stamp)) == Some(Versioned(row.stamp, row.version))
      && Advance(s, path, LookUp, Versioned(row.stamp, row.version)) == Some(Missed(row.stamp, row.version))
      && Advance(s, path, Open, Missed(row.stamp, row.version))
           == Some(Reading(row.stamp, row.version, row.stamp.inode, s.disk.writes[row.stamp.inode]))
  {
    hide Index.FileVersion;
  }

  lemma PassBegins(s: System, path: Path, rest: seq<Step>)
    requires s.disk.Valid() && path in s.disk.link && path !in s.readers
    requires Lookup(s.rows, path, s.disk.StampOf(path), s.Version(path)).None?
    ensures var row := Taken(s, path);
      Run(s, Pass(path, rest))
        == Run(At(s, path, Reading(row.stamp, row.version, row.stamp.inode, s.disk.writes[row.stamp.inode])), Ending(path, rest))
  {
    var row := Taken(s, path);
    var r4 := [Read(path, Open)] + Ending(path, rest);
    var r3 := [Read(path, LookUp)] + r4;
    var r2 := [Read(path, TakeVersion)] + r3;
    FirstSteps(s, path);
    hide Run, Index.FileVersion, Ending, Next, Advance, At, Lookup;
    RunFirst(s, Read(path, Begin), r2);
    GoesOn(s, path, Stamped(row.stamp), TakeVersion, Versioned(row.stamp, row.version), r3);
    GoesOn(s, path, Versioned(row.stamp, row.version), LookUp, Missed(row.stamp, row.version), r4);
    GoesOn(s, path, Missed(row.stamp, row.version), Open,
      Reading(row.stamp, row.version, row.stamp.inode, s.disk.writes[row.stamp.inode]), Ending(path, rest));
  }

  lemma PassEnds(s: System, path: Path, rest: seq<Step>)
    requires s.disk.Valid() && path in s.disk.link && path !in s.readers
    ensures var row := Taken(s, path);
      Run(At(s, path, Reading(row.stamp, row.version, row.stamp.inode, s.disk.writes[row.stamp.inode])), Ending(path, rest))
        == Run(Stored(s, path), rest)
  {
    var row := Taken(s, path);
    var r9 := [Read(path, Drop)] + rest;
    var r8 := [Read(path, Store)] + r9;
    var r7 := [Read(path, RecheckVersion)] + r8;
    var r6 := [Read(path, RecheckStamp)] + r7;
    hide Run, Index.FileVersion, IndexFile, Displaced;
    GoesOn(s, path, Reading(row.stamp, row.version, row.stamp.inode, s.disk.writes[row.stamp.inode]), EndRead(Unreadable),
      Got(row, false), r6);
    GoesOn(s, path, Got(row, false), RecheckStamp, Restamped(row, false), r7);
    GoesOn(s, path, Restamped(row, false), RecheckVersion, Confirmed(row, false), r8);
    StoreEnds(s, path, row, rest);
  }

  lemma StoreEnds(s: System, path: Path, row: Row<Content>, rest: seq<Step>)
    requires s.disk.Valid() && path !in s.readers
    ensures Run(At(s, path, Confirmed(row, false)), [Read(path, Store)] + ([Read(path, Drop)] + rest))
      == Run(ApplyStore(s, path, row).(readers := s.readers), rest)
  {
    hide Run, Index.FileVersion, IndexFile, Displaced, Advance;
    var t := At(s, path, Confirmed(row, false));
    var u := ApplyStore(t, path, row);
    RunFirst(t, Read(path, Store), [Read(path, Drop)] + rest);
    assert Next(t, Read(path, Store)) == u;
    RunFirst(u, Read(path, Drop), rest);
    DropEnds(u, path);
    assert u.readers - {path} == s.readers;
  }

  lemma DropEnds(s: System, path: Path)
    requires s.disk.Valid() && path in s.readers
    ensures Next(s, Read(path, Drop)) == s.(readers := s.readers - {path})
  {
  }

  lemma PassStores(s: System, path: Path, rest: seq<Step>)
    requires s.disk.Valid() && path in s.disk.link && path !in s.readers
    requires Lookup(s.rows, path, s.disk.StampOf(path), s.Version(path)).None?
    ensures Run(s, Pass(path, rest)) == Run(Stored(s, path), rest)
  {
    PassBegins(s, path, rest);
    PassEnds(s, path, rest);
  }

  // ---------------------------------------------------------------------------
  // The run
  // ---------------------------------------------------------------------------

  /** A library with two names of one file. */
  function Linked(): Disk {
    Disk(map[WRITTEN := ZERO, ALIAS := ZERO], map[ZERO := Lyrics("")], map[ZERO := 0], map[ZERO := 0])
  }

  /** The file as it is after the write. */
  function Rewritten(): Disk {
    Disk(map[WRITTEN := ZERO, ALIAS := ZERO], map[ZERO := Lyrics("new")], map[ZERO := 1], map[ZERO := 1])
  }

  /** The alias becomes a file of its own. */
  function Split(): Disk {
    Disk(map[WRITTEN := ZERO, ALIAS := ONE], map[ZERO := Lyrics("new"), ONE := Lyrics("own")],
      map[ZERO := 1, ONE := 0], map[ZERO := 1, ONE := 0])
  }

  const WRITE := Write(WRITTEN, Lyrics("new"), 1, {WRITTEN})
  const EVENT := Event(0, WRITTEN, ZERO, {WRITTEN})

  function Dispatch(): seq<Step> {
    [Watch(Receive(EVENT))] + ([Watch(Stat(WRITTEN))] + ([Watch(Query)] + ([Watch(Invalidate)] + [])))
  }

  /** Both names are read and indexed. */
  function Prelude(rest: seq<Step>): seq<Step> { Pass(WRITTEN, Pass(ALIAS, rest)) }

  /** The alias is replaced and read again before the write's event is dispatched. */
  function Escape(): seq<Step> { [Replace(Split())] + Pass(ALIAS, Dispatch()) }

  lemma DisksShow()
    ensures Linked().Valid() && Rewritten().Valid() && Split().Valid()
    ensures WRITTEN != ALIAS && ZERO != ONE
    ensures Linked().StampOf(WRITTEN) == Linked().StampOf(ALIAS) == Stamp(ZERO, 0)
    ensures Split().StampOf(WRITTEN) == Stamp(ZERO, 1) && Split().StampOf(ALIAS) == Stamp(ONE, 0)
  {
  }

  /** After the prelude both names are indexed under their inode, and no version has moved. */
  lemma PreludeIndexes(rest: seq<Step>) returns (s: System)
    ensures s.disk == Linked() && s.disk.Valid() && Linked().Valid()
    ensures Run(Fresh(Linked()), Prelude(rest)) == Run(s, rest)
    ensures s.seen == SeenAfter({}, Linked()) && s.readers == map[] && s.watching && s.nextId == 0
    ensures s.index.identities == map[WRITTEN := ZERO, ALIAS := ZERO] && s.dispatcher == Idle && s.undelivered == {}
    ensures s.repairer == Watching && !s.RepairDue() && s.rows.Keys == {WRITTEN, ALIAS}
    ensures s.rows[ALIAS].stamp == Stamp(ZERO, 0)
  {
    DisksShow();
    assert Prelude(rest) == Pass(WRITTEN, Pass(ALIAS, rest));
    hide *;
    var start := Fresh(Linked());
    FreshIsStored(start);
    var first := Stored(start, WRITTEN);
    FirstIsStored(first);
    s := Stored(first, ALIAS);
    PassStores(start, WRITTEN, Pass(ALIAS, rest));
    PassStores(first, ALIAS, rest);
    SameDebts(start, s);
  }

  lemma FreshIsStored(start: System)
    requires start == Fresh(Linked())
    ensures start.disk == Linked() && start.disk.Valid() && start.seen == SeenAfter({}, Linked()) && start.readers == map[]
    ensures start.watching && start.nextId == 0 && start.dispatcher == Idle && start.undelivered == {}
    ensures start.repairer == Watching && !start.RepairDue()
    ensures WRITTEN in start.disk.link && start.rows == map[]
    ensures Lookup(start.rows, WRITTEN, start.disk.StampOf(WRITTEN), start.Version(WRITTEN)).None?
    ensures Stored(start, WRITTEN)
      == start.(rows := map[WRITTEN := Taken(start, WRITTEN)], index := Stored(start, WRITTEN).index, uncovered := {})
    ensures Stored(start, WRITTEN).index.identities == map[WRITTEN := ZERO]
  {
    DisksShow();
    IndexFileRaises(start.index, WRITTEN, ZERO);
    hide IndexFile, SeenAfter;
  }

  lemma FirstIsStored(first: System)
    requires first.disk == Linked() && first.disk.Valid() && first.rows.Keys == {WRITTEN} && first.readers == map[]
    requires first.index.identities == map[WRITTEN := ZERO]
    ensures ALIAS in first.disk.link && Lookup(first.rows, ALIAS, first.disk.StampOf(ALIAS), first.Version(ALIAS)).None?
    ensures var s := Stored(first, ALIAS);
      && s == first.(rows := s.rows, index := s.index, uncovered := s.uncovered)
      && s.rows.Keys == {WRITTEN, ALIAS} && s.rows[ALIAS].stamp == Stamp(ZERO, 0)
      && s.index.identities == map[WRITTEN := ZERO, ALIAS := ZERO]
  {
    DisksShow();
    IndexFileRaises(first.index, ALIAS, ZERO);
    hide IndexFile;
  }

  /** The write happens, and the replacement after it. */
  lemma ChangesHappen(s: System, rest: seq<Step>) returns (u: System, v: System)
    requires s.disk == Linked() && s.seen == SeenAfter({}, Linked()) && s.readers == map[] && s.watching && s.nextId == 0
    requires s.undelivered == {} && s.index.identities == map[WRITTEN := ZERO, ALIAS := ZERO]
    ensures Writes(s, WRITTEN, Lyrics("new"), 1, {WRITTEN})
    ensures s.disk.Valid() && u == Next(s, WRITE) && u.disk.Valid() && v.disk.Valid()
    ensures Run(u, [Replace(Split())] + rest) == Run(v, rest)
    ensures v == s.(disk := Split(), seen := v.seen, undelivered := {EVENT}, nextId := 1, uncovered := v.uncovered)
  {
    DisksShow();
    SeenIs(s.seen);
    u := Next(s, WRITE);
    WriteHappens(s, u);
    v := Next(u, Replace(Split()));
    SplitAdvances(u.disk, u.seen);
    hide Run, ApplyWrite, StampsAdvance, SameBehindStamps;
    RunFirst(u, Replace(Split()), rest);
  }

  /** What both names have shown up to mark `last`. */
  function ShownUpTo(last: nat): set<(Path, Stamp)> {
    set name, mark | name in {WRITTEN, ALIAS} && 0 <= mark <= last :: (name, Stamp(ZERO, mark))
  }

  lemma SeenIs(seen: set<(Path, Stamp)>)
    requires seen == SeenAfter({}, Linked())
    ensures seen <= ShownUpTo(0)
  {
  }

  lemma WriteHappens(s: System, u: System)
    requires s.disk == Linked() && s.disk.Valid() && s.seen <= ShownUpTo(0) && s.watching && s.nextId == 0
    requires s.undelivered == {} && u == Next(s, WRITE)
    ensures Writes(s, WRITTEN, Lyrics("new"), 1, {WRITTEN})
    ensures u == s.(disk := Rewritten(), seen := u.seen, undelivered := {EVENT}, nextId := 1, uncovered := u.uncovered)
    ensures u.seen <= ShownUpTo(1)
  {
    DisksShow();
    WriteAdvances(s.disk, s.seen);
    hide ShownUpTo, StampsAdvance, Unreached, Rewritten, Written, SeenAfter;
    assert s.disk.link[WRITTEN] == ZERO;
  }

  lemma WriteAdvances(disk: Disk, seen: set<(Path, Stamp)>)
    requires disk == Linked() && seen <= ShownUpTo(0) && disk.Valid()
    ensures Written(disk, ZERO, Lyrics("new"), 1) == Rewritten() && Rewritten().Valid()
    ensures StampsAdvance(disk, Rewritten(), seen) && SeenAfter(seen, Rewritten()) <= ShownUpTo(1)
  {
    var after := Rewritten();
    assert Written(disk, ZERO, Lyrics("new"), 1) == after;
    assert after.Valid();
    forall path | path in after.link ensures (path, after.StampOf(path)) !in seen && (path, after.StampOf(path)) in ShownUpTo(1) {
      assert path in {WRITTEN, ALIAS} && after.StampOf(path) == Stamp(ZERO, 1);
    }
  }

  lemma SplitAdvances(disk: Disk, seen: set<(Path, Stamp)>)
    requires disk == Rewritten() && seen <= ShownUpTo(1)
    ensures Split().Valid() && StampsAdvance(disk, Split(), seen) && SameBehindStamps(disk, Split())
  {
  }

  /** Dispatching reaches no path that is not indexed as the inode the written path has. */
  lemma DispatchMisses(s: System)
    requires s.disk == Split() && s.disk.Valid() && s.dispatcher == Idle && s.undelivered == {EVENT}
    requires s.index.identities == map[WRITTEN := ZERO, ALIAS := ONE]
    ensures var t := Run(s, Dispatch());
      t.undelivered == {} && t.RepairDue() == s.RepairDue() && t.Version(ALIAS) == s.Version(ALIAS)
    ensures DispatchedIn(s, Dispatch(), EVENT)
  {
    DisksShow();
    var affected := {WRITTEN} + PathsSharingFile(s.index, WRITTEN, Some(ZERO));
    assert ALIAS !in affected;
    InvalidateFilesRaises(s.index, affected);
    DispatchLooksUp(s, affected);
    var t := s.(dispatcher := Looking(EVENT, {}, affected));
    hide *;
    LastStep(t, Watch(Invalidate));
    InvalidationMisses(t);
  }

  lemma LastStep(s: System, step: Step)
    requires s.disk.Valid()
    ensures Run(s, [step] + []) == Next(s, step)
  {
  }

  lemma InvalidationMisses(s: System)
    requires s.disk.Valid() && s.dispatcher.Looking? && s.dispatcher.left == {} && ALIAS !in s.dispatcher.affected
    requires s.undelivered == {s.dispatcher.event}
    ensures var t := Next(s, Watch(Invalidate));
      t.undelivered == {} && t.RepairDue() == s.RepairDue() && t.Version(ALIAS) == s.Version(ALIAS)
  {
    InvalidateFilesRaises(s.index, s.dispatcher.affected);
    hide InvalidateFiles, Index.Counter;
  }

  lemma LookingUp(s: System, affected: set<Path>)
    requires s.disk == Split() && s.disk.Valid() && s.dispatcher == Idle && s.undelivered == {EVENT}
    requires affected == {WRITTEN} + PathsSharingFile(s.index, WRITTEN, Some(ZERO))
    ensures var s1 := s.(dispatcher := Looking(EVENT, {WRITTEN}, {WRITTEN}));
      var s2 := s.(dispatcher := Stated(EVENT, {}, {WRITTEN}, WRITTEN, Some(ZERO)));
      && Next(s, Watch(Receive(EVENT))) == s1 && Next(s1, Watch(Stat(WRITTEN))) == s2
      && Next(s2, Watch(Query)) == s.(dispatcher := Looking(EVENT, {}, affected))
  {
    DisksShow();
    hide PathsSharingFile, InvalidateFiles, System.WatchRaises;
    var left: set<Path> := {WRITTEN};
    assert left - {WRITTEN} == {};
  }

  lemma DispatchLooksUp(s: System, affected: set<Path>)
    requires s.disk == Split() && s.disk.Valid() && s.dispatcher == Idle && s.undelivered == {EVENT}
    requires affected == {WRITTEN} + PathsSharingFile(s.index, WRITTEN, Some(ZERO))
    ensures Run(s, Dispatch()) == Run(s.(dispatcher := Looking(EVENT, {}, affected)), [Watch(Invalidate)] + [])
    ensures DispatchedIn(s, Dispatch(), EVENT)
  {
    LookingUp(s, affected);
    var s1 := s.(dispatcher := Looking(EVENT, {WRITTEN}, {WRITTEN}));
    var s2 := s.(dispatcher := Stated(EVENT, {}, {WRITTEN}, WRITTEN, Some(ZERO)));
    var s3 := s.(dispatcher := Looking(EVENT, {}, affected));
    hide Run, PathsSharingFile, Split, Next;
    var r4: seq<Step> := [Watch(Invalidate)] + [];
    var r3 := [Watch(Query)] + r4;
    var r2 := [Watch(Stat(WRITTEN))] + r3;
    RunFirst(s, Watch(Receive(EVENT)), r2);
    RunFirst(s1, Watch(Stat(WRITTEN)), r3);
    RunFirst(s2, Watch(Query), r4);
    assert Dispatches(s3, r4[0], EVENT);
    DispatchedLater(s, Watch(Receive(EVENT)), r2);
    DispatchedLater(s1, Watch(Stat(WRITTEN)), r3);
    DispatchedLater(s2, Watch(Query), r4);
  }

  lemma DispatchedLater(s: System, step: Step, rest: seq<Step>)
    requires s.disk.Valid()
    ensures DispatchedIn(Next(s, step), rest, EVENT) ==> DispatchedIn(s, [step] + rest, EVENT)
  {
    assert ([step] + rest)[1..] == rest;
  }

  /**
   The plain claim, that every path indexed as the written inode has its version raised by the time
   the event is dispatched, is false: from a new database and two names of one file, both read and
   indexed, a write through one of them is dispatched without raising the other, which was replaced
   and stored meanwhile.
   */
  lemma AliasMayEscape() returns (s: System, t: System)
    ensures s == Run(Fresh(Linked()), Prelude([])) && s.disk == Linked() && Inv(s) && s.watching
    ensures IndexedAs(s, WRITTEN, ZERO) && IndexedAs(s, ALIAS, ZERO)
    ensures Writes(s, WRITTEN, Lyrics("new"), 1, {WRITTEN})
    ensures t == Run(Next(s, WRITE), Escape())
    ensures EVENT !in t.undelivered && !t.RepairDue() && t.Version(ALIAS) == s.Version(ALIAS)
  {
    DisksShow();
    assert Escape() == [Replace(Split())] + Pass(ALIAS, Dispatch());
    hide *;
    s := PreludeIndexes([]);
    PreludeIsSound(s);
    assert s.index.identities == map[WRITTEN := ZERO, ALIAS := ZERO];
    var u, v := ChangesHappen(s, Pass(ALIAS, Dispatch()));
    t := Run(u, Escape());
    AliasIsUnknown(v);
    SameDebts(s, v);
    EscapeEnds(v);
    BothIndexed(s);
  }

  lemma PreludeIsSound(s: System)
    requires s.disk.Valid() && Linked().Valid() && Run(Fresh(Linked()), Prelude([])) == Run(s, [])
    ensures s == Run(Fresh(Linked()), Prelude([])) && Inv(s)
  {
    hide Inv, Fresh, Linked, Prelude, Next;
    FreshIsSound(Linked());
    RunKeepsInv(Fresh(Linked()), Prelude([]));
    assert Run(s, []) == s;
  }

  lemma AliasIsUnknown(v: System)
    requires v.disk == Split() && v.disk.Valid() && ALIAS in v.rows && v.rows[ALIAS].stamp == Stamp(ZERO, 0)
    ensures ALIAS in v.disk.link && Lookup(v.rows, ALIAS, v.disk.StampOf(ALIAS), v.Version(ALIAS)).None?
  {
    DisksShow();
  }

  lemma SameDebts(s: System, v: System)
    requires v.repair == s.repair && v.repairer == s.repairer && v.dispatcher == s.dispatcher && v.lossOpen == s.lossOpen
    ensures v.RepairDue() == s.RepairDue()
    ensures v.index == s.index ==> v.Version(ALIAS) == s.Version(ALIAS)
  {
  }

  lemma BothIndexed(s: System)
    requires s.index.identities == map[WRITTEN := ZERO, ALIAS := ZERO]
    ensures IndexedAs(s, WRITTEN, ZERO) && IndexedAs(s, ALIAS, ZERO)
  {
  }

  lemma EscapeEnds(v: System)
    requires v.disk == Split() && v.disk.Valid() && ALIAS in v.disk.link && v.readers == map[]
    requires v.index.identities == map[WRITTEN := ZERO, ALIAS := ZERO] && v.dispatcher == Idle && v.undelivered == {EVENT}
    requires !v.RepairDue() && Lookup(v.rows, ALIAS, v.disk.StampOf(ALIAS), v.Version(ALIAS)).None?
    ensures var t := Run(v, Pass(ALIAS, Dispatch()));
      EVENT !in t.undelivered && !t.RepairDue() && t.Version(ALIAS) == v.Version(ALIAS)
  {
    DisksShow();
    hide *;
    PassStores(v, ALIAS, Dispatch());
    AliasIsStored(v);
    DispatchMisses(Stored(v, ALIAS));
  }

  lemma AliasIsStored(v: System)
    requires v.disk == Split() && v.disk.Valid() && v.index.identities == map[WRITTEN := ZERO, ALIAS := ZERO]
    ensures ALIAS in v.disk.link
    ensures var t := Stored(v, ALIAS);
      && t.disk == v.disk && t.dispatcher == v.dispatcher && t.undelivered == v.undelivered
      && t.RepairDue() == v.RepairDue() && t.Version(ALIAS) == v.Version(ALIAS)
      && t.index.identities == map[WRITTEN := ZERO, ALIAS := ONE]
  {
    DisksShow();
    IndexFileRaises(v.index, ALIAS, ONE);
    hide IndexFile;
  }
}
