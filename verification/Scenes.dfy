/**
 What surrounds the sidecars of one directory: the snapshot cache with the audio files it watches, and the
 entries of the directory. Its owner is the only reader of the directory's files; everything else in the
 snapshot cache may move at any time (src/scan.rs, src/db.rs, src/watch.rs).
 */
module Scenes {
  import opened Basics
  import opened SnapshotIndex
  import opened Tags
  import S = Snapshots
  import R = SnapshotRuns
  import G = SnapshotGuarantees

  /** `entries` are the directory entries that are no sidecars. */
  datatype Scene = Scene(snap: S.System, entries: set<Path>)

  /** The files that the owner of a directory reads. */
  predicate Within(path: Path, directory: Directory) { path.Path? && path.parent == directory }

  /** Sidecars and what they were archived as. */
  predicate Lyrical(path: Path) { path.Archived? || path.extension.Lrc? }

  /** The tags that an audio file holds now. */
  function TagsAt(s: S.System, path: Path): Option<TrackTags>
    requires s.disk.Valid()
  {
    if path in s.disk.link && s.Content(path).Recording? then Some(s.Content(path).tags) else None
  }

  /** The audio file holds a recording with these normalized tags, or a change of it is excused. */
  ghost predicate Current(s: S.System, path: Path, normalized: TrackTags)
    requires s.disk.Valid()
  {
    || s.Owed(path) || path in s.uncovered
    || (TagsAt(s, path).Some? && TagsAt(s, path).value.Normalized() == normalized)
  }

  /** The stems of all audio entries, excluded ones too. */
  function Stems(directory: Directory, entries: set<Path>): set<string> {
    set entry | entry in entries && Within(entry, directory) && entry.extension.Audio? :: entry.stem
  }

  /** An audio entry has the sidecar's stem. */
  predicate Paired(entries: set<Path>, directory: Directory, sidecar: Path) {
    exists entry :: entry in entries && PairsWith(directory, entry, sidecar)
  }

  predicate PairsWith(directory: Directory, entry: Path, sidecar: Path) {
    Within(entry, directory) && entry.extension.Audio? && sidecar.Path? && entry.stem == sidecar.stem
  }

  // ---------------------------------------------------------------------------
  // The others
  // ---------------------------------------------------------------------------

  predicate OthersStep(directory: Directory, step: S.Step) {
    !step.Restart? && !(step.Read? && Within(step.path, directory))
  }

  predicate OthersSteps(directory: Directory, steps: seq<S.Step>) {
    forall k :: 0 <= k < |steps| ==> OthersStep(directory, steps[k])
  }

  /** The snapshot cache moves on without the owner of the directory. */
  ghost predicate Beside(directory: Directory, s: S.System, t: S.System) {
    s.disk.Valid() && exists steps :: OthersSteps(directory, steps) && R.Run(s, steps) == t
  }

  /** The owner's readers are where they were. */
  ghost predicate SameReaders(directory: Directory, s: S.System, t: S.System) {
    forall path :: Within(path, directory) ==>
      && (path in t.readers <==> path in s.readers)
      && (path in t.readers ==> t.readers[path] == s.readers[path])
  }

  lemma StepKeepsReader(s: S.System, step: S.Step, path: Path)
    requires s.disk.Valid() && !step.Restart? && !(step.Read? && step.path == path)
    ensures var t := S.Next(s, step);
      && (path in t.readers <==> path in s.readers)
      && (path in t.readers ==> t.readers[path] == s.readers[path])
  {
    hide IndexFile, InvalidateFiles, InvalidateAll, PathsSharingFile;
    if step.Watch? {
      R.WatcherKeepsTables(s, step.move);
      hide S.ApplyWatcher;
    } else if step.Write? {
      var disk := R.WriteIs(s, step.via, step.content, step.mark, step.paths);
      hide S.ApplyWrite;
    } else if step.Read? && !S.Stores(s, step.path, step.action) {
      R.StepMovesOnlyReader(s, step.path, step.action);
      assert path in S.Next(s, step).readers ==> path in S.Next(s, step).readers - {step.path};
      assert path in s.readers ==> path in s.readers - {step.path};
      hide S.ApplyReader, S.Advance;
    }
  }

  lemma OthersKeepReaders(directory: Directory, s: S.System, step: S.Step)
    requires s.disk.Valid() && OthersStep(directory, step)
    ensures SameReaders(directory, s, S.Next(s, step))
  {
    forall path | Within(path, directory)
      ensures var t := S.Next(s, step);
        && (path in t.readers <==> path in s.readers)
        && (path in t.readers ==> t.readers[path] == s.readers[path])
    {
      hide S.Next;
      StepKeepsReader(s, step, path);
    }
  }

  lemma {:induction false} RunKeepsReaders(directory: Directory, s: S.System, steps: seq<S.Step>)
    requires S.Inv(s) && OthersSteps(directory, steps)
    ensures SameReaders(directory, s, R.Run(s, steps))
    decreases |steps|
  {
    if steps != [] {
      assert OthersStep(directory, steps[0]);
      R.NextKeepsInv(s, steps[0]);
      OthersKeepReaders(directory, s, steps[0]);
      hide S.Next, S.Inv, SameReaders, OthersStep;
      RunKeepsReaders(directory, S.Next(s, steps[0]), steps[1..]);
      SameReadersOn(directory, s, S.Next(s, steps[0]), R.Run(s, steps));
    }
  }

  lemma SameReadersOn(directory: Directory, s: S.System, t: S.System, u: S.System)
    requires SameReaders(directory, s, t) && SameReaders(directory, t, u)
    ensures SameReaders(directory, s, u)
  {
  }

  /** Whatever the others do, soundness and the owner's readers stay, and versions only rise. */
  lemma BesideKeeps(directory: Directory, s: S.System, t: S.System)
    requires S.Inv(s) && Beside(directory, s, t)
    ensures S.Inv(t) && SameReaders(directory, s, t)
    ensures forall path :: s.Version(path) <= t.Version(path)
  {
    var steps :| OthersSteps(directory, steps) && R.Run(s, steps) == t;
    hide S.Inv, SameReaders, R.Run;
    R.RunKeepsInv(s, steps);
    RunKeepsReaders(directory, s, steps);
    forall path ensures s.Version(path) <= t.Version(path) {
      G.RunRaisesVersion(s, steps, path);
    }
  }

  lemma BesideItself(directory: Directory, s: S.System)
    requires s.disk.Valid()
    ensures Beside(directory, s, s)
  {
    assert OthersSteps(directory, []) && R.Run(s, []) == s;
  }

  // ---------------------------------------------------------------------------
  // The owner's own reading
  // ---------------------------------------------------------------------------

  /** The owner holds a finished snapshot of the file, with these tags. */
  predicate HoldsTags(s: S.System, path: Path, tags: TrackTags) {
    path in s.readers && s.readers[path].Held? && s.readers[path].row.value == S.Recording(tags)
  }

  /** Whose row a reader carries, once it has one. */
  predicate Carries(reader: S.Reader) { !reader.Stamped? && !reader.Versioned? && !reader.Missed? && !reader.Reading? }

  lemma OwnStepKeeps(s: S.System, path: Path, step: S.ReaderStep)
    requires S.Inv(s)
    ensures var t := S.ApplyReader(s, path, step);
      S.Inv(t) && t.disk == s.disk && forall other :: s.Version(other) <= t.Version(other)
  {
    R.NextKeepsInv(s, S.Read(path, step));
    forall other ensures s.Version(other) <= S.Next(s, S.Read(path, step)).Version(other) {
      G.NextRaisesVersion(s, S.Read(path, step), other);
    }
    hide S.Inv, S.Advance, IndexFile;
  }

  /** How a reader moves: each step comes after the one before it, and a failed check drops the reader. */
  lemma ReaderMoves(s: S.System, path: Path, step: S.ReaderStep)
    requires s.disk.Valid() && path in s.readers && !step.Begin?
    ensures var t := S.ApplyReader(s, path, step);
      path in t.readers ==>
        match (step, s.readers[path])
        case (TakeVersion, Stamped(_)) => t.readers[path].Versioned?
        case (LookUp, Versioned(_, _)) => t.readers[path].Missed? || t.readers[path].Got?
        case (Open, Missed(_, _)) => t.readers[path].Reading?
        case (EndRead(_), Reading(_, _, _, _)) => t.readers[path].Got?
        case (RecheckStamp, Got(row, cached)) =>
          t.readers[path] == S.Restamped(row, cached) && s.disk.Shows(path, row.stamp)
        case (RecheckVersion, Restamped(row, cached)) =>
          t.readers[path] == S.Confirmed(row, cached) && s.Version(path) == row.version && t.index == s.index
        case (Store, Confirmed(row, _)) => t.readers[path] == S.Held(row)
        case (AgreeStamp, Held(row)) => t.readers[path] == S.Agreed(row) && s.disk.Shows(path, row.stamp)
        case (AgreeVersion, Agreed(row)) =>
          t.readers[path] == S.Held(row) && s.Version(path) == row.version && t.index == s.index
        case _ => true
  {
    hide IndexFile, Index.FileVersion;
  }

  lemma OtherReadersStay(directory: Directory, s: S.System, path: Path, step: S.ReaderStep, other: Path)
    requires s.disk.Valid() && other != path
    ensures var t := S.ApplyReader(s, path, step);
      (other in t.readers <==> other in s.readers) && (other in t.readers ==> t.readers[other] == s.readers[other])
  {
    StepKeepsReader(s, S.Read(path, step), other);
    hide S.ApplyReader;
  }

  /**
   The double check of a reader: the stamp is compared in `s`, the version only later. If both agree, the
   file held exactly the snapshot at the stamp comparison, or a change of it is excused.
   */
  lemma AgreementIsExact(s: S.System, path: Path, later: nat)
    requires S.Inv(s) && path in s.readers && Carries(s.readers[path])
    requires s.disk.Shows(path, s.readers[path].row.stamp)
    requires s.Version(path) <= later == s.readers[path].row.version
    ensures s.Content(path) == s.readers[path].row.value || s.Excused(path)
  {
    assert S.PathSound(s, path);
  }

  // ---------------------------------------------------------------------------
  // The daemon's own files
  // ---------------------------------------------------------------------------

  /**
   Whatever is known of the file under the stamp that it shows is exact, excused or not. A new file starts
   so, because no stamp recurs, and it stays so until it is written in place.
   */
  ghost predicate Faithful(s: S.System, path: Path)
    requires s.disk.Valid()
  {
    path in s.disk.link ==>
      && (path in s.rows && s.disk.Shows(path, s.rows[path].stamp) ==> s.rows[path].value == s.Content(path))
      && (path in s.readers ==> ReadsFaithfully(s, path, s.readers[path]))
  }

  ghost predicate ReadsFaithfully(s: S.System, path: Path, reader: S.Reader)
    requires s.disk.Valid() && path in s.disk.link
  {
    match reader
    case Stamped(_) => true
    case Versioned(_, _) => true
    case Missed(_, _) => true
    case Reading(stamp, _, inode, count) =>
      s.disk.Shows(path, stamp) ==> inode == s.disk.link[path] && count == s.disk.writes[inode]
    case _ => s.disk.Shows(path, reader.row.stamp) ==> reader.row.value == s.Content(path)
  }

  /** A stamp that was seen before and is shown now was shown all the time. */
  ghost predicate Unrepeated(s: S.System, t: S.System, path: Path)
    requires s.disk.Valid() && t.disk.Valid()
  {
    && s.seen <= t.seen
    && forall stamp :: t.disk.Shows(path, stamp) && (path, stamp) in s.seen ==> s.disk.Shows(path, stamp)
  }

  ghost predicate SameStoredRow(s: S.System, t: S.System, path: Path) {
    (path in t.rows <==> path in s.rows) && (path in t.rows ==> t.rows[path] == s.rows[path])
  }

  lemma FilesKeepStamps(s: S.System, step: S.Step, path: Path)
    requires s.disk.Valid() && (step.Write? || step.Replace?)
    ensures var t := S.Next(s, step); Unrepeated(s, t, path) && SameStoredRow(s, t, path)
  {
    if step.Write? {
      var disk := R.WriteIs(s, step.via, step.content, step.mark, step.paths);
      R.SeenGrows(s.seen, disk);
      hide S.ApplyWrite, S.SeenAfter;
    } else if S.ApplyReplace(s, step.disk) != s {
      R.SeenGrows(s.seen, step.disk);
      hide S.SeenAfter, S.SameBehindStamps;
    }
  }

  lemma StepKeepsStamps(s: S.System, step: S.Step, path: Path)
    requires s.disk.Valid() && !step.Restart? && !(step.Read? && step.path == path)
    ensures var t := S.Next(s, step); Unrepeated(s, t, path) && SameStoredRow(s, t, path)
  {
    if step.Write? || step.Replace? {
      FilesKeepStamps(s, step, path);
    } else if step.Watch? {
      WatcherIsAside(s, step.move);
      hide S.ApplyWatcher;
    } else if step.Read? {
      ReadingIsAside(s, step.path, step.action);
      hide S.ApplyReader;
    }
  }

  lemma WatcherIsAside(s: S.System, move: S.WatcherStep)
    requires s.disk.Valid()
    ensures var t := S.ApplyWatcher(s, move); t.disk == s.disk && t.seen == s.seen && t.rows == s.rows
  {
    hide InvalidateFiles, InvalidateAll, PathsSharingFile, S.Unheard, S.System.WatchRaises;
  }

  lemma ReadingIs(s: S.System, path: Path, step: S.ReaderStep)
    requires s.disk.Valid()
    ensures S.Next(s, S.Read(path, step)) == S.ApplyReader(s, path, step)
  {
    hide S.ApplyReader, S.Disk.Valid;
  }

  lemma ReadingIsAside(s: S.System, path: Path, step: S.ReaderStep)
    requires s.disk.Valid()
    ensures var t := S.ApplyReader(s, path, step);
      t.disk == s.disk && t.seen == s.seen && forall other :: other != path ==> SameStoredRow(s, t, other)
  {
    hide S.Advance, IndexFile, Displaced;
  }

  lemma {:induction false} RunKeepsStamps(directory: Directory, s: S.System, steps: seq<S.Step>, path: Path)
    requires s.disk.Valid() && OthersSteps(directory, steps) && Within(path, directory)
    ensures Unrepeated(s, R.Run(s, steps), path) && SameStoredRow(s, R.Run(s, steps), path)
    decreases |steps|
  {
    if steps != [] {
      assert OthersStep(directory, steps[0]);
      StepKeepsStamps(s, steps[0], path);
      hide S.Next, OthersStep;
      RunKeepsStamps(directory, S.Next(s, steps[0]), steps[1..], path);
    }
  }

  /** Others keep the file faithful as long as they do not write it in place. */
  lemma BesideKeepsFaithful(directory: Directory, s: S.System, t: S.System, path: Path)
    requires S.Inv(s) && Beside(directory, s, t) && Within(path, directory) && s.disk.Valid() && t.disk.Valid()
    requires Faithful(s, path) && path in s.disk.link && path in t.disk.link && Unwritten(s.disk, t.disk, path)
    ensures Faithful(t, path)
  {
    var steps :| OthersSteps(directory, steps) && R.Run(s, steps) == t;
    RunKeepsStamps(directory, s, steps, path);
    RunKeepsReaders(directory, s, steps);
    assert S.PathSound(s, path);
    hide S.Inv, R.Run, Beside;
    FaithfulOn(s, t, path);
  }

  /** The same inode, with what it held, and no write in between. */
  predicate Unwritten(before: S.Disk, after: S.Disk, path: Path)
    requires before.Valid() && after.Valid() && path in before.link && path in after.link
  {
    && after.link[path] == before.link[path] && after.data[after.link[path]] == before.data[before.link[path]]
    && after.writes[after.link[path]] == before.writes[before.link[path]]
  }

  lemma FaithfulOn(s: S.System, t: S.System, path: Path)
    requires s.disk.Valid() && t.disk.Valid() && Faithful(s, path) && S.PathSound(s, path)
    requires path in t.disk.link ==> Unrepeated(s, t, path)
    requires path in s.disk.link && path in t.disk.link && s.disk.Shows(path, t.disk.StampOf(path)) ==> Unwritten(s.disk, t.disk, path)
    requires SameStoredRow(s, t, path)
    requires (path in t.readers <==> path in s.readers) && (path in t.readers ==> t.readers[path] == s.readers[path])
    ensures Faithful(t, path)
  {
    hide S.System.Excused;
  }

  /** A change of the files without a write in place keeps every file faithful. */
  lemma ReplaceKeepsFaithful(s: S.System, disk: S.Disk, path: Path)
    requires S.Inv(s) && s.disk.Valid() && Faithful(s, path)
    ensures Faithful(S.ApplyReplace(s, disk), path)
  {
    var t := S.ApplyReplace(s, disk);
    assert S.PathSound(s, path);
    FilesKeepStamps(s, S.Replace(disk), path);
    hide S.Inv, S.SeenAfter, Faithful;
    if t != s {
      FaithfulOn(s, t, path);
    }
  }

  lemma AdvanceKeepsFaithful(s: S.System, path: Path, step: S.ReaderStep, reader: S.Reader)
    requires s.disk.Valid() && path in s.disk.link && ReadsFaithfully(s, path, reader)
    requires path in s.rows && s.disk.Shows(path, s.rows[path].stamp) ==> s.rows[path].value == s.Content(path)
    ensures var next := S.Advance(s, path, step, reader); next.Some? ==> ReadsFaithfully(s, path, next.value)
  {
    hide Index.FileVersion;
  }

  lemma MovedReaderFaithful(s: S.System, path: Path, reader: Option<S.Reader>)
    requires s.disk.Valid() && Faithful(s, path)
    requires path in s.disk.link && reader.Some? ==> ReadsFaithfully(s, path, reader.value)
    ensures Faithful(S.WithReader(s, path, reader), path)
  {
  }

  lemma StoreKeepsFaithful(s: S.System, path: Path)
    requires s.disk.Valid() && Faithful(s, path) && path in s.readers && s.readers[path].Confirmed?
    ensures Faithful(S.ApplyStore(s, path, s.readers[path].row), path)
  {
    hide IndexFile, Displaced;
  }

  lemma OwnReadKeepsFaithful(s: S.System, path: Path, step: S.ReaderStep)
    requires s.disk.Valid() && Faithful(s, path)
    ensures Faithful(S.ApplyReader(s, path, step), path)
  {
    hide IndexFile, Displaced, S.Advance, S.WithReader, S.ApplyStore;
    if step.Begin? {
      if path in s.disk.link && path !in s.readers {
        MovedReaderFaithful(s, path, Some(S.Stamped(s.disk.StampOf(path))));
      }
    } else if path in s.readers {
      if S.Stores(s, path, step) {
        StoreKeepsFaithful(s, path);
      } else {
        if path in s.disk.link {
          AdvanceKeepsFaithful(s, path, step, s.readers[path]);
        }
        MovedReaderFaithful(s, path, S.Advance(s, path, step, s.readers[path]));
      }
    }
  }

  /** The readers keep every file faithful. */
  lemma ReadKeepsFaithful(s: S.System, reading: Path, step: S.ReaderStep, path: Path)
    requires s.disk.Valid() && Faithful(s, path)
    ensures Faithful(S.ApplyReader(s, reading, step), path)
  {
    hide *;
    if reading == path {
      OwnReadKeepsFaithful(s, path, step);
    } else {
      ReadingIs(s, reading, step);
      ReadingIsAside(s, reading, step);
      StepKeepsReader(s, S.Read(reading, step), path);
      FaithfulStays(s, S.ApplyReader(s, reading, step), path);
    }
  }

  lemma FaithfulStays(s: S.System, t: S.System, path: Path)
    requires s.disk.Valid() && Faithful(s, path) && t.disk == s.disk && SameStoredRow(s, t, path)
    requires (path in t.readers <==> path in s.readers) && (path in t.readers ==> t.readers[path] == s.readers[path])
    ensures Faithful(t, path)
  {
  }

  // ---------------------------------------------------------------------------
  // A quiet library
  // ---------------------------------------------------------------------------

  /** No sidecar is or was a hard link of an audio file that is there. */
  ghost predicate Apart(disk: S.Disk, ix: Index) {
    forall lyrics, audio :: Lyrical(lyrics) && !Lyrical(audio) && audio in disk.link ==>
      && (lyrics in disk.link ==> disk.link[lyrics] != disk.link[audio])
      && (lyrics in ix.identities ==> ix.identities[lyrics] != disk.link[audio])
  }

  /** No change is on its way, and audio is indexed under the inode that it has. */
  ghost predicate Calm(s: S.System) {
    && S.Inv(s) && s.undelivered == {} && !s.LoopRaises() && !s.lossOpen && !s.dispatcher.Busy() && s.uncovered == {}
    && Indexed(s.disk, s.index) && Apart(s.disk, s.index)
  }

  ghost predicate Indexed(disk: S.Disk, ix: Index) {
    forall path :: !Lyrical(path) && path in ix.identities && path in disk.link ==> ix.identities[path] == disk.link[path]
  }

  /** The audio files and their versions are the same. */
  ghost predicate SameLibrary(s: S.System, t: S.System) {
    && s.disk.Valid() && t.disk.Valid()
    && forall path :: !Lyrical(path) ==>
         && (path in t.disk.link <==> path in s.disk.link)
         && (path in t.disk.link && path in s.disk.link ==> SameAudio(s.disk, t.disk, path) && t.Version(path) == s.Version(path))
  }

  ghost predicate SameAudio(before: S.Disk, after: S.Disk, path: Path)
    requires before.Valid() && after.Valid() && path in before.link && path in after.link
  {
    Unwritten(before, after, path) && after.StampOf(path) == before.StampOf(path)
  }

  /** The reader's stamp, version and content are those of the file. */
  ghost predicate UpToDate(s: S.System, path: Path)
    requires s.disk.Valid() && path in s.readers
  {
    path in s.disk.link &&
      match s.readers[path]
      case Stamped(stamp) => stamp == s.disk.StampOf(path)
      case Versioned(stamp, version) => stamp == s.disk.StampOf(path) && version == s.Version(path)
      case Missed(stamp, version) => stamp == s.disk.StampOf(path) && version == s.Version(path)
      case Reading(stamp, version, inode, count) =>
        && stamp == s.disk.StampOf(path) && version == s.Version(path)
        && inode == s.disk.link[path] && count == s.disk.writes[inode]
      case reader => reader.row == Row(s.disk.StampOf(path), s.Version(path), s.Content(path))
  }

  lemma CalmStep(s: S.System, path: Path, step: S.ReaderStep)
    requires Calm(s) && (S.Stores(s, path, step) ==> UpToDate(s, path))
    ensures var t := S.ApplyReader(s, path, step);
      Calm(t) && t.disk == s.disk && SameLibrary(s, t) && t.Version(path) == s.Version(path)
  {
    OwnStepKeeps(s, path, step);
    if S.Stores(s, path, step) {
      CalmStore(s, path);
      hide S.Inv, IndexFile, Apart, Indexed;
    } else {
      R.StepMovesOnlyReader(s, path, step);
      hide S.Inv, S.ApplyReader, Apart, Indexed;
    }
  }

  /** Storing a file under the inode that it has displaces no audio. */
  lemma CalmStore(s: S.System, path: Path)
    requires s.disk.Valid() && path in s.disk.link && Indexed(s.disk, s.index) && Apart(s.disk, s.index)
    ensures var ix := IndexFile(s.index, path, s.disk.link[path]);
      && Indexed(s.disk, ix) && Apart(s.disk, ix) && ix.FileVersion(path) == s.index.FileVersion(path)
      && forall other :: !Lyrical(other) && other in s.disk.link ==> ix.FileVersion(other) == s.index.FileVersion(other)
  {
    IndexFileRaises(s.index, path, s.disk.link[path]);
    hide IndexFile, Index.FileVersion;
  }

  /** A change of the files that leaves audio alone. */
  lemma CalmReplace(s: S.System, disk: S.Disk)
    requires Calm(s) && disk.Valid() && s.disk.Valid() && Apart(disk, s.index)
    requires forall path :: !Lyrical(path) ==>
      (path in disk.link <==> path in s.disk.link) && (path in disk.link && path in s.disk.link ==> SameAudio(s.disk, disk, path))
    ensures var t := S.ApplyReplace(s, disk); Calm(t) && SameLibrary(s, t)
  {
    R.NextKeepsInv(s, S.Replace(disk));
    hide S.Inv, Apart, S.StampsAdvance, S.SameBehindStamps, S.SeenAfter, Index.FileVersion;
  }

  /** In a quiet library no step drops an up-to-date reader, and it stays so. */
  lemma CalmReader(s: S.System, path: Path, step: S.ReaderStep)
    requires Calm(s) && path in s.readers && UpToDate(s, path) && !step.Begin? && !step.Drop?
    ensures var t := S.ApplyReader(s, path, step); t.disk == s.disk && path in t.readers && UpToDate(t, path)
  {
    CalmStep(s, path, step);
    var t := S.ApplyReader(s, path, step);
    if S.Stores(s, path, step) {
      hide IndexFile, Index.FileVersion;
    } else {
      if step.LookUp? { CalmRowsAreExact(s, path); }
      CalmAdvance(s, path, step);
      hide S.Inv, S.Advance, Index.FileVersion;
    }
  }

  /** A matching row holds what the file holds. */
  lemma CalmRowsAreExact(s: S.System, path: Path)
    requires Calm(s) && path in s.disk.link
    ensures var hit := Lookup(s.rows, path, s.disk.StampOf(path), s.Version(path));
      hit.Some? ==> hit.value == s.Content(path)
  {
    assert S.PathSound(s, path);
  }

  lemma CalmAdvance(s: S.System, path: Path, step: S.ReaderStep)
    requires s.disk.Valid() && path in s.readers && UpToDate(s, path) && !step.Drop?
    requires step.LookUp? ==> var hit := Lookup(s.rows, path, s.disk.StampOf(path), s.Version(path));
      hit.Some? ==> hit.value == s.Content(path)
    ensures var next := S.Advance(s, path, step, s.readers[path]);
      next.Some? && UpToDate(s.(readers := s.readers[path := next.value]), path)
  {
    hide Index.FileVersion;
  }
}
