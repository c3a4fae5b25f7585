/** The read-through of a content snapshot as the workers perform it on the database (src/scan.rs). */
module SnapshotReads {
  import opened Basics
  import opened Tags
  import opened SnapshotIndex
  import opened CacheDbs

  /** What somebody else does to the snapshot tables: only the owner of `path` stores a row for it. */
  datatype Foreign =
    | Raises(paths: set<Path>)
    | RaisesAll
    | StoresRow(other: Path, stamp: Stamp, version: nat, tags: TrackTags)

  /** The reader's own row and index entry are where they were, and no version is lower. */
  ghost predicate Aside(path: Path, rows: map<Path, Row<TrackTags>>, ix: Index, after: map<Path, Row<TrackTags>>, now: Index) {
    && NoLower(ix, now)
    && (path in after <==> path in rows) && (path in after ==> after[path] == rows[path])
    && (path in now.identities <==> path in ix.identities)
    && (path in now.identities ==> now.identities[path] == ix.identities[path])
  }

  lemma AsideOn(path: Path, rows: map<Path, Row<TrackTags>>, ix: Index, middle: map<Path, Row<TrackTags>>, later: Index,
    after: map<Path, Row<TrackTags>>, now: Index)
    requires Aside(path, rows, ix, middle, later) && Aside(path, middle, later, after, now)
    ensures Aside(path, rows, ix, after, now)
  {
  }

  /** The dispatcher, the repair loop and the other workers, in any order and number. */
  method Interfere(db: CacheDb, path: Path)
    modifies db`audioTags, db`versions, db`identities
    ensures Aside(path, old(db.audioTags), old(db.Ix()), db.audioTags, db.Ix())
  {
    var deeds: seq<Foreign> := *;
    for i := 0 to |deeds|
      invariant Aside(path, old(db.audioTags), old(db.Ix()), db.audioTags, db.Ix())
    {
      ghost var rows, ix := db.audioTags, db.Ix();
      Disturb(db, path, deeds[i]);
      AsideOn(path, old(db.audioTags), old(db.Ix()), rows, ix, db.audioTags, db.Ix());
    }
  }

  method Disturb(db: CacheDb, path: Path, deed: Foreign)
    modifies db`audioTags, db`versions, db`identities
    ensures Aside(path, old(db.audioTags), old(db.Ix()), db.audioTags, db.Ix())
  {
    ghost var ix := db.Ix();
    match deed
    case Raises(paths) =>
      RaiseNeverLowers(ix, FileKeys(paths));
      db.InvalidatePaths(paths);
    case RaisesAll =>
      RaiseNeverLowers(ix, {Library});
      var raised := db.InvalidateAllSnapshots(true);
    case StoresRow(other, stamp, version, tags) =>
      if other != path {
        StoringRaises(ix, other, stamp.inode);
        IndexFileRaises(ix, other, stamp.inode);
        var displaced := db.StoreTags(other, stamp, version, tags, true);
      }
  }

  /**
   `audio`: stamp, canonical path, version, lookup, read, recheck of all three, store under the old version;
   the parameters are what the file system answers, and the others may act between any two accesses. A
   snapshot is handed out only if stamp, path and version were the same before and after; it is the cached
   row for that pair, or what was read, which is then stored under that pair however late the commit comes.
   */
  method ReadThrough(
    db: CacheDb, before: Option<Stamp>, physical: Option<Path>, read: Option<TrackTags>, after: Option<Stamp>,
    again: Option<Path>, commit: bool)
    returns (r: Result<Option<Row<TrackTags>>>, displaced: set<Path>, ghost last: Index)
    modifies db`audioTags, db`versions, db`identities
    ensures NoLower(old(db.Ix()), db.Ix())
    ensures before.None? || physical.None? ==> r == Err
    ensures !(r.Ok? && r.value.Some?) ==> displaced == {}
    ensures !(r.Ok? && r.value.Some?) && physical.Some? ==>
      Aside(physical.value, old(db.audioTags), old(db.Ix()), db.audioTags, db.Ix())
    ensures r.Ok? && r.value.Some? ==>
      var path, row, rows := physical.value, r.value.value, old(db.audioTags);
      && physical.Some? && again == physical && before == after == Some(row.stamp)
      && old(db.Ix()).FileVersion(path) <= row.version <= db.Ix().FileVersion(path)
      && if path in rows && rows[path].stamp == row.stamp && rows[path].version == row.version
         then row == rows[path] && displaced == {} && Aside(path, rows, old(db.Ix()), db.audioTags, db.Ix())
         else
           && read == Some(row.value) && path in db.audioTags && db.audioTags[path] == row
           && NoLower(old(db.Ix()), last) && db.Ix() == IndexFile(last, path, row.stamp.inode)
           && displaced == Displaced(last, path, row.stamp.inode)
  {
    displaced, last := {}, db.Ix();
    if before.None? || physical.None? {
      return Err, displaced, last;
    }
    var path := physical.value;
    Interfere(db, path);
    var version := db.FileVersion(path);
    ghost var first, rows := db.Ix(), db.audioTags;
    NeverLower(old(db.Ix()), first, path);
    Interfere(db, path);
    AsideOn(path, old(db.audioTags), old(db.Ix()), rows, first, db.audioTags, db.Ix());
    var cached := db.CachedTags(path, before.value, version);
    if (cached.None? && read.None?) || after.None? {
      return Err, displaced, last;
    }
    var tags := if cached.Some? then cached.value else read.value;
    ghost var second, looked := db.Ix(), db.audioTags;
    Interfere(db, path);
    AsideOn(path, old(db.audioTags), old(db.Ix()), looked, second, db.audioTags, db.Ix());
    if after != before {
      return Ok(None), displaced, last;
    }
    if again.None? {
      return Err, displaced, last;
    }
    var version2 := db.FileVersion(path);
    if again != physical || version2 != version {
      return Ok(None), displaced, last;
    }
    var row := Row(before.value, version, tags);
    if cached.Some? {
      return Ok(Some(row)), displaced, last;
    }
    ghost var third, checked := db.Ix(), db.audioTags;
    Interfere(db, path);
    AsideOn(path, old(db.audioTags), old(db.Ix()), checked, third, db.audioTags, db.Ix());
    last := db.Ix();
    NeverLower(third, last, path);
    StoringRaises(last, path, before.value.inode);
    IndexFileRaises(last, path, before.value.inode);
    var stored := db.StoreTags(path, before.value, version, tags, commit);
    if stored.Err? {
      return Err, displaced, last;
    }
    NeverLower(last, db.Ix(), path);
    assert NoLower(old(db.Ix()), db.Ix()) by { hide IndexFile, Displaced; }
    return Ok(Some(row)), stored.value, last;
  }

  lemma NeverLower(before: Index, after: Index, path: Path)
    requires NoLower(before, after)
    ensures before.FileVersion(path) <= after.FileVersion(path)
  {
    assert before.Counter(File(path)) <= after.Counter(File(path)) && before.Counter(Library) <= after.Counter(Library);
  }

  lemma StoringRaises(ix: Index, path: Path, inode: Inode)
    ensures NoLower(ix, IndexFile(ix, path, inode))
  {
    RaiseNeverLowers(ix, FileKeys(Displaced(ix, path, inode)));
    var raised := InvalidateFiles(ix, Displaced(ix, path, inode));
    assert forall key :: IndexFile(ix, path, inode).Counter(key) == raised.Counter(key);
  }
}
