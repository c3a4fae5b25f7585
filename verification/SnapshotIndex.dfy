/**
 The part of the cache that decides which content snapshots are still good (src/db.rs): a version
 per file, one library epoch, and the inode under which each path was last stored.
 */
module SnapshotIndex {
  import opened Basics

  datatype Inode = Inode(id: nat)

  /** A metadata stamp. `mark` stands for the size, the times and the change time. */
  datatype Stamp = Stamp(inode: Inode, mark: nat)

  /** The empty path is the key of the library epoch. */
  datatype VersionKey = Library | File(path: Path)

  datatype Row<V> = Row(stamp: Stamp, version: nat, value: V)

  datatype Index = Index(versions: map<VersionKey, nat>, identities: map<Path, Inode>)
  {
    function Counter(key: VersionKey): nat { if key in versions then versions[key] else 0 }

    /** The sum of a file's own version and the library epoch. */
    function FileVersion(path: Path): nat { Counter(File(path)) + Counter(Library) }
  }

  function Raise(ix: Index, keys: set<VersionKey>): Index {
    ix.(versions := map key | key in ix.versions.Keys + keys :: ix.Counter(key) + (if key in keys then 1 else 0))
  }

  function FileKeys(paths: set<Path>): set<VersionKey> { set path | path in paths :: File(path) }

  function InvalidateFiles(ix: Index, paths: set<Path>): Index { Raise(ix, FileKeys(paths)) }

  function InvalidateAll(ix: Index): Index { Raise(ix, {Library}) }

  /** The paths indexed under the file's current inode or under the one it was last stored with. */
  function PathsSharingFile(ix: Index, path: Path, current: Option<Inode>): set<Path> {
    set other | other in ix.identities
      && (Some(ix.identities[other]) == current || (path in ix.identities && ix.identities[other] == ix.identities[path]))
  }

  /** The other paths indexed under the inode that `path` is about to leave. */
  function Displaced(ix: Index, path: Path, inode: Inode): set<Path> {
    set other | other in ix.identities && other != path && ix.identities[other] != inode
      && path in ix.identities && ix.identities[other] == ix.identities[path]
  }

  /** Storing a snapshot of `path` transfers the invalidation duty for the aliases it leaves behind. */
  function IndexFile(ix: Index, path: Path, inode: Inode): Index {
    var raised := InvalidateFiles(ix, Displaced(ix, path, inode));
    raised.(identities := raised.identities[path := inode])
  }

  function Lookup<V>(rows: map<Path, Row<V>>, path: Path, stamp: Stamp, version: nat): Option<V> {
    if path in rows && rows[path].stamp == stamp && rows[path].version == version then Some(rows[path].value) else None
  }

  /** Exactly the listed files move, by one each, and the epoch and the index stay. */
  lemma InvalidateFilesRaises(ix: Index, paths: set<Path>)
    ensures var after := InvalidateFiles(ix, paths);
      && after.identities == ix.identities && after.Counter(Library) == ix.Counter(Library)
      && forall path :: after.FileVersion(path) == ix.FileVersion(path) + (if path in paths then 1 else 0)
  {
    var after := InvalidateFiles(ix, paths);
    forall path ensures after.Counter(File(path)) == ix.Counter(File(path)) + (if path in paths then 1 else 0) {
      assert File(path) in FileKeys(paths) <==> path in paths;
    }
    assert Library !in FileKeys(paths);
  }

  lemma InvalidateNone(ix: Index)
    ensures InvalidateFiles(ix, {}) == ix
  {
    assert InvalidateFiles(ix, {}).versions == ix.versions;
  }

  /** One file at a time is the same as all at once. */
  lemma InvalidateOneMore(ix: Index, done: set<Path>, path: Path)
    requires path !in done
    ensures var before := InvalidateFiles(ix, done);
      InvalidateFiles(ix, done + {path}) == before.(versions := before.versions[File(path) := before.Counter(File(path)) + 1])
  {
    var before := InvalidateFiles(ix, done);
    assert File(path) !in FileKeys(done);
    assert FileKeys(done + {path}) == FileKeys(done) + {File(path)};
    assert InvalidateFiles(ix, done + {path}).versions == before.versions[File(path) := before.Counter(File(path)) + 1];
  }

  /** The epoch moves every file at once, indexed or not. */
  lemma InvalidateAllRaises(ix: Index)
    ensures InvalidateAll(ix).identities == ix.identities
    ensures forall path :: InvalidateAll(ix).FileVersion(path) == ix.FileVersion(path) + 1
  {
  }

  lemma IndexFileRaises(ix: Index, path: Path, inode: Inode)
    ensures var after := IndexFile(ix, path, inode);
      && after.identities == ix.identities[path := inode]
      && forall other :: after.FileVersion(other)
           == ix.FileVersion(other) + (if other in Displaced(ix, path, inode) then 1 else 0)
  {
    InvalidateFilesRaises(ix, Displaced(ix, path, inode));
    var raised := InvalidateFiles(ix, Displaced(ix, path, inode));
    assert forall other :: IndexFile(ix, path, inode).FileVersion(other) == raised.FileVersion(other);
  }

  /** Both summands only grow, so an unchanged sum means that neither of them moved. */
  ghost predicate NoLower(before: Index, after: Index) {
    forall key :: before.Counter(key) <= after.Counter(key)
  }

  lemma EqualSumsMeanNoMove(before: Index, after: Index, path: Path)
    requires NoLower(before, after)
    ensures before.FileVersion(path) == after.FileVersion(path) <==>
      before.Counter(File(path)) == after.Counter(File(path)) && before.Counter(Library) == after.Counter(Library)
  {
    assert before.Counter(File(path)) <= after.Counter(File(path)) && before.Counter(Library) <= after.Counter(Library);
  }

  lemma RaiseNeverLowers(ix: Index, keys: set<VersionKey>)
    ensures NoLower(ix, Raise(ix, keys))
  {
  }
}
