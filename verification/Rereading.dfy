/** In a quiet library a file is stored when it is read first, and not again (src/scan.rs, src/db.rs). */
module Rereading {
  import opened Basics
  import opened SnapshotIndex
  import opened Scenes
  import S = Snapshots

  /** One undisturbed reading; the file itself is opened only when the cache has no row. */
  function WholeReading(s: S.System, path: Path, torn: S.Content): S.System
    requires s.disk.Valid()
  {
    var stamped := S.ApplyReader(s, path, S.Begin);
    var looked := S.ApplyReader(S.ApplyReader(stamped, path, S.TakeVersion), path, S.LookUp);
    var read := S.ApplyReader(S.ApplyReader(looked, path, S.Open), path, S.EndRead(torn));
    var checked := S.ApplyReader(S.ApplyReader(read, path, S.RecheckStamp), path, S.RecheckVersion);
    S.ApplyReader(checked, path, S.Store)
  }

  /** The row that says what the file holds now. */
  function ExactRow(s: S.System, path: Path): Row<S.Content>
    requires s.disk.Valid() && path in s.disk.link
  {
    Row(s.disk.StampOf(path), s.Version(path), s.Content(path))
  }

  function WithOnly(s: S.System, path: Path, reader: S.Reader): S.System { s.(readers := s.readers[path := reader]) }

  lemma StepIs(s: S.System, path: Path, before: S.Reader, step: S.ReaderStep, after: S.Reader)
    requires s.disk.Valid() && !step.Begin? && (step.Store? ==> !(before.Confirmed? && !before.cached))
    requires S.Advance(WithOnly(s, path, before), path, step, before) == Some(after)
    ensures S.ApplyReader(WithOnly(s, path, before), path, step) == WithOnly(s, path, after)
  {
    hide S.Advance;
    assert s.readers[path := before][path := after] == s.readers[path := after];
  }

  /** Stamp, version and lookup: a row that matches is exact. */
  lemma LookedUp(s: S.System, path: Path)
    requires Calm(s) && path in s.disk.link && path !in s.readers
    ensures var row := ExactRow(s, path); var hit := Lookup(s.rows, path, row.stamp, row.version);
      S.ApplyReader(S.ApplyReader(S.ApplyReader(s, path, S.Begin), path, S.TakeVersion), path, S.LookUp)
        == WithOnly(s, path, if hit.Some? then S.Got(row, true) else S.Missed(row.stamp, row.version))
  {
    CalmRowsAreExact(s, path);
    var row := ExactRow(s, path);
    var hit := Lookup(s.rows, path, row.stamp, row.version);
    hide S.Inv, Index.FileVersion, Lookup;
    assert S.ApplyReader(s, path, S.Begin) == WithOnly(s, path, S.Stamped(row.stamp));
    StepIs(s, path, S.Stamped(row.stamp), S.TakeVersion, S.Versioned(row.stamp, row.version));
    StepIs(s, path, S.Versioned(row.stamp, row.version), S.LookUp,
      if hit.Some? then S.Got(row, true) else S.Missed(row.stamp, row.version));
  }

  /** Without a row the file is opened and read, and nothing tears it. */
  lemma ReadUp(s: S.System, path: Path, torn: S.Content, cached: bool)
    requires Calm(s) && path in s.disk.link
    ensures var row := ExactRow(s, path);
      S.ApplyReader(S.ApplyReader(WithOnly(s, path, if cached then S.Got(row, true) else S.Missed(row.stamp, row.version)),
        path, S.Open), path, S.EndRead(torn)) == WithOnly(s, path, S.Got(row, cached))
  {
    var row := ExactRow(s, path);
    hide S.Inv, Index.FileVersion;
    if cached {
      StepIs(s, path, S.Got(row, true), S.Open, S.Got(row, true));
      StepIs(s, path, S.Got(row, true), S.EndRead(torn), S.Got(row, true));
    } else {
      var inode := s.disk.link[path];
      StepIs(s, path, S.Missed(row.stamp, row.version), S.Open, S.Reading(row.stamp, row.version, inode, s.disk.writes[inode]));
      StepIs(s, path, S.Reading(row.stamp, row.version, inode, s.disk.writes[inode]), S.EndRead(torn), S.Got(row, false));
    }
  }

  lemma CheckedUp(s: S.System, path: Path, cached: bool)
    requires Calm(s) && path in s.disk.link
    ensures var row := ExactRow(s, path);
      S.ApplyReader(S.ApplyReader(WithOnly(s, path, S.Got(row, cached)), path, S.RecheckStamp), path, S.RecheckVersion)
        == WithOnly(s, path, S.Confirmed(row, cached))
  {
    var row := ExactRow(s, path);
    hide S.Inv, Index.FileVersion;
    StepIs(s, path, S.Got(row, cached), S.RecheckStamp, S.Restamped(row, cached));
    StepIs(s, path, S.Restamped(row, cached), S.RecheckVersion, S.Confirmed(row, cached));
  }

  lemma StoredUp(s: S.System, path: Path, cached: bool)
    requires Calm(s) && path in s.disk.link
    ensures var row := ExactRow(s, path);
      S.ApplyReader(WithOnly(s, path, S.Confirmed(row, cached)), path, S.Store)
        == if cached then WithOnly(s, path, S.Held(row)) else S.ApplyStore(s, path, row)
  {
    var row := ExactRow(s, path);
    hide S.Inv, Index.FileVersion, IndexFile, Displaced;
    if cached {
      StepIs(s, path, S.Confirmed(row, true), S.Store, S.Held(row));
    } else {
      assert s.readers[path := S.Confirmed(row, false)][path := S.Held(row)] == s.readers[path := S.Held(row)];
    }
  }

  /**
   A reading in a quiet library yields exactly what the file holds. Whatever was stored before it stays as it
   is if it had the row already, and otherwise the row is there afterwards, so that the next reading stores nothing.
   */
  lemma RereadingStoresNothing(s: S.System, path: Path, torn: S.Content)
    requires Calm(s) && path in s.disk.link && path !in s.readers
    ensures var t, row := WholeReading(s, path, torn), ExactRow(s, path);
      && t.disk == s.disk && path in t.readers && t.readers[path] == S.Held(row)
      && (Lookup(s.rows, path, row.stamp, row.version).Some? ==> t.rows == s.rows && t.index == s.index)
      && Lookup(t.rows, path, row.stamp, row.version) == Some(row.value)
  {
    hide S.ApplyReader, S.Advance, S.EventsSound, S.PathSound, Index.FileVersion, IndexFile, Displaced, Apart, Indexed;
    var row := ExactRow(s, path);
    var cached := Lookup(s.rows, path, row.stamp, row.version).Some?;
    CalmRowsAreExact(s, path);
    LookedUp(s, path);
    ReadUp(s, path, torn, cached);
    CheckedUp(s, path, cached);
    StoredUp(s, path, cached);
  }
}
