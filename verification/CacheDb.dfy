/** The cache database as an object (src/db.rs); each transaction commits as a whole or not at all. */
module CacheDbs {
  import opened Basics
  import opened Text
  import opened Tags
  import opened SnapshotIndex
  import T = Tables

  datatype Result<V> = Ok(value: V) | Err

  class CacheDb {
    var tracks: map<Path, T.TrackRecord>
    var sidecars: map<Path, T.SidecarRecord>
    var audioTags: map<Path, Row<TrackTags>>
    var lyricFiles: map<Path, Row<string>>
    var versions: map<VersionKey, nat>
    var identities: map<Path, Inode>
    const retry: int

    ghost function Content(): T.Tables
      reads this
    {
      T.Tables(tracks, sidecars)
    }

    ghost function Ix(): Index
      reads this
    {
      Index(versions, identities)
    }

    constructor (retry: int)
      ensures Content() == T.Tables(map[], map[]) && Ix() == Index(map[], map[])
      ensures audioTags == map[] && lyricFiles == map[] && this.retry == retry
    {
      tracks, sidecars, audioTags, lyricFiles, versions, identities := map[], map[], map[], map[], map[], map[];
      this.retry := retry;
    }

    // -------------------------------------------------------------------------
    // Snapshots
    // -------------------------------------------------------------------------

    method Increment(key: VersionKey)
      modifies `versions
      ensures Ix() == old(Ix()).(versions := old(versions)[key := old(Ix()).Counter(key) + 1])
    {
      versions := versions[key := if key in versions then versions[key] + 1 else 1];
    }

    method InvalidatePaths(paths: set<Path>)
      modifies `versions
      ensures Ix() == InvalidateFiles(old(Ix()), paths)
    {
      var left := paths;
      InvalidateNone(Ix());
      hide InvalidateFiles, Index.Counter;
      assert paths - left == {};
      while left != {}
        invariant left <= paths
        invariant Ix() == InvalidateFiles(old(Ix()), paths - left)
        decreases left
      {
        var path :| path in left;
        InvalidateOneMore(old(Ix()), paths - left, path);
        assert paths - left + {path} == paths - (left - {path});
        Increment(File(path));
        left := left - {path};
      }
      assert paths - left == paths;
    }

    method InvalidateFilesNow(paths: set<Path>, commit: bool) returns (r: Result<()>)
      modifies `versions
      ensures r.Ok? == commit
      ensures Ix() == if commit then InvalidateFiles(old(Ix()), paths) else old(Ix())
    {
      if !commit {
        return Err;
      }
      InvalidatePaths(paths);
      return Ok(());
    }

    method InvalidateAllSnapshots(commit: bool) returns (r: Result<()>)
      modifies `versions
      ensures r.Ok? == commit
      ensures Ix() == if commit then InvalidateAll(old(Ix())) else old(Ix())
    {
      if !commit {
        return Err;
      }
      Increment(Library);
      assert versions == InvalidateAll(old(Ix())).versions;
      return Ok(());
    }

    method FileVersion(path: Path) returns (version: nat)
      ensures version == Ix().FileVersion(path)
    {
      version := 0;
      if File(path) in versions {
        version := version + versions[File(path)];
      }
      if Library in versions {
        version := version + versions[Library];
      }
    }

    method PathsSharing(path: Path, current: Option<Inode>) returns (aliases: set<Path>)
      ensures aliases == PathsSharingFile(Ix(), path, current)
    {
      var recorded := if path in identities then Some(identities[path]) else None;
      aliases := set other | other in identities
        && (Some(identities[other]) == current || Some(identities[other]) == recorded);
    }

    method IndexNow(path: Path, inode: Inode) returns (displaced: set<Path>)
      modifies `versions, `identities
      ensures displaced == Displaced(old(Ix()), path, inode)
      ensures Ix() == IndexFile(old(Ix()), path, inode)
    {
      var recorded := if path in identities then Some(identities[path]) else None;
      displaced := set other | other in identities
        && other != path && identities[other] != inode && Some(identities[other]) == recorded;
      InvalidatePaths(displaced);
      identities := identities[path := inode];
    }

    method CachedTags(path: Path, stamp: Stamp, version: nat) returns (tags: Option<TrackTags>)
      ensures tags == Lookup(audioTags, path, stamp, version)
    {
      if path in audioTags && audioTags[path].stamp == stamp && audioTags[path].version == version {
        return Some(audioTags[path].value);
      }
      return None;
    }

    method StoreTags(path: Path, stamp: Stamp, version: nat, tags: TrackTags,
      commit: bool) returns (r: Result<set<Path>>)
      modifies `audioTags, `versions, `identities
      ensures !commit ==> r == Err && audioTags == old(audioTags) && Ix() == old(Ix())
      ensures commit ==>
        && r == Ok(Displaced(old(Ix()), path, stamp.inode))
        && audioTags == old(audioTags)[path := Row(stamp, version, tags)]
        && Ix() == IndexFile(old(Ix()), path, stamp.inode)
    {
      if !commit {
        return Err;
      }
      audioTags := audioTags[path := Row(stamp, version, tags)];
      var displaced := IndexNow(path, stamp.inode);
      return Ok(displaced);
    }

    method CachedLyricFile(path: Path, stamp: Stamp, version: nat) returns (lyrics: Option<string>)
      ensures lyrics == Lookup(lyricFiles, path, stamp, version)
    {
      if path in lyricFiles && lyricFiles[path].stamp == stamp && lyricFiles[path].version == version {
        return Some(lyricFiles[path].value);
      }
      return None;
    }

    method StoreLyricFile(path: Path, stamp: Stamp, version: nat, lyrics: string,
      commit: bool) returns (r: Result<set<Path>>)
      modifies `lyricFiles, `versions, `identities
      ensures !commit ==> r == Err && lyricFiles == old(lyricFiles) && Ix() == old(Ix())
      ensures commit ==>
        && r == Ok(Displaced(old(Ix()), path, stamp.inode))
        && lyricFiles == old(lyricFiles)[path := Row(stamp, version, lyrics)]
        && Ix() == IndexFile(old(Ix()), path, stamp.inode)
    {
      if !commit {
        return Err;
      }
      lyricFiles := lyricFiles[path := Row(stamp, version, lyrics)];
      var displaced := IndexNow(path, stamp.inode);
      return Ok(displaced);
    }

    // -------------------------------------------------------------------------
    // Lookups and provenance
    // -------------------------------------------------------------------------

    method Record(path: Path) returns (record: Option<T.TrackRecord>)
      ensures record == if path in tracks then Some(tracks[path]) else None
    {
      return if path in tracks then Some(tracks[path]) else None;
    }

    method CachedResult(path: Path, tags: TrackTags, now: int) returns (result: Option<T.CachedResult>)
      ensures result == T.Cached(Content(), path, tags, now, retry)
    {
      var record := Record(path);
      if record.None? {
        return None;
      }
      if record.value.tags != tags.Normalized() {
        return None;
      }
      if record.value.result == T.NotFound && now - record.value.checkedAt >= retry {
        return None;
      }
      return Some(record.value.result);
    }

    method FindCachedLyrics(tags: TrackTags) returns (lyrics: Option<string>)
      ensures lyrics == T.Reusable(Content(), tags)
    {
      if tags.duration <= 0 {
        return None;
      }
      var wanted := tags.Normalized();
      var candidates := set path | path in tracks && tracks[path].tags == wanted && tracks[path].result.Found?
        :: tracks[path].result.lyrics;
      assert candidates == T.TextsFor(Content(), tags);
      if |candidates| == 1 {
        var text :| text in candidates;
        T.OneElement(candidates, text);
        return Some(text);
      }
      assert forall text :: candidates == {text} ==> |candidates| == 1;
      return None;
    }

    method Store(path: Path, tags: TrackTags, result: T.CachedResult, now: int, commit: bool) returns (r: Result<()>)
      modifies `tracks, `sidecars
      ensures r.Ok? == (commit && T.Storable(result))
      ensures Content() == if r.Ok? then T.Stored(old(Content()), path, tags, result, now) else old(Content())
    {
      var normalized := tags.Normalized();
      if result.Found? && Trim(result.lyrics) == "" {
        return Err;
      }
      if !commit {
        return Err;
      }
      tracks := tracks[path := T.TrackRecord(normalized, result, now)];
      if result.Found? {
        sidecars := sidecars[WithLrc(path) := T.SidecarRecord(normalized, result.lyrics, result.origin)];
      }
      return Ok(());
    }

    method Ingest(path: Path, tags: TrackTags, lyrics: string, now: int, commit: bool) returns (r: Result<()>)
      modifies `tracks, `sidecars
      ensures Content() == if r.Ok? then T.Ingested(old(Content()), path, tags, lyrics, now) else old(Content())
      ensures r.Ok? == (T.Recorded(old(Content()), path, tags, lyrics) || (commit && !T.BlankText(lyrics)))
    {
      var normalized := tags.Normalized();
      var origin := T.Curated;
      if WithLrc(path) in sidecars {
        var sidecar := sidecars[WithLrc(path)];
        if sidecar.tags == normalized && sidecar.lyrics == lyrics {
          if path in tracks && tracks[path].tags == normalized && tracks[path].result == T.Found(lyrics, sidecar.origin) {
            return Ok(());
          }
          origin := sidecar.origin;
        }
      }
      r := Store(path, tags, T.Found(lyrics, origin), now, commit);
    }
  }
}
