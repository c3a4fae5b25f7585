/** In a quiet library, a settled pass is followed by a pass that changes nothing (src/scan.rs, src/db.rs). */
module Convergence {
  import opened Basics
  import opened Tables
  import opened Tags
  import opened CacheDbs
  import opened Publishing
  import opened Worlds
  import opened QuietPasses
  import Selection

  /** Every recorded text has something to show, as `store` insists. */
  ghost predicate TextsShow(t: Tables) {
    forall path :: path in t.tracks && t.tracks[path].result.Found? ==> !BlankText(t.tracks[path].result.lyrics)
  }

  /** The sidecar that a listing hands to the pass: the only one of the group, if any. */
  ghost predicate Lists(files: map<Path, Node>, paths: seq<Path>, existing: Option<Path>)
    requires paths != []
  {
    SidecarsOf(files, paths[0]) == if existing.Some? then {existing.value} else {}
  }

  /** The same library at a later time. */
  ghost predicate SameAnswers(a: Answers, b: Answers) { a.tags == b.tags && a.eligible == b.eligible }

  /** The lookup, if there was one, found lyrics or a definite miss. */
  ghost predicate Settles(a: Answers, tags: TrackTags) {
    a.lookup(tags).Found? || a.lookup(tags).NotFound? || a.lookup(tags).Instrumental?
  }

  /** A recorded miss of the leading file has not expired. */
  ghost predicate MissStands(t: Tables, audio: Path, now: int, retry: int) {
    audio in t.tracks && t.tracks[audio].result == NotFound ==> now - t.tracks[audio].checkedAt < retry
  }

  /** The texts recorded for these tags outside the group. */
  ghost function TextsOutside(t: Tables, paths: seq<Path>, tags: TrackTags): set<string> {
    set path | path in t.tracks && path !in paths && t.tracks[path].tags == tags.Normalized() && t.tracks[path].result.Found?
      :: t.tracks[path].result.lyrics
  }

  // ---------------------------------------------------------------------------
  // What storing and ingesting for a whole group amounts to
  // ---------------------------------------------------------------------------

  ghost predicate StoredFor(t: Tables, u: Tables, paths: seq<Path>, key: Path, tags: TrackTags, result: CachedResult,
    now: int) {
    && (forall path :: path in u.tracks <==> path in t.tracks || path in paths)
    && (forall path :: path in u.tracks ==>
          u.tracks[path] == if path in paths then TrackRecord(tags.Normalized(), result, now) else t.tracks[path])
    && u.sidecars == if result.Found? && paths != []
         then t.sidecars[key := SidecarRecord(tags.Normalized(), result.lyrics, result.origin)] else t.sidecars
  }

  lemma StoredForMore(t: Tables, u: Tables, path: Path, rest: seq<Path>, key: Path, tags: TrackTags,
    result: CachedResult, now: int)
    requires WithLrc(path) == key && StoredFor(Stored(t, path, tags, result, now), u, rest, key, tags, result, now)
    ensures StoredFor(t, u, [path] + rest, key, tags, result, now)
  {
    hide TrackTags.Normalized;
    assert forall p :: p in [path] + rest <==> p == path || p in rest;
  }

  lemma {:induction false} StoredAllIs(t: Tables, paths: seq<Path>, key: Path, tags: TrackTags, result: CachedResult,
    now: int)
    requires forall i :: 0 <= i < |paths| ==> WithLrc(paths[i]) == key
    ensures StoredFor(t, StoredAll(t, paths, tags, result, now), paths, key, tags, result, now)
    decreases |paths|
  {
    if paths != [] {
      var rest := paths[1..];
      var u := StoredAll(t, paths, tags, result, now);
      assert u == StoredAll(Stored(t, paths[0], tags, result, now), rest, tags, result, now);
      assert [paths[0]] + rest == paths;
      StoredAllIs(Stored(t, paths[0], tags, result, now), rest, key, tags, result, now);
      hide StoredFor, StoredAll, Stored, WithLrc;
      StoredForMore(t, u, paths[0], rest, key, tags, result, now);
    }
  }

  /** All rows of the group already say what an ingestion would. */
  ghost predicate AllRecorded(t: Tables, paths: seq<Path>, tags: TrackTags, lyrics: string) {
    forall i :: 0 <= i < |paths| ==> Recorded(t, paths[i], tags, lyrics)
  }

  lemma {:induction false} IngestedAllAgain(t: Tables, paths: seq<Path>, tags: TrackTags, lyrics: string, now: int)
    requires AllRecorded(t, paths, tags, lyrics)
    ensures IngestedAll(t, paths, tags, lyrics, now) == t
    decreases |paths|
  {
    hide Recorded;
    if paths != [] {
      assert Recorded(t, paths[0], tags, lyrics);
      assert Ingested(t, paths[0], tags, lyrics, now) == t;
      IngestedAllAgain(t, paths[1..], tags, lyrics, now);
    }
  }

  /** The first ingestion fixes the sidecar's row, and the others follow its origin. */
  lemma {:induction false} IngestedAllRecords(
    t: Tables, paths: seq<Path>, done: seq<Path>, key: Path, tags: TrackTags, lyrics: string, now: int)
    requires forall i :: 0 <= i < |paths| ==> WithLrc(paths[i]) == key
    requires forall i :: 0 <= i < |done| ==> WithLrc(done[i]) == key
    requires AllRecorded(t, done, tags, lyrics)
    ensures AllRecorded(IngestedAll(t, paths, tags, lyrics, now), done + paths, tags, lyrics)
    decreases |paths|
  {
    hide TrackTags.Normalized, Recorded, Ingested;
    if paths == [] {
      assert done + paths == done;
    } else {
      var u := Ingested(t, paths[0], tags, lyrics, now);
      forall i | 0 <= i < |done + [paths[0]]| ensures Recorded(u, (done + [paths[0]])[i], tags, lyrics) {
        if i < |done| {
          RecordedStays(t, done[i], paths[0], tags, lyrics, now);
        } else {
          IngestKeepsOrigin(t, paths[0], tags, lyrics, now);
        }
      }
      IngestedAllRecords(u, paths[1..], done + [paths[0]], key, tags, lyrics, now);
      assert done + [paths[0]] + paths[1..] == done + paths;
    }
  }

  lemma RecordedStays(t: Tables, path: Path, other: Path, tags: TrackTags, lyrics: string, now: int)
    requires Recorded(t, path, tags, lyrics) && WithLrc(path) == WithLrc(other)
    ensures Recorded(Ingested(t, other, tags, lyrics, now), path, tags, lyrics)
  {
    hide TrackTags.Normalized;
  }

  // ---------------------------------------------------------------------------
  // The second pass, by what it finds
  // ---------------------------------------------------------------------------

  /** What a pass over a readable group does after reading it. */
  lemma PassUses(
    a: Answers, retry: int, s: State, paths: seq<Path>, existing: Option<Path>, t: State, r: Result<bool>, asked: bool)
    returns (all: seq<TrackTags>)
    requires paths != [] && AllRead(a, paths) && QuietPass(a, retry, s, paths, existing, t, r, asked)
    ensures |all| == |paths| && forall k :: 0 <= k < |paths| ==> a.tags(paths[k]) == Some(all[k])
    ensures QuietUse(a, retry, s, paths, all, existing, t, r, asked)
  {
    hide QuietUse;
    var read: Result<Option<seq<TrackTags>>> :| ReadsAs(a, paths, read) &&
      if read.Err? || read.value.None? || read.value.value == [] then t == s && r == Err && !asked
      else QuietUse(a, retry, s, paths, read.value.value, existing, t, r, asked);
    all := read.value.value;
  }

  lemma SameTags(a: Answers, paths: seq<Path>, all: seq<TrackTags>, more: seq<TrackTags>)
    requires |all| == |paths| == |more|
    requires forall k :: 0 <= k < |paths| ==> a.tags(paths[k]) == Some(all[k]) && a.tags(paths[k]) == Some(more[k])
    ensures all == more
  {
  }

  /** With a sidecar whose text is on record for the whole group, a pass does nothing. */
  lemma RecordedIsQuiet(
    a: Answers, retry: int, s: State, paths: seq<Path>, all: seq<TrackTags>, existing: Path, lyrics: string,
    t: State, r: Result<bool>, asked: bool)
    requires paths != [] && all != [] && Readable(s.files, existing) == Some(lyrics)
    requires AllRecorded(s.tables, paths, all[0], lyrics)
    requires QuietUse(a, retry, s, paths, all, Some(existing), t, r, asked)
    ensures t == s && r == Ok(false) && !asked
  {
    assert Recorded(s.tables, paths[0], all[0], lyrics);
    assert !StaleGenerated(s.tables, WithLrc(paths[0]), all[0], lyrics);
    IngestedAllAgain(s.tables, paths, all[0], lyrics, a.now);
    hide TrackTags.Normalized, IngestedAll, QuietResolve;
  }

  /** After a publication the listing shows the published file, and its text is on record. */
  lemma PublishedIsRecorded(directory: Directory, s: State, paths: seq<Path>, tags: TrackTags, result: CachedResult,
    now: int)
    requires Group(directory, paths) && result.Found? && Storable(result) && SidecarsOf(s.files, paths[0]) == {}
    ensures var key := WithLrc(paths[0]);
      var t := Published(s.(tables := StoredAll(s.tables, paths, tags, result, now)), key, result.lyrics);
      && SidecarsOf(t.files, paths[0]) == {key} && Readable(t.files, key) == Some(result.lyrics)
      && AllRecorded(t.tables, paths, tags, result.lyrics)
  {
    var key := WithLrc(paths[0]);
    StoredAllIs(s.tables, paths, key, tags, result, now);
    var t := Published(s.(tables := StoredAll(s.tables, paths, tags, result, now)), key, result.lyrics);
    hide StoredAll, TrackTags.Normalized;
    OnlyPublishedIsNew(s, paths[0], result.lyrics);
    forall i | 0 <= i < |paths| ensures Recorded(t.tables, paths[i], tags, result.lyrics) {
      assert paths[i] in paths;
    }
  }

  lemma OnlyPublishedIsNew(s: State, audio: Path, lyrics: string)
    requires audio.Path?
    ensures SidecarsOf(Published(s, WithLrc(audio), lyrics).files, audio) == SidecarsOf(s.files, audio) + {WithLrc(audio)}
  {
  }

  /** Storing a miss for the group leaves the texts of all other tracks. */
  lemma MissLeavesOutside(t: Tables, paths: seq<Path>, key: Path, tags: TrackTags, result: CachedResult, now: int)
    requires !result.Found? && forall i :: 0 <= i < |paths| ==> WithLrc(paths[i]) == key
    ensures TextsFor(StoredAll(t, paths, tags, result, now), tags) == TextsOutside(t, paths, tags)
  {
    StoredAllIs(t, paths, key, tags, result, now);
    hide StoredAll, TrackTags.Normalized;
    var u := StoredAll(t, paths, tags, result, now);
    forall text ensures text in TextsFor(u, tags) <==> text in TextsOutside(t, paths, tags) {
      if text in TextsFor(u, tags) {
        var path :| path in u.tracks && u.tracks[path].tags == tags.Normalized() && u.tracks[path].result.Found?
          && u.tracks[path].result.lyrics == text;
        assert path !in paths && u.tracks[path] == t.tracks[path];
        assert t.tracks[path].result.lyrics in TextsOutside(t, paths, tags);
      }
      if text in TextsOutside(t, paths, tags) {
        var path :| path in t.tracks && path !in paths && t.tracks[path].tags == tags.Normalized()
          && t.tracks[path].result.Found? && t.tracks[path].result.lyrics == text;
        assert u.tracks[path] == t.tracks[path];
        assert u.tracks[path].result.lyrics in TextsFor(u, tags);
      }
    }
  }

  /** One single text is on record for these tags outside the group. */
  ghost predicate LoneOutside(t: Tables, paths: seq<Path>, tags: TrackTags) {
    tags.duration > 0 && exists text :: TextsOutside(t, paths, tags) == {text}
  }

  /** After a stored miss, only a lone text outside the group takes the place of a lookup. */
  lemma MissIsKnown(
    t: Tables, paths: seq<Path>, key: Path, tags: TrackTags, result: CachedResult, now: int, later: int, retry: int)
    requires paths != [] && !result.Found? && forall i :: 0 <= i < |paths| ==> WithLrc(paths[i]) == key
    requires result.NotFound? ==> later - now < retry
    ensures var known := WithoutLookup(StoredAll(t, paths, tags, result, now), paths[0], tags, later, retry);
      if LoneOutside(t, paths, tags) then
        known.Some? && known.value.Found? && TextsOutside(t, paths, tags) == {known.value.lyrics}
      else known == Some(result)
  {
    MissLeavesOutside(t, paths, key, tags, result, now);
    StoredAllIs(t, paths, key, tags, result, now);
    assert paths[0] in paths;
    hide StoredAll, TrackTags.Normalized, TextsOutside, TextsFor;
  }

  // ---------------------------------------------------------------------------
  // The theorem
  // ---------------------------------------------------------------------------

  /** The second pass finds nothing to do. */
  ghost predicate Rests(t: State, u: State, r: Result<bool>, asked: bool) { u == t && r == Ok(false) && !asked }

  /** A sidecar that is listed does not end the pass: it is generated, and for a recording with other tags. */
  ghost predicate GoesBy(s: State, paths: seq<Path>, tags: TrackTags, before: Option<Path>)
    requires paths != []
  {
    before.Some? ==>
      Readable(s.files, before.value).Some?
      && StaleGenerated(s.tables, WithLrc(paths[0]), tags, Readable(s.files, before.value).value)
  }

  /** The pass will ask LRCLib: nothing stops it before, and neither the track's row nor exact reuse answers. */
  ghost predicate WillAsk(a: Answers, retry: int, s: State, paths: seq<Path>, before: Option<Path>)
    requires paths != [] && AllRead(a, paths)
  {
    var tags := a.tags(paths[0]).value;
    && (forall k :: 0 <= k < |paths| ==> a.tags(paths[k]).value.Normalized() == tags.Normalized())
    && a.eligible(WithLrc(paths[0])) && GoesBy(s, paths, tags, before)
    && WithoutLookup(s.tables, paths[0], tags, a.now, retry).None?
  }

  /** LRCLib will be asked and has no lyrics, while a lone text for these tags stands outside the group. */
  ghost predicate Unsettled(a: Answers, retry: int, s: State, paths: seq<Path>, before: Option<Path>)
    requires paths != [] && AllRead(a, paths)
  {
    var tags := a.tags(paths[0]).value;
    WillAsk(a, retry, s, paths, before) && !a.lookup(tags).Found? && LoneOutside(s.tables, paths, tags)
  }

  /** The same for a pass that was seen to ask or not. */
  ghost predicate Missed(a: Answers, t: Tables, paths: seq<Path>, tags: TrackTags, asked: bool) {
    asked && !a.lookup(tags).Found? && LoneOutside(t, paths, tags)
  }

  /** The guards tell beforehand whether a pass that ends well asks LRCLib. */
  lemma AskingIsForeseen(a: Answers, retry: int, s: State, paths: seq<Path>, before: Option<Path>, t: State, looked: bool)
    requires paths != [] && AllRead(a, paths) && QuietPass(a, retry, s, paths, before, t, Ok(false), looked)
    ensures looked <==> WillAsk(a, retry, s, paths, before)
  {
    hide QuietPass, WithoutLookup, QuietPublish, StoredAll, IngestedAll, TrackTags.Normalized, Readable, ArchivedAs;
    var all := PassUses(a, retry, s, paths, before, t, Ok(false), looked);
    if !Mixed(all) && a.eligible(WithLrc(paths[0])) && before.Some? {
      var v, used :| QuietExisting(a, s, paths, all[0], before.value, v, used)
        && if used.Err? then t == v && Ok(false) == Err && !looked
           else if used.value.Some? then t == v && Ok(false) == Ok(used.value.value) && !looked
           else QuietResolve(a, retry, v, paths, all[0], t, Ok(false), looked);
      if used == Ok(None) {
        ArchivingKeepsTables(s, v, before.value);
      }
    }
  }

  lemma ArchivingKeepsTables(s: State, t: State, path: Path)
    requires ArchivedAs(s, t, path)
    ensures t.tables == s.tables
  {
  }

  /** The second pass after one that published. */
  lemma PublishSettles(
    directory: Directory, a: Answers, b: Answers, retry: int, s: State, paths: seq<Path>, all: seq<TrackTags>,
    result: CachedResult, t: State, existing: Option<Path>, u: State, r: Result<bool>, asked: bool)
    requires Group(directory, paths) && all != [] && SidecarsOf(s.files, paths[0]) == {} && result.Found?
    requires QuietPublish(a, s, paths, all[0], result, t, Ok(false))
    requires Lists(t.files, paths, existing) && QuietUse(b, retry, t, paths, all, existing, u, r, asked)
    ensures Rests(t, u, r, asked)
  {
    var key := WithLrc(paths[0]);
    PublishedIsRecorded(directory, s, paths, all[0], result, a.now);
    hide StoredAll, SidecarsOf, Published, QuietUse, QuietCollision, AllRecorded, Readable;
    assert existing.Some? && existing.value in {key};
    RecordedIsQuiet(b, retry, t, paths, all, key, result.lyrics, u, r, asked);
  }

  /** The second pass after one that stored a definite miss. */
  lemma MissSettles(
    directory: Directory, b: Answers, retry: int, s: State, paths: seq<Path>, all: seq<TrackTags>,
    result: CachedResult, at: int,
    u: State, r: Result<bool>, asked: bool)
    requires Group(directory, paths) && all != [] && SidecarsOf(s.files, paths[0]) == {} && !result.Found?
    requires !Mixed(all) && b.eligible(WithLrc(paths[0])) && TextsShow(s.tables)
    requires result.NotFound? ==> b.now - at < retry
    requires var t := s.(tables := StoredAll(s.tables, paths, all[0], result, at)); QuietUse(b, retry, t, paths, all, None, u, r, asked)
    ensures Rests(s.(tables := StoredAll(s.tables, paths, all[0], result, at)), u, r, asked) <==> !LoneOutside(s.tables, paths, all[0])
  {
    var key := WithLrc(paths[0]);
    var t := s.(tables := StoredAll(s.tables, paths, all[0], result, at));
    MissIsKnown(s.tables, paths, key, all[0], result, at, b.now, retry);
    var known := WithoutLookup(t.tables, paths[0], all[0], b.now, retry);
    if LoneOutside(s.tables, paths, all[0]) {
      OutsideTextShows(s.tables, paths, all[0], known.value.lyrics);
      hide StoredAll, WithoutLookup, TextsOutside, SidecarsOf, Mixed, LoneOutside, TextsShow;
      assert QuietPublish(b, t, paths, all[0], known.value, u, r);
      assert key in u.files;
      KeyIsListed(t.files, paths[0]);
    }
    hide StoredAll, WithoutLookup, TextsOutside, SidecarsOf, Mixed, LoneOutside, TextsShow, QuietPublish;
  }

  lemma KeyIsListed(files: map<Path, Node>, audio: Path)
    requires audio.Path?
    ensures WithLrc(audio) in files ==> WithLrc(audio) in SidecarsOf(files, audio)
  {
  }

  lemma OutsideTextShows(t: Tables, paths: seq<Path>, tags: TrackTags, text: string)
    requires TextsShow(t) && text in TextsOutside(t, paths, tags)
    ensures !BlankText(text)
  {
    hide TrackTags.Normalized, BlankText;
    var path :| path in t.tracks && path !in paths && t.tracks[path].tags == tags.Normalized()
      && t.tracks[path].result.Found? && t.tracks[path].result.lyrics == text;
  }

  /** The second pass after one that resolved a group without a sidecar. */
  lemma ResolveSettles(
    directory: Directory, a: Answers, b: Answers, retry: int, s: State, paths: seq<Path>, all: seq<TrackTags>,
    t: State, looked: bool, existing: Option<Path>, u: State, r: Result<bool>, asked: bool)
    requires Group(directory, paths) && all != [] && SidecarsOf(s.files, paths[0]) == {}
    requires !Mixed(all) && b.eligible(WithLrc(paths[0])) && TextsShow(s.tables)
    requires QuietResolve(a, retry, s, paths, all[0], t, Ok(false), looked) && (looked ==> Settles(a, all[0]))
    requires MissStands(t.tables, paths[0], b.now, retry)
    requires Lists(t.files, paths, existing) && QuietUse(b, retry, t, paths, all, existing, u, r, asked)
    ensures Rests(t, u, r, asked) <==> !Missed(a, s.tables, paths, all[0], looked)
  {
    var known := WithoutLookup(s.tables, paths[0], all[0], a.now, retry);
    if known.Some? && !known.value.Found? {
      KnownMissStays(s.tables, paths[0], all[0], a.now, b.now, retry);
      hide WithoutLookup, TextsOutside, SidecarsOf, Mixed, LoneOutside, TextsShow, QuietPublish;
    } else if known.Some? {
      hide WithoutLookup, TextsOutside, SidecarsOf, Mixed, LoneOutside, TextsShow, QuietPublish, QuietUse;
      PublishSettles(directory, a, b, retry, s, paths, all, known.value, t, existing, u, r, asked);
    } else if a.lookup(all[0]).Found? {
      hide WithoutLookup, TextsOutside, SidecarsOf, Mixed, LoneOutside, TextsShow, QuietPublish, QuietUse;
      PublishSettles(directory, a, b, retry, s, paths, all, Found(a.lookup(all[0]).lyrics, Generated), t, existing,
        u, r, asked);
    } else {
      var result := if a.lookup(all[0]).NotFound? then NotFound else Instrumental;
      StoredMissStands(s.tables, paths, WithLrc(paths[0]), all[0], result, a.now, b.now, retry);
      hide WithoutLookup, TextsOutside, SidecarsOf, Mixed, LoneOutside, TextsShow, QuietPublish, QuietUse, StoredAll;
      MissSettles(directory, b, retry, s, paths, all, result, a.now, u, r, asked);
    }
  }

  lemma StoredMissStands(
    t: Tables, paths: seq<Path>, key: Path, tags: TrackTags, result: CachedResult, now: int, later: int, retry: int)
    requires paths != [] && forall i :: 0 <= i < |paths| ==> WithLrc(paths[i]) == key
    requires MissStands(StoredAll(t, paths, tags, result, now), paths[0], later, retry)
    ensures result.NotFound? ==> later - now < retry
  {
    StoredAllIs(t, paths, key, tags, result, now);
    assert paths[0] in paths;
    hide StoredAll, TrackTags.Normalized;
  }

  lemma KnownMissStays(t: Tables, audio: Path, tags: TrackTags, now: int, later: int, retry: int)
    requires var known := WithoutLookup(t, audio, tags, now, retry); known.Some? && !known.value.Found?
    requires MissStands(t, audio, later, retry)
    ensures WithoutLookup(t, audio, tags, later, retry) == WithoutLookup(t, audio, tags, now, retry)
  {
    hide TrackTags.Normalized, Reusable;
  }

  /** The sidecar that an archiving takes away was the only one. */
  lemma ArchivedLeavesNone(s: State, u: State, audio: Path, existing: Path)
    requires ArchivedAs(s, u, existing) && SidecarsOf(s.files, audio) == {existing}
    ensures SidecarsOf(u.files, audio) == {} && u.tables == s.tables
  {
    var slot: nat :| Carried(s, u, existing, Archived(existing, slot), s.files[existing].owner);
    assert forall path :: path in u.files && path.Path? ==> path in s.files && path != existing;
  }

  /**
   Convergence: after a pass over a group that ended well, with the library unchanged and a recorded miss
   not expired, the next pass changes neither files nor rows, asks nothing and requests no rerun, unless
   the first one was to ask LRCLib in vain while a lone text for the same tags stood outside the group.
   */
  lemma SecondPassRests(
    directory: Directory, a: Answers, b: Answers, retry: int, s: State, paths: seq<Path>, before: Option<Path>,
    t: State, looked: bool, after: Option<Path>, u: State, r: Result<bool>, asked: bool)
    requires Group(directory, paths) && SameAnswers(a, b) && AllRead(a, paths) && TextsShow(s.tables)
    requires Lists(s.files, paths, before) && QuietPass(a, retry, s, paths, before, t, Ok(false), looked)
    requires WillAsk(a, retry, s, paths, before) ==> Settles(a, a.tags(paths[0]).value)
    requires MissStands(t.tables, paths[0], b.now, retry)
    requires Lists(t.files, paths, after) && QuietPass(b, retry, t, paths, after, u, r, asked)
    ensures Rests(t, u, r, asked) <==> !Unsettled(a, retry, s, paths, before)
  {
    AskingIsForeseen(a, retry, s, paths, before, t, looked);
    hide QuietPass, QuietUse, QuietResolve, Rests, StoredAll, IngestedAll, SidecarsOf, Settles, MissStands, TextsShow,
      WillAsk, LoneOutside;
    var all := PassUses(a, retry, s, paths, before, t, Ok(false), looked);
    var more := PassUses(b, retry, t, paths, after, u, r, asked);
    SameTags(a, paths, all, more);
    FirstUse(directory, a, b, retry, s, paths, all, before, t, looked, after, u, r, asked);
  }

  lemma FirstUse(
    directory: Directory, a: Answers, b: Answers, retry: int, s: State, paths: seq<Path>, all: seq<TrackTags>,
    before: Option<Path>,
    t: State, looked: bool, after: Option<Path>, u: State, r: Result<bool>, asked: bool)
    requires Group(directory, paths) && SameAnswers(a, b) && all != [] && TextsShow(s.tables)
    requires Lists(s.files, paths, before) && QuietUse(a, retry, s, paths, all, before, t, Ok(false), looked)
    requires looked ==> Settles(a, all[0])
    requires MissStands(t.tables, paths[0], b.now, retry)
    requires Lists(t.files, paths, after) && QuietUse(b, retry, t, paths, all, after, u, r, asked)
    ensures Rests(t, u, r, asked) <==> !Missed(a, s.tables, paths, all[0], looked)
  {
    if Mixed(all) || !a.eligible(WithLrc(paths[0])) {
      hide QuietResolve, QuietExisting, Lists, Mixed, LoneOutside;
    } else if before.None? {
      assert QuietResolve(a, retry, s, paths, all[0], t, Ok(false), looked);
      assert SidecarsOf(s.files, paths[0]) == {};
      hide *;
      ResolveSettles(directory, a, b, retry, s, paths, all, t, looked, after, u, r, asked);
    } else {
      assert QuietSettle(a, retry, s, paths, all[0], before, t, Ok(false), looked);
      var v, used :| QuietExisting(a, s, paths, all[0], before.value, v, used)
        && if used.Err? then t == v && Ok(false) == Err && !looked
           else if used.value.Some? then t == v && Ok(false) == Ok(used.value.value) && !looked
           else QuietResolve(a, retry, v, paths, all[0], t, Ok(false), looked);
      ExistingSettles(directory, a, b, retry, s, paths, all, before.value, v, used, t, looked, after, u, r, asked);
    }
  }

  lemma ExistingSettles(
    directory: Directory, a: Answers, b: Answers, retry: int, s: State, paths: seq<Path>, all: seq<TrackTags>,
    before: Path,
    v: State, used: Result<Option<bool>>, t: State, looked: bool, after: Option<Path>, u: State, r: Result<bool>,
    asked: bool)
    requires Group(directory, paths) && all != [] && TextsShow(s.tables)
    requires !Mixed(all) && b.eligible(WithLrc(paths[0]))
    requires SidecarsOf(s.files, paths[0]) == {before} && QuietExisting(a, s, paths, all[0], before, v, used)
    requires used.Ok? && if used.value.Some? then t == v && !looked
      else QuietResolve(a, retry, v, paths, all[0], t, Ok(false), looked) && (looked ==> Settles(a, all[0]))
    requires MissStands(t.tables, paths[0], b.now, retry)
    requires Lists(t.files, paths, after) && QuietUse(b, retry, t, paths, all, after, u, r, asked)
    ensures Rests(t, u, r, asked) <==> !Missed(a, s.tables, paths, all[0], looked)
  {
    if used.value.Some? {
      var text := Readable(s.files, before);
      IngestedAllRecords(s.tables, paths, [], WithLrc(paths[0]), all[0], text.value, a.now);
      assert [] + paths == paths;
      assert t.files == s.files && AllRecorded(t.tables, paths, all[0], text.value);
      assert after == Some(before) by { assert before in {before}; }
      hide QuietUse, AllRecorded, IngestedAll, SidecarsOf, Mixed, LoneOutside;
      RecordedIsQuiet(b, retry, t, paths, all, before, text.value, u, r, asked);
    } else {
      ArchivedLeavesNone(s, v, paths[0], before);
      hide *;
      ResolveSettles(directory, a, b, retry, v, paths, all, t, looked, after, u, r, asked);
      MissedIsTables(a, s.tables, v.tables, paths, all[0], looked);
    }
  }

  lemma MissedIsTables(a: Answers, s: Tables, v: Tables, paths: seq<Path>, tags: TrackTags, asked: bool)
    requires s == v
    ensures Missed(a, s, paths, tags, asked) == Missed(a, v, paths, tags, asked)
  {
  }

  // ---------------------------------------------------------------------------
  // One format, and several
  // ---------------------------------------------------------------------------

  /** What a lookup says about the rows it was made over. */
  lemma LookupMeansNoLoneText(t: Tables, audio: Path, tags: TrackTags, now: int, retry: int)
    requires WithoutLookup(t, audio, tags, now, retry).None?
    ensures !LoneOutside(t, [audio], tags)
  {
    hide TrackTags.Normalized;
    forall text ensures text in TextsOutside(t, [audio], tags) <==> text in TextsFor(t, tags) {
      if text in TextsFor(t, tags) {
        var path :| path in t.tracks && t.tracks[path].tags == tags.Normalized() && t.tracks[path].result.Found?
          && t.tracks[path].result.lyrics == text;
        assert path !in [audio];
      }
    }
    assert TextsOutside(t, [audio], tags) == TextsFor(t, tags);
  }

  /** A group of one file always rests. */
  lemma SingleFormatRests(
    directory: Directory, a: Answers, b: Answers, retry: int, s: State, audio: Path, before: Option<Path>,
    t: State, looked: bool, after: Option<Path>, u: State, r: Result<bool>, asked: bool)
    requires Group(directory, [audio]) && SameAnswers(a, b) && AllRead(a, [audio]) && TextsShow(s.tables)
    requires Lists(s.files, [audio], before) && QuietPass(a, retry, s, [audio], before, t, Ok(false), looked)
    requires WillAsk(a, retry, s, [audio], before) ==> Settles(a, a.tags(audio).value)
    requires MissStands(t.tables, audio, b.now, retry)
    requires Lists(t.files, [audio], after) && QuietPass(b, retry, t, [audio], after, u, r, asked)
    ensures u == t && r == Ok(false) && !asked
  {
    SecondPassRests(directory, a, b, retry, s, [audio], before, t, looked, after, u, r, asked);
    hide QuietPass, QuietUse, LoneOutside, WithoutLookup, GoesBy;
    if WillAsk(a, retry, s, [audio], before) {
      LookupMeansNoLoneText(s.tables, audio, a.tags(audio).value, a.now, retry);
    }
  }

  // ---------------------------------------------------------------------------
  // Two formats that do not rest
  // ---------------------------------------------------------------------------

  const FLAC := Path(Directory(0), "a", Audio(0))
  const MP3 := Path(Directory(0), "a", Audio(1))
  const OTHER := Path(Directory(1), "b", Audio(0))

  /** One recording, stored with one text for its second format and with another one elsewhere. */
  function TwoTexts(tags: TrackTags): Tables {
    Stored(Stored(Tables(map[], map[]), MP3, tags, Found("one", Generated), 0), OTHER, tags, Found("two", Generated), 0)
  }

  lemma {:induction false} TwoTextsAre(tags: TrackTags)
    ensures var t := TwoTexts(tags);
      && t.tracks == map[MP3 := TrackRecord(tags.Normalized(), Found("one", Generated), 0),
                         OTHER := TrackRecord(tags.Normalized(), Found("two", Generated), 0)]
      && TextsFor(t, tags) == {"one", "two"} && TextsOutside(t, [FLAC, MP3], tags) == {"two"}
      && FLAC !in t.tracks && TextsShow(t)
  {
    hide TrackTags.Normalized;
    var t := TwoTexts(tags);
    assert FLAC != MP3 && MP3 != OTHER && FLAC != OTHER && OTHER !in [FLAC, MP3] && MP3 in [FLAC, MP3];
    assert t.tracks[MP3].result.lyrics == "one" && t.tracks[OTHER].result.lyrics == "two";
    assert t.tracks[MP3].result.lyrics in TextsFor(t, tags) && t.tracks[OTHER].result.lyrics in TextsFor(t, tags);
    assert t.tracks[OTHER].result.lyrics in TextsOutside(t, [FLAC, MP3], tags);
  }

  /** Neither text is the only one, so neither is reused. */
  lemma {:induction false} TwoTextsAsk(tags: TrackTags, now: int)
    ensures WithoutLookup(TwoTexts(tags), FLAC, tags, now, 1).None?
  {
    TwoTextsAre(tags);
    hide TrackTags.Normalized, TwoTexts, TextsFor;
    assert "one"[0] != "two"[0];
    forall text: string ensures {"one", "two"} != {text} {
      if text == "one" {
        assert "two" !in {text};
      } else {
        assert "one" !in {text};
      }
    }
  }

  /** The texts of the two are ambiguous, so the first pass asks, misses, and records that for both formats. */
  lemma {:induction false} FirstPassMisses(a: Answers, tags: TrackTags, s: State, t: State)
    requires a.tags(FLAC) == a.tags(MP3) == Some(tags) && a.lookup(tags) == Selection.NotFound && a.eligible(WithLrc(FLAC))
    requires s == State(map[], TwoTexts(tags), 0)
    requires t == s.(tables := StoredAll(TwoTexts(tags), [FLAC, MP3], tags, NotFound, a.now))
    ensures QuietPass(a, 1, s, [FLAC, MP3], None, t, Ok(false), true)
  {
    TwoTextsAsk(tags, a.now);
    hide TrackTags.Normalized, StoredAll, WithoutLookup, TwoTexts;
    assert QuietSettle(a, 1, s, [FLAC, MP3], tags, None, t, Ok(false), true);
    hide QuietSettle;
    TwoAgree(a, 1, s, tags, t, true);
  }

  lemma {:induction false} TwoAgree(a: Answers, retry: int, s: State, tags: TrackTags, t: State, asked: bool)
    requires a.tags(FLAC) == a.tags(MP3) == Some(tags) && a.eligible(WithLrc(FLAC))
    requires QuietSettle(a, retry, s, [FLAC, MP3], tags, None, t, Ok(false), asked)
    ensures QuietPass(a, retry, s, [FLAC, MP3], None, t, Ok(false), asked)
  {
    hide QuietSettle, TrackTags.Normalized;
    assert ReadsAs(a, [FLAC, MP3], Ok(Some([tags, tags])));
    assert QuietUse(a, retry, s, [FLAC, MP3], [tags, tags], None, t, Ok(false), asked);
  }

  /** With the miss recorded, the other text is the only one. */
  lemma {:induction false} OtherIsReused(tags: TrackTags, t: Tables, now: int)
    requires tags.duration > 0 && t == StoredAll(TwoTexts(tags), [FLAC, MP3], tags, NotFound, now)
    ensures WithoutLookup(t, FLAC, tags, now, 1) == Some(Found("two", Generated))
  {
    TwoTextsAre(tags);
    MissLeavesOutside(TwoTexts(tags), [FLAC, MP3], WithLrc(FLAC), tags, NotFound, now);
    StoredAllIs(TwoTexts(tags), [FLAC, MP3], WithLrc(FLAC), tags, NotFound, now);
    assert FLAC in [FLAC, MP3];
    hide TrackTags.Normalized, StoredAll, TwoTexts, TextsFor, TextsOutside;
    assert "two" in {"two"};
  }

  /** The next pass publishes it. */
  lemma {:induction false} SecondPassPublishes(a: Answers, tags: TrackTags, t: State, u: State)
    requires tags.duration > 0 && a.tags(FLAC) == a.tags(MP3) == Some(tags) && a.eligible(WithLrc(FLAC))
    requires t == State(map[], StoredAll(TwoTexts(tags), [FLAC, MP3], tags, NotFound, a.now), 0)
    requires u == Published(t.(tables := StoredAll(t.tables, [FLAC, MP3], tags, Found("two", Generated), a.now)),
      WithLrc(FLAC), "two")
    ensures QuietPass(a, 1, t, [FLAC, MP3], None, u, Ok(false), false)
  {
    OtherIsReused(tags, t.tables, a.now);
    assert SidecarsOf(t.files, FLAC) == {} && !BlankText("two");
    hide TrackTags.Normalized, StoredAll, WithoutLookup, TwoTexts;
    assert QuietSettle(a, 1, t, [FLAC, MP3], tags, None, u, Ok(false), false);
    hide QuietSettle;
    TwoAgree(a, 1, t, tags, u, false);
  }

  /**
   A group of two formats need not rest: the two texts are ambiguous, so LRCLib is asked, and storing
   its miss under both formats removes the ambiguity, so that the next pass publishes the other text.
   */
  lemma {:induction false} TwoFormatsMayNotRest(a: Answers, tags: TrackTags) returns (s: State, t: State, u: State)
    requires tags.duration > 0 && a.tags(FLAC) == a.tags(MP3) == Some(tags) && a.lookup(tags) == Selection.NotFound
    requires a.eligible(WithLrc(FLAC))
    ensures s == State(map[], TwoTexts(tags), 0)
    ensures QuietPass(a, 1, s, [FLAC, MP3], None, t, Ok(false), true)
    ensures QuietPass(a, 1, t, [FLAC, MP3], None, u, Ok(false), false)
    ensures !Rests(t, u, Ok(false), false) && WithLrc(FLAC) in u.files && WithLrc(FLAC) !in t.files
  {
    s := State(map[], TwoTexts(tags), 0);
    t := s.(tables := StoredAll(TwoTexts(tags), [FLAC, MP3], tags, NotFound, a.now));
    u := Published(t.(tables := StoredAll(t.tables, [FLAC, MP3], tags, Found("two", Generated), a.now)), WithLrc(FLAC), "two");
    FirstPassMisses(a, tags, s, t);
    SecondPassPublishes(a, tags, t, u);
    hide StoredAll, TwoTexts, QuietPass;
  }
}
