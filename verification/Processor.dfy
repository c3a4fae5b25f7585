/** The pass over one group of audio files that share a sidecar name (src/scan.rs). */
module Processor {
  import opened Basics
  import opened Tables
  import opened Tags
  import opened CacheDbs
  import opened Scenes
  import opened Publishing
  import opened Traces
  import opened Worlds
  import opened QuietPasses
  import opened Vouching
  import S = Snapshots

  // ---------------------------------------------------------------------------
  // Reading the group
  // ---------------------------------------------------------------------------

  /** The owner holds a snapshot of the file with some of these tags. */
  ghost predicate HeldAs(quiet: bool, s: S.System, path: Path, all: seq<TrackTags>) {
    exists l :: 0 <= l < |all| && HoldsLike(quiet, s, path, all[l])
  }

  ghost predicate AllHeld(quiet: bool, s: S.System, paths: seq<Path>, all: seq<TrackTags>) {
    forall k :: 0 <= k < |paths| ==> HeldAs(quiet, s, paths[k], all)
  }

  lemma OneMoreHeld(directory: Directory, quiet: bool, s: S.System, t: S.System, paths: seq<Path>, i: nat,
    all: seq<TrackTags>, tags: TrackTags)
    requires i < |paths| && AllHeld(quiet, s, paths[..i], all) && AllWithin(directory, paths)
    requires OtherReaders(directory, paths[i], s, t) && HoldsLike(quiet, t, paths[i], tags) && (quiet ==> SameLibrary(s, t))
    ensures AllHeld(quiet, t, paths[..i + 1], all + [tags])
  {
    hide HoldsLike, SameLibrary;
    forall k | 0 <= k < i + 1 ensures HeldAs(quiet, t, paths[k], all + [tags]) {
      if paths[k] == paths[i] {
        assert (all + [tags])[|all|] == tags;
      } else {
        assert HeldAs(quiet, s, paths[..i][k], all);
        var l :| 0 <= l < |all| && HoldsLike(quiet, s, paths[k], all[l]);
        HeldOnes(quiet, s, paths[k], all[l]);
        HoldsStays(quiet, s, t, paths[k], all[l]);
        assert (all + [tags])[l] == all[l];
      }
    }
  }

  lemma AgreeingIsHolding(quiet: bool, s: S.System, paths: seq<Path>, all: seq<TrackTags>)
    requires AllHeld(quiet, s, paths, all) && all != []
    requires forall k :: 0 <= k < |all| ==> all[k].Normalized() == all[0].Normalized()
    ensures Holding(quiet, s, paths, all[0])
  {
    hide TrackTags.Normalized, UpToDate;
    forall k | 0 <= k < |paths| ensures HoldsLike(quiet, s, paths[k], all[0]) {
      assert HeldAs(quiet, s, paths[k], all);
    }
  }

  lemma GroupIsWithin(directory: Directory, paths: seq<Path>)
    requires Group(directory, paths)
    ensures AllWithin(directory, paths) && paths != []
  {
  }

  /** Read every file; one that is unreadable, or that changes meanwhile, ends the reading. */
  method ReadGroup(world: World, paths: seq<Path>) returns (r: Result<Option<seq<TrackTags>>>, ghost marks: seq<nat>)
    requires world.Valid() && AllWithin(world.directory, paths)
    modifies world`files, world`nextId, world`trace, world`snap, world`entries, world.db`tracks, world.db`sidecars
    ensures world.Valid() && Glances(old(world.trace), world.trace, r == Ok(None))
    ensures Drift(world.directory, old(world.Now()), world.Now())
    ensures r.Ok? && r.value.Some? ==>
      && ReadMarks(world.trace, |old(world.trace)|, paths, r.value.value, marks)
      && AllHeld(world.quiet, world.snap, paths, r.value.value)
    ensures r.Err? || r == Ok(None) ==> GaveUp(old(world.trace), world.trace, paths, r.Err?)
    ensures world.quiet ==> world.Now() == old(world.Now()) && ReadsAs(world.answers, paths, r)
    ensures world.quiet ==> SameLibrary(old(world.snap), world.snap)
  {
    hide Ready, Drift, FilesDrift, Pauses, Looks, Peeks, Glances, OtherReaders, SameLibrary, Holding, HoldsLike,
      AllWithin, ReadMarks, Unasked, Spares, Silent, TrackTags.Normalized, Unknown, SidecarsOf, HeldAs, AllHeld,
      GaveUp;
    var tags: seq<TrackTags> := [];
    marks := [];
    DriftStays(world.directory, world.Now());
    Nothing(world.trace);
    NothingRead(world.quiet, world.trace, world.snap, paths);
    LibraryStays(world.directory, world.quiet, world.answers, world.trace, world.Now(), world.Here());
    for i := 0 to |paths|
      invariant world.Valid() && Looks(old(world.trace), world.trace) && Drift(world.directory, old(world.Now()), world.Now())
      invariant |tags| == i && ReadMarks(world.trace, |old(world.trace)|, paths[..i], tags, marks)
      invariant AllHeld(world.quiet, world.snap, paths[..i], tags)
      invariant world.quiet ==> world.Now() == old(world.Now()) && SameLibrary(old(world.snap), world.snap)
      invariant world.quiet ==> forall k :: 0 <= k < i ==> world.answers.tags(paths[k]) == Some(tags[k])
    {
      ghost var before, past, library := world.Now(), world.trace, world.snap;
      IsWithin(world.directory, paths, i);
      var item := world.ReadAudio(paths[i]);
      DriftOn(world.directory, old(world.Now()), before, world.Now());
      SameLibraryOn(world.quiet, old(world.snap), library, world.snap);
      GlancesOn(old(world.trace), past, world.trace, item == Ok(None));
      if item.Err? {
        ReadingGaveUp(old(world.trace), past, world.trace, paths, i, true);
        return Err, marks;
      }
      if item.value.None? {
        ReadingGaveUp(old(world.trace), past, world.trace, paths, i, false);
        return Ok(None), marks;
      }
      GlancesLook(old(world.trace), world.trace);
      MarksGrow(past, old(world.trace), world.trace, paths, i, tags, marks, item.value.value);
      OneMoreHeld(world.directory, world.quiet, library, world.snap, paths, i, tags, item.value.value);
      tags := tags + [item.value.value];
      marks := marks + [|world.trace| - 1];
    }
    assert paths[..|paths|] == paths;
    LooksGlance(old(world.trace), world.trace);
    return Ok(Some(tags)), marks;
  }

  /** The last moment gave up reading one of these files: it failed, or it changed under the reader. */
  ghost predicate GaveUp(before: seq<Moment>, after: seq<Moment>, paths: seq<Path>, failed: bool) {
    && before < after && (if failed then after[|after| - 1].actor.Fails? else after[|after| - 1].actor.Doubts?)
    && after[|after| - 1].actor.path in paths
  }

  lemma ReadingGaveUp(before: seq<Moment>, past: seq<Moment>, after: seq<Moment>, paths: seq<Path>, i: nat, failed: bool)
    requires Looks(before, past) && past < after && i < |paths|
    requires after[|after| - 1].actor == if failed then Fails(paths[i]) else Doubts(paths[i])
    ensures GaveUp(before, after, paths, failed)
  {
    assert paths[i] in paths;
  }

  lemma NothingRead(quiet: bool, trace: seq<Moment>, s: S.System, paths: seq<Path>)
    ensures ReadMarks(trace, |trace|, paths[..0], [], []) && AllHeld(quiet, s, paths[..0], [])
  {
  }

  lemma IsWithin(directory: Directory, paths: seq<Path>, i: nat)
    requires AllWithin(directory, paths) && i < |paths|
    ensures Within(paths[i], directory) && IsAudio(paths[i])
  {
  }

  lemma GlancesLook(before: seq<Moment>, after: seq<Moment>)
    requires Glances(before, after, false)
    ensures Looks(before, after)
  {
  }

  lemma MarksGrow(past: seq<Moment>, start: seq<Moment>, trace: seq<Moment>, paths: seq<Path>, i: nat, all: seq<TrackTags>,
    marks: seq<nat>, tags: TrackTags)
    requires i < |paths| && ReadMarks(past, |start|, paths[..i], all, marks) && start <= past
    requires past < trace && Confirming(trace[|trace| - 1], paths[i], tags)
    ensures ReadMarks(trace, |start|, paths[..i + 1], all + [tags], marks + [|trace| - 1])
  {
    assert paths[..i + 1] == paths[..i] + [paths[i]];
  }

  // ---------------------------------------------------------------------------
  // Committing for the whole group
  // ---------------------------------------------------------------------------

  method IngestAll(world: World, paths: seq<Path>, tags: TrackTags, lyrics: string, ghost since: nat, ghost from: nat,
    ghost marks: seq<nat>)
    returns (r: Result<()>)
    requires world.Valid() && Group(world.directory, paths) && !BlankText(lyrics)
    requires HoldsOnly(world.files, WithLrc(paths[0]), Some(lyrics))
    requires !StaleGenerated(world.Now().tables, WithLrc(paths[0]), tags, lyrics)
    requires Sourced(world.trace, since, paths, tags, lyrics, from, marks)
    modifies world`files, world`nextId, world`trace, world`snap, world`entries, world.db`tracks, world.db`sidecars
    ensures world.Valid() && Tamely(old(world.trace), world.trace, WithLrc(paths[0]), since)
    ensures if r.Ok? then AllIngested(world.trace, |old(world.trace)|, paths) else Stuck(old(world.trace), world.trace)
    ensures world.quiet ==> r.Ok?
    ensures world.quiet ==>
      world.Now() == old(world.Now()).(tables := IngestedAll(old(world.Now()).tables, paths, tags, lyrics, world.answers.now))
  {
    hide Ready, Drift, FilesDrift, Pauses, Looks, Ends, SameReaders, OtherReaders, SameLibrary, Holding, Sourced,
      Unasked, Spares, Tamely, Silent, Vouched, HoldsOnly, TrackTags.Normalized, BlankText, Unknown, SidecarsOf,
      Ingested, StaleGenerated, Within, WasIngested;
    TamelyStays(world.trace, WithLrc(paths[0]), since);
    for i := 0 to |paths|
      invariant world.Valid() && Tamely(old(world.trace), world.trace, WithLrc(paths[0]), since)
      invariant HoldsOnly(world.files, WithLrc(paths[0]), Some(lyrics))
      invariant !StaleGenerated(world.Now().tables, WithLrc(paths[0]), tags, lyrics)
      invariant Sourced(world.trace, since, paths, tags, lyrics, from, marks)
      invariant forall k :: 0 <= k < i ==> WasIngested(world.trace, |old(world.trace)|, paths[k])
      invariant world.quiet ==> world.Now() == old(world.Now()).(tables := world.Now().tables)
      invariant world.quiet ==>
        IngestedAll(world.Now().tables, paths[i..], tags, lyrics, world.answers.now)
        == IngestedAll(old(world.Now()).tables, paths, tags, lyrics, world.answers.now)
    {
      assert paths[i..][0] == paths[i] && paths[i..][1..] == paths[i + 1..];
      ghost var before, past := world.Now(), world.trace;
      IngestReady(world.directory, past, since, paths, tags, lyrics, from, marks, i);
      r := world.Ingest(paths[i], tags, lyrics, from, marks[i]);
      Ingestion(past, world.trace, since, paths, tags, lyrics, from, marks, i, r.Ok?);
      TamelyOn(old(world.trace), past, world.trace, WithLrc(paths[0]), since);
      HoldsDrift(before, world.Now(), WithLrc(paths[0]), Some(lyrics));
      if r.Err? {
        EndsStuck(past, world.trace, Leaves(Broken));
        StuckOn(old(world.trace), past, world.trace);
        return;
      }
      IngestedMore(|old(world.trace)|, past, world.trace, paths, i, tags, lyrics, from, marks[i]);
    }
    return Ok(());
  }

  lemma IngestedMore(since: nat, past: seq<Moment>, trace: seq<Moment>, paths: seq<Path>, i: nat, tags: TrackTags,
    lyrics: string, from: nat, mark: nat)
    requires i < |paths| && Ends(past, trace, Ingests(paths[i], tags, lyrics, from, mark)) && past <= trace && since <= |past|
    requires forall k :: 0 <= k < i ==> WasIngested(past, since, paths[k])
    ensures forall k :: 0 <= k < i + 1 ==> WasIngested(trace, since, paths[k])
  {
    forall k | 0 <= k < i + 1 ensures WasIngested(trace, since, paths[k]) {
      if k < i {
        var m :| since <= m < |past| && past[m].actor.Ingests? && past[m].actor.path == paths[k];
        assert trace[m] == past[m];
      } else {
        assert trace[|trace| - 1].actor.Ingests?;
      }
    }
  }

  lemma IngestReady(directory: Directory, trace: seq<Moment>, since: nat, paths: seq<Path>, tags: TrackTags, lyrics: string,
    from: nat, marks: seq<nat>, i: nat)
    requires Group(directory, paths) && i < |paths| && Sourced(trace, since, paths, tags, lyrics, from, marks)
    ensures trace != [] && |marks| == |paths| && Vouched(trace, Ingests(paths[i], tags, lyrics, from, marks[i]))
    ensures Within(paths[i], directory) && WithLrc(paths[i]) == WithLrc(paths[0]) && WithLrc(paths[0]).Path?
  {
    hide Vouched;
  }

  lemma Ingestion(before: seq<Moment>, after: seq<Moment>, since: nat, paths: seq<Path>, tags: TrackTags, lyrics: string,
    from: nat, marks: seq<nat>, i: nat, done: bool)
    requires i < |paths| && Sourced(before, since, paths, tags, lyrics, from, marks) && WithLrc(paths[i]) == WithLrc(paths[0])
    requires |marks| == |paths|
    requires Ends(before, after, if done then Ingests(paths[i], tags, lyrics, from, marks[i]) else Leaves(Broken))
    ensures Tamely(before, after, WithLrc(paths[0]), since) && Sourced(after, since, paths, tags, lyrics, from, marks)
  {
    hide Vouched, Tamely, Spares, Silent, Ends, Pauses, Unasked;
    if done {
      ActIsTame(before, after, Ingests(paths[i], tags, lyrics, from, marks[i]), WithLrc(paths[0]), false, since);
    } else {
      LookIsTame(before, after, Leaves(Broken), WithLrc(paths[0]), since);
    }
    SourcedLasts(before, after, since, paths, tags, lyrics, from, marks);
  }

  method StoreAll(world: World, paths: seq<Path>, tags: TrackTags, result: CachedResult, ghost from: nat, ghost since: nat,
    ghost marks: seq<nat>)
    returns (r: Result<()>)
    requires world.Valid() && Group(world.directory, paths)
    requires result.Found? ==> HoldsOnly(world.files, WithLrc(paths[0]), Some(result.lyrics))
    requires Backed(world.trace, since, paths, tags, result, from, marks)
    modifies world`files, world`nextId, world`trace, world`snap, world`entries, world.db`tracks, world.db`sidecars
    ensures world.Valid() && Stores(old(world.trace), world.trace, WithLrc(paths[0]), since, result)
    ensures FilesDrift(old(world.Now()), world.Now()) && SameReaders(world.directory, old(world.snap), world.snap)
    ensures r.Ok? && result.Found? ==> RowIs(world.Now().tables, paths[0], tags, result.lyrics)
    ensures if r.Ok? then AllCommitted(world.trace, |old(world.trace)|, paths, result.Found?)
      else Stuck(old(world.trace), world.trace)
    ensures world.quiet ==> r.Ok? == Storable(result) && world.Here() == old(world.Here())
    ensures world.quiet ==> world.Now() == if r.Ok?
      then old(world.Now()).(tables := StoredAll(old(world.Now()).tables, paths, tags, result, world.answers.now))
      else old(world.Now())
  {
    hide Ready, Drift, FilesDrift, Pauses, Looks, Ends, SameReaders, OtherReaders, SameLibrary, Holding, Backed,
      Unasked, Spares, Silent, Vouched, HoldsOnly, TrackTags.Normalized, BlankText, Unknown, SidecarsOf, Stored,
      Within, Stores, Storable, WasCommitted;
    StoresStays(world.trace, WithLrc(paths[0]), since, result);
    DriftStays(world.directory, world.Now());
    DriftIsFiles(world.directory, world.Now(), world.Now());
    SameReadersStay(world.directory, world.snap);
    for i := 0 to |paths|
      invariant world.Valid() && Stores(old(world.trace), world.trace, WithLrc(paths[0]), since, result)
      invariant FilesDrift(old(world.Now()), world.Now()) && SameReaders(world.directory, old(world.snap), world.snap)
      invariant result.Found? ==> HoldsOnly(world.files, WithLrc(paths[0]), Some(result.lyrics))
      invariant i > 0 && result.Found? ==> RowIs(world.Now().tables, paths[0], tags, result.lyrics)
      invariant Backed(world.trace, since, paths, tags, result, from, marks)
      invariant forall k :: 0 <= k < i ==> WasCommitted(world.trace, |old(world.trace)|, paths[k], result.Found?)
      invariant world.quiet && i > 0 ==> Storable(result)
      invariant world.quiet ==> world.Now() == old(world.Now()).(tables := world.Now().tables) && world.Here() == old(world.Here())
      invariant world.quiet ==>
        StoredAll(world.Now().tables, paths[i..], tags, result, world.answers.now)
        == StoredAll(old(world.Now()).tables, paths, tags, result, world.answers.now)
      invariant world.quiet && i == 0 ==> world.Now() == old(world.Now())
    {
      assert paths[i..][0] == paths[i] && paths[i..][1..] == paths[i + 1..];
      ghost var before, past, library := world.Now(), world.trace, world.snap;
      CommitReady(world.directory, past, since, paths, tags, result, from, marks, i);
      r := world.Store(paths[i], tags, result, from, marks[i]);
      Commitment(past, world.trace, since, paths, tags, result, from, marks, i, r.Ok?);
      StoresOn(old(world.trace), past, world.trace, WithLrc(paths[0]), since, result);
      if result.Found? {
        HoldsDrift(before, world.Now(), WithLrc(paths[0]), Some(result.lyrics));
      }
      FilesDriftOn(old(world.Now()), before, world.Now());
      SameReadersOn(world.directory, old(world.snap), library, world.snap);
      if r.Err? {
        EndsStuck(past, world.trace, Leaves(Broken));
        StuckOn(old(world.trace), past, world.trace);
        return;
      }
      CommittedMore(|old(world.trace)|, past, world.trace, paths, i, tags, result, from, marks[i]);
    }
    return Ok(());
  }

  lemma CommittedMore(since: nat, past: seq<Moment>, trace: seq<Moment>, paths: seq<Path>, i: nat, tags: TrackTags,
    result: CachedResult, from: nat, mark: nat)
    requires i < |paths| && Ends(past, trace, Commits(paths[i], tags, result, from, mark)) && past <= trace && since <= |past|
    requires forall k :: 0 <= k < i ==> WasCommitted(past, since, paths[k], result.Found?)
    ensures forall k :: 0 <= k < i + 1 ==> WasCommitted(trace, since, paths[k], result.Found?)
  {
    forall k | 0 <= k < i + 1 ensures WasCommitted(trace, since, paths[k], result.Found?) {
      if k < i {
        CommittedLasts(past, trace, since, since, paths[k], result.Found?);
      } else {
        assert trace[|trace| - 1].actor.Commits?;
      }
    }
  }

  /** The row of the group's sidecar records this text under these tags. */
  ghost predicate RowIs(tables: Tables, path: Path, tags: TrackTags, lyrics: string) {
    RowSays(tables, path, lyrics) && tables.sidecars[WithLrc(path)].tags == tags.Normalized()
  }

  /** The trace goes on by committing this result; lyrics that are committed announce nothing yet. */
  ghost predicate Stores(before: seq<Moment>, after: seq<Moment>, key: Path, since: nat, result: CachedResult) {
    && Spares(before, after, key, false, since, false) && Unasked(before, after)
    && (result.Found? ==> Silent(before, after))
  }

  lemma StoresStays(trace: seq<Moment>, key: Path, since: nat, result: CachedResult)
    ensures Stores(trace, trace, key, since, result)
  {
  }

  lemma StoresOn(a: seq<Moment>, b: seq<Moment>, c: seq<Moment>, key: Path, since: nat, result: CachedResult)
    requires Stores(a, b, key, since, result) && Stores(b, c, key, since, result)
    ensures Stores(a, c, key, since, result) && a <= b <= c
  {
    SparesOn(a, b, c, key, false, false, false, since, false);
    UnaskedOn(a, b, c);
    if result.Found? { SilentOn(a, b, c); }
    hide Spares, Silent, Unasked;
  }

  lemma CommitReady(directory: Directory, trace: seq<Moment>, since: nat, paths: seq<Path>, tags: TrackTags,
    result: CachedResult, from: nat, marks: seq<nat>, i: nat)
    requires Group(directory, paths) && i < |paths| && Backed(trace, since, paths, tags, result, from, marks)
    ensures trace != [] && |marks| == |paths| && Vouched(trace, Commits(paths[i], tags, result, from, marks[i]))
    ensures Within(paths[i], directory) && WithLrc(paths[i]) == WithLrc(paths[0]) && WithLrc(paths[0]).Path?
  {
    hide Vouched;
  }

  lemma Commitment(before: seq<Moment>, after: seq<Moment>, since: nat, paths: seq<Path>, tags: TrackTags,
    result: CachedResult, from: nat, marks: seq<nat>, i: nat, done: bool)
    requires i < |paths| && Backed(before, since, paths, tags, result, from, marks) && WithLrc(paths[i]) == WithLrc(paths[0])
    requires |marks| == |paths|
    requires Ends(before, after, if done then Commits(paths[i], tags, result, from, marks[i]) else Leaves(Broken))
    ensures Stores(before, after, WithLrc(paths[0]), since, result) && Backed(after, since, paths, tags, result, from, marks)
  {
    hide Vouched, Spares, Silent, Ends, Pauses, Unasked;
    if done {
      ActIsTame(before, after, Commits(paths[i], tags, result, from, marks[i]), WithLrc(paths[0]), false, since);
    } else {
      LookIsTame(before, after, Leaves(Broken), WithLrc(paths[0]), since);
    }
    BackedLasts(before, after, since, paths, tags, result, from, marks);
  }

  // ---------------------------------------------------------------------------
  // Sidecars that stand beside the audio
  // ---------------------------------------------------------------------------

  /** A sidecar appeared meanwhile: a single eligible one is its user's, anything else is left alone. */
  method IngestCollision(world: World, paths: seq<Path>, tags: TrackTags, candidates: set<Path>, ghost since: nat,
    ghost start: nat, ghost found: nat, ghost marks: seq<nat>)
    returns (r: Result<()>)
    requires world.Valid() && Group(world.directory, paths) && HoldsOnly(world.files, WithLrc(paths[0]), None)
    requires Verified(world.trace, start, paths, tags, marks) && since <= start
    requires FoundAfter(world.trace, found, WithLrc(paths[0]), candidates, marks)
    requires forall path :: path in candidates ==> IsSidecar(path) && WithLrc(path) == WithLrc(paths[0])
    modifies world`files, world`nextId, world`trace, world`snap, world`entries, world.db`tracks, world.db`sidecars
    ensures world.Valid() && Tamely(old(world.trace), world.trace, WithLrc(paths[0]), since)
    ensures if r.Ok? then Handled(world.trace, |old(world.trace)|, candidates, paths) else Stuck(old(world.trace), world.trace)
    ensures world.quiet ==> QuietCollision(world.answers, old(world.Now()), paths, tags, candidates, world.Now(), r)
  {
    hide Ready, Drift, FilesDrift, Looks, Ends, SameReaders, OtherReaders, SameLibrary, Holding, Evidence, Verified,
      Backed, FoundAfter, Unasked, Spares, Tamely, Silent, HoldsOnly, RowSays, TrackTags.Normalized, BlankText,
      Unknown, IsSidecar, SidecarsOf, StoredAll, Stores, Within, AllCommitted, ExcludedSince;
    TamelyStays(world.trace, WithLrc(paths[0]), since);
    if |candidates| != 1 {
      CountsOne(candidates);
      return Ok(());
    }
    var only :| only in candidates;
    OneCandidate(candidates, only);
    assert forall other :: candidates == {other} ==> other in candidates && other == only;
    ghost var asked := world.trace;
    var eligible := world.Allows(only);
    if !eligible {
      LookIsTame(asked, world.trace, Leaves(Excluded), WithLrc(paths[0]), since);
      ExcludedIsHandled(asked, world.trace, candidates, paths);
      return Ok(());
    }
    assert world.quiet ==> OneEligible(world.answers, candidates, only);
    KeyOf(world.directory, paths);
    BesideIsWithin(world.directory, paths, only);
    var lyrics;
    ghost var taken, mark;
    ghost var before, past := world.Now(), world.trace;
    lyrics, taken, mark := world.ReadLyrics(only);
    LooksToIsTame(past, world.trace, taken, WithLrc(paths[0]), since);
    if lyrics.Err? {
      LooksToStuck(past, world.trace, only);
      return Err;
    }
    DriftIsFiles(world.directory, before, world.Now());
    NothingHeld(before, world.Now(), WithLrc(paths[0]), lyrics.value);
    LoneBacks(world.directory, past, world.trace, since, start, paths, tags, found, candidates, only, lyrics.value, taken, marks);
    ghost var read := world.trace;
    r := StoreAll(world, paths, tags, Found(lyrics.value, Curated), |read| - 1, since, marks);
    StoresTamely(read, world.trace, WithLrc(paths[0]), since, Found(lyrics.value, Curated));
    TamelyOn(past, read, world.trace, WithLrc(paths[0]), since);
    if r.Err? {
      StuckOn(past, read, world.trace);
    } else {
      AllCommittedLasts(world.trace, world.trace, |read|, |past|, paths, true);
    }
  }

  lemma ExcludedIsHandled(before: seq<Moment>, after: seq<Moment>, candidates: set<Path>, paths: seq<Path>)
    requires Ends(before, after, Leaves(Excluded))
    ensures Handled(after, |before|, candidates, paths)
  {
    assert after[|after| - 1].actor == Leaves(Excluded);
  }

  lemma LooksToStuck(before: seq<Moment>, after: seq<Moment>, path: Path)
    requires LooksTo(before, after, Fails(path))
    ensures Stuck(before, after)
  {
  }

  lemma BesideIsWithin(directory: Directory, paths: seq<Path>, path: Path)
    requires Group(directory, paths) && WithLrc(path) == WithLrc(paths[0])
    ensures Within(path, directory)
  {
    assert Within(paths[0], directory);
  }

  lemma StoresTamely(before: seq<Moment>, after: seq<Moment>, key: Path, since: nat, result: CachedResult)
    requires Stores(before, after, key, since, result) && result.Found?
    ensures Tamely(before, after, key, since)
  {
    hide Spares, Silent;
  }

  lemma CountsOne(candidates: set<Path>)
    ensures (exists only :: candidates == {only}) ==> |candidates| == 1
  {
  }

  lemma OneCandidate(candidates: set<Path>, only: Path)
    requires |candidates| == 1 && only in candidates
    ensures candidates == {only}
  {
    assert |candidates - {only}| == 0;
  }

  lemma NothingHeld(s: State, t: State, key: Path, text: string)
    requires FilesDrift(s, t) && HoldsOnly(s.files, key, None) && key.Path?
    ensures HoldsOnly(t.files, key, None) && HoldsOnly(t.files, key, Some(text))
  {
  }

  lemma KeyOf(directory: Directory, paths: seq<Path>)
    requires Group(directory, paths)
    ensures var key := WithLrc(paths[0]);
      && key == WithLrc(key) && Within(key, directory) && IsSidecar(key) && Within(paths[0], directory) && key.Path?
      && (forall t, text :: RowSays(t, paths[0], text) <==> RowSays(t, key, text))
      && (forall files, path :: path in SidecarsOf(files, paths[0]) ==> IsSidecar(path) && WithLrc(path) == key)
  {
  }

  lemma SidecarsInclude(files: map<Path, Node>, audio: Path, directory: Directory)
    requires Within(audio, directory)
    ensures SidecarsOf(files, audio) == {} ==> WithLrc(audio) !in files
  {
    if WithLrc(audio) in files {
      assert WithLrc(audio) in SidecarsOf(files, audio);
    }
  }

  lemma NothingHeldOn(directory: Directory, s: State, t: State, key: Path)
    requires Drift(directory, s, t) && HoldsOnly(s.files, key, None) && key.Path?
    ensures HoldsOnly(t.files, key, None)
  {
  }

  lemma GoneIsUnheld(files: map<Path, Node>, key: Path)
    requires key !in files
    ensures HoldsOnly(files, key, None)
  {
  }

  lemma OnlyPublished(s: State, key: Path, lyrics: string, audio: Path)
    requires SidecarsOf(s.files, audio) == {}
    ensures SidecarsOf(Published(s, key, lyrics).files, audio) - {key} == {}
  {
    assert forall path :: path in SidecarsOf(Published(s, key, lyrics).files, audio) - {key} ==> path in SidecarsOf(s.files, audio);
  }

  lemma RetractionStands(s: State, key: Path, lyrics: string, made: nat, found: nat)
    requires RowSays(s.tables, key, lyrics) && key in s.files && s.files[key].content == Text(lyrics)
    ensures ReasonStands(s, key, Retracted(lyrics, s.nextId, made, found))
  {
  }

  // ---------------------------------------------------------------------------
  // Publishing
  // ---------------------------------------------------------------------------

  /** The file that is there was not the daemon's to write; if it is the only one, take it. */
  method TakeOthers(world: World, paths: seq<Path>, tags: TrackTags, ghost since: nat, ghost start: nat,
    ghost marks: seq<nat>)
    returns (r: Result<bool>)
    requires world.Valid() && Group(world.directory, paths) && HoldsOnly(world.files, WithLrc(paths[0]), None)
    requires Verified(world.trace, start, paths, tags, marks) && since <= start && since < |world.trace|
    requires world.trace[|world.trace| - 1].actor == Blocks(WithLrc(paths[0]))
    modifies world`files, world`nextId, world`trace, world`snap, world`entries, world.db`tracks, world.db`sidecars
    ensures world.Valid() && Tamely(old(world.trace), world.trace, WithLrc(paths[0]), since) && r != Ok(true)
    ensures if r.Ok? then Accounted(world.trace, since, paths) else Stuck(old(world.trace), world.trace)
  {
    hide Ready, Drift, Pauses, Looks, Ends, SameReaders, OtherReaders, SameLibrary, Holding, Evidence, Verified,
      FoundAfter, Unasked, Spares, Tamely, Silent, HoldsOnly, RowSays, TrackTags.Normalized, Unknown, IsSidecar,
      SidecarsOf, QuietCollision, Within;
    ghost var before, past := world.Now(), world.trace;
    var others := world.SidecarsFor(paths[0]);
    if others.Err? {
      LookIsTame(past, world.trace, Leaves(Broken), WithLrc(paths[0]), since);
      EndsStuck(past, world.trace, Leaves(Broken));
      return Err;
    }
    KeyOf(world.directory, paths);
    NothingHeldOn(world.directory, before, world.Now(), WithLrc(paths[0]));
    LookIsTame(past, world.trace, Finds(paths[0], others.value), WithLrc(paths[0]), since);
    FindingGoesOn(past, world.trace, start, paths, tags, marks, others.value, others.value);
    ghost var looked := world.trace;
    var collision := IngestCollision(world, paths, tags, others.value, since, start, |looked| - 1, marks);
    TamelyOn(past, looked, world.trace, WithLrc(paths[0]), since);
    if collision.Err? {
      StuckOn(past, looked, world.trace);
    } else {
      BlockedWas(past, looked, since, WithLrc(paths[0]));
      TamelyGrows(looked, world.trace, WithLrc(paths[0]), since);
      CollisionAccounts(looked, world.trace, since, |looked| - 1, others.value, paths);
    }
    return if collision.Ok? then Ok(false) else Err;
  }

  lemma BlockedWas(before: seq<Moment>, after: seq<Moment>, since: nat, key: Path)
    requires since < |before| && before[|before| - 1].actor == Blocks(key) && before < after
    ensures BlockedBefore(after, since, |after| - 1, key)
  {
    assert after[|before| - 1] == before[|before| - 1];
  }

  lemma FindingGoesOn(before: seq<Moment>, after: seq<Moment>, start: nat, paths: seq<Path>, tags: TrackTags,
    marks: seq<nat>, found: set<Path>, candidates: set<Path>)
    requires paths != [] && Verified(before, start, paths, tags, marks) && Ends(before, after, Finds(paths[0], found))
    requires candidates == found || candidates == found - {WithLrc(paths[0])}
    ensures before < after && Verified(after, start, paths, tags, marks)
    ensures FoundAfter(after, |after| - 1, WithLrc(paths[0]), candidates, marks)
    ensures after[|after| - 1].actor == Finds(paths[0], found)
  {
    EndsUnasked(before, after, Finds(paths[0], found));
    VerifiedLasts(before, after, start, paths, tags, marks);
    FindingIsAfter(before, after, start, paths, tags, marks, paths[0], found, WithLrc(paths[0]), candidates);
    hide Evidence, FoundAfter, Unasked;
  }

  /** If another sidecar stands beside the published one, retract that for it; or else check the audio again. */
  method CheckAlone(world: World, paths: seq<Path>, tags: TrackTags, lyrics: string, ghost prior: seq<Moment>,
    ghost since: nat, ghost start: nat, ghost marks: seq<nat>)
    returns (r: Result<bool>)
    requires world.Valid() && Group(world.directory, paths) && RowSays(world.Now().tables, WithLrc(paths[0]), lyrics)
    requires WithLrc(paths[0]) in world.files && world.files[WithLrc(paths[0])].content == Text(lyrics)
    requires Verified(world.trace, start, paths, tags, marks) && since <= start
    requires Holding(world.quiet, world.snap, paths, tags) && (world.quiet ==> AllEligible(world.answers, paths))
    requires Spares(prior, world.trace, WithLrc(paths[0]), true, since, false)
    requires since < |world.trace| && LastCreates(world.trace, WithLrc(paths[0]))
    modifies world`files, world`nextId, world`trace, world`snap, world`entries, world.db`tracks, world.db`sidecars
    ensures world.Valid() && Concluded(prior, world.trace, WithLrc(paths[0]), since, paths, r)
    ensures r == Ok(false) ==> Accounted(world.trace, since, paths)
    ensures world.quiet && SidecarsOf(old(world.files), paths[0]) - {WithLrc(paths[0])} == {} ==>
      world.Now() == old(world.Now()) && r == Ok(false)
  {
    hide Ready, Drift, Pauses, Looks, Glances, Ends, SameReaders, OtherReaders, SameLibrary, Holding, HoldsLike,
      AllWithin, Evidence, Verified, FoundAfter, Unasked, Spares, Tamely, Concluded, Final, Silent, Vouched,
      ReasonStands, RowSays, TrackTags.Normalized, BlankText, Unknown, IsSidecar, SidecarsOf, Within, AllEligible,
      LastCreates, WithLrc;
    KeyOf(world.directory, paths);
    ghost var made, past, written := |world.trace| - 1, world.trace, world.Now();
    var key := WithLrc(paths[0]);
    ghost var library := world.snap;
    var others := world.SidecarsFor(paths[0]);
    if others.Err? {
      LookIsTame(past, world.trace, Leaves(Broken), key, since);
      EndsStuck(past, world.trace, Leaves(Broken));
      TamelySpares(past, world.trace, key, true, since);
      FailureConcludes(prior, past, world.trace, key, since, paths);
      return Err;
    }
    LookIsTame(past, world.trace, Finds(paths[0], others.value), key, since);
    TamelySpares(past, world.trace, key, true, since);
    SparesOn(prior, past, world.trace, key, true, true, true, since, false);
    var rest := others.value - {key};
    FindingGoesOn(past, world.trace, start, paths, tags, marks, others.value, rest);
    if rest != {} {
      RetractionStands(written, key, lyrics, made, |world.trace| - 1);
      ReasonDrifts(world.directory, written, world.Now(), key, Retracted(lyrics, written.nextId, made, |world.trace| - 1));
      PublishedLast(past, key);
      RetractionIsVouched(past, world.trace, made, key, paths[0], others.value, lyrics, written.nextId);
      r := Retract(world, paths, tags, rest, Retracted(lyrics, written.nextId, made, |world.trace| - 1), prior, since, start, marks);
      return;
    }
    GroupIsWithin(world.directory, paths);
    LibraryStays(world.directory, world.quiet, world.answers, world.trace, world.Now(), world.Here());
    HoldingLasts(world.directory, world.quiet, library, world.snap, paths, tags);
    EligibleMeans(world.quiet, world.answers, paths);
    ghost var looked := world.trace;
    var current;
    ghost var seen;
    current, seen := world.StillCurrent(paths, tags);
    CheckConcludes(prior, looked, world.trace, key, since, paths, tags, current, seen);
    GlancesGrow(looked, world.trace, !current);
    CreationAccounts(past, world.trace, since, paths);
    return Ok(!current);
  }

  /** Archive the published file again, and take the other one. */
  method Retract(world: World, paths: seq<Path>, tags: TrackTags, rest: set<Path>, ghost reason: Reason,
    ghost prior: seq<Moment>, ghost since: nat, ghost start: nat, ghost marks: seq<nat>)
    returns (r: Result<bool>)
    requires world.Valid() && Group(world.directory, paths) && reason.Retracted? && since <= reason.made && since <= reason.found
    requires ReasonStands(world.Now(), WithLrc(paths[0]), reason)
    requires world.trace != [] && Vouched(world.trace, Archives(WithLrc(paths[0]), 0, reason))
    requires Verified(world.trace, start, paths, tags, marks) && since <= start
    requires FoundAfter(world.trace, |world.trace| - 1, WithLrc(paths[0]), rest, marks)
    requires rest != {} && since <= |world.trace| - 1
    requires forall path :: path in rest ==> IsSidecar(path) && WithLrc(path) == WithLrc(paths[0])
    requires Spares(prior, world.trace, WithLrc(paths[0]), true, since, false)
    modifies world`files, world`nextId, world`trace, world`snap, world`entries, world.db`tracks, world.db`sidecars
    ensures world.Valid() && Concluded(prior, world.trace, WithLrc(paths[0]), since, paths, r)
    ensures r == Ok(false) ==> Accounted(world.trace, since, paths)
  {
    hide Ready, Drift, FilesDrift, Pauses, Looks, Ends, SameReaders, OtherReaders, SameLibrary, Holding, Evidence,
      Verified, FoundAfter, Unasked, Spares, Tamely, Concluded, Final, Silent, Vouched, HoldsOnly, ReasonStands,
      RowSays, TrackTags.Normalized, BlankText, Unknown, IsSidecar, SidecarsOf, QuietCollision, Within;
    KeyOf(world.directory, paths);
    ghost var key, past := WithLrc(paths[0]), world.trace;
    var archived;
    ghost var moved, slot;
    archived, moved, slot := world.Quarantine(WithLrc(paths[0]), reason);
    ghost var actor, gone := Archives(key, slot, reason), world.trace;
    if moved {
      ActIsTame(past, world.trace, actor, key, true, since);
    } else {
      LookIsTame(past, world.trace, Leaves(Broken), key, since);
      TamelySpares(past, world.trace, key, true, since);
    }
    if archived.Err? {
      EndsStuck(past, world.trace, if moved then actor else Leaves(Broken));
      FailureConcludes(prior, past, world.trace, key, since, paths);
      return Err;
    }
    GoneIsUnheld(world.files, key);
    VerifiedLasts(past, world.trace, start, paths, tags, marks);
    UnaskedGrows(past, world.trace);
    FoundStays(past, world.trace, |past| - 1, key, rest, marks);
    var collision := IngestCollision(world, paths, tags, rest, since, start, |past| - 1, marks);
    r := if collision.Ok? then Ok(false) else Err;
    if collision.Ok? {
      TamelyGrows(gone, world.trace, key, since);
      RetractionAccounts(past, gone, world.trace, since, rest, marks, paths);
    }
    RetractionConcludes(prior, past, gone, world.trace, key, since, slot, reason, paths, r);
  }

  lemma RetractionAccounts(past: seq<Moment>, gone: seq<Moment>, trace: seq<Moment>, since: nat, rest: set<Path>,
    marks: seq<nat>, paths: seq<Path>)
    requires paths != [] && past != [] && since <= |past| - 1 && past <= gone <= trace && rest != {}
    requires FoundAfter(past, |past| - 1, WithLrc(paths[0]), rest, marks) && Handled(trace, |gone|, rest, paths)
    ensures Accounted(trace, since, paths)
  {
    hide WithLrc, Handled;
    assert gone[|past| - 1] == past[|past| - 1];
    CollisionAccounts(gone, trace, since, |past| - 1, rest, paths);
  }

  lemma UnaskedGrows(before: seq<Moment>, after: seq<Moment>)
    requires Unasked(before, after)
    ensures before <= after
  {
  }

  ghost predicate LastCreates(trace: seq<Moment>, key: Path) {
    trace != [] && trace[|trace| - 1].actor.Creates? && trace[|trace| - 1].actor.path == key
  }

  lemma CreationAccounts(before: seq<Moment>, after: seq<Moment>, since: nat, paths: seq<Path>)
    requires paths != [] && LastCreates(before, WithLrc(paths[0])) && before <= after && since < |before|
    ensures Accounted(after, since, paths)
  {
    assert after[|before| - 1] == before[|before| - 1];
    SettlingAccounts(after, since, paths, |before| - 1);
  }

  lemma GlancesGrow(before: seq<Moment>, after: seq<Moment>, doubt: bool)
    requires Glances(before, after, doubt)
    ensures before <= after
  {
  }

  lemma PublishedLast(trace: seq<Moment>, key: Path)
    requires LastCreates(trace, key)
    ensures trace != [] && trace[|trace| - 1].actor.Creates? && trace[|trace| - 1].actor.path == key
  {
  }

  ghost predicate AllEligible(a: Answers, paths: seq<Path>) { forall k :: 0 <= k < |paths| ==> a.eligible(paths[k]) }

  lemma EligibleMeans(quiet: bool, a: Answers, paths: seq<Path>)
    requires quiet ==> AllEligible(a, paths)
    ensures quiet ==> forall k :: 0 <= k < |paths| ==> a.eligible(paths[k])
  {
  }

  /** Publish the committed lyrics; if a sidecar is there, take it instead. */
  method WriteAndCheck(world: World, paths: seq<Path>, tags: TrackTags, lyrics: string, ghost prior: seq<Moment>,
    ghost found: nat, ghost since: nat, ghost start: nat, ghost marks: seq<nat>)
    returns (r: Result<bool>)
    requires world.Valid() && Group(world.directory, paths)
    requires HoldsOnly(world.files, WithLrc(paths[0]), None) && RowSays(world.Now().tables, WithLrc(paths[0]), lyrics)
    requires Verified(world.trace, start, paths, tags, marks) && since <= start
    requires Holding(world.quiet, world.snap, paths, tags) && (world.quiet ==> AllEligible(world.answers, paths))
    requires world.trace != [] && marks != [] && start <= marks[0] && since <= found
    requires Vouched(world.trace, Creates(WithLrc(paths[0]), marks[0], found))
    requires Tamely(prior, world.trace, WithLrc(paths[0]), since) && since < |world.trace|
    modifies world`files, world`nextId, world`trace, world`snap, world`entries, world.db`tracks, world.db`sidecars
    ensures world.Valid() && Concluded(prior, world.trace, WithLrc(paths[0]), since, paths, r)
    ensures r == Ok(false) ==> Accounted(world.trace, since, paths)
    ensures world.quiet && SidecarsOf(old(world.files), paths[0]) == {} && !BlankText(lyrics) ==>
      world.Now() == Published(old(world.Now()), WithLrc(paths[0]), lyrics) && r == Ok(false)
  {
    hide Ready, Drift, Pauses, Looks, Ends, SameReaders, OtherReaders, SameLibrary, Holding, HoldsLike, AllWithin,
      Evidence, Verified, Unasked, Spares, Tamely, Concluded, Final, Silent, Vouched, HoldsOnly, RowSays,
      TrackTags.Normalized, BlankText, Unknown, IsSidecar, SidecarsOf, Within, AllEligible, LastCreates, WithLrc;
    KeyOf(world.directory, paths);
    var key := WithLrc(paths[0]);
    ghost var before, past, library := world.Now(), world.trace, world.snap;
    SidecarsInclude(before.files, paths[0], world.directory);
    var created;
    ghost var made;
    created, made := world.WriteNew(key, lyrics, marks[0], found);
    if made {
      Creation(prior, past, world.trace, key, marks[0], found, since);
    } else {
      LookIsTame(past, world.trace, if created.Err? then Leaves(Broken) else Blocks(key), key, since);
      TamelyOn(prior, past, world.trace, key, since);
      TamelySpares(prior, world.trace, key, true, since);
    }
    if created.Err? {
      EndsStuck(past, world.trace, if made then Creates(key, marks[0], found) else Leaves(Broken));
      TamelyGrows(prior, past, key, since);
      StuckOn(prior, past, world.trace);
      SparesConclude(prior, world.trace, key, since, paths);
      return Err;
    }
    VerifiedLasts(past, world.trace, start, paths, tags, marks);
    if created.value {
      if world.quiet && SidecarsOf(before.files, paths[0]) == {} {
        OnlyPublished(before, key, lyrics, paths[0]);
      }
      GroupIsWithin(world.directory, paths);
      HoldingLasts(world.directory, world.quiet, library, world.snap, paths, tags);
      r := CheckAlone(world, paths, tags, lyrics, prior, since, start, marks);
    } else {
      NothingHeldOn(world.directory, before, world.Now(), key);
      ghost var failed := world.trace;
      r := TakeOthers(world, paths, tags, since, start, marks);
      TamelyOn(prior, failed, world.trace, key, since);
      if r.Err? { StuckOn(prior, failed, world.trace); }
      TamelyDone(prior, world.trace, key, since, paths, r);
    }
  }

  lemma Creation(prior: seq<Moment>, past: seq<Moment>, trace: seq<Moment>, key: Path, checked: nat, found: nat, since: nat)
    requires Tamely(prior, past, key, since) && Ends(past, trace, Creates(key, checked, found))
    requires since <= checked && since <= found && since < |past|
    ensures Spares(prior, trace, key, true, since, false) && Unasked(past, trace)
    ensures since < |trace| && LastCreates(trace, key)
  {
    TamelySpares(prior, past, key, true, since);
    ActIsTame(past, trace, Creates(key, checked, found), key, true, since);
    SparesOn(prior, past, trace, key, true, true, true, since, false);
    hide Spares, Ends, Unasked;
  }

  lemma TamelyGrows(before: seq<Moment>, after: seq<Moment>, key: Path, since: nat)
    requires Tamely(before, after, key, since)
    ensures before <= after
  {
  }

  lemma SparesConclude(before: seq<Moment>, after: seq<Moment>, key: Path, since: nat, paths: seq<Path>)
    requires Spares(before, after, key, true, since, false) && Stuck(before, after)
    ensures Concluded(before, after, key, since, paths, Err)
  {
    hide Spares;
  }

  /** Commit first, then publish; whatever appears beside the file wins. */
  method Publish(world: World, paths: seq<Path>, tags: TrackTags, result: CachedResult, ghost from: nat, ghost since: nat,
    ghost start: nat, ghost marks: seq<nat>)
    returns (r: Result<bool>)
    requires world.Valid() && Group(world.directory, paths) && result.Found? && HoldsOnly(world.files, WithLrc(paths[0]), None)
    requires Verified(world.trace, start, paths, tags, marks) && since <= start <= |world.trace|
    requires Supply(world.trace, since, from, tags, result) && from < start
    requires Holding(world.quiet, world.snap, paths, tags) && (world.quiet ==> AllEligible(world.answers, paths))
    modifies world`files, world`nextId, world`trace, world`snap, world`entries, world.db`tracks, world.db`sidecars
    ensures world.Valid() && Concluded(old(world.trace), world.trace, WithLrc(paths[0]), since, paths, r)
    ensures r == Ok(false) ==> Accounted(world.trace, since, paths)
    ensures world.quiet ==> QuietPublish(world.answers, old(world.Now()), paths, tags, result, world.Now(), r)
  {
    hide Ready, Drift, FilesDrift, Pauses, Looks, Ends, SameReaders, OtherReaders, SameLibrary, Holding, HoldsLike,
      AllWithin, Evidence, Verified, Backed, FoundAfter, Supply, Unasked, Spares, Tamely, Concluded, Final, Vouched,
      HoldsOnly, RowSays, TrackTags.Normalized, Unknown, Gives, IsSidecar, SidecarsOf, QuietCollision, Within,
      AllEligible, StoredAll, Published, Stores, WithLrc;
    KeyOf(world.directory, paths);
    var key := WithLrc(paths[0]);
    ghost var before, past, library := world.Now(), world.trace, world.snap;
    var candidates := world.SidecarsFor(paths[0]);
    if candidates.Err? {
      LookIsTame(past, world.trace, Leaves(Broken), key, since);
      EndsStuck(past, world.trace, Leaves(Broken));
      TamelyDone(past, world.trace, key, since, paths, Err);
      return Err;
    }
    LookIsTame(past, world.trace, Finds(paths[0], candidates.value), key, since);
    FindingGoesOn(past, world.trace, start, paths, tags, marks, candidates.value, candidates.value);
    NothingHeldOn(world.directory, before, world.Now(), key);
    ghost var looked, between := world.trace, world.snap;
    if candidates.value != {} {
      var collision := IngestCollision(world, paths, tags, candidates.value, since, start, |looked| - 1, marks);
      TamelyOn(past, looked, world.trace, key, since);
      r := if collision.Ok? then Ok(false) else Err;
      if r.Err? {
        StuckOn(past, looked, world.trace);
      } else {
        TamelyGrows(looked, world.trace, key, since);
        CollisionAccounts(looked, world.trace, since, |looked| - 1, candidates.value, paths);
      }
      TamelyDone(past, world.trace, key, since, paths, r);
      return;
    }
    ghost var seen := world.Now();
    DriftStays(world.directory, seen);
    DriftIsFiles(world.directory, seen, seen);
    NothingHeld(seen, seen, key, result.lyrics);
    SupplyStays(past, looked, since, from, tags, result);
    SupplyBacks(looked, since, start, paths, tags, result, from, marks);
    var stored := StoreAll(world, paths, tags, result, from, since, marks);
    StoresTamely(looked, world.trace, key, since, result);
    TamelyOn(past, looked, world.trace, key, since);
    if stored.Err? {
      StuckOn(past, looked, world.trace);
      TamelyDone(past, world.trace, key, since, paths, Err);
      return Err;
    }
    NothingHeld(seen, world.Now(), key, result.lyrics);
    StoresUnasked(looked, world.trace, key, since, result);
    VerifiedLasts(looked, world.trace, start, paths, tags, marks);
    FoundStays(looked, world.trace, |looked| - 1, key, {}, marks);
    CreationReady(world.directory, world.quiet, world.answers, world.trace, world.Now(), world.Here(), start, paths, tags,
      result.lyrics, |looked| - 1, marks);
    GroupIsWithin(world.directory, paths);
    SameReadersOn(world.directory, library, between, world.snap);
    LibraryStays(world.directory, world.quiet, world.answers, world.trace, world.Now(), world.Here());
    HoldingLasts(world.directory, world.quiet, library, world.snap, paths, tags);
    r := WriteAndCheck(world, paths, tags, result.lyrics, past, |looked| - 1, since, start, marks);
  }

  lemma StoresUnasked(before: seq<Moment>, after: seq<Moment>, key: Path, since: nat, result: CachedResult)
    requires Stores(before, after, key, since, result)
    ensures Unasked(before, after) && before <= after && Spares(before, after, key, false, since, false)
  {
    hide Spares, Silent;
  }

  lemma CreationReady(directory: Directory, quiet: bool, a: Answers, trace: seq<Moment>, s: State, c: Scene, start: nat,
    paths: seq<Path>, tags: TrackTags, lyrics: string, found: nat, marks: seq<nat>)
    requires Ready(directory, quiet, a, trace, s, c) && Group(directory, paths) && RowIs(s.tables, paths[0], tags, lyrics)
    requires Verified(trace, start, paths, tags, marks) && FoundAfter(trace, found, WithLrc(paths[0]), {}, marks)
    requires found < |trace| && trace[found].actor == Finds(paths[0], {})
    ensures trace != [] && marks != [] && start <= marks[0] < found && RowSays(s.tables, WithLrc(paths[0]), lyrics)
    ensures Vouched(trace, Creates(WithLrc(paths[0]), marks[0], found))
  {
    LastIs(directory, quiet, a, trace, s, c);
    KeyOf(directory, paths);
    assert RowSays(s.tables, paths[0], lyrics);
    CreationIsVouched(directory, trace, start, paths, tags, found, marks);
    hide Ready, Vouched, Verified, FoundAfter, TrackTags.Normalized;
  }

  // ---------------------------------------------------------------------------
  // From the cache or LRCLib
  // ---------------------------------------------------------------------------

  /** From the cache or a lookup to the commit; a miss is committed only if it was looked up. */
  method Resolve(world: World, paths: seq<Path>, tags: TrackTags, ghost since: nat) returns (r: Result<bool>)
    requires world.Valid() && Group(world.directory, paths) && HoldsOnly(world.files, WithLrc(paths[0]), None)
    requires since <= |world.trace|
    requires Holding(world.quiet, world.snap, paths, tags) && (world.quiet ==> AllEligible(world.answers, paths))
    modifies world`files, world`nextId, world`trace, world`snap, world`entries, world`lookups,
      world.db`tracks, world.db`sidecars
    ensures world.Valid() && Concluded(old(world.trace), world.trace, WithLrc(paths[0]), since, paths, r)
    ensures r == Ok(false) ==> Accounted(world.trace, since, paths)
    ensures world.lookups <= old(world.lookups) + 1
    ensures world.quiet ==> QuietResolve(world.answers, world.db.retry, old(world.Now()), paths, tags, world.Now(), r,
      world.lookups > old(world.lookups))
  {
    hide Ready, Drift, Looks, Peeks, Ends, SameReaders, OtherReaders, SameLibrary, Holding, HoldsLike, AllWithin,
      Supply, Unasked, Spares, Tamely, Concluded, Final, Silent, Vouched, HoldsOnly, RowSays, TrackTags.Normalized,
      BlankText, Unknown, Gives, IsSidecar, SidecarsOf, QuietPublish, WithoutLookup, Within, AllEligible, StoredAll;
    KeyOf(world.directory, paths);
    GroupIsWithin(world.directory, paths);
    ghost var key, start, past, library := WithLrc(paths[0]), world.Now(), world.trace, world.snap;
    var known;
    ghost var from, recalled, reused;
    known, from, recalled, reused := world.KnownResult(paths[0], tags);
    PeeksAreTame(past, world.trace, key, since);
    if known.Err? {
      TamelyDone(past, world.trace, key, since, paths, Err);
      return Err;
    }
    NothingHeldOn(world.directory, start, world.Now(), key);
    LibraryStays(world.directory, world.quiet, world.answers, world.trace, world.Now(), world.Here());
    HoldingLasts(world.directory, world.quiet, library, world.snap, paths, tags);
    var result, looked := known.value, false;
    if result.None? {
      ghost var before, asked, between := world.Now(), world.trace, world.snap;
      var answer := world.Fetch(tags, recalled, reused);
      from := |world.trace| - 1;
      NothingHeldOn(world.directory, before, world.Now(), key);
      LibraryStays(world.directory, world.quiet, world.answers, world.trace, world.Now(), world.Here());
      HoldingLasts(world.directory, world.quiet, between, world.snap, paths, tags);
      AskingIsTame(asked, world.trace, Asks(tags, answer, recalled, reused), key, since);
      TamelyOn(past, asked, world.trace, key, since);
      looked := true;
      match answer {
        case Found(lyrics) => result := Some(CachedResult.Found(lyrics, Generated));
        case NotFound => result := Some(CachedResult.NotFound);
        case Instrumental => result := Some(CachedResult.Instrumental);
        case _ =>
          EndsAccounts(asked, world.trace, Asks(tags, answer, recalled, reused), since, paths);
          TamelyDone(past, world.trace, key, since, paths, Ok(false));
          return Ok(false);
      }
      AskingSupplies(asked, world.trace, since, tags, answer, recalled, reused, result.value);
    } else if result.value.Found? {
      GivingSupplies(world.trace, since, from, tags, result.value);
    } else {
      RecalledMiss(world.trace, since, from, tags, result.value, paths);
    }
    ghost var middle := world.trace;
    r := Conclude(world, paths, tags, result.value, looked, from, since);
    TamelyConcludes(past, middle, world.trace, key, since, paths, r);
  }

  lemma RecalledMiss(trace: seq<Moment>, since: nat, from: nat, tags: TrackTags, result: CachedResult, paths: seq<Path>)
    requires paths != [] && since <= from < |trace| && Gives(trace[from].actor, tags, result) && !result.Found?
    ensures Settling(trace[from].actor, WithLrc(paths[0]))
  {
  }

  /** The last checks before anything is committed. */
  method Conclude(world: World, paths: seq<Path>, tags: TrackTags, result: CachedResult, looked: bool, ghost from: nat,
    ghost since: nat)
    returns (r: Result<bool>)
    requires world.Valid() && Group(world.directory, paths) && HoldsOnly(world.files, WithLrc(paths[0]), None)
    requires since <= |world.trace| && (looked || result.Found? ==> Supply(world.trace, since, from, tags, result))
    requires !looked && !result.Found? ==> since <= from < |world.trace| && Settling(world.trace[from].actor, WithLrc(paths[0]))
    requires Holding(world.quiet, world.snap, paths, tags) && (world.quiet ==> AllEligible(world.answers, paths))
    modifies world`files, world`nextId, world`trace, world`snap, world`entries, world.db`tracks, world.db`sidecars
    ensures world.Valid() && Concluded(old(world.trace), world.trace, WithLrc(paths[0]), since, paths, r)
    ensures r == Ok(false) ==> Accounted(world.trace, since, paths)
    ensures world.quiet && result.Found? ==>
      QuietPublish(world.answers, old(world.Now()), paths, tags, result, world.Now(), r)
    ensures world.quiet && !result.Found? ==> r == Ok(false)
    ensures world.quiet && !result.Found? ==> world.Now() == if looked
      then old(world.Now()).(tables := StoredAll(old(world.Now()).tables, paths, tags, result, world.answers.now))
      else old(world.Now())
  {
    hide Ready, Drift, FilesDrift, Looks, Glances, SameReaders, OtherReaders, SameLibrary, Holding, HoldsLike,
      AllWithin, Evidence, Verified, Backed, Supply, Unasked, Spares, Tamely, Concluded, Final, Vouched, HoldsOnly,
      RowSays, TrackTags.Normalized, BlankText, Unknown, Gives, IsSidecar, SidecarsOf, QuietPublish, Within,
      AllEligible, StoredAll, Stores, WithLrc;
    KeyOf(world.directory, paths);
    GroupIsWithin(world.directory, paths);
    EligibleMeans(world.quiet, world.answers, paths);
    ghost var key, start, past := WithLrc(paths[0]), world.Now(), world.trace;
    var cancelled := world.Cancelled();
    if cancelled {
      LookIsTame(past, world.trace, Leaves(Stopping), key, since);
      EndsAccounts(past, world.trace, Leaves(Stopping), since, paths);
      TamelyDone(past, world.trace, key, since, paths, Ok(false));
      return Ok(false);
    }
    var current;
    ghost var marks;
    current, marks := world.StillCurrent(paths, tags);
    if !current {
      DoubtConcludes(past, world.trace, key, since, paths);
      return Ok(true);
    }
    NothingHeldOn(world.directory, start, world.Now(), key);
    CheckVerifies(past, world.trace, paths, tags, marks);
    LooksAreTame(past, world.trace, key, since);
    ghost var middle := world.trace;
    if result.Found? {
      SupplyStays(past, middle, since, from, tags, result);
      SupplyBefore(past, since, from, tags, result);
      r := Publish(world, paths, tags, result, from, since, |past|, marks);
      TamelyConcludes(past, middle, world.trace, key, since, paths, r);
      return;
    }
    TamelySpares(past, middle, key, true, since);
    if looked {
      ghost var library := world.snap;
      SupplyStays(past, middle, since, from, tags, result);
      SupplyBefore(past, since, from, tags, result);
      SupplyBacks(middle, since, |past|, paths, tags, result, from, marks);
      var stored := StoreAll(world, paths, tags, result, from, since, marks);
      StoresUnasked(middle, world.trace, key, since, result);
      SparesOn(past, middle, world.trace, key, true, true, false, since, false);
      if stored.Err? {
        StuckOn(past, middle, world.trace);
        SparesConclude(past, world.trace, key, since, paths);
        return Err;
      }
      LibraryStays(world.directory, world.quiet, world.answers, world.trace, world.Now(), world.Here());
      HoldingLasts(world.directory, world.quiet, library, world.snap, paths, tags);
    }
    ghost var committed := world.trace;
    current, marks := world.StillCurrent(paths, tags);
    CheckConcludes(past, committed, world.trace, key, since, paths, tags, current, marks);
    if looked {
      MissAccounts(committed, world.trace, |middle|, since, paths);
    } else {
      SettlingAccounts(world.trace, since, paths, from);
    }
    return Ok(!current);
  }

  lemma SupplyBefore(trace: seq<Moment>, since: nat, from: nat, tags: TrackTags, result: CachedResult)
    requires Supply(trace, since, from, tags, result)
    ensures from < |trace|
  {
  }

  // ---------------------------------------------------------------------------
  // The sidecar that the listing found
  // ---------------------------------------------------------------------------

  /** Go on with the pass, or end it, with a rerun exactly if its last moment is a doubt. */
  ghost predicate GoesOn(before: seq<Moment>, after: seq<Moment>, key: Path, since: nat, r: Result<Option<bool>>) {
    && Spares(before, after, key, false, since, r == Ok(Some(true))) && Silent(before, after)
    && (r.Err? ==> Stuck(before, after))
  }

  lemma TamelyGoesOn(a: seq<Moment>, b: seq<Moment>, key: Path, since: nat, r: Result<Option<bool>>)
    requires Tamely(a, b, key, since) && r != Ok(Some(true)) && (r.Err? ==> Stuck(a, b))
    ensures GoesOn(a, b, key, since, r) && a <= b
  {
  }

  lemma TamelyThenGoesOn(a: seq<Moment>, b: seq<Moment>, c: seq<Moment>, key: Path, since: nat, r: Result<Option<bool>>)
    requires Tamely(a, b, key, since) && GoesOn(b, c, key, since, r)
    ensures GoesOn(a, c, key, since, r) && a <= b <= c
  {
    SparesOn(a, b, c, key, false, false, false, since, r == Ok(Some(true)));
    SilentOn(a, b, c);
    hide Spares;
  }

  lemma DoubtGoesOn(a: seq<Moment>, b: seq<Moment>, key: Path, since: nat)
    requires Glances(a, b, true)
    ensures GoesOn(a, b, key, since, Ok(Some(true))) && a <= b
  {
    GlancesSpare(a, b, key, false, since, true);
    LooksAreSilent(a, b);
    hide Spares, Glances;
  }

  lemma GoneOn(a: seq<Moment>, b: seq<Moment>, key: Path, since: nat, paths: seq<Path>, r: Result<Option<bool>>)
    requires GoesOn(a, b, key, since, r)
    ensures r == Ok(None) ==> Tamely(a, b, key, since)
    ensures r.Err? ==> Concluded(a, b, key, since, paths, Err)
    ensures r.Ok? && r.value.Some? ==> Concluded(a, b, key, since, paths, Ok(r.value.value))
    ensures a <= b
  {
    SparesOn(a, a, b, key, true, false, false, since, r == Ok(Some(true))) by { NothingSpares(a, key, since); }
    SilentIsFinal(a, b, paths);
    hide Final;
  }

  lemma NothingSpares(trace: seq<Moment>, key: Path, since: nat)
    ensures Spares(trace, trace, key, false, since, false)
  {
  }

  /** The sidecar that a pass listed: ingest it, or archive it when it is generated for another recording. */
  method UseExisting(world: World, paths: seq<Path>, tags: TrackTags, existing: Path, ghost since: nat,
    ghost marks: seq<nat>)
    returns (r: Result<Option<bool>>)
    requires world.Valid() && Group(world.directory, paths) && since <= |world.trace|
    requires IsSidecar(existing) && Within(existing, world.directory) && WithLrc(existing) == WithLrc(paths[0])
    requires existing != WithLrc(paths[0]) ==> HoldsOnly(world.files, WithLrc(paths[0]), None)
    requires Readings(world.trace, since, paths, tags, marks)
    requires Holding(world.quiet, world.snap, paths, tags) && (world.quiet ==> AllEligible(world.answers, paths))
    modifies world`files, world`nextId, world`trace, world`snap, world`entries, world.db`tracks, world.db`sidecars
    ensures world.Valid() && GoesOn(old(world.trace), world.trace, WithLrc(paths[0]), since, r)
    ensures r == Ok(None) ==>
      HoldsOnly(world.files, WithLrc(paths[0]), None) && Holding(world.quiet, world.snap, paths, tags)
    ensures r == Ok(Some(false)) ==> Accounted(world.trace, since, paths)
    ensures world.quiet ==> QuietExisting(world.answers, old(world.Now()), paths, tags, existing, world.Now(), r)
  {
    hide Ready, Drift, Looks, Ends, SameReaders, OtherReaders, SameLibrary, Holding, HoldsLike, AllWithin, Readings,
      Sourced, Unasked, Spares, Tamely, Silent, HoldsOnly, RowSays, TrackTags.Normalized, BlankText, Unknown,
      IsSidecar, SidecarsOf, Within, AllEligible, IngestedAll, GoesOn, ArchivedAs, WithLrc;
    KeyOf(world.directory, paths);
    GroupIsWithin(world.directory, paths);
    ghost var key, start, past, library := WithLrc(paths[0]), world.Now(), world.trace, world.snap;
    var lyrics;
    ghost var taken, mark;
    lyrics, taken, mark := world.ReadLyrics(existing);
    LooksToIsTame(past, world.trace, taken, key, since);
    if lyrics.Err? {
      LooksToStuck(past, world.trace, existing);
      TamelyGoesOn(past, world.trace, key, since, Err);
      return Err;
    }
    ReadingHolds(world.directory, start, world.Now(), key, existing, lyrics.value);
    TakingSources(world.directory, past, world.trace, since, paths, tags, existing, lyrics.value, taken, marks);
    HoldingLasts(world.directory, world.quiet, library, world.snap, paths, tags);
    ghost var read := world.trace;
    r := JudgeExisting(world, paths, tags, existing, lyrics.value, taken.exact, mark, start, since, marks);
    TamelyThenGoesOn(past, read, world.trace, key, since, r);
  }

  method JudgeExisting(
    world: World, paths: seq<Path>, tags: TrackTags, existing: Path, lyrics: string, ghost exact: bool, ghost mark: nat,
    ghost start: State, ghost since: nat, ghost marks: seq<nat>)
    returns (r: Result<Option<bool>>)
    requires world.Valid() && Group(world.directory, paths) && !BlankText(lyrics)
    requires IsSidecar(existing) && Within(existing, world.directory) && WithLrc(existing) == WithLrc(paths[0])
    requires StandsAs(world.Now(), existing, lyrics, mark, exact)
    requires world.quiet ==> existing in world.files && world.files[existing].content == Text(lyrics)
    requires HoldsOnly(world.files, WithLrc(paths[0]), Some(lyrics)) && Drift(world.directory, start, world.Now())
    requires existing != WithLrc(paths[0]) ==> HoldsOnly(start.files, WithLrc(paths[0]), None)
    requires world.trace != [] && ReadAt(world.trace, |world.trace| - 1, existing, lyrics, mark, exact)
    requires Sourced(world.trace, since, paths, tags, lyrics, |world.trace| - 1, marks) && since < |world.trace|
    requires Holding(world.quiet, world.snap, paths, tags) && (world.quiet ==> AllEligible(world.answers, paths))
    modifies world`files, world`nextId, world`trace, world`snap, world`entries, world.db`tracks, world.db`sidecars
    ensures world.Valid() && GoesOn(old(world.trace), world.trace, WithLrc(paths[0]), since, r)
    ensures r == Ok(None) ==>
      HoldsOnly(world.files, WithLrc(paths[0]), None) && Holding(world.quiet, world.snap, paths, tags)
    ensures r == Ok(Some(false)) ==> Accounted(world.trace, since, paths)
    ensures world.quiet ==>
      if !StaleGenerated(old(world.Now()).tables, WithLrc(paths[0]), tags, lyrics) then
        world.Now() == old(world.Now()).(tables := IngestedAll(old(world.Now()).tables, paths, tags, lyrics, world.answers.now))
        && r == Ok(Some(false))
      else ArchivedAs(old(world.Now()), world.Now(), existing) && r == Ok(None)
  {
    hide Ready, Drift, FilesDrift, Pauses, Looks, SameReaders, OtherReaders, SameLibrary, Holding, HoldsLike,
      AllWithin, Sourced, Unasked, Spares, Tamely, Silent, Vouched, HoldsOnly, ReasonStands, RowSays,
      TrackTags.Normalized, BlankText, Unknown, IsSidecar, SidecarsOf, AllEligible, IngestedAll, GoesOn, ArchivedAs,
      WithLrc;
    KeyOf(world.directory, paths);
    GroupIsWithin(world.directory, paths);
    var key := WithLrc(paths[0]);
    ghost var read, past, library := world.Now(), world.trace, world.snap;
    var row := world.SidecarRow(key);
    if row.Err? {
      LookIsTame(past, world.trace, Leaves(Broken), key, since);
      EndsStuck(past, world.trace, Leaves(Broken));
      TamelyGoesOn(past, world.trace, key, since, Err);
      return Err;
    }
    PauseIsTame(past, world.trace, key, since);
    DriftIsFiles(world.directory, read, world.Now());
    HoldsDrift(read, world.Now(), key, Some(lyrics));
    ghost var judged := world.trace;
    StaleDrifts(world.directory, read, world.Now(), key, tags, lyrics, paths[0]);
    if !(row.value.Some? && row.value.value.tags != tags.Normalized()
         && row.value.value.origin == Generated && row.value.value.lyrics == lyrics) {
      SourcedLasts(past, judged, since, paths, tags, lyrics, |past| - 1, marks);
      var ingested := IngestAll(world, paths, tags, lyrics, since, |past| - 1, marks);
      r := if ingested.Ok? then Ok(Some(false)) else Err;
      if r.Err? {
        StuckOn(past, judged, world.trace);
      } else {
        IngestionAccounts(world.trace, |judged|, since, paths);
      }
      TamelyOn(past, judged, world.trace, key, since);
      TamelyGoesOn(past, world.trace, key, since, r);
      return;
    }
    LibraryStays(world.directory, world.quiet, world.answers, world.trace, world.Now(), world.Here());
    HoldingLasts(world.directory, world.quiet, library, world.snap, paths, tags);
    DriftOn(world.directory, start, read, world.Now());
    StaleStands(world.directory, read, world.Now(), existing, key, tags, lyrics, mark, exact);
    r := ArchiveStale(world, paths, tags, existing, lyrics, mark, exact, |past| - 1, start, since);
    TamelyThenGoesOn(past, judged, world.trace, key, since, r);
  }

  /** The reading of the sidecar justifies archiving it, once the audio is checked. */
  ghost predicate MayGo(s: State, existing: Path, tags: TrackTags, lyrics: string, mark: nat, exact: bool) {
    forall taken, checked :: ReasonStands(s, existing, Stale(tags, lyrics, mark, exact, taken, checked))
  }

  lemma StaleStands(directory: Directory, s: State, t: State, existing: Path, key: Path, tags: TrackTags, lyrics: string,
    mark: nat, exact: bool)
    requires Drift(directory, s, t) && existing.Path? && StandsAs(s, existing, lyrics, mark, exact) && WithLrc(existing) == key
    requires StaleGenerated(t.tables, key, tags, lyrics)
    ensures MayGo(t, existing, tags, lyrics, mark, exact)
  {
    hide TrackTags.Normalized;
  }

  lemma MayStillGo(directory: Directory, s: State, t: State, existing: Path, tags: TrackTags, lyrics: string, mark: nat,
    exact: bool, taken: nat, checked: nat)
    requires Drift(directory, s, t) && Within(existing, directory) && MayGo(s, existing, tags, lyrics, mark, exact)
    ensures ReasonStands(t, existing, Stale(tags, lyrics, mark, exact, taken, checked))
  {
    ReasonDrifts(directory, s, t, existing, Stale(tags, lyrics, mark, exact, taken, checked));
    hide ReasonStands, Drift;
  }

  /** Archive generated lyrics of another recording, after one more check of the audio. */
  method ArchiveStale(
    world: World, paths: seq<Path>, tags: TrackTags, existing: Path, ghost lyrics: string, ghost mark: nat,
    ghost exact: bool, ghost taken: nat, ghost start: State, ghost since: nat)
    returns (r: Result<Option<bool>>)
    requires world.Valid() && Group(world.directory, paths)
    requires IsSidecar(existing) && Within(existing, world.directory) && WithLrc(existing) == WithLrc(paths[0])
    requires MayGo(world.Now(), existing, tags, lyrics, mark, exact) && Drift(world.directory, start, world.Now())
    requires existing != WithLrc(paths[0]) ==> HoldsOnly(start.files, WithLrc(paths[0]), None)
    requires since <= taken < |world.trace| && ReadAt(world.trace, taken, existing, lyrics, mark, exact)
    requires Holding(world.quiet, world.snap, paths, tags) && (world.quiet ==> AllEligible(world.answers, paths))
    modifies world`files, world`nextId, world`trace, world`snap, world`entries, world.db`tracks, world.db`sidecars
    ensures world.Valid() && GoesOn(old(world.trace), world.trace, WithLrc(paths[0]), since, r)
    ensures r == Ok(None) ==>
      HoldsOnly(world.files, WithLrc(paths[0]), None) && Holding(world.quiet, world.snap, paths, tags)
    ensures r != Ok(Some(false))
    ensures world.quiet ==>
      if existing in old(world.files) && Movable(old(world.files)[existing].content)
      then ArchivedAs(old(world.Now()), world.Now(), existing) && r == Ok(None)
      else r == Err
  {
    hide Ready, Drift, FilesDrift, Looks, Glances, OtherReaders, SameLibrary, Holding, HoldsLike, AllWithin, Evidence,
      Verified, Unasked, Spares, Tamely, Silent, Vouched, HoldsOnly, ReasonStands, RowSays, TrackTags.Normalized,
      Unknown, IsSidecar, SidecarsOf, Within, AllEligible, GoesOn, ArchivedAs, WithLrc, MayGo;
    KeyOf(world.directory, paths);
    GroupIsWithin(world.directory, paths);
    EligibleMeans(world.quiet, world.answers, paths);
    ghost var key, before, past := WithLrc(paths[0]), world.Now(), world.trace;
    var current;
    ghost var seen;
    current, seen := world.StillCurrent(paths, tags);
    if !current {
      DoubtGoesOn(past, world.trace, key, since);
      return Ok(Some(true));
    }
    CheckVerifies(past, world.trace, paths, tags, seen);
    LooksAreTame(past, world.trace, key, since);
    StaleIsVouched(world.directory, past, world.trace, paths, tags, existing, lyrics, mark, exact, taken, seen);
    ghost var reason := Stale(tags, lyrics, mark, exact, taken, seen[0]);
    MayStillGo(world.directory, before, world.Now(), existing, tags, lyrics, mark, exact, taken, seen[0]);
    DriftOn(world.directory, start, before, world.Now());
    ghost var checked := world.trace;
    r := ArchiveNow(world, paths, tags, existing, reason, start, since);
    TamelyThenGoesOn(past, checked, world.trace, key, since, r);
  }

  method ArchiveNow(world: World, paths: seq<Path>, ghost tags: TrackTags, existing: Path, ghost reason: Reason,
    ghost start: State, ghost since: nat)
    returns (r: Result<Option<bool>>)
    requires world.Valid() && Group(world.directory, paths)
    requires IsSidecar(existing) && Within(existing, world.directory) && WithLrc(existing) == WithLrc(paths[0])
    requires reason.Stale? && since <= reason.taken && since <= reason.checked && ReasonStands(world.Now(), existing, reason)
    requires world.trace != [] && Vouched(world.trace, Archives(existing, 0, reason))
    requires Drift(world.directory, start, world.Now())
    requires existing != WithLrc(paths[0]) ==> HoldsOnly(start.files, WithLrc(paths[0]), None)
    requires Holding(world.quiet, world.snap, paths, tags)
    modifies world`files, world`nextId, world`trace, world`snap, world`entries, world.db`tracks, world.db`sidecars
    ensures world.Valid() && GoesOn(old(world.trace), world.trace, WithLrc(paths[0]), since, r)
    ensures r == Ok(None) ==>
      HoldsOnly(world.files, WithLrc(paths[0]), None) && Holding(world.quiet, world.snap, paths, tags)
    ensures r != Ok(Some(false))
    ensures world.quiet ==>
      if existing in old(world.files) && Movable(old(world.files)[existing].content)
      then ArchivedAs(old(world.Now()), world.Now(), existing) && r == Ok(None)
      else r == Err
  {
    hide Ready, Drift, FilesDrift, Pauses, Looks, Glances, Ends, SameReaders, OtherReaders, SameLibrary, Holding,
      HoldsLike, AllWithin, Unasked, Spares, Tamely, Silent, Vouched, HoldsOnly, ReasonStands, RowSays,
      TrackTags.Normalized, BlankText, Unknown, IsSidecar, SidecarsOf, Within, GoesOn, ArchivedAs;
    KeyOf(world.directory, paths);
    GroupIsWithin(world.directory, paths);
    ghost var key, before, past, library := WithLrc(paths[0]), world.Now(), world.trace, world.snap;
    var archived;
    ghost var moved, slot;
    archived, moved, slot := world.Quarantine(existing, reason);
    if moved {
      ActIsTame(past, world.trace, Archives(existing, slot, reason), key, false, since);
    } else {
      LookIsTame(past, world.trace, Leaves(Broken), key, since);
    }
    if archived.Err? {
      EndsStuck(past, world.trace, if moved then Archives(existing, slot, reason) else Leaves(Broken));
      TamelyGoesOn(past, world.trace, key, since, Err);
      return Err;
    }
    ghost var gone, middle, between := world.Now(), world.trace, world.snap;
    var again := world.StandsAgain(existing);
    if again {
      EndsInDoubt(middle, world.trace, existing);
      DoubtGoesOn(middle, world.trace, key, since);
      TamelyThenGoesOn(past, middle, world.trace, key, since, Ok(Some(true)));
      return Ok(Some(true));
    }
    if existing == key {
      GoneIsUnheld(world.files, key);
    } else {
      DriftOn(world.directory, start, before, gone);
      DriftOn(world.directory, start, gone, world.Now());
      NothingHeldOn(world.directory, start, world.Now(), key);
    }
    PauseIsTame(middle, world.trace, key, since);
    TamelyOn(past, middle, world.trace, key, since);
    TamelyGoesOn(past, world.trace, key, since, Ok(None));
    SameReadersOn(world.directory, library, between, world.snap);
    HoldingLasts(world.directory, world.quiet, library, world.snap, paths, tags);
    return Ok(None);
  }

  lemma ReadingHolds(directory: Directory, s: State, t: State, key: Path, existing: Path, lyrics: string)
    requires Drift(directory, s, t) && key.Path? && HoldsOnly(t.files, existing, Some(lyrics))
    requires existing != key ==> HoldsOnly(s.files, key, None)
    ensures HoldsOnly(t.files, key, Some(lyrics))
  {
  }

  // ---------------------------------------------------------------------------
  // The pass
  // ---------------------------------------------------------------------------

  /** The listed sidecar, or else the cache. */
  method Settle(world: World, paths: seq<Path>, tags: TrackTags, existing: Option<Path>, ghost since: nat,
    ghost marks: seq<nat>)
    returns (r: Result<bool>)
    requires world.Valid() && Group(world.directory, paths) && since <= |world.trace|
    requires existing.Some? ==>
      IsSidecar(existing.value) && Within(existing.value, world.directory) && WithLrc(existing.value) == WithLrc(paths[0])
    requires existing != Some(WithLrc(paths[0])) ==> HoldsOnly(world.files, WithLrc(paths[0]), None)
    requires Readings(world.trace, since, paths, tags, marks)
    requires Holding(world.quiet, world.snap, paths, tags) && (world.quiet ==> AllEligible(world.answers, paths))
    modifies world`files, world`nextId, world`trace, world`snap, world`entries, world`lookups,
      world.db`tracks, world.db`sidecars
    ensures world.Valid() && Concluded(old(world.trace), world.trace, WithLrc(paths[0]), since, paths, r)
    ensures r == Ok(false) ==> Accounted(world.trace, since, paths)
    ensures world.lookups <= old(world.lookups) + 1
    ensures world.quiet ==> QuietSettle(world.answers, world.db.retry, old(world.Now()), paths, tags, existing, world.Now(), r,
      world.lookups > old(world.lookups))
  {
    hide Ready, Drift, Looks, OtherReaders, SameLibrary, Holding, HoldsLike, Readings, Unasked, Spares, Tamely,
      Concluded, Final, Silent, Vouched, HoldsOnly, RowSays, TrackTags.Normalized, BlankText, Unknown, IsSidecar,
      SidecarsOf, Within, AllEligible, GoesOn, QuietResolve, QuietExisting;
    ghost var key, past := WithLrc(paths[0]), world.trace;
    if existing.Some? {
      var used := UseExisting(world, paths, tags, existing.value, since, marks);
      GoneOn(past, world.trace, key, since, paths, used);
      if used.Err? {
        return Err;
      }
      if used.value.Some? {
        return Ok(used.value.value);
      }
    } else {
      TamelyStays(past, key, since);
    }
    ghost var middle := world.trace;
    r := Resolve(world, paths, tags, since);
    TamelyConcludes(past, middle, world.trace, key, since, paths, r);
  }

  /** The pass once all tags are read. */
  method UseTags(world: World, paths: seq<Path>, all: seq<TrackTags>, existing: Option<Path>, ghost since: nat,
    ghost marks: seq<nat>)
    returns (r: Result<bool>)
    requires world.Valid() && Group(world.directory, paths) && all != [] && since <= |world.trace|
    requires ReadMarks(world.trace, since, paths, all, marks) && AllHeld(world.quiet, world.snap, paths, all)
    requires world.quiet ==> AllEligible(world.answers, paths)
    requires existing.Some? ==>
      IsSidecar(existing.value) && Within(existing.value, world.directory) && WithLrc(existing.value) == WithLrc(paths[0])
    requires existing != Some(WithLrc(paths[0])) ==> HoldsOnly(world.files, WithLrc(paths[0]), None)
    modifies world`files, world`nextId, world`trace, world`snap, world`entries, world`lookups,
      world.db`tracks, world.db`sidecars
    ensures world.Valid() && Concluded(old(world.trace), world.trace, WithLrc(paths[0]), since, paths, r)
    ensures r == Ok(false) ==> Accounted(world.trace, since, paths)
    ensures world.lookups <= old(world.lookups) + 1
    ensures Mixed(all) ==> r == Ok(false) && world.trace == old(world.trace)
    ensures world.quiet ==> QuietUse(world.answers, world.db.retry, old(world.Now()), paths, all, existing, world.Now(), r,
      world.lookups > old(world.lookups))
  {
    hide Ready, Drift, Looks, OtherReaders, SameLibrary, Holding, HoldsLike, Readings, ReadMarks, Unasked, Spares,
      Tamely, Concluded, Final, Silent, Vouched, HoldsOnly, RowSays, BlankText, Unknown, IsSidecar, SidecarsOf,
      Within, AllEligible, AllHeld, QuietSettle;
    ghost var key, past := WithLrc(paths[0]), world.trace;
    TamelyStays(past, key, since);
    if exists k :: 0 <= k < |all| && all[k].Normalized() != all[0].Normalized() {
      ghost var k :| 0 <= k < |all| && all[k].Normalized() != all[0].Normalized();
      MixedAccounts(past, since, paths, all, marks, k);
      TamelyDone(past, past, key, since, paths, Ok(false));
      return Ok(false);
    }
    MarksAreReadings(world.trace, since, paths, all, marks);
    AgreeingIsHolding(world.quiet, world.snap, paths, all);
    var eligible := world.Allows(WithLrc(paths[0]));
    if !eligible {
      LookIsTame(past, world.trace, Leaves(Excluded), key, since);
      EndsAccounts(past, world.trace, Leaves(Excluded), since, paths);
      TamelyDone(past, world.trace, key, since, paths, Ok(false));
      return Ok(false);
    }
    r := Settle(world, paths, all[0], existing, since, marks);
  }

  /**
   One pass over a group. It asks for a rerun exactly if its last moment is a doubt: audio that changed, or a
   sidecar that stands again. It fails only when its last moment is a failure, or a change of files that could
   perhaps not be made durable. If it ends well otherwise, each file was read to its end, the history accounts
   for the outcome, and whatever was published or missed was withdrawn, or all audio was checked again after.
   */
  method ProcessGroup(world: World, paths: seq<Path>, existing: Option<Path>) returns (r: Result<bool>)
    requires world.Valid() && Group(world.directory, paths) && (world.quiet ==> AllEligible(world.answers, paths))
    requires existing.Some? ==>
      IsSidecar(existing.value) && Within(existing.value, world.directory) && WithLrc(existing.value) == WithLrc(paths[0])
    requires existing != Some(WithLrc(paths[0])) ==> HoldsOnly(world.files, WithLrc(paths[0]), None)
    modifies world`files, world`nextId, world`trace, world`snap, world`entries, world`lookups,
      world.db`tracks, world.db`sidecars
    ensures world.Valid() && Concluded(old(world.trace), world.trace, WithLrc(paths[0]), |old(world.trace)|, paths, r)
    ensures r == Ok(false) ==>
      ReadThrough(old(world.trace), world.trace, paths) && Accounted(world.trace, |old(world.trace)|, paths)
    ensures world.lookups <= old(world.lookups) + 1
    ensures world.quiet ==> QuietPass(world.answers, world.db.retry, old(world.Now()), paths, existing, world.Now(), r,
      world.lookups > old(world.lookups))
  {
    hide Ready, Drift, Looks, Glances, OtherReaders, SameLibrary, Holding, AllWithin, ReadMarks, Unasked, Spares,
      Tamely, Concluded, Final, Silent, Vouched, HoldsOnly, RowSays, TrackTags.Normalized, BlankText, Unknown,
      IsSidecar, SidecarsOf, AllEligible, AllHeld, GaveUp, QuietUse;
    GroupIsWithin(world.directory, paths);
    ghost var key, start, past := WithLrc(paths[0]), world.Now(), world.trace;
    var read;
    ghost var marks;
    read, marks := ReadGroup(world, paths);
    if read == Ok(None) {
      DoubtConcludes(past, world.trace, key, |past|, paths);
      return Ok(true);
    }
    GlancesLook(past, world.trace);
    LooksAreTame(past, world.trace, key, |past|);
    if read.Err? {
      GaveUpStuck(past, world.trace, paths);
      TamelyDone(past, world.trace, key, |past|, paths, Err);
      return Err;
    }
    if existing != Some(WithLrc(paths[0])) {
      NothingHeldOn(world.directory, start, world.Now(), WithLrc(paths[0]));
    }
    MarksCount(world.trace, |past|, paths, read.value.value, marks);
    ghost var middle := world.trace;
    r := UseTags(world, paths, read.value.value, existing, |past|, marks);
    TamelyConcludes(past, middle, world.trace, key, |past|, paths, r);
    MarksReadThrough(past, middle, world.trace, paths, read.value.value, marks);
  }

  lemma GaveUpStuck(before: seq<Moment>, after: seq<Moment>, paths: seq<Path>)
    requires GaveUp(before, after, paths, true)
    ensures Stuck(before, after)
  {
  }

  /** Each of the files was read to its end. */
  ghost predicate ReadThrough(before: seq<Moment>, after: seq<Moment>, paths: seq<Path>) {
    forall k :: 0 <= k < |paths| ==> ReadOnce(before, after, paths[k])
  }

  ghost predicate ReadOnce(before: seq<Moment>, after: seq<Moment>, path: Path) {
    exists m :: |before| <= m < |after| && after[m].actor.Confirms? && after[m].actor.path == path
  }

  lemma MarksReadThrough(before: seq<Moment>, middle: seq<Moment>, after: seq<Moment>, paths: seq<Path>, all: seq<TrackTags>,
    marks: seq<nat>)
    requires ReadMarks(middle, |before|, paths, all, marks) && middle <= after
    ensures ReadThrough(before, after, paths)
  {
    forall k | 0 <= k < |paths| ensures ReadOnce(before, after, paths[k]) {
      assert after[marks[k]] == middle[marks[k]];
    }
  }

  lemma MarksCount(trace: seq<Moment>, since: nat, paths: seq<Path>, all: seq<TrackTags>, marks: seq<nat>)
    requires ReadMarks(trace, since, paths, all, marks)
    ensures |all| == |paths|
  {
  }
}
