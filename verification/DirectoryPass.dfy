/** The pass over one directory: list, reconcile, process each group, deal with orphans (src/scan.rs). */
module DirectoryPass {
  import opened Basics
  import opened Tables
  import opened CacheDbs
  import opened Scenes
  import opened Tags
  import opened Publishing
  import opened Traces
  import opened Worlds
  import opened QuietPasses
  import opened Vouching
  import opened Processor
  import opened Reconciliation
  import Q = WorkQueues

  datatype OrphanAction = Keep | Reconciling | Quarantining | Deleting

  /** `reserved` are the stems of all audio entries, excluded ones too. */
  datatype Listing = Listing(reserved: set<string>, audio: map<string, seq<Path>>, lrc: map<string, seq<Path>>)

  // ---------------------------------------------------------------------------
  // The daemon's own files
  // ---------------------------------------------------------------------------

  /** No daemon-written file but `made` is new. */
  ghost predicate FewerOwn(before: map<Path, Node>, after: map<Path, Node>, made: Option<Path>) {
    forall path :: path in after && path.Path? && after[path].owner == Daemon ==>
      made == Some(path) || (path in before && before[path] == after[path])
  }

  lemma StepFewerOwn(directory: Directory, before: State, actor: Actor, after: State, made: Option<Path>)
    requires Fair(directory, before, actor, after) && (actor.Creates? ==> made == Some(actor.path))
    ensures FewerOwn(before.files, after.files, made)
  {
    hide Stored, Ingested;
  }

  lemma {:induction false} OwnOnlyMade(directory: Directory, trace: seq<Moment>, i: nat, j: nat, made: Option<Path>)
    requires History(directory, trace) && i <= j < |trace|
    requires forall k :: i < k <= j && trace[k].actor.Creates? ==> made == Some(trace[k].actor.path)
    ensures FewerOwn(trace[i].state.files, trace[j].state.files, made)
    decreases j - i
  {
    hide Fair, Proven, Follows;
    if i < j {
      OwnOnlyMade(directory, trace, i, j - 1, made);
      HistoryStep(directory, trace, j);
      hide History, Seen, Vouched;
      StepFewerOwn(directory, trace[j - 1].state, trace[j].actor, trace[j].state, made);
    }
  }

  /** The listing has every file of the daemon. */
  ghost predicate OwnListed(directory: Directory, files: map<Path, Node>, lrc: map<string, seq<Path>>) {
    forall path :: path in files && IsSidecar(path) && Within(path, directory) && files[path].owner == Daemon ==>
      path.stem in lrc && path in lrc[path.stem]
  }

  lemma DriftFewerOwn(directory: Directory, s: State, t: State)
    requires Drift(directory, s, t)
    ensures FewerOwn(s.files, t.files, None)
  {
  }

  // ---------------------------------------------------------------------------
  // Listing
  // ---------------------------------------------------------------------------

  /** The part of `OwnListed` that is about the first `n` entries. */
  ghost predicate OwnListedSoFar(entries: seq<Path>, n: nat, files: map<Path, Node>, lrc: map<string, seq<Path>>)
    requires n <= |entries|
  {
    forall k :: 0 <= k < n && entries[k].Path? && IsSidecar(entries[k]) && entries[k] in files && files[entries[k]].owner == Daemon ==>
      entries[k].stem in lrc && entries[k] in lrc[entries[k].stem]
  }

  function Pushed(m: map<string, seq<Path>>, path: Path): map<string, seq<Path>>
    requires path.Path?
  {
    m[path.stem := (if path.stem in m then m[path.stem] else []) + [path]]
  }

  lemma PushedAudio(directory: Directory, audio: map<string, seq<Path>>, path: Path)
    requires AudioListed(directory, audio) && Within(path, directory) && IsAudio(path)
    ensures AudioListed(directory, Pushed(audio, path))
  {
    var after := Pushed(audio, path);
    if path.stem in audio {
      assert after[path.stem] == audio[path.stem] + [path];
      assert audio[path.stem][0].parent == directory;
    } else {
      assert after[path.stem] == [path];
    }
  }

  lemma PushedSidecar(directory: Directory, lrc: map<string, seq<Path>>, path: Path)
    requires SidecarsListed(directory, lrc) && Within(path, directory) && IsSidecar(path)
    ensures SidecarsListed(directory, Pushed(lrc, path))
  {
  }

  lemma OwnListedMore(
    entries: seq<Path>, n: nat, before: map<Path, Node>, after: map<Path, Node>, lrc: map<string, seq<Path>>,
    counts: bool)
    requires n < |entries| && entries[n].Path?
    requires OwnListedSoFar(entries, n, before, lrc) && FewerOwn(before, after, None)
    requires IsSidecar(entries[n]) && entries[n] in after && after[entries[n]].owner == Daemon ==> counts
    ensures OwnListedSoFar(entries, n + 1, after, if counts && IsSidecar(entries[n]) then Pushed(lrc, entries[n]) else lrc)
  {
  }

  /** The maps list exactly the first `n` entries that count, and `reserved` all their audio stems. */
  ghost predicate ListsFirst(a: Answers, files: map<Path, Node>, entries: seq<Path>, n: nat, l: Listing)
    requires n <= |entries|
  {
    && (forall path: Path :: path.Path? && path.extension.Lrc? ==>
          (path.stem in l.lrc && path in l.lrc[path.stem] <==> path in entries[..n] && CountsIn(a, files, path)))
    && (forall path: Path :: path.Path? && path.extension.Audio? ==>
          (path.stem in l.audio && path in l.audio[path.stem] <==> path in entries[..n] && CountsIn(a, files, path)))
    && (forall stem :: stem in l.reserved <==> exists k :: 0 <= k < n && IsAudioOf(entries[k], stem))
  }

  predicate IsAudioOf(path: Path, stem: string) { path.Path? && path.extension.Audio? && path.stem == stem }

  /** What listing one more entry gives. */
  function Taken(l: Listing, path: Path, counts: bool): Listing
    requires path.Path?
  {
    match path.extension
    case Audio(_) =>
      l.(reserved := l.reserved + {path.stem}, audio := if counts then Pushed(l.audio, path) else l.audio)
    case Lrc(_) => if counts then l.(lrc := Pushed(l.lrc, path)) else l
    case Other(_) => l
  }

  lemma ListsOneMore(a: Answers, files: map<Path, Node>, entries: seq<Path>, n: nat, l: Listing, counts: bool)
    requires n < |entries| && entries[n].Path? && ListsFirst(a, files, entries, n, l) && counts == CountsIn(a, files, entries[n])
    ensures ListsFirst(a, files, entries, n + 1, Taken(l, entries[n], counts))
  {
    hide CountsIn;
    var more := Taken(l, entries[n], counts);
    assert entries[..n + 1] == entries[..n] + [entries[n]];
    forall stem ensures stem in more.reserved <==> exists k :: 0 <= k < n + 1 && IsAudioOf(entries[k], stem) {
      if stem in l.reserved {
        var k :| 0 <= k < n && IsAudioOf(entries[k], stem);
      }
      assert IsAudioOf(entries[n], stem) ==> exists k :: 0 <= k < n + 1 && IsAudioOf(entries[k], stem);
    }
  }

  /** In the middle of a listing. */
  ghost predicate InListing(directory: Directory, quiet: bool, a: Answers, now: State, entries: seq<Path>, n: nat,
    l: Listing) {
    && n <= |entries| && (forall path :: path in entries ==> Within(path, directory))
    && AudioListed(directory, l.audio) && SidecarsListed(directory, l.lrc) && OwnListedSoFar(entries, n, now.files, l.lrc)
    && (forall k :: 0 <= k < n && entries[k].Path? && entries[k].extension.Audio? ==> entries[k].stem in l.reserved)
    && (quiet ==> ListsFirst(a, now.files, entries, n, l) && AudioEligible(a, l.audio))
  }

  ghost predicate AudioEligible(a: Answers, audio: map<string, seq<Path>>) {
    forall stem :: stem in audio ==> AllEligible(a, audio[stem])
  }

  lemma PushedEligible(a: Answers, audio: map<string, seq<Path>>, path: Path)
    requires AudioEligible(a, audio) && path.Path? && a.eligible(path)
    ensures AudioEligible(a, Pushed(audio, path))
  {
  }

  /** The daemon writes no audio, so audio that counts is eligible. */
  lemma AudioCounts(directory: Directory, a: Answers, s: State, path: Path)
    requires Provenance(directory, s) && Within(path, directory) && path.extension.Audio? && CountsIn(a, s.files, path)
    ensures a.eligible(path)
  {
  }

  /** The owner asked whether the entry counts, and this was the answer. */
  ghost predicate Tallied(trace: seq<Moment>, listed: nat, path: Path, counted: bool) {
    exists m :: listed < m < |trace| && trace[m].actor == Counts(path, counted)
  }

  predicate Has(m: map<string, seq<Path>>, path: Path) { path.Path? && path.stem in m && path in m[path.stem] }

  /** An entry is in its map exactly if it was found to count. */
  ghost predicate Tallies(trace: seq<Moment>, listed: nat, l: Listing, path: Path) {
    && (IsAudio(path) ==> Tallied(trace, listed, path, Has(l.audio, path)))
    && (IsSidecar(path) ==> Tallied(trace, listed, path, Has(l.lrc, path)))
  }

  ghost predicate TalliesFirst(trace: seq<Moment>, listed: nat, l: Listing, entries: seq<Path>, n: nat)
    requires n <= |entries|
  {
    && (forall k :: 0 <= k < n ==> Tallies(trace, listed, l, entries[k]))
    && (forall path :: Has(l.audio, path) || Has(l.lrc, path) ==> path in entries[..n])
  }

  lemma TalliesMore(before: seq<Moment>, after: seq<Moment>, listed: nat, l: Listing, entries: seq<Path>, n: nat,
    counted: bool)
    requires n < |entries| && entries[n].Path? && TalliesFirst(before, listed, l, entries, n) && listed < |before| && before <= after
    requires forall i, j :: 0 <= i < j < |entries| ==> entries[i] != entries[j]
    requires |before| < |after| && after[|after| - 1].actor == Counts(entries[n], counted)
    ensures TalliesFirst(after, listed, Taken(l, entries[n], counted), entries, n + 1)
  {
    var more := Taken(l, entries[n], counted);
    assert entries[..n + 1] == entries[..n] + [entries[n]];
    HasTaken(l, entries[n], counted);
    assert entries[n] !in entries[..n];
    assert Tallied(after, listed, entries[n], counted);
    hide Taken, Has;
    forall k | 0 <= k < n + 1 ensures Tallies(after, listed, more, entries[k]) {
      if k < n {
        assert Tallies(before, listed, l, entries[k]);
        TalliedLasts(before, after, listed, entries[k]);
      }
    }
  }

  lemma HasTaken(l: Listing, path: Path, counted: bool)
    requires path.Path?
    ensures var more := Taken(l, path, counted);
      && (forall other :: Has(more.audio, other) <==> Has(l.audio, other) || (other == path && counted && IsAudio(path)))
      && (forall other :: Has(more.lrc, other) <==> Has(l.lrc, other) || (other == path && counted && IsSidecar(path)))
  {
  }

  lemma TalliedLasts(before: seq<Moment>, after: seq<Moment>, listed: nat, path: Path)
    requires before <= after
    ensures forall counted :: Tallied(before, listed, path, counted) ==> Tallied(after, listed, path, counted)
  {
    forall counted | Tallied(before, listed, path, counted) ensures Tallied(after, listed, path, counted) {
      var m :| listed < m < |before| && before[m].actor == Counts(path, counted);
      assert after[m].actor == Counts(path, counted);
    }
  }

  /** The listing has exactly those entries of the moment `listed` that were found to count. */
  ghost predicate Classified(directory: Directory, trace: seq<Moment>, listed: nat, l: Listing) {
    && listed < |trace| && trace[listed].actor.Lists? && trace[listed].actor.reserved <= l.reserved
    && forall path :: Within(path, directory) && (path in trace[listed].state.files || path in trace[listed].scene.entries) ==>
         Tallies(trace, listed, l, path)
  }

  lemma ClassifiedLasts(directory: Directory, before: seq<Moment>, after: seq<Moment>, listed: nat, l: Listing)
    requires Classified(directory, before, listed, l) && before <= after
    ensures Classified(directory, after, listed, l)
  {
    hide Has;
    forall path | Within(path, directory) && (path in after[listed].state.files || path in after[listed].scene.entries)
      ensures Tallies(after, listed, l, path)
    {
      assert Tallies(before, listed, l, path);
      TalliedLasts(before, after, listed, path);
    }
  }

  lemma AllTallied(directory: Directory, trace: seq<Moment>, listed: nat, l: Listing, entries: seq<Path>, reserved: set<string>)
    requires TalliesFirst(trace, listed, l, entries, |entries|) && listed < |trace|
    requires trace[listed].actor == Lists(reserved) && reserved <= l.reserved
    requires forall path :: Within(path, directory) && (path in trace[listed].state.files || path in trace[listed].scene.entries) ==>
      path in entries
    ensures Classified(directory, trace, listed, l)
  {
    hide Tallies, Has;
  }

  lemma ListingStarts(directory: Directory, quiet: bool, a: Answers, now: State, entries: seq<Path>)
    requires forall path :: path in entries ==> Within(path, directory)
    ensures InListing(directory, quiet, a, now, entries, 0, Listing({}, map[], map[]))
  {
    EmptyListing(directory, entries, now.files);
    assert entries[..0] == [];
  }

  lemma ListingOn(
    directory: Directory, quiet: bool, a: Answers, now: State, entries: seq<Path>, n: nat, l: Listing, next: State,
    counts: bool)
    requires InListing(directory, quiet, a, now, entries, n, l) && n < |entries| && Drift(directory, now, next)
    requires entries[n] in next.files && next.files[entries[n]].owner == Daemon ==> counts
    requires quiet ==> next == now && counts == CountsIn(a, now.files, entries[n]) && Provenance(directory, now)
    ensures entries[n].Path? && InListing(directory, quiet, a, next, entries, n + 1, Taken(l, entries[n], counts))
  {
    var path := entries[n];
    assert path in entries;
    DriftFewerOwn(directory, now, next);
    OwnListedMore(entries, n, now.files, next.files, l.lrc, counts);
    if path.extension.Audio? { PushedAudio(directory, l.audio, path); }
    if path.extension.Lrc? { PushedSidecar(directory, l.lrc, path); }
    if quiet {
      ListsOneMore(a, now.files, entries, n, l, counts);
      if path.extension.Audio? && counts {
        AudioCounts(directory, a, now, path);
        PushedEligible(a, l.audio, path);
      }
    }
    hide Drift, AudioListed, SidecarsListed, OwnListedSoFar, ListsFirst, CountsIn, FewerOwn, Pushed, AudioEligible, Provenance;
  }

  /** What a quiet listing lists: the sidecars and audio files that count, and all audio stems. */
  ghost predicate ListsExactly(a: Answers, directory: Directory, files: map<Path, Node>, l: Listing) {
    exists entries: seq<Path> ::
      && (forall path :: path in entries ==> Within(path, directory) && (path in files || path in a.entries))
      && (forall path :: Within(path, directory) && (path in files || path in a.entries) ==> path in entries)
      && ListsFirst(a, files, entries, |entries|, l)
  }

  lemma ListingEnds(
    directory: Directory, quiet: bool, a: Answers, start: State, now: State, entries: seq<Path>, others: set<Path>, l: Listing)
    requires InListing(directory, quiet, a, now, entries, |entries|, l) && Drift(directory, start, now)
    requires forall path :: path in entries <==> Within(path, directory) && (path in start.files || path in others)
    requires quiet ==> now == start && others == a.entries
    ensures AudioListed(directory, l.audio) && SidecarsListed(directory, l.lrc) && OwnListed(directory, now.files, l.lrc)
    ensures Stems(directory, others) <= l.reserved
    ensures quiet ==> ListsExactly(a, directory, now.files, l) && AudioEligible(a, l.audio)
  {
    AllEntriesListed(directory, entries, start, now, l.lrc);
    hide AudioListed, SidecarsListed, OwnListedSoFar, ListsFirst, OwnListed, Drift, AudioEligible;
    forall stem | stem in Stems(directory, others) ensures stem in l.reserved {
      var entry :| entry in others && Within(entry, directory) && entry.extension.Audio? && entry.stem == stem;
      assert entry in entries;
    }
  }

  /** The listing of the directory; `listed` is its moment, and `reserved` has all the stems that it saw. */
  method List(world: World) returns (r: Result<Option<Listing>>, ghost listed: nat)
    requires world.Valid()
    modifies world, world.db
    ensures world.Valid() && Looks(old(world.trace), world.trace)
    ensures r.Ok? && r.value.Some? ==>
      && AudioListed(world.directory, r.value.value.audio) && SidecarsListed(world.directory, r.value.value.lrc)
      && OwnListed(world.directory, world.Now().files, r.value.value.lrc)
      && |old(world.trace)| <= listed && Classified(world.directory, world.trace, listed, r.value.value)
    ensures r.Err? ==> Stuck(old(world.trace), world.trace)
    ensures r == Ok(None) ==> Ends(old(world.trace), world.trace, Leaves(Gone))
    ensures world.quiet ==>
      && world.Now() == old(world.Now()) && r.Ok? && r.value.Some?
      && ListsExactly(world.answers, world.directory, world.Now().files, r.value.value)
      && AudioEligible(world.answers, r.value.value.audio)
  {
    hide Ready, Drift, Pauses, Looks, Ends, SameReaders, AudioListed, SidecarsListed, OwnListed, ListsExactly, InListing,
      CountsIn, AudioEligible, Provenance, Stems, History, TalliesFirst, Classified;
    ghost var past := world.trace;
    listed := 0;
    var dir := world.ReadDir();
    if dir.Err? {
      EndsIsLooks(past, world.trace, Leaves(Broken));
      EndsStuck(past, world.trace, Leaves(Broken));
      return Err, listed;
    }
    if dir.value.None? {
      EndsIsLooks(past, world.trace, Leaves(Gone));
      return Ok(None), listed;
    }
    var entries := dir.value.value;
    var l := Listing({}, map[], map[]);
    ghost var start, others, read := world.Now(), world.entries, world.trace;
    EndsIsLooks(past, read, Lists(Stems(world.directory, others)));
    LastMoment(past, read, Lists(Stems(world.directory, others)));
    listed := |read| - 1;
    QuietEntries(world.directory, world.quiet, world.answers, world.trace, world.Now(), world.Here());
    ListingStarts(world.directory, world.quiet, world.answers, start, entries);
    NothingTallied(read, world.trace, listed, entries);
    LastIs(world.directory, world.quiet, world.answers, world.trace, start, world.Here());
    DriftStays(world.directory, start);
    for i := 0 to |entries|
      invariant world.Valid() && Looks(past, world.trace) && read <= world.trace
      invariant Drift(world.directory, start, world.Now()) && (world.quiet ==> world.Now() == start)
      invariant InListing(world.directory, world.quiet, world.answers, world.Now(), entries, i, l)
      invariant TalliesFirst(world.trace, listed, l, entries, i)
    {
      ghost var before, sofar, earlier := world.Now(), l, world.trace;
      ReadyMeans(world.directory, world.quiet, world.answers, world.trace, world.Now(), world.Here());
      var counts := world.CountIn(entries[i]);
      EndsIsLooks(earlier, world.trace, Counts(entries[i], counts));
      LastMoment(earlier, world.trace, Counts(entries[i], counts));
      LooksOn(past, earlier, world.trace);
      DriftOn(world.directory, start, before, world.Now());
      ListingOn(world.directory, world.quiet, world.answers, before, entries, i, l, world.Now(), counts);
      TalliesMore(earlier, world.trace, listed, l, entries, i, counts);
      var path := entries[i];
      if path.extension.Audio? {
        l := l.(reserved := l.reserved + {path.stem});
      }
      if counts {
        if path.extension.Audio? {
          l := l.(audio := Pushed(l.audio, path));
        } else if path.extension.Lrc? {
          l := l.(lrc := Pushed(l.lrc, path));
        }
      }
      assert l == Taken(sofar, path, counts);
    }
    ListingEnds(world.directory, world.quiet, world.answers, start, world.Now(), entries, others, l);
    AllTallied(world.directory, world.trace, listed, l, entries, Stems(world.directory, others));
    return Ok(Some(l)), listed;
  }

  lemma NothingTallied(before: seq<Moment>, trace: seq<Moment>, listed: nat, entries: seq<Path>)
    ensures TalliesFirst(trace, listed, Listing({}, map[], map[]), entries, 0)
  {
  }

  lemma EmptyListing(directory: Directory, entries: seq<Path>, files: map<Path, Node>)
    ensures AudioListed(directory, map[]) && SidecarsListed(directory, map[]) && OwnListedSoFar(entries, 0, files, map[])
  {
  }

  lemma AllEntriesListed(directory: Directory, entries: seq<Path>, s: State, t: State, lrc: map<string, seq<Path>>)
    requires forall path :: path in s.files && IsSidecar(path) && Within(path, directory) ==> path in entries
    requires Drift(directory, s, t) && OwnListedSoFar(entries, |entries|, t.files, lrc)
    ensures OwnListed(directory, t.files, lrc)
  {
  }

  // ---------------------------------------------------------------------------
  // After the reconciliation
  // ---------------------------------------------------------------------------

  /** What was moved away does not come back as the daemon's. */
  lemma MovedIsGone(directory: Directory, before: seq<Moment>, trace: seq<Moment>, source: Path, target: Path,
    paths: seq<Path>, tags: TrackTags)
    requires History(directory, trace) && before != [] && Shifts(before, trace)
    requires Shown(before, trace, source, target, paths, tags) && source.Path?
    ensures var files := trace[|trace| - 1].state.files; source in files ==> files[source].owner == User
  {
    hide Follows, Proven, Fair, Seen, Vouched, FewerOwn, History;
    var t :| |before| <= t < |trace| && IsMove(trace[t].actor, source, target, paths, tags);
    HistoryStep(directory, trace, t);
    MoveTakesAway(directory, trace[t - 1].state, trace[t].actor, trace[t].state);
    OwnOnlyMade(directory, trace, t, |trace| - 1, None);
    NotMadeAgain(trace[t].state.files, trace[|trace| - 1].state.files, source);
  }

  lemma MoveTakesAway(directory: Directory, before: State, actor: Actor, after: State)
    requires Fair(directory, before, actor, after) && actor.Moves?
    ensures actor.path !in after.files
  {
  }

  lemma NotMadeAgain(before: map<Path, Node>, after: map<Path, Node>, path: Path)
    requires FewerOwn(before, after, None) && path !in before && path.Path?
    ensures path in after ==> after[path].owner == User
  {
  }

  lemma ReconciledIsListed(
    directory: Directory, audio: map<string, seq<Path>>, lrc: map<string, seq<Path>>, groups: seq<Gathered>,
    moves: seq<Relocation>, after: map<string, seq<Path>>, before: seq<Moment>, trace: seq<Moment>)
    requires History(directory, trace) && before != [] && Shifts(before, trace)
    requires Reconciled(audio, lrc, groups, moves, after, before, trace)
    requires OwnListed(directory, before[|before| - 1].state.files, lrc) && SidecarsListed(directory, lrc)
    ensures OwnListed(directory, trace[|trace| - 1].state.files, after)
  {
    hide Follows, Proven, Earned, Injective, Shown;
    var now := trace[|trace| - 1].state.files;
    OwnOnlyMade(directory, trace, |before| - 1, |trace| - 1, None);
    MovedNames(audio, lrc, groups, moves, after);
    forall path | path in now && IsSidecar(path) && Within(path, directory) && now[path].owner == Daemon
      ensures path.stem in after && path in after[path.stem]
    {
      assert path.stem in lrc && path in lrc[path.stem];
      OwnIsNotMoved(directory, audio, lrc, groups, moves, after, before, trace, path);
    }
  }

  lemma OwnIsNotMoved(
    directory: Directory, audio: map<string, seq<Path>>, lrc: map<string, seq<Path>>, groups: seq<Gathered>,
    moves: seq<Relocation>, after: map<string, seq<Path>>, before: seq<Moment>, trace: seq<Moment>, path: Path)
    requires History(directory, trace) && before != [] && Shifts(before, trace)
    requires Reconciled(audio, lrc, groups, moves, after, before, trace)
    requires path in trace[|trace| - 1].state.files && IsSidecar(path) && trace[|trace| - 1].state.files[path].owner == Daemon
    requires path.stem in lrc && path in lrc[path.stem]
    ensures path.stem !in MovedOrphans(moves)
  {
    hide Progress, History, Shown, Shifts, WithLrc;
    forall k | 0 <= k < |moves| ensures moves[k].orphan != path.stem {
      var source := lrc[moves[k].orphan][0];
      if source.Path? {
        MovedIsGone(directory, before, trace, source, WithLrc(audio[moves[k].stem][0]), audio[moves[k].stem], moves[k].tags);
      }
      assert moves[k].orphan == path.stem ==> path in [source];
    }
  }

  // ---------------------------------------------------------------------------
  // The groups
  // ---------------------------------------------------------------------------

  ghost predicate OwnListedIn(directory: Directory, files: map<Path, Node>, lrc: map<string, seq<Path>>,
    stems: set<string>) {
    forall path :: path in files && IsSidecar(path) && Within(path, directory) && files[path].owner == Daemon && path.stem in stems ==>
      path.stem in lrc && path in lrc[path.stem]
  }

  lemma KeyIsExisting(
    directory: Directory, audio: map<string, seq<Path>>, files: map<Path, Node>, lrc: map<string, seq<Path>>,
    stems: set<string>,
    stem: string, sidecars: seq<Path>)
    requires AudioListed(directory, audio) && SidecarsListed(directory, lrc) && OwnListedIn(directory, files, lrc, stems)
    requires stem in stems && stem in audio && sidecars == (if stem in lrc then lrc[stem] else []) && |sidecars| <= 1
    ensures Group(directory, audio[stem]) && audio[stem][0].stem == stem
    ensures sidecars != [] ==>
      IsSidecar(sidecars[0]) && Within(sidecars[0], directory) && WithLrc(sidecars[0]) == WithLrc(audio[stem][0])
    ensures (if sidecars == [] then None else Some(sidecars[0])) != Some(WithLrc(audio[stem][0])) ==>
      HoldsOnly(files, WithLrc(audio[stem][0]), None)
  {
    assert Within(audio[stem][0], directory);
  }

  lemma GroupDone(
    directory: Directory, before: seq<Moment>, trace: seq<Moment>, audio: Path, paths: seq<Path>, r: Result<bool>,
    lrc: map<string, seq<Path>>, stems: set<string>)
    requires History(directory, trace) && before != [] && Within(audio, directory)
    requires Concluded(before, trace, WithLrc(audio), |before|, paths, r)
    requires OwnListedIn(directory, before[|before| - 1].state.files, lrc, stems)
    ensures OwnListedIn(directory, trace[|trace| - 1].state.files, lrc - {audio.stem}, stems - {audio.stem})
  {
    hide History, Final;
    SparesGrows(before, trace, WithLrc(audio), true, |before|, r == Ok(true));
    forall k | |before| - 1 < k < |trace| && trace[k].actor.Creates? ensures trace[k].actor.path == WithLrc(audio) {
      assert Tame(trace[k].actor, WithLrc(audio), true, |before|);
    }
    hide Spares;
    OwnOnlyMade(directory, trace, |before| - 1, |trace| - 1, Some(WithLrc(audio)));
  }

  ghost function Candidates(lrc: map<string, seq<Path>>, stem: string): seq<Path> { if stem in lrc then lrc[stem] else [] }

  ghost function Only(sidecars: seq<Path>): Option<Path> { if sidecars == [] then None else Some(sidecars[0]) }

  /** One group of a quiet pass: nothing with several sidecars, and otherwise a pass that may fail. */
  ghost predicate QuietGroup(
    a: Answers, retry: int, s: State, stem: string, audio: map<string, seq<Path>>, lrc: map<string, seq<Path>>,
    t: State, rerun: bool)
  {
    if |Candidates(lrc, stem)| > 1 then t == s && !rerun
    else
      exists r: Result<bool>, asked ::
        stem in audio && audio[stem] != []
        && QuietPass(a, retry, s, audio[stem], Only(Candidates(lrc, stem)), t, r, asked)
        && rerun == (r.Ok? && r.value)
  }

  /** The groups one after the other; one rerun is enough to ask for a fresh pass. */
  ghost predicate QuietGroups(
    a: Answers, retry: int, s: State, order: seq<string>, audio: map<string, seq<Path>>, lrc: map<string, seq<Path>>,
    t: State, changed: bool)
    decreases |order|
  {
    if order == [] then t == s && !changed
    else
      var n := |order| - 1;
      exists u, before, rerun ::
        QuietGroups(a, retry, s, order[..n], audio, lrc, u, before)
        && QuietGroup(a, retry, u, order[n], audio, lrc, t, rerun)
        && changed == (before || rerun)
  }

  lemma OneMoreGroup(
    a: Answers, retry: int, s: State, order: seq<string>, audio: map<string, seq<Path>>, lrc: map<string, seq<Path>>,
    u: State, before: bool, stem: string, t: State, rerun: bool)
    requires QuietGroups(a, retry, s, order, audio, lrc, u, before)
    requires QuietGroup(a, retry, u, stem, audio, lrc, t, rerun)
    ensures QuietGroups(a, retry, s, order + [stem], audio, lrc, t, before || rerun)
  {
    hide QuietGroup;
    var more := order + [stem];
    assert more[..|more| - 1] == order && more[|more| - 1] == stem;
    assert QuietGroups(a, retry, s, more[..|more| - 1], audio, lrc, u, before);
    assert QuietGroup(a, retry, u, more[|more| - 1], audio, lrc, t, rerun);
  }

  /**
   What the history shows of one group: nothing with several sidecars, and otherwise a pass to its end: there
   is a doubt or a failure, or every file was read and the history accounts for the outcome.
   */
  ghost predicate GroupPassed(stem: string, audio: map<string, seq<Path>>, lrc: map<string, seq<Path>>,
    before: seq<Moment>, after: seq<Moment>, rerun: bool)
  {
    if |Candidates(lrc, stem)| > 1 then after == before && !rerun
    else
      exists r: Result<bool> ::
        stem in audio && audio[stem] != []
        && Concluded(before, after, WithLrc(audio[stem][0]), |before|, audio[stem], r) && rerun == (r == Ok(true))
        && (r == Ok(false) ==> ReadThrough(before, after, audio[stem]) && Accounted(after, |before|, audio[stem]))
  }

  /** The groups one after the other, whatever the others do meanwhile. */
  ghost predicate GroupsPassed(order: seq<string>, audio: map<string, seq<Path>>, lrc: map<string, seq<Path>>,
    before: seq<Moment>, after: seq<Moment>, changed: bool)
    decreases |order|
  {
    if order == [] then after == before && !changed
    else
      var n := |order| - 1;
      exists middle, sofar, rerun ::
        GroupsPassed(order[..n], audio, lrc, before, middle, sofar)
        && GroupPassed(order[n], audio, lrc, middle, after, rerun)
        && changed == (sofar || rerun)
  }

  lemma OneMorePassed(order: seq<string>, audio: map<string, seq<Path>>, lrc: map<string, seq<Path>>, before: seq<Moment>,
    middle: seq<Moment>, sofar: bool, stem: string, after: seq<Moment>, rerun: bool)
    requires GroupsPassed(order, audio, lrc, before, middle, sofar) && GroupPassed(stem, audio, lrc, middle, after, rerun)
    ensures GroupsPassed(order + [stem], audio, lrc, before, after, sofar || rerun)
  {
    hide GroupPassed;
    var more := order + [stem];
    assert more[..|more| - 1] == order && more[|more| - 1] == stem;
    assert GroupsPassed(more[..|more| - 1], audio, lrc, before, middle, sofar);
    assert GroupPassed(more[|more| - 1], audio, lrc, middle, after, rerun);
  }

  lemma SamePassed(stem: string, audio: map<string, seq<Path>>, rest: map<string, seq<Path>>, lrc: map<string, seq<Path>>,
    before: seq<Moment>, after: seq<Moment>, rerun: bool)
    requires GroupPassed(stem, audio, rest, before, after, rerun) && Candidates(rest, stem) == Candidates(lrc, stem)
    ensures GroupPassed(stem, audio, lrc, before, after, rerun)
  {
    hide Concluded;
  }

  /** A pass over the groups asks for a fresh one exactly if some group was in doubt. */
  ghost predicate Doubted(before: seq<Moment>, after: seq<Moment>) {
    exists i :: |before| <= i < |after| && after[i].actor.Doubts?
  }

  lemma {:induction false} RerunMeansDoubt(order: seq<string>, audio: map<string, seq<Path>>, lrc: map<string, seq<Path>>,
    before: seq<Moment>, after: seq<Moment>, changed: bool)
    requires GroupsPassed(order, audio, lrc, before, after, changed)
    ensures before <= after && (changed <==> Doubted(before, after))
    decreases |order|
  {
    if order == [] {
      hide Actor.Looks;
    } else {
      var n := |order| - 1;
      var middle, sofar, rerun :| GroupsPassed(order[..n], audio, lrc, before, middle, sofar)
        && GroupPassed(order[n], audio, lrc, middle, after, rerun) && changed == (sofar || rerun);
      RerunMeansDoubt(order[..n], audio, lrc, before, middle, sofar);
      GroupRerunMeansDoubt(order[n], audio, lrc, middle, after, rerun);
      hide GroupsPassed, GroupPassed;
      DoubtsOver(before, middle, after);
    }
  }

  lemma GroupRerunMeansDoubt(stem: string, audio: map<string, seq<Path>>, lrc: map<string, seq<Path>>, before: seq<Moment>,
    after: seq<Moment>, rerun: bool)
    requires GroupPassed(stem, audio, lrc, before, after, rerun)
    ensures before <= after && (rerun <==> Doubted(before, after))
  {
    hide Tame, Final, WithLrc;
    if |Candidates(lrc, stem)| <= 1 && rerun {
      assert after[|after| - 1].actor.Doubts?;
    }
  }

  lemma DoubtsOver(before: seq<Moment>, middle: seq<Moment>, after: seq<Moment>)
    requires before <= middle <= after
    ensures Doubted(before, after) <==> Doubted(before, middle) || Doubted(middle, after)
  {
    if Doubted(before, middle) {
      var i :| |before| <= i < |middle| && middle[i].actor.Doubts?;
      assert after[i].actor.Doubts?;
    }
    if Doubted(before, after) && !Doubted(middle, after) {
      var i :| |before| <= i < |after| && after[i].actor.Doubts?;
      assert middle[i].actor.Doubts?;
    }
  }

  function Names(order: seq<string>): set<string> { set stem | stem in order }

  /** Between two groups: what is left, what was done in which order, and what it came to. */
  ghost predicate Underway(
    directory: Directory, quiet: bool, a: Answers, retry: int, start: State, now: State, audio: map<string, seq<Path>>,
    lrc: map<string, seq<Path>>, rest: map<string, seq<Path>>, left: set<string>, order: seq<string>, changed: bool,
    before: seq<Moment>, trace: seq<Moment>)
  {
    && GroupsPassed(order, audio, lrc, before, trace, changed)
    && SidecarsListed(directory, rest) && OwnListedIn(directory, now.files, rest, left)
    && left !! Names(order) && left + Names(order) == audio.Keys && |order| == |Names(order)|
    && rest == lrc - Names(order)
    && (quiet ==> QuietGroups(a, retry, start, order, audio, lrc, now, changed))
  }

  lemma UnderwayStarts(
    directory: Directory, quiet: bool, a: Answers, retry: int, start: State, audio: map<string, seq<Path>>,
    lrc: map<string, seq<Path>>, trace: seq<Moment>)
    requires SidecarsListed(directory, lrc) && OwnListed(directory, start.files, lrc)
    ensures Underway(directory, quiet, a, retry, start, start, audio, lrc, lrc, audio.Keys, [], false, trace, trace)
  {
    AllOwnListed(directory, start.files, lrc, audio.Keys);
    NoGroups(a, retry, start, audio, lrc);
    NoNames(lrc);
    hide SidecarsListed, OwnListed, OwnListedIn, QuietGroups, Names;
  }

  lemma UnderwayOn(
    directory: Directory, quiet: bool, a: Answers, retry: int, start: State, now: State, audio: map<string, seq<Path>>,
    lrc: map<string, seq<Path>>, rest: map<string, seq<Path>>, left: set<string>, order: seq<string>, changed: bool,
    before: seq<Moment>, middle: seq<Moment>, stem: string, next: State, rerun: bool, trace: seq<Moment>)
    requires Underway(directory, quiet, a, retry, start, now, audio, lrc, rest, left, order, changed, before, middle)
    requires stem in left && GroupPassed(stem, audio, rest, middle, trace, rerun)
    requires OwnListedIn(directory, next.files, rest - {stem}, left - {stem})
    requires quiet ==> QuietGroup(a, retry, now, stem, audio, rest, next, rerun)
    ensures Underway(directory, quiet, a, retry, start, next, audio, lrc, rest - {stem}, left - {stem}, order + [stem], changed || rerun,
      before, trace)
  {
    hide SidecarsListed, OwnListedIn, QuietGroups, QuietGroup, Names, Candidates, GroupsPassed, GroupPassed;
    RestOn(lrc, order, stem);
    OneLess(directory, rest, stem);
    OneMoreName(order, stem);
    SamePassed(stem, audio, rest, lrc, middle, trace, rerun);
    OneMorePassed(order, audio, lrc, before, middle, changed, stem, trace, rerun);
    if quiet {
      SameListing(a, retry, now, stem, audio, rest, lrc, next, rerun);
      OneMoreGroup(a, retry, start, order, audio, lrc, now, changed, stem, next, rerun);
    }
  }

  lemma UnderwayMeans(
    directory: Directory, quiet: bool, a: Answers, retry: int, start: State, now: State, audio: map<string, seq<Path>>,
    lrc: map<string, seq<Path>>, rest: map<string, seq<Path>>, left: set<string>, order: seq<string>, changed: bool,
    before: seq<Moment>, trace: seq<Moment>)
    requires Underway(directory, quiet, a, retry, start, now, audio, lrc, rest, left, order, changed, before, trace)
    ensures GroupsPassed(order, audio, lrc, before, trace, changed)
    ensures SidecarsListed(directory, rest) && OwnListedIn(directory, now.files, rest, left) && left <= audio.Keys
    ensures rest == lrc - Names(order) && Names(order) <= audio.Keys
    ensures left == {} ==> Names(order) == audio.Keys && |order| == |audio.Keys|
    ensures quiet ==> QuietGroups(a, retry, start, order, audio, lrc, now, changed)
  {
    hide SidecarsListed, OwnListedIn, QuietGroups, Names, GroupsPassed;
  }

  /** The owner was told meanwhile that the service stops. */
  ghost predicate Stopped(before: seq<Moment>, after: seq<Moment>) {
    exists m :: |before| <= m < |after| && after[m].actor == Leaves(Stopping)
  }

  lemma StoppedNow(before: seq<Moment>, after: seq<Moment>)
    requires Ends(before, after, Leaves(Stopping))
    ensures Stopped(before, after) && before <= after && SparesOrphans(before, after) && !Doubted(before, after)
  {
    EndsIsLooks(before, after, Leaves(Stopping));
  }

  lemma StoppedLasts(before: seq<Moment>, middle: seq<Moment>, after: seq<Moment>)
    requires middle <= after
    ensures Stopped(before, middle) ==> Stopped(before, after)
    ensures before <= middle && Stopped(middle, after) ==> Stopped(before, after)
  {
    if Stopped(before, middle) {
      var m :| |before| <= m < |middle| && middle[m].actor == Leaves(Stopping);
      assert after[m].actor == Leaves(Stopping);
    }
  }

  /** Every group was processed once, or the service stopped after those that were. */
  ghost predicate AllPassed(audio: map<string, seq<Path>>, order: seq<string>, passed: seq<Moment>, after: seq<Moment>) {
    (Names(order) == audio.Keys && |order| == |audio.Keys|) || Stopped(passed, after)
  }

  lemma PassedOrStopped(audio: map<string, seq<Path>>, order: seq<string>, passed: seq<Moment>, after: seq<Moment>)
    requires (Names(order) == audio.Keys && |order| == |audio.Keys|) || Stopped(passed, after)
    ensures AllPassed(audio, order, passed, after)
  {
  }

  /** Each group once; failures are left to a later scan, and only a cancellation leaves the rest. */
  method ProcessGroups(world: World, audio: map<string, seq<Path>>, lrc: map<string, seq<Path>>)
    returns (changed: bool, rest: map<string, seq<Path>>, ghost order: seq<string>, ghost passed: seq<Moment>)
    requires world.Valid() && AudioListed(world.directory, audio) && SidecarsListed(world.directory, lrc)
    requires OwnListed(world.directory, world.Now().files, lrc) && (world.quiet ==> AudioEligible(world.answers, audio))
    modifies world, world.db
    ensures world.Valid() && SparesOrphans(old(world.trace), world.trace) && SidecarsListed(world.directory, rest)
    ensures old(world.trace) <= passed <= world.trace && GroupsPassed(order, audio, lrc, old(world.trace), passed, changed)
    ensures AllPassed(audio, order, passed, world.trace) && (changed <==> Doubted(old(world.trace), passed))
    ensures rest == lrc - Names(order) && Names(order) <= audio.Keys
    ensures world.quiet ==> Names(order) == audio.Keys && |order| == |audio.Keys|
    ensures world.quiet ==>
      QuietGroups(world.answers, world.db.retry, old(world.Now()), order, audio, lrc, world.Now(), changed)
  {
    hide *;
    ghost var start, before := world.Now(), world.trace;
    changed, rest, order, passed := false, lrc, [], before;
    var left := audio.Keys;
    UnderwayStarts(world.directory, world.quiet, world.answers, world.db.retry, start, audio, lrc, before);
    NothingSparesOrphans(world.trace);
    while left != {}
      invariant world.Valid() && SparesOrphans(old(world.trace), world.trace)
      invariant Underway(world.directory, world.quiet, world.answers, world.db.retry, start, world.Now(), audio, lrc, rest, left,
        order, changed, before, world.trace)
      decreases left
    {
      UnderwayMeans(world.directory, world.quiet, world.answers, world.db.retry, start, world.Now(), audio, lrc,
        rest, left, order, changed, before, world.trace);
      var stem :| stem in left;
      ghost var u, past := world.Now(), world.trace;
      var cancelled := world.Cancelled();
      if cancelled {
        RerunMeansDoubt(order, audio, lrc, before, past, changed);
        StoppedNow(past, world.trace);
        SparesOrphansOver(before, past, world.trace);
        PassedOrStopped(audio, order, past, world.trace);
        passed := past;
        return;
      }
      var rerun := OneGroup(world, audio, rest, stem, left);
      SparesOrphansOver(old(world.trace), past, world.trace);
      UnderwayOn(world.directory, world.quiet, world.answers, world.db.retry, start, u, audio, lrc, rest, left, order, changed,
        before, past, stem, world.Now(), rerun, world.trace);
      changed, rest, left, order := changed || rerun, rest - {stem}, left - {stem}, order + [stem];
    }
    UnderwayMeans(world.directory, world.quiet, world.answers, world.db.retry, start, world.Now(), audio, lrc, rest,
      left, order, changed, before, world.trace);
    RerunMeansDoubt(order, audio, lrc, before, world.trace, changed);
    PassedOrStopped(audio, order, world.trace, world.trace);
    passed := world.trace;
  }

  lemma NoGroups(a: Answers, retry: int, s: State, audio: map<string, seq<Path>>, lrc: map<string, seq<Path>>)
    ensures QuietGroups(a, retry, s, [], audio, lrc, s, false)
    ensures forall trace :: GroupsPassed([], audio, lrc, trace, trace, false)
  {
  }

  lemma SameListing(
    a: Answers, retry: int, s: State, stem: string, audio: map<string, seq<Path>>, rest: map<string, seq<Path>>,
    lrc: map<string, seq<Path>>, t: State, rerun: bool)
    requires QuietGroup(a, retry, s, stem, audio, rest, t, rerun) && Candidates(rest, stem) == Candidates(lrc, stem)
    ensures QuietGroup(a, retry, s, stem, audio, lrc, t, rerun)
  {
    hide QuietPass;
  }

  lemma NoNames(lrc: map<string, seq<Path>>)
    ensures Names([]) == {} && lrc - Names([]) == lrc
  {
  }

  lemma RestOn(lrc: map<string, seq<Path>>, order: seq<string>, stem: string)
    requires stem !in Names(order)
    ensures lrc - Names(order) - {stem} == lrc - Names(order + [stem])
    ensures Candidates(lrc - Names(order), stem) == Candidates(lrc, stem)
  {
    OneMoreName(order, stem);
    hide Names;
  }

  lemma OneMoreName(order: seq<string>, stem: string)
    requires stem !in Names(order)
    ensures Names(order + [stem]) == Names(order) + {stem}
    ensures |Names(order + [stem])| == |Names(order)| + 1
  {
    assert Names(order + [stem]) == Names(order) + {stem};
  }

  lemma SparesOrphansOver(before: seq<Moment>, middle: seq<Moment>, after: seq<Moment>)
    requires SparesOrphans(before, middle) && SparesOrphans(middle, after)
    ensures SparesOrphans(before, after)
  {
  }

  /** One group, unless several sidecars share its stem. */
  method OneGroup(world: World, audio: map<string, seq<Path>>, lrc: map<string, seq<Path>>, stem: string,
    ghost left: set<string>)
    returns (rerun: bool)
    requires world.Valid() && AudioListed(world.directory, audio) && SidecarsListed(world.directory, lrc)
    requires OwnListedIn(world.directory, world.Now().files, lrc, left) && stem in left && stem in audio
    requires world.quiet ==> AudioEligible(world.answers, audio)
    modifies world, world.db
    ensures world.Valid() && SparesOrphans(old(world.trace), world.trace)
    ensures GroupPassed(stem, audio, lrc, old(world.trace), world.trace, rerun)
    ensures OwnListedIn(world.directory, world.Now().files, lrc - {stem}, left - {stem})
    ensures world.quiet ==> QuietGroup(world.answers, world.db.retry, old(world.Now()), stem, audio, lrc, world.Now(), rerun)
  {
    hide Ready, History, HoldsOnly, AudioListed, SidecarsListed, OwnListedIn, IsSidecar, Spares, Concluded, Drift, QuietPass,
      AudioEligible, AllEligible, SparesOrphans, Group;
    var sidecars := if stem in lrc then lrc[stem] else [];
    ghost var before, files := world.trace, world.files;
    HistoryOf(world);
    if |sidecars| > 1 {
      FewerStems(world.directory, files, lrc, left, stem);
      NothingSparesOrphans(before);
      return false;
    }
    KeyIsExisting(world.directory, audio, files, lrc, left, stem, sidecars);
    LeadIsWithin(world.directory, audio[stem]);
    if world.quiet { GroupEligible(world.answers, audio, stem); }
    var retry := ProcessGroup(world, audio[stem], if sidecars == [] then None else Some(sidecars[0]));
    rerun := retry.Ok? && retry.value;
    assert Only(Candidates(lrc, stem)) == if sidecars == [] then None else Some(sidecars[0]);
    assert world.quiet ==> QuietPass(world.answers, world.db.retry, old(world.Now()), audio[stem], Only(Candidates(lrc, stem)),
      world.Now(), retry, world.lookups > old(world.lookups));
    HistoryOf(world);
    assert rerun == (retry == Ok(true));
    assert Concluded(before, world.trace, WithLrc(audio[stem][0]), |before|, audio[stem], retry);
    GroupDone(world.directory, before, world.trace, audio[stem][0], audio[stem], retry, lrc, left);
    ConcludedSpares(before, world.trace, WithLrc(audio[stem][0]), audio[stem], retry);
  }

  lemma GroupEligible(a: Answers, audio: map<string, seq<Path>>, stem: string)
    requires AudioEligible(a, audio) && stem in audio
    ensures AllEligible(a, audio[stem])
  {
  }

  lemma NothingSparesOrphans(trace: seq<Moment>)
    ensures SparesOrphans(trace, trace)
  {
  }

  lemma HistoryOf(world: World)
    requires world.Valid()
    ensures History(world.directory, world.trace) && world.trace != [] && world.trace[|world.trace| - 1].state == world.Now()
  {
    hide Ready, History;
    ReadyMeans(world.directory, world.quiet, world.answers, world.trace, world.Now(), world.Here());
  }

  lemma LeadIsWithin(directory: Directory, paths: seq<Path>)
    requires Group(directory, paths)
    ensures paths != [] && Within(paths[0], directory)
  {
  }

  lemma AllOwnListed(directory: Directory, files: map<Path, Node>, lrc: map<string, seq<Path>>, stems: set<string>)
    requires OwnListed(directory, files, lrc)
    ensures OwnListedIn(directory, files, lrc, stems)
  {
  }

  lemma FewerStems(directory: Directory, files: map<Path, Node>, lrc: map<string, seq<Path>>, stems: set<string>,
    stem: string)
    requires OwnListedIn(directory, files, lrc, stems)
    ensures OwnListedIn(directory, files, lrc - {stem}, stems - {stem})
  {
  }

  lemma OneLess(directory: Directory, lrc: map<string, seq<Path>>, stem: string)
    requires SidecarsListed(directory, lrc)
    ensures SidecarsListed(directory, lrc - {stem})
  {
  }

  /** No deletion, no move and no orphan archived. */
  ghost predicate SparesOrphans(before: seq<Moment>, after: seq<Moment>) {
    && before <= after
    && forall i :: |before| <= i < |after| ==>
         && !after[i].actor.Deletes? && !after[i].actor.Moves?
         && (after[i].actor.Archives? ==> !after[i].actor.reason.Orphan?)
  }

  lemma ConcludedSpares(before: seq<Moment>, after: seq<Moment>, key: Path, paths: seq<Path>, r: Result<bool>)
    requires Concluded(before, after, key, |before|, paths, r)
    ensures SparesOrphans(before, after)
  {
    hide Final;
    forall i | |before| <= i < |after|
      ensures !after[i].actor.Deletes? && !after[i].actor.Moves? && (after[i].actor.Archives? ==> !after[i].actor.reason.Orphan?)
    {
      assert Tame(after[i].actor, key, true, |before|);
    }
  }

  // ---------------------------------------------------------------------------
  // The orphans, and the whole pass
  // ---------------------------------------------------------------------------

  /**
   Orphans are archived, deleted or moved only in the mode that asks for it, and only on the grounds of this
   pass: its own listing and its own second looks.
   */
  ghost predicate Behaves(before: seq<Moment>, after: seq<Moment>, action: OrphanAction) {
    && before <= after
    && forall i :: |before| <= i < |after| ==> Allowed(after[i].actor, action, |before|)
  }

  predicate Allowed(actor: Actor, action: OrphanAction, since: nat) {
    match actor
    case Deletes(_, grounds) => action.Deleting? && since <= grounds.listed
    case Archives(_, _, Orphan(grounds)) => action.Quarantining? && since <= grounds.listed
    case Moves(_, _, claim) => action.Reconciling?
    case _ => true
  }

  /** What a quiet pass does with one unpaired sidecar. */
  ghost predicate QuietDisposal(a: Answers, directory: Directory, action: OrphanAction, s: State, path: Path,
    t: State, ok: bool) {
    if Paired(a.entries, directory, path) then t == s && ok
    else if path !in s.files then t == s && !ok
    else if s.files[path].content.Special? then t == s && ok
    else
      match action
      case Quarantining => if Movable(s.files[path].content) then ArchivedAs(s, t, path) && ok else t == s && !ok
      case Deleting => t == s.(files := s.files - {path}) && ok
      case _ => t == s && ok
  }

  /** What the pass found out about the sidecar, or did to it. */
  ghost predicate DealtWith(before: seq<Moment>, after: seq<Moment>, path: Path, action: OrphanAction) {
    exists k :: |before| <= k < |after| && Deals(after[k].actor, path, action)
  }

  predicate Deals(actor: Actor, path: Path, action: OrphanAction) {
    match actor
    case Pairs(p, paired) => p == path && paired
    case Inspects(p, link) => p == path && (link || action.Keep? || action.Reconciling?)
    case Archives(p, _, Orphan(_)) => p == path && action.Quarantining?
    case Deletes(p, _) => p == path && action.Deleting?
    case _ => false
  }

  lemma DealtNow(before: seq<Moment>, past: seq<Moment>, after: seq<Moment>, actor: Actor, path: Path, action: OrphanAction)
    requires before <= past && Ends(past, after, actor) && Deals(actor, path, action)
    ensures DealtWith(before, after, path, action)
  {
    assert Deals(after[|after| - 1].actor, path, action);
  }

  lemma PairingBehaves(before: seq<Moment>, after: seq<Moment>, path: Path, paired: bool, action: OrphanAction)
    requires Ends(before, after, Pairs(path, paired))
    ensures Behaves(before, after, action) && before < after && after[|after| - 1].actor == Pairs(path, paired)
    ensures paired ==> DealtWith(before, after, path, action)
  {
    EndsIsLooks(before, after, Pairs(path, paired));
    if paired { DealtNow(before, before, after, Pairs(path, paired), path, action); }
  }

  lemma InspectingBehaves(before: seq<Moment>, middle: seq<Moment>, after: seq<Moment>, path: Path, link: bool,
    action: OrphanAction)
    requires Behaves(before, middle, action) && Ends(middle, after, Inspects(path, link))
    ensures Behaves(before, after, action) && middle < after && after[|after| - 1].actor == Inspects(path, link)
    ensures link || action.Keep? || action.Reconciling? ==> DealtWith(before, after, path, action)
  {
    EndsIsLooks(middle, after, Inspects(path, link));
    BehavesOver(before, middle, after, action);
    if link || action.Keep? || action.Reconciling? { DealtNow(before, middle, after, Inspects(path, link), path, action); }
    hide Behaves, Looks;
  }

  /** The listing and the two looks that came last are grounds to dispose of the orphan. */
  lemma LooksAreGrounds(middle: seq<Moment>, after: seq<Moment>, path: Path, listed: nat)
    requires path.Path? && listed < |middle| - 1 && middle[|middle| - 1].actor == Pairs(path, false)
    requires middle[listed].actor.Lists? && path.stem !in middle[listed].actor.reserved
    requires Ends(middle, after, Inspects(path, false)) && middle < after
    ensures after != [] && Grounded(after, path, Grounds(listed, |middle| - 1, |after| - 1))
    ensures Vouched(after, Archives(path, 0, Orphan(Grounds(listed, |middle| - 1, |after| - 1))))
    ensures Vouched(after, Deletes(path, Grounds(listed, |middle| - 1, |after| - 1)))
  {
    forall j | |middle| - 1 < j < |after| && j != |after| - 1 ensures after[j].actor.Others? {
      assert after[j] == after[..|after| - 1][j];
    }
  }

  lemma FailureBehaves(before: seq<Moment>, middle: seq<Moment>, after: seq<Moment>, action: OrphanAction)
    requires Behaves(before, middle, action) && Ends(middle, after, Leaves(Broken))
    ensures Behaves(before, after, action) && middle <= after && Stuck(middle, after)
  {
    EndsIsLooks(middle, after, Leaves(Broken));
    BehavesOver(before, middle, after, action);
    hide Behaves, Looks;
  }

  lemma DisposalBehaves(before: seq<Moment>, middle: seq<Moment>, after: seq<Moment>, actor: Actor, path: Path,
    action: OrphanAction)
    requires Behaves(before, middle, action) && Ends(middle, after, actor) && Allowed(actor, action, |before|)
    requires Deals(actor, path, action)
    ensures Behaves(before, after, action) && DealtWith(before, after, path, action)
  {
    DealtNow(before, middle, after, actor, path, action);
    forall i | |before| <= i < |after| ensures Allowed(after[i].actor, action, |before|) {
      if |middle| <= i < |after| - 1 { assert after[i] == after[..|after| - 1][i]; }
    }
  }

  /**
   One unpaired sidecar, classified again before anything happens to it: the grounds are the listing of
   this pass and two looks made here.
   */
  method DisposeOf(world: World, path: Path, action: OrphanAction, ghost listed: nat, ghost since: seq<Moment>)
    returns (r: Result<()>)
    requires world.Valid() && IsSidecar(path) && Within(path, world.directory) && ListedWithout(world.trace, listed, path.stem)
    requires |since| <= listed && Behaves(since, world.trace, action)
    modifies world, world.db
    ensures world.Valid() && Behaves(since, world.trace, action) && old(world.trace) <= world.trace
    ensures if r.Ok? then DealtWith(old(world.trace), world.trace, path, action) else Stuck(old(world.trace), world.trace)
    ensures world.quiet ==> QuietDisposal(world.answers, world.directory, action, old(world.Now()), path, world.Now(), r.Ok?)
  {
    hide Ready, Drift, Paired, ArchivedAs, Movable, Behaves, DealtWith, Ends, Pauses, Vouched, Grounded,
      ListedWithout, IsSidecar, SameReaders;
    ghost var past := world.trace;
    var paired := world.HasAudio(path);
    if paired.Err? {
      FailureBehaves(since, past, world.trace, action);
      return Err;
    }
    PairingBehaves(past, world.trace, path, paired.value, action);
    BehavesFrom(since, past, world.trace, action);
    if paired.value {
      return Ok(());
    }
    ghost var middle := world.trace;
    ListedStays(past, middle, listed, path.stem);
    r := DisposeUnpaired(world, path, action, listed, since);
    DealtEarlier(past, middle, world.trace, path, action);
    if r.Err? { StuckOn(past, middle, world.trace); }
  }

  ghost predicate ListedWithout(trace: seq<Moment>, listed: nat, stem: string) {
    listed < |trace| && trace[listed].actor.Lists? && stem !in trace[listed].actor.reserved
  }

  lemma ListedStays(before: seq<Moment>, after: seq<Moment>, listed: nat, stem: string)
    requires ListedWithout(before, listed, stem) && before <= after
    ensures ListedWithout(after, listed, stem)
  {
  }

  lemma DealtEarlier(before: seq<Moment>, middle: seq<Moment>, after: seq<Moment>, path: Path, action: OrphanAction)
    requires before <= middle <= after
    ensures DealtWith(middle, after, path, action) ==> DealtWith(before, after, path, action)
  {
  }

  /** Acting on orphans is a matter of the pass, looking at them is not. */
  lemma BehavesFrom(since: seq<Moment>, past: seq<Moment>, trace: seq<Moment>, action: OrphanAction)
    requires Behaves(since, past, action) && Behaves(past, trace, action)
    ensures Behaves(since, trace, action) && past <= trace
  {
  }

  method DisposeUnpaired(world: World, path: Path, action: OrphanAction, ghost listed: nat, ghost since: seq<Moment>)
    returns (r: Result<()>)
    requires world.Valid() && IsSidecar(path) && Within(path, world.directory)
    requires |since| <= listed && Behaves(since, world.trace, action)
    requires listed < |world.trace| - 1 && ListedWithout(world.trace, listed, path.stem)
    requires world.trace[|world.trace| - 1].actor == Pairs(path, false)
    modifies world, world.db
    ensures world.Valid() && Behaves(since, world.trace, action) && old(world.trace) <= world.trace
    ensures if r.Ok? then DealtWith(old(world.trace), world.trace, path, action) else Stuck(old(world.trace), world.trace)
    ensures world.quiet && !Paired(world.answers.entries, world.directory, path) ==>
      QuietDisposal(world.answers, world.directory, action, old(world.Now()), path, world.Now(), r.Ok?)
  {
    hide Ready, Drift, Paired, ArchivedAs, Movable, Behaves, DealtWith, Ends, Pauses, Vouched, Grounded, SameReaders,
      Allowed, Deals;
    ghost var past := world.trace;
    var link := world.IsLink(path);
    if link.Err? {
      FailureBehaves(since, past, world.trace, action);
      return Err;
    }
    NothingYet(past, action);
    InspectingBehaves(past, past, world.trace, path, link.value, action);
    InspectingBehaves(since, past, world.trace, path, link.value, action);
    if link.value || action.Keep? || action.Reconciling? {
      return Ok(());
    }
    LooksAreGrounds(past, world.trace, path, listed);
    BehavesGrows(since, world.trace, action);
    ghost var inspected, grounds := world.trace, Grounds(listed, |past| - 1, |world.trace| - 1);
    if action.Quarantining? {
      var archived;
      ghost var moved, slot;
      archived, moved, slot := world.Quarantine(path, Orphan(grounds));
      if moved {
        OrphanArchived(since, inspected, world.trace, path, slot, grounds);
        OrphanArchived(past, inspected, world.trace, path, slot, grounds);
      } else {
        FailureBehaves(since, inspected, world.trace, action);
      }
      if archived.Err? {
        EndsStuck(inspected, world.trace, if moved then Archives(path, slot, Orphan(grounds)) else Leaves(Broken));
        StuckOn(past, inspected, world.trace);
      }
      return if archived.Err? then Err else Ok(());
    }
    var deleted := world.RemoveFile(path, grounds);
    if deleted.Ok? {
      OrphanDeleted(since, inspected, world.trace, path, grounds);
      OrphanDeleted(past, inspected, world.trace, path, grounds);
    } else {
      FailureBehaves(since, inspected, world.trace, action);
      StuckOn(past, inspected, world.trace);
    }
    return deleted;
  }

  lemma OrphanArchived(before: seq<Moment>, middle: seq<Moment>, after: seq<Moment>, path: Path, slot: nat, grounds: Grounds)
    requires before <= middle && Ends(middle, after, Archives(path, slot, Orphan(grounds)))
    ensures Behaves(before, middle, Quarantining) && |before| <= grounds.listed ==> Behaves(before, after, Quarantining)
    ensures DealtWith(before, after, path, Quarantining) && middle <= after
  {
    DealtNow(before, middle, after, Archives(path, slot, Orphan(grounds)), path, Quarantining);
    if Behaves(before, middle, Quarantining) && |before| <= grounds.listed {
      DisposalBehaves(before, middle, after, Archives(path, slot, Orphan(grounds)), path, Quarantining);
    }
    hide Behaves, DealtWith;
  }

  lemma OrphanDeleted(before: seq<Moment>, middle: seq<Moment>, after: seq<Moment>, path: Path, grounds: Grounds)
    requires before <= middle && Ends(middle, after, Deletes(path, grounds))
    ensures Behaves(before, middle, Deleting) && |before| <= grounds.listed ==> Behaves(before, after, Deleting)
    ensures DealtWith(before, after, path, Deleting) && middle <= after
  {
    DealtNow(before, middle, after, Deletes(path, grounds), path, Deleting);
    if Behaves(before, middle, Deleting) && |before| <= grounds.listed {
      DisposalBehaves(before, middle, after, Deletes(path, grounds), path, Deleting);
    }
    hide Behaves, DealtWith;
  }

  lemma BehavesOver(before: seq<Moment>, middle: seq<Moment>, after: seq<Moment>, action: OrphanAction)
    requires Behaves(before, middle, action)
    ensures SparesOrphans(middle, after) ==> Behaves(before, after, action)
    ensures Looks(middle, after) ==> Behaves(before, after, action)
    ensures Shifts(middle, after) && action.Reconciling? ==> Behaves(before, after, action)
  {
  }

  /** The unpaired sidecars one after the other. */
  ghost predicate QuietDisposals(a: Answers, directory: Directory, action: OrphanAction, s: State, paths: seq<Path>,
    t: State)
    decreases |paths|
  {
    if paths == [] then t == s
    else
      var n := |paths| - 1;
      exists u :: QuietDisposals(a, directory, action, s, paths[..n], u) && QuietDisposal(a, directory, action, u, paths[n], t, true)
  }

  lemma OneMoreDisposal(
    a: Answers, directory: Directory, action: OrphanAction, s: State, paths: seq<Path>, u: State, path: Path, t: State)
    requires QuietDisposals(a, directory, action, s, paths, u) && QuietDisposal(a, directory, action, u, path, t, true)
    ensures QuietDisposals(a, directory, action, s, paths + [path], t)
  {
    hide QuietDisposal;
    var more := paths + [path];
    assert more[..|more| - 1] == paths && more[|more| - 1] == path;
    assert QuietDisposals(a, directory, action, s, more[..|more| - 1], u);
    assert QuietDisposal(a, directory, action, u, more[|more| - 1], t, true);
  }

  /** Deleting takes exactly the listed regular sidecars without audio, and keeping takes nothing. */
  lemma {:induction false} DisposalsAreExact(a: Answers, directory: Directory, action: OrphanAction, s: State,
    paths: seq<Path>, t: State)
    requires QuietDisposals(a, directory, action, s, paths, t) && !action.Quarantining?
    ensures !action.Deleting? ==> t == s
    ensures action.Deleting? ==> t == s.(files := t.files)
    ensures action.Deleting? ==>
      forall path :: path in t.files <==>
        path in s.files && !(path in paths && !Paired(a.entries, directory, path) && !s.files[path].content.Special?)
    ensures forall path :: path in t.files ==> t.files[path] == s.files[path]
    decreases |paths|
  {
    hide Paired;
    if paths != [] {
      var n := |paths| - 1;
      var u :| QuietDisposals(a, directory, action, s, paths[..n], u) && QuietDisposal(a, directory, action, u, paths[n], t, true);
      DisposalsAreExact(a, directory, action, s, paths[..n], u);
      assert paths == paths[..n] + [paths[n]];
    }
  }

  /** The sidecars of these stems, all of them. */
  ghost function Unpaired(rest: map<string, seq<Path>>, stems: set<string>): set<Path> {
    set stem, path | stem in stems && stem in rest && path in rest[stem] :: path
  }

  function Members(paths: seq<Path>): set<Path> { set path | path in paths }

  /** Every unpaired sidecar was dealt with, or the service stopped. */
  ghost predicate AllDisposed(rest: map<string, seq<Path>>, stems: set<string>, disposed: seq<Path>, before: seq<Moment>,
    after: seq<Moment>) {
    Members(disposed) == Unpaired(rest, stems) || Stopped(before, after)
  }

  lemma DisposedOrStopped(rest: map<string, seq<Path>>, stems: set<string>, disposed: seq<Path>, before: seq<Moment>,
    after: seq<Moment>)
    requires Members(disposed) == Unpaired(rest, stems) || Stopped(before, after)
    ensures AllDisposed(rest, stems, disposed, before, after)
  {
  }

  method DisposeOfAll(world: World, rest: map<string, seq<Path>>, reserved: set<string>, action: OrphanAction,
    ghost listed: nat, ghost since: seq<Moment>)
    returns (r: Result<()>, ghost disposed: seq<Path>)
    requires world.Valid() && SidecarsListed(world.directory, rest) && ListedAs(world.trace, listed, reserved)
    requires |since| <= listed && Behaves(since, world.trace, action)
    modifies world, world.db
    ensures world.Valid() && Behaves(since, world.trace, action) && old(world.trace) <= world.trace
    ensures forall k :: 0 <= k < |disposed| ==> DealtWith(old(world.trace), world.trace, disposed[k], action)
    ensures r.Err? ==> Stuck(old(world.trace), world.trace)
    ensures r.Ok? ==> AllDisposed(rest, rest.Keys - reserved, disposed, old(world.trace), world.trace)
    ensures world.quiet && r.Ok? ==>
      && Members(disposed) == Unpaired(rest, rest.Keys - reserved)
      && QuietDisposals(world.answers, world.directory, action, old(world.Now()), disposed, world.Now())
  {
    hide *;
    ghost var before := world.trace;
    NoDisposals(world.answers, world.directory, action, world.Now(), rest);
    disposed := [];
    var left := rest.Keys - reserved;
    assert rest.Keys - reserved - left == {};
    while left != {}
      invariant world.Valid() && Behaves(since, world.trace, action) && before <= world.trace
      invariant left <= rest.Keys - reserved && ListedAs(world.trace, listed, reserved)
      invariant forall k :: 0 <= k < |disposed| ==> DealtWith(before, world.trace, disposed[k], action)
      invariant world.quiet ==> QuietDisposals(world.answers, world.directory, action, old(world.Now()), disposed, world.Now())
      invariant Members(disposed) == Unpaired(rest, rest.Keys - reserved - left)
      decreases left
    {
      var stem :| stem in left;
      ghost var middle, start, sofar := world.trace, world.Now(), disposed;
      ghost var more;
      var done;
      ListedWithoutStem(middle, listed, reserved, stem);
      done, more, r := DisposeOfStem(world, rest, stem, action, listed, since);
      ListedAsStays(middle, world.trace, listed, reserved);
      DealtGoesOn(before, middle, world.trace, sofar, more, action);
      if !done {
        disposed := sofar + more;
        if r.Err? {
          StuckOn(before, middle, world.trace);
        } else {
          StoppedLasts(before, middle, world.trace);
          DisposedOrStopped(rest, rest.Keys - reserved, disposed, before, world.trace);
        }
        return;
      }
      if world.quiet {
        ManyMoreDisposals(world.answers, world.directory, action, old(world.Now()), sofar, start, more, world.Now());
      }
      MoreMembers(rest, rest.Keys - reserved - left, stem, sofar, more);
      assert rest.Keys - reserved - (left - {stem}) == rest.Keys - reserved - left + {stem};
      disposed := sofar + more;
      left := left - {stem};
    }
    assert rest.Keys - reserved - left == rest.Keys - reserved;
    DisposedOrStopped(rest, rest.Keys - reserved, disposed, before, world.trace);
    return Ok(()), disposed;
  }

  /** The moment of the listing, and stems that include all that it reserved. */
  ghost predicate ListedAs(trace: seq<Moment>, listed: nat, reserved: set<string>) {
    listed < |trace| && trace[listed].actor.Lists? && trace[listed].actor.reserved <= reserved
  }

  lemma ListedWithoutStem(trace: seq<Moment>, listed: nat, reserved: set<string>, stem: string)
    requires ListedAs(trace, listed, reserved) && stem !in reserved
    ensures ListedWithout(trace, listed, stem)
  {
  }

  lemma ListedAsStays(before: seq<Moment>, after: seq<Moment>, listed: nat, reserved: set<string>)
    requires ListedAs(before, listed, reserved) && before <= after
    ensures ListedAs(after, listed, reserved)
  {
  }

  lemma DealtGoesOn(before: seq<Moment>, middle: seq<Moment>, after: seq<Moment>, sofar: seq<Path>, more: seq<Path>,
    action: OrphanAction)
    requires before <= middle <= after
    requires forall k :: 0 <= k < |sofar| ==> DealtWith(before, middle, sofar[k], action)
    requires forall k :: 0 <= k < |more| ==> DealtWith(middle, after, more[k], action)
    ensures forall k :: 0 <= k < |sofar + more| ==> DealtWith(before, after, (sofar + more)[k], action)
  {
    hide Deals;
    forall k | 0 <= k < |sofar + more| ensures DealtWith(before, after, (sofar + more)[k], action) {
      if k < |sofar| {
        assert DealtWith(before, middle, sofar[k], action);
        var m :| |before| <= m < |middle| && Deals(middle[m].actor, sofar[k], action);
        assert Deals(after[m].actor, sofar[k], action);
      } else {
        assert DealtWith(middle, after, more[k - |sofar|], action);
      }
    }
  }

  lemma NoDisposals(a: Answers, directory: Directory, action: OrphanAction, s: State, rest: map<string, seq<Path>>)
    ensures QuietDisposals(a, directory, action, s, [], s) && Members([]) == Unpaired(rest, {})
  {
  }

  lemma {:induction false} ManyMoreDisposals(
    a: Answers, directory: Directory, action: OrphanAction, s: State, paths: seq<Path>, u: State, more: seq<Path>,
    t: State)
    requires QuietDisposals(a, directory, action, s, paths, u) && QuietDisposals(a, directory, action, u, more, t)
    ensures QuietDisposals(a, directory, action, s, paths + more, t)
    decreases |more|
  {
    if more == [] {
      assert paths + more == paths;
    } else {
      var n := |more| - 1;
      var v :| QuietDisposals(a, directory, action, u, more[..n], v) && QuietDisposal(a, directory, action, v, more[n], t, true);
      ManyMoreDisposals(a, directory, action, s, paths, u, more[..n], v);
      OneMoreDisposal(a, directory, action, s, paths + more[..n], v, more[n], t);
      assert paths + more[..n] + [more[n]] == paths + more;
    }
  }

  lemma MoreMembers(rest: map<string, seq<Path>>, stems: set<string>, stem: string, paths: seq<Path>, more: seq<Path>)
    requires Members(paths) == Unpaired(rest, stems) && stem in rest && more == rest[stem]
    ensures Members(paths + more) == Unpaired(rest, stems + {stem})
  {
    assert forall path :: path in paths + more <==> path in Members(paths) || path in more;
  }

  /** The sidecars of one stem; it stops at a cancellation and at the first failure. */
  method DisposeOfStem(world: World, rest: map<string, seq<Path>>, stem: string, action: OrphanAction, ghost listed: nat,
    ghost since: seq<Moment>)
    returns (done: bool, ghost disposed: seq<Path>, r: Result<()>)
    requires world.Valid() && SidecarsListed(world.directory, rest) && stem in rest && ListedWithout(world.trace, listed, stem)
    requires |since| <= listed && Behaves(since, world.trace, action)
    modifies world, world.db
    ensures world.Valid() && Behaves(since, world.trace, action) && old(world.trace) <= world.trace
    ensures forall k :: 0 <= k < |disposed| ==> DealtWith(old(world.trace), world.trace, disposed[k], action)
    ensures done ==> disposed == rest[stem]
    ensures r.Err? ==> !done && Stuck(old(world.trace), world.trace)
    ensures r.Ok? && !done ==> Stopped(old(world.trace), world.trace)
    ensures world.quiet && r.Ok? ==> done
    ensures world.quiet && done ==> QuietDisposals(world.answers, world.directory, action, old(world.Now()), disposed, world.Now())
  {
    hide *;
    ghost var start := world.trace;
    NoDisposals(world.answers, world.directory, action, world.Now(), rest);
    r, disposed, done := Ok(()), [], false;
    for k := 0 to |rest[stem]|
      invariant world.Valid() && Behaves(since, world.trace, action) && start <= world.trace
      invariant disposed == rest[stem][..k] && ListedWithout(world.trace, listed, stem)
      invariant r.Ok? && !done
      invariant forall k :: 0 <= k < |disposed| ==> DealtWith(start, world.trace, disposed[k], action)
      invariant world.quiet ==> QuietDisposals(world.answers, world.directory, action, old(world.Now()), disposed, world.Now())
    {
      ghost var calm := world.trace;
      var cancelled := world.Cancelled();
      if cancelled {
        StoppedNow(calm, world.trace);
        StoppedLasts(start, calm, world.trace);
        BehavesOver(since, calm, world.trace, action);
        DealtGoesOn(start, calm, world.trace, disposed, [], action);
        assert disposed + [] == disposed;
        return;
      }
      ListedIsNamed(world.directory, rest, stem, k);
      ghost var before, u := world.trace, world.Now();
      r := DisposeOf(world, rest[stem][k], action, listed, since);
      ListedStays(before, world.trace, listed, stem);
      if r.Err? {
        DealtGoesOn(start, before, world.trace, disposed, [], action);
        assert disposed + [] == disposed;
        StuckOn(start, before, world.trace);
        return;
      }
      DealtGoesOn(start, before, world.trace, disposed, [rest[stem][k]], action);
      if world.quiet {
        OneMoreDisposal(world.answers, world.directory, action, old(world.Now()), disposed, u, rest[stem][k],
          world.Now());
      }
      disposed := disposed + [rest[stem][k]];
    }
    r, done := Ok(()), true;
  }

  lemma NothingYet(trace: seq<Moment>, action: OrphanAction)
    ensures Behaves(trace, trace, action)
  {
  }

  lemma ListedIsNamed(directory: Directory, lrc: map<string, seq<Path>>, stem: string, k: nat)
    requires SidecarsListed(directory, lrc) && stem in lrc && k < |lrc[stem]|
    ensures SidecarNamed(directory, lrc[stem][k], stem)
    ensures IsSidecar(lrc[stem][k]) && Within(lrc[stem][k], directory) && lrc[stem][k].stem == stem
  {
  }

  /**
   The stages of a pass: the moment of its listing, when reconciling had read which groups, the sidecars after it, when
   the groups began and ended and in which order they came, and the orphans that were dealt with.
   */
  datatype Trail = Trail(
    listed: nat, listing: Listing, gathered: nat, groups: seq<Gathered>, lrc: map<string, seq<Path>>, from: nat, moved: State,
    order: seq<string>, to: nat, processed: State, disposed: seq<Path>)

  /** What a quiet pass does: it lists, reconciles in that mode, processes each group and disposes of the rest. */
  ghost predicate QuietDirectory(
    a: Answers, directory: Directory, retry: int, action: OrphanAction, s: State, trail: Trail, t: State, changed: bool)
  {
    var l := trail.listing;
    && ListsExactly(a, directory, s.files, l) && AudioListed(directory, l.audio) && SidecarsListed(directory, l.lrc)
    && (if action.Reconciling? then
          && GroupsListed(l.audio, trail.groups) && GroupsExact(a, l.audio, trail.groups, l.audio.Keys)
          && QuietTurns(a, directory, s, l.audio, l.lrc, trail.groups, |trail.groups|, trail.moved, trail.lrc)
        else trail.moved == s && trail.lrc == l.lrc)
    && Names(trail.order) == l.audio.Keys && |trail.order| == |l.audio.Keys|
    && QuietGroups(a, retry, trail.moved, trail.order, l.audio, trail.lrc, trail.processed, changed)
    && var rest := trail.lrc - l.audio.Keys;
       Members(trail.disposed) == Unpaired(rest, rest.Keys - l.reserved)
       && QuietDisposals(a, directory, action, trail.processed, trail.disposed, t)
  }

  /** The reconciliation, in the mode that asks for it. */
  method MaybeReconcile(world: World, l: Listing, action: OrphanAction)
    returns (r: Result<()>, lrc: map<string, seq<Path>>, ghost groups: seq<Gathered>, ghost gathered: seq<Moment>)
    requires world.Valid() && AudioListed(world.directory, l.audio) && SidecarsListed(world.directory, l.lrc)
    requires OwnListed(world.directory, world.Now().files, l.lrc)
    modifies world, world.db
    ensures world.Valid() && Shifts(old(world.trace), world.trace) && SidecarsListed(world.directory, lrc)
    ensures !action.Reconciling? ==> world.trace == old(world.trace) && r.Ok? && lrc == l.lrc
    ensures old(world.trace) <= gathered <= world.trace
    ensures action.Reconciling? ==>
      Listed(l.audio, groups) && GatheredFrom(l.audio, groups, l.audio.Keys, |old(world.trace)|, gathered)
    ensures r.Err? ==> Stuck(old(world.trace), world.trace)
    ensures action.Reconciling? && r.Ok? ==> TurnsTaken(l.audio, l.lrc, groups, |groups|, gathered, world.trace, lrc)
    ensures r.Ok? ==> OwnListed(world.directory, world.Now().files, lrc)
    ensures world.quiet ==> r.Ok?
    ensures world.quiet && action.Reconciling? ==>
      && GroupsListed(l.audio, groups) && GroupsExact(world.answers, l.audio, groups, l.audio.Keys)
      && QuietTurns(world.answers, world.directory, old(world.Now()), l.audio, l.lrc, groups, |groups|, world.Now(), lrc)
    ensures world.quiet && !action.Reconciling? ==> world.Now() == old(world.Now()) && lrc == l.lrc
  {
    hide *;
    NothingShifts(world.trace);
    if !action.Reconciling? {
      return Ok(()), l.lrc, [], world.trace;
    }
    ghost var before := world.trace;
    HistoryOf(world);
    ghost var moves;
    r, lrc, groups, moves, gathered := Reconcile(world, l.audio, l.lrc);
    HistoryOf(world);
    ReconciledIsListed(world.directory, l.audio, l.lrc, groups, moves, lrc, before, world.trace);
  }

  /** The pass ended before it listed anything: the service stops, or the directory is not eligible or gone. */
  ghost predicate LeftAtOnce(before: seq<Moment>, after: seq<Moment>) {
    && Looks(before, after) && |before| < |after|
    && var last := after[|after| - 1].actor; last.Leaves? && !last.cause.Broken?
  }

  /**
   The pass to its end: it listed exactly what was found to count, in reconciling mode it gave each group that
   could be read its turn, it processed each group once and to its end, and it dealt with every unpaired
   sidecar, unless the service stopped.
   */
  ghost predicate Passes(directory: Directory, action: OrphanAction, before: seq<Moment>, after: seq<Moment>, trail: Trail,
    changed: bool)
  {
    var l, rest := trail.listing, trail.lrc - Names(trail.order);
    && |before| <= trail.listed < trail.from <= trail.to <= |after|
    && Classified(directory, after, trail.listed, l)
    && (if action.Reconciling? then
          && trail.listed < trail.gathered <= trail.from && Listed(l.audio, trail.groups)
          && GatheredFrom(l.audio, trail.groups, l.audio.Keys, trail.listed, after[..trail.gathered])
          && TurnsTaken(l.audio, l.lrc, trail.groups, |trail.groups|, after[..trail.gathered], after[..trail.from], trail.lrc)
        else trail.lrc == l.lrc)
    && GroupsPassed(trail.order, l.audio, trail.lrc, after[..trail.from], after[..trail.to], changed)
    && AllPassed(l.audio, trail.order, after[..trail.to], after)
    && AllDisposed(rest, rest.Keys - l.reserved, trail.disposed, after[..trail.to], after)
    && (forall k :: 0 <= k < |trail.disposed| ==> DealtWith(after[..trail.to], after, trail.disposed[k], action))
  }

  /** How a pass over a directory may end. */
  ghost predicate Answered(directory: Directory, action: OrphanAction, before: seq<Moment>, after: seq<Moment>, trail: Trail,
    r: Result<bool>)
  {
    match r
    case Err => Stuck(before, after)
    case Ok(changed) => (!changed && LeftAtOnce(before, after)) || Passes(directory, action, before, after, trail, changed)
  }

  /** A pass that listed the directory asks for a fresh one exactly if a group was in doubt. */
  lemma PassAsksExactly(directory: Directory, action: OrphanAction, before: seq<Moment>, after: seq<Moment>, trail: Trail,
    changed: bool)
    requires Passes(directory, action, before, after, trail, changed)
    ensures changed <==> exists k :: trail.from <= k < trail.to && after[k].actor.Doubts?
  {
    hide GroupsPassed, AllPassed, AllDisposed, Classified, DealtWith, TurnsTaken, GatheredFrom;
    RerunMeansDoubt(trail.order, trail.listing.audio, trail.lrc, after[..trail.from], after[..trail.to], changed);
    if k :| trail.from <= k < trail.to && after[k].actor.Doubts? {
      assert after[..trail.to][k].actor.Doubts?;
    }
  }

  lemma LeavesAtOnce(directory: Directory, before: seq<Moment>, middle: seq<Moment>, after: seq<Moment>, cause: Cause,
    action: OrphanAction, trail: Trail)
    requires Looks(before, middle) && Ends(middle, after, Leaves(cause)) && !cause.Broken?
    ensures Answered(directory, action, before, after, trail, Ok(false)) && Behaves(before, after, action)
  {
    hide Passes;
    EndsIsLooks(middle, after, Leaves(cause));
    LooksOn(before, middle, after);
  }

  lemma StuckAnswers(directory: Directory, action: OrphanAction, before: seq<Moment>, after: seq<Moment>, trail: Trail)
    requires Stuck(before, after)
    ensures Answered(directory, action, before, after, trail, Err)
  {
    hide Stuck;
  }

  lemma PassIs(directory: Directory, action: OrphanAction, before: seq<Moment>, listing: seq<Moment>, gathered: seq<Moment>,
    start: seq<Moment>, passed: seq<Moment>, processed: seq<Moment>, after: seq<Moment>, trail: Trail, rest: map<string, seq<Path>>, changed: bool)
    requires before <= listing <= gathered <= start <= passed <= processed <= after && |before| <= trail.listed < |listing|
    requires Classified(directory, listing, trail.listed, trail.listing)
    requires if action.Reconciling? then Listed(trail.listing.audio, trail.groups)
        && GatheredFrom(trail.listing.audio, trail.groups, trail.listing.audio.Keys, |listing|, gathered)
        && TurnsTaken(trail.listing.audio, trail.listing.lrc, trail.groups, |trail.groups|, gathered, start, trail.lrc)
      else trail.lrc == trail.listing.lrc
    requires trail.gathered == |gathered| && trail.from == |start| && trail.to == |passed|
    requires GroupsPassed(trail.order, trail.listing.audio, trail.lrc, start, passed, changed)
    requires AllPassed(trail.listing.audio, trail.order, passed, processed)
    requires rest == trail.lrc - Names(trail.order)
    requires AllDisposed(rest, rest.Keys - trail.listing.reserved, trail.disposed, processed, after)
    requires forall k :: 0 <= k < |trail.disposed| ==> DealtWith(processed, after, trail.disposed[k], action)
    ensures Answered(directory, action, before, after, trail, Ok(changed))
  {
    assert after[..trail.gathered] == gathered && after[..trail.from] == start && after[..trail.to] == passed;
    if action.Reconciling? {
      GatheredSince(trail.listing.audio, trail.groups, trail.listing.audio.Keys, |listing|, trail.listed, gathered);
    }
    ClassifiedLasts(directory, listing, after, trail.listed, trail.listing);
    StoppedLasts(passed, processed, after);
    forall k | 0 <= k < |trail.disposed| ensures DealtWith(passed, after, trail.disposed[k], action) {
      DealtEarlier(passed, processed, after, trail.disposed[k], action);
    }
    hide GroupsPassed, Classified, DealtWith, Stopped, Names, Members, Unpaired, TurnsTaken, GatheredFrom, Listed;
  }

  lemma GatheredSince(audio: map<string, seq<Path>>, groups: seq<Gathered>, stems: set<string>, late: nat, early: nat,
    trace: seq<Moment>)
    requires GatheredFrom(audio, groups, stems, late, trace) && early <= late
    ensures GatheredFrom(audio, groups, stems, early, trace)
  {
    hide TrackTags.Normalized;
    forall i | 0 <= i < |groups| ensures GroupRead(trace, early, audio[groups[i].stem], groups[i].tags) {
      var marks :| NormalMarks(trace, late, audio[groups[i].stem], groups[i].tags, marks);
      assert NormalMarks(trace, early, audio[groups[i].stem], groups[i].tags, marks);
    }
    forall stem | stem in stems && stem in audio ensures Named(groups, stem) || LeftOut(trace, early, audio[stem]) {
      if LeftOut(trace, late, audio[stem]) {
        var k :| late <= k < |trace| && GivesUp(trace[k].actor, audio[stem]);
      }
    }
  }

  /**
   The pass of a directory's sole owner. Whatever the others do and wherever it stops, its history is
   fair, and orphans go only in the mode that asks for it and on the grounds of this very pass. It processes
   each listed group once and to its end, unless the service stops, and asks for a fresh pass exactly if one
   of them was in doubt. In a quiet world it does what `QuietDirectory` says.
   */
  method ProcessDirectory(world: World, action: OrphanAction) returns (r: Result<bool>, ghost trail: Trail)
    requires world.Valid()
    modifies world, world.db
    ensures world.Valid() && Behaves(old(world.trace), world.trace, action)
    ensures Answered(world.directory, action, old(world.trace), world.trace, trail, r)
    ensures world.quiet && r.Ok? ==>
      QuietDirectory(world.answers, world.directory, world.db.retry, action, old(world.Now()), trail, world.Now(), r.value)
  {
    hide *;
    ghost var start, before := world.Now(), world.trace;
    trail := Trail(0, Listing({}, map[], map[]), 0, [], map[], 0, start, [], 0, start, []);
    NothingYet(before, action);
    Nothing(before);
    var cancelled := world.Cancelled();
    if cancelled {
      LeavesAtOnce(world.directory, before, before, world.trace, Stopping, action, trail);
      return Ok(false), trail;
    }
    var admitted := world.Admitted();
    if !admitted {
      LeavesAtOnce(world.directory, before, before, world.trace, Excluded, action, trail);
      return Ok(false), trail;
    }
    var read;
    ghost var listed;
    read, listed := List(world);
    BehavesOver(before, before, world.trace, action);
    BehavesGrows(before, world.trace, action);
    if read.Err? {
      StuckAnswers(world.directory, action, before, world.trace, trail);
      return Err, trail;
    }
    if read.value.None? {
      LeavesAtOnce(world.directory, before, before, world.trace, Gone, action, trail);
      return Ok(false), trail;
    }
    var l := read.value.value;
    ghost var listing := world.trace;
    IsListed(world.directory, listing, listed, l);
    var reconciled, lrc;
    ghost var groups;
    ghost var gathered;
    reconciled, lrc, groups, gathered := MaybeReconcile(world, l, action);
    BehavesOver(before, listing, world.trace, action);
    ShiftsGrow(listing, world.trace);
    if reconciled.Err? {
      StuckOn(before, listing, world.trace);
      StuckAnswers(world.directory, action, before, world.trace, trail);
      return Err, trail;
    }
    ListedAsStays(listing, world.trace, listed, l.reserved);
    ghost var moved, middle := world.Now(), world.trace;
    var changed, rest;
    ghost var order, passed;
    changed, rest, order, passed := ProcessGroups(world, l.audio, lrc);
    BehavesOver(before, middle, world.trace, action);
    SparesOrphansGrows(middle, world.trace);
    ListedAsStays(middle, world.trace, listed, l.reserved);
    ghost var now, processed := world.Now(), world.trace;
    var disposed;
    ghost var orphans;
    disposed, orphans := DisposeOfAll(world, rest, l.reserved, action, listed, before);
    if disposed.Err? {
      StuckOn(before, processed, world.trace);
      StuckAnswers(world.directory, action, before, world.trace, trail);
      return Err, trail;
    }
    trail := Trail(listed, l, |gathered|, groups, lrc, |middle|, moved, order, |passed|, now, orphans);
    PassIs(world.directory, action, before, listing, gathered, middle, passed, processed, world.trace, trail, rest, changed);
    if world.quiet {
      TrailIsQuiet(world.answers, world.directory, world.db.retry, action, start, trail, rest, world.Now(), changed);
    }
    return Ok(changed), trail;
  }

  lemma BehavesGrows(before: seq<Moment>, after: seq<Moment>, action: OrphanAction)
    requires Behaves(before, after, action)
    ensures before <= after
  {
  }

  lemma SparesOrphansGrows(before: seq<Moment>, after: seq<Moment>)
    requires SparesOrphans(before, after)
    ensures before <= after
  {
  }

  lemma IsListed(directory: Directory, trace: seq<Moment>, listed: nat, l: Listing)
    requires Classified(directory, trace, listed, l)
    ensures ListedAs(trace, listed, l.reserved) && listed < |trace|
  {
  }

  lemma TrailIsQuiet(
    a: Answers, directory: Directory, retry: int, action: OrphanAction, s: State, trail: Trail,
    rest: map<string, seq<Path>>,
    t: State, changed: bool)
    requires ListsExactly(a, directory, s.files, trail.listing)
    requires AudioListed(directory, trail.listing.audio) && SidecarsListed(directory, trail.listing.lrc)
    requires action.Reconciling? ==>
      && GroupsListed(trail.listing.audio, trail.groups)
      && GroupsExact(a, trail.listing.audio, trail.groups, trail.listing.audio.Keys)
      && QuietTurns(a, directory, s, trail.listing.audio, trail.listing.lrc, trail.groups, |trail.groups|, trail.moved, trail.lrc)
    requires !action.Reconciling? ==> trail.moved == s && trail.lrc == trail.listing.lrc
    requires Names(trail.order) == trail.listing.audio.Keys && |trail.order| == |trail.listing.audio.Keys|
    requires rest == trail.lrc - Names(trail.order)
    requires QuietGroups(a, retry, trail.moved, trail.order, trail.listing.audio, trail.lrc, trail.processed, changed)
    requires Members(trail.disposed) == Unpaired(rest, rest.Keys - trail.listing.reserved)
    requires QuietDisposals(a, directory, action, trail.processed, trail.disposed, t)
    ensures QuietDirectory(a, directory, retry, action, s, trail, t, changed)
  {
    hide ListsExactly, GroupsExact, QuietTurns, Names, QuietGroups, Members, Unpaired, QuietDisposals, GroupsListed,
      AudioListed, SidecarsListed;
  }

  /**
   In every mode but deletion, a pass loses no text: a file that its users leave alone keeps its bytes at
   its own path, a reconciled path of its directory or an archive path, wherever in the pass one looks.
   */
  lemma PassLosesNothing(
    directory: Directory, before: seq<Moment>, after: seq<Moment>, action: OrphanAction, j: nat, path: Path)
    returns (place: Path)
    requires History(directory, after) && before != [] && Behaves(before, after, action) && !action.Deleting?
    requires |before| <= j < |after| && path in before[|before| - 1].state.files && Within(path, directory)
    requires forall k :: |before| <= k <= j && after[k].actor.Others? ==>
      LeftAlone(after[k - 1].state, after[k].state, before[|before| - 1].state.files[path])
    ensures KeptAt(after[j].state, before[|before| - 1].state.files[path], path, place)
  {
    hide History, LeftAlone, KeptAt;
    assert after[|before| - 1] == before[|before| - 1];
    place := NothingIsLost(directory, after, |before| - 1, j, path);
  }

  /**
   The route is checked first: a directory that no longer resolves to its key is not touched. The outcome is
   that of the pass: a retry exactly if it listed the directory and a group was in doubt, and a failure only
   when something failed.
   */
  method ProcessWork(world: World, item: Q.WorkItem, target: Option<Directory>,
    action: OrphanAction) returns (outcome: Q.Outcome, ghost trail: Trail)
    requires world.Valid() && item.key == world.directory
    modifies world, world.db
    ensures world.Valid() && old(world.trace) <= world.trace
    ensures outcome.StaleRoute? <==> target != Some(item.key)
    ensures outcome.StaleRoute? ==> world.trace == old(world.trace)
    ensures !outcome.StaleRoute? ==>
      && Behaves(old(world.trace), world.trace, action)
      && Answered(world.directory, action, old(world.trace), world.trace, trail,
           if outcome.Failed? then Err else Ok(outcome.Retry?))
  {
    hide *;
    ghost var before, start := world.trace, world.Now();
    trail := Trail(0, Listing({}, map[], map[]), 0, [], map[], 0, start, [], 0, start, []);
    if target != Some(item.key) {
      return Q.StaleRoute, trail;
    }
    Nothing(before);
    var eligible := world.Admitted();
    if !eligible {
      LeavesAtOnce(world.directory, before, before, world.trace, Excluded, action, trail);
      BehavesGrows(before, world.trace, action);
      return Q.Complete, trail;
    }
    var changed;
    changed, trail := ProcessDirectory(world, action);
    BehavesGrows(before, world.trace, action);
    return if changed.Err? then Q.Failed else if changed.value then Q.Retry else Q.Complete, trail;
  }
}
