/** What every history of a directory's owner guarantees about what it commits, publishes, moves and removes. */
module Currency {
  import opened Basics
  import opened Tables
  import opened Tags
  import opened Scenes
  import opened Publishing
  import opened SnapshotIndex
  import S = Snapshots
  import Selection

  // ---------------------------------------------------------------------------
  // What single moments say
  // ---------------------------------------------------------------------------

  lemma PrefixIs(trace: seq<Moment>, i: nat)
    requires i <= |trace|
    ensures |trace[..i]| == i && forall j :: 0 <= j < i ==> trace[..i][j] == trace[j]
  {
  }

  lemma WasVouched(directory: Directory, trace: seq<Moment>, i: nat)
    requires History(directory, trace) && 0 < i < |trace|
    ensures Vouched(trace[..i], trace[i].actor) && |trace[..i]| == i
    ensures forall j :: 0 <= j < i ==> trace[..i][j] == trace[j]
  {
    hide *;
    HistoryStep(directory, trace, i);
    PrefixIs(trace, i);
  }

  lemma CheckNotFirst(directory: Directory, trace: seq<Moment>, k: nat)
    requires History(directory, trace) && k < |trace| && !trace[k].actor.Others?
    ensures 0 < k
  {
    hide Proven, Follows;
  }

  /** A look says what is so in its moment. */
  lemma LookIsTrue(directory: Directory, trace: seq<Moment>, k: nat)
    requires History(directory, trace) && k < |trace| && !trace[k].actor.Acts() && !trace[k].actor.Others?
    ensures 0 < k && Learns(trace[k].state, trace[k].actor)
  {
    CheckNotFirst(directory, trace, k);
    HistoryStep(directory, trace, k);
    hide History, Seen, Vouched, Proven, Learns;
  }

  lemma EntriesAreTrue(directory: Directory, trace: seq<Moment>, k: nat)
    requires History(directory, trace) && k < |trace| && (trace[k].actor.Lists? || trace[k].actor.Pairs?)
    ensures trace[k].actor.Lists? ==> trace[k].actor.reserved == Stems(directory, trace[k].scene.entries)
    ensures trace[k].actor.Pairs? ==>
      trace[k].actor.paired == Scenes.Paired(trace[k].scene.entries, directory, trace[k].actor.path)
  {
    hide *;
    CheckNotFirst(directory, trace, k);
    HistoryStep(directory, trace, k);
    SeenEntries(directory, trace[k - 1].scene, trace[k].actor, trace[k].scene);
  }

  lemma SeenEntries(directory: Directory, before: Scene, actor: Actor, after: Scene)
    requires Seen(directory, before, actor, after)
    ensures actor.Lists? ==> actor.reserved == Stems(directory, after.entries)
    ensures actor.Pairs? ==> actor.paired == Scenes.Paired(after.entries, directory, actor.path)
  {
    hide Stems, Scenes.Paired, S.ApplyReader, Beside;
  }

  /** The states before and after an act. */
  lemma ActIsFair(directory: Directory, trace: seq<Moment>, i: nat)
    requires History(directory, trace) && 0 < i < |trace|
    ensures Fair(directory, trace[i - 1].state, trace[i].actor, trace[i].state)
  {
    hide *;
    HistoryStep(directory, trace, i);
  }

  lemma CommitWrites(directory: Directory, before: State, path: Path, tags: TrackTags, result: CachedResult, from: nat,
    checked: nat, after: State)
    requires Fair(directory, before, Commits(path, tags, result, from, checked), after)
    ensures path in after.tables.tracks && after.tables.tracks[path].tags == tags.Normalized()
  {
    hide TrackTags.Normalized;
  }

  lemma IngestWrites(directory: Directory, before: State, path: Path, tags: TrackTags, lyrics: string, from: nat,
    checked: nat, after: State)
    requires Fair(directory, before, Ingests(path, tags, lyrics, from, checked), after)
    ensures path in after.tables.tracks && after.tables.tracks[path].tags == tags.Normalized()
    ensures !StaleGenerated(before.tables, WithLrc(path), tags, lyrics)
  {
    var now :| after == before.(tables := Ingested(before.tables, path, tags, lyrics, now));
    IngestKeepsOrigin(before.tables, path, tags, lyrics, now);
    hide TrackTags.Normalized, Ingested;
  }

  // ---------------------------------------------------------------------------
  // Optimistic checks along a history
  // ---------------------------------------------------------------------------

  lemma MomentRaisesVersion(directory: Directory, before: Scene, actor: Actor, after: Scene, path: Path)
    requires S.Inv(before.snap) && Seen(directory, before, actor, after)
    ensures before.snap.Version(path) <= after.snap.Version(path)
  {
    hide S.Inv, Beside, S.ApplyReader;
    match actor
    case Others => BesideKeeps(directory, before.snap, after.snap);
    case Reads(reading, step) => OwnStepKeeps(before.snap, reading, step);
    case Checks(reading, _, _) => OwnStepKeeps(before.snap, reading, S.AgreeVersion);
    case _ =>
  }

  lemma {:induction false} VersionsRise(directory: Directory, trace: seq<Moment>, i: nat, j: nat, path: Path)
    requires History(directory, trace) && i <= j < |trace|
    ensures trace[i].scene.snap.Version(path) <= trace[j].scene.snap.Version(path)
    decreases j - i
  {
    hide *;
    if i < j {
      VersionsRise(directory, trace, i, j - 1, path);
      SceneMoves(directory, trace, j);
      MomentRaisesVersion(directory, trace[j - 1].scene, trace[j].actor, trace[j].scene, path);
    }
  }

  lemma SceneMoves(directory: Directory, trace: seq<Moment>, j: nat)
    requires History(directory, trace) && 0 < j < |trace|
    ensures S.Inv(trace[j - 1].scene.snap) && Seen(directory, trace[j - 1].scene, trace[j].actor, trace[j].scene)
  {
    HistoryStep(directory, trace, j);
    hide History, Fair, Seen, Vouched, S.Inv, Provenance;
  }

  /** The two comparisons of one reader: its stamp agreed at moment `i`, its version no earlier. */
  lemma AgreementHolds(directory: Directory, trace: seq<Moment>, i: nat, j: nat, path: Path)
    requires History(directory, trace) && i <= j < |trace|
    requires path in trace[i].scene.snap.readers && Scenes.Carries(trace[i].scene.snap.readers[path])
    requires S.Inv(trace[i].scene.snap) && trace[i].scene.snap.disk.Valid()
    requires trace[i].scene.snap.disk.Shows(path, trace[i].scene.snap.readers[path].row.stamp)
    requires trace[j].scene.snap.Version(path) == trace[i].scene.snap.readers[path].row.version
    ensures var s := trace[i].scene.snap;
      path in s.disk.link && (s.Content(path) == s.readers[path].row.value || s.Excused(path))
  {
    VersionsRise(directory, trace, i, j, path);
    hide History, S.Inv, S.System.Excused;
    AgreementIsExact(trace[i].scene.snap, path, trace[j].scene.snap.Version(path));
  }

  /** What an exact snapshot of a recording says about the tags. */
  lemma ExactIsCurrent(s: S.System, path: Path, tags: TrackTags)
    requires s.disk.Valid() && path in s.disk.link && (s.Content(path) == S.Recording(tags) || s.Excused(path))
    ensures Scenes.Current(s, path, tags.Normalized())
  {
    hide TrackTags.Normalized, S.System.Owed;
  }

  /** What one step of a reader that has its row already tells, if the reader survives it. */
  lemma StepTells(directory: Directory, trace: seq<Moment>, k: nat, path: Path, step: S.ReaderStep)
    requires History(directory, trace) && Steps(trace, k, path, step) && !step.Begin? && !step.Drop?
    ensures S.Inv(trace[k - 1].scene.snap) && S.Inv(trace[k].scene.snap) && trace[k].scene.snap.disk == trace[k - 1].scene.snap.disk
    ensures var before, after := trace[k - 1].scene.snap.readers[path], trace[k].scene.snap.readers[path];
      && (step.RecheckStamp? && before.Got? ==> trace[k].scene.snap.disk.Shows(path, after.row.stamp))
      && (step.AgreeStamp? && before.Held? ==> trace[k].scene.snap.disk.Shows(path, after.row.stamp))
      && (step.RecheckVersion? && before.Restamped? ==> trace[k].scene.snap.Version(path) == after.row.version)
  {
    HistoryStep(directory, trace, k);
    hide History, Fair, Vouched, Provenance;
    var s := trace[k - 1].scene.snap;
    OwnStepKeeps(s, path, step);
    assert s.disk.Valid();
    hide S.Inv;
    ReaderMoves(s, path, step);
    hide S.ApplyReader;
  }

  lemma StampAgreed(directory: Directory, trace: seq<Moment>, k: nat, path: Path, step: S.ReaderStep)
    requires History(directory, trace) && Steps(trace, k, path, step)
    requires path in trace[k - 1].scene.snap.readers && path in trace[k].scene.snap.readers
    requires (step.RecheckStamp? && trace[k - 1].scene.snap.readers[path].Got?)
      || (step.AgreeStamp? && trace[k - 1].scene.snap.readers[path].Held?)
    requires Scenes.Carries(trace[k].scene.snap.readers[path])
    ensures S.Inv(trace[k].scene.snap) && trace[k].scene.snap.disk.Valid()
    ensures trace[k].scene.snap.disk.Shows(path, trace[k].scene.snap.readers[path].row.stamp)
  {
    StepTells(directory, trace, k, path, step);
    hide History, Steps;
  }

  lemma VersionAgreed(directory: Directory, trace: seq<Moment>, k: nat, path: Path)
    requires History(directory, trace) && Steps(trace, k, path, S.RecheckVersion)
    requires path in trace[k - 1].scene.snap.readers && path in trace[k].scene.snap.readers
    requires trace[k - 1].scene.snap.readers[path].Restamped? && Scenes.Carries(trace[k].scene.snap.readers[path])
    ensures trace[k].scene.snap.Version(path) == trace[k].scene.snap.readers[path].row.version
  {
    StepTells(directory, trace, k, path, S.RecheckVersion);
    hide History, Steps, S.Inv;
  }

  /**
   A successful check of `still_current` means it: at its stamp comparison the audio held exactly the tags
   that were read, or a change of it was outstanding, or one that nothing covers.
   */
  lemma CheckedWasCurrent(directory: Directory, trace: seq<Moment>, k: nat)
    requires History(directory, trace) && 0 < k < |trace| && trace[k].actor.Checks?
    ensures var path, i := trace[k].actor.path, trace[k].actor.stamped;
      && i < k && trace[i].actor == Reads(path, S.AgreeStamp) && trace[i].scene.snap.disk.Valid()
      && Scenes.Current(trace[i].scene.snap, path, trace[k].actor.tags.Normalized())
  {
    hide *;
    var path, i := trace[k].actor.path, trace[k].actor.stamped;
    WasVouched(directory, trace, k);
    CheckNeeds(trace, k);
    StampAgreed(directory, trace, i, path, S.AgreeStamp);
    CheckAgrees(directory, trace, k);
    AgreementHolds(directory, trace, i, k - 1, path);
    ExactIsCurrent(trace[i].scene.snap, path, trace[k].actor.tags);
  }

  lemma CheckNeeds(trace: seq<Moment>, k: nat)
    requires 0 < k < |trace| && trace[k].actor.Checks? && Vouched(trace[..k], trace[k].actor)
    ensures var path, i := trace[k].actor.path, trace[k].actor.stamped;
      && i < k && Steps(trace, i, path, S.AgreeStamp) && trace[i].actor == Reads(path, S.AgreeStamp)
      && SameRow(trace[i], trace[k - 1], path) && path in trace[i].scene.snap.readers && Scenes.Carries(trace[i].scene.snap.readers[path])
      && path in trace[i - 1].scene.snap.readers && trace[i - 1].scene.snap.readers[path].Held?
      && path in trace[k - 1].scene.snap.readers && trace[k - 1].scene.snap.readers[path].Agreed?
      && trace[k - 1].scene.snap.readers[path].row == trace[i].scene.snap.readers[path].row
  {
    PrefixIs(trace, k);
    hide TrackTags.Normalized;
  }

  /** The version comparison that ends a check. */
  lemma CheckAgrees(directory: Directory, trace: seq<Moment>, k: nat)
    requires History(directory, trace) && 0 < k < |trace| && trace[k].actor.Checks?
    requires trace[k].actor.path in trace[k - 1].scene.snap.readers && trace[k - 1].scene.snap.readers[trace[k].actor.path].Agreed?
    ensures var row := trace[k - 1].scene.snap.readers[trace[k].actor.path].row;
      trace[k - 1].scene.snap.Version(trace[k].actor.path) == row.version && row.value == S.Recording(trace[k].actor.tags)
  {
    HistoryStep(directory, trace, k);
    var s := trace[k - 1].scene.snap;
    assert s.disk.Valid();
    hide History, Fair, Vouched, Proven, S.Inv;
    ReaderMoves(s, trace[k].actor.path, S.AgreeVersion);
    hide S.ApplyReader;
  }

  /** Both comparisons of a reader succeeded, at `i` and at `v`. */
  ghost predicate Twice(trace: seq<Moment>, i: nat, v: nat, path: Path) {
    && i < v && Steps(trace, i, path, S.RecheckStamp) && Steps(trace, v, path, S.RecheckVersion)
    && SameRow(trace[i], trace[v], path)
    && trace[i - 1].scene.snap.readers[path].Got? && trace[v - 1].scene.snap.readers[path].Restamped?
  }

  /** Then the file held exactly its snapshot at the stamp comparison, or a change of it was excused. */
  lemma RecheckedIsExact(directory: Directory, trace: seq<Moment>, i: nat, v: nat, path: Path)
    requires History(directory, trace) && Twice(trace, i, v, path)
    ensures 0 < i < |trace| && trace[i].scene.snap.disk.Valid() && path in trace[i].scene.snap.readers
    ensures Scenes.Carries(trace[i].scene.snap.readers[path])
    ensures var s := trace[i].scene.snap;
      && path in s.disk.link && s.disk.Shows(path, s.readers[path].row.stamp)
      && (s.Content(path) == s.readers[path].row.value || s.Excused(path))
  {
    hide *;
    TwiceMeans(trace, i, v, path);
    StampAgreed(directory, trace, i, path, S.RecheckStamp);
    VersionAgreed(directory, trace, v, path);
    AgreementHolds(directory, trace, i, v, path);
  }

  lemma TwiceMeans(trace: seq<Moment>, i: nat, v: nat, path: Path)
    requires Twice(trace, i, v, path)
    ensures 0 < i < v < |trace| && Steps(trace, i, path, S.RecheckStamp) && Steps(trace, v, path, S.RecheckVersion)
    ensures path in trace[i].scene.snap.readers && Scenes.Carries(trace[i].scene.snap.readers[path])
    ensures path in trace[i - 1].scene.snap.readers && trace[i - 1].scene.snap.readers[path].Got?
    ensures path in trace[v].scene.snap.readers && Scenes.Carries(trace[v].scene.snap.readers[path])
    ensures path in trace[v - 1].scene.snap.readers && trace[v - 1].scene.snap.readers[path].Restamped?
    ensures trace[v].scene.snap.readers[path].row == trace[i].scene.snap.readers[path].row
  {
  }

  /** A finished reading means it too: at its second stamp comparison the audio held exactly these tags, or was excused. */
  lemma ConfirmedWasCurrent(directory: Directory, trace: seq<Moment>, k: nat)
    requires History(directory, trace) && 0 < k < |trace| && trace[k].actor.Confirms?
    ensures var path, i := trace[k].actor.path, trace[k].actor.stamped;
      && i < k && trace[i].actor == Reads(path, S.RecheckStamp) && trace[i].scene.snap.disk.Valid()
      && Scenes.Current(trace[i].scene.snap, path, trace[k].actor.tags.Normalized())
  {
    hide *;
    var path, i, v := trace[k].actor.path, trace[k].actor.stamped, trace[k].actor.versioned;
    WasVouched(directory, trace, k);
    ConfirmationHolds(directory, trace, k);
    ConfirmationNeeds(trace, k);
    RecheckedIsExact(directory, trace, i, v, path);
    ExactIsCurrent(trace[i].scene.snap, path, trace[k].actor.tags);
  }

  lemma ConfirmationHolds(directory: Directory, trace: seq<Moment>, k: nat)
    requires History(directory, trace) && 0 < k < |trace| && trace[k].actor.Confirms?
    ensures HoldsTags(trace[k - 1].scene.snap, trace[k].actor.path, trace[k].actor.tags)
  {
    HistoryStep(directory, trace, k);
    hide History, Fair, Vouched, Proven, HoldsTags;
  }

  lemma ConfirmationNeeds(trace: seq<Moment>, k: nat)
    requires 0 < k < |trace| && trace[k].actor.Confirms? && Vouched(trace[..k], trace[k].actor)
    requires HoldsTags(trace[k - 1].scene.snap, trace[k].actor.path, trace[k].actor.tags)
    ensures var path, i, v := trace[k].actor.path, trace[k].actor.stamped, trace[k].actor.versioned;
      && Twice(trace, i, v, path) && 0 < i < v < k && trace[i].actor == Reads(path, S.RecheckStamp)
      && path in trace[i].scene.snap.readers && Scenes.Carries(trace[i].scene.snap.readers[path])
      && trace[i].scene.snap.readers[path].row.value == S.Recording(trace[k].actor.tags)
  {
    PrefixIs(trace, k);
    hide TrackTags.Normalized;
  }

  // ---------------------------------------------------------------------------
  // Sidecars
  // ---------------------------------------------------------------------------

  /**
   The sidecar stood there with this text, or it was a user's file of which a change was outstanding or
   uncovered: nobody had raised its version yet.
   */
  ghost predicate WasHeld(moment: Moment, path: Path, text: string) {
    path in moment.state.files
    && (moment.state.files[path].content == Text(text)
        || (moment.scene.snap.Excused(path) && moment.state.files[path].owner == User))
  }

  /** What `TakenWasHeld` says of one reading. */
  ghost predicate TakenAt(trace: seq<Moment>, k: nat, path: Path, text: string, i: nat) {
    && i < k < |trace| && trace[i].actor == Reads(path, S.RecheckStamp) && WasHeld(trace[i], path, text)
    && trace[k].actor.Takes? && trace[k].actor.stamped == i
    && (trace[k].actor.exact <==> !trace[i].scene.snap.Excused(path))
    && (trace[k].actor.exact ==> trace[i].state.files[path].content == Text(text))
  }

  /**
   A finished reading of a sidecar: at its second stamp comparison the file held exactly this text, unless a
   change of a user's file was outstanding or uncovered then. What the daemon wrote is never misread.
   */
  lemma TakenWasHeld(directory: Directory, trace: seq<Moment>, k: nat)
    requires History(directory, trace) && 0 < k < |trace| && trace[k].actor.Takes?
    ensures IsSidecar(trace[k].actor.path) && Within(trace[k].actor.path, directory)
    ensures TakenAt(trace, k, trace[k].actor.path, trace[k].actor.text, trace[k].actor.stamped)
  {
    hide *;
    var Takes(path, text, _, i, v) := trace[k].actor;
    WasVouched(directory, trace, k);
    TextHolds(directory, trace, k);
    TakingNeeds(trace, k);
    RecheckedIsExact(directory, trace, i, v, path);
    MomentIsLinked(directory, trace, i);
    HeldThen(directory, trace[i], path, text);
    TakenIs(trace, k, path, text, i);
  }

  lemma TakenIs(trace: seq<Moment>, k: nat, path: Path, text: string, i: nat)
    requires i < k < |trace| && trace[i].actor == Reads(path, S.RecheckStamp) && WasHeld(trace[i], path, text)
    requires trace[k].actor.Takes? && trace[k].actor.stamped == i
    requires trace[k].actor.exact <==> !trace[i].scene.snap.Excused(path)
    ensures TakenAt(trace, k, path, text, i)
  {
    hide S.System.Excused;
  }

  lemma TextHolds(directory: Directory, trace: seq<Moment>, k: nat)
    requires History(directory, trace) && 0 < k < |trace| && trace[k].actor.Takes?
    ensures HoldsLyrics(trace[k - 1].scene.snap, trace[k].actor.path, trace[k].actor.text)
    ensures IsSidecar(trace[k].actor.path) && Within(trace[k].actor.path, directory)
  {
    HistoryStep(directory, trace, k);
    hide History, Fair, Vouched, Proven, HoldsLyrics;
  }

  lemma TakingNeeds(trace: seq<Moment>, k: nat)
    requires 0 < k < |trace| && trace[k].actor.Takes? && Vouched(trace[..k], trace[k].actor)
    requires HoldsLyrics(trace[k - 1].scene.snap, trace[k].actor.path, trace[k].actor.text)
    ensures var Takes(path, text, exact, i, v) := trace[k].actor;
      && Twice(trace, i, v, path) && 0 < i < v < k && trace[i].actor == Reads(path, S.RecheckStamp)
      && path in trace[i].scene.snap.readers && Scenes.Carries(trace[i].scene.snap.readers[path])
      && trace[i].scene.snap.readers[path].row.value == S.Lyrics(text)
      && (exact <==> !trace[i].scene.snap.Excused(path))
  {
    PrefixIs(trace, k);
    hide S.System.Excused;
  }

  lemma MomentIsLinked(directory: Directory, trace: seq<Moment>, i: nat)
    requires History(directory, trace) && i < |trace|
    ensures Linked(directory, trace[i].state.files, trace[i].scene.snap)
  {
    assert Proven(directory, trace[i]);
    hide Follows, Provenance, S.Inv, Linked;
  }

  /** What a snapshot of a sidecar says about the file that stands there. */
  lemma HeldThen(directory: Directory, moment: Moment, path: Path, text: string)
    requires Linked(directory, moment.state.files, moment.scene.snap) && IsSidecar(path) && Within(path, directory)
    requires var s := moment.scene.snap; s.disk.Valid() && path in s.readers && Scenes.Carries(s.readers[path])
    requires var s := moment.scene.snap; s.readers[path].row.value == S.Lyrics(text)
    requires var s := moment.scene.snap;
      s.disk.Shows(path, s.readers[path].row.stamp) && (s.Content(path) == s.readers[path].row.value || s.Excused(path))
    ensures WasHeld(moment, path, text)
  {
    hide S.System.Excused;
    assert path in moment.scene.snap.disk.link;
    assert Mirrored(moment.state.files, moment.scene.snap.disk, path);
    if moment.state.files[path].owner == Daemon {
      assert Owns(directory, moment.state.files, path) && Faithful(moment.scene.snap, path);
    }
  }

  /** A file that was read and archived or moved later is what was read, unless it was replaced in between. */
  ghost predicate StillThat(moment: Moment, before: State, path: Path, text: string) {
    path in before.files
    && (before.files[path].content == Text(text) || before.files[path].id >= moment.state.nextId
        || moment.scene.snap.Excused(path))
  }

  /**
   A reading that is finished has told the queue what its store did: right before it ended, exactly the aliases
   whose versions the store raised were submitted, by their directories.
   */
  lemma DisplacedAreSubmitted(directory: Directory, trace: seq<Moment>, k: nat)
    requires History(directory, trace) && 0 < k < |trace| && (trace[k].actor.Confirms? || trace[k].actor.Takes?)
    ensures k > 2 && trace[k - 2].actor == Reads(trace[k].actor.path, S.Store) && trace[k - 1].actor.Submits?
    ensures var s, t := trace[k - 3].scene.snap, trace[k - 2].scene.snap;
      forall other :: t.Version(other) == s.Version(other) + (if other in trace[k - 1].actor.displaced then 1 else 0)
  {
    hide *;
    WasVouched(directory, trace, k);
    SubmissionNeeds(trace, k);
    SceneMoves(directory, trace, k - 2);
    StoreRaises(directory, trace[k - 3].scene, trace[k].actor.path, trace[k - 2].scene);
  }

  lemma SubmissionNeeds(trace: seq<Moment>, k: nat)
    requires 0 < k < |trace| && (trace[k].actor.Confirms? || trace[k].actor.Takes?) && Vouched(trace[..k], trace[k].actor)
    ensures k > 2 && trace[k - 2].actor == Reads(trace[k].actor.path, S.Store)
    ensures trace[k - 1].actor == Submits(trace[k].actor.path, Leftover(trace[k - 3].scene.snap, trace[k].actor.path))
  {
    PrefixIs(trace, k);
    hide Rechecked, Leftover, Settled;
  }

  /** The store of a reader raises exactly the versions of the aliases it displaces. */
  lemma StoreRaises(directory: Directory, before: Scene, path: Path, after: Scene)
    requires Seen(directory, before, Reads(path, S.Store), after)
    ensures forall other :: after.snap.Version(other) == before.snap.Version(other) + (if other in Leftover(before.snap, path) then 1 else 0)
  {
    if S.Stores(before.snap, path, S.Store) {
      IndexFileRaises(before.snap.index, path, before.snap.readers[path].row.stamp.inode);
    }
    hide IndexFile, Displaced, Index.FileVersion, S.Advance;
  }

  // ---------------------------------------------------------------------------
  // Commits and publications
  // ---------------------------------------------------------------------------

  /** What `CommitsAreCurrent` says of one commit. */
  ghost predicate CommittedCurrent(directory: Directory, trace: seq<Moment>, i: nat)
    requires 0 < i < |trace| && trace[i].actor.Commits?
  {
    var path, k := trace[i].actor.path, trace[i].actor.checked; var rows := trace[i].state.tables.tracks;
      && k < i && trace[k].actor.Checks? && trace[k].actor.path == path
      && var stamped := trace[k].actor.stamped;
         && stamped < k && trace[stamped].scene.snap.disk.Valid()
         && path in rows && Scenes.Current(trace[stamped].scene.snap, path, rows[path].tags)
         && (forall j :: stamped <= j < i ==> !trace[j].actor.Supplies())
  }

  /**
   Commits are for the current recording. The row carries the tags that the audio held at the stamp
   comparison of a check that succeeded before, unless a change of it was outstanding or uncovered then;
   and that comparison came after every lookup and every question to the cache, so in particular after
   the one that supplied the result.
   */
  lemma CommitsAreCurrent(directory: Directory, trace: seq<Moment>, i: nat)
    requires History(directory, trace) && 0 < i < |trace| && trace[i].actor.Commits?
    ensures CommittedCurrent(directory, trace, i)
  {
    hide History, Follows, Proven, Fair, Seen, Vouched, Supplied, Learns, Scenes.Current, TrackTags.Normalized, SidecarsOf,
      StaleGenerated, RowAllows, Scenes.Paired, WithLrc, Actor.Supplies;
    var Commits(path, tags, result, from, k) := trace[i].actor;
    WasVouched(directory, trace, i);
    CommitNeeds(trace, i);
    CheckNotFirst(directory, trace, k);
    CheckedWasCurrent(directory, trace, k);
    ActIsFair(directory, trace, i);
    CommitWrites(directory, trace[i - 1].state, path, tags, result, from, k, trace[i].state);
  }

  lemma CommitNeeds(trace: seq<Moment>, i: nat)
    requires 0 < i < |trace| && trace[i].actor.Commits? && Vouched(trace[..i], trace[i].actor)
    ensures var Commits(path, tags, result, from, k) := trace[i].actor;
      && k < i && !trace[k].actor.Others? && trace[k].actor.Checks? && trace[k].actor.path == path
      && trace[k].actor.tags.Normalized() == tags.Normalized()
      && (forall j :: trace[k].actor.stamped <= j < i ==> !trace[j].actor.Supplies())
      && from < i && Supplied(trace[..i], path, tags, result, from, trace[k].actor.stamped)
  {
    PrefixIs(trace, i);
    assert Checked(trace[..i][trace[i].actor.checked].actor, trace[i].actor.path, trace[i].actor.tags);
    hide TrackTags.Normalized, Actor.Supplies, LoneBetween, AnswersWith;
    forall j | trace[trace[i].actor.checked].actor.stamped <= j < i ensures !trace[j].actor.Supplies() {
      assert trace[..i][j] == trace[j];
    }
  }

  /** Where lyrics come from: a lookup, the cache, or a lone sidecar that was read. */
  ghost predicate HasSource(trace: seq<Moment>, from: nat, path: Path, tags: TrackTags, lyrics: string, origin: Origin)
    requires from < |trace|
  {
    var s := trace[from].state;
    match trace[from].actor
    case Asks(wanted, answer, _, _) => wanted == tags && answer == Selection.Found(lyrics) && origin == Generated
    case Recalls(lead, _, _) =>
      lead in s.tables.tracks && s.tables.tracks[lead].tags == tags.Normalized() && s.tables.tracks[lead].result == Found(lyrics, origin)
    case Reuses(_, _) => Reusable(s.tables, tags) == Some(lyrics) && origin == Generated
    case Takes(sidecar, _, _, held, _) =>
      origin == Curated && WithLrc(sidecar) == WithLrc(path) && TakenAt(trace, from, sidecar, lyrics, held)
    case _ => false
  }

  /**
   Every committed result was really supplied: a miss is what LRCLib answered when it was asked for exactly
   these tags, and lyrics are what it found, what the cache holds for these tags, or what a sidecar holds.
   */
  lemma CommitsAreSupplied(directory: Directory, trace: seq<Moment>, i: nat)
    requires History(directory, trace) && 0 < i < |trace| && trace[i].actor.Commits?
    ensures var Commits(path, tags, result, from, _) := trace[i].actor;
      && from < i
      && (result.NotFound? ==> trace[from].actor.Asks? && trace[from].actor.tags == tags && trace[from].actor.answer.NotFound?)
      && (result.Instrumental? ==>
            trace[from].actor.Asks? && trace[from].actor.tags == tags && trace[from].actor.answer.Instrumental?)
      && (result.Found? ==> HasSource(trace, from, path, tags, result.lyrics, result.origin))
  {
    hide *;
    var Commits(path, tags, result, from, k) := trace[i].actor;
    WasVouched(directory, trace, i);
    CommitNeeds(trace, i);
    SupplyIsLook(trace, i, path, tags, result, from, trace[k].actor.stamped);
    LookIsTrue(directory, trace, from);
    if trace[from].actor.Takes? { TakenWasHeld(directory, trace, from); }
    SupplyMeans(trace, i, path, tags, result, from, trace[k].actor.stamped);
  }

  lemma SupplyIsLook(trace: seq<Moment>, i: nat, path: Path, tags: TrackTags, result: CachedResult, from: nat, stamped: nat)
    requires from < i <= |trace| && Supplied(trace[..i], path, tags, result, from, stamped)
    ensures !trace[from].actor.Acts() && !trace[from].actor.Others?
  {
    hide TrackTags.Normalized, LoneBetween;
  }

  lemma SupplyMeans(trace: seq<Moment>, i: nat, path: Path, tags: TrackTags, result: CachedResult, from: nat, stamped: nat)
    requires from < i <= |trace| && Supplied(trace[..i], path, tags, result, from, stamped)
    requires Learns(trace[from].state, trace[from].actor)
    requires trace[from].actor.Takes? ==> TakenAt(trace, from, trace[from].actor.path, trace[from].actor.text, trace[from].actor.stamped)
    ensures result.NotFound? ==> trace[from].actor.Asks? && trace[from].actor.tags == tags && trace[from].actor.answer.NotFound?
    ensures result.Instrumental? ==>
      trace[from].actor.Asks? && trace[from].actor.tags == tags && trace[from].actor.answer.Instrumental?
    ensures result.Found? ==> HasSource(trace, from, path, tags, result.lyrics, result.origin)
  {
    assert trace[..i][from] == trace[from];
    hide TrackTags.Normalized, LoneBetween, BlankText, Reusable, SidecarsOf, TakenAt;
  }

  /** LRCLib is asked only when, just before, the cache knew nothing that could be used. */
  lemma LookupsWereNeeded(directory: Directory, trace: seq<Moment>, i: nat)
    requires History(directory, trace) && 0 < i < |trace| && trace[i].actor.Asks?
    ensures var Asks(tags, _, j, k) := trace[i].actor;
      && j < k < i && trace[j].actor.Recalls? && trace[j].actor.tags == tags
      && RowAnswers(trace[j].state.tables, trace[j].actor.path, tags, None)
      && Reusable(trace[k].state.tables, tags).None?
      && forall m :: j < m < i && m != k ==> trace[m].actor.Others?
  {
    hide *;
    var Asks(tags, _, j, k) := trace[i].actor;
    WasVouched(directory, trace, i);
    LookupNeeds(trace, i);
    LookIsTrue(directory, trace, j);
    LookIsTrue(directory, trace, k);
    LookupMeans(trace, i);
  }

  lemma LookupNeeds(trace: seq<Moment>, i: nat)
    requires 0 < i < |trace| && trace[i].actor.Asks? && Vouched(trace[..i], trace[i].actor)
    ensures var Asks(tags, _, j, k) := trace[i].actor;
      && j < k < i && trace[j].actor.Recalls? && trace[j].actor.tags == tags && trace[j].actor.known.None?
      && trace[k].actor == Reuses(tags, None) && !trace[j].actor.Others? && !trace[k].actor.Others?
      && !trace[j].actor.Acts() && !trace[k].actor.Acts()
      && forall m :: j < m < i && m != k ==> trace[m].actor.Others?
  {
    PrefixIs(trace, i);
    var Asks(tags, _, j, k) := trace[i].actor;
    forall m | j < m < i && m != k ensures trace[m].actor.Others? {
      assert trace[..i][m] == trace[m];
    }
  }

  lemma LookupMeans(trace: seq<Moment>, i: nat)
    requires i < |trace| && trace[i].actor.Asks?
    requires var Asks(tags, _, j, k) := trace[i].actor;
      && j < k < i && trace[j].actor.Recalls? && trace[j].actor.tags == tags && trace[j].actor.known.None?
      && trace[k].actor == Reuses(tags, None)
      && Learns(trace[j].state, trace[j].actor) && Learns(trace[k].state, trace[k].actor)
    ensures var Asks(tags, _, j, k) := trace[i].actor;
      && RowAnswers(trace[j].state.tables, trace[j].actor.path, tags, None) && Reusable(trace[k].state.tables, tags).None?
  {
    hide Reusable, RowAnswers;
  }

  /** What `IngestsAreCurrent` says of one ingestion. */
  ghost predicate IngestedCurrent(directory: Directory, trace: seq<Moment>, i: nat)
    requires 0 < i < |trace| && trace[i].actor.Ingests?
  {
    var Ingests(path, tags, lyrics, from, k) := trace[i].actor; var rows := trace[i].state.tables.tracks;
      && k < from < i && trace[k].actor.Confirms? && trace[k].actor.path == path
      && trace[k].actor.stamped < k && trace[trace[k].actor.stamped].scene.snap.disk.Valid() && path in rows
      && Scenes.Current(trace[trace[k].actor.stamped].scene.snap, path, rows[path].tags)
      && trace[from].actor.Takes? && k < trace[from].actor.stamped && WithLrc(trace[from].actor.path) == WithLrc(path)
      && TakenAt(trace, from, trace[from].actor.path, lyrics, trace[from].actor.stamped)
      && !StaleGenerated(trace[i - 1].state.tables, WithLrc(path), tags, lyrics)
  }

  /**
   Ingestions are for the current recording and with the sidecar's text: the tags are those that the audio
   held when its reading was checked, unless excused, and the text is exactly what the sidecar held at a
   stamp comparison after that, unless a change of a user's file was outstanding or uncovered then. What is
   ingested is never a text on record as generated for another recording.
   */
  lemma IngestsAreCurrent(directory: Directory, trace: seq<Moment>, i: nat)
    requires History(directory, trace) && 0 < i < |trace| && trace[i].actor.Ingests?
    ensures IngestedCurrent(directory, trace, i)
  {
    hide History, Follows, Proven, Fair, Seen, Vouched, Supplied, Learns, Scenes.Current, TrackTags.Normalized, SidecarsOf,
      StaleGenerated, RowAllows, Scenes.Paired, WithLrc, Actor.Supplies, TakenAt;
    var Ingests(path, tags, lyrics, from, k) := trace[i].actor;
    WasVouched(directory, trace, i);
    IngestNeeds(trace, i);
    CheckNotFirst(directory, trace, k);
    ConfirmedWasCurrent(directory, trace, k);
    TakenWasHeld(directory, trace, from);
    ActIsFair(directory, trace, i);
    IngestWrites(directory, trace[i - 1].state, path, tags, lyrics, from, k, trace[i].state);
  }

  lemma IngestNeeds(trace: seq<Moment>, i: nat)
    requires 0 < i < |trace| && trace[i].actor.Ingests? && Vouched(trace[..i], trace[i].actor)
    ensures var Ingests(path, tags, lyrics, from, k) := trace[i].actor;
      && k < from < i && trace[k].actor.Confirms? && !trace[k].actor.Others? && trace[k].actor.path == path
      && trace[k].actor.tags.Normalized() == tags.Normalized()
      && trace[from].actor.Takes? && k < trace[from].actor.stamped
      && WithLrc(trace[from].actor.path) == WithLrc(path) && trace[from].actor.text == lyrics
  {
    PrefixIs(trace, i);
    hide TrackTags.Normalized;
  }

  /** What `PublicationsAreCurrent` says of one publication. */
  ghost predicate PublishedCurrent(directory: Directory, trace: seq<Moment>, i: nat)
    requires 0 < i < |trace| && trace[i].actor.Creates?
  {
    var path, k, found := trace[i].actor.path, trace[i].actor.checked, trace[i].actor.found;
      var rows := trace[i].state.tables.sidecars;
      && k < found < i && trace[k].actor.Checks? && WithLrc(trace[k].actor.path) == path
      && path in rows && path in trace[i].state.files && trace[i].state.files[path].content == Text(rows[path].lyrics)
      && (var stamped := trace[k].actor.stamped;
          && stamped < k && trace[stamped].scene.snap.disk.Valid()
          && Scenes.Current(trace[stamped].scene.snap, trace[k].actor.path, rows[path].tags)
          && (forall j :: stamped <= j < i ==> !trace[j].actor.Supplies()))
      && trace[found].actor.Finds? && SidecarsOf(trace[found].state.files, trace[found].actor.audio) == {}
      && WithLrc(trace[found].actor.audio) == path
  }

  /**
   Publications are for the current recording: the published text is on record, under tags that the audio
   held at the stamp comparison of a check that came after every lookup, unless excused; and after that
   check no sidecar was found beside the audio.
   */
  lemma PublicationsAreCurrent(directory: Directory, trace: seq<Moment>, i: nat)
    requires History(directory, trace) && 0 < i < |trace| && trace[i].actor.Creates?
    ensures PublishedCurrent(directory, trace, i)
  {
    hide History, Follows, Proven, Fair, Seen, Vouched, Supplied, Learns, Scenes.Current, TrackTags.Normalized, SidecarsOf,
      StaleGenerated, RowAllows, Scenes.Paired, WithLrc, Actor.Supplies;
    var k, found := trace[i].actor.checked, trace[i].actor.found;
    WasVouched(directory, trace, i);
    PublicationNeeds(trace, i);
    CheckNotFirst(directory, trace, k);
    CheckedWasCurrent(directory, trace, k);
    LookIsTrue(directory, trace, found);
    FindsMeans(trace[found].state, trace[found].actor);
    ActIsFair(directory, trace, i);
    CreationWrites(directory, trace[i - 1].state, trace[i].actor, trace[i].state);
  }

  lemma FindsMeans(s: State, actor: Actor)
    requires actor.Finds? && Learns(s, actor)
    ensures actor.sidecars == SidecarsOf(s.files, actor.audio)
  {
    hide SidecarsOf;
  }

  lemma CreationWrites(directory: Directory, before: State, actor: Actor, after: State)
    requires actor.Creates? && Fair(directory, before, actor, after)
    ensures actor.path in after.files && after.tables == before.tables
    ensures actor.path in before.tables.sidecars ==> after.files[actor.path].content == Text(before.tables.sidecars[actor.path].lyrics)
  {
  }

  lemma PublicationNeeds(trace: seq<Moment>, i: nat)
    requires 0 < i < |trace| && trace[i].actor.Creates? && Vouched(trace[..i], trace[i].actor)
    ensures var Creates(path, k, found) := trace[i].actor;
      && k < found < i && trace[k].actor.Checks? && !trace[k].actor.Others? && WithLrc(trace[k].actor.path) == path
      && trace[found].actor.Finds? && !trace[found].actor.Others? && !trace[found].actor.Acts()
      && WithLrc(trace[found].actor.audio) == path && trace[found].actor.sidecars == {}
      && (forall j :: trace[k].actor.stamped <= j < i ==> !trace[j].actor.Supplies())
      && var rows := trace[i - 1].state.tables.sidecars;
         path in rows && rows[path].tags == trace[k].actor.tags.Normalized()
  {
    PrefixIs(trace, i);
    var Creates(path, k, found) := trace[i].actor;
    hide TrackTags.Normalized, Actor.Supplies;
    forall j | trace[k].actor.stamped <= j < i ensures !trace[j].actor.Supplies() {
      assert trace[..i][j] == trace[j];
    }
  }

  // ---------------------------------------------------------------------------
  // Archives, moves and deletions
  // ---------------------------------------------------------------------------

  /** The second look that an orphan's removal rests on, and the listing before it. */
  ghost predicate Unpaired(directory: Directory, trace: seq<Moment>, path: Path, grounds: Grounds, i: nat) {
    && path.Path? && grounds.listed < grounds.paired < grounds.inspected < i <= |trace|
    && path.stem !in Stems(directory, trace[grounds.listed].scene.entries)
    && !Scenes.Paired(trace[grounds.paired].scene.entries, directory, path)
    && path in trace[grounds.inspected].state.files && !trace[grounds.inspected].state.files[path].content.Special?
    && forall m :: grounds.paired < m < i && m != grounds.inspected ==> trace[m].actor.Others?
  }

  /**
   Only orphans are deleted or archived as such: the listing held no audio entry of their stem, not even an
   excluded one, and right before they went the directory held none either and they were no links.
   */
  lemma OrphansAreUnpaired(directory: Directory, trace: seq<Moment>, i: nat)
    requires History(directory, trace) && 0 < i < |trace|
    requires trace[i].actor.Deletes? || (trace[i].actor.Archives? && trace[i].actor.reason.Orphan?)
    ensures Unpaired(directory, trace, trace[i].actor.path,
      if trace[i].actor.Deletes? then trace[i].actor.grounds else trace[i].actor.reason.grounds, i)
  {
    hide *;
    var path := trace[i].actor.path;
    var grounds := if trace[i].actor.Deletes? then trace[i].actor.grounds else trace[i].actor.reason.grounds;
    WasVouched(directory, trace, i);
    RemovalNeeds(trace, i, path, grounds);
    EntriesAreTrue(directory, trace, grounds.listed);
    EntriesAreTrue(directory, trace, grounds.paired);
    LookIsTrue(directory, trace, grounds.inspected);
    GroundsMean(directory, trace, i, path, grounds);
  }

  lemma RemovalNeeds(trace: seq<Moment>, i: nat, path: Path, grounds: Grounds)
    requires 0 < i < |trace| && Vouched(trace[..i], trace[i].actor)
    requires || trace[i].actor == Deletes(path, grounds)
      || (trace[i].actor.Archives? && trace[i].actor.path == path && trace[i].actor.reason == Orphan(grounds))
    ensures Grounded(trace[..i], path, grounds) && path.Path? && grounds.listed < grounds.paired < grounds.inspected < i
    ensures trace[grounds.listed].actor.Lists? && trace[grounds.paired].actor.Pairs? && trace[grounds.inspected].actor.Inspects?
    ensures !trace[grounds.inspected].actor.Others? && !trace[grounds.inspected].actor.Acts()
  {
    PrefixIs(trace, i);
  }

  lemma GroundsMean(directory: Directory, trace: seq<Moment>, i: nat, path: Path, grounds: Grounds)
    requires 0 < i < |trace| && Grounded(trace[..i], path, grounds)
    requires grounds.listed < grounds.paired < grounds.inspected < i
    requires trace[grounds.listed].actor.Lists?
    requires trace[grounds.listed].actor.reserved == Stems(directory, trace[grounds.listed].scene.entries)
    requires trace[grounds.paired].actor.Pairs?
    requires trace[grounds.paired].actor.paired
      == Scenes.Paired(trace[grounds.paired].scene.entries, directory, trace[grounds.paired].actor.path)
    requires Learns(trace[grounds.inspected].state, trace[grounds.inspected].actor)
    ensures Unpaired(directory, trace, path, grounds, i)
  {
    PrefixIs(trace, i);
    hide Stems, Scenes.Paired;
    forall m | grounds.paired < m < i && m != grounds.inspected ensures trace[m].actor.Others? {
      assert trace[..i][m] == trace[m];
    }
  }

  /** What `StaleIsChecked` says of one archiving. */
  ghost predicate ArchivedStale(trace: seq<Moment>, i: nat)
    requires 0 < i < |trace| && trace[i].actor.Archives? && trace[i].actor.reason.Stale?
  {
    var path := trace[i].actor.path; var Stale(tags, expected, _, _, taken, k) := trace[i].actor.reason;
      && StaleGenerated(trace[i - 1].state.tables, WithLrc(path), tags, expected)
      && taken < i && trace[taken].actor.Takes?
      && TakenAt(trace, taken, path, expected, trace[taken].actor.stamped)
      && StillThat(trace[trace[taken].actor.stamped], trace[i - 1].state, path, expected)
      && k < i && trace[k].actor.Checks? && WithLrc(trace[k].actor.path) == WithLrc(path)
      && (var stamped := trace[k].actor.stamped;
          && taken < stamped < k && trace[stamped].scene.snap.disk.Valid()
          && Scenes.Current(trace[stamped].scene.snap, trace[k].actor.path, tags.Normalized()))
  }

  /**
   Archiving takes only generated lyrics of another recording: the row says so of the text that the sidecar
   was read to hold, the audio was checked to be that recording after the reading, and the file that went is
   the one that was read, unless it was replaced in between or a change of it was outstanding or uncovered at
   the reading's stamp comparison.
   */
  lemma StaleIsChecked(directory: Directory, trace: seq<Moment>, i: nat)
    requires History(directory, trace) && 0 < i < |trace| && trace[i].actor.Archives? && trace[i].actor.reason.Stale?
    ensures ArchivedStale(trace, i)
  {
    hide History, Follows, Proven, Fair, Seen, Vouched, Supplied, Learns, Scenes.Current, TrackTags.Normalized, SidecarsOf,
      StaleGenerated, Scenes.Paired, WithLrc, Actor.Supplies, TakenAt, StillThat, ReadAt;
    var path := trace[i].actor.path;
    var Stale(tags, expected, mark, exact, taken, k) := trace[i].actor.reason;
    WasVouched(directory, trace, i);
    StaleNeeds(trace, i);
    CheckNotFirst(directory, trace, k);
    CheckedWasCurrent(directory, trace, k);
    CheckNotFirst(directory, trace, taken);
    TakenWasHeld(directory, trace, taken);
    ActIsFair(directory, trace, i);
    StaleWas(directory, trace[i - 1].state, trace[i].actor, trace[i].state);
    StillRead(trace, taken, trace[i - 1].state, path, expected, mark, exact);
  }

  lemma StaleNeeds(trace: seq<Moment>, i: nat)
    requires 0 < i < |trace| && trace[i].actor.Archives? && trace[i].actor.reason.Stale? && Vouched(trace[..i], trace[i].actor)
    ensures var path := trace[i].actor.path; var Stale(tags, expected, mark, exact, taken, k) := trace[i].actor.reason;
      && taken < i && ReadAt(trace, taken, path, expected, mark, exact) && trace[taken].actor.Takes?
      && !trace[taken].actor.Others? && trace[taken].actor.path == path && trace[taken].actor.text == expected
      && k < i && trace[k].actor.Checks? && !trace[k].actor.Others? && WithLrc(trace[k].actor.path) == WithLrc(path)
      && trace[k].actor.tags.Normalized() == tags.Normalized() && taken < trace[k].actor.stamped
  {
    PrefixIs(trace, i);
    hide TrackTags.Normalized;
  }

  lemma StaleWas(directory: Directory, before: State, actor: Actor, after: State)
    requires actor.Archives? && actor.reason.Stale? && Fair(directory, before, actor, after)
    ensures StaleGenerated(before.tables, WithLrc(actor.path), actor.reason.tags, actor.reason.expected)
    ensures OwnText(before, actor.path, actor.reason.expected, actor.reason.mark, actor.reason.exact)
  {
    hide TrackTags.Normalized;
  }

  lemma StillRead(trace: seq<Moment>, taken: nat, before: State, path: Path, text: string, mark: nat, exact: bool)
    requires ReadAt(trace, taken, path, text, mark, exact) && taken < |trace| && trace[taken].actor.Takes?
    requires TakenAt(trace, taken, path, text, trace[taken].actor.stamped) && OwnText(before, path, text, mark, exact)
    ensures StillThat(trace[trace[taken].actor.stamped], before, path, text)
  {
    hide S.System.Excused, WasHeld;
  }

  /** What `MovesAreClaimed` says of one move and one file of its new owner. */
  ghost predicate MovedForClaim(directory: Directory, trace: seq<Moment>, i: nat, k: nat)
    requires 0 < i < |trace| && trace[i].actor.Moves? && k < |trace[i].actor.claim.paths|
  {
    var path, claim := trace[i].actor.path, trace[i].actor.claim;
      && claim.paired < claim.taken < i && !Scenes.Paired(trace[claim.paired].scene.entries, directory, path)
      && trace[claim.taken].actor.Takes? && TakenAt(trace, claim.taken, path, claim.lyrics, trace[claim.taken].actor.stamped)
      && StillThat(trace[trace[claim.taken].actor.stamped], trace[i - 1].state, path, claim.lyrics)
      && RowAllows(trace[i - 1].state.tables, path, claim.tags, claim.lyrics)
      && |claim.readings| == |claim.paths| && claim.taken <= claim.readings[k] < i
      && var reading := trace[claim.readings[k]].actor;
         && reading.Confirms? && reading.path == claim.paths[k]
         && reading.stamped < claim.readings[k] && trace[reading.stamped].scene.snap.disk.Valid()
         && Scenes.Current(trace[reading.stamped].scene.snap, claim.paths[k], claim.tags)
  }

  /**
   An orphan is moved only when the directory held no audio of its name by then, its row does not speak
   against the text that it was read to hold, and each file of the group was read again, after its text, to
   hold the tags it is moved for; what moves is the file that was read, unless it was replaced in between or
   a change of it was outstanding or uncovered at the reading's stamp comparison.
   */
  lemma MovesAreClaimed(directory: Directory, trace: seq<Moment>, i: nat, k: nat)
    requires History(directory, trace) && 0 < i < |trace| && trace[i].actor.Moves?
    requires k < |trace[i].actor.claim.paths|
    ensures MovedForClaim(directory, trace, i, k)
  {
    hide History, Follows, Proven, Fair, Seen, Vouched, Supplied, Learns, Scenes.Current, TrackTags.Normalized, SidecarsOf,
      StaleGenerated, RowAllows, Scenes.Paired, WithLrc, Actor.Supplies, TakenAt, StillThat, ReadAt, OwnText;
    var path, claim := trace[i].actor.path, trace[i].actor.claim;
    WasVouched(directory, trace, i);
    MoveNeeds(trace, i, k);
    EntriesAreTrue(directory, trace, claim.paired);
    CheckNotFirst(directory, trace, claim.readings[k]);
    ConfirmedWasCurrent(directory, trace, claim.readings[k]);
    CheckNotFirst(directory, trace, claim.taken);
    TakenWasHeld(directory, trace, claim.taken);
    ActIsFair(directory, trace, i);
    MoveAllowed(directory, trace[i - 1].state, trace[i].actor, trace[i].state);
    StillRead(trace, claim.taken, trace[i - 1].state, path, claim.lyrics, claim.mark, claim.exact);
  }

  lemma MoveNeeds(trace: seq<Moment>, i: nat, k: nat)
    requires 0 < i < |trace| && trace[i].actor.Moves? && Vouched(trace[..i], trace[i].actor) && k < |trace[i].actor.claim.paths|
    ensures var path, claim := trace[i].actor.path, trace[i].actor.claim;
      && claim.paired < claim.taken < i && trace[claim.paired].actor == Pairs(path, false)
      && ReadAt(trace, claim.taken, path, claim.lyrics, claim.mark, claim.exact) && trace[claim.taken].actor.Takes?
      && trace[claim.taken].actor.path == path && trace[claim.taken].actor.text == claim.lyrics
      && |claim.readings| == |claim.paths| && claim.taken <= claim.readings[k] < i
      && var reading := trace[claim.readings[k]].actor;
         !reading.Others? && reading.Confirms? && reading.path == claim.paths[k] && reading.tags.Normalized() == claim.tags
  {
    PrefixIs(trace, i);
    hide TrackTags.Normalized;
  }

  lemma MoveAllowed(directory: Directory, before: State, actor: Actor, after: State)
    requires actor.Moves? && Fair(directory, before, actor, after)
    ensures RowAllows(before.tables, actor.path, actor.claim.tags, actor.claim.lyrics)
    ensures OwnText(before, actor.path, actor.claim.lyrics, actor.claim.mark, actor.claim.exact)
  {
    hide RowAllows;
  }
}
