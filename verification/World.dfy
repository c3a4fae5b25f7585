/**
 The world in which the owner of one directory works (src/files.rs, src/scan.rs): before each of its
 steps the users and the other workers may do anything of theirs, and each step may fail. In a quiet
 world nobody else acts and nothing fails but what cannot succeed.
 */
module Worlds {
  import opened Basics
  import opened Tables
  import opened Tags
  import opened CacheDbs
  import opened Scenes
  import opened SnapshotIndex
  import opened Publishing
  import opened Traces
  import Selection
  import opened Text
  import S = Snapshots
  import R = SnapshotRuns
  import Currency

  /** What a quiet world answers. */
  datatype Answers = Answers(
    eligible: Path -> bool,
    tags: Path -> Option<TrackTags>,
    lookup: TrackTags -> Selection.LyricsResult,
    entries: set<Path>,
    now: int)

  datatype Deed =
    | Put(path: Path, content: Content)
    | Remove(path: Path)
    | Record(path: Path, track: TrackRecord)
    | RecordSidecar(path: Path, row: SidecarRecord)

  function Done(directory: Directory, s: State, deed: Deed): State {
    match deed
    case Put(path, content) => s.(files := s.files[path := Node(content, User, s.nextId)], nextId := s.nextId + 1)
    case Remove(path) => s.(files := s.files - {path})
    case Record(path, track) =>
      if Within(path, directory) then s else s.(tables := s.tables.(tracks := s.tables.tracks[path := track]))
    case RecordSidecar(path, row) =>
      if Within(path, directory) then s else s.(tables := s.tables.(sidecars := s.tables.sidecars[path := row]))
  }

  /**
   The others change the files and what the snapshot cache sees of them together, and a file that stays the
   daemon's was not written.
   */
  predicate Together(directory: Directory, before: map<Path, Node>, disk: S.Disk, after: map<Path, Node>, next: S.Disk)
    requires disk.Valid() && next.Valid()
  {
    && Mirrors(directory, after, next)
    && forall path :: path in after && Owns(directory, after, path) ==>
         path in disk.link && path in next.link && Unwritten(disk, next, path)
  }

  lemma TogetherIsLinked(directory: Directory, s: State, before: S.System, t: State, after: S.System)
    requires S.Inv(before) && Linked(directory, s.files, before) && Beside(directory, before, after) && after.disk.Valid()
    requires Drift(directory, s, t) && before.disk.Valid() && Together(directory, s.files, before.disk, t.files, after.disk)
    ensures Linked(directory, t.files, after)
  {
    hide S.Inv, Beside, Faithful, Mirrors, SameRows;
    forall path | Owns(directory, t.files, path) ensures Faithful(after, path) {
      assert Owns(directory, s.files, path);
      BesideKeepsFaithful(directory, before, after, path);
    }
  }

  lemma DeedDrifts(directory: Directory, s: State, deed: Deed)
    ensures Drift(directory, s, Done(directory, s, deed))
  {
  }

  lemma DeedKeepsIds(directory: Directory, s: State, deed: Deed)
    requires IdsBelow(s)
    ensures IdsBelow(Done(directory, s, deed))
  {
  }

  lemma DriftKeepsProvenance(directory: Directory, s: State, t: State)
    requires Drift(directory, s, t) && Provenance(directory, s)
    ensures Provenance(directory, t)
  {
  }

  /** What `read_lyrics` makes of a file. */
  function Readable(files: map<Path, Node>, path: Path): Option<string> {
    if path in files && files[path].content.Text? && !BlankText(files[path].content.text)
    then Some(files[path].content.text) else None
  }

  /** Whether a listing takes an entry in: it is eligible and regular, as everything is that the daemon wrote. */
  ghost predicate CountsIn(a: Answers, files: map<Path, Node>, path: Path) {
    if path in files then files[path].owner == Daemon || (a.eligible(path) && !files[path].content.Special?)
    else a.eligible(path)
  }

  ghost predicate IdsBelow(s: State) { forall path :: path in s.files ==> s.files[path].id < s.nextId }

  /** The scene of a quiet world: nothing is on its way, and it is what the answers say. */
  ghost predicate QuietScene(directory: Directory, a: Answers, c: Scene) {
    && Calm(c.snap) && a.entries == c.entries
    && forall path :: Within(path, directory) && IsAudio(path) ==> a.tags(path) == TagsAt(c.snap, path)
  }

  /** A history up to this state and this scene. */
  ghost predicate Ready(directory: Directory, quiet: bool, a: Answers, trace: seq<Moment>, s: State, c: Scene) {
    && History(directory, trace) && trace[|trace| - 1].state == s && trace[|trace| - 1].scene == c
    && IdsBelow(s) && (quiet ==> QuietScene(directory, a, c))
  }

  lemma ReadyMeans(directory: Directory, quiet: bool, a: Answers, trace: seq<Moment>, s: State, c: Scene)
    requires Ready(directory, quiet, a, trace, s, c)
    ensures History(directory, trace) && trace != [] && trace[|trace| - 1].state == s && trace[|trace| - 1].scene == c
    ensures Provenance(directory, s) && S.Inv(c.snap) && c.snap.disk.Valid() && IdsBelow(s)
    ensures Linked(directory, s.files, c.snap)
    ensures quiet ==> QuietScene(directory, a, c)
  {
    hide Follows, Provenance, QuietScene, IdsBelow, S.EventsSound, S.PathSound, Linked;
    assert Proven(directory, trace[|trace| - 1]);
  }

  lemma ReadyGrows(directory: Directory, quiet: bool, a: Answers, trace: seq<Moment>, s: State, c: Scene, actor: Actor,
    t: State, d: Scene)
    requires Ready(directory, quiet, a, trace, s, c)
    requires Fair(directory, s, actor, t) && Seen(directory, c, actor, d) && trace != [] && Vouched(trace, actor)
    requires Provenance(directory, t) && S.Inv(d.snap) && IdsBelow(t) && (quiet ==> QuietScene(directory, a, d))
    requires Linked(directory, t.files, d.snap)
    ensures Ready(directory, quiet, a, trace + [Moment(actor, t, d)], t, d)
  {
    var moment := Moment(actor, t, d);
    assert History(directory, trace);
    assert Follows(directory, trace, moment) by { hide Fair, Seen, Vouched, History; }
    assert Proven(directory, moment);
    hide Follows, Proven, History, QuietScene, IdsBelow, Fair, Seen, Vouched, Linked;
    HistoryGrows(directory, trace, moment);
  }

  // ---------------------------------------------------------------------------
  // Reading audio
  // ---------------------------------------------------------------------------

  /** The owner holds a finished snapshot of the file whose tags normalize like these. */
  ghost predicate HoldsLike(quiet: bool, s: S.System, path: Path, tags: TrackTags) {
    && path in s.readers && s.readers[path].Held? && s.readers[path].row.value.Recording?
    && s.readers[path].row.value.tags.Normalized() == tags.Normalized()
    && (quiet ==> s.disk.Valid() && UpToDate(s, path))
  }

  ghost predicate Holding(quiet: bool, s: S.System, paths: seq<Path>, tags: TrackTags) {
    forall k :: 0 <= k < |paths| ==> HoldsLike(quiet, s, paths[k], tags)
  }

  lemma HoldingLasts(directory: Directory, quiet: bool, s: S.System, t: S.System, paths: seq<Path>, tags: TrackTags)
    requires Holding(quiet, s, paths, tags) && (SameReaders(directory, s, t) || AudioReaders(directory, s, t))
    requires (quiet ==> SameLibrary(s, t)) && AllWithin(directory, paths)
    ensures Holding(quiet, t, paths, tags)
  {
    hide HoldsLike, SameLibrary;
    forall k | 0 <= k < |paths| ensures HoldsLike(quiet, t, paths[k], tags) {
      HeldOnes(quiet, s, paths[k], tags);
      HoldsStays(quiet, s, t, paths[k], tags);
    }
  }

  /** In the middle of reading one file: the owner only looked, and its other readers are where they were. */
  ghost predicate Reading(
    directory: Directory, quiet: bool, path: Path, past: seq<Moment>, start: State, before: Scene, trace: seq<Moment>,
    now: State, here: Scene)
  {
    && Looks(past, trace) && Drift(directory, start, now)
    && OtherReaders(directory, path, before.snap, here.snap)
    && (quiet ==> now == start && here.entries == before.entries && SameLibrary(before.snap, here.snap))
  }

  lemma ReadingStarts(directory: Directory, quiet: bool, path: Path, trace: seq<Moment>, now: State, here: Scene)
    requires here.snap.disk.Valid()
    ensures Reading(directory, quiet, path, trace, now, here, trace, now, here)
  {
  }

  /** The owner's readers of audio are where they were. */
  ghost predicate AudioReaders(directory: Directory, s: S.System, t: S.System) {
    forall path :: Within(path, directory) && IsAudio(path) ==>
      && (path in t.readers <==> path in s.readers)
      && (path in t.readers ==> t.readers[path] == s.readers[path])
  }

  lemma ReadingMeans(
    directory: Directory, quiet: bool, path: Path, past: seq<Moment>, start: State, before: Scene, trace: seq<Moment>,
    now: State, here: Scene)
    requires Reading(directory, quiet, path, past, start, before, trace, now, here)
    ensures !IsAudio(path) ==> AudioReaders(directory, before.snap, here.snap)
    ensures Looks(past, trace) && Drift(directory, start, now)
    ensures quiet ==> now == start && here.entries == before.entries && SameLibrary(before.snap, here.snap)
    ensures OtherReaders(directory, path, before.snap, here.snap)
  {
    hide Looks, Drift, SameLibrary;
  }

  /** One step of the reader, after the others acted. */
  lemma ReadingOn(
    directory: Directory, quiet: bool, path: Path, past: seq<Moment>, start: State, before: Scene, trace: seq<Moment>,
    now: State, here: Scene, middle: S.System, more: seq<Moment>, next: State, there: Scene, step: S.ReaderStep)
    requires Reading(directory, quiet, path, past, start, before, trace, now, here)
    requires Ends(trace, more, Reads(path, step)) && Drift(directory, now, next) && SameReaders(directory, here.snap, middle)
    requires S.Inv(middle) && there.snap == S.ApplyReader(middle, path, step)
    requires quiet ==>
      && next == now && there.entries == here.entries && middle == here.snap && Calm(middle)
      && (S.Stores(middle, path, step) ==> UpToDate(middle, path))
    ensures Reading(directory, quiet, path, past, start, before, more, next, there)
    ensures quiet ==> Calm(there.snap) && SameLibrary(here.snap, there.snap)
  {
    EndsIsLooks(trace, more, Reads(path, step));
    LooksOn(past, trace, more);
    DriftOn(directory, start, now, next);
    assert middle.disk.Valid();
    if quiet { CalmStep(middle, path, step); }
    SameLibraryOn(quiet, before.snap, here.snap, there.snap);
    hide Looks, Drift, Ends, S.Inv, Calm, S.ApplyReader, UpToDate, SameLibrary;
    forall other | Within(other, directory) && other != path
      ensures other in there.snap.readers <==> other in before.snap.readers
      ensures other in there.snap.readers ==> there.snap.readers[other] == before.snap.readers[other]
    {
      OtherReadersStay(directory, middle, path, step, other);
    }
  }

  /** At moment `k` the reader with this row took this step. */
  ghost predicate TookStep(trace: seq<Moment>, k: nat, path: Path, step: S.ReaderStep, row: Row<S.Content>) {
    && Steps(trace, k, path, step) && trace[k].scene.snap.readers[path].row == row
    && match step
       case RecheckStamp => trace[k - 1].scene.snap.readers[path].Got?
       case RecheckVersion => trace[k - 1].scene.snap.readers[path].Restamped?
       case AgreeStamp => trace[k - 1].scene.snap.readers[path].Held?
       case _ => true
  }

  lemma TookStepLasts(trace: seq<Moment>, more: seq<Moment>, k: nat, path: Path, step: S.ReaderStep,
    row: Row<S.Content>)
    requires TookStep(trace, k, path, step, row) && trace <= more
    ensures TookStep(more, k, path, step, row)
  {
  }

  /** The step that was just taken, by a reader that has its row and survived. */
  lemma StepTaken(trace: seq<Moment>, path: Path, step: S.ReaderStep, row: Row<S.Content>)
    requires |trace| > 1 && trace[|trace| - 1].actor == Reads(path, step)
    requires var s, t := trace[|trace| - 2].scene.snap, trace[|trace| - 1].scene.snap;
      && path in s.readers && path in t.readers && Scenes.Carries(s.readers[path]) && Scenes.Carries(t.readers[path])
      && s.readers[path].row == row && t.readers[path].row == row
      && (step.RecheckStamp? ==> s.readers[path].Got?)
      && (step.RecheckVersion? ==> s.readers[path].Restamped?)
      && (step.AgreeStamp? ==> s.readers[path].Held?)
    ensures TookStep(trace, |trace| - 1, path, step, row)
  {
  }

  lemma ConfirmationIsVouched(trace: seq<Moment>, path: Path, tags: TrackTags, stamped: nat, versioned: nat,
    row: Row<S.Content>)
    requires Submitted(trace, path)
    requires TookStep(trace, stamped, path, S.RecheckStamp, row) && TookStep(trace, versioned, path, S.RecheckVersion, row)
    requires stamped < versioned && path in trace[|trace| - 1].scene.snap.readers
    requires trace[|trace| - 1].scene.snap.readers[path] == S.Held(row)
    ensures Vouched(trace, Confirms(path, tags, stamped, versioned))
  {
  }

  lemma CheckIsVouched(trace: seq<Moment>, path: Path, tags: TrackTags, stamped: nat, row: Row<S.Content>)
    requires TookStep(trace, stamped, path, S.AgreeStamp, row)
    requires path in trace[|trace| - 1].scene.snap.readers && trace[|trace| - 1].scene.snap.readers[path] == S.Agreed(row)
    ensures Vouched(trace, Checks(path, tags, stamped))
  {
  }

  lemma SameReadersStay(directory: Directory, s: S.System)
    ensures SameReaders(directory, s, s)
  {
  }

  lemma StepsAreBeside(directory: Directory, s: S.System, steps: seq<S.Step>)
    requires s.disk.Valid() && OthersSteps(directory, steps)
    ensures Beside(directory, s, R.Run(s, steps))
  {
  }

  lemma OthersAreFair(directory: Directory, s: State, c: Scene, t: State, d: Scene)
    requires Drift(directory, s, t) && Beside(directory, c.snap, d.snap)
    ensures Fair(directory, s, Others, t) && Seen(directory, c, Others, d) && forall trace :: trace != [] ==> Vouched(trace, Others)
  {
    hide Drift, Beside;
  }

  lemma OneMorePause(before: seq<Moment>, after: seq<Moment>)
    requires |after| == |before| + 1 && before <= after && after[|before|].actor.Others?
    ensures Pauses(before, after)
  {
  }

  lemma LearningIsFair(directory: Directory, s: State, actor: Actor)
    requires Learns(s, actor) && !actor.Acts() && !actor.Others?
    ensures Fair(directory, s, actor, s)
  {
    hide Learns;
  }

  lemma QuietIsCalm(directory: Directory, quiet: bool, a: Answers, c: Scene)
    requires quiet ==> QuietScene(directory, a, c)
    ensures quiet ==> Calm(c.snap)
  {
    hide Calm;
  }

  /** A step of the owner keeps the sidecars linked to the snapshot cache. */
  lemma StepKeepsLinked(directory: Directory, files: map<Path, Node>, s: S.System, path: Path, step: S.ReaderStep)
    requires S.Inv(s) && Linked(directory, files, s)
    ensures Linked(directory, files, S.ApplyReader(s, path, step))
  {
    OwnStepKeeps(s, path, step);
    hide S.Inv, S.ApplyReader, Faithful, Mirrors;
    forall own | Owns(directory, files, own) ensures Faithful(S.ApplyReader(s, path, step), own) {
      ReadKeepsFaithful(s, path, step, own);
    }
  }

  /** A step of the owner keeps the snapshot cache sound, and a quiet scene quiet. */
  lemma StepIsSound(directory: Directory, quiet: bool, a: Answers, c: Scene, path: Path, step: S.ReaderStep)
    requires S.Inv(c.snap) && c.snap.disk.Valid() && (quiet ==> QuietScene(directory, a, c))
    requires quiet && step.Store? ==> path in c.snap.readers && UpToDate(c.snap, path)
    ensures var t := S.ApplyReader(c.snap, path, step);
      && S.Inv(t) && t.disk.Valid() && (quiet ==> QuietScene(directory, a, c.(snap := t)))
  {
    OwnStepKeeps(c.snap, path, step);
    if quiet {
      CalmStep(c.snap, path, step);
    }
    hide S.Inv, Calm, S.ApplyReader, UpToDate, SameLibrary;
  }

  lemma StepIsSeen(directory: Directory, c: Scene, path: Path, step: S.ReaderStep, d: Scene)
    requires Within(path, directory) && c.snap.disk.Valid() && d == c.(snap := S.ApplyReader(c.snap, path, step))
    ensures Seen(directory, c, Reads(path, step), d)
    ensures forall s :: Learns(s, Reads(path, step))
  {
    hide S.ApplyReader;
  }

  lemma ReadingIsVouched(trace: seq<Moment>, path: Path, step: S.ReaderStep)
    requires trace != []
    ensures Vouched(trace, Reads(path, step)) && !Reads(path, step).Acts() && !Reads(path, step).Others?
  {
  }

  lemma GivingIsFree(directory: Directory, trace: seq<Moment>, s: State, c: Scene, path: Path)
    requires trace != []
    ensures Vouched(trace, Doubts(path)) && Learns(s, Doubts(path)) && Seen(directory, c, Doubts(path), c)
    ensures Vouched(trace, Fails(path)) && Learns(s, Fails(path)) && Seen(directory, c, Fails(path), c)
    ensures !Doubts(path).Acts() && !Doubts(path).Others? && !Fails(path).Acts() && !Fails(path).Others?
  {
  }

  lemma LooksThenGives(past: seq<Moment>, middle: seq<Moment>, trace: seq<Moment>, path: Path, doubt: bool)
    requires Looks(past, middle) && |trace| == |middle| + 1 && middle < trace
    requires trace[|middle|].actor == if doubt then Doubts(path) else Fails(path)
    ensures Glances(past, trace, doubt) && past < trace
  {
    assert trace[..|trace| - 1] == middle;
  }

  lemma LooksGlance(past: seq<Moment>, trace: seq<Moment>)
    requires Looks(past, trace)
    ensures Glances(past, trace, false)
  {
  }

  lemma Dropped(directory: Directory, s: S.System, middle: S.System, path: Path)
    requires SameReaders(directory, s, middle) && Within(path, directory) && path in s.readers && middle.disk.Valid()
    ensures path !in S.ApplyReader(middle, path, S.Drop).readers
  {
  }

  lemma Begun(directory: Directory, s: S.System, middle: S.System, path: Path)
    requires SameReaders(directory, s, middle) && Within(path, directory) && path !in s.readers && middle.disk.Valid()
    ensures var t := S.ApplyReader(middle, path, S.Begin);
      if path in middle.disk.link then path in t.readers && t.readers[path].Stamped? && t.disk.Valid() && UpToDate(t, path)
      else path !in t.readers && path !in t.disk.link
  {
  }

  /** A step of the reader that had come this far. */
  lemma Moved(directory: Directory, quiet: bool, s: S.System, middle: S.System, path: Path, step: S.ReaderStep)
    requires SameReaders(directory, s, middle) && Within(path, directory) && path in s.readers
    requires middle.disk.Valid() && !step.Begin? && !step.Drop?
    requires quiet ==> middle == s && Calm(middle) && UpToDate(s, path)
    ensures var t := S.ApplyReader(middle, path, step);
      && (quiet ==> t.disk.Valid() && path in t.readers && UpToDate(t, path))
      && (path in t.readers ==> Comes(s.readers[path], step, t.readers[path]))
      && path in middle.readers && middle.readers[path] == s.readers[path]
  {
    ReaderMoves(middle, path, step);
    if quiet {
      CalmReader(middle, path, step);
    }
    hide S.ApplyReader, Calm, UpToDate;
  }

  /** Where a step leads a reader that survives it. */
  ghost predicate Comes(before: S.Reader, step: S.ReaderStep, after: S.Reader) {
    match (step, before)
    case (TakeVersion, Stamped(_)) => after.Versioned?
    case (LookUp, Versioned(_, _)) => after.Missed? || after.Got?
    case (Open, Missed(_, _)) => after.Reading?
    case (EndRead(_), Reading(_, _, _, _)) => after.Got?
    case (RecheckStamp, Got(row, cached)) => after == S.Restamped(row, cached)
    case (RecheckVersion, Restamped(row, cached)) => after == S.Confirmed(row, cached)
    case (Store, Confirmed(row, _)) => after == S.Held(row)
    case (AgreeStamp, Held(row)) => after == S.Agreed(row)
    case (AgreeVersion, Agreed(row)) => after == S.Held(row)
    case _ => true
  }

  /** A step of a reader that has its row: the row stays. */
  lemma RowMoved(directory: Directory, quiet: bool, s: S.System, middle: S.System, path: Path, step: S.ReaderStep)
    requires SameReaders(directory, s, middle) && Within(path, directory) && path in s.readers && middle.disk.Valid()
    requires var reader := s.readers[path];
      || (step.RecheckStamp? && reader.Got?) || (step.RecheckVersion? && reader.Restamped?)
      || (step.Store? && reader.Confirmed?) || (step.AgreeStamp? && reader.Held?)
    requires quiet ==> middle == s && Calm(middle) && UpToDate(s, path)
    ensures path in middle.readers && middle.readers[path] == s.readers[path] && Scenes.Carries(s.readers[path])
    ensures var t := S.ApplyReader(middle, path, step);
      && (quiet ==> t.disk.Valid() && path in t.readers && UpToDate(t, path))
      && (path in t.readers ==> Scenes.Carries(t.readers[path]) && t.readers[path].row == s.readers[path].row)
      && (path in t.readers && step.RecheckStamp? ==> t.readers[path].Restamped?)
      && (path in t.readers && step.RecheckVersion? ==> t.readers[path].Confirmed?)
      && (path in t.readers && step.Store? ==> t.readers[path].Held?)
      && (path in t.readers && step.AgreeStamp? ==> t.readers[path].Agreed?)
  {
    hide S.ApplyReader, Calm, UpToDate, S.System.Excused;
    OwnReaderStays(directory, s, middle, path);
    hide SameReaders;
    Moved(directory, quiet, s, middle, path, step);
  }

  /** In a quiet world the answers are what an up-to-date reader sees. */
  lemma QuietTags(directory: Directory, quiet: bool, a: Answers, trace: seq<Moment>, s: State, c: Scene, path: Path)
    requires Ready(directory, quiet, a, trace, s, c) && Within(path, directory) && IsAudio(path)
    ensures quiet ==> c.snap.disk.Valid() && a.tags(path) == TagsAt(c.snap, path)
    ensures quiet && path !in c.snap.disk.link ==> a.tags(path) == None
    ensures quiet && path in c.snap.readers && Scenes.Carries(c.snap.readers[path]) && UpToDate(c.snap, path) ==>
      a.tags(path) == if c.snap.readers[path].row.value.Recording? then Some(c.snap.readers[path].row.value.tags) else None
  {
    ReadyMeans(directory, quiet, a, trace, s, c);
    hide Ready, S.Inv, Calm;
  }

  lemma CalmIsSettled(directory: Directory, quiet: bool, a: Answers, trace: seq<Moment>, s: State, c: Scene, path: Path)
    requires Ready(directory, quiet, a, trace, s, c)
    ensures trace != [] && (quiet ==> Settled(trace, |trace| - 1, path))
  {
    ReadyMeans(directory, quiet, a, trace, s, c);
    hide Ready, S.Inv;
  }

  predicate Legible(content: S.Content) { content.Lyrics? && !BlankText(content.text) }

  /** In a quiet world an up-to-date reader of a sidecar sees what stands there. */
  lemma QuietText(directory: Directory, quiet: bool, a: Answers, trace: seq<Moment>, s: State, c: Scene, path: Path)
    requires Ready(directory, quiet, a, trace, s, c) && Within(path, directory) && IsSidecar(path)
    ensures c.snap.disk.Valid()
    ensures path !in c.snap.disk.link ==> Readable(s.files, path) == None
    ensures path in c.snap.readers && Scenes.Carries(c.snap.readers[path]) && UpToDate(c.snap, path) ==>
      Readable(s.files, path)
        == if Legible(c.snap.readers[path].row.value) then Some(c.snap.readers[path].row.value.text) else None
  {
    ReadyMeans(directory, quiet, a, trace, s, c);
    hide Ready, S.Inv, QuietScene, BlankText, Faithful;
    assert path in s.files.Keys + c.snap.disk.link.Keys ==> Mirrored(s.files, c.snap.disk, path);
  }

  lemma TakingIsVouched(trace: seq<Moment>, path: Path, text: string, stamped: nat, versioned: nat, row: Row<S.Content>)
    requires Submitted(trace, path)
    requires TookStep(trace, stamped, path, S.RecheckStamp, row) && TookStep(trace, versioned, path, S.RecheckVersion, row)
    requires stamped < versioned && path in trace[|trace| - 1].scene.snap.readers
    requires trace[|trace| - 1].scene.snap.readers[path] == S.Held(row)
    ensures stamped < |trace| && Vouched(trace, Takes(path, text, Settled(trace, stamped, path), stamped, versioned))
  {
    hide S.System.Excused, Submitted;
  }

  lemma HeldText(directory: Directory, s: State, c: Scene, path: Path, text: string, exact: bool, row: Row<S.Content>,
    stamped: nat, versioned: nat)
    requires path in c.snap.readers && c.snap.readers[path] == S.Held(row) && row.value == S.Lyrics(text)
    requires !BlankText(text) && IsSidecar(path) && Within(path, directory)
    ensures var actor := Takes(path, text, exact, stamped, versioned);
      Learns(s, actor) && Seen(directory, c, actor, c) && !actor.Acts() && !actor.Others?
  {
    hide BlankText;
  }

  /** While the owner only looks, only the others change the files and the rows. */
  lemma {:induction false} LooksDrift(directory: Directory, past: seq<Moment>, trace: seq<Moment>, i: nat, j: nat)
    requires History(directory, trace) && Looks(past, trace) && |past| <= i + 1 && i <= j < |trace|
    ensures Drift(directory, trace[i].state, trace[j].state)
    decreases j - i
  {
    hide Proven, Follows, Drift, Seen, Vouched;
    if i == j {
      DriftStays(directory, trace[i].state);
    } else {
      LooksDrift(directory, past, trace, i, j - 1);
      HistoryStep(directory, trace, j);
      hide History;
      LookDrifts(directory, trace[j - 1].state, trace[j].actor, trace[j].state);
      DriftOn(directory, trace[i].state, trace[j - 1].state, trace[j].state);
    }
  }

  lemma LookDrifts(directory: Directory, s: State, actor: Actor, t: State)
    requires Fair(directory, s, actor, t) && (actor.Others? || actor.Looks())
    ensures Drift(directory, s, t)
  {
    hide Drift, Learns;
    if !actor.Others? { DriftStays(directory, s); }
  }

  /** What was read still stands there, unless it was replaced since or a change of it was excused then. */
  ghost predicate StandsAs(s: State, path: Path, text: string, mark: nat, exact: bool) {
    mark <= s.nextId && (path in s.files ==> OwnText(s, path, text, mark, exact))
  }

  lemma TakenStands(directory: Directory, trace: seq<Moment>, k: nat, path: Path, text: string, i: nat, now: State)
    requires Currency.TakenAt(trace, k, path, text, i) && i < |trace| && Drift(directory, trace[i].state, now)
    requires IsSidecar(path) && Within(path, directory) && k < |trace| && trace[k].actor.Takes?
    ensures StandsAs(now, path, text, trace[i].state.nextId, trace[k].actor.exact)
    ensures HoldsOnly(now.files, path, Some(text))
  {
    hide SameRows, S.System.Excused;
  }

  lemma TookStepIs(trace: seq<Moment>, k: nat, path: Path, step: S.ReaderStep, row: Row<S.Content>)
    requires TookStep(trace, k, path, step, row)
    ensures k < |trace|
  {
  }

  lemma SettledLasts(before: seq<Moment>, after: seq<Moment>, k: nat, path: Path)
    requires before <= after && k < |before|
    ensures Settled(after, k, path) == Settled(before, k, path)
  {
    hide S.System.Excused;
  }

  lemma LooksGrow(before: seq<Moment>, after: seq<Moment>)
    requires Looks(before, after)
    ensures before <= after
  {
  }

  lemma GlancesAreLooks(before: seq<Moment>, after: seq<Moment>, actor: Actor)
    requires Glances(before, after, false) && before < after && after[|after| - 1].actor == actor
    ensures LooksTo(before, after, actor)
  {
  }

  lemma NotedTaking(past: seq<Moment>, trace: seq<Moment>, path: Path, text: string, taken: Actor)
    requires Looks(past, trace) && past < trace && trace[|trace| - 1].actor == taken
    requires taken.Takes? && taken.path == path && taken.text == text && taken.stamped < |trace| - 1
    ensures LooksTo(past, trace, taken) && ReadAt(trace, |trace| - 1, path, text, trace[taken.stamped].state.nextId, taken.exact)
  {
    hide Looks;
  }

  lemma TakingStands(directory: Directory, past: seq<Moment>, trace: seq<Moment>, path: Path, text: string, taken: Actor,
    now: State)
    requires History(directory, trace) && Looks(past, trace) && past < trace && trace[|trace| - 1].state == now
    requires taken.Takes? && taken.path == path && taken.text == text && trace[|trace| - 1].actor == taken
    requires |past| <= taken.stamped < |trace| - 1
    ensures LooksTo(past, trace, taken) && ReadAt(trace, |trace| - 1, path, text, trace[taken.stamped].state.nextId, taken.exact)
    ensures StandsAs(now, path, text, trace[taken.stamped].state.nextId, taken.exact) && HoldsOnly(now.files, path, Some(text))
  {
    hide *;
    NotedTaking(past, trace, path, text, taken);
    Currency.TakenWasHeld(directory, trace, |trace| - 1);
    LooksDrift(directory, past, trace, taken.stamped, |trace| - 1);
    TakenStands(directory, trace, |trace| - 1, path, text, taken.stamped, now);
  }

  lemma HeldTags(quiet: bool, c: Scene, path: Path, tags: TrackTags, row: Row<S.Content>, stamped: nat, versioned: nat,
    s: State, directory: Directory)
    requires path in c.snap.readers && c.snap.readers[path] == S.Held(row) && row.value == S.Recording(tags)
    requires quiet ==> c.snap.disk.Valid() && UpToDate(c.snap, path)
    ensures HoldsLike(quiet, c.snap, path, tags) && HoldsTags(c.snap, path, tags)
    ensures Learns(s, Confirms(path, tags, stamped, versioned)) && Seen(directory, c, Confirms(path, tags, stamped, versioned), c)
    ensures !Confirms(path, tags, stamped, versioned).Acts() && !Confirms(path, tags, stamped, versioned).Others?
  {
    hide TrackTags.Normalized, UpToDate;
  }

  /** A finished look is a look. */
  lemma ReadingNoted(
    directory: Directory, quiet: bool, path: Path, past: seq<Moment>, start: State, before: Scene, trace: seq<Moment>,
    more: seq<Moment>, now: State, here: Scene)
    requires Reading(directory, quiet, path, past, start, before, trace, now, here)
    requires |more| == |trace| + 1 && trace < more && more[|trace|].actor.Looks()
    ensures Reading(directory, quiet, path, past, start, before, more, now, here) && past < more
  {
    hide Drift, OtherReaders, SameLibrary;
  }

  lemma HoldsRow(quiet: bool, s: S.System, path: Path, tags: TrackTags)
    requires HoldsLike(quiet, s, path, tags)
    ensures path in s.readers && s.readers[path] == S.Held(s.readers[path].row) && s.readers[path].row.value.Recording?
    ensures s.readers[path].row.value.tags.Normalized() == tags.Normalized()
    ensures quiet ==> s.disk.Valid() && UpToDate(s, path)
  {
    hide TrackTags.Normalized, UpToDate;
  }

  lemma OwnReaderStays(directory: Directory, s: S.System, t: S.System, path: Path)
    requires SameReaders(directory, s, t) && Within(path, directory)
    ensures path in t.readers <==> path in s.readers
    ensures path in t.readers ==> t.readers[path] == s.readers[path]
  {
  }

  /** The version comparison: the reader survives it exactly if the version is the snapshot's. */
  lemma VersionDecides(quiet: bool, s: S.System, path: Path, row: Row<S.Content>)
    requires s.disk.Valid() && path in s.readers && s.readers[path] == S.Agreed(row)
    requires quiet ==> Calm(s) && UpToDate(s, path)
    ensures var t := S.ApplyReader(s, path, S.AgreeVersion);
      && (path in t.readers <==> s.Version(path) == row.version)
      && (path in t.readers ==> t.readers[path] == S.Held(row))
      && (quiet ==> t.disk.Valid() && path in t.readers && UpToDate(t, path))
  {
    if quiet { CalmReader(s, path, S.AgreeVersion); }
    hide Calm, Index.Counter;
  }

  lemma TookStepGoesOn(trace: seq<Moment>, more: seq<Moment>, k: nat, path: Path, row: Row<S.Content>)
    requires TookStep(trace, k, path, S.AgreeStamp, row) && Pauses(trace, more)
    ensures TookStep(more, k, path, S.AgreeStamp, row)
  {
    TookStepLasts(trace, more, k, path, S.AgreeStamp, row);
  }

  lemma VersionIsSeen(directory: Directory, quiet: bool, trace: seq<Moment>, c: Scene, path: Path, tags: TrackTags,
    row: Row<S.Content>, stamped: nat, d: Scene)
    requires trace != [] && trace[|trace| - 1].scene == c && Within(path, directory) && c.snap.disk.Valid()
    requires TookStep(trace, stamped, path, S.AgreeStamp, row)
    requires path in c.snap.readers && c.snap.readers[path] == S.Agreed(row) && row.value.Recording?
    requires d == c.(snap := S.ApplyReader(c.snap, path, S.AgreeVersion))
    requires path in d.snap.readers ==> d.snap.readers[path] == S.Held(row)
    requires row.value.tags.Normalized() == tags.Normalized()
    requires quiet && path in d.snap.readers ==> d.snap.disk.Valid() && UpToDate(d.snap, path)
    ensures path in d.snap.readers ==>
      Checked(Checks(path, row.value.tags, stamped), path, tags) && HoldsLike(quiet, d.snap, path, tags)
    ensures var actor := if path in d.snap.readers then Checks(path, row.value.tags, stamped) else Reads(path, S.AgreeVersion);
      && Seen(directory, c, actor, d) && Vouched(trace, actor) && (forall s :: Learns(s, actor)) && !actor.Acts() && !actor.Others?
  {
    CheckIsVouched(trace, path, row.value.tags, stamped, row);
    hide S.ApplyReader, TookStep, TrackTags.Normalized, UpToDate;
  }

  lemma CheckingOn(
    directory: Directory, quiet: bool, path: Path, past: seq<Moment>, start: State, before: Scene, trace: seq<Moment>,
    now: State, here: Scene, middle: S.System, more: seq<Moment>, next: State, there: Scene, actor: Actor)
    requires Reading(directory, quiet, path, past, start, before, trace, now, here)
    requires Ends(trace, more, actor) && actor.Looks() && Drift(directory, now, next) && SameReaders(directory, here.snap, middle)
    requires S.Inv(middle) && middle.disk.Valid() && there.snap == S.ApplyReader(middle, path, S.AgreeVersion)
    requires quiet ==> next == now && there.entries == here.entries && middle == here.snap && Calm(middle)
    ensures Reading(directory, quiet, path, past, start, before, more, next, there)
  {
    EndsIsLooks(trace, more, actor);
    LooksOn(past, trace, more);
    DriftOn(directory, start, now, next);
    if quiet { CalmStep(middle, path, S.AgreeVersion); }
    SameLibraryOn(quiet, before.snap, here.snap, there.snap);
    hide Looks, Drift, Ends, S.Inv, Calm, S.ApplyReader, UpToDate, SameLibrary;
    forall other | Within(other, directory) && other != path
      ensures other in there.snap.readers <==> other in before.snap.readers
      ensures other in there.snap.readers ==> there.snap.readers[other] == before.snap.readers[other]
    {
      OtherReadersStay(directory, middle, path, S.AgreeVersion, other);
    }
  }

  lemma SameLibraryStays(s: S.System)
    requires s.disk.Valid()
    ensures SameLibrary(s, s)
  {
  }

  lemma DiskIsValid(directory: Directory, quiet: bool, a: Answers, trace: seq<Moment>, s: State, c: Scene)
    requires Ready(directory, quiet, a, trace, s, c)
    ensures c.snap.disk.Valid()
  {
    ReadyMeans(directory, quiet, a, trace, s, c);
    hide Ready;
  }

  lemma LibraryStays(directory: Directory, quiet: bool, a: Answers, trace: seq<Moment>, s: State, c: Scene)
    requires Ready(directory, quiet, a, trace, s, c)
    ensures SameLibrary(c.snap, c.snap)
  {
    ReadyMeans(directory, quiet, a, trace, s, c);
    hide Ready;
    SameLibraryStays(c.snap);
  }

  lemma SameLibraryOn(quiet: bool, s: S.System, t: S.System, u: S.System)
    requires quiet ==> SameLibrary(s, t) && SameLibrary(t, u)
    ensures quiet ==> SameLibrary(s, u)
  {
  }

  lemma NoEvidence(trace: seq<Moment>, since: nat, paths: seq<Path>, tags: TrackTags)
    ensures Evidence(trace, since, paths[..0], tags, [])
  {
  }

  lemma HeldOnes(quiet: bool, s: S.System, path: Path, tags: TrackTags)
    requires HoldsLike(quiet, s, path, tags)
    ensures path in s.readers
  {
  }

  lemma HoldsStays(quiet: bool, s: S.System, t: S.System, path: Path, tags: TrackTags)
    requires HoldsLike(quiet, s, path, tags) && path in t.readers && t.readers[path] == s.readers[path]
    requires IsAudio(path) && (quiet ==> SameLibrary(s, t))
    ensures HoldsLike(quiet, t, path, tags)
  {
    hide TrackTags.Normalized, Index.FileVersion;
  }

  lemma OneIsHeld(directory: Directory, quiet: bool, s: S.System, paths: seq<Path>, tags: TrackTags, k: nat)
    requires Holding(quiet, s, paths, tags) && AllWithin(directory, paths) && k < |paths|
    ensures HoldsLike(quiet, s, paths[k], tags) && Within(paths[k], directory) && IsAudio(paths[k])
  {
    hide HoldsLike;
  }

  /** One file of a group was checked, and the group is still held. */
  lemma OneMoreChecked(directory: Directory, quiet: bool, past: seq<Moment>, trace: seq<Moment>, since: nat,
    paths: seq<Path>, k: nat, tags: TrackTags, marks: seq<nat>, s: S.System, t: S.System)
    requires k < |paths| && Evidence(past, since, paths[..k], tags, marks) && past < trace && since <= |past|
    requires trace[|trace| - 1].actor.Checks? && Checked(trace[|trace| - 1].actor, paths[k], tags)
    requires |past| <= trace[|trace| - 1].actor.stamped < |trace| - 1
    requires Holding(quiet, s, paths, tags) && OtherReaders(directory, paths[k], s, t) && AllWithin(directory, paths)
    requires HoldsLike(quiet, t, paths[k], tags) && (quiet ==> SameLibrary(s, t))
    ensures Evidence(trace, since, paths[..k + 1], tags, marks + [|trace| - 1]) && Holding(quiet, t, paths, tags)
  {
    hide *;
    EvidenceGrows(past, trace, since, paths, k, tags, marks);
    HoldingGoesOn(directory, quiet, paths, k, tags, s, t);
  }

  lemma EvidenceGrows(past: seq<Moment>, trace: seq<Moment>, since: nat, paths: seq<Path>, k: nat, tags: TrackTags,
    marks: seq<nat>)
    requires k < |paths| && Evidence(past, since, paths[..k], tags, marks) && past < trace && since <= |past|
    requires trace[|trace| - 1].actor.Checks? && Checked(trace[|trace| - 1].actor, paths[k], tags)
    requires |past| <= trace[|trace| - 1].actor.stamped < |trace| - 1
    ensures Evidence(trace, since, paths[..k + 1], tags, marks + [|trace| - 1])
  {
    hide Checked;
    assert paths[..k + 1] == paths[..k] + [paths[k]];
  }

  lemma HoldingGoesOn(directory: Directory, quiet: bool, paths: seq<Path>, k: nat, tags: TrackTags, s: S.System,
    t: S.System)
    requires Holding(quiet, s, paths, tags) && AllWithin(directory, paths) && k < |paths|
    requires OtherReaders(directory, paths[k], s, t)
    requires HoldsLike(quiet, t, paths[k], tags) && (quiet ==> SameLibrary(s, t))
    ensures Holding(quiet, t, paths, tags)
  {
    hide HoldsLike, SameLibrary;
    forall i | 0 <= i < |paths| ensures HoldsLike(quiet, t, paths[i], tags) {
      if paths[i] != paths[k] {
        HeldOnes(quiet, s, paths[i], tags);
        HoldsStays(quiet, s, t, paths[i], tags);
      }
    }
  }

  // ---------------------------------------------------------------------------
  // The world
  // ---------------------------------------------------------------------------

  class World {
    const directory: Directory
    const quiet: bool
    const answers: Answers
    const db: CacheDb
    var files: map<Path, Node>
    var nextId: nat
    var lookups: nat
    var snap: S.System
    var entries: set<Path>
    ghost var trace: seq<Moment>

    ghost function Now(): State
      reads this, db
    {
      State(files, db.Content(), nextId)
    }

    ghost function Here(): Scene
      reads this
    {
      Scene(snap, entries)
    }

    ghost predicate Valid()
      reads this, db
    {
      Ready(directory, quiet, answers, trace, Now(), Here())
    }

    constructor (
      directory: Directory, quiet: bool, answers: Answers, db: CacheDb,
      files: map<Path, Node>, nextId: nat, snap: S.System, entries: set<Path>)
      requires Provenance(directory, State(files, db.Content(), nextId)) && S.Inv(snap) && Linked(directory, files, snap)
      requires IdsBelow(State(files, db.Content(), nextId)) && (quiet ==> QuietScene(directory, answers, Scene(snap, entries)))
      ensures Valid() && Now() == State(files, db.Content(), nextId) && Here() == Scene(snap, entries)
      ensures this.directory == directory && this.quiet == quiet && this.answers == answers && this.db == db
      ensures trace == [Moment(Others, Now(), Here())]
    {
      this.directory, this.quiet, this.answers, this.db := directory, quiet, answers, db;
      this.files, this.nextId, lookups, this.snap, this.entries := files, nextId, 0, snap, entries;
      trace := [Moment(Others, State(files, db.Content(), nextId), Scene(snap, entries))];
      new;
      hide Provenance, S.Inv, IdsBelow, QuietScene, Linked;
    }

    /** One more moment of the history, with the state and the scene as they are now. */
    ghost method Remember(actor: Actor, s: State, c: Scene)
      requires Ready(directory, quiet, answers, trace, s, c) && trace != [] && Vouched(trace, actor)
      requires Fair(directory, s, actor, Now()) && Seen(directory, c, actor, Here())
      requires Provenance(directory, Now()) && S.Inv(snap) && IdsBelow(Now()) && Linked(directory, files, snap)
      requires quiet ==> QuietScene(directory, answers, Here())
      modifies `trace
      ensures Valid() && trace == old(trace) + [Moment(actor, Now(), Here())]
    {
      hide Linked, Ready, Reading, Drift, QuietScene, Calm, Holding, HoldsTags, History, Fair, Seen, Vouched, Learns,
        Provenance, IdsBelow, S.Inv, S.ApplyReader, Beside, R.Run, TrackTags.Normalized;
      ReadyGrows(directory, quiet, answers, trace, s, c, actor, Now(), Here());
      trace := trace + [Moment(actor, Now(), Here())];
    }

    /** A look that changes nothing. */
    ghost method Note(actor: Actor)
      requires Valid() && trace != [] && Vouched(trace, actor) && Learns(Now(), actor) && Seen(directory, Here(), actor, Here())
      requires !actor.Acts() && !actor.Others?
      modifies `trace
      ensures Valid() && trace == old(trace) + [Moment(actor, Now(), Here())]
    {
      hide Linked, Ready, Reading, Drift, Looks, QuietScene, Holding, HoldsTags, Checked, History, Fair, Seen, Vouched,
        Learns, Provenance, IdsBelow, S.Inv, S.ApplyReader, Beside, R.Run, TrackTags.Normalized;
      ReadyMeans(directory, quiet, answers, trace, Now(), Here());
      LearningIsFair(directory, Now(), actor);
      Remember(actor, Now(), Here());
    }

    method Do(deed: Deed)
      modifies `files, `nextId, db`tracks, db`sidecars
      ensures Now() == Done(directory, old(Now()), deed)
    {
      match deed
      case Put(path, content) =>
        files := files[path := Node(content, User, nextId)];
        nextId := nextId + 1;
      case Remove(path) => files := files - {path};
      case Record(path, track) =>
        if !(path.Path? && path.parent == directory) {
          db.tracks := db.tracks[path := track];
        }
      case RecordSidecar(path, row) =>
        if !(path.Path? && path.parent == directory) {
          db.sidecars := db.sidecars[path := row];
        }
    }

    /** The others act; in a quiet world there are none. */
    method Yield()
      requires Valid()
      modifies this`files, this`nextId, this`trace, this`snap, this`entries, db`tracks, db`sidecars
      ensures Valid() && Pauses(old(trace), trace) && Drift(directory, old(Now()), Now())
      ensures SameReaders(directory, old(snap), snap)
      ensures quiet ==> Now() == old(Now()) && Here() == old(Here()) && trace == old(trace)
    {
      hide Linked, Together, Ready, Drift, Pauses, Looks, SameReaders, QuietScene, Calm, Holding, History, Fair, Seen,
        Vouched, Provenance, IdsBelow, S.Inv, S.ApplyReader, Beside, OthersSteps, R.Run, TrackTags.Normalized;
      ghost var start, here := Now(), Here();
      ReadyMeans(directory, quiet, answers, trace, start, here);
      Nothing(trace);
      DriftStays(directory, start);
      SameReadersStay(directory, snap);
      if quiet {
        return;
      }
      var were, known, tracks, sidecars := files, nextId, db.tracks, db.sidecars;
      var deeds: seq<Deed> := *;
      for i := 0 to |deeds|
        invariant Drift(directory, start, Now()) && IdsBelow(Now())
        invariant trace == old(trace) && Here() == here
      {
        ghost var middle := Now();
        DeedDrifts(directory, middle, deeds[i]);
        DeedKeepsIds(directory, middle, deeds[i]);
        Do(deeds[i]);
        DriftOn(directory, start, middle, Now());
      }
      var steps: seq<S.Step>, others: set<Path> := *, *;
      BesideItself(directory, snap);
      if OthersSteps(directory, steps) && Together(directory, were, snap.disk, files, R.Run(snap, steps).disk) {
        snap := R.Run(snap, steps);
        StepsAreBeside(directory, here.snap, steps);
        TogetherIsLinked(directory, start, here.snap, Now(), snap);
      } else {
        files, nextId, db.tracks, db.sidecars := were, known, tracks, sidecars;
      }
      entries := others;
      BesideKeeps(directory, here.snap, snap);
      DriftKeepsProvenance(directory, start, Now());
      OthersAreFair(directory, start, here, Now(), Here());
      Remember(Others, start, here);
      OneMorePause(old(trace), trace);
    }

    // -------------------------------------------------------------------------
    // Looking
    // -------------------------------------------------------------------------

    method Eligible(path: Path) returns (b: bool)
      ensures quiet ==> b == answers.eligible(path)
    {
      if quiet {
        b := answers.eligible(path);
      } else {
        b := *;
      }
    }

    /** Whether the service stops; the owner need not go on then. */
    method Cancelled() returns (b: bool)
      requires Valid()
      modifies `trace
      ensures Valid() && if b then Ends(old(trace), trace, Leaves(Stopping)) else trace == old(trace)
      ensures quiet ==> !b
    {
      hide Ready, Ends;
      if quiet {
        return false;
      }
      b := *;
      if b {
        Leave(old(trace), Stopping);
      }
    }

    /** Whether the directory itself is eligible. */
    method Admitted() returns (b: bool)
      requires Valid()
      modifies `trace
      ensures Valid() && if b then trace == old(trace) else Ends(old(trace), trace, Leaves(Excluded))
      ensures quiet ==> b
    {
      hide Ready, Ends;
      if quiet {
        return true;
      }
      b := *;
      if !b {
        Leave(old(trace), Excluded);
      }
    }

    /** Whether a sidecar name is eligible; if it is not, the pass leaves the group alone. */
    method Allows(path: Path) returns (b: bool)
      requires Valid()
      modifies `trace
      ensures Valid() && if b then trace == old(trace) else Ends(old(trace), trace, Leaves(Excluded))
      ensures quiet ==> b == answers.eligible(path)
    {
      hide Ready, Ends;
      if quiet {
        b := answers.eligible(path);
      } else {
        b := *;
      }
      if !b {
        Nothing(trace);
        Leave(old(trace), Excluded);
      }
    }

    /** What makes the owner leave is part of the history. */
    ghost method Leave(past: seq<Moment>, cause: Cause)
      requires Valid() && Pauses(past, trace)
      modifies `trace
      ensures Valid() && Ends(past, trace, Leaves(cause))
    {
      hide Ready, Pauses, Ends, Fair, Vouched, Learns, Seen;
      ghost var paused := trace;
      LastIs(directory, quiet, answers, trace, Now(), Here());
      LeavingIsFree(directory, trace, Now(), Here(), cause);
      Note(Leaves(cause));
      EndsHere(past, paused, trace, Moment(Leaves(cause), Now(), Here()));
    }

    /** One step of the owner's reader of `path`, after the others acted. */
    method Advance(path: Path, step: S.ReaderStep, ghost past: seq<Moment>, ghost start: State, ghost before: Scene)
      returns (ghost middle: S.System)
      requires Valid() && Within(path, directory)
      requires Reading(directory, quiet, path, past, start, before, trace, Now(), Here())
      requires quiet && step.Store? ==> snap.disk.Valid() && path in snap.readers && UpToDate(snap, path)
      modifies this`files, this`nextId, this`trace, this`snap, this`entries, db`tracks, db`sidecars
      ensures Valid() && Reading(directory, quiet, path, past, start, before, trace, Now(), Here())
      ensures old(trace) < trace && |trace| > 1 && trace[|trace| - 1] == Moment(Reads(path, step), Now(), Here())
      ensures S.Inv(middle) && middle.disk.Valid() && snap.disk.Valid() && SameReaders(directory, old(snap), middle)
      ensures snap == S.ApplyReader(middle, path, step) && trace[|trace| - 2].scene.snap == middle
      ensures quiet ==> middle == old(snap) && Calm(middle)
    {
      hide Linked, Ready, Reading, Drift, Pauses, Looks, Ends, SameReaders, SameLibrary, QuietScene, Calm, UpToDate, Holding,
        HoldsTags, Checked, History, Fair, Seen, Vouched, Learns, Provenance, IdsBelow, S.Inv, S.ApplyReader, Beside,
        R.Run, TrackTags.Normalized;
      Yield();
      ghost var paused, s, c := trace, Now(), Here();
      middle := snap;
      ReadyMeans(directory, quiet, answers, trace, s, c);
      QuietIsCalm(directory, quiet, answers, c);
      StepIsSound(directory, quiet, answers, c, path, step);
      StepKeepsLinked(directory, files, snap, path, step);
      snap := S.ApplyReader(snap, path, step);
      StepIsSeen(directory, c, path, step, Here());
      LearningIsFair(directory, s, Reads(path, step));
      ReadingIsVouched(trace, path, step);
      Remember(Reads(path, step), s, c);
      EndsHere(old(trace), paused, trace, Moment(Reads(path, step), Now(), Here()));
      PausesIsLooks(old(trace), paused);
      ReadingOn(directory, quiet, path, past, start, before, old(trace), old(Now()), old(Here()), middle, trace, Now(), Here(), step);
    }

    /** The owner gives up reading a file. */
    ghost method Give(path: Path, doubt: bool)
      requires Valid()
      modifies `trace
      ensures Valid() && trace == old(trace) + [Moment(if doubt then Doubts(path) else Fails(path), Now(), Here())]
    {
      hide Ready, Reading, Drift, Looks, QuietScene, Holding, HoldsTags, Checked, History, Fair, Seen, Vouched,
        Learns, Provenance, IdsBelow, S.Inv, S.ApplyReader, Beside, R.Run, TrackTags.Normalized;
      ReadyMeans(directory, quiet, answers, trace, Now(), Here());
      GivingIsFree(directory, trace, Now(), Here(), path);
      Note(if doubt then Doubts(path) else Fails(path));
    }

    /** The first steps of `audio`: stamp, version and lookup. */
    method LookUp(path: Path, ghost past: seq<Moment>, ghost start: State, ghost before: Scene) returns (going: bool)
      requires Valid() && Within(path, directory)
      requires Reading(directory, quiet, path, past, start, before, trace, Now(), Here())
      modifies this`files, this`nextId, this`trace, this`snap, this`entries, db`tracks, db`sidecars
      ensures Valid() && Reading(directory, quiet, path, past, start, before, trace, Now(), Here())
      ensures going ==> path in snap.readers && (snap.readers[path].Missed? || snap.readers[path].Got?)
      ensures quiet && going ==> snap.disk.Valid() && UpToDate(snap, path)
      ensures quiet && !going ==> snap.disk.Valid() && path !in snap.disk.link
    {
      hide Ready, Reading, SameReaders, Calm, UpToDate, Holding, Vouched, S.Inv, S.ApplyReader, R.Run,
        TrackTags.Normalized;
      ghost var middle, free := snap, snap;
      if path in snap.readers {
        middle := Advance(path, S.Drop, past, start, before);
        Dropped(directory, old(snap), middle, path);
        free := snap;
      }
      middle := Advance(path, S.Begin, past, start, before);
      Begun(directory, free, middle, path);
      var failing := *;
      if path !in snap.readers || (failing && !quiet) {
        return false;
      }
      ghost var last := snap;
      middle := Advance(path, S.TakeVersion, past, start, before);
      Moved(directory, quiet, last, middle, path, S.TakeVersion);
      last := snap;
      if path !in snap.readers {
        return false;
      }
      middle := Advance(path, S.LookUp, past, start, before);
      Moved(directory, quiet, last, middle, path, S.LookUp);
      return path in snap.readers;
    }

    /** What the cache does not know is read from the file; a write meanwhile may tear it. */
    method Load(path: Path, ghost past: seq<Moment>, ghost start: State, ghost before: Scene) returns (got: bool)
      requires Valid() && Within(path, directory) && path in snap.readers && snap.readers[path].Missed?
      requires Reading(directory, quiet, path, past, start, before, trace, Now(), Here())
      requires quiet ==> snap.disk.Valid() && UpToDate(snap, path)
      modifies this`files, this`nextId, this`trace, this`snap, this`entries, db`tracks, db`sidecars
      ensures Valid() && Reading(directory, quiet, path, past, start, before, trace, Now(), Here())
      ensures got ==> path in snap.readers && snap.readers[path].Got?
      ensures quiet ==> got && snap.disk.Valid() && UpToDate(snap, path)
    {
      hide Ready, Reading, SameReaders, Calm, UpToDate, Holding, Vouched, S.Inv, S.ApplyReader, R.Run,
        TrackTags.Normalized;
      ghost var last := snap;
      ghost var middle := Advance(path, S.Open, past, start, before);
      Moved(directory, quiet, last, middle, path, S.Open);
      if path !in snap.readers {
        return false;
      }
      var torn: S.Content := *;
      last := snap;
      middle := Advance(path, S.EndRead(torn), past, start, before);
      Moved(directory, quiet, last, middle, path, S.EndRead(torn));
      return path in snap.readers;
    }

    /** The first half of `audio`: what it was, by the cache or by the file itself. */
    method ReadFirst(path: Path, ghost past: seq<Moment>, ghost start: State, ghost before: Scene) returns (got: bool)
      requires Valid() && Within(path, directory) && IsAudio(path)
      requires Reading(directory, quiet, path, past, start, before, trace, Now(), Here())
      modifies this`files, this`nextId, this`trace, this`snap, this`entries, db`tracks, db`sidecars
      ensures Valid() && Reading(directory, quiet, path, past, start, before, trace, Now(), Here())
      ensures got ==> path in snap.readers && snap.readers[path].Got? && snap.readers[path].row.value.Recording?
      ensures quiet && got ==> snap.disk.Valid() && UpToDate(snap, path) && answers.tags(path) == Some(snap.readers[path].row.value.tags)
      ensures quiet && !got ==> answers.tags(path) == None
    {
      hide Ready, Reading, UpToDate, Holding, Vouched, S.Inv, S.ApplyReader, R.Run, TrackTags.Normalized;
      got := LookUp(path, past, start, before);
      if got && snap.readers[path].Missed? {
        got := Load(path, past, start, before);
      }
      QuietTags(directory, quiet, answers, trace, Now(), Here(), path);
      return got && snap.readers[path].row.value.Recording?;
    }

    /** The rechecks of `audio` and of `lyrics`. */
    method Recheck(path: Path, ghost past: seq<Moment>, ghost start: State, ghost before: Scene)
      returns (b: bool, ghost stamped: nat, ghost versioned: nat)
      requires Valid() && Within(path, directory) && path in snap.readers && snap.readers[path].Got?
      requires Reading(directory, quiet, path, past, start, before, trace, Now(), Here())
      requires quiet ==> snap.disk.Valid() && UpToDate(snap, path)
      modifies this`files, this`nextId, this`trace, this`snap, this`entries, db`tracks, db`sidecars
      ensures Valid() && Reading(directory, quiet, path, past, start, before, trace, Now(), Here())
      ensures b ==> |old(trace)| <= stamped < versioned && path in snap.readers && snap.readers[path].Confirmed?
      ensures b ==> snap.readers[path].row == old(snap).readers[path].row
      ensures b ==> TookStep(trace, stamped, path, S.RecheckStamp, snap.readers[path].row)
      ensures b ==> TookStep(trace, versioned, path, S.RecheckVersion, snap.readers[path].row)
      ensures quiet ==> b && snap.disk.Valid() && UpToDate(snap, path) && stamped < |trace| && Settled(trace, stamped, path)
    {
      hide Ready, Reading, SameReaders, Calm, UpToDate, Holding, Vouched, S.Inv, S.ApplyReader, R.Run, TookStep,
        TrackTags.Normalized, Settled, History, Looks;
      stamped, versioned := 0, 0;
      ghost var row, last := snap.readers[path].row, snap;
      ghost var middle := Advance(path, S.RecheckStamp, past, start, before);
      RowMoved(directory, quiet, last, middle, path, S.RecheckStamp);
      var moved := *;
      if path !in snap.readers || (moved && !quiet) {
        return false, stamped, versioned;
      }
      stamped := |trace| - 1;
      StepTaken(trace, path, S.RecheckStamp, row);
      CalmIsSettled(directory, quiet, answers, trace, Now(), Here(), path);
      ghost var early := trace;
      last := snap;
      middle := Advance(path, S.RecheckVersion, past, start, before);
      RowMoved(directory, quiet, last, middle, path, S.RecheckVersion);
      if path !in snap.readers {
        return false, stamped, versioned;
      }
      versioned := |trace| - 1;
      StepTaken(trace, path, S.RecheckVersion, row);
      TookStepLasts(early, trace, stamped, path, S.RecheckStamp, row);
      SettledLasts(early, trace, stamped, path);
      return true, stamped, versioned;
    }

    /** The store of a reader, whose displaced aliases are submitted by their directories. */
    method StoreRow(path: Path, ghost past: seq<Moment>, ghost start: State, ghost before: Scene) returns (stored: bool)
      requires Valid() && Within(path, directory) && path in snap.readers && snap.readers[path].Confirmed?
      requires Reading(directory, quiet, path, past, start, before, trace, Now(), Here())
      requires quiet ==> snap.disk.Valid() && UpToDate(snap, path)
      modifies this`files, this`nextId, this`trace, this`snap, this`entries, db`tracks, db`sidecars
      ensures Valid() && Reading(directory, quiet, path, past, start, before, trace, Now(), Here()) && old(trace) < trace
      ensures trace != [] && trace[|trace| - 1].scene == Here()
      ensures stored ==> path in snap.readers && snap.readers[path] == S.Held(old(snap).readers[path].row) && Submitted(trace, path)
      ensures quiet ==> stored && snap.disk.Valid() && UpToDate(snap, path)
    {
      hide Ready, Reading, SameReaders, Calm, UpToDate, Holding, Vouched, S.Inv, S.ApplyReader, R.Run, History, Looks, Leftover;
      ghost var last := snap;
      ghost var middle := Advance(path, S.Store, past, start, before);
      RowMoved(directory, quiet, last, middle, path, S.Store);
      if path !in snap.readers {
        return false;
      }
      ghost var early := trace;
      SubmittingIsFree(directory, trace, Now(), Here(), path, Leftover(middle, path));
      Note(Submits(path, Leftover(middle, path)));
      ReadingNoted(directory, quiet, path, past, start, before, early, trace, Now(), Here());
      return true;
    }

    /** The second half of `audio`: both rechecks, and the store. */
    method ReadLast(path: Path, ghost past: seq<Moment>, ghost start: State, ghost before: Scene)
      returns (r: Result<Option<TrackTags>>)
      requires Valid() && Within(path, directory)
      requires Reading(directory, quiet, path, past, start, before, trace, Now(), Here())
      requires path in snap.readers && snap.readers[path].Got? && snap.readers[path].row.value.Recording?
      requires quiet ==> snap.disk.Valid() && UpToDate(snap, path)
      modifies this`files, this`nextId, this`trace, this`snap, this`entries, db`tracks, db`sidecars
      ensures Valid() && Reading(directory, quiet, path, past, start, before, trace, Now(), Here())
      ensures r.Ok? && r.value.Some? ==> r.value.value == old(snap).readers[path].row.value.tags
      ensures r.Ok? && r.value.Some? ==> past < trace && Confirming(trace[|trace| - 1], path, r.value.value)
      ensures r.Ok? && r.value.Some? ==> HoldsLike(quiet, snap, path, r.value.value) && HoldsTags(snap, path, r.value.value)
      ensures quiet ==> r.Ok? && r.value.Some?
    {
      hide Ready, Reading, Drift, Pauses, Looks, Ends, SameReaders, Calm, UpToDate, HoldsLike, Holding, HoldsTags,
        Checked, History, Fair, Seen, Vouched, Learns, Provenance, S.Inv, S.ApplyReader, Beside, R.Run, TookStep,
        TrackTags.Normalized, Submitted;
      var tags := snap.readers[path].row.value.tags;
      ghost var row := snap.readers[path].row;
      var confirmed;
      ghost var stamped, versioned;
      confirmed, stamped, versioned := Recheck(path, past, start, before);
      if !confirmed {
        return Ok(None);
      }
      var failing := *;
      if failing && !quiet {
        return Err;
      }
      ghost var early := trace;
      var stored := StoreRow(path, past, start, before);
      if !stored {
        return Err;
      }
      TookStepLasts(early, trace, stamped, path, S.RecheckStamp, row);
      TookStepLasts(early, trace, versioned, path, S.RecheckVersion, row);
      ConfirmationIsVouched(trace, path, tags, stamped, versioned, row);
      HeldTags(quiet, Here(), path, tags, row, stamped, versioned, Now(), directory);
      early := trace;
      Note(Confirms(path, tags, stamped, versioned));
      ReadingNoted(directory, quiet, path, past, start, before, early, trace, Now(), Here());
      return Ok(Some(tags));
    }

    /**
     `audio`: tags that are handed out were confirmed by both rechecks; nothing when the file changed under
     the reader, and an error when it cannot be read.
     */
    method ReadAudio(path: Path) returns (r: Result<Option<TrackTags>>)
      requires Valid() && Within(path, directory) && IsAudio(path)
      modifies this`files, this`nextId, this`trace, this`snap, this`entries, db`tracks, db`sidecars
      ensures Valid() && Glances(old(trace), trace, r == Ok(None)) && Drift(directory, old(Now()), Now())
      ensures r.Ok? && r.value.Some? ==> old(trace) < trace && Confirming(trace[|trace| - 1], path, r.value.value)
      ensures r.Ok? && r.value.Some? ==> HoldsLike(quiet, snap, path, r.value.value) && HoldsTags(snap, path, r.value.value)
      ensures r == Ok(None) ==> old(trace) < trace && trace[|trace| - 1].actor == Doubts(path)
      ensures r.Err? ==> old(trace) < trace && trace[|trace| - 1].actor == Fails(path)
      ensures OtherReaders(directory, path, old(snap), snap)
      ensures quiet ==> Now() == old(Now()) && SameLibrary(old(snap), snap)
      ensures quiet ==> r == (if answers.tags(path).Some? then Ok(answers.tags(path)) else Err)
    {
      hide Ready, Reading, Drift, Looks, Glances, OtherReaders, SameLibrary, UpToDate, HoldsLike, Holding, HoldsTags,
        Vouched, S.Inv, S.ApplyReader, R.Run, TrackTags.Normalized;
      ghost var past, start, before := trace, Now(), Here();
      DiskIsValid(directory, quiet, answers, trace, Now(), Here());
      ReadingStarts(directory, quiet, path, past, start, before);
      var got := ReadFirst(path, past, start, before);
      r := Err;
      if got {
        r := ReadLast(path, past, start, before);
      }
      ReadingMeans(directory, quiet, path, past, start, before, trace, Now(), Here());
      if r == Err || r == Ok(None) {
        ghost var read := trace;
        Give(path, r == Ok(None));
        LooksThenGives(past, read, trace, path, r == Ok(None));
      } else {
        LooksGlance(past, trace);
      }
    }

    /** One file of `still_current`: eligibility, the stamp, and later the version. */
    method AgreesStill(path: Path, ghost tags: TrackTags, ghost past: seq<Moment>, ghost start: State, ghost before: Scene)
      returns (b: bool, ghost stamped: nat)
      requires Valid() && Within(path, directory) && HoldsLike(quiet, snap, path, tags)
      requires Reading(directory, quiet, path, past, start, before, trace, Now(), Here())
      requires quiet ==> answers.eligible(path)
      modifies this`files, this`nextId, this`trace, this`snap, this`entries, db`tracks, db`sidecars
      ensures Valid() && Reading(directory, quiet, path, past, start, before, trace, Now(), Here())
      ensures b ==> |old(trace)| <= stamped < |trace| - 1 && old(trace) < trace && HoldsLike(quiet, snap, path, tags)
      ensures b ==> trace[|trace| - 1].actor.Checks? && trace[|trace| - 1].actor.stamped == stamped
      ensures b ==> Checked(trace[|trace| - 1].actor, path, tags)
      ensures quiet ==> b
    {
      hide Ready, Reading, SameReaders, Calm, UpToDate, HoldsLike, Holding, Checked, Vouched, S.Inv, S.ApplyReader,
        R.Run, TookStep, TrackTags.Normalized;
      stamped := 0;
      HoldsRow(quiet, snap, path, tags);
      ghost var row := snap.readers[path].row;
      var eligible := Eligible(path);
      if !eligible {
        return false, stamped;
      }
      ghost var last := snap;
      ghost var middle := Advance(path, S.AgreeStamp, past, start, before);
      RowMoved(directory, quiet, last, middle, path, S.AgreeStamp);
      var failing := *;
      if path !in snap.readers || (failing && !quiet) {
        return false, stamped;
      }
      stamped := |trace| - 1;
      StepTaken(trace, path, S.AgreeStamp, row);
      b := CompareVersion(path, tags, row, stamped, past, start, before);
    }

    /** The version comparison that ends a check. */
    method CompareVersion(path: Path, ghost tags: TrackTags, ghost row: Row<S.Content>, ghost stamped: nat,
      ghost past: seq<Moment>, ghost start: State, ghost before: Scene)
      returns (b: bool)
      requires Valid() && Within(path, directory) && TookStep(trace, stamped, path, S.AgreeStamp, row) && stamped < |trace|
      requires Reading(directory, quiet, path, past, start, before, trace, Now(), Here())
      requires path in snap.readers && snap.readers[path] == S.Agreed(row) && row.value.Recording?
      requires row.value.tags.Normalized() == tags.Normalized() && (quiet ==> snap.disk.Valid() && UpToDate(snap, path))
      modifies this`files, this`nextId, this`trace, this`snap, this`entries, db`tracks, db`sidecars
      ensures Valid() && Reading(directory, quiet, path, past, start, before, trace, Now(), Here())
      ensures b ==> old(trace) < trace && HoldsLike(quiet, snap, path, tags)
      ensures b ==> trace[|trace| - 1].actor.Checks? && trace[|trace| - 1].actor.stamped == stamped
      ensures b ==> Checked(trace[|trace| - 1].actor, path, tags)
      ensures quiet ==> b
    {
      hide Linked, Ready, Reading, Drift, Pauses, Looks, Ends, SameReaders, QuietScene, Calm, UpToDate, HoldsLike, Holding,
        HoldsTags, Checked, History, Fair, Seen, Vouched, Learns, Provenance, IdsBelow, S.Inv, S.ApplyReader, Beside,
        R.Run, TookStep, TrackTags.Normalized;
      ghost var early, now, here := trace, Now(), Here();
      Yield();
      ghost var paused, s, c := trace, Now(), Here();
      OwnReaderStays(directory, here.snap, snap, path);
      ReadyMeans(directory, quiet, answers, trace, s, c);
      QuietIsCalm(directory, quiet, answers, c);
      StepIsSound(directory, quiet, answers, c, path, S.AgreeVersion);
      StepKeepsLinked(directory, files, snap, path, S.AgreeVersion);
      VersionDecides(quiet, c.snap, path, row);
      snap := S.ApplyReader(snap, path, S.AgreeVersion);
      b := path in snap.readers;
      ghost var actor := if b then Checks(path, row.value.tags, stamped) else Reads(path, S.AgreeVersion);
      TookStepGoesOn(early, trace, stamped, path, row);
      VersionIsSeen(directory, quiet, trace, c, path, tags, row, stamped, Here());
      LearningIsFair(directory, s, actor);
      Remember(actor, s, c);
      EndsHere(early, paused, trace, Moment(actor, Now(), Here()));
      EndsIsLooks(early, trace, actor);
      CheckingOn(directory, quiet, path, past, start, before, early, now, here, c.snap, trace, Now(), Here(), actor);
    }

    /** Whether all the audio that was read is still what it was; each file that is vouches for its tags. */
    method StillCurrent(paths: seq<Path>, ghost tags: TrackTags) returns (b: bool, ghost marks: seq<nat>)
      requires Valid() && Holding(quiet, snap, paths, tags) && AllWithin(directory, paths)
      requires quiet ==> forall k :: 0 <= k < |paths| ==> answers.eligible(paths[k])
      modifies this`files, this`nextId, this`trace, this`snap, this`entries, db`tracks, db`sidecars
      ensures Valid() && Glances(old(trace), trace, !b) && Drift(directory, old(Now()), Now())
      ensures b ==> Evidence(trace, |old(trace)|, paths, tags, marks) && Holding(quiet, snap, paths, tags)
      ensures quiet ==> Now() == old(Now()) && b && SameLibrary(old(snap), snap)
    {
      hide Ready, Reading, Drift, Pauses, Looks, Glances, OtherReaders, SameLibrary, HoldsLike, Holding, Evidence,
        Checked, Vouched, S.Inv, S.ApplyReader, R.Run, AllWithin, TrackTags.Normalized;
      marks := [];
      Nothing(trace);
      DriftStays(directory, Now());
      LibraryStays(directory, quiet, answers, trace, Now(), Here());
      NoEvidence(trace, |trace|, paths, tags);
      for k := 0 to |paths|
        invariant Valid() && Looks(old(trace), trace) && Drift(directory, old(Now()), Now())
        invariant Evidence(trace, |old(trace)|, paths[..k], tags, marks) && Holding(quiet, snap, paths, tags)
        invariant quiet ==> Now() == old(Now()) && SameLibrary(old(snap), snap)
      {
        OneIsHeld(directory, quiet, snap, paths, tags, k);
        ghost var past, start, before := trace, Now(), Here();
        DiskIsValid(directory, quiet, answers, trace, Now(), Here());
        ReadingStarts(directory, quiet, paths[k], past, start, before);
        ghost var stamped;
        b, stamped := AgreesStill(paths[k], tags, past, start, before);
        ReadingMeans(directory, quiet, paths[k], past, start, before, trace, Now(), Here());
        DriftOn(directory, old(Now()), start, Now());
        SameLibraryOn(quiet, old(snap), before.snap, snap);
        LooksOn(old(trace), past, trace);
        if !b {
          ghost var read := trace;
          Give(paths[k], true);
          LooksThenGives(old(trace), read, trace, paths[k], true);
          return;
        }
        OneMoreChecked(directory, quiet, past, trace, |old(trace)|, paths, k, tags, marks, before.snap, snap);
        marks := marks + [|trace| - 1];
      }
      assert paths[..|paths|] == paths;
      LooksGlance(old(trace), trace);
      return true, marks;
    }

    /** The first half of `lyrics`: the text, by the cache or by the file itself. */
    method ReadText(path: Path, ghost past: seq<Moment>, ghost start: State, ghost before: Scene) returns (got: bool)
      requires Valid() && Within(path, directory) && IsSidecar(path)
      requires Reading(directory, quiet, path, past, start, before, trace, Now(), Here())
      modifies this`files, this`nextId, this`trace, this`snap, this`entries, db`tracks, db`sidecars
      ensures Valid() && Reading(directory, quiet, path, past, start, before, trace, Now(), Here())
      ensures got ==> path in snap.readers && snap.readers[path].Got? && Legible(snap.readers[path].row.value)
      ensures quiet && got ==>
        snap.disk.Valid() && UpToDate(snap, path) && Readable(files, path) == Some(snap.readers[path].row.value.text)
      ensures quiet && !got ==> Readable(files, path) == None
    {
      hide Ready, Reading, UpToDate, Holding, Vouched, S.Inv, S.ApplyReader, R.Run, Readable;
      got := LookUp(path, past, start, before);
      if got && snap.readers[path].Missed? {
        got := Load(path, past, start, before);
      }
      QuietText(directory, quiet, answers, trace, Now(), Here(), path);
      return got && snap.readers[path].row.value.Lyrics? && Trim(snap.readers[path].row.value.text) != "";
    }

    /** The second half of `lyrics`: both rechecks, and the store. */
    method TakeText(path: Path, ghost past: seq<Moment>, ghost start: State, ghost before: Scene)
      returns (r: Result<string>, ghost taken: Actor)
      requires Valid() && Within(path, directory) && IsSidecar(path)
      requires Reading(directory, quiet, path, past, start, before, trace, Now(), Here())
      requires path in snap.readers && snap.readers[path].Got? && Legible(snap.readers[path].row.value)
      requires quiet ==> snap.disk.Valid() && UpToDate(snap, path)
      modifies this`files, this`nextId, this`trace, this`snap, this`entries, db`tracks, db`sidecars
      ensures Valid() && Reading(directory, quiet, path, past, start, before, trace, Now(), Here())
      ensures r.Ok? ==> r.value == old(snap).readers[path].row.value.text && !BlankText(r.value)
      ensures r.Ok? ==> past < trace && trace[|trace| - 1] == Moment(taken, Now(), Here())
      ensures r.Ok? ==> taken.Takes? && taken.path == path && taken.text == r.value && |old(trace)| <= taken.stamped < |trace| - 1
      ensures quiet ==> r.Ok? && taken.exact
    {
      hide Ready, Reading, Drift, Pauses, Looks, Ends, SameReaders, Calm, UpToDate, Checked, History, Fair, Seen,
        Vouched, Learns, Provenance, S.Inv, S.ApplyReader, Beside, R.Run, TookStep, BlankText, Settled, Submitted;
      var text := snap.readers[path].row.value.text;
      ghost var row := snap.readers[path].row;
      taken := Fails(path);
      var confirmed;
      ghost var stamped, versioned;
      confirmed, stamped, versioned := Recheck(path, past, start, before);
      var failing := *;
      if !confirmed || (failing && !quiet) {
        return Err, taken;
      }
      ghost var early := trace;
      TookStepIs(early, stamped, path, S.RecheckStamp, row);
      var stored := StoreRow(path, past, start, before);
      if !stored {
        return Err, taken;
      }
      TookStepLasts(early, trace, stamped, path, S.RecheckStamp, row);
      TookStepLasts(early, trace, versioned, path, S.RecheckVersion, row);
      TookStepIs(trace, versioned, path, S.RecheckVersion, row);
      SettledLasts(early, trace, stamped, path);
      TakingIsVouched(trace, path, text, stamped, versioned, row);
      ghost var exact := Settled(trace, stamped, path);
      HeldText(directory, Now(), Here(), path, text, exact, row, stamped, versioned);
      early := trace;
      taken := Takes(path, text, exact, stamped, versioned);
      Note(taken);
      ReadingNoted(directory, quiet, path, past, start, before, early, trace, Now(), Here());
      return Ok(text), taken;
    }

    /**
     `lyrics`: a text that is handed out was confirmed by both rechecks, so the sidecar held it at the second
     stamp comparison, unless a change of a user's file was outstanding or uncovered then; an error when the
     sidecar cannot be read or changed under the reader.
     */
    method ReadLyrics(path: Path) returns (r: Result<string>, ghost taken: Actor, ghost mark: nat)
      requires Valid() && Within(path, directory) && IsSidecar(path)
      modifies this`files, this`nextId, this`trace, this`snap, this`entries, db`tracks, db`sidecars
      ensures Valid() && Drift(directory, old(Now()), Now()) && AudioReaders(directory, old(snap), snap)
      ensures LooksTo(old(trace), trace, taken)
      ensures if r.Ok? then taken.Takes? && taken.path == path && taken.text == r.value else taken == Fails(path)
      ensures r.Ok? ==> !BlankText(r.value) && |old(trace)| <= taken.stamped < |trace| - 1
      ensures r.Ok? ==> ReadAt(trace, |trace| - 1, path, r.value, mark, taken.exact)
      ensures r.Ok? ==> StandsAs(Now(), path, r.value, mark, taken.exact) && HoldsOnly(files, path, Some(r.value))
      ensures quiet ==> Now() == old(Now()) && entries == old(entries) && SameLibrary(old(snap), snap)
      ensures quiet ==> r == (if Readable(files, path).Some? then Ok(Readable(files, path).value) else Err)
    {
      hide Ready, Reading, Drift, Looks, AudioReaders, SameLibrary, UpToDate, History, Vouched, S.Inv, S.ApplyReader, R.Run,
        BlankText, StandsAs, HoldsOnly, Readable;
      ghost var past, start, before := trace, Now(), Here();
      DiskIsValid(directory, quiet, answers, trace, Now(), Here());
      ReadingStarts(directory, quiet, path, past, start, before);
      mark := 0;
      var got := ReadText(path, past, start, before);
      ReadingMeans(directory, quiet, path, past, start, before, trace, Now(), Here());
      r := Err;
      if got {
        ghost var looked := trace;
        LooksGrow(past, looked);
        r, taken := TakeText(path, past, start, before);
        ReadingMeans(directory, quiet, path, past, start, before, trace, Now(), Here());
      }
      if r.Err? {
        ghost var read := trace;
        taken := Fails(path);
        Give(path, false);
        LooksThenGives(past, read, trace, path, false);
        GlancesAreLooks(past, trace, taken);
      } else {
        ReadyMeans(directory, quiet, answers, trace, Now(), Here());
        mark := trace[taken.stamped].state.nextId;
        TakingStands(directory, past, trace, path, r.value, taken, Now());
      }
    }

    method SidecarsFor(audio: Path) returns (r: Result<set<Path>>)
      requires Valid()
      modifies this`files, this`nextId, this`trace, this`snap, this`entries, db`tracks, db`sidecars
      ensures Valid() && Drift(directory, old(Now()), Now()) && SameReaders(directory, old(snap), snap)
      ensures Ends(old(trace), trace, if r.Ok? then Finds(audio, r.value) else Leaves(Broken))
      ensures r.Ok? ==> r.value == SidecarsOf(files, audio)
      ensures quiet ==> Now() == old(Now()) && Here() == old(Here()) && r.Ok?
    {
      hide Ready, Drift, Pauses, Looks, Ends, SameReaders, History, Fair, Seen, Vouched, Learns, Provenance, S.Inv,
        HoldsOnly, TrackTags.Normalized, Unknown, FilesDrift, StaleGenerated, RowSays, Carried, Stored, Ingested;
      Yield();
      var failing := *;
      if failing && !quiet {
        Leave(old(trace), Broken);
        return Err;
      }
      ghost var paused := trace;
      LastIs(directory, quiet, answers, trace, Now(), Here());
      FindingIsFree(directory, trace, Now(), Here(), audio);
      Note(Finds(audio, SidecarsOf(files, audio)));
      EndsHere(old(trace), paused, trace, Moment(Finds(audio, SidecarsOf(files, audio)), Now(), Here()));
      return Ok(SidecarsOf(files, audio));
    }

    /** The entries of the directory: its sidecars, and whatever else it holds. */
    method ReadDir() returns (r: Result<Option<seq<Path>>>)
      requires Valid()
      modifies this`files, this`nextId, this`trace, this`snap, this`entries, db`tracks, db`sidecars
      ensures Valid() && Drift(directory, old(Now()), Now()) && SameReaders(directory, old(snap), snap)
      ensures Ends(old(trace), trace, if r.Err? then Leaves(Broken) else if r.value.None? then Leaves(Gone) else Lists(Stems(directory, entries)))
      ensures r.Ok? && r.value.Some? ==>
        && (forall path :: path in r.value.value <==> Within(path, directory) && (path in files || path in entries))
        && (forall i, j :: 0 <= i < j < |r.value.value| ==> r.value.value[i] != r.value.value[j])
      ensures quiet ==> Now() == old(Now()) && Here() == old(Here()) && r.Ok? && r.value.Some?
    {
      hide Ready, Drift, Pauses, Looks, Ends, SameReaders, History, Fair, Seen, Vouched, Learns, Provenance, S.Inv,
        HoldsOnly, TrackTags.Normalized, Unknown, FilesDrift, StaleGenerated, RowSays, Carried, Stored, Ingested;
      Yield();
      var failing, gone := *, *;
      if failing && !quiet {
        Leave(old(trace), Broken);
        return Err;
      }
      if gone && !quiet {
        Leave(old(trace), Gone);
        return Ok(None);
      }
      var found: seq<Path> := [];
      var left := files.Keys + entries;
      while left != {}
        invariant left <= files.Keys + entries
        invariant forall path :: path in found <==> path in files.Keys + entries - left && Within(path, directory)
        invariant forall i, j :: 0 <= i < j < |found| ==> found[i] != found[j]
        decreases left
      {
        var path :| path in left;
        assert path !in found;
        if path.Path? && path.parent == directory {
          found := found + [path];
        }
        left := left - {path};
      }
      ghost var paused := trace;
      LastIs(directory, quiet, answers, trace, Now(), Here());
      ListingIsFree(directory, trace, Now(), Here());
      Note(Lists(Stems(directory, entries)));
      EndsHere(old(trace), paused, trace, Moment(Lists(Stems(directory, entries)), Now(), Here()));
      return Ok(Some(found));
    }

    /** Whether an entry is eligible and regular; what the daemon wrote is. */
    method CountIn(path: Path) returns (b: bool)
      requires Valid()
      modifies this`files, this`nextId, this`trace, this`snap, this`entries, db`tracks, db`sidecars
      ensures Valid() && Drift(directory, old(Now()), Now()) && SameReaders(directory, old(snap), snap)
      ensures Ends(old(trace), trace, Counts(path, b))
      ensures path in files && files[path].owner == Daemon ==> b
      ensures quiet ==> Now() == old(Now()) && Here() == old(Here()) && b == CountsIn(answers, files, path)
    {
      hide Ready, Drift, Pauses, Looks, Ends, SameReaders, History, Fair, Seen, Vouched, Learns, S.Inv, FilesDrift;
      Yield();
      if path in files && files[path].owner == Daemon {
        b := true;
      } else if quiet {
        b := answers.eligible(path) && !(path in files && files[path].content.Special?);
      } else {
        b := *;
      }
      ghost var paused := trace;
      LastIs(directory, quiet, answers, trace, Now(), Here());
      CountingIsFree(directory, trace, Now(), Here(), path, b);
      Note(Counts(path, b));
      EndsHere(old(trace), paused, trace, Moment(Counts(path, b), Now(), Here()));
    }

    /** Whether a directory entry pairs the sidecar with audio by now. */
    method HasAudio(sidecar: Path) returns (r: Result<bool>)
      requires Valid()
      modifies this`files, this`nextId, this`trace, this`snap, this`entries, db`tracks, db`sidecars
      ensures Valid() && Drift(directory, old(Now()), Now()) && SameReaders(directory, old(snap), snap)
      ensures Ends(old(trace), trace, if r.Ok? then Pairs(sidecar, r.value) else Leaves(Broken))
      ensures r.Ok? ==> r.value == Paired(entries, directory, sidecar)
      ensures quiet ==> Now() == old(Now()) && Here() == old(Here()) && r == Ok(Paired(answers.entries, directory, sidecar))
    {
      hide Ready, Drift, Pauses, Looks, Ends, SameReaders, History, Fair, Seen, Vouched, Learns, Provenance, S.Inv,
        HoldsOnly, TrackTags.Normalized, Unknown, FilesDrift, StaleGenerated, RowSays, Carried, Stored, Ingested;
      hide Paired;
      Yield();
      QuietEntries(directory, quiet, answers, trace, Now(), Here());
      var failing := *;
      if failing && !quiet {
        Leave(old(trace), Broken);
        return Err;
      }
      ghost var paused := trace;
      LastIs(directory, quiet, answers, trace, Now(), Here());
      PairingIsFree(directory, trace, Now(), Here(), sidecar);
      Note(Pairs(sidecar, Paired(entries, directory, sidecar)));
      EndsHere(old(trace), paused, trace, Moment(Pairs(sidecar, Paired(entries, directory, sidecar)), Now(), Here()));
      return Ok(Paired(entries, directory, sidecar));
    }

    method IsLink(path: Path) returns (r: Result<bool>)
      requires Valid()
      modifies this`files, this`nextId, this`trace, this`snap, this`entries, db`tracks, db`sidecars
      ensures Valid() && Drift(directory, old(Now()), Now()) && SameReaders(directory, old(snap), snap)
      ensures Ends(old(trace), trace, if r.Ok? then Inspects(path, r.value) else Leaves(Broken))
      ensures r.Ok? ==> path in files && r.value == files[path].content.Special?
      ensures quiet ==> Now() == old(Now()) && Here() == old(Here()) && (r.Ok? <==> path in files)
    {
      hide Ready, Drift, Pauses, Looks, Ends, SameReaders, History, Fair, Seen, Vouched, Learns, Provenance, S.Inv,
        HoldsOnly, TrackTags.Normalized, Unknown, FilesDrift, StaleGenerated, RowSays, Carried, Stored, Ingested;
      Yield();
      var failing := *;
      if path !in files || (failing && !quiet) {
        Leave(old(trace), Broken);
        return Err;
      }
      ghost var paused := trace;
      LastIs(directory, quiet, answers, trace, Now(), Here());
      InspectingIsFree(directory, trace, Now(), Here(), path);
      Note(Inspects(path, files[path].content.Special?));
      EndsHere(old(trace), paused, trace, Moment(Inspects(path, files[path].content.Special?), Now(), Here()));
      return Ok(files[path].content.Special?);
    }

    /** Whether a file stands again where one was archived; then the pass is to be run again. */
    method StandsAgain(path: Path) returns (b: bool)
      requires Valid()
      modifies this`files, this`nextId, this`trace, this`snap, this`entries, db`tracks, db`sidecars
      ensures Valid() && Drift(directory, old(Now()), Now()) && SameReaders(directory, old(snap), snap)
      ensures if b then Ends(old(trace), trace, Doubts(path)) else Pauses(old(trace), trace)
      ensures b == (path in files)
      ensures quiet ==> Now() == old(Now()) && Here() == old(Here())
    {
      hide Ready, Drift, Pauses, Looks, Ends, SameReaders, S.Inv, TrackTags.Normalized, Unknown, FilesDrift;
      Yield();
      b := path in files;
      if b {
        ghost var paused := trace;
        Give(path, true);
        EndsHere(old(trace), paused, trace, Moment(Doubts(path), Now(), Here()));
      }
    }

    // -------------------------------------------------------------------------
    // Asking the cache and LRCLib
    // -------------------------------------------------------------------------

    method SidecarRow(key: Path) returns (r: Result<Option<SidecarRecord>>)
      requires Valid()
      modifies this`files, this`nextId, this`trace, this`snap, this`entries, db`tracks, db`sidecars
      ensures Valid() && Drift(directory, old(Now()), Now()) && SameReaders(directory, old(snap), snap)
      ensures if r.Ok? then Pauses(old(trace), trace) else Ends(old(trace), trace, Leaves(Broken))
      ensures r.Ok? ==> r.value == if key in db.sidecars then Some(db.sidecars[key]) else None
      ensures quiet ==> Now() == old(Now()) && Here() == old(Here()) && r.Ok?
    {
      hide Ready, Drift, Pauses, Looks, Ends, SameReaders, S.Inv, TrackTags.Normalized, Unknown, FilesDrift;
      Yield();
      var failing := *;
      if failing && !quiet {
        Leave(old(trace), Broken);
        return Err;
      }
      return Ok(if key in db.sidecars then Some(db.sidecars[key]) else None);
    }

    /** What the track's own row says. */
    method Recall(path: Path, tags: TrackTags) returns (r: Result<Option<CachedResult>>)
      requires Valid()
      modifies this`files, this`nextId, this`trace, this`snap, this`entries, db`tracks, db`sidecars
      ensures Valid() && Drift(directory, old(Now()), Now()) && SameReaders(directory, old(snap), snap)
      ensures Ends(old(trace), trace, if r.Ok? then Recalls(path, tags, r.value) else Leaves(Broken))
      ensures quiet ==> Now() == old(Now()) && Here() == old(Here())
      ensures quiet ==> r == Ok(Cached(Now().tables, path, tags, answers.now, db.retry))
    {
      hide Ready, Drift, Pauses, Looks, Ends, SameReaders, History, Fair, Seen, Vouched, Learns, Provenance, S.Inv,
        TrackTags.Normalized, Unknown, FilesDrift, Reusable, Cached;
      Yield();
      ghost var paused := trace;
      var failing, now := *, answers.now;
      if failing && !quiet {
        Leave(old(trace), Broken);
        return Err;
      }
      if !quiet {
        now := *;
      }
      var cached := db.CachedResult(path, tags, now);
      LastIs(directory, quiet, answers, trace, Now(), Here());
      RecallingIsFree(directory, trace, Now(), Here(), path, tags, now, db.retry);
      Note(Recalls(path, tags, cached));
      EndsHere(old(trace), paused, trace, Moment(Recalls(path, tags, cached), Now(), Here()));
      return Ok(cached);
    }

    /** The only text that is recorded for these tags. */
    method Reuse(tags: TrackTags) returns (reuse: Option<string>)
      requires Valid()
      modifies this`files, this`nextId, this`trace, this`snap, this`entries, db`tracks, db`sidecars
      ensures Valid() && Drift(directory, old(Now()), Now()) && SameReaders(directory, old(snap), snap)
      ensures Ends(old(trace), trace, Reuses(tags, reuse))
      ensures quiet ==> Now() == old(Now()) && Here() == old(Here()) && reuse == Reusable(Now().tables, tags)
    {
      hide Ready, Drift, Pauses, Looks, Ends, SameReaders, History, Fair, Seen, Vouched, Learns, Provenance, S.Inv,
        TrackTags.Normalized, Unknown, FilesDrift, Reusable;
      Yield();
      ghost var paused := trace;
      reuse := db.FindCachedLyrics(tags);
      LastIs(directory, quiet, answers, trace, Now(), Here());
      ReusingIsFree(directory, trace, Now(), Here(), tags);
      Note(Reuses(tags, reuse));
      EndsHere(old(trace), paused, trace, Moment(Reuses(tags, reuse), Now(), Here()));
    }

    /** The result to use without a lookup: the track's own lyrics, exact reuse, or its recorded miss. */
    method KnownResult(path: Path, tags: TrackTags) returns (r: Result<Option<CachedResult>>, ghost from: nat,
      ghost recalled: nat, ghost reused: nat)
      requires Valid()
      modifies this`files, this`nextId, this`trace, this`snap, this`entries, db`tracks, db`sidecars
      ensures Valid() && Drift(directory, old(Now()), Now()) && SameReaders(directory, old(snap), snap)
      ensures Peeks(old(trace), trace)
      ensures r.Ok? && r.value.Some? ==> |old(trace)| <= from < |trace| && Gives(trace[from].actor, tags, r.value.value)
      ensures r == Ok(None) ==> |old(trace)| <= recalled && Unknown(trace, tags, recalled, reused)
      ensures r.Err? ==> Stuck(old(trace), trace)
      ensures quiet ==> Now() == old(Now()) && Here() == old(Here()) && r.Ok?
      ensures quiet ==> r.value == WithoutLookup(Now().tables, path, tags, answers.now, db.retry)
    {
      hide Ready, Drift, Pauses, Looks, Peeks, Ends, SameReaders, Vouched, S.Inv, TrackTags.Normalized, Unknown,
        FilesDrift, Reusable, Cached, Gives;
      from, recalled, reused := 0, 0, 0;
      r := Recall(path, tags);
      if r.Err? {
        EndsIsPeeks(old(trace), trace, Leaves(Broken));
        EndsStuck(old(trace), trace, Leaves(Broken));
        return;
      }
      LastIs(directory, quiet, answers, trace, Now(), Here());
      from, recalled := |trace| - 1, |trace| - 1;
      EndsIsPeeks(old(trace), trace, Recalls(path, tags, r.value));
      RecallGives(old(trace), trace, path, tags, r.value);
      if r.value.Some? && r.value.value.Found? {
        return;
      }
      ghost var asked, middle, here := trace, Now(), snap;
      var reuse := Reuse(tags);
      DriftOn(directory, old(Now()), middle, Now());
      SameReadersOn(directory, old(snap), here, snap);
      EndsIsPeeks(asked, trace, Reuses(tags, reuse));
      PeeksOn(old(trace), asked, trace);
      reused := |trace| - 1;
      ReuseGives(asked, trace, path, tags, r.value, recalled, reuse);
      if reuse.Some? {
        from := reused;
        r := Ok(Some(Found(reuse.value, Generated)));
      }
    }

    method Fetch(tags: TrackTags, ghost recalled: nat, ghost reused: nat) returns (answer: Selection.LyricsResult)
      requires Valid() && Unknown(trace, tags, recalled, reused)
      modifies this`files, this`nextId, this`trace, this`snap, this`entries, this`lookups, db`tracks, db`sidecars
      ensures Valid() && Drift(directory, old(Now()), Now()) && SameReaders(directory, old(snap), snap)
      ensures Ends(old(trace), trace, Asks(tags, answer, recalled, reused))
      ensures lookups == old(lookups) + 1
      ensures quiet ==> Now() == old(Now()) && Here() == old(Here()) && answer == answers.lookup(tags)
    {
      hide Ready, Drift, Pauses, Looks, Ends, SameReaders, History, Fair, Seen, Vouched, Learns, Provenance, S.Inv,
        HoldsOnly, TrackTags.Normalized, Unknown, FilesDrift, StaleGenerated, RowSays, Carried, Stored, Ingested;
      lookups := lookups + 1;
      Yield();
      if quiet {
        answer := answers.lookup(tags);
      } else {
        answer := *;
      }
      ghost var paused := trace;
      AskingIsFree(directory, old(trace), trace, Now(), Here(), tags, answer, recalled, reused);
      Note(Asks(tags, answer, recalled, reused));
      EndsHere(old(trace), paused, trace, Moment(Asks(tags, answer, recalled, reused), Now(), Here()));
    }

    // -------------------------------------------------------------------------
    // Committing
    // -------------------------------------------------------------------------

    method Store(path: Path, tags: TrackTags, result: CachedResult, ghost from: nat, ghost checked: nat)
      returns (r: Result<()>)
      requires Valid() && Within(path, directory) && trace != [] && Vouched(trace, Commits(path, tags, result, from, checked))
      requires result.Found? ==> HoldsOnly(files, WithLrc(path), Some(result.lyrics))
      modifies this`files, this`nextId, this`trace, this`snap, this`entries, db`tracks, db`sidecars
      ensures Valid() && FilesDrift(old(Now()), Now()) && SameReaders(directory, old(snap), snap)
      ensures Ends(old(trace), trace, if r.Ok? then Commits(path, tags, result, from, checked) else Leaves(Broken))
      ensures r.Ok? && result.Found? ==>
        RowSays(Now().tables, path, result.lyrics) && Now().tables.sidecars[WithLrc(path)].tags == tags.Normalized()
      ensures quiet ==> r.Ok? == Storable(result) && Here() == old(Here())
      ensures quiet ==> Now() == if r.Ok? then old(Now()).(tables := Stored(old(Now()).tables, path, tags, result, answers.now))
        else old(Now())
    {
      hide Ready, Drift, Pauses, Ends, SameReaders, QuietScene, History, Fair, Seen, Vouched, Learns,
        Provenance, IdsBelow, S.Inv, HoldsOnly, TrackTags.Normalized, FilesDrift;
      Yield();
      ghost var paused, before, here := trace, Now(), Here();
      DriftIsFiles(directory, old(Now()), before);
      HoldsDrift(old(Now()), before, WithLrc(path), if result.Found? then Some(result.lyrics) else None);
      LastIs(directory, quiet, answers, trace, before, here);
      PausesVouch(directory, old(trace), paused, Commits(path, tags, result, from, checked));
      var commit, now := true, answers.now;
      if !quiet {
        commit, now := *, *;
      }
      r := db.Store(path, tags, result, now, commit);
      if r.Ok? {
        ReadyMeans(directory, quiet, answers, trace, before, here);
        StoredIsFair(directory, before, here, path, tags, result, now, from, checked);
        Remember(Commits(path, tags, result, from, checked), before, here);
        EndsHere(old(trace), paused, trace, Moment(Commits(path, tags, result, from, checked), Now(), Here()));
      } else {
        Leave(old(trace), Broken);
      }
      FilesDriftOn(old(Now()), before, Now());
    }

    method Ingest(path: Path, tags: TrackTags, lyrics: string, ghost from: nat, ghost checked: nat) returns (r: Result<()>)
      requires Valid() && Within(path, directory) && trace != [] && Vouched(trace, Ingests(path, tags, lyrics, from, checked))
      requires !BlankText(lyrics) && HoldsOnly(files, WithLrc(path), Some(lyrics))
      requires !StaleGenerated(Now().tables, WithLrc(path), tags, lyrics)
      modifies this`files, this`nextId, this`trace, this`snap, this`entries, db`tracks, db`sidecars
      ensures Valid() && FilesDrift(old(Now()), Now()) && SameReaders(directory, old(snap), snap)
      ensures Ends(old(trace), trace, if r.Ok? then Ingests(path, tags, lyrics, from, checked) else Leaves(Broken))
      ensures !StaleGenerated(Now().tables, WithLrc(path), tags, lyrics)
      ensures quiet ==> r.Ok? && Here() == old(Here())
      ensures quiet ==> Now() == old(Now()).(tables := Ingested(old(Now()).tables, path, tags, lyrics, answers.now))
    {
      hide Ready, Drift, Pauses, Ends, SameReaders, QuietScene, History, Fair, Seen, Vouched, Learns,
        Provenance, IdsBelow, S.Inv, HoldsOnly, TrackTags.Normalized, FilesDrift, StaleGenerated, BlankText;
      Yield();
      ghost var paused, before, here := trace, Now(), Here();
      DriftIsFiles(directory, old(Now()), before);
      HoldsDrift(old(Now()), before, WithLrc(path), Some(lyrics));
      StaleDrifts(directory, old(Now()), before, WithLrc(path), tags, lyrics, path);
      LastIs(directory, quiet, answers, trace, before, here);
      PausesVouch(directory, old(trace), paused, Ingests(path, tags, lyrics, from, checked));
      var commit, now := true, answers.now;
      if !quiet {
        commit, now := *, *;
      }
      r := db.Ingest(path, tags, lyrics, now, commit);
      if r.Ok? {
        ReadyMeans(directory, quiet, answers, trace, before, here);
        IngestedIsFair(directory, before, here, path, tags, lyrics, now, from, checked);
        Remember(Ingests(path, tags, lyrics, from, checked), before, here);
        EndsHere(old(trace), paused, trace, Moment(Ingests(path, tags, lyrics, from, checked), Now(), Here()));
      } else {
        Leave(old(trace), Broken);
      }
      FilesDriftOn(old(Now()), before, Now());
    }

    // -------------------------------------------------------------------------
    // Changing files, never over another one
    // -------------------------------------------------------------------------

    /** The file gets another name: its change time moves to a value that its paths never showed. */
    method Relink(source: Path, target: Path) returns (ghost mark: nat)
      requires S.Inv(snap) && snap.disk.Valid() && source in snap.disk.link
      modifies this`snap
      ensures var disk := Relinked(old(snap).disk, source, target, mark);
        && disk.Valid() && old(snap).disk.Valid() && S.StampsAdvance(old(snap).disk, disk, old(snap).seen)
        && snap == S.ApplyReplace(old(snap), disk)
    {
      hide S.Inv, S.ApplyReplace, Relinked, S.StampsAdvance;
      var now: nat := *;
      RelinkingIsReplacing(snap.disk, source, target, now);
      if !S.StampsAdvance(snap.disk, Relinked(snap.disk, source, target, now), snap.seen) {
        now := FreshMark(snap.seen);
        RelinkingAdvances(snap, source, target, now);
      }
      mark := now;
      snap := S.ApplyReplace(snap, Relinked(snap.disk, source, target, now));
    }

    /** `move_new`: the move may have happened although it could not be made durable. */
    method RenameNoReplace(source: Path, target: Path, owner: Owner) returns (r: Result<bool>, ghost moved: bool)
      requires Valid() && IsSidecar(source) && Within(source, directory) && Lyrical(target) && (target.Archived? || owner == User)
      modifies this`files, this`snap
      ensures if moved then Carried(old(Now()), Now(), source, target, owner) else files == old(files) && snap == old(snap)
      ensures moved ==> SoundChange(directory, quiet, answers, old(Here()), files, Here())
      ensures r == Ok(true) ==> moved
      ensures r == Ok(false) ==> !moved && target in files
      ensures quiet ==> r == (if source in old(files) && Movable(old(files)[source].content) then Ok(target !in old(files)) else Err)
      ensures quiet ==> (moved <==> r == Ok(true))
    {
      hide Linked, Ready, QuietScene, History, Provenance, IdsBelow, S.Inv, S.ApplyReplace, SoundChange, Relinked,
        S.StampsAdvance;
      ghost var start, here := Now(), Here();
      ReadyMeans(directory, quiet, answers, trace, start, here);
      RegularIsLinked(directory, files, snap, source);
      var failing, unsynced := *, *;
      if source !in files || !Movable(files[source].content) || (failing && !quiet) {
        return Err, false;
      }
      if target in files {
        return Ok(false), false;
      }
      files := (files - {source})[target := files[source].(owner := owner)];
      ghost var mark := Relink(source, target);
      RelinkingIsSound(directory, quiet, answers, start, Now(), here, source, target, owner, mark);
      return (if unsynced && !quiet then Err else Ok(true)), true;
    }

    /** One attempt to archive a sidecar under a number. */
    method ArchiveAs(path: Path, slot: nat, ghost reason: Reason) returns (r: Result<bool>, ghost moved: bool)
      requires Valid() && IsSidecar(path) && Within(path, directory) && ReasonStands(Now(), path, reason)
      requires trace != [] && Vouched(trace, Archives(path, slot, reason))
      modifies this`files, this`trace, this`snap
      ensures Valid() && Drift(directory, old(Now()), Now()) && SameReaders(directory, old(snap), snap)
      ensures trace == if moved then old(trace) + [Moment(Archives(path, slot, reason), Now(), Here())] else old(trace)
      ensures r == Ok(true) ==> moved && path !in files
      ensures moved ==> ArchivedAs(old(Now()), Now(), path) && (quiet ==> SameLibrary(old(snap), snap))
      ensures !moved ==> Now() == old(Now()) && Here() == old(Here())
      ensures r == Ok(false) ==> !moved && Archived(path, slot) in files
      ensures quiet ==> (r.Ok? <==> path in old(files) && Movable(old(files)[path].content)) && (r.Err? ==> !moved)
    {
      hide Linked, Ready, Drift, QuietScene, History, Fair, Seen, Vouched, Provenance, IdsBelow, S.Inv, ReasonStands,
        IsSidecar, Rearranged, SameReaders, SameLibrary, ArchivedAs;
      ghost var start, here := Now(), Here();
      DriftStays(directory, start);
      SameReadersStay(directory, snap);
      r, moved := RenameNoReplace(path, Archived(path, slot), if path in files then files[path].owner else User);
      if moved {
        ReadyMeans(directory, quiet, answers, trace, start, here);
        ArchiveIsFair(directory, start, Now(), path, slot, reason);
        RearrangingIsSeen(directory, here, Archives(path, slot, reason), Here());
        Remember(Archives(path, slot, reason), start, here);
      }
    }

    /**
     Archive a sidecar under the first number that is free when its turn comes; the text it is archived for
     was the daemon's own. While others keep taking the next number, the attempts may be cut short.
     */
    method Quarantine(path: Path, ghost reason: Reason) returns (r: Result<Path>, ghost moved: bool, ghost slot: nat)
      requires Valid() && IsSidecar(path) && Within(path, directory) && ReasonStands(Now(), path, reason)
      requires trace != [] && Vouched(trace, Archives(path, 0, reason))
      modifies this`files, this`nextId, this`trace, this`snap, this`entries, db`tracks, db`sidecars
      ensures Valid() && Drift(directory, old(Now()), Now()) && SameReaders(directory, old(snap), snap)
      ensures Ends(old(trace), trace, if moved then Archives(path, slot, reason) else Leaves(Broken))
      ensures r.Ok? ==> moved && path !in files && r.value == Archived(path, slot)
      ensures quiet ==> (r.Ok? <==> path in old(files) && Movable(old(files)[path].content))
      ensures quiet ==> entries == old(entries) && SameLibrary(old(snap), snap)
      ensures quiet ==> if r.Ok? then ArchivedAs(old(Now()), Now(), path) else Now() == old(Now())
    {
      hide Ready, Drift, Pauses, Ends, SameReaders, SameLibrary, Vouched, S.Inv, ReasonStands, IsSidecar, ArchivedAs,
        Movable, Within, Linked, History;
      moved, slot := false, 0;
      LibraryStays(directory, quiet, answers, trace, Now(), Here());
      Yield();
      ArchivingStands(directory, old(Now()), Now(), old(trace), trace, path, reason);
      ghost var first := Now();
      var failing, patience := *, *;
      var number: nat, limit: nat := 0, if patience < 0 then 0 else patience;
      ghost var crowd := |files|;
      while true
        invariant Valid() && Drift(directory, old(Now()), Now()) && SameReaders(directory, old(snap), snap)
        invariant Pauses(old(trace), trace) && ReasonStands(Now(), path, reason)
        invariant trace != [] && forall k :: Vouched(trace, Archives(path, k, reason))
        invariant !moved && (quiet ==> Now() == first == old(Now()) && Here() == old(Here()))
        invariant quiet ==> forall k :: 0 <= k < number ==> Archived(path, k) in files
        invariant quiet ==> crowd == |files|
        invariant !quiet ==> number <= limit
        decreases if quiet then crowd - number else limit - number
      {
        SlotsAreMany(files, path, number);
        if !quiet && (failing || number == limit) {
          Leave(old(trace), Broken);
          return Err, moved, slot;
        }
        ghost var start, past, library := Now(), trace, snap;
        slot := number;
        var archived;
        archived, moved := ArchiveAs(path, number, reason);
        DriftOn(directory, old(Now()), start, Now());
        SameReadersOn(directory, old(snap), library, snap);
        if moved {
          EndsHere(old(trace), past, trace, Moment(Archives(path, number, reason), Now(), Here()));
        }
        if archived.Err? {
          if !moved {
            Leave(old(trace), Broken);
          }
          return Err, moved, slot;
        }
        if archived.value {
          return Ok(Archived(path, number)), moved, slot;
        }
        SlotsAreMany(files, path, number + 1);
        ghost var again, here := Now(), snap;
        Yield();
        DriftOn(directory, old(Now()), again, Now());
        SameReadersOn(directory, old(snap), here, snap);
        PausesOn(old(trace), past, trace);
        ArchivingStands(directory, again, Now(), past, trace, path, reason);
        number := number + 1;
      }
    }

    /** A file stands where another one was to go. */
    ghost method FindBlocked(past: seq<Moment>, path: Path)
      requires Valid() && Pauses(past, trace) && path in files
      modifies `trace
      ensures Valid() && Ends(past, trace, Blocks(path))
    {
      hide Ready, Pauses, Ends, Fair, Vouched, Learns, Seen;
      ghost var paused := trace;
      LastIs(directory, quiet, answers, trace, Now(), Here());
      BlockingIsFree(directory, trace, Now(), Here(), path);
      Note(Blocks(path));
      EndsHere(past, paused, trace, Moment(Blocks(path), Now(), Here()));
    }

    /** Publish a complete file unless one is there; the committed row already says whose text it is. */
    method WriteNew(path: Path, text: string, ghost checked: nat, ghost found: nat) returns (r: Result<bool>, ghost made: bool)
      requires Valid() && path == WithLrc(path) && Within(path, directory) && RowSays(Now().tables, path, text)
      requires trace != [] && Vouched(trace, Creates(path, checked, found))
      modifies this`files, this`nextId, this`trace, this`snap, this`entries, db`tracks, db`sidecars
      ensures Valid() && SameReaders(directory, old(snap), snap)
      ensures Ends(old(trace), trace, if made then Creates(path, checked, found) else if r.Err? then Leaves(Broken) else Blocks(path))
      ensures r == Ok(false) ==> !made && Drift(directory, old(Now()), Now()) && path in files
      ensures r == Ok(true) ==> made && path in files && files[path] == Node(Text(text), Daemon, nextId - 1)
      ensures r.Ok? ==> RowSays(Now().tables, path, text)
      ensures quiet ==> r == (if BlankText(text) then Err else Ok(path !in old(files)))
      ensures quiet ==> entries == old(entries) && SameLibrary(old(snap), snap)
      ensures quiet ==> Now() == if r == Ok(true) then Published(old(Now()), path, text) else old(Now())
    {
      hide Linked, Ready, Drift, Pauses, Ends, SameReaders, SameLibrary, QuietScene, History, Fair, Seen, Vouched, Learns,
        Provenance, IdsBelow, S.Inv, TrackTags.Normalized, RowSays, WithLrc, Rearranged, Published, BlankText;
      made := false;
      KeyIsSidecar(path);
      LibraryStays(directory, quiet, answers, trace, Now(), Here());
      Yield();
      RowDrifts(directory, old(Now()), Now(), path, text);
      var blank, failing, unsynced := BlankText(text), *, *;
      if blank || (failing && !quiet) {
        Leave(old(trace), Broken);
        return Err, made;
      }
      ghost var paused, before, here, library := trace, Now(), Here(), snap;
      if path in files {
        FindBlocked(old(trace), path);
        return Ok(false), made;
      }
      SameRowsHere(directory, quiet, answers, old(trace), old(Now()), old(Here()), trace, before, here);
      PausesVouch(directory, old(trace), paused, Creates(path, checked, found));
      ReadyMeans(directory, quiet, answers, trace, before, here);
      PublishedIsFair(directory, before, path, text, checked, found);
      Place(path, text);
      RearrangingIsSeen(directory, here, Creates(path, checked, found), Here());
      Remember(Creates(path, checked, found), before, here);
      EndsHere(old(trace), paused, trace, Moment(Creates(path, checked, found), Now(), Here()));
      SameReadersOn(directory, old(snap), library, snap);
      PublishedHolds(before, path, text);
      return (if unsynced && !quiet then Err else Ok(true)), true;
    }

    /** The complete file appears, as an inode that no other file has. */
    method Place(path: Path, text: string)
      requires Valid() && IsSidecar(path) && Within(path, directory) && path !in files
      modifies this`files, this`nextId, this`snap
      ensures Now() == Published(old(Now()), path, text)
      ensures SoundChange(directory, quiet, answers, old(Here()), files, Here())
    {
      hide Linked, Ready, QuietScene, History, Provenance, IdsBelow, S.Inv, S.ApplyReplace, SoundChange, WithNew,
        S.StampsAdvance;
      ghost var start, here := Now(), Here();
      ReadyMeans(directory, quiet, answers, trace, start, here);
      RegularIsLinked(directory, files, snap, path);
      var inode: Inode, mark: nat := *, *;
      if exists other :: other in snap.disk.link && snap.disk.link[other] == inode {
        inode := FreeInode(snap.disk.link);
      }
      CreatingAdvances(snap, path, inode, S.Lyrics(text), mark);
      if !S.StampsAdvance(snap.disk, WithNew(snap.disk, path, inode, S.Lyrics(text), mark), snap.seen) {
        mark := FreshMark(snap.seen);
        CreatingAdvances(snap, path, inode, S.Lyrics(text), mark);
      }
      CreatingIsSound(directory, quiet, answers, start, here, path, text, inode, mark);
      files := files[path := Node(Text(text), Daemon, nextId)];
      nextId := nextId + 1;
      snap := S.ApplyReplace(snap, WithNew(snap.disk, path, inode, S.Lyrics(text), mark));
    }

    /** Move an orphan to its group's name, unless a file stands there. */
    method MoveSidecar(source: Path, target: Path, ghost claim: Claim) returns (r: Result<bool>, ghost moved: bool)
      requires Valid() && IsSidecar(source) && Within(source, directory) && target == WithLrc(target) && Within(target, directory)
      requires MoveStands(Now(), source, claim) && trace != [] && Vouched(trace, Moves(source, target, claim))
      modifies this`files, this`nextId, this`trace, this`snap, this`entries, db`tracks, db`sidecars
      ensures Valid() && SameReaders(directory, old(snap), snap)
      ensures moved ==> Ends(old(trace), trace, Moves(source, target, claim))
      ensures !moved ==> Ends(old(trace), trace, if r == Ok(false) then Blocks(target) else Leaves(Broken))
      ensures r == Ok(true) ==> moved
      ensures r == Ok(false) ==> !moved
      ensures quiet ==> entries == old(entries) && SameLibrary(old(snap), snap)
      ensures quiet ==> if r == Ok(true) then Carried(old(Now()), Now(), source, target, User) else Now() == old(Now())
      ensures quiet ==> r == (if source in old(files) && Movable(old(files)[source].content) then Ok(target !in old(files)) else Err)
    {
      hide Linked, Ready, Drift, Pauses, Ends, SameReaders, SameLibrary, QuietScene, History, Fair, Seen, Vouched, Learns,
        Provenance, IdsBelow, S.Inv, MoveStands, Carried, Rearranged, Movable;
      moved := false;
      LibraryStays(directory, quiet, answers, trace, Now(), Here());
      KeyIsSidecar(target);
      Yield();
      ghost var paused, before, here, library := trace, Now(), Here(), snap;
      MoveDrifts(directory, old(Now()), before, source, claim);
      PausesVouch(directory, old(trace), paused, Moves(source, target, claim));
      var failing := *;
      if failing && !quiet {
        Leave(old(trace), Broken);
        return Err, moved;
      }
      r, moved := RenameNoReplace(source, target, User);
      if moved {
        ReadyMeans(directory, quiet, answers, trace, before, here);
        MoveIsFair(directory, before, Now(), source, target, claim);
        RearrangingIsSeen(directory, here, Moves(source, target, claim), Here());
        Remember(Moves(source, target, claim), before, here);
        EndsHere(old(trace), paused, trace, Moment(Moves(source, target, claim), Now(), Here()));
        SameReadersOn(directory, old(snap), library, snap);
      } else if r == Ok(false) {
        FindBlocked(old(trace), target);
      } else {
        Leave(old(trace), Broken);
      }
    }

    /** Delete an orphan, in the mode that asks for it. */
    method RemoveFile(path: Path, ghost grounds: Grounds) returns (r: Result<()>)
      requires Valid() && IsSidecar(path) && trace != [] && Vouched(trace, Deletes(path, grounds))
      modifies this`files, this`nextId, this`trace, this`snap, this`entries, db`tracks, db`sidecars
      ensures Valid() && SameReaders(directory, old(snap), snap)
      ensures Ends(old(trace), trace, if r.Ok? then Deletes(path, grounds) else Leaves(Broken))
      ensures quiet ==> r.Ok? == (path in old(files)) && entries == old(entries) && SameLibrary(old(snap), snap)
      ensures quiet ==> Now() == if r.Ok? then old(Now()).(files := old(files) - {path}) else old(Now())
    {
      hide Linked, Ready, Drift, Pauses, Ends, SameReaders, SameLibrary, QuietScene, History, Fair, Seen, Vouched, Learns,
        Provenance, IdsBelow, S.Inv, Rearranged, Without, S.ApplyReplace;
      LibraryStays(directory, quiet, answers, trace, Now(), Here());
      Yield();
      var failing := *;
      if path !in files || (failing && !quiet) {
        Leave(old(trace), Broken);
        return Err;
      }
      ghost var paused, before, here, library := trace, Now(), Here(), snap;
      PausesVouch(directory, old(trace), paused, Deletes(path, grounds));
      ReadyMeans(directory, quiet, answers, trace, before, here);
      RemovingIsSound(directory, quiet, answers, before, here, path);
      files := files - {path};
      snap := S.ApplyReplace(snap, Without(snap.disk, path));
      DeletionIsFair(directory, before, Now(), path, grounds);
      RearrangingIsSeen(directory, here, Deletes(path, grounds), Here());
      Remember(Deletes(path, grounds), before, here);
      EndsHere(old(trace), paused, trace, Moment(Deletes(path, grounds), Now(), Here()));
      SameReadersOn(directory, old(snap), library, snap);
      return Ok(());
    }
  }

  ghost predicate AllWithin(directory: Directory, paths: seq<Path>) {
    forall k :: 0 <= k < |paths| ==> Within(paths[k], directory) && IsAudio(paths[k])
  }

  /** The owner's readers of other files are where they were. */
  ghost predicate OtherReaders(directory: Directory, path: Path, s: S.System, t: S.System) {
    forall other :: Within(other, directory) && other != path ==>
      && (other in t.readers <==> other in s.readers)
      && (other in t.readers ==> t.readers[other] == s.readers[other])
  }

  /** The moment confirms that the audio holds these tags. */
  ghost predicate Confirming(moment: Moment, path: Path, tags: TrackTags) {
    moment.actor.Confirms? && moment.actor.path == path && moment.actor.tags == tags
  }

  // ---------------------------------------------------------------------------
  // What the world's steps need
  // ---------------------------------------------------------------------------

  /** The cache was asked for these tags and knew nothing, and nothing happened since. */
  ghost predicate Unknown(trace: seq<Moment>, tags: TrackTags, recalled: nat, reused: nat) {
    trace != [] && Vouched(trace, Asks(tags, Selection.NotFound, recalled, reused))
  }

  /** The cache gave this result for these tags. */
  ghost predicate Gives(actor: Actor, tags: TrackTags, result: CachedResult) {
    || (actor.Recalls? && actor.tags == tags && actor.known == Some(result))
    || (actor.Reuses? && actor.tags == tags && actor.reuse.Some? && result == Found(actor.reuse.value, Generated))
  }

  /** What a pass may use without asking LRCLib. */
  ghost function WithoutLookup(t: Tables, path: Path, tags: TrackTags, now: int, retry: int): Option<CachedResult> {
    var cached := Cached(t, path, tags, now, retry);
    if cached.Some? && cached.value.Found? then cached
    else if Reusable(t, tags).Some? then Some(Found(Reusable(t, tags).value, Generated))
    else cached
  }

  function Published(s: State, path: Path, text: string): State {
    s.(files := s.files[path := Node(Text(text), Daemon, s.nextId)], nextId := s.nextId + 1)
  }

  ghost predicate ArchivedAs(s: State, t: State, path: Path) {
    exists slot: nat :: path in s.files && Carried(s, t, path, Archived(path, slot), s.files[path].owner)
  }

  /** The archiving is justified now, and stays so whatever the others do. */
  ghost predicate ReasonStands(s: State, path: Path, reason: Reason) {
    match reason
    case Orphan(_) => true
    case Stale(tags, expected, mark, exact, _, _) =>
      && StaleGenerated(s.tables, WithLrc(path), tags, expected)
      && mark <= s.nextId && (path in s.files ==> OwnText(s, path, expected, mark, exact))
    case Retracted(expected, mark, _, _) =>
      RowSays(s.tables, path, expected) && mark <= s.nextId && (path in s.files ==> OwnText(s, path, expected, mark, true))
  }

  /** Moving the file is justified now, and stays so whatever the others do. */
  ghost predicate MoveStands(s: State, path: Path, claim: Claim) {
    && claim.mark <= s.nextId && RowAllows(s.tables, path, claim.tags, claim.lyrics)
    && (path in s.files ==>
          && OwnText(s, path, claim.lyrics, claim.mark, claim.exact)
          && (s.files[path].owner == Daemon ==>
                WithLrc(path) in s.tables.sidecars && s.tables.sidecars[WithLrc(path)].origin == Curated))
  }

  lemma LeavingIsFree(directory: Directory, trace: seq<Moment>, s: State, c: Scene, cause: Cause)
    requires trace != []
    ensures var actor := Leaves(cause);
      Vouched(trace, actor) && Learns(s, actor) && Seen(directory, c, actor, c) && !actor.Acts() && !actor.Others?
  {
  }

  lemma SubmittingIsFree(directory: Directory, trace: seq<Moment>, s: State, c: Scene, path: Path, displaced: set<Path>)
    requires trace != []
    ensures var actor := Submits(path, displaced);
      Vouched(trace, actor) && Learns(s, actor) && Seen(directory, c, actor, c) && !actor.Acts() && !actor.Others?
      && actor.Looks()
  {
  }

  lemma CountingIsFree(directory: Directory, trace: seq<Moment>, s: State, c: Scene, path: Path, b: bool)
    requires trace != [] && (path in s.files && s.files[path].owner == Daemon ==> b)
    ensures var actor := Counts(path, b);
      Vouched(trace, actor) && Learns(s, actor) && Seen(directory, c, actor, c) && !actor.Acts() && !actor.Others?
  {
  }

  lemma FindingIsFree(directory: Directory, trace: seq<Moment>, s: State, c: Scene, audio: Path)
    requires trace != []
    ensures var actor := Finds(audio, SidecarsOf(s.files, audio));
      Vouched(trace, actor) && Learns(s, actor) && Seen(directory, c, actor, c) && !actor.Acts() && !actor.Others?
  {
    hide SidecarsOf;
  }

  lemma ListingIsFree(directory: Directory, trace: seq<Moment>, s: State, c: Scene)
    requires trace != []
    ensures var actor := Lists(Stems(directory, c.entries));
      Vouched(trace, actor) && Learns(s, actor) && Seen(directory, c, actor, c) && !actor.Acts() && !actor.Others?
  {
    hide Stems;
  }

  lemma PairingIsFree(directory: Directory, trace: seq<Moment>, s: State, c: Scene, path: Path)
    requires trace != []
    ensures var actor := Pairs(path, Paired(c.entries, directory, path));
      Vouched(trace, actor) && Learns(s, actor) && Seen(directory, c, actor, c) && !actor.Acts() && !actor.Others?
  {
    hide Paired;
  }

  lemma InspectingIsFree(directory: Directory, trace: seq<Moment>, s: State, c: Scene, path: Path)
    requires trace != [] && path in s.files
    ensures var actor := Inspects(path, s.files[path].content.Special?);
      Vouched(trace, actor) && Learns(s, actor) && Seen(directory, c, actor, c) && !actor.Acts() && !actor.Others?
  {
  }

  lemma BlockingIsFree(directory: Directory, trace: seq<Moment>, s: State, c: Scene, path: Path)
    requires trace != [] && path in s.files
    ensures var actor := Blocks(path);
      Vouched(trace, actor) && Learns(s, actor) && Seen(directory, c, actor, c) && !actor.Acts() && !actor.Others?
  {
  }

  lemma RecallingIsFree(directory: Directory, trace: seq<Moment>, s: State, c: Scene, path: Path, tags: TrackTags, now: int,
    retry: int)
    requires trace != []
    ensures var actor := Recalls(path, tags, Cached(s.tables, path, tags, now, retry));
      Vouched(trace, actor) && Learns(s, actor) && Seen(directory, c, actor, c) && !actor.Acts() && !actor.Others?
  {
    hide TrackTags.Normalized;
  }

  lemma ReusingIsFree(directory: Directory, trace: seq<Moment>, s: State, c: Scene, tags: TrackTags)
    requires trace != []
    ensures var actor := Reuses(tags, Reusable(s.tables, tags));
      Vouched(trace, actor) && Learns(s, actor) && Seen(directory, c, actor, c) && !actor.Acts() && !actor.Others?
  {
    hide Reusable;
  }

  // ---------------------------------------------------------------------------
  // How the owner's own changes look on the disk
  // ---------------------------------------------------------------------------

  /** The file gets another name, and its change time moves with it. */
  function Relinked(disk: S.Disk, source: Path, target: Path, mark: nat): S.Disk
    requires source in disk.link
  {
    var inode := disk.link[source];
    disk.(link := (disk.link - {source})[target := inode], mark := disk.mark[inode := mark])
  }

  /** A complete new file. */
  function WithNew(disk: S.Disk, path: Path, inode: Inode, content: S.Content, mark: nat): S.Disk {
    S.Disk(disk.link[path := inode], disk.data[inode := content], disk.mark[inode := mark],
      disk.writes[inode := if inode in disk.writes then disk.writes[inode] + 1 else 0])
  }

  function Without(disk: S.Disk, path: Path): S.Disk { disk.(link := disk.link - {path}) }

  /** A mark that no stamp ever had. */
  method FreshMark(seen: set<(Path, Stamp)>) returns (mark: nat)
    ensures forall entry :: entry in seen ==> entry.1.mark < mark
  {
    mark := 0;
    var left := seen;
    while left != {}
      invariant left <= seen && forall entry :: entry in seen - left ==> entry.1.mark < mark
      decreases left
    {
      var entry :| entry in left;
      if mark <= entry.1.mark {
        mark := entry.1.mark + 1;
      }
      left := left - {entry};
    }
  }

  /** An inode that no file has. */
  method FreeInode(link: map<Path, Inode>) returns (inode: Inode)
    ensures forall path :: path in link ==> link[path] != inode
  {
    var id: nat, left := 0, link.Keys;
    while left != {}
      invariant left <= link.Keys && forall path :: path in link.Keys - left ==> link[path].id < id
      decreases left
    {
      var path :| path in left;
      if id <= link[path].id {
        id := link[path].id + 1;
      }
      left := left - {path};
    }
    return Inode(id);
  }

  /** What a rearrangement keeps, whatever it is. */
  lemma ReplaceIsSound(directory: Directory, c: Scene, disk: S.Disk)
    requires S.Inv(c.snap) && c.snap.disk.Valid() && disk.Valid()
    requires S.StampsAdvance(c.snap.disk, disk, c.snap.seen) && S.SameBehindStamps(c.snap.disk, disk)
    ensures var t := S.ApplyReplace(c.snap, disk);
      && S.Inv(t) && t.disk == disk && Rearranged(c, c.(snap := t)) && SameReaders(directory, c.snap, t)
      && forall path :: Faithful(c.snap, path) ==> Faithful(t, path)
  {
    R.NextKeepsInv(c.snap, S.Replace(disk));
    forall path | Faithful(c.snap, path) ensures Faithful(S.ApplyReplace(c.snap, disk), path) {
      ReplaceKeepsFaithful(c.snap, disk, path);
    }
    hide S.Inv, Faithful, S.StampsAdvance, S.SameBehindStamps, S.SeenAfter;
  }

  lemma RelinkingAdvances(s: S.System, source: Path, target: Path, mark: nat)
    requires S.Inv(s) && s.disk.Valid() && source in s.disk.link && forall entry :: entry in s.seen ==> entry.1.mark < mark
    ensures var disk := Relinked(s.disk, source, target, mark); disk.Valid() && S.StampsAdvance(s.disk, disk, s.seen)
  {
    hide S.Inv;
  }

  lemma RelinkingIsReplacing(disk: S.Disk, source: Path, target: Path, mark: nat)
    requires disk.Valid() && source in disk.link
    ensures Relinked(disk, source, target, mark).Valid() && S.SameBehindStamps(disk, Relinked(disk, source, target, mark))
  {
  }

  lemma CreatingAdvances(s: S.System, path: Path, inode: Inode, content: S.Content, mark: nat)
    requires S.Inv(s) && s.disk.Valid() && forall other :: other in s.disk.link ==> s.disk.link[other] != inode
    ensures var disk := WithNew(s.disk, path, inode, content, mark);
      && disk.Valid() && (path !in s.disk.link ==> S.SameBehindStamps(s.disk, disk))
      && ((forall entry :: entry in s.seen ==> entry.1.mark < mark) ==> S.StampsAdvance(s.disk, disk, s.seen))
  {
    hide S.Inv;
  }

  lemma RemovingIsReplacing(s: S.System, path: Path)
    requires s.disk.Valid()
    ensures var disk := Without(s.disk, path);
      disk.Valid() && S.StampsAdvance(s.disk, disk, s.seen) && S.SameBehindStamps(s.disk, disk)
  {
  }

  /** In a quiet world the owner's own change of sidecars leaves audio alone. */
  lemma QuietChange(directory: Directory, a: Answers, c: Scene, disk: S.Disk, touched: set<Path>)
    requires QuietScene(directory, a, c) && disk.Valid() && c.snap.disk.Valid()
    requires forall path :: path in touched ==> Lyrical(path)
    requires forall path :: path !in touched ==>
      (path in disk.link <==> path in c.snap.disk.link) && (path in disk.link ==> disk.link[path] == c.snap.disk.link[path])
    requires forall audio :: !Lyrical(audio) && audio in c.snap.disk.link ==>
      && SameAudio(c.snap.disk, disk, audio)
      && forall path :: path in touched && path in disk.link ==> disk.link[path] != c.snap.disk.link[audio]
    ensures var t := S.ApplyReplace(c.snap, disk); QuietScene(directory, a, c.(snap := t)) && SameLibrary(c.snap, t)
  {
    assert Apart(disk, c.snap.index);
    hide S.Inv, Apart, S.ApplyReplace;
    CalmReplace(c.snap, disk);
    hide Calm;
  }

  /** What the owner's own change of the files keeps. */
  ghost predicate SoundChange(directory: Directory, quiet: bool, a: Answers, c: Scene, files: map<Path, Node>, d: Scene) {
    && S.Inv(d.snap) && Rearranged(c, d) && SameReaders(directory, c.snap, d.snap) && Linked(directory, files, d.snap)
    && (quiet ==> QuietScene(directory, a, d) && SameLibrary(c.snap, d.snap))
  }

  /** A regular sidecar can be stamped. */
  lemma RegularIsLinked(directory: Directory, files: map<Path, Node>, s: S.System, path: Path)
    requires Linked(directory, files, s) && IsSidecar(path) && Within(path, directory)
    ensures s.disk.Valid() && (path in s.disk.link <==> path in files && !files[path].content.Special?)
  {
    hide Faithful;
    assert path in files.Keys + s.disk.link.Keys ==> Mirrored(files, s.disk, path);
  }

  lemma RelinkedMirrors(directory: Directory, s: State, t: State, disk: S.Disk, source: Path, target: Path, owner: Owner,
    mark: nat)
    requires disk.Valid() && source in disk.link && Mirrors(directory, s.files, disk) && Carried(s, t, source, target, owner)
    requires IsSidecar(source) && Within(source, directory)
    ensures Relinked(disk, source, target, mark).Valid() && Mirrors(directory, t.files, Relinked(disk, source, target, mark))
  {
    assert Mirrored(s.files, disk, source);
    forall path | path in t.files.Keys + Relinked(disk, source, target, mark).link.Keys && IsSidecar(path) && Within(path, directory)
      ensures Mirrored(t.files, Relinked(disk, source, target, mark), path)
    {
      assert path in s.files.Keys + disk.link.Keys ==> Mirrored(s.files, disk, path);
    }
  }

  lemma RelinkedOwns(directory: Directory, s: State, t: State, source: Path, target: Path, owner: Owner, path: Path)
    requires Carried(s, t, source, target, owner) && (target.Archived? || owner == User) && Owns(directory, t.files, path)
    ensures Owns(directory, s.files, path)
  {
  }

  lemma RelinkedIsQuiet(directory: Directory, a: Answers, c: Scene, source: Path, target: Path, mark: nat)
    requires QuietScene(directory, a, c) && c.snap.disk.Valid() && source in c.snap.disk.link
    requires Lyrical(source) && Lyrical(target)
    ensures var t := S.ApplyReplace(c.snap, Relinked(c.snap.disk, source, target, mark));
      QuietScene(directory, a, c.(snap := t)) && SameLibrary(c.snap, t)
  {
    var disk := Relinked(c.snap.disk, source, target, mark);
    assert Apart(c.snap.disk, c.snap.index);
    hide S.Inv, S.ApplyReplace;
    QuietChange(directory, a, c, disk, {source, target});
    hide QuietScene;
  }

  lemma RelinkingIsSound(directory: Directory, quiet: bool, a: Answers, s: State, t: State, c: Scene, source: Path,
    target: Path, owner: Owner, mark: nat)
    requires S.Inv(c.snap) && c.snap.disk.Valid() && Linked(directory, s.files, c.snap) && source in c.snap.disk.link
    requires IsSidecar(source) && Within(source, directory) && Lyrical(target) && (target.Archived? || owner == User)
    requires Carried(s, t, source, target, owner) && (quiet ==> QuietScene(directory, a, c))
    requires var disk := Relinked(c.snap.disk, source, target, mark);
      disk.Valid() && S.StampsAdvance(c.snap.disk, disk, c.snap.seen)
    ensures SoundChange(directory, quiet, a, c, t.files,
      c.(snap := S.ApplyReplace(c.snap, Relinked(c.snap.disk, source, target, mark))))
  {
    var disk := Relinked(c.snap.disk, source, target, mark);
    RelinkingIsReplacing(c.snap.disk, source, target, mark);
    ReplaceIsSound(directory, c, disk);
    RelinkedMirrors(directory, s, t, c.snap.disk, source, target, owner, mark);
    if quiet { RelinkedIsQuiet(directory, a, c, source, target, mark); }
    hide S.Inv, S.ApplyReplace, Relinked, Rearranged, SameReaders, QuietScene, SameLibrary, Mirrors, Faithful, Carried, S.StampsAdvance,
      S.SameBehindStamps;
    forall path | Owns(directory, t.files, path) ensures Faithful(S.ApplyReplace(c.snap, disk), path) {
      RelinkedOwns(directory, s, t, source, target, owner, path);
    }
  }

  lemma CreatedMirrors(directory: Directory, files: map<Path, Node>, disk: S.Disk, path: Path, node: Node, text: string,
    inode: Inode, mark: nat)
    requires disk.Valid() && Mirrors(directory, files, disk) && node.content == Text(text)
    requires forall other :: other in disk.link ==> disk.link[other] != inode
    ensures var next := WithNew(disk, path, inode, S.Lyrics(text), mark);
      next.Valid() && Mirrors(directory, files[path := node], next)
  {
    var next := WithNew(disk, path, inode, S.Lyrics(text), mark);
    forall other | other in files[path := node].Keys + next.link.Keys && IsSidecar(other) && Within(other, directory)
      ensures Mirrored(files[path := node], next, other)
    {
      assert other in files.Keys + disk.link.Keys ==> Mirrored(files, disk, other);
    }
  }

  lemma CreatedIsQuiet(directory: Directory, a: Answers, c: Scene, path: Path, inode: Inode, content: S.Content, mark: nat)
    requires QuietScene(directory, a, c) && c.snap.disk.Valid() && Lyrical(path)
    requires forall other :: other in c.snap.disk.link ==> c.snap.disk.link[other] != inode
    ensures var t := S.ApplyReplace(c.snap, WithNew(c.snap.disk, path, inode, content, mark));
      QuietScene(directory, a, c.(snap := t)) && SameLibrary(c.snap, t)
  {
    var disk := WithNew(c.snap.disk, path, inode, content, mark);
    hide S.Inv, S.ApplyReplace, QuietScene;
    QuietChange(directory, a, c, disk, {path});
  }

  lemma CreatingIsSound(directory: Directory, quiet: bool, a: Answers, s: State, c: Scene, path: Path, text: string,
    inode: Inode, mark: nat)
    requires S.Inv(c.snap) && c.snap.disk.Valid() && Linked(directory, s.files, c.snap) && path !in c.snap.disk.link
    requires IsSidecar(path) && Within(path, directory) && (quiet ==> QuietScene(directory, a, c))
    requires forall other :: other in c.snap.disk.link ==> c.snap.disk.link[other] != inode
    requires var disk := WithNew(c.snap.disk, path, inode, S.Lyrics(text), mark);
      disk.Valid() && S.StampsAdvance(c.snap.disk, disk, c.snap.seen)
    ensures SoundChange(directory, quiet, a, c, Published(s, path, text).files,
      c.(snap := S.ApplyReplace(c.snap, WithNew(c.snap.disk, path, inode, S.Lyrics(text), mark))))
  {
    var disk := WithNew(c.snap.disk, path, inode, S.Lyrics(text), mark);
    CreatingAdvances(c.snap, path, inode, S.Lyrics(text), mark);
    ReplaceIsSound(directory, c, disk);
    CreatedMirrors(directory, s.files, c.snap.disk, path, Node(Text(text), Daemon, s.nextId), text, inode, mark);
    if quiet { CreatedIsQuiet(directory, a, c, path, inode, S.Lyrics(text), mark); }
    hide S.Inv, S.ApplyReplace, WithNew, Rearranged, SameReaders, QuietScene, SameLibrary, Mirrors, S.StampsAdvance,
      S.SameBehindStamps;
    forall own | Owns(directory, Published(s, path, text).files, own) ensures Faithful(S.ApplyReplace(c.snap, disk), own) {
      assert own == path || Owns(directory, s.files, own);
      assert Faithful(c.snap, own);
    }
  }

  lemma RemovedMirrors(directory: Directory, files: map<Path, Node>, disk: S.Disk, path: Path)
    requires disk.Valid() && Mirrors(directory, files, disk)
    ensures Without(disk, path).Valid() && Mirrors(directory, files - {path}, Without(disk, path))
  {
    forall other | other in (files - {path}).Keys + Without(disk, path).link.Keys && IsSidecar(other) && Within(other, directory)
      ensures Mirrored(files - {path}, Without(disk, path), other)
    {
      assert Mirrored(files, disk, other);
    }
  }

  lemma RemovingIsSound(directory: Directory, quiet: bool, a: Answers, s: State, c: Scene, path: Path)
    requires S.Inv(c.snap) && c.snap.disk.Valid() && Linked(directory, s.files, c.snap) && Lyrical(path)
    requires quiet ==> QuietScene(directory, a, c)
    ensures SoundChange(directory, quiet, a, c, s.files - {path}, c.(snap := S.ApplyReplace(c.snap, Without(c.snap.disk, path))))
  {
    var disk := Without(c.snap.disk, path);
    RemovingIsReplacing(c.snap, path);
    ReplaceIsSound(directory, c, disk);
    RemovedMirrors(directory, s.files, c.snap.disk, path);
    if quiet { hide S.ApplyReplace, QuietScene; QuietChange(directory, a, c, disk, {path}); }
    hide S.Inv, S.ApplyReplace, Without, Rearranged, SameReaders, QuietScene, SameLibrary, Mirrors, Faithful, S.StampsAdvance,
      S.SameBehindStamps;
    forall own | Owns(directory, s.files - {path}, own) ensures Faithful(S.ApplyReplace(c.snap, disk), own) {
      assert Owns(directory, s.files, own);
    }
  }

  lemma RearrangingIsSeen(directory: Directory, c: Scene, actor: Actor, d: Scene)
    requires Rearranged(c, d) && (actor.Creates? || actor.Archives? || actor.Moves? || actor.Deletes?)
    ensures Seen(directory, c, actor, d)
  {
    hide Rearranged;
  }

  lemma AskingIsFree(directory: Directory, before: seq<Moment>, trace: seq<Moment>, s: State, c: Scene, tags: TrackTags,
    answer: Selection.LyricsResult, recalled: nat, reused: nat)
    requires Unknown(before, tags, recalled, reused) && Pauses(before, trace)
    ensures trace != []
    ensures var actor := Asks(tags, answer, recalled, reused);
      Vouched(trace, actor) && Learns(s, actor) && Seen(directory, c, actor, c) && !actor.Acts() && !actor.Others?
  {
    PausesVouch(directory, before, trace, Asks(tags, Selection.NotFound, recalled, reused));
  }

  lemma RecallGives(before: seq<Moment>, asked: seq<Moment>, path: Path, tags: TrackTags, known: Option<CachedResult>)
    requires Ends(before, asked, Recalls(path, tags, known))
    ensures |before| < |asked| && asked[|asked| - 1].actor == Recalls(path, tags, known)
    ensures known.Some? ==> Gives(asked[|asked| - 1].actor, tags, known.value)
  {
  }

  lemma ReuseGives(asked: seq<Moment>, trace: seq<Moment>, path: Path, tags: TrackTags, known: Option<CachedResult>,
    recalled: nat, reuse: Option<string>)
    requires asked != [] && recalled == |asked| - 1 && asked[recalled].actor == Recalls(path, tags, known)
    requires Ends(asked, trace, Reuses(tags, reuse)) && asked <= trace
    ensures recalled < |trace| && trace[recalled] == asked[recalled]
    ensures reuse.Some? ==> Gives(trace[|trace| - 1].actor, tags, Found(reuse.value, Generated))
    ensures reuse.None? && known.None? ==> Unknown(trace, tags, recalled, |trace| - 1)
  {
    forall j | recalled < j < |trace| && j != |trace| - 1 ensures trace[j].actor.Others? {
      assert trace[j] == trace[..|trace| - 1][j];
    }
  }

  lemma QuietEntries(directory: Directory, quiet: bool, a: Answers, trace: seq<Moment>, s: State, c: Scene)
    requires Ready(directory, quiet, a, trace, s, c)
    ensures quiet ==> a.entries == c.entries
  {
    ReadyMeans(directory, quiet, a, trace, s, c);
    hide Ready, Calm;
  }

  lemma LastIs(directory: Directory, quiet: bool, a: Answers, trace: seq<Moment>, s: State, c: Scene)
    requires Ready(directory, quiet, a, trace, s, c)
    ensures trace != [] && trace[|trace| - 1].state == s && trace[|trace| - 1].scene == c
  {
    hide *;
    ReadyMeans(directory, quiet, a, trace, s, c);
  }

  lemma SameRowsHere(
    directory: Directory, quiet: bool, a: Answers, before: seq<Moment>, s: State, c: Scene, after: seq<Moment>, t: State,
    d: Scene)
    requires Ready(directory, quiet, a, before, s, c) && Ready(directory, quiet, a, after, t, d) && Drift(directory, s, t)
    ensures before != [] && after != []
    ensures SameRows(directory, before[|before| - 1].state.tables, after[|after| - 1].state.tables)
  {
    LastIs(directory, quiet, a, before, s, c);
    LastIs(directory, quiet, a, after, t, d);
    hide Ready, FilesDrift, SameRows;
  }

  lemma ArchivingStands(directory: Directory, s: State, t: State, before: seq<Moment>, after: seq<Moment>, path: Path,
    reason: Reason)
    requires Drift(directory, s, t) && Within(path, directory) && ReasonStands(s, path, reason) && Pauses(before, after)
    requires before != [] && exists k :: Vouched(before, Archives(path, k, reason))
    ensures ReasonStands(t, path, reason) && after != [] && forall k :: Vouched(after, Archives(path, k, reason))
  {
    ReasonDrifts(directory, s, t, path, reason);
    var k :| Vouched(before, Archives(path, k, reason));
    PausesVouch(directory, before, after, Archives(path, k, reason));
    AnySlot(after, path, k, reason);
    hide Vouched, ReasonStands, Drift, Pauses;
  }

  lemma AnySlot(trace: seq<Moment>, path: Path, slot: nat, reason: Reason)
    requires trace != [] && Vouched(trace, Archives(path, slot, reason))
    ensures forall k :: Vouched(trace, Archives(path, k, reason))
  {
    hide Grounded, TrackTags.Normalized;
  }

  lemma ReasonDrifts(directory: Directory, s: State, t: State, path: Path, reason: Reason)
    requires Drift(directory, s, t) && Within(path, directory) && ReasonStands(s, path, reason)
    ensures ReasonStands(t, path, reason)
  {
    hide TrackTags.Normalized;
  }

  lemma MoveDrifts(directory: Directory, s: State, t: State, path: Path, claim: Claim)
    requires Drift(directory, s, t) && Within(path, directory) && MoveStands(s, path, claim)
    ensures MoveStands(t, path, claim)
  {
  }

  lemma RowDrifts(directory: Directory, s: State, t: State, path: Path, text: string)
    requires Drift(directory, s, t) && Within(path, directory) && RowSays(s.tables, path, text)
    ensures RowSays(t.tables, path, text)
  {
  }

  lemma StaleDrifts(directory: Directory, s: State, t: State, key: Path, tags: TrackTags, lyrics: string, path: Path)
    requires Drift(directory, s, t) && Within(path, directory) && key == WithLrc(path)
    ensures StaleGenerated(t.tables, key, tags, lyrics) == StaleGenerated(s.tables, key, tags, lyrics)
  {
    hide TrackTags.Normalized;
  }

  lemma DriftIsFiles(directory: Directory, s: State, t: State)
    requires Drift(directory, s, t)
    ensures FilesDrift(s, t)
  {
  }

  lemma FilesDriftOn(s: State, t: State, u: State)
    requires FilesDrift(s, t) && (FilesDrift(t, u) || (u.files == t.files && u.nextId == t.nextId))
    ensures FilesDrift(s, u)
  {
  }

  lemma HoldsDrift(s: State, t: State, key: Path, text: Option<string>)
    requires FilesDrift(s, t) && key.Path?
    ensures HoldsOnly(s.files, key, text) ==> HoldsOnly(t.files, key, text)
  {
  }

  lemma StoredIsFair(directory: Directory, s: State, c: Scene, path: Path, tags: TrackTags, result: CachedResult, now: int,
    from: nat, checked: nat)
    requires Within(path, directory) && Storable(result) && Provenance(directory, s) && IdsBelow(s)
    requires result.Found? ==> HoldsOnly(s.files, WithLrc(path), Some(result.lyrics))
    ensures var t, actor := s.(tables := Stored(s.tables, path, tags, result, now)), Commits(path, tags, result, from, checked);
      && Fair(directory, s, actor, t) && Seen(directory, c, actor, c) && Provenance(directory, t) && IdsBelow(t)
      && (result.Found? ==> RowSays(t.tables, path, result.lyrics) && t.tables.sidecars[WithLrc(path)].tags == tags.Normalized())
  {
    hide TrackTags.Normalized;
  }

  lemma IngestedIsFair(directory: Directory, s: State, c: Scene, path: Path, tags: TrackTags, lyrics: string, now: int,
    from: nat, checked: nat)
    requires Within(path, directory) && !BlankText(lyrics) && Provenance(directory, s) && IdsBelow(s)
    requires HoldsOnly(s.files, WithLrc(path), Some(lyrics)) && !StaleGenerated(s.tables, WithLrc(path), tags, lyrics)
    ensures var t, actor := s.(tables := Ingested(s.tables, path, tags, lyrics, now)), Ingests(path, tags, lyrics, from, checked);
      && Fair(directory, s, actor, t) && Seen(directory, c, actor, c) && Provenance(directory, t) && IdsBelow(t)
      && !StaleGenerated(t.tables, WithLrc(path), tags, lyrics)
  {
    hide TrackTags.Normalized;
  }

  lemma KeyIsSidecar(path: Path)
    requires path.Path? && path == WithLrc(path)
    ensures IsSidecar(path) && Lyrical(path)
  {
  }

  lemma PublishedHolds(s: State, path: Path, text: string)
    ensures var t := Published(s, path, text); path in t.files && t.files[path] == Node(Text(text), Daemon, t.nextId - 1)
    ensures Published(s, path, text).tables == s.tables
  {
  }

  lemma ArchiveIsFair(directory: Directory, s: State, t: State, path: Path, slot: nat, reason: Reason)
    requires path in s.files && Carried(s, t, path, Archived(path, slot), s.files[path].owner) && IdsBelow(s)
    requires IsSidecar(path) && Within(path, directory) && ReasonStands(s, path, reason) && Provenance(directory, s)
    ensures Fair(directory, s, Archives(path, slot, reason), t)
    ensures Provenance(directory, t) && IdsBelow(t) && Drift(directory, s, t) && path !in t.files && ArchivedAs(s, t, path)
  {
    hide BlankText, TrackTags.Normalized;
  }

  lemma PublishedIsFair(directory: Directory, s: State, path: Path, text: string, checked: nat, found: nat)
    requires path == WithLrc(path) && Within(path, directory) && path !in s.files && RowSays(s.tables, path, text)
    requires Provenance(directory, s) && IdsBelow(s)
    ensures var t, actor := Published(s, path, text), Creates(path, checked, found);
      Fair(directory, s, actor, t) && Provenance(directory, t) && IdsBelow(t)
  {
  }

  lemma MoveIsFair(directory: Directory, s: State, t: State, path: Path, target: Path, claim: Claim)
    requires Carried(s, t, path, target, User) && MoveStands(s, path, claim) && Provenance(directory, s)
    requires IsSidecar(path) && Within(path, directory) && target == WithLrc(target) && Within(target, directory) && IdsBelow(s)
    ensures Fair(directory, s, Moves(path, target, claim), t)
    ensures Provenance(directory, t) && IdsBelow(t)
  {
  }

  lemma DeletionIsFair(directory: Directory, s: State, t: State, path: Path, grounds: Grounds)
    requires IsSidecar(path) && path in s.files && t == s.(files := s.files - {path}) && Provenance(directory, s) && IdsBelow(s)
    ensures Fair(directory, s, Deletes(path, grounds), t)
    ensures Provenance(directory, t) && IdsBelow(t)
  {
  }

  /** Occupied slots are at most as many as files. */
  lemma {:induction false} SlotsAreMany(files: map<Path, Node>, path: Path, number: nat)
    ensures (forall k :: 0 <= k < number ==> Archived(path, k) in files) ==> number <= |files|
  {
    if forall k :: 0 <= k < number ==> Archived(path, k) in files {
      var slots := set k: nat | 0 <= k < number :: Archived(path, k);
      SlotCount(path, number);
      assert slots <= files.Keys;
      SubsetCount(slots, files.Keys);
    }
  }

  lemma {:induction false} SlotCount(path: Path, number: nat)
    ensures |set k: nat | 0 <= k < number :: Archived(path, k)| == number
  {
    if number > 0 {
      SlotCount(path, number - 1);
      assert (set k: nat | 0 <= k < number :: Archived(path, k))
        == (set k: nat | 0 <= k < number - 1 :: Archived(path, k)) + {Archived(path, number - 1)};
    }
  }

  lemma SubsetCount(small: set<Path>, big: set<Path>)
    requires small <= big
    ensures |small| <= |big|
  {
    assert big == small + (big - small);
  }
}
