/**
 What the daemon may do to sidecars and to the cache, moment by moment, while users do as they like
 (src/scan.rs, src/files.rs, src/db.rs). Each moment says what the owner of the directory learned or did,
 and what the world was like then. A crash is a trace that ends early, so whatever holds of every state of
 every trace holds after a crash.
 */
module Publishing {
  import opened Basics
  import opened Tables
  import opened Tags
  import opened Scenes
  import opened SnapshotIndex
  import S = Snapshots
  import Selection

  /** Garbled files are regular but no lyrics; huge ones are too long to read or move; the rest is special. */
  datatype Content = Text(text: string) | Garbled | Huge | Special

  datatype Owner = User | Daemon

  /** `id` is new for every user action, so an edited file is not the file it was. */
  datatype Node = Node(content: Content, owner: Owner, id: nat)

  /** What a crash leaves: the sidecars, the archives and the committed tables; `nextId` bounds all ids. */
  datatype State = State(files: map<Path, Node>, tables: Tables, nextId: nat)

  predicate Movable(content: Content) { content.Text? || content.Garbled? }

  predicate IsSidecar(path: Path) { path.Path? && path.extension.Lrc? }

  predicate IsAudio(path: Path) { path.Path? && path.extension.Audio? }

  /** Audio files of one directory with one stem. */
  ghost predicate Group(directory: Directory, paths: seq<Path>) {
    && paths != []
    && forall i :: 0 <= i < |paths| ==>
         Within(paths[i], directory) && IsAudio(paths[i]) && WithLrc(paths[i]) == WithLrc(paths[0])
  }

  /** The sidecars beside an audio file, whatever their spelling. */
  function SidecarsOf(files: map<Path, Node>, audio: Path): set<Path> {
    set path | path in files && IsSidecar(path) && audio.Path? && path.parent == audio.parent && path.stem == audio.stem
  }

  // ---------------------------------------------------------------------------
  // The files and the snapshot cache
  // ---------------------------------------------------------------------------

  /** What the snapshot cache reads from a file with this content. */
  function ReadAs(content: Content): S.Content { if content.Text? then S.Lyrics(content.text) else S.Unreadable }

  /** The path is a regular file exactly if the snapshot cache can stamp it, and then both agree on what it holds. */
  predicate Mirrored(files: map<Path, Node>, disk: S.Disk, path: Path)
    requires disk.Valid()
  {
    && (path in disk.link <==> path in files && !files[path].content.Special?)
    && (path in disk.link && path in files ==> disk.data[disk.link[path]] == ReadAs(files[path].content))
  }

  /** The snapshot cache watches the very sidecars that stand in the directory. */
  predicate Mirrors(directory: Directory, files: map<Path, Node>, disk: S.Disk)
    requires disk.Valid()
  {
    forall path :: path in files.Keys + disk.link.Keys && IsSidecar(path) && Within(path, directory) ==>
      Mirrored(files, disk, path)
  }

  /** What the daemon wrote and nobody touched. */
  predicate Owns(directory: Directory, files: map<Path, Node>, path: Path) {
    path in files && files[path].owner == Daemon && IsSidecar(path) && Within(path, directory)
  }

  /** The snapshot cache knows the directory's sidecars, and never takes a file of the daemon for another text. */
  ghost predicate Linked(directory: Directory, files: map<Path, Node>, s: S.System) {
    && s.disk.Valid() && Mirrors(directory, files, s.disk)
    && forall path :: Owns(directory, files, path) ==> Faithful(s, path)
  }

  // ---------------------------------------------------------------------------
  // Moments
  // ---------------------------------------------------------------------------

  /** Why an orphan goes: the listing, and the second look at its audio and at itself. */
  datatype Grounds = Grounds(listed: nat, paired: nat, inspected: nat)

  /**
   Why a file is archived. Its text was read in the moment `taken`, exactly or not, and files as new as `mark`
   appeared since; `checked` is when the audio was checked again, `made` when the file was published, and
   `found` when another one was found beside it.
   */
  datatype Reason =
    | Orphan(grounds: Grounds)
    | Stale(tags: TrackTags, expected: string, mark: nat, exact: bool, taken: nat, checked: nat)
    | Retracted(expected: string, mark: nat, made: nat, found: nat)

  /** Why an orphan is moved: its text, the second look at its audio, and the readings of its new owner. */
  datatype Claim = Claim(
    tags: TrackTags, lyrics: string, mark: nat, exact: bool, paired: nat, taken: nat, paths: seq<Path>, readings: seq<nat>)

  /** Why the owner need not go on: the service stops, the directory is not eligible or gone, or something failed. */
  datatype Cause = Stopping | Excluded | Gone | Broken

  /**
   The first moments are looks: the steps of a reader, a finished or failed reading of audio or lyrics, a
   check that audio is still current and its failure, directory entries, what makes the owner leave, and what
   the cache and LRCLib answer. The last six change something; `from` is the moment that supplied a result or
   a text, and `checked` the one that vouches for the tags.
   */
  datatype Actor =
    | Others
    | Reads(path: Path, step: S.ReaderStep)
    | Confirms(path: Path, tags: TrackTags, stamped: nat, versioned: nat)
    | Checks(path: Path, tags: TrackTags, stamped: nat)
    | Doubts(path: Path)
    | Fails(path: Path)
    | Lists(reserved: set<string>)
    | Pairs(path: Path, paired: bool)
    | Inspects(path: Path, link: bool)
    | Finds(audio: Path, sidecars: set<Path>)
    | Blocks(path: Path)
    | Takes(path: Path, text: string, exact: bool, stamped: nat, versioned: nat)
    | Submits(path: Path, displaced: set<Path>)
    | Counts(path: Path, counted: bool)
    | Leaves(cause: Cause)
    | Recalls(path: Path, tags: TrackTags, known: Option<CachedResult>)
    | Reuses(tags: TrackTags, reuse: Option<string>)
    | Asks(tags: TrackTags, answer: Selection.LyricsResult, recalled: nat, reused: nat)
    | Commits(path: Path, tags: TrackTags, result: CachedResult, from: nat, checked: nat)
    | Ingests(path: Path, tags: TrackTags, lyrics: string, from: nat, checked: nat)
    | Creates(path: Path, checked: nat, found: nat)
    | Archives(path: Path, slot: nat, reason: Reason)
    | Moves(path: Path, target: Path, claim: Claim)
    | Deletes(path: Path, grounds: Grounds)
  {
    /** The cache or LRCLib was asked for lyrics. */
    predicate Supplies() { Recalls? || Reuses? || Asks? }

    /** The owner looks at files and entries. */
    predicate Looks() {
      Reads? || Confirms? || Checks? || Fails? || Lists? || Pairs? || Inspects? || Finds? || Blocks? || Takes?
      || Submits? || Counts? || Leaves?
    }

    predicate Acts() { Commits? || Ingests? || Creates? || Archives? || Moves? || Deletes? }
  }

  datatype Moment = Moment(actor: Actor, state: State, scene: Scene)

  // ---------------------------------------------------------------------------
  // What each moment does to the sidecars and the tables
  // ---------------------------------------------------------------------------

  /** The directory's own rows stay. */
  ghost predicate SameRows(directory: Directory, before: Tables, after: Tables) {
    forall path :: Within(path, directory) ==>
      && (path in after.tracks <==> path in before.tracks)
      && (path in after.tracks ==> after.tracks[path] == before.tracks[path])
      && (path in after.sidecars <==> path in before.sidecars)
      && (path in after.sidecars ==> after.sidecars[path] == before.sidecars[path])
  }

  /** Live files only vanish or become new files of a user. */
  ghost predicate FilesDrift(before: State, after: State) {
    && before.nextId <= after.nextId
    && forall path :: path in after.files && path.Path? ==>
         || (path in before.files && after.files[path] == before.files[path])
         || (after.files[path].owner == User && before.nextId <= after.files[path].id)
  }

  /** Others own what they change, and they leave the directory's rows alone. */
  ghost predicate Drift(directory: Directory, before: State, after: State) {
    FilesDrift(before, after) && SameRows(directory, before.tables, after.tables)
  }

  lemma DriftStays(directory: Directory, s: State)
    ensures Drift(directory, s, s)
  {
  }

  lemma DriftOn(directory: Directory, s: State, t: State, u: State)
    requires Drift(directory, s, t) && Drift(directory, t, u)
    ensures Drift(directory, s, u)
  {
  }

  /** No daemon-written file stands at `key`, or only one with this text. */
  ghost predicate HoldsOnly(files: map<Path, Node>, key: Path, text: Option<string>) {
    key in files && files[key].owner == Daemon ==> text.Some? && files[key].content == Text(text.value)
  }

  /** The file is moved as it is; a moved sidecar counts as its user's from then on. */
  ghost predicate Carried(before: State, after: State, path: Path, target: Path, owner: Owner) {
    && path in before.files && Movable(before.files[path].content) && target !in before.files
    && after == before.(files := (before.files - {path})[target := before.files[path].(owner := owner)])
  }

  /** The file is what was read, unless it was replaced since or a change of it was excused then. */
  ghost predicate OwnText(before: State, path: Path, expected: string, mark: nat, exact: bool) {
    path in before.files &&
    (before.files[path].content == Text(expected) || before.files[path].id >= mark || !exact)
  }

  /** The sidecar row of `path` records this text. */
  ghost predicate RowSays(tables: Tables, path: Path, text: string) {
    WithLrc(path) in tables.sidecars && tables.sidecars[WithLrc(path)].lyrics == text
  }

  /** The row of the sidecar does not speak against giving this text to a recording with these tags. */
  predicate RowAllows(t: Tables, source: Path, tags: TrackTags, text: string) {
    WithLrc(source) in t.sidecars ==>
      && t.sidecars[WithLrc(source)].tags == tags
      && !(t.sidecars[WithLrc(source)].origin == Generated && t.sidecars[WithLrc(source)].lyrics == text)
  }

  /** The decision of a pass that finds a sidecar: is it generated for a recording that is no longer there? */
  predicate StaleGenerated(tables: Tables, key: Path, tags: TrackTags, lyrics: string) {
    key in tables.sidecars && tables.sidecars[key].tags != tags.Normalized()
    && tables.sidecars[key].origin == Generated && tables.sidecars[key].lyrics == lyrics
  }

  /** What the track's own row answers: its result under these tags, but not a miss that may have expired. */
  ghost predicate RowAnswers(t: Tables, path: Path, tags: TrackTags, known: Option<CachedResult>) {
    var mine := path in t.tracks && t.tracks[path].tags == tags.Normalized();
    if known.Some? then mine && t.tracks[path].result == known.value else !mine || t.tracks[path].result.NotFound?
  }

  /** What each daemon step may do to the files and the tables, and what it may learn from them. */
  ghost predicate Fair(directory: Directory, before: State, actor: Actor, after: State) {
    match actor
    case Others => Drift(directory, before, after)
    case Commits(path, tags, result, _, _) =>
      && Within(path, directory) && Storable(result)
      && exists now :: after == before.(tables := Stored(before.tables, path, tags, result, now))
    case Ingests(path, tags, lyrics, _, _) =>
      && Within(path, directory) && !BlankText(lyrics) && !StaleGenerated(before.tables, WithLrc(path), tags, lyrics)
      && exists now :: after == before.(tables := Ingested(before.tables, path, tags, lyrics, now))
    case Creates(path, _, _) =>
      && path == WithLrc(path) && Within(path, directory) && path !in before.files
      && path in after.files && after == before.(files := before.files[path := after.files[path]], nextId := after.nextId)
      && before.nextId == after.files[path].id && after.nextId == before.nextId + 1
      && after.files[path].owner == Daemon && after.files[path].content.Text?
      && RowSays(before.tables, path, after.files[path].content.text)
    case Archives(path, slot, reason) =>
      && IsSidecar(path) && path in before.files
      && Carried(before, after, path, Archived(path, slot), before.files[path].owner)
      && (match reason
         case Orphan(_) => true
         case Stale(tags, expected, mark, exact, _, _) =>
           OwnText(before, path, expected, mark, exact) && StaleGenerated(before.tables, WithLrc(path), tags, expected)
         case Retracted(expected, mark, _, _) =>
           OwnText(before, path, expected, mark, true) && RowSays(before.tables, path, expected))
    case Moves(path, target, claim) =>
      && IsSidecar(path) && Within(path, directory) && target == WithLrc(target) && Within(target, directory)
      && Carried(before, after, path, target, User)
      && OwnText(before, path, claim.lyrics, claim.mark, claim.exact)
      && RowAllows(before.tables, path, claim.tags, claim.lyrics)
      && (before.files[path].owner == Daemon ==>
            WithLrc(path) in before.tables.sidecars && before.tables.sidecars[WithLrc(path)].origin == Curated)
    case Deletes(path, _) =>
      IsSidecar(path) && path in before.files && after == before.(files := before.files - {path})
    case _ => after == before && Learns(before, actor)
  }

  /** What a look says is so. */
  ghost predicate Learns(s: State, actor: Actor) {
    match actor
    case Inspects(path, link) => path in s.files && link == s.files[path].content.Special?
    case Finds(audio, sidecars) => sidecars == SidecarsOf(s.files, audio)
    case Blocks(path) => path in s.files
    case Takes(_, text, _, _, _) => !BlankText(text)
    case Counts(path, counted) => path in s.files && s.files[path].owner == Daemon ==> counted
    case Recalls(path, tags, known) => RowAnswers(s.tables, path, tags, known)
    case Reuses(tags, reuse) => reuse == Reusable(s.tables, tags)
    case _ => true
  }

  // ---------------------------------------------------------------------------
  // What each moment does to the scene
  // ---------------------------------------------------------------------------

  /** Files come, go or are moved, but none is written in place. */
  ghost predicate Rearranged(before: Scene, after: Scene) {
    before.snap.disk.Valid() && exists disk :: after == before.(snap := S.ApplyReplace(before.snap, disk))
  }

  ghost predicate Seen(directory: Directory, before: Scene, actor: Actor, after: Scene) {
    match actor
    case Others => Beside(directory, before.snap, after.snap)
    case Reads(path, step) =>
      && Within(path, directory) && before.snap.disk.Valid()
      && after == before.(snap := S.ApplyReader(before.snap, path, step))
    case Confirms(path, tags, _, _) => after == before && HoldsTags(before.snap, path, tags)
    case Checks(path, tags, _) =>
      && Within(path, directory) && before.snap.disk.Valid()
      && after == before.(snap := S.ApplyReader(before.snap, path, S.AgreeVersion))
      && HoldsTags(after.snap, path, tags)
    case Takes(path, text, _, _, _) =>
      after == before && IsSidecar(path) && Within(path, directory) && HoldsLyrics(before.snap, path, text)
    case Lists(reserved) => after == before && reserved == Stems(directory, before.entries)
    case Pairs(path, paired) => after == before && paired == Paired(before.entries, directory, path)
    case Creates(_, _, _) => Rearranged(before, after)
    case Archives(_, _, _) => Rearranged(before, after)
    case Moves(_, _, _) => Rearranged(before, after)
    case Deletes(_, _) => Rearranged(before, after)
    case _ => after == before
  }

  /** The owner holds a finished snapshot of the sidecar, with this text. */
  predicate HoldsLyrics(s: S.System, path: Path, text: string) {
    path in s.readers && s.readers[path].Held? && s.readers[path].row.value == S.Lyrics(text)
  }

  // ---------------------------------------------------------------------------
  // What must have come before
  // ---------------------------------------------------------------------------

  /** At moment `k` the reader of `path` took this step, from a state in which it had its row already. */
  ghost predicate Steps(trace: seq<Moment>, k: nat, path: Path, step: S.ReaderStep) {
    0 < k < |trace| && trace[k].actor == Reads(path, step) && SameRow(trace[k - 1], trace[k], path)
  }

  /** Two moments of one reader, between which it kept its row. */
  ghost predicate SameRow(early: Moment, late: Moment, path: Path) {
    && path in early.scene.snap.readers && path in late.scene.snap.readers
    && Carries(early.scene.snap.readers[path]) && Carries(late.scene.snap.readers[path])
    && early.scene.snap.readers[path].row == late.scene.snap.readers[path].row
  }

  /** A reader compared its stamp again at `stamped` and its version at `versioned`, and kept its row since. */
  ghost predicate Rechecked(trace: seq<Moment>, path: Path, stamped: nat, versioned: nat) {
    && stamped < versioned && Steps(trace, stamped, path, S.RecheckStamp) && Steps(trace, versioned, path, S.RecheckVersion)
    && SameRow(trace[stamped], trace[versioned], path) && SameRow(trace[versioned], trace[|trace| - 1], path)
    && trace[stamped - 1].scene.snap.readers[path].Got? && trace[versioned - 1].scene.snap.readers[path].Restamped?
  }

  /** The aliases whose versions the store of a reader raises. */
  function Leftover(s: S.System, path: Path): set<Path> {
    if S.Stores(s, path, S.Store) then Displaced(s.index, path, s.readers[path].row.stamp.inode) else {}
  }

  /** The reader has just stored its row, and the directories of the aliases that it displaced were submitted. */
  ghost predicate Submitted(trace: seq<Moment>, path: Path) {
    var n := |trace|;
    n > 2 && trace[n - 2].actor == Reads(path, S.Store) && trace[n - 1].actor == Submits(path, Leftover(trace[n - 3].scene.snap, path))
  }

  /** At moment `k` nobody was to raise the path's version for a change, and none was uncovered. */
  ghost predicate Settled(trace: seq<Moment>, k: nat, path: Path)
    requires k < |trace|
  {
    !trace[k].scene.snap.Excused(path)
  }

  /** An audio file was read, and held a recording with these tags. */
  ghost predicate Confirmed(actor: Actor, path: Path, tags: TrackTags) {
    actor.Confirms? && actor.path == path && actor.tags.Normalized() == tags.Normalized()
  }

  /** An audio file was found to be what it was when it was read, with these tags. */
  ghost predicate Checked(actor: Actor, path: Path, tags: TrackTags) {
    actor.Checks? && actor.path == path && actor.tags.Normalized() == tags.Normalized()
  }

  /** The answer of LRCLib that this result records. */
  predicate AnswersWith(answer: Selection.LyricsResult, result: CachedResult) {
    match result
    case Found(lyrics, origin) => origin == Generated && answer == Selection.Found(lyrics)
    case NotFound => answer == Selection.NotFound
    case Instrumental => answer == Selection.Instrumental
  }

  /** The sidecar is the only one beside the audio, the published file aside. */
  predicate Lone(actor: Actor, audio: Path, sidecar: Path) {
    actor.Finds? && WithLrc(actor.audio) == WithLrc(audio)
    && (actor.sidecars == {sidecar} || actor.sidecars - {WithLrc(audio)} == {sidecar})
  }

  ghost predicate LoneBetween(trace: seq<Moment>, from: nat, to: nat, audio: Path, sidecar: Path) {
    exists k :: from <= k < to && k < |trace| && Lone(trace[k].actor, audio, sidecar)
  }

  /**
   The moment that supplied a committed result: a lookup for these tags, or what the cache said of them,
   both before the audio's stamp was compared again at `stamped`, or a lone sidecar found after that.
   */
  ghost predicate Supplied(trace: seq<Moment>, path: Path, tags: TrackTags, result: CachedResult, from: nat, stamped: nat) {
    from < |trace| &&
      match trace[from].actor
      case Asks(wanted, answer, _, _) => wanted == tags && AnswersWith(answer, result) && from < stamped
      case Recalls(_, wanted, known) => wanted == tags && known == Some(result) && result.Found? && from < stamped
      case Reuses(wanted, reuse) => wanted == tags && reuse.Some? && result == Found(reuse.value, Generated) && from < stamped
      case Takes(sidecar, text, _, held, _) =>
        && result == Found(text, Curated) && WithLrc(sidecar) == WithLrc(path)
        && stamped < held < from && LoneBetween(trace, stamped, held, path, sidecar)
      case _ => false
  }

  /** Nothing was asked for since `from`. */
  ghost predicate NoSupplySince(trace: seq<Moment>, from: nat) {
    forall j :: from <= j < |trace| ==> !trace[j].actor.Supplies()
  }

  /** The listing knows no audio for the orphan, a second look finds none and no link, and then it goes at once. */
  ghost predicate Grounded(trace: seq<Moment>, path: Path, grounds: Grounds) {
    && path.Path? && grounds.listed < grounds.paired < grounds.inspected < |trace|
    && trace[grounds.listed].actor.Lists? && path.stem !in trace[grounds.listed].actor.reserved
    && trace[grounds.paired].actor == Pairs(path, false) && trace[grounds.inspected].actor == Inspects(path, false)
    && forall j :: grounds.paired < j < |trace| && j != grounds.inspected ==> trace[j].actor.Others?
  }

  /** Each of the audio files was read since `taken`, and held a recording with these normalized tags. */
  ghost predicate ReadSince(trace: seq<Moment>, taken: nat, paths: seq<Path>, tags: TrackTags, readings: seq<nat>) {
    && |readings| == |paths|
    && forall k :: 0 <= k < |readings| ==>
         && taken <= readings[k] < |trace| && trace[readings[k]].actor.Confirms?
         && trace[readings[k]].actor.path == paths[k] && trace[readings[k]].actor.tags.Normalized() == tags
  }

  /** The sidecar's text was read in the moment `taken`, and files as new as `mark` appeared since its stamp was compared. */
  ghost predicate ReadAt(trace: seq<Moment>, taken: nat, path: Path, text: string, mark: nat, exact: bool) {
    taken < |trace| &&
    var actor := trace[taken].actor;
    && actor.Takes? && actor.path == path && actor.text == text && actor.exact == exact
    && actor.stamped < taken && trace[actor.stamped].state.nextId == mark
  }

  /** What a moment needs to have happened before it. */
  ghost predicate Vouched(trace: seq<Moment>, actor: Actor)
    requires trace != []
  {
    match actor
    case Confirms(path, tags, stamped, versioned) => Rechecked(trace, path, stamped, versioned) && Submitted(trace, path)
    case Takes(path, _, exact, stamped, versioned) =>
      Rechecked(trace, path, stamped, versioned) && Submitted(trace, path) && exact == Settled(trace, stamped, path)
    case Checks(path, tags, stamped) =>
      && Steps(trace, stamped, path, S.AgreeStamp) && SameRow(trace[stamped], trace[|trace| - 1], path)
      && trace[stamped - 1].scene.snap.readers[path].Held? && trace[|trace| - 1].scene.snap.readers[path].Agreed?
    case Asks(tags, _, recalled, reused) =>
      && recalled < reused < |trace|
      && trace[recalled].actor.Recalls? && trace[recalled].actor.tags == tags && trace[recalled].actor.known.None?
      && trace[reused].actor == Reuses(tags, None)
      && forall j :: recalled < j < |trace| && j != reused ==> trace[j].actor.Others?
    case Commits(path, tags, result, from, checked) =>
      && checked < |trace| && Checked(trace[checked].actor, path, tags)
      && NoSupplySince(trace, trace[checked].actor.stamped)
      && Supplied(trace, path, tags, result, from, trace[checked].actor.stamped)
    case Ingests(path, tags, lyrics, from, checked) =>
      && checked < from < |trace| && Confirmed(trace[checked].actor, path, tags)
      && trace[from].actor.Takes? && checked < trace[from].actor.stamped
      && WithLrc(trace[from].actor.path) == WithLrc(path) && trace[from].actor.text == lyrics
    case Creates(path, checked, found) =>
      && checked < found < |trace| && trace[checked].actor.Checks? && WithLrc(trace[checked].actor.path) == path
      && trace[found].actor.Finds? && WithLrc(trace[found].actor.audio) == path && trace[found].actor.sidecars == {}
      && NoSupplySince(trace, trace[checked].actor.stamped)
      && var rows := trace[|trace| - 1].state.tables.sidecars;
         path in rows && rows[path].tags == trace[checked].actor.tags.Normalized()
    case Archives(path, _, Orphan(grounds)) => Grounded(trace, path, grounds)
    case Archives(path, _, Stale(tags, expected, mark, exact, taken, checked)) =>
      && ReadAt(trace, taken, path, expected, mark, exact)
      && checked < |trace| && trace[checked].actor.Checks? && WithLrc(trace[checked].actor.path) == WithLrc(path)
      && trace[checked].actor.tags.Normalized() == tags.Normalized() && taken < trace[checked].actor.stamped
    case Archives(path, _, Retracted(_, _, made, found)) =>
      && made < found < |trace| && trace[made].actor.Creates? && trace[made].actor.path == path
      && trace[found].actor.Finds? && WithLrc(trace[found].actor.audio) == path
      && trace[found].actor.sidecars - {path} != {}
    case Moves(path, target, claim) =>
      && claim.paired < claim.taken < |trace| && trace[claim.paired].actor == Pairs(path, false)
      && ReadAt(trace, claim.taken, path, claim.lyrics, claim.mark, claim.exact)
      && claim.paths != [] && WithLrc(claim.paths[0]) == target
      && ReadSince(trace, claim.taken, claim.paths, claim.tags, claim.readings)
    case Deletes(path, grounds) => Grounded(trace, path, grounds)
    case _ => true
  }

  // ---------------------------------------------------------------------------
  // Histories
  // ---------------------------------------------------------------------------

  /** Every sidecar that the daemon wrote and nobody touched has a committed row with its text. */
  ghost predicate Provenance(directory: Directory, s: State) {
    forall path :: path in s.files && s.files[path].owner == Daemon && Within(path, directory) ==>
      && path == WithLrc(path) && path in s.tables.sidecars
      && s.files[path].content == Text(s.tables.sidecars[path].lyrics)
  }

  ghost predicate Proven(directory: Directory, moment: Moment) {
    && Provenance(directory, moment.state) && S.Inv(moment.scene.snap)
    && Linked(directory, moment.state.files, moment.scene.snap)
  }

  /** A moment may follow this trace. */
  ghost predicate Follows(directory: Directory, trace: seq<Moment>, moment: Moment)
    requires trace != []
  {
    var last := trace[|trace| - 1];
    && Fair(directory, last.state, moment.actor, moment.state)
    && Seen(directory, last.scene, moment.actor, moment.scene)
    && Vouched(trace, moment.actor)
  }

  /** A history of the owner of one directory. */
  ghost predicate History(directory: Directory, trace: seq<Moment>) {
    && trace != [] && trace[0].actor.Others?
    && (forall i :: 0 <= i < |trace| ==> Proven(directory, trace[i]))
    && (forall i :: 0 < i < |trace| ==> Follows(directory, trace[..i], trace[i]))
  }

  lemma HistoryGrows(directory: Directory, trace: seq<Moment>, moment: Moment)
    requires History(directory, trace) && Follows(directory, trace, moment) && Proven(directory, moment)
    ensures History(directory, trace + [moment])
  {
    hide Follows, Proven;
    var more := trace + [moment];
    assert more[..|trace|] == trace;
    forall i | 0 < i < |more| ensures Follows(directory, more[..i], more[i]) {
      if i < |trace| {
        assert more[..i] == trace[..i];
      }
    }
  }

  /** What one moment of a history is to the one before. */
  lemma HistoryStep(directory: Directory, trace: seq<Moment>, i: nat)
    requires History(directory, trace) && 0 < i < |trace|
    ensures Fair(directory, trace[i - 1].state, trace[i].actor, trace[i].state)
    ensures Seen(directory, trace[i - 1].scene, trace[i].actor, trace[i].scene)
    ensures Vouched(trace[..i], trace[i].actor) && Proven(directory, trace[i - 1]) && Proven(directory, trace[i])
  {
    hide Fair, Seen, Vouched, Proven;
    assert Follows(directory, trace[..i], trace[i]);
    assert trace[..i][i - 1] == trace[i - 1];
  }

  // ---------------------------------------------------------------------------
  // Conservation
  // ---------------------------------------------------------------------------

  /** Its own path, a reconciled path of its directory, or an archive. */
  predicate Rests(path: Path, place: Path) {
    || place == path || place.Archived?
    || (path.Path? && place == WithLrc(place) && Within(place, path.parent))
  }

  ghost predicate SameBytes(a: Node, b: Node) { a.id == b.id && a.content == b.content }

  ghost predicate KeptAt(s: State, node: Node, path: Path, place: Path) {
    Rests(path, place) && place in s.files && SameBytes(s.files[place], node)
  }

  /** Others leave this file where it is. */
  ghost predicate LeftAlone(before: State, after: State, node: Node) {
    forall path :: path in before.files && SameBytes(before.files[path], node) ==>
      path in after.files && SameBytes(after.files[path], node)
  }

  lemma StepKeeps(directory: Directory, before: State, actor: Actor, after: State, node: Node, path: Path, place: Path)
    returns (next: Path)
    requires Fair(directory, before, actor, after) && KeptAt(before, node, path, place)
    requires !actor.Deletes? && (actor.Others? ==> LeftAlone(before, after, node))
    requires Within(path, directory)
    ensures KeptAt(after, node, path, next)
  {
    next := place;
    match actor
    case Archives(from, slot, _) => if from == place { next := Archived(from, slot); }
    case Moves(from, target, _) => if from == place { next := target; }
    case _ =>
  }

  /**
   No user text is lost: along every history without deletions, a file that its users leave alone keeps
   its bytes, at its own path, a reconciled path of its directory or an archive path.
   */
  lemma {:induction false} NothingIsLost(directory: Directory, trace: seq<Moment>, i: nat, j: nat, path: Path)
    returns (place: Path)
    requires History(directory, trace) && i <= j < |trace|
    requires path in trace[i].state.files && Within(path, directory)
    requires forall k :: i < k <= j ==> !trace[k].actor.Deletes?
    requires forall k :: i < k <= j && trace[k].actor.Others? ==>
      LeftAlone(trace[k - 1].state, trace[k].state, trace[i].state.files[path])
    ensures KeptAt(trace[j].state, trace[i].state.files[path], path, place)
    decreases j - i
  {
    hide Fair, Proven, Vouched, Seen, LeftAlone;
    if i == j {
      place := path;
    } else {
      var before := NothingIsLost(directory, trace, i, j - 1, path);
      HistoryStep(directory, trace, j);
      hide History;
      place := StepKeeps(directory, trace[j - 1].state, trace[j].actor, trace[j].state, trace[i].state.files[path], path, before);
    }
  }

  // ---------------------------------------------------------------------------
  // After a crash
  // ---------------------------------------------------------------------------

  /**
   Wherever a run stops, the next pass recognizes what the daemon published and nobody touched: under
   equal tags its origin stays, and generated lyrics of a recording with other tags are archived
   rather than ingested as curated ones.
   */
  lemma RestartKnowsItsOwn(directory: Directory, trace: seq<Moment>, i: nat, audio: Path, tags: TrackTags,
    lyrics: string, now: int)
    requires History(directory, trace) && i < |trace|
    requires var files := trace[i].state.files;
      WithLrc(audio) in files && files[WithLrc(audio)].owner == Daemon && files[WithLrc(audio)].content == Text(lyrics)
    requires Within(audio, directory)
    ensures var t := trace[i].state.tables; var key := WithLrc(audio);
      && key in t.sidecars && t.sidecars[key].lyrics == lyrics
      && (t.sidecars[key].tags == tags.Normalized() ==>
            !StaleGenerated(t, key, tags, lyrics)
            && Ingested(t, audio, tags, lyrics, now).sidecars[key].origin == t.sidecars[key].origin)
      && (t.sidecars[key].tags != tags.Normalized() ==>
            (StaleGenerated(t, key, tags, lyrics) <==> t.sidecars[key].origin == Generated))
  {
    hide TrackTags.Normalized, Follows, S.Inv;
    assert Proven(directory, trace[i]);
  }
}
