/** What a pass over a group has to show before it commits, ingests, publishes or archives (src/scan.rs). */
module Vouching {
  import opened Basics
  import opened Tables
  import opened Tags
  import opened CacheDbs
  import opened Scenes
  import opened Publishing
  import opened Traces
  import opened Worlds
  import Selection

  /** Neither the cache nor LRCLib was asked. */
  ghost predicate Unasked(before: seq<Moment>, after: seq<Moment>) {
    before <= after && forall i :: |before| <= i < |after| ==> !after[i].actor.Supplies()
  }

  lemma UnaskedOn(a: seq<Moment>, b: seq<Moment>, c: seq<Moment>)
    requires Unasked(a, b) && Unasked(b, c)
    ensures Unasked(a, c) && a <= b <= c
  {
  }

  lemma EndsUnasked(a: seq<Moment>, b: seq<Moment>, actor: Actor)
    requires Ends(a, b, actor) && !actor.Supplies()
    ensures Unasked(a, b) && a < b
  {
    forall i | |a| <= i < |b| ensures !b[i].actor.Supplies() {
      if i < |b| - 1 { assert b[i] == b[..|b| - 1][i]; }
    }
  }

  /** All the audio was checked since then, and nothing was asked for meanwhile. */
  ghost predicate Verified(trace: seq<Moment>, since: nat, paths: seq<Path>, tags: TrackTags, marks: seq<nat>) {
    Evidence(trace, since, paths, tags, marks) && NoSupplySince(trace, since)
  }

  lemma VerifiedLasts(before: seq<Moment>, after: seq<Moment>, since: nat, paths: seq<Path>, tags: TrackTags,
    marks: seq<nat>)
    requires Verified(before, since, paths, tags, marks) && Unasked(before, after)
    ensures Verified(after, since, paths, tags, marks)
  {
    EvidenceLasts(before, after, since, paths, tags, marks);
    hide Evidence, Actor.Supplies;
  }

  lemma CheckVerifies(before: seq<Moment>, after: seq<Moment>, paths: seq<Path>, tags: TrackTags, marks: seq<nat>)
    requires Glances(before, after, false) && Evidence(after, |before|, paths, tags, marks)
    ensures Verified(after, |before|, paths, tags, marks) && Looks(before, after) && before <= after
  {
    hide Evidence;
  }

  /** The moment `from` supplies this result for these tags, by a lookup or from the cache. */
  ghost predicate Supply(trace: seq<Moment>, since: nat, from: nat, tags: TrackTags, result: CachedResult) {
    since <= from < |trace| &&
    var actor := trace[from].actor;
    || (actor.Asks? && actor.tags == tags && AnswersWith(actor.answer, result))
    || (result.Found? && Gives(actor, tags, result))
  }

  lemma SupplyStays(before: seq<Moment>, after: seq<Moment>, since: nat, from: nat, tags: TrackTags, result: CachedResult)
    requires Supply(before, since, from, tags, result) && before <= after
    ensures Supply(after, since, from, tags, result)
  {
    hide AnswersWith, Gives;
  }

  lemma AskingSupplies(before: seq<Moment>, after: seq<Moment>, since: nat, tags: TrackTags, answer: Selection.LyricsResult,
    recalled: nat, reused: nat, result: CachedResult)
    requires Ends(before, after, Asks(tags, answer, recalled, reused)) && AnswersWith(answer, result) && since <= |before|
    ensures Supply(after, since, |after| - 1, tags, result)
  {
  }

  lemma GivingSupplies(trace: seq<Moment>, since: nat, from: nat, tags: TrackTags, result: CachedResult)
    requires since <= from < |trace| && Gives(trace[from].actor, tags, result) && result.Found?
    ensures Supply(trace, since, from, tags, result)
  {
    hide AnswersWith, Gives;
  }

  /** Each file's commit of this result may come next. */
  ghost predicate Backed(trace: seq<Moment>, since: nat, paths: seq<Path>, tags: TrackTags, result: CachedResult, from: nat,
    marks: seq<nat>) {
    && trace != [] && |marks| == |paths| && since <= from
    && forall k :: 0 <= k < |paths| ==> since <= marks[k] && Vouched(trace, Commits(paths[k], tags, result, from, marks[k]))
  }

  lemma SupplyBacks(trace: seq<Moment>, since: nat, start: nat, paths: seq<Path>, tags: TrackTags, result: CachedResult,
    from: nat, marks: seq<nat>)
    requires Verified(trace, start, paths, tags, marks) && Supply(trace, since, from, tags, result) && from < start
    ensures Backed(trace, since, paths, tags, result, from, marks)
  {
    hide AnswersWith, TrackTags.Normalized;
    forall k | 0 <= k < |paths| ensures since <= marks[k] && Vouched(trace, Commits(paths[k], tags, result, from, marks[k])) {
      assert Checked(trace[marks[k]].actor, paths[k], tags);
      assert Supplied(trace, paths[k], tags, result, from, trace[marks[k]].actor.stamped);
    }
  }

  /** Sidecars were found after all the checks; the published file itself may be left out. */
  ghost predicate FoundAfter(trace: seq<Moment>, found: nat, key: Path, candidates: set<Path>, marks: seq<nat>) {
    && found < |trace| && trace[found].actor.Finds? && WithLrc(trace[found].actor.audio) == key
    && (candidates == trace[found].actor.sidecars || candidates == trace[found].actor.sidecars - {key})
    && forall k :: 0 <= k < |marks| ==> marks[k] < found
  }

  lemma FoundStays(before: seq<Moment>, after: seq<Moment>, found: nat, key: Path, candidates: set<Path>, marks: seq<nat>)
    requires FoundAfter(before, found, key, candidates, marks) && before <= after
    ensures FoundAfter(after, found, key, candidates, marks)
  {
  }

  lemma FindingIsAfter(before: seq<Moment>, after: seq<Moment>, since: nat, paths: seq<Path>, tags: TrackTags,
    marks: seq<nat>, audio: Path, found: set<Path>, key: Path, candidates: set<Path>)
    requires Evidence(before, since, paths, tags, marks) && Ends(before, after, Finds(audio, found)) && WithLrc(audio) == key
    requires candidates == found || candidates == found - {key}
    ensures FoundAfter(after, |after| - 1, key, candidates, marks) && after[|after| - 1].actor == Finds(audio, found)
  {
    forall k | 0 <= k < |marks| ensures marks[k] < |after| - 1 {
      assert Checked(before[marks[k]].actor, paths[k], tags);
    }
  }

  /** The owner looked, and took this text from the sidecar, whose stamp it compared meanwhile. */
  ghost predicate Took(before: seq<Moment>, after: seq<Moment>, path: Path, text: string, taken: Actor) {
    && LooksTo(before, after, taken) && taken.Takes? && taken.path == path && taken.text == text
    && |before| <= taken.stamped < |after| - 1
  }

  /** The text of the only other sidecar may be committed as its user's. */
  lemma LoneBacks(directory: Directory, before: seq<Moment>, after: seq<Moment>, since: nat, start: nat, paths: seq<Path>,
    tags: TrackTags, found: nat, candidates: set<Path>, only: Path, text: string, taken: Actor, marks: seq<nat>)
    requires Group(directory, paths) && Verified(before, start, paths, tags, marks) && since <= start
    requires FoundAfter(before, found, WithLrc(paths[0]), candidates, marks) && candidates == {only}
    requires WithLrc(only) == WithLrc(paths[0]) && Took(before, after, only, text, taken)
    ensures Backed(after, since, paths, tags, Found(text, Curated), |after| - 1, marks)
  {
    hide TrackTags.Normalized, Within, Unasked, Tamely, Looks;
    LooksAreTame(before, after, only, since);
    VerifiedLasts(before, after, start, paths, tags, marks);
    forall k | 0 <= k < |paths|
      ensures since <= marks[k] && Vouched(after, Commits(paths[k], tags, Found(text, Curated), |after| - 1, marks[k]))
    {
      assert Checked(after[marks[k]].actor, paths[k], tags);
      assert Lone(after[found].actor, paths[k], only);
      assert LoneBetween(after, after[marks[k]].actor.stamped, taken.stamped, paths[k], only);
      assert Supplied(after, paths[k], tags, Found(text, Curated), |after| - 1, after[marks[k]].actor.stamped);
    }
  }

  lemma BackedLasts(before: seq<Moment>, after: seq<Moment>, since: nat, paths: seq<Path>, tags: TrackTags,
    result: CachedResult, from: nat, marks: seq<nat>)
    requires Backed(before, since, paths, tags, result, from, marks) && Unasked(before, after)
    ensures Backed(after, since, paths, tags, result, from, marks)
  {
    hide TrackTags.Normalized, Supplied, Actor.Supplies;
    forall k | 0 <= k < |paths| ensures Vouched(after, Commits(paths[k], tags, result, from, marks[k])) {
      assert Vouched(before, Commits(paths[k], tags, result, from, marks[k]));
      assert after[marks[k]] == before[marks[k]];
      SupplyLasts(before, after, paths[k], tags, result, from, before[marks[k]].actor.stamped);
    }
  }

  /** Each file's ingestion of this text may come next. */
  ghost predicate Sourced(trace: seq<Moment>, since: nat, paths: seq<Path>, tags: TrackTags, lyrics: string, from: nat,
    marks: seq<nat>) {
    && trace != [] && |marks| == |paths| && since <= from
    && forall k :: 0 <= k < |paths| ==> since <= marks[k] && Vouched(trace, Ingests(paths[k], tags, lyrics, from, marks[k]))
  }

  lemma SourcedLasts(before: seq<Moment>, after: seq<Moment>, since: nat, paths: seq<Path>, tags: TrackTags, lyrics: string,
    from: nat, marks: seq<nat>)
    requires Sourced(before, since, paths, tags, lyrics, from, marks) && before <= after
    ensures Sourced(after, since, paths, tags, lyrics, from, marks)
  {
    hide TrackTags.Normalized;
    forall k | 0 <= k < |paths| ensures Vouched(after, Ingests(paths[k], tags, lyrics, from, marks[k])) {
      assert Vouched(before, Ingests(paths[k], tags, lyrics, from, marks[k]));
    }
  }

  lemma TakingSources(directory: Directory, before: seq<Moment>, after: seq<Moment>, since: nat, paths: seq<Path>,
    tags: TrackTags, existing: Path, lyrics: string, taken: Actor, marks: seq<nat>)
    requires Group(directory, paths) && Readings(before, since, paths, tags, marks) && since <= |before|
    requires Took(before, after, existing, lyrics, taken) && WithLrc(existing) == WithLrc(paths[0])
    ensures Sourced(after, since, paths, tags, lyrics, |after| - 1, marks) && before < after
  {
    hide TrackTags.Normalized, Within, Looks;
    forall k | 0 <= k < |paths| ensures Vouched(after, Ingests(paths[k], tags, lyrics, |after| - 1, marks[k])) {
      assert Confirmed(before[marks[k]].actor, paths[k], tags);
    }
  }

  /** The sidecar was read, the audio checked after that, and so the sidecar may go. */
  lemma StaleIsVouched(directory: Directory, before: seq<Moment>, after: seq<Moment>, paths: seq<Path>, tags: TrackTags,
    existing: Path, lyrics: string, mark: nat, exact: bool, taken: nat, marks: seq<nat>)
    requires Group(directory, paths) && WithLrc(existing) == WithLrc(paths[0])
    requires taken < |before| && ReadAt(before, taken, existing, lyrics, mark, exact) && before <= after
    requires Evidence(after, |before|, paths, tags, marks)
    ensures marks != [] && |before| <= marks[0] && after != []
    ensures Vouched(after, Archives(existing, 0, Stale(tags, lyrics, mark, exact, taken, marks[0])))
  {
    hide TrackTags.Normalized, Within;
    assert Checked(after[marks[0]].actor, paths[0], tags);
  }

  /** With all checked, no sidecar found since and the row committed, the file may be published. */
  lemma CreationIsVouched(directory: Directory, trace: seq<Moment>, start: nat, paths: seq<Path>, tags: TrackTags,
    found: nat, marks: seq<nat>)
    requires Group(directory, paths) && Verified(trace, start, paths, tags, marks)
    requires FoundAfter(trace, found, WithLrc(paths[0]), {}, marks) && trace[found].actor.sidecars == {}
    requires trace != [] && var rows := trace[|trace| - 1].state.tables.sidecars;
      WithLrc(paths[0]) in rows && rows[WithLrc(paths[0])].tags == tags.Normalized()
    ensures marks != [] && start <= marks[0] < found && Vouched(trace, Creates(WithLrc(paths[0]), marks[0], found))
  {
    hide TrackTags.Normalized, Within, Actor.Supplies;
    assert Checked(trace[marks[0]].actor, paths[0], tags);
  }

  lemma RetractionIsVouched(before: seq<Moment>, after: seq<Moment>, made: nat, key: Path, audio: Path, found: set<Path>,
    lyrics: string, mark: nat)
    requires made < |before| && before[made].actor.Creates? && before[made].actor.path == key && WithLrc(audio) == key
    requires Ends(before, after, Finds(audio, found)) && found - {key} != {}
    ensures after != [] && Vouched(after, Archives(key, 0, Retracted(lyrics, mark, made, |after| - 1)))
    ensures made < |after| - 1
  {
  }

  // ---------------------------------------------------------------------------
  // How a pass goes on
  // ---------------------------------------------------------------------------

  /** The pass went on tamely, without doubts, and announced nothing. */
  ghost predicate Tamely(before: seq<Moment>, after: seq<Moment>, key: Path, since: nat) {
    Spares(before, after, key, false, since, false) && Silent(before, after)
  }

  lemma TamelyStays(trace: seq<Moment>, key: Path, since: nat)
    ensures Tamely(trace, trace, key, since) && Unasked(trace, trace)
  {
  }

  lemma TamelyOn(a: seq<Moment>, b: seq<Moment>, c: seq<Moment>, key: Path, since: nat)
    requires Tamely(a, b, key, since) && Tamely(b, c, key, since)
    ensures Tamely(a, c, key, since) && a <= b <= c
  {
    SparesOn(a, b, c, key, false, false, false, since, false);
    SilentOn(a, b, c);
    hide Spares;
  }

  lemma PauseIsTame(a: seq<Moment>, b: seq<Moment>, key: Path, since: nat)
    requires Pauses(a, b)
    ensures Tamely(a, b, key, since) && Unasked(a, b) && a <= b
  {
  }

  lemma LooksToIsTame(a: seq<Moment>, b: seq<Moment>, actor: Actor, key: Path, since: nat)
    requires LooksTo(a, b, actor)
    ensures Tamely(a, b, key, since) && Unasked(a, b) && a < b
  {
    LooksAreTame(a, b, key, since);
    hide Looks, Tamely, Unasked;
  }

  lemma LooksAreTame(a: seq<Moment>, b: seq<Moment>, key: Path, since: nat)
    requires Looks(a, b)
    ensures Tamely(a, b, key, since) && Unasked(a, b) && a <= b
  {
  }

  lemma LookIsTame(a: seq<Moment>, b: seq<Moment>, actor: Actor, key: Path, since: nat)
    requires Ends(a, b, actor) && actor.Looks()
    ensures Tamely(a, b, key, since) && Unasked(a, b) && a < b && b[|b| - 1].actor == actor
  {
    EndsIsLooks(a, b, actor);
    LooksAreTame(a, b, key, since);
    hide Pauses, Looks, Tamely, Unasked;
  }

  lemma PeeksAreTame(a: seq<Moment>, b: seq<Moment>, key: Path, since: nat)
    requires Peeks(a, b)
    ensures Tamely(a, b, key, since) && a <= b
  {
  }

  lemma AskingIsTame(a: seq<Moment>, b: seq<Moment>, actor: Actor, key: Path, since: nat)
    requires Ends(a, b, actor) && actor.Asks?
    ensures Tamely(a, b, key, since) && a < b
  {
    EndsIsPeeks(a, b, actor);
    PeeksAreTame(a, b, key, since);
    hide Peeks, Tamely, Ends;
  }

  lemma ActIsTame(a: seq<Moment>, b: seq<Moment>, actor: Actor, key: Path, made: bool, since: nat)
    requires Ends(a, b, actor) && Tame(actor, key, made, since) && actor.Acts()
    ensures Spares(a, b, key, made, since, false) && Unasked(a, b) && a < b && b[|b| - 1].actor == actor
    ensures !Announces(actor) ==> Silent(a, b)
    ensures !Announces(actor) && Tame(actor, key, false, since) ==> Tamely(a, b, key, since)
  {
    ActSpares(a, b, actor, key, made, since);
    EndsUnasked(a, b, actor);
    if !Announces(actor) {
      EndsSilently(a, b, actor);
      if Tame(actor, key, false, since) { ActSpares(a, b, actor, key, false, since); }
    }
    hide Spares, Silent, Unasked, Tame;
  }

  // ---------------------------------------------------------------------------
  // Why a pass may end well
  // ---------------------------------------------------------------------------

  ghost predicate WasIngested(trace: seq<Moment>, since: nat, path: Path) {
    exists m :: since <= m < |trace| && trace[m].actor.Ingests? && trace[m].actor.path == path
  }

  ghost predicate AllIngested(trace: seq<Moment>, since: nat, paths: seq<Path>) {
    forall k :: 0 <= k < |paths| ==> WasIngested(trace, since, paths[k])
  }

  /** Lyrics, or a miss, were committed for the path. */
  ghost predicate WasCommitted(trace: seq<Moment>, since: nat, path: Path, found: bool) {
    exists m :: since <= m < |trace| && trace[m].actor.Commits? && trace[m].actor.path == path && trace[m].actor.result.Found? == found
  }

  ghost predicate AllCommitted(trace: seq<Moment>, since: nat, paths: seq<Path>, found: bool) {
    forall k :: 0 <= k < |paths| ==> WasCommitted(trace, since, paths[k], found)
  }

  lemma CommittedLasts(before: seq<Moment>, after: seq<Moment>, since: nat, early: nat, path: Path, found: bool)
    requires WasCommitted(before, since, path, found) && before <= after && early <= since
    ensures WasCommitted(after, early, path, found)
  {
    var m :| since <= m < |before| && before[m].actor.Commits? && before[m].actor.path == path && before[m].actor.result.Found? == found;
    assert after[m] == before[m];
  }

  lemma AllCommittedLasts(before: seq<Moment>, after: seq<Moment>, since: nat, early: nat, paths: seq<Path>, found: bool)
    requires AllCommitted(before, since, paths, found) && before <= after && early <= since
    ensures AllCommitted(after, early, paths, found)
  {
    forall k | 0 <= k < |paths| ensures WasCommitted(after, early, paths[k], found) {
      CommittedLasts(before, after, since, early, paths[k], found);
    }
  }

  /** The files were read to be of different recordings. */
  ghost predicate ReadMixed(trace: seq<Moment>, since: nat, paths: seq<Path>) {
    exists i, j :: since <= i < |trace| && since <= j < |trace| && Disagree(trace[i].actor, trace[j].actor, paths)
  }

  predicate Disagree(a: Actor, b: Actor, paths: seq<Path>) {
    && a.Confirms? && b.Confirms? && a.path in paths && b.path in paths && a.tags.Normalized() != b.tags.Normalized()
  }

  /** There was not exactly one sidecar, or it was not eligible, or its text was committed for every file. */
  ghost predicate Handled(trace: seq<Moment>, from: nat, candidates: set<Path>, paths: seq<Path>) {
    || (forall path :: candidates != {path}) || ExcludedSince(trace, from) || AllCommitted(trace, from, paths, true)
  }

  ghost predicate ExcludedSince(trace: seq<Moment>, from: nat) {
    exists m :: from <= m < |trace| && trace[m].actor == Leaves(Excluded)
  }

  /** A sidecar was found beside the audio, or in the way of the published one, and was handled. */
  ghost predicate CollidedAt(trace: seq<Moment>, since: nat, m: nat, paths: seq<Path>)
    requires paths != []
  {
    && since <= m < |trace| && trace[m].actor.Finds? && WithLrc(trace[m].actor.audio) == WithLrc(paths[0])
    && (trace[m].actor.sidecars != {} || BlockedBefore(trace, since, m, WithLrc(paths[0])))
    && (Handled(trace, m, trace[m].actor.sidecars, paths) || Handled(trace, m, trace[m].actor.sidecars - {WithLrc(paths[0])}, paths))
  }

  ghost predicate BlockedBefore(trace: seq<Moment>, since: nat, m: nat, key: Path) {
    exists b :: since <= b < m && b < |trace| && trace[b].actor == Blocks(key)
  }

  /** Moments that end a pass over the group with this sidecar name. */
  predicate Settling(actor: Actor, key: Path) {
    match actor
    case Leaves(cause) => !cause.Broken?
    case Asks(_, answer, _, _) => !answer.Found? && !answer.NotFound? && !answer.Instrumental?
    case Creates(path, _, _) => path == key
    case Recalls(_, _, known) => known.Some? && !known.value.Found?
    case _ => false
  }

  /**
   Why a pass over a group ended well without asking for a rerun: different recordings, an ingestion for each
   file, a miss committed for each file, a sidecar in the way that was handled, a publication, a recorded miss,
   an answer that settles nothing, an excluded name, or the end of the service.
   */
  ghost predicate Accounted(trace: seq<Moment>, since: nat, paths: seq<Path>)
    requires paths != []
  {
    || ReadMixed(trace, since, paths) || AllIngested(trace, since, paths) || AllCommitted(trace, since, paths, false)
    || (exists m :: CollidedAt(trace, since, m, paths))
    || (exists m :: since <= m < |trace| && Settling(trace[m].actor, WithLrc(paths[0])))
  }

  lemma SettlingAccounts(trace: seq<Moment>, since: nat, paths: seq<Path>, m: nat)
    requires paths != [] && since <= m < |trace| && Settling(trace[m].actor, WithLrc(paths[0]))
    ensures Accounted(trace, since, paths)
  {
  }

  lemma EndsAccounts(before: seq<Moment>, after: seq<Moment>, actor: Actor, since: nat, paths: seq<Path>)
    requires paths != [] && Ends(before, after, actor) && Settling(actor, WithLrc(paths[0])) && since <= |before|
    ensures Accounted(after, since, paths)
  {
    assert Settling(after[|after| - 1].actor, WithLrc(paths[0]));
  }

  lemma MissAccounts(before: seq<Moment>, after: seq<Moment>, from: nat, since: nat, paths: seq<Path>)
    requires paths != [] && AllCommitted(before, from, paths, false) && before <= after && since <= from
    ensures Accounted(after, since, paths)
  {
    AllCommittedLasts(before, after, from, since, paths, false);
    hide AllCommitted;
  }

  lemma MixedAccounts(trace: seq<Moment>, since: nat, paths: seq<Path>, all: seq<TrackTags>, marks: seq<nat>, k: nat)
    requires paths != [] && ReadMarks(trace, since, paths, all, marks) && k < |all|
    requires all[k].Normalized() != all[0].Normalized()
    ensures Accounted(trace, since, paths)
  {
    hide TrackTags.Normalized;
    assert Disagree(trace[marks[k]].actor, trace[marks[0]].actor, paths);
  }

  lemma IngestionAccounts(trace: seq<Moment>, from: nat, since: nat, paths: seq<Path>)
    requires paths != [] && AllIngested(trace, from, paths) && since <= from
    ensures Accounted(trace, since, paths)
  {
    forall k | 0 <= k < |paths| ensures WasIngested(trace, since, paths[k]) {
      assert WasIngested(trace, from, paths[k]);
    }
  }

  /** The sidecars that were found at `found` were handled after that. */
  lemma CollisionAccounts(middle: seq<Moment>, trace: seq<Moment>, since: nat, found: nat, candidates: set<Path>, paths: seq<Path>)
    requires paths != [] && since <= found < |middle| && middle <= trace && middle[found].actor.Finds?
    requires WithLrc(middle[found].actor.audio) == WithLrc(paths[0])
    requires candidates == middle[found].actor.sidecars || candidates == middle[found].actor.sidecars - {WithLrc(paths[0])}
    requires middle[found].actor.sidecars != {} || BlockedBefore(middle, since, found, WithLrc(paths[0]))
    requires Handled(trace, |middle|, candidates, paths)
    ensures Accounted(trace, since, paths)
  {
    assert trace[found] == middle[found];
    if middle[found].actor.sidecars == {} {
      var b :| since <= b < found && b < |middle| && middle[b].actor == Blocks(WithLrc(paths[0]));
      assert trace[b].actor == Blocks(WithLrc(paths[0]));
    }
    if ExcludedSince(trace, |middle|) {
      var m :| |middle| <= m < |trace| && trace[m].actor == Leaves(Excluded);
      assert ExcludedSince(trace, found);
    }
    if AllCommitted(trace, |middle|, paths, true) {
      AllCommittedLasts(trace, trace, |middle|, found, paths, true);
    }
    assert Handled(trace, found, candidates, paths);
    hide Handled, WithLrc;
    assert CollidedAt(trace, since, found, paths);
  }

  // ---------------------------------------------------------------------------
  // How a pass ends
  // ---------------------------------------------------------------------------

  /** The pass ended so: it asks for a rerun exactly if its last moment is a doubt, and else it is final or failed. */
  ghost predicate Concluded(before: seq<Moment>, after: seq<Moment>, key: Path, since: nat, paths: seq<Path>, r: Result<bool>) {
    && Spares(before, after, key, true, since, r == Ok(true))
    && (r == Ok(false) ==> Final(before, after, paths))
    && (r.Err? ==> Stuck(before, after))
  }

  lemma TamelyConcludes(a: seq<Moment>, b: seq<Moment>, c: seq<Moment>, key: Path, since: nat, paths: seq<Path>,
    r: Result<bool>)
    requires Tamely(a, b, key, since) && Concluded(b, c, key, since, paths, r)
    ensures Concluded(a, c, key, since, paths, r) && a <= b <= c
  {
    SparesOn(a, b, c, key, true, false, true, since, r == Ok(true));
    SparesGrows(b, c, key, true, since, r == Ok(true));
    if r == Ok(false) { SilentThenFinal(a, b, c, paths); }
    hide Spares, Final, Silent;
  }

  lemma TamelyDone(a: seq<Moment>, b: seq<Moment>, key: Path, since: nat, paths: seq<Path>, r: Result<bool>)
    requires Tamely(a, b, key, since) && r != Ok(true) && (r.Err? ==> Stuck(a, b))
    ensures Concluded(a, b, key, since, paths, r)
  {
    SilentIsFinal(a, b, paths);
    hide Silent, Final;
  }

  lemma DoubtConcludes(a: seq<Moment>, b: seq<Moment>, key: Path, since: nat, paths: seq<Path>)
    requires Glances(a, b, true)
    ensures Concluded(a, b, key, since, paths, Ok(true)) && a <= b
  {
    GlancesSpare(a, b, key, true, since, true);
    hide Glances;
  }

  /** Whatever was announced, a full check of the audio or a doubt ends it. */
  lemma CheckConcludes(a: seq<Moment>, b: seq<Moment>, c: seq<Moment>, key: Path, since: nat, paths: seq<Path>,
    tags: TrackTags, current: bool, marks: seq<nat>)
    requires Spares(a, b, key, true, since, false) && Glances(b, c, !current)
    requires current ==> Evidence(c, |b|, paths, tags, marks)
    ensures Concluded(a, c, key, since, paths, Ok(!current)) && a <= b <= c
  {
    hide Evidence, TrackTags.Normalized, Tame, Announces;
    SparesGrows(a, b, key, true, since, false);
    GlancesSpare(b, c, key, true, since, !current);
    SparesOn(a, b, c, key, true, true, true, since, !current);
    SparesGrows(b, c, key, true, since, !current);
    if current {
      CheckedIsFinal(a, b, c, paths, tags, marks);
    }
    hide Spares, Final, Looks;
  }

  /** So does taking the published file away again. */
  lemma RetractionConcludes(a: seq<Moment>, b: seq<Moment>, c: seq<Moment>, d: seq<Moment>, key: Path, since: nat,
    slot: nat, reason: Reason, paths: seq<Path>, r: Result<bool>)
    requires Spares(a, b, key, true, since, false) && Ends(b, c, Archives(key, slot, reason)) && reason.Retracted?
    requires Tame(Archives(key, slot, reason), key, true, since) && Tamely(c, d, key, since) && r != Ok(true)
    requires r.Err? ==> Stuck(c, d)
    ensures Concluded(a, d, key, since, paths, r)
  {
    hide Tame, Announces;
    ActIsTame(b, c, Archives(key, slot, reason), key, true, since);
    SparesGrows(a, b, key, true, since, false);
    SparesOn(a, b, c, key, true, true, true, since, false);
    SparesOn(a, c, d, key, true, true, false, since, false);
    WithdrawnIsFinal(a, b, c, slot, key, reason, paths);
    FinalLasts(a, c, d, paths);
    hide Spares, Final, Silent, Ends;
  }

  lemma FailureConcludes(a: seq<Moment>, b: seq<Moment>, c: seq<Moment>, key: Path, since: nat, paths: seq<Path>)
    requires Spares(a, b, key, true, since, false) && Spares(b, c, key, true, since, false) && Stuck(b, c)
    ensures Concluded(a, c, key, since, paths, Err)
  {
    SparesOn(a, b, c, key, true, true, true, since, false);
    hide Spares;
  }

  lemma TamelySpares(a: seq<Moment>, b: seq<Moment>, key: Path, made: bool, since: nat)
    requires Tamely(a, b, key, since)
    ensures Spares(a, b, key, made, since, false) && a <= b
  {
    SparesOn(a, b, b, key, made, false, false, since, false);
  }
}
