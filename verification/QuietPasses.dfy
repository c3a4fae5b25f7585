/** What one pass over a group does in a quiet world, branch by branch (src/scan.rs). */
module QuietPasses {
  import opened Basics
  import opened Tables
  import opened Tags
  import opened CacheDbs
  import opened Publishing
  import opened Worlds

  ghost predicate AllRead(a: Answers, paths: seq<Path>) { forall k :: 0 <= k < |paths| ==> a.tags(paths[k]).Some? }

  /** What reading the group gives: all its tags, or an error. */
  ghost predicate ReadsAs(a: Answers, paths: seq<Path>, r: Result<Option<seq<TrackTags>>>) {
    if AllRead(a, paths) then
      r.Ok? && r.value.Some? && |r.value.value| == |paths|
      && forall k :: 0 <= k < |paths| ==> a.tags(paths[k]) == Some(r.value.value[k])
    else r == Err
  }

  /** Two of the files are of different recordings. */
  ghost predicate Mixed(tags: seq<TrackTags>)
    requires tags != []
  {
    exists k :: 0 <= k < |tags| && tags[k].Normalized() != tags[0].Normalized()
  }

  function StoredAll(t: Tables, paths: seq<Path>, tags: TrackTags, result: CachedResult, now: int): Tables
    decreases |paths|
  {
    if paths == [] then t else StoredAll(Stored(t, paths[0], tags, result, now), paths[1..], tags, result, now)
  }

  function IngestedAll(t: Tables, paths: seq<Path>, tags: TrackTags, lyrics: string, now: int): Tables
    decreases |paths|
  {
    if paths == [] then t else IngestedAll(Ingested(t, paths[0], tags, lyrics, now), paths[1..], tags, lyrics, now)
  }

  ghost predicate QuietCollision(a: Answers, s: State, paths: seq<Path>, tags: TrackTags, candidates: set<Path>,
    t: State, r: Result<()>) {
    if exists only :: OneEligible(a, candidates, only) then
      exists only :: OneEligible(a, candidates, only) &&
        var text := Readable(s.files, only);
        if text.None? then t == s && r.Err?
        else t == s.(tables := StoredAll(s.tables, paths, tags, Found(text.value, Curated), a.now)) && r.Ok?
    else t == s && r.Ok?
  }

  ghost predicate OneEligible(a: Answers, candidates: set<Path>,
    only: Path) { candidates == {only} && a.eligible(only) }

  ghost predicate QuietPublish(a: Answers, s: State, paths: seq<Path>, tags: TrackTags, result: CachedResult,
    t: State, r: Result<bool>)
    requires paths != [] && result.Found?
  {
    if SidecarsOf(s.files, paths[0]) != {} then
      exists c :: QuietCollision(a, s, paths, tags, SidecarsOf(s.files, paths[0]), t, c) && r == (if c.Ok? then Ok(false) else Err)
    else if !Storable(result) then t == s && r == Err
    else
      && t == Published(s.(tables := StoredAll(s.tables, paths, tags, result, a.now)), WithLrc(paths[0]), result.lyrics)
      && r == Ok(false)
  }

  /** From the cache or a lookup to the commit or publication. */
  ghost predicate QuietResolve(a: Answers, retry: int, s: State, paths: seq<Path>, tags: TrackTags, t: State,
    r: Result<bool>, asked: bool)
    requires paths != []
  {
    var known := WithoutLookup(s.tables, paths[0], tags, a.now, retry);
    asked == known.None?
    && if known.Some? then
         if known.value.Found? then QuietPublish(a, s, paths, tags, known.value, t, r) else t == s && r == Ok(false)
       else
         match a.lookup(tags)
         case Found(lyrics) => QuietPublish(a, s, paths, tags, Found(lyrics, Generated), t, r)
         case NotFound => t == s.(tables := StoredAll(s.tables, paths, tags, NotFound, a.now)) && r == Ok(false)
         case Instrumental => t == s.(tables := StoredAll(s.tables, paths, tags, Instrumental, a.now)) && r == Ok(false)
         case _ => t == s && r == Ok(false)
  }

  ghost predicate QuietPass(
    a: Answers, retry: int, s: State, paths: seq<Path>, existing: Option<Path>, t: State, r: Result<bool>, asked: bool)
    requires paths != []
  {
    exists read: Result<Option<seq<TrackTags>>> :: ReadsAs(a, paths, read) &&
      if read.Err? || read.value.None? || read.value.value == [] then t == s && r == Err && !asked
      else QuietUse(a, retry, s, paths, read.value.value, existing, t, r, asked)
  }

  ghost predicate QuietUse(
    a: Answers, retry: int, s: State, paths: seq<Path>, all: seq<TrackTags>, existing: Option<Path>,
    t: State, r: Result<bool>, asked: bool)
    requires paths != [] && all != []
  {
    if Mixed(all) || !a.eligible(WithLrc(paths[0])) then t == s && r == Ok(false) && !asked
    else QuietSettle(a, retry, s, paths, all[0], existing, t, r, asked)
  }

  /** From the listed sidecar, if it stays, or else from the cache. */
  ghost predicate QuietSettle(
    a: Answers, retry: int, s: State, paths: seq<Path>, tags: TrackTags, existing: Option<Path>,
    t: State, r: Result<bool>, asked: bool)
    requires paths != []
  {
    if existing.None? then QuietResolve(a, retry, s, paths, tags, t, r, asked)
    else
      exists u, used :: QuietExisting(a, s, paths, tags, existing.value, u, used)
        && if used.Err? then t == u && r == Err && !asked
           else if used.value.Some? then t == u && r == Ok(used.value.value) && !asked
           else QuietResolve(a, retry, u, paths, tags, t, r, asked)
  }

  /** The listed sidecar is unreadable, ingested for good, or archived so that the pass goes on. */
  ghost predicate QuietExisting(
    a: Answers, s: State, paths: seq<Path>, tags: TrackTags, existing: Path, t: State, r: Result<Option<bool>>)
    requires paths != []
  {
    var text := Readable(s.files, existing);
    if text.None? then t == s && r == Err
    else if !StaleGenerated(s.tables, WithLrc(paths[0]), tags, text.value) then
      t == s.(tables := IngestedAll(s.tables, paths, tags, text.value, a.now)) && r == Ok(Some(false))
    else ArchivedAs(s, t, existing) && r == Ok(None)
  }
}
