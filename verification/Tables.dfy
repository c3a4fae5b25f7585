/** Lookup results and sidecar provenance as the cache keeps them (src/db.rs). */
module Tables {
  import opened Basics
  import opened Text
  import opened Tags

  datatype Origin = Generated | Curated

  datatype CachedResult = Found(lyrics: string, origin: Origin) | NotFound | Instrumental

  datatype TrackRecord = TrackRecord(tags: TrackTags, result: CachedResult, checkedAt: int)

  datatype SidecarRecord = SidecarRecord(tags: TrackTags, lyrics: string, origin: Origin)

  datatype Tables = Tables(tracks: map<Path, TrackRecord>, sidecars: map<Path, SidecarRecord>)

  predicate BlankText(text: string) { Trim(text) == "" }

  predicate Storable(result: CachedResult) { result.Found? ==> !BlankText(result.lyrics) }

  /** One transaction: the track's row and, for lyrics, the provenance of its sidecar. */
  function Stored(t: Tables, path: Path, tags: TrackTags, result: CachedResult, now: int): Tables {
    Tables(
      t.tracks[path := TrackRecord(tags.Normalized(), result, now)],
      if result.Found? then t.sidecars[WithLrc(path) := SidecarRecord(tags.Normalized(), result.lyrics, result.origin)]
      else t.sidecars)
  }

  function Cached(t: Tables, path: Path, tags: TrackTags, now: int, retry: int): Option<CachedResult> {
    if path !in t.tracks || t.tracks[path].tags != tags.Normalized() then None
    else if t.tracks[path].result == NotFound && now - t.tracks[path].checkedAt >= retry then None
    else Some(t.tracks[path].result)
  }

  /** The sidecar row already says that exactly this text belongs to exactly these tags. */
  predicate Known(t: Tables, path: Path, tags: TrackTags, lyrics: string) {
    WithLrc(path) in t.sidecars
    && t.sidecars[WithLrc(path)].tags == tags.Normalized() && t.sidecars[WithLrc(path)].lyrics == lyrics
  }

  function OriginFor(t: Tables, path: Path, tags: TrackTags, lyrics: string): Origin {
    if Known(t, path, tags, lyrics) then t.sidecars[WithLrc(path)].origin else Curated
  }

  /** Both rows already say what an ingestion would write. */
  predicate Recorded(t: Tables, path: Path, tags: TrackTags, lyrics: string) {
    Known(t, path, tags, lyrics) && path in t.tracks && t.tracks[path].tags == tags.Normalized()
    && t.tracks[path].result == Found(lyrics, t.sidecars[WithLrc(path)].origin)
  }

  function Ingested(t: Tables, path: Path, tags: TrackTags, lyrics: string, now: int): Tables {
    if Recorded(t, path, tags, lyrics) then t
    else Stored(t, path, tags, Found(lyrics, OriginFor(t, path, tags, lyrics)), now)
  }

  /** The texts recorded as found for exactly these normalized tags. */
  ghost function TextsFor(t: Tables, tags: TrackTags): set<string> {
    set path | path in t.tracks && t.tracks[path].tags == tags.Normalized() && t.tracks[path].result.Found?
      :: t.tracks[path].result.lyrics
  }

  /** Exact reuse: a positive duration and one single text among all tracks with the same tags. */
  ghost function Reusable(t: Tables, tags: TrackTags): Option<string> {
    if tags.duration > 0 && exists text :: TextsFor(t, tags) == {text} then
      var text :| TextsFor(t, tags) == {text};
      Some(text)
    else None
  }

  // ---------------------------------------------------------------------------
  // What these operations promise
  // ---------------------------------------------------------------------------

  ghost predicate HoldsText(t: Tables, path: Path, tags: TrackTags, text: string) {
    path in t.tracks && t.tracks[path].tags == tags.Normalized() && t.tracks[path].result.Found?
    && t.tracks[path].result.lyrics == text
  }

  /** A text is reused exactly when some track with the same tags holds it and none holds another one. */
  lemma ReusableMeans(t: Tables, tags: TrackTags, text: string)
    ensures Reusable(t, tags) == Some(text) <==>
      && tags.duration > 0
      && (exists path :: HoldsText(t, path, tags, text))
      && (forall path, other :: HoldsText(t, path, tags, other) ==> other == text)
  {
    hide TrackTags.Normalized;
    var texts := TextsFor(t, tags);
    forall path, other | HoldsText(t, path, tags, other) ensures other in texts {
      assert t.tracks[path].result.lyrics in texts;
    }
    forall other | other in texts ensures exists path :: HoldsText(t, path, tags, other) {
      var path :| path in t.tracks && t.tracks[path].tags == tags.Normalized() && t.tracks[path].result.Found?
        && t.tracks[path].result.lyrics == other;
      assert HoldsText(t, path, tags, other);
    }
    if texts == {text} {
      assert text in texts;
    } else if text in texts {
      var other :| other in texts && other != text;
      var path :| HoldsText(t, path, tags, other);
    }
  }

  /**
   What is stored is what is cached: for tags that normalize alike, until a miss expires, and for no
   other tags.
   */
  lemma StoredIsCached(t: Tables, path: Path, tags: TrackTags, result: CachedResult, at: int, other: TrackTags,
    now: int, retry: int)
    ensures Cached(Stored(t, path, tags, result, at), path, other, now, retry) ==
      if other.Normalized() == tags.Normalized() && !(result == NotFound && now - at >= retry) then Some(result)
      else None
  {
  }

  /**
   Ingesting a text never passes it off as generated: the text is recorded under its tags, and its
   origin is the one already on record for the same tags and text, or curated.
   */
  lemma IngestKeepsOrigin(t: Tables, path: Path, tags: TrackTags, lyrics: string, now: int)
    ensures var u := Ingested(t, path, tags, lyrics, now);
      && Recorded(u, path, tags, lyrics)
      && u.sidecars[WithLrc(path)].origin == OriginFor(t, path, tags, lyrics)
      && (u.sidecars[WithLrc(path)].origin == Generated ==> u.sidecars[WithLrc(path)] == t.sidecars[WithLrc(path)])
      && (forall p :: p != path ==> (p in u.tracks <==> p in t.tracks) && (p in t.tracks ==> u.tracks[p] == t.tracks[p]))
      && (forall p :: p != WithLrc(path) ==> (p in u.sidecars <==> p in t.sidecars) && (p in t.sidecars ==> u.sidecars[p] == t.sidecars[p]))
  {
    hide TrackTags.Normalized;
  }

  /** A second ingestion of the same text changes nothing, whenever it happens. */
  lemma IngestIsIdempotent(t: Tables, path: Path, tags: TrackTags, lyrics: string, first: int, second: int)
    ensures var u := Ingested(t, path, tags, lyrics, first); Ingested(u, path, tags, lyrics, second) == u
  {
    IngestKeepsOrigin(t, path, tags, lyrics, first);
  }

  lemma OneElement(texts: set<string>, text: string)
    requires |texts| == 1 && text in texts
    ensures texts == {text}
  {
    assert |texts - {text}| == 0;
  }
}
