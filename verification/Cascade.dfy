/** The lookup cascade (src/lrclib.rs): which queries a track may cause, and what their answers mean. */
module Cascade {
  import opened Basics
  import opened Tags
  import opened Selection
  import opened Matcher
  import Widening

  datatype Endpoint = Get | Search

  datatype Query = Query(endpoint: Endpoint, artist: string, title: string, album: Option<string>, duration: Option<int>)

  /** One stage: its query, and how its records are judged. */
  datatype Stage = Stage(query: Query, clean: bool, relaxAlbum: bool)

  const HOUR := 3600
  const SEARCH_LIMIT := 20

  function Named(album: string): Option<string> { if album == "" then None else Some(album) }

  function GetQuery(tags: TrackTags): Query {
    Query(Get, tags.artist, tags.title, Named(tags.album), if 1 <= tags.duration <= HOUR then Some(tags.duration) else None)
  }

  function SearchQuery(tags: TrackTags, relaxAlbum: bool): Query {
    Query(Search, tags.artist, tags.title, if relaxAlbum then None else Named(tags.album), None)
  }

  /** The stages in order; a track without an album is only ever searched for. */
  function Stages(tags: TrackTags, fallback: bool): seq<Stage> {
    var cleaned := if fallback then tags.Cleaned() else tags;
    (if tags.album == "" then []
     else if tags.duration > HOUR then [Stage(SearchQuery(tags, false), false, false)]
     else [Stage(GetQuery(tags), false, false)])
    + (if tags.album != "" && fallback && tags.duration <= HOUR && cleaned != tags
       then [Stage(GetQuery(cleaned), true, false)] else [])
    + (if tags.album == "" || fallback then [Stage(SearchQuery(cleaned, fallback), fallback, fallback)] else [])
  }

  /** What one stage concludes; a full page of search results may be incomplete. */
  ghost function Conclusion(tags: TrackTags, stage: Stage, records: seq<Record>): LyricsResult {
    if stage.query.endpoint.Search? && |records| >= SEARCH_LIMIT then Ambiguous
    else Select(tags, Elements(records), stage.clean, stage.relaxAlbum)
  }

  /** The first stage that finds anything decides, and a miss needs all of them. */
  ghost predicate Follows(tags: TrackTags, stages: seq<Stage>, answers: seq<seq<Record>>, result: LyricsResult) {
    && 0 < |answers| <= |stages|
    && (forall k :: 0 <= k < |answers| - 1 ==> Conclusion(tags, stages[k], answers[k]) == NotFound)
    && result == Conclusion(tags, stages[|answers| - 1], answers[|answers| - 1])
    && (result == NotFound ==> |answers| == |stages|)
  }

  // ---------------------------------------------------------------------------
  // Soundness
  // ---------------------------------------------------------------------------

  /**
   The record describes the track: artist, title and length agree, and so does the album, unless the
   fallback relaxes it between albums that say nothing about the recording. Against an unknown album, a
   record of a special recording needs a title that says so.
   */
  ghost predicate Describes(tags: TrackTags, record: Record, fallback: bool) {
    && record.id != 0 && record.duration.Finite? && record.duration.value > 0.0
    && Candidate(record, fallback).artist == Normalize(tags.artist)
    && Candidate(record, fallback).title == Wanted(tags, fallback).title
    && (tags.duration > 0 ==> Distance(record.duration.value, tags.duration as real) <= 2.0)
    && (AlbumMatches(tags, record, fallback)
        || (fallback && !HasRecordingContext(tags.album) && !HasRecordingContext(record.album)))
    && (Wanted(tags, fallback).album == "" && HasRecordingContext(record.album) ==> HasRecordingContext(tags.title))
  }

  /** Whatever stage accepted it, an accepted record describes the track. */
  lemma AcceptedDescribes(tags: TrackTags, record: Record, clean: bool, relaxAlbum: bool, fallback: bool)
    requires Accepts(tags, record, clean, relaxAlbum)
    requires (clean || relaxAlbum ==> fallback) && (relaxAlbum ==> clean)
    ensures Describes(tags, record, fallback)
  {
    if fallback && !clean {
      Widening.FallbackWidens(tags, record);
    }
    hide Normalize, Clean, HasRecordingContext;
  }

  lemma JudgeOffers(tags: TrackTags, clean: bool, relaxAlbum: bool)
    ensures forall r :: Judge(tags, clean, relaxAlbum)(r).Some? ==>
      Judge(tags, clean, relaxAlbum)(r).value.1.Found? || Judge(tags, clean, relaxAlbum)(r).value.1.Instrumental?
  {
    hide Accepts, AlbumMatches;
  }

  lemma ConclusionHasWitness(tags: TrackTags, stage: Stage, records: seq<Record>,
    lyrics: string) returns (record: Record)
    requires Conclusion(tags, stage, records) == Found(lyrics)
    ensures record in records && Offer(record) == Some(Found(lyrics)) && Accepts(tags, record, stage.clean, stage.relaxAlbum)
  {
    hide Accepts, AlbumMatches, Offer;
    var judge := Judge(tags, stage.clean, stage.relaxAlbum);
    JudgeOffers(tags, stage.clean, stage.relaxAlbum);
    ChooseMeans(judge, Elements(records), Found(lyrics));
    record :| StandsFor(judge, Elements(records), record, Found(lyrics));
  }

  /** Lyrics come from a record that some response really contained and that describes the track. */
  lemma FoundHasWitness(tags: TrackTags, fallback: bool, answers: seq<seq<Record>>, lyrics: string) returns (k: nat,
    record: Record)
    requires Follows(tags, Stages(tags, fallback), answers, Found(lyrics))
    ensures k < |answers| && record in answers[k]
    ensures Offer(record) == Some(Found(lyrics)) && Describes(tags, record, fallback)
  {
    hide *;
    LastDecides(tags, Stages(tags, fallback), answers, Found(lyrics));
    k := |answers| - 1;
    var stage := Stages(tags, fallback)[k];
    StageSettings(tags, fallback, k);
    record := ConclusionHasWitness(tags, stage, answers[k], lyrics);
    AcceptedDescribes(tags, record, stage.clean, stage.relaxAlbum, fallback);
  }

  lemma LastDecides(tags: TrackTags, stages: seq<Stage>, answers: seq<seq<Record>>, result: LyricsResult)
    requires Follows(tags, stages, answers, result)
    ensures 0 < |answers| <= |stages| && Conclusion(tags, stages[|answers| - 1], answers[|answers| - 1]) == result
  {
  }

  lemma StageSettings(tags: TrackTags, fallback: bool, k: nat)
    requires k < |Stages(tags, fallback)|
    ensures var stage := Stages(tags, fallback)[k];
      (stage.clean || stage.relaxAlbum ==> fallback) && (stage.relaxAlbum ==> stage.clean)
  {
    hide Clean;
  }

  /** A miss means that every stage was answered, no answer was cut off, and none held a usable candidate. */
  lemma MissIsComplete(tags: TrackTags, stages: seq<Stage>, answers: seq<seq<Record>>, k: nat, record: Record)
    requires Follows(tags, stages, answers, NotFound) && k < |stages|
    ensures |answers| == |stages|
    ensures stages[k].query.endpoint.Search? ==> |answers[k]| < SEARCH_LIMIT
    ensures record in answers[k] ==>
      !Accepts(tags, record, stages[k].clean, stages[k].relaxAlbum) || Offer(record).None?
  {
    hide Accepts, AlbumMatches, Offer;
    var judge := Judge(tags, stages[k].clean, stages[k].relaxAlbum);
    assert Conclusion(tags, stages[k], answers[k]) == NotFound;
    JudgeOffers(tags, stages[k].clean, stages[k].relaxAlbum);
    ChooseMeans(judge, Elements(answers[k]), NotFound);
    if record in answers[k] {
      assert judge(record).None?;
    }
  }

  /** Without the fallback, lyrics need exact tags: the cleaned forms play no part. */
  lemma ExactWithoutFallback(tags: TrackTags, answers: seq<seq<Record>>, lyrics: string) returns (k: nat,
    record: Record)
    requires Follows(tags, Stages(tags, false), answers, Found(lyrics))
    ensures k < |answers| && record in answers[k] && Offer(record) == Some(Found(lyrics))
    ensures Normalize(record.artist) == Normalize(tags.artist) && Normalize(record.title) == Normalize(tags.title)
    ensures Normalize(tags.album) == "" || Normalize(record.album) == Normalize(tags.album)
  {
    k, record := FoundHasWitness(tags, false, answers, lyrics);
    hide Normalize, Clean, HasRecordingContext;
  }
}
