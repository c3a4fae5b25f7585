/** From a committed result back to what LRCLib replied: the pass, the client and the cascade together. */
module Lookups {
  import opened Basics
  import opened Tables
  import opened Tags
  import opened Cascade
  import Selection
  import Matcher
  import Gate
  import Publishing
  import Currency

  /** The lookup of that moment was answered by a client that followed the stages. */
  ghost predicate FetchedAt(trace: seq<Publishing.Moment>, from: nat, fallback: bool, before: seq<Gate.Exchange>,
    after: seq<Gate.Exchange>, answers: seq<seq<Matcher.Record>>)
  {
    from < |trace| && trace[from].actor.Asks?
    && Gate.Concluded(before, after, trace[from].actor.tags, fallback, answers, trace[from].actor.answer)
  }

  lemma FetchedMeans(trace: seq<Publishing.Moment>, from: nat, fallback: bool, before: seq<Gate.Exchange>,
    after: seq<Gate.Exchange>, answers: seq<seq<Matcher.Record>>)
    ensures FetchedAt(trace, from, fallback, before, after, answers) ==>
      && from < |trace| && trace[from].actor.Asks?
      && Gate.Concluded(before, after, trace[from].actor.tags, fallback, answers, trace[from].actor.answer)
  {
    hide Gate.Concluded;
  }

  /**
   A miss is committed only when LRCLib was asked for exactly these tags and every stage was really answered:
   no page of results was cut off, and no record of any reply was usable.
   */
  lemma CommittedMissIsComplete(directory: Directory, trace: seq<Publishing.Moment>, i: nat, fallback: bool,
    before: seq<Gate.Exchange>, after: seq<Gate.Exchange>, answers: seq<seq<Matcher.Record>>, k: nat, record: Matcher.Record)
    requires Publishing.History(directory, trace) && 0 < i < |trace| && trace[i].actor.Commits? && trace[i].actor.result.NotFound?
    requires trace[i].actor.from < |trace| && trace[trace[i].actor.from].actor.Asks? ==>
      FetchedAt(trace, trace[i].actor.from, fallback, before, after, answers)
    requires k < |Stages(trace[i].actor.tags, fallback)|
    ensures var tags := trace[i].actor.tags; var stage := Stages(tags, fallback)[k];
      && |answers| == |Stages(tags, fallback)| && Gate.Delivered(before, after, stage.query, answers[k])
      && (stage.query.endpoint.Search? ==> |answers[k]| < SEARCH_LIMIT)
      && (record in answers[k] ==>
            !Matcher.Accepts(tags, record, stage.clean, stage.relaxAlbum) || Matcher.Offer(record).None?)
  {
    hide *;
    FetchedMeans(trace, trace[i].actor.from, fallback, before, after, answers);
    var tags := trace[i].actor.tags;
    Currency.CommitsAreSupplied(directory, trace, i);
    FetchMeans(before, after, tags, fallback, answers, Selection.NotFound);
    MissIsComplete(tags, Stages(tags, fallback), answers, k, record);
    EachDelivered(before, after, Stages(tags, fallback), answers, k);
  }

  lemma FetchMeans(before: seq<Gate.Exchange>, after: seq<Gate.Exchange>, tags: TrackTags, fallback: bool,
    answers: seq<seq<Matcher.Record>>, answer: Selection.LyricsResult)
    requires Gate.Concluded(before, after, tags, fallback, answers, answer)
    ensures Follows(tags, Stages(tags, fallback), answers, answer)
    ensures Gate.Answered(before, after, Stages(tags, fallback), answers)
  {
    hide Stages, Follows;
  }

  lemma EachDelivered(before: seq<Gate.Exchange>, after: seq<Gate.Exchange>, stages: seq<Stage>,
    answers: seq<seq<Matcher.Record>>, k: nat)
    requires Gate.Answered(before, after, stages, answers) && k < |answers| && |answers| <= |stages|
    ensures Gate.Delivered(before, after, stages[k].query, answers[k])
  {
  }

  /** Looked-up lyrics that are committed stand in a reply of LRCLib, in a record that describes the track. */
  lemma CommittedLyricsAreDescribed(directory: Directory, trace: seq<Publishing.Moment>, i: nat, fallback: bool,
    before: seq<Gate.Exchange>, after: seq<Gate.Exchange>, answers: seq<seq<Matcher.Record>>)
    returns (k: nat, record: Matcher.Record)
    requires Publishing.History(directory, trace) && 0 < i < |trace| && trace[i].actor.Commits? && trace[i].actor.result.Found?
    requires FetchedAt(trace, trace[i].actor.from, fallback, before, after, answers)
    ensures var tags, lyrics := trace[i].actor.tags, trace[i].actor.result.lyrics;
      && k < |answers| && |answers| <= |Stages(tags, fallback)|
      && Gate.Delivered(before, after, Stages(tags, fallback)[k].query, answers[k]) && record in answers[k]
      && Matcher.Offer(record) == Some(Selection.Found(lyrics)) && Describes(tags, record, fallback)
  {
    hide *;
    FetchedMeans(trace, trace[i].actor.from, fallback, before, after, answers);
    var tags, lyrics := trace[i].actor.tags, trace[i].actor.result.lyrics;
    Currency.CommitsAreSupplied(directory, trace, i);
    SourceAnswers(trace, trace[i].actor.from, trace[i].actor.path, tags, lyrics, trace[i].actor.result.origin);
    FetchMeans(before, after, tags, fallback, answers, Selection.Found(lyrics));
    LastDecides(tags, Stages(tags, fallback), answers, Selection.Found(lyrics));
    k, record := FoundHasWitness(tags, fallback, answers, lyrics);
    EachDelivered(before, after, Stages(tags, fallback), answers, k);
  }

  lemma SourceAnswers(trace: seq<Publishing.Moment>, from: nat, path: Path, tags: TrackTags, lyrics: string, origin: Origin)
    requires from < |trace| && trace[from].actor.Asks? && Currency.HasSource(trace, from, path, tags, lyrics, origin)
    ensures trace[from].actor.tags == tags && trace[from].actor.answer == Selection.Found(lyrics)
  {
  }
}
