/**
 The shared request gate and the lookups that pass through it (src/lrclib.rs). Each request keeps the
 gate from waiting until its response is read; between two requests of one caller any others may come.
 Time is an integer clock whose instants end at `limit`.
 */
module Gate {
  import opened Basics
  import opened Tags
  import opened Selection
  import opened Matcher
  import opened Cascade

  datatype Result<V> = Ok(value: V) | Err

  /** A Retry-After header: seconds, a date, or something unreadable. */
  datatype RetryAfter = Seconds(count: nat) | Date(deadline: int) | Unreadable

  const DEFAULT_DELAY: nat := 30

  function Delay(header: RetryAfter, now: int): nat {
    match header
    case Seconds(count) => count
    case Date(deadline) => if deadline > now then deadline - now else 0
    case Unreadable => DEFAULT_DELAY
  }

  datatype Body = One(record: Record) | Many(records: seq<Record>) | Garbled | TooLong | Interrupted

  datatype Reply = Unreachable | Limited(header: RetryAfter, wall: int) | Missing | Refused | Content(body: Body)

  /** The environment's part in one exchange: cancellation, lateness, durations and the reply. */
  datatype Turn = Turn(cancelled: bool, late: nat, took: nat, reply: Reply, reading: nat, lag: nat)

  /** `rest` is the pause that the reply imposes after the exchange ended. */
  datatype Exchange = Exchange(caller: nat, query: Query, sent: int, ended: int, rest: nat, reply: Reply)

  /** The exchanges of one caller. */
  function Own(log: seq<Exchange>, me: nat): seq<Exchange> {
    if log == [] then []
    else Own(log[..|log| - 1], me) + (if log[|log| - 1].caller == me then [log[|log| - 1]] else [])
  }

  /** What follows is all of one caller's: all of it is new to that caller, and nothing to the others. */
  lemma {:induction false} OwnGoesOn(before: seq<Exchange>, after: seq<Exchange>, caller: nat, me: nat)
    requires before <= after && forall i :: |before| <= i < |after| ==> after[i].caller == caller
    ensures Own(after, me) == Own(before, me) + (if me == caller then after[|before|..] else [])
    decreases |after|
  {
    if after == before {
      assert after[|before|..] == [];
    } else {
      var less := after[..|after| - 1];
      OwnGoesOn(before, less, caller, me);
      assert after[|before|..] == less[|before|..] + [after[|after| - 1]];
    }
  }

  function Max(a: nat, b: nat): nat { if a < b then b else a }

  function Rest(reply: Reply, interval: nat): nat {
    if reply.Limited? then Max(Delay(reply.header, reply.wall), interval) else interval
  }

  /** What a reply says to the endpoint that asked; a missing track is no error. */
  function Decoded(query: Query, reply: Reply): Result<Option<seq<Record>>> {
    match reply
    case Missing => Ok(None)
    case Content(One(record)) => if query.endpoint.Get? then Ok(Some([record])) else Err
    case Content(Many(records)) => if query.endpoint.Search? then Ok(Some(records)) else Err
    case _ => Err
  }

  /** The records of an answered query. */
  function Records(query: Query, reply: Reply): Option<seq<Record>> {
    var decoded := Decoded(query, reply);
    if decoded.Err? then None else Some(if decoded.value.None? then [] else decoded.value.value)
  }

  /** Each send waited for every earlier exchange to end and to rest. */
  ghost predicate Spaced(log: seq<Exchange>, interval: nat) {
    && (forall i :: 0 <= i < |log| ==> log[i].sent <= log[i].ended && log[i].rest == Rest(log[i].reply, interval))
    && (forall i, j :: 0 <= i < j < |log| ==> log[j].sent >= log[i].ended + log[i].rest)
  }

  class Client {
    const interval: nat
    const limit: int
    const turns: nat -> Turn
    var turn: nat
    var clock: int
    var nextAllowed: Option<int>
    var cancelled: bool
    ghost var log: seq<Exchange>

    ghost predicate Valid()
      reads this
    {
      && Spaced(log, interval)
      && (nextAllowed.Some? ==> forall i :: 0 <= i < |log| ==> log[i].ended + log[i].rest <= nextAllowed.value)
    }

    constructor (interval: nat, limit: int, turns: nat -> Turn, clock: int)
      ensures Valid() && log == [] && nextAllowed == Some(clock) && this.interval == interval && this.limit == limit
    {
      this.interval, this.limit, this.turns, this.clock := interval, limit, turns, clock;
      turn, cancelled, nextAllowed := 0, false, Some(clock);
      log := [];
    }

    /** Wait for the gate, send, read the answer and close the gate again; nothing when cancelled. */
    method Send(caller: nat, query: Query) returns (reply: Option<Reply>)
      requires Valid() && nextAllowed.Some?
      modifies this
      ensures Valid()
      ensures reply.None? ==> cancelled && log == old(log) && nextAllowed == old(nextAllowed)
      ensures reply.Some? ==>
        && !old(cancelled) && !cancelled
        && |log| == |old(log)| + 1 && old(log) <= log
        && log[|old(log)|].caller == caller && log[|old(log)|].query == query && log[|old(log)|].reply == reply.value
        && nextAllowed == (if clock + log[|old(log)|].rest <= limit then Some(clock + log[|old(log)|].rest) else None)
    {
      var now := turns(turn);
      turn := turn + 1;
      if cancelled || now.cancelled {
        cancelled := true;
        return None;
      }
      var sent := (if clock < nextAllowed.value then nextAllowed.value else clock) + now.late;
      clock := sent + now.took;
      if now.reply.Content? {
        clock := clock + now.reading;
      }
      var rest := Rest(now.reply, interval);
      log := log + [Exchange(caller, query, sent, clock, rest, now.reply)];
      clock := clock + now.lag;
      nextAllowed := if clock + rest <= limit then Some(clock + rest) else None;
      return Some(now.reply);
    }

    /**
     One request: at most two sends, the second only after a 429. It sends nothing once a cooldown
     was unrepresentable, and it answers exactly what the last reply says.
     */
    method Request(caller: nat, query: Query) returns (r: Result<Option<seq<Record>>>)
      requires Valid()
      modifies this
      ensures Valid() && (old(cancelled) ==> cancelled && log == old(log))
      ensures old(log) <= log && |log| <= |old(log)| + 2
      ensures forall i :: |old(log)| <= i < |log| ==> log[i].caller == caller && log[i].query == query
      ensures |log| == |old(log)| + 2 ==> log[|old(log)|].reply.Limited?
      ensures old(nextAllowed).None? ==> r.Err? && log == old(log) && nextAllowed.None?
      ensures |log| > |old(log)| ==> r == Decoded(query, log[|log| - 1].reply)
      ensures |log| == |old(log)| ==> r.Err? && (cancelled || nextAllowed.None?)
      ensures |log| == |old(log)| + 1 && log[|old(log)|].reply.Limited? ==> cancelled || nextAllowed.None?
    {
      hide Spaced;
      for attempt := 0 to 2
        invariant attempt <= 1 && Valid() && old(log) <= log && |log| == |old(log)| + attempt
        invariant attempt == 0 ==> nextAllowed == old(nextAllowed) && cancelled == old(cancelled)
        invariant attempt > 0 ==> old(nextAllowed).Some? && !old(cancelled)
        invariant forall i :: |old(log)| <= i < |log| ==>
          && log[i].caller == caller && log[i].query == query
          && log[i].reply.Limited? && Decoded(query, log[i].reply) == Err
      {
        if nextAllowed.None? {
          return Err;
        }
        var reply := Send(caller, query);
        if reply.None? {
          return Err;
        }
        if reply.value.Limited? && attempt == 0 {
          continue;
        }
        return Decoded(query, reply.value);
      }
      assert false;
    }

    /** Between two requests of one caller the others may make any of theirs. */
    method Yield(me: nat)
      requires Valid()
      modifies this
      ensures Valid() && old(log) <= log && Own(log, me) == Own(old(log), me)
      ensures old(cancelled) ==> cancelled
      ensures old(nextAllowed).None? ==> log == old(log) && nextAllowed.None?
    {
      hide Spaced, Own;
      var others: seq<(nat, Query)> := *;
      for i := 0 to |others|
        invariant Valid() && old(log) <= log && Own(log, me) == Own(old(log), me)
        invariant old(cancelled) ==> cancelled
        invariant old(nextAllowed).None? ==> log == old(log) && nextAllowed.None?
      {
        if others[i].0 != me {
          ghost var before := log;
          var reply := Request(others[i].0, others[i].1);
          OwnGoesOn(before, log, others[i].0, me);
        }
      }
    }

    /** One request of a caller, after whatever the others asked. */
    method Ask(me: nat, query: Query) returns (r: Result<Option<seq<Record>>>)
      requires Valid()
      modifies this
      ensures Valid() && old(log) <= log && Passed(Own(old(log), me), Own(log, me), query)
      ensures old(cancelled) ==> cancelled && Own(log, me) == Own(old(log), me)
      ensures old(nextAllowed).None? ==> log == old(log) && nextAllowed.None?
      ensures r.Ok? ==> |Own(log, me)| > |Own(old(log), me)| && r == Decoded(query, Own(log, me)[|Own(log, me)| - 1].reply)
    {
      hide Spaced, Own, Decoded;
      Yield(me);
      ghost var before := log;
      r := Request(me, query);
      OwnGoesOn(before, log, me, me);
    }

    /** A lookup by exact fields: at most one record. */
    method GetRecord(me: nat, tags: TrackTags) returns (r: Result<Option<Record>>)
      requires Valid()
      modifies this
      ensures old(nextAllowed).None? ==> log == old(log) && nextAllowed.None?
      ensures Valid() && old(log) <= log && Passed(Own(old(log), me), Own(log, me), GetQuery(tags))
      ensures old(cancelled) ==> cancelled && Own(log, me) == Own(old(log), me)
      ensures r.Ok? ==>
        Replied(Own(old(log), me), Own(log, me), GetQuery(tags), if r.value.Some? then [r.value.value] else [])
    {
      hide Spaced, Own;
      var reply := Ask(me, GetQuery(tags));
      if reply.Err? {
        return Err;
      }
      if reply.value.None? {
        return Ok(None);
      }
      return Ok(Some(reply.value.value[0]));
    }

    method SearchRecords(me: nat, tags: TrackTags, query: TrackTags, clean: bool, relaxAlbum: bool)
      returns (r: Result<LyricsResult>, ghost records: seq<Record>)
      requires Valid()
      modifies this
      ensures old(nextAllowed).None? ==> log == old(log) && nextAllowed.None?
      ensures Valid() && old(log) <= log && Passed(Own(old(log), me), Own(log, me), SearchQuery(query, relaxAlbum))
      ensures old(cancelled) ==> cancelled && Own(log, me) == Own(old(log), me)
      ensures r.Ok? ==>
        && Replied(Own(old(log), me), Own(log, me), SearchQuery(query, relaxAlbum), records)
        && r.value == Conclusion(tags, Stage(SearchQuery(query, relaxAlbum), clean, relaxAlbum), records)
    {
      hide Spaced, Own;
      records := [];
      var reply := Ask(me, SearchQuery(query, relaxAlbum));
      if reply.Err? {
        return Err, [];
      }
      var found := if reply.value.Some? then reply.value.value else [];
      if |found| >= SEARCH_LIMIT {
        return Ok(Ambiguous), found;
      }
      var result := SelectRecords(tags, found, clean, relaxAlbum);
      return Ok(result), found;
    }

    /** The first look, under the exact tags. */
    method LookUp(me: nat, tags: TrackTags) returns (r: Result<LyricsResult>, ghost records: seq<Record>)
      requires Valid()
      modifies this
      ensures old(nextAllowed).None? ==> log == old(log) && nextAllowed.None?
      ensures Valid() && old(log) <= log && Passed(Own(old(log), me), Own(log, me), FirstQuery(tags))
      ensures old(cancelled) ==> cancelled && Own(log, me) == Own(old(log), me)
      ensures r.Ok? ==>
        && Replied(Own(old(log), me), Own(log, me), FirstQuery(tags), records)
        && r.value == Conclusion(tags, Stage(FirstQuery(tags), false, false), records)
    {
      hide Records, Conclusion, Spaced, Own, Replied;
      if tags.duration > HOUR {
        r, records := SearchRecords(me, tags, tags, false, false);
      } else {
        r, records := Confirm(me, tags, tags, false);
      }
    }

    /** At most one record, checked against the track. */
    method Confirm(me: nat, tags: TrackTags, query: TrackTags, clean: bool) returns (r: Result<LyricsResult>,
      ghost records: seq<Record>)
      requires Valid()
      modifies this
      ensures old(nextAllowed).None? ==> log == old(log) && nextAllowed.None?
      ensures Valid() && old(log) <= log && Passed(Own(old(log), me), Own(log, me), GetQuery(query))
      ensures old(cancelled) ==> cancelled && Own(log, me) == Own(old(log), me)
      ensures r.Ok? ==>
        && Replied(Own(old(log), me), Own(log, me), GetQuery(query), records)
        && r.value == Conclusion(tags, Stage(GetQuery(query), clean, false), records)
    {
      hide Records, Conclusion, Spaced, Own, Replied;
      var found := GetRecord(me, query);
      records := if found.Ok? && found.value.Some? then [found.value.value] else [];
      if found.Err? {
        return Err, [];
      }
      GetConcludes(tags, Stage(GetQuery(query), clean, false), records);
      if found.value.None? {
        return Ok(NotFound), records;
      }
      var result := SelectRecords(tags, [found.value.value], clean, false);
      return Ok(result), records;
    }

    /** The stages after the guards. */
    method Proceed(me: nat, tags: TrackTags, fallback: bool) returns (r: Result<LyricsResult>,
      ghost answers: seq<seq<Record>>)
      requires Valid()
      modifies this
      ensures old(nextAllowed).None? ==> log == old(log) && nextAllowed.None?
      ensures Valid() && old(log) <= log && Asked(Own(old(log), me), Own(log, me), Stages(tags, fallback))
      ensures |Own(log, me)| <= |Own(old(log), me)| + 6
      ensures r.Ok? ==> Concluded(Own(old(log), me), Own(log, me), tags, fallback, answers, r.value)
    {
      hide Stages, Conclusion, Records, Follows, Answered, Asked, Missed, Passed, TrackTags.Cleaned, Valid, GetQuery,
        SearchQuery, FirstQuery, Own, Replied;
      ghost var stages, before, records := Stages(tags, fallback), Own(log, me), [];
      var cleaned := if fallback then tags.Cleaned() else tags;
      answers := [];
      StagesAre(tags, fallback, cleaned);
      Begins(tags, stages, before);
      if tags.album != "" {
        r, records := LookUp(me, tags);
        StageDone(tags, before, before, Own(log, me), stages, answers, records, r);
        answers := answers + [records];
        if r.Err? || r.value != NotFound || !fallback {
          return;
        }
      }
      ghost var middle := Own(log, me);
      if tags.album != "" && tags.duration <= HOUR && cleaned != tags {
        r, records := Confirm(me, tags, cleaned, true);
        StageDone(tags, before, middle, Own(log, me), stages, answers, records, r);
        answers := answers + [records];
        if r.Err? || r.value != NotFound {
          return;
        }
        middle := Own(log, me);
      }
      r, records := SearchRecords(me, tags, cleaned, fallback, fallback);
      StageDone(tags, before, middle, Own(log, me), stages, answers, records, r);
      answers := answers + [records];
    }

    /**
     The cascade, with any requests of other callers before each of its own. Unless it is cancelled, fails
     or has no duration to go by, it follows the stages with answers that responses to this caller really
     gave, in at most two sends each and so in at most six of its own in all.
     */
    method FetchInner(me: nat, tags: TrackTags, fallback: bool) returns (r: Result<LyricsResult>,
      ghost answers: seq<seq<Record>>)
      requires Valid()
      modifies this
      ensures old(nextAllowed).None? ==> log == old(log) && nextAllowed.None?
      ensures Valid() && old(log) <= log && Asked(Own(old(log), me), Own(log, me), Stages(tags, fallback))
      ensures |Own(log, me)| <= |Own(old(log), me)| + 6
      ensures old(cancelled) ==> r == Ok(Cancelled) && cancelled
      ensures old(cancelled) || tags.duration <= 0 ==> log == old(log)
      ensures !old(cancelled) && tags.duration <= 0 ==> r == Ok(Ambiguous)
      ensures !old(cancelled) && tags.duration > 0 && r.Ok? ==>
        Concluded(Own(old(log), me), Own(log, me), tags, fallback, answers, r.value)
    {
      hide Stages, Own, Spaced;
      if cancelled {
        return Ok(Cancelled), [];
      }
      if tags.duration <= 0 {
        return Ok(Ambiguous), [];
      }
      r, answers := Proceed(me, tags, fallback);
    }

    method Fetch(me: nat, tags: TrackTags, fallback: bool) returns (result: LyricsResult, ghost answers: seq<seq<Record>>)
      requires Valid()
      modifies this
      ensures old(nextAllowed).None? ==> log == old(log) && nextAllowed.None?
      ensures Valid() && old(log) <= log && Asked(Own(old(log), me), Own(log, me), Stages(tags, fallback))
      ensures |Own(log, me)| <= |Own(old(log), me)| + 6
      ensures result.Cancelled? ==> cancelled
      ensures result.Found? || result.NotFound? || result.Instrumental? ==>
        Concluded(Own(old(log), me), Own(log, me), tags, fallback, answers, result)
    {
      var r;
      r, answers := FetchInner(me, tags, fallback);
      hide *;
      FollowsIsNoFailure(Own(old(log), me), Own(log, me), tags, fallback, answers, if r.Ok? then r.value else Cancelled);
      if r.Ok? {
        return r.value, answers;
      }
      if cancelled {
        return Cancelled, answers;
      }
      return TemporaryFailure, answers;
    }
  }

  // ---------------------------------------------------------------------------
  // How a lookup proceeds through its stages
  // ---------------------------------------------------------------------------

  /** One request happened: at most two sends, all for this query. */
  ghost predicate Passed(before: seq<Exchange>, after: seq<Exchange>, query: Query) {
    && before <= after && |after| <= |before| + 2
    && forall i :: |before| <= i < |after| ==> after[i].query == query
  }

  /** The last response since `before` gave the records to the query. */
  ghost predicate Replied(before: seq<Exchange>, after: seq<Exchange>, query: Query, records: seq<Record>) {
    |after| > |before| && Records(query, after[|after| - 1].reply) == Some(records)
  }

  /** Every send since `before` asks one of the stages. */
  ghost predicate Asked(before: seq<Exchange>, after: seq<Exchange>, stages: seq<Stage>) {
    && before <= after
    && forall i :: |before| <= i < |after| ==> exists k :: 0 <= k < |stages| && after[i].query == stages[k].query
  }

  /** A response since `before` gave the records to the query. */
  ghost predicate Delivered(before: seq<Exchange>, after: seq<Exchange>, query: Query, records: seq<Record>) {
    exists i :: |before| <= i < |after| && after[i].query == query && Records(query, after[i].reply) == Some(records)
  }

  ghost predicate Answered(before: seq<Exchange>, after: seq<Exchange>, stages: seq<Stage>, answers: seq<seq<Record>>) {
    && |answers| <= |stages|
    && forall k :: 0 <= k < |answers| ==> Delivered(before, after, stages[k].query, answers[k])
  }

  function FirstQuery(tags: TrackTags): Query {
    if tags.duration > HOUR then SearchQuery(tags, false) else GetQuery(tags)
  }

  lemma StagesAre(tags: TrackTags, fallback: bool, cleaned: TrackTags)
    requires cleaned == if fallback then tags.Cleaned() else tags
    ensures var stages := Stages(tags, fallback);
      && (tags.album != "" ==> |stages| > 0 && stages[0] == Stage(FirstQuery(tags), false, false))
      && (tags.album != "" && !fallback ==> |stages| == 1)
      && (tags.album != "" && fallback && tags.duration <= HOUR && cleaned != tags ==>
            |stages| == 3 && stages[1] == Stage(GetQuery(cleaned), true, false))
      && (tags.album != "" && fallback && !(tags.duration <= HOUR && cleaned != tags) ==> |stages| == 2)
      && (tags.album == "" ==> |stages| == 1)
      && (tags.album == "" || fallback ==> stages[|stages| - 1] == Stage(SearchQuery(cleaned, fallback), fallback, fallback))
  {
    hide TrackTags.Cleaned;
  }

  lemma OneMoreAsked(
    before: seq<Exchange>, middle: seq<Exchange>, after: seq<Exchange>,
    stages: seq<Stage>, answers: seq<seq<Record>>, records: seq<Record>)
    requires Asked(before, middle, stages) && Answered(before, middle, stages, answers) && |answers| < |stages|
    requires Passed(middle, after, stages[|answers|].query)
    ensures Asked(before, after, stages)
    ensures |after| > |middle| && Records(stages[|answers|].query, after[|after| - 1].reply) == Some(records) ==>
      Answered(before, after, stages, answers + [records])
  {
    forall i | |before| <= i < |after| ensures exists k :: 0 <= k < |stages| && after[i].query == stages[k].query {
      if i < |middle| {
        assert after[i] == middle[i];
      }
    }
    forall k | 0 <= k < |answers| ensures Delivered(before, after, stages[k].query, answers[k]) {
      var i :| |before| <= i < |middle| && middle[i].query == stages[k].query
        && Records(stages[k].query, middle[i].reply) == Some(answers[k]);
      assert after[i] == middle[i];
    }
  }

  lemma GetConcludes(tags: TrackTags, stage: Stage, records: seq<Record>)
    requires stage.query.endpoint.Get?
    ensures Conclusion(tags, stage, records) == Select(tags, Elements(records), stage.clean, stage.relaxAlbum)
    ensures records == [] ==> Conclusion(tags, stage, records) == NotFound
  {
    if records == [] {
      ChooseOfNone(Judge(tags, stage.clean, stage.relaxAlbum), Elements(records));
    }
  }

  lemma ChooseOfNone(judge: Record -> Option<Match>, records: set<Record>)
    requires records == {}
    ensures Choose(judge, records) == NotFound
  {
    assert Matches(judge, records) == {};
    assert BestTier(Matches(judge, records)) == {};
  }

  /** Some stages were answered and all of them missed. */
  ghost predicate Missed(
    before: seq<Exchange>, after: seq<Exchange>, tags: TrackTags, stages: seq<Stage>, answers: seq<seq<Record>>) {
    && Asked(before, after, stages) && Answered(before, after, stages, answers)
    && |after| <= |before| + 2 * |answers|
    && forall k :: 0 <= k < |answers| ==> Conclusion(tags, stages[k], answers[k]) == NotFound
  }

  ghost predicate Concluded(
    before: seq<Exchange>, after: seq<Exchange>, tags: TrackTags, fallback: bool, answers: seq<seq<Record>>,
    result: LyricsResult) {
    Follows(tags, Stages(tags, fallback), answers, result) && Answered(before, after, Stages(tags, fallback), answers)
  }

  lemma Begins(tags: TrackTags, stages: seq<Stage>, log: seq<Exchange>)
    ensures Missed(log, log, tags, stages, [])
  {
  }

  /** One more stage: its conclusion is final, or the next stage goes on. */
  lemma StageDone(
    tags: TrackTags, before: seq<Exchange>, middle: seq<Exchange>, after: seq<Exchange>,
    stages: seq<Stage>, answers: seq<seq<Record>>, records: seq<Record>, r: Result<LyricsResult>)
    requires Missed(before, middle, tags, stages, answers) && |answers| < |stages|
    requires Passed(middle, after, stages[|answers|].query)
    requires r.Ok? ==>
      && Replied(middle, after, stages[|answers|].query, records)
      && r.value == Conclusion(tags, stages[|answers|], records)
    ensures Asked(before, after, stages) && |after| <= |before| + 2 * |answers| + 2
    ensures r.Ok? ==> Answered(before, after, stages, answers + [records])
    ensures r == Ok(NotFound) ==> Missed(before, after, tags, stages, answers + [records])
    ensures r.Ok? && (r.value != NotFound || |answers| + 1 == |stages|) ==> Follows(tags, stages, answers + [records], r.value)
  {
    OneMoreAsked(before, middle, after, stages, answers, records);
    hide Conclusion, Records, Asked, Answered;
  }

  lemma FollowsIsNoFailure(
    before: seq<Exchange>, after: seq<Exchange>, tags: TrackTags, fallback: bool, answers: seq<seq<Record>>,
    result: LyricsResult)
    ensures Concluded(before, after, tags, fallback, answers, result) ==> !result.Cancelled? && !result.TemporaryFailure?
  {
    var stages := Stages(tags, fallback);
    hide Stages, Conclusion;
    if Concluded(before, after, tags, fallback, answers, result) {
      ConclusionIsNoFailure(tags, stages[|answers| - 1], answers[|answers| - 1]);
    }
  }

  lemma ConclusionIsNoFailure(tags: TrackTags, stage: Stage, records: seq<Record>)
    ensures !Conclusion(tags, stage, records).Cancelled? && !Conclusion(tags, stage, records).TemporaryFailure?
  {
    var judge := Judge(tags, stage.clean, stage.relaxAlbum);
    JudgeOffers(tags, stage.clean, stage.relaxAlbum);
    ChoiceIsOffered(judge, Elements(records));
    hide Judge, Choose;
  }

  lemma ChoiceIsOffered(judge: Record -> Option<Match>, records: set<Record>)
    requires forall r :: judge(r).Some? ==> judge(r).value.1.Found? || judge(r).value.1.Instrumental?
    ensures !Choose(judge, records).Cancelled? && !Choose(judge, records).TemporaryFailure?
  {
    var result := Choose(judge, records);
    ChooseMeans(judge, records, result);
    hide Choose;
    if result != NotFound && result != Ambiguous {
      var r :| StandsFor(judge, records, r, result);
    }
  }
}
