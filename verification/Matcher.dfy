/** Which LRCLib records describe a track, and what they agree on (src/lrclib.rs). */
module Matcher {
  import opened Basics
  import opened Text
  import opened Chains
  import opened Tags
  import opened Selection

  datatype Seconds = Finite(value: real) | NotFinite

  datatype Record = Record(
    id: nat,
    artist: string,
    title: string,
    album: string,
    duration: Seconds,
    instrumental: bool,
    synced: Option<string>,
    plain: Option<string>)

  // ---------------------------------------------------------------------------
  // Recording context
  // ---------------------------------------------------------------------------

  const CONTEXT_WORDS: seq<string> := [
    "live", "remix", "mix", "edit", "version", "demo", "acoustic", "unplugged", "concert",
    "instrumental", "karaoke", "session", "sessions", "rerecorded", "mono", "stereo"]

  /** `s[i..j]` is a maximal run of letters and digits. */
  predicate Token(s: string, i: nat, j: nat) {
    && i < j <= |s|
    && (forall k :: i <= k < j ==> IsAlphanumeric(s[k]))
    && (i == 0 || !IsAlphanumeric(s[i - 1]))
    && (j == |s| || !IsAlphanumeric(s[j]))
  }

  predicate PartAt(s: string, part: string, i: nat)
    requires i + |part| <= |s|
  {
    s[i..i + |part|] == part
  }

  predicate Contains(s: string, part: string) {
    exists i: nat :: i + |part| <= |s| && PartAt(s, part, i)
  }

  predicate HasRecordingContext(value: string) {
    var v := Normalize(value);
    || (exists i: nat, j: nat :: i < j <= |v| && Token(v, i, j) && v[i..j] in CONTEXT_WORDS)
    || Contains(v, "re-recorded")
    || Contains(v, "radio edit")
  }

  // ---------------------------------------------------------------------------
  // Acceptance
  // ---------------------------------------------------------------------------

  function Wanted(tags: TrackTags, clean: bool): TrackTags {
    (if clean then tags.Cleaned() else tags).Normalized()
  }

  function Candidate(record: Record, clean: bool): TrackTags {
    Wanted(TrackTags(record.title, record.artist, record.album, 0), clean)
  }

  predicate AlbumMatches(tags: TrackTags, record: Record, clean: bool) {
    Wanted(tags, clean).album == "" || Wanted(tags, clean).album == Candidate(record, clean).album
  }

  function Distance(a: real, b: real): real { if a < b then b - a else a - b }

  predicate Accepts(tags: TrackTags, record: Record, clean: bool, relaxAlbum: bool) {
    var wanted, candidate := Wanted(tags, clean), Candidate(record, clean);
    && record.id != 0
    && record.duration.Finite?
    && record.duration.value > 0.0
    && candidate.artist == wanted.artist
    && candidate.title == wanted.title
    && !(tags.duration > 0 && Distance(record.duration.value, tags.duration as real) > 2.0)
    && !(wanted.album == "" && HasRecordingContext(record.album) && !HasRecordingContext(tags.title))
    && !(!AlbumMatches(tags, record, clean)
         && (!relaxAlbum || HasRecordingContext(tags.album) || HasRecordingContext(record.album)))
  }

  function Nonblank(text: Option<string>): Option<string> {
    if text.Some? && Trim(text.value) != "" then text else None
  }

  /** What an accepted record offers: synced lyrics before plain ones, or nothing. */
  function Offer(record: Record): Option<LyricsResult> {
    if record.instrumental then Some(Instrumental)
    else if Nonblank(record.synced).Some? then Some(Found(record.synced.value))
    else if Nonblank(record.plain).Some? then Some(Found(record.plain.value))
    else None
  }

  // ---------------------------------------------------------------------------
  // Selection
  // ---------------------------------------------------------------------------

  /** An accepted record with something to offer, and whether it agrees on the album. */
  function Judge(tags: TrackTags, clean: bool, relaxAlbum: bool): Record -> Option<Match> {
    (record: Record) =>
      if Accepts(tags, record, clean, relaxAlbum) && Offer(record).Some? then
        Some((AlbumMatches(tags, record, clean), Offer(record).value))
      else None
  }

  ghost function Select(tags: TrackTags, records: set<Record>, clean: bool, relaxAlbum: bool): LyricsResult {
    Choose(Judge(tags, clean, relaxAlbum), records)
  }

  method SelectRecords(tags: TrackTags, records: seq<Record>, clean: bool,
    relaxAlbum: bool) returns (result: LyricsResult)
    ensures result == Select(tags, Elements(records), clean, relaxAlbum)
  {
    result := ChooseFrom(Judge(tags, clean, relaxAlbum), records);
  }
}
