/** Giving orphaned sidecars back to the audio whose title they name (src/scan.rs). */
module Reconciliation {
  import opened Basics
  import opened Tables
  import opened Tags
  import opened Titles
  import opened CacheDbs
  import opened Scenes
  import opened Publishing
  import opened Traces
  import opened Worlds
  import opened QuietPasses
  import opened Vouching
  import opened Processor

  /** The normalized tags of one group that could be read. */
  datatype Gathered = Gathered(stem: string, tags: seq<TrackTags>)

  /** An orphan went to the group with this stem and these normalized tags. */
  datatype Relocation = Relocation(orphan: string, stem: string, tags: TrackTags)

  ghost predicate AudioListed(directory: Directory, audio: map<string, seq<Path>>) {
    forall stem :: stem in audio ==> Group(directory, audio[stem]) && audio[stem][0].stem == stem
  }

  predicate SidecarNamed(directory: Directory, path: Path, stem: string) {
    IsSidecar(path) && Within(path, directory) && path.stem == stem
  }

  ghost predicate SidecarsListed(directory: Directory, lrc: map<string, seq<Path>>) {
    forall stem :: stem in lrc ==> lrc[stem] != [] && forall k :: 0 <= k < |lrc[stem]| ==> SidecarNamed(directory, lrc[stem][k], stem)
  }

  /** The map lists exactly the sidecars that are there. */
  ghost predicate InStep(directory: Directory, files: map<Path, Node>, lrc: map<string, seq<Path>>) {
    forall path :: IsSidecar(path) && Within(path, directory) ==>
      (path in files <==> path.stem in lrc && path in lrc[path.stem])
  }

  predicate Shares(group: Gathered, title: string) {
    exists k :: 0 <= k < |group.tags| && TitleKey(group.tags[k].title) == TitleKey(title)
  }

  /** Exactly the group at `i` holds the title. */
  ghost predicate HeldOnlyBy(groups: seq<Gathered>, title: string, i: nat) {
    i < |groups| && forall j :: 0 <= j < |groups| ==> (Shares(groups[j], title) <==> j == i)
  }

  ghost predicate GroupsListed(audio: map<string, seq<Path>>, groups: seq<Gathered>) {
    && (forall i :: 0 <= i < |groups| ==> groups[i].stem in audio && groups[i].tags != [])
    && (forall i, j :: 0 <= i < j < |groups| ==> groups[i].stem != groups[j].stem)
  }

  function Orphans(audio: map<string, seq<Path>>, lrc: map<string, seq<Path>>): set<string> { lrc.Keys - audio.Keys }

  // ---------------------------------------------------------------------------
  // Reading the groups
  // ---------------------------------------------------------------------------

  method NormalizeAll(all: seq<TrackTags>) returns (normalized: seq<TrackTags>)
    ensures |normalized| == |all| && forall k :: 0 <= k < |all| ==> normalized[k] == all[k].Normalized()
  {
    hide TrackTags.Normalized;
    normalized := [];
    for i := 0 to |all|
      invariant |normalized| == i && forall k :: 0 <= k < i ==> normalized[k] == all[k].Normalized()
    {
      normalized := normalized + [all[i].Normalized()];
    }
  }

  /** Each file of the group was read since then, and held a recording with these normalized tags. */
  ghost predicate GroupRead(trace: seq<Moment>, since: nat, paths: seq<Path>, tags: seq<TrackTags>) {
    exists marks :: NormalMarks(trace, since, paths, tags, marks)
  }

  ghost predicate NormalMarks(trace: seq<Moment>, since: nat, paths: seq<Path>, tags: seq<TrackTags>, marks: seq<nat>) {
    && |marks| == |paths| == |tags|
    && forall k :: 0 <= k < |marks| ==>
         && since <= marks[k] < |trace| && trace[marks[k]].actor.Confirms?
         && trace[marks[k]].actor.path == paths[k] && trace[marks[k]].actor.tags.Normalized() == tags[k]
  }

  /** One file of the group could not be read since then, or changed under the reader. */
  ghost predicate LeftOut(trace: seq<Moment>, since: nat, paths: seq<Path>) {
    exists k :: since <= k < |trace| && GivesUp(trace[k].actor, paths)
  }

  predicate GivesUp(actor: Actor, paths: seq<Path>) { (actor.Doubts? || actor.Fails?) && actor.path in paths }

  ghost predicate Named(groups: seq<Gathered>, stem: string) { exists i :: 0 <= i < |groups| && groups[i].stem == stem }

  /** The groups are those among these stems that were read, each with the tags that its files were seen to hold. */
  ghost predicate GatheredFrom(audio: map<string, seq<Path>>, groups: seq<Gathered>, stems: set<string>, since: nat,
    trace: seq<Moment>) {
    && (forall i :: 0 <= i < |groups| ==> groups[i].stem in audio && GroupRead(trace, since, audio[groups[i].stem], groups[i].tags))
    && (forall stem :: stem in stems && stem in audio ==> Named(groups, stem) || LeftOut(trace, since, audio[stem]))
  }

  lemma GatheredLasts(audio: map<string, seq<Path>>, groups: seq<Gathered>, stems: set<string>, since: nat,
    before: seq<Moment>, after: seq<Moment>)
    requires GatheredFrom(audio, groups, stems, since, before) && before <= after
    ensures GatheredFrom(audio, groups, stems, since, after)
  {
    hide TrackTags.Normalized;
    forall i | 0 <= i < |groups| ensures GroupRead(after, since, audio[groups[i].stem], groups[i].tags) {
      assert GroupRead(before, since, audio[groups[i].stem], groups[i].tags);
      var marks :| NormalMarks(before, since, audio[groups[i].stem], groups[i].tags, marks);
      assert NormalMarks(after, since, audio[groups[i].stem], groups[i].tags, marks);
    }
    forall stem | stem in stems && stem in audio ensures Named(groups, stem) || LeftOut(after, since, audio[stem]) {
      if LeftOut(before, since, audio[stem]) {
        var k :| since <= k < |before| && GivesUp(before[k].actor, audio[stem]);
        assert GivesUp(after[k].actor, audio[stem]);
      }
    }
  }

  lemma OneMoreRead(audio: map<string, seq<Path>>, groups: seq<Gathered>, stems: set<string>, since: nat,
    past: seq<Moment>, trace: seq<Moment>, stem: string, all: seq<TrackTags>, tags: seq<TrackTags>, marks: seq<nat>)
    requires GatheredFrom(audio, groups, stems, since, past) && past <= trace && stem in audio && since <= |past|
    requires ReadMarks(trace, |past|, audio[stem], all, marks)
    requires |tags| == |all| && forall k :: 0 <= k < |all| ==> tags[k] == all[k].Normalized()
    ensures GatheredFrom(audio, groups + [Gathered(stem, tags)], stems + {stem}, since, trace)
  {
    GatheredLasts(audio, groups, stems, since, past, trace);
    hide TrackTags.Normalized, GroupRead, LeftOut;
    assert GroupRead(trace, since, audio[stem], tags) by { MarksRead(trace, |past|, since, audio[stem], all, tags, marks); }
    var more := groups + [Gathered(stem, tags)];
    forall i | 0 <= i < |more| ensures more[i].stem in audio && GroupRead(trace, since, audio[more[i].stem], more[i].tags) {
      if i < |groups| { assert more[i] == groups[i]; }
    }
    forall other | other in stems + {stem} && other in audio ensures Named(more, other) || LeftOut(trace, since, audio[other]) {
      if other == stem {
        assert more[|groups|].stem == other;
      } else if Named(groups, other) {
        var i :| 0 <= i < |groups| && groups[i].stem == other;
        assert more[i].stem == other;
      }
    }
  }

  lemma MarksRead(trace: seq<Moment>, from: nat, since: nat, paths: seq<Path>, all: seq<TrackTags>, tags: seq<TrackTags>,
    marks: seq<nat>)
    requires ReadMarks(trace, from, paths, all, marks) && since <= from
    requires |tags| == |all| && forall k :: 0 <= k < |all| ==> tags[k] == all[k].Normalized()
    ensures GroupRead(trace, since, paths, tags)
  {
    hide TrackTags.Normalized;
    assert NormalMarks(trace, since, paths, tags, marks);
  }

  lemma OneMoreLeftOut(audio: map<string, seq<Path>>, groups: seq<Gathered>, stems: set<string>, since: nat,
    past: seq<Moment>, trace: seq<Moment>, stem: string, failed: bool)
    requires GatheredFrom(audio, groups, stems, since, past) && stem in audio && since <= |past|
    requires GaveUp(past, trace, audio[stem], failed)
    ensures GatheredFrom(audio, groups, stems + {stem}, since, trace)
  {
    GatheredLasts(audio, groups, stems, since, past, trace);
    assert GivesUp(trace[|trace| - 1].actor, audio[stem]);
    assert LeftOut(trace, since, audio[stem]);
    hide GroupRead, LeftOut, GaveUp, Named;
  }

  /** Between two groups: those gathered so far. */
  ghost predicate Gathering(quiet: bool, a: Answers, audio: map<string, seq<Path>>, groups: seq<Gathered>,
    left: set<string>, since: nat, trace: seq<Moment>) {
    && left <= audio.Keys && GroupsListed(audio, groups) && since <= |trace|
    && (forall i :: 0 <= i < |groups| ==> groups[i].stem !in left)
    && GatheredFrom(audio, groups, audio.Keys - left, since, trace)
    && (quiet ==> GroupsExact(a, audio, groups, audio.Keys - left))
  }

  lemma GatheringStarts(quiet: bool, a: Answers, audio: map<string, seq<Path>>, trace: seq<Moment>)
    ensures Gathering(quiet, a, audio, [], audio.Keys, |trace|, trace)
  {
    NoneGathered(a, audio);
    assert audio.Keys - audio.Keys == {};
  }

  lemma GatheringOn(
    quiet: bool, a: Answers, audio: map<string, seq<Path>>, groups: seq<Gathered>, left: set<string>, since: nat,
    past: seq<Moment>, trace: seq<Moment>, stem: string, r: Result<Option<seq<TrackTags>>>, marks: seq<nat>,
    tags: seq<TrackTags>)
    requires Gathering(quiet, a, audio, groups, left, since, past) && stem in left && past <= trace
    requires quiet ==> ReadsAs(a, audio[stem], r)
    requires if r.Ok? && r.value.Some? then ReadMarks(trace, |past|, audio[stem], r.value.value, marks)
      else GaveUp(past, trace, audio[stem], r.Err?)
    requires r.Ok? && r.value.Some? ==>
      |tags| == |r.value.value| && tags != [] && forall k :: 0 <= k < |tags| ==> tags[k] == r.value.value[k].Normalized()
    ensures Gathering(quiet, a, audio, if r.Ok? && r.value.Some? then groups + [Gathered(stem, tags)] else groups,
      left - {stem}, since, trace)
  {
    hide TrackTags.Normalized, ReadMarks, GaveUp, ReadsAs, GroupsExact, GatheredFrom, GroupsListed;
    OneStemLess(audio.Keys, left, stem);
    if r.Ok? && r.value.Some? {
      OneMoreRead(audio, groups, audio.Keys - left, since, past, trace, stem, r.value.value, tags, marks);
      if quiet { OneMoreGathered(a, audio, groups, audio.Keys - left, stem, r.value.value, tags); }
      OneMoreListed(audio, groups, left, stem, tags);
    } else {
      OneMoreLeftOut(audio, groups, audio.Keys - left, since, past, trace, stem, r.Err?);
      if quiet { OneLeftOut(a, audio, groups, audio.Keys - left, stem, r); }
    }
  }

  lemma OneStemLess(stems: set<string>, left: set<string>, stem: string)
    requires stem in left && left <= stems
    ensures stems - (left - {stem}) == stems - left + {stem}
  {
  }

  lemma OneMoreListed(audio: map<string, seq<Path>>, groups: seq<Gathered>, left: set<string>, stem: string,
    tags: seq<TrackTags>)
    requires GroupsListed(audio, groups) && stem in audio && stem in left && tags != []
    requires forall i :: 0 <= i < |groups| ==> groups[i].stem !in left
    ensures var more := groups + [Gathered(stem, tags)];
      GroupsListed(audio, more) && forall i :: 0 <= i < |more| ==> more[i].stem !in left - {stem}
  {
  }

  lemma GatheringEnds(quiet: bool, a: Answers, audio: map<string, seq<Path>>, groups: seq<Gathered>, left: set<string>,
    since: nat, trace: seq<Moment>)
    requires Gathering(quiet, a, audio, groups, left, since, trace)
    ensures left <= audio.Keys && GroupsListed(audio, groups)
    ensures left == {} ==> GatheredFrom(audio, groups, audio.Keys, since, trace)
    ensures quiet && left == {} ==> GroupsExact(a, audio, groups, audio.Keys)
  {
    assert audio.Keys - {} == audio.Keys;
    hide GroupsExact, GroupsListed, GatheredFrom;
  }

  lemma PathsOfGroup(directory: Directory, audio: map<string, seq<Path>>, stem: string)
    requires AudioListed(directory, audio) && stem in audio
    ensures audio[stem] != [] && AllWithin(directory, audio[stem])
  {
  }

  /** Groups that cannot be read, or changed under the reader, are left out, and only those. */
  method Gather(world: World, audio: map<string, seq<Path>>) returns (groups: seq<Gathered>)
    requires world.Valid() && AudioListed(world.directory, audio)
    modifies world`files, world`nextId, world`trace, world`snap, world`entries, world.db`tracks, world.db`sidecars
    ensures world.Valid() && Shifts(old(world.trace), world.trace)
    ensures GroupsListed(audio, groups) && GatheredFrom(audio, groups, audio.Keys, |old(world.trace)|, world.trace)
    ensures world.quiet ==> world.Now() == old(world.Now()) && GroupsExact(world.answers, audio, groups, audio.Keys)
  {
    hide Ready, Drift, Pauses, Looks, Glances, OtherReaders, SameLibrary, Holding, AllWithin, ReadMarks, Unasked,
      Spares, Silent, TrackTags.Normalized, Unknown, SidecarsOf, Shifts, Gathering, GatheredFrom, ReadsAs,
      AudioListed, GroupsListed, GroupsExact, AllHeld, GaveUp;
    groups := [];
    var left := audio.Keys;
    GatheringStarts(world.quiet, world.answers, audio, world.trace);
    NothingShifts(world.trace);
    while left != {}
      invariant world.Valid() && Shifts(old(world.trace), world.trace)
      invariant Gathering(world.quiet, world.answers, audio, groups, left, |old(world.trace)|, world.trace)
      invariant world.quiet ==> world.Now() == old(world.Now())
      decreases left
    {
      ghost var past := world.trace;
      GatheringEnds(world.quiet, world.answers, audio, groups, left, |old(world.trace)|, past);
      var stem :| stem in left;
      PathsOfGroup(world.directory, audio, stem);
      var read;
      ghost var marks;
      read, marks := ReadGroup(world, audio[stem]);
      LooksShift(past, world.trace);
      ShiftsOn(old(world.trace), past, world.trace);
      var tags: seq<TrackTags> := [];
      if read.Ok? && read.value.Some? {
        MarksCount(world.trace, |past|, audio[stem], read.value.value, marks);
        tags := NormalizeAll(read.value.value);
      }
      GatheringOn(world.quiet, world.answers, audio, groups, left, |old(world.trace)|, past, world.trace, stem, read, marks, tags);
      if read.Ok? && read.value.Some? {
        groups := groups + [Gathered(stem, tags)];
      }
      left := left - {stem};
    }
    GatheringEnds(world.quiet, world.answers, audio, groups, left, |old(world.trace)|, world.trace);
  }

  lemma NothingShifts(trace: seq<Moment>)
    ensures Shifts(trace, trace)
  {
  }

  /** The readable groups among these stems, with their normalized tags. */
  ghost predicate GroupsExact(a: Answers, audio: map<string, seq<Path>>, groups: seq<Gathered>, stems: set<string>) {
    && (forall i :: 0 <= i < |groups| ==> GroupExact(a, audio, groups[i]) && groups[i].stem in stems)
    && (forall stem :: stem in stems && stem in audio && AllRead(a, audio[stem]) ==>
          exists i :: 0 <= i < |groups| && groups[i].stem == stem)
  }

  ghost predicate GroupExact(a: Answers, audio: map<string, seq<Path>>, group: Gathered) {
    group.stem in audio && |group.tags| == |audio[group.stem]|
    && forall k :: 0 <= k < |group.tags| ==>
         a.tags(audio[group.stem][k]).Some? && group.tags[k] == a.tags(audio[group.stem][k]).value.Normalized()
  }

  lemma NoneGathered(a: Answers, audio: map<string, seq<Path>>)
    ensures GroupsExact(a, audio, [], {})
  {
  }

  lemma OneMoreGathered(
    a: Answers, audio: map<string, seq<Path>>, groups: seq<Gathered>, stems: set<string>, stem: string,
    all: seq<TrackTags>, tags: seq<TrackTags>)
    requires GroupsExact(a, audio, groups, stems) && stem in audio && ReadsAs(a, audio[stem], Ok(Some(all)))
    requires |tags| == |all| && forall k :: 0 <= k < |all| ==> tags[k] == all[k].Normalized()
    ensures GroupsExact(a, audio, groups + [Gathered(stem, tags)], stems + {stem})
  {
    hide TrackTags.Normalized;
    var more := groups + [Gathered(stem, tags)];
    assert GroupExact(a, audio, Gathered(stem, tags));
    forall other | other in stems + {stem} && other in audio && AllRead(a, audio[other])
      ensures exists i :: 0 <= i < |more| && more[i].stem == other
    {
      if other == stem {
        assert more[|groups|].stem == stem;
      } else {
        var i :| 0 <= i < |groups| && groups[i].stem == other;
        assert more[i].stem == other;
      }
    }
  }

  lemma OneLeftOut(
    a: Answers, audio: map<string, seq<Path>>, groups: seq<Gathered>, stems: set<string>, stem: string,
    r: Result<Option<seq<TrackTags>>>)
    requires GroupsExact(a, audio, groups, stems) && stem in audio && ReadsAs(a, audio[stem], r) && !(r.Ok? && r.value.Some?)
    ensures GroupsExact(a, audio, groups, stems + {stem})
  {
    hide TrackTags.Normalized;
  }

  // ---------------------------------------------------------------------------
  // One relocation
  // ---------------------------------------------------------------------------

  lemma MoveMayStand(directory: Directory, s: State, t: State, source: Path, claim: Claim)
    requires Drift(directory, s, t) && Provenance(directory, t) && IsSidecar(source) && Within(source, directory)
    requires StandsAs(s, source, claim.lyrics, claim.mark, claim.exact) && HoldsOnly(s.files, source, Some(claim.lyrics))
    requires RowAllows(t.tables, source, claim.tags, claim.lyrics)
    ensures MoveStands(t, source, claim)
  {
  }

  lemma ClaimRead(s: State, source: Path, claim: Claim, readings: seq<nat>)
    requires MoveStands(s, source, claim)
    ensures MoveStands(s, source, claim.(readings := readings))
  {
  }

  /** A reason not to move the orphan: it has audio, or its text, its row, its new owner or its new name forbid it. */
  predicate Refusal(moment: Moment, source: Path, target: Path, paths: seq<Path>, tags: TrackTags) {
    match moment.actor
    case Pairs(path, paired) => path == source && paired
    case Fails(path) => path == source || path in paths
    case Doubts(path) => path in paths
    case Confirms(path, found, _, _) => path in paths && found.Normalized() != tags
    case Takes(path, text, _, _, _) => path == source && !RowAllows(moment.state.tables, source, tags, text)
    case Blocks(path) => path == target
    case _ => false
  }

  ghost predicate Refused(before: seq<Moment>, after: seq<Moment>, source: Path, target: Path, paths: seq<Path>,
    tags: TrackTags) {
    exists k :: |before| <= k < |after| && Refusal(after[k], source, target, paths, tags)
  }

  lemma RefusedNow(before: seq<Moment>, past: seq<Moment>, after: seq<Moment>, source: Path, target: Path, paths: seq<Path>,
    tags: TrackTags)
    requires before <= past < after && Refusal(after[|after| - 1], source, target, paths, tags)
    ensures Refused(before, after, source, target, paths, tags)
  {
  }

  lemma RefusedBefore(before: seq<Moment>, past: seq<Moment>, after: seq<Moment>, source: Path, target: Path,
    paths: seq<Path>, tags: TrackTags)
    requires before <= past <= after
    ensures Refused(past, after, source, target, paths, tags) ==> Refused(before, after, source, target, paths, tags)
    ensures Refused(before, past, source, target, paths, tags) ==> Refused(before, after, source, target, paths, tags)
  {
    hide Refusal;
    if Refused(before, past, source, target, paths, tags) {
      var k :| |before| <= k < |past| && Refusal(past[k], source, target, paths, tags);
      assert Refusal(after[k], source, target, paths, tags);
    }
  }

  /** Whether the group still holds the same tags throughout. */
  method StillTagged(world: World, paths: seq<Path>, tags: TrackTags, ghost source: Path, ghost target: Path)
    returns (same: bool, ghost readings: seq<nat>)
    requires world.Valid() && AllWithin(world.directory, paths)
    modifies world`files, world`nextId, world`trace, world`snap, world`entries, world.db`tracks, world.db`sidecars
    ensures world.Valid() && Shifts(old(world.trace), world.trace) && Drift(world.directory, old(world.Now()), world.Now())
    ensures same ==> Looks(old(world.trace), world.trace)
    ensures same ==> ReadSince(world.trace, |old(world.trace)|, paths, tags, readings)
    ensures !same ==> Refused(old(world.trace), world.trace, source, target, paths, tags)
    ensures world.quiet ==> world.Now() == old(world.Now()) && same == Tagged(world.answers, paths, tags)
  {
    hide Ready, Drift, FilesDrift, Pauses, Looks, Peeks, Glances, OtherReaders, SameLibrary, Holding, HoldsLike,
      AllWithin, Unasked, Spares, Silent, TrackTags.Normalized, Unknown, SidecarsOf, Shifts, ReadSince, Refused,
      Tagged;
    DriftStays(world.directory, world.Now());
    readings := [];
    Nothing(world.trace);
    NothingTagged(world.answers, world.trace, paths, tags);
    for i := 0 to |paths|
      invariant world.Valid() && Looks(old(world.trace), world.trace) && Drift(world.directory, old(world.Now()), world.Now())
      invariant ReadSince(world.trace, |old(world.trace)|, paths[..i], tags, readings)
      invariant world.quiet ==> world.Now() == old(world.Now()) && Tagged(world.answers, paths[..i], tags)
    {
      ghost var before, past := world.Now(), world.trace;
      IsWithin(world.directory, paths, i);
      var item := world.ReadAudio(paths[i]);
      DriftOn(world.directory, old(world.Now()), before, world.Now());
      GlancesOn(old(world.trace), past, world.trace, item == Ok(None));
      if item.Err? || item.value.None? || item.value.value.Normalized() != tags {
        NotTagged(world.answers, paths, i, tags);
        LooksShift(old(world.trace), world.trace);
        ReadingRefuses(old(world.trace), past, world.trace, paths, i, tags, item, source, target);
        return false, readings;
      }
      GlancesLook(old(world.trace), world.trace);
      TaggedMore(world.answers, past, old(world.trace), world.trace, paths, i, tags, readings, item.value.value);
      readings := readings + [|world.trace| - 1];
    }
    assert paths[..|paths|] == paths;
    LooksShift(old(world.trace), world.trace);
    return true, readings;
  }

  lemma NothingTagged(a: Answers, trace: seq<Moment>, paths: seq<Path>, tags: TrackTags)
    ensures ReadSince(trace, |trace|, paths[..0], tags, []) && Tagged(a, paths[..0], tags)
  {
  }

  lemma NotTagged(a: Answers, paths: seq<Path>, i: nat, tags: TrackTags)
    requires i < |paths|
    ensures a.tags(paths[i]).None? || a.tags(paths[i]).value.Normalized() != tags ==> !Tagged(a, paths, tags)
  {
  }

  lemma TaggedMore(a: Answers, past: seq<Moment>, start: seq<Moment>, trace: seq<Moment>, paths: seq<Path>, i: nat,
    tags: TrackTags, readings: seq<nat>, found: TrackTags)
    requires i < |paths| && start <= past < trace && ReadSince(past, |start|, paths[..i], tags, readings)
    requires Confirming(trace[|trace| - 1], paths[i], found) && found.Normalized() == tags
    ensures ReadSince(trace, |start|, paths[..i + 1], tags, readings + [|trace| - 1])
    ensures Tagged(a, paths[..i], tags) && a.tags(paths[i]) == Some(found) ==> Tagged(a, paths[..i + 1], tags)
  {
    hide TrackTags.Normalized;
    assert paths[..i + 1] == paths[..i] + [paths[i]];
  }

  lemma ReadingRefuses(before: seq<Moment>, past: seq<Moment>, after: seq<Moment>, paths: seq<Path>, i: nat, tags: TrackTags,
    item: Result<Option<TrackTags>>, source: Path, target: Path)
    requires before <= past < after && i < |paths|
    requires item.Err? ==> after[|after| - 1].actor == Fails(paths[i])
    requires item == Ok(None) ==> after[|after| - 1].actor == Doubts(paths[i])
    requires item.Ok? && item.value.Some? ==>
      Confirming(after[|after| - 1], paths[i], item.value.value) && item.value.value.Normalized() != tags
    ensures Refused(before, after, source, target, paths, tags)
  {
    assert paths[i] in paths;
    RefusedNow(before, past, after, source, target, paths, tags);
  }

  /** All files hold recordings with these normalized tags. */
  ghost predicate Tagged(a: Answers, paths: seq<Path>, tags: TrackTags) {
    forall k :: 0 <= k < |paths| ==> a.tags(paths[k]).Some? && a.tags(paths[k]).value.Normalized() == tags
  }

  /** In a quiet world, exactly when an orphan is moved. */
  ghost predicate MayMove(a: Answers, directory: Directory, s: State, source: Path, target: Path, paths: seq<Path>,
    tags: TrackTags) {
    && !Paired(a.entries, directory, source)
    && Readable(s.files, source).Some? && RowAllows(s.tables, source, tags, Readable(s.files, source).value)
    && Tagged(a, paths, tags) && target !in s.files
  }

  /** The history went on by this one move, other looks aside; the move is claimed for these files and tags. */
  ghost predicate MovedOnce(before: seq<Moment>, after: seq<Moment>, source: Path, target: Path, paths: seq<Path>,
    tags: TrackTags) {
    && before < after && Looks(before, after[..|after| - 1]) && IsMove(after[|after| - 1].actor, source, target, paths, tags)
  }

  predicate IsMove(actor: Actor, source: Path, target: Path, paths: seq<Path>, tags: TrackTags) {
    && actor.Moves? && actor.path == source && actor.target == target && actor.claim.paths == paths && actor.claim.tags == tags
  }

  /** How an attempt to move an orphan went. */
  ghost predicate Attempted(before: seq<Moment>, after: seq<Moment>, source: Path, target: Path, paths: seq<Path>,
    tags: TrackTags, r: Result<bool>) {
    && Shifts(before, after)
    && (r == Ok(true) ==> MovedOnce(before, after, source, target, paths, tags))
    && (r == Ok(false) ==> Refused(before, after, source, target, paths, tags))
    && (r.Err? ==> Stuck(before, after))
  }

  lemma LooksThenAttempted(a: seq<Moment>, b: seq<Moment>, c: seq<Moment>, source: Path, target: Path, paths: seq<Path>,
    tags: TrackTags, r: Result<bool>)
    requires Looks(a, b) && Attempted(b, c, source, target, paths, tags, r)
    ensures Attempted(a, c, source, target, paths, tags, r) && a <= b <= c
  {
    LooksShift(a, b);
    ShiftsOn(a, b, c);
    RefusedBefore(a, b, c, source, target, paths, tags);
    if r == Ok(true) { LooksOn(a, b, c[..|c| - 1]); }
    hide Shifts, Refused, IsMove;
  }

  lemma RefusedAttempt(a: seq<Moment>, b: seq<Moment>, source: Path, target: Path, paths: seq<Path>, tags: TrackTags)
    requires Shifts(a, b) && Refused(a, b, source, target, paths, tags)
    ensures Attempted(a, b, source, target, paths, tags, Ok(false))
  {
  }

  lemma FailedAttempt(a: seq<Moment>, b: seq<Moment>, c: seq<Moment>, source: Path, target: Path, paths: seq<Path>,
    tags: TrackTags)
    requires Looks(a, b) && Ends(b, c, Leaves(Broken))
    ensures Attempted(a, c, source, target, paths, tags, Err)
  {
    EndsIsLooks(b, c, Leaves(Broken));
    LooksShift(a, b);
    LooksShift(b, c);
    ShiftsOn(a, b, c);
    hide Looks, Shifts;
  }

  /** Move one orphan, unless it has audio by now, is unreadable, or is on record for something else. */
  method Relocate(world: World, source: Path, target: Path, paths: seq<Path>, tags: TrackTags) returns (r: Result<bool>)
    requires world.Valid() && IsSidecar(source) && Within(source, world.directory)
    requires target == WithLrc(target) && Within(target, world.directory)
    requires paths != [] && WithLrc(paths[0]) == target && AllWithin(world.directory, paths)
    modifies world`files, world`nextId, world`trace, world`snap, world`entries, world.db`tracks, world.db`sidecars
    ensures world.Valid() && Attempted(old(world.trace), world.trace, source, target, paths, tags, r)
    ensures world.quiet ==> r == Ok(MayMove(world.answers, world.directory, old(world.Now()), source, target, paths, tags))
    ensures world.quiet ==>
      if r == Ok(true) then Carried(old(world.Now()), world.Now(), source, target, User) else world.Now() == old(world.Now())
  {
    hide Ready, Drift, Pauses, Looks, Glances, Ends, SameReaders, OtherReaders, SameLibrary, Holding, AllWithin,
      Unasked, Spares, Silent, TrackTags.Normalized, BlankText, Unknown, IsSidecar, SidecarsOf, Attempted, Carried,
      Paired, Tagged, Shifts, Refused, RowAllows, WithLrc;
    ghost var past := world.trace;
    var paired := world.HasAudio(source);
    if paired.Err? {
      Nothing(past);
      FailedAttempt(past, past, world.trace, source, target, paths, tags);
      return Err;
    }
    AudioRefuses(past, world.trace, source, target, paths, tags, paired.value);
    if paired.value {
      return Ok(false);
    }
    ghost var looked := world.trace;
    ghost var start := world.Now();
    r := RelocateText(world, source, target, paths, tags);
    assert world.quiet ==> start == old(world.Now()) && r.Ok?;
    assert world.quiet ==> (r.value <==> MayMove(world.answers, world.directory, start, source, target, paths, tags));
    LooksThenAttempted(past, looked, world.trace, source, target, paths, tags, r);
  }

  lemma AudioRefuses(before: seq<Moment>, after: seq<Moment>, source: Path, target: Path, paths: seq<Path>, tags: TrackTags,
    paired: bool)
    requires Ends(before, after, Pairs(source, paired))
    ensures Looks(before, after) && after != [] && after[|after| - 1].actor == Pairs(source, paired)
    ensures paired ==> Attempted(before, after, source, target, paths, tags, Ok(false))
  {
    EndsIsLooks(before, after, Pairs(source, paired));
    LooksShift(before, after);
    if paired {
      RefusedNow(before, before, after, source, target, paths, tags);
    }
    hide Looks, Shifts, Refused;
  }

  method RelocateText(world: World, source: Path, target: Path, paths: seq<Path>, tags: TrackTags) returns (r: Result<bool>)
    requires world.Valid() && IsSidecar(source) && Within(source, world.directory)
    requires target == WithLrc(target) && Within(target, world.directory)
    requires paths != [] && WithLrc(paths[0]) == target && AllWithin(world.directory, paths)
    requires world.trace != [] && world.trace[|world.trace| - 1].actor == Pairs(source, false)
    modifies world`files, world`nextId, world`trace, world`snap, world`entries, world.db`tracks, world.db`sidecars
    ensures world.Valid() && Attempted(old(world.trace), world.trace, source, target, paths, tags, r)
    ensures world.quiet ==>
      (r == Ok(true) <==>
        && Readable(old(world.files), source).Some?
        && RowAllows(old(world.Now()).tables, source, tags, Readable(old(world.files), source).value)
        && Tagged(world.answers, paths, tags) && target !in old(world.files))
    ensures world.quiet ==> r.Ok?
    ensures world.quiet ==>
      if r == Ok(true) then Carried(old(world.Now()), world.Now(), source, target, User) else world.Now() == old(world.Now())
  {
    hide Ready, Drift, Pauses, Looks, Peeks, Glances, Ends, SameReaders, OtherReaders, SameLibrary, Holding,
      AllWithin, Unasked, Spares, Silent, TrackTags.Normalized, BlankText, Unknown, IsSidecar, SidecarsOf, Attempted,
      Carried, Tagged, Shifts, Refused, WithLrc, MoveStands, Provenance, History;
    ghost var past := world.trace;
    var lyrics;
    ghost var actor, mark;
    lyrics, actor, mark := world.ReadLyrics(source);
    if lyrics.Err? {
      UnreadableRefuses(past, world.trace, source, target, paths, tags);
      return Ok(false);
    }
    ghost var read, taken := world.Now(), world.trace;
    LastIs(world.directory, world.quiet, world.answers, taken, read, world.Here());
    LookedTo(past, taken, actor);
    var row := world.SidecarRow(WithLrc(source));
    if row.Err? {
      FailedAttempt(past, taken, world.trace, source, target, paths, tags);
      return Err;
    }
    PausesIsLooks(taken, world.trace);
    LooksOn(past, taken, world.trace);
    LooksShift(past, world.trace);
    assert row.value == if WithLrc(source) in world.Now().tables.sidecars
      then Some(world.Now().tables.sidecars[WithLrc(source)]) else None;
    if row.value.Some? && (row.value.value.tags != tags
        || (row.value.value.origin == Generated && row.value.value.lyrics == lyrics.value)) {
      RowRefuses(world.directory, past, taken, world.trace, read, world.Now(), source, target, paths, tags, lyrics.value);
      return Ok(false);
    }
    ghost var claim := Claim(tags, lyrics.value, mark, actor.exact, |past| - 1, |taken| - 1, paths, []);
    ReadStays(taken, world.trace, |taken| - 1, source, lyrics.value, mark, actor.exact);
    ReadyMeans(world.directory, world.quiet, world.answers, world.trace, world.Now(), world.Here());
    MoveMayStand(world.directory, read, world.Now(), source, claim);
    ghost var middle := world.trace;
    r := RelocateNow(world, source, target, paths, tags, claim);
    LooksThenAttempted(past, middle, world.trace, source, target, paths, tags, r);
  }

  lemma LastMoment(before: seq<Moment>, after: seq<Moment>, actor: Actor)
    requires Ends(before, after, actor)
    ensures before < after && after[|after| - 1].actor == actor
  {
  }

  lemma LookedTo(before: seq<Moment>, after: seq<Moment>, actor: Actor)
    requires LooksTo(before, after, actor)
    ensures Looks(before, after) && before < after && after[|after| - 1].actor == actor
  {
    hide Looks;
  }

  lemma ReadStays(before: seq<Moment>, after: seq<Moment>, taken: nat, path: Path, text: string, mark: nat, exact: bool)
    requires ReadAt(before, taken, path, text, mark, exact) && before <= after
    ensures ReadAt(after, taken, path, text, mark, exact) && taken < |after|
  {
  }

  lemma UnreadableRefuses(before: seq<Moment>, after: seq<Moment>, source: Path, target: Path, paths: seq<Path>,
    tags: TrackTags)
    requires LooksTo(before, after, Fails(source))
    ensures Attempted(before, after, source, target, paths, tags, Ok(false))
  {
    LooksShift(before, after);
    RefusedNow(before, before, after, source, target, paths, tags);
    hide Looks, Shifts, Refused;
  }

  lemma RowRefuses(directory: Directory, before: seq<Moment>, taken: seq<Moment>, after: seq<Moment>, read: State, now: State,
    source: Path, target: Path, paths: seq<Path>, tags: TrackTags, lyrics: string)
    requires before < taken <= after && Shifts(before, after)
    requires var last := taken[|taken| - 1].actor; last.Takes? && last.path == source && last.text == lyrics
    requires taken[|taken| - 1].state == read && Drift(directory, read, now) && Within(source, directory)
    requires !RowAllows(now.tables, source, tags, lyrics)
    ensures Attempted(before, after, source, target, paths, tags, Ok(false))
  {
    assert Within(WithLrc(source), directory);
    assert !RowAllows(read.tables, source, tags, lyrics);
    assert Refusal(taken[|taken| - 1], source, target, paths, tags);
    RefusedNow(before, before, taken, source, target, paths, tags);
    RefusedBefore(before, taken, after, source, target, paths, tags);
    hide Shifts, Refused, Drift, Refusal;
  }

  /** Check the group once more, and move the orphan under its name unless something stands there. */
  method RelocateNow(world: World, source: Path, target: Path, paths: seq<Path>, tags: TrackTags, ghost claim: Claim)
    returns (r: Result<bool>)
    requires world.Valid() && IsSidecar(source) && Within(source, world.directory)
    requires target == WithLrc(target) && Within(target, world.directory)
    requires paths != [] && WithLrc(paths[0]) == target && AllWithin(world.directory, paths)
    requires MoveStands(world.Now(), source, claim) && claim.paths == paths && claim.tags == tags
    requires claim.paired < claim.taken < |world.trace| && world.trace[claim.paired].actor == Pairs(source, false)
    requires ReadAt(world.trace, claim.taken, source, claim.lyrics, claim.mark, claim.exact)
    modifies world`files, world`nextId, world`trace, world`snap, world`entries, world.db`tracks, world.db`sidecars
    ensures world.Valid() && Attempted(old(world.trace), world.trace, source, target, paths, tags, r)
    ensures world.quiet && Readable(old(world.files), source).Some? ==>
      r == Ok(Tagged(world.answers, paths, tags) && target !in old(world.files))
    ensures world.quiet ==>
      if r == Ok(true) then Carried(old(world.Now()), world.Now(), source, target, User) else world.Now() == old(world.Now())
  {
    hide Ready, Drift, Pauses, Looks, Ends, SameReaders, OtherReaders, SameLibrary, Holding, AllWithin, Unasked,
      Spares, Silent, Vouched, TrackTags.Normalized, BlankText, Unknown, IsSidecar, SidecarsOf, Attempted, Carried,
      Tagged, Shifts, Refused, WithLrc, MoveStands;
    ghost var before, past := world.Now(), world.trace;
    var same;
    ghost var readings;
    same, readings := StillTagged(world, paths, tags, source, target);
    if !same {
      RefusedAttempt(past, world.trace, source, target, paths, tags);
      return Ok(false);
    }
    ghost var full := claim.(readings := readings);
    ClaimRead(before, source, claim, readings);
    MoveDrifts(world.directory, before, world.Now(), source, full);
    ClaimIsVouched(past, world.trace, source, target, claim, readings);
    ghost var checked := world.trace;
    ghost var moved;
    r, moved := world.MoveSidecar(source, target, full);
    if moved {
      MoveEnds(past, checked, world.trace, source, target, full);
    }
    MoveAttempted(past, checked, world.trace, source, target, full, r, moved);
  }

  lemma ClaimIsVouched(before: seq<Moment>, after: seq<Moment>, source: Path, target: Path, claim: Claim,
    readings: seq<nat>)
    requires Looks(before, after) && ReadSince(after, |before|, claim.paths, claim.tags, readings)
    requires claim.paths != [] && WithLrc(claim.paths[0]) == target
    requires claim.paired < claim.taken < |before| && before[claim.paired].actor == Pairs(source, false)
    requires ReadAt(before, claim.taken, source, claim.lyrics, claim.mark, claim.exact)
    ensures after != [] && Vouched(after, Moves(source, target, claim.(readings := readings)))
  {
    hide TrackTags.Normalized, WithLrc;
  }

  lemma MoveEnds(a: seq<Moment>, b: seq<Moment>, c: seq<Moment>, source: Path, target: Path, claim: Claim)
    requires Looks(a, b) && Ends(b, c, Moves(source, target, claim))
    ensures MovedOnce(a, c, source, target, claim.paths, claim.tags) && Shifts(a, c)
  {
    PausesIsLooks(b, c[..|c| - 1]);
    LooksOn(a, b, c[..|c| - 1]);
    LooksShift(a, b);
    MoveShifts(b, c, source, target, claim);
    ShiftsOn(a, b, c);
    hide Shifts, Looks, Pauses;
  }

  lemma MoveAttempted(a: seq<Moment>, b: seq<Moment>, c: seq<Moment>, source: Path, target: Path, claim: Claim,
    r: Result<bool>, moved: bool)
    requires Looks(a, b) && (r == Ok(true) ==> moved) && (r == Ok(false) ==> !moved)
    requires moved ==> MovedOnce(a, c, source, target, claim.paths, claim.tags) && Shifts(a, c)
    requires !moved ==> Ends(b, c, if r == Ok(false) then Blocks(target) else Leaves(Broken))
    ensures Attempted(a, c, source, target, claim.paths, claim.tags, r)
  {
    LooksShift(a, b);
    if moved {
      assert IsMove(c[|c| - 1].actor, source, target, claim.paths, claim.tags);
      hide Shifts, Looks, Pauses, Refused;
    } else if r == Ok(false) {
      EndsIsLooks(b, c, Blocks(target));
      LooksShift(b, c);
      RefusedNow(a, b, c, source, target, claim.paths, claim.tags);
      ShiftsOn(a, b, c);
      hide Shifts, Looks, Pauses, Refused, MovedOnce;
    } else {
      FailedAttempt(a, b, c, source, target, claim.paths, claim.tags);
      hide Shifts, Looks, Pauses, Refused, MovedOnce;
    }
  }

  // ---------------------------------------------------------------------------
  // The whole pass
  // ---------------------------------------------------------------------------

  ghost function MovedOrphans(moves: seq<Relocation>): set<string> { set k | 0 <= k < |moves| :: moves[k].orphan }

  ghost function MovedStems(moves: seq<Relocation>): set<string> { set k | 0 <= k < |moves| :: moves[k].stem }

  /** No orphan goes to two stems and no stem receives two orphans. */
  ghost predicate Injective(moves: seq<Relocation>) {
    forall i, j :: 0 <= i < j < |moves| ==> moves[i].orphan != moves[j].orphan && moves[i].stem != moves[j].stem
  }

  /** The orphan was the only remaining name for a title that exactly one group holds. */
  ghost predicate Earned(
    audio: map<string, seq<Path>>, lrc: map<string, seq<Path>>, groups: seq<Gathered>, moves: seq<Relocation>, k: nat)
    requires k < |moves|
  {
    && moves[k].orphan in Orphans(audio, lrc) && moves[k].stem in audio && moves[k].stem !in lrc
    && OnlyMatch(Orphans(audio, lrc) - MovedOrphans(moves[..k]), moves[k].tags.title, moves[k].orphan)
    && exists i: nat :: EarnedBy(groups, moves[k], i)
  }

  /** The group at `i` is the move's: all its files have the move's tags, and no other group has their title. */
  ghost predicate EarnedBy(groups: seq<Gathered>, m: Relocation, i: nat) {
    && HeldOnlyBy(groups, m.tags.title, i) && groups[i].stem == m.stem && groups[i].tags != []
    && forall l :: 0 <= l < |groups[i].tags| ==> groups[i].tags[l] == m.tags
  }

  /** The map after the moves. */
  ghost predicate Renamed(audio: map<string, seq<Path>>, lrc: map<string, seq<Path>>, moves: seq<Relocation>,
    after: map<string, seq<Path>>) {
    && after.Keys == lrc.Keys - MovedOrphans(moves) + MovedStems(moves)
    && forall stem :: stem in after ==>
         if stem in MovedStems(moves) then stem in audio && audio[stem] != [] && after[stem] == [WithLrc(audio[stem][0])]
         else stem in lrc && after[stem] == lrc[stem]
  }

  ghost predicate Progress(
    audio: map<string, seq<Path>>, lrc: map<string, seq<Path>>, groups: seq<Gathered>,
    moves: seq<Relocation>, after: map<string, seq<Path>>)
  {
    && Injective(moves) && Renamed(audio, lrc, moves, after)
    && forall k :: 0 <= k < |moves| ==> Earned(audio, lrc, groups, moves, k)
  }

  lemma RemainingOrphans(
    audio: map<string, seq<Path>>, lrc: map<string, seq<Path>>, groups: seq<Gathered>,
    moves: seq<Relocation>, after: map<string, seq<Path>>)
    requires Progress(audio, lrc, groups, moves, after)
    ensures Orphans(audio, after) == Orphans(audio, lrc) - MovedOrphans(moves)
  {
    hide EarnedBy, OnlyMatch;
    forall stem | stem in MovedStems(moves) ensures stem in audio {
      var k :| 0 <= k < |moves| && moves[k].stem == stem;
      assert Earned(audio, lrc, groups, moves, k);
    }
  }

  lemma OneMoreMoved(moves: seq<Relocation>, m: Relocation)
    ensures MovedOrphans(moves + [m]) == MovedOrphans(moves) + {m.orphan}
    ensures MovedStems(moves + [m]) == MovedStems(moves) + {m.stem}
  {
    var more := moves + [m];
    forall k | 0 <= k < |moves| ensures moves[k].orphan in MovedOrphans(more) && moves[k].stem in MovedStems(more) {
      assert more[k] == moves[k];
    }
    assert more[|moves|] == m;
  }

  lemma EarnedStays(
    audio: map<string, seq<Path>>, lrc: map<string, seq<Path>>, groups: seq<Gathered>, moves: seq<Relocation>,
    m: Relocation, k: nat)
    requires k < |moves| && Earned(audio, lrc, groups, moves, k)
    ensures Earned(audio, lrc, groups, moves + [m], k)
  {
    assert (moves + [m])[..k] == moves[..k] && (moves + [m])[k] == moves[k];
    hide EarnedBy, OnlyMatch, MovedOrphans;
  }

  lemma MovedNames(
    audio: map<string, seq<Path>>, lrc: map<string, seq<Path>>, groups: seq<Gathered>,
    moves: seq<Relocation>, after: map<string, seq<Path>>)
    requires Progress(audio, lrc, groups, moves, after)
    ensures forall orphan :: orphan in MovedOrphans(moves) ==> orphan in lrc && orphan !in audio
    ensures forall stem :: stem in MovedStems(moves) ==> stem in audio && stem !in lrc
  {
    hide EarnedBy, OnlyMatch;
    forall orphan | orphan in MovedOrphans(moves) ensures orphan in lrc && orphan !in audio {
      var k :| 0 <= k < |moves| && moves[k].orphan == orphan;
      assert Earned(audio, lrc, groups, moves, k);
    }
    forall stem | stem in MovedStems(moves) ensures stem in audio && stem !in lrc {
      var k :| 0 <= k < |moves| && moves[k].stem == stem;
      assert Earned(audio, lrc, groups, moves, k);
    }
  }

  /** A further move is earned, and renames the map as the others did. */
  lemma MoveGoesOn(
    audio: map<string, seq<Path>>, lrc: map<string, seq<Path>>, groups: seq<Gathered>,
    moves: seq<Relocation>, after: map<string, seq<Path>>, m: Relocation, i: nat)
    requires Progress(audio, lrc, groups, moves, after) && GroupsListed(audio, groups)
    requires EarnedBy(groups, m, i)
    requires m.stem !in after && m.stem in audio && audio[m.stem] != []
    requires OnlyMatch(Orphans(audio, after), m.tags.title, m.orphan)
    ensures Progress(audio, lrc, groups, moves + [m], (after - {m.orphan})[m.stem := [WithLrc(audio[m.stem][0])]])
  {
    RemainingOrphans(audio, lrc, groups, moves, after);
    MovedNames(audio, lrc, groups, moves, after);
    NewlyEarned(audio, lrc, groups, moves, after, m, i);
    forall k | 0 <= k < |moves| ensures Earned(audio, lrc, groups, moves + [m], k) {
      EarnedStays(audio, lrc, groups, moves, m, k);
    }
    hide Earned, OnlyMatch, EarnedBy;
    RenamedGoesOn(audio, lrc, moves, after, m);
    forall k | 0 <= k < |moves| ensures moves[k].orphan != m.orphan && moves[k].stem != m.stem {
      assert moves[k].orphan in MovedOrphans(moves) && moves[k].stem in MovedStems(moves);
    }
    hide Renamed, MovedOrphans, MovedStems, Orphans;
  }

  lemma NewlyEarned(
    audio: map<string, seq<Path>>, lrc: map<string, seq<Path>>, groups: seq<Gathered>,
    moves: seq<Relocation>, after: map<string, seq<Path>>, m: Relocation, i: nat)
    requires Progress(audio, lrc, groups, moves, after) && EarnedBy(groups, m, i)
    requires m.stem !in after && m.stem in audio && OnlyMatch(Orphans(audio, after), m.tags.title, m.orphan)
    ensures Earned(audio, lrc, groups, moves + [m], |moves|) && m.orphan in Orphans(audio, after)
  {
    RemainingOrphans(audio, lrc, groups, moves, after);
    MovedNames(audio, lrc, groups, moves, after);
    hide EarnedBy, StandsFor, MovedOrphans, MovedStems, WithLrc;
    assert (moves + [m])[..|moves|] == moves;
  }

  lemma RenamedGoesOn(
    audio: map<string, seq<Path>>, lrc: map<string, seq<Path>>, moves: seq<Relocation>,
    after: map<string, seq<Path>>, m: Relocation)
    requires Renamed(audio, lrc, moves, after) && m.stem in audio && audio[m.stem] != [] && m.orphan != m.stem
    requires m.orphan in lrc && m.orphan !in MovedStems(moves)
    ensures Renamed(audio, lrc, moves + [m], (after - {m.orphan})[m.stem := [WithLrc(audio[m.stem][0])]])
  {
    OneMoreMoved(moves, m);
    hide MovedOrphans, MovedStems;
  }

  /** The history since `before` shows the move, claimed for these files and tags. */
  ghost predicate Shown(before: seq<Moment>, after: seq<Moment>, source: Path, target: Path, paths: seq<Path>,
    tags: TrackTags) {
    exists t :: |before| <= t < |after| && IsMove(after[t].actor, source, target, paths, tags)
  }

  lemma ShownLasts(before: seq<Moment>, middle: seq<Moment>, after: seq<Moment>, source: Path, target: Path,
    paths: seq<Path>, tags: TrackTags)
    requires middle <= after
    ensures Shown(before, middle, source, target, paths, tags) ==> Shown(before, after, source, target, paths, tags)
    ensures before <= middle && MovedOnce(middle, after, source, target, paths, tags) ==>
      Shown(before, after, source, target, paths, tags)
  {
    hide IsMove;
    if Shown(before, middle, source, target, paths, tags) {
      var t :| |before| <= t < |middle| && IsMove(middle[t].actor, source, target, paths, tags);
      assert IsMove(after[t].actor, source, target, paths, tags);
    }
    if before <= middle && MovedOnce(middle, after, source, target, paths, tags) {
      assert IsMove(after[|after| - 1].actor, source, target, paths, tags);
    }
  }

  /** What the reconciliation of one listing did. */
  ghost predicate Reconciled(
    audio: map<string, seq<Path>>, lrc: map<string, seq<Path>>, groups: seq<Gathered>, moves: seq<Relocation>,
    after: map<string, seq<Path>>, before: seq<Moment>, trace: seq<Moment>)
  {
    && Progress(audio, lrc, groups, moves, after)
    && forall k :: 0 <= k < |moves| ==>
         && moves[k].orphan in lrc && |lrc[moves[k].orphan]| == 1 && moves[k].stem in audio && audio[moves[k].stem] != []
         && Shown(before, trace, lrc[moves[k].orphan][0], WithLrc(audio[moves[k].stem][0]), audio[moves[k].stem], moves[k].tags)
  }

  lemma MoveKeepsStep(
    directory: Directory, s: State, t: State, lrc: map<string, seq<Path>>, orphan: string, stem: string,
    source: Path, target: Path)
    requires InStep(directory, s.files, lrc) && SidecarsListed(directory, lrc) && Carried(s, t, source, target, User)
    requires orphan in lrc && lrc[orphan] == [source] && stem !in lrc
    requires SidecarNamed(directory, target, stem)
    ensures InStep(directory, t.files, (lrc - {orphan})[stem := [target]])
    ensures SidecarsListed(directory, (lrc - {orphan})[stem := [target]])
  {
    var after := (lrc - {orphan})[stem := [target]];
    assert SidecarNamed(directory, source, orphan) by { assert lrc[orphan][0] == source; }
    forall path | IsSidecar(path) && Within(path, directory)
      ensures path in t.files <==> path.stem in after && path in after[path.stem]
    {
      assert path in lrc[orphan] <==> path == source;
    }
  }

  /** The orphan that a group may claim: the only one for a title that no other group holds. */
  ghost predicate Chosen(audio: map<string, seq<Path>>, lrc: map<string, seq<Path>>, groups: seq<Gathered>, i: nat,
    orphan: string)
    requires i < |groups| && groups[i].tags != []
  {
    && groups[i].stem !in lrc
    && (forall k :: 0 <= k < |groups[i].tags| ==> groups[i].tags[k] == groups[i].tags[0])
    && HeldOnlyBy(groups, groups[i].tags[0].title, i)
    && OnlyMatch(Orphans(audio, lrc), groups[i].tags[0].title, orphan)
  }

  method Candidate(audio: map<string, seq<Path>>, lrc: map<string, seq<Path>>, groups: seq<Gathered>, i: nat)
    returns (orphan: Option<string>)
    requires i < |groups| && groups[i].tags != []
    ensures orphan.Some? ==> Chosen(audio, lrc, groups, i, orphan.value)
    ensures orphan.None? ==> forall name :: !Chosen(audio, lrc, groups, i, name)
  {
    hide TitleKey, OnlyMatch;
    var tags := groups[i].tags;
    if groups[i].stem in lrc || exists k :: 0 <= k < |tags| && tags[k] != tags[0] {
      return None;
    }
    var title := tags[0].title;
    var holders := set j | 0 <= j < |groups| && Shares(groups[j], title);
    assert Shares(groups[i], title) by { assert TitleKey(groups[i].tags[0].title) == TitleKey(title); }
    hide Shares;
    HoldersAre(groups, holders, title, i);
    if |holders| != 1 {
      return None;
    }
    OneHolder(holders, i);
    forall j | 0 <= j < |groups| ensures Shares(groups[j], title) <==> j == i {
      assert j in holders <==> Shares(groups[j], title);
    }
    orphan := UniqueOrphanMatch(title, lrc.Keys - audio.Keys);
  }

  lemma HoldersAre(groups: seq<Gathered>, holders: set<int>, title: string, i: nat)
    requires forall j :: j in holders <==> 0 <= j < |groups| && Shares(groups[j], title)
    ensures HeldOnlyBy(groups, title, i) ==> holders == {i} && |holders| == 1
  {
    hide Shares;
    if HeldOnlyBy(groups, title, i) {
      forall j ensures j in holders <==> j == i {
        assert 0 <= j < |groups| ==> (Shares(groups[j], title) <==> j == i);
      }
      assert holders == {i as int};
    }
  }

  lemma OneHolder(holders: set<int>, i: int)
    requires |holders| == 1 && i in holders
    ensures holders == {i}
  {
    assert |holders - {i}| == 0;
  }

  /** The claim of the group at `i` goes through. */
  ghost predicate Claims(
    a: Answers, directory: Directory, s: State, audio: map<string, seq<Path>>, lrc: map<string, seq<Path>>,
    groups: seq<Gathered>, i: nat, orphan: string)
    requires i < |groups| && groups[i].tags != []
  {
    && Chosen(audio, lrc, groups, i, orphan)
    && orphan in lrc && |lrc[orphan]| == 1 && groups[i].stem in audio && audio[groups[i].stem] != []
    && MayMove(a, directory, s, lrc[orphan][0], WithLrc(audio[groups[i].stem][0]), audio[groups[i].stem], groups[i].tags[0])
  }

  /** The turn of one group in a quiet world. */
  ghost predicate QuietTurn(
    a: Answers, directory: Directory, s: State, audio: map<string, seq<Path>>, lrc: map<string, seq<Path>>,
    groups: seq<Gathered>, i: nat, t: State, after: map<string, seq<Path>>)
    requires i < |groups| && groups[i].tags != []
  {
    if exists orphan :: Claims(a, directory, s, audio, lrc, groups, i, orphan) then
      exists orphan ::
        Claims(a, directory, s, audio, lrc, groups, i, orphan)
        && Carried(s, t, lrc[orphan][0], WithLrc(audio[groups[i].stem][0]), User)
        && after == (lrc - {orphan})[groups[i].stem := [WithLrc(audio[groups[i].stem][0])]]
    else t == s && after == lrc
  }

  /** The first `n` turns. */
  ghost predicate QuietTurns(
    a: Answers, directory: Directory, s: State, audio: map<string, seq<Path>>, lrc: map<string, seq<Path>>,
    groups: seq<Gathered>, n: nat, t: State, after: map<string, seq<Path>>)
    requires n <= |groups| && GroupsListed(audio, groups)
    decreases n, 1
  {
    if n == 0 then t == s && after == lrc
    else exists u, middle :: LastTurn(a, directory, s, audio, lrc, groups, n, u, middle, t, after)
  }

  ghost predicate LastTurn(
    a: Answers, directory: Directory, s: State, audio: map<string, seq<Path>>, lrc: map<string, seq<Path>>,
    groups: seq<Gathered>, n: nat, u: State, middle: map<string, seq<Path>>, t: State, after: map<string, seq<Path>>)
    requires 0 < n <= |groups| && GroupsListed(audio, groups)
    decreases n, 0
  {
    QuietTurns(a, directory, s, audio, lrc, groups, n - 1, u, middle)
    && QuietTurn(a, directory, u, audio, middle, groups, n - 1, t, after)
  }

  /** The turn of one group moved this orphan, or left everything for a reason that the history shows. */
  ghost predicate Turned(audio: map<string, seq<Path>>, lrc: map<string, seq<Path>>, groups: seq<Gathered>, i: nat,
    before: seq<Moment>, after: seq<Moment>, moved: Option<string>)
    requires i < |groups| && groups[i].tags != [] && groups[i].stem in audio && audio[groups[i].stem] != []
  {
    var paths, tags := audio[groups[i].stem], groups[i].tags[0];
    if moved.Some? then
      && Chosen(audio, lrc, groups, i, moved.value) && moved.value in lrc && |lrc[moved.value]| == 1
      && MovedOnce(before, after, lrc[moved.value][0], WithLrc(paths[0]), paths, tags)
    else
      forall orphan :: Chosen(audio, lrc, groups, i, orphan) && orphan in lrc && |lrc[orphan]| == 1 ==>
        Refused(before, after, lrc[orphan][0], WithLrc(paths[0]), paths, tags)
  }

  /** The map after a turn. */
  function AfterTurn(audio: map<string, seq<Path>>, lrc: map<string, seq<Path>>, stem: string, moved: Option<string>):
    map<string, seq<Path>>
    requires stem in audio && audio[stem] != []
  {
    if moved.None? then lrc else (lrc - {moved.value})[stem := [WithLrc(audio[stem][0])]]
  }

  lemma TurnTells(audio: map<string, seq<Path>>, lrc: map<string, seq<Path>>, stem: string, moved: Option<string>)
    requires stem in audio && audio[stem] != []
    ensures moved.None? ==> AfterTurn(audio, lrc, stem, moved) == lrc
    ensures moved.Some? ==> AfterTurn(audio, lrc, stem, moved) == (lrc - {moved.value})[stem := [WithLrc(audio[stem][0])]]
  {
    hide WithLrc;
  }

  /** The first `n` groups had their turns, one after the other, and the map went along. */
  ghost predicate TurnsTaken(audio: map<string, seq<Path>>, lrc: map<string, seq<Path>>, groups: seq<Gathered>, n: nat,
    before: seq<Moment>, after: seq<Moment>, t: map<string, seq<Path>>)
    requires n <= |groups| && Listed(audio, groups)
    decreases n, 1
  {
    if n == 0 then after == before && t == lrc
    else exists middle, u, moved :: LastTaken(audio, lrc, groups, n, before, middle, u, moved, after, t)
  }

  ghost predicate LastTaken(audio: map<string, seq<Path>>, lrc: map<string, seq<Path>>, groups: seq<Gathered>, n: nat,
    before: seq<Moment>, middle: seq<Moment>, u: map<string, seq<Path>>, moved: Option<string>, after: seq<Moment>,
    t: map<string, seq<Path>>)
    requires 0 < n <= |groups| && Listed(audio, groups)
    decreases n, 0
  {
    && TurnsTaken(audio, lrc, groups, n - 1, before, middle, u)
    && Turned(audio, u, groups, n - 1, middle, after, moved) && t == AfterTurn(audio, u, groups[n - 1].stem, moved)
  }

  /** Each group is listed with its files. */
  ghost predicate Listed(audio: map<string, seq<Path>>, groups: seq<Gathered>) {
    forall i :: 0 <= i < |groups| ==> groups[i].tags != [] && groups[i].stem in audio && audio[groups[i].stem] != []
  }

  lemma AllListed(directory: Directory, audio: map<string, seq<Path>>, groups: seq<Gathered>)
    requires AudioListed(directory, audio) && GroupsListed(audio, groups)
    ensures Listed(audio, groups)
  {
  }

  lemma NoTurns(audio: map<string, seq<Path>>, lrc: map<string, seq<Path>>, groups: seq<Gathered>, trace: seq<Moment>)
    requires Listed(audio, groups)
    ensures TurnsTaken(audio, lrc, groups, 0, trace, trace, lrc)
  {
  }

  lemma OneMoreTurn(audio: map<string, seq<Path>>, lrc: map<string, seq<Path>>, groups: seq<Gathered>, i: nat,
    before: seq<Moment>, middle: seq<Moment>, u: map<string, seq<Path>>, moved: Option<string>, after: seq<Moment>)
    requires i < |groups| && Listed(audio, groups) && TurnsTaken(audio, lrc, groups, i, before, middle, u)
    requires groups[i].tags != [] && groups[i].stem in audio && audio[groups[i].stem] != []
    requires Turned(audio, u, groups, i, middle, after, moved)
    ensures TurnsTaken(audio, lrc, groups, i + 1, before, after, AfterTurn(audio, u, groups[i].stem, moved))
  {
    hide Turned, AfterTurn;
    assert LastTaken(audio, lrc, groups, i + 1, before, middle, u, moved, after, AfterTurn(audio, u, groups[i].stem, moved));
  }

  /** One group's turn: it moves its candidate, if it has one and nothing speaks against it. */
  method Turn(world: World, audio: map<string, seq<Path>>, lrc: map<string, seq<Path>>, groups: seq<Gathered>, i: nat)
    returns (r: Result<Option<string>>)
    requires world.Valid() && AudioListed(world.directory, audio) && SidecarsListed(world.directory, lrc)
    requires GroupsListed(audio, groups) && i < |groups|
    modifies world`files, world`nextId, world`trace, world`snap, world`entries, world.db`tracks, world.db`sidecars
    ensures world.Valid() && Shifts(old(world.trace), world.trace)
    ensures groups[i].tags != [] && groups[i].stem in audio && audio[groups[i].stem] != []
    ensures r.Ok? ==> Turned(audio, lrc, groups, i, old(world.trace), world.trace, r.value)
    ensures world.quiet && r.Ok? && r.value.Some? ==>
      && Claims(world.answers, world.directory, old(world.Now()), audio, lrc, groups, i, r.value.value)
      && Carried(old(world.Now()), world.Now(), lrc[r.value.value][0], WithLrc(audio[groups[i].stem][0]), User)
    ensures r.Err? ==> Stuck(old(world.trace), world.trace)
    ensures world.quiet ==> r.Ok?
    ensures world.quiet && r == Ok(None) ==>
      world.Now() == old(world.Now())
      && forall orphan :: !Claims(world.answers, world.directory, old(world.Now()), audio, lrc, groups, i, orphan)
  {
    hide Ready, Group, Carried, SidecarsListed, AudioListed, HeldOnlyBy, MayMove, MovedOnce, Drift, Shifts, Refused,
      AllWithin, WithLrc, SidecarNamed, Orphans, OnlyMatch;
    NothingShifts(world.trace);
    GroupIsListed(world.directory, audio, groups, i);
    var orphan := Candidate(audio, lrc, groups, i);
    if orphan.None? {
      return Ok(None);
    }
    CandidateIsListed(world.directory, audio, lrc, groups, i, orphan.value);
    OnlyChosen(audio, lrc, groups, i, orphan.value);
    hide Chosen;
    var paths, sources := audio[groups[i].stem], lrc[orphan.value];
    if |sources| != 1 {
      return Ok(None);
    }
    ghost var past := world.trace;
    var moved := Relocate(world, sources[0], WithLrc(paths[0]), paths, groups[i].tags[0]);
    if moved.Err? {
      return Err;
    }
    return Ok(if moved.value then orphan else None);
  }

  lemma GroupIsListed(directory: Directory, audio: map<string, seq<Path>>, groups: seq<Gathered>, i: nat)
    requires AudioListed(directory, audio) && GroupsListed(audio, groups) && i < |groups|
    ensures groups[i].tags != [] && groups[i].stem in audio && audio[groups[i].stem] != []
    ensures AllWithin(directory, audio[groups[i].stem])
  {
    assert groups[i].stem in audio;
  }

  lemma OnlyChosen(audio: map<string, seq<Path>>, lrc: map<string, seq<Path>>, groups: seq<Gathered>, i: nat,
    orphan: string)
    requires i < |groups| && groups[i].tags != [] && Chosen(audio, lrc, groups, i, orphan)
    ensures forall other :: Chosen(audio, lrc, groups, i, other) ==> other == orphan
  {
    hide StandsFor, HeldOnlyBy, Orphans;
    forall other | Chosen(audio, lrc, groups, i, other) ensures other == orphan {
      assert OnlyMatch(Orphans(audio, lrc), groups[i].tags[0].title, orphan);
      assert other in Orphans(audio, lrc) && StandsFor(other, groups[i].tags[0].title);
    }
  }

  /** Between two turns. */
  ghost predicate Reconciling(
    directory: Directory, quiet: bool, a: Answers, start: State, now: State, audio: map<string, seq<Path>>,
    lrc: map<string, seq<Path>>, groups: seq<Gathered>, i: nat, moves: seq<Relocation>, after: map<string, seq<Path>>,
    before: seq<Moment>, trace: seq<Moment>)
  {
    && i <= |groups| && GroupsListed(audio, groups)
    && Shifts(before, trace) && SidecarsListed(directory, after)
    && Reconciled(audio, lrc, groups, moves, after, before, trace)
    && (quiet && InStep(directory, start.files, lrc) ==> InStep(directory, now.files, after))
    && (quiet ==> QuietTurns(a, directory, start, audio, lrc, groups, i, now, after))
  }

  lemma ReconcilingStarts(
    directory: Directory, quiet: bool, a: Answers, start: State, now: State, audio: map<string, seq<Path>>,
    lrc: map<string, seq<Path>>, groups: seq<Gathered>, before: seq<Moment>, trace: seq<Moment>)
    requires GroupsListed(audio, groups) && Shifts(before, trace) && SidecarsListed(directory, lrc) && (quiet ==> now == start)
    ensures Reconciling(directory, quiet, a, start, now, audio, lrc, groups, 0, [], lrc, before, trace)
  {
    NothingMoved(audio, lrc, groups, before, trace);
    hide GroupsListed, SidecarsListed, Reconciled, InStep, Shifts;
  }

  /** A turn without a move. */
  lemma ReconcilingStays(
    directory: Directory, quiet: bool, a: Answers, start: State, now: State, audio: map<string, seq<Path>>,
    lrc: map<string, seq<Path>>, groups: seq<Gathered>, i: nat, moves: seq<Relocation>, after: map<string, seq<Path>>,
    before: seq<Moment>, middle: seq<Moment>, trace: seq<Moment>, next: State)
    requires Reconciling(directory, quiet, a, start, now, audio, lrc, groups, i, moves, after, before, middle) && i < |groups|
    requires Shifts(middle, trace)
    requires quiet ==> next == now && forall orphan :: !Claims(a, directory, now, audio, after, groups, i, orphan)
    ensures Reconciling(directory, quiet, a, start, next, audio, lrc, groups, i + 1, moves, after, before, trace)
  {
    ShiftsOn(before, middle, trace);
    TraceGoesOn(audio, lrc, groups, moves, after, before, middle, trace);
    hide Reconciled, InStep, SidecarsListed, Claims;
    if quiet {
      assert QuietTurn(a, directory, now, audio, after, groups, i, next, after);
      assert LastTurn(a, directory, start, audio, lrc, groups, i + 1, now, after, next, after);
    }
  }

  /** The quiet side of a move. */
  lemma QuietMove(
    directory: Directory, a: Answers, start: State, now: State, audio: map<string, seq<Path>>,
    lrc: map<string, seq<Path>>, groups: seq<Gathered>, i: nat, after: map<string, seq<Path>>, next: State,
    orphan: string)
    requires i < |groups| && GroupsListed(audio, groups) && SidecarsListed(directory, after)
    requires QuietTurns(a, directory, start, audio, lrc, groups, i, now, after)
    requires Claims(a, directory, now, audio, after, groups, i, orphan)
    requires Carried(now, next, after[orphan][0], WithLrc(audio[groups[i].stem][0]), User)
    requires SidecarNamed(directory, WithLrc(audio[groups[i].stem][0]), groups[i].stem) && groups[i].stem !in after
    ensures var more := (after - {orphan})[groups[i].stem := [WithLrc(audio[groups[i].stem][0])]];
      && QuietTurns(a, directory, start, audio, lrc, groups, i + 1, next, more)
      && (InStep(directory, now.files, after) ==> InStep(directory, next.files, more))
  {
    var target := WithLrc(audio[groups[i].stem][0]);
    var more := (after - {orphan})[groups[i].stem := [target]];
    hide InStep, SidecarsListed, Carried, MayMove, Chosen;
    assert after[orphan] == [after[orphan][0]];
    if InStep(directory, now.files, after) {
      MoveKeepsStep(directory, now, next, after, orphan, groups[i].stem, after[orphan][0], target);
    }
    assert QuietTurn(a, directory, now, audio, after, groups, i, next, more);
    assert LastTurn(a, directory, start, audio, lrc, groups, i + 1, now, after, next, more);
  }

  /** A turn with a move. */
  lemma ReconcilingMoves(
    directory: Directory, quiet: bool, a: Answers, start: State, now: State, audio: map<string, seq<Path>>,
    lrc: map<string, seq<Path>>, groups: seq<Gathered>, i: nat, moves: seq<Relocation>, after: map<string, seq<Path>>,
    before: seq<Moment>, middle: seq<Moment>, trace: seq<Moment>, next: State, orphan: string)
    requires Reconciling(directory, quiet, a, start, now, audio, lrc, groups, i, moves, after, before, middle) && i < |groups|
    requires AudioListed(directory, audio) && Shifts(middle, trace)
    requires groups[i].tags != [] && groups[i].stem in audio && audio[groups[i].stem] != []
    requires Turned(audio, after, groups, i, middle, trace, Some(orphan))
    requires quiet ==>
      && Claims(a, directory, now, audio, after, groups, i, orphan)
      && Carried(now, next, after[orphan][0], WithLrc(audio[groups[i].stem][0]), User)
    ensures Reconciling(directory, quiet, a, start, next, audio, lrc, groups, i + 1,
      moves + [Relocation(orphan, groups[i].stem, groups[i].tags[0])],
      (after - {orphan})[groups[i].stem := [WithLrc(audio[groups[i].stem][0])]], before, trace)
  {
    var m, target := Relocation(orphan, groups[i].stem, groups[i].tags[0]), WithLrc(audio[groups[i].stem][0]);
    var more := (after - {orphan})[m.stem := [target]];
    ShiftsOn(before, middle, trace);
    TraceGoesOn(audio, lrc, groups, moves, after, before, middle, trace);
    CandidateIsListed(directory, audio, after, groups, i, orphan);
    OnlyCandidate(audio, after, groups, i, orphan);
    hide *;
    MoveIsListed(directory, after, orphan, m.stem, target);
    MoveIsReconciled(audio, lrc, groups, moves, after, before, middle, trace, m, i);
    if quiet {
      QuietMove(directory, a, start, now, audio, lrc, groups, i, after, next, orphan);
    }
    ReconcilingIs(directory, quiet, a, start, next, audio, lrc, groups, i + 1, moves + [m], more, before, trace);
  }

  lemma OnlyCandidate(audio: map<string, seq<Path>>, lrc: map<string, seq<Path>>, groups: seq<Gathered>, i: nat,
    orphan: string)
    requires i < |groups| && groups[i].tags != [] && Chosen(audio, lrc, groups, i, orphan)
    ensures groups[i].stem !in lrc && EarnedBy(groups, Relocation(orphan, groups[i].stem, groups[i].tags[0]), i)
    ensures OnlyMatch(Orphans(audio, lrc), groups[i].tags[0].title, orphan)
  {
  }

  lemma ReconcilingIs(
    directory: Directory, quiet: bool, a: Answers, start: State, now: State, audio: map<string, seq<Path>>,
    lrc: map<string, seq<Path>>, groups: seq<Gathered>, i: nat, moves: seq<Relocation>, after: map<string, seq<Path>>,
    before: seq<Moment>, trace: seq<Moment>)
    requires i <= |groups| && GroupsListed(audio, groups) && Shifts(before, trace) && SidecarsListed(directory, after)
    requires Reconciled(audio, lrc, groups, moves, after, before, trace)
    requires quiet && InStep(directory, start.files, lrc) ==> InStep(directory, now.files, after)
    requires quiet ==> QuietTurns(a, directory, start, audio, lrc, groups, i, now, after)
    ensures Reconciling(directory, quiet, a, start, now, audio, lrc, groups, i, moves, after, before, trace)
  {
  }

  lemma ReconcilingEnds(
    directory: Directory, quiet: bool, a: Answers, start: State, now: State, audio: map<string, seq<Path>>,
    lrc: map<string, seq<Path>>, groups: seq<Gathered>, i: nat, moves: seq<Relocation>, after: map<string, seq<Path>>,
    before: seq<Moment>, trace: seq<Moment>)
    requires Reconciling(directory, quiet, a, start, now, audio, lrc, groups, i, moves, after, before, trace)
    ensures i <= |groups| && GroupsListed(audio, groups) && Shifts(before, trace) && SidecarsListed(directory, after)
    ensures Reconciled(audio, lrc, groups, moves, after, before, trace)
    ensures quiet && InStep(directory, start.files, lrc) ==> InStep(directory, now.files, after)
    ensures quiet ==> QuietTurns(a, directory, start, audio, lrc, groups, i, now, after)
  {
  }

  lemma Unfinished(
    audio: map<string, seq<Path>>, lrc: map<string, seq<Path>>, groups: seq<Gathered>, moves: seq<Relocation>,
    after: map<string, seq<Path>>, before: seq<Moment>, middle: seq<Moment>, trace: seq<Moment>)
    requires Reconciled(audio, lrc, groups, moves, after, before, middle) && Shifts(before, middle) && Shifts(middle, trace)
    ensures Reconciled(audio, lrc, groups, moves, after, before, trace) && Shifts(before, trace)
  {
    ShiftsOn(before, middle, trace);
    TraceGoesOn(audio, lrc, groups, moves, after, before, middle, trace);
  }

  method Reconcile(world: World, audio: map<string, seq<Path>>, lrc: map<string, seq<Path>>)
    returns (r: Result<()>, after: map<string, seq<Path>>, ghost groups: seq<Gathered>, ghost moves: seq<Relocation>,
      ghost gathered: seq<Moment>)
    requires world.Valid() && AudioListed(world.directory, audio) && SidecarsListed(world.directory, lrc)
    modifies world`files, world`nextId, world`trace, world`snap, world`entries, world.db`tracks, world.db`sidecars
    ensures world.Valid() && Shifts(old(world.trace), world.trace)
    ensures GroupsListed(audio, groups) && SidecarsListed(world.directory, after)
    ensures Reconciled(audio, lrc, groups, moves, after, old(world.trace), world.trace)
    ensures old(world.trace) <= gathered <= world.trace && Listed(audio, groups)
    ensures GatheredFrom(audio, groups, audio.Keys, |old(world.trace)|, gathered)
    ensures if r.Ok? then TurnsTaken(audio, lrc, groups, |groups|, gathered, world.trace, after)
      else Stuck(old(world.trace), world.trace)
    ensures world.quiet && InStep(world.directory, old(world.Now()).files, lrc) ==> InStep(world.directory, world.Now().files, after)
    ensures world.quiet ==>
      && r.Ok? && GroupsExact(world.answers, audio, groups, audio.Keys)
      && QuietTurns(world.answers, world.directory, old(world.Now()), audio, lrc, groups, |groups|, world.Now(), after)
  {
    hide *;
    ghost var start, before := world.Now(), world.trace;
    after, moves := lrc, [];
    var found := Gather(world, audio);
    groups, gathered := found, world.trace;
    ShiftsGrow(before, gathered);
    AllListed(world.directory, audio, groups);
    NoTurns(audio, lrc, groups, gathered);
    ReconcilingStarts(world.directory, world.quiet, world.answers, start, world.Now(), audio, lrc, groups, before,
      world.trace);
    for i := 0 to |found|
      invariant world.Valid() && gathered <= world.trace && TurnsTaken(audio, lrc, groups, i, gathered, world.trace, after)
      invariant Reconciling(world.directory, world.quiet, world.answers, start, world.Now(), audio, lrc, groups, i, moves, after,
        before, world.trace)
    {
      ReconcilingEnds(world.directory, world.quiet, world.answers, start, world.Now(), audio, lrc, groups, i, moves, after,
        before, world.trace);
      ghost var now, middle := world.Now(), world.trace;
      var turn := Turn(world, audio, after, found, i);
      ShiftsGrow(middle, world.trace);
      if turn.Err? {
        Unfinished(audio, lrc, groups, moves, after, before, middle, world.trace);
        ShiftsGrow(before, middle);
        StuckOn(before, middle, world.trace);
        return Err, after, groups, moves, gathered;
      }
      OneMoreTurn(audio, lrc, groups, i, gathered, middle, after, turn.value, world.trace);
      TurnTells(audio, after, found[i].stem, turn.value);
      if turn.value.None? {
        ReconcilingStays(world.directory, world.quiet, world.answers, start, now, audio, lrc, groups, i, moves, after,
          before, middle, world.trace, world.Now());
      } else {
        var orphan, stem := turn.value.value, found[i].stem;
        ReconcilingMoves(world.directory, world.quiet, world.answers, start, now, audio, lrc, groups, i, moves, after,
          before, middle, world.trace, world.Now(), orphan);
        TagsOf(audio, found, i);
        moves := moves + [Relocation(orphan, stem, found[i].tags[0])];
        after := (after - {orphan})[stem := [WithLrc(audio[stem][0])]];
      }
    }
    ReconcilingEnds(world.directory, world.quiet, world.answers, start, world.Now(), audio, lrc, groups, |groups|, moves, after,
      before, world.trace);
    return Ok(()), after, groups, moves, gathered;
  }

  lemma ShiftsGrow(before: seq<Moment>, after: seq<Moment>)
    requires Shifts(before, after)
    ensures before <= after
  {
  }

  lemma TagsOf(audio: map<string, seq<Path>>, groups: seq<Gathered>, i: nat)
    requires GroupsListed(audio, groups) && i < |groups|
    ensures groups[i].tags != []
  {
  }

  lemma NothingMoved(
    audio: map<string, seq<Path>>, lrc: map<string, seq<Path>>, groups: seq<Gathered>, before: seq<Moment>,
    trace: seq<Moment>)
    ensures Reconciled(audio, lrc, groups, [], lrc, before, trace)
  {
    assert MovedOrphans([]) == {} && MovedStems([]) == {};
  }

  lemma CandidateIsListed(
    directory: Directory, audio: map<string, seq<Path>>, lrc: map<string, seq<Path>>, groups: seq<Gathered>, i: nat,
    orphan: string)
    requires AudioListed(directory, audio) && SidecarsListed(directory, lrc) && GroupsListed(audio, groups) && i < |groups|
    requires Chosen(audio, lrc, groups, i, orphan)
    ensures groups[i].stem in audio && audio[groups[i].stem] != [] && orphan in lrc && lrc[orphan] != []
    ensures SidecarNamed(directory, lrc[orphan][0], orphan)
    ensures SidecarNamed(directory, WithLrc(audio[groups[i].stem][0]), groups[i].stem)
    ensures WithLrc(WithLrc(audio[groups[i].stem][0])) == WithLrc(audio[groups[i].stem][0])
  {
    assert groups[i].stem in audio;
  }

  lemma TraceGoesOn(
    audio: map<string, seq<Path>>, lrc: map<string, seq<Path>>, groups: seq<Gathered>, moves: seq<Relocation>,
    after: map<string, seq<Path>>, before: seq<Moment>, middle: seq<Moment>, trace: seq<Moment>)
    requires Reconciled(audio, lrc, groups, moves, after, before, middle) && middle <= trace
    ensures Reconciled(audio, lrc, groups, moves, after, before, trace)
  {
    hide Progress, Shown;
    forall k | 0 <= k < |moves|
      ensures Shown(before, trace, lrc[moves[k].orphan][0], WithLrc(audio[moves[k].stem][0]), audio[moves[k].stem], moves[k].tags)
    {
      ShownLasts(before, middle, trace, lrc[moves[k].orphan][0], WithLrc(audio[moves[k].stem][0]), audio[moves[k].stem], moves[k].tags);
    }
  }

  lemma MoveIsListed(directory: Directory, lrc: map<string, seq<Path>>, orphan: string, stem: string, target: Path)
    requires SidecarsListed(directory, lrc) && SidecarNamed(directory, target, stem)
    ensures SidecarsListed(directory, (lrc - {orphan})[stem := [target]])
  {
  }

  lemma MoveIsReconciled(
    audio: map<string, seq<Path>>, lrc: map<string, seq<Path>>, groups: seq<Gathered>, moves: seq<Relocation>,
    after: map<string, seq<Path>>, before: seq<Moment>, middle: seq<Moment>, trace: seq<Moment>, m: Relocation, i: nat)
    requires Reconciled(audio, lrc, groups, moves, after, before, trace) && GroupsListed(audio, groups)
    requires EarnedBy(groups, m, i)
    requires m.stem !in after && m.stem in audio && audio[m.stem] != []
    requires OnlyMatch(Orphans(audio, after), m.tags.title, m.orphan) && m.orphan in after && |after[m.orphan]| == 1
    requires before <= middle && MovedOnce(middle, trace, after[m.orphan][0], WithLrc(audio[m.stem][0]), audio[m.stem], m.tags)
    ensures Reconciled(audio, lrc, groups, moves + [m], (after - {m.orphan})[m.stem := [WithLrc(audio[m.stem][0])]], before, trace)
  {
    hide Progress, Shown, EarnedBy, Orphans, StandsFor, GroupsListed;
    MoveGoesOn(audio, lrc, groups, moves, after, m, i);
    ShownLasts(before, middle, trace, after[m.orphan][0], WithLrc(audio[m.stem][0]), audio[m.stem], m.tags);
    OrphanIsOriginal(audio, lrc, groups, moves, after, m.orphan);
    hide OnlyMatch, MovedOnce;
    var more := moves + [m];
    forall k | 0 <= k < |more|
      ensures more[k].orphan in lrc && |lrc[more[k].orphan]| == 1 && more[k].stem in audio && audio[more[k].stem] != []
      ensures Shown(before, trace, lrc[more[k].orphan][0], WithLrc(audio[more[k].stem][0]), audio[more[k].stem], more[k].tags)
    {
      if k < |moves| { assert more[k] == moves[k]; }
    }
  }

  lemma OrphanIsOriginal(
    audio: map<string, seq<Path>>, lrc: map<string, seq<Path>>, groups: seq<Gathered>, moves: seq<Relocation>,
    after: map<string, seq<Path>>, orphan: string)
    requires Progress(audio, lrc, groups, moves, after) && orphan in Orphans(audio, after)
    ensures orphan in lrc && after[orphan] == lrc[orphan]
  {
    RemainingOrphans(audio, lrc, groups, moves, after);
    MovedNames(audio, lrc, groups, moves, after);
    hide EarnedBy, OnlyMatch, Earned, MovedOrphans, MovedStems;
  }
}
