/** How the history of a directory's owner goes on: by looking, by one act, or by a whole pass over a group. */
module Traces {
  import opened Basics
  import opened Tables
  import opened Tags
  import opened Scenes
  import opened Publishing

  // ---------------------------------------------------------------------------
  // Looking and acting once
  // ---------------------------------------------------------------------------

  /** Only the others acted. */
  ghost predicate Pauses(before: seq<Moment>, after: seq<Moment>) {
    before <= after && forall i :: |before| <= i < |after| ==> after[i].actor.Others?
  }

  /** The others acted, and the owner looked at files and entries. */
  ghost predicate Looks(before: seq<Moment>, after: seq<Moment>) {
    before <= after && forall i :: |before| <= i < |after| ==> after[i].actor.Others? || after[i].actor.Looks()
  }

  /** So did it, and it may have asked the cache and LRCLib. */
  ghost predicate Peeks(before: seq<Moment>, after: seq<Moment>) {
    before <= after
    && forall i :: |before| <= i < |after| ==> after[i].actor.Others? || after[i].actor.Looks() || after[i].actor.Supplies()
  }

  /** The owner looked; a doubt, if there is one, comes last. */
  ghost predicate Glances(before: seq<Moment>, after: seq<Moment>, doubt: bool) {
    if doubt then |before| < |after| && after[|after| - 1].actor.Doubts? && Looks(before, after[..|after| - 1])
    else Looks(before, after)
  }

  /** After the others acted, the owner did this, and that came last. */
  ghost predicate Ends(before: seq<Moment>, after: seq<Moment>, actor: Actor) {
    |before| < |after| && after[|after| - 1].actor == actor && Pauses(before, after[..|after| - 1])
  }

  /** The owner looked, and this is what it did last. */
  ghost predicate LooksTo(before: seq<Moment>, after: seq<Moment>, actor: Actor) {
    before < after && after[|after| - 1].actor == actor && Looks(before, after)
  }

  lemma PausesIsLooks(before: seq<Moment>, after: seq<Moment>)
    requires Pauses(before, after)
    ensures Looks(before, after) && Peeks(before, after) && before <= after
  {
  }

  lemma Nothing(trace: seq<Moment>)
    ensures Pauses(trace, trace) && Looks(trace, trace) && Peeks(trace, trace)
  {
  }

  lemma PausesOn(a: seq<Moment>, b: seq<Moment>, c: seq<Moment>)
    requires Pauses(a, b) && Pauses(b, c)
    ensures Pauses(a, c)
  {
  }

  lemma LooksOn(a: seq<Moment>, b: seq<Moment>, c: seq<Moment>)
    requires Looks(a, b) && Looks(b, c)
    ensures Looks(a, c) && a <= b <= c
  {
  }

  lemma PeeksOn(a: seq<Moment>, b: seq<Moment>, c: seq<Moment>)
    requires Peeks(a, b) && Peeks(b, c)
    ensures Peeks(a, c) && a <= b <= c
  {
  }

  lemma GlancesOn(a: seq<Moment>, b: seq<Moment>, c: seq<Moment>, doubt: bool)
    requires Looks(a, b) && Glances(b, c, doubt)
    ensures Glances(a, c, doubt) && a <= b <= c
  {
    if doubt { LooksOn(a, b, c[..|c| - 1]); } else { LooksOn(a, b, c); }
  }

  lemma EndsIsLooks(before: seq<Moment>, after: seq<Moment>, actor: Actor)
    requires Ends(before, after, actor) && actor.Looks()
    ensures Looks(before, after) && before < after
  {
  }

  lemma EndsIsPeeks(before: seq<Moment>, after: seq<Moment>, actor: Actor)
    requires Ends(before, after, actor) && (actor.Looks() || actor.Supplies())
    ensures Peeks(before, after) && before < after
  {
  }

  lemma EndsInDoubt(before: seq<Moment>, after: seq<Moment>, path: Path)
    requires Ends(before, after, Doubts(path))
    ensures Glances(before, after, true)
  {
    PausesIsLooks(before, after[..|after| - 1]);
  }

  /** The last moment is a failure, or a change of files that could perhaps not be made durable. */
  ghost predicate Stuck(before: seq<Moment>, after: seq<Moment>) {
    before < after && Sticks(after[|after| - 1].actor)
  }

  predicate Sticks(actor: Actor) {
    actor.Fails? || actor == Leaves(Broken) || actor.Creates? || actor.Archives? || actor.Moves?
  }

  lemma EndsStuck(before: seq<Moment>, after: seq<Moment>, actor: Actor)
    requires Ends(before, after, actor) && Sticks(actor)
    ensures Stuck(before, after)
  {
  }

  lemma StuckOn(before: seq<Moment>, middle: seq<Moment>, after: seq<Moment>)
    requires before <= middle && Stuck(middle, after)
    ensures Stuck(before, after)
  {
  }

  /** One more moment after the others acted. */
  lemma EndsHere(before: seq<Moment>, middle: seq<Moment>, after: seq<Moment>, moment: Moment)
    requires Pauses(before, middle) && after == middle + [moment]
    ensures Ends(before, after, moment.actor)
  {
    assert after[..|after| - 1] == middle;
  }

  // ---------------------------------------------------------------------------
  // What stays vouched for
  // ---------------------------------------------------------------------------

  lemma CommitVouchLasts(before: seq<Moment>, after: seq<Moment>, actor: Actor)
    requires before != [] && Vouched(before, actor) && Pauses(before, after) && actor.Commits?
    ensures Vouched(after, actor)
  {
    hide TrackTags.Normalized, AnswersWith, Supplied;
    var Commits(path, tags, result, from, checked) := actor;
    assert Checked(before[checked].actor, path, tags) && after[checked] == before[checked];
    SupplyLasts(before, after, path, tags, result, from, before[checked].actor.stamped);
  }

  lemma ArchiveVouchLasts(before: seq<Moment>, after: seq<Moment>, actor: Actor)
    requires before != [] && Vouched(before, actor) && Pauses(before, after) && actor.Archives?
    ensures Vouched(after, actor)
  {
    hide TrackTags.Normalized, Grounded;
    if actor.reason.Orphan? { GroundsLast(before, after, actor.path, actor.reason.grounds); }
  }

  lemma MoveVouchLasts(before: seq<Moment>, after: seq<Moment>, actor: Actor)
    requires before != [] && Vouched(before, actor) && Pauses(before, after) && (actor.Moves? || actor.Deletes?)
    ensures Vouched(after, actor)
  {
    hide TrackTags.Normalized, Grounded;
    if actor.Deletes? {
      GroundsLast(before, after, actor.path, actor.grounds);
    } else {
      assert ReadSince(after, actor.claim.taken, actor.claim.paths, actor.claim.tags, actor.claim.readings);
    }
  }

  /** What an act needs to have happened stays so while only the others act. */
  lemma PausesVouch(directory: Directory, before: seq<Moment>, after: seq<Moment>, actor: Actor)
    requires before != [] && Vouched(before, actor) && Pauses(before, after)
    requires actor.Acts() || actor.Asks?
    requires actor.Creates? ==>
      Within(actor.path, directory)
      && SameRows(directory, before[|before| - 1].state.tables, after[|after| - 1].state.tables)
    ensures Vouched(after, actor)
  {
    if actor.Commits? {
      hide *;
      CommitVouchLasts(before, after, actor);
    } else if actor.Archives? {
      hide *;
      ArchiveVouchLasts(before, after, actor);
    } else if actor.Moves? || actor.Deletes? {
      hide *;
      MoveVouchLasts(before, after, actor);
    } else {
      hide TrackTags.Normalized, AnswersWith, Supplied, Grounded, ReadSince;
    }
  }

  lemma GroundsLast(before: seq<Moment>, after: seq<Moment>, path: Path, grounds: Grounds)
    requires Grounded(before, path, grounds) && Pauses(before, after)
    ensures Grounded(after, path, grounds)
  {
  }

  lemma SupplyLasts(before: seq<Moment>, after: seq<Moment>, path: Path, tags: TrackTags, result: CachedResult, from: nat,
    stamped: nat)
    requires Supplied(before, path, tags, result, from, stamped) && before <= after
    ensures Supplied(after, path, tags, result, from, stamped)
  {
    hide AnswersWith, TrackTags.Normalized, WithLrc;
    assert after[from] == before[from];
    if before[from].actor.Takes? && LoneBetween(before, stamped, from, path, before[from].actor.path) {
      var k :| stamped <= k < from && k < |before| && Lone(before[k].actor, path, before[from].actor.path);
      assert Lone(after[k].actor, path, before[from].actor.path);
    }
  }

  // ---------------------------------------------------------------------------
  // Evidence
  // ---------------------------------------------------------------------------

  /** Each file was checked, since then, to hold a recording with these tags. */
  ghost predicate Evidence(trace: seq<Moment>, since: nat, paths: seq<Path>, tags: TrackTags, marks: seq<nat>) {
    && |marks| == |paths|
    && forall k :: 0 <= k < |marks| ==>
         marks[k] < |trace| && Checked(trace[marks[k]].actor, paths[k], tags) && since <= trace[marks[k]].actor.stamped < marks[k]
  }

  lemma EvidenceLasts(trace: seq<Moment>, more: seq<Moment>, since: nat, paths: seq<Path>, tags: TrackTags,
    marks: seq<nat>)
    requires Evidence(trace, since, paths, tags, marks) && trace <= more
    ensures Evidence(more, since, paths, tags, marks)
  {
  }

  /** The confirmations that the reading of a group left behind. */
  ghost predicate ReadMarks(trace: seq<Moment>, since: nat, paths: seq<Path>, all: seq<TrackTags>, marks: seq<nat>) {
    && |marks| == |paths| == |all|
    && forall k :: 0 <= k < |marks| ==>
         && since <= marks[k] < |trace| && trace[marks[k]].actor.Confirms?
         && trace[marks[k]].actor.path == paths[k] && trace[marks[k]].actor.tags == all[k]
  }

  /** Each file was read, since then, to hold a recording with these tags. */
  ghost predicate Readings(trace: seq<Moment>, since: nat, paths: seq<Path>, tags: TrackTags, marks: seq<nat>) {
    && |marks| == |paths|
    && forall k :: 0 <= k < |marks| ==> since <= marks[k] < |trace| && Confirmed(trace[marks[k]].actor, paths[k], tags)
  }

  lemma MarksAreReadings(trace: seq<Moment>, since: nat, paths: seq<Path>, all: seq<TrackTags>, marks: seq<nat>)
    requires ReadMarks(trace, since, paths, all, marks) && all != []
    requires forall k :: 0 <= k < |all| ==> all[k].Normalized() == all[0].Normalized()
    ensures Readings(trace, since, paths, all[0], marks)
  {
    hide TrackTags.Normalized;
  }

  // ---------------------------------------------------------------------------
  // A pass over a group
  // ---------------------------------------------------------------------------

  /**
   What a pass over the group with this sidecar name may do: commit and ingest for its files, with evidence
   of this pass, publish its sidecar if `made`, and archive sidecars of its name, but no orphans.
   */
  predicate Tame(actor: Actor, key: Path, made: bool, since: nat) {
    match actor
    case Commits(path, _, _, from, checked) => WithLrc(path) == key && since <= from && since <= checked
    case Ingests(path, _, _, from, checked) => WithLrc(path) == key && since <= from && since <= checked
    case Creates(path, checked, found) => made && path == key && since <= checked && since <= found
    case Archives(path, _, Stale(_, _, _, _, taken, checked)) => WithLrc(path) == key && since <= taken && since <= checked
    case Archives(path, _, Retracted(_, _, earlier, found)) => made && path == key && since <= earlier && since <= found
    case Archives(_, _, Orphan(_)) => false
    case Moves(_, _, _) => false
    case Deletes(_, _) => false
    case _ => true
  }

  /** The trace goes on tamely; a doubt, if there is one, comes last. */
  ghost predicate Spares(before: seq<Moment>, after: seq<Moment>, key: Path, made: bool, since: nat, doubt: bool) {
    && before <= after
    && (doubt ==> |before| < |after| && after[|after| - 1].actor.Doubts?)
    && forall i :: |before| <= i < |after| ==>
         Tame(after[i].actor, key, made, since) && (after[i].actor.Doubts? ==> doubt && i == |after| - 1)
  }

  lemma SparesOn(a: seq<Moment>, b: seq<Moment>, c: seq<Moment>, key: Path, made: bool, early: bool, late: bool, since: nat,
    doubt: bool)
    requires Spares(a, b, key, early, since, false) && Spares(b, c, key, late, since, doubt)
    requires early || late ==> made
    ensures Spares(a, c, key, made, since, doubt)
  {
  }

  lemma GlancesSpare(a: seq<Moment>, b: seq<Moment>, key: Path, made: bool, since: nat, doubt: bool)
    requires Glances(a, b, doubt)
    ensures Spares(a, b, key, made, since, doubt)
  {
    if doubt {
      forall i | |a| <= i < |b| ensures Tame(b[i].actor, key, made, since) && (b[i].actor.Doubts? ==> i == |b| - 1) {
        if i < |b| - 1 { assert b[i] == b[..|b| - 1][i]; }
      }
    }
  }

  lemma ActSpares(a: seq<Moment>, b: seq<Moment>, actor: Actor, key: Path, made: bool, since: nat)
    requires Ends(a, b, actor) && Tame(actor, key, made, since) && !actor.Doubts?
    ensures Spares(a, b, key, made, since, false)
  {
    forall i | |a| <= i < |b| ensures Tame(b[i].actor, key, made, since) && !b[i].actor.Doubts? {
      if i < |b| - 1 { assert b[i] == b[..|b| - 1][i]; }
    }
  }

  lemma SparesGrows(a: seq<Moment>, b: seq<Moment>, key: Path, made: bool, since: nat, doubt: bool)
    requires Spares(a, b, key, made, since, doubt)
    ensures a <= b
  {
  }

  // ---------------------------------------------------------------------------
  // The check at the end of a pass
  // ---------------------------------------------------------------------------

  /** Something that only the current recording justifies: a publication, or a committed miss. */
  predicate Announces(actor: Actor) { actor.Creates? || (actor.Commits? && !actor.result.Found?) }

  ghost predicate Withdrawn(trace: seq<Moment>, i: nat) {
    exists j :: i < j < |trace| && trace[j].actor.Archives? && trace[j].actor.reason.Retracted?
  }

  ghost predicate RecheckedAfter(trace: seq<Moment>, i: nat, path: Path) {
    exists j :: i < j < |trace| && trace[j].actor.Checks? && trace[j].actor.path == path
  }

  /** Whatever was announced since was withdrawn again, or all audio was checked again after it. */
  ghost predicate Final(before: seq<Moment>, after: seq<Moment>, paths: seq<Path>) {
    forall i, k :: |before| <= i < |after| && Announces(after[i].actor) && 0 <= k < |paths| ==>
      Withdrawn(after, i) || RecheckedAfter(after, i, paths[k])
  }

  /** Nothing was announced. */
  ghost predicate Silent(before: seq<Moment>, after: seq<Moment>) {
    before <= after && forall i :: |before| <= i < |after| ==> !Announces(after[i].actor)
  }

  lemma SilentIsFinal(before: seq<Moment>, after: seq<Moment>, paths: seq<Path>)
    requires Silent(before, after)
    ensures Final(before, after, paths)
  {
  }

  lemma SilentOn(a: seq<Moment>, b: seq<Moment>, c: seq<Moment>)
    requires Silent(a, b) && Silent(b, c)
    ensures Silent(a, c)
  {
  }

  lemma SilentThenFinal(a: seq<Moment>, b: seq<Moment>, c: seq<Moment>, paths: seq<Path>)
    requires Silent(a, b) && b <= c && Final(b, c, paths)
    ensures Final(a, c, paths)
  {
  }

  /** Looking is silent, and so is committing lyrics. */
  lemma LooksAreSilent(a: seq<Moment>, b: seq<Moment>)
    ensures Looks(a, b) || Peeks(a, b) || Pauses(a, b) ==> Silent(a, b)
    ensures forall doubt :: Glances(a, b, doubt) ==> Silent(a, b)
  {
    forall doubt | Glances(a, b, doubt) ensures Silent(a, b) {
      if doubt {
        forall i | |a| <= i < |b| ensures !Announces(b[i].actor) {
          if i < |b| - 1 { assert b[i] == b[..|b| - 1][i]; }
        }
      }
    }
  }

  lemma EndsSilently(a: seq<Moment>, b: seq<Moment>, actor: Actor)
    requires Ends(a, b, actor) && !Announces(actor)
    ensures Silent(a, b)
  {
    forall i | |a| <= i < |b| ensures !Announces(b[i].actor) {
      if i < |b| - 1 { assert b[i] == b[..|b| - 1][i]; }
    }
  }

  /** A full check after everything makes it final. */
  lemma CheckedIsFinal(before: seq<Moment>, middle: seq<Moment>, after: seq<Moment>, paths: seq<Path>, tags: TrackTags,
    marks: seq<nat>)
    requires before <= middle && Looks(middle, after) && Evidence(after, |middle|, paths, tags, marks)
    ensures Final(before, after, paths)
  {
    hide TrackTags.Normalized;
    forall i, k | |before| <= i < |after| && Announces(after[i].actor) && 0 <= k < |paths|
      ensures RecheckedAfter(after, i, paths[k])
    {
      assert i < |middle|;
      assert Checked(after[marks[k]].actor, paths[k], tags);
    }
  }

  /** So does a retraction after the publication. */
  lemma WithdrawnIsFinal(before: seq<Moment>, middle: seq<Moment>, after: seq<Moment>, slot: nat, path: Path, reason: Reason,
    paths: seq<Path>)
    requires before <= middle && reason.Retracted? && Ends(middle, after, Archives(path, slot, reason))
    ensures Final(before, after, paths)
  {
    forall i | |before| <= i < |after| && Announces(after[i].actor) ensures Withdrawn(after, i) {
      if |middle| <= i < |after| - 1 { assert after[i] == after[..|after| - 1][i]; }
      assert after[|after| - 1].actor.Archives?;
    }
  }

  lemma FinalLasts(before: seq<Moment>, middle: seq<Moment>, after: seq<Moment>, paths: seq<Path>)
    requires Final(before, middle, paths) && Silent(middle, after)
    ensures Final(before, after, paths)
  {
    forall i, k | |before| <= i < |after| && Announces(after[i].actor) && 0 <= k < |paths|
      ensures Withdrawn(after, i) || RecheckedAfter(after, i, paths[k])
    {
      assert middle[i] == after[i];
      assert Withdrawn(middle, i) || RecheckedAfter(middle, i, paths[k]);
      if Withdrawn(middle, i) {
        var j :| i < j < |middle| && middle[j].actor.Archives? && middle[j].actor.reason.Retracted?;
        assert after[j] == middle[j];
      } else {
        var j :| i < j < |middle| && middle[j].actor.Checks? && middle[j].actor.path == paths[k];
        assert after[j] == middle[j];
      }
    }
  }

  // ---------------------------------------------------------------------------
  // Reconciling and disposing
  // ---------------------------------------------------------------------------

  /** The trace goes on by looking, doubting and moving orphans. */
  ghost predicate Shifts(before: seq<Moment>, after: seq<Moment>) {
    && before <= after
    && forall i :: |before| <= i < |after| ==>
         after[i].actor.Others? || after[i].actor.Looks() || after[i].actor.Doubts? || after[i].actor.Moves?
  }

  lemma ShiftsOn(before: seq<Moment>, middle: seq<Moment>, after: seq<Moment>)
    requires Shifts(before, middle) && Shifts(middle, after)
    ensures Shifts(before, after) && before <= middle <= after
  {
  }

  lemma LooksShift(a: seq<Moment>, b: seq<Moment>)
    ensures Looks(a, b) || Pauses(a, b) ==> Shifts(a, b)
    ensures forall doubt :: Glances(a, b, doubt) ==> Shifts(a, b)
  {
    forall doubt | Glances(a, b, doubt) ensures Shifts(a, b) {
      if doubt {
        forall i | |a| <= i < |b|
          ensures b[i].actor.Others? || b[i].actor.Looks() || b[i].actor.Doubts? || b[i].actor.Moves?
        {
          if i < |b| - 1 { assert b[i] == b[..|b| - 1][i]; }
        }
      }
    }
  }

  lemma MoveShifts(a: seq<Moment>, b: seq<Moment>, path: Path, target: Path, claim: Claim)
    requires Ends(a, b, Moves(path, target, claim))
    ensures Shifts(a, b)
  {
    forall i | |a| <= i < |b|
      ensures b[i].actor.Others? || b[i].actor.Looks() || b[i].actor.Doubts? || b[i].actor.Moves?
    {
      if i < |b| - 1 { assert b[i] == b[..|b| - 1][i]; }
    }
  }
}
