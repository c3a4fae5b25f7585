/** What every run of the snapshot cache guarantees to the workers that rely on it. */
module SnapshotGuarantees {
  import opened Basics
  import opened SnapshotIndex
  import opened Snapshots
  import opened SnapshotRuns

  /** A new database, and the watch just established. */
  function Fresh(disk: Disk): System {
    System(disk, SeenAfter({}, disk), Index(map[], map[]), map[], map[], {}, 0, Idle, Watching, false, true, false, {})
  }

  lemma FreshIsSound(disk: Disk)
    requires disk.Valid()
    ensures Inv(Fresh(disk))
  {
    SeenGrows({}, disk);
    hide SeenAfter;
  }

  // ---------------------------------------------------------------------------
  // Coherence
  // ---------------------------------------------------------------------------

  /**
   In every interleaving, a stored row that matches the file's present stamp and version holds what
   the file holds, unless a raise of its version is still outstanding or no event ever covered it.
   */
  lemma SnapshotCoherence(disk: Disk, steps: seq<Step>, path: Path)
    requires disk.Valid()
    ensures var t := Run(Fresh(disk), steps);
      path in t.rows && t.Alive(path, t.rows[path].stamp, t.rows[path].version) ==>
        t.rows[path].value == t.Content(path) || t.Owed(path) || path in t.uncovered
  {
    var s := Fresh(disk);
    FreshIsSound(disk);
    RunKeepsInv(s, steps);
    var t := Run(s, steps);
    assert PathSound(t, path);
  }

  /** The premises, step by step: each write is reported to all its aliases, and no debt is dropped. */
  ghost predicate Premised(s: System, step: Step)
    requires s.disk.Valid()
  {
    match step
    case Write(via, content, mark, paths) =>
      Writes(s, via, content, mark, paths) ==>
        if s.watching then Unreached(s, via, s.disk.link[via], paths) == {} else s.RepairDue()
    case Watch(DispatcherFails) => false
    case Watch(DispatcherStops) => forall path :: path in s.disk.link ==> !s.WatchRaises(path)
    case Watch(Overflow(_)) => s.repairer != Over
    case Watch(HandleLoss(_)) => s.repairer != Over
    case RaiseEpoch(ok) => ok
    case Shutdown => !s.LoopRaises()
    case Restart => forall path :: path in s.rows ==> !s.Owed(path)
    case _ => true
  }

  ghost predicate PremisedRun(s: System, steps: seq<Step>)
    requires s.disk.Valid()
    decreases |steps|
  {
    steps == [] || (Premised(s, steps[0]) && PremisedRun(Next(s, steps[0]), steps[1..]))
  }

  lemma PremisedStepCovers(s: System, step: Step)
    requires s.disk.Valid() && Premised(s, step) && s.uncovered == {}
    ensures Next(s, step).uncovered == {}
  {
    match step
    case Write(via, content, mark, paths) =>
      var disk := WriteIs(s, via, content, mark, paths);
      assert !Writes(s, via, content, mark, paths) ==> Next(s, step) == s;
    case _ => hide System.WatchRaises, System.AliasDue;
  }

  lemma {:induction false} PremisedRunCovers(s: System, steps: seq<Step>)
    requires s.disk.Valid() && PremisedRun(s, steps) && s.uncovered == {}
    ensures Run(s, steps).uncovered == {}
    decreases |steps|
  {
    if steps != [] {
      PremisedStepCovers(s, steps[0]);
      PremisedRunCovers(Next(s, steps[0]), steps[1..]);
    }
  }

  /** Under the premises the cache agrees with rereading, up to raises that are still under way. */
  lemma PremisedCoherence(disk: Disk, steps: seq<Step>, path: Path)
    requires disk.Valid() && PremisedRun(Fresh(disk), steps)
    ensures var t := Run(Fresh(disk), steps);
      path in t.rows && t.Alive(path, t.rows[path].stamp, t.rows[path].version) && !t.Owed(path) ==>
        t.rows[path].value == t.Content(path)
  {
    PremisedRunCovers(Fresh(disk), steps);
    SnapshotCoherence(disk, steps, path);
  }

  // ---------------------------------------------------------------------------
  // Optimistic checks
  // ---------------------------------------------------------------------------

  lemma NextRaisesVersion(s: System, step: Step, path: Path)
    requires Inv(s)
    ensures s.Version(path) <= Next(s, step).Version(path)
  {
    match step
    case Write(via, content, mark, paths) => WriteCarries(s, via, content, mark, paths, path);
    case Replace(disk) => ReplaceCarries(s, disk, path);
    case Read(reading, action) =>
      if Stores(s, reading, action) {
        IndexFileRaises(s.index, reading, s.readers[reading].row.stamp.inode);
      }
    case Watch(move) => WatcherCarries(s, move, path);
    case RequestRepair =>
    case StartRepair =>
    case RaiseEpoch(_) => InvalidateAllRaises(s.index);
    case Shutdown =>
    case Restart =>
  }

  lemma {:induction false} RunRaisesVersion(s: System, steps: seq<Step>, path: Path)
    requires Inv(s)
    ensures s.Version(path) <= Run(s, steps).Version(path)
    decreases |steps|
  {
    if steps != [] {
      NextRaisesVersion(s, steps[0], path);
      NextKeepsInv(s, steps[0]);
      RunRaisesVersion(Next(s, steps[0]), steps[1..], path);
    }
  }

  /**
   The double check of `audio`, `lyrics` and `still_current`: the stamp is compared in state `s` and
   the version only later, after any other steps. If both agree, then at the stamp comparison the
   file held exactly the snapshot's content, unless a raise was outstanding then.
   */
  lemma CurrentAtCheck(s: System, steps: seq<Step>, path: Path)
    requires Inv(s) && path in s.readers
    requires s.readers[path].Got? || s.readers[path].Held?
    requires s.disk.Shows(path, s.readers[path].row.stamp)
    requires Run(s, steps).Version(path) == s.readers[path].row.version
    ensures s.Version(path) == s.readers[path].row.version
    ensures s.readers[path].row.value == s.Content(path) || s.Owed(path) || path in s.uncovered
  {
    assert PathSound(s, path);
    RunRaisesVersion(s, steps, path);
  }

  /** After the epoch moved, no older row or late commit matches any more, whatever stamp the file shows. */
  ghost predicate RaisesEpoch(s: System, step: Step) {
    || (step == RaiseEpoch(true) && s.repairer == Invalidating)
    || (step == Watch(HandleLoss(true)) && s.dispatcher.Idle? && s.lossOpen)
  }

  lemma EpochRetires(s: System, step: Step, steps: seq<Step>, path: Path, stamp: Stamp)
    requires Inv(s) && RaisesEpoch(s, step)
    ensures var t := Run(Next(s, step), steps);
      path in t.rows && t.rows[path].version <= s.Version(path) ==>
        Lookup(t.rows, path, stamp, t.Version(path)).None?
  {
    InvalidateAllRaises(s.index);
    NextKeepsInv(s, step);
    RunRaisesVersion(Next(s, step), steps, path);
  }

  /** A lost watch is repaired for good: rows kept from before never match again, restarts included. */
  lemma LossRetiresRows(s: System, steps: seq<Step>, path: Path, stamp: Stamp)
    requires Inv(s) && s.lossOpen && s.dispatcher.Idle? && path in s.rows
    ensures var t := Run(Next(s, Watch(HandleLoss(true))), [Restart] + steps);
      path in t.rows && t.rows[path] == s.rows[path] ==> Lookup(t.rows, path, stamp, t.Version(path)).None?
  {
    assert PathSound(s, path);
    EpochRetires(s, Watch(HandleLoss(true)), [Restart] + steps, path, stamp);
  }

  // ---------------------------------------------------------------------------
  // What is owed can be paid
  // ---------------------------------------------------------------------------

  /** The steps by which the dispatcher and the repair loop do their work without failing. */
  predicate Works(step: Step) {
    match step
    case Watch(Receive(_)) => true
    case Watch(Stat(_)) => true
    case Watch(Query) => true
    case Watch(Invalidate) => true
    case Watch(HandleLoss(ok)) => ok
    case Watch(AskRepair) => true
    case StartRepair => true
    case RaiseEpoch(ok) => ok
    case _ => false
  }

  function Leave(s: System): nat { if s.dispatcher.Leaving? then 1 else 0 }

  function Wait(s: System): nat { if s.dispatcher.Busy() then 0 else 1 }

  function Look(s: System): nat {
    if s.dispatcher.Busy() then 2 * |s.dispatcher.left| + (if s.dispatcher.Stated? then 1 else 0) else 0
  }

  function Ask(s: System): nat { if s.repairer == Watching then 1 else 0 }

  /** Less remains to be done. */
  ghost predicate Nearer(s: System, t: System) {
    || Leave(t) < Leave(s)
    || (Leave(t) == Leave(s) && |t.undelivered| < |s.undelivered|)
    || (Leave(t) == Leave(s) && |t.undelivered| == |s.undelivered| && Wait(t) < Wait(s))
    || (Leave(t) == Leave(s) && |t.undelivered| == |s.undelivered| && Wait(t) == Wait(s) && Look(t) < Look(s))
    || (Leave(t) == Leave(s) && |t.undelivered| == |s.undelivered| && Wait(t) == Wait(s) && Look(t) == Look(s) && Ask(t) < Ask(s))
  }

  lemma LookingWorks(s: System) returns (step: Step)
    requires Ground(s) && (s.dispatcher.Stated? || (s.dispatcher.Looking? && s.dispatcher.left != {}))
    ensures Works(step) && Waits(s, Next(s, step)) && Nearer(s, Next(s, step))
  {
    if s.dispatcher.Stated? {
      step := Watch(Query);
      QueryWaits(s);
    } else {
      var other :| other in s.dispatcher.left;
      step := Watch(Stat(other));
      StatWaits(s, other);
    }
    hide System.Owed, Waits, PathsSharingFile;
  }

  lemma InvalidateWorks(s: System, path: Path)
    requires Ground(s) && s.Owed(path) && s.dispatcher.Looking? && s.dispatcher.left == {}
    ensures var t := Next(s, Watch(Invalidate));
      t.Version(path) > s.Version(path) || (t.Owed(path) && Nearer(s, t))
  {
    InvalidateFilesRaises(s.index, s.dispatcher.affected);
    if path !in s.dispatcher.affected {
      InvalidateKeepsOwed(s, path);
    }
    hide System.Owed, InvalidateFiles;
  }

  lemma BusyWorks(s: System, path: Path) returns (step: Step)
    requires Ground(s) && s.Owed(path) && s.dispatcher.Busy()
    ensures Works(step)
    ensures var t := Next(s, step); t.Version(path) > s.Version(path) || (t.Owed(path) && Nearer(s, t))
  {
    if s.dispatcher.Looking? && s.dispatcher.left == {} {
      step := Watch(Invalidate);
      InvalidateWorks(s, path);
    } else {
      step := LookingWorks(s);
    }
    hide System.Owed, Next, Nearer;
  }

  lemma LoopWorks(s: System, path: Path) returns (step: Step)
    requires Ground(s) && s.LoopRaises()
    ensures Works(step)
    ensures var t := Next(s, step); t.Version(path) > s.Version(path) || (t.LoopRaises() && Nearer(s, t))
  {
    hide System.AliasDue, System.WatchRaises;
    if s.dispatcher.Leaving? {
      step := Watch(AskRepair);
    } else if s.repairer == Invalidating {
      InvalidateAllRaises(s.index);
      step := RaiseEpoch(true);
    } else {
      step := StartRepair;
    }
  }

  lemma FreeWorks(s: System, path: Path) returns (step: Step)
    requires Ground(s) && s.Owed(path) && !s.dispatcher.Busy()
    ensures Works(step)
    ensures var t := Next(s, step); t.Version(path) > s.Version(path) || (t.Owed(path) && Nearer(s, t))
  {
    if s.LoopRaises() {
      hide System.AliasDue, System.WatchRaises;
      step := LoopWorks(s, path);
    } else if s.lossOpen {
      InvalidateAllRaises(s.index);
      step := Watch(HandleLoss(true));
    } else {
      step := EventWorks(s, path);
    }
  }

  lemma EventWorks(s: System, path: Path) returns (step: Step)
    requires Ground(s) && s.WatchRaises(path) && !s.lossOpen && !s.dispatcher.Busy()
    ensures Works(step) && Next(s, step).Owed(path) && Nearer(s, Next(s, step))
  {
    var event :| event in s.undelivered && (path in event.paths || s.AliasDue(event, path));
    step := Watch(Receive(event));
    ReceiveWaits(s, event);
    assert s.dispatcher.Idle?;
    hide System.Owed, System.AliasDue;
  }

  /**
   No debt is owed by nobody: as long as a path is excused by an outstanding raise, there are steps of
   the dispatcher and the repair loop, all succeeding, that raise its version.
   */
  lemma {:induction false} DebtIsPayable(s: System, path: Path) returns (steps: seq<Step>)
    requires Inv(s) && s.Owed(path)
    ensures forall k :: 0 <= k < |steps| ==> Works(steps[k])
    ensures Run(s, steps).Version(path) > s.Version(path)
    decreases Leave(s), |s.undelivered|, Wait(s), Look(s), Ask(s)
  {
    var step;
    if s.dispatcher.Busy() { step := BusyWorks(s, path); } else { step := FreeWorks(s, path); }
    NextKeepsInv(s, step);
    NextRaisesVersion(s, step, path);
    var t := Next(s, step);
    hide Inv, Next, System.Owed, Works;
    var rest: seq<Step> := [];
    if t.Version(path) <= s.Version(path) {
      rest := DebtIsPayable(t, path);
    }
    steps := [step] + rest;
    assert steps[1..] == rest;
    assert Run(s, steps) == Run(t, rest);
  }
}
