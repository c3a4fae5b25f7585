/**
 Every interleaving of producers, workers, shutdown and repair on one work queue, with a log of
 what the queue promised. Links may be retargeted at will: each step carries its own resolution.
 */
module QueueRuns {
  import opened Basics
  import opened WorkQueues

  datatype Note =
    | Accept(key: Directory)
    | Start(key: Directory)
    | Discard(key: Directory)
    | Done(key: Directory, rerun: bool)
    | Repair
    | RepairTaken
    | Halt

  datatype Step =
    | Submit(directory: Directory, target: Option<Directory>, wait: bool)
    | Take(target: Option<Directory>)
    | Finish(item: WorkItem, changed: bool)
    | Close
    | Cancel
    | RequestRepair
    | TakeRepair

  /** `held` are the items that workers took and have not finished; `panicked` records a hit `unreachable!`. */
  datatype Service = Service(queue: State, held: set<WorkItem>, log: seq<Note>, panicked: bool)
  {
    function Say(notes: seq<Note>): Service { this.(log := log + notes) }
  }

  const Idle := Service(State([], map[], false, false, false), {}, [], false)

  function Next(v: Service, capacity: nat, step: Step): Service {
    match step
    case Submit(directory, target, wait) =>
      var (queue, admission) := Admit(v.queue, capacity, directory, target, wait);
      var w := v.(queue := queue);
      if admission == Some(Accepted) && target.Some? then w.Say([Accept(target.value)])
      else if admission == Some(Full) then (if wait then w.(panicked := true) else w.Say([Repair]))
      else w
    case Take(target) =>
      if v.queue.Halted() || v.queue.ready == [] then v
      else if !v.queue.IsQueued(v.queue.ready[0]) then v.(panicked := true)
      else
        var key := v.queue.ready[0];
        var (queue, item) := Pop(v.queue, target);
        var w := v.(queue := queue);
        if item.Some? then w.(held := w.held + {item.value}).Say([Start(key)])
        else w.Say([Discard(key), Repair])
    case Finish(item, changed) =>
      if item !in v.held then v
      else if !v.queue.IsRunning(item.key) then v.(panicked := true)
      else
        v.(queue := Release(v.queue, item.key, changed), held := v.held - {item}).Say([Done(item.key, changed)])
    case Close => v.(queue := Shut(v.queue)).Say([Halt])
    case Cancel => v.(queue := v.queue.(cancelled := true)).Say([Halt])
    case RequestRepair => v.(queue := v.queue.(repair := true)).Say([Repair])
    case TakeRepair =>
      if v.queue.repair then v.(queue := v.queue.(repair := false)).Say([RepairTaken]) else v
  }

  function Run(v: Service, capacity: nat, steps: seq<Step>): Service
    decreases |steps|
  {
    if steps == [] then v else Run(Next(v, capacity, steps[0]), capacity, steps[1..])
  }

  // ---------------------------------------------------------------------------
  // Exclusive ownership, capacity and the unreachable branches
  // ---------------------------------------------------------------------------

  ghost predicate Owned(v: Service) {
    && (forall item :: item in v.held ==> v.queue.IsRunning(item.key))
    && (forall a, b :: a in v.held && b in v.held && a.key == b.key ==> a == b)
    && (forall key :: v.queue.IsRunning(key) ==> exists item :: item in v.held && item.key == key)
  }

  ghost predicate Inv(v: Service, capacity: nat) {
    Valid(v.queue, capacity) && Owned(v) && !v.panicked
  }

  lemma TakeKeepsInv(v: Service, capacity: nat, target: Option<Directory>)
    requires Inv(v, capacity) && !v.queue.Halted() && v.queue.ready != []
    ensures Inv(Next(v, capacity, Take(target)), capacity)
  {
    PopKeepsValid(v.queue, capacity, target);
    var w := Next(v, capacity, Take(target));
    var key := v.queue.ready[0];
    assert !v.queue.IsRunning(key);
    forall k | w.queue.IsRunning(k)
      ensures exists item :: item in w.held && item.key == k
    {
      if k == key {
        assert Pop(v.queue, target).1.value in w.held;
      } else {
        assert v.queue.IsRunning(k);
        var item :| item in v.held && item.key == k;
        assert item in w.held;
      }
    }
  }

  lemma FinishKeepsInv(v: Service, capacity: nat, item: WorkItem, changed: bool)
    requires Inv(v, capacity) && item in v.held
    ensures Inv(Next(v, capacity, Finish(item, changed)), capacity)
  {
    ReleaseKeepsValid(v.queue, capacity, item.key, changed);
    var w := Next(v, capacity, Finish(item, changed));
    forall k | w.queue.IsRunning(k)
      ensures exists other :: other in w.held && other.key == k
    {
      assert k != item.key && v.queue.IsRunning(k);
      var other :| other in v.held && other.key == k;
      assert other in w.held;
    }
  }

  /** Ownership only depends on which keys run. */
  lemma SameRunningKeepsOwned(v: Service, w: Service)
    requires Owned(v) && w.held == v.held
    requires forall key :: v.queue.IsRunning(key) <==> w.queue.IsRunning(key)
    ensures Owned(w)
  {
  }

  lemma NextKeepsInv(v: Service, capacity: nat, step: Step)
    requires Inv(v, capacity)
    ensures Inv(Next(v, capacity, step), capacity)
  {
    var w := Next(v, capacity, step);
    match step
    case Submit(directory, target, wait) =>
      AdmitKeepsValid(v.queue, capacity, directory, target, wait);
      SameRunningKeepsOwned(v, w);
    case Take(target) =>
      if !v.queue.Halted() && v.queue.ready != [] {
        TakeKeepsInv(v, capacity, target);
      }
    case Finish(item, changed) =>
      if item in v.held {
        FinishKeepsInv(v, capacity, item, changed);
      }
    case Close =>
      ShutKeepsValid(v.queue, capacity);
      SameRunningKeepsOwned(v, w);
    case Cancel =>
      SameQueueKeepsValid(v.queue, w.queue, capacity);
      SameRunningKeepsOwned(v, w);
    case RequestRepair =>
      SameQueueKeepsValid(v.queue, w.queue, capacity);
      SameRunningKeepsOwned(v, w);
    case TakeRepair =>
      SameQueueKeepsValid(v.queue, w.queue, capacity);
      SameRunningKeepsOwned(v, w);
  }

  lemma SameQueueKeepsValid(s: State, t: State, capacity: nat)
    requires Valid(s, capacity) && t.ready == s.ready && t.entries == s.entries
    ensures Valid(t, capacity)
  {
    assert forall key :: s.IsQueued(key) <==> t.IsQueued(key);
  }

  lemma {:induction false} RunKeepsInv(v: Service, capacity: nat, steps: seq<Step>)
    requires Inv(v, capacity)
    ensures Inv(Run(v, capacity, steps), capacity)
    decreases |steps|
  {
    if steps != [] {
      NextKeepsInv(v, capacity, steps[0]);
      RunKeepsInv(Next(v, capacity, steps[0]), capacity, steps[1..]);
    }
  }

  function Tally(log: seq<Note>, wanted: set<Note>): nat {
    if log == [] then 0 else Tally(log[..|log| - 1], wanted) + (if log[|log| - 1] in wanted then 1 else 0)
  }

  lemma TallyAppend(log: seq<Note>, note: Note, wanted: set<Note>)
    ensures Tally(log + [note], wanted) == Tally(log, wanted) + (if note in wanted then 1 else 0)
  {
    assert (log + [note])[..|log|] == log;
  }

  /** How many of at most two notes are wanted. */
  function Hits(notes: seq<Note>, wanted: set<Note>): nat {
    (if |notes| > 0 && notes[0] in wanted then 1 else 0) + (if |notes| > 1 && notes[1] in wanted then 1 else 0)
  }

  lemma TallySays(log: seq<Note>, more: seq<Note>, wanted: set<Note>)
    requires |more| <= 2
    ensures Tally(log + more, wanted) == Tally(log, wanted) + Hits(more, wanted)
  {
    if |more| == 0 {
      assert log + more == log;
    } else if |more| == 1 {
      assert more == [more[0]];
      TallyAppend(log, more[0], wanted);
    } else {
      assert log + more == log + [more[0]] + [more[1]];
      TallyAppend(log, more[0], wanted);
      TallyAppend(log + [more[0]], more[1], wanted);
    }
  }

  function Starts(v: Service, key: Directory): nat { Tally(v.log, {Start(key)}) }

  function Finishes(v: Service, key: Directory): nat { Tally(v.log, {Done(key, true), Done(key, false)}) }

  function Acceptances(v: Service, key: Directory): nat { Tally(v.log, {Accept(key)}) }

  function Reruns(v: Service, key: Directory): nat { Tally(v.log, {Done(key, true)}) }

  /** The two counting laws of one key. */
  ghost predicate Counted(v: Service, key: Directory) {
    && Starts(v, key) == Finishes(v, key) + (if v.queue.IsRunning(key) then 1 else 0)
    && Starts(v, key) + (if v.queue.Owes(key) then 1 else 0) <= Acceptances(v, key) + Reruns(v, key)
  }

  function Bit(b: bool): nat { if b then 1 else 0 }

  ghost predicate Says(v: Service, w: Service, key: Directory, more: seq<Note>) {
    && w.log == v.log + more && |more| <= 2
    && Hits(more, {Start(key)}) + Bit(v.queue.IsRunning(key))
         == Hits(more, {Done(key, true), Done(key, false)}) + Bit(w.queue.IsRunning(key))
    && Hits(more, {Start(key)}) + Bit(w.queue.Owes(key))
         <= Bit(v.queue.Owes(key)) + Hits(more, {Accept(key)}) + Hits(more, {Done(key, true)})
  }

  lemma TakeSays(v: Service, capacity: nat, target: Option<Directory>, key: Directory)
    requires Inv(v, capacity) && !v.queue.Halted() && v.queue.ready != []
    ensures var front := v.queue.ready[0];
      Says(v, Next(v, capacity, Take(target)), key,
        if Pop(v.queue, target).1.Some? then [Start(front)] else [Discard(front), Repair])
  {
    assert v.queue.ready[0] in v.queue.ready;
  }

  lemma FinishSays(v: Service, capacity: nat, item: WorkItem, changed: bool, key: Directory)
    requires Inv(v, capacity) && item in v.held
    ensures Says(v, Next(v, capacity, Finish(item, changed)), key, [Done(item.key, changed)])
  {
  }

  /** What one step says about a key is what it does to it. */
  lemma NextSays(v: Service, capacity: nat, step: Step, key: Directory) returns (more: seq<Note>)
    requires Inv(v, capacity)
    ensures Says(v, Next(v, capacity, step), key, more)
  {
    more := [];
    match step
    case Submit(directory, target, wait) =>
      more := Next(v, capacity, step).log[|v.log|..];
    case Take(target) =>
      if !v.queue.Halted() && v.queue.ready != [] {
        assert v.queue.ready[0] in v.queue.ready;
        TakeSays(v, capacity, target, key);
        var front := v.queue.ready[0];
        more := if Pop(v.queue, target).1.Some? then [Start(front)] else [Discard(front), Repair];
      }
    case Finish(item, changed) =>
      if item in v.held {
        FinishSays(v, capacity, item, changed, key);
        more := [Done(item.key, changed)];
      }
    case Close => more := [Halt];
    case Cancel => more := [Halt];
    case RequestRepair => more := [Repair];
    case TakeRepair =>
      if v.queue.repair { more := [RepairTaken]; }
  }

  lemma NextKeepsCounted(v: Service, capacity: nat, step: Step, key: Directory)
    requires Inv(v, capacity) && Counted(v, key)
    ensures Counted(Next(v, capacity, step), key)
  {
    var more := NextSays(v, capacity, step, key);
    TallySays(v.log, more, {Start(key)});
    TallySays(v.log, more, {Done(key, true), Done(key, false)});
    TallySays(v.log, more, {Accept(key)});
    TallySays(v.log, more, {Done(key, true)});
  }

  lemma {:induction false} RunKeepsCounted(v: Service, capacity: nat, steps: seq<Step>, key: Directory)
    requires Inv(v, capacity) && Counted(v, key)
    ensures Counted(Run(v, capacity, steps), key)
    decreases |steps|
  {
    if steps != [] {
      NextKeepsInv(v, capacity, steps[0]);
      NextKeepsCounted(v, capacity, steps[0], key);
      RunKeepsCounted(Next(v, capacity, steps[0]), capacity, steps[1..], key);
    }
  }

  // ---------------------------------------------------------------------------
  // Accepted work is served
  // ---------------------------------------------------------------------------

  /** `note` was logged after position `i`. */
  ghost predicate Since(log: seq<Note>, i: nat, note: Note) {
    exists j :: i < j < |log| && log[j] == note
  }

  /** An acceptance that no start and no repair has followed is still owed, unless the queue stopped. */
  ghost predicate Served(v: Service) {
    forall i :: 0 <= i < |v.log| && v.log[i].Accept? && !v.queue.Halted() ==>
      || v.queue.Owes(v.log[i].key)
      || Since(v.log, i, Start(v.log[i].key))
      || Since(v.log, i, Repair)
  }

  /** A repair request stays raised until the repair loop takes it. */
  ghost predicate RepairsHeard(v: Service) {
    forall i :: 0 <= i < |v.log| && v.log[i] == Repair ==> v.queue.repair || Since(v.log, i, RepairTaken)
  }

  lemma SinceGrows(log: seq<Note>, more: seq<Note>, i: nat, note: Note)
    requires Since(log, i, note) || (i < |log| && note in more)
    ensures Since(log + more, i, note)
  {
    if Since(log, i, note) {
      var j :| i < j < |log| && log[j] == note;
      assert (log + more)[j] == note;
    } else {
      var k :| 0 <= k < |more| && more[k] == note;
      assert (log + more)[|log| + k] == note;
    }
  }

  /** A step lets go of owed work only by starting it, by raising a repair or by stopping. */
  ghost predicate KeepsOwes(v: Service, w: Service, key: Directory, more: seq<Note>) {
    && w.log == v.log + more
    && (Accept(key) in more && !w.queue.Halted() ==> w.queue.Owes(key))
    && (!w.queue.Halted() && v.queue.Owes(key) ==> w.queue.Owes(key) || Start(key) in more || Repair in more)
    && (v.queue.Halted() ==> w.queue.Halted())
  }

  lemma TakeKeepsOwes(v: Service, capacity: nat, target: Option<Directory>, key: Directory)
    requires Inv(v, capacity) && !v.queue.Halted() && v.queue.ready != []
    ensures var front := v.queue.ready[0];
      KeepsOwes(v, Next(v, capacity, Take(target)), key,
        if Pop(v.queue, target).1.Some? then [Start(front)] else [Discard(front), Repair])
  {
    assert v.queue.ready[0] in v.queue.ready;
    assert Start(v.queue.ready[0]) in [Start(v.queue.ready[0])];
    assert Repair in [Discard(v.queue.ready[0]), Repair];
  }

  lemma NextKeepsOwes(v: Service, capacity: nat, step: Step, key: Directory) returns (more: seq<Note>)
    requires Inv(v, capacity)
    ensures KeepsOwes(v, Next(v, capacity, step), key, more)
  {
    more := [];
    match step
    case Submit(directory, target, wait) =>
      more := Next(v, capacity, step).log[|v.log|..];
    case Take(target) =>
      if !v.queue.Halted() && v.queue.ready != [] {
        assert v.queue.ready[0] in v.queue.ready;
        TakeKeepsOwes(v, capacity, target, key);
        var front := v.queue.ready[0];
        more := if Pop(v.queue, target).1.Some? then [Start(front)] else [Discard(front), Repair];
      }
    case Finish(item, changed) =>
      if item in v.held { more := [Done(item.key, changed)]; }
    case Close => more := [Halt];
    case Cancel => more := [Halt];
    case RequestRepair => more := [Repair];
    case TakeRepair =>
      if v.queue.repair { more := [RepairTaken]; }
  }

  lemma NextKeepsServed(v: Service, capacity: nat, step: Step)
    requires Inv(v, capacity) && Served(v)
    ensures Served(Next(v, capacity, step))
  {
    var w := Next(v, capacity, step);
    forall i | 0 <= i < |w.log| && w.log[i].Accept? && !w.queue.Halted()
      ensures w.queue.Owes(w.log[i].key) || Since(w.log, i, Start(w.log[i].key)) || Since(w.log, i, Repair)
    {
      var key := w.log[i].key;
      var more := NextKeepsOwes(v, capacity, step, key);
      if i < |v.log| {
        assert v.log[i] == w.log[i];
        assert !v.queue.Halted();
        if Since(v.log, i, Start(key)) || Start(key) in more {
          SinceGrows(v.log, more, i, Start(key));
        } else if Since(v.log, i, Repair) || Repair in more {
          SinceGrows(v.log, more, i, Repair);
        }
      } else {
        assert w.log[i] == more[i - |v.log|];
      }
    }
  }

  lemma NextKeepsRepairsHeard(v: Service, capacity: nat, step: Step)
    requires Inv(v, capacity) && RepairsHeard(v)
    ensures RepairsHeard(Next(v, capacity, step))
  {
    var w := Next(v, capacity, step);
    var more := w.log[|v.log|..];
    assert w.log == v.log + more;
    forall i | 0 <= i < |w.log| && w.log[i] == Repair
      ensures w.queue.repair || Since(w.log, i, RepairTaken)
    {
      if i < |v.log| {
        assert v.log[i] == Repair;
        if Since(v.log, i, RepairTaken) || RepairTaken in more {
          SinceGrows(v.log, more, i, RepairTaken);
        }
        assert step.TakeRepair? && v.queue.repair ==> more[0] == RepairTaken;
      } else {
        assert more[i - |v.log|] == Repair;
      }
    }
  }

  lemma {:induction false} RunKeepsServed(v: Service, capacity: nat, steps: seq<Step>)
    requires Inv(v, capacity) && Served(v) && RepairsHeard(v)
    ensures Served(Run(v, capacity, steps)) && RepairsHeard(Run(v, capacity, steps))
    decreases |steps|
  {
    if steps != [] {
      NextKeepsInv(v, capacity, steps[0]);
      NextKeepsServed(v, capacity, steps[0]);
      NextKeepsRepairsHeard(v, capacity, steps[0]);
      RunKeepsServed(Next(v, capacity, steps[0]), capacity, steps[1..]);
    }
  }

  // ---------------------------------------------------------------------------
  // Progress of one queued key
  // ---------------------------------------------------------------------------

  /** How many of the steps pop the front of the queue. */
  function Pops(v: Service, capacity: nat, steps: seq<Step>): nat
    decreases |steps|
  {
    if steps == [] then 0 else Pops1(v, steps[0]) + Pops(Next(v, capacity, steps[0]), capacity, steps[1..])
  }

  /** `key` left the queue after the first `n` notes: it was started, or discarded with a repair. */
  ghost predicate LeftSince(log: seq<Note>, n: nat, key: Directory) {
    exists j :: n <= j < |log| &&
      (log[j] == Start(key) || (log[j] == Discard(key) && j + 1 < |log| && log[j + 1] == Repair))
  }

  lemma NextExtendsLog(v: Service, capacity: nat, step: Step)
    ensures v.log <= Next(v, capacity, step).log
  {
  }

  lemma LogGrows(v: Service, capacity: nat, steps: seq<Step>)
    ensures v.log <= Run(v, capacity, steps).log
    decreases |steps|
  {
    hide Admit, Pop, Release, Shut;
    if steps != [] {
      LogGrows(Next(v, capacity, steps[0]), capacity, steps[1..]);
    }
  }

  lemma HaltedForGood(v: Service, capacity: nat, steps: seq<Step>)
    requires v.queue.Halted()
    ensures Run(v, capacity, steps).queue.Halted()
    decreases |steps|
  {
    if steps != [] {
      HaltedForGood(Next(v, capacity, steps[0]), capacity, steps[1..]);
    }
  }

  function Pops1(v: Service, step: Step): nat { if step.Take? && !v.queue.Halted() && v.queue.ready != [] then 1 else 0 }

  lemma NextMovesPlace(v: Service, capacity: nat, step: Step, place: nat)
    requires Inv(v, capacity) && place < |v.queue.ready|
    requires !Next(v, capacity, step).queue.Halted()
    ensures var u, key := Next(v, capacity, step), v.queue.ready[place];
      if place < Pops1(v, step) then
        u.log == v.log + [Start(key)] || u.log == v.log + [Discard(key), Repair]
      else
        place - Pops1(v, step) < |u.queue.ready| && u.queue.ready[place - Pops1(v, step)] == key
  {
    if step.Take? {
      assert v.queue.ready[0] in v.queue.ready;
    }
  }

  lemma LeftGrows(log: seq<Note>, more: seq<Note>, n: nat, m: nat, key: Directory)
    requires LeftSince(log, m, key) && n <= m && log <= more
    ensures LeftSince(more, n, key)
  {
    var j :| m <= j < |log| &&
      (log[j] == Start(key) || (log[j] == Discard(key) && j + 1 < |log| && log[j + 1] == Repair));
    assert more[j] == log[j] && (j + 1 < |log| ==> more[j + 1] == log[j + 1]);
  }

  /** Where a key that waited at `place` is after `pops` pops. */
  ghost predicate Advanced(v: Service, w: Service, place: nat, pops: nat)
    requires place < |v.queue.ready|
  {
    if pops <= place then
      place - pops < |w.queue.ready| && w.queue.ready[place - pops] == v.queue.ready[place]
    else
      LeftSince(w.log, |v.log|, v.queue.ready[place])
  }

  lemma AdvanceByOne(v: Service, w: Service, capacity: nat, step: Step, place: nat, pops: nat)
    requires Inv(v, capacity) && place < |v.queue.ready|
    requires !Next(v, capacity, step).queue.Halted()
    requires Next(v, capacity, step).log <= w.log
    requires var u := Next(v, capacity, step);
      Pops1(v, step) <= place ==>
        place - Pops1(v, step) < |u.queue.ready| && Advanced(u, w, place - Pops1(v, step), pops)
    ensures Advanced(v, w, place, Pops1(v, step) + pops)
  {
    var u, key := Next(v, capacity, step), v.queue.ready[place];
    NextMovesPlace(v, capacity, step, place);
    NextExtendsLog(v, capacity, step);
    if place < Pops1(v, step) {
      assert u.log[|v.log|] == Start(key) || (u.log[|v.log|] == Discard(key) && u.log[|v.log| + 1] == Repair);
      LeftGrows(u.log, w.log, |v.log|, |v.log|, key);
    } else if pops > place - Pops1(v, step) {
      LeftGrows(w.log, w.log, |v.log|, |u.log|, key);
    }
  }

  /** Each pop moves a waiting key one place forward, and nothing ever moves it back. */
  lemma {:induction false} WaitIsBounded(v: Service, capacity: nat, steps: seq<Step>, place: nat)
    requires Inv(v, capacity) && place < |v.queue.ready|
    requires !Run(v, capacity, steps).queue.Halted()
    ensures Advanced(v, Run(v, capacity, steps), place, Pops(v, capacity, steps))
    decreases |steps|
  {
    if steps != [] {
      var u := Next(v, capacity, steps[0]);
      if u.queue.Halted() {
        HaltedForGood(u, capacity, steps[1..]);
      }
      LogGrows(u, capacity, steps[1..]);
      NextMovesPlace(v, capacity, steps[0], place);
      if Pops1(v, steps[0]) <= place {
        NextKeepsInv(v, capacity, steps[0]);
        WaitIsBounded(u, capacity, steps[1..], place - Pops1(v, steps[0]));
      }
      AdvanceByOne(v, Run(u, capacity, steps[1..]), capacity, steps[0], place, Pops(u, capacity, steps[1..]));
    }
  }

  // ---------------------------------------------------------------------------
  // Coalescing
  // ---------------------------------------------------------------------------

  lemma NextDirties(v: Service, capacity: nat, step: Step, item: WorkItem) returns (notes: seq<Note>)
    requires Inv(v, capacity) && item in v.held
    requires forall changed :: step != Finish(item, changed)
    ensures var u := Next(v, capacity, step);
      && u.log == v.log + notes && item in u.held
      && (u.queue.IsDirty(item.key) <==> v.queue.IsDirty(item.key) || Accept(item.key) in notes)
  {
    var u := Next(v, capacity, step);
    notes := u.log[|v.log|..];
    assert v.queue.IsRunning(item.key);
    match step
    case Submit(directory, target, wait) =>
    case Take(target) =>
      if notes != [] {
        assert v.queue.ready[0] in v.queue.ready;
        assert v.queue.ready[0] != item.key;
        assert notes == [Start(v.queue.ready[0])] || notes == [Discard(v.queue.ready[0]), Repair];
      }
    case Finish(other, changed) =>
      assert other != item && (other in v.held ==> other.key != item.key);
    case Close =>
    case Cancel =>
    case RequestRepair =>
    case TakeRepair =>
  }

  /** While its worker keeps an item, its key is dirty exactly when work was accepted for it meanwhile. */
  lemma {:induction false} DirtyIsAccepted(v: Service, capacity: nat, steps: seq<Step>, item: WorkItem)
    requires Inv(v, capacity) && item in v.held
    requires forall i, changed :: 0 <= i < |steps| ==> steps[i] != Finish(item, changed)
    ensures var w := Run(v, capacity, steps);
      && v.log <= w.log && item in w.held && w.queue.IsRunning(item.key)
      && (w.queue.IsDirty(item.key) <==> v.queue.IsDirty(item.key) || Accept(item.key) in w.log[|v.log|..])
    decreases |steps|
  {
    if steps != [] {
      var u := Next(v, capacity, steps[0]);
      NextKeepsInv(v, capacity, steps[0]);
      var notes := NextDirties(v, capacity, steps[0], item);
      DirtyIsAccepted(u, capacity, steps[1..], item);
      var w := Run(u, capacity, steps[1..]);
      assert w.log[|v.log|..] == notes + w.log[|u.log|..];
    }
  }

  /** Any number of submissions to one running key add exactly one rerun, at the tail of the queue. */
  lemma RerunsCoalesce(v: Service, capacity: nat, steps: seq<Step>, item: WorkItem, changed: bool)
    requires Inv(v, capacity) && item in v.held && !v.queue.IsDirty(item.key)
    requires forall i, flag :: 0 <= i < |steps| ==> steps[i] != Finish(item, flag)
    ensures var w := Run(v, capacity, steps);
      var x := Next(w, capacity, Finish(item, changed));
      v.log <= w.log &&
      var again := !w.queue.Halted() && (changed || Accept(item.key) in w.log[|v.log|..]);
      && x.queue.ready == w.queue.ready + (if again then [item.key] else [])
      && (x.queue.IsQueued(item.key) <==> again)
      && item.key !in w.queue.ready
  {
    DirtyIsAccepted(v, capacity, steps, item);
    RunKeepsInv(v, capacity, steps);
    var w := Run(v, capacity, steps);
    assert item.key in w.queue.ready <==> w.queue.IsQueued(item.key);
  }

  /** The first `stale` keys no longer resolve to themselves, and the next one, if any, does. */
  ghost predicate StalePrefix(s: State, answers: (nat, Directory) -> Option<Directory>, asked: nat, stale: nat) {
    && stale <= |s.ready|
    && (forall i :: 0 <= i < |s.ready| ==> s.IsQueued(s.ready[i]))
    && (forall i :: 0 <= i < stale ==> answers(asked + i, s.entries[s.ready[i]].directory) != Some(s.ready[i]))
    && (stale < |s.ready| ==> answers(asked + stale, s.entries[s.ready[stale]].directory) == Some(s.ready[stale]))
  }

  lemma PopShortensStalePrefix(s: State, capacity: nat, answers: (nat, Directory) -> Option<Directory>, asked: nat,
    stale: nat)
    requires Valid(s, capacity) && StalePrefix(s, answers, asked, stale) && stale > 0
    ensures StalePrefix(Pop(s, answers(asked, s.entries[s.ready[0]].directory)).0, answers, asked + 1, stale - 1)
  {
    var t := Pop(s, answers(asked, s.entries[s.ready[0]].directory)).0;
    forall i | 0 <= i < |t.ready|
      ensures t.ready[i] == s.ready[i + 1] && t.IsQueued(t.ready[i]) && t.entries[t.ready[i]] == s.entries[s.ready[i + 1]]
    {
      assert s.ready[0] != s.ready[i + 1];
    }
    forall i | 0 <= i < stale - 1
      ensures answers(asked + 1 + i, t.entries[t.ready[i]].directory) != Some(t.ready[i])
    {
      assert answers(asked + (i + 1), s.entries[s.ready[i + 1]].directory) != Some(s.ready[i + 1]);
    }
  }

  /** `t` and `turn` are what remains when the first `stale` keys are dropped and the next one is taken. */
  ghost predicate Skipped(s: State, stale: nat, t: State, turn: Turn)
    requires stale <= |s.ready|
  {
    && t.repair == (s.repair || stale > 0)
    && (forall key :: key in t.entries <==> key in s.entries && key !in s.ready[..stale])
    && if stale == |s.ready| then t.ready == [] && turn == Waits else
         && t.ready == s.ready[stale + 1..]
         && s.IsQueued(s.ready[stale])
         && turn == Took(WorkItem(s.ready[stale], s.entries[s.ready[stale]].directory))
  }

  lemma SkipOne(s: State, capacity: nat, target: Option<Directory>, stale: nat, t: State, turn: Turn)
    requires Valid(s, capacity) && 0 < stale <= |s.ready| && target != Some(s.ready[0])
    requires forall i :: 0 <= i < |s.ready| ==> s.IsQueued(s.ready[i])
    requires Skipped(Pop(s, target).0, stale - 1, t, turn)
    ensures Skipped(s, stale, t, turn)
  {
    var u := Pop(s, target).0;
    assert s.ready[..stale] == [s.ready[0]] + u.ready[..stale - 1];
    if stale < |s.ready| {
      assert u.ready[stale - 1] == s.ready[stale] && s.ready[stale] != s.ready[0];
    }
  }

  lemma SkipNone(s: State, capacity: nat, answers: (nat, Directory) -> Option<Directory>, asked: nat)
    requires Valid(s, capacity) && !s.Halted() && StalePrefix(s, answers, asked, 0)
    ensures var (t, turn) := TakeTurn(s, capacity, answers, asked); Skipped(s, 0, t, turn)
  {
    if s.ready != [] {
      assert s.IsQueued(s.ready[0]);
      assert answers(asked + 0, s.entries[s.ready[0]].directory) == Some(s.ready[0]);
    }
  }

  /**
   `take` discards exactly the stale prefix, asking for repair if it is not empty, and takes the
   first key whose latest directory still resolves to it.
   */
  lemma {:induction false} TakeSkipsStaleRoutes(
    s: State, capacity: nat, answers: (nat, Directory) -> Option<Directory>, asked: nat, stale: nat, t: State,
    turn: Turn)
    requires Valid(s, capacity) && !s.Halted() && StalePrefix(s, answers, asked, stale)
    requires (t, turn) == TakeTurn(s, capacity, answers, asked)
    ensures Skipped(s, stale, t, turn)
    decreases stale
  {
    assert stale <= |s.ready|;
    hide Valid, StalePrefix, Skipped;
    if stale == 0 {
      SkipNone(s, capacity, answers, asked);
    } else {
      var target := TurnGoesOn(s, capacity, answers, asked, stale);
      TakeSkipsStaleRoutes(Pop(s, target).0, capacity, answers, asked + 1, stale - 1, t, turn);
      SkipOne(s, capacity, target, stale, t, turn);
    }
  }

  lemma TurnGoesOn(
    s: State, capacity: nat, answers: (nat, Directory) -> Option<Directory>, asked: nat, stale: nat)
    returns (target: Option<Directory>)
    requires Valid(s, capacity) && !s.Halted() && StalePrefix(s, answers, asked, stale) && stale > 0
    ensures s.IsQueued(s.ready[0]) && target != Some(s.ready[0])
    ensures var u := Pop(s, target).0;
      && Valid(u, capacity) && !u.Halted() && StalePrefix(u, answers, asked + 1, stale - 1)
      && TakeTurn(s, capacity, answers, asked) == TakeTurn(u, capacity, answers, asked + 1)
  {
    assert s.IsQueued(s.ready[0]);
    target := answers(asked, s.entries[s.ready[0]].directory);
    assert target == answers(asked + 0, s.entries[s.ready[0]].directory);
    PopKeepsValid(s, capacity, target);
    PopShortensStalePrefix(s, capacity, answers, asked, stale);
  }

  /** From a fresh queue, every interleaving keeps all of the above. */
  lemma EveryRunIsSound(capacity: nat, steps: seq<Step>)
    ensures var v := Run(Idle, capacity, steps);
      && Valid(v.queue, capacity) && Owned(v) && !v.panicked
      && Served(v) && RepairsHeard(v)
      && forall key :: Counted(v, key)
  {
    assert forall key :: !Idle.queue.IsQueued(key) && !Idle.queue.IsRunning(key);
    RunKeepsInv(Idle, capacity, steps);
    RunKeepsServed(Idle, capacity, steps);
    forall key ensures Counted(Run(Idle, capacity, steps), key) {
      RunKeepsCounted(Idle, capacity, steps, key);
    }
  }
}
