/**
 The bounded, coalescing directory queue (src/queue.rs).

 Every region that holds the queue's lock is one atomic step. What `canonicalize` answers during
 a step is a parameter of the step, so symbolic links may be retargeted between any two of them.
 */
module WorkQueues {
  import opened Basics

  datatype WorkItem = WorkItem(key: Directory, directory: Directory)

  datatype Entry = Queued(directory: Directory) | Running(directory: Directory, dirty: bool)

  datatype Admission = Accepted | Unavailable | Full | Stopped

  datatype State = State(
    ready: seq<Directory>,
    entries: map<Directory, Entry>,
    closed: bool,
    cancelled: bool,
    repair: bool)
  {
    predicate Halted() { closed || cancelled }

    predicate IsQueued(key: Directory) { key in entries && entries[key].Queued? }

    predicate IsRunning(key: Directory) { key in entries && entries[key].Running? }

    predicate IsDirty(key: Directory) { IsRunning(key) && entries[key].dirty }

    /** Work that a later start of `key` will serve. */
    predicate Owes(key: Directory) { IsQueued(key) || IsDirty(key) }
  }

  /** `ready` lists exactly the queued keys, once each, and the capacity bounds all entries. */
  ghost predicate Valid(s: State, capacity: nat) {
    && (forall i, j :: 0 <= i < j < |s.ready| ==> s.ready[i] != s.ready[j])
    && (forall key :: key in s.ready <==> s.IsQueued(key))
    && |s.entries| <= capacity
  }

  // ---------------------------------------------------------------------------
  // The lock-held regions
  // ---------------------------------------------------------------------------

  /** One turn of `submit` between two waits; no admission means that it waits for capacity. */
  function Admit(s: State, capacity: nat, directory: Directory, target: Option<Directory>, wait: bool)
    : (State, Option<Admission>)
  {
    if s.Halted() then (s, Some(Stopped))
    else if target.None? then (s, Some(Unavailable))
    else
      var key := target.value;
      if key in s.entries then
        var entry := if s.entries[key].Queued? then Queued(directory) else Running(directory, true);
        (s.(entries := s.entries[key := entry]), Some(Accepted))
      else if |s.entries| < capacity then
        (s.(entries := s.entries[key := Queued(directory)], ready := s.ready + [key]), Some(Accepted))
      else if !wait then (s.(repair := true), Some(Full))
      else (s, None)
  }

  /** One turn of `take` that finds a key: a stale route is discarded and asks for repair. */
  function Pop(s: State, target: Option<Directory>): (State, Option<WorkItem>)
    requires s.ready != [] && s.IsQueued(s.ready[0])
  {
    var key := s.ready[0];
    var directory := s.entries[key].directory;
    if target == Some(key) then
      (s.(ready := s.ready[1..], entries := s.entries[key := Running(directory, false)]),
       Some(WorkItem(key, directory)))
    else
      (s.(ready := s.ready[1..], entries := s.entries - {key}, repair := true), None)
  }

  function Release(s: State, key: Directory, changed: bool): State
    requires s.IsRunning(key)
  {
    var Running(directory, dirty) := s.entries[key];
    if !s.Halted() && (dirty || changed) then
      s.(entries := s.entries[key := Queued(directory)], ready := s.ready + [key])
    else
      s.(entries := s.entries - {key})
  }

  function Shut(s: State): State {
    s.(closed := true, ready := [], entries := map key | key in s.entries && s.entries[key].Running? :: s.entries[key])
  }

  lemma AdmitKeepsValid(s: State, capacity: nat, directory: Directory, target: Option<Directory>, wait: bool)
    requires Valid(s, capacity)
    ensures Valid(Admit(s, capacity, directory, target, wait).0, capacity)
  {
    var t := Admit(s, capacity, directory, target, wait).0;
    if t != s && target.Some? {
      var key := target.value;
      assert key in s.ready <==> s.IsQueued(key);
      if key in s.entries {
        assert t.entries.Keys == s.entries.Keys;
        assert |t.entries| == |t.entries.Keys| == |s.entries.Keys|;
      }
    }
  }

  lemma PopKeepsValid(s: State, capacity: nat, target: Option<Directory>)
    requires Valid(s, capacity) && s.ready != []
    ensures s.IsQueued(s.ready[0])
    ensures Valid(Pop(s, target).0, capacity)
  {
    var key := s.ready[0];
    assert key in s.ready;
    var t := Pop(s, target).0;
    assert s.ready == [key] + t.ready;
    assert key !in t.ready;
    assert forall k :: k in s.ready <==> k == key || k in t.ready;
    if target == Some(key) {
      assert t.entries.Keys == s.entries.Keys;
      assert |t.entries| == |t.entries.Keys| == |s.entries.Keys|;
    } else {
      assert t.entries.Keys == s.entries.Keys - {key};
    }
  }

  lemma ReleaseKeepsValid(s: State, capacity: nat, key: Directory, changed: bool)
    requires Valid(s, capacity) && s.IsRunning(key)
    ensures Valid(Release(s, key, changed), capacity)
  {
    var t := Release(s, key, changed);
    assert key !in s.ready;
    if key in t.entries {
      assert t.entries.Keys == s.entries.Keys;
      assert |t.entries| == |t.entries.Keys| == |s.entries.Keys|;
    } else {
      assert t.entries.Keys == s.entries.Keys - {key};
    }
  }

  lemma ShutKeepsValid(s: State, capacity: nat)
    requires Valid(s, capacity)
    ensures Valid(Shut(s), capacity)
    ensures forall key :: key in Shut(s).entries ==> Shut(s).IsRunning(key) && s.IsRunning(key)
  {
    var t := Shut(s);
    assert t.entries.Keys <= s.entries.Keys;
    SubsetSize(t.entries.Keys, s.entries.Keys);
    assert |t.entries| == |t.entries.Keys| && |s.entries| == |s.entries.Keys|;
  }

  lemma {:induction false} SubsetSize<T>(small: set<T>, big: set<T>)
    requires small <= big
    ensures |small| <= |big|
  {
    assert big == small + (big - small);
    assert |big| == |small| + |big - small|;
  }

  // ---------------------------------------------------------------------------
  // The object itself
  // ---------------------------------------------------------------------------

  datatype Turn = Ended | Waits | Took(item: WorkItem)

  /** What `take` does before it waits or returns; `answers` are the filesystem's successive replies. */
  function TakeTurn(s: State, capacity: nat, answers: (nat, Directory) -> Option<Directory>, asked: nat)
    : (r: (State, Turn))
    requires Valid(s, capacity)
    ensures Valid(r.0, capacity)
    decreases |s.ready|
  {
    if s.Halted() then (s, Ended)
    else if s.ready == [] then (s, Waits)
    else
      assert s.ready[0] in s.ready;
      var target := answers(asked, s.entries[s.ready[0]].directory);
      PopKeepsValid(s, capacity, target);
      var (t, item) := Pop(s, target);
      if item.Some? then (t, Took(item.value)) else TakeTurn(t, capacity, answers, asked + 1)
  }

  lemma HeadIsQueued(q: State, capacity: nat)
    requires Valid(q, capacity) && q.ready != []
    ensures q.ready[0] in q.entries && q.entries[q.ready[0]].Queued?
  {
    assert q.ready[0] in q.ready;
  }

  class WorkQueue {
    var ready: seq<Directory>
    var entries: map<Directory, Entry>
    var closed: bool
    var cancelled: bool
    var repair: bool
    const capacity: nat
    /** The reply of the filesystem to the n-th `canonicalize`, whatever happened in between. */
    const answers: (nat, Directory) -> Option<Directory>
    var asked: nat

    function Now(): State
      reads this
    {
      State(ready, entries, closed, cancelled, repair)
    }

    constructor (capacity: nat, answers: (nat, Directory) -> Option<Directory>)
      requires capacity > 0
      ensures Now() == State([], map[], false, false, false)
      ensures this.capacity == capacity && Valid(Now(), capacity)
    {
      this.capacity, this.answers, asked := capacity, answers, 0;
      ready, entries := [], map[];
      closed, cancelled, repair := false, false, false;
    }

    /** One turn of `submit`; on `None` the caller waits and enters again. */
    method Submit(directory: Directory, wait: bool) returns (admission: Option<Admission>)
      requires Valid(Now(), capacity)
      modifies this
      ensures (Now(), admission) == Admit(old(Now()), capacity, directory, answers(old(asked), directory), wait)
      ensures Valid(Now(), capacity) && asked == old(asked) + (if old(Now()).Halted() then 0 else 1)
      ensures wait ==> admission != Some(Full)
      ensures admission.None? ==> unchanged(`ready, `entries, `closed, `cancelled, `repair)
    {
      AdmitKeepsValid(Now(), capacity, directory, answers(asked, directory), wait);
      if closed || cancelled {
        return Some(Stopped);
      }
      var target := answers(asked, directory);
      asked := asked + 1;
      if target.None? {
        return Some(Unavailable);
      }
      var key := target.value;
      if key in entries {
        match entries[key] {
          case Queued(_) => entries := entries[key := Queued(directory)];
          case Running(_, _) => entries := entries[key := Running(directory, true)];
        }
        return Some(Accepted);
      }
      if |entries| < capacity {
        entries := entries[key := Queued(directory)];
        ready := ready + [key];
        return Some(Accepted);
      }
      if !wait {
        RequestRepair();
        return Some(Full);
      }
      return None;
    }

    method Take() returns (turn: Turn)
      requires Valid(Now(), capacity)
      modifies this
      ensures (Now(), turn) == TakeTurn(old(Now()), capacity, answers, old(asked))
      ensures Valid(Now(), capacity)
    {
      hide Valid, Admit, Release, Shut;
      while true
        invariant Valid(Now(), capacity)
        invariant TakeTurn(Now(), capacity, answers, asked) == TakeTurn(old(Now()), capacity, answers, old(asked))
        decreases |ready|
      {
        if closed || cancelled {
          return Ended;
        }
        if ready == [] {
          return Waits;
        }
        var key := ready[0];
        HeadIsQueued(Now(), capacity);
        if key !in entries || !entries[key].Queued? {
          assert false;
        }
        var directory := entries[key].directory;
        ghost var before, popped := Now(), Pop(Now(), answers(asked, directory));
        PopKeepsValid(before, capacity, answers(asked, directory));
        ready, entries := ready[1..], entries - {key};
        var current := answers(asked, directory);
        asked := asked + 1;
        if current != Some(key) {
          RequestRepair();
          assert Now() == popped.0;
        } else {
          entries := entries[key := Running(directory, false)];
          assert entries == before.entries[key := Running(directory, false)];
          return Took(WorkItem(key, directory));
        }
      }
    }

    method Finish(item: WorkItem, changed: bool)
      requires Valid(Now(), capacity) && Now().IsRunning(item.key)
      modifies this
      ensures Now() == Release(old(Now()), item.key, changed)
      ensures Valid(Now(), capacity)
    {
      ReleaseKeepsValid(Now(), capacity, item.key, changed);
      var Running(directory, dirty) := entries[item.key];
      entries := entries - {item.key};
      if !closed && !cancelled && (dirty || changed) {
        entries := entries[item.key := Queued(directory)];
        ready := ready + [item.key];
      }
    }

    method Close()
      requires Valid(Now(), capacity)
      modifies this
      ensures Now() == Shut(old(Now()))
      ensures Valid(Now(), capacity) && ready == []
    {
      ShutKeepsValid(Now(), capacity);
      closed := true;
      ready := [];
      entries := map key | key in entries && entries[key].Running? :: entries[key];
    }

    method RequestRepair()
      modifies `repair
      ensures Now() == old(Now()).(repair := true)
    {
      repair := true;
    }

    method TakeRepairRequest() returns (requested: bool)
      modifies `repair
      ensures requested == old(repair) && Now() == old(Now()).(repair := false)
    {
      requested := repair;
      repair := false;
    }
  }

  datatype Outcome = Retry | Complete | StaleRoute | Failed

  /** A worker's last duty for an item: a stale route asks for repair, and only `Retry` for a rerun. */
  method ProcessItem(queue: WorkQueue, item: WorkItem, outcome: Outcome)
    requires Valid(queue.Now(), queue.capacity) && queue.Now().IsRunning(item.key)
    modifies queue
    ensures Valid(queue.Now(), queue.capacity)
    ensures outcome.StaleRoute? ==> queue.repair
    ensures outcome.StaleRoute? && !old(queue.Now().IsDirty(item.key)) ==> item.key !in queue.entries
    ensures queue.Now() == Release(
      old(queue.Now()).(repair := old(queue.repair) || outcome.StaleRoute?), item.key, outcome.Retry?)
  {
    var changed;
    match outcome {
      case Retry => changed := true;
      case Complete => changed := false;
      case StaleRoute => queue.RequestRepair(); changed := false;
      case Failed => changed := false;
    }
    assert forall key :: queue.Now().IsQueued(key) <==> old(queue.Now()).IsQueued(key);
    queue.Finish(item, changed);
  }
}
