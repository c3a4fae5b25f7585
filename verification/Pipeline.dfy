/**
 From the native callback to a worker: every interleaving of the callback, the dispatcher, the repair
 loop and all users of the work queue (src/watch.rs, src/main.rs, src/queue.rs).
 */
module Pipeline {
  import opened Basics
  import opened WorkQueues
  import opened Watching
  import Q = QueueRuns

  /** A change in flight. `mark` is how much the queue had logged when the callback took it in. */
  datatype Event = Event(id: nat, mark: nat, change: Change)

  datatype Dispatcher =
    | Receiving
    | Holding(event: Event)
    | Sending(event: Event, tasks: seq<Task>, paths: seq<Path>)
    | Exited(why: Exit)

  /** Why the dispatcher left: it handled a lost watch, an invalidation failed, or the service stopped. */
  datatype Exit = OnLoss | OnFailure | OnStop

  datatype Repairer =
    | Sleeping
    | Raising(since: nat)
    | Scanning(since: nat, tree: seq<Directory>, targets: seq<Option<Directory>>)
    | Over

  /** A finished library scan: when its repair began, what it walked, and what each directory resolved to. */
  datatype Scan = Scan(since: nat, tree: seq<Directory>, targets: seq<Option<Directory>>)

  /** What the filesystem said when the turn of one path of an event came, and how much the queue had logged then. */
  datatype Fate = Fate(glance: Glance, target: Option<Directory>, at: nat)
  {
    /** The path is no eligible audio or lyric file. */
    predicate PassesOver(path: Path) { !glance.eligible || glance.directory || !Concerns(path) }
  }

  /** `lostAt` is how much the queue had logged when the watch was first known to be lost. */
  datatype System = System(
    service: Q.Service,
    capacity: nat,
    channel: seq<Event>,
    dispatcher: Dispatcher,
    repairer: Repairer,
    scans: seq<Scan>,
    watchLost: bool,
    lostAt: nat,
    received: set<Event>,
    nextId: nat,
    fates: map<(nat, Path), Fate>)
  {
    function Log(): seq<Q.Note> { service.log }

    predicate Halted() { service.queue.Halted() }

    function Does(step: Q.Step): System { this.(service := Q.Next(service, capacity, step)) }
  }

  function Start(capacity: nat): System {
    System(Q.Idle, capacity, [], Receiving, Sleeping, [], false, 0, {}, 0, map[])
  }

  datatype Step =
    | Callback(message: Message)
    | Receive
    | Invalidated(affected: seq<Path>, commit: bool)
    | SendPath(glance: Glance, tree: seq<Task>, target: Option<Directory>)
    | SendTask(target: Option<Directory>)
    | HandleLoss
    | LeaveOnStop
    | NoticeExit(fallback: bool)
    | BeginRepair(deadline: bool)
    | RaiseEpoch(commit: bool, library: seq<Directory>)
    | ScanOne(target: Option<Directory>)
    | Other(step: Q.Step)

  /** The native callback: a full channel asks for a repair, and a channel that nobody reads any more for nothing. */
  function Hear(v: System, message: Message): System {
    if message.LosesWatch() then v.(watchLost := true, lostAt := if v.watchLost then v.lostAt else |v.Log()|)
    else if !IsChange(message.kind) then v
    else
      var event := Event(v.nextId, |v.Log()|, Change(message.kind, message.paths));
      var w := v.(received := v.received + {event}, nextId := v.nextId + 1);
      if v.dispatcher.Exited? then w
      else if |v.channel| < CHANNEL then w.(channel := v.channel + [event])
      else w.Does(Q.RequestRepair)
  }

  /** The dispatcher deals with the next path of its event: a file's parent is submitted without waiting. */
  function SendNext(v: System, glance: Glance, tree: seq<Task>, target: Option<Directory>): System
    requires v.dispatcher.Sending? && v.dispatcher.tasks == [] && v.dispatcher.paths != []
  {
    var event, path, rest := v.dispatcher.event, v.dispatcher.paths[0], v.dispatcher.paths[1..];
    var fate := Fate(glance, target, |v.Log()|);
    var w := v.(fates := v.fates[(event.id, path) := fate]);
    if fate.PassesOver(path) then w.(dispatcher := Sending(event, TasksFor(event.change.kind, path, glance, tree), rest))
    else w.(dispatcher := Sending(event, [], rest)).Does(Q.Submit(path.parent, target, false))
  }

  /** The dispatcher leaves, and nobody reads its channel any more. */
  function Leave(v: System, why: Exit): System { v.(dispatcher := Exited(why), channel := []) }

  function Dispatch(v: System, step: Step): System {
    match (step, v.dispatcher)
    case (Receive, Receiving) =>
      if v.watchLost || v.Halted() || v.channel == [] then v
      else v.(channel := v.channel[1..], dispatcher := Holding(v.channel[0]))
    case (Invalidated(affected, commit), Holding(event)) =>
      if !MayRewrite(event.change.kind) then v.(dispatcher := Sending(event, [], event.change.paths))
      else if !commit then Leave(v, OnFailure)
      else if Named(event.change.paths) <= Named(affected) then v.(dispatcher := Sending(event, [], affected))
      else v
    case (SendPath(glance, tree, target), Sending(event, tasks, paths)) =>
      if tasks != [] then v
      else if paths == [] then v.(dispatcher := Receiving)
      else SendNext(v, glance, tree, target)
    case (SendTask(target), Sending(event, tasks, paths)) =>
      if tasks == [] then v
      else
        var w := v.(dispatcher := Sending(event, tasks[1..], paths));
        if tasks[0].Visit? then w.Does(Q.Submit(tasks[0].directory, target, false)) else w.Does(Q.RequestRepair)
    case (HandleLoss, Receiving) => if v.watchLost then Leave(v.Does(Q.RequestRepair), OnLoss) else v
    case (LeaveOnStop, Receiving) => if v.Halted() then Leave(v, OnStop) else v
    case _ => v
  }

  function Stop(v: System): System { v.Does(Q.Cancel).Does(Q.Close) }

  function Repair(v: System, step: Step): System {
    match (step, v.repairer)
    case (NoticeExit(fallback), Sleeping) =>
      if v.dispatcher.Exited? && !fallback then Stop(v).(repairer := Over) else v
    case (BeginRepair(deadline), Sleeping) =>
      if v.Halted() then v
      else if v.service.queue.repair || deadline then v.Does(Q.TakeRepair).(repairer := Raising(|v.Log()|))
      else v
    case (RaiseEpoch(commit, library), Raising(since)) =>
      if commit then v.(repairer := Scanning(since, library, [])) else Stop(v).(repairer := Over)
    case (ScanOne(target), Scanning(since, tree, targets)) =>
      if |targets| >= |tree| then v.(repairer := Sleeping, scans := v.scans + [Scan(since, tree, targets)])
      else
        var directory := tree[|targets|];
        var w := v.Does(Q.Submit(directory, target, true));
        var admission := Admit(v.service.queue, v.capacity, directory, target, true).1;
        if admission.None? then w
        else if admission == Some(Stopped) then w.(repairer := Sleeping)
        else w.(repairer := Scanning(since, tree, targets + [target]))
    case _ => v
  }

  function Next(v: System, step: Step): System {
    match step
    case Callback(message) => Hear(v, message)
    case Other(inner) => if inner.TakeRepair? then v else v.Does(inner)
    case NoticeExit(_) => Repair(v, step)
    case BeginRepair(_) => Repair(v, step)
    case RaiseEpoch(_, _) => Repair(v, step)
    case ScanOne(_) => Repair(v, step)
    case _ => Dispatch(v, step)
  }

  function Run(v: System, steps: seq<Step>): System
    decreases |steps|
  {
    if steps == [] then v else Next(Run(v, steps[..|steps| - 1]), steps[|steps| - 1])
  }

  // ---------------------------------------------------------------------------
  // Nothing is lost
  // ---------------------------------------------------------------------------

  ghost predicate RepairAfter(log: seq<Q.Note>, mark: nat) { exists i :: mark <= i < |log| && log[i] == Q.Repair }

  /** The look at the path found no eligible file, or no directory, or the queue accepted its directory. */
  ghost predicate FateStands(v: System, event: Event, path: Path) {
    (event.id, path) in v.fates &&
      var fate := v.fates[(event.id, path)];
      && event.mark <= fate.at
      && (|| fate.PassesOver(path)
          || fate.target.None?
          || (fate.at < |v.Log()| && v.Log()[fate.at] == Q.Accept(fate.target.value)))
  }

  /** The event has not been dealt with yet. */
  ghost predicate InFlight(v: System, event: Event, path: Path) {
    || Waits(v, event)
    || (v.dispatcher.Sending? && v.dispatcher.event == event && path in v.dispatcher.paths)
  }

  /** The event is in the channel or in the dispatcher's hand. */
  predicate Waits(v: System, event: Event) {
    event in v.channel || (v.dispatcher.Holding? && v.dispatcher.event == event)
  }

  /** Where a path of a received event is; what the dispatcher left behind has no fate. */
  ghost predicate Tracked(v: System, event: Event, path: Path) {
    || InFlight(v, event, path)
    || FateStands(v, event, path)
    || RepairAfter(v.Log(), event.mark)
    || v.Halted()
    || (v.dispatcher.Exited? && (event.id, path) !in v.fates)
  }

  ghost predicate Grounded(v: System) {
    && (forall event :: event in v.received ==> event.mark <= |v.Log()| && event.id < v.nextId)
    && (forall a, b :: a in v.received && b in v.received && a.id == b.id ==> a == b)
    && (forall id, path :: (id, path) in v.fates ==> id < v.nextId)
    && (forall event :: event in v.channel ==> event in v.received)
    && (forall i, j :: 0 <= i < j < |v.channel| ==> v.channel[i] != v.channel[j])
    && (forall event, path :: Waits(v, event) ==> (event.id, path) !in v.fates)
    && (v.dispatcher.Holding? || v.dispatcher.Sending? ==>
          v.dispatcher.event in v.received && v.dispatcher.event !in v.channel)
    && (v.dispatcher.Exited? ==> v.channel == [])
  }

  ghost predicate AllTracked(v: System) {
    forall event, path :: event in v.received && path in event.change.paths ==> Tracked(v, event, path)
  }

  /** The queue log only grows and a stopped queue stays stopped. */
  lemma DoesGrows(v: System, step: Q.Step)
    ensures var w := v.Does(step);
      && v.Log() <= w.Log() && (v.Halted() ==> w.Halted())
      && w == v.(service := w.service)
  {
  }

  lemma RepairIsHeard(v: System)
    ensures var w := v.Does(Q.RequestRepair); w.Log() == v.Log() + [Q.Repair]
    ensures forall mark: nat :: mark <= |v.Log()| ==> RepairAfter(v.Does(Q.RequestRepair).Log(), mark)
  {
    var w := v.Does(Q.RequestRepair);
    assert w.Log()[|v.Log()|] == Q.Repair;
  }

  /** Tracking survives a growing log, as long as flight and fates stay. */
  lemma TrackingLasts(v: System, w: System, event: Event, path: Path)
    requires Tracked(v, event, path) && v.Log() <= w.Log() && event.mark <= |v.Log()|
    requires InFlight(v, event, path) ==> Tracked(w, event, path)
    requires (event.id, path) in v.fates ==> (event.id, path) in w.fates && w.fates[(event.id, path)] == v.fates[(event.id, path)]
    requires (event.id, path) in w.fates ==> (event.id, path) in v.fates
    requires (v.Halted() ==> w.Halted()) && (v.dispatcher.Exited? ==> w.dispatcher.Exited?)
    ensures Tracked(w, event, path)
  {
    if RepairAfter(v.Log(), event.mark) {
      var i :| event.mark <= i < |v.Log()| && v.Log()[i] == Q.Repair;
      assert w.Log()[i] == Q.Repair;
    }
  }

  lemma HearKeepsGround(v: System, message: Message)
    requires Grounded(v)
    ensures Grounded(Hear(v, message))
  {
    DoesGrows(v, Q.RequestRepair);
    hide Q.Next;
  }

  lemma HearKeepsTracking(v: System, message: Message)
    requires Grounded(v) && AllTracked(v)
    ensures Grounded(Hear(v, message)) && AllTracked(Hear(v, message))
  {
    HearKeepsGround(v, message);
    var w := Hear(v, message);
    DoesGrows(v, Q.RequestRepair);
    RepairIsHeard(v);
    hide Q.Next, RepairAfter, FateStands;
    forall event, path | event in w.received && path in event.change.paths ensures Tracked(w, event, path) {
      if event in v.received {
        TrackingLasts(v, w, event, path);
      } else if !v.dispatcher.Exited? && |v.channel| < CHANNEL {
        assert event == w.channel[|v.channel|];
      }
    }
  }

  /** A step of the queue alone. */
  lemma DoesKeepsTracking(v: System, step: Q.Step)
    requires Grounded(v) && AllTracked(v)
    ensures Grounded(v.Does(step)) && AllTracked(v.Does(step))
  {
    DoesGrows(v, step);
    hide Q.Next;
    var w := v.Does(step);
    forall event, path | event in w.received && path in event.change.paths ensures Tracked(w, event, path) {
      TrackingLasts(v, w, event, path);
    }
  }

  /** What the queue says to a submission that does not wait. */
  lemma SubmitSays(v: System, path: Path, target: Option<Directory>)
    requires path.Path?
    ensures var w := v.Does(Q.Submit(path.parent, target, false));
      || (target.Some? && w.Log() == v.Log() + [Q.Accept(target.value)])
      || w.Log() == v.Log() + [Q.Repair]
      || (w.Log() == v.Log() && (target.None? || v.Halted()))
  {
  }

  lemma SubmissionKeepsTracking(v: System, glance: Glance, target: Option<Directory>)
    requires Grounded(v) && AllTracked(v)
    requires v.dispatcher.Sending? && v.dispatcher.tasks == [] && v.dispatcher.paths != []
    requires glance.eligible && !glance.directory && Concerns(v.dispatcher.paths[0])
    ensures Grounded(SendNext(v, glance, [], target)) && AllTracked(SendNext(v, glance, [], target))
  {
    var event, path, rest := v.dispatcher.event, v.dispatcher.paths[0], v.dispatcher.paths[1..];
    var u := v.(fates := v.fates[(event.id, path) := Fate(glance, target, |v.Log()|)], dispatcher := Sending(event, [], rest));
    var w := SendNext(v, glance, [], target);
    assert w == u.Does(Q.Submit(path.parent, target, false));
    DoesGrows(u, Q.Submit(path.parent, target, false));
    SubmitSays(u, path, target);
    assert v.dispatcher.paths == [path] + rest;
    hide Q.Next, SendNext;
    forall e, p | e in w.received && p in e.change.paths ensures Tracked(w, e, p) {
      if e == event && p == path {
        if w.Log() == v.Log() + [Q.Repair] {
          assert w.Log()[|v.Log()|] == Q.Repair;
        }
      } else {
        assert p in [path] + rest ==> p == path || p in rest;
        TrackingLasts(v, w, e, p);
      }
    }
  }

  lemma SendNextKeepsTracking(v: System, glance: Glance, tree: seq<Task>, target: Option<Directory>)
    requires Grounded(v) && AllTracked(v)
    requires v.dispatcher.Sending? && v.dispatcher.tasks == [] && v.dispatcher.paths != []
    ensures Grounded(SendNext(v, glance, tree, target)) && AllTracked(SendNext(v, glance, tree, target))
  {
    var event, path, rest := v.dispatcher.event, v.dispatcher.paths[0], v.dispatcher.paths[1..];
    if glance.eligible && !glance.directory && Concerns(path) {
      SubmissionKeepsTracking(v, glance, target);
      assert SendNext(v, glance, tree, target) == SendNext(v, glance, [], target);
    } else {
      var w := SendNext(v, glance, tree, target);
      assert v.dispatcher.paths == [path] + rest;
      forall e, p | e in w.received && p in e.change.paths ensures Tracked(w, e, p) {
        if e != event || p != path {
          TrackingLasts(v, w, e, p);
        }
      }
    }
  }

  lemma TasksAreAside(v: System, w: System)
    requires Grounded(v) && AllTracked(v) && v.dispatcher.Sending?
    requires w.dispatcher.Sending? && w == v.(dispatcher := v.dispatcher.(tasks := w.dispatcher.tasks))
    ensures Grounded(w) && AllTracked(w)
  {
    hide RepairAfter;
    forall e, p | e in w.received && p in e.change.paths ensures Tracked(w, e, p) {
      TrackingLasts(v, w, e, p);
    }
  }

  lemma SendTaskKeepsTracking(v: System, target: Option<Directory>)
    requires Grounded(v) && AllTracked(v) && v.dispatcher.Sending? && v.dispatcher.tasks != []
    ensures Grounded(Dispatch(v, SendTask(target))) && AllTracked(Dispatch(v, SendTask(target)))
  {
    hide Q.Next, Grounded, AllTracked, System.Does;
    var u := v.(dispatcher := Sending(v.dispatcher.event, v.dispatcher.tasks[1..], v.dispatcher.paths));
    TasksAreAside(v, u);
    var task := v.dispatcher.tasks[0];
    if task.Visit? {
      DoesKeepsTracking(u, Q.Submit(task.directory, target, false));
    } else {
      DoesKeepsTracking(u, Q.RequestRepair);
    }
  }

  lemma ReceiveKeepsTracking(v: System)
    requires Grounded(v) && AllTracked(v)
    ensures Grounded(Dispatch(v, Receive)) && AllTracked(Dispatch(v, Receive))
  {
    var w := Dispatch(v, Receive);
    if w != v {
      assert v.channel == [v.channel[0]] + v.channel[1..];
      forall e, p | e in w.received && p in e.change.paths ensures Tracked(w, e, p) {
        TrackingLasts(v, w, e, p);
      }
    }
  }

  lemma InvalidatedKeepsTracking(v: System, affected: seq<Path>, commit: bool)
    requires Grounded(v) && AllTracked(v)
    ensures var w := Dispatch(v, Invalidated(affected, commit)); Grounded(w) && AllTracked(w)
  {
    var w := Dispatch(v, Invalidated(affected, commit));
    if w != v && !w.dispatcher.Exited? {
      forall e, p | e in w.received && p in e.change.paths ensures Tracked(w, e, p) {
        assert p in Named(e.change.paths);
        assert p in Named(w.dispatcher.paths) <==> p in w.dispatcher.paths;
        TrackingLasts(v, w, e, p);
      }
    } else if w != v {
      LeavingKeepsTracking(v, OnFailure);
    }
  }

  /** What nobody will deal with any more has no fate. */
  lemma LeavingKeepsTracking(v: System, why: Exit)
    requires Grounded(v) && AllTracked(v) && !v.dispatcher.Sending?
    ensures Grounded(Leave(v, why)) && AllTracked(Leave(v, why))
  {
    var w := Leave(v, why);
    forall e, p | e in w.received && p in e.change.paths ensures Tracked(w, e, p) {
      assert Tracked(v, e, p);
    }
  }

  lemma DispatchKeepsTracking(v: System, step: Step)
    requires Grounded(v) && AllTracked(v)
    ensures Grounded(Dispatch(v, step)) && AllTracked(Dispatch(v, step))
  {
    match (step, v.dispatcher)
    case (Receive, Receiving) => ReceiveKeepsTracking(v);
    case (Invalidated(affected, commit), Holding(_)) => InvalidatedKeepsTracking(v, affected, commit);
    case (SendPath(glance, tree, target), Sending(event, tasks, paths)) =>
      if tasks == [] && paths != [] {
        SendNextKeepsTracking(v, glance, tree, target);
      } else if tasks == [] {
        IdleDispatcher(v, v.(dispatcher := Receiving));
      }
    case (SendTask(target), Sending(event, tasks, paths)) =>
      if tasks != [] { SendTaskKeepsTracking(v, target); }
    case (HandleLoss, Receiving) => if v.watchLost { LossKeepsTracking(v); }
    case (LeaveOnStop, Receiving) => if v.Halted() { LeavingKeepsTracking(v, OnStop); }
    case _ =>
  }

  lemma LossKeepsTracking(v: System)
    requires Grounded(v) && AllTracked(v) && v.watchLost && v.dispatcher == Receiving
    ensures Grounded(Dispatch(v, HandleLoss)) && AllTracked(Dispatch(v, HandleLoss))
  {
    DoesKeepsTracking(v, Q.RequestRepair);
    hide Q.Next, Grounded, AllTracked;
    LeavingKeepsTracking(v.Does(Q.RequestRepair), OnLoss);
  }

  lemma IdleDispatcher(v: System, w: System)
    requires Grounded(v) && AllTracked(v) && w == v.(dispatcher := w.dispatcher)
    requires v.dispatcher.Receiving? || (v.dispatcher.Sending? && v.dispatcher.paths == [])
    requires w.dispatcher.Receiving?
    ensures Grounded(w) && AllTracked(w)
  {
    forall e, p | e in w.received && p in e.change.paths ensures Tracked(w, e, p) {
      TrackingLasts(v, w, e, p);
    }
  }

  /** The repair loop works through the queue alone. */
  lemma RepairKeepsTracking(v: System, step: Step)
    requires Grounded(v) && AllTracked(v)
    ensures Grounded(Repair(v, step)) && AllTracked(Repair(v, step))
  {
    var w := Repair(v, step);
    hide Q.Next, Admit, Grounded, AllTracked;
    var u := v;
    match (step, v.repairer) {
      case (BeginRepair(_), Sleeping) =>
        if w != v {
          DoesKeepsTracking(v, Q.TakeRepair);
          u := v.Does(Q.TakeRepair);
        }
      case (ScanOne(target), Scanning(_, tree, targets)) =>
        if |targets| < |tree| {
          DoesKeepsTracking(v, Q.Submit(tree[|targets|], target, true));
          u := v.Does(Q.Submit(tree[|targets|], target, true));
        }
      case _ =>
        if w.repairer.Over? && w != v {
          DoesKeepsTracking(v, Q.Cancel);
          DoesKeepsTracking(v.Does(Q.Cancel), Q.Close);
          u := Stop(v);
        }
    }
    RepairerIsAside(u, w);
  }

  lemma RepairerIsAside(v: System, w: System)
    requires w == v.(repairer := w.repairer, scans := w.scans) && Grounded(v) && AllTracked(v)
    ensures Grounded(w) && AllTracked(w)
  {
    forall e, p | e in w.received && p in e.change.paths ensures Tracked(w, e, p) {
      assert Tracked(v, e, p);
    }
  }

  lemma NextKeepsTracking(v: System, step: Step)
    requires Grounded(v) && AllTracked(v)
    ensures Grounded(Next(v, step)) && AllTracked(Next(v, step))
  {
    hide Dispatch, Repair, Hear, Grounded, AllTracked;
    match step
    case Callback(message) => HearKeepsTracking(v, message);
    case Other(inner) => if !inner.TakeRepair? { DoesKeepsTracking(v, inner); }
    case NoticeExit(_) => RepairKeepsTracking(v, step);
    case BeginRepair(_) => RepairKeepsTracking(v, step);
    case RaiseEpoch(_, _) => RepairKeepsTracking(v, step);
    case ScanOne(_) => RepairKeepsTracking(v, step);
    case _ => DispatchKeepsTracking(v, step);
  }

  // ---------------------------------------------------------------------------
  // The queue inside keeps its own promises
  // ---------------------------------------------------------------------------

  ghost predicate QueueSound(service: Q.Service, capacity: nat) {
    Q.Inv(service, capacity) && Q.Served(service) && Q.RepairsHeard(service)
  }

  lemma QueueStepSound(service: Q.Service, capacity: nat, step: Q.Step)
    requires QueueSound(service, capacity)
    ensures QueueSound(Q.Next(service, capacity, step), capacity)
  {
    Q.NextKeepsInv(service, capacity, step);
    Q.NextKeepsServed(service, capacity, step);
    Q.NextKeepsRepairsHeard(service, capacity, step);
  }

  /** Every step serves the queue with at most one queue step, or stops it; what is settled stays. */
  ghost predicate Serves(v: System, w: System) {
    && w.capacity == v.capacity && v.Log() <= w.Log() && (v.Halted() ==> w.Halted())
    && (v.watchLost ==> w.watchLost && w.lostAt == v.lostAt) && (v.dispatcher.Exited? ==> w.dispatcher == v.dispatcher)
    && v.received <= w.received && v.fates.Keys <= w.fates.Keys && v.scans <= w.scans
    && (QueueSound(v.service, v.capacity) ==> QueueSound(w.service, w.capacity))
  }

  lemma DoesServes(v: System, step: Q.Step)
    ensures Serves(v, v.Does(step))
  {
    DoesGrows(v, step);
    hide Q.Next;
    if QueueSound(v.service, v.capacity) { QueueStepSound(v.service, v.capacity, step); }
  }

  lemma SendNextServes(v: System, glance: Glance, tree: seq<Task>, target: Option<Directory>)
    requires v.dispatcher.Sending? && v.dispatcher.tasks == [] && v.dispatcher.paths != []
    ensures Serves(v, SendNext(v, glance, tree, target))
  {
    var event, path, rest := v.dispatcher.event, v.dispatcher.paths[0], v.dispatcher.paths[1..];
    if glance.eligible && !glance.directory && Concerns(path) {
      DoesServes(v.(fates := v.fates[(event.id, path) := Fate(glance, target, |v.Log()|)], dispatcher := Sending(event, [], rest)),
        Q.Submit(path.parent, target, false));
    }
    hide Q.Next, QueueSound;
  }

  lemma DispatchServes(v: System, step: Step)
    ensures Serves(v, Dispatch(v, step))
  {
    DoesServes(v, Q.RequestRepair);
    hide Q.Next, QueueSound, SendNext;
    match (step, v.dispatcher)
    case (SendPath(glance, tree, target), Sending(event, tasks, paths)) =>
      if tasks == [] && paths != [] {
        SendNextServes(v, glance, tree, target);
      }
    case (SendTask(target), Sending(event, tasks, paths)) =>
      if tasks != [] && tasks[0].Visit? {
        DoesServes(v, Q.Submit(tasks[0].directory, target, false));
      }
    case _ =>
  }

  lemma RepairServes(v: System, step: Step)
    ensures Serves(v, Repair(v, step))
  {
    DoesServes(v, Q.TakeRepair);
    DoesServes(v, Q.Cancel);
    DoesServes(v.Does(Q.Cancel), Q.Close);
    hide Q.Next, QueueSound, Admit;
    if step.ScanOne? && v.repairer.Scanning? && |v.repairer.targets| < |v.repairer.tree| {
      DoesServes(v, Q.Submit(v.repairer.tree[|v.repairer.targets|], step.target, true));
    }
  }

  lemma NextServes(v: System, step: Step)
    ensures Serves(v, Next(v, step))
  {
    hide Q.Next, QueueSound, Dispatch, Repair;
    match step
    case Callback(_) => DoesServes(v, Q.RequestRepair);
    case Other(inner) => DoesServes(v, inner);
    case NoticeExit(_) => RepairServes(v, step);
    case BeginRepair(_) => RepairServes(v, step);
    case RaiseEpoch(_, _) => RepairServes(v, step);
    case ScanOne(_) => RepairServes(v, step);
    case _ => DispatchServes(v, step);
  }

  // ---------------------------------------------------------------------------
  // Repairs reach the whole library
  // ---------------------------------------------------------------------------

  ghost predicate AcceptedSince(log: seq<Q.Note>, since: nat, key: Directory) {
    exists i :: since <= i < |log| && log[i] == Q.Accept(key)
  }

  /** Each of these directories that resolved was accepted since. */
  ghost predicate AllAccepted(log: seq<Q.Note>, since: nat, targets: seq<Option<Directory>>) {
    forall k :: 0 <= k < |targets| && targets[k].Some? ==> AcceptedSince(log, since, targets[k].value)
  }

  /** The repair that took the request at `i` is at work, or it has scanned the library. */
  ghost predicate Answered(v: System, i: nat) {
    || ((v.repairer.Raising? || v.repairer.Scanning?) && v.repairer.since == i)
    || (exists k :: 0 <= k < |v.scans| && v.scans[k].since == i)
  }

  /** Scans have submitted what they passed, and every repair request that was taken is answered or the service stopped. */
  ghost predicate ScanSound(v: System) {
    && (v.repairer.Raising? || v.repairer.Scanning? ==> v.repairer.since <= |v.Log()|)
    && (v.repairer.Scanning? ==>
          |v.repairer.targets| <= |v.repairer.tree| && AllAccepted(v.Log(), v.repairer.since, v.repairer.targets))
    && (forall k :: 0 <= k < |v.scans| ==>
          |v.scans[k].targets| == |v.scans[k].tree| && AllAccepted(v.Log(), v.scans[k].since, v.scans[k].targets))
    && (forall i :: 0 <= i < |v.Log()| && v.Log()[i] == Q.RepairTaken ==> v.Halted() || Answered(v, i))
  }

  lemma AcceptancesLast(log: seq<Q.Note>, more: seq<Q.Note>)
    requires log <= more
    ensures forall since: nat, targets :: AllAccepted(log, since, targets) ==> AllAccepted(more, since, targets)
  {
    forall since: nat, targets: seq<Option<Directory>> | AllAccepted(log, since, targets)
      ensures AllAccepted(more, since, targets)
    {
      forall k | 0 <= k < |targets| && targets[k].Some? ensures AcceptedSince(more, since, targets[k].value) {
        var i :| since <= i < |log| && log[i] == Q.Accept(targets[k].value);
        assert more[i] == Q.Accept(targets[k].value);
      }
    }
  }

  /** No step of the queue but the taking of the request says that it was taken. */
  lemma OnlyTakingTakes(v: System, step: Q.Step)
    requires !step.TakeRepair?
    ensures forall i :: |v.Log()| <= i < |v.Does(step).Log()| ==> v.Does(step).Log()[i] != Q.RepairTaken
  {
    hide Admit, Pop, Release, Shut;
  }

  /** A step that says nothing about repairs and leaves the repair loop alone. */
  lemma ScanStays(v: System, w: System)
    requires ScanSound(v) && v.Log() <= w.Log() && (v.Halted() ==> w.Halted())
    requires w.repairer == v.repairer && w.scans == v.scans
    requires forall i :: |v.Log()| <= i < |w.Log()| ==> w.Log()[i] != Q.RepairTaken
    ensures ScanSound(w)
  {
    AcceptancesLast(v.Log(), w.Log());
    hide AllAccepted;
    forall i | 0 <= i < |w.Log()| && w.Log()[i] == Q.RepairTaken ensures w.Halted() || Answered(w, i) {
      assert v.Log()[i] == Q.RepairTaken;
    }
  }

  lemma DoesKeepsScan(v: System, step: Q.Step)
    requires ScanSound(v) && !step.TakeRepair?
    ensures ScanSound(v.Does(step))
  {
    DoesGrows(v, step);
    OnlyTakingTakes(v, step);
    hide Q.Next, ScanSound;
    ScanStays(v, v.Does(step));
  }

  lemma SameScan(v: System, w: System)
    requires ScanSound(v) && w.service == v.service && w.repairer == v.repairer && w.scans == v.scans
    ensures ScanSound(w)
  {
    hide AllAccepted;
    assert forall i: nat :: Answered(w, i) == Answered(v, i);
  }

  lemma BeginKeepsScan(v: System, deadline: bool)
    requires ScanSound(v) && v.repairer.Sleeping?
    ensures ScanSound(Repair(v, BeginRepair(deadline)))
  {
    var w := Repair(v, BeginRepair(deadline));
    if w != v {
      assert w.Log() == v.Log() || w.Log() == v.Log() + [Q.RepairTaken];
      AcceptancesLast(v.Log(), w.Log());
      hide AllAccepted;
      forall i | 0 <= i < |w.Log()| && w.Log()[i] == Q.RepairTaken ensures w.Halted() || Answered(w, i) {
        if i < |v.Log()| { assert v.Log()[i] == Q.RepairTaken; }
      }
    }
  }

  lemma StopKeepsScan(v: System)
    requires ScanSound(v)
    ensures ScanSound(Stop(v)) && Stop(v).Halted()
  {
    DoesKeepsScan(v, Q.Cancel);
    DoesKeepsScan(v.Does(Q.Cancel), Q.Close);
    hide ScanSound;
  }

  /** Where the service has stopped, the loop may end. */
  lemma EndKeepsScan(v: System, w: System)
    requires ScanSound(v) && v.Halted() && w == v.(repairer := w.repairer) && (w.repairer.Over? || w.repairer.Sleeping?)
    ensures ScanSound(w)
  {
    hide AllAccepted;
  }

  lemma RaiseKeepsScan(v: System, library: seq<Directory>)
    requires ScanSound(v) && v.repairer.Raising?
    ensures ScanSound(v.(repairer := Scanning(v.repairer.since, library, [])))
  {
    var w := v.(repairer := Scanning(v.repairer.since, library, []));
    forall i | 0 <= i < |w.Log()| && w.Log()[i] == Q.RepairTaken ensures w.Halted() || Answered(w, i) {
      assert v.Halted() || Answered(v, i);
    }
  }

  lemma FinishKeepsScan(v: System)
    requires ScanSound(v) && v.repairer.Scanning? && |v.repairer.targets| >= |v.repairer.tree|
    ensures ScanSound(Repair(v, ScanOne(None)))
  {
    var Scanning(since, tree, targets) := v.repairer;
    var w := v.(repairer := Sleeping, scans := v.scans + [Scan(since, tree, targets)]);
    assert w.scans[|v.scans|] == Scan(since, tree, targets);
    forall i | 0 <= i < |w.Log()| && w.Log()[i] == Q.RepairTaken ensures w.Halted() || Answered(w, i) {
      if !v.Halted() && !(v.repairer.since == i) {
        assert Answered(v, i);
        var k :| 0 <= k < |v.scans| && v.scans[k].since == i;
        assert w.scans[k].since == i;
      }
    }
  }

  lemma ScanGoesOn(v: System, target: Option<Directory>)
    requires ScanSound(v) && v.repairer.Scanning? && |v.repairer.targets| < |v.repairer.tree|
    requires Q.Inv(v.service, v.capacity)
    ensures ScanSound(Repair(v, ScanOne(target)))
  {
    var Scanning(since, tree, targets) := v.repairer;
    var submit := Q.Submit(tree[|targets|], target, true);
    var w := Repair(v, ScanOne(target));
    DoesKeepsScan(v, submit);
    var u := v.Does(submit);
    if w.repairer.Sleeping? {
      EndKeepsScan(u, w);
    } else if w.repairer != v.repairer {
      if target.Some? {
        assert w.Log()[|v.Log()|] == Q.Accept(target.value);
        assert AcceptedSince(w.Log(), since, target.value);
      }
      hide Q.Next, Admit, AcceptedSince;
      TargetAdded(u, w, since, tree, targets, target);
    }
  }

  lemma TargetAdded(v: System, w: System, since: nat, tree: seq<Directory>, targets: seq<Option<Directory>>,
    target: Option<Directory>)
    requires ScanSound(v) && v.repairer == Scanning(since, tree, targets) && |targets| < |tree|
    requires w == v.(repairer := Scanning(since, tree, targets + [target]))
    requires target.Some? ==> AcceptedSince(v.Log(), since, target.value)
    ensures ScanSound(w)
  {
    hide AcceptedSince;
    forall i | 0 <= i < |w.Log()| && w.Log()[i] == Q.RepairTaken ensures w.Halted() || Answered(w, i) {
      assert v.Halted() || Answered(v, i);
    }
  }

  lemma RepairKeepsScan(v: System, step: Step)
    requires ScanSound(v) && Q.Inv(v.service, v.capacity)
    ensures ScanSound(Repair(v, step))
  {
    hide Q.Next, Admit, ScanSound;
    match (step, v.repairer)
    case (NoticeExit(fallback), Sleeping) =>
      if v.dispatcher.Exited? && !fallback {
        StopKeepsScan(v);
        EndKeepsScan(Stop(v), Stop(v).(repairer := Over));
      }
    case (BeginRepair(deadline), Sleeping) => BeginKeepsScan(v, deadline);
    case (RaiseEpoch(commit, library), Raising(since)) =>
      if commit {
        RaiseKeepsScan(v, library);
      } else {
        StopKeepsScan(v);
        EndKeepsScan(Stop(v), Stop(v).(repairer := Over));
      }
    case (ScanOne(target), Scanning(since, tree, targets)) =>
      if |targets| >= |tree| {
        FinishKeepsScan(v);
        assert Repair(v, ScanOne(None)) == Repair(v, ScanOne(target));
      } else {
        ScanGoesOn(v, target);
      }
    case _ =>
  }

  /** The callback and the dispatcher only submit and ask for repair. */
  lemma DispatchKeepsScan(v: System, step: Step)
    requires ScanSound(v)
    ensures ScanSound(Dispatch(v, step))
  {
    var w := Dispatch(v, step);
    hide Q.Next, ScanSound;
    var u := v;
    match (step, v.dispatcher) {
      case (SendPath(glance, tree, target), Sending(event, tasks, paths)) =>
        if tasks == [] && paths != [] && glance.eligible && !glance.directory && Concerns(paths[0]) {
          DoesKeepsScan(v, Q.Submit(paths[0].parent, target, false));
          u := v.Does(Q.Submit(paths[0].parent, target, false));
        }
      case (SendTask(target), Sending(event, tasks, paths)) =>
        if tasks != [] && tasks[0].Visit? {
          DoesKeepsScan(v, Q.Submit(tasks[0].directory, target, false));
          u := v.Does(Q.Submit(tasks[0].directory, target, false));
        } else if tasks != [] {
          DoesKeepsScan(v, Q.RequestRepair);
          u := v.Does(Q.RequestRepair);
        }
      case (HandleLoss, Receiving) =>
        if v.watchLost {
          DoesKeepsScan(v, Q.RequestRepair);
          u := v.Does(Q.RequestRepair);
        }
      case _ =>
    }
    SameScan(u, w);
  }

  lemma NextKeepsScan(v: System, step: Step)
    requires ScanSound(v) && Q.Inv(v.service, v.capacity)
    ensures ScanSound(Next(v, step))
  {
    hide Q.Next, ScanSound, Dispatch, Repair, Q.Inv;
    match step
    case Callback(_) =>
      DoesKeepsScan(v, Q.RequestRepair);
      SameScan(if Next(v, step).service == v.service then v else v.Does(Q.RequestRepair), Next(v, step));
    case Other(inner) => if !inner.TakeRepair? { DoesKeepsScan(v, inner); }
    case NoticeExit(_) => RepairKeepsScan(v, step);
    case BeginRepair(_) => RepairKeepsScan(v, step);
    case RaiseEpoch(_, _) => RepairKeepsScan(v, step);
    case ScanOne(_) => RepairKeepsScan(v, step);
    case _ => DispatchKeepsScan(v, step);
  }

  // ---------------------------------------------------------------------------
  // Lost watches
  // ---------------------------------------------------------------------------

  /** A dispatcher that left for a lost watch has asked for a repair since, and one that left for a stop was stopped. */
  ghost predicate LossSound(v: System) {
    && (v.watchLost ==> v.lostAt <= |v.Log()|)
    && (v.dispatcher == Exited(OnLoss) ==> v.watchLost && RepairAfter(v.Log(), v.lostAt))
    && (v.dispatcher == Exited(OnStop) ==> v.Halted())
  }

  lemma LossStays(v: System, w: System)
    requires LossSound(v) && Serves(v, w) && (w.watchLost ==> v.watchLost || w.lostAt <= |w.Log()|)
    requires w.dispatcher == Exited(OnLoss) || w.dispatcher == Exited(OnStop) ==> w.dispatcher == v.dispatcher
    ensures LossSound(w)
  {
    hide QueueSound;
    if w.dispatcher == Exited(OnLoss) {
      var i :| v.lostAt <= i < |v.Log()| && v.Log()[i] == Q.Repair;
      assert w.Log()[i] == Q.Repair;
    }
  }

  lemma NextKeepsLoss(v: System, step: Step)
    requires LossSound(v)
    ensures LossSound(Next(v, step))
  {
    NextServes(v, step);
    RepairIsHeard(v);
    if v.dispatcher.Receiving? && (step.HandleLoss? || step.LeaveOnStop?) {
      hide Q.Next, RepairAfter, QueueSound;
    } else {
      LossMoves(v, step);
      hide Next, Serves, LossSound;
      LossStays(v, Next(v, step));
    }
  }

  lemma LossMoves(v: System, step: Step)
    requires !(v.dispatcher.Receiving? && (step.HandleLoss? || step.LeaveOnStop?))
    ensures var w := Next(v, step);
      && (w.watchLost ==> v.watchLost || w.lostAt <= |w.Log()|)
      && (w.dispatcher == Exited(OnLoss) || w.dispatcher == Exited(OnStop) ==> w.dispatcher == v.dispatcher)
  {
    hide Q.Next;
  }

  // ---------------------------------------------------------------------------
  // Whole runs
  // ---------------------------------------------------------------------------

  ghost predicate Sound(v: System) {
    Grounded(v) && AllTracked(v) && QueueSound(v.service, v.capacity) && ScanSound(v) && LossSound(v)
  }

  lemma NextKeepsSound(v: System, step: Step)
    requires Sound(v)
    ensures Sound(Next(v, step)) && Serves(v, Next(v, step))
  {
    NextKeepsTracking(v, step);
    NextServes(v, step);
    NextKeepsScan(v, step);
    NextKeepsLoss(v, step);
    hide Next, Grounded, AllTracked, QueueSound, ScanSound, LossSound;
  }

  lemma ServesOn(v: System, w: System, x: System)
    requires Serves(v, w) && Serves(w, x)
    ensures Serves(v, x)
  {
    hide QueueSound;
  }

  /** From a sound state every run keeps it, and whatever is settled on the way stays settled. */
  lemma {:induction false} RunKeepsSound(v: System, steps: seq<Step>, k: nat)
    requires Sound(v) && k <= |steps|
    ensures Sound(Run(v, steps)) && Serves(Run(v, steps[..k]), Run(v, steps))
    decreases |steps|
  {
    hide Sound, Serves, Next;
    var n := |steps|;
    if n > 0 {
      var u := Run(v, steps[..n - 1]);
      RunKeepsSound(v, steps[..n - 1], if k < n then k else n - 1);
      NextKeepsSound(u, steps[n - 1]);
      if k < n {
        assert steps[..n - 1][..k] == steps[..k];
        ServesOn(Run(v, steps[..k]), u, Run(v, steps));
      }
    }
    if k == n {
      assert steps[..k] == steps;
      NothingServes(Run(v, steps));
    }
  }

  lemma NothingServes(v: System)
    ensures Serves(v, v)
  {
  }

  lemma StartIsSound(capacity: nat)
    ensures Sound(Start(capacity))
  {
    assert forall key :: !Q.Idle.queue.IsQueued(key) && !Q.Idle.queue.IsRunning(key);
  }

  /** The state before step `k` of a run. */
  function Before(capacity: nat, steps: seq<Step>, k: nat): System
    requires k <= |steps|
  {
    Run(Start(capacity), steps[..k])
  }

  lemma SameBefore(capacity: nat, steps: seq<Step>, k: nat)
    requires |steps| > 0 && k < |steps|
    ensures Before(capacity, steps[..|steps| - 1], k) == Before(capacity, steps, k)
  {
    assert steps[..|steps| - 1][..k] == steps[..k];
  }

  /** At step `k` of the run the filesystem was asked about this path of the event and gave this answer. */
  ghost predicate AskedAt(capacity: nat, steps: seq<Step>, k: nat, id: nat, path: Path, fate: Fate) {
    && k < |steps| && steps[k].SendPath? && steps[k].glance == fate.glance && steps[k].target == fate.target
    && var u := Before(capacity, steps, k);
       && u.dispatcher.Sending? && u.dispatcher.tasks == [] && u.dispatcher.event.id == id
       && u.dispatcher.paths != [] && u.dispatcher.paths[0] == path && |u.Log()| == fate.at
  }

  /** Every fate is an answer that the filesystem gave when the path's turn came. */
  lemma {:induction false} FatesAreAnswers(capacity: nat, steps: seq<Step>, id: nat, path: Path) returns (k: nat)
    requires (id, path) in Run(Start(capacity), steps).fates
    ensures AskedAt(capacity, steps, k, id, path, Run(Start(capacity), steps).fates[(id, path)])
    decreases |steps|
  {
    var n := |steps| - 1;
    var u := Run(Start(capacity), steps[..n]);
    FateIsNew(u, steps[n], id, path);
    if (id, path) in u.fates && u.fates[(id, path)] == Next(u, steps[n]).fates[(id, path)] {
      k := FatesAreAnswers(capacity, steps[..n], id, path);
      SameBefore(capacity, steps, k);
    } else {
      k := n;
    }
    hide Run, Next;
  }

  lemma FateIsNew(v: System, step: Step, id: nat, path: Path)
    requires (id, path) in Next(v, step).fates
    ensures || ((id, path) in v.fates && v.fates[(id, path)] == Next(v, step).fates[(id, path)])
      || (&& step.SendPath? && v.dispatcher.Sending? && v.dispatcher.tasks == [] && v.dispatcher.event.id == id
          && v.dispatcher.paths != [] && v.dispatcher.paths[0] == path
          && Next(v, step).fates[(id, path)] == Fate(step.glance, step.target, |v.Log()|))
  {
    hide Q.Next, Admit;
  }

  // ---------------------------------------------------------------------------
  // No change is lost
  // ---------------------------------------------------------------------------

  /** The directory of an admitted path is queued, runs dirty, was started again, or a repair followed. */
  ghost predicate Served(v: System, key: Directory, at: nat) {
    || v.service.queue.Owes(key)
    || Q.Since(v.Log(), at, Q.Start(key))
    || Q.Since(v.Log(), at, Q.Repair)
  }

  /** The queue accepted the path's directory when its turn came, and that is served. */
  ghost predicate Delivered(v: System, event: Event, path: Path) {
    (event.id, path) in v.fates &&
      var fate := v.fates[(event.id, path)];
      && fate.target.Some? && event.mark <= fate.at < |v.Log()| && v.Log()[fate.at] == Q.Accept(fate.target.value)
      && Served(v, fate.target.value, fate.at)
  }

  /** When the path's turn came it was no eligible audio or lyric file, or its directory had gone. */
  ghost predicate Excepted(v: System, event: Event, path: Path) {
    (event.id, path) in v.fates
    && (v.fates[(event.id, path)].PassesOver(path) || v.fates[(event.id, path)].target.None?)
  }

  /** The watch is lost, and the dispatcher is still there to handle it. */
  predicate LossPends(v: System) { v.watchLost && !v.dispatcher.Exited? }

  /** A library scan that began since then is under way or finished. */
  ghost predicate ScanAfter(v: System, mark: nat) {
    || ((v.repairer.Raising? || v.repairer.Scanning?) && mark <= v.repairer.since)
    || (exists k :: 0 <= k < |v.scans| && mark <= v.scans[k].since)
  }

  /** The path's directory was started since then. */
  ghost predicate StartAfter(log: seq<Q.Note>, mark: nat, path: Path) {
    path.Path? && exists i :: mark <= i < |log| && log[i] == Q.Start(path.parent)
  }

  /**
   Something later covers the path: a repair request, a library scan, a start of its directory, a lost watch
   that the dispatcher will handle, or the end of the service.
   */
  ghost predicate Covered(v: System, event: Event, path: Path) {
    || RepairAfter(v.Log(), event.mark) || ScanAfter(v, event.mark) || StartAfter(v.Log(), event.mark, path)
    || LossPends(v) || v.Halted()
  }

  ghost predicate Kept(v: System, event: Event, path: Path) {
    InFlight(v, event, path) || Delivered(v, event, path) || Excepted(v, event, path) || Covered(v, event, path)
  }

  /** At step `k` the invalidation of the event in the dispatcher's hand fails. */
  ghost predicate FailsAt(capacity: nat, steps: seq<Step>, k: nat) {
    k < |steps| && Fails(Before(capacity, steps, k), steps[k])
  }

  predicate Fails(v: System, step: Step) {
    step.Invalidated? && !step.commit && v.dispatcher.Holding? && MayRewrite(v.dispatcher.event.change.kind)
  }

  /** A failed invalidation dropped the event: it was waiting then, or it was heard later. */
  ghost predicate Dropped(capacity: nat, steps: seq<Step>, event: Event) {
    exists k :: FailsAt(capacity, steps, k)
      && (Waits(Before(capacity, steps, k), event) || event !in Before(capacity, steps, k).received)
  }

  /** At step `k` the dispatcher handles a lost watch and leaves. */
  ghost predicate HandlesAt(capacity: nat, steps: seq<Step>, k: nat) {
    k < |steps| && Handles(Before(capacity, steps, k), steps[k])
  }

  predicate Handles(v: System, step: Step) { step.HandleLoss? && v.dispatcher.Receiving? && v.watchLost }

  /** The dispatcher had already left for a lost watch when the change was heard. */
  ghost predicate Late(capacity: nat, steps: seq<Step>, event: Event) {
    exists k :: HandlesAt(capacity, steps, k) && event !in Before(capacity, steps, k).received
  }

  lemma ExitMeans(v: System, step: Step)
    requires !v.dispatcher.Exited?
    ensures Next(v, step).dispatcher == Exited(OnFailure) <==> Fails(v, step)
    ensures Next(v, step).dispatcher == Exited(OnLoss) <==> Handles(v, step)
  {
    hide Q.Next;
  }

  /** A dispatcher that left unasked did so when an invalidation failed, or when it handled a lost watch. */
  lemma {:induction false} ExitHappened(capacity: nat, steps: seq<Step>) returns (k: nat)
    requires Run(Start(capacity), steps).dispatcher == Exited(OnFailure) || Run(Start(capacity), steps).dispatcher == Exited(OnLoss)
    ensures if Run(Start(capacity), steps).dispatcher == Exited(OnFailure) then FailsAt(capacity, steps, k)
            else HandlesAt(capacity, steps, k)
    decreases |steps|
  {
    var n := |steps| - 1;
    var u := Run(Start(capacity), steps[..n]);
    NextServes(u, steps[n]);
    if u.dispatcher.Exited? {
      k := ExitHappened(capacity, steps[..n]);
      SameBefore(capacity, steps, k);
    } else {
      ExitMeans(u, steps[n]);
      k := n;
    }
    hide Run, Next;
  }

  /** What a sound state says about one path of an event. */
  lemma SoundKeeps(v: System, event: Event, path: Path)
    requires Sound(v) && event in v.received && path in event.change.paths
    ensures Kept(v, event, path) || (v.dispatcher.Exited? && (event.id, path) !in v.fates)
  {
    assert Tracked(v, event, path);
    if FateStands(v, event, path) && !v.Halted() {
      var fate := v.fates[(event.id, path)];
      if fate.at < |v.Log()| && v.Log()[fate.at].Accept? {
        assert Q.Served(v.service);
      }
    }
  }

  lemma RepairLasts(v: System, w: System, mark: nat)
    requires Serves(v, w) && RepairAfter(v.Log(), mark)
    ensures RepairAfter(w.Log(), mark)
  {
    var i :| mark <= i < |v.Log()| && v.Log()[i] == Q.Repair;
    assert w.Log()[i] == Q.Repair;
    hide QueueSound;
  }

  /** The repair that a handled loss asks for covers what was heard before. */
  lemma HandlingRepairs(v: System, w: System, step: Step, mark: nat)
    requires Handles(v, step) && Serves(Next(v, step), w) && mark <= |v.Log()|
    ensures RepairAfter(w.Log(), mark)
  {
    RepairIsHeard(v);
    hide RepairAfter, QueueSound, Q.Next;
    RepairLasts(Next(v, step), w, mark);
  }

  /** What a run did at step `k`, and what held before and after it. */
  lemma StepOfRun(capacity: nat, steps: seq<Step>, k: nat)
    requires k < |steps|
    ensures var u, v := Before(capacity, steps, k), Run(Start(capacity), steps);
      Sound(u) && Sound(v) && Serves(u, v) && Serves(Next(u, steps[k]), v)
  {
    hide Run, Next, Sound, Serves;
    StartIsSound(capacity);
    RunKeepsSound(Start(capacity), steps, k);
    RunKeepsSound(Start(capacity), steps, k + 1);
    RunKeepsSound(Start(capacity), steps[..k], k);
    RunOn(Start(capacity), steps, k);
  }

  /** A path without a fate that nothing covers was waiting when the dispatcher failed, or its event came too late. */
  lemma LostWasDropped(capacity: nat, steps: seq<Step>, event: Event, path: Path)
    requires var v := Run(Start(capacity), steps);
      && event in v.received && path in event.change.paths && v.dispatcher.Exited? && (event.id, path) !in v.fates
      && !Covered(v, event, path)
    ensures Dropped(capacity, steps, event) || Late(capacity, steps, event)
  {
    var v := Run(Start(capacity), steps);
    StartIsSound(capacity);
    RunKeepsSound(Start(capacity), steps, |steps|);
    assert !v.dispatcher.why.OnStop? by { hide Run, Grounded, AllTracked, QueueSound, ScanSound; }
    var k := ExitHappened(capacity, steps);
    var u := Before(capacity, steps, k);
    StepOfRun(capacity, steps, k);
    hide Run, ScanSound, QueueSound, LossSound, RepairAfter, Next;
    if v.dispatcher.why.OnLoss? {
      if event in u.received { HandlingRepairs(u, v, steps[k], event.mark); }
      assert HandlesAt(capacity, steps, k);
    } else {
      if event in u.received {
        assert Tracked(u, event, path);
        if RepairAfter(u.Log(), event.mark) { RepairLasts(u, v, event.mark); }
      }
      assert FailsAt(capacity, steps, k);
    }
  }

  /**
   When a change is lost: in every run, a path of a change that the callback took in is lost exactly if its
   turn never came, nothing later covers it, and the invalidation of an event failed while the change waited
   or before it was heard, or the dispatcher had left for a lost watch before it was heard.
   */
  lemma InvalidationDecides(capacity: nat, steps: seq<Step>, event: Event, path: Path)
    requires event in Run(Start(capacity), steps).received && path in event.change.paths
    ensures var v := Run(Start(capacity), steps);
      !Kept(v, event, path) <==>
        && (Dropped(capacity, steps, event) || Late(capacity, steps, event))
        && (event.id, path) !in v.fates && !Covered(v, event, path)
  {
    var v := Run(Start(capacity), steps);
    StartIsSound(capacity);
    RunKeepsSound(Start(capacity), steps, |steps|);
    SoundKeeps(v, event, path);
    if v.dispatcher.Exited? && (event.id, path) !in v.fates && !Covered(v, event, path) {
      LostWasDropped(capacity, steps, event, path);
    }
    if Dropped(capacity, steps, event) || Late(capacity, steps, event) {
      ExitIsFinal(capacity, steps, event);
    }
    hide Run, Covered, Dropped, Late, Sound;
  }

  /**
   A lost watch is not forgotten: in every run, one that is known is still to be handled by a dispatcher that
   goes on, or a repair was asked for since, or the service stopped, or an invalidation failed and the
   dispatcher left without looking.
   */
  lemma LossIsHandled(capacity: nat, steps: seq<Step>)
    requires Run(Start(capacity), steps).watchLost
    ensures var v := Run(Start(capacity), steps);
      || !v.dispatcher.Exited?
      || (v.dispatcher.why.OnLoss? && RepairAfter(v.Log(), v.lostAt))
      || v.Halted()
      || (v.dispatcher.why.OnFailure? && exists k :: FailsAt(capacity, steps, k))
  {
    hide Run, Grounded, AllTracked, QueueSound, ScanSound, RepairAfter, FailsAt, HandlesAt;
    StartIsSound(capacity);
    RunKeepsSound(Start(capacity), steps, |steps|);
    if Run(Start(capacity), steps).dispatcher == Exited(OnFailure) {
      var k := ExitHappened(capacity, steps);
    }
  }

  /**
   No change is lost: in every run, a path of a change that the callback took in is in flight, or its
   directory was accepted when its turn came and is queued, running dirty or was started later, or it was
   then no eligible audio or lyric file or had no directory, or something later covers it; unless a failed
   invalidation dropped its event, or the dispatcher had left for a lost watch before the change was heard.
   */
  lemma NoChangeIsLost(capacity: nat, steps: seq<Step>, event: Event, path: Path)
    requires event in Run(Start(capacity), steps).received && path in event.change.paths
    requires !Dropped(capacity, steps, event) && !Late(capacity, steps, event)
    ensures Kept(Run(Start(capacity), steps), event, path)
  {
    hide *;
    InvalidationDecides(capacity, steps, event, path);
  }

  lemma StepExits(v: System, step: Step)
    requires Fails(v, step) || Handles(v, step)
    ensures Next(v, step).dispatcher.Exited?
  {
    hide Q.Next;
  }

  lemma ExitIsFinal(capacity: nat, steps: seq<Step>, event: Event)
    requires Dropped(capacity, steps, event) || Late(capacity, steps, event)
    ensures var v := Run(Start(capacity), steps); v.dispatcher.Exited? && v.channel == []
  {
    hide Run, Next, Before, Fails, Handles, Waits, AllTracked, QueueSound, ScanSound, LossSound;
    var k: nat;
    if Dropped(capacity, steps, event) {
      k :| FailsAt(capacity, steps, k);
    } else {
      k :| HandlesAt(capacity, steps, k);
    }
    StepOfRun(capacity, steps, k);
    StepExits(Before(capacity, steps, k), steps[k]);
  }

  /**
   Such a loss is reachable: with the failing event in hand, one change waiting behind it and one heard
   after it, all three are received, and none is kept.
   */
  lemma FailureLoses(capacity: nat, first: Path, second: Path, third: Path)
    ensures var v := Run(Start(capacity), Failing(first, second, third));
      && v.received == {DataEvent(0, first), DataEvent(1, second), DataEvent(2, third)}
      && !Kept(v, DataEvent(0, first), first) && !Kept(v, DataEvent(1, second), second) && !Kept(v, DataEvent(2, third), third)
  {
    var a, b, c := DataEvent(0, first), DataEvent(1, second), DataEvent(2, third);
    var s0, steps := Start(capacity), Failing(first, second, third);
    var s2 := s0.(channel := [a, b], received := {a, b}, nextId := 2);
    var s4 := s2.(channel := [], dispatcher := Exited(OnFailure));
    var s5 := s4.(received := {a, b, c}, nextId := 3);
    ChangesAreHeard(s0, first, second);
    FailureHappens(s2, a, [b], first);
    ChangeIsHeard(s4, third);
    assert {a, b, c} == {a, b} + {c};
    assert steps[..0] == [] && Run(s0, []) == s0;
    assert s5.dispatcher == Exited(OnFailure) && s5.repairer == Sleeping && s5.scans == [] && s5.channel == [] && s5.fates == map[] && s5.Log() == [] && !s5.watchLost && !s5.Halted();
    hide *;
    RunFive(s0, steps);
    NothingKept(s5);
  }

  lemma RunFive(v: System, steps: seq<Step>)
    requires |steps| == 5
    ensures Run(v, steps) == Next(Next(Next(Next(Next(v, steps[0]), steps[1]), steps[2]), steps[3]), steps[4])
  {
    hide Next;
    assert Run(v, steps[..0]) == v;
    RunOn(v, steps, 0);
    RunOn(v, steps, 1);
    RunOn(v, steps, 2);
    RunOn(v, steps, 3);
    RunOn(v, steps, 4);
    assert steps[..5] == steps;
  }

  lemma RunOn(v: System, steps: seq<Step>, k: nat)
    requires k < |steps|
    ensures Run(v, steps[..k + 1]) == Next(Run(v, steps[..k]), steps[k])
  {
    assert steps[..k + 1][..k] == steps[..k];
  }

  function DataEvent(id: nat, path: Path): Event { Event(id, 0, Change(Data, [path])) }

  function Failing(first: Path, second: Path, third: Path): seq<Step> {
    [Callback(Notice(Data, [first], false, false)), Callback(Notice(Data, [second], false, false)), Receive,
     Invalidated([first], false), Callback(Notice(Data, [third], false, false))]
  }

  lemma ChangeIsHeard(v: System, path: Path)
    requires v.Log() == []
    ensures Next(v, Callback(Notice(Data, [path], false, false))) ==
      if v.dispatcher.Exited? then v.(received := v.received + {DataEvent(v.nextId, path)}, nextId := v.nextId + 1)
      else if |v.channel| < CHANNEL then
        v.(channel := v.channel + [DataEvent(v.nextId, path)], received := v.received + {DataEvent(v.nextId, path)}, nextId := v.nextId + 1)
      else Next(v, Callback(Notice(Data, [path], false, false)))
  {
  }

  lemma ChangesAreHeard(v: System, first: Path, second: Path)
    requires v == Start(v.capacity)
    ensures var a, b := DataEvent(0, first), DataEvent(1, second);
      var w := Next(v, Callback(Notice(Data, [first], false, false)));
      Next(w, Callback(Notice(Data, [second], false, false))) == v.(channel := [a, b], received := {a, b}, nextId := 2)
  {
    ChangeIsHeard(v, first);
    var w := Next(v, Callback(Notice(Data, [first], false, false)));
    ChangeIsHeard(w, second);
    assert {DataEvent(0, first), DataEvent(1, second)} == {} + {DataEvent(0, first)} + {DataEvent(1, second)};
    hide Next;
  }

  lemma FailureHappens(v: System, event: Event, rest: seq<Event>, path: Path)
    requires v.dispatcher == Receiving && v.channel == [event] + rest && !v.watchLost && !v.Halted() && event.change.kind == Data
    ensures Next(v, Receive) == v.(channel := rest, dispatcher := Holding(event))
    ensures Next(v.(channel := rest, dispatcher := Holding(event)), Invalidated([path], false))
      == v.(channel := [], dispatcher := Exited(OnFailure))
  {
  }

  lemma NothingKept(v: System)
    requires v.dispatcher == Exited(OnFailure) && v.channel == [] && v.fates == map[] && v.Log() == [] && !v.Halted()
    requires v.repairer == Sleeping && v.scans == []
    ensures forall event, path :: !Kept(v, event, path)
  {
  }

  function Swallowing(first: Path, second: Path): seq<Step> {
    [Callback(Notice(Data, [first], false, false)), Callback(Notice(Data, [second], false, false)), Receive,
     Callback(Notice(Data, [], true, false)), Invalidated([first], false)]
  }

  /**
   A failed invalidation even swallows a lost watch that was noticed meanwhile: both changes are lost, and
   none of the steps that would handle the loss is there to be taken.
   */
  lemma FailureSwallowsLoss(capacity: nat, first: Path, second: Path)
    ensures var v := Run(Start(capacity), Swallowing(first, second));
      && v.received == {DataEvent(0, first), DataEvent(1, second)} && v.watchLost
      && !Kept(v, DataEvent(0, first), first) && !Kept(v, DataEvent(1, second), second)
      && Next(v, HandleLoss) == v && Next(v, Receive) == v && Next(v, BeginRepair(false)) == v
  {
    hide Next, Run, Kept;
    var a, b := DataEvent(0, first), DataEvent(1, second);
    var s0, steps := Start(capacity), Swallowing(first, second);
    var s2 := s0.(channel := [a, b], received := {a, b}, nextId := 2);
    var s3 := s2.(channel := [b], dispatcher := Holding(a));
    var s4 := s3.(watchLost := true, lostAt := 0);
    var s5 := s4.(channel := [], dispatcher := Exited(OnFailure));
    ChangesAreHeard(s0, first, second);
    FailureHappens(s2, a, [b], first);
    LossIsNoticed(s3);
    FailureAgain(s4, a, first);
    assert s5.repairer == Sleeping && s5.scans == [] && s5.channel == [] && s5.fates == map[] && s5.Log() == [] && !s5.Halted();
    NothingMoves(s5);
    RunFive(s0, steps);
    NothingKept(s5);
  }

  lemma LossIsNoticed(v: System)
    requires !v.watchLost && v.Log() == []
    ensures Next(v, Callback(Notice(Data, [], true, false))) == v.(watchLost := true, lostAt := 0)
  {
  }

  lemma FailureAgain(v: System, event: Event, path: Path)
    requires v.dispatcher == Holding(event) && event.change.kind == Data
    ensures Next(v, Invalidated([path], false)) == v.(channel := [], dispatcher := Exited(OnFailure))
  {
    hide Q.Next;
  }

  lemma NothingMoves(v: System)
    requires v.dispatcher.Exited? && v.repairer.Sleeping? && v == v.(service := Q.Idle)
    ensures Next(v, HandleLoss) == v && Next(v, Receive) == v && Next(v, BeginRepair(false)) == v
  {
  }

  /** A change heard after the dispatcher left for a lost watch is lost: the repair it asked for came before. */
  lemma LateIsLost(capacity: nat, path: Path)
    ensures var v := Run(Start(capacity),
        [Callback(Notice(Data, [], true, false)), HandleLoss, Callback(Notice(Data, [path], false, false))]);
      var event := Event(0, 1, Change(Data, [path]));
      v.received == {event} && v.Log() == [Q.Repair] && !Kept(v, event, path)
  {
    var s0 := Start(capacity);
    var steps := [Callback(Notice(Data, [], true, false)), HandleLoss, Callback(Notice(Data, [path], false, false))];
    LossIsNoticed(s0);
    var s1 := s0.(watchLost := true, lostAt := 0);
    var s2 := Next(s1, HandleLoss);
    var s3 := Next(s2, steps[2]);
    assert s2 == s1.(service := s2.service, dispatcher := Exited(OnLoss)) && s2.Log() == [Q.Repair];
    assert s3 == s2.(received := {Event(0, 1, Change(Data, [path]))}, nextId := 1);
    LateIsUnkept(s3, Event(0, 1, Change(Data, [path])), path);
    hide *;
    assert steps[..0] == [];
    RunNone(s0);
    RunOn(s0, steps, 0);
    RunOn(s0, steps, 1);
    RunOn(s0, steps, 2);
    assert steps[..3] == steps;
  }

  lemma RunNone(v: System)
    ensures Run(v, []) == v
  {
  }

  lemma LateIsUnkept(v: System, event: Event, path: Path)
    requires v.dispatcher.Exited? && v.channel == [] && v.fates == map[] && v.Log() == [Q.Repair] && !v.Halted()
    requires v.repairer == Sleeping && v.scans == [] && event.mark == 1
    ensures !Kept(v, event, path)
  {
  }

  /** Exactly a failed invalidation makes the dispatcher leave unasked; without fallback scans that stops the service. */
  lemma DroppedMeansFailed(v: System, step: Step)
    requires !v.dispatcher.Exited? && Next(v, step).dispatcher.Exited?
    ensures Next(v, step).dispatcher.why.OnFailure? <==> Fails(v, step)
    ensures var w := Next(v, step);
      w.repairer.Sleeping? ==> Next(w, NoticeExit(false)).Halted() && Next(w, NoticeExit(true)) == w
  {
    ExitMeans(v, step);
    hide Next, Admit;
    if Next(v, step).repairer.Sleeping? {
      ExitIsNoticed(Next(v, step));
    }
  }

  lemma ExitIsNoticed(v: System)
    requires v.dispatcher.Exited? && v.repairer.Sleeping?
    ensures Next(v, NoticeExit(false)).Halted() && Next(v, NoticeExit(true)) == v
  {
  }

  // ---------------------------------------------------------------------------
  // Repairs
  // ---------------------------------------------------------------------------

  /** At step `r` the epoch was raised for the repair that began at `since`, and `tree` is the library it lists. */
  ghost predicate RaisedAt(capacity: nat, steps: seq<Step>, r: nat, since: nat, tree: seq<Directory>) {
    r < |steps| && steps[r] == RaiseEpoch(true, tree) && Before(capacity, steps, r).repairer == Raising(since)
  }

  /** At step `m` the scan asked what the next directory resolves to. */
  ghost predicate ScannedAt(capacity: nat, steps: seq<Step>, m: nat, since: nat, tree: seq<Directory>,
    targets: seq<Option<Directory>>, k: nat) {
    && k < |targets| && m < |steps| && steps[m] == ScanOne(targets[k])
    && Before(capacity, steps, m).repairer == Scanning(since, tree, targets[..k])
  }

  ghost predicate Scanned(capacity: nat, steps: seq<Step>, since: nat, tree: seq<Directory>,
    targets: seq<Option<Directory>>, k: nat) {
    exists m :: ScannedAt(capacity, steps, m, since, tree, targets, k)
  }

  /** The repair raised the epoch, and each answer is one that the scan of its library got. */
  ghost predicate Performed(capacity: nat, steps: seq<Step>, since: nat, tree: seq<Directory>,
    targets: seq<Option<Directory>>) {
    && (exists r :: RaisedAt(capacity, steps, r, since, tree))
    && (forall k :: 0 <= k < |targets| ==> Scanned(capacity, steps, since, tree, targets, k))
  }

  lemma PerformedLasts(capacity: nat, steps: seq<Step>, since: nat, tree: seq<Directory>,
    targets: seq<Option<Directory>>)
    requires |steps| > 0 && Performed(capacity, steps[..|steps| - 1], since, tree, targets)
    ensures Performed(capacity, steps, since, tree, targets)
  {
    var less := steps[..|steps| - 1];
    var r :| RaisedAt(capacity, less, r, since, tree);
    SameBefore(capacity, steps, r);
    assert RaisedAt(capacity, steps, r, since, tree);
    hide Before;
    forall k | 0 <= k < |targets| ensures Scanned(capacity, steps, since, tree, targets, k) {
      assert Scanned(capacity, less, since, tree, targets, k);
      var m :| ScannedAt(capacity, less, m, since, tree, targets, k);
      SameBefore(capacity, steps, m);
      assert ScannedAt(capacity, steps, m, since, tree, targets, k);
    }
  }

  /** How the repair loop's scan moves. */
  lemma ScannerMoves(v: System, step: Step)
    ensures var w := Next(v, step);
      && (w.repairer.Scanning? ==>
            || w.repairer == v.repairer
            || (v.repairer == Raising(w.repairer.since) && step == RaiseEpoch(true, w.repairer.tree) && w.repairer.targets == [])
            || (step.ScanOne? && v.repairer.Scanning?
                && w.repairer == Scanning(v.repairer.since, v.repairer.tree, v.repairer.targets + [step.target])))
      && (w.scans == v.scans
          || (v.repairer.Scanning? && w.scans == v.scans + [Scan(v.repairer.since, v.repairer.tree, v.repairer.targets)]))
  {
    hide Q.Next, Admit;
  }

  lemma OneMoreScanned(capacity: nat, steps: seq<Step>, since: nat, tree: seq<Directory>,
    targets: seq<Option<Directory>>, target: Option<Directory>)
    requires |steps| > 0 && Performed(capacity, steps[..|steps| - 1], since, tree, targets)
    requires steps[|steps| - 1] == ScanOne(target)
    requires Before(capacity, steps, |steps| - 1).repairer == Scanning(since, tree, targets)
    ensures Performed(capacity, steps, since, tree, targets + [target])
  {
    PerformedLasts(capacity, steps, since, tree, targets);
    var more := targets + [target];
    forall k | 0 <= k < |more| ensures Scanned(capacity, steps, since, tree, more, k) {
      if k < |targets| {
        assert Scanned(capacity, steps, since, tree, targets, k);
        var m :| ScannedAt(capacity, steps, m, since, tree, targets, k);
        assert more[..k] == targets[..k];
        assert ScannedAt(capacity, steps, m, since, tree, more, k);
      } else {
        assert more[..k] == targets;
        assert ScannedAt(capacity, steps, |steps| - 1, since, tree, more, k);
      }
    }
  }

  /** Every scan under way or finished was really performed. */
  lemma {:induction false} ScansArePerformed(capacity: nat, steps: seq<Step>)
    ensures var v := Run(Start(capacity), steps);
      && (v.repairer.Scanning? ==> Performed(capacity, steps, v.repairer.since, v.repairer.tree, v.repairer.targets))
      && forall k :: 0 <= k < |v.scans| ==>
           Performed(capacity, steps, v.scans[k].since, v.scans[k].tree, v.scans[k].targets)
    decreases |steps|
  {
    if steps != [] {
      var n := |steps| - 1;
      var u, w := Run(Start(capacity), steps[..n]), Run(Start(capacity), steps);
      ScansArePerformed(capacity, steps[..n]);
      ScannerMoves(u, steps[n]);
      assert Before(capacity, steps, n) == u;
      hide Run, Next, Performed;
      if w.repairer.Scanning? {
        if w.repairer == u.repairer {
          PerformedLasts(capacity, steps, u.repairer.since, u.repairer.tree, u.repairer.targets);
        } else if u.repairer.Raising? {
          RaisePerforms(capacity, steps, w.repairer.since, w.repairer.tree);
        } else {
          OneMoreScanned(capacity, steps, u.repairer.since, u.repairer.tree, u.repairer.targets, steps[n].target);
        }
      }
      forall k | 0 <= k < |w.scans| ensures Performed(capacity, steps, w.scans[k].since, w.scans[k].tree, w.scans[k].targets) {
        PerformedLasts(capacity, steps, w.scans[k].since, w.scans[k].tree, w.scans[k].targets);
      }
    }
  }

  lemma RaisePerforms(capacity: nat, steps: seq<Step>, since: nat, tree: seq<Directory>)
    requires |steps| > 0 && steps[|steps| - 1] == RaiseEpoch(true, tree)
    requires Before(capacity, steps, |steps| - 1).repairer == Raising(since)
    ensures Performed(capacity, steps, since, tree, [])
  {
    assert RaisedAt(capacity, steps, |steps| - 1, since, tree);
  }

  /** Each of these directories that resolved was accepted since `i`, and is served. */
  ghost predicate AllServed(v: System, i: nat, targets: seq<Option<Directory>>) {
    forall k :: 0 <= k < |targets| && targets[k].Some? ==> exists j :: AcceptedAt(v, i, j, targets[k].value)
  }

  ghost predicate AcceptedAt(v: System, i: nat, j: nat, key: Directory) {
    i <= j < |v.Log()| && v.Log()[j] == Q.Accept(key) && (Served(v, key, j) || v.Halted())
  }

  /** The repair that began at `i` is over: it raised the epoch and submitted every directory of the library anew. */
  ghost predicate Repaired(capacity: nat, steps: seq<Step>, i: nat) {
    var v := Run(Start(capacity), steps);
    exists tree, targets: seq<Option<Directory>> ::
      |targets| == |tree| && Performed(capacity, steps, i, tree, targets) && AllServed(v, i, targets)
  }

  lemma AcceptedAreServed(v: System, i: nat, targets: seq<Option<Directory>>)
    requires QueueSound(v.service, v.capacity) && AllAccepted(v.Log(), i, targets)
    ensures AllServed(v, i, targets)
  {
    forall k | 0 <= k < |targets| && targets[k].Some?
      ensures exists j :: AcceptedAt(v, i, j, targets[k].value)
    {
      assert AcceptedSince(v.Log(), i, targets[k].value);
      var j :| i <= j < |v.Log()| && v.Log()[j] == Q.Accept(targets[k].value);
      assert v.Log()[j].Accept?;
      assert AcceptedAt(v, i, j, targets[k].value);
    }
  }

  /**
   No repair request is swallowed: in every run, each request that the repair loop took leads to a repair
   that is still under way, or that raised the epoch and then submitted every directory of the library
   that resolves, each accepted after the request was taken and served since; unless the service stopped.
   */
  lemma RepairsReachTheLibrary(capacity: nat, steps: seq<Step>, i: nat)
    requires i < |Run(Start(capacity), steps).Log()| && Run(Start(capacity), steps).Log()[i] == Q.RepairTaken
    ensures var v := Run(Start(capacity), steps);
      || v.Halted()
      || ((v.repairer.Raising? || v.repairer.Scanning?) && v.repairer.since == i)
      || Repaired(capacity, steps, i)
  {
    var v := Run(Start(capacity), steps);
    StartIsSound(capacity);
    RunKeepsSound(Start(capacity), steps, |steps|);
    ScansArePerformed(capacity, steps);
    hide Run, QueueSound, Performed, AllAccepted, AllServed;
    if !v.Halted() && !((v.repairer.Raising? || v.repairer.Scanning?) && v.repairer.since == i) {
      assert Answered(v, i);
      var k :| 0 <= k < |v.scans| && v.scans[k].since == i;
      AcceptedAreServed(v, i, v.scans[k].targets);
      assert Performed(capacity, steps, i, v.scans[k].tree, v.scans[k].targets);
    }
  }

  /** A library scan that covers a change is at work, or raised the epoch and submitted every directory since. */
  lemma ScanIsRepaired(capacity: nat, steps: seq<Step>, mark: nat) returns (i: nat)
    requires ScanAfter(Run(Start(capacity), steps), mark)
    ensures var v := Run(Start(capacity), steps);
      mark <= i && (((v.repairer.Raising? || v.repairer.Scanning?) && v.repairer.since == i) || Repaired(capacity, steps, i))
  {
    var v := Run(Start(capacity), steps);
    StartIsSound(capacity);
    RunKeepsSound(Start(capacity), steps, |steps|);
    ScansArePerformed(capacity, steps);
    hide Run, QueueSound, Performed, AllAccepted, AllServed, Answered;
    if (v.repairer.Raising? || v.repairer.Scanning?) && mark <= v.repairer.since {
      i := v.repairer.since;
    } else {
      var k :| 0 <= k < |v.scans| && mark <= v.scans[k].since;
      i := v.scans[k].since;
      AcceptedAreServed(v, i, v.scans[k].targets);
      assert Performed(capacity, steps, i, v.scans[k].tree, v.scans[k].targets);
    }
  }

  /** A repair that covers a change is still asked for, or was taken after the change and then reaches the library. */
  lemma CoverIsRepaired(capacity: nat, steps: seq<Step>, event: Event) returns (i: nat)
    requires RepairAfter(Run(Start(capacity), steps).Log(), event.mark)
    ensures var v := Run(Start(capacity), steps);
      || v.service.queue.repair || v.Halted()
      || (event.mark < i < |v.Log()| && v.Log()[i] == Q.RepairTaken
          && (((v.repairer.Raising? || v.repairer.Scanning?) && v.repairer.since == i) || Repaired(capacity, steps, i)))
  {
    i := 0;
    var v := Run(Start(capacity), steps);
    StartIsSound(capacity);
    RunKeepsSound(Start(capacity), steps, |steps|);
    var at :| event.mark <= at < |v.Log()| && v.Log()[at] == Q.Repair;
    assert Q.RepairsHeard(v.service);
    hide Run, Repaired;
    if !v.service.queue.repair {
      i :| at < i < |v.Log()| && v.Log()[i] == Q.RepairTaken;
      RepairsReachTheLibrary(capacity, steps, i);
    }
  }
}
