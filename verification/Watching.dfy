/**
 The native watcher (src/watch.rs): the callback that feeds a bounded channel, the invalidation that
 a write event causes, and the dispatch of an event to the work queue.
 */
module Watching {
  import opened Basics
  import opened SnapshotIndex
  import opened WorkQueues
  import opened CacheDbs

  datatype Kind =
    | Create | Remove | Data | Metadata | Rename | AnyModify | OtherModify | Any | CloseWrite | OtherAccess | Unknown

  predicate IsChange(kind: Kind) { !kind.OtherAccess? && !kind.Unknown? }

  /** Kinds that may mean new content behind an unchanged stamp. */
  predicate MayRewrite(kind: Kind) { kind.Data? || kind.AnyModify? || kind.Any? || kind.CloseWrite? }

  /** `rootGone` says that the event removes or renames the library itself. */
  datatype Message =
    | BackendError
    | Notice(kind: Kind, paths: seq<Path>, rescan: bool, namesRoot: bool)
  {
    predicate LosesWatch() {
      BackendError? || rescan || (namesRoot && (kind.Remove? || kind.Rename?))
    }
  }

  datatype Change = Change(kind: Kind, paths: seq<Path>)

  const CHANNEL: nat := 256

  predicate IsLyric(path: Path) { path.Path? && path.extension.Lrc? }

  predicate IsAudio(path: Path) { path.Path? && path.extension.Audio? }

  predicate Concerns(path: Path) { IsAudio(path) || IsLyric(path) }

  /** What the filesystem says about a path: whether policy admits it, what it is, and its inode. */
  datatype Glance = Glance(eligible: bool, directory: bool, inode: Option<Inode>)

  predicate Watched(glance: Glance, path: Path) { glance.eligible && Concerns(path) && !glance.directory }

  function Named(paths: seq<Path>): set<Path> { set path | path in paths }

  // ---------------------------------------------------------------------------
  // Invalidation
  // ---------------------------------------------------------------------------

  /** What the others have made of the index by the time of the `k`-th access. */
  function IndexAt(ix: Index, others: (nat, Index) -> Index, k: nat): Index {
    others(k, if k == 0 then ix else IndexAt(ix, others, k - 1))
  }

  /** The aliases that the lookup for the `k`-th named path finds, as the index and the file are then. */
  ghost predicate FoundAt(ix: Index, others: (nat, Index) -> Index, fs: (nat, Path) -> Glance, paths: seq<Path>, k: nat,
    alias: Path)
    requires k < |paths|
  {
    Watched(fs(k, paths[k]), paths[k]) && alias in PathsSharingFile(IndexAt(ix, others, k), paths[k], fs(k, paths[k]).inode)
  }

  /** The named paths and every alias that one of the lookups finds. */
  ghost predicate IsAffected(ix: Index, others: (nat, Index) -> Index, fs: (nat, Path) -> Glance, paths: seq<Path>, n: nat,
    path: Path)
    requires n <= |paths|
  {
    path in paths || exists k :: 0 <= k < n && FoundAt(ix, others, fs, paths, k, path)
  }

  /** Those that are watched files when the `k`-th look comes. */
  function Rewritten(fs: (nat, Path) -> Glance, k: nat, paths: set<Path>): set<Path> {
    set path | path in paths && Watched(fs(k, path), path)
  }

  /** Before its `k`-th access to the database, the others may have raised versions and stored snapshots. */
  method Disturb(db: CacheDb, others: (nat, Index) -> Index, k: nat)
    modifies db`versions, db`identities
    ensures db.Ix() == others(k, old(db.Ix()))
  {
    var ix := others(k, Index(db.versions, db.identities));
    db.versions, db.identities := ix.versions, ix.identities;
  }

  /**
   The invalidation of one write event: every watched file among the named paths and the aliases that
   their lookups find has its version raised once, and the event goes on with all of them. The `k`-th
   look at the filesystem and the `k`-th access to the database each have an answer of their own.
   */
  method InvalidateEvent(db: CacheDb, others: (nat, Index) -> Index, fs: (nat, Path) -> Glance, paths: seq<Path>,
    commit: bool)
    returns (r: Result<set<Path>>)
    modifies db`versions, db`identities
    ensures r.Ok? == commit
    ensures commit ==> forall path :: path in r.value <==> IsAffected(old(db.Ix()), others, fs, paths, |paths|, path)
    ensures !commit ==> db.Ix() == IndexAt(old(db.Ix()), others, |paths|)
    ensures commit ==> db.Ix() == InvalidateFiles(IndexAt(old(db.Ix()), others, |paths|), Rewritten(fs, |paths|, r.value))
  {
    hide PathsSharingFile, InvalidateFiles;
    var affected := Named(paths);
    for i := 0 to |paths|
      invariant i == 0 ==> db.Ix() == old(db.Ix())
      invariant i > 0 ==> db.Ix() == IndexAt(old(db.Ix()), others, i - 1)
      invariant forall path :: path in affected <==> IsAffected(old(db.Ix()), others, fs, paths, i, path)
    {
      Disturb(db, others, i);
      assert db.Ix() == IndexAt(old(db.Ix()), others, i);
      var glance := fs(i, paths[i]);
      ghost var sofar := affected;
      if Watched(glance, paths[i]) {
        var aliases := db.PathsSharing(paths[i], glance.inode);
        affected := affected + aliases;
      }
      forall path ensures path in affected <==> IsAffected(old(db.Ix()), others, fs, paths, i + 1, path) {
        OneMoreLookup(old(db.Ix()), others, fs, paths, i, path);
        assert path in sofar <==> IsAffected(old(db.Ix()), others, fs, paths, i, path);
      }
    }
    Disturb(db, others, |paths|);
    assert db.Ix() == IndexAt(old(db.Ix()), others, |paths|);
    var done := db.InvalidateFilesNow(Rewritten(fs, |paths|, affected), commit);
    return if done.Ok? then Ok(affected) else Err;
  }

  lemma OneMoreLookup(ix: Index, others: (nat, Index) -> Index, fs: (nat, Path) -> Glance, paths: seq<Path>, n: nat,
    path: Path)
    requires n < |paths|
    ensures IsAffected(ix, others, fs, paths, n + 1, path)
      <==> IsAffected(ix, others, fs, paths, n, path) || FoundAt(ix, others, fs, paths, n, path)
  {
    hide FoundAt;
    if FoundAt(ix, others, fs, paths, n, path) {
      assert 0 <= n < n + 1 && FoundAt(ix, others, fs, paths, n, path);
    }
  }

  // ---------------------------------------------------------------------------
  // Dispatch
  // ---------------------------------------------------------------------------

  datatype Task = Visit(directory: Directory) | Complain

  /** What dispatching one path asks for; `tree` lists the walk of a directory, errors included. */
  function TasksFor(kind: Kind, path: Path, glance: Glance, tree: seq<Task>): seq<Task> {
    if !glance.eligible then []
    else if glance.directory then (if kind.Metadata? then [] else tree)
    else if Concerns(path) then [Visit(path.parent)]
    else []
  }

  /** What dispatching all paths asks for; the `k`-th path is looked at when its turn comes. */
  function TasksOf(kind: Kind, paths: seq<Path>, fs: (nat, Path) -> Glance, walk: (nat, Path) -> seq<Task>): seq<Task> {
    if paths == [] then [] else
      var n := |paths| - 1;
      TasksOf(kind, paths[..n], fs, walk) + TasksFor(kind, paths[n], fs(n, paths[n]), walk(n, paths[n]))
  }

  /** The queue after some tasks; every visit asks the filesystem once. */
  function Performed(
    s: State, capacity: nat, tasks: seq<Task>, answers: (nat, Directory) -> Option<Directory>, asked: nat): (State, nat)
    decreases |tasks|
  {
    if tasks == [] then (s, asked)
    else
      match tasks[0]
      case Visit(directory) =>
        var t := Admit(s, capacity, directory, answers(asked, directory), false).0;
        Performed(t, capacity, tasks[1..], answers, if s.Halted() then asked else asked + 1)
      case Complain => Performed(s.(repair := true), capacity, tasks[1..], answers, asked)
  }

  method Perform(queue: WorkQueue, tasks: seq<Task>)
    requires Valid(queue.Now(), queue.capacity)
    modifies queue
    ensures (queue.Now(), queue.asked) == Performed(old(queue.Now()), queue.capacity, tasks, queue.answers, old(queue.asked))
    ensures Valid(queue.Now(), queue.capacity)
  {
    for i := 0 to |tasks|
      invariant Valid(queue.Now(), queue.capacity)
      invariant Performed(queue.Now(), queue.capacity, tasks[i..], queue.answers, queue.asked)
        == Performed(old(queue.Now()), queue.capacity, tasks, queue.answers, old(queue.asked))
    {
      assert tasks[i..][0] == tasks[i] && tasks[i..][1..] == tasks[i + 1..];
      match tasks[i] {
        case Visit(directory) => var admission := queue.Submit(directory, false);
        case Complain => queue.RequestRepair();
      }
    }
    assert tasks[|tasks|..] == [];
  }

  lemma {:induction false} PerformedJoins(
    s: State, capacity: nat, tasks: seq<Task>, more: seq<Task>, answers: (nat, Directory) -> Option<Directory>,
    asked: nat)
    ensures var (t, next) := Performed(s, capacity, tasks, answers, asked);
      Performed(s, capacity, tasks + more, answers, asked) == Performed(t, capacity, more, answers, next)
    decreases |tasks|
  {
    hide Admit;
    if tasks == [] {
      assert tasks + more == more;
    } else {
      assert (tasks + more)[1..] == tasks[1..] + more;
      match tasks[0]
      case Visit(directory) =>
        var t := Admit(s, capacity, directory, answers(asked, directory), false).0;
        PerformedJoins(t, capacity, tasks[1..], more, answers, if s.Halted() then asked else asked + 1);
      case Complain => PerformedJoins(s.(repair := true), capacity, tasks[1..], more, answers, asked);
    }
  }

  /**
   `dispatch`: an event that asks for a rescan asks for repair, and a change submits the parent of each
   eligible audio or lyric path, and the whole tree of an eligible directory unless only its metadata
   changed.
   */
  method Dispatch(queue: WorkQueue, change: Change, rescan: bool, fs: (nat, Path) -> Glance,
    walk: (nat, Path) -> seq<Task>)
    requires Valid(queue.Now(), queue.capacity)
    modifies queue
    ensures Valid(queue.Now(), queue.capacity)
    ensures (queue.Now(), queue.asked)
      == Performed(old(queue.Now()), queue.capacity, Orders(change, rescan, fs, walk), queue.answers, old(queue.asked))
  {
    hide *;
    ghost var first: seq<Task> := if rescan then [Complain] else [];
    OrdersAre(change, rescan, fs, walk);
    NonePerformed(queue.Now(), queue.capacity, queue.answers, queue.asked);
    if rescan {
      var complaint: seq<Task> := [Complain];
      Perform(queue, complaint);
    }
    if !rescan && !IsChange(change.kind) {
      return;
    }
    NoTasks(change.kind, change.paths, fs, walk);
    assert first + [] == first;
    for i := 0 to |change.paths|
      invariant Valid(queue.Now(), queue.capacity)
      invariant (queue.Now(), queue.asked) == Performed(old(queue.Now()), queue.capacity,
        first + TasksOf(change.kind, change.paths[..i], fs, walk), queue.answers, old(queue.asked))
    {
      var path := change.paths[i];
      var tasks := TasksFor(change.kind, path, fs(i, path), walk(i, path));
      OneMorePath(change.kind, change.paths, i, fs, walk);
      PerformedJoins(old(queue.Now()), queue.capacity, first + TasksOf(change.kind, change.paths[..i], fs, walk), tasks,
        queue.answers, old(queue.asked));
      assert first + (TasksOf(change.kind, change.paths[..i], fs, walk) + tasks)
        == first + TasksOf(change.kind, change.paths[..i], fs, walk) + tasks;
      Perform(queue, tasks);
    }
    assert change.paths[..|change.paths|] == change.paths;
  }

  /** All that one event asks for. */
  function Orders(change: Change, rescan: bool, fs: (nat, Path) -> Glance, walk: (nat, Path) -> seq<Task>): seq<Task> {
    (if rescan then [Complain] else [])
    + (if rescan || IsChange(change.kind) then TasksOf(change.kind, change.paths, fs, walk) else [])
  }

  lemma OrdersAre(change: Change, rescan: bool, fs: (nat, Path) -> Glance, walk: (nat, Path) -> seq<Task>)
    ensures Orders(change, rescan, fs, walk) ==
      if rescan then [Complain] + TasksOf(change.kind, change.paths, fs, walk)
      else if IsChange(change.kind) then [] + TasksOf(change.kind, change.paths, fs, walk) else []
  {
  }

  lemma NoTasks(kind: Kind, paths: seq<Path>, fs: (nat, Path) -> Glance, walk: (nat, Path) -> seq<Task>)
    ensures TasksOf(kind, paths[..0], fs, walk) == []
  {
  }

  lemma NonePerformed(s: State, capacity: nat, answers: (nat, Directory) -> Option<Directory>, asked: nat)
    ensures Performed(s, capacity, [], answers, asked) == (s, asked)
  {
  }

  lemma OneMorePath(kind: Kind, paths: seq<Path>, i: nat, fs: (nat, Path) -> Glance, walk: (nat, Path) -> seq<Task>)
    requires i < |paths|
    ensures TasksOf(kind, paths[..i + 1], fs, walk)
      == TasksOf(kind, paths[..i], fs, walk) + TasksFor(kind, paths[i], fs(i, paths[i]), walk(i, paths[i]))
  {
    assert paths[..i + 1][..i] == paths[..i];
    hide TasksFor;
  }

  // ---------------------------------------------------------------------------
  // What a dispatch leaves behind
  // ---------------------------------------------------------------------------

  /** The `k`-th path asks for this task. */
  ghost predicate Requests(kind: Kind, paths: seq<Path>, fs: (nat, Path) -> Glance, walk: (nat, Path) -> seq<Task>, k: nat,
    task: Task)
    requires k < |paths|
  {
    var glance := fs(k, paths[k]);
    && glance.eligible
    && if glance.directory then !kind.Metadata? && task in walk(k, paths[k])
       else Concerns(paths[k]) && task == Visit(paths[k].parent)
  }

  lemma {:induction false} TasksAreRequested(kind: Kind, paths: seq<Path>, fs: (nat, Path) -> Glance,
    walk: (nat, Path) -> seq<Task>, task: Task)
    ensures task in TasksOf(kind, paths, fs, walk)
      <==> exists k :: 0 <= k < |paths| && Requests(kind, paths, fs, walk, k, task)
    decreases |paths|
  {
    if paths != [] {
      var n := |paths| - 1;
      var less := paths[..n];
      TasksAreRequested(kind, less, fs, walk, task);
      assert task in TasksFor(kind, paths[n], fs(n, paths[n]), walk(n, paths[n])) <==> Requests(kind, paths, fs, walk, n, task);
      hide TasksFor;
      if k :| 0 <= k < |paths| && Requests(kind, paths, fs, walk, k, task) {
        assert k < n ==> Requests(kind, less, fs, walk, k, task);
      }
      if k :| 0 <= k < n && Requests(kind, less, fs, walk, k, task) {
        assert Requests(kind, paths, fs, walk, k, task);
      }
    }
  }

  /** How many answers of the filesystem these tasks take. */
  function Visits(tasks: seq<Task>): nat {
    if tasks == [] then 0 else (if tasks[0].Visit? then 1 else 0) + Visits(tasks[1..])
  }

  /** What the `k`-th task, a visit, is told about its directory. */
  function Told(tasks: seq<Task>, k: nat, answers: (nat, Directory) -> Option<Directory>, asked: nat): Option<Directory>
    requires k < |tasks|
  {
    if tasks[k].Visit? then answers(asked + Visits(tasks[..k]), tasks[k].directory) else None
  }

  lemma ToldOn(tasks: seq<Task>, k: nat, answers: (nat, Directory) -> Option<Directory>, asked: nat)
    requires 0 < k < |tasks|
    ensures Told(tasks, k, answers, asked)
      == Told(tasks[1..], k - 1, answers, asked + (if tasks[0].Visit? then 1 else 0))
  {
    assert tasks[..k][1..] == tasks[1..][..k - 1];
  }

  /** One task of a dispatch. */
  function Step(s: State, capacity: nat, task: Task, target: Option<Directory>): State {
    if task.Visit? then Admit(s, capacity, task.directory, target, false).0 else s.(repair := true)
  }

  lemma StepOwes(s: State, capacity: nat, task: Task, target: Option<Directory>)
    requires !s.Halted()
    ensures var t := Step(s, capacity, task, target);
      && !t.Halted() && (s.repair ==> t.repair) && (task.Complain? ==> t.repair)
      && (task.Visit? && target.Some? ==> t.Owes(target.value) || t.repair)
      && (forall key :: s.Owes(key) ==> t.Owes(key))
      && (forall key :: t.Owes(key) && !s.Owes(key) ==> task.Visit? && target == Some(key))
      && (forall key :: t.IsRunning(key) <==> s.IsRunning(key))
  {
  }

  /**
   What performing the tasks of an event leaves behind: each visited directory that resolves is owed a
   pass, or a repair is asked for; a complaint asks for one; nothing that was owed is forgotten, nothing
   else comes to be owed, and what runs goes on running.
   */
  lemma {:induction false} PerformedOwes(s: State, capacity: nat, tasks: seq<Task>,
    answers: (nat, Directory) -> Option<Directory>, asked: nat)
    requires !s.Halted()
    ensures var t := Performed(s, capacity, tasks, answers, asked).0;
      && !t.Halted() && (s.repair ==> t.repair) && (Complain in tasks ==> t.repair)
      && (forall k, key :: 0 <= k < |tasks| && Told(tasks, k, answers, asked) == Some(key) ==> t.Owes(key) || t.repair)
      && (forall key :: s.Owes(key) ==> t.Owes(key))
      && (forall key :: t.Owes(key) && !s.Owes(key) ==> exists k :: 0 <= k < |tasks| && Told(tasks, k, answers, asked) == Some(key))
      && (forall key :: t.IsRunning(key) <==> s.IsRunning(key))
    decreases |tasks|
  {
    hide Admit, State.Owes, State.IsRunning, State.Halted;
    if tasks != [] {
      var task, rest, next := tasks[0], tasks[1..], asked + (if tasks[0].Visit? then 1 else 0);
      assert tasks[..0] == [] && Visits([]) == 0;
      var target := Told(tasks, 0, answers, asked);
      var u, t := Step(s, capacity, task, target), Performed(s, capacity, tasks, answers, asked).0;
      StepOwes(s, capacity, task, target);
      PerformedOwes(u, capacity, rest, answers, next);
      assert tasks == [task] + rest && t == Performed(u, capacity, rest, answers, next).0;
      hide Performed, Step, Visits;
      forall k, key | 0 <= k < |tasks| && Told(tasks, k, answers, asked) == Some(key) ensures t.Owes(key) || t.repair {
        if k > 0 { ToldOn(tasks, k, answers, asked); }
      }
      forall key | t.Owes(key) && !s.Owes(key) ensures exists k :: 0 <= k < |tasks| && Told(tasks, k, answers, asked) == Some(key) {
        if !u.Owes(key) {
          var k :| 0 <= k < |rest| && Told(rest, k, answers, next) == Some(key);
          ToldOn(tasks, k + 1, answers, asked);
        }
      }
    }
  }

  /**
   Dispatching a change visits the parent of each of its eligible audio and lyric files; once it is done,
   that directory had gone, or it is owed a pass, or a repair is asked for.
   */
  lemma FilesAreOwed(s: State, capacity: nat, change: Change, rescan: bool, fs: (nat, Path) -> Glance,
    walk: (nat, Path) -> seq<Task>, answers: (nat, Directory) -> Option<Directory>, asked: nat, i: nat)
    returns (k: nat)
    requires !s.Halted() && IsChange(change.kind) && i < |change.paths| && Watched(fs(i, change.paths[i]), change.paths[i])
    ensures var tasks := Orders(change, rescan, fs, walk);
      var t := Performed(s, capacity, tasks, answers, asked).0;
      && k < |tasks| && tasks[k] == Visit(change.paths[i].parent)
      && (Told(tasks, k, answers, asked).None? || t.Owes(Told(tasks, k, answers, asked).value) || t.repair)
  {
    var task, tasks := Visit(change.paths[i].parent), Orders(change, rescan, fs, walk);
    TasksAreRequested(change.kind, change.paths, fs, walk, task);
    assert Requests(change.kind, change.paths, fs, walk, i, task);
    hide TasksOf, Requests, Performed, Told;
    assert task in TasksOf(change.kind, change.paths, fs, walk);
    assert task in tasks;
    k :| 0 <= k < |tasks| && tasks[k] == task;
    PerformedOwes(s, capacity, tasks, answers, asked);
  }

  // ---------------------------------------------------------------------------
  // The native callback
  // ---------------------------------------------------------------------------

  class Callback {
    var channel: seq<Change>
    var watchLost: bool
    const queue: WorkQueue

    constructor (queue: WorkQueue)
      ensures channel == [] && !watchLost && this.queue == queue
    {
      this.queue, channel, watchLost := queue, [], false;
    }

    /** A signal of lost coverage is never queued, and an overflow of the channel asks for repair. */
    method Hear(message: Message)
      modifies this, queue`repair
      ensures watchLost == (old(watchLost) || message.LosesWatch())
      ensures var taken := !message.LosesWatch() && IsChange(message.kind);
        && channel == old(channel) + (if taken && |old(channel)| < CHANNEL then [Change(message.kind, message.paths)] else [])
        && queue.Now() == if taken && |old(channel)| >= CHANNEL then old(queue.Now()).(repair := true) else old(queue.Now())
    {
      if message.BackendError? {
        watchLost := true;
        return;
      }
      if message.rescan {
        watchLost := true;
        return;
      }
      if message.namesRoot && (message.kind.Remove? || message.kind.Rename?) {
        watchLost := true;
        return;
      }
      if !IsChange(message.kind) {
        return;
      }
      if |channel| < CHANNEL {
        channel := channel + [Change(message.kind, message.paths)];
      } else {
        queue.RequestRepair();
      }
    }
  }

  // ---------------------------------------------------------------------------
  // Polling
  // ---------------------------------------------------------------------------

  function At(snapshot: map<Path, Stamp>, path: Path): Option<Stamp> {
    if path in snapshot then Some(snapshot[path]) else None
  }

  function ChangeOf(current: map<Path, Stamp>, path: Path): Change {
    Change(if path in current then Create else Remove, [path])
  }

  /** The change reports a path among `paths` whose stamp differs. */
  ghost predicate Reports(previous: map<Path, Stamp>, current: map<Path, Stamp>, paths: set<Path>, change: Change) {
    exists path :: path in paths && At(previous, path) != At(current, path) && change == ChangeOf(current, path)
  }

  lemma ReportsOneMore(previous: map<Path, Stamp>, current: map<Path, Stamp>, paths: set<Path>, path: Path,
    change: Change)
    ensures Reports(previous, current, paths + {path}, change)
      <==> Reports(previous, current, paths, change)
           || (At(previous, path) != At(current, path) && change == ChangeOf(current, path))
  {
    if Reports(previous, current, paths, change) {
      var p :| p in paths && At(previous, p) != At(current, p) && change == ChangeOf(current, p);
      assert p in paths + {path};
    }
    if At(previous, path) != At(current, path) && change == ChangeOf(current, path) {
      assert path in paths + {path};
    }
  }

  /** One polling round reports exactly the paths whose stamp differs, as created or as removed. */
  method Compare(previous: map<Path, Stamp>, current: map<Path, Stamp>) returns (changes: seq<Change>)
    ensures forall change :: change in changes <==> Reports(previous, current, previous.Keys + current.Keys, change)
  {
    changes := [];
    var left := current.Keys;
    ghost var seen: set<Path> := {};
    while left != {}
      invariant left <= current.Keys && seen == current.Keys - left
      invariant forall change :: change in changes <==> Reports(previous, current, seen, change)
      decreases left
    {
      var path :| path in left;
      forall change { ReportsOneMore(previous, current, seen, path, change); }
      if At(previous, path) != Some(current[path]) {
        changes := changes + [Change(Create, [path])];
      }
      left, seen := left - {path}, seen + {path};
    }
    left := previous.Keys - current.Keys;
    while left != {}
      invariant left <= previous.Keys - current.Keys && seen == previous.Keys + current.Keys - left
      invariant forall change :: change in changes <==> Reports(previous, current, seen, change)
      decreases left
    {
      var path :| path in left;
      forall change { ReportsOneMore(previous, current, seen, path, change); }
      changes := changes + [Change(Remove, [path])];
      left, seen := left - {path}, seen + {path};
    }
    assert seen == previous.Keys + current.Keys;
  }

  /** The reports of a polling watcher: what each round found when it compared two snapshots. */
  ghost predicate Rounds(snapshots: seq<map<Path, Stamp>>, rounds: seq<seq<Change>>) {
    && |snapshots| == |rounds| + 1
    && forall k :: 0 <= k < |rounds| ==> Round(snapshots, rounds, k)
  }

  ghost predicate Round(snapshots: seq<map<Path, Stamp>>, rounds: seq<seq<Change>>, k: nat)
    requires k < |rounds| && |snapshots| == |rounds| + 1
  {
    forall change :: change in rounds[k]
      <==> Reports(snapshots[k], snapshots[k + 1], snapshots[k].Keys + snapshots[k + 1].Keys, change)
  }

  /** The polling loop: each round compares with the snapshot of the round before. */
  method Poll(snapshots: seq<map<Path, Stamp>>) returns (rounds: seq<seq<Change>>)
    requires snapshots != []
    ensures Rounds(snapshots, rounds)
  {
    hide Reports;
    rounds := [];
    var previous := snapshots[0];
    for i := 1 to |snapshots|
      invariant |rounds| == i - 1 && previous == snapshots[i - 1]
      invariant Rounds(snapshots[..i], rounds)
    {
      var changes := Compare(previous, snapshots[i]);
      ghost var before := rounds;
      rounds := rounds + [changes];
      OneMoreRound(snapshots[..i], snapshots[..i + 1], before, rounds);
      previous := snapshots[i];
    }
    assert snapshots[..|snapshots|] == snapshots;
  }

  lemma OneMoreRound(less: seq<map<Path, Stamp>>, snapshots: seq<map<Path, Stamp>>, before: seq<seq<Change>>,
    rounds: seq<seq<Change>>)
    requires Rounds(less, before) && |rounds| == |before| + 1 && before <= rounds && less <= snapshots
    requires |snapshots| == |rounds| + 1 && Round(snapshots, rounds, |before|)
    ensures Rounds(snapshots, rounds)
  {
    hide Reports;
    forall k | 0 <= k < |rounds| ensures Round(snapshots, rounds, k) {
      if k < |before| { assert Round(less, before, k); }
    }
  }

  /**
   Polling sees every change that lasts: if a path's stamp differs between two snapshots, a round between
   them reports the path, as created or as removed.
   */
  lemma {:induction false} PollingSeesLastingChanges(snapshots: seq<map<Path, Stamp>>, rounds: seq<seq<Change>>, i: nat,
    j: nat, path: Path)
    returns (k: nat)
    requires Rounds(snapshots, rounds) && i < j < |snapshots| && At(snapshots[i], path) != At(snapshots[j], path)
    ensures i <= k < j && ChangeOf(snapshots[k + 1], path) in rounds[k]
    decreases j - i
  {
    if At(snapshots[j - 1], path) != At(snapshots[j], path) {
      k := j - 1;
      assert Round(snapshots, rounds, k);
      assert Reports(snapshots[k], snapshots[k + 1], snapshots[k].Keys + snapshots[k + 1].Keys, ChangeOf(snapshots[k + 1], path));
    } else {
      hide Round, Reports;
      k := PollingSeesLastingChanges(snapshots, rounds, i, j - 1, path);
    }
  }
}
