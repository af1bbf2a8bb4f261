/** How a filesystem event reaches the catalog: the FSEvents adapter's batch
    (internal/adapters/fsevents/watcher_darwin.go), the watch goroutine's debounce window, the pending
    set it shares with the scheduler goroutine, and the forced walk that answers for whatever was
    dropped (internal/scheduler/watch.go, scheduler.go). */
module Handoff {
  import opened Bytes
  import opened Catalog

  const MAX_BATCH_PATHS := 8192
  const MAX_PENDING_RECONCILE := 65536
  const OUT_BUFFER := 8

  /** One event: its normalized path, [] when it is not absolute, and whether its flags say the path
      list is not the whole story. */
  datatype Event = Event(path: Path, rescan: bool)

  /** domain.WatchBatch. */
  datatype Batch = Batch(paths: seq<Path>, rescan: bool)

  const NO_BATCH := Batch([], false)

  // ---------------------------------------------------------------------------------------
  // The adapter

  /** One event folded into the batch. */
  function AbsorbOne(b: Batch, e: Event): Batch {
    if e.rescan then Batch([], true)
    else if b.rescan || e.path == [] then b
    else b.(paths := b.paths + [e.path])
  }

  function AbsorbAll(b: Batch, events: seq<Event>): Batch {
    if events == [] then b else AbsorbOne(AbsorbAll(b, events[..|events| - 1]), events[|events| - 1])
  }

  function Capped(b: Batch): Batch {
    if !b.rescan && |b.paths| > MAX_BATCH_PATHS then Batch([], true) else b
  }

  function Absorbed(b: Batch, events: seq<Event>): Batch { Capped(AbsorbAll(b, events)) }

  /** pump's state: the one batch held back. */
  class Pump {
    var paths: seq<Path>
    var rescan: bool

    constructor ()
      ensures Batch(paths, rescan) == NO_BATCH
    {
      paths, rescan := [], false;
    }

    method Absorb(events: seq<Event>)
      modifies this
      ensures Batch(paths, rescan) == Absorbed(Batch(old(paths), old(rescan)), events)
    {
      for i := 0 to |events|
        invariant Batch(paths, rescan) == AbsorbAll(Batch(old(paths), old(rescan)), events[..i])
      {
        assert events[..i + 1][..i] == events[..i];
        if events[i].rescan {
          rescan, paths := true, [];
        } else if !rescan && events[i].path != [] {
          paths := paths + [events[i].path];
        }
      }
      assert events[..|events|] == events;
      if !rescan && |paths| > MAX_BATCH_PATHS {
        rescan, paths := true, [];
      }
    }

    /** The deliver arm: the held batch goes out and nothing is held. */
    method Deliver() returns (b: Batch)
      requires rescan || paths != []
      modifies this
      ensures b == Batch(old(paths), old(rescan)) && Batch(paths, rescan) == NO_BATCH
    {
      b := Batch(paths, rescan);
      paths, rescan := [], false;
    }
  }

  // ---------------------------------------------------------------------------------------
  // The pending set

  function PathsOf(paths: seq<Path>): set<Path> { set p | p in paths }

  /** mergePending refuses when the merged set would pass the cap; the count is of fresh paths only. */
  predicate Fits(pending: set<Path>, paths: set<Path>) {
    |pending| + |paths - pending| <= MAX_PENDING_RECONCILE
  }

  lemma FitsIsMergedSize(pending: set<Path>, paths: set<Path>)
    ensures Fits(pending, paths) <==> |pending + paths| <= MAX_PENDING_RECONCILE
  {
    assert pending + paths == pending + (paths - pending);
  }

  /** The fields the two goroutines share under the scheduler's lock. Each method is one critical
      section, or a sequence of them that the protocol below interleaves. */
  class Shared {
    var pendingPaths: set<Path>
    var forceScan: bool

    constructor ()
      ensures pendingPaths == {} && !forceScan
    {
      pendingPaths, forceScan := {}, false;
    }

    /** mergePending. */
    method MergePending(paths: set<Path>) returns (held: nat, ok: bool)
      modifies this`pendingPaths
      ensures ok <==> |old(pendingPaths) + paths| <= MAX_PENDING_RECONCILE
      ensures pendingPaths == if ok then old(pendingPaths) + paths else old(pendingPaths)
      ensures held == |pendingPaths|
    {
      FitsIsMergedSize(pendingPaths, paths);
      var newly, todo := 0, paths;
      while todo != {}
        invariant todo <= paths && newly + |todo - pendingPaths| == |paths - pendingPaths|
      {
        var p :| p in todo;
        if p !in pendingPaths {
          assert (todo - {p}) - pendingPaths == (todo - pendingPaths) - {p};
          newly := newly + 1;
        } else {
          assert (todo - {p}) - pendingPaths == todo - pendingPaths;
        }
        todo := todo - {p};
      }
      if |pendingPaths| + newly > MAX_PENDING_RECONCILE {
        return |pendingPaths|, false;
      }
      pendingPaths := pendingPaths + paths;
      return |pendingPaths|, true;
    }

    method TakePending() returns (list: set<Path>)
      modifies this`pendingPaths
      ensures list == old(pendingPaths) && pendingPaths == {}
    {
      list := pendingPaths;
      pendingPaths := {};
    }

    method RequestScan()
      modifies this`forceScan
      ensures forceScan
    {
      forceScan := true;
    }

    /** scanDue: a request is consumed before the walk it asks for. */
    method ScanDue(overdue: bool) returns (due: bool, forced: bool)
      modifies this`forceScan
      ensures forced == old(forceScan) && !forceScan && (due <==> forced || overdue)
    {
      if forceScan {
        forceScan := false;
        return true, true;
      }
      return overdue, false;
    }

    /** restorePending, and enqueue: a set that cannot be held asks for a walk instead. */
    method Restore(paths: set<Path>)
      modifies this
      ensures |old(pendingPaths) + paths| <= MAX_PENDING_RECONCILE ==>
                pendingPaths == old(pendingPaths) + paths && forceScan == old(forceScan)
      ensures |old(pendingPaths) + paths| > MAX_PENDING_RECONCILE ==>
                pendingPaths == old(pendingPaths) && forceScan
    {
      var held, ok := MergePending(paths);
      if !ok {
        RequestScan();
      }
    }

    /** closeWindow: the window's paths become pending, or a walk is asked for in their place. */
    method CloseWindow(paths: set<Path>, rescan: bool)
      requires |pendingPaths| <= MAX_PENDING_RECONCILE
      modifies this
      ensures var held := !rescan && |old(pendingPaths) + paths| <= MAX_PENDING_RECONCILE;
              && pendingPaths == (if held then old(pendingPaths) + paths else old(pendingPaths))
              && forceScan == (old(forceScan) || !held)
    {
      assert pendingPaths + {} == pendingPaths;
      if paths == {} && !rescan {
        return;
      }
      if rescan {
        RequestScan();
        return;
      }
      Restore(paths);
    }
  }

  // ---------------------------------------------------------------------------------------
  // The protocol

  /** Work that has finished: a walk, or a ScanPaths of a list. `start` is how many events had been
      absorbed when it began, all of which it therefore saw the effects of. */
  datatype Work = Walk(start: nat) | Reconcile(start: nat, list: set<Path>)

  /** Where the watch goroutine is. */
  datatype Watching = Reading | Closing | Refused

  /** Where the scheduler goroutine is. */
  datatype Scheduling =
    | Idle
    | Reconciling(start: nat, list: set<Path>)
    | ReconcileFailed(start: nat, list: set<Path>)
    | Restoring(start: nat, list: set<Path>)
    | RestoreRefused(start: nat, list: set<Path>)
    | Walking(start: nat, forced: bool)
    | WalkFailed(start: nat)

  /** Everything between a callback and the catalog. `log` is every usable path ever absorbed, in
      order; a path absorbed along with a rescan flag is in it too. */
  datatype Wire = Wire(
    log: seq<Path>,
    done: seq<Work>,
    batch: Batch,
    channel: seq<Batch>,
    window: set<Path>,
    windowRescan: bool,
    watch: Watching,
    pending: set<Path>,
    forceScan: bool,
    sched: Scheduling)

  const START := Wire([], [], NO_BATCH, [], {}, false, Reading, {}, false, Idle)

  datatype Op =
    | Absorb(events: seq<Event>) | Deliver | Receive | TimerFires | WatcherRequests
    | Take | ReconcileDone | ReconcileFails | FailureRequests | Interrupted | Restore | RefusalRequests
    | WalkStarts | WalkDone | WalkFails | Rearm

  function UsablePaths(events: seq<Event>): seq<Path> {
    if events == [] then []
    else
      var rest := UsablePaths(events[..|events| - 1]);
      var e := events[|events| - 1];
      if e.path == [] then rest else rest + [e.path]
  }

  /** One step of either goroutine, a critical section at a time. */
  ghost predicate Step(s: Wire, op: Op, t: Wire) {
    match op
    case Absorb(events) =>
      t == s.(batch := Absorbed(s.batch, events), log := s.log + UsablePaths(events))
    case Deliver =>
      && (s.batch.rescan || s.batch.paths != []) && |s.channel| < OUT_BUFFER
      && t == s.(batch := NO_BATCH, channel := s.channel + [s.batch])
    case Receive =>
      && s.watch.Reading? && s.channel != []
      && t == s.(channel := s.channel[1..], window := s.window + PathsOf(s.channel[0].paths),
                 windowRescan := s.windowRescan || s.channel[0].rescan)
    case TimerFires =>
      && s.watch.Reading?
      && t == if s.windowRescan then s.(watch := Closing)
              else if Fits(s.pending, s.window) then s.(pending := s.pending + s.window, window := {})
              else s.(watch := Refused)
    case WatcherRequests =>
      && !s.watch.Reading?
      && t == s.(forceScan := true, watch := Reading, window := {}, windowRescan := false)
    case Take =>
      && s.sched.Idle? && s.pending != {}
      && t == s.(pending := {}, sched := Reconciling(|s.log|, s.pending))
    case ReconcileDone =>
      && s.sched.Reconciling?
      && t == s.(sched := Idle, done := s.done + [Reconcile(s.sched.start, s.sched.list)])
    case ReconcileFails =>
      s.sched.Reconciling? && t == s.(sched := ReconcileFailed(s.sched.start, s.sched.list))
    case FailureRequests =>
      s.sched.ReconcileFailed? && t == s.(sched := Idle, forceScan := true)
    case Interrupted =>
      s.sched.Reconciling? && t == s.(sched := Restoring(s.sched.start, s.sched.list))
    case Restore =>
      && s.sched.Restoring?
      && t == if Fits(s.pending, s.sched.list) then s.(pending := s.pending + s.sched.list, sched := Idle)
              else s.(sched := RestoreRefused(s.sched.start, s.sched.list))
    case RefusalRequests =>
      s.sched.RestoreRefused? && t == s.(sched := Idle, forceScan := true)
    case WalkStarts =>
      s.sched.Idle? && t == s.(sched := Walking(|s.log|, s.forceScan), forceScan := false)
    case WalkDone =>
      s.sched.Walking? && t == s.(sched := Idle, done := s.done + [Walk(s.sched.start)])
    case WalkFails =>
      && s.sched.Walking?
      && t == s.(sched := if s.sched.forced then WalkFailed(s.sched.start) else Idle)
    case Rearm =>
      s.sched.WalkFailed? && t == s.(sched := Idle, forceScan := true)
  }

  ghost predicate Run(states: seq<Wire>, ops: seq<Op>) {
    |states| == |ops| + 1 && forall i :: 0 <= i < |ops| ==> Step(states[i], ops[i], states[i + 1])
  }

  // ---------------------------------------------------------------------------------------
  // No silent loss

  /** Work that began after event i and covers it has finished. */
  ghost predicate Answered(s: Wire, i: nat)
    requires i < |s.log|
  {
    exists w :: w in s.done && i < w.start && (w.Walk? || s.log[i] in w.list)
  }

  /** The event's path is still on its way to a reconcile. */
  ghost predicate Held(s: Wire, i: nat)
    requires i < |s.log|
  {
    || s.log[i] in s.batch.paths || (exists b :: b in s.channel && s.log[i] in b.paths)
    || s.log[i] in s.window || s.log[i] in s.pending
    || (!s.sched.Idle? && !s.sched.Walking? && !s.sched.WalkFailed? && i < s.sched.start && s.log[i] in s.sched.list)
  }

  /** A walk that has yet to begin, or began after the event and will be asked for again if it fails,
      answers for it. */
  ghost predicate Flagged(s: Wire, i: nat)
    requires i < |s.log|
  {
    || s.batch.rescan || (exists b :: b in s.channel && b.rescan) || s.windowRescan || s.forceScan
    || (s.sched.Walking? && s.sched.forced && i < s.sched.start)
    || (s.sched.WalkFailed? && i < s.sched.start)
  }

  ghost predicate Accounted(s: Wire, i: nat)
    requires i < |s.log|
  {
    Answered(s, i) || Held(s, i) || Flagged(s, i)
  }

  ghost predicate Bounded(s: Wire) {
    && |s.pending| <= MAX_PENDING_RECONCILE && |s.batch.paths| <= MAX_BATCH_PATHS
    && (s.batch.rescan ==> s.batch.paths == [])
    && (s.watch.Closing? ==> s.windowRescan)
    && (!s.sched.Idle? ==> s.sched.start <= |s.log|)
  }

  ghost predicate AllAccounted(s: Wire) {
    forall i :: 0 <= i < |s.log| ==> Accounted(s, i)
  }

  /** What absorbing keeps: paths held, unless a flag takes over for all of them. */
  lemma {:induction false} AbsorbKeepsPaths(b: Batch, events: seq<Event>)
    requires b.rescan ==> b.paths == []
    ensures var after := AbsorbAll(b, events);
            && (b.rescan ==> after.rescan) && (after.rescan ==> after.paths == [])
            && (!after.rescan ==> forall p :: p in b.paths || p in UsablePaths(events) ==> p in after.paths)
    decreases |events|
  {
    if events != [] {
      AbsorbKeepsPaths(b, events[..|events| - 1]);
    }
  }

  lemma AbsorbedKeeps(b: Batch, events: seq<Event>)
    requires b.rescan ==> b.paths == []
    ensures var after := Absorbed(b, events);
            && (b.rescan ==> after.rescan) && (after.rescan ==> after.paths == []) && |after.paths| <= MAX_BATCH_PATHS
            && (!after.rescan ==> forall p :: p in b.paths || p in UsablePaths(events) ==> p in after.paths)
  {
    AbsorbKeepsPaths(b, events);
    hide AbsorbAll;
  }

  lemma StepKeepsBounds(s: Wire, op: Op, t: Wire)
    requires Bounded(s) && Step(s, op, t)
    ensures Bounded(t)
  {
    match op
    case Absorb(events) => AbsorbedKeeps(s.batch, events);
    case TimerFires => FitsIsMergedSize(s.pending, s.window);
    case Restore => FitsIsMergedSize(s.pending, s.sched.list);
    case _ =>
  }

  /** Steps of the adapter. */
  lemma AdapterKeepsAccount(s: Wire, op: Op, t: Wire, i: nat)
    requires Bounded(s) && Step(s, op, t) && (op.Absorb? || op.Deliver?)
    requires i < |s.log| && Accounted(s, i)
    ensures i < |t.log| && t.log[i] == s.log[i] && Accounted(t, i)
  {
    hide Absorbed, UsablePaths;
    if op.Absorb? {
      AbsorbedKeeps(s.batch, op.events);
    }
    if w :| w in s.done && i < w.start && (w.Walk? || s.log[i] in w.list) {
      assert w in t.done;
    } else if op.Deliver? {
      assert s.batch in t.channel;
      assert forall b :: b in s.channel ==> b in t.channel;
    }
  }

  /** Steps of the watch goroutine. */
  lemma WatchKeepsAccount(s: Wire, op: Op, t: Wire, i: nat)
    requires Bounded(s) && Step(s, op, t) && (op.Receive? || op.TimerFires? || op.WatcherRequests?)
    requires i < |s.log| && Accounted(s, i)
    ensures i < |t.log| && t.log[i] == s.log[i] && Accounted(t, i)
  {
    if w :| w in s.done && i < w.start && (w.Walk? || s.log[i] in w.list) {
      assert w in t.done;
    } else if op.Receive? {
      assert s.channel == [s.channel[0]] + s.channel[1..];
      assert s.log[i] in s.channel[0].paths ==> s.log[i] in t.window;
    }
  }

  /** Steps of the scheduler goroutine. */
  lemma SchedulerKeepsAccount(s: Wire, op: Op, t: Wire, i: nat)
    requires Bounded(s) && Step(s, op, t)
    requires !op.Absorb? && !op.Deliver? && !op.Receive? && !op.TimerFires? && !op.WatcherRequests?
    requires i < |s.log| && Accounted(s, i)
    ensures i < |t.log| && t.log[i] == s.log[i] && Accounted(t, i)
  {
    if w :| w in s.done && i < w.start && (w.Walk? || s.log[i] in w.list) {
      assert w in t.done;
    } else if op.ReconcileDone? {
      assert Reconcile(s.sched.start, s.sched.list) in t.done;
    } else if op.WalkDone? {
      assert Walk(s.sched.start) in t.done;
    }
  }

  /** A path just absorbed is held, or a flag answers for it. */
  lemma NewEventsAccounted(s: Wire, events: seq<Event>, t: Wire, i: nat)
    requires Bounded(s) && Step(s, Absorb(events), t) && |s.log| <= i < |t.log|
    ensures Accounted(t, i)
  {
    hide Absorbed;
    AbsorbedKeeps(s.batch, events);
    assert t.log[i] in UsablePaths(events);
  }

  lemma StepLosesNothing(s: Wire, op: Op, t: Wire)
    requires Bounded(s) && AllAccounted(s) && Step(s, op, t)
    ensures Bounded(t) && AllAccounted(t)
  {
    StepKeepsBounds(s, op, t);
    forall i: nat | i < |t.log| ensures Accounted(t, i) {
      if i < |s.log| {
        AccountKept(s, op, t, i);
      } else {
        NewlyLogged(s, op, t, i);
      }
    }
  }

  lemma AccountKept(s: Wire, op: Op, t: Wire, i: nat)
    requires Bounded(s) && Step(s, op, t) && i < |s.log| && Accounted(s, i)
    ensures i < |t.log| && Accounted(t, i)
  {
    hide Step, Bounded, Accounted;
    if op.Absorb? || op.Deliver? {
      AdapterKeepsAccount(s, op, t, i);
    } else if op.Receive? || op.TimerFires? || op.WatcherRequests? {
      WatchKeepsAccount(s, op, t, i);
    } else {
      SchedulerKeepsAccount(s, op, t, i);
    }
  }

  lemma NewlyLogged(s: Wire, op: Op, t: Wire, i: nat)
    requires Bounded(s) && Step(s, op, t) && |s.log| <= i < |t.log|
    ensures Accounted(t, i)
  {
    hide Accounted, Bounded;
    NewEventsAccounted(s, op.events, t, i);
  }

  /** No silent event loss, under every interleaving: each usable path ever absorbed is on its way to a
      reconcile, or has been through a ScanPaths that began after it, or a completed, running or
      promised walk answers for it; and the pending set never passes its cap. */
  lemma {:induction false} NoEventIsLost(states: seq<Wire>, ops: seq<Op>)
    requires Run(states, ops) && states[0] == START
    ensures forall k :: 0 <= k < |states| ==> AllAccounted(states[k]) && |states[k].pending| <= MAX_PENDING_RECONCILE
    ensures forall k :: 0 <= k < |states| ==> Bounded(states[k])
    decreases |ops|
  {
    hide Step, Accounted;
    if ops == [] {
      assert AllAccounted(START);
    } else {
      var n := |ops| - 1;
      assert Run(states[..n + 1], ops[..n]);
      NoEventIsLost(states[..n + 1], ops[..n]);
      assert Bounded(states[..n + 1][n]) && AllAccounted(states[..n + 1][n]);
      StepLosesNothing(states[n], ops[n], states[n + 1]);
    }
  }

  /** Nothing is waiting anywhere between the adapter and the catalog. */
  ghost predicate Drained(s: Wire) {
    && s.batch == NO_BATCH && s.channel == [] && s.window == {} && !s.windowRescan
    && s.pending == {} && !s.forceScan && s.sched.Idle?
  }

  /** So when everything has drained, every event has been answered by work that began after it. */
  lemma DrainedMeansAnswered(states: seq<Wire>, ops: seq<Op>, i: nat)
    requires Run(states, ops) && states[0] == START && Drained(states[|ops|]) && i < |states[|ops|].log|
    ensures Answered(states[|ops|], i)
  {
    hide Step, Answered;
    NoEventIsLost(states, ops);
    assert Accounted(states[|ops|], i);
  }
}
