/**
  The waveform lock protocol as a step system over any number of calls.

  A call submits, waits for a worker thread, takes its locks in order (polling each one),
  registers itself while it owns the FSDB lock, checks for cancellation, runs its tool body,
  deregisters and releases. Every step of one call may be interleaved with the others'.
 */
module WaveProtocol {
  import opened Wrappers
  import opened WaveLocks
  import opened WavePreemption

  /** A call, which also names the call's cancel event. */
  type Call = nat

  datatype Phase =
    | Submitting   // on the event loop, before the first preemption request
    | Queued       // waiting for a worker thread
    | NextLock     // at the head of the loop over the locks
    | Acquiring    // inside one timed acquire
    | TimedOut     // the timed acquire gave up
    | Polling      // not cancelled, about to request preemption again
    | Registering  // owns the FSDB lock, not yet registered
    | Checking     // owns every lock, at the checkpoint before the body
    | Running      // in the tool body
    | Clearing     // in the cleanup, before deregistering
    | Releasing    // releasing locks, last one first
    | Done

  datatype Worker = Worker(
    locks: seq<Lock>, hasFsdb: bool, priority: int, phase: Phase, held: nat, ownsFsdb: bool)

  /** `events` are the calls whose cancel event is set; `slots` is the worker-thread limit. */
  datatype State = State(
    workers: map<Call, Worker>, owner: map<Lock, Call>, active: Option<Active<Call>>,
    events: set<Call>, slots: nat)

  datatype Step =
    | Arrive(w: Call, paths: seq<string>, priority: int)
    | SubmitPreempt(w: Call)
    | Start(w: Call)
    | Abandon(w: Call)
    | BeginLock(w: Call)
    | Acquire(w: Call)
    | Timeout(w: Call)
    | PollCancel(w: Call)
    | PollPreempt(w: Call)
    | Register(w: Call)
    | CheckCancelled(w: Call)
    | Work(w: Call)
    | Checkpoint(w: Call)
    | Finish(w: Call)
    | ClearActive(w: Call)
    | Release(w: Call)
    | ClientCancel(w: Call)

  predicate InThread(phase: Phase) {
    !phase.Submitting? && !phase.Queued? && !phase.Done?
  }

  /** Waiting for the next lock. */
  predicate Waiting(phase: Phase) {
    phase.Acquiring? || phase.TimedOut? || phase.Polling?
  }

  /** Past deregistration. */
  predicate Ended(phase: Phase) {
    phase.Releasing? || phase.Done?
  }

  ghost function ThreadsInUse(s: State): set<Call> {
    set w | w in s.workers && InThread(s.workers[w].phase)
  }

  function Init(slots: nat): State {
    State(map[], map[], None, {}, slots)
  }

  ghost predicate At(s: State, w: Call, phase: Phase) {
    w in s.workers && s.workers[w].phase == phase && s.workers[w].held <= |s.workers[w].locks|
  }

  /** The lock a call is about to take. */
  function Awaited(worker: Worker): Lock
    requires worker.held < |worker.locks|
  {
    worker.locks[worker.held]
  }

  ghost predicate Enabled(s: State, step: Step) {
    match step
    case Arrive(w, _, _) => w !in s.workers
    case SubmitPreempt(w) => At(s, w, Submitting)
    case Start(w) => At(s, w, Queued) && |ThreadsInUse(s)| < s.slots
    case Abandon(w) => At(s, w, Queued) && w in s.events
    case BeginLock(w) => At(s, w, NextLock)
    case Acquire(w) =>
      At(s, w, Acquiring) && s.workers[w].held < |s.workers[w].locks| && Awaited(s.workers[w]) !in s.owner
    case Timeout(w) => At(s, w, Acquiring) && s.workers[w].held < |s.workers[w].locks|
    case PollCancel(w) => At(s, w, TimedOut) && s.workers[w].held < |s.workers[w].locks|
    case PollPreempt(w) => At(s, w, Polling)
    case Register(w) => At(s, w, Registering)
    case CheckCancelled(w) => At(s, w, Checking)
    case Work(w) => At(s, w, Running)
    case Checkpoint(w) => At(s, w, Running)
    case Finish(w) => At(s, w, Running)
    case ClearActive(w) => At(s, w, Clearing)
    case Release(w) => At(s, w, Releasing)
    case ClientCancel(w) => w in s.workers
  }

  function Put(s: State, w: Call, worker: Worker): State {
    s.(workers := s.workers[w := worker])
  }

  function Go(s: State, w: Call, phase: Phase): State
    requires w in s.workers
  {
    Put(s, w, s.workers[w].(phase := phase))
  }

  /** A preemption request by `w`: the victim's event, if there is one, is set. */
  function Preempt(s: State, w: Call): State
    requires w in s.workers
  {
    match Victim(s.active, w, s.workers[w].priority)
    case Some(v) => s.(events := s.events + {v})
    case None => s
  }

  /** A worker with its next lock; the FSDB lock has to be registered first. */
  function WithNext(worker: Worker): Worker
    requires worker.held < |worker.locks|
  {
    if Awaited(worker) == FsdbLock
    then worker.(held := worker.held + 1, ownsFsdb := true, phase := Registering)
    else worker.(held := worker.held + 1, phase := NextLock)
  }

  function Acquired(s: State, w: Call): State
    requires w in s.workers && s.workers[w].held < |s.workers[w].locks|
  {
    Put(s.(owner := s.owner[Awaited(s.workers[w]) := w]), w, WithNext(s.workers[w]))
  }

  function Released(s: State, w: Call): State
    requires w in s.workers && 0 < s.workers[w].held <= |s.workers[w].locks|
  {
    var worker := s.workers[w];
    Put(s.(owner := s.owner - {worker.locks[worker.held - 1]}), w, worker.(held := worker.held - 1))
  }

  ghost function Next(s: State, step: Step): State
    requires Enabled(s, step)
  {
    match step
    case Arrive(w, paths, priority) =>
      Put(s, w, Worker(LocksFor(paths), exists i | 0 <= i < |paths| :: IsFsdb(paths[i]), priority,
                       Submitting, 0, false))
    case SubmitPreempt(w) => Go(if s.workers[w].hasFsdb then Preempt(s, w) else s, w, Queued)
    case Start(w) => Go(s, w, NextLock)
    case Abandon(w) => Go(s, w, Done)
    case BeginLock(w) =>
      var worker := s.workers[w];
      if worker.held == |worker.locks| then Go(s, w, Checking)
      else Go(if Awaited(worker) == FsdbLock then Preempt(s, w) else s, w, Acquiring)
    case Acquire(w) => Acquired(s, w)
    case Timeout(w) => Go(s, w, TimedOut)
    case PollCancel(w) =>
      if w in s.events then Go(s, w, Clearing)
      else Go(s, w, if Awaited(s.workers[w]) == FsdbLock then Polling else Acquiring)
    case PollPreempt(w) => Go(Preempt(s, w), w, Acquiring)
    case Register(w) => Go(s.(active := Some(Active(w, s.workers[w].priority))), w, NextLock)
    case CheckCancelled(w) => Go(s, w, if w in s.events then Clearing else Running)
    case Work(w) => s
    case Checkpoint(w) => if w in s.events then Go(s, w, Clearing) else s
    case Finish(w) => Go(s, w, Clearing)
    case ClearActive(w) =>
      Go(if s.workers[w].ownsFsdb then s.(active := Cleared(s.active, w)) else s, w, Releasing)
    case Release(w) => if s.workers[w].held > 0 then Released(s, w) else Go(s, w, Done)
    case ClientCancel(w) => s.(events := s.events + {w})
  }

  // ---- Runs ----

  ghost predicate IsRun(s: State, steps: seq<Step>)
    decreases |steps|
  {
    steps == [] || (Enabled(s, steps[0]) && IsRun(Next(s, steps[0]), steps[1..]))
  }

  ghost function Run(s: State, steps: seq<Step>): State
    requires IsRun(s, steps)
    decreases |steps|
  {
    if steps == [] then s else Run(Next(s, steps[0]), steps[1..])
  }

  ghost predicate Reachable(s: State) {
    exists slots: nat, steps :: IsRun(Init(slots), steps) && Run(Init(slots), steps) == s
  }

  // ---- The invariant ----

  /** The locks a call has acquired and not released. */
  ghost function HeldSet(worker: Worker): set<Lock>
    requires worker.held <= |worker.locks|
  {
    set i | 0 <= i < worker.held :: worker.locks[i]
  }

  /** Owns the FSDB lock and has registered, and has not yet deregistered. */
  ghost predicate Registered(worker: Worker) {
    worker.ownsFsdb && !worker.phase.Registering? && !Ended(worker.phase)
  }

  ghost predicate WorkerOk(worker: Worker) {
    && Ascending(worker.locks)
    && worker.held <= |worker.locks|
    && (!InThread(worker.phase) ==> worker.held == 0)
    && (Waiting(worker.phase) ==> worker.held < |worker.locks|)
    && (worker.phase.Polling? ==> Awaited(worker) == FsdbLock)
    && (worker.phase.Checking? || worker.phase.Running? ==> worker.held == |worker.locks|)
    && (!Ended(worker.phase) ==> (worker.ownsFsdb <==> FsdbLock in HeldSet(worker)))
    && (worker.phase.Registering? ==> worker.ownsFsdb)
  }

  ghost predicate WorkersOk(s: State) {
    && s.events <= s.workers.Keys
    && forall w | w in s.workers :: WorkerOk(s.workers[w])
  }

  /** Exactly the calls that acquired a lock own it. */
  ghost predicate OwnersOk(s: State)
    requires WorkersOk(s)
  {
    && (forall l | l in s.owner :: s.owner[l] in s.workers)
    && (forall w | w in s.workers :: OwnsHeld(s.owner, w, s.workers[w]))
  }

  ghost predicate OwnsHeld(owner: map<Lock, Call>, w: Call, worker: Worker)
    requires worker.held <= |worker.locks|
  {
    forall l :: l in HeldSet(worker) <==> l in owner && owner[l] == w
  }

  ghost predicate ActiveOk(s: State) {
    && (s.active.Some? ==> s.active.value.event in s.workers && Registered(s.workers[s.active.value.event]))
    && (forall w | w in s.workers && Registered(s.workers[w]) :: s.active == Some(Active(w, s.workers[w].priority)))
  }

  ghost predicate Inv(s: State) {
    WorkersOk(s) && OwnersOk(s) && ActiveOk(s)
  }

  /** Registered calls own the FSDB lock, and there is one owner. */
  lemma OneRegistered(s: State, a: Call, b: Call)
    requires Inv(s) && a in s.workers && b in s.workers
    requires s.workers[a].ownsFsdb && !Ended(s.workers[a].phase)
    requires s.workers[b].ownsFsdb && !Ended(s.workers[b].phase)
    ensures a == b
  {
    assert OwnsHeld(s.owner, a, s.workers[a]) && OwnsHeld(s.owner, b, s.workers[b]);
  }

  lemma HeldGrows(worker: Worker, next: Worker)
    requires worker.held < |worker.locks| && next.locks == worker.locks && next.held == worker.held + 1
    ensures HeldSet(next) == HeldSet(worker) + {Awaited(worker)}
  {
    forall l | l in HeldSet(worker) + {Awaited(worker)} ensures l in HeldSet(next) {
      if l == Awaited(worker) {
        assert next.locks[worker.held] in HeldSet(next);
      } else {
        var i :| 0 <= i < worker.held && worker.locks[i] == l;
        assert next.locks[i] in HeldSet(next);
      }
    }
  }

  lemma HeldShrinks(worker: Worker, next: Worker)
    requires Ascending(worker.locks) && 0 < worker.held <= |worker.locks|
    requires next.locks == worker.locks && next.held == worker.held - 1
    ensures HeldSet(next) == HeldSet(worker) - {worker.locks[worker.held - 1]}
    ensures worker.locks[worker.held - 1] in HeldSet(worker)
  {
    HeldGrows(next, worker);
    forall l | l in HeldSet(next) ensures l != worker.locks[next.held] {
      var i :| 0 <= i < next.held && next.locks[i] == l;
      if l == worker.locks[next.held] { AscendingDistinct(worker.locks, i, next.held); }
    }
  }

  lemma WithNextOk(worker: Worker)
    requires WorkerOk(worker) && worker.phase.Acquiring? && worker.held < |worker.locks|
    ensures WorkerOk(WithNext(worker)) && HeldSet(WithNext(worker)) == HeldSet(worker) + {Awaited(worker)}
    ensures Registered(WithNext(worker)) <==> Registered(worker)
  {
    HeldGrows(worker, WithNext(worker));
    if Awaited(worker) == FsdbLock && FsdbLock in HeldSet(worker) {
      var i :| 0 <= i < worker.held && worker.locks[i] == FsdbLock;
      AscendingDistinct(worker.locks, i, worker.held);
    }
  }

  lemma AcquiredInv(s: State, w: Call)
    requires Inv(s) && At(s, w, Acquiring) && s.workers[w].held < |s.workers[w].locks|
    requires Awaited(s.workers[w]) !in s.owner
    ensures Inv(Acquired(s, w))
  {
    WithNextOk(s.workers[w]);
    OwnersTake(s, Acquired(s, w), w, Awaited(s.workers[w]));
  }

  lemma ReleasedInv(s: State, w: Call)
    requires Inv(s) && At(s, w, Releasing) && s.workers[w].held > 0
    ensures Inv(Released(s, w))
  {
    var worker, t := s.workers[w], Released(s, w);
    HeldShrinks(worker, t.workers[w]);
    assert WorkersOk(t);
    OwnersGive(s, t, w, worker.locks[worker.held - 1]);
    assert ActiveOk(t);
  }

  /** One call takes a free lock. */
  lemma OwnersTake(s: State, t: State, w: Call, lock: Lock)
    requires WorkersOk(s) && OwnersOk(s) && WorkersOk(t) && w in s.workers && w in t.workers
    requires t.workers == s.workers[w := t.workers[w]]
    requires lock !in s.owner && t.owner == s.owner[lock := w]
    requires HeldSet(t.workers[w]) == HeldSet(s.workers[w]) + {lock}
    ensures OwnersOk(t)
  {
    forall v | v in t.workers ensures OwnsHeld(t.owner, v, t.workers[v]) {
      assert OwnsHeld(s.owner, v, s.workers[v]);
    }
  }

  /** One call gives back a lock it holds. */
  lemma OwnersGive(s: State, t: State, w: Call, lock: Lock)
    requires WorkersOk(s) && OwnersOk(s) && WorkersOk(t) && w in s.workers && w in t.workers
    requires t.workers == s.workers[w := t.workers[w]]
    requires lock in HeldSet(s.workers[w]) && t.owner == s.owner - {lock}
    requires HeldSet(t.workers[w]) == HeldSet(s.workers[w]) - {lock}
    ensures OwnersOk(t)
  {
    assert OwnsHeld(s.owner, w, s.workers[w]);
    forall v | v in t.workers ensures OwnsHeld(t.owner, v, t.workers[v]) {
      assert OwnsHeld(s.owner, v, s.workers[v]);
    }
  }

  /** A state that leaves every lock where it is keeps the ownership part. */
  lemma OwnersFrame(s: State, t: State)
    requires WorkersOk(s) && OwnersOk(s) && WorkersOk(t) && t.owner == s.owner
    requires s.workers.Keys <= t.workers.Keys
    requires forall w | w in t.workers && w in s.workers ::
      t.workers[w].locks == s.workers[w].locks && t.workers[w].held == s.workers[w].held
    requires forall w | w in t.workers && w !in s.workers :: t.workers[w].held == 0
    ensures OwnersOk(t)
  {
    forall w | w in t.workers ensures OwnsHeld(t.owner, w, t.workers[w]) {
      if w in s.workers {
        assert OwnsHeld(s.owner, w, s.workers[w]);
        assert HeldSet(t.workers[w]) == HeldSet(s.workers[w]);
      }
    }
  }

  lemma ArriveInv(s: State, w: Call, paths: seq<string>, hasFsdb: bool, priority: int)
    requires Inv(s) && w !in s.workers
    ensures Inv(Put(s, w, Worker(LocksFor(paths), hasFsdb, priority, Submitting, 0, false)))
  {
    LocksAscend(paths);
    OwnersFrame(s, Put(s, w, Worker(LocksFor(paths), hasFsdb, priority, Submitting, 0, false)));
  }

  /** Registering never overwrites a live registration. */
  lemma RegisterInv(s: State, w: Call)
    requires Inv(s) && At(s, w, Registering)
    ensures s.active == None
    ensures Inv(Go(s.(active := Some(Active(w, s.workers[w].priority))), w, NextLock))
  {
    var t := Go(s.(active := Some(Active(w, s.workers[w].priority))), w, NextLock);
    forall v | v in s.workers && Registered(s.workers[v]) ensures v == w {
      OneRegistered(s, v, w);
    }
    assert HeldSet(t.workers[w]) == HeldSet(s.workers[w]);
    OwnersFrame(s, t);
  }

  /** A call that owns the FSDB lock clears its own registration, never another's. */
  lemma ClearInv(s: State, w: Call)
    requires Inv(s) && At(s, w, Clearing)
    ensures s.workers[w].ownsFsdb ==> s.active.Some? && s.active.value.event == w
    ensures Inv(Go(if s.workers[w].ownsFsdb then s.(active := Cleared(s.active, w)) else s, w, Releasing))
  {
    var t := Go(if s.workers[w].ownsFsdb then s.(active := Cleared(s.active, w)) else s, w, Releasing);
    OwnersFrame(s, t);
    forall v | v in t.workers && Registered(t.workers[v]) ensures t.active == Some(Active(v, t.workers[v].priority)) {
      assert Registered(s.workers[v]);
    }
  }

  /** Moving one call to another phase, when neither its locks nor its registration depend on it. */
  lemma GoInv(s: State, w: Call, phase: Phase)
    requires Inv(s) && w in s.workers
    requires HeldSet(Go(s, w, phase).workers[w]) == HeldSet(s.workers[w]) ==> WorkerOk(Go(s, w, phase).workers[w])
    requires Registered(Go(s, w, phase).workers[w]) <==> Registered(s.workers[w])
    ensures Inv(Go(s, w, phase))
  {
    var t := Go(s, w, phase);
    assert HeldSet(t.workers[w]) == HeldSet(s.workers[w]);
    assert WorkersOk(t);
    OwnersFrame(s, t);
    assert ActiveOk(t);
  }

  lemma EventInv(s: State, e: Call)
    requires Inv(s) && e in s.workers
    ensures Inv(s.(events := s.events + {e}))
  {
    OwnersFrame(s, s.(events := s.events + {e}));
  }

  lemma PreemptInv(s: State, w: Call)
    requires Inv(s) && w in s.workers
    ensures Inv(Preempt(s, w))
  {
    var v := Victim(s.active, w, s.workers[w].priority);
    if v.Some? {
      EventInv(s, v.value);
    }
  }

  lemma BeginLockInv(s: State, w: Call)
    requires Inv(s) && Enabled(s, BeginLock(w))
    ensures Inv(Next(s, BeginLock(w)))
  {
    var worker := s.workers[w];
    assert WorkerOk(worker);
    if worker.held == |worker.locks| {
      GoInv(s, w, Checking);
    } else if Awaited(worker) == FsdbLock {
      PreemptInv(s, w);
      GoInv(Preempt(s, w), w, Acquiring);
    } else {
      GoInv(s, w, Acquiring);
    }
  }

  lemma PolledOk(worker: Worker, phase: Phase)
    requires WorkerOk(worker) && worker.phase.TimedOut?
    requires phase.Clearing? || phase.Acquiring? || (phase.Polling? && Awaited(worker) == FsdbLock)
    ensures WorkerOk(worker.(phase := phase)) && (Registered(worker.(phase := phase)) <==> Registered(worker))
  {
    assert HeldSet(worker.(phase := phase)) == HeldSet(worker);
  }

  lemma PollInv(s: State, w: Call)
    requires Inv(s) && Enabled(s, PollCancel(w))
    ensures Inv(Next(s, PollCancel(w)))
  {
    assert WorkerOk(s.workers[w]);
    var phase := if w in s.events then Clearing else if Awaited(s.workers[w]) == FsdbLock then Polling else Acquiring;
    PolledOk(s.workers[w], phase);
    GoInv(s, w, phase);
  }

  /** The steps before a call has its locks. */
  lemma EarlyStepInv(s: State, step: Step)
    requires Inv(s) && Enabled(s, step)
    requires step.SubmitPreempt? || step.Start? || step.Abandon? || step.Timeout? || step.PollPreempt?
    ensures Inv(Next(s, step))
  {
    var w := step.w;
    PreemptInv(s, w);
    assert WorkerOk(s.workers[w]);
    match step
    case SubmitPreempt(_) => GoInv(if s.workers[w].hasFsdb then Preempt(s, w) else s, w, Queued);
    case Start(_) => GoInv(s, w, NextLock);
    case Abandon(_) => GoInv(s, w, Done);
    case Timeout(_) => GoInv(s, w, TimedOut);
    case PollPreempt(_) => GoInv(Preempt(s, w), w, Acquiring);
  }

  /** The steps of a call that has its locks. */
  lemma LateStepInv(s: State, step: Step)
    requires Inv(s) && Enabled(s, step)
    requires step.CheckCancelled? || step.Checkpoint? || step.Finish?
    ensures Inv(Next(s, step))
  {
    var w := step.w;
    assert WorkerOk(s.workers[w]);
    GoInv(s, w, Clearing);
    match step
    case CheckCancelled(_) => GoInv(s, w, if w in s.events then Clearing else Running);
    case Checkpoint(_) =>
    case Finish(_) =>
  }

  lemma StepKeepsInv(s: State, step: Step)
    requires Inv(s) && Enabled(s, step)
    ensures Inv(Next(s, step))
  {
    match step
    case Arrive(w, paths, priority) =>
      ArriveInv(s, w, paths, exists i | 0 <= i < |paths| :: IsFsdb(paths[i]), priority);
    case BeginLock(w) => BeginLockInv(s, w);
    case Acquire(w) => AcquiredInv(s, w);
    case PollCancel(w) => PollInv(s, w);
    case Register(w) => RegisterInv(s, w);
    case ClearActive(w) => ClearInv(s, w);
    case Release(w) => if s.workers[w].held > 0 { ReleasedInv(s, w); } else { GoInv(s, w, Done); }
    case ClientCancel(w) => EventInv(s, w);
    case Work(_) =>
    case SubmitPreempt(_) => EarlyStepInv(s, step);
    case Start(_) => EarlyStepInv(s, step);
    case Abandon(_) => EarlyStepInv(s, step);
    case Timeout(_) => EarlyStepInv(s, step);
    case PollPreempt(_) => EarlyStepInv(s, step);
    case CheckCancelled(_) => LateStepInv(s, step);
    case Checkpoint(_) => LateStepInv(s, step);
    case Finish(_) => LateStepInv(s, step);
  }

  lemma {:induction false} RunKeepsInv(s: State, steps: seq<Step>)
    requires Inv(s) && IsRun(s, steps)
    ensures Inv(Run(s, steps))
    decreases |steps|
  {
    if steps != [] {
      StepKeepsInv(s, steps[0]);
      RunKeepsInv(Next(s, steps[0]), steps[1..]);
    }
  }

  /** Every reachable state satisfies the invariant. */
  lemma ReachableInv(s: State)
    requires Reachable(s)
    ensures Inv(s)
  {
    var slots: nat, steps :| IsRun(Init(slots), steps) && Run(Init(slots), steps) == s;
    RunKeepsInv(Init(slots), steps);
  }
}
