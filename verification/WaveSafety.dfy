/** What the lock protocol guarantees in every reachable state and over every run. */
module WaveSafety {
  import opened Wrappers
  import opened WaveLocks
  import opened WavePreemption
  import opened WaveProtocol

  /** Two calls in their tool bodies share no lock; in particular two FSDB bodies never overlap. */
  lemma BodiesExcludeEachOther(s: State, a: Call, b: Call, lock: Lock)
    requires Reachable(s)
    requires At(s, a, Running) && At(s, b, Running)
    requires lock in s.workers[a].locks && lock in s.workers[b].locks
    ensures a == b
  {
    ReachableInv(s);
    assert lock in HeldSet(s.workers[a]) && lock in HeldSet(s.workers[b]);
    assert OwnsHeld(s.owner, a, s.workers[a]) && OwnsHeld(s.owner, b, s.workers[b]);
  }

  /** The registration names an owner of the FSDB lock, with its priority, and names every registered call. */
  lemma RegistrationIsExact(s: State)
    requires Reachable(s)
    ensures s.active.Some? ==>
      var h := s.active.value.event;
      h in s.workers && FsdbLock in s.owner && s.owner[FsdbLock] == h
        && s.active.value.priority == s.workers[h].priority
    ensures forall w | w in s.workers ::
      Registered(s.workers[w]) <==> s.active.Some? && s.active.value.event == w
  {
    ReachableInv(s);
    if s.active.Some? {
      var h := s.active.value.event;
      assert WorkerOk(s.workers[h]);
      assert OwnsHeld(s.owner, h, s.workers[h]);
    }
  }

  /** Registering finds no live registration. */
  lemma RegisteringOverwritesNone(s: State, w: Call)
    requires Reachable(s) && At(s, w, Registering)
    ensures s.active == None
  {
    ReachableInv(s);
    RegisterInv(s, w);
  }

  /** A cleanup that owned the FSDB lock removes its own registration; one that did not removes none. */
  lemma ClearingRemovesOwn(s: State, w: Call)
    requires Reachable(s) && At(s, w, Clearing)
    ensures s.workers[w].ownsFsdb ==> s.active == Some(Active(w, s.workers[w].priority))
    ensures !s.workers[w].ownsFsdb && s.active.Some? ==> s.active.value.event != w
  {
    ReachableInv(s);
    assert s.workers[w].ownsFsdb <==> Registered(s.workers[w]);
  }

  /** A finished call holds no lock and is not registered. */
  lemma FinishedHoldsNothing(s: State, w: Call)
    requires Reachable(s) && At(s, w, Done)
    ensures forall l | l in s.owner :: s.owner[l] != w
    ensures s.active.Some? ==> s.active.value.event != w
  {
    ReachableInv(s);
    assert WorkerOk(s.workers[w]);
    assert OwnsHeld(s.owner, w, s.workers[w]);
  }

  // ---- Who sets an event ----

  /** The step asks for preemption: at submit, before a first acquire, or after a timed-out poll. */
  ghost predicate RequestsPreemption(s: State, step: Step) {
    Enabled(s, step) &&
    match step
    case SubmitPreempt(w) => s.workers[w].hasFsdb
    case BeginLock(w) => s.workers[w].held < |s.workers[w].locks| && Awaited(s.workers[w]) == FsdbLock
    case PollPreempt(w) => true
    case _ => false
  }

  /** The step is a legitimate reason for `w`'s event to become set. */
  ghost predicate Arms(s: State, step: Step, w: Call) {
    || step == ClientCancel(w)
    || (&& RequestsPreemption(s, step) && step.w in s.workers && w in s.workers
        && s.active.Some? && s.active.value.event == w
        && Registered(s.workers[w])
        && s.workers[w].priority < s.workers[step.w].priority)
  }

  lemma StepArms(s: State, step: Step, w: Call)
    requires Inv(s) && Enabled(s, step)
    requires w in Next(s, step).events && w !in s.events
    ensures Arms(s, step, w)
  {
    if !step.ClientCancel? {
      assert s.active.Some? ==> s.active.value.priority == s.workers[s.active.value.event].priority;
    }
  }

  /** Some step of the run is a legitimate reason for `w`'s event. */
  ghost predicate ArmedDuring(s: State, steps: seq<Step>, w: Call)
    requires IsRun(s, steps)
    decreases |steps|
  {
    steps != [] && (Arms(s, steps[0], w) || ArmedDuring(Next(s, steps[0]), steps[1..], w))
  }

  /**
    Over every run: an event set by the end was set by its own client's cancellation or by a
    waiter of strictly higher priority while its call was registered.
   */
  lemma {:induction false} EventHasCause(s: State, steps: seq<Step>, w: Call)
    requires Inv(s) && IsRun(s, steps)
    requires w !in s.events && w in Run(s, steps).events
    ensures ArmedDuring(s, steps, w)
    decreases |steps|
  {
    StepKeepsInv(s, steps[0]);
    if w in Next(s, steps[0]).events {
      StepArms(s, steps[0], w);
    } else {
      EventHasCause(Next(s, steps[0]), steps[1..], w);
    }
  }

  lemma {:induction false} WorkerKept(s: State, steps: seq<Step>, w: Call)
    requires IsRun(s, steps) && w in s.workers
    ensures w in Run(s, steps).workers && Run(s, steps).workers[w].priority == s.workers[w].priority
    decreases |steps|
  {
    if steps != [] {
      StepKeepsWorker(s, steps[0], w);
      WorkerKept(Next(s, steps[0]), steps[1..], w);
    }
  }

  lemma StepKeepsWorker(s: State, step: Step, w: Call)
    requires Enabled(s, step) && w in s.workers
    ensures w in Next(s, step).workers && Next(s, step).workers[w].priority == s.workers[w].priority
  {
  }

  ghost predicate PrioritiesUpTo(s: State, top: int) {
    forall w | w in s.workers :: s.workers[w].priority <= top
  }

  /** A call of the highest priority in use is cancelled only by its own client. */
  lemma {:induction false} TopPriorityOnlyClientCancels(s: State, steps: seq<Step>, w: Call, top: int)
    requires Inv(s) && IsRun(s, steps) && PrioritiesUpTo(s, top)
    requires forall i | 0 <= i < |steps| && steps[i].Arrive? :: steps[i].priority <= top
    requires w !in s.events && w in Run(s, steps).events
    requires w in Run(s, steps).workers && Run(s, steps).workers[w].priority == top
    ensures ClientCancel(w) in steps
    decreases |steps|
  {
    var t := Next(s, steps[0]);
    StepKeepsInv(s, steps[0]);
    if w in t.events {
      StepArms(s, steps[0], w);
      WorkerKept(s, steps, w);
      assert steps[0] == ClientCancel(w);
    } else {
      forall v | v in t.workers ensures t.workers[v].priority <= top {
        if v in s.workers { StepKeepsWorker(s, steps[0], v); }
      }
      assert forall i | 0 <= i < |steps[1..]| && steps[1..][i].Arrive? :: steps[1..][i] == steps[i + 1];
      TopPriorityOnlyClientCancels(t, steps[1..], w, top);
      assert ClientCancel(w) in steps[1..];
    }
  }

  // ---- Cancelled calls ----

  /** The event is set and the body has not been entered. */
  ghost predicate CancelledBeforeBody(s: State, w: Call) {
    w in s.workers && w in s.events && !s.workers[w].phase.Running?
  }

  lemma StepKeepsOutOfBody(s: State, step: Step, w: Call)
    requires Enabled(s, step) && CancelledBeforeBody(s, w)
    ensures CancelledBeforeBody(Next(s, step), w)
  {
  }

  /** A call whose event is set before its last checkpoint never runs its body. */
  lemma {:induction false} CancelledNeverRuns(s: State, steps: seq<Step>, w: Call)
    requires IsRun(s, steps) && CancelledBeforeBody(s, w)
    ensures CancelledBeforeBody(Run(s, steps), w)
    decreases |steps|
  {
    if steps != [] {
      StepKeepsOutOfBody(s, steps[0], w);
      CancelledNeverRuns(Next(s, steps[0]), steps[1..], w);
    }
  }

  /** A call that ends without its event set has run its body to the end. */
  lemma {:induction false} UncancelledRuns(s: State, steps: seq<Step>, w: Call)
    requires IsRun(s, steps) && (w in s.workers ==> !Over(s.workers[w].phase))
    requires w in Run(s, steps).workers && Over(Run(s, steps).workers[w].phase) && w !in Run(s, steps).events
    ensures Finish(w) in steps
    decreases |steps|
  {
    var t := Next(s, steps[0]);
    if w in s.events {
      EventsLast(s, steps, w);
    } else if w in t.workers && Over(t.workers[w].phase) {
      OnlyFinishEnds(s, steps[0], w);
    } else {
      UncancelledRuns(t, steps[1..], w);
      assert Finish(w) in steps[1..];
    }
  }

  lemma OnlyFinishEnds(s: State, step: Step, w: Call)
    requires Enabled(s, step) && w !in s.events && (w in s.workers ==> !Over(s.workers[w].phase))
    requires w in Next(s, step).workers && Over(Next(s, step).workers[w].phase)
    ensures step == Finish(w)
  {
  }

  /** Past the body, or past the point where it was skipped. */
  predicate Over(phase: Phase) {
    phase.Clearing? || phase.Releasing? || phase.Done?
  }

  lemma {:induction false} EventsLast(s: State, steps: seq<Step>, w: Call)
    requires IsRun(s, steps) && w in s.events
    ensures w in Run(s, steps).events
    decreases |steps|
  {
    if steps != [] {
      EventsLast(Next(s, steps[0]), steps[1..], w);
    }
  }

  // ---- Arrivals ----

  ghost predicate NamesFsdb(paths: seq<string>) {
    exists i :: 0 <= i < |paths| && IsFsdb(paths[i])
  }

  /** The call has what its path list and its caller give it. */
  ghost predicate ArrivedWith(s: State, w: Call, paths: seq<string>, priority: int) {
    && w in s.workers
    && s.workers[w].locks == LocksFor(paths) && s.workers[w].priority == priority
    && (s.workers[w].hasFsdb <==> NamesFsdb(paths))
  }

  lemma StepKeepsWants(s: State, step: Step, w: Call)
    requires Enabled(s, step) && w in s.workers
    ensures var v := Next(s, step).workers;
      w in v && v[w].locks == s.workers[w].locks && v[w].priority == s.workers[w].priority
      && v[w].hasFsdb == s.workers[w].hasFsdb
  {
  }

  lemma {:induction false} ArrivalStays(s: State, steps: seq<Step>, w: Call, paths: seq<string>, priority: int)
    requires IsRun(s, steps) && ArrivedWith(s, w, paths, priority)
    ensures ArrivedWith(Run(s, steps), w, paths, priority)
    decreases |steps|
  {
    if steps != [] {
      StepKeepsWants(s, steps[0], w);
      ArrivalStays(Next(s, steps[0]), steps[1..], w, paths, priority);
    }
  }

  /**
    Whatever happens between a call's arrival and its submission, worker threads free or not:
    the submission sets the event of a registered holder of lower priority than the call's
    exactly if one of the call's paths is an FSDB path, and it sets no other.
   */
  lemma SubmissionPreemptsIff(s: State, w: Call, paths: seq<string>, priority: int, between: seq<Step>)
    requires Enabled(s, Arrive(w, paths, priority)) && IsRun(Next(s, Arrive(w, paths, priority)), between)
    requires At(Run(Next(s, Arrive(w, paths, priority)), between), w, Submitting)
    ensures var t := Run(Next(s, Arrive(w, paths, priority)), between);
      var lower := t.active.Some? && t.active.value.event != w && t.active.value.priority < priority;
      Next(t, SubmitPreempt(w)).events == t.events +
        (if lower && exists i :: 0 <= i < |paths| && IsFsdb(paths[i]) then {t.active.value.event} else {})
  {
    var a := Next(s, Arrive(w, paths, priority));
    assert ArrivedWith(a, w, paths, priority);
    ArrivalStays(a, between, w, paths, priority);
  }

  /**
    Calls that name FSDB files, whenever they arrive, are never in their bodies together, unless
    the reserved spelling is among their paths.
   */
  lemma FsdbBodiesExclude(s: State, a: Call, b: Call, pathsA: seq<string>, pathsB: seq<string>, p: int, q: int,
                          between: seq<Step>, after: seq<Step>)
    requires Inv(s) && Enabled(s, Arrive(a, pathsA, p)) && IsRun(Next(s, Arrive(a, pathsA, p)), between)
    requires Enabled(Run(Next(s, Arrive(a, pathsA, p)), between), Arrive(b, pathsB, q))
    requires IsRun(Next(Run(Next(s, Arrive(a, pathsA, p)), between), Arrive(b, pathsB, q)), after)
    requires NamesFsdb(pathsA) && NamesFsdb(pathsB) && FSDB_KEY !in pathsA && FSDB_KEY !in pathsB
    ensures var t := Run(Next(Run(Next(s, Arrive(a, pathsA, p)), between), Arrive(b, pathsB, q)), after);
      !(At(t, a, Running) && At(t, b, Running))
  {
    var t0 := Next(s, Arrive(a, pathsA, p));
    StepKeepsInv(s, Arrive(a, pathsA, p));
    RunKeepsInv(t0, between);
    ArrivalStays(t0, between, a, pathsA, p);
    var t1 := Run(t0, between);
    var t2 := Next(t1, Arrive(b, pathsB, q));
    StepKeepsInv(t1, Arrive(b, pathsB, q));
    assert ArrivedWith(t2, a, pathsA, p) && ArrivedWith(t2, b, pathsB, q);
    RunKeepsInv(t2, after);
    ArrivalStays(t2, after, a, pathsA, p);
    ArrivalStays(t2, after, b, pathsB, q);
    var t := Run(t2, after);
    NamedFsdbIsTaken(pathsA);
    NamedFsdbIsTaken(pathsB);
    if At(t, a, Running) && At(t, b, Running) {
      AllHeld(t, a, FsdbLock);
      AllHeld(t, b, FsdbLock);
    }
  }

  lemma NamedFsdbIsTaken(paths: seq<string>)
    requires NamesFsdb(paths) && FSDB_KEY !in paths
    ensures FsdbLock in LocksFor(paths)
  {
    var i :| 0 <= i < |paths| && IsFsdb(paths[i]);
    FsdbCallTakesGlobalLock(paths);
    assert FSDB_KEY !in paths[i..];
  }

  /** A call in its body owns every lock it takes. */
  lemma AllHeld(s: State, w: Call, lock: Lock)
    requires Inv(s) && At(s, w, Running) && lock in s.workers[w].locks
    ensures lock in s.owner && s.owner[lock] == w
  {
    assert WorkerOk(s.workers[w]);
    assert lock in HeldSet(s.workers[w]);
    assert OwnsHeld(s.owner, w, s.workers[w]);
  }

  // ---- Asking again ----

  ghost predicate AwaitsFsdb(s: State, w: Call) {
    At(s, w, Acquiring) && s.workers[w].held < |s.workers[w].locks| && Awaited(s.workers[w]) == FsdbLock
  }

  /** At some step of the run the call has any registered holder of lower priority cancelled. */
  ghost predicate AsksDuring(s: State, steps: seq<Step>, w: Call)
    requires IsRun(s, steps)
    decreases |steps|
  {
    steps != [] && (Asks(s, steps[0], w) || AsksDuring(Next(s, steps[0]), steps[1..], w))
  }

  ghost predicate Asks(s: State, step: Step, w: Call) {
    && Enabled(s, step) && w in s.workers && (step == BeginLock(w) || step == PollPreempt(w))
    && (s.active.Some? && s.active.value.event != w && s.active.value.priority < s.workers[w].priority ==>
          s.active.value.event in Next(s, step).events)
  }

  /** No timed acquire of the FSDB lock is entered, for the first time or again, without asking right before. */
  lemma {:induction false} EachWaitAsks(s: State, steps: seq<Step>, w: Call)
    requires Inv(s) && IsRun(s, steps) && !AwaitsFsdb(s, w) && AwaitsFsdb(Run(s, steps), w)
    ensures AsksDuring(s, steps, w)
    decreases |steps|
  {
    StepKeepsInv(s, steps[0]);
    if AwaitsFsdb(Next(s, steps[0]), w) {
      EntersAsking(s, steps[0], w);
    } else {
      EachWaitAsks(Next(s, steps[0]), steps[1..], w);
    }
  }

  lemma EntersAsking(s: State, step: Step, w: Call)
    requires Inv(s) && Enabled(s, step) && !AwaitsFsdb(s, w) && AwaitsFsdb(Next(s, step), w)
    ensures Asks(s, step, w)
  {
    if w in s.workers {
      assert WorkerOk(s.workers[w]);
    }
  }

  // ---- Worker threads ----

  lemma {:induction false} FewerOf<T>(a: set<T>, b: set<T>)
    requires a <= b
    ensures |a| <= |b|
  {
    if a != {} {
      var x :| x in a;
      FewerOf(a - {x}, b - {x});
    }
  }

  lemma StepKeepsLimit(s: State, step: Step)
    requires Enabled(s, step) && |ThreadsInUse(s)| <= s.slots
    ensures |ThreadsInUse(Next(s, step))| <= Next(s, step).slots == s.slots
  {
    var t := Next(s, step);
    if step.Start? {
      FewerOf(ThreadsInUse(t), ThreadsInUse(s) + {step.w});
    } else {
      OnlyStartTakesThread(s, step);
      FewerOf(ThreadsInUse(t), ThreadsInUse(s));
    }
  }

  lemma OnlyStartTakesThread(s: State, step: Step)
    requires Enabled(s, step) && !step.Start?
    ensures ThreadsInUse(Next(s, step)) <= ThreadsInUse(s)
  {
    forall w | w in ThreadsInUse(Next(s, step)) ensures w in ThreadsInUse(s) {
    }
  }

  /** No run uses more worker threads than there are. */
  lemma {:induction false} ThreadsWithinLimit(s: State, steps: seq<Step>)
    requires IsRun(s, steps) && |ThreadsInUse(s)| <= s.slots
    ensures |ThreadsInUse(Run(s, steps))| <= Run(s, steps).slots == s.slots
    decreases |steps|
  {
    if steps != [] {
      StepKeepsLimit(s, steps[0]);
      ThreadsWithinLimit(Next(s, steps[0]), steps[1..]);
    }
  }
}
