/** The lock protocol never gets stuck, and a preempted holder lets go. */
module WaveProgress {
  import opened Wrappers
  import opened Ordering
  import opened WaveLocks
  import opened WavePreemption
  import opened WaveProtocol
  import opened WaveSafety

  function ToTake(worker: Worker): nat {
    if worker.held <= |worker.locks| then |worker.locks| - worker.held else 0
  }

  /** What a call still has to do; a timed-out poll is the only own step that raises it. */
  function Rank(worker: Worker): nat {
    var n := |worker.locks|;
    var here := 10 + n + 8 * ToTake(worker);
    match worker.phase
    case Submitting => here + 3
    case Queued => here + 2
    case Registering => here + 1
    case NextLock => here
    case TimedOut => here - 1
    case Polling => here - 2
    case Acquiring => here - 3
    case Checking => 4 + n
    case Running => 3 + n
    case Clearing => 2 + n
    case Releasing => 1 + worker.held
    case Done => 0
  }

  /** Steps that bring their call closer to its end. */
  predicate Advancing(step: Step) {
    !step.Arrive? && !step.Timeout? && !step.Work? && !step.Checkpoint? && !step.ClientCancel?
  }

  /** The part of a call's invariant that its rank depends on. */
  predicate InBounds(worker: Worker) {
    worker.held <= |worker.locks| && (Waiting(worker.phase) ==> worker.held < |worker.locks|)
  }

  /** The steps of the loop that takes the locks. */
  predicate LockStep(step: Step) {
    || step.BeginLock? || step.Acquire? || step.Timeout? || step.PollCancel? || step.PollPreempt? || step.Register?
  }

  lemma LockStepLowersRank(s: State, step: Step)
    requires Enabled(s, step) && Advancing(step) && LockStep(step) && InBounds(s.workers[step.w])
    ensures step.w in Next(s, step).workers && Next(s, step).workers[step.w].held <= |s.workers[step.w].locks|
    ensures Next(s, step).workers[step.w].locks == s.workers[step.w].locks
    ensures Rank(Next(s, step).workers[step.w]) < Rank(s.workers[step.w])
  {
  }

  lemma AdvanceLowersRank(s: State, step: Step)
    requires Enabled(s, step) && Advancing(step) && InBounds(s.workers[step.w])
    ensures step.w in Next(s, step).workers && Next(s, step).workers[step.w].held <= |s.workers[step.w].locks|
    ensures Next(s, step).workers[step.w].locks == s.workers[step.w].locks
    ensures Rank(Next(s, step).workers[step.w]) < Rank(s.workers[step.w])
  {
    if LockStep(step) {
      LockStepLowersRank(s, step);
    }
  }

  /** A step of one call leaves the others as they are. */
  lemma OthersStay(s: State, step: Step)
    requires Enabled(s, step) && !step.Arrive?
    ensures Next(s, step).workers.Keys == s.workers.Keys && Next(s, step).slots == s.slots
    ensures forall v | v in s.workers && v != step.w :: Next(s, step).workers[v] == s.workers[v]
  {
  }

  // ---- Deadlock freedom ----

  /** Some waiting call awaits a lock that no other waiting call's lock exceeds. */
  lemma {:induction false} GreatestAwaited(s: State, waiting: set<Call>) returns (top: Call)
    requires waiting != {}
    requires forall w | w in waiting :: w in s.workers && s.workers[w].held < |s.workers[w].locks|
    ensures top in waiting
    ensures forall w | w in waiting ::
      !Less(KeyOf(Awaited(s.workers[top])), KeyOf(Awaited(s.workers[w])))
    decreases waiting
  {
    var w :| w in waiting;
    top := w;
    LessIrreflexive(KeyOf(Awaited(s.workers[w])));
    if waiting != {w} {
      var rest := waiting - {w};
      assert rest != {} by { assert waiting == rest + {w}; }
      top := GreatestAwaited(s, rest);
      if Less(KeyOf(Awaited(s.workers[top])), KeyOf(Awaited(s.workers[w]))) {
        forall v | v in rest
          ensures !Less(KeyOf(Awaited(s.workers[w])), KeyOf(Awaited(s.workers[v])))
        {
          if Less(KeyOf(Awaited(s.workers[w])), KeyOf(Awaited(s.workers[v]))) {
            LessTransitive(KeyOf(Awaited(s.workers[top])), KeyOf(Awaited(s.workers[w])), KeyOf(Awaited(s.workers[v])));
          }
        }
        top := w;
      }
    }
  }

  /** The owner of an awaited lock, if it waits too, waits for a lock of greater key. */
  lemma OwnerWaitsHigher(s: State, w: Call)
    requires Inv(s) && At(s, w, Acquiring) && s.workers[w].held < |s.workers[w].locks|
    requires Awaited(s.workers[w]) in s.owner
    ensures var u := s.owner[Awaited(s.workers[w])];
      && u in s.workers && InThread(s.workers[u].phase)
      && (At(s, u, Acquiring) ==>
            && s.workers[u].held < |s.workers[u].locks|
            && Less(KeyOf(Awaited(s.workers[w])), KeyOf(Awaited(s.workers[u]))))
  {
    var lock := Awaited(s.workers[w]);
    var u := s.owner[lock];
    assert OwnsHeld(s.owner, u, s.workers[u]);
    assert WorkerOk(s.workers[u]);
    var i :| 0 <= i < s.workers[u].held && s.workers[u].locks[i] == lock;
  }

  /** The step that a call in this phase can always take, when it is not kept waiting. */
  function OwnStep(w: Call, phase: Phase): Step {
    match phase
    case Submitting => SubmitPreempt(w)
    case Queued => Start(w)
    case NextLock => BeginLock(w)
    case Acquiring => Acquire(w)
    case TimedOut => PollCancel(w)
    case Polling => PollPreempt(w)
    case Registering => Register(w)
    case Checking => CheckCancelled(w)
    case Running => Finish(w)
    case Clearing => ClearActive(w)
    case Releasing => Release(w)
    case Done => Work(w)
  }

  /** A call that is done, or needs a thread or a lock to go on. */
  predicate StandsStill(phase: Phase) {
    phase.Queued? || phase.Acquiring? || phase.Done?
  }

  /** Of the calls that wait for a lock, the one awaiting the greatest can take it, or its owner can advance. */
  lemma WaiterAdvances(s: State, waiting: set<Call>) returns (step: Step)
    requires Inv(s) && waiting != {}
    requires forall v | v in s.workers :: v in waiting <==> s.workers[v].phase.Acquiring?
    requires waiting <= s.workers.Keys
    requires forall v | v in s.workers :: StandsStill(s.workers[v].phase)
    ensures Enabled(s, step) && Advancing(step)
  {
    assert forall v | v in waiting :: WorkerOk(s.workers[v]);
    var top := GreatestAwaited(s, waiting);
    assert WorkerOk(s.workers[top]);
    if Awaited(s.workers[top]) in s.owner {
      OwnerWaitsHigher(s, top);
    }
    step := Acquire(top);
  }

  /** With a worker thread to run on, some unfinished call can always advance. */
  lemma SomeoneAdvances(s: State, w: Call) returns (step: Step)
    requires Inv(s) && s.slots > 0 && w in s.workers && !s.workers[w].phase.Done?
    ensures Enabled(s, step) && Advancing(step)
  {
    if v :| v in s.workers && !StandsStill(s.workers[v].phase) {
      assert WorkerOk(s.workers[v]);
      step := OwnStep(v, s.workers[v].phase);
    } else {
      var waiting := set v | v in s.workers && s.workers[v].phase.Acquiring?;
      if waiting == {} {
        assert w !in waiting && ThreadsInUse(s) == {};
        assert WorkerOk(s.workers[w]);
        step := Start(w);
      } else {
        step := WaiterAdvances(s, waiting);
      }
    }
  }

  /** Everything the calls in `ws` still have to do. */
  ghost function TotalRank(s: State, ws: set<Call>): nat
    requires ws <= s.workers.Keys
    decreases ws
  {
    if ws == {} then 0
    else var w :| w in ws; Rank(s.workers[w]) + TotalRank(s, ws - {w})
  }

  lemma {:induction false} TotalRankPick(s: State, ws: set<Call>, w: Call)
    requires ws <= s.workers.Keys && w in ws
    ensures TotalRank(s, ws) == Rank(s.workers[w]) + TotalRank(s, ws - {w})
    decreases ws
  {
    var v :| v in ws && TotalRank(s, ws) == Rank(s.workers[v]) + TotalRank(s, ws - {v});
    if v != w {
      TotalRankPick(s, ws - {v}, w);
      TotalRankPick(s, ws - {w}, v);
      assert ws - {v} - {w} == ws - {w} - {v};
    }
  }

  lemma {:induction false} TotalRankFrame(s: State, t: State, ws: set<Call>)
    requires ws <= s.workers.Keys && ws <= t.workers.Keys
    requires forall v | v in ws :: t.workers[v] == s.workers[v]
    ensures TotalRank(s, ws) == TotalRank(t, ws)
    decreases ws
  {
    if ws != {} {
      var w :| w in ws;
      TotalRankPick(s, ws, w);
      TotalRankPick(t, ws, w);
      TotalRankFrame(s, t, ws - {w});
    }
  }

  ghost predicate AllDone(s: State) {
    forall w | w in s.workers :: s.workers[w].phase.Done?
  }

  lemma AdvanceLowersTotal(s: State, step: Step)
    requires Inv(s) && Enabled(s, step) && Advancing(step)
    ensures Inv(Next(s, step)) && Next(s, step).workers.Keys == s.workers.Keys
    ensures TotalRank(Next(s, step), s.workers.Keys) < TotalRank(s, s.workers.Keys)
  {
    var t, w := Next(s, step), step.w;
    StepKeepsInv(s, step);
    assert WorkerOk(s.workers[w]);
    AdvanceLowersRank(s, step);
    OthersStay(s, step);
    TotalRankPick(s, s.workers.Keys, w);
    TotalRankPick(t, s.workers.Keys, w);
    TotalRankFrame(s, t, s.workers.Keys - {w});
  }

  /** An unfinished state has an advancing step, which leaves less to do. */
  lemma OneAdvance(s: State) returns (step: Step)
    requires Inv(s) && s.slots > 0 && !AllDone(s)
    ensures Enabled(s, step) && Advancing(step) && Inv(Next(s, step))
    ensures Next(s, step).workers.Keys == s.workers.Keys && Next(s, step).slots == s.slots
    ensures TotalRank(Next(s, step), s.workers.Keys) < TotalRank(s, s.workers.Keys)
  {
    var w :| w in s.workers && !s.workers[w].phase.Done?;
    step := SomeoneAdvances(s, w);
    OthersStay(s, step);
    AdvanceLowersTotal(s, step);
  }

  /**
    Deadlock freedom, for any number of calls with any path sets: from every state that meets
    the invariant the calls in it can all run to their end by advancing steps alone.
   */
  lemma {:induction false} EveryStateDrains(s: State) returns (steps: seq<Step>)
    requires Inv(s) && s.slots > 0
    ensures IsRun(s, steps) && AllDone(Run(s, steps))
    ensures forall i | 0 <= i < |steps| :: Advancing(steps[i])
    ensures Run(s, steps).workers.Keys == s.workers.Keys
    decreases TotalRank(s, s.workers.Keys)
  {
    steps := [];
    if !AllDone(s) {
      var step := OneAdvance(s);
      var rest := EveryStateDrains(Next(s, step));
      steps := [step] + rest;
      assert steps[1..] == rest;
    }
  }

  /** So no run of the server can reach a deadlock. */
  lemma ReachableDrains(s: State) returns (steps: seq<Step>)
    requires Reachable(s) && s.slots > 0
    ensures IsRun(s, steps) && AllDone(Run(s, steps))
    ensures forall i | 0 <= i < |steps| :: Advancing(steps[i])
    ensures Run(s, steps).workers.Keys == s.workers.Keys
  {
    ReachableInv(s);
    steps := EveryStateDrains(s);
  }

  // ---- Preemption progress ----

  /** One preemption request of a higher-priority waiter sets the registered holder's event. */
  lemma OneRequestArms(s: State, step: Step)
    requires Inv(s) && RequestsPreemption(s, step) && step.w in s.workers
    requires s.active.Some? && s.active.value.priority < s.workers[step.w].priority
    ensures s.active.value.event in Next(s, step).events
  {
  }

  /** What a cancelled call still has to do; no own step but work inside the body leaves it as it is. */
  function CancelRank(worker: Worker): nat {
    var here := 10 + |worker.locks| + 8 * ToTake(worker);
    match worker.phase
    case Polling => here - 1
    case Acquiring => here - 2
    case TimedOut => here - 3
    case _ => Rank(worker)
  }

  /** The call's own steps, other than body work between two checkpoints. */
  predicate OwnCheckedStep(step: Step, w: Call) {
    step.w == w && !step.Work? && !step.ClientCancel?
  }

  function OwnCheckedSteps(steps: seq<Step>, w: Call): nat {
    if steps == [] then 0
    else (if OwnCheckedStep(steps[0], w) then 1 else 0) + OwnCheckedSteps(steps[1..], w)
  }

  lemma CancelledLockStep(s: State, step: Step)
    requires Enabled(s, step) && LockStep(step) && step.w in s.events && InBounds(s.workers[step.w])
    ensures step.w in Next(s, step).workers && InBounds(Next(s, step).workers[step.w])
    ensures CancelRank(Next(s, step).workers[step.w]) < CancelRank(s.workers[step.w])
  {
  }

  lemma CancelledOwnStep(s: State, step: Step)
    requires Enabled(s, step) && !step.Arrive? && step.w in s.events && InBounds(s.workers[step.w])
    ensures step.w in Next(s, step).workers && InBounds(Next(s, step).workers[step.w])
    ensures CancelRank(Next(s, step).workers[step.w])
         <= CancelRank(s.workers[step.w]) - (if OwnCheckedStep(step, step.w) then 1 else 0)
  {
    if LockStep(step) {
      CancelledLockStep(s, step);
    }
  }

  lemma CancelledStep(s: State, step: Step, w: Call)
    requires Enabled(s, step) && w in s.events && w in s.workers && InBounds(s.workers[w])
    ensures w in Next(s, step).workers && InBounds(Next(s, step).workers[w])
    ensures CancelRank(Next(s, step).workers[w])
         <= CancelRank(s.workers[w]) - (if OwnCheckedStep(step, w) then 1 else 0)
  {
    if step.Arrive? {
    } else if step.w == w {
      CancelledOwnStep(s, step);
    } else {
      OthersStay(s, step);
    }
  }

  lemma EventsStay(s: State, step: Step)
    requires Enabled(s, step)
    ensures s.events <= Next(s, step).events
  {
  }

  lemma CancelRankZero(worker: Worker)
    requires WorkerOk(worker)
    ensures CancelRank(worker) == 0 <==> worker.phase.Done?
  {
  }

  /**
    Once its event is set, a call ends within `CancelRank` of its own checked steps, whatever
    the other calls do: a cooperative holder cannot keep the FSDB lock.
   */
  lemma {:induction false} CancelledCallLetsGo(s: State, steps: seq<Step>, w: Call)
    requires Inv(s) && IsRun(s, steps) && w in s.events
    ensures Inv(Run(s, steps)) && w in Run(s, steps).workers && WorkerOk(Run(s, steps).workers[w])
    ensures WorkerOk(s.workers[w])
    ensures OwnCheckedSteps(steps, w) + CancelRank(Run(s, steps).workers[w]) <= CancelRank(s.workers[w])
    decreases |steps|
  {
    assert WorkerOk(s.workers[w]);
    if steps != [] {
      CancelledStep(s, steps[0], w);
      EventsStay(s, steps[0]);
      StepKeepsInv(s, steps[0]);
      CancelledCallLetsGo(Next(s, steps[0]), steps[1..], w);
    }
  }

  /** A cancelled call is never kept waiting: until it is done it has a checked step of its own. */
  lemma CancelledCallCanMove(s: State, w: Call) returns (step: Step)
    requires Inv(s) && w in s.events && !s.workers[w].phase.Done?
    ensures Enabled(s, step) && OwnCheckedStep(step, w)
  {
    var worker := s.workers[w];
    assert WorkerOk(worker);
    step :=
      if worker.phase.Queued? then Abandon(w)
      else if worker.phase.Acquiring? then Timeout(w)
      else if worker.phase.Running? then Checkpoint(w)
      else OwnStep(w, worker.phase);
  }

  /**
    A waiter of higher priority asks once while a holder is registered; after the holder has
    taken as many checked steps as it had left, the FSDB lock is not its any more.
   */
  lemma PreemptedHolderReleasesFsdb(s: State, request: Step, steps: seq<Step>)
    requires Reachable(s) && RequestsPreemption(s, request) && request.w in s.workers
    requires s.active.Some? && s.active.value.priority < s.workers[request.w].priority
    requires IsRun(Next(s, request), steps)
    ensures var h := s.active.value.event;
      && h in s.workers && s.workers[h].held <= |s.workers[h].locks| && h in Next(s, request).events
      && (OwnCheckedSteps(steps, h) >= CancelRank(s.workers[h]) ==>
            var t := Run(Next(s, request), steps);
            At(t, h, Done) && forall l | l in t.owner :: t.owner[l] != h)
  {
    ReachableInv(s);
    RequestFreesFsdb(s, request, steps);
  }

  lemma RequestFreesFsdb(s: State, request: Step, steps: seq<Step>)
    requires Inv(s) && RequestsPreemption(s, request) && request.w in s.workers
    requires s.active.Some? && s.active.value.priority < s.workers[request.w].priority
    requires IsRun(Next(s, request), steps)
    ensures var h := s.active.value.event;
      && h in s.workers && s.workers[h].held <= |s.workers[h].locks| && h in Next(s, request).events
      && (OwnCheckedSteps(steps, h) >= CancelRank(s.workers[h]) ==>
            var t := Run(Next(s, request), steps);
            At(t, h, Done) && forall l | l in t.owner :: t.owner[l] != h)
  {
    var h := s.active.value.event;
    assert WorkerOk(s.workers[h]);
    OneRequestArms(s, request);
    StepKeepsInv(s, request);
    OthersStay(s, request);
    CancelledCallLetsGo(Next(s, request), steps, h);
    DoneOwnsNothing(Run(Next(s, request), steps), h);
  }

  /**
    So an arriving call that names an FSDB file displaces a holder of lower priority by being
    submitted alone, before it has a worker thread.
   */
  lemma ArrivalFreesFsdb(s: State, w: Call, paths: seq<string>, priority: int, between: seq<Step>, after: seq<Step>)
    requires Inv(s) && Enabled(s, Arrive(w, paths, priority)) && IsRun(Next(s, Arrive(w, paths, priority)), between)
    requires exists i :: 0 <= i < |paths| && IsFsdb(paths[i])
    requires var t := Run(Next(s, Arrive(w, paths, priority)), between);
      && At(t, w, Submitting) && t.active.Some? && t.active.value.priority < priority
      && IsRun(Next(t, SubmitPreempt(w)), after)
    ensures var t := Run(Next(s, Arrive(w, paths, priority)), between);
      var h, u := t.active.value.event, Run(Next(t, SubmitPreempt(w)), after);
      && h in t.workers && t.workers[h].held <= |t.workers[h].locks|
      && (OwnCheckedSteps(after, h) >= CancelRank(t.workers[h]) ==>
            At(u, h, Done) && forall l | l in u.owner :: u.owner[l] != h)
  {
    var a := Next(s, Arrive(w, paths, priority));
    StepKeepsInv(s, Arrive(w, paths, priority));
    RunKeepsInv(a, between);
    assert ArrivedWith(a, w, paths, priority);
    ArrivalStays(a, between, w, paths, priority);
    RequestFreesFsdb(Run(a, between), SubmitPreempt(w), after);
  }

  lemma DoneOwnsNothing(s: State, w: Call)
    requires Inv(s) && w in s.workers
    ensures WorkerOk(s.workers[w])
    ensures CancelRank(s.workers[w]) == 0 ==> At(s, w, Done) && forall l | l in s.owner :: s.owner[l] != w
  {
    CancelRankZero(s.workers[w]);
    assert OwnsHeld(s.owner, w, s.workers[w]);
  }
}
