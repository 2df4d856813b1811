/** Following the auditor: performing its first missing step again and again. */
module AuditorRuns {
  import opened Wrappers
  import opened HierarchyContext
  import opened Session
  import opened Auditor
  import SweepRetry
  import opened SweepTool

  /**
    The world while the auditor is followed: the file system, what a discovery of the target's
    root finds, which compile logs parse, and what a sweep discovers in a waveform.
   */
  datatype World = World(
    onDisk: string -> string, under: (string, string) -> bool, stat: string -> Option<Stat>,
    autoKdb: bool, parses: string -> bool, target: Target, paths: SimPaths, design: Design)

  /** The session, and the compile logs whose KDB has been built. */
  datatype Point = Point(session: State, built: set<string>)

  /** What the world decides while one step runs. */
  datatype Outcome = Outcome(
    now: Fingerprint, handle: string, hierarchy: Hierarchy, simulator: string,
    errors: int, scanFirst: bool, inspected: nat, degraded: bool)

  function EnvAt(w: World, p: Point): Env {
    Env(w.onDisk, w.under, w.stat, w.autoKdb, log => if w.parses(log) then Some(log in p.built) else None)
  }

  ghost function ViewAt(p: Point): View {
    Seen(p.session)
  }

  ghost function MissingAt(w: World, p: Point): seq<Step> {
    MissingSteps(ViewAt(p), w.target, EnvAt(w, p))
  }

  /** `_resolve_session_simulator`. */
  ghost function ResolveSimulator(s: State, explicit: Option<string>, log: Option<string>,
                                  onDisk: string -> string): string {
    var v := Seen(s);
    if Truthy(explicit).Some? && explicit.value != "auto" then explicit.value
    else if v.sim.Some? && Truthy(v.sim.value.simulator).Some? then v.sim.value.simulator.value
    else if HierProvOf(s).Some? && Truthy(HierProvOf(s).value.simulator).Some?
         && Truthy(HierProvOf(s).value.compileLog).Some? && Truthy(log).Some?
         && onDisk(HierProvOf(s).value.compileLog.value) == onDisk(log.value)
    then HierProvOf(s).value.simulator.value
    else "auto"
  }

  /** The step has the arguments its tool requires. */
  predicate Callable(step: Step) {
    match step
    case SimStep(root) => root.Some?
    case KdbStep(log) => log != ""
    case HierStep(log, _) => Truthy(log).Some?
    case ScanStep(log, _) => Truthy(log).Some?
    case LogStep(log, simulator) => Truthy(log).Some? && simulator.Some?
    case SweepStep(call) => AskOf(call).Some?
    case RecStep(log, wave, simulator, _) => Truthy(log).Some? && Truthy(wave).Some? && simulator.Some?
  }

  /** `_PREREQUISITES`, for the tools of the auditor. */
  function Prerequisites(step: Step): seq<Tool> {
    match step
    case LogStep(_, _) => [GetSimPaths]
    case RecStep(_, _, _, _) => [GetSimPaths, BuildHierarchy]
    case _ => []
  }

  /** The gate lets the step through, and finds nothing to fill in. */
  ghost predicate Admitted(s: State, step: Step) {
    forall t | t in Prerequisites(step) :: Present(s, t)
  }

  /**
    The step has its arguments, is let through and succeeds: a log that is parsed exists, and a
    sweep inspects at most the interfaces it was allowed to.
   */
  ghost predicate Succeeds(w: World, p: Point, step: Step, o: Outcome) {
    && Callable(step) && Admitted(p.session, step)
    && match step
       case HierStep(_, _) => ValidDigest(o.hierarchy.snapshot)
       case LogStep(log, _) => w.stat(log.value).Some?
       case SweepStep(call) => Inspects(AskOf(call).value, FoundFor(w.design, AskOf(call).value), o.inspected)
       case _ => true
  }

  /** A hierarchy build detects the simulator it was given. */
  predicate Agrees(step: Step, o: Outcome) {
    step.HierStep? && step.simulator.Some? ==> o.simulator == step.simulator.value
  }

  /** The sweep's result, as the tool reports it. */
  function SweptBy(w: World, call: SweepRetry.Action, o: Outcome): SweepRetry.Sweep
    requires AskOf(call).Some?
  {
    Report(AskOf(call).value, FoundFor(w.design, AskOf(call).value), o.inspected, o.degraded)
  }

  ghost function EventOf(w: World, p: Point, step: Step, o: Outcome): Event
    requires Succeeds(w, p, step, o)
  {
    match step
    case SimStep(_) => SimPathsDone(w.paths, o.now)
    case KdbStep(_) => KdbDone(true)
    case HierStep(log, _) =>
      HierarchyDone(0, HierRecord(log, Some(o.simulator), Some(o.handle), o.hierarchy.snapshot, []), o.handle,
                    o.hierarchy)
    case ScanStep(log, simulator) => ScanDone(0, ScanProv(log, ResolveSimulator(p.session, simulator, log, w.onDisk)))
    case LogStep(log, simulator) =>
      LogDone(LogResult(o.errors, o.scanFirst),
              LogProv(log.value, ResolveSimulator(p.session, simulator, None, w.onDisk), w.stat(log.value).value))
    case SweepStep(call) => SweepDone(0, SweepResult(SweptBy(w, call, o)), SweepProv(AskOf(call).value.wave))
    case RecStep(log, wave, simulator, compileLog) =>
      RecommendDone(0, RecProv(log.value, wave.value, ResolveSimulator(p.session, simulator, compileLog, w.onDisk),
                            compileLog, w.stat(log.value)))
  }

  ghost function Perform(w: World, p: Point, step: Step, o: Outcome): Point
    requires Succeeds(w, p, step, o)
  {
    Point(After(p.session, EventOf(w, p, step, o), w.onDisk),
          if step.KdbStep? then p.built + {step.compileLogPath} else p.built)
  }

  /** What a discovery of the target's root finds is of the target's case. */
  predicate OwnCase(w: World) {
    !Mismatch(View(Some(w.paths), None, None, None, None, None, None, None, None), w.target,
              Env(w.onDisk, w.under, w.stat, w.autoKdb, _ => None))
  }

  predicate Rooted(w: World) {
    Truthy(w.target.root).Some?
  }

  /** A discovery lies ahead: it is missing, or a KDB is, whose build undoes the cached one. */
  ghost predicate Ahead(w: World, p: Point) {
    NeedsSim(ViewAt(p), w.target, EnvAt(w, p)) || NeedsKdb(ViewAt(p), w.target, EnvAt(w, p))
  }

  /**
    A reachable session, and a simulator for what is known of the target's case and for what is
    still to be discovered of it.
   */
  ghost predicate Followable(w: World, p: Point) {
    && Consistent(p.session)
    && (AnchorNow(ViewAt(p), w.target, EnvAt(w, p)).Some? ==> Truthy(ViewAt(p).anchor.value.simulator).Some?)
    && (Ahead(w, p) && OwnCase(w) ==> Truthy(w.paths.simulator).Some?)
  }

  // ---- What the steps do to the view ----

  ghost predicate ViewConsistent(v: View) {
    && v.anchor == v.simState
    && (v.sim.Some? ==> v.anchor == Some(AnchorOf(v.sim.value)))
    && (v.hier.Some? ==> v.hierState.Some? && v.hier.value == v.hierState)
  }

  lemma ConsistentView(s: State)
    requires Consistent(s)
    ensures ViewConsistent(Seen(s))
  {
  }

  lemma DroppedRecommend(s: State, tools: seq<Tool>)
    requires tools == [Recommend]
    ensures Seen(Dropped(s, tools)) == Seen(s).(rec := None)
  {
    var d := Dropped(s, tools);
    assert forall k | k != Recommend :: (k in d.cache <==> k in s.cache) && (k in d.prov <==> k in s.prov);
    assert Recommend !in d.cache;
  }

  lemma AfterLog(s: State, r: Result, prov: Prov, onDisk: string -> string)
    requires r.LogResult?
    ensures Seen(After(s, LogDone(r, prov), onDisk)) ==
      Seen(s).(log := Some(LogSeen(r.errors, r.scanFirst, Some(prov))), rec := None)
  {
    DroppedRecommend(s, Downstream(ParseLog));
    StoredLog(Dropped(s, Downstream(ParseLog)), r, prov, Now(s, onDisk));
  }

  lemma StoredLog(s: State, r: Result, prov: Prov, begun: Begun)
    requires r.LogResult?
    ensures Seen(Stored(s, ParseLog, r, prov, begun)) ==
      Seen(s).(log := Some(LogSeen(r.errors, r.scanFirst, Some(prov))))
  {
  }

  lemma AfterScan(s: State, prov: Prov, onDisk: string -> string)
    ensures Seen(After(s, ScanDone(0, prov), onDisk)) == Seen(s).(scan := Some(Some(prov)), rec := None)
  {
    DroppedRecommend(s, Downstream(ScanRisks));
    StoredScan(Dropped(s, Downstream(ScanRisks)), prov, BegunOf(s, 0, onDisk));
  }

  lemma StoredScan(s: State, prov: Prov, begun: Begun)
    ensures Seen(Stored(s, ScanRisks, ScanResult, prov, begun)) == Seen(s).(scan := Some(Some(prov)))
  {
  }

  lemma AfterHierarchy(s: State, record: HierRecord, handle: string, h: Hierarchy, onDisk: string -> string)
    ensures Seen(After(s, HierarchyDone(0, record, handle, h), onDisk)) ==
            Seen(s).(hierState := Some(record), hier := Some(Some(record)), rec := None)
  {
    DroppedRecommend(s, Downstream(BuildHierarchy));
    StoredHierarchy(Dropped(s, Downstream(BuildHierarchy)), record, s.handles[handle := h], BegunOf(s, 0, onDisk));
  }

  lemma StoredHierarchy(s: State, record: HierRecord, handles: map<string, Hierarchy>, begun: Begun)
    ensures Seen(Stored(s.(hierState := Some(record), handles := handles), BuildHierarchy, HierResult,
                        HierProv(record), begun)) ==
            Seen(s).(hierState := Some(record), hier := Some(Some(record)))
  {
  }

  lemma AfterSweep(s: State, r: Result, prov: Prov, onDisk: string -> string)
    requires r.SweepResult?
    ensures Seen(After(s, SweepDone(0, r, prov), onDisk)) == Seen(s).(sweep := Some(r.sweep))
  {
  }

  lemma AfterRecommend(s: State, prov: Prov, onDisk: string -> string)
    ensures Seen(After(s, RecommendDone(0, prov), onDisk)) == Seen(s).(rec := Some(Some(prov)))
  {
  }

  lemma AfterKdb(s: State, onDisk: string -> string)
    ensures Seen(After(s, KdbDone(true), onDisk)) == Seen(s).(sim := None)
  {
  }

  lemma AfterSimPaths(s: State, paths: SimPaths, now: Fingerprint, onDisk: string -> string)
    ensures var v := Seen(After(s, SimPathsDone(paths, now), onDisk));
      && v.sim == Some(paths) && v.anchor == Some(AnchorOf(paths)) && v.simState == v.anchor
      && v.sweep.None? && v.log.None?
  {
    assert SweepHandshakes in Downstream(GetSimPaths) && ParseLog in Downstream(GetSimPaths);
    var d := Dropped(s, Downstream(GetSimPaths));
    assert SweepHandshakes !in d.cache && SweepHandshakes !in Dropped(d, [BuildHierarchy]).cache;
    assert ParseLog !in d.cache && ParseLog !in Dropped(d, [BuildHierarchy]).cache;
  }

  // ---- The first missing step ----

  lemma ArrangedHead(sim: seq<Step>, hier: seq<Step>, scan: seq<Step>, log: seq<Step>,
                     sweep: seq<Step>, rec: seq<Step>, kdb: seq<Step>, first: bool)
    requires Arranged(sim, hier, scan, log, sweep, rec, kdb, first) != []
    ensures Arranged(sim, hier, scan, log, sweep, rec, kdb, first)[0] ==
      if first && scan != [] then scan[0] else if sim != [] then sim[0] else if hier != [] then hier[0]
      else if scan != [] then scan[0] else if log != [] then log[0] else if sweep != [] then sweep[0]
      else if rec != [] then rec[0] else if kdb != [] then kdb[0]
      else Arranged(sim, hier, scan, log, sweep, rec, kdb, first)[0]
    ensures sim != [] || hier != [] || scan != [] || log != [] || sweep != [] || rec != [] || kdb != []
  {
  }

  /** The first missing step, and which others are then known not to be missing. */
  lemma Head(v: View, t: Target, env: Env)
    requires MissingSteps(v, t, env) != []
    ensures match MissingSteps(v, t, env)[0]
            case SimStep(_) => NeedsSim(v, t, env)
            case HierStep(_, _) =>
              NeedsHier(v, t, env) && !NeedsSim(v, t, env) && MissingSteps(v, t, env)[0] == HierCall(v)
            case ScanStep(_, _) => NeedsScan(v, t, env) && MissingSteps(v, t, env)[0] == ScanCall(v)
            case LogStep(_, _) =>
              NeedsLog(v, t, env) && !NeedsSim(v, t, env) && MissingSteps(v, t, env)[0] == LogCall(v)
            case SweepStep(_) =>
              NeedsSweep(v, t, env) && MissingSteps(v, t, env)[0] == SweepStep(SweepCall(v, env).value)
            case RecStep(_, _, _, _) =>
              && NeedsRec(v, t, env) && !NeedsSim(v, t, env) && !NeedsHier(v, t, env)
              && MissingSteps(v, t, env)[0] == RecCall(v)
            case KdbStep(_) => NeedsKdb(v, t, env) && MissingSteps(v, t, env)[0] == KdbCall(v)
  {
    ArrangedHead(SimSteps(v, t, env), HierSteps(v, t, env), ScanSteps(v, t, env), LogSteps(v, t, env),
                 SweepSteps(v, t, env), RecSteps(v, t, env), KdbSteps(v, t, env), Prioritized(v, t, env));
    var head := MissingSteps(v, t, env)[0];
    OnePerTool(v, t, env);
  }

  lemma OnePerTool(v: View, t: Target, env: Env)
    ensures SimSteps(v, t, env) != [] <==> NeedsSim(v, t, env)
    ensures HierSteps(v, t, env) != [] <==> NeedsHier(v, t, env)
    ensures ScanSteps(v, t, env) != [] <==> NeedsScan(v, t, env)
    ensures LogSteps(v, t, env) != [] <==> NeedsLog(v, t, env)
    ensures SweepSteps(v, t, env) != [] <==> NeedsSweep(v, t, env)
    ensures RecSteps(v, t, env) != [] <==> NeedsRec(v, t, env)
    ensures KdbSteps(v, t, env) != [] <==> NeedsKdb(v, t, env)
  {
  }

  // ---- Termination ----

  function Weight(b: bool, n: nat): nat {
    if b then n else 0
  }

  predicate Owed(log: Option<string>, built: set<string>) {
    log.Some? && log.value !in built
  }

  /** The KDB of what a discovery finds is still to be built. */
  predicate OwnKdbLeft(w: World, built: set<string>) {
    Owed(FirstCompileLog(w.paths), built)
  }

  /** So is that of what the cached discovery found, where that is another compile log. */
  predicate OldKdbLeft(w: World, v: View, built: set<string>) {
    v.sim.Some? && FirstCompileLog(v.sim.value) != FirstCompileLog(w.paths) && Owed(FirstCompileLog(v.sim.value), built)
  }

  /** The request that a call stands for, if any, leads to at most `bound` retries. */
  ghost predicate AskEndsIn(w: World, call: Option<SweepRetry.Action>, bound: nat) {
    call.Some? && AskOf(call.value).Some? ==> EndsIn(w.design, AskOf(call.value).value, bound)
  }

  ghost predicate AskEndless(w: World, call: Option<SweepRetry.Action>) {
    call.Some? && AskOf(call.value).Some? && Endless(w.design, AskOf(call.value).value)
  }

  ghost function RetriesAfter(w: World, call: SweepRetry.Action, bound: nat): (n: nat)
    ensures n <= bound
  {
    if AskOf(call).Some? && EndsIn(w.design, AskOf(call).value, bound)
    then RetriesIn(w.design, AskOf(call).value, bound) else 0
  }

  ghost function SweepsLeft(w: World, v: View, env: Env, bound: nat): nat {
    if NeedsSweep(v, w.target, env) then 1 + RetriesAfter(w, SweepCall(v, env).value, bound) else 0
  }

  /**
    The lexicographic measure (KDBs, discovery, hierarchy, scan, log, sweeps, recommendation)
    as one number, where sweeps have at most `bound` retries: each weight exceeds all that the
    components after it can add up to.
   */
  ghost function Rank(w: World, p: Point, bound: nat): nat {
    var v, env, unit := ViewAt(p), EnvAt(w, p), bound + 3;
    Weight(OwnKdbLeft(w, p.built), 16 * unit) + Weight(OldKdbLeft(w, v, p.built), 16 * unit)
    + Weight(NeedsSim(v, w.target, env), 8 * unit) + LowRank(w, v, env, bound)
  }

  ghost function LowRank(w: World, v: View, env: Env, bound: nat): nat {
    var unit := bound + 3;
    Weight(NeedsHier(v, w.target, env), 4 * unit) + Weight(NeedsScan(v, w.target, env), 2 * unit)
    + Weight(NeedsLog(v, w.target, env), unit) + SweepsLeft(w, v, env, bound)
    + Weight(NeedsRec(v, w.target, env), 1)
  }

  lemma LowRankBound(w: World, v: View, env: Env, bound: nat)
    ensures LowRank(w, v, env, bound) < 8 * (bound + 3)
  {
  }

  /** Following a discovery that is missing. */
  lemma FollowSim(w: World, p: Point, o: Outcome, bound: nat)
    requires OwnCase(w) && NeedsSim(ViewAt(p), w.target, EnvAt(w, p)) && Rooted(w)
    ensures Rank(w, Perform(w, p, SimStep(Truthy(w.target.root)), o), bound) < Rank(w, p, bound)
  {
    var q := Perform(w, p, SimStep(Truthy(w.target.root)), o);
    AfterSimPaths(p.session, w.paths, o.now, w.onDisk);
    LowRankBound(w, ViewAt(q), EnvAt(w, q), bound);
    assert !NeedsSim(ViewAt(q), w.target, EnvAt(w, q));
    assert q.built == p.built && !OldKdbLeft(w, ViewAt(q), q.built);
  }

  lemma FollowKdb(w: World, p: Point, o: Outcome, bound: nat)
    requires NeedsKdb(ViewAt(p), w.target, EnvAt(w, p))
    ensures Rank(w, Perform(w, p, KdbCall(ViewAt(p)), o), bound) < Rank(w, p, bound)
  {
    var q := Perform(w, p, KdbCall(ViewAt(p)), o);
    AfterKdb(p.session, w.onDisk);
    LowRankBound(w, ViewAt(q), EnvAt(w, q), bound);
    assert !OldKdbLeft(w, ViewAt(q), q.built);
    assert OwnKdbLeft(w, q.built) ==> OwnKdbLeft(w, p.built) && OldKdbLeft(w, ViewAt(p), p.built);
    assert OwnKdbLeft(w, p.built) || OldKdbLeft(w, ViewAt(p), p.built);
  }

  /** Two points whose discovery and file system agree have the same first two components. */
  lemma SameTop(w: World, p: Point, q: Point, bound: nat)
    requires p.built == q.built && ViewAt(p).sim == ViewAt(q).sim
    requires LowRank(w, ViewAt(q), EnvAt(w, q), bound) < LowRank(w, ViewAt(p), EnvAt(w, p), bound)
    ensures Rank(w, q, bound) < Rank(w, p, bound)
  {
    assert OldKdbLeft(w, ViewAt(q), q.built) == OldKdbLeft(w, ViewAt(p), p.built);
    assert NeedsSim(ViewAt(q), w.target, EnvAt(w, q)) == NeedsSim(ViewAt(p), w.target, EnvAt(w, p));
  }

  lemma LowerHier(w: World, v: View, u: View, env: Env, bound: nat)
    requires NeedsHier(v, w.target, env) && !NeedsHier(u, w.target, env)
    ensures LowRank(w, u, env, bound) < LowRank(w, v, env, bound)
  {
  }

  lemma LowerScan(w: World, v: View, u: View, env: Env, bound: nat)
    requires NeedsHier(v, w.target, env) == NeedsHier(u, w.target, env)
    requires NeedsScan(v, w.target, env) && !NeedsScan(u, w.target, env)
    ensures LowRank(w, u, env, bound) < LowRank(w, v, env, bound)
  {
  }

  lemma LowerLog(w: World, v: View, u: View, env: Env, bound: nat)
    requires NeedsHier(v, w.target, env) == NeedsHier(u, w.target, env)
    requires NeedsScan(v, w.target, env) == NeedsScan(u, w.target, env)
    requires NeedsLog(v, w.target, env) && !NeedsLog(u, w.target, env)
    ensures LowRank(w, u, env, bound) < LowRank(w, v, env, bound)
  {
  }

  lemma LowerSweep(w: World, v: View, u: View, env: Env, bound: nat)
    requires NeedsHier(v, w.target, env) == NeedsHier(u, w.target, env)
    requires NeedsScan(v, w.target, env) == NeedsScan(u, w.target, env)
    requires NeedsLog(v, w.target, env) == NeedsLog(u, w.target, env)
    requires NeedsRec(v, w.target, env) == NeedsRec(u, w.target, env)
    requires SweepsLeft(w, u, env, bound) < SweepsLeft(w, v, env, bound)
    ensures LowRank(w, u, env, bound) < LowRank(w, v, env, bound)
  {
  }

  lemma LowerRec(w: World, v: View, u: View, env: Env, bound: nat)
    requires u == v.(rec := u.rec) && NeedsRec(v, w.target, env) && !NeedsRec(u, w.target, env)
    ensures LowRank(w, u, env, bound) < LowRank(w, v, env, bound)
  {
    assert NeedsHier(v, w.target, env) == NeedsHier(u, w.target, env);
    assert NeedsScan(v, w.target, env) == NeedsScan(u, w.target, env);
    assert NeedsLog(v, w.target, env) == NeedsLog(u, w.target, env);
    assert SweepsLeft(w, v, env, bound) == SweepsLeft(w, u, env, bound);
  }

  /**
    A hierarchy build, asked for, settles the hierarchy exactly when it detects the simulator
    that the discovery found.
   */
  lemma BuildSettlesIff(w: World, p: Point, o: Outcome)
    requires Consistent(p.session) && NeedsHier(ViewAt(p), w.target, EnvAt(w, p))
    requires Succeeds(w, p, HierCall(ViewAt(p)), o)
    ensures !NeedsHier(ViewAt(Perform(w, p, HierCall(ViewAt(p)), o)), w.target, EnvAt(w, p)) <==>
            p.session.simState.value.simulator == Some(o.simulator)
  {
    ConsistentView(p.session);
    var step := HierCall(ViewAt(p));
    AfterHierarchy(p.session, HierRecord(step.log, Some(o.simulator), Some(o.handle), o.hierarchy.snapshot, []),
                   o.handle, o.hierarchy, w.onDisk);
  }

  lemma FollowHier(w: World, p: Point, o: Outcome, bound: nat)
    requires Followable(w, p) && NeedsHier(ViewAt(p), w.target, EnvAt(w, p))
    requires Succeeds(w, p, HierCall(ViewAt(p)), o) && Agrees(HierCall(ViewAt(p)), o)
    ensures Rank(w, Perform(w, p, HierCall(ViewAt(p)), o), bound) < Rank(w, p, bound)
  {
    ConsistentView(p.session);
    BuildSettlesIff(w, p, o);
    var step := HierCall(ViewAt(p));
    AfterHierarchy(p.session, HierRecord(step.log, Some(o.simulator), Some(o.handle), o.hierarchy.snapshot, []),
                   o.handle, o.hierarchy, w.onDisk);
    var q := Perform(w, p, step, o);
    assert EnvAt(w, q) == EnvAt(w, p);
    LowerHier(w, ViewAt(p), ViewAt(q), EnvAt(w, p), bound);
    SameTop(w, p, q, bound);
  }

  lemma FollowScan(w: World, p: Point, o: Outcome, bound: nat)
    requires Followable(w, p) && NeedsScan(ViewAt(p), w.target, EnvAt(w, p))
    requires Succeeds(w, p, ScanCall(ViewAt(p)), o)
    ensures Rank(w, Perform(w, p, ScanCall(ViewAt(p)), o), bound) < Rank(w, p, bound)
  {
    ConsistentView(p.session);
    var step := ScanCall(ViewAt(p));
    AfterScan(p.session, ScanProv(step.log, ResolveSimulator(p.session, step.simulator, step.log, w.onDisk)), w.onDisk);
    var q := Perform(w, p, step, o);
    assert EnvAt(w, q) == EnvAt(w, p);
    assert ScanMatches(ViewAt(q).anchor.value, ViewAt(q).scan.value, EnvAt(w, p));
    LowerScan(w, ViewAt(p), ViewAt(q), EnvAt(w, p), bound);
    SameTop(w, p, q, bound);
  }

  lemma FollowLog(w: World, p: Point, o: Outcome, bound: nat)
    requires Followable(w, p) && NeedsLog(ViewAt(p), w.target, EnvAt(w, p))
    requires Succeeds(w, p, LogCall(ViewAt(p)), o)
    ensures Rank(w, Perform(w, p, LogCall(ViewAt(p)), o), bound) < Rank(w, p, bound)
  {
    LogDoneCompatible(w, p, o);
    var q := Perform(w, p, LogCall(ViewAt(p)), o);
    LowerLog(w, ViewAt(p), ViewAt(q), EnvAt(w, p), bound);
    SameTop(w, p, q, bound);
  }

  /** A log parsed as asked for is compatible. */
  lemma LogDoneCompatible(w: World, p: Point, o: Outcome)
    requires Followable(w, p) && NeedsLog(ViewAt(p), w.target, EnvAt(w, p))
    requires Succeeds(w, p, LogCall(ViewAt(p)), o)
    ensures var q := Perform(w, p, LogCall(ViewAt(p)), o);
      && EnvAt(w, q) == EnvAt(w, p) && q.built == p.built
      && ViewAt(q) == ViewAt(p).(log := ViewAt(q).log, rec := ViewAt(q).rec)
      && LogCompatible(ViewAt(q), w.target, EnvAt(w, p)) && ViewAt(q).log.value.errors == o.errors
  {
    ConsistentView(p.session);
    var step := LogCall(ViewAt(p));
    var prov := LogProv(step.log.value, ResolveSimulator(p.session, step.simulator, None, w.onDisk),
                        w.stat(step.log.value).value);
    AfterLog(p.session, LogResult(o.errors, o.scanFirst), prov, w.onDisk);
    var q := Perform(w, p, step, o);
    assert EnvAt(w, q) == EnvAt(w, p);
    var u := ViewAt(q);
    assert SimLogs(u)[0] == prov.log && SimLogs(u)[0] in SimLogs(u);
    assert LogMatches(u, u.anchor.value, Some(prov), EnvAt(w, p));
  }

  lemma FollowSweep(w: World, p: Point, o: Outcome, bound: nat)
    requires NeedsSweep(ViewAt(p), w.target, EnvAt(w, p)) && AskEndsIn(w, SweepCall(ViewAt(p), EnvAt(w, p)), bound)
    requires Succeeds(w, p, SweepStep(SweepCall(ViewAt(p), EnvAt(w, p)).value), o)
    ensures Rank(w, Perform(w, p, SweepStep(SweepCall(ViewAt(p), EnvAt(w, p)).value), o), bound) < Rank(w, p, bound)
  {
    var call := SweepCall(ViewAt(p), EnvAt(w, p)).value;
    var ask := AskOf(call).value;
    AfterSweep(p.session, SweepResult(SweptBy(w, call, o)), SweepProv(ask.wave), w.onDisk);
    var q := Perform(w, p, SweepStep(call), o);
    assert EnvAt(w, q) == EnvAt(w, p);
    SweepLeadsOn(w, ViewAt(q), EnvAt(w, p), ask, o);
    FewerSweeps(w, ViewAt(q), EnvAt(w, p), ask, bound);
    assert RetriesAfter(w, call, bound) == RetriesIn(w.design, ask, bound);
    LowerSweep(w, ViewAt(p), ViewAt(q), EnvAt(w, p), bound);
    SameTop(w, p, q, bound);
  }

  /** Once a sweep has run, the call it leads to is the next one. */
  lemma SweepLeadsOn(w: World, v: View, env: Env, ask: Ask, o: Outcome)
    requires env.onDisk == w.onDisk && ask.wave != ""
    requires Inspects(ask, FoundFor(w.design, ask), o.inspected)
    requires v.sweep == Some(Report(ask, FoundFor(w.design, ask), o.inspected, o.degraded))
    ensures SweepCall(v, env) == CallAfter(w, ask)
    ensures CallAfter(w, ask).Some? ==> AskOf(CallAfter(w, ask).value) == NextAsk(w.design, ask)
  {
    NextCallIsRetry(ask, FoundFor(w.design, ask), o.inspected, o.degraded, w.onDisk);
    if NextAsk(w.design, ask).Some? {
      AskOfAction(NextAsk(w.design, ask).value);
    }
  }

  function CallAfter(w: World, ask: Ask): Option<SweepRetry.Action> {
    if NextAsk(w.design, ask).Some? then Some(ActionFor(NextAsk(w.design, ask).value)) else None
  }

  /** At most as many sweeps are then left as it leads to. */
  lemma FewerSweeps(w: World, v: View, env: Env, ask: Ask, bound: nat)
    requires EndsIn(w.design, ask, bound) && SweepCall(v, env) == CallAfter(w, ask)
    requires CallAfter(w, ask).Some? ==> AskOf(CallAfter(w, ask).value) == NextAsk(w.design, ask)
    ensures SweepsLeft(w, v, env, bound) <= RetriesIn(w.design, ask, bound)
    ensures AskEndsIn(w, SweepCall(v, env), bound)
  {
    if NextAsk(w.design, ask).Some? {
      EndsLater(w.design, NextAsk(w.design, ask).value, bound - 1, bound);
    }
  }

  lemma FollowRec(w: World, p: Point, o: Outcome, bound: nat)
    requires Followable(w, p) && NeedsRec(ViewAt(p), w.target, EnvAt(w, p))
    requires !NeedsHier(ViewAt(p), w.target, EnvAt(w, p))
    requires Succeeds(w, p, RecCall(ViewAt(p)), o)
    ensures Rank(w, Perform(w, p, RecCall(ViewAt(p)), o), bound) < Rank(w, p, bound)
  {
    var q := Perform(w, p, RecCall(ViewAt(p)), o);
    RecommendationDone(w, p, o);
    LowerRec(w, ViewAt(p), ViewAt(q), EnvAt(w, p), bound);
    SameTop(w, p, q, bound);
  }

  lemma RecommendationDone(w: World, p: Point, o: Outcome)
    requires Followable(w, p) && NeedsRec(ViewAt(p), w.target, EnvAt(w, p))
    requires !NeedsHier(ViewAt(p), w.target, EnvAt(w, p))
    requires Succeeds(w, p, RecCall(ViewAt(p)), o)
    ensures var q := Perform(w, p, RecCall(ViewAt(p)), o);
      && EnvAt(w, q) == EnvAt(w, p) && q.built == p.built && ViewAt(q) == ViewAt(p).(rec := ViewAt(q).rec)
      && !NeedsRec(ViewAt(q), w.target, EnvAt(w, p))
  {
    ConsistentView(p.session);
    var step := RecCall(ViewAt(p));
    ResolvesDiscovered(p.session, step.compileLog, w.onDisk);
    var simulator := ResolveSimulator(p.session, step.simulator, step.compileLog, w.onDisk);
    AfterRecommend(p.session, RecProv(step.log.value, step.wave.value, simulator, step.compileLog,
                                      w.stat(step.log.value)), w.onDisk);
    assert EnvAt(w, Perform(w, p, step, o)) == EnvAt(w, p);
    RecommendationSettles(ViewAt(p), w.target, EnvAt(w, p), simulator);
  }

  /** Asked for with the discovered simulator, a tool runs with it. */
  lemma ResolvesDiscovered(s: State, log: Option<string>, onDisk: string -> string)
    requires Seen(s).sim.Some? && Truthy(Seen(s).sim.value.simulator).Some?
    ensures ResolveSimulator(s, Truthy(Seen(s).sim.value.simulator), log, onDisk) == Seen(s).sim.value.simulator.value
  {
  }

  /** A recommendation made as asked for, for the anchor's simulator, is compatible. */
  lemma RecommendationSettles(v: View, t: Target, env: Env, simulator: string)
    requires ViewConsistent(v) && NeedsRec(v, t, env) && !NeedsHier(v, t, env)
    requires Truthy(RecCall(v).log).Some? && Truthy(RecCall(v).wave).Some?
    requires v.anchor.value.simulator == Some(simulator)
    ensures var step := RecCall(v);
      var prov := RecProv(step.log.value, step.wave.value, simulator, step.compileLog, env.stat(step.log.value));
      !NeedsRec(v.(rec := Some(Some(prov))), t, env)
  {
    var step := RecCall(v);
    var prov := RecProv(step.log.value, step.wave.value, simulator, step.compileLog, env.stat(step.log.value));
    var u := v.(rec := Some(Some(prov)));
    assert SimLogs(u)[0] in SimLogs(u) && WaveFiles(u)[0] in WaveFiles(u);
    assert RecMatches(u, u.anchor.value, Some(prov), env);
  }

  /** The step the auditor puts first. */
  ghost function Next(w: World, p: Point): Step
    requires MissingAt(w, p) != []
  {
    MissingAt(w, p)[0]
  }

  lemma PerformKeepsFollowable(w: World, p: Point, o: Outcome)
    requires Followable(w, p) && MissingAt(w, p) != [] && Succeeds(w, p, Next(w, p), o)
    ensures Followable(w, Perform(w, p, Next(w, p), o))
  {
    var step, q := Next(w, p), Perform(w, p, Next(w, p), o);
    Head(ViewAt(p), w.target, EnvAt(w, p));
    assert step.HierStep? ==> Consistent(p.session);
    EventKeepsConsistent(p.session, EventOf(w, p, step, o), w.onDisk);
    AheadStays(w, p, o);
    if step.SimStep? {
      AfterSimPaths(p.session, w.paths, o.now, w.onDisk);
    } else if step.KdbStep? {
      AfterKdb(p.session, w.onDisk);
    } else {
      KeepsDiscovery(w, p, step, o);
    }
  }

  /** A discovery is called with the root, and after it none is missing exactly if it finds the target's case. */
  lemma SimStepAhead(w: World, p: Point, o: Outcome)
    requires MissingAt(w, p) != [] && Next(w, p).SimStep? && Succeeds(w, p, Next(w, p), o)
    ensures Rooted(w) && NeedsSim(ViewAt(p), w.target, EnvAt(w, p))
    ensures var q := Perform(w, p, Next(w, p), o); NeedsSim(ViewAt(q), w.target, EnvAt(w, q)) <==> !OwnCase(w)
  {
    Head(ViewAt(p), w.target, EnvAt(w, p));
    HeadSim(ViewAt(p), w.target, EnvAt(w, p));
    AfterSimPaths(p.session, w.paths, o.now, w.onDisk);
  }

  lemma KdbStepAhead(w: World, p: Point, o: Outcome)
    requires MissingAt(w, p) != [] && Next(w, p).KdbStep? && Succeeds(w, p, Next(w, p), o)
    ensures NeedsKdb(ViewAt(p), w.target, EnvAt(w, p))
    ensures var q := Perform(w, p, Next(w, p), o); NeedsSim(ViewAt(q), w.target, EnvAt(w, q))
  {
    Head(ViewAt(p), w.target, EnvAt(w, p));
    AfterKdb(p.session, w.onDisk);
  }

  lemma OtherStepAhead(w: World, p: Point, step: Step, o: Outcome)
    requires !step.SimStep? && !step.KdbStep? && Succeeds(w, p, step, o)
    ensures Ahead(w, Perform(w, p, step, o)) <==> Ahead(w, p)
  {
    KeepsDiscovery(w, p, step, o);
    assert EnvAt(w, Perform(w, p, step, o)) == EnvAt(w, p);
  }

  /** A discovery does not come to lie ahead; and it stays ahead unless it finds the target's case. */
  lemma AheadStays(w: World, p: Point, o: Outcome)
    requires MissingAt(w, p) != [] && Succeeds(w, p, Next(w, p), o)
    ensures Ahead(w, Perform(w, p, Next(w, p), o)) ==> Ahead(w, p)
    ensures Ahead(w, p) && !(Next(w, p).SimStep? && OwnCase(w)) ==> Ahead(w, Perform(w, p, Next(w, p), o))
    ensures Next(w, p).SimStep? ==> Rooted(w) && Ahead(w, p)
  {
    if Next(w, p).SimStep? {
      SimStepAhead(w, p, o);
    } else if Next(w, p).KdbStep? {
      KdbStepAhead(w, p, o);
    } else {
      OtherStepAhead(w, p, Next(w, p), o);
    }
  }

  /** The sweep that is asked for now, if any, leads to at most `bound` retries. */
  ghost predicate SweepEndsIn(w: World, p: Point, bound: nat) {
    NeedsSweep(ViewAt(p), w.target, EnvAt(w, p)) ==> AskEndsIn(w, SweepCall(ViewAt(p), EnvAt(w, p)), bound)
  }

  /** Performing the first missing step lowers the rank, unless it discovers another case. */
  lemma FollowingLowersRank(w: World, p: Point, o: Outcome, bound: nat)
    requires Followable(w, p) && MissingAt(w, p) != [] && SweepEndsIn(w, p, bound)
    requires Succeeds(w, p, Next(w, p), o) && Agrees(Next(w, p), o) && (Next(w, p).SimStep? ==> OwnCase(w))
    ensures Rank(w, Perform(w, p, Next(w, p), o), bound) < Rank(w, p, bound)
  {
    Head(ViewAt(p), w.target, EnvAt(w, p));
    match Next(w, p)
    case SimStep(_) =>
      HeadSim(ViewAt(p), w.target, EnvAt(w, p));
      FollowSim(w, p, o, bound);
    case HierStep(_, _) => FollowHier(w, p, o, bound);
    case ScanStep(_, _) => FollowScan(w, p, o, bound);
    case LogStep(_, _) => FollowLog(w, p, o, bound);
    case SweepStep(_) => FollowSweep(w, p, o, bound);
    case RecStep(_, _, _, _) => FollowRec(w, p, o, bound);
    case KdbStep(_) => FollowKdb(w, p, o, bound);
  }

  // ---- Runs ----

  /** Each outcome is that of the first step then missing, which succeeds. */
  ghost predicate Followed(w: World, p: Point, run: seq<Outcome>)
    decreases |run|
  {
    run == [] || (MissingAt(w, p) != [] && Succeeds(w, p, Next(w, p), run[0]) && Agrees(Next(w, p), run[0])
                  && Followed(w, Perform(w, p, Next(w, p), run[0]), run[1..]))
  }

  ghost function EndOf(w: World, p: Point, run: seq<Outcome>): Point
    requires Followed(w, p, run)
    decreases |run|
  {
    if run == [] then p else EndOf(w, Perform(w, p, Next(w, p), run[0]), run[1..])
  }

  // ---- When runs are bounded ----

  /** A discovery lies ahead, and though its root is named it finds another case. */
  ghost predicate Astray(w: World, p: Point) {
    Ahead(w, p) && Rooted(w) && !OwnCase(w)
  }

  /** The sweep call that is next should the log show failures, which it does or may yet. */
  ghost function SweepAhead(w: World, v: View, env: Env): Option<SweepRetry.Action> {
    if SimNow(v, w.target, env).Some? && WaveFiles(v) != [] && (Failing(v, w.target, env) || NeedsLog(v, w.target, env))
    then SweepCall(v, env) else None
  }

  /** The first sweep after a discovery of the target. */
  function FirstSweep(w: World): SweepRetry.Action {
    SweepRetry.SweepAll(if w.paths.waveFiles != [] then w.paths.waveFiles[0] else "", SweepRetry.Absent)
  }

  /** Every sweep that may yet be asked for leads to at most `bound` retries. */
  ghost predicate SweepsWithin(w: World, p: Point, bound: nat) {
    && AskEndsIn(w, SweepAhead(w, ViewAt(p), EnvAt(w, p)), bound)
    && (Ahead(w, p) && Rooted(w) && OwnCase(w) ==> AskEndsIn(w, Some(FirstSweep(w)), bound))
  }

  /** That holds on any waveform without a trapped cap. */
  lemma UntrappedSweepsEnd(w: World, p: Point, widest: nat)
    requires Untrapped(w.design) && Bounded(w.design, widest)
    ensures SweepsWithin(w, p, MostRetries(widest))
  {
    forall ask ensures EndsIn(w.design, ask, MostRetries(widest)) { RetriesEnd(w.design, widest, ask); }
  }

  lemma NextSweepAhead(w: World, v: View, env: Env)
    requires NeedsSweep(v, w.target, env)
    ensures SweepAhead(w, v, env) == SweepCall(v, env)
  {
  }

  /** A sweep, asked for, leads to the next call. */
  lemma SweepMovesOn(w: World, p: Point, o: Outcome)
    requires MissingAt(w, p) != [] && Next(w, p).SweepStep? && Succeeds(w, p, Next(w, p), o)
    ensures var q, ask := Perform(w, p, Next(w, p), o), AskOf(Next(w, p).call).value;
      && SweepCall(ViewAt(p), EnvAt(w, p)) == Some(Next(w, p).call)
      && SweepCall(ViewAt(q), EnvAt(w, q)) == CallAfter(w, ask)
      && (CallAfter(w, ask).Some? ==> AskOf(CallAfter(w, ask).value) == NextAsk(w.design, ask))
  {
    Head(ViewAt(p), w.target, EnvAt(w, p));
    KeepsDiscovery(w, p, Next(w, p), o);
    var q, ask := Perform(w, p, Next(w, p), o), AskOf(Next(w, p).call).value;
    assert EnvAt(w, q) == EnvAt(w, p);
    SweepLeadsOn(w, ViewAt(q), EnvAt(w, q), ask, o);
  }

  /** Steps other than discoveries, builds, logs and sweeps leave the sweep ahead as it is. */
  lemma SweepAheadKept(w: World, v: View, u: View, env: Env)
    requires u.sim == v.sim && u.anchor == v.anchor && u.sweep == v.sweep && u.log == v.log
    ensures SweepAhead(w, u, env) == SweepAhead(w, v, env)
    ensures NeedsSweep(u, w.target, env) == NeedsSweep(v, w.target, env)
  {
  }

  lemma SweepsWithinStay(w: World, p: Point, o: Outcome, bound: nat)
    requires MissingAt(w, p) != [] && Succeeds(w, p, Next(w, p), o)
    requires !Astray(w, p) && SweepsWithin(w, p, bound)
    ensures var q := Perform(w, p, Next(w, p), o); !Astray(w, q) && SweepsWithin(w, q, bound)
  {
    AheadStays(w, p, o);
    if Next(w, p).SimStep? {
      FirstSweepAhead(w, p, o);
    } else if Next(w, p).KdbStep? {
      KdbStepAhead(w, p, o);
    } else {
      SweepAheadEnds(w, p, o, bound);
    }
  }

  /** After a discovery only the first sweep can lie ahead. */
  lemma FirstSweepAhead(w: World, p: Point, o: Outcome)
    requires MissingAt(w, p) != [] && Next(w, p).SimStep? && Succeeds(w, p, Next(w, p), o)
    ensures var q := Perform(w, p, Next(w, p), o);
      SweepAhead(w, ViewAt(q), EnvAt(w, q)) in [None, Some(FirstSweep(w))]
  {
    Head(ViewAt(p), w.target, EnvAt(w, p));
    AfterSimPaths(p.session, w.paths, o.now, w.onDisk);
  }

  lemma SweepAheadEnds(w: World, p: Point, o: Outcome, bound: nat)
    requires MissingAt(w, p) != [] && Succeeds(w, p, Next(w, p), o) && !Next(w, p).SimStep? && !Next(w, p).KdbStep?
    requires AskEndsIn(w, SweepAhead(w, ViewAt(p), EnvAt(w, p)), bound)
    ensures var q := Perform(w, p, Next(w, p), o); AskEndsIn(w, SweepAhead(w, ViewAt(q), EnvAt(w, q)), bound)
  {
    var step, q := Next(w, p), Perform(w, p, Next(w, p), o);
    var v, u, env := ViewAt(p), ViewAt(q), EnvAt(w, p);
    Head(v, w.target, env);
    KeepsDiscovery(w, p, step, o);
    assert EnvAt(w, q) == env;
    if step.SweepStep? {
      NextSweepAhead(w, v, env);
      SweepMovesOn(w, p, o);
      FewerSweeps(w, u, env, AskOf(step.call).value, bound);
    } else if step.LogStep? {
      LogKeepsSweepAhead(w, v, u, env);
    } else {
      SweepAheadKept(w, v, u, env);
    }
  }

  /** A parsed log brings no other sweep ahead than was ahead while it was to be parsed. */
  lemma LogKeepsSweepAhead(w: World, v: View, u: View, env: Env)
    requires u.sim == v.sim && u.anchor == v.anchor && u.sweep == v.sweep && NeedsLog(v, w.target, env)
    ensures SweepAhead(w, u, env) == SweepAhead(w, v, env) || SweepAhead(w, u, env).None?
    ensures Failing(u, w.target, env) ==> SweepAhead(w, u, env) == SweepAhead(w, v, env)
  {
  }

  lemma WithinEndsIn(w: World, p: Point, bound: nat)
    requires SweepsWithin(w, p, bound)
    ensures SweepEndsIn(w, p, bound)
  {
    if NeedsSweep(ViewAt(p), w.target, EnvAt(w, p)) {
      NextSweepAhead(w, ViewAt(p), EnvAt(w, p));
    }
  }

  /** Something missing has a rank. */
  lemma MissingHasRank(w: World, p: Point, bound: nat)
    requires MissingAt(w, p) != []
    ensures Rank(w, p, bound) > 0
  {
    Head(ViewAt(p), w.target, EnvAt(w, p));
  }

  /**
    Following the auditor terminates, unless it goes astray: with sweeps that end, no run is
    longer than the rank of its start.
   */
  lemma {:induction false} RunsAreShort(w: World, p: Point, run: seq<Outcome>, bound: nat)
    requires Followable(w, p) && !Astray(w, p) && SweepsWithin(w, p, bound) && Followed(w, p, run)
    ensures |run| + Rank(w, EndOf(w, p, run), bound) <= Rank(w, p, bound)
    ensures MissingAt(w, EndOf(w, p, run)) != [] ==> |run| < Rank(w, p, bound)
    ensures Followable(w, EndOf(w, p, run))
    decreases |run|
  {
    if run == [] {
      if MissingAt(w, p) != [] {
        MissingHasRank(w, p, bound);
      }
    } else {
      PerformKeepsFollowable(w, p, run[0]);
      AheadStays(w, p, run[0]);
      WithinEndsIn(w, p, bound);
      FollowingLowersRank(w, p, run[0], bound);
      SweepsWithinStay(w, p, run[0], bound);
      RunsAreShort(w, Perform(w, p, Next(w, p), run[0]), run[1..], bound);
    }
  }

  // ---- What following needs ----

  ghost predicate UsableLog(w: World, paths: SimPaths) {
    && paths.simLogs != [] && paths.simLogs[0] != "" && w.stat(paths.simLogs[0]).Some?
    && paths.waveFiles != [] && paths.waveFiles[0] != ""
  }

  ghost predicate UsableAnchor(a: Anchor) {
    Truthy(a.simulator).Some? && Truthy(a.compileLog).Some?
  }

  /** The sweep was reported by the tool, on whatever waveform there was then. */
  ghost predicate Reported(sweep: SweepRetry.Sweep) {
    exists ask: Ask, f: Found, inspected: nat, degraded: bool ::
      ask.wave != "" && Inspects(ask, f, inspected) && sweep == Report(ask, f, inspected, degraded)
  }

  /** The artifacts exist: what is still to be discovered, and what is known, of the target's case. */
  ghost predicate Furnished(w: World, p: Point) {
    && (Ahead(w, p) && OwnCase(w) ==> UsableLog(w, w.paths) && UsableAnchor(AnchorOf(w.paths)))
    && Remembered(w, ViewAt(p), EnvAt(w, p))
  }

  ghost predicate Remembered(w: World, v: View, env: Env) {
    && (SimNow(v, w.target, env).Some? ==> UsableLog(w, v.sim.value))
    && (AnchorNow(v, w.target, env).Some? ==> UsableAnchor(v.anchor.value))
    && (v.sweep.Some? ==> Reported(v.sweep.value))
  }

  /** The discovery is asked for, of a target without a root. */
  ghost predicate Stranded(w: World, p: Point)
    requires MissingAt(w, p) != []
  {
    Next(w, p).SimStep? && !Rooted(w)
  }

  /**
    With its artifacts in place, the first missing step is let through by the gate, and lacks a
    required argument exactly when it is the discovery and the target names no root.
   */
  lemma FirstStepCallableIff(w: World, p: Point)
    requires Followable(w, p) && Furnished(w, p) && MissingAt(w, p) != []
    ensures Admitted(p.session, Next(w, p)) && (!Callable(Next(w, p)) <==> Stranded(w, p))
  {
    var v, env := ViewAt(p), EnvAt(w, p);
    Head(v, w.target, env);
    ConsistentView(p.session);
    match Next(w, p)
    case SimStep(_) => HeadSim(v, w.target, env);
    case SweepStep(_) => SweepHasRequest(w, p);
    case HierStep(_, _) => HierCallable(w, v, env);
    case ScanStep(_, _) => ScanCallable(w, v, env);
    case LogStep(_, _) => LogCallable(w, v, env);
    case RecStep(_, _, _, _) => RecCallable(w, v, env);
    case _ =>
  }

  lemma HierCallable(w: World, v: View, env: Env)
    requires ViewConsistent(v) && NeedsHier(v, w.target, env) && Remembered(w, v, env)
    ensures Callable(HierCall(v))
  {
  }

  lemma ScanCallable(w: World, v: View, env: Env)
    requires NeedsScan(v, w.target, env) && Remembered(w, v, env)
    ensures Callable(ScanCall(v))
  {
  }

  lemma LogCallable(w: World, v: View, env: Env)
    requires ViewConsistent(v) && NeedsLog(v, w.target, env) && !NeedsSim(v, w.target, env) && Remembered(w, v, env)
    ensures Callable(LogCall(v)) && v.simState.Some?
  {
  }

  lemma RecCallable(w: World, v: View, env: Env)
    requires ViewConsistent(v) && NeedsRec(v, w.target, env) && !NeedsSim(v, w.target, env)
    requires !NeedsHier(v, w.target, env) && Remembered(w, v, env)
    ensures Callable(RecCall(v)) && v.simState.Some? && v.hierState.Some?
  {
  }

  lemma HeadSim(v: View, t: Target, env: Env)
    requires MissingSteps(v, t, env) != [] && MissingSteps(v, t, env)[0].SimStep?
    ensures MissingSteps(v, t, env)[0] == SimStep(Truthy(t.root))
  {
    OnePerTool(v, t, env);
    ArrangedHead(SimSteps(v, t, env), HierSteps(v, t, env), ScanSteps(v, t, env), LogSteps(v, t, env),
                 SweepSteps(v, t, env), RecSteps(v, t, env), KdbSteps(v, t, env), Prioritized(v, t, env));
  }

  /** And unless that is so it can succeed. */
  lemma CanGoOn(w: World, p: Point, errors: int) returns (o: Outcome)
    requires Followable(w, p) && Furnished(w, p) && MissingAt(w, p) != [] && !Stranded(w, p)
    ensures Succeeds(w, p, Next(w, p), o) && Agrees(Next(w, p), o) && o.errors == errors
  {
    FirstStepCallableIff(w, p);
    var step := Next(w, p);
    var digest := seq(64, i => 'a');
    var detected := if step.HierStep? && step.simulator.Some? then step.simulator.value else "auto";
    o := Outcome((log, simulator, supplements) => digest, "tbh_", Hierarchy(Some(digest), ""), detected, errors,
                 false, 0, false);
    assert ValidDigest(Some(digest));
    if step.LogStep? {
      LogIsThere(w, p);
    }
  }

  lemma LogIsThere(w: World, p: Point)
    requires Furnished(w, p) && MissingAt(w, p) != [] && Next(w, p).LogStep? && Callable(Next(w, p))
    ensures w.stat(Next(w, p).log.value).Some?
  {
    Head(ViewAt(p), w.target, EnvAt(w, p));
  }

  /** A suggested sweep names a waveform. */
  lemma SweepHasRequest(w: World, p: Point)
    requires Furnished(w, p) && NeedsSweep(ViewAt(p), w.target, EnvAt(w, p))
    ensures AskOf(SweepCall(ViewAt(p), EnvAt(w, p)).value).Some?
  {
    var v := ViewAt(p);
    if v.sweep.Some? {
      var ask: Ask, f: Found, inspected: nat, degraded: bool :|
        ask.wave != "" && Inspects(ask, f, inspected) && v.sweep.value == Report(ask, f, inspected, degraded);
      NextCallIsRetry(ask, f, inspected, degraded, w.onDisk);
    }
  }

  /** Every step but a discovery and a `build_kdb` leaves the discovery alone, and each other result but its own. */
  lemma KeepsDiscovery(w: World, p: Point, step: Step, o: Outcome)
    requires Succeeds(w, p, step, o) && !step.SimStep? && !step.KdbStep?
    ensures ViewAt(Perform(w, p, step, o)).sim == ViewAt(p).sim
    ensures ViewAt(Perform(w, p, step, o)).anchor == ViewAt(p).anchor
    ensures !step.LogStep? ==> ViewAt(Perform(w, p, step, o)).log == ViewAt(p).log
    ensures ViewAt(Perform(w, p, step, o)).sweep ==
      (if step.SweepStep? then Some(SweptBy(w, step.call, o)) else ViewAt(p).sweep)
  {
    match step
    case HierStep(log, _) =>
      AfterHierarchy(p.session, HierRecord(log, Some(o.simulator), Some(o.handle), o.hierarchy.snapshot, []),
                     o.handle, o.hierarchy, w.onDisk);
    case ScanStep(log, simulator) =>
      AfterScan(p.session, ScanProv(log, ResolveSimulator(p.session, simulator, log, w.onDisk)), w.onDisk);
    case LogStep(log, simulator) =>
      AfterLog(p.session, LogResult(o.errors, o.scanFirst),
               LogProv(log.value, ResolveSimulator(p.session, simulator, None, w.onDisk), w.stat(log.value).value),
               w.onDisk);
    case SweepStep(call) =>
      AfterSweep(p.session, SweepResult(SweptBy(w, call, o)), SweepProv(AskOf(call).value.wave), w.onDisk);
    case RecStep(log, wave, simulator, compileLog) =>
      AfterRecommend(p.session,
                     RecProv(log.value, wave.value, ResolveSimulator(p.session, simulator, compileLog, w.onDisk),
                             compileLog, w.stat(log.value)),
                     w.onDisk);
  }

  lemma PerformKeepsFurnished(w: World, p: Point, o: Outcome)
    requires Furnished(w, p) && MissingAt(w, p) != [] && Succeeds(w, p, Next(w, p), o)
    ensures Furnished(w, Perform(w, p, Next(w, p), o))
  {
    Head(ViewAt(p), w.target, EnvAt(w, p));
    AheadStays(w, p, o);
    var step := Next(w, p);
    if step.SimStep? {
      AfterSimPaths(p.session, w.paths, o.now, w.onDisk);
    } else if step.KdbStep? {
      AfterKdb(p.session, w.onDisk);
    } else {
      StepKeepsRemembered(w, p, step, o);
    }
  }

  lemma StepKeepsRemembered(w: World, p: Point, step: Step, o: Outcome)
    requires Succeeds(w, p, step, o) && !step.SimStep? && !step.KdbStep?
    requires Remembered(w, ViewAt(p), EnvAt(w, p))
    ensures Remembered(w, ViewAt(Perform(w, p, step, o)), EnvAt(w, Perform(w, p, step, o)))
  {
    KeepsDiscovery(w, p, step, o);
    assert EnvAt(w, Perform(w, p, step, o)) == EnvAt(w, p);
    if step.SweepStep? {
      var ask := AskOf(step.call).value;
      assert ask.wave != "" && Reported(Report(ask, FoundFor(w.design, ask), o.inspected, o.degraded));
    }
  }

  // ---- When following settles ----

  /** A discovery that lies ahead can be called, and finds the target's case. */
  ghost predicate Finishable(w: World, p: Point) {
    Ahead(w, p) ==> Rooted(w) && OwnCase(w)
  }

  /** A sweep is asked for whose retries never end. */
  ghost predicate EndlessSweep(w: World, p: Point) {
    NeedsSweep(ViewAt(p), w.target, EnvAt(w, p)) && AskEndless(w, SweepCall(ViewAt(p), EnvAt(w, p)))
  }

  /** With outcomes that show no failures, no other sweep comes to be asked for than the next retry. */
  lemma SweepEndsInStays(w: World, p: Point, o: Outcome, bound: nat)
    requires MissingAt(w, p) != [] && Succeeds(w, p, Next(w, p), o) && o.errors == 0 && SweepEndsIn(w, p, bound)
    ensures SweepEndsIn(w, Perform(w, p, Next(w, p), o), bound)
  {
    var step, q := Next(w, p), Perform(w, p, Next(w, p), o);
    var v, u, env := ViewAt(p), ViewAt(q), EnvAt(w, p);
    Head(v, w.target, env);
    if step.SimStep? {
      AfterSimPaths(p.session, w.paths, o.now, w.onDisk);
    } else if step.KdbStep? {
      AfterKdb(p.session, w.onDisk);
    } else {
      KeepsDiscovery(w, p, step, o);
      assert EnvAt(w, q) == env;
      if step.SweepStep? {
        SweepMovesOn(w, p, o);
        FewerSweeps(w, u, env, AskOf(step.call).value, bound);
      } else if step.LogStep? {
        ParsedLog(w, p, o);
      } else {
        SweepAheadKept(w, v, u, env);
      }
    }
  }

  /** A log that has been parsed shows the errors it has. */
  lemma ParsedLog(w: World, p: Point, o: Outcome)
    requires MissingAt(w, p) != [] && Next(w, p).LogStep? && Succeeds(w, p, Next(w, p), o)
    ensures var q := Perform(w, p, Next(w, p), o); ViewAt(q).log.Some? && ViewAt(q).log.value.errors == o.errors
  {
    var step := Next(w, p);
    AfterLog(p.session, LogResult(o.errors, o.scanFirst),
             LogProv(step.log.value, ResolveSimulator(p.session, step.simulator, None, w.onDisk),
                     w.stat(step.log.value).value), w.onDisk);
  }

  /**
    Following the auditor can settle: with the artifacts in place, unless a discovery lies ahead
    that cannot be called or finds another case, and if the sweep asked for now ends.
   */
  lemma {:induction false} FollowingSettles(w: World, p: Point, bound: nat) returns (run: seq<Outcome>)
    requires Followable(w, p) && Furnished(w, p) && Finishable(w, p) && SweepEndsIn(w, p, bound)
    ensures Followed(w, p, run) && MissingAt(w, EndOf(w, p, run)) == [] && |run| <= Rank(w, p, bound)
    decreases Rank(w, p, bound)
  {
    if MissingAt(w, p) == [] {
      run := [];
    } else {
      Head(ViewAt(p), w.target, EnvAt(w, p));
      var o := CanGoOn(w, p, 0);
      AheadStays(w, p, o);
      PerformKeepsFollowable(w, p, o);
      PerformKeepsFurnished(w, p, o);
      SweepEndsInStays(w, p, o, bound);
      FollowingLowersRank(w, p, o, bound);
      var rest := FollowingSettles(w, Perform(w, p, Next(w, p), o), bound);
      run := [o] + rest;
      assert run[1..] == rest;
    }
  }

  lemma {:induction false} UnfinishableNeverSettles(w: World, p: Point, run: seq<Outcome>)
    requires !Finishable(w, p) && Followed(w, p, run)
    ensures MissingAt(w, EndOf(w, p, run)) != []
    decreases |run|
  {
    if run == [] {
      SimOrKdbMissing(ViewAt(p), w.target, EnvAt(w, p));
    } else {
      AheadStays(w, p, run[0]);
      UnfinishableNeverSettles(w, Perform(w, p, Next(w, p), run[0]), run[1..]);
    }
  }

  lemma SweepMissing(v: View, t: Target, env: Env)
    requires NeedsSweep(v, t, env) || NeedsLog(v, t, env)
    ensures MissingSteps(v, t, env) != [] && !MissingSteps(v, t, env)[0].RecStep?
      && !MissingSteps(v, t, env)[0].KdbStep?
  {
    OnePerTool(v, t, env);
    ArrangedNonEmpty(SimSteps(v, t, env), HierSteps(v, t, env), ScanSteps(v, t, env), LogSteps(v, t, env),
                     SweepSteps(v, t, env), RecSteps(v, t, env), KdbSteps(v, t, env), Prioritized(v, t, env));
    ArrangedHead(SimSteps(v, t, env), HierSteps(v, t, env), ScanSteps(v, t, env), LogSteps(v, t, env),
                 SweepSteps(v, t, env), RecSteps(v, t, env), KdbSteps(v, t, env), Prioritized(v, t, env));
  }

  lemma EndlessSweepStays(w: World, p: Point, o: Outcome)
    requires EndlessSweep(w, p) && MissingAt(w, p) != [] && Succeeds(w, p, Next(w, p), o)
    ensures EndlessSweep(w, Perform(w, p, Next(w, p), o))
  {
    var step, q := Next(w, p), Perform(w, p, Next(w, p), o);
    var v, u, env := ViewAt(p), ViewAt(q), EnvAt(w, p);
    Head(v, w.target, env);
    SweepMissing(v, w.target, env);
    KeepsDiscovery(w, p, step, o);
    assert EnvAt(w, q) == env;
    if step.SweepStep? {
      EndlessMovesOn(w, p, o);
    } else {
      SweepAheadKept(w, v, u, env);
    }
  }

  /** A sweep whose retries never end is asked for in every state of every run. */
  lemma {:induction false} EndlessSweepNeverSettles(w: World, p: Point, run: seq<Outcome>)
    requires EndlessSweep(w, p) && Followed(w, p, run)
    ensures EndlessSweep(w, EndOf(w, p, run)) && MissingAt(w, EndOf(w, p, run)) != []
    decreases |run|
  {
    if run == [] {
      SweepMissing(ViewAt(p), w.target, EnvAt(w, p));
    } else {
      EndlessSweepStays(w, p, run[0]);
      EndlessSweepNeverSettles(w, Perform(w, p, Next(w, p), run[0]), run[1..]);
    }
  }

  lemma SimOrKdbMissing(v: View, t: Target, env: Env)
    requires NeedsSim(v, t, env) || NeedsKdb(v, t, env)
    ensures MissingSteps(v, t, env) != []
    ensures NeedsSim(v, t, env) ==> SimStep(Truthy(t.root)) in MissingSteps(v, t, env)
  {
    OnePerTool(v, t, env);
    ArrangedNonEmpty(SimSteps(v, t, env), HierSteps(v, t, env), ScanSteps(v, t, env), LogSteps(v, t, env),
                     SweepSteps(v, t, env), RecSteps(v, t, env), KdbSteps(v, t, env), Prioritized(v, t, env));
    if NeedsSim(v, t, env) {
      assert SimSteps(v, t, env) == [SimStep(Truthy(t.root))];
    }
  }

  /**
    With the artifacts in place, some run settles exactly when a discovery that lies ahead can be
    called and finds the target's case, and the sweep asked for now, if any, ends.
   */
  lemma SettlesIff(w: World, p: Point)
    requires Followable(w, p) && Furnished(w, p)
    ensures (exists run :: Followed(w, p, run) && MissingAt(w, EndOf(w, p, run)) == []) <==>
      Finishable(w, p) && !EndlessSweep(w, p)
  {
    if Finishable(w, p) && !EndlessSweep(w, p) {
      var bound := BoundOf(w, p);
      var run := FollowingSettles(w, p, bound);
    } else {
      forall run | Followed(w, p, run) ensures MissingAt(w, EndOf(w, p, run)) != [] {
        if EndlessSweep(w, p) {
          EndlessSweepNeverSettles(w, p, run);
        } else {
          UnfinishableNeverSettles(w, p, run);
        }
      }
    }
  }

  lemma BoundOf(w: World, p: Point) returns (bound: nat)
    requires !EndlessSweep(w, p)
    ensures SweepEndsIn(w, p, bound)
  {
    bound := 0;
    if NeedsSweep(ViewAt(p), w.target, EnvAt(w, p)) {
      bound := BoundOfCall(w, SweepCall(ViewAt(p), EnvAt(w, p)));
    }
  }

  lemma BoundOfCall(w: World, call: Option<SweepRetry.Action>) returns (bound: nat)
    requires !AskEndless(w, call)
    ensures AskEndsIn(w, call, bound)
  {
    bound := 0;
    if call.Some? && AskOf(call.value).Some? {
      bound :| EndsIn(w.design, AskOf(call.value).value, bound);
    }
  }

  /**
    A run that has stopped before nothing is missing can go on, unless the auditor asks for a
    discovery of a target that names no root.
   */
  lemma {:induction false} EveryRunGoesOn(w: World, p: Point, run: seq<Outcome>)
    requires Followable(w, p) && Furnished(w, p) && Followed(w, p, run)
    ensures var q := EndOf(w, p, run);
      MissingAt(w, q) != [] ==> ((exists o :: Followed(w, q, [o])) <==> !Stranded(w, q))
    decreases |run|
  {
    if run == [] {
      if MissingAt(w, p) != [] {
        FirstStepCallableIff(w, p);
        if !Stranded(w, p) {
          var o := CanGoOn(w, p, 0);
          assert [o][1..] == [];
          assert Followed(w, p, [o]);
        }
      }
    } else {
      PerformKeepsFollowable(w, p, run[0]);
      PerformKeepsFurnished(w, p, run[0]);
      EveryRunGoesOn(w, Perform(w, p, Next(w, p), run[0]), run[1..]);
    }
  }

  // ---- When runs are unbounded ----

  /** A sweep may yet be asked for whose retries never end. */
  ghost predicate EndlessAhead(w: World, p: Point) {
    AskEndless(w, SweepAhead(w, ViewAt(p), EnvAt(w, p)))
  }

  /** The auditor goes astray, or a sweep without end lies ahead, before or after a discovery. */
  ghost predicate Restless(w: World, p: Point) {
    || Astray(w, p) || EndlessAhead(w, p)
    || (Ahead(w, p) && Rooted(w) && OwnCase(w) && AskEndless(w, Some(FirstSweep(w))))
  }

  lemma RestlessGoesOn(w: World, p: Point)
    requires Consistent(p.session) && Restless(w, p)
    ensures MissingAt(w, p) != [] && !Stranded(w, p)
  {
    ConsistentView(p.session);
    if Ahead(w, p) {
      SimOrKdbMissing(ViewAt(p), w.target, EnvAt(w, p));
    } else {
      SweepMissing(ViewAt(p), w.target, EnvAt(w, p));
    }
    Head(ViewAt(p), w.target, EnvAt(w, p));
  }

  lemma DiscoveryBringsSweep(w: World, p: Point, o: Outcome)
    requires Furnished(w, p) && OwnCase(w) && AskEndless(w, Some(FirstSweep(w)))
    requires MissingAt(w, p) != [] && Next(w, p).SimStep? && Succeeds(w, p, Next(w, p), o)
    ensures EndlessAhead(w, Perform(w, p, Next(w, p), o))
  {
    SimStepAhead(w, p, o);
    AfterSimPaths(p.session, w.paths, o.now, w.onDisk);
  }

  /** While a sweep lies ahead, neither a discovery nor a build comes first. */
  lemma BeforeSweepAhead(w: World, v: View, env: Env)
    requires ViewConsistent(v) && SweepAhead(w, v, env).Some?
    ensures var steps := MissingSteps(v, w.target, env);
      steps != [] && !steps[0].SimStep? && !steps[0].KdbStep? && !steps[0].RecStep?
  {
    SweepMissing(v, w.target, env);
    Head(v, w.target, env);
  }

  lemma EndlessMovesOn(w: World, p: Point, o: Outcome)
    requires MissingAt(w, p) != [] && Next(w, p).SweepStep? && Succeeds(w, p, Next(w, p), o)
    requires AskEndless(w, SweepCall(ViewAt(p), EnvAt(w, p)))
    ensures var q := Perform(w, p, Next(w, p), o); AskEndless(w, SweepCall(ViewAt(q), EnvAt(w, q)))
  {
    SweepMovesOn(w, p, o);
    EndlessLeadsOn(w.design, AskOf(Next(w, p).call).value);
  }

  lemma StillFailing(w: World, v: View, u: View, env: Env)
    requires u.sim == v.sim && u.anchor == v.anchor && u.log == v.log && NeedsSweep(v, w.target, env)
    ensures SweepAhead(w, u, env) == SweepCall(u, env)
    ensures NeedsSweep(u, w.target, env) <==> SweepCall(u, env).Some?
  {
  }

  /** Where a log shows failures, the sweep that lay ahead still does. */
  lemma FailuresKeepSweepAhead(w: World, p: Point, o: Outcome)
    requires Followable(w, p) && MissingAt(w, p) != [] && Next(w, p).LogStep? && Succeeds(w, p, Next(w, p), o)
    requires o.errors > 0
    ensures var q := Perform(w, p, Next(w, p), o);
      SweepAhead(w, ViewAt(q), EnvAt(w, q)) == SweepAhead(w, ViewAt(p), EnvAt(w, p))
  {
    Head(ViewAt(p), w.target, EnvAt(w, p));
    LogDoneCompatible(w, p, o);
    LogKeepsSweepAhead(w, ViewAt(p), ViewAt(Perform(w, p, Next(w, p), o)), EnvAt(w, p));
  }

  /** A sweep done leaves ahead the one it leads to. */
  lemma SweptAhead(w: World, p: Point, o: Outcome)
    requires MissingAt(w, p) != [] && Next(w, p).SweepStep? && Succeeds(w, p, Next(w, p), o)
    ensures var q := Perform(w, p, Next(w, p), o);
      && SweepAhead(w, ViewAt(p), EnvAt(w, p)) == SweepCall(ViewAt(p), EnvAt(w, p))
      && SweepAhead(w, ViewAt(q), EnvAt(w, q)) == SweepCall(ViewAt(q), EnvAt(w, q))
  {
    Head(ViewAt(p), w.target, EnvAt(w, p));
    NextSweepAhead(w, ViewAt(p), EnvAt(w, p));
    KeepsDiscovery(w, p, Next(w, p), o);
    StillFailing(w, ViewAt(p), ViewAt(Perform(w, p, Next(w, p), o)), EnvAt(w, p));
  }

  /** Where logs show failures, that lasts. */
  lemma RestlessStays(w: World, p: Point, o: Outcome)
    requires Followable(w, p) && Furnished(w, p) && Restless(w, p) && o.errors > 0
    requires MissingAt(w, p) != [] && Succeeds(w, p, Next(w, p), o)
    ensures Restless(w, Perform(w, p, Next(w, p), o))
  {
    AheadStays(w, p, o);
    if EndlessAhead(w, p) {
      ConsistentView(p.session);
      BeforeSweepAhead(w, ViewAt(p), EnvAt(w, p));
      if Next(w, p).SweepStep? {
        SweptAhead(w, p, o);
        EndlessMovesOn(w, p, o);
      } else if Next(w, p).LogStep? {
        FailuresKeepSweepAhead(w, p, o);
      } else {
        KeepsDiscovery(w, p, Next(w, p), o);
        SweepAheadKept(w, ViewAt(p), ViewAt(Perform(w, p, Next(w, p), o)), EnvAt(w, p));
      }
    } else if !Astray(w, p) && Next(w, p).SimStep? {
      DiscoveryBringsSweep(w, p, o);
    }
  }

  lemma {:induction false} RestlessRuns(w: World, p: Point, n: nat) returns (run: seq<Outcome>)
    requires Followable(w, p) && Furnished(w, p) && Restless(w, p)
    ensures Followed(w, p, run) && |run| == n
    decreases n
  {
    run := [];
    if n > 0 {
      RestlessGoesOn(w, p);
      var o := CanGoOn(w, p, 1);
      PerformKeepsFollowable(w, p, o);
      PerformKeepsFurnished(w, p, o);
      RestlessStays(w, p, o);
      var rest := RestlessRuns(w, Perform(w, p, Next(w, p), o), n - 1);
      run := [o] + rest;
      assert run[1..] == rest;
    }
  }

  lemma BoundOfAll(w: World, p: Point) returns (bound: nat)
    requires !Restless(w, p)
    ensures SweepsWithin(w, p, bound)
  {
    var now := BoundOfCall(w, SweepAhead(w, ViewAt(p), EnvAt(w, p)));
    var later := 0;
    if Ahead(w, p) && Rooted(w) && OwnCase(w) {
      later := BoundOfCall(w, Some(FirstSweep(w)));
    }
    bound := now + later;
    AskEndsLater(w, SweepAhead(w, ViewAt(p), EnvAt(w, p)), now, bound);
    if Ahead(w, p) && Rooted(w) && OwnCase(w) {
      AskEndsLater(w, Some(FirstSweep(w)), later, bound);
    }
  }

  lemma AskEndsLater(w: World, call: Option<SweepRetry.Action>, n: nat, m: nat)
    requires AskEndsIn(w, call, n) && n <= m
    ensures AskEndsIn(w, call, m)
  {
    if call.Some? && AskOf(call.value).Some? {
      EndsLater(w.design, AskOf(call.value).value, n, m);
    }
  }

  /** With the artifacts in place, there are runs of every length exactly in restless states. */
  lemma UnboundedIff(w: World, p: Point)
    requires Followable(w, p) && Furnished(w, p)
    ensures (forall n: nat :: HasRun(w, p, n)) <==> Restless(w, p)
  {
    if Restless(w, p) {
      forall n: nat ensures HasRun(w, p, n) {
        var run := RestlessRuns(w, p, n);
      }
    } else {
      var bound := BoundOfAll(w, p);
      var n := Rank(w, p, bound) + 1;
      forall run | Followed(w, p, run) ensures |run| != n {
        RunsAreShort(w, p, run, bound);
      }
      assert !HasRun(w, p, n);
    }
  }

  ghost predicate HasRun(w: World, p: Point, n: nat) {
    exists run :: Followed(w, p, run) && |run| == n
  }

  /**
    A shared simulation root: its discovery reports no case directory. For a target that names
    one beside the root, the same discovery is asked for again and again, from the empty session on.
   */
  lemma SharedRootNeverSettles(w: World, run: seq<Outcome>, n: nat) returns (long: seq<Outcome>)
    requires Rooted(w) && Truthy(w.target.caseDir).Some? && w.paths.caseDir.None?
    requires Followed(w, Point(EMPTY, {}), run)
    ensures MissingAt(w, EndOf(w, Point(EMPTY, {}), run)) != []
    ensures Followed(w, Point(EMPTY, {}), long) && |long| == n
  {
    var p := Point(EMPTY, {});
    assert NeedsSim(ViewAt(p), w.target, EnvAt(w, p)) && !OwnCase(w);
    UnfinishableNeverSettles(w, p, run);
    long := RestlessRuns(w, p, n);
  }

  /**
    Where the target names no root, a successful `build_kdb` leaves a discovery to do that cannot
    be called as it is asked for, though the session remembers the root; no run from there settles.
   */
  lemma BuildKdbStrands(w: World, p: Point, o: Outcome)
    requires Consistent(p.session) && NeedsKdb(ViewAt(p), w.target, EnvAt(w, p)) && Truthy(w.target.root).None?
    ensures var q := Perform(w, p, KdbCall(ViewAt(p)), o);
      && SimStep(None) in MissingAt(w, q) && !Callable(SimStep(None))
      && q.session.simState == Some(AnchorOf(ViewAt(p).sim.value))
      && forall run :: Followed(w, q, run) ==> MissingAt(w, EndOf(w, q, run)) != []
  {
    var q := Perform(w, p, KdbCall(ViewAt(p)), o);
    AfterKdb(p.session, w.onDisk);
    ConsistentView(p.session);
    SimOrKdbMissing(ViewAt(q), w.target, EnvAt(w, q));
    forall run | Followed(w, q, run) ensures MissingAt(w, EndOf(w, q, run)) != [] {
      UnfinishableNeverSettles(w, q, run);
    }
  }

  // ---- Where following does not settle ----

  /** The cached discovery of the target's case names no simulator. */
  ghost predicate Undetected(w: World, p: Point) {
    && Consistent(p.session)
    && SimNow(ViewAt(p), w.target, EnvAt(w, p)).Some?
    && ViewAt(p).sim.value.simulator.None?
  }

  /** Then the hierarchy is asked for in every state of every run: no build can match the discovery. */
  lemma {:induction false} UndetectedNeverSettles(w: World, p: Point, run: seq<Outcome>)
    requires Undetected(w, p) && Followed(w, p, run)
    ensures Undetected(w, EndOf(w, p, run))
    ensures NeedsHier(ViewAt(EndOf(w, p, run)), w.target, EnvAt(w, EndOf(w, p, run)))
    ensures MissingAt(w, EndOf(w, p, run)) != []
    decreases |run|
  {
    ConsistentView(p.session);
    if run == [] {
      assert NeedsHier(ViewAt(p), w.target, EnvAt(w, p));
      OnePerTool(ViewAt(p), w.target, EnvAt(w, p));
      ArrangedNonEmpty(SimSteps(ViewAt(p), w.target, EnvAt(w, p)), HierSteps(ViewAt(p), w.target, EnvAt(w, p)),
                       ScanSteps(ViewAt(p), w.target, EnvAt(w, p)), LogSteps(ViewAt(p), w.target, EnvAt(w, p)),
                       SweepSteps(ViewAt(p), w.target, EnvAt(w, p)), RecSteps(ViewAt(p), w.target, EnvAt(w, p)),
                       KdbSteps(ViewAt(p), w.target, EnvAt(w, p)), Prioritized(ViewAt(p), w.target, EnvAt(w, p)));
    } else {
      Head(ViewAt(p), w.target, EnvAt(w, p));
      var step := Next(w, p);
      EventKeepsConsistent(p.session, EventOf(w, p, step, run[0]), w.onDisk);
      KeepsDiscovery(w, p, step, run[0]);
      UndetectedNeverSettles(w, Perform(w, p, step, run[0]), run[1..]);
    }
  }

  lemma ArrangedNonEmpty(sim: seq<Step>, hier: seq<Step>, scan: seq<Step>, log: seq<Step>,
                         sweep: seq<Step>, rec: seq<Step>, kdb: seq<Step>, first: bool)
    ensures Arranged(sim, hier, scan, log, sweep, rec, kdb, first) == [] <==>
      sim == [] && hier == [] && scan == [] && log == [] && sweep == [] && rec == [] && kdb == []
  {
  }

  /** The cached sweep is of the whole design, its cap is trapped, and the log it serves shows failures. */
  ghost predicate Trapped(w: World, p: Point, low: nat, high: nat) {
    var v, env := ViewAt(p), EnvAt(w, p);
    && Failing(v, w.target, env) && SimNow(v, w.target, env).Some? && WaveFiles(v) != []
    && v.sweep.Some? && TrappedSweep(w, v.sweep.value, low, high)
  }

  ghost predicate TrappedSweep(w: World, sweep: SweepRetry.Sweep, low: nat, high: nat) {
    exists ask: Ask, inspected: nat, degraded: bool ::
      && ask.wave != "" && SweepRetry.NonEmpty(ask.scope).None? && Inspects(ask, FoundFor(w.design, ask), inspected)
      && sweep == Report(ask, FoundFor(w.design, ask), inspected, degraded)
      && Trap(FoundFor(w.design, ask), false, ask.cap, low, high)
  }

  /** Then a sweep is asked for in every state of every run. */
  lemma TrappedSweepNeverSettles(w: World, p: Point, run: seq<Outcome>, low: nat, high: nat)
    requires Trapped(w, p, low, high) && Followed(w, p, run)
    ensures EndlessSweep(w, EndOf(w, p, run)) && MissingAt(w, EndOf(w, p, run)) != []
  {
    var ask: Ask, inspected: nat, degraded: bool :|
      && ask.wave != "" && SweepRetry.NonEmpty(ask.scope).None? && Inspects(ask, FoundFor(w.design, ask), inspected)
      && ViewAt(p).sweep.value == Report(ask, FoundFor(w.design, ask), inspected, degraded)
      && Trap(FoundFor(w.design, ask), false, ask.cap, low, high);
    TrapIsEndless(w.design, ask, low, high);
    NextCallIsRetry(ask, FoundFor(w.design, ask), inspected, degraded, w.onDisk);
    EndlessLeadsOn(w.design, ask);
    AskOfAction(NextAsk(w.design, ask).value);
    EndlessSweepNeverSettles(w, p, run);
  }

  lemma TrapIsEndless(design: Design, ask: Ask, low: nat, high: nat)
    requires SweepRetry.NonEmpty(ask.scope).None? && Trap(FoundFor(design, ask), false, ask.cap, low, high)
    ensures Endless(design, ask)
  {
    RetriesForEverIff(FoundFor(design, ask), false, ask.cap);
    UnscopedEndlessIff(design, ask);
  }

  // ---- The identity guard ----

  /** The target names another case than the known one. */
  predicate OtherCase(anchor: Anchor, t: Target, env: Env) {
    || (Truthy(t.caseDir).Some? && !SameReal(t.caseDir, anchor.caseDir, env))
    || (Truthy(t.root).Some? && !SameReal(t.root, anchor.verifRoot, env))
  }

  /** Nothing of the known case is shown or asked for, only a discovery of the target. */
  function ColdStart(t: Target): Snapshot {
    Snapshot(Unavailable, Unavailable, Unavailable, Unavailable, Unavailable, Unavailable, [SimStep(Truthy(t.root))])
  }

  lemma GuardFires(v: View, t: Target, env: Env)
    requires ViewConsistent(v) && v.anchor.Some? && OtherCase(v.anchor.value, t, env)
    ensures Mismatch(v, t, env) <==> v.sim.Some?
    ensures v.sim.Some? ==> SnapshotOf(v, t, env) == ColdStart(t)
  {
    if v.sim.Some? {
      assert SimSteps(v, t, env) == [SimStep(Truthy(t.root))];
    }
  }

  /**
    For a target of another case than the known one, the auditor presents a cold start exactly
    when that case's discovery is still cached; and it asks for nothing else exactly when that
    is so or nothing else of the known case is missing.
   */
  lemma OtherCaseIsColdStartIff(v: View, t: Target, env: Env)
    requires ViewConsistent(v) && v.anchor.Some? && OtherCase(v.anchor.value, t, env)
    ensures SnapshotOf(v, t, env) == ColdStart(t) <==> v.sim.Some?
    ensures MissingSteps(v, t, env) == [SimStep(Truthy(t.root))] <==>
      v.sim.Some? || !(NeedsHier(v, t, env) || NeedsScan(v, t, env) || NeedsLog(v, t, env) || NeedsRec(v, t, env))
  {
    GuardFires(v, t, env);
    if v.sim.None? {
      OnePerTool(v, t, env);
      OnlySim(SimSteps(v, t, env), HierSteps(v, t, env), ScanSteps(v, t, env), LogSteps(v, t, env),
              SweepSteps(v, t, env), RecSteps(v, t, env), KdbSteps(v, t, env), Prioritized(v, t, env));
    }
  }

  lemma OnlySim(sim: seq<Step>, hier: seq<Step>, scan: seq<Step>, log: seq<Step>,
                sweep: seq<Step>, rec: seq<Step>, kdb: seq<Step>, first: bool)
    requires |sim| == 1
    ensures Arranged(sim, hier, scan, log, sweep, rec, kdb, first) == sim <==>
      hier == [] && scan == [] && log == [] && sweep == [] && rec == [] && kdb == []
  {
    var all := Arranged(sim, hier, scan, log, sweep, rec, kdb, first);
    assert |all| == 1 + |hier| + |scan| + |log| + |sweep| + |rec| + |kdb|;
  }

  /**
    A successful `build_kdb` ends the cold start: the guard no longer sees that the target is
    another case, and where no hierarchy is cached one is asked for with the old case's compile log.
   */
  lemma BuildKdbDefeatsGuard(s: State, t: Target, env: Env, onDisk: string -> string)
    requires Consistent(s) && Mismatch(Seen(s), t, env)
    ensures SnapshotOf(Seen(s), t, env) == ColdStart(t)
    ensures var v := Seen(After(s, KdbDone(true), onDisk));
      && SnapshotOf(v, t, env) != ColdStart(t)
      && (BuildHierarchy !in s.cache ==> HierCall(Seen(s)) in MissingSteps(v, t, env))
  {
    ConsistentView(s);
    AfterKdb(s, onDisk);
    var v := Seen(s).(sim := None);
    OtherCaseIsColdStartIff(Seen(s), t, env);
    OtherCaseIsColdStartIff(v, t, env);
    if BuildHierarchy !in s.cache {
      assert HierSteps(v, t, env) == [HierCall(v)];
    }
  }

  /** A successful `build_kdb` makes the auditor ask for the discovery again. */
  lemma KdbReopensDiscovery(w: World, p: Point, o: Outcome)
    requires NeedsKdb(ViewAt(p), w.target, EnvAt(w, p))
    ensures var q := Perform(w, p, KdbCall(ViewAt(p)), o);
      NeedsSim(ViewAt(q), w.target, EnvAt(w, q)) && !NeedsKdb(ViewAt(q), w.target, EnvAt(w, q))
  {
    AfterKdb(p.session, w.onDisk);
  }
}
