/** The session: cached results, their provenance, and what each handler does to them. */
module Session {
  import opened Wrappers
  import opened HierarchyContext
  import SweepRetry

  datatype Tool = GetSimPaths | BuildHierarchy | ParseLog | ScanRisks | SweepHandshakes | Recommend | BuildKdb

  datatype CompileLog = CompileLog(path: string, phase: string, size: int, mtime: int)

  datatype SimPaths = SimPaths(
    verifRoot: Option<string>, caseName: Option<string>, caseDir: Option<string>, simulator: Option<string>,
    compileLogs: seq<CompileLog>, simLogs: seq<string>, waveFiles: seq<string>)

  /** What the session state and the provenance keep of a discovery. */
  datatype Anchor = Anchor(
    verifRoot: Option<string>, caseDir: Option<string>, simulator: Option<string>, compileLog: Option<string>)

  datatype Stat = Stat(mtime: int, size: int)

  datatype Result =
    | SimResult(paths: SimPaths)
    | HierResult
    | LogResult(errors: int, scanFirst: bool)
    | ScanResult
    | SweepResult(sweep: SweepRetry.Sweep)
    | RecResult

  datatype Prov =
    | SimProv(anchor: Anchor)
    | HierProv(record: HierRecord)
    | LogProv(log: string, simulator: string, stat: Stat)
    | ScanProv(compileLog: Option<string>, scanSimulator: string)
    | SweepProv(wave: string)
    | RecProv(recLog: string, recWave: string, recSimulator: string, recCompileLog: Option<string>,
              recStat: Option<Stat>)

  datatype LogIdentity = LogIdentity(path: Option<string>, phase: string, size: int, mtime: int)

  /** `_session_identity`: what makes two discoveries the same case. */
  datatype Identity = Identity(
    root: Option<string>, caseName: Option<string>, caseDir: Option<string>, simulator: Option<string>,
    logs: seq<LogIdentity>)

  function OnDisk(path: Option<string>, onDisk: string -> string): Option<string> {
    if Truthy(path).None? then None else Some(onDisk(path.value))
  }

  function IdentityOf(p: SimPaths, onDisk: string -> string): Identity {
    Identity(OnDisk(p.verifRoot, onDisk), p.caseName, OnDisk(p.caseDir, onDisk), p.simulator,
             seq(|p.compileLogs|, i requires 0 <= i < |p.compileLogs| =>
               var l := p.compileLogs[i]; LogIdentity(OnDisk(Some(l.path), onDisk), l.phase, l.size, l.mtime)))
  }

  function FirstElaborate(logs: seq<CompileLog>): Option<string> {
    if logs == [] then None
    else if logs[0].phase == "elaborate" then Some(logs[0].path)
    else FirstElaborate(logs[1..])
  }

  /** The primary compile log: the first of phase elaborate, else the first of all. */
  function AnchorOf(p: SimPaths): Anchor {
    Anchor(p.verifRoot, p.caseDir, p.simulator,
           if FirstElaborate(p.compileLogs).Some? then FirstElaborate(p.compileLogs)
           else if p.compileLogs != [] then Some(p.compileLogs[0].path) else None)
  }

  /** `_DOWNSTREAM_DEPS`. */
  function Downstream(tool: Tool): seq<Tool> {
    match tool
    case GetSimPaths => [ParseLog, SweepHandshakes, Recommend]
    case BuildHierarchy => [Recommend]
    case ParseLog => [Recommend]
    case ScanRisks => [Recommend]
    case _ => []
  }

  /** When a call began: under which case, and at which moment. */
  datatype Begun = Begun(underCase: Option<Identity>, at: nat)

  /** When a cached entry was stored, and when the call that computed it began. */
  datatype Mark = Mark(stored: nat, begun: Begun)

  /**
    The session as a value. `marks` and `pending`, the calls under way, are bookkeeping of the
    model. `formal` is the formal-discovery domain.
   */
  datatype State = State(
    simState: Option<Anchor>, hierState: Option<HierRecord>,
    cache: map<Tool, Result>, prov: map<Tool, Prov>, handles: map<string, Hierarchy>,
    formal: Option<string>,
    marks: map<Tool, Mark>, pending: map<nat, Begun>, clock: nat)

  const EMPTY: State := State(None, None, map[], map[], map[], None, map[], map[], 0)

  /**
    Handlers that await begin at one moment and store at another; a call that was not begun
    separately begins and stores at once. Each handler's writes are atomic; `now` is the
    fingerprint at that moment. A recovery registers the hierarchy of an explicitly named
    context and touches nothing else. Every tool with prerequisites first passes the gate, which
    may fill in absent state; `project` is the simulator that the hierarchy itself names.
   */
  datatype Event =
    | Begin(call: nat)
    | SimPathsDone(paths: SimPaths, now: Fingerprint)
    | HierarchyDone(call: nat, record: HierRecord, handle: string, hierarchy: Hierarchy)
    | LogDone(result: Result, prov: Prov)
    | ScanDone(call: nat, prov: Prov)
    | SweepDone(call: nat, result: Result, prov: Prov)
    | RecommendDone(call: nat, prov: Prov)
    | KdbDone(success: bool)
    | RecoveryDone(handle: string, hierarchy: Hierarchy)
    | Gate(steps: seq<Tool>, caller: Caller, req: Request, project: Option<string>)
    | Reset
    | FormalDone(discovery: string)

  /** The results and provenances an event carries are of its own tool's kind. */
  ghost predicate WellFormed(e: Event) {
    match e
    case LogDone(r, p) => r.LogResult? && p.LogProv?
    case ScanDone(_, p) => p.ScanProv?
    case SweepDone(_, r, p) => r.SweepResult? && p.SweepProv?
    case RecommendDone(_, p) => p.RecProv?
    case HierarchyDone(_, record, handle, h) =>
      && ValidDigest(h.snapshot) && record.handle == Some(handle) && record.snapshot == h.snapshot
      && record.simulator.Some?
    case RecoveryDone(_, h) => ValidDigest(h.snapshot)
    case Gate(steps, _, _, _) => Gates(steps)
    case _ => true
  }

  // ---- Specification of the updates ----

  function Without<V>(m: map<Tool, V>, tools: seq<Tool>): map<Tool, V> {
    map t | t in m && t !in tools :: m[t]
  }

  /** Results and provenances of `tools` are dropped. */
  function Dropped(s: State, tools: seq<Tool>): State {
    s.(cache := Without(s.cache, tools), prov := Without(s.prov, tools), marks := Without(s.marks, tools))
  }

  function Cleared(s: State): State {
    s.(simState := None, hierState := None, cache := map[], prov := map[], handles := map[], marks := map[])
  }

  function CurrentIdentity(s: State, onDisk: string -> string): Option<Identity> {
    if GetSimPaths in s.cache && s.cache[GetSimPaths].SimResult?
    then Some(IdentityOf(s.cache[GetSimPaths].paths, onDisk)) else None
  }

  function Now(s: State, onDisk: string -> string): Begun {
    Begun(CurrentIdentity(s, onDisk), s.clock)
  }

  function BegunOf(s: State, call: nat, onDisk: string -> string): Begun {
    if call in s.pending then s.pending[call] else Now(s, onDisk)
  }

  /** A result is cached with its provenance, now. */
  function Stored(s: State, tool: Tool, result: Result, prov: Prov, begun: Begun): State {
    s.(cache := s.cache[tool := result], prov := s.prov[tool := prov],
       marks := s.marks[tool := Mark(s.clock, begun)], clock := s.clock + 1)
  }

  function HierProvOf(s: State): Option<HierRecord> {
    if BuildHierarchy in s.prov && s.prov[BuildHierarchy].HierProv? then Some(s.prov[BuildHierarchy].record) else None
  }

  // ---- The prerequisite gate ----

  datatype Request = Request(
    handle: string, compileLog: Option<string>, simulator: Option<string>, allowBootstrap: bool)

  /** A tool with prerequisites: one answering through a handle, one with a bounded fallback, or another. */
  datatype Caller = HandleTool | BootstrapTool | OtherTool

  predicate Present(s: State, step: Tool) {
    if step == GetSimPaths then s.simState.Some? else s.hierState.Some?
  }

  predicate Exempt(step: Tool, caller: Caller, req: Request) {
    step == BuildHierarchy && caller == BootstrapTool && req.allowBootstrap
  }

  /** A handle tool names a hierarchy that is registered. */
  predicate HandleServes(s: State, caller: Caller, req: Request) {
    caller == HandleTool && req.handle != "" && req.handle in s.handles
  }

  /** The request does not contradict the cached hierarchy's provenance. */
  predicate RequestAgrees(record: HierRecord, req: Request, onDisk: string -> string) {
    && (Truthy(req.compileLog).Some? ==>
          Truthy(record.compileLog).Some? && onDisk(record.compileLog.value) == onDisk(req.compileLog.value))
    && (Truthy(req.simulator).Some? && req.simulator.value != "auto" ==>
          record.simulator == None || record.simulator == Some("auto") || record.simulator == req.simulator)
  }

  predicate CacheServes(s: State, req: Request, onDisk: string -> string) {
    BuildHierarchy in s.cache && HierProvOf(s).Some? && RequestAgrees(HierProvOf(s).value, req, onDisk)
  }

  /** A step is passed when it is exempt, present, or can be restored. */
  predicate Passes(s: State, step: Tool, caller: Caller, req: Request, onDisk: string -> string) {
    || Exempt(step, caller, req) || Present(s, step)
    || (if step == GetSimPaths then GetSimPaths in s.cache && s.cache[GetSimPaths].SimResult?
        else HandleServes(s, caller, req) || CacheServes(s, req, onDisk))
  }

  /** The hierarchy state as it is restored: without handle, snapshot and supplements. */
  function RestoredRecord(s: State, project: Option<string>): HierRecord {
    var record := HierProvOf(s);
    HierRecord(if record.Some? then record.value.compileLog else None,
               if record.Some? && Truthy(record.value.simulator).Some? then record.value.simulator
               else if Truthy(project).Some? then project else Some("auto"),
               None, None, [])
  }

  function RestoredAnchor(s: State): Option<Anchor> {
    if GetSimPaths in s.prov && s.prov[GetSimPaths].SimProv? then Some(s.prov[GetSimPaths].anchor)
    else if GetSimPaths in s.cache && s.cache[GetSimPaths].SimResult? then Some(AnchorOf(s.cache[GetSimPaths].paths))
    else None
  }

  /** The session once this step is passed. */
  function Filled(s: State, step: Tool, caller: Caller, req: Request, project: Option<string>): State {
    if Exempt(step, caller, req) || Present(s, step) then s
    else if step == GetSimPaths then s.(simState := RestoredAnchor(s))
    else s.(hierState := Some(RestoredRecord(s, project)))
  }

  /** The session after the gate: it stops at the first step that is not passed. */
  function Gated(s: State, steps: seq<Tool>, caller: Caller, req: Request, project: Option<string>,
                 onDisk: string -> string): (r: State)
    ensures r == s.(simState := r.simState, hierState := r.hierState)
    ensures (s.simState.Some? ==> r.simState == s.simState) && (s.hierState.Some? ==> r.hierState == s.hierState)
    decreases |steps|
  {
    if steps == [] || !Passes(s, steps[0], caller, req, onDisk) then s
    else Gated(Filled(s, steps[0], caller, req, project), steps[1..], caller, req, project, onDisk)
  }

  /** The step the gate names as missing, if it does not open. */
  function Blocked(s: State, steps: seq<Tool>, caller: Caller, req: Request, project: Option<string>,
                   onDisk: string -> string): (r: Option<Tool>)
    ensures r.Some? ==> r.value in steps
    decreases |steps|
  {
    if steps == [] then None
    else if !Passes(s, steps[0], caller, req, onDisk) then Some(steps[0])
    else Blocked(Filled(s, steps[0], caller, req, project), steps[1..], caller, req, project, onDisk)
  }

  // ---- What each event does ----

  /** The session once a discovery's identity has been compared with the cached one. */
  function AfterDiscovery(s: State, paths: SimPaths, now: Fingerprint, onDisk: string -> string): State {
    var previous := CurrentIdentity(s, onDisk);
    if previous.Some? && previous.value != IdentityOf(paths, onDisk) then Cleared(s)
    else
      var t := Dropped(s, Downstream(GetSimPaths));
      if t.hierState.Some? && !SnapshotCurrent(t.hierState, HierProvOf(t), t.handles, now)
      then Dropped(t, [BuildHierarchy]).(hierState := None, handles := map[])
      else t
  }

  function After(s: State, e: Event, onDisk: string -> string): State {
    match e
    case Begin(call) => s.(pending := s.pending[call := Now(s, onDisk)])
    case SimPathsDone(paths, now) =>
      Stored(AfterDiscovery(s, paths, now, onDisk).(simState := Some(AnchorOf(paths))),
             GetSimPaths, SimResult(paths), SimProv(AnchorOf(paths)), Begun(Some(IdentityOf(paths, onDisk)), s.clock))
    case HierarchyDone(call, record, handle, h) =>
      Stored(Dropped(s, Downstream(BuildHierarchy)).(hierState := Some(record), handles := s.handles[handle := h]),
             BuildHierarchy, HierResult, HierProv(record), BegunOf(s, call, onDisk))
    case LogDone(r, p) => Stored(Dropped(s, Downstream(ParseLog)), ParseLog, r, p, Now(s, onDisk))
    case ScanDone(call, p) =>
      Stored(Dropped(s, Downstream(ScanRisks)), ScanRisks, ScanResult, p, BegunOf(s, call, onDisk))
    case SweepDone(call, r, p) => Stored(s, SweepHandshakes, r, p, BegunOf(s, call, onDisk))
    case RecommendDone(call, p) => Stored(s, Recommend, RecResult, p, BegunOf(s, call, onDisk))
    case KdbDone(success) =>
      if success then s.(cache := Without(s.cache, [GetSimPaths]), marks := Without(s.marks, [GetSimPaths])) else s
    case RecoveryDone(handle, h) => s.(handles := s.handles[handle := h])
    case Gate(steps, caller, req, project) => Gated(s, steps, caller, req, project, onDisk)
    case Reset => Cleared(s).(formal := None)
    case FormalDone(d) => s.(formal := Some(d))
  }

  // ---- The mutable session ----

  class SessionStore {
    const onDisk: string -> string
    var simState: Option<Anchor>
    var hierState: Option<HierRecord>
    var cache: map<Tool, Result>
    var prov: map<Tool, Prov>
    var handles: map<string, Hierarchy>
    var formal: Option<string>
    ghost var marks: map<Tool, Mark>
    ghost var pending: map<nat, Begun>
    ghost var clock: nat

    ghost function Value(): State
      reads this
    {
      State(simState, hierState, cache, prov, handles, formal, marks, pending, clock)
    }

    constructor (onDisk: string -> string)
      ensures Value() == EMPTY && this.onDisk == onDisk
    {
      this.onDisk := onDisk;
      simState, hierState, cache, prov, handles, formal := None, None, map[], map[], map[], None;
      marks, pending, clock := map[], map[], 0;
    }

    method Drop(tool: Tool)
      modifies this
      ensures Value() == Dropped(old(Value()), [tool])
    {
      cache := Without(cache, [tool]);
      prov := Without(prov, [tool]);
      marks := Without(marks, [tool]);
    }

    /** `_invalidate_downstream`. */
    method InvalidateDownstream(from: Tool)
      modifies this
      ensures Value() == Dropped(old(Value()), Downstream(from))
    {
      var deps := Downstream(from);
      ghost var start := Value();
      assert Dropped(start, []) == start by {
        assert Without(start.cache, []) == start.cache && Without(start.prov, []) == start.prov;
        assert Without(start.marks, []) == start.marks;
      }
      for n := 0 to |deps|
        invariant Value() == Dropped(start, deps[..n])
      {
        Drop(deps[n]);
        assert deps[..n + 1] == deps[..n] + [deps[n]];
        DropOneMore(start, deps[..n], deps[n]);
      }
      assert deps[..|deps|] == deps;
    }

    /** `_invalidate_hierarchy_state`. */
    method InvalidateHierarchy()
      modifies this
      ensures Value() == Dropped(old(Value()), [BuildHierarchy]).(hierState := None, handles := map[])
    {
      Drop(BuildHierarchy);
      hierState := None;
      handles := map[];
    }

    method ClearAll()
      modifies this
      ensures Value() == Cleared(old(Value()))
    {
      simState, hierState, cache, prov, handles := None, None, map[], map[], map[];
      marks := map[];
    }

    method Put(tool: Tool, result: Result, provenance: Prov, ghost begun: Begun)
      modifies this
      ensures Value() == Stored(old(Value()), tool, result, provenance, begun)
    {
      cache := cache[tool := result];
      prov := prov[tool := provenance];
      marks := marks[tool := Mark(clock, begun)];
      clock := clock + 1;
    }

    /** A handler that awaits begins. */
    ghost method BeginCall(call: nat)
      modifies this
      ensures Value() == After(old(Value()), Begin(call), onDisk)
    {
      pending := pending[call := Now(Value(), onDisk)];
    }

    /** The `get_sim_paths` branch of `_update_session_state`, then the caching in the dispatcher. */
    method SimPathsHandler(paths: SimPaths, now: Fingerprint)
      modifies this
      ensures Value() == After(old(Value()), SimPathsDone(paths, now), onDisk)
    {
      var previous: Option<Identity> :=
        if GetSimPaths in cache && cache[GetSimPaths].SimResult?
        then Some(IdentityOf(cache[GetSimPaths].paths, onDisk)) else None;
      if previous.Some? && previous.value != IdentityOf(paths, onDisk) {
        ClearAll();
      } else {
        InvalidateDownstream(GetSimPaths);
        var hierProv :=
          if BuildHierarchy in prov && prov[BuildHierarchy].HierProv? then Some(prov[BuildHierarchy].record) else None;
        if hierState.Some? && !SnapshotCurrent(hierState, hierProv, handles, now) {
          InvalidateHierarchy();
        }
      }
      simState := Some(AnchorOf(paths));
      Put(GetSimPaths, SimResult(paths), SimProv(AnchorOf(paths)), Begun(Some(IdentityOf(paths, onDisk)), clock));
    }

    method HierarchyHandler(ghost call: nat, record: HierRecord, handle: string, hierarchy: Hierarchy)
      modifies this
      ensures Value() == After(old(Value()), HierarchyDone(call, record, handle, hierarchy), onDisk)
    {
      ghost var begun := BegunOf(Value(), call, onDisk);
      InvalidateDownstream(BuildHierarchy);
      hierState := Some(record);
      handles := handles[handle := hierarchy];
      Put(BuildHierarchy, HierResult, HierProv(record), begun);
    }

    method LogHandler(result: Result, provenance: Prov)
      modifies this
      ensures Value() == After(old(Value()), LogDone(result, provenance), onDisk)
    {
      ghost var begun := Now(Value(), onDisk);
      InvalidateDownstream(ParseLog);
      Put(ParseLog, result, provenance, begun);
    }

    method ScanHandler(ghost call: nat, provenance: Prov)
      modifies this
      ensures Value() == After(old(Value()), ScanDone(call, provenance), onDisk)
    {
      ghost var begun := BegunOf(Value(), call, onDisk);
      InvalidateDownstream(ScanRisks);
      Put(ScanRisks, ScanResult, provenance, begun);
    }

    method SweepHandler(ghost call: nat, result: Result, provenance: Prov)
      modifies this
      ensures Value() == After(old(Value()), SweepDone(call, result, provenance), onDisk)
    {
      Put(SweepHandshakes, result, provenance, BegunOf(Value(), call, onDisk));
    }

    method RecommendHandler(ghost call: nat, provenance: Prov)
      modifies this
      ensures Value() == After(old(Value()), RecommendDone(call, provenance), onDisk)
    {
      Put(Recommend, RecResult, provenance, BegunOf(Value(), call, onDisk));
    }

    /** A successful `build_kdb` forgets the discovery result, but not its provenance. */
    method KdbHandler(success: bool)
      modifies this
      ensures Value() == After(old(Value()), KdbDone(success), onDisk)
    {
      if success {
        cache := Without(cache, [GetSimPaths]);
        marks := Without(marks, [GetSimPaths]);
      }
    }

    /** The publication at the end of a recovery. */
    method RecoveryHandler(handle: string, hierarchy: Hierarchy)
      modifies this
      ensures Value() == After(old(Value()), RecoveryDone(handle, hierarchy), onDisk)
    {
      handles := handles[handle := hierarchy];
    }

    /** `_restore_get_sim_paths_state_from_cache`. */
    method RestoreSim() returns (ok: bool)
      requires simState.None?
      modifies this
      ensures ok <==> old(GetSimPaths in cache && cache[GetSimPaths].SimResult?)
      ensures Value() == if ok then old(Value()).(simState := old(RestoredAnchor(Value()))) else old(Value())
    {
      if GetSimPaths !in cache || !cache[GetSimPaths].SimResult? {
        return false;
      }
      simState :=
        if GetSimPaths in prov && prov[GetSimPaths].SimProv? then Some(prov[GetSimPaths].anchor)
        else Some(AnchorOf(cache[GetSimPaths].paths));
      return true;
    }

    /** `_restore_build_tb_hierarchy_state_from_cache`. */
    method RestoreHierarchy(caller: Caller, req: Request, project: Option<string>) returns (ok: bool)
      requires hierState.None?
      modifies this
      ensures ok <==> old(HandleServes(Value(), caller, req) || CacheServes(Value(), req, onDisk))
      ensures Value() ==
        if ok then old(Value()).(hierState := Some(RestoredRecord(old(Value()), project))) else old(Value())
    {
      var record := if BuildHierarchy in prov && prov[BuildHierarchy].HierProv?
                    then Some(prov[BuildHierarchy].record) else None;
      var used := if record.Some? && Truthy(record.value.simulator).Some? then record.value.simulator
                  else if Truthy(project).Some? then project else Some("auto");
      var log := if record.Some? then record.value.compileLog else None;
      if !(caller == HandleTool && req.handle != "" && req.handle in handles) {
        if BuildHierarchy !in cache || record.None? {
          return false;
        }
        if Truthy(req.compileLog).Some?
           && !(Truthy(log).Some? && onDisk(log.value) == onDisk(req.compileLog.value)) {
          return false;
        }
        if Truthy(req.simulator).Some? && req.simulator.value != "auto"
           && record.value.simulator != None && record.value.simulator != Some("auto")
           && record.value.simulator != req.simulator {
          return false;
        }
      }
      hierState := Some(HierRecord(log, used, None, None, []));
      return true;
    }

    /** One step of the gate. */
    method PassStep(step: Tool, caller: Caller, req: Request, project: Option<string>) returns (ok: bool)
      modifies this
      ensures ok <==> old(Passes(Value(), step, caller, req, onDisk))
      ensures Value() == if ok then Filled(old(Value()), step, caller, req, project) else old(Value())
    {
      if step == BuildHierarchy && caller == BootstrapTool && req.allowBootstrap {
        return true;
      }
      ok := if step == GetSimPaths then simState.Some? else hierState.Some?;
      if !ok {
        if step == GetSimPaths {
          ok := RestoreSim();
        } else {
          ok := RestoreHierarchy(caller, req, project);
        }
      }
    }

    /** `_check_prerequisites`. */
    method CheckPrerequisites(steps: seq<Tool>, caller: Caller, req: Request, project: Option<string>)
      returns (missing: Option<Tool>)
      modifies this
      ensures Value() == After(old(Value()), Gate(steps, caller, req, project), onDisk)
      ensures missing == Blocked(old(Value()), steps, caller, req, project, onDisk)
    {
      ghost var start := Value();
      for n := 0 to |steps|
        invariant Gated(Value(), steps[n..], caller, req, project, onDisk)
               == Gated(start, steps, caller, req, project, onDisk)
        invariant Blocked(Value(), steps[n..], caller, req, project, onDisk)
               == Blocked(start, steps, caller, req, project, onDisk)
      {
        assert steps[n..][0] == steps[n] && steps[n..][1..] == steps[n + 1..];
        var ok := PassStep(steps[n], caller, req, project);
        if !ok {
          return Some(steps[n]);
        }
      }
      return None;
    }

    method ResetHandler()
      modifies this
      ensures Value() == After(old(Value()), Reset, onDisk)
    {
      ClearAll();
      formal := None;
    }

    method FormalHandler(discovery: string)
      modifies this
      ensures Value() == After(old(Value()), FormalDone(discovery), onDisk)
    {
      formal := Some(discovery);
    }
  }

  lemma DropOneMore(s: State, tools: seq<Tool>, tool: Tool)
    ensures Dropped(Dropped(s, tools), [tool]) == Dropped(s, tools + [tool])
  {
    assert Without(Without(s.cache, tools), [tool]) == Without(s.cache, tools + [tool]);
    assert Without(Without(s.prov, tools), [tool]) == Without(s.prov, tools + [tool]);
    assert Without(Without(s.marks, tools), [tool]) == Without(s.marks, tools + [tool]);
  }

  // ---- Reachable sessions ----

  function AfterAll(s: State, events: seq<Event>, onDisk: string -> string): State
    decreases |events|
  {
    if events == [] then s else AfterAll(After(s, events[0], onDisk), events[1..], onDisk)
  }

  ghost predicate AllWellFormed(events: seq<Event>) {
    forall i | 0 <= i < |events| :: WellFormed(events[i])
  }

  /** The tools whose cached result and provenance come and go together. */
  predicate Paired(tool: Tool) {
    tool == ParseLog || tool == ScanRisks || tool == SweepHandshakes || tool == Recommend
  }

  predicate OfKind(tool: Tool, result: Result, prov: Prov) {
    match tool
    case ParseLog => result.LogResult? && prov.LogProv?
    case ScanRisks => result.ScanResult? && prov.ScanProv?
    case SweepHandshakes => result.SweepResult? && prov.SweepProv?
    case Recommend => result.RecResult? && prov.RecProv?
    case _ => false
  }

  ghost predicate PairsConsistent(s: State) {
    forall t | Paired(t) :: (t in s.cache <==> t in s.prov) && (t in s.cache ==> OfKind(t, s.cache[t], s.prov[t]))
  }

  /** A cached discovery is the one the session state describes, and so is its provenance. */
  ghost predicate SimConsistent(s: State) {
    && (GetSimPaths in s.cache ==>
          s.cache[GetSimPaths].SimResult? && s.simState == Some(AnchorOf(s.cache[GetSimPaths].paths)))
    && (GetSimPaths in s.prov <==> s.simState.Some?)
    && (GetSimPaths in s.prov ==> s.prov[GetSimPaths] == SimProv(s.simState.value))
  }

  /** What the gate restores where no build is recorded. */
  ghost predicate BareState(record: HierRecord) {
    record.simulator.Some? && record == HierRecord(None, record.simulator, None, None, [])
  }

  /**
    A hierarchy is cached with its provenance, and the session state describes it; without one
    the state is empty or was restored for a registered handle.
   */
  ghost predicate HierConsistent(s: State) {
    && (BuildHierarchy in s.cache <==> BuildHierarchy in s.prov)
    && (BuildHierarchy in s.cache ==>
          && s.hierState.Some? && s.hierState.value.simulator.Some?
          && s.cache[BuildHierarchy].HierResult? && s.prov[BuildHierarchy] == HierProv(s.hierState.value))
    && (BuildHierarchy !in s.cache && s.hierState.Some? ==> BareState(s.hierState.value))
    && AllRecorded(s.handles)
  }

  /** Results have their tool's kind and a provenance, and the session state agrees with it. */
  ghost predicate Consistent(s: State) {
    SimConsistent(s) && HierConsistent(s) && PairsConsistent(s)
  }

  lemma DroppedConsistent(s: State, tools: seq<Tool>)
    requires Consistent(s) && GetSimPaths !in tools && BuildHierarchy !in tools
    ensures Consistent(Dropped(s, tools))
  {
    var t := Dropped(s, tools);
    assert forall k | k !in tools :: (k in t.cache <==> k in s.cache) && (k in t.prov <==> k in s.prov);
    assert forall k | k in tools :: k !in t.cache && k !in t.prov;
  }

  lemma StoredPair(s: State, tool: Tool, result: Result, prov: Prov, begun: Begun)
    requires Consistent(s) && Paired(tool) && OfKind(tool, result, prov)
    ensures Consistent(Stored(s, tool, result, prov, begun))
  {
    var t := Stored(s, tool, result, prov, begun);
    assert t.cache == s.cache[tool := result] && t.prov == s.prov[tool := prov];
  }

  lemma DiscoveryConsistent(s: State, paths: SimPaths, now: Fingerprint, onDisk: string -> string)
    requires Consistent(s)
    ensures Consistent(AfterDiscovery(s, paths, now, onDisk))
  {
    DroppedConsistent(s, Downstream(GetSimPaths));
    var t := Dropped(s, Downstream(GetSimPaths));
    var u := Dropped(t, [BuildHierarchy]).(hierState := None, handles := map[]);
    assert forall k | k != BuildHierarchy :: (k in u.cache <==> k in t.cache) && (k in u.prov <==> k in t.prov);
    assert BuildHierarchy !in u.cache && BuildHierarchy !in u.prov;
    assert Consistent(u);
  }

  lemma SimPathsConsistent(s: State, paths: SimPaths, begun: Begun)
    requires Consistent(s)
    ensures Consistent(Stored(s.(simState := Some(AnchorOf(paths))), GetSimPaths, SimResult(paths),
                              SimProv(AnchorOf(paths)), begun))
  {
    var result, prov := SimResult(paths), SimProv(AnchorOf(paths));
    var t := Stored(s.(simState := Some(AnchorOf(paths))), GetSimPaths, result, prov, begun);
    assert t.cache == s.cache[GetSimPaths := result] && t.prov == s.prov[GetSimPaths := prov];
  }

  lemma HierarchyConsistent(s: State, record: HierRecord, handle: string, h: Hierarchy, begun: Begun)
    requires Consistent(s) && WellFormed(HierarchyDone(0, record, handle, h))
    ensures Consistent(Stored(s.(hierState := Some(record), handles := s.handles[handle := h]),
                              BuildHierarchy, HierResult, HierProv(record), begun))
  {
    var t := Stored(s.(hierState := Some(record), handles := s.handles[handle := h]),
                    BuildHierarchy, HierResult, HierProv(record), begun);
    assert t.cache == s.cache[BuildHierarchy := HierResult] && t.prov == s.prov[BuildHierarchy := HierProv(record)];
  }

  /** The gate reaches an absent hierarchy, and a registered handle stands in for it. */
  predicate FillsHierarchy(s: State, steps: seq<Tool>, caller: Caller, req: Request) {
    && s.hierState.None? && HandleServes(s, caller, req)
    && BuildHierarchy in steps && (steps[0] == BuildHierarchy || s.simState.Some?)
  }

  lemma FilledConsistent(s: State, step: Tool, caller: Caller, req: Request, project: Option<string>,
                         onDisk: string -> string)
    requires Consistent(s) && Passes(s, step, caller, req, onDisk) && (step == GetSimPaths || step == BuildHierarchy)
    ensures var t := Filled(s, step, caller, req, project);
      && Consistent(t)
      && (t == s || (&& step == BuildHierarchy && s.hierState.None? && HandleServes(s, caller, req)
                     && t == s.(hierState := Some(RestoredRecord(s, project))) && BareState(t.hierState.value)))
  {
  }

  ghost predicate Gates(steps: seq<Tool>) {
    forall t :: t in steps ==> t == GetSimPaths || t == BuildHierarchy
  }

  /**
    In a consistent session the gate opens exactly when every step is exempt, present, or the
    hierarchy of a registered handle.
   */
  lemma {:induction false} GateOpensIff(s: State, steps: seq<Tool>, caller: Caller, req: Request,
                                        project: Option<string>, onDisk: string -> string)
    requires Consistent(s) && Gates(steps)
    ensures Blocked(s, steps, caller, req, project, onDisk).None? <==>
      forall t | t in steps ::
        Exempt(t, caller, req) || Present(s, t) || (t == BuildHierarchy && HandleServes(s, caller, req))
    decreases |steps|
  {
    if steps != [] && Passes(s, steps[0], caller, req, onDisk) {
      assert steps[0] in steps && forall k | k in steps[1..] :: k in steps;
      FilledConsistent(s, steps[0], caller, req, project, onDisk);
      assert steps == [steps[0]] + steps[1..];
      GateOpensIff(Filled(s, steps[0], caller, req, project), steps[1..], caller, req, project, onDisk);
    }
  }

  lemma FillsFromFirst(s: State, steps: seq<Tool>, caller: Caller, req: Request, project: Option<string>,
                       onDisk: string -> string)
    requires Consistent(s) && Gates(steps) && steps != [] && Passes(s, steps[0], caller, req, onDisk)
    ensures var t := Filled(s, steps[0], caller, req, project);
      && (t == s ==> (FillsHierarchy(s, steps, caller, req) <==> FillsHierarchy(s, steps[1..], caller, req)))
      && (t != s ==>
            && FillsHierarchy(s, steps, caller, req) && t == s.(hierState := Some(RestoredRecord(s, project)))
            && !FillsHierarchy(t, steps[1..], caller, req))
  {
    assert steps[0] in steps;
    FilledConsistent(s, steps[0], caller, req, project, onDisk);
    assert steps == [steps[0]] + steps[1..];
  }

  /** And it changes the session exactly where it reaches an absent hierarchy of that kind. */
  lemma {:induction false} GateFillsIff(s: State, steps: seq<Tool>, caller: Caller, req: Request,
                                        project: Option<string>, onDisk: string -> string)
    requires Consistent(s) && Gates(steps)
    ensures Consistent(Gated(s, steps, caller, req, project, onDisk))
    ensures Gated(s, steps, caller, req, project, onDisk) ==
      if FillsHierarchy(s, steps, caller, req) then s.(hierState := Some(RestoredRecord(s, project))) else s
    decreases |steps|
  {
    if steps != [] && Passes(s, steps[0], caller, req, onDisk) {
      assert steps[0] in steps && forall k | k in steps[1..] :: k in steps;
      FilledConsistent(s, steps[0], caller, req, project, onDisk);
      FillsFromFirst(s, steps, caller, req, project, onDisk);
      GateFillsIff(Filled(s, steps[0], caller, req, project), steps[1..], caller, req, project, onDisk);
    } else if steps != [] {
      BlockedFillsNothing(s, steps, caller, req, onDisk);
    }
  }

  lemma BlockedFillsNothing(s: State, steps: seq<Tool>, caller: Caller, req: Request, onDisk: string -> string)
    requires Gates(steps) && steps != [] && !Passes(s, steps[0], caller, req, onDisk)
    ensures !FillsHierarchy(s, steps, caller, req)
  {
    assert steps[0] in steps;
  }

  /** Every handler keeps results, provenances and session state in agreement. */
  lemma EventKeepsConsistent(s: State, e: Event, onDisk: string -> string)
    requires Consistent(s) && WellFormed(e)
    ensures Consistent(After(s, e, onDisk))
  {
    match e
    case Begin(_) =>
    case SimPathsDone(paths, now) =>
      DiscoveryConsistent(s, paths, now, onDisk);
      SimPathsConsistent(AfterDiscovery(s, paths, now, onDisk), paths, Begun(Some(IdentityOf(paths, onDisk)), s.clock));
    case HierarchyDone(call, record, handle, h) =>
      DroppedConsistent(s, Downstream(BuildHierarchy));
      HierarchyConsistent(Dropped(s, Downstream(BuildHierarchy)), record, handle, h, BegunOf(s, call, onDisk));
    case LogDone(r, p) =>
      DroppedConsistent(s, Downstream(ParseLog));
      StoredPair(Dropped(s, Downstream(ParseLog)), ParseLog, r, p, Now(s, onDisk));
    case ScanDone(call, p) =>
      DroppedConsistent(s, Downstream(ScanRisks));
      StoredPair(Dropped(s, Downstream(ScanRisks)), ScanRisks, ScanResult, p, BegunOf(s, call, onDisk));
    case SweepDone(call, r, p) => StoredPair(s, SweepHandshakes, r, p, BegunOf(s, call, onDisk));
    case RecommendDone(call, p) => StoredPair(s, Recommend, RecResult, p, BegunOf(s, call, onDisk));
    case Gate(steps, caller, req, project) => GateFillsIff(s, steps, caller, req, project, onDisk);
    case _ =>
  }

  /** Every session that the server can reach is consistent. */
  lemma {:induction false} ReachableSession(s: State, events: seq<Event>, onDisk: string -> string)
    requires Consistent(s) && AllWellFormed(events)
    ensures Consistent(AfterAll(s, events, onDisk))
    decreases |events|
  {
    if events != [] {
      assert WellFormed(events[0]);
      EventKeepsConsistent(s, events[0], onDisk);
      ReachableSession(After(s, events[0], onDisk), events[1..], onDisk);
    }
  }

  lemma StartingSession(events: seq<Event>, onDisk: string -> string)
    requires AllWellFormed(events)
    ensures Consistent(AfterAll(EMPTY, events, onDisk))
  {
    ReachableSession(EMPTY, events, onDisk);
  }

  // ---- Hierarchy state without a build ----

  /** The session claims a hierarchy that no build result stands behind. */
  predicate Unbuilt(s: State) {
    s.hierState.Some? && BuildHierarchy !in s.cache
  }

  /** That comes about exactly where the gate reaches an absent hierarchy and a registered handle stands in. */
  lemma UnbuiltIff(s: State, e: Event, onDisk: string -> string)
    requires Consistent(s) && WellFormed(e) && !Unbuilt(s)
    ensures Unbuilt(After(s, e, onDisk)) <==> e.Gate? && FillsHierarchy(s, e.steps, e.caller, e.req)
  {
    match e
    case SimPathsDone(paths, now) =>
      DiscoveryConsistent(s, paths, now, onDisk);
      DiscoveryKeepsBuilt(s, paths, now, onDisk);
    case HierarchyDone(_, _, _, _) => assert Recommend in Downstream(BuildHierarchy);
    case LogDone(_, _) => assert BuildHierarchy !in Downstream(ParseLog);
    case ScanDone(_, _) => assert BuildHierarchy !in Downstream(ScanRisks);
    case Gate(steps, caller, req, project) => GateFillsIff(s, steps, caller, req, project, onDisk);
    case _ =>
  }

  lemma DiscoveryKeepsBuilt(s: State, paths: SimPaths, now: Fingerprint, onDisk: string -> string)
    requires Consistent(s) && !Unbuilt(s)
    ensures !Unbuilt(AfterDiscovery(s, paths, now, onDisk))
  {
    assert BuildHierarchy !in Downstream(GetSimPaths);
  }

  /**
    In a session without any hierarchy the gate is closed to a tool that needs one. Once a
    context has been recovered and a handle tool has named it, the gate is open to all of them,
    though nothing was ever built.
   */
  lemma RecoveredHandleOpensGate(s: State, handle: string, h: Hierarchy, other: Request, project: Option<string>,
                                 onDisk: string -> string)
    requires Consistent(s) && s.hierState.None? && handle != "" && ValidDigest(h.snapshot)
    ensures var needed := [BuildHierarchy];
      var named := Request(handle, None, None, false);
      var t := AfterAll(s, [RecoveryDone(handle, h), Gate(needed, HandleTool, named, project)], onDisk);
      && Blocked(s, needed, OtherTool, other, project, onDisk) == Some(BuildHierarchy)
      && Blocked(t, needed, OtherTool, other, project, onDisk).None?
      && Consistent(t) && Unbuilt(t) && BuildHierarchy !in t.prov && t.hierState.value.compileLog.None?
  {
    var needed, named := [BuildHierarchy], Request(handle, None, None, false);
    var e, f := RecoveryDone(handle, h), Gate(needed, HandleTool, named, project);
    var r := After(s, e, onDisk);
    assert Consistent(r) && RestoredRecord(r, project) == RestoredRecord(s, project);
    GateOpensIff(s, needed, OtherTool, other, project, onDisk);
    GateFillsIff(r, needed, HandleTool, named, project, onDisk);
    var t := After(r, f, onDisk);
    TwoEvents(s, e, f, onDisk);
    GateOpensIff(t, needed, OtherTool, other, project, onDisk);
  }

  lemma TwoEvents(s: State, e: Event, f: Event, onDisk: string -> string)
    ensures AfterAll(s, [e, f], onDisk) == After(After(s, e, onDisk), f, onDisk)
  {
    assert [e, f][1..] == [f] && [f][1..] == [];
    assert AfterAll(After(After(s, e, onDisk), f, onDisk), [], onDisk) == After(After(s, e, onDisk), f, onDisk);
  }

  // ---- Simulation and formal discovery ----

  /** Simulation handlers leave the formal domain alone, formal discovery leaves all else. */
  lemma DomainsIndependent(s: State, e: Event, onDisk: string -> string)
    ensures After(s, e, onDisk).formal != s.formal ==> e.Reset? || e.FormalDone?
    ensures e.FormalDone? ==> After(s, e, onDisk).(formal := s.formal) == s
    ensures e.Reset? ==> After(s, e, onDisk).formal.None?
  {
  }

  // ---- Serving a hierarchy ----

  /**
    Where every registered hierarchy has its snapshot, as in every reachable session, one handed
    out has the fingerprint, computed now, of a log set that the request may stand for.
   */
  method ServeHierarchy(store: SessionStore, log: string, simulator: string, now: Fingerprint)
    returns (found: Option<Hierarchy>, snapshot: string)
    requires AllRecorded(store.handles)
    ensures found.Some? ==> found.value in store.handles.Values && found.value.snapshot == Some(snapshot)
    ensures CurrentFor(snapshot, [store.hierState, HierProvOf(store.Value())], log, simulator, store.onDisk, now)
  {
    var record := if BuildHierarchy in store.prov && store.prov[BuildHierarchy].HierProv?
                  then Some(store.prov[BuildHierarchy].record) else None;
    found, snapshot := Resolve([store.hierState, record], store.handles, log, simulator, store.onDisk, now);
  }
}
