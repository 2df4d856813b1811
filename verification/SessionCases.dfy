/** What tells two cases apart, and what of a session a discovery and the handlers leave. */
module SessionCases {
  import opened Wrappers
  import opened HierarchyContext
  import opened Session

  predicate Unnamed(path: Option<string>) {
    path == None || path == Some("")
  }

  /** Both are named, and name one real path. */
  predicate OneFile(a: Option<string>, b: Option<string>, onDisk: string -> string) {
    !Unnamed(a) && !Unnamed(b) && onDisk(a.value) == onDisk(b.value)
  }

  predicate SamePlace(a: Option<string>, b: Option<string>, onDisk: string -> string) {
    (Unnamed(a) && Unnamed(b)) || OneFile(a, b, onDisk)
  }

  ghost predicate SameLogs(a: seq<CompileLog>, b: seq<CompileLog>, onDisk: string -> string) {
    && |a| == |b|
    && forall i | 0 <= i < |a| ::
         && SamePlace(Some(a[i].path), Some(b[i].path), onDisk)
         && a[i].phase == b[i].phase && a[i].size == b[i].size && a[i].mtime == b[i].mtime
  }

  /** The two discoveries agree in root, case, simulator, and in every compile log as it is on disk. */
  ghost predicate SameCase(p: SimPaths, q: SimPaths, onDisk: string -> string) {
    && SamePlace(p.verifRoot, q.verifRoot, onDisk) && SamePlace(p.caseDir, q.caseDir, onDisk)
    && p.caseName == q.caseName && p.simulator == q.simulator
    && SameLogs(p.compileLogs, q.compileLogs, onDisk)
  }

  lemma IdentityIff(p: SimPaths, q: SimPaths, onDisk: string -> string)
    ensures IdentityOf(p, onDisk) == IdentityOf(q, onDisk) <==> SameCase(p, q, onDisk)
  {
    var a, b := IdentityOf(p, onDisk).logs, IdentityOf(q, onDisk).logs;
    if a == b {
      assert |p.compileLogs| == |a| && |q.compileLogs| == |b|;
      forall i | 0 <= i < |p.compileLogs|
        ensures SameLogs([p.compileLogs[i]], [q.compileLogs[i]], onDisk)
      {
        assert a[i] == b[i];
      }
      assert forall i | 0 <= i < |p.compileLogs| :: [p.compileLogs[i]][0] == p.compileLogs[i];
    }
    if SameLogs(p.compileLogs, q.compileLogs, onDisk) {
      forall i | 0 <= i < |a| ensures a[i] == b[i] {
        assert SamePlace(Some(p.compileLogs[i].path), Some(q.compileLogs[i].path), onDisk);
      }
      assert a == b;
    }
  }

  // ---- The anchor ----

  /** The first log of the elaborate phase. */
  ghost predicate ElaborateAt(logs: seq<CompileLog>, i: nat) {
    i < |logs| && logs[i].phase == "elaborate" && forall j | 0 <= j < i :: logs[j].phase != "elaborate"
  }

  lemma {:induction false} FirstElaborateIs(logs: seq<CompileLog>)
    ensures forall i: nat | ElaborateAt(logs, i) :: FirstElaborate(logs) == Some(logs[i].path)
    ensures (forall i | 0 <= i < |logs| :: logs[i].phase != "elaborate") ==> FirstElaborate(logs) == None
  {
    if logs != [] && logs[0].phase != "elaborate" {
      var rest := logs[1..];
      FirstElaborateIs(rest);
      forall i: nat | ElaborateAt(logs, i) ensures FirstElaborate(logs) == Some(logs[i].path) {
        assert rest[i - 1] == logs[i];
        forall j | 0 <= j < i - 1 ensures rest[j].phase != "elaborate" {
          assert rest[j] == logs[j + 1];
        }
        assert ElaborateAt(rest, i - 1);
      }
      if forall i | 0 <= i < |logs| :: logs[i].phase != "elaborate" {
        assert forall i | 0 <= i < |rest| :: rest[i] == logs[i + 1];
      }
    }
  }

  /** A discovery is remembered by its root, case directory, simulator and elaboration log, else its first log. */
  lemma AnchorIs(p: SimPaths)
    ensures var a := AnchorOf(p);
      && a.verifRoot == p.verifRoot && a.caseDir == p.caseDir && a.simulator == p.simulator
      && (forall i: nat | ElaborateAt(p.compileLogs, i) :: a.compileLog == Some(p.compileLogs[i].path))
      && ((forall i | 0 <= i < |p.compileLogs| :: p.compileLogs[i].phase != "elaborate") ==>
            a.compileLog == if p.compileLogs == [] then None else Some(p.compileLogs[0].path))
  {
    FirstElaborateIs(p.compileLogs);
  }

  // ---- What a discovery leaves ----

  /** A discovery of another case than the cached one leaves nothing but itself. */
  lemma OtherCaseClearsAll(s: State, paths: SimPaths, now: Fingerprint, onDisk: string -> string)
    requires GetSimPaths in s.cache && s.cache[GetSimPaths].SimResult?
    requires !SameCase(s.cache[GetSimPaths].paths, paths, onDisk)
    ensures var t := After(s, SimPathsDone(paths, now), onDisk);
      && t.cache == map[GetSimPaths := SimResult(paths)] && t.prov == map[GetSimPaths := SimProv(AnchorOf(paths))]
      && t.simState == Some(AnchorOf(paths)) && t.hierState == None && t.handles == map[]
  {
    IdentityIff(s.cache[GetSimPaths].paths, paths, onDisk);
  }

  /** The tool's cached result and provenance are as they were. */
  ghost predicate Kept(s: State, t: State, tool: Tool) {
    && (tool in t.cache <==> tool in s.cache) && (tool in t.cache ==> t.cache[tool] == s.cache[tool])
    && (tool in t.prov <==> tool in s.prov) && (tool in t.prov ==> t.prov[tool] == s.prov[tool])
  }

  ghost predicate Gone(t: State, tool: Tool) {
    tool !in t.cache && tool !in t.prov
  }

  /**
    A discovery of the cached case, or beside none that is cached, drops what was computed from
    logs and waveforms. The scan stays, and the hierarchy unless its logs have changed.
   */
  lemma SameCaseKeeps(s: State, paths: SimPaths, now: Fingerprint, onDisk: string -> string)
    requires GetSimPaths in s.cache && s.cache[GetSimPaths].SimResult? ==>
      SameCase(s.cache[GetSimPaths].paths, paths, onDisk)
    ensures var t := After(s, SimPathsDone(paths, now), onDisk);
      && t.cache[GetSimPaths] == SimResult(paths) && t.simState == Some(AnchorOf(paths))
      && Gone(t, ParseLog) && Gone(t, SweepHandshakes) && Gone(t, Recommend)
      && Kept(s, t, ScanRisks) && Kept(s, t, BuildKdb)
      && if HierarchyStands(s, now)
         then Kept(s, t, BuildHierarchy) && t.hierState == s.hierState && t.handles == s.handles
         else Gone(t, BuildHierarchy) && t.hierState == None && t.handles == map[]
  {
    SameCaseTool(s, paths, now, onDisk, ParseLog);
    SameCaseTool(s, paths, now, onDisk, SweepHandshakes);
    SameCaseTool(s, paths, now, onDisk, Recommend);
    SameCaseTool(s, paths, now, onDisk, ScanRisks);
    SameCaseTool(s, paths, now, onDisk, BuildKdb);
    SameCaseTool(s, paths, now, onDisk, BuildHierarchy);
    SameCaseDiscovery(s, paths, now, onDisk);
  }

  predicate HierarchyStands(s: State, now: Fingerprint) {
    s.hierState.None? || SnapshotCurrent(s.hierState, HierProvOf(s), s.handles, now)
  }

  lemma SameCaseDiscovery(s: State, paths: SimPaths, now: Fingerprint, onDisk: string -> string)
    requires GetSimPaths in s.cache && s.cache[GetSimPaths].SimResult? ==>
      SameCase(s.cache[GetSimPaths].paths, paths, onDisk)
    ensures var d := Dropped(s, [ParseLog, SweepHandshakes, Recommend]);
      AfterDiscovery(s, paths, now, onDisk) ==
        if HierarchyStands(s, now) then d
        else Dropped(d, [BuildHierarchy]).(hierState := None, handles := map[])
  {
    if GetSimPaths in s.cache && s.cache[GetSimPaths].SimResult? {
      IdentityIff(s.cache[GetSimPaths].paths, paths, onDisk);
    }
    assert HierProvOf(Dropped(s, Downstream(GetSimPaths))) == HierProvOf(s);
  }

  lemma SameCaseTool(s: State, paths: SimPaths, now: Fingerprint, onDisk: string -> string, tool: Tool)
    requires GetSimPaths in s.cache && s.cache[GetSimPaths].SimResult? ==>
      SameCase(s.cache[GetSimPaths].paths, paths, onDisk)
    requires tool != GetSimPaths
    ensures var t := After(s, SimPathsDone(paths, now), onDisk);
      if tool == ParseLog || tool == SweepHandshakes || tool == Recommend then Gone(t, tool)
      else if tool == BuildHierarchy && !HierarchyStands(s, now) then Gone(t, tool) else Kept(s, t, tool)
  {
    SameCaseDiscovery(s, paths, now, onDisk);
    var d := Dropped(s, [ParseLog, SweepHandshakes, Recommend]);
    var u := AfterDiscovery(s, paths, now, onDisk);
    DroppedIs(s, [ParseLog, SweepHandshakes, Recommend], tool);
    DroppedIs(d, [BuildHierarchy], tool);
    StoredKeeps(u.(simState := Some(AnchorOf(paths))), GetSimPaths, SimResult(paths), SimProv(AnchorOf(paths)),
                Begun(Some(IdentityOf(paths, onDisk)), s.clock), tool);
  }

  lemma DroppedIs(s: State, tools: seq<Tool>, tool: Tool)
    ensures if tool in tools then Gone(Dropped(s, tools), tool) else Kept(s, Dropped(s, tools), tool)
  {
  }

  lemma StoredKeeps(s: State, own: Tool, result: Result, prov: Prov, begun: Begun, tool: Tool)
    requires tool != own
    ensures Kept(s, Stored(s, own, result, prov, begun), tool)
  {
  }

  /** The record names its logs and simulator, and these are as they were when its hierarchy was built. */
  ghost predicate Untouched(r: HierRecord, now: Fingerprint) {
    && !Unnamed(r.compileLog) && !Unnamed(r.simulator) && "" !in r.supplements
    && ValidDigest(r.snapshot) && now(r.compileLog.value, r.simulator.value, r.supplements) == r.snapshot.value
  }

  /** Under the record's handle, or the one its logs give, a hierarchy built from something else is registered. */
  ghost predicate HandleTaken(s: State, r: HierRecord, now: Fingerprint)
    requires r.compileLog.Some? && r.simulator.Some?
  {
    exists handle :: handle in s.handles
      && handle == (if Unnamed(r.handle) then HandleOf(r.compileLog.value, r.simulator.value, r.supplements, now)
                    else r.handle.value)
      && ValidDigest(s.handles[handle].snapshot) && s.handles[handle].snapshot != r.snapshot
  }

  /** In every consistent session the hierarchy survives a discovery of its case exactly so. */
  lemma HierarchyKeptIff(s: State, paths: SimPaths, now: Fingerprint, onDisk: string -> string)
    requires Consistent(s) && s.hierState.Some?
    requires GetSimPaths in s.cache ==> SameCase(s.cache[GetSimPaths].paths, paths, onDisk)
    ensures var t, record := After(s, SimPathsDone(paths, now), onDisk), s.hierState.value;
      if Untouched(record, now) && !HandleTaken(s, record, now)
      then Kept(s, t, BuildHierarchy) && t.hierState == s.hierState && t.handles == s.handles
      else Gone(t, BuildHierarchy) && t.hierState == None && t.handles == map[]
  {
    SameCaseKeeps(s, paths, now, onDisk);
    StandsIff(s, now);
  }

  lemma StandsIff(s: State, now: Fingerprint)
    requires Consistent(s) && s.hierState.Some?
    ensures HierarchyStands(s, now) <==>
      Untouched(s.hierState.value, now) && !HandleTaken(s, s.hierState.value, now)
  {
    assert HierProvOf(s).Some? ==> HierProvOf(s) == s.hierState;
  }

  /**
    A hierarchy just built survives a discovery of its case exactly when its logs, as they are
    then, still have the fingerprint it was built from.
   */
  lemma BuiltHierarchyKeptIff(s: State, call: nat, record: HierRecord, handle: string, h: Hierarchy,
                              paths: SimPaths, now: Fingerprint, onDisk: string -> string)
    requires WellFormed(HierarchyDone(call, record, handle, h)) && handle != ""
    requires !Unnamed(record.compileLog) && !Unnamed(record.simulator) && "" !in record.supplements
    requires GetSimPaths in s.cache && s.cache[GetSimPaths] == SimResult(paths)
    ensures var built := After(s, HierarchyDone(call, record, handle, h), onDisk);
      var t := After(built, SimPathsDone(paths, now), onDisk);
      if now(record.compileLog.value, record.simulator.value, record.supplements) == h.snapshot.value
      then Kept(built, t, BuildHierarchy) && t.hierState == Some(record) && t.handles == s.handles[handle := h]
      else Gone(t, BuildHierarchy) && t.hierState == None && t.handles == map[]
  {
    var built := After(s, HierarchyDone(call, record, handle, h), onDisk);
    assert built.cache[GetSimPaths] == SimResult(paths) by { assert GetSimPaths !in Downstream(BuildHierarchy); }
    IdentityIff(paths, paths, onDisk);
    SameCaseKeeps(built, paths, now, onDisk);
    assert HierProvOf(built) == Some(record) && built.hierState == Some(record);
  }

  /** A new hierarchy, log or scan drops the recommendation and keeps all else; a sweep keeps even that. */
  lemma HandlerKeeps(s: State, e: Event, onDisk: string -> string, tool: Tool)
    requires e.HierarchyDone? || e.LogDone? || e.ScanDone? || e.SweepDone?
    ensures var t := After(s, e, onDisk);
      var own := if e.HierarchyDone? then BuildHierarchy else if e.LogDone? then ParseLog
                 else if e.ScanDone? then ScanRisks else SweepHandshakes;
      && own in t.cache && own in t.prov
      && (tool != own ==> if tool == Recommend && !e.SweepDone? then Gone(t, tool) else Kept(s, t, tool))
  {
  }
}
