/** When cached results were computed, and under which case: what holds over whole histories. */
module SessionHistory {
  import opened Wrappers
  import opened HierarchyContext
  import opened Session

  // ---- The order of cached results ----

  /** A result of `b` is computed from one of `a`. */
  predicate Dependent(a: Tool, b: Tool) {
    match b
    case Recommend => a == GetSimPaths || a == BuildHierarchy || a == ParseLog || a == ScanRisks
    case ParseLog => a == GetSimPaths
    case SweepHandshakes => a == GetSimPaths
    case _ => false
  }

  /** Storing a result drops exactly those computed from it. */
  lemma DependentsAreDownstream(a: Tool, b: Tool)
    ensures Dependent(a, b) <==> b in Downstream(a)
  {
  }

  /** A cached result was stored after every cached result that it depends on. */
  ghost predicate Fresh(s: State) {
    && s.marks.Keys == s.cache.Keys
    && (forall t | t in s.marks :: s.marks[t].begun.at <= s.marks[t].stored < s.clock)
    && (forall c | c in s.pending :: s.pending[c].at <= s.clock)
    && (forall a, b | Dependent(a, b) && a in s.marks && b in s.marks :: s.marks[a].stored < s.marks[b].stored)
  }

  /** Its computation even began after them: it has seen all of them. */
  ghost predicate UpToDate(s: State) {
    forall a, b | Dependent(a, b) && a in s.marks && b in s.marks :: s.marks[a].stored < s.marks[b].begun.at
  }

  /** What a store leaves to be said about a tool's result: when its computation began. */
  ghost predicate SeesAll(s: State, tool: Tool, begun: Begun) {
    forall a | Dependent(a, tool) && a in s.marks :: s.marks[a].stored < begun.at
  }

  /** Nothing cached depends on this tool's result. */
  ghost predicate Unused(s: State, tool: Tool) {
    forall b | Dependent(tool, b) :: b !in s.marks
  }

  lemma StoredFresh(s: State, tool: Tool, result: Result, prov: Prov, begun: Begun)
    requires Fresh(s) && begun.at <= s.clock && Unused(s, tool)
    ensures Fresh(Stored(s, tool, result, prov, begun))
  {
    var t := Stored(s, tool, result, prov, begun);
    assert t.marks == s.marks[tool := Mark(s.clock, begun)];
  }

  lemma StoredUpToDate(s: State, tool: Tool, result: Result, prov: Prov, begun: Begun)
    requires UpToDate(s) && Unused(s, tool)
    ensures UpToDate(Stored(s, tool, result, prov, begun)) <==> SeesAll(s, tool, begun)
  {
    var t := Stored(s, tool, result, prov, begun);
    assert t.marks == s.marks[tool := Mark(s.clock, begun)];
    if UpToDate(t) {
      forall a | Dependent(a, tool) && a in s.marks ensures s.marks[a].stored < begun.at {
        assert a != tool && t.marks[a] == s.marks[a];
      }
    }
  }

  lemma StoredHistory(s: State, tool: Tool, result: Result, prov: Prov, begun: Begun)
    requires Fresh(s) && begun.at <= s.clock && Unused(s, tool)
    ensures Fresh(Stored(s, tool, result, prov, begun))
    ensures UpToDate(s) ==> (UpToDate(Stored(s, tool, result, prov, begun)) <==> SeesAll(s, tool, begun))
  {
    StoredFresh(s, tool, result, prov, begun);
    if UpToDate(s) {
      StoredUpToDate(s, tool, result, prov, begun);
    }
  }

  /** A result that depends on nothing, or was begun just now, has seen all. */
  lemma SeesAllNow(s: State, tool: Tool, begun: Begun)
    requires Fresh(s) && (begun.at == s.clock || tool == BuildHierarchy || tool == ScanRisks)
    ensures SeesAll(s, tool, begun)
  {
  }

  lemma DroppedHistory(s: State, tools: seq<Tool>)
    requires Fresh(s)
    ensures Fresh(Dropped(s, tools)) && (UpToDate(s) ==> UpToDate(Dropped(s, tools)))
    ensures forall t | t in tools :: t !in Dropped(s, tools).marks
    ensures forall t | t !in tools :: t in Dropped(s, tools).marks <==> t in s.marks
  {
  }

  lemma DependentsDropped(s: State, tool: Tool)
    requires Fresh(s)
    ensures var d := Dropped(s, Downstream(tool));
      Fresh(d) && (UpToDate(s) ==> UpToDate(d)) && Unused(d, tool)
  {
    DroppedHistory(s, Downstream(tool));
    forall b | Dependent(tool, b) ensures b !in Dropped(s, Downstream(tool)).marks { DependentsAreDownstream(tool, b); }
  }

  lemma DiscoveryHistory(s: State, paths: SimPaths, now: Fingerprint, onDisk: string -> string)
    requires Fresh(s)
    ensures var t := AfterDiscovery(s, paths, now, onDisk);
      Fresh(t) && (UpToDate(s) ==> UpToDate(t)) && Unused(t, GetSimPaths) && t.clock == s.clock
  {
    DependentsDropped(s, GetSimPaths);
    var d := Dropped(s, Downstream(GetSimPaths));
    var u := Dropped(d, [BuildHierarchy]).(hierState := None, handles := map[]);
    InvalidatedHistory(d);
    var t := AfterDiscovery(s, paths, now, onDisk);
    assert t == Cleared(s) || t == d || t == u;
  }

  lemma InvalidatedHistory(s: State)
    requires Fresh(s) && Unused(s, GetSimPaths)
    ensures var u := Dropped(s, [BuildHierarchy]).(hierState := None, handles := map[]);
      Fresh(u) && (UpToDate(s) ==> UpToDate(u)) && Unused(u, GetSimPaths) && u.clock == s.clock
  {
    DroppedHistory(s, [BuildHierarchy]);
  }

  lemma StoredAfterDrop(s: State, tool: Tool, hierState: Option<HierRecord>, handles: map<string, Hierarchy>,
                        result: Result, prov: Prov, begun: Begun)
    requires Fresh(s) && begun.at <= s.clock && (begun.at == s.clock || tool == BuildHierarchy || tool == ScanRisks)
    ensures var t := Stored(Dropped(s, Downstream(tool)).(hierState := hierState, handles := handles), tool, result,
                            prov, begun);
      Fresh(t) && (UpToDate(s) ==> UpToDate(t))
  {
    var d := Dropped(s, Downstream(tool)).(hierState := hierState, handles := handles);
    DependentsDropped(s, tool);
    SeesAllNow(d, tool, begun);
    StoredHistory(d, tool, result, prov, begun);
  }

  /** The event stores a result whose computation began before a result it depends on was stored. */
  ghost predicate Overtaken(s: State, e: Event, onDisk: string -> string) {
    match e
    case SweepDone(call, _, _) => !SeesAll(s, SweepHandshakes, BegunOf(s, call, onDisk))
    case RecommendDone(call, _) => !SeesAll(s, Recommend, BegunOf(s, call, onDisk))
    case _ => false
  }

  /**
    Every handler keeps cached results in the order of their dependencies, and keeps them up to
    date exactly when it is not overtaken.
   */
  lemma EventKeepsFresh(s: State, e: Event, onDisk: string -> string)
    requires Fresh(s)
    ensures Fresh(After(s, e, onDisk))
    ensures UpToDate(s) ==> (UpToDate(After(s, e, onDisk)) <==> !Overtaken(s, e, onDisk))
  {
    match e
    case SimPathsDone(paths, now) => SimPathsHistory(s, paths, now, onDisk);
    case HierarchyDone(call, record, handle, h) =>
      StoredAfterDrop(s, BuildHierarchy, Some(record), s.handles[handle := h], HierResult, HierProv(record),
                      BegunOf(s, call, onDisk));
    case LogDone(r, p) => StoredAfterDrop(s, ParseLog, s.hierState, s.handles, r, p, Now(s, onDisk));
    case ScanDone(call, p) =>
      StoredAfterDrop(s, ScanRisks, s.hierState, s.handles, ScanResult, p, BegunOf(s, call, onDisk));
    case SweepDone(call, r, p) => StoredHistory(s, SweepHandshakes, r, p, BegunOf(s, call, onDisk));
    case RecommendDone(call, p) => StoredHistory(s, Recommend, RecResult, p, BegunOf(s, call, onDisk));
    case KdbDone(_) =>
    case _ =>
  }

  lemma SimPathsHistory(s: State, paths: SimPaths, now: Fingerprint, onDisk: string -> string)
    requires Fresh(s)
    ensures var t := After(s, SimPathsDone(paths, now), onDisk); Fresh(t) && (UpToDate(s) ==> UpToDate(t))
  {
    DiscoveryHistory(s, paths, now, onDisk);
    var t := AfterDiscovery(s, paths, now, onDisk).(simState := Some(AnchorOf(paths)));
    var begun := Begun(Some(IdentityOf(paths, onDisk)), s.clock);
    SeesAllNow(t, GetSimPaths, begun);
    StoredHistory(t, GetSimPaths, SimResult(paths), SimProv(AnchorOf(paths)), begun);
  }

  ghost predicate SomeOvertaken(s: State, events: seq<Event>, onDisk: string -> string)
    decreases |events|
  {
    events != [] && (Overtaken(s, events[0], onDisk) || SomeOvertaken(After(s, events[0], onDisk), events[1..], onDisk))
  }

  ghost predicate AlwaysUpToDate(s: State, events: seq<Event>, onDisk: string -> string)
    decreases |events|
  {
    UpToDate(s) && (events != [] ==> AlwaysUpToDate(After(s, events[0], onDisk), events[1..], onDisk))
  }

  lemma {:induction false} FreshHistory(s: State, events: seq<Event>, onDisk: string -> string)
    requires Fresh(s)
    ensures Fresh(AfterAll(s, events, onDisk))
    ensures UpToDate(s) ==> (AlwaysUpToDate(s, events, onDisk) <==> !SomeOvertaken(s, events, onDisk))
    decreases |events|
  {
    if events != [] {
      EventKeepsFresh(s, events[0], onDisk);
      FreshHistory(After(s, events[0], onDisk), events[1..], onDisk);
    }
  }

  /**
    Over every history of the server: cached results are in the order of their dependencies, and
    each has seen all it depends on, throughout, exactly when no handler was overtaken.
   */
  lemma ServerHistory(events: seq<Event>, onDisk: string -> string)
    ensures Fresh(AfterAll(EMPTY, events, onDisk))
    ensures AlwaysUpToDate(EMPTY, events, onDisk) <==> !SomeOvertaken(EMPTY, events, onDisk)
  {
    FreshHistory(EMPTY, events, onDisk);
  }

  /** A recommendation that is being made while a log is parsed again is served though it has not seen that log. */
  lemma OvertakenRecommendation(s: State, call: nat, r: Result, logProv: Prov, p: Prov, onDisk: string -> string)
    requires Fresh(s)
    ensures var t := AfterAll(s, [Begin(call), LogDone(r, logProv), RecommendDone(call, p)], onDisk);
      Recommend in t.cache && !UpToDate(t)
  {
    ThreeEvents(s, Begin(call), LogDone(r, logProv), RecommendDone(call, p), onDisk);
    var t := After(After(After(s, Begin(call), onDisk), LogDone(r, logProv), onDisk), RecommendDone(call, p), onDisk);
    assert t.marks[ParseLog].stored == s.clock && t.marks[Recommend].begun.at == s.clock;
    assert Dependent(ParseLog, Recommend);
  }

  // ---- Sweeps and recommendations ----

  /** A cached recommendation is newer than a cached sweep. */
  ghost predicate SweepOlder(s: State) {
    SweepHandshakes in s.marks && Recommend in s.marks ==>
      s.marks[SweepHandshakes].stored < s.marks[Recommend].stored
  }

  lemma DroppedSweep(s: State, tools: seq<Tool>)
    requires SweepOlder(s)
    ensures SweepOlder(Dropped(s, tools))
  {
  }

  /** That lasts exactly until a sweep is stored beside a recommendation, which it does not drop. */
  lemma SweepOlderUntilSwept(s: State, e: Event, onDisk: string -> string)
    requires Fresh(s) && SweepOlder(s)
    ensures SweepOlder(After(s, e, onDisk)) <==> !(e.SweepDone? && Recommend in s.cache)
  {
    match e
    case SimPathsDone(paths, now) =>
      DroppedSweep(s, Downstream(GetSimPaths));
      DroppedSweep(Dropped(s, Downstream(GetSimPaths)), [BuildHierarchy]);
    case HierarchyDone(_, _, _, _) => DroppedSweep(s, Downstream(BuildHierarchy));
    case LogDone(_, _) => DroppedSweep(s, Downstream(ParseLog));
    case ScanDone(_, _) => DroppedSweep(s, Downstream(ScanRisks));
    case _ =>
  }

  // ---- Which case the cached results belong to ----

  /** The computation of this entry began under no known case, or under the given one. */
  ghost predicate Under(s: State, tool: Tool, case_: Option<Identity>)
    requires tool in s.marks
  {
    s.marks[tool].begun.underCase.None? || s.marks[tool].begun.underCase == case_
  }

  /** No cached result was computed under another case than the current one. */
  ghost predicate OneCase(s: State, onDisk: string -> string) {
    forall t | t in s.marks :: Under(s, t, CurrentIdentity(s, onDisk))
  }

  /** The event stores a result that was begun under another case. */
  ghost predicate Late(s: State, e: Event, onDisk: string -> string) {
    (e.HierarchyDone? || e.ScanDone? || e.SweepDone? || e.RecommendDone?)
    && BegunOf(s, e.call, onDisk).underCase.Some?
    && BegunOf(s, e.call, onDisk).underCase != CurrentIdentity(s, onDisk)
  }

  lemma StoredCase(s: State, tool: Tool, result: Result, prov: Prov, begun: Begun, onDisk: string -> string)
    requires OneCase(s, onDisk) && tool != GetSimPaths
    ensures OneCase(Stored(s, tool, result, prov, begun), onDisk) <==>
      begun.underCase.None? || begun.underCase == CurrentIdentity(s, onDisk)
  {
    var t := Stored(s, tool, result, prov, begun);
    assert CurrentIdentity(t, onDisk) == CurrentIdentity(s, onDisk);
    assert t.marks == s.marks[tool := Mark(s.clock, begun)];
    assert tool in t.marks;
  }

  lemma DroppedCase(s: State, tools: seq<Tool>, onDisk: string -> string)
    requires OneCase(s, onDisk) && GetSimPaths !in tools
    ensures OneCase(Dropped(s, tools), onDisk)
    ensures CurrentIdentity(Dropped(s, tools), onDisk) == CurrentIdentity(s, onDisk)
  {
  }

  lemma OtherEventOneCase(s: State, e: Event, onDisk: string -> string)
    requires OneCase(s, onDisk) && !e.SimPathsDone? && e != KdbDone(true)
    ensures OneCase(After(s, e, onDisk), onDisk) <==> !Late(s, e, onDisk)
  {
    match e
    case HierarchyDone(call, record, handle, h) =>
      DroppedCase(s, Downstream(BuildHierarchy), onDisk);
      var t := Dropped(s, Downstream(BuildHierarchy)).(hierState := Some(record), handles := s.handles[handle := h]);
      assert CurrentIdentity(t, onDisk) == CurrentIdentity(s, onDisk);
      StoredCase(t, BuildHierarchy, HierResult, HierProv(record), BegunOf(s, call, onDisk), onDisk);
    case LogDone(r, p) =>
      DroppedCase(s, Downstream(ParseLog), onDisk);
      StoredCase(Dropped(s, Downstream(ParseLog)), ParseLog, r, p, Now(s, onDisk), onDisk);
    case ScanDone(call, p) =>
      DroppedCase(s, Downstream(ScanRisks), onDisk);
      StoredCase(Dropped(s, Downstream(ScanRisks)), ScanRisks, ScanResult, p, BegunOf(s, call, onDisk), onDisk);
    case SweepDone(call, r, p) => StoredCase(s, SweepHandshakes, r, p, BegunOf(s, call, onDisk), onDisk);
    case RecommendDone(call, p) => StoredCase(s, Recommend, RecResult, p, BegunOf(s, call, onDisk), onDisk);
    case _ =>
  }

  /** The entries a discovery leaves in place. */
  predicate Survives(s: State, tool: Tool, now: Fingerprint) {
    && tool in s.marks && (tool == BuildHierarchy || tool == ScanRisks || tool == BuildKdb)
    && (tool == BuildHierarchy && s.hierState.Some? ==> SnapshotCurrent(s.hierState, HierProvOf(s), s.handles, now))
  }

  ghost predicate SameCase(s: State, paths: SimPaths, onDisk: string -> string) {
    CurrentIdentity(s, onDisk).None? || CurrentIdentity(s, onDisk) == Some(IdentityOf(paths, onDisk))
  }

  lemma DownstreamMarks(s: State)
    ensures var d := Dropped(s, Downstream(GetSimPaths));
      && (forall k :: k in d.marks <==> k in s.marks && k != ParseLog && k != SweepHandshakes && k != Recommend)
      && (forall k | k in d.marks :: d.marks[k] == s.marks[k])
      && HierProvOf(d) == HierProvOf(s)
  {
    assert Downstream(GetSimPaths) == [ParseLog, SweepHandshakes, Recommend];
  }

  lemma DiscoveryMarks(s: State, k: Tool, paths: SimPaths, now: Fingerprint, onDisk: string -> string)
    requires k != GetSimPaths
    ensures var t := AfterDiscovery(s, paths, now, onDisk);
      && (k in t.marks <==> SameCase(s, paths, onDisk) && Survives(s, k, now))
      && (k in t.marks ==> t.marks[k] == s.marks[k])
  {
    DownstreamMarks(s);
    var d := Dropped(s, Downstream(GetSimPaths));
    var u := Dropped(d, [BuildHierarchy]);
    assert k in u.marks <==> k in d.marks && k != BuildHierarchy;
    assert k in u.marks ==> u.marks[k] == d.marks[k];
  }

  /**
    A discovery leaves the results of one case exactly when it met a cached discovery of
    another case, and cleared everything, or no survivor was computed under another case.
   */
  lemma DiscoveryOneCase(s: State, paths: SimPaths, now: Fingerprint, onDisk: string -> string)
    ensures OneCase(After(s, SimPathsDone(paths, now), onDisk), onDisk) <==>
      (SameCase(s, paths, onDisk) ==>
         forall k | Survives(s, k, now) :: Under(s, k, Some(IdentityOf(paths, onDisk))))
  {
    var d := AfterDiscovery(s, paths, now, onDisk);
    var t := After(s, SimPathsDone(paths, now), onDisk);
    var identity := Some(IdentityOf(paths, onDisk));
    assert CurrentIdentity(t, onDisk) == identity;
    assert t.marks == d.marks[GetSimPaths := Mark(s.clock, Begun(identity, s.clock))];
    forall k | k != GetSimPaths
      ensures k in t.marks <==> SameCase(s, paths, onDisk) && Survives(s, k, now)
      ensures k in t.marks ==> t.marks[k] == s.marks[k]
    {
      DiscoveryMarks(s, k, paths, now, onDisk);
    }
  }

  /** Either a discovery is cached, or no entry was computed under any case. */
  ghost predicate CaseKnown(s: State) {
    || (GetSimPaths in s.cache && s.cache[GetSimPaths].SimResult?)
    || forall t | t in s.marks :: s.marks[t].begun.underCase.None?
  }

  lemma EventKeepsCaseKnown(s: State, e: Event, onDisk: string -> string)
    requires CaseKnown(s) && OneCase(s, onDisk) && e != KdbDone(true) && !Late(s, e, onDisk)
    ensures CaseKnown(After(s, e, onDisk))
  {
    match e
    case HierarchyDone(_, _, _, _) => assert GetSimPaths !in Downstream(BuildHierarchy);
    case LogDone(_, _) => assert GetSimPaths !in Downstream(ParseLog);
    case ScanDone(_, _) => assert GetSimPaths !in Downstream(ScanRisks);
    case _ =>
  }

  ghost predicate SomeLate(s: State, events: seq<Event>, onDisk: string -> string)
    decreases |events|
  {
    events != [] && (Late(s, events[0], onDisk) || SomeLate(After(s, events[0], onDisk), events[1..], onDisk))
  }

  ghost predicate AlwaysOneCase(s: State, events: seq<Event>, onDisk: string -> string)
    decreases |events|
  {
    OneCase(s, onDisk) && (events != [] ==> AlwaysOneCase(After(s, events[0], onDisk), events[1..], onDisk))
  }

  lemma {:induction false} OneCaseHistory(s: State, events: seq<Event>, onDisk: string -> string)
    requires OneCase(s, onDisk) && CaseKnown(s) && KdbDone(true) !in events
    ensures AlwaysOneCase(s, events, onDisk) <==> !SomeLate(s, events, onDisk)
    decreases |events|
  {
    if events != [] {
      var e := events[0];
      if e.SimPathsDone? {
        DiscoveryOneCase(s, e.paths, e.now, onDisk);
      } else {
        OtherEventOneCase(s, e, onDisk);
      }
      if !Late(s, e, onDisk) {
        EventKeepsCaseKnown(s, e, onDisk);
        OneCaseHistory(After(s, e, onDisk), events[1..], onDisk);
      }
    }
  }

  /**
    Over every history of the server without a successful `build_kdb`: all cached results were
    computed under the current case, or under none, throughout, exactly when no handler stored
    a result that it had begun under another case.
   */
  lemma NoKdbOneCase(events: seq<Event>, onDisk: string -> string)
    requires KdbDone(true) !in events
    ensures AlwaysOneCase(EMPTY, events, onDisk) <==> !SomeLate(EMPTY, events, onDisk)
  {
    OneCaseHistory(EMPTY, events, onDisk);
  }

  /** A sweep begun under one case and stored after the discovery of another is served under that other. */
  lemma LateSweepMixesCases(s: State, call: nat, paths: SimPaths, now: Fingerprint, r: Result, p: Prov,
                            onDisk: string -> string)
    requires CurrentIdentity(s, onDisk).Some? && CurrentIdentity(s, onDisk).value != IdentityOf(paths, onDisk)
    ensures var t := AfterAll(s, [Begin(call), SimPathsDone(paths, now), SweepDone(call, r, p)], onDisk);
      SweepHandshakes in t.cache && t.cache[SweepHandshakes] == r && !OneCase(t, onDisk)
  {
    var e, f, g := Begin(call), SimPathsDone(paths, now), SweepDone(call, r, p);
    var begun := After(s, e, onDisk);
    var found := After(begun, f, onDisk);
    ThreeEvents(s, e, f, g, onDisk);
    assert found.pending == begun.pending && begun.pending[call].underCase == CurrentIdentity(s, onDisk);
    var t := After(found, g, onDisk);
    assert CurrentIdentity(t, onDisk) == Some(IdentityOf(paths, onDisk));
    assert SweepHandshakes in t.marks && !Under(t, SweepHandshakes, CurrentIdentity(t, onDisk));
  }

  lemma ThreeEvents(s: State, e: Event, f: Event, g: Event, onDisk: string -> string)
    ensures AfterAll(s, [e, f, g], onDisk) == After(After(After(s, e, onDisk), f, onDisk), g, onDisk)
  {
    assert [e, f, g][1..] == [f, g];
    TwoEvents(After(s, e, onDisk), f, g, onDisk);
  }

  /**
    With a successful `build_kdb`, a scan of the old case is served under the next: the discovery
    of another case drops the scan, unless the build came in between.
   */
  lemma ScanOutlivesItsCase(s: State, paths: SimPaths, now: Fingerprint, onDisk: string -> string)
    requires CurrentIdentity(s, onDisk).Some? && CurrentIdentity(s, onDisk).value != IdentityOf(paths, onDisk)
    requires ScanRisks in s.cache && ScanRisks in s.marks
    requires s.marks[ScanRisks].begun.underCase == CurrentIdentity(s, onDisk)
    ensures ScanRisks !in After(s, SimPathsDone(paths, now), onDisk).cache
    ensures var t := AfterAll(s, [KdbDone(true), SimPathsDone(paths, now)], onDisk);
      ScanRisks in t.cache && t.cache[ScanRisks] == s.cache[ScanRisks] && !OneCase(t, onDisk)
  {
    OtherCaseDropsAll(s, paths, now, onDisk);
    var k := After(s, KdbDone(true), onDisk);
    TwoEvents(s, KdbDone(true), SimPathsDone(paths, now), onDisk);
    assert k.marks[ScanRisks] == s.marks[ScanRisks] && k.cache[ScanRisks] == s.cache[ScanRisks];
    ScanMixesCases(k, paths, now, onDisk);
    ScanKept(k, paths, now, onDisk);
  }

  lemma OtherCaseDropsAll(s: State, paths: SimPaths, now: Fingerprint, onDisk: string -> string)
    requires CurrentIdentity(s, onDisk).Some? && CurrentIdentity(s, onDisk).value != IdentityOf(paths, onDisk)
    ensures After(s, SimPathsDone(paths, now), onDisk).cache.Keys == {GetSimPaths}
  {
  }

  lemma ScanMixesCases(s: State, paths: SimPaths, now: Fingerprint, onDisk: string -> string)
    requires CurrentIdentity(s, onDisk).None? && ScanRisks in s.marks
    requires !Under(s, ScanRisks, Some(IdentityOf(paths, onDisk)))
    ensures !OneCase(After(s, SimPathsDone(paths, now), onDisk), onDisk)
  {
    assert Survives(s, ScanRisks, now);
    DiscoveryOneCase(s, paths, now, onDisk);
  }

  lemma ScanKept(s: State, paths: SimPaths, now: Fingerprint, onDisk: string -> string)
    requires CurrentIdentity(s, onDisk).None? && ScanRisks in s.cache
    ensures var t := After(s, SimPathsDone(paths, now), onDisk);
      ScanRisks in t.cache && t.cache[ScanRisks] == s.cache[ScanRisks]
  {
    var d := Dropped(s, Downstream(GetSimPaths));
    assert ScanRisks !in Downstream(GetSimPaths);
    assert ScanRisks in d.cache && d.cache[ScanRisks] == s.cache[ScanRisks];
    assert Dropped(d, [BuildHierarchy]).cache[ScanRisks] == d.cache[ScanRisks];
  }
}
