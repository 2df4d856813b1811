/** What the auditor shows and asks for, by what the session recorded and what the files are now. */
module AuditorSections {
  import opened Wrappers
  import opened HierarchyContext
  import opened Session
  import opened SessionCases
  import opened Auditor
  import SweepRetry

  /** A discovery is cached, and the caller's target names the same case directory and root, as far as it names any. */
  ghost predicate Discovered(s: State, t: Target, env: Env) {
    && GetSimPaths in s.cache && s.cache[GetSimPaths].SimResult?
    && var p := s.cache[GetSimPaths].paths;
    (Unnamed(t.caseDir) || OneFile(t.caseDir, p.caseDir, env.onDisk)) && (Unnamed(t.root) || OneFile(t.root, p.verifRoot, env.onDisk))
  }

  /** The session knows a case, and no cached discovery says that the target is another. */
  ghost predicate Known(s: State, t: Target, env: Env) {
    s.simState.Some? && (GetSimPaths in s.cache ==> Discovered(s, t, env))
  }

  function LogsFound(s: State): seq<string> {
    if GetSimPaths in s.cache && s.cache[GetSimPaths].SimResult? then s.cache[GetSimPaths].paths.simLogs else []
  }

  function WavesFound(s: State): seq<string> {
    if GetSimPaths in s.cache && s.cache[GetSimPaths].SimResult? then s.cache[GetSimPaths].paths.waveFiles else []
  }

  /** No file of this case: none of those found or, when none were, nothing under the case directory. */
  ghost predicate Elsewhere(path: string, found: seq<string>, caseDir: Option<string>, env: Env) {
    || path == ""
    || (found != [] && forall f | f in found :: env.onDisk(f) != env.onDisk(path))
    || (found == [] && (Unnamed(caseDir) || env.onDisk(path) == ""
                        || !env.under(env.onDisk(env.onDisk(path)), env.onDisk(caseDir.value))))
  }

  // ---- When a cached result is stale ----

  /** The cached log was parsed for another simulator, is no log of this case, or was rewritten since. */
  ghost predicate LogStale(s: State, env: Env)
    requires s.simState.Some? && ParseLog in s.prov && s.prov[ParseLog].LogProv?
  {
    var a, prov := s.simState.value, s.prov[ParseLog];
    || a.simulator != Some(prov.simulator)
    || Elsewhere(prov.log, LogsFound(s), a.caseDir, env)
    || env.stat(prov.log) != Some(prov.stat)
  }

  /** The recommendation was made for another simulator, compile log, log or waveform, or its log was rewritten. */
  ghost predicate RecStale(s: State, env: Env)
    requires s.simState.Some? && Recommend in s.prov && s.prov[Recommend].RecProv?
  {
    var a, prov := s.simState.value, s.prov[Recommend];
    || a.simulator != Some(prov.recSimulator)
    || a.compileLog != prov.recCompileLog
    || Elsewhere(prov.recLog, LogsFound(s), a.caseDir, env)
    || Elsewhere(prov.recWave, WavesFound(s), a.caseDir, env)
    || (prov.recStat.Some? && env.stat(prov.recLog) != prov.recStat)
  }

  /** The hierarchy was built from another compile log, or for another simulator. */
  ghost predicate HierStale(s: State)
    requires s.simState.Some? && BuildHierarchy in s.prov && s.prov[BuildHierarchy].HierProv?
  {
    var a, record := s.simState.value, s.prov[BuildHierarchy].record;
    a.compileLog != record.compileLog || a.simulator != record.simulator
  }

  /** The scan was of another compile log, or for another simulator than the discovered one. */
  ghost predicate ScanStale(s: State, env: Env)
    requires s.simState.Some? && ScanRisks in s.prov && s.prov[ScanRisks].ScanProv?
  {
    var a, prov := s.simState.value, s.prov[ScanRisks];
    || !OneFile(prov.compileLog, a.compileLog, env.onDisk)
    || (prov.scanSimulator != "auto" && a.simulator != Some(prov.scanSimulator))
  }

  // ---- What a missing list is made of ----

  lemma MissingIs(v: View, t: Target, env: Env, step: Step)
    ensures step in MissingSteps(v, t, env) <==>
      || step in SimSteps(v, t, env) || step in HierSteps(v, t, env) || step in ScanSteps(v, t, env)
      || step in LogSteps(v, t, env) || step in SweepSteps(v, t, env) || step in RecSteps(v, t, env)
      || step in KdbSteps(v, t, env)
  {
  }

  ghost predicate Asks(missing: seq<Step>, order: nat) {
    exists i :: 0 <= i < |missing| && Order(missing[i]) == order
  }

  lemma AsksAppend(a: seq<Step>, b: seq<Step>, order: nat)
    ensures Asks(a + b, order) <==> Asks(a, order) || Asks(b, order)
  {
    if i :| 0 <= i < |a| && Order(a[i]) == order { assert (a + b)[i] == a[i]; }
    if i :| 0 <= i < |b| && Order(b[i]) == order { assert (a + b)[|a| + i] == b[i]; }
  }

  lemma OneAsks(steps: seq<Step>, own: nat, order: nat)
    requires AtMostOne(steps, own)
    ensures Asks(steps, order) <==> steps != [] && own == order
  {
    if steps != [] { assert Order(steps[0]) == own; }
  }

  lemma ArrangedAsks(v: View, t: Target, env: Env, order: nat)
    ensures Asks(MissingSteps(v, t, env), order) <==>
      || (SimSteps(v, t, env) != [] && order == 0) || (HierSteps(v, t, env) != [] && order == 1)
      || (ScanSteps(v, t, env) != [] && order == 2) || (LogSteps(v, t, env) != [] && order == 3)
      || (SweepSteps(v, t, env) != [] && order == 4) || (RecSteps(v, t, env) != [] && order == 5)
      || (KdbSteps(v, t, env) != [] && order == 99)
  {
    var a, b, c := SimSteps(v, t, env), HierSteps(v, t, env), ScanSteps(v, t, env);
    var d, e, f, g := LogSteps(v, t, env), SweepSteps(v, t, env), RecSteps(v, t, env), KdbSteps(v, t, env);
    OneAsks(a, 0, order); OneAsks(b, 1, order); OneAsks(c, 2, order); OneAsks(d, 3, order);
    OneAsks(e, 4, order); OneAsks(f, 5, order); OneAsks(g, 99, order);
    var first := if Prioritized(v, t, env) then c + a + b else a + b + c;
    AsksAppend(a, b, order); AsksAppend(a + b, c, order);
    AsksAppend(c, a, order); AsksAppend(c + a, b, order);
    AsksAppend(first, d, order); AsksAppend(first + d, e, order);
    AsksAppend(first + d + e, f, order); AsksAppend(first + d + e + f, g, order);
  }

  /** Each tool is asked for exactly when its own section asks for it. */
  lemma AsksIs(v: View, t: Target, env: Env)
    ensures var missing := MissingSteps(v, t, env);
      && (Asks(missing, 0) <==> NeedsSim(v, t, env)) && (Asks(missing, 1) <==> NeedsHier(v, t, env))
      && (Asks(missing, 2) <==> NeedsScan(v, t, env)) && (Asks(missing, 3) <==> NeedsLog(v, t, env))
      && (Asks(missing, 4) <==> NeedsSweep(v, t, env)) && (Asks(missing, 5) <==> NeedsRec(v, t, env))
      && (Asks(missing, 99) <==> NeedsKdb(v, t, env))
  {
    forall order: nat | order <= 99
      ensures Asks(MissingSteps(v, t, env), order) <==>
        || (SimSteps(v, t, env) != [] && order == 0) || (HierSteps(v, t, env) != [] && order == 1)
        || (ScanSteps(v, t, env) != [] && order == 2) || (LogSteps(v, t, env) != [] && order == 3)
        || (SweepSteps(v, t, env) != [] && order == 4) || (RecSteps(v, t, env) != [] && order == 5)
        || (KdbSteps(v, t, env) != [] && order == 99)
    {
      ArrangedAsks(v, t, env, order);
    }
  }

  // ---- The sections ----

  lemma KnownIsNoMismatch(s: State, t: Target, env: Env)
    requires Consistent(s) && s.simState.Some?
    ensures Mismatch(Seen(s), t, env) <==> !Known(s, t, env)
    ensures Seen(s).anchor == s.simState
    ensures SimLogs(Seen(s)) == LogsFound(s) && WaveFiles(Seen(s)) == WavesFound(s)
  {
  }

  /** A cached log is shown as stale, and its parse is asked for, exactly when it is stale; one not cached is asked for. */
  lemma LogAskedIff(s: State, t: Target, env: Env)
    requires Consistent(s) && Known(s, t, env)
    ensures var r := SnapshotOf(Seen(s), t, env);
      && r.log == (if ParseLog in s.cache then Available(LogStale(s, env)) else Unavailable)
      && (Asks(r.missing, 3) <==> ParseLog !in s.cache || LogStale(s, env))
  {
    KnownIsNoMismatch(s, t, env);
    AsksIs(Seen(s), t, env);
    LogIs(s, t, env);
  }

  lemma LogIs(s: State, t: Target, env: Env)
    requires Consistent(s) && Known(s, t, env)
    ensures LogCompatible(Seen(s), t, env) <==> ParseLog in s.cache && !LogStale(s, env)
    ensures ParseLog in s.cache <==> Seen(s).log.Some?
  {
    KnownIsNoMismatch(s, t, env);
  }

  lemma HierIs(s: State, t: Target, env: Env)
    requires Consistent(s) && Known(s, t, env)
    ensures HierCompatible(Seen(s), t, env) <==> BuildHierarchy in s.cache && !HierStale(s)
  {
    KnownIsNoMismatch(s, t, env);
  }

  lemma HierAskedIff(s: State, t: Target, env: Env)
    requires Consistent(s) && Known(s, t, env)
    ensures var r := SnapshotOf(Seen(s), t, env);
      && r.hierarchy == (if BuildHierarchy in s.cache then Available(HierStale(s)) else Unavailable)
      && (Asks(r.missing, 1) <==> BuildHierarchy !in s.cache || HierStale(s))
  {
    KnownIsNoMismatch(s, t, env);
    AsksIs(Seen(s), t, env);
    HierIs(s, t, env);
  }

  lemma ScanIs(s: State, t: Target, env: Env)
    requires Consistent(s) && Known(s, t, env)
    ensures ScanRisks in s.cache ==>
      Seen(s).scan.Some? && (ScanMatches(Seen(s).anchor.value, Seen(s).scan.value, env) <==> !ScanStale(s, env))
    ensures ScanRisks in s.cache <==> Seen(s).scan.Some?
  {
    KnownIsNoMismatch(s, t, env);
  }

  /** A scan is asked for only beside a hierarchy of the case. */
  lemma ScanAskedIff(s: State, t: Target, env: Env)
    requires Consistent(s) && Known(s, t, env)
    ensures var r := SnapshotOf(Seen(s), t, env);
      && r.scan == (if ScanRisks in s.cache then Available(ScanStale(s, env)) else Unavailable)
      && (Asks(r.missing, 2) <==>
            && BuildHierarchy in s.cache && !HierStale(s)
            && (ScanRisks !in s.cache || ScanStale(s, env)))
  {
    KnownIsNoMismatch(s, t, env);
    AsksIs(Seen(s), t, env);
    HierIs(s, t, env);
    ScanIs(s, t, env);
  }

  lemma RecIs(s: State, t: Target, env: Env)
    requires Consistent(s) && Known(s, t, env)
    ensures RecCompatible(Seen(s), t, env) <==> Recommend in s.cache && !RecStale(s, env)
    ensures Recommend in s.cache <==> Seen(s).rec.Some?
  {
    KnownIsNoMismatch(s, t, env);
  }

  /** A recommendation is asked for unless the log of the case is clean. */
  lemma RecAskedIff(s: State, t: Target, env: Env)
    requires Consistent(s) && Known(s, t, env)
    ensures var r := SnapshotOf(Seen(s), t, env);
      && r.rec == (if Recommend in s.cache then Available(RecStale(s, env)) else Unavailable)
      && (Asks(r.missing, 5) <==>
            && !(ParseLog in s.cache && !LogStale(s, env) && s.cache[ParseLog].errors == 0)
            && (Recommend !in s.cache || RecStale(s, env)))
  {
    KnownIsNoMismatch(s, t, env);
    AsksIs(Seen(s), t, env);
    LogIs(s, t, env);
    RecIs(s, t, env);
  }

  /** A sweep is asked for when the log of the case fails and there is a waveform: none yet, or one with a next call. */
  lemma SweepAskedIff(s: State, t: Target, env: Env)
    requires Consistent(s) && Known(s, t, env)
    ensures var r := SnapshotOf(Seen(s), t, env);
      && r.sweep == (if SweepHandshakes in s.cache then Available(false) else Unavailable)
      && (Asks(r.missing, 4) <==>
            && WavesFound(s) != []
            && ParseLog in s.cache && !LogStale(s, env) && s.cache[ParseLog].errors > 0
            && (SweepHandshakes in s.cache ==>
                  var sweep := s.cache[SweepHandshakes].sweep;
                  !sweep.coverage.Complete? && SweepRetry.NextCall(Some(sweep.wavePath), Some(sweep), env.onDisk).Some?))
  {
    KnownIsNoMismatch(s, t, env);
    AsksIs(Seen(s), t, env);
    LogIs(s, t, env);
  }

  lemma DiscoveryIs(s: State, t: Target, env: Env)
    requires Consistent(s)
    ensures SimNow(Seen(s), t, env).Some? <==> Discovered(s, t, env)
    ensures Discovered(s, t, env) ==> Seen(s).sim == Some(s.cache[GetSimPaths].paths)
  {
  }

  /** The discovery is asked for unless it is cached and of the target. */
  lemma DiscoveryAskedIff(s: State, t: Target, env: Env)
    requires Consistent(s)
    ensures var r := SnapshotOf(Seen(s), t, env);
      && r.sim == (if Discovered(s, t, env) then Available(false) else Unavailable)
      && (Asks(r.missing, 0) <==> !Discovered(s, t, env))
  {
    AsksIs(Seen(s), t, env);
    DiscoveryIs(s, t, env);
  }

  /** The KDB is asked for where automatic building is on and the first compile log of an Xcelium case has none. */
  lemma KdbAskedIff(s: State, t: Target, env: Env)
    requires Consistent(s)
    ensures Asks(SnapshotOf(Seen(s), t, env).missing, 99) <==>
      && env.autoKdb && Discovered(s, t, env) && s.cache[GetSimPaths].paths.simulator == Some("xcelium")
      && s.cache[GetSimPaths].paths.compileLogs != [] && s.cache[GetSimPaths].paths.compileLogs[0].path != ""
      && env.probe(s.cache[GetSimPaths].paths.compileLogs[0].path) == Some(false)
  {
    AsksIs(Seen(s), t, env);
    DiscoveryIs(s, t, env);
  }

  /** Of a session whose cached discovery is another case's nothing is shown, and only the discovery is asked for. */
  lemma OtherTargetSeesNothing(s: State, t: Target, env: Env)
    requires Consistent(s) && GetSimPaths in s.cache && !Discovered(s, t, env)
    ensures SnapshotOf(Seen(s), t, env) ==
      Snapshot(Unavailable, Unavailable, Unavailable, Unavailable, Unavailable, Unavailable,
               [SimStep(if Unnamed(t.root) then None else t.root)])
  {
    var v := Seen(s);
    assert Mismatch(v, t, env);
    assert SimSteps(v, t, env) == [SimStep(Truthy(t.root))];
  }

  // ---- The arguments ----

  function Named(path: Option<string>): Option<string> {
    if Unnamed(path) then None else path
  }

  /** Logs and a simulator to parse them with are known. */
  ghost predicate HasLog(s: State)
    requires s.simState.Some?
  {
    !Unnamed(s.simState.value.simulator) && LogsFound(s) != []
  }

  /** All that a recommendation takes is known. */
  ghost predicate HasAll(s: State)
    requires s.simState.Some?
  {
    HasLog(s) && !Unnamed(s.simState.value.compileLog) && WavesFound(s) != [] && s.hierState.Some?
  }

  /** The step carries what the discovery found, as far as that is enough for the call. */
  ghost predicate Arguments(s: State, t: Target, env: Env, step: Step)
    requires s.simState.Some?
  {
    var a := s.simState.value;
    match step
    case SimStep(root) => root == Named(t.root)
    case HierStep(log, simulator) =>
      log == Named(a.compileLog) && simulator == (if Unnamed(a.compileLog) then None else Named(a.simulator))
    case ScanStep(log, simulator) =>
      log == (if Unnamed(a.simulator) then None else Named(a.compileLog))
      && simulator == (if Unnamed(a.compileLog) then None else Named(a.simulator))
    case LogStep(log, simulator) =>
      if HasLog(s) then log == Some(LogsFound(s)[0]) && simulator == a.simulator else log == None && simulator == None
    case RecStep(log, wave, simulator, compileLog) =>
      if HasAll(s)
      then log == Some(LogsFound(s)[0]) && wave == Some(WavesFound(s)[0]) && simulator == a.simulator
           && compileLog == Named(s.hierState.value.compileLog)
      else log == None && wave == None && simulator == None && compileLog == None
    case KdbStep(log) =>
      && Discovered(s, t, env) && s.cache[GetSimPaths].paths.compileLogs != []
      && log == s.cache[GetSimPaths].paths.compileLogs[0].path
    case SweepStep(call) =>
      if SweepHandshakes in s.cache && s.cache[SweepHandshakes].SweepResult?
      then Some(call) == SweepRetry.NextCall(Some(s.cache[SweepHandshakes].sweep.wavePath),
                                             Some(s.cache[SweepHandshakes].sweep), env.onDisk)
      else WavesFound(s) != [] && call == SweepRetry.SweepAll(WavesFound(s)[0], SweepRetry.Absent)
  }

  lemma EarlyArguments(s: State, t: Target, env: Env, step: Step)
    requires Consistent(s) && Known(s, t, env)
    requires step in SimSteps(Seen(s), t, env) || step in HierSteps(Seen(s), t, env)
          || step in ScanSteps(Seen(s), t, env) || step in LogSteps(Seen(s), t, env)
    ensures Arguments(s, t, env, step)
  {
    KnownIsNoMismatch(s, t, env);
  }

  lemma RecArguments(s: State, t: Target, env: Env, step: Step)
    requires Consistent(s) && Known(s, t, env) && step in RecSteps(Seen(s), t, env)
    ensures Arguments(s, t, env, step)
  {
    KnownIsNoMismatch(s, t, env);
  }

  lemma SweepArguments(s: State, t: Target, env: Env, step: Step)
    requires Consistent(s) && Known(s, t, env)
    requires step in SweepSteps(Seen(s), t, env) || step in KdbSteps(Seen(s), t, env)
    ensures Arguments(s, t, env, step)
  {
    KnownIsNoMismatch(s, t, env);
  }

  /** Every step that is asked for carries what the discovery found. */
  lemma AskedArguments(s: State, t: Target, env: Env, step: Step)
    requires Consistent(s) && Known(s, t, env) && step in SnapshotOf(Seen(s), t, env).missing
    ensures Arguments(s, t, env, step)
  {
    MissingIs(Seen(s), t, env, step);
    if step in RecSteps(Seen(s), t, env) {
      RecArguments(s, t, env, step);
    } else if step in SweepSteps(Seen(s), t, env) || step in KdbSteps(Seen(s), t, env) {
      SweepArguments(s, t, env, step);
    } else {
      EarlyArguments(s, t, env, step);
    }
  }
}
