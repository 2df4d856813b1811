/** The workflow auditor: what `get_diagnostic_snapshot` asks for next, and where following it leads. */
module Auditor {
  import opened Wrappers
  import opened HierarchyContext
  import opened Session
  import SweepRetry

  /** A cached result with what its provenance says; the provenance may be missing. */
  datatype LogSeen = LogSeen(errors: int, scanFirst: bool, prov: Option<Prov>)

  /** Everything the auditor reads of the session. */
  datatype View = View(
    sim: Option<SimPaths>, anchor: Option<Anchor>, simState: Option<Anchor>, hierState: Option<HierRecord>,
    hier: Option<Option<HierRecord>>, log: Option<LogSeen>, scan: Option<Option<Prov>>,
    sweep: Option<SweepRetry.Sweep>, rec: Option<Option<Prov>>)

  function ProvOf(prov: map<Tool, Prov>, tool: Tool): Option<Prov> {
    if tool in prov then Some(prov[tool]) else None
  }

  function ViewOf(simState: Option<Anchor>, hierState: Option<HierRecord>, cache: map<Tool, Result>,
                  prov: map<Tool, Prov>): View {
    View(
      if GetSimPaths in cache && cache[GetSimPaths].SimResult? then Some(cache[GetSimPaths].paths) else None,
      if GetSimPaths in prov && prov[GetSimPaths].SimProv? then Some(prov[GetSimPaths].anchor) else None,
      simState, hierState,
      if BuildHierarchy in cache
      then Some(if BuildHierarchy in prov && prov[BuildHierarchy].HierProv?
                then Some(prov[BuildHierarchy].record) else None)
      else None,
      if ParseLog in cache && cache[ParseLog].LogResult?
      then Some(LogSeen(cache[ParseLog].errors, cache[ParseLog].scanFirst, ProvOf(prov, ParseLog))) else None,
      if ScanRisks in cache then Some(ProvOf(prov, ScanRisks)) else None,
      if SweepHandshakes in cache && cache[SweepHandshakes].SweepResult?
      then Some(cache[SweepHandshakes].sweep) else None,
      if Recommend in cache then Some(ProvOf(prov, Recommend)) else None)
  }

  ghost function Seen(s: State): View {
    ViewOf(s.simState, s.hierState, s.cache, s.prov)
  }

  /** The target the caller names, if any. */
  datatype Target = Target(root: Option<string>, caseDir: Option<string>)

  /**
    The file system and the environment: real paths, whether one real path lies under
    another, file stats, whether automatic KDB building is on, and the KDB probe of a
    compile log (none when the log does not parse).
   */
  datatype Env = Env(
    onDisk: string -> string, under: (string, string) -> bool, stat: string -> Option<Stat>,
    autoKdb: bool, probe: string -> Option<bool>)

  /** A suggested call; absent arguments are those the auditor could not fill in. */
  datatype Step =
    | SimStep(root: Option<string>)
    | HierStep(log: Option<string>, simulator: Option<string>)
    | ScanStep(log: Option<string>, simulator: Option<string>)
    | LogStep(log: Option<string>, simulator: Option<string>)
    | SweepStep(call: SweepRetry.Action)
    | RecStep(log: Option<string>, wave: Option<string>, simulator: Option<string>, compileLog: Option<string>)
    | KdbStep(compileLogPath: string)

  // ---- Compatibility with the current case ----

  predicate SameReal(a: Option<string>, b: Option<string>, env: Env) {
    Truthy(a).Some? && Truthy(b).Some? && env.onDisk(a.value) == env.onDisk(b.value)
  }

  /** The caller's target is another case than the cached discovery. */
  predicate Mismatch(v: View, t: Target, env: Env) {
    && v.sim.Some?
    && (|| (Truthy(t.caseDir).Some? && !SameReal(t.caseDir, v.sim.value.caseDir, env))
        || (Truthy(t.root).Some? && !SameReal(t.root, v.sim.value.verifRoot, env)))
  }

  function SimNow(v: View, t: Target, env: Env): Option<SimPaths> {
    if Mismatch(v, t, env) then None else v.sim
  }

  function AnchorNow(v: View, t: Target, env: Env): Option<Anchor> {
    if Mismatch(v, t, env) then None else v.anchor
  }

  predicate UnderCaseDir(path: string, caseDir: Option<string>, env: Env) {
    path != "" && Truthy(caseDir).Some? && env.under(env.onDisk(path), env.onDisk(caseDir.value))
  }

  /** `_path_matches_session`. */
  predicate PathMatches(path: Option<string>, candidates: seq<string>, caseDir: Option<string>, env: Env) {
    && Truthy(path).Some?
    && if candidates != [] then exists c | c in candidates :: env.onDisk(c) == env.onDisk(path.value)
       else UnderCaseDir(env.onDisk(path.value), caseDir, env)
  }

  predicate Unchanged(path: Option<string>, expected: Option<Stat>, env: Env) {
    path.None? || expected.None? || env.stat(path.value) == expected
  }

  function SimLogs(v: View): seq<string> {
    if v.sim.Some? then v.sim.value.simLogs else []
  }

  function WaveFiles(v: View): seq<string> {
    if v.sim.Some? then v.sim.value.waveFiles else []
  }

  /** `_matches_anchor`, tool by tool. */
  predicate HierMatches(anchor: Anchor, record: Option<HierRecord>) {
    record.Some? && record.value.compileLog == anchor.compileLog && record.value.simulator == anchor.simulator
  }

  predicate LogMatches(v: View, anchor: Anchor, prov: Option<Prov>, env: Env) {
    && prov.Some? && prov.value.LogProv?
    && anchor.simulator == Some(prov.value.simulator)
    && PathMatches(Some(prov.value.log), SimLogs(v), anchor.caseDir, env)
    && Unchanged(Some(prov.value.log), Some(prov.value.stat), env)
  }

  predicate ScanMatches(anchor: Anchor, prov: Option<Prov>, env: Env) {
    && prov.Some? && prov.value.ScanProv?
    && SameReal(prov.value.compileLog, anchor.compileLog, env)
    && (prov.value.scanSimulator == "auto" || anchor.simulator == Some(prov.value.scanSimulator))
  }

  predicate RecMatches(v: View, anchor: Anchor, prov: Option<Prov>, env: Env) {
    && prov.Some? && prov.value.RecProv?
    && anchor.simulator == Some(prov.value.recSimulator)
    && prov.value.recCompileLog == anchor.compileLog
    && PathMatches(Some(prov.value.recLog), SimLogs(v), anchor.caseDir, env)
    && PathMatches(Some(prov.value.recWave), WaveFiles(v), anchor.caseDir, env)
    && Unchanged(Some(prov.value.recLog), prov.value.recStat, env)
  }

  // ---- What is missing ----

  predicate NeedsSim(v: View, t: Target, env: Env) {
    SimNow(v, t, env).None?
  }

  function FirstCompileLog(p: SimPaths): Option<string> {
    if p.compileLogs == [] then None else Truthy(Some(p.compileLogs[0].path))
  }

  predicate NeedsKdb(v: View, t: Target, env: Env) {
    && env.autoKdb && SimNow(v, t, env).Some?
    && v.sim.value.simulator == Some("xcelium")
    && FirstCompileLog(v.sim.value).Some?
    && env.probe(FirstCompileLog(v.sim.value).value) == Some(false)
  }

  predicate HierCompatible(v: View, t: Target, env: Env) {
    AnchorNow(v, t, env).Some? && v.hier.Some? && HierMatches(v.anchor.value, v.hier.value)
  }

  predicate NeedsHier(v: View, t: Target, env: Env) {
    AnchorNow(v, t, env).Some? && !HierCompatible(v, t, env)
  }

  /** A cached log result of this case, parsed from the file as it still is. */
  predicate LogCompatible(v: View, t: Target, env: Env) {
    AnchorNow(v, t, env).Some? && v.log.Some? && LogMatches(v, v.anchor.value, v.log.value.prov, env)
  }

  predicate NeedsLog(v: View, t: Target, env: Env) {
    AnchorNow(v, t, env).Some? && !LogCompatible(v, t, env)
  }

  predicate NeedsScan(v: View, t: Target, env: Env) {
    HierCompatible(v, t, env) && !(v.scan.Some? && ScanMatches(v.anchor.value, v.scan.value, env))
  }

  predicate Failing(v: View, t: Target, env: Env) {
    LogCompatible(v, t, env) && v.log.value.errors > 0
  }

  predicate CleanRun(v: View, t: Target, env: Env) {
    LogCompatible(v, t, env) && v.log.value.errors == 0
  }

  predicate Prioritized(v: View, t: Target, env: Env) {
    LogCompatible(v, t, env) && v.log.value.scanFirst
  }

  /** The call that would complete the sweep, if any. */
  function SweepCall(v: View, env: Env): Option<SweepRetry.Action> {
    if v.sweep.None? then
      Some(SweepRetry.SweepAll(if WaveFiles(v) != [] then WaveFiles(v)[0] else "", SweepRetry.Absent))
    else if v.sweep.value.coverage.Complete? then None
    else SweepRetry.NextCall(Some(v.sweep.value.wavePath), v.sweep, env.onDisk)
  }

  predicate NeedsSweep(v: View, t: Target, env: Env) {
    && AnchorNow(v, t, env).Some? && SimNow(v, t, env).Some? && WaveFiles(v) != []
    && Failing(v, t, env) && SweepCall(v, env).Some?
  }

  predicate RecCompatible(v: View, t: Target, env: Env) {
    AnchorNow(v, t, env).Some? && v.rec.Some? && RecMatches(v, v.anchor.value, v.rec.value, env)
  }

  predicate NeedsRec(v: View, t: Target, env: Env) {
    AnchorNow(v, t, env).Some? && !CleanRun(v, t, env) && !RecCompatible(v, t, env)
  }

  // ---- The suggested calls ----

  function HierCall(v: View): Step {
    if v.simState.Some? && Truthy(v.simState.value.compileLog).Some?
    then HierStep(v.simState.value.compileLog, Truthy(v.simState.value.simulator))
    else HierStep(None, None)
  }

  function ScanCall(v: View): Step {
    if v.anchor.Some? && Truthy(v.anchor.value.compileLog).Some? && Truthy(v.anchor.value.simulator).Some?
    then ScanStep(v.anchor.value.compileLog, v.anchor.value.simulator)
    else ScanStep(None, None)
  }

  function LogCall(v: View): Step {
    if v.anchor.Some? && Truthy(v.anchor.value.simulator).Some? && SimLogs(v) != [] && v.sim.Some?
    then LogStep(Some(SimLogs(v)[0]),
                 Some(if Truthy(v.sim.value.simulator).Some? then v.sim.value.simulator.value else "auto"))
    else LogStep(None, None)
  }

  function RecCall(v: View): Step {
    if && v.anchor.Some? && Truthy(v.anchor.value.simulator).Some? && Truthy(v.anchor.value.compileLog).Some?
       && v.sim.Some? && SimLogs(v) != [] && WaveFiles(v) != [] && v.hierState.Some?
    then RecStep(Some(SimLogs(v)[0]), Some(WaveFiles(v)[0]), Truthy(v.sim.value.simulator),
                 Truthy(v.hierState.value.compileLog))
    else RecStep(None, None, None, None)
  }

  function KdbCall(v: View): Step {
    KdbStep(if v.sim.Some? && FirstCompileLog(v.sim.value).Some? then FirstCompileLog(v.sim.value).value else "")
  }

  /** The source's `workflow_order`; a tool outside it gets 99. */
  function Order(step: Step): nat {
    match step
    case SimStep(_) => 0
    case HierStep(_, _) => 1
    case ScanStep(_, _) => 2
    case LogStep(_, _) => 3
    case SweepStep(_) => 4
    case RecStep(_, _, _, _) => 5
    case KdbStep(_) => 99
  }

  function If(needed: bool, step: Step): seq<Step> {
    if needed then [step] else []
  }

  ghost predicate AtMostOne(steps: seq<Step>, order: nat) {
    |steps| <= 1 && forall i | 0 <= i < |steps| :: Order(steps[i]) == order
  }

  function SimSteps(v: View, t: Target, env: Env): (r: seq<Step>)
    ensures AtMostOne(r, 0)
  {
    If(NeedsSim(v, t, env), SimStep(Truthy(t.root)))
  }

  function HierSteps(v: View, t: Target, env: Env): (r: seq<Step>)
    ensures AtMostOne(r, 1)
  {
    If(NeedsHier(v, t, env), HierCall(v))
  }

  function ScanSteps(v: View, t: Target, env: Env): (r: seq<Step>)
    ensures AtMostOne(r, 2)
  {
    If(NeedsScan(v, t, env), ScanCall(v))
  }

  function LogSteps(v: View, t: Target, env: Env): (r: seq<Step>)
    ensures AtMostOne(r, 3)
  {
    If(NeedsLog(v, t, env), LogCall(v))
  }

  function SweepSteps(v: View, t: Target, env: Env): (r: seq<Step>)
    ensures AtMostOne(r, 4)
  {
    if NeedsSweep(v, t, env) then [SweepStep(SweepCall(v, env).value)] else []
  }

  function RecSteps(v: View, t: Target, env: Env): (r: seq<Step>)
    ensures AtMostOne(r, 5)
  {
    If(NeedsRec(v, t, env), RecCall(v))
  }

  function KdbSteps(v: View, t: Target, env: Env): (r: seq<Step>)
    ensures AtMostOne(r, 99)
  {
    If(NeedsKdb(v, t, env), KdbCall(v))
  }

  /**
    The missing steps in the order a caller should take them: a scan first when the log
    asks for it, then the workflow order; `build_kdb` is not in that order and comes last.
   */
  function MissingSteps(v: View, t: Target, env: Env): seq<Step> {
    Arranged(SimSteps(v, t, env), HierSteps(v, t, env), ScanSteps(v, t, env), LogSteps(v, t, env),
             SweepSteps(v, t, env), RecSteps(v, t, env), KdbSteps(v, t, env), Prioritized(v, t, env))
  }

  function Arranged(sim: seq<Step>, hier: seq<Step>, scan: seq<Step>, log: seq<Step>,
                    sweep: seq<Step>, rec: seq<Step>, kdb: seq<Step>, scanFirst: bool): seq<Step> {
    if scanFirst then scan + sim + hier + log + sweep + rec + kdb
    else sim + hier + scan + log + sweep + rec + kdb
  }

  // ---- Sorting by workflow order ----

  /** The sort key: the pair (0 for a prioritised scan, else 1; workflow order) as one number. */
  function Key(step: Step, scanFirst: bool): nat {
    (if scanFirst && step.ScanStep? then 0 else 100) + Order(step)
  }

  ghost predicate Ascending(steps: seq<Step>, scanFirst: bool) {
    forall i, j | 0 <= i < j < |steps| :: Key(steps[i], scanFirst) < Key(steps[j], scanFirst)
  }

  /** Stable insertion: after every step of the same or a smaller key. */
  function InsertByKey(steps: seq<Step>, step: Step, scanFirst: bool): seq<Step> {
    if steps == [] || Key(step, scanFirst) < Key(steps[0], scanFirst) then [step] + steps
    else [steps[0]] + InsertByKey(steps[1..], step, scanFirst)
  }

  lemma {:induction false} InsertKeepsAll(steps: seq<Step>, step: Step, scanFirst: bool)
    ensures multiset(InsertByKey(steps, step, scanFirst)) == multiset(steps) + multiset{step}
  {
    if steps != [] && Key(step, scanFirst) >= Key(steps[0], scanFirst) {
      InsertKeepsAll(steps[1..], step, scanFirst);
      assert steps == [steps[0]] + steps[1..];
    }
  }

  lemma TailAscends(steps: seq<Step>, scanFirst: bool)
    requires Ascending(steps, scanFirst) && steps != []
    ensures Ascending(steps[1..], scanFirst)
    ensures forall s | s in multiset(steps[1..]) :: Key(steps[0], scanFirst) < Key(s, scanFirst)
    ensures multiset(steps) == multiset{steps[0]} + multiset(steps[1..])
  {
    var x := steps[1..];
    assert steps == [steps[0]] + x;
    forall i, j | 0 <= i < j < |x| ensures Key(x[i], scanFirst) < Key(x[j], scanFirst) {
      assert x[i] == steps[i + 1] && x[j] == steps[j + 1];
    }
    forall s | s in multiset(x) ensures Key(steps[0], scanFirst) < Key(s, scanFirst) {
      var i :| 0 <= i < |x| && x[i] == s;
      assert s == steps[i + 1];
    }
  }

  lemma ConsAscends(s: Step, rest: seq<Step>, scanFirst: bool)
    requires Ascending(rest, scanFirst)
    requires forall r | r in multiset(rest) :: Key(s, scanFirst) < Key(r, scanFirst)
    ensures Ascending([s] + rest, scanFirst)
  {
    var a := [s] + rest;
    forall i, j | 0 <= i < j < |a| ensures Key(a[i], scanFirst) < Key(a[j], scanFirst) {
      assert a[j] == rest[j - 1] && rest[j - 1] in multiset(rest);
    }
  }

  lemma {:induction false} InsertAscends(steps: seq<Step>, step: Step, scanFirst: bool)
    requires Ascending(steps, scanFirst)
    requires forall s | s in multiset(steps) :: Key(s, scanFirst) != Key(step, scanFirst)
    ensures Ascending(InsertByKey(steps, step, scanFirst), scanFirst)
  {
    if steps == [] {
      ConsAscends(step, steps, scanFirst);
    } else {
      TailAscends(steps, scanFirst);
      if Key(step, scanFirst) < Key(steps[0], scanFirst) {
        ConsAscends(step, steps, scanFirst);
      } else {
        InsertAscends(steps[1..], step, scanFirst);
        InsertKeepsAll(steps[1..], step, scanFirst);
        assert steps[0] in multiset(steps);
        ConsAscends(steps[0], InsertByKey(steps[1..], step, scanFirst), scanFirst);
      }
    }
  }

  lemma SameKey(a: seq<Step>, i: nat, j: nat, scanFirst: bool)
    requires Ascending(a, scanFirst) && i < |a| && j < |a| && Key(a[i], scanFirst) == Key(a[j], scanFirst)
    ensures i == j
  {
  }

  lemma HeadIsLeast(a: seq<Step>, s: Step, scanFirst: bool)
    requires Ascending(a, scanFirst) && s in multiset(a)
    ensures a != [] && Key(a[0], scanFirst) <= Key(s, scanFirst)
  {
    var i :| 0 <= i < |a| && a[i] == s;
  }

  lemma SameHead(a: seq<Step>, b: seq<Step>, scanFirst: bool)
    requires Ascending(a, scanFirst) && Ascending(b, scanFirst) && multiset(a) == multiset(b) && a != []
    ensures b != [] && a[0] == b[0]
  {
    assert a[0] in multiset(b);
    HeadIsLeast(b, a[0], scanFirst);
    assert b[0] in multiset(a);
    HeadIsLeast(a, b[0], scanFirst);
    var i :| 0 <= i < |b| && b[i] == a[0];
    SameKey(b, 0, i, scanFirst);
  }

  lemma Cancel(s: Step, a: multiset<Step>, b: multiset<Step>)
    requires multiset{s} + a == multiset{s} + b
    ensures a == b
  {
    assert a == (multiset{s} + a) - multiset{s};
    assert b == (multiset{s} + b) - multiset{s};
  }

  /** A set of steps with pairwise different keys has one ascending order. */
  lemma {:induction false} AscendingIsUnique(a: seq<Step>, b: seq<Step>, scanFirst: bool)
    requires Ascending(a, scanFirst) && Ascending(b, scanFirst) && multiset(a) == multiset(b)
    ensures a == b
  {
    if a == [] {
      assert |multiset(b)| == 0;
    } else {
      SameHead(a, b, scanFirst);
      TailAscends(a, scanFirst);
      TailAscends(b, scanFirst);
      Cancel(a[0], multiset(a[1..]), multiset(b[1..]));
      AscendingIsUnique(a[1..], b[1..], scanFirst);
      assert a == [a[0]] + a[1..] && b == [b[0]] + b[1..];
    }
  }

  /** Ascending, with keys from `lo` up to but not including `hi`. */
  ghost predicate Within(a: seq<Step>, scanFirst: bool, lo: nat, hi: nat) {
    Ascending(a, scanFirst) && forall i | 0 <= i < |a| :: lo <= Key(a[i], scanFirst) < hi
  }

  lemma Append(a: seq<Step>, b: seq<Step>, scanFirst: bool, mid: nat, hi: nat)
    requires Within(a, scanFirst, 0, mid) && Within(b, scanFirst, mid, hi) && mid <= hi
    ensures Within(a + b, scanFirst, 0, hi)
  {
  }

  lemma OneWithin(steps: seq<Step>, order: nat, first: bool)
    requires AtMostOne(steps, order)
    ensures first && order == 2 ==> Within(steps, first, 2, 3)
    ensures !(first && order == 2) ==> Within(steps, first, 100 + order, 101 + order)
  {
    assert forall s: Step :: s.ScanStep? <==> Order(s) == 2;
  }

  lemma ArrangedAscends(sim: seq<Step>, hier: seq<Step>, scan: seq<Step>, log: seq<Step>,
                        sweep: seq<Step>, rec: seq<Step>, kdb: seq<Step>, first: bool)
    requires AtMostOne(sim, 0) && AtMostOne(hier, 1) && AtMostOne(scan, 2) && AtMostOne(log, 3)
    requires AtMostOne(sweep, 4) && AtMostOne(rec, 5) && AtMostOne(kdb, 99)
    ensures Ascending(Arranged(sim, hier, scan, log, sweep, rec, kdb, first), first)
  {
    OneWithin(sim, 0, first);
    OneWithin(hier, 1, first);
    OneWithin(scan, 2, first);
    if first {
      Append(scan, sim, first, 100, 101);
      Append(scan + sim, hier, first, 101, 102);
      TailAppended(scan + sim + hier, log, sweep, rec, kdb, first);
    } else {
      Append(sim, hier, first, 101, 102);
      Append(sim + hier, scan, first, 102, 103);
      TailAppended(sim + hier + scan, log, sweep, rec, kdb, first);
    }
  }

  lemma TailAppended(a: seq<Step>, log: seq<Step>, sweep: seq<Step>, rec: seq<Step>, kdb: seq<Step>, first: bool)
    requires Within(a, first, 0, 103)
    requires AtMostOne(log, 3) && AtMostOne(sweep, 4) && AtMostOne(rec, 5) && AtMostOne(kdb, 99)
    ensures Ascending(a + log + sweep + rec + kdb, first)
  {
    OneWithin(log, 3, first);
    OneWithin(sweep, 4, first);
    OneWithin(rec, 5, first);
    OneWithin(kdb, 99, first);
    Append(a, log, first, 103, 104);
    Append(a + log, sweep, first, 104, 105);
    Append(a + log + sweep, rec, first, 105, 106);
    Append(a + log + sweep + rec, kdb, first, 106, 200);
  }

  lemma MissingAscending(v: View, t: Target, env: Env)
    ensures Ascending(MissingSteps(v, t, env), Prioritized(v, t, env))
  {
    ArrangedAscends(SimSteps(v, t, env), HierSteps(v, t, env), ScanSteps(v, t, env), LogSteps(v, t, env),
                    SweepSteps(v, t, env), RecSteps(v, t, env), KdbSteps(v, t, env), Prioritized(v, t, env));
  }

  /** The sections are written in another order than the workflow's. */
  lemma Rearranged(sim: seq<Step>, kdb: seq<Step>, hier: seq<Step>, log: seq<Step>, scan: seq<Step>,
                   sweep: seq<Step>, rec: seq<Step>, first: bool)
    ensures multiset(sim + kdb + hier + log + scan + sweep + rec) ==
      multiset(Arranged(sim, hier, scan, log, sweep, rec, kdb, first))
  {
  }

  lemma InsertOneMore(sorted: seq<Step>, steps: seq<Step>, n: nat, scanFirst: bool, expected: seq<Step>)
    requires Ascending(expected, scanFirst) && multiset(steps) == multiset(expected) && n < |steps|
    requires Ascending(sorted, scanFirst) && multiset(sorted) == multiset(steps[..n])
    ensures var r := InsertByKey(sorted, steps[n], scanFirst);
      Ascending(r, scanFirst) && multiset(r) == multiset(steps[..n + 1])
  {
    KeyIsNew(steps, n, scanFirst, expected);
    forall s | s in multiset(sorted) ensures Key(s, scanFirst) != Key(steps[n], scanFirst) {
      assert s in steps[..n];
    }
    InsertKeepsAll(sorted, steps[n], scanFirst);
    InsertAscends(sorted, steps[n], scanFirst);
    assert steps[..n + 1] == steps[..n] + [steps[n]];
  }

  /** Python's stable sort, by insertion. */
  method SortByWorkflow(steps: seq<Step>, scanFirst: bool, ghost expected: seq<Step>) returns (sorted: seq<Step>)
    requires Ascending(expected, scanFirst) && multiset(steps) == multiset(expected)
    ensures sorted == expected
  {
    sorted := [];
    for n := 0 to |steps|
      invariant Ascending(sorted, scanFirst) && multiset(sorted) == multiset(steps[..n])
    {
      InsertOneMore(sorted, steps, n, scanFirst, expected);
      sorted := InsertByKey(sorted, steps[n], scanFirst);
    }
    assert steps[..|steps|] == steps;
    AscendingIsUnique(sorted, expected, scanFirst);
  }

  /** Rearranging steps of pairwise different keys keeps the keys different. */
  lemma KeyIsNew(steps: seq<Step>, n: nat, scanFirst: bool, expected: seq<Step>)
    requires Ascending(expected, scanFirst) && multiset(steps) == multiset(expected) && n < |steps|
    ensures forall s | s in steps[..n] :: Key(s, scanFirst) != Key(steps[n], scanFirst)
  {
    OnlyOnce(expected, steps[n], scanFirst);
    assert steps == steps[..n] + ([steps[n]] + steps[n + 1..]);
    assert multiset(steps) == multiset(steps[..n]) + multiset([steps[n]] + steps[n + 1..]);
    assert steps[n] !in multiset(steps[..n]);
    forall s | s in steps[..n] ensures Key(s, scanFirst) != Key(steps[n], scanFirst) {
      assert s in multiset(steps[..n]);
      assert s in multiset(expected) && steps[n] in multiset(expected);
      var j :| 0 <= j < |expected| && expected[j] == s;
      var k :| 0 <= k < |expected| && expected[k] == steps[n];
      assert j != k;
    }
  }

  lemma {:induction false} OnlyOnce(steps: seq<Step>, s: Step, scanFirst: bool)
    requires Ascending(steps, scanFirst)
    ensures multiset(steps)[s] <= 1
  {
    if steps != [] {
      TailAscends(steps, scanFirst);
      OnlyOnce(steps[1..], s, scanFirst);
    }
  }

  // ---- The snapshot ----

  /** Whether a cached result is shown, and if so whether as stale. */
  datatype Section = Unavailable | Available(stale: bool)

  datatype Snapshot = Snapshot(
    sim: Section, hierarchy: Section, log: Section, scan: Section, sweep: Section, rec: Section, missing: seq<Step>)

  function Shown(cached: bool, stale: bool): Section {
    if cached then Available(stale) else Unavailable
  }

  /** What the auditor shows of the cached results, and what it asks for. */
  function SnapshotOf(v: View, t: Target, env: Env): Snapshot {
    var hidden, known := Mismatch(v, t, env), AnchorNow(v, t, env).Some?;
    Snapshot(
      Shown(SimNow(v, t, env).Some?, false),
      Shown(!hidden && v.hier.Some?, known && !HierCompatible(v, t, env)),
      Shown(!hidden && v.log.Some?, known && !LogCompatible(v, t, env)),
      Shown(!hidden && v.scan.Some?, known && !(v.scan.Some? && ScanMatches(v.anchor.value, v.scan.value, env))),
      Shown(!hidden && v.sweep.Some?, false),
      Shown(!hidden && v.rec.Some?, known && !RecCompatible(v, t, env)),
      MissingSteps(v, t, env))
  }

  /** `_handle_diagnostic_snapshot`: the sections are filled one by one, the missing steps sorted at the end. */
  method DiagnosticSnapshot(store: SessionStore, t: Target, env: Env) returns (r: Snapshot)
    ensures r == SnapshotOf(ViewOf(store.simState, store.hierState, store.cache, store.prov), t, env)
  {
    var v := ViewOf(store.simState, store.hierState, store.cache, store.prov);
    var missing := Audit(v, t, env);
    var sim, anchor, hier, log, scan, sweep, rec := v.sim, v.anchor, v.hier, v.log, v.scan, v.sweep, v.rec;
    if Mismatch(v, t, env) {
      sim, anchor, hier, log, scan, sweep, rec := None, None, None, None, None, None, None;
    }
    r := Snapshot(
      Shown(sim.Some?, false),
      Shown(hier.Some?, anchor.Some? && hier.Some? && !HierMatches(anchor.value, hier.value)),
      Shown(log.Some?, anchor.Some? && log.Some? && !LogMatches(v, anchor.value, log.value.prov, env)),
      Shown(scan.Some?, anchor.Some? && scan.Some? && !ScanMatches(anchor.value, scan.value, env)),
      Shown(sweep.Some?, false),
      Shown(rec.Some?, anchor.Some? && rec.Some? && !RecMatches(v, anchor.value, rec.value, env)),
      missing);
  }

  method Audit(v: View, t: Target, env: Env) returns (missing: seq<Step>)
    ensures missing == MissingSteps(v, t, env)
  {
    var steps, scanFirst := Sections(v, t, env);
    MissingAscending(v, t, env);
    Rearranged(SimSteps(v, t, env), KdbSteps(v, t, env), HierSteps(v, t, env), LogSteps(v, t, env),
               ScanSteps(v, t, env), SweepSteps(v, t, env), RecSteps(v, t, env), scanFirst);
    missing := SortByWorkflow(steps, scanFirst, MissingSteps(v, t, env));
  }

  /** The sections as the source writes them, each appending its step. */
  method Sections(v: View, t: Target, env: Env) returns (steps: seq<Step>, scanFirst: bool)
    ensures steps == SimSteps(v, t, env) + KdbSteps(v, t, env) + HierSteps(v, t, env) + LogSteps(v, t, env)
                     + ScanSteps(v, t, env) + SweepSteps(v, t, env) + RecSteps(v, t, env)
    ensures scanFirst == Prioritized(v, t, env)
  {
    var sim, anchor := v.sim, v.anchor;
    if Mismatch(v, t, env) {
      sim, anchor := None, None;
    }
    steps := [];
    if sim.None? {
      steps := steps + [SimStep(Truthy(t.root))];
    }
    ghost var done := SimSteps(v, t, env);
    assert steps == done;
    if env.autoKdb && sim.Some? && sim.value.simulator == Some("xcelium") && FirstCompileLog(sim.value).Some?
       && env.probe(FirstCompileLog(sim.value).value) == Some(false) {
      steps := steps + [KdbCall(v)];
    }
    done := done + KdbSteps(v, t, env);
    assert steps == done;
    var hierOk := anchor.Some? && v.hier.Some? && HierMatches(anchor.value, v.hier.value);
    if anchor.Some? && !hierOk {
      steps := steps + [HierCall(v)];
    }
    done := done + HierSteps(v, t, env);
    assert steps == done;
    var logOk := anchor.Some? && v.log.Some? && LogMatches(v, anchor.value, v.log.value.prov, env);
    if anchor.Some? && !logOk {
      steps := steps + [LogCall(v)];
    }
    done := done + LogSteps(v, t, env);
    assert steps == done;
    var late := LateSections(v, sim, anchor, hierOk, logOk, t, env);
    Regroup(steps, ScanSteps(v, t, env), SweepSteps(v, t, env), RecSteps(v, t, env));
    steps := steps + late;
    scanFirst := logOk && v.log.value.scanFirst;
  }

  lemma Regroup(a: seq<Step>, b: seq<Step>, c: seq<Step>, d: seq<Step>)
    ensures a + (b + c + d) == a + b + c + d
  {
  }

  /** The sections on the scan, the sweep and the recommendation. */
  method LateSections(v: View, sim: Option<SimPaths>, anchor: Option<Anchor>, hierOk: bool, logOk: bool,
                      t: Target, env: Env) returns (steps: seq<Step>)
    requires sim == SimNow(v, t, env) && anchor == AnchorNow(v, t, env)
    requires hierOk == HierCompatible(v, t, env) && logOk == LogCompatible(v, t, env)
    ensures steps == ScanSteps(v, t, env) + SweepSteps(v, t, env) + RecSteps(v, t, env)
  {
    steps := [];
    if hierOk && !(v.scan.Some? && ScanMatches(anchor.value, v.scan.value, env)) {
      steps := steps + [ScanCall(v)];
    }
    assert steps == ScanSteps(v, t, env);
    var failing := logOk && v.log.value.errors > 0;
    if anchor.Some? && sim.Some? && sim.value.waveFiles != [] && failing && SweepCall(v, env).Some? {
      steps := steps + [SweepStep(SweepCall(v, env).value)];
    }
    assert steps == ScanSteps(v, t, env) + SweepSteps(v, t, env);
    var clean := logOk && v.log.value.errors == 0;
    if anchor.Some? && !clean && !(v.rec.Some? && RecMatches(v, anchor.value, v.rec.value, env)) {
      steps := steps + [RecCall(v)];
    }
  }
}
