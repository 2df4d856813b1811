/**
  Routing one driver or load query: NPI, then one Source Graph artifact grown by a frontier
  loop, then a whole-result Static recomputation. What the backends, plans and artifacts
  answer is an input, indexed by attempt.
 */
module Router {
  import opened Wrappers
  import opened Connectivity

  datatype NpiInput =
    | NpiNotSelected(initFailed: bool, probeReason: Option<string>)
    | NpiCancelled
    | NpiRaised
    | NpiAnswered(answer: Answer, degraded: bool)

  /** What preparing one artifact came to; a dominating artifact may be selected. */
  datatype Prepared = Prepared(ready: bool, timedOut: bool, selectedDigest: Option<string>)

  datatype Query = Query(status: string, gapCodes: set<string>, unresolvedBits: int, coverage: string)

  /** One artifact attempt: prepared, then queried. */
  datatype Execution = Execution(
    outcome: Option<Prepared>, result: Option<Answer>, query: Option<Query>, frontiers: seq<string>, reason: string)

  datatype ExecutionOutcome = ExecutionCancelled | Executed(run: Execution)

  datatype Expansion = ExpansionCancelled | ExpansionFailed | ExpansionBlocked(code: string) | Expanded(digest: string)

  datatype Plan = PlanBlocked(code: string) | PlanReady(digest: string, anchors: seq<string>)

  datatype Config = Config(enabled: bool, valid: bool, errorCode: Option<string>, maxRounds: nat)

  /** The resolved hierarchy context; `bootstrap` when it came from a bounded bootstrap. */
  datatype Context = Context(hierarchy: bool, compileResult: bool, bootstrap: bool, blocker: Option<string>)

  datatype StaticOutcome = StaticRaised | StaticCancelled | StaticAnswered(answer: Answer)

  /** How a stage that has no fallback of its own goes: any failure there leaves the router. */
  datatype Passage = Passed | Broken | Cut

  /**
    `probe` is the backend probe, `lookup` the resolution of the hierarchy context, `planning`
    the first plan; `attachmentCut` says that attaching a driver's dependencies is cancelled.
   */
  datatype Inputs = Inputs(
    op: Operation, probe: Passage, npi: NpiInput, skipsNpiByPolicy: bool,
    allowBootstrap: bool, existingHierarchy: bool,
    config: Config, lookup: Passage, context: Context, planning: Passage, plan: Plan, attachmentCut: bool,
    execute: nat -> ExecutionOutcome, expand: nat -> Expansion,
    staticAnswer: StaticOutcome)

  datatype Receipt = Receipt(
    artifactAttempts: nat, scopeExpansions: nat, queries: nat,
    fingerprints: seq<string>, finalArtifact: Option<string>, fallbackUsed: bool)

  const BLOCKED: Receipt := Receipt(0, 0, 0, [], None, false)

  datatype RouteError = Cancelled | StageFailed | StaticFailed | MixedStatic

  datatype Routed =
    | Raised(error: RouteError)
    | Returned(
        answer: Answer, actual: Backend, attempted: Backend, attempts: seq<Attempt>,
        fallbackReason: Option<string>, receipt: Option<Receipt>, bootstrap: bool)

  // ---- One attempt ----

  const NON_EXPANDABLE: set<string> := {
    "query_depth_limit", "query_state_limit", "query_edge_limit", "query_match_limit",
    "query_frontier_limit", "query_assignment_limit", "query_evidence_limit" }

  const SCOPE_GAPS: set<string> := {"hierarchy_projection_scoped", "ancestor_definition_skeleton_only"}

  ghost predicate ProvenanceOk(run: Execution, op: Operation) {
    run.result.Some? && OnlyTag(run.result.value, op, SourceGraph)
  }

  /** The answer may be improved by projecting more of the hierarchy. */
  predicate WantsExpansion(run: Execution, op: Operation, bootstrap: bool, provenanceOk: bool) {
    && !bootstrap
    && run.frontiers != []
    && run.query.Some?
    && run.query.value.gapCodes * SCOPE_GAPS != {}
    && provenanceOk
    && run.query.value.gapCodes * NON_EXPANDABLE == {}
    && (|| run.query.value.status == "inconclusive"
        || (run.query.value.status == "found" && run.query.value.unresolvedBits > 0)
        || (op.Loads? && run.query.value.coverage != "complete"))
  }

  /** The attempt carries facts that may be returned. */
  predicate Conclusive(run: Execution, bootstrap: bool, provenanceOk: bool) {
    && run.result.Some? && run.query.Some? && provenanceOk
    && (run.query.value.status == "found" || (!bootstrap && run.query.value.status == "not_connected"))
  }

  /** A checked driver answer that decides nothing; kept in case Static has less. */
  function KeptInconclusive(run: Execution, op: Operation, bootstrap: bool, provenanceOk: bool): Option<Answer> {
    if op.Driver? && !bootstrap && provenanceOk && run.query.Some? && run.query.value.status == "inconclusive"
    then run.result else None
  }

  function NewItems(items: seq<string>, known: seq<string>): (r: seq<string>)
    ensures forall x :: x in r <==> x in items && x !in known
  {
    if items == [] then []
    else (if items[0] in known then [] else [items[0]]) + NewItems(items[1..], known)
  }

  // ---- The frontier loop as a sequence of attempts ----

  const NO_RUN: Execution := Execution(None, None, None, [], "")

  ghost function RunAt(inp: Inputs, k: nat): Execution {
    if inp.execute(k).Executed? then inp.execute(k).run else NO_RUN
  }

  /** The accumulated frontier signals before attempt `k`. */
  ghost function KnownBefore(inp: Inputs, k: nat): seq<string> {
    if k == 0 then (if inp.plan.PlanReady? then inp.plan.anchors else [])
    else KnownBefore(inp, k - 1) + NewItems(RunAt(inp, k - 1).frontiers, KnownBefore(inp, k - 1))
  }

  /** The digest attempt `k` asks for. */
  ghost function Requested(inp: Inputs, k: nat): string {
    if k == 0 then (if inp.plan.PlanReady? then inp.plan.digest else "")
    else if inp.expand(k - 1).Expanded? then inp.expand(k - 1).digest else ""
  }

  /** The digest recorded for attempt `k`: the selected artifact's, where one was selected. */
  ghost function Recorded(inp: Inputs, k: nat): string {
    var outcome := RunAt(inp, k).outcome;
    if outcome.Some? && outcome.value.selectedDigest.Some? then outcome.value.selectedDigest.value
    else Requested(inp, k)
  }

  /**
    Attempt `k` was discarded for a projection that names new frontier signals and whose
    digest none of the recorded ones equals.
   */
  ghost predicate Discarded(inp: Inputs, bootstrap: bool, k: nat, fingerprints: seq<string>)
    requires k < |fingerprints|
  {
    && inp.execute(k).Executed?
    && WantsExpansion(RunAt(inp, k), inp.op, bootstrap, ProvenanceOk(RunAt(inp, k), inp.op))
    && NewItems(RunAt(inp, k).frontiers, KnownBefore(inp, k)) != []
    && inp.expand(k).Expanded?
    && fingerprints[k] == Recorded(inp, k)
    && Requested(inp, k + 1) !in fingerprints[..k + 1]
  }

  /** All `n` attempts recorded so far were discarded. */
  ghost predicate Trail(inp: Inputs, bootstrap: bool, n: nat, fingerprints: seq<string>) {
    |fingerprints| == n && forall k: nat | k < n :: Discarded(inp, bootstrap, k, fingerprints)
  }

  /** An answer of mixed provenance is rejected for that reason, whatever the attempt's own was. */
  ghost function AttemptReason(inp: Inputs, k: nat): string {
    if RunAt(inp, k).result.Some? && !ProvenanceOk(RunAt(inp, k), inp.op)
    then "source_graph_mixed_provenance_rejected" else RunAt(inp, k).reason
  }

  /** Why the loop stops at attempt `n`. */
  ghost function StopReason(inp: Inputs, bootstrap: bool, n: nat): string {
    if !WantsExpansion(RunAt(inp, n), inp.op, bootstrap, ProvenanceOk(RunAt(inp, n), inp.op)) then AttemptReason(inp, n)
    else if n == inp.config.maxRounds then "source_graph_frontier_round_limit"
    else if NewItems(RunAt(inp, n).frontiers, KnownBefore(inp, n)) == [] then "source_graph_frontier_expansion_stalled"
    else match inp.expand(n)
      case ExpansionFailed => "source_graph_frontier_adapter_failed"
      case ExpansionBlocked(code) => "source_graph_" + code
      case _ => "source_graph_frontier_expansion_stalled"
  }

  datatype Search = Search(
    last: Execution, receipt: Receipt, artifact: string, reason: string, attempts: seq<Attempt>,
    frontiers: seq<string>, provenanceOk: bool)

  /** The attempts end at attempt `n`, whose answer and receipt are the ones reported. */
  ghost predicate EndsAt(inp: Inputs, bootstrap: bool, s: Search, n: nat) {
    && n <= inp.config.maxRounds
    && s.receipt.scopeExpansions == n
    && s.receipt.artifactAttempts == n + 1 == |s.receipt.fingerprints|
    && Trail(inp, bootstrap, n, s.receipt.fingerprints[..n])
    && inp.execute(n).Executed? && s.last == inp.execute(n).run
    && s.artifact == s.receipt.fingerprints[n] == Recorded(inp, n)
    && s.receipt.queries == QueriesMade(inp, n + 1)
    && s.provenanceOk == ProvenanceOk(s.last, inp.op) && s.reason == StopReason(inp, bootstrap, n)
    && (s.frontiers == KnownBefore(inp, n) || s.frontiers == KnownBefore(inp, n + 1))
    && (n == inp.config.maxRounds || !Discarded(inp, bootstrap, n, s.receipt.fingerprints))
  }

  /** The round limit and a frontier with nothing new end the loop without a log entry. */
  ghost predicate Unlogged(inp: Inputs, bootstrap: bool, n: nat, run: Execution, provenanceOk: bool) {
    && WantsExpansion(run, inp.op, bootstrap, provenanceOk)
    && (n == inp.config.maxRounds || NewItems(run.frontiers, KnownBefore(inp, n)) == [])
  }

  const EXPANSION_ENTRY: Attempt := Attempt(SourceGraph, "inconclusive", Some("source_graph_scope_expansion"))

  /** One log entry per expansion. */
  function ExpansionEntries(n: nat): (r: seq<Attempt>)
    ensures |r| == n && AllSourceGraph(r)
  {
    if n == 0 then [] else ExpansionEntries(n - 1) + [EXPANSION_ENTRY]
  }

  /**
    What the attempt that ends the loop logs: an expansion that failed is logged as one that
    was made; a conclusive attempt is not logged here.
   */
  ghost function StopEntry(inp: Inputs, bootstrap: bool, n: nat): (r: seq<Attempt>)
    ensures |r| <= 1 && AllSourceGraph(r)
  {
    var run := RunAt(inp, n);
    var provenanceOk := ProvenanceOk(run, inp.op);
    if Unlogged(inp, bootstrap, n, run, provenanceOk) then []
    else if WantsExpansion(run, inp.op, bootstrap, provenanceOk) then [EXPANSION_ENTRY]
    else if Conclusive(run, bootstrap, provenanceOk) then []
    else [Attempt(SourceGraph, StopStatus(run), Some(AttemptReason(inp, n)))]
  }

  ghost function SearchLog(inp: Inputs, bootstrap: bool, n: nat): (r: seq<Attempt>)
    ensures AllSourceGraph(r) && n <= |r| <= n + 1
  {
    ExpansionEntries(n) + StopEntry(inp, bootstrap, n)
  }

  /** The loop's variables: the digest to build, frontier signals, recorded digests, log and query count. */
  datatype Progress = Progress(
    digest: string, known: seq<string>, fingerprints: seq<string>, attempts: seq<Attempt>, queries: nat)

  /** After `n` expansions. */
  ghost predicate ProgressOk(inp: Inputs, bootstrap: bool, before: seq<Attempt>, n: nat, p: Progress) {
    && n <= inp.config.maxRounds
    && Trail(inp, bootstrap, n, p.fingerprints)
    && p.digest == Requested(inp, n) && p.known == KnownBefore(inp, n) && p.queries == QueriesMade(inp, n)
    && p.attempts == before + ExpansionEntries(n)
  }

  /** Some round's execution or expansion was cancelled. */
  ghost predicate SearchCancelled(inp: Inputs) {
    exists k: nat :: k <= inp.config.maxRounds
      && (inp.execute(k).ExecutionCancelled? || inp.expand(k).ExpansionCancelled?)
  }

  /** What a search ends with. */
  ghost predicate SearchOk(inp: Inputs, bootstrap: bool, before: seq<Attempt>, s: Search) {
    && EndsAt(inp, bootstrap, s, s.receipt.scopeExpansions)
    && s.attempts == before + SearchLog(inp, bootstrap, s.receipt.scopeExpansions)
    && s.receipt.finalArtifact == None && !s.receipt.fallbackUsed
  }

  datatype Round = RoundCancelled | Ended(search: Search) | GoesOn(next: Progress)

  method SearchArtifacts(inp: Inputs, bootstrap: bool, before: seq<Attempt>) returns (r: Option<Search>)
    requires inp.plan.PlanReady?
    ensures r.Some? ==> SearchOk(inp, bootstrap, before, r.value)
    ensures r.None? ==> SearchCancelled(inp)
  {
    var p := Progress(inp.plan.digest, inp.plan.anchors, [], before, 0);
    var expansions: nat := 0;
    while true
      invariant ProgressOk(inp, bootstrap, before, expansions, p)
      decreases inp.config.maxRounds - expansions
    {
      var round := OneRound(inp, bootstrap, before, expansions, p);
      match round {
        case RoundCancelled => return None;
        case Ended(s) => return Some(s);
        case GoesOn(next) => p, expansions := next, expansions + 1;
      }
    }
  }

  /** One round of the loop: attempt `n`, and the expansion it may lead to. */
  method OneRound(inp: Inputs, bootstrap: bool, before: seq<Attempt>, n: nat, p: Progress) returns (r: Round)
    requires ProgressOk(inp, bootstrap, before, n, p)
    ensures r.Ended? ==> r.search.receipt.scopeExpansions == n && SearchOk(inp, bootstrap, before, r.search)
    ensures r.GoesOn? ==> n < inp.config.maxRounds && ProgressOk(inp, bootstrap, before, n + 1, r.next)
    ensures r.RoundCancelled? ==> inp.execute(n).ExecutionCancelled? || inp.expand(n).ExpansionCancelled?
  {
    if inp.execute(n).ExecutionCancelled? {
      return RoundCancelled;
    }
    var run := inp.execute(n).run;
    var artifact, provenanceOk, reason := AttemptOutcome(inp, n, p.digest);
    var fingerprints := p.fingerprints + [artifact];
    var queries := p.queries + if run.query.Some? then 1 else 0;
    var step := AfterAttempt(inp, bootstrap, n, p.known, fingerprints, reason, provenanceOk, p.fingerprints);
    if step.cancelled {
      return RoundCancelled;
    }
    var attempts := p.attempts + step.logged;
    if step.next.Some? {
      return GoesOn(Progress(step.next.value, p.known + step.added, fingerprints, attempts, queries));
    }
    var end := Search(run, Receipt(n + 1, n, queries, fingerprints, None, false),
                      artifact, step.reason, attempts, p.known + step.added, provenanceOk);
    EndsHere(inp, bootstrap, end, n, p.fingerprints);
    return Ended(end);
  }

  /** What one executed attempt leads to: another round, or the end of the loop; with its log entry, if any. */
  method AfterAttempt(inp: Inputs, bootstrap: bool, n: nat, known: seq<string>, fingerprints: seq<string>,
                      attemptReason: string, provenanceOk: bool, ghost trail: seq<string>)
    returns (r: ExpansionStep)
    requires n <= inp.config.maxRounds && Trail(inp, bootstrap, n, trail) && fingerprints == trail + [Recorded(inp, n)]
    requires inp.execute(n).Executed? && known == KnownBefore(inp, n)
    requires provenanceOk == ProvenanceOk(RunAt(inp, n), inp.op) && attemptReason == AttemptReason(inp, n)
    ensures r.added == [] || known + r.added == KnownBefore(inp, n + 1)
    ensures r.next.Some? ==>
      && n < inp.config.maxRounds && r.added != [] && r.logged == [EXPANSION_ENTRY]
      && Trail(inp, bootstrap, n + 1, fingerprints) && r.next.value == Requested(inp, n + 1)
    ensures r.next.None? && !r.cancelled ==> n == inp.config.maxRounds || !Discarded(inp, bootstrap, n, fingerprints)
    ensures r.next.None? && !r.cancelled ==> r.logged == StopEntry(inp, bootstrap, n)
    ensures r.cancelled ==> inp.expand(n).ExpansionCancelled?
    ensures r.next.None? && !r.cancelled ==> r.reason == StopReason(inp, bootstrap, n)
  {
    var run := inp.execute(n).run;
    if WantsExpansion(run, inp.op, bootstrap, provenanceOk) {
      r := TryExpansion(inp, bootstrap, n, known, fingerprints);
      if r.added != [] {
        r := r.(logged := [EXPANSION_ENTRY]);
      }
      if r.next.Some? {
        ExtendTrail(inp, bootstrap, n, trail, fingerprints);
      }
    } else if !Conclusive(run, bootstrap, provenanceOk) {
      var status := "inconclusive";
      if run.outcome.None? {
        status := "failed";
      } else if run.outcome.value.timedOut {
        status := "timed_out";
      } else if !run.outcome.value.ready {
        status := "failed";
      }
      r := ExpansionStep([], None, false, attemptReason, [Attempt(SourceGraph, status, Some(attemptReason))]);
    } else {
      r := ExpansionStep([], None, false, attemptReason, []);
    }
  }

  /** A search that stops at attempt `n`, after `trail`, has the shape reported. */
  lemma EndsHere(inp: Inputs, bootstrap: bool, s: Search, n: nat, trail: seq<string>)
    requires n <= inp.config.maxRounds && s.receipt.scopeExpansions == n && s.receipt.artifactAttempts == n + 1
    requires Trail(inp, bootstrap, n, trail) && s.receipt.fingerprints == trail + [s.artifact]
    requires inp.execute(n).Executed? && s.last == inp.execute(n).run && s.artifact == Recorded(inp, n)
    requires s.receipt.queries == QueriesMade(inp, n + 1) && s.provenanceOk == ProvenanceOk(s.last, inp.op)
    requires s.reason == StopReason(inp, bootstrap, n)
    requires s.frontiers == KnownBefore(inp, n) || s.frontiers == KnownBefore(inp, n + 1)
    requires n == inp.config.maxRounds || !Discarded(inp, bootstrap, n, s.receipt.fingerprints)
    ensures EndsAt(inp, bootstrap, s, n)
  {
    assert s.receipt.fingerprints[..n] == trail;
  }

  datatype ExpansionStep = ExpansionStep(
    added: seq<string>, next: Option<string>, cancelled: bool, reason: string, logged: seq<Attempt>)

  /** What becomes of an attempt that wants expansion: a new digest, or the reason to stop. */
  method TryExpansion(inp: Inputs, bootstrap: bool, n: nat, known: seq<string>, fingerprints: seq<string>)
    returns (r: ExpansionStep)
    requires n <= inp.config.maxRounds && |fingerprints| == n + 1 && fingerprints[n] == Recorded(inp, n)
    requires inp.execute(n).Executed? && known == KnownBefore(inp, n)
    requires WantsExpansion(RunAt(inp, n), inp.op, bootstrap, ProvenanceOk(RunAt(inp, n), inp.op))
    ensures r.added == [] || known + r.added == KnownBefore(inp, n + 1)
    ensures r.added == [] <==> n == inp.config.maxRounds || NewItems(RunAt(inp, n).frontiers, known) == []
    ensures r.next.Some? ==>
      n < inp.config.maxRounds && r.added != [] && Discarded(inp, bootstrap, n, fingerprints)
      && r.next.value == Requested(inp, n + 1)
    ensures r.next.None? && !r.cancelled ==> n == inp.config.maxRounds || !Discarded(inp, bootstrap, n, fingerprints)
    ensures r.logged == []
    ensures r.cancelled ==> inp.expand(n).ExpansionCancelled?
    ensures r.next.None? && !r.cancelled ==> r.reason == StopReason(inp, bootstrap, n)
  {
    assert fingerprints[..n + 1] == fingerprints;
    var added := NewItems(inp.execute(n).run.frontiers, known);
    if n >= inp.config.maxRounds {
      return ExpansionStep([], None, false, "source_graph_frontier_round_limit", []);
    }
    if added == [] {
      return ExpansionStep([], None, false, "source_graph_frontier_expansion_stalled", []);
    }
    match inp.expand(n) {
      case ExpansionCancelled => return ExpansionStep(added, None, true, "", []);
      case ExpansionFailed => return ExpansionStep(added, None, false, "source_graph_frontier_adapter_failed", []);
      case ExpansionBlocked(code) => return ExpansionStep(added, None, false, "source_graph_" + code, []);
      case Expanded(digest) =>
        if digest in fingerprints {
          return ExpansionStep(added, None, false, "source_graph_frontier_expansion_stalled", []);
        }
        return ExpansionStep(added, Some(digest), false, "", []);
    }
  }

  /** One pass over an executed attempt: the recorded artifact, the tag check and the reason. */
  method AttemptOutcome(inp: Inputs, k: nat, digest: string)
    returns (artifact: string, provenanceOk: bool, reason: string)
    requires inp.execute(k).Executed? && digest == Requested(inp, k)
    ensures artifact == Recorded(inp, k)
    ensures provenanceOk == ProvenanceOk(RunAt(inp, k), inp.op)
    ensures reason == AttemptReason(inp, k)
  {
    var run := inp.execute(k).run;
    artifact, provenanceOk, reason := digest, false, run.reason;
    if run.outcome.Some? && run.outcome.value.selectedDigest.Some? {
      artifact := run.outcome.value.selectedDigest.value;
    }
    if run.result.Some? {
      provenanceOk := SingleBackendProvenance(run.result.value, inp.op, SourceGraph);
      if !provenanceOk {
        reason := "source_graph_mixed_provenance_rejected";
      }
    }
  }

  ghost function StopStatus(run: Execution): string {
    if run.outcome.None? then "failed"
    else if run.outcome.value.timedOut then "timed_out"
    else if !run.outcome.value.ready then "failed"
    else "inconclusive"
  }

  lemma ExtendTrail(inp: Inputs, bootstrap: bool, n: nat, trail: seq<string>, fingerprints: seq<string>)
    requires Trail(inp, bootstrap, n, trail)
    requires |fingerprints| == n + 1 && fingerprints[..n] == trail
    requires Discarded(inp, bootstrap, n, fingerprints)
    ensures Trail(inp, bootstrap, n + 1, fingerprints)
  {
    forall k: nat | k < n ensures Discarded(inp, bootstrap, k, fingerprints) {
      assert Discarded(inp, bootstrap, k, trail);
      assert fingerprints[k] == trail[k];
      assert fingerprints[..k + 1] == trail[..k + 1];
    }
  }

  /** Queries answered by the first `n` attempts. */
  ghost function QueriesMade(inp: Inputs, n: nat): nat {
    if n == 0 then 0 else QueriesMade(inp, n - 1) + if RunAt(inp, n - 1).query.Some? then 1 else 0
  }

  // ---- The whole route ----

  /** The answer of a bounded bootstrap that proved nothing positive: no facts, no hops. */
  function BootstrapAnswer(op: Operation, reason: string): Answer {
    Answer(Some(SourceGraph), [], [], if op.Driver? then "unknown" else "", None, None,
           if op.Driver? then "" else "shallow_only", None, Some(reason), false, false, "", None, false, false)
  }

  /** Static recognised no fact at all. */
  predicate StaticUnsupported(answer: Answer, op: Operation) {
    && op.Driver? && answer.unsupportedReason.Some? && !answer.hasSource && answer.driverChain == []
    && !answer.hasUpstream
    && answer.driverStatus !in ["resolved", "not_connected", "primary_input", "testbench_driven"]
  }

  /** The preferred backend whose failure caused a final Static fallback. */
  function LastPreferred(attempts: seq<Attempt>): (b: Backend)
    requires exists i :: 0 <= i < |attempts| && attempts[i].backend != Static
    ensures b != Static
  {
    var n := |attempts| - 1;
    if attempts[n].backend != Static then attempts[n].backend else LastPreferred(attempts[..n])
  }

  const LEGACY_SKIPS: seq<string> := ["npi_backend_initialization_failed", "npi_kdb_unavailable"]

  function PolicyReason(reason: Option<string>): Option<string> {
    if reason.Some? && reason.value in LEGACY_SKIPS then Some("npi_skipped_by_policy") else reason
  }

  function PolicyAttempt(a: Attempt): Attempt {
    if a.backend == VerdiNpi && PolicyReason(a.reason) != a.reason
    then Attempt(VerdiNpi, "skipped", PolicyReason(a.reason)) else a
  }

  function Relabeled(inp: Inputs, actual: Backend, a: Attempt): Attempt {
    if inp.skipsNpiByPolicy && actual != VerdiNpi then PolicyAttempt(a) else a
  }

  /** Only NPI's entry is relabelled, and it stands first. */
  lemma OnlyFirstRelabeled(inp: Inputs, actual: Backend, attempts: seq<Attempt>, log: seq<Attempt>)
    requires LogShape(attempts) && |log| == |attempts|
    requires forall i | 0 <= i < |log| :: log[i] == Relabeled(inp, actual, attempts[i])
    ensures log == [Relabeled(inp, actual, attempts[0])] + attempts[1..] && LogShape(log)
  {
    var n := |attempts| - 1;
    forall i | 1 <= i < |log| ensures log[i] == attempts[i] {
      assert attempts[i] == attempts[1..][i - 1];
      if !AllSourceGraph(attempts[1..]) && i < n {
        assert attempts[i] == attempts[1..n][i - 1];
      }
    }
    assert log[1..] == attempts[1..] && (n > 0 ==> log[1..n] == attempts[1..n]);
  }

  /** Preferred was the backend that answered or, for Static, the one that its answer stands in for. */
  ghost predicate AttemptedOk(r: Routed)
    requires r.Returned?
  {
    && r.attempted != Static
    && if r.actual == Static then |r.attempts| > 1 && r.attempted == r.attempts[|r.attempts| - 2].backend
       else r.attempted == r.actual
  }

  lemma PreferredIsBeforeStatic(attempts: seq<Attempt>)
    requires LogShape(attempts) && attempts[|attempts| - 1].backend == Static
    ensures |attempts| > 1 && LastPreferred(attempts) == attempts[|attempts| - 2].backend
  {
    var n := |attempts| - 1;
    assert attempts[n - 1] == attempts[..n][n - 1];
    if n > 1 {
      assert attempts[1..n][n - 2] == attempts[n - 1];
    }
  }

  /** `_finalize_public_connectivity_status`: the envelope of one returned answer. */
  method Finalize(inp: Inputs, answer: Answer, actual: Backend, attempts: seq<Attempt>,
                  fallbackReason: Option<string>, receipt: Option<Receipt>, bootstrap: bool) returns (r: Routed)
    requires LogShape(attempts) && (actual == Static ==> attempts[|attempts| - 1].backend == Static)
    ensures r.Returned? && r.answer == answer && r.actual == actual && r.receipt == receipt && r.bootstrap == bootstrap
    ensures r.attempts == [Relabeled(inp, actual, attempts[0])] + attempts[1..] && LogShape(r.attempts)
    ensures AttemptedOk(r.(attempts := attempts)) && AttemptedOk(r)
    ensures r.fallbackReason ==
      (if inp.skipsNpiByPolicy && actual != VerdiNpi then PolicyReason(fallbackReason) else fallbackReason)
  {
    var policy := inp.skipsNpiByPolicy && actual != VerdiNpi;
    var log :=
      if policy then seq(|attempts|, i requires 0 <= i < |attempts| => PolicyAttempt(attempts[i])) else attempts;
    OnlyFirstRelabeled(inp, actual, attempts, log);
    assert attempts[0].backend != Static;
    if actual == Static {
      PreferredIsBeforeStatic(attempts);
    }
    r := Returned(answer, actual, if actual == Static then LastPreferred(attempts) else actual, log,
                  if policy then PolicyReason(fallbackReason) else fallbackReason, receipt, bootstrap);
  }

  ghost predicate NpiWins(inp: Inputs) {
    inp.npi.NpiAnswered? && NpiUsable(inp.npi.answer, inp.op, inp.npi.degraded)
  }

  /** The answer is the one its backend gave, and nothing else. */
  ghost predicate AnswerSource(inp: Inputs, r: Routed)
    requires r.Returned?
  {
    match r.actual
    case VerdiNpi =>
      NpiWins(inp) && r.answer == Published(inp.npi.answer, VerdiNpi) && |r.attempts| == 1
    case SourceGraph =>
      || (&& r.bootstrap && r.fallbackReason.Some? && Hops(r.answer, inp.op) == [] && r.answer.facts == "")
      || (&& r.receipt.Some? && r.receipt.value.artifactAttempts > 0
          && var last := r.receipt.value.artifactAttempts - 1;
          (&& inp.execute(last).Executed? && inp.execute(last).run.result.Some?
           && r.answer == Published(inp.execute(last).run.result.value, SourceGraph)))
    case Static =>
      inp.staticAnswer.StaticAnswered? && r.answer == Published(inp.staticAnswer.answer, Static)
    case Foreign(_) => false
  }

  /** The Source Graph receipt: counters agree, and a reported final artifact is the last recorded one. */
  ghost predicate ReceiptOk(inp: Inputs, receipt: Receipt) {
    && |receipt.fingerprints| == receipt.artifactAttempts
    && (receipt.artifactAttempts == 0 || receipt.artifactAttempts == receipt.scopeExpansions + 1)
    && receipt.scopeExpansions <= inp.config.maxRounds
    && (receipt.finalArtifact.Some? ==>
          receipt.artifactAttempts > 0
          && receipt.finalArtifact.value == receipt.fingerprints[receipt.artifactAttempts - 1])
  }

  /** Static's answer recognises nothing while a checked Source Graph answer was kept. */
  ghost predicate KeptWins(inp: Inputs, kept: Option<Answer>) {
    kept.Some? && inp.staticAnswer.StaticAnswered? && StaticUnsupported(inp.staticAnswer.answer, inp.op)
  }

  /** Which backend answers once NPI has not: decided by how the frontier loop ended. */
  ghost predicate Decided(inp: Inputs, r: Routed)
    requires r.Returned? && r.receipt.Some? && r.attempts != []
  {
    if SourceBlocked(inp).Some? then
      && r.receipt.value.artifactAttempts == 0 && r.receipt.value.fallbackUsed == !r.bootstrap
      && r.attempts[1..] == [BlockedEntry(inp)] + StaticTail(inp, r.receipt.value.fallbackUsed)
      && r.actual == (if BootstrapActive(inp) then SourceGraph else Static) && r.bootstrap == BootstrapActive(inp)
      && r.fallbackReason == Some(Shown(inp, SourceBlocked(inp).value))
      && (r.bootstrap ==> r.answer == BootstrapAnswer(inp.op, SourceBlocked(inp).value))
    else exists s: Search :: EndOf(inp, s, r.receipt.value) && DecidedBy(inp, s, r)
  }

  /** The reason as the status shows it. */
  function Shown(inp: Inputs, reason: string): string {
    if inp.skipsNpiByPolicy && reason in LEGACY_SKIPS then "npi_skipped_by_policy" else reason
  }

  ghost predicate DecidedBy(inp: Inputs, s: Search, r: Routed)
    requires r.Returned? && r.receipt.Some? && r.attempts != []
  {
    && r.bootstrap == BootstrapActive(inp)
    && (r.receipt.value.finalArtifact.Some? <==> Concludes(inp, s) || Kept(inp, s).Some?)
    && r.attempts[1..] == SourceLog(inp, s) + StaticTail(inp, r.receipt.value.fallbackUsed)
    && (Concludes(inp, s) ==>
          s.last.result.Some? && r.actual == SourceGraph && !r.receipt.value.fallbackUsed && !AttachmentCut(inp)
          && r.answer == Published(s.last.result.value, SourceGraph))
    && (!Concludes(inp, s) && r.bootstrap ==> r.actual == SourceGraph && r.answer == BootstrapAnswer(inp.op, s.reason))
    && (!Concludes(inp, s) ==> r.fallbackReason == Some(Shown(inp, s.reason)))
    && (!Concludes(inp, s) && !r.bootstrap ==>
          r.receipt.value.fallbackUsed && r.actual == (if KeptWins(inp, Kept(inp, s)) then SourceGraph else Static))
  }

  /** What holds of everything the router returns. */
  ghost predicate RouteOk(inp: Inputs, r: Routed) {
    if r.Raised? then RaiseCause(inp, r.error) else
      && Proceeds(inp) && (r.actual == VerdiNpi ==> !AttachmentCut(inp)) && (r.actual != VerdiNpi ==> StagesPassed(inp))
      && OnlyTag(r.answer, inp.op, r.actual) && r.answer.backend == Some(r.actual)
      && AnswerSource(inp, r)
      && LogShape(r.attempts) && r.attempts[0] == FirstEntry(inp) && AttemptedOk(r)
      && (r.actual == VerdiNpi <==> NpiWins(inp))
      && (r.actual != VerdiNpi ==> r.receipt.Some? && ReceiptOk(inp, r.receipt.value) && Decided(inp, r))
      && (r.bootstrap ==> r.actual == SourceGraph && NoStatic(r.attempts))
      && (r.receipt.Some? ==> (r.receipt.value.fallbackUsed <==> r.attempts[|r.attempts| - 1].backend == Static))
      && (r.actual == SourceGraph && !r.bootstrap ==> r.receipt.value.finalArtifact.Some?)
  }

  /** Neither the probe nor the NPI query leaves the router. */
  predicate Proceeds(inp: Inputs) {
    inp.probe.Passed? && !inp.npi.NpiCancelled?
  }

  /** The hierarchy context is looked up, and with both its parts a plan is made. */
  predicate LooksUp(inp: Inputs) {
    inp.config.enabled && inp.config.valid
  }

  predicate Plans(inp: Inputs) {
    LooksUp(inp) && inp.lookup.Passed? && inp.context.hierarchy && inp.context.compileResult
  }

  predicate StagesPassed(inp: Inputs) {
    (LooksUp(inp) ==> inp.lookup.Passed?) && (Plans(inp) ==> inp.planning.Passed?)
  }

  /** Only drivers get dependencies, from NPI or from a concluding artifact. */
  predicate AttachmentCut(inp: Inputs) {
    inp.op.Driver? && inp.attachmentCut
  }

  /**
    Nothing is raised but a cancellation, a failure of a stage without fallback, a failed Static
    query, or a Static answer of mixed provenance.
   */
  ghost predicate RaiseCause(inp: Inputs, error: RouteError) {
    match error
    case Cancelled =>
      || inp.probe.Cut? || inp.npi.NpiCancelled? || AttachmentCut(inp)
      || (!NpiWins(inp) && LooksUp(inp) && inp.lookup.Cut?) || (!NpiWins(inp) && Plans(inp) && inp.planning.Cut?)
      || SearchCancelled(inp) || inp.staticAnswer.StaticCancelled?
    case StageFailed =>
      || inp.probe.Broken?
      || (!NpiWins(inp) && LooksUp(inp) && inp.lookup.Broken?) || (!NpiWins(inp) && Plans(inp) && inp.planning.Broken?)
    case StaticFailed => inp.staticAnswer.StaticRaised?
    case MixedStatic => inp.staticAnswer.StaticAnswered? && !OnlyTag(inp.staticAnswer.answer, inp.op, Static)
  }

  ghost predicate NoStatic(attempts: seq<Attempt>) {
    forall i | 0 <= i < |attempts| :: attempts[i].backend != Static
  }

  /** What the NPI slot logs when it does not answer. */
  function NpiEntry(inp: Inputs): (r: Attempt)
    ensures r.backend == VerdiNpi && r.reason.Some?
  {
    match inp.npi
    case NpiNotSelected(initFailed, probe) =>
      if initFailed then Attempt(VerdiNpi, "failed", Some("npi_backend_initialization_failed"))
      else Attempt(VerdiNpi, "unavailable", Some(if probe.Some? then probe.value else "npi_kdb_unavailable"))
    case NpiAnswered(answer, degraded) =>
      var raw := answer.npiFallbackReason;
      Attempt(VerdiNpi, if raw.Some? then "failed" else "inconclusive",
              Some(if degraded && raw.None? then "npi_degraded_result_inconclusive" else SanitizeReason(raw)))
    case _ => Attempt(VerdiNpi, "failed", Some("npi_query_failed"))
  }

  // ---- The whole log ----

  ghost function Kept(inp: Inputs, s: Search): Option<Answer> {
    KeptInconclusive(s.last, inp.op, BootstrapActive(inp), s.provenanceOk)
  }

  /** The reason in the last entry once the loop has ended. */
  ghost function LastReason(inp: Inputs, n: nat): Option<string> {
    var log := [NpiEntry(inp)] + SearchLog(inp, BootstrapActive(inp), n);
    log[|log| - 1].reason
  }

  /** The entry of what the search came to: a success, or a kept answer whose reason is not yet logged. */
  ghost function ClosingEntry(inp: Inputs, s: Search): (r: seq<Attempt>)
    ensures |r| <= 1 && AllSourceGraph(r)
  {
    if Concludes(inp, s) then [Attempt(SourceGraph, "success", None)]
    else if Kept(inp, s).Some? && LastReason(inp, s.receipt.scopeExpansions) != Some(s.reason)
    then [Attempt(SourceGraph, "inconclusive", Some(s.reason))]
    else []
  }

  /**
    The Source Graph entries: one for each expansion, at most one for the attempt that ends the
    loop, and at most one for what it came to.
   */
  ghost function SourceLog(inp: Inputs, s: Search): (r: seq<Attempt>)
    ensures AllSourceGraph(r) && s.receipt.scopeExpansions <= |r| <= s.receipt.scopeExpansions + 2
  {
    SearchLog(inp, BootstrapActive(inp), s.receipt.scopeExpansions) + ClosingEntry(inp, s)
  }

  function StaticEntry(answer: Answer, op: Operation): Attempt {
    Attempt(Static, if StaticUnsupported(answer, op) then "inconclusive" else "success",
            if StaticUnsupported(answer, op) then answer.unsupportedReason else None)
  }

  function StaticTail(inp: Inputs, used: bool): seq<Attempt> {
    if used && inp.staticAnswer.StaticAnswered? then [StaticEntry(inp.staticAnswer.answer, inp.op)] else []
  }

  function BlockedEntry(inp: Inputs): Attempt {
    Attempt(SourceGraph, "blocked", SourceBlocked(inp))
  }

  ghost function FirstEntry(inp: Inputs): Attempt {
    if NpiWins(inp) then Attempt(VerdiNpi, "success", None) else Relabeled(inp, SourceGraph, NpiEntry(inp))
  }

  datatype NpiStage = NpiStage(decided: Option<Routed>, attempts: seq<Attempt>, reason: Option<string>)

  /** The NPI slot: a usable answer is returned, anything else is logged and discarded. */
  method TryNpi(inp: Inputs) returns (r: NpiStage)
    requires inp.probe.Passed?
    ensures NpiWins(inp) ==> r.decided.Some?
    ensures r.decided.Some? ==> RouteOk(inp, r.decided.value)
    ensures r.decided.None? ==> !NpiWins(inp) && Proceeds(inp) && r.attempts == [NpiEntry(inp)]
    ensures r.decided.None? ==>
      && (r.attempts[0].status == "unavailable" <==> inp.npi.NpiNotSelected? && !inp.npi.initFailed)
      && (r.attempts[0].status == "inconclusive" <==> inp.npi.NpiAnswered? && inp.npi.answer.npiFallbackReason.None?)
      && r.attempts[0].status in ["unavailable", "inconclusive", "failed"] && r.reason == r.attempts[0].reason
    ensures inp.npi.NpiCancelled? || (NpiWins(inp) && AttachmentCut(inp)) <==> r.decided == Some(Raised(Cancelled))
  {
    var entry := Attempt(VerdiNpi, "failed", Some("npi_query_failed"));
    match inp.npi {
      case NpiCancelled => return NpiStage(Some(Raised(Cancelled)), [], None);
      case NpiNotSelected(initFailed, probe) =>
        var status, reason := "unavailable", "npi_kdb_unavailable";
        if initFailed {
          status, reason := "failed", "npi_backend_initialization_failed";
        } else if probe.Some? {
          reason := probe.value;
        }
        entry := Attempt(VerdiNpi, status, Some(reason));
      case NpiAnswered(answer, degraded) =>
        var usable := NpiResultUsable(answer, inp.op, degraded);
        if usable && inp.op.Driver? && inp.attachmentCut {
          return NpiStage(Some(Raised(Cancelled)), [], None);
        }
        if usable {
          PublishedKeepsProvenance(answer, inp.op, VerdiNpi);
          var out := Finalize(inp, Published(answer, VerdiNpi), VerdiNpi, [Attempt(VerdiNpi, "success", None)],
                              None, None, false);
          return NpiStage(Some(out), [], None);
        }
        var reason := SanitizeReason(answer.npiFallbackReason);
        if degraded && answer.npiFallbackReason.None? {
          reason := "npi_degraded_result_inconclusive";
        }
        entry := Attempt(VerdiNpi, if answer.npiFallbackReason.Some? then "failed" else "inconclusive", Some(reason));
      case NpiRaised =>
    }
    r := NpiStage(None, [entry], entry.reason);
  }

  datatype SourceStage = SourceStage(
    decided: Option<Routed>, attempts: seq<Attempt>, receipt: Receipt, reason: string,
    bootstrap: bool, kept: Option<Answer>, end: Option<Search>)

  /** A stage without fallback did not pass. */
  function Leaving(stage: Passage): Routed {
    Raised(if stage.Cut? then Cancelled else StageFailed)
  }

  /** How the frontier loop ended, as a receipt tells it. */
  ghost predicate EndOf(inp: Inputs, s: Search, receipt: Receipt) {
    && EndsAt(inp, BootstrapActive(inp), s, s.receipt.scopeExpansions)
    && receipt.scopeExpansions == s.receipt.scopeExpansions && receipt.fingerprints == s.receipt.fingerprints
    && receipt.artifactAttempts == s.receipt.artifactAttempts && receipt.queries == s.receipt.queries
  }

  /** The last attempt's answer is Source Graph's own and positive, or an admissible negative. */
  ghost predicate Concludes(inp: Inputs, s: Search) {
    Conclusive(s.last, BootstrapActive(inp), s.provenanceOk)
  }

  /** The kept inconclusive answer is the last attempt's own, checked answer. */
  ghost predicate KeptOk(inp: Inputs, receipt: Receipt, kept: Option<Answer>) {
    kept.Some? ==>
      && receipt.artifactAttempts > 0
      && var run := RunAt(inp, receipt.artifactAttempts - 1);
      (&& inp.execute(receipt.artifactAttempts - 1).Executed?
       && run.result == kept && ProvenanceOk(run, inp.op))
  }

  /** The Source Graph slot could not start: why, and with which bootstrap flag. */
  function SourceBlocked(inp: Inputs): Option<string> {
    if !inp.config.enabled then Some("source_graph_disabled")
    else if !inp.config.valid then
      Some(if inp.config.errorCode.Some? then inp.config.errorCode.value else "source_graph_config_invalid")
    else if !inp.context.hierarchy then
      Some(if inp.context.blocker.Some? then "source_graph_" + inp.context.blocker.value
           else "source_graph_hierarchy_context_unavailable")
    else if !inp.context.compileResult then Some("source_graph_compile_context_unavailable")
    else if inp.plan.PlanBlocked? then Some("source_graph_" + inp.plan.code)
    else None
  }

  function BootstrapActive(inp: Inputs): bool {
    if inp.config.enabled && inp.config.valid then inp.context.bootstrap
    else inp.allowBootstrap && !inp.existingHierarchy
  }

  lemma SourceLogShape(log: seq<Attempt>)
    requires |log| > 0 && log[0].backend == VerdiNpi
    requires forall i | 1 <= i < |log| :: log[i].backend == SourceGraph
    ensures LogShape(log) && AllSourceGraph(log[1..])
    ensures forall i | 0 <= i < |log| :: log[i].backend != Static
  {
  }

  /** The loop ended with an answer that may be returned. */
  method Conclude(inp: Inputs, s: Search, before: seq<Attempt>, npiReason: Option<string>) returns (out: Routed)
    requires before == [NpiEntry(inp)] && Proceeds(inp) && StagesPassed(inp) && !NpiWins(inp)
    requires SourceBlocked(inp).None?
    requires SearchOk(inp, BootstrapActive(inp), before, s) && Concludes(inp, s)
    ensures RouteOk(inp, out)
  {
    if inp.op.Driver? && inp.attachmentCut {
      return Raised(Cancelled);
    }
    var bootstrap := BootstrapActive(inp);
    var log := s.attempts + [Attempt(SourceGraph, "success", None)];
    var answer := Published(s.last.result.value, SourceGraph);
    PublishedKeepsProvenance(s.last.result.value, inp.op, SourceGraph);
    assert log == before + SourceLog(inp, s);
    SourceLogShape(log);
    out := Finalize(inp, answer, SourceGraph, log, npiReason, Some(s.receipt.(finalArtifact := Some(s.artifact))),
                    bootstrap);
    assert log[1..] == SourceLog(inp, s) && Relabeled(inp, SourceGraph, log[0]) == FirstEntry(inp);
    ConcludedOk(inp, s, out);
  }

  lemma ConcludedOk(inp: Inputs, s: Search, r: Routed)
    requires Proceeds(inp) && StagesPassed(inp) && !NpiWins(inp) && SourceBlocked(inp).None? && !AttachmentCut(inp)
    requires EndsAt(inp, BootstrapActive(inp), s, s.receipt.scopeExpansions) && Concludes(inp, s)
    requires !s.receipt.fallbackUsed
    requires r.Returned? && r.actual == SourceGraph && AttemptedOk(r) && r.bootstrap == BootstrapActive(inp)
    requires r.receipt == Some(s.receipt.(finalArtifact := Some(s.artifact)))
    requires r.answer == Published(s.last.result.value, SourceGraph) && OnlyTag(r.answer, inp.op, SourceGraph)
    requires LogShape(r.attempts) && r.attempts == [FirstEntry(inp)] + SourceLog(inp, s)
    ensures RouteOk(inp, r)
  {
    assert r.attempts[1..] == SourceLog(inp, s) + StaticTail(inp, false);
    SourceLogShape(r.attempts);
    assert EndOf(inp, s, r.receipt.value) && DecidedBy(inp, s, r);
  }

  /** The loop ended with nothing that may be returned; a checked driver answer is kept. */
  method NotConcluded(inp: Inputs, s: Search, before: seq<Attempt>) returns (r: SourceStage)
    requires before == [NpiEntry(inp)] && Proceeds(inp) && StagesPassed(inp) && SourceBlocked(inp).None?
    requires SearchOk(inp, BootstrapActive(inp), before, s) && !Concludes(inp, s)
    ensures r.decided.None? && Undecided(inp, r)
  {
    var bootstrap := BootstrapActive(inp);
    var kept := KeptInconclusive(s.last, inp.op, bootstrap, s.provenanceOk);
    var log, receipt := s.attempts, s.receipt;
    ClosingLog(inp, s, before);
    if kept.Some? {
      receipt := receipt.(finalArtifact := Some(s.artifact));
      if log == [] || log[|log| - 1].reason != Some(s.reason) {
        log := log + [Attempt(SourceGraph, "inconclusive", Some(s.reason))];
      }
    }
    assert log == s.attempts + ClosingEntry(inp, s);
    r := SourceStage(None, log, receipt, s.reason, bootstrap, kept, Some(s));
    SearchLeavesUndecided(inp, s, before, r);
  }

  lemma ClosingLog(inp: Inputs, s: Search, before: seq<Attempt>)
    requires before == [NpiEntry(inp)]
    requires s.attempts == before + SearchLog(inp, BootstrapActive(inp), s.receipt.scopeExpansions)
    ensures s.attempts != [] && s.attempts[|s.attempts| - 1].reason == LastReason(inp, s.receipt.scopeExpansions)
    ensures s.attempts + ClosingEntry(inp, s) == [NpiEntry(inp)] + SourceLog(inp, s)
  {
  }

  lemma SearchLeavesUndecided(inp: Inputs, s: Search, before: seq<Attempt>, r: SourceStage)
    requires Proceeds(inp) && StagesPassed(inp) && SourceBlocked(inp).None?
    requires SearchOk(inp, BootstrapActive(inp), before, s) && !Concludes(inp, s)
    requires r.attempts == [NpiEntry(inp)] + SourceLog(inp, s) && r.end == Some(s) && r.kept == Kept(inp, s)
    requires r.reason == s.reason && r.bootstrap == BootstrapActive(inp)
    requires r.receipt == if r.kept.Some? then s.receipt.(finalArtifact := Some(s.artifact)) else s.receipt
    ensures Undecided(inp, r)
  {
  }

  /** The checks before the first artifact, in the order they are made. */
  method FindBlocker(inp: Inputs) returns (blocked: Option<string>)
    ensures blocked == SourceBlocked(inp)
  {
    if !inp.config.enabled {
      return Some("source_graph_disabled");
    }
    if !inp.config.valid {
      return if inp.config.errorCode.Some? then inp.config.errorCode else Some("source_graph_config_invalid");
    }
    if !inp.context.hierarchy {
      if inp.context.blocker.Some? {
        return Some("source_graph_" + inp.context.blocker.value);
      }
      return Some("source_graph_hierarchy_context_unavailable");
    }
    if !inp.context.compileResult {
      return Some("source_graph_compile_context_unavailable");
    }
    match inp.plan {
      case PlanBlocked(code) => return Some("source_graph_" + code);
      case PlanReady(_, _) => return None;
    }
  }

  /** The Source Graph slot. */
  method TrySourceGraph(inp: Inputs, before: seq<Attempt>, npiReason: Option<string>) returns (r: SourceStage)
    requires before == [NpiEntry(inp)] && Proceeds(inp) && !NpiWins(inp)
    ensures r.decided.Some? ==> RouteOk(inp, r.decided.value)
    ensures r.decided.None? ==> Undecided(inp, r)
  {
    if LooksUp(inp) && !inp.lookup.Passed? {
      return SourceStage(Some(Leaving(inp.lookup)), before, BLOCKED, "", false, None, None);
    }
    if Plans(inp) && !inp.planning.Passed? {
      return SourceStage(Some(Leaving(inp.planning)), before, BLOCKED, "", false, None, None);
    }
    var bootstrap := BootstrapActive(inp);
    var blocked := FindBlocker(inp);
    if blocked.Some? {
      return SourceStage(None, before + [Attempt(SourceGraph, "blocked", blocked)], BLOCKED, blocked.value, bootstrap, None, None);
    }
    var found := SearchArtifacts(inp, bootstrap, before);
    if found.None? {
      return SourceStage(Some(Raised(Cancelled)), before, BLOCKED, "", bootstrap, None, None);
    }
    var s := found.value;
    if Conclusive(s.last, bootstrap, s.provenanceOk) {
      var out := Conclude(inp, s, before, npiReason);
      return SourceStage(Some(out), s.attempts, s.receipt, s.reason, bootstrap, None, found);
    }
    r := NotConcluded(inp, s, before);
  }

  /** The attempts end in one way only: the inputs decide how many there are and what they record. */
  lemma EndIsUnique(inp: Inputs, bootstrap: bool, a: Search, b: Search)
    requires EndsAt(inp, bootstrap, a, a.receipt.scopeExpansions)
      && EndsAt(inp, bootstrap, b, b.receipt.scopeExpansions)
    ensures a.receipt.scopeExpansions == b.receipt.scopeExpansions && a.receipt.fingerprints == b.receipt.fingerprints
    ensures a.last == b.last && a.artifact == b.artifact && a.provenanceOk == b.provenanceOk
      && a.receipt.queries == b.receipt.queries
    ensures a.reason == b.reason
  {
    EndNotEarlier(inp, bootstrap, a, b);
    EndNotEarlier(inp, bootstrap, b, a);
    var n := a.receipt.scopeExpansions;
    forall k: nat | k < n ensures a.receipt.fingerprints[k] == b.receipt.fingerprints[k] {
      RecordedAt(inp, bootstrap, a, k);
      RecordedAt(inp, bootstrap, b, k);
    }
  }

  lemma RecordedAt(inp: Inputs, bootstrap: bool, s: Search, k: nat)
    requires EndsAt(inp, bootstrap, s, s.receipt.scopeExpansions) && k < s.receipt.scopeExpansions
    ensures s.receipt.fingerprints[k] == Recorded(inp, k)
    ensures Discarded(inp, bootstrap, k, s.receipt.fingerprints)
  {
    var n := s.receipt.scopeExpansions;
    var front := s.receipt.fingerprints[..n];
    assert Discarded(inp, bootstrap, k, front);
    assert front[..k + 1] == s.receipt.fingerprints[..k + 1];
  }

  lemma EndNotEarlier(inp: Inputs, bootstrap: bool, a: Search, b: Search)
    requires EndsAt(inp, bootstrap, a, a.receipt.scopeExpansions)
      && EndsAt(inp, bootstrap, b, b.receipt.scopeExpansions)
    ensures a.receipt.scopeExpansions >= b.receipt.scopeExpansions
  {
    var n := a.receipt.scopeExpansions;
    if n < b.receipt.scopeExpansions {
      RecordedAt(inp, bootstrap, b, n);
      forall k: nat | k <= n ensures a.receipt.fingerprints[k] == b.receipt.fingerprints[k] {
        RecordedAt(inp, bootstrap, b, k);
        if k < n { RecordedAt(inp, bootstrap, a, k); }
      }
    }
  }

  /**
    `_route_public_connectivity`. Whatever is returned carries one backend's facts and tags
    only, and the log has the shape npi, source_graph*, static?.
   */
  method Route(inp: Inputs) returns (r: Routed)
    ensures RouteOk(inp, r)
  {
    if !inp.probe.Passed? {
      return Leaving(inp.probe);
    }
    var npi := TryNpi(inp);
    if npi.decided.Some? {
      return npi.decided.value;
    }
    var source := TrySourceGraph(inp, npi.attempts, npi.reason);
    if source.decided.Some? {
      return source.decided.value;
    }
    if source.bootstrap {
      r := Bootstrapped(inp, source);
    } else {
      r := FallBack(inp, source);
    }
  }

  /** The Source Graph entries of a slot that was blocked, or whose search ended. */
  ghost function StageLog(inp: Inputs, end: Option<Search>): (r: seq<Attempt>)
    ensures AllSourceGraph(r)
  {
    if SourceBlocked(inp).Some? || end.None? then [BlockedEntry(inp)] else SourceLog(inp, end.value)
  }

  /** The Source Graph slot decided nothing: how it ended, and what it kept. */
  ghost predicate Undecided(inp: Inputs, source: SourceStage) {
    && source.attempts == [NpiEntry(inp)] + StageLog(inp, source.end) && Proceeds(inp) && StagesPassed(inp)
    && ReceiptOk(inp, source.receipt) && KeptOk(inp, source.receipt, source.kept) && !source.receipt.fallbackUsed
    && source.bootstrap == BootstrapActive(inp)
    && (source.kept.Some? ==> !source.bootstrap && inp.op.Driver? && source.receipt.finalArtifact.Some?)
    && (SourceBlocked(inp).Some? ==>
        source.receipt == BLOCKED && source.kept.None? && source.reason == SourceBlocked(inp).value)
    && (SourceBlocked(inp).None? ==>
          && source.end.Some? && EndOf(inp, source.end.value, source.receipt) && !Concludes(inp, source.end.value)
          && source.reason == source.end.value.reason
          && source.kept == Kept(inp, source.end.value)
          && (source.receipt.finalArtifact.Some? <==> source.kept.Some?))
  }

  /** An unproven bounded bootstrap answers with no fact, and never with Static's. */
  method Bootstrapped(inp: Inputs, source: SourceStage) returns (r: Routed)
    requires !NpiWins(inp) && Undecided(inp, source) && source.bootstrap
    ensures r.Returned? && RouteOk(inp, r)
  {
    SourceLogShape(source.attempts);
    r := Finalize(inp, BootstrapAnswer(inp.op, source.reason), SourceGraph, source.attempts,
                  Some(source.reason), Some(source.receipt), true);
    assert source.attempts[1..] == StageLog(inp, source.end);
    assert Relabeled(inp, SourceGraph, source.attempts[0]) == FirstEntry(inp);
    BootstrappedOk(inp, source, r);
  }

  lemma BootstrapDecides(inp: Inputs, source: SourceStage, r: Routed)
    requires Undecided(inp, source) && source.bootstrap
    requires r.Returned? && r.receipt == Some(source.receipt) && r.bootstrap && r.actual == SourceGraph
    requires r.answer == BootstrapAnswer(inp.op, source.reason) && r.fallbackReason == Some(Shown(inp, source.reason))
    requires r.attempts != [] && r.attempts[1..] == StageLog(inp, source.end)
    ensures Decided(inp, r)
  {
    assert StageLog(inp, source.end) + StaticTail(inp, false) == StageLog(inp, source.end);
    if SourceBlocked(inp).None? {
      assert EndOf(inp, source.end.value, r.receipt.value) && DecidedBy(inp, source.end.value, r);
    }
  }

  lemma BootstrappedOk(inp: Inputs, source: SourceStage, r: Routed)
    requires !NpiWins(inp) && Undecided(inp, source) && source.bootstrap
    requires r.Returned? && r.receipt == Some(source.receipt) && r.bootstrap && r.actual == SourceGraph
    requires r.answer == BootstrapAnswer(inp.op, source.reason) && r.fallbackReason == Some(Shown(inp, source.reason))
    requires LogShape(r.attempts) && AttemptedOk(r)
    requires r.attempts == [FirstEntry(inp)] + StageLog(inp, source.end)
    ensures RouteOk(inp, r)
  {
    assert r.attempts[1..] == StageLog(inp, source.end);
    BootstrapDecides(inp, source, r);
    SourceLogShape(r.attempts);
    assert AnswerSource(inp, r);
  }

  /** The Static slot: a whole recomputation, displaced only by a kept check when it has no fact. */
  method FallBack(inp: Inputs, source: SourceStage) returns (r: Routed)
    requires !NpiWins(inp) && Undecided(inp, source) && !source.bootstrap
    ensures RouteOk(inp, r)
    ensures r.Returned? ==> r.attempts[|r.attempts| - 1].backend == Static
    ensures r.Returned? <==> inp.staticAnswer.StaticAnswered? && OnlyTag(inp.staticAnswer.answer, inp.op, Static)
  {
    if !inp.staticAnswer.StaticAnswered? {
      return Raised(if inp.staticAnswer.StaticCancelled? then Cancelled else StaticFailed);
    }
    var single := SingleBackendProvenance(inp.staticAnswer.answer, inp.op, Static);
    if !single {
      return Raised(MixedStatic);
    }
    r := StaticOrKept(inp, source, inp.staticAnswer.answer);
  }

  method StaticOrKept(inp: Inputs, source: SourceStage, answer: Answer) returns (r: Routed)
    requires !NpiWins(inp) && Undecided(inp, source) && !source.bootstrap
    requires inp.staticAnswer == StaticAnswered(answer) && OnlyTag(answer, inp.op, Static)
    ensures r.Returned? && RouteOk(inp, r) && r.attempts[|r.attempts| - 1].backend == Static
  {
    var unsupported := StaticUnsupported(answer, inp.op);
    var actual := if unsupported && source.kept.Some? then SourceGraph else Static;
    var chosen := if unsupported && source.kept.Some? then source.kept.value else answer;
    var log := source.attempts + [StaticEntry(answer, inp.op)];
    ChosenIsPure(inp, source, answer);
    LogWithStatic(inp, source, answer);
    r := Finalize(inp, Published(chosen, actual), actual, log, Some(source.reason),
                  Some(source.receipt.(fallbackUsed := true)), false);
    assert Relabeled(inp, actual, log[0]) == FirstEntry(inp);
    assert r.attempts == [FirstEntry(inp)] + (StageLog(inp, source.end) + StaticTail(inp, true));
    FallBackOk(inp, source, r);
  }

  lemma ChosenIsPure(inp: Inputs, source: SourceStage, answer: Answer)
    requires Undecided(inp, source) && OnlyTag(answer, inp.op, Static)
    ensures OnlyTag(Published(answer, Static), inp.op, Static)
    ensures source.kept.Some? ==> OnlyTag(Published(source.kept.value, SourceGraph), inp.op, SourceGraph)
  {
    PublishedKeepsProvenance(answer, inp.op, Static);
    if source.kept.Some? {
      PublishedKeepsProvenance(source.kept.value, inp.op, SourceGraph);
    }
  }

  lemma FallBackDecides(inp: Inputs, source: SourceStage, r: Routed)
    requires Undecided(inp, source) && !source.bootstrap
    requires r.Returned? && r.receipt == Some(source.receipt.(fallbackUsed := true)) && !r.bootstrap
    requires r.actual == if KeptWins(inp, source.kept) then SourceGraph else Static
    requires r.fallbackReason == Some(Shown(inp, source.reason))
    requires r.attempts != [] && r.attempts[1..] == StageLog(inp, source.end) + StaticTail(inp, true)
    ensures Decided(inp, r)
  {
    if SourceBlocked(inp).None? {
      assert EndOf(inp, source.end.value, r.receipt.value) && DecidedBy(inp, source.end.value, r);
    }
  }

  lemma FallBackOk(inp: Inputs, source: SourceStage, r: Routed)
    requires !NpiWins(inp) && Undecided(inp, source) && !source.bootstrap && inp.staticAnswer.StaticAnswered?
    requires r.Returned? && r.receipt == Some(source.receipt.(fallbackUsed := true)) && !r.bootstrap
    requires r.actual == if KeptWins(inp, source.kept) then SourceGraph else Static
    requires r.answer ==
      Published(if KeptWins(inp, source.kept) then source.kept.value else inp.staticAnswer.answer, r.actual)
    requires r.fallbackReason == Some(Shown(inp, source.reason))
    requires OnlyTag(r.answer, inp.op, r.actual) && LogShape(r.attempts) && AttemptedOk(r)
    requires r.attempts == [FirstEntry(inp)] + (StageLog(inp, source.end) + StaticTail(inp, true))
    ensures RouteOk(inp, r) && r.attempts[|r.attempts| - 1].backend == Static
  {
    assert r.attempts[1..] == StageLog(inp, source.end) + StaticTail(inp, true);
    FallBackDecides(inp, source, r);
    FallBackSource(inp, source, r);
  }

  lemma FallBackSource(inp: Inputs, source: SourceStage, r: Routed)
    requires Undecided(inp, source) && inp.staticAnswer.StaticAnswered?
    requires r.Returned? && r.receipt == Some(source.receipt.(fallbackUsed := true))
    requires r.actual == if KeptWins(inp, source.kept) then SourceGraph else Static
    requires r.answer ==
      Published(if KeptWins(inp, source.kept) then source.kept.value else inp.staticAnswer.answer, r.actual)
    ensures AnswerSource(inp, r) && ReceiptOk(inp, r.receipt.value)
    ensures r.actual == SourceGraph ==> r.receipt.value.finalArtifact.Some?
  {
  }

  /** The log of a fall-back, and its part after NPI's entry. */
  lemma LogWithStatic(inp: Inputs, source: SourceStage, answer: Answer)
    requires Undecided(inp, source) && inp.staticAnswer == StaticAnswered(answer)
    ensures var log := source.attempts + [StaticEntry(answer, inp.op)];
      LogShape(log) && log[0] == NpiEntry(inp) && log[1..] == StageLog(inp, source.end) + StaticTail(inp, true)
  {
    StaticStandsLast(NpiEntry(inp), StageLog(inp, source.end), StaticEntry(answer, inp.op));
  }

  lemma StaticStandsLast(first: Attempt, source: seq<Attempt>, entry: Attempt)
    requires first.backend == VerdiNpi && AllSourceGraph(source) && entry.backend == Static
    ensures LogShape([first] + source + [entry]) && ([first] + source + [entry])[1..] == source + [entry]
  {
    var log := [first] + source + [entry];
    assert log[1..|log| - 1] == source;
  }

  // ---- What the trail of attempts means ----

  /** Every expansion brings new frontier signals: the accumulated list strictly grows. */
  lemma {:induction false} FrontiersGrow(inp: Inputs, bootstrap: bool, n: nat, fingerprints: seq<string>, j: nat,
                                         k: nat)
    requires Trail(inp, bootstrap, n, fingerprints) && j < k <= n
    ensures KnownBefore(inp, j) < KnownBefore(inp, k)
    decreases k
  {
    assert Discarded(inp, bootstrap, k - 1, fingerprints);
    if j < k - 1 {
      FrontiersGrow(inp, bootstrap, n, fingerprints, j, k - 1);
    }
  }

  /** No two attempts have built the same artifact. */
  ghost predicate Distinct(fingerprints: seq<string>) {
    forall j, k | 0 <= j < k < |fingerprints| :: fingerprints[j] != fingerprints[k]
  }

  /** No attempt has selected an artifact that is already recorded. */
  ghost predicate SelectsNew(inp: Inputs, fingerprints: seq<string>) {
    forall k: nat | k < |fingerprints| && Recorded(inp, k) != Requested(inp, k) ::
      Recorded(inp, k) !in fingerprints[..k]
  }

  lemma RecordedAtMost(inp: Inputs, bootstrap: bool, s: Search, k: nat)
    requires EndsAt(inp, bootstrap, s, s.receipt.scopeExpansions) && k <= s.receipt.scopeExpansions
    ensures s.receipt.fingerprints[k] == Recorded(inp, k)
    ensures Requested(inp, k) !in s.receipt.fingerprints[..k]
  {
    if k < s.receipt.scopeExpansions {
      RecordedAt(inp, bootstrap, s, k);
    }
    if k > 0 {
      RecordedAt(inp, bootstrap, s, k - 1);
    }
  }

  /**
    The recorded artifacts are distinct exactly when every attempt that selected another
    artifact than it asked for selected one that was not recorded before.
   */
  lemma RecordedDistinctIff(inp: Inputs, bootstrap: bool, s: Search)
    requires EndsAt(inp, bootstrap, s, s.receipt.scopeExpansions)
    ensures Distinct(s.receipt.fingerprints) <==> SelectsNew(inp, s.receipt.fingerprints)
  {
    var f := s.receipt.fingerprints;
    if Distinct(f) {
      forall k: nat | k < |f| ensures Recorded(inp, k) !in f[..k] {
        RecordedAtMost(inp, bootstrap, s, k);
      }
    }
    if SelectsNew(inp, f) {
      forall j, k | 0 <= j < k < |f| ensures f[j] != f[k] {
        RecordedAtMost(inp, bootstrap, s, k);
        assert f[j] == f[..k][j];
      }
    }
  }

  // ---- Routes whose log does not mention the Source Graph ----

  /**
    The first attempt wants more scope but may not or cannot grow, decides nothing, and keeps
    nothing that is not logged already.
   */
  ghost predicate Silent(inp: Inputs) {
    var bootstrap, run := BootstrapActive(inp), RunAt(inp, 0);
    var provenanceOk := ProvenanceOk(run, inp.op);
    && SourceBlocked(inp).None? && inp.execute(0).Executed?
    && Unlogged(inp, bootstrap, 0, run, provenanceOk) && !Conclusive(run, bootstrap, provenanceOk)
    && (KeptInconclusive(run, inp.op, bootstrap, provenanceOk).Some? ==>
          NpiEntry(inp).reason == Some(StopReason(inp, bootstrap, 0)))
  }

  ghost predicate NoSourceGraph(attempts: seq<Attempt>) {
    forall i | 0 <= i < |attempts| :: attempts[i].backend != SourceGraph
  }

  /** A search whose entries are none ended at its first attempt, unlogged. */
  lemma SourceLogEmptyIff(inp: Inputs, s: Search)
    requires EndsAt(inp, BootstrapActive(inp), s, s.receipt.scopeExpansions) && SourceBlocked(inp).None?
    ensures SourceLog(inp, s) == [] <==> Silent(inp)
  {
    if Silent(inp) && s.receipt.scopeExpansions > 0 {
      RecordedAt(inp, BootstrapActive(inp), s, 0);
    }
    if s.receipt.scopeExpansions == 0 {
      assert SearchLog(inp, BootstrapActive(inp), 0) == StopEntry(inp, BootstrapActive(inp), 0);
      if StopEntry(inp, BootstrapActive(inp), 0) == [] {
        assert [NpiEntry(inp)] + SearchLog(inp, BootstrapActive(inp), 0) == [NpiEntry(inp)];
      }
    }
  }

  lemma TailHasNoSourceGraph(first: Attempt, source: seq<Attempt>, rest: seq<Attempt>)
    requires first.backend == VerdiNpi && AllSourceGraph(source)
    requires |rest| <= 1 && (rest != [] ==> rest[0].backend == Static)
    ensures NoSourceGraph([first] + (source + rest)) <==> source == []
  {
    if source != [] {
      assert ([first] + (source + rest))[1] == source[0];
    }
  }

  lemma SearchedLogIff(inp: Inputs, s: Search, first: Attempt, tail: seq<Attempt>)
    requires EndsAt(inp, BootstrapActive(inp), s, s.receipt.scopeExpansions) && SourceBlocked(inp).None?
    requires first.backend == VerdiNpi && |tail| <= 1 && (tail != [] ==> tail[0].backend == Static)
    ensures NoSourceGraph([first] + (SourceLog(inp, s) + tail)) <==> Silent(inp)
  {
    SourceLogEmptyIff(inp, s);
    TailHasNoSourceGraph(first, SourceLog(inp, s), tail);
  }

  /** The search that a route not blocked and not answered by NPI comes from. */
  lemma SearchOf(inp: Inputs, r: Routed) returns (s: Search)
    requires RouteOk(inp, r) && r.Returned? && !NpiWins(inp) && SourceBlocked(inp).None?
    ensures EndOf(inp, s, r.receipt.value) && DecidedBy(inp, s, r)
    ensures EndsAt(inp, BootstrapActive(inp), s, s.receipt.scopeExpansions)
    ensures r.attempts[1..] == SourceLog(inp, s) + StaticTail(inp, r.receipt.value.fallbackUsed)
  {
    assert Decided(inp, r);
    s :| EndOf(inp, s, r.receipt.value) && DecidedBy(inp, s, r);
  }

  /** A returned log has no Source Graph entry exactly when NPI answered or the first attempt was silent. */
  lemma NoSourceEntryIff(inp: Inputs, r: Routed)
    requires RouteOk(inp, r) && r.Returned?
    ensures NoSourceGraph(r.attempts) <==> NpiWins(inp) || Silent(inp)
  {
    if !NpiWins(inp) {
      var tail := StaticTail(inp, r.receipt.value.fallbackUsed);
      assert r.attempts == [r.attempts[0]] + r.attempts[1..];
      if SourceBlocked(inp).Some? {
        TailHasNoSourceGraph(r.attempts[0], [BlockedEntry(inp)], tail);
      } else {
        var s := SearchOf(inp, r);
        SearchedLogIff(inp, s, r.attempts[0], tail);
      }
    }
  }

  /** A checked answer, for the examples below. */
  function Checked(b: Backend, complete: string): Answer {
    Answer(Some(b), [], [], "unknown", None, None, complete, None, None, false, false, "", None, false, false)
  }

  const SCOPED_QUERY: Query := Query("inconclusive", {"hierarchy_projection_scoped"}, 0, "partial")

  /** A ready artifact whose own, checked answer names one more signal to bring into scope. */
  function Wanting(selected: Option<string>, frontier: string): Execution {
    Execution(Some(Prepared(true, false, selected)), Some(Checked(SourceGraph, "")), Some(SCOPED_QUERY), [frontier], "")
  }

  lemma WantingWants(selected: Option<string>, frontier: string, op: Operation)
    ensures var run := Wanting(selected, frontier);
      WantsExpansion(run, op, false, ProvenanceOk(run, op)) && !Conclusive(run, false, ProvenanceOk(run, op))
  {
    assert "hierarchy_projection_scoped" in SCOPED_QUERY.gapCodes * SCOPE_GAPS;
    assert SCOPED_QUERY.gapCodes * NON_EXPANDABLE == {};
  }

  /** Loads whose only frontier is known already: an artifact is built and queried, and the log does not say so. */
  lemma SilentRoute() returns (inp: Inputs)
    ensures Proceeds(inp) && StagesPassed(inp) && !NpiWins(inp) && Silent(inp)
    ensures inp.staticAnswer.StaticAnswered? && OnlyTag(inp.staticAnswer.answer, inp.op, Static)
  {
    var execute: nat -> ExecutionOutcome := (k: nat) => Executed(Wanting(None, "top.a"));
    var expand: nat -> Expansion := (k: nat) => ExpansionFailed;
    inp := Inputs(Loads, Passed, NpiRaised, false, false, true, Config(true, true, None, 4),
                  Passed, Context(true, true, false, None), Passed, PlanReady("d", ["top.a"]), false,
                  execute, expand, StaticAnswered(Checked(Static, "")));
    WantingWants(None, "top.a", Loads);
    assert NewItems(["top.a"], ["top.a"]) == [] + NewItems([], ["top.a"]);
  }

  lemma NewSignals(a: string, b: string)
    requires a != b
    ensures NewItems([a], []) == [a] && NewItems([b], [a]) == [b] && NewItems([b], [a, b]) == []
  {
    assert NewItems([a], []) == [a] + NewItems([], []);
    assert NewItems([b], [a]) == [b] + NewItems([], [a]);
    assert NewItems([b], [a, b]) == [] + NewItems([], [a, b]);
  }

  /** A dominating artifact can be selected again: then three attempts record one digest. */
  lemma SelectedArtifactMayRepeat() returns (inp: Inputs, s: Search)
    ensures EndsAt(inp, false, s, 2) && s.receipt.fingerprints == ["d", "d", "d"] && !Distinct(s.receipt.fingerprints)
  {
    var execute: nat -> ExecutionOutcome := (k: nat) =>
      Executed(Wanting(Some("d"), if k == 0 then "top.a" else "top.b"));
    var expand: nat -> Expansion := (k: nat) => Expanded(if k == 0 then "r1" else "r2");
    inp := Inputs(Driver, Passed, NpiRaised, false, false, true, Config(true, true, None, 4),
                  Passed, Context(true, true, false, None), Passed, PlanReady("d", []), false,
                  execute, expand, StaticRaised);
    WantingWants(Some("d"), "top.a", Driver);
    WantingWants(Some("d"), "top.b", Driver);
    NewSignals("top.a", "top.b");
    assert KnownBefore(inp, 1) == ["top.a"] && KnownBefore(inp, 2) == ["top.a", "top.b"];
    var f := ["d", "d"];
    assert Discarded(inp, false, 0, f) && Discarded(inp, false, 1, f);
    s := Search(RunAt(inp, 2), Receipt(3, 2, QueriesMade(inp, 3), f + ["d"], None, false), "d",
                StopReason(inp, false, 2), [], KnownBefore(inp, 2), ProvenanceOk(RunAt(inp, 2), inp.op));
    assert s.receipt.fingerprints[..2] == f && s.receipt.fingerprints[0] == s.receipt.fingerprints[1];
  }
}
