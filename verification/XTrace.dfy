/**
  Tracing an X value back through its drivers: NPI, then one Source Graph artifact whose
  scope grows by whole restarts, then Static. A trace asks its backend for one driver after
  another; those answers are inputs, indexed by restart.
 */
module XTrace {
  import opened Wrappers
  import opened Connectivity

  // ---- One trace attempt ----

  /** What one driver lookup of an NPI trace comes to. */
  datatype Lookup = LookupCancelled | LookupRaised | LookupAnswered(answer: Answer, degraded: bool)

  /** What the source scan finds for one signal; it sets no backend tag. */
  datatype Hop = Hop(
    driverStatus: string, driverKind: Option<string>, topLevel: bool, unsupportedReason: Option<string>,
    hasSource: bool, hasUpstream: bool, facts: string)

  /** What one driver lookup of a Static trace comes to; it is never recursive. */
  datatype StaticLookup = StaticCancelled | StaticRaised | StaticFound(hop: Hop)

  /** What one step of a Source Graph trace comes to, before the artifact guard judges it. */
  datatype GuardedLookup =
    | GuardCancelled
    | GuardRaised
    | OutOfScope(paths: seq<string>)
    | Unsafe(code: string)
    | GuardAnswered(answer: Answer, status: string, coverage: string, openChildren: seq<string>)

  datatype TraceEnd =
    | Chain(nodes: seq<Answer>)
    | TraceCancelled
    | TraceFailed
    | BackendFallback(reason: string, degraded: bool)
    | ScopeExpansion(paths: seq<string>)
    | FallbackRequired(code: string)

  /** A chain node: the driver answer without its routing receipts. */
  function Node(answer: Answer): Answer {
    answer.(npiFallbackReason := None, npiCallError := false, fallbackDeferred := false)
  }

  /** Every explicit tag in the chain names `backend`. */
  ghost predicate SingleTagged(nodes: seq<Answer>, backend: Backend) {
    forall i | 0 <= i < |nodes| :: OnlyTag(nodes[i], Driver, backend)
  }

  /** An NPI lookup whose answer may enter the chain. */
  ghost predicate NpiNodeOk(l: Lookup) {
    && l.LookupAnswered?
    && l.answer.npiFallbackReason.None? && !l.answer.fallbackDeferred
    && OnlyTag(l.answer, Driver, VerdiNpi)
    && (l.degraded ==> ProvesDriver(l.answer))
  }

  /** The first lookup whose answer may not. */
  ghost predicate FirstForeign(lookups: seq<Lookup>, n: nat) {
    n < |lookups| && !NpiNodeOk(lookups[n]) && forall i | 0 <= i < n :: NpiNodeOk(lookups[i])
  }

  /** What it makes of the whole attempt. */
  ghost function NpiEnd(l: Lookup): TraceEnd {
    match l
    case LookupCancelled => TraceCancelled
    case LookupRaised => TraceFailed
    case LookupAnswered(answer, degraded) =>
      BackendFallback(if answer.npiFallbackReason.Some? then answer.npiFallbackReason.value
                      else if degraded && !ProvesDriver(answer) then "npi_degraded_result_inconclusive"
                      else "npi_result_not_usable", degraded)
  }

  /** The NPI attempt: the first answer that is not NPI's own aborts the whole trace. */
  method NpiTrace(lookups: seq<Lookup>) returns (r: TraceEnd)
    ensures r.Chain? <==> forall i | 0 <= i < |lookups| :: NpiNodeOk(lookups[i])
    ensures r.Chain? ==> |r.nodes| == |lookups|
    ensures r.Chain? ==> forall i | 0 <= i < |lookups| :: r.nodes[i] == Node(lookups[i].answer)
    ensures r.Chain? ==> SingleTagged(r.nodes, VerdiNpi)
    ensures !r.Chain? ==> exists n: nat :: FirstForeign(lookups, n) && r == NpiEnd(lookups[n])
  {
    var nodes: seq<Answer> := [];
    for n := 0 to |lookups|
      invariant |nodes| == n
      invariant forall i | 0 <= i < n :: NpiNodeOk(lookups[i]) && nodes[i] == Node(lookups[i].answer)
    {
      assert !NpiNodeOk(lookups[n]) ==> FirstForeign(lookups, n);
      match lookups[n] {
        case LookupCancelled => return TraceCancelled;
        case LookupRaised => return TraceFailed;
        case LookupAnswered(answer, degraded) =>
          var single := SingleBackendProvenance(answer, Driver, VerdiNpi);
          PositiveFactIff(answer);
          var inconclusive := degraded && !HasPositiveFact(answer);
          if answer.npiFallbackReason.Some? || answer.fallbackDeferred || !single || inconclusive {
            return BackendFallback(
              if answer.npiFallbackReason.Some? then answer.npiFallbackReason.value
              else if inconclusive then "npi_degraded_result_inconclusive" else "npi_result_not_usable", degraded);
          }
          nodes := nodes + [Node(answer)];
      }
    }
    forall i | 0 <= i < |nodes| ensures OnlyTag(nodes[i], Driver, VerdiNpi) {
      assert NpiNodeOk(lookups[i]);
      NodeKeepsTags(lookups[i].answer, VerdiNpi);
    }
    return Chain(nodes);
  }

  lemma NodeKeepsTags(answer: Answer, backend: Backend)
    ensures OnlyTag(Node(answer), Driver, backend) <==> OnlyTag(answer, Driver, backend)
  {
    assert Hops(Node(answer), Driver) == Hops(answer, Driver);
  }

  predicate KnownReceipt(status: string, coverage: string) {
    && status in ["found", "not_connected", "inconclusive"]
    && coverage in ["complete", "partial", "inconclusive"]
  }

  ghost predicate ReceiptKnown(status: string, coverage: string) {
    && (status == "found" || status == "not_connected" || status == "inconclusive")
    && (coverage == "complete" || coverage == "partial" || coverage == "inconclusive")
  }

  /** A Source Graph lookup that settles its signal: a driver, or an exhaustive absence. */
  ghost predicate Settled(g: GuardedLookup) {
    && g.GuardAnswered?
    && ReceiptKnown(g.status, g.coverage)
    && g.answer.backend == Some(SourceGraph) && OnlyTag(g.answer, Driver, SourceGraph)
    && (|| (g.status == "found" && g.answer.driverStatus == "resolved")
        || (g.status == "not_connected" && g.coverage == "complete" && g.answer.driverStatus == "not_connected"))
  }

  /** The signals a lookup needs in scope before it can be settled; none when a wider scope does not help. */
  ghost function WantedScope(g: GuardedLookup): seq<string> {
    match g
    case OutOfScope(paths) => paths
    case GuardAnswered(answer, status, coverage, openChildren) =>
      if ReceiptKnown(status, coverage) && status == "inconclusive"
         && answer.backend == Some(SourceGraph) && OnlyTag(answer, Driver, SourceGraph)
      then openChildren else []
    case _ => []
  }

  /** Why an unsettled lookup that wants no scope ends its attempt. */
  ghost function UnsettledCode(g: GuardedLookup): string {
    match g
    case Unsafe(code) => code
    case GuardAnswered(answer, status, coverage, _) =>
      if !ReceiptKnown(status, coverage) then "source_graph_trace_query_receipt_invalid"
      else if answer.backend != Some(SourceGraph) || !OnlyTag(answer, Driver, SourceGraph)
      then "source_graph_trace_mixed_provenance"
      else if status == "found" then "source_graph_trace_positive_mapping_invalid"
      else if status == "not_connected" && coverage == "complete" then "source_graph_trace_negative_mapping_invalid"
      else if status == "not_connected" then "source_graph_trace_incomplete_negative"
      else "source_graph_trace_query_inconclusive"
    case _ => "source_graph_trace_query_failed"
  }

  /** What an unsettled lookup makes of the whole attempt. */
  ghost predicate Aborts(g: GuardedLookup, r: TraceEnd) {
    && !Settled(g) && !r.Chain? && !r.BackendFallback?
    && (r.ScopeExpansion? <==> WantedScope(g) != []) && (r.ScopeExpansion? ==> r.paths == WantedScope(g))
    && (r.TraceCancelled? <==> g.GuardCancelled?)
    && (r.TraceFailed? <==> g.GuardRaised? || g == OutOfScope([]))
    && (r.FallbackRequired? ==> r.code == UnsettledCode(g))
  }

  /** The guarded lookup: a fact, or the reason why the artifact cannot support the trace. */
  method GuardLookup(g: GuardedLookup) returns (r: TraceEnd)
    ensures Settled(g) <==> r.Chain?
    ensures r.Chain? ==> r.nodes == [Node(g.answer)]
    ensures !r.Chain? ==> Aborts(g, r)
  {
    match g {
      case GuardCancelled => return TraceCancelled;
      case GuardRaised => return TraceFailed;
      case OutOfScope(paths) => return if paths == [] then TraceFailed else ScopeExpansion(paths);
      case Unsafe(code) => return FallbackRequired(code);
      case GuardAnswered(answer, status, coverage, openChildren) =>
        if !KnownReceipt(status, coverage) {
          return FallbackRequired("source_graph_trace_query_receipt_invalid");
        }
        var single := SingleBackendProvenance(answer, Driver, SourceGraph);
        if !single || answer.backend != Some(SourceGraph) {
          return FallbackRequired("source_graph_trace_mixed_provenance");
        }
        if status == "found" {
          return if answer.driverStatus == "resolved" then Chain([Node(answer)])
                 else FallbackRequired("source_graph_trace_positive_mapping_invalid");
        }
        if status == "not_connected" && coverage == "complete" {
          return if answer.driverStatus == "not_connected" then Chain([Node(answer)])
                 else FallbackRequired("source_graph_trace_negative_mapping_invalid");
        }
        if status == "not_connected" {
          return FallbackRequired("source_graph_trace_incomplete_negative");
        }
        return if openChildren != [] then ScopeExpansion(openChildren)
               else FallbackRequired("source_graph_trace_query_inconclusive");
    }
  }

  /** The first lookup that is not settled. */
  ghost predicate FirstUnsettled(steps: seq<GuardedLookup>, n: nat) {
    n < |steps| && !Settled(steps[n]) && forall i | 0 <= i < n :: Settled(steps[i])
  }

  /** One Source Graph attempt on one artifact: every node settled, or the first that is not ends it. */
  method SourceTrace(steps: seq<GuardedLookup>) returns (r: TraceEnd)
    ensures r.Chain? <==> forall i | 0 <= i < |steps| :: Settled(steps[i])
    ensures r.Chain? ==> |r.nodes| == |steps|
    ensures r.Chain? ==> forall i | 0 <= i < |steps| :: r.nodes[i] == Node(steps[i].answer)
    ensures r.Chain? ==> SingleTagged(r.nodes, SourceGraph)
    ensures !r.Chain? ==> exists n: nat :: FirstUnsettled(steps, n) && Aborts(steps[n], r)
  {
    var nodes: seq<Answer> := [];
    for n := 0 to |steps|
      invariant |nodes| == n
      invariant forall i | 0 <= i < n :: Settled(steps[i]) && nodes[i] == Node(steps[i].answer)
    {
      var one := GuardLookup(steps[n]);
      if !one.Chain? {
        assert FirstUnsettled(steps, n);
        return one;
      }
      nodes := nodes + one.nodes;
    }
    forall i | 0 <= i < |nodes| ensures OnlyTag(nodes[i], Driver, SourceGraph) {
      assert Settled(steps[i]);
      NodeKeepsTags(steps[i].answer, SourceGraph);
    }
    return Chain(nodes);
  }

  /** `_single_hop_stop_reason`. */
  function HopStop(hop: Hop): Option<string> {
    if hop.driverKind == Some("instance_ports") || hop.driverKind == Some("instance_port") then Some("port_boundary")
    else if hop.driverKind == Some("always_ff") then Some("register_boundary")
    else if hop.driverKind == Some("input_port") then Some(if hop.topLevel then "primary_input" else "port_boundary")
    else if hop.driverStatus == "unsupported" || hop.driverStatus == "partial" then Some("unresolved")
    else None
  }

  /** `_explain_single`: one hop with the tag that `_strip_internal_fields` gives it, and no driver chain. */
  function ExplainSingle(hop: Hop): Answer {
    Answer(Some(Static), [], [], hop.driverStatus, hop.driverKind, None, "", HopStop(hop), hop.unsupportedReason,
           hop.hasSource, hop.hasUpstream, hop.facts, None, false, false)
  }

  /** Where a Static chain stops is told by the driver's kind, and only without a known one by its status. */
  lemma StaticStopIs(hop: Hop)
    ensures var node := Node(ExplainSingle(hop));
      var atPort := hop.driverKind in [Some("instance_ports"), Some("instance_port")];
      var atInput, atRegister := hop.driverKind == Some("input_port"), hop.driverKind == Some("always_ff");
      && node.backend == Some(Static) && node.driverChain == [] && node.driverStatus == hop.driverStatus
      && (node.stoppedAt == Some("primary_input") <==> atInput && hop.topLevel)
      && (node.stoppedAt == Some("port_boundary") <==> atPort || (atInput && !hop.topLevel))
      && (node.stoppedAt == Some("register_boundary") <==> atRegister)
      && (node.stoppedAt == Some("unresolved") <==>
            !atPort && !atInput && !atRegister && hop.driverStatus in ["unsupported", "partial"])
      && (node.stoppedAt == None <==>
            !atPort && !atInput && !atRegister && hop.driverStatus !in ["unsupported", "partial"])
  {
  }

  /** A chain node says all that the answer says, less the routing receipts. */
  lemma NodeIs(answer: Answer)
    ensures var n := Node(answer);
      && n.npiFallbackReason == None && !n.npiCallError && !n.fallbackDeferred && n.backend == answer.backend
      && n.driverChain == answer.driverChain && n.loads == answer.loads && n.driverStatus == answer.driverStatus
      && n.driverKind == answer.driverKind && n.returnedFacts == answer.returnedFacts
      && n.completeness == answer.completeness && n.stoppedAt == answer.stoppedAt
      && n.unsupportedReason == answer.unsupportedReason && n.hasSource == answer.hasSource
      && n.hasUpstream == answer.hasUpstream && n.facts == answer.facts
  {
  }

  /** The Static attempt checks no tag, and needs to check none. */
  method StaticTrace(lookups: seq<StaticLookup>) returns (r: TraceEnd)
    ensures r.Chain? <==> forall i | 0 <= i < |lookups| :: lookups[i].StaticFound?
    ensures r.Chain? ==> |r.nodes| == |lookups| && SingleTagged(r.nodes, Static)
    ensures r.Chain? ==> forall i | 0 <= i < |lookups| :: r.nodes[i] == Node(ExplainSingle(lookups[i].hop))
    ensures r.Chain? || (r.TraceCancelled? && StaticCancelled in lookups) || (r.TraceFailed? && StaticRaised in lookups)
  {
    var nodes: seq<Answer> := [];
    for n := 0 to |lookups|
      invariant |nodes| == n
      invariant forall i | 0 <= i < n :: lookups[i].StaticFound? && nodes[i] == Node(ExplainSingle(lookups[i].hop))
    {
      match lookups[n] {
        case StaticCancelled => return TraceCancelled;
        case StaticRaised => return TraceFailed;
        case StaticFound(hop) => nodes := nodes + [Node(ExplainSingle(hop))];
      }
    }
    return Chain(nodes);
  }

  // ---- The whole trace ----

  datatype TracePlan = PlanCancelled | PlanFailed | PlanBlocked(code: string) | PlanReady(digest: string)

  datatype Preparation =
    | PreparationCancelled
    | PreparationFailed(reason: string)
    | NotReady(reason: string, timedOut: bool)
    | Ready(digest: string)

  datatype Inputs = Inputs(
    signal: string,
    npiSelected: bool, npiReason: string, npiInitFailed: bool, npiLookups: seq<Lookup>,
    sourceBlocked: Option<string>,
    maxInstances: nat,
    plan: nat -> TracePlan, prepare: nat -> Preparation, guarded: nat -> seq<GuardedLookup>,
    staticLookups: seq<StaticLookup>)

  datatype Restart = NpiRestart | ExpansionRestart | StaticRestart

  datatype Receipt = Receipt(artifactAttempts: nat, scopeExpansions: nat, fingerprints: seq<string>)

  datatype Traced =
    | TraceRaised(cancelled: bool)
    | Traced(chain: seq<Answer>, actual: Backend, attempts: seq<Attempt>, restarts: seq<Restart>,
             fallbackReason: Option<string>, receipt: Option<Receipt>)

  /** `dict.fromkeys`: the first occurrence of each path, in order. */
  function Dedup(paths: seq<string>): (r: seq<string>)
    ensures forall x :: x in r <==> x in paths
    ensures Distinct(r)
  {
    if paths == [] then []
    else
      var n := |paths| - 1;
      var rest := Dedup(paths[..n]);
      if paths[n] in rest then rest else rest + [paths[n]]
  }

  ghost predicate Distinct(items: seq<string>) {
    forall i, j | 0 <= i < j < |items| :: items[i] != items[j]
  }

  function NotIn(items: seq<string>, known: seq<string>): (r: seq<string>)
    ensures forall x :: x in r <==> x in items && x !in known
    ensures Distinct(items) ==> Distinct(r)
  {
    if items == [] then []
    else
      var n := |items| - 1;
      var rest := NotIn(items[..n], known);
      if items[n] in known then rest else rest + [items[n]]
  }

  datatype SourceSearch =
    | SearchRaised
    | SearchDone(chain: Option<seq<Answer>>, status: string, reason: string, receipt: Receipt,
        restarts: seq<Restart>, targets: seq<string>)

  /** The attempt's first unsettled lookup, if there is one. */
  ghost function Culprit(steps: seq<GuardedLookup>): Option<GuardedLookup> {
    if n: nat :| FirstUnsettled(steps, n) then Some(steps[n]) else None
  }

  /** What it wants in scope. */
  ghost function Wanted(steps: seq<GuardedLookup>): seq<string> {
    if Culprit(steps).Some? then WantedScope(Culprit(steps).value) else []
  }

  /** The scope targets of attempt `k`. */
  ghost function TargetsAt(inp: Inputs, k: nat): seq<string> {
    if k == 0 then [inp.signal]
    else TargetsAt(inp, k - 1) + NotIn(Dedup(Wanted(inp.guarded(k - 1))), TargetsAt(inp, k - 1))
  }

  /** Attempt `k` was discarded, whole, for signals out of its scope that are new and fit the limit. */
  ghost predicate Restarted(inp: Inputs, k: nat) {
    && inp.plan(k).PlanReady? && inp.prepare(k).Ready?
    && TargetsAt(inp, k) < TargetsAt(inp, k + 1)
    && |TargetsAt(inp, k + 1)| <= inp.maxInstances
  }

  ghost predicate AllSettled(steps: seq<GuardedLookup>) {
    forall i | 0 <= i < |steps| :: Settled(steps[i])
  }

  /** Attempt `n` is the last: all before it were restarted, it is not. */
  ghost predicate LastAttempt(inp: Inputs, n: nat) {
    (forall k: nat | k < n :: Restarted(inp, k)) && !Restarted(inp, n)
  }

  /** The last attempt's artifact was built and settles the whole trace. */
  ghost predicate SourceConcludes(inp: Inputs, n: nat) {
    LastAttempt(inp, n) && inp.plan(n).PlanReady? && inp.prepare(n).Ready? && AllSettled(inp.guarded(n))
  }

  // ---- Why the last attempt gives no chain ----

  /** Its artifact was built: by its first unsettled lookup, and by whether wider scope was to be had. */
  ghost function TraceReason(inp: Inputs, n: nat): string {
    if Wanted(inp.guarded(n)) != [] then
      if TargetsAt(inp, n + 1) == TargetsAt(inp, n) then "source_graph_scope_expansion_stalled"
      else "source_graph_frontier_instance_limit"
    else if Culprit(inp.guarded(n)).Some? then UnsettledCode(Culprit(inp.guarded(n)).value) else ""
  }

  ghost function TraceStatus(steps: seq<GuardedLookup>): string {
    if Culprit(steps).None? then "success"
    else if Wanted(steps) != [] then "blocked"
    else if Culprit(steps).value.Unsafe? || Culprit(steps).value.GuardAnswered? then "inconclusive" else "failed"
  }

  ghost function EndReason(inp: Inputs, n: nat): string {
    match inp.plan(n)
    case PlanCancelled => ""
    case PlanFailed => "source_graph_adapter_failed"
    case PlanBlocked(code) => "source_graph_" + code
    case PlanReady(_) =>
      match inp.prepare(n)
      case PreparationCancelled => ""
      case PreparationFailed(reason) => reason
      case NotReady(reason, _) => reason
      case Ready(_) => TraceReason(inp, n)
  }

  ghost function EndStatus(inp: Inputs, n: nat): string {
    if inp.plan(n).PlanBlocked? then "blocked"
    else if !inp.plan(n).PlanReady? then "failed"
    else if inp.prepare(n).Ready? then TraceStatus(inp.guarded(n))
    else if inp.prepare(n).NotReady? && inp.prepare(n).timedOut then "timed_out" else "failed"
  }

  /** The artifact recorded for attempt `k`: the built one's, where one was built. */
  ghost function DigestAt(inp: Inputs, k: nat): string {
    if inp.plan(k).PlanReady? && inp.prepare(k).Ready? then inp.prepare(k).digest
    else if inp.plan(k).PlanReady? then inp.plan(k).digest else ""
  }

  /** The artifacts recorded after `n` restarts: one an attempt, the last one's only if it was planned. */
  ghost predicate RecordedOk(inp: Inputs, n: nat, fingerprints: seq<string>) {
    && |fingerprints| == (if inp.plan(n).PlanReady? then n + 1 else n)
    && forall k: nat | k < |fingerprints| :: fingerprints[k] == DigestAt(inp, k)
  }

  /** The inputs decide how many attempts there are. */
  lemma LastAttemptIsUnique(inp: Inputs, m: nat, n: nat)
    requires LastAttempt(inp, m) && LastAttempt(inp, n)
    ensures m == n
  {
  }

  lemma FirstIsUnique(steps: seq<GuardedLookup>, m: nat, n: nat)
    requires FirstUnsettled(steps, m) && FirstUnsettled(steps, n)
    ensures m == n
  {
  }

  lemma WantedIsFirst(steps: seq<GuardedLookup>, n: nat)
    requires FirstUnsettled(steps, n)
    ensures Culprit(steps) == Some(steps[n]) && Wanted(steps) == WantedScope(steps[n])
  {
    forall m: nat | FirstUnsettled(steps, m) ensures m == n {
      FirstIsUnique(steps, m, n);
    }
  }

  lemma SettledWantsNothing(steps: seq<GuardedLookup>)
    requires AllSettled(steps)
    ensures Culprit(steps) == None && Wanted(steps) == []
  {
  }

  /** The scope targets of the search: distinct, within the limit, one more at least per restart. */
  ghost predicate TargetsOk(inp: Inputs, targets: seq<string>, expansions: nat) {
    && Distinct(targets)
    && inp.signal in targets
    && expansions < |targets|
    && (|targets| <= inp.maxInstances || |targets| == 1)
  }

  /** Artifacts built so far: one per restart, and the current one if it was prepared. */
  ghost predicate AttemptsOk(receipt: Receipt) {
    && |receipt.fingerprints| == receipt.artifactAttempts
    && receipt.scopeExpansions <= receipt.artifactAttempts <= receipt.scopeExpansions + 1
  }

  /** Some plan, preparation or lookup of the search was cancelled. */
  ghost predicate SearchCancelled(inp: Inputs) {
    exists k: nat :: inp.plan(k).PlanCancelled? || inp.prepare(k).PreparationCancelled?
      || GuardCancelled in inp.guarded(k)
  }

  /** How an attempt ends decides the next attempt's targets. */
  lemma EndWants(inp: Inputs, k: nat, end: TraceEnd)
    requires end.Chain? <==> AllSettled(inp.guarded(k))
    requires !end.Chain? ==> exists n: nat :: FirstUnsettled(inp.guarded(k), n) && Aborts(inp.guarded(k)[n], end)
    ensures !end.ScopeExpansion? ==> TargetsAt(inp, k + 1) == TargetsAt(inp, k)
    ensures end.ScopeExpansion? ==>
      && !AllSettled(inp.guarded(k))
      && TargetsAt(inp, k + 1) == TargetsAt(inp, k) + NotIn(Dedup(end.paths), TargetsAt(inp, k))
    ensures end.TraceCancelled? ==> SearchCancelled(inp)
  {
    var steps := inp.guarded(k);
    if end.Chain? {
      SettledWantsNothing(steps);
    } else {
      var n: nat :| FirstUnsettled(steps, n) && Aborts(steps[n], end);
      WantedIsFirst(steps, n);
      assert end.TraceCancelled? ==> steps[n] in inp.guarded(k);
    }
  }

  /** And it decides what an attempt without a chain is logged as. */
  lemma EndReasons(inp: Inputs, k: nat, end: TraceEnd)
    requires end.Chain? <==> AllSettled(inp.guarded(k))
    requires !end.Chain? ==> exists n: nat :: FirstUnsettled(inp.guarded(k), n) && Aborts(inp.guarded(k)[n], end)
    ensures end.Chain? ==> TraceStatus(inp.guarded(k)) == "success" && TraceReason(inp, k) == ""
    ensures end.FallbackRequired? ==>
      TraceStatus(inp.guarded(k)) == "inconclusive" && TraceReason(inp, k) == end.code
    ensures end.ScopeExpansion? ==> TraceStatus(inp.guarded(k)) == "blocked" && Wanted(inp.guarded(k)) == end.paths
    ensures end.ScopeExpansion? ==> end.paths != []
    ensures end.TraceFailed? ==>
      TraceStatus(inp.guarded(k)) == "failed" && TraceReason(inp, k) == "source_graph_trace_query_failed"
    ensures !end.BackendFallback?
  {
    var steps := inp.guarded(k);
    if end.Chain? {
      SettledWantsNothing(steps);
    } else {
      var n: nat :| FirstUnsettled(steps, n) && Aborts(steps[n], end);
      WantedIsFirst(steps, n);
    }
  }

  datatype ScopeRound =
    | RoundRaised
    | RoundEnded(chain: Option<seq<Answer>>, status: string, reason: string, fingerprints: seq<string>)
    | RoundGoesOn(added: seq<string>, fingerprints: seq<string>)

  /** An attempt whose artifact was not built is the last. */
  ghost predicate EndsUnbuilt(inp: Inputs, k: nat, r: ScopeRound, recorded: seq<string>) {
    && !(inp.plan(k).PlanReady? && inp.prepare(k).Ready?)
    && (if r.RoundRaised? then inp.plan(k).PlanCancelled? || inp.prepare(k).PreparationCancelled?
        else r == RoundEnded(None, EndStatus(inp, k), EndReason(inp, k), recorded))
  }

  /** The plan of an artifact, and its preparation; `recorded` are the artifacts recorded then. */
  method Build(inp: Inputs, k: nat, before: seq<string>) returns (end: Option<ScopeRound>, recorded: seq<string>)
    requires |before| == k
    ensures end.None? ==>
      inp.plan(k).PlanReady? && inp.prepare(k).Ready? && recorded == before + [inp.prepare(k).digest]
    ensures end.Some? ==>
      && EndsUnbuilt(inp, k, end.value, recorded)
      && recorded == before + (if inp.plan(k).PlanReady? then [inp.plan(k).digest] else [])
  {
    recorded := before;
    match inp.plan(k) {
      case PlanCancelled => return Some(RoundRaised), recorded;
      case PlanFailed => return Some(RoundEnded(None, "failed", "source_graph_adapter_failed", recorded)), recorded;
      case PlanBlocked(code) => return Some(RoundEnded(None, "blocked", "source_graph_" + code, recorded)), recorded;
      case PlanReady(digest) => recorded := recorded + [digest];
    }
    match inp.prepare(k) {
      case PreparationCancelled => return Some(RoundRaised), recorded;
      case PreparationFailed(reason) => return Some(RoundEnded(None, "failed", reason, recorded)), recorded;
      case NotReady(reason, timedOut) =>
        return Some(RoundEnded(None, if timedOut then "timed_out" else "failed", reason, recorded)), recorded;
      case Ready(digest) => recorded := recorded[..k] + [digest];
    }
    return None, recorded;
  }

  lemma RecordedExtends(inp: Inputs, k: nat, before: seq<string>, recorded: seq<string>)
    requires |before| == k && forall j: nat | j < k :: before[j] == DigestAt(inp, j)
    requires recorded == before + (if inp.plan(k).PlanReady? then [DigestAt(inp, k)] else [])
    ensures RecordedOk(inp, k, recorded)
  {
  }

  /** The attempt was restarted with more targets in scope. */
  ghost predicate WentOn(inp: Inputs, k: nat, targets: seq<string>, r: ScopeRound)
    requires r.RoundGoesOn?
  {
    && Restarted(inp, k) && targets + r.added == TargetsAt(inp, k + 1) && |targets + r.added| <= inp.maxInstances
    && r.added != [] && Distinct(r.added) && (forall x :: x in r.added ==> x !in targets)
    && RecordedOk(inp, k, r.fingerprints) && |r.fingerprints| == k + 1
  }

  /** The attempt was the last. */
  ghost predicate WasLast(inp: Inputs, k: nat, r: ScopeRound)
    requires r.RoundEnded?
  {
    && !Restarted(inp, k) && RecordedOk(inp, k, r.fingerprints)
    && (r.chain.Some? <==> inp.plan(k).PlanReady? && inp.prepare(k).Ready? && AllSettled(inp.guarded(k)))
    && (r.chain.Some? <==> r.status == "success") && r.status == EndStatus(inp, k) && r.reason == EndReason(inp, k)
    && (r.chain.Some? ==> |r.fingerprints| == k + 1 && ChainOf(r.chain.value, inp.guarded(k)))
  }

  lemma UnbuiltWasLast(inp: Inputs, k: nat, r: ScopeRound, recorded: seq<string>)
    requires EndsUnbuilt(inp, k, r, recorded) && RecordedOk(inp, k, recorded)
    ensures r.RoundRaised? ==> SearchCancelled(inp)
    ensures !r.RoundRaised? ==> r.RoundEnded? && WasLast(inp, k, r)
  {
  }

  /** One artifact: planned, prepared and traced; and what its end leads to. */
  method OneRound(inp: Inputs, k: nat, targets: seq<string>, before: seq<string>) returns (r: ScopeRound)
    requires targets == TargetsAt(inp, k) && |before| == k
    requires forall j: nat | j < k :: before[j] == DigestAt(inp, j)
    ensures r.RoundRaised? ==> SearchCancelled(inp)
    ensures r.RoundGoesOn? ==> WentOn(inp, k, targets, r)
    ensures r.RoundEnded? ==> WasLast(inp, k, r)
  {
    var end, recorded := Build(inp, k, before);
    RecordedExtends(inp, k, before, recorded);
    if end.Some? {
      UnbuiltWasLast(inp, k, end.value, recorded);
      return end.value;
    }
    r := TracedRound(inp, k, targets, recorded);
  }

  /** An artifact was built, and its trace ended without wider scope to be had. */
  lemma TracedWasLast(inp: Inputs, k: nat, r: ScopeRound)
    requires inp.plan(k).PlanReady? && inp.prepare(k).Ready? && !Restarted(inp, k) && r.RoundEnded?
    requires RecordedOk(inp, k, r.fingerprints) && |r.fingerprints| == k + 1
    requires r.status == TraceStatus(inp.guarded(k)) && r.reason == TraceReason(inp, k)
    requires r.chain.Some? <==> AllSettled(inp.guarded(k))
    requires r.chain.Some? <==> r.status == "success"
    requires r.chain.Some? ==> ChainOf(r.chain.value, inp.guarded(k))
    ensures WasLast(inp, k, r)
  {
  }

  /** The trace on an artifact that was built. */
  method TracedRound(inp: Inputs, k: nat, targets: seq<string>, fingerprints: seq<string>) returns (r: ScopeRound)
    requires inp.plan(k).PlanReady? && inp.prepare(k).Ready? && targets == TargetsAt(inp, k)
    requires |fingerprints| == k + 1 && RecordedOk(inp, k, fingerprints)
    ensures r.RoundRaised? ==> SearchCancelled(inp)
    ensures r.RoundGoesOn? ==> WentOn(inp, k, targets, r)
    ensures r.RoundEnded? ==> WasLast(inp, k, r)
  {
    var end := SourceTrace(inp.guarded(k));
    EndWants(inp, k, end);
    EndReasons(inp, k, end);
    match end {
      case TraceCancelled => return RoundRaised;
      case ScopeExpansion(paths) =>
        r := Widen(inp, k, targets, paths, fingerprints);
        return;
      case Chain(nodes) => r := RoundEnded(Some(nodes), "success", "", fingerprints);
      case FallbackRequired(code) => r := RoundEnded(None, "inconclusive", code, fingerprints);
      case _ => r := RoundEnded(None, "failed", "source_graph_trace_query_failed", fingerprints);
    }
    TracedWasLast(inp, k, r);
  }

  /** Signals out of scope: the next attempt's targets, or the reason why there is none. */
  method Widen(inp: Inputs, k: nat, targets: seq<string>, paths: seq<string>, fingerprints: seq<string>)
    returns (r: ScopeRound)
    requires inp.plan(k).PlanReady? && inp.prepare(k).Ready? && !AllSettled(inp.guarded(k))
    requires |fingerprints| == k + 1 && RecordedOk(inp, k, fingerprints)
    requires targets == TargetsAt(inp, k) && TargetsAt(inp, k + 1) == targets + NotIn(Dedup(paths), targets)
    requires paths != [] && Wanted(inp.guarded(k)) == paths && TraceStatus(inp.guarded(k)) == "blocked"
    ensures r.RoundGoesOn? || r.RoundEnded?
    ensures r.RoundGoesOn? ==> WentOn(inp, k, targets, r)
    ensures r.RoundEnded? ==> WasLast(inp, k, r)
  {
    var added := NotIn(Dedup(paths), targets);
    if added != [] && |targets| + |added| <= inp.maxInstances {
      return RoundGoesOn(added, fingerprints);
    }
    assert !Restarted(inp, k);
    r := RoundEnded(None, "blocked",
                    if added == [] then "source_graph_scope_expansion_stalled"
                    else "source_graph_frontier_instance_limit", fingerprints);
    TracedWasLast(inp, k, r);
  }

  /** The loop's variables after `n` restarts. */
  datatype Scopes = Scopes(targets: seq<string>, fingerprints: seq<string>, restarts: seq<Restart>)

  ghost predicate ScopesOk(inp: Inputs, n: nat, s: Scopes) {
    && TargetsOk(inp, s.targets, n) && s.targets == TargetsAt(inp, n)
    && (forall k: nat | k < n :: Restarted(inp, k))
    && |s.fingerprints| == n && (forall k: nat | k < n :: s.fingerprints[k] == DigestAt(inp, k))
    && s.restarts == Repeated(n)
  }

  /** What the search reports: its last attempt, its targets, and a chain exactly when that settles the trace. */
  ghost predicate SearchOk(inp: Inputs, r: SourceSearch)
    requires r.SearchDone?
  {
    var n := r.receipt.scopeExpansions;
    && TargetsOk(inp, r.targets, n) && r.targets == TargetsAt(inp, n)
    && AttemptsOk(r.receipt) && r.restarts == Repeated(n)
    && LastAttempt(inp, n)
    && (r.chain.Some? <==> SourceConcludes(inp, n)) && (r.chain.Some? <==> r.status == "success")
    && (r.chain.Some? ==> r.receipt.artifactAttempts == n + 1 && ChainOf(r.chain.value, inp.guarded(n)))
    && r.status == EndStatus(inp, n) && r.reason == EndReason(inp, n) && RecordedOk(inp, n, r.receipt.fingerprints)
  }

  /** The chain is the whole of one Source Graph attempt. */
  ghost predicate ChainOf(chain: seq<Answer>, steps: seq<GuardedLookup>) {
    && |chain| == |steps|
    && (forall i | 0 <= i < |steps| :: steps[i].GuardAnswered? && chain[i] == Node(steps[i].answer))
    && SingleTagged(chain, SourceGraph)
  }

  lemma RoundContinues(inp: Inputs, n: nat, s: Scopes, added: seq<string>, recorded: seq<string>)
    requires ScopesOk(inp, n, s) && Restarted(inp, n) && s.targets + added == TargetsAt(inp, n + 1)
    requires added != [] && Distinct(added) && |s.targets + added| <= inp.maxInstances
    requires RecordedOk(inp, n, recorded) && |recorded| == n + 1
    requires forall x :: x in added ==> x !in s.targets
    ensures ScopesOk(inp, n + 1, Scopes(s.targets + added, recorded, s.restarts + [ExpansionRestart]))
  {
    DistinctAppend(s.targets, added);
    forall k: nat | k < n + 1 ensures Restarted(inp, k) {
      if k < n {
      } else {
        assert k == n;
      }
    }
  }

  lemma DistinctAppend(a: seq<string>, b: seq<string>)
    requires Distinct(a) && Distinct(b) && forall x :: x in b ==> x !in a
    ensures Distinct(a + b)
  {
    assert forall i | 0 <= i < |b| :: b[i] in b;
  }

  lemma RoundStops(inp: Inputs, n: nat, s: Scopes, r: SourceSearch)
    requires ScopesOk(inp, n, s) && !Restarted(inp, n)
    requires r.SearchDone? && r.targets == s.targets && r.restarts == s.restarts
    requires r.receipt.scopeExpansions == n && r.receipt.artifactAttempts == |r.receipt.fingerprints|
    requires RecordedOk(inp, n, r.receipt.fingerprints)
    requires r.status == EndStatus(inp, n) && r.reason == EndReason(inp, n)
    requires r.chain.Some? <==> inp.plan(n).PlanReady? && inp.prepare(n).Ready? && AllSettled(inp.guarded(n))
    requires r.chain.Some? ==> |r.receipt.fingerprints| == n + 1 && ChainOf(r.chain.value, inp.guarded(n))
    requires r.chain.Some? <==> r.status == "success"
    ensures SearchOk(inp, r)
  {
  }

  lemma NoScopesYet(inp: Inputs)
    ensures ScopesOk(inp, 0, Scopes([inp.signal], [], []))
  {
  }

  /** The Source Graph loop: a chain comes whole from the last artifact, or not at all. */
  method SearchScopes(inp: Inputs) returns (r: SourceSearch)
    ensures r.SearchDone? ==> SearchOk(inp, r)
    ensures r.SearchRaised? ==> SearchCancelled(inp)
  {
    var s := Scopes([inp.signal], [], []);
    NoScopesYet(inp);
    var expansions: nat := 0;
    while true
      invariant ScopesOk(inp, expansions, s)
      decreases inp.maxInstances - |s.targets|
    {
      var round := OneRound(inp, expansions, s.targets, s.fingerprints);
      match round {
        case RoundRaised => return SearchRaised;
        case RoundEnded(chain, status, reason, recorded) =>
          r := SearchDone(chain, status, reason, Receipt(|recorded|, expansions, recorded), s.restarts, s.targets);
          RoundStops(inp, expansions, s, r);
          return;
        case RoundGoesOn(added, recorded) =>
          RoundContinues(inp, expansions, s, added, recorded);
          s := Scopes(s.targets + added, recorded, s.restarts + [ExpansionRestart]);
          expansions := expansions + 1;
      }
    }
  }

  function Repeated(n: nat): (r: seq<Restart>)
    ensures |r| == n && forall i | 0 <= i < n :: r[i] == ExpansionRestart
  {
    seq(n, i => ExpansionRestart)
  }

  /** The restart ledger: the NPI restart, one entry per expansion, the Static restart. */
  ghost predicate LedgerOk(inp: Inputs, r: Traced)
    requires r.Traced?
  {
    r.restarts ==
      (if inp.npiSelected && r.actual != VerdiNpi then [NpiRestart] else [])
      + (if r.receipt.Some? then Repeated(r.receipt.value.scopeExpansions) else [])
      + (if r.actual == Static && r.receipt.Some? && r.receipt.value.artifactAttempts > 0 then [StaticRestart] else [])
  }

  /** The chain returned is the whole of one attempt's chain: the last one that was made. */
  ghost predicate ChainSource(inp: Inputs, r: Traced)
    requires r.Traced?
  {
    match r.actual
    case VerdiNpi =>
      && inp.npiSelected && |r.chain| == |inp.npiLookups|
      && forall i | 0 <= i < |r.chain| :: NpiNodeOk(inp.npiLookups[i]) && r.chain[i] == Node(inp.npiLookups[i].answer)
    case SourceGraph =>
      && r.receipt.Some?
      && var steps := inp.guarded(r.receipt.value.scopeExpansions);
      (&& |r.chain| == |steps|
       && forall i | 0 <= i < |steps| :: Settled(steps[i]) && r.chain[i] == Node(steps[i].answer))
    case Static =>
      && |r.chain| == |inp.staticLookups|
      && forall i | 0 <= i < |r.chain| ::
           inp.staticLookups[i].StaticFound? && r.chain[i] == Node(ExplainSingle(inp.staticLookups[i].hop))
    case Foreign(_) => false
  }

  ghost predicate NpiConcludes(inp: Inputs) {
    inp.npiSelected && forall i | 0 <= i < |inp.npiLookups| :: NpiNodeOk(inp.npiLookups[i])
  }

  /** Which backend's chain is returned, by what the backends answered. */
  ghost predicate ActualIs(inp: Inputs, r: Traced)
    requires r.Traced?
  {
    && (r.actual == VerdiNpi <==> NpiConcludes(inp))
    && (r.actual == SourceGraph <==>
          !NpiConcludes(inp) && inp.sourceBlocked.None? && r.receipt.Some?
            && SourceConcludes(inp, r.receipt.value.scopeExpansions))
    && (inp.sourceBlocked.None? && r.receipt.Some? ==> LastAttempt(inp, r.receipt.value.scopeExpansions))
    && (inp.sourceBlocked.Some? && r.receipt.Some? ==> r.receipt == Some(Receipt(0, 0, [])))
  }

  /** Some lookup of some backend was cancelled. */
  ghost predicate TraceCancelledBy(inp: Inputs) {
    LookupCancelled in inp.npiLookups || SearchCancelled(inp) || StaticCancelled in inp.staticLookups
  }

  /** What the NPI slot logs: success, or why NPI has no chain. */
  ghost predicate NpiLog(inp: Inputs, entry: Attempt) {
    if !inp.npiSelected then
      entry == Attempt(VerdiNpi, if inp.npiInitFailed then "failed" else "unavailable", Some(inp.npiReason))
    else if NpiConcludes(inp) then entry == Attempt(VerdiNpi, "success", None)
    else exists n: nat :: FirstForeign(inp.npiLookups, n) && ForeignLog(inp.npiLookups[n], entry)
  }

  /** Of a lookup's own reason only a fixed label is shown. */
  ghost predicate ForeignLog(l: Lookup, entry: Attempt) {
    match l
    case LookupAnswered(answer, degraded) =>
      entry == Attempt(VerdiNpi, if degraded then "inconclusive" else "failed",
                       Some(if answer.npiFallbackReason.Some? then SanitizeReason(answer.npiFallbackReason)
                            else if degraded && !ProvesDriver(answer) then "npi_degraded_result_inconclusive"
                            else "npi_result_not_usable"))
    case _ => entry == Attempt(VerdiNpi, "failed", Some("npi_query_failed"))
  }

  datatype NpiSlot = NpiSlot(cancelled: bool, chain: Option<seq<Answer>>, entry: Attempt, reason: string)

  /** The NPI slot: NPI's whole chain, or one log entry with the reason why there is none. */
  method TryNpi(inp: Inputs) returns (r: NpiSlot)
    ensures r.cancelled ==> inp.npiSelected && LookupCancelled in inp.npiLookups
    ensures !r.cancelled ==> (r.chain.Some? <==> NpiConcludes(inp))
    ensures !r.cancelled && r.chain.Some? ==>
      && |r.chain.value| == |inp.npiLookups| && SingleTagged(r.chain.value, VerdiNpi)
      && forall i | 0 <= i < |inp.npiLookups| :: r.chain.value[i] == Node(inp.npiLookups[i].answer)
    ensures r.entry.backend == VerdiNpi && (r.chain.Some? <==> r.entry.status == "success")
    ensures !r.cancelled && r.chain.None? ==> r.entry.reason == Some(r.reason)
    ensures !r.cancelled ==> NpiLog(inp, r.entry)
  {
    if !inp.npiSelected {
      return NpiSlot(false, None,
                     Attempt(VerdiNpi, if inp.npiInitFailed then "failed" else "unavailable", Some(inp.npiReason)),
                     inp.npiReason);
    }
    var end := NpiTrace(inp.npiLookups);
    match end {
      case Chain(nodes) => return NpiSlot(false, Some(nodes), Attempt(VerdiNpi, "success", None), "");
      case TraceCancelled =>
        ForeignCancels(inp, end);
        return NpiSlot(true, None, Attempt(VerdiNpi, "failed", None), "");
      case BackendFallback(raw, degraded) =>
        var entry := Attempt(VerdiNpi, if degraded then "inconclusive" else "failed", Some(SanitizeReason(Some(raw))));
        ForeignIsLogged(inp, end, entry);
        return NpiSlot(false, None, entry, entry.reason.value);
      case _ =>
        var entry := Attempt(VerdiNpi, "failed", Some("npi_query_failed"));
        ForeignIsLogged(inp, end, entry);
        return NpiSlot(false, None, entry, "npi_query_failed");
    }
  }

  lemma ForeignCancels(inp: Inputs, end: TraceEnd)
    requires end.TraceCancelled?
    requires exists n: nat :: FirstForeign(inp.npiLookups, n) && end == NpiEnd(inp.npiLookups[n])
    ensures LookupCancelled in inp.npiLookups
  {
    var n: nat :| FirstForeign(inp.npiLookups, n) && end == NpiEnd(inp.npiLookups[n]);
    assert inp.npiLookups[n] in inp.npiLookups;
  }

  lemma FixedLabels()
    ensures SanitizeReason(Some("npi_degraded_result_inconclusive")) == "npi_degraded_result_inconclusive"
    ensures SanitizeReason(Some("npi_result_not_usable")) == "npi_result_not_usable"
  {
    assert "npi_degraded_result_inconclusive" == NPI_REASONS[2];
    assert "npi_result_not_usable"[0] != "exception:"[0];
  }

  lemma ForeignIsLogged(inp: Inputs, end: TraceEnd, entry: Attempt)
    requires inp.npiSelected && !end.Chain? && !end.TraceCancelled?
    requires exists n: nat :: FirstForeign(inp.npiLookups, n) && end == NpiEnd(inp.npiLookups[n])
    requires entry == if end.BackendFallback?
      then Attempt(VerdiNpi, if end.degraded then "inconclusive" else "failed", Some(SanitizeReason(Some(end.reason))))
      else Attempt(VerdiNpi, "failed", Some("npi_query_failed"))
    ensures NpiLog(inp, entry) && !NpiConcludes(inp)
  {
    var n: nat :| FirstForeign(inp.npiLookups, n) && end == NpiEnd(inp.npiLookups[n]);
    FixedLabels();
    assert ForeignLog(inp.npiLookups[n], entry);
  }

  /** What the Source Graph slot logs: why it could not start, that it concluded, or why its last attempt did not. */
  ghost predicate SourceLog(inp: Inputs, entry: Attempt, receipt: Receipt) {
    var n := receipt.scopeExpansions;
    if inp.sourceBlocked.Some? then
      entry == Attempt(SourceGraph, "blocked", inp.sourceBlocked) && receipt == Receipt(0, 0, [])
    else
      && RecordedOk(inp, n, receipt.fingerprints)
      && entry == if SourceConcludes(inp, n) then Attempt(SourceGraph, "success", None)
                  else Attempt(SourceGraph, EndStatus(inp, n), Some(EndReason(inp, n)))
  }

  /** The whole log, and the fall-back reason: the last attempt's that got as far as an artifact, else NPI's. */
  ghost predicate LogTells(inp: Inputs, r: Traced)
    requires r.Traced?
  {
    && |r.attempts| == (match r.actual case VerdiNpi => 1 case SourceGraph => 2 case _ => 3)
    && NpiLog(inp, r.attempts[0])
    && (r.actual == VerdiNpi ==> r.fallbackReason == None)
    && (r.actual != VerdiNpi ==>
          && r.receipt.Some? && SourceLog(inp, r.attempts[1], r.receipt.value)
          && r.fallbackReason == if r.actual == Static && r.receipt.value.artifactAttempts > 0
                                 then r.attempts[1].reason else r.attempts[0].reason)
    && (r.actual == Static ==> r.attempts[2] == Attempt(Static, "success", None))
  }

  /**
    `_handle_trace_x_source`. The status always claims single-backend provenance. The claim
    holds: it is checked for NPI and Source Graph chains, and Static answers tag themselves.
   */
  method HandleTrace(inp: Inputs) returns (r: Traced)
    ensures r.Traced? ==> ChainSource(inp, r)
    ensures r.Traced? ==> SingleTagged(r.chain, r.actual)
    ensures r.Traced? ==> LogShape(r.attempts) && |r.attempts| <= 3
    ensures r.Traced? ==> LedgerOk(inp, r)
    ensures r.Traced? && r.receipt.Some? ==> AttemptsOk(r.receipt.value)
    ensures r.Traced? && r.receipt.Some? && inp.maxInstances > 0 ==>
      r.receipt.value.scopeExpansions <= inp.maxInstances - 1
    ensures r.Traced? ==> (r.actual == VerdiNpi <==> r.receipt.None?)
    ensures r.Traced? ==> ActualIs(inp, r)
    ensures r.Traced? ==> (r.attempts[0].status == "success" <==> r.actual == VerdiNpi)
    ensures r.Traced? && |r.attempts| > 1 ==> (r.attempts[1].status == "success" <==> r.actual == SourceGraph)
    ensures r.Traced? ==> LogTells(inp, r)
    ensures r.TraceRaised? ==> (if r.cancelled then TraceCancelledBy(inp) else StaticRaised in inp.staticLookups)
  {
    var npi := TryNpi(inp);
    if npi.cancelled {
      return TraceRaised(true);
    }
    if npi.chain.Some? {
      return Traced(npi.chain.value, VerdiNpi, [npi.entry], [], None, None);
    }
    r := TraceOnwards(inp, npi.entry, npi.reason);
  }

  datatype SourceSlot = SourceSlot(
    cancelled: bool, chain: Option<seq<Answer>>, entry: Attempt, receipt: Receipt, restarts: seq<Restart>)

  /** The Source Graph slot: the last artifact's whole chain, or the reason why there is none. */
  method TrySource(inp: Inputs) returns (r: SourceSlot)
    ensures r.cancelled ==> SearchCancelled(inp)
    ensures !r.cancelled ==>
      && SourceLog(inp, r.entry, r.receipt) && r.entry.backend == SourceGraph && AttemptsOk(r.receipt)
      && r.restarts == Repeated(r.receipt.scopeExpansions)
      && (r.chain.Some? <==> inp.sourceBlocked.None? && SourceConcludes(inp, r.receipt.scopeExpansions))
      && (r.chain.Some? <==> r.entry.status == "success") && (r.chain.None? ==> r.entry.reason.Some?)
      && (inp.maxInstances > 0 ==> r.receipt.scopeExpansions <= inp.maxInstances - 1)
    ensures !r.cancelled && inp.sourceBlocked.None? ==> LastAttempt(inp, r.receipt.scopeExpansions)
    ensures !r.cancelled && r.chain.Some? ==>
      && r.receipt.artifactAttempts == r.receipt.scopeExpansions + 1
      && ChainOf(r.chain.value, inp.guarded(r.receipt.scopeExpansions))
  {
    if inp.sourceBlocked.Some? {
      return SourceSlot(false, None, Attempt(SourceGraph, "blocked", inp.sourceBlocked), Receipt(0, 0, []), []);
    }
    var search := SearchScopes(inp);
    if search.SearchRaised? {
      return SourceSlot(true, None, Attempt(SourceGraph, "failed", None), Receipt(0, 0, []), []);
    }
    var reason := if search.chain.Some? then None else Some(search.reason);
    r := SourceSlot(false, search.chain, Attempt(SourceGraph, search.status, reason), search.receipt, search.restarts);
  }

  /** The trace once NPI has given no chain. */
  method TraceOnwards(inp: Inputs, entry: Attempt, npiReason: string) returns (r: Traced)
    requires !NpiConcludes(inp) && NpiLog(inp, entry) && entry.backend == VerdiNpi && entry.reason == Some(npiReason)
    ensures r.Traced? ==> ChainSource(inp, r) && SingleTagged(r.chain, r.actual) && LedgerOk(inp, r) && ActualIs(inp, r)
    ensures r.Traced? ==> LogShape(r.attempts) && r.attempts[0] == entry && r.actual != VerdiNpi && LogTells(inp, r)
    ensures r.Traced? ==> AttemptsOk(r.receipt.value)
    ensures r.Traced? && inp.maxInstances > 0 ==> r.receipt.value.scopeExpansions <= inp.maxInstances - 1
    ensures r.Traced? ==> (r.attempts[1].status == "success" <==> r.actual == SourceGraph)
    ensures r.TraceRaised? ==>
      (if r.cancelled then SearchCancelled(inp) || StaticCancelled in inp.staticLookups
       else StaticRaised in inp.staticLookups)
  {
    var source := TrySource(inp);
    if source.cancelled {
      return TraceRaised(true);
    }
    var restarts := (if inp.npiSelected then [NpiRestart] else []) + source.restarts;
    if source.chain.Some? {
      r := Traced(source.chain.value, SourceGraph, [entry, source.entry], restarts, Some(npiReason), Some(source.receipt));
      SourceChainReturned(inp, r);
      return;
    }
    var reason := npiReason;
    if source.receipt.artifactAttempts > 0 {
      reason := source.entry.reason.value;
    }
    r := StaticFallback(inp, [entry, source.entry], restarts, source.receipt, reason);
  }

  lemma SourceChainReturned(inp: Inputs, r: Traced)
    requires r.Traced? && r.actual == SourceGraph && r.receipt.Some? && inp.sourceBlocked.None?
    requires SourceConcludes(inp, r.receipt.value.scopeExpansions)
    requires ChainOf(r.chain, inp.guarded(r.receipt.value.scopeExpansions))
    ensures ChainSource(inp, r) && SingleTagged(r.chain, SourceGraph)
  {
  }

  /** The Static recomputation of the whole trace. */
  method StaticFallback(inp: Inputs, attempts: seq<Attempt>, before: seq<Restart>, receipt: Receipt, reason: string)
    returns (r: Traced)
    requires |attempts| == 2 && attempts[0].backend == VerdiNpi && attempts[1].backend == SourceGraph
    requires before == (if inp.npiSelected then [NpiRestart] else []) + Repeated(receipt.scopeExpansions)
    ensures r.Traced? ==> ChainSource(inp, r) && r.actual == Static && r.receipt == Some(receipt)
    ensures r.Traced? ==> SingleTagged(r.chain, Static)
    ensures r.Traced? ==> LogShape(r.attempts) && r.attempts == attempts + [Attempt(Static, "success", None)]
    ensures r.Traced? ==> r.fallbackReason == Some(reason)
    ensures r.Traced? ==> LedgerOk(inp, r)
    ensures r.TraceRaised? ==>
      (if r.cancelled then StaticCancelled in inp.staticLookups else StaticRaised in inp.staticLookups)
  {
    var restarts := before + if receipt.artifactAttempts > 0 then [StaticRestart] else [];
    var end := StaticTrace(inp.staticLookups);
    if !end.Chain? {
      return TraceRaised(end.TraceCancelled?);
    }
    var log := attempts + [Attempt(Static, "success", None)];
    assert log[1..2] == [attempts[1]];
    r := Traced(end.nodes, Static, log, restarts, Some(reason), Some(receipt));
  }
}
