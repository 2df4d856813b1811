/** Backend answers, their provenance tags, and when an NPI answer may be returned. */
module Connectivity {
  import opened Wrappers

  datatype Operation = Driver | Loads

  datatype Backend = VerdiNpi | SourceGraph | Static | Foreign(name: string)

  /**
    One backend's answer. `driverChain` and `loads` carry the backend tag of each hop that has
    one; `facts` stands for everything else the answer says. The last three fields are
    internal receipts that never reach the caller.
   */
  datatype Answer = Answer(
    backend: Option<Backend>,
    driverChain: seq<Option<Backend>>,
    loads: seq<Option<Backend>>,
    driverStatus: string,
    driverKind: Option<string>,
    returnedFacts: Option<int>,
    completeness: string,
    stoppedAt: Option<string>,
    unsupportedReason: Option<string>,
    hasSource: bool,
    hasUpstream: bool,
    facts: string,
    npiFallbackReason: Option<string>,
    npiCallError: bool,
    fallbackDeferred: bool)

  /** The hops whose tags an operation's answer carries. */
  function Hops(answer: Answer, op: Operation): seq<Option<Backend>> {
    if op.Driver? then answer.driverChain else answer.loads
  }

  /** Every explicit backend tag of the answer names `expected`. */
  ghost predicate OnlyTag(answer: Answer, op: Operation, expected: Backend) {
    && (answer.backend.Some? ==> answer.backend.value == expected)
    && forall i | 0 <= i < |Hops(answer, op)| && Hops(answer, op)[i].Some? :: Hops(answer, op)[i].value == expected
  }

  /** `_single_backend_provenance`: collect the explicit tags, then compare them all. */
  method SingleBackendProvenance(answer: Answer, op: Operation, expected: Backend) returns (ok: bool)
    ensures ok <==> OnlyTag(answer, op, expected)
  {
    var explicit: seq<Backend> := if answer.backend.Some? then [answer.backend.value] else [];
    var hops := Hops(answer, op);
    for n := 0 to |hops|
      invariant forall b :: b in explicit <==>
        answer.backend == Some(b) || exists i :: 0 <= i < n && hops[i] == Some(b)
    {
      if hops[n].Some? {
        explicit := explicit + [hops[n].value];
      }
    }
    ok := true;
    for n := 0 to |explicit|
      invariant ok <==> forall i | 0 <= i < n :: explicit[i] == expected
    {
      ok := ok && explicit[n] == expected;
    }
    if !ok {
      var i :| 0 <= i < |explicit| && explicit[i] != expected;
      assert explicit[i] in explicit;
    } else {
      assert answer.backend.Some? ==> answer.backend.value in explicit;
      assert forall i | 0 <= i < |hops| && hops[i].Some? :: hops[i].value in explicit;
    }
  }

  /** `_npi_driver_result_has_positive_fact`. */
  predicate HasPositiveFact(answer: Answer) {
    || answer.driverStatus == "resolved"
    || (&& answer.driverStatus == "partial" && answer.driverKind.Some?
        && answer.returnedFacts.Some? && answer.returnedFacts.value > 0)
  }

  lemma PositiveFactIff(answer: Answer)
    ensures HasPositiveFact(answer) <==> ProvesDriver(answer)
  {
    if HasPositiveFact(answer) && answer.returnedFacts.Some? {
      assert answer.returnedFacts == Some(answer.returnedFacts.value);
    }
  }

  /** A load list, or its absence, that a database of this quality can support. */
  predicate LoadsUsable(answer: Answer, degraded: bool) {
    if degraded then answer.loads != [] && (answer.completeness == "exact" || answer.completeness == "approximate")
    else if answer.loads != [] then
      && (answer.completeness == "exact" || answer.completeness == "approximate")
      && (answer.stoppedAt.None?
          || answer.stoppedAt.value in ["npi_load_output_limit", "npi_load_work_limit", "npi_boundary_recovery_failed"])
    else
      answer.completeness == "exact" && (answer.stoppedAt.None? || answer.stoppedAt.value == "no_npi_loads")
  }

  /** A driver is named, or a partial driver with its kind and some returned fact. */
  ghost predicate ProvesDriver(answer: Answer) {
    || answer.driverStatus == "resolved"
    || (answer.driverStatus == "partial" && answer.driverKind != None
        && exists n :: n > 0 && answer.returnedFacts == Some(n))
  }

  /** Loads need not be all of them; their absence must be exact, from a database that is not degraded. */
  ghost predicate ProvesLoads(answer: Answer, degraded: bool) {
    && (answer.completeness == "exact" || (answer.completeness == "approximate" && answer.loads != []))
    && (answer.loads == [] ==> !degraded && (answer.stoppedAt.Some? ==> answer.stoppedAt.value == "no_npi_loads"))
    && (answer.loads != [] && !degraded && answer.stoppedAt.Some? ==>
          answer.stoppedAt.value in
            ["npi_load_output_limit", "npi_load_work_limit", "npi_boundary_recovery_failed"])
  }

  ghost predicate NpiUsable(answer: Answer, op: Operation, degraded: bool) {
    && answer.npiFallbackReason.None? && !answer.npiCallError
    && OnlyTag(answer, op, VerdiNpi)
    && (if op.Driver? then ProvesDriver(answer) || (!degraded && answer.driverStatus == "testbench_driven")
        else ProvesLoads(answer, degraded))
  }

  /** `_npi_result_usable`. An empty load list is accepted only as an exhaustive negative of a clean database. */
  method NpiResultUsable(answer: Answer, op: Operation, degraded: bool) returns (ok: bool)
    ensures ok <==> NpiUsable(answer, op, degraded)
    ensures ok && op.Loads? && answer.loads == [] ==> !degraded && answer.completeness == "exact"
    ensures ok && op.Driver? && degraded ==> NpiUsable(answer, op, false)
  {
    if answer.npiFallbackReason.Some? || answer.npiCallError {
      return false;
    }
    var single := SingleBackendProvenance(answer, op, VerdiNpi);
    if !single {
      return false;
    }
    if op.Driver? {
      PositiveFactIff(answer);
      return HasPositiveFact(answer) || (!degraded && answer.driverStatus == "testbench_driven");
    }
    return LoadsUsable(answer, degraded);
  }

  /** `_strip_connectivity_internal_receipts`, then the caller-facing tag. */
  function Published(answer: Answer, actual: Backend): Answer {
    answer.(npiFallbackReason := None, npiCallError := false, fallbackDeferred := false, backend := Some(actual))
  }

  /** Publishing an answer of one backend under that backend's name mixes nothing in. */
  lemma PublishedKeepsProvenance(answer: Answer, op: Operation, actual: Backend)
    ensures OnlyTag(Published(answer, actual), op, actual)
       <==> forall i | 0 <= i < |Hops(answer, op)| && Hops(answer, op)[i].Some? :: Hops(answer, op)[i].value == actual
  {
    assert Hops(Published(answer, actual), op) == Hops(answer, op);
  }

  /** What is published is all that the backend said, under its tag and without the internal receipts. */
  lemma PublishedIs(answer: Answer, actual: Backend)
    ensures var p := Published(answer, actual);
      && p.backend == Some(actual) && p.npiFallbackReason == None && !p.npiCallError && !p.fallbackDeferred
      && p.driverChain == answer.driverChain && p.loads == answer.loads && p.driverStatus == answer.driverStatus
      && p.driverKind == answer.driverKind && p.returnedFacts == answer.returnedFacts
      && p.completeness == answer.completeness && p.stoppedAt == answer.stoppedAt
      && p.unsupportedReason == answer.unsupportedReason && p.hasSource == answer.hasSource
      && p.hasUpstream == answer.hasUpstream && p.facts == answer.facts
  {
  }

  // ---- Reasons and the attempt log ----

  const NPI_REASONS: seq<string> := [
    "kdb_or_top_missing", "npi_degraded_kdb_disabled", "npi_degraded_result_inconclusive", "npi_load_failed",
    "npi_lsf_npi_unavailable", "npi_lsf_timeout", "npi_lsf_worker_failed"]

  /** `_sanitize_npi_fallback_reason`: only fixed labels leave the server. */
  function SanitizeReason(raw: Option<string>): (r: string)
    ensures r in NPI_REASONS || r == "npi_query_failed" || r == "npi_result_not_usable"
    ensures r in NPI_REASONS ==> raw == Some(r)
    ensures raw.Some? && raw.value in NPI_REASONS ==> r == raw.value
    ensures r == "npi_query_failed" <==> raw.Some? && raw.value !in NPI_REASONS && "exception:" <= raw.value
  {
    if raw.Some? && raw.value in NPI_REASONS then raw.value
    else if raw.Some? && "exception:" <= raw.value then "npi_query_failed"
    else "npi_result_not_usable"
  }

  datatype Attempt = Attempt(backend: Backend, status: string, reason: Option<string>)

  ghost predicate AllSourceGraph(attempts: seq<Attempt>) {
    forall i | 0 <= i < |attempts| :: attempts[i].backend == SourceGraph
  }

  /** `verdi_npi`, then any number of `source_graph`, then at most one `static`. */
  ghost predicate LogShape(attempts: seq<Attempt>) {
    && |attempts| > 0 && attempts[0].backend == VerdiNpi
    && (|| AllSourceGraph(attempts[1..])
        || (|attempts| > 1 && attempts[|attempts| - 1].backend == Static
            && AllSourceGraph(attempts[1..|attempts| - 1])))
  }
}
