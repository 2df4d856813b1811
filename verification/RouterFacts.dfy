/** What a returned route says of the artifacts and backends behind it, by what they answered. */
module RouterFacts {
  import opened Wrappers
  import opened Connectivity
  import opened Router

  /** The artifact's answer is Source Graph's own, and came with a query receipt. */
  ghost predicate Checked(run: Execution, op: Operation) {
    run.result.Some? && run.query.Some? && OnlyTag(run.result.value, op, SourceGraph)
  }

  /** It may be returned: a positive fact or, from a full hierarchy only, a negative one. */
  ghost predicate IsFact(run: Execution, op: Operation, bootstrap: bool) {
    && Checked(run, op)
    && (run.query.value.status == "found" || (run.query.value.status == "not_connected" && !bootstrap))
  }

  /** It decides nothing, but may stand where Static recognises nothing. */
  ghost predicate StandsIn(run: Execution, op: Operation, bootstrap: bool) {
    Checked(run, op) && op.Driver? && !bootstrap && run.query.value.status == "inconclusive"
  }

  ghost function LastRun(inp: Inputs, r: Routed): Execution
    requires r.Returned? && r.receipt.Some? && r.receipt.value.artifactAttempts > 0
  {
    RunAt(inp, r.receipt.value.artifactAttempts - 1)
  }

  lemma SearchedOf(inp: Inputs, r: Routed) returns (s: Search)
    requires RouteOk(inp, r) && r.Returned? && r.receipt.Some? && r.receipt.value.artifactAttempts > 0
    requires r.actual != VerdiNpi
    ensures EndOf(inp, s, r.receipt.value) && DecidedBy(inp, s, r)
    ensures EndsAt(inp, BootstrapActive(inp), s, s.receipt.scopeExpansions)
    ensures s.last == LastRun(inp, r) && inp.execute(r.receipt.value.artifactAttempts - 1).Executed?
  {
    assert Decided(inp, r);
    s := SearchOf(inp, r);
  }

  /**
    Where artifacts were built: the last one's fact is what is returned if it has one, and the
    final artifact is reported exactly for a fact or a stand-in. In a bounded bootstrap that
    means a positive fact: an absence is never returned as one.
   */
  lemma FactReturnedIff(inp: Inputs, r: Routed)
    requires RouteOk(inp, r) && r.Returned? && r.receipt.Some? && r.receipt.value.artifactAttempts > 0
    requires r.actual != VerdiNpi
    ensures var run, receipt := LastRun(inp, r), r.receipt.value;
      && (IsFact(run, inp.op, r.bootstrap) ==>
            r.actual == SourceGraph && !receipt.fallbackUsed && r.answer == Published(run.result.value, SourceGraph))
      && (receipt.finalArtifact.Some? <==>
            IsFact(run, inp.op, r.bootstrap) || StandsIn(run, inp.op, r.bootstrap))
      && (r.bootstrap && receipt.finalArtifact.Some? ==> run.query.Some? && run.query.value.status == "found")
      && (!IsFact(run, inp.op, r.bootstrap) && !r.bootstrap ==> receipt.fallbackUsed)
  {
    var s := SearchedOf(inp, r);
  }

  /** A bounded bootstrap without a positive fact says nothing: no driver, no load, only a reason. */
  lemma BootstrapSaysNothing(inp: Inputs, r: Routed)
    requires RouteOk(inp, r) && r.Returned? && r.bootstrap && r.receipt.Some? && r.receipt.value.finalArtifact.None?
    ensures var a := r.answer;
      && a.backend == Some(SourceGraph) && a.driverChain == [] && a.loads == [] && a.facts == ""
      && a.driverKind == None && a.returnedFacts == None && a.stoppedAt == None && !a.hasSource && !a.hasUpstream
      && a.driverStatus == (if inp.op.Driver? then "unknown" else "") && a.unsupportedReason.Some?
  {
    assert Decided(inp, r);
    if SourceBlocked(inp).None? {
      var s := SearchOf(inp, r);
    }
  }

  /** Static recognises no fact of the driver. */
  ghost predicate RecognisesNothing(answer: Answer, op: Operation) {
    && op.Driver? && answer.unsupportedReason != None
    && !answer.hasSource && !answer.hasUpstream && answer.driverChain == []
    && answer.driverStatus != "resolved" && answer.driverStatus != "not_connected"
    && answer.driverStatus != "primary_input" && answer.driverStatus != "testbench_driven"
  }

  /**
    After a fall-back the answer is Static's, unless that recognises nothing and the last
    artifact has a stand-in.
   */
  lemma StandInReturnedIff(inp: Inputs, r: Routed)
    requires RouteOk(inp, r) && r.Returned? && r.receipt.Some? && r.receipt.value.fallbackUsed && r.actual != VerdiNpi
    ensures inp.staticAnswer.StaticAnswered? && !r.bootstrap
    ensures var answer := inp.staticAnswer.answer;
      && r.actual in [SourceGraph, Static]
      && (r.actual == SourceGraph <==>
            && RecognisesNothing(answer, inp.op) && r.receipt.value.artifactAttempts > 0
            && StandsIn(LastRun(inp, r), inp.op, false))
  {
    StaticStandsLastIn(inp, r);
    if r.receipt.value.artifactAttempts > 0 {
      var s := SearchedOf(inp, r);
      SearchStandsIn(inp, s, r);
    } else {
      NeverSearched(inp, r);
    }
  }

  lemma SearchStandsIn(inp: Inputs, s: Search, r: Routed)
    requires r.Returned? && r.receipt.Some? && r.attempts != [] && r.receipt.value.fallbackUsed
    requires DecidedBy(inp, s, r) && EndsAt(inp, BootstrapActive(inp), s, s.receipt.scopeExpansions)
    requires !r.bootstrap && inp.staticAnswer.StaticAnswered?
    ensures r.actual in [SourceGraph, Static]
    ensures r.actual == SourceGraph <==>
      RecognisesNothing(inp.staticAnswer.answer, inp.op) && StandsIn(s.last, inp.op, false)
  {
  }

  lemma NeverSearched(inp: Inputs, r: Routed)
    requires RouteOk(inp, r) && r.Returned? && r.receipt.Some? && r.receipt.value.artifactAttempts == 0
    requires r.actual != VerdiNpi && r.receipt.value.fallbackUsed
    ensures r.actual == Static && !r.bootstrap
  {
    assert Decided(inp, r);
    if SourceBlocked(inp).None? {
      var s := SearchOf(inp, r);
    }
  }

  /** The log's last entry tells which of the two Static's answer was. */
  lemma StaticLoggedAs(inp: Inputs, r: Routed)
    requires RouteOk(inp, r) && r.Returned? && r.receipt.Some? && r.receipt.value.fallbackUsed && r.actual != VerdiNpi
    ensures inp.staticAnswer.StaticAnswered?
    ensures var answer := inp.staticAnswer.answer;
      r.attempts[|r.attempts| - 1] ==
        if RecognisesNothing(answer, inp.op) then Attempt(Static, "inconclusive", answer.unsupportedReason)
        else Attempt(Static, "success", None)
  {
    StaticStandsLastIn(inp, r);
  }

  lemma StaticStandsLastIn(inp: Inputs, r: Routed)
    requires RouteOk(inp, r) && r.Returned? && r.receipt.Some? && r.receipt.value.fallbackUsed && r.actual != VerdiNpi
    ensures inp.staticAnswer.StaticAnswered? && r.attempts[1..] != [] && !r.bootstrap
    ensures r.attempts[|r.attempts| - 1] == StaticEntry(inp.staticAnswer.answer, inp.op)
  {
    var n := |r.attempts| - 1;
    assert n > 0 && r.attempts[1..][n - 1] == r.attempts[n];
    if SourceBlocked(inp).None? {
      var s := SearchOf(inp, r);
      LastOf(SourceLog(inp, s), StaticTail(inp, true), r.attempts);
    } else {
      LastOf([BlockedEntry(inp)], StaticTail(inp, true), r.attempts);
    }
  }

  lemma LastOf(source: seq<Attempt>, tail: seq<Attempt>, log: seq<Attempt>)
    requires |log| > 1 && log[1..] == source + tail && log[|log| - 1].backend == Static && AllSourceGraph(source)
    requires |tail| <= 1
    ensures |tail| == 1 && log[|log| - 1] == tail[0]
  {
    assert log[1..][|log| - 2] == log[|log| - 1];
  }

  // ---- When the frontier loop goes on ----

  /** More scope may improve the answer: only the scope keeps it from being complete. */
  ghost predicate Improvable(run: Execution, op: Operation, bootstrap: bool) {
    && !bootstrap && Checked(run, op) && run.frontiers != []
    && (var gaps := run.query.value.gapCodes;
        && ("hierarchy_projection_scoped" in gaps || "ancestor_definition_skeleton_only" in gaps)
        && "query_depth_limit" !in gaps && "query_state_limit" !in gaps && "query_edge_limit" !in gaps
        && "query_match_limit" !in gaps && "query_frontier_limit" !in gaps && "query_assignment_limit" !in gaps
        && "query_evidence_limit" !in gaps)
    && (var query := run.query.value;
        || query.status == "inconclusive" || (query.status == "found" && query.unresolvedBits > 0)
        || (op == Loads && query.coverage != "complete"))
  }

  lemma ImprovableIff(run: Execution, op: Operation, bootstrap: bool)
    ensures WantsExpansion(run, op, bootstrap, ProvenanceOk(run, op)) <==> Improvable(run, op, bootstrap)
  {
    if run.query.Some? {
      var gaps := run.query.value.gapCodes;
      NoLimitIff(gaps);
      ScopeGapIff(gaps);
    }
  }

  lemma ScopeGapIff(gaps: set<string>)
    ensures gaps * SCOPE_GAPS != {} <==>
      "hierarchy_projection_scoped" in gaps || "ancestor_definition_skeleton_only" in gaps
  {
    var meet := gaps * SCOPE_GAPS;
    if meet == {} {
      assert forall x :: x in SCOPE_GAPS ==> x !in gaps || x in meet;
    } else {
      var x :| x in meet;
      assert x in SCOPE_GAPS && x in gaps;
    }
  }

  lemma NoLimitIff(gaps: set<string>)
    ensures gaps * NON_EXPANDABLE == {} <==>
      && "query_depth_limit" !in gaps && "query_state_limit" !in gaps && "query_edge_limit" !in gaps
      && "query_match_limit" !in gaps && "query_frontier_limit" !in gaps && "query_assignment_limit" !in gaps
      && "query_evidence_limit" !in gaps
  {
    var meet := gaps * NON_EXPANDABLE;
    if meet == {} {
      assert forall x :: x in NON_EXPANDABLE ==> x !in gaps || x in meet;
    } else {
      var x :| x in meet;
      assert x in NON_EXPANDABLE && x in gaps;
    }
  }

  /** Some frontier signal of the attempt is not in scope yet. */
  ghost predicate NamesNew(inp: Inputs, k: nat) {
    exists x :: x in RunAt(inp, k).frontiers && x !in KnownBefore(inp, k)
  }

  /**
    An attempt is followed by another exactly when more scope may improve it, a round is left,
    it names a signal not in scope yet, and the expanded plan is another than all before.
   */
  lemma GoesOnIff(inp: Inputs, r: Routed, k: nat)
    requires RouteOk(inp, r) && r.Returned? && r.receipt.Some? && r.actual != VerdiNpi
    requires k < r.receipt.value.artifactAttempts
    ensures k < r.receipt.value.artifactAttempts - 1 <==>
      && k < inp.config.maxRounds && Improvable(RunAt(inp, k), inp.op, BootstrapActive(inp)) && NamesNew(inp, k)
      && inp.expand(k).Expanded? && inp.expand(k).digest !in r.receipt.value.fingerprints[..k + 1]
  {
    var s := SearchedOf(inp, r);
    SearchGoesOnIff(inp, BootstrapActive(inp), s, k);
  }

  lemma SearchGoesOnIff(inp: Inputs, bootstrap: bool, s: Search, k: nat)
    requires EndsAt(inp, bootstrap, s, s.receipt.scopeExpansions) && k <= s.receipt.scopeExpansions
    ensures k < s.receipt.scopeExpansions <==>
      && k < inp.config.maxRounds && Improvable(RunAt(inp, k), inp.op, bootstrap) && NamesNew(inp, k)
      && inp.expand(k).Expanded? && inp.expand(k).digest !in s.receipt.fingerprints[..k + 1]
  {
    var n, fingerprints := s.receipt.scopeExpansions, s.receipt.fingerprints;
    ImprovableIff(RunAt(inp, k), inp.op, bootstrap);
    NewIff(inp, k);
    if k < n {
      assert Discarded(inp, bootstrap, k, fingerprints[..n]);
      assert fingerprints[..n][..k + 1] == fingerprints[..k + 1];
    }
  }

  lemma NewIff(inp: Inputs, k: nat)
    ensures NewItems(RunAt(inp, k).frontiers, KnownBefore(inp, k)) != [] <==> NamesNew(inp, k)
  {
    var items := NewItems(RunAt(inp, k).frontiers, KnownBefore(inp, k));
    if items != [] {
      assert items[0] in items;
    }
  }

  // ---- NPI's entry ----

  /** What NPI came to, as its own entry says. */
  ghost predicate NpiSays(npi: NpiInput, status: string, reason: string) {
    match npi
    case NpiNotSelected(true, _) => status == "failed" && reason == "npi_backend_initialization_failed"
    case NpiNotSelected(false, probe) =>
      status == "unavailable" && reason == (if probe.Some? then probe.value else "npi_kdb_unavailable")
    case NpiAnswered(answer, degraded) =>
      if answer.npiFallbackReason.Some? then status == "failed" && reason == SanitizeReason(answer.npiFallbackReason)
      else status == "inconclusive"
           && reason == if degraded then "npi_degraded_result_inconclusive" else "npi_result_not_usable"
    case _ => status == "failed" && reason == "npi_query_failed"
  }

  lemma NpiEntrySays(inp: Inputs)
    requires !inp.npi.NpiCancelled?
    ensures NpiSays(inp.npi, NpiEntry(inp).status, NpiEntry(inp).reason.value)
  {
    assert SanitizeReason(None) == "npi_result_not_usable";
  }

  /** Under a policy that skips NPI a missing database and a failed start show as skipped. */
  ghost function ShownEntry(skips: bool, status: string, reason: string): Attempt {
    if skips && (reason == "npi_backend_initialization_failed" || reason == "npi_kdb_unavailable")
    then Attempt(VerdiNpi, "skipped", Some("npi_skipped_by_policy")) else Attempt(VerdiNpi, status, Some(reason))
  }

  lemma RelabeledIs(inp: Inputs, status: string, reason: string)
    ensures Relabeled(inp, SourceGraph, Attempt(VerdiNpi, status, Some(reason))) ==
      ShownEntry(inp.skipsNpiByPolicy, status, reason)
  {
    assert reason in LEGACY_SKIPS <==> reason == LEGACY_SKIPS[0] || reason == LEGACY_SKIPS[1];
    if reason in LEGACY_SKIPS {
      assert reason[4] != "npi_skipped_by_policy"[4];
    }
  }

  /** A route that NPI does not answer logs first what NPI came to. */
  lemma FirstEntryIs(inp: Inputs, r: Routed)
    requires RouteOk(inp, r) && r.Returned? && r.actual != VerdiNpi
    ensures exists status, reason ::
      NpiSays(inp.npi, status, reason) && r.attempts[0] == ShownEntry(inp.skipsNpiByPolicy, status, reason)
  {
    var entry := NpiEntry(inp);
    assert Proceeds(inp) && r.attempts[0] == Relabeled(inp, SourceGraph, entry);
    NpiEntrySays(inp);
    RelabeledIs(inp, entry.status, entry.reason.value);
  }
}
