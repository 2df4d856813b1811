/** Registered hierarchies, their snapshots, and when a cached context may still be used. */
module HierarchyContext {
  import opened Wrappers

  /** A full hierarchy; `snapshot` is the log fingerprint recorded when it was built. */
  datatype Hierarchy = Hierarchy(snapshot: Option<string>, payload: string)

  /** What the session and the provenance remember of the last hierarchy build. */
  datatype HierRecord = HierRecord(
    compileLog: Option<string>, simulator: Option<string>, handle: Option<string>,
    snapshot: Option<string>, supplements: seq<string>)

  /** `compute_snapshot_fingerprint` at one moment: a digest of the ordered logs as they are now. */
  type Fingerprint = (string, string, seq<string>) -> string

  predicate IsHex(c: char) {
    '0' <= c <= '9' || 'a' <= c <= 'f'
  }

  /** `[0-9a-f]{64}`. */
  predicate ValidDigest(s: Option<string>) {
    s.Some? && |s.value| == 64 && forall i | 0 <= i < 64 :: IsHex(s.value[i])
  }

  function Prefix(s: string, n: nat): string {
    if |s| <= n then s else s[..n]
  }

  /** `compute_handle`. */
  function HandleOf(log: string, simulator: string, supplements: seq<string>, now: Fingerprint): string {
    "tbh_" + Prefix(now(log, simulator, supplements), 8)
  }

  /** The handle is the fixed prefix and the first eight digits of the log set's own fingerprint. */
  lemma HandleIs(log: string, simulator: string, supplements: seq<string>, now: Fingerprint)
    ensures var handle, digest := HandleOf(log, simulator, supplements, now), now(log, simulator, supplements);
      && "tbh_" <= handle && handle[4..] <= digest
      && (if |digest| >= 8 then |handle| == 12 else handle[4..] == digest)
  {
    var handle, digest := HandleOf(log, simulator, supplements, now), now(log, simulator, supplements);
    assert handle[4..] == Prefix(digest, 8);
  }

  /** A digest is recognised by its length and its lower-case hexadecimal digits. */
  lemma ValidDigestIff(s: Option<string>)
    ensures ValidDigest(s) <==> s != None && |s.value| == 64 && forall c :: c in s.value ==> c in "0123456789abcdef"
  {
    if s.Some? {
      forall c: char ensures IsHex(c) <==> c in "0123456789abcdef" {
        HexDigit(c);
      }
    }
  }

  lemma HexDigit(c: char)
    ensures IsHex(c) <==> c in "0123456789abcdef"
  {
    var digits := "0123456789abcdef";
    if IsHex(c) {
      var i := if c <= '9' then c as int - '0' as int else c as int - 'a' as int + 10;
      assert digits[i] == c;
    }
  }

  function Truthy(s: Option<string>): Option<string> {
    if s == Some("") then None else s
  }

  /** The record proves that the logs it names have not changed since. */
  predicate RecordCurrent(source: Option<HierRecord>, handles: map<string, Hierarchy>, now: Fingerprint) {
    && source.Some?
    && var r := source.value;
    (&& Truthy(r.compileLog).Some? && Truthy(r.simulator).Some? && ValidDigest(r.snapshot)
     && "" !in r.supplements
     && now(r.compileLog.value, r.simulator.value, r.supplements) == r.snapshot.value
     && var handle := if Truthy(r.handle).Some? then r.handle.value
                      else HandleOf(r.compileLog.value, r.simulator.value, r.supplements, now);
     (handle in handles && ValidDigest(handles[handle].snapshot) ==> handles[handle].snapshot == r.snapshot))
  }

  /** `_hierarchy_snapshot_is_current`. */
  predicate SnapshotCurrent(session: Option<HierRecord>, provenance: Option<HierRecord>,
                            handles: map<string, Hierarchy>, now: Fingerprint) {
    RecordCurrent(session, handles, now) || RecordCurrent(provenance, handles, now)
  }

  // ---- Resolving the hierarchy of a request ----

  datatype Candidate = Candidate(handle: string, expected: string)

  /** A recorded build of the requested log, for the requested simulator or for none in particular. */
  ghost predicate RecordNames(source: Option<HierRecord>, log: string, simulator: string, onDisk: string -> string) {
    && source.Some? && log != ""
    && source.value.compileLog.Some? && source.value.compileLog.value != ""
    && onDisk(source.value.compileLog.value) == onDisk(log)
    && (source.value.simulator.Some? ==> source.value.simulator.value in ["auto", simulator])
  }

  /** The log sets a request may stand for: the bare log, or a recorded set for the same log. */
  ghost predicate NamedSet(sources: seq<Option<HierRecord>>, log: string, simulator: string,
                           usedSimulator: string, supplements: seq<string>, onDisk: string -> string) {
    && usedSimulator == simulator
    && (|| supplements == []
        || exists i :: 0 <= i < |sources| && RecordNames(sources[i], log, simulator, onDisk)
             && supplements == sources[i].value.supplements && "" !in supplements)
  }

  function RecordSupplements(r: HierRecord): seq<string> {
    if "" in r.supplements then [] else r.supplements
  }

  /** `_same_realpath`, then a compatible simulator. */
  predicate RecordServes(source: Option<HierRecord>, log: string, simulator: string, onDisk: string -> string) {
    && source.Some?
    && Truthy(source.value.compileLog).Some? && log != ""
    && onDisk(source.value.compileLog.value) == onDisk(log)
    && (source.value.simulator.None? || source.value.simulator.value in ["auto", simulator])
  }

  function RecordSimulator(r: HierRecord, simulator: string): string {
    if r.simulator.None? || r.simulator.value == "auto" then simulator else r.simulator.value
  }

  lemma ServesIff(source: Option<HierRecord>, log: string, simulator: string, onDisk: string -> string)
    ensures RecordServes(source, log, simulator, onDisk) <==> RecordNames(source, log, simulator, onDisk)
    ensures RecordNames(source, log, simulator, onDisk) ==>
      && RecordSimulator(source.value, simulator) == simulator
      && RecordSupplements(source.value) == if "" in source.value.supplements then [] else source.value.supplements
  {
  }

  /** The candidate's expected snapshot is the fingerprint, now, of a log set the request may stand for. */
  ghost predicate ExpectsNow(c: Candidate, sources: seq<Option<HierRecord>>, log: string, simulator: string,
                             onDisk: string -> string, now: Fingerprint) {
    exists used, supplements :: NamedSet(sources, log, simulator, used, supplements, onDisk)
                             && c.expected == now(log, used, supplements)
  }

  /** A registered hierarchy that the candidate accepts. */
  predicate Accepts(c: Candidate, handles: map<string, Hierarchy>) {
    c.handle in handles && (ValidDigest(handles[c.handle].snapshot) ==> handles[c.handle].snapshot.value == c.expected)
  }

  /** What a recorded set contributes: its handle, and its merged handle recomputed now. */
  function ExactFrom(r: HierRecord, log: string, simulator: string, now: Fingerprint): seq<Candidate> {
    if Truthy(r.handle).None? then []
    else [Candidate(r.handle.value, now(log, RecordSimulator(r, simulator), RecordSupplements(r)))]
  }

  function RecomputedFrom(r: HierRecord, log: string, simulator: string, now: Fingerprint): seq<Candidate> {
    var used, supplements := RecordSimulator(r, simulator), RecordSupplements(r);
    if supplements == [] then []
    else [Candidate(HandleOf(log, used, supplements, now), now(log, used, supplements))]
  }

  function Exact(sources: seq<Option<HierRecord>>, log: string, simulator: string,
                 onDisk: string -> string, now: Fingerprint): seq<Candidate> {
    if sources == [] then []
    else
      var n := |sources| - 1;
      Exact(sources[..n], log, simulator, onDisk, now)
      + (if RecordServes(sources[n], log, simulator, onDisk) then ExactFrom(sources[n].value, log, simulator, now)
         else [])
  }

  function Recomputed(sources: seq<Option<HierRecord>>, log: string, simulator: string,
                      onDisk: string -> string, now: Fingerprint): seq<Candidate> {
    if sources == [] then []
    else
      var n := |sources| - 1;
      Recomputed(sources[..n], log, simulator, onDisk, now)
      + (if RecordServes(sources[n], log, simulator, onDisk)
         then RecomputedFrom(sources[n].value, log, simulator, now) else [])
  }

  function Bare(log: string, simulator: string, now: Fingerprint): Candidate {
    Candidate(HandleOf(log, simulator, [], now), now(log, simulator, []))
  }

  /** Recorded handles first, recomputed merged handles next, the bare log last. */
  function AllCandidates(sources: seq<Option<HierRecord>>, log: string, simulator: string,
                         onDisk: string -> string, now: Fingerprint): seq<Candidate> {
    Exact(sources, log, simulator, onDisk, now) + Recomputed(sources, log, simulator, onDisk, now)
      + [Bare(log, simulator, now)]
  }

  /** Every candidate expects the fingerprint, now, of a log set the request may stand for. */
  lemma {:induction false} CandidatesExpectNow(sources: seq<Option<HierRecord>>, log: string, simulator: string,
                                               onDisk: string -> string, now: Fingerprint)
    ensures forall c :: c in AllCandidates(sources, log, simulator, onDisk, now) ==>
      ExpectsNow(c, sources, log, simulator, onDisk, now)
  {
    RecordedExpectNow(sources, |sources|, log, simulator, onDisk, now);
    assert sources[..|sources|] == sources;
    assert NamedSet(sources, log, simulator, simulator, [], onDisk);
    assert ExpectsNow(Bare(log, simulator, now), sources, log, simulator, onDisk, now);
  }

  lemma {:induction false} RecordedExpectNow(sources: seq<Option<HierRecord>>, n: nat, log: string, simulator: string,
                                             onDisk: string -> string, now: Fingerprint)
    requires n <= |sources|
    ensures forall c :: c in Exact(sources[..n], log, simulator, onDisk, now) ==>
      ExpectsNow(c, sources, log, simulator, onDisk, now)
    ensures forall c :: c in Recomputed(sources[..n], log, simulator, onDisk, now) ==>
      ExpectsNow(c, sources, log, simulator, onDisk, now)
    decreases n
  {
    if n > 0 {
      RecordedExpectNow(sources, n - 1, log, simulator, onDisk, now);
      assert sources[..n][..n - 1] == sources[..n - 1];
      if RecordServes(sources[n - 1], log, simulator, onDisk) {
        var r := sources[n - 1].value;
        ServesIff(sources[n - 1], log, simulator, onDisk);
        assert NamedSet(sources, log, simulator, RecordSimulator(r, simulator), RecordSupplements(r), onDisk);
      }
    }
  }

  /**
    Every recorded build of the request is tried, under its handle and under the merged handle
    that its logs have now.
   */
  lemma {:induction false} RecordsAreTried(sources: seq<Option<HierRecord>>, i: nat, log: string, simulator: string,
                                           onDisk: string -> string, now: Fingerprint)
    requires i < |sources| && RecordNames(sources[i], log, simulator, onDisk)
    ensures var r := sources[i].value;
      var supplements := if "" in r.supplements then [] else r.supplements;
      && (r.handle.Some? && r.handle.value != "" ==>
            Candidate(r.handle.value, now(log, simulator, supplements)) in Exact(sources, log, simulator, onDisk, now))
      && (supplements != [] ==>
            Candidate(HandleOf(log, simulator, supplements, now), now(log, simulator, supplements))
              in Recomputed(sources, log, simulator, onDisk, now))
  {
    var n := |sources| - 1;
    ServesIff(sources[i], log, simulator, onDisk);
    if i < n {
      RecordsAreTried(sources[..n], i, log, simulator, onDisk, now);
    }
  }

  method Candidates(sources: seq<Option<HierRecord>>, log: string, simulator: string,
                    onDisk: string -> string, now: Fingerprint)
    returns (all: seq<Candidate>, fallback: string)
    ensures all == AllCandidates(sources, log, simulator, onDisk, now)
    ensures fallback == if Recomputed(sources, log, simulator, onDisk, now) != []
                        then Recomputed(sources, log, simulator, onDisk, now)[0].expected else now(log, simulator, [])
  {
    var exact: seq<Candidate> := [];
    var recomputed: seq<Candidate> := [];
    for n := 0 to |sources|
      invariant exact == Exact(sources[..n], log, simulator, onDisk, now)
      invariant recomputed == Recomputed(sources[..n], log, simulator, onDisk, now)
    {
      assert sources[..n + 1][..n] == sources[..n];
      if RecordServes(sources[n], log, simulator, onDisk) {
        var r := sources[n].value;
        var used, supplements := RecordSimulator(r, simulator), RecordSupplements(r);
        var expected := now(log, used, supplements);
        if Truthy(r.handle).Some? {
          exact := exact + [Candidate(r.handle.value, expected)];
        }
        if supplements != [] {
          recomputed := recomputed + [Candidate(HandleOf(log, used, supplements, now), expected)];
        }
      }
    }
    assert sources[..|sources|] == sources;
    var bare := Candidate(HandleOf(log, simulator, [], now), now(log, simulator, []));
    fallback := if recomputed != [] then recomputed[0].expected else bare.expected;
    all := exact + recomputed + [bare];
  }

  /** Every registered hierarchy carries the snapshot it was built from. */
  ghost predicate AllRecorded(handles: map<string, Hierarchy>) {
    forall h :: h in handles ==> ValidDigest(handles[h].snapshot)
  }

  /** The first acceptable candidate. */
  ghost predicate FirstAccepted(all: seq<Candidate>, handles: map<string, Hierarchy>, i: nat) {
    i < |all| && Accepts(all[i], handles) && forall j | 0 <= j < i :: !Accepts(all[j], handles)
  }

  /** The snapshot is the fingerprint, now, of a log set the request may stand for. */
  ghost predicate CurrentFor(snapshot: string, sources: seq<Option<HierRecord>>, log: string, simulator: string,
                             onDisk: string -> string, now: Fingerprint) {
    exists used, supplements ::
      NamedSet(sources, log, simulator, used, supplements, onDisk) && snapshot == now(log, used, supplements)
  }

  /**
    `_resolve_hierarchy_context`. The hierarchy of the first acceptable candidate is handed
    out, with the fingerprint, computed now, of a log set the request may stand for; if the
    hierarchy recorded a snapshot, it is that one.
   */
  method Resolve(sources: seq<Option<HierRecord>>, handles: map<string, Hierarchy>, log: string, simulator: string,
                 onDisk: string -> string, now: Fingerprint)
    returns (found: Option<Hierarchy>, snapshot: string)
    ensures CurrentFor(snapshot, sources, log, simulator, onDisk, now)
    ensures found.Some? && ValidDigest(found.value.snapshot) ==> found.value.snapshot == Some(snapshot)
    ensures found.Some? && AllRecorded(handles) ==> found.value.snapshot == Some(snapshot)
    ensures var all := AllCandidates(sources, log, simulator, onDisk, now);
      if found.Some?
      then exists i: nat ::
        FirstAccepted(all, handles, i) && found.value == handles[all[i].handle] && snapshot == all[i].expected
      else forall i | 0 <= i < |all| :: !Accepts(all[i], handles)
  {
    CandidatesExpectNow(sources, log, simulator, onDisk, now);
    var all, fallback := Candidates(sources, log, simulator, onDisk, now);
    for n := 0 to |all|
      invariant forall i | 0 <= i < n :: !Accepts(all[i], handles)
    {
      if Accepts(all[n], handles) {
        assert FirstAccepted(all, handles, n);
        assert ExpectsNow(all[n], sources, log, simulator, onDisk, now);
        return Some(handles[all[n].handle]), all[n].expected;
      }
    }
    var recomputed := Recomputed(sources, log, simulator, onDisk, now);
    if recomputed != [] {
      assert recomputed[0] in all;
      assert ExpectsNow(recomputed[0], sources, log, simulator, onDisk, now);
    } else {
      assert ExpectsNow(Bare(log, simulator, now), sources, log, simulator, onDisk, now);
    }
    return None, fallback;
  }
}
