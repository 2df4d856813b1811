/** The small cache of parsed compile evidence and its lookup. */
module CompileContext {
  import opened Wrappers
  import opened HierarchyContext

  /** A cached compile context; paths are stored resolved. */
  datatype Record = Record(log: string, simulator: string, supplements: seq<string>, snapshot: string, evidence: string)

  const MAX: nat := 4

  /** The cache as an insertion-ordered dict keyed by snapshot. */
  ghost predicate Keyed(records: seq<Record>) {
    forall i, j | 0 <= i < j < |records| :: records[i].snapshot != records[j].snapshot
  }

  /** `d[key] = value`: a key keeps its place, a new key goes to the end. */
  function Put(records: seq<Record>, r: Record): seq<Record> {
    if records == [] then [r]
    else if records[0].snapshot == r.snapshot then [r] + records[1..]
    else [records[0]] + Put(records[1..], r)
  }

  ghost predicate HasKey(records: seq<Record>, key: string) {
    exists i :: 0 <= i < |records| && records[i].snapshot == key
  }

  lemma {:induction false} PutNew(records: seq<Record>, r: Record)
    requires !HasKey(records, r.snapshot)
    ensures Put(records, r) == records + [r]
    decreases |records|
  {
    if records != [] {
      assert records[0].snapshot != r.snapshot;
      assert forall i | 0 <= i < |records[1..]| :: records[1..][i] == records[i + 1];
      PutNew(records[1..], r);
    }
  }

  lemma {:induction false} PutKnown(records: seq<Record>, r: Record, i: nat)
    requires Keyed(records) && i < |records| && records[i].snapshot == r.snapshot
    ensures Put(records, r) == records[i := r]
    decreases |records|
  {
    if i > 0 {
      assert records[0].snapshot != records[i].snapshot;
      PutKnown(records[1..], r, i - 1);
    }
  }

  /** Storing keeps the keys distinct and the record at hand, and adds at most one entry. */
  lemma PutKeyed(records: seq<Record>, r: Record)
    requires Keyed(records)
    ensures Keyed(Put(records, r)) && r in Put(records, r)
    ensures |Put(records, r)| == |records| + (if HasKey(records, r.snapshot) then 0 else 1)
  {
    if HasKey(records, r.snapshot) {
      var i :| 0 <= i < |records| && records[i].snapshot == r.snapshot;
      PutKnown(records, r, i);
      assert records[i := r][i] == r;
    } else {
      PutNew(records, r);
      assert (records + [r])[|records|] == r;
    }
  }

  function ResolveAll(paths: seq<string>, onDisk: string -> string): seq<string> {
    seq(|paths|, i requires 0 <= i < |paths| => onDisk(paths[i]))
  }

  /** `str(record.get("simulator") or "auto")`. */
  function BuiltFor(r: Record): string {
    if r.simulator == "" then "auto" else r.simulator
  }

  /** The record answers the request and its snapshot equals the fingerprint computed now. */
  predicate Matches(r: Record, log: string, simulator: string, supplements: seq<string>,
                    onDisk: string -> string, now: Fingerprint) {
    && r.log == onDisk(log)
    && (simulator == "auto" || BuiltFor(r) in [simulator, "auto"])
    && (supplements == [] || r.supplements == ResolveAll(supplements, onDisk))
    && r.snapshot == now(log, if simulator == "auto" then BuiltFor(r) else simulator,
                         if supplements != [] then supplements else r.supplements)
  }

  /** One is the other with each path resolved. */
  ghost predicate Resolves(resolved: seq<string>, paths: seq<string>, onDisk: string -> string) {
    |resolved| == |paths| && forall i | 0 <= i < |paths| :: resolved[i] == onDisk(paths[i])
  }

  /** The record is of another log, simulator or supplements, or what it was parsed from has changed since. */
  ghost predicate Differs(r: Record, log: string, simulator: string, supplements: seq<string>,
                          onDisk: string -> string, now: Fingerprint) {
    || r.log != onDisk(log)
    || (simulator != "auto" && r.simulator != simulator && r.simulator !in ["auto", ""])
    || (supplements != [] && !Resolves(r.supplements, supplements, onDisk))
    || var used := if simulator != "auto" then simulator else if r.simulator != "" then r.simulator else "auto";
       r.snapshot != now(log, used, if supplements != [] then supplements else r.supplements)
  }

  /** A record is passed over exactly when it differs in one of these. */
  lemma DiffersIff(r: Record, log: string, simulator: string, supplements: seq<string>,
                   onDisk: string -> string, now: Fingerprint)
    ensures Matches(r, log, simulator, supplements, onDisk, now) <==>
      !Differs(r, log, simulator, supplements, onDisk, now)
  {
    assert Resolves(r.supplements, supplements, onDisk) <==> r.supplements == ResolveAll(supplements, onDisk);
  }

  ghost predicate LastMatch(records: seq<Record>, i: int, log: string, simulator: string, supplements: seq<string>,
                            onDisk: string -> string, now: Fingerprint) {
    && 0 <= i < |records| && !Differs(records[i], log, simulator, supplements, onDisk, now)
    && forall j | i < j < |records| :: Differs(records[j], log, simulator, supplements, onDisk, now)
  }

  class Cache {
    var records: seq<Record>

    ghost predicate Valid()
      reads this
    {
      Keyed(records) && |records| <= MAX
    }

    constructor ()
      ensures Valid() && records == []
    {
      records := [];
    }

    /** `_cache_compile_context`: the stored record is there afterwards; at most the oldest key goes. */
    method Store(r: Record)
      requires Valid()
      modifies this
      ensures Valid() && r in records
      ensures records == (var all := Put(old(records), r); if |all| > MAX then all[1..] else all)
    {
      ghost var before := records;
      PutKeyed(records, r);
      if !HasKey(records, r.snapshot) {
        PutNew(records, r);
      }
      records := Put(records, r);
      while |records| > MAX
        invariant Keyed(records) && r in records
        invariant records == Put(before, r) || (|records| == MAX && records == Put(before, r)[1..])
      {
        assert records == before + [r];
        assert records[1..][MAX - 1] == r;
        records := records[1..];
      }
    }

    /**
      `_resolve_cached_compile_context`: of the records that are of the same log, simulator and
      supplements as the request and whose sources are unchanged, the one furthest to the end.
     */
    method Resolve(log: string, simulator: string, supplements: seq<string>,
                   onDisk: string -> string, now: Fingerprint)
      returns (found: Option<Record>)
      requires Valid()
      ensures found.Some? ==>
        && found.value.log == onDisk(log)
        && (simulator != "auto" ==> found.value.simulator == simulator || found.value.simulator in ["auto", ""])
        && (supplements != [] ==> Resolves(found.value.supplements, supplements, onDisk))
      ensures found.Some? ==>
        var used := if simulator != "auto" then simulator
                    else if found.value.simulator != "" then found.value.simulator else "auto";
        found.value.snapshot == now(log, used, if supplements != [] then supplements else found.value.supplements)
      ensures found.Some? ==>
        exists i :: LastMatch(records, i, log, simulator, supplements, onDisk, now) && found.value == records[i]
      ensures found.None? <==>
        forall i | 0 <= i < |records| :: Differs(records[i], log, simulator, supplements, onDisk, now)
    {
      var n := |records|;
      while n > 0
        invariant 0 <= n <= |records|
        invariant forall j | n <= j < |records| :: Differs(records[j], log, simulator, supplements, onDisk, now)
      {
        n := n - 1;
        DiffersIff(records[n], log, simulator, supplements, onDisk, now);
        if Matches(records[n], log, simulator, supplements, onDisk, now) {
          assert LastMatch(records, n, log, simulator, supplements, onDisk, now);
          return Some(records[n]);
        }
      }
      return None;
    }
  }

  /** A record stored last is the one furthest to the end exactly when its key was new or already last. */
  lemma LatestIsLastOnlyWhenNew(records: seq<Record>, r: Record)
    requires Keyed(records)
    ensures var s := Put(records, r);
      |s| > 0 && (s[|s| - 1] == r <==>
        forall i | 0 <= i < |records| - 1 :: records[i].snapshot != r.snapshot)
  {
    if HasKey(records, r.snapshot) {
      var i :| 0 <= i < |records| && records[i].snapshot == r.snapshot;
      PutKnown(records, r, i);
    } else {
      PutNew(records, r);
    }
  }

  /** Caching A, then B, then A again leaves B at the end: the newest does not win. */
  lemma RefreshedContextDoesNotWin(a: Record, b: Record)
    requires a.snapshot != b.snapshot
    ensures Put(Put(Put([], a), b), a) == [a, b]
  {
    PutNew([], a);
    PutNew([a], b);
    PutKnown([a, b], a, 0);
  }
}
