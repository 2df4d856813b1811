/** Aggregation of identity-free metrics over the artifact attempts of one request. */
module TraceMetrics {
  import opened Wrappers

  datatype Total = PrepareTotal | AdmissionWait | Build | Load | ActualBuilds | CoalescedWaiters | WorkerCpu
  datatype SessionCount = Hits | Misses | Restarts | Evictions
  datatype DiskTotal =
    | LookupWall | ReadWall | ValidateWall | PublishWall | WriteWall | EvictionWall
    | DiskHits | DiskMisses | DiskCorrupt | BuildSkips | BytesRead | BytesWritten | DiskEvictions
  datatype Snap = IrBytes | CacheBytes | CacheEntries
  datatype DiskSnap = DiskEntries | DiskBytes
  datatype Peak = PeakEntries | PeakBytes | CacheEvictions | OversizeBypasses

  /** The keys of the aggregate. */
  datatype Field =
    | AdapterWall | QueryWall | OfTotal(total: Total) | Frontend | OfSession(session: SessionCount)
    | OfDisk(disk: DiskTotal) | CancelToExit | RssStart | RssPeak | RssEnd
    | OfSnap(snap: Snap) | OfDiskSnap(diskSnap: DiskSnap) | OfPeak(peak: Peak)

  const TOTALS: seq<Field> := [OfTotal(PrepareTotal), OfTotal(AdmissionWait), OfTotal(Build), OfTotal(Load),
    OfTotal(ActualBuilds), OfTotal(CoalescedWaiters), OfTotal(WorkerCpu)]
  const SESSIONS: seq<Field> := [OfSession(Hits), OfSession(Misses), OfSession(Restarts), OfSession(Evictions)]
  const DISKS: seq<Field> := [OfDisk(LookupWall), OfDisk(ReadWall), OfDisk(ValidateWall), OfDisk(PublishWall),
    OfDisk(WriteWall), OfDisk(EvictionWall), OfDisk(DiskHits), OfDisk(DiskMisses), OfDisk(DiskCorrupt),
    OfDisk(BuildSkips), OfDisk(BytesRead), OfDisk(BytesWritten), OfDisk(DiskEvictions)]
  const SNAPS: seq<Field> := [OfSnap(IrBytes), OfSnap(CacheBytes), OfSnap(CacheEntries)]
  const DISK_SNAPS: seq<Field> := [OfDiskSnap(DiskEntries), OfDiskSnap(DiskBytes)]
  const PEAKS: seq<Field> := [OfPeak(PeakEntries), OfPeak(PeakBytes), OfPeak(CacheEvictions), OfPeak(OversizeBypasses)]

  /** The metrics of preparing one artifact. */
  datatype Prepare = Prepare(
    total: Total -> Option<real>, session: SessionCount -> real, frontend: real,
    diskEnabled: bool, disk: DiskTotal -> real, cancel: Option<real>,
    rssStart: Option<real>, rssPeak: Option<real>, rssEnd: Option<real>,
    snap: Snap -> real, diskSnap: DiskSnap -> real, peak: Peak -> real)

  /** One call: any of the adapter, prepare and query parts of an attempt. */
  datatype Call = Call(adapter: Option<real>, prepare: Option<Prepare>, query: Option<real>)

  type Aggregate = map<Field, real>

  // ---- The closed form ----

  function Max(a: real, b: real): real {
    if a < b then b else a
  }

  predicate UsesSession(p: Prepare) {
    exists c: SessionCount :: p.session(c) != 0.0
  }

  /** Some attempt of these used a semantic session. */
  predicate Observed(calls: seq<Call>) {
    exists i | 0 <= i < |calls| :: calls[i].prepare.Some? && UsesSession(calls[i].prepare.value)
  }

  /** What one call contributes to a field; `observed` tells whether a session was used up to this call. */
  function Contribution(call: Call, field: Field, observed: bool): Option<real> {
    if field.AdapterWall? then (if call.adapter.Some? then Some(Max(call.adapter.value, 0.0)) else None)
    else if field.QueryWall? then (if call.query.Some? then Some(Max(call.query.value, 0.0)) else None)
    else if call.prepare.None? then None
    else PrepareContribution(call.prepare.value, field, observed)
  }

  function PrepareContribution(p: Prepare, field: Field, observed: bool): Option<real> {
    match field
    case OfTotal(t) => p.total(t)
    case Frontend => if p.diskEnabled || observed then Some(p.frontend) else None
    case OfSession(c) => if observed then Some(p.session(c)) else None
    case OfDisk(d) => if p.diskEnabled then Some(p.disk(d)) else None
    case CancelToExit => p.cancel
    case RssStart => p.rssStart
    case RssPeak => p.rssPeak
    case RssEnd => p.rssEnd
    case OfSnap(s) => Some(p.snap(s))
    case OfDiskSnap(s) => if p.diskEnabled then Some(p.diskSnap(s)) else None
    case OfPeak(k) => Some(p.peak(k))
    case _ => None
  }

  /** All contributions to a field, in order. */
  function Contributions(calls: seq<Call>, field: Field): seq<real> {
    if calls == [] then []
    else
      var c := Contribution(calls[|calls| - 1], field, Observed(calls));
      Contributions(calls[..|calls| - 1], field) + (if c.Some? then [c.value] else [])
  }

  function Sum(xs: seq<real>): real {
    if xs == [] then 0.0 else Sum(xs[..|xs| - 1]) + xs[|xs| - 1]
  }

  function Greatest(xs: seq<real>): real {
    if xs == [] then 0.0 else Max(Greatest(xs[..|xs| - 1]), xs[|xs| - 1])
  }

  /** Totals add up, peaks are maxima from zero, the first start and the last of the rest stay. */
  function Combined(field: Field, xs: seq<real>): real
    requires xs != []
  {
    match field
    case RssStart => xs[0]
    case RssEnd => xs[|xs| - 1]
    case OfSnap(_) => xs[|xs| - 1]
    case OfDiskSnap(_) => xs[|xs| - 1]
    case CancelToExit => Greatest(xs)
    case RssPeak => Greatest(xs)
    case OfPeak(_) => Greatest(xs)
    case _ => Sum(xs)
  }

  /** The aggregate holds exactly the fields something contributed to, each combined over its contributions. */
  ghost predicate Aggregates(agg: Aggregate, calls: seq<Call>) {
    forall f: Field :: FieldIs(agg, f, Contributions(calls, f))
  }

  ghost predicate FieldIs(agg: Aggregate, f: Field, xs: seq<real>) {
    (f in agg <==> xs != []) && (f in agg ==> agg[f] == Combined(f, xs))
  }

  // ---- One call as an update of the aggregate ----

  function Added(agg: Aggregate, f: Field, x: real): Aggregate {
    agg[f := (if f in agg then agg[f] else 0.0) + x]
  }

  function Raised(agg: Aggregate, f: Field, x: real): Aggregate {
    agg[f := Max(if f in agg then agg[f] else 0.0, x)]
  }

  /** `f` has taken in one more contribution, or none. */
  ghost predicate Took(before: Aggregate, after: Aggregate, f: Field, c: Option<real>) {
    if c.None? then (f in after <==> f in before) && (f in before ==> after[f] == before[f])
    else f in after && after[f] == Renewed(before, f, c.value)
  }

  function Renewed(before: Aggregate, f: Field, x: real): real {
    match f
    case RssStart => if f in before then before[f] else x
    case RssEnd => x
    case OfSnap(_) => x
    case OfDiskSnap(_) => x
    case CancelToExit => Max(if f in before then before[f] else 0.0, x)
    case RssPeak => Max(if f in before then before[f] else 0.0, x)
    case OfPeak(_) => Max(if f in before then before[f] else 0.0, x)
    case _ => (if f in before then before[f] else 0.0) + x
  }

  lemma TookExtends(before: Aggregate, after: Aggregate, f: Field, xs: seq<real>, c: Option<real>)
    requires FieldIs(before, f, xs) && Took(before, after, f, c)
    ensures FieldIs(after, f, xs + (if c.Some? then [c.value] else []))
  {
    if c.Some? {
      var ys := xs + [c.value];
      assert ys[..|ys| - 1] == xs;
      assert Sum(ys) == Sum(xs) + c.value && Greatest(ys) == Max(Greatest(xs), c.value);
    } else {
      assert xs + [] == xs;
    }
  }

  /** If every field takes in its contribution, the closed form extends by the call. */
  lemma CallExtends(before: Aggregate, after: Aggregate, calls: seq<Call>, call: Call)
    requires Aggregates(before, calls)
    requires forall f: Field :: Took(before, after, f, Contribution(call, f, Observed(calls + [call])))
    ensures Aggregates(after, calls + [call])
  {
    forall f: Field ensures FieldIs(after, f, Contributions(calls + [call], f)) {
      assert (calls + [call])[..|calls|] == calls;
      assert FieldIs(before, f, Contributions(calls, f));
      TookExtends(before, after, f, Contributions(calls, f), Contribution(call, f, Observed(calls + [call])));
    }
  }

  lemma ObservedAppend(calls: seq<Call>, call: Call)
    ensures Observed(calls + [call]) <==> Observed(calls) || (call.prepare.Some? && UsesSession(call.prepare.value))
  {
    var all := calls + [call];
    if Observed(calls) {
      var i :| 0 <= i < |calls| && calls[i].prepare.Some? && UsesSession(calls[i].prepare.value);
      assert all[i] == calls[i];
    }
    assert all[|calls|] == call;
  }

  /** A session counter is in the aggregate exactly when a session was used. */
  lemma {:induction false} SessionFieldIff(calls: seq<Call>, c: SessionCount)
    ensures Contributions(calls, OfSession(c)) != [] <==> Observed(calls)
    decreases |calls|
  {
    if calls != [] {
      var front, last := calls[..|calls| - 1], calls[|calls| - 1];
      assert calls == front + [last];
      SessionFieldIff(front, c);
      ObservedAppend(front, last);
    }
  }

  // ---- The update in place ----

  /** Of all fields, exactly those listed have taken in the call's contribution. */
  ghost predicate Stage(before: Aggregate, after: Aggregate, fields: seq<Field>, call: Call, observed: bool) {
    forall f: Field :: Took(before, after, f, if f in fields then Contribution(call, f, observed) else None)
  }

  lemma Join(a: Aggregate, b: Aggregate, c: Aggregate, xs: seq<Field>, ys: seq<Field>, call: Call, observed: bool)
    requires Stage(a, b, xs, call, observed) && Stage(b, c, ys, call, observed)
    requires forall f :: f in xs ==> f !in ys
    ensures Stage(a, c, xs + ys, call, observed)
  {
    forall f: Field ensures Took(a, c, f, if f in xs + ys then Contribution(call, f, observed) else None) {
      assert Took(a, b, f, if f in xs then Contribution(call, f, observed) else None);
      assert Took(b, c, f, if f in ys then Contribution(call, f, observed) else None);
    }
  }

  lemma StageOne(before: Aggregate, after: Aggregate, x: Field, call: Call, observed: bool)
    requires Took(before, after, x, Contribution(call, x, observed))
    requires forall f: Field | f != x :: (f in after <==> f in before) && (f in before ==> after[f] == before[f])
    ensures Stage(before, after, [x], call, observed)
  {
    forall f: Field ensures Took(before, after, f, if f in [x] then Contribution(call, f, observed) else None) {
      if f != x {
        assert f !in [x];
      }
    }
  }

  predicate Adds(f: Field) {
    f.AdapterWall? || f.QueryWall? || f.OfTotal? || f.Frontend? || f.OfSession? || f.OfDisk?
  }

  predicate Replaces(f: Field) {
    f.RssEnd? || f.OfSnap? || f.OfDiskSnap?
  }

  ghost predicate Once(fields: seq<Field>) {
    forall i, j | 0 <= i < j < |fields| :: fields[i] != fields[j]
  }

  method AddEach(before: Aggregate, fields: seq<Field>, call: Call, observed: bool) returns (after: Aggregate)
    requires Once(fields) && forall f :: f in fields ==> Adds(f)
    ensures Stage(before, after, fields, call, observed)
  {
    after := before;
    for n := 0 to |fields|
      invariant Stage(before, after, fields[..n], call, observed)
    {
      var f := fields[n];
      assert f in fields;
      var c := Contribution(call, f, observed);
      ghost var was := after;
      if c.Some? {
        after := Added(after, f, c.value);
      }
      StageOne(was, after, f, call, observed);
      Join(before, was, after, fields[..n], [f], call, observed);
      assert fields[..n + 1] == fields[..n] + [f];
    }
    assert fields[..|fields|] == fields;
  }

  method PutEach(before: Aggregate, fields: seq<Field>, call: Call, observed: bool) returns (after: Aggregate)
    requires Once(fields) && forall f :: f in fields ==> Replaces(f)
    ensures Stage(before, after, fields, call, observed)
  {
    after := before;
    for n := 0 to |fields|
      invariant Stage(before, after, fields[..n], call, observed)
    {
      var f := fields[n];
      assert f in fields;
      var c := Contribution(call, f, observed);
      ghost var was := after;
      if c.Some? {
        after := after[f := c.value];
      }
      StageOne(was, after, f, call, observed);
      Join(before, was, after, fields[..n], [f], call, observed);
      assert fields[..n + 1] == fields[..n] + [f];
    }
    assert fields[..|fields|] == fields;
  }

  method RaiseEach(before: Aggregate, fields: seq<Field>, call: Call, observed: bool) returns (after: Aggregate)
    requires Once(fields) && forall f :: f in fields ==> f.CancelToExit? || f.RssPeak? || f.OfPeak?
    ensures Stage(before, after, fields, call, observed)
  {
    after := before;
    for n := 0 to |fields|
      invariant Stage(before, after, fields[..n], call, observed)
    {
      var f := fields[n];
      assert f in fields;
      var c := Contribution(call, f, observed);
      ghost var was := after;
      if c.Some? {
        after := Raised(after, f, c.value);
      }
      StageOne(was, after, f, call, observed);
      Join(before, was, after, fields[..n], [f], call, observed);
      assert fields[..n + 1] == fields[..n] + [f];
    }
    assert fields[..|fields|] == fields;
  }

  const WALLS: seq<Field> := [AdapterWall, QueryWall]
  const COUNTS: seq<Field> := [Frontend] + SESSIONS
  const MEMORY_PEAKS: seq<Field> := [CancelToExit, RssPeak]

  /** The loop, or the statement, of the update that handles a field. */
  function Group(f: Field): nat {
    match f
    case AdapterWall => 0
    case QueryWall => 0
    case OfTotal(_) => 1
    case Frontend => 2
    case OfSession(_) => 2
    case OfDisk(_) => 3
    case CancelToExit => 4
    case RssPeak => 4
    case RssStart => 5
    case RssEnd => 6
    case OfSnap(_) => 7
    case OfDiskSnap(_) => 8
    case OfPeak(_) => 9
  }

  ghost predicate Lists(fields: seq<Field>, group: nat) {
    Once(fields) && forall f: Field :: f in fields <==> Group(f) == group
  }

  lemma TotalsListed()
    ensures Lists(TOTALS, 1)
  {
    forall f: Field | Group(f) == 1 ensures f in TOTALS {
      match f.total
      case PrepareTotal => assert f == TOTALS[0];
      case AdmissionWait => assert f == TOTALS[1];
      case Build => assert f == TOTALS[2];
      case Load => assert f == TOTALS[3];
      case ActualBuilds => assert f == TOTALS[4];
      case CoalescedWaiters => assert f == TOTALS[5];
      case WorkerCpu => assert f == TOTALS[6];
    }
  }

  lemma CountsListed()
    ensures Lists(COUNTS, 2) && Lists(WALLS, 0)
  {
    forall f: Field | Group(f) == 2 ensures f in COUNTS {
      if f.Frontend? {
        assert f == COUNTS[0];
      } else {
        match f.session
        case Hits => assert f == COUNTS[1];
        case Misses => assert f == COUNTS[2];
        case Restarts => assert f == COUNTS[3];
        case Evictions => assert f == COUNTS[4];
      }
    }
    forall f: Field | Group(f) == 0 ensures f in WALLS {
      assert f == WALLS[0] || f == WALLS[1];
    }
  }

  lemma DisksListed()
    ensures Lists(DISKS, 3)
  {
    forall f: Field | Group(f) == 3 ensures f in DISKS {
      match f.disk
      case LookupWall => assert f == DISKS[0];
      case ReadWall => assert f == DISKS[1];
      case ValidateWall => assert f == DISKS[2];
      case PublishWall => assert f == DISKS[3];
      case WriteWall => assert f == DISKS[4];
      case EvictionWall => assert f == DISKS[5];
      case DiskHits => assert f == DISKS[6];
      case DiskMisses => assert f == DISKS[7];
      case DiskCorrupt => assert f == DISKS[8];
      case BuildSkips => assert f == DISKS[9];
      case BytesRead => assert f == DISKS[10];
      case BytesWritten => assert f == DISKS[11];
      case DiskEvictions => assert f == DISKS[12];
    }
  }

  lemma MemoryListed()
    ensures Lists(MEMORY_PEAKS, 4) && Lists([RssEnd], 6)
  {
    forall f: Field | Group(f) == 4 ensures f in MEMORY_PEAKS {
      assert f == MEMORY_PEAKS[0] || f == MEMORY_PEAKS[1];
    }
  }

  lemma SnapsListed()
    ensures Lists(SNAPS, 7)
  {
    forall f: Field | Group(f) == 7 ensures f in SNAPS {
      match f.snap
      case IrBytes => assert f == SNAPS[0];
      case CacheBytes => assert f == SNAPS[1];
      case CacheEntries => assert f == SNAPS[2];
    }
  }

  lemma DiskSnapsListed()
    ensures Lists(DISK_SNAPS, 8)
  {
    forall f: Field | Group(f) == 8 ensures f in DISK_SNAPS {
      match f.diskSnap
      case DiskEntries => assert f == DISK_SNAPS[0];
      case DiskBytes => assert f == DISK_SNAPS[1];
    }
  }

  lemma PeaksListed()
    ensures Lists(PEAKS, 9)
  {
    forall f: Field | Group(f) == 9 ensures f in PEAKS {
      match f.peak
      case PeakEntries => assert f == PEAKS[0];
      case PeakBytes => assert f == PEAKS[1];
      case CacheEvictions => assert f == PEAKS[2];
      case OversizeBypasses => assert f == PEAKS[3];
    }
  }

  /** The groups below `n` have taken in the call's contributions. */
  ghost predicate UpTo(before: Aggregate, after: Aggregate, n: nat, call: Call, observed: bool) {
    forall f: Field :: Took(before, after, f, if Group(f) < n then Contribution(call, f, observed) else None)
  }

  lemma Advance(before: Aggregate, v: Aggregate, w: Aggregate, fields: seq<Field>, n: nat, call: Call, observed: bool)
    requires UpTo(before, v, n, call, observed) && Stage(v, w, fields, call, observed) && Lists(fields, n)
    ensures UpTo(before, w, n + 1, call, observed)
  {
    forall f: Field ensures Took(before, w, f, if Group(f) < n + 1 then Contribution(call, f, observed) else None) {
      assert Took(before, v, f, if Group(f) < n then Contribution(call, f, observed) else None);
      assert Took(v, w, f, if f in fields then Contribution(call, f, observed) else None);
    }
  }

  class Metrics {
    var values: Aggregate
    ghost var calls: seq<Call>

    ghost predicate Valid()
      reads this
    {
      Aggregates(values, calls)
    }

    constructor ()
      ensures Valid() && calls == []
    {
      values, calls := map[], [];
    }

    /** A session has been used: by this preparation, or, as the aggregate shows, by an earlier one. */
    method SessionUsed(p: Prepare) returns (used: bool)
      requires Valid()
      ensures used <==> UsesSession(p) || Observed(calls)
    {
      var counted := exists f | f in SESSIONS :: f in values;
      assert SESSIONS[0] == OfSession(Hits);
      assert counted <==> Observed(calls) by {
        forall c: SessionCount ensures OfSession(c) in values <==> Observed(calls) {
          SessionFieldIff(calls, c);
          assert FieldIs(values, OfSession(c), Contributions(calls, OfSession(c)));
        }
        assert OfSession(Hits) in SESSIONS;
        assert forall f :: f in SESSIONS ==> f.OfSession?;
      }
      used := UsesSession(p) || counted;
    }

    /** `_accumulate_source_graph_trace_metrics`. */
    method Accumulate(call: Call)
      requires Valid()
      modifies this
      ensures calls == old(calls) + [call] && Valid()
    {
      ObservedAppend(calls, call);
      var used := false;
      if call.prepare.Some? {
        used := SessionUsed(call.prepare.value);
      }
      ghost var before := values;
      values := TakeIn(values, call, used);
      forall f: Field ensures Took(before, values, f, Contribution(call, f, Observed(calls + [call]))) {
        assert Contribution(call, f, Observed(calls + [call])) == Contribution(call, f, used);
      }
      CallExtends(before, values, calls, call);
      calls := calls + [call];
    }
  }

  method TakeIn(before: Aggregate, call: Call, used: bool) returns (after: Aggregate)
    ensures forall f: Field :: Took(before, after, f, Contribution(call, f, used))
  {
    CountsListed();
    var v0 := AddEach(before, WALLS, call, used);
    Advance(before, before, v0, WALLS, 0, call, used);
    TotalsListed();
    var v1 := AddEach(v0, TOTALS, call, used);
    Advance(before, v0, v1, TOTALS, 1, call, used);
    var v2 := AddEach(v1, COUNTS, call, used);
    Advance(before, v1, v2, COUNTS, 2, call, used);
    DisksListed();
    var v3 := AddEach(v2, DISKS, call, used);
    Advance(before, v2, v3, DISKS, 3, call, used);
    after := TakeInMemory(before, v3, call, used);
  }

  method TakeInMemory(ghost before: Aggregate, v3: Aggregate, call: Call, used: bool) returns (after: Aggregate)
    requires UpTo(before, v3, 4, call, used)
    ensures forall f: Field :: Took(before, after, f, Contribution(call, f, used))
  {
    MemoryListed();
    var v4 := RaiseEach(v3, MEMORY_PEAKS, call, used);
    Advance(before, v3, v4, MEMORY_PEAKS, 4, call, used);
    var v5 := v4;
    if call.prepare.Some? && call.prepare.value.rssStart.Some? && RssStart !in v4 {
      v5 := v4[RssStart := call.prepare.value.rssStart.value];
    }
    Advance(before, v4, v5, [RssStart], 5, call, used);
    var v6 := PutEach(v5, [RssEnd], call, used);
    Advance(before, v5, v6, [RssEnd], 6, call, used);
    SnapsListed();
    DiskSnapsListed();
    PeaksListed();
    var v7 := PutEach(v6, SNAPS, call, used);
    Advance(before, v6, v7, SNAPS, 7, call, used);
    var v8 := PutEach(v7, DISK_SNAPS, call, used);
    Advance(before, v7, v8, DISK_SNAPS, 8, call, used);
    after := RaiseEach(v8, PEAKS, call, used);
    Advance(before, v8, after, PEAKS, 9, call, used);
    assert forall f: Field :: Group(f) < 10;
  }

  // ---- What the closed form says ----

  /** The closed form determines the aggregate. */
  lemma OneAggregate(a: Aggregate, b: Aggregate, calls: seq<Call>, others: seq<Call>)
    requires Aggregates(a, calls) && Aggregates(b, others)
    requires forall f: Field :: Contributions(calls, f) == Contributions(others, f)
    ensures a == b
  {
    forall f: Field ensures (f in a <==> f in b) && (f in a ==> a[f] == b[f]) {
      assert FieldIs(a, f, Contributions(calls, f)) && FieldIs(b, f, Contributions(others, f));
    }
    assert a.Keys == b.Keys;
  }

  /** The session counters are reported exactly when some attempt so far used a session. */
  lemma SessionCountersIff(agg: Aggregate, calls: seq<Call>, c: SessionCount)
    requires Aggregates(agg, calls)
    ensures OfSession(c) in agg <==>
      exists i, used :: 0 <= i < |calls| && calls[i].prepare.Some? && calls[i].prepare.value.session(used) != 0.0
  {
    SessionFieldIff(calls, c);
    assert FieldIs(agg, OfSession(c), Contributions(calls, OfSession(c)));
  }

  /** An attempt's adapter, prepare and query parts, reported one by one. */
  function Parts(call: Call): seq<Call> {
    [Call(call.adapter, None, None), Call(None, call.prepare, None), Call(None, None, call.query)]
  }

  function AllParts(calls: seq<Call>): seq<Call> {
    if calls == [] then [] else AllParts(calls[..|calls| - 1]) + Parts(calls[|calls| - 1])
  }

  function Listed(c: Option<real>): seq<real> {
    if c.Some? then [c.value] else []
  }

  lemma ContributionsAppend(calls: seq<Call>, call: Call, f: Field)
    ensures Contributions(calls + [call], f) ==
      Contributions(calls, f) + Listed(Contribution(call, f, Observed(calls + [call])))
  {
    assert (calls + [call])[..|calls|] == calls;
  }

  lemma PartsOfOneObserved(calls: seq<Call>, call: Call)
    ensures Observed(calls + Parts(call)) <==> Observed(calls + [call])
  {
    var parts := Parts(call);
    assert calls + parts == calls + [parts[0]] + [parts[1]] + [parts[2]];
    ObservedAppend(calls, parts[0]);
    ObservedAppend(calls + [parts[0]], parts[1]);
    ObservedAppend(calls + [parts[0]] + [parts[1]], parts[2]);
    ObservedAppend(calls, call);
  }

  /** The parts of one attempt contribute what the attempt does: each field is fed by one part only. */
  lemma PartsOfOneContribute(calls: seq<Call>, call: Call, f: Field)
    ensures Contributions(calls + Parts(call), f) ==
      Contributions(calls, f) + Listed(Contribution(call, f, Observed(calls + [call])))
  {
    var parts := Parts(call);
    assert calls + parts == calls + [parts[0]] + [parts[1]] + [parts[2]];
    ContributionsAppend(calls, parts[0], f);
    ContributionsAppend(calls + [parts[0]], parts[1], f);
    ContributionsAppend(calls + [parts[0]] + [parts[1]], parts[2], f);
    ObservedAppend(calls, parts[0]);
    ObservedAppend(calls + [parts[0]], parts[1]);
    ObservedAppend(calls, call);
  }

  lemma {:induction false} PartsContribute(calls: seq<Call>, f: Field)
    ensures Observed(AllParts(calls)) <==> Observed(calls)
    ensures Contributions(AllParts(calls), f) == Contributions(calls, f)
    decreases |calls|
  {
    if calls != [] {
      var front, last := calls[..|calls| - 1], calls[|calls| - 1];
      PartsContribute(front, f);
      assert calls == front + [last];
      ObservedAppend(front, last);
      ObservedAppend(AllParts(front), last);
      PartsOfOneObserved(AllParts(front), last);
      PartsOfOneContribute(AllParts(front), last, f);
      ContributionsAppend(front, last, f);
    }
  }

  /** Reporting the parts of each attempt in several calls gives the same aggregate. */
  lemma SplittingChangesNothing(whole: Aggregate, split: Aggregate, calls: seq<Call>)
    requires Aggregates(whole, calls) && Aggregates(split, AllParts(calls))
    ensures whole == split
  {
    forall f: Field ensures Contributions(calls, f) == Contributions(AllParts(calls), f) {
      PartsContribute(calls, f);
    }
    OneAggregate(whole, split, calls, AllParts(calls));
  }

  /** The frontend launches counted: those of attempts with a disk cache, or with a session used up to then. */
  function FrontendTotal(calls: seq<Call>): real {
    if calls == [] then 0.0
    else
      var last := calls[|calls| - 1];
      FrontendTotal(calls[..|calls| - 1])
      + (if last.prepare.Some? && (last.prepare.value.diskEnabled || Observed(calls))
         then last.prepare.value.frontend else 0.0)
  }

  /** Each attempt's launches are counted once or not at all. */
  lemma {:induction false} FrontendCountedOnce(agg: Aggregate, calls: seq<Call>)
    requires Aggregates(agg, calls)
    ensures (if Frontend in agg then agg[Frontend] else 0.0) == FrontendTotal(calls)
  {
    assert FieldIs(agg, Frontend, Contributions(calls, Frontend));
    FrontendSum(calls);
  }

  lemma {:induction false} FrontendSum(calls: seq<Call>)
    ensures Sum(Contributions(calls, Frontend)) == FrontendTotal(calls)
    decreases |calls|
  {
    if calls != [] {
      FrontendSum(calls[..|calls| - 1]);
      var xs := Contributions(calls[..|calls| - 1], Frontend);
      var c := Contribution(calls[|calls| - 1], Frontend, Observed(calls));
      if c.Some? {
        assert Contributions(calls, Frontend) == xs + [c.value];
        assert (xs + [c.value])[..|xs|] == xs;
      } else {
        assert Contributions(calls, Frontend) == xs;
      }
    }
  }

  // ---- Which reading feeds which field ----

  /** The readings that were given, in order. */
  function Given(calls: seq<Call>, read: Call -> Option<real>): seq<real> {
    if calls == [] then []
    else Given(calls[..|calls| - 1], read) + Listed(read(calls[|calls| - 1]))
  }

  /** A reading of the preparation, of a call that reports one. */
  function OfPrepare(read: Prepare -> Option<real>): Call -> Option<real> {
    (c: Call) => if c.prepare.Some? then read(c.prepare.value) else None
  }

  /** A reading of a preparation with a disk cache. */
  function OfDiskPrepare(read: Prepare -> real): Call -> Option<real> {
    (c: Call) => if c.prepare.Some? && c.prepare.value.diskEnabled then Some(read(c.prepare.value)) else None
  }

  lemma {:induction false} GivenIs(calls: seq<Call>, f: Field, read: Call -> Option<real>)
    requires forall c, observed :: Contribution(c, f, observed) == read(c)
    ensures Contributions(calls, f) == Given(calls, read)
    decreases |calls|
  {
    if calls != [] {
      GivenIs(calls[..|calls| - 1], f, read);
    }
  }

  ghost predicate IsSum(agg: Aggregate, f: Field, xs: seq<real>) {
    (f in agg <==> xs != []) && (f in agg ==> agg[f] == Sum(xs))
  }

  /** The greatest of the readings, and of zero. */
  ghost predicate IsPeak(agg: Aggregate, f: Field, xs: seq<real>) {
    && (f in agg <==> xs != [])
    && (f in agg ==> agg[f] >= 0.0 && (agg[f] == 0.0 || agg[f] in xs) && forall x :: x in xs ==> x <= agg[f])
  }

  ghost predicate IsFirst(agg: Aggregate, f: Field, xs: seq<real>) {
    (f in agg <==> xs != []) && (f in agg ==> agg[f] == xs[0])
  }

  ghost predicate IsLast(agg: Aggregate, f: Field, xs: seq<real>) {
    (f in agg <==> xs != []) && (f in agg ==> agg[f] == xs[|xs| - 1])
  }

  lemma {:induction false} GreatestIs(xs: seq<real>)
    ensures Greatest(xs) >= 0.0 && (Greatest(xs) == 0.0 || Greatest(xs) in xs)
    ensures forall x :: x in xs ==> x <= Greatest(xs)
  {
    if xs != [] {
      GreatestIs(xs[..|xs| - 1]);
      assert xs == xs[..|xs| - 1] + [xs[|xs| - 1]];
    }
  }

  /** Wall times are summed, negative ones as zero. */
  lemma WallsFedBy(agg: Aggregate, calls: seq<Call>)
    requires Aggregates(agg, calls)
    ensures IsSum(agg, AdapterWall, Given(calls, (c: Call) =>
      if c.adapter == None then None else Some(if c.adapter.value > 0.0 then c.adapter.value else 0.0)))
    ensures IsSum(agg, QueryWall, Given(calls, (c: Call) =>
      if c.query == None then None else Some(if c.query.value > 0.0 then c.query.value else 0.0)))
  {
    var adapter := (c: Call) =>
      if c.adapter == None then None else Some(if c.adapter.value > 0.0 then c.adapter.value else 0.0);
    var query := (c: Call) =>
      if c.query == None then None else Some(if c.query.value > 0.0 then c.query.value else 0.0);
    GivenIs(calls, AdapterWall, adapter);
    GivenIs(calls, QueryWall, query);
    assert FieldIs(agg, AdapterWall, Contributions(calls, AdapterWall));
    assert FieldIs(agg, QueryWall, Contributions(calls, QueryWall));
  }

  /** Preparation totals are summed where they are reported, disk totals where there is a disk cache. */
  lemma TotalsFedBy(agg: Aggregate, calls: seq<Call>, t: Total, d: DiskTotal)
    requires Aggregates(agg, calls)
    ensures IsSum(agg, OfTotal(t), Given(calls, OfPrepare((p: Prepare) => p.total(t))))
    ensures IsSum(agg, OfDisk(d), Given(calls, OfDiskPrepare((p: Prepare) => p.disk(d))))
  {
    GivenIs(calls, OfTotal(t), OfPrepare((p: Prepare) => p.total(t)));
    GivenIs(calls, OfDisk(d), OfDiskPrepare((p: Prepare) => p.disk(d)));
    assert FieldIs(agg, OfTotal(t), Contributions(calls, OfTotal(t)));
    assert FieldIs(agg, OfDisk(d), Contributions(calls, OfDisk(d)));
  }

  /** Peaks are the greatest reading of their own kind. */
  lemma PeaksFedBy(agg: Aggregate, calls: seq<Call>, k: Peak)
    requires Aggregates(agg, calls)
    ensures IsPeak(agg, RssPeak, Given(calls, OfPrepare((p: Prepare) => p.rssPeak)))
    ensures IsPeak(agg, CancelToExit, Given(calls, OfPrepare((p: Prepare) => p.cancel)))
    ensures IsPeak(agg, OfPeak(k), Given(calls, OfPrepare((p: Prepare) => Some(p.peak(k)))))
  {
    GivenIs(calls, RssPeak, OfPrepare((p: Prepare) => p.rssPeak));
    GivenIs(calls, CancelToExit, OfPrepare((p: Prepare) => p.cancel));
    GivenIs(calls, OfPeak(k), OfPrepare((p: Prepare) => Some(p.peak(k))));
    forall f: Field | f == RssPeak || f == CancelToExit || f == OfPeak(k) ensures IsPeak(agg, f, Contributions(calls, f)) {
      assert FieldIs(agg, f, Contributions(calls, f));
      GreatestIs(Contributions(calls, f));
    }
  }

  /** The memory at the start is the first attempt's, that at the end the last one's, and so are the snapshots. */
  lemma EndsFedBy(agg: Aggregate, calls: seq<Call>, s: Snap, d: DiskSnap)
    requires Aggregates(agg, calls)
    ensures IsFirst(agg, RssStart, Given(calls, OfPrepare((p: Prepare) => p.rssStart)))
    ensures IsLast(agg, RssEnd, Given(calls, OfPrepare((p: Prepare) => p.rssEnd)))
    ensures IsLast(agg, OfSnap(s), Given(calls, OfPrepare((p: Prepare) => Some(p.snap(s)))))
    ensures IsLast(agg, OfDiskSnap(d), Given(calls, OfDiskPrepare((p: Prepare) => p.diskSnap(d))))
  {
    GivenIs(calls, RssStart, OfPrepare((p: Prepare) => p.rssStart));
    GivenIs(calls, RssEnd, OfPrepare((p: Prepare) => p.rssEnd));
    GivenIs(calls, OfSnap(s), OfPrepare((p: Prepare) => Some(p.snap(s))));
    GivenIs(calls, OfDiskSnap(d), OfDiskPrepare((p: Prepare) => p.diskSnap(d)));
    assert FieldIs(agg, RssStart, Contributions(calls, RssStart));
    assert FieldIs(agg, RssEnd, Contributions(calls, RssEnd));
    assert FieldIs(agg, OfSnap(s), Contributions(calls, OfSnap(s)));
    assert FieldIs(agg, OfDiskSnap(d), Contributions(calls, OfDiskSnap(d)));
  }

  /** The session counter of the attempts from the first one that used a session on. */
  function SessionTotal(calls: seq<Call>, c: SessionCount): real {
    if calls == [] then 0.0
    else
      var last := calls[|calls| - 1];
      SessionTotal(calls[..|calls| - 1], c)
      + (if last.prepare.Some? && Observed(calls) then last.prepare.value.session(c) else 0.0)
  }

  lemma {:induction false} SessionSum(calls: seq<Call>, c: SessionCount)
    ensures Sum(Contributions(calls, OfSession(c))) == SessionTotal(calls, c)
    decreases |calls|
  {
    if calls != [] {
      SessionSum(calls[..|calls| - 1], c);
      var xs := Contributions(calls[..|calls| - 1], OfSession(c));
      var x := Contribution(calls[|calls| - 1], OfSession(c), Observed(calls));
      if x.Some? {
        assert Contributions(calls, OfSession(c)) == xs + [x.value];
        assert (xs + [x.value])[..|xs|] == xs;
      } else {
        assert Contributions(calls, OfSession(c)) == xs;
      }
    }
  }

  lemma SessionFedBy(agg: Aggregate, calls: seq<Call>, c: SessionCount)
    requires Aggregates(agg, calls)
    ensures (if OfSession(c) in agg then agg[OfSession(c)] else 0.0) == SessionTotal(calls, c)
  {
    assert FieldIs(agg, OfSession(c), Contributions(calls, OfSession(c)));
    SessionSum(calls, c);
  }
}
