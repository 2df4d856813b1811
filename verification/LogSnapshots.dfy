/** Snapshots of parsed failure events, kept so that a rerun can be compared with the run before. */
module LogSnapshots {
  import opened Wrappers
  import Ordering

  /** What a snapshot's history is filed under; an empty time unit counts as none. */
  datatype Key = Key(onDisk: string, simulator: string, unit: Option<string>)

  datatype Snapshot = Snapshot(
    logPath: string, onDisk: string, simulator: string, unit: Option<string>, events: seq<string>,
    mtime: int, size: int)

  /** `_log_snapshot_id`: a digest of the real path, the simulator, the events and the time unit. */
  type Digest = (string, string, seq<string>, Option<string>) -> string

  function IdOf(s: Snapshot, id: Digest): string {
    id(s.onDisk, s.simulator, s.events, s.unit)
  }

  function KeyFor(onDisk: string, simulator: string, unit: Option<string>): Key {
    Key(onDisk, simulator, if unit == Some("") then None else unit)
  }

  function KeyOf(s: Snapshot): Key {
    KeyFor(s.onDisk, s.simulator, s.unit)
  }

  /** Different material has different digests. */
  ghost predicate Injective(id: Digest) {
    forall p, s, e, u, p', s', e', u' :: id(p, s, e, u) == id(p', s', e', u') ==>
      p == p' && s == s' && e == e' && u == u'
  }

  datatype Store = Store(snapshots: map<string, Snapshot>, history: map<Key, seq<string>>)

  const EMPTY: Store := Store(map[], map[])

  function HistoryOf(s: Store, key: Key): seq<string> {
    if key in s.history then s.history[key] else []
  }

  /** A snapshot replaces the one of the same id, and is filed once. */
  function Captured(s: Store, e: Snapshot, id: Digest): Store {
    var ids := HistoryOf(s, KeyOf(e));
    Store(s.snapshots[IdOf(e, id) := e],
          s.history[KeyOf(e) := if IdOf(e, id) in ids then ids else ids + [IdOf(e, id)]])
  }

  ghost predicate Distinct(ids: seq<string>) {
    forall i, j | 0 <= i < j < |ids| :: ids[i] != ids[j]
  }

  ghost predicate Valid(s: Store, id: Digest) {
    && (forall i | i in s.snapshots :: IdOf(s.snapshots[i], id) == i && i in HistoryOf(s, KeyOf(s.snapshots[i])))
    && (forall k | k in s.history :: Distinct(s.history[k]))
    && (forall k, i | k in s.history && i in s.history[k] :: i in s.snapshots && KeyOf(s.snapshots[i]) == k)
  }

  /** Capturing keeps every history duplicate-free and pointing at stored snapshots of its own key. */
  lemma CaptureKeepsValid(s: Store, e: Snapshot, id: Digest)
    requires Valid(s, id) && Injective(id)
    ensures Valid(Captured(s, e, id), id)
  {
    var t := Captured(s, e, id);
    forall k, i | k in t.history && i in t.history[k] ensures i in t.snapshots && KeyOf(t.snapshots[i]) == k {
      if i == IdOf(e, id) && i in s.snapshots {
        assert KeyOf(s.snapshots[i]) == KeyOf(e);
      }
    }
  }

  /** What is stored under an id keeps its events, its log and its simulator. */
  lemma CaptureKeepsEvents(s: Store, e: Snapshot, id: Digest, i: string)
    requires Valid(s, id) && Injective(id) && i in s.snapshots
    ensures var t := Captured(s, e, id);
      && i in t.snapshots && t.snapshots[i].events == s.snapshots[i].events
      && t.snapshots[i].onDisk == s.snapshots[i].onDisk && t.snapshots[i].simulator == s.snapshots[i].simulator
      && t.snapshots[i].unit == s.snapshots[i].unit
  {
    assert IdOf(s.snapshots[i], id) == i;
  }

  /** Everything stored stays, with the same events. */
  ghost predicate KeepsEvents(s: Store, t: Store) {
    forall i | i in s.snapshots :: i in t.snapshots && t.snapshots[i].events == s.snapshots[i].events
  }

  lemma CapturedTwice(s: Store, e: Snapshot, id: Digest)
    ensures Captured(Captured(s, e, id), e, id) == Captured(s, e, id)
  {
    var t := Captured(s, e, id);
    assert IdOf(e, id) in HistoryOf(t, KeyOf(e));
    assert t.history[KeyOf(e) := HistoryOf(t, KeyOf(e))] == t.history;
    assert t.snapshots[IdOf(e, id) := e] == t.snapshots;
  }

  lemma CapturePreserves(s: Store, e: Snapshot, id: Digest)
    requires Valid(s, id) && Injective(id)
    ensures Valid(Captured(s, e, id), id) && KeepsEvents(s, Captured(s, e, id))
  {
    CaptureKeepsValid(s, e, id);
    forall i | i in s.snapshots ensures Captured(s, e, id).snapshots[i].events == s.snapshots[i].events {
      CaptureKeepsEvents(s, e, id, i);
    }
  }

  function CapturedAll(s: Store, run: seq<Snapshot>, id: Digest): Store
    decreases |run|
  {
    if run == [] then s else Captured(CapturedAll(s, run[..|run| - 1], id), run[|run| - 1], id)
  }

  /** The events behind an id never change, whatever is captured later. */
  lemma {:induction false} EventsNeverChange(s: Store, run: seq<Snapshot>, id: Digest, i: string)
    requires Valid(s, id) && Injective(id) && i in s.snapshots
    ensures var t := CapturedAll(s, run, id);
      Valid(t, id) && i in t.snapshots && t.snapshots[i].events == s.snapshots[i].events
    decreases |run|
  {
    if run != [] {
      EventsNeverChange(s, run[..|run| - 1], id, i);
      var t := CapturedAll(s, run[..|run| - 1], id);
      CaptureKeepsValid(t, run[|run| - 1], id);
      CaptureKeepsEvents(t, run[|run| - 1], id, i);
    }
  }

  // ---- What the parser lets through ----

  const UNITS: seq<string> := ["fs", "ps", "ns", "us", "ms", "s"]

  function Lower(s: string): string {
    seq(|s|, i requires 0 <= i < |s| => Ordering.LowerChar(s[i]))
  }

  /** A log is parsed, and so captured, only for a known simulator, and a time unit only for Verilator. */
  predicate Accepted(simulator: string, unit: Option<string>) {
    && Lower(simulator) in ["vcs", "xcelium", "verilator"]
    && (unit.Some? ==> Lower(simulator) == "verilator" && unit.value in UNITS)
  }

  ghost predicate AllAccepted(s: Store) {
    forall i | i in s.snapshots :: Accepted(s.snapshots[i].simulator, s.snapshots[i].unit)
  }

  /** Among accepted snapshots an absent unit and an empty one are never confused. */
  lemma SameKeySameSetting(e: Snapshot, onDisk: string, simulator: string, unit: Option<string>)
    requires Accepted(e.simulator, e.unit) && Accepted(simulator, unit)
    ensures KeyOf(e) == KeyFor(onDisk, simulator, unit) <==>
      e.onDisk == onDisk && e.simulator == simulator && e.unit == unit
  {
    assert "" !in UNITS;
  }

  lemma {:induction false} RunIsAccepted(run: seq<Snapshot>, id: Digest)
    requires Injective(id) && forall e | e in run :: Accepted(e.simulator, e.unit)
    ensures Valid(CapturedAll(EMPTY, run, id), id) && AllAccepted(CapturedAll(EMPTY, run, id))
    decreases |run|
  {
    if run != [] {
      assert forall e | e in run[..|run| - 1] :: e in run;
      RunIsAccepted(run[..|run| - 1], id);
      CaptureKeepsValid(CapturedAll(EMPTY, run[..|run| - 1], id), run[|run| - 1], id);
    }
  }

  /**
    Whatever logs were parsed: each id in the history of a request is a snapshot of the same
    log, simulator and unit, so its events are not refused to that request.
   */
  lemma HistoryIsUsable(run: seq<Snapshot>, onDisk: string, simulator: string, unit: Option<string>, i: string,
                        id: Digest)
    requires Injective(id) && Accepted(simulator, unit) && forall e | e in run :: Accepted(e.simulator, e.unit)
    requires i in HistoryOf(CapturedAll(EMPTY, run, id), KeyFor(onDisk, simulator, unit))
    ensures var s := CapturedAll(EMPTY, run, id);
      && i in s.snapshots && s.snapshots[i].onDisk == onDisk
      && s.snapshots[i].simulator == simulator && s.snapshots[i].unit == unit
  {
    RunIsAccepted(run, id);
    SameKeySameSetting(CapturedAll(EMPTY, run, id).snapshots[i], onDisk, simulator, unit);
  }

  // ---- What a history holds ----

  /** The ids captured under a key, in order and with repetitions. */
  function Ids(run: seq<Snapshot>, key: Key, id: Digest): seq<string> {
    if run == [] then []
    else Ids(run[..|run| - 1], key, id) + (if KeyOf(run[|run| - 1]) == key then [IdOf(run[|run| - 1], id)] else [])
  }

  /** Each id where it first occurs. */
  function FirstSeen(ids: seq<string>): seq<string> {
    if ids == [] then []
    else
      var front, x := ids[..|ids| - 1], ids[|ids| - 1];
      if x in front then FirstSeen(front) else FirstSeen(front) + [x]
  }

  lemma {:induction false} FirstSeenSame(ids: seq<string>, x: string)
    ensures x in FirstSeen(ids) <==> x in ids
    decreases |ids|
  {
    if ids != [] {
      assert ids == ids[..|ids| - 1] + [ids[|ids| - 1]];
      FirstSeenSame(ids[..|ids| - 1], x);
    }
  }

  /** A history lists the ids captured under its key, each at its first capture. */
  lemma {:induction false} HistoryIsFirstSeen(run: seq<Snapshot>, key: Key, id: Digest)
    ensures HistoryOf(CapturedAll(EMPTY, run, id), key) == FirstSeen(Ids(run, key, id))
    decreases |run|
  {
    if run != [] {
      var front, e := run[..|run| - 1], run[|run| - 1];
      HistoryIsFirstSeen(front, key, id);
      var before := Ids(front, key, id);
      if KeyOf(e) == key {
        assert Ids(run, key, id) == before + [IdOf(e, id)];
        FirstSeenAppend(before, IdOf(e, id));
        FirstSeenSame(before, IdOf(e, id));
      } else {
        assert Ids(run, key, id) == before;
      }
    }
  }

  lemma FirstSeenAppend(ids: seq<string>, x: string)
    ensures FirstSeen(ids + [x]) == if x in ids then FirstSeen(ids) else FirstSeen(ids) + [x]
  {
    assert (ids + [x])[..|ids|] == ids;
  }

  // ---- The previous snapshot ----

  /** The last id that is not the excluded one. */
  function LastOther(ids: seq<string>, exclude: Option<string>): Option<string> {
    if ids == [] then None
    else if exclude != Some(ids[|ids| - 1]) then Some(ids[|ids| - 1])
    else LastOther(ids[..|ids| - 1], exclude)
  }

  /** Nothing captured after a position is new there, other than the excluded id. */
  ghost predicate NothingNew(run: seq<string>, first: nat, exclude: Option<string>)
    requires first < |run|
  {
    forall k | first < k < |run| :: run[k] in run[..first + 1] || exclude == Some(run[k])
  }

  /**
    When a run of captures is followed by one of other events, the previous snapshot found is the
    one captured just before exactly when nothing else than the follower was new since that one's
    first capture.
   */
  lemma PreviousIsLastRunIff(run: seq<string>, c: string, first: nat)
    requires run != [] && c != run[|run| - 1]
    requires first < |run| && run[first] == run[|run| - 1] && run[first] !in run[..first]
    ensures LastOther(FirstSeen(run + [c]), Some(c)) == Some(run[|run| - 1]) <==> NothingNew(run, first, Some(c))
  {
    NewestButIff(run, first, Some(c));
    FirstSeenAppend(run, c);
    if c !in run {
      FirstSeenSame(run, c);
      SkipExcluded(FirstSeen(run), c);
    }
  }

  lemma SkipExcluded(ids: seq<string>, c: string)
    ensures LastOther(ids + [c], Some(c)) == LastOther(ids, Some(c))
  {
    assert (ids + [c])[..|ids|] == ids;
  }

  /** But for an excluded id, a history ends with this one exactly when nothing else was new after its first capture. */
  lemma {:induction false} NewestButIff(run: seq<string>, first: nat, exclude: Option<string>)
    requires first < |run| && run[first] !in run[..first] && exclude != Some(run[first])
    ensures LastOther(FirstSeen(run), exclude) == Some(run[first]) <==> NothingNew(run, first, exclude)
    decreases |run|
  {
    var front, x := run[..|run| - 1], run[|run| - 1];
    FirstSeenAppend(front, x);
    assert run == front + [x];
    if first < |front| {
      assert front[first] == run[first] && front[..first] == run[..first] && front[..first + 1] == run[..first + 1];
      NewestButIff(front, first, exclude);
      assert forall k | first < k < |front| :: front[k] == run[k];
      if x in front {
        NewOnlyOnce(run, first, exclude);
      } else {
        NewAtLast(run, first, exclude);
      }
    } else {
      assert (FirstSeen(front) + [x])[|FirstSeen(front)|] == x;
    }
  }

  lemma NewAtLast(run: seq<string>, first: nat, exclude: Option<string>)
    requires first + 1 < |run| && run[|run| - 1] !in run[..|run| - 1] && exclude != Some(run[first])
    ensures NothingNew(run, first, exclude) <==>
      exclude == Some(run[|run| - 1]) && NothingNew(run[..|run| - 1], first, exclude)
    ensures var front := run[..|run| - 1];
      LastOther(FirstSeen(front) + [run[|run| - 1]], exclude) ==
        if exclude == Some(run[|run| - 1]) then LastOther(FirstSeen(front), exclude) else Some(run[|run| - 1])
    ensures run[|run| - 1] != run[first]
  {
    var front, x := run[..|run| - 1], run[|run| - 1];
    assert front[first] == run[first] && front[..first + 1] == run[..first + 1];
    assert (FirstSeen(front) + [x])[..|FirstSeen(front)|] == FirstSeen(front);
    assert x !in run[..first + 1] by {
      assert forall y :: y in front[..first + 1] ==> y in front;
    }
    assert forall k | first < k < |front| :: front[k] == run[k];
  }

  lemma NewOnlyOnce(run: seq<string>, first: nat, exclude: Option<string>)
    requires first + 1 < |run| && run[|run| - 1] in run[..|run| - 1]
    ensures NothingNew(run, first, exclude) <==> NothingNew(run[..|run| - 1], first, exclude)
  {
    var front, x := run[..|run| - 1], run[|run| - 1];
    assert front[..first + 1] == run[..first + 1];
    var j :| 0 <= j < |front| && front[j] == x;
    if NothingNew(front, first, exclude) {
      assert x in run[..first + 1] || exclude == Some(x) by {
        assert j <= first ==> front[..first + 1][j] == x;
      }
    }
    if NothingNew(run, first, exclude) {
      forall k | first < k < |front| ensures front[k] in front[..first + 1] || exclude == Some(front[k]) {
        assert front[k] == run[k];
      }
    }
  }

  /** Captures A, B, A, C: before C comes B, though the run before C was A's. */
  lemma RevertedRun(a: string, b: string, c: string)
    requires a != b && a != c && b != c
    ensures LastOther(FirstSeen([a, b, a, c]), Some(c)) == Some(b)
  {
    assert [a, b, a, c][..3] == [a, b, a] && [a, b, a][..2] == [a, b] && [a, b][..1] == [a];
    assert FirstSeen([a]) == [a];
    assert FirstSeen([a, b]) == [a, b] && FirstSeen([a, b, a]) == [a, b] && FirstSeen([a, b, a, c]) == [a, b, c];
    assert [a, b, c][..2] == [a, b];
    assert LastOther([a, b, c], Some(c)) == LastOther([a, b], Some(c));
  }

  // ---- Which run the previous snapshot is of ----

  /** The same log, parsed with the same simulator and time unit. */
  predicate SameSetting(a: Snapshot, b: Snapshot) {
    a.onDisk == b.onDisk && a.simulator == b.simulator && a.unit == b.unit
  }

  ghost predicate AcceptedRun(run: seq<Snapshot>) {
    forall i | 0 <= i < |run| :: Accepted(run[i].simulator, run[i].unit)
  }

  /** These events of `e`'s log were captured here for the first time. */
  ghost predicate FirstWith(run: seq<Snapshot>, e: Snapshot, k: nat) {
    && k < |run| && SameSetting(run[k], e)
    && forall j | 0 <= j < k && SameSetting(run[j], e) :: run[j].events != run[k].events
  }

  /** Here other events of `e`'s log than its present ones were captured for the first time, and none later. */
  ghost predicate PreviousAt(run: seq<Snapshot>, e: Snapshot, k: nat) {
    && FirstWith(run, e, k) && run[k].events != e.events
    && forall j: nat | k < j && FirstWith(run, e, j) :: run[j].events == e.events
  }

  ghost predicate NeverDiffered(run: seq<Snapshot>, e: Snapshot) {
    forall k | 0 <= k < |run| && SameSetting(run[k], e) :: run[k].events == e.events
  }

  /** The id is that of the previous snapshot of `e`'s log, or there is none. */
  ghost predicate Finds(run: seq<Snapshot>, e: Snapshot, id: Digest, found: Option<string>) {
    if found.None? then NeverDiffered(run, e)
    else exists k: nat :: PreviousAt(run, e, k) && found == Some(IdOf(run[k], id))
  }

  lemma SameIdIff(a: Snapshot, b: Snapshot, id: Digest)
    requires Injective(id)
    ensures IdOf(a, id) == IdOf(b, id) <==> SameSetting(a, b) && a.events == b.events
  {
  }

  lemma {:induction false} IdsHold(run: seq<Snapshot>, e: Snapshot, f: Snapshot, id: Digest)
    requires Injective(id) && AcceptedRun(run) && Accepted(e.simulator, e.unit) && SameSetting(f, e)
    ensures IdOf(f, id) in Ids(run, KeyOf(e), id) <==>
      exists j :: 0 <= j < |run| && SameSetting(run[j], e) && run[j].events == f.events
    decreases |run|
  {
    if run != [] {
      var front, last := run[..|run| - 1], run[|run| - 1];
      IdsHold(front, e, f, id);
      SameKeySameSetting(last, e.onDisk, e.simulator, e.unit);
      SameIdIff(last, f, id);
      assert run == front + [last];
    }
  }

  lemma FirstWithFront(front: seq<Snapshot>, last: Snapshot, e: Snapshot, k: nat)
    requires k < |front|
    ensures FirstWith(front + [last], e, k) <==> FirstWith(front, e, k)
  {
    var run := front + [last];
    assert forall j | 0 <= j < |front| :: run[j] == front[j];
  }

  /** What a later capture makes of the previous snapshot. */
  lemma PreviousGoesOn(front: seq<Snapshot>, last: Snapshot, e: Snapshot, k: nat)
    requires PreviousAt(front, e, k)
    requires FirstWith(front + [last], e, |front|) ==> last.events == e.events
    ensures PreviousAt(front + [last], e, k)
  {
    var run := front + [last];
    FirstWithFront(front, last, e, k);
    forall j: nat | k < j && FirstWith(run, e, j) ensures run[j].events == e.events {
      if j < |front| {
        FirstWithFront(front, last, e, j);
        assert run[j] == front[j];
      }
    }
  }

  lemma {:induction false} PreviousInHistory(run: seq<Snapshot>, e: Snapshot, id: Digest)
    requires Injective(id) && AcceptedRun(run) && Accepted(e.simulator, e.unit)
    ensures var found := LastOther(FirstSeen(Ids(run, KeyOf(e), id)), Some(IdOf(e, id)));
      Finds(run, e, id, found)
    decreases |run|
  {
    if run != [] {
      var front, last := run[..|run| - 1], run[|run| - 1];
      assert run == front + [last];
      PreviousInHistory(front, e, id);
      SameKeySameSetting(last, e.onDisk, e.simulator, e.unit);
      SameIdIff(last, e, id);
      FirstSeenAppend(Ids(front, KeyOf(e), id), IdOf(last, id));
      var ids := FirstSeen(Ids(front, KeyOf(e), id));
      var found := LastOther(ids, Some(IdOf(e, id)));
      if SameSetting(last, e) { IdsHold(front, e, last, id); }
      if FirstWith(run, e, |front|) && last.events != e.events {
        assert IdOf(last, id) !in Ids(front, KeyOf(e), id);
        assert (ids + [IdOf(last, id)])[|ids|] == IdOf(last, id);
        assert PreviousAt(run, e, |front|);
      } else {
        if IdOf(last, id) == IdOf(e, id) { SkipExcluded(ids, IdOf(e, id)); }
        if SameSetting(last, e) {
          assert Ids(run, KeyOf(e), id) == Ids(front, KeyOf(e), id) + [IdOf(last, id)];
          if IdOf(last, id) !in Ids(front, KeyOf(e), id) {
            assert FirstWith(run, e, |front|);
            assert IdOf(last, id) == IdOf(e, id);
          }
        } else {
          assert Ids(run, KeyOf(e), id) == Ids(front, KeyOf(e), id);
        }
        assert LastOther(FirstSeen(Ids(run, KeyOf(e), id)), Some(IdOf(e, id))) == found;
        assert Finds(front, e, id, found);
        LaterKeepsPrevious(front, last, e, id, found);
      }
    }
  }

  lemma NewEventsFirst(front: seq<Snapshot>, last: Snapshot, e: Snapshot)
    ensures NeverDiffered(front, e) && SameSetting(last, e) && last.events != e.events ==>
      FirstWith(front + [last], e, |front|)
  {
    assert forall j | 0 <= j < |front| :: (front + [last])[j] == front[j];
  }

  lemma LaterKeepsPrevious(front: seq<Snapshot>, last: Snapshot, e: Snapshot, id: Digest, found: Option<string>)
    requires Finds(front, e, id, found) && !(FirstWith(front + [last], e, |front|) && last.events != e.events)
    ensures Finds(front + [last], e, id, found)
  {
    var run := front + [last];
    assert forall j | 0 <= j < |front| :: run[j] == front[j];
    NewEventsFirst(front, last, e);
    if found.Some? {
      var k: nat :| PreviousAt(front, e, k) && found == Some(IdOf(front[k], id));
      PreviousGoesOn(front, last, e, k);
      assert PreviousAt(run, e, k);
    }
  }

  /**
    After any accepted parses: the previous snapshot that the parse of a log finds is the latest
    of those first captured of that log with other events than the present ones, and there is
    none exactly if no parse of the log gave other events.
   */
  lemma PreviousOfRun(run: seq<Snapshot>, e: Snapshot, id: Digest)
    requires Injective(id) && AcceptedRun(run) && Accepted(e.simulator, e.unit)
    ensures var history := HistoryOf(CapturedAll(EMPTY, run + [e], id), KeyOf(e));
      var found := LastOther(history, Some(IdOf(e, id)));
      && (found.None? <==> NeverDiffered(run, e))
      && (found.Some? ==> exists k: nat :: PreviousAt(run, e, k) && found == Some(IdOf(run[k], id)))
      && forall k: nat | PreviousAt(run, e, k) :: found == Some(IdOf(run[k], id))
  {
    HistoryIsFirstSeen(run + [e], KeyOf(e), id);
    assert (run + [e])[..|run|] == run;
    var ids := Ids(run, KeyOf(e), id);
    assert Ids(run + [e], KeyOf(e), id) == ids + [IdOf(e, id)];
    FirstSeenAppend(ids, IdOf(e, id));
    SkipExcluded(FirstSeen(ids), IdOf(e, id));
    PreviousInHistory(run, e, id);
    forall j: nat, k: nat | PreviousAt(run, e, j) && PreviousAt(run, e, k) ensures j == k {
    }
  }

  // ---- The automatic baseline of a diff ----

  ghost predicate FirstAt(run: seq<string>, c: string, first: nat) {
    first < |run| && run[first] == c && forall k | 0 <= k < first :: run[k] != c
  }

  /** The id was captured, and nothing new has been since its first capture. */
  ghost predicate NewestOf(run: seq<string>, c: string) {
    exists first :: FirstAt(run, c, first) && NothingNew(run, first, None)
  }

  lemma {:induction false} FirstOf(run: seq<string>, c: string) returns (first: nat)
    requires c in run
    ensures FirstAt(run, c, first)
    decreases |run|
  {
    var front := run[..|run| - 1];
    if c in front {
      first := FirstOf(front, c);
    } else {
      first := |run| - 1;
    }
  }

  /** A baseline looked up without an exclusion is the newest of the history. */
  lemma BaselineIsNewest(run: seq<string>, c: string)
    ensures LastOther(FirstSeen(run), None) == Some(c) <==> NewestOf(run, c)
  {
    FirstSeenSame(run, c);
    if c in run {
      var first := FirstOf(run, c);
      NewestButIff(run, first, None);
      assert forall k | FirstAt(run, c, k) :: k == first;
    }
  }

  lemma NewestAfter(run: seq<string>, c: string)
    ensures NewestOf(run + [c], c) <==> c !in run || NewestOf(run, c)
  {
    BaselineIsNewest(run + [c], c);
    BaselineIsNewest(run, c);
    FirstSeenAppend(run, c);
  }

  /**
    Once a log has been parsed, the automatic baseline of its diff is its own snapshot exactly
    when its events were new, or nothing newer was captured before that parse.
   */
  lemma BaselineAfterParseIff(run: seq<Snapshot>, e: Snapshot, id: Digest)
    ensures var ids := Ids(run, KeyOf(e), id);
      LastOther(HistoryOf(CapturedAll(EMPTY, run + [e], id), KeyOf(e)), None) == Some(IdOf(e, id)) <==>
        IdOf(e, id) !in ids || NewestOf(ids, IdOf(e, id))
  {
    HistoryIsFirstSeen(run + [e], KeyOf(e), id);
    assert (run + [e])[..|run|] == run;
    BaselineIsNewest(Ids(run + [e], KeyOf(e), id), IdOf(e, id));
    NewestAfter(Ids(run, KeyOf(e), id), IdOf(e, id));
  }

  /**
    A run and a rerun of different events, both parsed: the parse of the rerun finds the run
    before, and the diff then compares the rerun with itself.
   */
  lemma ParsedRerunComparesWithItself(a: Snapshot, b: Snapshot, id: Digest)
    requires Injective(id) && KeyOf(a) == KeyOf(b) && a.events != b.events
    ensures var history := HistoryOf(CapturedAll(EMPTY, [a, b], id), KeyOf(b));
      && LastOther(history, Some(IdOf(b, id))) == Some(IdOf(a, id))
      && LastOther(history, None) == Some(IdOf(b, id))
  {
    assert [a, b][..1] == [a] && [a][..0] == [];
    assert CapturedAll(EMPTY, [a], id) == Captured(CapturedAll(EMPTY, [], id), a, id);
    assert HistoryOf(CapturedAll(EMPTY, [a, b], id), KeyOf(b)) == [IdOf(a, id), IdOf(b, id)];
    SkipExcluded([IdOf(a, id)], IdOf(b, id));
    assert [IdOf(a, id)] + [IdOf(b, id)] == [IdOf(a, id), IdOf(b, id)];
  }

  lemma Filed(s: Store, key: Key, n: nat, id: Digest)
    requires Valid(s, id) && key in s.history && n < |s.history[key]|
    ensures var i := s.history[key][n];
      i in s.snapshots && IdOf(s.snapshots[i], id) == i && KeyOf(s.snapshots[i]) == key
        && s.snapshots[i] in s.snapshots.Values
  {
    var i := s.history[key][n];
    assert i in s.history[key];
    assert s.snapshots[i] in s.snapshots.Values;
  }

  // ---- The mutable store ----

  lemma {:induction false} LastOtherIsOther(ids: seq<string>, exclude: Option<string>)
    ensures LastOther(ids, exclude).Some? ==> LastOther(ids, exclude) != exclude && LastOther(ids, exclude).value in ids
    decreases |ids|
  {
    if ids != [] && exclude == Some(ids[|ids| - 1]) {
      LastOtherIsOther(ids[..|ids| - 1], exclude);
    }
  }

  /** The checks before any line of the log is read. */
  method CheckSetting(simulator: string, unit: Option<string>) returns (ok: bool)
    ensures ok <==> Accepted(simulator, unit)
  {
    var name := Lower(simulator);
    if name != "vcs" && name != "xcelium" && name != "verilator" {
      return false;
    }
    if unit.None? {
      return true;
    }
    return name == "verilator" && unit.value in UNITS;
  }

  datatype Parsed = Rejected | Snapshots(current: string, previous: Option<Snapshot>)

  /** A baseline, and the events compared with it. */
  datatype Diff = NoBaseline | Unaccepted | Compared(base: seq<string>, parsed: seq<string>)

  datatype EventsOrError = Events(events: seq<string>) | NotAvailable | OtherSimulator | OtherUnit

  class SnapshotStore {
    const id: Digest
    var snapshots: map<string, Snapshot>
    var history: map<Key, seq<string>>

    ghost function Value(): Store
      reads this
    {
      Store(snapshots, history)
    }

    constructor (id: Digest)
      ensures Value() == EMPTY && this.id == id && Valid(Value(), id)
    {
      this.id := id;
      snapshots, history := map[], map[];
    }

    /** `_capture_log_snapshot`. */
    method Capture(e: Snapshot) returns (i: string)
      requires Valid(Value(), id) && Injective(id)
      modifies this
      ensures Value() == Captured(old(Value()), e, id) && Valid(Value(), id)
      ensures i == IdOf(e, id) && i in snapshots && snapshots[i].events == e.events
      ensures KeepsEvents(old(Value()), Value())
    {
      CapturePreserves(Value(), e, id);
      i := id(e.onDisk, e.simulator, e.events, e.unit);
      snapshots := snapshots[i := e];
      var key := KeyOf(e);
      if key !in history {
        history := history[key := []];
      }
      if i !in history[key] {
        history := history[key := history[key] + [i]];
      }
      assert history == Captured(old(Value()), e, id).history;
    }

    /** `_find_previous_log_snapshot`: the snapshot of the last id of the key's history that is not excluded. */
    method FindPrevious(onDisk: string, simulator: string, unit: Option<string>, exclude: Option<string>)
      returns (found: Option<Snapshot>)
      requires Valid(Value(), id)
      ensures found.None? <==> LastOther(HistoryOf(Value(), KeyFor(onDisk, simulator, unit)), exclude).None?
      ensures found.Some? ==>
        Some(IdOf(found.value, id)) == LastOther(HistoryOf(Value(), KeyFor(onDisk, simulator, unit)), exclude)
      ensures found.Some? ==> KeyOf(found.value) == KeyFor(onDisk, simulator, unit) && found.value in snapshots.Values
    {
      var key := KeyFor(onDisk, simulator, unit);
      var ids := if key in history then history[key] else [];
      var n := |ids|;
      while n > 0
        invariant 0 <= n <= |ids|
        invariant LastOther(ids, exclude) == LastOther(ids[..n], exclude)
        invariant ids == HistoryOf(Value(), key)
      {
        n := n - 1;
        assert ids[..n + 1][..n] == ids[..n] && ids[..n + 1][n] == ids[n];
        if exclude != Some(ids[n]) {
          Filed(Value(), key, n, id);
          if ids[n] in snapshots {
            return Some(snapshots[ids[n]]);
          }
        }
      }
      return None;
    }

    /**
      The snapshot part of `_handle_parse_sim_log`: the parser's check, the capture, and the
      previous snapshot, whose events are then there for the asking.
     */
    method Parse(e: Snapshot) returns (r: Parsed)
      requires Valid(Value(), id) && AllAccepted(Value()) && Injective(id)
      modifies this
      ensures Valid(Value(), id) && AllAccepted(Value())
      ensures r.Rejected? <==> !Accepted(e.simulator, e.unit)
      ensures Value() == if r.Rejected? then old(Value()) else Captured(old(Value()), e, id)
      ensures r.Snapshots? ==>
        r.current == IdOf(e, id)
        && (r.previous.Some? <==> LastOther(HistoryOf(Value(), KeyOf(e)), Some(r.current)).Some?)
      ensures r.Snapshots? && r.previous.Some? ==>
        var i := IdOf(r.previous.value, id);
        Some(i) == LastOther(HistoryOf(Value(), KeyOf(e)), Some(r.current))
        && i != r.current && i in snapshots && snapshots[i] == r.previous.value
        && SameSetting(r.previous.value, e) && r.previous.value.events != e.events
    {
      var accepted := CheckSetting(e.simulator, e.unit);
      if !accepted {
        return Rejected;
      }
      var current := Capture(e);
      var previous := FindPrevious(e.onDisk, e.simulator, e.unit, Some(current));
      if previous.Some? {
        SameKeySameSetting(previous.value, e.onDisk, e.simulator, e.unit);
        SameIdIff(previous.value, e, id);
        LastOtherIsOther(HistoryOf(Value(), KeyOf(e)), Some(current));
      }
      r := Snapshots(current, previous);
    }

    /**
      `diff_sim_failure_results` by the new log's path alone, or with the same path as base: the
      baseline is looked up first, and nothing is excluded from it; then the log is parsed. The
      comparison is of the log with itself exactly when its own snapshot is the newest, or
      there is none.
     */
    method AutoDiff(e: Snapshot, samePathAsBase: bool) returns (r: Diff)
      requires Valid(Value(), id) && AllAccepted(Value()) && Injective(id)
      modifies this
      ensures Valid(Value(), id) && AllAccepted(Value())
      ensures r.NoBaseline? <==> old(LastOther(HistoryOf(Value(), KeyOf(e)), None)).None? && !samePathAsBase
      ensures r.Unaccepted? <==> !r.NoBaseline? && !Accepted(e.simulator, e.unit)
      ensures Value() == if r.Compared? then Captured(old(Value()), e, id) else old(Value())
      ensures r.Compared? ==> r.parsed == e.events
      ensures r.Compared? ==>
        var newest := old(LastOther(HistoryOf(Value(), KeyOf(e)), None));
        r.base == r.parsed <==> newest.None? || newest == Some(IdOf(e, id))
    {
      var found := FindPrevious(e.onDisk, e.simulator, e.unit, None);
      if found.None? && !samePathAsBase {
        return NoBaseline;
      }
      var accepted := CheckSetting(e.simulator, e.unit);
      if !accepted {
        return Unaccepted;
      }
      if found.None? {
        var first := Capture(e);
        CapturedTwice(old(Value()), e, id);
      } else {
        SameKeySameSetting(found.value, e.onDisk, e.simulator, e.unit);
      }
      var current := Capture(e);
      r := Compared(if found.Some? then found.value.events else e.events, e.events);
    }

    /** `_snapshot_events`. */
    method EventsOf(i: string, simulator: string, unit: Option<string>) returns (r: EventsOrError)
      ensures r.Events? <==> i in snapshots && snapshots[i].simulator == simulator && snapshots[i].unit == unit
      ensures r.Events? ==> r.events == snapshots[i].events
      ensures r.NotAvailable? <==> i !in snapshots
      ensures r.OtherSimulator? <==> i in snapshots && snapshots[i].simulator != simulator
    {
      if i !in snapshots {
        return NotAvailable;
      }
      if snapshots[i].simulator != simulator {
        return OtherSimulator;
      }
      if snapshots[i].unit != unit {
        return OtherUnit;
      }
      return Events(snapshots[i].events);
    }

    method Clear()
      modifies this
      ensures Value() == EMPTY && Valid(Value(), id)
    {
      snapshots, history := map[], map[];
    }
  }
}
