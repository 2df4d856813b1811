/** Which locks one waveform call takes, and in which order. */
module WaveLocks {
  import opened Ordering

  /** The one FSDB lock, or the lock of one other waveform path. */
  datatype Lock = FsdbLock | VcdLock(path: string)

  const FSDB_KEY: string := "\0fsdb_global"

  /** `path.lower().endswith(".fsdb")`. */
  predicate IsFsdb(path: string) {
    |path| >= 5 &&
    var t := path[|path| - 5..];
    [LowerChar(t[0]), LowerChar(t[1]), LowerChar(t[2]), LowerChar(t[3]), LowerChar(t[4])] == ".fsdb"
  }

  /** The suffix counts in either case, at the very end, whatever comes before. */
  lemma FsdbSuffixIff(path: string)
    ensures IsFsdb(path) <==> exists stem, f, s, d, b ::
      path == stem + ['.', f, s, d, b] && f in "fF" && s in "sS" && d in "dD" && b in "bB"
  {
    if IsFsdb(path) {
      var stem, t := path[..|path| - 5], path[|path| - 5..];
      assert path == stem + ['.', t[1], t[2], t[3], t[4]];
    }
  }

  function PathKey(path: string): string {
    if IsFsdb(path) then FSDB_KEY else path
  }

  function PathLock(path: string): Lock {
    if IsFsdb(path) then FsdbLock else VcdLock(path)
  }

  /** The sort key a lock is filed under. */
  function KeyOf(lock: Lock): string {
    match lock
    case FsdbLock => FSDB_KEY
    case VcdLock(path) => path
  }

  /** The `keyed` dict after all paths: the last path filed under a key wins. */
  function Keyed(paths: seq<string>): (m: map<string, Lock>)
    ensures forall k | k in m :: KeyOf(m[k]) == k
  {
    if paths == [] then map[]
    else
      var last := paths[|paths| - 1];
      Keyed(paths[..|paths| - 1])[PathKey(last) := PathLock(last)]
  }

  /** `sorted(keyed)`: the distinct keys, ascending. */
  function SortedKeys(paths: seq<string>): (keys: seq<string>)
    ensures StrictlySorted(keys)
    ensures forall k :: k in keys <==> k in Keyed(paths)
  {
    if paths == [] then []
    else
      var keys := SortedKeys(paths[..|paths| - 1]);
      var key := PathKey(paths[|paths| - 1]);
      if key in keys then keys else Insert(key, keys)
  }

  /** The lock list of one call, in acquisition order. */
  function LocksFor(paths: seq<string>): (locks: seq<Lock>)
    ensures |locks| == |SortedKeys(paths)|
    ensures forall i | 0 <= i < |locks| :: locks[i] == Keyed(paths)[SortedKeys(paths)[i]]
  {
    seq(|SortedKeys(paths)|, i requires 0 <= i < |SortedKeys(paths)| => Keyed(paths)[SortedKeys(paths)[i]])
  }

  ghost predicate Ascending(locks: seq<Lock>) {
    forall i, j | 0 <= i < j < |locks| :: Less(KeyOf(locks[i]), KeyOf(locks[j]))
  }

  /** Every call takes its locks in one global order, so none is listed twice. */
  lemma LocksAscend(paths: seq<string>)
    ensures Ascending(LocksFor(paths))
  {
    var keys := SortedKeys(paths);
    assert forall i | 0 <= i < |keys| :: keys[i] in Keyed(paths);
  }

  /** An ascending list holds each lock once. */
  lemma AscendingDistinct(locks: seq<Lock>, i: nat, j: nat)
    requires Ascending(locks) && i < |locks| && j < |locks| && locks[i] == locks[j]
    ensures i == j
  {
    LessIrreflexive(KeyOf(locks[i]));
  }

  ghost predicate LastUnderKey(paths: seq<string>, i: nat) {
    i < |paths| && forall j | i < j < |paths| :: PathKey(paths[j]) != PathKey(paths[i])
  }

  /** A lock is taken exactly when some path asks for it and no later path displaces that entry. */
  lemma LockTaken(paths: seq<string>, lock: Lock)
    ensures lock in LocksFor(paths) <==> exists i: nat :: LastUnderKey(paths, i) && PathLock(paths[i]) == lock
  {
    var keys := SortedKeys(paths);
    if lock in LocksFor(paths) {
      var n :| 0 <= n < |LocksFor(paths)| && LocksFor(paths)[n] == lock;
      assert keys[n] in Keyed(paths);
      var i := EntrySource(paths, keys[n]);
    }
    if exists i: nat :: LastUnderKey(paths, i) && PathLock(paths[i]) == lock {
      var i: nat :| LastUnderKey(paths, i) && PathLock(paths[i]) == lock;
      LastWins(paths, i);
      var n :| 0 <= n < |keys| && keys[n] == PathKey(paths[i]);
      assert LocksFor(paths)[n] == lock;
    }
  }

  lemma {:induction false} LastWins(paths: seq<string>, i: nat)
    requires LastUnderKey(paths, i)
    ensures PathKey(paths[i]) in Keyed(paths) && Keyed(paths)[PathKey(paths[i])] == PathLock(paths[i])
  {
    var n := |paths| - 1;
    if i < n {
      var front := paths[..n];
      assert forall j | i < j < |front| :: front[j] == paths[j];
      LastWins(front, i);
    }
  }

  lemma {:induction false} EntrySource(paths: seq<string>, key: string) returns (i: nat)
    requires key in Keyed(paths)
    ensures LastUnderKey(paths, i) && PathKey(paths[i]) == key && PathLock(paths[i]) == Keyed(paths)[key]
  {
    var n := |paths| - 1;
    i := n;
    if PathKey(paths[n]) != key {
      var front := paths[..n];
      i := EntrySource(front, key);
      forall j | i < j < |paths| ensures PathKey(paths[j]) != key {
        if j < n { assert front[j] == paths[j]; }
      }
    }
  }

  /**
    Every call that names an FSDB file takes the FSDB lock, if and only if it does not
    also name, later in its list, the path that spells the reserved key.
   */
  lemma FsdbCallTakesGlobalLock(paths: seq<string>)
    ensures FsdbLock in LocksFor(paths)
       <==> exists i: nat :: i < |paths| && IsFsdb(paths[i]) && FSDB_KEY !in paths[i..]
  {
    LockTaken(paths, FsdbLock);
    if exists i: nat :: i < |paths| && IsFsdb(paths[i]) && FSDB_KEY !in paths[i..] {
      var i: nat :| i < |paths| && IsFsdb(paths[i]) && FSDB_KEY !in paths[i..];
      LastFsdb(paths, i);
    }
    if exists i: nat :: LastUnderKey(paths, i) && PathLock(paths[i]) == FsdbLock {
      var i: nat :| LastUnderKey(paths, i) && PathLock(paths[i]) == FsdbLock;
      assert IsFsdb(paths[i]);
      forall j | i <= j < |paths| ensures paths[j] != FSDB_KEY {
        ReservedKeyIsNotFsdb();
        assert PathKey(FSDB_KEY) == FSDB_KEY;
      }
    }
  }

  lemma ReservedKeyIsNotFsdb()
    ensures !IsFsdb(FSDB_KEY)
  {
    assert |FSDB_KEY| == 12 && FSDB_KEY[7] == 'l';
  }

  /** From an FSDB path with no reserved-key path behind it, the last FSDB path decides the entry. */
  lemma {:induction false} LastFsdb(paths: seq<string>, i: nat)
    requires i < |paths| && IsFsdb(paths[i]) && FSDB_KEY !in paths[i..]
    ensures exists k: nat :: LastUnderKey(paths, k) && PathLock(paths[k]) == FsdbLock
    decreases |paths| - i
  {
    if LastUnderKey(paths, i) {
      assert PathLock(paths[i]) == FsdbLock;
    } else {
      var j :| i < j < |paths| && PathKey(paths[j]) == PathKey(paths[i]);
      assert paths[j] == paths[i..][j - i];
      assert IsFsdb(paths[j]);
      assert forall x | x in paths[j..] :: x in paths[i..] by {
        assert paths[j..] == paths[i..][j - i..];
      }
      LastFsdb(paths, j);
    }
  }

  /** The displaced case: an FSDB file listed before the reserved spelling loses its lock. */
  lemma ReservedKeyDisplacesFsdbLock()
    ensures FsdbLock !in LocksFor(["a.fsdb", FSDB_KEY])
    ensures FsdbLock in LocksFor([FSDB_KEY, "a.fsdb"])
  {
    var p := ["a.fsdb", FSDB_KEY];
    assert IsFsdb("a.fsdb") by { assert "a.fsdb"[1..] == ".fsdb"; }
    FsdbCallTakesGlobalLock(p);
    forall i: nat | i < |p| && IsFsdb(p[i]) ensures FSDB_KEY in p[i..] {
      assert p[i..][|p[i..]| - 1] == FSDB_KEY;
    }
    var q := [FSDB_KEY, "a.fsdb"];
    FsdbCallTakesGlobalLock(q);
    assert q[1..] == ["a.fsdb"];
  }

  /** A lock object; only its identity matters. */
  class Mutex {
    constructor () {}
  }

  /** The process-wide lock objects: one for FSDB, one per other path, created on first use. */
  class LockTable {
    const fsdb: Mutex
    var vcd: map<string, Mutex>

    ghost predicate Valid()
      reads this
    {
      && fsdb !in vcd.Values
      && forall p, q | p in vcd && q in vcd && vcd[p] == vcd[q] :: p == q
    }

    constructor ()
      ensures Valid() && vcd == map[]
    {
      fsdb := new Mutex();
      vcd := map[];
    }

    ghost predicate Known(lock: Lock)
      reads this
    {
      lock.FsdbLock? || lock.path in vcd
    }

    ghost function Object(lock: Lock): Mutex
      requires Known(lock)
      reads this
    {
      if lock.FsdbLock? then fsdb else vcd[lock.path]
    }

    /** Two locks are the same object only when they are the same lock. */
    lemma ObjectsDiffer(a: Lock, b: Lock)
      requires Valid() && Known(a) && Known(b)
      ensures Object(a) == Object(b) <==> a == b
    {
      if a.VcdLock? { assert vcd[a.path] in vcd.Values; }
      if b.VcdLock? { assert vcd[b.path] in vcd.Values; }
    }

    /** `_vcd_wave_locks.setdefault(path, threading.Lock())`. */
    method SetDefault(path: string) returns (lock: Mutex)
      requires Valid()
      modifies this
      ensures Valid()
      ensures path in vcd && vcd[path] == lock
      ensures vcd.Keys == old(vcd.Keys) + {path}
      ensures forall p | p in old(vcd) :: vcd[p] == old(vcd[p])
    {
      if path in vcd {
        lock := vcd[path];
        assert vcd.Keys == old(vcd.Keys) + {path};
      } else {
        lock := new Mutex();
        assert forall p | p in vcd :: vcd[p] != lock;
        vcd := vcd[path := lock];
      }
    }

    /** The dict of lock objects files the same locks as `locks` does. */
    ghost predicate Files(keyed: map<string, Mutex>, locks: map<string, Lock>)
      reads this
    {
      && keyed.Keys == locks.Keys
      && forall k | k in locks :: Known(locks[k]) && keyed[k] == Object(locks[k])
    }

    /** The dict of lock objects, with its keys in insertion order, after the paths `done`. */
    ghost predicate Filed(keyed: map<string, Mutex>, order: seq<string>, done: seq<string>)
      reads this
    {
      && Files(keyed, Keyed(done))
      && Distinct(order)
      && forall k :: k in order <==> k in keyed
    }

    /** Nothing that was in the table is replaced. */
    twostate predicate Grows()
      reads this
    {
      forall p | p in old(vcd) :: p in vcd && vcd[p] == old(vcd[p])
    }

    /** One round of the loop over the paths: `path` is filed after `done`. */
    method File(path: string, keyed: map<string, Mutex>, order: seq<string>, ghost done: seq<string>)
      returns (keyed': map<string, Mutex>, order': seq<string>)
      requires Valid() && Filed(keyed, order, done)
      modifies this
      ensures Valid() && Grows()
      ensures Filed(keyed', order', done + [path])
    {
      assert (done + [path])[..|done|] == done;
      var lock := fsdb;
      if !IsFsdb(path) {
        lock := SetDefault(path);
      }
      keyed' := keyed[PathKey(path) := lock];
      order' := if PathKey(path) in keyed then order else order + [PathKey(path)];
      assert Object(PathLock(path)) == lock;
      forall k | k in Keyed(done) ensures Known(Keyed(done)[k]) && keyed[k] == Object(Keyed(done)[k]) {
        assert old(Known(Keyed(done)[k]) && keyed[k] == Object(Keyed(done)[k]));
      }
    }

    /** The lock objects of one call; existing objects are reused and never replaced. */
    method WaveLocksFor(paths: seq<string>) returns (locks: seq<Mutex>)
      requires Valid()
      modifies this
      ensures Valid() && Grows()
      ensures |locks| == |LocksFor(paths)|
      ensures forall i | 0 <= i < |locks| :: Known(LocksFor(paths)[i]) && locks[i] == Object(LocksFor(paths)[i])
    {
      var keyed: map<string, Mutex> := map[];
      var order: seq<string> := [];
      for n := 0 to |paths|
        invariant Valid() && Grows()
        invariant Filed(keyed, order, paths[..n])
      {
        keyed, order := File(paths[n], keyed, order, paths[..n]);
        assert paths[..n + 1] == paths[..n] + [paths[n]];
      }
      assert paths[..|paths|] == paths;
      locks := InOrder(keyed, order, paths);
    }

    /** `[keyed[key] for key in sorted(keyed)]`. */
    method InOrder(keyed: map<string, Mutex>, order: seq<string>, ghost paths: seq<string>)
      returns (locks: seq<Mutex>)
      requires Filed(keyed, order, paths)
      ensures |locks| == |LocksFor(paths)|
      ensures forall i | 0 <= i < |locks| :: Known(LocksFor(paths)[i]) && locks[i] == Object(LocksFor(paths)[i])
    {
      var sorted := SortKeys(order);
      assert forall k :: k in keyed <==> k in keyed.Keys;
      SortedUnique(sorted, SortedKeys(paths));
      assert forall i | 0 <= i < |sorted| :: sorted[i] in sorted;
      locks := seq(|sorted|, i requires 0 <= i < |sorted| && sorted[i] in keyed => keyed[sorted[i]]);
    }
  }

  ghost predicate Distinct(keys: seq<string>) {
    forall i, j | 0 <= i < j < |keys| :: keys[i] != keys[j]
  }

  /** `sorted` on the keys of a dict. */
  method SortKeys(order: seq<string>) returns (sorted: seq<string>)
    requires Distinct(order)
    ensures StrictlySorted(sorted)
    ensures forall k :: k in sorted <==> k in order
  {
    sorted := [];
    for n := 0 to |order|
      invariant StrictlySorted(sorted)
      invariant forall k :: k in sorted <==> k in order[..n]
    {
      assert order[n] !in order[..n];
      sorted := Insert(order[n], sorted);
      assert order[..n + 1] == order[..n] + [order[n]];
    }
    assert order[..|order|] == order;
  }
}
