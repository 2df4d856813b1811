/** The handshake sweep's coverage, the retries it suggests, and when they end. */
module SweepTool {
  import opened Wrappers
  import opened SweepRetry

  /**
    What discovery finds under a scope: the candidates of each family, in order; true for a
    clocking block, which mirrors its interface and is dropped.
   */
  datatype Found = Found(validReady: seq<bool>, ahb: seq<bool>)

  /** One request; without a scope it covers the whole design. */
  datatype Ask = Ask(wave: string, scope: Option<string>, edge: string, start: int, end: int, cap: nat)

  const DEFAULT_CAP: nat := 64

  // ---- Coverage ----

  /** The mirrors among the first `cap` candidates of a family: only those are seen. */
  function Mirrors(family: seq<bool>, cap: nat): (n: nat)
    ensures n <= Taken(family, cap)
  {
    if family == [] || cap == 0 then 0 else (if family[0] then 1 else 0) + Mirrors(family[1..], cap - 1)
  }

  function Taken(family: seq<bool>, cap: nat): nat {
    if |family| < cap then |family| else cap
  }

  function MirrorsSeen(f: Found, cap: nat): nat {
    Mirrors(f.validReady, cap) + Mirrors(f.ahb, cap)
  }

  /** The interfaces left once the mirrors among the returned candidates are dropped. */
  function Normalized(f: Found, cap: nat): nat {
    Taken(f.validReady, cap) + Taken(f.ahb, cap) - MirrorsSeen(f, cap)
  }

  /** `discovered_count`: all candidates, less the mirrors that were seen. */
  function Discovered(f: Found, cap: nat): nat {
    |f.validReady| + |f.ahb| - MirrorsSeen(f, cap)
  }

  predicate CutShort(f: Found, cap: nat) {
    Discovered(f, cap) > Normalized(f, cap) || Normalized(f, cap) > cap
  }

  /** The candidates of a family that are interfaces. */
  function Interfaces(family: seq<bool>): nat {
    if family == [] then 0 else (if family[0] then 0 else 1) + Interfaces(family[1..])
  }

  lemma {:induction false} AllSeen(family: seq<bool>, cap: nat)
    ensures |family| <= cap ==> Taken(family, cap) - Mirrors(family, cap) == Interfaces(family)
    ensures |family| > cap ==> |family| - Mirrors(family, cap) > Taken(family, cap) - Mirrors(family, cap)
    ensures Taken(family, cap) - Mirrors(family, cap) <= Interfaces(family)
    decreases |family|
  {
    if family != [] && cap > 0 {
      AllSeen(family[1..], cap - 1);
    }
  }

  /** A sweep is cut short exactly when it does not see all candidates, or cannot inspect all interfaces. */
  lemma CutShortIff(f: Found, cap: nat)
    ensures CutShort(f, cap) <==>
      |f.validReady| > cap || |f.ahb| > cap || Interfaces(f.validReady) + Interfaces(f.ahb) > cap
  {
    AllSeen(f.validReady, cap);
    AllSeen(f.ahb, cap);
  }

  function ActionFor(ask: Ask): Action {
    Action("sweep_handshakes",
           Some(Arguments(Some(ask.wave), ask.scope, Given(ask.cap), Some(ask.edge), Given(ask.start), Given(ask.end))))
  }

  /** The next steps that the sweep suggests. */
  function Suggested(ask: Ask, f: Found): seq<Action> {
    (if Normalized(f, ask.cap) == 0 && NonEmpty(ask.scope).Some? then [ActionFor(ask.(scope := None))] else [])
    + (if CutShort(f, ask.cap)
       then [ActionFor(ask.(scope := NonEmpty(ask.scope), cap := Discovered(f, ask.cap)))] else [])
  }

  /**
    `sweep_handshake_anomalies`, as far as coverage and suggestions go: `inspected` interfaces
    were inspected, and `degraded` says that skipped rows, cut transitions or a partial
    discovery leave the coverage incomplete.
   */
  function Report(ask: Ask, f: Found, inspected: nat, degraded: bool): Sweep {
    Sweep(ask.wave, ask.scope, ask.edge, ask.start, ask.end, Discovered(f, ask.cap), inspected,
          if CutShort(f, ask.cap) then Truncated else if Normalized(f, ask.cap) == 0 then ZeroCoverage
          else if degraded then Degraded else Complete,
          Suggested(ask, f))
  }

  /**
    What the coverage claims: a sweep that is not truncated has seen every candidate, counts every
    interface there is, and has room for them all; one of no interface claims no coverage.
   */
  lemma CoverageIs(ask: Ask, f: Found, inspected: nat, degraded: bool)
    ensures var coverage, all := Report(ask, f, inspected, degraded).coverage,
                                 Interfaces(f.validReady) + Interfaces(f.ahb);
      && (coverage == Truncated <==> |f.validReady| > ask.cap || |f.ahb| > ask.cap || all > ask.cap)
      && (coverage == ZeroCoverage <==> |f.validReady| <= ask.cap && |f.ahb| <= ask.cap && all == 0)
      && (coverage != Truncated ==> Report(ask, f, inspected, degraded).discovered == all)
      && (coverage == Complete ==> 0 < all <= ask.cap && !degraded)
  {
    CutShortIff(f, ask.cap);
    AllSeen(f.validReady, ask.cap);
    AllSeen(f.ahb, ask.cap);
  }

  /** Only interfaces that passed the cap are inspected. */
  predicate Inspects(ask: Ask, f: Found, inspected: nat) {
    inspected <= Normalized(f, ask.cap) && inspected <= ask.cap
  }

  /** The request that a sweep leads to: without its scope if it found nothing, else with a cap that covers all. */
  function RetryOf(ask: Ask, f: Found): Option<Ask> {
    if Normalized(f, ask.cap) == 0 && NonEmpty(ask.scope).Some? then Some(ask.(scope := None))
    else if CutShort(f, ask.cap) then Some(ask.(scope := NonEmpty(ask.scope), cap := Discovered(f, ask.cap)))
    else None
  }

  lemma RetryIsSuggestedFirst(ask: Ask, f: Found)
    ensures RetryOf(ask, f).Some? ==>
      Suggested(ask, f) != [] && Suggested(ask, f)[0] == ActionFor(RetryOf(ask, f).value)
    ensures RetryOf(ask, f).None? ==> Suggested(ask, f) == []
  {
  }

  /** Dropping the scope widens discovery. */
  lemma DroppingScopeIsProgress(ask: Ask, sweep: Sweep, onDisk: string -> string)
    requires ask.wave != "" && sweep.scope == ask.scope && NonEmpty(ask.scope).Some?
    ensures MakesProgress(ActionFor(ask.(scope := None)), ask.wave, sweep, onDisk)
  {
  }

  /** A truncated sweep is retried exactly with a cap that reaches all discovered and exceeds those inspected. */
  lemma RaisingCapIsProgress(ask: Ask, cap: nat, sweep: Sweep, onDisk: string -> string)
    requires ask.wave != "" && sweep.scope == ask.scope && sweep.coverage.Truncated?
    ensures MakesProgress(ActionFor(ask.(scope := NonEmpty(ask.scope), cap := cap)), ask.wave, sweep, onDisk) <==>
      cap >= sweep.discovered && cap > sweep.interfaces
  {
  }

  lemma RetryIsProgress(ask: Ask, f: Found, inspected: nat, degraded: bool, onDisk: string -> string)
    requires ask.wave != "" && Inspects(ask, f, inspected) && RetryOf(ask, f).Some?
    ensures MakesProgress(ActionFor(RetryOf(ask, f).value), ask.wave, Report(ask, f, inspected, degraded), onDisk)
  {
    var s := Report(ask, f, inspected, degraded);
    if Normalized(f, ask.cap) == 0 && NonEmpty(ask.scope).Some? {
      DroppingScopeIsProgress(ask, s, onDisk);
    } else {
      RaisingCapIsProgress(ask, Discovered(f, ask.cap), s, onDisk);
    }
  }

  lemma FirstIsProgress(actions: seq<Action>, wave: string, sweep: Sweep, onDisk: string -> string)
    requires actions != [] && MakesProgress(actions[0], wave, sweep, onDisk)
    ensures FirstProgress(actions, wave, sweep, onDisk) == Some(actions[0])
  {
  }

  /**
    The next call of a real sweep is exactly that request; in particular it keeps the edge and
    the window, and a degraded or complete sweep asks for none.
   */
  lemma NextCallIsRetry(ask: Ask, f: Found, inspected: nat, degraded: bool, onDisk: string -> string)
    requires ask.wave != "" && Inspects(ask, f, inspected)
    ensures NextCall(Some(ask.wave), Some(Report(ask, f, inspected, degraded)), onDisk) ==
      (if RetryOf(ask, f).Some? then Some(ActionFor(RetryOf(ask, f).value)) else None)
  {
    var s := Report(ask, f, inspected, degraded);
    RetryIsSuggestedFirst(ask, f);
    if RetryOf(ask, f).Some? {
      RetryIsProgress(ask, f, inspected, degraded, onDisk);
      FirstIsProgress(s.actions, ask.wave, s, onDisk);
    } else {
      assert !s.coverage.Truncated? && FirstProgress(s.actions, ask.wave, s, onDisk).None?;
    }
  }

  /** The request an action stands for, with the tool's defaults. */
  function AskOf(action: Action): Option<Ask> {
    if action.arguments.None? then None
    else
      var a := action.arguments.value;
      var cap, start, end := Default(a.maxInterfaces, DEFAULT_CAP), Default(a.start, 0), Default(a.end, -1);
      if NonEmpty(a.wavePath).None? || cap.None? || cap.value < 0 || start.None? || end.None? then None
      else Some(Ask(a.wavePath.value, a.scope, if a.edge.Some? then a.edge.value else "posedge",
                    start.value, end.value, cap.value))
  }

  lemma AskOfAction(ask: Ask)
    requires ask.wave != ""
    ensures AskOf(ActionFor(ask)) == Some(ask)
  {
  }

  // ---- The caps of successive retries ----

  function Longest(f: Found): nat {
    if |f.validReady| < |f.ahb| then |f.ahb| else |f.validReady|
  }

  lemma {:induction false} MirrorsGrow(family: seq<bool>, a: nat, b: nat)
    requires a <= b
    ensures Mirrors(family, a) <= Mirrors(family, b)
    ensures Taken(family, a) - Mirrors(family, a) <= Taken(family, b) - Mirrors(family, b)
    ensures |family| <= a ==> Mirrors(family, a) == Mirrors(family, b)
    decreases |family|
  {
    if family != [] && a > 0 {
      MirrorsGrow(family[1..], a - 1, b - 1);
    }
  }

  /** A larger cap sees more mirrors, so it counts fewer interfaces as discovered. */
  lemma CapsAreOpposed(f: Found, a: nat, b: nat)
    requires a <= b
    ensures Discovered(f, b) <= Discovered(f, a) && Normalized(f, a) <= Normalized(f, b)
    ensures Longest(f) <= a ==> Discovered(f, a) == Normalized(f, a) == Discovered(f, b)
  {
    MirrorsGrow(f.validReady, a, b);
    MirrorsGrow(f.ahb, a, b);
  }

  /** The retry stays under its scope, with another cap. */
  predicate Stays(f: Found, scoped: bool, cap: nat) {
    CutShort(f, cap) && !(scoped && Normalized(f, cap) == 0)
  }

  function CapAfter(f: Found, cap: nat, n: nat): nat {
    if n == 0 then cap else Discovered(f, CapAfter(f, cap, n - 1))
  }

  ghost predicate RetriesForEver(f: Found, scoped: bool, cap: nat) {
    forall n: nat :: Stays(f, scoped, CapAfter(f, cap, n))
  }

  /** Caps between `p` and `q` lead to caps between `p` and `q`, all of them too small. */
  ghost predicate Trap(f: Found, scoped: bool, cap: nat, p: nat, q: nat) {
    && p <= cap <= q < Longest(f)
    && Discovered(f, p) <= q && p <= Discovered(f, q)
    && (scoped ==> Normalized(f, p) > 0)
  }

  lemma TrapKeeps(f: Found, scoped: bool, cap: nat, p: nat, q: nat)
    requires Trap(f, scoped, cap, p, q)
    ensures Stays(f, scoped, cap) && Trap(f, scoped, Discovered(f, cap), p, q)
  {
    CapsAreOpposed(f, p, cap);
    CapsAreOpposed(f, cap, q);
  }

  lemma {:induction false} TrapKeepsAll(f: Found, scoped: bool, cap: nat, p: nat, q: nat, n: nat)
    requires Trap(f, scoped, cap, p, q)
    ensures Trap(f, scoped, CapAfter(f, cap, n), p, q)
  {
    if n > 0 {
      TrapKeepsAll(f, scoped, cap, p, q, n - 1);
      TrapKeeps(f, scoped, CapAfter(f, cap, n - 1), p, q);
    }
  }

  /** A sequence of numbers has a least one. */
  lemma {:induction false} LeastOf(values: nat -> nat, n: nat) returns (m: nat)
    ensures forall k: nat :: values(m) <= values(k)
    decreases values(n)
  {
    if k: nat :| values(k) < values(n) {
      m := LeastOf(values, k);
    } else {
      m := n;
    }
  }

  /** A cap that is retried for ever is below the longest family. */
  lemma StaysBelowLongest(f: Found, scoped: bool, cap: nat, n: nat)
    requires RetriesForEver(f, scoped, cap)
    ensures CapAfter(f, cap, n) < Longest(f)
  {
    var c := CapAfter(f, cap, n);
    assert Stays(f, scoped, c) && Stays(f, scoped, CapAfter(f, cap, n + 1));
    if Longest(f) <= c {
      CapsAreOpposed(f, c, c);
      CapsAreOpposed(f, c, Discovered(f, c));
    }
  }

  /** Under one scope the retries go on for ever exactly when the cap is trapped. */
  lemma RetriesForEverIff(f: Found, scoped: bool, cap: nat)
    ensures RetriesForEver(f, scoped, cap) <==> exists p, q :: Trap(f, scoped, cap, p, q)
  {
    if RetriesForEver(f, scoped, cap) {
      forall n: nat ensures CapAfter(f, cap, n) < Longest(f) { StaysBelowLongest(f, scoped, cap, n); }
      var caps: nat -> nat := n => CapAfter(f, cap, n);
      var gaps: nat -> nat := n => if caps(n) < Longest(f) then Longest(f) - caps(n) else 0;
      var low := LeastOf(caps, 0);
      var high := LeastOf(gaps, 0);
      var p, q := caps(low), caps(high);
      forall n: nat ensures p <= CapAfter(f, cap, n) <= q {
        assert caps(low) <= caps(n) && gaps(high) <= gaps(n);
      }
      assert CapAfter(f, cap, low + 1) == Discovered(f, p) && CapAfter(f, cap, high + 1) == Discovered(f, q);
      assert p <= CapAfter(f, cap, 0) <= q && Stays(f, scoped, CapAfter(f, cap, low));
      assert Trap(f, scoped, cap, p, q);
    }
    if p, q :| Trap(f, scoped, cap, p, q) {
      forall n: nat ensures Stays(f, scoped, CapAfter(f, cap, n)) {
        TrapKeepsAll(f, scoped, cap, p, q, n);
        TrapKeeps(f, scoped, CapAfter(f, cap, n), p, q);
      }
    }
  }

  /** The cap at which a family's first mirror is seen. */
  lemma {:induction false} FirstMirror(family: seq<bool>, cap: nat) returns (k: nat)
    requires Mirrors(family, cap) > 0
    ensures 0 < k <= cap && k <= |family| && Mirrors(family, k) == 1
    ensures forall n: nat | k <= n :: Mirrors(family, n) <= n - k + 1
    decreases |family|
  {
    if family[0] {
      k := 1;
      forall n: nat | k <= n ensures Mirrors(family, n) <= n - k + 1 { assert Mirrors(family, n) <= Taken(family, n); }
    } else {
      var rest := FirstMirror(family[1..], cap - 1);
      k := rest + 1;
      forall n: nat | k <= n ensures Mirrors(family, n) <= n - k + 1 {
        assert Mirrors(family[1..], n - 1) <= n - 1 - rest + 1;
      }
    }
  }

  /**
    With one family, a whole-design sweep is retried for ever exactly when its cap is below the
    number of candidates and one of the candidates within the cap is a clocking block.
   */
  lemma OneFamilyForEverIff(family: seq<bool>, cap: nat)
    ensures RetriesForEver(Found(family, []), false, cap) <==> cap < |family| && Mirrors(family, cap) > 0
  {
    var f := Found(family, []);
    RetriesForEverIff(f, false, cap);
    if p, q :| Trap(f, false, cap, p, q) {
      MirrorsGrow(family, p, cap);
    }
    if cap < |family| && Mirrors(family, cap) > 0 {
      var k := FirstMirror(family, cap);
      assert Mirrors(family, |family| - 1) <= |family| - 1 - k + 1;
      assert Trap(f, false, cap, k, |family| - 1);
    }
  }

  /** A design with 65 handshakes, the first a clocking block: the default cap is suggested again and again. */
  lemma ClockingBlockRetriesForEver()
    ensures RetriesForEver(Found([true] + seq(64, i => false), []), false, DEFAULT_CAP)
  {
    OneFamilyForEverIff([true] + seq(64, i => false), DEFAULT_CAP);
  }

  /** Where the mirrors seen are never more than the smaller family, no cap is trapped. */
  lemma FewMirrorsNoTrap(f: Found, scoped: bool, cap: nat)
    requires |f.validReady| + |f.ahb| - Longest(f) >= MirrorsSeen(f, Longest(f))
    ensures !RetriesForEver(f, scoped, cap)
  {
    RetriesForEverIff(f, scoped, cap);
    forall p, q | Trap(f, scoped, cap, p, q) ensures false {
      MirrorsGrow(f.validReady, p, Longest(f));
      MirrorsGrow(f.ahb, p, Longest(f));
    }
  }

  // ---- How long retries go on ----

  /** What discovery finds in a waveform under a scope. */
  type Design = (string, Option<string>) -> Found

  /** An empty scope is no scope. */
  function FoundFor(design: Design, ask: Ask): Found {
    design(ask.wave, NonEmpty(ask.scope))
  }

  function NextAsk(design: Design, ask: Ask): Option<Ask> {
    RetryOf(ask, FoundFor(design, ask))
  }

  /** After at most `n` retries no further one is asked for. */
  ghost predicate EndsIn(design: Design, ask: Ask, n: nat)
    decreases n
  {
    NextAsk(design, ask).None? || (n > 0 && EndsIn(design, NextAsk(design, ask).value, n - 1))
  }

  /** The number of retries that follow a request. */
  ghost function RetriesIn(design: Design, ask: Ask, n: nat): (r: nat)
    requires EndsIn(design, ask, n)
    ensures r <= n
    decreases n
  {
    if NextAsk(design, ask).None? then 0 else 1 + RetriesIn(design, NextAsk(design, ask).value, n - 1)
  }

  lemma {:induction false} EndsLater(design: Design, ask: Ask, n: nat, m: nat)
    requires EndsIn(design, ask, n) && n <= m
    ensures EndsIn(design, ask, m) && RetriesIn(design, ask, n) == RetriesIn(design, ask, m)
    decreases n
  {
    if NextAsk(design, ask).Some? {
      EndsLater(design, NextAsk(design, ask).value, n - 1, m - 1);
    }
  }

  /** The retries of this request never end. */
  ghost predicate Endless(design: Design, ask: Ask) {
    forall n: nat :: !EndsIn(design, ask, n)
  }

  lemma EndlessGoesOn(design: Design, ask: Ask)
    requires NextAsk(design, ask).Some?
    ensures Endless(design, ask) <==> Endless(design, NextAsk(design, ask).value)
  {
    var next := NextAsk(design, ask).value;
    assert !EndsIn(design, ask, 0);
    forall n: nat ensures EndsIn(design, ask, n + 1) <==> EndsIn(design, next, n) {}
    if Endless(design, next) {
      forall n: nat ensures !EndsIn(design, ask, n) {
        assert n > 0 ==> !EndsIn(design, next, n - 1);
      }
    }
  }

  lemma EndlessLeadsOn(design: Design, ask: Ask)
    requires Endless(design, ask)
    ensures NextAsk(design, ask).Some? && Endless(design, NextAsk(design, ask).value)
  {
    assert !EndsIn(design, ask, 0);
    EndlessGoesOn(design, ask);
  }

  /** The request after `n` retries under the same scope. */
  function AskAt(ask: Ask, f: Found, n: nat): Ask {
    ask.(scope := NonEmpty(ask.scope), cap := CapAfter(f, ask.cap, n))
  }

  ghost predicate StaysFor(f: Found, scoped: bool, cap: nat, n: nat) {
    forall k: nat | k < n :: Stays(f, scoped, CapAfter(f, cap, k))
  }

  lemma {:induction false} EndlessAfter(design: Design, ask: Ask, n: nat)
    requires StaysFor(FoundFor(design, ask), NonEmpty(ask.scope).Some?, ask.cap, n)
    ensures Endless(design, ask) <==> Endless(design, AskAt(ask, FoundFor(design, ask), n))
    decreases n
  {
    var f := FoundFor(design, ask);
    if n == 0 {
      var same := AskAt(ask, f, 0);
      assert NextAsk(design, ask) == NextAsk(design, same);
      forall m: nat ensures EndsIn(design, ask, m) <==> EndsIn(design, same, m) {}
    } else {
      EndlessAfter(design, ask, n - 1);
      var last := AskAt(ask, f, n - 1);
      assert Stays(f, NonEmpty(ask.scope).Some?, last.cap) && FoundFor(design, last) == f;
      assert NextAsk(design, last) == Some(AskAt(ask, f, n));
      EndlessGoesOn(design, last);
    }
  }

  /** The first cap that does not stay under its scope, if one does not. */
  lemma {:induction false} FirstLeaving(f: Found, scoped: bool, cap: nat, n: nat) returns (k: nat)
    requires !Stays(f, scoped, CapAfter(f, cap, n))
    ensures k <= n && !Stays(f, scoped, CapAfter(f, cap, k)) && StaysFor(f, scoped, cap, k)
    decreases n
  {
    if j: nat :| j < n && !Stays(f, scoped, CapAfter(f, cap, j)) {
      k := FirstLeaving(f, scoped, cap, j);
    } else {
      k := n;
    }
  }

  lemma ForEverIsEndless(design: Design, ask: Ask)
    requires RetriesForEver(FoundFor(design, ask), NonEmpty(ask.scope).Some?, ask.cap)
    ensures Endless(design, ask)
  {
    var f, scoped := FoundFor(design, ask), NonEmpty(ask.scope).Some?;
    forall n: nat ensures !EndsIn(design, ask, n) { ForEverGoesOn(design, ask, n); }
  }

  lemma {:induction false} ForEverGoesOn(design: Design, ask: Ask, n: nat)
    requires RetriesForEver(FoundFor(design, ask), NonEmpty(ask.scope).Some?, ask.cap)
    ensures !EndsIn(design, ask, n)
    decreases n
  {
    var f, scoped := FoundFor(design, ask), NonEmpty(ask.scope).Some?;
    assert Stays(f, scoped, CapAfter(f, ask.cap, 0));
    var next := NextAsk(design, ask).value;
    assert next == ask.(scope := NonEmpty(ask.scope), cap := Discovered(f, ask.cap));
    forall k: nat ensures Stays(f, scoped, CapAfter(f, next.cap, k)) {
      CapOneOn(f, ask.cap, k);
      assert Stays(f, scoped, CapAfter(f, ask.cap, k + 1));
    }
    if n > 0 {
      ForEverGoesOn(design, next, n - 1);
    }
  }

  lemma {:induction false} CapOneOn(f: Found, cap: nat, n: nat)
    ensures CapAfter(f, Discovered(f, cap), n) == CapAfter(f, cap, n + 1)
  {
    if n > 0 {
      CapOneOn(f, cap, n - 1);
    } else {
      assert CapAfter(f, cap, 0) == cap;
    }
  }

  /** Of the whole design, retries never end exactly when the cap is retried for ever. */
  lemma UnscopedEndlessIff(design: Design, ask: Ask)
    requires NonEmpty(ask.scope).None?
    ensures Endless(design, ask) <==> RetriesForEver(FoundFor(design, ask), false, ask.cap)
  {
    var f := FoundFor(design, ask);
    if RetriesForEver(f, false, ask.cap) {
      ForEverIsEndless(design, ask);
    } else {
      var n: nat :| !Stays(f, false, CapAfter(f, ask.cap, n));
      var k := FirstLeaving(f, false, ask.cap, n);
      EndlessAfter(design, ask, k);
      assert EndsIn(design, AskAt(ask, f, k), 0);
    }
  }

  /** After `n` retries under its scope the sweep finds nothing, and the scope is dropped. */
  ghost predicate DropsScopeAt(f: Found, cap: nat, n: nat) {
    StaysFor(f, true, cap, n) && Normalized(f, CapAfter(f, cap, n)) == 0
  }

  ghost predicate EndlessOnceDropped(design: Design, ask: Ask, n: nat) {
    && DropsScopeAt(FoundFor(design, ask), ask.cap, n)
    && RetriesForEver(design(ask.wave, None), false, CapAfter(FoundFor(design, ask), ask.cap, n))
  }

  /**
    A sweep's retries never end exactly when its cap is retried for ever under its scope, or the
    scope is dropped at a cap that is retried for ever without it.
   */
  lemma EndlessIff(design: Design, ask: Ask)
    ensures Endless(design, ask) <==>
      || RetriesForEver(FoundFor(design, ask), NonEmpty(ask.scope).Some?, ask.cap)
      || (NonEmpty(ask.scope).Some? && exists n: nat :: EndlessOnceDropped(design, ask, n))
  {
    var f, scoped := FoundFor(design, ask), NonEmpty(ask.scope).Some?;
    if !scoped {
      UnscopedEndlessIff(design, ask);
    } else if RetriesForEver(f, scoped, ask.cap) {
      ForEverIsEndless(design, ask);
    } else {
      var n: nat :| !Stays(f, scoped, CapAfter(f, ask.cap, n));
      var k := FirstLeaving(f, scoped, ask.cap, n);
      EndlessAfter(design, ask, k);
      LeftEndlessIff(design, AskAt(ask, f, k));
      DroppedOnlyAt(design, ask, k);
    }
  }

  lemma DroppedOnlyAt(design: Design, ask: Ask, k: nat)
    requires StaysFor(FoundFor(design, ask), true, ask.cap, k)
    requires !Stays(FoundFor(design, ask), true, CapAfter(FoundFor(design, ask), ask.cap, k))
    ensures (exists n: nat :: EndlessOnceDropped(design, ask, n)) <==> EndlessOnceDropped(design, ask, k)
  {
    var f := FoundFor(design, ask);
    if n: nat :| EndlessOnceDropped(design, ask, n) {
      assert !Stays(f, true, CapAfter(f, ask.cap, n));
      assert !(k < n) && !(n < k);
    }
  }

  lemma LeftEndlessIff(design: Design, ask: Ask)
    requires NonEmpty(ask.scope).Some? && !Stays(FoundFor(design, ask), true, ask.cap)
    ensures Endless(design, ask) <==>
      Normalized(FoundFor(design, ask), ask.cap) == 0 && RetriesForEver(design(ask.wave, None), false, ask.cap)
  {
    if NextAsk(design, ask).Some? {
      var next := ask.(scope := None);
      assert NextAsk(design, ask) == Some(next) && FoundFor(design, next) == design(ask.wave, None);
      EndlessGoesOn(design, ask);
      UnscopedEndlessIff(design, next);
      assert Normalized(FoundFor(design, ask), ask.cap) == 0;
    } else {
      assert EndsIn(design, ask, 0);
    }
  }

  /** No cap is trapped, under any scope of any waveform. */
  ghost predicate Untrapped(design: Design) {
    forall wave, scope, cap :: !RetriesForEver(design(wave, NonEmpty(scope)), NonEmpty(scope).Some?, cap)
  }

  ghost predicate Bounded(design: Design, widest: nat) {
    forall wave, scope :: Longest(design(wave, scope)) <= widest
  }

  /** The cap two retries on. */
  function CapAfterTwo(f: Found, cap: nat): nat {
    Discovered(f, Discovered(f, cap))
  }

  /** Where caps alternate without end is a trap: two retries never lead back. */
  lemma TwoRetriesMove(f: Found, scoped: bool, cap: nat)
    requires !RetriesForEver(f, scoped, cap) && Stays(f, scoped, cap) && Stays(f, scoped, Discovered(f, cap))
    requires cap < Longest(f) && Discovered(f, cap) < Longest(f)
    ensures CapAfterTwo(f, cap) != cap
  {
    var d := Discovered(f, cap);
    if CapAfterTwo(f, cap) == cap {
      RetriesForEverIff(f, scoped, cap);
      assert Trap(f, scoped, cap, if cap < d then cap else d, if cap < d then d else cap);
    }
  }

  /** Every two retries bring the cap closer to one end, and never turn round. */
  function Distance(f: Found, cap: nat): nat {
    if cap >= Longest(f) then 0
    else if CapAfterTwo(f, cap) > cap then Longest(f) - cap
    else cap + 1
  }

  lemma TwoRetriesApproach(f: Found, cap: nat)
    requires cap < Longest(f) && CapAfterTwo(f, cap) != cap && CapAfterTwo(f, cap) < Longest(f)
    requires CapAfterTwo(f, CapAfterTwo(f, cap)) != CapAfterTwo(f, cap)
    ensures Distance(f, CapAfterTwo(f, cap)) < Distance(f, cap)
  {
    var d, e := Discovered(f, cap), CapAfterTwo(f, cap);
    if cap < e {
      CapsAreOpposed(f, cap, e);
      CapsAreOpposed(f, Discovered(f, e), d);
    } else {
      CapsAreOpposed(f, e, cap);
      CapsAreOpposed(f, d, Discovered(f, e));
    }
  }

  /** Dropping the scope leads to retries that end in `rest`. */
  ghost predicate RestEnds(design: Design, ask: Ask, rest: nat) {
    NonEmpty(ask.scope).Some? ==> forall cap :: EndsIn(design, ask.(scope := None, cap := cap), rest)
  }

  lemma LeftEnds(design: Design, ask: Ask, rest: nat)
    requires RestEnds(design, ask, rest)
    requires !Stays(FoundFor(design, ask), NonEmpty(ask.scope).Some?, ask.cap)
    ensures EndsIn(design, ask, 1 + rest)
  {
    if NextAsk(design, ask).Some? {
      assert NextAsk(design, ask).value == ask.(scope := None, cap := ask.cap);
    }
  }

  lemma LongEnds(design: Design, ask: Ask, rest: nat)
    requires RestEnds(design, ask, rest) && Longest(FoundFor(design, ask)) <= ask.cap
    ensures EndsIn(design, ask, 2 + rest)
  {
    var f, scoped := FoundFor(design, ask), NonEmpty(ask.scope).Some?;
    CapsAreOpposed(f, ask.cap, ask.cap);
    if Stays(f, scoped, ask.cap) {
      var next := NextAsk(design, ask).value;
      CapsAreOpposed(f, ask.cap, next.cap);
      LeftEnds(design, next, rest);
    } else {
      LeftEnds(design, ask, rest);
      EndsLater(design, ask, 1 + rest, 2 + rest);
    }
  }

  /** Two more retries under the same scope, with caps that stay too small. */
  predicate Moving(f: Found, scoped: bool, cap: nat) {
    && cap < Longest(f) && Discovered(f, cap) < Longest(f)
    && Stays(f, scoped, cap) && Stays(f, scoped, Discovered(f, cap))
  }

  lemma ShortEnds(design: Design, ask: Ask, rest: nat)
    requires RestEnds(design, ask, rest) && !Moving(FoundFor(design, ask), NonEmpty(ask.scope).Some?, ask.cap)
    ensures EndsIn(design, ask, 3 + rest)
  {
    var f, scoped := FoundFor(design, ask), NonEmpty(ask.scope).Some?;
    if !Stays(f, scoped, ask.cap) {
      LeftEnds(design, ask, rest);
      EndsLater(design, ask, 1 + rest, 3 + rest);
    } else if Longest(f) <= ask.cap {
      LongEnds(design, ask, rest);
      EndsLater(design, ask, 2 + rest, 3 + rest);
    } else {
      var next := NextAsk(design, ask).value;
      if Longest(f) <= next.cap {
        LongEnds(design, next, rest);
      } else {
        LeftEnds(design, next, rest);
        EndsLater(design, next, 1 + rest, 2 + rest);
      }
    }
  }

  lemma MovingApproaches(f: Found, scoped: bool, cap: nat)
    requires !RetriesForEver(f, scoped, cap) && !RetriesForEver(f, scoped, CapAfterTwo(f, cap))
    requires Moving(f, scoped, cap) && Moving(f, scoped, CapAfterTwo(f, cap))
    ensures Distance(f, CapAfterTwo(f, cap)) < Distance(f, cap)
  {
    TwoRetriesMove(f, scoped, cap);
    TwoRetriesMove(f, scoped, CapAfterTwo(f, cap));
    TwoRetriesApproach(f, cap);
  }

  /** Two retries on, under the same scope. */
  lemma TwoOn(design: Design, ask: Ask, n: nat) returns (last: Ask)
    requires Moving(FoundFor(design, ask), NonEmpty(ask.scope).Some?, ask.cap)
    ensures last == ask.(scope := NonEmpty(ask.scope), cap := CapAfterTwo(FoundFor(design, ask), ask.cap))
    ensures EndsIn(design, last, n) ==> EndsIn(design, ask, n + 2)
  {
    var next := NextAsk(design, ask).value;
    last := NextAsk(design, next).value;
    assert EndsIn(design, last, n) ==> EndsIn(design, next, n + 1);
  }

  lemma OtherCap(design: Design, ask: Ask, cap: nat, rest: nat)
    requires RestEnds(design, ask, rest)
    ensures var other := ask.(scope := NonEmpty(ask.scope), cap := cap);
      && RestEnds(design, other, rest) && FoundFor(design, other) == FoundFor(design, ask)
      && NonEmpty(other.scope) == NonEmpty(ask.scope)
  {
    var other := ask.(scope := NonEmpty(ask.scope), cap := cap);
    assert forall c: nat :: other.(scope := None, cap := c) == ask.(scope := None, cap := c);
  }

  /** No cap of this request's scope is retried for ever. */
  lemma NotTrapped(design: Design, ask: Ask, cap: nat)
    requires Untrapped(design)
    ensures !RetriesForEver(FoundFor(design, ask), NonEmpty(ask.scope).Some?, cap)
  {
  }

  /** Where two more retries lead to a cap that does not move on, they end three later. */
  lemma LastMoveEnds(design: Design, ask: Ask, rest: nat, n: nat)
    requires RestEnds(design, ask, rest) && 5 + rest <= n
    requires Moving(FoundFor(design, ask), NonEmpty(ask.scope).Some?, ask.cap)
    requires !Moving(FoundFor(design, ask), NonEmpty(ask.scope).Some?, CapAfterTwo(FoundFor(design, ask), ask.cap))
    ensures EndsIn(design, ask, n)
  {
    var last := TwoOn(design, ask, n - 2);
    OtherCap(design, ask, last.cap, rest);
    ShortEnds(design, last, rest);
    EndsLater(design, last, 3 + rest, n - 2);
  }

  /** Retries under one scope end, and with them those after dropping it. */
  lemma {:induction false} ScopeEnds(design: Design, ask: Ask, rest: nat, n: nat)
    requires Untrapped(design) && RestEnds(design, ask, rest)
    requires 2 * Distance(FoundFor(design, ask), ask.cap) + 3 + rest <= n
    ensures EndsIn(design, ask, n)
    decreases n
  {
    var f, scoped, cap := FoundFor(design, ask), NonEmpty(ask.scope).Some?, ask.cap;
    if !Moving(f, scoped, cap) {
      ShortEnds(design, ask, rest);
      EndsLater(design, ask, 3 + rest, n);
    } else {
      MovingHasDistance(f, scoped, cap);
      if !Moving(f, scoped, CapAfterTwo(f, cap)) {
        LastMoveEnds(design, ask, rest, n);
      } else {
        NotTrapped(design, ask, cap);
        NotTrapped(design, ask, CapAfterTwo(f, cap));
        MovingApproaches(f, scoped, cap);
        var last := TwoOn(design, ask, n - 2);
        OtherCap(design, ask, last.cap, rest);
        ScopeEnds(design, last, rest, n - 2);
      }
    }
  }

  lemma MovingHasDistance(f: Found, scoped: bool, cap: nat)
    requires Moving(f, scoped, cap)
    ensures Distance(f, cap) > 0
  {
  }

  function MostRetries(widest: nat): nat {
    2 * (2 * widest + 3)
  }

  /** Where no cap is trapped, the retries of every sweep end, within a bound for the whole waveform. */
  lemma RetriesEnd(design: Design, widest: nat, ask: Ask)
    requires Untrapped(design) && Bounded(design, widest)
    ensures EndsIn(design, ask, MostRetries(widest))
  {
    var one := 2 * widest + 3;
    forall cap ensures EndsIn(design, ask.(scope := None, cap := cap), one) {
      ScopeEnds(design, ask.(scope := None, cap := cap), 0, one);
    }
    ScopeEnds(design, ask, one, MostRetries(widest));
  }
}
