/** Which retry of an incomplete handshake sweep counts as progress. */
module SweepRetry {
  import opened Wrappers

  datatype Coverage = Complete | Truncated | ZeroCoverage | Degraded

  /** An integer argument of a suggested call. */
  datatype Number = Absent | Malformed | Given(value: int)

  datatype Arguments = Arguments(
    wavePath: Option<string>, scope: Option<string>, maxInterfaces: Number,
    edge: Option<string>, start: Number, end: Number)

  datatype Action = Action(tool: string, arguments: Option<Arguments>)

  datatype Sweep = Sweep(
    wavePath: string, scope: Option<string>, edge: string, start: int, end: int,
    discovered: int, interfaces: int, coverage: Coverage, actions: seq<Action>)

  /** `x or None`: an empty string counts as absent. */
  function NonEmpty(s: Option<string>): Option<string> {
    if s == Some("") then None else s
  }

  function Default(n: Number, default: int): Option<int> {
    match n
    case Absent => Some(default)
    case Malformed => None
    case Given(v) => Some(v)
  }

  function StripDots(s: string): string {
    if s != "" && s[|s| - 1] == '.' then StripDots(s[..|s| - 1]) else s
  }

  /** A scope change widens discovery: the scope is dropped, or replaced by a dotted parent. */
  predicate ScopeWidens(prior: Option<string>, next: Option<string>) {
    prior.Some? && (next.None? || StripDots(next.value) + "." <= prior.value)
  }

  /** The window test of a degraded sweep. A negative end means the end of the trace. */
  predicate WindowNarrows(start: int, end: int, nextStart: int, nextEnd: int) {
    if nextStart < start || (nextEnd >= 0 && nextEnd < nextStart) then false
    else
      var endIsNarrower := nextEnd != end && nextEnd >= 0 && (end < 0 || nextEnd <= end);
      var endIsNotWider := end < 0 || (nextEnd >= 0 && nextEnd <= end);
      (nextStart > start || endIsNarrower) && endIsNotWider
  }

  /** `_sweep_action_makes_progress`; `onDisk` resolves a path on disk. */
  predicate MakesProgress(action: Action, wave: string, sweep: Sweep, onDisk: string -> string) {
    && action.tool == "sweep_handshakes"
    && action.arguments.Some?
    && var a := action.arguments.value;
    (&& NonEmpty(a.wavePath).Some? && wave != "" && onDisk(a.wavePath.value) == onDisk(wave)
     && if NonEmpty(sweep.scope) != NonEmpty(a.scope) then ScopeWidens(NonEmpty(sweep.scope), NonEmpty(a.scope))
        else if sweep.coverage == Truncated then
          var cap := if a.maxInterfaces.Given? then a.maxInterfaces.value else 0;
          cap >= sweep.discovered && cap > sweep.interfaces
        else if sweep.coverage != Degraded then false
        else if a.edge.Some? && a.edge.value != sweep.edge then true
        else
          var start, end := Default(a.start, sweep.start), Default(a.end, sweep.end);
          start.Some? && end.Some? && WindowNarrows(sweep.start, sweep.end, start.value, end.value))
  }

  function FirstProgress(actions: seq<Action>, wave: string, sweep: Sweep,
                         onDisk: string -> string): (r: Option<Action>)
    ensures r.Some? ==> r.value in actions && MakesProgress(r.value, wave, sweep, onDisk)
    ensures r.None? <==> forall a :: a in actions ==> !MakesProgress(a, wave, sweep, onDisk)
  {
    if actions == [] then None
    else if MakesProgress(actions[0], wave, sweep, onDisk) then Some(actions[0])
    else
      var r := FirstProgress(actions[1..], wave, sweep, onDisk);
      assert actions == [actions[0]] + actions[1..];
      r
  }

  function SweepAll(wave: string, cap: Number): Action {
    Action("sweep_handshakes", Some(Arguments(Some(wave), None, cap, None, Absent, Absent)))
  }

  /** `_build_sweep_required_next_call`. */
  function NextCall(wave: Option<string>, sweep: Option<Sweep>, onDisk: string -> string): Option<Action> {
    if NonEmpty(wave).None? then None
    else if sweep.None? then Some(SweepAll(wave.value, Absent))
    else if sweep.value.coverage == Complete then None
    else
      var s := sweep.value;
      var first := FirstProgress(s.actions, wave.value, s, onDisk);
      var target := if s.discovered > s.interfaces then s.discovered else s.interfaces;
      if first.Some? then first
      else if s.coverage == Truncated && target > s.interfaces then Some(SweepAll(wave.value, Given(target)))
      else None
  }

  // ---- Windows ----

  datatype Window = Window(start: int, end: int)

  ghost predicate Covers(w: Window, t: int) {
    w.start <= t && (w.end < 0 || t <= w.end)
  }

  ghost predicate Inside(next: Window, prior: Window) {
    WindowNarrows(prior.start, prior.end, next.start, next.end)
  }

  /** A retry window is admitted exactly when it is a non-empty, proper part of the previous one. */
  lemma NarrowsIsProperPart(prior: Window, next: Window)
    ensures Inside(next, prior) <==>
      && (exists t :: Covers(next, t))
      && (forall t :: Covers(next, t) ==> Covers(prior, t))
      && (exists t :: Covers(prior, t) && !Covers(next, t))
  {
    if Inside(next, prior) {
      assert Covers(next, next.start);
      assert next.start > prior.start ==> Covers(prior, prior.start) && !Covers(next, prior.start);
      if next.start == prior.start {
        assert Covers(prior, next.end + 1) && !Covers(next, next.end + 1);
      }
    }
    if && (exists t :: Covers(next, t)) && (forall t :: Covers(next, t) ==> Covers(prior, t)) {
      assert Covers(next, next.start);
      assert Covers(prior, next.start);
      if next.end >= 0 {
        assert Covers(next, next.end) && Covers(prior, next.end);
      } else if prior.end >= 0 {
        var late := if next.start > prior.end then next.start else prior.end + 1;
        assert Covers(next, late);
      }
    }
  }

  /** Admission is a strict order. */
  lemma NarrowingIsStrictOrder(a: Window, b: Window, c: Window)
    ensures !Inside(a, a)
    ensures Inside(a, b) && Inside(b, c) ==> Inside(a, c)
    ensures Inside(a, b) ==> !Inside(b, a)
  {
  }

  /** Retries that start within a trace of length `last` are exhausted after finitely many. */
  lemma {:induction false} RetriesRunOut(windows: nat -> Window, last: int) returns (n: nat)
    ensures windows(n).start > last || !Inside(windows(n + 1), windows(n))
    decreases windows(0).end < 0, if windows(0).end < 0 then last - windows(0).start
      else windows(0).end - windows(0).start
  {
    n := 0;
    if windows(0).start <= last && Inside(windows(1), windows(0)) && windows(1).start <= last {
      n := RetriesRunOut((k: nat) => windows(k + 1), last);
      n := n + 1;
    } else if windows(0).start <= last && Inside(windows(1), windows(0)) {
      n := 1;
    }
  }

  ghost predicate NarrowsForEver(windows: nat -> Window) {
    forall n: nat :: Inside(windows(n + 1), windows(n))
  }

  lemma {:induction false} ClosedWindowsShrink(windows: nat -> Window, n: nat)
    requires NarrowsForEver(windows) && windows(0).end >= 0
    ensures windows(n).end >= 0
    ensures windows(n).end - windows(n).start <= windows(0).end - windows(0).start - n
    ensures n > 0 ==> windows(n).start <= windows(n).end
  {
    if n > 0 {
      ClosedWindowsShrink(windows, n - 1);
      assert Inside(windows(n - 1 + 1), windows(n - 1));
    }
  }

  /** Retries from a window can go on for ever exactly when the window is open-ended. */
  lemma NarrowsForEverIff(w: Window)
    ensures (exists windows: nat -> Window :: NarrowsForEver(windows) && windows(0) == w) <==> w.end < 0
  {
    if w.end < 0 {
      var windows: nat -> Window := k => Window(w.start + k, w.end);
      assert NarrowsForEver(windows);
    } else {
      forall windows: nat -> Window | NarrowsForEver(windows) ensures windows(0) != w {
        var long := windows(0).end - windows(0).start;
        var n: nat := if long < 0 then 1 else long + 1;
        if windows(0).end >= 0 {
          ClosedWindowsShrink(windows, n);
        }
      }
    }
  }

  // ---- Whole actions ----

  function Retry(wave: string, scope: Option<string>, edge: string, w: Window): Action {
    Action("sweep_handshakes", Some(Arguments(Some(wave), scope, Absent, Some(edge), Given(w.start), Given(w.end))))
  }

  /** A same-scope, same-edge retry of a degraded sweep is admitted exactly for an inner window. */
  lemma DegradedRetryAdmitted(sweep: Sweep, wave: string, next: Window, onDisk: string -> string)
    requires sweep.coverage == Degraded && wave != ""
    ensures MakesProgress(Retry(wave, sweep.scope, sweep.edge, next), wave, sweep, onDisk)
       <==> Inside(next, Window(sweep.start, sweep.end))
  {
  }

  function WindowOf(sweep: Sweep): Window {
    Window(sweep.start, sweep.end)
  }

  /** Degraded sweeps of one scope and edge, each the admitted retry of the one before. */
  ghost predicate DegradedForEver(sweeps: nat -> Sweep, wave: string, onDisk: string -> string) {
    forall n: nat ::
      (&& sweeps(n).coverage.Degraded? && sweeps(n).scope == sweeps(0).scope && sweeps(n).edge == sweeps(0).edge
       && MakesProgress(Retry(wave, sweeps(n).scope, sweeps(n).edge, WindowOf(sweeps(n + 1))), wave, sweeps(n), onDisk))
  }

  /** A degraded sweep can be retried for ever exactly when its window is open-ended. */
  lemma DegradedForEverIff(s: Sweep, wave: string, onDisk: string -> string)
    requires s.coverage.Degraded? && wave != ""
    ensures (exists sweeps: nat -> Sweep :: DegradedForEver(sweeps, wave, onDisk) && sweeps(0) == s) <==> s.end < 0
  {
    NarrowsForEverIff(WindowOf(s));
    if sweeps: nat -> Sweep :| DegradedForEver(sweeps, wave, onDisk) && sweeps(0) == s {
      var windows: nat -> Window := (n: nat) => WindowOf(sweeps(n));
      forall n: nat ensures Inside(windows(n + 1), windows(n)) {
        DegradedRetryAdmitted(sweeps(n), wave, WindowOf(sweeps(n + 1)), onDisk);
      }
      assert NarrowsForEver(windows) && windows(0) == WindowOf(s);
    }
    if s.end < 0 {
      var sweeps: nat -> Sweep := (k: nat) => s.(start := s.start + k);
      forall n: nat
        ensures MakesProgress(Retry(wave, s.scope, s.edge, WindowOf(sweeps(n + 1))), wave, sweeps(n), onDisk)
      {
        DegradedRetryAdmitted(sweeps(n), wave, WindowOf(sweeps(n + 1)), onDisk);
      }
      assert DegradedForEver(sweeps, wave, onDisk) && sweeps(0) == s;
    }
  }

  // ---- Scopes as dotted segments ----

  /** One more character in front of already split segments. */
  function Extend(c: char, rest: seq<string>): (r: seq<string>)
    requires |rest| > 0
    ensures |r| > 0
  {
    if c == '.' then [""] + rest else [[c] + rest[0]] + rest[1..]
  }

  /** The segments of a dotted scope, as `split(".")` gives them. */
  function Segments(scope: string): (r: seq<string>)
    ensures |r| > 0
  {
    if scope == "" then [""] else Extend(scope[0], Segments(scope[1..]))
  }

  lemma ExtendAppend(c: char, a: seq<string>, b: seq<string>)
    requires |a| > 0
    ensures Extend(c, a + b) == Extend(c, a) + b
  {
    assert (a + b)[1..] == a[1..] + b;
  }

  lemma DropFirst(parent: string, rest: string)
    requires parent != ""
    ensures (parent + "." + rest)[1..] == parent[1..] + "." + rest
  {
  }

  lemma {:induction false} SegmentsOfParent(parent: string, rest: string)
    ensures Segments(parent + "." + rest) == Segments(parent) + Segments(rest)
  {
    if parent == "" {
      assert (parent + "." + rest)[1..] == rest;
      assert Extend('.', Segments(rest)) == [""] + Segments(rest);
    } else {
      DropFirst(parent, rest);
      SegmentsOfParent(parent[1..], rest);
      ExtendAppend(parent[0], Segments(parent[1..]), Segments(rest));
    }
  }

  function Join(segments: seq<string>): string
    requires |segments| > 0
  {
    if |segments| == 1 then segments[0] else segments[0] + "." + Join(segments[1..])
  }

  lemma {:induction false} JoinSegments(scope: string)
    ensures Join(Segments(scope)) == scope
  {
    if scope != "" {
      var rest := Segments(scope[1..]);
      JoinSegments(scope[1..]);
      if scope[0] == '.' {
        assert ([""] + rest)[1..] == rest;
        assert "" + "." + Join(rest) == scope;
      } else {
        var all := [[scope[0]] + rest[0]] + rest[1..];
        assert all[1..] == rest[1..];
        if |rest| == 1 {
          assert [scope[0]] + rest[0] == scope;
        } else {
          assert [scope[0]] + rest[0] + "." + Join(rest[1..]) == [scope[0]] + (rest[0] + "." + Join(rest[1..]));
          assert [scope[0]] + scope[1..] == scope;
        }
      }
    }
  }

  lemma {:induction false} JoinAppend(a: seq<string>, b: seq<string>)
    requires |a| > 0 && |b| > 0
    ensures Join(a + b) == Join(a) + "." + Join(b)
  {
    if |a| > 1 {
      JoinAppend(a[1..], b);
      assert (a + b)[1..] == a[1..] + b;
      assert a[0] + "." + (Join(a[1..]) + "." + Join(b)) == a[0] + "." + Join(a[1..]) + "." + Join(b);
    } else {
      assert (a + b)[1..] == b;
    }
  }

  /**
    The scope test admits exactly dropping the scope or moving to one whose segments, trailing
    dots aside, are a proper prefix: a retry never goes deeper.
   */
  lemma ScopeWidensIsParent(prior: string, next: string)
    ensures ScopeWidens(Some(prior), Some(next)) <==> Segments(StripDots(next)) < Segments(prior)
    ensures ScopeWidens(Some(prior), None)
  {
    var parent := StripDots(next);
    if parent + "." <= prior {
      var rest := prior[|parent| + 1..];
      assert prior == parent + "." + rest;
      SegmentsOfParent(parent, rest);
    }
    if Segments(parent) < Segments(prior) {
      var rest := Segments(prior)[|Segments(parent)|..];
      assert Segments(prior) == Segments(parent) + rest;
      JoinAppend(Segments(parent), rest);
      JoinSegments(prior);
      JoinSegments(parent);
    }
  }

  // ---- Admission in whole ----

  /** Some moments of the prior window, not none and not all. */
  ghost predicate ProperPart(next: Window, prior: Window) {
    && (exists t :: Covers(next, t))
    && (forall t :: Covers(next, t) ==> Covers(prior, t))
    && (exists t :: Covers(prior, t) && !Covers(next, t))
  }

  predicate Unset(s: Option<string>) {
    s == None || s == Some("")
  }

  ghost predicate SameScope(a: Option<string>, b: Option<string>) {
    (Unset(a) && Unset(b)) || a == b
  }

  /**
    A suggested call is admitted exactly when it sweeps the same file, and either moves the scope
    to none or to a parent, or keeps it and does more: for a truncated sweep a cap that reaches
    all and exceeds what was inspected, for a degraded one another edge or a window within.
   */
  ghost predicate Admitted(action: Action, wave: string, sweep: Sweep, onDisk: string -> string) {
    && action.tool == "sweep_handshakes" && action.arguments.Some?
    && var a := action.arguments.value;
    (&& !Unset(a.wavePath) && wave != "" && onDisk(a.wavePath.value) == onDisk(wave)
     && if !SameScope(a.scope, sweep.scope)
        then !Unset(sweep.scope)
             && (Unset(a.scope) || Segments(StripDots(a.scope.value)) < Segments(sweep.scope.value))
        else
          match sweep.coverage
          case Truncated =>
            var cap := if a.maxInterfaces.Given? then a.maxInterfaces.value else 0;
            sweep.discovered <= cap && sweep.interfaces < cap
          case Degraded =>
            || (a.edge != None && a.edge != Some(sweep.edge))
            || (&& !a.start.Malformed? && !a.end.Malformed?
                && ProperPart(Window(match a.start case Given(n) => n case _ => sweep.start,
                                     match a.end case Given(n) => n case _ => sweep.end),
                              Window(sweep.start, sweep.end)))
          case _ => false)
  }

  lemma AdmittedIff(action: Action, wave: string, sweep: Sweep, onDisk: string -> string)
    ensures MakesProgress(action, wave, sweep, onDisk) <==> Admitted(action, wave, sweep, onDisk)
  {
    if action.arguments.Some? {
      var a := action.arguments.value;
      if !Unset(sweep.scope) && !Unset(a.scope) {
        ScopeWidensIsParent(sweep.scope.value, a.scope.value);
      }
      NarrowsIsProperPart(Window(sweep.start, sweep.end),
                          Window(match a.start case Given(n) => n case _ => sweep.start,
                                 match a.end case Given(n) => n case _ => sweep.end));
    }
  }

  /** Trailing dots go, and nothing else. */
  lemma {:induction false} StripDotsIs(s: string)
    ensures StripDots(s) <= s && (StripDots(s) != "" ==> StripDots(s)[|StripDots(s)| - 1] != '.')
    ensures forall i | |StripDots(s)| <= i < |s| :: s[i] == '.'
  {
    if s != "" && s[|s| - 1] == '.' {
      StripDotsIs(s[..|s| - 1]);
    }
  }

  /** The suggested action at this place is the first that is admitted. */
  ghost predicate FirstAdmitted(wave: string, sweep: Sweep, onDisk: string -> string, i: nat) {
    && i < |sweep.actions| && Admitted(sweep.actions[i], wave, sweep, onDisk)
    && forall j | 0 <= j < i :: !Admitted(sweep.actions[j], wave, sweep, onDisk)
  }

  /** There is no next call exactly for a complete sweep, or where nothing admitted is suggested and no cap helps. */
  lemma NextCallIs(wave: string, sweep: Sweep, onDisk: string -> string)
    requires wave != ""
    ensures var call := NextCall(Some(wave), Some(sweep), onDisk);
      var none := forall a :: a in sweep.actions ==> !Admitted(a, wave, sweep, onDisk);
      && (sweep.coverage == Complete ==> call == None)
      && (sweep.coverage != Complete ==>
            && (call == None <==> none && !(sweep.coverage == Truncated && sweep.discovered > sweep.interfaces))
            && (none && call != None ==> call == Some(SweepAll(wave, Given(sweep.discovered))))
            && forall i: nat | FirstAdmitted(wave, sweep, onDisk, i) :: call == Some(sweep.actions[i]))
  {
    forall a ensures MakesProgress(a, wave, sweep, onDisk) <==> Admitted(a, wave, sweep, onDisk) {
      AdmittedIff(a, wave, sweep, onDisk);
    }
    forall i: nat | FirstAdmitted(wave, sweep, onDisk, i)
      ensures FirstProgress(sweep.actions, wave, sweep, onDisk) == Some(sweep.actions[i])
    {
      FirstProgressIs(sweep.actions, wave, sweep, onDisk, i);
      assert sweep.actions[i] in sweep.actions;
    }
  }

  lemma {:induction false} FirstProgressIs(actions: seq<Action>, wave: string, sweep: Sweep,
                                           onDisk: string -> string, i: nat)
    requires i < |actions| && MakesProgress(actions[i], wave, sweep, onDisk)
    requires forall j | 0 <= j < i :: !MakesProgress(actions[j], wave, sweep, onDisk)
    ensures FirstProgress(actions, wave, sweep, onDisk) == Some(actions[i])
  {
    if i > 0 {
      FirstProgressIs(actions[1..], wave, sweep, onDisk, i - 1);
    }
  }
}
