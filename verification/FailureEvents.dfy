/** Bounding the failure events returned per group. */
module FailureEvents {

  datatype Event = Event(group: string, body: string)

  /** The events of one group, in order. */
  function OfGroup(events: seq<Event>, group: string): seq<Event> {
    if events == [] then []
    else OfGroup(events[..|events| - 1], group)
         + (if events[|events| - 1].group == group then [events[|events| - 1]] else [])
  }

  /** Every event before which fewer than `cap` of its group occur. */
  function Bounded(events: seq<Event>, cap: int): seq<Event> {
    if events == [] then []
    else
      var front, last := events[..|events| - 1], events[|events| - 1];
      Bounded(front, cap) + (if |OfGroup(front, last.group)| < cap then [last] else [])
  }

  /** `_truncate_failure_events_by_group`. */
  method Truncate(events: seq<Event>, cap: int) returns (result: seq<Event>)
    ensures result == Bounded(events, cap)
  {
    result := [];
    var counts: map<string, nat> := map[];
    for n := 0 to |events|
      invariant result == Bounded(events[..n], cap)
      invariant forall g: string :: (if g in counts then counts[g] else 0) == Smaller(|OfGroup(events[..n], g)|, cap)
    {
      var event := events[n];
      assert events[..n + 1][..n] == events[..n] && events[..n + 1][n] == event;
      var count := if event.group in counts then counts[event.group] else 0;
      if count < cap {
        result := result + [event];
        counts := counts[event.group := count + 1];
      }
    }
    assert events[..|events|] == events;
  }

  function Smaller(n: nat, cap: int): nat {
    if n < cap then n else if cap < 0 then 0 else cap
  }

  lemma {:induction false} OfGroupAppend(events: seq<Event>, e: Event, group: string)
    ensures OfGroup(events + [e], group) == OfGroup(events, group) + (if e.group == group then [e] else [])
  {
    assert (events + [e])[..|events|] == events;
  }

  /** Restricted to any group, the result is the first `cap` events of that group. */
  lemma {:induction false} GroupIsPrefix(events: seq<Event>, cap: int, group: string)
    ensures OfGroup(Bounded(events, cap), group) == OfGroup(events, group)[..Smaller(|OfGroup(events, group)|, cap)]
    decreases |events|
  {
    if events != [] {
      var front, last := events[..|events| - 1], events[|events| - 1];
      var g := OfGroup(front, group);
      GroupIsPrefix(front, cap, group);
      OfGroupAppend(Bounded(front, cap), last, group);
      if last.group == group {
        assert OfGroup(events, group) == g + [last];
        PrefixGrows(g, last, cap);
        if |g| >= cap {
          assert Bounded(events, cap) == Bounded(front, cap);
        }
      } else {
        assert OfGroup(events, group) == g;
        assert Bounded(events, cap) == Bounded(front, cap) || Bounded(events, cap) == Bounded(front, cap) + [last];
      }
    }
  }

  /** The first `cap` of one more event are one more while there is room. */
  lemma PrefixGrows(g: seq<Event>, last: Event, cap: int)
    ensures (g + [last])[..Smaller(|g| + 1, cap)] == g[..Smaller(|g|, cap)] + (if |g| < cap then [last] else [])
  {
  }

  /** `a` is `b` with events left out; `at` says where in `b` the kept ones stand. */
  ghost predicate Picks(a: seq<Event>, b: seq<Event>, at: seq<nat>) {
    && |at| == |a|
    && (forall i | 0 <= i < |at| :: at[i] < |b| && a[i] == b[at[i]])
    && (forall i, j | 0 <= i < j < |at| :: at[i] < at[j])
  }

  /** The result is a subsequence of the input. */
  lemma {:induction false} IsSubsequence(events: seq<Event>, cap: int) returns (at: seq<nat>)
    ensures Picks(Bounded(events, cap), events, at)
    decreases |events|
  {
    if events == [] {
      at := [];
    } else {
      var front, last := events[..|events| - 1], events[|events| - 1];
      at := IsSubsequence(front, cap);
      PicksFromFront(Bounded(front, cap), front, last, at);
      if |OfGroup(front, last.group)| < cap {
        at := at + [|front|];
      }
    }
  }

  lemma PicksFromFront(a: seq<Event>, front: seq<Event>, last: Event, at: seq<nat>)
    requires Picks(a, front, at)
    ensures Picks(a, front + [last], at) && Picks(a + [last], front + [last], at + [|front|])
  {
  }

  /** Bounding twice bounds by the smaller cap; in particular bounding again changes nothing. */
  lemma {:induction false} BoundedTwice(events: seq<Event>, a: int, b: int)
    ensures Bounded(Bounded(events, a), b) == Bounded(events, if a < b then a else b)
    decreases |events|
  {
    if events != [] {
      var front, last := events[..|events| - 1], events[|events| - 1];
      BoundedTwice(front, a, b);
      GroupIsPrefix(front, a, last.group);
      var kept := Bounded(front, a);
      assert |OfGroup(kept, last.group)| == Smaller(|OfGroup(front, last.group)|, a);
      if |OfGroup(front, last.group)| < a {
        assert Bounded(events, a) == kept + [last];
        BoundedAppend(kept, last, b);
      } else {
        assert Bounded(events, a) == kept;
      }
    }
  }

  lemma {:induction false} BoundedAppend(events: seq<Event>, e: Event, cap: int)
    ensures Bounded(events + [e], cap) == Bounded(events, cap) + (if |OfGroup(events, e.group)| < cap then [e] else [])
  {
    assert (events + [e])[..|events|] == events;
  }

  /** Nothing is left out exactly when no group exceeds the cap. */
  lemma {:induction false} NothingLostIff(events: seq<Event>, cap: int)
    ensures Bounded(events, cap) == events <==> forall e :: e in events ==> |OfGroup(events, e.group)| <= cap
    decreases |events|
  {
    if events != [] {
      var front, last := events[..|events| - 1], events[|events| - 1];
      NothingLostIff(front, cap);
      NoLonger(front, cap);
      assert events == front + [last];
      assert |OfGroup(events, last.group)| == |OfGroup(front, last.group)| + 1;
      assert last in events;
      forall e | e in front ensures |OfGroup(front, e.group)| <= |OfGroup(events, e.group)| && e in events {}
      if Bounded(events, cap) == events {
        assert Bounded(front, cap) == front by {
          if |OfGroup(front, last.group)| < cap {
            assert Bounded(events, cap)[..|front|] == front;
          }
        }
      }
    }
  }

  lemma {:induction false} NoLonger(events: seq<Event>, cap: int)
    ensures |Bounded(events, cap)| <= |events|
    decreases |events|
  {
    if events != [] {
      NoLonger(events[..|events| - 1], cap);
    }
  }
}
