/** Python's order on strings (code point by code point) and strictly sorted key lists. */
module Ordering {
  /** ASCII letters only. */
  function LowerChar(c: char): char {
    if 'A' <= c <= 'Z' then (c as int + 32) as char else c
  }

  predicate Less(a: string, b: string) {
    if b == "" then false
    else if a == "" then true
    else a[0] < b[0] || (a[0] == b[0] && Less(a[1..], b[1..]))
  }

  lemma {:induction false} LessIrreflexive(a: string)
    ensures !Less(a, a)
  {
    if a != "" {
      LessIrreflexive(a[1..]);
    }
  }

  lemma {:induction false} LessTransitive(a: string, b: string, c: string)
    requires Less(a, b) && Less(b, c)
    ensures Less(a, c)
  {
    if a != "" && a[0] == b[0] && b[0] == c[0] {
      LessTransitive(a[1..], b[1..], c[1..]);
    }
  }

  lemma {:induction false} LessTotal(a: string, b: string)
    ensures Less(a, b) || a == b || Less(b, a)
  {
    if a != "" && b != "" && a[0] == b[0] {
      LessTotal(a[1..], b[1..]);
      if a[1..] == b[1..] {
        assert a == [a[0]] + a[1..] == b;
      }
    }
  }

  ghost predicate StrictlySorted(keys: seq<string>) {
    forall i, j | 0 <= i < j < |keys| :: Less(keys[i], keys[j])
  }

  /** `sorted` restricted to one more key: the key goes before the first larger one. */
  function Insert(key: string, keys: seq<string>): (r: seq<string>)
    requires StrictlySorted(keys) && key !in keys
    ensures |r| == |keys| + 1
    ensures forall k :: k in r <==> k == key || k in keys
    ensures StrictlySorted(r)
  {
    if keys == [] then [key]
    else if Less(key, keys[0]) then
      assert StrictlySorted([key] + keys) by {
        forall j | 0 <= j < |keys| ensures Less(key, keys[j]) {
          if j > 0 { LessTransitive(key, keys[0], keys[j]); }
        }
      }
      [key] + keys
    else
      var rest := Insert(key, keys[1..]);
      assert keys == [keys[0]] + keys[1..];
      assert StrictlySorted([keys[0]] + rest) by {
        forall j | 0 <= j < |rest| ensures Less(keys[0], rest[j]) {
          assert rest[j] in rest;
          if rest[j] == key { LessTotal(key, keys[0]); }
        }
      }
      [keys[0]] + rest
  }

  /** Two strictly sorted lists with the same members are the same list. */
  lemma {:induction false} SortedUnique(a: seq<string>, b: seq<string>)
    requires StrictlySorted(a) && StrictlySorted(b)
    requires forall k :: k in a <==> k in b
    ensures a == b
  {
    HasMember(a);
    HasMember(b);
    if a != [] {
      HeadIsLeast(a, b[0]);
      HeadIsLeast(b, a[0]);
      assert a[0] == b[0] by {
        if a[0] != b[0] {
          LessTransitive(a[0], b[0], a[0]);
          LessIrreflexive(a[0]);
        }
      }
      forall k ensures k in a[1..] <==> k in b[1..] {
        NotInTail(a);
        NotInTail(b);
        assert a == [a[0]] + a[1..] && b == [b[0]] + b[1..];
        assert k in a <==> k in b;
      }
      SortedUnique(a[1..], b[1..]);
      assert a == [a[0]] + a[1..] && b == [b[0]] + b[1..];
    }
  }

  lemma HasMember(a: seq<string>)
    ensures a != [] <==> exists k :: k in a
  {
    if a != [] {
      assert a[0] in a;
    }
  }

  lemma HeadIsLeast(a: seq<string>, k: string)
    requires StrictlySorted(a) && a != [] && k in a
    ensures k == a[0] || Less(a[0], k)
  {
    var i :| 0 <= i < |a| && a[i] == k;
  }

  lemma NotInTail(a: seq<string>)
    requires StrictlySorted(a) && a != []
    ensures a[0] !in a[1..]
  {
    if a[0] in a[1..] {
      var i :| 0 <= i < |a[1..]| && a[1..][i] == a[0];
      LessIrreflexive(a[0]);
    }
  }
}
