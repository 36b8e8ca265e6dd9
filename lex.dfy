/**
 * Python's ordering of strings (code points compared one by one, a proper
 * prefix first), and the sorted list of distinct categories that the one-hot
 * encoder builds from a column.
 */
module Lex {

  predicate Less(a: string, b: string) {
    if |a| == 0 then |b| > 0
    else if |b| == 0 then false
    else if a[0] != b[0] then a[0] < b[0]
    else Less(a[1..], b[1..])
  }

  lemma {:induction false} Irreflexive(a: string)
    ensures !Less(a, a)
  {
    if |a| > 0 {
      Irreflexive(a[1..]);
    }
  }

  lemma {:induction false} Transitive(a: string, b: string, c: string)
    requires Less(a, b) && Less(b, c)
    ensures Less(a, c)
  {
    if |a| > 0 && |b| > 0 && |c| > 0 && a[0] == b[0] && b[0] == c[0] {
      Transitive(a[1..], b[1..], c[1..]);
    }
  }

  lemma {:induction false} Trichotomy(a: string, b: string)
    ensures a == b || Less(a, b) || Less(b, a)
    ensures !(Less(a, b) && Less(b, a))
  {
    if |a| > 0 && |b| > 0 && a[0] == b[0] {
      Trichotomy(a[1..], b[1..]);
      assert a == [a[0]] + a[1..] && b == [b[0]] + b[1..];
    }
  }

  predicate StrictlySorted(s: seq<string>) {
    forall i, j :: 0 <= i < j < |s| ==> Less(s[i], s[j])
  }

  lemma LessThanAll(x: string, s: seq<string>)
    requires StrictlySorted(s) && |s| > 0 && Less(x, s[0])
    ensures forall j :: 0 <= j < |s| ==> Less(x, s[j])
  {
    forall j | 0 < j < |s| ensures Less(x, s[j]) {
      Transitive(x, s[0], s[j]);
    }
  }

  /** `s` with `x` added at its place, unless it is already there. */
  function InsertUnique(x: string, s: seq<string>): (r: seq<string>)
    ensures forall y :: y in r <==> y == x || y in s
  {
    if |s| == 0 then [x]
    else if x == s[0] then s
    else if Less(x, s[0]) then [x] + s
    else
      var rest := InsertUnique(x, s[1..]);
      assert s == [s[0]] + s[1..];
      [s[0]] + rest
  }

  lemma {:induction false} InsertUniqueSorted(x: string, s: seq<string>)
    requires StrictlySorted(s)
    ensures StrictlySorted(InsertUnique(x, s))
  {
    if |s| > 0 && x != s[0] {
      if Less(x, s[0]) {
        LessThanAll(x, s);
      } else {
        Trichotomy(x, s[0]);
        InsertUniqueSorted(x, s[1..]);
        var rest := InsertUnique(x, s[1..]);
        assert forall y :: y in rest ==> Less(s[0], y);
        assert InsertUnique(x, s) == [s[0]] + rest;
      }
    }
  }

  /** The distinct strings of `s`, in ascending order (`sorted(set(s))`). */
  function SortedDistinct(s: seq<string>): (r: seq<string>)
    ensures forall y :: y in r <==> y in s
  {
    if |s| == 0 then [] else InsertUnique(s[|s| - 1], SortedDistinct(s[..|s| - 1]))
  }

  lemma {:induction false} SortedDistinctSorted(s: seq<string>)
    ensures StrictlySorted(SortedDistinct(s))
  {
    if |s| > 0 {
      SortedDistinctSorted(s[..|s| - 1]);
      InsertUniqueSorted(s[|s| - 1], SortedDistinct(s[..|s| - 1]));
    }
  }

  /** A strictly sorted list has no repeats, so it has as many entries as there are distinct values in it. */
  lemma {:induction false} StrictlySortedCard(s: seq<string>)
    requires StrictlySorted(s)
    ensures |set y | y in s| == |s|
  {
    if |s| > 0 {
      StrictlySortedCard(s[1..]);
      Irreflexive(s[0]);
      assert s[0] !in s[1..];
      assert (set y | y in s) == (set y | y in s[1..]) + {s[0]};
    }
  }
}
