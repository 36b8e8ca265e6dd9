/**
 * The handful of string operations the cleaning stage applies to cells: deleting
 * characters (the patterns `[$,]` and `%`), lower-casing, substring search
 * (the amenity patterns) and locating the first match of `\d+\.?\d*`.
 */
module Text {
  import opened Wrappers

  /** `s` with every character of `drop` removed (`str.replace` of a character class by ""). */
  function RemoveChars(s: string, drop: set<char>): (r: string)
    ensures |r| <= |s|
    ensures forall ch :: ch in r <==> ch in s && ch !in drop
    ensures (forall ch :: ch in s ==> ch !in drop) ==> r == s
  {
    if |s| == 0 then ""
    else (if s[0] in drop then "" else [s[0]]) + RemoveChars(s[1..], drop)
  }

  lemma {:induction false} RemoveCharsConcat(a: string, b: string, drop: set<char>)
    ensures RemoveChars(a + b, drop) == RemoveChars(a, drop) + RemoveChars(b, drop)
  {
    if |a| > 0 {
      var head := if a[0] in drop then "" else [a[0]];
      assert (a + b)[0] == a[0];
      assert (a + b)[1..] == a[1..] + b;
      assert RemoveChars(a + b, drop) == head + RemoveChars(a[1..] + b, drop);
      RemoveCharsConcat(a[1..], b, drop);
      assert RemoveChars(a, drop) == head + RemoveChars(a[1..], drop);
      assert head + (RemoveChars(a[1..], drop) + RemoveChars(b, drop))
          == (head + RemoveChars(a[1..], drop)) + RemoveChars(b, drop);
    } else {
      assert a + b == b;
    }
  }

  function LowerChar(ch: char): char {
    if 'A' <= ch <= 'Z' then (ch as int + 32) as char else ch
  }

  /** Lower-casing, on the ASCII letters. */
  function ToLower(s: string): (r: string)
    ensures |r| == |s|
    ensures forall i :: 0 <= i < |s| && 'A' <= s[i] <= 'Z' ==> r[i] == (s[i] as int - 'A' as int + 'a' as int) as char
    ensures forall i :: 0 <= i < |s| && !('A' <= s[i] <= 'Z') ==> r[i] == s[i]
    ensures forall i :: 0 <= i < |r| ==> !('A' <= r[i] <= 'Z')
  {
    seq(|s|, i requires 0 <= i < |s| => LowerChar(s[i]))
  }

  /** Regex search for a literal pattern: `sub` occurs in `s` at some position. */
  predicate Contains(s: string, sub: string) {
    (|sub| <= |s| && s[..|sub|] == sub) || (|s| > 0 && Contains(s[1..], sub))
  }

  /** `sub` occurs at position `k` of `s`. */
  predicate OccursAt(s: string, sub: string, k: int) {
    0 <= k && k + |sub| <= |s| && s[k..k + |sub|] == sub
  }

  /** The scanning definition agrees with "there is a position where `sub` occurs". */
  lemma {:induction false} ContainsIffOccurs(s: string, sub: string)
    ensures Contains(s, sub) <==> exists k :: OccursAt(s, sub, k)
  {
    if |sub| <= |s| && s[..|sub|] == sub {
      assert s[0..|sub|] == s[..|sub|];
      assert OccursAt(s, sub, 0);
    }
    if |s| > 0 {
      ContainsIffOccurs(s[1..], sub);
      if exists k :: OccursAt(s[1..], sub, k) {
        var k :| OccursAt(s[1..], sub, k);
        assert s[1..][k..k + |sub|] == s[k + 1..k + 1 + |sub|];
        assert OccursAt(s, sub, k + 1);
      }
      if exists k :: OccursAt(s, sub, k) {
        var k :| OccursAt(s, sub, k);
        if k > 0 {
          assert s[1..][k - 1..k - 1 + |sub|] == s[k..k + |sub|];
          assert OccursAt(s[1..], sub, k - 1);
        } else {
          assert s[..|sub|] == s[k..k + |sub|];
        }
      }
    } else {
      if exists k :: OccursAt(s, sub, k) {
        var k :| OccursAt(s, sub, k);
        assert |sub| == 0 && s[..|sub|] == sub;
      }
    }
  }

  /** Regex search for an alternation of literals `p1|p2|...`: some pattern occurs in `s`. */
  predicate MatchesAny(s: string, patterns: seq<string>) {
    |patterns| > 0 && (Contains(s, patterns[0]) || MatchesAny(s, patterns[1..]))
  }

  lemma {:induction false} MatchesAnyIff(s: string, patterns: seq<string>)
    ensures MatchesAny(s, patterns) <==> exists p :: p in patterns && Contains(s, p)
  {
    if |patterns| > 0 {
      MatchesAnyIff(s, patterns[1..]);
      if Contains(s, patterns[0]) {
        assert patterns[0] in patterns;
      }
      assert forall p :: p in patterns <==> p == patterns[0] || p in patterns[1..];
    }
  }

  predicate IsDigit(ch: char) {
    '0' <= ch <= '9'
  }

  /** The length of the longest all-digit prefix of `s`. */
  function DigitRun(s: string): (n: nat)
    ensures n <= |s|
    ensures forall j :: 0 <= j < n ==> IsDigit(s[j])
    ensures n < |s| ==> !IsDigit(s[n])
  {
    if |s| > 0 && IsDigit(s[0]) then 1 + DigitRun(s[1..]) else 0
  }

  /** Text that `\d+\.?\d*` matches in full: digits, then optionally a point and more digits. */
  predicate IsNumberText(m: string) {
    var d := DigitRun(m);
    && 1 <= d
    && (d == |m| || (m[d] == '.' && DigitRun(m[d + 1..]) == |m| - d - 1))
  }

  /** Whether a match `m` would grow by the character `ch` (greedy matching takes it). */
  predicate Extends(m: string, ch: char) {
    IsDigit(ch) || (ch == '.' && '.' !in m)
  }

  /** The greedy match of `\d+\.?\d*` at the start of `s`. */
  function NumberPrefix(s: string): (m: string)
    requires |s| > 0 && IsDigit(s[0])
    ensures IsNumberText(m)
    ensures |m| <= |s| && s[..|m|] == m
    ensures |m| == |s| || !Extends(m, s[|m|])
  {
    var d := DigitRun(s);
    if d < |s| && s[d] == '.' then
      var m := s[..d + 1 + DigitRun(s[d + 1..])];
      assert m[..d] == s[..d] && m[d + 1..] == s[d + 1..][..|m| - d - 1];
      assert DigitRun(m) == d by { DigitRunOfPrefix(s, |m|); }
      assert DigitRun(m[d + 1..]) == |m| - d - 1 by { DigitRunOfPrefix(s[d + 1..], |m| - d - 1); }
      m
    else
      assert DigitRun(s[..d]) == d by { DigitRunOfPrefix(s, d); }
      s[..d]
  }

  /** Cutting `s` at or after the end of its digit run does not change the run unless the cut is inside it. */
  lemma {:induction false} DigitRunOfPrefix(s: string, n: nat)
    requires n <= |s|
    ensures DigitRun(s[..n]) == if DigitRun(s) < n then DigitRun(s) else n
  {
    if n > 0 && IsDigit(s[0]) {
      assert s[..n][1..] == s[1..][..n - 1];
      DigitRunOfPrefix(s[1..], n - 1);
    }
  }

  /** The match `m` of `\d+\.?\d*` starts at `k` in `s`, no digit comes before it, and it is as long as greedy matching makes it. */
  predicate LeftmostLongest(s: string, k: nat, m: string) {
    && k + |m| <= |s|
    && s[k..k + |m|] == m
    && (forall j :: 0 <= j < k ==> !IsDigit(s[j]))
    && (k + |m| == |s| || !Extends(m, s[k + |m|]))
  }

  /** `re.search(r'(\d+\.?\d*)', s)`: the first number in `s`, if there is one. */
  function FirstNumber(s: string): (r: Option<string>)
    ensures r.None? <==> forall j :: 0 <= j < |s| ==> !IsDigit(s[j])
    ensures r.Some? ==> IsNumberText(r.value) && exists k :: LeftmostLongest(s, k, r.value)
  {
    if |s| == 0 then None
    else if IsDigit(s[0]) then
      var m := NumberPrefix(s);
      assert LeftmostLongest(s, 0, m);
      Some(m)
    else
      var r := FirstNumber(s[1..]);
      if r.Some? then
        var k: nat :| LeftmostLongest(s[1..], k, r.value);
        assert s[k + 1..k + 1 + |r.value|] == s[1..][k..k + |r.value|];
        assert LeftmostLongest(s, k + 1, r.value);
        r
      else
        assert forall j :: 1 <= j < |s| ==> s[j] == s[1..][j - 1];
        r
  }

  function DigitValue(ch: char): nat
    requires IsDigit(ch)
  {
    ch as int - '0' as int
  }

  /** The natural number a string of decimal digits denotes. */
  function DigitsValue(ds: string): nat
    requires forall j :: 0 <= j < |ds| ==> IsDigit(ds[j])
  {
    if |ds| == 0 then 0 else 10 * DigitsValue(ds[..|ds| - 1]) + DigitValue(ds[|ds| - 1])
  }

  function Pow10(n: nat): (p: nat)
    ensures p >= 1
  {
    if n == 0 then 1 else 10 * Pow10(n - 1)
  }

  /** The number `float(m)` gives for a match of `\d+\.?\d*` (exactly, as a real). */
  function DecimalValue(m: string): (v: real)
    requires IsNumberText(m)
    ensures v >= 0.0
  {
    var d := DigitRun(m);
    var whole := DigitsValue(m[..d]) as real;
    if d == |m| then whole
    else
      var frac := m[d + 1..];
      whole + DigitsValue(frac) as real / Pow10(|frac|) as real
  }

  /** A string of `n` digits denotes a number below 10^n. */
  lemma {:induction false} DigitsBelowPow10(ds: string)
    requires forall j :: 0 <= j < |ds| ==> IsDigit(ds[j])
    ensures DigitsValue(ds) < Pow10(|ds|)
  {
    if |ds| > 0 {
      DigitsBelowPow10(ds[..|ds| - 1]);
    }
  }

  /** The whole part of the value of a matched number is the number its digits before the point denote. */
  lemma DecimalWholePart(m: string)
    requires IsNumberText(m)
    ensures DecimalValue(m).Floor == DigitsValue(m[..DigitRun(m)])
  {
    var d := DigitRun(m);
    var w := DigitsValue(m[..d]);
    if d < |m| {
      var frac := m[d + 1..];
      DigitsBelowPow10(frac);
      var f := DigitsValue(frac) as real / Pow10(|frac|) as real;
      assert DecimalValue(m) == w as real + f;
      FractionBelowOne(DigitsValue(frac), Pow10(|frac|));
      assert (w as real + f).Floor == w;
    }
  }

  lemma FractionBelowOne(q: nat, p: nat)
    requires q < p
    ensures 0.0 <= q as real / p as real < 1.0
  {
    assert q as real < p as real;
  }
}
