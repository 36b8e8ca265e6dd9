/**
 * Median imputation of a numeric column (step 8 of the cleaning stage):
 * a missing cell first takes the median of its capacity group
 * (`groupby(keys).transform('median')`), and a cell still missing after that
 * takes the median of the whole column.  Medians skip missing cells, and a
 * group or column without any number has no median (NaN), so it fills nothing.
 */
module Imputation {
  import opened Tables
  import Stats

  /** The numbers of a column in row order, skipping missing cells (what a median sees). */
  function Numbers(vals: Column): (r: seq<real>)
    ensures forall x :: x in r <==> Num(x) in vals
  {
    if |vals| == 0 then []
    else
      var n := |vals| - 1;
      assert vals == vals[..n] + [vals[n]];
      Numbers(vals[..n]) + (if vals[n].Num? then [vals[n].x] else [])
  }

  /** The rows whose key equals `key`. */
  function KeyMask(keys: Column, key: Value): (m: seq<bool>)
    ensures |m| == |keys|
  {
    seq(|keys|, j requires 0 <= j < |keys| => keys[j] == key)
  }

  /** The numbers of one capacity group. */
  function GroupNumbers(keys: Column, vals: Column, key: Value): (r: seq<real>)
    requires |keys| == |vals|
    ensures forall x :: x in r <==> exists j :: 0 <= j < |vals| && keys[j] == key && vals[j] == Num(x)
  {
    var group := Select(vals, KeyMask(keys, key));
    assert forall x :: Num(x) in group <==> exists j :: 0 <= j < |vals| && keys[j] == key && vals[j] == Num(x) by {
      forall x ensures Num(x) in group <==> exists j :: 0 <= j < |vals| && keys[j] == key && vals[j] == Num(x) {
        if exists j :: 0 <= j < |vals| && keys[j] == key && vals[j] == Num(x) {
          var j :| 0 <= j < |vals| && keys[j] == key && vals[j] == Num(x);
          assert KeyMask(keys, key)[j];
        }
      }
    }
    Numbers(group)
  }

  /** Attempt 1: a missing cell with a known key takes its group's median, when the group has one. */
  function GroupFill(keys: Column, vals: Column): (r: Column)
    requires |keys| == |vals|
    ensures |r| == |vals|
    ensures forall i :: 0 <= i < |vals| && !vals[i].Null? ==> r[i] == vals[i]
  {
    seq(|vals|, i requires 0 <= i < |vals| =>
      var g := GroupNumbers(keys, vals, keys[i]);
      if vals[i].Null? && !keys[i].Null? && |g| > 0 then Num(Stats.Median(g)) else vals[i])
  }

  /** Attempt 2: a missing cell takes the column's median, when the column has one. */
  function GlobalFill(vals: Column): (r: Column)
    ensures |r| == |vals|
    ensures forall i :: 0 <= i < |vals| && !vals[i].Null? ==> r[i] == vals[i]
  {
    var all := Numbers(vals);
    seq(|vals|, i requires 0 <= i < |vals| => if vals[i].Null? && |all| > 0 then Num(Stats.Median(all)) else vals[i])
  }

  /** Both attempts, in order. */
  function Impute(keys: Column, vals: Column): (r: Column)
    requires |keys| == |vals|
    ensures |r| == |vals|
    ensures forall i :: 0 <= i < |vals| && !vals[i].Null? ==> r[i] == vals[i]
  {
    GlobalFill(GroupFill(keys, vals))
  }

  /** What each cell of an imputed column holds: its own value, its group's median, or the column's median. */
  lemma ImputeCells(keys: Column, vals: Column, i: int)
    requires |keys| == |vals| && 0 <= i < |vals|
    ensures !vals[i].Null? ==> Impute(keys, vals)[i] == vals[i]
    ensures vals[i].Null? && !keys[i].Null? && |GroupNumbers(keys, vals, keys[i])| > 0 ==>
      Impute(keys, vals)[i] == Num(Stats.Median(GroupNumbers(keys, vals, keys[i])))
    ensures vals[i].Null? && (keys[i].Null? || |GroupNumbers(keys, vals, keys[i])| == 0) ==>
      Impute(keys, vals)[i] == if |Numbers(GroupFill(keys, vals))| > 0 then Num(Stats.Median(Numbers(GroupFill(keys, vals)))) else Null
  {
  }

  /** `m` lies between two numbers of the column. */
  ghost predicate WithinRange(m: real, vals: Column) {
    (exists a :: Num(a) in vals && a <= m) && (exists b :: Num(b) in vals && m <= b)
  }

  /** A column with at least one number has no missing cell left after imputation. */
  lemma ImputeComplete(keys: Column, vals: Column)
    requires |keys| == |vals| && |Numbers(vals)| > 0
    ensures AllHold(Impute(keys, vals), NotNull)
  {
    var x := Numbers(vals)[0];
    assert x in Numbers(vals);
    var j :| 0 <= j < |vals| && vals[j] == Num(x);
    var gf := GroupFill(keys, vals);
    assert gf[j] == Num(x);
    assert Num(x) in gf;
    assert x in Numbers(gf);
    var r := GlobalFill(gf);
    assert r == Impute(keys, vals);
    forall i | 0 <= i < |r| ensures !r[i].Null? {
      if gf[i].Null? {
        assert r[i] == Num(Stats.Median(Numbers(gf)));
      } else {
        assert r[i] == gf[i];
      }
    }
  }

  /** The median of numbers that lie within a column's range lies within it too. */
  lemma MedianWithinRange(g: seq<real>, vals: Column)
    requires |g| > 0 && forall x :: x in g ==> WithinRange(x, vals)
    ensures WithinRange(Stats.Median(g), vals)
  {
    var m := Stats.Median(g);
    var lo :| 0 <= lo < |g| && g[lo] <= m;
    var hi :| 0 <= hi < |g| && m <= g[hi];
    assert g[lo] in g && WithinRange(g[lo], vals);
    assert g[hi] in g && WithinRange(g[hi], vals);
  }

  lemma GroupFillWithinRange(keys: Column, vals: Column, k: int)
    requires |keys| == |vals| && 0 <= k < |vals| && GroupFill(keys, vals)[k].Num?
    ensures WithinRange(GroupFill(keys, vals)[k].x, vals)
  {
    if vals[k].Null? {
      var g := GroupNumbers(keys, vals, keys[k]);
      forall x | x in g ensures WithinRange(x, vals) {
        var j :| 0 <= j < |vals| && keys[j] == keys[k] && vals[j] == Num(x);
        assert Num(x) in vals;
      }
      MedianWithinRange(g, vals);
    } else {
      assert Num(vals[k].x) in vals;
    }
  }

  /** Every number after imputation, observed or filled in, lies within the range of the column's own numbers. */
  lemma ImputeWithinRange(keys: Column, vals: Column, i: int)
    requires |keys| == |vals| && 0 <= i < |vals| && Impute(keys, vals)[i].Num?
    ensures WithinRange(Impute(keys, vals)[i].x, vals)
  {
    var gf := GroupFill(keys, vals);
    var r := GlobalFill(gf);
    assert r == Impute(keys, vals);
    if gf[i].Null? {
      var all := Numbers(gf);
      forall y | y in all ensures WithinRange(y, vals) {
        assert Num(y) in gf;
        var k :| 0 <= k < |gf| && gf[k] == Num(y);
        GroupFillWithinRange(keys, vals, k);
      }
      MedianWithinRange(all, vals);
    } else {
      GroupFillWithinRange(keys, vals, i);
    }
  }

  /** A group's numbers are numbers of the column. */
  lemma GroupNumbersAreNumbers(keys: Column, vals: Column, key: Value, x: real)
    requires |keys| == |vals| && x in GroupNumbers(keys, vals, key)
    ensures x in Numbers(vals)
  {
    var j :| 0 <= j < |vals| && keys[j] == key && vals[j] == Num(x);
    assert Num(x) in vals;
  }

  /** A column without any number has nothing to take a median of, and stays as it is. */
  lemma ImputeNoNumbers(keys: Column, vals: Column)
    requires |keys| == |vals| && |Numbers(vals)| == 0
    ensures Impute(keys, vals) == vals
  {
    var gf := GroupFill(keys, vals);
    forall i | 0 <= i < |vals| ensures gf[i] == vals[i] {
      var g := GroupNumbers(keys, vals, keys[i]);
      if |g| > 0 {
        GroupNumbersAreNumbers(keys, vals, keys[i], g[0]);
      }
    }
    assert gf == vals;
  }
}
