/**
 * The modelling stage, `prepare_for_modeling`: the cleaned table loses two
 * high-cardinality text columns, the response time becomes an ordinal code,
 * and the district and room type become one-hot indicator columns with the
 * first category dropped (`pd.get_dummies(..., drop_first=True)`).
 */
module Modeling {
  import opened Wrappers
  import opened Tables
  import Lex

  const HighCardinality: seq<string> := ["property_type", "neighbourhood_cleansed"]

  const DummyColumns: seq<string> := ["neighbourhood_group_cleansed", "room_type"]

  /** The ordinal scale of response times, slowest first; a level's code is its position. */
  const ResponseLevels: seq<string> := ["Unknown", "a few days or more", "within a day", "within a few hours", "within an hour"]

  // ---------------------------------------------------------------------
  // Step 2: ordinal encoding of the response time
  // ---------------------------------------------------------------------

  /** `.map(response_map).fillna(0).astype(int)` on one cell: a value outside the map becomes 0. */
  function ResponseCode(v: Value): Value {
    match v
    case Str(s) =>
      if s == "Unknown" then Num(0.0)
      else if s == "a few days or more" then Num(1.0)
      else if s == "within a day" then Num(2.0)
      else if s == "within a few hours" then Num(3.0)
      else if s == "within an hour" then Num(4.0)
      else Num(0.0)
    case _ => Num(0.0)
  }

  /** Every code is a whole number from 0 to 4, and a code above 0 is given exactly to its own level. */
  lemma ResponseCodeScale(v: Value)
    ensures ResponseCode(v).Num? && 0.0 <= ResponseCode(v).x <= 4.0
    ensures ResponseCode(v).x == ResponseCode(v).x.Floor as real
    ensures forall k :: 1 <= k < |ResponseLevels| ==> (ResponseCode(v) == Num(k as real) <==> v == Str(ResponseLevels[k]))
    ensures ResponseCode(v) == Num(0.0) <==> !(exists k :: 1 <= k < |ResponseLevels| && v == Str(ResponseLevels[k]))
  {
    assert ResponseLevels[1] == "a few days or more" && ResponseLevels[2] == "within a day";
    assert ResponseLevels[3] == "within a few hours" && ResponseLevels[4] == "within an hour";
    assert 0.0 == (0.0).Floor as real && 1.0 == (1.0).Floor as real && 2.0 == (2.0).Floor as real;
    assert 3.0 == (3.0).Floor as real && 4.0 == (4.0).Floor as real;
  }

  /** `df[key] = df[key].map(f)` when the column is there; the table is untouched otherwise. */
  method RecodeColumn(t: Table, key: string, f: Value -> Value) returns (r: Table)
    requires WellFormed(t)
    ensures WellFormed(r) && r.columns == t.columns && r.height == t.height
    ensures key in t.data ==> r.data == t.data[key := MapValues(t.data[key], f)]
    ensures key !in t.data ==> r == t
  {
    r := t;
    if key in t.data {
      r := SetColumn(t, key, MapValues(t.data[key], f));
    }
  }

  /** After recoding, every cell of the response-time column is a whole-number code from 0 to 4. */
  lemma RecodedCells(s: Column)
    ensures forall j :: 0 <= j < |s| ==>
      && MapValues(s, ResponseCode)[j].Num?
      && 0.0 <= MapValues(s, ResponseCode)[j].x <= 4.0
      && MapValues(s, ResponseCode)[j].x == MapValues(s, ResponseCode)[j].x.Floor as real
  {
    forall j | 0 <= j < |s| ensures MapValues(s, ResponseCode)[j] == ResponseCode(s[j]) {
    }
    forall j | 0 <= j < |s| {
      ResponseCodeScale(s[j]);
    }
  }

  // ---------------------------------------------------------------------
  // Step 3: one-hot encoding
  // ---------------------------------------------------------------------

  /** The text cells of a column, in row order (the values `get_dummies` takes categories from; NaN makes none). */
  function Texts(s: Column): (r: seq<string>)
    ensures forall x :: x in r <==> Str(x) in s
  {
    if |s| == 0 then []
    else
      var n := |s| - 1;
      assert s == s[..n] + [s[n]];
      Texts(s[..n]) + (if s[n].Str? then [s[n].s] else [])
  }

  /** The categories of a column: its distinct texts in ascending order. */
  function Categories(s: Column): (r: seq<string>)
    ensures forall x :: x in r <==> Str(x) in s
  {
    Lex.SortedDistinct(Texts(s))
  }

  lemma CategoriesSorted(s: Column)
    ensures Lex.StrictlySorted(Categories(s))
  {
    Lex.SortedDistinctSorted(Texts(s));
  }

  /** The categories that get an indicator column: all but the first. */
  function Kept(s: Column): seq<string> {
    var cats := Categories(s);
    if |cats| == 0 then [] else cats[1..]
  }

  /** The indicator column name pandas builds: the column, `_`, the category. */
  function DummyName(c: string, v: string): string {
    c + "_" + v
  }

  lemma DummyNameInjective(c: string, a: string, b: string)
    ensures DummyName(c, a) == DummyName(c, b) <==> a == b
  {
    if DummyName(c, a) == DummyName(c, b) {
      assert a == DummyName(c, a)[|c| + 1..];
      assert b == DummyName(c, b)[|c| + 1..];
    }
  }

  function DummyNames(c: string, kept: seq<string>): (r: seq<string>)
    ensures |r| == |kept|
  {
    seq(|kept|, i requires 0 <= i < |kept| => DummyName(c, kept[i]))
  }

  /** The indicator of one category: 1 in the rows holding it, 0 elsewhere. */
  function Indicator(s: Column, v: string): (r: Column)
    ensures |r| == |s|
  {
    seq(|s|, j requires 0 <= j < |s| => if s[j] == Str(v) then Num(1.0) else Num(0.0))
  }

  lemma KeptDistinct(s: Column)
    ensures Distinct(Kept(s))
  {
    var cats := Categories(s);
    CategoriesSorted(s);
    if |cats| > 0 {
      forall i, j | 0 <= i < j < |cats| - 1 ensures cats[1..][i] != cats[1..][j] {
        Lex.Irreflexive(cats[i + 1]);
      }
    }
  }

  lemma DummyNamesDistinct(c: string, kept: seq<string>)
    requires Distinct(kept)
    ensures Distinct(DummyNames(c, kept))
  {
    forall i, j | 0 <= i < j < |kept| ensures DummyName(c, kept[i]) != DummyName(c, kept[j]) {
      DummyNameInjective(c, kept[i], kept[j]);
    }
  }

  /** The category an indicator name stands for: what follows the column name and `_`. */
  function Suffix(c: string, x: string): string {
    if |x| > |c| then x[|c| + 1..] else ""
  }

  lemma SuffixOfDummyName(c: string, v: string)
    ensures Suffix(c, DummyName(c, v)) == v
  {
    assert DummyName(c, v)[|c| + 1..] == v;
  }

  /** The indicator columns of the categories `kept`, keyed by their names. */
  function IndicatorMap(c: string, s: Column, kept: seq<string>): (m: map<string, Column>)
    ensures forall x :: x in m <==> x in DummyNames(c, kept)
    ensures forall i :: 0 <= i < |kept| ==> m[DummyNames(c, kept)[i]] == Indicator(s, kept[i])
  {
    var names := DummyNames(c, kept);
    var m := map x | x in names :: Indicator(s, Suffix(c, x));
    assert forall i :: 0 <= i < |kept| ==> m[names[i]] == Indicator(s, kept[i]) by {
      forall i | 0 <= i < |kept| ensures m[names[i]] == Indicator(s, kept[i]) {
        SuffixOfDummyName(c, kept[i]);
      }
    }
    m
  }

  /** Without a category there is no indicator; with k categories there are k - 1. */
  lemma DummyCount(s: Column)
    ensures |Kept(s)| == if |Categories(s)| == 0 then 0 else |set v | v in s && v.Str? :: v.s| - 1
  {
    var cats := Categories(s);
    CategoriesSorted(s);
    Lex.StrictlySortedCard(cats);
    assert (set x | x in cats) == (set v | v in s && v.Str? :: v.s);
  }

  /** The first (smallest) category has no indicator; every other category has one. */
  lemma FirstCategoryDropped(s: Column, v: string)
    requires Str(v) in s
    ensures v in Kept(s) <==> v != Categories(s)[0]
  {
    var cats := Categories(s);
    CategoriesSorted(s);
    assert v in cats;
    if v in cats[1..] {
      var i :| 0 <= i < |cats[1..]| && cats[1..][i] == v;
      Lex.Irreflexive(cats[0]);
    }
  }

  /** At most one indicator of a row is set. */
  lemma AtMostOneIndicator(s: Column, j: int, a: int, b: int)
    requires 0 <= j < |s| && 0 <= a < |Kept(s)| && 0 <= b < |Kept(s)|
    requires Indicator(s, Kept(s)[a])[j] == Num(1.0) && Indicator(s, Kept(s)[b])[j] == Num(1.0)
    ensures a == b
  {
    KeptDistinct(s);
  }

  /** A row has no indicator set exactly when it holds the dropped first category, or no text at all. */
  lemma AllZeroIffDropped(s: Column, j: int)
    requires 0 <= j < |s|
    ensures (forall i :: 0 <= i < |Kept(s)| ==> Indicator(s, Kept(s)[i])[j] == Num(0.0)) <==>
      (!s[j].Str? || s[j].s == Categories(s)[0])
  {
    var kept := Kept(s);
    if s[j].Str? {
      assert Str(s[j].s) in s;
      FirstCategoryDropped(s, s[j].s);
      if s[j].s != Categories(s)[0] {
        var i :| 0 <= i < |kept| && kept[i] == s[j].s;
        assert Indicator(s, kept[i])[j] == Num(1.0);
      }
    }
  }

  /** The indicator names of all encoded columns, column by column. */
  function AllNames(cols: seq<string>, kept: seq<seq<string>>): (r: seq<string>)
    requires |kept| == |cols|
    ensures forall k, i :: 0 <= k < |cols| && 0 <= i < |kept[k]| ==> DummyName(cols[k], kept[k][i]) in r
    ensures forall x :: x in r ==> exists k, i :: 0 <= k < |cols| && 0 <= i < |kept[k]| && x == DummyName(cols[k], kept[k][i])
  {
    if |cols| == 0 then []
    else
      var rest := AllNames(cols[1..], kept[1..]);
      assert forall i :: 0 <= i < |kept[0]| ==> DummyName(cols[0], kept[0][i]) == DummyNames(cols[0], kept[0])[i];
      assert forall x :: x in DummyNames(cols[0], kept[0]) ==> exists i :: 0 <= i < |kept[0]| && x == DummyName(cols[0], kept[0][i]);
      assert forall x :: x in rest ==> exists k, i :: 0 <= k < |cols| && 0 <= i < |kept[k]| && x == DummyName(cols[k], kept[k][i]) by {
        forall x | x in rest ensures exists k, i :: 0 <= k < |cols| && 0 <= i < |kept[k]| && x == DummyName(cols[k], kept[k][i]) {
          var k, i :| 0 <= k < |cols| - 1 && 0 <= i < |kept[1..][k]| && x == DummyName(cols[1..][k], kept[1..][k][i]);
          assert x == DummyName(cols[k + 1], kept[k + 1][i]);
        }
      }
      assert forall k, i :: 1 <= k < |cols| && 0 <= i < |kept[k]| ==> DummyName(cols[k], kept[k][i]) in rest by {
        forall k, i | 1 <= k < |cols| && 0 <= i < |kept[k]| ensures DummyName(cols[k], kept[k][i]) in rest {
          assert cols[1..][k - 1] == cols[k] && kept[1..][k - 1] == kept[k];
        }
      }
      DummyNames(cols[0], kept[0]) + rest
  }

  lemma DistinctSplit(a: seq<string>, b: seq<string>)
    requires Distinct(a + b)
    ensures Distinct(a) && Distinct(b) && forall x :: x in a ==> x !in b
  {
    forall i, j | 0 <= i < j < |a| ensures a[i] != a[j] {
      assert (a + b)[i] == a[i] && (a + b)[j] == a[j];
    }
    forall i, j | 0 <= i < j < |b| ensures b[i] != b[j] {
      assert (a + b)[|a| + i] == b[i] && (a + b)[|a| + j] == b[j];
    }
    forall i, j | 0 <= i < |a| && 0 <= j < |b| ensures a[i] != b[j] {
      assert (a + b)[i] == a[i] && (a + b)[|a| + j] == b[j];
    }
  }

  /** The indicator columns of all encoded columns, keyed by their names. */
  function AllIndicators(cells: seq<Column>, cols: seq<string>, kept: seq<seq<string>>): (m: map<string, Column>)
    requires |cells| == |cols| == |kept|
    ensures forall x :: x in m <==> x in AllNames(cols, kept)
    ensures forall x :: x in m ==> exists k :: 0 <= k < |cells| && |m[x]| == |cells[k]|
  {
    if |cols| == 0 then map[]
    else
      var m := IndicatorMap(cols[0], cells[0], kept[0]) + AllIndicators(cells[1..], cols[1..], kept[1..]);
      assert forall x :: x in m ==> exists k :: 0 <= k < |cells| && |m[x]| == |cells[k]| by {
        forall x | x in m ensures exists k :: 0 <= k < |cells| && |m[x]| == |cells[k]| {
          if x !in IndicatorMap(cols[0], cells[0], kept[0]) || x in AllIndicators(cells[1..], cols[1..], kept[1..]) {
            var k :| 0 <= k < |cells| - 1 && |m[x]| == |cells[1..][k]|;
            assert cells[1..][k] == cells[k + 1];
          } else {
            var i :| 0 <= i < |kept[0]| && DummyNames(cols[0], kept[0])[i] == x;
            assert |m[x]| == |cells[0]|;
          }
        }
      }
      m
  }

  /** With all names different, every name holds the indicator of its own column and category. */
  lemma {:induction false} AllIndicatorsValues(cells: seq<Column>, cols: seq<string>, kept: seq<seq<string>>)
    requires |cells| == |cols| == |kept| && Distinct(AllNames(cols, kept))
    ensures forall k, i :: 0 <= k < |cols| && 0 <= i < |kept[k]| ==>
      AllIndicators(cells, cols, kept)[DummyName(cols[k], kept[k][i])] == Indicator(cells[k], kept[k][i])
  {
    if |cols| > 0 {
      var first := IndicatorMap(cols[0], cells[0], kept[0]);
      var m := AllIndicators(cells, cols, kept);
      assert AllNames(cols, kept) == DummyNames(cols[0], kept[0]) + AllNames(cols[1..], kept[1..]);
      DistinctSplit(DummyNames(cols[0], kept[0]), AllNames(cols[1..], kept[1..]));
      AllIndicatorsValues(cells[1..], cols[1..], kept[1..]);
      forall k, i | 0 <= k < |cols| && 0 <= i < |kept[k]|
        ensures m[DummyName(cols[k], kept[k][i])] == Indicator(cells[k], kept[k][i])
      {
        if k == 0 {
          assert DummyName(cols[0], kept[0][i]) == DummyNames(cols[0], kept[0])[i];
        } else {
          assert cols[1..][k - 1] == cols[k] && kept[1..][k - 1] == kept[k] && cells[1..][k - 1] == cells[k];
        }
      }
    }
  }

  /** The generated names are all different and none is a column `get_dummies` keeps. */
  ghost predicate FreshNames(t: Table, cols: seq<string>, kept: seq<seq<string>>)
    requires |kept| == |cols|
  {
    Distinct(AllNames(cols, kept)) && forall x :: x in AllNames(cols, kept) ==> x !in t.data || x in cols
  }

  /**
   * `get_dummies` given each encoded column's kept categories: the encoded
   * columns are dropped and the indicators appended after the others, column
   * by column and in category order.
   */
  function OneHot(t: Table, cols: seq<string>, kept: seq<seq<string>>): (r: Table)
    requires WellFormed(t) && |kept| == |cols| && forall c :: c in cols ==> c in t.data
    requires FreshNames(t, cols, kept)
    ensures WellFormed(r) && r.height == t.height
    ensures r.columns == Without(t.columns, ColumnSet(cols)) + AllNames(cols, kept)
    ensures forall x :: x in r.data <==> (x in t.data && x !in cols) || x in AllNames(cols, kept)
    ensures forall x :: x in t.data && x !in cols ==> r.data[x] == t.data[x]
    ensures forall k, i :: 0 <= k < |cols| && 0 <= i < |kept[k]| ==>
      r.data[DummyName(cols[k], kept[k][i])] == Indicator(t.data[cols[k]], kept[k][i])
  {
    var cells := seq(|cols|, k requires 0 <= k < |cols| => t.data[cols[k]]);
    var names := AllNames(cols, kept);
    var added := AllIndicators(cells, cols, kept);
    var base := DropColumns(t, ColumnSet(cols));
    AllIndicatorsValues(cells, cols, kept);
    assert forall x :: x in added ==> |added[x]| == t.height;
    assert forall x :: x in names ==> x !in base.data;
    AppendColumns(base, names, added)
  }

  /** Each encoded column's kept categories. */
  function KeptOf(t: Table, cols: seq<string>): (kept: seq<seq<string>>)
    requires forall c :: c in cols ==> c in t.data
    ensures |kept| == |cols|
  {
    seq(|cols|, k requires 0 <= k < |cols| => Kept(t.data[cols[k]]))
  }

  /**
   * `pd.get_dummies(df, columns=cols, drop_first=True)`. A frame whose
   * generated names repeat or are already columns is reported instead of
   * being built with two columns of one name.
   */
  function GetDummies(t: Table, cols: seq<string>): (r: Result<Table>)
    requires WellFormed(t) && forall c :: c in cols ==> c in t.data
    ensures r.Err? <==> !FreshNames(t, cols, KeptOf(t, cols))
    ensures r.Ok? ==> r.value == OneHot(t, cols, KeptOf(t, cols))
  {
    var kept := KeptOf(t, cols);
    if Distinct(AllNames(cols, kept)) && forall x :: x in AllNames(cols, kept) ==> x !in t.data || x in cols then
      Ok(OneHot(t, cols, kept))
    else
      Err("get_dummies: duplicate column name")
  }

  /**
   * In the table `get_dummies` builds, row `j` has the indicator of a kept
   * category `v` of the encoded column `cols[k]` set exactly when that
   * column's cell holds `v`, and cleared otherwise.
   */
  lemma IndicatorSet(t: Table, cols: seq<string>, k: int, v: string, j: int)
    requires WellFormed(t) && forall c :: c in cols ==> c in t.data
    requires GetDummies(t, cols).Ok?
    requires 0 <= k < |cols| && v in Kept(t.data[cols[k]]) && 0 <= j < t.height
    ensures DummyName(cols[k], v) in GetDummies(t, cols).value.data
    ensures GetDummies(t, cols).value.data[DummyName(cols[k], v)][j] == Num(1.0) <==> t.data[cols[k]][j] == Str(v)
    ensures GetDummies(t, cols).value.data[DummyName(cols[k], v)][j] == Num(0.0) <==> t.data[cols[k]][j] != Str(v)
  {
    var kept := KeptOf(t, cols);
    var r := GetDummies(t, cols).value;
    assert FreshNames(t, cols, kept) && r == OneHot(t, cols, kept);
    assert kept[k] == Kept(t.data[cols[k]]);
    var i :| 0 <= i < |kept[k]| && kept[k][i] == v;
    OneHotCell(t, cols, kept, k, i, j);
    assert r.data[DummyName(cols[k], v)][j] == Indicator(t.data[cols[k]], v)[j];
  }

  lemma OneHotCell(t: Table, cols: seq<string>, kept: seq<seq<string>>, k: int, i: int, j: int)
    requires WellFormed(t) && |kept| == |cols| && forall c :: c in cols ==> c in t.data
    requires FreshNames(t, cols, kept)
    requires 0 <= k < |cols| && 0 <= i < |kept[k]| && 0 <= j < t.height
    ensures DummyName(cols[k], kept[k][i]) in OneHot(t, cols, kept).data
    ensures OneHot(t, cols, kept).data[DummyName(cols[k], kept[k][i])][j] == Indicator(t.data[cols[k]], kept[k][i])[j]
  {
  }

  // ---------------------------------------------------------------------
  // The whole stage
  // ---------------------------------------------------------------------

  /** An indicator column of one of the columns `encoded`, as generated from `t`. */
  ghost predicate IndicatorIn(t: Table, encoded: seq<string>, x: string) {
    exists c, i :: c in encoded && c in t.data && 0 <= i < |Kept(t.data[c])| && x == DummyName(c, Kept(t.data[c])[i])
  }

  /** An indicator column of the district or the room type, as generated from `t`. */
  ghost predicate IndicatorOf(t: Table, x: string) {
    IndicatorIn(t, DummyColumns, x)
  }

  /** The columns left after dropping `dropped` and encoding `encoded`: the others, and the indicators. */
  ghost predicate ModelledBy(t: Table, dropped: seq<string>, encoded: seq<string>, x: string) {
    || (x in t.data && x !in dropped && x !in encoded)
    || IndicatorIn(t, encoded, x)
  }

  /** The columns the stage leaves. */
  ghost predicate Modelled(t: Table, x: string) {
    ModelledBy(t, HighCardinality, DummyColumns, x)
  }

  /** Neither the two high-cardinality texts nor the two encoded columns survive the stage. */
  lemma StageRemoves(t: Table, x: string)
    requires x in HighCardinality || x in DummyColumns
    ensures !Modelled(t, x)
  {
    if IndicatorOf(t, x) {
      var c, i :| c in DummyColumns && c in t.data && 0 <= i < |Kept(t.data[c])| && x == DummyName(c, Kept(t.data[c])[i]);
      IndicatorNamesApart(c, Kept(t.data[c])[i]);
    }
  }

  lemma DummyNamePrefix(c: string, v: string)
    ensures |DummyName(c, v)| > |c| && DummyName(c, v)[0] == (if |c| > 0 then c[0] else '_')
  {
  }

  /** A generated name is neither one of the stage's own columns nor a name of the other encoded column. */
  lemma IndicatorNamesApart(c: string, v: string)
    requires c in DummyColumns
    ensures DummyName(c, v) !in HighCardinality && DummyName(c, v) !in DummyColumns
    ensures DummyName(c, v) != "host_response_time"
    ensures forall c2, w :: c2 in DummyColumns && c2 != c ==> DummyName(c, v) != DummyName(c2, w)
  {
    DummyNamePrefix(c, v);
    forall c2, w | c2 in DummyColumns && c2 != c ensures DummyName(c, v) != DummyName(c2, w) {
      DummyNamePrefix(c2, w);
    }
  }

  /** `c_v` is an indicator generated from `t` exactly when `c` is one of its columns and `v` a kept category of it. */
  lemma IndicatorOfName(t: Table, c: string, v: string)
    requires c in DummyColumns
    ensures IndicatorOf(t, DummyName(c, v)) <==> c in t.data && v in Kept(t.data[c])
  {
    if IndicatorOf(t, DummyName(c, v)) {
      var c2, i :| c2 in DummyColumns && c2 in t.data && 0 <= i < |Kept(t.data[c2])| && DummyName(c, v) == DummyName(c2, Kept(t.data[c2])[i]);
      IndicatorNamesApart(c, v);
      DummyNameInjective(c, v, Kept(t.data[c])[i]);
    }
    if c in t.data && v in Kept(t.data[c]) {
      var i :| 0 <= i < |Kept(t.data[c])| && Kept(t.data[c])[i] == v;
      assert IndicatorIn(t, DummyColumns, DummyName(c, v));
    }
  }

  /** The indicator names step 3 generates from the table after step 2 are those generated from the input. */
  lemma NamesFromInput(t: Table, m: Table, encoded: seq<string>, cols: seq<string>)
    requires forall c :: c in cols <==> c in encoded && c in t.data
    requires forall c :: c in cols ==> c in m.data && m.data[c] == t.data[c]
    ensures forall k :: 0 <= k < |cols| ==> KeptOf(m, cols)[k] == Kept(t.data[cols[k]])
    ensures forall x :: x in AllNames(cols, KeptOf(m, cols)) <==> IndicatorIn(t, encoded, x)
  {
    var kept := KeptOf(m, cols);
    forall k | 0 <= k < |cols| ensures kept[k] == Kept(t.data[cols[k]]) {
      var c := cols[k];
      assert c in cols && m.data[c] == t.data[c];
      assert kept[k] == Kept(m.data[c]);
    }
    forall x ensures x in AllNames(cols, kept) <==> IndicatorIn(t, encoded, x) {
      if x in AllNames(cols, kept) {
        var k, i :| 0 <= k < |cols| && 0 <= i < |kept[k]| && x == DummyName(cols[k], kept[k][i]);
        assert cols[k] in cols;
      }
      if IndicatorIn(t, encoded, x) {
        var c, i :| c in encoded && c in t.data && 0 <= i < |Kept(t.data[c])| && x == DummyName(c, Kept(t.data[c])[i]);
        var k :| 0 <= k < |cols| && cols[k] == c;
        assert kept[k] == Kept(t.data[c]);
      }
    }
  }

  /** Different columns never generate the same name. */
  ghost predicate NamesApart(cols: seq<string>) {
    forall c1, c2, v, w :: c1 in cols && c2 in cols && c1 != c2 ==> DummyName(c1, v) != DummyName(c2, w)
  }

  lemma DummyColumnsApart(cols: seq<string>)
    requires forall c :: c in cols ==> c in DummyColumns
    ensures NamesApart(cols)
  {
    forall c1, c2, v, w | c1 in cols && c2 in cols && c1 != c2 ensures DummyName(c1, v) != DummyName(c2, w) {
      IndicatorNamesApart(c1, v);
    }
  }

  /** The generated names are all different. */
  lemma {:induction false} AllNamesDistinct(cols: seq<string>, kept: seq<seq<string>>)
    requires |kept| == |cols| && Distinct(cols) && NamesApart(cols)
    requires forall k :: 0 <= k < |cols| ==> Distinct(kept[k])
    ensures Distinct(AllNames(cols, kept))
    decreases |cols|
  {
    if |cols| > 0 {
      assert NamesApart(cols[1..]);
      assert forall k :: 0 <= k < |cols| - 1 ==> Distinct(kept[1..][k]) by {
        forall k | 0 <= k < |cols| - 1 ensures Distinct(kept[1..][k]) {
          assert kept[1..][k] == kept[k + 1];
        }
      }
      AllNamesDistinct(cols[1..], kept[1..]);
      DummyNamesDistinct(cols[0], kept[0]);
      var a := DummyNames(cols[0], kept[0]);
      var b := AllNames(cols[1..], kept[1..]);
      forall i, j | 0 <= i < |a| && 0 <= j < |b| ensures a[i] != b[j] {
        assert b[j] in b;
        var k, l :| 0 <= k < |cols[1..]| && 0 <= l < |kept[1..][k]| && b[j] == DummyName(cols[1..][k], kept[1..][k][l]);
        assert cols[1..][k] in cols && cols[1..][k] != cols[0];
      }
      DistinctJoin(a, b);
    }
  }

  lemma DistinctJoin(a: seq<string>, b: seq<string>)
    requires Distinct(a) && Distinct(b)
    requires forall i, j :: 0 <= i < |a| && 0 <= j < |b| ==> a[i] != b[j]
    ensures Distinct(a + b)
  {
    var ab := a + b;
    forall i, j | 0 <= i < j < |ab| ensures ab[i] != ab[j] {
      if j < |a| {
        assert ab[i] == a[i] && ab[j] == a[j];
      } else if i >= |a| {
        assert ab[i] == b[i - |a|] && ab[j] == b[j - |a|];
      } else {
        assert ab[i] == a[i] && ab[j] == b[j - |a|];
      }
    }
  }

  /**
   * Step 3 on the table `m` that steps 1 and 2 made from `t`, stated for any
   * dropped list, encoded list and recoded column `key` whose generated names
   * stay apart from all three.
   */
  lemma DummiesStep(t: Table, m: Table, dropped: seq<string>, encoded: seq<string>, key: string, f: Value -> Value,
                    cols: seq<string>, r: Result<Table>)
    requires WellFormed(t) && WellFormed(m) && m.height == t.height && Distinct(encoded)
    requires key !in dropped && forall c :: c in encoded ==> c !in dropped && c != key
    requires forall c, v :: c in encoded ==> DummyName(c, v) !in dropped && DummyName(c, v) !in encoded && DummyName(c, v) != key
    requires NamesApart(encoded)
    requires forall x :: x in m.data <==> x in t.data && x !in dropped
    requires forall x :: x in m.data && x != key ==> m.data[x] == t.data[x]
    requires key in t.data ==> m.data[key] == MapValues(t.data[key], f)
    requires cols == Present(encoded, m.columns)
    requires r == if |cols| > 0 then GetDummies(m, cols) else Ok(m)
    ensures r.Err? <==> exists x :: IndicatorIn(t, encoded, x) && x in t.data
    ensures r.Ok? ==> WellFormed(r.value) && r.value.height == t.height
    ensures r.Ok? ==> forall x :: x in r.value.data <==> ModelledBy(t, dropped, encoded, x)
    ensures r.Ok? ==> forall x :: x in t.data && x !in dropped && x !in encoded && x != key ==>
      x in r.value.data && r.value.data[x] == t.data[x]
    ensures r.Ok? && key in t.data ==> key in r.value.data && r.value.data[key] == MapValues(t.data[key], f)
    ensures r.Ok? ==> forall c, i :: c in encoded && c in t.data && 0 <= i < |Kept(t.data[c])| ==>
      DummyName(c, Kept(t.data[c])[i]) in r.value.data &&
      r.value.data[DummyName(c, Kept(t.data[c])[i])] == Indicator(t.data[c], Kept(t.data[c])[i])
  {
    assert forall c :: c in cols <==> c in encoded && c in t.data;
    assert forall c :: c in cols ==> c in m.data && m.data[c] == t.data[c];
    FreshFromInput(t, m, dropped, encoded, key, cols);
    if |cols| > 0 && r.Ok? {
      IndicatorsFromInput(t, m, encoded, cols, r.value);
    }
  }

  /** The names step 3 generates are distinct and differ from the dropped, encoded and recoded names. */
  lemma FreshFromInput(t: Table, m: Table, dropped: seq<string>, encoded: seq<string>, key: string, cols: seq<string>)
    requires Distinct(cols) && NamesApart(encoded)
    requires forall c, v :: c in encoded ==> DummyName(c, v) !in dropped && DummyName(c, v) !in encoded && DummyName(c, v) != key
    requires forall c :: c in cols <==> c in encoded && c in t.data
    requires forall c :: c in cols ==> c in m.data && m.data[c] == t.data[c]
    ensures Distinct(AllNames(cols, KeptOf(m, cols)))
    ensures forall x :: x in AllNames(cols, KeptOf(m, cols)) <==> IndicatorIn(t, encoded, x)
    ensures forall x :: x in AllNames(cols, KeptOf(m, cols)) ==> x !in dropped && x !in encoded && x != key
  {
    NamesFromInput(t, m, encoded, cols);
    var kept := KeptOf(m, cols);
    forall k | 0 <= k < |cols| ensures Distinct(kept[k]) {
      KeptDistinct(m.data[cols[k]]);
    }
    assert NamesApart(cols);
    AllNamesDistinct(cols, kept);
    forall x | x in AllNames(cols, kept) ensures x !in dropped && x !in encoded && x != key {
      var c, i :| c in encoded && c in t.data && 0 <= i < |Kept(t.data[c])| && x == DummyName(c, Kept(t.data[c])[i]);
    }
  }

  lemma IndexOf(s: seq<string>, c: string) returns (k: int)
    requires c in s
    ensures 0 <= k < |s| && s[k] == c
  {
    k :| 0 <= k < |s| && s[k] == c;
  }

  /** Every category kept from the input has its indicator in the result of step 3. */
  lemma IndicatorsFromInput(t: Table, m: Table, encoded: seq<string>, cols: seq<string>, g: Table)
    requires WellFormed(m) && forall c :: c in cols ==> c in m.data
    requires FreshNames(m, cols, KeptOf(m, cols)) && g == OneHot(m, cols, KeptOf(m, cols))
    requires forall c :: c in cols <==> c in encoded && c in t.data
    requires forall c :: c in cols ==> m.data[c] == t.data[c]
    ensures forall c, i :: c in encoded && c in t.data && 0 <= i < |Kept(t.data[c])| ==>
      DummyName(c, Kept(t.data[c])[i]) in g.data &&
      g.data[DummyName(c, Kept(t.data[c])[i])] == Indicator(t.data[c], Kept(t.data[c])[i])
  {
    var kept := KeptOf(m, cols);
    forall c, i | c in encoded && c in t.data && 0 <= i < |Kept(t.data[c])|
      ensures DummyName(c, Kept(t.data[c])[i]) in g.data
      ensures g.data[DummyName(c, Kept(t.data[c])[i])] == Indicator(t.data[c], Kept(t.data[c])[i])
    {
      var k := IndexOf(cols, c);
      assert m.data[cols[k]] == t.data[c];
      assert kept[k] == Kept(t.data[c]);
      assert DummyName(cols[k], kept[k][i]) in AllNames(cols, kept);
    }
  }

  /** The literal facts `DummiesStep` needs about the stage's own lists. */
  lemma StageListsApart()
    ensures Distinct(DummyColumns)
    ensures "host_response_time" !in HighCardinality
    ensures forall c :: c in DummyColumns ==> c !in HighCardinality && c != "host_response_time"
    ensures forall c, v :: c in DummyColumns ==>
      DummyName(c, v) !in HighCardinality && DummyName(c, v) !in DummyColumns && DummyName(c, v) != "host_response_time"
    ensures NamesApart(DummyColumns)
  {
    forall c, v | c in DummyColumns
      ensures DummyName(c, v) !in HighCardinality && DummyName(c, v) !in DummyColumns && DummyName(c, v) != "host_response_time"
    {
      IndicatorNamesApart(c, v);
    }
    DummyColumnsApart(DummyColumns);
  }

  /**
   * The three steps for any dropped list, encoded list and recoded column
   * whose generated names stay apart from all three.
   */
  method PrepareWith(t: Table, dropped: seq<string>, encoded: seq<string>, key: string, f: Value -> Value)
    returns (r: Result<Table>)
    requires WellFormed(t) && Distinct(encoded)
    requires key !in dropped && forall c :: c in encoded ==> c !in dropped && c != key
    requires forall c, v :: c in encoded ==> DummyName(c, v) !in dropped && DummyName(c, v) !in encoded && DummyName(c, v) != key
    requires NamesApart(encoded)
    ensures r.Err? <==> exists x :: IndicatorIn(t, encoded, x) && x in t.data
    ensures r.Ok? ==> WellFormed(r.value) && r.value.height == t.height
    ensures r.Ok? ==> forall x :: x in r.value.data <==> ModelledBy(t, dropped, encoded, x)
    ensures r.Ok? ==> forall x :: x in t.data && x !in dropped && x !in encoded && x != key ==>
      x in r.value.data && r.value.data[x] == t.data[x]
    ensures r.Ok? && key in t.data ==> key in r.value.data && r.value.data[key] == MapValues(t.data[key], f)
    ensures r.Ok? ==> forall c, i :: c in encoded && c in t.data && 0 <= i < |Kept(t.data[c])| ==>
      DummyName(c, Kept(t.data[c])[i]) in r.value.data &&
      r.value.data[DummyName(c, Kept(t.data[c])[i])] == Indicator(t.data[c], Kept(t.data[c])[i])
  {
    var m := DropPresent(t, dropped);
    m := RecodeColumn(m, key, f);
    var cols := Present(encoded, m.columns);
    if |cols| > 0 {
      r := GetDummies(m, cols);
    } else {
      r := Ok(m);
    }
    DummiesStep(t, m, dropped, encoded, key, f, cols, r);
  }

  /**
   * `prepare_for_modeling`: the district and listing-type texts are gone, the
   * response time is its ordinal code, the district group and room type are
   * replaced by their indicators, and every other column is as cleaned.  It
   * fails exactly when an indicator name is already a column.
   */
  method PrepareForModeling(t: Table) returns (r: Result<Table>)
    requires WellFormed(t)
    ensures r.Err? <==> exists x :: IndicatorOf(t, x) && x in t.data
    ensures r.Ok? ==> WellFormed(r.value) && r.value.height == t.height
    ensures r.Ok? ==> forall x :: x in r.value.data <==> Modelled(t, x)
    ensures r.Ok? ==> forall x :: x in t.data && x !in HighCardinality && x !in DummyColumns && x != "host_response_time" ==>
      x in r.value.data && r.value.data[x] == t.data[x]
    ensures r.Ok? && "host_response_time" in t.data ==>
      "host_response_time" in r.value.data && r.value.data["host_response_time"] == MapValues(t.data["host_response_time"], ResponseCode)
    ensures r.Ok? ==> forall c, i :: c in DummyColumns && c in t.data && 0 <= i < |Kept(t.data[c])| ==>
      DummyName(c, Kept(t.data[c])[i]) in r.value.data &&
      r.value.data[DummyName(c, Kept(t.data[c])[i])] == Indicator(t.data[c], Kept(t.data[c])[i])
  {
    StageListsApart();
    r := PrepareWith(t, HighCardinality, DummyColumns, "host_response_time", ResponseCode);
  }
}
