/**
 * A data frame as the cleaning and modelling stages see it: an ordered list of
 * distinct column names, and for each name a column of cells, all columns of
 * the same height (one cell per listing).  The column operations of the
 * data-frame library the stages use (dropping columns, assigning a column,
 * dropping rows) are functions on such tables.
 */
module Tables {

  /** A cell: missing (NaN/None), a number, a string or a boolean. */
  datatype Value = Null | Num(x: real) | Str(s: string) | Bool(b: bool)

  type Column = seq<Value>

  datatype Table = Table(columns: seq<string>, data: map<string, Column>, height: nat)

  predicate Distinct(s: seq<string>) {
    forall i, j :: 0 <= i < j < |s| ==> s[i] != s[j]
  }

  function ColumnSet(cols: seq<string>): set<string> {
    set c | c in cols
  }

  /** Distinct column names, one column of cells per name, every column `height` cells long. */
  predicate WellFormed(t: Table) {
    && Distinct(t.columns)
    && t.data.Keys == ColumnSet(t.columns)
    && forall c :: c in t.data ==> |t.data[c]| == t.height
  }

  /** What a column is known to hold in every row. */
  datatype Kind = NotNull | Numeric | NumericOrNull | Flag | FlagOrNull | StrOrNull | Text

  predicate Holds(k: Kind, v: Value) {
    match k
    case NotNull => !v.Null?
    case Numeric => v.Num?
    case NumericOrNull => v.Num? || v.Null?
    case Flag => v == Num(0.0) || v == Num(1.0)
    case FlagOrNull => v == Num(0.0) || v == Num(1.0) || v == Null
    case StrOrNull => v.Str? || v.Null?
    case Text => v.Str?
  }

  predicate AllHold(s: Column, k: Kind) {
    forall i :: 0 <= i < |s| ==> Holds(k, s[i])
  }

  /** The names of `names`, in order, that are among `cols` (the source's `[c for c in names if c in cols]`). */
  function Present(names: seq<string>, cols: seq<string>): (r: seq<string>)
    ensures forall c :: c in r <==> c in names && c in cols
    ensures Distinct(names) ==> Distinct(r)
  {
    if |names| == 0 then []
    else (if names[0] in cols then [names[0]] else []) + Present(names[1..], cols)
  }

  /** `cols` without the names in `drop`, in their original order. */
  function Without(cols: seq<string>, drop: set<string>): (r: seq<string>)
    ensures forall c :: c in r <==> c in cols && c !in drop
    ensures Distinct(cols) ==> Distinct(r)
  {
    if |cols| == 0 then []
    else (if cols[0] in drop then [] else [cols[0]]) + Without(cols[1..], drop)
  }

  /** `df.drop(columns=drop)`. */
  function DropColumns(t: Table, drop: set<string>): (r: Table)
    requires WellFormed(t)
    ensures WellFormed(r)
  {
    Table(Without(t.columns, drop), t.data - drop, t.height)
  }

  /** `df.drop(columns=[c for c in names if c in df.columns])`. */
  function DropPresent(t: Table, names: seq<string>): (r: Table)
    requires WellFormed(t)
    ensures WellFormed(r) && r.height == t.height
    ensures forall x :: x in r.data <==> x in t.data && x !in names
    ensures forall x :: x in r.data ==> r.data[x] == t.data[x]
  {
    DropColumns(t, ColumnSet(Present(names, t.columns)))
  }

  /** `df[c] = vals`: an existing column keeps its place, a new one is appended after the others. */
  function SetColumn(t: Table, c: string, vals: Column): (r: Table)
    requires WellFormed(t) && |vals| == t.height
    ensures WellFormed(r)
  {
    var cols := if c in t.columns then t.columns else t.columns + [c];
    assert ColumnSet(cols) == ColumnSet(t.columns) + {c};
    Table(cols, t.data[c := vals], t.height)
  }

  /** `df[dst] = vals` followed by `df.drop(columns=[src])`: a column derived from `src` takes its place. */
  function Replace(t: Table, src: string, dst: string, vals: Column): (r: Table)
    requires WellFormed(t) && |vals| == t.height && src != dst
    ensures WellFormed(r) && r.height == t.height
    ensures forall c :: c in r.data <==> c != src && (c in t.data || c == dst)
    ensures dst in r.data && r.data[dst] == vals
    ensures forall c :: c in t.data && c != src && c != dst ==> r.data[c] == t.data[c]
  {
    DropColumns(SetColumn(t, dst, vals), {src})
  }

  /** New columns `names`, holding `m`, appended after the others (a concatenation of frames along the columns). */
  function AppendColumns(t: Table, names: seq<string>, m: map<string, Column>): (r: Table)
    requires WellFormed(t) && Distinct(names)
    requires forall x :: x in names ==> x !in t.data
    requires forall x :: x in m <==> x in names
    requires forall x :: x in m ==> |m[x]| == t.height
    ensures WellFormed(r) && r.height == t.height
    ensures r.columns == t.columns + names && r.data == t.data + m
  {
    var cols := t.columns + names;
    assert Distinct(cols) by {
      forall i, j | 0 <= i < j < |cols| ensures cols[i] != cols[j] {
        if j < |t.columns| {
          assert cols[i] == t.columns[i] && cols[j] == t.columns[j];
        } else if i < |t.columns| {
          assert cols[i] == t.columns[i] && cols[i] in ColumnSet(t.columns);
          assert cols[j] == names[j - |t.columns|] && cols[j] in names;
        } else {
          assert cols[i] == names[i - |t.columns|] && cols[j] == names[j - |t.columns|];
        }
      }
    }
    assert ColumnSet(cols) == ColumnSet(t.columns) + ColumnSet(names);
    Table(cols, t.data + m, t.height)
  }

  /** `f` applied to every cell (the library's element-wise `map`). */
  function MapValues(s: Column, f: Value -> Value): (r: Column)
    ensures |r| == |s|
  {
    seq(|s|, i requires 0 <= i < |s| => f(s[i]))
  }

  /** The cells of `s` whose `mask` entry is true, in order (boolean-mask indexing). */
  function Select(s: Column, mask: seq<bool>): (r: Column)
    requires |s| == |mask|
    ensures |r| == Count(mask)
    ensures forall x :: x in r ==> exists j :: 0 <= j < |s| && mask[j] && s[j] == x
    ensures forall j :: 0 <= j < |s| && mask[j] ==> s[j] in r
  {
    if |s| == 0 then []
    else
      var n := |s| - 1;
      var front := Select(s[..n], mask[..n]);
      assert forall x :: x in front ==> exists j :: 0 <= j < n && mask[j] && s[j] == x by {
        forall x | x in front ensures exists j :: 0 <= j < n && mask[j] && s[j] == x {
          var j :| 0 <= j < n && mask[..n][j] && s[..n][j] == x;
        }
      }
      assert forall j :: 0 <= j < n && mask[j] ==> s[j] in front by {
        forall j | 0 <= j < n && mask[j] ensures s[j] in front {
          assert s[..n][j] == s[j] && mask[..n][j];
        }
      }
      front + (if mask[n] then [s[n]] else [])
  }

  function Count(mask: seq<bool>): (n: nat)
    ensures n <= |mask|
  {
    if |mask| == 0 then 0 else Count(mask[..|mask| - 1]) + (if mask[|mask| - 1] then 1 else 0)
  }

  /** `df = df[mask]`: keep the rows whose mask entry is true, in every column. */
  function FilterRows(t: Table, mask: seq<bool>): (r: Table)
    requires WellFormed(t) && |mask| == t.height
    ensures WellFormed(r)
  {
    Table(t.columns, map c | c in t.data :: Select(t.data[c], mask), Count(mask))
  }

  /** A property of every cell survives dropping rows. */
  lemma AllHoldSelect(s: Column, mask: seq<bool>, k: Kind)
    requires |s| == |mask| && AllHold(s, k)
    ensures AllHold(Select(s, mask), k)
  {
    var r := Select(s, mask);
    forall i | 0 <= i < |r| ensures Holds(k, r[i]) {
      assert r[i] in r;
      var j :| 0 <= j < |s| && mask[j] && s[j] == r[i];
    }
  }

  /** Only the columns in `changed` may differ; the rest are there with the same cells. */
  ghost predicate Unchanged(t: Table, r: Table, changed: set<string>) {
    forall c :: c in t.data && c !in changed ==> c in r.data && r.data[c] == t.data[c]
  }

  /** Every column outside `changed` is still there, and whatever held of all its cells still does. */
  ghost predicate KindsKept(t: Table, r: Table, changed: set<string>) {
    forall c, k :: c in t.data && c !in changed && AllHold(t.data[c], k) ==> c in r.data && AllHold(r.data[c], k)
  }

  lemma UnchangedKeepsKinds(t: Table, r: Table, changed: set<string>)
    requires Unchanged(t, r, changed)
    ensures KindsKept(t, r, changed)
  {
  }

  /** Dropping rows keeps every column's kind. */
  lemma SelectKeepsKinds(t: Table, r: Table, mask: seq<bool>)
    requires WellFormed(t) && |mask| == t.height
    requires forall c :: c in t.data ==> c in r.data && r.data[c] == Select(t.data[c], mask)
    ensures KindsKept(t, r, {})
  {
    forall c, k | c in t.data && AllHold(t.data[c], k) ensures AllHold(r.data[c], k) {
      AllHoldSelect(t.data[c], mask, k);
    }
  }

  lemma KindsKeptChain(a: Table, b: Table, c: Table, s1: set<string>, s2: set<string>)
    requires KindsKept(a, b, s1) && KindsKept(b, c, s2)
    ensures KindsKept(a, c, s1 + s2)
  {
  }

  lemma UnchangedWiden(t: Table, r: Table, s1: set<string>, s2: set<string>)
    requires Unchanged(t, r, s1) && s1 <= s2
    ensures Unchanged(t, r, s2)
  {
  }

  /** Two steps together change at most what either changes. */
  lemma UnchangedChain(a: Table, b: Table, c: Table, s1: set<string>, s2: set<string>)
    requires Unchanged(a, b, s1) && Unchanged(b, c, s2)
    ensures Unchanged(a, c, s1 + s2)
  {
  }

  /**
   * `for c in cols: if c in df.columns: df[c] = df[c].map(f)`, for a cell map
   * `f` that is idempotent (so a name listed twice makes no difference).
   */
  method MapColumns(t: Table, cols: seq<string>, f: Value -> Value) returns (r: Table)
    requires WellFormed(t)
    requires forall v :: f(f(v)) == f(v)
    ensures WellFormed(r) && r.columns == t.columns && r.height == t.height
    ensures forall c :: c in t.data ==> c in r.data && r.data[c] == if c in cols then MapValues(t.data[c], f) else t.data[c]
  {
    r := t;
    for k := 0 to |cols|
      invariant WellFormed(r) && r.columns == t.columns && r.height == t.height
      invariant MappedSoFar(t, r, f, cols[..k])
    {
      var c := cols[k];
      MapNext(t, r, cols, f, k);
      if c in r.data {
        r := SetColumn(r, c, MapValues(r.data[c], f));
      }
    }
    assert cols[..|cols|] == cols;
  }

  /** The columns in `done` are mapped by `f`, the others are as in `t`. */
  ghost predicate MappedSoFar(t: Table, r: Table, f: Value -> Value, done: seq<string>) {
    forall c :: c in t.data ==> c in r.data && r.data[c] == if c in done then MapValues(t.data[c], f) else t.data[c]
  }

  lemma MapNext(t: Table, r: Table, cols: seq<string>, f: Value -> Value, k: int)
    requires WellFormed(t) && WellFormed(r) && r.columns == t.columns && r.height == t.height
    requires forall v :: f(f(v)) == f(v)
    requires 0 <= k < |cols| && MappedSoFar(t, r, f, cols[..k])
    ensures cols[k] in r.data ==> MappedSoFar(t, SetColumn(r, cols[k], MapValues(r.data[cols[k]], f)), f, cols[..k + 1])
    ensures cols[k] !in r.data ==> MappedSoFar(t, r, f, cols[..k + 1])
  {
    var c := cols[k];
    assert cols[..k + 1] == cols[..k] + [c];
    if c in r.data && c in cols[..k] {
      assert MapValues(r.data[c], f) == r.data[c];
    }
  }
}
