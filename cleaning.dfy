/**
 * The training-side cleaning stage, `clean_airbnb_data`: a fixed sequence of
 * column-guarded transformations of the raw listings table.  Each numbered
 * step of the source is a method here; `CleanAirbnbData` runs them in order.
 * Float parsing and the haversine distance are parameters.
 */
module Cleaning {
  import opened Wrappers
  import opened Tables
  import opened Text
  import Imputation

  /** The noise columns (their order in the source's list plays no part in dropping them). */
  const ColumnsToDrop: set<string> := {
    "id", "scrape_id", "last_scraped", "source", "name",
    "description", "neighborhood_overview", "picture_url", "host_id",
    "host_url", "host_name", "host_location", "host_about", "host_listings_count",
    "host_thumbnail_url", "host_picture_url", "host_neighbourhood",
    "host_verifications", "neighbourhood", "calendar_updated",
    "calendar_last_scraped", "license", "host_total_listings_count",
    "minimum_minimum_nights", "maximum_minimum_nights",
    "minimum_maximum_nights", "maximum_maximum_nights",
    "minimum_nights_avg_ntm", "maximum_nights_avg_ntm",
    "availability_eoy", "estimated_occupancy_l365d", "estimated_revenue_l365d",
    "bathrooms"
  }

  const BooleanColumns: seq<string> := [
    "host_is_superhost", "host_has_profile_pic",
    "host_identity_verified", "has_availability", "instant_bookable"
  ]

  const ReviewColumns: seq<string> := [
    "review_scores_rating", "review_scores_accuracy", "review_scores_cleanliness",
    "review_scores_checkin", "review_scores_communication",
    "review_scores_location", "review_scores_value", "first_review",
    "last_review", "reviews_per_month"
  ]

  const RateColumns: seq<string> := ["host_response_rate", "host_acceptance_rate"]

  /** A listing missing any of these has no usable host ("ghost host"). */
  const HostRequiredColumns: seq<string> := ["host_since", "host_has_profile_pic", "host_identity_verified"]

  const FillFalseColumns: seq<string> := ["host_is_superhost", "has_availability"]

  const ImputedColumns: seq<string> := ["bedrooms", "bathrooms", "beds"]

  /** Puerta del Sol. */
  const SolLat: real := 40.4168
  const SolLon: real := -3.7038

  /** The out-of-domain marker for a missing review or rate value. */
  const Sentinel: real := -1.0

  /** What `float(text)` (and `pd.to_numeric`) makes of a string: a number, NaN, or an error. */
  datatype Parsed = Finite(x: real) | NaN | Invalid

  type Parser = string -> Parsed

  /** Great-circle distance in km between (lat1, lon1) and (lat2, lon2). */
  type Distance = (real, real, real, real) -> real

  // ---------------------------------------------------------------------
  // Step 0: drop the noise columns (an unguarded drop: every one must exist)
  // ---------------------------------------------------------------------

  method DropNoiseColumns(t: Table) returns (r: Result<Table>)
    requires WellFormed(t)
    ensures r.Ok? <==> forall c :: c in ColumnsToDrop ==> c in t.columns
    ensures r.Ok? ==> WellFormed(r.value) && r.value.height == t.height
    ensures r.Ok? ==> r.value.columns == Without(t.columns, ColumnsToDrop)
    ensures r.Ok? ==> forall c :: c in r.value.data <==> c in t.data && c !in ColumnsToDrop
    ensures r.Ok? ==> Unchanged(t, r.value, ColumnsToDrop)
  {
    if forall c :: c in ColumnsToDrop ==> c in t.columns {
      r := Ok(DropColumns(t, ColumnsToDrop));
    } else {
      r := Err("KeyError: columns not found in axis");
    }
  }

  // ---------------------------------------------------------------------
  // Step 1: the target price
  // ---------------------------------------------------------------------

  /** A currency string with every `$` and `,` removed. */
  function StripCurrency(s: string): string {
    RemoveChars(s, {'$', ','})
  }

  /** `astype(float)` raises on this cell of a text price column. */
  predicate PriceFails(v: Value, parse: Parser) {
    v.Str? && parse(StripCurrency(v.s)).Invalid?
  }

  /**
   * One cell of a text (object-dtype) price column after `.str.replace(r'[\$,]', '')`
   * and `astype(float)`; a cell that is not a string comes out of the `.str`
   * accessor as NaN.
   */
  function PriceCell(v: Value, parse: Parser): Value {
    match v
    case Str(s) => (match parse(StripCurrency(s)) case Finite(x) => Num(x) case _ => Null)
    case _ => Null
  }

  /** The price column after conversion: only a column holding text (dtype 'O') is converted. */
  function PriceColumn(s: Column, parse: Parser): (r: Column)
    ensures |r| == |s|
  {
    if exists i :: 0 <= i < |s| && s[i].Str? then seq(|s|, i requires 0 <= i < |s| => PriceCell(s[i], parse))
    else s
  }

  /** The rows `dropna(subset=[c])` keeps. */
  function NotNullMask(s: Column): (m: seq<bool>)
    ensures |m| == |s|
  {
    seq(|s|, i requires 0 <= i < |s| => !s[i].Null?)
  }

  lemma SelectNotNull(s: Column)
    ensures AllHold(Select(s, NotNullMask(s)), NotNull)
  {
    var r := Select(s, NotNullMask(s));
    forall i | 0 <= i < |r| ensures !r[i].Null? {
      assert r[i] in r;
      var j :| 0 <= j < |s| && NotNullMask(s)[j] && s[j] == r[i];
    }
  }

  method ParsePrice(t: Table, parse: Parser) returns (r: Result<Table>)
    requires WellFormed(t)
    ensures r.Err? <==> "price" in t.data && exists i :: 0 <= i < t.height && PriceFails(t.data["price"][i], parse)
    ensures "price" !in t.data ==> r == Ok(t)
    ensures r.Ok? ==> WellFormed(r.value) && r.value.columns == t.columns && r.value.height <= t.height
    ensures r.Ok? && "price" in t.data ==>
      var conv := PriceColumn(t.data["price"], parse);
      var mask := NotNullMask(conv);
      && r.value.data["price"] == Select(conv, mask)
      && AllHold(r.value.data["price"], NotNull)
      && forall c :: c in t.data && c != "price" ==> r.value.data[c] == Select(t.data[c], mask)
  {
    if "price" !in t.data {
      return Ok(t);
    }
    if exists i :: 0 <= i < t.height && PriceFails(t.data["price"][i], parse) {
      return Err("ValueError: could not convert string to float");
    }
    var conv := PriceColumn(t.data["price"], parse);
    var converted := SetColumn(t, "price", conv);
    r := Ok(FilterRows(converted, NotNullMask(conv)));
    SelectNotNull(conv);
  }

  // ---------------------------------------------------------------------
  // Step 2: reviews
  // ---------------------------------------------------------------------

  function FillSentinel(v: Value): Value {
    if v.Null? then Num(Sentinel) else v
  }

  function ReviewFlag(v: Value): Value {
    if v.Null? then Num(0.0) else Num(1.0)
  }

  /** `has_reviews` is 1 exactly where `reviews_per_month` is present. */
  method AddReviewFlag(t: Table) returns (r: Table)
    requires WellFormed(t)
    ensures WellFormed(r) && r.height == t.height
    ensures r.columns == if "reviews_per_month" in t.data && "has_reviews" !in t.data then t.columns + ["has_reviews"] else t.columns
    ensures "reviews_per_month" in t.data ==> "has_reviews" in r.data && AllHold(r.data["has_reviews"], Flag)
    ensures "reviews_per_month" in t.data ==> forall i :: 0 <= i < t.height ==>
      (r.data["has_reviews"][i] == Num(1.0) <==> !t.data["reviews_per_month"][i].Null?)
    ensures forall c :: c in r.data <==> c in t.data || (c == "has_reviews" && "reviews_per_month" in t.data)
    ensures Unchanged(t, r, {"has_reviews"})
    ensures "reviews_per_month" !in t.data ==> r == t
  {
    r := t;
    if "reviews_per_month" in t.data {
      r := SetColumn(t, "has_reviews", MapValues(t.data["reviews_per_month"], ReviewFlag));
    }
  }

  /** The review columns' gaps become the sentinel -1. */
  method FillReviewScores(t: Table) returns (r: Table)
    requires WellFormed(t)
    ensures WellFormed(r) && r.columns == t.columns && r.height == t.height
    ensures forall c :: c in ReviewColumns && c in t.data ==> c in r.data && AllHold(r.data[c], NotNull)
    ensures forall c, i :: c in ReviewColumns && c in t.data && 0 <= i < t.height ==>
      r.data[c][i] == if t.data[c][i].Null? then Num(Sentinel) else t.data[c][i]
    ensures Unchanged(t, r, ColumnSet(ReviewColumns))
  {
    r := MapColumns(t, ReviewColumns, FillSentinel);
    FilledColumns(t, r, ReviewColumns, FillSentinel);
  }

  lemma FilledColumns(t: Table, r: Table, cols: seq<string>, f: Value -> Value)
    requires WellFormed(t)
    requires forall c :: c in t.data ==> c in r.data && r.data[c] == if c in cols then MapValues(t.data[c], f) else t.data[c]
    ensures forall c, i :: c in cols && c in t.data && 0 <= i < t.height ==> i < |r.data[c]| && r.data[c][i] == f(t.data[c][i])
    ensures Unchanged(t, r, ColumnSet(cols))
  {
    forall c, i | c in cols && c in t.data && 0 <= i < t.height
      ensures i < |r.data[c]| && r.data[c][i] == f(t.data[c][i])
    {
      assert r.data[c] == MapValues(t.data[c], f);
    }
  }

  // ---------------------------------------------------------------------
  // Step 3: host response time
  // ---------------------------------------------------------------------

  function FillUnknown(v: Value): Value {
    if v.Null? then Str("Unknown") else v
  }

  method FillResponseTime(t: Table) returns (r: Table)
    requires WellFormed(t)
    ensures WellFormed(r) && r.columns == t.columns && r.height == t.height
    ensures "host_response_time" in t.data ==> AllHold(r.data["host_response_time"], NotNull)
    ensures "host_response_time" in t.data ==> forall i :: 0 <= i < t.height ==>
      r.data["host_response_time"][i] == if t.data["host_response_time"][i].Null? then Str("Unknown") else t.data["host_response_time"][i]
    ensures Unchanged(t, r, {"host_response_time"})
  {
    r := t;
    if "host_response_time" in t.data {
      r := SetColumn(t, "host_response_time", MapValues(t.data["host_response_time"], FillUnknown));
    }
  }

  // ---------------------------------------------------------------------
  // Step 4: host rates
  // ---------------------------------------------------------------------

  /**
   * One rate cell after `astype(str)`, removing `%`, `to_numeric(errors='coerce')`
   * and `fillna(-1)`.  A missing cell prints as "nan" and a boolean as "True"/"False",
   * which both coerce to NaN; a number prints as itself and parses back.
   */
  function RateCell(v: Value, parse: Parser): (r: Value)
    ensures r.Num?
    ensures v.Num? ==> r == v
    ensures v.Str? && parse(RemoveChars(v.s, {'%'})).Finite? ==> r == Num(parse(RemoveChars(v.s, {'%'})).x)
    ensures !v.Num? && !(v.Str? && parse(RemoveChars(v.s, {'%'})).Finite?) ==> r == Num(Sentinel)
  {
    match v
    case Num(x) => Num(x)
    case Str(s) => (match parse(RemoveChars(s, {'%'})) case Finite(x) => Num(x) case _ => Num(Sentinel))
    case _ => Num(Sentinel)
  }

  method ParseRates(t: Table, parse: Parser) returns (r: Table)
    requires WellFormed(t)
    ensures WellFormed(r) && r.columns == t.columns && r.height == t.height
    ensures forall c :: c in RateColumns && c in t.data ==> c in r.data && AllHold(r.data[c], Numeric)
    ensures forall c, i :: c in RateColumns && c in t.data && 0 <= i < t.height ==> r.data[c][i] == RateCell(t.data[c][i], parse)
    ensures Unchanged(t, r, ColumnSet(RateColumns))
  {
    var cell := v => RateCell(v, parse);
    r := MapColumns(t, RateColumns, cell);
    forall c, i | c in RateColumns && c in t.data && 0 <= i < t.height
      ensures r.data[c][i] == RateCell(t.data[c][i], parse)
    {
      assert r.data[c] == MapValues(t.data[c], cell);
    }
  }

  // ---------------------------------------------------------------------
  // Step 5: ghost hosts
  // ---------------------------------------------------------------------

  /** The rows with a value in every host column the table has. */
  function HostMask(t: Table): (m: seq<bool>)
    requires WellFormed(t)
    ensures |m| == t.height
  {
    var present := Present(HostRequiredColumns, t.columns);
    seq(t.height, i requires 0 <= i < t.height => forall c :: c in present ==> !t.data[c][i].Null?)
  }

  method DropGhostHosts(t: Table) returns (r: Table)
    requires WellFormed(t)
    ensures WellFormed(r) && r.columns == t.columns && r.height <= t.height
    ensures forall c :: c in t.data ==> c in r.data && r.data[c] == Select(t.data[c], HostMask(t))
    ensures forall c :: c in HostRequiredColumns && c in t.data ==> AllHold(r.data[c], NotNull)
  {
    r := FilterRows(t, HostMask(t));
    forall c | c in HostRequiredColumns && c in t.data ensures AllHold(r.data[c], NotNull) {
      HostMaskKeepsHosts(t, c);
    }
  }

  /** The rows the mask keeps have a value in each present host column. */
  lemma HostMaskKeepsHosts(t: Table, c: string)
    requires WellFormed(t) && c in HostRequiredColumns && c in t.data
    ensures AllHold(Select(t.data[c], HostMask(t)), NotNull)
  {
    var mask := HostMask(t);
    var s := Select(t.data[c], mask);
    assert c in Present(HostRequiredColumns, t.columns);
    forall i | 0 <= i < |s| ensures !s[i].Null? {
      assert s[i] in s;
      var j :| 0 <= j < |t.data[c]| && mask[j] && t.data[c][j] == s[i];
    }
  }

  // ---------------------------------------------------------------------
  // Step 6: booleans
  // ---------------------------------------------------------------------

  function FillF(v: Value): Value {
    if v.Null? then Str("f") else v
  }

  /**
   * The lookup in {'t': 1, 'f': 0, 'True': 1, 'False': 0, True: 1, False: 0}.
   * Python's booleans are the integers 1 and 0 as dictionary keys, so the
   * numbers 1 and 0 are found too; anything else maps to NaN.
   */
  function BoolCode(v: Value): (r: Value)
    ensures r == Num(1.0) <==> v == Str("t") || v == Str("True") || v == Bool(true) || v == Num(1.0)
    ensures r == Num(0.0) <==> v == Str("f") || v == Str("False") || v == Bool(false) || v == Num(0.0)
    ensures r.Null? <==> r != Num(0.0) && r != Num(1.0)
  {
    match v
    case Str(s) => if s == "t" || s == "True" then Num(1.0) else if s == "f" || s == "False" then Num(0.0) else Null
    case Bool(b) => if b then Num(1.0) else Num(0.0)
    case Num(x) => if x == 1.0 then Num(1.0) else if x == 0.0 then Num(0.0) else Null
    case Null => Null
  }

  method EncodeBooleans(t: Table) returns (r: Table)
    requires WellFormed(t)
    ensures WellFormed(r) && r.columns == t.columns && r.height == t.height
    ensures forall c :: c in BooleanColumns && c in t.data ==> c in r.data && AllHold(r.data[c], FlagOrNull)
    ensures forall c, i :: c in BooleanColumns && c in t.data && 0 <= i < t.height ==>
      r.data[c][i] == BoolCode(if c in FillFalseColumns then FillF(t.data[c][i]) else t.data[c][i])
    ensures forall c, i :: c in FillFalseColumns && c in t.data && 0 <= i < t.height && t.data[c][i].Null? ==>
      r.data[c][i] == Num(0.0)
    ensures Unchanged(t, r, ColumnSet(BooleanColumns))
  {
    FillFalseAreBoolean();
    r := EncodeFlags(t, FillFalseColumns, BooleanColumns);
  }

  lemma FillFalseAreBoolean()
    ensures forall c :: c in FillFalseColumns ==> c in BooleanColumns
  {
  }

  /** Step 6 for any lists: the nulls of `fill` become 'f', then every column of `flags` is mapped to 1/0/NaN. */
  method EncodeFlags(t: Table, fill: seq<string>, flags: seq<string>) returns (r: Table)
    requires WellFormed(t)
    requires forall c :: c in fill ==> c in flags
    ensures WellFormed(r) && r.columns == t.columns && r.height == t.height
    ensures forall c :: c in flags && c in t.data ==> c in r.data && AllHold(r.data[c], FlagOrNull)
    ensures forall c, i :: c in flags && c in t.data && 0 <= i < t.height ==>
      r.data[c][i] == BoolCode(if c in fill then FillF(t.data[c][i]) else t.data[c][i])
    ensures forall c, i :: c in fill && c in t.data && 0 <= i < t.height && t.data[c][i].Null? ==>
      r.data[c][i] == Num(0.0)
    ensures Unchanged(t, r, ColumnSet(flags))
  {
    var filled := MapColumns(t, fill, FillF);
    r := MapColumns(filled, flags, BoolCode);
    forall c, i | c in flags && c in t.data && 0 <= i < t.height
      ensures r.data[c][i] == BoolCode(if c in fill then FillF(t.data[c][i]) else t.data[c][i])
    {
      assert r.data[c] == MapValues(filled.data[c], BoolCode);
    }
  }

  // ---------------------------------------------------------------------
  // Step 7: bathrooms
  // ---------------------------------------------------------------------

  /** `str.extract(r'(\d+\.?\d*)').astype(float)` on one cell: the first number in the text, or NaN. */
  function BathroomsCell(v: Value): (r: Value)
    ensures r.Num? || r.Null?
    ensures r.Num? <==> v.Str? && exists k :: 0 <= k < |v.s| && IsDigit(v.s[k])
  {
    if v.Str? then
      match FirstNumber(v.s)
      case Some(m) => Num(DecimalValue(m))
      case None => Null
    else Null
  }

  method ExtractBathrooms(t: Table) returns (r: Table)
    requires WellFormed(t)
    ensures WellFormed(r) && r.height == t.height && "bathrooms_text" !in r.data
    ensures forall c :: c in r.data <==> c != "bathrooms_text" && (c in t.data || (c == "bathrooms" && "bathrooms_text" in t.data))
    ensures "bathrooms_text" in t.data ==> "bathrooms" in r.data && AllHold(r.data["bathrooms"], NumericOrNull)
    ensures "bathrooms_text" in t.data ==> forall i :: 0 <= i < t.height ==>
      r.data["bathrooms"][i] == BathroomsCell(t.data["bathrooms_text"][i])
    ensures Unchanged(t, r, {"bathrooms", "bathrooms_text"})
    ensures "bathrooms_text" !in t.data ==> r == t
  {
    r := t;
    if "bathrooms_text" in t.data {
      r := Replace(t, "bathrooms_text", "bathrooms", MapValues(t.data["bathrooms_text"], BathroomsCell));
    }
  }

  // ---------------------------------------------------------------------
  // Step 8: grouped imputation
  // ---------------------------------------------------------------------

  method ImputeByCapacity(t: Table) returns (r: Table)
    requires WellFormed(t)
    ensures WellFormed(r) && r.columns == t.columns && r.height == t.height
    ensures "accommodates" !in t.data ==> r == t
    ensures "accommodates" in t.data ==> forall c :: c in ImputedColumns && c in t.data ==>
      c in r.data && r.data[c] == Imputation.Impute(t.data["accommodates"], t.data[c])
    ensures Unchanged(t, r, ColumnSet(ImputedColumns))
  {
    r := t;
    if "accommodates" in t.data {
      ImputedNamesDistinct();
      r := ImputeGrouped(t, "accommodates", ImputedColumns);
    }
  }

  lemma ImputedNamesDistinct()
    ensures Distinct(ImputedColumns) && "accommodates" !in ImputedColumns
  {
  }

  /** The two writes of one imputed column: the group medians, then the overall median. */
  function ImputeColumn(t: Table, key: string, c: string): (r: Table)
    requires WellFormed(t) && key in t.data && c in t.data && key != c
    ensures WellFormed(r) && r.columns == t.columns && r.height == t.height
    ensures r.data == t.data[c := Imputation.Impute(t.data[key], t.data[c])]
  {
    var grouped := SetColumn(t, c, Imputation.GroupFill(t.data[key], t.data[c]));
    SetColumn(grouped, c, Imputation.GlobalFill(grouped.data[c]))
  }

  /** Fills each of `cols` by its group median (groups by the `key` column) and then by its overall median. */
  method ImputeGrouped(t: Table, key: string, cols: seq<string>) returns (r: Table)
    requires WellFormed(t) && key in t.data && key !in cols && Distinct(cols)
    ensures WellFormed(r) && r.columns == t.columns && r.height == t.height
    ensures forall c :: c in t.data ==>
      c in r.data && r.data[c] == if c in cols then Imputation.Impute(t.data[key], t.data[c]) else t.data[c]
  {
    r := t;
    for k := 0 to |cols|
      invariant WellFormed(r) && r.columns == t.columns && r.height == t.height
      invariant ImputedSoFar(t, r, key, cols[..k])
    {
      var c := cols[k];
      ImputeNext(t, r, key, cols, k);
      if c in r.data {
        r := ImputeColumn(r, key, c);
      }
    }
    assert cols[..|cols|] == cols;
  }

  /** The columns in `done` are imputed from `t`, the others are as in `t`. */
  ghost predicate ImputedSoFar(t: Table, r: Table, key: string, done: seq<string>)
    requires WellFormed(t) && key in t.data
  {
    forall c :: c in t.data ==>
      c in r.data && r.data[c] == if c in done then Imputation.Impute(t.data[key], t.data[c]) else t.data[c]
  }

  lemma ImputeNext(t: Table, r: Table, key: string, cols: seq<string>, k: int)
    requires WellFormed(t) && key in t.data && key !in cols && Distinct(cols) && 0 <= k < |cols|
    requires WellFormed(r) && r.columns == t.columns && r.height == t.height
    requires ImputedSoFar(t, r, key, cols[..k])
    ensures cols[k] in r.data ==> key in r.data && key != cols[k] && ImputedSoFar(t, ImputeColumn(r, key, cols[k]), key, cols[..k + 1])
    ensures cols[k] !in r.data ==> ImputedSoFar(t, r, key, cols[..k + 1])
  {
    var c := cols[k];
    assert cols[..k + 1] == cols[..k] + [c];
    assert c !in cols[..k] by {
      forall j | 0 <= j < k ensures cols[j] != c { }
    }
    assert key !in cols[..k];
  }

  // ---------------------------------------------------------------------
  // Step 9: amenities
  // ---------------------------------------------------------------------

  /** The premium features: an indicator column and the regex alternatives searched in the lower-cased amenity text. */
  const AcPatterns: seq<string> := ["air conditioning", "ac"]
  const PoolPatterns: seq<string> := ["pool"]
  const ElevatorPatterns: seq<string> := ["elevator"]
  const ParkingPatterns: seq<string> := ["parking", "garage"]
  const AmenityFeatures: set<string> := {"has_ac", "has_pool", "has_elevator", "has_parking"}

  /** `str.lower().str.contains(p1|p2|...).astype(int)` on a column of text. */
  function FeatureColumn(s: Column, patterns: seq<string>): (r: Column)
    requires forall i :: 0 <= i < |s| ==> s[i].Str?
    ensures |r| == |s| && AllHold(r, Flag)
  {
    seq(|s|, i requires 0 <= i < |s| => if MatchesAny(ToLower(s[i].s), patterns) then Num(1.0) else Num(0.0))
  }

  /** `col` flags, row by row, the amenity texts that mention one of `patterns`. */
  ghost predicate Flags(text: Column, col: Column, patterns: seq<string>) {
    && |col| == |text|
    && AllHold(col, Flag)
    && forall i :: 0 <= i < |text| ==>
      (col[i] == Num(1.0) <==> text[i].Str? && exists p :: p in patterns && Contains(ToLower(text[i].s), p))
  }

  /** The four feature columns of `r` flag the amenity texts `text`. */
  ghost predicate HasFeatures(text: Column, r: Table) {
    && "has_ac" in r.data && Flags(text, r.data["has_ac"], AcPatterns)
    && "has_pool" in r.data && Flags(text, r.data["has_pool"], PoolPatterns)
    && "has_elevator" in r.data && Flags(text, r.data["has_elevator"], ElevatorPatterns)
    && "has_parking" in r.data && Flags(text, r.data["has_parking"], ParkingPatterns)
  }

  lemma FeatureColumnFlags(text: Column, patterns: seq<string>)
    requires forall i :: 0 <= i < |text| ==> text[i].Str?
    ensures Flags(text, FeatureColumn(text, patterns), patterns)
  {
    forall i | 0 <= i < |text|
      ensures FeatureColumn(text, patterns)[i] == Num(1.0) <==> exists p :: p in patterns && Contains(ToLower(text[i].s), p)
    {
      MatchesAnyIff(ToLower(text[i].s), patterns);
    }
  }

  /** One `df[name] = amenities_str.str.contains(...).astype(int)` assignment. */
  function AddFeature(t: Table, name: string, text: Column, patterns: seq<string>): (r: Table)
    requires WellFormed(t) && |text| == t.height && forall i :: 0 <= i < |text| ==> text[i].Str?
    ensures WellFormed(r) && r.height == t.height
    ensures r.data == t.data[name := FeatureColumn(text, patterns)]
  {
    SetColumn(t, name, FeatureColumn(text, patterns))
  }

  /** The four feature assignments. */
  function WithFeatures(t: Table): (r: Table)
    requires WellFormed(t) && "amenities" in t.data
    requires forall i :: 0 <= i < t.height ==> t.data["amenities"][i].Str?
    ensures WellFormed(r) && r.height == t.height
    ensures HasFeatures(t.data["amenities"], r)
    ensures r.data.Keys == t.data.Keys + AmenityFeatures
    ensures Unchanged(t, r, AmenityFeatures)
  {
    var text := t.data["amenities"];
    var r := AddFeature(AddFeature(AddFeature(AddFeature(t, "has_ac", text, AcPatterns),
      "has_pool", text, PoolPatterns), "has_elevator", text, ElevatorPatterns), "has_parking", text, ParkingPatterns);
    FeatureColumnFlags(text, AcPatterns);
    FeatureColumnFlags(text, PoolPatterns);
    FeatureColumnFlags(text, ElevatorPatterns);
    FeatureColumnFlags(text, ParkingPatterns);
    FeatureKeysDistinct();
    FourUpdates(t.data, "has_ac", "has_pool", "has_elevator", "has_parking", FeatureColumn(text, AcPatterns),
      FeatureColumn(text, PoolPatterns), FeatureColumn(text, ElevatorPatterns), FeatureColumn(text, ParkingPatterns));
    FeaturesFromColumns(text, r, FeatureColumn(text, AcPatterns), FeatureColumn(text, PoolPatterns),
      FeatureColumn(text, ElevatorPatterns), FeatureColumn(text, ParkingPatterns));
    r
  }

  lemma FeaturesFromColumns(text: Column, r: Table, ac: Column, pool: Column, elevator: Column, parking: Column)
    requires Flags(text, ac, AcPatterns) && Flags(text, pool, PoolPatterns)
    requires Flags(text, elevator, ElevatorPatterns) && Flags(text, parking, ParkingPatterns)
    requires "has_ac" in r.data && r.data["has_ac"] == ac && "has_pool" in r.data && r.data["has_pool"] == pool
    requires "has_elevator" in r.data && r.data["has_elevator"] == elevator
    requires "has_parking" in r.data && r.data["has_parking"] == parking
    ensures HasFeatures(text, r)
  {
  }

  lemma FeatureKeysDistinct()
    ensures "has_ac" != "has_pool" && "has_ac" != "has_elevator" && "has_ac" != "has_parking"
    ensures "has_pool" != "has_elevator" && "has_pool" != "has_parking" && "has_elevator" != "has_parking"
  {
  }

  /** Four assignments to distinct keys. */
  lemma FourUpdates<V>(m: map<string, V>, a: string, b: string, c: string, d: string, va: V, vb: V, vc: V, vd: V)
    requires a != b && a != c && a != d && b != c && b != d && c != d
    ensures var r := m[a := va][b := vb][c := vc][d := vd];
      && r.Keys == m.Keys + {a, b, c, d}
      && r[a] == va && r[b] == vb && r[c] == vc && r[d] == vd
      && forall x :: x in m && x !in {a, b, c, d} ==> r[x] == m[x]
  {
  }

  lemma FeatureNamesDistinct()
    ensures forall c :: c in AmenityFeatures ==> c != "amenities" && c != "distance_to_sol_km"
  {
  }

  /** The feature columns survive assignments and drops of other columns. */
  lemma HasFeaturesKept(text: Column, u: Table, r: Table)
    requires HasFeatures(text, u)
    requires forall c :: c in AmenityFeatures ==> c in r.data && r.data[c] == u.data[c]
    ensures HasFeatures(text, r)
  {
    assert "has_ac" in AmenityFeatures && "has_pool" in AmenityFeatures;
    assert "has_elevator" in AmenityFeatures && "has_parking" in AmenityFeatures;
  }

  /** The features, then `drop(columns=['amenities'])`. */
  function FeaturesTable(t: Table): (r: Table)
    requires WellFormed(t) && "amenities" in t.data
    requires forall i :: 0 <= i < t.height ==> t.data["amenities"][i].Str?
    ensures WellFormed(r) && r.height == t.height
    ensures HasFeatures(t.data["amenities"], r)
    ensures forall c :: c in r.data <==> c != "amenities" && (c in t.data || c in AmenityFeatures)
    ensures Unchanged(t, r, {"amenities"} + AmenityFeatures)
  {
    var u := WithFeatures(t);
    var r := DropColumns(u, {"amenities"});
    FeatureNamesDistinct();
    HasFeaturesKept(t.data["amenities"], u, r);
    r
  }

  /** Every feature column holds 1 or 0. */
  lemma HasFeaturesFlag(text: Column, r: Table)
    requires HasFeatures(text, r)
    ensures forall c :: c in AmenityFeatures ==> c in r.data && AllHold(r.data[c], Flag)
  {
  }

  method AmenityFlags(t: Table) returns (r: Result<Table>)
    requires WellFormed(t)
    ensures r.Err? <==> "amenities" in t.data && exists i :: 0 <= i < t.height && !t.data["amenities"][i].Str?
    ensures "amenities" !in t.data ==> r == Ok(t)
    ensures r.Ok? ==> WellFormed(r.value) && r.value.height == t.height && "amenities" !in r.value.data
    ensures r.Ok? && "amenities" in t.data ==> HasFeatures(t.data["amenities"], r.value)
    ensures r.Ok? && "amenities" in t.data ==> forall c :: c in AmenityFeatures ==> c in r.value.data && AllHold(r.value.data[c], Flag)
    ensures r.Ok? ==> forall c :: c in r.value.data <==>
      c != "amenities" && (c in t.data || ("amenities" in t.data && c in AmenityFeatures))
    ensures r.Ok? ==> Unchanged(t, r.value, {"amenities"} + AmenityFeatures)
  {
    if "amenities" !in t.data {
      return Ok(t);
    }
    if exists i :: 0 <= i < t.height && !t.data["amenities"][i].Str? {
      return Err("ValueError: cannot convert float NaN to integer");
    }
    r := Ok(FeaturesTable(t));
    HasFeaturesFlag(t.data["amenities"], r.value);
  }

  // ---------------------------------------------------------------------
  // Step 10: distance to Puerta del Sol
  // ---------------------------------------------------------------------

  /** The haversine distance of one listing to Puerta del Sol; NaN coordinates give NaN. */
  function DistanceCell(lat: Value, lon: Value, dist: Distance): Value {
    if lat.Num? && lon.Num? then Num(dist(lat.x, lon.x, SolLat, SolLon)) else Null
  }

  method AddSolDistance(t: Table, dist: Distance) returns (r: Table)
    requires WellFormed(t)
    ensures WellFormed(r) && r.height == t.height
    ensures !("latitude" in t.data && "longitude" in t.data) ==> r == t
    ensures "latitude" in t.data && "longitude" in t.data ==>
      && "distance_to_sol_km" in r.data
      && forall i :: 0 <= i < t.height ==>
        r.data["distance_to_sol_km"][i] ==
          if t.data["latitude"][i].Num? && t.data["longitude"][i].Num?
          then Num(dist(t.data["latitude"][i].x, t.data["longitude"][i].x, SolLat, SolLon))
          else Null
    ensures forall c :: c in r.data <==> c in t.data || (c == "distance_to_sol_km" && "latitude" in t.data && "longitude" in t.data)
    ensures Unchanged(t, r, {"distance_to_sol_km"})
    ensures Located(t, r, dist)
  {
    r := t;
    if "latitude" in t.data && "longitude" in t.data {
      var lat, lon := t.data["latitude"], t.data["longitude"];
      r := SetColumn(t, "distance_to_sol_km", seq(t.height, i requires 0 <= i < t.height => DistanceCell(lat[i], lon[i], dist)));
    }
  }

  // ---------------------------------------------------------------------
  // The whole stage
  // ---------------------------------------------------------------------

  /** The columns steps 2 to 4 write are distinct. */
  lemma GapColumnsDistinct()
    ensures "host_response_time" !in ReviewColumns && "has_reviews" !in ReviewColumns
    ensures forall c :: c in RateColumns ==> c !in ColumnSet(ReviewColumns) + {"has_reviews", "host_response_time"}
  {
  }

  /** With a capacity column, each imputed column is complete, unless it never held a number at all. */
  ghost predicate Imputed(t: Table, r: Table) {
    "accommodates" in t.data ==> forall c :: c in ImputedColumns && c in r.data ==>
      AllHold(r.data[c], NotNull) || |Imputation.Numbers(r.data[c])| == 0
  }

  /** The distance column is the distance of each listing's own coordinates to Puerta del Sol. */
  ghost predicate Located(t: Table, r: Table, dist: Distance)
    requires WellFormed(r)
  {
    "latitude" in t.data && "longitude" in t.data ==>
      && "latitude" in r.data && "longitude" in r.data && "distance_to_sol_km" in r.data
      && forall i :: 0 <= i < r.height ==>
        r.data["distance_to_sol_km"][i] == DistanceCell(r.data["latitude"][i], r.data["longitude"][i], dist)
  }

  /** The columns steps 8 to 10 write are distinct, and distinct from the coordinates and the capacity they read. */
  lemma EnrichColumnsDistinct()
    ensures forall c :: c in ImputedColumns ==> c !in {"amenities", "distance_to_sol_km"} + AmenityFeatures
    ensures forall c :: c in ["latitude", "longitude", "accommodates"] ==>
      c !in ColumnSet(ImputedColumns) + {"amenities", "distance_to_sol_km"} + AmenityFeatures
  {
  }

  // ---------------------------------------------------------------------
  // What the stages compute, cell by cell
  // ---------------------------------------------------------------------

  /** A column step 0 drops is missing, so dropping it raises. */
  ghost predicate NoiseMissing(t: Table) {
    exists c :: c in ColumnsToDrop && c !in t.columns
  }

  /** A price text does not parse, so converting the price column raises. */
  ghost predicate PriceUnparsable(t: Table, parse: Parser) {
    "price" in t.data && exists i :: 0 <= i < |t.data["price"]| && PriceFails(t.data["price"][i], parse)
  }

  /** An amenities cell holds no text, so the text accessor of step 9 raises. */
  ghost predicate AmenitiesNotText(t: Table) {
    "amenities" in t.data && exists i :: 0 <= i < |t.data["amenities"]| && !t.data["amenities"][i].Str?
  }

  /** The columns steps 2 and 3 assign in `a`; `has_reviews` only when there is a monthly review rate. */
  function ReviewRewrites(a: Table): set<string> {
    ColumnSet(ReviewColumns) + {"host_response_time"} + (if "reviews_per_month" in a.data then {"has_reviews"} else {})
  }

  /** The columns steps 6 and 7 assign in `c`; `bathrooms` only when there is a `bathrooms_text`. */
  function EncodeRewrites(c: Table): set<string> {
    ColumnSet(BooleanColumns) + (if "bathrooms_text" in c.data then {"bathrooms", "bathrooms_text"} else {})
  }

  /** The columns steps 9 and 10 assign in `d`, each only when the column it reads is there. */
  function FeatureRewrites(d: Table): set<string> {
    (if "amenities" in d.data then {"amenities"} + AmenityFeatures else {})
    + (if "latitude" in d.data && "longitude" in d.data then {"distance_to_sol_km"} else {})
  }

  /** The columns steps 8 to 10 assign in `d`; the imputed ones only when there is a capacity. */
  function EnrichRewrites(d: Table): set<string> {
    (if "accommodates" in d.data then ColumnSet(ImputedColumns) else {}) + FeatureRewrites(d)
  }

  /**
   * Steps 0 and 1: the rows whose price converts, with the converted price,
   * and every other kept column cut to those rows.
   */
  ghost predicate PriceParsed(t: Table, a: Table, parse: Parser) {
    WellFormed(t) &&
    if "price" in t.data then
      var conv := PriceColumn(t.data["price"], parse);
      var mask := NotNullMask(conv);
      && "price" in a.data && a.data["price"] == Select(conv, mask)
      && forall c :: c in a.data && c != "price" ==> c in t.data && a.data[c] == Select(t.data[c], mask)
    else
      forall c :: c in a.data ==> c in t.data && a.data[c] == t.data[c]
  }

  /**
   * Steps 2 and 3: `has_reviews` is 1 exactly in the rows with a monthly
   * review rate, a missing review field is -1 and a missing response time
   * "Unknown"; every other review or response cell is kept, and every
   * other column is as it was.
   */
  ghost predicate ReviewValues(a: Table, b: Table) {
    && WellFormed(a) && WellFormed(b) && b.height == a.height
    && ("reviews_per_month" in a.data ==> "has_reviews" in b.data && forall i :: 0 <= i < a.height ==>
          (b.data["has_reviews"][i] == Num(1.0) <==> !a.data["reviews_per_month"][i].Null?))
    && (forall c, i :: c in ReviewColumns && c in a.data && 0 <= i < a.height ==>
          c in b.data && b.data[c][i] == if a.data[c][i].Null? then Num(Sentinel) else a.data[c][i])
    && ("host_response_time" in a.data ==> "host_response_time" in b.data && forall i :: 0 <= i < a.height ==>
          b.data["host_response_time"][i] ==
            if a.data["host_response_time"][i].Null? then Str("Unknown") else a.data["host_response_time"][i])
    && Unchanged(a, b, ReviewRewrites(a))
  }

  /** Step 4 on one rate column. */
  function RateColumn(s: Column, parse: Parser): (r: Column)
    ensures |r| == |s| && AllHold(r, Numeric)
  {
    seq(|s|, i requires 0 <= i < |s| => RateCell(s[i], parse))
  }

  /**
   * Steps 4 and 5: the rows with a value in every host column of `b`, with
   * the rates converted and every other column as it was.
   */
  ghost predicate HostValues(b: Table, c: Table, parse: Parser) {
    && WellFormed(b)
    && (forall x :: x in b.data && x !in RateColumns ==> x in c.data && c.data[x] == Select(b.data[x], HostMask(b)))
    && (forall x :: x in RateColumns && x in b.data ==>
          x in c.data && c.data[x] == Select(RateColumn(b.data[x], parse), HostMask(b)))
    && (forall x :: x in HostRequiredColumns && x in b.data ==> x in c.data && AllHold(c.data[x], NotNull))
  }

  /**
   * Steps 6 and 7: each boolean cell is coded (after the false fill where
   * that applies), `bathrooms` is the number read from `bathrooms_text`,
   * and every other column is as it was.
   */
  ghost predicate EncodeValues(c: Table, d: Table) {
    && WellFormed(c) && WellFormed(d) && d.height == c.height
    && (forall x, i :: x in BooleanColumns && x in c.data && 0 <= i < c.height ==>
          x in d.data && d.data[x][i] == BoolCode(if x in FillFalseColumns then FillF(c.data[x][i]) else c.data[x][i]))
    && ("bathrooms_text" in c.data ==> "bathrooms" in d.data && forall i :: 0 <= i < c.height ==>
          d.data["bathrooms"][i] == BathroomsCell(c.data["bathrooms_text"][i]))
    && Unchanged(c, d, EncodeRewrites(c))
  }

  /**
   * Steps 8 and 9: each imputed column is filled by the medians of its
   * capacity groups, and the feature columns flag the amenity texts; every
   * column steps 8 to 10 do not assign is as it was.
   */
  ghost predicate EnrichValues(d: Table, e: Table) {
    && WellFormed(d)
    && ("accommodates" in d.data ==> forall x :: x in ImputedColumns && x in d.data ==>
          x in e.data && e.data[x] == Imputation.Impute(d.data["accommodates"], d.data[x]))
    && ("amenities" in d.data ==> HasFeatures(d.data["amenities"], e))
    && Unchanged(d, e, EnrichRewrites(d))
  }

  /** The host columns step 5 reads are not rates, so step 4 leaves the surviving rows as they were. */
  lemma HostMaskAfterRates(b: Table, r: Table)
    requires WellFormed(b) && WellFormed(r) && r.columns == b.columns && r.height == b.height
    requires Unchanged(b, r, ColumnSet(RateColumns))
    ensures HostMask(r) == HostMask(b)
  {
    var present := Present(HostRequiredColumns, b.columns);
    HostsAreNotRates();
    assert forall x :: x in present ==> r.data[x] == b.data[x];
    forall i | 0 <= i < b.height ensures HostMask(r)[i] == HostMask(b)[i] {
    }
  }

  lemma HostsAreNotRates()
    ensures forall x :: x in HostRequiredColumns ==> x !in RateColumns
  {
  }

  /** Steps 0 and 1. */
  method DropAndPrice(t: Table, parse: Parser) returns (r: Result<Table>)
    requires WellFormed(t)
    ensures r.Err? <==> NoiseMissing(t) || PriceUnparsable(t, parse)
    ensures r.Ok? ==> Prepared(Airbnb, t, r.value) && PriceParsed(t, r.value, parse)
  {
    var dropped := DropNoiseColumns(t);
    if dropped.Err? {
      return dropped;
    }
    var d := dropped.value;
    KeptSingles();
    assert "price" in d.data <==> "price" in t.data;
    r := ParsePrice(d, parse);
    if r.Ok? {
      DropAndPriceStage(t, r.value);
    }
  }

  /** Steps 2 and 3. */
  method FillReviewGaps(t: Table) returns (r: Table)
    requires WellFormed(t)
    ensures ReviewsFilled(Airbnb, t, r)
    ensures ReviewValues(t, r)
  {
    var flagged := AddReviewFlag(t);
    var filled := FillReviewScores(flagged);
    r := FillResponseTime(filled);
    GapColumnsDistinct();
    UnchangedKeepsKinds(t, flagged, {"has_reviews"});
    UnchangedKeepsKinds(flagged, filled, ColumnSet(ReviewColumns));
    UnchangedKeepsKinds(filled, r, {"host_response_time"});
    KindsKeptChain(t, flagged, filled, {"has_reviews"}, ColumnSet(ReviewColumns));
    KindsKeptChain(t, filled, r, {"has_reviews"} + ColumnSet(ReviewColumns), {"host_response_time"});
    assert {"has_reviews"} + ColumnSet(ReviewColumns) + {"host_response_time"} == ColumnSet(ReviewColumns) + {"has_reviews", "host_response_time"};
    FillReviewGapsStage(t, r);
    ReviewStepsValues(t, flagged, filled, r);
  }

  /** What steps 2 and 3 do to each cell, from what each of their three assignments does. */
  lemma ReviewStepsValues(t: Table, flagged: Table, filled: Table, r: Table)
    requires WellFormed(t) && WellFormed(flagged) && WellFormed(filled) && WellFormed(r)
    requires flagged.height == t.height && filled.height == t.height && r.height == t.height
    requires "reviews_per_month" in t.data ==> "has_reviews" in flagged.data && forall i :: 0 <= i < t.height ==>
      (flagged.data["has_reviews"][i] == Num(1.0) <==> !t.data["reviews_per_month"][i].Null?)
    requires Unchanged(t, flagged, {"has_reviews"})
    requires "reviews_per_month" !in t.data ==> flagged == t
    requires forall c :: c in ReviewColumns && c in flagged.data ==> c in filled.data
    requires forall c, i :: c in ReviewColumns && c in flagged.data && 0 <= i < t.height ==>
      filled.data[c][i] == if flagged.data[c][i].Null? then Num(Sentinel) else flagged.data[c][i]
    requires Unchanged(flagged, filled, ColumnSet(ReviewColumns))
    requires forall c :: c in filled.data ==> c in r.data
    requires "host_response_time" in filled.data ==> forall i :: 0 <= i < t.height ==>
      r.data["host_response_time"][i] == if filled.data["host_response_time"][i].Null? then Str("Unknown") else filled.data["host_response_time"][i]
    requires Unchanged(filled, r, {"host_response_time"})
    ensures ReviewValues(t, r)
  {
    GapColumnsDistinct();
    ReviewFrame(t, flagged, filled, r);
  }

  /** Steps 2 and 3 leave every column they do not assign as it was. */
  lemma ReviewFrame(t: Table, flagged: Table, filled: Table, r: Table)
    requires Unchanged(t, flagged, {"has_reviews"})
    requires "reviews_per_month" !in t.data ==> flagged == t
    requires Unchanged(flagged, filled, ColumnSet(ReviewColumns))
    requires Unchanged(filled, r, {"host_response_time"})
    ensures Unchanged(t, r, ReviewRewrites(t))
  {
    var flag := if "reviews_per_month" in t.data then {"has_reviews"} else {};
    assert Unchanged(t, flagged, flag);
    UnchangedChain(t, flagged, filled, flag, ColumnSet(ReviewColumns));
    UnchangedChain(t, filled, r, flag + ColumnSet(ReviewColumns), {"host_response_time"});
    assert flag + ColumnSet(ReviewColumns) + {"host_response_time"} == ReviewRewrites(t);
  }

  /** Steps 4 and 5. */
  method FillHostGaps(t: Table, parse: Parser) returns (r: Table)
    requires WellFormed(t)
    ensures HostsFilled(Airbnb, t, r)
    ensures HostValues(t, r, parse)
  {
    var t4 := ParseRates(t, parse);
    r := DropGhostHosts(t4);
    HostMaskAfterRates(t, t4);
    forall x | x in RateColumns && x in t.data ensures t4.data[x] == RateColumn(t.data[x], parse) {
    }
    UnchangedKeepsKinds(t, t4, ColumnSet(RateColumns));
    SelectKeepsKinds(t4, r, HostMask(t4));
    KindsKeptChain(t, t4, r, ColumnSet(RateColumns), {});
    assert ColumnSet(RateColumns) + {} == ColumnSet(RateColumns);
    assert "host_since" in HostRequiredColumns;
    FillHostGapsStage(t, r);
  }

  /** Steps 6 and 7. */
  method EncodeAndExtract(t: Table) returns (r: Table)
    requires WellFormed(t)
    ensures EncodedExtracted(Airbnb, t, r)
    ensures EncodeValues(t, r)
  {
    var t6 := EncodeBooleans(t);
    r := ExtractBathrooms(t6);
    assert "bathrooms" !in BooleanColumns && "bathrooms_text" !in BooleanColumns;
    UnchangedKeepsKinds(t, t6, ColumnSet(BooleanColumns));
    UnchangedKeepsKinds(t6, r, {"bathrooms", "bathrooms_text"});
    KindsKeptChain(t, t6, r, ColumnSet(BooleanColumns), {"bathrooms", "bathrooms_text"});
    EncodeAndExtractStage(t, r);
    EncodeFrame(t, t6, r);
  }

  /** Steps 6 and 7 leave every column they do not assign as it was. */
  lemma EncodeFrame(t: Table, t6: Table, r: Table)
    requires forall c :: c in t6.data <==> c in t.data
    requires Unchanged(t, t6, ColumnSet(BooleanColumns))
    requires Unchanged(t6, r, {"bathrooms", "bathrooms_text"})
    requires "bathrooms_text" !in t6.data ==> r == t6
    ensures Unchanged(t, r, EncodeRewrites(t))
  {
    var text := if "bathrooms_text" in t.data then {"bathrooms", "bathrooms_text"} else {};
    assert Unchanged(t6, r, text);
    UnchangedChain(t, t6, r, ColumnSet(BooleanColumns), text);
  }

  /** Steps 9 and 10 leave every column they do not assign as it was. */
  lemma FeatureFrame(t: Table, t9: Table, t10: Table)
    requires "amenities" !in t.data ==> t9 == t
    requires Unchanged(t, t9, {"amenities"} + AmenityFeatures)
    requires ("latitude" in t9.data <==> "latitude" in t.data) && ("longitude" in t9.data <==> "longitude" in t.data)
    requires !("latitude" in t9.data && "longitude" in t9.data) ==> t10 == t9
    requires Unchanged(t9, t10, {"distance_to_sol_km"})
    ensures Unchanged(t, t10, FeatureRewrites(t))
  {
    var flags := if "amenities" in t.data then {"amenities"} + AmenityFeatures else {};
    var located := if "latitude" in t9.data && "longitude" in t9.data then {"distance_to_sol_km"} else {};
    assert Unchanged(t, t9, flags);
    assert Unchanged(t9, t10, located);
    UnchangedChain(t, t9, t10, flags, located);
  }

  /** Steps 8 to 10 leave every column they do not assign as it was. */
  lemma EnrichFrame(t: Table, t8: Table, e: Table)
    requires "accommodates" !in t.data ==> t8 == t
    requires Unchanged(t, t8, ColumnSet(ImputedColumns))
    requires forall c :: c in t8.data <==> c in t.data
    requires Unchanged(t8, e, FeatureRewrites(t8))
    ensures Unchanged(t, e, EnrichRewrites(t))
  {
    var imputed := if "accommodates" in t.data then ColumnSet(ImputedColumns) else {};
    assert Unchanged(t, t8, imputed);
    assert FeatureRewrites(t8) == FeatureRewrites(t);
    UnchangedChain(t, t8, e, imputed, FeatureRewrites(t));
  }

  /** Steps 9 and 10 do not touch the imputed columns, so what step 8 left in them stays. */
  lemma ImputedKept(t: Table, t8: Table, e: Table)
    requires Imputed(t, t8) && Unchanged(t8, e, FeatureRewrites(t8))
    requires forall c :: c in ImputedColumns && c in e.data ==> c in t8.data
    ensures Imputed(t, e)
  {
    EnrichColumnsDistinct();
    forall c | "accommodates" in t.data && c in ImputedColumns && c in e.data
      ensures AllHold(e.data[c], NotNull) || |Imputation.Numbers(e.data[c])| == 0
    {
      assert e.data[c] == t8.data[c];
    }
  }

  /** What steps 8 to 10 leave unchanged keeps its kinds, whichever columns they read are there. */
  lemma EnrichKinds(t: Table, e: Table)
    requires Unchanged(t, e, EnrichRewrites(t))
    ensures KindsKept(t, e, ColumnSet(ImputedColumns) + ({"amenities", "distance_to_sol_km"} + AmenityFeatures))
  {
    UnchangedWiden(t, e, EnrichRewrites(t), ColumnSet(ImputedColumns) + ({"amenities", "distance_to_sol_km"} + AmenityFeatures));
    UnchangedKeepsKinds(t, e, ColumnSet(ImputedColumns) + ({"amenities", "distance_to_sol_km"} + AmenityFeatures));
  }

  /** Step 8 leaves each imputed column complete, or without any number at all. */
  lemma ImputationCompletes(t: Table, r: Table)
    requires WellFormed(t) && WellFormed(r) && r.height == t.height
    requires "accommodates" in t.data ==> forall c :: c in ImputedColumns && c in t.data ==>
      c in r.data && r.data[c] == Imputation.Impute(t.data["accommodates"], t.data[c])
    requires forall c :: c in r.data <==> c in t.data
    ensures Imputed(t, r)
  {
    forall c | "accommodates" in t.data && c in ImputedColumns && c in r.data
      ensures AllHold(r.data[c], NotNull) || |Imputation.Numbers(r.data[c])| == 0
    {
      var vals := t.data[c];
      if |Imputation.Numbers(vals)| > 0 {
        Imputation.ImputeComplete(t.data["accommodates"], vals);
      } else {
        Imputation.ImputeNoNumbers(t.data["accommodates"], vals);
      }
    }
  }

  /** Steps 9 and 10. */
  method FeaturesAndDistance(t: Table, dist: Distance) returns (r: Result<Table>)
    requires WellFormed(t)
    ensures r.Err? <==> "amenities" in t.data && exists i :: 0 <= i < t.height && !t.data["amenities"][i].Str?
    ensures r.Ok? ==> WellFormed(r.value) && r.value.height == t.height
    ensures r.Ok? ==> forall c :: c in r.value.data <==>
      && c != "amenities"
      && (|| c in t.data
          || ("amenities" in t.data && c in AmenityFeatures)
          || (c == "distance_to_sol_km" && "latitude" in t.data && "longitude" in t.data))
    ensures r.Ok? && "amenities" in t.data ==> forall c :: c in AmenityFeatures ==> AllHold(r.value.data[c], Flag)
    ensures r.Ok? && "amenities" in t.data ==> HasFeatures(t.data["amenities"], r.value)
    ensures r.Ok? ==> Located(t, r.value, dist)
    ensures r.Ok? ==> Unchanged(t, r.value, FeatureRewrites(t))
  {
    var featured := AmenityFlags(t);
    if featured.Err? {
      return featured;
    }
    var t9 := featured.value;
    EnrichColumnsDistinct();
    FeatureNamesDistinct();
    assert "latitude" in t.data <==> "latitude" in t9.data;
    assert "longitude" in t.data <==> "longitude" in t9.data;
    var t10 := AddSolDistance(t9, dist);
    r := Ok(t10);
    if "amenities" in t.data {
      HasFeaturesKept(t.data["amenities"], t9, t10);
    }
    FeatureFrame(t, t9, t10);
  }

  /** Steps 8 to 10. */
  method Enrich(t: Table, dist: Distance) returns (r: Result<Table>)
    requires WellFormed(t)
    ensures r.Err? <==> "amenities" in t.data && exists i :: 0 <= i < t.height && !t.data["amenities"][i].Str?
    ensures r.Ok? ==> WellFormed(r.value) && r.value.height == t.height
    ensures r.Ok? ==> forall c :: c in r.value.data <==>
      && c != "amenities"
      && (|| c in t.data
          || ("amenities" in t.data && c in AmenityFeatures)
          || (c == "distance_to_sol_km" && "latitude" in t.data && "longitude" in t.data))
    ensures r.Ok? ==> Enriched(Airbnb, t, r.value)
    ensures r.Ok? ==> Imputed(t, r.value) && EnrichValues(t, r.value)
    ensures r.Ok? ==> Located(t, r.value, dist)
  {
    var t8 := ImputeByCapacity(t);
    ImputationCompletes(t, t8);
    EnrichColumnsDistinct();
    assert "amenities" !in ImputedColumns;
    r := FeaturesAndDistance(t8, dist);
    if r.Ok? {
      EnrichSteps(t, t8, r.value);
    }
  }

  /** Steps 8 to 10 compose to the stage's guarantees, from what step 8 and steps 9 and 10 each ensure. */
  lemma EnrichSteps(t: Table, t8: Table, e: Table)
    requires WellFormed(t) && WellFormed(t8) && t8.columns == t.columns && t8.height == t.height
    requires "accommodates" !in t.data ==> t8 == t
    requires "accommodates" in t.data ==> forall c :: c in ImputedColumns && c in t.data ==>
      c in t8.data && t8.data[c] == Imputation.Impute(t.data["accommodates"], t.data[c])
    requires Unchanged(t, t8, ColumnSet(ImputedColumns)) && Imputed(t, t8)
    requires WellFormed(e) && e.height == t8.height
    requires forall c :: c in e.data <==>
      && c != "amenities"
      && (|| c in t8.data
          || ("amenities" in t8.data && c in AmenityFeatures)
          || (c == "distance_to_sol_km" && "latitude" in t8.data && "longitude" in t8.data))
    requires "amenities" in t8.data ==> forall c :: c in AmenityFeatures ==> AllHold(e.data[c], Flag)
    requires "amenities" in t8.data ==> HasFeatures(t8.data["amenities"], e)
    requires Unchanged(t8, e, FeatureRewrites(t8))
    ensures Enriched(Airbnb, t, e)
    ensures Imputed(t, e) && EnrichValues(t, e)
  {
    EnrichColumnsDistinct();
    ImputedKept(t, t8, e);
    EnrichFrame(t, t8, e);
    EnrichKinds(t, e);
    EnrichStage(t, e);
  }

  // ---------------------------------------------------------------------
  // How the stages' guarantees compose
  // ---------------------------------------------------------------------

  /**
   * The column names the composition of the stages depends on.  That the
   * stages' guarantees add up needs only the distinctness facts `Separated`
   * lists; `Airbnb` holds the source's own names.
   */
  datatype Names = Names(
    drop: set<string>, reviews: set<string>, rates: set<string>, booleans: set<string>,
    imputed: set<string>, features: set<string>,
    price: string, hasReviews: string, reviewsPerMonth: string, responseTime: string,
    hostSince: string, bathrooms: string, bathroomsText: string, amenities: string,
    distance: string, latitude: string, longitude: string, accommodates: string)

  const Airbnb: Names := Names(
    ColumnsToDrop, ColumnSet(ReviewColumns), ColumnSet(RateColumns), ColumnSet(BooleanColumns),
    ColumnSet(ImputedColumns), AmenityFeatures,
    "price", "has_reviews", "reviews_per_month", "host_response_time",
    "host_since", "bathrooms", "bathrooms_text", "amenities",
    "distance_to_sol_km", "latitude", "longitude", "accommodates")

  // The columns each stage after the first may rewrite.
  function ReviewWrites(n: Names): set<string> { n.reviews + {n.hasReviews, n.responseTime} }
  function HostWrites(n: Names): set<string> { n.rates }
  function EncodeWrites(n: Names): set<string> { n.booleans + {n.bathrooms, n.bathroomsText} }
  function EnrichWrites(n: Names): set<string> { n.imputed + ({n.amenities, n.distance} + n.features) }

  /** The columns the stage creates. */
  function Added(n: Names): set<string> { {n.hasReviews, n.bathrooms, n.distance} + n.features }

  ghost predicate Separated(n: Names) {
    KeptNames(n) && WritesSeparated(n) && TextsSeparated(n)
  }

  /** Only the empty `bathrooms` is noise among the names the stage relies on. */
  ghost predicate KeptNames(n: Names) {
    && n.bathrooms in n.drop
    && (forall c :: c in n.reviews ==> c !in n.drop)
    && (forall c :: c in n.rates ==> c !in n.drop)
    && (forall c :: c in n.booleans ==> c !in n.drop)
    && (forall c :: c in n.features ==> c !in n.drop)
    && n.price !in n.drop && n.hasReviews !in n.drop && n.responseTime !in n.drop
    && n.hostSince !in n.drop && n.bathroomsText !in n.drop && n.amenities !in n.drop
    && n.distance !in n.drop && n.latitude !in n.drop && n.longitude !in n.drop
    && n.accommodates !in n.drop
    && n.reviewsPerMonth in n.reviews
  }

  /** What a step establishes no later step rewrites. */
  ghost predicate WritesSeparated(n: Names) {
    && (forall c :: c in ReviewWrites(n) ==> c !in HostWrites(n))
    && (forall c :: c in ReviewWrites(n) ==> c !in EncodeWrites(n))
    && (forall c :: c in ReviewWrites(n) ==> c !in EnrichWrites(n))
    && (forall c :: c in n.rates + {n.hostSince} ==> c !in EncodeWrites(n))
    && (forall c :: c in n.rates + {n.hostSince} ==> c !in EnrichWrites(n))
    && n.price !in ReviewWrites(n) && n.price !in HostWrites(n)
    && n.price !in EncodeWrites(n) && n.price !in EnrichWrites(n)
    && (forall c :: c in n.booleans ==> c !in EnrichWrites(n))
    && n.bathroomsText !in n.booleans
  }

  /** The raw texts, the created columns and the inputs of steps 8 to 10 are distinct. */
  ghost predicate TextsSeparated(n: Names) {
    && n.bathroomsText !in n.features && n.amenities !in n.features
    && n.bathroomsText != n.hasReviews && n.bathroomsText != n.distance
    && n.amenities != n.hasReviews && n.amenities != n.bathrooms && n.amenities != n.distance
    && n.bathroomsText != n.latitude && n.bathroomsText != n.longitude && n.bathroomsText != n.accommodates
    && n.amenities != n.latitude && n.amenities != n.longitude && n.amenities != n.accommodates
    && n.bathroomsText != n.amenities
    && n.hasReviews != n.latitude && n.hasReviews != n.longitude && n.hasReviews != n.accommodates
    && n.amenities !in n.reviews && n.amenities !in n.rates && n.amenities !in n.booleans
    && n.amenities != n.responseTime
  }

  /** The columns the stage leaves: the kept non-noise columns and the derived ones, never the raw texts. */
  ghost predicate Produced(n: Names, t: Table, c: string) {
    && c != n.amenities && c != n.bathroomsText
    && (|| (c in t.data && c !in n.drop)
        || (c == n.hasReviews && n.reviewsPerMonth in t.data)
        || (c == n.bathrooms && n.bathroomsText in t.data)
        || (n.amenities in t.data && c in n.features)
        || (c == n.distance && n.latitude in t.data && n.longitude in t.data))
  }

  /** No noise column is left but the re-created `bathrooms`; the raw bathroom and amenity texts are gone. */
  ghost predicate NoiseRemoved(n: Names, t: Table, r: Table) {
    && (forall c :: c in r.data ==> (c in t.data && c !in n.drop) || c in Added(n))
    && n.bathroomsText !in r.data && n.amenities !in r.data
    && (n.bathrooms in r.data <==> n.bathroomsText in t.data)
  }

  /** Every remaining listing has a price, and the review, response, rate and host-age columns have no gaps. */
  ghost predicate GapsFilled(n: Names, t: Table, r: Table) {
    && (n.price in t.data ==> n.price in r.data && AllHold(r.data[n.price], NotNull))
    && (forall c :: c in n.reviews && c in t.data ==> c in r.data && AllHold(r.data[c], NotNull))
    && (n.reviewsPerMonth in t.data ==> n.hasReviews in r.data && AllHold(r.data[n.hasReviews], Flag))
    && (n.responseTime in t.data ==> n.responseTime in r.data && AllHold(r.data[n.responseTime], NotNull))
    && (forall c :: c in n.rates && c in t.data ==> c in r.data && AllHold(r.data[c], Numeric))
    && (n.hostSince in t.data ==> n.hostSince in r.data && AllHold(r.data[n.hostSince], NotNull))
  }

  /** Booleans are 1/0 (or missing for an unrecognised value), amenity features are 1/0. */
  ghost predicate Encoded(n: Names, t: Table, r: Table) {
    && (forall c :: c in n.booleans && c in t.data ==> c in r.data && AllHold(r.data[c], FlagOrNull))
    && (n.amenities in t.data ==> forall c :: c in n.features ==> c in r.data && AllHold(r.data[c], Flag))
  }

  // What each stage guarantees, over the names of `n`.

  ghost predicate Prepared(n: Names, t: Table, a: Table) {
    && WellFormed(a) && a.height <= t.height
    && (forall c :: c in a.data <==> c in t.data && c !in n.drop)
    && (n.price in t.data && n.price !in n.drop ==> AllHold(a.data[n.price], NotNull))
  }

  ghost predicate ReviewsFilled(n: Names, a: Table, b: Table) {
    && WellFormed(b) && b.height == a.height
    && (forall c :: c in b.data <==> c in a.data || (c == n.hasReviews && n.reviewsPerMonth in a.data))
    && (forall c :: c in n.reviews && c in a.data ==> AllHold(b.data[c], NotNull))
    && (n.reviewsPerMonth in a.data ==> AllHold(b.data[n.hasReviews], Flag))
    && (n.responseTime in a.data ==> AllHold(b.data[n.responseTime], NotNull))
    && KindsKept(a, b, ReviewWrites(n))
  }

  ghost predicate HostsFilled(n: Names, b: Table, c: Table) {
    && WellFormed(c) && c.height <= b.height
    && (forall x :: x in c.data <==> x in b.data)
    && (forall x :: x in n.rates && x in b.data ==> AllHold(c.data[x], Numeric))
    && (n.hostSince in b.data ==> AllHold(c.data[n.hostSince], NotNull))
    && KindsKept(b, c, HostWrites(n))
  }

  ghost predicate EncodedExtracted(n: Names, c: Table, d: Table) {
    && WellFormed(d) && d.height == c.height
    && (forall x :: x in d.data <==> x != n.bathroomsText && (x in c.data || (x == n.bathrooms && n.bathroomsText in c.data)))
    && (forall x :: x in n.booleans && x in c.data ==> x in d.data && AllHold(d.data[x], FlagOrNull))
    && KindsKept(c, d, EncodeWrites(n))
  }

  ghost predicate Enriched(n: Names, d: Table, e: Table) {
    && WellFormed(e) && e.height == d.height
    && (forall x :: x in e.data <==>
          && x != n.amenities
          && (|| x in d.data
              || (n.amenities in d.data && x in n.features)
              || (x == n.distance && n.latitude in d.data && n.longitude in d.data)))
    && (n.amenities in d.data ==> forall x :: x in n.features ==> x in e.data && AllHold(e.data[x], Flag))
    && KindsKept(d, e, EnrichWrites(n))
  }

  /** A column after steps 2 and 3 (and 4 and 5, which keep the names). */
  ghost predicate AfterReviews(n: Names, t: Table, c: string) {
    || (c in t.data && c !in n.drop)
    || (c == n.hasReviews && n.reviewsPerMonth in t.data)
  }

  /** A column after steps 6 and 7. */
  ghost predicate AfterExtract(n: Names, t: Table, c: string) {
    && c != n.bathroomsText
    && (|| AfterReviews(n, t, c)
        || (c == n.bathrooms && n.bathroomsText in t.data))
  }

  lemma ColumnsToReviews(n: Names, t: Table, t1: Table, t2: Table)
    requires Separated(n)
    requires forall c :: c in t1.data <==> c in t.data && c !in n.drop
    requires forall c :: c in t2.data <==> c in t1.data || (c == n.hasReviews && n.reviewsPerMonth in t1.data)
    ensures forall c :: c in t2.data <==> AfterReviews(n, t, c)
  {
  }

  lemma ColumnsToExtract(n: Names, t: Table, t3: Table, t4: Table)
    requires Separated(n)
    requires forall c :: c in t3.data <==> AfterReviews(n, t, c)
    requires forall c :: c in t4.data <==> c != n.bathroomsText && (c in t3.data || (c == n.bathrooms && n.bathroomsText in t3.data))
    ensures forall c :: c in t4.data <==> AfterExtract(n, t, c)
    ensures n.accommodates in t4.data <==> n.accommodates in t.data
    ensures n.latitude in t4.data <==> n.latitude in t.data
    ensures n.longitude in t4.data <==> n.longitude in t.data
    ensures n.amenities in t4.data <==> n.amenities in t.data
  {
  }

  lemma ColumnsToEnrich(n: Names, t: Table, t4: Table, e: Table)
    requires Separated(n)
    requires forall c :: c in t4.data <==> AfterExtract(n, t, c)
    requires n.latitude in t4.data <==> n.latitude in t.data
    requires n.longitude in t4.data <==> n.longitude in t.data
    requires n.amenities in t4.data <==> n.amenities in t.data
    requires forall c :: c in e.data <==>
      && c != n.amenities
      && (|| c in t4.data
          || (n.amenities in t4.data && c in n.features)
          || (c == n.distance && n.latitude in t4.data && n.longitude in t4.data))
    ensures forall c :: c in e.data <==> Produced(n, t, c)
  {
  }

  /** Tracks every column name through the five stages. */
  lemma ColumnsFlow(n: Names, t: Table, t1: Table, t2: Table, t3: Table, t4: Table, e: Table)
    requires Separated(n)
    requires Prepared(n, t, t1) && ReviewsFilled(n, t1, t2) && HostsFilled(n, t2, t3)
    requires EncodedExtracted(n, t3, t4) && Enriched(n, t4, e)
    ensures forall c :: c in e.data <==> Produced(n, t, c)
    ensures n.accommodates in t4.data <==> n.accommodates in t.data
    ensures n.latitude in t4.data <==> n.latitude in t.data
    ensures n.longitude in t4.data <==> n.longitude in t.data
    ensures n.amenities in t4.data <==> n.amenities in t.data
  {
    ColumnsToReviews(n, t, t1, t2);
    ColumnsToExtract(n, t, t3, t4);
    ColumnsToEnrich(n, t, t4, e);
  }

  /** The kinds each gap-filling step establishes survive the later stages. */
  lemma GapsFlow(n: Names, t: Table, t1: Table, t2: Table, t3: Table, t4: Table, e: Table)
    requires Separated(n)
    requires Prepared(n, t, t1) && ReviewsFilled(n, t1, t2) && HostsFilled(n, t2, t3)
    requires EncodedExtracted(n, t3, t4) && Enriched(n, t4, e)
    ensures GapsFilled(n, t, e)
  {
    var later := EncodeWrites(n) + EnrichWrites(n);
    KindsKeptChain(t3, t4, e, EncodeWrites(n), EnrichWrites(n));
    KindsKeptChain(t2, t3, e, HostWrites(n), later);
    KindsKeptChain(t1, t2, e, ReviewWrites(n), HostWrites(n) + later);
    ReviewGapsFlow(n, t, t1, t2, e);
    HostGapsFlow(n, t, t1, t2, t3, e);
  }

  /** The price and review columns, filled by steps 1 to 3, stay filled. */
  lemma ReviewGapsFlow(n: Names, t: Table, t1: Table, t2: Table, e: Table)
    requires Separated(n) && Prepared(n, t, t1) && ReviewsFilled(n, t1, t2)
    requires KindsKept(t1, e, ReviewWrites(n) + (HostWrites(n) + (EncodeWrites(n) + EnrichWrites(n))))
    requires KindsKept(t2, e, HostWrites(n) + (EncodeWrites(n) + EnrichWrites(n)))
    ensures n.price in t.data ==> n.price in e.data && AllHold(e.data[n.price], NotNull)
    ensures forall c :: c in n.reviews && c in t.data ==> c in e.data && AllHold(e.data[c], NotNull)
    ensures n.reviewsPerMonth in t.data ==> n.hasReviews in e.data && AllHold(e.data[n.hasReviews], Flag)
    ensures n.responseTime in t.data ==> n.responseTime in e.data && AllHold(e.data[n.responseTime], NotNull)
  {
    var later := HostWrites(n) + (EncodeWrites(n) + EnrichWrites(n));
    if n.price in t.data {
      assert n.price in t1.data && n.price !in ReviewWrites(n) + later;
      KindKept(t1, e, ReviewWrites(n) + later, n.price, NotNull);
    }
    forall c | c in n.reviews && c in t.data ensures c in e.data && AllHold(e.data[c], NotNull) {
      assert c in t1.data && c in ReviewWrites(n) && c !in later;
      KindKept(t2, e, later, c, NotNull);
    }
    if n.reviewsPerMonth in t.data {
      assert n.reviewsPerMonth in t1.data && n.hasReviews !in later;
      KindKept(t2, e, later, n.hasReviews, Flag);
    }
    if n.responseTime in t.data {
      assert n.responseTime in t1.data && n.responseTime !in later;
      KindKept(t2, e, later, n.responseTime, NotNull);
    }
  }

  /** The rate and host-age columns, filled by steps 4 and 5, stay filled. */
  lemma HostGapsFlow(n: Names, t: Table, t1: Table, t2: Table, t3: Table, e: Table)
    requires Separated(n) && Prepared(n, t, t1)
    requires forall c :: c in t1.data ==> c in t2.data
    requires HostsFilled(n, t2, t3)
    requires KindsKept(t3, e, EncodeWrites(n) + EnrichWrites(n))
    ensures forall c :: c in n.rates && c in t.data ==> c in e.data && AllHold(e.data[c], Numeric)
    ensures n.hostSince in t.data ==> n.hostSince in e.data && AllHold(e.data[n.hostSince], NotNull)
  {
    var later := EncodeWrites(n) + EnrichWrites(n);
    forall c | c in n.rates && c in t.data ensures c in e.data && AllHold(e.data[c], Numeric) {
      assert c in t2.data && c in n.rates + {n.hostSince} && c !in later;
      KindKept(t3, e, later, c, Numeric);
    }
    if n.hostSince in t.data {
      assert n.hostSince in t2.data && n.hostSince in n.rates + {n.hostSince} && n.hostSince !in later;
      KindKept(t3, e, later, n.hostSince, NotNull);
    }
  }

  /** The encoded booleans survive steps 8 to 10; the amenity flags are made last. */
  lemma EncodedFlow(n: Names, t: Table, t1: Table, t2: Table, t3: Table, t4: Table, e: Table)
    requires Separated(n)
    requires Prepared(n, t, t1) && ReviewsFilled(n, t1, t2) && HostsFilled(n, t2, t3)
    requires EncodedExtracted(n, t3, t4) && Enriched(n, t4, e)
    requires n.amenities in t4.data <==> n.amenities in t.data
    ensures Encoded(n, t, e)
  {
    forall c | c in n.booleans && c in t.data ensures c in e.data && AllHold(e.data[c], FlagOrNull) {
      assert c in t1.data && c in t2.data && c in t3.data;
      KindKept(t4, e, EnrichWrites(n), c, FlagOrNull);
    }
  }

  lemma KindKept(t: Table, r: Table, changed: set<string>, c: string, k: Kind)
    requires KindsKept(t, r, changed) && c in t.data && c !in changed && AllHold(t.data[c], k)
    ensures c in r.data && AllHold(r.data[c], k)
  {
  }

  /** The column characterisation rules out every noise column but the re-created `bathrooms`. */
  lemma NoiseRemovedFromColumns(n: Names, t: Table, e: Table)
    requires Separated(n)
    requires forall c :: c in e.data <==> Produced(n, t, c)
    ensures NoiseRemoved(n, t, e)
  {
  }

  /** Steps 8 to 10 see the same capacity and coordinate columns as the raw table. */
  lemma EnrichedFlow(t: Table, t4: Table, e: Table, dist: Distance)
    requires WellFormed(e)
    requires Airbnb.accommodates in t4.data <==> Airbnb.accommodates in t.data
    requires Airbnb.latitude in t4.data <==> Airbnb.latitude in t.data
    requires Airbnb.longitude in t4.data <==> Airbnb.longitude in t.data
    requires Imputed(t4, e) && Located(t4, e, dist)
    ensures Imputed(t, e) && Located(t, e, dist)
  {
  }

  /** The five stages' guarantees add up to the whole stage's. */
  lemma StagesCompose(n: Names, t: Table, t1: Table, t2: Table, t3: Table, t4: Table, e: Table)
    requires Separated(n)
    requires Prepared(n, t, t1) && ReviewsFilled(n, t1, t2) && HostsFilled(n, t2, t3)
    requires EncodedExtracted(n, t3, t4) && Enriched(n, t4, e)
    ensures WellFormed(e) && e.height <= t.height
    ensures forall c :: c in e.data <==> Produced(n, t, c)
    ensures NoiseRemoved(n, t, e) && GapsFilled(n, t, e) && Encoded(n, t, e)
    ensures n.accommodates in t4.data <==> n.accommodates in t.data
    ensures n.latitude in t4.data <==> n.latitude in t.data
    ensures n.longitude in t4.data <==> n.longitude in t.data
  {
    ColumnsFlow(n, t, t1, t2, t3, t4, e);
    NoiseRemovedFromColumns(n, t, e);
    GapsFlow(n, t, t1, t2, t3, t4, e);
    EncodedFlow(n, t, t1, t2, t3, t4, e);
  }

  /** Steps 2 to 7 leave the amenity texts alone: what held of all of them after step 1 holds when step 9 reads them. */
  lemma AmenitiesReachFeatures(n: Names, t1: Table, t2: Table, t3: Table, t4: Table, k: Kind)
    requires n.amenities !in ReviewWrites(n) && n.amenities !in HostWrites(n) && n.amenities !in EncodeWrites(n)
    requires n.amenities != n.hasReviews && n.amenities != n.bathrooms
    requires ReviewsFilled(n, t1, t2) && HostsFilled(n, t2, t3) && EncodedExtracted(n, t3, t4)
    requires n.amenities in t4.data
    ensures n.amenities in t1.data
    ensures AllHold(t1.data[n.amenities], k) ==> AllHold(t4.data[n.amenities], k)
  {
  }

  /** No stage before step 9 writes the amenity texts. */
  lemma AirbnbAmenitiesKept()
    ensures Airbnb.amenities == "amenities"
    ensures Airbnb.amenities !in ReviewWrites(Airbnb) && Airbnb.amenities !in HostWrites(Airbnb)
    ensures Airbnb.amenities !in EncodeWrites(Airbnb)
    ensures Airbnb.amenities != Airbnb.hasReviews && Airbnb.amenities != Airbnb.bathrooms
  {
    AmenitiesNotRewritten();
  }

  /** Whatever holds of all cells of a column holds of all the rows a mask keeps. */
  lemma SelectKeeps(s: Column, mask: seq<bool>, k: Kind)
    requires |s| == |mask|
    ensures AllHold(s, k) ==> AllHold(Select(s, mask), k)
  {
    if AllHold(s, k) {
      AllHoldSelect(s, mask, k);
    }
  }

  /** Steps 0 and 1 only drop rows: a non-text amenity cell after them was a cell of the input. */
  lemma PriceKeepsAmenities(t: Table, t1: Table, parse: Parser)
    requires WellFormed(t) && PriceParsed(t, t1, parse)
    requires "amenities" in t1.data && !AllHold(t1.data["amenities"], Text)
    ensures AmenitiesNotText(t)
  {
    if "price" in t.data {
      SelectKeeps(t.data["amenities"], NotNullMask(PriceColumn(t.data["price"], parse)), Text);
    }
  }

  /** A non-text amenity cell that step 9 meets was already a cell of the input. */
  lemma AmenitiesNotTextBefore(t: Table, t1: Table, t2: Table, t3: Table, t4: Table, parse: Parser)
    requires WellFormed(t) && PriceParsed(t, t1, parse)
    requires ReviewsFilled(Airbnb, t1, t2) && HostsFilled(Airbnb, t2, t3) && EncodedExtracted(Airbnb, t3, t4)
    requires AmenitiesNotText(t4)
    ensures AmenitiesNotText(t)
  {
    AirbnbAmenitiesKept();
    AmenitiesReachFeatures(Airbnb, t1, t2, t3, t4, Text);
    PriceKeepsAmenities(t, t1, parse);
  }

  /** The stages' guarantees over the source's names add up to those of the whole cleaning. */
  lemma CleaningComposes(t: Table, t1: Table, t2: Table, t3: Table, t4: Table, e: Table, dist: Distance)
    requires Prepared(Airbnb, t, t1) && ReviewsFilled(Airbnb, t1, t2) && HostsFilled(Airbnb, t2, t3)
    requires EncodedExtracted(Airbnb, t3, t4) && Enriched(Airbnb, t4, e)
    requires Imputed(t4, e) && Located(t4, e, dist)
    ensures WellFormed(e) && e.height <= t.height
    ensures forall c :: c in e.data <==> Produced(Airbnb, t, c)
    ensures NoiseRemoved(Airbnb, t, e) && GapsFilled(Airbnb, t, e) && Encoded(Airbnb, t, e)
    ensures Imputed(t, e) && Located(t, e, dist)
  {
    AirbnbSeparated();
    StagesCompose(Airbnb, t, t1, t2, t3, t4, e);
    EnrichedFlow(t, t4, e, dist);
  }

  /** The source's names are separated as the composition needs. */
  lemma AirbnbSeparated()
    ensures Separated(Airbnb)
  {
    AirbnbKeptNames();
    AirbnbWritesSeparated();
    AirbnbTextsSeparated();
  }

  lemma AirbnbKeptNames()
    ensures KeptNames(Airbnb)
  {
    KeptReviews();
    KeptGroups();
    KeptSingles();
  }

  lemma KeptReviews()
    ensures forall c :: c in ReviewColumns ==> c !in ColumnsToDrop
  {
  }

  lemma KeptGroups()
    ensures forall c :: c in RateColumns ==> c !in ColumnsToDrop
    ensures forall c :: c in BooleanColumns ==> c !in ColumnsToDrop
    ensures forall c :: c in AmenityFeatures ==> c !in ColumnsToDrop
  {
    KeptRates();
    KeptBooleans();
    KeptFeatures();
  }

  lemma KeptRates()
    ensures forall c :: c in RateColumns ==> c !in ColumnsToDrop
  {
  }

  lemma KeptBooleans()
    ensures forall c :: c in BooleanColumns ==> c !in ColumnsToDrop
  {
  }

  lemma KeptFeatures()
    ensures forall c :: c in AmenityFeatures ==> c !in ColumnsToDrop
  {
  }

  lemma KeptSingles()
    ensures "bathrooms" in ColumnsToDrop
    ensures "price" !in ColumnsToDrop && "has_reviews" !in ColumnsToDrop && "host_response_time" !in ColumnsToDrop
    ensures "host_since" !in ColumnsToDrop && "bathrooms_text" !in ColumnsToDrop && "amenities" !in ColumnsToDrop
    ensures "distance_to_sol_km" !in ColumnsToDrop && "latitude" !in ColumnsToDrop && "longitude" !in ColumnsToDrop
    ensures "accommodates" !in ColumnsToDrop
  {
  }

  lemma AirbnbWritesSeparated()
    ensures WritesSeparated(Airbnb)
  {
    ReviewsNotRehosted();
    ReviewsNotReencoded();
    ReviewsNotReenriched();
    HostNotReencoded();
    HostNotReenriched();
    PriceNotRewritten();
    PriceNotRewrittenLater();
    BooleansNotRewritten();
  }

  lemma ReviewsNotRehosted()
    ensures forall c :: c in ReviewWrites(Airbnb) ==> c !in HostWrites(Airbnb)
  {
  }

  lemma ReviewsNotReencoded()
    ensures forall c :: c in ReviewWrites(Airbnb) ==> c !in EncodeWrites(Airbnb)
  {
    ReviewScoresNotReencoded();
    ReviewFlagsNotReencoded();
  }

  lemma ReviewScoresNotReencoded()
    ensures forall c :: c in ReviewColumns ==> c !in EncodeWrites(Airbnb)
  {
  }

  lemma ReviewFlagsNotReencoded()
    ensures "has_reviews" !in EncodeWrites(Airbnb) && "host_response_time" !in EncodeWrites(Airbnb)
  {
  }

  lemma ReviewsNotReenriched()
    ensures forall c :: c in ReviewWrites(Airbnb) ==> c !in EnrichWrites(Airbnb)
  {
    ReviewScoresNotReenriched();
    ReviewFlagsNotReenriched();
  }

  lemma ReviewScoresNotReenriched()
    ensures forall c :: c in ReviewColumns ==> c !in EnrichWrites(Airbnb)
  {
  }

  lemma ReviewFlagsNotReenriched()
    ensures "has_reviews" !in EnrichWrites(Airbnb) && "host_response_time" !in EnrichWrites(Airbnb)
  {
  }

  lemma HostNotReencoded()
    ensures forall c :: c in Airbnb.rates + {Airbnb.hostSince} ==> c !in EncodeWrites(Airbnb)
  {
  }

  lemma HostNotReenriched()
    ensures forall c :: c in Airbnb.rates + {Airbnb.hostSince} ==> c !in EnrichWrites(Airbnb)
  {
  }

  lemma PriceNotRewritten()
    ensures Airbnb.price !in ReviewWrites(Airbnb) && Airbnb.price !in HostWrites(Airbnb)
  {
  }

  lemma PriceNotRewrittenLater()
    ensures Airbnb.price !in EncodeWrites(Airbnb) && Airbnb.price !in EnrichWrites(Airbnb)
  {
  }

  lemma BooleansNotRewritten()
    ensures forall c :: c in Airbnb.booleans ==> c !in EnrichWrites(Airbnb)
    ensures Airbnb.bathroomsText !in Airbnb.booleans
  {
  }

  lemma AirbnbTextsSeparated()
    ensures TextsSeparated(Airbnb)
  {
    AmenitiesNotRewritten();
  }

  lemma AmenitiesNotRewritten()
    ensures "amenities" !in ReviewColumns && "amenities" !in RateColumns && "amenities" !in BooleanColumns
  {
  }

  // The stage methods' guarantees, restated over the source's names.

  lemma DropAndPriceStage(t: Table, a: Table)
    requires WellFormed(a) && a.height <= t.height
    requires forall c :: c in a.data <==> c in t.data && c !in ColumnsToDrop
    requires "price" in t.data && "price" !in ColumnsToDrop ==> AllHold(a.data["price"], NotNull)
    ensures Prepared(Airbnb, t, a)
  {
  }

  lemma FillReviewGapsStage(a: Table, b: Table)
    requires WellFormed(b) && b.height == a.height
    requires forall c :: c in b.data <==> c in a.data || (c == "has_reviews" && "reviews_per_month" in a.data)
    requires forall c :: c in ReviewColumns && c in a.data ==> AllHold(b.data[c], NotNull)
    requires "reviews_per_month" in a.data ==> AllHold(b.data["has_reviews"], Flag)
    requires "host_response_time" in a.data ==> AllHold(b.data["host_response_time"], NotNull)
    requires KindsKept(a, b, ColumnSet(ReviewColumns) + {"has_reviews", "host_response_time"})
    ensures ReviewsFilled(Airbnb, a, b)
  {
  }

  lemma FillHostGapsStage(b: Table, c: Table)
    requires WellFormed(c) && c.height <= b.height
    requires forall x :: x in c.data <==> x in b.data
    requires forall x :: x in RateColumns && x in b.data ==> AllHold(c.data[x], Numeric)
    requires "host_since" in b.data ==> AllHold(c.data["host_since"], NotNull)
    requires KindsKept(b, c, ColumnSet(RateColumns))
    ensures HostsFilled(Airbnb, b, c)
  {
  }

  lemma EncodeAndExtractStage(c: Table, d: Table)
    requires WellFormed(d) && d.height == c.height
    requires forall x :: x in d.data <==> x != "bathrooms_text" && (x in c.data || (x == "bathrooms" && "bathrooms_text" in c.data))
    requires forall x :: x in BooleanColumns && x in c.data ==> AllHold(d.data[x], FlagOrNull)
    requires KindsKept(c, d, ColumnSet(BooleanColumns) + {"bathrooms", "bathrooms_text"})
    ensures EncodedExtracted(Airbnb, c, d)
  {
  }

  lemma EnrichStage(d: Table, e: Table)
    requires WellFormed(e) && e.height == d.height
    requires forall x :: x in e.data <==>
      && x != "amenities"
      && (|| x in d.data
          || ("amenities" in d.data && x in AmenityFeatures)
          || (x == "distance_to_sol_km" && "latitude" in d.data && "longitude" in d.data))
    requires "amenities" in d.data ==> forall x :: x in AmenityFeatures ==> AllHold(e.data[x], Flag)
    requires KindsKept(d, e, ColumnSet(ImputedColumns) + ({"amenities", "distance_to_sol_km"} + AmenityFeatures))
    ensures Enriched(Airbnb, d, e)
  {
  }

  /**
   * Steps 2 to 10 of `clean_airbnb_data` on the table `t1` steps 0 and 1
   * leave, with the working table after steps 3, 5 and 7 as `t2` to `t4`:
   * each stage computes its cells as `ReviewValues`, `HostValues`,
   * `EncodeValues` and `EnrichValues` state, and the only failure is a
   * non-text amenity list reaching step 9.
   */
  method CleanListings(t1: Table, parse: Parser, dist: Distance)
    returns (r: Result<Table>, ghost t2: Table, ghost t3: Table, ghost t4: Table)
    requires WellFormed(t1)
    ensures ReviewsFilled(Airbnb, t1, t2) && HostsFilled(Airbnb, t2, t3) && EncodedExtracted(Airbnb, t3, t4)
    ensures ReviewValues(t1, t2) && HostValues(t2, t3, parse) && EncodeValues(t3, t4)
    ensures r.Err? <==> AmenitiesNotText(t4)
    ensures r.Ok? ==> Enriched(Airbnb, t4, r.value) && EnrichValues(t4, r.value)
    ensures r.Ok? ==> Imputed(t4, r.value) && Located(t4, r.value, dist)
    ensures r.Ok? ==> WellFormed(r.value) && r.value.height <= t1.height
  {
    var a2 := FillReviewGaps(t1);
    var a3 := FillHostGaps(a2, parse);
    var a4 := EncodeAndExtract(a3);
    t2, t3, t4 := a2, a3, a4;
    r := Enrich(a4, dist);
  }

  /** Every column some step of `clean_airbnb_data` assigns, creates or removes. */
  const Assigned: set<string> :=
    ColumnSet(ReviewColumns) + ColumnSet(RateColumns) + ColumnSet(BooleanColumns) + ColumnSet(ImputedColumns)
    + AmenityFeatures
    + {"price", "has_reviews", "host_response_time", "bathrooms", "bathrooms_text", "amenities", "distance_to_sol_km"}

  /**
   * A kept column no step assigns ends with the input's own cells in the rows
   * that keep a price (step 1) and a host (step 5).
   */
  lemma PassThroughColumn(t: Table, t1: Table, t2: Table, t3: Table, t4: Table, e: Table, parse: Parser, c: string)
    requires Prepared(Airbnb, t, t1) && PriceParsed(t, t1, parse)
    requires ReviewValues(t1, t2) && HostValues(t2, t3, parse) && EncodeValues(t3, t4) && EnrichValues(t4, e)
    requires c in t.data && c !in ColumnsToDrop && c !in Assigned
    ensures c in e.data
    ensures e.data[c] == Select(
      if "price" in t.data then Select(t.data[c], NotNullMask(PriceColumn(t.data["price"], parse))) else t.data[c],
      HostMask(t2))
  {
    PreparedKeeps(t, t1, c);
    NotAssigned(t1, t3, t4, c);
    PassPrice(t, t1, parse, c);
    KeptAt(t1, t2, ReviewRewrites(t1), c);
    PassHosts(t2, t3, parse, c);
    KeptAt(t3, t4, EncodeRewrites(t3), c);
    KeptAt(t4, e, EnrichRewrites(t4), c);
  }

  lemma KeptAt(a: Table, b: Table, changed: set<string>, c: string)
    requires Unchanged(a, b, changed) && c in a.data && c !in changed
    ensures c in b.data && b.data[c] == a.data[c]
  {
  }

  /** Steps 4 and 5 cut a column other than the rates to the rows with a host. */
  lemma PassHosts(b: Table, r: Table, parse: Parser, c: string)
    requires HostValues(b, r, parse) && c in b.data && c !in RateColumns
    ensures c in r.data && r.data[c] == Select(b.data[c], HostMask(b))
  {
  }

  lemma PreparedKeeps(t: Table, t1: Table, c: string)
    requires Prepared(Airbnb, t, t1) && c in t.data && c !in ColumnsToDrop
    ensures c in t1.data
  {
    assert Airbnb.drop == ColumnsToDrop;
  }

  /** A column outside `Assigned` is outside what each later stage assigns. */
  lemma NotAssigned(t1: Table, t3: Table, t4: Table, c: string)
    requires c !in Assigned
    ensures c != "price" && c !in ReviewRewrites(t1) && c !in RateColumns
    ensures c !in EncodeRewrites(t3) && c !in EnrichRewrites(t4)
  {
  }

  /** Steps 0 and 1 cut a kept column other than the price to the rows with a price. */
  lemma PassPrice(t: Table, t1: Table, parse: Parser, c: string)
    requires PriceParsed(t, t1, parse) && c in t1.data && c != "price"
    ensures c in t.data
    ensures t1.data[c] == if "price" in t.data then Select(t.data[c], NotNullMask(PriceColumn(t.data["price"], parse))) else t.data[c]
  {
  }

  /**
   * `clean_airbnb_data`, with the working table after steps 1, 3, 5 and 7 as
   * `t1` to `t4` (whenever steps 0 and 1 succeed).  It fails exactly where the source raises: a missing noise
   * column, an unparsable price, or a non-text amenity list in a row that
   * reached step 9 (so a non-text cell of the input).  Otherwise each stage
   * computes its cells as `PriceParsed`, `ReviewValues`, `HostValues`,
   * `EncodeValues` and `EnrichValues` state (every column a stage does not
   * assign keeping its cells), and the result has exactly the
   * columns `Produced` names, no surviving listing lacks a price, the gap
   * columns are filled, the flags are 1/0, the sizes are imputed and every
   * listing's distance to Puerta del Sol is its own.
   */
  method CleanAirbnbData(t: Table, parse: Parser, dist: Distance)
    returns (r: Result<Table>, ghost t1: Table, ghost t2: Table, ghost t3: Table, ghost t4: Table)
    requires WellFormed(t)
    ensures r.Err? <==> NoiseMissing(t) || PriceUnparsable(t, parse) || AmenitiesNotText(t4)
    ensures r.Err? ==> NoiseMissing(t) || PriceUnparsable(t, parse) || AmenitiesNotText(t)
    ensures !NoiseMissing(t) && !PriceUnparsable(t, parse) ==>
      && Prepared(Airbnb, t, t1) && ReviewsFilled(Airbnb, t1, t2)
      && HostsFilled(Airbnb, t2, t3) && EncodedExtracted(Airbnb, t3, t4)
    ensures !NoiseMissing(t) && !PriceUnparsable(t, parse) ==>
      PriceParsed(t, t1, parse) && ReviewValues(t1, t2) && HostValues(t2, t3, parse) && EncodeValues(t3, t4)
    ensures r.Ok? ==> Enriched(Airbnb, t4, r.value) && EnrichValues(t4, r.value)
    ensures r.Ok? ==> WellFormed(r.value) && r.value.height <= t.height
    ensures r.Ok? ==> forall c :: c in r.value.data <==> Produced(Airbnb, t, c)
    ensures r.Ok? ==> NoiseRemoved(Airbnb, t, r.value)
    ensures r.Ok? ==> GapsFilled(Airbnb, t, r.value)
    ensures r.Ok? ==> Encoded(Airbnb, t, r.value)
    ensures r.Ok? ==> Imputed(t, r.value)
    ensures r.Ok? ==> Located(t, r.value, dist)
  {
    var prepared := DropAndPrice(t, parse);
    if prepared.Err? {
      return prepared, t, t, t, t;
    }
    var a1 := prepared.value;
    t1 := a1;
    r, t2, t3, t4 := CleanListings(a1, parse, dist);
    if r.Err? {
      AmenitiesNotTextBefore(t, t1, t2, t3, t4, parse);
    } else {
      CleaningComposes(t, t1, t2, t3, t4, r.value, dist);
    }
  }
}
