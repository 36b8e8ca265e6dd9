# TechyPriceAI feature pipeline in Dafny

TechyPriceAI predicts the nightly price of a Madrid short-term rental with a
pre-trained regression model. This project models the pipeline that builds
the model's numeric input. It has two halves that must agree on one column
vocabulary. Both are proved here.

- **Training side** (`backend/preprocessing.py`):
  - `clean_airbnb_data` turns the raw listings table into a cleaned table.
    It drops noise columns, parses prices, fills review gaps with the -1
    sentinel, parses rates, drops "ghost host" rows, encodes booleans,
    extracts bathrooms, imputes by capacity, sets amenity flags and adds
    the distance to Puerta del Sol.
  - `prepare_for_modeling` drops two high-cardinality columns,
    ordinal-encodes the response time and one-hot encodes the district and
    the room type, dropping the first category of each.
- **Inference side** (`backend/main.py`):
  - `transform_user_input` turns one validated request into a row laid out
    by the stored column schema of the trained model.
  - `predict_price` turns the model's answer into an HTTP response.

## Modules

- `Wrappers`: `Option` and `Result`.
- `Tables`: the data frame and the handful of its operations the stages use:
  - dropping columns;
  - assigning a column;
  - boolean-mask row selection;
  - concatenation of new columns;
  - the elementwise map.
- `Text`: the string work the stages do:
  - removal of characters (`[\$,]`, `%`);
  - ASCII lower-casing;
  - substring search for an alternation of literal patterns;
  - the leftmost-longest match of `\d+\.?\d*` and its decimal value.
- `Stats`: sorting and the median.
- `Lex`: the string order pandas sorts categories by.
- `Imputation`: the two-pass median imputation of one column.
- `Cleaning`: `clean_airbnb_data`. Each numbered step is a method; the stage
  methods and `CleanAirbnbData` run them in order.
- `Modeling`: `prepare_for_modeling`, with `get_dummies`'s naming,
  sorted categories and drop-first rule.
- `Inference`: `transform_user_input` and `predict_price`.

## How the model is shaped

**Tables are column-major.** A table is an ordered list of distinct column
names, a map from each name to its column of cells, and a height. Every
step of the source works column by column: it tests `c in df.columns`,
reassigns `df[c]` or drops rows by a mask of one column. A column-major
table states "this column is unchanged" as one map entry, where a list of
row maps would need a statement per row. A cell is `Null`, `Num(real)`,
`Str(string)` or `Bool(bool)`.

**The loops are methods.** They keep their invariants and use the same
column lists as the source:

- the loops over `REVIEWS`, `rates_cols`, `bool_fillna_f`, `BOOLEAN` and
  `global_imp`: `Tables.MapColumns` and `Cleaning.ImputeGrouped`;
- the key-by-key building of `base_data`: `Inference.CopyInputs`,
  `SimulateHost`, `FillReviews`, `AddDistances`, `AddRatios`,
  `SetIndicators`.

Each method is proved against a specification function or predicate, and
the lemmas about those state what the source promises.

**The translator's dictionary has two parts.** `base_data` is a record of:

- a map from the translator's own keys (`Field`) to their values;
- a map for every other schema name.

Every own key's name is shown to decode back to that key, so a schema
column reads the value assigned to its key. The chosen indicators are set
only where the schema has them. The row is read off in schema order.
`Inference.Feature` states the value of one schema column;
`TransformUserInput` returns exactly `FeatureRow`.

**Parameters stand in for what the model does not interpret:**

- `parse: Parser`: what `float(...)` and `pd.to_numeric` make of a string
  (a number, NaN or an error).
- `dist`: the haversine distance (`Cleaning.Distance`,
  `Inference.Haversine`).
- `model: Option<Predictor>` and `columns: Option<seq<string>>`: the model
  and the column schema that may have failed to load at startup. The
  predictor returns a number or an error text.

**Two behaviours of the code worth stating outright:**

- `predict_price` answers status 500 when the model or the column schema
  did not load.
- `prepare_for_modeling` sets no row index. It computes no days-since date
  features, no distances besides the one to Puerta del Sol and no ratios,
  so the training side has none of them.

**Each stage of `clean_airbnb_data` is stated cell by cell.** The stage
predicates `PriceParsed`, `ReviewValues`, `HostValues`, `EncodeValues` and
`EnrichValues` relate the working table before and after a stage: which
rows survive, what every rewritten cell becomes, and that every other column keeps its cells. `CleanAirbnbData`
returns the working tables between the stages as ghost results, so its
contract chains these predicates from the input to the result.

## Model

| member | source | states |
|---|---|---|
| Cleaning.DropNoiseColumns | backend/preprocessing.py:84 | the unguarded drop fails unless every listed noise column is present; otherwise exactly the other columns remain, in order and unchanged |
| Cleaning.KeptSingles | backend/preprocessing.py:9-21 | the legacy `bathrooms` column is among the dropped ones; none of the columns later steps read or write is |
| Cleaning.ParsePrice | backend/preprocessing.py:87-90 | a text price column fails on a cell that does not parse as a float; otherwise each cell loses every `$` and `,` and is parsed, rows with no price are removed from every column and the surviving prices are all present |
| Text.RemoveChars | backend/preprocessing.py:89 | the result holds exactly the characters of the input that are not removed, and is the input itself when nothing is to be removed |
| Text.RemoveCharsConcat | backend/preprocessing.py:89 | removing characters distributes over concatenation |
| Cleaning.SelectNotNull | backend/preprocessing.py:90 | `dropna` on a column leaves no missing cell in it |
| Cleaning.AddReviewFlag | backend/preprocessing.py:93-94 | `has_reviews` is a 0/1 flag that is 1 exactly in the rows where `reviews_per_month` was present; no other column changes, and without `reviews_per_month` the table is as it was |
| Cleaning.FillReviewScores | backend/preprocessing.py:96-98 | every present review column has no gaps: a missing cell becomes -1 and every other cell is unchanged; other columns are unchanged |
| Cleaning.FillResponseTime | backend/preprocessing.py:101-102 | missing response times become "Unknown", others stay, nothing else changes |
| Cleaning.RateCell | backend/preprocessing.py:108-109 | a rate is always a number: a number stays, a text that parses after removing `%` becomes that number, anything else becomes -1 |
| Cleaning.ParseRates | backend/preprocessing.py:105-109 | both rate columns become all-numeric, cell by cell as `RateCell` says; other columns are unchanged |
| Cleaning.DropGhostHosts | backend/preprocessing.py:112-114 | rows missing any present host column among `host_since`, `host_has_profile_pic`, `host_identity_verified` are removed from every column, and those columns have no gaps afterwards |
| Cleaning.HostMaskKeepsHosts | backend/preprocessing.py:114 | the kept rows have every required host column present |
| Cleaning.BoolCode | backend/preprocessing.py:125 | 1 exactly for `'t'`, `'True'`, `True` (and 1, which Python's `True` equals as a key), 0 exactly for the false ones, missing for anything else |
| Cleaning.EncodeBooleans | backend/preprocessing.py:116-125 | every present boolean column holds only 1, 0 or missing; superhost and availability gaps become `'f'` first and so 0; other columns are unchanged |
| Cleaning.EncodeFlags | backend/preprocessing.py:117-125 | the fill-then-map loops, for any fill list contained in the flag list |
| Text.FirstNumber | backend/preprocessing.py:130 | none exactly when the text has no digit; otherwise a match of `\d+\.?\d*` that starts at the first digit and is as long as greedy matching makes it |
| Text.DecimalValue | backend/preprocessing.py:130 | the value `float` gives a matched number is non-negative |
| Text.DigitsBelowPow10 | backend/preprocessing.py:130 | a run of `n` digits denotes a number below 10^n |
| Text.DecimalWholePart | backend/preprocessing.py:130 | the whole part of the number `float` reads from a match (such as 2 for "2.5") is the number its digits before the point denote, so the digits after the point add less than one |
| Cleaning.BathroomsCell | backend/preprocessing.py:130 | a number exactly when the cell is text containing a digit, missing otherwise |
| Cleaning.ExtractBathrooms | backend/preprocessing.py:128-131 | `bathrooms` holds the first number of each `bathrooms_text` cell, the text column is gone, nothing else changes, and without `bathrooms_text` the table is as it was |
| Stats.Median | backend/preprocessing.py:140 | the median lies between two of the values |
| Stats.MedianOfPermutation | backend/preprocessing.py:143 | the median does not depend on the order of the rows |
| Imputation.Impute | backend/preprocessing.py:139-143 | a present cell is never changed |
| Imputation.ImputeCells | backend/preprocessing.py:139-143 | a missing cell takes its capacity group's median when the group has a number, and otherwise the column's median after the group pass |
| Imputation.ImputeComplete | backend/preprocessing.py:139-143 | a column with at least one number has no gap left |
| Imputation.ImputeWithinRange | backend/preprocessing.py:139-143 | every filled value lies within the range of the column's own numbers |
| Imputation.ImputeNoNumbers | backend/preprocessing.py:143 | a column without any number is left as it is |
| Cleaning.ImputeGrouped | backend/preprocessing.py:136-143 | each listed column is imputed by the key column, and every other column is unchanged |
| Cleaning.ImputeByCapacity | backend/preprocessing.py:134-143 | with `accommodates` present, `bedrooms`, `bathrooms`, `beds` are imputed by capacity; without it the table is unchanged |
| Text.ToLower | backend/preprocessing.py:152 | each of `A` to `Z` becomes its lower-case letter and every other character stays, so no upper-case ASCII letter remains; the length is kept |
| Text.ContainsIffOccurs | backend/preprocessing.py:156 | the search finds a pattern exactly when it occurs at some position |
| Text.MatchesAnyIff | backend/preprocessing.py:155 | an alternation matches exactly when one of its patterns occurs |
| Cleaning.FeatureColumnFlags | backend/preprocessing.py:155-158 | each amenity flag is 1 exactly when the lower-cased text contains one of its patterns, else 0 |
| Cleaning.FeaturesTable | backend/preprocessing.py:150-161 | the four amenity flags are added as the patterns say, `amenities` is removed, nothing else changes |
| Cleaning.AmenityFlags | backend/preprocessing.py:150-161 | fails exactly when an amenities cell is not text (the `.str` accessor); otherwise as `FeaturesTable`, and the flags are 0/1 |
| Cleaning.AddSolDistance | backend/preprocessing.py:164-175 | with both coordinates present, `distance_to_sol_km` is the distance of each row to Puerta del Sol (40.4168, -3.7038); without them the table is unchanged |
| Cleaning.DropAndPrice | backend/preprocessing.py:84-90 | steps 0 and 1 fail exactly when a noise column is missing or a price text does not parse. Otherwise the noise columns are gone and the result is `PriceParsed`: each price is converted, the rows without a price are removed, and every other kept column is cut to the same rows |
| Cleaning.FillReviewGaps | backend/preprocessing.py:93-102 | steps 2 and 3 give `ReviewValues`: `has_reviews` is 1 exactly in the rows with a monthly review rate; a missing review field becomes -1 and a missing response time "Unknown"; every other cell of those columns stays. Every other column keeps its cells, `has_reviews` too when there is no monthly review rate |
| Cleaning.ReviewStepsValues | backend/preprocessing.py:93-102 | the three assignments of steps 2 and 3, one after the other, give the cells `ReviewValues` states |
| Cleaning.ReviewFrame | backend/preprocessing.py:93-102 | steps 2 and 3 leave every column other than the review fields, the response time and (with a monthly review rate) `has_reviews` as it was |
| Cleaning.HostMaskAfterRates | backend/preprocessing.py:105-114 | converting the rates does not change which rows the ghost-host filter keeps |
| Cleaning.FillHostGaps | backend/preprocessing.py:105-114 | steps 4 and 5 give `HostValues`: the rows kept are exactly those with a value in every present host column. The rates are converted cell by cell as `RateCell` says, and every other column is cut to those rows. `host_since`, `host_has_profile_pic` and `host_identity_verified` have no gaps afterwards |
| Cleaning.EncodeFrame | backend/preprocessing.py:117-131 | steps 6 and 7 leave every column other than the booleans and (with a `bathrooms_text`) `bathrooms` and `bathrooms_text` as it was |
| Cleaning.EncodeAndExtract | backend/preprocessing.py:117-131 | steps 6 and 7 give `EncodeValues`: each boolean cell is `BoolCode` of the cell, after the `'f'` fill for superhost and availability. `bathrooms` holds `BathroomsCell` of each `bathrooms_text` cell and the text column is gone. Every other column keeps its cells, `bathrooms` too when there is no `bathrooms_text` |
| Cleaning.FeatureFrame | backend/preprocessing.py:150-175 | steps 9 and 10 leave every column as it was except `amenities` and the four flags when there is an `amenities` column, and the distance when both coordinates are there |
| Cleaning.FeaturesAndDistance | backend/preprocessing.py:150-175 | steps 9 and 10 fail exactly when an amenities cell is not text. Otherwise each of the four flags is 1 exactly in the rows whose lower-cased amenities text contains one of its patterns, and 0 elsewhere (`HasFeatures`). Each row's distance to Puerta del Sol is computed from its own coordinates. Every other column keeps its cells; the flags count as assigned only when there is an `amenities` column, and the distance only when both coordinates are there |
| Cleaning.EnrichFrame | backend/preprocessing.py:134-175 | steps 8 to 10 leave every column as it was except the imputed ones when there is an `accommodates` column and what steps 9 and 10 assign |
| Cleaning.ImputedKept | backend/preprocessing.py:134-175 | steps 9 and 10 do not touch the imputed columns, so each stays gap-free or without numbers as step 8 left it |
| Cleaning.EnrichSteps | backend/preprocessing.py:134-175 | the guarantees of step 8 and of steps 9 and 10 add up to `EnrichValues`, `Imputed` and the stage's kind-level guarantees |
| Cleaning.Enrich | backend/preprocessing.py:134-175 | steps 8 to 10 fail exactly when an amenities cell is not text. Otherwise `EnrichValues` holds: `bedrooms`, `bathrooms` and `beds` are each `Impute` of the column by `accommodates`, and the flags are as `HasFeatures` says. Every column the three steps do not assign keeps its cells: the imputed columns when there is no `accommodates`, the flags when there is no `amenities`, and the coordinates always. The distances are each row's own, and the result has exactly the resulting columns |
| Cleaning.CleanListings | backend/preprocessing.py:93-175 | steps 2 to 10 chain `ReviewValues`, `HostValues`, `EncodeValues` and `EnrichValues` through the intermediate tables; the only failure is a non-text amenities cell reaching step 9. The result is a well-formed table with no more rows than `t1` |
| Cleaning.AmenitiesReachFeatures | backend/preprocessing.py:93-131 | steps 2 to 7 never rewrite `amenities`, so whatever held of all its cells after step 1 still holds at step 9 |
| Cleaning.PriceKeepsAmenities | backend/preprocessing.py:87-90 | steps 0 and 1 only remove rows, so a non-text amenities cell after them was a cell of the input |
| Cleaning.AmenitiesNotTextBefore | backend/preprocessing.py:74-153 | a non-text amenities cell that reaches step 9 was a cell of the input |
| Cleaning.ColumnsFlow | backend/preprocessing.py:74-177 | the columns after the whole stage are exactly those `Produced` says, whatever the input's columns |
| Cleaning.GapsFlow | backend/preprocessing.py:74-177 | the price, review, response-time, rate and `host_since` columns are still gap-free at the end |
| Cleaning.EncodedFlow | backend/preprocessing.py:74-177 | the booleans still hold 0/1/missing and the amenity flags 0/1 at the end |
| Cleaning.NoiseRemovedFromColumns | backend/preprocessing.py:84 | no noise column and neither `bathrooms_text` nor `amenities` is left at the end |
| Cleaning.StagesCompose | backend/preprocessing.py:74-177 | composing the per-step postconditions gives the postconditions of the whole stage |
| Cleaning.AirbnbSeparated | backend/preprocessing.py:9-38 | the column lists the steps work on are apart from each other as the later steps need |
| Cleaning.CleaningComposes | backend/preprocessing.py:74-177 | the stages' guarantees over the source's column names add up to those of the whole cleaning |
| Cleaning.CleanAirbnbData | backend/preprocessing.py:74-177 | fails exactly when a noise column is missing, a price text does not parse, or an amenities cell that reaches step 9 is not text; any failure has one of these causes in the input table. Whenever steps 0 and 1 succeed, the ghost tables `t1` to `t4` are the working table after steps 1, 3, 5 and 7. Their columns are tied to the input by `Prepared`, `ReviewsFilled`, `HostsFilled` and `EncodedExtracted`, and their cells by `PriceParsed`, `ReviewValues`, `HostValues` and `EncodeValues`, so the table step 9 reads, and with it the amenities failure, is determined by the input. On success `Enriched` and `EnrichValues` tie the result to `t4` in the same way. Each value predicate also says that every column its stage does not assign keeps its cells, so together they fix the surviving rows and every cell's value, the columns passed through included (`PassThroughColumn`). The result has exactly the produced columns and no noise column. Every filled column is gap-free, and the booleans and flags are encoded. Every imputed column holds `Impute` of its pre-imputation column by capacity |
| Cleaning.PassThroughColumn | backend/preprocessing.py:74-177 | a kept input column that no step assigns, creates or removes ends with the input's own cells, in exactly the rows that keep a price (step 1) and a host (step 5) |
| Cleaning.PassPrice | backend/preprocessing.py:84-90 | steps 0 and 1 cut every kept column other than the price to the rows whose price converts |
| Cleaning.PassHosts | backend/preprocessing.py:105-114 | steps 4 and 5 cut every column other than the rates to the rows with a host |
| Modeling.ResponseCodeScale | backend/preprocessing.py:193-201 | every code is a whole number from 0 to 4; a code from 1 to 4 is given exactly to its own level, 0 to "Unknown" and any other value |
| Modeling.RecodeColumn | backend/preprocessing.py:200-201 | only the recoded column changes |
| Modeling.RecodedCells | backend/preprocessing.py:201 | every recoded cell is a whole-number code from 0 to 4 |
| Modeling.Categories | backend/preprocessing.py:209 | the categories are exactly the text values of the column |
| Modeling.CategoriesSorted | backend/preprocessing.py:209 | the categories are strictly ascending |
| Modeling.DummyNameInjective | backend/preprocessing.py:209 | two categories of one column get the same indicator name only if they are equal |
| Modeling.SuffixOfDummyName | backend/preprocessing.py:209 | the category can be read back from an indicator name |
| Modeling.DummyCount | backend/preprocessing.py:209 | a column with k distinct categories gets k - 1 indicators |
| Modeling.FirstCategoryDropped | backend/preprocessing.py:209 | the smallest category has no indicator and every other category has one |
| Modeling.IndicatorSet | backend/preprocessing.py:209 | in the table get_dummies builds, the indicator of a kept category is a column, 1 exactly in the rows whose encoded cell holds that category and 0 in all others |
| Modeling.AtMostOneIndicator | backend/preprocessing.py:209 | at most one indicator of a row is set |
| Modeling.AllZeroIffDropped | backend/preprocessing.py:209 | a row has no indicator set exactly when it holds the dropped first category or no text |
| Modeling.AllIndicatorsValues | backend/preprocessing.py:209 | with all generated names distinct, each name holds its own column's and category's indicator |
| Modeling.OneHot | backend/preprocessing.py:209 | the encoded columns are replaced by their indicators, appended after the others, which keep their place and cells |
| Modeling.GetDummies | backend/preprocessing.py:209 | the encoding is an error exactly when a generated name clashes with a kept column or another generated one |
| Modeling.StageRemoves | backend/preprocessing.py:188-209 | neither `property_type`, `neighbourhood_cleansed` nor the encoded columns survive the stage |
| Modeling.IndicatorOfName | backend/preprocessing.py:204-209 | `c_v` is a generated indicator exactly when `c` is an encoded column of the table and `v` a kept category of it |
| Modeling.PrepareWith | backend/preprocessing.py:185-211 | the drop, recode and encode sequence for any lists with names apart: exactly the modelled columns, the others unchanged, the recoded column mapped, every indicator as generated |
| Modeling.PrepareForModeling | backend/preprocessing.py:180-211 | fails only on a name clash; otherwise drops the two high-cardinality columns, recodes the response time and one-hot encodes district and room type, leaving every other column unchanged |
| Inference.DistrictLabelInjective | backend/main.py:52-71 | different districts have different text values |
| Inference.RoomLabelInjective | backend/main.py:46-50 | different room types have different text values |
| Inference.Zeros | backend/main.py:118 | the base dictionary has exactly the schema names, all 0 |
| Inference.Assign | backend/main.py:121 | an assignment adds or overwrites one key and keeps every other |
| Inference.DecodeName | backend/main.py:121-196 | each of the translator's keys is recovered from its column name |
| Inference.NameInjective | backend/main.py:121-196 | different keys have different column names |
| Inference.CopyInputs | backend/main.py:120-130 | the ten input fields are assigned from the request, nothing else changes |
| Inference.SimulateHost | backend/main.py:132-148 | the thirteen host fields are assigned, nothing else changes |
| Inference.FillReviews | backend/main.py:151-180 | the twelve review fields are assigned by the review branch, nothing else changes |
| Inference.AddDistances | backend/main.py:183-187 | each point-of-interest distance is computed from the request's coordinates, nothing else changes |
| Inference.SafeDivisor | backend/main.py:190-194 | the guarded divisor is positive and equals the count whenever the count is positive |
| Inference.AddRatios | backend/main.py:190-196 | the three ratios are assigned from the request and the simulated availability, nothing else changes |
| Inference.SetIndicators | backend/main.py:199-205 | the chosen district's and room type's indicators become 1 where the schema has them; no key is added |
| Inference.AssignKeys | backend/main.py:120-196 | every own key holds its value after the assignments |
| Inference.ReadBack | backend/main.py:208-209 | reading a schema column from the final dictionary gives its feature value |
| Inference.FeatureRow | backend/main.py:208-209 | the row has one value per schema column, in schema order |
| Inference.TransformUserInput | backend/main.py:116-209 | for a valid request, the row has exactly the schema's length and order, and column i holds `Feature` of the i-th schema name |
| Inference.FeatureOfKey | backend/main.py:121-196 | a schema column named after one of the translator's keys reads the value assigned to that key |
| Inference.InputsCopied | backend/main.py:123-130 | capacity, bedrooms, beds, bathrooms and the four amenity flags equal the request's values |
| Inference.HostIsFixed | backend/main.py:133-148 | only the superhost flag comes from the request; every other host field is the same for every request |
| Inference.ResponseTimeIsFastest | backend/main.py:138 | the simulated response time is the code the training side gives "within an hour" |
| Inference.NoReviewsSentinels | backend/main.py:151-165 | without reviews, `has_reviews` and the count are 0 and every other review field is -1 |
| Inference.ReviewedDefaults | backend/main.py:166-180 | with reviews, `has_reviews` is 1, count and rating come from the request, reviews per month 1.5, days since first and last review 180 and 15, and the accuracy, cleanliness, check-in, communication, location and value scores 4.8, 4.8, 4.9, 4.9, 4.8, 4.7 |
| Inference.DistancesFromListing | backend/main.py:183-187 | each distance is measured from the request's own coordinates to its point of interest |
| Inference.RatiosOfValidRequest | backend/main.py:190-194 | on a valid request the guards never fire: guests per bed and bathrooms per guest divide by the real counts |
| Inference.OccupancyFromAvailability | backend/main.py:196 | the occupancy is (30 - simulated availability) / 30, which is 0.5 |
| Inference.UnassignedIsZero | backend/main.py:118 | a schema column that is neither a key nor a chosen indicator is 0 |
| Inference.DistrictNotKey | backend/main.py:199 | a district indicator name is never one of the translator's keys |
| Inference.RoomNotKey | backend/main.py:203 | a room-type indicator name is never one of the translator's keys |
| Inference.DistrictNotRoom | backend/main.py:199-205 | district and room-type indicator names never coincide |
| Inference.OneDistrictSet | backend/main.py:199-201 | a district indicator is 1 exactly for the chosen district and 0 for every other |
| Inference.OneRoomTypeSet | backend/main.py:203-205 | a room-type indicator is 1 exactly for the chosen room type and 0 for every other |
| Inference.DistrictColumnTrained | backend/main.py:199 | the district column the translator sets is a column the training-side one-hot step generates exactly when that district is a kept category of the training data |
| Inference.RoomColumnTrained | backend/main.py:203 | the same for the room type |
| Inference.RoundHalfEven | backend/main.py:228 | the nearest whole number, and the even one on a tie |
| Inference.Round2 | backend/main.py:228 | within half a cent of the input and a whole number of cents |
| Inference.RoundWhole | backend/main.py:228 | a whole number rounds to itself |
| Inference.Round2Idempotent | backend/main.py:228 | rounding twice is rounding once |
| Inference.Round2Ties | backend/main.py:228 | for every whole number of cents n, the amount n + 1/2 cents rounds to the even one of n and n + 1 |
| Inference.PredictPrice | backend/main.py:214-233 | status 500 exactly when the model or the columns are missing; otherwise the model is called on the translated row, and its result is rounded to cents in EUR, or its error becomes status 400 with the message |

## Left out

- The haversine formula (backend/preprocessing.py:44-67) is floating-point trigonometry. It is the parameter `dist`; only the coordinates each distance reads are modelled.
- Float parsing (`astype(float)`, `pd.to_numeric(errors='coerce')`) is the parameter `parse`; only its three outcomes are modelled (a number, NaN, an error). One parameter stands for both. The two accept slightly different strings: `astype(float)` takes `"1_000"`, `to_numeric` does not. The model does not tell them apart.
- `model.predict`, the `joblib` loads, the FastAPI app and CORS setup (backend/main.py:1-43): the model and the schema are parameters, and a failed load is `None`.
- Request validation by pydantic happens before the endpoint runs. Its field constraints (backend/main.py:81-84) are the precondition `Valid`; its defaults and its 422 answer are not modelled.
- Inference.PredictPrice: an exception from the translator itself is not modelled, because on a valid request the translator cannot fail; only the predictor's error gives status 400.
- Inference.Round2: rounds the exact real, not the binary float, so ties that float representation breaks differently are not captured.
- Inference.HostIsFixed: states that the host fields do not depend on the request. The values themselves (1, 4, 100.0, 15/30/45/180, 365) are those of `Inference.HostValue`.
- The concrete strings "$1,234.50" and "95%" are not proved as separate instances; `Text.RemoveChars`, `Cleaning.ParsePrice` and `Cleaning.RateCell` cover them for any parser.
- Modeling.GetDummies: a generated indicator name that clashes with an existing column is an error. pandas would produce duplicate columns instead, which a table with distinct names cannot hold.
- Only text categories are encoded. Numeric or boolean cells in an encoded column count as having no category.
- Lower-casing covers the ASCII letters only; there is no Unicode case folding.
- Only the regular expressions the source uses are modelled: `[\$,]`, `%`, `\d+\.?\d*` and the literal alternations of the amenity flags. There is no general regex engine, and `\d` means the ASCII digits 0 to 9.
- Cleaning.ExtractBathrooms: does not model two failures and matches of `.str.extract`. (1) A `bathrooms_text` column with no text at all that pandas does not store as text (all missing, so read as `float64`) makes the `.str` accessor raise `AttributeError`. The model has no dtypes and gives missing cells. (2) Python's `\d` also matches non-ASCII decimal digits (Arabic-Indic, full-width), and `float` reads them; `Text.IsDigit` accepts only ASCII digits.
- pandas dtypes are not modelled. Indicators are the numbers 1 and 0, not booleans. A price column is converted exactly when it holds some text.
- The row index and the order of rows play no part; the median is shown not to depend on row order.
- frontend/app.py is not part of this model. It covers the UI session state, geocoding, maps and the HTTP call to the backend.
- The district choices mirror `NeighbourhoodEnum` (backend/main.py:52-71) as written. It offers 20 districts and has no value for Arganzuela, so a listing there cannot be requested.
