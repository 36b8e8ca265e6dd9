/**
 * The inference-side translator `transform_user_input` and the decision
 * logic of the `/predict` endpoint: a validated listing becomes one numeric
 * row laid out by the stored column schema of the trained model, and the
 * model's answer becomes an HTTP response.
 */
module Inference {
  import opened Wrappers
  import Modeling
  import Tables

  // ---------------------------------------------------------------------
  // The request
  // ---------------------------------------------------------------------

  datatype RoomType = EntireHome | PrivateRoom | SharedRoom | HotelRoom

  /** The text value of each room-type choice. */
  function RoomLabel(r: RoomType): string {
    match r
    case EntireHome => "Entire home/apt"
    case PrivateRoom => "Private room"
    case SharedRoom => "Shared room"
    case HotelRoom => "Hotel room"
  }

  /** The districts of Madrid offered to the user. */
  datatype Neighbourhood =
    | Barajas | Carabanchel | Centro | Chamartin | Chamberi | CiudadLineal | Fuencarral
    | Hortaleza | Latina | Moncloa | Moratalaz | PuenteVallecas | Retiro | Salamanca
    | SanBlas | Tetuan | Usera | Vicalvaro | VillaVallecas | Villaverde

  /** The text value of each district choice, as the listings data spells it. */
  function DistrictLabel(n: Neighbourhood): string {
    match n
    case Barajas => "Barajas"
    case Carabanchel => "Carabanchel"
    case Centro => "Centro"
    case Chamartin => "Chamartín"
    case Chamberi => "Chamberí"
    case CiudadLineal => "Ciudad Lineal"
    case Fuencarral => "Fuencarral - El Pardo"
    case Hortaleza => "Hortaleza"
    case Latina => "Latina"
    case Moncloa => "Moncloa - Aravaca"
    case Moratalaz => "Moratalaz"
    case PuenteVallecas => "Puente de Vallecas"
    case Retiro => "Retiro"
    case Salamanca => "Salamanca"
    case SanBlas => "San Blas - Canillejas"
    case Tetuan => "Tetuán"
    case Usera => "Usera"
    case Vicalvaro => "Vicálvaro"
    case VillaVallecas => "Villa de Vallecas"
    case Villaverde => "Villaverde"
  }

  /** The request body; the amenity flags, superhost flag, review count and rating have defaults upstream. */
  datatype PropertyData = PropertyData(
    neighbourhood: Neighbourhood, roomType: RoomType, latitude: real, longitude: real,
    accommodates: int, bedrooms: int, beds: int, bathrooms: real,
    hasAc: int, hasPool: int, hasElevator: int, hasParking: int,
    hostIsSuperhost: int, numberOfReviews: int, reviewScoresRating: real)

  /** The field constraints the request schema enforces before the endpoint runs. */
  predicate Valid(d: PropertyData) {
    d.accommodates > 0 && d.bedrooms >= 0 && d.beds > 0 && d.bathrooms >= 0.0
  }

  // ---------------------------------------------------------------------
  // The translator's own keys
  // ---------------------------------------------------------------------

  // Copied from the request.
  datatype InputField =
    Latitude | Longitude | Accommodates | Bedrooms | Beds | Bathrooms | HasAc | HasPool | HasElevator | HasParking

  // The simulated host.
  datatype HostField =
    | HostIsSuperhost | HostHasProfilePic | HostIdentityVerified | InstantBookable | HasAvailability
    | HostResponseTime | HostResponseRate | HostAcceptanceRate
    | Availability30 | Availability60 | Availability90 | Availability365 | DaysSinceHostSince

  // The review history.
  datatype ReviewField =
    | HasReviews | NumberOfReviews | ReviewsPerMonth | DaysSinceFirstReview | DaysSinceLastReview
    | ScoresRating | ScoresAccuracy | ScoresCleanliness | ScoresCheckin | ScoresCommunication
    | ScoresLocation | ScoresValue

  /** The five points of interest whose distance is a feature. */
  datatype Poi = Sol | Bernabeu | Metropolitano | Atocha | Aeropuerto

  datatype DerivedField = AccommodatesPerBed | BathroomsPerPerson | OccupancyRate30d

  /** A key the translator assigns whatever the schema holds. */
  datatype Field = Input(input: InputField) | Host(host: HostField) | Review(review: ReviewField)
                 | Distance(poi: Poi) | Derived(derived: DerivedField)

  function Name(f: Field): string {
    match f
    case Input(x) => InputName(x)
    case Host(x) => HostName(x)
    case Review(x) => ReviewName(x)
    case Distance(x) => DistanceName(x)
    case Derived(x) => DerivedName(x)
  }

  function InputName(x: InputField): string {
    match x
    case Latitude => "latitude"
    case Longitude => "longitude"
    case Accommodates => "accommodates"
    case Bedrooms => "bedrooms"
    case Beds => "beds"
    case Bathrooms => "bathrooms"
    case HasAc => "has_ac"
    case HasPool => "has_pool"
    case HasElevator => "has_elevator"
    case HasParking => "has_parking"
  }

  function HostName(x: HostField): string {
    match x
    case HostIsSuperhost => "host_is_superhost"
    case HostHasProfilePic => "host_has_profile_pic"
    case HostIdentityVerified => "host_identity_verified"
    case InstantBookable => "instant_bookable"
    case HasAvailability => "has_availability"
    case HostResponseTime => "host_response_time"
    case HostResponseRate => "host_response_rate"
    case HostAcceptanceRate => "host_acceptance_rate"
    case Availability30 => "availability_30"
    case Availability60 => "availability_60"
    case Availability90 => "availability_90"
    case Availability365 => "availability_365"
    case DaysSinceHostSince => "days_since_host_since"
  }

  function ReviewName(x: ReviewField): string {
    match x
    case HasReviews => "has_reviews"
    case NumberOfReviews => "number_of_reviews"
    case ReviewsPerMonth => "reviews_per_month"
    case DaysSinceFirstReview => "days_since_first_review"
    case DaysSinceLastReview => "days_since_last_review"
    case ScoresRating => "review_scores_rating"
    case ScoresAccuracy => "review_scores_accuracy"
    case ScoresCleanliness => "review_scores_cleanliness"
    case ScoresCheckin => "review_scores_checkin"
    case ScoresCommunication => "review_scores_communication"
    case ScoresLocation => "review_scores_location"
    case ScoresValue => "review_scores_value"
  }

  function DistanceName(x: Poi): string {
    match x
    case Sol => "distance_to_sol_km"
    case Bernabeu => "distance_to_bernabeu_km"
    case Metropolitano => "distance_to_metropolitano_km"
    case Atocha => "distance_to_atocha_km"
    case Aeropuerto => "distance_to_aeropuerto_km"
  }

  function DerivedName(x: DerivedField): string {
    match x
    case AccommodatesPerBed => "accommodates_per_bed"
    case BathroomsPerPerson => "bathrooms_per_person"
    case OccupancyRate30d => "occupancy_rate_30d"
  }

  /** The translator key a text names, if any: a candidate from the table below, kept only when its name is the text. */
  function Decode(c: string): (r: Option<Field>)
    ensures r.Some? ==> Name(r.value) == c
  {
    var k := Candidate(c);
    if k.Some? && Name(k.value) == c then k else None
  }

  /** The key names grouped by length, so that a lookup compares few texts. */
  function Candidate(c: string): Option<Field>
  {
    match |c|
    case 4 => Length4(c)
    case 6 => Length6(c)
    case 8 => Length8(c)
    case 9 => Length9(c)
    case 11 => Length11(c)
    case 12 => Length12(c)
    case 15 => Length15(c)
    case 16 => Length16(c)
    case 17 => Length17(c)
    case 18 => Length18(c)
    case 19 => Length19(c)
    case 20 => Length20(c)
    case 21 => Length21(c)
    case 22 => Length22(c)
    case 23 => Length23(c)
    case 25 => Length25(c)
    case 27 => Length27(c)
    case 28 => Length28(c)
    case _ => None
  }

  function Length4(c: string): Option<Field> {
    if c == "beds" then Some(Input(Beds))
    else None
  }

  function Length6(c: string): Option<Field> {
    if c == "has_ac" then Some(Input(HasAc))
    else None
  }

  function Length8(c: string): Option<Field> {
    if c == "latitude" then Some(Input(Latitude))
    else if c == "bedrooms" then Some(Input(Bedrooms))
    else if c == "has_pool" then Some(Input(HasPool))
    else None
  }

  function Length9(c: string): Option<Field> {
    if c == "longitude" then Some(Input(Longitude))
    else if c == "bathrooms" then Some(Input(Bathrooms))
    else None
  }

  function Length11(c: string): Option<Field> {
    if c == "has_parking" then Some(Input(HasParking))
    else if c == "has_reviews" then Some(Review(HasReviews))
    else None
  }

  function Length12(c: string): Option<Field> {
    if c == "accommodates" then Some(Input(Accommodates))
    else if c == "has_elevator" then Some(Input(HasElevator))
    else None
  }

  function Length15(c: string): Option<Field> {
    if c == "availability_30" then Some(Host(Availability30))
    else if c == "availability_60" then Some(Host(Availability60))
    else if c == "availability_90" then Some(Host(Availability90))
    else None
  }

  function Length16(c: string): Option<Field> {
    if c == "instant_bookable" then Some(Host(InstantBookable))
    else if c == "has_availability" then Some(Host(HasAvailability))
    else if c == "availability_365" then Some(Host(Availability365))
    else None
  }

  function Length17(c: string): Option<Field> {
    if c == "host_is_superhost" then Some(Host(HostIsSuperhost))
    else if c == "number_of_reviews" then Some(Review(NumberOfReviews))
    else if c == "reviews_per_month" then Some(Review(ReviewsPerMonth))
    else None
  }

  function Length18(c: string): Option<Field> {
    if c == "host_response_time" then Some(Host(HostResponseTime))
    else if c == "host_response_rate" then Some(Host(HostResponseRate))
    else if c == "distance_to_sol_km" then Some(Distance(Sol))
    else if c == "occupancy_rate_30d" then Some(Derived(OccupancyRate30d))
    else None
  }

  function Length19(c: string): Option<Field> {
    if c == "review_scores_value" then Some(Review(ScoresValue))
    else None
  }

  function Length20(c: string): Option<Field> {
    if c == "host_has_profile_pic" then Some(Host(HostHasProfilePic))
    else if c == "host_acceptance_rate" then Some(Host(HostAcceptanceRate))
    else if c == "review_scores_rating" then Some(Review(ScoresRating))
    else if c == "accommodates_per_bed" then Some(Derived(AccommodatesPerBed))
    else if c == "bathrooms_per_person" then Some(Derived(BathroomsPerPerson))
    else None
  }

  function Length21(c: string): Option<Field> {
    if c == "days_since_host_since" then Some(Host(DaysSinceHostSince))
    else if c == "review_scores_checkin" then Some(Review(ScoresCheckin))
    else if c == "distance_to_atocha_km" then Some(Distance(Atocha))
    else None
  }

  function Length22(c: string): Option<Field> {
    if c == "host_identity_verified" then Some(Host(HostIdentityVerified))
    else if c == "days_since_last_review" then Some(Review(DaysSinceLastReview))
    else if c == "review_scores_accuracy" then Some(Review(ScoresAccuracy))
    else if c == "review_scores_location" then Some(Review(ScoresLocation))
    else None
  }

  function Length23(c: string): Option<Field> {
    if c == "days_since_first_review" then Some(Review(DaysSinceFirstReview))
    else if c == "distance_to_bernabeu_km" then Some(Distance(Bernabeu))
    else None
  }

  function Length25(c: string): Option<Field> {
    if c == "review_scores_cleanliness" then Some(Review(ScoresCleanliness))
    else if c == "distance_to_aeropuerto_km" then Some(Distance(Aeropuerto))
    else None
  }

  function Length27(c: string): Option<Field> {
    if c == "review_scores_communication" then Some(Review(ScoresCommunication))
    else None
  }

  function Length28(c: string): Option<Field> {
    if c == "distance_to_metropolitano_km" then Some(Distance(Metropolitano))
    else None
  }

  lemma CandidateInputName(x: InputField)
    ensures Candidate(InputName(x)) == Some(Input(x))
  {
  }

  lemma CandidateHostName(x: HostField)
    ensures Candidate(HostName(x)) == Some(Host(x))
  {
    match x
    case HostIsSuperhost =>
    case HostHasProfilePic =>
    case HostIdentityVerified =>
    case InstantBookable =>
    case HasAvailability =>
    case HostResponseTime =>
    case HostResponseRate =>
    case HostAcceptanceRate =>
    case Availability30 =>
    case Availability60 =>
    case Availability90 =>
    case Availability365 =>
    case DaysSinceHostSince =>
  }

  lemma CandidateReviewName(x: ReviewField)
    ensures Candidate(ReviewName(x)) == Some(Review(x))
  {
    if IsScore(x) {
      CandidateScoreName(x);
    } else {
      CandidateHistoryName(x);
    }
  }

  /** The seven review sub-scores, as opposed to the review history. */
  predicate IsScore(x: ReviewField) {
    x.ScoresRating? || x.ScoresAccuracy? || x.ScoresCleanliness? || x.ScoresCheckin? || x.ScoresCommunication?
    || x.ScoresLocation? || x.ScoresValue?
  }

  lemma CandidateScoreName(x: ReviewField)
    requires IsScore(x)
    ensures Candidate(ReviewName(x)) == Some(Review(x))
  {
    match x
    case ScoresRating =>
    case ScoresAccuracy =>
    case ScoresCleanliness =>
    case ScoresCheckin =>
    case ScoresCommunication =>
    case ScoresLocation =>
    case ScoresValue =>
  }

  lemma CandidateHistoryName(x: ReviewField)
    requires !IsScore(x)
    ensures Candidate(ReviewName(x)) == Some(Review(x))
  {
    match x
    case HasReviews =>
    case NumberOfReviews =>
    case ReviewsPerMonth =>
    case DaysSinceFirstReview =>
    case DaysSinceLastReview =>
  }

  lemma CandidateDistanceName(x: Poi)
    ensures Candidate(DistanceName(x)) == Some(Distance(x))
  {
    match x
    case Sol =>
    case Bernabeu =>
    case Metropolitano =>
    case Atocha =>
    case Aeropuerto =>
  }

  lemma CandidateDerivedName(x: DerivedField)
    ensures Candidate(DerivedName(x)) == Some(Derived(x))
  {
    match x
    case AccommodatesPerBed =>
    case BathroomsPerPerson =>
    case OccupancyRate30d =>
  }

  /** `Decode` finds every key by its name. */
  lemma DecodeName(f: Field)
    ensures Decode(Name(f)) == Some(f)
  {
    match f
    case Input(x) => CandidateInputName(x);
    case Host(x) => CandidateHostName(x);
    case Review(x) => CandidateReviewName(x);
    case Distance(x) => CandidateDistanceName(x);
    case Derived(x) => CandidateDerivedName(x);
  }

  /** No two keys share a name. */
  lemma NameInjective(f: Field, g: Field)
    ensures Name(f) == Name(g) <==> f == g
  {
    DecodeName(f);
    DecodeName(g);
  }

  // ---------------------------------------------------------------------
  // What each key is set to
  // ---------------------------------------------------------------------

  /** The great-circle distance in km between two (latitude, longitude) points; its formula is not modelled. */
  type Haversine = (real, real, real, real) -> real

  /** Where each point of interest lies, as (latitude, longitude). */
  function Location(p: Poi): (real, real) {
    match p
    case Sol => (40.4168, -3.7038)
    case Bernabeu => (40.4530, -3.6883)
    case Metropolitano => (40.4361, -3.5995)
    case Atocha => (40.4065, -3.6908)
    case Aeropuerto => (40.4839, -3.5680)
  }

  /** A divisor that is never zero: `n if n > 0 else 1`. */
  function SafeDivisor(n: real): (r: real)
    ensures r > 0.0 && (n > 0.0 ==> r == n)
  {
    if n > 0.0 then n else 1.0
  }

  function InputValue(d: PropertyData, x: InputField): real {
    match x
    case Latitude => d.latitude
    case Longitude => d.longitude
    case Accommodates => d.accommodates as real
    case Bedrooms => d.bedrooms as real
    case Beds => d.beds as real
    case Bathrooms => d.bathrooms
    case HasAc => d.hasAc as real
    case HasPool => d.hasPool as real
    case HasElevator => d.hasElevator as real
    case HasParking => d.hasParking as real
  }

  /** A host with a year of experience, verified, answering within an hour (code 4) and accepting everything. */
  function HostValue(d: PropertyData, x: HostField): real {
    match x
    case HostIsSuperhost => d.hostIsSuperhost as real
    case HostHasProfilePic => 1.0
    case HostIdentityVerified => 1.0
    case InstantBookable => 1.0
    case HasAvailability => 1.0
    case HostResponseTime => 4.0
    case HostResponseRate => 100.0
    case HostAcceptanceRate => 100.0
    case Availability30 => 15.0
    case Availability60 => 30.0
    case Availability90 => 45.0
    case Availability365 => 180.0
    case DaysSinceHostSince => 365.0
  }

  /** Without reviews, the -1 sentinels the cleaning stage fills gaps with; with reviews, plausible good values. */
  function ReviewValue(d: PropertyData, x: ReviewField): real {
    if d.numberOfReviews == 0 then
      match x
      case HasReviews => 0.0
      case NumberOfReviews => 0.0
      case _ => -1.0
    else
      match x
      case HasReviews => 1.0
      case NumberOfReviews => d.numberOfReviews as real
      case ReviewsPerMonth => 1.5
      case DaysSinceFirstReview => 180.0
      case DaysSinceLastReview => 15.0
      case ScoresRating => d.reviewScoresRating
      case ScoresAccuracy => 4.8
      case ScoresCleanliness => 4.8
      case ScoresCheckin => 4.9
      case ScoresCommunication => 4.9
      case ScoresLocation => 4.8
      case ScoresValue => 4.7
  }

  function DerivedValue(d: PropertyData, x: DerivedField): real {
    match x
    case AccommodatesPerBed => d.accommodates as real / SafeDivisor(d.beds as real)
    case BathroomsPerPerson => d.bathrooms / SafeDivisor(d.accommodates as real)
    case OccupancyRate30d => (30.0 - HostValue(d, Availability30)) / 30.0
  }

  function Value(d: PropertyData, dist: Haversine, f: Field): real {
    match f
    case Input(x) => InputValue(d, x)
    case Host(x) => HostValue(d, x)
    case Review(x) => ReviewValue(d, x)
    case Distance(p) => dist(d.latitude, d.longitude, Location(p).0, Location(p).1)
    case Derived(x) => DerivedValue(d, x)
  }

  /** The indicator column of the chosen district, named as the one-hot step names it. */
  function DistrictColumn(n: Neighbourhood): string {
    Modeling.DummyName("neighbourhood_group_cleansed", DistrictLabel(n))
  }

  /** The indicator column of the chosen room type. */
  function RoomColumn(r: RoomType): string {
    Modeling.DummyName("room_type", RoomLabel(r))
  }

  /**
   * The translated value of schema column `c`: 1 for the chosen district's and
   * room type's indicators, the assigned value for one of the translator's own
   * keys, 0 for anything else.
   */
  function Feature(d: PropertyData, dist: Haversine, c: string): real {
    if c == DistrictColumn(d.neighbourhood) || c == RoomColumn(d.roomType) then 1.0
    else match Decode(c)
      case Some(f) => Value(d, dist, f)
      case None => 0.0
  }

  /** The row the translator returns for schema `cols`. */
  function FeatureRow(d: PropertyData, dist: Haversine, cols: seq<string>): (row: seq<real>)
    ensures |row| == |cols| && forall i :: 0 <= i < |cols| ==> row[i] == Feature(d, dist, cols[i])
  {
    seq(|cols|, i requires 0 <= i < |cols| => Feature(d, dist, cols[i]))
  }

  // ---------------------------------------------------------------------
  // The dictionary the translator fills
  // ---------------------------------------------------------------------

  /**
   * The translator's dictionary `base_data`. The entries under its own keys
   * are held by key in `own`; every other entry (the schema's remaining
   * columns, the indicators) is held by its text in `other`. An entry in
   * `own` hides the zero the schema put under the same name.
   */
  datatype Dict = Dict(own: map<Field, real>, other: map<string, real>)

  /** `c in base_data`. */
  predicate Has(b: Dict, c: string) {
    (Decode(c).Some? && Decode(c).value in b.own) || c in b.other
  }

  /** `base_data[c]`. */
  function Get(b: Dict, c: string): real
    requires Has(b, c)
  {
    if Decode(c).Some? && Decode(c).value in b.own then b.own[Decode(c).value] else b.other[c]
  }

  /** `base_data[k] = v` for one of the translator's own keys. */
  function Put(b: Dict, k: Field, v: real): Dict {
    Dict(b.own[k := v], b.other)
  }

  /** `base_data[c] = v` for any text `c`: then `c` reads `v` and every other name reads as before. */
  function Assign(b: Dict, c: string, v: real): (r: Dict)
    ensures forall x :: Has(r, x) <==> Has(b, x) || x == c
    ensures Has(r, c) && Get(r, c) == v
    ensures forall x :: Has(b, x) && x != c ==> Get(r, x) == Get(b, x)
  {
    if Decode(c).Some? then Put(b, Decode(c).value, v) else Dict(b.own, b.other[c := v])
  }

  /** Writing a key under its name is writing it. */
  lemma AssignName(b: Dict, k: Field, v: real)
    ensures Assign(b, Name(k), v) == Put(b, k, v)
  {
    DecodeName(k);
  }

  /** Step 1: `{col: 0 for col in model_columns}`. */
  function Zeros(cols: seq<string>): (b: Dict)
    ensures forall c :: Has(b, c) <==> c in cols
    ensures forall c :: c in cols ==> Get(b, c) == 0.0
  {
    Dict(map[], map c | c in cols :: 0.0)
  }

  // ---------------------------------------------------------------------
  // The translator, section by section
  // ---------------------------------------------------------------------

  /** Step 2: the request's own values. */
  method CopyInputs(b: map<Field, real>, d: PropertyData) returns (r: map<Field, real>)
    ensures forall f :: f in b ==> f in r
    ensures forall x :: Input(x) in r
    ensures forall f :: f in r ==> f in b || f.Input?
    ensures forall x :: r[Input(x)] == InputValue(d, x)
    ensures forall f :: f in b && !f.Input? ==> r[f] == b[f]
  {
    r := b;
    r := r[Input(Latitude) := d.latitude];
    r := r[Input(Longitude) := d.longitude];
    r := r[Input(Accommodates) := d.accommodates as real];
    r := r[Input(Bedrooms) := d.bedrooms as real];
    r := r[Input(Beds) := d.beds as real];
    r := r[Input(Bathrooms) := d.bathrooms];
    r := r[Input(HasAc) := d.hasAc as real];
    r := r[Input(HasPool) := d.hasPool as real];
    r := r[Input(HasElevator) := d.hasElevator as real];
    r := r[Input(HasParking) := d.hasParking as real];
    forall x ensures Input(x) in r && r[Input(x)] == InputValue(d, x) {
      match x
      case Latitude =>
      case Longitude =>
      case Accommodates =>
      case Bedrooms =>
      case Beds =>
      case Bathrooms =>
      case HasAc =>
      case HasPool =>
      case HasElevator =>
      case HasParking =>
    }
  }

  /** Step 3: the simulated host. */
  method SimulateHost(b: map<Field, real>, d: PropertyData) returns (r: map<Field, real>)
    ensures forall f :: f in b ==> f in r
    ensures forall x :: Host(x) in r
    ensures forall f :: f in r ==> f in b || f.Host?
    ensures forall x :: r[Host(x)] == HostValue(d, x)
    ensures forall f :: f in b && !f.Host? ==> r[f] == b[f]
  {
    r := b;
    r := r[Host(HostIsSuperhost) := d.hostIsSuperhost as real];
    r := r[Host(HostHasProfilePic) := 1.0];
    r := r[Host(HostIdentityVerified) := 1.0];
    r := r[Host(InstantBookable) := 1.0];
    r := r[Host(HasAvailability) := 1.0];
    r := r[Host(HostResponseTime) := 4.0];
    r := r[Host(HostResponseRate) := 100.0];
    r := r[Host(HostAcceptanceRate) := 100.0];
    r := r[Host(Availability30) := 15.0];
    r := r[Host(Availability60) := 30.0];
    r := r[Host(Availability90) := 45.0];
    r := r[Host(Availability365) := 180.0];
    r := r[Host(DaysSinceHostSince) := 365.0];
    forall x ensures Host(x) in r && r[Host(x)] == HostValue(d, x) {
      match x
      case HostIsSuperhost =>
      case HostHasProfilePic =>
      case HostIdentityVerified =>
      case InstantBookable =>
      case HasAvailability =>
      case HostResponseTime =>
      case HostResponseRate =>
      case HostAcceptanceRate =>
      case Availability30 =>
      case Availability60 =>
      case Availability90 =>
      case Availability365 =>
      case DaysSinceHostSince =>
    }
  }

  /** Step 4: the review history, with the -1 sentinels when there are no reviews. */
  method FillReviews(b: map<Field, real>, d: PropertyData) returns (r: map<Field, real>)
    ensures forall f :: f in b ==> f in r
    ensures forall x :: Review(x) in r
    ensures forall f :: f in r ==> f in b || f.Review?
    ensures forall x :: r[Review(x)] == ReviewValue(d, x)
    ensures forall f :: f in b && !f.Review? ==> r[f] == b[f]
  {
    r := b;
    if d.numberOfReviews == 0 {
      r := r[Review(HasReviews) := 0.0];
      r := r[Review(NumberOfReviews) := 0.0];
      r := r[Review(ReviewsPerMonth) := -1.0];
      r := r[Review(DaysSinceFirstReview) := -1.0];
      r := r[Review(DaysSinceLastReview) := -1.0];
      r := r[Review(ScoresRating) := -1.0];
      r := r[Review(ScoresAccuracy) := -1.0];
      r := r[Review(ScoresCleanliness) := -1.0];
      r := r[Review(ScoresCheckin) := -1.0];
      r := r[Review(ScoresCommunication) := -1.0];
      r := r[Review(ScoresLocation) := -1.0];
      r := r[Review(ScoresValue) := -1.0];
    } else {
      r := r[Review(HasReviews) := 1.0];
      r := r[Review(NumberOfReviews) := d.numberOfReviews as real];
      r := r[Review(ReviewsPerMonth) := 1.5];
      r := r[Review(DaysSinceFirstReview) := 180.0];
      r := r[Review(DaysSinceLastReview) := 15.0];
      r := r[Review(ScoresRating) := d.reviewScoresRating];
      r := r[Review(ScoresAccuracy) := 4.8];
      r := r[Review(ScoresCleanliness) := 4.8];
      r := r[Review(ScoresCheckin) := 4.9];
      r := r[Review(ScoresCommunication) := 4.9];
      r := r[Review(ScoresLocation) := 4.8];
      r := r[Review(ScoresValue) := 4.7];
    }
    forall x ensures Review(x) in r && r[Review(x)] == ReviewValue(d, x) {
      match x
      case HasReviews =>
      case NumberOfReviews =>
      case ReviewsPerMonth =>
      case DaysSinceFirstReview =>
      case DaysSinceLastReview =>
      case ScoresRating =>
      case ScoresAccuracy =>
      case ScoresCleanliness =>
      case ScoresCheckin =>
      case ScoresCommunication =>
      case ScoresLocation =>
      case ScoresValue =>
    }
  }

  /** Step 5: the distance to each point of interest. */
  method AddDistances(b: map<Field, real>, d: PropertyData, dist: Haversine) returns (r: map<Field, real>)
    ensures forall f :: f in b ==> f in r
    ensures forall x :: Distance(x) in r
    ensures forall f :: f in r ==> f in b || f.Distance?
    ensures forall x :: r[Distance(x)] == dist(d.latitude, d.longitude, Location(x).0, Location(x).1)
    ensures forall f :: f in b && !f.Distance? ==> r[f] == b[f]
  {
    r := b;
    r := r[Distance(Sol) := dist(d.latitude, d.longitude, 40.4168, -3.7038)];
    r := r[Distance(Bernabeu) := dist(d.latitude, d.longitude, 40.4530, -3.6883)];
    r := r[Distance(Metropolitano) := dist(d.latitude, d.longitude, 40.4361, -3.5995)];
    r := r[Distance(Atocha) := dist(d.latitude, d.longitude, 40.4065, -3.6908)];
    r := r[Distance(Aeropuerto) := dist(d.latitude, d.longitude, 40.4839, -3.5680)];
    forall x ensures Distance(x) in r && r[Distance(x)] == dist(d.latitude, d.longitude, Location(x).0, Location(x).1) {
      match x
      case Sol =>
      case Bernabeu =>
      case Metropolitano =>
      case Atocha =>
      case Aeropuerto =>
    }
  }

  /** Step 6: the guarded ratios, and the occupancy read back from the dictionary. */
  method AddRatios(b: map<Field, real>, d: PropertyData) returns (r: map<Field, real>)
    requires Host(Availability30) in b && b[Host(Availability30)] == HostValue(d, Availability30)
    ensures forall f :: f in b ==> f in r
    ensures forall x :: Derived(x) in r
    ensures forall f :: f in r ==> f in b || f.Derived?
    ensures forall x :: r[Derived(x)] == DerivedValue(d, x)
    ensures forall f :: f in b && !f.Derived? ==> r[f] == b[f]
  {
    r := b;
    var bedsSafe := if d.beds > 0 then d.beds else 1;
    r := r[Derived(AccommodatesPerBed) := d.accommodates as real / bedsSafe as real];
    var personsSafe := if d.accommodates > 0 then d.accommodates else 1;
    r := r[Derived(BathroomsPerPerson) := d.bathrooms / personsSafe as real];
    r := r[Derived(OccupancyRate30d) := (30.0 - r[Host(Availability30)]) / 30.0];
    forall x ensures Derived(x) in r && r[Derived(x)] == DerivedValue(d, x) {
      match x
      case AccommodatesPerBed =>
      case BathroomsPerPerson =>
      case OccupancyRate30d =>
    }
  }

  /** Step 7: the chosen district's and room type's indicators, written only where the dictionary has them. */
  method SetIndicators(b: Dict, d: PropertyData) returns (r: Dict)
    ensures forall c :: Has(r, c) <==> Has(b, c)
    ensures forall c :: Has(b, c) ==>
      Get(r, c) == if c == DistrictColumn(d.neighbourhood) || c == RoomColumn(d.roomType) then 1.0 else Get(b, c)
  {
    r := b;
    var districtCol := DistrictColumn(d.neighbourhood);
    if Has(r, districtCol) {
      r := Assign(r, districtCol, 1.0);
    }
    var roomCol := RoomColumn(d.roomType);
    if Has(r, roomCol) {
      r := Assign(r, roomCol, 1.0);
    }
  }

  /** Steps 2 to 6: every key of the translator holds its value. */
  method AssignKeys(b: map<Field, real>, d: PropertyData, dist: Haversine) returns (own: map<Field, real>)
    ensures forall f :: f in own && own[f] == Value(d, dist, f)
  {
    var own1 := CopyInputs(b, d);
    var own2 := SimulateHost(own1, d);
    var own3 := FillReviews(own2, d);
    var own4 := AddDistances(own3, d, dist);
    own := AddRatios(own4, d);
    forall f ensures f in own && own[f] == Value(d, dist, f) {
      match f
      case Input(x) =>
      case Host(x) =>
      case Review(x) =>
      case Distance(x) =>
      case Derived(x) =>
    }
  }

  /** Reading the schema after step 7 gives the translated value of each column. */
  lemma ReadBack(d: PropertyData, dist: Haversine, cols: seq<string>, filled: Dict, base: Dict, i: int)
    requires 0 <= i < |cols|
    requires filled.other == Zeros(cols).other
    requires forall f :: f in filled.own && filled.own[f] == Value(d, dist, f)
    requires forall c :: Has(base, c) <==> Has(filled, c)
    requires forall c :: Has(filled, c) ==>
      Get(base, c) == if c == DistrictColumn(d.neighbourhood) || c == RoomColumn(d.roomType) then 1.0 else Get(filled, c)
    ensures Has(base, cols[i]) && Get(base, cols[i]) == Feature(d, dist, cols[i])
  {
    var c := cols[i];
    assert c in filled.other;
  }

  /**
   * `transform_user_input`: the row for schema `cols`, column by column in
   * schema order, whatever else was assigned on the way.
   */
  method TransformUserInput(d: PropertyData, cols: seq<string>, dist: Haversine) returns (row: seq<real>)
    requires Valid(d)
    ensures |row| == |cols|
    ensures forall i :: 0 <= i < |cols| ==> row[i] == Feature(d, dist, cols[i])
  {
    var base := Zeros(cols);
    var own := AssignKeys(base.own, d, dist);
    base := base.(own := own);
    var filled := base;
    base := SetIndicators(base, d);
    forall i | 0 <= i < |cols| ensures Has(base, cols[i]) && Get(base, cols[i]) == Feature(d, dist, cols[i]) {
      ReadBack(d, dist, cols, filled, base, i);
    }
    row := seq(|cols|, i requires 0 <= i < |cols| => Get(base, cols[i]));
  }

  // ---------------------------------------------------------------------
  // What the row holds
  // ---------------------------------------------------------------------

  lemma DistrictLabelInjective(a: Neighbourhood, b: Neighbourhood)
    ensures DistrictLabel(a) == DistrictLabel(b) <==> a == b
  {
  }

  lemma RoomLabelInjective(a: RoomType, b: RoomType)
    ensures RoomLabel(a) == RoomLabel(b) <==> a == b
  {
  }

  /** A district's indicator name is longer than any of the translator's keys. */
  lemma DistrictNotKey(n: Neighbourhood)
    ensures Decode(DistrictColumn(n)) == None
  {
    Modeling.DummyNamePrefix("neighbourhood_group_cleansed", DistrictLabel(n));
    LongNotKey(DistrictColumn(n));
  }

  /** The longest key has 28 characters. */
  lemma LongNotKey(c: string)
    requires |c| > 28
    ensures Decode(c) == None
  {
  }

  predicate StartsRo(s: string) {
    |s| > 1 && s[0] == 'r' && s[1] == 'o'
  }

  /** No key of the translator begins with "ro". */
  lemma KeyInitials(f: Field)
    ensures !StartsRo(Name(f))
  {
    match f
    case Input(x) => InputInitials(x);
    case Host(x) => HostInitials(x);
    case Review(x) => ReviewInitials(x);
    case Distance(x) => DistanceInitials(x);
    case Derived(x) => DerivedInitials(x);
  }

  lemma InputInitials(x: InputField)
    ensures !StartsRo(InputName(x))
  {
    match x
    case Latitude =>
    case Longitude =>
    case Accommodates =>
    case Bedrooms =>
    case Beds =>
    case Bathrooms =>
    case HasAc =>
    case HasPool =>
    case HasElevator =>
    case HasParking =>
  }

  lemma HostInitials(x: HostField)
    ensures !StartsRo(HostName(x))
  {
    match x
    case HostIsSuperhost =>
    case HostHasProfilePic =>
    case HostIdentityVerified =>
    case InstantBookable =>
    case HasAvailability =>
    case HostResponseTime =>
    case HostResponseRate =>
    case HostAcceptanceRate =>
    case Availability30 =>
    case Availability60 =>
    case Availability90 =>
    case Availability365 =>
    case DaysSinceHostSince =>
  }

  lemma ReviewInitials(x: ReviewField)
    ensures !StartsRo(ReviewName(x))
  {
    match x
    case HasReviews =>
    case NumberOfReviews =>
    case ReviewsPerMonth =>
    case DaysSinceFirstReview =>
    case DaysSinceLastReview =>
    case ScoresRating =>
    case ScoresAccuracy =>
    case ScoresCleanliness =>
    case ScoresCheckin =>
    case ScoresCommunication =>
    case ScoresLocation =>
    case ScoresValue =>
  }

  lemma DistanceInitials(x: Poi)
    ensures !StartsRo(DistanceName(x))
  {
    match x
    case Sol =>
    case Bernabeu =>
    case Metropolitano =>
    case Atocha =>
    case Aeropuerto =>
  }

  lemma DerivedInitials(x: DerivedField)
    ensures !StartsRo(DerivedName(x))
  {
    match x
    case AccommodatesPerBed =>
    case BathroomsPerPerson =>
    case OccupancyRate30d =>
  }

  /** A room type's indicator name, which begins with "ro", is none of the translator's keys. */
  lemma RoomNotKey(r: RoomType)
    ensures Decode(RoomColumn(r)) == None
  {
    var c := RoomColumn(r);
    assert StartsRo(c);
    if Decode(c).Some? {
      KeyInitials(Decode(c).value);
    }
  }

  /** A district's indicator never names a room type. */
  lemma DistrictNotRoom(n: Neighbourhood, r: RoomType)
    ensures DistrictColumn(n) != RoomColumn(r)
  {
    Modeling.DummyNamePrefix("neighbourhood_group_cleansed", DistrictLabel(n));
    Modeling.DummyNamePrefix("room_type", RoomLabel(r));
  }

  /** Each of the translator's keys reads the value assigned to it. */
  lemma FeatureOfKey(d: PropertyData, dist: Haversine, f: Field)
    ensures Feature(d, dist, Name(f)) == Value(d, dist, f)
  {
    DecodeName(f);
    DistrictNotKey(d.neighbourhood);
    RoomNotKey(d.roomType);
  }

  /** The listing's own fields are copied into the row unchanged. */
  lemma InputsCopied(d: PropertyData, dist: Haversine, x: InputField)
    ensures x == Accommodates ==> Feature(d, dist, Name(Input(x))) == d.accommodates as real
    ensures x == Bedrooms ==> Feature(d, dist, Name(Input(x))) == d.bedrooms as real
    ensures x == Beds ==> Feature(d, dist, Name(Input(x))) == d.beds as real
    ensures x == Bathrooms ==> Feature(d, dist, Name(Input(x))) == d.bathrooms
    ensures x == HasAc ==> Feature(d, dist, Name(Input(x))) == d.hasAc as real
    ensures x == HasPool ==> Feature(d, dist, Name(Input(x))) == d.hasPool as real
    ensures x == HasElevator ==> Feature(d, dist, Name(Input(x))) == d.hasElevator as real
    ensures x == HasParking ==> Feature(d, dist, Name(Input(x))) == d.hasParking as real
  {
    FeatureOfKey(d, dist, Input(x));
  }

  /** The simulated host answers within an hour: the code the ordinal encoding gives that level. */
  lemma ResponseTimeIsFastest(d: PropertyData, dist: Haversine)
    ensures Feature(d, dist, Name(Host(HostResponseTime))) == Modeling.ResponseCode(Tables.Str(Modeling.ResponseLevels[4])).x
  {
    FeatureOfKey(d, dist, Host(HostResponseTime));
    Modeling.ResponseCodeScale(Tables.Str(Modeling.ResponseLevels[4]));
  }

  /** Apart from the superhost flag the simulated host is the same for every request. */
  lemma HostIsFixed(d: PropertyData, e: PropertyData, dist: Haversine, x: HostField)
    ensures x == HostIsSuperhost ==> Feature(d, dist, Name(Host(x))) == d.hostIsSuperhost as real
    ensures x != HostIsSuperhost ==> Feature(d, dist, Name(Host(x))) == Feature(e, dist, Name(Host(x)))
  {
    FeatureOfKey(d, dist, Host(x));
    FeatureOfKey(e, dist, Host(x));
  }

  /** A listing without reviews has none and 0 of them, and the -1 sentinel in every other review field. */
  lemma NoReviewsSentinels(d: PropertyData, dist: Haversine, x: ReviewField)
    requires d.numberOfReviews == 0
    ensures Feature(d, dist, Name(Review(x))) == if x == HasReviews || x == NumberOfReviews then 0.0 else -1.0
  {
    FeatureOfKey(d, dist, Review(x));
  }

  /** A reviewed listing has reviews, keeps its count and rating, and gets fixed typical values elsewhere. */
  lemma ReviewedDefaults(d: PropertyData, dist: Haversine, x: ReviewField)
    requires d.numberOfReviews != 0
    ensures x == HasReviews ==> Feature(d, dist, Name(Review(x))) == 1.0
    ensures x == NumberOfReviews ==> Feature(d, dist, Name(Review(x))) == d.numberOfReviews as real
    ensures x == ScoresRating ==> Feature(d, dist, Name(Review(x))) == d.reviewScoresRating
    ensures x == ReviewsPerMonth ==> Feature(d, dist, Name(Review(x))) == 1.5
    ensures x == DaysSinceFirstReview ==> Feature(d, dist, Name(Review(x))) == 180.0
    ensures x == DaysSinceLastReview ==> Feature(d, dist, Name(Review(x))) == 15.0
    ensures x == ScoresAccuracy ==> Feature(d, dist, Name(Review(x))) == 4.8
    ensures x == ScoresCleanliness ==> Feature(d, dist, Name(Review(x))) == 4.8
    ensures x == ScoresCheckin ==> Feature(d, dist, Name(Review(x))) == 4.9
    ensures x == ScoresCommunication ==> Feature(d, dist, Name(Review(x))) == 4.9
    ensures x == ScoresLocation ==> Feature(d, dist, Name(Review(x))) == 4.8
    ensures x == ScoresValue ==> Feature(d, dist, Name(Review(x))) == 4.7
  {
    FeatureOfKey(d, dist, Review(x));
  }

  /** Each distance feature is the distance from the listing's own coordinates to its point of interest. */
  lemma DistancesFromListing(d: PropertyData, dist: Haversine, p: Poi)
    ensures Feature(d, dist, Name(Distance(p))) == dist(d.latitude, d.longitude, Location(p).0, Location(p).1)
    ensures Feature(d, dist, "latitude") == d.latitude && Feature(d, dist, "longitude") == d.longitude
  {
    FeatureOfKey(d, dist, Distance(p));
    FeatureOfKey(d, dist, Input(Latitude));
    FeatureOfKey(d, dist, Input(Longitude));
  }

  /** On a valid request the guards never fire: the ratios divide by the bed count and the guest count. */
  lemma RatiosOfValidRequest(d: PropertyData, dist: Haversine)
    requires Valid(d)
    ensures Feature(d, dist, Name(Derived(AccommodatesPerBed))) == d.accommodates as real / d.beds as real
    ensures Feature(d, dist, Name(Derived(BathroomsPerPerson))) == d.bathrooms / d.accommodates as real
  {
    FeatureOfKey(d, dist, Derived(AccommodatesPerBed));
    FeatureOfKey(d, dist, Derived(BathroomsPerPerson));
  }

  /** The occupancy is derived from the simulated 30-day availability: half of the month. */
  lemma OccupancyFromAvailability(d: PropertyData, dist: Haversine)
    ensures Feature(d, dist, Name(Derived(OccupancyRate30d))) == (30.0 - Feature(d, dist, Name(Host(Availability30)))) / 30.0 == 0.5
  {
    FeatureOfKey(d, dist, Derived(OccupancyRate30d));
    FeatureOfKey(d, dist, Host(Availability30));
  }

  /** A schema column that is neither one of the translator's keys nor a chosen indicator stays 0. */
  lemma UnassignedIsZero(d: PropertyData, dist: Haversine, c: string)
    requires forall f :: Name(f) != c
    requires c != DistrictColumn(d.neighbourhood) && c != RoomColumn(d.roomType)
    ensures Feature(d, dist, c) == 0.0
  {
  }

  /** Of all district indicators only the chosen district's is 1; the others are 0. */
  lemma OneDistrictSet(d: PropertyData, dist: Haversine, n: Neighbourhood)
    ensures Feature(d, dist, DistrictColumn(n)) == if n == d.neighbourhood then 1.0 else 0.0
  {
    DistrictNotKey(n);
    DistrictNotRoom(n, d.roomType);
    DistrictLabelInjective(n, d.neighbourhood);
    Modeling.DummyNameInjective("neighbourhood_group_cleansed", DistrictLabel(n), DistrictLabel(d.neighbourhood));
  }

  /** Of all room-type indicators only the chosen type's is 1; the others are 0. */
  lemma OneRoomTypeSet(d: PropertyData, dist: Haversine, r: RoomType)
    ensures Feature(d, dist, RoomColumn(r)) == if r == d.roomType then 1.0 else 0.0
  {
    RoomNotKey(r);
    DistrictNotRoom(d.neighbourhood, r);
    RoomLabelInjective(r, d.roomType);
    Modeling.DummyNameInjective("room_type", RoomLabel(r), RoomLabel(d.roomType));
  }

  /** The district indicator the translator sets is a column the one-hot step generates from training data `t` exactly when the district is a category of it other than the dropped first one. */
  lemma DistrictColumnTrained(t: Tables.Table, n: Neighbourhood)
    ensures Modeling.IndicatorOf(t, DistrictColumn(n)) <==>
      "neighbourhood_group_cleansed" in t.data && DistrictLabel(n) in Modeling.Kept(t.data["neighbourhood_group_cleansed"])
  {
    Modeling.IndicatorOfName(t, "neighbourhood_group_cleansed", DistrictLabel(n));
  }

  /** The same for the room-type indicator. */
  lemma RoomColumnTrained(t: Tables.Table, r: RoomType)
    ensures Modeling.IndicatorOf(t, RoomColumn(r)) <==>
      "room_type" in t.data && RoomLabel(r) in Modeling.Kept(t.data["room_type"])
  {
    Modeling.IndicatorOfName(t, "room_type", RoomLabel(r));
  }

  // ---------------------------------------------------------------------
  // The prediction endpoint
  // ---------------------------------------------------------------------

  /** The nearest integer to `y`, a tie going to the even neighbour (the rounding of the language's `round`). */
  function RoundHalfEven(y: real): (n: int)
    ensures -0.5 <= y - n as real <= 0.5
    ensures (y - n as real == 0.5 || y - n as real == -0.5) ==> n % 2 == 0
  {
    var f := y.Floor;
    var frac := y - f as real;
    if frac < 0.5 then f
    else if frac > 0.5 then f + 1
    else if f % 2 == 0 then f
    else f + 1
  }

  /** `x` rounded to two decimals: a whole number of cents, at most half a cent away. */
  function Round2(x: real): (r: real)
    ensures -0.005 <= r - x <= 0.005
    ensures (r * 100.0).Floor as real == r * 100.0
  {
    RoundHalfEven(x * 100.0) as real / 100.0
  }

  /** An integer rounds to itself. */
  lemma RoundWhole(n: int)
    ensures RoundHalfEven(n as real) == n
  {
    assert (n as real).Floor == n;
  }

  /** Rounding an amount that is already rounded changes nothing. */
  lemma Round2Idempotent(x: real)
    ensures Round2(Round2(x)) == Round2(x)
  {
    var n := RoundHalfEven(x * 100.0);
    assert Round2(x) * 100.0 == n as real;
    RoundWhole(n);
  }

  /** Every amount exactly half-way between `n` and `n + 1` cents goes to the even one of the two (so 0.125 becomes 0.12 and 0.135 becomes 0.14). */
  lemma {:induction false} Round2Ties(n: int)
    ensures Round2((2 * n + 1) as real / 200.0) == (if n % 2 == 0 then n else n + 1) as real / 100.0
  {
    var x := (2 * n + 1) as real / 200.0;
    assert x * 100.0 == n as real + 0.5;
    assert (n as real + 0.5).Floor == n;
  }

  /** The trained price model, applied to a row whose values are listed in the order of its columns; it may fail. */
  type Predictor = (seq<string>, seq<real>) -> Result<real>

  datatype Response = Prediction(priceEuros: real, currency: string) | HttpError(status: int, detail: string)

  /**
   * The endpoint: a server error, before any translation, when the model or
   * its column list did not load; otherwise the translated row goes to the
   * model, a failure becoming a client error and a price being rounded to cents.
   */
  method PredictPrice(property: PropertyData, model: Option<Predictor>, columns: Option<seq<string>>, dist: Haversine)
    returns (r: Response)
    requires Valid(property)
    ensures (model.None? || columns.None?) <==> r == HttpError(500, "Model or columns not loaded on server.")
    ensures model.Some? && columns.Some? ==>
      match model.value(columns.value, FeatureRow(property, dist, columns.value))
      case Ok(p) => r == Prediction(Round2(p), "EUR")
      case Err(e) => r == HttpError(400, "Error making prediction: " + e)
  {
    if model.None? || columns.None? {
      return HttpError(500, "Model or columns not loaded on server.");
    }
    var row := TransformUserInput(property, columns.value, dist);
    assert row == FeatureRow(property, dist, columns.value);
    var prediction := model.value(columns.value, row);
    match prediction
    case Ok(p) => r := Prediction(Round2(p), "EUR");
    case Err(e) => r := HttpError(400, "Error making prediction: " + e);
  }
}
