/**
 * The shared record shapes and the request validator of the travel-recommendation app.
 * Tables, insert shapes and the recommendation response are plain values here; the
 * zod/drizzle schema machinery is replaced by one datatype per record and one validator.
 */
module Schema {
  import opened Wrappers

  // ----- users table -----

  /** A stored user: the insert data plus its serial `id`. */
  datatype User = User(id: int, username: string, password: string)

  /** The insert shape of a user: exactly `username` and `password`. */
  datatype InsertUser = InsertUser(username: string, password: string)

  /** The stored user made from insert data and an allocated id. */
  function UserWithId(insert: InsertUser, id: int): (u: User)
    ensures u.id == id
    ensures InsertUserOf(u) == insert
  {
    User(id, insert.username, insert.password)
  }

  /** The insert part of a stored user (everything but `id`). */
  function InsertUserOf(u: User): InsertUser
  {
    InsertUser(u.username, u.password)
  }

  // ----- recommendation request -----

  /** The optional leisure-time preferences: three independent free-text fields. */
  datatype LeisureTime = LeisureTime(dailyHours: Option<string>, preferredTime: Option<string>, travelStyle: Option<string>)

  /** The body of a recommendation request. */
  datatype CreateRecommendation = CreateRecommendation(itineraryText: string, interests: seq<string>, leisureTime: Option<LeisureTime>)

  const ItineraryTooShort := "Itinerary must be at least 10 characters"
  const NoInterestSelected := "Please select at least one interest"

  /** The request validator: the itinerary needs at least 10 characters and the interest
      list at least one element. Interest values and the leisure fields are not checked.
      Like zod, it reports every failing field, in field order. */
  function ValidateCreateRecommendation(body: CreateRecommendation): (r: Result<CreateRecommendation, seq<string>>)
    ensures r.Success? <==> |body.itineraryText| >= 10 && |body.interests| >= 1
    ensures r.Success? ==> r.value == body
    ensures r.Failure? ==> r.error != []
    ensures r.Failure? ==> (ItineraryTooShort in r.error <==> |body.itineraryText| < 10)
    ensures r.Failure? ==> (NoInterestSelected in r.error <==> |body.interests| == 0)
    ensures r.Failure? && |body.itineraryText| < 10 ==> r.error[0] == ItineraryTooShort
  {
    var issues := (if |body.itineraryText| < 10 then [ItineraryTooShort] else [])
                + (if |body.interests| < 1 then [NoInterestSelected] else []);
    if issues == [] then Success(body) else Failure(issues)
  }

  // ----- recommendation response -----

  /** A must-visit place's rating: a JavaScript number that is passed through and never inspected. */
  type Rating(==)

  datatype MustVisitPlace = MustVisitPlace(name: string, description: string, duration: string, rating: Rating, category: string)

  /** A food recommendation: its secondary field is a price range. */
  datatype FoodRecommendation = FoodRecommendation(name: string, description: string, priceRange: string, matchReason: string, category: string)

  /** A culture, nature or shopping recommendation: its secondary field is a duration. */
  datatype ActivityRecommendation = ActivityRecommendation(name: string, description: string, duration: string, matchReason: string, category: string)

  /** The four personalized categories; each is always present. */
  datatype PersonalizedRecommendations = PersonalizedRecommendations(
    food: seq<FoodRecommendation>,
    culture: seq<ActivityRecommendation>,
    nature: seq<ActivityRecommendation>,
    shopping: seq<ActivityRecommendation>)

  datatype RecommendationResponse = RecommendationResponse(
    mustVisitPlaces: seq<MustVisitPlace>,
    personalizedRecommendations: PersonalizedRecommendations)

  // ----- recommendations table -----

  /** The insert shape of a stored recommendation: the table's columns without `id` and `createdAt`. */
  datatype InsertRecommendation = InsertRecommendation(
    itineraryText: string,
    interests: seq<string>,
    leisureTime: Option<LeisureTime>,
    recommendations: RecommendationResponse)

  /** A stored recommendation. */
  datatype Recommendation = Recommendation(
    id: int,
    itineraryText: string,
    interests: seq<string>,
    leisureTime: Option<LeisureTime>,
    recommendations: RecommendationResponse,
    createdAt: string)

  /** The stored record made from insert data, an allocated id and a timestamp. */
  function RecommendationWithId(insert: InsertRecommendation, id: int, createdAt: string): (r: Recommendation)
    ensures r.id == id && r.createdAt == createdAt
    ensures InsertRecommendationOf(r) == insert
  {
    Recommendation(id, insert.itineraryText, insert.interests, insert.leisureTime, insert.recommendations, createdAt)
  }

  /** The insert part of a stored recommendation (everything but `id` and `createdAt`). */
  function InsertRecommendationOf(r: Recommendation): InsertRecommendation
  {
    InsertRecommendation(r.itineraryText, r.interests, r.leisureTime, r.recommendations)
  }

  /** A stored record is exactly its insert part plus `id` and `createdAt`. */
  lemma RecommendationIsInsertPlusKeys(r: Recommendation)
    ensures RecommendationWithId(InsertRecommendationOf(r), r.id, r.createdAt) == r
  {
  }
}
