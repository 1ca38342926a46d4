/**
 * The recommendation pipeline of the server: destination extraction, prompt fragments,
 * the checks on the model's answer, the interest-category filter and the error classifier.
 * Both model calls and `JSON.parse` are parameters; the network is not modelled.
 */
module OpenAiService {
  import opened Wrappers
  import opened Text
  import opened Schema

  /** A value thrown inside the pipeline: an `Error` carrying a message, or any other value. */
  datatype Thrown = Error(message: string) | NonError

  /** What a model call gives back: the first choice's message content (possibly null), or a thrown value. */
  datatype Reply = Answered(content: Option<string>) | Threw(thrown: Thrown)

  /** The `mustVisitPlaces` property of the parsed answer: missing or falsy, present but not an array, or an array. */
  datatype MustVisitField = AbsentList | NotAList | PlaceList(places: seq<MustVisitPlace>)

  /** The four category properties as the model supplied them; `None` stands for a missing or falsy property. */
  datatype RawCategories = RawCategories(
    food: Option<seq<FoodRecommendation>>,
    culture: Option<seq<ActivityRecommendation>>,
    nature: Option<seq<ActivityRecommendation>>,
    shopping: Option<seq<ActivityRecommendation>>)

  /** The `personalizedRecommendations` property of the parsed answer: missing or falsy, truthy but not of
      type object, or an object. An array passes the object test and reads as an object without categories. */
  datatype PersonalizedField = AbsentObject | NotAnObject | CategoryObject(categories: RawCategories)

  /** The value `JSON.parse` produced. `null` is the one value whose property read throws; any other
      non-object value reads as a `Body` whose two properties are both absent. */
  datatype ParsedBody = NullBody | Body(mustVisitPlaces: MustVisitField, personalizedRecommendations: PersonalizedField)

  /** An answer that passed the structure checks. */
  datatype CheckedResponse = CheckedResponse(mustVisitPlaces: seq<MustVisitPlace>, categories: RawCategories)

  /** The fragments substituted into the recommendation prompt; the fixed prose around them is not modelled. */
  datatype RecommendationPrompt = RecommendationPrompt(destination: string, itineraryText: string, interests: string, leisure: string)

  // ----- destination -----

  const DefaultDestination := "the destination"

  /** The destination label: the trimmed first answer, or "the destination" when the answer is null or blank. */
  function Destination(content: Option<string>): (r: string)
    ensures r != [] && !IsBlank(r)
    ensures content.None? || IsBlank(content.value) ==> r == DefaultDestination
    ensures content.Some? && !IsBlank(content.value) ==>
              r == Trim(content.value) && Includes(content.value, r)
              && !IsWhitespace(r[0]) && !IsWhitespace(r[|r| - 1])
  {
    var trimmed := if content.Some? then Trim(content.value) else "";
    if trimmed != "" then
      assert !IsWhitespace(trimmed[0]);
      trimmed
    else
      DefaultDestinationNotBlank();
      DefaultDestination
  }

  lemma DefaultDestinationNotBlank()
    ensures DefaultDestination != [] && !IsBlank(DefaultDestination)
  {
    assert DefaultDestination[0] == 't';
  }

  // ----- prompt fragments -----

  const NotSpecified := "Not specified"
  const AnyTime := "Any time"
  const Flexible := "Flexible"

  /** JavaScript `field || fallback`: an absent or empty field gives the fallback. */
  function OrDefault(field: Option<string>, fallback: string): (r: string)
    ensures field.None? || field.value == "" ==> r == fallback
    ensures field.Some? && field.value != "" ==> r == field.value
  {
    if field.Some? && field.value != "" then field.value else fallback
  }

  /** The leisure-time section of the recommendation prompt. It names every preference, putting
      "Not specified", "Any time" or "Flexible" in place of a field that is missing or empty;
      without preferences it is just "Not specified". */
  function LeisureSection(leisure: Option<LeisureTime>): (r: string)
    ensures leisure.None? ==> r == NotSpecified
    ensures leisure.Some? ==>
      && Includes(r, "- Daily free hours: " + OrDefault(leisure.value.dailyHours, NotSpecified))
      && Includes(r, "- Preferred time: " + OrDefault(leisure.value.preferredTime, AnyTime))
      && Includes(r, "- Travel style: " + OrDefault(leisure.value.travelStyle, Flexible))
  {
    match leisure
    case None => NotSpecified
    case Some(lt) =>
      var hours := "- Daily free hours: " + OrDefault(lt.dailyHours, NotSpecified);
      var time := "- Preferred time: " + OrDefault(lt.preferredTime, AnyTime);
      var style := "- Travel style: " + OrDefault(lt.travelStyle, Flexible);
      LinesIncludeEach(hours, time, style);
      "\n" + hours + "\n" + time + "\n" + style + "\n"
  }

  /** Each of three newline-separated lines occurs in the text they make up. */
  lemma LinesIncludeEach(a: string, b: string, c: string)
    ensures var s := "\n" + a + "\n" + b + "\n" + c + "\n";
      Includes(s, a) && Includes(s, b) && Includes(s, c)
  {
    var s := "\n" + a + "\n" + b + "\n" + c + "\n";
    assert s[1..1 + |a|] == a;
    assert OccursAt(s, a, 1);
    var p := "\n" + a + "\n";
    assert s == p + b + ("\n" + c + "\n");
    assert s[|p|..|p| + |b|] == b;
    assert OccursAt(s, b, |p|);
    var q := p + b + "\n";
    assert s == q + c + "\n";
    assert s[|q|..|q| + |c|] == c;
    assert OccursAt(s, c, |q|);
  }

  /** The substituted fragments of the recommendation prompt. */
  function BuildPrompt(data: CreateRecommendation, destination: string): (p: RecommendationPrompt)
    ensures p.destination == destination && p.itineraryText == data.itineraryText
    ensures p.interests == Join(data.interests, ", ")
    ensures forall k | 0 <= k < |data.interests| :: Includes(p.interests, data.interests[k])
    ensures p.leisure == LeisureSection(data.leisureTime)
  {
    forall k | 0 <= k < |data.interests| ensures Includes(Join(data.interests, ", "), data.interests[k]) {
      JoinIncludesEach(data.interests, ", ", k);
    }
    RecommendationPrompt(destination, data.itineraryText, Join(data.interests, ", "), LeisureSection(data.leisureTime))
  }

  // ----- checks on the model's answer -----

  // The longer messages are written as concatenations of short pieces; the text is the same, and the
  // pieces let the proofs below reason about which characters each message contains.
  const NoRecommendationsGenerated := "No " + "recommendations" + " generated"
  const InvalidResponseFormat := "Invalid" + (" response format" + " from AI service")
  /** The opening the two structure messages share. */
  const InvalidStructure := "Invalid" + (" recommendations" + " structure:")
  const MissingMustVisitPlaces := InvalidStructure + (" missing" + " mustVisitPlaces")
  const MissingPersonalized := InvalidStructure + (" missing" + " personalized") + "Recommendations"
  /** The TypeError the JavaScript engine raises when `mustVisitPlaces` is read from `null`. */
  const NullPropertyRead := ("Cannot read" + " properties" + " of null (") + "reading" + (" 'mustVisit" + "Places')")

  /** The checks between the second model call and the filter: empty content, unparsable content,
      a `null` answer, and the two structure checks, in that order. */
  function CheckResponse(content: Option<string>, parse: string -> Option<ParsedBody>): (r: Result<CheckedResponse, Thrown>)
    ensures content.None? || content.value == "" ==> r == Failure(Error(NoRecommendationsGenerated))
    ensures content.Some? && content.value != "" ==>
      match parse(content.value)
      case None => r == Failure(Error(InvalidResponseFormat))
      case Some(NullBody) => r == Failure(Error(NullPropertyRead))
      case Some(Body(places, personalized)) =>
        && (!places.PlaceList? ==> r == Failure(Error(MissingMustVisitPlaces)))
        && (places.PlaceList? && !personalized.CategoryObject? ==> r == Failure(Error(MissingPersonalized)))
        && (places.PlaceList? && personalized.CategoryObject? ==>
              r == Success(CheckedResponse(places.places, personalized.categories)))
    ensures r.Failure? ==> r.error.Error?
  {
    if content.None? || content.value == "" then Failure(Error(NoRecommendationsGenerated))
    else
      match parse(content.value)
      case None => Failure(Error(InvalidResponseFormat))
      case Some(NullBody) => Failure(Error(NullPropertyRead))
      case Some(Body(places, personalized)) =>
        if !places.PlaceList? then Failure(Error(MissingMustVisitPlaces))
        else if !personalized.CategoryObject? then Failure(Error(MissingPersonalized))
        else Success(CheckedResponse(places.places, personalized.categories))
  }

  // ----- category filter -----

  const FoodInterests: seq<string> := ["Fine Dining", "Street Food", "Local Cuisine", "Cafes", "Food Markets"]
  const CultureInterests: seq<string> := ["Museums", "Historical Sites", "Architecture", "Art Galleries", "Cultural Events"]
  const NatureInterests: seq<string> := ["Hiking", "Water Sports", "Parks & Gardens", "Scenic Views", "Wildlife"]
  const ShoppingInterests: seq<string> := ["Shopping Malls", "Local Markets", "Nightlife", "Live Music", "Theaters"]

  /** `interests.some(i => tags.includes(i))`: some selected interest equals (case-sensitively) one of the tags. */
  function SomeInterestIn(interests: seq<string>, tags: seq<string>): (r: bool)
    ensures r <==> exists k | 0 <= k < |interests| :: interests[k] in tags
  {
    if |interests| == 0 then false
    else if interests[0] in tags then true
    else
      var r := SomeInterestIn(interests[1..], tags);
      assert forall k | 1 <= k < |interests| :: interests[k] == interests[1..][k - 1];
      r
  }

  /** A category's entries as the filter keeps them: the model's list when the category is selected
      and the list is present, and the empty list otherwise. */
  function Kept<T>(selected: bool, raw: Option<seq<T>>): seq<T>
  {
    if selected && raw.Some? then raw.value else []
  }

  /** What the filter guarantees about one category: copied verbatim when some selected interest is
      one of its tags and the model supplied it, and empty otherwise. */
  predicate CategoryFiltered<T(==)>(kept: seq<T>, raw: Option<seq<T>>, interests: seq<string>, tags: seq<string>)
  {
    && ((exists k | 0 <= k < |interests| :: interests[k] in tags) && raw.Some? ==> kept == raw.value)
    && (!(exists k | 0 <= k < |interests| :: interests[k] in tags) ==> kept == [])
    && (raw.None? ==> kept == [])
  }

  /** The filtered result: must-visit places are passed through unchanged, and each category is kept
      only when one of the selected interests belongs to it, whatever the model sent. */
  function FilterByInterests(checked: CheckedResponse, interests: seq<string>): (r: RecommendationResponse)
    ensures r.mustVisitPlaces == checked.mustVisitPlaces
    ensures CategoryFiltered(r.personalizedRecommendations.food, checked.categories.food, interests, FoodInterests)
    ensures CategoryFiltered(r.personalizedRecommendations.culture, checked.categories.culture, interests, CultureInterests)
    ensures CategoryFiltered(r.personalizedRecommendations.nature, checked.categories.nature, interests, NatureInterests)
    ensures CategoryFiltered(r.personalizedRecommendations.shopping, checked.categories.shopping, interests, ShoppingInterests)
  {
    RecommendationResponse(
      checked.mustVisitPlaces,
      PersonalizedRecommendations(
        Kept(SomeInterestIn(interests, FoodInterests), checked.categories.food),
        Kept(SomeInterestIn(interests, CultureInterests), checked.categories.culture),
        Kept(SomeInterestIn(interests, NatureInterests), checked.categories.nature),
        Kept(SomeInterestIn(interests, ShoppingInterests), checked.categories.shopping)))
  }

  /** A filtered result read back as a model answer with every category present. */
  function AsChecked(r: RecommendationResponse): CheckedResponse
  {
    var p := r.personalizedRecommendations;
    CheckedResponse(r.mustVisitPlaces, RawCategories(Some(p.food), Some(p.culture), Some(p.nature), Some(p.shopping)))
  }

  /** Filtering an already filtered result with the same interests changes nothing. */
  lemma FilterIdempotent(checked: CheckedResponse, interests: seq<string>)
    ensures FilterByInterests(AsChecked(FilterByInterests(checked, interests)), interests)
         == FilterByInterests(checked, interests)
  {
  }

  // ----- error classifier -----

  const ApiKeyMarker := "API key"
  const QuotaMarker := "quota"
  const RateLimitMarker := "rate limit"

  const ApiKeyMessage := "OpenAI " + ApiKeyMarker + (" is invalid" + " or missing." + " Please check" + " your" + " configuration.")
  const QuotaMessage := "OpenAI API " + QuotaMarker + (" exceeded." + " Please check" + " your usage" + " limits.")
  const RateLimitMessage := "OpenAI API " + RateLimitMarker + (" exceeded." + " Please try" + " again in" + " a moment.")
  const GenericMessage := "Failed" + (" to generate" + " recommendations.") + (" Please try" + " again.")

  /** The catch block: the first marker the message contains, tested in the order "API key", "quota",
      "rate limit", picks the replacement message; any other `Error` is rethrown unchanged, and a
      thrown value that is not an `Error` becomes the generic message. */
  function ClassifyError(thrown: Thrown): (r: Thrown)
    ensures r.Error?
    ensures thrown.Error? ==>
      var m := thrown.message;
      && (Includes(m, ApiKeyMarker) ==> r.message == ApiKeyMessage)
      && (!Includes(m, ApiKeyMarker) && Includes(m, QuotaMarker) ==> r.message == QuotaMessage)
      && (!Includes(m, ApiKeyMarker) && !Includes(m, QuotaMarker) && Includes(m, RateLimitMarker) ==> r.message == RateLimitMessage)
      && (!Includes(m, ApiKeyMarker) && !Includes(m, QuotaMarker) && !Includes(m, RateLimitMarker) ==> r == thrown)
    ensures thrown.NonError? ==> r.message == GenericMessage
  {
    match thrown
    case NonError => Error(GenericMessage)
    case Error(message) =>
      if Includes(message, ApiKeyMarker) then Error(ApiKeyMessage)
      else if Includes(message, QuotaMarker) then Error(QuotaMessage)
      else if Includes(message, RateLimitMarker) then Error(RateLimitMessage)
      else thrown
  }

  /** The message names none of the three markers the classifier looks for. */
  predicate NamesNoMarker(message: string)
  {
    !Includes(message, ApiKeyMarker) && !Includes(message, QuotaMarker) && !Includes(message, RateLimitMarker)
  }

  /** Appending a piece that lacks a character of `t` to a string without `t` whose last character is
      not in `t` gives a string without `t`. */
  lemma NotIncludesExtend(a: string, b: string, t: string, c: char)
    requires a != [] && a[|a| - 1] !in t && !Includes(a, t)
    requires c in t && c !in b
    ensures !Includes(a + b, t)
  {
    NotIncludesWithoutChar(b, t, c);
    NotIncludesAppend(a, b, t);
  }

  /** Two extensions in a row, as `NotIncludesExtend` states for one. */
  lemma NotIncludesExtend2(a: string, b: string, c: string, t: string, cb: char, cc: char)
    requires a != [] && a[|a| - 1] !in t && !Includes(a, t)
    requires b != [] && b[|b| - 1] !in t && cb in t && cb !in b
    requires cc in t && cc !in c
    ensures !Includes(a + b + c, t)
  {
    NotIncludesExtend(a, b, t, cb);
    assert (a + b)[|a + b| - 1] == b[|b| - 1];
    NotIncludesExtend(a + b, c, t, cc);
  }

  /** A string without a 'k' and without a 'q' names neither of the first two markers. */
  lemma LacksApiKeyAndQuota(s: string)
    requires 'k' !in s && 'q' !in s
    ensures !Includes(s, ApiKeyMarker) && !Includes(s, QuotaMarker)
  {
    NotIncludesWithoutChar(s, ApiKeyMarker, 'k');
    NotIncludesWithoutChar(s, QuotaMarker, 'q');
  }

  // For each message the pipeline raises: the letters 'k' and 'q' (one of "API key" and one of "quota")
  // are absent, one letter per case, and "rate limit" does not occur across the pieces' seams.

  lemma InvalidStructureLacksLetter(c: char)
    requires c == 'k' || c == 'q'
    ensures c !in InvalidStructure
  {
    if c == 'k' { assert 'k' !in InvalidStructure; } else { assert 'q' !in InvalidStructure; }
  }

  lemma InvalidStructureLacksRateLimit()
    ensures !Includes(InvalidStructure, RateLimitMarker)
    ensures InvalidStructure[|InvalidStructure| - 1] == ':'
  {
    NotIncludesExtend("Invalid", " recommendations" + " structure:", RateLimitMarker, 'l');
  }

  lemma MissingMustVisitLacksRateLimit()
    ensures !Includes(MissingMustVisitPlaces, RateLimitMarker)
  {
    InvalidStructureLacksRateLimit();
    NotIncludesExtend(InvalidStructure, " missing" + " mustVisitPlaces", RateLimitMarker, 'r');
  }

  lemma MissingPersonalizedLacksRateLimit()
    ensures !Includes(MissingPersonalized, RateLimitMarker)
  {
    InvalidStructureLacksRateLimit();
    NotIncludesExtend2(InvalidStructure, " missing" + " personalized", "Recommendations", RateLimitMarker, 't', 'l');
  }

  lemma NullPropertyReadLacksRateLimit()
    ensures !Includes(NullPropertyRead, RateLimitMarker)
  {
    NotIncludesWithoutChar("Cannot read" + " properties" + " of null (", RateLimitMarker, 'm');
    NotIncludesExtend2("Cannot read" + " properties" + " of null (", "reading", " 'mustVisit" + "Places')", RateLimitMarker, 'm', 'r');
  }

  lemma GenericLacksRateLimit()
    ensures !Includes(GenericMessage, RateLimitMarker)
  {
    NotIncludesExtend2("Failed", " to generate" + " recommendations.", " Please try" + " again.", RateLimitMarker, 'l', 'm');
  }

  lemma NoRecommendationsLacksRateLimit()
    ensures !Includes(NoRecommendationsGenerated, RateLimitMarker)
  {
    NotIncludesWithoutChar(NoRecommendationsGenerated, RateLimitMarker, 'l');
  }

  lemma NoRecommendationsLacksLetter(c: char)
    requires c == 'k' || c == 'q'
    ensures c !in NoRecommendationsGenerated
  {
    if c == 'k' { assert 'k' !in NoRecommendationsGenerated; } else { assert 'q' !in NoRecommendationsGenerated; }
  }

  lemma NoRecommendationsNamesNoMarker()
    ensures NamesNoMarker(NoRecommendationsGenerated)
  {
    NoRecommendationsLacksLetter('k');
    NoRecommendationsLacksLetter('q');
    LacksApiKeyAndQuota(NoRecommendationsGenerated);
    NoRecommendationsLacksRateLimit();
  }

  lemma InvalidFormatLacksRateLimit()
    ensures !Includes(InvalidResponseFormat, RateLimitMarker)
  {
    NotIncludesExtend("Invalid", " response format" + " from AI service", RateLimitMarker, 'l');
  }

  lemma InvalidFormatLacksLetter(c: char)
    requires c == 'k' || c == 'q'
    ensures c !in InvalidResponseFormat
  {
    if c == 'k' { assert 'k' !in InvalidResponseFormat; } else { assert 'q' !in InvalidResponseFormat; }
  }

  lemma InvalidFormatNamesNoMarker()
    ensures NamesNoMarker(InvalidResponseFormat)
  {
    InvalidFormatLacksLetter('k');
    InvalidFormatLacksLetter('q');
    LacksApiKeyAndQuota(InvalidResponseFormat);
    InvalidFormatLacksRateLimit();
  }

  lemma MissingMustVisitLacksLetter(c: char)
    requires c == 'k' || c == 'q'
    ensures c !in MissingMustVisitPlaces
  {
    InvalidStructureLacksLetter(c);
    if c == 'k' { assert 'k' !in " missing" + " mustVisitPlaces"; } else { assert 'q' !in " missing" + " mustVisitPlaces"; }
  }

  lemma MissingMustVisitNamesNoMarker()
    ensures NamesNoMarker(MissingMustVisitPlaces)
  {
    MissingMustVisitLacksLetter('k');
    MissingMustVisitLacksLetter('q');
    LacksApiKeyAndQuota(MissingMustVisitPlaces);
    MissingMustVisitLacksRateLimit();
  }

  lemma MissingPersonalizedLacksLetter(c: char)
    requires c == 'k' || c == 'q'
    ensures c !in MissingPersonalized
  {
    InvalidStructureLacksLetter(c);
    var tail := " missing" + " personalized" + "Recommendations";
    if c == 'k' { assert 'k' !in tail; } else { assert 'q' !in tail; }
  }

  lemma MissingPersonalizedNamesNoMarker()
    ensures NamesNoMarker(MissingPersonalized)
  {
    MissingPersonalizedLacksLetter('k');
    MissingPersonalizedLacksLetter('q');
    LacksApiKeyAndQuota(MissingPersonalized);
    MissingPersonalizedLacksRateLimit();
  }

  lemma NullPropertyReadLacksLetter(c: char)
    requires c == 'k' || c == 'q'
    ensures c !in NullPropertyRead
  {
    if c == 'k' { assert 'k' !in NullPropertyRead; } else { assert 'q' !in NullPropertyRead; }
  }

  lemma NullPropertyReadNamesNoMarker()
    ensures NamesNoMarker(NullPropertyRead)
  {
    NullPropertyReadLacksLetter('k');
    NullPropertyReadLacksLetter('q');
    LacksApiKeyAndQuota(NullPropertyRead);
    NullPropertyReadLacksRateLimit();
  }

  lemma GenericLacksLetter(c: char)
    requires c == 'k' || c == 'q'
    ensures c !in GenericMessage
  {
    if c == 'k' { assert 'k' !in GenericMessage; } else { assert 'q' !in GenericMessage; }
  }

  lemma GenericNamesNoMarker()
    ensures NamesNoMarker(GenericMessage)
  {
    GenericLacksLetter('k');
    GenericLacksLetter('q');
    LacksApiKeyAndQuota(GenericMessage);
    GenericLacksRateLimit();
  }

  /** The messages the pipeline raises itself name none of the markers. */
  lemma PipelineMessagesNameNoMarker()
    ensures NamesNoMarker(NoRecommendationsGenerated)
    ensures NamesNoMarker(InvalidResponseFormat)
    ensures NamesNoMarker(MissingMustVisitPlaces)
    ensures NamesNoMarker(MissingPersonalized)
    ensures NamesNoMarker(NullPropertyRead)
    ensures NamesNoMarker(GenericMessage)
  {
    NoRecommendationsNamesNoMarker();
    InvalidFormatNamesNoMarker();
    MissingMustVisitNamesNoMarker();
    MissingPersonalizedNamesNoMarker();
    NullPropertyReadNamesNoMarker();
    GenericNamesNoMarker();
  }

  /** "quota" is in the quota message and "API key" is not. */
  lemma QuotaMessageMarkers()
    ensures !Includes(QuotaMessage, ApiKeyMarker) && Includes(QuotaMessage, QuotaMarker)
  {
    NotIncludesWithoutChar("OpenAI API " + QuotaMarker, ApiKeyMarker, 'k');
    NotIncludesExtend("OpenAI API " + QuotaMarker, " exceeded." + " Please check" + " your usage" + " limits.", ApiKeyMarker, 'A');
    IncludesMiddle("OpenAI API ", QuotaMarker, " exceeded." + " Please check" + " your usage" + " limits.");
  }

  lemma RateLimitMessageLacksLetter(c: char)
    requires c == 'k' || c == 'q'
    ensures c !in RateLimitMessage
  {
    if c == 'k' { assert 'k' !in RateLimitMessage; } else { assert 'q' !in RateLimitMessage; }
  }

  /** Each replacement message names its own marker and none of the markers tested before it. */
  lemma ReplacementMessagesNameTheirMarker()
    ensures Includes(ApiKeyMessage, ApiKeyMarker)
    ensures !Includes(QuotaMessage, ApiKeyMarker) && Includes(QuotaMessage, QuotaMarker)
    ensures !Includes(RateLimitMessage, ApiKeyMarker) && !Includes(RateLimitMessage, QuotaMarker)
    ensures Includes(RateLimitMessage, RateLimitMarker)
  {
    IncludesMiddle("OpenAI ", ApiKeyMarker, " is invalid" + " or missing." + " Please check" + " your" + " configuration.");
    QuotaMessageMarkers();
    RateLimitMessageLacksLetter('k');
    RateLimitMessageLacksLetter('q');
    LacksApiKeyAndQuota(RateLimitMessage);
    IncludesMiddle("OpenAI API ", RateLimitMarker, " exceeded." + " Please try" + " again in" + " a moment.");
  }

  /** The pipeline's own failures reach the caller with their messages unchanged. */
  lemma PipelineErrorsPassThrough(content: Option<string>, parse: string -> Option<ParsedBody>)
    ensures var checked := CheckResponse(content, parse);
      checked.Failure? ==> ClassifyError(checked.error) == checked.error
  {
    PipelineMessagesNameNoMarker();
  }

  /** Classifying twice is classifying once: every message the classifier produces maps to itself. */
  lemma ClassifyErrorIdempotent(thrown: Thrown)
    ensures ClassifyError(ClassifyError(thrown)) == ClassifyError(thrown)
  {
    ReplacementMessagesNameTheirMarker();
    PipelineMessagesNameNoMarker();
  }

  // ----- the pipeline -----

  /** `generateRecommendations`: ask for the destination, build the prompt, ask for recommendations,
      check the answer and filter it by interest; every failure on the way leaves through the classifier. */
  method GenerateRecommendations(
    data: CreateRecommendation,
    locate: string -> Reply,
    advise: RecommendationPrompt -> Reply,
    parse: string -> Option<ParsedBody>)
    returns (r: Result<RecommendationResponse, Thrown>)
    ensures r.Failure? ==> r.error.Error?
    ensures locate(data.itineraryText).Threw? ==> r == Failure(ClassifyError(locate(data.itineraryText).thrown))
    ensures locate(data.itineraryText).Answered? ==>
      var prompt := BuildPrompt(data, Destination(locate(data.itineraryText).content));
      match advise(prompt)
      case Threw(thrown) => r == Failure(ClassifyError(thrown))
      case Answered(content) =>
        match CheckResponse(content, parse)
        case Failure(thrown) => r == Failure(ClassifyError(thrown))
        case Success(checked) => r == Success(FilterByInterests(checked, data.interests))
  {
    var location := locate(data.itineraryText);
    if location.Threw? {
      return Failure(ClassifyError(location.thrown));
    }
    var destination := Destination(location.content);
    var reply := advise(BuildPrompt(data, destination));
    if reply.Threw? {
      return Failure(ClassifyError(reply.thrown));
    }
    var checked := CheckResponse(reply.content, parse);
    if checked.Failure? {
      return Failure(ClassifyError(checked.error));
    }
    var raw := checked.value.categories;
    var filtered := RecommendationResponse(checked.value.mustVisitPlaces, PersonalizedRecommendations([], [], [], []));
    var hasFood := SomeInterestIn(data.interests, FoodInterests);
    var hasCulture := SomeInterestIn(data.interests, CultureInterests);
    var hasNature := SomeInterestIn(data.interests, NatureInterests);
    var hasShopping := SomeInterestIn(data.interests, ShoppingInterests);
    if hasFood && raw.food.Some? {
      filtered := filtered.(personalizedRecommendations := filtered.personalizedRecommendations.(food := raw.food.value));
    }
    if hasCulture && raw.culture.Some? {
      filtered := filtered.(personalizedRecommendations := filtered.personalizedRecommendations.(culture := raw.culture.value));
    }
    if hasNature && raw.nature.Some? {
      filtered := filtered.(personalizedRecommendations := filtered.personalizedRecommendations.(nature := raw.nature.value));
    }
    if hasShopping && raw.shopping.Some? {
      filtered := filtered.(personalizedRecommendations := filtered.personalizedRecommendations.(shopping := raw.shopping.value));
    }
    return Success(filtered);
  }
}
