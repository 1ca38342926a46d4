/**
 * Properties that tie the client and the server together: the taxonomy shown to the user
 * against the filter's tables, the client's checks against the request validator, the leisure
 * form against the prompt, and the client's error descriptions against the server's classifier.
 */
module Agreement {
  import opened Wrappers
  import opened Text
  import opened Schema
  import opened OpenAiService
  import HomePage
  import InterestSelector

  // ----- taxonomy -----

  /** The picker shows four groups of five tags, and each group's tags are, in order, the tags the
      server's filter uses for the matching category. */
  lemma TaxonomyMatchesFilter()
    ensures |InterestSelector.InterestCategories| == 4
    ensures forall c | c in InterestSelector.InterestCategories :: |c.interests| == 5
    ensures InterestSelector.InterestCategories[0].interests == FoodInterests
    ensures InterestSelector.InterestCategories[1].interests == CultureInterests
    ensures InterestSelector.InterestCategories[2].interests == NatureInterests
    ensures InterestSelector.InterestCategories[3].interests == ShoppingInterests
  {
  }

  /** The four filter tables share no tag, so a single taxonomy tag turns on exactly one category:
      the picker's groups are disjoint and are these tables. */
  lemma CategoryTablesDisjoint()
    ensures forall t | t in FoodInterests :: t !in CultureInterests && t !in NatureInterests && t !in ShoppingInterests
    ensures forall t | t in CultureInterests :: t !in NatureInterests && t !in ShoppingInterests
    ensures forall t | t in NatureInterests :: t !in ShoppingInterests
  {
    TaxonomyMatchesFilter();
    InterestSelector.GroupsDisjoint();
  }

  // ----- submitting a request -----

  /** For a request the page lets through (an itinerary that is not blank and at least one interest),
      the server's validator accepts exactly when the itinerary has at least ten characters. */
  lemma ClientChecksAgainstValidator(form: HomePage.LeisureForm, text: string, interests: seq<string>)
    requires !IsBlank(text) && interests != []
    ensures var body := CreateRecommendation(text, interests, HomePage.LeisureToSend(form));
      ValidateCreateRecommendation(body).Success? <==> |text| >= 10
  {
  }

  /** The page sends "Tokyo" with one interest, and the server rejects it as too short. */
  lemma ShortItineraryPassesPageOnly()
    ensures !IsBlank("Tokyo")
    ensures ValidateCreateRecommendation(CreateRecommendation("Tokyo", ["Museums"], None))
         == Failure([ItineraryTooShort])
  {
    assert !IsWhitespace("Tokyo"[0]);
    assert [ItineraryTooShort] + [] == [ItineraryTooShort];
  }

  /** Ten spaces pass the server's length check, but the page never sends them. */
  lemma BlankItineraryPassesServerOnly()
    ensures IsBlank("          ")
    ensures ValidateCreateRecommendation(CreateRecommendation("          ", ["Museums"], None)).Success?
  {
  }

  // ----- leisure form to prompt -----

  /** The leisure selects as they reach the prompt built for the request the page sends: an untouched
      form gives "Not specified", and once any select is set each empty one is replaced by its default. */
  lemma LeisureFormReachesPrompt(form: HomePage.LeisureForm, text: string, interests: seq<string>, destination: string)
    ensures var prompt := BuildPrompt(CreateRecommendation(text, interests, HomePage.LeisureToSend(form)), destination);
      form == HomePage.BlankLeisure ==> prompt.leisure == NotSpecified
    ensures var prompt := BuildPrompt(CreateRecommendation(text, interests, HomePage.LeisureToSend(form)), destination);
      form != HomePage.BlankLeisure ==>
      && Includes(prompt.leisure, "- Daily free hours: " + (if form.dailyHours == "" then NotSpecified else form.dailyHours))
      && Includes(prompt.leisure, "- Preferred time: " + (if form.preferredTime == "" then AnyTime else form.preferredTime))
      && Includes(prompt.leisure, "- Travel style: " + (if form.travelStyle == "" then Flexible else form.travelStyle))
  {
  }

  // ----- filtering a selection from the picker -----

  /** Selecting "Museums" and "Hiking" keeps the model's culture and nature lists and empties food and
      shopping. */
  lemma MuseumsAndHikingScenario(checked: CheckedResponse)
    requires checked.categories.culture.Some? && checked.categories.nature.Some?
    ensures var r := FilterByInterests(checked, ["Museums", "Hiking"]).personalizedRecommendations;
      && r.food == [] && r.shopping == []
      && r.culture == checked.categories.culture.value
      && r.nature == checked.categories.nature.value
  {
    var interests := ["Museums", "Hiking"];
    assert interests[0] in CultureInterests && interests[1] in NatureInterests;
    assert interests[0] !in FoodInterests && interests[1] !in FoodInterests;
    assert interests[0] !in ShoppingInterests && interests[1] !in ShoppingInterests;
  }

  // ----- errors from server to page -----

  /** What the page shows for an error the server's classifier produced: the key notice for the key
      message, the usage notice for the quota and rate-limit messages, and any other message as it
      is (the fixed text when it is empty). */
  lemma PageDescribesClassifiedError(thrown: Thrown)
    ensures var m := ClassifyError(thrown).message;
      && (m == ApiKeyMessage ==> HomePage.ErrorDescription(m) == HomePage.KeyIssueDescription)
      && (m == QuotaMessage || m == RateLimitMessage ==> HomePage.ErrorDescription(m) == HomePage.UsageLimitDescription)
      && (m != ApiKeyMessage && m != QuotaMessage && m != RateLimitMessage ==>
            HomePage.ErrorDescription(m) == (if m == "" then HomePage.DefaultDescription else m))
  {
    ReplacementMessagesNameTheirMarker();
    GenericNamesNoMarker();
  }

  /** The key notice is shown for the key message whatever text surrounds it on the way to the page. */
  lemma KeyNoticeSurvivesWrapping(before: string, after: string)
    ensures HomePage.ErrorDescription(before + ApiKeyMessage + after) == HomePage.KeyIssueDescription
  {
    ReplacementMessagesNameTheirMarker();
    IncludesInContext(before, ApiKeyMessage, after, ApiKeyMarker);
  }
}
