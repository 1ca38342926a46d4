/**
 * The request life cycle of the home page: the five pieces of page state and the handlers
 * that move between the input step (1), the waiting step (2) and the results step (3).
 * Rendering, toasts and the HTTP request itself are not modelled; a submission returns the
 * request body it would send.
 */
module HomePage {
  import opened Wrappers
  import opened Text
  import opened Schema
  import InterestSelector

  /** The three leisure selects; the empty string means nothing was chosen. */
  datatype LeisureForm = LeisureForm(dailyHours: string, preferredTime: string, travelStyle: string)

  const BlankLeisure := LeisureForm("", "", "")

  /** The `leisureTime` sent with a request: the whole form when at least one field is set, nothing otherwise. */
  function LeisureToSend(form: LeisureForm): (r: Option<LeisureTime>)
    ensures r.None? <==> form == BlankLeisure
    ensures r.Some? ==> r.value == LeisureTime(Some(form.dailyHours), Some(form.preferredTime), Some(form.travelStyle))
  {
    if form.dailyHours != "" || form.preferredTime != "" || form.travelStyle != "" then
      Some(LeisureTime(Some(form.dailyHours), Some(form.preferredTime), Some(form.travelStyle)))
    else
      None
  }

  const KeyIssueDescription := "OpenAI API key issue. Please check your API key configuration."
  const UsageLimitDescription := "API usage limit reached. Please try again later or check your OpenAI account."
  const DefaultDescription := "Failed to generate recommendations"

  /** The description shown when a request fails: "API key" wins, then "quota" or "rate limit",
      then the message itself when it is not empty, and a fixed text otherwise. Never empty. */
  function ErrorDescription(message: string): (r: string)
    ensures r != ""
    ensures Includes(message, "API key") ==> r == KeyIssueDescription
    ensures !Includes(message, "API key") ==>
      && (Includes(message, "quota") || Includes(message, "rate limit") ==> r == UsageLimitDescription)
      && (!Includes(message, "quota") && !Includes(message, "rate limit") ==> r == (if message != "" then message else DefaultDescription))
  {
    if Includes(message, "API key") then KeyIssueDescription
    else if Includes(message, "quota") || Includes(message, "rate limit") then UsageLimitDescription
    else if message != "" then message
    else DefaultDescription
  }

  class Home {
    var currentStep: int
    var itineraryText: string
    var selectedInterests: seq<string>
    var leisureTime: LeisureForm
    var recommendations: Option<RecommendationResponse>

    /** The step is 1, 2 or 3, the results step always has results to show, and no interest is
        selected twice. */
    ghost predicate Valid()
      reads this
    {
      && 1 <= currentStep <= 3
      && (currentStep == 3 ==> recommendations.Some?)
      && InterestSelector.Distinct(selectedInterests)
    }

    /** The state of a freshly loaded page. */
    ghost predicate IsInitial()
      reads this
    {
      && currentStep == 1
      && itineraryText == ""
      && selectedInterests == []
      && leisureTime == BlankLeisure
      && recommendations.None?
    }

    constructor ()
      ensures Valid() && IsInitial()
    {
      currentStep := 1;
      itineraryText := "";
      selectedInterests := [];
      leisureTime := BlankLeisure;
      recommendations := None;
    }

    /** The itinerary editor's change handler. */
    method SetItineraryText(text: string)
      requires Valid()
      modifies this
      ensures Valid()
      ensures itineraryText == text
      ensures currentStep == old(currentStep) && selectedInterests == old(selectedInterests)
      ensures leisureTime == old(leisureTime) && recommendations == old(recommendations)
    {
      itineraryText := text;
    }

    /** A click on an interest tag. */
    method ToggleInterest(interest: string)
      requires Valid()
      modifies this
      ensures Valid()
      ensures selectedInterests == InterestSelector.ToggleInterest(old(selectedInterests), interest)
      ensures currentStep == old(currentStep) && itineraryText == old(itineraryText)
      ensures leisureTime == old(leisureTime) && recommendations == old(recommendations)
    {
      InterestSelector.ToggleKeepsDistinct(selectedInterests, interest);
      selectedInterests := InterestSelector.ToggleInterest(selectedInterests, interest);
    }

    /** The daily-hours select's change handler. */
    method SetDailyHours(value: string)
      requires Valid()
      modifies this
      ensures Valid()
      ensures leisureTime == old(leisureTime).(dailyHours := value)
      ensures currentStep == old(currentStep) && itineraryText == old(itineraryText)
      ensures selectedInterests == old(selectedInterests) && recommendations == old(recommendations)
    {
      leisureTime := leisureTime.(dailyHours := value);
    }

    /** The preferred-time select's change handler. */
    method SetPreferredTime(value: string)
      requires Valid()
      modifies this
      ensures Valid()
      ensures leisureTime == old(leisureTime).(preferredTime := value)
      ensures currentStep == old(currentStep) && itineraryText == old(itineraryText)
      ensures selectedInterests == old(selectedInterests) && recommendations == old(recommendations)
    {
      leisureTime := leisureTime.(preferredTime := value);
    }

    /** The travel-style select's change handler. */
    method SetTravelStyle(value: string)
      requires Valid()
      modifies this
      ensures Valid()
      ensures leisureTime == old(leisureTime).(travelStyle := value)
      ensures currentStep == old(currentStep) && itineraryText == old(itineraryText)
      ensures selectedInterests == old(selectedInterests) && recommendations == old(recommendations)
    {
      leisureTime := leisureTime.(travelStyle := value);
    }

    /** `handleGenerateRecommendations`: refuses a blank itinerary, then an empty interest list, leaving
        the step alone; otherwise moves to step 2 and returns the request body it sends. */
    method HandleGenerateRecommendations() returns (sent: Option<CreateRecommendation>)
      requires Valid()
      modifies this
      ensures Valid()
      ensures sent.Some? <==> !IsBlank(itineraryText) && selectedInterests != []
      ensures sent.None? ==> currentStep == old(currentStep)
      ensures sent.Some? ==> currentStep == 2
      ensures sent.Some? ==> sent.value == CreateRecommendation(itineraryText, selectedInterests, LeisureToSend(leisureTime))
      ensures itineraryText == old(itineraryText) && selectedInterests == old(selectedInterests)
      ensures leisureTime == old(leisureTime) && recommendations == old(recommendations)
    {
      if Trim(itineraryText) == "" {
        return None;
      }
      if |selectedInterests| == 0 {
        return None;
      }
      currentStep := 2;
      sent := Some(CreateRecommendation(itineraryText, selectedInterests, LeisureToSend(leisureTime)));
    }

    /** The mutation's success handler: keep the results and show step 3. */
    method OnSuccess(data: RecommendationResponse)
      requires Valid()
      modifies this
      ensures Valid()
      ensures recommendations == Some(data) && currentStep == 3
      ensures itineraryText == old(itineraryText) && selectedInterests == old(selectedInterests)
      ensures leisureTime == old(leisureTime)
    {
      recommendations := Some(data);
      currentStep := 3;
    }

    /** The mutation's error handler: it only picks the description to show; no state changes,
        so the page stays on the step it was on. */
    method OnError(message: string) returns (description: string)
      requires Valid()
      ensures description == ErrorDescription(message)
      ensures currentStep == old(currentStep) && recommendations == old(recommendations)
    {
      description := ErrorDescription(message);
    }

    /** `handleReset`: every state field back to its initial value. */
    method HandleReset()
      requires Valid()
      modifies this
      ensures Valid() && IsInitial()
    {
      currentStep := 1;
      itineraryText := "";
      selectedInterests := [];
      leisureTime := BlankLeisure;
      recommendations := None;
    }
  }

  /** A submission the server answers with an error: the page has moved to step 2 and stays there,
      with whatever results it held before, while the error is described. */
  method SubmitThenFail(page: Home, message: string) returns (sent: Option<CreateRecommendation>, description: Option<string>)
    requires page.Valid()
    modifies page
    ensures page.Valid()
    ensures sent.Some? <==> description.Some?
    ensures sent.Some? ==> page.currentStep == 2 && description.value == ErrorDescription(message)
    ensures sent.None? ==> page.currentStep == old(page.currentStep)
    ensures page.recommendations == old(page.recommendations)
  {
    sent := page.HandleGenerateRecommendations();
    description := None;
    if sent.Some? {
      var shown := page.OnError(message);
      description := Some(shown);
    }
  }
}
