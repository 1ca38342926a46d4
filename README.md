# TravelWise recommendation core, modelled in Dafny

TravelWise turns a free-text travel itinerary and a set of interest tags into AI-generated
recommendations: a list of must-visit places plus four personalised categories (food, culture,
nature, shopping). This project models the parts of the app that decide what happens to a
request, and proves properties about them:

- `Schema` (`schema.dfy`): the record shapes shared by client and server, and the request
  validator (itinerary of at least 10 characters, at least one interest, every failing field
  reported).
- `OpenAiService` (`openai.dfy`): the server pipeline `generateRecommendations`. It asks a
  model for the destination, falls back to "the destination", builds the prompt fragments with
  their leisure-time defaults, checks the second answer (empty, unparsable, `null`, two
  structure checks), keeps only the categories the selected interests name, and classifies
  every failure by the markers "API key", "quota" and "rate limit". The two model calls and
  `JSON.parse` are function parameters.
- `Storage` (`storage.dfy`): the in-memory store `MemStorage`, a class with its two maps and
  id counters, where ids are handed out 1, 2, 3, ... in insertion order.
- `InterestSelector` (`interest_selector.dfy`): the four-group taxonomy and the toggle applied
  when a tag is clicked.
- `HomePage` (`home.dfy`): the home page as a class with its five state fields and the handlers
  for editing, submitting, success, error and reset. A submission returns the request body it
  would send instead of performing the HTTP request.
- `Agreement` (`agreement.dfy`): properties that span client and server. They cover the
  taxonomy against the filter tables, the page's checks against the validator, the leisure form
  against the prompt, and the page's error texts against the server's classifier.
- `Text` (`text.dfy`) and `Wrappers` (`wrappers.dfy`): the JavaScript string operations the
  code relies on (`trim`, `includes`, `join`), and `Option`/`Result`.

Behaviours the proofs make visible:
- The page accepts "Tokyo" but the server rejects it as too short.
- The server accepts ten spaces, which the page never sends.
- Every message the pipeline raises itself passes through the classifier unchanged.
- After a failed request the page stays on step 2 and keeps its old results
  (`HomePage.SubmitThenFail`).

## Model

| member | source | states |
|---|---|---|
| Text.Trim | TravelMate/server/openai.ts:27 | `trim()`: the result is the input with exactly its leading and trailing whitespace removed (it occurs at some index, everything before and after it is whitespace, and neither of its ends is whitespace); it is empty exactly when the input is blank |
| Text.IncludesEdges | TravelMate/server/openai.ts:192-198 | `includes()` at its edges: the empty string is in every string, every string is in itself, and nothing longer than the string is in it |
| Text.Join | TravelMate/server/openai.ts:37 | `join(", ")`: empty for no interests, the interest itself for one, and otherwise the text opens with the first interest |
| Text.JoinSnoc | TravelMate/server/openai.ts:37 | `join` accumulates left to right: joining one more element appends the separator and then that element, which fixes the `", "` separators and the order of all elements |
| Text.JoinIncludesEach | TravelMate/server/openai.ts:37 | every interest occurs in the comma-separated list substituted into the prompt |
| Schema.UserWithId | TravelMate/server/storage.ts:37 | a created user carries the allocated id and exactly the inserted username and password |
| Schema.ValidateCreateRecommendation | TravelMate/shared/schema.ts:30-38 | succeeds iff the itinerary has at least 10 characters and there is at least one interest, and then returns the body unchanged; on failure each of the two messages is present iff its check fails, and the itinerary message comes first |
| Schema.RecommendationWithId | TravelMate/server/storage.ts:44-48 | a saved recommendation is the insert data plus the allocated id and the timestamp |
| Schema.RecommendationIsInsertPlusKeys | TravelMate/shared/schema.ts:25-28 | a stored record is exactly its insert part with `id` and `createdAt` added |
| OpenAiService.Destination | TravelMate/server/openai.ts:27 | the destination is never blank: "the destination" when the answer is null or blank, otherwise the trimmed answer |
| OpenAiService.OrDefault | TravelMate/server/openai.ts:41-43 | `field \|\| fallback`: a missing or empty field gives the fallback, any other value is kept |
| OpenAiService.LeisureSection | TravelMate/server/openai.ts:40-44 | without leisure preferences the section is "Not specified"; with them it names each field, using "Not specified", "Any time" or "Flexible" in place of an empty or missing one |
| OpenAiService.BuildPrompt | TravelMate/server/openai.ts:30-44 | the prompt carries the destination and itinerary unchanged, the interests as their ", " join (so every selected interest occurs in it), and the leisure section of the request's preferences |
| OpenAiService.CheckResponse | TravelMate/server/openai.ts:129-149 | the checks on the answer, in order: empty content, unparsable content, a `null` answer (TypeError), missing or non-array `mustVisitPlaces`, missing or non-object `personalizedRecommendations`; otherwise the places and categories pass on |
| OpenAiService.SomeInterestIn | TravelMate/server/openai.ts:168-171 | `interests.some(i => tags.includes(i))` holds iff some selected interest is one of the tags |
| OpenAiService.FilterByInterests | TravelMate/server/openai.ts:152-184 | must-visit places pass unchanged; a category is copied iff some selected interest names it and the model supplied it, and is empty otherwise |
| OpenAiService.FilterIdempotent | TravelMate/server/openai.ts:152-184 | filtering a filtered result again with the same interests changes nothing |
| OpenAiService.ClassifyError | TravelMate/server/openai.ts:188-205 | the first marker the message contains ("API key", then "quota", then "rate limit") picks the replacement; other `Error`s are rethrown unchanged; a non-`Error` becomes the generic message |
| OpenAiService.PipelineMessagesNameNoMarker | TravelMate/server/openai.ts:130-148 | none of the six messages the pipeline raises itself (no content, invalid format, the two structure messages, the TypeError for a `null` answer, and the generic message of line 204) contains "API key", "quota" or "rate limit"; one lemma per message proves it piece by piece |
| OpenAiService.ReplacementMessagesNameTheirMarker | TravelMate/server/openai.ts:191-200 | each replacement message contains its own marker and none of the markers tested before it (for the quota message, via `QuotaMessageMarkers`) |
| OpenAiService.PipelineErrorsPassThrough | TravelMate/server/openai.ts:129-202 | every failure raised by the answer checks leaves the classifier unchanged |
| OpenAiService.ClassifyErrorIdempotent | TravelMate/server/openai.ts:188-205 | classifying an already classified error changes nothing |
| OpenAiService.GenerateRecommendations | TravelMate/server/openai.ts:9-206 | a thrown model call or a failed check gives the classified error; otherwise the result is the interest filter applied to the checked answer, with the prompt built from the itinerary, the interests, the leisure section and the destination taken from the first answer |
| Storage.MemStorage.constructor | TravelMate/server/storage.ts:18-23 | both maps empty and both counters at 1 |
| Storage.MemStorage.GetUser | TravelMate/server/storage.ts:25-27 | a user is found iff its id has been handed out, and it carries that id |
| Storage.MemStorage.GetUserByUsername | TravelMate/server/storage.ts:29-33 | returns the first user, in insertion order, whose username matches; none when no user matches |
| Storage.MemStorage.CreateUser | TravelMate/server/storage.ts:35-40 | the new user gets the next id, which was not in use; the counter advances by one; the user map gains exactly that entry; recommendations are untouched |
| Storage.MemStorage.SaveRecommendation | TravelMate/server/storage.ts:42-51 | the record gets the next id and the given timestamp; the counter advances by one; the map gains exactly that entry; users are untouched |
| Storage.MemStorage.GetRecommendation | TravelMate/server/storage.ts:53-55 | a record is found iff its id has been handed out, and it carries that id |
| Storage.MemStorage.GetAllRecommendations | TravelMate/server/storage.ts:57-59 | every stored record, in insertion order: the record with id k is at position k-1 |
| Storage.SaveThenGet | TravelMate/server/storage.ts:42-55 | a saved record is found again under its id, equal to what was saved, and earlier records are unchanged |
| InterestSelector.TaxonomyTagsDistinct | TravelMate/client/src/components/interest-selector.tsx:10-59 | the picker shows four groups of five tags, and none of the twenty tags appears twice |
| InterestSelector.RemoveAll | TravelMate/client/src/components/interest-selector.tsx:64 | `filter(i => i !== x)` removes every occurrence of `x` and keeps every other tag as often as before |
| InterestSelector.RemoveAllAppend | TravelMate/client/src/components/interest-selector.tsx:64 | filtering distributes over concatenation, so the order of the kept tags is the original order |
| InterestSelector.RemoveAllAbsent | TravelMate/client/src/components/interest-selector.tsx:64 | filtering out an absent tag changes nothing |
| InterestSelector.ToggleInterest | TravelMate/client/src/components/interest-selector.tsx:62-68 | the clicked tag's membership flips; an unselected tag is appended at the end; every other tag keeps its count; a selected tag is filtered out with the rest kept in order (`RemoveAll`) |
| InterestSelector.ToggleTwiceRestores | TravelMate/client/src/components/interest-selector.tsx:62-68 | clicking an unselected tag twice restores the selection |
| InterestSelector.ToggleTwiceMovesToEnd | TravelMate/client/src/components/interest-selector.tsx:62-68 | clicking a selected tag twice moves it to the end |
| InterestSelector.RemoveAllKeepsDistinct | TravelMate/client/src/components/interest-selector.tsx:64 | filtering a selection without duplicates leaves none |
| InterestSelector.ToggleKeepsDistinct | TravelMate/client/src/components/interest-selector.tsx:62-68 | toggling never creates a duplicate tag |
| HomePage.LeisureToSend | TravelMate/client/src/pages/home.tsx:79 | the leisure form is sent iff one of its selects is set, and then all three fields are sent as they are |
| HomePage.ErrorDescription | TravelMate/client/src/pages/home.tsx:38-53 | never empty: the key notice when "API key" occurs, else the usage notice for "quota" or "rate limit", else the message itself, or the fixed text when the message is empty |
| HomePage.Home.constructor | TravelMate/client/src/pages/home.tsx:14-22 | step 1, empty itinerary, no interests, blank leisure form, no results |
| HomePage.Home.SetItineraryText | TravelMate/client/src/pages/home.tsx:166 | only the itinerary changes |
| HomePage.Home.ToggleInterest | TravelMate/client/src/pages/home.tsx:178 | the selection becomes the picker's toggle of it; nothing else changes; the selection stays free of duplicates |
| HomePage.Home.SetDailyHours | TravelMate/client/src/pages/home.tsx:191 | only the daily-hours field of the leisure form changes |
| HomePage.Home.SetPreferredTime | TravelMate/client/src/pages/home.tsx:206 | only the preferred-time field changes |
| HomePage.Home.SetTravelStyle | TravelMate/client/src/pages/home.tsx:221 | only the travel-style field changes |
| HomePage.Home.HandleGenerateRecommendations | TravelMate/client/src/pages/home.tsx:56-81 | a request is sent iff the itinerary is not blank and some interest is selected; the page then moves to step 2 and sends the itinerary, the interests and the leisure form (if set); otherwise the step is unchanged |
| HomePage.Home.OnSuccess | TravelMate/client/src/pages/home.tsx:30-37 | the results are stored and the page shows step 3 |
| HomePage.Home.OnError | TravelMate/client/src/pages/home.tsx:38-53 | shows the description for the message; the step and the results stay as they were |
| HomePage.Home.HandleReset | TravelMate/client/src/pages/home.tsx:83-89 | every state field back to its initial value |
| HomePage.SubmitThenFail | TravelMate/client/src/pages/home.tsx:38-81 | a submission that fails leaves the page on step 2 with its old results |
| Agreement.TaxonomyMatchesFilter | TravelMate/client/src/components/interest-selector.tsx:10-59 | the picker shows four groups of five tags, each group equal, in order, to the server's table for the matching category |
| Agreement.CategoryTablesDisjoint | TravelMate/server/openai.ts:163-166 | no tag belongs to two category tables, derived from the picker's disjoint groups and `TaxonomyMatchesFilter` |
| Agreement.ClientChecksAgainstValidator | TravelMate/client/src/pages/home.tsx:57-73 | for a request the page sends, the server accepts iff the itinerary has at least 10 characters |
| Agreement.ShortItineraryPassesPageOnly | TravelMate/shared/schema.ts:31 | "Tokyo" passes the page's check and is rejected by the validator as too short |
| Agreement.BlankItineraryPassesServerOnly | TravelMate/client/src/pages/home.tsx:57 | ten spaces pass the validator but are blank for the page |
| Agreement.LeisureFormReachesPrompt | TravelMate/client/src/pages/home.tsx:79 | in the prompt built for the request the page sends, an untouched form gives "Not specified"; otherwise each empty select is replaced by its default |
| Agreement.MuseumsAndHikingScenario | TravelMate/server/openai.ts:168-184 | with "Museums" and "Hiking" selected, culture and nature are kept as supplied and food and shopping are empty |
| Agreement.PageDescribesClassifiedError | TravelMate/client/src/pages/home.tsx:38-53 | for any classified error the page shows the key notice for the key message, the usage notice for the quota and rate-limit messages, and any other message as it is |
| Agreement.KeyNoticeSurvivesWrapping | TravelMate/client/src/pages/home.tsx:40-41 | the key notice is shown for the key message whatever text surrounds it |

## Left out

- The OpenAI client, the network, `async`/`await` and the model parameters (model name, token limits, response format) are not modelled. Each model call is a function from its input to its reply.
- The prose of both prompts is not modelled. Only the substituted fragments are kept: destination, itinerary, joined interests and leisure section.
- `JSON.parse` is a parameter. Its result is reduced to what the checks read: `null`, and the shape of the two properties.
- Must-visit places and category entries are typed records here. The source checks only that `mustVisitPlaces` is an array and passes the entries through unread, so no property depends on their fields.
- A category property that is truthy but not an array is not modelled. It is copied as is by the source and the model types it as a list.
- A reply with no `choices[0]` is not modelled. The source throws a TypeError on it.
- `console.error` logging is not modelled.
- Ratings are JavaScript numbers and are never inspected, so `Rating` is an uninterpreted type.
- The clock is not modelled: `createdAt` is a parameter of `SaveRecommendation`.
- Schema.ValidateCreateRecommendation: counts characters, while zod counts UTF-16 code units. It does not model the type checks on the JSON body.
- The username uniqueness constraint of the users table is a database constraint. `MemStorage` does not enforce it, and neither does the model.
- `server/routes.ts` is not part of this model: the HTTP routes, the status codes, and the saving of a generated recommendation by the route.
- `client/src/lib/queryClient.ts` is not part of this model. The page's error handler is applied to the server's message as it is. Only the key notice is proved to survive surrounding text (`Agreement.KeyNoticeSurvivesWrapping`).
- Rendering, toasts, icons, colours and the mutation's pending flag are not modelled.
- The display components `recommendations-display.tsx` and `itinerary-input.tsx` are not modelled.
- Text.Trim: whitespace is the set of ECMAScript `trim` characters, but strings are sequences of characters, not UTF-16 code units.
