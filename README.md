# Trip planner: the planning pipeline, modelled in Dafny

This project models the backend of the trip planner (`backend/main.py`). The backend
answers `POST /plan_trip` by running a three-stage workflow. The stages are the
researcher, the generator and the critique. Each stage sends a prompt to a
text-generation endpoint, reads JSON out of the reply and stores it in one field of the
trip state. The handler then renumbers the itinerary's days for the frontend.

When the endpoint fails, or its text fails a quality gate, the backend uses a
deterministic fallback planner instead. The planner picks a mode from words of the
prompt. It then writes an itinerary (arrival day, middle days driven by the preferences,
departure day), a review (a summary line and suggestions) or a research payload
(attractions, weather and a tip).

Modules, one per file:

- `Results` (`results.dfy`): `Option`, `Result` and the three Python exceptions that can
  end a request.
  - `InvalidDate`: the ValueError of strptime.
  - `NotIterable`: the TypeError of enumerate.
  - `NoGetMethod`: the AttributeError of `.get` on a non-dict.
- `Text` (`text.dfy`): ASCII lower-casing, substring search (`in`), and str() of an
  integer with the parse that reads it back.
- `Calendar` (`calendar.dfy`): proleptic Gregorian dates, the validity check of strptime,
  and the day number whose differences are `timedelta.days`.
- `Json` (`json.dfy`): JSON values, `dict.get` on a member list, the exact text
  `json.dumps` writes with its default separators and ASCII escaping, and the hypothesis
  `LoadsInvertsDumps` for the parser.
- `Fallback` (`fallback.dfy`): `generate_mock_response` as specification functions. The
  rule tables give each conditional append a `Rule`, and `Selected` keeps the texts of
  the rules that fire.
- `FallbackBuild` (`fallback_build.dfy`): the planner as the source writes it, as
  methods. They build the lists step by step, and each is proved equal to its
  specification function.
- `FallbackFacts` (`fallback_facts.dfy`): what the planner's payloads are: their shape,
  numbering, order, templates and defaults.
- `Gateway` (`gateway.dfy`): `call_huggingface_api`, its quality gate and its fallbacks.
- `Extraction` (`extraction.dfy`): the greedy searches `\[.*\]` and `\{.*\}` as "first
  opening delimiter to last closing delimiter", followed by the parse.
- `Pipeline` (`pipeline.dfy`): the trip state, the three prompts, the three stages and
  their fixed composition.
- `PipelineFacts` (`pipeline_facts.dfy`): what each stage stores when the endpoint cannot
  be used, and how a whole run ends.
- `Service` (`service.dfy`): the `/plan_trip` handler and its formatting loop.

Foreign code appears as parameters, gathered in `Pipeline.Services`:

- `parse` is `json.loads`; `None` means it raised.
- `show` is `str()` of a dict or list placed in a prompt.
- `scan` is the regular-expression searches of the planner (lines 70-79). They yield the
  destination, the preferences and the dates found in a prompt.

The endpoint's answer for each stage is a `Gateway.Reply` value. Lemmas that need
`json.loads` to behave as RFC 8259 says take one of two hypotheses:

- `Json.LoadsInvertsDumps`: it reads back what `json.dumps` writes.
- `PipelineFacts.RejectsExtraData`: it refuses a value followed by `, ` and more text.

Behaviour that follows from the code and is pinned by lemmas:

- The critique's prompt contains the word "itinerary", and the planner tests for that word
  before "review". So the offline critique gets an itinerary, not a review
  (`PipelineFacts.CritiqueAsksForItinerary`).
- From that itinerary's text, the brace search takes everything between the first day's
  `{` and the last day's `}`. That is several objects joined by `, ` (a parse error), so
  the stored review is `{}`, unless the critique's prompt reads as a one-day trip, in
  which case the single day object becomes the review. A trip of no days has no brace at
  all and also gives `{}` (`PipelineFacts.FallbackItineraryBraces`,
  `PipelineFacts.OfflineRun`).
- The critique's prompt carries no dates of its own, so the planner's date searches
  usually find none there and it plans the default three days. An offline run therefore
  stores `{}` as its review, unless the destination or the preferences themselves spell
  out one-day `from`/`to` dates, and never a review with suggestions.

## Model

| member | source | states |
|---|---|---|
| Gateway.CallApi | backend/main.py:39-63 | Anything other than the fallback answer comes from a usable 200 reply and is a text; the only error is the ValueError of the fallback. |
| Gateway.CallApiOutcomes | backend/main.py:39-63 | The call yields the fallback answer, or the first entry's generated text when it passes the gate, or str() of the body; a 200 JSON body that is not a non-empty list always gives str() of that body. It fails only with the ValueError of a date that does not exist. |
| Gateway.DownFallsBack | backend/main.py:41-48 | An unreachable endpoint, a status other than 200 or a body that is not JSON always yields the fallback planner's answer for the prompt. |
| Gateway.GateRejects | backend/main.py:51-55 | A generated text shorter than 50 characters, or with "the" in its first 20 lower-cased characters, is replaced by the fallback answer. |
| Gateway.GatePasses | backend/main.py:51-56 | A generated text of at least 50 characters without "the" in its first 20 lower-cased characters is returned unchanged. |
| Gateway.LeadingTheIsGeneric | backend/main.py:54 | A text that begins with "the", in any case, never passes the gate. |
| Fallback.ModeOf | backend/main.py:90-159 | Itinerary mode exactly when the lower-cased prompt contains "itinerary"; review mode exactly when it contains "review" but not "itinerary"; research mode otherwise. |
| FallbackFacts.ModeIgnoresCase | backend/main.py:90 | The mode of a prompt and of its lower-cased form agree. |
| FallbackBuild.GenerateMockResponse | backend/main.py:65-177 | Equals `MockResponse`: the duration is computed first and can raise, then the JSON text of the payload of the prompt's mode, with "itinerary" tested before "review". |
| FallbackFacts.DurationCountsDays | backend/main.py:82-86 | With two valid dates, the duration is at least 1 exactly when the end is not before the start, and exactly 1 when they are the same day. |
| FallbackFacts.DurationOfOvernightTrip | backend/main.py:84-86 | An end date the day after the start gives a duration of 2. |
| Fallback.TripDuration | backend/main.py:82-88 | The duration fails exactly when both dates were found and one does not exist, and then with ValueError; either date missing gives 3 days. |
| Calendar.DayNumberOrder | backend/main.py:84-86 | The day number orders valid dates as the calendar does: earlier iff smaller, equal iff the same number. |
| Calendar.NextDayNumber | backend/main.py:84-86 | The next calendar day has the next day number. |
| FallbackBuild.BuildItinerary | backend/main.py:92-139 | The `for day in range(1, duration + 1)` loop produces exactly the itinerary plan. |
| FallbackBuild.PlanDay | backend/main.py:94-137 | One loop body's activities: arrival on day 1, departure on the last day, a middle day otherwise. |
| FallbackBuild.MiddleDayActivities | backend/main.py:110-137 | A middle day's appends: the keyword activities, the three defaults when there are none, then the parity activity. |
| FallbackBuild.InterestActivities | backend/main.py:111-123 | The six keyword tests append exactly the selected interest activities, in table order. |
| FallbackFacts.ItineraryPlanShape | backend/main.py:92-139 | The plan has `duration` entries (none below 1), numbered 1..duration. Day 1 is the arrival, even for a one-day trip. For two days or more the last day is the departure, and the days between are middle days. |
| FallbackFacts.ItineraryDaySizes | backend/main.py:92-139 | Every day of a fallback itinerary has between 2 and 7 activities. |
| FallbackFacts.MiddleDaySize | backend/main.py:111-137 | A middle day has 2 to 7 activities and exactly one parity activity ("Relaxing afternoon" on even days, "Adventure activities" on odd ones), the last. |
| FallbackFacts.KeywordActivitiesInOrder | backend/main.py:111-123 | The keyword activities are a subsequence of the table: museum, food, culture, nature, shopping, history, each at most once. |
| FallbackFacts.MiddleDayInterests | backend/main.py:111-123 | An interest's activity is on a middle day exactly when the lower-cased preferences contain one of its keywords. |
| FallbackFacts.MiddleDayDefaults | backend/main.py:125-131 | The three defaults are used exactly when the preferences contain none of the eight keywords; otherwise the day holds the keyword activities. |
| FallbackFacts.SameKeywordsSameDay | backend/main.py:111-137 | Two preferences that contain the same keywords give the same middle day. |
| PipelineFacts.ParisItinerary | backend/main.py:92-139 | Three days in Paris with "museum, food": arrival, then museum, food tour and "Relaxing afternoon", then departure. |
| PipelineFacts.MuseumFoodKeywords | backend/main.py:111-123 | "museum, food" selects the Paris museum visit and the food tour, in that order. |
| PipelineFacts.ParisDuration | backend/main.py:82-86 | 2024-06-01 to 2024-06-03 is a three-day trip. |
| FallbackBuild.BuildSuggestions | backend/main.py:144-152 | The four independent tests append exactly the texts of the suggestion rules that fire, in rule order. |
| FallbackBuild.ReviewPayload | backend/main.py:144-157 | The review dict: the summary line, then the suggestions or the two defaults when none fired. |
| FallbackFacts.SuggestionsShape | backend/main.py:144-156 | Suggestions are never empty and hold 1 to 4 texts. They are the two defaults exactly when no rule fires; otherwise they are the fired texts in rule order. |
| FallbackFacts.SuggestionsPresent | backend/main.py:145-152 | Each suggestion is present exactly when its condition holds: museum with more than 3 days, food, more than 5 days, culture. |
| FallbackFacts.ReviewTextNamesTrip | backend/main.py:155 | The review text is "Good ", the duration as str() writes it (which reads back as the duration), "-day itinerary for " and the destination. |
| Text.IntToStringRoundTrip | backend/main.py:155 | str() of an integer is non-empty, all digits apart from a leading minus, and reads back as the integer. |
| FallbackBuild.BuildAttractions | backend/main.py:161-171 | The attractions list with its two optional appends equals `Attractions`. |
| FallbackBuild.ResearchPayload | backend/main.py:159-177 | The research dict: attractions, the fixed weather and the tip naming the destination. |
| FallbackFacts.AttractionsShape | backend/main.py:161-171 | There are 4 to 6 attractions. The four fixed ones come first, then the museum entry when museums are named, then the food entry when food is named. |
| FallbackFacts.PayloadDistinctKeys | backend/main.py:139-176 | Every payload the planner writes has distinct keys in every dict. |
| FallbackFacts.MockResponseReadsBack | backend/main.py:90-177 | The planner fails only on a bad date. A json.loads that reads back json.dumps recovers exactly the payload of the prompt's mode from its text. |
| FallbackFacts.SelectedEmptyIff | backend/main.py:126 | A rule table selects nothing exactly when no rule fires, and never more texts than rules. |
| FallbackFacts.SelectedMembers | backend/main.py:145-152 | With distinct texts, a rule's text is selected exactly when the rule fires, and only rule texts are selected. |
| FallbackFacts.SelectedInOrder | backend/main.py:112-123 | The selected texts are a subsequence of the rule texts. |
| Extraction.Span | backend/main.py:212 | The greedy match runs from the first opening delimiter to the last closing delimiter. There is none exactly when no closing delimiter follows an opening one. |
| Extraction.Extract | backend/main.py:212-219 | The result is the empty default or what the parser returns for the span: the parse of the span when it succeeds, the default when there is no span. The critique's search at lines 235-242 is the same call with braces. |
| Extraction.NoDelimiterGivesDefault | backend/main.py:212-219 | Text without the opening delimiter gives the stage's empty default, whatever the parser. |
| Extraction.ArrayTextIsItsOwnSpan | backend/main.py:212-215 | The text json.dumps writes for a list is its own bracket span, so a conforming parser recovers the list. |
| Extraction.SingletonObjectSpan | backend/main.py:235-238 | In the text of a one-element list of a dict, the brace span is that dict's text. |
| Extraction.EmptyArrayHasNoObject | backend/main.py:235-242 | The text `[]` has no brace, so the critique stores `{}`. |
| Extraction.ObjectsSpan | backend/main.py:235 | In the text of a non-empty list of dicts, the brace span is the dicts' texts joined by ", ". |
| Pipeline.ResearchPrompt | backend/main.py:181 | The researcher's prompt contains "itinerary" or "review", in any case, exactly when the destination does. |
| Pipeline.GeneratorPrompt | backend/main.py:202-207 | The generator's prompt always contains "itinerary" once lower-cased. |
| Pipeline.CritiquePrompt | backend/main.py:226-230 | The critique's prompt always contains both "review" and "itinerary" once lower-cased. |
| Pipeline.ResearchDefault | backend/main.py:188-195 | The default research is a dict with distinct keys, three attractions each ending with the destination, the planner's weather text and no "local_tips". |
| Pipeline.Researcher | backend/main.py:179-199 | The researcher fails exactly when its call raises, with the same error. Otherwise it stores json.loads of the call's text, or the default research when that parse fails, and keeps every other field. |
| Pipeline.Generator | backend/main.py:201-223 | The generator fails exactly when its call raises, with the same error. Otherwise it stores the parsed bracket span of the call's text, or `[]`, and keeps every other field. |
| Pipeline.Critique | backend/main.py:225-246 | The critique fails exactly when its call raises, with the same error. Otherwise it stores the parsed brace span of the call's text, or `{}`, and keeps every other field. |
| Pipeline.Run | backend/main.py:249-257 | The run is researcher, then generator, then critique. The first stage that raises ends the run with its error, and the run succeeds exactly when all three stages do. The final state is the input with the research of the first stage, the itinerary of the second and the review of the third. |
| PipelineFacts.GeneratorAsksForItinerary | backend/main.py:202-207 | The generator's prompt puts the fallback in itinerary mode, whatever the state. |
| PipelineFacts.CritiqueAsksForItinerary | backend/main.py:226-230 | The critique's prompt also puts the fallback in itinerary mode, since "itinerary" is tested before "review". |
| PipelineFacts.ResearcherAsksForResearch | backend/main.py:181 | The researcher's prompt puts the fallback in research mode exactly when the lower-cased destination contains neither "itinerary" nor "review". |
| PipelineFacts.ResearcherMisreadsDestination | backend/main.py:181 | The researcher's fallback is in itinerary mode exactly when the lower-cased destination contains "itinerary". |
| PipelineFacts.ResearcherFallback | backend/main.py:179-199 | With the endpoint unusable, the researcher stores the fallback payload for the mode of its prompt and the fields read from it, which is the research payload unless the destination names an itinerary or a review, or fails on a bad date. |
| PipelineFacts.ResearcherParseFailure | backend/main.py:185-195 | Text the parser refuses leaves the default research: three attractions of the destination and the weather. |
| PipelineFacts.GeneratorFallback | backend/main.py:201-223 | With the endpoint unusable, the generator stores the fallback itinerary for the fields of its prompt, or fails on a bad date. |
| PipelineFacts.FallbackItineraryBraces | backend/main.py:235-242 | The brace span of a fallback itinerary parses to the day's dict for one day, and to `{}` for any other duration. |
| PipelineFacts.CritiqueFallback | backend/main.py:225-246 | With the endpoint unusable, the critique stores that brace result for the fields of its prompt, or fails on a bad date. |
| PipelineFacts.RunFailsOnlyOnDates | backend/main.py:61-63 | A run can fail only with the ValueError of a date that does not exist. |
| PipelineFacts.OfflineRun | backend/main.py:249-257 | With every stage offline and no bad date, the run stores the fallback payload of the researcher's mode (for any destination, including one that names an itinerary or a review) and the fallback itinerary payload. The review is `{}` unless the critique's prompt reads as a one-day trip. |
| Service.InitialState | backend/main.py:262-270 | The starting state echoes the request, with an empty research dict, itinerary list and review dict. |
| Service.Iterated | backend/main.py:276 | enumerate walks a list's elements, a dict's keys in order or a string's characters in order, as many as there are, and raises TypeError on anything else. |
| Service.DayEntry | backend/main.py:277 | A formatted day is a two-key dict whose "day" is the position and whose "activities" is the day's own "activities", or the whole day when it has none. |
| Service.FormatItinerary | backend/main.py:275-277 | The loop succeeds exactly when every day is a dict, and fails otherwise with AttributeError. It keeps the length, and entry i renumbers day i as i + 1 with the day's "activities" or the whole day. |
| Service.PlanTrip | backend/main.py:259-285 | A run's error ends the request; an itinerary enumerate cannot walk raises TypeError. Otherwise the response echoes the request, carries the run's review, and has the formatted itinerary exactly when every day is a dict. |
| Service.FormatKeepsFallbackItinerary | backend/main.py:275-277 | Formatting leaves a fallback itinerary unchanged: its days are dicts already numbered from 1. |

## Left out

- The HTTP request (`requests.post`), its URL, headers and the `max_length` parameter. The endpoint's answer is a `Reply` value per stage.
- The `print` of a failed call. It is logging.
- The FastAPI app, the CORS middleware and the pydantic request model. They are web plumbing; `TripRequest` holds the four strings.
- The LangGraph `StateGraph` engine. It is a foreign library, modelled as the plain sequential composition `Pipeline.Run` that the graph compiles to.
- The regular expressions of the planner (lines 70-79). They are foreign code; their results are the `scan` parameter.
- `json.loads`. It is foreign code and is the `parse` parameter. The lemmas state their hypotheses on it (`LoadsInvertsDumps`, `RejectsExtraData`).
- `str()` of the research dict and of the itinerary inside prompts. It is the `show` parameter.
- Floating-point JSON numbers. No `Value` represents them, although `response.json()` and the three `json.loads` calls parse the endpoint's text, which can hold them; `Value` has null, booleans, integers, strings, lists and dicts.
- Non-ASCII case folding. `Lower` folds ASCII letters only, while Python's `lower()` folds further characters and can change a string's length, so a keyword test or the gate's 20-character window can differ for non-ASCII text.
- A call that never answers. `requests.post` has no timeout, so the request can block forever; no `Reply` value expresses that.
- Service.Iterated: it yields every key of a dict's member list. A parsed dict never repeats a key, so this differs from Python only for values json.loads cannot produce.
- PipelineFacts.OfflineRun: it leaves the one-day case to `FallbackItineraryBraces`, because the duration read from the critique's prompt depends on `show` and `scan`.
- Frontend code and packaging. They contain no logic of the backend.
