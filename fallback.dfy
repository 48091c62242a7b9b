/** The deterministic planner behind generate_mock_response: it picks a mode from keywords
    of the prompt and writes an itinerary, a review or a research payload as JSON text. */
module Fallback {
  import opened Results
  import opened Text
  import opened Calendar
  import opened Json

  datatype Mode = ResearchMode | ItineraryMode | ReviewMode

  /** The payload a prompt asks for: "itinerary" is tested before "review", and a prompt
      with neither word gets research. */
  function ModeOf(prompt: string): (m: Mode)
    ensures m == ItineraryMode <==> Contains(Lower(prompt), "itinerary")
    ensures m == ReviewMode <==> !Contains(Lower(prompt), "itinerary") && Contains(Lower(prompt), "review")
    ensures m == ResearchMode <==> !Contains(Lower(prompt), "itinerary") && !Contains(Lower(prompt), "review")
  {
    var p := Lower(prompt);
    if Contains(p, "itinerary") then ItineraryMode
    else if Contains(p, "review") then ReviewMode
    else ResearchMode
  }

  /** What the regular-expression searches of the planner find in a prompt: the destination
      ("destination" when absent) and the preferences ("" when absent), both stripped, and
      the numbers of the dates after "from " and "to ", when present. */
  datatype PromptFields = PromptFields(destination: string, preferences: string, start: Option<Date>, end: Option<Date>)

  /** The trip length in days, both ends included; 3 when either date is missing.
      A date that does not exist makes strptime raise ValueError. */
  function TripDuration(f: PromptFields): (r: Result<int>)
    ensures r.Err? <==> f.start.Some? && f.end.Some? && !(ValidDate(f.start.value) && ValidDate(f.end.value))
    ensures r.Err? ==> r.error == InvalidDate
    ensures f.start.None? || f.end.None? ==> r == Ok(3)
  {
    if f.start.Some? && f.end.Some? then
      if ValidDate(f.start.value) && ValidDate(f.end.value) then
        Ok(DayNumber(f.end.value) - DayNumber(f.start.value) + 1)
      else Err(InvalidDate)
    else Ok(3)
  }

  /** One entry of an itinerary: its day number and its activities in order. */
  datatype DayPlan = DayPlan(day: int, activities: seq<string>)

  function Arrival(destination: string): seq<string>
  {
    ["Arrive in " + destination, "Check in to hotel", "Explore the city center", "Try local cuisine"]
  }

  function Departure(): seq<string>
  {
    ["Final day exploration", "Visit any missed attractions", "Shopping for souvenirs", "Departure"]
  }

  /** The middle-day activities used when the preferences name none of the interests. */
  function Defaults(destination: string): seq<string>
  {
    ["Explore " + destination + " attractions", "Local sightseeing", "Evening entertainment"]
  }

  /** The activity that closes every middle day, alternating with the day number. */
  function ParityActivity(day: int): string
  {
    if day % 2 == 0 then "Relaxing afternoon" else "Adventure activities"
  }

  /** A text that is included when its condition holds. */
  datatype Rule = Rule(fires: bool, text: string)

  /** The rule's text when it fires, nothing otherwise. */
  function Pick(r: Rule): seq<string>
  {
    if r.fires then [r.text] else []
  }

  /** The texts of the rules that fire, in the order of the rules. */
  function Selected(rules: seq<Rule>): seq<string>
  {
    if rules == [] then [] else Pick(rules[0]) + Selected(rules[1..])
  }

  function Texts(rules: seq<Rule>): seq<string>
  {
    seq(|rules|, i requires 0 <= i < |rules| => rules[i].text)
  }

  predicate DistinctTexts(rules: seq<Rule>)
  {
    forall i, j :: 0 <= i < j < |rules| ==> rules[i].text != rules[j].text
  }

  /** xs can be obtained from ys by deleting elements. */
  predicate Subsequence(xs: seq<string>, ys: seq<string>)
  {
    xs == [] ||
    (ys != [] && ((xs[0] == ys[0] && Subsequence(xs[1..], ys[1..])) || Subsequence(xs, ys[1..])))
  }

  /** A middle-day activity offered when any of its keywords occurs in the lower-cased preferences. */
  datatype Interest = Interest(keywords: seq<string>, activity: string)

  /** The interests, in the order their activities are appended. */
  function Interests(destination: string): seq<Interest>
  {
    [ Interest(["museum"], "Visit " + destination + " Museum"),
      Interest(["food", "cuisine"], "Food tour of local restaurants"),
      Interest(["culture"], "Cultural site visit"),
      Interest(["nature", "park"], "Visit local parks and gardens"),
      Interest(["shopping"], "Shopping at local markets"),
      Interest(["history"], "Historical site exploration") ]
  }

  /** Every keyword the middle days react to. */
  function Keywords(): seq<string>
  {
    ["museum", "food", "cuisine", "culture", "nature", "park", "shopping", "history"]
  }

  predicate Mentions(preferences: string, keywords: seq<string>)
  {
    exists k | k in keywords :: Contains(Lower(preferences), k)
  }

  function InterestRules(interests: seq<Interest>, preferences: string): seq<Rule>
  {
    seq(|interests|, i requires 0 <= i < |interests| => Rule(Mentions(preferences, interests[i].keywords), interests[i].activity))
  }

  function KeywordActivities(destination: string, preferences: string): seq<string>
  {
    Selected(InterestRules(Interests(destination), preferences))
  }

  /** A day strictly between the first and the last: the activities of the interests the
      preferences mention (or the defaults when none), then the parity activity. */
  function MiddleDay(day: int, destination: string, preferences: string): seq<string>
  {
    var chosen := KeywordActivities(destination, preferences);
    (if chosen == [] then Defaults(destination) else chosen) + [ParityActivity(day)]
  }

  /** Day 1 arrives even when it is also the last day; the last day departs. */
  function DayActivities(day: int, duration: int, destination: string, preferences: string): seq<string>
  {
    if day == 1 then Arrival(destination)
    else if day == duration then Departure()
    else MiddleDay(day, destination, preferences)
  }

  /** One entry per day of the trip, numbered from 1; none for a duration below 1. */
  function ItineraryPlan(destination: string, preferences: string, duration: int): seq<DayPlan>
  {
    seq(if duration > 0 then duration else 0,
        i requires 0 <= i < (if duration > 0 then duration else 0) =>
          DayPlan(i + 1, DayActivities(i + 1, duration, destination, preferences)))
  }

  function SuggestionRules(preferences: string, duration: int): seq<Rule>
  {
    var p := Lower(preferences);
    [ Rule(Contains(p, "museum") && duration > 3, "Consider adding more museum visits"),
      Rule(Contains(p, "food"), "Include more local food experiences"),
      Rule(duration > 5, "Add day trips to nearby attractions"),
      Rule(Contains(p, "culture"), "Include more cultural activities") ]
  }

  function DefaultSuggestions(): seq<string>
  {
    ["Add more local experiences", "Include evening activities"]
  }

  /** The suggestions of a review: those whose rule fires, or the two defaults when none does. */
  function Suggestions(preferences: string, duration: int): seq<string>
  {
    var fired := Selected(SuggestionRules(preferences, duration));
    if fired == [] then DefaultSuggestions() else fired
  }

  function BaseAttractions(destination: string): seq<string>
  {
    ["Famous landmarks in " + destination, "Local museums and galleries",
     "Food markets and restaurants", "Cultural sites and monuments"]
  }

  function AttractionRules(destination: string, preferences: string): seq<Rule>
  {
    var p := Lower(preferences);
    [ Rule(Contains(p, "museum"), "Specialized museums in " + destination),
      Rule(Contains(p, "food"), "Local cuisine hotspots") ]
  }

  function Attractions(destination: string, preferences: string): seq<string>
  {
    BaseAttractions(destination) + Selected(AttractionRules(destination, preferences))
  }

  function ReviewText(duration: int, destination: string): string
  {
    "Good " + IntToString(duration) + "-day itinerary for " + destination
  }

  const Weather := "Mild, 20-25C, mostly sunny"

  function DayJson(p: DayPlan): Value
  {
    Object([Member("day", Number(p.day)), Member("activities", Strings(p.activities))])
  }

  function ItineraryJson(plan: seq<DayPlan>): (v: Value)
    ensures v.Array? && |v.items| == |plan|
    ensures forall i :: 0 <= i < |plan| ==> v.items[i] == DayJson(plan[i])
  {
    Array(seq(|plan|, i requires 0 <= i < |plan| => DayJson(plan[i])))
  }

  function ReviewJson(destination: string, preferences: string, duration: int): Value
  {
    Object([Member("review", Str(ReviewText(duration, destination))),
            Member("suggestions", Strings(Suggestions(preferences, duration)))])
  }

  function ResearchJson(destination: string, preferences: string): Value
  {
    Object([Member("attractions", Strings(Attractions(destination, preferences))),
            Member("weather", Str(Weather)),
            Member("local_tips", Str("Best time to visit " + destination + " attractions"))])
  }

  function MockPayload(mode: Mode, destination: string, preferences: string, duration: int): Value
  {
    match mode
    case ItineraryMode => ItineraryJson(ItineraryPlan(destination, preferences, duration))
    case ReviewMode => ReviewJson(destination, preferences, duration)
    case ResearchMode => ResearchJson(destination, preferences)
  }

  /** generate_mock_response: the JSON text of the payload for the prompt's mode, or the
      ValueError of a date that does not exist (raised whatever the mode). */
  function MockResponse(prompt: string, f: PromptFields): Result<string>
  {
    var duration :- TripDuration(f);
    Ok(Dumps(MockPayload(ModeOf(prompt), f.destination, f.preferences, duration)))
  }
}
