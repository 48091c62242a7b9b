/** The planner's list-building code, step by step as it is written, proved to produce what
    the rule tables of module Fallback specify. */
module FallbackBuild {
  import opened Results
  import opened Text
  import opened Json
  import opened Fallback

  lemma {:induction false} SelectedAppend(a: seq<Rule>, b: seq<Rule>)
    ensures Selected(a + b) == Selected(a) + Selected(b)
    decreases |a|
  {
    if a == [] {
      assert a + b == b;
    } else {
      assert (a + b)[1..] == a[1..] + b;
      SelectedAppend(a[1..], b);
    }
  }

  /** Taking one more rule appends its text when it fires. */
  lemma SelectedStep(rules: seq<Rule>, k: nat)
    requires k < |rules|
    ensures Selected(rules[..k + 1]) == Selected(rules[..k]) + Pick(rules[k])
  {
    assert rules[..k + 1] == rules[..k] + [rules[k]];
    SelectedAppend(rules[..k], [rules[k]]);
  }

  lemma MentionsOne(preferences: string, k: string)
    ensures Mentions(preferences, [k]) == Contains(Lower(preferences), k)
  {
    assert k in [k];
  }

  lemma MentionsTwo(preferences: string, k1: string, k2: string)
    ensures Mentions(preferences, [k1, k2]) == (Contains(Lower(preferences), k1) || Contains(Lower(preferences), k2))
  {
    assert k1 in [k1, k2] && k2 in [k1, k2];
  }

  lemma InterestRulesExplicit(destination: string, preferences: string)
    ensures var rules := InterestRules(Interests(destination), preferences); var p := Lower(preferences);
      && |rules| == 6
      && rules[0] == Rule(Contains(p, "museum"), "Visit " + destination + " Museum")
      && rules[1] == Rule(Contains(p, "food") || Contains(p, "cuisine"), "Food tour of local restaurants")
      && rules[2] == Rule(Contains(p, "culture"), "Cultural site visit")
      && rules[3] == Rule(Contains(p, "nature") || Contains(p, "park"), "Visit local parks and gardens")
      && rules[4] == Rule(Contains(p, "shopping"), "Shopping at local markets")
      && rules[5] == Rule(Contains(p, "history"), "Historical site exploration")
  {
    MentionsOne(preferences, "museum");
    MentionsTwo(preferences, "food", "cuisine");
    MentionsOne(preferences, "culture");
    MentionsTwo(preferences, "nature", "park");
    MentionsOne(preferences, "shopping");
    MentionsOne(preferences, "history");
  }

  lemma SelectedOfTwo(rules: seq<Rule>)
    requires |rules| == 2
    ensures Selected(rules) == Pick(rules[0]) + Pick(rules[1])
  {
    assert rules[..0] == [];
    SelectedStep(rules, 0);
    SelectedStep(rules, 1);
    assert rules[..2] == rules;
  }

  lemma SelectedOfFour(rules: seq<Rule>)
    requires |rules| == 4
    ensures Selected(rules) == Pick(rules[0]) + Pick(rules[1]) + Pick(rules[2]) + Pick(rules[3])
  {
    assert rules[..0] == [];
    SelectedStep(rules, 0);
    SelectedStep(rules, 1);
    SelectedStep(rules, 2);
    SelectedStep(rules, 3);
    assert rules[..4] == rules;
  }

  lemma SelectedOfThree(rules: seq<Rule>)
    requires |rules| == 3
    ensures Selected(rules) == Pick(rules[0]) + Pick(rules[1]) + Pick(rules[2])
  {
    assert rules[..0] == [];
    SelectedStep(rules, 0);
    SelectedStep(rules, 1);
    SelectedStep(rules, 2);
    assert rules[..3] == rules;
  }

  lemma SelectedOfSix(rules: seq<Rule>)
    requires |rules| == 6
    ensures Selected(rules) ==
      Pick(rules[0]) + Pick(rules[1]) + Pick(rules[2]) + Pick(rules[3]) + Pick(rules[4]) + Pick(rules[5])
  {
    var front, back := rules[..3], rules[3..];
    assert rules == front + back;
    SelectedAppend(front, back);
    SelectedOfThree(front);
    SelectedOfThree(back);
  }

  /** The keyword tests of a middle day, each appending its activity. */
  method InterestActivities(destination: string, preferences: string) returns (activities: seq<string>)
    ensures activities == KeywordActivities(destination, preferences)
  {
    ghost var rules := InterestRules(Interests(destination), preferences);
    InterestRulesExplicit(destination, preferences);
    activities := [];
    var p := Lower(preferences);
    if Contains(p, "museum") {
      activities := activities + ["Visit " + destination + " Museum"];
    }
    ghost var done := Pick(rules[0]);
    assert activities == done;
    if Contains(p, "food") || Contains(p, "cuisine") {
      activities := activities + ["Food tour of local restaurants"];
    }
    done := done + Pick(rules[1]);
    assert activities == done;
    if Contains(p, "culture") {
      activities := activities + ["Cultural site visit"];
    }
    done := done + Pick(rules[2]);
    assert activities == done;
    if Contains(p, "nature") || Contains(p, "park") {
      activities := activities + ["Visit local parks and gardens"];
    }
    done := done + Pick(rules[3]);
    assert activities == done;
    if Contains(p, "shopping") {
      activities := activities + ["Shopping at local markets"];
    }
    done := done + Pick(rules[4]);
    assert activities == done;
    if Contains(p, "history") {
      activities := activities + ["Historical site exploration"];
    }
    done := done + Pick(rules[5]);
    assert activities == done;
    SelectedOfSix(rules);
  }

  /** A middle day's appends: the keyword activities, the defaults when there are none,
      then the parity activity. */
  method MiddleDayActivities(day: int, destination: string, preferences: string) returns (activities: seq<string>)
    ensures activities == MiddleDay(day, destination, preferences)
  {
    activities := InterestActivities(destination, preferences);
    if activities == [] {
      activities := activities + ["Explore " + destination + " attractions", "Local sightseeing", "Evening entertainment"];
    }
    if day % 2 == 0 {
      activities := activities + ["Relaxing afternoon"];
    } else {
      activities := activities + ["Adventure activities"];
    }
  }

  /** The activities of one day, built as the loop body of the planner builds them. */
  method PlanDay(day: int, duration: int, destination: string, preferences: string) returns (activities: seq<string>)
    ensures activities == DayActivities(day, duration, destination, preferences)
  {
    activities := [];
    if day == 1 {
      activities := activities + ["Arrive in " + destination, "Check in to hotel", "Explore the city center", "Try local cuisine"];
    } else if day == duration {
      activities := activities + ["Final day exploration", "Visit any missed attractions", "Shopping for souvenirs", "Departure"];
    } else {
      activities := MiddleDayActivities(day, destination, preferences);
    }
  }

  /** A list holding the entry of every day of the trip, in order, is the itinerary plan. */
  lemma PlanByDays(itinerary: seq<DayPlan>, destination: string, preferences: string, duration: int)
    requires |itinerary| == (if duration > 0 then duration else 0)
    requires forall i :: 0 <= i < |itinerary| ==>
      itinerary[i] == DayPlan(i + 1, DayActivities(i + 1, duration, destination, preferences))
    ensures itinerary == ItineraryPlan(destination, preferences, duration)
  {
  }

  /** The loop `for day in range(1, duration + 1)` that appends one entry per day. */
  method BuildItinerary(destination: string, preferences: string, duration: int) returns (itinerary: seq<DayPlan>)
    ensures itinerary == ItineraryPlan(destination, preferences, duration)
  {
    itinerary := [];
    var day := 1;
    while day < duration + 1
      invariant 1 <= day && (duration > 0 ==> day <= duration + 1) && (duration <= 0 ==> day == 1)
      invariant |itinerary| == day - 1
      invariant forall i :: 0 <= i < day - 1 ==>
        itinerary[i] == DayPlan(i + 1, DayActivities(i + 1, duration, destination, preferences))
    {
      var activities := PlanDay(day, duration, destination, preferences);
      itinerary := itinerary + [DayPlan(day, activities)];
      day := day + 1;
    }
    PlanByDays(itinerary, destination, preferences, duration);
  }

  /** The appends of the review branch; the defaults are applied when the payload is written. */
  method BuildSuggestions(preferences: string, duration: int) returns (suggestions: seq<string>)
    ensures suggestions == Selected(SuggestionRules(preferences, duration))
  {
    ghost var rules := SuggestionRules(preferences, duration);
    suggestions := [];
    var p := Lower(preferences);
    if Contains(p, "museum") && duration > 3 {
      suggestions := suggestions + ["Consider adding more museum visits"];
    }
    ghost var done := Pick(rules[0]);
    assert suggestions == done;
    if Contains(p, "food") {
      suggestions := suggestions + ["Include more local food experiences"];
    }
    done := done + Pick(rules[1]);
    assert suggestions == done;
    if duration > 5 {
      suggestions := suggestions + ["Add day trips to nearby attractions"];
    }
    done := done + Pick(rules[2]);
    assert suggestions == done;
    if Contains(p, "culture") {
      suggestions := suggestions + ["Include more cultural activities"];
    }
    done := done + Pick(rules[3]);
    assert suggestions == done;
    SelectedOfFour(rules);
  }

  /** The attractions list of the research branch and its two optional appends. */
  method BuildAttractions(destination: string, preferences: string) returns (attractions: seq<string>)
    ensures attractions == Attractions(destination, preferences)
  {
    ghost var rules := AttractionRules(destination, preferences);
    attractions := ["Famous landmarks in " + destination, "Local museums and galleries",
                    "Food markets and restaurants", "Cultural sites and monuments"];
    var p := Lower(preferences);
    if Contains(p, "museum") {
      attractions := attractions + ["Specialized museums in " + destination];
    }
    ghost var done := BaseAttractions(destination) + Pick(rules[0]);
    assert attractions == done;
    if Contains(p, "food") {
      attractions := attractions + ["Local cuisine hotspots"];
    }
    done := done + Pick(rules[1]);
    assert attractions == done;
    SelectedOfTwo(rules);
  }

  /** The review branch's dict: the summary line, then the suggestions or the two defaults. */
  method ReviewPayload(destination: string, preferences: string, duration: int) returns (v: Value)
    ensures v == ReviewJson(destination, preferences, duration)
  {
    var suggestions := BuildSuggestions(preferences, duration);
    if suggestions == [] {
      suggestions := ["Add more local experiences", "Include evening activities"];
    }
    v := Object([Member("review", Str("Good " + IntToString(duration) + "-day itinerary for " + destination)),
                 Member("suggestions", Strings(suggestions))]);
  }

  /** The research branch's dict: attractions, weather and a tip. */
  method ResearchPayload(destination: string, preferences: string) returns (v: Value)
    ensures v == ResearchJson(destination, preferences)
  {
    var attractions := BuildAttractions(destination, preferences);
    v := Object([Member("attractions", Strings(attractions)),
                 Member("weather", Str(Weather)),
                 Member("local_tips", Str("Best time to visit " + destination + " attractions"))]);
  }

  /** generate_mock_response as written: duration first, then the branch of the mode. */
  method GenerateMockResponse(prompt: string, f: PromptFields) returns (r: Result<string>)
    ensures r == MockResponse(prompt, f)
  {
    var duration :- TripDuration(f);
    var p := Lower(prompt);
    var payload: Value;
    if Contains(p, "itinerary") {
      assert ModeOf(prompt) == ItineraryMode;
      var itinerary := BuildItinerary(f.destination, f.preferences, duration);
      payload := ItineraryJson(itinerary);
    } else if Contains(p, "review") {
      assert ModeOf(prompt) == ReviewMode;
      payload := ReviewPayload(f.destination, f.preferences, duration);
    } else {
      assert ModeOf(prompt) == ResearchMode;
      payload := ResearchPayload(f.destination, f.preferences);
    }
    r := Ok(Dumps(payload));
  }
}
