/** What the workflow's prompts ask the fallback planner for, what each stage stores when
    the endpoint cannot be used, and how a whole run ends. */
module PipelineFacts {
  import opened Results
  import opened Text
  import opened Calendar
  import opened Json
  import opened Fallback
  import opened FallbackBuild
  import opened FallbackFacts
  import opened Gateway
  import opened Extraction
  import opened Pipeline

  /** A json.loads that refuses a complete value followed by ", " and more text, as
      RFC 8259 parsers do ("Extra data"). */
  ghost predicate RejectsExtraData(parse: string -> Option<Value>)
  {
    forall v, t :: parse(Dumps(v) + ", " + t) == None
  }

  /** The generator's prompt contains "itinerary", so the fallback answers it with an itinerary. */
  lemma GeneratorAsksForItinerary(st: TripState, show: Value -> string)
    ensures ModeOf(GeneratorPrompt(st, show)) == ItineraryMode
  {
  }

  /** The critique's prompt contains "review" and "itinerary": "itinerary" is tested first,
      so the fallback answers the critique with an itinerary, not with a review. */
  lemma CritiqueAsksForItinerary(st: TripState, show: Value -> string)
    ensures ModeOf(CritiquePrompt(st, show)) == ItineraryMode
  {
  }

  /** The researcher's prompt asks for research exactly when the destination, in any case,
      contains neither "itinerary" nor "review". */
  lemma ResearcherAsksForResearch(st: TripState)
    ensures ModeOf(ResearchPrompt(st)) == ResearchMode <==>
      !Contains(Lower(st.destination), "itinerary") && !Contains(Lower(st.destination), "review")
  {
  }

  /** A destination whose name contains "itinerary" turns the researcher's fallback into an
      itinerary, and only such a destination does. */
  lemma ResearcherMisreadsDestination(st: TripState)
    ensures ModeOf(ResearchPrompt(st)) == ItineraryMode <==> Contains(Lower(st.destination), "itinerary")
  {
  }

  /** With the endpoint unusable, the researcher stores the fallback's payload for the mode
      of its prompt (research, unless the destination names an itinerary or a review) and
      the destination and preferences read from the prompt, or fails on a date that does
      not exist. */
  lemma ResearcherFallback(st: TripState, reply: Reply, sv: Services)
    requires Down(reply) && LoadsInvertsDumps(sv.parse)
    ensures var f := sv.scan(ResearchPrompt(st));
      TripDuration(f).Ok? ==>
        Researcher(st, reply, sv) ==
          Ok(st.(research := MockPayload(ModeOf(ResearchPrompt(st)), f.destination, f.preferences, TripDuration(f).value)))
    ensures TripDuration(sv.scan(ResearchPrompt(st))).Err? ==> Researcher(st, reply, sv) == Err(InvalidDate)
  {
    var f := sv.scan(ResearchPrompt(st));
    DownFallsBack(ResearchPrompt(st), reply, sv.scan, sv.show);
    MockResponseReadsBack(ResearchPrompt(st), f, sv.parse);
  }

  /** Text the parser refuses leaves the researcher's default research: three attractions
      of the destination and the weather. */
  lemma ResearcherParseFailure(st: TripState, reply: Reply, sv: Services, text: string)
    requires CallApi(ResearchPrompt(st), reply, sv.scan, sv.show) == Ok(text)
    requires sv.parse(text).None?
    ensures Researcher(st, reply, sv) == Ok(st.(research := ResearchDefault(st.destination)))
    ensures |ResearchDefault(st.destination).members| == 2
  {
  }

  /** With the endpoint unusable, the generator stores the fallback itinerary for the
      destination, preferences and dates read from its prompt, or fails on a date that does
      not exist. */
  lemma GeneratorFallback(st: TripState, reply: Reply, sv: Services)
    requires Down(reply) && LoadsInvertsDumps(sv.parse)
    ensures var f := sv.scan(GeneratorPrompt(st, sv.show));
      TripDuration(f).Ok? ==>
        Generator(st, reply, sv) ==
          Ok(st.(itinerary := ItineraryJson(ItineraryPlan(f.destination, f.preferences, TripDuration(f).value))))
    ensures TripDuration(sv.scan(GeneratorPrompt(st, sv.show))).Err? ==> Generator(st, reply, sv) == Err(InvalidDate)
  {
    var p := GeneratorPrompt(st, sv.show);
    var f := sv.scan(p);
    DownFallsBack(p, reply, sv.scan, sv.show);
    GeneratorAsksForItinerary(st, sv.show);
    if TripDuration(f).Ok? {
      var plan := ItineraryPlan(f.destination, f.preferences, TripDuration(f).value);
      ItineraryDistinctKeys(plan);
      ArrayTextIsItsOwnSpan(ItineraryJson(plan), sv.parse, Array([]));
    }
  }

  /** The text of the fallback itinerary of one day holds a single object, that day's;
      every other length yields the empty dict: no object at all for no day, several
      objects joined by ", " for two days or more, which a conforming parser refuses. */
  lemma FallbackItineraryBraces(destination: string, preferences: string, duration: int,
                                parse: string -> Option<Value>)
    requires LoadsInvertsDumps(parse) && RejectsExtraData(parse)
    ensures var text := Dumps(ItineraryJson(ItineraryPlan(destination, preferences, duration)));
      duration == 1 ==> Extract(text, '{', '}', parse, Object([])) == DayJson(DayPlan(1, Arrival(destination)))
    ensures var text := Dumps(ItineraryJson(ItineraryPlan(destination, preferences, duration)));
      duration != 1 ==> Extract(text, '{', '}', parse, Object([])) == Object([])
  {
    var plan := ItineraryPlan(destination, preferences, duration);
    var items := ItineraryJson(plan).items;
    if duration <= 0 {
      assert items == [];
      EmptyArrayHasNoObject(parse, Object([]));
    } else if duration == 1 {
      assert items == [DayJson(DayPlan(1, Arrival(destination)))];
      ItineraryDistinctKeys(plan);
      SingletonObjectSpan(items[0], parse, Object([]));
    } else {
      ObjectsSpan(items);
      var parts := seq(|items|, i requires 0 <= i < |items| => Dumps(items[i]));
      assert Join(parts, ", ") == Dumps(items[0]) + ", " + Join(parts[1..], ", ");
      assert parse(Dumps(items[0]) + ", " + Join(parts[1..], ", ")) == None;
    }
  }

  /** With the endpoint unusable, the critique parses the brace span of the fallback
      itinerary for the fields read from its prompt. */
  lemma CritiqueFallback(st: TripState, reply: Reply, sv: Services)
    requires Down(reply) && LoadsInvertsDumps(sv.parse) && RejectsExtraData(sv.parse)
    ensures var f := sv.scan(CritiquePrompt(st, sv.show));
      TripDuration(f).Ok? && TripDuration(f).value != 1 ==>
        Critique(st, reply, sv) == Ok(st.(review := Object([])))
    ensures var f := sv.scan(CritiquePrompt(st, sv.show));
      TripDuration(f) == Ok(1) ==>
        Critique(st, reply, sv) == Ok(st.(review := DayJson(DayPlan(1, Arrival(f.destination)))))
    ensures TripDuration(sv.scan(CritiquePrompt(st, sv.show))).Err? ==> Critique(st, reply, sv) == Err(InvalidDate)
  {
    var p := CritiquePrompt(st, sv.show);
    var f := sv.scan(p);
    DownFallsBack(p, reply, sv.scan, sv.show);
    CritiqueAsksForItinerary(st, sv.show);
    if TripDuration(f).Ok? {
      FallbackItineraryBraces(f.destination, f.preferences, TripDuration(f).value, sv.parse);
    }
  }

  /** A run fails only with the ValueError of a date that does not exist. */
  lemma RunFailsOnlyOnDates(st: TripState, replies: Replies, sv: Services)
    ensures Run(st, replies, sv).Err? ==> Run(st, replies, sv).error == InvalidDate
  {
    CallApiOutcomes(ResearchPrompt(st), replies.researcher, sv.scan, sv.show);
    var a := Researcher(st, replies.researcher, sv);
    if a.Ok? {
      CallApiOutcomes(GeneratorPrompt(a.value, sv.show), replies.generator, sv.scan, sv.show);
      var b := Generator(a.value, replies.generator, sv);
      if b.Ok? {
        CallApiOutcomes(CritiquePrompt(b.value, sv.show), replies.critique, sv.scan, sv.show);
      }
    }
  }

  /** With the endpoint unusable at every stage, a run that meets no bad date keeps the
      request, stores the fallback payload of the researcher's mode (the research payload
      unless the destination names an itinerary or a review) and the fallback itinerary,
      and ends with an empty review unless the critique's prompt reads as a one-day trip. */
  lemma OfflineRun(st: TripState, replies: Replies, sv: Services)
    requires Down(replies.researcher) && Down(replies.generator) && Down(replies.critique)
    requires LoadsInvertsDumps(sv.parse) && RejectsExtraData(sv.parse)
    ensures var f1 := sv.scan(ResearchPrompt(st));
      TripDuration(f1).Ok? ==>
      var a := st.(research := MockPayload(ModeOf(ResearchPrompt(st)), f1.destination, f1.preferences, TripDuration(f1).value));
      var f2 := sv.scan(GeneratorPrompt(a, sv.show));
      TripDuration(f2).Ok? ==>
      var b := a.(itinerary := ItineraryJson(ItineraryPlan(f2.destination, f2.preferences, TripDuration(f2).value)));
      var f3 := sv.scan(CritiquePrompt(b, sv.show));
      TripDuration(f3).Ok? && TripDuration(f3).value != 1 ==>
      Run(st, replies, sv) == Ok(b.(review := Object([])))
  {
    var f1 := sv.scan(ResearchPrompt(st));
    ResearcherFallback(st, replies.researcher, sv);
    if TripDuration(f1).Ok? {
      var a := st.(research := MockPayload(ModeOf(ResearchPrompt(st)), f1.destination, f1.preferences, TripDuration(f1).value));
      var f2 := sv.scan(GeneratorPrompt(a, sv.show));
      GeneratorFallback(a, replies.generator, sv);
      if TripDuration(f2).Ok? {
        var b := a.(itinerary := ItineraryJson(ItineraryPlan(f2.destination, f2.preferences, TripDuration(f2).value)));
        CritiqueFallback(b, replies.critique, sv);
      }
    }
  }

  /** The dates 2024-06-01 and 2024-06-03 make a three-day trip. */
  lemma ParisDuration()
    ensures TripDuration(PromptFields("Paris", "museum, food", Some(Date(2024, 6, 1)), Some(Date(2024, 6, 3)))) == Ok(3)
  {
    var f := PromptFields("Paris", "museum, food", Some(Date(2024, 6, 1)), Some(Date(2024, 6, 3)));
    NextDayNumber(Date(2024, 6, 1));
    NextDayNumber(Date(2024, 6, 2));
  }

  /** "museum, food" contains the keywords museum and food and none of the others. */
  lemma MuseumFoodMentions()
    ensures var p := Lower("museum, food");
      && Contains(p, "museum") && Contains(p, "food")
      && !Contains(p, "cuisine") && !Contains(p, "culture") && !Contains(p, "nature")
      && !Contains(p, "park") && !Contains(p, "shopping") && !Contains(p, "history")
  {
    var p := Lower("museum, food");
    assert p == "museum, food";
    assert OccursAt(p, "museum", 0);
    assert OccursAt(p, "food", 8);
    assert forall j :: 0 <= j < |p| ==> p[j] != 'c' && p[j] != 'n' && p[j] != 'p' && p[j] != 'h';
    MissingCharNotContained(p, "cuisine", 0);
    MissingCharNotContained(p, "culture", 0);
    MissingCharNotContained(p, "nature", 0);
    MissingCharNotContained(p, "park", 0);
    MissingCharNotContained(p, "shopping", 1);
    MissingCharNotContained(p, "history", 0);
  }

  /** Preferences "museum, food" select the museum and the food tour, in that order. */
  lemma MuseumFoodKeywords()
    ensures KeywordActivities("Paris", "museum, food") == ["Visit Paris Museum", "Food tour of local restaurants"]
  {
    var rules := InterestRules(Interests("Paris"), "museum, food");
    MuseumFoodMentions();
    InterestRulesExplicit("Paris", "museum, food");
    assert rules[0] == Rule(true, "Visit Paris Museum");
    assert rules[1] == Rule(true, "Food tour of local restaurants");
    assert !rules[2].fires && !rules[3].fires && !rules[4].fires && !rules[5].fires;
    SelectedOfSix(rules);
  }

  /** Three days in Paris with "museum, food": arrival, a middle day with the museum, the
      food tour and a relaxing afternoon, then departure. */
  lemma ParisItinerary()
    ensures ItineraryPlan("Paris", "museum, food", 3) ==
      [ DayPlan(1, Arrival("Paris")),
        DayPlan(2, ["Visit Paris Museum", "Food tour of local restaurants", "Relaxing afternoon"]),
        DayPlan(3, Departure()) ]
  {
    MuseumFoodKeywords();
    assert MiddleDay(2, "Paris", "museum, food") == ["Visit Paris Museum", "Food tour of local restaurants", "Relaxing afternoon"];
  }
}
