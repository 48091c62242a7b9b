/** What the planner promises about the payloads it writes. */
module FallbackFacts {
  import opened Results
  import opened Text
  import opened Calendar
  import opened Json
  import opened Fallback
  import opened FallbackBuild

  /** No text is selected exactly when no rule fires, and never more texts than rules. */
  lemma {:induction false} SelectedEmptyIff(rules: seq<Rule>)
    ensures |Selected(rules)| <= |rules|
    ensures Selected(rules) == [] <==> forall i :: 0 <= i < |rules| ==> !rules[i].fires
  {
    if rules != [] {
      SelectedEmptyIff(rules[1..]);
      assert forall i :: 1 <= i < |rules| ==> rules[i] == rules[1..][i - 1];
    }
  }

  /** The selected texts keep the order of the rules, each at most once. */
  lemma {:induction false} SelectedInOrder(rules: seq<Rule>)
    ensures Subsequence(Selected(rules), Texts(rules))
  {
    if rules != [] {
      SelectedInOrder(rules[1..]);
      assert Texts(rules)[1..] == Texts(rules[1..]);
      if rules[0].fires {
        assert (Pick(rules[0]) + Selected(rules[1..]))[1..] == Selected(rules[1..]);
      } else {
        assert Selected(rules) == Selected(rules[1..]);
      }
    }
  }

  /** With distinct texts, a rule's text is selected exactly when the rule fires. */
  lemma {:induction false} SelectedMembers(rules: seq<Rule>)
    requires DistinctTexts(rules)
    ensures forall i :: 0 <= i < |rules| ==> (rules[i].text in Selected(rules) <==> rules[i].fires)
    ensures forall t :: t in Selected(rules) ==> t in Texts(rules)
  {
    if rules != [] {
      var rest := rules[1..];
      assert DistinctTexts(rest) by {
        forall i, j | 0 <= i < j < |rest| ensures rest[i].text != rest[j].text {
          assert rest[i] == rules[i + 1] && rest[j] == rules[j + 1];
        }
      }
      SelectedMembers(rest);
      assert Selected(rules) == Pick(rules[0]) + Selected(rest);
      forall i | 1 <= i < |rules|
        ensures rules[i].text in Selected(rules) <==> rules[i].fires
      {
        assert rules[i] == rest[i - 1];
        assert rules[i].text != rules[0].text;
      }
      assert rules[0].text !in Selected(rest) by {
        forall i | 0 <= i < |rest| ensures rest[i].text != rules[0].text {
          assert rest[i] == rules[i + 1];
        }
      }
      forall t | t in Selected(rules) ensures t in Texts(rules) {
        if t in Selected(rest) {
          var k :| 0 <= k < |rest| && Texts(rest)[k] == t;
          assert Texts(rules)[k + 1] == t;
        } else {
          assert Texts(rules)[0] == t;
        }
      }
    }
  }

  function Activities(interests: seq<Interest>): seq<string>
  {
    seq(|interests|, i requires 0 <= i < |interests| => interests[i].activity)
  }

  lemma InterestTextsDistinct(destination: string, preferences: string)
    ensures DistinctTexts(InterestRules(Interests(destination), preferences))
  {
    var rules := InterestRules(Interests(destination), preferences);
    var museum := "Visit " + destination + " Museum";
    assert museum[|museum| - 1] == 'm';
    assert museum[0] == 'V';
    assert museum != "Visit local parks and gardens" by {
      var parks := "Visit local parks and gardens";
      assert parks[|parks| - 1] == 's';
    }
  }

  /** The mode test ignores case: a prompt and its lower-cased form ask for the same payload. */
  lemma ModeIgnoresCase(prompt: string)
    ensures ModeOf(Lower(prompt)) == ModeOf(prompt)
  {
    LowerIdempotent(prompt);
  }

  /** A middle day has between 2 and 7 activities and exactly one parity activity, the last. */
  lemma MiddleDaySize(day: int, destination: string, preferences: string)
    ensures var m := MiddleDay(day, destination, preferences);
      && 2 <= |m| <= 7 && m[|m| - 1] == ParityActivity(day)
      && ParityActivity(day) !in m[..|m| - 1]
  {
    var rules := InterestRules(Interests(destination), preferences);
    var chosen := KeywordActivities(destination, preferences);
    var m := MiddleDay(day, destination, preferences);
    SelectedEmptyIff(rules);
    InterestTextsDistinct(destination, preferences);
    SelectedMembers(rules);
    InterestActivitiesApart(day, destination);
    assert m[..|m| - 1] == if chosen == [] then Defaults(destination) else chosen;
    forall t | t in chosen ensures t != ParityActivity(day) {
      assert t in Texts(rules);
      var k :| 0 <= k < |rules| && Texts(rules)[k] == t;
      assert t == Interests(destination)[k].activity;
    }
    var defaults := Defaults(destination);
    assert defaults[0][0] == 'E' && defaults[1][0] == 'L' && defaults[2][0] == 'E';
    assert ParityActivity(day)[0] in "RA";
  }

  /** The keyword activities of a middle day follow the order of the table, each at most once. */
  lemma KeywordActivitiesInOrder(destination: string, preferences: string)
    ensures Subsequence(KeywordActivities(destination, preferences), Activities(Interests(destination)))
  {
    var rules := InterestRules(Interests(destination), preferences);
    SelectedInOrder(rules);
    assert Texts(rules) == Activities(Interests(destination));
  }

  /** The preferences contain none of the keywords. */
  predicate NoKeyword(p: string)
  {
    && !Contains(p, "museum") && !Contains(p, "food") && !Contains(p, "cuisine") && !Contains(p, "culture")
    && !Contains(p, "nature") && !Contains(p, "park") && !Contains(p, "shopping") && !Contains(p, "history")
  }

  /** The keyword table and the predicate say the same. */
  lemma NoKeywordListed(p: string)
    ensures (forall k :: k in Keywords() ==> !Contains(p, k)) <==> NoKeyword(p)
  {
    var kw := Keywords();
    assert kw[0] == "museum" && kw[1] == "food" && kw[2] == "cuisine" && kw[3] == "culture";
    assert kw[4] == "nature" && kw[5] == "park" && kw[6] == "shopping" && kw[7] == "history";
    if NoKeyword(p) {
      forall k | k in kw ensures !Contains(p, k) {
        var n :| 0 <= n < 8 && kw[n] == k;
      }
    }
  }

  /** No interest rule fires exactly when the preferences contain none of the keywords. */
  lemma NoInterestIffNoKeyword(destination: string, preferences: string)
    ensures var rules := InterestRules(Interests(destination), preferences);
      (forall i :: 0 <= i < |rules| ==> !rules[i].fires) <==>
      (forall k :: k in Keywords() ==> !Contains(Lower(preferences), k))
  {
    var rules := InterestRules(Interests(destination), preferences);
    InterestRulesExplicit(destination, preferences);
    NoKeywordListed(Lower(preferences));
    assert (forall i :: 0 <= i < |rules| ==> !rules[i].fires) <==> NoKeyword(Lower(preferences)) by {
      assert rules[0].fires == Contains(Lower(preferences), "museum");
    }
  }

  /** Selected keyword activities never coincide with the defaults: an activity and a default
      start with different letters. */
  lemma KeywordActivitiesAreNotDefaults(destination: string, preferences: string)
    ensures KeywordActivities(destination, preferences) != [] ==>
      KeywordActivities(destination, preferences) != Defaults(destination)
  {
    var rules := InterestRules(Interests(destination), preferences);
    var chosen := KeywordActivities(destination, preferences);
    if chosen != [] {
      InterestTextsDistinct(destination, preferences);
      SelectedMembers(rules);
      assert chosen[0] in Texts(rules);
      var k :| 0 <= k < 6 && rules[k].text == chosen[0];
      assert rules[k].text[0] != Defaults(destination)[0][0];
    }
  }

  /** A middle day falls back on the three defaults exactly when the preferences mention
      none of the keywords; otherwise it holds the keyword activities before the parity one. */
  lemma MiddleDayDefaults(day: int, destination: string, preferences: string)
    ensures var m := MiddleDay(day, destination, preferences);
      && (m[..|m| - 1] == Defaults(destination) <==> forall k :: k in Keywords() ==> !Contains(Lower(preferences), k))
      && (m[..|m| - 1] != Defaults(destination) ==> m[..|m| - 1] == KeywordActivities(destination, preferences))
  {
    var rules := InterestRules(Interests(destination), preferences);
    var chosen := KeywordActivities(destination, preferences);
    var m := MiddleDay(day, destination, preferences);
    SelectedEmptyIff(rules);
    NoInterestIffNoKeyword(destination, preferences);
    KeywordActivitiesAreNotDefaults(destination, preferences);
    assert m[..|m| - 1] == if chosen == [] then Defaults(destination) else chosen;
  }

  /** No interest's activity is one of the defaults or a parity activity. */
  lemma InterestActivitiesApart(day: int, destination: string)
    ensures forall i :: 0 <= i < |Interests(destination)| ==>
      Interests(destination)[i].activity !in Defaults(destination) &&
      Interests(destination)[i].activity != ParityActivity(day)
  {
    var interests := Interests(destination);
    var defaults := Defaults(destination);
    assert defaults[0][0] == 'E' && defaults[1][0] == 'L' && defaults[2][0] == 'E';
    assert ParityActivity(day)[0] in "RA";
    forall i | 0 <= i < 6
      ensures interests[i].activity[0] in "VFCSH"
    {
    }
  }

  /** An interest's activity is on a middle day exactly when the preferences mention one of
      its keywords. */
  lemma MiddleDayInterests(day: int, destination: string, preferences: string)
    ensures var m := MiddleDay(day, destination, preferences);
      forall i :: 0 <= i < |Interests(destination)| ==>
        (Interests(destination)[i].activity in m <==> Mentions(preferences, Interests(destination)[i].keywords))
  {
    var interests := Interests(destination);
    var rules := InterestRules(interests, preferences);
    var chosen := KeywordActivities(destination, preferences);
    var m := MiddleDay(day, destination, preferences);
    var body := if chosen == [] then Defaults(destination) else chosen;
    assert m == body + [ParityActivity(day)];
    SelectedEmptyIff(rules);
    InterestTextsDistinct(destination, preferences);
    SelectedMembers(rules);
    InterestActivitiesApart(day, destination);
    forall i | 0 <= i < 6
      ensures interests[i].activity in m <==> rules[i].fires
    {
      assert interests[i].activity in m <==> interests[i].activity in body;
    }
  }

  /** A fallback itinerary has one entry per day of the trip, numbered from 1: arrival
      first, departure last when the trip has two days or more, middle days between. */
  lemma ItineraryPlanShape(destination: string, preferences: string, duration: int)
    ensures var plan := ItineraryPlan(destination, preferences, duration);
      && |plan| == (if duration > 0 then duration else 0)
      && (forall i :: 0 <= i < |plan| ==> plan[i].day == i + 1)
      && (duration >= 1 ==> plan[0].activities == Arrival(destination))
      && (duration >= 2 ==> plan[duration - 1].activities == Departure())
      && (forall i :: 1 <= i < duration - 1 ==> plan[i].activities == MiddleDay(i + 1, destination, preferences))
  {
  }

  /** Every entry of a fallback itinerary has between 2 and 7 activities. */
  lemma ItineraryDaySizes(destination: string, preferences: string, duration: int)
    ensures forall i :: 0 <= i < |ItineraryPlan(destination, preferences, duration)| ==>
      2 <= |ItineraryPlan(destination, preferences, duration)[i].activities| <= 7
  {
    forall i | 0 <= i < |ItineraryPlan(destination, preferences, duration)|
      ensures 2 <= |ItineraryPlan(destination, preferences, duration)[i].activities| <= 7
    {
      MiddleDaySize(i + 1, destination, preferences);
    }
  }

  /** Preferences that mention the same keywords give the same middle days, whatever else
      their wording is. */
  lemma SameKeywordsSameDay(day: int, destination: string, p1: string, p2: string)
    requires forall k :: k in Keywords() ==> (Contains(Lower(p1), k) <==> Contains(Lower(p2), k))
    ensures MiddleDay(day, destination, p1) == MiddleDay(day, destination, p2)
  {
    var interests := Interests(destination);
    forall i | 0 <= i < |interests|
      ensures Mentions(p1, interests[i].keywords) == Mentions(p2, interests[i].keywords)
    {
      assert forall k :: k in interests[i].keywords ==> k in Keywords();
    }
    assert InterestRules(interests, p1) == InterestRules(interests, p2);
  }

  /** The suggestion texts differ from each other and from the two defaults. */
  lemma SuggestionTextsDistinct(preferences: string, duration: int)
    ensures var rules := SuggestionRules(preferences, duration);
      && |rules| == 4
      && DistinctTexts(rules)
      && forall k :: 0 <= k < 4 ==> rules[k].text !in DefaultSuggestions()
  {
    SuggestionTextsApart(SuggestionRules(preferences, duration));
  }

  lemma SuggestionTextsApart(rules: seq<Rule>)
    requires |rules| == 4
    requires rules[0].text == "Consider adding more museum visits"
    requires rules[1].text == "Include more local food experiences"
    requires rules[2].text == "Add day trips to nearby attractions"
    requires rules[3].text == "Include more cultural activities"
    ensures DistinctTexts(rules)
    ensures forall k :: 0 <= k < 4 ==> rules[k].text !in DefaultSuggestions()
  {
    var d := DefaultSuggestions();
    assert rules[0].text != rules[1].text && rules[0].text != rules[2].text && rules[0].text != rules[3].text;
    assert rules[1].text != rules[2].text && rules[1].text != rules[3].text && rules[2].text != rules[3].text;
    assert rules[0].text != d[0] && rules[1].text != d[0] && rules[2].text != d[0] && rules[3].text != d[0];
    assert rules[0].text != d[1] && rules[1].text != d[1] && rules[2].text != d[1] && rules[3].text != d[1];
  }

  /** The review suggestions are never empty: those of the rules that fire, in rule order,
      or the two defaults exactly when no rule fires. */
  lemma SuggestionsShape(preferences: string, duration: int)
    ensures var s := Suggestions(preferences, duration); var p := Lower(preferences);
      && 1 <= |s| <= 4
      && (s == DefaultSuggestions() <==>
            !(Contains(p, "museum") && duration > 3) && !Contains(p, "food") && !(duration > 5) && !Contains(p, "culture"))
      && (s != DefaultSuggestions() ==> Subsequence(s, Texts(SuggestionRules(preferences, duration))))
  {
    var p := Lower(preferences);
    var rules := SuggestionRules(preferences, duration);
    var fired := Selected(rules);
    var s := Suggestions(preferences, duration);
    SuggestionTextsDistinct(preferences, duration);
    SelectedEmptyIff(rules);
    SelectedInOrder(rules);
    SelectedMembers(rules);
    assert rules[0].fires == (Contains(p, "museum") && duration > 3);
    assert rules[1].fires == Contains(p, "food");
    assert rules[2].fires == (duration > 5);
    assert rules[3].fires == Contains(p, "culture");
    if fired != [] {
      assert fired[0] in Texts(rules);
      var k :| 0 <= k < 4 && Texts(rules)[k] == fired[0];
      assert rules[k].text !in DefaultSuggestions();
      assert s == fired;
      assert s != DefaultSuggestions();
    } else {
      assert s == DefaultSuggestions();
    }
  }

  /** Each suggestion of a review is there exactly when its condition holds: museums named
      on a trip of more than three days, food named, more than five days, culture named. */
  lemma SuggestionsPresent(preferences: string, duration: int)
    ensures var s := Suggestions(preferences, duration); var p := Lower(preferences);
      && ("Consider adding more museum visits" in s <==> Contains(p, "museum") && duration > 3)
      && ("Include more local food experiences" in s <==> Contains(p, "food"))
      && ("Add day trips to nearby attractions" in s <==> duration > 5)
      && ("Include more cultural activities" in s <==> Contains(p, "culture"))
  {
    var p := Lower(preferences);
    var rules := SuggestionRules(preferences, duration);
    var s := Suggestions(preferences, duration);
    SuggestionTextsDistinct(preferences, duration);
    SelectedEmptyIff(rules);
    SelectedMembers(rules);
    assert rules[0] == Rule(Contains(p, "museum") && duration > 3, "Consider adding more museum visits");
    assert rules[1] == Rule(Contains(p, "food"), "Include more local food experiences");
    assert rules[2] == Rule(duration > 5, "Add day trips to nearby attractions");
    assert rules[3] == Rule(Contains(p, "culture"), "Include more cultural activities");
    forall k | 0 <= k < 4
      ensures rules[k].text in s <==> rules[k].fires
    {
      if Selected(rules) == [] {
        assert s == DefaultSuggestions();
      } else {
        assert s == Selected(rules);
      }
    }
  }

  /** The research attractions: the four fixed entries, then the museum entry when the
      preferences mention museums, then the food entry when they mention food. */
  lemma AttractionsShape(destination: string, preferences: string)
    ensures var a := Attractions(destination, preferences); var p := Lower(preferences);
      && 4 <= |a| <= 6
      && a[..4] == BaseAttractions(destination)
      && a[4..] == (if Contains(p, "museum") then ["Specialized museums in " + destination] else []) +
                   (if Contains(p, "food") then ["Local cuisine hotspots"] else [])
  {
    var rules := AttractionRules(destination, preferences);
    assert Selected(rules) == Pick(rules[0]) + Selected(rules[1..]);
    assert Selected(rules[1..]) == Pick(rules[1]) + Selected(rules[1..][1..]);
    assert rules[1..][1..] == [];
  }

  /** The review text starts "Good ", then the duration as str() writes it, which reads back
      as the duration, then "-day itinerary for " and the destination. */
  lemma ReviewTextNamesTrip(duration: int, destination: string)
    ensures var r := ReviewText(duration, destination); var n := |IntToString(duration)|;
      && |r| == 5 + n + 19 + |destination|
      && r[..5] == "Good "
      && ParseInt(r[5..5 + n]) == duration
      && r[5 + n..5 + n + 19] == "-day itinerary for "
      && r[5 + n + 19..] == destination
  {
    IntToStringRoundTrip(duration);
    var r := ReviewText(duration, destination);
    var n := |IntToString(duration)|;
    assert r[5..5 + n] == IntToString(duration);
  }

  /** With both dates valid, the duration counts the days from start to end inclusive:
      at least one exactly when the end is not before the start, one exactly when they
      are the same day. */
  lemma DurationCountsDays(f: PromptFields)
    requires f.start.Some? && f.end.Some? && ValidDate(f.start.value) && ValidDate(f.end.value)
    ensures TripDuration(f).Ok?
    ensures TripDuration(f).value >= 1 <==> !Before(f.end.value, f.start.value)
    ensures TripDuration(f).value == 1 <==> f.start.value == f.end.value
  {
    DayNumberOrder(f.end.value, f.start.value);
  }

  /** A trip that ends the day after it starts lasts two days. */
  lemma DurationOfOvernightTrip(f: PromptFields)
    requires f.start.Some? && ValidDate(f.start.value) && f.start.value.year < 9999
    requires f.end == Some(NextDay(f.start.value))
    ensures TripDuration(f) == Ok(2)
  {
    NextDayNumber(f.start.value);
  }

  lemma StringsDistinctKeys(xs: seq<string>)
    ensures DistinctKeys(Strings(xs))
  {
  }

  lemma ItineraryDistinctKeys(plan: seq<DayPlan>)
    ensures DistinctKeys(ItineraryJson(plan))
  {
    var v := ItineraryJson(plan);
    forall i | 0 <= i < |plan| ensures DistinctKeys(v.items[i]) {
      StringsDistinctKeys(plan[i].activities);
      var ms := DayJson(plan[i]).members;
      assert ms[0].key != ms[1].key;
    }
  }

  /** Every payload the planner writes is a dict-shaped value with distinct keys. */
  lemma PayloadDistinctKeys(mode: Mode, destination: string, preferences: string, duration: int)
    ensures DistinctKeys(MockPayload(mode, destination, preferences, duration))
  {
    match mode
    case ItineraryMode => ItineraryDistinctKeys(ItineraryPlan(destination, preferences, duration));
    case ReviewMode =>
      StringsDistinctKeys(Suggestions(preferences, duration));
      var ms := ReviewJson(destination, preferences, duration).members;
      assert ms[0].key != ms[1].key;
    case ResearchMode =>
      StringsDistinctKeys(Attractions(destination, preferences));
      var ms := ResearchJson(destination, preferences).members;
      assert ms[0].key != ms[1].key && ms[0].key != ms[2].key && ms[1].key != ms[2].key;
  }

  /** The planner fails only on a date that does not exist, and a json.loads that reads
      back json.dumps recovers from its text exactly the payload of the prompt's mode. */
  lemma MockResponseReadsBack(prompt: string, f: PromptFields, parse: string -> Option<Value>)
    requires LoadsInvertsDumps(parse)
    ensures MockResponse(prompt, f).Ok? <==> TripDuration(f).Ok?
    ensures MockResponse(prompt, f).Ok? ==>
      parse(MockResponse(prompt, f).value) ==
        Some(MockPayload(ModeOf(prompt), f.destination, f.preferences, TripDuration(f).value))
  {
    if TripDuration(f).Ok? {
      PayloadDistinctKeys(ModeOf(prompt), f.destination, f.preferences, TripDuration(f).value);
    }
  }
}
