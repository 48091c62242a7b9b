/** The trip-planning workflow: the state threaded through it, the prompts of its three
    stages, the stages themselves and their fixed order researcher, generator, critique. */
module Pipeline {
  import opened Results
  import opened Text
  import opened Json
  import opened Fallback
  import opened Gateway
  import opened Extraction

  /** The workflow state: the request's fields and one field owned by each stage. */
  datatype TripState = TripState(
    destination: string,
    startDate: string,
    endDate: string,
    preferences: string,
    research: Value,
    itinerary: Value,
    review: Value)

  /** The collaborators the stages call and this model does not implement: json.loads,
      str() of a parsed value, and the searches that read a prompt's fields. */
  datatype Services = Services(
    parse: string -> Option<Value>,
    show: Value -> string,
    scan: string -> PromptFields)

  /** What the endpoint answered to each of the three calls. */
  datatype Replies = Replies(researcher: Reply, generator: Reply, critique: Reply)

  // The fixed wording of the prompts.
  const ResearchOpening := "Research attractions and weather for "
  const GeneratorOpening := "Plan a detailed itinerary for a trip to "
  const GeneratorRequest := "Return a JSON list of days, each with a list of activities."
  const CritiqueOpening := "Review this itinerary for "
  const CritiqueRequest := "Suggest improvements. Return a JSON object with 'review' and 'suggestions'."

  /** The opening of the researcher's prompt holds neither word the mode test looks for and
      ends in a space, so the prompt holds such a word exactly when the destination does. */
  lemma ResearchOpeningIsNeutral(destination: string)
    ensures Contains(Lower(ResearchOpening + destination), "itinerary") <==> Contains(Lower(destination), "itinerary")
    ensures Contains(Lower(ResearchOpening + destination), "review") <==> Contains(Lower(destination), "review")
  {
    var head := Lower(ResearchOpening);
    LowerConcat(ResearchOpening, destination);
    assert forall j :: 0 <= j < |head| ==> head[j] != 'y' && head[j] != 'v';
    MissingCharNotContained(head, "itinerary", 8);
    MissingCharNotContained(head, "review", 2);
    assert head[|head| - 1] == ' ';
    ContainsAcrossBreak(head, Lower(destination), "itinerary");
    ContainsAcrossBreak(head, Lower(destination), "review");
  }

  /** The generator's opening asks for an itinerary, whatever follows it. */
  lemma GeneratorOpeningAsksForItinerary(rest: string)
    ensures Contains(Lower(GeneratorOpening + rest), "itinerary")
  {
    LowerConcat(GeneratorOpening, rest);
    assert forall k :: 16 <= k < 25 ==> Lower(GeneratorOpening)[k] == "itinerary"[k - 16];
    assert OccursAt(Lower(GeneratorOpening), "itinerary", 16);
    ContainsInParts(Lower(GeneratorOpening), Lower(rest), "itinerary");
  }

  /** The critique's opening names both a review and an itinerary, whatever follows it. */
  lemma CritiqueOpeningNamesBoth(rest: string)
    ensures Contains(Lower(CritiqueOpening + rest), "itinerary")
    ensures Contains(Lower(CritiqueOpening + rest), "review")
  {
    LowerConcat(CritiqueOpening, rest);
    assert OccursAt(Lower(CritiqueOpening), "itinerary", 12);
    assert OccursAt(Lower(CritiqueOpening), "review", 0);
    ContainsInParts(Lower(CritiqueOpening), Lower(rest), "itinerary");
    ContainsInParts(Lower(CritiqueOpening), Lower(rest), "review");
  }

  /** The researcher's prompt: it holds "itinerary" or "review", in any case, only when the
      destination does. */
  function ResearchPrompt(st: TripState): (p: string)
    ensures Contains(Lower(p), "itinerary") <==> Contains(Lower(st.destination), "itinerary")
    ensures Contains(Lower(p), "review") <==> Contains(Lower(st.destination), "review")
  {
    ResearchOpeningIsNeutral(st.destination);
    ResearchOpening + st.destination
  }

  /** The generator's prompt: it always holds "itinerary". */
  function GeneratorPrompt(st: TripState, show: Value -> string): (p: string)
    ensures Contains(Lower(p), "itinerary")
  {
    var rest := st.destination + " from " + st.startDate + " to " + st.endDate + ". " +
                "Preferences: " + st.preferences + ". " +
                "Research: " + show(st.research) + ". " +
                GeneratorRequest;
    GeneratorOpeningAsksForItinerary(rest);
    GeneratorOpening + rest
  }

  /** The critique's prompt: it always holds both "review" and "itinerary". */
  function CritiquePrompt(st: TripState, show: Value -> string): (p: string)
    ensures Contains(Lower(p), "itinerary") && Contains(Lower(p), "review")
  {
    var rest := st.destination + ": " + show(st.itinerary) + ". " +
                "Preferences: " + st.preferences + ". " +
                CritiqueRequest;
    CritiqueOpeningNamesBoth(rest);
    CritiqueOpening + rest
  }

  /** The research used when the researcher's text does not parse. */
  function ResearchDefault(destination: string): (v: Value)
    ensures v.Object? && DistinctKeys(v)
    ensures Get(v.members, "weather") == Some(Str(Weather))
    ensures Get(v.members, "local_tips").None?
    ensures var a := Get(v.members, "attractions");
      && a.Some? && a.value.Array? && |a.value.items| == 3
      && forall i :: 0 <= i < 3 ==> a.value.items[i].Str? && EndsWith(a.value.items[i].s, destination)
  {
    var v := Object([Member("attractions", Strings(["Famous museum in " + destination,
                                                    "Popular park in " + destination,
                                                    "Local food market in " + destination])),
                     Member("weather", Str(Weather))]);
    assert v.members[..1] == [v.members[0]] && [v.members[0]][..0] == [];
    assert Get(v.members[..1], "local_tips") == None;
    assert DistinctKeys(v.members[0].value) && DistinctKeys(v.members[1].value);
    v
  }

  /** researcher_node: the whole text parsed, or the default research. */
  function Researcher(st: TripState, reply: Reply, sv: Services): (r: Result<TripState>)
    ensures r.Ok? ==> r.value == st.(research := r.value.research)
    ensures var c := CallApi(ResearchPrompt(st), reply, sv.scan, sv.show);
      && (r.Err? <==> c.Err?)
      && (c.Err? ==> r.error == c.error)
      && (c.Ok? ==>
            r.value.research == match sv.parse(c.value) case Some(v) => v case None => ResearchDefault(st.destination))
  {
    var text :- CallApi(ResearchPrompt(st), reply, sv.scan, sv.show);
    var research := match sv.parse(text) case Some(v) => v case None => ResearchDefault(st.destination);
    Ok(st.(research := research))
  }

  /** generator_node: the bracket span parsed, or the empty list. */
  function Generator(st: TripState, reply: Reply, sv: Services): (r: Result<TripState>)
    ensures r.Ok? ==> r.value == st.(itinerary := r.value.itinerary)
    ensures var c := CallApi(GeneratorPrompt(st, sv.show), reply, sv.scan, sv.show);
      && (r.Err? <==> c.Err?)
      && (c.Err? ==> r.error == c.error)
      && (c.Ok? ==> r.value.itinerary == Extract(c.value, '[', ']', sv.parse, Array([])))
  {
    var text :- CallApi(GeneratorPrompt(st, sv.show), reply, sv.scan, sv.show);
    Ok(st.(itinerary := Extract(text, '[', ']', sv.parse, Array([]))))
  }

  /** critique_node: the brace span parsed, or the empty dict. */
  function Critique(st: TripState, reply: Reply, sv: Services): (r: Result<TripState>)
    ensures r.Ok? ==> r.value == st.(review := r.value.review)
    ensures var c := CallApi(CritiquePrompt(st, sv.show), reply, sv.scan, sv.show);
      && (r.Err? <==> c.Err?)
      && (c.Err? ==> r.error == c.error)
      && (c.Ok? ==> r.value.review == Extract(c.value, '{', '}', sv.parse, Object([])))
  {
    var text :- CallApi(CritiquePrompt(st, sv.show), reply, sv.scan, sv.show);
    Ok(st.(review := Extract(text, '{', '}', sv.parse, Object([]))))
  }

  /** The compiled graph: researcher, then generator, then critique; an exception in any
      stage ends the run. */
  function Run(st: TripState, replies: Replies, sv: Services): (r: Result<TripState>)
    ensures Researcher(st, replies.researcher, sv).Err? ==>
      r == Err(Researcher(st, replies.researcher, sv).error)
    ensures Researcher(st, replies.researcher, sv).Ok? ==>
      (var a := Researcher(st, replies.researcher, sv).value;
       && (Generator(a, replies.generator, sv).Err? ==> r == Err(Generator(a, replies.generator, sv).error))
       && (Generator(a, replies.generator, sv).Ok? ==>
             (var b := Generator(a, replies.generator, sv).value;
              && (Critique(b, replies.critique, sv).Err? ==> r == Err(Critique(b, replies.critique, sv).error))
              && (r.Ok? <==> Critique(b, replies.critique, sv).Ok?))))
    ensures r.Ok? ==> Researcher(st, replies.researcher, sv).Ok?
    ensures r.Ok? ==>
      (var a := Researcher(st, replies.researcher, sv).value;
       Generator(a, replies.generator, sv).Ok? &&
       (var b := Generator(a, replies.generator, sv).value;
        Critique(b, replies.critique, sv) == r &&
        r.value == st.(research := a.research, itinerary := b.itinerary, review := r.value.review)))
  {
    var a :- Researcher(st, replies.researcher, sv);
    var b :- Generator(a, replies.generator, sv);
    Critique(b, replies.critique, sv)
  }
}
