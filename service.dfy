/** The /plan_trip handler: the initial workflow state built from the request, the run,
    and the loop that renumbers the itinerary's days for the frontend. */
module Service {
  import opened Results
  import opened Json
  import opened Fallback
  import opened Pipeline

  datatype TripRequest = TripRequest(destination: string, startDate: string, endDate: string, preferences: string)

  datatype TripResponse = TripResponse(
    destination: string,
    startDate: string,
    endDate: string,
    preferences: string,
    itinerary: seq<Value>,
    review: Value)

  /** The state the workflow starts from: the request, an empty research dict, an empty
      itinerary list and an empty review dict. */
  function InitialState(req: TripRequest): (st: TripState)
    ensures st.research == Object([]) && st.itinerary == Array([]) && st.review == Object([])
    ensures st.destination == req.destination && st.startDate == req.startDate
    ensures st.endDate == req.endDate && st.preferences == req.preferences
  {
    TripState(req.destination, req.startDate, req.endDate, req.preferences, Object([]), Array([]), Object([]))
  }

  /** What enumerate() walks over: a list's elements, a dict's keys, a string's characters;
      any other value raises TypeError. */
  function Iterated(v: Value): (r: Result<seq<Value>>)
    ensures r.Ok? <==> v.Array? || v.Object? || v.Str?
    ensures r.Err? ==> r.error == NotIterable
    ensures v.Array? ==> r == Ok(v.items)
    ensures v.Object? ==>
      && |r.value| == |v.members|
      && forall i :: 0 <= i < |v.members| ==> r.value[i] == Str(v.members[i].key)
    ensures v.Str? ==>
      && |r.value| == |v.s|
      && forall i :: 0 <= i < |v.s| ==> r.value[i] == Str([v.s[i]])
  {
    match v
    case Array(items) => Ok(items)
    case Object(ms) => Ok(seq(|ms|, i requires 0 <= i < |ms| => Str(ms[i].key)))
    case Str(s) => Ok(seq(|s|, i requires 0 <= i < |s| => Str([s[i]])))
    case _ => Err(NotIterable)
  }

  /** The entry the frontend gets for the n-th day: the position as its number, and the
      day's "activities" when it has them, else the whole day. */
  function DayEntry(n: int, day: Value): (e: Value)
    requires day.Object?
    ensures e.Object? && |e.members| == 2
    ensures Get(e.members, "day") == Some(Number(n))
    ensures Get(day.members, "activities").Some? ==> Get(e.members, "activities") == Get(day.members, "activities")
    ensures Get(day.members, "activities").None? ==> Get(e.members, "activities") == Some(day)
  {
    var activities := match Get(day.members, "activities") case Some(a) => a case None => day;
    Object([Member("day", Number(n)), Member("activities", activities)])
  }

  /** The formatting loop: every day must be a dict (anything else has no get method), and
      the i-th entry renumbers the i-th day as i + 1. */
  method FormatItinerary(days: seq<Value>) returns (r: Result<seq<Value>>)
    ensures r.Ok? <==> forall i :: 0 <= i < |days| ==> days[i].Object?
    ensures r.Err? ==> r.error == NoGetMethod
    ensures r.Ok? ==> |r.value| == |days|
    ensures r.Ok? ==> forall i :: 0 <= i < |days| ==> days[i].Object? && r.value[i] == DayEntry(i + 1, days[i])
  {
    var formatted: seq<Value> := [];
    var i := 0;
    while i < |days|
      invariant 0 <= i <= |days|
      invariant |formatted| == i
      invariant forall k :: 0 <= k < i ==> days[k].Object? && formatted[k] == DayEntry(k + 1, days[k])
    {
      if !days[i].Object? {
        return Err(NoGetMethod);
      }
      formatted := formatted + [DayEntry(i + 1, days[i])];
      i := i + 1;
    }
    return Ok(formatted);
  }

  /** plan_trip: runs the workflow from the request, formats its itinerary and answers with
      the request's fields, the formatted itinerary and the review; an exception raised by a
      stage or by the formatting ends the request. */
  method PlanTrip(req: TripRequest, replies: Replies, sv: Services) returns (r: Result<TripResponse>)
    ensures var run := Run(InitialState(req), replies, sv);
      run.Err? ==> r == Err(run.error)
    ensures var run := Run(InitialState(req), replies, sv);
      run.Ok? && Iterated(run.value.itinerary).Err? ==> r == Err(NotIterable)
    ensures var run := Run(InitialState(req), replies, sv);
      run.Ok? && Iterated(run.value.itinerary).Ok? ==>
        var days := Iterated(run.value.itinerary).value;
        && (r.Ok? <==> forall i :: 0 <= i < |days| ==> days[i].Object?)
        && (r.Err? ==> r.error == NoGetMethod)
        && (r.Ok? ==>
              && r.value.destination == req.destination && r.value.startDate == req.startDate
              && r.value.endDate == req.endDate && r.value.preferences == req.preferences
              && r.value.review == run.value.review
              && |r.value.itinerary| == |days|
              && forall i :: 0 <= i < |days| ==> r.value.itinerary[i] == DayEntry(i + 1, days[i]))
  {
    var run := Run(InitialState(req), replies, sv);
    if run.Err? {
      return Err(run.error);
    }
    var days :- Iterated(run.value.itinerary);
    var formatted :- FormatItinerary(days);
    return Ok(TripResponse(req.destination, req.startDate, req.endDate, req.preferences, formatted, run.value.review));
  }

  /** The formatting leaves an itinerary of the fallback planner as it is: its days are
      dicts already numbered from 1 with an "activities" list. */
  lemma FormatKeepsFallbackItinerary(destination: string, preferences: string, duration: int)
    ensures var v := ItineraryJson(ItineraryPlan(destination, preferences, duration));
      && Iterated(v) == Ok(v.items)
      && forall i :: 0 <= i < |v.items| ==> v.items[i].Object? && DayEntry(i + 1, v.items[i]) == v.items[i]
  {
    var plan := ItineraryPlan(destination, preferences, duration);
    var v := ItineraryJson(plan);
    forall i | 0 <= i < |v.items|
      ensures v.items[i].Object? && DayEntry(i + 1, v.items[i]) == v.items[i]
    {
      var ms := v.items[i].members;
      assert ms[1].key == "activities" && ms[0].key != "activities";
      assert Get(ms, "activities") == Some(Strings(plan[i].activities));
    }
  }
}
