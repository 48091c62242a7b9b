/** call_huggingface_api: one call to the text-generation endpoint, the quality gate on the
    text it returns, and the fallback planner on every failure. The endpoint itself is a
    parameter: what it answered on this call. */
module Gateway {
  import opened Results
  import opened Text
  import opened Json
  import opened Fallback

  /** The outcome of the POST request. */
  datatype Reply =
    | Unreachable                                // requests.post raised
    | Answered(status: int, body: Option<Value>)  // body is None when response.json() raises

  /** result[0].get('generated_text', '') when it yields a string; None when the entry is
      not a dict or the value is not a string, cases in which the value is rejected by the
      length test or raises when measured or lower-cased (either way the call falls back). */
  function GeneratedText(first: Value): Option<string>
  {
    match first
    case Object(ms) =>
      (match Get(ms, "generated_text")
       case None => Some("")
       case Some(Str(t)) => Some(t)
       case Some(_) => None)
    case _ => None
  }

  /** The quality gate: shorter than 50 characters, or "the" within the first 20 characters
      once lower-cased. */
  predicate IsGeneric(text: string)
  {
    |text| < 50 || Contains(Lower(text)[..20], "the")
  }

  /** The text a stage receives for its prompt. `scan` reads the fields the fallback planner
      needs from the prompt; `show` is str() of the parsed body. Only a usable 200 reply can
      give anything but the fallback answer, and only the fallback can raise. */
  function CallApi(prompt: string, reply: Reply, scan: string -> PromptFields, show: Value -> string): (r: Result<string>)
    ensures r != MockResponse(prompt, scan(prompt)) ==> !Down(reply) && r.Ok?
    ensures r.Err? ==> r == Err(InvalidDate)
  {
    var fallback := MockResponse(prompt, scan(prompt));
    match reply
    case Unreachable => fallback
    case Answered(status, body) =>
      if status != 200 then fallback
      else
        match body
        case None => fallback
        case Some(result) =>
          if result.Array? && |result.items| > 0 then
            match GeneratedText(result.items[0])
            case None => fallback
            case Some(text) => if IsGeneric(text) then fallback else Ok(text)
          else Ok(show(result))
  }

  /** The endpoint could not be used: it was unreachable, answered with a status other than
      200, or sent a body that is not JSON. */
  predicate Down(reply: Reply)
  {
    reply.Unreachable? || reply.status != 200 || reply.body.None?
  }

  /** A failed call always yields the fallback planner's answer for the prompt. */
  lemma DownFallsBack(prompt: string, reply: Reply, scan: string -> PromptFields, show: Value -> string)
    requires Down(reply)
    ensures CallApi(prompt, reply, scan, show) == MockResponse(prompt, scan(prompt))
  {
  }

  /** A generated text that fails the gate is replaced by the fallback answer. */
  lemma GateRejects(prompt: string, reply: Reply, scan: string -> PromptFields, show: Value -> string, text: string)
    requires reply.Answered? && reply.status == 200 && reply.body.Some?
    requires reply.body.value.Array? && |reply.body.value.items| > 0
    requires GeneratedText(reply.body.value.items[0]) == Some(text)
    requires |text| < 50 || Contains(Lower(text)[..20], "the")
    ensures CallApi(prompt, reply, scan, show) == MockResponse(prompt, scan(prompt))
  {
  }

  /** A generated text that passes the gate is returned unchanged. */
  lemma GatePasses(prompt: string, reply: Reply, scan: string -> PromptFields, show: Value -> string, text: string)
    requires reply.Answered? && reply.status == 200 && reply.body.Some?
    requires reply.body.value.Array? && |reply.body.value.items| > 0
    requires GeneratedText(reply.body.value.items[0]) == Some(text)
    requires |text| >= 50 && !Contains(Lower(text)[..20], "the")
    ensures CallApi(prompt, reply, scan, show) == Ok(text)
  {
  }

  /** The call answers with the fallback, with the generated text of the first entry when it
      passes the gate, or with str() of a body that is not a non-empty list; only the
      fallback can raise, and only on a date that does not exist. */
  lemma CallApiOutcomes(prompt: string, reply: Reply, scan: string -> PromptFields, show: Value -> string)
    ensures var r := CallApi(prompt, reply, scan, show);
      || r == MockResponse(prompt, scan(prompt))
      || (reply.Answered? && reply.status == 200 && reply.body.Some? &&
          var result := reply.body.value;
          if result.Array? && |result.items| > 0
          then GeneratedText(result.items[0]) == Some(r.value) && r.Ok? && |r.value| >= 50 &&
               !Contains(Lower(r.value)[..20], "the")
          else r == Ok(show(result)))
    ensures (reply.Answered? && reply.status == 200 && reply.body.Some? &&
             !(reply.body.value.Array? && |reply.body.value.items| > 0)) ==>
      CallApi(prompt, reply, scan, show) == Ok(show(reply.body.value))
    ensures CallApi(prompt, reply, scan, show).Err? ==>
      CallApi(prompt, reply, scan, show) == Err(InvalidDate) && TripDuration(scan(prompt)).Err?
  {
  }

  /** A text that begins with "The", in any case, never passes the gate. */
  lemma LeadingTheIsGeneric(text: string)
    requires |text| >= 3 && Lower(text[..3]) == "the"
    ensures IsGeneric(text)
  {
    if |text| >= 50 {
      assert Lower(text)[..20][0..3] == "the";
      assert OccursAt(Lower(text)[..20], "the", 0);
    }
  }
}
