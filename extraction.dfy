/** Locating a JSON payload inside free text: the greedy searches `\[.*\]` and `\{.*\}`
    (with re.DOTALL) of the generator and critique stages, and the parse that follows. */
module Extraction {
  import opened Results
  import opened Json

  /** The first index at or after `from` that holds `c`. */
  function FirstIndexFrom(s: string, c: char, from: nat): (r: Option<nat>)
    requires from <= |s|
    ensures r.Some? ==> from <= r.value < |s| && s[r.value] == c && forall k :: from <= k < r.value ==> s[k] != c
    ensures r.None? ==> forall k :: from <= k < |s| ==> s[k] != c
    decreases |s| - from
  {
    if from == |s| then None
    else if s[from] == c then Some(from)
    else FirstIndexFrom(s, c, from + 1)
  }

  /** The last index before `upto` that holds `c`. */
  function LastIndexBefore(s: string, c: char, upto: nat): (r: Option<nat>)
    requires upto <= |s|
    ensures r.Some? ==> r.value < upto && s[r.value] == c && forall k :: r.value < k < upto ==> s[k] != c
    ensures r.None? ==> forall k :: 0 <= k < upto ==> s[k] != c
  {
    if upto == 0 then None
    else if s[upto - 1] == c then Some(upto - 1)
    else LastIndexBefore(s, c, upto - 1)
  }

  /** The text a greedy search for `open`, anything, `close` matches: from the first `open`
      to the last `close`, when that `close` comes after that `open`. */
  function Span(text: string, open: char, close: char): (r: Option<string>)
    ensures r.None? <==> forall i, j :: 0 <= i < j < |text| && text[i] == open ==> text[j] != close
    ensures r.Some? ==> exists i, j ::
      && 0 <= i < j < |text|
      && text[i] == open && text[j] == close
      && (forall k :: 0 <= k < i ==> text[k] != open)
      && (forall k :: j < k < |text| ==> text[k] != close)
      && r.value == text[i..j + 1]
  {
    match (FirstIndexFrom(text, open, 0), LastIndexBefore(text, close, |text|))
    case (Some(i), Some(j)) => if i < j then Some(text[i..j + 1]) else None
    case _ => None
  }

  /** The parsed span, or `empty` when there is no span or it does not parse. */
  function Extract(text: string, open: char, close: char, parse: string -> Option<Value>, empty: Value): (r: Value)
    ensures r == empty || (Span(text, open, close).Some? && parse(Span(text, open, close).value) == Some(r))
    ensures Span(text, open, close).Some? && parse(Span(text, open, close).value).Some? ==>
      r == parse(Span(text, open, close).value).value
    ensures Span(text, open, close).None? ==> r == empty
  {
    match Span(text, open, close)
    case None => empty
    case Some(t) => (match parse(t) case Some(v) => v case None => empty)
  }

  /** Text without the opening delimiter gives the empty default, whatever the parser. */
  lemma NoDelimiterGivesDefault(text: string, open: char, close: char, parse: string -> Option<Value>, empty: Value)
    requires forall k :: 0 <= k < |text| ==> text[k] != open
    ensures Extract(text, open, close, parse, empty) == empty
  {
  }

  /** The text json.dumps writes for an array is its own span, so a parser that reads back
      json.dumps recovers the array. */
  lemma ArrayTextIsItsOwnSpan(v: Value, parse: string -> Option<Value>, empty: Value)
    requires v.Array?
    ensures Span(Dumps(v), '[', ']') == Some(Dumps(v))
    ensures LoadsInvertsDumps(parse) && DistinctKeys(v) ==> Extract(Dumps(v), '[', ']', parse, empty) == v
  {
    var s := Dumps(v);
    DumpsDelimiters(v);
    assert s[0..|s|] == s;
  }

  /** In the text of a one-element array holding an object, the brace span is the object's
      own text, so a parser that reads back json.dumps recovers the object. */
  lemma SingletonObjectSpan(x: Value, parse: string -> Option<Value>, empty: Value)
    requires x.Object?
    ensures Span(Dumps(Array([x])), '{', '}') == Some(Dumps(x))
    ensures LoadsInvertsDumps(parse) && DistinctKeys(x) ==> Extract(Dumps(Array([x])), '{', '}', parse, empty) == x
  {
    var s := Dumps(Array([x]));
    DumpsSingleton(x);
    DumpsDelimiters(x);
    assert s[0] == '[' && s[1] == '{';
    assert s[|s| - 1] == ']' && s[|s| - 2] == '}';
    assert s[1..|s| - 1] == Dumps(x);
  }

  /** The text of the empty array has no brace, so it yields the empty default. */
  lemma EmptyArrayHasNoObject(parse: string -> Option<Value>, empty: Value)
    ensures Extract(Dumps(Array([])), '{', '}', parse, empty) == empty
  {
    DumpsEmpty();
    var s := Dumps(Array([]));
    assert forall k :: 0 <= k < |s| ==> s[k] != '{';
  }

  /** Between brackets, a text that opens with '{' and closes with '}' is its own brace span. */
  lemma BracedBodySpan(body: string)
    requires |body| >= 2 && body[0] == '{' && body[|body| - 1] == '}'
    ensures Span("[" + body + "]", '{', '}') == Some(body)
  {
    var s := "[" + body + "]";
    assert s[0] == '[' && s[1] == '{';
    assert s[|s| - 1] == ']' && s[|s| - 2] == '}';
    assert FirstIndexFrom(s, '{', 0) == Some(1);
    assert LastIndexBefore(s, '}', |s|) == Some(|s| - 2);
    assert s[1..|s| - 1] == body;
  }

  /** In the text of a non-empty array of objects, the brace span runs from the first
      object's opening brace to the last object's closing brace: the objects' texts joined
      by ", ", which is one object only when the array holds one. */
  lemma ObjectsSpan(items: seq<Value>)
    requires |items| >= 1 && forall i :: 0 <= i < |items| ==> items[i].Object?
    ensures Span(Dumps(Array(items)), '{', '}') ==
      Some(Join(seq(|items|, i requires 0 <= i < |items| => Dumps(items[i])), ", "))
  {
    var parts := seq(|items|, i requires 0 <= i < |items| => Dumps(items[i]));
    forall i | 0 <= i < |items|
      ensures |parts[i]| >= 2 && parts[i][0] == '{' && parts[i][|parts[i]| - 1] == '}'
    {
      DumpsDelimiters(items[i]);
    }
    JoinEnds(parts, ", ");
    var body := Join(parts, ", ");
    assert Dumps(Array(items)) == "[" + body + "]";
    BracedBodySpan(body);
  }
}
