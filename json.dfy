/** JSON values as Python's json module produces and consumes them, and the text json.dumps
    writes for them with its default settings (separators ", " and ": ", ASCII-only output). */
module Json {
  import opened Results
  import opened Text

  /** Numbers are integers only; floats are not modelled (see "Left out" in the README).
      Objects keep their members in insertion order, as Python dicts do. */
  datatype Value =
    | Null
    | Bool(b: bool)
    | Number(n: int)
    | Str(s: string)
    | Array(items: seq<Value>)
    | Object(members: seq<Member>)

  datatype Member = Member(key: string, value: Value)

  /** A JSON array of strings. */
  function Strings(xs: seq<string>): (v: Value)
    ensures v.Array? && |v.items| == |xs|
    ensures forall i :: 0 <= i < |xs| ==> v.items[i] == Str(xs[i])
  {
    Array(seq(|xs|, i requires 0 <= i < |xs| => Str(xs[i])))
  }

  /** dict.get(key) on a parsed object: json.loads keeps the last of repeated keys. */
  function Get(members: seq<Member>, key: string): Option<Value>
  {
    if members == [] then None
    else if members[|members| - 1].key == key then Some(members[|members| - 1].value)
    else Get(members[..|members| - 1], key)
  }

  /** Every object, at every depth, has pairwise distinct keys: the values that a dict can hold. */
  predicate DistinctKeys(v: Value)
    decreases v
  {
    match v
    case Array(items) => forall i :: 0 <= i < |items| ==> DistinctKeys(items[i])
    case Object(ms) =>
      (forall i, j :: 0 <= i < j < |ms| ==> ms[i].key != ms[j].key) &&
      (forall i :: 0 <= i < |ms| ==> DistinctKeys(ms[i].value))
    case _ => true
  }

  function HexDigit(d: nat): char
    requires d < 16
  {
    if d < 10 then DigitChar(d) else ('a' as int + d - 10) as char
  }

  /** "\\u" followed by four lower-case hexadecimal digits. */
  function UnicodeEscape(n: nat): string
    requires n < 0x1_0000
  {
    "\\u" + [HexDigit(n / 0x1000), HexDigit(n / 0x100 % 16), HexDigit(n / 0x10 % 16), HexDigit(n % 16)]
  }

  /** How json.dumps writes one character of a string with ensure_ascii on: printable ASCII
      as is, the short escapes where JSON has one, the rest as \\uXXXX (a surrogate pair
      beyond the Basic Multilingual Plane). */
  function EscapeChar(c: char): string
  {
    if c == '"' then "\\\""
    else if c == '\\' then "\\\\"
    else if c == '\n' then "\\n"
    else if c == '\r' then "\\r"
    else if c == '\t' then "\\t"
    else if c == '\U{8}' then "\\b"
    else if c == '\U{C}' then "\\f"
    else if ' ' <= c <= '~' then [c]
    else if (c as int) < 0x1_0000 then UnicodeEscape(c as int)
    else
      var n := c as int - 0x1_0000;
      UnicodeEscape(0xD800 + n / 0x400) + UnicodeEscape(0xDC00 + n % 0x400)
  }

  function Escape(s: string): string
  {
    if s == [] then "" else EscapeChar(s[0]) + Escape(s[1..])
  }

  function Quote(s: string): string
  {
    "\"" + Escape(s) + "\""
  }

  function Join(parts: seq<string>, sep: string): string
  {
    if |parts| == 0 then ""
    else if |parts| == 1 then parts[0]
    else parts[0] + sep + Join(parts[1..], sep)
  }

  /** Joining non-empty parts starts with the first part's first character and ends with
      the last part's last character. */
  lemma {:induction false} JoinEnds(parts: seq<string>, sep: string)
    requires |parts| >= 1 && forall i :: 0 <= i < |parts| ==> |parts[i]| > 0
    ensures |Join(parts, sep)| >= |parts[0]|
    ensures Join(parts, sep)[0] == parts[0][0]
    ensures Join(parts, sep)[|Join(parts, sep)| - 1] == parts[|parts| - 1][|parts[|parts| - 1]| - 1]
  {
    if |parts| > 1 {
      JoinEnds(parts[1..], sep);
    }
  }

  /** The text json.dumps(v) produces. */
  function Dumps(v: Value): string
    decreases v
  {
    match v
    case Null => "null"
    case Bool(b) => if b then "true" else "false"
    case Number(n) => IntToString(n)
    case Str(s) => Quote(s)
    case Array(items) =>
      "[" + Join(seq(|items|, i requires 0 <= i < |items| => Dumps(items[i])), ", ") + "]"
    case Object(ms) =>
      "{" + Join(seq(|ms|, i requires 0 <= i < |ms| => Quote(ms[i].key) + ": " + Dumps(ms[i].value)), ", ") + "}"
  }

  /** A json.loads that reads back everything json.dumps writes for a dict-shaped value:
      the one property of RFC 8259 parsing the pipeline's results depend on. */
  ghost predicate LoadsInvertsDumps(parse: string -> Option<Value>)
  {
    forall v :: DistinctKeys(v) ==> parse(Dumps(v)) == Some(v)
  }

  /** The text of an array opens with '[' and closes with ']'; that of an object with '{' and '}'. */
  lemma DumpsDelimiters(v: Value)
    ensures v.Array? ==> |Dumps(v)| >= 2 && Dumps(v)[0] == '[' && Dumps(v)[|Dumps(v)| - 1] == ']'
    ensures v.Object? ==> |Dumps(v)| >= 2 && Dumps(v)[0] == '{' && Dumps(v)[|Dumps(v)| - 1] == '}'
  {
  }

  /** A one-element array is its element's text between brackets. */
  lemma DumpsSingleton(x: Value)
    ensures Dumps(Array([x])) == "[" + Dumps(x) + "]"
  {
    assert seq(1, i requires 0 <= i < 1 => Dumps([x][i])) == [Dumps(x)];
  }

  /** The empty array is the two characters "[]". */
  lemma DumpsEmpty()
    ensures Dumps(Array([])) == "[]"
  {
    var parts: seq<string> := seq(0, i requires 0 <= i < 0 => "");
    assert parts == [];
  }
}
