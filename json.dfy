/** `json.dumps` with its default settings (`ensure_ascii=True`, separators
    `", "` and `": "`) on the flat values and dictionaries this service
    serialises. `Decimal` and `datetime` are not JSON serialisable and raise
    `TypeError`, as they do in Python. */
module Json {
  import opened Base
  import opened Text
  import opened Dicts

  /** True when every character is printable ASCII (space to tilde). */
  predicate PrintableAscii(s: string) {
    forall i :: 0 <= i < |s| ==> 32 <= s[i] as int <= 126
  }

  /** Printable texts put together are printable. */
  lemma PrintableConcat(a: string, b: string)
    requires PrintableAscii(a) && PrintableAscii(b)
    ensures PrintableAscii(a + b)
  {
    forall i | 0 <= i < |a + b|
      ensures 32 <= (a + b)[i] as int <= 126
    {
      if i >= |a| {
        assert (a + b)[i] == b[i - |a|];
      }
    }
  }

  /** The decimal rendering of an integer is printable. */
  lemma PrintableInt(n: int)
    ensures PrintableAscii(IntToString(n))
  {
    var digits := NatToString(if n < 0 then -n else n);
    assert PrintableAscii(digits);
    if n < 0 {
      PrintableConcat("-", digits);
    }
  }

  function HexDigit(d: nat): (c: char)
    requires d < 16
    ensures 32 <= c as int <= 126
  {
    "0123456789abcdef"[d]
  }

  /** Four lower-case hexadecimal digits of `n`. */
  function Hex4(n: nat): (r: string)
    requires n < 0x10000
    ensures |r| == 4 && PrintableAscii(r)
  {
    [HexDigit(n / 0x1000), HexDigit(n / 0x100 % 16), HexDigit(n / 0x10 % 16), HexDigit(n % 16)]
  }

  /** How one character appears inside a JSON string literal. */
  function EscapeChar(c: char): (r: string)
    ensures PrintableAscii(r)
  {
    var n := c as int;
    if c == '"' then "\\\""
    else if c == '\\' then "\\\\"
    else if n == 8 then "\\b"
    else if n == 12 then "\\f"
    else if c == '\n' then "\\n"
    else if c == '\r' then "\\r"
    else if c == '\t' then "\\t"
    else if 32 <= n <= 126 then [c]
    else if n < 0x10000 then "\\u" + Hex4(n)
    else
      var m := n - 0x10000;
      "\\u" + Hex4(0xD800 + m / 0x400) + "\\u" + Hex4(0xDC00 + m % 0x400)
  }

  /** The characters of `s`, each escaped. */
  function EscapeString(s: string): (r: string)
    ensures PrintableAscii(r)
  {
    if s == [] then "" else EscapeChar(s[0]) + EscapeString(s[1..])
  }

  /** A JSON string literal. */
  function Quote(s: string): (r: string)
    ensures PrintableAscii(r)
    ensures |r| >= 2 && r[0] == '"' && r[|r| - 1] == '"'
  {
    "\"" + EscapeString(s) + "\""
  }

  /** `json.dumps(v)` for one value. */
  function DumpsValue(v: Value): (r: Result<string>)
    ensures r.Success? ==> PrintableAscii(r.value)
    ensures r.Failure? <==> v.Dec? || v.DateTime?
  {
    match v
    case Null => Success("null")
    case Bool(b) => Success(if b then "true" else "false")
    case Int(i) => PrintableInt(i); Success(IntToString(i))
    case Str(s) => Success(Quote(s))
    case Dec(_) => Failure(TypeError("Object of type Decimal is not JSON serializable"))
    case DateTime(_) => Failure(TypeError("Object of type datetime is not JSON serializable"))
  }

  /** True when `json.dumps` can render every value of `d`. */
  predicate Serialisable(d: seq<(string, Value)>) {
    forall i :: 0 <= i < |d| ==> !d[i].1.Dec? && !d[i].1.DateTime?
  }

  /** The `"key": value` members of a dictionary, joined by `", "`. */
  function DumpsMembers(d: seq<(string, Value)>): (r: Result<string>)
    ensures r.Success? <==> Serialisable(d)
    ensures r.Success? ==> PrintableAscii(r.value)
  {
    if d == [] then Success("")
    else
      var v :- DumpsValue(d[0].1);
      var rest :- DumpsMembers(d[1..]);
      var member := Quote(d[0].0) + ": " + v;
      var sep := if d[1..] == [] then "" else ", " + rest;
      PrintableConcat(Quote(d[0].0), ": ");
      PrintableConcat(Quote(d[0].0) + ": ", v);
      PrintableConcat(", ", rest);
      PrintableConcat(member, sep);
      Success(member + sep)
  }

  /** `json.dumps(d)` for a dictionary. */
  function DumpsDict(d: Dict): (r: Result<string>)
    ensures r.Success? <==> Serialisable(d)
    ensures r.Success? ==> PrintableAscii(r.value) && |r.value| >= 2 && r.value[0] == '{' && r.value[|r.value| - 1] == '}'
  {
    var members :- DumpsMembers(d);
    Success("{" + members + "}")
  }

  /** The dictionaries of a list, rendered and joined by `", "`. */
  function DumpsItems(ds: seq<Dict>): (r: Result<string>)
    ensures r.Success? <==> forall k :: 0 <= k < |ds| ==> Serialisable(ds[k])
    ensures r.Success? ==> PrintableAscii(r.value)
  {
    if ds == [] then Success("")
    else
      var first :- DumpsDict(ds[0]);
      var rest :- DumpsItems(ds[1..]);
      Success(first + (if ds[1..] == [] then "" else ", " + rest))
  }

  /** `json.dumps(ds)` for a list of dictionaries. */
  function DumpsList(ds: seq<Dict>): (r: Result<string>)
    ensures r.Success? <==> forall k :: 0 <= k < |ds| ==> Serialisable(ds[k])
    ensures r.Success? ==> PrintableAscii(r.value) && |r.value| >= 2 && r.value[0] == '[' && r.value[|r.value| - 1] == ']'
  {
    var items :- DumpsItems(ds);
    Success("[" + items + "]")
  }
}
