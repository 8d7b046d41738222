/**
 * JSON values as the worker handles them, JavaScript truthiness of such a value,
 * and `JSON.stringify`, which renders every HTTP body and every tool text.
 */
module Json {
  import opened Wrappers

  /**
   * A JSON value. `members` lists an object's properties in JavaScript's own
   * enumeration order, which `JSON.stringify` follows; that order and distinct
   * keys are taken as given, not enforced.
   */
  datatype Json =
    | JNull
    | JBool(b: bool)
    | JNum(n: int)
    | JStr(s: string)
    | JArr(items: seq<Json>)
    | JObj(members: seq<(string, Json)>)

  /** JavaScript truthiness (`if (v)`) of a value that may be `undefined` (`None`). */
  predicate Truthy(v: Option<Json>) {
    match v
    case None => false
    case Some(JNull) => false
    case Some(JBool(b)) => b
    case Some(JNum(n)) => n != 0
    case Some(JStr(s)) => s != ""
    case Some(_) => true
  }

  /** The object `{ error: message }` that every JSON error response carries. */
  function ErrorObject(message: string): Json {
    JObj([("error", JStr(message))])
  }

  predicate StartsWith(s: string, prefix: string) {
    |prefix| <= |s| && s[..|prefix|] == prefix
  }

  /** No JSON text starts with a prefix whose first character cannot begin a JSON value. */
  lemma StringifyAvoidsPrefix(j: Json, prefix: string)
    requires |prefix| > 0 && !CanStartValue(prefix[0])
    ensures !StartsWith(Stringify(j), prefix)
  {
    var r := Stringify(j);
    if |prefix| <= |r| {
      assert r[..|prefix|][0] == r[0];
    }
  }

  /** The characters that can begin the text of a JSON value. */
  predicate CanStartValue(c: char) {
    c == 'n' || c == 't' || c == 'f' || c == '-' || IsDigit(c) || c == '"' || c == '[' || c == '{'
  }

  predicate IsDigit(c: char) {
    '0' <= c <= '9'
  }

  /** `JSON.stringify(j)`: never empty, and its first character names the kind of value. */
  function Stringify(j: Json): (r: string)
    ensures |r| > 0 && CanStartValue(r[0])
    ensures j.JObj? ==> r[0] == '{' && r[|r| - 1] == '}'
    ensures j.JStr? ==> r[0] == '"'
    decreases j
  {
    match j
    case JNull => "null"
    case JBool(b) => if b then "true" else "false"
    case JNum(n) => NumberToString(n)
    case JStr(s) => Quote(s)
    case JArr(items) => "[" + StringifyItems(items, j) + "]"
    case JObj(members) => "{" + StringifyMembers(members, j) + "}"
  }

  /** The elements of an array, separated by commas. */
  function StringifyItems(items: seq<Json>, ghost parent: Json): string
    requires forall k :: 0 <= k < |items| ==> items[k] < parent
    decreases parent, |items|
  {
    if |items| == 0 then ""
    else if |items| == 1 then Stringify(items[0])
    else Stringify(items[0]) + "," + StringifyItems(items[1..], parent)
  }

  /** The `"key":value` pairs of an object, separated by commas. */
  function StringifyMembers(members: seq<(string, Json)>, ghost parent: Json): string
    requires forall k :: 0 <= k < |members| ==> members[k].1 < parent
    decreases parent, |members|
  {
    if |members| == 0 then ""
    else
      var member := Quote(members[0].0) + ":" + Stringify(members[0].1);
      if |members| == 1 then member
      else member + "," + StringifyMembers(members[1..], parent)
  }

  /** Decimal rendering of an integer, with a leading `-` when negative. */
  function NumberToString(n: int): (r: string)
    ensures |r| > 0 && (r[0] == '-' || IsDigit(r[0]))
  {
    if n < 0 then "-" + Digits(-n) else Digits(n)
  }

  function Digits(n: nat): (r: string)
    ensures |r| > 0 && IsDigit(r[0])
  {
    if n < 10 then [DigitChar(n)] else Digits(n / 10) + [DigitChar(n % 10)]
  }

  function DigitChar(d: nat): (c: char)
    requires d < 10
    ensures IsDigit(c)
  {
    ('0' as int + d) as char
  }

  /** A JSON string literal: the escaped characters between double quotes. */
  function Quote(s: string): (r: string)
    ensures |r| >= 2 && r[0] == '"' && r[|r| - 1] == '"'
  {
    "\"" + Escape(s) + "\""
  }

  /** Whether `JSON.stringify` writes `c` as an escape sequence rather than as itself. */
  predicate NeedsEscape(c: char) {
    c == '"' || c == '\\' || (c as int) < 0x20
  }

  function Escape(s: string): string {
    if s == [] then [] else EscapeChar(s[0]) + Escape(s[1..])
  }

  /** One character as `JSON.stringify` writes it inside a string literal. */
  function EscapeChar(c: char): (r: string)
    ensures !NeedsEscape(c) <==> r == [c]
    ensures NeedsEscape(c) ==> |r| >= 2 && r[0] == '\\'
  {
    var code := c as int;
    if c == '"' then "\\\""
    else if c == '\\' then "\\\\"
    else if code == 0x08 then "\\b"
    else if code == 0x09 then "\\t"
    else if code == 0x0A then "\\n"
    else if code == 0x0C then "\\f"
    else if code == 0x0D then "\\r"
    else if code < 0x20 then "\\u00" + [HexDigit(code / 16), HexDigit(code % 16)]
    else [c]
  }

  function HexDigit(d: int): char
    requires 0 <= d < 16
  {
    "0123456789abcdef"[d]
  }

  /** A string none of whose characters needs an escape. */
  predicate Plain(s: string) {
    forall i :: 0 <= i < |s| ==> !NeedsEscape(s[i])
  }

  /** A string without quotes, backslashes or control characters is written as it is. */
  lemma {:induction false} EscapePlain(s: string)
    requires Plain(s)
    ensures Escape(s) == s
  {
    if s != [] {
      assert !NeedsEscape(s[0]);
      assert Plain(s[1..]) by {
        forall i | 0 <= i < |s[1..]| ensures !NeedsEscape(s[1..][i]) {
          assert s[1..][i] == s[i + 1];
        }
      }
      EscapePlain(s[1..]);
      assert s == [s[0]] + s[1..];
    }
  }

  /** Escaping never shrinks a string, and a plain string is its own escape and nothing else. */
  lemma {:induction false} EscapeLength(s: string)
    ensures |Escape(s)| >= |s|
    ensures |Escape(s)| == |s| <==> Plain(s)
  {
    if s != [] {
      EscapeLength(s[1..]);
      if Plain(s) {
        assert !NeedsEscape(s[0]);
        assert Plain(s[1..]) by {
          forall i | 0 <= i < |s[1..]| ensures !NeedsEscape(s[1..][i]) {
            assert s[1..][i] == s[i + 1];
          }
        }
      } else if !NeedsEscape(s[0]) {
        assert !Plain(s[1..]) by {
          var i :| 0 <= i < |s| && NeedsEscape(s[i]);
          assert s[1..][i - 1] == s[i];
        }
      }
    }
  }

  /** An object with a single member is written `{"key":value}`. */
  lemma SingleMemberText(key: string, value: Json)
    ensures Stringify(JObj([(key, value)])) == "{" + Quote(key) + ":" + Stringify(value) + "}"
  {
    var j := JObj([(key, value)]);
    assert StringifyMembers(j.members, j) == Quote(key) + ":" + Stringify(value);
  }

  lemma QuoteErrorKey()
    ensures Quote("error") == "\"error\""
  {
    QuotePlain("error");
  }

  /** `JSON.stringify({ error: message })` for a message that needs no escapes. */
  lemma ErrorObjectText(message: string)
    requires Plain(message)
    ensures Stringify(ErrorObject(message)) == "{\"error\":\"" + message + "\"}"
  {
    SingleMemberText("error", JStr(message));
    QuoteErrorKey();
    QuotePlain(message);
  }

  /** A plain string is quoted as it is. */
  lemma QuotePlain(s: string)
    requires Plain(s)
    ensures Quote(s) == "\"" + s + "\""
  {
    EscapePlain(s);
  }
}
