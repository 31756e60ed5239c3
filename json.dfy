/** A JSON value as the audit services hold it in `details` and hash it, and the text
    `JSON.stringify` gives for it (no indentation; members in their insertion order). */
module Json {
  import opened Common

  datatype Json =
    | JNull
    | JBool(b: bool)
    | JNumber(n: int)
    | JString(s: string)
    | JArray(items: seq<Json>)
    | JObject(members: seq<(string, Json)>)

  /** The empty object `{}`. */
  const EmptyObject: Json := JObject([])

  /** JavaScript truthiness of a value: `null`, `false`, `0` and `""` are falsy; arrays and objects never are. */
  predicate IsTruthy(j: Json) {
    match j
    case JNull => false
    case JBool(b) => b
    case JNumber(n) => n != 0
    case JString(s) => s != ""
    case _ => true
  }

  /** A text in which no character is a control character (below U+0020), so in particular no line break. */
  ghost predicate Printable(s: string) {
    forall k :: 0 <= k < |s| ==> s[k] >= ' '
  }

  function HexDigit(d: nat): (c: char)
    requires d < 16
    ensures c >= ' '
  {
    "0123456789abcdef"[d]
  }

  /** How `JSON.stringify` writes one character inside a string literal. */
  function EscapeChar(c: char): (r: string)
    ensures Printable(r)
    ensures c >= ' ' && c != '"' && c != '\\' ==> r == [c]
  {
    if c == '"' then "\\\""
    else if c == '\\' then "\\\\"
    else if c == '\U{8}' then "\\b"
    else if c == '\t' then "\\t"
    else if c == '\n' then "\\n"
    else if c == '\U{C}' then "\\f"
    else if c == '\r' then "\\r"
    else if c < ' ' then
      var code := c as int;
      "\\u00" + [HexDigit(code / 16), HexDigit(code % 16)]
    else [c]
  }

  /** A string literal: the characters escaped, between double quotes. */
  function QuoteString(s: string): (r: string)
    ensures Printable(r)
  {
    "\"" + EscapeString(s) + "\""
  }

  function EscapeString(s: string): (r: string)
    ensures Printable(r)
  {
    if s == "" then "" else EscapeChar(s[0]) + EscapeString(s[1..])
  }

  /** `JSON.stringify(j)`; the text never holds a control character, because every one is escaped. */
  function Stringify(j: Json): (r: string)
    ensures Printable(r)
    decreases j, 1
  {
    match j
    case JNull => "null"
    case JBool(b) => if b then "true" else "false"
    case JNumber(n) => IntToDecimal(n)
    case JString(s) => QuoteString(s)
    case JArray(items) => "[" + StringifyItems(j, items) + "]"
    case JObject(members) => "{" + StringifyMembers(j, members) + "}"
  }

  function StringifyItems(ghost parent: Json, items: seq<Json>): (r: string)
    requires forall i :: 0 <= i < |items| ==> items[i] < parent
    ensures Printable(r)
    decreases parent, 0, |items|
  {
    if items == [] then ""
    else if |items| == 1 then Stringify(items[0])
    else Stringify(items[0]) + "," + StringifyItems(parent, items[1..])
  }

  function StringifyMembers(ghost parent: Json, members: seq<(string, Json)>): (r: string)
    requires forall i :: 0 <= i < |members| ==> members[i].1 < parent
    ensures Printable(r)
    decreases parent, 0, |members|
  {
    if members == [] then ""
    else
      var member := QuoteString(members[0].0) + ":" + Stringify(members[0].1);
      if |members| == 1 then member else member + "," + StringifyMembers(parent, members[1..])
  }
}
