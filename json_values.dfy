/**
 * Parsed JSON values as JavaScript code sees them after `JSON.parse`, with
 * the few JavaScript operations the contact flow applies to them: property
 * access, truthiness, conversion to a string and `JSON.stringify`.
 * Numbers are integers here.
 */
module JsonValues {
  import opened Wrappers
  import opened Text

  datatype Json =
    | JNull
    | JBool(b: bool)
    | JNum(n: int)
    | JStr(s: string)
    | JArr(items: seq<Json>)
    | JObj(members: seq<Member>)

  /** One property of an object, in the order the object lists them. */
  datatype Member = Member(key: string, value: Json)

  /** The value stored under key `k` (the first such property), or None when there is none. */
  function Lookup(ms: seq<Member>, k: string): Option<Json> {
    if ms == [] then None
    else if ms[0].key == k then Some(ms[0].value)
    else Lookup(ms[1..], k)
  }

  /** Lookup finds nothing exactly when no property carries the key. */
  lemma {:induction false} LookupNone(ms: seq<Member>, k: string)
    ensures Lookup(ms, k).None? <==> forall i | 0 <= i < |ms| :: ms[i].key != k
  {
    if ms != [] {
      LookupNone(ms[1..], k);
      assert forall i | 1 <= i < |ms| :: ms[i] == ms[1..][i - 1];
    }
  }

  /** The object's properties without those named `k`, in their original order. */
  function RemoveKey(ms: seq<Member>, k: string): (r: seq<Member>)
    ensures forall i | 0 <= i < |r| :: r[i].key != k
    ensures forall j :: j != k ==> Lookup(r, j) == Lookup(ms, j)
  {
    if ms == [] then []
    else if ms[0].key == k then RemoveKey(ms[1..], k)
    else [ms[0]] + RemoveKey(ms[1..], k)
  }

  /** Property access `v.k` on a value that is not null: only objects have named properties. */
  function Field(v: Json, k: string): Option<Json> {
    if v.JObj? then Lookup(v.members, k) else None
  }

  /** JavaScript truthiness of a JSON value. */
  predicate Truthy(v: Json) {
    match v
    case JNull => false
    case JBool(b) => b
    case JNum(n) => n != 0
    case JStr(s) => s != []
    case JArr(_) => true
    case JObj(_) => true
  }

  /** `String(v)`: what `new Error(v)` keeps as its message. */
  function ToJsString(v: Json): string {
    match v
    case JNull => "null"
    case JBool(b) => if b then "true" else "false"
    case JNum(n) => IntToString(n)
    case JStr(s) => s
    case JArr(items) => JoinElements(items)
    case JObj(_) => "[object Object]"
  }

  /** `Array.prototype.join(",")`, where null elements contribute nothing. */
  function JoinElements(items: seq<Json>): string
    decreases items
  {
    if items == [] then ""
    else
      (if items[0].JNull? then "" else ToJsString(items[0]))
      + (if |items| == 1 then "" else "," + JoinElements(items[1..]))
  }

  const HexDigits: string := "0123456789abcdef"

  /** How `JSON.stringify` writes one character inside a string literal. */
  function EscapeChar(c: char): (r: string)
    ensures |r| > 0 && '\n' !in r
  {
    if c == '"' then "\\\""
    else if c == '\\' then "\\\\"
    else if c == '\U{8}' then "\\b"
    else if c == '\t' then "\\t"
    else if c == '\n' then "\\n"
    else if c == '\U{C}' then "\\f"
    else if c == '\r' then "\\r"
    else if c < ' ' then "\\u00" + [HexDigits[c as int / 16], HexDigits[c as int % 16]]
    else [c]
  }

  function EscapeString(s: string): (r: string)
    ensures '\n' !in r
  {
    if s == [] then [] else EscapeChar(s[0]) + EscapeString(s[1..])
  }

  function Quote(s: string): (r: string)
    ensures '\n' !in r
  {
    "\"" + EscapeString(s) + "\""
  }

  /**
   * `JSON.stringify` without indentation. Every line break inside a string is
   * escaped, so the text of any value is a single line.
   */
  function Stringify(v: Json): (r: string)
    ensures '\n' !in r
    decreases v
  {
    match v
    case JNull => "null"
    case JBool(b) => if b then "true" else "false"
    case JNum(n) => IntToString(n)
    case JStr(s) => Quote(s)
    case JArr(items) => "[" + StringifyItems(items) + "]"
    case JObj(ms) => "{" + StringifyMembers(ms) + "}"
  }

  function StringifyItems(items: seq<Json>): (r: string)
    ensures '\n' !in r
    decreases items
  {
    if items == [] then ""
    else Stringify(items[0]) + (if |items| == 1 then "" else "," + StringifyItems(items[1..]))
  }

  function StringifyMembers(ms: seq<Member>): (r: string)
    ensures '\n' !in r
    decreases ms
  {
    if ms == [] then ""
    else
      Quote(ms[0].key) + ":" + Stringify(ms[0].value)
      + (if |ms| == 1 then "" else "," + StringifyMembers(ms[1..]))
  }
}
