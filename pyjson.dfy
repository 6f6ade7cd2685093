/**
 * The values that `response.json()` hands to the bot, seen as Python objects,
 * and the few built-in operations the bot applies to them: truthiness (`x or y`),
 * subscripting and `in` on a dict, `in` on a list or a string, and `str()`.
 * `Contains`, `Str`, `Repr`, `Join` and `Decimal` are plain definitions of those
 * Python built-ins; they state nothing about the bot and carry no contract of their own.
 */
module PyJson {
  import opened Results

  /**
   * A decoded JSON document. A JSON object decodes to a Python dict, whose items keep
   * the order of the text; `fields` lists those items in that order, with distinct keys.
   */
  datatype Json =
    | JNull                              // None
    | JBool(b: bool)                     // True, False
    | JInt(i: int)                       // int
    | JStr(s: string)                    // str
    | JList(items: seq<Json>)            // list
    | JObj(fields: seq<(string, Json)>)  // dict

  /** Python's `bool(v)`: None, False, 0 and empty containers are false. */
  function Truthy(v: Json): (t: bool)
    ensures !t <==> v in {JNull, JBool(false), JInt(0), JStr(""), JList([]), JObj([])}
  {
    match v
    case JNull => false
    case JBool(b) => b
    case JInt(i) => i != 0
    case JStr(s) => s != ""
    case JList(items) => items != []
    case JObj(fields) => fields != []
  }

  /**
   * `d.get(key)` on a dict with items `fields`: the value bound to `key`, or None when
   * `key in d` is false (then `d[key]` raises KeyError).
   */
  function Lookup(fields: seq<(string, Json)>, key: string): (r: Option<Json>)
    ensures r.None? <==> forall k :: 0 <= k < |fields| ==> fields[k].0 != key
    ensures r.Some? ==> exists k :: 0 <= k < |fields| && fields[k] == (key, r.value)
  {
    if fields == [] then None
    else if fields[0].0 == key then Some(fields[0].1)
    else
      var r := Lookup(fields[1..], key);
      assert forall k :: 1 <= k < |fields| ==> fields[k] == fields[1..][k - 1];
      r
  }

  /** Python's `t in s` on two strings: `t` occurs in `s` as a substring. */
  predicate Contains(s: string, t: string) {
    |t| <= |s| && (s[..|t|] == t || Contains(s[1..], t))
  }

  /** Python's `str(v)`: a string is itself, anything else is its `repr`. */
  function Str(v: Json): string {
    if v.JStr? then v.s else Repr(v)
  }

  /** Python's `repr(v)`. Strings are put in single quotes without escaping. */
  function Repr(v: Json): string {
    match v
    case JNull => "None"
    case JBool(b) => if b then "True" else "False"
    case JInt(i) => Decimal(i)
    case JStr(s) => "'" + s + "'"
    case JList(items) =>
      "[" + Join(seq(|items|, k requires 0 <= k < |items| => Repr(items[k])), ", ") + "]"
    case JObj(fields) =>
      "{" + Join(seq(|fields|, k requires 0 <= k < |fields| =>
                       "'" + fields[k].0 + "': " + Repr(fields[k].1)), ", ") + "}"
  }

  /** `sep.join(parts)`. */
  function Join(parts: seq<string>, sep: string): string {
    if parts == [] then ""
    else if |parts| == 1 then parts[0]
    else parts[0] + sep + Join(parts[1..], sep)
  }

  /** `str(i)` for an int: its decimal digits, with a leading '-' when negative. */
  function Decimal(i: int): string {
    if i < 0 then "-" + Digits(-i) else Digits(i)
  }

  function Digits(n: nat): string {
    if n < 10 then ["0123456789"[n]] else Digits(n / 10) + ["0123456789"[n % 10]]
  }
}
