/**
 * A parsed JSON document as the catalog loader hands it on, together with
 * the few Python operations the program applies to such values: truthiness,
 * `key in d`, `d.get(key)`, and `str(x)` as used by an f-string.
 */
module Json {

  /** An object keeps its members in document order; numbers are integers. */
  datatype Json =
    | JNull
    | JBool(b: bool)
    | JNumber(n: int)
    | JString(s: string)
    | JArray(items: seq<Json>)
    | JObject(fields: seq<(string, Json)>)

  /** Python truthiness: None, False, 0 and empty strings, lists and dicts are false. */
  predicate Truthy(j: Json) {
    match j
    case JNull => false
    case JBool(b) => b
    case JNumber(n) => n != 0
    case JString(s) => s != ""
    case JArray(items) => items != []
    case JObject(fields) => fields != []
  }

  /** `isinstance(j, list) and len(j) > 0` */
  predicate IsNonEmptyArray(j: Json) {
    j.JArray? && |j.items| > 0
  }

  /** `key in d` for a dict with the given members, scanning from the last member. */
  predicate HasKey(fields: seq<(string, Json)>, key: string)
    decreases |fields|
  {
    |fields| > 0 && (fields[|fields| - 1].0 == key || HasKey(fields[..|fields| - 1], key))
  }

  /** The scan finds `key` exactly when some member is named `key`. */
  lemma {:induction false} HasKeyIff(fields: seq<(string, Json)>, key: string)
    ensures HasKey(fields, key) <==> exists i :: 0 <= i < |fields| && fields[i].0 == key
    decreases |fields|
  {
    if |fields| > 0 {
      var init := fields[..|fields| - 1];
      HasKeyIff(init, key);
      assert forall i :: 0 <= i < |init| ==> init[i] == fields[i];
    }
  }

  /**
   * `d.get(key)`: the value bound to `key`, or None when there is none.
   * When a key is repeated the last binding wins, as it does in the
   * dictionary json.load builds.
   */
  function Get(fields: seq<(string, Json)>, key: string): (r: Json)
    ensures !HasKey(fields, key) ==> r == JNull
    decreases |fields|
  {
    if |fields| == 0 then JNull
    else if fields[|fields| - 1].0 == key then fields[|fields| - 1].1
    else Get(fields[..|fields| - 1], key)
  }

  /** `d.get(key)` is the value of the last member named `key`. */
  lemma {:induction false} GetLast(fields: seq<(string, Json)>, key: string, i: int)
    requires 0 <= i < |fields| && fields[i].0 == key
    requires forall j :: i < j < |fields| ==> fields[j].0 != key
    ensures HasKey(fields, key)
    ensures Get(fields, key) == fields[i].1
    decreases |fields|
  {
    if i < |fields| - 1 {
      GetLast(fields[..|fields| - 1], key, i);
    }
  }

  /** Python's `str(j)`, which is what `f"{j}"` inserts. */
  function Str(j: Json): string {
    match j
    case JString(s) => s
    case _ => Repr(j)
  }

  /** Python's `repr(j)` for the values json.load produces. */
  function Repr(j: Json): string {
    match j
    case JNull => "None"
    case JBool(b) => if b then "True" else "False"
    case JNumber(n) => if n < 0 then "-" + Decimal(-n) else Decimal(n)
    case JString(s) => Quote(s)
    case JArray(items) =>
      "[" + JoinComma(seq(|items|, i requires 0 <= i < |items| => Repr(items[i]))) + "]"
    case JObject(fields) =>
      "{" + JoinComma(seq(|fields|, i requires 0 <= i < |fields| =>
                            Quote(fields[i].0) + ": " + Repr(fields[i].1))) + "}"
  }

  /** `", ".join(parts)` */
  function JoinComma(parts: seq<string>): string {
    if |parts| == 0 then ""
    else if |parts| == 1 then parts[0]
    else parts[0] + ", " + JoinComma(parts[1..])
  }

  /** Decimal digits of a natural number, without leading zeros. */
  function Decimal(n: nat): string {
    if n < 10 then [DigitChar(n)] else Decimal(n / 10) + [DigitChar(n % 10)]
  }

  function DigitChar(d: nat): char
    requires d < 16
  {
    "0123456789abcdef"[d]
  }

  /**
   * The quoted form of a string in `repr`: single quotes unless the text
   * holds a single quote and no double quote.
   */
  function Quote(s: string): string {
    var q := if '\'' in s && '"' !in s then '"' else '\'';
    [q] + Escape(s, q) + [q]
  }

  function Escape(s: string, q: char): string {
    if s == [] then "" else EscapeChar(s[0], q) + Escape(s[1..], q)
  }

  function EscapeChar(c: char, q: char): string {
    if c == q || c == '\\' then ['\\', c]
    else if c == '\t' then "\\t"
    else if c == '\n' then "\\n"
    else if c == '\r' then "\\r"
    else if c < ' ' || c as int == 127 then "\\x" + [DigitChar(c as int / 16), DigitChar(c as int % 16)]
    else [c]
  }
}
