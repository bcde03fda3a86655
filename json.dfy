/** JSON values as the browser script sees them after `JSON.parse`, with the
    JavaScript rules the script relies on: truthiness, property reads that may
    yield `undefined`, the `||` operator and object spread. */
module JsonValues {
  import opened Common

  /** Numbers are integers here: the catalog's prices and ids are whole numbers. */
  datatype Json =
    | JNull
    | JBool(b: bool)
    | JNum(n: int)
    | JStr(s: string)
    | JArr(items: seq<Json>)
    | JObj(fields: map<string, Json>)

  /** JavaScript truthiness: null, false, 0 and "" are falsy; arrays and objects are truthy. */
  predicate Truthy(v: Json) {
    match v
    case JNull => false
    case JBool(b) => b
    case JNum(n) => n != 0
    case JStr(s) => s != ""
    case JArr(_) => true
    case JObj(_) => true
  }

  /** Truthiness of a property read; `None` stands for `undefined`. */
  predicate Present(v: Option<Json>) {
    v.Some? && Truthy(v.value)
  }

  /** `v.key` (or `v?.key`): only objects have the named properties the script reads. */
  function Get(v: Json, key: string): (r: Option<Json>)
    ensures r.Some? <==> v.JObj? && key in v.fields
    ensures r.Some? ==> r.value == v.fields[key]
  {
    if v.JObj? && key in v.fields then Some(v.fields[key]) else None
  }

  /** `a || b`: the left operand when it is truthy, the right one otherwise. */
  function Or(a: Option<Json>, b: Option<Json>): (r: Option<Json>)
    ensures Present(a) ==> r == a
    ensures !Present(a) ==> r == b
  {
    if Present(a) then a else b
  }

  /** The index-keyed own properties `"0"`, `"1"`, ... of an array or string
      from position `from` on. */
  function IndexEntries(items: seq<Json>, from: nat): (m: map<string, Json>)
    requires from <= |items|
    ensures forall k :: k in m ==> |k| > 0 && AllDigits(k)
    decreases |items| - from
  {
    if from == |items| then map[]
    else IndexEntries(items, from + 1)[NatToString(from) := items[from]]
  }

  function Chars(s: string): (r: seq<Json>)
    ensures |r| == |s|
  {
    seq(|s|, i requires 0 <= i < |s| => JStr([s[i]]))
  }

  /** The properties `{...v}` copies: an object's fields, the indexed elements of
      an array or the characters of a string; nothing for null, booleans and numbers. */
  function SpreadEntries(v: Json): (m: map<string, Json>)
    ensures v.JObj? ==> m == v.fields
    ensures !v.JObj? ==> forall k :: k in m ==> |k| > 0 && AllDigits(k)
  {
    match v
    case JObj(fields) => fields
    case JArr(items) => IndexEntries(items, 0)
    case JStr(s) => IndexEntries(Chars(s), 0)
    case _ => map[]
  }

  /** A name that starts with a letter is never an index key of a spread array or string. */
  lemma SpreadKeepsNamedKeys(v: Json, key: string)
    requires |key| > 0 && !IsDigit(key[0])
    ensures key in SpreadEntries(v) <==> v.JObj? && key in v.fields
  {
  }
}
