/** Decoded request bodies and cached catalog entries as the server's Python
    handlers see them, with the Python rules the handlers rely on: truthiness,
    `dict.get` with a default, `int(...)`, the exceptions these raise, and the
    JSON replies the handlers build. */
module PyValues {
  import opened Common
  import opened JsonValues
  import opened ResponseDecoding

  /** Python truthiness: `None`, `False`, `0`, `""`, empty lists and empty dicts are falsy. */
  predicate PyTruthy(v: Json) {
    match v
    case JNull => false
    case JBool(b) => b
    case JNum(n) => n != 0
    case JStr(s) => s != ""
    case JArr(items) => items != []
    case JObj(fields) => fields != map[]
  }

  /** `data.get(key, default)`. */
  function GetOr(data: map<string, Json>, key: string, default: Json): (v: Json)
    ensures key in data ==> v == data[key]
    ensures key !in data ==> v == default
  {
    if key in data then data[key] else default
  }

  /** `data.get(key)`: a missing key reads as `None`. */
  function GetOrNone(data: map<string, Json>, key: string): Json {
    GetOr(data, key, JNull)
  }

  function TypeName(v: Json): string {
    match v
    case JNull => "NoneType"
    case JBool(_) => "bool"
    case JNum(_) => "int"
    case JStr(_) => "str"
    case JArr(_) => "list"
    case JObj(_) => "dict"
  }

  /** The exceptions the handler cores can raise, each caught by the handler's
      own `except Exception` and reported as its `str(e)`. */
  datatype Fault =
    | BadJson(message: string)                      // `request.json()` on a malformed body
    | NoAttribute(typeName: string, attribute: string)
    | IntTypeError(typeName: string)                // `int(None)`, `int([])`, ...
    | IntLiteralError(text: string)                 // `int("abc")`
    | KeyMissing(key: string)                       // `p["id"]` without an id
    | NotSubscriptable(typeName: string)            // `p["id"]` on a non-dict entry
    | Unhashable(typeName: string)                  // a list or dict used as a dict key

  /** `str(e)` of a fault. A literal is quoted as given rather than escaped as
      `repr` would. */
  function FaultText(f: Fault): string {
    match f
    case BadJson(m) => m
    case NoAttribute(t, a) => "'" + t + "' object has no attribute '" + a + "'"
    case IntTypeError(t) => "int() argument must be a string, a bytes-like object or a real number, not '" + t + "'"
    case IntLiteralError(s) => "invalid literal for int() with base 10: '" + s + "'"
    case KeyMissing(k) => "'" + k + "'"
    case NotSubscriptable(t) =>
      if t == "list" then "list indices must be integers or slices, not str"
      else if t == "str" then "string indices must be integers, not 'str'"
      else "'" + t + "' object is not subscriptable"
    case Unhashable(t) => "unhashable type: '" + t + "'"
  }

  /** A computation that returns a value or raises. */
  datatype Outcome<T> = Ok(value: T) | Raise(fault: Fault)

  /** The digit part of a Python integer string: digits, with single
      underscores allowed between two digits (`"1_000"`). */
  predicate DigitGroups(s: string) {
    |s| > 0 && IsDigit(s[0]) && IsDigit(s[|s| - 1]) &&
    (forall i :: 0 <= i < |s| ==> IsDigit(s[i]) || s[i] == '_') &&
    (forall i :: 0 <= i < |s| - 1 && s[i] == '_' ==> s[i + 1] != '_')
  }

  /** The digits of `s` with the underscores taken out. */
  function DropUnderscores(s: string): (r: string)
    requires forall i :: 0 <= i < |s| ==> IsDigit(s[i]) || s[i] == '_'
    ensures AllDigits(r) && |r| <= |s|
    ensures AllDigits(s) ==> r == s
  {
    if s == [] then []
    else
      var init := DropUnderscores(s[..|s| - 1]);
      if s[|s| - 1] == '_' then init else init + [s[|s| - 1]]
  }

  /** The value of unsigned digit groups, `None` for any other text. */
  function UnsignedValue(t: string): (r: Option<int>)
    ensures r.Some? <==> DigitGroups(t)
    ensures AllDigits(t) && |t| > 0 ==> r == Some(DigitsValue(t))
  {
    if DigitGroups(t) then Some(DigitsValue(DropUnderscores(t))) else None
  }

  /** Python `int(s)` for text: white space stripped, an optional sign, then
      digit groups. */
  function IntLiteral(s: string): (r: Option<int>)
    ensures AllDigits(Strip(s)) && |Strip(s)| > 0 ==> r == Some(DigitsValue(Strip(s)))
  {
    var t := Strip(s);
    if |t| > 0 && (t[0] == '-' || t[0] == '+') then
      match UnsignedValue(t[1..])
      case Some(n) => Some(if t[0] == '-' then -n else n)
      case None => None
    else UnsignedValue(t)
  }

  /** Text without a sign is read by its digit groups alone. */
  lemma UnsignedLiteral(s: string)
    requires |Strip(s)| > 0 && IsDigit(Strip(s)[0])
    ensures IntLiteral(s) == UnsignedValue(Strip(s))
  {
  }

  lemma {:induction false} DropUnderscoresAppend(x: string, y: string)
    requires forall i :: 0 <= i < |x| ==> IsDigit(x[i]) || x[i] == '_'
    requires forall i :: 0 <= i < |y| ==> IsDigit(y[i]) || y[i] == '_'
    ensures DropUnderscores(x + y) == DropUnderscores(x) + DropUnderscores(y)
    decreases |y|
  {
    if y != [] {
      var y' := y[..|y| - 1];
      assert (x + y)[..|x + y| - 1] == x + y';
      DropUnderscoresAppend(x, y');
    } else {
      assert x + y == x;
    }
  }

  /** Underscores between digits are ignored: `int("1_000") == 1000`. */
  lemma DropSingleUnderscore(a: string, b: string)
    requires AllDigits(a) && AllDigits(b)
    ensures DropUnderscores(a + "_" + b) == a + b
  {
    DropUnderscoresAppend(a + "_", b);
    DropUnderscoresAppend(a, "_");
    assert DropUnderscores("_") == [];
  }

  lemma SingleUnderscoreGroups(a: string, b: string)
    requires |a| > 0 && |b| > 0 && AllDigits(a) && AllDigits(b)
    ensures DigitGroups(a + "_" + b)
  {
    var s := a + "_" + b;
    assert s[0] == a[0] && s[|s| - 1] == b[|b| - 1];
    forall i | 0 <= i < |s| ensures i != |a| ==> IsDigit(s[i]) {
      if i < |a| { assert s[i] == a[i]; }
      else if i > |a| { assert s[i] == b[i - |a| - 1]; }
    }
    forall i | 0 <= i < |s| - 1 && s[i] == '_' ensures s[i + 1] != '_' {
      if i == |a| { assert s[i + 1] == b[0]; }
    }
  }

  lemma UnderscoresIgnored(a: string, b: string)
    requires |a| > 0 && |b| > 0 && AllDigits(a) && AllDigits(b)
    ensures IntLiteral(a + "_" + b) == Some(DigitsValue(a + b))
  {
    var s := a + "_" + b;
    SingleUnderscoreGroups(a, b);
    StripKeeps(s);
    UnsignedLiteral(s);
    DropSingleUnderscore(a, b);
  }

  /** A doubled underscore is refused: `int("1__0")` raises. */
  lemma DoubledUnderscoreRefused(a: string, b: string)
    requires |a| > 0 && |b| > 0 && AllDigits(a) && AllDigits(b)
    ensures IntLiteral(a + "__" + b).None?
  {
    var s := a + "__" + b;
    assert s[0] == a[0] && s[|s| - 1] == b[|b| - 1];
    assert IsDigit(s[0]) && IsDigit(s[|s| - 1]);
    StripKeeps(s);
    assert s[|a|] == '_' && s[|a| + 1] == '_';
    assert !DigitGroups(s);
    UnsignedLiteral(s);
  }

  /** Python `int(v)` for a decoded JSON value: booleans count as 0 and 1; text
      is read by `IntLiteral`. */
  function PyInt(v: Json): (r: Outcome<int>)
    ensures v.JNum? ==> r == Ok(v.n)
    ensures v.JNull? || v.JArr? || v.JObj? ==> r.Raise?
    ensures v.JStr? ==> (r.Ok? <==> IntLiteral(v.s).Some?)
    ensures v.JStr? && r.Ok? ==> IntLiteral(v.s) == Some(r.value)
  {
    match v
    case JNull => Raise(IntTypeError("NoneType"))
    case JBool(b) => Ok(if b then 1 else 0)
    case JNum(n) => Ok(n)
    case JStr(s) =>
      (match IntLiteral(s)
       case Some(n) => Ok(n)
       case None => Raise(IntLiteralError(s)))
    case JArr(_) => Raise(IntTypeError("list"))
    case JObj(_) => Raise(IntTypeError("dict"))
  }

  /** `int()` reads back the decimal text of every integer. */
  lemma IntLiteralOfDecimalText(n: int)
    ensures IntLiteral(IntToString(n)) == Some(n)
  {
    var s := IntToString(n);
    assert !IsSpace(s[|s| - 1]) by {
      if n < 0 {
        assert s[|s| - 1] == s[1..][|s| - 2];
      }
    }
    StripKeeps(s);
    if n < 0 {
      assert s[1..] == NatToString(-n);
      NatToStringRoundTrip(-n);
    } else {
      NatToStringRoundTrip(n);
    }
  }

  /** `int` reads back the decimal text of every integer, as a query parameter
      or a JSON string carries it. */
  lemma PyIntOfDecimalText(n: int)
    ensures PyInt(JStr(IntToString(n))) == Ok(n)
  {
    IntLiteralOfDecimalText(n);
  }

  /** `float(product.get("price", 0))` for whole-number prices written as
      integers; `None` where Python raises `ValueError` or `TypeError`. */
  function PriceValue(v: Json): (r: Option<int>)
    ensures v.JNum? ==> r == Some(v.n)
    ensures v.JNull? || v.JArr? || v.JObj? ==> r.None?
    ensures v.JStr? ==> r == IntLiteral(v.s)
  {
    match v
    case JNum(n) => Some(n)
    case JBool(b) => Some(if b then 1 else 0)
    case JStr(s) => IntLiteral(s)
    case _ => None
  }

  /** `await request.json()` followed by the first `data.get(...)`: the body
      must parse and be an object. */
  function BodyObject(body: Parse): (r: Outcome<map<string, Json>>)
    ensures r.Ok? <==> body.Parsed? && body.value.JObj?
    ensures r.Ok? ==> r.value == body.value.fields
  {
    match body
    case Malformed(m) => Raise(BadJson(m))
    case Parsed(JObj(fields)) => Ok(fields)
    case Parsed(other) => Raise(NoAttribute(TypeName(other), "get"))
  }

  // ---------------------------------------------------------------------------
  // Replies
  // ---------------------------------------------------------------------------

  /** A `web.json_response(body, status=status)`. */
  datatype Reply = Reply(status: nat, body: map<string, Json>)

  function Success(fields: map<string, Json>): (r: Reply)
    ensures r.status == 200 && "success" in r.body && r.body["success"] == JBool(true)
    ensures forall k :: k in fields && k != "success" ==> k in r.body && r.body[k] == fields[k]
  {
    Reply(200, fields["success" := JBool(true)])
  }

  function Refused(status: nat, error: string): Reply {
    Reply(status, map["success" := JBool(false), "error" := JStr(error)])
  }

  /** What every handler's `except Exception as e` returns. */
  function Crash(f: Fault): Reply {
    Refused(500, FaultText(f))
  }
}
