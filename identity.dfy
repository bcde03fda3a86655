/** Resolution of the acting user's identifier in the browser script
    (`getUserId`): the host bridge's unsafe user record, then the user record
    inside the signed init-data string, then a `test_user_id` query parameter,
    then a fixed development identifier. */
module Identity {
  import opened Common
  import opened JsonValues
  import opened ResponseDecoding

  /** What the Telegram WebApp bridge exposes. `userParam` is the `user` entry
      of the init-data query string and `userJson` the outcome of JSON-parsing
      its URI-decoded text; both are given rather than computed. */
  datatype Bridge = Bridge(
    unsafeUserId: Option<Json>,
    initData: string,
    userParam: Option<string>,
    userJson: Parse)

  /** The bridge, when the page runs inside the host, and the page URL's
      `test_user_id` query parameter. */
  datatype IdentitySources = IdentitySources(bridge: Option<Bridge>, testUserId: Option<string>)

  /** An identifier as the script returns it: a JSON value, or the NaN that
      `parseInt` yields for text without leading digits. */
  datatype UserId = Known(id: Json) | NotANumber

  const DefaultUserId: int := 123456789

  predicate UserIdTruthy(u: UserId) {
    u.Known? && Truthy(u.id)
  }

  /** Number of leading decimal digits. */
  function DigitRun(s: string): (k: nat)
    ensures k <= |s| && AllDigits(s[..k])
    ensures k < |s| ==> !IsDigit(s[k])
  {
    if |s| > 0 && IsDigit(s[0]) then
      var k := 1 + DigitRun(s[1..]);
      assert s[..k] == [s[0]] + s[1..][..k - 1];
      k
    else 0
  }

  predicate IsHexDigit(c: char) {
    IsDigit(c) || 'a' <= c <= 'f' || 'A' <= c <= 'F'
  }

  predicate AllHexDigits(s: string) {
    forall i :: 0 <= i < |s| ==> IsHexDigit(s[i])
  }

  function HexDigitValue(c: char): (v: nat)
    requires IsHexDigit(c)
    ensures v < 16
  {
    if IsDigit(c) then (c - '0') as nat
    else if 'a' <= c <= 'f' then (c - 'a') as nat + 10
    else (c - 'A') as nat + 10
  }

  /** The number a run of hexadecimal digits denotes, most significant first. */
  function HexValue(ds: string): nat
    requires AllHexDigits(ds)
  {
    if ds == [] then 0 else HexValue(ds[..|ds| - 1]) * 16 + HexDigitValue(ds[|ds| - 1])
  }

  /** Number of leading hexadecimal digits. */
  function HexRun(s: string): (k: nat)
    ensures k <= |s| && AllHexDigits(s[..k])
    ensures k < |s| ==> !IsHexDigit(s[k])
  {
    if |s| > 0 && IsHexDigit(s[0]) then
      var k := 1 + HexRun(s[1..]);
      assert s[..k] == [s[0]] + s[1..][..k - 1];
      k
    else 0
  }

  /** Whether the unsigned part starts with the `0x` or `0X` prefix that makes
      `parseInt` read base 16. */
  predicate HexPrefixed(rest: string) {
    |rest| >= 2 && rest[0] == '0' && (rest[1] == 'x' || rest[1] == 'X')
  }

  /** The unsigned part `parseInt` reads: after `0x`/`0X` the longest run of
      hexadecimal digits, otherwise the longest run of decimal digits; `None`
      when that run is empty. */
  function Magnitude(rest: string): (r: Option<int>)
    ensures r.Some? ==> r.value >= 0
  {
    if HexPrefixed(rest) then
      var digits := rest[2..];
      var k := HexRun(digits);
      if k == 0 then None else Some(HexValue(digits[..k]))
    else
      var k := DigitRun(rest);
      if k == 0 then None else Some(DigitsValue(rest[..k]))
  }

  /** JavaScript `parseInt(s)` without a radix: leading white space, an
      optional sign, then the magnitude; NaN when it has no digit. */
  function ParseInt(s: string): (r: UserId)
    ensures r.Known? ==> r.id.JNum?
  {
    var t := TrimStart(s);
    var negative := |t| > 0 && t[0] == '-';
    var rest := if |t| > 0 && (t[0] == '-' || t[0] == '+') then t[1..] else t;
    match Magnitude(rest)
    case None => NotANumber
    case Some(m) => Known(JNum(if negative then -m else m))
  }

  /** Text that starts with neither white space nor a sign is read by its
      magnitude alone. */
  lemma ParseUnsigned(s: string)
    requires |s| > 0 && !IsSpace(s[0]) && s[0] != '-' && s[0] != '+'
    ensures ParseInt(s) == if Magnitude(s).Some? then Known(JNum(Magnitude(s).value)) else NotANumber
  {
    NoLeadingSpace(s);
  }

  /** `parseInt` reads back every rendered integer a double holds exactly. */
  lemma ParseIntRoundTrip(n: int)
    requires -0x20_0000_0000_0000 <= n <= 0x20_0000_0000_0000
    ensures ParseInt(IntToString(n)) == Known(JNum(n))
  {
    var m: nat := if n < 0 then -n else n;
    var d := NatToString(m);
    NatToStringRoundTrip(m);
    MagnitudeOfDigits(d);
    if n < 0 {
      ParseNegativeDigits(d);
    } else {
      ParsePositiveDigits(d);
    }
  }

  /** Text that starts with a minus sign is read as the negated magnitude of
      the rest. */
  lemma ParseNegative(s: string)
    requires |s| > 0 && s[0] == '-'
    ensures ParseInt(s) == if Magnitude(s[1..]).Some? then Known(JNum(-Magnitude(s[1..]).value)) else NotANumber
  {
    NoLeadingSpace(s);
  }

  lemma MagnitudeOfDigits(d: string)
    requires |d| > 0 && AllDigits(d)
    ensures Magnitude(d) == Some(DigitsValue(d) as int)
  {
    AllDigitsRun(d);
    assert d[..|d|] == d;
    assert !HexPrefixed(d) by {
      if |d| >= 2 { assert IsDigit(d[1]); }
    }
  }

  lemma ParsePositiveDigits(d: string)
    requires |d| > 0 && AllDigits(d) && Magnitude(d) == Some(DigitsValue(d) as int)
    ensures ParseInt(d) == Known(JNum(DigitsValue(d)))
  {
    ParseUnsigned(d);
  }

  lemma ParseNegativeDigits(d: string)
    requires |d| > 0 && Magnitude(d).Some?
    ensures ParseInt("-" + d) == Known(JNum(-Magnitude(d).value))
  {
    var s := "-" + d;
    assert s[1..] == d;
    ParseNegative(s);
  }

  /** After `0x`, the hexadecimal digits are read: `parseInt("0x10")` is 16. */
  lemma ParseIntHex(d: string)
    requires |d| > 0 && AllHexDigits(d)
    ensures ParseInt("0x" + d) == Known(JNum(HexValue(d)))
  {
    var s := "0x" + d;
    assert s[2..] == d;
    AllHexRun(d);
    assert d[..|d|] == d;
    assert Magnitude(s) == Some(HexValue(d) as int);
    ParseUnsigned(s);
  }

  /** A `0x` prefix not followed by a hexadecimal digit is NaN:
      `parseInt("0x")` and `parseInt("0xg1")` are NaN. */
  lemma ParseIntBareHexPrefix(rest: string)
    requires rest == [] || !IsHexDigit(rest[0])
    ensures ParseInt("0x" + rest) == NotANumber
  {
    var s := "0x" + rest;
    assert s[2..] == rest;
    assert Magnitude(s).None?;
    ParseUnsigned(s);
  }

  lemma SixteenInHex()
    ensures HexValue("10") == 16
  {
    assert "10"[..1] == "1";
  }

  lemma ParseIntHexSixteen()
    ensures ParseInt("0x10") == Known(JNum(16))
  {
    assert "0x" + "10" == "0x10";
    ParseIntHex("10");
    SixteenInHex();
  }

  lemma {:induction false} AllHexRun(s: string)
    requires AllHexDigits(s)
    ensures HexRun(s) == |s|
    decreases |s|
  {
    if |s| > 0 {
      AllHexRun(s[1..]);
    }
  }

  lemma NoLeadingSpace(s: string)
    requires |s| > 0 && !IsSpace(s[0])
    ensures TrimStart(s) == s
  {
  }

  lemma {:induction false} AllDigitsRun(s: string)
    requires AllDigits(s)
    ensures DigitRun(s) == |s|
    decreases |s|
  {
    if |s| > 0 {
      AllDigitsRun(s[1..]);
    }
  }

  /** The query-parameter fallback: `parseInt` of a non-empty parameter, the
      development identifier otherwise. */
  function FromTestParameter(testUserId: Option<string>): UserId {
    if testUserId.Some? && testUserId.value != "" then ParseInt(testUserId.value)
    else Known(JNum(DefaultUserId))
  }

  predicate InitDataUserUsable(b: Bridge) {
    b.initData != "" && b.userParam.Some? && b.userParam.value != "" &&
    b.userJson.Parsed? && Present(Get(b.userJson.value, "id"))
  }

  /** `getUserId`. Without a usable query parameter the result is always a
      truthy identifier; NaN can only come from `parseInt` of the parameter. */
  function GetUserId(src: IdentitySources): (r: UserId)
    ensures src.testUserId.None? || src.testUserId.value == "" ==> UserIdTruthy(r)
    ensures r.NotANumber? ==> src.testUserId.Some? && ParseInt(src.testUserId.value).NotANumber?
    ensures src.bridge.None? && (src.testUserId.None? || src.testUserId.value == "") ==> r == Known(JNum(DefaultUserId))
  {
    match src.bridge
    case None => FromTestParameter(src.testUserId)
    case Some(b) =>
      if Present(b.unsafeUserId) then Known(b.unsafeUserId.value)
      else if InitDataUserUsable(b) then Known(Get(b.userJson.value, "id").value)
      else FromTestParameter(src.testUserId)
  }

  // ---------------------------------------------------------------------------
  // An independent statement of the precedence: each source on its own
  // ---------------------------------------------------------------------------

  function UnsafeCandidate(src: IdentitySources): Option<UserId> {
    if src.bridge.Some? && src.bridge.value.unsafeUserId.Some? && Truthy(src.bridge.value.unsafeUserId.value)
    then Some(Known(src.bridge.value.unsafeUserId.value)) else None
  }

  function InitDataCandidate(src: IdentitySources): Option<UserId> {
    if src.bridge.None? then None
    else
      var b := src.bridge.value;
      if b.initData == "" || b.userParam.None? || b.userParam.value == "" || b.userJson.Malformed? then None
      else match Get(b.userJson.value, "id")
        case Some(id) => if Truthy(id) then Some(Known(id)) else None
        case None => None
  }

  function TestCandidate(src: IdentitySources): Option<UserId> {
    match src.testUserId
    case Some(t) => if t != "" then Some(ParseInt(t)) else None
    case None => None
  }

  /** The first available candidate, or the fallback. */
  function FirstOf(candidates: seq<Option<UserId>>, fallback: UserId): UserId {
    if candidates == [] then fallback
    else if candidates[0].Some? then candidates[0].value
    else FirstOf(candidates[1..], fallback)
  }

  /** `getUserId` returns the first identifier found in the order unsafe record,
      init-data record, query parameter, development default. */
  lemma ResolutionOrder(src: IdentitySources)
    ensures GetUserId(src) ==
              FirstOf([UnsafeCandidate(src), InitDataCandidate(src), TestCandidate(src)], Known(JNum(DefaultUserId)))
  {
    var fallback := Known(JNum(DefaultUserId));
    var cs := [UnsafeCandidate(src), InitDataCandidate(src), TestCandidate(src)];
    var tail := [InitDataCandidate(src), TestCandidate(src)];
    assert cs[1..] == tail;
    assert tail[1..] == [TestCandidate(src)];
    assert [TestCandidate(src)][1..] == [];
    match src.bridge {
      case None =>
        assert FirstOf(cs, fallback) == FirstOf([TestCandidate(src)], fallback);
      case Some(b) =>
        if Present(b.unsafeUserId) {
          assert UnsafeCandidate(src) == Some(Known(b.unsafeUserId.value));
        } else if InitDataUserUsable(b) {
          var id := Get(b.userJson.value, "id").value;
          assert UnsafeCandidate(src) == None;
          assert InitDataCandidate(src) == Some(Known(id));
          assert FirstOf(cs, fallback) == FirstOf(tail, fallback) == Known(id);
        } else {
          assert UnsafeCandidate(src) == None;
          assert InitDataCandidate(src) == None;
          assert FirstOf(cs, fallback) == FirstOf(tail, fallback) == FirstOf([TestCandidate(src)], fallback);
        }
    }
  }

  /** A user record from the host always wins over the query parameter. */
  lemma HostIdentityWins(src: IdentitySources, id: Json)
    requires src.bridge.Some? && src.bridge.value.unsafeUserId == Some(id) && Truthy(id)
    ensures GetUserId(src) == Known(id)
  {
  }

  /** The resolved identifier is falsy exactly when resolution reached the query
      parameter and `parseInt` of it gave NaN or zero: the development default
      is never falsy. */
  lemma FalsyOnlyFromTestParameter(src: IdentitySources)
    ensures !UserIdTruthy(GetUserId(src)) <==>
              UnsafeCandidate(src).None? && InitDataCandidate(src).None? &&
              src.testUserId.Some? && src.testUserId.value != "" &&
              (ParseInt(src.testUserId.value) == NotANumber || ParseInt(src.testUserId.value) == Known(JNum(0)))
  {
    ResolutionOrder(src);
    if src.testUserId.Some? && src.testUserId.value != "" {
      var p := ParseInt(src.testUserId.value);
      assert p.Known? ==> p.id.JNum?;
    }
  }
}
