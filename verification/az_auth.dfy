/**
 * The Azuriom authentication client (`AzAuth`): it normalises the site URL,
 * builds the JSON bodies of the three calls (`authenticate`, `verify`,
 * `logout`), and classifies the HTTP answer into a value, a service error
 * (`AzAuthException`), an I/O error or an unchecked runtime error.
 *
 * The HTTP exchange is an input: a `Network` maps the request (URL and body)
 * to the status code and body text that came back, or to a transport failure.
 * Gson's parser is a `Parser` (text to an optional JSON value) and Gson's
 * reflective decoding of a `User` is a `Decoder` (members to an optional
 * user, `None` when Gson throws).
 */
module AzAuth {
  import opened Wrappers
  import opened JavaText

  const API_AUTH := "/api/auth"
  const AUTHENTICATE_PATH := "/authenticate"
  const VERIFY_PATH := "/verify"
  const LOGOUT_PATH := "/logout"
  const INVALID_JSON := "Réponse JSON invalide : "
  /** What `User.toString` prints in place of a present access token. */
  const MASK := "****"

  // ======================= JSON values =======================

  /** A Gson `JsonElement`. A number keeps the literal it was parsed from. */
  datatype JsonValue =
    | JNull
    | JString(text: string)
    | JNumber(literal: string)
    | JBool(b: bool)
    | JArray(items: seq<JsonValue>)
    | JObject(fields: map<string, JsonValue>)

  /** The members of a parsed JSON object. */
  type Fields = map<string, JsonValue>

  /** `JsonParser.parseString`: `None` when the text is not JSON. */
  type Parser = string -> Option<JsonValue>

  /**
   * `JsonElement.getAsString()`: a number's literal text, `true`/`false`,
   * or `None` where Gson throws (an object, `null`, or an array that does
   * not hold exactly one element).
   */
  function AsString(v: JsonValue): (r: Option<string>)
    ensures v.JString? ==> r == Some(v.text)
    ensures v.JNull? || v.JObject? ==> r.None?
    ensures v.JArray? && |v.items| != 1 ==> r.None?
    ensures v.JArray? && |v.items| == 1 ==> r == AsString(v.items[0])
    ensures v.JNumber? ==> r == Some(v.literal)
    ensures v.JBool? ==> r == Some(BoolText(v.b))
  {
    match v
    case JNull => None
    case JString(s) => Some(s)
    case JNumber(lit) => Some(lit)
    case JBool(b) => Some(BoolText(b))
    case JArray(items) => if |items| == 1 then AsString(items[0]) else None
    case JObject(_) => None
  }

  /** `parseString(json).getAsJsonObject()`, with every exception read as "not an object". */
  function ParseObject(json: string, parse: Parser): (r: Option<Fields>)
    ensures r.Some? <==> parse(json).Some? && parse(json).value.JObject?
    ensures r.Some? ==> parse(json) == Some(JObject(r.value))
  {
    match parse(json)
    case Some(JObject(fields)) => Some(fields)
    case _ => None
  }

  // ======================= Outcomes =======================

  /** `AzAuthException`: the structured error the service reports. */
  datatype AzAuthException = AzAuthException(
    status: Option<string>,
    reason: Option<string>,
    message: Option<string>,
    httpStatus: int)

  /** Why a call did not return: a service error, an `IOException`, or an unchecked exception. */
  datatype Thrown =
    | Service(error: AzAuthException)
    | Io(ioMessage: Option<string>)
    | Runtime

  /** A call that returns a value or throws. */
  datatype Outcome<+T> = Ok(value: T) | Err(failure: Thrown)

  /**
   * The text the exception hands to `Exception(String)`: status, then
   * `/reason` unless the reason is null or empty, in brackets, then the
   * message and the HTTP code. (`getMessage()` is overridden and returns the
   * bare `message` field instead.)
   */
  function ExceptionText(e: AzAuthException): (r: string)
    ensures var head := "[" + NullText(e.status); |head| <= |r| && r[..|head|] == head
    ensures EndsWith(r, " (HTTP " + DecimalText(e.httpStatus) + ")")
  {
    var head := "[" + NullText(e.status);
    var mid := if e.reason.None? || e.reason.value == "" then "] " else "/" + e.reason.value + "] ";
    var tail := " (HTTP " + DecimalText(e.httpStatus) + ")";
    Framed(head, mid + NullText(e.message), tail);
    head + (mid + NullText(e.message)) + tail
  }

  /** A null reason and an empty one print alike. */
  lemma ExceptionTextEmptyReason(e: AzAuthException)
    ensures ExceptionText(e.(reason := Some(""))) == ExceptionText(e.(reason := None))
  {
  }

  /**
   * The layout of the text: after `[status` comes `/reason] ` when the
   * reason is non-empty and `] ` otherwise, then the message (`null` when
   * there is none), then ` (HTTP <code>)`.
   */
  lemma ExceptionTextLayout(e: AzAuthException)
    ensures var t := ExceptionText(e); var h := |"[" + NullText(e.status)|;
      var mid := if e.reason.Some? && e.reason.value != "" then "/" + e.reason.value + "] " else "] ";
      var tail := " (HTTP " + DecimalText(e.httpStatus) + ")";
      h + |mid| + |tail| <= |t|
      && t[h..h + |mid|] == mid
      && t[h + |mid|..|t| - |tail|] == NullText(e.message)
  {
    var head := "[" + NullText(e.status);
    var mid := if e.reason.None? || e.reason.value == "" then "] " else "/" + e.reason.value + "] ";
    var tail := " (HTTP " + DecimalText(e.httpStatus) + ")";
    var middle := mid + NullText(e.message);
    var t := ExceptionText(e);
    Framed(head, middle, tail);
    assert |t| == |head| + |middle| + |tail|;
    assert t[|head|..|head| + |mid|] == t[|head|..|head| + |middle|][..|mid|] == middle[..|mid|] == mid;
    assert t[|head| + |mid|..|t| - |tail|] == t[|head|..|head| + |middle|][|mid|..] == middle[|mid|..];
  }

  /** The HTTP code can be read back from the end of the text. */
  lemma ExceptionTextCode(e: AzAuthException)
    ensures var t := ExceptionText(e); var code := DecimalText(e.httpStatus);
      |code| + 1 <= |t| && t[|t| - |code| - 1..|t| - 1] == code
      && ParseDecimal(t[|t| - |code| - 1..|t| - 1]) == e.httpStatus
  {
    var t := ExceptionText(e);
    var code := DecimalText(e.httpStatus);
    var tail := " (HTTP " + code + ")";
    var start := |t| - |tail|;
    assert t[start..] == tail;
    assert |tail| == |code| + 8;
    assert t[|t| - |code| - 1..|t| - 1] == code by {
      forall i | 0 <= i < |code|
        ensures t[|t| - |code| - 1 + i] == code[i]
      {
        assert t[|t| - |code| - 1 + i] == t[start..][7 + i] == tail[7 + i];
      }
    }
    DecimalRoundTrip(e.httpStatus);
  }

  // ======================= Request bodies =======================

  /** The members of a Gson `JsonObject`, in insertion order. */
  type Members = seq<(string, JsonValue)>

  function Lookup(m: Members, key: string): (r: Option<JsonValue>)
    ensures r.None? <==> key !in Keys(m)
  {
    if m == [] then None else if m[0].0 == key then Some(m[0].1) else Lookup(m[1..], key)
  }

  function Keys(m: Members): (r: seq<string>)
    ensures |r| == |m|
    ensures forall i :: 0 <= i < |m| ==> r[i] == m[i].0
  {
    if m == [] then [] else [m[0].0] + Keys(m[1..])
  }

  /**
   * `put` on Gson's insertion-ordered map: a key already there keeps its
   * place and takes the new value; a new key goes last.
   */
  function Put(m: Members, key: string, v: JsonValue): (r: Members)
  {
    if m == [] then [(key, v)]
    else if m[0].0 == key then [(key, v)] + m[1..]
    else [m[0]] + Put(m[1..], key, v)
  }

  /** After `Put`, the key maps to the new value and every other key to what it had. */
  lemma {:induction false} LookupPut(m: Members, key: string, v: JsonValue, other: string)
    ensures Lookup(Put(m, key, v), key) == Some(v)
    ensures other != key ==> Lookup(Put(m, key, v), other) == Lookup(m, other)
  {
    if m != [] && m[0].0 != key {
      LookupPut(m[1..], key, v, other);
    }
  }

  /** `Put` keeps the order of the keys and appends a key it has not seen. */
  lemma {:induction false} KeysPut(m: Members, key: string, v: JsonValue)
    ensures Keys(Put(m, key, v)) == if key in Keys(m) then Keys(m) else Keys(m) + [key]
  {
    if m != [] && m[0].0 != key {
      KeysPut(m[1..], key, v);
      assert Keys(m) == [m[0].0] + Keys(m[1..]);
    }
  }

  /** A key not yet present goes at the end. */
  lemma {:induction false} PutFresh(m: Members, key: string, v: JsonValue)
    requires key !in Keys(m)
    ensures Put(m, key, v) == m + [(key, v)]
  {
    if m != [] {
      assert Keys(m) == [m[0].0] + Keys(m[1..]);
      assert m[0].0 != key;
      PutFresh(m[1..], key, v);
      calc {
        Put(m, key, v);
        [m[0]] + Put(m[1..], key, v);
        [m[0]] + (m[1..] + [(key, v)]);
        { assert m == [m[0]] + m[1..]; }
        m + [(key, v)];
      }
    }
  }

  /** `addProperty(String, String)` stores `JsonNull` for a null value. */
  function StringOrNull(value: Option<string>): (r: JsonValue)
    ensures r.JNull? <==> value.None?
    ensures value.Some? ==> AsString(r) == value
  {
    if value.None? then JNull else JString(value.value)
  }

  /** A Gson `JsonObject` under construction. */
  class JsonObject {
    var members: Members

    constructor ()
      ensures members == []
    {
      members := [];
    }

    method AddProperty(property: string, value: Option<string>)
      modifies this
      ensures members == Put(old(members), property, StringOrNull(value))
    {
      members := Put(members, property, StringOrNull(value));
    }
  }

  /** The 2FA code goes on the wire only when it is non-null and not blank. */
  predicate SendsCode(code: Option<string>) {
    code.Some? && !IsBlank(code.value)
  }

  /** The `authenticate` body. */
  function AuthenticateBody(email: Option<string>, password: Option<string>, code: Option<string>): (r: Members)
    ensures |r| == if SendsCode(code) then 3 else 2
    ensures r[0] == ("email", StringOrNull(email)) && r[1] == ("password", StringOrNull(password))
    ensures SendsCode(code) ==> r[2] == ("code", JString(code.value))
  {
    [("email", StringOrNull(email)), ("password", StringOrNull(password))]
      + if SendsCode(code) then [("code", JString(code.value))] else []
  }

  /** The `verify` and `logout` body. */
  function AccessTokenBody(accessToken: Option<string>): (r: Members)
    ensures Keys(r) == ["access_token"]
    ensures Lookup(r, "access_token") == Some(StringOrNull(accessToken))
  {
    [("access_token", StringOrNull(accessToken))]
  }

  /**
   * The authenticate body always carries the email and the password; it
   * carries `code`, untrimmed, exactly when the code has a character above
   * U+0020.
   */
  lemma AuthenticateBodyFields(email: Option<string>, password: Option<string>, code: Option<string>)
    ensures var body := AuthenticateBody(email, password, code);
      Lookup(body, "email") == Some(StringOrNull(email))
      && Lookup(body, "password") == Some(StringOrNull(password))
      && ("code" in Keys(body) <==> code.Some? && exists i :: 0 <= i < |code.value| && !IsTrimmed(code.value[i]))
      && ("code" in Keys(body) ==> Lookup(body, "code") == Some(JString(code.value)))
      && Keys(body) == ["email", "password"] + (if "code" in Keys(body) then ["code"] else [])
  {
    var body := AuthenticateBody(email, password, code);
    var base: Members := [("email", StringOrNull(email)), ("password", StringOrNull(password))];
    assert Keys(base) == ["email", "password"];
    if SendsCode(code) {
      BlankIffAllTrimmed(code.value);
      assert body == base + [("code", JString(code.value))];
      PutFresh(base, "code", JString(code.value));
      KeysPut(base, "code", JString(code.value));
      LookupPut(base, "code", JString(code.value), "email");
      LookupPut(base, "code", JString(code.value), "password");
    } else {
      if code.Some? {
        BlankIffAllTrimmed(code.value);
      }
      assert body == base;
    }
  }

  /** The `addProperty` calls of `authenticateInternal` append `email`, `password` and `code` in that order. */
  lemma AuthenticateBodyBuilt(email: JsonValue, password: JsonValue, code: JsonValue)
    ensures Put(Put([], "email", email), "password", password) == [("email", email), ("password", password)]
    ensures Put([("email", email), ("password", password)], "code", code)
         == [("email", email), ("password", password), ("code", code)]
  {
    var one: Members := [("email", email)];
    assert |"email"| != |"password"| && |"email"| != |"code"| && |"password"| != |"code"|;
    assert Put(one, "password", password) == [one[0]] + Put(one[1..], "password", password);
    var two: Members := [("email", email), ("password", password)];
    assert Put(two, "code", code) == [two[0]] + Put(two[1..], "code", code);
    assert Put(two[1..], "code", code) == [two[1]] + Put(two[2..], "code", code);
  }

  /**
   * `gson.toJson` with Gson's default settings leaves out every member whose
   * value is `JsonNull`: what goes on the wire is the body without them.
   */
  function OnWire(m: Members): (r: Members)
    ensures |r| <= |m|
    ensures forall i :: 0 <= i < |r| ==> !r[i].1.JNull?
    ensures forall i :: 0 <= i < |m| && !m[i].1.JNull? ==> m[i] in r
    ensures forall i :: 0 <= i < |r| ==> r[i] in m
  {
    if m == [] then []
    else if m[0].1.JNull? then OnWire(m[1..])
    else [m[0]] + OnWire(m[1..])
  }

  lemma {:induction false} OnWireAppend(a: Members, b: Members)
    ensures OnWire(a + b) == OnWire(a) + OnWire(b)
  {
    if a == [] {
      assert a + b == b;
    } else {
      assert (a + b)[0] == a[0];
      assert (a + b)[1..] == a[1..] + b;
      OnWireAppend(a[1..], b);
    }
  }

  /**
   * On the wire the authenticate body holds `email` and `password` only when
   * they are non-null, and `code` only when it is sent.
   */
  lemma AuthenticateOnWire(email: Option<string>, password: Option<string>, code: Option<string>)
    ensures OnWire(AuthenticateBody(email, password, code))
         == (if email.Some? then [("email", JString(email.value))] else [])
          + (if password.Some? then [("password", JString(password.value))] else [])
          + (if SendsCode(code) then [("code", JString(code.value))] else [])
  {
    var body := AuthenticateBody(email, password, code);
    var rest: Members := if SendsCode(code) then [("code", JString(code.value))] else [];
    assert body == [("email", StringOrNull(email))] + [("password", StringOrNull(password))] + rest;
    OnWireAppend([("email", StringOrNull(email))] + [("password", StringOrNull(password))], rest);
    OnWireAppend([("email", StringOrNull(email))], [("password", StringOrNull(password))]);
    assert OnWire([("email", StringOrNull(email))]) == if email.Some? then [("email", JString(email.value))] else [];
    assert OnWire([("password", StringOrNull(password))])
        == if password.Some? then [("password", JString(password.value))] else [];
    assert OnWire(rest) == rest;
  }

  /** A null access token leaves the verify and logout bodies empty on the wire. */
  lemma AccessTokenOnWire(accessToken: Option<string>)
    ensures OnWire(AccessTokenBody(accessToken))
         == if accessToken.Some? then [("access_token", JString(accessToken.value))] else []
  {
    assert AccessTokenBody(accessToken) == [("access_token", StringOrNull(accessToken))];
  }

  // ======================= HTTP exchange =======================

  /** A POST as it goes out: the URL and the members `gson.toJson` writes. */
  datatype HttpRequest = HttpRequest(url: string, body: Members)

  /**
   * What came back: the status code and the text of the input stream (2xx)
   * or of the error stream (otherwise, `""` when there is none); or the
   * `IOException` the connection raised.
   */
  datatype Exchange =
    | Response(status: int, body: string)
    | TransportFailure(message: Option<string>)

  type Network = HttpRequest -> Exchange

  predicate IsSuccess(status: int) {
    200 <= status < 300
  }

  /** `getString(o, key)`: null when absent or JSON null, the element's text otherwise. */
  function GetString(o: Fields, key: string): (r: Outcome<Option<string>>)
    ensures r == Ok(None) <==> key !in o || o[key].JNull?
    ensures key in o && o[key].JString? ==> r == Ok(Some(o[key].text))
    ensures r.Err? <==> key in o && !o[key].JNull? && AsString(o[key]).None?
    ensures r.Err? ==> r.failure.Runtime?
  {
    if key !in o then Ok(None)
    else if o[key].JNull? then Ok(None)
    else match AsString(o[key])
      case Some(s) => Ok(Some(s))
      case None => Err(Runtime)
  }

  /** The exception raised by a 2xx body that is not a JSON object. */
  function JsonParseError(body: string): (r: AzAuthException)
    ensures r.status == Some("error") && r.reason == Some("json_parse") && r.httpStatus == 0
    ensures r.message.Some? && |INVALID_JSON| <= |r.message.value|
    ensures r.message.value[..|INVALID_JSON|] == INVALID_JSON && r.message.value[|INVALID_JSON|..] == body
  {
    var message := INVALID_JSON + body;
    assert message[..|INVALID_JSON|] == INVALID_JSON && message[|INVALID_JSON|..] == body;
    AzAuthException(Some("error"), Some("json_parse"), Some(message), 0)
  }

  /** The exception raised by a non-2xx answer: from the body's fields, or generic when it is not JSON. */
  function ErrorFromBody(status: int, body: string, parse: Parser): (r: Outcome<AzAuthException>)
    ensures r.Ok? ==> r.value.httpStatus == status
    ensures ParseObject(body, parse).None? ==>
      r == Ok(AzAuthException(Some("error"), Some(""), Some(body), status))
    ensures r.Err? <==> (ParseObject(body, parse).Some?
      && exists key :: key in ["status", "reason", "message"] && GetString(ParseObject(body, parse).value, key).Err?)
    ensures r.Err? ==> r.failure.Runtime?
    ensures ParseObject(body, parse).Some? && r.Ok? ==>
      var o := ParseObject(body, parse).value;
      r.value == AzAuthException(GetString(o, "status").value, GetString(o, "reason").value,
                                 GetString(o, "message").value, status)
  {
    match ParseObject(body, parse)
    case None => Ok(AzAuthException(Some("error"), Some(""), Some(body), status))
    case Some(o) =>
      var reason := GetString(o, "reason");
      var message := GetString(o, "message");
      var statusText := GetString(o, "status");
      if reason.Err? || message.Err? || statusText.Err? then
        assert reason.Err? ==> GetString(o, ["status", "reason", "message"][1]).Err?;
        assert message.Err? ==> GetString(o, ["status", "reason", "message"][2]).Err?;
        assert statusText.Err? ==> GetString(o, ["status", "reason", "message"][0]).Err?;
        Err(Runtime)
      else
        Ok(AzAuthException(statusText.value, reason.value, message.value, status))
  }

  /**
   * The classification `post` performs once the exchange is over:
   * `Ok(None)` is the `null` of a call that expects no JSON, `Ok(Some(o))`
   * the object it returns.
   */
  function Classify(exchange: Exchange, expectJson: bool, parse: Parser): (r: Outcome<Option<Fields>>)
    ensures exchange.TransportFailure? ==> r == Err(Io(exchange.message))
    ensures exchange.Response? && IsSuccess(exchange.status) ==>
      if !expectJson then r == Ok(None)
      else if IsBlank(exchange.body) then r == Ok(Some(map[]))
      else if ParseObject(exchange.body, parse).Some? then r == Ok(ParseObject(exchange.body, parse))
      else r == Err(Service(JsonParseError(exchange.body)))
    ensures exchange.Response? && !IsSuccess(exchange.status) ==>
      r.Err? && (r.failure.Service? || r.failure.Runtime?)
      && (r.failure.Service? ==> r.failure.error.httpStatus == exchange.status)
    ensures exchange.Response? && !IsSuccess(exchange.status) ==>
      match ErrorFromBody(exchange.status, exchange.body, parse)
      case Ok(e) => r == Err(Service(e))
      case Err(f) => r == Err(f)
    ensures r.Ok? <==> (exchange.Response? && IsSuccess(exchange.status)
      && (!expectJson || IsBlank(exchange.body) || ParseObject(exchange.body, parse).Some?))
    ensures expectJson ==> r != Ok(None)
  {
    match exchange
    case TransportFailure(m) => Err(Io(m))
    case Response(status, body) =>
      if IsSuccess(status) then
        if !expectJson then Ok(None)
        else if IsBlank(body) then Ok(Some(map[]))
        else match ParseObject(body, parse)
          case Some(o) => Ok(Some(o))
          case None => Err(Service(JsonParseError(body)))
      else
        match ErrorFromBody(status, body, parse)
        case Ok(e) => Err(Service(e))
        case Err(f) => Err(f)
  }

  // ======================= User =======================

  datatype Role = Role(name: Option<string>, color: Option<string>)

  /**
   * The account Gson decodes from a success body. `money` is a Java `double`
   * and is kept only as the text `Double.toString` gives for it.
   */
  datatype User = User(
    id: int,
    username: Option<string>,
    uuid: Option<string>,
    emailVerified: bool,
    moneyText: string,
    role: Option<Role>,
    banned: bool,
    createdAt: Option<string>,
    accessToken: Option<string>)

  /** `gson.fromJson(o, User.class)`: `None` when Gson throws. */
  type Decoder = Fields -> Option<User>

  /** Decoding the object `post` returned into a user. */
  function FromJson(resp: Outcome<Option<Fields>>, decode: Decoder): (r: Outcome<User>)
    requires resp != Ok(None)
    ensures resp.Err? ==> r == Err(resp.failure)
    ensures resp.Ok? ==> (r.Ok? <==> decode(resp.value.value).Some?)
    ensures r.Ok? ==> resp.Ok? && decode(resp.value.value) == Some(r.value)
    ensures resp.Ok? && r.Err? ==> r.failure.Runtime?
  {
    match resp
    case Err(f) => Err(f)
    case Ok(o) =>
      match decode(o.value)
      case Some(u) => Ok(u)
      case None => Err(Runtime)
  }

  /** `Role.toString`, or `null` for a missing role: the name and then the colour, each quoted. */
  function RoleText(role: Option<Role>): (r: string)
    ensures role.None? <==> r == "null"
    ensures role.Some? ==>
      var head := "Role{name='" + NullText(role.value.name) + "', color='";
      |head| + 2 <= |r| && r[..|head|] == head
      && r[|head|..|r| - 2] == NullText(role.value.color) && EndsWith(r, "'}")
  {
    match role
    case None => "null"
    case Some(x) =>
      var head := "Role{name='" + NullText(x.name) + "', color='";
      Framed(head, NullText(x.color), "'}");
      head + NullText(x.color) + "'}"
  }

  /** What `User.toString` prints for the access token. */
  function MaskedToken(accessToken: Option<string>): (r: string)
    ensures accessToken.Some? ==> r == MASK
    ensures accessToken.None? ==> r == "null"
  {
    if accessToken.Some? then MASK else "null"
  }

  /** The fields `User.toString` prints between the id and the access token. */
  function UserFieldsText(u: User): string {
    ", username='" + NullText(u.username) + "'"
      + ", uuid='" + NullText(u.uuid) + "'"
      + ", emailVerified=" + BoolText(u.emailVerified)
      + ", money=" + u.moneyText
      + ", role=" + RoleText(u.role)
      + ", banned=" + BoolText(u.banned)
      + ", createdAt='" + NullText(u.createdAt) + "'"
  }

  /** `User.toString`: every field, with the access token masked. */
  function UserText(u: User): (r: string)
    ensures EndsWith(r, ", accessToken='" + MaskedToken(u.accessToken) + "'}")
    ensures var head := "User{id=" + DecimalText(u.id); |head| <= |r| && r[..|head|] == head
  {
    var head := "User{id=" + DecimalText(u.id);
    var tail := ", accessToken='" + MaskedToken(u.accessToken) + "'}";
    Framed(head, UserFieldsText(u), tail);
    head + UserFieldsText(u) + tail
  }

  /** The printed user does not depend on which access token it holds, only on whether it holds one. */
  lemma UserTextHidesToken(u: User, token: string)
    requires u.accessToken.Some?
    ensures UserText(u.(accessToken := Some(token))) == UserText(u)
  {
  }

  // ======================= Client =======================

  /** The site URL with at most one trailing `/` removed, followed by `/api/auth`. */
  function NormalizeBaseUrl(baseUrl: string): (r: string)
    ensures EndsWith(r, API_AUTH)
    ensures EndsWith(baseUrl, "/") ==> r[..|r| - |API_AUTH|] + "/" == baseUrl
    ensures !EndsWith(baseUrl, "/") ==> r[..|r| - |API_AUTH|] == baseUrl
  {
    var site := if EndsWith(baseUrl, "/") then baseUrl[..|baseUrl| - 1] else baseUrl;
    var r := site + API_AUTH;
    assert r[..|r| - |API_AUTH|] == site;
    r
  }

  /** Only one slash is removed: a URL ending in `//` keeps one of them. */
  lemma OneSlashStripped(site: string)
    ensures NormalizeBaseUrl(site + "//") == site + "/" + API_AUTH
  {
    var u := site + "//";
    assert u[..|u| - 1] == site + "/";
  }

  class AzAuth {
    const baseUrl: string
    var debug: bool

    constructor (baseUrl: string)
      ensures this.baseUrl == NormalizeBaseUrl(baseUrl) && !debug
    {
      this.baseUrl := NormalizeBaseUrl(baseUrl);
      debug := false;
    }

    static method WithBaseUrl(baseUrl: string) returns (client: AzAuth)
      ensures fresh(client)
      ensures client.baseUrl == NormalizeBaseUrl(baseUrl) && !client.debug
    {
      client := new AzAuth(baseUrl);
    }

    /** Turns request/response logging on or off; the client itself is returned for chaining. */
    method Debug(debug: bool) returns (self: AzAuth)
      modifies this`debug
      ensures this.debug == debug && self == this
    {
      this.debug := debug;
      self := this;
    }

    /** `post`: send the body to `baseUrl + path` and classify the answer. */
    method Post(path: string, body: Members, expectJson: bool, net: Network, parse: Parser)
      returns (r: Outcome<Option<Fields>>)
      ensures r == Classify(net(HttpRequest(baseUrl + path, OnWire(body))), expectJson, parse)
    {
      var url := baseUrl + path;
      var exchange := net(HttpRequest(url, OnWire(body)));
      r := Classify(exchange, expectJson, parse);
    }

    /** `authenticate(email, password[, code2FA])`. */
    method Authenticate(email: Option<string>, password: Option<string>, code: Option<string>,
                        net: Network, parse: Parser, decode: Decoder)
      returns (r: Outcome<User>)
      ensures r == FromJson(Classify(net(HttpRequest(baseUrl + AUTHENTICATE_PATH,
                                                     OnWire(AuthenticateBody(email, password, code)))), true, parse), decode)
    {
      AuthenticateBodyBuilt(StringOrNull(email), StringOrNull(password), StringOrNull(code));
      var req := new JsonObject();
      req.AddProperty("email", email);
      req.AddProperty("password", password);
      if code.Some? && !IsBlank(code.value) {
        req.AddProperty("code", code);
      }
      ghost var body := AuthenticateBody(email, password, code);
      assert req.members == body;
      var resp := Post(AUTHENTICATE_PATH, req.members, true, net, parse);
      assert resp == Classify(net(HttpRequest(baseUrl + AUTHENTICATE_PATH, OnWire(body))), true, parse);
      r := FromJson(resp, decode);
    }

    /** `verify(accessToken)`. */
    method Verify(accessToken: Option<string>, net: Network, parse: Parser, decode: Decoder)
      returns (r: Outcome<User>)
      ensures r == FromJson(Classify(net(HttpRequest(baseUrl + VERIFY_PATH, OnWire(AccessTokenBody(accessToken)))),
                                     true, parse), decode)
    {
      var req := new JsonObject();
      req.AddProperty("access_token", accessToken);
      var resp := Post(VERIFY_PATH, req.members, true, net, parse);
      r := FromJson(resp, decode);
    }

    /** `logout(accessToken)`: `Ok(())` when it returns; it never fails on a 2xx answer. */
    method Logout(accessToken: Option<string>, net: Network, parse: Parser)
      returns (r: Outcome<()>)
      ensures var exchange := net(HttpRequest(baseUrl + LOGOUT_PATH, OnWire(AccessTokenBody(accessToken))));
        (r.Ok? <==> exchange.Response? && IsSuccess(exchange.status))
        && (r.Err? ==> Classify(exchange, false, parse) == Err(r.failure))
    {
      var req := new JsonObject();
      req.AddProperty("access_token", accessToken);
      var resp := Post(LOGOUT_PATH, req.members, false, net, parse);
      match resp
      case Ok(_) => r := Ok(());
      case Err(f) => r := Err(f);
    }
  }
}
