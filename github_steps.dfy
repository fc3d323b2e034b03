/**
 * The pure steps of the GitHub OAuth callback (src/auth/github.js): reading
 * the token endpoint's answer, mapping the user API's answer to an identity
 * or a failure, and building the session token's claims. The outbound HTTP
 * results and `JSON.parse` are inputs.
 */
module GitHubSteps {
  import opened Wrappers
  import opened Strings
  import opened JsValues
  import FormUrlEncoded

  /** What an outbound `fetch` produced: a response, or the exception it threw (network failure, timeout). */
  datatype HttpResult =
    | HttpResponse(status: nat, statusText: string, text: string)
    | Thrown(message: string)

  /** `response.ok`. */
  predicate IsOk(status: nat) {
    200 <= status <= 299
  }

  /** Exceptions that reach the handler's outer `catch`. */
  datatype Cause =
    | FetchThrew(message: string)
    | NullTokenData
    | SigningFailed

  /** Why a callback failed; the constructor names the error message, its fields the values it interpolates. */
  datatype AuthError =
    | ProviderDenied(error: string)
    | MissingParameters
    | InvalidState
    | NotConfigured
    | TokenHttpError(tokenStatus: nat)
    | TokenParseError
    | TokenExchangeError(errorValue: Val)
    | NoAccessToken
    | UserUnauthorized
    | UserForbidden
    | UserNotFound
    | UserApiError(userStatus: nat, userStatusText: string)
    | InvalidIdentity
    | CallbackFailed(cause: Cause)
  {
    /** The HTTP status of the JSON error response for this failure. */
    function Status(): nat {
      match this
      case ProviderDenied(_) => 400
      case MissingParameters => 400
      case InvalidState => 400
      case NotConfigured => 500
      case TokenHttpError(_) => 400
      case TokenParseError => 500
      case TokenExchangeError(_) => 400
      case NoAccessToken => 400
      case UserUnauthorized => 401
      case UserForbidden => 403
      case UserNotFound => 404
      case UserApiError(_, _) => 400
      case InvalidIdentity => 500
      case CallbackFailed(_) => 500
    }
  }

  /** The failures the code-exchange step can report. */
  predicate TokenStepFailure(f: AuthError) {
    f.TokenHttpError? || f.TokenParseError? || f.TokenExchangeError? || f.NoAccessToken?
    || (f.CallbackFailed? && (f.cause.FetchThrew? || f.cause.NullTokenData?))
  }

  /** The failures the user-API step can report. */
  predicate IdentityStepFailure(f: AuthError) {
    f.UserUnauthorized? || f.UserForbidden? || f.UserNotFound? || f.UserApiError? || f.InvalidIdentity?
    || (f.CallbackFailed? && f.cause.FetchThrew?)
  }

  const FormMarker := "access_token="

  /** The object built from a form-encoded token body: five fields, each a string or `null`. */
  function FormTokenData(text: string): (v: Val)
    ensures v.Obj? && Coercible(v)
    ensures Field(v, "access_token") == FromOptional(FormUrlEncoded.Get(text, "access_token"))
    ensures Field(v, "error") == FromOptional(FormUrlEncoded.Get(text, "error"))
  {
    var fields := map[
      "token_type" := FromOptional(FormUrlEncoded.Get(text, "token_type")),
      "scope" := FromOptional(FormUrlEncoded.Get(text, "scope")),
      "error_description" := FromOptional(FormUrlEncoded.Get(text, "error_description"))];
    var error := FromOptional(FormUrlEncoded.Get(text, "error"));
    var accessToken := FromOptional(FormUrlEncoded.Get(text, "access_token"));
    assert |"error"| != |"access_token"|;
    Obj(fields["error" := error]["access_token" := accessToken])
  }

  /** The token data: form fields when the body contains "access_token=", otherwise `JSON.parse` (None: it threw). */
  function TokenData(text: string, jsonParse: string -> Option<Val>): Option<Val> {
    if Contains(text, FormMarker) then Some(FormTokenData(text)) else jsonParse(text)
  }

  /**
   * The code-exchange step: from the token endpoint's answer to the access
   * token sent to the user API, or the failure the handler reports.
   */
  function TokenStep(res: HttpResult, jsonParse: string -> Option<Val>): (r: Result<Val, AuthError>)
    ensures r.Success? <==>
      && res.HttpResponse? && IsOk(res.status)
      && var d := TokenData(res.text, jsonParse);
      && d.Some? && Coercible(d.value)
      && !Truthy(Field(d.value, "error")) && Truthy(Field(d.value, "access_token"))
    ensures r.Success? ==> Truthy(r.value) && r.value == Field(TokenData(res.text, jsonParse).value, "access_token")
    ensures r.Failure? ==> TokenStepFailure(r.error) && (r.error.Status() == 400 || r.error.Status() == 500)
    ensures res.Thrown? ==> r == Failure(CallbackFailed(FetchThrew(res.message)))
    ensures res.HttpResponse? && !IsOk(res.status) ==> r == Failure(TokenHttpError(res.status))
    ensures res.HttpResponse? && IsOk(res.status) && TokenData(res.text, jsonParse).None? ==>
      r == Failure(TokenParseError)
    ensures res.HttpResponse? ==> var d := TokenData(res.text, jsonParse);
      IsOk(res.status) && d.Some? && !Coercible(d.value) ==> r == Failure(CallbackFailed(NullTokenData))
    ensures res.HttpResponse? ==> var d := TokenData(res.text, jsonParse);
      IsOk(res.status) && d.Some? && Coercible(d.value) && Truthy(Field(d.value, "error")) ==>
        r == Failure(TokenExchangeError(Field(d.value, "error")))
    ensures res.HttpResponse? ==> var d := TokenData(res.text, jsonParse);
      (IsOk(res.status) && d.Some? && Coercible(d.value)
       && !Truthy(Field(d.value, "error")) && !Truthy(Field(d.value, "access_token"))) ==>
        r == Failure(NoAccessToken)
    ensures r.Failure? && r.error.TokenExchangeError? ==> Truthy(r.error.errorValue)
  {
    match res
    case Thrown(m) => Failure(CallbackFailed(FetchThrew(m)))
    case HttpResponse(status, _, text) =>
      if !IsOk(status) then Failure(TokenHttpError(status))
      else
        match TokenData(text, jsonParse)
        case None => Failure(TokenParseError)
        case Some(data) =>
          // the first read of `tokenData.access_token` throws on null, outside the parsing `try`
          if Prop(data, "access_token").None? then Failure(CallbackFailed(NullTokenData))
          else if Truthy(Field(data, "error")) then Failure(TokenExchangeError(Field(data, "error")))
          else if !Truthy(Field(data, "access_token")) then Failure(NoAccessToken)
          else Success(Field(data, "access_token"))
  }

  /** The failure for a non-OK user API status. */
  function UserStatusFailure(status: nat, statusText: string): (f: AuthError)
    requires !IsOk(status)
    ensures f.Status() == if status == 401 || status == 403 || status == 404 then status else 400
    ensures f.UserUnauthorized? || f.UserForbidden? || f.UserNotFound? || f.UserApiError?
  {
    if status == 401 then UserUnauthorized
    else if status == 403 then UserForbidden
    else if status == 404 then UserNotFound
    else UserApiError(status, statusText)
  }

  /** The identity check: a user record with a truthy `id` and `login`. */
  predicate ValidIdentity(v: Val) {
    Coercible(v) && Truthy(Field(v, "id")) && Truthy(Field(v, "login"))
  }

  /**
   * The user-API step: from the answer of GET /user to the user record, or
   * the failure the handler reports.
   */
  function IdentityStep(res: HttpResult, jsonParse: string -> Option<Val>): (r: Result<Val, AuthError>)
    ensures r.Success? <==>
      res.HttpResponse? && IsOk(res.status) && !Blank(res.text)
      && jsonParse(res.text).Some? && ValidIdentity(jsonParse(res.text).value)
    ensures r.Success? ==> r.value == jsonParse(res.text).value
    ensures r.Failure? ==> IdentityStepFailure(r.error)
    ensures res.Thrown? ==> r == Failure(CallbackFailed(FetchThrew(res.message)))
    ensures res.HttpResponse? && !IsOk(res.status) ==> r == Failure(UserStatusFailure(res.status, res.statusText))
    ensures res.HttpResponse? && IsOk(res.status) && r.Failure? ==> r.error == InvalidIdentity
  {
    match res
    case Thrown(m) => Failure(CallbackFailed(FetchThrew(m)))
    case HttpResponse(status, statusText, text) =>
      if !IsOk(status) then Failure(UserStatusFailure(status, statusText))
      else
        TrimEmptyIffBlank(text);
        if Trim(text) == "" then Failure(InvalidIdentity)
        else
          match jsonParse(text)
          case None => Failure(InvalidIdentity)
          case Some(user) =>
            if !Coercible(user) then Failure(InvalidIdentity)
            else if !Truthy(Field(user, "id")) || !Truthy(Field(user, "login")) then Failure(InvalidIdentity)
            else Success(user)
  }

  /** The claims built for the session token (the `iat` in seconds); at signing, the library replaces `iat` with its own clock reading and adds the expiry. */
  datatype Claims = Claims(id: Val, login: Val, name: Val, email: Val, avatarUrl: Val, iat: int)

  function BuildClaims(user: Val, nowMillis: nat): (c: Claims)
    requires ValidIdentity(user)
    ensures c.id == Field(user, "id") && c.login == Field(user, "login")
    ensures Truthy(c.id) && Truthy(c.login) && Truthy(c.name)
    ensures c.name == if Truthy(Field(user, "name")) then Field(user, "name") else c.login
    ensures c.email == if Truthy(Field(user, "email")) then Field(user, "email") else Null
    ensures c.avatarUrl == if Truthy(Field(user, "avatar_url")) then Field(user, "avatar_url") else Null
    ensures c.iat * 1000 <= nowMillis < c.iat * 1000 + 1000
  {
    Claims(
      Field(user, "id"),
      Field(user, "login"),
      Or(Field(user, "name"), Field(user, "login")),
      Or(Field(user, "email"), Null),
      Or(Field(user, "avatar_url"), Null),
      nowMillis / 1000)
  }

  /** A minimal profile: name falls back to the login, email and avatar to null. */
  lemma MinimalIdentityDefaults(nowMillis: nat)
    ensures var user := Obj(map["id" := Num(123.0), "login" := Str("octocat")]);
      && ValidIdentity(user)
      && var c := BuildClaims(user, nowMillis);
      && c.id == Num(123.0) && c.login == Str("octocat") && c.name == Str("octocat")
      && c.email == Null && c.avatarUrl == Null
  {
    var user := Obj(map["id" := Num(123.0), "login" := Str("octocat")]);
    assert "name" !in user.fields && "email" !in user.fields && "avatar_url" !in user.fields;
  }

  /** Join(parts) has every part as a contiguous piece. */
  lemma {:induction false} JoinAround(parts: seq<string>, c: char, k: nat) returns (a: string, b: string)
    requires k < |parts|
    ensures FormUrlEncoded.Join(parts, c) == a + parts[k] + b
    decreases k
  {
    if |parts| == 1 {
      a, b := "", "";
    } else if k == 0 {
      a, b := "", [c] + FormUrlEncoded.Join(parts[1..], c);
    } else {
      var a', b' := JoinAround(parts[1..], c, k - 1);
      a, b := parts[0] + [c] + a', b';
    }
  }

  /**
   * A form-encoded token body (as GitHub sends when it ignores the Accept
   * header) with a non-empty access_token and no error yields that token,
   * whatever JSON.parse would have done with it.
   */
  lemma FormBodyYieldsToken(ps: seq<FormUrlEncoded.Pair>, token: string, jsonParse: string -> Option<Val>, statusText: string)
    requires FormUrlEncoded.WellFormed(ps)
    requires FormUrlEncoded.Lookup(ps, "access_token") == Some(token) && token != ""
    requires !Present(FormUrlEncoded.Lookup(ps, "error"))
    ensures TokenStep(HttpResponse(200, statusText, FormUrlEncoded.Serialize(ps)), jsonParse) == Success(Str(token))
  {
    var text := FormUrlEncoded.Serialize(ps);
    SerializedHasMarker(ps, token);
    FormUrlEncoded.GetSerialized(ps, "access_token");
    FormUrlEncoded.GetSerialized(ps, "error");
    var d := FormTokenData(text);
    assert TokenData(text, jsonParse) == Some(d);
    assert Field(d, "access_token") == Str(token);
    assert !Truthy(Field(d, "error"));
  }

  /** A serialised body that has an access_token pair contains "access_token=". */
  lemma SerializedHasMarker(ps: seq<FormUrlEncoded.Pair>, token: string)
    requires FormUrlEncoded.Lookup(ps, "access_token") == Some(token)
    ensures Contains(FormUrlEncoded.Serialize(ps), FormMarker)
  {
    LookupFound(ps, "access_token");
    var k :| 0 <= k < |ps| && ps[k].0 == "access_token" && ps[k].1 == token;
    var segs := seq(|ps|, i requires 0 <= i < |ps| => FormUrlEncoded.Segment(ps[i]));
    var a, b := JoinAround(segs, '&', k);
    assert segs[k] == FormMarker + token;
    assert FormUrlEncoded.Serialize(ps) == a + FormMarker + (token + b);
    ContainsInMiddle(a, FormMarker, token + b);
  }

  lemma {:induction false} LookupFound(ps: seq<FormUrlEncoded.Pair>, name: string)
    requires FormUrlEncoded.Lookup(ps, name).Some?
    ensures exists k :: 0 <= k < |ps| && ps[k].0 == name && ps[k].1 == FormUrlEncoded.Lookup(ps, name).value
    decreases |ps|
  {
    if ps[0].0 != name {
      LookupFound(ps[1..], name);
      var k :| 0 <= k < |ps[1..]| && ps[1..][k].0 == name && ps[1..][k].1 == FormUrlEncoded.Lookup(ps, name).value;
      assert ps[k + 1] == ps[1..][k];
    }
  }

  const FormExample := "access_token=abc&token_type=bearer&scope=read:user"
  const ExamplePairs: seq<FormUrlEncoded.Pair> := [("access_token", "abc"), ("token_type", "bearer"), ("scope", "read:user")]
  const ExampleFields := map["access_token" := Str("abc"), "token_type" := Str("bearer"), "scope" := Str("read:user")]

  /**
   * The form-encoded spelling of a token response and any JSON spelling of it
   * (a body without '=', which JSON.parse reads as the same three fields) are
   * normalised alike: both yield the access token "abc".
   */
  lemma FormAndJsonAgree(jsonText: string, jsonParse: string -> Option<Val>)
    requires '=' !in jsonText
    requires jsonParse(jsonText) == Some(Obj(ExampleFields))
    ensures TokenStep(HttpResponse(200, "OK", FormExample), jsonParse) == Success(Str("abc"))
    ensures TokenStep(HttpResponse(200, "OK", jsonText), jsonParse) == Success(Str("abc"))
  {
    FormExampleYieldsToken(jsonParse);
    JsonExampleYieldsToken(jsonText, jsonParse);
  }

  lemma FormExampleYieldsToken(jsonParse: string -> Option<Val>)
    ensures TokenStep(HttpResponse(200, "OK", FormExample), jsonParse) == Success(Str("abc"))
  {
    FormExampleSerialises();
    FormExampleWellFormed();
    assert FormUrlEncoded.Lookup(ExamplePairs, "access_token") == Some("abc");
    assert FormUrlEncoded.Lookup(ExamplePairs, "error") == None;
    FormBodyYieldsToken(ExamplePairs, "abc", jsonParse, "OK");
  }

  lemma JsonExampleYieldsToken(jsonText: string, jsonParse: string -> Option<Val>)
    requires '=' !in jsonText
    requires jsonParse(jsonText) == Some(Obj(ExampleFields))
    ensures TokenStep(HttpResponse(200, "OK", jsonText), jsonParse) == Success(Str("abc"))
  {
    assert FormMarker[12] == '=';
    NotContainsMissingChar(jsonText, FormMarker, '=');
    assert TokenData(jsonText, jsonParse) == Some(Obj(ExampleFields));
    assert Field(Obj(ExampleFields), "error") == Undefined;
  }

  lemma FormExampleWellFormed()
    ensures FormUrlEncoded.WellFormed(ExamplePairs)
  {
    forall k | 0 <= k < |ExamplePairs|
      ensures '&' !in ExamplePairs[k].0 && '&' !in ExamplePairs[k].1
      ensures '=' !in ExamplePairs[k].0 && '?' !in ExamplePairs[k].0
    {
      var n, v := ExamplePairs[k].0, ExamplePairs[k].1;
      assert forall i :: 0 <= i < |n| ==> 'a' <= n[i] <= 'z' || n[i] == '_';
      assert forall i :: 0 <= i < |v| ==> 'a' <= v[i] <= 'z' || v[i] == ':';
    }
  }

  const ExampleSegments := ["access_token=abc", "token_type=bearer", "scope=read:user"]

  lemma ExampleSegmentsOfPairs()
    ensures seq(|ExamplePairs|, k requires 0 <= k < |ExamplePairs| => FormUrlEncoded.Segment(ExamplePairs[k])) == ExampleSegments
  {
    var segs := seq(|ExamplePairs|, k requires 0 <= k < |ExamplePairs| => FormUrlEncoded.Segment(ExamplePairs[k]));
    assert segs[0] == ExampleSegments[0];
    assert segs[1] == ExampleSegments[1];
    assert segs[2] == ExampleSegments[2];
  }

  lemma ExampleSegmentsJoined()
    ensures FormUrlEncoded.Join(ExampleSegments, '&') == FormExample
  {
    var tail := ["token_type=bearer", "scope=read:user"];
    assert ExampleSegments[1..] == tail;
    assert tail[1..] == ["scope=read:user"];
    assert FormUrlEncoded.Join(tail, '&') == "token_type=bearer" + "&" + "scope=read:user";
    assert FormUrlEncoded.Join(ExampleSegments, '&') == "access_token=abc" + "&" + FormUrlEncoded.Join(tail, '&');
  }

  lemma FormExampleSerialises()
    ensures FormUrlEncoded.Serialize(ExamplePairs) == FormExample
  {
    ExampleSegmentsOfPairs();
    ExampleSegmentsJoined();
  }
}
