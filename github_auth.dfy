/**
 * The login transaction of src/auth/github.js: `handleAuth` starts the
 * authorization-code grant of RFC 6749 (section 4.1) and stores a one-time
 * `state` value (section 10.12); `handleAuthCallback` checks it, exchanges the
 * code, fetches the GitHub profile and redirects with a signed session token.
 *
 * The worker's key-value namespace is the `kv` field of AuthWorker; every
 * store access and outbound request is appended to its `log`, so that the
 * order of effects can be stated. The two HTTP answers, `JSON.parse` and the
 * JWT signer are inputs.
 */
module GitHubAuth {
  import opened Wrappers
  import opened JsValues
  import opened GitHubSteps
  import FormUrlEncoded

  const AuthorizeEndpoint := "https://github.com/login/oauth/authorize"
  const CallbackPath := "/api/auth/callback"
  const Scope := "read:user user:email"
  const StatePrefix := "auth_state:"
  const StateMarker := "valid"
  const StateTtlSeconds: nat := 300

  /** A URL as a base and its query parameters, in the order they are set. */
  datatype Url = Url(base: string, query: seq<(string, string)>)

  datatype Response =
    | Redirect(location: Url)
    | ErrorJson(failure: AuthError)
  {
    function Status(): nat {
      if Redirect? then 302 else failure.Status()
    }
  }

  /** The callback's query: each parameter is absent (`null`) or a string. */
  datatype Query = Query(code: Option<string>, state: Option<string>, error: Option<string>)

  /** The worker's environment: OAuth client credentials (possibly unset) and the JWT secret. */
  datatype Config = Config(clientId: Option<string>, clientSecret: Option<string>, jwtSecret: string)

  /** A key-value entry; `ttl` is the expirationTtl it was written with, if any. */
  datatype Entry = Entry(value: string, ttl: Option<nat>)

  datatype Request =
    | TokenRequest(clientId: string, clientSecret: string, code: string)
    | UserRequest(accessToken: Val)

  datatype Event =
    | KvGet(key: string)
    | KvPut(key: string, entry: Entry)
    | KvDelete(key: string)
    | Fetch(request: Request)

  function StateKey(state: string): string {
    StatePrefix + state
  }

  /** A possibly undefined string as `URLSearchParams.set` stores it. */
  function AsParam(o: Option<string>): string {
    if o.Some? then o.value else "undefined"
  }

  /** The authorization URL `handleAuth` redirects to. */
  function AuthorizeUrl(clientId: Option<string>, origin: string, state: string): (u: Url)
    ensures u.base == AuthorizeEndpoint && |u.query| == 4
    ensures FormUrlEncoded.Lookup(u.query, "client_id") == Some(AsParam(clientId))
    ensures FormUrlEncoded.Lookup(u.query, "redirect_uri") == Some(origin + CallbackPath)
    ensures FormUrlEncoded.Lookup(u.query, "scope") == Some(Scope)
    ensures FormUrlEncoded.Lookup(u.query, "state") == Some(state)
  {
    var query := [
      ("client_id", AsParam(clientId)),
      ("redirect_uri", origin + CallbackPath),
      ("scope", Scope),
      ("state", state)];
    assert query[1..][1..] == [("scope", Scope), ("state", state)];
    assert query[1..][1..][1..] == [("state", state)];
    assert FormUrlEncoded.Lookup(query, "scope") == FormUrlEncoded.Lookup(query[1..], "scope")
      == FormUrlEncoded.Lookup(query[1..][1..], "scope");
    assert FormUrlEncoded.Lookup(query, "state") == FormUrlEncoded.Lookup(query[1..], "state")
      == FormUrlEncoded.Lookup(query[1..][1..], "state") == FormUrlEncoded.Lookup(query[1..][1..][1..], "state");
    Url(AuthorizeEndpoint, query)
  }

  /** The callback passes the two parameter checks: no provider error, both code and state. */
  predicate Admitted(q: Query) {
    !Present(q.error) && Present(q.code) && Present(q.state)
  }

  /** `kv.get("auth_state:" + state)` is truthy. */
  predicate StateFound(kv: map<string, Entry>, state: string) {
    StateKey(state) in kv && kv[StateKey(state)].value != ""
  }

  /** The callback reaches the one-time deletion of the state entry. */
  predicate Consumes(q: Query, kv: map<string, Entry>) {
    Admitted(q) && StateFound(kv, q.state.value)
  }

  predicate Configured(cfg: Config) {
    Present(cfg.clientId) && Present(cfg.clientSecret)
  }

  /** Code exchange, profile fetch and signing: the session token, or the failure. */
  function Authenticate(
    tokenRes: HttpResult, userRes: HttpResult, jsonParse: string -> Option<Val>,
    sign: (Claims, string) -> Option<string>, secret: string, nowMillis: nat): (r: Result<string, AuthError>)
    ensures r.Success? <==>
      TokenStep(tokenRes, jsonParse).Success? && IdentityStep(userRes, jsonParse).Success?
      && sign(BuildClaims(IdentityStep(userRes, jsonParse).value, nowMillis), secret).Some?
    ensures r.Success? ==> r.value == sign(BuildClaims(IdentityStep(userRes, jsonParse).value, nowMillis), secret).value
    ensures TokenStep(tokenRes, jsonParse).Failure? ==> r == Failure(TokenStep(tokenRes, jsonParse).error)
    ensures TokenStep(tokenRes, jsonParse).Success? && IdentityStep(userRes, jsonParse).Failure? ==>
      r == Failure(IdentityStep(userRes, jsonParse).error)
    ensures (TokenStep(tokenRes, jsonParse).Success? && IdentityStep(userRes, jsonParse).Success?
             && sign(BuildClaims(IdentityStep(userRes, jsonParse).value, nowMillis), secret).None?) ==>
      r == Failure(CallbackFailed(SigningFailed))
    ensures r.Failure? ==> TokenStepFailure(r.error) || IdentityStepFailure(r.error) || r.error == CallbackFailed(SigningFailed)
  {
    var _ :- TokenStep(tokenRes, jsonParse);
    var user :- IdentityStep(userRes, jsonParse);
    match sign(BuildClaims(user, nowMillis), secret)
    case None => Failure(CallbackFailed(SigningFailed))
    case Some(jwt) => Success(jwt)
  }

  /** The response of `handleAuthCallback` for a query, a store and the provider's answers. */
  function CallbackResult(
    origin: string, q: Query, kv: map<string, Entry>, cfg: Config,
    tokenRes: HttpResult, userRes: HttpResult, jsonParse: string -> Option<Val>,
    sign: (Claims, string) -> Option<string>, nowMillis: nat): (r: Response)
    ensures r.Redirect? <==>
      Consumes(q, kv) && Configured(cfg)
      && Authenticate(tokenRes, userRes, jsonParse, sign, cfg.jwtSecret, nowMillis).Success?
    ensures r.Redirect? ==>
      r.location == Url(origin + "/", [("token", Authenticate(tokenRes, userRes, jsonParse, sign, cfg.jwtSecret, nowMillis).value)])
    ensures r.ErrorJson? ==> r.Status() in {400, 401, 403, 404, 500}
    ensures Present(q.error) ==> r == ErrorJson(ProviderDenied(q.error.value))
    ensures !Present(q.error) && !Admitted(q) ==> r == ErrorJson(MissingParameters)
    ensures Admitted(q) && !StateFound(kv, q.state.value) ==> r == ErrorJson(InvalidState)
    ensures Consumes(q, kv) && !Configured(cfg) ==> r == ErrorJson(NotConfigured)
    ensures (Consumes(q, kv) && Configured(cfg)
             && Authenticate(tokenRes, userRes, jsonParse, sign, cfg.jwtSecret, nowMillis).Failure?) ==>
      r == ErrorJson(Authenticate(tokenRes, userRes, jsonParse, sign, cfg.jwtSecret, nowMillis).error)
    ensures Consumes(q, kv) && Configured(cfg) && r.ErrorJson? ==>
      TokenStepFailure(r.failure) || IdentityStepFailure(r.failure) || r.failure == CallbackFailed(SigningFailed)
  {
    if Present(q.error) then ErrorJson(ProviderDenied(q.error.value))
    else if !Present(q.code) || !Present(q.state) then ErrorJson(MissingParameters)
    else if !StateFound(kv, q.state.value) then ErrorJson(InvalidState)
    else if !Configured(cfg) then ErrorJson(NotConfigured)
    else
      match Authenticate(tokenRes, userRes, jsonParse, sign, cfg.jwtSecret, nowMillis)
      case Failure(f) => ErrorJson(f)
      case Success(jwt) => Redirect(Url(origin + "/", [("token", jwt)]))
  }

  /** The store after a callback: only the consumed state entry disappears. */
  function CallbackStore(kv: map<string, Entry>, q: Query): (r: map<string, Entry>)
    ensures Consumes(q, kv) ==> r.Keys == kv.Keys - {StateKey(q.state.value)}
    ensures !Consumes(q, kv) ==> r == kv
    ensures forall k :: k in r ==> k in kv && r[k] == kv[k]
  {
    if Consumes(q, kv) then kv - {StateKey(q.state.value)} else kv
  }

  /** The store accesses and outbound requests of a callback, in order. */
  function CallbackTrace(
    q: Query, kv: map<string, Entry>, cfg: Config,
    tokenRes: HttpResult, jsonParse: string -> Option<Val>): (t: seq<Event>)
    ensures !Admitted(q) ==> t == []
    ensures Admitted(q) ==> |t| >= 1 && t[0] == KvGet(StateKey(q.state.value))
    ensures Admitted(q) && !StateFound(kv, q.state.value) ==> t == [KvGet(StateKey(q.state.value))]
    ensures Consumes(q, kv) ==> |t| >= 2 && t[1] == KvDelete(StateKey(q.state.value))
    ensures forall i :: 0 <= i < |t| && t[i].Fetch? ==> 2 <= i && Consumes(q, kv) && Configured(cfg)
    ensures forall i :: 0 <= i < |t| ==> !t[i].KvPut?
  {
    if !Admitted(q) then []
    else
      var key := StateKey(q.state.value);
      if !StateFound(kv, q.state.value) then [KvGet(key)]
      else if !Configured(cfg) then [KvGet(key), KvDelete(key)]
      else
        var exchange := Fetch(TokenRequest(cfg.clientId.value, cfg.clientSecret.value, q.code.value));
        match TokenStep(tokenRes, jsonParse)
        case Failure(_) => [KvGet(key), KvDelete(key), exchange]
        case Success(token) => [KvGet(key), KvDelete(key), exchange, Fetch(UserRequest(token))]
  }

  /** No session token without every check passing. */
  lemma NoTokenUnlessEveryCheckPasses(
    origin: string, q: Query, kv: map<string, Entry>, cfg: Config,
    tokenRes: HttpResult, userRes: HttpResult, jsonParse: string -> Option<Val>,
    sign: (Claims, string) -> Option<string>, nowMillis: nat)
    requires CallbackResult(origin, q, kv, cfg, tokenRes, userRes, jsonParse, sign, nowMillis).Redirect?
    ensures !Present(q.error) && Present(q.code) && Present(q.state)
    ensures StateFound(kv, q.state.value) && Configured(cfg)
    ensures tokenRes.HttpResponse? && IsOk(tokenRes.status)
    ensures userRes.HttpResponse? && IsOk(userRes.status)
    ensures TokenStep(tokenRes, jsonParse).Success? && IdentityStep(userRes, jsonParse).Success?
    ensures var d := TokenData(tokenRes.text, jsonParse);
      d.Some? && Coercible(d.value) && !Truthy(Field(d.value, "error")) && Truthy(Field(d.value, "access_token"))
    ensures ValidIdentity(IdentityStep(userRes, jsonParse).value)
    ensures var claims := BuildClaims(IdentityStep(userRes, jsonParse).value, nowMillis);
      sign(claims, cfg.jwtSecret).Some? &&
      CallbackResult(origin, q, kv, cfg, tokenRes, userRes, jsonParse, sign, nowMillis).location
        == Url(origin + "/", [("token", sign(claims, cfg.jwtSecret).value)])
  {
  }

  /** A state value admits one callback: replaying the query against the store it left is rejected. */
  lemma ReplayRejected(
    origin: string, q: Query, kv: map<string, Entry>, cfg: Config,
    tokenRes: HttpResult, userRes: HttpResult, jsonParse: string -> Option<Val>,
    sign: (Claims, string) -> Option<string>, nowMillis: nat)
    requires Consumes(q, kv)
    ensures CallbackResult(origin, q, CallbackStore(kv, q), cfg, tokenRes, userRes, jsonParse, sign, nowMillis)
      == ErrorJson(InvalidState)
  {
  }

  /** A callback that consumes its state is past the parameter and state checks. */
  lemma ConsumedPassesStateCheck(
    origin: string, q: Query, kv: map<string, Entry>, cfg: Config,
    tokenRes: HttpResult, userRes: HttpResult, jsonParse: string -> Option<Val>,
    sign: (Claims, string) -> Option<string>, nowMillis: nat)
    requires Consumes(q, kv)
    ensures var r := CallbackResult(origin, q, kv, cfg, tokenRes, userRes, jsonParse, sign, nowMillis);
      r != ErrorJson(InvalidState) && r != ErrorJson(MissingParameters)
  {
  }

  class AuthWorker {
    /** The key-value namespace (LINKS_KV); entries past their TTL are absent. */
    var kv: map<string, Entry>
    /** Every store access and outbound request, oldest first. */
    var log: seq<Event>

    constructor (store: map<string, Entry>)
      ensures kv == store && log == []
    {
      kv := store;
      log := [];
    }

    method Get(key: string) returns (e: Option<Entry>)
      modifies this
      ensures kv == old(kv) && log == old(log) + [KvGet(key)]
      ensures e == if key in kv then Some(kv[key]) else None
    {
      e := if key in kv then Some(kv[key]) else None;
      log := log + [KvGet(key)];
    }

    method Put(key: string, entry: Entry)
      modifies this
      ensures kv == old(kv)[key := entry] && log == old(log) + [KvPut(key, entry)]
    {
      kv := kv[key := entry];
      log := log + [KvPut(key, entry)];
    }

    method Delete(key: string)
      modifies this
      ensures kv == old(kv) - {key} && log == old(log) + [KvDelete(key)]
    {
      kv := kv - {key};
      log := log + [KvDelete(key)];
    }

    /** Records an outbound request; its answer is an input of the handler. */
    method Send(request: Request)
      modifies this
      ensures kv == old(kv) && log == old(log) + [Fetch(request)]
    {
      log := log + [Fetch(request)];
    }

    /** `handleAuth`: store the fresh `state` for 300 seconds and redirect to GitHub. */
    method HandleAuth(origin: string, state: string, cfg: Config) returns (resp: Response)
      modifies this
      ensures kv == old(kv)[StateKey(state) := Entry(StateMarker, Some(StateTtlSeconds))]
      ensures log == old(log) + [KvPut(StateKey(state), Entry(StateMarker, Some(StateTtlSeconds)))]
      ensures resp == Redirect(AuthorizeUrl(cfg.clientId, origin, state))
      ensures StateFound(kv, state)
    {
      var url := AuthorizeUrl(cfg.clientId, origin, state);
      Put(StateKey(state), Entry(StateMarker, Some(StateTtlSeconds)));
      resp := Redirect(url);
    }

    /** `handleAuthCallback`: the guarded steps, each either answering with an error or moving on. */
    method HandleAuthCallback(
      origin: string, q: Query, cfg: Config,
      tokenRes: HttpResult, userRes: HttpResult, jsonParse: string -> Option<Val>,
      sign: (Claims, string) -> Option<string>, nowMillis: nat) returns (resp: Response)
      modifies this
      ensures resp == CallbackResult(origin, q, old(kv), cfg, tokenRes, userRes, jsonParse, sign, nowMillis)
      ensures kv == CallbackStore(old(kv), q)
      ensures log == old(log) + CallbackTrace(q, old(kv), cfg, tokenRes, jsonParse)
    {
      if Present(q.error) {
        return ErrorJson(ProviderDenied(q.error.value));
      }
      if !Present(q.code) || !Present(q.state) {
        return ErrorJson(MissingParameters);
      }
      var key := StateKey(q.state.value);
      var stored := Get(key);
      if stored.None? || stored.value.value == "" {
        return ErrorJson(InvalidState);
      }
      Delete(key);
      if !Configured(cfg) {
        return ErrorJson(NotConfigured);
      }
      Send(TokenRequest(cfg.clientId.value, cfg.clientSecret.value, q.code.value));
      ghost var auth := Authenticate(tokenRes, userRes, jsonParse, sign, cfg.jwtSecret, nowMillis);
      var token := TokenStep(tokenRes, jsonParse);
      if token.Failure? {
        assert auth == Failure(token.error);
        return ErrorJson(token.error);
      }
      Send(UserRequest(token.value));
      var user := IdentityStep(userRes, jsonParse);
      if user.Failure? {
        assert auth == Failure(user.error);
        return ErrorJson(user.error);
      }
      var claims := BuildClaims(user.value, nowMillis);
      var jwt := sign(claims, cfg.jwtSecret);
      if jwt.None? {
        assert auth == Failure(CallbackFailed(SigningFailed));
        return ErrorJson(CallbackFailed(SigningFailed));
      }
      assert auth == Success(jwt.value);
      resp := Redirect(Url(origin + "/", [("token", jwt.value)]));
    }

    /**
     * A login followed by a replay of the same callback: the first callback
     * gets past the state check, the second is refused, and the state entry
     * is gone.
     */
    method LoginThenReplay(
      origin: string, state: string, code: string, cfg: Config,
      tokenRes: HttpResult, userRes: HttpResult, jsonParse: string -> Option<Val>,
      sign: (Claims, string) -> Option<string>, nowMillis: nat) returns (first: Response, second: Response)
      requires state != "" && code != ""
      modifies this
      ensures first != ErrorJson(InvalidState) && first != ErrorJson(MissingParameters)
      ensures second == ErrorJson(InvalidState)
      ensures StateKey(state) !in kv
    {
      var q := Query(Some(code), Some(state), None);
      var _ := HandleAuth(origin, state, cfg);
      ghost var stored := kv;
      assert Consumes(q, stored);
      ConsumedPassesStateCheck(origin, q, stored, cfg, tokenRes, userRes, jsonParse, sign, nowMillis);
      first := HandleAuthCallback(origin, q, cfg, tokenRes, userRes, jsonParse, sign, nowMillis);
      assert kv == CallbackStore(stored, q);
      ReplayRejected(origin, q, stored, cfg, tokenRes, userRes, jsonParse, sign, nowMillis);
      second := HandleAuthCallback(origin, q, cfg, tokenRes, userRes, jsonParse, sign, nowMillis);
    }
  }
}
