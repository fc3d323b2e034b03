# GitHub login and static files of links-app-workers, in Dafny

This project models the two parts of the links-app-workers Cloudflare Worker that hold real logic:

- **The GitHub OAuth login.** This is in `src/auth/github.js`.
  - `handleAuth` starts the authorization-code grant of RFC 6749, section 4.1. It stores a one-time `state` value, the anti-CSRF parameter of section 10.12, in the worker's key-value namespace for 300 seconds. Then it redirects to GitHub's authorize endpoint.
  - `handleAuthCallback` runs a fixed sequence of guarded steps:
    1. the provider's `error` parameter;
    2. a missing `code` or `state`;
    3. the state lookup, then the state's deletion;
    4. the client credentials;
    5. the code exchange, with form-or-JSON sniffing of the answer;
    6. the user API call, with its status mapping;
    7. identity validation.

    When every step passes, it signs a session token and redirects to the site with `?token=<jwt>`.
  - `getTokenFromRequest` and `verifyAuth` read the `Authorization: Bearer <token>` header of RFC 6750, section 2.1.
- **The static-file resolver.** This is in `src/utils/static.js`.
  - `handleStaticFile` rewrites the path: the root becomes `index.html`, and a `/static/` prefix is removed. It then looks the name up in a table of six files.
  - `getMimeType` picks the Content-Type from the file's lower-cased extension. Unknown extensions get `text/plain`.

The model's parts:

- `GitHubAuth.AuthWorker` is a class whose `kv` field is the key-value namespace. Its `log` field records every store access and outbound request in order. Because of the log, "the store is not read", "the state is deleted before any request" and "nothing is fetched" can be stated. `HandleAuth` and `HandleAuthCallback` are its methods. They are proved against three pure functions: `CallbackResult` (the response), `CallbackStore` (the store afterwards) and `CallbackTrace` (the effects, in order).
- The pure steps of the callback are in `GitHubSteps`:
  - `TokenStep` reads the token answer;
  - `IdentityStep` checks the user answer;
  - `UserStatusFailure` maps a non-OK user API status;
  - `BuildClaims` builds the JWT payload.
- JavaScript values, truthiness and `||` are in `JsValues`.
- The `URLSearchParams` parsing that the form-encoded token answer goes through is in `FormUrlEncoded`. A serialise/parse round trip is proved for it.
- `BearerAuth` holds the header extraction. `StaticFiles` holds the resolver.

Inputs stand for what the model cannot see:

- **The two `fetch` results.** Each is an `HttpResult`: a status, a status text and a body, or the exception the call threw. The exception covers a network failure and the 10-second timeout.
- **`JSON.parse`.** A function from text to `Option<Val>`, where `None` means it threw.
- **The JWT signer.** A function from claims and secret to `Option<string>`, where `None` means it threw.
- **The JWT verifier.** A function from token and secret to an optional payload.
- **The random `state`.** A string argument.
- **The clock.** `nowMillis`, the value of `Date.now()`.
- **The request's origin and query.** Already parsed.

Three details of the code that the model keeps exactly:

- The token answer's `error` field fails the exchange only when it is truthy. `error=` with an empty value is not a failure.
- A non-OK user API status is mapped to its error first. The user body is read only for logging then, and it is never parsed or validated.
- When the `fetch` call itself throws, for a timeout or a network failure of either request, there is no failure kind of its own. The exception reaches the handler's outer `catch` and gives a generic 500. In the model this is `CallbackFailed(FetchThrew(..))`. A failure while reading a 2xx body behaves differently and is not modelled (see the `text()` line under "## Left out").

## Model

| member | source | states |
|---|---|---|
| `GitHubAuth.AuthWorker.HandleAuth` | src/auth/github.js:52-68 | writes exactly one entry, `auth_state:<state>` → `valid` with TTL 300, and nothing else; logs that single put; redirects to the authorize URL for the same state |
| `GitHubAuth.AuthorizeUrl` | src/auth/github.js:55-63 | the redirect goes to GitHub's authorize endpoint. It carries `client_id` (the string `undefined` when unset), `redirect_uri` = origin + `/api/auth/callback`, scope `read:user user:email` and the given `state` |
| `GitHubAuth.AuthWorker.HandleAuthCallback` | src/auth/github.js:76-264 | the response, the new store and the ordered effects are those of `CallbackResult`, `CallbackStore` and `CallbackTrace` for the old store |
| `GitHubAuth.CallbackResult` | src/auth/github.js:85-264 | gives the outcome for each input combination: a provider `error` gives 400; a missing or empty `code`/`state` gives 400; an unknown state gives 400 `InvalidState`; missing credentials give 500. A redirect happens iff the state was consumed, the credentials are set and code exchange, profile fetch and signing all succeed. The redirect goes to origin + `/` with `token` = the signed JWT. Every error status is one of 400/401/403/404/500. Past the state and credential checks, the error is exactly the one the exchange, the user step or signing reported, so a user API 401/403/404 keeps its status |
| `GitHubAuth.CallbackStore` | src/auth/github.js:96-104 | a callback that found its state removes exactly that key. On every other path the store is unchanged. No other key is added or changed |
| `GitHubAuth.CallbackTrace` | src/auth/github.js:85-125 | the early exits do not touch the store; an unknown state gives a single read. Once the state is found, the read is followed at once by its deletion. Every outbound request comes after the deletion and needs configured credentials. The callback never writes to the store |
| `GitHubAuth.Authenticate` | src/auth/github.js:112-257 | succeeds iff the token step, the identity step and signing all succeed. The token is the signature over the claims built from the fetched profile. The first failing step decides the failure: a token-step failure is returned unchanged; after a successful exchange, a user-step failure is returned unchanged; after both, a signing failure is `CallbackFailed(SigningFailed)` |
| `GitHubAuth.NoTokenUnlessEveryCheckPasses` | src/auth/github.js:85-264 | a redirect with a token implies that every check passed: no provider error; code and state present; state found; credentials set; both HTTP answers OK; the token data parsed, with a falsy `error` and a truthy `access_token`; the exchange and user steps succeeded; a valid identity; signing succeeded. The token is the signature over `BuildClaims` of that identity |
| `GitHubAuth.ReplayRejected` | src/auth/github.js:96-104 | replaying a callback against the store its first run left gives 400 `InvalidState` (one-time use) |
| `GitHubAuth.ConsumedPassesStateCheck` | src/auth/github.js:90-104 | a callback whose state is found is never answered with the missing-parameter or invalid-state error |
| `GitHubAuth.AuthWorker.LoginThenReplay` | src/auth/github.js:52-104 | after `handleAuth(state)`, the first callback with that state gets past the state check. The second gets `InvalidState`, and the key is gone |
| `GitHubAuth.AuthWorker.Get` | src/auth/github.js:96 | `kv.get`: returns the entry if present; the store is unchanged; the read is logged |
| `GitHubAuth.AuthWorker.Put` | src/auth/github.js:66 | `kv.put`: the store maps the key to the new entry; the write is logged |
| `GitHubAuth.AuthWorker.Delete` | src/auth/github.js:104 | `kv.delete`: the key is removed; the deletion is logged |
| `GitHubAuth.AuthWorker.Send` | src/auth/github.js:113-125 | an outbound request is logged; the store is unchanged |
| `GitHubSteps.TokenStep` | src/auth/github.js:130-175 | the results, in order: a fetch exception gives 500; a non-OK status gives 400 `TokenHttpError` before any parsing; a body that is neither form data nor JSON gives 500; a `null` body gives 500 through the outer `catch`; a truthy `error` gives 400 `TokenExchangeError` with that value; a falsy `error` and a falsy `access_token` give 400 `NoAccessToken`. Success holds iff the status is OK, the body parses, `error` is falsy and `access_token` is truthy. The result is then that `access_token`. A `TokenExchangeError` carries a truthy `error`. Every failure is one of the exchange step's own kinds, with status 400 or 500 |
| `GitHubSteps.FormTokenData` | src/auth/github.js:143-151 | a body containing `access_token=` is read as form fields. `access_token` and `error` are the string-or-null `get` results |
| `GitHubSteps.FormBodyYieldsToken` | src/auth/github.js:143-175 | any well-formed form body whose first `access_token` is non-empty and whose `error` is absent or empty yields that token, whatever `JSON.parse` does |
| `GitHubSteps.SerializedHasMarker` | src/auth/github.js:143 | a form body with an `access_token` pair contains the sniffed substring `access_token=` |
| `GitHubSteps.FormAndJsonAgree` | src/auth/github.js:143-175 | `access_token=abc&token_type=bearer&scope=read:user` and a JSON body with the same three fields both yield the access token `abc` |
| `GitHubSteps.UserStatusFailure` | src/auth/github.js:205-214 | a non-OK user API status 401 maps to 401, 403 to 403, 404 to 404, and any other to 400 |
| `GitHubSteps.IdentityStep` | src/auth/github.js:195-238 | succeeds iff the status is OK, the body is not blank, it parses, it is not null, and `id` and `login` are truthy; the result is the parsed record. A non-OK status gives the mapped failure; with an OK status every failure is 500 `InvalidIdentity`. Every failure is one of the user step's own kinds |
| `GitHubSteps.BuildClaims` | src/auth/github.js:248-255 | `id` and `login` are copied. `name` is the profile's name if truthy, else the login. `email` and `avatar_url` are the profile's value if truthy, else `null`. `iat` is `Date.now()` in whole seconds, rounded down |
| `GitHubSteps.MinimalIdentityDefaults` | src/auth/github.js:248-255 | for `{"id":123,"login":"octocat"}`, the claims have name `octocat` and null email and avatar |
| `JsValues.Or` | src/auth/github.js:251-253 | `a \|\| b` is `a` when `a` is truthy, else `b`; it is truthy iff either is |
| `JsValues.Prop` | src/auth/github.js:161 | a property read throws exactly on `null` and `undefined`; the exchange step uses it for the first read of `tokenData.access_token` |
| `FormUrlEncoded.ParseSerialize` | src/auth/github.js:144-150 | parsing a serialised list of well-formed pairs gives the list back |
| `FormUrlEncoded.GetSerialized` | src/auth/github.js:146-150 | `get(name)` on a serialised body is the value of the first pair with that name |
| `FormUrlEncoded.Lookup` | src/auth/github.js:146-150 | `get` returns `null` iff no pair has the name; otherwise it returns the value of the first pair with that name |
| `FormUrlEncoded.SplitJoin` | src/auth/github.js:144 | splitting on `&` undoes joining parts that contain no `&` |
| `Strings.TrimEmptyIffBlank` | src/auth/github.js:224 | `!text.trim()` holds iff every character is ECMAScript whitespace or a line terminator |
| `BearerAuth.TokenFromHeader` | src/auth/github.js:295-301 | returns a token iff the header exists and starts with `Bearer `; the header is then `Bearer ` + token, i.e. the token is `substring(7)` |
| `BearerAuth.TokenRoundTrip` | src/auth/github.js:295-301 | extracting from `Bearer ` + t gives t |
| `BearerAuth.SchemeIsCaseSensitive` | src/auth/github.js:297 | `bearer x` and `Bearer` without the space are refused |
| `BearerAuth.VerifyAuth` | src/auth/github.js:277-292 | with no Bearer header the result is null. With one, the result is the verifier's verdict on the text after `Bearer ` |
| `Strings.AfterLastDot` | src/utils/static.js:15 | `split('.').pop()` is the longest suffix without a `.`: the whole name when it has no dot |
| `Strings.ToLower` | src/utils/static.js:15 | lower-cases each character and keeps the length |
| `StaticFiles.GetMimeType` | src/utils/static.js:14-29 | a known lower-cased extension gives its table entry; any other gives `text/plain` |
| `StaticFiles.MimeTypeOfName` | src/utils/static.js:14-29 | for `base.ext` with no dot in `ext`, the type is that of `ext`, lower-cased, or `text/plain` |
| `StaticFiles.MimeTypeWithoutDot` | src/utils/static.js:15 | a name without a dot is looked up as a whole |
| `StaticFiles.MimeTypeIgnoresCase` | src/utils/static.js:15-28 | lower-casing the name first never changes the type |
| `StaticFiles.UpperCaseHtml` | src/utils/static.js:15-28 | `X.HTML` is `text/html` |
| `StaticFiles.HandleStaticFile` | src/utils/static.js:32-70 | a file is served iff its normalised path is one of the six table keys. It is served under that name with `Content-Type` = the MIME type of that name and `Cache-Control: public, max-age=3600`; otherwise the answer is 404 |
| `StaticFiles.RootIsIndex` | src/utils/static.js:41-43 | `/` and the empty string both resolve to `index.html` |
| `StaticFiles.StaticPrefixRemoved` | src/utils/static.js:46-48 | a path starting with `/static/` loses exactly those eight characters |
| `StaticFiles.BareStaticPrefixNotFound` | src/utils/static.js:35-57 | `/static/` becomes the empty name because the root check runs first; that gives 404, whether the path is passed in or taken from the URL |
| `StaticFiles.UnknownNameNotFound` | src/utils/static.js:51-57 | a given path that is not a table key, not the root and has no `/static/` prefix gives 404 |
| `StaticFiles.ServedNameTypes` | src/utils/static.js:4-28 | the six files are typed `text/html` (four), `text/css` and `application/javascript` |
| `StaticFiles.ServedContentTypes` | src/utils/static.js:60-70 | every served answer is 200, cached for an hour, and typed HTML, CSS or JavaScript |
| `StaticFiles.InheritedNamePassesLookup` | src/utils/static.js:51-52 | as written, `/static/constructor` passes the existence test without being a file; the model answers 404 |
| `StaticFiles.InheritedExtensionSkipsDefault` | src/utils/static.js:28 | as written, extension `constructor` finds an inherited property instead of the `text/plain` default; the model gives `text/plain` |

## Left out

- JWT creation and verification through `jose` and WebCrypto (src/auth/github.js:15-49) are outside the model. The HS256 signature and the algorithm check happen inside the library. `createJWT` also calls `setIssuedAt()` and `setExpirationTime('24h')` (src/auth/github.js:27-28). These replace the claims' `iat` with the library's own clock reading and add `exp`. So for 24 hours the verifier returns the signed claims with that `iat` and an added `exp`, not the claims as built. The signer and the verifier are inputs.
- `crypto.randomUUID` (src/auth/github.js:11) is outside the model: the state is an argument.
- `fetch` and its request headers (`Accept`, `Content-Type`, `User-Agent`) are outside the model, and so are `AbortSignal.timeout(10000)` and `text()`. A fetch result is an input. A thrown call, timeout included, is `Thrown`. Reading the error body in the non-OK branches, and that read failing, are not modelled. Neither is a failing `text()` on a 2xx body. Its own parsing `try` would catch that and answer 500: "Failed to parse GitHub token response" at src/auth/github.js:138-157, or "Failed to parse GitHub user data" at src/auth/github.js:218-237.
- URL parsing and serialisation are not modelled. `new URL`, the `origin` and the query are given already parsed. A `Url` is a base plus its ordered query pairs, with no percent-encoding.
- `FormUrlEncoded.Parse`: does not apply percent-decoding or `+`-to-space. Names and values come back as written.
- `JSON.parse` is an input function. Its relation to the text, and duplicate keys, are not modelled.
- Error messages are not rendered as strings. Each error is an `AuthError` value whose constructor names the message and whose fields carry the interpolated values. Rendering a JavaScript value with `${…}` is not modelled.
- KV TTL expiry is modelled only as presence or absence. A KV call that throws is not modelled. It would reach `handleAuth`'s catch (500 "Authentication failed") or the callback's outer catch.
- `Strings.ToLower`: maps only `A`–`Z`. JavaScript's `toLowerCase` also lower-cases letters of other scripts.
- `JsValues.Field`: reads own object fields only. The names the callback reads (`error`, `access_token`, `id`, `login`, `name`, `email`, `avatar_url`) are not `Object.prototype` properties.
- The race between concurrent callbacks with the same state is not modelled: the read and the delete are not atomic, and this model is sequential.
- `BearerAuth.VerifyAuth`: a pure function cannot observe that the verifier is not called when the header is missing. It states only that the result is null then. The `try`/`catch` around it is not modelled, because the verifier never throws.
- `handleStaticFile`'s 500 branch (a failing file `import()`) is not modelled. The file contents, loaded through dynamic `import()`, are not modelled either: only which names exist matters.
- `console` logging is not modelled.
- `src/utils/cors.js`, `src/index.js` and `src/static/embed.html.js` are not part of this model.

## Findings

| source | as written | input that shows it | evidently intended | confidence | as-written member | corrected member |
|---|---|---|---|---|---|---|
| src/utils/static.js:51-52 | `staticFiles[path]` on an object literal also finds inherited `Object.prototype` properties, so the 404 test passes for them | `GET /static/constructor` (the path becomes `constructor`, which finds the `Object` function) | only the six listed files pass; every other name gives 404 | not executed; high (standard JavaScript property lookup) | `StaticFiles.InheritedNamePassesLookup` | `StaticFiles.UnknownNameNotFound` |
| src/utils/static.js:28 | `mimeTypes[ext] \|\| 'text/plain'` returns an inherited property for `constructor` or `__proto__`, not the default | `getMimeType('a.constructor')`; the request above reaches `getMimeType('constructor')` | unknown extensions get `text/plain` | not executed; high (standard JavaScript property lookup) | `StaticFiles.InheritedExtensionSkipsDefault` | `StaticFiles.GetMimeType` |
