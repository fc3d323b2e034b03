/**
 * `getTokenFromRequest` and `verifyAuth` of src/auth/github.js: the
 * `Authorization: Bearer <token>` header of RFC 6750 (section 2.1), matched
 * with a case-sensitive prefix test, and the JWT check behind it. The JWT
 * verifier is an input: it yields the payload or `None`, never an exception.
 */
module BearerAuth {
  import opened Wrappers
  import opened Strings

  const Scheme := "Bearer "

  /** `getTokenFromRequest`: the text after "Bearer ", or null. */
  function TokenFromHeader(header: Option<string>): (token: Option<string>)
    ensures token.Some? <==> header.Some? && StartsWith(header.value, Scheme)
    ensures token.Some? ==> header.value == Scheme + token.value
  {
    if header.None? || header.value == "" || !StartsWith(header.value, Scheme) then None
    else
      assert header.value == header.value[..7] + header.value[7..];
      Some(header.value[7..])
  }

  /** Prefixing a token with the scheme and extracting it gives the token back. */
  lemma TokenRoundTrip(token: string)
    ensures TokenFromHeader(Some(Scheme + token)) == Some(token)
  {
    assert (Scheme + token)[..|Scheme|] == Scheme;
    var t := TokenFromHeader(Some(Scheme + token));
    assert Scheme + t.value == Scheme + token;
    assert t.value == (Scheme + t.value)[|Scheme|..];
  }

  /** The scheme is matched exactly: other capitalisations and a missing space are refused. */
  lemma SchemeIsCaseSensitive(token: string)
    ensures TokenFromHeader(Some("bearer " + token)) == None
    ensures TokenFromHeader(Some("Bearer")) == None
  {
    assert ("bearer " + token)[0] == 'b';
  }

  /** `verifyAuth`: the verifier's verdict on the bearer token, or null when there is none. */
  function VerifyAuth<P>(header: Option<string>, secret: string, verify: (string, string) -> Option<P>): (r: Option<P>)
    ensures TokenFromHeader(header).None? ==> r.None?
    ensures TokenFromHeader(header).Some? ==> r == verify(TokenFromHeader(header).value, secret)
    ensures r.Some? ==>
      header.Some? && StartsWith(header.value, Scheme) && r == verify(header.value[|Scheme|..], secret)
  {
    match TokenFromHeader(header)
    case None => None
    case Some(token) => verify(token, secret)
  }
}
