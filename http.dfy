/**
 * Requests and responses as the two HTTP client modules see them, and the
 * `Bearer` credential of the `Authorization` header (section 2.1 of RFC 6750).
 */
module Http {
  import opened Wrappers
  import opened Json

  /** What `fetch` is asked to send: the method (`verb`), full URL, headers and body text. */
  datatype HttpRequest = HttpRequest(verb: string, url: string, headers: map<string, string>, body: Option<string>)

  /**
   * What `fetch` resolves to: the `ok` flag, the status code and text, and the
   * body as `response.json()` reads it (`None` when the body is not JSON).
   */
  datatype Response = Response(ok: bool, status: int, statusText: string, body: Option<Json>)

  /** A response, or the `TypeError` that `fetch` rejects with when no response arrives. */
  datatype Reply = Received(response: Response) | Unreachable(message: string)

  /** The token pair a login returns (`token`, `refresh_token`). */
  datatype TokenPair = TokenPair(token: string, refreshToken: string)

  const NoContent := 204
  const ContentTypeHeader := "Content-Type"
  const AuthorizationHeader := "Authorization"
  const JsonContentType := "application/json"
  const BearerPrefix := "Bearer "

  /** The header value `Bearer <token>` that both client modules send. */
  function BearerCredentials(token: string): (v: string)
    ensures |v| == |BearerPrefix| + |token| && v[..|BearerPrefix|] == BearerPrefix && v[|BearerPrefix|..] == token
  {
    BearerPrefix + token
  }

  /** The server's reading of an `Authorization` value: the token after the `Bearer ` scheme prefix. */
  function BearerToken(v: string): (r: Option<string>)
    ensures r.Some? ==> BearerCredentials(r.value) == v
  {
    if |v| >= |BearerPrefix| && v[..|BearerPrefix|] == BearerPrefix then
      assert v == v[..|BearerPrefix|] + v[|BearerPrefix|..];
      Some(v[|BearerPrefix|..])
    else None
  }

  /** The token a client puts in the header is the token the server reads from it. */
  lemma BearerRoundTrip(token: string)
    ensures BearerToken(BearerCredentials(token)) == Some(token)
  {
  }

  /** `s` with the prefix `p` removed, when `s` starts with `p`. */
  function StripPrefix(s: string, p: string): (r: Option<string>)
    ensures r.Some? <==> (|s| >= |p| && s[..|p|] == p)
    ensures r.Some? ==> s == p + r.value
  {
    if |s| >= |p| && s[..|p|] == p then
      assert s == s[..|p|] + s[|p|..];
      Some(s[|p|..])
    else None
  }

  lemma StripPrefixOf(p: string, rest: string)
    ensures StripPrefix(p + rest, p) == Some(rest)
  {
    assert (p + rest)[..|p|] == p && (p + rest)[|p|..] == rest;
  }
}
