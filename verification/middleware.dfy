/**
 * The API middleware: every request under `/api` is rewritten to the
 * backend, with the session cookie turned into a bearer token. The request
 * headers are a `Headers` object, which stores names in lower case; here
 * they are a map from lower-case name to value.
 */
module ApiMiddleware {
  import opened Wrappers
  import opened Text

  /** The `matcher: "/api/:path*"` rule: `/api` itself and everything below it. */
  predicate Matches(pathname: string)
  {
    pathname == "/api" || StartsWith(pathname, "/api/")
  }

  /** Paths that merely start with the letters `/api` are not rewritten. */
  lemma MatcherNeedsSegment()
    ensures Matches("/api") && Matches("/api/cases")
    ensures !Matches("/apis") && !Matches("/app/api")
  {
    assert "/apis"[..5][4] != "/api/"[4];
    assert "/app/api"[..5][3] != "/api/"[3];
    assert "/api/cases"[..5] == "/api/";
  }

  /** `request.cookies.get("session")?.value || null`, as a template string prints it. */
  function TokenText(session: Option<string>): string
  {
    if session.Some? && session.value != "" then session.value else "null"
  }

  /**
   * `middleware`: the rewrite target and the forwarded headers. The copy of
   * the incoming headers gets `authorization` set (replacing any incoming
   * one) and loses `host` and `cookie`; every other header is kept as it
   * was.
   */
  method Rewrite(session: Option<string>, apiUrl: string, pathname: string, search: string,
                 incoming: map<string, string>)
    returns (target: string, headers: map<string, string>)
    requires forall name | name in incoming :: Lower(name) == name
    ensures target == apiUrl + pathname + search
    ensures "authorization" in headers && headers["authorization"] == "Bearer " + TokenText(session)
    ensures "host" !in headers && "cookie" !in headers
    ensures forall name | name in incoming && name != "authorization" && name != "host" && name != "cookie" ::
      name in headers && headers[name] == incoming[name]
    ensures forall name | name in headers :: name in incoming || name == "authorization"
    ensures forall name | name in headers :: Lower(name) == name
  {
    var token := TokenText(session);
    target := apiUrl + pathname + search;
    headers := incoming;
    headers := headers["authorization" := "Bearer " + token];
    headers := headers - {"host"};
    headers := headers - {"cookie"};
    assert Lower("authorization") == "authorization";
  }

  /** Without a session cookie the backend receives the literal text `Bearer null`. */
  lemma NoSessionSendsNull(session: Option<string>)
    requires session.None? || session.value == ""
    ensures "Bearer " + TokenText(session) == "Bearer null"
  {
  }
}
