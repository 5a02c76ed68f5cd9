/**
 * The session route (`POST /api/auth/session`): it relays the sign-in to the
 * backend and rebuilds the backend's `Set-Cookie` value as a first-party
 * cookie. The two regular expressions it uses,
 *
 *   (?:^|;\s*)session=([^;]+)   and   max-age=([^;]+)    (both case-insensitive),
 *
 * are modelled by a declarative description of a match (`IsSessionMatch`,
 * `IsMaxAgeMatch`) and by the left-to-right search `exec` performs, proved to
 * return the leftmost match. Cookie syntax is the one of section 4.1.1 of
 * RFC 6265; the attribute is `Max-Age` of its section 5.2.2.
 */
module SessionRoute {
  import opened Wrappers
  import opened Text

  const SessionName := "session="
  const MaxAgeName := "max-age="

  /** The attributes every rebuilt cookie carries. */
  const CookieAttributes := "; Path=/; HttpOnly; Secure; SameSite=Lax"

  /** `word` (written in lower case) occurs at `i`, ignoring the case of ASCII letters (the `i` flag). */
  predicate CiPrefixAt(s: string, i: nat, word: string)
  {
    i + |word| <= |s| && forall k | 0 <= k < |word| :: LowerChar(s[i + k]) == word[k]
  }

  /** The first index at or after `i` that is not white space (`\s*` taken greedily). */
  function SkipSpaces(s: string, i: nat): (j: nat)
    requires i <= |s|
    ensures i <= j <= |s| && (j == |s| || !IsSpace(s[j]))
    ensures forall k | i <= k < j :: IsSpace(s[k])
    decreases |s| - i
  {
    if i == |s| || !IsSpace(s[i]) then i else SkipSpaces(s, i + 1)
  }

  /** The end of the run of non-`;` characters starting at `q` (`[^;]+` taken greedily). */
  function RunEnd(s: string, q: nat): (e: nat)
    requires q <= |s|
    ensures q <= e <= |s| && (e == |s| || s[e] == ';')
    ensures forall k | q <= k < e :: s[k] != ';'
    decreases |s| - q
  {
    if q == |s| || s[q] == ';' then q else RunEnd(s, q + 1)
  }

  /** The run is determined by its two defining properties. */
  lemma RunEndUnique(s: string, q: nat, e: nat)
    requires q <= e <= |s| && (e == |s| || s[e] == ';')
    requires forall k | q <= k < e :: s[k] != ';'
    ensures RunEnd(s, q) == e
  {
  }

  /** The first character of a case-insensitive occurrence. */
  lemma CiPrefixHead(s: string, i: nat, word: string)
    requires CiPrefixAt(s, i, word) && word != []
    ensures LowerChar(s[i]) == word[0]
  {
    assert LowerChar(s[i + 0]) == word[0];
  }

  // ---------------------------------------------------------------- session=

  /**
   * The session regular expression matches starting at `p` with its captured
   * value starting at `q`: either `session=` at the very start, or a `;`
   * at `p`, white space, then `session=`; and at least one non-`;`
   * character follows.
   */
  predicate IsSessionMatch(s: string, p: nat, q: nat)
  {
    && 8 <= q < |s| && s[q] != ';' && CiPrefixAt(s, q - 8, SessionName)
    && ((p == 0 && q == 8)
        || (p < q - 8 && s[p] == ';' && forall k | p < k < q - 8 :: IsSpace(s[k])))
  }

  /** A match starting at a given place captures from one place only. */
  lemma SessionMatchUnique(s: string, p: nat, q1: nat, q2: nat)
    requires IsSessionMatch(s, p, q1) && IsSessionMatch(s, p, q2)
    ensures q1 == q2
  {
    CiPrefixHead(s, q1 - 8, SessionName);
    CiPrefixHead(s, q2 - 8, SessionName);
  }

  /** One attempt of the regular expression at position `p`: the start of the captured value, if any. */
  function SessionMatchAt(s: string, p: nat): (r: Option<nat>)
    requires p < |s|
    ensures r.Some? ==> IsSessionMatch(s, p, r.value)
    ensures r.None? ==> forall q: nat :: !IsSessionMatch(s, p, q)
  {
    if p == 0 && 8 < |s| && CiPrefixAt(s, 0, SessionName) && s[8] != ';' then Some(8)
    else if s[p] == ';' then
      var w := SkipSpaces(s, p + 1);
      if w + 8 < |s| && CiPrefixAt(s, w, SessionName) && s[w + 8] != ';' then
        Some(w + 8)
      else
        NoLaterSessionMatch(s, p, w);
        None
    else
      None
  }

  /** A `;` whose first non-space successor does not start a usable `session=` starts no match. */
  lemma NoLaterSessionMatch(s: string, p: nat, w: nat)
    requires p < |s| && s[p] == ';' && w == SkipSpaces(s, p + 1)
    requires !(w + 8 < |s| && CiPrefixAt(s, w, SessionName) && s[w + 8] != ';')
    ensures forall q: nat :: !IsSessionMatch(s, p, q)
  {
    forall q: nat | IsSessionMatch(s, p, q) ensures false {
      CiPrefixHead(s, q - 8, SessionName);
    }
  }

  /** A match found by the left-to-right search: where it starts and where its value starts. */
  datatype Found = Found(start: nat, value: nat)

  /** `exec` from position `p` on: the leftmost match. */
  function FindSession(s: string, p: nat): (r: Option<Found>)
    requires p <= |s|
    ensures r.Some? ==> p <= r.value.start && IsSessionMatch(s, r.value.start, r.value.value)
    ensures r.Some? ==> forall p': nat, q: nat | p <= p' < r.value.start :: !IsSessionMatch(s, p', q)
    ensures r.None? ==> forall p': nat, q: nat | p <= p' :: !IsSessionMatch(s, p', q)
    decreases |s| - p
  {
    if p == |s| then None
    else
      match SessionMatchAt(s, p)
      case Some(q) => Some(Found(p, q))
      case None => FindSession(s, p + 1)
  }

  /** The captured session value, `m[1]`, or `None` when the expression does not match. */
  function SessionValue(s: string): Option<string>
  {
    match FindSession(s, 0)
    case None => None
    case Some(m) => Some(s[m.value..RunEnd(s, m.value)])
  }

  /**
   * What `SessionValue` captures: a non-empty run without `;` that follows
   * the leftmost `session=` occurring at the start or after `;` and white
   * space, and that runs up to the next `;` or the end.
   */
  lemma SessionValueSpec(s: string)
    ensures SessionValue(s).None? <==> forall p: nat, q: nat :: !IsSessionMatch(s, p, q)
    ensures SessionValue(s).Some? ==>
      exists p: nat, q: nat :: IsSessionMatch(s, p, q)
        && (forall p': nat, q': nat | p' < p :: !IsSessionMatch(s, p', q'))
        && SessionValue(s).value == s[q..RunEnd(s, q)]
    ensures SessionValue(s).Some? ==>
      var v := SessionValue(s).value;
      v != [] && forall k | 0 <= k < |v| :: v[k] != ';'
  {
    match FindSession(s, 0)
    case None =>
    case Some(m) =>
      var v := s[m.value..RunEnd(s, m.value)];
      assert v[0] == s[m.value];
      assert forall k | 0 <= k < |v| :: v[k] == s[m.value + k];
  }

  /** A cookie whose name merely ends in `session`, such as `mysession=x`, is not picked up. */
  lemma SuffixNameIgnored()
    ensures SessionValue("mysession=x") == None
  {
    var s := "mysession=x";
    if CiPrefixAt(s, 0, SessionName) {
      CiPrefixHead(s, 0, SessionName);
    }
    NoSemicolonNoLateMatch(s, 0);
  }

  /** Without any `;`, only a `session=` at the very start can match. */
  lemma {:induction false} NoSemicolonNoLateMatch(s: string, p: nat)
    requires p <= |s| && forall k | 0 <= k < |s| :: s[k] != ';'
    requires p == 0 ==> !CiPrefixAt(s, 0, SessionName)
    ensures FindSession(s, p) == None
    decreases |s| - p
  {
    if p < |s| {
      assert SessionMatchAt(s, p) == None;
      NoSemicolonNoLateMatch(s, p + 1);
    }
  }

  // ---------------------------------------------------------------- max-age=

  /** The max-age regular expression (unanchored) matches at `p`. */
  predicate IsMaxAgeMatch(s: string, p: nat)
  {
    p + 8 < |s| && CiPrefixAt(s, p, MaxAgeName) && s[p + 8] != ';'
  }

  /** `exec` of the max-age expression from `p` on: the leftmost match. */
  function FindMaxAge(s: string, p: nat): (r: Option<nat>)
    requires p <= |s|
    ensures r.Some? ==> p <= r.value && IsMaxAgeMatch(s, r.value)
    ensures r.Some? ==> forall p': nat | p <= p' < r.value :: !IsMaxAgeMatch(s, p')
    ensures r.None? ==> forall p': nat | p <= p' :: !IsMaxAgeMatch(s, p')
    decreases |s| - p
  {
    if p == |s| then None
    else if IsMaxAgeMatch(s, p) then Some(p)
    else FindMaxAge(s, p + 1)
  }

  /** The captured max-age value, `exec(...)?.[1]`. */
  function MaxAgeValue(s: string): (r: Option<string>)
    ensures r.None? <==> forall p: nat :: !IsMaxAgeMatch(s, p)
    ensures r.Some? ==>
      exists p: nat :: IsMaxAgeMatch(s, p)
        && (forall p': nat | p' < p :: !IsMaxAgeMatch(s, p'))
        && r.value == s[p + 8..RunEnd(s, p + 8)]
    ensures r.Some? ==> r.value != [] && forall k | 0 <= k < |r.value| :: r.value[k] != ';'
  {
    match FindMaxAge(s, 0)
    case None => None
    case Some(p) =>
      var v := s[p + 8..RunEnd(s, p + 8)];
      assert v[0] == s[p + 8];
      assert forall k | 0 <= k < |v| :: v[k] == s[p + 8 + k];
      Some(v)
  }

  // ---------------------------------------------------------------- the route

  /** The rebuilt cookie for a session value and an optional raw max-age. */
  function SessionCookie(v: string, maxAge: Option<string>): string
  {
    SessionName + v + CookieAttributes + (if maxAge.Some? then "; Max-Age=" + maxAge.value else "")
  }

  /**
   * The cookie the route appends, if any: none without a `set-cookie`
   * header (or with an empty one) and none without a session match, even
   * when a max-age is present.
   */
  function RewriteCookie(setCookie: Option<string>): (r: Option<string>)
    ensures r.Some? <==> setCookie.Some? && SessionValue(setCookie.value).Some?
    ensures r.Some? ==>
      r.value == SessionCookie(SessionValue(setCookie.value).value, MaxAgeValue(setCookie.value))
  {
    if setCookie.None? || setCookie.value == "" then None
    else
      match SessionValue(setCookie.value)
      case None => None
      case Some(v) => Some(SessionCookie(v, MaxAgeValue(setCookie.value)))
  }

  /** A max-age without a session yields no cookie at all. */
  lemma MaxAgeAloneNoCookie()
    ensures MaxAgeValue("Max-Age=60").Some?
    ensures RewriteCookie(Some("Max-Age=60")) == None
  {
    var s := "Max-Age=60";
    assert IsMaxAgeMatch(s, 0) by {
      forall k | 0 <= k < 8 ensures LowerChar(s[0 + k]) == MaxAgeName[k] {
      }
    }
    if CiPrefixAt(s, 0, SessionName) {
      CiPrefixHead(s, 0, SessionName);
    }
    NoSemicolonNoLateMatch(s, 0);
  }

  /** The route's reply: the upstream status and JSON body, plus the rebuilt cookie. */
  datatype SessionReply = SessionReply(status: int, data: string, cookie: Option<string>)

  /**
   * `POST`: `status` and `data` are the upstream response's status and
   * JSON body, `setCookie` its `set-cookie` header.
   */
  function SessionPost(status: int, data: string, setCookie: Option<string>): (r: SessionReply)
    ensures r.status == status && r.data == data
    ensures r.cookie == RewriteCookie(setCookie)
    ensures setCookie.None? ==> r.cookie.None?
    ensures r.cookie.Some? ==> SessionValue(r.cookie.value) == SessionValue(setCookie.value)
  {
    var cookie := RewriteCookie(setCookie);
    if cookie.Some? then
      RewriteRoundTrip(setCookie.value);
      SessionReply(status, data, cookie)
    else
      SessionReply(status, data, cookie)
  }

  /**
   * Reading the session back from the rebuilt cookie gives the captured
   * value: the rewrite keeps the session intact.
   */
  lemma CookieRoundTrip(v: string, maxAge: Option<string>)
    requires v != [] && forall k | 0 <= k < |v| :: v[k] != ';'
    ensures SessionValue(SessionCookie(v, maxAge)) == Some(v)
  {
    var c := SessionCookie(v, maxAge);
    var rest := CookieAttributes + (if maxAge.Some? then "; Max-Age=" + maxAge.value else "");
    assert c == SessionName + v + rest;
    assert c[8] == v[0];
    assert CiPrefixAt(c, 0, SessionName) by {
      forall k | 0 <= k < 8 ensures LowerChar(c[k]) == SessionName[k] {
        assert c[k] == SessionName[k];
      }
    }
    assert SessionMatchAt(c, 0) == Some(8);
    forall k | 8 <= k < 8 + |v| ensures c[k] != ';' {
      assert c[k] == v[k - 8];
    }
    assert c[8 + |v|] == ';';
    RunEndUnique(c, 8, 8 + |v|);
    assert c[8..8 + |v|] == v;
  }

  /** Re-parsing the rebuilt cookie finds the session value of the upstream header. */
  lemma RewriteRoundTrip(setCookie: string)
    requires RewriteCookie(Some(setCookie)).Some?
    ensures SessionValue(RewriteCookie(Some(setCookie)).value) == SessionValue(setCookie)
  {
    SessionValueSpec(setCookie);
    CookieRoundTrip(SessionValue(setCookie).value, MaxAgeValue(setCookie));
  }
}
