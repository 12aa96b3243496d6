/**
  * The authentication gate in front of the protected routes: it reads an
  * `Authorization: Bearer <token>` header (the scheme of section 2.1 of
  * RFC 6750, here matched case-sensitively), rejects a missing or
  * differently-prefixed header without touching the session store, and
  * otherwise accepts exactly when the session store validates the token.
  */
module Auth {
  import opened Wrappers
  import opened JsStrings
  import SessionManager

  const BearerPrefix: string := "Bearer "

  /** How the gate ends a request: one of the two 401 rejections, or `next()` with the session attached. */
  datatype AuthOutcome =
    | MissingBearerToken
    | SessionExpiredOrInvalid
    | Proceed(session: SessionManager.Session)

  /** The token text a header carries: what follows the exact prefix `"Bearer "`, trimmed. */
  function BearerToken(header: Option<string>): (r: Option<string>)
    ensures r.Some? <==> header.Some? && StartsWith(header.value, BearerPrefix)
    ensures r.Some? ==> r.value == [] || (!IsWhitespace(r.value[0]) && !IsWhitespace(r.value[|r.value| - 1]))
  {
    if header.Some? && StartsWith(header.value, BearerPrefix)
    then Some(Trim(header.value[|BearerPrefix|..]))
    else None
  }

  /** The gate's decision and the session map it leaves behind (validation may delete an expired entry). */
  function Gate(m: SessionManager.SessionMap, header: Option<string>, now: int): (r: (SessionManager.SessionMap, AuthOutcome))
    ensures r.1.MissingBearerToken? <==> BearerToken(header).None?
    ensures r.1.MissingBearerToken? ==> r.0 == m
    ensures r.1.Proceed? <==> var token := BearerToken(header);
      token.Some? && token.value != "" && token.value in m && !SessionManager.Expired(m[token.value], now)
    ensures r.1.Proceed? ==> r.0 == m && r.1.session == m[BearerToken(header).value]
    ensures r.0 == m || (BearerToken(header).Some? && BearerToken(header).value in m
      && SessionManager.Expired(m[BearerToken(header).value], now) && r.0 == m - {BearerToken(header).value})
  {
    match BearerToken(header)
    case None => (m, MissingBearerToken)
    case Some(token) =>
      var step := SessionManager.Validate(m, Some(token), now);
      (step.sessions, if step.session.None? then SessionExpiredOrInvalid else Proceed(step.session.value))
  }

  /** Source: auth.ts `authMiddleware`; `Proceed` stands for attaching the session and calling `next()` once. */
  method Authenticate(store: SessionManager.SessionStore, header: Option<string>, now: int) returns (outcome: AuthOutcome)
    requires store.Valid()
    modifies store
    ensures store.Valid()
    ensures (store.sessions, outcome) == Gate(old(store.sessions), header, now)
    ensures outcome.Proceed? ==> outcome.session.token == BearerToken(header).value
  {
    if !(header.Some? && StartsWith(header.value, BearerPrefix)) {
      return MissingBearerToken;
    }
    var token := Trim(header.value[|BearerPrefix|..]);
    var session := store.ValidateToken(Some(token), now);
    if session.None? {
      return SessionExpiredOrInvalid;
    }
    outcome := Proceed(session.value);
  }

  /** Without the exact prefix the request is rejected as missing a token and the store is not consulted. */
  lemma NoBearerPrefixRejected(m: SessionManager.SessionMap, header: Option<string>, now: int)
    requires header.None? || !StartsWith(header.value, BearerPrefix)
    ensures Gate(m, header, now) == (m, MissingBearerToken)
  {
  }

  /** The prefix is case-sensitive: a lower-case scheme name counts as no bearer token at all. */
  lemma LowerCaseSchemeRejected(m: SessionManager.SessionMap, rest: string, now: int)
    ensures Gate(m, Some("bearer " + rest), now) == (m, MissingBearerToken)
  {
    assert ("bearer " + rest)[0] == 'b';
  }

  /**
    * The store is asked about the text after the prefix with its surrounding
    * whitespace removed: a live session under that token is accepted and the
    * store is left as it was.
    */
  lemma TokenIsTrimmed(m: SessionManager.SessionMap, w1: string, token: string, w2: string, now: int)
    requires AllWhitespace(w1) && AllWhitespace(w2)
    requires token != [] && !IsWhitespace(token[0]) && !IsWhitespace(token[|token| - 1])
    requires token in m && !SessionManager.Expired(m[token], now)
    ensures Gate(m, Some(BearerPrefix + w1 + token + w2), now) == (m, Proceed(m[token]))
  {
    var header := BearerPrefix + w1 + token + w2;
    assert header[..|BearerPrefix|] == BearerPrefix;
    assert header[|BearerPrefix|..] == w1 + token + w2;
    TrimAround(w1, token, w2);
  }

  /** A prefix followed only by whitespace gives the empty token, which the store rejects as invalid. */
  lemma BlankTokenInvalid(m: SessionManager.SessionMap, w: string, now: int)
    requires AllWhitespace(w)
    ensures Gate(m, Some(BearerPrefix + w), now) == (m, SessionExpiredOrInvalid)
  {
    var header := BearerPrefix + w;
    assert header[..|BearerPrefix|] == BearerPrefix;
    assert header[|BearerPrefix|..] == w;
    TrimAround(w, [], []);
    assert w + [] + [] == w;
  }

  /** A well-formed header whose token the store does not hold, or holds expired, is rejected as invalid. */
  lemma UnknownOrExpiredRejected(m: SessionManager.SessionMap, header: string, now: int)
    requires StartsWith(header, BearerPrefix)
    requires var token := Trim(header[|BearerPrefix|..]);
      token !in m || SessionManager.Expired(m[token], now)
    ensures Gate(m, Some(header), now).1 == SessionExpiredOrInvalid
  {
  }
}
