/**
  * The in-memory session store behind PIN-gated bearer authentication: a map
  * from token to session, with open, validate, revoke and a purge of expired
  * entries. The clock reading and the freshly generated token are parameters.
  */
module SessionManager {
  import opened Wrappers

  /** A session, stored under its own token; times are milliseconds since the epoch. */
  datatype Session = Session(token: string, createdAt: int, expiresAt: int)

  type SessionMap = map<string, Session>

  /** What the store reads from the configuration: SESSION_PIN (optional) and SESSION_TTL_SECONDS. */
  datatype SessionConfig = SessionConfig(sessionPin: Option<string>, sessionTtlSeconds: int)

  /** The store after an operation, together with the session the operation returned (or null). */
  datatype StoreStep = StoreStep(sessions: SessionMap, session: Option<Session>)

  /** Every entry is stored under its own token. */
  ghost predicate KeyedByToken(m: SessionMap) {
    forall t :: t in m ==> m[t].token == t
  }

  /** Lazy and swept expiry both use a strict comparison: a session is still good at `expiresAt`. */
  predicate Expired(s: Session, now: int) {
    s.expiresAt < now
  }

  /** A PIN is required only when one is configured and non-empty; then it must match exactly. */
  predicate PinAccepted(sessionPin: Option<string>, pin: string) {
    !(sessionPin.Some? && sessionPin.value != "" && sessionPin.value != pin)
  }

  /** `openSession(pin)` at time `now`, with `token` as the value `randomUUID()` produced. */
  function Open(m: SessionMap, config: SessionConfig, pin: string, now: int, token: string): (r: StoreStep)
    ensures r.session.Some? <==> PinAccepted(config.sessionPin, pin)
    ensures r.session.None? ==> r.sessions == m
    ensures r.session.Some? ==>
      && r.session.value == Session(token, now, now + config.sessionTtlSeconds * 1000)
      && r.sessions == m[token := r.session.value]
  {
    if !PinAccepted(config.sessionPin, pin) then StoreStep(m, None)
    else
      var s := Session(token, now, now + config.sessionTtlSeconds * 1000);
      StoreStep(m[token := s], Some(s))
  }

  /** `validateToken(token)` at time `now`; an absent token is `None`. */
  function Validate(m: SessionMap, token: Option<string>, now: int): (r: StoreStep)
    ensures r.session.Some? <==> token.Some? && token.value != "" && token.value in m && !Expired(m[token.value], now)
    ensures r.session.Some? ==> r.session.value == m[token.value] && r.sessions == m
    ensures r.sessions == m || (token.Some? && token.value in m && Expired(m[token.value], now) && r.sessions == m - {token.value})
  {
    if token.None? || token.value == "" then StoreStep(m, None)
    else if token.value !in m then StoreStep(m, None)
    else if Expired(m[token.value], now) then StoreStep(m - {token.value}, None)
    else StoreStep(m, Some(m[token.value]))
  }

  /** `revokeToken(token)`: deleting an absent key is a no-op. */
  function Revoke(m: SessionMap, token: string): (r: SessionMap)
    ensures token !in r
    ensures forall t :: t != token ==> (t in r <==> t in m)
    ensures forall t :: t in r ==> r[t] == m[t]
  {
    m - {token}
  }

  /** `purgeExpiredSessions()` at time `now`: exactly the expired entries go, the others stay as they were. */
  function Purged(m: SessionMap, now: int): (r: SessionMap)
    ensures forall t :: t in r <==> t in m && !Expired(m[t], now)
    ensures forall t :: t in r ==> r[t] == m[t]
  {
    map t | t in m && !Expired(m[t], now) :: m[t]
  }

  class SessionStore {
    var sessions: SessionMap
    const config: SessionConfig

    ghost predicate Valid()
      reads this
    {
      KeyedByToken(sessions)
    }

    constructor (config: SessionConfig)
      ensures Valid() && this.config == config && sessions == map[]
    {
      this.config := config;
      sessions := map[];
    }

    /** Source: sessionManager.ts `openSession`; `freshToken` is the value `randomUUID()` returned. */
    method OpenSession(pin: string, now: int, freshToken: string) returns (session: Option<Session>)
      requires Valid()
      requires freshToken != "" && freshToken !in sessions
      modifies this
      ensures Valid()
      ensures StoreStep(sessions, session) == Open(old(sessions), config, pin, now, freshToken)
    {
      if config.sessionPin.Some? && config.sessionPin.value != "" && config.sessionPin.value != pin {
        return None;
      }
      var s := Session(freshToken, now, now + config.sessionTtlSeconds * 1000);
      sessions := sessions[freshToken := s];
      session := Some(s);
    }

    /** Source: sessionManager.ts `validateToken`, with one clock reading `now`. */
    method ValidateToken(token: Option<string>, now: int) returns (session: Option<Session>)
      requires Valid()
      modifies this
      ensures Valid()
      ensures StoreStep(sessions, session) == Validate(old(sessions), token, now)
    {
      if token.None? || token.value == "" {
        return None;
      }
      var t := token.value;
      if t !in sessions {
        return None;
      }
      if sessions[t].expiresAt < now {
        sessions := sessions - {t};
        return None;
      }
      session := Some(sessions[t]);
    }

    /** Source: sessionManager.ts `revokeToken`. */
    method RevokeToken(token: string)
      requires Valid()
      modifies this
      ensures Valid()
      ensures sessions == Revoke(old(sessions), token)
    {
      sessions := sessions - {token};
    }

    /**
      * Source: sessionManager.ts `purgeExpiredSessions`: one clock reading, then a
      * pass over the entries that deletes each expired one as it is visited.
      */
    method PurgeExpiredSessions(now: int)
      requires Valid()
      modifies this
      ensures Valid()
      ensures sessions == Purged(old(sessions), now)
    {
      var toVisit := sessions.Keys;
      while toVisit != {}
        invariant toVisit <= old(sessions).Keys
        invariant forall t :: t in sessions <==>
          t in old(sessions) && (t in toVisit || !Expired(old(sessions)[t], now))
        invariant forall t :: t in sessions ==> sessions[t] == old(sessions)[t]
        decreases toVisit
      {
        var t :| t in toVisit;
        if sessions[t].expiresAt < now {
          sessions := sessions - {t};
        }
        toVisit := toVisit - {t};
      }
    }
  }

  /** Every store operation keeps each entry under its own token. */
  lemma OperationsKeepKeys(m: SessionMap, config: SessionConfig, pin: string, now: int, token: string, t: Option<string>)
    requires KeyedByToken(m)
    ensures KeyedByToken(Open(m, config, pin, now, token).sessions)
    ensures KeyedByToken(Validate(m, t, now).sessions)
    ensures KeyedByToken(Revoke(m, token))
    ensures KeyedByToken(Purged(m, now))
  {
  }

  /** A wrong PIN against a configured one opens nothing and leaves the store alone. */
  lemma WrongPinRejected(m: SessionMap, config: SessionConfig, pin: string, now: int, token: string)
    requires config.sessionPin.Some? && config.sessionPin.value != "" && config.sessionPin.value != pin
    ensures Open(m, config, pin, now, token) == StoreStep(m, None)
  {
  }

  /** Without a configured PIN (absent or empty) every PIN opens a session. */
  lemma OpenModeAcceptsAnyPin(m: SessionMap, config: SessionConfig, pin: string, now: int, token: string)
    requires config.sessionPin.None? || config.sessionPin.value == ""
    ensures Open(m, config, pin, now, token).session.Some?
  {
  }

  /**
    * A successful open creates a session at `now` whose lifetime is the configured
    * TTL in milliseconds, stored under its own token, with every other entry kept.
    */
  lemma OpenStoresSession(m: SessionMap, config: SessionConfig, pin: string, now: int, token: string)
    requires PinAccepted(config.sessionPin, pin)
    ensures var step := Open(m, config, pin, now, token);
      && step.session.Some?
      && step.session.value.token == token
      && step.session.value.createdAt == now
      && step.session.value.expiresAt - step.session.value.createdAt == config.sessionTtlSeconds * 1000
      && token in step.sessions && step.sessions[token] == step.session.value
      && (forall t :: t != token ==> (t in step.sessions <==> t in m))
      && (forall t :: t != token && t in m ==> step.sessions[t] == m[t])
  {
  }

  /**
    * A freshly opened token validates, at any time up to and including its expiry,
    * to the very session that was returned, and validation leaves the store alone.
    */
  lemma OpenThenValidate(m: SessionMap, config: SessionConfig, pin: string, now: int, token: string, later: int)
    requires PinAccepted(config.sessionPin, pin) && token != ""
    requires later <= now + config.sessionTtlSeconds * 1000
    ensures var first := Open(m, config, pin, now, token);
      Validate(first.sessions, Some(token), later) == StoreStep(first.sessions, first.session)
  {
  }

  /** A missing, empty or unknown token validates to null and changes nothing. */
  lemma ValidateUnknown(m: SessionMap, token: Option<string>, now: int)
    requires token.None? || token.value == "" || token.value !in m
    ensures Validate(m, token, now) == StoreStep(m, None)
  {
  }

  /**
    * Lazy expiry: an expired entry is deleted (and only it) and null returned; a
    * second validation also returns null and changes nothing.
    */
  lemma ValidateExpiredOnce(m: SessionMap, token: string, now: int)
    requires token != "" && token in m && Expired(m[token], now)
    ensures Validate(m, Some(token), now) == StoreStep(m - {token}, None)
    ensures Validate(m - {token}, Some(token), now) == StoreStep(m - {token}, None)
  {
  }

  /** A stored session whose expiry is exactly `now` is still returned. */
  lemma ValidAtExpiryInstant(m: SessionMap, token: string)
    requires token != "" && token in m
    ensures Validate(m, Some(token), m[token].expiresAt) == StoreStep(m, Some(m[token]))
  {
  }

  /** After a revoke, validating that token at any time returns null. */
  lemma RevokeThenValidate(m: SessionMap, token: string, now: int)
    ensures Validate(Revoke(m, token), Some(token), now).session == None
    ensures token !in m ==> Revoke(m, token) == m
  {
  }

  /**
    * The sweep and lazy expiry do not depend on each other: validating against the
    * purged store gives the same answer as against the unpurged one.
    */
  lemma PurgeAgreesWithValidate(m: SessionMap, token: Option<string>, now: int)
    ensures Validate(Purged(m, now), token, now).session == Validate(m, token, now).session
  {
  }

  /**
    * The scenario of a PIN "4242" with a 900-second TTL: a session opened at time 0
    * expires at 900000 ms, is returned at 899999 ms and at 900000 ms, and is gone
    * (and deleted) at 900001 ms.
    */
  lemma PinScenario(m: SessionMap, token: string)
    requires token != ""
    ensures var config := SessionConfig(Some("4242"), 900);
      var first := Open(m, config, "4242", 0, token);
      && first.session == Some(Session(token, 0, 900000))
      && Validate(first.sessions, Some(token), 899999).session == first.session
      && Validate(first.sessions, Some(token), 900000).session == first.session
      && Validate(first.sessions, Some(token), 900001) == StoreStep(first.sessions - {token}, None)
  {
  }
}
