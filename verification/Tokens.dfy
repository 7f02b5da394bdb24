/**
 Access tokens and the decision to accept one (server/src/lib/tokens.ts,
 server/src/middleware/authenticate.ts).

 Signing and signature checks are not modelled: a claim set is what is left of a token whose
 signature, issuer, audience and type were already found good. Times in claims are whole seconds,
 every other time is in milliseconds.
 */
module Tokens {
  import opened Wrappers
  import opened Sessions

  datatype User = User(passwordChangedAt: int)

  datatype Claims = Claims(sub: UserId, sid: SessionId, iat: int, exp: int)

  datatype AuthFailure = TokenExpired | TokenInvalid | SessionEnded

  /** Whole seconds, rounded down: the divisor is positive, so Dafny's division is Math.floor. */
  function Seconds(ms: int): int {
    ms / 1000
  }

  function Sign(user: UserId, session: SessionId, now: int, ttl: nat): Claims {
    Claims(user, session, Seconds(now), Seconds(now) + ttl)
  }

  /** The JWT library compares whole seconds and rejects a token on or after its `exp`. */
  predicate Expired(claims: Claims, now: int) {
    Seconds(now) >= claims.exp
  }

  predicate OldEnough(claims: Claims, user: User) {
    claims.iat >= Seconds(user.passwordChangedAt)
  }

  /** The decision once the user and the session row have been loaded. */
  function Judge(claims: Claims, user: User, session: Option<Session>, now: int): Result<(), AuthFailure> {
    if session.None?
       || session.value.userId != claims.sub
       || session.value.revokedAt.Some?
       || session.value.expiresAt <= now
    then Err(SessionEnded)
    else if !OldEnough(claims, user) then Err(TokenInvalid)
    else Ok(())
  }

  /** The rows "where you are signed in" shows. */
  function ListActive(t: Table, user: UserId, now: int): set<SessionId> {
    set id | id in t && t[id].userId == user && t[id].revokedAt.None? && t[id].expiresAt > now
  }

  /** The signed-in list shows exactly the sessions a fresh enough token would be accepted for. */
  lemma ListedSessionsAreTheAcceptedOnes(t: Table, claims: Claims, user: User, now: int)
    requires OldEnough(claims, user)
    ensures Judge(claims, user, FindById(t, claims.sid), now).Ok? <==> claims.sid in ListActive(t, claims.sub, now)
    ensures claims.sid in t ==>
              (claims.sid in ListActive(t, t[claims.sid].userId, now) <==> t[claims.sid].IsActive(now))
    ensures claims.sid in ListActive(t, claims.sub, now)
            <==> claims.sid in t && t[claims.sid].userId == claims.sub && t[claims.sid].revokedAt.None?
                 && now < t[claims.sid].expiresAt
  {
  }

  /**
   Why a token is turned away once its rows are loaded: SESSION_INVALID exactly when its session is
   not on the list of the user it names, TOKEN_INVALID exactly when it is but the token is too old.
   TOKEN_EXPIRED, which makes the client refresh, is never the reason here.
   */
  lemma JudgeSaysWhy(t: Table, claims: Claims, user: User, now: int)
    ensures var verdict := Judge(claims, user, FindById(t, claims.sid), now);
            && (verdict == Err(SessionEnded) <==> claims.sid !in ListActive(t, claims.sub, now))
            && (verdict == Err(TokenInvalid) <==>
                  claims.sid in ListActive(t, claims.sub, now) && !OldEnough(claims, user))
            && verdict != Err(TokenExpired)
  {
  }

  /**
   A token minted at `t` is good until the second its lifetime ends, counted from the start of the
   second it was minted in: never as late as `t` plus the lifetime, always up to a second short.
   */
  lemma AccessWindow(user: UserId, session: SessionId, t: int, ttl: nat, later: int)
    ensures var token := Sign(user, session, t, ttl);
            && (!Expired(token, later) <==> later < 1000 * (t / 1000 + ttl))
            && (!Expired(token, later) ==> later < t + 1000 * ttl)
            && (later - t <= 1000 * (ttl - 1) ==> !Expired(token, later))
  {
    assert t - 1000 < 1000 * (t / 1000) <= t;
  }

  /**
   A token passes the age check exactly when it was minted at or after the start of the second
   the password changed in. So minting at or after the change always passes, and minting a full
   second before it never does.
   */
  lemma AgeCheck(user: UserId, session: SessionId, t: int, ttl: nat, changed: int)
    ensures var token := Sign(user, session, t, ttl);
            && (OldEnough(token, User(changed)) <==> t >= 1000 * (changed / 1000))
            && (t >= changed ==> OldEnough(token, User(changed)))
            && (t <= changed - 1000 ==> !OldEnough(token, User(changed)))
  {
    assert changed - 1000 < 1000 * (changed / 1000) <= changed;
  }

  /**
   The security notes say a token minted before a password change is dead. The code compares
   whole seconds, so one minted earlier in the same second is still young enough.
   */
  lemma SameSecondTokenSurvives()
    ensures var minted, changed := 1000, 1999;
            minted < changed && OldEnough(Sign(1, 1, minted, 900), User(changed))
  {
  }
}
