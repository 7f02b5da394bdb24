/**
 What each request is answered when nothing fails and nothing comes between its turns, and exactly
 what it leaves behind: every row, every user and every other process.
 */
module Answers {
  import opened Wrappers
  import opened Sessions
  import opened Chains
  import opened Tokens
  import opened Handlers
  import opened Runs
  import opened SessionSafety

  /** The request arrives and takes `n` turns. */
  ghost function After(s: State, pid: Pid, request: Request, c: Choice, n: nat): State {
    Turns(Next(s, Arrive(pid, request)), pid, c, n)
  }

  /** In `t'` the chosen rows, if live, have been revoked at `now` for `reason`; no other row changed. */
  ghost predicate RevokedOnly(t: Table, t': Table, chosen: set<SessionId>, reason: Reason, now: int) {
    && t'.Keys == t.Keys
    && forall id :: id in t ==>
         t'[id] == if id in chosen && t[id].Live() then t[id].(revokedAt := Some(now), revokedReason := Some(reason))
                   else t[id]
  }

  function FamilyOf(t: Table, f: FamilyId): set<SessionId> {
    set id | id in t && t[id].familyId == f
  }

  function SessionsOf(t: Table, user: UserId): set<SessionId> {
    set id | id in t && t[id].userId == user
  }

  lemma Arrived(s: State, pid: Pid, request: Request, c: Choice, n: nat)
    requires pid !in s.procs
    ensures After(s, pid, request, c, n) == Turns(With(s, pid, Start(request)), pid, c, n)
  {
  }

  /** A turn that runs no statement and changes no user moves only its process. */
  lemma TurnBy(s: State, pid: Pid, p: Proc, c: Choice, n: nat)
    requires pid !in s.procs && Resume(With(s, pid, p), p, c).statement == Skip
    requires Resume(With(s, pid, p), p, c).users == s.users
    ensures Turns(With(s, pid, p), pid, c, n + 1)
            == Turns(With(s, pid, Resume(With(s, pid, p), p, c).next), pid, c, n)
  {
    var now, next := With(s, pid, p), With(s, pid, Resume(With(s, pid, p), p, c).next);
    assert Next(now, Run(pid, c)) == next;
  }

  /** An answered process takes no further part. */
  lemma {:induction false} Rests(s: State, pid: Pid, answer: Answer, c: Choice, n: nat)
    requires pid !in s.procs
    ensures Turns(With(s, pid, Done(answer)), pid, c, n) == With(s, pid, Done(answer))
    decreases n
  {
    if n == 0 {
    } else {
      TurnBy(s, pid, Done(answer), c, n - 1);
      Rests(s, pid, answer, c, n - 1);
    }
  }

  // ---- Refresh and logout -----------------------------------------------------------------------

  /** Without a cookie a refresh clears what is not there, and a logout succeeds. */
  lemma NoCookie(s: State, pid: Pid, c: Choice)
    requires pid !in s.procs && !c.fails
    ensures After(s, pid, RefreshRequest(None), c, 1) == With(s, pid, Done(SessionCleared))
    ensures After(s, pid, LogoutRequest(None), c, 1) == With(s, pid, Done(LoggedOut))
  {
    Arrived(s, pid, RefreshRequest(None), c, 1);
    Arrived(s, pid, LogoutRequest(None), c, 1);
    TurnBy(s, pid, RefreshArrived(None), c, 0);
    TurnBy(s, pid, LogoutArrived(None), c, 0);
  }

  /** After the first turn the handler holds what the lookup found. */
  lemma LooksUp(s: State, pid: Pid, token: Token, c: Choice, n: nat)
    requires pid !in s.procs && !c.fails
    ensures After(s, pid, RefreshRequest(Some(token)), c, n + 1)
            == Turns(With(s, pid, RefreshLooked(FindByToken(s.sessions, token))), pid, c, n)
    ensures After(s, pid, LogoutRequest(Some(token)), c, n + 1)
            == Turns(With(s, pid, LogoutLooked(FindByToken(s.sessions, token))), pid, c, n)
  {
    Arrived(s, pid, RefreshRequest(Some(token)), c, n + 1);
    Arrived(s, pid, LogoutRequest(Some(token)), c, n + 1);
    TurnBy(s, pid, RefreshArrived(Some(token)), c, n);
    TurnBy(s, pid, LogoutArrived(Some(token)), c, n);
  }

  /** A token no session has is answered SESSION_INVALID by a refresh and 204 by a logout. */
  lemma UnknownToken(s: State, pid: Pid, token: Token, c: Choice)
    requires pid !in s.procs && !c.fails
    requires forall id :: id in s.sessions ==> s.sessions[id].tokenHash != Sha256(token)
    ensures After(s, pid, RefreshRequest(Some(token)), c, 2) == With(s, pid, Done(SessionCleared))
    ensures After(s, pid, LogoutRequest(Some(token)), c, 2) == With(s, pid, Done(LoggedOut))
  {
    LooksUp(s, pid, token, c, 1);
    TurnBy(s, pid, RefreshLooked(None), c, 0);
    TurnBy(s, pid, LogoutLooked(None), c, 0);
  }

  /** A live session that ran out: SESSION_INVALID, cookie cleared, nothing revoked. */
  lemma ExpiredSession(s: State, pid: Pid, id: SessionId, token: Token, c: Choice)
    requires Inv(s) && pid !in s.procs && !c.fails
    requires id in s.sessions && s.sessions[id].tokenHash == Sha256(token)
    requires s.sessions[id].Live() && s.sessions[id].expiresAt <= s.clock
    ensures After(s, pid, RefreshRequest(Some(token)), c, 2) == With(s, pid, Done(SessionCleared))
  {
    LookupIsTheRow(s, id, token);
    LooksUp(s, pid, token, c, 1);
    TurnBy(s, pid, RefreshLooked(Some(s.sessions[id])), c, 0);
  }

  /**
   A revoked session, whatever revoked it and whether or not it ran out: SESSION_REVOKED, every live
   session of its family revoked for reuse, and no other row touched.
   */
  lemma RevokedSessionBurns(s: State, pid: Pid, id: SessionId, token: Token, c: Choice)
    requires Inv(s) && pid !in s.procs && !c.fails
    requires id in s.sessions && s.sessions[id].tokenHash == Sha256(token) && s.sessions[id].revokedAt.Some?
    ensures var s', f := After(s, pid, RefreshRequest(Some(token)), c, 3), s.sessions[id].familyId;
            && s' == With(s, pid, Done(FamilyBurned(f))).(sessions := s'.sessions)
            && RevokedOnly(s.sessions, s'.sessions, FamilyOf(s.sessions, f), ReuseDetected, s.clock)
            && Dead(s'.sessions, f)
  {
    var row := s.sessions[id];
    LookupIsTheRow(s, id, token);
    LooksUp(s, pid, token, c, 2);
    TurnBy(s, pid, RefreshLooked(Some(row)), c, 1);
    Burns(s, pid, row, c);
    BurnedIsDead(s.sessions, After(s, pid, RefreshRequest(Some(token)), c, 3).sessions, id, s.clock);
  }

  lemma Burns(s: State, pid: Pid, row: Session, c: Choice)
    requires pid !in s.procs && !c.fails
    ensures var s', f := Turns(With(s, pid, RefreshBurning(row)), pid, c, 1), row.familyId;
            && s' == With(s, pid, Done(FamilyBurned(f))).(sessions := s'.sessions)
            && RevokedOnly(s.sessions, s'.sessions, FamilyOf(s.sessions, f), ReuseDetected, s.clock)
  {
    var before := With(s, pid, RefreshBurning(row));
    assert Turns(before, pid, c, 1) == Turns(Next(before, Run(pid, c)), pid, c, 0);
  }

  lemma BurnedIsDead(t: Table, t': Table, id: SessionId, now: int)
    requires id in t && RevokedOnly(t, t', FamilyOf(t, t[id].familyId), ReuseDetected, now)
    ensures Dead(t', t[id].familyId)
  {
    assert InFamily(t', id, t[id].familyId);
  }

  /** A logout revokes the one session presented, if it is live, and touches no other. */
  lemma LogoutRevokesOne(s: State, pid: Pid, id: SessionId, token: Token, c: Choice)
    requires Inv(s) && pid !in s.procs && !c.fails
    requires id in s.sessions && s.sessions[id].tokenHash == Sha256(token)
    ensures var s' := After(s, pid, LogoutRequest(Some(token)), c, 2);
            && s' == With(s, pid, Done(LoggedOut)).(sessions := s'.sessions)
            && RevokedOnly(s.sessions, s'.sessions, {id}, Reason.Logout, s.clock)
  {
    LookupIsTheRow(s, id, token);
    RowFacts(s);
    LooksUp(s, pid, token, c, 1);
    Leaves(s, pid, s.sessions[id], c);
  }

  lemma Leaves(s: State, pid: Pid, row: Session, c: Choice)
    requires pid !in s.procs && !c.fails && row.id in s.sessions && s.sessions[row.id] == row
    ensures var s' := Turns(With(s, pid, LogoutLooked(Some(row))), pid, c, 1);
            && s' == With(s, pid, Done(LoggedOut)).(sessions := s'.sessions)
            && RevokedOnly(s.sessions, s'.sessions, {row.id}, Reason.Logout, s.clock)
  {
    var before := With(s, pid, LogoutLooked(Some(row)));
    assert Turns(before, pid, c, 1) == Turns(Next(before, Run(pid, c)), pid, c, 0);
  }

  // ---- Authenticate -------------------------------------------------------------------------------

  /**
   Four turns decide a bearer request and change nothing else: TOKEN_EXPIRED exactly when its token
   is past its expiry; SESSION_INVALID exactly when its user exists but its session is not on the
   user's list; TOKEN_INVALID exactly when there is no user, or the token is too old; and otherwise
   it is let in as the user and session it names.
   */
  lemma BearerVerdict(s: State, pid: Pid, claims: Claims, action: Action, c: Choice)
    requires pid !in s.procs && !c.fails
    ensures var s' := After(s, pid, BearerRequest(claims, action), c, 4);
            var known := !Expired(claims, s.clock) && claims.sub in s.users;
            var listed := claims.sid in ListActive(s.sessions, claims.sub, s.clock);
            && pid in s'.procs && s' == With(s, pid, s'.procs[pid])
            && (s'.procs[pid] == Done(Unauthorized(TokenExpired)) <==> Expired(claims, s.clock))
            && (s'.procs[pid] == Done(Unauthorized(SessionEnded)) <==> known && !listed)
            && (s'.procs[pid] == Done(Unauthorized(TokenInvalid)) <==>
                  !Expired(claims, s.clock)
                  && (claims.sub !in s.users || (listed && !OldEnough(claims, s.users[claims.sub]))))
            && (s'.procs[pid] == BearerAccepted(claims.sub, claims.sid, action) <==>
                  known && listed && OldEnough(claims, s.users[claims.sub]))
  {
    if Expired(claims, s.clock) {
      ExpiredOnArrival(s, pid, claims, action, c);
    } else if claims.sub !in s.users {
      Verifies(s, pid, claims, action, c);
      NobodyKnown(s, pid, claims, action, c);
    } else {
      Verifies(s, pid, claims, action, c);
      UserKnown(s, pid, claims, action, c);
      RowsDecide(s, pid, claims, action, s.users[claims.sub], c);
    }
  }

  lemma ExpiredOnArrival(s: State, pid: Pid, claims: Claims, action: Action, c: Choice)
    requires pid !in s.procs && !c.fails && Expired(claims, s.clock)
    ensures After(s, pid, BearerRequest(claims, action), c, 4) == With(s, pid, Done(Unauthorized(TokenExpired)))
  {
    Arrived(s, pid, BearerRequest(claims, action), c, 4);
    TurnBy(s, pid, BearerArrived(claims, action), c, 3);
    Rests(s, pid, Unauthorized(TokenExpired), c, 3);
  }

  lemma Verifies(s: State, pid: Pid, claims: Claims, action: Action, c: Choice)
    requires pid !in s.procs && !c.fails && !Expired(claims, s.clock)
    ensures After(s, pid, BearerRequest(claims, action), c, 4)
            == Turns(With(s, pid, BearerVerified(claims, action)), pid, c, 3)
  {
    Arrived(s, pid, BearerRequest(claims, action), c, 4);
    TurnBy(s, pid, BearerArrived(claims, action), c, 3);
  }

  lemma NobodyKnown(s: State, pid: Pid, claims: Claims, action: Action, c: Choice)
    requires pid !in s.procs && !c.fails && claims.sub !in s.users
    ensures Turns(With(s, pid, BearerVerified(claims, action)), pid, c, 3)
            == With(s, pid, Done(Unauthorized(TokenInvalid)))
  {
    TurnBy(s, pid, BearerVerified(claims, action), c, 2);
    Rests(s, pid, Unauthorized(TokenInvalid), c, 2);
  }

  lemma UserKnown(s: State, pid: Pid, claims: Claims, action: Action, c: Choice)
    requires pid !in s.procs && !c.fails && claims.sub in s.users
    ensures Turns(With(s, pid, BearerVerified(claims, action)), pid, c, 3)
            == Turns(With(s, pid, BearerUser(claims, action, s.users[claims.sub])), pid, c, 2)
  {
    TurnBy(s, pid, BearerVerified(claims, action), c, 2);
  }

  lemma RowsDecide(s: State, pid: Pid, claims: Claims, action: Action, user: User, c: Choice)
    requires pid !in s.procs && !c.fails
    ensures var p := match Judge(claims, user, FindById(s.sessions, claims.sid), s.clock)
                     case Ok(_) => BearerAccepted(claims.sub, claims.sid, action)
                     case Err(failure) => Done(Unauthorized(failure));
            Turns(With(s, pid, BearerUser(claims, action, user)), pid, c, 2) == With(s, pid, p)
    ensures var verdict := Judge(claims, user, FindById(s.sessions, claims.sid), s.clock);
            var listed := claims.sid in ListActive(s.sessions, claims.sub, s.clock);
            && (verdict == Err(SessionEnded) <==> !listed)
            && (verdict == Err(TokenInvalid) <==> listed && !OldEnough(claims, user))
            && (verdict.Ok? <==> listed && OldEnough(claims, user))
            && verdict != Err(TokenExpired)
  {
    TurnBy(s, pid, BearerUser(claims, action, user), c, 1);
    TurnBy(s, pid, BearerSession(claims, action, user, FindById(s.sessions, claims.sid)), c, 0);
    JudgeSaysWhy(s.sessions, claims, user, s.clock);
  }

  // ---- What an accepted request does --------------------------------------------------------------

  lemma ReadOnlyIsServed(s: State, pid: Pid, sub: UserId, sid: SessionId, c: Choice)
    requires pid !in s.procs && !c.fails
    ensures Turns(With(s, pid, BearerAccepted(sub, sid, ReadOnly)), pid, c, 1) == With(s, pid, Done(Served))
  {
    TurnBy(s, pid, BearerAccepted(sub, sid, ReadOnly), c, 0);
  }

  /** Logout-all revokes every live session of the caller's user, and nobody else's. */
  lemma LogoutAllRevokesAll(s: State, pid: Pid, sub: UserId, sid: SessionId, c: Choice)
    requires pid !in s.procs && !c.fails
    ensures var s' := Turns(With(s, pid, BearerAccepted(sub, sid, EndAllSessions)), pid, c, 1);
            && s' == With(s, pid, Done(LoggedOutEverywhere)).(sessions := s'.sessions)
            && RevokedOnly(s.sessions, s'.sessions, SessionsOf(s.sessions, sub), LogoutAll, s.clock)
  {
    var before := With(s, pid, BearerAccepted(sub, sid, EndAllSessions));
    assert Turns(before, pid, c, 1) == Turns(Next(before, Run(pid, c)), pid, c, 0);
  }

  /** A password change dates the password now, and revokes every live session but the caller's. */
  lemma PasswordChangeRevokesOthers(s: State, pid: Pid, sub: UserId, sid: SessionId, c: Choice)
    requires pid !in s.procs && sub in s.users && !c.fails
    ensures var s' := Turns(With(s, pid, BearerAccepted(sub, sid, ChangePassword)), pid, c, 2);
            && s' == With(s, pid, Done(PasswordSet)).(sessions := s'.sessions, users := s.users[sub := User(s.clock)])
            && RevokedOnly(s.sessions, s'.sessions, SessionsOf(s.sessions, sub) - {sid}, PasswordChanged, s.clock)
  {
    var before := With(s, pid, BearerAccepted(sub, sid, ChangePassword));
    var dated := s.(users := s.users[sub := User(s.clock)]);
    assert Next(before, Run(pid, c)) == With(dated, pid, PasswordUpdated(sub, sid));
    assert Turns(before, pid, c, 2) == Turns(With(dated, pid, PasswordUpdated(sub, sid)), pid, c, 1);
    OthersAreRevoked(dated, pid, sub, sid, c);
  }

  lemma OthersAreRevoked(s: State, pid: Pid, sub: UserId, sid: SessionId, c: Choice)
    requires pid !in s.procs && !c.fails
    ensures var s' := Turns(With(s, pid, PasswordUpdated(sub, sid)), pid, c, 1);
            && s' == With(s, pid, Done(PasswordSet)).(sessions := s'.sessions)
            && RevokedOnly(s.sessions, s'.sessions, SessionsOf(s.sessions, sub) - {sid}, PasswordChanged, s.clock)
  {
    var before := With(s, pid, PasswordUpdated(sub, sid));
    assert Turns(before, pid, c, 1) == Turns(Next(before, Run(pid, c)), pid, c, 0);
  }

  /**
   Deleting a session of the caller's user, this device's or another's: 204, that session revoked if
   it was live, and no other row touched. One that is absent or somebody else's: 404 and no change.
   */
  lemma CloseRevokesOne(s: State, pid: Pid, sub: UserId, sid: SessionId, target: SessionId, c: Choice)
    requires Inv(s) && pid !in s.procs && !c.fails
    ensures var s' := Turns(With(s, pid, BearerAccepted(sub, sid, CloseSession(target))), pid, c, 2);
            if target in s.sessions && s.sessions[target].userId == sub then
              && s' == With(s, pid, Done(SessionClosed(target == sid))).(sessions := s'.sessions)
              && RevokedOnly(s.sessions, s'.sessions, {target}, RevokedByUser, s.clock)
            else s' == With(s, pid, Done(NotFound))
  {
    var looked := CloseLooked(sub, sid, FindById(s.sessions, target));
    RowFacts(s);
    TurnBy(s, pid, BearerAccepted(sub, sid, CloseSession(target)), c, 1);
    if target in s.sessions && s.sessions[target].userId == sub {
      Closes(s, pid, sub, sid, s.sessions[target], c);
    } else {
      TurnBy(s, pid, looked, c, 0);
    }
  }

  lemma Closes(s: State, pid: Pid, sub: UserId, sid: SessionId, row: Session, c: Choice)
    requires pid !in s.procs && !c.fails && row.userId == sub
    ensures var s' := Turns(With(s, pid, CloseLooked(sub, sid, Some(row))), pid, c, 1);
            && s' == With(s, pid, Done(SessionClosed(row.id == sid))).(sessions := s'.sessions)
            && RevokedOnly(s.sessions, s'.sessions, {row.id}, RevokedByUser, s.clock)
  {
    var before := With(s, pid, CloseLooked(sub, sid, Some(row)));
    assert Turns(before, pid, c, 1) == Turns(Next(before, Run(pid, c)), pid, c, 0);
  }

  /** A turn that fails leaves every table as it was; a rotation that fails is rolled back. */
  lemma FailingTurnChangesNothing(s: State, pid: Pid, c: Choice)
    requires pid in s.procs && c.fails
    ensures var s' := Next(s, Run(pid, c));
            s' == With(s, pid, s'.procs[pid])
  {
    var p := s.procs[pid];
    assert p.RefreshStamped? ==> RotateResult(s.sessions, Resume(s, p, c).statement, s.cfg.refreshTtl).Err?;
  }

  /** A process at the point where CSRF, a rate limit, validation or a wrong password can refuse it. */
  predicate AtTheDoor(p: Proc) {
    p.RefreshArrived? || p.LogoutArrived? || p.BearerArrived? || p.BearerAccepted?
  }

  /** A process whose next turn is a query, or not, depending on the row it holds. */
  predicate Queries(p: Proc) {
    match p
    case RefreshBurning(_) => true
    case RefreshChecked(_) => true
    case LogoutLooked(found) => found.Some? && found.value.Live()
    case BearerVerified(_, _) => true
    case BearerUser(_, _, _) => true
    case PasswordUpdated(_, _) => true
    case CloseLooked(sub, _, found) => found.Some? && found.value.userId == sub
    case _ => false
  }

  /**
   A failing turn refuses a request at the door and answers 500 to one whose query failed; a rotation
   that fails answers 500 too, unless its session is already lost; elsewhere nothing can fail. And no
   other turn refuses, or answers 500 but for a rotation whose new row is refused by a constraint.
   */
  lemma FailuresAreAnswered(s: State, pid: Pid, c: Choice)
    requires pid in s.procs && !s.procs[pid].Done?
    ensures var p, next := s.procs[pid], Next(s, Run(pid, c)).procs[pid];
            && (next == Done(Refused) <==> c.fails && AtTheDoor(p))
            && (!p.RefreshStamped? ==> (next == Done(ServerError) <==> c.fails && Queries(p)))
            && (p.RefreshStamped? && c.fails ==> next in {Done(ServerError), Done(SessionLost)})
  {
    var p := s.procs[pid];
    if RefreshPhase(p) {
      assert Resume(s, p, c) == RefreshTurn(s, p, c);
    } else if LogoutPhase(p) {
      assert Resume(s, p, c) == LogoutTurn(s, p, c);
    } else if AuthenticatePhase(p) {
      assert Resume(s, p, c) == AuthenticateTurn(s, p, c);
    } else {
      assert Resume(s, p, c) == ActionTurn(s, p, c);
    }
  }
}
