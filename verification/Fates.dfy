/**
 What becomes of a request over a whole run, whatever else the server does between its turns. The
 answer is determined by how many turns the request has had, by which of them failed, and by what
 the tables said when it arrived.
 */
module Fates {
  import opened Wrappers
  import opened Sessions
  import opened Chains
  import opened Tokens
  import opened Handlers
  import opened Runs
  import opened SessionSafety

  /** For each turn the process had in the run, whether it failed. */
  function Failed(steps: seq<Step>, pid: Pid): seq<bool>
    decreases |steps|
  {
    if steps == [] then []
    else
      var last := steps[|steps| - 1];
      Failed(steps[..|steps| - 1], pid) + if last.Run? && last.pid == pid then [last.choice.fails] else []
  }

  /** The last step of a run, taken apart: either a turn of the process, or no move of it. */
  lemma LastStep(s: State, steps: seq<Step>, pid: Pid) returns (before: State, step: Step)
    requires Inv(s) && steps != [] && pid in Exec(s, steps[..|steps| - 1]).procs
    ensures before == Exec(s, steps[..|steps| - 1]) && step == steps[|steps| - 1]
    ensures Inv(before) && Later(s, before)
    ensures Exec(s, steps) == Next(before, step) && Inv(Next(before, step)) && Later(before, Next(before, step))
    ensures pid in Next(before, step).procs
    ensures if step.Run? && step.pid == pid then
              step == Run(pid, step.choice)
              && Failed(steps, pid) == Failed(steps[..|steps| - 1], pid) + [step.choice.fails]
            else
              Next(before, step).procs[pid] == before.procs[pid]
              && Failed(steps, pid) == Failed(steps[..|steps| - 1], pid)
  {
    before, step := Exec(s, steps[..|steps| - 1]), steps[|steps| - 1];
    RunKeepsInv(s, steps[..|steps| - 1]);
    StepKeepsInv(before, step);
    StepLater(before, step);
  }

  // ---- Every request --------------------------------------------------------------------------

  /** How many turns a process may still take before it is answered. */
  function Left(p: Proc): nat {
    match p
    case RefreshArrived(_) => 6
    case RefreshLooked(_) => 5
    case RefreshBurning(_) => 1
    case RefreshChecked(_) => 4
    case RefreshUserLoaded(_) => 3
    case RefreshStamped(_, _, _, _) => 2
    case RefreshCommitted(_, _, _) => 1
    case LogoutArrived(_) => 2
    case LogoutLooked(_) => 1
    case BearerArrived(_, _) => 6
    case BearerVerified(_, _) => 5
    case BearerUser(_, _, _) => 4
    case BearerSession(_, _, _, _) => 3
    case BearerAccepted(_, _, _) => 2
    case PasswordUpdated(_, _) => 1
    case CloseLooked(_, _, _) => 1
    case Done(_) => 0
  }

  /** The answers each kind of request can get, failures apart. */
  predicate AnswerOf(request: Request, answer: Answer) {
    match request
    case RefreshRequest(_) => answer.Refreshed? || answer.SessionCleared? || answer.SessionLost? || answer.FamilyBurned?
    case LogoutRequest(_) => answer.LoggedOut?
    case BearerRequest(_, action) =>
      answer.Unauthorized?
      || (match action
          case ReadOnly => answer.Served?
          case EndAllSessions => answer.LoggedOutEverywhere?
          case ChangePassword => answer.PasswordSet?
          case CloseSession(_) => answer.SessionClosed? || answer.NotFound?)
  }

  /** The process is handling `request`, or has answered it. */
  predicate Handling(request: Request, p: Proc) {
    match p
    case BearerArrived(claims, action) => request == BearerRequest(claims, action)
    case BearerVerified(claims, action) => request == BearerRequest(claims, action)
    case BearerUser(claims, action, _) => request == BearerRequest(claims, action)
    case BearerSession(claims, action, _, _) => request == BearerRequest(claims, action)
    case BearerAccepted(sub, sid, action) =>
      request.BearerRequest? && request.claims.sub == sub && request.claims.sid == sid && request.action == action
    case PasswordUpdated(_, _) => request.BearerRequest? && request.action.ChangePassword?
    case CloseLooked(_, _, _) => request.BearerRequest? && request.action.CloseSession?
    case Done(answer) => answer == Refused || answer == ServerError || AnswerOf(request, answer)
    case _ => (request.RefreshRequest? && RefreshPhase(p)) || (request.LogoutRequest? && LogoutPhase(p))
  }

  /** Without a failing turn nothing is refused, and only a refresh that drew a taken id or token fails. */
  predicate Unhurt(request: Request, p: Proc) {
    p != Done(Refused) && (p == Done(ServerError) ==> request.RefreshRequest?)
  }

  /** One turn moves the process on towards an answer of its kind, unhurt unless the turn fails. */
  predicate MovesOn(request: Request, p: Proc, fails: bool, next: Proc) {
    && Handling(request, next)
    && (if p.Done? then next == p else Left(next) < Left(p))
    && (!fails && Unhurt(request, p) ==> Unhurt(request, next))
  }

  lemma RefreshMovesOn(s: State, p: Proc, c: Choice, request: Request)
    requires RefreshPhase(p) && Handling(request, p)
    ensures MovesOn(request, p, c.fails, RefreshTurn(s, p, c).next)
  {
  }

  lemma LogoutMovesOn(s: State, p: Proc, c: Choice, request: Request)
    requires LogoutPhase(p) && Handling(request, p)
    ensures MovesOn(request, p, c.fails, LogoutTurn(s, p, c).next)
  {
  }

  lemma AuthenticateMovesOn(s: State, p: Proc, c: Choice, request: Request)
    requires AuthenticatePhase(p) && Handling(request, p)
    ensures MovesOn(request, p, c.fails, AuthenticateTurn(s, p, c).next)
  {
  }

  lemma ActionMovesOn(s: State, p: Proc, c: Choice, request: Request)
    requires !RefreshPhase(p) && !LogoutPhase(p) && !AuthenticatePhase(p) && Handling(request, p)
    requires p.BearerAccepted? ==> p.sub in s.users
    ensures MovesOn(request, p, c.fails, ActionTurn(s, p, c).next)
  {
  }

  lemma HandlingTurn(s: State, pid: Pid, c: Choice, request: Request)
    requires Inv(s) && pid in s.procs && Handling(request, s.procs[pid])
    ensures MovesOn(request, s.procs[pid], c.fails, Next(s, Run(pid, c)).procs[pid])
  {
    var p := s.procs[pid];
    if RefreshPhase(p) {
      RefreshMovesOn(s, p, c, request);
    } else if LogoutPhase(p) {
      LogoutMovesOn(s, p, c, request);
    } else if AuthenticatePhase(p) {
      AuthenticateMovesOn(s, p, c, request);
    } else {
      assert ProcOk(s, p);
      ActionMovesOn(s, p, c, request);
    }
  }

  /**
   Every request is answered within six of its own turns, with an answer of its kind; and if none of
   those turns fails it is not refused, nor answered 500 unless it is a refresh.
   */
  lemma {:induction false} EveryRequestIsAnswered(s: State, steps: seq<Step>, pid: Pid, request: Request)
    requires Inv(s) && pid in s.procs && s.procs[pid] == Start(request)
    ensures pid in Exec(s, steps).procs
    ensures var p, turns := Exec(s, steps).procs[pid], Failed(steps, pid);
            && Handling(request, p)
            && (p.Done? || Left(p) + |turns| <= 6)
            && (|turns| >= 6 ==> p.Done?)
            && (true !in turns ==> Unhurt(request, p))
    decreases |steps|
  {
    if steps == [] {
    } else {
      EveryRequestIsAnswered(s, steps[..|steps| - 1], pid, request);
      var before, step := LastStep(s, steps, pid);
      if step.Run? && step.pid == pid {
        HandlingTurn(before, pid, step.choice, request);
      }
    }
  }

  // ---- Refreshes that must not rotate -----------------------------------------------------------

  /** A refresh with the token of a revoked session, after its turns so far. */
  predicate CaughtAfter(turns: seq<bool>, p: Proc, token: Token, f: FamilyId) {
    if turns == [] then p == RefreshArrived(Some(token))
    else if turns[0] then p == Done(Refused)
    else if |turns| == 1 then
      p.RefreshLooked? && p.found.Some? && p.found.value.revokedAt.Some? && p.found.value.familyId == f
    else if |turns| == 2 then p.RefreshBurning? && p.row.familyId == f
    else if turns[2] then p == Done(ServerError)
    else p == Done(FamilyBurned(f))
  }

  lemma CaughtTurn(s: State, pid: Pid, c: Choice, turns: seq<bool>, id: SessionId, token: Token)
    requires Inv(s) && id in s.sessions && s.sessions[id].revokedAt.Some? && s.sessions[id].tokenHash == Sha256(token)
    requires pid in s.procs && CaughtAfter(turns, s.procs[pid], token, s.sessions[id].familyId)
    ensures CaughtAfter(turns + [c.fails], Next(s, Run(pid, c)).procs[pid], token, s.sessions[id].familyId)
  {
    LookupIsTheRow(s, id, token);
  }

  /**
   Reuse detection. A refresh that presents the token of a revoked session, whatever revoked it and
   whether or not it has expired, burns the family with its third turn: it is refused exactly if its
   first turn fails, answered 500 exactly if its third does, and otherwise answered SESSION_REVOKED
   with the whole family dead, whatever runs in between.
   */
  lemma {:induction false} RetiredTokenIsCaught(s: State, steps: seq<Step>, pid: Pid, id: SessionId, token: Token)
    requires Inv(s) && id in s.sessions && s.sessions[id].revokedAt.Some? && s.sessions[id].tokenHash == Sha256(token)
    requires pid in s.procs && s.procs[pid] == RefreshArrived(Some(token))
    ensures var s', f := Exec(s, steps), s.sessions[id].familyId;
            && pid in s'.procs && CaughtAfter(Failed(steps, pid), s'.procs[pid], token, f)
            && (s'.procs[pid] == Done(FamilyBurned(f)) ==> Dead(s'.sessions, f))
    decreases |steps|
  {
    RunKeepsInv(s, steps);
    if steps == [] {
    } else {
      RetiredTokenIsCaught(s, steps[..|steps| - 1], pid, id, token);
      var before, step := LastStep(s, steps, pid);
      if step.Run? && step.pid == pid {
        CaughtTurn(before, pid, step.choice, Failed(steps[..|steps| - 1], pid), id, token);
      }
    }
    BurnedMeansDead(Exec(s, steps), pid);
  }

  /** A refresh with an expired token, after its turns so far; `row` is its session now. */
  predicate StaleAfter(turns: seq<bool>, p: Proc, token: Token, row: Session) {
    if turns == [] then p == RefreshArrived(Some(token))
    else if turns[0] then p == Done(Refused)
    else if |turns| == 1 then p.RefreshLooked? && p.found.Some? && Evolves(p.found.value, row)
    else
      || p == Done(SessionCleared)
      || (&& row.revokedAt.Some?
          && if |turns| == 2 then p.RefreshBurning? && p.row.familyId == row.familyId
             else if turns[2] then p == Done(ServerError)
             else p == Done(FamilyBurned(row.familyId)))
  }

  lemma StaysStale(turns: seq<bool>, p: Proc, token: Token, row: Session, row': Session)
    requires StaleAfter(turns, p, token, row) && Evolves(row, row')
    ensures StaleAfter(turns, p, token, row')
  {
  }

  lemma StaleTurn(s: State, pid: Pid, c: Choice, turns: seq<bool>, id: SessionId, token: Token)
    requires Inv(s) && id in s.sessions
    requires s.sessions[id].expiresAt <= s.clock && s.sessions[id].tokenHash == Sha256(token)
    requires pid in s.procs && StaleAfter(turns, s.procs[pid], token, s.sessions[id])
    ensures StaleAfter(turns + [c.fails], Next(s, Run(pid, c)).procs[pid], token, s.sessions[id])
  {
    LookupIsTheRow(s, id, token);
  }

  /**
   A refresh with an expired token never rotates. Its second turn answers SESSION_INVALID and clears
   the cookie, unless the session is revoked, and then it may burn the family instead.
   */
  lemma {:induction false} ExpiredTokenNeverRotates(s: State, steps: seq<Step>, pid: Pid, id: SessionId, token: Token)
    requires Inv(s) && id in s.sessions
    requires s.sessions[id].expiresAt <= s.clock && s.sessions[id].tokenHash == Sha256(token)
    requires pid in s.procs && s.procs[pid] == RefreshArrived(Some(token))
    ensures var s' := Exec(s, steps);
            && id in s'.sessions && s'.sessions[id].expiresAt <= s'.clock && s'.sessions[id].tokenHash == Sha256(token)
            && pid in s'.procs && StaleAfter(Failed(steps, pid), s'.procs[pid], token, s'.sessions[id])
    decreases |steps|
  {
    if steps == [] {
    } else {
      ExpiredTokenNeverRotates(s, steps[..|steps| - 1], pid, id, token);
      var before, step := LastStep(s, steps, pid);
      var after := Next(before, step);
      if step.Run? && step.pid == pid {
        StaleTurn(before, pid, step.choice, Failed(steps[..|steps| - 1], pid), id, token);
      }
      StaysStale(Failed(steps, pid), after.procs[pid], token, before.sessions[id], after.sessions[id]);
    }
  }

  // ---- Requests that authenticate turns away ------------------------------------------------------

  /** An access token past its expiry on arrival is told so, and nothing else, unless that turn fails. */
  lemma {:induction false} ExpiredAccessNeverAccepted(s: State, steps: seq<Step>, pid: Pid, claims: Claims,
                                                      action: Action)
    requires Inv(s) && pid in s.procs && s.procs[pid] == BearerArrived(claims, action) && Expired(claims, s.clock)
    ensures var s', turns := Exec(s, steps), Failed(steps, pid);
            && pid in s'.procs && Expired(claims, s'.clock)
            && s'.procs[pid] == if turns == [] then BearerArrived(claims, action)
                                else Done(if turns[0] then Refused else Unauthorized(TokenExpired))
    decreases |steps|
  {
    if steps == [] {
    } else {
      ExpiredAccessNeverAccepted(s, steps[..|steps| - 1], pid, claims, action);
      var before, step := LastStep(s, steps, pid);
    }
  }

  /** At step `i` of the run `authenticate` first looked at the token, and it was past its expiry. */
  ghost predicate FoundExpiredAt(s: State, steps: seq<Step>, i: nat, pid: Pid, claims: Claims)
    requires i < |steps|
  {
    var before := Exec(s, steps[..i]);
    && steps[i].Run? && steps[i].pid == pid
    && pid in before.procs && before.procs[pid].BearerArrived? && before.procs[pid].claims == claims
    && Expired(claims, before.clock)
  }

  lemma FoundBefore(s: State, steps: seq<Step>, i: nat, pid: Pid, claims: Claims)
    requires i + 1 < |steps| && FoundExpiredAt(s, steps[..|steps| - 1], i, pid, claims)
    ensures FoundExpiredAt(s, steps, i, pid, claims)
  {
    assert steps[..|steps| - 1][..i] == steps[..i];
  }

  /** TOKEN_EXPIRED, the one answer on which the client refreshes, is only given for that. */
  lemma {:induction false} TokenExpiredMeansExpired(s: State, steps: seq<Step>, pid: Pid, claims: Claims,
                                                    action: Action)
    requires Inv(s) && pid in s.procs && s.procs[pid] == BearerArrived(claims, action)
    ensures pid in Exec(s, steps).procs
    ensures Exec(s, steps).procs[pid] == Done(Unauthorized(TokenExpired)) ==>
              exists i: nat :: i < |steps| && FoundExpiredAt(s, steps, i, pid, claims)
    decreases |steps|
  {
    if steps == [] {
    } else {
      var earlier := steps[..|steps| - 1];
      TokenExpiredMeansExpired(s, earlier, pid, claims, action);
      EveryRequestIsAnswered(s, earlier, pid, BearerRequest(claims, action));
      var before, step := LastStep(s, steps, pid);
      if before.procs[pid] == Done(Unauthorized(TokenExpired)) {
        var i: nat :| i < |earlier| && FoundExpiredAt(s, earlier, i, pid, claims);
        FoundBefore(s, steps, i, pid, claims);
      } else if Next(before, step).procs[pid] == Done(Unauthorized(TokenExpired)) {
        OnlyExpiryAnswersSo(before, pid, step.choice);
        assert steps[..|earlier|] == earlier;
        assert FoundExpiredAt(s, steps, |earlier|, pid, claims);
      }
    }
  }

  lemma OnlyExpiryAnswersSo(s: State, pid: Pid, c: Choice)
    requires pid in s.procs && s.procs[pid] != Done(Unauthorized(TokenExpired))
    requires Next(s, Run(pid, c)).procs[pid] == Done(Unauthorized(TokenExpired))
    ensures s.procs[pid].BearerArrived? && Expired(s.procs[pid].claims, s.clock)
  {
  }

  /** A request for a session revoked before it looked, after its turns so far. */
  predicate OutAfter(turns: seq<bool>, p: Proc, claims: Claims, action: Action, now: int) {
    if turns == [] then p == BearerArrived(claims, action)
    else if turns[0] then p == Done(Refused)
    else if p == Done(Unauthorized(TokenExpired)) then Expired(claims, now)
    else if |turns| == 1 then p == BearerVerified(claims, action)
    else if turns[1] then p == Done(ServerError)
    else if |turns| == 2 then p.BearerUser? && p.claims == claims && p.action == action
    else if turns[2] then p == Done(ServerError)
    else if |turns| == 3 then
      p.BearerSession? && p.claims == claims && p.found.Some? && p.found.value.revokedAt.Some?
    else p == Done(Unauthorized(SessionEnded))
  }

  lemma OutTurn(s: State, pid: Pid, c: Choice, turns: seq<bool>, claims: Claims, action: Action)
    requires Inv(s) && claims.sub in s.users
    requires claims.sid in s.sessions && s.sessions[claims.sid].revokedAt.Some?
    requires pid in s.procs && OutAfter(turns, s.procs[pid], claims, action, s.clock)
    ensures OutAfter(turns + [c.fails], Next(s, Run(pid, c)).procs[pid], claims, action, s.clock)
  {
    var p := s.procs[pid];
    if p.Done? {
      AnsweredStays(s, pid, c);
    } else {
      assert Next(s, Run(pid, c)).procs[pid] == AuthenticateTurn(s, p, c).next;
      OutMovesOn(s, p, c, turns, claims, action);
    }
  }

  lemma OutMovesOn(s: State, p: Proc, c: Choice, turns: seq<bool>, claims: Claims, action: Action)
    requires claims.sub in s.users && claims.sid in s.sessions && s.sessions[claims.sid].revokedAt.Some?
    requires AuthenticatePhase(p) && OutAfter(turns, p, claims, action, s.clock)
    ensures OutAfter(turns + [c.fails], AuthenticateTurn(s, p, c).next, claims, action, s.clock)
  {
  }

  /**
   A request for a session that was revoked before it arrived is told SESSION_INVALID by its fourth
   turn, however the server is interleaved, unless its token is past its expiry or a turn fails.
   */
  lemma {:induction false} RevokedSessionIsTold(s: State, steps: seq<Step>, pid: Pid, claims: Claims, action: Action)
    requires Inv(s) && claims.sub in s.users
    requires claims.sid in s.sessions && s.sessions[claims.sid].revokedAt.Some?
    requires pid in s.procs && s.procs[pid] == BearerArrived(claims, action)
    ensures var s' := Exec(s, steps);
            && pid in s'.procs && OutAfter(Failed(steps, pid), s'.procs[pid], claims, action, s'.clock)
    decreases |steps|
  {
    if steps == [] {
    } else {
      RevokedSessionIsTold(s, steps[..|steps| - 1], pid, claims, action);
      var before, step := LastStep(s, steps, pid);
      if step.Run? && step.pid == pid {
        OutTurn(before, pid, step.choice, Failed(steps[..|steps| - 1], pid), claims, action);
      }
    }
  }

  // ---- Requests that end sessions -----------------------------------------------------------------

  /** Deleting session `target`, which is the caller's own user's, after the turns so far. */
  predicate ClosingAfter(turns: seq<bool>, p: Proc, sub: UserId, sid: SessionId, target: SessionId, row: Session) {
    if turns == [] then p == BearerAccepted(sub, sid, CloseSession(target))
    else if turns[0] then p == Done(Refused)
    else if |turns| == 1 then
      p.CloseLooked? && p.sub == sub && p.sid == sid
      && p.found.Some? && p.found.value.id == target && p.found.value.userId == sub
    else if turns[1] then p == Done(ServerError)
    else p == Done(SessionClosed(target == sid)) && row.revokedAt.Some?
  }

  /** The caller's own session or that of another device: two turns find it and revoke it. */
  lemma {:induction false} OwnSessionIsClosed(s: State, steps: seq<Step>, pid: Pid,
                                              sub: UserId, sid: SessionId, target: SessionId)
    requires Inv(s) && target in s.sessions && s.sessions[target].userId == sub
    requires pid in s.procs && s.procs[pid] == BearerAccepted(sub, sid, CloseSession(target))
    ensures var s' := Exec(s, steps);
            && target in s'.sessions && pid in s'.procs
            && ClosingAfter(Failed(steps, pid), s'.procs[pid], sub, sid, target, s'.sessions[target])
    decreases |steps|
  {
    if steps == [] {
    } else {
      OwnSessionIsClosed(s, steps[..|steps| - 1], pid, sub, sid, target);
      var before, step := LastStep(s, steps, pid);
      if step.Run? && step.pid == pid {
        ClosingTurn(before, pid, step.choice, Failed(steps[..|steps| - 1], pid), sub, sid, target);
      }
    }
  }

  lemma ClosingTurn(s: State, pid: Pid, c: Choice, turns: seq<bool>, sub: UserId, sid: SessionId, target: SessionId)
    requires Inv(s) && target in s.sessions && s.sessions[target].userId == sub
    requires pid in s.procs && ClosingAfter(turns, s.procs[pid], sub, sid, target, s.sessions[target])
    ensures var s' := Next(s, Run(pid, c));
            && target in s'.sessions
            && ClosingAfter(turns + [c.fails], s'.procs[pid], sub, sid, target, s'.sessions[target])
  {
    RowFacts(s);
    StepLater(s, Run(pid, c));
  }

  /** Every session the user had in `t`, but for `keep`, is revoked in `t'`. */
  ghost predicate AllOut(t: Table, t': Table, user: UserId, keep: Option<SessionId>) {
    forall id :: id in t && t[id].userId == user && keep != Some(id) ==> id in t' && t'[id].revokedAt.Some?
  }

  /** A logout-all after its turns so far. */
  ghost predicate EndingAfter(turns: seq<bool>, t: Table, t': Table, p: Proc, sub: UserId, sid: SessionId) {
    if turns == [] then p == BearerAccepted(sub, sid, EndAllSessions)
    else if turns[0] then p == Done(Refused)
    else p == Done(LoggedOutEverywhere) && AllOut(t, t', sub, None)
  }

  lemma EndingTurn(s: State, t: State, pid: Pid, c: Choice, turns: seq<bool>, sub: UserId, sid: SessionId)
    requires Inv(t) && Later(s, t)
    requires pid in t.procs && EndingAfter(turns, s.sessions, t.sessions, t.procs[pid], sub, sid)
    ensures var t' := Next(t, Run(pid, c));
            EndingAfter(turns + [c.fails], s.sessions, t'.sessions, t'.procs[pid], sub, sid)
  {
    StepLater(t, Run(pid, c));
    if t.procs[pid].Done? {
      AnsweredStays(t, pid, c);
    } else {
      EndingAll(t, pid, c, sub, sid);
    }
    if t.procs[pid] == Done(LoggedOutEverywhere) || (!t.procs[pid].Done? && !c.fails) {
      OutStaysOut(s.sessions, t.sessions, Next(t, Run(pid, c)).sessions, sub, None);
    }
  }

  lemma EndingAll(t: State, pid: Pid, c: Choice, sub: UserId, sid: SessionId)
    requires pid in t.procs && t.procs[pid] == BearerAccepted(sub, sid, EndAllSessions)
    ensures var t' := Next(t, Run(pid, c));
            if c.fails then t'.procs[pid] == Done(Refused)
            else t'.procs[pid] == Done(LoggedOutEverywhere) && AllOut(t.sessions, t'.sessions, sub, None)
  {
  }

  /** Logout-all answers 204 with its one turn, and every session there was is out. */
  lemma {:induction false} LogoutAllEndsAll(s: State, steps: seq<Step>, pid: Pid, sub: UserId, sid: SessionId)
    requires Inv(s) && pid in s.procs && s.procs[pid] == BearerAccepted(sub, sid, EndAllSessions)
    ensures var s' := Exec(s, steps);
            && pid in s'.procs
            && EndingAfter(Failed(steps, pid), s.sessions, s'.sessions, s'.procs[pid], sub, sid)
    decreases |steps|
  {
    if steps == [] {
    } else {
      LogoutAllEndsAll(s, steps[..|steps| - 1], pid, sub, sid);
      var before, step := LastStep(s, steps, pid);
      if step.Run? && step.pid == pid {
        EndingTurn(s, before, pid, step.choice, Failed(steps[..|steps| - 1], pid), sub, sid);
      }
    }
  }

  /** A password change after its turns so far. */
  ghost predicate ChangingAfter(turns: seq<bool>, s: State, s': State, p: Proc, sub: UserId, sid: SessionId) {
    if turns == [] then p == BearerAccepted(sub, sid, ChangePassword)
    else if turns[0] then p == Done(Refused)
    else
      && sub in s'.users && s'.users[sub].passwordChangedAt >= s.clock
      && if |turns| == 1 then p == PasswordUpdated(sub, sid)
         else if turns[1] then p == Done(ServerError)
         else p == Done(PasswordSet) && AllOut(s.sessions, s'.sessions, sub, Some(sid))
  }

  lemma SettingTurn(t: State, pid: Pid, c: Choice, sub: UserId, sid: SessionId)
    requires Inv(t) && pid in t.procs && t.procs[pid] == BearerAccepted(sub, sid, ChangePassword)
    ensures var t' := Next(t, Run(pid, c));
            if c.fails then t'.procs[pid] == Done(Refused)
            else t'.procs[pid] == PasswordUpdated(sub, sid) && sub in t'.users
                 && t'.users[sub].passwordChangedAt == t.clock
  {
    assert ProcOk(t, t.procs[pid]);
  }

  lemma RevokingTurn(t: State, pid: Pid, c: Choice, sub: UserId, sid: SessionId)
    requires pid in t.procs && t.procs[pid] == PasswordUpdated(sub, sid)
    ensures var t' := Next(t, Run(pid, c));
            if c.fails then t'.procs[pid] == Done(ServerError)
            else t'.procs[pid] == Done(PasswordSet) && AllOut(t.sessions, t'.sessions, sub, Some(sid))
  {
  }

  lemma AnsweredStays(t: State, pid: Pid, c: Choice)
    requires pid in t.procs && t.procs[pid].Done?
    ensures Next(t, Run(pid, c)).procs[pid] == t.procs[pid]
  {
  }

  lemma OutStaysOut(t0: Table, t: Table, t': Table, user: UserId, keep: Option<SessionId>)
    requires Extends(t, t') && Extends(t0, t)
    requires AllOut(t0, t, user, keep) || AllOut(t, t', user, keep)
    ensures AllOut(t0, t', user, keep)
  {
  }

  lemma ChangingTurn(s: State, t: State, pid: Pid, c: Choice, turns: seq<bool>, sub: UserId, sid: SessionId)
    requires Inv(s) && Inv(t) && Later(s, t)
    requires pid in t.procs && ChangingAfter(turns, s, t, t.procs[pid], sub, sid)
    ensures var t' := Next(t, Run(pid, c)); ChangingAfter(turns + [c.fails], s, t', t'.procs[pid], sub, sid)
  {
    StepLater(t, Run(pid, c));
    var p := t.procs[pid];
    if p.BearerAccepted? {
      SettingTurn(t, pid, c, sub, sid);
    } else if p.PasswordUpdated? {
      RevokingTurn(t, pid, c, sub, sid);
      if !c.fails {
        OutStaysOut(s.sessions, t.sessions, Next(t, Run(pid, c)).sessions, sub, Some(sid));
      }
    } else {
      AnsweredStays(t, pid, c);
      if p == Done(PasswordSet) {
        OutStaysOut(s.sessions, t.sessions, Next(t, Run(pid, c)).sessions, sub, Some(sid));
      }
    }
  }

  /** Its first turn sets the password and its second ends every session there was but the caller's. */
  lemma {:induction false} PasswordChangeTakesEffect(s: State, steps: seq<Step>, pid: Pid, sub: UserId, sid: SessionId)
    requires Inv(s) && pid in s.procs && s.procs[pid] == BearerAccepted(sub, sid, ChangePassword)
    ensures pid in Exec(s, steps).procs
    ensures ChangingAfter(Failed(steps, pid), s, Exec(s, steps), Exec(s, steps).procs[pid], sub, sid)
    decreases |steps|
  {
    if steps == [] {
    } else {
      PasswordChangeTakesEffect(s, steps[..|steps| - 1], pid, sub, sid);
      var before, step := LastStep(s, steps, pid);
      if step.Run? && step.pid == pid {
        ChangingTurn(s, before, pid, step.choice, Failed(steps[..|steps| - 1], pid), sub, sid);
      }
    }
  }

  /** A logout with the token of a session, after its turns so far; `row` is the session now. */
  predicate LeavingAfter(turns: seq<bool>, p: Proc, token: Token, row: Session) {
    if turns == [] then p == LogoutArrived(Some(token))
    else if turns[0] then p == Done(Refused)
    else if |turns| == 1 then p.LogoutLooked? && p.found.Some? && Evolves(p.found.value, row)
    else (p == Done(LoggedOut) && row.revokedAt.Some?) || (turns[1] && p == Done(ServerError))
  }

  lemma LeavingTurn(s: State, pid: Pid, c: Choice, turns: seq<bool>, id: SessionId, token: Token)
    requires Inv(s) && id in s.sessions && s.sessions[id].tokenHash == Sha256(token)
    requires pid in s.procs && LeavingAfter(turns, s.procs[pid], token, s.sessions[id])
    ensures var s' := Next(s, Run(pid, c));
            id in s'.sessions && LeavingAfter(turns + [c.fails], s'.procs[pid], token, s'.sessions[id])
  {
    LookupIsTheRow(s, id, token);
    RowFacts(s);
    StepLater(s, Run(pid, c));
  }

  /** A logout that is answered 204 leaves the session it presented revoked, whoever revoked it. */
  lemma {:induction false} LogoutIsHonoured(s: State, steps: seq<Step>, pid: Pid, id: SessionId, token: Token)
    requires Inv(s) && id in s.sessions && s.sessions[id].tokenHash == Sha256(token)
    requires pid in s.procs && s.procs[pid] == LogoutArrived(Some(token))
    ensures var s' := Exec(s, steps);
            && pid in s'.procs && id in s'.sessions && s'.sessions[id].tokenHash == Sha256(token)
            && LeavingAfter(Failed(steps, pid), s'.procs[pid], token, s'.sessions[id])
    decreases |steps|
  {
    if steps == [] {
    } else {
      LogoutIsHonoured(s, steps[..|steps| - 1], pid, id, token);
      var before, step := LastStep(s, steps, pid);
      if step.Run? && step.pid == pid {
        LeavingTurn(before, pid, step.choice, Failed(steps[..|steps| - 1], pid), id, token);
      }
    }
  }
}
