/**
 The request handlers of server/src/routes/auth.routes.ts and server/src/routes/user.routes.ts,
 with the `authenticate` middleware in front of the bearer-protected ones, as processes over
 shared tables.

 A process advances from one `await` to the next. Between two of its steps any other process may
 run, so the row a handler holds may be out of date by the time it acts on it. `Next` is the whole
 server; a step that is not possible leaves everything as it was.
 */
module Handlers {
  import opened Wrappers
  import opened Sessions
  import opened Tokens

  type Pid = nat

  datatype Action = ReadOnly | EndAllSessions | ChangePassword | CloseSession(target: SessionId)

  datatype Request =
    | RefreshRequest(cookie: Option<Token>)
    | LogoutRequest(cookie: Option<Token>)
    | BearerRequest(claims: Claims, action: Action)

  datatype Answer =
    | Refused                                     // CSRF, rate limit, validation or wrong password
    | ServerError                                 // 500, a query failed
    | Refreshed(cookie: Token, access: Claims)    // 200, sets the cookie
    | SessionCleared                              // 401 SESSION_INVALID, clears the cookie
    | SessionLost                                 // 401 SESSION_INVALID thrown by the rotation, cookie untouched
    | FamilyBurned(familyId: FamilyId)            // 401 SESSION_REVOKED, clears the cookie
    | LoggedOut
    | Unauthorized(failure: AuthFailure)
    | Served
    | LoggedOutEverywhere
    | PasswordSet
    | NotFound
    | SessionClosed(own: bool)

  datatype Proc =
    | RefreshArrived(cookie: Option<Token>)
    | RefreshLooked(found: Option<Session>)
    | RefreshBurning(row: Session)
    | RefreshChecked(row: Session)
    | RefreshUserLoaded(row: Session)
    | RefreshStamped(row: Session, now: int, nextId: SessionId, token: Token)
    | RefreshCommitted(row: Session, nextId: SessionId, token: Token)
    | LogoutArrived(cookie: Option<Token>)
    | LogoutLooked(found: Option<Session>)
    | BearerArrived(claims: Claims, action: Action)
    | BearerVerified(claims: Claims, action: Action)
    | BearerUser(claims: Claims, action: Action, user: User)
    | BearerSession(claims: Claims, action: Action, user: User, found: Option<Session>)
    | BearerAccepted(sub: UserId, sid: SessionId, action: Action)
    | PasswordUpdated(sub: UserId, sid: SessionId)
    | CloseLooked(sub: UserId, sid: SessionId, found: Option<Session>)
    | Done(answer: Answer)

  datatype Config = Config(accessTtl: nat, refreshTtl: nat)

  datatype State = State(
    cfg: Config,
    clock: int,
    users: map<UserId, User>,
    sessions: Table,
    procs: map<Pid, Proc>)

  /** What the environment picks for one step: fresh random values, and whether the step goes wrong. */
  datatype Choice = Choice(freshId: SessionId, freshToken: Token, fails: bool)

  datatype Step =
    | Tick(elapsed: nat)
    | NewUser(user: UserId)
    | SignIn(user: UserId, id: SessionId, familyId: FamilyId, token: Token)
    | TouchRow(id: SessionId)
    | Arrive(pid: Pid, request: Request)
    | Run(pid: Pid, choice: Choice)

  /** One turn of a process: the statement it runs, where it goes next, and the users table after. */
  datatype Turn = Turn(statement: Statement, next: Proc, users: map<UserId, User>)

  function Start(request: Request): Proc {
    match request
    case RefreshRequest(cookie) => RefreshArrived(cookie)
    case LogoutRequest(cookie) => LogoutArrived(cookie)
    case BearerRequest(claims, action) => BearerArrived(claims, action)
  }

  // ---- POST /auth/refresh -----------------------------------------------------------------

  ghost function RefreshTurn(s: State, p: Proc, c: Choice): Turn {
    match p
    case RefreshArrived(cookie) =>
      if c.fails then Turn(Skip, Done(Refused), s.users)
      else if cookie.None? then Turn(Skip, Done(SessionCleared), s.users)
      else Turn(Skip, RefreshLooked(FindByToken(s.sessions, cookie.value)), s.users)
    case RefreshLooked(found) =>
      if found.None? then Turn(Skip, Done(SessionCleared), s.users)
      else if found.value.revokedAt.Some? then Turn(Skip, RefreshBurning(found.value), s.users)
      else if found.value.expiresAt <= s.clock then Turn(Skip, Done(SessionCleared), s.users)
      else Turn(Skip, RefreshChecked(found.value), s.users)
    case RefreshBurning(row) =>
      if c.fails then Turn(Skip, Done(ServerError), s.users)
      else Turn(RevokeFamily(row.familyId, ReuseDetected), Done(FamilyBurned(row.familyId)), s.users)
    case RefreshChecked(row) =>
      if c.fails then Turn(Skip, Done(ServerError), s.users)
      else if row.userId !in s.users then Turn(Skip, Done(SessionCleared), s.users)
      else Turn(Skip, RefreshUserLoaded(row), s.users)
    case RefreshUserLoaded(row) =>
      Turn(Skip, RefreshStamped(row, s.clock, c.freshId, c.freshToken), s.users)
    case RefreshStamped(row, now, nextId, token) =>
      var rotation := Rotate(row, now, nextId, token, c.fails);
      (match RotateResult(s.sessions, rotation, s.cfg.refreshTtl)
       case Ok(_) => Turn(rotation, RefreshCommitted(row, nextId, token), s.users)
       case Err(SessionInvalid) => Turn(rotation, Done(SessionLost), s.users)
       case Err(Internal) => Turn(rotation, Done(ServerError), s.users))
    case RefreshCommitted(row, nextId, token) =>
      Turn(Skip, Done(Refreshed(token, Sign(row.userId, nextId, s.clock, s.cfg.accessTtl))), s.users)
    case _ => Turn(Skip, p, s.users)
  }

  // ---- POST /auth/logout ------------------------------------------------------------------

  ghost function LogoutTurn(s: State, p: Proc, c: Choice): Turn {
    match p
    case LogoutArrived(cookie) =>
      if c.fails then Turn(Skip, Done(Refused), s.users)
      else if cookie.None? then Turn(Skip, Done(LoggedOut), s.users)
      else Turn(Skip, LogoutLooked(FindByToken(s.sessions, cookie.value)), s.users)
    case LogoutLooked(found) =>
      if found.None? || found.value.revokedAt.Some? then Turn(Skip, Done(LoggedOut), s.users)
      else if c.fails then Turn(Skip, Done(ServerError), s.users)
      else Turn(RevokeSession(found.value.id, Logout), Done(LoggedOut), s.users)
    case _ => Turn(Skip, p, s.users)
  }

  // ---- authenticate, then the bearer-protected handlers -------------------------------------

  function AuthenticateTurn(s: State, p: Proc, c: Choice): Turn {
    match p
    case BearerArrived(claims, action) =>
      if c.fails then Turn(Skip, Done(Refused), s.users)
      else if Expired(claims, s.clock) then Turn(Skip, Done(Unauthorized(TokenExpired)), s.users)
      else Turn(Skip, BearerVerified(claims, action), s.users)
    case BearerVerified(claims, action) =>
      if c.fails then Turn(Skip, Done(ServerError), s.users)
      else if claims.sub !in s.users then Turn(Skip, Done(Unauthorized(TokenInvalid)), s.users)
      else Turn(Skip, BearerUser(claims, action, s.users[claims.sub]), s.users)
    case BearerUser(claims, action, user) =>
      if c.fails then Turn(Skip, Done(ServerError), s.users)
      else Turn(Skip, BearerSession(claims, action, user, FindById(s.sessions, claims.sid)), s.users)
    case BearerSession(claims, action, user, found) =>
      (match Judge(claims, user, found, s.clock)
       case Ok(_) => Turn(Skip, BearerAccepted(claims.sub, claims.sid, action), s.users)
       case Err(failure) => Turn(Skip, Done(Unauthorized(failure)), s.users))
    case _ => Turn(Skip, p, s.users)
  }

  function ActionTurn(s: State, p: Proc, c: Choice): Turn {
    match p
    case BearerAccepted(sub, sid, action) =>
      if c.fails then Turn(Skip, Done(Refused), s.users)
      else (match action
            case ReadOnly => Turn(Skip, Done(Served), s.users)
            case EndAllSessions => Turn(RevokeAllForUser(sub, LogoutAll, None), Done(LoggedOutEverywhere), s.users)
            case ChangePassword =>
              if sub !in s.users then Turn(Skip, Done(NotFound), s.users)
              else Turn(Skip, PasswordUpdated(sub, sid), s.users[sub := User(s.clock)])
            case CloseSession(target) => Turn(Skip, CloseLooked(sub, sid, FindById(s.sessions, target)), s.users))
    case PasswordUpdated(sub, sid) =>
      if c.fails then Turn(Skip, Done(ServerError), s.users)
      else Turn(RevokeAllForUser(sub, PasswordChanged, Some(sid)), Done(PasswordSet), s.users)
    case CloseLooked(sub, sid, found) =>
      if found.None? || found.value.userId != sub then Turn(Skip, Done(NotFound), s.users)
      else if c.fails then Turn(Skip, Done(ServerError), s.users)
      else Turn(RevokeSession(found.value.id, RevokedByUser), Done(SessionClosed(found.value.id == sid)), s.users)
    case _ => Turn(Skip, p, s.users)
  }

  // ---- The whole server -------------------------------------------------------------------

  predicate RefreshPhase(p: Proc) {
    p.RefreshArrived? || p.RefreshLooked? || p.RefreshBurning? || p.RefreshChecked? || p.RefreshUserLoaded?
    || p.RefreshStamped? || p.RefreshCommitted?
  }

  predicate LogoutPhase(p: Proc) {
    p.LogoutArrived? || p.LogoutLooked?
  }

  predicate AuthenticatePhase(p: Proc) {
    p.BearerArrived? || p.BearerVerified? || p.BearerUser? || p.BearerSession?
  }

  ghost function Resume(s: State, p: Proc, c: Choice): Turn {
    if RefreshPhase(p) then RefreshTurn(s, p, c)
    else if LogoutPhase(p) then LogoutTurn(s, p, c)
    else if AuthenticatePhase(p) then AuthenticateTurn(s, p, c)
    else ActionTurn(s, p, c)
  }

  /** The statement a step runs on the sessions table. */
  ghost function StatementOf(s: State, step: Step): Statement {
    match step
    case SignIn(user, id, familyId, token) =>
      if user in s.users && (forall k :: k in s.sessions ==> s.sessions[k].familyId != familyId)
      then Create(id, user, familyId, token) else Skip
    case TouchRow(id) => Touch(id)
    case Run(pid, choice) => if pid in s.procs then Resume(s, s.procs[pid], choice).statement else Skip
    case _ => Skip
  }

  ghost function Next(s: State, step: Step): State {
    var after := s.(sessions := Execute(s.sessions, StatementOf(s, step), s.clock, s.cfg.refreshTtl));
    match step
    case Tick(elapsed) => after.(clock := s.clock + elapsed)
    case NewUser(user) => if user in s.users then after else after.(users := s.users[user := User(s.clock)])
    case Arrive(pid, request) => if pid in s.procs then after else after.(procs := s.procs[pid := Start(request)])
    case Run(pid, choice) =>
      if pid !in s.procs then after
      else
        var turn := Resume(s, s.procs[pid], choice);
        after.(procs := s.procs[pid := turn.next], users := turn.users)
    case _ => after
  }

  ghost function Exec(s: State, steps: seq<Step>): State
    decreases |steps|
  {
    if steps == [] then s else Next(Exec(s, steps[..|steps| - 1]), steps[|steps| - 1])
  }

  function Init(cfg: Config, clock: int): State {
    State(cfg, clock, map[], map[], map[])
  }
}
