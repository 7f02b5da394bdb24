/**
 The handlers as the server runs them: each method below is the code between two awaits, working
 on the shared database, the users table and the process it resumes. Every one is proved to take
 the step of `Handlers.Next` that the whole-run theorems are about, and to keep their invariant.
 `Serve` is any run: whatever is proved of `Exec` is true of the server object.
 */
module AuthServer {
  import opened Wrappers
  import opened Database
  import opened Sessions
  import opened Tokens
  import opened Handlers
  import opened Runs

  class Server {
    const cfg: Config
    const db: Connection<Table>
    var clock: int
    var users: map<UserId, User>
    var procs: map<Pid, Proc>

    ghost predicate Valid()
      reads this, db
    {
      db.Idle() && Inv(View())
    }

    ghost function View(): State
      reads this, db
    {
      State(cfg, clock, users, db.committed, procs)
    }

    constructor (cfg: Config, clock: int)
      ensures Valid() && fresh(db) && View() == Init(cfg, clock)
    {
      this.cfg := cfg;
      this.clock := clock;
      users, procs := map[], map[];
      db := new Connection<Table>(map[]);
    }

    method Arrive(pid: Pid, request: Request)
      requires Valid() && pid !in procs
      modifies this
      ensures Valid() && View() == Next(old(View()), Step.Arrive(pid, request))
    {
      StepKeepsInv(View(), Step.Arrive(pid, request));
      match request {
        case RefreshRequest(cookie) => procs := procs[pid := RefreshArrived(cookie)];
        case LogoutRequest(cookie) => procs := procs[pid := LogoutArrived(cookie)];
        case BearerRequest(claims, action) => procs := procs[pid := BearerArrived(claims, action)];
      }
    }

    method Tick(elapsed: nat)
      requires Valid()
      modifies this
      ensures Valid() && View() == Next(old(View()), Step.Tick(elapsed))
    {
      StepKeepsInv(View(), Step.Tick(elapsed));
      clock := clock + elapsed;
    }

    method Register(user: UserId)
      requires Valid() && user !in users
      modifies this
      ensures Valid() && View() == Next(old(View()), NewUser(user))
    {
      StepKeepsInv(View(), NewUser(user));
      users := users[user := User(clock)];
    }

    method RecordActivity(id: SessionId)
      requires Valid()
      modifies db
      ensures Valid() && View() == Next(old(View()), TouchRow(id))
    {
      StepKeepsInv(View(), TouchRow(id));
      TouchSession(db, id, clock, cfg.refreshTtl);
    }

    /** The last await of a login or a registration: the credentials were good. */
    method SignIn(user: UserId, id: SessionId, familyId: FamilyId, token: Token)
      requires Valid() && user in users
      requires forall k :: k in db.committed ==> db.committed[k].familyId != familyId
      modifies db
      ensures Valid() && View() == Next(old(View()), Step.SignIn(user, id, familyId, token))
    {
      StepKeepsInv(View(), Step.SignIn(user, id, familyId, token));
      var _ := CreateSession(db, id, user, familyId, token, clock, cfg.refreshTtl);
    }

    method Revoke(statement: Statement)
      requires db.Idle()
      requires statement.RevokeFamily? || statement.RevokeSession? || statement.RevokeAllForUser?
      modifies db
      ensures db.Idle() && db.committed == Execute(old(db.committed), statement, clock, cfg.refreshTtl)
    {
      var _ := RunRevocation(db, statement, clock, cfg.refreshTtl);
    }

    method Refresh(pid: Pid, c: Choice)
      requires Valid() && pid in procs && RefreshPhase(procs[pid])
      modifies this, db
      ensures Valid() && View() == Next(old(View()), Run(pid, c))
    {
      StepKeepsInv(View(), Run(pid, c));
      var next: Proc;
      match procs[pid] {
        case RefreshArrived(cookie) =>
          if c.fails {
            next := Done(Refused);
          } else if cookie.None? {
            next := Done(SessionCleared);
          } else {
            var found := LookUpToken(db, cookie.value);
            next := RefreshLooked(found);
          }
        case RefreshLooked(found) =>
          if found.None? {
            next := Done(SessionCleared);
          } else if found.value.revokedAt.Some? {
            next := RefreshBurning(found.value);
          } else if found.value.expiresAt <= clock {
            next := Done(SessionCleared);
          } else {
            next := RefreshChecked(found.value);
          }
        case RefreshBurning(row) =>
          if c.fails {
            next := Done(ServerError);
          } else {
            Revoke(RevokeFamily(row.familyId, ReuseDetected));
            next := Done(FamilyBurned(row.familyId));
          }
        case RefreshChecked(row) =>
          if c.fails {
            next := Done(ServerError);
          } else if row.userId !in users {
            next := Done(SessionCleared);
          } else {
            next := RefreshUserLoaded(row);
          }
        case RefreshUserLoaded(row) =>
          next := RefreshStamped(row, clock, c.freshId, c.freshToken);
        case RefreshStamped(row, now, nextId, token) =>
          var rotated := RotateSession(db, row, now, nextId, token, cfg.refreshTtl, c.fails);
          next := match rotated
                  case Ok(_) => RefreshCommitted(row, nextId, token)
                  case Err(SessionInvalid) => Done(SessionLost)
                  case Err(Internal) => Done(ServerError);
        case RefreshCommitted(row, nextId, token) =>
          next := Done(Refreshed(token, Sign(row.userId, nextId, clock, cfg.accessTtl)));
      }
      procs := procs[pid := next];
    }

    method Logout(pid: Pid, c: Choice)
      requires Valid() && pid in procs && LogoutPhase(procs[pid])
      modifies this, db
      ensures Valid() && View() == Next(old(View()), Run(pid, c))
    {
      StepKeepsInv(View(), Run(pid, c));
      var next: Proc := Done(LoggedOut);
      match procs[pid] {
        case LogoutArrived(cookie) =>
          if c.fails {
            next := Done(Refused);
          } else if cookie.Some? {
            var found := LookUpToken(db, cookie.value);
            next := LogoutLooked(found);
          }
        case LogoutLooked(found) =>
          if found.Some? && found.value.revokedAt.None? {
            if c.fails {
              next := Done(ServerError);
            } else {
              Revoke(RevokeSession(found.value.id, Sessions.Logout));
            }
          }
      }
      procs := procs[pid := next];
    }

    method Authenticate(pid: Pid, c: Choice)
      requires Valid() && pid in procs && AuthenticatePhase(procs[pid])
      modifies this
      ensures Valid() && View() == Next(old(View()), Run(pid, c))
    {
      StepKeepsInv(View(), Run(pid, c));
      var next: Proc := Done(if procs[pid].BearerArrived? then Refused else ServerError);
      match procs[pid] {
        case BearerArrived(claims, action) =>
          if !c.fails {
            next := if Expired(claims, clock) then Done(Unauthorized(TokenExpired)) else BearerVerified(claims, action);
          }
        case BearerVerified(claims, action) =>
          if !c.fails {
            next := if claims.sub in users then BearerUser(claims, action, users[claims.sub])
                    else Done(Unauthorized(TokenInvalid));
          }
        case BearerUser(claims, action, user) =>
          if !c.fails {
            next := BearerSession(claims, action, user, FindById(db.committed, claims.sid));
          }
        case BearerSession(claims, action, user, found) =>
          next := match Judge(claims, user, found, clock)
                  case Ok(_) => BearerAccepted(claims.sub, claims.sid, action)
                  case Err(failure) => Done(Unauthorized(failure));
      }
      procs := procs[pid := next];
    }

    /** logout-all, the password change and the session delete, once `authenticate` let them in. */
    method Act(pid: Pid, c: Choice)
      requires Valid() && pid in procs
      requires procs[pid].BearerAccepted? || procs[pid].PasswordUpdated? || procs[pid].CloseLooked?
      modifies this, db
      ensures Valid() && View() == Next(old(View()), Run(pid, c))
    {
      StepKeepsInv(View(), Run(pid, c));
      var next: Proc := Done(if procs[pid].BearerAccepted? then Refused else ServerError);
      match procs[pid] {
        case BearerAccepted(sub, sid, action) =>
          if !c.fails {
            match action {
              case ReadOnly =>
                next := Done(Served);
              case EndAllSessions =>
                Revoke(RevokeAllForUser(sub, LogoutAll, None));
                next := Done(LoggedOutEverywhere);
              case ChangePassword =>
                if sub in users {
                  users := users[sub := User(clock)];
                  next := PasswordUpdated(sub, sid);
                } else {
                  next := Done(NotFound);
                }
              case CloseSession(target) =>
                next := CloseLooked(sub, sid, FindById(db.committed, target));
            }
          }
        case PasswordUpdated(sub, sid) =>
          if !c.fails {
            Revoke(RevokeAllForUser(sub, PasswordChanged, Some(sid)));
            next := Done(PasswordSet);
          }
        case CloseLooked(sub, sid, found) =>
          if found.None? || found.value.userId != sub {
            next := Done(NotFound);
          } else if !c.fails {
            Revoke(RevokeSession(found.value.id, RevokedByUser));
            next := Done(SessionClosed(found.value.id == sid));
          }
      }
      procs := procs[pid := next];
    }

    /** Whichever handler the process is in takes its turn; an answered one has none left. */
    method Resume(pid: Pid, c: Choice)
      requires Valid() && pid in procs
      modifies this, db
      ensures Valid() && View() == Next(old(View()), Run(pid, c))
    {
      if RefreshPhase(procs[pid]) {
        Refresh(pid, c);
      } else if LogoutPhase(procs[pid]) {
        Logout(pid, c);
      } else if AuthenticatePhase(procs[pid]) {
        Authenticate(pid, c);
      } else if !procs[pid].Done? {
        Act(pid, c);
      } else {
        assert procs == procs[pid := procs[pid]];
      }
    }

    method Take(step: Step)
      requires Valid()
      modifies this, db
      ensures Valid() && View() == Next(old(View()), step)
    {
      match step {
        case Tick(elapsed) => Tick(elapsed);
        case NewUser(user) => if user !in users { Register(user); }
        case SignIn(user, id, familyId, token) =>
          if user in users && forall k :: k in db.committed ==> db.committed[k].familyId != familyId {
            SignIn(user, id, familyId, token);
          }
        case TouchRow(id) => RecordActivity(id);
        case Arrive(pid, request) => if pid !in procs { Arrive(pid, request); }
        case Run(pid, choice) => if pid in procs { Resume(pid, choice); }
      }
    }

    /** The event loop, under any schedule of requests, turns and time. */
    method Serve(steps: seq<Step>)
      requires Valid()
      modifies this, db
      ensures Valid() && View() == Exec(old(View()), steps)
    {
      for i := 0 to |steps|
        invariant Valid() && View() == Exec(old(View()), steps[..i])
      {
        assert steps[..i + 1][..i] == steps[..i];
        Take(steps[i]);
      }
      assert steps[..|steps|] == steps;
    }
  }
}
