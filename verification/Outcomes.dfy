/**
 What a request can still become: whether, from a given state, some continuation of the run lets a
 bearer request through `authenticate`, or gives a refresh its new token. Both questions are
 answered exactly, for every phase of the handler, by a look at the state.
 */
module Outcomes {
  import opened Wrappers
  import opened Sessions
  import opened Chains
  import opened Tokens
  import opened Handlers
  import opened Runs
  import opened SessionSafety

  predicate Accepted(s: State, pid: Pid) {
    pid in s.procs && s.procs[pid].BearerAccepted?
  }

  /** Some continuation of the run lets the request through. */
  ghost predicate MayBeAccepted(s: State, pid: Pid) {
    exists steps: seq<Step> :: Accepted(Exec(s, steps), pid)
  }

  predicate HasNewToken(s: State, pid: Pid) {
    pid in s.procs && s.procs[pid].Done? && s.procs[pid].answer.Refreshed?
  }

  /** Some continuation of the run answers the refresh with a new token. */
  ghost predicate MayBeRefreshed(s: State, pid: Pid) {
    exists steps: seq<Step> :: HasNewToken(Exec(s, steps), pid)
  }

  lemma StepThenAccepted(s: State, step: Step, pid: Pid)
    requires MayBeAccepted(Next(s, step), pid)
    ensures MayBeAccepted(s, pid)
  {
    var steps: seq<Step> :| Accepted(Exec(Next(s, step), steps), pid);
    OneStepFirst(s, step, steps);
    assert Accepted(Exec(s, [step] + steps), pid);
  }

  lemma StepThenRefreshed(s: State, step: Step, pid: Pid)
    requires MayBeRefreshed(Next(s, step), pid)
    ensures MayBeRefreshed(s, pid)
  {
    var steps: seq<Step> :| HasNewToken(Exec(Next(s, step), steps), pid);
    OneStepFirst(s, step, steps);
    assert HasNewToken(Exec(s, [step] + steps), pid);
  }

  lemma OneStepFirst(s: State, step: Step, steps: seq<Step>)
    ensures Exec(s, [step] + steps) == Exec(Next(s, step), steps)
  {
    ExecSplit(s, [step], steps);
    assert [step][..0] == [] && Exec(s, [step]) == Next(s, step);
  }

  // ---- Fresh values -----------------------------------------------------------------------

  lemma {:induction false} Above(used: set<nat>) returns (n: nat)
    ensures forall k :: k in used ==> k < n
    decreases used
  {
    if used == {} {
      n := 0;
    } else {
      var k :| k in used;
      var m := Above(used - {k});
      n := if m <= k then k + 1 else m;
      forall j | j in used ensures j < n {
        assert j == k || j in used - {k};
      }
    }
  }

  predicate Unused(t: Table, token: Token) {
    forall id :: id in t ==> t[id].tokenHash != Sha256(token)
  }

  /** There is always an id, a family and a token that no row has. */
  lemma FreshValues(t: Table) returns (id: SessionId, f: FamilyId, token: Token)
    ensures id !in t && (forall k :: k in t ==> t[k].familyId != f) && Unused(t, token)
  {
    id := Above(t.Keys);
    f := FreshFamily(t);
    token := FreshToken(t);
  }

  lemma FreshFamily(t: Table) returns (f: FamilyId)
    ensures forall k :: k in t ==> t[k].familyId != f
  {
    var used := set k | k in t :: t[k].familyId;
    f := Above(used);
    forall k | k in t ensures t[k].familyId != f {
      assert t[k].familyId in used;
    }
  }

  lemma FreshToken(t: Table) returns (token: Token)
    ensures Unused(t, token)
  {
    var used := set k | k in t :: t[k].tokenHash.preimage;
    token := Above(used);
    forall k | k in t ensures t[k].tokenHash != Sha256(token) {
      assert t[k].tokenHash.preimage in used;
    }
  }

  /** A sign-in that gives user `user` the session `id` with `token`, registering the user if need be. */
  lemma Issue(s: State, user: UserId, id: SessionId, f: FamilyId, token: Token) returns (s': State)
    requires Inv(s) && id !in s.sessions && Unused(s.sessions, token)
    requires forall k :: k in s.sessions ==> s.sessions[k].familyId != f
    ensures s' == Next(Next(s, NewUser(user)), SignIn(user, id, f, token)) && Inv(s')
    ensures s'.clock == s.clock && s'.cfg == s.cfg && s'.procs == s.procs
    ensures s'.users == if user in s.users then s.users else s.users[user := User(s.clock)]
    ensures s'.sessions == s.sessions[id := NewRow(id, user, f, token, s.clock, s.cfg.refreshTtl)]
  {
    var known := Next(s, NewUser(user));
    s' := Next(known, SignIn(user, id, f, token));
    StepKeepsInv(s, NewUser(user));
    StepKeepsInv(known, SignIn(user, id, f, token));
  }

  // ---- Bearer requests ----------------------------------------------------------------------

  /** The user row a lookup finds now, or would find at best if the user is yet to register. */
  function UserAs(s: State, sub: UserId): User {
    if sub in s.users then s.users[sub] else User(s.clock)
  }

  /** The verdict over the session row as it is now; an id not yet issued may still be. */
  predicate MayPassJudge(s: State, claims: Claims, user: User) {
    if claims.sid in s.sessions then Judge(claims, user, FindById(s.sessions, claims.sid), s.clock).Ok?
    else s.cfg.refreshTtl > 0 && OldEnough(claims, user)
  }

  /** What each phase still has to look up is taken as it is now, what it holds as it was loaded. */
  predicate WouldPass(s: State, p: Proc) {
    match p
    case BearerArrived(claims, _) => !Expired(claims, s.clock) && MayPassJudge(s, claims, UserAs(s, claims.sub))
    case BearerVerified(claims, _) => MayPassJudge(s, claims, UserAs(s, claims.sub))
    case BearerUser(claims, _, user) => MayPassJudge(s, claims, user)
    case BearerSession(claims, _, user, found) => Judge(claims, user, found, s.clock).Ok?
    case _ => false
  }

  /** Refused, or on its way there. */
  predicate TurnedAway(s: State, p: Proc) {
    || (AuthenticatePhase(p) && !WouldPass(s, p))
    || (p.Done? && (p.answer == Refused || p.answer == ServerError || p.answer.Unauthorized?))
  }

  lemma TurnedAwayTurn(s: State, pid: Pid, c: Choice)
    requires Inv(s) && pid in s.procs && TurnedAway(s, s.procs[pid])
    ensures TurnedAway(Next(s, Run(pid, c)), Next(s, Run(pid, c)).procs[pid])
  {
    if AuthenticatePhase(s.procs[pid]) {
      var s' := Next(s, Run(pid, c));
      assert s'.sessions == s.sessions && s'.users == s.users && s'.clock == s.clock && s'.cfg == s.cfg;
    }
  }

  /** Whoever registers in a step has a password as old as the step. */
  lemma UserOnlyAges(s: State, step: Step, sub: UserId)
    requires Inv(s)
    ensures UserAs(s, sub).passwordChangedAt <= UserAs(Next(s, step), sub).passwordChangedAt
  {
    UsersLater(s, step);
    if sub !in s.users && step.Run? && step.pid in s.procs {
      OnlyOwnUserChanges(s, step.pid, step.choice, sub);
    }
  }

  lemma JudgeOnlyWorsens(s: State, step: Step, claims: Claims, user: User, user': User)
    requires Inv(s) && !MayPassJudge(s, claims, user) && user.passwordChangedAt <= user'.passwordChangedAt
    ensures !MayPassJudge(Next(s, step), claims, user')
  {
    var s' := Next(s, step);
    StepLater(s, step);
    StepKeepsInv(s, step);
    if claims.sid in s'.sessions && claims.sid !in s.sessions {
      assert RowOk(s'.sessions, claims.sid, s'.clock, s'.cfg.refreshTtl);
    }
  }

  lemma StaysTurnedAway(s: State, step: Step, p: Proc)
    requires Inv(s) && TurnedAway(s, p)
    ensures TurnedAway(Next(s, step), p)
  {
    StepLater(s, step);
    match p {
      case BearerArrived(claims, _) =>
        UserOnlyAges(s, step, claims.sub);
        if !MayPassJudge(s, claims, UserAs(s, claims.sub)) {
          JudgeOnlyWorsens(s, step, claims, UserAs(s, claims.sub), UserAs(Next(s, step), claims.sub));
        }
      case BearerVerified(claims, _) =>
        UserOnlyAges(s, step, claims.sub);
        JudgeOnlyWorsens(s, step, claims, UserAs(s, claims.sub), UserAs(Next(s, step), claims.sub));
      case BearerUser(claims, _, user) =>
        JudgeOnlyWorsens(s, step, claims, user, user);
      case _ =>
    }
  }

  /** A request that would not pass now is refused over every run. */
  lemma {:induction false} TurnedAwayForGood(s: State, steps: seq<Step>, pid: Pid)
    requires Inv(s) && pid in s.procs && TurnedAway(s, s.procs[pid])
    ensures var s' := Exec(s, steps);
            pid in s'.procs && TurnedAway(s', s'.procs[pid])
    decreases |steps|
  {
    if steps == [] {
    } else {
      var earlier, step := steps[..|steps| - 1], steps[|steps| - 1];
      TurnedAwayForGood(s, earlier, pid);
      RunKeepsInv(s, earlier);
      if step.Run? && step.pid == pid {
        TurnedAwayTurn(Exec(s, earlier), pid, step.choice);
      } else {
        OthersKeepProc(Exec(s, earlier), step, pid);
        StaysTurnedAway(Exec(s, earlier), step, Exec(s, earlier).procs[pid]);
      }
    }
  }

  /** How many turns `authenticate` still takes. */
  function TurnsLeft(p: Proc): nat {
    match p
    case BearerArrived(_, _) => 4
    case BearerVerified(_, _) => 3
    case BearerUser(_, _, _) => 2
    case BearerSession(_, _, _, _) => 1
    case _ => 0
  }

  lemma PassingTurn(s: State, pid: Pid, c: Choice)
    requires Inv(s) && pid in s.procs && WouldPass(s, s.procs[pid]) && !c.fails
    requires s.procs[pid].claims.sid in s.sessions || s.procs[pid].BearerSession?
    ensures var s' := Next(s, Run(pid, c));
            && s'.sessions == s.sessions
            && TurnsLeft(s'.procs[pid]) == TurnsLeft(s.procs[pid]) - 1
            && (s'.procs[pid].BearerAccepted?
                || (WouldPass(s', s'.procs[pid]) && s'.procs[pid].claims == s.procs[pid].claims))
  {
  }

  lemma {:induction false} PassingIsAccepted(s: State, pid: Pid)
    requires Inv(s) && pid in s.procs && WouldPass(s, s.procs[pid])
    requires s.procs[pid].claims.sid in s.sessions || s.procs[pid].BearerSession?
    ensures MayBeAccepted(s, pid)
    decreases TurnsLeft(s.procs[pid])
  {
    var turn := Run(pid, Choice(0, 0, false));
    PassingTurn(s, pid, turn.choice);
    StepKeepsInv(s, turn);
    if Accepted(Next(s, turn), pid) {
      var none: seq<Step> := [];
      assert Accepted(Exec(Next(s, turn), none), pid);
    } else {
      PassingIsAccepted(Next(s, turn), pid);
    }
    StepThenAccepted(s, turn, pid);
  }

  /**
   A request still in `authenticate` can be accepted, in some continuation of the run, exactly when
   it would pass now: the rows it has loaded as it holds them, the rest as the tables stand.
   */
  lemma AcceptanceIsDecided(s: State, pid: Pid)
    requires Inv(s) && pid in s.procs && AuthenticatePhase(s.procs[pid])
    ensures MayBeAccepted(s, pid) <==> WouldPass(s, s.procs[pid])
  {
    var p := s.procs[pid];
    if !WouldPass(s, p) {
      forall steps: seq<Step> ensures !Accepted(Exec(s, steps), pid) {
        TurnedAwayForGood(s, steps, pid);
      }
    } else if p.claims.sid in s.sessions || p.BearerSession? {
      PassingIsAccepted(s, pid);
    } else {
      var _, f, token := FreshValues(s.sessions);
      var s' := Issue(s, p.claims.sub, p.claims.sid, f, token);
      PassingIsAccepted(s', pid);
      StepThenAccepted(Next(s, NewUser(p.claims.sub)), SignIn(p.claims.sub, p.claims.sid, f, token), pid);
      StepThenAccepted(s, NewUser(p.claims.sub), pid);
    }
  }

  /** For a token of a session that exists, the rows still to be loaded are judged as they stand. */
  lemma IssuedSessionPasses(s: State, claims: Claims, action: Action)
    requires Inv(s) && claims.sid in s.sessions
    ensures WouldPass(s, BearerArrived(claims, action))
            <==> && !Expired(claims, s.clock) && claims.sub in s.users
                 && Judge(claims, s.users[claims.sub], Some(s.sessions[claims.sid]), s.clock).Ok?
  {
  }

  // ---- Revoked sessions -----------------------------------------------------------------------

  /** `authenticate` has the user and the session row in hand, and what it holds passes. */
  predicate PassesAsLoaded(s: State, pid: Pid) {
    && pid in s.procs && s.procs[pid].BearerSession?
    && Judge(s.procs[pid].claims, s.procs[pid].user, s.procs[pid].found, s.clock).Ok?
  }

  predicate IsRequestFor(s: State, pid: Pid, sid: SessionId) {
    pid in s.procs && AuthenticatePhase(s.procs[pid]) && s.procs[pid].claims.sid == sid
  }

  /**
   Once a session is revoked, a request for it that is still in `authenticate` can be accepted in
   some continuation exactly when it had loaded the row before, and what it loaded passes now.
   */
  lemma RevokedSessionAcceptance(s: State, pid: Pid, sid: SessionId)
    requires Inv(s) && sid in s.sessions && s.sessions[sid].revokedAt.Some? && IsRequestFor(s, pid, sid)
    ensures MayBeAccepted(s, pid) <==> PassesAsLoaded(s, pid)
  {
    AcceptanceIsDecided(s, pid);
  }

  /** The same holds of every later state. */
  lemma RevokedStaysOut(s: State, steps: seq<Step>, id: SessionId, request: Pid)
    requires Inv(s) && id in s.sessions && s.sessions[id].revokedAt.Some?
    requires IsRequestFor(Exec(s, steps), request, id)
    ensures MayBeAccepted(Exec(s, steps), request) <==> PassesAsLoaded(Exec(s, steps), request)
  {
    RunKeepsInv(s, steps);
    RevocationIsFinal(s, steps, id);
    RevokedSessionAcceptance(Exec(s, steps), request, id);
  }

  /**
   Once a refresh has been answered SESSION_REVOKED, a bearer request for any session of that
   family, whenever it arrives, can be accepted exactly when it holds a row it loaded live before
   the burning. `Races.BurnedYetAccepted` is a run in which one does.
   */
  lemma BurnedFamilyAcceptance(s: State, steps: seq<Step>, pid: Pid, f: FamilyId, request: Pid)
    requires Inv(s) && pid in s.procs && s.procs[pid] == Done(FamilyBurned(f))
    requires var s' := Exec(s, steps);
             && request in s'.procs && AuthenticatePhase(s'.procs[request])
             && InFamily(s'.sessions, s'.procs[request].claims.sid, f)
    ensures MayBeAccepted(Exec(s, steps), request) <==> PassesAsLoaded(Exec(s, steps), request)
  {
    assert ProcOk(s, s.procs[pid]);
    RunKeepsInv(s, steps);
    var s' := Exec(s, steps);
    assert Dead(s'.sessions, f);
    RevokedSessionAcceptance(s', request, s'.procs[request].claims.sid);
  }

  /** After logout-all, a request for one of those sessions gets through only as loaded before. */
  lemma LogoutAllStopsRequests(s: State, pid: Pid, c: Choice, steps: seq<Step>, id: SessionId, request: Pid)
    requires Inv(s) && pid in s.procs && !c.fails
    requires s.procs[pid].BearerAccepted? && s.procs[pid].action.EndAllSessions?
    requires id in s.sessions && s.sessions[id].userId == s.procs[pid].sub
    requires IsRequestFor(Exec(Next(s, Run(pid, c)), steps), request, id)
    ensures var after := Exec(Next(s, Run(pid, c)), steps);
            MayBeAccepted(after, request) <==> PassesAsLoaded(after, request)
  {
    var s' := Next(s, Run(pid, c));
    StepKeepsInv(s, Run(pid, c));
    assert s'.sessions[id].revokedAt.Some?;
    RevokedStaysOut(s', steps, id, request);
  }

  /** And after a password change, a request for any session but the caller's. */
  lemma PasswordChangeStopsRequests(s: State, pid: Pid, c: Choice, steps: seq<Step>, id: SessionId, request: Pid)
    requires Inv(s) && pid in s.procs && !c.fails && s.procs[pid].PasswordUpdated?
    requires id in s.sessions && s.sessions[id].userId == s.procs[pid].sub && id != s.procs[pid].sid
    requires IsRequestFor(Exec(Next(s, Run(pid, c)), steps), request, id)
    ensures var after := Exec(Next(s, Run(pid, c)), steps);
            MayBeAccepted(after, request) <==> PassesAsLoaded(after, request)
  {
    var s' := Next(s, Run(pid, c));
    StepKeepsInv(s, Run(pid, c));
    assert s'.sessions[id].revokedAt.Some?;
    RevokedStaysOut(s', steps, id, request);
  }

  // ---- Changed passwords ------------------------------------------------------------------------

  /** `authenticate` holds a user row older than the table's, and would pass with it. */
  predicate PassesWithOldUser(s: State, pid: Pid) {
    && pid in s.procs && (s.procs[pid].BearerUser? || s.procs[pid].BearerSession?)
    && WouldPass(s, s.procs[pid])
  }

  /**
   A token too old for its user's last password change can be accepted exactly when its request
   had loaded the user row before that change, and would still pass with that row.
   `Races.OldTokenYetAccepted` is a run in which one does.
   */
  lemma OldTokenAcceptance(s: State, pid: Pid)
    requires Inv(s) && pid in s.procs && AuthenticatePhase(s.procs[pid])
    requires var claims := s.procs[pid].claims;
             claims.sub in s.users && !OldEnough(claims, s.users[claims.sub])
    ensures MayBeAccepted(s, pid) <==> PassesWithOldUser(s, pid)
    ensures PassesWithOldUser(s, pid) ==>
              Seconds(s.procs[pid].user.passwordChangedAt)
              < Seconds(s.users[s.procs[pid].claims.sub].passwordChangedAt)
  {
    AcceptanceIsDecided(s, pid);
  }

  /**
   After a password change, in every later state, that is the fate of every request whose token is
   from before the second of the change, for the caller's own session too.
   */
  lemma PasswordChangeStopsOldTokens(s: State, pid: Pid, c: Choice, steps: seq<Step>, request: Pid)
    requires Inv(s) && pid in s.procs && !c.fails
    requires s.procs[pid].BearerAccepted? && s.procs[pid].action.ChangePassword?
    requires var after := Exec(Next(s, Run(pid, c)), steps);
             && request in after.procs && AuthenticatePhase(after.procs[request])
             && after.procs[request].claims.sub == s.procs[pid].sub
             && after.procs[request].claims.iat < Seconds(s.clock)
    ensures var after := Exec(Next(s, Run(pid, c)), steps);
            MayBeAccepted(after, request) <==> PassesWithOldUser(after, request)
  {
    assert ProcOk(s, s.procs[pid]);
    StepKeepsInv(s, Run(pid, c));
    RunKeepsInv(Next(s, Run(pid, c)), steps);
    OldTokenAcceptance(Exec(Next(s, Run(pid, c)), steps), request);
  }

  // ---- Refreshes --------------------------------------------------------------------------------

  predicate LiveNow(s: State, row: Session) {
    row.id in s.sessions && s.sessions[row.id].Live()
  }

  /**
   A refresh has everything it needs while its row is live, and unexpired if that has yet to be
   checked; once its new id and token are drawn, while nobody else has taken them. A token nobody
   holds may still be issued.
   */
  ghost predicate WouldRotate(s: State, p: Proc) {
    match p
    case RefreshArrived(cookie) =>
      cookie.Some?
      && (match FindByToken(s.sessions, cookie.value)
          case Some(row) => row.IsActive(s.clock)
          case None => s.cfg.refreshTtl > 0)
    case RefreshLooked(found) => found.Some? && found.value.IsActive(s.clock) && LiveNow(s, found.value)
    case RefreshChecked(row) => LiveNow(s, row)
    case RefreshUserLoaded(row) => LiveNow(s, row)
    case RefreshStamped(row, _, nextId, token) =>
      LiveNow(s, row) && nextId !in s.sessions && Unused(s.sessions, token)
    case RefreshCommitted(_, _, _) => true
    case _ => false
  }

  /** Answered without a new token, or on its way there. */
  ghost predicate Denied(s: State, p: Proc) {
    (RefreshPhase(p) && !WouldRotate(s, p)) || (p.Done? && !p.answer.Refreshed?)
  }

  /** A rotation succeeds only with its row live and its new id and token nobody's. */
  lemma ConflictFails(s: State, p: Proc)
    requires p.RefreshStamped? && !WouldRotate(s, p)
    ensures forall fails ::
              RotateResult(s.sessions, Rotate(p.row, p.now, p.nextId, p.token, fails), s.cfg.refreshTtl).Err?
  {
    var retired := Retire(s.sessions, p.row.id, p.nextId, p.now);
    if LiveNow(s, p.row) && !Unused(s.sessions, p.token) {
      var id :| id in s.sessions && s.sessions[id].tokenHash == Sha256(p.token);
      assert id in retired && retired[id].tokenHash == Sha256(p.token);
    }
  }

  lemma DeniedTurn(s: State, pid: Pid, c: Choice)
    requires Inv(s) && pid in s.procs && Denied(s, s.procs[pid])
    ensures Denied(Next(s, Run(pid, c)), Next(s, Run(pid, c)).procs[pid])
  {
    var p, s' := s.procs[pid], Next(s, Run(pid, c));
    assert ProcOk(s, p);
    if p.RefreshArrived? && p.cookie.Some? {
      FoundIsKnown(s, p.cookie.value);
    }
    if p.RefreshStamped? {
      ConflictFails(s, p);
    } else if p.RefreshBurning? {
    } else {
      assert s'.sessions == s.sessions && s'.clock == s.clock && s'.cfg == s.cfg;
    }
  }

  /** A token found once is found again, with its row older. */
  lemma FoundAgain(s: State, s': State, token: Token)
    requires Inv(s) && Inv(s') && Later(s, s') && FindByToken(s.sessions, token).Some?
    ensures var now, later := FindByToken(s.sessions, token), FindByToken(s'.sessions, token);
            later.Some? && Evolves(now.value, later.value)
  {
    var id :| id in s.sessions && s.sessions[id].tokenHash == Sha256(token);
    LookupIsTheRow(s, id, token);
    LookupIsTheRow(s', id, token);
  }

  lemma LookupOnlyWorsens(s: State, step: Step, token: Token)
    requires Inv(s) && !WouldRotate(s, RefreshArrived(Some(token)))
    ensures !WouldRotate(Next(s, step), RefreshArrived(Some(token)))
  {
    var s' := Next(s, step);
    StepLater(s, step);
    StepKeepsInv(s, step);
    if FindByToken(s.sessions, token).Some? {
      FoundAgain(s, s', token);
    } else if FindByToken(s'.sessions, token).Some? {
      var id :| id in s'.sessions && s'.sessions[id] == FindByToken(s'.sessions, token).value;
      assert RowOk(s'.sessions, id, s'.clock, s'.cfg.refreshTtl);
    }
  }

  lemma StaysDenied(s: State, step: Step, p: Proc)
    requires Inv(s) && Denied(s, p) && ProcOk(s, p)
    ensures Denied(Next(s, step), p)
  {
    StepLater(s, step);
    if p.RefreshArrived? && p.cookie.Some? {
      LookupOnlyWorsens(s, step, p.cookie.value);
    }
  }

  /** A refresh that lacks what it needs never gets a new token, over any run. */
  lemma {:induction false} DeniedForGood(s: State, steps: seq<Step>, pid: Pid)
    requires Inv(s) && pid in s.procs && Denied(s, s.procs[pid])
    ensures var s' := Exec(s, steps);
            pid in s'.procs && Denied(s', s'.procs[pid])
    decreases |steps|
  {
    if steps == [] {
    } else {
      var earlier, step := steps[..|steps| - 1], steps[|steps| - 1];
      DeniedForGood(s, earlier, pid);
      RunKeepsInv(s, earlier);
      var before := Exec(s, earlier);
      if step.Run? && step.pid == pid {
        DeniedTurn(before, pid, step.choice);
      } else {
        OthersKeepProc(before, step, pid);
        StaysDenied(before, step, before.procs[pid]);
      }
    }
  }

  function RefreshTurnsLeft(p: Proc): nat {
    match p
    case RefreshArrived(_) => 6
    case RefreshLooked(_) => 5
    case RefreshChecked(_) => 4
    case RefreshUserLoaded(_) => 3
    case RefreshStamped(_, _, _, _) => 2
    case RefreshCommitted(_, _, _) => 1
    case _ => 0
  }

  lemma RotatingTurn(s: State, pid: Pid, c: Choice)
    requires Inv(s) && pid in s.procs && WouldRotate(s, s.procs[pid])
    requires s.procs[pid].RefreshArrived? ==> FindByToken(s.sessions, s.procs[pid].cookie.value).Some?
    requires !c.fails && c.freshId !in s.sessions && Unused(s.sessions, c.freshToken)
    ensures var s' := Next(s, Run(pid, c));
            && RefreshTurnsLeft(s'.procs[pid]) == RefreshTurnsLeft(s.procs[pid]) - 1
            && (HasNewToken(s', pid) || WouldRotate(s', s'.procs[pid]))
  {
    var p := s.procs[pid];
    assert ProcOk(s, p);
    if p.RefreshArrived? {
      FoundIsKnown(s, p.cookie.value);
    }
    if p.RefreshStamped? {
      assert !Conflicts(Retire(s.sessions, p.row.id, p.nextId, p.now),
                        NewRow(p.nextId, p.row.userId, p.row.familyId, p.token, p.now, s.cfg.refreshTtl));
    }
  }

  lemma {:induction false} RotatingIsRefreshed(s: State, pid: Pid)
    requires Inv(s) && pid in s.procs && WouldRotate(s, s.procs[pid])
    requires s.procs[pid].RefreshArrived? ==> FindByToken(s.sessions, s.procs[pid].cookie.value).Some?
    ensures MayBeRefreshed(s, pid)
    decreases RefreshTurnsLeft(s.procs[pid])
  {
    var id, _, token := FreshValues(s.sessions);
    var turn := Run(pid, Choice(id, token, false));
    RotatingTurn(s, pid, turn.choice);
    StepKeepsInv(s, turn);
    if HasNewToken(Next(s, turn), pid) {
      var none: seq<Step> := [];
      assert HasNewToken(Exec(Next(s, turn), none), pid);
    } else {
      RotatingIsRefreshed(Next(s, turn), pid);
    }
    StepThenRefreshed(s, turn, pid);
  }

  /**
   A refresh can be answered with a new token, in some continuation of the run, exactly when the
   row it holds or would look up is still live, is unexpired if that has yet to be checked, and
   nobody has taken the id or token it drew.
   */
  lemma RotationIsDecided(s: State, pid: Pid)
    requires Inv(s) && pid in s.procs && RefreshPhase(s.procs[pid])
    ensures MayBeRefreshed(s, pid) <==> WouldRotate(s, s.procs[pid])
  {
    var p := s.procs[pid];
    if !WouldRotate(s, p) {
      forall steps: seq<Step> ensures !HasNewToken(Exec(s, steps), pid) {
        DeniedForGood(s, steps, pid);
      }
    } else if p.RefreshArrived? && FindByToken(s.sessions, p.cookie.value).None? {
      var id, f, _ := FreshValues(s.sessions);
      var s' := Issue(s, 0, id, f, p.cookie.value);
      assert s'.sessions[id].tokenHash == Sha256(p.cookie.value);
      LookupIsTheRow(s', id, p.cookie.value);
      RotatingIsRefreshed(s', pid);
      StepThenRefreshed(Next(s, NewUser(0)), SignIn(0, id, f, p.cookie.value), pid);
      StepThenRefreshed(s, NewUser(0), pid);
    } else {
      RotatingIsRefreshed(s, pid);
    }
  }
}
