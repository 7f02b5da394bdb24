/**
 The promises of the rotating-session protocol, stated over whole runs of the server: families
 are chains, a token rotates once, revocation is final, and nobody touches another user's rows.
 */
module SessionSafety {
  import opened Wrappers
  import opened Sessions
  import opened Chains
  import opened Tokens
  import opened Handlers
  import opened Runs

  // ---- Families ---------------------------------------------------------------------------

  /**
   In every reachable state each family is one finite chain of links with one owner. Following
   the links from any member ends at the same row, the only one without a successor and the only
   one that can be live; a row has a successor exactly when its reason is `Rotated`; and no row
   is the successor of two.
   */
  lemma FamiliesAreChains(cfg: Config, clock: int, steps: seq<Step>, a: SessionId, b: SessionId)
    requires a in Exec(Init(cfg, clock), steps).sessions && b in Exec(Init(cfg, clock), steps).sessions
    ensures var t := Exec(Init(cfg, clock), steps).sessions;
            && HasChain(t, t[a].familyId)
            && (t[a].replacedBy.Some? <==> t[a].revokedReason == Some(Rotated))
            && (t[a].familyId == t[b].familyId ==>
                  && t[a].userId == t[b].userId
                  && Follow(t, a, |t|) == Follow(t, b, |t|)
                  && (b == Follow(t, a, |t|) <==> t[b].replacedBy.None?)
                  && (t[b].Live() ==> b == Follow(t, a, |t|)))
            && (t[a].replacedBy.Some? && t[a].replacedBy == t[b].replacedBy ==> a == b)
            && (t[a].replacedBy.Some? ==> forall n: nat :: n > 0 ==> Follow(t, a, n) != a)
  {
    var s := Exec(Init(cfg, clock), steps);
    var t, ttl := s.sessions, s.cfg.refreshTtl;
    Reachable(cfg, clock, steps);
    assert InFamily(t, a, t[a].familyId) && InFamily(t, b, t[b].familyId);
    assert RowOk(t, a, s.clock, ttl);
    EveryMemberReachesTheTail(t, s.clock, ttl, a, b);
    if t[a].replacedBy.Some? {
      if t[a].replacedBy == t[b].replacedBy {
        LinksInjective(t, s.clock, ttl, a, b);
      }
      forall n: nat | n > 0 ensures Follow(t, a, n) != a {
        NeverRevisits(t, a, n);
      }
    }
  }

  /** In every reachable state: born when its predecessor was retired, and never expiring sooner. */
  lemma SuccessorTimes(cfg: Config, clock: int, steps: seq<Step>, id: SessionId)
    requires id in Exec(Init(cfg, clock), steps).sessions
    requires Exec(Init(cfg, clock), steps).sessions[id].replacedBy.Some?
    ensures var t := Exec(Init(cfg, clock), steps).sessions;
            var retired := t[id];
            && retired.replacedBy.value in t
            && retired.revokedAt == Some(t[retired.replacedBy.value].createdAt)
            && retired.createdAt <= retired.revokedAt.value
            && retired.expiresAt <= t[retired.replacedBy.value].expiresAt
  {
    var s := Exec(Init(cfg, clock), steps);
    Reachable(cfg, clock, steps);
    TimesAlongALink(s.sessions, s.clock, s.cfg.refreshTtl, id);
  }

  /**
   In every reachable state, revoking a family reports 0 or 1, and 1 exactly when its tail is
   live; any revocation reports the number of live rows it took away.
   */
  lemma RevocationReports(cfg: Config, clock: int, steps: seq<Step>, statement: Statement)
    requires statement.RevokeFamily? || statement.RevokeSession? || statement.RevokeAllForUser?
    ensures var s := Exec(Init(cfg, clock), steps);
            var count := |Matches(s.sessions, statement)|;
            var after := Execute(s.sessions, statement, s.clock, cfg.refreshTtl);
            && count == |LiveIds(s.sessions)| - |LiveIds(after)|
            && (statement.RevokeFamily? ==>
                  && count <= 1
                  && (count == 1
                      <==> exists id :: InFamily(s.sessions, id, statement.familyId) && s.sessions[id].Live()))
  {
    var s := Exec(Init(cfg, clock), steps);
    Reachable(cfg, clock, steps);
    RevocationCount(s.sessions, Matches(s.sessions, statement), statement.reason, s.clock);
    if statement.RevokeFamily? {
      FamilyRevocationCount(s.sessions, s.clock, s.cfg.refreshTtl, statement.familyId, statement.reason);
    }
  }

  // ---- Each token rotates once ------------------------------------------------------------

  /** Step `i` of the run successfully rotates the session that `token` belongs to. */
  ghost predicate RotatesAt(s: State, steps: seq<Step>, i: nat, token: Token)
    requires i < |steps|
  {
    var before := Exec(s, steps[..i]);
    var statement := StatementOf(before, steps[i]);
    && statement.Rotate?
    && statement.current.tokenHash == Sha256(token)
    && RotateResult(before.sessions, statement, before.cfg.refreshTtl).Ok?
  }

  lemma {:induction false} ExecSplit(s: State, first: seq<Step>, second: seq<Step>)
    ensures Exec(s, first + second) == Exec(Exec(s, first), second)
    decreases |second|
  {
    if second == [] {
      assert first + second == first;
    } else {
      var all := first + second;
      assert all[..|all| - 1] == first + second[..|second| - 1];
      ExecSplit(s, first, second[..|second| - 1]);
      assert all[|all| - 1] == second[|second| - 1];
    }
  }

  /** States along a run are later and later. */
  lemma LaterAlong(s: State, steps: seq<Step>, i: nat, j: nat)
    requires Inv(s) && i <= j <= |steps|
    ensures Inv(Exec(s, steps[..i])) && Later(Exec(s, steps[..i]), Exec(s, steps[..j]))
  {
    RunKeepsInv(s, steps[..i]);
    assert steps[..j] == steps[..i] + steps[i..j];
    ExecSplit(s, steps[..i], steps[i..j]);
    RunKeepsInv(Exec(s, steps[..i]), steps[i..j]);
  }

  /** Rotating retires the row the token belongs to, so the step finds it live and leaves it revoked. */
  lemma RotationRetires(s: State, step: Step, token: Token) returns (id: SessionId)
    requires Inv(s)
    requires var statement := StatementOf(s, step);
             && statement.Rotate? && statement.current.tokenHash == Sha256(token)
             && RotateResult(s.sessions, statement, s.cfg.refreshTtl).Ok?
    ensures id in s.sessions && s.sessions[id].tokenHash == Sha256(token) && s.sessions[id].Live()
    ensures id in Next(s, step).sessions && Next(s, step).sessions[id].revokedAt.Some?
  {
    StatementGuarded(s, step);
    id := StatementOf(s, step).current.id;
  }

  /** However many handlers hold the same live snapshot, a refresh token buys one rotation. */
  lemma TokenRotatesOnce(s: State, steps: seq<Step>, i: nat, j: nat, token: Token)
    requires Inv(s) && i < j < |steps|
    requires RotatesAt(s, steps, i, token)
    ensures !RotatesAt(s, steps, j, token)
  {
    LaterAlong(s, steps, i, i);
    LaterAlong(s, steps, i + 1, j);
    LaterAlong(s, steps, j, j);
    assert steps[..i + 1][..i] == steps[..i];
    var id := RotationRetires(Exec(s, steps[..i]), steps[i], token);
    assert Exec(s, steps[..j]).sessions[id].revokedAt.Some?;
    if RotatesAt(s, steps, j, token) {
      var again := RotationRetires(Exec(s, steps[..j]), steps[j], token);
    }
  }

  /**
   A rotation that does not commit, because it lost the race or because the insert failed after
   the update, leaves the whole table as it was. One that commits retires the presented row,
   stores one new live row beside it, and changes no other.
   */
  lemma RotationAllOrNothing(s: State, pid: Pid, c: Choice)
    requires Inv(s) && pid in s.procs && s.procs[pid].RefreshStamped?
    ensures var s', p := Next(s, Run(pid, c)), s.procs[pid];
            if s'.procs[pid].RefreshCommitted? then
              && p.row.id in s.sessions && s.sessions[p.row.id].Live()
              && p.nextId !in s.sessions
              && s'.sessions.Keys == s.sessions.Keys + {p.nextId}
              && s'.sessions[p.nextId].Live()
              && s'.sessions[p.nextId].tokenHash == Sha256(p.token)
              && s'.sessions[p.nextId].familyId == s.sessions[p.row.id].familyId
              && s'.sessions[p.nextId].userId == s.sessions[p.row.id].userId
              && s'.sessions[p.row.id].replacedBy == Some(p.nextId)
              && s'.sessions[p.row.id].revokedReason == Some(Rotated)
              && (forall id :: id in s.sessions && id != p.row.id ==> s'.sessions[id] == s.sessions[id])
            else
              && s'.sessions == s.sessions
              && (!(p.row.id in s.sessions && s.sessions[p.row.id].Live()) <==> s'.procs[pid] == Done(SessionLost))
  {
    assert ProcOk(s, s.procs[pid]);
  }

  // ---- Revocation is final ----------------------------------------------------------------

  /** No step of any run changes a revocation mark, a reason or a link once the row is revoked. */
  lemma RevocationIsFinal(s: State, steps: seq<Step>, id: SessionId)
    requires Inv(s) && id in s.sessions && s.sessions[id].revokedAt.Some?
    ensures var t' := Exec(s, steps).sessions;
            && id in t'
            && t'[id].revokedAt == s.sessions[id].revokedAt
            && t'[id].revokedReason == s.sessions[id].revokedReason
            && t'[id].replacedBy == s.sessions[id].replacedBy
  {
    RunKeepsInv(s, steps);
  }

  /** A family with no live row never has one again, over any run. */
  lemma DeadFamilyStaysDead(s: State, steps: seq<Step>, f: FamilyId)
    requires Inv(s) && Dead(s.sessions, f)
    ensures Dead(Exec(s, steps).sessions, f)
  {
    RunKeepsInv(s, steps);
  }

  /** Every session the user had when logout-all ran is rejected from then on. */
  lemma {:induction false} LogoutAllIsFinal(s: State, pid: Pid, c: Choice, steps: seq<Step>,
                                            id: SessionId, claims: Claims, user: User, now: int)
    requires Inv(s) && pid in s.procs && !c.fails
    requires s.procs[pid].BearerAccepted? && s.procs[pid].action.EndAllSessions?
    requires id in s.sessions && s.sessions[id].userId == s.procs[pid].sub && claims.sid == id
    ensures var after := Exec(Next(s, Run(pid, c)), steps);
            && id in after.sessions && after.sessions[id].revokedAt.Some?
            && Judge(claims, user, FindById(after.sessions, id), now).Err?
  {
    var s' := Next(s, Run(pid, c));
    StepKeepsInv(s, Run(pid, c));
    assert s'.sessions[id].revokedAt.Some?;
    RevocationIsFinal(s', steps, id);
  }

  /** A password change does the same to every session but the caller's, which it leaves alone. */
  lemma {:induction false} PasswordChangeIsFinal(s: State, pid: Pid, c: Choice, steps: seq<Step>,
                                                 id: SessionId, claims: Claims, user: User, now: int)
    requires Inv(s) && pid in s.procs && !c.fails && s.procs[pid].PasswordUpdated?
    requires id in s.sessions && s.sessions[id].userId == s.procs[pid].sub && claims.sid == id
    ensures id == s.procs[pid].sid ==> Next(s, Run(pid, c)).sessions[id] == s.sessions[id]
    ensures id != s.procs[pid].sid ==>
              var after := Exec(Next(s, Run(pid, c)), steps);
              && id in after.sessions && after.sessions[id].revokedAt.Some?
              && Judge(claims, user, FindById(after.sessions, id), now).Err?
  {
    var s' := Next(s, Run(pid, c));
    StepKeepsInv(s, Run(pid, c));
    if id != s.procs[pid].sid {
      assert s'.sessions[id].revokedAt.Some?;
      RevocationIsFinal(s', steps, id);
    }
  }

  lemma BurnedMeansDead(s: State, pid: Pid)
    requires Inv(s) && pid in s.procs
    ensures s.procs[pid].Done? && s.procs[pid].answer.FamilyBurned? ==> Dead(s.sessions, s.procs[pid].answer.familyId)
  {
    assert ProcOk(s, s.procs[pid]);
  }

  lemma LookupIsTheRow(s: State, id: SessionId, token: Token)
    requires Inv(s) && id in s.sessions && s.sessions[id].tokenHash == Sha256(token)
    ensures FindByToken(s.sessions, token) == Some(s.sessions[id])
  {
  }

  /** A password change a full second after the token was minted makes it too old. */
  lemma PasswordChangeAgesTokens(s: State, pid: Pid, c: Choice, minted: int, session: SessionId)
    requires Inv(s) && pid in s.procs && !c.fails
    requires s.procs[pid].BearerAccepted? && s.procs[pid].action.ChangePassword?
    requires minted <= s.clock - 1000
    ensures var sub, s' := s.procs[pid].sub, Next(s, Run(pid, c));
            sub in s'.users && !OldEnough(Sign(sub, session, minted, s.cfg.accessTtl), s'.users[sub])
  {
    assert ProcOk(s, s.procs[pid]);
    AgeCheck(s.procs[pid].sub, session, minted, s.cfg.accessTtl, s.clock);
  }

  // ---- Honest refreshes, logouts -----------------------------------------------------------

  /** One process takes several turns in a row, with nothing in between. */
  ghost function Turns(s: State, pid: Pid, c: Choice, n: nat): State
    decreases n
  {
    if n == 0 then s else Turns(Next(s, Run(pid, c)), pid, c, n - 1)
  }

  function With(s: State, pid: Pid, p: Proc): State {
    s.(procs := s.procs[pid := p])
  }

  lemma HonestLook(s: State, pid: Pid, id: SessionId, token: Token, c: Choice)
    requires Inv(s) && id in s.sessions && s.sessions[id].IsActive(s.clock) && s.sessions[id].tokenHash == Sha256(token)
    requires pid in s.procs && s.procs[pid] == RefreshArrived(Some(token)) && !c.fails
    ensures Next(Next(s, Run(pid, c)), Run(pid, c)) == With(s, pid, RefreshChecked(s.sessions[id]))
  {
    LookupIsTheRow(s, id, token);
    assert Next(s, Run(pid, c)) == With(s, pid, RefreshLooked(Some(s.sessions[id])));
  }

  lemma HonestStamp(s: State, pid: Pid, c: Choice)
    requires pid in s.procs && s.procs[pid].RefreshChecked? && s.procs[pid].row.userId in s.users && !c.fails
    ensures Next(Next(s, Run(pid, c)), Run(pid, c))
            == With(s, pid, RefreshStamped(s.procs[pid].row, s.clock, c.freshId, c.freshToken))
  {
    assert Next(s, Run(pid, c)) == With(s, pid, RefreshUserLoaded(s.procs[pid].row));
  }

  lemma TwoTurns(s: State, pid: Pid, c: Choice, n: nat)
    ensures Turns(s, pid, c, n + 2) == Turns(Next(Next(s, Run(pid, c)), Run(pid, c)), pid, c, n)
  {
    assert Turns(s, pid, c, n + 2) == Turns(Next(s, Run(pid, c)), pid, c, n + 1);
  }

  /**
   A refresh with a live, unexpired token that nothing interrupts succeeds: it answers with the
   new token, the new session is live in the same family for the same user, the access token it
   hands out is accepted, and the old token is retired.
   */
  lemma HonestRefreshSucceeds(s: State, pid: Pid, id: SessionId, token: Token, c: Choice, user: User)
    requires Inv(s) && id in s.sessions && s.sessions[id].IsActive(s.clock) && s.sessions[id].tokenHash == Sha256(token)
    requires pid in s.procs && s.procs[pid] == RefreshArrived(Some(token)) && !c.fails
    requires c.freshId !in s.sessions && FindByToken(s.sessions, c.freshToken).None?
    requires s.cfg.refreshTtl > 0 && user.passwordChangedAt <= s.clock
    ensures var s' := Turns(s, pid, c, 6);
            var row, next := s.sessions[id], c.freshId;
            var access := Sign(row.userId, next, s.clock, s.cfg.accessTtl);
            && pid in s'.procs && s'.procs[pid] == Done(Refreshed(c.freshToken, access))
            && next in s'.sessions && s'.sessions[next].IsActive(s.clock)
            && s'.sessions[next].tokenHash == Sha256(c.freshToken)
            && s'.sessions[next].familyId == row.familyId && s'.sessions[next].userId == row.userId
            && Judge(access, user, FindById(s'.sessions, next), s.clock).Ok?
            && id in s'.sessions
            && s'.sessions[id].revokedReason == Some(Rotated) && s'.sessions[id].replacedBy == Some(next)
  {
    var row := s.sessions[id];
    RowFacts(s);
    var s4 := With(s, pid, RefreshStamped(row, s.clock, c.freshId, c.freshToken));
    HonestRotation(s4, pid, c);
    HonestEnd(s, pid, id, token, c);
  }

  /** It touches no other row, no user and no other process, and dates both rows' last use. */
  lemma HonestRefreshTouchesTwoRows(s: State, pid: Pid, id: SessionId, token: Token, c: Choice)
    requires Inv(s) && id in s.sessions && s.sessions[id].IsActive(s.clock) && s.sessions[id].tokenHash == Sha256(token)
    requires pid in s.procs && s.procs[pid] == RefreshArrived(Some(token)) && !c.fails
    requires c.freshId !in s.sessions && FindByToken(s.sessions, c.freshToken).None?
    ensures var s', next := Turns(s, pid, c, 6), c.freshId;
            && pid in s'.procs && s' == With(s, pid, s'.procs[pid]).(sessions := s'.sessions)
            && s'.sessions.Keys == s.sessions.Keys + {next}
            && (forall k :: k in s.sessions && k != id ==> s'.sessions[k] == s.sessions[k])
            && s'.sessions[id].lastUsedAt == s'.sessions[next].lastUsedAt == s.clock
  {
    RowFacts(s);
    var s4 := With(s, pid, RefreshStamped(s.sessions[id], s.clock, c.freshId, c.freshToken));
    HonestRotation(s4, pid, c);
    HonestEnd(s, pid, id, token, c);
    var s5 := Next(s4, Run(pid, c));
    var access := Sign(s.sessions[id].userId, c.freshId, s5.clock, s5.cfg.accessTtl);
    OneProcessMoved(s, pid, s4.procs[pid], s5.procs[pid], Done(Refreshed(c.freshToken, access)), s5.sessions);
  }

  lemma OneProcessMoved(s: State, pid: Pid, p1: Proc, p2: Proc, p3: Proc, t: Table)
    ensures With(With(With(s, pid, p1), pid, p2).(sessions := t), pid, p3) == With(s, pid, p3).(sessions := t)
  {
  }

  /** The refresh ends in the state its rotation leaves, answered. */
  lemma HonestEnd(s: State, pid: Pid, id: SessionId, token: Token, c: Choice)
    requires Inv(s) && id in s.sessions && s.sessions[id].IsActive(s.clock) && s.sessions[id].tokenHash == Sha256(token)
    requires pid in s.procs && s.procs[pid] == RefreshArrived(Some(token)) && !c.fails
    requires c.freshId !in s.sessions && FindByToken(s.sessions, c.freshToken).None?
    ensures var row := s.sessions[id];
            var s5 := Next(With(s, pid, RefreshStamped(row, s.clock, c.freshId, c.freshToken)), Run(pid, c));
            var access := Sign(row.userId, c.freshId, s5.clock, s5.cfg.accessTtl);
            Turns(s, pid, c, 6) == With(s5, pid, Done(Refreshed(c.freshToken, access)))
  {
    RowFacts(s);
    var s4 := With(s, pid, RefreshStamped(s.sessions[id], s.clock, c.freshId, c.freshToken));
    HonestStart(s, pid, id, token, c);
    HonestRotation(s4, pid, c);
    HonestFinish(s4, pid, c);
  }

  lemma HonestFinish(s: State, pid: Pid, c: Choice)
    requires pid in s.procs && s.procs[pid].RefreshStamped?
    requires var p := s.procs[pid];
             pid in Next(s, Run(pid, c)).procs
             && Next(s, Run(pid, c)).procs[pid] == RefreshCommitted(p.row, p.nextId, p.token)
    ensures var p, s' := s.procs[pid], Next(s, Run(pid, c));
            var access := Sign(p.row.userId, p.nextId, s'.clock, s'.cfg.accessTtl);
            Turns(s, pid, c, 2) == With(s', pid, Done(Refreshed(p.token, access)))
  {
    HonestAnswer(Next(s, Run(pid, c)), pid, c);
    assert Turns(s, pid, c, 2) == Turns(Next(s, Run(pid, c)), pid, c, 1);
  }

  lemma HonestStart(s: State, pid: Pid, id: SessionId, token: Token, c: Choice)
    requires Inv(s) && id in s.sessions && s.sessions[id].IsActive(s.clock) && s.sessions[id].tokenHash == Sha256(token)
    requires pid in s.procs && s.procs[pid] == RefreshArrived(Some(token)) && !c.fails
    ensures var stamped := RefreshStamped(s.sessions[id], s.clock, c.freshId, c.freshToken);
            Turns(s, pid, c, 6) == Turns(With(s, pid, stamped), pid, c, 2)
  {
    var s2 := With(s, pid, RefreshChecked(s.sessions[id]));
    HonestLook(s, pid, id, token, c);
    TwoTurns(s, pid, c, 4);
    HonestStamp(s2, pid, c);
    TwoTurns(s2, pid, c, 2);
    var stamped := RefreshStamped(s.sessions[id], s.clock, c.freshId, c.freshToken);
    assert With(s2, pid, stamped) == With(s, pid, stamped);
  }

  lemma HonestAnswer(s: State, pid: Pid, c: Choice)
    requires pid in s.procs && s.procs[pid].RefreshCommitted?
    ensures var p := s.procs[pid];
            var access := Sign(p.row.userId, p.nextId, s.clock, s.cfg.accessTtl);
            Turns(s, pid, c, 1) == With(s, pid, Done(Refreshed(p.token, access)))
  {
    assert Turns(Next(s, Run(pid, c)), pid, c, 0) == Next(s, Run(pid, c));
  }

  lemma HonestRotation(s: State, pid: Pid, c: Choice)
    requires pid in s.procs && s.procs[pid].RefreshStamped? && !c.fails
    requires var p := s.procs[pid];
             && p.row.id in s.sessions && s.sessions[p.row.id].Live()
             && p.nextId !in s.sessions && FindByToken(s.sessions, p.token).None?
    ensures var s' := Next(s, Run(pid, c));
            && s'.clock == s.clock && s'.cfg == s.cfg && pid in s'.procs
            && s'.procs[pid] == RefreshCommitted(s.procs[pid].row, s.procs[pid].nextId, s.procs[pid].token)
            && s' == With(s, pid, s'.procs[pid]).(sessions := s'.sessions)
    ensures var p, t' := s.procs[pid], Next(s, Run(pid, c)).sessions;
            && p.nextId in t'
            && t'[p.nextId] == NewRow(p.nextId, p.row.userId, p.row.familyId, p.token, p.now, s.cfg.refreshTtl)
            && p.row.id in t'
            && t'[p.row.id].revokedReason == Some(Rotated) && t'[p.row.id].replacedBy == Some(p.nextId)
            && t'[p.row.id].lastUsedAt == p.now
            && t'.Keys == s.sessions.Keys + {p.nextId}
            && (forall k :: k in s.sessions && k != p.row.id ==> t'[k] == s.sessions[k])
  {
  }

  /** Revoking one member kills the family if it is the tail, and changes nothing if it was replaced. */
  lemma RevokingOneMember(s: State, id: SessionId, reason: Reason)
    requires Inv(s) && id in s.sessions
    ensures var t, t' := s.sessions, Execute(s.sessions, RevokeSession(id, reason), s.clock, s.cfg.refreshTtl);
            var f := t[id].familyId;
            Dead(t', f) <==> t[id].replacedBy.None? || forall other :: InFamily(t, other, f) ==> !t[other].Live()
  {
    var t, t' := s.sessions, Execute(s.sessions, RevokeSession(id, reason), s.clock, s.cfg.refreshTtl);
    var f := t[id].familyId;
    assert RowOk(t, id, s.clock, s.cfg.refreshTtl);
    assert InFamily(t', id, f);
    if t[id].replacedBy.None? {
      forall other | InFamily(t', other, f) ensures !t'[other].Live() {
        assert InFamily(t, other, f);
        EveryMemberReachesTheTail(t, s.clock, s.cfg.refreshTtl, id, other);
      }
    } else {
      assert t' == t;
    }
  }

  /**
   A logout that found its session live ends that session for good. It ends the whole family
   exactly when no refresh rotated the session in between, or nothing else of it was live: if one
   did, the successor stays live unless something else has revoked it.
   */
  lemma LogoutEndsTheSession(s: State, pid: Pid, c: Choice, steps: seq<Step>)
    requires Inv(s) && pid in s.procs && !c.fails
    requires s.procs[pid].LogoutLooked? && s.procs[pid].found.Some? && s.procs[pid].found.value.Live()
    ensures var row, s' := s.procs[pid].found.value, Next(s, Run(pid, c));
            && row.id in s.sessions
            && row.id in Exec(s', steps).sessions && Exec(s', steps).sessions[row.id].revokedAt.Some?
            && (Dead(s'.sessions, row.familyId)
                <==> s.sessions[row.id].replacedBy.None?
                     || forall other :: InFamily(s.sessions, other, row.familyId) ==> !s.sessions[other].Live())
  {
    var row, s' := s.procs[pid].found.value, Next(s, Run(pid, c));
    assert ProcOk(s, s.procs[pid]);
    StepKeepsInv(s, Run(pid, c));
    assert s'.sessions == Execute(s.sessions, RevokeSession(row.id, Logout), s.clock, s.cfg.refreshTtl);
    RevokingOneMember(s, row.id, Logout);
    assert s'.sessions[row.id].revokedAt.Some?;
    RevocationIsFinal(s', steps, row.id);
  }

  /**
   Closing a session the handler found live ends that session for good, and the whole family
   exactly when no refresh rotated it in between, or nothing else of the family was live. The
   answer to closing one's own session is the same either way, and clears the cookie.
   */
  lemma ClosingEndsTheSession(s: State, pid: Pid, c: Choice, steps: seq<Step>)
    requires Inv(s) && pid in s.procs && !c.fails
    requires s.procs[pid].CloseLooked? && s.procs[pid].found.Some?
    requires s.procs[pid].found.value.userId == s.procs[pid].sub
    ensures var row, s' := s.procs[pid].found.value, Next(s, Run(pid, c));
            && s'.procs[pid] == Done(SessionClosed(row.id == s.procs[pid].sid))
            && row.id in s.sessions
            && row.id in Exec(s', steps).sessions && Exec(s', steps).sessions[row.id].revokedAt.Some?
            && (Dead(s'.sessions, row.familyId)
                <==> s.sessions[row.id].replacedBy.None?
                     || forall other :: InFamily(s.sessions, other, row.familyId) ==> !s.sessions[other].Live())
  {
    var row, s' := s.procs[pid].found.value, Next(s, Run(pid, c));
    assert ProcOk(s, s.procs[pid]);
    StepKeepsInv(s, Run(pid, c));
    assert s'.sessions == Execute(s.sessions, RevokeSession(row.id, RevokedByUser), s.clock, s.cfg.refreshTtl);
    RevokingOneMember(s, row.id, RevokedByUser);
    assert s'.sessions[row.id].revokedAt.Some?;
    RevocationIsFinal(s', steps, row.id);
  }

  // ---- Users do not touch each other ------------------------------------------------------

  /** The user in whose name a process is about to write. */
  function Actor(p: Proc): Option<UserId> {
    match p
    case RefreshBurning(row) => Some(row.userId)
    case RefreshStamped(row, _, _, _) => Some(row.userId)
    case LogoutLooked(found) => if found.Some? then Some(found.value.userId) else None
    case BearerAccepted(sub, _, _) => Some(sub)
    case PasswordUpdated(sub, _) => Some(sub)
    case CloseLooked(sub, _, _) => Some(sub)
    case _ => None
  }

  /** A request changes, and adds, only rows of the user it acts for. */
  lemma OnlyOwnRowsChange(s: State, pid: Pid, c: Choice, id: SessionId)
    requires Inv(s) && pid in s.procs
    ensures var t' := Next(s, Run(pid, c)).sessions;
            id in t' && (id !in s.sessions || t'[id] != s.sessions[id]) ==> Actor(s.procs[pid]) == Some(t'[id].userId)
  {
    var p := s.procs[pid];
    assert ProcOk(s, p);
    if RefreshPhase(p) {
      if p.RefreshBurning? && InFamily(s.sessions, id, p.row.familyId) {
        EveryMemberReachesTheTail(s.sessions, s.clock, s.cfg.refreshTtl, p.row.id, id);
      }
    } else if LogoutPhase(p) {
    } else if AuthenticatePhase(p) {
      assert Next(s, Run(pid, c)).sessions == s.sessions;
    }
  }

  /** The only user row a request can change is that of the user it acts for; it never adds one. */
  lemma OnlyOwnUserChanges(s: State, pid: Pid, c: Choice, user: UserId)
    requires Inv(s) && pid in s.procs
    ensures var users' := Next(s, Run(pid, c)).users;
            && users'.Keys == s.users.Keys
            && (user in s.users && users'[user] != s.users[user] ==> Actor(s.procs[pid]) == Some(user))
  {
    assert !s.procs[pid].BearerAccepted? ==> Next(s, Run(pid, c)).users == s.users;
  }

  /** Asked to close a session of somebody else, the server does just what it does for one that is not there. */
  lemma ForeignSessionLooksMissing(s: State, pid: Pid, c: Choice)
    requires Inv(s) && pid in s.procs && s.procs[pid].BearerAccepted? && s.procs[pid].action.CloseSession? && !c.fails
    requires var p := s.procs[pid];
             p.action.target in s.sessions && s.sessions[p.action.target].userId != p.sub
    ensures var absent := s.(sessions := s.sessions - {s.procs[pid].action.target});
            var answered := Next(Next(s, Run(pid, c)), Run(pid, c));
            && answered.procs[pid] == Next(Next(absent, Run(pid, c)), Run(pid, c)).procs[pid] == Done(NotFound)
            && answered.sessions == s.sessions
  {
    var looked := Next(s, Run(pid, c));
    assert looked.procs[pid].CloseLooked? && looked.sessions == s.sessions;
  }
}
