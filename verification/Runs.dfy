/**
 What holds in every reachable state of the server, and over every run of it, whatever requests
 arrive and however their handlers interleave.
 */
module Runs {
  import opened Wrappers
  import opened Sessions
  import opened Chains
  import opened Tokens
  import opened Handlers

  // ---- The invariant ----------------------------------------------------------------------

  /** The row was once read from the table, so what it says about identity and revocation stands. */
  ghost predicate Known(t: Table, row: Session) {
    row.id in t && Evolves(row, t[row.id])
  }

  ghost predicate ProcOk(s: State, p: Proc) {
    match p
    case RefreshLooked(found) => found.Some? ==> Known(s.sessions, found.value)
    case RefreshBurning(row) => Known(s.sessions, row) && row.revokedAt.Some?
    case RefreshChecked(row) => Known(s.sessions, row)
    case RefreshUserLoaded(row) => Known(s.sessions, row)
    case RefreshStamped(row, now, _, _) => Known(s.sessions, row) && row.createdAt <= now <= s.clock
    case RefreshCommitted(row, next, _) =>
      Known(s.sessions, row) && next in s.sessions && s.sessions[row.id].replacedBy == Some(next)
    case LogoutLooked(found) => found.Some? ==> Known(s.sessions, found.value)
    case BearerSession(claims, _, _, found) =>
      found.Some? ==> Known(s.sessions, found.value) && found.value.id == claims.sid
    case BearerAccepted(sub, sid, _) => sid in s.sessions && s.sessions[sid].userId == sub
    case PasswordUpdated(sub, sid) => sid in s.sessions && s.sessions[sid].userId == sub
    case CloseLooked(_, _, found) => found.Some? ==> Known(s.sessions, found.value)
    case Done(FamilyBurned(f)) => Dead(s.sessions, f)
    case _ => true
  }

  ghost predicate Inv(s: State) {
    && Consistent(s.sessions, s.clock, s.cfg.refreshTtl)
    && (forall id :: id in s.sessions ==> s.sessions[id].userId in s.users)
    && (forall u :: u in s.users ==> s.users[u].passwordChangedAt <= s.clock)
    && (forall pid :: pid in s.procs ==> ProcOk(s, s.procs[pid]))
  }

  /** How a state can differ from one before it. */
  ghost predicate Later(s: State, s': State) {
    && s.cfg == s'.cfg
    && s.clock <= s'.clock
    && (forall u :: u in s.users ==> u in s'.users && s.users[u].passwordChangedAt <= s'.users[u].passwordChangedAt)
    && Extends(s.sessions, s'.sessions)
    && (forall f :: Dead(s.sessions, f) ==> Dead(s'.sessions, f))
  }

  lemma StatementGuarded(s: State, step: Step)
    requires Inv(s)
    ensures Guard(s.sessions, StatementOf(s, step), s.clock)
  {
    if step.Run? && step.pid in s.procs {
      assert ProcOk(s, s.procs[step.pid]);
    }
  }

  lemma UsersLater(s: State, step: Step)
    requires Inv(s)
    ensures s.cfg == Next(s, step).cfg && s.clock <= Next(s, step).clock
    ensures forall u :: u in s.users ==>
              u in Next(s, step).users && s.users[u].passwordChangedAt <= Next(s, step).users[u].passwordChangedAt
  {
  }

  lemma StepLater(s: State, step: Step)
    requires Inv(s)
    ensures Later(s, Next(s, step))
    ensures Next(s, step).sessions == Execute(s.sessions, StatementOf(s, step), s.clock, s.cfg.refreshTtl)
  {
    var statement, ttl := StatementOf(s, step), s.cfg.refreshTtl;
    UsersLater(s, step);
    StatementGuarded(s, step);
    ExecuteExtends(s.sessions, statement, s.clock, ttl);
    forall f | Dead(s.sessions, f) ensures Dead(Execute(s.sessions, statement, s.clock, ttl), f) {
      DeadStaysDead(s.sessions, statement, s.clock, ttl, f);
    }
  }

  /** A process moves only by its own turns. */
  lemma OthersKeepProc(s: State, step: Step, pid: Pid)
    requires pid in s.procs && !(step.Run? && step.pid == pid)
    ensures pid in Next(s, step).procs && Next(s, step).procs[pid] == s.procs[pid]
  {
  }

  lemma ProcFrame(s: State, s': State, p: Proc)
    requires ProcOk(s, p) && Later(s, s')
    requires forall id :: id in s.sessions && s.sessions[id].revokedAt.None? ==> s.sessions[id].replacedBy.None?
    ensures ProcOk(s', p)
  {
  }

  /** Rows as they are now are known later, and so are snapshots already known. */
  lemma StillKnown(s: State, s': State, row: Session)
    requires Later(s, s') && Known(s.sessions, row)
    ensures Known(s'.sessions, row)
  {
  }

  lemma FoundIsKnown(s: State, token: Token)
    requires Inv(s)
    ensures FindByToken(s.sessions, token).Some? ==> Known(s.sessions, FindByToken(s.sessions, token).value)
  {
    RowFacts(s);
  }

  lemma RefreshTurnOk(s: State, pid: Pid, c: Choice)
    requires Inv(s) && pid in s.procs && RefreshPhase(s.procs[pid])
    ensures ProcOk(Next(s, Run(pid, c)), RefreshTurn(s, s.procs[pid], c).next)
  {
    var p, s' := s.procs[pid], Next(s, Run(pid, c));
    assert ProcOk(s, p);
    StepLater(s, Run(pid, c));
    match p {
      case RefreshArrived(cookie) =>
        if cookie.Some? {
          FoundIsKnown(s, cookie.value);
        }
      case RefreshBurning(row) =>
        assert InFamily(s.sessions, row.id, row.familyId);
        FamilyRevocationKills(s.sessions, row.familyId, ReuseDetected, s.clock, s.cfg.refreshTtl, row.id);
      case RefreshUserLoaded(row) =>
        assert RowOk(s.sessions, row.id, s.clock, s.cfg.refreshTtl);
      case RefreshStamped(row, now, next, token) =>
        RowFacts(s);
        StillKnown(s, s', row);
      case _ =>
    }
  }

  lemma LogoutTurnOk(s: State, pid: Pid, c: Choice)
    requires Inv(s) && pid in s.procs && LogoutPhase(s.procs[pid])
    ensures ProcOk(Next(s, Run(pid, c)), LogoutTurn(s, s.procs[pid], c).next)
  {
    var p := s.procs[pid];
    if p.LogoutArrived? && p.cookie.Some? {
      FoundIsKnown(s, p.cookie.value);
    }
  }

  lemma AuthenticateTurnOk(s: State, pid: Pid, c: Choice)
    requires Inv(s) && pid in s.procs && AuthenticatePhase(s.procs[pid])
    ensures ProcOk(Next(s, Run(pid, c)), AuthenticateTurn(s, s.procs[pid], c).next)
  {
    assert ProcOk(s, s.procs[pid]);
    RowFacts(s);
    assert Next(s, Run(pid, c)).sessions == s.sessions;
  }

  lemma ActionTurnOk(s: State, pid: Pid, c: Choice)
    requires Inv(s) && pid in s.procs
    requires !RefreshPhase(s.procs[pid]) && !LogoutPhase(s.procs[pid]) && !AuthenticatePhase(s.procs[pid])
    ensures ProcOk(Next(s, Run(pid, c)), ActionTurn(s, s.procs[pid], c).next)
  {
    var p := s.procs[pid];
    assert ProcOk(s, p);
    RowFacts(s);
    StepLater(s, Run(pid, c));
  }

  lemma TurnOk(s: State, pid: Pid, c: Choice)
    requires Inv(s) && pid in s.procs
    ensures ProcOk(Next(s, Run(pid, c)), Resume(s, s.procs[pid], c).next)
  {
    if RefreshPhase(s.procs[pid]) {
      RefreshTurnOk(s, pid, c);
    } else if LogoutPhase(s.procs[pid]) {
      LogoutTurnOk(s, pid, c);
    } else if AuthenticatePhase(s.procs[pid]) {
      AuthenticateTurnOk(s, pid, c);
    } else {
      ActionTurnOk(s, pid, c);
    }
  }

  lemma RowFacts(s: State)
    requires Inv(s)
    ensures forall id :: id in s.sessions ==> s.sessions[id].id == id && s.sessions[id].createdAt <= s.clock
    ensures forall id :: id in s.sessions && s.sessions[id].revokedAt.None? ==> s.sessions[id].replacedBy.None?
  {
    forall id | id in s.sessions
      ensures s.sessions[id].id == id && s.sessions[id].createdAt <= s.clock
      ensures s.sessions[id].revokedAt.None? ==> s.sessions[id].replacedBy.None?
    {
      assert RowOk(s.sessions, id, s.clock, s.cfg.refreshTtl);
    }
  }

  /** A statement gives rows only to users who have one, and `Create` names a user. */
  lemma ExecuteKeepsOwners(t: Table, statement: Statement, clock: int, ttl: nat, id: SessionId)
    requires Guard(t, statement, clock) && id in Execute(t, statement, clock, ttl)
    ensures var user := Execute(t, statement, clock, ttl)[id].userId;
            (statement.Create? && user == statement.userId) || exists k :: k in t && t[k].userId == user
  {
    if id !in t && statement.Rotate? {
      assert t[statement.current.id].userId == statement.current.userId;
    } else if id in t {
      assert t[id].userId == Execute(t, statement, clock, ttl)[id].userId;
    }
  }

  /** The foreign key of the sessions table: every row's owner is a user. */
  lemma OwnersExist(s: State, step: Step)
    requires Inv(s)
    ensures forall id :: id in Next(s, step).sessions ==> Next(s, step).sessions[id].userId in Next(s, step).users
  {
    var s', statement := Next(s, step), StatementOf(s, step);
    StatementGuarded(s, step);
    StepLater(s, step);
    forall id | id in s'.sessions ensures s'.sessions[id].userId in s'.users {
      ExecuteKeepsOwners(s.sessions, statement, s.clock, s.cfg.refreshTtl, id);
      assert statement.Create? ==> statement.userId in s.users;
    }
  }

  lemma StepKeepsProcs(s: State, step: Step, pid: Pid)
    requires Inv(s) && pid in Next(s, step).procs
    ensures ProcOk(Next(s, step), Next(s, step).procs[pid])
  {
    if step.Run? && pid == step.pid {
      TurnOk(s, pid, step.choice);
    } else if pid in s.procs {
      StepLater(s, step);
      RowFacts(s);
      assert ProcOk(s, s.procs[pid]);
      ProcFrame(s, Next(s, step), s.procs[pid]);
    }
  }

  lemma StepKeepsTable(s: State, step: Step)
    requires Inv(s)
    ensures Consistent(Next(s, step).sessions, Next(s, step).clock, Next(s, step).cfg.refreshTtl)
  {
    var s' := Next(s, step);
    StatementGuarded(s, step);
    ExecuteKeepsConsistent(s.sessions, StatementOf(s, step), s.clock, s.cfg.refreshTtl);
    LaterClockConsistent(s'.sessions, s.clock, s'.clock, s.cfg.refreshTtl);
  }

  lemma StepKeepsUsers(s: State, step: Step)
    requires Inv(s)
    ensures forall u :: u in Next(s, step).users ==> Next(s, step).users[u].passwordChangedAt <= Next(s, step).clock
  {
  }

  lemma StepKeepsInv(s: State, step: Step)
    requires Inv(s)
    ensures Inv(Next(s, step))
  {
    var s' := Next(s, step);
    StepKeepsTable(s, step);
    StepKeepsUsers(s, step);
    OwnersExist(s, step);
    forall pid | pid in s'.procs ensures ProcOk(s', s'.procs[pid]) {
      StepKeepsProcs(s, step, pid);
    }
  }

  /** Every state any run leads to satisfies the invariant, and is later than where it started. */
  lemma {:induction false} RunKeepsInv(s: State, steps: seq<Step>)
    requires Inv(s)
    ensures Inv(Exec(s, steps)) && Later(s, Exec(s, steps))
    decreases |steps|
  {
    if steps == [] {
    } else {
      var before := steps[..|steps| - 1];
      RunKeepsInv(s, before);
      StepKeepsInv(Exec(s, before), steps[|steps| - 1]);
      StepLater(Exec(s, before), steps[|steps| - 1]);
    }
  }

  lemma Reachable(cfg: Config, clock: int, steps: seq<Step>)
    ensures Inv(Exec(Init(cfg, clock), steps))
  {
    RunKeepsInv(Init(cfg, clock), steps);
  }
}
