/**
 One browser tab, its cookie jar and the whole server together.

 The tab signed in once and its refreshes are the only ones that present a token of that session's
 family; everything else on the server runs freely, including other devices of the same user. A
 refresh is sent with the cookie of that moment, and its answer is delivered once the handler is
 done. The tab may also log out, and send any bearer request, at any time: their answers reach the
 same jar, and some of them clear it.
 */
module SingleTab {
  import opened Wrappers
  import opened Sessions
  import opened Chains
  import opened Tokens
  import opened Handlers
  import opened Runs
  import opened SessionSafety
  import Tab = ApiClient

  /**
   `pids` says which server process handles which of the tab's refreshes, and `asked` are the
   processes of its other requests. `closed` says that the jar was cleared by an answer to one of
   those, and no refresh has filled it since.
   */
  datatype World = World(
    server: State,
    tab: Tab.Tab,
    jar: Option<Token>,
    pids: map<nat, Pid>,
    asked: set<Pid>,
    closed: bool)

  datatype WorldStep =
    | TabActs(event: Tab.Event, pid: Pid)   // `pid` is for the refresh the event may send
    | Deliver(refresh: nat)
    | TabLogsOut(pid: Pid)
    | TabAsks(pid: Pid, claims: Claims, action: Action)
    | Hear(pid: Pid)
    | ServerActs(step: Step)

  /** The answers with which the tab ends its own session; all of them clear the cookie. */
  predicate EndsOwnSession(answer: Answer) {
    answer in {LoggedOut, LoggedOutEverywhere, SessionClosed(true)}
  }

  /** The jar after an answer: a rotation sets the cookie, some answers clear it, the rest leave it. */
  function Store(jar: Option<Token>, answer: Answer): Option<Token> {
    match answer
    case Refreshed(cookie, _) => Some(cookie)
    case SessionCleared => None
    case FamilyBurned(_) => None
    case _ => if EndsOwnSession(answer) then None else jar
  }

  /** The tab knows an access token here by the session it is for. */
  function ReplyOf(answer: Answer): Tab.RefreshReply {
    match answer
    case Refreshed(_, access) => Tab.NewAccess(access.sid)
    case _ => Tab.RefreshFailed
  }

  ghost function NextWorld(w: World, step: WorldStep): World {
    match step
    case TabActs(event, pid) =>
      var tab := Tab.React(w.tab, event);
      if event.RefreshReplyArrives? || pid in w.server.procs then w
      else if tab.refreshes == w.tab.refreshes then w.(tab := tab)
      else w.(server := Next(w.server, Arrive(pid, RefreshRequest(w.jar))), tab := tab,
              pids := w.pids[w.tab.refreshes := pid])
    case Deliver(refresh) =>
      if Delivering(w, refresh) then
        var answer := w.server.procs[w.pids[refresh]].answer;
        w.(tab := Tab.React(w.tab, Tab.RefreshReplyArrives(refresh, ReplyOf(answer))),
           jar := Store(w.jar, answer), closed := w.closed && !answer.Refreshed?)
      else w
    case TabLogsOut(pid) => Asking(w, pid, LogoutRequest(w.jar))
    case TabAsks(pid, claims, action) => Asking(w, pid, BearerRequest(claims, action))
    case Hear(pid) =>
      if pid in w.asked && pid in w.server.procs && w.server.procs[pid].Done? then
        var answer := w.server.procs[pid].answer;
        w.(asked := w.asked - {pid}, jar := Store(w.jar, answer), closed := w.closed || EndsOwnSession(answer))
      else w
    case ServerActs(step) => w.(server := Next(w.server, step))
  }

  ghost function Asking(w: World, pid: Pid, request: Request): World {
    if pid in w.server.procs then w
    else w.(server := Next(w.server, Arrive(pid, request)), asked := w.asked + {pid})
  }

  predicate Delivering(w: World, refresh: nat) {
    && refresh in w.tab.wire && w.tab.wire[refresh].None?
    && refresh in w.pids && w.pids[refresh] in w.server.procs && w.server.procs[w.pids[refresh]].Done?
  }

  predicate Undelivered(w: World) {
    && w.tab.refreshInFlight.Some?
    && w.tab.refreshInFlight.value in w.tab.wire && w.tab.wire[w.tab.refreshInFlight.value].None?
  }

  /** The process is handling a refresh of this tab whose answer has not been delivered. */
  ghost predicate IsFlight(w: World, pid: Pid) {
    && Undelivered(w)
    && w.tab.refreshInFlight.value in w.pids && w.pids[w.tab.refreshInFlight.value] == pid
  }

  /** Nobody but the tab refreshes with a token of the family. */
  ghost predicate Allowed(w: World, step: WorldStep, f: FamilyId) {
    step.ServerActs? && step.step.Run? && step.step.pid in w.server.procs && !IsFlight(w, step.step.pid) ==>
      var p := w.server.procs[step.step.pid];
      p.RefreshArrived? && p.cookie.Some? ==> AwayRow(FindByToken(w.server.sessions, p.cookie.value), f)
  }

  ghost function ExecWorld(w: World, steps: seq<WorldStep>): World
    decreases |steps|
  {
    if steps == [] then w else NextWorld(ExecWorld(w, steps[..|steps| - 1]), steps[|steps| - 1])
  }

  ghost predicate AllAllowed(w: World, steps: seq<WorldStep>, f: FamilyId)
    decreases |steps|
  {
    steps == []
    || (&& AllAllowed(w, steps[..|steps| - 1], f)
        && Allowed(ExecWorld(w, steps[..|steps| - 1]), steps[|steps| - 1], f))
  }

  /** Somebody ended a session of the family on purpose: not a rotation, not the reuse alarm. */
  ghost predicate ExplicitlyRevoked(t: Table, f: FamilyId) {
    exists id ::
      InFamily(t, id, f) && t[id].revokedReason.Some? && t[id].revokedReason.value !in {Rotated, ReuseDetected}
  }

  /** The reuse branch of the refresh handler has been taken for the family. */
  predicate Alarmed(p: Proc, f: FamilyId) {
    (p.RefreshBurning? && p.row.familyId == f) || p == Done(FamilyBurned(f))
  }

  // ---- The invariant ----------------------------------------------------------------------

  predicate AwayRow(found: Option<Session>, f: FamilyId) {
    found.Some? ==> found.value.familyId != f
  }

  /** A process that is not the tab's refresh: if it is a refresh, the row it holds is of another family. */
  predicate Away(p: Proc, f: FamilyId) {
    match p
    case RefreshLooked(found) => AwayRow(found, f)
    case RefreshBurning(row) => row.familyId != f
    case RefreshChecked(row) => row.familyId != f
    case RefreshUserLoaded(row) => row.familyId != f
    case RefreshStamped(row, _, _, _) => row.familyId != f
    case _ => true
  }

  /** The jar holds the tail's token; `excused` if there is a reason for an empty jar. */
  predicate JarFits(jar: Option<Token>, tail: Session, excused: bool) {
    if jar.Some? then Sha256(jar.value) == tail.tokenHash else excused
  }

  /**
   The tab's own refresh on the server, from request to undelivered answer. The tab is told that
   its session was lost, or burned, only if it was really over, and has its cookie cleared only if
   it was over or the tab itself had closed it.
   */
  predicate FlightOk(p: Proc, jar: Option<Token>, tail: Session, spent: bool, closed: bool) {
    match p
    case RefreshArrived(cookie) => JarFits(jar, tail, spent || closed) && JarFits(cookie, tail, spent || closed)
    case RefreshLooked(found) => JarFits(jar, tail, spent || closed) && found.Some? && found.value.id == tail.id
    case RefreshBurning(row) => JarFits(jar, tail, spent || closed) && row.id == tail.id
    case RefreshChecked(row) => JarFits(jar, tail, spent || closed) && row.id == tail.id
    case RefreshUserLoaded(row) => JarFits(jar, tail, spent || closed) && row.id == tail.id
    case RefreshStamped(row, _, _, _) => JarFits(jar, tail, spent || closed) && row.id == tail.id
    case RefreshCommitted(row, next, token) => next == tail.id && Sha256(token) == tail.tokenHash
    case Done(answer) =>
      if answer.Refreshed? then Sha256(answer.cookie) == tail.tokenHash && answer.access.sid == tail.id
      else
        && JarFits(jar, tail, spent || closed)
        && !EndsOwnSession(answer)
        && (answer.SessionLost? || answer.FamilyBurned? ==> spent)
        && (answer.SessionCleared? ==> spent || closed)
    case _ => false
  }

  /** Why a session is really over: somebody ended it on purpose, or its time ran out. */
  ghost predicate Spent(s: State, f: FamilyId, tail: SessionId)
    requires tail in s.sessions
  {
    ExplicitlyRevoked(s.sessions, f) || s.sessions[tail].expiresAt <= s.clock
  }

  ghost predicate IsTail(t: Table, f: FamilyId, tail: SessionId) {
    InFamily(t, tail, f) && t[tail].id == tail && t[tail].replacedBy.None?
  }

  ghost predicate Quiet(t: Table, f: FamilyId) {
    forall id :: InFamily(t, id, f) ==> t[id].revokedReason != Some(ReuseDetected)
  }

  ghost predicate OthersAway(w: World, f: FamilyId) {
    forall pid :: pid in w.server.procs && !IsFlight(w, pid) ==> Away(w.server.procs[pid], f)
  }

  ghost predicate AlarmsJustified(w: World, f: FamilyId) {
    forall pid :: pid in w.server.procs && Alarmed(w.server.procs[pid], f) ==> ExplicitlyRevoked(w.server.sessions, f)
  }

  /** While a refresh is undelivered its process accounts for the tail; otherwise the jar does. */
  ghost predicate TailHeld(w: World, f: FamilyId, tail: SessionId)
    requires tail in w.server.sessions
  {
    if Undelivered(w) then
      var refresh := w.tab.refreshInFlight.value;
      && refresh in w.pids && w.pids[refresh] in w.server.procs
      && FlightOk(w.server.procs[w.pids[refresh]], w.jar, w.server.sessions[tail],
                  Spent(w.server, f, tail), w.closed)
    else JarFits(w.jar, w.server.sessions[tail], Spent(w.server, f, tail) || w.closed)
  }

  /** The tab's other requests set no cookie, and none of them is its refresh. */
  ghost predicate AskedApart(w: World) {
    forall pid :: pid in w.asked ==>
      pid in w.server.procs && !IsFlight(w, pid) && Answering(w.server.procs[pid])
  }

  predicate Answering(p: Proc) {
    !RefreshPhase(p) && (p.Done? ==> !p.answer.Refreshed? && !p.answer.SessionCleared? && !p.answer.FamilyBurned?)
  }

  ghost predicate WorldInv(w: World, f: FamilyId, tail: SessionId) {
    && Inv(w.server)
    && Tab.SingleFlight(w.tab)
    && IsTail(w.server.sessions, f, tail)
    && Quiet(w.server.sessions, f)
    && OthersAway(w, f)
    && AskedApart(w)
    && AlarmsJustified(w, f)
    && TailHeld(w, f, tail)
  }

  // ---- One server step seen from the family -----------------------------------------------

  /** No link of the family moved, nobody joined it, and whatever was revoked was revoked on purpose. */
  ghost predicate FamilyKept(t: Table, t': Table, f: FamilyId) {
    forall id {:trigger InFamily(t', id, f)} {:trigger InFamily(t, id, f)} ::
      && (InFamily(t', id, f) <==> InFamily(t, id, f))
      && (InFamily(t, id, f) ==>
            && t'[id].id == t[id].id
            && t'[id].tokenHash == t[id].tokenHash
            && t'[id].replacedBy == t[id].replacedBy
            && (t'[id].revokedReason == t[id].revokedReason
                || (t'[id].revokedReason.Some? && t'[id].revokedReason.value !in {Rotated, ReuseDetected})))
  }

  lemma ExplicitStays(t: Table, t': Table, f: FamilyId)
    requires Extends(t, t') && ExplicitlyRevoked(t, f)
    requires forall id :: id in t ==> (t[id].revokedAt.Some? <==> t[id].revokedReason.Some?)
    ensures ExplicitlyRevoked(t', f)
  {
    var id :| InFamily(t, id, f) && t[id].revokedReason.Some? && t[id].revokedReason.value !in {Rotated, ReuseDetected};
    assert InFamily(t', id, f);
  }

  lemma MarksAgree(s: State)
    requires Inv(s)
    ensures forall id :: id in s.sessions ==> (s.sessions[id].revokedAt.Some? <==> s.sessions[id].revokedReason.Some?)
  {
    forall id | id in s.sessions ensures s.sessions[id].revokedAt.Some? <==> s.sessions[id].revokedReason.Some? {
      assert RowOk(s.sessions, id, s.clock, s.cfg.refreshTtl);
    }
  }

  /** A revoked tail was revoked on purpose: it has no successor and the alarm never marked it. */
  lemma RevokedTailIsExplicit(s: State, f: FamilyId, tail: SessionId)
    requires Inv(s) && IsTail(s.sessions, f, tail) && Quiet(s.sessions, f) && s.sessions[tail].revokedAt.Some?
    ensures ExplicitlyRevoked(s.sessions, f)
  {
    assert RowOk(s.sessions, tail, s.clock, s.cfg.refreshTtl);
  }

  /** The statement a stranger may run, as far as family `f` can tell. */
  predicate StrangeTo(statement: Statement, f: FamilyId) {
    match statement
    case Create(_, _, g, _) => g != f
    case Rotate(current, _, _, _, _) => current.familyId != f
    case RevokeFamily(g, reason) => g != f
    case RevokeSession(_, reason) => reason !in {Rotated, ReuseDetected}
    case RevokeAllForUser(_, reason, _) => reason !in {Rotated, ReuseDetected}
    case _ => true
  }

  lemma StrangeStatementKeepsFamily(t: Table, statement: Statement, clock: int, ttl: nat, f: FamilyId)
    requires Guard(t, statement, clock) && StrangeTo(statement, f)
    ensures FamilyKept(t, Execute(t, statement, clock, ttl), f)
  {
    var t' := Execute(t, statement, clock, ttl);
    forall id
      ensures InFamily(t', id, f) <==> InFamily(t, id, f)
      ensures InFamily(t, id, f) ==>
                && t'[id].id == t[id].id && t'[id].tokenHash == t[id].tokenHash && t'[id].replacedBy == t[id].replacedBy
                && (t'[id].revokedReason == t[id].revokedReason
                    || (t'[id].revokedReason.Some? && t'[id].revokedReason.value !in {Rotated, ReuseDetected}))
    {
      ExecuteExtends(t, statement, clock, ttl);
    }
  }

  lemma StrangersKeepFamily(s: State, step: Step, f: FamilyId, tail: SessionId)
    requires Inv(s) && IsTail(s.sessions, f, tail)
    requires step.Run? && step.pid in s.procs ==> Away(s.procs[step.pid], f)
    ensures FamilyKept(s.sessions, Next(s, step).sessions, f)
  {
    StatementGuarded(s, step);
    assert StrangeTo(StatementOf(s, step), f);
    StrangeStatementKeepsFamily(s.sessions, StatementOf(s, step), s.clock, s.cfg.refreshTtl, f);
  }

  lemma KeptFamilyKeepsTail(t: Table, t': Table, f: FamilyId, tail: SessionId)
    requires FamilyKept(t, t', f) && Extends(t, t') && IsTail(t, f, tail) && Quiet(t, f)
    ensures IsTail(t', f, tail) && Quiet(t', f)
    ensures t'[tail].tokenHash == t[tail].tokenHash && t'[tail].expiresAt == t[tail].expiresAt
  {
    assert InFamily(t', tail, f);
    forall id | InFamily(t', id, f) ensures t'[id].revokedReason != Some(ReuseDetected) {
      assert InFamily(t, id, f);
    }
  }

  /** A stranger's turn leaves it a stranger, and raises no alarm for the family. */
  lemma StrangerStaysAway(s: State, pid: Pid, c: Choice, f: FamilyId)
    requires Inv(s) && pid in s.procs && Away(s.procs[pid], f)
    requires var p := s.procs[pid];
             p.RefreshArrived? && p.cookie.Some? ==> AwayRow(FindByToken(s.sessions, p.cookie.value), f)
    ensures Away(Resume(s, s.procs[pid], c).next, f)
    ensures Alarmed(Resume(s, s.procs[pid], c).next, f) ==> Alarmed(s.procs[pid], f)
    ensures Answering(s.procs[pid]) ==> Answering(Resume(s, s.procs[pid], c).next)
  {
    var p := s.procs[pid];
    if RefreshPhase(p) {
      assert Resume(s, p, c) == RefreshTurn(s, p, c);
    } else if LogoutPhase(p) {
      assert Resume(s, p, c) == LogoutTurn(s, p, c);
    } else if AuthenticatePhase(p) {
      assert Resume(s, p, c) == AuthenticateTurn(s, p, c);
    } else {
      assert Resume(s, p, c) == ActionTurn(s, p, c);
    }
  }

  // ---- The tab's own refresh ----------------------------------------------------------------

  lemma LookupFindsTail(s: State, f: FamilyId, tail: SessionId, token: Token)
    requires Inv(s) && IsTail(s.sessions, f, tail) && s.sessions[tail].tokenHash == Sha256(token)
    ensures FindByToken(s.sessions, token) == Some(s.sessions[tail])
  {
  }

  /** The alarm finds nothing left to revoke: only the tail can be live, and it is not. */
  lemma AlarmIsIdle(s: State, f: FamilyId, tail: SessionId)
    requires Inv(s) && IsTail(s.sessions, f, tail) && s.sessions[tail].revokedAt.Some?
    ensures Execute(s.sessions, RevokeFamily(f, ReuseDetected), s.clock, s.cfg.refreshTtl) == s.sessions
  {
    forall id | InFamily(s.sessions, id, f) ensures !s.sessions[id].Live() {
      EveryMemberReachesTheTail(s.sessions, s.clock, s.cfg.refreshTtl, tail, id);
      EveryMemberReachesTheTail(s.sessions, s.clock, s.cfg.refreshTtl, tail, tail);
    }
    assert Matches(s.sessions, RevokeFamily(f, ReuseDetected)) == {} by {
      forall id | id in Matches(s.sessions, RevokeFamily(f, ReuseDetected)) ensures false {
        assert InFamily(s.sessions, id, f);
      }
    }
  }

  /** Up to the rotation the tab's refresh only reads, and it reads the tail. */
  lemma FlightReads(s: State, pid: Pid, c: Choice, jar: Option<Token>, closed: bool, f: FamilyId, tail: SessionId)
    requires Inv(s) && pid in s.procs && IsTail(s.sessions, f, tail) && Quiet(s.sessions, f)
    requires FlightOk(s.procs[pid], jar, s.sessions[tail], Spent(s, f, tail), closed)
    requires !s.procs[pid].RefreshStamped? && !s.procs[pid].RefreshBurning?
    ensures var s' := Next(s, Run(pid, c));
            && s'.sessions == s.sessions && s'.clock == s.clock
            && FlightOk(s'.procs[pid], jar, s.sessions[tail], Spent(s, f, tail), closed)
            && (Alarmed(s'.procs[pid], f) ==> Alarmed(s.procs[pid], f) || ExplicitlyRevoked(s.sessions, f))
  {
    var p := s.procs[pid];
    assert ProcOk(s, p);
    if p.RefreshArrived? && p.cookie.Some? {
      LookupFindsTail(s, f, tail, p.cookie.value);
    }
    if p.RefreshLooked? && p.found.value.revokedAt.Some? {
      RevokedTailIsExplicit(s, f, tail);
    }
  }

  /**
   One turn of the tab's refresh. Unless it commits a rotation, the tail stays and still fits;
   a committed rotation makes the new row the tail, and the process holds its token.
   */
  lemma FlightTurn(s: State, pid: Pid, c: Choice, jar: Option<Token>, closed: bool, f: FamilyId, tail: SessionId)
    returns (tail': SessionId)
    requires Inv(s) && pid in s.procs && IsTail(s.sessions, f, tail) && Quiet(s.sessions, f)
    requires FlightOk(s.procs[pid], jar, s.sessions[tail], Spent(s, f, tail), closed)
    ensures var s' := Next(s, Run(pid, c));
            && IsTail(s'.sessions, f, tail') && Quiet(s'.sessions, f)
            && FlightOk(s'.procs[pid], jar, s'.sessions[tail'], Spent(s', f, tail'), closed)
            && (Alarmed(s'.procs[pid], f) ==> Alarmed(s.procs[pid], f) || ExplicitlyRevoked(s.sessions, f))
            && (tail' == tail || s'.procs[pid].RefreshCommitted?)
  {
    var p, s' := s.procs[pid], Next(s, Run(pid, c));
    tail' := tail;
    if p.RefreshStamped? {
      if s'.procs[pid].RefreshCommitted? {
        tail' := p.nextId;
        FlightCommits(s, pid, c, f, tail);
      } else {
        RotationAllOrNothing(s, pid, c);
        if s'.procs[pid] == Done(SessionLost) {
          RevokedTailIsExplicit(s, f, tail);
        }
      }
    } else if p.RefreshBurning? {
      assert ProcOk(s, p);
      RevokedTailIsExplicit(s, f, tail);
      AlarmIsIdle(s, f, tail);
    } else {
      FlightReads(s, pid, c, jar, closed, f, tail);
    }
  }

  lemma FlightCommits(s: State, pid: Pid, c: Choice, f: FamilyId, tail: SessionId)
    requires Inv(s) && pid in s.procs && IsTail(s.sessions, f, tail) && Quiet(s.sessions, f)
    requires s.procs[pid].RefreshStamped? && s.procs[pid].row.id == tail
    requires Next(s, Run(pid, c)).procs[pid].RefreshCommitted?
    ensures var p, s' := s.procs[pid], Next(s, Run(pid, c));
            && IsTail(s'.sessions, f, p.nextId) && Quiet(s'.sessions, f)
            && s'.procs[pid] == RefreshCommitted(p.row, p.nextId, p.token)
            && s'.sessions[p.nextId].tokenHash == Sha256(p.token)
  {
    var p, s' := s.procs[pid], Next(s, Run(pid, c));
    assert ProcOk(s, p);
    assert InFamily(s'.sessions, p.nextId, f);
    forall id | InFamily(s'.sessions, id, f) ensures s'.sessions[id].revokedReason != Some(ReuseDetected) {
      assert id in s.sessions ==> InFamily(s.sessions, id, f);
    }
  }

  // ---- Every step ---------------------------------------------------------------------------

  /** The request for a new refresh is just one more process, carrying the cookie of the moment. */
  lemma TabSends(w: World, step: WorldStep)
    requires Tab.SingleFlight(w.tab) && step.TabActs?
    requires NextWorld(w, step) != w && NextWorld(w, step).tab.refreshes != w.tab.refreshes
    ensures var w' := NextWorld(w, step);
            && Tab.SingleFlight(w'.tab)
            && step.pid !in w.server.procs
            && w'.server == w.server.(procs := w.server.procs[step.pid := RefreshArrived(w.jar)])
            && w'.jar == w.jar && w'.closed == w.closed && w'.asked == w.asked
            && (forall pid :: !IsFlight(w, pid)) && (forall pid :: IsFlight(w', pid) <==> pid == step.pid)
            && w'.tab.refreshInFlight == Some(w.tab.refreshes)
  {
    Tab.ReactKeepsSingleFlight(w.tab, step.event);
  }

  lemma TabSendsKeeps(w: World, step: WorldStep, f: FamilyId, tail: SessionId)
    requires WorldInv(w, f, tail) && step.TabActs?
    requires NextWorld(w, step) != w && NextWorld(w, step).tab.refreshes != w.tab.refreshes
    ensures WorldInv(NextWorld(w, step), f, tail)
  {
    var w' := NextWorld(w, step);
    TabSends(w, step);
    assert JarFits(w.jar, w.server.sessions[tail], Spent(w.server, f, tail) || w.closed);
    assert Inv(w'.server) by {
      StepKeepsInv(w.server, Arrive(step.pid, RefreshRequest(w.jar)));
    }
    forall pid | pid in w'.server.procs && pid != step.pid
      ensures pid in w.server.procs && w'.server.procs[pid] == w.server.procs[pid]
    {
    }
    assert w'.server.procs[step.pid] == RefreshArrived(w.jar);
  }

  /** An event that sends no refresh leaves the refresh in flight, if there is one, as it is. */
  lemma SameFlight(w: World, step: WorldStep)
    requires Tab.SingleFlight(w.tab) && step.TabActs?
    requires NextWorld(w, step) != w && NextWorld(w, step).tab.refreshes == w.tab.refreshes
    ensures var w' := NextWorld(w, step);
            && Tab.SingleFlight(w'.tab)
            && w' == w.(tab := w'.tab)
            && (Undelivered(w') <==> Undelivered(w))
            && (Undelivered(w) ==> w'.tab.refreshInFlight == w.tab.refreshInFlight)
            && forall pid :: IsFlight(w', pid) <==> IsFlight(w, pid)
  {
    Tab.ReactKeepsSingleFlight(w.tab, step.event);
  }

  lemma TabActsKeeps(w: World, step: WorldStep, f: FamilyId, tail: SessionId)
    requires WorldInv(w, f, tail) && step.TabActs?
    ensures WorldInv(NextWorld(w, step), f, tail)
  {
    var w' := NextWorld(w, step);
    if w' != w && w'.tab.refreshes != w.tab.refreshes {
      TabSendsKeeps(w, step, f, tail);
    } else if w' != w {
      SameFlight(w, step);
      assert TailHeld(w', f, tail);
    }
  }

  lemma DeliverKeeps(w: World, step: WorldStep, f: FamilyId, tail: SessionId)
    requires WorldInv(w, f, tail) && step.Deliver?
    ensures WorldInv(NextWorld(w, step), f, tail)
  {
    if Delivering(w, step.refresh) {
      var w' := NextWorld(w, step);
      var answer := w.server.procs[w.pids[step.refresh]].answer;
      Tab.ReactKeepsSingleFlight(w.tab, Tab.RefreshReplyArrives(step.refresh, ReplyOf(answer)));
      assert step.refresh in w.tab.wire.Keys;
      assert forall pid :: !IsFlight(w', pid);
      assert IsFlight(w, w.pids[step.refresh]);
    }
  }

  /** A request of the tab's own is one more process, and not its refresh. */
  lemma AskingKeeps(w: World, pid: Pid, request: Request, f: FamilyId, tail: SessionId)
    requires WorldInv(w, f, tail) && !request.RefreshRequest?
    ensures WorldInv(Asking(w, pid, request), f, tail)
  {
    var w' := Asking(w, pid, request);
    if pid !in w.server.procs {
      StepKeepsInv(w.server, Arrive(pid, request));
      AskingAddsOne(w, pid, request);
      assert forall q :: IsFlight(w', q) <==> IsFlight(w, q);
      assert !IsFlight(w, pid);
    }
  }

  lemma AskingAddsOne(w: World, pid: Pid, request: Request)
    requires pid !in w.server.procs && !request.RefreshRequest?
    ensures var w' := Asking(w, pid, request);
            && w' == w.(server := w'.server, asked := w.asked + {pid})
            && w'.server == w.server.(procs := w.server.procs[pid := Start(request)])
    ensures Answering(Start(request)) && forall f :: Away(Start(request), f) && !Alarmed(Start(request), f)
  {
  }

  /** Its answer may clear the jar, and then the tab has closed its session itself. */
  lemma HearKeeps(w: World, step: WorldStep, f: FamilyId, tail: SessionId)
    requires WorldInv(w, f, tail) && step.Hear?
    ensures WorldInv(NextWorld(w, step), f, tail)
  {
    var w' := NextWorld(w, step);
    assert forall q :: IsFlight(w', q) <==> IsFlight(w, q);
  }

  /** A server step keeps what it does not concern: the server's own invariant and past alarms. */
  lemma ServerFrame(s: State, step: Step, f: FamilyId)
    requires Inv(s)
    ensures Inv(Next(s, step)) && Later(s, Next(s, step))
    ensures ExplicitlyRevoked(s.sessions, f) ==> ExplicitlyRevoked(Next(s, step).sessions, f)
  {
    StepKeepsInv(s, step);
    StepLater(s, step);
    MarksAgree(s);
    if ExplicitlyRevoked(s.sessions, f) {
      ExplicitStays(s.sessions, Next(s, step).sessions, f);
    }
  }

  /** A turn of the tab's refresh does not move the other processes. */
  lemma FlightLeavesOthers(w: World, step: WorldStep, f: FamilyId, tail: SessionId)
    requires WorldInv(w, f, tail)
    requires step.ServerActs? && step.step.Run? && step.step.pid in w.server.procs && IsFlight(w, step.step.pid)
    requires ExplicitlyRevoked(w.server.sessions, f) ==> ExplicitlyRevoked(NextWorld(w, step).server.sessions, f)
    requires Alarmed(NextWorld(w, step).server.procs[step.step.pid], f) ==>
               Alarmed(w.server.procs[step.step.pid], f) || ExplicitlyRevoked(w.server.sessions, f)
    ensures var w' := NextWorld(w, step);
            OthersAway(w', f) && AskedApart(w') && AlarmsJustified(w', f)
  {
    var w', pid := NextWorld(w, step), step.step.pid;
    assert w'.server.procs == w.server.procs[pid := w'.server.procs[pid]];
    assert forall q :: IsFlight(w', q) <==> IsFlight(w, q);
  }

  /** The step is the turn in which the tab's refresh commits its rotation. */
  ghost predicate Commits(w: World, step: WorldStep) {
    && step.ServerActs? && step.step.Run? && step.step.pid in w.server.procs && IsFlight(w, step.step.pid)
    && NextWorld(w, step).server.procs[step.step.pid].RefreshCommitted?
  }

  lemma FlightKeeps(w: World, step: WorldStep, f: FamilyId, tail: SessionId) returns (tail': SessionId)
    requires WorldInv(w, f, tail)
    requires step.ServerActs? && step.step.Run? && step.step.pid in w.server.procs && IsFlight(w, step.step.pid)
    ensures WorldInv(NextWorld(w, step), f, tail')
    ensures tail' == tail || Commits(w, step)
  {
    ServerFrame(w.server, step.step, f);
    tail' := FlightTurn(w.server, step.step.pid, step.step.choice, w.jar, w.closed, f, tail);
    FlightLeavesOthers(w, step, f, tail);
    assert TailHeld(NextWorld(w, step), f, tail');
  }

  /** When the tail stays and no time is given back, what was true of the flight or the jar stays true. */
  lemma TailStillHeld(w: World, w': World, f: FamilyId, tail: SessionId)
    requires tail in w.server.sessions && tail in w'.server.sessions && TailHeld(w, f, tail)
    requires w'.tab == w.tab && w'.jar == w.jar && w'.pids == w.pids && w'.closed == w.closed
    requires w'.server.sessions[tail].id == w.server.sessions[tail].id
    requires w'.server.sessions[tail].tokenHash == w.server.sessions[tail].tokenHash
    requires Spent(w.server, f, tail) ==> Spent(w'.server, f, tail)
    requires forall pid :: IsFlight(w, pid) && pid in w.server.procs ==>
               pid in w'.server.procs && w'.server.procs[pid] == w.server.procs[pid]
    ensures TailHeld(w', f, tail)
  {
    if Undelivered(w) {
      assert IsFlight(w, w.pids[w.tab.refreshInFlight.value]);
    }
  }

  /** After a stranger's turn the other processes are as they were. */
  lemma StrangerKeepsProcs(w: World, step: WorldStep, f: FamilyId, tail: SessionId, q: Pid)
    requires WorldInv(w, f, tail) && step.ServerActs? && Allowed(w, step, f)
    requires step.step.Run? && step.step.pid in w.server.procs && !IsFlight(w, step.step.pid)
    requires q in NextWorld(w, step).server.procs
    ensures q in w.server.procs
    ensures q != step.step.pid ==> NextWorld(w, step).server.procs[q] == w.server.procs[q]
    ensures Away(w.server.procs[q], f) ==> Away(NextWorld(w, step).server.procs[q], f)
    ensures Alarmed(NextWorld(w, step).server.procs[q], f) ==> Alarmed(w.server.procs[q], f)
    ensures Answering(w.server.procs[q]) ==> Answering(NextWorld(w, step).server.procs[q])
  {
    if q == step.step.pid {
      StrangerStaysAway(w.server, q, step.step.choice, f);
    } else {
      OthersKeepProc(w.server, step.step, q);
    }
  }

  lemma StrangerLeavesOthers(w: World, step: WorldStep, f: FamilyId, tail: SessionId)
    requires WorldInv(w, f, tail) && step.ServerActs? && Allowed(w, step, f)
    requires step.step.Run? && step.step.pid in w.server.procs && !IsFlight(w, step.step.pid)
    requires ExplicitlyRevoked(w.server.sessions, f) ==> ExplicitlyRevoked(NextWorld(w, step).server.sessions, f)
    ensures var w' := NextWorld(w, step);
            OthersAway(w', f) && AskedApart(w') && AlarmsJustified(w', f)
  {
    var w', s := NextWorld(w, step), w.server;
    assert forall q :: IsFlight(w', q) <==> IsFlight(w, q);
    forall q | q in w'.server.procs
      ensures q in s.procs
      ensures Away(s.procs[q], f) ==> Away(w'.server.procs[q], f)
      ensures Alarmed(w'.server.procs[q], f) ==> Alarmed(s.procs[q], f)
      ensures Answering(s.procs[q]) ==> Answering(w'.server.procs[q])
    {
      StrangerKeepsProcs(w, step, f, tail, q);
    }
  }

  lemma StrangerKeeps(w: World, step: WorldStep, f: FamilyId, tail: SessionId)
    requires WorldInv(w, f, tail) && step.ServerActs? && Allowed(w, step, f)
    requires step.step.Run? && step.step.pid in w.server.procs && !IsFlight(w, step.step.pid)
    ensures WorldInv(NextWorld(w, step), f, tail)
  {
    var w', s := NextWorld(w, step), w.server;
    ServerFrame(s, step.step, f);
    StrangersKeepFamily(s, step.step, f, tail);
    KeptFamilyKeepsTail(s.sessions, w'.server.sessions, f, tail);
    StrangerLeavesOthers(w, step, f, tail);
    forall q | IsFlight(w, q) && q in s.procs ensures q in w'.server.procs && w'.server.procs[q] == s.procs[q] {
      OthersKeepProc(s, step.step, q);
    }
    TailStillHeld(w, w', f, tail);
  }

  lemma BackgroundProcs(w: World, step: WorldStep, f: FamilyId, q: Pid)
    requires step.ServerActs? && !(step.step.Run? && step.step.pid in w.server.procs)
    requires q in NextWorld(w, step).server.procs
    ensures q in w.server.procs ==> NextWorld(w, step).server.procs[q] == w.server.procs[q]
    ensures q !in w.server.procs ==>
              Away(NextWorld(w, step).server.procs[q], f) && !Alarmed(NextWorld(w, step).server.procs[q], f)
  {
  }

  lemma BackgroundKeeps(w: World, step: WorldStep, f: FamilyId, tail: SessionId)
    requires WorldInv(w, f, tail) && step.ServerActs?
    requires !(step.step.Run? && step.step.pid in w.server.procs)
    ensures WorldInv(NextWorld(w, step), f, tail)
  {
    var w', s := NextWorld(w, step), w.server;
    ServerFrame(s, step.step, f);
    StrangersKeepFamily(s, step.step, f, tail);
    KeptFamilyKeepsTail(s.sessions, w'.server.sessions, f, tail);
    forall q ensures IsFlight(w', q) <==> IsFlight(w, q) {
    }
    forall q | q in w'.server.procs
      ensures q in s.procs ==> w'.server.procs[q] == s.procs[q]
      ensures q !in s.procs ==> Away(w'.server.procs[q], f) && !Alarmed(w'.server.procs[q], f)
    {
      BackgroundProcs(w, step, f, q);
    }
    forall q | q in s.procs ensures q in w'.server.procs && w'.server.procs[q] == s.procs[q] {
      BackgroundKeepsProc(w, step, q);
    }
    TailStillHeld(w, w', f, tail);
  }

  lemma BackgroundKeepsProc(w: World, step: WorldStep, q: Pid)
    requires step.ServerActs? && !(step.step.Run? && step.step.pid in w.server.procs) && q in w.server.procs
    ensures q in NextWorld(w, step).server.procs && NextWorld(w, step).server.procs[q] == w.server.procs[q]
  {
  }

  lemma StepKeepsWorld(w: World, step: WorldStep, f: FamilyId, tail: SessionId) returns (tail': SessionId)
    requires WorldInv(w, f, tail) && Allowed(w, step, f)
    ensures WorldInv(NextWorld(w, step), f, tail')
    ensures tail' == tail || Commits(w, step)
  {
    tail' := tail;
    if step.TabActs? {
      TabActsKeeps(w, step, f, tail);
    } else if step.Deliver? {
      DeliverKeeps(w, step, f, tail);
    } else if step.TabLogsOut? {
      AskingKeeps(w, step.pid, LogoutRequest(w.jar), f, tail);
    } else if step.TabAsks? {
      AskingKeeps(w, step.pid, BearerRequest(step.claims, step.action), f, tail);
    } else if step.Hear? {
      HearKeeps(w, step, f, tail);
    } else if !(step.step.Run? && step.step.pid in w.server.procs) {
      BackgroundKeeps(w, step, f, tail);
    } else if IsFlight(w, step.step.pid) {
      tail' := FlightKeeps(w, step, f, tail);
    } else {
      StrangerKeeps(w, step, f, tail);
    }
  }

  lemma {:induction false} WorldRun(w: World, steps: seq<WorldStep>, f: FamilyId, tail: SessionId)
    returns (tail': SessionId)
    requires WorldInv(w, f, tail) && AllAllowed(w, steps, f)
    ensures WorldInv(ExecWorld(w, steps), f, tail')
    decreases |steps|
  {
    tail' := tail;
    if steps == [] {
    } else {
      tail' := WorldRun(w, steps[..|steps| - 1], f, tail);
      tail' := StepKeepsWorld(ExecWorld(w, steps[..|steps| - 1]), steps[|steps| - 1], f, tail');
    }
  }

  // ---- The theorem ------------------------------------------------------------------------

  /** The tab has just been signed in: a new family, its first token in the jar, nothing on the wire. */
  ghost function SignedIn(s: State, user: UserId, id: SessionId, f: FamilyId, token: Token): World {
    World(Next(s, SignIn(user, id, f, token)), Tab.FRESH, Some(token), map[], {}, false)
  }

  lemma SignedInInv(s: State, user: UserId, id: SessionId, f: FamilyId, token: Token)
    requires Inv(s) && id !in s.sessions && id in Next(s, SignIn(user, id, f, token)).sessions
    ensures WorldInv(SignedIn(s, user, id, f, token), f, id)
  {
    var w := SignedIn(s, user, id, f, token);
    StepKeepsInv(s, SignIn(user, id, f, token));
    assert InFamily(w.server.sessions, id, f);
    forall pid | pid in s.procs ensures Away(s.procs[pid], f) && !Alarmed(s.procs[pid], f) {
      assert ProcOk(s, s.procs[pid]);
    }
  }

  /** The refresh has committed its rotation and carries the token of the new tail. */
  predicate HoldsToken(p: Proc, tail: Session) {
    || (p.RefreshCommitted? && Sha256(p.token) == tail.tokenHash)
    || (p.Done? && p.answer.Refreshed? && Sha256(p.answer.cookie) == tail.tokenHash && p.answer.access.sid == tail.id)
  }

  /** What the tab is told of its session by a refresh is true: over, or closed by the tab itself. */
  predicate ToldTheTruth(p: Proc, spent: bool, closed: bool) {
    && (p == Done(SessionLost) ==> spent)
    && (p.Done? && p.answer.FamilyBurned? ==> spent)
    && (p == Done(SessionCleared) ==> spent || closed)
  }

  /** The tail's token is in the jar, or on its way there; or there is a reason for an empty jar. */
  ghost predicate TokenAtHand(w: World, f: FamilyId, tail: SessionId)
    requires tail in w.server.sessions
  {
    || JarFits(w.jar, w.server.sessions[tail], Spent(w.server, f, tail) || w.closed)
    || exists flight ::
         && flight in w.server.procs && IsFlight(w, flight)
         && HoldsToken(w.server.procs[flight], w.server.sessions[tail])
  }

  lemma TailIsAccounted(w: World, f: FamilyId, tail: SessionId, pid: Pid)
    requires WorldInv(w, f, tail)
    ensures w.server.sessions[tail].Live() || ExplicitlyRevoked(w.server.sessions, f)
    ensures TokenAtHand(w, f, tail)
    ensures pid in w.server.procs && IsFlight(w, pid) ==>
              ToldTheTruth(w.server.procs[pid], Spent(w.server, f, tail), w.closed)
  {
    if !w.server.sessions[tail].Live() {
      RevokedTailIsExplicit(w.server, f, tail);
    }
    if !JarFits(w.jar, w.server.sessions[tail], Spent(w.server, f, tail) || w.closed) {
      var flight := w.pids[w.tab.refreshInFlight.value];
      assert IsFlight(w, flight) && HoldsToken(w.server.procs[flight], w.server.sessions[tail]);
    }
  }

  /**
   After any run, with any number of calls finding their token expired at once, and whatever the
   tab itself logs out of or closes meanwhile: the reuse branch has been taken for the family only
   if somebody ended one of its sessions on purpose, and the alarm has marked no row of it. The
   one unreplaced row, `tail`, is live unless so ended, and its token is in the jar, or with the
   tab's one refresh, committed but not yet delivered. The jar is empty only if the session was
   ended on purpose, ran out, or the tab's own logout or close was answered since it was last
   filled; and a refresh is told that its session is lost, burned or gone only for such a reason.
   */
  lemma NoFalseReuse(s: State, user: UserId, id: SessionId, f: FamilyId, token: Token, steps: seq<WorldStep>, pid: Pid)
    returns (tail: SessionId)
    requires Inv(s) && id !in s.sessions && id in Next(s, SignIn(user, id, f, token)).sessions
    requires AllAllowed(SignedIn(s, user, id, f, token), steps, f)
    ensures var w := ExecWorld(SignedIn(s, user, id, f, token), steps);
            && (pid in w.server.procs && Alarmed(w.server.procs[pid], f) ==> ExplicitlyRevoked(w.server.sessions, f))
            && Quiet(w.server.sessions, f)
            && |w.tab.wire| <= 1
            && IsTail(w.server.sessions, f, tail)
            && (w.server.sessions[tail].Live() || ExplicitlyRevoked(w.server.sessions, f))
            && TokenAtHand(w, f, tail)
            && (pid in w.server.procs && IsFlight(w, pid) ==>
                  ToldTheTruth(w.server.procs[pid], Spent(w.server, f, tail), w.closed))
  {
    SignedInInv(s, user, id, f, token);
    tail := WorldRun(SignedIn(s, user, id, f, token), steps, f, id);
    var w := ExecWorld(SignedIn(s, user, id, f, token), steps);
    assert |w.tab.wire| == |w.tab.wire.Keys|;
    TailIsAccounted(w, f, tail, pid);
  }
}
