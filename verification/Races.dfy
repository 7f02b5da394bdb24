/**
 Runs that show where the promises end: requests accepted although their session was revoked or
 their token outdated, a logout that leaves a session alive, and a cookie cleared although its
 session is alive. All turn on a row that was loaded before a change and used after it.
 */
module Races {
  import opened Wrappers
  import opened Sessions
  import opened Chains
  import opened Tokens
  import opened Handlers
  import opened Runs
  import opened SessionSafety
  import opened Outcomes
  import opened SingleTab
  import Tab = ApiClient

  const CFG := Config(900, 2592000)
  const CLAIMS := Sign(1, 10, 0, CFG.accessTtl)
  const CHOICE := Choice(11, 2000, false)

  /** User 1 signed in once: session 10 of family 100, with token 1000. */
  const FIRST := NewRow(10, 1, 100, 1000, 0, CFG.refreshTtl)

  /** The same session once a refresh has rotated it to session 11, with token 2000. */
  const RETIRED := FIRST.(revokedAt := Some(0), revokedReason := Some(Rotated), replacedBy := Some(11))
  const SECOND := NewRow(11, 1, 100, 2000, 0, CFG.refreshTtl)

  function At(sessions: Table, procs: map<Pid, Proc>): State {
    State(CFG, 0, map[1 := User(0)], sessions, procs)
  }

  ghost predicate LeadsTo(s: State, s': State) {
    exists steps: seq<Step> :: Exec(s, steps) == s'
  }

  lemma Further(s: State, mid: State, step: Step)
    requires LeadsTo(s, mid)
    ensures LeadsTo(s, Next(mid, step))
  {
    var steps: seq<Step> :| Exec(s, steps) == mid;
    assert (steps + [step])[..|steps|] == steps;
    assert Exec(s, steps + [step]) == Next(mid, step);
  }

  lemma {:induction false} TurnsLead(s: State, mid: State, pid: Pid, c: Choice, n: nat)
    requires LeadsTo(s, mid)
    ensures LeadsTo(s, Turns(mid, pid, c, n))
    decreases n
  {
    if n == 0 {
    } else {
      Further(s, mid, Run(pid, c));
      TurnsLead(s, Next(mid, Run(pid, c)), pid, c, n - 1);
    }
  }

  lemma Overwritten(procs: map<Pid, Proc>, pid: Pid, p: Proc, q: Proc)
    ensures procs[pid := p][pid := q] == procs[pid := q]
  {
  }

  // ---- Stretches both runs are made of ------------------------------------------------------

  /** `authenticate` up to the point where it holds the user row. */
  lemma BearerReadsUser(s: State, pid: Pid, claims: Claims, action: Action)
    requires pid in s.procs && s.procs[pid] == BearerArrived(claims, action)
    requires !Expired(claims, s.clock) && claims.sub in s.users
    ensures Next(Next(s, Run(pid, CHOICE)), Run(pid, CHOICE))
            == With(s, pid, BearerUser(claims, action, s.users[claims.sub]))
  {
    assert Next(s, Run(pid, CHOICE)) == With(s, pid, BearerVerified(claims, action));
  }

  lemma BearerReadsRow(s: State, pid: Pid, claims: Claims, action: Action, user: User)
    requires pid in s.procs && s.procs[pid] == BearerUser(claims, action, user)
    ensures Turns(s, pid, CHOICE, 1)
            == With(s, pid, BearerSession(claims, action, user, FindById(s.sessions, claims.sid)))
  {
    assert Turns(s, pid, CHOICE, 1) == Turns(Next(s, Run(pid, CHOICE)), pid, CHOICE, 0);
  }

  /** And to the point where it holds both rows. */
  lemma BearerLoads(s: State, pid: Pid, claims: Claims, action: Action)
    requires pid in s.procs && s.procs[pid] == BearerArrived(claims, action)
    requires !Expired(claims, s.clock) && claims.sub in s.users
    ensures Turns(s, pid, CHOICE, 3)
            == With(s, pid, BearerSession(claims, action, s.users[claims.sub], FindById(s.sessions, claims.sid)))
  {
    var read := BearerUser(claims, action, s.users[claims.sub]);
    BearerReadsUser(s, pid, claims, action);
    TwoTurns(s, pid, CHOICE, 1);
    BearerReadsRow(With(s, pid, read), pid, claims, action, read.user);
    Overwritten(s.procs, pid, read,
                BearerSession(claims, action, s.users[claims.sub], FindById(s.sessions, claims.sid)));
  }

  lemma RefreshStamps(procs: map<Pid, Proc>)
    requires 2 in procs && procs[2] == RefreshArrived(Some(1000)) && Inv(At(map[10 := FIRST], procs))
    ensures Turns(At(map[10 := FIRST], procs), 2, CHOICE, 6)
            == Turns(At(map[10 := FIRST], procs[2 := RefreshStamped(FIRST, 0, 11, 2000)]), 2, CHOICE, 2)
  {
    var s := At(map[10 := FIRST], procs);
    HonestLook(s, 2, 10, 1000, CHOICE);
    TwoTurns(s, 2, CHOICE, 4);
    CheckedStamps(procs[2 := RefreshChecked(FIRST)]);
    Overwritten(procs, 2, RefreshChecked(FIRST), RefreshStamped(FIRST, 0, 11, 2000));
  }

  lemma CheckedStamps(procs: map<Pid, Proc>)
    requires 2 in procs && procs[2] == RefreshChecked(FIRST)
    ensures Turns(At(map[10 := FIRST], procs), 2, CHOICE, 4)
            == Turns(At(map[10 := FIRST], procs[2 := RefreshStamped(FIRST, 0, 11, 2000)]), 2, CHOICE, 2)
  {
    HonestStamp(At(map[10 := FIRST], procs), 2, CHOICE);
    TwoTurns(At(map[10 := FIRST], procs), 2, CHOICE, 2);
  }

  lemma RefreshCommits(procs: map<Pid, Proc>)
    requires 2 in procs && procs[2] == RefreshStamped(FIRST, 0, 11, 2000)
    ensures Next(At(map[10 := FIRST], procs), Run(2, CHOICE))
            == At(map[10 := RETIRED, 11 := SECOND], procs[2 := RefreshCommitted(FIRST, 11, 2000)])
  {
    assert Retire(map[10 := FIRST], 10, 11, 0) == map[10 := RETIRED];
  }

  lemma CommittedAnswers(procs: map<Pid, Proc>)
    requires 2 in procs && procs[2] == RefreshCommitted(FIRST, 11, 2000)
    ensures Turns(At(map[10 := RETIRED, 11 := SECOND], procs), 2, CHOICE, 1)
            == At(map[10 := RETIRED, 11 := SECOND], procs[2 := Done(Refreshed(2000, Sign(1, 11, 0, 900)))])
  {
    HonestAnswer(At(map[10 := RETIRED, 11 := SECOND], procs), 2, CHOICE);
  }

  lemma StampedAnswers(procs: map<Pid, Proc>)
    requires 2 in procs && procs[2] == RefreshStamped(FIRST, 0, 11, 2000)
    ensures Turns(At(map[10 := FIRST], procs), 2, CHOICE, 2)
            == At(map[10 := RETIRED, 11 := SECOND], procs[2 := Done(Refreshed(2000, Sign(1, 11, 0, 900)))])
  {
    var committed := procs[2 := RefreshCommitted(FIRST, 11, 2000)];
    var s' := At(map[10 := RETIRED, 11 := SECOND], committed);
    RefreshCommits(procs);
    CommittedAnswers(committed);
    assert Turns(At(map[10 := FIRST], procs), 2, CHOICE, 2) == Turns(s', 2, CHOICE, 1);
    Overwritten(procs, 2, RefreshCommitted(FIRST, 11, 2000), Done(Refreshed(2000, Sign(1, 11, 0, 900))));
  }

  /** A refresh with the first token, from request to answer. */
  lemma RefreshRotates(procs: map<Pid, Proc>)
    requires 2 in procs && procs[2] == RefreshArrived(Some(1000)) && Inv(At(map[10 := FIRST], procs))
    ensures Turns(At(map[10 := FIRST], procs), 2, CHOICE, 6)
            == At(map[10 := RETIRED, 11 := SECOND], procs[2 := Done(Refreshed(2000, Sign(1, 11, 0, 900)))])
  {
    RefreshStamps(procs);
    StampedAnswers(procs[2 := RefreshStamped(FIRST, 0, 11, 2000)]);
    Overwritten(procs, 2, RefreshStamped(FIRST, 0, 11, 2000), Done(Refreshed(2000, Sign(1, 11, 0, 900))));
  }

  const BURNED := SECOND.(revokedAt := Some(0), revokedReason := Some(ReuseDetected))

  lemma ReuseLooks(s: State)
    requires Inv(s) && s == At(map[10 := RETIRED, 11 := SECOND], s.procs)
    requires 3 in s.procs && s.procs[3] == RefreshArrived(Some(1000))
    ensures Next(Next(s, Run(3, CHOICE)), Run(3, CHOICE)) == With(s, 3, RefreshBurning(RETIRED))
  {
    LookupIsTheRow(s, 10, 1000);
    assert Next(s, Run(3, CHOICE)) == With(s, 3, RefreshLooked(Some(RETIRED)));
  }

  /** A second refresh with the first token, which burns the family. */
  lemma ReuseBurns(procs: map<Pid, Proc>)
    requires 3 in procs && procs[3] == RefreshArrived(Some(1000)) && Inv(At(map[10 := RETIRED, 11 := SECOND], procs))
    ensures Turns(At(map[10 := RETIRED, 11 := SECOND], procs), 3, CHOICE, 3)
            == At(map[10 := RETIRED, 11 := BURNED], procs[3 := Done(FamilyBurned(100))])
  {
    var s := At(map[10 := RETIRED, 11 := SECOND], procs);
    var burning := procs[3 := RefreshBurning(RETIRED)];
    ReuseLooks(s);
    TwoTurns(s, 3, CHOICE, 1);
    BurningBurns(burning);
    Overwritten(procs, 3, RefreshBurning(RETIRED), Done(FamilyBurned(100)));
  }

  lemma BurningBurns(procs: map<Pid, Proc>)
    requires 3 in procs && procs[3] == RefreshBurning(RETIRED)
    ensures Turns(At(map[10 := RETIRED, 11 := SECOND], procs), 3, CHOICE, 1)
            == At(map[10 := RETIRED, 11 := BURNED], procs[3 := Done(FamilyBurned(100))])
  {
    var s := At(map[10 := RETIRED, 11 := SECOND], procs);
    assert Execute(s.sessions, RevokeFamily(100, ReuseDetected), 0, CFG.refreshTtl) == map[10 := RETIRED, 11 := BURNED];
    assert Turns(s, 3, CHOICE, 1) == Turns(Next(s, Run(3, CHOICE)), 3, CHOICE, 0);
  }

  // ---- Burned, yet accepted -------------------------------------------------------------------

  ghost predicate Reached(s: State) {
    LeadsTo(Init(CFG, 0), s)
  }

  lemma ReachedKeepsInv(s: State)
    requires Reached(s)
    ensures Inv(s)
  {
    var steps: seq<Step> :| Exec(Init(CFG, 0), steps) == s;
    Reachable(CFG, 0, steps);
  }

  lemma SignedInReached()
    ensures Reached(At(map[10 := FIRST], map[]))
  {
    var start, none: seq<Step> := Init(CFG, 0), [];
    assert Exec(start, none) == start;
    Further(start, start, NewUser(1));
    var known := At(map[], map[]);
    assert Next(start, NewUser(1)) == known;
    Further(start, known, SignIn(1, 10, 100, 1000));
    assert Next(known, SignIn(1, 10, 100, 1000)) == At(map[10 := FIRST], map[]);
  }

  lemma ArriveReached(s: State, pid: Pid, request: Request)
    requires Reached(s) && pid !in s.procs
    ensures Reached(With(s, pid, Start(request))) && Inv(With(s, pid, Start(request)))
  {
    Further(Init(CFG, 0), s, Arrive(pid, request));
    assert Next(s, Arrive(pid, request)) == With(s, pid, Start(request));
    ReachedKeepsInv(With(s, pid, Start(request)));
  }

  lemma BearerHolds() returns (procs: map<Pid, Proc>)
    ensures Reached(At(map[10 := FIRST], procs))
    ensures procs == map[1 := BearerSession(CLAIMS, ReadOnly, User(0), Some(FIRST))]
  {
    SignedInReached();
    ArriveReached(At(map[10 := FIRST], map[]), 1, BearerRequest(CLAIMS, ReadOnly));
    var arrived := map[1 := BearerArrived(CLAIMS, ReadOnly)];
    BearerLoads(At(map[10 := FIRST], arrived), 1, CLAIMS, ReadOnly);
    TurnsLead(Init(CFG, 0), At(map[10 := FIRST], arrived), 1, CHOICE, 3);
    procs := arrived[1 := BearerSession(CLAIMS, ReadOnly, User(0), Some(FIRST))];
  }

  /** The bearer request has loaded its live row, and the session has been rotated since. */
  lemma RotatedBehindIt() returns (procs: map<Pid, Proc>)
    ensures Reached(At(map[10 := RETIRED, 11 := SECOND], procs)) && 3 !in procs
    ensures 1 in procs && procs[1] == BearerSession(CLAIMS, ReadOnly, User(0), Some(FIRST))
  {
    var held := BearerHolds();
    ArriveReached(At(map[10 := FIRST], held), 2, RefreshRequest(Some(1000)));
    var sent := held[2 := RefreshArrived(Some(1000))];
    RefreshRotates(sent);
    TurnsLead(Init(CFG, 0), At(map[10 := FIRST], sent), 2, CHOICE, 6);
    procs := sent[2 := Done(Refreshed(2000, Sign(1, 11, 0, 900)))];
  }

  /** Then the family is burned. */
  lemma BurnedBehindIt() returns (s: State)
    ensures Reached(s) && s.clock == 0 && 10 in s.sessions && s.sessions[10] == RETIRED
    ensures 1 in s.procs && s.procs[1] == BearerSession(CLAIMS, ReadOnly, User(0), Some(FIRST))
    ensures 3 in s.procs && s.procs[3] == Done(FamilyBurned(100))
  {
    var procs := RotatedBehindIt();
    var before := At(map[10 := RETIRED, 11 := SECOND], procs);
    ArriveReached(before, 3, RefreshRequest(Some(1000)));
    var all := procs[3 := RefreshArrived(Some(1000))];
    before := At(before.sessions, all);
    ReuseBurns(all);
    TurnsLead(Init(CFG, 0), before, 3, CHOICE, 3);
    s := Turns(before, 3, CHOICE, 3);
  }

  /**
   A run in which a refresh has been answered SESSION_REVOKED, every session of the family is
   revoked, and a request for one of them is accepted afterwards: it had loaded the row before.
   */
  lemma BurnedYetAccepted()
    ensures exists s: State ::
              && Reached(s)
              && 3 in s.procs && s.procs[3] == Done(FamilyBurned(100)) && Dead(s.sessions, 100)
              && 10 in s.sessions && IsRequestFor(s, 1, 10) && MayBeAccepted(s, 1)
  {
    var s := BurnedBehindIt();
    ReachedKeepsInv(s);
    BurnedMeansDead(s, 3);
    RevokedSessionAcceptance(s, 1, 10);
  }

  // ---- Revoked by hand, yet accepted ----------------------------------------------------------

  lemma BearerPasses(s: State, pid: Pid, claims: Claims, action: Action, user: User, found: Option<Session>)
    requires pid in s.procs && s.procs[pid] == BearerSession(claims, action, user, found)
    requires Judge(claims, user, found, s.clock).Ok?
    ensures Next(s, Run(pid, CHOICE)) == With(s, pid, BearerAccepted(claims.sub, claims.sid, action))
  {
  }

  /** A request that arrives and loads its rows, with nothing in between. */
  lemma ArrivesAndLoads(s: State, pid: Pid, claims: Claims, action: Action)
    requires Reached(s) && pid !in s.procs
    requires !Expired(claims, s.clock) && claims.sub in s.users
    ensures Reached(With(s, pid, BearerSession(claims, action, s.users[claims.sub], FindById(s.sessions, claims.sid))))
  {
    var arrived := With(s, pid, BearerArrived(claims, action));
    var loaded := BearerSession(claims, action, s.users[claims.sub], FindById(s.sessions, claims.sid));
    ArriveReached(s, pid, BearerRequest(claims, action));
    BearerLoads(arrived, pid, claims, action);
    TurnsLead(Init(CFG, 0), arrived, pid, CHOICE, 3);
    Overwritten(s.procs, pid, BearerArrived(claims, action), loaded);
  }

  /** And then is let in. */
  lemma LetIn(s: State, pid: Pid, claims: Claims, action: Action)
    requires Reached(s) && pid !in s.procs
    requires !Expired(claims, s.clock) && claims.sub in s.users
    requires Judge(claims, s.users[claims.sub], FindById(s.sessions, claims.sid), s.clock).Ok?
    ensures Reached(With(s, pid, BearerAccepted(claims.sub, claims.sid, action)))
  {
    var user, found := s.users[claims.sub], FindById(s.sessions, claims.sid);
    var loaded := With(s, pid, BearerSession(claims, action, user, found));
    ArrivesAndLoads(s, pid, claims, action);
    Further(Init(CFG, 0), loaded, Run(pid, CHOICE));
    BearerPasses(loaded, pid, claims, action, user, found);
    Overwritten(s.procs, pid, loaded.procs[pid], BearerAccepted(claims.sub, claims.sid, action));
  }

  const HELD := map[1 := BearerSession(CLAIMS, ReadOnly, User(0), Some(FIRST))]
  const LOGGED_OUT := FIRST.(revokedAt := Some(0), revokedReason := Some(LogoutAll))

  lemma LogoutAllRuns()
    ensures var s := At(map[10 := FIRST], HELD[2 := BearerAccepted(1, 10, EndAllSessions)]);
            Next(s, Run(2, CHOICE)) == At(map[10 := LOGGED_OUT], HELD[2 := Done(LoggedOutEverywhere)])
  {
    var s := At(map[10 := FIRST], HELD[2 := BearerAccepted(1, 10, EndAllSessions)]);
    assert Execute(s.sessions, RevokeAllForUser(1, LogoutAll, None), 0, CFG.refreshTtl) == map[10 := LOGGED_OUT];
    Overwritten(HELD, 2, s.procs[2], Done(LoggedOutEverywhere));
  }

  /** A run in which logout-all has been answered, and a request for one of the sessions is accepted. */
  lemma LoggedOutYetAccepted()
    ensures exists s: State ::
              && Reached(s)
              && 2 in s.procs && s.procs[2] == Done(LoggedOutEverywhere)
              && 10 in s.sessions && s.sessions[10].revokedReason == Some(LogoutAll)
              && IsRequestFor(s, 1, 10) && MayBeAccepted(s, 1)
  {
    var procs := BearerHolds();
    var held := At(map[10 := FIRST], HELD);
    LetIn(held, 2, CLAIMS, EndAllSessions);
    var let := At(held.sessions, HELD[2 := BearerAccepted(1, 10, EndAllSessions)]);
    Further(Init(CFG, 0), let, Run(2, CHOICE));
    LogoutAllRuns();
    var s := At(map[10 := LOGGED_OUT], HELD[2 := Done(LoggedOutEverywhere)]);
    ReachedKeepsInv(s);
    RevokedSessionAcceptance(s, 1, 10);
  }

  /** The same user's second session, on another device. */
  const OTHER := NewRow(20, 1, 200, 3000, 0, CFG.refreshTtl)
  const OTHER_CLAIMS := Sign(1, 20, 0, CFG.accessTtl)
  const CHANGED := FIRST.(revokedAt := Some(0), revokedReason := Some(PasswordChanged))

  lemma ChangeUpdates()
    ensures Next(At(map[10 := FIRST, 20 := OTHER], HELD[2 := BearerAccepted(1, 20, ChangePassword)]), Run(2, CHOICE))
            == At(map[10 := FIRST, 20 := OTHER], HELD[2 := PasswordUpdated(1, 20)])
  {
    Overwritten(HELD, 2, BearerAccepted(1, 20, ChangePassword), PasswordUpdated(1, 20));
  }

  lemma ChangeRevokes()
    ensures Next(At(map[10 := FIRST, 20 := OTHER], HELD[2 := PasswordUpdated(1, 20)]), Run(2, CHOICE))
            == At(map[10 := CHANGED, 20 := OTHER], HELD[2 := Done(PasswordSet)])
  {
    assert Execute(map[10 := FIRST, 20 := OTHER], RevokeAllForUser(1, PasswordChanged, Some(20)), 0, CFG.refreshTtl)
        == map[10 := CHANGED, 20 := OTHER];
    Overwritten(HELD, 2, PasswordUpdated(1, 20), Done(PasswordSet));
  }

  lemma OtherSignsIn()
    ensures Reached(At(map[10 := FIRST, 20 := OTHER], HELD))
  {
    var procs := BearerHolds();
    Further(Init(CFG, 0), At(map[10 := FIRST], HELD), SignIn(1, 20, 200, 3000));
    assert Next(At(map[10 := FIRST], HELD), SignIn(1, 20, 200, 3000)) == At(map[10 := FIRST, 20 := OTHER], HELD);
  }

  lemma ChangedByOther()
    ensures Reached(At(map[10 := CHANGED, 20 := OTHER], HELD[2 := Done(PasswordSet)]))
  {
    OtherSignsIn();
    var held := At(map[10 := FIRST, 20 := OTHER], HELD);
    LetIn(held, 2, OTHER_CLAIMS, ChangePassword);
    Further(Init(CFG, 0), At(held.sessions, HELD[2 := BearerAccepted(1, 20, ChangePassword)]), Run(2, CHOICE));
    ChangeUpdates();
    Further(Init(CFG, 0), At(held.sessions, HELD[2 := PasswordUpdated(1, 20)]), Run(2, CHOICE));
    ChangeRevokes();
  }

  /**
   A run in which a password change made from session 20 has been answered, session 10 is revoked,
   and a request for session 10 is accepted.
   */
  lemma ChangedYetAccepted()
    ensures exists s: State ::
              && Reached(s)
              && 2 in s.procs && s.procs[2] == Done(PasswordSet)
              && 10 in s.sessions && s.sessions[10].revokedReason == Some(PasswordChanged)
              && IsRequestFor(s, 1, 10) && MayBeAccepted(s, 1)
  {
    ChangedByOther();
    var s := At(map[10 := CHANGED, 20 := OTHER], HELD[2 := Done(PasswordSet)]);
    ReachedKeepsInv(s);
    RevokedSessionAcceptance(s, 1, 10);
  }

  // ---- Outdated, yet accepted -----------------------------------------------------------------

  const READING := map[1 := BearerUser(CLAIMS, ReadOnly, User(0))]

  /** Later on the same day, with the password as it was when `changed`. */
  function LateAt(changed: int, procs: map<Pid, Proc>): State {
    State(CFG, 800000, map[1 := User(changed)], map[10 := FIRST], procs)
  }

  /** The request holds its user row, and time passes. */
  lemma UserIsLoaded()
    ensures Reached(LateAt(0, READING))
  {
    SignedInReached();
    ArriveReached(At(map[10 := FIRST], map[]), 1, BearerRequest(CLAIMS, ReadOnly));
    var arrived := At(map[10 := FIRST], map[1 := BearerArrived(CLAIMS, ReadOnly)]);
    BearerReadsUser(arrived, 1, CLAIMS, ReadOnly);
    Further(Init(CFG, 0), arrived, Run(1, CHOICE));
    Further(Init(CFG, 0), Next(arrived, Run(1, CHOICE)), Run(1, CHOICE));
    Further(Init(CFG, 0), At(map[10 := FIRST], READING), Tick(800000));
    assert Next(At(map[10 := FIRST], READING), Tick(800000)) == LateAt(0, READING);
  }

  lemma LateChangeRuns()
    ensures var s := LateAt(0, READING[2 := BearerAccepted(1, 10, ChangePassword)]);
            Next(Next(s, Run(2, CHOICE)), Run(2, CHOICE)) == LateAt(800000, READING[2 := Done(PasswordSet)])
  {
    var s := LateAt(0, READING[2 := BearerAccepted(1, 10, ChangePassword)]);
    var updated := LateAt(800000, READING[2 := PasswordUpdated(1, 10)]);
    Overwritten(READING, 2, s.procs[2], PasswordUpdated(1, 10));
    assert Next(s, Run(2, CHOICE)) == updated;
    assert Execute(s.sessions, RevokeAllForUser(1, PasswordChanged, Some(10)), 800000, CFG.refreshTtl) == s.sessions;
    Overwritten(READING, 2, updated.procs[2], Done(PasswordSet));
  }

  lemma ChangedLate()
    ensures Reached(LateAt(800000, READING[2 := Done(PasswordSet)]))
  {
    UserIsLoaded();
    LetIn(LateAt(0, READING), 2, CLAIMS, ChangePassword);
    var let := LateAt(0, READING[2 := BearerAccepted(1, 10, ChangePassword)]);
    Further(Init(CFG, 0), let, Run(2, CHOICE));
    Further(Init(CFG, 0), Next(let, Run(2, CHOICE)), Run(2, CHOICE));
    LateChangeRuns();
  }

  /**
   A run in which a password change has been answered, and a request with a token minted 800
   seconds before the change is accepted: it had loaded the user row before, and its session is
   the one the change was made from.
   */
  lemma OldTokenYetAccepted()
    ensures exists s: State ::
              && Reached(s)
              && 2 in s.procs && s.procs[2] == Done(PasswordSet)
              && 1 in s.users && IsRequestFor(s, 1, 10)
              && s.procs[1].claims == Sign(1, 10, s.users[1].passwordChangedAt - 800000, CFG.accessTtl)
              && !OldEnough(s.procs[1].claims, s.users[1]) && MayBeAccepted(s, 1)
  {
    ChangedLate();
    var s := LateAt(800000, READING[2 := Done(PasswordSet)]);
    ReachedKeepsInv(s);
    OldTokenAcceptance(s, 1);
  }

  // ---- Logged out, yet alive ------------------------------------------------------------------

  const LEAVING := map[1 := LogoutLooked(Some(FIRST))]

  lemma LogoutLooks()
    ensures Reached(At(map[10 := FIRST], LEAVING))
  {
    SignedInReached();
    ArriveReached(At(map[10 := FIRST], map[]), 1, LogoutRequest(Some(1000)));
    var arrived := At(map[10 := FIRST], map[1 := LogoutArrived(Some(1000))]);
    LookupIsTheRow(arrived, 10, 1000);
    Further(Init(CFG, 0), arrived, Run(1, CHOICE));
    assert Next(arrived, Run(1, CHOICE)) == At(map[10 := FIRST], LEAVING);
  }

  lemma LogoutFindsNothing(procs: map<Pid, Proc>)
    requires 1 in procs && procs[1] == LogoutLooked(Some(FIRST))
    ensures Next(At(map[10 := RETIRED, 11 := SECOND], procs), Run(1, CHOICE))
            == At(map[10 := RETIRED, 11 := SECOND], procs[1 := Done(LoggedOut)])
  {
    var t := map[10 := RETIRED, 11 := SECOND];
    assert Execute(t, RevokeSession(10, Logout), 0, CFG.refreshTtl) == t;
  }

  lemma RotatedBehindLogout() returns (procs: map<Pid, Proc>)
    ensures Reached(At(map[10 := RETIRED, 11 := SECOND], procs))
    ensures 1 in procs && procs[1] == LogoutLooked(Some(FIRST))
  {
    LogoutLooks();
    ArriveReached(At(map[10 := FIRST], LEAVING), 2, RefreshRequest(Some(1000)));
    var sent := LEAVING[2 := RefreshArrived(Some(1000))];
    RefreshRotates(sent);
    TurnsLead(Init(CFG, 0), At(map[10 := FIRST], sent), 2, CHOICE, 6);
    procs := sent[2 := Done(Refreshed(2000, Sign(1, 11, 0, 900)))];
  }

  /**
   A run in which a logout with the cookie of session 10 has been answered 204, and the session's
   successor is live: a refresh rotated it after the logout had looked.
   */
  lemma LoggedOutYetAlive()
    ensures exists s: State ::
              && Reached(s)
              && 1 in s.procs && s.procs[1] == Done(LoggedOut)
              && 10 in s.sessions && s.sessions[10].tokenHash == Sha256(1000)
              && s.sessions[10].replacedBy == Some(11)
              && 11 in s.sessions && s.sessions[11].IsActive(s.clock)
  {
    var procs := RotatedBehindLogout();
    Further(Init(CFG, 0), At(map[10 := RETIRED, 11 := SECOND], procs), Run(1, CHOICE));
    LogoutFindsNothing(procs);
    var s := At(map[10 := RETIRED, 11 := SECOND], procs[1 := Done(LoggedOut)]);
    assert Reached(s);
  }

  // ---- Closed, yet alive ----------------------------------------------------------------------

  ghost predicate LeadsWorld(w: World, w': World) {
    exists steps: seq<WorldStep> :: AllAllowed(w, steps, 100) && ExecWorld(w, steps) == w'
  }

  ghost predicate Moves(w: World, step: WorldStep, w': World) {
    Allowed(w, step, 100) && NextWorld(w, step) == w'
  }

  lemma FurtherWorld(w: World, mid: World, step: WorldStep, next: World)
    requires LeadsWorld(w, mid) && Moves(mid, step, next)
    ensures LeadsWorld(w, next)
  {
    var steps: seq<WorldStep> :| AllAllowed(w, steps, 100) && ExecWorld(w, steps) == mid;
    var more := steps + [step];
    assert more[..|more| - 1] == steps;
    assert AllAllowed(w, more, 100) && ExecWorld(w, more) == next;
  }

  /** The process is the tab's refresh, or no refresh at all. */
  ghost predicate MayTurn(w: World, pid: Pid) {
    pid in w.server.procs && (IsFlight(w, pid) || !RefreshPhase(w.server.procs[pid]))
  }

  lemma TurnMoves(w: World, pid: Pid)
    requires MayTurn(w, pid)
    ensures var next := w.(server := Next(w.server, Run(pid, CHOICE)));
            Moves(w, ServerActs(Run(pid, CHOICE)), next) && MayTurn(next, pid)
  {
  }

  lemma OneTurn(w: World, mid: World, pid: Pid, n: nat) returns (next: World)
    requires LeadsWorld(w, mid) && MayTurn(mid, pid)
    ensures LeadsWorld(w, next) && MayTurn(next, pid)
    ensures mid.(server := Turns(mid.server, pid, CHOICE, n + 1)) == next.(server := Turns(next.server, pid, CHOICE, n))
  {
    next := mid.(server := Next(mid.server, Run(pid, CHOICE)));
    TurnMoves(mid, pid);
    FurtherWorld(w, mid, ServerActs(Run(pid, CHOICE)), next);
  }

  lemma {:induction false} WorldTurns(w: World, mid: World, pid: Pid, n: nat)
    requires LeadsWorld(w, mid) && MayTurn(mid, pid)
    ensures LeadsWorld(w, mid.(server := Turns(mid.server, pid, CHOICE, n)))
    decreases n
  {
    if n > 0 {
      var next := OneTurn(w, mid, pid, n - 1);
      WorldTurns(w, next, pid, n - 1);
    } else {
      assert mid.(server := Turns(mid.server, pid, CHOICE, n)) == mid;
    }
  }

  /** The tab with its close under way in process 1. */
  function Closing(sessions: Table, procs: map<Pid, Proc>): World {
    World(At(sessions, procs), Tab.FRESH, Some(1000), map[], {1}, false)
  }

  /** The same once the tab has sent a refresh, handled by process 2. */
  function Refreshing(sessions: Table, procs: map<Pid, Proc>): World {
    Closing(sessions, procs).(tab := Tab.React(Tab.FRESH, Tab.NewRefreshCall), pids := map[0 := 2])
  }

  function Answered(procs: map<Pid, Proc>): World {
    var reply := Tab.RefreshReplyArrives(0, Tab.NewAccess(11));
    var sent := Refreshing(map[10 := RETIRED, 11 := SECOND], procs);
    sent.(tab := Tab.React(sent.tab, reply), jar := Some(2000))
  }

  const CLOSER := CloseLooked(1, 10, Some(FIRST))
  const ASKED := map[1 := BearerArrived(CLAIMS, CloseSession(10))]
  const LOADED := map[1 := BearerSession(CLAIMS, CloseSession(10), User(0), Some(FIRST))]
  const SENT := map[1 := CLOSER, 2 := RefreshArrived(Some(1000))]
  const REFRESHED := map[1 := CLOSER, 2 := Done(Refreshed(2000, Sign(1, 11, 0, 900)))]

  ghost function SignedInTab(): World {
    SignedIn(At(map[], map[]), 1, 10, 100, 1000)
  }

  lemma TabAsksFirst()
    ensures Moves(SignedInTab(), TabAsks(1, CLAIMS, CloseSession(10)), Closing(map[10 := FIRST], ASKED))
  {
    assert SignedInTab() == World(At(map[10 := FIRST], map[]), Tab.FRESH, Some(1000), map[], {}, false);
  }

  lemma CloserLoads()
    ensures Turns(At(map[10 := FIRST], ASKED), 1, CHOICE, 3) == At(map[10 := FIRST], LOADED)
  {
    BearerLoads(At(map[10 := FIRST], ASKED), 1, CLAIMS, CloseSession(10));
  }

  lemma CloserLooks()
    ensures Turns(At(map[10 := FIRST], LOADED), 1, CHOICE, 2) == At(map[10 := FIRST], map[1 := CLOSER])
  {
    var loaded := At(map[10 := FIRST], LOADED);
    var accepted := At(map[10 := FIRST], map[1 := BearerAccepted(1, 10, CloseSession(10))]);
    assert Next(loaded, Run(1, CHOICE)) == accepted;
    assert Turns(accepted, 1, CHOICE, 1) == Turns(Next(accepted, Run(1, CHOICE)), 1, CHOICE, 0);
  }

  lemma TabRefreshes()
    ensures Moves(Closing(map[10 := FIRST], map[1 := CLOSER]), TabActs(Tab.NewRefreshCall, 2),
                  Refreshing(map[10 := FIRST], SENT))
    ensures IsFlight(Refreshing(map[10 := FIRST], SENT), 2)
  {
  }

  lemma SentKeepsInv()
    ensures Inv(At(map[10 := FIRST], SENT))
  {
    SignedInReached();
    ReachedKeepsInv(At(map[10 := FIRST], map[]));
  }

  lemma RefreshIsAnswered()
    ensures Turns(At(map[10 := FIRST], SENT), 2, CHOICE, 6) == At(map[10 := RETIRED, 11 := SECOND], REFRESHED)
  {
    SentKeepsInv();
    RefreshRotates(SENT);
  }

  lemma AnswerIsDelivered()
    ensures Moves(Refreshing(map[10 := RETIRED, 11 := SECOND], REFRESHED), Deliver(0), Answered(REFRESHED))
  {
  }

  const CLOSED := REFRESHED[1 := Done(SessionClosed(true))]

  lemma CloseFindsNothing(s: State)
    requires s == At(map[10 := RETIRED, 11 := SECOND], REFRESHED)
    ensures Next(s, Run(1, CHOICE)) == At(map[10 := RETIRED, 11 := SECOND], CLOSED)
  {
    assert Execute(s.sessions, RevokeSession(10, RevokedByUser), 0, CFG.refreshTtl) == s.sessions;
  }

  /** The close finds nothing to revoke, and clears the cookie all the same. */
  lemma CloseIsAnswered()
    ensures Moves(Answered(REFRESHED), ServerActs(Run(1, CHOICE)), Answered(CLOSED))
  {
    CloseFindsNothing(Answered(REFRESHED).server);
  }

  lemma CloseIsHeard() returns (last: World)
    ensures Moves(Answered(CLOSED), Hear(1), last)
    ensures last.jar.None? && last.closed && last.server == At(map[10 := RETIRED, 11 := SECOND], CLOSED)
  {
    last := NextWorld(Answered(CLOSED), Hear(1));
  }

  lemma ClosingRun() returns (last: World)
    ensures LeadsWorld(SignedInTab(), last)
    ensures last.jar.None? && last.closed
    ensures last.server.sessions == map[10 := RETIRED, 11 := SECOND] && last.server.clock == 0
  {
    var w, none: seq<WorldStep> := SignedInTab(), [];
    assert AllAllowed(w, none, 100) && ExecWorld(w, none) == w;
    TabAsksFirst();
    FurtherWorld(w, w, TabAsks(1, CLAIMS, CloseSession(10)), Closing(map[10 := FIRST], ASKED));
    CloserLoads();
    WorldTurns(w, Closing(map[10 := FIRST], ASKED), 1, 3);
    CloserLooks();
    WorldTurns(w, Closing(map[10 := FIRST], LOADED), 1, 2);
    TabRefreshes();
    FurtherWorld(w, Closing(map[10 := FIRST], map[1 := CLOSER]), TabActs(Tab.NewRefreshCall, 2),
                 Refreshing(map[10 := FIRST], SENT));
    RefreshIsAnswered();
    WorldTurns(w, Refreshing(map[10 := FIRST], SENT), 2, 6);
    AnswerIsDelivered();
    FurtherWorld(w, Refreshing(map[10 := RETIRED, 11 := SECOND], REFRESHED), Deliver(0), Answered(REFRESHED));
    CloseIsAnswered();
    FurtherWorld(w, Answered(REFRESHED), ServerActs(Run(1, CHOICE)), Answered(CLOSED));
    last := CloseIsHeard();
    FurtherWorld(w, Answered(CLOSED), Hear(1), last);
  }

  /**
   A run of the tab after which its jar is empty, although nobody revoked a session of the family
   and its tail is live and unexpired: the tab closed its own session, but the row had been rotated
   since the handler read it, so the close revoked nothing and cleared the cookie all the same.
   */
  lemma ClosedYetAlive()
    ensures exists w: World ::
              && LeadsWorld(SignedInTab(), w)
              && w.jar.None? && w.closed
              && IsTail(w.server.sessions, 100, 11) && !Spent(w.server, 100, 11)
              && w.server.sessions[11].IsActive(w.server.clock)
  {
    var w := ClosingRun();
    assert InFamily(w.server.sessions, 11, 100);
  }
}
