/**
 Account lockout (server/src/services/userService.ts) under the login handler of
 server/src/routes/auth.routes.ts, for one account and any number of logins at once.

 A login reads the account, then looks at the clock, then checks the password, then writes. The
 account it decided on may have changed meanwhile.
 */
module Lockout {
  import opened Wrappers

  type Pid = nat

  const MAX_FAILED_ATTEMPTS := 5
  const LOCK_WINDOW_MS := 15 * 60000

  datatype Account = Account(failedAttempts: nat, lockedUntil: Option<int>)

  /** A login in flight: account read, lock passed, password found wrong, password found right. */
  datatype Login = Fetched(lockedUntil: Option<int>) | Verifying | Rejected | Verified

  /** `failedChecks` counts the passwords found wrong so far; nothing in the code reads it. */
  datatype State = State(clock: int, account: Account, logins: map<Pid, Login>, failedChecks: nat)

  datatype Step =
    | Tick(elapsed: nat)
    | Fetch(pid: Pid)
    | Gate(pid: Pid)
    | Check(pid: Pid, good: bool)
    | Register(pid: Pid)
    | Clear(pid: Pid)

  // ---- The two statements and the lock test -------------------------------------------------

  function RegisterFailure(a: Account, now: int): Account {
    Account(a.failedAttempts + 1,
            if a.failedAttempts + 1 >= MAX_FAILED_ATTEMPTS then Some(now + LOCK_WINDOW_MS)
            else if a.lockedUntil.Some? && a.lockedUntil.value > now then a.lockedUntil
            else None)
  }

  predicate IsLocked(lockedUntil: Option<int>, now: int) {
    lockedUntil.Some? && lockedUntil.value > now
  }

  /** Math.ceil of the milliseconds left, in seconds. */
  function RetryAfterSeconds(lockedUntil: int, now: int): int {
    (lockedUntil - now + 999) / 1000
  }

  class UserRow {
    var account: Account

    constructor ()
      ensures account == Account(0, None)
    {
      account := Account(0, None);
    }

    method RegisterFailedLogin(now: int) returns (attempts: nat, lockedUntil: Option<int>)
      modifies this
      ensures account == RegisterFailure(old(account), now)
      ensures attempts == old(account.failedAttempts) + 1 && lockedUntil == account.lockedUntil
      ensures old(AccountOk(account)) ==>
                && AccountOk(account)
                && lockedUntil == if attempts >= 5 then Some(now + 900000) else None
    {
      attempts := account.failedAttempts + 1;
      if attempts >= MAX_FAILED_ATTEMPTS {
        lockedUntil := Some(now + LOCK_WINDOW_MS);
      } else if account.lockedUntil.Some? && account.lockedUntil.value > now {
        lockedUntil := account.lockedUntil;
      } else {
        lockedUntil := None;
      }
      account := Account(attempts, lockedUntil);
    }

    method ClearLoginFailures()
      modifies this
      ensures account == Account(0, None) && AccountOk(account)
    {
      account := Account(0, None);
    }

    method LockState(now: int) returns (locked: bool, retryAfterSeconds: int)
      ensures locked <==> IsLocked(account.lockedUntil, now)
      ensures !locked ==> retryAfterSeconds == 0
      ensures locked ==> retryAfterSeconds >= 1
      ensures locked ==> retryAfterSeconds == RetryAfterSeconds(account.lockedUntil.value, now)
    {
      if account.lockedUntil.Some? && account.lockedUntil.value > now {
        var seconds := RetryAfterSeconds(account.lockedUntil.value, now);
        return true, if seconds < 1 then 1 else seconds;
      }
      return false, 0;
    }
  }

  // ---- The handlers -------------------------------------------------------------------------

  function Next(s: State, step: Step): State {
    match step
    case Tick(elapsed) => s.(clock := s.clock + elapsed)
    case Fetch(pid) =>
      if pid in s.logins then s else s.(logins := s.logins[pid := Fetched(s.account.lockedUntil)])
    case Gate(pid) =>
      if pid !in s.logins || !s.logins[pid].Fetched? then s
      else if IsLocked(s.logins[pid].lockedUntil, s.clock) then s.(logins := s.logins - {pid})
      else s.(logins := s.logins[pid := Verifying])
    case Check(pid, good) =>
      if pid !in s.logins || !s.logins[pid].Verifying? then s
      else if good then s.(logins := s.logins[pid := Verified])
      else s.(logins := s.logins[pid := Rejected], failedChecks := s.failedChecks + 1)
    case Register(pid) =>
      if pid !in s.logins || !s.logins[pid].Rejected? then s
      else s.(account := RegisterFailure(s.account, s.clock), logins := s.logins - {pid})
    case Clear(pid) =>
      if pid !in s.logins || !s.logins[pid].Verified? then s
      else s.(account := Account(0, None), logins := s.logins - {pid})
  }

  function Exec(s: State, steps: seq<Step>): State
    decreases |steps|
  {
    if steps == [] then s else Exec(Next(s, steps[0]), steps[1..])
  }

  function NewAccount(clock: int): State {
    State(clock, Account(0, None), map[], 0)
  }

  // ---- The lock invariant -------------------------------------------------------------------

  predicate AccountOk(a: Account) {
    a.lockedUntil.Some? <==> a.failedAttempts >= MAX_FAILED_ATTEMPTS
  }

  ghost predicate Inv(s: State) {
    && AccountOk(s.account)
    && (s.account.lockedUntil.Some? ==> s.account.lockedUntil.value <= s.clock + LOCK_WINDOW_MS)
    && (forall pid :: pid in s.logins && s.logins[pid].Fetched? && s.logins[pid].lockedUntil.Some? ==>
          s.logins[pid].lockedUntil.value <= s.clock + LOCK_WINDOW_MS)
  }

  lemma {:induction false} RunKeepsInv(s: State, steps: seq<Step>)
    requires Inv(s)
    ensures Inv(Exec(s, steps))
    decreases |steps|
  {
    if steps == [] {
    } else {
      RunKeepsInv(Next(s, steps[0]), steps[1..]);
    }
  }

  /** In every reachable state the lock is set exactly when five failures stand on the account. */
  lemma LockedExactlyAtFive(clock: int, steps: seq<Step>)
    ensures var a := Exec(NewAccount(clock), steps).account;
            && (a.lockedUntil.Some? <==> a.failedAttempts >= 5)
            && (a.failedAttempts + 1 < 5 ==> a.lockedUntil.None?)   // the middle CASE arm is never taken
  {
    RunKeepsInv(NewAccount(clock), steps);
  }

  /**
   Every 423 answer, to a login holding a possibly stale account, names between 1 and 900 seconds.
   Waiting that long is enough for the lock it saw, and waiting one second less is not.
   */
  lemma RetryAfterIsTight(clock: int, steps: seq<Step>, pid: Pid)
    requires var s := Exec(NewAccount(clock), steps);
             pid in s.logins && s.logins[pid].Fetched? && IsLocked(s.logins[pid].lockedUntil, s.clock)
    ensures var s := Exec(NewAccount(clock), steps);
            var until := s.logins[pid].lockedUntil;
            var wait := RetryAfterSeconds(until.value, s.clock);
            && 1 <= wait <= 900
            && !IsLocked(until, s.clock + 1000 * wait)
            && IsLocked(until, s.clock + 1000 * (wait - 1))
  {
    RunKeepsInv(NewAccount(clock), steps);
  }

  /**
   The gate, in every reachable state: a login is refused exactly when the lock it read ends after
   the clock, and otherwise goes on to its password; the account and every other login stay.
   */
  lemma GateDecides(clock: int, steps: seq<Step>, pid: Pid)
    requires var s := Exec(NewAccount(clock), steps); pid in s.logins && s.logins[pid].Fetched?
    ensures var s := Exec(NewAccount(clock), steps);
            var s', until := Next(s, Gate(pid)), s.logins[pid].lockedUntil;
            && (pid !in s'.logins <==> until.Some? && until.value > s.clock)
            && (pid in s'.logins ==> s'.logins[pid] == Verifying)
            && s' == s.(logins := s'.logins)
            && forall q :: q != pid ==> (q in s'.logins <==> q in s.logins)
                                        && (q in s.logins ==> s'.logins[q] == s.logins[q])
  {
  }

  /** The fifth failure locks the account for 15 minutes from that moment, and the lock ends then. */
  lemma FifthFailureLocks(s: State, pid: Pid, q: Pid, elapsed: nat)
    requires pid in s.logins && s.logins[pid].Rejected? && s.account.failedAttempts >= 4
    requires q !in s.logins
    ensures var locked := Exec(s, [Register(pid), Fetch(q), Tick(elapsed)]);
            && q in locked.logins && locked.account.lockedUntil == Some(s.clock + 900000)
            && (q in Next(locked, Gate(q)).logins <==> elapsed >= 900000)
  {
    var s1 := Next(s, Register(pid));
    var s2 := Next(s1, Fetch(q));
    RunOfThree(s, Register(pid), Fetch(q), Tick(elapsed));
    assert Next(s2, Tick(elapsed)).logins == s2.logins;
  }

  lemma RunOfThree(s: State, a: Step, b: Step, c: Step)
    ensures Exec(s, [a, b, c]) == Next(Next(Next(s, a), b), c)
  {
    assert [a, b, c][1..] == [b, c] && [b, c][1..] == [c] && [c][1..] == [];
    assert Exec(Next(Next(s, a), b), [c]) == Next(Next(Next(s, a), b), c);
  }

  predicate NoFailure(steps: seq<Step>) {
    forall i :: 0 <= i < |steps| ==> !steps[i].Register?
  }

  /** Without a failure the lock on the account stays as it is, unless a success lifts it. */
  lemma {:induction false} LockOnlyLifts(s: State, steps: seq<Step>)
    requires NoFailure(steps)
    ensures Exec(s, steps).account.lockedUntil in {s.account.lockedUntil, None}
    ensures s.clock <= Exec(s, steps).clock
    decreases |steps|
  {
    if steps == [] {
    } else {
      LockOnlyLifts(Next(s, steps[0]), steps[1..]);
    }
  }

  /** Without a success a lock only gets longer. */
  lemma {:induction false} LockOnlyGrows(s: State, steps: seq<Step>)
    requires Inv(s) && NoClear(steps) && s.account.lockedUntil.Some?
    requires s.account.lockedUntil.value <= s.clock + LOCK_WINDOW_MS
    ensures Exec(s, steps).account.lockedUntil.Some?
    ensures Exec(s, steps).account.lockedUntil.value >= s.account.lockedUntil.value
    decreases |steps|
  {
    if steps == [] {
    } else {
      LockOnlyGrows(Next(s, steps[0]), steps[1..]);
    }
  }

  /** The four steps of a login with the right password. */
  function GoodLogin(q: Pid): seq<Step> {
    [Fetch(q), Gate(q), Check(q, true), Clear(q)]
  }

  lemma GoodLoginSucceeds(s: State, q: Pid)
    requires q !in s.logins && !IsLocked(s.account.lockedUntil, s.clock)
    ensures CleanSlate(Exec(s, GoodLogin(q))) && Exec(s, GoodLogin(q)).logins == s.logins
  {
    var steps := GoodLogin(q);
    assert steps[1..] == [Gate(q), Check(q, true), Clear(q)];
    RunOfThree(Next(s, Fetch(q)), Gate(q), Check(q, true), Clear(q));
    assert steps[0] == Fetch(q);
  }

  /**
   A login refused in any reachable state, by the lock as it stands, is told how many seconds to
   wait. If that long passes and nobody fails meanwhile, whatever else happens, a login with the
   right password gets in and clears the account. If a second less passes and nobody succeeds
   meanwhile, a login is refused again.
   */
  lemma WaitingIsEnoughAndNeeded(clock: int, before: seq<Step>, pid: Pid, meanwhile: seq<Step>, q: Pid)
    requires var s := Exec(NewAccount(clock), before);
             && pid in s.logins && s.logins[pid] == Fetched(s.account.lockedUntil)
             && IsLocked(s.account.lockedUntil, s.clock)
    requires q !in Exec(Exec(NewAccount(clock), before), meanwhile).logins
    ensures var s := Exec(NewAccount(clock), before);
            var s' := Exec(s, meanwhile);
            var wait := RetryAfterSeconds(s.logins[pid].lockedUntil.value, s.clock);
            && pid !in Next(s, Gate(pid)).logins
            && (NoFailure(meanwhile) && s'.clock >= s.clock + 1000 * wait ==> CleanSlate(Exec(s', GoodLogin(q))))
            && (NoClear(meanwhile) && s'.clock <= s.clock + 1000 * (wait - 1) ==>
                  q !in Next(Next(s', Fetch(q)), Gate(q)).logins)
  {
    var s := Exec(NewAccount(clock), before);
    var s' := Exec(s, meanwhile);
    RetryAfterIsTight(clock, before, pid);
    RunKeepsInv(NewAccount(clock), before);
    if NoFailure(meanwhile) && s'.clock >= s.clock + 1000 * RetryAfterSeconds(s.account.lockedUntil.value, s.clock) {
      LockOnlyLifts(s, meanwhile);
      GoodLoginSucceeds(s', q);
    }
    if NoClear(meanwhile) {
      LockOnlyGrows(s, meanwhile);
    }
  }

  /** How many passwords a run finds wrong. */
  function WrongPasswords(s: State, steps: seq<Step>): nat
    decreases |steps|
  {
    if steps == [] then 0
    else
      var wrong := steps[0].Check? && !steps[0].good && steps[0].pid in s.logins && s.logins[steps[0].pid].Verifying?;
      (if wrong then 1 else 0) + WrongPasswords(Next(s, steps[0]), steps[1..])
  }

  /** `failedChecks` counts just those. */
  lemma {:induction false} FailedChecksCount(s: State, steps: seq<Step>)
    ensures Exec(s, steps).failedChecks == s.failedChecks + WrongPasswords(s, steps)
    decreases |steps|
  {
    if steps == [] {
    } else {
      FailedChecksCount(Next(s, steps[0]), steps[1..]);
    }
  }

  // ---- How many guesses a locked account concedes --------------------------------------------

  predicate NoClear(steps: seq<Step>) {
    forall i :: 0 <= i < |steps| ==> !steps[i].Clear?
  }

  ghost predicate AtMostInFlight(s: State, steps: seq<Step>, k: nat)
    decreases |steps|
  {
    |s.logins| <= k && (steps == [] || AtMostInFlight(Next(s, steps[0]), steps[1..], k))
  }

  function WrongOnes(logins: map<Pid, Login>): set<Pid> {
    set pid | pid in logins && logins[pid].Rejected?
  }

  /** Since `failedChecks` stood at `base`, every wrong check is registered or waiting to be. */
  ghost predicate Counted(s: State, base: nat) {
    s.failedChecks - base <= s.account.failedAttempts + |WrongOnes(s.logins)|
  }

  lemma WrongAfterUpdate(logins: map<Pid, Login>, pid: Pid, login: Login)
    ensures WrongOnes(logins[pid := login])
            == if login.Rejected? then WrongOnes(logins) + {pid} else WrongOnes(logins) - {pid}
    ensures WrongOnes(logins - {pid}) == WrongOnes(logins) - {pid}
    ensures pid in WrongOnes(logins) <==> pid in logins && logins[pid].Rejected?
  {
  }

  lemma StepKeepsCounted(s: State, step: Step, base: nat)
    requires Counted(s, base) && !step.Clear?
    ensures Counted(Next(s, step), base)
  {
    match step {
      case Fetch(pid) => WrongAfterUpdate(s.logins, pid, Fetched(s.account.lockedUntil));
      case Gate(pid) => WrongAfterUpdate(s.logins, pid, Verifying);
      case Check(pid, good) => WrongAfterUpdate(s.logins, pid, if good then Verified else Rejected);
      case Register(pid) => WrongAfterUpdate(s.logins, pid, Verifying);
      case _ =>
    }
  }

  /** k * n by repeated addition, so that stretches are counted without multiplying. */
  function Times(k: nat, n: nat): nat {
    if n == 0 then 0 else k + Times(k, n - 1)
  }

  lemma {:induction false} TimesIsProduct(k: nat, n: nat)
    ensures Times(k, n) == k * n
  {
    if n == 0 {
    } else {
      TimesIsProduct(k, n - 1);
      assert k * n == k * (n - 1) + k;
    }
  }

  /**
   The `n`-th stretch of failures began at `start`, one full window or more after each before it.
   `veterans` are the logins still out that were in flight when it began; only they can register
   within the window, since anyone else read a lock that lasts that long.
   */
  ghost predicate Stretch(s: State, base: nat, k: nat, t5: int, n: nat, start: int, veterans: set<Pid>) {
    && Counted(s, base)
    && n >= 1
    && t5 + LOCK_WINDOW_MS * (n - 1) <= start <= s.clock
    && s.account.failedAttempts >= MAX_FAILED_ATTEMPTS
    && s.account.lockedUntil.Some? && s.account.lockedUntil.value >= start + LOCK_WINDOW_MS
    && veterans <= s.logins.Keys
    && s.account.failedAttempts + |veterans| <= 4 + Times(k, n)
    && (forall pid :: pid in s.logins && pid !in veterans ==>
          if s.logins[pid].Fetched? then
            s.logins[pid].lockedUntil.Some? && s.logins[pid].lockedUntil.value >= start + LOCK_WINDOW_MS
          else s.clock >= start + LOCK_WINDOW_MS)
  }

  /** A registration by a login that came later opens the next stretch. */
  lemma NewStretch(s: State, pid: Pid, base: nat, k: nat, t5: int, n: nat, start: int, veterans: set<Pid>)
    requires Stretch(s, base, k, t5, n, start, veterans) && |s.logins| <= k
    requires pid in s.logins && s.logins[pid].Rejected? && pid !in veterans
    ensures var s' := Next(s, Register(pid)); Stretch(s', base, k, t5, n + 1, s.clock, s'.logins.Keys)
  {
    var s' := Next(s, Register(pid));
    StepKeepsCounted(s, Register(pid), base);
    assert s'.logins.Keys == s.logins.Keys - {pid};
    assert |s'.logins.Keys| == |s.logins.Keys| - 1;
  }

  lemma OldRegistration(s: State, pid: Pid, base: nat, k: nat, t5: int, n: nat, start: int, veterans: set<Pid>)
    requires Stretch(s, base, k, t5, n, start, veterans)
    requires pid in s.logins && s.logins[pid].Rejected? && pid in veterans
    ensures Stretch(Next(s, Register(pid)), base, k, t5, n, start, veterans - {pid})
  {
    StepKeepsCounted(s, Register(pid), base);
  }

  lemma QuietStep(s: State, step: Step, base: nat, k: nat, t5: int, n: nat, start: int, veterans: set<Pid>)
    returns (veterans': set<Pid>)
    requires Stretch(s, base, k, t5, n, start, veterans) && !step.Clear? && !step.Register?
    ensures Stretch(Next(s, step), base, k, t5, n, start, veterans')
  {
    StepKeepsCounted(s, step, base);
    veterans' := if step.Gate? && step.pid !in Next(s, step).logins then veterans - {step.pid} else veterans;
  }

  lemma StepKeepsStretch(s: State, step: Step, base: nat, k: nat, t5: int, n: nat, start: int, veterans: set<Pid>)
    returns (n': nat, start': int, veterans': set<Pid>)
    requires Stretch(s, base, k, t5, n, start, veterans) && !step.Clear? && |s.logins| <= k
    ensures Stretch(Next(s, step), base, k, t5, n', start', veterans')
  {
    n', start', veterans' := n, start, veterans;
    if !step.Register? {
      veterans' := QuietStep(s, step, base, k, t5, n, start, veterans);
    } else if step.pid in s.logins && s.logins[step.pid].Rejected? {
      if step.pid in veterans {
        OldRegistration(s, step.pid, base, k, t5, n, start, veterans);
        veterans' := veterans - {step.pid};
      } else {
        NewStretch(s, step.pid, base, k, t5, n, start, veterans);
        n', start', veterans' := n + 1, s.clock, Next(s, step).logins.Keys;
      }
    }
  }

  lemma StretchBound(s: State, base: nat, k: nat, t5: int, n: nat, start: int, veterans: set<Pid>)
    requires Stretch(s, base, k, t5, n, start, veterans) && |s.logins| <= k
    ensures s.failedChecks - base <= k + 4 + k * ((s.clock - t5) / LOCK_WINDOW_MS)
  {
    var windows := (s.clock - t5) / LOCK_WINDOW_MS;
    var wrong := WrongOnes(s.logins);
    if s.clock < start + LOCK_WINDOW_MS {
      SubsetSize(wrong, veterans);
      TimesIsProduct(k, n - 1);
      Multiply(k, n - 1, windows);
    } else {
      SubsetSize(wrong, s.logins.Keys);
      TimesIsProduct(k, n);
      Multiply(k, n, windows);
    }
  }

  lemma Multiply(k: nat, a: int, b: int)
    requires a <= b
    ensures k * a <= k * b
  {
  }

  lemma SubsetSize(a: set<Pid>, b: set<Pid>)
    requires a <= b
    ensures |a| <= |b|
  {
    assert b == a + (b - a);
  }

  /** Some stretch is under way at the end of the run, if one is at its start. */
  lemma {:induction false} StretchRun(s: State, steps: seq<Step>, base: nat, k: nat, t5: int, n: nat, start: int,
                                      veterans: set<Pid>)
    returns (n': nat, start': int, veterans': set<Pid>)
    requires Stretch(s, base, k, t5, n, start, veterans) && NoClear(steps) && AtMostInFlight(s, steps, k)
    ensures Stretch(Exec(s, steps), base, k, t5, n', start', veterans') && |Exec(s, steps).logins| <= k
    decreases |steps|
  {
    n', start', veterans' := n, start, veterans;
    if steps == [] {
    } else {
      n', start', veterans' := StepKeepsStretch(s, steps[0], base, k, t5, n, start, veterans);
      n', start', veterans' := StretchRun(Next(s, steps[0]), steps[1..], base, k, t5, n', start', veterans');
    }
  }

  lemma {:induction false} CountedRun(s: State, steps: seq<Step>, base: nat)
    requires Counted(s, base) && NoClear(steps)
    ensures Counted(Exec(s, steps), base)
    decreases |steps|
  {
    if steps == [] {
    } else {
      StepKeepsCounted(s, steps[0], base);
      CountedRun(Next(s, steps[0]), steps[1..], base);
    }
  }

  /** A new account, and one whose last login has just succeeded, have no failures standing. */
  predicate CleanSlate(s: State) {
    s.account == Account(0, None)
  }

  lemma SuccessCleansTheSlate(s: State, pid: Pid, clock: int)
    ensures CleanSlate(NewAccount(clock))
    ensures pid in s.logins && s.logins[pid].Verified? ==> CleanSlate(Next(s, Clear(pid)))
  {
  }

  /**
   Start from a new account, or from the last success, with whatever logins are already in flight.
   From the fifth failure registered, at `t5`, let there be at most `k` logins in flight and no
   further success. Then however they interleave, by any later time the passwords found wrong since
   the start are at most k + 4, plus k for each full lock window after `t5`.
   */
  lemma GuessesConceded(s: State, before: seq<Step>, pid: Pid, after: seq<Step>, k: nat)
    requires CleanSlate(s) && NoClear(before) && NoClear(after)
    requires var fourth := Exec(s, before);
             && fourth.account.failedAttempts == 4 && pid in fourth.logins && fourth.logins[pid].Rejected?
             && |fourth.logins| <= k
             && AtMostInFlight(Next(fourth, Register(pid)), after, k)
    ensures var fifth := Next(Exec(s, before), Register(pid));
            var last := Exec(fifth, after);
            && fifth.account.failedAttempts == 5
            && last.failedChecks - s.failedChecks <= k + 4 + k * ((last.clock - fifth.clock) / 900000)
  {
    var fourth, base := Exec(s, before), s.failedChecks;
    CountedRun(s, before, base);
    var fifth := Next(fourth, Register(pid));
    StepKeepsCounted(fourth, Register(pid), base);
    assert fifth.logins.Keys == fourth.logins.Keys - {pid};
    assert |fifth.logins.Keys| == |fourth.logins.Keys| - 1;
    var n, start, veterans := StretchRun(fifth, after, base, k, fifth.clock, 1, fifth.clock, fifth.logins.Keys);
    StretchBound(Exec(fifth, after), base, k, fifth.clock, n, start, veterans);
  }
}
