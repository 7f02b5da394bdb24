# Session rotation, lockout, vault and MRZ: a verified model

This project models the authentication server and its browser client, and proves what they promise
over every run rather than over single calls.

The centre is the rotating refresh-token protocol. A session row is one link of a *family*; each
refresh retires the presented row and stores a successor, and presenting a retired token burns the
whole family. Handlers run interleaved at every `await`, so each acts on a row that may be out of
date. `Handlers.dfy` is that server as processes over shared tables, `AuthServer.dfy` is the same
code as the handlers' own statements between two awaits, proved to take exactly those steps and to
keep the invariant over any schedule, and `Runs.dfy` and `SessionSafety.dfy` hold the invariant and the theorems over all runs. `SingleTab.dfy`
puts a browser tab, its cookie jar and the whole server together, and `TabToken.dfy` says what the
tab keeps from it. `Answers.dfy` pins every handler's answer and its whole effect when nothing comes
between its turns; `Fates.dfy` says what becomes of each request under any interleaving, turn by turn
and failure by failure; `Outcomes.dfy` decides exactly which requests can still be accepted and which
refreshes can still rotate; and `Races.dfy` holds concrete runs that show where the promises end.

| file | content |
|---|---|
| `Wrappers.dfy` | optional values and results |
| `Database.dfy` | a connection with all-or-nothing transactions, nested calls included |
| `Sessions.dfy` | the sessions table, its statements, and the service functions on a connection |
| `Chains.dfy` | families as chains of `replaced_by` links, kept by every statement |
| `Tokens.dfy` | access-token times and the decision to accept one |
| `Handlers.dfy` | refresh, logout, sign-in, `authenticate`, logout-all, password change, session delete |
| `AuthServer.dfy` | the handlers as methods on shared mutable state |
| `Runs.dfy` | the invariant of every reachable state |
| `SessionSafety.dfy` | theorems over whole runs |
| `ApiClient.dfy` | the client's module variables and its one shared refresh |
| `SingleTab.dfy` | tab, jar and server composed |
| `Answers.dfy` | the answer and the whole effect of each uninterrupted request |
| `Fates.dfy` | the fate of each request over any run, by its own turns |
| `Outcomes.dfy` | what a request or a refresh can still become, as if-and-only-ifs |
| `TabToken.dfy` | what the tab keeps: cookie and access token |
| `Races.dfy` | runs in which a stale row is used after a change |
| `Lockout.dfy` | failed logins, locks, and how many guesses they concede |
| `MrzCheckDigit.dfy`, `MrzLayout.dfy`, `MrzNames.dfy` | the machine-readable zone |
| `Vault.dfy` | the vault store and non-interference between users |
| `Utf16.dfy` | the code units of a text |
| `PasswordRuns.dfy` | the run detectors of the password policy |

## Assumptions

- SHA-256 does not collide on tokens: a digest is the token in a constructor.
- Session ids and refresh tokens need not be fresh for the safety theorems: a duplicate breaks a
  PRIMARY KEY or UNIQUE constraint and the insert throws. A new family's id is fresh
  (`Handlers.StatementOf`), and a vault item's id is fresh (`Vault.FreshIds`).
- `createSession` is only called with a new family, as in the code; no caller passes `familyId`.
- Every statement, and every whole transaction, is one atomic step, and transactions are
  serialisable. The code issues a plain `BEGIN`; the burned-family theorem needs this.
- The clock does not run backwards. It is read in the step that uses it, except in a rotation,
  where it is read before the transaction, as in the code.
- A refusal by CSRF, rate limit, validation or a wrong current password is an early answer that
  changes nothing, and any query may fail and answer 500 (`Choice.fails`).
- `toUpperCase` is a parameter; of it only "leaves A-Z, 0-9 and `<` alone" is used, and only for
  idempotence.
- Users are never deleted: no step deletes one, and the invariant relies on every row's owner existing.
- For the single-tab theorem: sign-in took effect, and nobody but the tab refreshes with a token of
  the family (`SingleTab.Allowed`). The tab may log out and send any bearer request at any time, and
  the answers reach its jar; a second sign-in in the same jar is outside it.

## Where the code and its documentation differ

- SECURITY.md says a token minted before a password change is dead. There are two ways it is not.
  `authenticate` compares whole seconds, so a token minted earlier in the same second still passes
  that check: `Tokens.SameSecondTokenSurvives` gives the input and `Tokens.AgeCheck` the condition of
  the check. And a request that had loaded its user row before the change is judged by that row, so
  an unexpired token of any age passes if its session is still live, as the caller's own is:
  `Races.OldTokenYetAccepted` gives the run, `Outcomes.OldTokenAcceptance` and
  `Outcomes.PasswordChangeStopsOldTokens` say exactly when it happens.
- SECURITY.md describes reuse as presenting a rotated token. The handler takes the reuse branch for
  any revoked row, whatever the reason, so a logged-out token answers SESSION_REVOKED as well.
- A logout racing a refresh that has already rotated the presented session answers 204 and leaves
  the successor live: `Races.LoggedOutYetAlive` gives the run, and
  `SessionSafety.LogoutEndsTheSession` says exactly when the family ends.
- Deleting one's own session clears the refresh cookie even when its UPDATE matched nothing, because
  a refresh had rotated the row since it was read. The tab is then left without a cookie although
  its session is alive: `Races.ClosedYetAlive` gives the run, and
  `SessionSafety.ClosingEndsTheSession` says exactly when the close ends the family.
- SECURITY.md and the repository's README say that revoking sessions invalidates their access tokens
  immediately. A request whose session row was loaded live before the revocation is still accepted:
  `Races.LoggedOutYetAccepted`, `Races.ChangedYetAccepted` and `Races.BurnedYetAccepted` give the
  runs for logout-all, a password change and a burned family, and `Outcomes.RevokedSessionAcceptance`
  says that this is the only case.
- The comments in `password.ts` and `mrz.ts` speak of characters; the code compares UTF-16 code
  units. Five copies of one character beyond U+FFFF, or five such in order, pass the run detectors:
  `PasswordRuns.FacesAreMissed` gives both, and `PasswordRuns.UnitWindowsOfText` says exactly which
  windows of characters are found.

## Model

| member | source | states |
|---|---|---|
| Database.Connection.Transaction | server/src/db/index.ts:58-75 | an outer call commits everything or nothing, and nothing if a failed statement was swallowed inside although it then reports success; a nested call joins the transaction already open, so its writes survive its own failure until the outer call decides |
| Sessions.RotateSession | server/src/services/sessionService.ts:136-177 | through the transaction: either the predecessor is retired and linked to a stored live successor, or the table is exactly as before |
| Sessions.CreateSession | server/src/services/sessionService.ts:89-114 | a stored row is live and new; an id or digest already present stores nothing |
| Sessions.RunRevocation | server/src/services/sessionService.ts:184-225 | the row count reported by any of the three revocations is the drop in live rows |
| Sessions.LookUpToken | server/src/services/sessionService.ts:121-129 | lookup by digest finds the one row, revoked or not |
| Sessions.TouchSession | server/src/services/sessionService.ts:259-262 | recording activity leaves the set of live sessions alone |
| Sessions.RevocationCount | server/src/services/sessionService.ts:184-225 | an UPDATE guarded by `revoked_at IS NULL` removes as many live rows as it matches |
| Chains.ExecuteKeepsConsistent | server/src/services/sessionService.ts:89-262 | every statement keeps all families chains, all digests unique and all row marks and times in order |
| Chains.ExecuteExtends | server/src/services/sessionService.ts:146-225 | no statement deletes a row, changes its identity, or touches a revocation mark, reason or link once set |
| Chains.EveryMemberReachesTheTail | server/src/services/sessionService.ts:146-174 | following links from any member ends at the family's one unreplaced row, the only one that can be live |
| Chains.NeverRevisits | server/src/services/sessionService.ts:146-174 | links never form a cycle |
| Chains.LinksInjective | server/src/services/sessionService.ts:146-174 | no row succeeds two others |
| Chains.FamilyRevocationCount | server/src/services/sessionService.ts:184-193 | revoking a family closes at most one session, and one exactly when a member is live |
| Chains.DeadStaysDead | server/src/services/sessionService.ts:146-193 | a family with no live row never gets one back |
| SessionSafety.FamiliesAreChains | server/src/services/sessionService.ts:136-202 | in every reachable state each family is one finite acyclic chain with one user, one tail and injective links, set exactly on rotated rows |
| SessionSafety.SuccessorTimes | server/src/services/sessionService.ts:95-171 | along every link the successor is born when its predecessor is retired, not before it was born, and never expires sooner |
| SessionSafety.RevocationReports | server/src/services/sessionService.ts:184-225 | in every reachable state counts are the drop in live rows, and a family revocation reports 0 or 1 |
| SessionSafety.TokenRotatesOnce | server/src/services/sessionService.ts:146-174 | over any run, whatever stale snapshots are held, a refresh token yields at most one successful rotation |
| SessionSafety.RotationAllOrNothing | server/src/services/sessionService.ts:141-177 | a rotation that loses the race or fails to insert leaves the whole table unchanged; one that commits changes just the two rows; it answers "lost" exactly when the row was no longer live |
| SessionSafety.RevocationIsFinal | server/src/services/sessionService.ts:179-225 | over any run revoked_at, reason and link never change once set |
| Outcomes.RevokedSessionAcceptance | server/src/middleware/authenticate.ts:54-88 | once a session is revoked, a request for it still in `authenticate` can be accepted, in some continuation, if and only if it had loaded the row before and what it loaded passes now |
| Outcomes.BurnedFamilyAcceptance | server/src/routes/auth.routes.ts:301-316 | after SESSION_REVOKED, a bearer request for any session of that family can be accepted if and only if it holds a passing row loaded before the burning |
| Races.BurnedYetAccepted | server/src/middleware/authenticate.ts:54-88 | a run from the initial state in which such a request is accepted although SESSION_REVOKED was answered and the family is dead |
| SessionSafety.DeadFamilyStaysDead | server/src/services/sessionService.ts:146-193 | over any run a dead family stays dead, stale live snapshots notwithstanding |
| SessionSafety.LogoutAllIsFinal | server/src/routes/auth.routes.ts:375-389 | every session present when logout-all ran is revoked and judged an error in every later state |
| SessionSafety.PasswordChangeIsFinal | server/src/routes/user.routes.ts:139-141 | the same after a password change, except the caller's own row, which is left alone |
| Outcomes.LogoutAllStopsRequests | server/src/routes/auth.routes.ts:375-389 | after logout-all, in every later state, a request for one of those sessions can be accepted if and only if it holds a passing row loaded before |
| Outcomes.PasswordChangeStopsRequests | server/src/routes/user.routes.ts:139-141 | the same after a password change, for every session but the caller's |
| Fates.RetiredTokenIsCaught | server/src/routes/auth.routes.ts:290-316 | a refresh with the token of a revoked session, whatever revoked it and expired or not, answers SESSION_REVOKED with its third turn and leaves the family dead, whatever runs meanwhile; it is refused exactly if its first turn fails and answered 500 exactly if its third does |
| Fates.ExpiredTokenNeverRotates | server/src/routes/auth.routes.ts:301-320 | a refresh with an expired token answers SESSION_INVALID, cookie cleared, with its second turn, unless the session is revoked, when it may burn the family; it is refused exactly if its first turn fails |
| SessionSafety.HonestRefreshSucceeds | server/src/routes/auth.routes.ts:290-344 | an uninterrupted refresh with a live unexpired token answers with a new token whose session is live and whose access token is accepted |
| SessionSafety.HonestRefreshTouchesTwoRows | server/src/services/sessionService.ts:141-177 | such a refresh changes the two rows, their last use included, and no other row, user or process |
| Outcomes.RotationIsDecided | server/src/routes/auth.routes.ts:290-344 | a refresh can be answered with a new token, in some continuation of the run, if and only if the row it holds or would look up is live, is unexpired if that has yet to be checked, and nobody has taken the id or token it drew |
| Outcomes.DeniedForGood | server/src/routes/auth.routes.ts:290-344 | a refresh that lacks any of that is never answered with a new token, over every run |
| SessionSafety.LogoutEndsTheSession | server/src/routes/auth.routes.ts:350-369 | logout ends the presented session for good, and the family exactly when no refresh rotated it first or nothing in it is live |
| Races.LoggedOutYetAlive | server/src/routes/auth.routes.ts:350-369 | a run in which a logout has been answered and the successor of its session is live and unexpired |
| SessionSafety.ClosingEndsTheSession | server/src/routes/user.routes.ts:185-194 | deleting a session ends it for good, and its family exactly when no refresh rotated it first or nothing in it is live; the answer is the same either way |
| Fates.ExpiredAccessNeverAccepted | server/src/middleware/authenticate.ts:44-52 | an access token past `exp` on arrival is answered TOKEN_EXPIRED with its first turn, over any run, unless that turn fails |
| Fates.TokenExpiredMeansExpired | server/src/middleware/authenticate.ts:44-72 | over any run TOKEN_EXPIRED is answered only to a token that was past `exp` when first looked at |
| Fates.RevokedSessionIsTold | server/src/middleware/authenticate.ts:62-72 | over any run a request for a session revoked before it arrived is answered SESSION_INVALID by its fourth turn, failures and expiry apart |
| Fates.EveryRequestIsAnswered | server/src/routes/auth.routes.ts:290-389 | every request is answered within six of its own turns, with an answer of its kind, never refused and, unless a refresh, never 500 if no turn of its fails |
| Fates.OwnSessionIsClosed | server/src/routes/user.routes.ts:185-204 | over any run, deleting a session of the caller's user, this device's or another's, finds it with the first turn and leaves it revoked with the second, answered 204 |
| Fates.LogoutAllEndsAll | server/src/routes/auth.routes.ts:375-389 | over any run, logout-all leaves every session there was revoked and answers 204 with its turn |
| Fates.PasswordChangeTakesEffect | server/src/routes/user.routes.ts:139-151 | over any run, the first turn of a password change dates the password and the second leaves every other session there was revoked |
| Fates.LogoutIsHonoured | server/src/routes/auth.routes.ts:350-369 | over any run, a logout answered 204 leaves the session it presented revoked; it fails only if a turn fails |
| Answers.NoCookie | server/src/routes/auth.routes.ts:290-369 | without a cookie a refresh answers SESSION_INVALID and a logout 204, and nothing changes |
| Answers.UnknownToken | server/src/routes/auth.routes.ts:290-369 | the same with a token no session has |
| Answers.ExpiredSession | server/src/routes/auth.routes.ts:318-320 | a refresh with a live expired session answers SESSION_INVALID, clears the cookie and revokes nothing |
| Answers.RevokedSessionBurns | server/src/routes/auth.routes.ts:301-316 | a refresh with a revoked session revokes exactly the live rows of its family, for reuse, and touches nothing else |
| Answers.LogoutRevokesOne | server/src/routes/auth.routes.ts:350-369 | a logout revokes exactly the session presented, if live, with reason logout |
| Answers.BearerVerdict | server/src/middleware/authenticate.ts:44-88 | exactly when a request is answered TOKEN_EXPIRED, SESSION_INVALID, TOKEN_INVALID, or let in and as whom, changing nothing |
| Answers.ReadOnlyIsServed | server/src/routes/user.routes.ts:154-170 | a read-only request is served and changes nothing |
| Answers.LogoutAllRevokesAll | server/src/routes/auth.routes.ts:375-389 | logout-all revokes exactly the live sessions of the caller's user |
| Answers.PasswordChangeRevokesOthers | server/src/routes/user.routes.ts:137-151 | a password change dates the password now and revokes exactly the user's other live sessions |
| Answers.CloseRevokesOne | server/src/routes/user.routes.ts:185-204 | deleting a session of the user revokes exactly it and answers 204; one absent or somebody else's answers 404 and changes nothing |
| Answers.FailuresAreAnswered | server/src/routes/auth.routes.ts:290-389 | a request is refused exactly by a failing turn where it can be, and answered 500 exactly by a failing query, a rotation apart |
| Answers.FailingTurnChangesNothing | server/src/services/sessionService.ts:141-177 | a turn that fails leaves every table as it was |
| Outcomes.AcceptanceIsDecided | server/src/middleware/authenticate.ts:44-88 | a request anywhere in `authenticate` can be accepted, in some continuation of the run, if and only if it would pass now: rows already loaded as held, rows still to be loaded as the tables stand |
| Outcomes.TurnedAwayForGood | server/src/middleware/authenticate.ts:44-88 | a request that would not pass now ends refused, failed or unauthorised over every run |
| Outcomes.IssuedSessionPasses | server/src/middleware/authenticate.ts:44-88 | for an existing session and a request just arrived, that is: unexpired, its user exists, and both current rows pass |
| Outcomes.OldTokenAcceptance | server/src/middleware/authenticate.ts:54-79 | a token too old for its user's last password change can be accepted if and only if its request had loaded an older user row and would still pass with it |
| Outcomes.PasswordChangeStopsOldTokens | server/src/services/userService.ts:145-158 | in every state after a password change, that is the fate of every request with a token from before the second of the change, on the caller's own session too |
| Races.OldTokenYetAccepted | server/src/middleware/authenticate.ts:54-81 | a run in which a token 800 seconds older than an answered password change is accepted |
| Races.LoggedOutYetAccepted | server/src/routes/auth.routes.ts:375-389 | a run in which logout-all has been answered and a request for one of the sessions is accepted |
| Races.ChangedYetAccepted | server/src/routes/user.routes.ts:139-141 | a run in which a password change has been answered and a request for another session of the user is accepted |
| SessionSafety.PasswordChangeAgesTokens | server/src/services/userService.ts:145-158 | a password change puts every token minted a second before it in that position |
| SessionSafety.OnlyOwnRowsChange | server/src/routes/user.routes.ts:139-190 | a request changes and adds only session rows of the user it acts for |
| SessionSafety.OnlyOwnUserChanges | server/src/services/userService.ts:145-158 | the only user row a request can change is that of the user it acts for |
| SessionSafety.ForeignSessionLooksMissing | server/src/routes/user.routes.ts:185-188 | closing somebody else's session id is answered as if it did not exist |
| Runs.Reachable | server/src/routes/auth.routes.ts:204-389 | the server invariant holds in every reachable state under every interleaving |
| Runs.RunKeepsInv | server/src/routes/auth.routes.ts:204-389 | every run keeps the invariant, only extends the tables, and revives no dead family |
| AuthServer.Server.Serve | server/src/routes/auth.routes.ts:204-389 | the server object, driven by any schedule of requests, turns and time, ends in the state the run theorems speak of, and keeps their invariant |
| AuthServer.Server.Refresh | server/src/routes/auth.routes.ts:290-344 | each stretch of the handler between awaits takes the server step the theorems quantify over |
| AuthServer.Server.Logout | server/src/routes/auth.routes.ts:350-369 | the same for logout |
| AuthServer.Server.Authenticate | server/src/middleware/authenticate.ts:44-88 | the same for the four checks of `authenticate` |
| AuthServer.Server.Act | server/src/routes/user.routes.ts:92-205 | the same for logout-all, password change and session delete |
| AuthServer.Server.SignIn | server/src/routes/auth.routes.ts:260-263 | a sign-in adds one row in a family of its own |
| Tokens.AccessWindow | server/src/lib/tokens.ts:58-86 | a token minted at t is unexpired exactly until the start of its second plus its lifetime, hence never past t + ttl and always to a second short of it |
| Tokens.AgeCheck | server/src/middleware/authenticate.ts:74-79 | the age check passes exactly from the start of the second the password changed in |
| Tokens.SameSecondTokenSurvives | server/src/middleware/authenticate.ts:74-79 | a token older than the password change can pass the age check |
| Tokens.ListedSessionsAreTheAcceptedOnes | server/src/services/sessionService.ts:228-243 | the signed-in list shows exactly the sessions `authenticate` would accept |
| Tokens.JudgeSaysWhy | server/src/middleware/authenticate.ts:62-79 | once the rows are loaded, SESSION_INVALID exactly for a session not on the user's list, TOKEN_INVALID exactly for a listed one with too old a token, never TOKEN_EXPIRED |
| ApiClient.SharedRefresh | web/src/lib/api.ts:129-167 | after any events at most one refresh is out, the shared promise is set exactly while one is, sharers hear one answer, and no call sends its request three times |
| ApiClient.SettlingAnswersEveryWaiter | web/src/lib/api.ts:149-164 | when the refresh settles the tab holds its very token, or none, and nobody is left waiting: all waiters replay with that token, or all fail |
| ApiClient.TokenIsFromTheLastRefresh | web/src/lib/api.ts:149-164 | after any events the token held is that of the last refresh that settled, and none if that one failed |
| ApiClient.NoTokenBeforeARefresh | web/src/lib/api.ts:149-164 | until a refresh has settled the tab holds no token |
| ApiClient.WireIsWhatArrived | web/src/lib/api.ts:151-155 | a refresh settles with what the network first delivered for that very refresh |
| ApiClient.ReplyDecidesTheCall | web/src/lib/api.ts:124-140 | each reply a call awaits ends it well exactly if it is good, sends it to the shared refresh exactly if it is a first TOKEN_EXPIRED, and otherwise fails it |
| ApiClient.ReturnsAreReplies | web/src/lib/api.ts:124-140 | after any events a call has succeeded only on a good reply and failed only on a bad one |
| ApiClient.CallsTerminate | web/src/lib/api.ts:79-140 | with no new calls, the number of effective events is bounded by the work outstanding |
| ApiClient.NeverStuck | web/src/lib/api.ts:79-167 | an unfinished call always has an answer due that moves things on |
| ApiClient.Client.RefreshOnce | web/src/lib/api.ts:146-167 | concurrent callers get the promise already in flight and nothing new is sent |
| ApiClient.Client.Recover | web/src/state/auth.tsx:82-86 | the silent refresh on page load shares the promise with everybody else |
| ApiClient.Client.OnReply | web/src/lib/api.ts:124-140 | a reply keeps the single-flight invariant, starts or joins a refresh only on an expired first send, and otherwise returns the call well exactly on a good reply |
| ApiClient.Client.OnRefreshSettled | web/src/lib/api.ts:149-164 | settling clears the promise, keeps exactly the new token on success and none on failure, and reports the loss once |
| SingleTab.NoFalseReuse | web/src/lib/api.ts:129-167 | one tab with any number of concurrent expiries, logging out and closing sessions as it likes, never trips the reuse branch unless somebody ended a session of the family on purpose; the jar holds the tail's token, or the one undelivered refresh does, unless the session was ended on purpose, ran out, or the tab's own logout, logout-all or close was answered since the jar was last filled; and a refresh is told that its session is lost, burned or gone only for those reasons |
| Races.ClosedYetAlive | server/src/routes/user.routes.ts:185-194 | a run of the tab that leaves its jar empty with the tail live, unexpired and no session of the family ended on purpose |
| SingleTab.FlightTurn | server/src/routes/auth.routes.ts:290-344 | each turn of the tab's refresh keeps the tail's token accounted for |
| TabToken.TokenIsForTheNewestSession | web/src/lib/api.ts:146-167 | after any run, whenever no refresh is out, the access token the tab holds is for the one unreplaced session of its family, and so is one delivered and not yet taken up |
| TabToken.DeliveredAnswer | server/src/routes/auth.routes.ts:290-344 | what each answer to a refresh does to the jar and tells the tab |
| TabToken.HeardAnswer | server/src/routes/user.routes.ts:185-204 | of the other answers exactly those to logout, logout-all and closing this very session empty the jar |
| Lockout.LockedExactlyAtFive | server/src/services/userService.ts:167-200 | in every reachable state the lock is set exactly at five or more failures, so the middle CASE arm is never chosen |
| Lockout.RetryAfterIsTight | server/src/routes/auth.routes.ts:221-230 | every 423 names 1 to 900 seconds; waiting that long suffices and a second less does not |
| Lockout.GateDecides | server/src/routes/auth.routes.ts:221-230 | in every reachable state a login is refused exactly when the lock it read ends after the clock, and otherwise goes on to its password |
| Lockout.FifthFailureLocks | server/src/services/userService.ts:167-191 | the fifth failure locks for 900000 ms from that moment: a login passes the gate exactly from then on |
| Lockout.WaitingIsEnoughAndNeeded | server/src/routes/auth.routes.ts:206-262 | from any refusal: after the seconds it named, with no failure meanwhile, a right password gets in and clears the account; a second earlier, with no success meanwhile, it is refused again |
| Lockout.FailedChecksCount | server/src/routes/auth.routes.ts:232-233 | the counter the bound is about counts exactly the passwords found wrong |
| Lockout.GuessesConceded | server/src/routes/auth.routes.ts:206-258 | from a new account or the last success, with any logins already in flight: at most k in flight from the fifth registered failure on and none successful, at most k + 4 wrong passwords are found in all, plus k per full lock window after that failure |
| Lockout.SuccessCleansTheSlate | server/src/services/userService.ts:194-200 | a new account, and one just cleared by a success, is such a start |
| Lockout.UserRow.RegisterFailedLogin | server/src/services/userService.ts:167-191 | the counter and lock after a failure, with the lock reported exactly from the fifth |
| Lockout.UserRow.LockState | server/src/services/userService.ts:206-215 | the service's lock test agrees with the one in the login route |
| MrzCheckDigit.CheckDigit | web/src/lib/mrz.ts:36-43 | the loop over code units computes the 7-3-1 weighted sum modulo 10 |
| MrzCheckDigit.SubstitutionDetected | web/src/lib/mrz.ts:26-43 | for any length, a substituted code unit goes unnoticed exactly when the values agree modulo 10 |
| MrzCheckDigit.TranspositionDetected | web/src/lib/mrz.ts:26-43 | for any length, swapped neighbouring code units go unnoticed exactly when their values differ by a multiple of 5 |
| MrzCheckDigit.ValuesByAlphabet | web/src/lib/mrz.ts:26-30 | a character of 0-9A-Z is worth its place there and anything else nothing |
| MrzCheckDigit.SpecimenBirthDate | web/src/lib/mrz.ts:36-43 | the specimen of ICAO Doc 9303: 740812 has digit 2 |
| MrzCheckDigit.SpecimenNumber | web/src/lib/mrz.ts:36-43 | the specimen of ICAO Doc 9303: L898902C3 has digit 6 |
| MrzLayout.SanitiseIdempotent | web/src/lib/mrz.ts:13-18 | sanitising is idempotent and leaves no leading, trailing or doubled filler |
| MrzNames.SanitiseJoinsWords | web/src/lib/mrz.ts:13-18 | sanitising leaves the words of the upper-cased text, in order, with one filler between |
| MrzLayout.SixDigitsExactly | web/src/lib/mrz.ts:46-52 | a date is six digits exactly when its year is not negative or is a round century |
| MrzLayout.DateShowsItself | web/src/lib/mrz.ts:46-52 | the date field reads back as year in century, month and day, in that order |
| MrzLayout.IdsWithoutPrefix | web/src/lib/mrz.ts:91-107 | the id fields hold the sanitised ids without "USR" or "SES", cut or filled up on the right |
| MrzLayout.LineTwoRoundTrip | web/src/lib/mrz.ts:91-124 | line 2 is 44 characters of the alphabet; cutting it at the TD3 columns returns every field, dates and role code included, every digit verifies, and the last verifies over columns 1-10, 14-20 and 22-43 |
| MrzNames.NameRoundTrip | web/src/lib/mrz.ts:83-89 | reading line 1 back gives exactly the family and given names if and only if they fit 38 columns |
| MrzNames.LineOneStarts | web/src/lib/mrz.ts:89 | line 1 begins AC<SUA |
| MrzNames.FamilyIsTheLastWord | web/src/lib/mrz.ts:84-87 | the family name is the last word of the name, the given names the others in order, and HOLDER stands for no words |
| MrzNames.SplitFiller | web/src/lib/mrz.ts:134-149 | the pieces join to the line and are its maximal runs of text and filler |
| Vault.OthersDoNotMatter | server/src/services/vaultService.ts:51-124 | erasing every request and row of other users changes no answer a user can get, listings up to the order of ties |
| Vault.ForeignIsAbsent | server/src/services/vaultService.ts:61-124 | somebody else's item is answered like a missing one and left alone |
| Vault.CreatedIsFound | server/src/services/vaultService.ts:61-89 | what was created is read back as given, with both times its creation |
| Vault.UpdatedIsFound | server/src/services/vaultService.ts:61-114 | what was updated is read back with what was given, the rest and the creation time as before |
| Vault.FoundAsStored | server/src/services/vaultService.ts:40-124 | an own item is shown as stored, field by field; a removed or foreign one is not found |
| Vault.ListingExists | server/src/services/vaultService.ts:51-58 | there is always a listing to answer |
| Vault.ListingShowsOwnItems | server/src/services/vaultService.ts:51-58 | any listing shows each own item once, as stored, nothing else, latest change first |
| Vault.Table.CreateItem | server/src/services/vaultService.ts:71-89 | creating adds one row of the caller's and touches no other; an id already taken changes nothing |
| Vault.Table.UpdateItem | server/src/services/vaultService.ts:96-114 | a partial update succeeds exactly on the owner's row with something given, keeps the fields not given, the id, owner and creation time, and touches no other row |
| Vault.Table.RemoveItem | server/src/services/vaultService.ts:117-124 | the row goes exactly when the caller owns it, and no other does |
| PasswordRuns.HasSequentialRun | server/src/lib/password.ts:339-350 | true exactly when some window of that many code units steps by +1 throughout or by -1 throughout |
| PasswordRuns.HasRepeatedRun | server/src/lib/password.ts:353-360 | true exactly when some window of that many code units is constant |
| PasswordRuns.UnitWindowsOfText | server/src/lib/password.ts:339-360 | for any text and any length from 2, a window of code units exists if and only if there is one of characters that fit one unit, or one of the four kinds that run over a seam of the surrogates |
| PasswordRuns.FacesAreMissed | server/src/lib/password.ts:339-360 | five equal and five consecutive characters beyond U+FFFF that the detectors do not report |

## Left out

- Argon2, HMAC, JWT encoding, claim narrowing and random generation: library code or one-branch parsing.
- Express, zod, cookie attributes, CSRF and rate limiters: an early refusal that changes nothing stands for them.
- Isolation below whole transactions, connection loss around COMMIT, and pool behaviour.
- User agent, address, audit events, names, emails and roles on rows: nothing modelled depends on them.
- The login and registration handlers up to their last await: `Lockout.dfy` models login's password checks for one account, and the session machine models the sign-in it ends in.
- Vault texts enter already trimmed, and the listing's SQL sort is stated, not run.
- In the run detectors a minimum length below 2 is covered only as "two characters or more".
- Several tabs on one jar, lost responses, and a new sign-in racing a refresh in the same jar: single flight is per tab and promises nothing about them.
- Sanitising and upper-casing work on whole characters, where the regular expressions of the source see code units: a run of foreign characters folds to one filler either way.
- An invalid `Date`, from which the source makes "NaNNaNNaN": a date is a calendar date.
- Role names that JavaScript would find on Object.prototype, such as `constructor`, in the role lookup of line 2.
- `anonymousMrz`, the client password meter, URL restoration, configuration and user interface code.
