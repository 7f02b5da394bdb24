/**
 The sessions table and the statements the session service runs on it
 (server/src/services/sessionService.ts).

 `Execute` gives the meaning of each statement on a table value; the methods below run the same
 statements on a database connection. Identifiers and tokens are abstract; a digest is the token
 wrapped in a constructor, which is the assumption that SHA-256 does not collide. All times are
 epoch milliseconds.
 */
module Sessions {
  import opened Wrappers
  import opened Database

  type UserId = nat
  type SessionId = nat
  type FamilyId = nat
  type Token = nat

  datatype Digest = Sha256(preimage: Token)

  datatype Reason = Logout | LogoutAll | Rotated | ReuseDetected | RevokedByUser | PasswordChanged

  datatype Session = Session(
    id: SessionId,
    userId: UserId,
    familyId: FamilyId,
    tokenHash: Digest,
    createdAt: int,
    lastUsedAt: int,
    expiresAt: int,
    revokedAt: Option<int>,
    revokedReason: Option<Reason>,
    replacedBy: Option<SessionId>)
  {
    predicate Live() {
      revokedAt.None?
    }

    predicate IsActive(now: int) {
      Live() && expiresAt > now
    }
  }

  type Table = map<SessionId, Session>

  datatype Failure = SessionInvalid | Internal

  datatype Statement =
    | Skip
    | Create(id: SessionId, userId: UserId, familyId: FamilyId, token: Token)
    | Rotate(current: Session, now: int, nextId: SessionId, token: Token, insertFails: bool)
    | RevokeFamily(familyId: FamilyId, reason: Reason)
    | RevokeSession(id: SessionId, reason: Reason)
    | RevokeAllForUser(userId: UserId, reason: Reason, keep: Option<SessionId>)
    | Touch(id: SessionId)

  function NewRow(id: SessionId, userId: UserId, familyId: FamilyId, token: Token, now: int, ttl: nat): Session {
    Session(id, userId, familyId, Sha256(token), now, now, now + ttl * 1000, None, None, None)
  }

  /** The PRIMARY KEY and UNIQUE constraints on id and token_hash: an insert that breaks one throws. */
  predicate Conflicts(t: Table, row: Session) {
    row.id in t || exists id :: id in t && t[id].tokenHash == row.tokenHash
  }

  /** The rows an UPDATE that revokes will match: the `revoked_at IS NULL` guard is in every one. */
  function Matches(t: Table, statement: Statement): set<SessionId> {
    match statement
    case RevokeFamily(f, _) => set id | id in t && t[id].Live() && t[id].familyId == f
    case RevokeSession(i, _) => set id | id in t && t[id].Live() && id == i
    case RevokeAllForUser(u, _, keep) => set id | id in t && t[id].Live() && t[id].userId == u && keep != Some(id)
    case _ => {}
  }

  function Revoke(t: Table, hit: set<SessionId>, reason: Reason, now: int): Table {
    map id | id in t :: if id in hit then t[id].(revokedAt := Some(now), revokedReason := Some(reason)) else t[id]
  }

  /** The UPDATE at the head of a rotation; with the guard false it matches nothing. */
  function Retire(t: Table, id: SessionId, nextId: SessionId, now: int): Table {
    if id in t && t[id].Live() then
      t[id := t[id].(revokedAt := Some(now), revokedReason := Some(Rotated),
                     replacedBy := Some(nextId), lastUsedAt := now)]
    else t
  }

  /** The function a rotation runs inside its transaction, statement by statement. */
  function RotateBody(t: Table, current: Session, now: int, nextId: SessionId, token: Token, ttl: nat,
                      insertFails: bool)
    : Outcome<Table, Session, Failure>
  {
    var retired := Retire(t, current.id, nextId, now);
    if !(current.id in t && t[current.id].Live()) then Outcome(retired, Err(SessionInvalid), false)
    else
      var row := NewRow(nextId, current.userId, current.familyId, token, now, ttl);
      if insertFails || Conflicts(retired, row) then Outcome(retired, Err(Internal), false)
      else Outcome(retired[nextId := row], Ok(row), false)
  }

  /** The whole rotation as seen from outside its transaction. */
  function RotateResult(t: Table, statement: Statement, ttl: nat): Result<Session, Failure>
    requires statement.Rotate?
  {
    var Rotate(current, now, nextId, token, insertFails) := statement;
    RotateBody(t, current, now, nextId, token, ttl, insertFails).result
  }

  function Execute(t: Table, statement: Statement, clock: int, ttl: nat): Table {
    match statement
    case Skip => t
    case Create(id, u, f, token) =>
      var row := NewRow(id, u, f, token, clock, ttl);
      if Conflicts(t, row) then t else t[id := row]
    case Rotate(current, now, nextId, token, insertFails) =>
      var outcome := RotateBody(t, current, now, nextId, token, ttl, insertFails);
      if outcome.result.Ok? then outcome.data else t
    case Touch(id) => if id in t then t[id := t[id].(lastUsedAt := clock)] else t
    case RevokeFamily(_, reason) => Revoke(t, Matches(t, statement), reason, clock)
    case RevokeSession(_, reason) => Revoke(t, Matches(t, statement), reason, clock)
    case RevokeAllForUser(_, reason, _) => Revoke(t, Matches(t, statement), reason, clock)
  }

  function LiveIds(t: Table): set<SessionId> {
    set id | id in t && t[id].Live()
  }

  ghost predicate UniqueHashes(t: Table) {
    forall a, b :: a in t && b in t && t[a].tokenHash == t[b].tokenHash ==> a == b
  }

  /** The constraint checks alone keep digests unique, whatever statement runs. */
  lemma ExecuteKeepsUnique(t: Table, statement: Statement, clock: int, ttl: nat)
    requires UniqueHashes(t)
    ensures UniqueHashes(Execute(t, statement, clock, ttl))
  {
    var t' := Execute(t, statement, clock, ttl);
    forall a, b | a in t' && b in t' && t'[a].tokenHash == t'[b].tokenHash ensures a == b {
      assert a in t ==> t'[a].tokenHash == t[a].tokenHash;
      assert b in t ==> t'[b].tokenHash == t[b].tokenHash;
    }
  }

  /** SELECT ... WHERE token_hash = sha256(token): revoked and expired rows are returned too. */
  ghost function FindByToken(t: Table, token: Token): (r: Option<Session>)
    ensures r.Some? <==> exists id :: id in t && t[id].tokenHash == Sha256(token)
    ensures r.Some? ==> exists id :: id in t && t[id] == r.value && t[id].tokenHash == Sha256(token)
  {
    if exists id :: id in t && t[id].tokenHash == Sha256(token) then
      var id :| id in t && t[id].tokenHash == Sha256(token);
      Some(t[id])
    else None
  }

  function FindById(t: Table, id: SessionId): Option<Session> {
    if id in t then Some(t[id]) else None
  }

  // ---- The service itself, on a connection ------------------------------------------------

  method LookUpToken(db: Connection<Table>, token: Token) returns (r: Option<Session>)
    requires UniqueHashes(db.working)
    ensures r == FindByToken(db.working, token)
  {
    if exists id :: id in db.working && db.working[id].tokenHash == Sha256(token) {
      var id :| id in db.working && db.working[id].tokenHash == Sha256(token);
      return Some(db.working[id]);
    }
    return None;
  }

  method CreateSession(db: Connection<Table>, id: SessionId, userId: UserId, familyId: FamilyId, token: Token,
                       now: int, ttl: nat)
    returns (r: Result<Session, Failure>)
    requires db.Idle()
    modifies db
    ensures db.Idle()
    ensures db.committed == Execute(old(db.committed), Create(id, userId, familyId, token), now, ttl)
    ensures r.Ok? <==> id !in old(db.committed)
                       && forall k :: k in old(db.committed) ==> old(db.committed)[k].tokenHash != Sha256(token)
    ensures r.Ok? ==>
              r.value == Session(id, userId, familyId, Sha256(token), now, now, now + ttl * 1000, None, None, None)
    ensures r.Ok? ==> db.committed == old(db.committed)[id := r.value]
    ensures r.Err? ==> db.committed == old(db.committed)
  {
    var row := NewRow(id, userId, familyId, token, now, ttl);
    if Conflicts(db.working, row) {
      return Err(Internal);
    }
    db.Write(db.working[id := row]);
    return Ok(row);
  }

  /** Either the predecessor is retired and the successor stored, or the table is untouched. */
  method RotateSession(db: Connection<Table>, current: Session, now: int, nextId: SessionId, token: Token, ttl: nat,
                       insertFails: bool)
    returns (r: Result<Session, Failure>)
    requires db.Idle()
    modifies db
    ensures db.Idle()
    ensures db.committed == Execute(old(db.committed), Rotate(current, now, nextId, token, insertFails), now, ttl)
    ensures r == RotateResult(old(db.committed), Rotate(current, now, nextId, token, insertFails), ttl)
    ensures r.Err? ==> db.committed == old(db.committed)
    ensures r.Ok? ==> && nextId in db.committed && db.committed[nextId] == r.value && r.value.Live()
                      && current.id in db.committed && db.committed[current.id].replacedBy == Some(nextId)
                      && current.id in old(db.committed) && old(db.committed)[current.id].Live()
    ensures r.Ok? ==> && r.value == Session(nextId, current.userId, current.familyId, Sha256(token), now, now,
                                            now + ttl * 1000, None, None, None)
                      && db.committed[current.id].revokedAt == Some(now)
                      && db.committed[current.id].revokedReason == Some(Rotated)
                      && db.committed[current.id].lastUsedAt == now
                      && db.committed.Keys == old(db.committed).Keys + {nextId}
                      && forall k :: k in old(db.committed) && k != current.id ==>
                           db.committed[k] == old(db.committed)[k]
  {
    r := db.Transaction(data => RotateBody(data, current, now, nextId, token, ttl, insertFails), false, Internal);
  }

  method RunRevocation(db: Connection<Table>, statement: Statement, now: int, ttl: nat) returns (rowCount: nat)
    requires db.Idle()
    requires statement.RevokeFamily? || statement.RevokeSession? || statement.RevokeAllForUser?
    modifies db
    ensures db.Idle()
    ensures db.committed == Execute(old(db.committed), statement, now, ttl)
    ensures rowCount == |LiveIds(old(db.committed))| - |LiveIds(db.committed)|
  {
    var hit := Matches(db.working, statement);
    RevocationCount(db.working, hit, statement.reason, now);
    db.Write(Revoke(db.working, hit, statement.reason, now));
    return |hit|;
  }

  method TouchSession(db: Connection<Table>, id: SessionId, now: int, ttl: nat)
    requires db.Idle()
    modifies db
    ensures db.Idle() && db.committed == Execute(old(db.committed), Touch(id), now, ttl)
    ensures LiveIds(db.committed) == LiveIds(old(db.committed))
    ensures db.committed.Keys == old(db.committed).Keys
    ensures forall k :: k in old(db.committed) ==>
              db.committed[k] == if k == id then old(db.committed)[k].(lastUsedAt := now) else old(db.committed)[k]
  {
    if id in db.working {
      db.Write(db.working[id := db.working[id].(lastUsedAt := now)]);
    }
  }

  /** What an UPDATE reports as its row count is exactly how many live rows disappeared. */
  lemma RevocationCount(t: Table, hit: set<SessionId>, reason: Reason, now: int)
    requires hit <= LiveIds(t)
    ensures |hit| == |LiveIds(t)| - |LiveIds(Revoke(t, hit, reason, now))|
  {
    assert LiveIds(Revoke(t, hit, reason, now)) == LiveIds(t) - hit;
  }
}
