/**
 What every statement keeps true of the sessions table: each family is one finite chain of
 `replaced_by` links, only its last member can be live, and revocation is never undone.
 */
module Chains {
  import opened Wrappers
  import opened Sessions

  // ---- The invariant ----------------------------------------------------------------------

  ghost predicate RowOk(t: Table, id: SessionId, clock: int, ttl: nat)
    requires id in t
  {
    var row := t[id];
    && row.id == id
    && row.createdAt <= clock
    && row.expiresAt == row.createdAt + ttl * 1000
    && (row.revokedAt.Some? <==> row.revokedReason.Some?)
    && (row.revokedAt.Some? ==> row.createdAt <= row.revokedAt.value <= clock)
    && (row.replacedBy.Some? <==> row.revokedReason == Some(Rotated))
    && (row.replacedBy.Some? ==> row.replacedBy.value in t && t[row.replacedBy.value].createdAt == row.revokedAt.value)
  }

  ghost predicate InFamily(t: Table, id: SessionId, f: FamilyId) {
    id in t && t[id].familyId == f
  }

  ghost predicate Linked(t: Table, c: seq<SessionId>, i: nat)
    requires i + 1 < |c| && c[i] in t
  {
    t[c[i]].replacedBy == Some(c[i + 1])
  }

  ghost predicate Distinct(c: seq<SessionId>) {
    forall i, j :: 0 <= i < j < |c| ==> c[i] != c[j]
  }

  /** `c` lists the members of family `f`, each once, in the order `replaced_by` links them. */
  ghost predicate IsChain(t: Table, f: FamilyId, c: seq<SessionId>) {
    && |c| > 0
    && Distinct(c)
    && (forall i :: 0 <= i < |c| ==> InFamily(t, c[i], f))
    && (forall i :: 0 <= i < |c| ==> t[c[i]].userId == t[c[0]].userId)
    && (forall id {:trigger InFamily(t, id, f)} :: InFamily(t, id, f) ==> id in c)
    && (forall i {:trigger Linked(t, c, i)} :: 0 <= i < |c| - 1 ==> Linked(t, c, i))
    && t[c[|c| - 1]].replacedBy == None
  }

  ghost predicate HasChain(t: Table, f: FamilyId) {
    exists c :: IsChain(t, f, c)
  }

  ghost predicate RowsOk(t: Table, clock: int, ttl: nat) {
    forall id {:trigger RowOk(t, id, clock, ttl)} :: id in t ==> RowOk(t, id, clock, ttl)
  }

  ghost predicate ChainsOk(t: Table) {
    forall id, f {:trigger InFamily(t, id, f)} :: InFamily(t, id, f) ==> HasChain(t, f)
  }

  ghost predicate Consistent(t: Table, clock: int, ttl: nat) {
    RowsOk(t, clock, ttl) && UniqueHashes(t) && ChainsOk(t)
  }

  /**
   What a statement's caller guarantees: a new session starts a family nobody used, the row
   handed to a rotation was once read from the table before the clock was, and no revocation
   other than a rotation gives the reason `Rotated`.
   */
  ghost predicate Guard(t: Table, statement: Statement, clock: int) {
    match statement
    case Create(_, _, f, _) => forall id :: id in t ==> t[id].familyId != f
    case Rotate(current, now, _, _, _) =>
      current.id in t && Evolves(current, t[current.id]) && current.createdAt <= now <= clock
    case RevokeFamily(_, reason) => reason != Rotated
    case RevokeSession(_, reason) => reason != Rotated
    case RevokeAllForUser(_, reason, _) => reason != Rotated
    case _ => true
  }

  // ---- Evolution of single rows -----------------------------------------------------------

  /** The row `a` may have become `b`: identity fixed, and every revocation mark final. */
  predicate Evolves(a: Session, b: Session) {
    && a.id == b.id && a.userId == b.userId && a.familyId == b.familyId && a.tokenHash == b.tokenHash
    && a.createdAt == b.createdAt && a.expiresAt == b.expiresAt
    && (a.revokedAt.Some? ==>
          a.revokedAt == b.revokedAt && a.revokedReason == b.revokedReason && a.replacedBy == b.replacedBy)
  }

  ghost predicate Extends(t: Table, t': Table) {
    forall id :: id in t ==> id in t' && Evolves(t[id], t'[id])
  }

  /** Rows are never deleted or given away, and no statement touches a revocation mark once set. */
  lemma ExecuteExtends(t: Table, statement: Statement, clock: int, ttl: nat)
    ensures Extends(t, Execute(t, statement, clock, ttl))
  {
  }

  // ---- Chains through one statement -------------------------------------------------------

  lemma MemberAt(t: Table, f: FamilyId, c: seq<SessionId>, id: SessionId) returns (i: nat)
    requires IsChain(t, f, c) && InFamily(t, id, f)
    ensures i < |c| && c[i] == id
  {
    i :| 0 <= i < |c| && c[i] == id;
  }

  lemma ChainOf(t: Table, id: SessionId) returns (c: seq<SessionId>, i: nat)
    requires ChainsOk(t) && id in t
    ensures IsChain(t, t[id].familyId, c) && i < |c| && c[i] == id
  {
    assert InFamily(t, id, t[id].familyId);
    c :| IsChain(t, t[id].familyId, c);
    i := MemberAt(t, t[id].familyId, c, id);
  }

  /** Every member but the last has a successor: a row without one is the last. */
  lemma UnreplacedIsLast(t: Table, f: FamilyId, c: seq<SessionId>, id: SessionId)
    requires IsChain(t, f, c) && InFamily(t, id, f) && t[id].replacedBy.None?
    ensures id == c[|c| - 1]
  {
    var i := MemberAt(t, f, c, id);
    assert i < |c| - 1 ==> Linked(t, c, i);
  }

  lemma ChainFrame(t: Table, t': Table, f: FamilyId)
    requires HasChain(t, f)
    requires forall id {:trigger InFamily(t', id, f)} :: InFamily(t', id, f) ==> InFamily(t, id, f)
    requires forall id {:trigger InFamily(t, id, f)} :: InFamily(t, id, f) ==>
               InFamily(t', id, f) && t[id].replacedBy == t'[id].replacedBy && t[id].userId == t'[id].userId
    ensures HasChain(t', f)
  {
    var c :| IsChain(t, f, c);
    forall i | 0 <= i < |c| ensures InFamily(t', c[i], f) && t[c[i]].userId == t'[c[i]].userId {
      assert InFamily(t, c[i], f);
    }
    forall i | 0 <= i < |c| - 1 ensures Linked(t', c, i) {
      assert Linked(t, c, i) && InFamily(t, c[i], f);
    }
    assert InFamily(t, c[|c| - 1], f);
    assert IsChain(t', f, c);
  }

  lemma ChainGrows(t: Table, t': Table, f: FamilyId, c: seq<SessionId>, next: SessionId)
    requires IsChain(t, f, c) && next !in t
    requires forall k {:trigger InFamily(t', k, f)} :: InFamily(t', k, f) <==> k == next || InFamily(t, k, f)
    requires forall k {:trigger InFamily(t, k, f)} :: InFamily(t, k, f) ==> k in t' && t'[k].userId == t[k].userId
    requires forall k {:trigger InFamily(t, k, f)} ::
               InFamily(t, k, f) && t[k].replacedBy.Some? ==> t'[k].replacedBy == t[k].replacedBy
    requires t'[c[|c| - 1]].replacedBy == Some(next) && next in t' && t'[next].replacedBy.None?
    requires t'[next].userId == t[c[0]].userId
    ensures IsChain(t', f, c + [next])
  {
    var c' := c + [next];
    forall i | 0 <= i < |c'| ensures InFamily(t', c'[i], f) && c'[i] in t' && t'[c'[i]].userId == t[c[0]].userId {
      assert InFamily(t', next, f);
      if i < |c| {
        assert InFamily(t, c[i], f);
      }
    }
    forall k | InFamily(t', k, f) ensures k in c' {
      assert c'[|c|] == next;
      if k != next {
        var i := MemberAt(t, f, c, k);
        assert c'[i] == k;
      }
    }
    forall i | 0 <= i < |c'| - 1 ensures Linked(t', c', i) {
      if i < |c| - 1 {
        assert Linked(t, c, i) && InFamily(t, c[i], f);
      }
    }
    assert forall i, j :: 0 <= i < j < |c'| ==> c'[i] != c'[j] by {
      forall i, j | 0 <= i < j < |c'| ensures c'[i] != c'[j] {
        assert InFamily(t, c[i], f);
      }
    }
  }

  /** An update that leaves family, owner and link of every row alone keeps every chain. */
  lemma UpdateKeepsChains(t: Table, t': Table)
    requires ChainsOk(t) && t'.Keys == t.Keys
    requires forall id :: id in t ==>
               && t'[id].familyId == t[id].familyId
               && t'[id].userId == t[id].userId
               && t'[id].replacedBy == t[id].replacedBy
    ensures ChainsOk(t')
  {
    forall id, f | InFamily(t', id, f) ensures HasChain(t', f) {
      assert InFamily(t, id, f);
      ChainFrame(t, t', f);
    }
  }

  lemma RevokeKeepsConsistent(t: Table, hit: set<SessionId>, reason: Reason, clock: int, ttl: nat)
    requires Consistent(t, clock, ttl) && hit <= LiveIds(t) && reason != Rotated
    ensures Consistent(Revoke(t, hit, reason, clock), clock, ttl)
  {
    var t' := Revoke(t, hit, reason, clock);
    forall id | id in t' ensures RowOk(t', id, clock, ttl) {
      assert RowOk(t, id, clock, ttl);
    }
    UpdateKeepsChains(t, t');
  }

  lemma TouchKeepsConsistent(t: Table, id: SessionId, clock: int, ttl: nat)
    requires Consistent(t, clock, ttl)
    ensures Consistent(Execute(t, Touch(id), clock, ttl), clock, ttl)
  {
    var t' := Execute(t, Touch(id), clock, ttl);
    forall k | k in t' ensures RowOk(t', k, clock, ttl) {
      assert RowOk(t, k, clock, ttl);
    }
    UpdateKeepsChains(t, t');
  }

  lemma CreateKeepsConsistent(t: Table, statement: Statement, clock: int, ttl: nat)
    requires statement.Create? && Guard(t, statement, clock) && Consistent(t, clock, ttl)
    ensures Consistent(Execute(t, statement, clock, ttl), clock, ttl)
  {
    var t' := Execute(t, statement, clock, ttl);
    forall id | id in t' ensures RowOk(t', id, clock, ttl) {
      if id in t {
        assert RowOk(t, id, clock, ttl);
      }
    }
    forall id, f | t' != t && InFamily(t', id, f) ensures HasChain(t', f) {
      if id in t {
        assert InFamily(t, id, f);
        ChainFrame(t, t', f);
      } else {
        assert IsChain(t', f, [id]);
      }
    }
  }

  lemma RotateKeepsRows(t: Table, statement: Statement, clock: int, ttl: nat, k: SessionId)
    requires statement.Rotate? && Guard(t, statement, clock) && RowsOk(t, clock, ttl)
    requires RotateResult(t, statement, ttl).Ok? && k in Execute(t, statement, clock, ttl)
    ensures RowOk(Execute(t, statement, clock, ttl), k, clock, ttl)
  {
    if k in t {
      assert RowOk(t, k, clock, ttl);
    }
  }

  lemma RotateKeepsConsistent(t: Table, statement: Statement, clock: int, ttl: nat)
    requires statement.Rotate? && Guard(t, statement, clock) && Consistent(t, clock, ttl)
    ensures Consistent(Execute(t, statement, clock, ttl), clock, ttl)
  {
    if RotateResult(t, statement, ttl).Ok? {
      var id, next := statement.current.id, statement.nextId;
      var t' := Execute(t, statement, clock, ttl);
      forall k | k in t' ensures RowOk(t', k, clock, ttl) {
        RotateKeepsRows(t, statement, clock, ttl, k);
      }
      ExecuteKeepsUnique(t, statement, clock, ttl);
      RotateKeepsChains(t, t', id, next) by {
        assert RowOk(t, id, clock, ttl);
      }
    }
  }

  lemma RotateKeepsChains(t: Table, t': Table, id: SessionId, next: SessionId)
    requires ChainsOk(t)
    requires id in t && t[id].replacedBy.None? && next !in t && t'.Keys == t.Keys + {next}
    requires forall k :: k in t ==> t'[k].familyId == t[k].familyId && t'[k].userId == t[k].userId
    requires forall k :: k in t && k != id ==> t'[k].replacedBy == t[k].replacedBy
    requires t'[id].replacedBy == Some(next)
    requires t'[next].replacedBy.None? && t'[next].familyId == t[id].familyId && t'[next].userId == t[id].userId
    ensures ChainsOk(t')
  {
    var f := t[id].familyId;
    var c, i := ChainOf(t, id);
    assert InFamily(t, id, f);
    UnreplacedIsLast(t, f, c, id);
    ChainGrows(t, t', f, c, next);
    forall k, g | InFamily(t', k, g) ensures HasChain(t', g) {
      if g != f {
        assert InFamily(t, k, g);
        ChainFrame(t, t', g);
      }
    }
  }

  /** Every guarded statement keeps the invariant. */
  lemma ExecuteKeepsConsistent(t: Table, statement: Statement, clock: int, ttl: nat)
    requires Guard(t, statement, clock) && Consistent(t, clock, ttl)
    ensures Consistent(Execute(t, statement, clock, ttl), clock, ttl)
  {
    match statement {
      case Skip =>
      case Create(_, _, _, _) => CreateKeepsConsistent(t, statement, clock, ttl);
      case Rotate(_, _, _, _, _) => RotateKeepsConsistent(t, statement, clock, ttl);
      case Touch(id) => TouchKeepsConsistent(t, id, clock, ttl);
      case RevokeFamily(_, reason) => RevokeKeepsConsistent(t, Matches(t, statement), reason, clock, ttl);
      case RevokeSession(_, reason) => RevokeKeepsConsistent(t, Matches(t, statement), reason, clock, ttl);
      case RevokeAllForUser(_, reason, _) => RevokeKeepsConsistent(t, Matches(t, statement), reason, clock, ttl);
    }
  }

  lemma LaterClockConsistent(t: Table, clock: int, later: int, ttl: nat)
    requires Consistent(t, clock, ttl) && clock <= later
    ensures Consistent(t, later, ttl)
  {
    forall id | id in t ensures RowOk(t, id, later, ttl) {
      assert RowOk(t, id, clock, ttl);
    }
  }

  // ---- What the invariant means -----------------------------------------------------------

  /** Walks `replaced_by` at most `steps` times, stopping at a row that has no successor. */
  function Follow(t: Table, id: SessionId, steps: nat): SessionId
    decreases steps
  {
    if steps == 0 || id !in t || t[id].replacedBy.None? then id
    else Follow(t, t[id].replacedBy.value, steps - 1)
  }

  lemma {:induction false} FollowPosition(t: Table, f: FamilyId, c: seq<SessionId>, i: nat, steps: nat)
    requires IsChain(t, f, c) && i < |c|
    ensures Follow(t, c[i], steps) == c[if i + steps < |c| then i + steps else |c| - 1]
    decreases steps
  {
    if steps > 0 && i < |c| - 1 {
      assert Linked(t, c, i);
      FollowPosition(t, f, c, i + 1, steps - 1);
    }
  }

  /** A sequence of distinct members cannot be longer than the set it is drawn from. */
  lemma {:induction false} DistinctFits(c: seq<SessionId>, s: set<SessionId>)
    requires Distinct(c)
    requires forall i :: 0 <= i < |c| ==> c[i] in s
    ensures |c| <= |s|
  {
    if |c| == 0 {
    } else {
      DistinctFits(c[1..], s - {c[0]});
    }
  }

  lemma ChainFits(t: Table, f: FamilyId, c: seq<SessionId>)
    requires IsChain(t, f, c)
    ensures |c| <= |t|
  {
    forall i | 0 <= i < |c| ensures c[i] in t.Keys {
      assert InFamily(t, c[i], f);
    }
    DistinctFits(c, t.Keys);
  }

  /**
   Following the links from any member, for as many steps as the table has rows, ends at the one
   member of the family that was never replaced; every member of the family ends there, and no
   other member can be live.
   */
  lemma EveryMemberReachesTheTail(t: Table, clock: int, ttl: nat, id: SessionId, other: SessionId)
    requires Consistent(t, clock, ttl) && id in t
    ensures var tail, f := Follow(t, id, |t|), t[id].familyId;
            && InFamily(t, tail, f)
            && t[tail].replacedBy.None?
            && t[tail].userId == t[id].userId
            && (InFamily(t, other, f) ==> Follow(t, other, |t|) == tail && t[other].userId == t[id].userId)
            && (InFamily(t, other, f) ==> (other == tail <==> t[other].replacedBy.None?))
            && (InFamily(t, other, f) && t[other].Live() ==> other == tail)
  {
    var f := t[id].familyId;
    var c, i := ChainOf(t, id);
    ChainFits(t, f, c);
    FollowPosition(t, f, c, i, |t|);
    assert InFamily(t, c[|c| - 1], f);
    if InFamily(t, other, f) {
      var j := MemberAt(t, f, c, other);
      FollowPosition(t, f, c, j, |t|);
      if t[other].replacedBy.None? {
        UnreplacedIsLast(t, f, c, other);
      }
      assert RowOk(t, other, clock, ttl);
    }
  }

  /** No chain of links returns to where it started. */
  lemma NeverRevisits(t: Table, id: SessionId, steps: nat)
    requires ChainsOk(t) && id in t && t[id].replacedBy.Some? && steps > 0
    ensures Follow(t, id, steps) != id
  {
    var c, i := ChainOf(t, id);
    FollowPosition(t, t[id].familyId, c, i, steps);
  }

  /** No two rows were replaced by the same successor. */
  lemma LinksInjective(t: Table, clock: int, ttl: nat, a: SessionId, b: SessionId)
    requires Consistent(t, clock, ttl) && a in t && b in t
    requires t[a].replacedBy.Some? && t[a].replacedBy == t[b].replacedBy
    ensures a == b
  {
    var c, i := ChainOf(t, a);
    var d, j := ChainOf(t, b);
    var f, g, n := t[a].familyId, t[b].familyId, t[a].replacedBy.value;
    assert Linked(t, c, i) && Linked(t, d, j);
    assert InFamily(t, c[i + 1], f) && InFamily(t, d[j + 1], g) && c[i + 1] == n == d[j + 1];
    assert InFamily(t, b, f);
    var k := MemberAt(t, f, c, b);
    assert Linked(t, c, k);
  }

  /** Times along a link: the successor is born when its predecessor is retired, and outlasts it. */
  lemma TimesAlongALink(t: Table, clock: int, ttl: nat, id: SessionId)
    requires Consistent(t, clock, ttl) && id in t && t[id].replacedBy.Some?
    ensures var row := t[id];
            && row.replacedBy.value in t
            && row.revokedAt == Some(t[row.replacedBy.value].createdAt)
            && row.createdAt <= t[row.replacedBy.value].createdAt <= clock
            && row.expiresAt <= t[row.replacedBy.value].expiresAt
  {
    assert RowOk(t, id, clock, ttl);
    assert RowOk(t, t[id].replacedBy.value, clock, ttl);
  }

  /** Revoking a family closes one session if its tail is live, and none otherwise. */
  lemma FamilyRevocationCount(t: Table, clock: int, ttl: nat, f: FamilyId, reason: Reason)
    requires Consistent(t, clock, ttl)
    ensures |Matches(t, RevokeFamily(f, reason))| <= 1
    ensures |Matches(t, RevokeFamily(f, reason))| == 1 <==> exists id :: InFamily(t, id, f) && t[id].Live()
  {
    var hit := Matches(t, RevokeFamily(f, reason));
    if id :| id in hit {
      forall other | other in hit ensures other == id {
        assert InFamily(t, id, f) && InFamily(t, other, f);
        EveryMemberReachesTheTail(t, clock, ttl, id, other);
        EveryMemberReachesTheTail(t, clock, ttl, id, id);
      }
      assert hit == {id};
      assert InFamily(t, id, f) && t[id].Live();
    } else {
      forall id | InFamily(t, id, f) ensures !t[id].Live() {
        assert id !in hit;
      }
    }
  }

  // ---- Dead families ----------------------------------------------------------------------

  /** The family has members and none of them is live. */
  ghost predicate Dead(t: Table, f: FamilyId) {
    && (exists id :: InFamily(t, id, f))
    && (forall id :: InFamily(t, id, f) ==> !t[id].Live())
  }

  /** A family with no live member never gets one again, whatever runs. */
  lemma DeadStaysDead(t: Table, statement: Statement, clock: int, ttl: nat, f: FamilyId)
    requires Guard(t, statement, clock) && Dead(t, f)
    ensures Dead(Execute(t, statement, clock, ttl), f)
  {
    var t' := Execute(t, statement, clock, ttl);
    ExecuteExtends(t, statement, clock, ttl);
    var member :| InFamily(t, member, f);
    assert InFamily(t', member, f);
    forall id | InFamily(t', id, f) ensures !t'[id].Live() {
      assert id in t ==> InFamily(t, id, f) && Evolves(t[id], t'[id]);
      if id !in t && statement.Rotate? {
        assert InFamily(t, statement.current.id, f);
      }
    }
  }

  lemma FamilyRevocationKills(t: Table, f: FamilyId, reason: Reason, clock: int, ttl: nat, id: SessionId)
    requires InFamily(t, id, f)
    ensures Dead(Execute(t, RevokeFamily(f, reason), clock, ttl), f)
  {
    var t' := Execute(t, RevokeFamily(f, reason), clock, ttl);
    assert InFamily(t', id, f);
    forall other | InFamily(t', other, f) ensures !t'[other].Live() {
      assert InFamily(t, other, f);
    }
  }
}
