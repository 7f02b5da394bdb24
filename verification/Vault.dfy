/**
 The vault store (server/src/services/vaultService.ts) behind its routes
 (server/src/routes/vault.routes.ts): what one user sees does not depend on anybody else.
 */
module Vault {
  import opened Wrappers

  type UserId = nat
  type ItemId = nat

  datatype Item = Item(id: ItemId, userId: UserId, title: string, body: string, createdAt: int, updatedAt: int)

  datatype PublicItem = PublicItem(id: ItemId, title: string, body: string, createdAt: int, updatedAt: int)

  type Items = map<ItemId, Item>

  datatype Op =
    | List
    | Find(id: ItemId)
    | Create(freshId: ItemId, title: string, body: string)
    | Update(id: ItemId, newTitle: Option<string>, newBody: Option<string>)
    | Remove(id: ItemId)

  datatype Request = Request(user: UserId, now: int, op: Op)

  datatype Response =
    | Listing(items: seq<PublicItem>)
    | Shown(item: PublicItem)
    | Deleted
    | NotFound
    | Invalid
    | Failed

  function ToPublic(item: Item): PublicItem {
    PublicItem(item.id, item.title, item.body, item.createdAt, item.updatedAt)
  }

  /** The WHERE clause every statement carries. */
  predicate Owns(v: Items, user: UserId, id: ItemId) {
    id in v && v[id].userId == user
  }

  /** The two stores agree on `id`: the same row, or none. */
  predicate RowKept(v: Items, w: Items, id: ItemId) {
    (id in v <==> id in w) && (id in v ==> w[id] == v[id])
  }

  function Patched(item: Item, op: Op, now: int): Item
    requires op.Update?
  {
    item.(title := if op.newTitle.Some? then op.newTitle.value else item.title,
          body := if op.newBody.Some? then op.newBody.value else item.body,
          updatedAt := now)
  }

  predicate Empty(op: Op) {
    op.Update? && op.newTitle.None? && op.newBody.None?
  }

  function After(v: Items, r: Request): Items {
    match r.op
    case List => v
    case Find(_) => v
    case Create(id, title, body) => if id in v then v else v[id := Item(id, r.user, title, body, r.now, r.now)]
    case Update(id, _, _) => if !Empty(r.op) && Owns(v, r.user, id) then v[id := Patched(v[id], r.op, r.now)] else v
    case Remove(id) => if Owns(v, r.user, id) then v - {id} else v
  }

  /** The answer to anything but a listing. */
  function Respond(v: Items, r: Request): Response {
    match r.op
    case List => Failed
    case Find(id) => if Owns(v, r.user, id) then Shown(ToPublic(v[id])) else NotFound
    case Create(id, title, body) => if id in v then Failed else Shown(PublicItem(id, title, body, r.now, r.now))
    case Update(id, _, _) =>
      if Empty(r.op) then Invalid
      else if Owns(v, r.user, id) then Shown(ToPublic(Patched(v[id], r.op, r.now))) else NotFound
    case Remove(id) => if Owns(v, r.user, id) then Deleted else NotFound
  }

  /** One user's rows. */
  function Owned(v: Items, user: UserId): Items {
    map id | id in v && v[id].userId == user :: v[id]
  }

  /** ORDER BY updated_at DESC: all the user's rows, latest change first, ties in any order. */
  ghost predicate IsListing(v: Items, user: UserId, rows: seq<Item>) {
    && multiset(rows) == multiset(Owned(v, user).Values)
    && Sorted(rows)
  }

  /** What the server may answer: a listing may order ties either way, all else is determined. */
  ghost predicate MayAnswer(v: Items, r: Request, response: Response) {
    if r.op.List? then
      exists rows: seq<Item> ::
        IsListing(v, r.user, rows) && response == Listing(seq(|rows|, i requires 0 <= i < |rows| => ToPublic(rows[i])))
    else response == Respond(v, r)
  }

  class Table {
    var rows: Items

    constructor ()
      ensures rows == map[]
    {
      rows := map[];
    }

    method CreateItem(user: UserId, now: int, freshId: ItemId, title: string, body: string) returns (r: Response)
      modifies this
      ensures rows == After(old(rows), Request(user, now, Create(freshId, title, body)))
      ensures r == Respond(old(rows), Request(user, now, Create(freshId, title, body)))
      ensures freshId in old(rows) ==> r == Failed && rows == old(rows)
      ensures freshId !in old(rows) ==>
                && rows == old(rows)[freshId := Item(freshId, user, title, body, now, now)]
                && r == Shown(PublicItem(freshId, title, body, now, now))
      ensures forall id :: id != freshId ==> RowKept(old(rows), rows, id)
    {
      if freshId in rows {
        return Failed;
      }
      rows := rows[freshId := Item(freshId, user, title, body, now, now)];
      return Shown(ToPublic(rows[freshId]));
    }

    method UpdateItem(user: UserId, now: int, id: ItemId, title: Option<string>, body: Option<string>)
      returns (r: Response)
      modifies this
      ensures rows == After(old(rows), Request(user, now, Update(id, title, body)))
      ensures r == Respond(old(rows), Request(user, now, Update(id, title, body)))
      ensures rows.Keys == old(rows).Keys && forall other :: other != id ==> RowKept(old(rows), rows, other)
      ensures r.Shown? <==> (title.Some? || body.Some?) && Owns(old(rows), user, id)
      ensures !r.Shown? ==> rows == old(rows) && r == if title.None? && body.None? then Invalid else NotFound
      ensures r.Shown? ==>
                && rows[id].id == old(rows)[id].id && rows[id].userId == user
                && rows[id].createdAt == old(rows)[id].createdAt && rows[id].updatedAt == now
                && rows[id].title == (if title.Some? then title.value else old(rows)[id].title)
                && rows[id].body == (if body.Some? then body.value else old(rows)[id].body)
                && r.item == PublicItem(rows[id].id, rows[id].title, rows[id].body, rows[id].createdAt, now)
    {
      if title.None? && body.None? {
        return Invalid;
      }
      if id !in rows || rows[id].userId != user {
        return NotFound;
      }
      var item := rows[id].(updatedAt := now);
      if title.Some? {
        item := item.(title := title.value);
      }
      if body.Some? {
        item := item.(body := body.value);
      }
      rows := rows[id := item];
      return Shown(ToPublic(item));
    }

    method RemoveItem(user: UserId, now: int, id: ItemId) returns (r: Response)
      modifies this
      ensures rows == After(old(rows), Request(user, now, Remove(id)))
      ensures r == Respond(old(rows), Request(user, now, Remove(id)))
      ensures forall other :: other != id ==> RowKept(old(rows), rows, other)
      ensures r == Deleted <==> Owns(old(rows), user, id)
      ensures if r == Deleted then id !in rows else rows == old(rows) && r == NotFound
    {
      if id in rows && rows[id].userId == user {
        rows := rows - {id};
        return Deleted;
      }
      return NotFound;
    }
  }

  // ---- What one user reads back ---------------------------------------------------------------

  /** Every row is stored under its own id. */
  ghost predicate Keyed(v: Items) {
    forall id :: id in v ==> v[id].id == id
  }

  lemma {:induction false} KeyedRun(v: Items, requests: seq<Request>)
    requires Keyed(v)
    ensures Keyed(Serve(v, requests))
    decreases |requests|
  {
    if requests == [] {
    } else {
      KeyedRun(v, requests[..|requests| - 1]);
    }
  }

  /** What was created is read back as given, with both times the moment it was created. */
  lemma CreatedIsFound(v: Items, user: UserId, now: int, id: ItemId, title: string, body: string, later: int)
    requires id !in v
    ensures var v' := After(v, Request(user, now, Create(id, title, body)));
            Respond(v', Request(user, later, Find(id))) == Shown(PublicItem(id, title, body, now, now))
  {
  }

  /** What was updated is read back with what was given, the rest as it was, and only the second time moved. */
  lemma UpdatedIsFound(v: Items, user: UserId, now: int, id: ItemId, title: Option<string>, body: Option<string>,
                       later: int)
    requires Keyed(v) && Owns(v, user, id) && (title.Some? || body.Some?)
    ensures var r := Request(user, now, Update(id, title, body));
            var shown := PublicItem(id, if title.Some? then title.value else v[id].title,
                                    if body.Some? then body.value else v[id].body, v[id].createdAt, now);
            && Respond(v, r) == Shown(shown)
            && Respond(After(v, r), Request(user, later, Find(id))) == Shown(shown)
  {
  }

  /** What was removed is not found, nor is what one does not own; the rest is shown as stored. */
  lemma FoundAsStored(v: Items, user: UserId, now: int, id: ItemId)
    requires Keyed(v)
    ensures Respond(v, Request(user, now, Find(id)))
            == if !Owns(v, user, id) then NotFound
               else Shown(PublicItem(id, v[id].title, v[id].body, v[id].createdAt, v[id].updatedAt))
    ensures var v' := After(v, Request(user, now, Remove(id)));
            Respond(v', Request(user, now, Find(id))) == NotFound && (id in v' ==> v[id].userId != user)
  {
  }

  /** Rows in the order of the listing: latest change first. */
  predicate Sorted(rows: seq<Item>) {
    forall i, j :: 0 <= i < j < |rows| ==> rows[i].updatedAt >= rows[j].updatedAt
  }

  lemma {:induction false} Insert(rows: seq<Item>, item: Item) returns (r: seq<Item>)
    requires Sorted(rows)
    ensures Sorted(r) && multiset(r) == multiset(rows) + multiset{item}
    decreases |rows|
  {
    if rows == [] || item.updatedAt >= rows[0].updatedAt {
      r := [item] + rows;
    } else {
      var rest := Insert(rows[1..], item);
      r := [rows[0]] + rest;
      assert rows == [rows[0]] + rows[1..];
      HeadIsLatest(rows, item, rest);
    }
  }

  lemma HeadIsLatest(rows: seq<Item>, item: Item, rest: seq<Item>)
    requires rows != [] && Sorted(rows) && Sorted(rest) && item.updatedAt < rows[0].updatedAt
    requires multiset(rest) == multiset(rows[1..]) + multiset{item}
    ensures Sorted([rows[0]] + rest)
  {
    forall i | 0 <= i < |rest| ensures rest[i].updatedAt <= rows[0].updatedAt {
      assert rest[i] in multiset(rest);
      assert rest[i] == item || rest[i] in rows[1..];
    }
  }

  lemma {:induction false} Sort(items: set<Item>) returns (rows: seq<Item>)
    ensures Sorted(rows) && multiset(rows) == multiset(items)
    decreases items
  {
    if items == {} {
      rows := [];
    } else {
      var item :| item in items;
      var rest := Sort(items - {item});
      rows := Insert(rest, item);
      assert items == (items - {item}) + {item};
    }
  }

  /** There is always a listing to answer with. */
  lemma ListingExists(v: Items, r: Request) returns (rows: seq<Item>, response: Response)
    requires r.op.List?
    ensures IsListing(v, r.user, rows) && MayAnswer(v, r, response) && response.Listing?
  {
    rows := Sort(Owned(v, r.user).Values);
    response := Listing(seq(|rows|, i requires 0 <= i < |rows| => ToPublic(rows[i])));
  }

  lemma ListedOnce(rows: seq<Item>, items: set<Item>, i: nat, j: nat)
    requires multiset(rows) == multiset(items) && i < j < |rows|
    ensures rows[i] != rows[j]
  {
    var before, from := rows[..j], rows[j..];
    assert rows == before + from;
    assert before[i] == rows[i] && rows[i] in multiset(before);
    assert multiset(rows)[rows[i]] <= 1;
    assert from[0] == rows[j] && rows[j] in multiset(from);
  }

  /**
   Any listing the server may answer shows each of the user's items once, all of it as stored, nothing
   else, and in the order of the last change.
   */
  lemma ListingShowsOwnItems(v: Items, r: Request, items: seq<PublicItem>, id: ItemId)
    requires Keyed(v) && r.op.List? && MayAnswer(v, r, Listing(items))
    ensures forall i, j :: 0 <= i < j < |items| ==>
              items[i].id != items[j].id && items[i].updatedAt >= items[j].updatedAt
    ensures forall i :: 0 <= i < |items| ==> Owns(v, r.user, items[i].id)
    ensures Owns(v, r.user, id) ==>
              PublicItem(id, v[id].title, v[id].body, v[id].createdAt, v[id].updatedAt) in items
  {
    var rows: seq<Item> :| IsListing(v, r.user, rows)
                           && Listing(items) == Listing(seq(|rows|, i requires 0 <= i < |rows| => ToPublic(rows[i])));
    var owned := Owned(v, r.user);
    forall i | 0 <= i < |rows| ensures Owns(v, r.user, rows[i].id) && v[rows[i].id] == rows[i] {
      assert rows[i] in multiset(rows) && rows[i] in owned.Values;
    }
    forall i, j | 0 <= i < j < |items|
      ensures items[i].id != items[j].id && items[i].updatedAt >= items[j].updatedAt
    {
      ListedOnce(rows, owned.Values, i, j);
    }
    if Owns(v, r.user, id) {
      assert owned[id] in owned.Values && v[id] in multiset(rows);
      var i :| 0 <= i < |rows| && rows[i] == v[id];
      assert items[i] == ToPublic(v[id]);
    }
  }

  // ---- Non-interference -----------------------------------------------------------------------

  function Serve(v: Items, requests: seq<Request>): Items
    decreases |requests|
  {
    if requests == [] then v else After(Serve(v, requests[..|requests| - 1]), requests[|requests| - 1])
  }

  /** The same run with every request of everybody but `user` erased. */
  function Only(requests: seq<Request>, user: UserId): seq<Request>
    decreases |requests|
  {
    if requests == [] then []
    else
      var last := requests[|requests| - 1];
      Only(requests[..|requests| - 1], user) + (if last.user == user then [last] else [])
  }

  /** New ids are random: none is in the store to begin with, and none is drawn twice. */
  ghost predicate FreshIds(v: Items, requests: seq<Request>) {
    && (forall i :: 0 <= i < |requests| && requests[i].op.Create? ==> requests[i].op.freshId !in v)
    && (forall i, j :: 0 <= i < j < |requests| && requests[i].op.Create? && requests[j].op.Create? ==>
          requests[i].op.freshId != requests[j].op.freshId)
  }

  ghost predicate KeysExplained(v: Items, requests: seq<Request>, now: Items) {
    forall id :: id in now ==>
      id in v || exists i :: 0 <= i < |requests| && requests[i].op.Create? && requests[i].op.freshId == id
  }

  /** Two stores hold the same row, or none, of `user` under `id`. */
  predicate SameFor(v: Items, w: Items, user: UserId, id: ItemId) {
    (Owns(v, user, id) <==> Owns(w, user, id)) && (Owns(v, user, id) && Owns(w, user, id) ==> v[id] == w[id])
  }

  lemma OwnedAgree(v: Items, w: Items, user: UserId)
    ensures Owned(v, user) == Owned(w, user) <==> forall id :: SameFor(v, w, user, id)
  {
    if Owned(v, user) == Owned(w, user) {
      forall id ensures SameFor(v, w, user, id) {
        assert Owns(v, user, id) <==> id in Owned(v, user);
        assert Owns(w, user, id) <==> id in Owned(w, user);
        assert id in Owned(v, user) ==> v[id] == Owned(v, user)[id] == Owned(w, user)[id] == w[id];
      }
    } else if forall id :: SameFor(v, w, user, id) {
      forall id ensures id in Owned(v, user) <==> id in Owned(w, user) {
        assert SameFor(v, w, user, id);
      }
      forall id | id in Owned(v, user) ensures Owned(v, user)[id] == Owned(w, user)[id] {
        assert SameFor(v, w, user, id);
      }
    }
  }

  lemma StepKeepsRow(v: Items, w: Items, r: Request, user: UserId, id: ItemId)
    requires SameFor(v, w, user, id)
    requires r.op.Create? ==> r.op.freshId !in v && r.op.freshId !in w
    ensures SameFor(After(v, r), if r.user == user then After(w, r) else w, user, id)
  {
  }

  lemma StepKeepsView(v: Items, w: Items, r: Request, user: UserId)
    requires Owned(v, user) == Owned(w, user)
    requires r.op.Create? ==> r.op.freshId !in v && r.op.freshId !in w
    ensures Owned(After(v, r), user) == Owned(if r.user == user then After(w, r) else w, user)
  {
    OwnedAgree(v, w, user);
    var v', w' := After(v, r), if r.user == user then After(w, r) else w;
    forall id ensures SameFor(v', w', user, id) {
      assert SameFor(v, w, user, id);
      StepKeepsRow(v, w, r, user, id);
    }
    OwnedAgree(v', w', user);
  }

  lemma {:induction false} RunKeepsView(v: Items, w: Items, requests: seq<Request>, user: UserId)
    requires Owned(v, user) == Owned(w, user) && FreshIds(v, requests) && FreshIds(w, requests)
    ensures Owned(Serve(v, requests), user) == Owned(Serve(w, Only(requests, user)), user)
    ensures KeysExplained(v, requests, Serve(v, requests))
    ensures KeysExplained(w, requests, Serve(w, Only(requests, user)))
    decreases |requests|
  {
    if requests == [] {
    } else {
      var before, last := requests[..|requests| - 1], requests[|requests| - 1];
      assert requests == before + [last];
      RunKeepsView(v, w, before, user);
      var v', w' := Serve(v, before), Serve(w, Only(before, user));
      if last.op.Create? {
        assert last.op.freshId !in v' && last.op.freshId !in w';
      }
      StepKeepsView(v', w', last, user);
      if last.user == user {
        assert (Only(before, user) + [last])[..|Only(before, user)|] == Only(before, user);
      } else {
        assert Only(requests, user) == Only(before, user);
      }
      GrowExplained(v, requests, v', last);
      GrowExplained(w, requests, w', last);
    }
  }

  lemma GrowExplained(v: Items, requests: seq<Request>, now: Items, last: Request)
    requires requests != [] && last == requests[|requests| - 1]
    requires KeysExplained(v, requests[..|requests| - 1], now)
    ensures KeysExplained(v, requests, After(now, last)) && KeysExplained(v, requests, now)
  {
    var before := requests[..|requests| - 1];
    forall id | id in now && id !in v
      ensures exists i :: 0 <= i < |requests| && requests[i].op.Create? && requests[i].op.freshId == id
    {
      var i :| 0 <= i < |before| && before[i].op.Create? && before[i].op.freshId == id;
      assert requests[i] == before[i];
    }
  }

  /**
   Erase every request, and every row, of everybody but `user`: each answer that user can get is
   unchanged, in whatever order all the requests were interleaved.
   */
  lemma OthersDoNotMatter(v: Items, w: Items, requests: seq<Request>, k: nat, user: UserId, response: Response)
    requires Owned(v, user) == Owned(w, user)
    requires FreshIds(v, requests) && FreshIds(w, requests)
    requires k < |requests| && requests[k].user == user
    ensures MayAnswer(Serve(v, requests[..k]), requests[k], response)
            <==> MayAnswer(Serve(w, Only(requests[..k], user)), requests[k], response)
  {
    var before, r := requests[..k], requests[k];
    RunKeepsView(v, w, before, user);
    var v', w' := Serve(v, before), Serve(w, Only(before, user));
    if r.op.Create? {
      assert r.op.freshId !in v' && r.op.freshId !in w';
    }
    SameViewSameAnswers(v', w', r, response);
  }

  lemma SameViewSameAnswers(v: Items, w: Items, r: Request, response: Response)
    requires Owned(v, r.user) == Owned(w, r.user)
    requires r.op.Create? ==> r.op.freshId !in v && r.op.freshId !in w
    ensures MayAnswer(v, r, response) <==> MayAnswer(w, r, response)
  {
    OwnedAgree(v, w, r.user);
    match r.op {
      case List =>
        assert forall rows: seq<Item> :: IsListing(v, r.user, rows) <==> IsListing(w, r.user, rows);
      case Create(_, _, _) =>
      case Find(id) => assert SameFor(v, w, r.user, id);
      case Update(id, _, _) => assert SameFor(v, w, r.user, id);
      case Remove(id) => assert SameFor(v, w, r.user, id);
    }
  }

  /** An item of somebody else is answered, on every route that names an id, as if it were not there. */
  lemma ForeignIsAbsent(v: Items, r: Request, id: ItemId)
    requires id in v && v[id].userId != r.user
    requires (r.op.Find? || r.op.Update? || r.op.Remove?) && r.op.id == id
    ensures Respond(v, r) == Respond(v - {id}, r) && After(v, r) == v
  {
  }
}
