/** The server's three collections (users, plants, orders) as one value, the
    token gate, and every route handler of server/index.js as a function from
    the old collections to the new collections and the reply. The Backend
    module's Server class runs the same handlers in place and is proved against
    these functions. The lemmas state what the handlers promise. */
module Store {
  import opened Records

  /** The database: three collections keyed by document id, and the next id to issue. */
  datatype Db = Db(users: map<Id, User>, plants: map<Id, Plant>, orders: map<Id, Order>, nextId: Id)

  /** Every stored id was issued before `nextId`. */
  ghost predicate Valid(db: Db) {
    && (forall id :: id in db.users ==> id < db.nextId)
    && (forall id :: id in db.plants ==> id < db.nextId)
    && (forall id :: id in db.orders ==> id < db.nextId)
  }

  /** An HTTP reply of a protected route: 401, 409 or a body. */
  datatype Reply<T> = Unauthorized | Conflict | Ok(body: T)

  /** What `updateOne` reports. */
  datatype UpdateResult = UpdateResult(matchedCount: nat, modifiedCount: nat)

  /** What `/users/:email` sends back: the user already stored, or the new id. */
  datatype UpsertReply = Existing(user: User) | InsertedUser(insertedId: Id)

  // ---------------------------------------------------------------------------
  // The token gate

  /** `verifyToken`. A token that is absent or empty is rejected before
      `verify` (the JWT check with the server secret) is consulted; otherwise
      the request goes on exactly when `verify` accepts the token. */
  function VerifyToken(token: Option<string>, verify: string -> Option<Identity>): (r: Option<Identity>)
    ensures token.None? || token.value == "" ==> r.None?
    ensures r.Some? <==> token.Some? && token.value != "" && verify(token.value).Some?
    ensures r.Some? ==> r == verify(token.value)
  {
    if token.None? || token.value == "" then None else verify(token.value)
  }

  // ---------------------------------------------------------------------------
  // Natural order and lookups

  /** The ids of `m` below `n`, in ascending order: a collection scanned in
      natural (insertion) order. */
  function Ascending<D>(m: map<Id, D>, n: nat): (r: seq<Id>)
    ensures forall i :: 0 <= i < |r| ==> r[i] in m && r[i] < n
    ensures forall i, j :: 0 <= i < j < |r| ==> r[i] < r[j]
  {
    if n == 0 then []
    else Ascending(m, n - 1) + (if n - 1 in m then [n - 1] else [])
  }

  /** Every id of `m` below `n` has a place in `Ascending(m, n)`. */
  lemma {:induction false} AscendingComplete<D>(m: map<Id, D>, n: nat, id: Id)
    requires id in m && id < n
    ensures exists i :: 0 <= i < |Ascending(m, n)| && Ascending(m, n)[i] == id
  {
    var prefix := Ascending(m, n - 1);
    var r := prefix + (if n - 1 in m then [n - 1] else []);
    assert r == Ascending(m, n);
    if id == n - 1 {
      assert r[|prefix|] == id;
    } else {
      AscendingComplete(m, n - 1, id);
      var i :| 0 <= i < |prefix| && prefix[i] == id;
      assert r[i] == id;
    }
  }

  /** The first user id below `n`, in natural order, whose email is `email`. */
  function FirstUser(users: map<Id, User>, email: string, n: nat): (r: Option<Id>)
    ensures r.Some? ==> r.value < n && r.value in users && users[r.value].email == email
    ensures r.Some? ==> forall id :: id in users && id < r.value ==> users[id].email != email
    ensures r.None? ==> forall id :: id in users && id < n ==> users[id].email != email
  {
    if n == 0 then None
    else
      var earlier := FirstUser(users, email, n - 1);
      if earlier.Some? then earlier
      else if n - 1 in users && users[n - 1].email == email then Some(n - 1)
      else None
  }

  /** `userCollections.findOne({ email })`: the first stored user with that email. */
  function FindUser(db: Db, email: string): (r: Option<Id>)
    ensures r.Some? ==> r.value in db.users && db.users[r.value].email == email
    ensures Valid(db) && r.None? ==> forall id :: id in db.users ==> db.users[id].email != email
  {
    FirstUser(db.users, email, db.nextId)
  }

  /** In a valid database, a stored user with that email is found, and what is
      found comes no later than it in natural order. */
  lemma FindUserFindsFirst(db: Db, email: string, id: Id)
    requires Valid(db)
    requires id in db.users && db.users[id].email == email
    ensures FindUser(db, email).Some? && FindUser(db, email).value <= id
    ensures forall other :: other in db.users && other < FindUser(db, email).value ==> db.users[other].email != email
  {
  }

  // ---------------------------------------------------------------------------
  // Route handlers

  /** The document `/users/:email` inserts: the posted body spread out, then
      `role: "customer"` and the time stamp written over it. */
  function NewUser(body: UserBody, now: int): (u: User)
    ensures u.role == "customer" && u.timeStemp == now
    ensures u.name == body.name && u.email == body.email && u.image == body.image
  {
    User(body.name, body.email, body.image, "customer", now)
  }

  /** POST `/users/:email` (no token needed). Looks the user up by the email in
      the path; if found, replies with it and changes nothing; otherwise inserts
      the posted body, whose own email is the one stored. */
  function SaveUser(db: Db, email: string, body: UserBody, now: int): (r: (Db, UpsertReply))
    ensures r.0.plants == db.plants && r.0.orders == db.orders
    ensures r.1.Existing? <==> FindUser(db, email).Some?
    ensures r.1.Existing? ==> r.0 == db && r.1.user in db.users.Values && r.1.user.email == email
    ensures r.1.InsertedUser? ==> r.1.insertedId == db.nextId && r.0.nextId == db.nextId + 1
    ensures r.1.InsertedUser? ==> r.0.users == db.users[db.nextId := NewUser(body, now)]
    ensures Valid(db) ==> Valid(r.0) && (r.1.InsertedUser? ==> r.1.insertedId !in db.users)
  {
    match FindUser(db, email)
    case Some(id) => (db, Existing(db.users[id]))
    case None =>
      (db.(users := db.users[db.nextId := NewUser(body, now)], nextId := db.nextId + 1),
       InsertedUser(db.nextId))
  }

  /** POST `/plants`: behind the gate, inserts the posted plant under a new id. */
  function PostPlant(db: Db, token: Option<string>, verify: string -> Option<Identity>, plant: Plant): (r: (Db, Reply<Id>))
    ensures r.1.Ok? <==> VerifyToken(token, verify).Some?
    ensures !r.1.Conflict? && (r.1.Unauthorized? ==> r.0 == db)
    ensures r.0.users == db.users && r.0.orders == db.orders
    ensures r.1.Ok? ==> r.1.body == db.nextId && r.0.nextId == db.nextId + 1
    ensures r.1.Ok? ==> r.0.plants == db.plants[r.1.body := plant]
    ensures Valid(db) ==> Valid(r.0) && (r.1.Ok? ==> r.1.body !in db.plants)
  {
    if VerifyToken(token, verify).None? then (db, Unauthorized)
    else (db.(plants := db.plants[db.nextId := plant], nextId := db.nextId + 1), Ok(db.nextId))
  }

  /** GET `/plants`: every plant, in natural order (no gate). */
  function GetPlants(db: Db): (r: seq<Plant>)
    ensures |r| == |Ascending(db.plants, db.nextId)| <= db.nextId
    ensures forall i :: 0 <= i < |r| ==> r[i] == db.plants[Ascending(db.plants, db.nextId)[i]]
    ensures forall i :: 0 <= i < |r| ==> r[i] in db.plants.Values
  {
    var ids := Ascending(db.plants, db.nextId);
    assert |ids| <= db.nextId by { AscendingLength(db.plants, db.nextId); }
    seq(|ids|, i requires 0 <= i < |ids| => db.plants[ids[i]])
  }

  /** The listing is complete: in a valid database every stored plant is in it,
      at the place its id takes in natural order. */
  lemma GetPlantsComplete(db: Db, id: Id)
    requires Valid(db)
    requires id in db.plants
    ensures exists i :: 0 <= i < |GetPlants(db)| && Ascending(db.plants, db.nextId)[i] == id
                        && GetPlants(db)[i] == db.plants[id]
  {
    AscendingComplete(db.plants, db.nextId, id);
  }

  /** GET `/plant/:id`: the plant, or nothing (`null`) when the id is unknown. */
  function GetPlant(db: Db, id: Id): (r: Option<Plant>)
    ensures r.Some? <==> id in db.plants
    ensures r.Some? ==> r.value == db.plants[id]
  {
    if id in db.plants then Some(db.plants[id]) else None
  }

  /** POST `/orders`: behind the gate, inserts the posted order as it is. Nothing
      checks that its plant exists or that its quantity is in stock. */
  function PostOrder(db: Db, token: Option<string>, verify: string -> Option<Identity>, order: Order): (r: (Db, Reply<Id>))
    ensures r.1.Ok? <==> VerifyToken(token, verify).Some?
    ensures !r.1.Conflict? && (r.1.Unauthorized? ==> r.0 == db)
    ensures r.0.users == db.users && r.0.plants == db.plants
    ensures r.1.Ok? ==> r.1.body == db.nextId && r.0.nextId == db.nextId + 1
    ensures r.1.Ok? ==> r.0.orders == db.orders[r.1.body := order]
    ensures Valid(db) ==> Valid(r.0) && (r.1.Ok? ==> r.1.body !in db.orders)
  {
    if VerifyToken(token, verify).None? then (db, Unauthorized)
    else (db.(orders := db.orders[db.nextId := order], nextId := db.nextId + 1), Ok(db.nextId))
  }

  /** The signed amount the quantity route adds: `quantityToUpdate` when the
      status is exactly "increase", its negation for any other status or none. */
  function Delta(quantityToUpdate: int, status: Option<string>): (amount: int)
    ensures amount == quantityToUpdate || amount == -quantityToUpdate
    ensures status == Some("increase") || quantityToUpdate == 0 <==> amount == quantityToUpdate
  {
    if status == Some("increase") then quantityToUpdate else -quantityToUpdate
  }

  /** `$inc: { quantity: amount }` on the plant with that id, if there is one. */
  function Inc(plants: map<Id, Plant>, id: Id, amount: int): (r: map<Id, Plant>)
    ensures r.Keys == plants.Keys
    ensures forall other :: other in plants && other != id ==> r[other] == plants[other]
    ensures id in plants ==> r[id] == plants[id].(quantity := plants[id].quantity + amount)
  {
    if id in plants then plants[id := plants[id].(quantity := plants[id].quantity + amount)] else plants
  }

  /** PATCH `/plants/quantity/:id`: behind the gate, adds `Delta` to the plant's
      quantity with no lower bound. */
  function PatchQuantity(db: Db, token: Option<string>, verify: string -> Option<Identity>,
                         id: Id, quantityToUpdate: int, status: Option<string>): (r: (Db, Reply<UpdateResult>))
    ensures r.1.Ok? <==> VerifyToken(token, verify).Some?
    ensures !r.1.Conflict? && (r.1.Unauthorized? ==> r.0 == db)
    ensures r.0.users == db.users && r.0.orders == db.orders && r.0.nextId == db.nextId
    ensures r.0.plants.Keys == db.plants.Keys
    ensures r.1.Ok? ==> r.1.body.matchedCount == (if id in db.plants then 1 else 0)
    ensures r.1.Ok? ==> r.1.body.modifiedCount <= r.1.body.matchedCount
    ensures Valid(db) ==> Valid(r.0)
  {
    if VerifyToken(token, verify).None? then (db, Unauthorized)
    else
      var amount := Delta(quantityToUpdate, status);
      var matched := if id in db.plants then 1 else 0;
      var modified := if id in db.plants && amount != 0 then 1 else 0;
      (db.(plants := Inc(db.plants, id, amount)), Ok(UpdateResult(matched, modified)))
  }

  /** The aggregation's `$match` followed by the join: this order is listed
      when it belongs to `email` and its plant exists. */
  predicate Listed(o: Order, plants: map<Id, Plant>, email: string) {
    o.customer.email == email && o.plantId in plants
  }

  /** The listing row the `$lookup`, `$unwind`, `$addFields` and `$project`
      stages make of a listed order. */
  function View(id: Id, o: Order, p: Plant): (v: OrderView)
    ensures v.id == id && v.order == o
    ensures v.name == p.name && v.category == p.category && v.image == p.image
  {
    OrderView(id, o, p.name, p.category, p.image)
  }

  /** The aggregation over the orders `ids`, in their order. */
  function Join(ids: seq<Id>, orders: map<Id, Order>, plants: map<Id, Plant>, email: string): (r: seq<OrderView>)
    requires forall i :: 0 <= i < |ids| ==> ids[i] in orders
    requires forall i, j :: 0 <= i < j < |ids| ==> ids[i] < ids[j]
    ensures |r| <= |ids|
    ensures forall k :: 0 <= k < |r| ==> r[k].id in orders
    ensures |ids| > 0 ==> forall k :: 0 <= k < |r| ==> ids[0] <= r[k].id
    ensures forall k :: 0 <= k < |r| ==>
      var o := orders[r[k].id];
      Listed(o, plants, email) && r[k] == View(r[k].id, o, plants[o.plantId])
    ensures forall k, l :: 0 <= k < l < |r| ==> r[k].id < r[l].id
  {
    if ids == [] then []
    else
      var rest := Join(ids[1..], orders, plants, email);
      var o := orders[ids[0]];
      if Listed(o, plants, email) then
        [View(ids[0], o, plants[o.plantId])] + rest
      else rest
  }

  /** The listing an authorised caller gets for `email`, in natural order. */
  function Listing(db: Db, email: string): (r: seq<OrderView>)
    ensures forall k :: 0 <= k < |r| ==>
      r[k].id in db.orders && r[k].order == db.orders[r[k].id] && Listed(r[k].order, db.plants, email)
    ensures forall k, l :: 0 <= k < l < |r| ==> r[k].id < r[l].id
  {
    Join(Ascending(db.orders, db.nextId), db.orders, db.plants, email)
  }

  /** GET `/orders/:email`: behind the gate, the listing for the email in the
      path. The caller's own identity is not compared with it. */
  function GetOrders(db: Db, token: Option<string>, verify: string -> Option<Identity>, email: string): (r: Reply<seq<OrderView>>)
    ensures r.Ok? <==> VerifyToken(token, verify).Some?
    ensures !r.Conflict?
    ensures r.Ok? ==> forall k :: 0 <= k < |r.body| ==> r.body[k].order.customer.email == email
  {
    if VerifyToken(token, verify).None? then Unauthorized else Ok(Listing(db, email))
  }

  /** DELETE `/orders/:id`: behind the gate; a delivered order is refused with
      409, any other id is passed to `deleteOne`, which reports how many
      orders it removed (0 for an unknown id). */
  function DeleteOrder(db: Db, token: Option<string>, verify: string -> Option<Identity>, id: Id): (r: (Db, Reply<nat>))
    ensures r.1.Unauthorized? <==> VerifyToken(token, verify).None?
    ensures r.1.Conflict? <==> VerifyToken(token, verify).Some? && id in db.orders && db.orders[id].status == "delivered"
    ensures !r.1.Ok? ==> r.0 == db
    ensures r.0.users == db.users && r.0.plants == db.plants && r.0.nextId == db.nextId
    ensures r.0.orders.Keys <= db.orders.Keys
    ensures r.1.Ok? ==> r.1.body <= 1 && (r.1.body == 1 <==> id in db.orders) && id !in r.0.orders
    ensures Valid(db) ==> Valid(r.0)
  {
    if VerifyToken(token, verify).None? then (db, Unauthorized)
    else if id in db.orders && db.orders[id].status == "delivered" then (db, Conflict)
    else (db.(orders := db.orders - {id}), Ok(if id in db.orders then 1 else 0))
  }

  // ---------------------------------------------------------------------------
  // Helper facts

  lemma {:induction false} AscendingLength<D>(m: map<Id, D>, n: nat)
    ensures |Ascending(m, n)| <= n
  {
    if n > 0 { AscendingLength(m, n - 1); }
  }

  /** The set of ids a listing shows. */
  function ViewIds(r: seq<OrderView>): (ids: set<Id>) {
    set k | 0 <= k < |r| :: r[k].id
  }

  // ---------------------------------------------------------------------------
  // Properties

  /** A request with no token, an empty one, or one `verify` rejects gets 401
      from every protected route, and no collection changes. */
  lemma UnauthorizedChangesNothing(db: Db, token: Option<string>, verify: string -> Option<Identity>,
                                   plant: Plant, order: Order, id: Id, quantityToUpdate: int,
                                   status: Option<string>, email: string)
    requires token.None? || token.value == "" || verify(token.value).None?
    ensures PostPlant(db, token, verify, plant) == (db, Unauthorized)
    ensures PostOrder(db, token, verify, order) == (db, Unauthorized)
    ensures PatchQuantity(db, token, verify, id, quantityToUpdate, status) == (db, Unauthorized)
    ensures DeleteOrder(db, token, verify, id) == (db, Unauthorized)
    ensures GetOrders(db, token, verify, email) == Unauthorized
  {
  }

  /** With status "increase" the plant's quantity becomes q + d; with any other
      status, or none, it becomes q - d. Only that plant's quantity changes. */
  lemma QuantityAdjustment(db: Db, token: Option<string>, verify: string -> Option<Identity>,
                           id: Id, d: int, status: Option<string>)
    requires VerifyToken(token, verify).Some?
    requires id in db.plants
    ensures var db' := PatchQuantity(db, token, verify, id, d, status).0;
      && db'.users == db.users && db'.orders == db.orders && db'.nextId == db.nextId
      && db'.plants.Keys == db.plants.Keys
      && db'.plants[id] == db.plants[id].(quantity := db'.plants[id].quantity)
      && db'.plants[id].quantity == (if status == Some("increase") then db.plants[id].quantity + d
                                     else db.plants[id].quantity - d)
      && forall other :: other in db.plants && other != id ==> db'.plants[other] == db.plants[other]
  {
  }

  /** Decreasing by d and then increasing by d restores the database exactly. */
  lemma DecreaseThenIncrease(db: Db, token: Option<string>, verify: string -> Option<Identity>, id: Id, d: int)
    requires VerifyToken(token, verify).Some?
    ensures PatchQuantity(PatchQuantity(db, token, verify, id, d, Some("decrease")).0,
                          token, verify, id, d, Some("increase")).0 == db
  {
    var db1 := PatchQuantity(db, token, verify, id, d, Some("decrease")).0;
    var db2 := PatchQuantity(db1, token, verify, id, d, Some("increase")).0;
    if id in db.plants {
      assert db2.plants[id] == db.plants[id];
      assert db2.plants == db.plants;
    }
  }

  /** Nothing stops a decrease below zero: taking more than the stock leaves a
      negative quantity, and the reply still reports a match. */
  lemma DecreaseIsNotClamped(db: Db, token: Option<string>, verify: string -> Option<Identity>, id: Id, d: int)
    requires VerifyToken(token, verify).Some?
    requires id in db.plants && d > db.plants[id].quantity
    ensures var r := PatchQuantity(db, token, verify, id, d, Some("decrease"));
      r.0.plants[id].quantity < 0 && r.1 == Ok(UpdateResult(1, if d != 0 then 1 else 0))
  {
  }

  /** When a user with the path's email is stored, `/users/:email` replies with
      the first such user and changes nothing. */
  lemma SaveUserExisting(db: Db, email: string, body: UserBody, now: int, id: Id)
    requires Valid(db)
    requires id in db.users && db.users[id].email == email
    ensures var r := SaveUser(db, email, body, now);
      && r.0 == db && r.1.Existing? && r.1.user.email == email
      && exists first :: first in db.users && first <= id && r.1.user == db.users[first]
           && forall other :: other in db.users && other < first ==> db.users[other].email != email
  {
  }

  /** A user inserted by `/users/:email` is a customer, whatever role its body claimed. */
  lemma SaveUserForcesCustomer(db: Db, email: string, body: UserBody, now: int)
    requires Valid(db)
    requires forall id :: id in db.users ==> db.users[id].email != email
    ensures var r := SaveUser(db, email, body, now);
      && r.1 == InsertedUser(db.nextId)
      && r.0.users == db.users[db.nextId := User(body.name, body.email, body.image, "customer", now)]
      && db.nextId !in db.users
      && r.0.plants == db.plants && r.0.orders == db.orders
  {
  }

  /** Saving a user whose body carries the path's email, and then saving again
      (with any body, at any time), leaves the database as the first call left it. */
  lemma SaveUserIdempotent(db: Db, email: string, body: UserBody, now: int, body': UserBody, later: int)
    requires Valid(db)
    requires body.email == email
    ensures var db1 := SaveUser(db, email, body, now).0;
      SaveUser(db1, email, body', later).0 == db1 && SaveUser(db1, email, body', later).1.Existing?
  {
    var db1 := SaveUser(db, email, body, now).0;
    var found := FindUser(db, email);
    if found.Some? {
      assert db1 == db;
      SaveUserExisting(db, email, body', later, found.value);
    } else {
      assert db1 == db.(users := db.users[db.nextId := NewUser(body, now)], nextId := db.nextId + 1);
      assert Valid(db1);
      assert db1.users[db.nextId].email == email;
      SaveUserExisting(db1, email, body', later, db.nextId);
    }
  }

  /** The gap in the upsert: when the body's email differs from the path's and
      no user has the path's email, each call inserts another user. */
  lemma SaveUserMismatchNotIdempotent(db: Db, email: string, body: UserBody, now: int)
    requires Valid(db)
    requires body.email != email
    requires forall id :: id in db.users ==> db.users[id].email != email
    ensures var db1 := SaveUser(db, email, body, now).0;
      var db2 := SaveUser(db1, email, body, now).0;
      |db2.users| == |db.users| + 2
  {
    var db1 := SaveUser(db, email, body, now).0;
    assert FindUser(db, email).None?;
    assert db1 == db.(users := db.users[db.nextId := NewUser(body, now)], nextId := db.nextId + 1);
    assert db.nextId !in db.users;
    assert FindUser(db1, email).None?;
    var db2 := SaveUser(db1, email, body, now).0;
    assert db2 == db1.(users := db1.users[db1.nextId := NewUser(body, now)], nextId := db1.nextId + 1);
    assert db1.nextId !in db1.users;
  }

  /** Deleting a delivered order is refused with 409 and changes nothing. */
  lemma DeleteDeliveredConflicts(db: Db, token: Option<string>, verify: string -> Option<Identity>, id: Id)
    requires VerifyToken(token, verify).Some?
    requires id in db.orders && db.orders[id].status == "delivered"
    ensures DeleteOrder(db, token, verify, id) == (db, Conflict)
  {
  }

  /** Any other delete removes exactly the order with that id (nothing for an
      unknown id) and reports how many it removed. */
  lemma DeleteRemovesOnlyThatOrder(db: Db, token: Option<string>, verify: string -> Option<Identity>, id: Id)
    requires VerifyToken(token, verify).Some?
    requires id !in db.orders || db.orders[id].status != "delivered"
    ensures var r := DeleteOrder(db, token, verify, id);
      && r.0.orders.Keys == db.orders.Keys - {id}
      && (forall other :: other in r.0.orders ==> r.0.orders[other] == db.orders[other])
      && r.0.users == db.users && r.0.plants == db.plants && r.0.nextId == db.nextId
      && r.1 == Ok(if id in db.orders then 1 else 0)
  {
  }

  /** The ids among `ids` whose orders are listed for `email`. */
  function ListedIds(ids: seq<Id>, orders: map<Id, Order>, plants: map<Id, Plant>, email: string): (r: set<Id>)
    requires forall i :: 0 <= i < |ids| ==> ids[i] in orders
  {
    if ids == [] then {}
    else (if Listed(orders[ids[0]], plants, email) then {ids[0]} else {}) + ListedIds(ids[1..], orders, plants, email)
  }

  lemma {:induction false} ListedIdsMembers(ids: seq<Id>, orders: map<Id, Order>, plants: map<Id, Plant>, email: string, x: Id)
    requires forall i :: 0 <= i < |ids| ==> ids[i] in orders
    ensures x in ListedIds(ids, orders, plants, email) <==> x in ids && Listed(orders[x], plants, email)
  {
    if ids != [] {
      ListedIdsMembers(ids[1..], orders, plants, email, x);
      assert x in ids <==> x == ids[0] || x in ids[1..] by {
        assert ids == [ids[0]] + ids[1..];
      }
    }
  }

  lemma ViewIdsCons(v: OrderView, rest: seq<OrderView>)
    ensures ViewIds([v] + rest) == {v.id} + ViewIds(rest)
  {
    var r := [v] + rest;
    forall x | x in ViewIds(r) ensures x in {v.id} + ViewIds(rest) {
      var k :| 0 <= k < |r| && r[k].id == x;
      if k > 0 { assert rest[k - 1].id == x; }
    }
    forall x | x in ViewIds(rest) ensures x in ViewIds(r) {
      var k :| 0 <= k < |rest| && rest[k].id == x;
      assert r[k + 1].id == x;
    }
    assert r[0].id == v.id;
  }

  /** The join shows exactly the orders among `ids` that are listed. */
  lemma {:induction false} JoinShowsListed(ids: seq<Id>, orders: map<Id, Order>, plants: map<Id, Plant>, email: string)
    requires forall i :: 0 <= i < |ids| ==> ids[i] in orders
    requires forall i, j :: 0 <= i < j < |ids| ==> ids[i] < ids[j]
    ensures ViewIds(Join(ids, orders, plants, email)) == ListedIds(ids, orders, plants, email)
  {
    if ids != [] {
      JoinShowsListed(ids[1..], orders, plants, email);
      var rest := Join(ids[1..], orders, plants, email);
      var o := orders[ids[0]];
      if Listed(o, plants, email) {
        ViewIdsCons(View(ids[0], o, plants[o.plantId]), rest);
      }
    }
  }

  /** The per-email listing shows exactly the stored orders of that customer
      whose plant exists (an order whose plant is gone is dropped), each with
      that plant's name, category and image, in natural order. */
  lemma ListingIsFilterAndJoin(db: Db, email: string)
    requires Valid(db)
    ensures ViewIds(Listing(db, email))
         == set id | id in db.orders && db.orders[id].customer.email == email && db.orders[id].plantId in db.plants
    ensures forall k :: 0 <= k < |Listing(db, email)| ==>
      var v := Listing(db, email)[k];
      && v.id in db.orders && v.order == db.orders[v.id]
      && v.order.customer.email == email
      && v.order.plantId in db.plants
      && v.name == db.plants[v.order.plantId].name
      && v.category == db.plants[v.order.plantId].category
      && v.image == db.plants[v.order.plantId].image
    ensures forall k, l :: 0 <= k < l < |Listing(db, email)| ==> Listing(db, email)[k].id < Listing(db, email)[l].id
  {
    var ids := Ascending(db.orders, db.nextId);
    JoinShowsListed(ids, db.orders, db.plants, email);
    var want := set id | id in db.orders && db.orders[id].customer.email == email && db.orders[id].plantId in db.plants;
    forall x ensures x in ListedIds(ids, db.orders, db.plants, email) <==> x in want {
      ListedIdsMembers(ids, db.orders, db.plants, email, x);
      if x in db.orders {
        AscendingComplete(db.orders, db.nextId, x);
      }
    }
  }

  /** The listing does not depend on who asks: any two accepted tokens, whatever
      identities they decode to, get the same rows for the same email. */
  lemma ListingIgnoresCaller(db: Db, token1: Option<string>, token2: Option<string>,
                             verify: string -> Option<Identity>, email: string)
    requires VerifyToken(token1, verify).Some? && VerifyToken(token2, verify).Some?
    ensures GetOrders(db, token1, verify, email) == GetOrders(db, token2, verify, email) == Ok(Listing(db, email))
  {
  }

}
