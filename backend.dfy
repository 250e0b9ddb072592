/** The running server: the three collections as fields that the route
    handlers update in place, as `insertOne`, `updateOne` and `deleteOne` do.
    Each handler is proved to leave the collections and reply exactly as the
    matching Store function says, so the Store lemmas carry over to it. */
module Backend {
  import opened Records
  import Store

  class Server {
    var users: map<Id, User>
    var plants: map<Id, Plant>
    var orders: map<Id, Order>
    var nextId: Id

    /** The collections as one value. */
    function State(): Store.Db
      reads this
    {
      Store.Db(users, plants, orders, nextId)
    }

    ghost predicate Valid()
      reads this
    {
      Store.Valid(State())
    }

    /** A server over empty collections. */
    constructor ()
      ensures Valid() && State() == Store.Db(map[], map[], map[], 0)
    {
      users, plants, orders, nextId := map[], map[], map[], 0;
    }

    /** POST `/users/:email`. */
    method SaveUser(email: string, body: UserBody, now: int) returns (reply: Store.UpsertReply)
      requires Valid()
      modifies this
      ensures Valid()
      ensures (State(), reply) == Store.SaveUser(old(State()), email, body, now)
    {
      var existing := Store.FindUser(State(), email);
      if existing.Some? {
        return Store.Existing(users[existing.value]);
      }
      users := users[nextId := Store.NewUser(body, now)];
      reply := Store.InsertedUser(nextId);
      nextId := nextId + 1;
    }

    /** POST `/plants`. */
    method PostPlant(token: Option<string>, verify: string -> Option<Identity>, plant: Plant)
      returns (reply: Store.Reply<Id>)
      requires Valid()
      modifies this
      ensures Valid()
      ensures (State(), reply) == Store.PostPlant(old(State()), token, verify, plant)
    {
      if Store.VerifyToken(token, verify).None? {
        return Store.Unauthorized;
      }
      plants := plants[nextId := plant];
      reply := Store.Ok(nextId);
      nextId := nextId + 1;
    }

    /** GET `/plants`: changes nothing. */
    method GetPlants() returns (result: seq<Plant>)
      ensures result == Store.GetPlants(State())
      ensures forall i :: 0 <= i < |result| ==> result[i] in plants.Values
    {
      result := Store.GetPlants(State());
    }

    /** GET `/plant/:id`: changes nothing. */
    method GetPlant(id: Id) returns (result: Option<Plant>)
      ensures result == Store.GetPlant(State(), id)
      ensures result.Some? <==> id in plants
    {
      result := if id in plants then Some(plants[id]) else None;
    }

    /** POST `/orders`. */
    method PostOrder(token: Option<string>, verify: string -> Option<Identity>, order: Order)
      returns (reply: Store.Reply<Id>)
      requires Valid()
      modifies this
      ensures Valid()
      ensures (State(), reply) == Store.PostOrder(old(State()), token, verify, order)
    {
      if Store.VerifyToken(token, verify).None? {
        return Store.Unauthorized;
      }
      orders := orders[nextId := order];
      reply := Store.Ok(nextId);
      nextId := nextId + 1;
    }

    /** PATCH `/plants/quantity/:id`: `$inc` by the signed amount. */
    method PatchQuantity(token: Option<string>, verify: string -> Option<Identity>,
                         id: Id, quantityToUpdate: int, status: Option<string>)
      returns (reply: Store.Reply<Store.UpdateResult>)
      requires Valid()
      modifies this
      ensures Valid()
      ensures (State(), reply) == Store.PatchQuantity(old(State()), token, verify, id, quantityToUpdate, status)
    {
      if Store.VerifyToken(token, verify).None? {
        return Store.Unauthorized;
      }
      var amount := -quantityToUpdate;
      if status == Some("increase") {
        amount := quantityToUpdate;
      }
      if id in plants {
        var p := plants[id];
        plants := plants[id := p.(quantity := p.quantity + amount)];
        reply := Store.Ok(Store.UpdateResult(1, if amount != 0 then 1 else 0));
      } else {
        reply := Store.Ok(Store.UpdateResult(0, 0));
      }
    }

    /** GET `/orders/:email`: changes nothing. */
    method GetOrders(token: Option<string>, verify: string -> Option<Identity>, email: string)
      returns (reply: Store.Reply<seq<OrderView>>)
      ensures reply == Store.GetOrders(State(), token, verify, email)
      ensures reply.Ok? ==> forall k :: 0 <= k < |reply.body| ==> reply.body[k].order.customer.email == email
    {
      if Store.VerifyToken(token, verify).None? {
        return Store.Unauthorized;
      }
      reply := Store.Ok(Store.Listing(State(), email));
    }

    /** DELETE `/orders/:id`: refused for a delivered order. */
    method DeleteOrder(token: Option<string>, verify: string -> Option<Identity>, id: Id)
      returns (reply: Store.Reply<nat>)
      requires Valid()
      modifies this
      ensures Valid()
      ensures (State(), reply) == Store.DeleteOrder(old(State()), token, verify, id)
    {
      if Store.VerifyToken(token, verify).None? {
        return Store.Unauthorized;
      }
      var found := if id in orders then Some(orders[id]) else None;
      if found.Some? && found.value.status == "delivered" {
        return Store.Conflict;
      }
      reply := Store.Ok(if id in orders then 1 else 0);
      orders := orders - {id};
    }
  }
}
