/** The documents the storefront keeps and exchanges: users, plants, orders,
    and the order view the per-customer listing returns. Shared by the server
    model (Store, Backend) and the purchase modal (PurchaseFlow). */
module Records {

  /** A document id. The database issues ObjectIds; here they are naturals
      handed out in increasing order, so ascending id is insertion order. */
  type Id = nat

  datatype Option<T> = None | Some(value: T)

  /** The decoded payload of a session token: the identity the client signed in with. */
  datatype Identity = Identity(email: string)

  /** The `{ name, email, image }` record used for a customer and for a seller. */
  datatype Contact = Contact(name: string, email: string, image: string)

  /** What a client posts to `/users/:email`. Its `role` is whatever the client
      chose to send. */
  datatype UserBody = UserBody(name: string, email: string, image: string, role: string)

  /** A stored user: the posted body with `role` and `timeStemp` written over it. */
  datatype User = User(name: string, email: string, image: string, role: string, timeStemp: int)

  /** A catalog entry. `price` is in cents; `quantity` is the stock, which the
      server lets become negative. */
  datatype Plant = Plant(
    name: string,
    category: string,
    description: string,
    price: int,
    quantity: int,
    image: string,
    seller: Contact)

  /** A purchase record, exactly as the modal posts it (its `purchaseInfo`). */
  datatype Order = Order(
    customer: Contact,
    plantId: Id,
    price: int,
    quantity: int,
    seller: string,
    address: string,
    status: string)

  /** One row of the per-customer listing: the stored order, its id, and the
      plant's name, category and image copied in. It has no field for the
      joined plant itself. */
  datatype OrderView = OrderView(id: Id, order: Order, name: string, category: string, image: string)
}
