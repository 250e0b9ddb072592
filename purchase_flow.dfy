/** The purchase modal of the client: its component state (`totalQuantity`,
    `totalPrice`, `purchaseInfo`), the quantity and address inputs that change
    it, and `handelPurchase`, which posts the order and then asks the server to
    decrement the plant's stock. The edits are functions on a `Draft` value
    (with the lemmas), the modal itself is a class whose setters are proved
    against them, and `Checkout` composes the two server calls. */
module PurchaseFlow {
  import opened Records
  import Store
  import Backend

  /** The error toasts the quantity input raises (spelled as the client spells them). */
  const ExceedsStock := "Quantity exceeds availabel quantity"
  const BelowOne := "Quantity cannot be less then 1"

  /** The modal's state: the displayed quantity and price, and the order it will post. */
  datatype Draft = Draft(totalQuantity: int, totalPrice: int, info: Order)

  /** One user input: a number typed in the quantity box or text typed in the address box. */
  datatype Edit = QuantityInput(value: int) | AddressInput(address: string)

  /** The state on first render: quantity 1 at the plant's unit price, an
      empty address, status "pending". */
  function Initial(plantId: Id, plant: Plant, user: Contact): (d: Draft)
    ensures d.totalQuantity == d.info.quantity == 1
    ensures PriceConsistent(d, plant.price)
  {
    Draft(1, plant.price, Order(user, plantId, plant.price, 1, plant.seller.email, "", "pending"))
  }

  /** `handelTotalQuantity(value)` against the plant's `stock` and unit price:
      the new state and the error toast, if any. */
  function QuantityChanged(d: Draft, stock: int, unitPrice: int, value: int): (r: (Draft, Option<string>))
    ensures r.1.None? <==> 0 <= value <= stock
    ensures r.1.Some? ==> r.0.info == d.info && r.0.totalPrice == d.totalPrice
    ensures r.1.None? ==> r.0.totalQuantity == r.0.info.quantity == value
    ensures PriceConsistent(d, unitPrice) ==> PriceConsistent(r.0, unitPrice)
  {
    if value > stock then (d.(totalQuantity := stock), Some(ExceedsStock))
    else if value < 0 then (d.(totalQuantity := 1), Some(BelowOne))
    else (Draft(value, value * unitPrice, d.info.(quantity := value, price := value * unitPrice)), None)
  }

  /** The address input's setter: it changes the order's address and nothing else. */
  function AddressChanged(d: Draft, address: string): (d': Draft)
    ensures d'.info.address == address
    ensures d'.totalQuantity == d.totalQuantity && d'.totalPrice == d.totalPrice
    ensures d'.info.(address := d.info.address) == d.info
  {
    d.(info := d.info.(address := address))
  }

  /** One input applied to the state. */
  function Apply(d: Draft, stock: int, unitPrice: int, e: Edit): (d': Draft) {
    match e
    case QuantityInput(v) => QuantityChanged(d, stock, unitPrice, v).0
    case AddressInput(a) => AddressChanged(d, a)
  }

  /** The state after the user's inputs, in order. */
  function Replay(d: Draft, stock: int, unitPrice: int, edits: seq<Edit>): (d': Draft)
    decreases |edits|
  {
    if edits == [] then d else Replay(Apply(d, stock, unitPrice, edits[0]), stock, unitPrice, edits[1..])
  }

  /** The displayed price is the price the order carries, and that is its
      quantity times the unit price. */
  predicate PriceConsistent(d: Draft, unitPrice: int) {
    d.totalPrice == d.info.price && d.info.price == d.info.quantity * unitPrice
  }

  /** `handelPurchase` against a server in state `db`. The order is posted with
      `info`; only if that post reached the server and was accepted is the
      decrement, by `totalQuantity` and with status "decrease", sent. Whether
      each request reaches the server is a parameter (the network). The
      boolean is true when both calls succeeded. */
  function Checkout(db: Store.Db, d: Draft, plantId: Id, token: Option<string>,
                    verify: string -> Option<Identity>, postReaches: bool, patchReaches: bool): (r: (Store.Db, bool))
    ensures !postReaches ==> r == (db, false)
    ensures r.0.users == db.users && r.0.plants.Keys == db.plants.Keys
    ensures r.0.orders == db.orders || r.0.orders == db.orders[db.nextId := d.info]
    ensures Store.Valid(db) ==> Store.Valid(r.0)
  {
    if !postReaches then (db, false)
    else
      var posted := Store.PostOrder(db, token, verify, d.info);
      if !posted.1.Ok? || !patchReaches then (posted.0, false)
      else
        var patched := Store.PatchQuantity(posted.0, token, verify, plantId, d.totalQuantity, Some("decrease"));
        (patched.0, patched.1.Ok?)
  }

  // ---------------------------------------------------------------------------
  // Properties of the edits

  /** The first render posts, if nothing is edited, one plant at the unit price
      with an empty address and status "pending"; displayed and posted
      quantities agree. */
  lemma InitialDraft(plantId: Id, plant: Plant, user: Contact)
    ensures var d := Initial(plantId, plant, user);
      && d.info.status == "pending" && d.info.address == ""
      && d.info.quantity == 1 && d.info.price == plant.price
      && d.info.customer == user && d.info.plantId == plantId && d.info.seller == plant.seller.email
      && d.totalQuantity == d.info.quantity
      && PriceConsistent(d, plant.price)
  {
  }

  /** The three cases of the quantity input. Above the stock, the displayed
      quantity is clamped to the stock; below zero, it is reset to 1; in both
      an error is raised and neither the displayed price nor the order changes.
      Otherwise (0 included) quantity and price are set in both places and
      nothing else in the order changes. */
  lemma QuantityInputCases(d: Draft, stock: int, unitPrice: int, value: int)
    ensures var r := QuantityChanged(d, stock, unitPrice, value);
      && (value > stock ==>
            r.0 == Draft(stock, d.totalPrice, d.info) && r.1 == Some(ExceedsStock))
      && (value <= stock && value < 0 ==>
            r.0 == Draft(1, d.totalPrice, d.info) && r.1 == Some(BelowOne))
      && (0 <= value <= stock ==>
            && r.1.None?
            && r.0.totalQuantity == r.0.info.quantity == value
            && r.0.totalPrice == r.0.info.price == value * unitPrice
            && r.0.info == d.info.(quantity := value, price := value * unitPrice))
  {
  }

  /** Whatever the user types, the displayed price stays the price the order
      carries, and that stays quantity times unit price. */
  lemma {:induction false} EditsKeepPriceConsistent(d: Draft, stock: int, unitPrice: int, edits: seq<Edit>)
    requires PriceConsistent(d, unitPrice)
    ensures PriceConsistent(Replay(d, stock, unitPrice, edits), unitPrice)
    decreases |edits|
  {
    if edits != [] {
      EditsKeepPriceConsistent(Apply(d, stock, unitPrice, edits[0]), stock, unitPrice, edits[1..]);
    }
  }

  /** Whatever the user types, the order's quantity is either the one it had
      before the edits or a value from 0 to the stock: the clamp and the reset
      never reach the order. */
  lemma {:induction false} EditsBoundOrderQuantity(d: Draft, stock: int, unitPrice: int, edits: seq<Edit>)
    ensures var q := Replay(d, stock, unitPrice, edits).info.quantity;
      q == d.info.quantity || 0 <= q <= stock
    decreases |edits|
  {
    if edits != [] {
      var d1 := Apply(d, stock, unitPrice, edits[0]);
      EditsBoundOrderQuantity(d1, stock, unitPrice, edits[1..]);
    }
  }

  /** After a clamp, the displayed quantity (which the decrement uses) is the
      stock while the order keeps its earlier quantity; after a reset it is 1.
      So they disagree whenever the order's quantity was something else. */
  lemma RejectedInputSplitsQuantities(d: Draft, stock: int, unitPrice: int, value: int)
    requires value > stock || value < 0
    ensures var d' := QuantityChanged(d, stock, unitPrice, value).0;
      && d'.info == d.info
      && d'.totalQuantity == (if value > stock then stock else 1)
      && (d'.totalQuantity != d'.info.quantity <==> d.info.quantity != (if value > stock then stock else 1))
  {
  }

  // ---------------------------------------------------------------------------
  // Properties of the checkout

  /** With an accepted token and both requests delivered, the draft's order is
      stored under a new id and the plant's stock falls by the DISPLAYED
      quantity, not by the order's; nothing else changes. */
  lemma CheckoutEffect(db: Store.Db, d: Draft, plantId: Id, token: Option<string>, verify: string -> Option<Identity>)
    requires Store.VerifyToken(token, verify).Some?
    requires plantId in db.plants
    ensures var r := Checkout(db, d, plantId, token, verify, true, true);
      && r.1
      && r.0.orders == db.orders[db.nextId := d.info]
      && r.0.nextId == db.nextId + 1
      && r.0.users == db.users
      && r.0.plants == db.plants[plantId := db.plants[plantId].(quantity := db.plants[plantId].quantity - d.totalQuantity)]
  {
  }

  /** The decrement is sent only after the order was stored: whenever checkout
      changed any plant, the draft's order is in the store under a new id. */
  lemma DecrementOnlyAfterOrder(db: Store.Db, d: Draft, plantId: Id, token: Option<string>,
                                verify: string -> Option<Identity>, postReaches: bool, patchReaches: bool)
    ensures var r := Checkout(db, d, plantId, token, verify, postReaches, patchReaches);
      r.0.plants != db.plants ==> r.0.orders == db.orders[db.nextId := d.info]
    ensures var r := Checkout(db, d, plantId, token, verify, postReaches, patchReaches);
      r.1 ==> postReaches && patchReaches && Store.VerifyToken(token, verify).Some?
  {
  }

  /** The two writes are not atomic: if the decrement is lost after the order
      was stored, the order stays and the stock is unchanged. */
  lemma CheckoutNotAtomic(db: Store.Db, d: Draft, plantId: Id, token: Option<string>, verify: string -> Option<Identity>)
    requires Store.VerifyToken(token, verify).Some?
    ensures var r := Checkout(db, d, plantId, token, verify, true, false);
      && !r.1
      && r.0.orders == db.orders[db.nextId := d.info]
      && r.0.plants == db.plants
  {
  }

  // ---------------------------------------------------------------------------
  // The modal as an object

  class PurchaseModal {
    const plantId: Id
    const plant: Plant
    var totalQuantity: int
    var totalPrice: int
    var purchaseInfo: Order
    /** Whether the dialog is shown; `closeModal` clears it. */
    var isOpen: bool

    function State(): Draft
      reads this
    {
      Draft(totalQuantity, totalPrice, purchaseInfo)
    }

    /** The modal opened on `plant` (stored under `plantId`) by `user`. */
    constructor (plantId: Id, plant: Plant, user: Contact)
      ensures this.plantId == plantId && this.plant == plant && isOpen
      ensures State() == Initial(plantId, plant, user)
    {
      this.plantId := plantId;
      this.plant := plant;
      var d := Initial(plantId, plant, user);
      totalQuantity, totalPrice, purchaseInfo := d.totalQuantity, d.totalPrice, d.info;
      isOpen := true;
    }

    /** `handelTotalQuantity(value)`: returns the error toast it raises, if any. */
    method HandelTotalQuantity(value: int) returns (error: Option<string>)
      modifies this
      ensures (State(), error) == QuantityChanged(old(State()), plant.quantity, plant.price, value)
      ensures isOpen == old(isOpen)
    {
      if value > plant.quantity {
        totalQuantity := plant.quantity;
        return Some(ExceedsStock);
      }
      if value < 0 {
        totalQuantity := 1;
        return Some(BelowOne);
      }
      totalQuantity := value;
      totalPrice := value * plant.price;
      purchaseInfo := purchaseInfo.(quantity := value, price := value * plant.price);
      error := None;
    }

    /** The address input's `onChange`. */
    method SetAddress(address: string)
      modifies this
      ensures State() == AddressChanged(old(State()), address)
      ensures isOpen == old(isOpen)
    {
      purchaseInfo := purchaseInfo.(address := address);
    }

    /** `handelPurchase`: post the order, then (only if that succeeded) the
        decrement; close the dialog on every path. */
    method HandelPurchase(server: Backend.Server, token: Option<string>, verify: string -> Option<Identity>,
                          postReaches: bool, patchReaches: bool) returns (ok: bool)
      requires server.Valid()
      modifies this, server
      ensures server.Valid()
      ensures (server.State(), ok) == Checkout(old(server.State()), old(State()), plantId, token, verify, postReaches, patchReaches)
      ensures State() == old(State()) && !isOpen
    {
      ok := false;
      if postReaches {
        var posted := server.PostOrder(token, verify, purchaseInfo);
        if posted.Ok? && patchReaches {
          var patched := server.PatchQuantity(token, verify, plantId, totalQuantity, Some("decrease"));
          ok := patched.Ok?;
        }
      }
      isOpen := false;
    }
  }

  // ---------------------------------------------------------------------------
  // End-to-end runs

  /** A plant with stock 5 at price 10 is added; a customer opens the modal,
      types 2 and buys: the stock becomes 3 and the stored order has quantity 2
      and price 20. */
  method PurchaseExample(token: string, verify: string -> Option<Identity>, seller: Contact, customer: Contact)
    returns (stock: int, orderQuantity: int, orderPrice: int)
    requires token != "" && verify(token).Some?
    ensures stock == 3 && orderQuantity == 2 && orderPrice == 20
  {
    var server := new Backend.Server();
    var plant := Plant("Fern", "Indoor", "", 10, 5, "fern.png", seller);
    var added := server.PostPlant(Some(token), verify, plant);
    var modal := new PurchaseModal(added.body, plant, customer);
    var error := modal.HandelTotalQuantity(2);
    var ok := modal.HandelPurchase(server, Some(token), verify, true, true);
    stock := server.plants[added.body].quantity;
    orderQuantity := server.orders[added.body + 1].quantity;
    orderPrice := server.orders[added.body + 1].price;
  }

  /** The clamp in action: with stock 5 the customer types 2, then 7. The
      input shows 5 (the clamp) but the order still says 2 at price 20; buying
      stores that order and takes all 5 from the stock. */
  method ClampedPurchase(token: string, verify: string -> Option<Identity>, seller: Contact, customer: Contact)
    returns (shown: int, orderQuantity: int, orderPrice: int, stock: int)
    requires token != "" && verify(token).Some?
    ensures shown == 5 && orderQuantity == 2 && orderPrice == 20 && stock == 0
  {
    var server := new Backend.Server();
    var plant := Plant("Fern", "Indoor", "", 10, 5, "fern.png", seller);
    var added := server.PostPlant(Some(token), verify, plant);
    var modal := new PurchaseModal(added.body, plant, customer);
    var error := modal.HandelTotalQuantity(2);
    error := modal.HandelTotalQuantity(7);
    shown := modal.totalQuantity;
    var ok := modal.HandelPurchase(server, Some(token), verify, true, true);
    stock := server.plants[added.body].quantity;
    orderQuantity := server.orders[added.body + 1].quantity;
    orderPrice := server.orders[added.body + 1].price;
  }
}
