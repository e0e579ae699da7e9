/** Shop orders and stock, as functions on the tables they update. */
module ShopModel {
  import opened Sums

  type Id = string

  datatype Product = Product(vendor: Id, price: int, stock: int)
  datatype CartLine = CartLine(product: Id, quantity: nat)
  datatype Item = Item(product: Id, quantity: nat, price: int)
  datatype OrderStatus = PENDING_PAYMENT | PAID | DELIVERED | CANCELLED

  /** `putBack` is history, not a column: how often the items were put back in stock. */
  datatype Order = Order(client: Id, vendor: Id, reference: string, total: int, status: OrderStatus, items: seq<Item>,
                         createdAt: int, putBack: nat)

  /** The tables; an order is known by its place. */
  datatype Shop = Shop(products: map<Id, Product>, orders: seq<Order>)

  datatype Error = PRODUCT_NOT_FOUND | OUT_OF_STOCK | PROVIDER_FAILED | ORDER_NOT_FOUND

  datatype Reply = Placed(total: int) | Refused(error: Error)

  // ---- the cart ----------------------------------------------------------------------------------------------------

  predicate Known(products: map<Id, Product>, cart: seq<CartLine>) {
    forall i :: 0 <= i < |cart| ==> cart[i].product in products
  }

  function ItemOf(products: map<Id, Product>, line: CartLine): Item
    requires line.product in products
  {
    Item(line.product, line.quantity, products[line.product].price)
  }

  function Items(products: map<Id, Product>, cart: seq<CartLine>): seq<Item>
    requires Known(products, cart)
  {
    seq(|cart|, i requires 0 <= i < |cart| => ItemOf(products, cart[i]))
  }

  /** The lines of one vendor's products, in cart order. */
  function ItemsOf(products: map<Id, Product>, cart: seq<CartLine>, vendor: Id): seq<Item>
    requires Known(products, cart)
  {
    if cart == [] then []
    else
      var line := cart[|cart| - 1];
      var before := ItemsOf(products, cart[..|cart| - 1], vendor);
      if products[line.product].vendor == vendor then before + [ItemOf(products, line)] else before
  }

  /** The vendors of the cart, in order of first appearance. */
  function Vendors(products: map<Id, Product>, cart: seq<CartLine>): seq<Id>
    requires Known(products, cart)
  {
    if cart == [] then []
    else
      var before := Vendors(products, cart[..|cart| - 1]);
      var vendor := products[cart[|cart| - 1].product].vendor;
      if vendor in before then before else before + [vendor]
  }

  function PriceOf(): Item -> int {
    (i: Item) => i.price * i.quantity
  }

  function TotalPrice(items: seq<Item>): int {
    Sum(items, PriceOf())
  }

  /** Stock after taking the lines of the cart one after another. */
  function Take(products: map<Id, Product>, cart: seq<CartLine>): map<Id, Product>
    requires Known(products, cart)
  {
    if cart == [] then products
    else
      var before := Take(products, cart[..|cart| - 1]);
      var line := cart[|cart| - 1];
      if line.product in before then
        before[line.product := before[line.product].(stock := before[line.product].stock - line.quantity)]
      else before
  }

  /** Every line finds enough stock when its turn comes. */
  predicate Stocked(products: map<Id, Product>, cart: seq<CartLine>)
    requires Known(products, cart)
  {
    forall i :: 0 <= i < |cart| ==> EnoughFor(products, cart, i)
  }

  predicate EnoughFor(products: map<Id, Product>, cart: seq<CartLine>, i: nat)
    requires Known(products, cart) && i < |cart|
  {
    var now := Take(products, cart[..i]);
    cart[i].product in now && now[cart[i].product].stock >= cart[i].quantity
  }

  /** The rows `find` answers for the cart's products. An empty cart puts no condition on the query, so every product is
      found. */
  function FoundProducts(products: map<Id, Product>, cart: seq<CartLine>): set<Id> {
    if cart == [] then products.Keys else Hits(products, cart)
  }

  function Hits(products: map<Id, Product>, cart: seq<CartLine>): set<Id> {
    set i | 0 <= i < |cart| && cart[i].product in products :: cart[i].product
  }

  function NewOrders(products: map<Id, Product>, cart: seq<CartLine>, client: Id, reference: string, now: int)
    : seq<Order>
    requires Known(products, cart)
  {
    var vendors := Vendors(products, cart);
    seq(|vendors|, i requires 0 <= i < |vendors| =>
      var items := ItemsOf(products, cart, vendors[i]);
      Order(client, vendors[i], reference, TotalPrice(items), PENDING_PAYMENT, items, now, 0))
  }

  /** `provider` says whether the payment could be opened. */
  function Checkout(s: Shop, client: Id, cart: seq<CartLine>, reference: string, now: int, provider: bool)
    : (Shop, Reply)
  {
    if |FoundProducts(s.products, cart)| != |cart| || !Known(s.products, cart) then (s, Refused(PRODUCT_NOT_FOUND))
    else if !Stocked(s.products, cart) then (s, Refused(OUT_OF_STOCK))
    else
      var total := TotalPrice(Items(s.products, cart));
      if total > 0 && !provider then (s, Refused(PROVIDER_FAILED))
      else
        (Shop(Take(s.products, cart), s.orders + NewOrders(s.products, cart, client, reference, now)), Placed(total))
  }

  // ---- settling and cleaning up ------------------------------------------------------------------------------------

  /** `stock_quantity + quantity` for each item; a product that is gone is skipped. */
  function PutBack(products: map<Id, Product>, items: seq<Item>): map<Id, Product> {
    if items == [] then products
    else
      var before, item := PutBack(products, items[..|items| - 1]), items[|items| - 1];
      if item.product in before then
        before[item.product := before[item.product].(stock := before[item.product].stock + item.quantity)]
      else before
  }

  function CancelOrder(s: Shop, n: nat): Shop
    requires n < |s.orders|
  {
    var o := s.orders[n];
    Shop(PutBack(s.products, o.items), s.orders[n := o.(status := CANCELLED, putBack := o.putBack + 1)])
  }

  function PayOrder(s: Shop, n: nat): Shop
    requires n < |s.orders|
  {
    s.(orders := s.orders[n := s.orders[n].(status := PAID)])
  }

  predicate AllPending(s: Shop, reference: string) {
    forall n :: 0 <= n < |s.orders| && s.orders[n].reference == reference ==> s.orders[n].status == PENDING_PAYMENT
  }

  /** The first n orders settled, as far as they carry the reference. */
  function SettleFirst(s: Shop, reference: string, success: bool, n: nat): (r: Shop)
    requires n <= |s.orders|
    ensures |r.orders| == |s.orders|
    ensures forall i :: n <= i < |s.orders| ==> r.orders[i] == s.orders[i]
  {
    if n == 0 then s
    else
      var before := SettleFirst(s, reference, success, n - 1);
      if s.orders[n - 1].reference != reference then before
      else if success then PayOrder(before, n - 1) else CancelOrder(before, n - 1)
  }

  /** The order part of handleWebhook. */
  function SettleOrders(s: Shop, reference: string, success: bool): Shop {
    if AllPending(s, reference) then SettleFirst(s, reference, success, |s.orders|) else s
  }

  predicate Abandoned(o: Order, threshold: int) {
    o.status == PENDING_PAYMENT && o.createdAt <= threshold
  }

  /** The first n orders cleaned up, as far as they are abandoned. */
  function CleanFirst(s: Shop, threshold: int, n: nat): (r: Shop)
    requires n <= |s.orders|
    ensures |r.orders| == |s.orders|
    ensures forall i :: n <= i < |s.orders| ==> r.orders[i] == s.orders[i]
  {
    if n == 0 then s
    else
      var before := CleanFirst(s, threshold, n - 1);
      if Abandoned(s.orders[n - 1], threshold) then CancelOrder(before, n - 1) else before
  }

  /** `cleanupAbandonedOrders` */
  function Cleanup(s: Shop, threshold: int): Shop {
    CleanFirst(s, threshold, |s.orders|)
  }

  /** `updateOrderStatus` */
  function UpdateStatus(s: Shop, n: nat, vendor: Id, status: OrderStatus): (Shop, Reply) {
    if n >= |s.orders| || s.orders[n].vendor != vendor then (s, Refused(ORDER_NOT_FOUND))
    else (s.(orders := s.orders[n := s.orders[n].(status := status)]), Placed(s.orders[n].total))
  }

  datatype Event =
    | Buy(client: Id, cart: seq<CartLine>, reference: string, now: int, provider: bool)
    | Webhook(reference: string, success: bool)
    | Clean(threshold: int)
    | Mark(n: nat, vendor: Id, status: OrderStatus)

  function Step(s: Shop, e: Event): Shop {
    match e
    case Buy(client, cart, reference, now, provider) => Checkout(s, client, cart, reference, now, provider).0
    case Webhook(reference, success) => SettleOrders(s, reference, success)
    case Clean(threshold) => Cleanup(s, threshold)
    case Mark(n, vendor, status) => UpdateStatus(s, n, vendor, status).0
  }

  function Run(s: Shop, es: seq<Event>): Shop {
    if es == [] then s else Step(Run(s, es[..|es| - 1]), es[|es| - 1])
  }
}
