/** apps/bookings/cart.py and idempotency.py: the cart, its totals and checkout on top of the ledger. */
module Checkout {
  import opened Tables
  import opened Catalogue
  import opened Model
  import opened Scheduling
  import opened Bookings
  import opened Machine

  /** One CartItem row, in the order rows are listed. */
  datatype CartRow = CartRow(customer: nat, service: nat, quantity: nat, booking: Option<nat>)

  /** One CheckoutRequest row. */
  datatype Request = Request(fingerprint: string, bookings: seq<nat>, completed: bool)

  datatype Shop = Shop(ledger: State, cart: seq<CartRow>, requests: map<(nat, string), Request>)

  datatype Problem =
    | KeyReused | CannotRestore | BadItems | NotInCart | BookingChanged | CartUnpriceable | CartFull
    | ServiceGone | BookingUnverified | QuantityFixed | Refused(error: Refusal)

  datatype Answer =
    | Declined(problem: Problem)
    | Bookings(bookings: seq<nat>)
    | CartOnly

  datatype Result = Result(shop: Shop, answer: Answer)

  function Fail(shop: Shop, problem: Problem): Result { Result(shop, Declined(problem)) }

  // ----- idempotency.py -----

  datatype Begun =
    | Mismatch
    | Lost
    | Unfinished(record: Request)
    | Restored(bookings: seq<nat>)

  predicate Restorable(s: State, customer: nat, bookings: seq<nat>) {
    forall k :: 0 <= k < |bookings| ==> bookings[k] < |s.bookings| && s.bookings[bookings[k]].customer == customer
  }

  /** `begin_checkout_request`: the row is created on first sight of the key. */
  function Begin(shop: Shop, customer: nat, key: string, fingerprint: string): Begun {
    var id := (customer, key);
    var record := if id in shop.requests then shop.requests[id] else Request(fingerprint, [], false);
    if record.fingerprint != fingerprint then Mismatch
    else if !record.completed then Unfinished(record)
    else if Restorable(shop.ledger, customer, record.bookings) then Restored(record.bookings)
    else Lost
  }

  /** `complete_checkout_request`. */
  function CompleteRequest(shop: Shop, customer: nat, key: string, record: Request, bookings: seq<nat>): Shop {
    shop.(requests := shop.requests[(customer, key) := record.(bookings := bookings, completed := true)])
  }

  // ----- the cart and what it shows -----

  /** A row leaves the cart once its booking's deposit is paid. */
  predicate PaidFor(s: State, row: CartRow) {
    && row.booking.Some? && row.booking.value < |s.bookings|
    && var b := s.bookings[row.booking.value];
       b.payment in {PartiallyPaid, Paid} && b.advancePaid >= b.advanceRequired
  }

  function Purged(s: State, cart: seq<CartRow>, customer: nat): seq<CartRow> {
    if |cart| == 0 then [] else
    var front, row := Purged(s, cart[..|cart| - 1], customer), cart[|cart| - 1];
    if row.customer == customer && PaidFor(s, row) then front else front + [row]
  }

  /** What a row shows: its booking's frozen amounts, or the service's current ones. */
  function RowQuote(s: State, row: CartRow): Option<Quote> {
    if row.booking.Some? && row.booking.value < |s.bookings| then
      Some(Quote(s.bookings[row.booking.value].total, s.bookings[row.booking.value].advanceRequired))
    else if row.service < |s.services| then CartQuote(s.services[row.service], row.quantity)
    else None
  }

  predicate Shows(row: CartRow, customer: nat) { row.customer == customer }

  /** The source raises on a row whose deposit cannot be computed. */
  predicate Showable(s: State, cart: seq<CartRow>, customer: nat) {
    forall k :: 0 <= k < |cart| && Shows(cart[k], customer) ==> RowQuote(s, cart[k]).Some?
  }

  function CountOf(customer: nat): CartRow -> int {
    (row: CartRow) => if Shows(row, customer) then 1 else 0
  }

  function PriceOf(s: State, customer: nat): CartRow -> int {
    (row: CartRow) => if Shows(row, customer) && RowQuote(s, row).Some? then RowQuote(s, row).value.price else 0
  }

  function DepositOf(s: State, customer: nat): CartRow -> int {
    (row: CartRow) => if Shows(row, customer) && RowQuote(s, row).Some? then RowQuote(s, row).value.deposit else 0
  }

  datatype Summary = Summary(count: int, total: int, advanceTotal: int)

  /** `cart_response` after its purge. */
  function Summarised(s: State, cart: seq<CartRow>, customer: nat): Summary {
    Summary(Sum(cart, CountOf(customer)), Sum(cart, PriceOf(s, customer)), Sum(cart, DepositOf(s, customer)))
  }

  /** `cart_response` as the last step of a transaction: purge, then show or raise. */
  function Respond(before: Shop, shop: Shop, customer: nat, answer: Answer): Result {
    var cart := Purged(shop.ledger, shop.cart, customer);
    if !Showable(shop.ledger, cart, customer) then Fail(before, CartUnpriceable)
    else Result(shop.(cart := cart), answer)
  }

  function OwnRow(customer: nat, service: nat): CartRow -> bool {
    (row: CartRow) => row.customer == customer && row.service == service
  }

  // ----- checkout -----

  /** One selected service: the slot it wants and what the request reads about its address. */
  datatype Selection = Selection(service: nat, slot: nat, site: Site)

  predicate Distinct(selections: seq<Selection>) {
    forall i, j :: 0 <= i < j < |selections| ==> selections[i].service != selections[j].service
  }

  predicate ValidItems(selections: seq<Selection>) { 0 < |selections| <= 100 && Distinct(selections) }

  /** The ledger and cart part-way through a checkout, and the bookings so far; or what stopped it. */
  datatype Progress = Stopped(problem: Problem) | Going(ledger: State, cart: seq<CartRow>, bookings: seq<nat>)

  /** Why no booking came of it. */
  function Unbooked(r: Reply): Problem { if r.Rejected? then Refused(r.error) else BookingChanged }

  function CheckoutLine(p: Progress, customer: nat, item: Selection): Progress
    requires p.Going?
  {
    var found := Latest(p.cart, OwnRow(customer, item.service));
    if found.None? then Stopped(NotInCart) else
    var row := p.cart[found.value];
    if row.booking.Some? then
      if row.booking.value < |p.ledger.bookings|
         && p.ledger.bookings[row.booking.value].status in {PendingPayment, PaymentFailed} then
        p.(bookings := p.bookings + [row.booking.value])
      else Stopped(BookingChanged)
    else
    var o := CreateBooking(p.ledger, customer, item.service, item.slot, row.quantity, item.site);
    match o.reply
    case BookingReply(b) =>
      Going(o.state, p.cart[found.value := row.(booking := Some(b))], p.bookings + [b])
    case _ => Stopped(Unbooked(o.reply))
  }

  function CheckoutLines(ledger: State, cart: seq<CartRow>, customer: nat, items: seq<Selection>): Progress {
    if |items| == 0 then Going(ledger, cart, []) else
    var p := CheckoutLines(ledger, cart, customer, items[..|items| - 1]);
    if p.Stopped? then p else CheckoutLine(p, customer, items[|items| - 1])
  }

  /** `CartCheckoutView.post`, one transaction. */
  function CheckoutCart(shop: Shop, customer: nat, key: string, fingerprint: string, items: seq<Selection>): Result {
    if !ValidItems(items) then Fail(shop, BadItems) else
    match Begin(shop, customer, key, fingerprint)
    case Mismatch => Fail(shop, KeyReused)
    case Lost => Fail(shop, CannotRestore)
    case Restored(bookings) =>
      if |bookings| > 0 then Respond(shop, shop, customer, Bookings(bookings))
      else FinishCheckout(shop, customer, key, shop.requests[(customer, key)], items)
    case Unfinished(record) => FinishCheckout(shop, customer, key, record, items)
  }

  function FinishCheckout(shop: Shop, customer: nat, key: string, record: Request, items: seq<Selection>): Result {
    match CheckoutLines(shop.ledger, shop.cart, customer, items)
    case Stopped(problem) => Fail(shop, problem)
    case Going(ledger, cart, bookings) =>
      Respond(shop, CompleteRequest(shop.(ledger := ledger, cart := cart), customer, key, record, bookings), customer,
              Bookings(bookings))
  }

  /** `BookingViewSet.create`: one booking under the same table of keys. */
  function BookOnce(shop: Shop, customer: nat, key: string, fingerprint: string, item: Selection,
                    quantity: nat): Result {
    match Begin(shop, customer, key, fingerprint)
    case Mismatch => Fail(shop, KeyReused)
    case Lost => Fail(shop, CannotRestore)
    case Restored(bookings) =>
      if |bookings| > 0 then Result(shop, Bookings(bookings[..1]))
      else FinishBooking(shop, customer, key, shop.requests[(customer, key)], item, quantity)
    case Unfinished(record) => FinishBooking(shop, customer, key, record, item, quantity)
  }

  function FinishBooking(shop: Shop, customer: nat, key: string, record: Request, item: Selection,
                         quantity: nat): Result {
    var o := CreateBooking(shop.ledger, customer, item.service, item.slot, quantity, item.site);
    match o.reply
    case BookingReply(b) => Result(CompleteRequest(shop.(ledger := o.state), customer, key, record, [b]), Bookings([b]))
    case _ => Fail(shop, Unbooked(o.reply))
  }

  // ----- the other cart views -----

  /** One service of `CartView.post`, with the quantity and the saved booking the request may name for it. */
  datatype AddLine = AddLine(service: nat, quantity: Option<nat>, booking: Option<nat>)

  function AddOne(s: State, cart: seq<CartRow>, customer: nat, line: AddLine): Option<seq<CartRow>> {
    var found := Latest(cart, OwnRow(customer, line.service));
    var rows := if found.Some? then cart else cart + [CartRow(customer, line.service, 1, None)];
    var k: nat := if found.Some? then found.value else |cart|;
    var row := rows[k];
    var changes := line.quantity.Some? && line.quantity.value > 0 && row.booking.None?;
    var row1 := if changes then row.(quantity := line.quantity.value) else row;
    if line.booking.Some? && row.booking.None? then
      var b := line.booking.value;
      if b < |s.bookings| && s.bookings[b].customer == customer && s.bookings[b].service == line.service
         && forall j :: 0 <= j < |cart| ==> cart[j].booking != Some(b) then
        Some(rows[k := row1.(booking := Some(b))])
      else None
    else Some(rows[k := row1])
  }

  function AddAll(s: State, cart: seq<CartRow>, customer: nat, lines: seq<AddLine>): Option<seq<CartRow>> {
    if |lines| == 0 then Some(cart) else
    var before := AddAll(s, cart, customer, lines[..|lines| - 1]);
    if before.None? then None else AddOne(s, before.value, customer, lines[|lines| - 1])
  }

  predicate LineAvailable(s: State, line: AddLine) {
    line.service < |s.services| && s.services[line.service].Available()
  }

  function AvailableLines(s: State, lines: seq<AddLine>): seq<AddLine> {
    if |lines| == 0 then [] else
    var front := AvailableLines(s, lines[..|lines| - 1]);
    if LineAvailable(s, lines[|lines| - 1]) then front + [lines[|lines| - 1]] else front
  }

  /** `CartView.post`: unavailable services are refused, or dropped when a guest cart is merged. */
  function AddToCart(shop: Shop, customer: nat, lines: seq<AddLine>, merge: bool): Result {
    var usable := AvailableLines(shop.ledger, lines);
    if |usable| != |lines| && !merge then Fail(shop, ServiceGone) else
    var existing := set k | 0 <= k < |shop.cart| && shop.cart[k].customer == customer :: shop.cart[k].service;
    if |existing + (set k | 0 <= k < |usable| :: usable[k].service)| > 100 then Fail(shop, CartFull) else
    var rows := AddAll(shop.ledger, shop.cart, customer, usable);
    if rows.None? then Fail(shop, BookingUnverified)
    else Respond(shop, shop.(cart := rows.value), customer, CartOnly)
  }

  function WithoutRow(cart: seq<CartRow>, customer: nat, service: nat): seq<CartRow> {
    if |cart| == 0 then [] else
    var front, row := WithoutRow(cart[..|cart| - 1], customer, service), cart[|cart| - 1];
    if OwnRow(customer, service)(row) then front else front + [row]
  }

  function RemoveFromCart(shop: Shop, customer: nat, service: nat): Result {
    Respond(shop, shop.(cart := WithoutRow(shop.cart, customer, service)), customer, CartOnly)
  }

  function ChangeQuantity(shop: Shop, customer: nat, service: nat, quantity: nat): Result {
    var found := Latest(shop.cart, OwnRow(customer, service));
    if found.None? then Fail(shop, NotInCart) else
    if shop.cart[found.value].booking.Some? then Fail(shop, QuantityFixed) else
    Respond(shop, shop.(cart := shop.cart[found.value := shop.cart[found.value].(quantity := quantity)]), customer,
            CartOnly)
  }

  datatype ShopEvent =
    | Ledger(event: Event)
    | ShowCart(customer: nat)
    | Add(customer: nat, lines: seq<AddLine>, merge: bool)
    | Discard(customer: nat, service: nat)
    | SetQuantity(customer: nat, service: nat, quantity: nat)
    | PlaceOrder(customer: nat, key: string, fingerprint: string, items: seq<Selection>)
    | PlaceBooking(customer: nat, key: string, fingerprint: string, item: Selection, quantity: nat)

  function ShopStep(shop: Shop, e: ShopEvent): Result {
    match e
    case Ledger(event) => Result(shop.(ledger := Next(shop.ledger, event)), CartOnly)
    case ShowCart(customer) => Respond(shop, shop, customer, CartOnly)
    case Add(customer, lines, merge) => AddToCart(shop, customer, lines, merge)
    case Discard(customer, service) => RemoveFromCart(shop, customer, service)
    case SetQuantity(customer, service, quantity) => ChangeQuantity(shop, customer, service, quantity)
    case PlaceOrder(customer, key, fingerprint, items) => CheckoutCart(shop, customer, key, fingerprint, items)
    case PlaceBooking(customer, key, fingerprint, item, quantity) =>
      BookOnce(shop, customer, key, fingerprint, item, quantity)
  }

  function ShopRun(shop: Shop, run: seq<ShopEvent>): Shop {
    if |run| == 0 then shop else ShopStep(ShopRun(shop, run[..|run| - 1]), run[|run| - 1]).shop
  }

  function EmptyShop(): Shop { Shop(EmptyLedger(), [], map[]) }
}
