/** Checkout happens once per key, keeps what the cart shows, and is a run of ordinary bookings. */
module CheckoutProofs {
  import opened Tables
  import opened Catalogue
  import opened Model
  import opened Bookings
  import opened Machine
  import opened Soundness
  import opened BookingRows
  import opened CapacityProofs
  import opened Checkout

  // ----- bookings are never removed and never change hands -----

  ghost predicate BookingsKept(s: State, s': State) {
    && |s.bookings| <= |s'.bookings|
    && forall i :: 0 <= i < |s.bookings| ==>
         s'.bookings[i].customer == s.bookings[i].customer && s'.bookings[i].service == s.bookings[i].service
  }

  lemma StepKeepsBookings(s: State, e: Event)
    requires Sound(s)
    ensures BookingsKept(s, Next(s, e))
  {
    match e
    case Pay(p) =>
      PayBookingRows(s, p);
      forall i | 0 <= i < |s.bookings| ensures PayRowStep(s.bookings[i], StepPay(s, p).state.bookings[i]) {}
    case Live(l) => LifeKeepsBookings(s, l);
    case Desk(d) => DeskKeepsBookings(s, d);
  }

  lemma LifeKeepsBookings(s: State, e: LifeEvent)
    ensures BookingsKept(s, StepLife(s, e).state)
  {
  }

  lemma DeskKeepsBookings(s: State, e: DeskEvent)
    ensures BookingsKept(s, StepDesk(s, e).state)
  {
  }

  /** A linked cart row names a booking of its own customer and service. */
  ghost predicate RowSound(s: State, row: CartRow) {
    row.booking.Some? ==>
      && row.booking.value < |s.bookings|
      && s.bookings[row.booking.value].customer == row.customer
      && s.bookings[row.booking.value].service == row.service
  }

  ghost predicate CartSound(s: State, cart: seq<CartRow>) {
    forall k :: 0 <= k < |cart| ==> RowSound(s, cart[k])
  }

  /** Every stored request is complete, not empty, and can be restored. */
  ghost predicate RequestsSound(shop: Shop) {
    forall id :: id in shop.requests ==>
      && shop.requests[id].completed
      && |shop.requests[id].bookings| > 0
      && Restorable(shop.ledger, id.0, shop.requests[id].bookings)
  }

  ghost predicate ShopSound(shop: Shop) {
    Sound(shop.ledger) && CartSound(shop.ledger, shop.cart) && RequestsSound(shop)
  }

  lemma KeptBookingsKeepShop(s: State, shop: Shop)
    requires Sound(s) && BookingsKept(shop.ledger, s) && ShopSound(shop)
    ensures ShopSound(shop.(ledger := s))
  {
    forall k | 0 <= k < |shop.cart| ensures RowSound(s, shop.cart[k]) {
      assert RowSound(shop.ledger, shop.cart[k]);
    }
    forall id | id in shop.requests ensures Restorable(s, id.0, shop.requests[id].bookings) {
      assert Restorable(shop.ledger, id.0, shop.requests[id].bookings);
    }
  }

  lemma {:induction false} PurgedSound(s: State, cart: seq<CartRow>, customer: nat)
    requires CartSound(s, cart)
    ensures CartSound(s, Purged(s, cart, customer))
  {
    if |cart| > 0 {
      PurgedSound(s, cart[..|cart| - 1], customer);
      assert RowSound(s, cart[|cart| - 1]);
    }
  }

  lemma RespondSound(before: Shop, shop: Shop, customer: nat, answer: Answer)
    requires ShopSound(before) && ShopSound(shop)
    ensures ShopSound(Respond(before, shop, customer, answer).shop)
  {
    PurgedSound(shop.ledger, shop.cart, customer);
  }

  // ----- what a checkout does, line by line -----

  /** The row of a new booking: the service's snapshot price, awaiting payment. */
  ghost predicate FreshBooking(s: State, b: Booking, row: CartRow) {
    && row.service < |s.services| && SnapshotPrice(s.services[row.service], row.quantity).Some?
    && var p := SnapshotPrice(s.services[row.service], row.quantity).value;
       b.total == p.total && b.advanceRequired == p.advance && b.payment.Unpaid?
       && b.customer == row.customer && b.service == row.service
  }

  /** A row is untouched, or was unlinked and now names a fresh booking priced from the same service. */
  ghost predicate Linked(s: State, s': State, row: CartRow, row': CartRow) {
    || row' == row
    || (row.booking.None? && row'.booking.Some? && row' == row.(booking := row'.booking)
        && |s.bookings| <= row'.booking.value < |s'.bookings|
        && FreshBooking(s, s'.bookings[row'.booking.value], row))
  }

  ghost predicate OnlyBooks(s: State, s': State) {
    && s.bookings <= s'.bookings
    && s'.services == s.services && s'.technicians == s.technicians && s'.slots == s.slots
    && s'.payments == s.payments && s'.notices == s.notices
  }

  ghost predicate LinesDone(s: State, cart: seq<CartRow>, customer: nat, p: Progress) {
    p.Going? ==>
      && Sound(p.ledger) && OnlyBooks(s, p.ledger)
      && |p.cart| == |cart|
      && (forall k :: 0 <= k < |cart| ==> Linked(s, p.ledger, cart[k], p.cart[k]))
      && CartSound(p.ledger, p.cart)
      && Restorable(p.ledger, customer, p.bookings)
  }

  lemma LineDone(s: State, cart: seq<CartRow>, customer: nat, p: Progress, item: Selection)
    requires p.Going? && LinesDone(s, cart, customer, p)
    ensures LinesDone(s, cart, customer, CheckoutLine(p, customer, item))
    ensures CheckoutLine(p, customer, item).Going? ==> |CheckoutLine(p, customer, item).bookings| == |p.bookings| + 1
  {
    var q := CheckoutLine(p, customer, item);
    if q.Going? {
      var k := Latest(p.cart, OwnRow(customer, item.service)).value;
      var row := p.cart[k];
      assert OwnRow(customer, item.service)(row) && RowSound(p.ledger, row);
      if row.booking.None? {
        CreateBookingSound(p.ledger, customer, item.service, item.slot, row.quantity, item.site);
        LineLinks(s, cart, customer, p, item, k);
      }
    }
  }

  lemma LineLinks(s: State, cart: seq<CartRow>, customer: nat, p: Progress, item: Selection, k: nat)
    requires p.Going? && LinesDone(s, cart, customer, p) && Latest(p.cart, OwnRow(customer, item.service)) == Some(k)
    requires p.cart[k].booking.None? && CheckoutLine(p, customer, item).Going?
    ensures var q := CheckoutLine(p, customer, item);
            && OnlyBooks(s, q.ledger) && |q.cart| == |cart|
            && (forall j :: 0 <= j < |cart| ==> Linked(s, q.ledger, cart[j], q.cart[j]))
            && CartSound(q.ledger, q.cart) && Restorable(q.ledger, customer, q.bookings)
  {
    var q := CheckoutLine(p, customer, item);
    assert OwnRow(customer, item.service)(p.cart[k]);
    assert q.ledger.bookings == p.ledger.bookings + [q.ledger.bookings[|p.ledger.bookings|]];
    forall j | 0 <= j < |cart| ensures Linked(s, q.ledger, cart[j], q.cart[j]) {
      assert Linked(s, p.ledger, cart[j], p.cart[j]);
    }
    forall j | 0 <= j < |q.cart| ensures RowSound(q.ledger, q.cart[j]) {
      assert RowSound(p.ledger, p.cart[j]);
    }
  }

  lemma {:induction false} LinesAllDone(s: State, cart: seq<CartRow>, customer: nat, items: seq<Selection>)
    requires Sound(s) && CartSound(s, cart)
    ensures LinesDone(s, cart, customer, CheckoutLines(s, cart, customer, items))
    ensures CheckoutLines(s, cart, customer, items).Going? ==>
              |CheckoutLines(s, cart, customer, items).bookings| == |items|
  {
    if |items| > 0 {
      LinesAllDone(s, cart, customer, items[..|items| - 1]);
      var p := CheckoutLines(s, cart, customer, items[..|items| - 1]);
      if p.Going? {
        LineDone(s, cart, customer, p, items[|items| - 1]);
      }
    }
  }

  // ----- soundness of the shop -----

  lemma FinishCheckoutSound(shop: Shop, customer: nat, key: string, record: Request, items: seq<Selection>)
    requires ShopSound(shop) && |items| > 0
    ensures ShopSound(FinishCheckout(shop, customer, key, record, items).shop)
  {
    LinesAllDone(shop.ledger, shop.cart, customer, items);
    var p := CheckoutLines(shop.ledger, shop.cart, customer, items);
    if p.Going? {
      KeptBookingsKeepShop(p.ledger, shop);
      var done := CompleteRequest(shop.(ledger := p.ledger, cart := p.cart), customer, key, record, p.bookings);
      RespondSound(shop, done, customer, Bookings(p.bookings));
    }
  }

  lemma PlaceOrderSound(shop: Shop, customer: nat, key: string, fingerprint: string, items: seq<Selection>)
    requires ShopSound(shop)
    ensures ShopSound(CheckoutCart(shop, customer, key, fingerprint, items).shop)
  {
    if ValidItems(items) {
      match Begin(shop, customer, key, fingerprint)
      case Restored(bookings) => RespondSound(shop, shop, customer, Bookings(bookings));
      case Unfinished(record) => FinishCheckoutSound(shop, customer, key, record, items);
      case _ =>
    }
  }

  lemma PlaceBookingSound(shop: Shop, customer: nat, key: string, fingerprint: string, item: Selection, quantity: nat)
    requires ShopSound(shop)
    ensures ShopSound(BookOnce(shop, customer, key, fingerprint, item, quantity).shop)
  {
    var o := CreateBooking(shop.ledger, customer, item.service, item.slot, quantity, item.site);
    CreateBookingSound(shop.ledger, customer, item.service, item.slot, quantity, item.site);
    if o.reply.BookingReply? {
      KeptBookingsKeepShop(o.state, shop);
    }
  }

  lemma AddOneSound(s: State, cart: seq<CartRow>, customer: nat, line: AddLine)
    requires CartSound(s, cart)
    ensures AddOne(s, cart, customer, line).Some? ==> CartSound(s, AddOne(s, cart, customer, line).value)
  {
    var found := Latest(cart, OwnRow(customer, line.service));
    if found.Some? {
      assert OwnRow(customer, line.service)(cart[found.value]);
    }
  }

  lemma {:induction false} AddAllSound(s: State, cart: seq<CartRow>, customer: nat, lines: seq<AddLine>)
    requires CartSound(s, cart)
    ensures AddAll(s, cart, customer, lines).Some? ==> CartSound(s, AddAll(s, cart, customer, lines).value)
  {
    if |lines| > 0 {
      AddAllSound(s, cart, customer, lines[..|lines| - 1]);
      var before := AddAll(s, cart, customer, lines[..|lines| - 1]);
      if before.Some? {
        AddOneSound(s, before.value, customer, lines[|lines| - 1]);
      }
    }
  }

  lemma {:induction false} WithoutRowSound(s: State, cart: seq<CartRow>, customer: nat, service: nat)
    requires CartSound(s, cart)
    ensures CartSound(s, WithoutRow(cart, customer, service))
  {
    if |cart| > 0 {
      WithoutRowSound(s, cart[..|cart| - 1], customer, service);
      assert RowSound(s, cart[|cart| - 1]);
    }
  }

  lemma LedgerStepSound(shop: Shop, event: Event)
    requires ShopSound(shop)
    ensures ShopSound(shop.(ledger := Next(shop.ledger, event)))
  {
    StepSound(shop.ledger, event);
    StepKeepsBookings(shop.ledger, event);
    KeptBookingsKeepShop(Next(shop.ledger, event), shop);
  }

  lemma AddSound(shop: Shop, customer: nat, lines: seq<AddLine>, merge: bool)
    requires ShopSound(shop)
    ensures ShopSound(AddToCart(shop, customer, lines, merge).shop)
  {
    var usable := AvailableLines(shop.ledger, lines);
    AddAllSound(shop.ledger, shop.cart, customer, usable);
    var rows := AddAll(shop.ledger, shop.cart, customer, usable);
    if rows.Some? {
      RespondSound(shop, shop.(cart := rows.value), customer, CartOnly);
    }
  }

  lemma DiscardSound(shop: Shop, customer: nat, service: nat)
    requires ShopSound(shop)
    ensures ShopSound(RemoveFromCart(shop, customer, service).shop)
  {
    WithoutRowSound(shop.ledger, shop.cart, customer, service);
    RespondSound(shop, shop.(cart := WithoutRow(shop.cart, customer, service)), customer, CartOnly);
  }

  lemma SetQuantitySound(shop: Shop, customer: nat, service: nat, quantity: nat)
    requires ShopSound(shop)
    ensures ShopSound(ChangeQuantity(shop, customer, service, quantity).shop)
  {
    var found := Latest(shop.cart, OwnRow(customer, service));
    if found.Some? && shop.cart[found.value].booking.None? {
      var row := shop.cart[found.value].(quantity := quantity);
      RespondSound(shop, shop.(cart := shop.cart[found.value := row]), customer, CartOnly);
    }
  }

  lemma ShopStepSound(shop: Shop, e: ShopEvent)
    requires ShopSound(shop)
    ensures ShopSound(ShopStep(shop, e).shop)
  {
    match e
    case Ledger(event) => LedgerStepSound(shop, event);
    case ShowCart(customer) => RespondSound(shop, shop, customer, CartOnly);
    case Add(customer, lines, merge) => AddSound(shop, customer, lines, merge);
    case Discard(customer, service) => DiscardSound(shop, customer, service);
    case SetQuantity(customer, service, quantity) => SetQuantitySound(shop, customer, service, quantity);
    case PlaceOrder(customer, key, fingerprint, items) => PlaceOrderSound(shop, customer, key, fingerprint, items);
    case PlaceBooking(customer, key, fingerprint, item, quantity) =>
      PlaceBookingSound(shop, customer, key, fingerprint, item, quantity);
  }

  lemma {:induction false} ShopRunSound(shop: Shop, run: seq<ShopEvent>)
    requires ShopSound(shop)
    ensures ShopSound(ShopRun(shop, run))
  {
    if |run| > 0 {
      ShopRunSound(shop, run[..|run| - 1]);
      ShopStepSound(ShopRun(shop, run[..|run| - 1]), run[|run| - 1]);
    }
  }

  // ----- exactly once -----

  /** A checkout of the cart or a booking of one service: the two endpoints that share the table of keys. */
  ghost predicate IsRequest(e: ShopEvent) { e.PlaceOrder? || e.PlaceBooking? }

  function FirstOf(bookings: seq<nat>): seq<nat> { if |bookings| == 0 then [] else bookings[..1] }

  /** What a request under a known key is answered: a refusal for its form or fingerprint, else the stored bookings. */
  ghost function ReplayAnswer(shop: Shop, e: ShopEvent, record: Request): Answer
    requires IsRequest(e)
  {
    if e.PlaceOrder? && !ValidItems(e.items) then Declined(BadItems)
    else if e.fingerprint != record.fingerprint then Declined(KeyReused)
    else if e.PlaceBooking? then Bookings(FirstOf(record.bookings))
    else if CartIsShowable(shop, e.customer) then Bookings(record.bookings)
    else Declined(CartUnpriceable)
  }

  /** No row that the cart still shows is unbooked on a service whose deposit cannot be computed. */
  ghost predicate CartIsShowable(shop: Shop, customer: nat) {
    Showable(shop.ledger, Purged(shop.ledger, shop.cart, customer), customer)
  }

  lemma OtherStepsKeepRequests(shop: Shop, e: ShopEvent)
    requires !e.PlaceOrder? && !e.PlaceBooking?
    ensures ShopStep(shop, e).shop.requests == shop.requests
  {
  }

  /** A request writes under its own key only. */
  lemma OrderWritesOwnKey(shop: Shop, customer: nat, key: string, fingerprint: string, items: seq<Selection>,
                          id: (nat, string))
    requires id in shop.requests && id != (customer, key)
    ensures var requests := CheckoutCart(shop, customer, key, fingerprint, items).shop.requests;
            id in requests && requests[id] == shop.requests[id]
  {
  }

  lemma BookingWritesOwnKey(shop: Shop, customer: nat, key: string, fingerprint: string, item: Selection, quantity: nat,
                            id: (nat, string))
    requires id in shop.requests && id != (customer, key)
    ensures var requests := BookOnce(shop, customer, key, fingerprint, item, quantity).shop.requests;
            id in requests && requests[id] == shop.requests[id]
  {
  }

  /** A stored request is never rewritten. */
  lemma StepKeepsRequests(shop: Shop, e: ShopEvent, id: (nat, string))
    requires ShopSound(shop) && id in shop.requests
    ensures id in ShopStep(shop, e).shop.requests
    ensures ShopStep(shop, e).shop.requests[id] == shop.requests[id]
  {
    match e
    case PlaceOrder(customer, key, fingerprint, items) =>
      if id == (customer, key) { KnownKeyReplays(shop, e); }
      else { OrderWritesOwnKey(shop, customer, key, fingerprint, items, id); }
    case PlaceBooking(customer, key, fingerprint, item, quantity) =>
      if id == (customer, key) { KnownKeyReplays(shop, e); }
      else { BookingWritesOwnKey(shop, customer, key, fingerprint, item, quantity, id); }
    case _ => OtherStepsKeepRequests(shop, e);
  }

  lemma KnownOrderReplays(shop: Shop, customer: nat, key: string, fingerprint: string, items: seq<Selection>)
    requires ShopSound(shop) && (customer, key) in shop.requests
    ensures var r := CheckoutCart(shop, customer, key, fingerprint, items);
            var e := PlaceOrder(customer, key, fingerprint, items);
            && r.answer == ReplayAnswer(shop, e, shop.requests[(customer, key)])
            && r.shop == shop.(cart := r.shop.cart)
            && (r.answer.Declined? ==> r.shop == shop)
  {
    assert Restorable(shop.ledger, customer, shop.requests[(customer, key)].bookings);
  }

  lemma KnownBookingReplays(shop: Shop, customer: nat, key: string, fingerprint: string, item: Selection, quantity: nat)
    requires ShopSound(shop) && (customer, key) in shop.requests
    ensures var r := BookOnce(shop, customer, key, fingerprint, item, quantity);
            var e := PlaceBooking(customer, key, fingerprint, item, quantity);
            && r.answer == ReplayAnswer(shop, e, shop.requests[(customer, key)])
            && r.shop == shop
  {
    assert Restorable(shop.ledger, customer, shop.requests[(customer, key)].bookings);
  }

  /**
   * With a known key neither endpoint creates or stores anything, and the answer is exactly this one: the stored
   * bookings, unless the form or the fingerprint is wrong or, for a checkout, the cart cannot be priced.
   */
  lemma KnownKeyReplays(shop: Shop, e: ShopEvent)
    requires ShopSound(shop) && IsRequest(e) && (e.customer, e.key) in shop.requests
    ensures var r := ShopStep(shop, e);
            && r.answer == ReplayAnswer(shop, e, shop.requests[(e.customer, e.key)])
            && r.shop.ledger == shop.ledger && r.shop.requests == shop.requests
            && (r.answer.Declined? ==> r.shop == shop)
  {
    match e
    case PlaceOrder(customer, key, fingerprint, items) => KnownOrderReplays(shop, customer, key, fingerprint, items);
    case PlaceBooking(customer, key, fingerprint, item, quantity) =>
      KnownBookingReplays(shop, customer, key, fingerprint, item, quantity);
  }

  lemma {:induction false} RunKeepsRequests(shop: Shop, run: seq<ShopEvent>, id: (nat, string))
    requires ShopSound(shop) && id in shop.requests
    ensures id in ShopRun(shop, run).requests && ShopRun(shop, run).requests[id] == shop.requests[id]
  {
    if |run| > 0 {
      RunKeepsRequests(shop, run[..|run| - 1], id);
      ShopRunSound(shop, run[..|run| - 1]);
      StepKeepsRequests(ShopRun(shop, run[..|run| - 1]), run[|run| - 1], id);
    }
  }

  /** The services a request asks for, in order. */
  ghost function ServicesOf(e: ShopEvent): seq<nat>
    requires IsRequest(e)
  {
    if e.PlaceBooking? then [e.item.service] else seq(|e.items|, k requires 0 <= k < |e.items| => e.items[k].service)
  }

  /** The bookings are the customer's, one per service and in order. */
  ghost predicate BookedFor(s: State, customer: nat, services: seq<nat>, bookings: seq<nat>) {
    && |bookings| == |services|
    && forall k :: 0 <= k < |bookings| ==>
         && bookings[k] < |s.bookings|
         && s.bookings[bookings[k]].customer == customer && s.bookings[bookings[k]].service == services[k]
  }

  lemma LineBooksItsService(p: Progress, customer: nat, item: Selection)
    requires p.Going? && CartSound(p.ledger, p.cart) && CheckoutLine(p, customer, item).Going?
    ensures var q := CheckoutLine(p, customer, item);
            && p.ledger.bookings <= q.ledger.bookings && |q.bookings| == |p.bookings| + 1 && p.bookings <= q.bookings
            && q.bookings[|p.bookings|] < |q.ledger.bookings|
            && q.ledger.bookings[q.bookings[|p.bookings|]].customer == customer
            && q.ledger.bookings[q.bookings[|p.bookings|]].service == item.service
  {
    var k := Latest(p.cart, OwnRow(customer, item.service)).value;
    assert OwnRow(customer, item.service)(p.cart[k]) && RowSound(p.ledger, p.cart[k]);
  }

  ghost predicate LinesBooked(p: Progress, customer: nat, items: seq<Selection>) {
    p.Going? ==>
      && |p.bookings| == |items|
      && forall k :: 0 <= k < |p.bookings| ==>
           && p.bookings[k] < |p.ledger.bookings|
           && p.ledger.bookings[p.bookings[k]].customer == customer
           && p.ledger.bookings[p.bookings[k]].service == items[k].service
  }

  lemma LinesBookedStep(p: Progress, q: Progress, customer: nat, items: seq<Selection>)
    requires p.Going? && q.Going? && |items| > 0 && LinesBooked(p, customer, items[..|items| - 1])
    requires p.ledger.bookings <= q.ledger.bookings && p.bookings <= q.bookings && |q.bookings| == |items|
    requires q.bookings[|items| - 1] < |q.ledger.bookings|
    requires q.ledger.bookings[q.bookings[|items| - 1]].customer == customer
    requires q.ledger.bookings[q.bookings[|items| - 1]].service == items[|items| - 1].service
    ensures LinesBooked(q, customer, items)
  {
  }

  lemma {:induction false} LinesBookTheirServices(s: State, cart: seq<CartRow>, customer: nat, items: seq<Selection>)
    requires Sound(s) && CartSound(s, cart)
    ensures LinesBooked(CheckoutLines(s, cart, customer, items), customer, items)
  {
    if |items| > 0 {
      var front := items[..|items| - 1];
      var p := CheckoutLines(s, cart, customer, front);
      LinesBookTheirServices(s, cart, customer, front);
      LinesAllDone(s, cart, customer, front);
      if p.Going? && CheckoutLine(p, customer, items[|items| - 1]).Going? {
        LineBooksItsService(p, customer, items[|items| - 1]);
        LinesBookedStep(p, CheckoutLine(p, customer, items[|items| - 1]), customer, items);
      }
    }
  }

  lemma NewOrderIsStored(shop: Shop, customer: nat, key: string, fingerprint: string, items: seq<Selection>)
    requires ShopSound(shop) && (customer, key) !in shop.requests
    requires CheckoutCart(shop, customer, key, fingerprint, items).answer.Bookings?
    ensures var r := CheckoutCart(shop, customer, key, fingerprint, items);
            && (customer, key) in r.shop.requests
            && r.shop.requests[(customer, key)] == Request(fingerprint, r.answer.bookings, true)
            && LinesBooked(Going(r.shop.ledger, [], r.answer.bookings), customer, items)
  {
    LinesBookTheirServices(shop.ledger, shop.cart, customer, items);
  }

  lemma NewBookingIsStored(shop: Shop, customer: nat, key: string, fingerprint: string, item: Selection, quantity: nat)
    requires ShopSound(shop) && (customer, key) !in shop.requests
    requires BookOnce(shop, customer, key, fingerprint, item, quantity).answer.Bookings?
    ensures var r := BookOnce(shop, customer, key, fingerprint, item, quantity);
            && (customer, key) in r.shop.requests
            && r.shop.requests[(customer, key)] == Request(fingerprint, r.answer.bookings, true)
            && BookedFor(r.shop.ledger, customer, [item.service], r.answer.bookings)
  {
  }

  /** What a request answered with bookings has stored. */
  ghost predicate StoredAs(shop: Shop, r: Result, e: ShopEvent)
    requires IsRequest(e) && r.answer.Bookings?
  {
    var id := (e.customer, e.key);
    && id in r.shop.requests
    && r.shop.requests[id].fingerprint == e.fingerprint && r.shop.requests[id].completed
    && (e.PlaceOrder? || id !in shop.requests ==> r.shop.requests[id].bookings == r.answer.bookings)
    && (id !in shop.requests ==> BookedFor(r.shop.ledger, e.customer, ServicesOf(e), r.answer.bookings))
  }

  /**
   * A request of either endpoint that is answered with bookings stands in the table under its key and fingerprint. If
   * the key is new the stored bookings are the answered ones: the customer's, one per requested service and in order.
   */
  lemma CommittedRequestIsStored(shop: Shop, e: ShopEvent)
    requires ShopSound(shop) && IsRequest(e) && ShopStep(shop, e).answer.Bookings?
    ensures StoredAs(shop, ShopStep(shop, e), e)
  {
    if (e.customer, e.key) in shop.requests {
      KnownKeyReplays(shop, e);
    } else {
      match e
      case PlaceOrder(customer, key, fingerprint, items) => NewOrderIsStored(shop, customer, key, fingerprint, items);
      case PlaceBooking(customer, key, fingerprint, item, quantity) =>
        NewBookingIsStored(shop, customer, key, fingerprint, item, quantity);
    }
  }

  /**
   * Exactly once, for both endpoints in any mix: after a request was answered with bookings and any run, a request of
   * the same customer under the same key creates and stores nothing, leaves the shop as it was when it is declined,
   * and is answered by ReplayAnswer from the first one's record. With its fingerprint and a well-formed request these
   * are the very same bookings if and only if the cart can be priced (the first of them, always, for a single
   * booking); with another fingerprint it is declined.
   */
  lemma CheckoutExactlyOnce(before: seq<ShopEvent>, e: ShopEvent, between: seq<ShopEvent>, e': ShopEvent)
    requires IsRequest(e) && IsRequest(e') && e'.customer == e.customer && e'.key == e.key
    requires ShopStep(ShopRun(EmptyShop(), before), e).answer.Bookings?
    ensures StoredAs(ShopRun(EmptyShop(), before), ShopStep(ShopRun(EmptyShop(), before), e), e)
    ensures var first := ShopStep(ShopRun(EmptyShop(), before), e);
            var later := ShopRun(first.shop, between);
            var second := ShopStep(later, e');
            && second.answer == ReplayAnswer(later, e', first.shop.requests[(e.customer, e.key)])
            && second.shop.ledger == later.ledger && second.shop.requests == later.requests
            && (second.answer.Declined? ==> second.shop == later)
  {
    var shop, id := ShopRun(EmptyShop(), before), (e.customer, e.key);
    EmptyShopSound();
    ShopRunSound(EmptyShop(), before);
    ShopStepSound(shop, e);
    CommittedRequestIsStored(shop, e);
    var first := ShopStep(shop, e).shop;
    RunKeepsRequests(first, between, id);
    ShopRunSound(first, between);
    KnownKeyReplays(ShopRun(first, between), e');
  }

  /** Read off for a repeated checkout: the same bookings if and only if the cart can be priced. */
  lemma ReplayRestoresIff(before: seq<ShopEvent>, customer: nat, key: string, fingerprint: string,
                          items: seq<Selection>, between: seq<ShopEvent>)
    requires CheckoutCart(ShopRun(EmptyShop(), before), customer, key, fingerprint, items).answer.Bookings?
    ensures var first := CheckoutCart(ShopRun(EmptyShop(), before), customer, key, fingerprint, items);
            var later := ShopRun(first.shop, between);
            var second := CheckoutCart(later, customer, key, fingerprint, items);
            && (second.answer == first.answer <==> CartIsShowable(later, customer))
            && (!CartIsShowable(later, customer) ==> second == Fail(later, CartUnpriceable))
  {
    var e := PlaceOrder(customer, key, fingerprint, items);
    CheckoutExactlyOnce(before, e, between, e);
  }

  lemma EmptyShopSound()
    ensures ShopSound(EmptyShop())
  {
  }

  /** The restore-failure branch cannot be reached, in any run, by either endpoint. */
  lemma RestoreNeverFails(run: seq<ShopEvent>, e: ShopEvent)
    ensures ShopStep(ShopRun(EmptyShop(), run), e).answer != Declined(CannotRestore)
  {
    EmptyShopSound();
    ShopRunSound(EmptyShop(), run);
    var shop := ShopRun(EmptyShop(), run);
    match e
    case PlaceOrder(customer, key, fingerprint, items) =>
      NeverLost(shop, customer, key, fingerprint);
      OrderFailsOnlyWhenLost(shop, customer, key, fingerprint, items);
    case PlaceBooking(customer, key, fingerprint, item, quantity) =>
      NeverLost(shop, customer, key, fingerprint);
      BookingFailsOnlyWhenLost(shop, customer, key, fingerprint, item, quantity);
    case _ => OtherStepsNeverRestore(shop, e);
  }

  lemma OtherStepsNeverRestore(shop: Shop, e: ShopEvent)
    requires !e.PlaceOrder? && !e.PlaceBooking?
    ensures ShopStep(shop, e).answer != Declined(CannotRestore)
  {
  }

  lemma {:induction false} LinesNeverRestore(s: State, cart: seq<CartRow>, customer: nat, items: seq<Selection>)
    ensures CheckoutLines(s, cart, customer, items) != Stopped(CannotRestore)
  {
    if |items| > 0 {
      LinesNeverRestore(s, cart, customer, items[..|items| - 1]);
    }
  }

  lemma OrderFailsOnlyWhenLost(shop: Shop, customer: nat, key: string, fingerprint: string, items: seq<Selection>)
    ensures CheckoutCart(shop, customer, key, fingerprint, items).answer == Declined(CannotRestore) ==>
              Begin(shop, customer, key, fingerprint).Lost?
  {
    LinesNeverRestore(shop.ledger, shop.cart, customer, items);
  }

  lemma BookingFailsOnlyWhenLost(shop: Shop, customer: nat, key: string, fingerprint: string, item: Selection,
                                 quantity: nat)
    ensures BookOnce(shop, customer, key, fingerprint, item, quantity).answer == Declined(CannotRestore) ==>
              Begin(shop, customer, key, fingerprint).Lost?
  {
  }

  lemma NeverLost(shop: Shop, customer: nat, key: string, fingerprint: string)
    requires ShopSound(shop)
    ensures !Begin(shop, customer, key, fingerprint).Lost?
  {
    if (customer, key) in shop.requests {
      assert Restorable(shop.ledger, customer, shop.requests[(customer, key)].bookings);
    }
  }

  // ----- the cart shows the same before and after -----

  /** A weight that skips the rows the purge removes. */
  function Unpurged(s: State, customer: nat, weight: CartRow -> int): CartRow -> int {
    (row: CartRow) => if row.customer == customer && PaidFor(s, row) then 0 else weight(row)
  }

  lemma {:induction false} PurgedSum(s: State, cart: seq<CartRow>, customer: nat, weight: CartRow -> int)
    ensures Sum(Purged(s, cart, customer), weight) == Sum(cart, Unpurged(s, customer, weight))
  {
    if |cart| > 0 {
      var front, row := cart[..|cart| - 1], cart[|cart| - 1];
      PurgedSum(s, front, customer, weight);
      SumAppend(Purged(s, front, customer), row, weight);
    }
  }

  lemma {:induction false} SumPairwise(a: seq<CartRow>, v: CartRow -> int, b: seq<CartRow>, w: CartRow -> int)
    requires |a| == |b| && forall k :: 0 <= k < |a| ==> v(a[k]) == w(b[k])
    ensures Sum(a, v) == Sum(b, w)
  {
    if |a| > 0 {
      SumPairwise(a[..|a| - 1], v, b[..|b| - 1], w);
    }
  }

  /** A linked row shows what it showed: its quote was the snapshot of the booking made for it. */
  lemma LinkedShowsTheSame(s: State, s': State, row: CartRow, row': CartRow)
    requires Linked(s, s', row, row') && OnlyBooks(s, s') && RowSound(s, row)
    ensures PaidFor(s', row') <==> PaidFor(s, row)
    ensures RowQuote(s', row') == RowQuote(s, row)
    ensures row'.customer == row.customer
  {
    if row' != row {
      QuoteIsSnapshot(s.services[row.service], row.quantity);
    }
  }

  ghost predicate ShowsSame(s: State, cart: seq<CartRow>, s': State, cart': seq<CartRow>, customer: nat) {
    Summarised(s, Purged(s, cart, customer), customer) == Summarised(s', Purged(s', cart', customer), customer)
  }

  lemma LinkedCartShowsTheSame(s: State, cart: seq<CartRow>, s': State, cart': seq<CartRow>, customer: nat)
    requires CartSound(s, cart) && OnlyBooks(s, s') && |cart| == |cart'|
    requires forall k :: 0 <= k < |cart| ==> Linked(s, s', cart[k], cart'[k])
    ensures ShowsSame(s, cart, s', cart', customer)
  {
    forall k | 0 <= k < |cart|
      ensures PaidFor(s', cart'[k]) == PaidFor(s, cart[k]) && RowQuote(s', cart'[k]) == RowQuote(s, cart[k])
              && cart'[k].customer == cart[k].customer
    {
      LinkedShowsTheSame(s, s', cart[k], cart'[k]);
    }
    PurgedSum(s, cart, customer, CountOf(customer));
    PurgedSum(s', cart', customer, CountOf(customer));
    SumPairwise(cart, Unpurged(s, customer, CountOf(customer)), cart', Unpurged(s', customer, CountOf(customer)));
    PurgedSum(s, cart, customer, PriceOf(s, customer));
    PurgedSum(s', cart', customer, PriceOf(s', customer));
    SumPairwise(cart, Unpurged(s, customer, PriceOf(s, customer)), cart',
                Unpurged(s', customer, PriceOf(s', customer)));
    PurgedSum(s, cart, customer, DepositOf(s, customer));
    PurgedSum(s', cart', customer, DepositOf(s', customer));
    SumPairwise(cart, Unpurged(s, customer, DepositOf(s, customer)), cart',
                Unpurged(s', customer, DepositOf(s', customer)));
  }

  /** Count, total and deposit total of the cart are the same before and after a committed checkout. */
  lemma CheckoutKeepsCart(shop: Shop, customer: nat, key: string, fingerprint: string, items: seq<Selection>)
    requires ShopSound(shop) && CheckoutCart(shop, customer, key, fingerprint, items).answer.Bookings?
    ensures var r := CheckoutCart(shop, customer, key, fingerprint, items);
            Summarised(r.shop.ledger, r.shop.cart, customer)
            == Summarised(shop.ledger, Purged(shop.ledger, shop.cart, customer), customer)
  {
    if (customer, key) in shop.requests {
      assert Restorable(shop.ledger, customer, shop.requests[(customer, key)].bookings);
    } else {
      LinesAllDone(shop.ledger, shop.cart, customer, items);
      var p := CheckoutLines(shop.ledger, shop.cart, customer, items);
      LinkedCartShowsTheSame(shop.ledger, shop.cart, p.ledger, p.cart, customer);
    }
  }

  // ----- a checkout is a run of bookings -----

  /** The bookings a checkout creates, as steps of the ledger. */
  ghost function LineEvents(s: State, cart: seq<CartRow>, customer: nat, items: seq<Selection>): seq<Event> {
    if |items| == 0 then [] else
    var front, item := items[..|items| - 1], items[|items| - 1];
    var p := CheckoutLines(s, cart, customer, front);
    var events := LineEvents(s, cart, customer, front);
    if p.Stopped? then events else
    var found := Latest(p.cart, OwnRow(customer, item.service));
    if found.Some? && p.cart[found.value].booking.None? then
      events + [Live(Book(customer, item.service, item.slot, p.cart[found.value].quantity, item.site))]
    else events
  }

  lemma LineIsAStep(p: Progress, customer: nat, item: Selection)
    requires p.Going? && CheckoutLine(p, customer, item).Going?
    ensures var found := Latest(p.cart, OwnRow(customer, item.service));
            && found.Some?
            && CheckoutLine(p, customer, item).ledger ==
               (if p.cart[found.value].booking.None? then
                  StepLife(p.ledger,
                           Book(customer, item.service, item.slot, p.cart[found.value].quantity, item.site)).state
                else p.ledger)
  {
  }

  lemma {:induction false} LinesAreARun(s: State, cart: seq<CartRow>, customer: nat, items: seq<Selection>)
    ensures CheckoutLines(s, cart, customer, items).Going? ==>
              CheckoutLines(s, cart, customer, items).ledger == Run(s, LineEvents(s, cart, customer, items))
  {
    if |items| > 0 {
      var front, item := items[..|items| - 1], items[|items| - 1];
      LinesAreARun(s, cart, customer, front);
      var p := CheckoutLines(s, cart, customer, front);
      if p.Going? && CheckoutLine(p, customer, item).Going? {
        LineIsAStep(p, customer, item);
        var found := Latest(p.cart, OwnRow(customer, item.service));
        if p.cart[found.value].booking.None? {
          var booked := Live(Book(customer, item.service, item.slot, p.cart[found.value].quantity, item.site));
          RunOneMore(s, LineEvents(s, cart, customer, front), booked);
        }
      }
    }
  }

  lemma {:induction false} LineEventsGuarded(s: State, cart: seq<CartRow>, customer: nat, items: seq<Selection>)
    ensures forall k :: 0 <= k < |LineEvents(s, cart, customer, items)| ==>
              !Unguarded(LineEvents(s, cart, customer, items)[k])
  {
    if |items| > 0 {
      LineEventsGuarded(s, cart, customer, items[..|items| - 1]);
    }
  }

  /** A checkout of many services never fills a slot beyond its capacity. */
  lemma CheckoutNeverOverfills(shop: Shop, customer: nat, key: string, fingerprint: string, items: seq<Selection>,
                               slot: nat)
    requires ShopSound(shop) && Holds(shop.ledger, slot, 0)
    ensures Holds(CheckoutCart(shop, customer, key, fingerprint, items).shop.ledger, slot, 0)
  {
    LinesAreARun(shop.ledger, shop.cart, customer, items);
    LineEventsGuarded(shop.ledger, shop.cart, customer, items);
    GuardedStepsNeverOverfill(shop.ledger, LineEvents(shop.ledger, shop.cart, customer, items), slot);
    assert Holds(shop.ledger, slot, 0);
  }

  /** The ledger steps one shop step makes. */
  ghost function EventsOf(shop: Shop, e: ShopEvent): seq<Event> {
    if ShopStep(shop, e).shop.ledger == shop.ledger then [] else
    match e
    case Ledger(event) => [event]
    case PlaceOrder(customer, _, _, items) => LineEvents(shop.ledger, shop.cart, customer, items)
    case PlaceBooking(customer, _, _, item, quantity) =>
      [Live(Book(customer, item.service, item.slot, quantity, item.site))]
    case _ => []
  }

  lemma FinishIsARun(shop: Shop, customer: nat, key: string, record: Request, items: seq<Selection>)
    ensures var s' := FinishCheckout(shop, customer, key, record, items).shop.ledger;
            s' == shop.ledger || s' == Run(shop.ledger, LineEvents(shop.ledger, shop.cart, customer, items))
  {
    LinesAreARun(shop.ledger, shop.cart, customer, items);
  }

  lemma OrderIsARun(shop: Shop, customer: nat, key: string, fingerprint: string, items: seq<Selection>)
    ensures var s' := CheckoutCart(shop, customer, key, fingerprint, items).shop.ledger;
            s' == shop.ledger || s' == Run(shop.ledger, LineEvents(shop.ledger, shop.cart, customer, items))
  {
    match Begin(shop, customer, key, fingerprint)
    case Restored(_) => FinishIsARun(shop, customer, key, shop.requests[(customer, key)], items);
    case Unfinished(record) => FinishIsARun(shop, customer, key, record, items);
    case _ =>
  }

  lemma BookingIsARun(shop: Shop, customer: nat, key: string, fingerprint: string, item: Selection, quantity: nat)
    ensures var s' := BookOnce(shop, customer, key, fingerprint, item, quantity).shop.ledger;
            s' == shop.ledger
                || s' == Run(shop.ledger, [Live(Book(customer, item.service, item.slot, quantity, item.site))])
  {
    OneEventRun(shop.ledger, Live(Book(customer, item.service, item.slot, quantity, item.site)));
  }

  lemma CartStepsKeepLedger(shop: Shop, e: ShopEvent)
    requires !e.Ledger? && !e.PlaceOrder? && !e.PlaceBooking?
    ensures ShopStep(shop, e).shop.ledger == shop.ledger
  {
  }

  lemma StepIsARun(shop: Shop, e: ShopEvent)
    ensures ShopStep(shop, e).shop.ledger == Run(shop.ledger, EventsOf(shop, e))
  {
    match e
    case Ledger(event) => OneEventRun(shop.ledger, event);
    case PlaceOrder(customer, key, fingerprint, items) => OrderIsARun(shop, customer, key, fingerprint, items);
    case PlaceBooking(customer, key, fingerprint, item, quantity) =>
      BookingIsARun(shop, customer, key, fingerprint, item, quantity);
    case _ => CartStepsKeepLedger(shop, e);
  }

  ghost function EventsOfRun(shop: Shop, run: seq<ShopEvent>): seq<Event> {
    if |run| == 0 then [] else
    EventsOfRun(shop, run[..|run| - 1]) + EventsOf(ShopRun(shop, run[..|run| - 1]), run[|run| - 1])
  }

  /** Carts and checkouts add nothing new: every ledger a shop reaches, the machine reaches by its own steps. */
  lemma {:induction false} LedgerIsReachable(run: seq<ShopEvent>)
    ensures ShopRun(EmptyShop(), run).ledger == Run(EmptyLedger(), EventsOfRun(EmptyShop(), run))
  {
    if |run| > 0 {
      var front := run[..|run| - 1];
      LedgerIsReachable(front);
      StepIsARun(ShopRun(EmptyShop(), front), run[|run| - 1]);
      RunConcat(EmptyLedger(), EventsOfRun(EmptyShop(), front), EventsOf(ShopRun(EmptyShop(), front), run[|run| - 1]));
    }
  }
}
