/** A run from the empty shop in which a committed checkout cannot be replayed. */
module ShopEscapes {
  import opened Tables
  import opened Catalogue
  import opened Model
  import opened Bookings
  import opened Machine
  import opened Checkout
  import opened CheckoutProofs
  import opened Escapes

  /** A percentage deposit without a percentage, which `Service.clean` lets pass. */
  function Unpriced(): Service { Service(1000, None, Percentage, None, 200, 0, false, true, true) }

  function InCart(service: nat): CartRow { CartRow(1, service, 1, None) }

  function Stocked(cart: seq<CartRow>): Shop {
    Shop(State([Cleaning(), Cleaning()], [], [Window(36000, 1)], [], [], []), cart, map[])
  }

  /** Two services and a slot are set up, and both services put into the cart. */
  function Preparation(): seq<ShopEvent> {
    SetUp() + [AddOf(0)] + [AddOf(1)]
  }

  /** A checkout of the first service only. */
  function FirstOnly(): seq<Selection> { [Selection(0, 0, Home())] }

  /** The percentage of the second service is taken away. */
  function Unprice(): ShopEvent { Ledger(Desk(SaveService(1, Unpriced()))) }

  lemma ShopRunOneMore(shop: Shop, run: seq<ShopEvent>, e: ShopEvent)
    ensures ShopRun(shop, run + [e]) == ShopStep(ShopRun(shop, run), e).shop
  {
    assert (run + [e])[..|run|] == run;
  }

  lemma LedgerStep(shop: Shop, event: Event)
    ensures ShopStep(shop, Ledger(event)).shop == shop.(ledger := Next(shop.ledger, event))
  {
  }

  lemma StockedReached()
    ensures Next(Next(Next(EmptyLedger(), Desk(SaveService(0, Cleaning()))), Desk(SaveService(1, Cleaning()))),
                 Desk(OpenSlot(Window(36000, 1)))) == Stocked([]).ledger
  {
  }

  /** A service the cart does not hold gets a row of its own at the end. */
  lemma NewRow(s: State, cart: seq<CartRow>, service: nat)
    requires Latest(cart, OwnRow(1, service)).None?
    ensures AddAll(s, cart, 1, [AddLine(service, None, None)]) == Some(cart + [InCart(service)])
  {
    var lines := [AddLine(service, None, None)];
    assert lines[..0] == [] && AddAll(s, cart, 1, []) == Some(cart);
    assert (cart + [InCart(service)])[|cart| := InCart(service)] == cart + [InCart(service)];
  }

  lemma UsableLine(s: State, service: nat)
    requires LineAvailable(s, AddLine(service, None, None))
    ensures AvailableLines(s, [AddLine(service, None, None)]) == [AddLine(service, None, None)]
  {
    var lines := [AddLine(service, None, None)];
    assert lines[..0] == [] && AvailableLines(s, []) == [];
  }

  lemma FewServices(cart: seq<CartRow>, service: nat)
    requires service < 2 && forall k :: 0 <= k < |cart| ==> cart[k].service < 2
    ensures var existing := set k | 0 <= k < |cart| && cart[k].customer == 1 :: cart[k].service;
            var lines := [AddLine(service, None, None)];
            |existing + (set k | 0 <= k < |lines| :: lines[k].service)| <= 100
  {
    var existing := set k | 0 <= k < |cart| && cart[k].customer == 1 :: cart[k].service;
    var lines := [AddLine(service, None, None)];
    var added := set k | 0 <= k < |lines| :: lines[k].service;
    CardinalityAtMost(existing + added, {0, 1});
  }

  lemma AddSucceeds(shop: Shop, lines: seq<AddLine>, rows: seq<CartRow>)
    requires AvailableLines(shop.ledger, lines) == lines
    requires var existing := set k | 0 <= k < |shop.cart| && shop.cart[k].customer == 1 :: shop.cart[k].service;
             |existing + (set k | 0 <= k < |lines| :: lines[k].service)| <= 100
    requires AddAll(shop.ledger, shop.cart, 1, lines) == Some(rows)
    requires Purged(shop.ledger, rows, 1) == rows && Showable(shop.ledger, rows, 1)
    ensures ShopStep(shop, Add(1, lines, false)).shop == shop.(cart := rows)
  {
  }

  /** Rows without a booking, on priced services, are kept and shown. */
  lemma PlainCart(s: State, cart: seq<CartRow>)
    requires forall k :: 0 <= k < |cart| ==>
               cart[k].booking.None? && cart[k].service < |s.services| && s.services[cart[k].service] == Cleaning()
    ensures Purged(s, cart, 1) == cart && Showable(s, cart, 1)
  {
    NothingPurged(s, cart);
  }

  /** Every row waits, unbooked, for one of the two services, both priced. */
  ghost predicate Plain(s: State, cart: seq<CartRow>) {
    && s.services == [Cleaning(), Cleaning()]
    && forall k :: 0 <= k < |cart| ==> cart[k].booking.None? && cart[k].service < 2
  }

  /** Adding a service that the cart does not hold appends its row. */
  lemma AddStep(shop: Shop, service: nat)
    requires Plain(shop.ledger, shop.cart) && service < 2 && Latest(shop.cart, OwnRow(1, service)).None?
    ensures ShopStep(shop, AddOf(service)).shop == shop.(cart := shop.cart + [InCart(service)])
  {
    UsableLine(shop.ledger, service);
    FewServices(shop.cart, service);
    NewRow(shop.ledger, shop.cart, service);
    PlainCart(shop.ledger, shop.cart + [InCart(service)]);
    AddSucceeds(shop, [AddLine(service, None, None)], shop.cart + [InCart(service)]);
  }

  lemma CardinalityAtMost(a: set<nat>, b: set<nat>)
    requires a <= b
    ensures |a| <= |b|
  {
    if a != {} {
      var x :| x in a;
      CardinalityAtMost(a - {x}, b - {x});
    }
  }

  /** While no row has a paid booking the purge leaves the cart alone. */
  lemma {:induction false} NothingPurged(s: State, cart: seq<CartRow>)
    requires forall k :: 0 <= k < |cart| ==> !PaidFor(s, cart[k])
    ensures Purged(s, cart, 1) == cart
  {
    if |cart| > 0 {
      NothingPurged(s, cart[..|cart| - 1]);
      assert cart == cart[..|cart| - 1] + [cart[|cart| - 1]];
    }
  }

  function SetUp(): seq<ShopEvent> {
    [Ledger(Desk(SaveService(0, Cleaning())))] + [Ledger(Desk(SaveService(1, Cleaning())))]
    + [Ledger(Desk(OpenSlot(Window(36000, 1))))]
  }

  lemma SetUpRun()
    ensures ShopRun(EmptyShop(), SetUp()) == Stocked([])
  {
    var e1, e2 := Desk(SaveService(0, Cleaning())), Desk(SaveService(1, Cleaning()));
    var e3 := Desk(OpenSlot(Window(36000, 1)));
    assert [] + [Ledger(e1)] == [Ledger(e1)];
    LedgerRun([], e1);
    LedgerRun([Ledger(e1)], e2);
    LedgerRun([Ledger(e1)] + [Ledger(e2)], e3);
    StockedReached();
  }

  lemma LedgerRun(run: seq<ShopEvent>, event: Event)
    ensures ShopRun(EmptyShop(), run + [Ledger(event)])
            == ShopRun(EmptyShop(), run).(ledger := Next(ShopRun(EmptyShop(), run).ledger, event))
  {
    ShopRunOneMore(EmptyShop(), run, Ledger(event));
    LedgerStep(ShopRun(EmptyShop(), run), event);
  }

  function AddOf(service: nat): ShopEvent { Add(1, [AddLine(service, None, None)], false) }

  lemma FirstAdded()
    ensures ShopRun(EmptyShop(), SetUp() + [AddOf(0)]) == Stocked([InCart(0)])
  {
    SetUpRun();
    ShopRunOneMore(EmptyShop(), SetUp(), AddOf(0));
    AddStep(Stocked([]), 0);
    assert [] + [InCart(0)] == [InCart(0)];
  }

  lemma PreparationRun()
    ensures ShopRun(EmptyShop(), Preparation()) == Stocked([InCart(0), InCart(1)])
  {
    FirstAdded();
    ShopRunOneMore(EmptyShop(), SetUp() + [AddOf(0)], AddOf(1));
    assert !OwnRow(1, 1)(InCart(0));
    AddStep(Stocked([InCart(0)]), 1);
    assert [InCart(0)] + [InCart(1)] == [InCart(0), InCart(1)];
  }

  /** The cart once the first service is booked, before and after the second loses its price. */
  function Ordered(services: seq<Service>, requests: map<(nat, string), Request>): Shop {
    Shop(State(services, [], [Window(36000, 1)], [Booked(1, 0)], [], []),
         [InCart(0).(booking := Some(0)), InCart(1)], requests)
  }

  lemma OneLine(s: State, cart: seq<CartRow>, item: Selection)
    ensures CheckoutLines(s, cart, 1, [item]) == CheckoutLine(Going(s, cart, []), 1, item)
  {
    assert [item][..0] == [] && CheckoutLines(s, cart, 1, []) == Going(s, cart, []);
  }

  lemma LineSucceeds(s: State, cart: seq<CartRow>, k: nat, item: Selection, o: Outcome)
    requires Latest(cart, OwnRow(1, item.service)) == Some(k) && cart[k].booking.None? && o.reply.BookingReply?
    requires CreateBooking(s, 1, item.service, item.slot, cart[k].quantity, item.site) == o
    ensures CheckoutLine(Going(s, cart, []), 1, item)
            == Going(o.state, cart[k := cart[k].(booking := Some(o.reply.booking))], [o.reply.booking])
  {
  }

  lemma OrderLine()
    ensures var s := Stocked([]).ledger;
            CheckoutLine(Going(s, [InCart(0), InCart(1)], []), 1, Selection(0, 0, Home()))
            == Going(s.(bookings := [Booked(1, 0)]), [InCart(0).(booking := Some(0)), InCart(1)], [0])
  {
    var s, cart := Stocked([]).ledger, [InCart(0), InCart(1)];
    FirstRowIsFound(cart);
    BookingSucceeds(s, 1, 0);
    LineSucceeds(s, cart, 0, Selection(0, 0, Home()), Outcome(s.(bookings := [Booked(1, 0)]), BookingReply(0)));
  }

  lemma FirstRowIsFound(cart: seq<CartRow>)
    requires |cart| == 2 && OwnRow(1, 0)(cart[0]) && !OwnRow(1, 0)(cart[1])
    ensures Latest(cart, OwnRow(1, 0)) == Some(0)
  {
  }

  lemma OrderSucceeds(shop: Shop, key: string, fingerprint: string, items: seq<Selection>, p: Progress)
    requires ValidItems(items) && (1, key) !in shop.requests
    requires p.Going? && CheckoutLines(shop.ledger, shop.cart, 1, items) == p
    requires Purged(p.ledger, p.cart, 1) == p.cart && Showable(p.ledger, p.cart, 1)
    ensures CheckoutCart(shop, 1, key, fingerprint, items)
            == Checkout.Result(
                 Shop(p.ledger, p.cart, shop.requests[(1, key) := Request(fingerprint, p.bookings, true)]),
                 Answer.Bookings(p.bookings))
  {
  }

  /** The booked row has no deposit in yet, so it stays; both rows are priced. */
  lemma OrderedCart(requests: map<(nat, string), Request>)
    ensures var shop := Ordered([Cleaning(), Cleaning()], requests);
            Purged(shop.ledger, shop.cart, 1) == shop.cart && Showable(shop.ledger, shop.cart, 1)
  {
    var shop := Ordered([Cleaning(), Cleaning()], requests);
    NothingPurged(shop.ledger, shop.cart);
  }

  lemma OrderStepIs(key: string, fingerprint: string)
    ensures CheckoutCart(Stocked([InCart(0), InCart(1)]), 1, key, fingerprint, FirstOnly())
            == Checkout.Result(Ordered([Cleaning(), Cleaning()], map[(1, key) := Request(fingerprint, [0], true)]),
                               Answer.Bookings([0]))
  {
    var shop := Stocked([InCart(0), InCart(1)]);
    var done := Ordered([Cleaning(), Cleaning()], map[(1, key) := Request(fingerprint, [0], true)]);
    OneLine(shop.ledger, shop.cart, Selection(0, 0, Home()));
    OrderLine();
    OrderedCart(done.requests);
    OrderSucceeds(shop, key, fingerprint, FirstOnly(), Going(done.ledger, done.cart, [0]));
  }

  lemma UnpriceLedger(s: State)
    requires |s.services| == 2
    ensures Next(s, Desk(SaveService(1, Unpriced()))) == s.(services := [s.services[0], Unpriced()])
  {
    assert s.services[1 := Unpriced()] == [s.services[0], Unpriced()];
  }

  lemma UnpriceStep(requests: map<(nat, string), Request>)
    ensures ShopRun(Ordered([Cleaning(), Cleaning()], requests), [Unprice()])
            == Ordered([Cleaning(), Unpriced()], requests)
  {
    var shop := Ordered([Cleaning(), Cleaning()], requests);
    assert [] + [Unprice()] == [Unprice()];
    ShopRunOneMore(shop, [], Unprice());
    LedgerStep(shop, Desk(SaveService(1, Unpriced())));
    UnpriceLedger(shop.ledger);
  }

  lemma UnpricedCartFails(requests: map<(nat, string), Request>)
    ensures !CartIsShowable(Ordered([Cleaning(), Unpriced()], requests), 1)
  {
    var shop := Ordered([Cleaning(), Unpriced()], requests);
    NothingPurged(shop.ledger, shop.cart);
    assert Shows(shop.cart[1], 1) && RowQuote(shop.ledger, shop.cart[1]).None?;
  }

  /** The very same checkout, sent again after a service left in the cart lost its percentage, is refused. */
  lemma ReplayIsRefused(key: string, fingerprint: string)
    ensures var first := CheckoutCart(ShopRun(EmptyShop(), Preparation()), 1, key, fingerprint, FirstOnly());
            var later := ShopRun(first.shop, [Unprice()]);
            && first.answer == Answer.Bookings([0])
            && CheckoutCart(later, 1, key, fingerprint, FirstOnly()) == Fail(later, CartUnpriceable)
  {
    PreparationRun();
    OrderStepIs(key, fingerprint);
    UnpriceStep(map[(1, key) := Request(fingerprint, [0], true)]);
    UnpricedCartFails(map[(1, key) := Request(fingerprint, [0], true)]);
    ReplayRestoresIff(Preparation(), 1, key, fingerprint, FirstOnly(), [Unprice()]);
  }
}
