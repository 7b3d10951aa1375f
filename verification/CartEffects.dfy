/** What the cart shows and what each edit of it does, row by row. */
module CartEffects {
  import opened Tables
  import opened Catalogue
  import opened Model
  import opened Bookings
  import opened BookingEffects
  import opened Checkout
  import opened CheckoutProofs

  // ----- what is shown -----

  /** A row is settled once its booking's deposit is in and the booking counts as part or fully paid. */
  ghost predicate IsSettled(s: State, row: CartRow) {
    exists i: nat :: row.booking == Some(i) && i < |s.bookings|
      && (s.bookings[i].payment.PartiallyPaid? || s.bookings[i].payment.Paid?)
      && s.bookings[i].advanceRequired <= s.bookings[i].advancePaid
  }

  lemma SettledIffPaidFor(s: State, row: CartRow)
    ensures IsSettled(s, row) <==> PaidFor(s, row)
  {
    if PaidFor(s, row) {
      assert row.booking == Some(row.booking.value);
    }
  }

  /** The purge removes exactly the customer's settled rows, and keeps the others as they were and in order. */
  lemma {:induction false} PurgeRemovesSettled(s: State, cart: seq<CartRow>, customer: nat, row: CartRow)
    ensures multiset(Purged(s, cart, customer))[row]
            == if row.customer == customer && IsSettled(s, row) then 0 else multiset(cart)[row]
  {
    if |cart| > 0 {
      var front, last := cart[..|cart| - 1], cart[|cart| - 1];
      PurgeRemovesSettled(s, front, customer, row);
      SettledIffPaidFor(s, last);
      assert cart == front + [last];
    }
  }

  /** A booked row shows its booking's frozen total and deposit; another the service's present price and deposit. */
  ghost predicate RowShows(s: State, row: CartRow, quote: Quote) {
    if row.booking.Some? && row.booking.value < |s.bookings| then
      quote == Quote(s.bookings[row.booking.value].total, s.bookings[row.booking.value].advanceRequired)
    else
      && row.service < |s.services|
      && quote.price == row.quantity * UnitPrice(s.services[row.service]) + Fees(s.services[row.service], row.quantity)
      && DepositOn(s.services[row.service], quote.price, quote.deposit)
  }

  lemma QuoteIsShown(s: State, row: CartRow)
    ensures RowQuote(s, row).Some? ==> RowShows(s, row, RowQuote(s, row).value)
  {
    if row.booking.None? || row.booking.value >= |s.bookings| {
      if row.service < |s.services| {
        SnapshotCosts(s.services[row.service], row.quantity);
        QuoteIsSnapshot(s.services[row.service], row.quantity);
      }
    }
  }

  /** Each of the customer's rows adds one, its price and its deposit to the response; rows of others add nothing. */
  lemma ResponseAddsUp(s: State, cart: seq<CartRow>, customer: nat, row: CartRow)
    requires Showable(s, cart + [row], customer)
    ensures Summarised(s, [], customer) == Summary(0, 0, 0)
    ensures var before, after := Summarised(s, cart, customer), Summarised(s, cart + [row], customer);
            if row.customer != customer then after == before
            else
              && after.count == before.count + 1
              && RowShows(s, row, Quote(after.total - before.total, after.advanceTotal - before.advanceTotal))
  {
    SumAppend(cart, row, CountOf(customer));
    SumAppend(cart, row, PriceOf(s, customer));
    SumAppend(cart, row, DepositOf(s, customer));
    assert (cart + [row])[|cart|] == row;
    QuoteIsShown(s, row);
  }

  /** The response fails exactly on an unbooked row whose service is unknown or has a percentage without a value. */
  lemma UnshowableIff(s: State, row: CartRow)
    ensures RowQuote(s, row).None? <==>
              && (row.booking.None? || row.booking.value >= |s.bookings|)
              && (row.service < |s.services| ==>
                    s.services[row.service].advanceType.Percentage? && s.services[row.service].advanceValue.None?)
  {
  }

  /** Showing the cart purges it, or fails and leaves everything as it was; it never does more. */
  lemma ShowEffect(shop: Shop, customer: nat)
    ensures var r := ShopStep(shop, ShowCart(customer));
            if CartIsShowable(shop, customer) then
              r.answer == CartOnly && r.shop == shop.(cart := Purged(shop.ledger, shop.cart, customer))
            else r == Fail(shop, CartUnpriceable)
  {
  }

  // ----- edits -----

  /** One row per customer and service. */
  ghost predicate OneRowEach(cart: seq<CartRow>) {
    forall j, k :: 0 <= j < k < |cart| ==> cart[j].customer != cart[k].customer || cart[j].service != cart[k].service
  }

  ghost predicate InCartOf(cart: seq<CartRow>, k: nat, customer: nat, service: nat) {
    k < |cart| && cart[k].customer == customer && cart[k].service == service
  }

  /** The row after a line: a named quantity or booking is taken over, unless the row is booked already. */
  ghost predicate LineApplied(row: CartRow, line: AddLine, row': CartRow) {
    if row.booking.Some? then row' == row
    else
      && row'.customer == row.customer && row'.service == row.service
      && row'.quantity
         == (if line.quantity.Some? && line.quantity.value != 0 then line.quantity.value else row.quantity)
      && row'.booking == line.booking
  }

  /** A saved booking is taken over exactly if it is the customer's, for this service, and in no other row. */
  ghost predicate MayLink(s: State, cart: seq<CartRow>, customer: nat, line: AddLine) {
    line.booking.Some? ==>
      && line.booking.value < |s.bookings|
      && s.bookings[line.booking.value].customer == customer && s.bookings[line.booking.value].service == line.service
      && forall j :: 0 <= j < |cart| ==> cart[j].booking != line.booking
  }

  /** A line on a service in the cart changes that row; on another it appends one of quantity one and changes that. */
  lemma LineEffect(s: State, cart: seq<CartRow>, customer: nat, line: AddLine)
    requires OneRowEach(cart)
    ensures var added := AddOne(s, cart, customer, line);
            && (forall k: nat :: InCartOf(cart, k, customer, line.service) ==>
                  && (added.Some? <==> cart[k].booking.Some? || MayLink(s, cart, customer, line))
                  && (added.Some? ==> |added.value| == |cart| && LineApplied(cart[k], line, added.value[k])
                                      && added.value == cart[k := added.value[k]]))
            && ((forall k: nat :: !InCartOf(cart, k, customer, line.service)) ==>
                  && (added.Some? <==> MayLink(s, cart, customer, line))
                  && (added.Some? ==>
                        && |added.value| == |cart| + 1 && added.value[..|cart|] == cart
                        && LineApplied(CartRow(customer, line.service, 1, None), line, added.value[|cart|])))
  {
    var found := Latest(cart, OwnRow(customer, line.service));
    if found.Some? {
      assert OwnRow(customer, line.service)(cart[found.value]) && InCartOf(cart, found.value, customer, line.service);
    }
    forall k: nat | InCartOf(cart, k, customer, line.service) ensures found == Some(k) {
      assert OwnRow(customer, line.service)(cart[k]);
    }
  }

  /** Discarding removes exactly the customer's rows of that service. */
  lemma {:induction false} DiscardRemoves(cart: seq<CartRow>, customer: nat, service: nat, row: CartRow)
    ensures multiset(WithoutRow(cart, customer, service))[row]
            == if row.customer == customer && row.service == service then 0 else multiset(cart)[row]
  {
    if |cart| > 0 {
      DiscardRemoves(cart[..|cart| - 1], customer, service, row);
      assert cart == cart[..|cart| - 1] + [cart[|cart| - 1]];
    }
  }

  /** A quantity is set on the customer's unbooked row of the service, then the cart is purged and shown. */
  lemma QuantityEffect(shop: Shop, customer: nat, service: nat, quantity: nat, k: nat)
    requires OneRowEach(shop.cart) && InCartOf(shop.cart, k, customer, service)
    ensures var r := ChangeQuantity(shop, customer, service, quantity);
            if shop.cart[k].booking.Some? then r == Fail(shop, QuantityFixed)
            else
              var rows := shop.cart[k := shop.cart[k].(quantity := quantity)];
              r == Respond(shop, shop.(cart := rows), customer, CartOnly)
  {
    assert OwnRow(customer, service)(shop.cart[k]);
    forall j | 0 <= j < |shop.cart| && j != k ensures !OwnRow(customer, service)(shop.cart[j]) {}
    assert Latest(shop.cart, OwnRow(customer, service)) == Some(k);
  }

  /** A checkout line books an unbooked row, or takes over the booking of one that still waits for payment. */
  lemma LineOutcome(p: Progress, customer: nat, item: Selection, k: nat)
    requires p.Going? && OneRowEach(p.cart) && InCartOf(p.cart, k, customer, item.service)
    requires p.cart[k].booking.Some? ==> p.cart[k].booking.value < |p.ledger.bookings|
    ensures var q, row := CheckoutLine(p, customer, item), p.cart[k];
            if row.booking.Some? then
              var status := p.ledger.bookings[row.booking.value].status;
              q == if status.PendingPayment? || status.PaymentFailed? then
                     Going(p.ledger, p.cart, p.bookings + [row.booking.value])
                   else Stopped(BookingChanged)
            else
              var o := CreateBooking(p.ledger, customer, item.service, item.slot, row.quantity, item.site);
              q == if o.reply.BookingReply? then
                     Going(o.state, p.cart[k := row.(booking := Some(o.reply.booking))], p.bookings + [o.reply.booking])
                   else Stopped(Unbooked(o.reply))
  {
    assert OwnRow(customer, item.service)(p.cart[k]);
    forall j | 0 <= j < |p.cart| && j != k ensures !OwnRow(customer, item.service)(p.cart[j]) {}
    assert Latest(p.cart, OwnRow(customer, item.service)) == Some(k);
  }

  /** A service that is not in the cart stops the checkout. */
  lemma MissingLineStops(p: Progress, customer: nat, item: Selection)
    requires p.Going? && forall k: nat :: !InCartOf(p.cart, k, customer, item.service)
    ensures CheckoutLine(p, customer, item) == Stopped(NotInCart)
  {
    var found := Latest(p.cart, OwnRow(customer, item.service));
    assert found.None? by {
      if found.Some? { assert InCartOf(p.cart, found.value, customer, item.service); }
    }
  }

  // ----- carts stay in bounds -----

  /** Some of the earlier rows, and the last. */
  lemma AppendKeepsOneEach(rows: seq<CartRow>, cart: seq<CartRow>)
    requires |cart| > 0 && OneRowEach(cart) && OneRowEach(rows)
    requires forall row :: row in rows ==> row in cart[..|cart| - 1]
    ensures OneRowEach(rows + [cart[|cart| - 1]])
  {
    var last := cart[|cart| - 1];
    forall j | 0 <= j < |rows| ensures rows[j].customer != last.customer || rows[j].service != last.service {
      var row := rows[j];
      assert row in rows && row in cart[..|cart| - 1];
      var k :| 0 <= k < |cart| - 1 && cart[k] == rows[j];
    }
  }

  lemma {:induction false} PurgeKeepsOneEach(s: State, cart: seq<CartRow>, customer: nat)
    requires OneRowEach(cart)
    ensures OneRowEach(Purged(s, cart, customer))
    ensures forall row :: row in Purged(s, cart, customer) ==> row in cart
  {
    if |cart| > 0 {
      var front, last := cart[..|cart| - 1], cart[|cart| - 1];
      PurgeKeepsOneEach(s, front, customer);
      AppendKeepsOneEach(Purged(s, front, customer), cart);
    }
  }

  lemma {:induction false} DiscardKeepsOneEach(cart: seq<CartRow>, customer: nat, service: nat)
    requires OneRowEach(cart)
    ensures OneRowEach(WithoutRow(cart, customer, service))
    ensures forall row :: row in WithoutRow(cart, customer, service) ==> row in cart
  {
    if |cart| > 0 {
      var front, last := cart[..|cart| - 1], cart[|cart| - 1];
      DiscardKeepsOneEach(front, customer, service);
      AppendKeepsOneEach(WithoutRow(front, customer, service), cart);
    }
  }

  /** The services in a customer's cart. */
  ghost function ServicesIn(cart: seq<CartRow>, customer: nat): set<nat> {
    set k: nat | k < |cart| && cart[k].customer == customer :: cart[k].service
  }

  /** No customer's cart holds a service twice or more than a hundred of them. */
  ghost predicate InBounds(cart: seq<CartRow>) {
    OneRowEach(cart) && forall customer: nat :: |ServicesIn(cart, customer)| <= 100
  }

  lemma SmallerSet(a: set<nat>, b: set<nat>)
    requires a <= b
    ensures |a| <= |b|
  {
    if a != {} {
      var x :| x in a;
      SmallerSet(a - {x}, b - {x});
    }
  }

  /** Fewer rows stay in bounds. */
  lemma FewerRows(cart: seq<CartRow>, cart': seq<CartRow>)
    requires InBounds(cart) && OneRowEach(cart') && forall row :: row in cart' ==> row in cart
    ensures InBounds(cart')
  {
    forall customer: nat ensures |ServicesIn(cart', customer)| <= 100 {
      forall x | x in ServicesIn(cart', customer) ensures x in ServicesIn(cart, customer) {
        var k: nat :| k < |cart'| && cart'[k].customer == customer && cart'[k].service == x;
        assert cart'[k] in cart;
      }
      SmallerSet(ServicesIn(cart', customer), ServicesIn(cart, customer));
    }
  }

  /** The same customers and services row by row. */
  ghost predicate SameRows(cart: seq<CartRow>, cart': seq<CartRow>) {
    && |cart'| == |cart|
    && forall k :: 0 <= k < |cart| ==> cart'[k].customer == cart[k].customer && cart'[k].service == cart[k].service
  }

  lemma SameRowsInBounds(cart: seq<CartRow>, cart': seq<CartRow>)
    requires InBounds(cart) && SameRows(cart, cart')
    ensures InBounds(cart')
  {
    forall customer: nat ensures |ServicesIn(cart', customer)| <= 100 {
      assert ServicesIn(cart', customer) == ServicesIn(cart, customer);
    }
  }

  lemma RespondInBounds(before: Shop, shop: Shop, customer: nat, answer: Answer)
    requires InBounds(before.cart) && InBounds(shop.cart)
    ensures InBounds(Respond(before, shop, customer, answer).shop.cart)
  {
    PurgeKeepsOneEach(shop.ledger, shop.cart, customer);
    FewerRows(shop.cart, Purged(shop.ledger, shop.cart, customer));
  }

  ghost function LineServices(lines: seq<AddLine>): set<nat> { set k | 0 <= k < |lines| :: lines[k].service }

  lemma LineServicesGrow(lines: seq<AddLine>)
    requires |lines| > 0
    ensures LineServices(lines) == LineServices(lines[..|lines| - 1]) + {lines[|lines| - 1].service}
  {
    var front, last := lines[..|lines| - 1], lines[|lines| - 1];
    assert lines == front + [last];
    forall x ensures x in LineServices(lines) <==> x in LineServices(front) + {last.service} {
      if x in LineServices(lines) {
        var k :| 0 <= k < |lines| && lines[k].service == x;
        assert k < |front| ==> front[k].service == x;
      }
      if x in LineServices(front) {
        var k :| 0 <= k < |front| && front[k].service == x;
        assert lines[k].service == x;
      }
      assert lines[|front|].service == last.service;
    }
  }

  /** Lines of a customer leave the rows of others alone and bring in no service but their own. */
  lemma {:induction false} LinesStayIn(s: State, cart: seq<CartRow>, customer: nat, lines: seq<AddLine>)
    requires OneRowEach(cart)
    ensures var added := AddAll(s, cart, customer, lines);
            added.Some? ==>
              && OneRowEach(added.value)
              && (forall c: nat :: c != customer ==> ServicesIn(added.value, c) == ServicesIn(cart, c))
              && ServicesIn(added.value, customer)
                 <= ServicesIn(cart, customer) + LineServices(lines)
  {
    if |lines| > 0 {
      var front, last := lines[..|lines| - 1], lines[|lines| - 1];
      LinesStayIn(s, cart, customer, front);
      var before := AddAll(s, cart, customer, front);
      if before.Some? {
        LineStaysIn(s, before.value, customer, last);
        LineServicesGrow(lines);
      }
    }
  }

  lemma LineStaysIn(s: State, cart: seq<CartRow>, customer: nat, line: AddLine)
    requires OneRowEach(cart)
    ensures var added := AddOne(s, cart, customer, line);
            added.Some? ==>
              && OneRowEach(added.value)
              && (forall c: nat :: c != customer ==> ServicesIn(added.value, c) == ServicesIn(cart, c))
              && ServicesIn(added.value, customer) <= ServicesIn(cart, customer) + {line.service}
  {
    LineEffect(s, cart, customer, line);
    var added := AddOne(s, cart, customer, line);
    if added.Some? {
      if exists k: nat :: InCartOf(cart, k, customer, line.service) {
        var k: nat :| InCartOf(cart, k, customer, line.service);
        SameRowsSameServices(cart, added.value);
      } else {
        AppendedRow(cart, added.value, customer, line.service);
      }
    }
  }

  lemma SameRowsSameServices(cart: seq<CartRow>, cart': seq<CartRow>)
    requires SameRows(cart, cart') && OneRowEach(cart)
    ensures OneRowEach(cart') && forall c: nat :: ServicesIn(cart', c) == ServicesIn(cart, c)
  {
    forall c: nat ensures ServicesIn(cart', c) == ServicesIn(cart, c) {
      assert forall k: nat :: k < |cart| ==>
               cart'[k].customer == cart[k].customer && cart'[k].service == cart[k].service;
    }
  }

  lemma AppendedRow(cart: seq<CartRow>, cart': seq<CartRow>, customer: nat, service: nat)
    requires OneRowEach(cart) && |cart'| == |cart| + 1 && cart'[..|cart|] == cart
    requires cart'[|cart|].customer == customer && cart'[|cart|].service == service
    requires forall k: nat :: !InCartOf(cart, k, customer, service)
    ensures OneRowEach(cart')
    ensures forall c: nat :: c != customer ==> ServicesIn(cart', c) == ServicesIn(cart, c)
    ensures ServicesIn(cart', customer) <= ServicesIn(cart, customer) + {service}
  {
    assert forall k: nat :: k < |cart| ==> cart'[k] == cart[k] && !InCartOf(cart, k, customer, service);
  }

  lemma {:induction false} UsableServices(s: State, lines: seq<AddLine>)
    ensures forall line :: line in AvailableLines(s, lines) <==> line in lines && LineAvailable(s, line)
    ensures |AvailableLines(s, lines)| <= |lines|
    ensures |AvailableLines(s, lines)| == |lines| <==> forall k :: 0 <= k < |lines| ==> LineAvailable(s, lines[k])
  {
    if |lines| > 0 {
      UsableServices(s, lines[..|lines| - 1]);
      assert lines == lines[..|lines| - 1] + [lines[|lines| - 1]];
    }
  }

  /** A service is refused that is unknown, inactive or in an inactive category. */
  ghost predicate OnOffer(s: State, service: nat) {
    service < |s.services| && s.services[service].active && s.services[service].categoryActive
  }

  lemma GoneIff(shop: Shop, customer: nat, lines: seq<AddLine>, merge: bool)
    ensures AddToCart(shop, customer, lines, merge) == Fail(shop, ServiceGone)
            <==> !merge && |AvailableLines(shop.ledger, lines)| != |lines|
  {
  }

  /** A request with such a service is refused unchanged, but for the merge of a guest cart, which leaves it out. */
  lemma AddRefusesGone(shop: Shop, customer: nat, lines: seq<AddLine>, merge: bool)
    ensures AddToCart(shop, customer, lines, merge) == Fail(shop, ServiceGone)
            <==> !merge && exists k :: 0 <= k < |lines| && !OnOffer(shop.ledger, lines[k].service)
    ensures forall line :: line in AvailableLines(shop.ledger, lines) <==>
              line in lines && OnOffer(shop.ledger, line.service)
  {
    GoneIff(shop, customer, lines, merge);
    UsableServices(shop.ledger, lines);
    assert forall line :: LineAvailable(shop.ledger, line) <==> OnOffer(shop.ledger, line.service);
  }

  /** A checkout is refused for its form exactly when it selects nothing, too much, or a service twice. */
  lemma BadItemsIff(shop: Shop, customer: nat, key: string, fingerprint: string, items: seq<Selection>)
    ensures CheckoutCart(shop, customer, key, fingerprint, items) == Fail(shop, BadItems)
            <==> items == [] || |items| > 100
                 || exists j, k :: 0 <= j < k < |items| && items[j].service == items[k].service
  {
    LinesNeverBad(shop.ledger, shop.cart, customer, items);
  }

  lemma {:induction false} LinesNeverBad(s: State, cart: seq<CartRow>, customer: nat, items: seq<Selection>)
    ensures CheckoutLines(s, cart, customer, items) != Stopped(BadItems)
  {
    if |items| > 0 {
      LinesNeverBad(s, cart, customer, items[..|items| - 1]);
    }
  }

  lemma AddInBounds(shop: Shop, customer: nat, lines: seq<AddLine>, merge: bool)
    requires InBounds(shop.cart)
    ensures InBounds(AddToCart(shop, customer, lines, merge).shop.cart)
  {
    var usable := AvailableLines(shop.ledger, lines);
    var existing := set k | 0 <= k < |shop.cart| && shop.cart[k].customer == customer :: shop.cart[k].service;
    var rows := AddAll(shop.ledger, shop.cart, customer, usable);
    if !(|usable| != |lines| && !merge) && rows.Some?
       && |existing + (set k | 0 <= k < |usable| :: usable[k].service)| <= 100 {
      LinesStayIn(shop.ledger, shop.cart, customer, usable);
      assert existing == ServicesIn(shop.cart, customer);
      assert LineServices(usable) == (set k | 0 <= k < |usable| :: usable[k].service);
      SmallerSet(ServicesIn(rows.value, customer), existing + LineServices(usable));
      RespondInBounds(shop, shop.(cart := rows.value), customer, CartOnly);
    }
  }

  lemma {:induction false} CheckoutKeepsRows(s: State, cart: seq<CartRow>, customer: nat, items: seq<Selection>)
    ensures CheckoutLines(s, cart, customer, items).Going? ==>
              SameRows(cart, CheckoutLines(s, cart, customer, items).cart)
  {
    if |items| > 0 {
      CheckoutKeepsRows(s, cart, customer, items[..|items| - 1]);
      var p := CheckoutLines(s, cart, customer, items[..|items| - 1]);
      if p.Going? {
        LineKeepsRows(p, customer, items[|items| - 1]);
      }
    }
  }

  lemma LineKeepsRows(p: Progress, customer: nat, item: Selection)
    requires p.Going?
    ensures CheckoutLine(p, customer, item).Going? ==> SameRows(p.cart, CheckoutLine(p, customer, item).cart)
  {
  }

  lemma FinishInBounds(shop: Shop, customer: nat, key: string, record: Request, items: seq<Selection>)
    requires InBounds(shop.cart)
    ensures InBounds(FinishCheckout(shop, customer, key, record, items).shop.cart)
  {
    CheckoutKeepsRows(shop.ledger, shop.cart, customer, items);
    var p := CheckoutLines(shop.ledger, shop.cart, customer, items);
    if p.Going? {
      SameRowsInBounds(shop.cart, p.cart);
      var done := CompleteRequest(shop.(ledger := p.ledger, cart := p.cart), customer, key, record, p.bookings);
      RespondInBounds(shop, done, customer, Bookings(p.bookings));
    }
  }

  lemma OrderInBounds(shop: Shop, customer: nat, key: string, fingerprint: string, items: seq<Selection>)
    requires InBounds(shop.cart)
    ensures InBounds(CheckoutCart(shop, customer, key, fingerprint, items).shop.cart)
  {
    match Begin(shop, customer, key, fingerprint)
    case Restored(bookings) =>
      RespondInBounds(shop, shop, customer, Bookings(bookings));
      FinishInBounds(shop, customer, key, shop.requests[(customer, key)], items);
    case Unfinished(record) => FinishInBounds(shop, customer, key, record, items);
    case _ =>
  }

  lemma DiscardInBounds(shop: Shop, customer: nat, service: nat)
    requires InBounds(shop.cart)
    ensures InBounds(RemoveFromCart(shop, customer, service).shop.cart)
  {
    DiscardKeepsOneEach(shop.cart, customer, service);
    FewerRows(shop.cart, WithoutRow(shop.cart, customer, service));
    RespondInBounds(shop, shop.(cart := WithoutRow(shop.cart, customer, service)), customer, CartOnly);
  }

  lemma QuantityInBounds(shop: Shop, customer: nat, service: nat, quantity: nat)
    requires InBounds(shop.cart)
    ensures InBounds(ChangeQuantity(shop, customer, service, quantity).shop.cart)
  {
    var found := Latest(shop.cart, OwnRow(customer, service));
    if found.Some? && shop.cart[found.value].booking.None? {
      var rows := shop.cart[found.value := shop.cart[found.value].(quantity := quantity)];
      SameRowsInBounds(shop.cart, rows);
      RespondInBounds(shop, shop.(cart := rows), customer, CartOnly);
    }
  }

  lemma BookingKeepsCart(shop: Shop, customer: nat, key: string, fingerprint: string, item: Selection, quantity: nat)
    ensures BookOnce(shop, customer, key, fingerprint, item, quantity).shop.cart == shop.cart
  {
  }

  /** In every run of the shop no cart holds a service twice or more than a hundred of them. */
  lemma {:induction false} CartsStayInBounds(run: seq<ShopEvent>)
    ensures InBounds(ShopRun(EmptyShop(), run).cart)
  {
    if |run| == 0 {
      forall customer: nat ensures |ServicesIn([], customer)| <= 100 {
        assert ServicesIn([], customer) == {};
      }
    } else {
      CartsStayInBounds(run[..|run| - 1]);
      StepInBounds(ShopRun(EmptyShop(), run[..|run| - 1]), run[|run| - 1]);
    }
  }

  lemma StepInBounds(shop: Shop, e: ShopEvent)
    requires InBounds(shop.cart)
    ensures InBounds(ShopStep(shop, e).shop.cart)
  {
    match e
    case Ledger(_) =>
    case ShowCart(customer) => RespondInBounds(shop, shop, customer, CartOnly);
    case Add(customer, lines, merge) => AddInBounds(shop, customer, lines, merge);
    case Discard(customer, service) => DiscardInBounds(shop, customer, service);
    case SetQuantity(customer, service, quantity) => QuantityInBounds(shop, customer, service, quantity);
    case PlaceOrder(customer, key, fingerprint, items) => OrderInBounds(shop, customer, key, fingerprint, items);
    case PlaceBooking(customer, key, fingerprint, item, quantity) =>
      BookingKeepsCart(shop, customer, key, fingerprint, item, quantity);
  }
}
