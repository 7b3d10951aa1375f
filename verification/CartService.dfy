/** The cart views and the checkout request table, in place, one transaction per call. */
module CartService {
  import opened Tables
  import opened Model
  import opened Database
  import opened BookingService
  import opened Checkout

  class Storefront {
    const db: Store
    var cart: seq<CartRow>
    var requests: map<(nat, string), Request>

    ghost function Current(): Shop
      reads this, db
    {
      Shop(db.Rows(), cart, requests)
    }

    constructor (db: Store)
      ensures this.db == db && cart == [] && requests == map[]
    {
      this.db := db;
      cart, requests := [], map[];
    }

    method Abort(rows: State, rowsOfCart: seq<CartRow>, rowsOfRequests: map<(nat, string), Request>,
                 problem: Problem) returns (a: Answer)
      modifies this, db
      ensures Current() == Shop(rows, rowsOfCart, rowsOfRequests) && a == Declined(problem)
    {
      db.Rollback(rows);
      cart, requests := rowsOfCart, rowsOfRequests;
      a := Declined(problem);
    }

    // ----- cart_response -----

    method DeletePaidRows(customer: nat)
      modifies this`cart
      ensures cart == Purged(db.Rows(), old(cart), customer)
    {
      var rows := db.Savepoint();
      var kept: seq<CartRow> := [];
      for k := 0 to |cart|
        invariant kept == Purged(rows, cart[..k], customer)
      {
        assert cart[..k + 1][..k] == cart[..k];
        if !(cart[k].customer == customer && PaidFor(rows, cart[k])) {
          kept := kept + [cart[k]];
        }
      }
      assert cart[..|cart|] == cart;
      cart := kept;
    }

    /** Accumulates count, total and deposit over the customer's rows; None where the source raises. */
    method CartResponse(customer: nat) returns (summary: Option<Summary>)
      modifies this`cart
      ensures cart == Purged(db.Rows(), old(cart), customer)
      ensures summary.Some? <==> Showable(db.Rows(), cart, customer)
      ensures summary.Some? ==> summary.value == Summarised(db.Rows(), cart, customer)
    {
      DeletePaidRows(customer);
      var rows := db.Savepoint();
      var count, total, advance := 0, 0, 0;
      for k := 0 to |cart|
        invariant Showable(rows, cart[..k], customer)
        invariant Summary(count, total, advance) == Summarised(rows, cart[..k], customer)
      {
        assert cart[..k + 1][..k] == cart[..k];
        if Shows(cart[k], customer) {
          var quote := RowQuote(rows, cart[k]);
          if quote.None? { return None; }
          count := count + 1;
          total := total + quote.value.price;
          advance := advance + quote.value.deposit;
        }
      }
      assert cart[..|cart|] == cart;
      summary := Some(Summary(count, total, advance));
    }

    /** Ends a transaction with the cart response, or undoes it when the response raises. */
    method Reply(rows: State, rowsOfCart: seq<CartRow>, rowsOfRequests: map<(nat, string), Request>, customer: nat,
                 answer: Answer)
      returns (a: Answer)
      modifies this, db
      ensures Checkout.Result(Current(), a)
              == Respond(Shop(rows, rowsOfCart, rowsOfRequests), old(Current()), customer, answer)
    {
      var summary := CartResponse(customer);
      if summary.None? {
        a := Abort(rows, rowsOfCart, rowsOfRequests, CartUnpriceable);
      } else {
        a := answer;
      }
    }

    method ShowCart(customer: nat) returns (a: Answer)
      modifies this, db
      ensures Checkout.Result(Current(), a) == Respond(old(Current()), old(Current()), customer, CartOnly)
    {
      var rows := db.Savepoint();
      a := Reply(rows, cart, requests, customer, CartOnly);
    }

    // ----- editing the cart -----

    /** The loop of `CartView.post`: get or create each row, then quantity and booking; false where a booking fails. */
    method AddLines(rows: State, customer: nat, lines: seq<AddLine>) returns (ok: bool)
      modifies this`cart
      ensures ok == AddAll(rows, old(cart), customer, lines).Some?
      ensures ok ==> cart == AddAll(rows, old(cart), customer, lines).value
    {
      var cart0 := cart;
      ok := true;
      for k := 0 to |lines|
        invariant ok && AddAll(rows, cart0, customer, lines[..k]) == Some(cart)
      {
        OneMoreAdded(rows, cart0, customer, lines, k);
        var added := AddOne(rows, cart, customer, lines[k]);
        if added.None? {
          AddAllStops(rows, cart0, customer, lines, k + 1);
          return false;
        }
        cart := added.value;
      }
      assert lines[..|lines|] == lines;
    }

    method Add(customer: nat, lines: seq<AddLine>, merge: bool) returns (a: Answer)
      modifies this, db
      ensures Checkout.Result(Current(), a) == AddToCart(old(Current()), customer, lines, merge)
    {
      var rows := db.Savepoint();
      var cart0, requests0 := cart, requests;
      var usable := AvailableLines(rows, lines);
      if |usable| != |lines| && !merge { return Declined(ServiceGone); }
      var existing := set k | 0 <= k < |cart| && cart[k].customer == customer :: cart[k].service;
      if |existing + (set k | 0 <= k < |usable| :: usable[k].service)| > 100 { return Declined(CartFull); }
      var added := AddLines(rows, customer, usable);
      if !added {
        a := Abort(rows, cart0, requests0, BookingUnverified);
        return;
      }
      a := Reply(rows, cart0, requests0, customer, CartOnly);
    }

    lemma OneMoreAdded(s: State, rows: seq<CartRow>, customer: nat, lines: seq<AddLine>, k: nat)
      requires k < |lines|
      ensures var before := AddAll(s, rows, customer, lines[..k]);
              AddAll(s, rows, customer, lines[..k + 1])
                  == if before.None? then None else AddOne(s, before.value, customer, lines[k])
    {
      assert lines[..k + 1][..k] == lines[..k];
    }

    lemma {:induction false} AddAllStops(s: State, rows: seq<CartRow>, customer: nat, lines: seq<AddLine>, n: nat)
      requires n <= |lines| && AddAll(s, rows, customer, lines[..n]).None?
      ensures AddAll(s, rows, customer, lines).None?
    {
      if n == |lines| {
        assert lines[..n] == lines;
      } else {
        assert lines[..|lines| - 1][..n] == lines[..n];
        AddAllStops(s, rows, customer, lines[..|lines| - 1], n);
      }
    }

    method Discard(customer: nat, service: nat) returns (a: Answer)
      modifies this, db
      ensures Checkout.Result(Current(), a) == RemoveFromCart(old(Current()), customer, service)
    {
      var rows := db.Savepoint();
      var cart0 := cart;
      cart := WithoutRow(cart, customer, service);
      a := Reply(rows, cart0, requests, customer, CartOnly);
    }

    method SetQuantity(customer: nat, service: nat, quantity: nat) returns (a: Answer)
      modifies this, db
      ensures Checkout.Result(Current(), a) == ChangeQuantity(old(Current()), customer, service, quantity)
    {
      var found := Latest(cart, OwnRow(customer, service));
      if found.None? { return Declined(NotInCart); }
      var row := cart[found.value];
      if row.booking.Some? { return Declined(QuantityFixed); }
      var rows := db.Savepoint();
      var cart0 := cart;
      row := row.(quantity := quantity);
      cart := cart[found.value := row];
      a := Reply(rows, cart0, requests, customer, CartOnly);
    }

    // ----- idempotency.py -----

    /** The request row is created on first sight of the key; the rest only reads it. */
    method BeginCheckoutRequest(customer: nat, key: string, fingerprint: string) returns (b: Begun)
      modifies this`requests
      ensures b == Begin(old(Current()), customer, key, fingerprint)
      ensures requests == if (customer, key) in old(requests) then old(requests)
                          else old(requests)[(customer, key) := Request(fingerprint, [], false)]
    {
      if (customer, key) !in requests {
        requests := requests[(customer, key) := Request(fingerprint, [], false)];
      }
      var record := requests[(customer, key)];
      if record.fingerprint != fingerprint { return Mismatch; }
      if !record.completed { return Unfinished(record); }
      var rows := db.Savepoint();
      if !Restorable(rows, customer, record.bookings) { return Lost; }
      b := Restored(record.bookings);
    }

    method CompleteCheckoutRequest(customer: nat, key: string, bookings: seq<nat>)
      requires (customer, key) in requests
      modifies this`requests
      ensures Current() == CompleteRequest(old(Current()), customer, key, old(requests)[(customer, key)], bookings)
    {
      var record := requests[(customer, key)];
      record := record.(bookings := bookings);
      record := record.(completed := true);
      requests := requests[(customer, key) := record];
    }

    // ----- checkout -----

    method BookLine(customer: nat, item: Selection, bookings: seq<nat>) returns (next: seq<nat>, stop: Option<Problem>)
      modifies this`cart, db
      ensures var p := CheckoutLine(Going(old(db.Rows()), old(cart), bookings), customer, item);
              match stop
              case Some(problem) => p == Stopped(problem)
              case None => p == Going(db.Rows(), cart, next)
    {
      next, stop := bookings, None;
      var found := Latest(cart, OwnRow(customer, item.service));
      if found.None? { return bookings, Some(NotInCart); }
      var row := cart[found.value];
      if row.booking.Some? {
        if row.booking.value >= |db.bookings|
            || db.bookings[row.booking.value].status !in {PendingPayment, PaymentFailed} {
          return bookings, Some(BookingChanged);
        }
        next := bookings + [row.booking.value];
      } else {
        var r := BookSlot(db, customer, item.service, item.slot, row.quantity, item.site);
        if r.BookingReply? {
          row := row.(booking := Some(r.booking));
          cart := cart[found.value := row];
          next := bookings + [r.booking];
        } else {
          stop := Some(Unbooked(r));
        }
      }
    }

    /** The loop of checkout: each selected service is linked to its booking, until one line stops it. */
    method BookLines(customer: nat, items: seq<Selection>) returns (bookings: seq<nat>, stop: Option<Problem>)
      modifies this`cart, db
      ensures var p := CheckoutLines(old(db.Rows()), old(cart), customer, items);
              match stop
              case Some(problem) => p == Stopped(problem)
              case None => p == Going(db.Rows(), cart, bookings)
    {
      var rows := db.Savepoint();
      var cart0 := cart;
      bookings, stop := [], None;
      for k := 0 to |items|
        invariant stop.None?
        invariant CheckoutLines(rows, cart0, customer, items[..k]) == Going(db.Rows(), cart, bookings)
      {
        OneMoreLine(rows, cart0, customer, items, k);
        bookings, stop := BookLine(customer, items[k], bookings);
        if stop.Some? {
          StopsHere(rows, cart0, customer, items, k + 1);
          return;
        }
      }
      assert items[..|items|] == items;
    }

    /** `CartCheckoutView.post`: every selected service becomes a booking, or none does. */
    method PlaceOrder(customer: nat, key: string, fingerprint: string, items: seq<Selection>) returns (a: Answer)
      modifies this, db
      ensures Checkout.Result(Current(), a) == CheckoutCart(old(Current()), customer, key, fingerprint, items)
    {
      if !ValidItems(items) { return Declined(BadItems); }
      var rows := db.Savepoint();
      var cart0, requests0 := cart, requests;
      var begun := BeginCheckoutRequest(customer, key, fingerprint);
      if begun.Mismatch? { a := Abort(rows, cart0, requests0, KeyReused); return; }
      if begun.Lost? { a := Abort(rows, cart0, requests0, CannotRestore); return; }
      if begun.Restored? && |begun.bookings| > 0 {
        a := Reply(rows, cart0, requests0, customer, Bookings(begun.bookings));
        return;
      }
      a := FinishOrder(rows, cart0, requests0, customer, key, items);
    }

    method FinishOrder(rows: State, cart0: seq<CartRow>, requests0: map<(nat, string), Request>, customer: nat,
                       key: string, items: seq<Selection>)
      returns (a: Answer)
      requires (customer, key) in requests && db.Rows() == rows && cart == cart0
      requires requests == requests0[(customer, key) := requests[(customer, key)]]
      modifies this, db
      ensures Checkout.Result(Current(), a)
              == FinishCheckout(Shop(rows, cart0, requests0), customer, key, old(requests)[(customer, key)], items)
    {
      var bookings, stop := BookLines(customer, items);
      if stop.Some? { a := Abort(rows, cart0, requests0, stop.value); return; }
      ghost var record := requests[(customer, key)];
      CompleteCheckoutRequest(customer, key, bookings);
      assert requests == requests0[(customer, key) := record.(bookings := bookings, completed := true)];
      a := Reply(rows, cart0, requests0, customer, Bookings(bookings));
    }

    lemma OneMoreLine(s: State, rows: seq<CartRow>, customer: nat, items: seq<Selection>, k: nat)
      requires k < |items|
      ensures var p := CheckoutLines(s, rows, customer, items[..k]);
              CheckoutLines(s, rows, customer, items[..k + 1])
                  == if p.Stopped? then p else CheckoutLine(p, customer, items[k])
    {
      assert items[..k + 1][..k] == items[..k];
    }

    lemma {:induction false} StopsHere(s: State, rows: seq<CartRow>, customer: nat, items: seq<Selection>, n: nat)
      requires n <= |items| && CheckoutLines(s, rows, customer, items[..n]).Stopped?
      ensures CheckoutLines(s, rows, customer, items) == CheckoutLines(s, rows, customer, items[..n])
    {
      if n == |items| {
        assert items[..n] == items;
      } else {
        assert items[..|items| - 1][..n] == items[..n];
        StopsHere(s, rows, customer, items[..|items| - 1], n);
      }
    }

    /** `BookingViewSet.create`. */
    method PlaceBooking(customer: nat, key: string, fingerprint: string, item: Selection,
                        quantity: nat) returns (a: Answer)
      modifies this, db
      ensures Checkout.Result(Current(), a) == BookOnce(old(Current()), customer, key, fingerprint, item, quantity)
    {
      var rows := db.Savepoint();
      var cart0, requests0 := cart, requests;
      var begun := BeginCheckoutRequest(customer, key, fingerprint);
      if begun.Mismatch? { a := Abort(rows, cart0, requests0, KeyReused); return; }
      if begun.Lost? { a := Abort(rows, cart0, requests0, CannotRestore); return; }
      if begun.Restored? && |begun.bookings| > 0 { return Bookings(begun.bookings[..1]); }
      var r := BookSlot(db, customer, item.service, item.slot, quantity, item.site);
      if r.BookingReply? {
        CompleteCheckoutRequest(customer, key, [r.booking]);
        a := Bookings([r.booking]);
      } else {
        a := Abort(rows, cart0, requests0, Unbooked(r));
      }
    }
  }
}
