/** The ledger's tables as the service functions see them: rows read into variables and saved back in place. */
module Database {
  import opened Catalogue
  import opened Model

  class Store {
    var services: seq<Service>
    var technicians: seq<Technician>
    var slots: seq<Slot>
    var bookings: seq<Booking>
    var payments: seq<Payment>
    var notices: seq<Notice>

    ghost function Rows(): State
      reads this
    {
      State(services, technicians, slots, bookings, payments, notices)
    }

    constructor (rows: State)
      ensures Rows() == rows
    {
      services, technicians, slots := rows.services, rows.technicians, rows.slots;
      bookings, payments, notices := rows.bookings, rows.payments, rows.notices;
    }

    /** A copy of the present rows, as a savepoint keeps it. */
    method Savepoint() returns (rows: State)
      ensures rows == Rows()
    {
      rows := State(services, technicians, slots, bookings, payments, notices);
    }

    method Rollback(rows: State)
      modifies this
      ensures Rows() == rows
    {
      services, technicians, slots := rows.services, rows.technicians, rows.slots;
      bookings, payments, notices := rows.bookings, rows.payments, rows.notices;
    }

    method SaveBookingRow(i: nat, row: Booking)
      requires i < |bookings|
      modifies this`bookings
      ensures bookings == old(bookings)[i := row]
    {
      bookings := bookings[i := row];
    }

    /** An UPDATE that the unique constraints may refuse. */
    method SavePaymentRow(i: nat, row: Payment) returns (ok: bool)
      requires i < |payments|
      modifies this`payments
      ensures ok == CanUpdate(old(payments), i, row)
      ensures payments == if ok then old(payments)[i := row] else old(payments)
    {
      ok := CanUpdate(payments, i, row);
      if ok { payments := payments[i := row]; }
    }

    /** An INSERT that the unique constraints may refuse. */
    method InsertPayment(row: Payment) returns (ok: bool)
      modifies this`payments
      ensures ok == CanInsert(old(payments), row)
      ensures payments == if ok then old(payments) + [row] else old(payments)
    {
      ok := CanInsert(payments, row);
      if ok { payments := payments + [row]; }
    }

    method EmitEvent(kind: NoticeKind, booking: nat)
      modifies this`notices
      ensures notices == old(notices) + [Notice(kind, booking)]
    {
      notices := notices + [Notice(kind, booking)];
    }
  }
}
