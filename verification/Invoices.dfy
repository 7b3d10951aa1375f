/** apps/payments/invoices.py: one invoice per booking, numbered without gaps in each financial year. */
module Invoices {
  import opened Tables
  import opened Money
  import opened Model
  import opened Digits

  datatype Day = Day(year: nat, month: nat)

  /** The year whose April opens the financial year; the source's dates start at year 1. */
  function StartYear(day: Day): int { if day.month >= 4 then day.year else day.year - 1 }

  ghost predicate ValidDay(day: Day) { day.year >= 1 && 1 <= day.month <= 12 }

  /** `_financial_year`: the opening year and the last two digits of the next. */
  function FinancialYear(day: Day): string
    requires ValidDay(day)
  {
    Label(StartYear(day))
  }

  function Label(start: nat): string { Padded(start, 1) + ['-'] + LastTwo(start + 1) }

  function LastTwo(year: nat): string {
    var text := Padded(year, 1);
    if |text| <= 2 then text else text[|text| - 2..]
  }

  datatype Invoice = Invoice(booking: nat, number: string, year: string, taxable: int, cgst: int, sgst: int, total: int)

  datatype Book = Book(counters: map<string, nat>, invoices: seq<Invoice>)

  function ForBooking(booking: nat): Invoice -> bool { (v: Invoice) => v.booking == booking }

  function InYear(year: string): Invoice -> int { (v: Invoice) => if v.year == year then 1 else 0 }

  function InvoiceNumber(year: string, n: nat): string { "PS/" + year + "/" + Padded(n, 6) }

  function Numbering(): (string, nat) -> string { (year: string, n: nat) => InvoiceNumber(year, n) }

  datatype IssueReply = NotYet | InvoiceReply(invoice: nat)

  predicate Invoiceable(b: Booking) { b.payment.Paid? || b.status.Completed? }

  function Counter(book: Book, year: string): nat { if year in book.counters then book.counters[year] else 0 }

  /** `issue_invoice` for the locked booking row, on a day whose financial year has this label. */
  function IssueInvoice(book: Book, id: nat, b: Booking, tax: int, year: string): (Book, IssueReply) {
    var existing := Latest(book.invoices, ForBooking(id));
    if existing.Some? then (book, InvoiceReply(existing.value)) else
    if !Invoiceable(b) then (book, NotYet) else
    var n := Counter(book, year) + 1;
    var v := NewInvoice(id, b, tax, year, n);
    (Book(book.counters[year := n], book.invoices + [v]), InvoiceReply(|book.invoices|))
  }

  function NewInvoice(id: nat, b: Booking, tax: int, year: string, n: nat): Invoice {
    var cgst := HalfEven(tax, 2);
    Invoice(id, Numbering()(year, n), year, b.subtotal - b.discount, cgst, tax - cgst, b.total)
  }

  // ----- financial years -----

  lemma DecimalHasNo(n: nat, width: nat, c: char)
    requires !IsDigit(c)
    ensures c !in Padded(n, width)
  {
  }

  /** The year of the last first of April, months counted on end. */
  lemma YearOpensInApril(day: Day)
    requires ValidDay(day)
    ensures StartYear(day) == (12 * day.year + day.month - 4) / 12
  {
  }

  /** Two days carry the same label exactly when no first of April lies between them. */
  lemma SameLabelIff(a: Day, b: Day)
    requires ValidDay(a) && ValidDay(b)
    ensures FinancialYear(a) == FinancialYear(b)
            <==> (12 * a.year + a.month - 4) / 12 == (12 * b.year + b.month - 4) / 12
  {
    YearOpensInApril(a);
    YearOpensInApril(b);
    if FinancialYear(a) == FinancialYear(b) {
      LabelNamesItsYear(StartYear(a), StartYear(b));
    }
  }

  lemma LabelNamesItsYear(m: nat, n: nat)
    requires Label(m) == Label(n)
    ensures m == n
  {
    DecimalHasNo(m, 1, '-');
    DecimalHasNo(n, 1, '-');
    PrefixDecides(m, LastTwo(m + 1), n, LastTwo(n + 1), '-');
  }

  lemma PrefixDecides(m: nat, x: string, n: nat, y: string, separator: char)
    requires separator !in Padded(m, 1) && separator !in Padded(n, 1)
    requires Padded(m, 1) + [separator] + x == Padded(n, 1) + [separator] + y
    ensures m == n
  {
    SplitAt(Padded(m, 1), x, Padded(n, 1), y, separator);
    assert Value(Padded(m, 1)) == m && Value(Padded(n, 1)) == n;
  }

  /** The label of a four-digit year: the year, a hyphen, and the last two digits of the next one. */
  lemma LabelReads(start: nat)
    requires 1000 <= start <= 9998
    ensures |Label(start)| == 7 && Label(start)[4] == '-'
    ensures AllDigits(Label(start)[..4]) && Value(Label(start)[..4]) == start
    ensures AllDigits(Label(start)[5..]) && Value(Label(start)[5..]) == (start + 1) % 100
  {
    FourDigits(start);
    FourDigits(start + 1);
    LastTwoDigits(Padded(start + 1, 1));
    assert Label(start)[..4] == Padded(start, 1) && Label(start)[5..] == LastTwo(start + 1);
  }

  lemma FourDigits(n: nat)
    requires 1000 <= n <= 9999
    ensures |Padded(n, 1)| == 4
  {
    assert Pow10(3) == 1000 && Pow10(4) == 10000;
    PaddedWider(n, 1, 4);
    PaddedLength(n, 4);
  }

  lemma LastTwoDigits(s: string)
    requires AllDigits(s) && |s| == 4
    ensures AllDigits(s[2..]) && Value(s[2..]) == Value(s) % 100
  {
    assert s[..3][..2] == s[..2];
    assert s[2..][..1] == [s[2]] && s[2..][..1][..0] == [];
    assert Value(s[..3]) == 10 * Value(s[..2]) + DigitValue(s[2]);
    assert Value([s[2]]) == DigitValue(s[2]);
  }

  ghost predicate IsLabel(year: string) { '/' !in year }

  lemma LabelsHaveNoSlash(day: Day)
    requires ValidDay(day)
    ensures IsLabel(FinancialYear(day))
  {
    DecimalHasNo(StartYear(day), 1, '/');
    DecimalHasNo(StartYear(day) + 1, 1, '/');
  }

  lemma TextsDiffer(year: string, x: string, year': string, y: string)
    requires IsLabel(year) && IsLabel(year') && "PS/" + year + "/" + x == "PS/" + year' + "/" + y
    ensures year == year' && x == y
  {
    var a, b := "PS/" + year + "/" + x, "PS/" + year' + "/" + y;
    assert a[3..] == year + ['/'] + x && b[3..] == year' + ['/'] + y;
    SplitAt(year, x, year', y, '/');
  }

  lemma PaddedDiffers(m: nat, n: nat, width: nat)
    requires Padded(m, width) == Padded(n, width)
    ensures m == n
  {
    assert Value(Padded(m, width)) == m && Value(Padded(n, width)) == n;
  }

  /** What an invoice number looks like. */
  lemma FirstInvoiceReads()
    ensures InvoiceNumber("2025-26", 1) == "PS/2025-26/000001"
  {
    SixDigitsOfOne();
  }

  lemma SixDigitsOfOne()
    ensures Padded(1, 6) == "000001"
  {
    PaddedZero(5);
    assert Padded(1, 6) == Padded(0, 5) + ['1'];
  }

  /** Year and running number can be read back from an invoice number. */
  lemma NumbersDiffer(year: string, n: nat, year': string, n': nat)
    requires IsLabel(year) && IsLabel(year') && InvoiceNumber(year, n) == InvoiceNumber(year', n')
    ensures year == year' && n == n'
  {
    TextsDiffer(year, Padded(n, 6), year', Padded(n', 6));
    PaddedDiffers(n, n', 6);
  }

  // ----- the invoice book -----

  /** How many invoices of this year stand before row k, itself included. */
  ghost function Rank(invoices: seq<Invoice>, k: nat): int
    requires k < |invoices|
  {
    Sum(invoices[..k + 1], InYear(invoices[k].year))
  }

  /** Every row has a year's label and is numbered by its rank in that year. */
  ghost predicate Numbered(invoices: seq<Invoice>, numbering: (string, nat) -> string) {
    forall k :: 0 <= k < |invoices| ==>
      && IsLabel(invoices[k].year)
      && Rank(invoices, k) >= 1
      && invoices[k].number == numbering(invoices[k].year, Rank(invoices, k))
  }

  ghost predicate OnePerBooking(invoices: seq<Invoice>) {
    forall i, j :: 0 <= i < j < |invoices| ==> invoices[i].booking != invoices[j].booking
  }

  /** The counters agree with the rows: no number was skipped. */
  ghost predicate Dense(book: Book) {
    forall year :: Counter(book, year) == Sum(book.invoices, InYear(year))
  }

  ghost predicate Orderly(book: Book) {
    Numbered(book.invoices, Numbering()) && OnePerBooking(book.invoices) && Dense(book)
  }

  lemma AppendKeepsRanks(invoices: seq<Invoice>, v: Invoice, k: nat)
    requires k <= |invoices|
    ensures Rank(invoices + [v], k) == if k < |invoices| then Rank(invoices, k) else Sum(invoices, InYear(v.year)) + 1
  {
    var rows := invoices + [v];
    if k < |invoices| {
      assert rows[..k + 1] == invoices[..k + 1];
    } else {
      assert rows[..k + 1] == rows;
      SumAppend(invoices, v, InYear(v.year));
    }
  }

  /** A new row numbered next in its year. */
  lemma AppendKeepsNumbered(invoices: seq<Invoice>, v: Invoice, numbering: (string, nat) -> string)
    requires Numbered(invoices, numbering) && IsLabel(v.year)
    requires Sum(invoices, InYear(v.year)) >= 0
    requires v.number == numbering(v.year, Sum(invoices, InYear(v.year)) + 1)
    ensures Numbered(invoices + [v], numbering)
  {
    var rows := invoices + [v];
    forall k | 0 <= k < |rows|
      ensures IsLabel(rows[k].year) && Rank(rows, k) >= 1 && rows[k].number == numbering(rows[k].year, Rank(rows, k))
    {
      AppendKeepsRanks(invoices, v, k);
      if k < |invoices| {
        assert rows[k] == invoices[k];
      }
    }
  }

  lemma AppendKeepsDense(book: Book, v: Invoice)
    requires Dense(book)
    ensures Dense(Book(book.counters[v.year := Counter(book, v.year) + 1], book.invoices + [v]))
  {
    var book' := Book(book.counters[v.year := Counter(book, v.year) + 1], book.invoices + [v]);
    forall year ensures Counter(book', year) == Sum(book'.invoices, InYear(year)) {
      SumAppend(book.invoices, v, InYear(year));
    }
  }

  /** The book after a row for a new booking, numbered next in its year. */
  lemma AppendKeepsOrder(book: Book, v: Invoice, n: nat)
    requires Orderly(book) && IsLabel(v.year) && n == Counter(book, v.year) + 1 && v.number == Numbering()(v.year, n)
    requires Latest(book.invoices, ForBooking(v.booking)).None?
    ensures Orderly(Book(book.counters[v.year := n], book.invoices + [v]))
  {
    AppendKeepsNumbered(book.invoices, v, Numbering());
    AppendKeepsDense(book, v);
    AppendKeepsOnePerBooking(book.invoices, v);
  }

  lemma IssuedBook(book: Book, id: nat, b: Booking, tax: int, year: string)
    ensures var n := Counter(book, year) + 1;
            IssueInvoice(book, id, b, tax, year).0
            == if Latest(book.invoices, ForBooking(id)).Some? || !Invoiceable(b) then book
               else Book(book.counters[year := n], book.invoices + [NewInvoice(id, b, tax, year, n)])
  {
  }

  lemma NewInvoiceIsNumbered(id: nat, b: Booking, tax: int, year: string, n: nat)
    ensures var v := NewInvoice(id, b, tax, year, n);
            v.booking == id && v.year == year && v.number == Numbering()(year, n)
  {
  }

  lemma IssueKeepsOrder(book: Book, id: nat, b: Booking, tax: int, year: string)
    requires IsLabel(year) && Orderly(book)
    ensures Orderly(IssueInvoice(book, id, b, tax, year).0)
  {
    IssuedBook(book, id, b, tax, year);
    if Latest(book.invoices, ForBooking(id)).None? && Invoiceable(b) {
      var n := Counter(book, year) + 1;
      var v := NewInvoice(id, b, tax, year, n);
      NewInvoiceIsNumbered(id, b, tax, year, n);
      AppendKeepsOrder(book, v, n);
    }
  }

  lemma AppendKeepsOnePerBooking(invoices: seq<Invoice>, v: Invoice)
    requires OnePerBooking(invoices) && Latest(invoices, ForBooking(v.booking)).None?
    ensures OnePerBooking(invoices + [v])
  {
    forall i | 0 <= i < |invoices| ensures invoices[i].booking != v.booking {
      assert !ForBooking(v.booking)(invoices[i]);
    }
  }

  /** One call of the endpoint: the booking row as it stands then, its tax and the day. */
  datatype Call = Call(id: nat, row: Booking, tax: int, day: Day)

  ghost predicate ValidCalls(calls: seq<Call>) { forall k :: 0 <= k < |calls| ==> ValidDay(calls[k].day) }

  ghost function IssueRun(calls: seq<Call>): Book
    requires ValidCalls(calls)
  {
    if |calls| == 0 then Book(map[], []) else
    var c := calls[|calls| - 1];
    IssueInvoice(IssueRun(calls[..|calls| - 1]), c.id, c.row, c.tax, FinancialYear(c.day)).0
  }

  lemma {:induction false} EveryBookIsOrderly(calls: seq<Call>)
    requires ValidCalls(calls)
    ensures Orderly(IssueRun(calls))
  {
    if |calls| > 0 {
      var c := calls[|calls| - 1];
      EveryBookIsOrderly(calls[..|calls| - 1]);
      LabelsHaveNoSlash(c.day);
      IssueKeepsOrder(IssueRun(calls[..|calls| - 1]), c.id, c.row, c.tax, FinancialYear(c.day));
    }
  }

  lemma {:induction false} RankGrows(invoices: seq<Invoice>, i: nat, k: nat, year: string)
    requires i < k < |invoices| && invoices[k].year == year
    ensures Sum(invoices[..i + 1], InYear(year)) < Sum(invoices[..k + 1], InYear(year))
  {
    SumPrefixGrows(invoices, i + 1, k, year);
    assert invoices[..k + 1][..k] == invoices[..k];
  }

  lemma {:induction false} SumPrefixGrows(invoices: seq<Invoice>, i: nat, k: nat, year: string)
    requires i <= k <= |invoices|
    ensures Sum(invoices[..i], InYear(year)) <= Sum(invoices[..k], InYear(year))
  {
    if i < k {
      SumPrefixGrows(invoices, i, k - 1, year);
      assert invoices[..k][..k - 1] == invoices[..k - 1];
    }
  }

  /** No two invoices ever share a number, across years too, so the unique constraint never fires. */
  lemma InvoiceNumbersAreUnique(calls: seq<Call>, i: nat, k: nat)
    requires ValidCalls(calls) && i < k < |IssueRun(calls).invoices|
    ensures IssueRun(calls).invoices[i].number != IssueRun(calls).invoices[k].number
  {
    EveryBookIsOrderly(calls);
    var invoices := IssueRun(calls).invoices;
    var a, b := invoices[i], invoices[k];
    if a.number == b.number {
      NumbersDiffer(a.year, Rank(invoices, i), b.year, Rank(invoices, k));
      RankGrows(invoices, i, k, a.year);
    }
  }

  /** Asking again returns the same invoice, whatever happened to the booking, its tax or the date since. */
  lemma InvoiceIsKept(book: Book, id: nat, b: Booking, tax: int, year: string, b': Booking, tax': int, year': string)
    requires IssueInvoice(book, id, b, tax, year).1.InvoiceReply?
    ensures var (book', r) := IssueInvoice(book, id, b, tax, year);
            IssueInvoice(book', id, b', tax', year') == (book', r)
  {
    var (book', r) := IssueInvoice(book, id, b, tax, year);
    assert ForBooking(id)(book'.invoices[r.invoice]);
    forall k | r.invoice < k < |book'.invoices| ensures !ForBooking(id)(book'.invoices[k]) {}
  }

  /** An invoice exists after the call exactly when one existed or the booking qualifies; the tax halves add up. */
  lemma IssuedIff(book: Book, id: nat, b: Booking, tax: int, year: string)
    ensures var (book', r) := IssueInvoice(book, id, b, tax, year);
            && (r.InvoiceReply? <==>
                  Invoiceable(b) || exists k :: 0 <= k < |book.invoices| && book.invoices[k].booking == id)
            && (book' != book ==>
                  var v := book'.invoices[|book.invoices|];
                  && r.invoice == |book.invoices| && book'.invoices == book.invoices + [v]
                  && v.booking == id && v.year == year && v.total == b.total && v.taxable == b.subtotal - b.discount
                  && v.cgst + v.sgst == tax && -1 <= v.cgst - v.sgst <= 1 && (v.cgst != v.sgst ==> v.cgst % 2 == 0))
  {
    var existing := Latest(book.invoices, ForBooking(id));
    if existing.Some? {
      assert ForBooking(id)(book.invoices[existing.value]);
    } else {
      forall k | 0 <= k < |book.invoices| ensures book.invoices[k].booking != id {
        assert !ForBooking(id)(book.invoices[k]);
      }
    }
  }

  // ----- in place -----

  class InvoiceTable {
    var counters: map<string, nat>
    var invoices: seq<Invoice>

    constructor ()
      ensures Book(counters, invoices) == Book(map[], [])
    {
      counters, invoices := map[], [];
    }

    method NextNumber(year: string) returns (n: nat)
      modifies this`counters
      ensures n == Counter(Book(old(counters), invoices), year) + 1 && counters == old(counters)[year := n]
    {
      if year !in counters {
        counters := counters[year := 0];
      }
      n := counters[year] + 1;
      counters := counters[year := n];
    }

    method Issue(id: nat, b: Booking, tax: int, year: string) returns (r: IssueReply)
      modifies this
      ensures (Book(counters, invoices), r) == IssueInvoice(old(Book(counters, invoices)), id, b, tax, year)
    {
      var existing := Latest(invoices, ForBooking(id));
      if existing.Some? { return InvoiceReply(existing.value); }
      if !b.payment.Paid? && !b.status.Completed? { return NotYet; }
      var n := NextNumber(year);
      var cgst := HalfEven(tax, 2);
      var sgst := tax - cgst;
      var row := Invoice(id, Numbering()(year, n), year, b.subtotal - b.discount, cgst, sgst, b.total);
      assert row == NewInvoice(id, b, tax, year, n);
      invoices := invoices + [row];
      r := InvoiceReply(|invoices| - 1);
    }
  }
}
