/** generate_booking_number: one counter per month, started from the numbers already in the table. */
module Serials {
  import opened Tables
  import opened Digits

  /** A month as `%y%m` writes it. */
  type Period = p: string | |p| == 4 witness "2604"

  const LAST_SERIAL := 9999

  /** The counter rows and the unique booking numbers in use, oldest first. */
  datatype Office = Office(serials: map<Period, nat>, numbers: seq<string>)

  function Prefix(p: Period): string { "PS" + p }

  predicate Starts(s: string, p: Period) { Prefix(p) <= s }

  /** The ten-character form: the month's prefix and four digits. */
  predicate DigitForm(s: string, p: Period) { |s| == 10 && Starts(s, p) && AllDigits(s[6..]) }

  function SerialOf(s: string): nat
    requires |s| == 10 && AllDigits(s[6..])
  {
    Value(s[6..])
  }

  function NumberOf(p: Period, n: nat): string { Prefix(p) + Padded(n, 4) }

  /** The greatest number of the month in text order (`order_by("-booking_number").first()`). */
  function Largest(numbers: seq<string>, p: Period): Option<string> {
    if |numbers| == 0 then None else
    var rest, last := Largest(numbers[..|numbers| - 1], p), numbers[|numbers| - 1];
    if Starts(last, p) && (rest.None? || Before(rest.value, last)) then Some(last) else rest
  }

  function StartingSerial(numbers: seq<string>, p: Period): nat {
    var latest := Largest(numbers, p);
    if latest.Some? && |latest.value| == 10 && AllDigits(latest.value[6..]) then SerialOf(latest.value) else 0
  }

  function Current(o: Office, p: Period): nat {
    if p in o.serials then o.serials[p] else StartingSerial(o.numbers, p)
  }

  datatype Issued = Issued(number: string) | Exhausted | Clash

  /** One booking's number: a refused or clashing number rolls the counter back with the booking. */
  function Issue(o: Office, p: Period): (Office, Issued) {
    var n := Current(o, p);
    if n >= LAST_SERIAL then (o, Exhausted) else
    var number := NumberOf(p, n + 1);
    if number in o.numbers then (o, Clash)
    else (Office(o.serials[p := n + 1], o.numbers + [number]), Issued(number))
  }

  // ----- the form of a number -----

  lemma NumberHasForm(p: Period, n: nat)
    requires n <= LAST_SERIAL
    ensures DigitForm(NumberOf(p, n), p) && SerialOf(NumberOf(p, n)) == n
  {
    assert Pow10(4) == 10000;
    PaddedLength(n, 4);
    assert NumberOf(p, n)[6..] == Padded(n, 4);
  }

  /** Among numbers of the digit form, text order is serial order. */
  lemma FormOrder(a: string, b: string, p: Period)
    requires DigitForm(a, p) && DigitForm(b, p)
    ensures Before(a, b) <==> SerialOf(a) < SerialOf(b)
  {
    assert a == Prefix(p) + a[6..] && b == Prefix(p) + b[6..];
    BeforeAfterPrefix(Prefix(p), a[6..], b[6..]);
    TextOrderIsNumericOrder(a[6..], b[6..]);
  }

  lemma PrefixesDiffer(s: string, p: Period, q: Period)
    requires Starts(s, p) && Starts(s, q)
    ensures p == q
  {
    assert s[2..6] == p && s[2..6] == q;
  }

  // ----- the starting serial -----

  lemma {:induction false} LargestIsLargest(numbers: seq<string>, p: Period)
    ensures var l := Largest(numbers, p);
            && (l.Some? ==> l.value in numbers && Starts(l.value, p))
            && (forall s :: s in numbers && Starts(s, p) ==> l.Some? && !Before(l.value, s))
  {
    if |numbers| > 0 {
      var front, last := numbers[..|numbers| - 1], numbers[|numbers| - 1];
      LargestIsLargest(front, p);
      var l := Largest(numbers, p);
      forall s | s in numbers && Starts(s, p) ensures l.Some? && !Before(l.value, s) {
        assert s == last || s in front;
        if l.Some? {
          BeforeIsTotal(l.value, s);
          var rest := Largest(front, p);
          if rest.Some? && s in front && Before(l.value, s) && Before(rest.value, l.value) {
            BeforeIsTransitive(rest.value, l.value, s);
          }
        }
      }
    }
  }

  /** Every number of the month in the digit form is at most the current serial. */
  ghost predicate Clear(o: Office, p: Period) {
    forall s :: s in o.numbers && DigitForm(s, p) ==> SerialOf(s) <= Current(o, p)
  }

  ghost predicate LargestHasForm(numbers: seq<string>, p: Period) {
    Largest(numbers, p).Some? && DigitForm(Largest(numbers, p).value, p)
  }

  /** The largest number of a month, when it has the digit form, carries the largest serial. */
  lemma LargestSerial(numbers: seq<string>, p: Period, s: string)
    requires LargestHasForm(numbers, p) && s in numbers && DigitForm(s, p)
    ensures SerialOf(s) <= StartingSerial(numbers, p)
  {
    LargestIsLargest(numbers, p);
    FormOrder(Largest(numbers, p).value, s, p);
  }

  /**
   * A new counter starts above every number of the digit form exactly when the greatest number in text order has
   * that form itself, or no number of that form but 0000 is there.
   */
  lemma NewCounterIsClearIff(o: Office, p: Period)
    requires p !in o.serials
    ensures Clear(o, p) <==> LargestHasForm(o.numbers, p)
                             || (forall s :: s in o.numbers && DigitForm(s, p) ==> SerialOf(s) == 0)
  {
    LargestIsLargest(o.numbers, p);
    if LargestHasForm(o.numbers, p) {
      forall s | s in o.numbers && DigitForm(s, p) ensures SerialOf(s) <= Current(o, p) {
        LargestSerial(o.numbers, p, s);
      }
    }
  }

  // ----- one number -----

  lemma {:induction false} LargestIgnores(numbers: seq<string>, s: string, p: Period)
    requires !Starts(s, p)
    ensures Largest(numbers + [s], p) == Largest(numbers, p)
  {
    assert (numbers + [s])[..|numbers|] == numbers;
  }

  /** A clear office refuses only past 9999; else the new number is the next one. */
  lemma IssueNext(o: Office, p: Period)
    requires Clear(o, p)
    ensures Issue(o, p).1 == if Current(o, p) >= LAST_SERIAL then Exhausted else Issued(NumberOf(p, Current(o, p) + 1))
  {
    if Current(o, p) < LAST_SERIAL {
      NumberHasForm(p, Current(o, p) + 1);
    }
  }

  lemma UnformedMonthStartsOver(numbers: seq<string>, p: Period)
    requires !LargestHasForm(numbers, p)
    ensures StartingSerial(numbers, p) == 0
  {
    LargestIsLargest(numbers, p);
  }

  lemma FormedMonthNeverClashes(o: Office, p: Period)
    requires p !in o.serials && LargestHasForm(o.numbers, p)
    ensures !Issue(o, p).1.Clash?
  {
    NewCounterIsClearIff(o, p);
    IssueNext(o, p);
  }

  /**
   * A new counter's first number is taken exactly when a number out of form hides 0001 from it.
   */
  lemma FirstNumberClashesIff(o: Office, p: Period)
    requires p !in o.serials
    ensures Issue(o, p).1.Clash? <==> NumberOf(p, 1) in o.numbers && !LargestHasForm(o.numbers, p)
    ensures Issue(o, p).1.Clash? ==> Issue(o, p).0 == o
  {
    if LargestHasForm(o.numbers, p) {
      FormedMonthNeverClashes(o, p);
    } else {
      UnformedMonthStartsOver(o.numbers, p);
    }
  }

  /** Issuing a number for one month moves that month's counter by one and no other. */
  lemma IssueMovesOneCounter(o: Office, p: Period, q: Period)
    requires Issue(o, p).1.Issued?
    ensures Current(Issue(o, p).0, q) == Current(o, q) + (if q == p then 1 else 0)
  {
    if q != p {
      NumberHasForm(p, Current(o, p) + 1);
      if Starts(NumberOf(p, Current(o, p) + 1), q) {
        PrefixesDiffer(NumberOf(p, Current(o, p) + 1), p, q);
      }
      LargestIgnores(o.numbers, NumberOf(p, Current(o, p) + 1), q);
    }
  }

  /** One issue: at most one counter moves, by one, and the number handed out is the next one, up to 9999. */
  lemma IssueStep(o: Office, p: Period, q: Period)
    ensures var (o', r) := Issue(o, p);
            && Current(o', q) == Current(o, q) + (if r.Issued? && q == p then 1 else 0)
            && (r.Issued? ==> r.number == NumberOf(p, Current(o, p) + 1) && Current(o, p) < LAST_SERIAL)
  {
    if Issue(o, p).1.Issued? {
      IssueMovesOneCounter(o, p, q);
    }
  }

  /** An issue for any month keeps a clear month clear. */
  lemma IssueKeepsClear(o: Office, q: Period, p: Period)
    requires Clear(o, p)
    ensures Clear(Issue(o, q).0, p)
  {
    var o' := Issue(o, q).0;
    if Issue(o, q).1.Issued? {
      NumberHasForm(q, Current(o, q) + 1);
      IssueMovesOneCounter(o, q, p);
      forall s | s in o'.numbers && DigitForm(s, p) ensures SerialOf(s) <= Current(o', p) {
        if s !in o.numbers {
          PrefixesDiffer(s, q, p);
        }
      }
    }
  }

  lemma SameCounterSameClash(o: Office, o': Office, p: Period)
    requires Issue(o, p).1.Clash? && Current(o', p) == Current(o, p) && o.numbers <= o'.numbers
    ensures Issue(o', p).1.Clash?
  {
  }

  /** An issue for any month keeps a month that clashes clashing. */
  lemma IssueKeepsClash(o: Office, q: Period, p: Period)
    requires Issue(o, p).1.Clash?
    ensures Issue(Issue(o, q).0, p).1.Clash?
  {
    if Issue(o, q).1.Issued? {
      IssueMovesOneCounter(o, q, p);
      SameCounterSameClash(o, Issue(o, q).0, p);
    }
  }

  // ----- runs -----

  /** The office after bookings were numbered in these months, one after another. */
  function IssueAll(o: Office, run: seq<Period>): Office {
    if |run| == 0 then o else Issue(IssueAll(o, run[..|run| - 1]), run[|run| - 1]).0
  }

  /** The numbers a run hands out for one month, in order. */
  ghost function IssuedFor(o: Office, run: seq<Period>, p: Period): seq<string> {
    if |run| == 0 then [] else
    var front := run[..|run| - 1];
    var issued := Issue(IssueAll(o, front), run[|run| - 1]).1;
    if issued.Issued? && run[|run| - 1] == p then IssuedFor(o, front, p) + [issued.number] else IssuedFor(o, front, p)
  }

  lemma {:induction false} RunKeepsClear(o: Office, run: seq<Period>, p: Period)
    requires Clear(o, p)
    ensures Clear(IssueAll(o, run), p)
  {
    if |run| > 0 {
      RunKeepsClear(o, run[..|run| - 1], p);
      IssueKeepsClear(IssueAll(o, run[..|run| - 1]), run[|run| - 1], p);
    }
  }

  /** A month whose next number is taken refuses every booking from then on, whatever other months issue. */
  lemma {:induction false} ClashIsForGood(o: Office, run: seq<Period>, p: Period)
    requires Issue(o, p).1.Clash?
    ensures Issue(IssueAll(o, run), p).1.Clash? && IssuedFor(o, run, p) == []
  {
    if |run| > 0 {
      ClashIsForGood(o, run[..|run| - 1], p);
      IssueKeepsClash(IssueAll(o, run[..|run| - 1]), run[|run| - 1], p);
    }
  }

  /** The numbers for month `p` in what one issue for month `q` handed out. */
  ghost function NewNumbers(r: Issued, q: Period, p: Period): seq<string> {
    if r.Issued? && q == p then [r.number] else []
  }

  /** What the last issue of a run adds for month `p`. */
  ghost function LastNumbers(o: Office, run: seq<Period>, p: Period): seq<string>
    requires |run| > 0
  {
    NewNumbers(Issue(IssueAll(o, run[..|run| - 1]), run[|run| - 1]).1, run[|run| - 1], p)
  }

  /** The month's numbers as a function of the serial. */
  function NumbersOf(p: Period): nat -> string { (n: nat) => NumberOf(p, n) }

  /** From counter value `n`, at most one number is added: the next one, below the limit. */
  ghost predicate CountsOne(n: nat, more: seq<string>, number: nat -> string) {
    more == [] || (more == [number(n + 1)] && n < LAST_SERIAL)
  }

  lemma IssueCountsOne(o: Office, q: Period, p: Period)
    ensures Current(Issue(o, q).0, p) == Current(o, p) + |NewNumbers(Issue(o, q).1, q, p)|
    ensures CountsOne(Current(o, p), NewNumbers(Issue(o, q).1, q, p), NumbersOf(p))
  {
    IssueStep(o, q, p);
  }

  lemma LastIssue(o: Office, run: seq<Period>, p: Period)
    requires |run| > 0
    ensures IssueAll(o, run) == Issue(IssueAll(o, run[..|run| - 1]), run[|run| - 1]).0
    ensures IssuedFor(o, run, p) == IssuedFor(o, run[..|run| - 1], p) + LastNumbers(o, run, p)
  {
  }

  /** `l` counts on from `n` without a gap. */
  ghost predicate CountsOn(l: seq<string>, n: nat, number: nat -> string) {
    && (forall k :: 0 <= k < |l| ==> l[k] == number(n + 1 + k))
    && (|l| > 0 ==> n + |l| <= LAST_SERIAL)
  }

  lemma CountsOnMore(l: seq<string>, n: nat, more: seq<string>, number: nat -> string)
    requires CountsOn(l, n, number) && CountsOne(n + |l|, more, number)
    ensures CountsOn(l + more, n, number)
  {
  }

  /**
   * In every run a month's numbers are dense: the k-th is the k-th after where its counter stood, never past 9999.
   * A clash, like a month used up, hands out nothing and moves nothing.
   */
  lemma {:induction false} NumbersAreDense(o: Office, run: seq<Period>, p: Period)
    ensures var l := IssuedFor(o, run, p);
            Current(IssueAll(o, run), p) == Current(o, p) + |l| && CountsOn(l, Current(o, p), NumbersOf(p))
  {
    if |run| > 0 {
      NumbersAreDense(o, run[..|run| - 1], p);
      LastIssue(o, run, p);
      IssueCountsOne(IssueAll(o, run[..|run| - 1]), run[|run| - 1], p);
      CountsOnMore(IssuedFor(o, run[..|run| - 1], p), Current(o, p), LastNumbers(o, run, p), NumbersOf(p));
    }
  }

  ghost predicate Increasing(l: seq<string>) { forall i, j :: 0 <= i < j < |l| ==> Before(l[i], l[j]) }

  ghost predicate AllAfter(l: seq<string>, s: string) { forall i :: 0 <= i < |l| ==> Before(s, l[i]) }

  lemma LaterSerialLaterText(p: Period, m: nat, n: nat)
    requires m < n <= LAST_SERIAL
    ensures Before(NumbersOf(p)(m), NumbersOf(p)(n))
  {
    NumberHasForm(p, m);
    NumberHasForm(p, n);
    FormOrder(NumberOf(p, m), NumberOf(p, n), p);
  }

  lemma CountingIncreases(l: seq<string>, n: nat, p: Period)
    requires CountsOn(l, n, NumbersOf(p))
    ensures Increasing(l)
  {
    forall i, j | 0 <= i < j < |l| ensures Before(l[i], l[j]) {
      LaterSerialLaterText(p, n + 1 + i, n + 1 + j);
    }
  }

  /** So they strictly increase in text order, in every run. */
  lemma NumbersIncrease(o: Office, run: seq<Period>, p: Period)
    ensures Increasing(IssuedFor(o, run, p))
  {
    NumbersAreDense(o, run, p);
    CountingIncreases(IssuedFor(o, run, p), Current(o, p), p);
  }

  lemma FormBeforeSerial(s: string, p: Period, n: nat)
    requires DigitForm(s, p) && SerialOf(s) < n <= LAST_SERIAL
    ensures Before(s, NumbersOf(p)(n))
  {
    NumberHasForm(p, n);
    FormOrder(s, NumberOf(p, n), p);
  }

  lemma CountingFollows(l: seq<string>, n: nat, p: Period, s: string)
    requires CountsOn(l, n, NumbersOf(p)) && DigitForm(s, p) && SerialOf(s) <= n
    ensures AllAfter(l, s)
  {
    forall i | 0 <= i < |l| ensures Before(s, l[i]) {
      FormBeforeSerial(s, p, n + 1 + i);
    }
  }

  /** Where the month starts clear, each of them follows every number of the form that was there before. */
  lemma NumbersFollow(o: Office, run: seq<Period>, p: Period, s: string)
    requires Clear(o, p) && s in o.numbers && DigitForm(s, p)
    ensures AllAfter(IssuedFor(o, run, p), s)
  {
    NumbersAreDense(o, run, p);
    CountingFollows(IssuedFor(o, run, p), Current(o, p), p, s);
  }

  ghost predicate AllDifferent(numbers: seq<string>) {
    forall i, j :: 0 <= i < j < |numbers| ==> numbers[i] != numbers[j]
  }

  lemma IssueKeepsDifferent(o: Office, p: Period)
    requires AllDifferent(o.numbers)
    ensures AllDifferent(Issue(o, p).0.numbers)
  {
  }

  lemma {:induction false} NumbersStayDifferent(o: Office, run: seq<Period>)
    requires AllDifferent(o.numbers)
    ensures AllDifferent(IssueAll(o, run).numbers)
  {
    if |run| > 0 {
      NumbersStayDifferent(o, run[..|run| - 1]);
      IssueKeepsDifferent(IssueAll(o, run[..|run| - 1]), run[|run| - 1]);
    }
  }

  /** In a month that starts clear the constraint never stops a booking, and refusal means the month is used up. */
  lemma NumbersNeverClash(o: Office, run: seq<Period>, p: Period)
    requires Clear(o, p)
    ensures !Issue(IssueAll(o, run), p).1.Clash?
    ensures Issue(IssueAll(o, run), p).1.Exhausted? <==> Current(o, p) + |IssuedFor(o, run, p)| >= 9999
  {
    RunKeepsClear(o, run, p);
    IssueNext(IssueAll(o, run), p);
    NumbersAreDense(o, run, p);
  }

  /** A single lettered number at the end of a month's text order makes a new counter run into 0001. */
  lemma OutOfFormNumberStopsTheMonth(p: Period, tail: char)
    requires tail > '9'
    ensures Issue(Office(map[], [NumberOf(p, 1), Prefix(p) + [tail]]), p).1.Clash?
  {
    var first, second := NumberOf(p, 1), Prefix(p) + [tail];
    var numbers := [first, second];
    NumberHasForm(p, 1);
    LargestIsLargest(numbers, p);
    assert first == Prefix(p) + first[6..];
    BeforeAfterPrefix(Prefix(p), first[6..], [tail]);
    assert second in numbers && Starts(second, p) && Before(first, second);
    FirstNumberClashesIff(Office(map[], numbers), p);
  }

  /** What a number looks like. */
  lemma FirstNumberOfApril()
    ensures NumberOf("2604", 1) == "PS26040001"
  {
    var text := "0001";
    assert text[..3] == "000" && text[..3][..2] == "00" && text[..3][..2][..1] == "0" && text[..3][..2][..1][..0] == "";
    PaddedValue(text);
    assert Prefix("2604") == "PS2604";
  }

  // ----- in place -----

  class NumberTable {
    var serials: map<Period, nat>
    var numbers: seq<string>

    constructor (o: Office)
      ensures Office(serials, numbers) == o
    {
      serials, numbers := o.serials, o.numbers;
    }

    /** `generate_booking_number` and the insert that uses it. */
    method GenerateBookingNumber(p: Period) returns (r: Issued)
      modifies this
      ensures (Office(serials, numbers), r) == Issue(old(Office(serials, numbers)), p)
    {
      var serials0 := serials;
      if p !in serials {
        var currentSerial := 0;
        var latest := Largest(numbers, p);
        if latest.Some? && |latest.value| == 10 && AllDigits(latest.value[6..]) {
          currentSerial := Value(latest.value[6..]);
        }
        serials := serials[p := currentSerial];
      }
      if serials[p] >= LAST_SERIAL {
        serials := serials0;
        return Exhausted;
      }
      serials := serials[p := serials[p] + 1];
      var number := NumberOf(p, serials[p]);
      if number in numbers {
        serials := serials0;
        return Clash;
      }
      assert serials == serials0[p := serials[p]];
      numbers := numbers + [number];
      r := Issued(number);
    }
  }
}
