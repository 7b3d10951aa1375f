/** apps/notifications: delivery callbacks, the admin actions and the delivery task on one notification row. */
module Notifications {
  import opened Tables

  datatype Status = Queued | Sent | Delivered | Read | Failed | Cancelled

  datatype Row = Row(status: Status, attempts: nat, messageId: string, error: string)

  // ----- callbacks -----

  datatype Report = SentReport | DeliveredReport | ReadReport | FailedReport | OtherReport

  /** The provider's lower-cased status text; anything unknown maps to nothing. */
  function ReportOf(text: string): Report {
    if text == "submitted" || text == "sent" then SentReport
    else if text == "delivered" then DeliveredReport
    else if text == "read" then ReadReport
    else if text == "failed" then FailedReport
    else OtherReport
  }

  /** Statuses without a rank of their own count as zero. */
  function Rank(s: Status): nat {
    match s
    case Sent => 1
    case Delivered => 2
    case Read => 3
    case _ => 0
  }

  predicate Arrived(s: Status) { s.Delivered? || s.Read? }

  function Target(r: Report): Option<Status> {
    match r
    case SentReport => Some(Sent)
    case DeliveredReport => Some(Delivered)
    case ReadReport => Some(Read)
    case FailedReport => Some(Failed)
    case OtherReport => None
  }

  function Merge(s: Status, r: Report): Status {
    var target := Target(r);
    if target == Some(Failed) then (if Arrived(s) then s else Failed)
    else if target.Some? && Rank(target.value) >= Rank(s) then target.value
    else s
  }

  function AfterCallback(row: Row, r: Report, providerIds: seq<string>): Row {
    var status := Merge(row.status, r);
    row.(status := status,
         messageId := if |providerIds| > 0 && row.messageId == "" then providerIds[0] else row.messageId,
         error := if status.Failed? then "MSG91 reported delivery failure." else "")
  }

  function MergeAll(s: Status, reports: seq<Report>): Status {
    if |reports| == 0 then s else Merge(MergeAll(s, reports[..|reports| - 1]), reports[|reports| - 1])
  }

  /** The last sent or failed report, the only ones that can undo each other. */
  function LastAttempt(reports: seq<Report>): Option<Status> {
    if |reports| == 0 then None else
    match reports[|reports| - 1]
    case SentReport => Some(Sent)
    case FailedReport => Some(Failed)
    case _ => LastAttempt(reports[..|reports| - 1])
  }

  /** Where any sequence of callbacks ends, from any start. */
  lemma {:induction false} WhereCallbacksEnd(s: Status, reports: seq<Report>)
    ensures MergeAll(s, reports) ==
            if s.Read? || ReadReport in reports then Read
            else if s.Delivered? || DeliveredReport in reports then Delivered
            else if LastAttempt(reports).Some? then LastAttempt(reports).value
            else s
  {
    if |reports| > 0 {
      var front, last := reports[..|reports| - 1], reports[|reports| - 1];
      WhereCallbacksEnd(s, front);
      LastAttemptNeverArrives(front);
      assert reports == front + [last];
      assert forall r :: r in reports <==> r in front || r == last;
    }
  }

  /** Once anything arrived, callbacks may come in any order: only which ones came matters. */
  lemma OrderOfCallbacksIsIrrelevant(s: Status, a: seq<Report>, b: seq<Report>)
    requires multiset(a) == multiset(b) && Arrived(MergeAll(s, a))
    ensures MergeAll(s, a) == MergeAll(s, b)
  {
    WhereCallbacksEnd(s, a);
    WhereCallbacksEnd(s, b);
    assert ReadReport in a <==> ReadReport in multiset(a);
    assert ReadReport in b <==> ReadReport in multiset(b);
    assert DeliveredReport in a <==> DeliveredReport in multiset(a);
    assert DeliveredReport in b <==> DeliveredReport in multiset(b);
    LastAttemptNeverArrives(a);
  }

  lemma {:induction false} LastAttemptNeverArrives(reports: seq<Report>)
    ensures LastAttempt(reports).Some? ==> !Arrived(LastAttempt(reports).value)
  {
    if |reports| > 0 {
      LastAttemptNeverArrives(reports[..|reports| - 1]);
    }
  }

  function ReportsOf(texts: seq<string>): seq<Report> {
    seq(|texts|, k requires 0 <= k < |texts| => ReportOf(texts[k]))
  }

  /** The last text that reports sending or failure, if any. */
  function LastAttemptText(texts: seq<string>): Option<string> {
    if |texts| == 0 then None else
    if texts[|texts| - 1] in {"submitted", "sent", "failed"} then Some(texts[|texts| - 1])
    else LastAttemptText(texts[..|texts| - 1])
  }

  lemma {:induction false} LastAttemptReads(texts: seq<string>)
    ensures LastAttempt(ReportsOf(texts)) ==
            match LastAttemptText(texts)
            case None => None
            case Some(text) => Some(if text == "failed" then Failed else Sent)
  {
    if |texts| > 0 {
      LastAttemptReads(texts[..|texts| - 1]);
      assert ReportsOf(texts)[..|texts| - 1] == ReportsOf(texts[..|texts| - 1]);
    }
  }

  /** In the provider's words: read beats delivered, which beats the last word on sending; unknown words are nothing. */
  lemma WhereTextsEnd(s: Status, texts: seq<string>)
    ensures MergeAll(s, ReportsOf(texts)) ==
            if s.Read? || "read" in texts then Read
            else if s.Delivered? || "delivered" in texts then Delivered
            else match LastAttemptText(texts)
                 case None => s
                 case Some(text) => if text == "failed" then Failed else Sent
  {
    WhereCallbacksEnd(s, ReportsOf(texts));
    LastAttemptReads(texts);
    ReportedIff(texts, "read", ReadReport);
    ReportedIff(texts, "delivered", DeliveredReport);
  }

  lemma ReportedIff(texts: seq<string>, word: string, report: Report)
    requires forall text :: ReportOf(text) == report <==> text == word
    ensures report in ReportsOf(texts) <==> word in texts
  {
    if word in texts {
      var k :| 0 <= k < |texts| && texts[k] == word;
      assert ReportsOf(texts)[k] == report;
    }
  }

  /** The first message id a callback names is kept for good; the error stands exactly while the status is FAILED. */
  lemma CallbackKeepsId(row: Row, r: Report, providerIds: seq<string>)
    ensures var row' := AfterCallback(row, r, providerIds);
            && row'.attempts == row.attempts
            && (row.messageId != "" ==> row'.messageId == row.messageId)
            && (row.messageId == "" && |providerIds| > 0 ==> row'.messageId == providerIds[0])
            && (row'.error != "" <==> row'.status.Failed?)
  {
  }

  // ----- sending -----

  /** The provider's answer: a message id, or an exception with its text. */
  datatype Provider = Accepted(messageId: string) | Raised(text: string)

  /** `send_notification` on the row object it was given. */
  function AfterSend(row: Row, p: Provider): Row {
    match p
    case Accepted(id) => Row(Sent, row.attempts + 1, id, "")
    case Raised(text) => row.(status := Failed, attempts := row.attempts + 1, error := text)
  }

  datatype Action = Retry | SendNow | Cancel(reason: string)

  predicate Admits(s: Status, a: Action) {
    match a
    case Retry => s.Failed?
    case SendNow => s.Queued? || s.Failed?
    case Cancel(_) => s.Queued?
  }

  /** What an admitted action leaves in the row object it read. */
  function AfterAction(row: Row, a: Action, p: Provider): Row {
    match a
    case Cancel(reason) => row.(status := Cancelled, error := reason)
    case _ => AfterSend(row, p)
  }

  /** `deliver_notification`, one transaction: a provider failure is raised and rolls the row back. */
  function AfterDelivery(row: Row, p: Provider): Row {
    if row.status in {Sent, Delivered, Read, Cancelled} || p.Raised? then row else AfterSend(row, p)
  }

  /** Retrying asks for FAILED, sending for QUEUED or FAILED, cancelling for QUEUED; every committed try counts. */
  lemma SendingAllowedIff(row: Row, a: Action, p: Provider)
    ensures Admits(row.status, Retry) <==> row.status.Failed?
    ensures Admits(row.status, SendNow) <==> row.status.Queued? || row.status.Failed?
    ensures forall reason :: Admits(row.status, Cancel(reason)) <==> row.status.Queued?
    ensures var row' := AfterAction(row, a, p);
            match a
            case Cancel(reason) => row' == row.(status := Cancelled, error := reason)
            case _ =>
              && row'.attempts == row.attempts + 1
              && (p.Accepted? ==> row'.status.Sent? && row'.messageId == p.messageId && row'.error == "")
              && (p.Raised? ==> row'.status.Failed? && row'.messageId == row.messageId && row'.error == p.text)
  {
  }

  /** The delivery task sends a QUEUED or FAILED row if the provider accepts it, and else leaves the row untouched. */
  lemma DeliverySendsIff(row: Row, p: Provider)
    ensures var row' := AfterDelivery(row, p);
            if (row.status.Queued? || row.status.Failed?) && p.Accepted? then
              row' == Row(Sent, row.attempts + 1, p.messageId, "")
            else row' == row
  {
  }

  // ----- writers interleaved -----

  /** The row and the admin requests that have read it and not yet written. */
  datatype Desk = Desk(row: Row, open: map<nat, (Row, Action)>)

  datatype Move =
    | Callback(report: Report, providerIds: seq<string>)
    | Deliver(provider: Provider)
    | ReadRow(request: nat, action: Action)
    | WriteRow(request: nat, answer: Provider)
    | Abandon(request: nat)

  /** What saving the object a request read does to the row: the fields named in its update. */
  function Saved(row: Row, read: Row, a: Action, p: Provider): Row {
    var given := AfterAction(read, a, p);
    match a
    case Cancel(_) => row.(status := given.status, error := given.error)
    case _ =>
      if p.Accepted? then given
      else row.(status := given.status, attempts := given.attempts, error := given.error)
  }

  function Play(d: Desk, m: Move): Desk {
    match m
    case Callback(report, providerIds) => d.(row := AfterCallback(d.row, report, providerIds))
    case Deliver(p) => d.(row := AfterDelivery(d.row, p))
    case ReadRow(request, action) =>
      if request in d.open || !Admits(d.row.status, action) then d
      else d.(open := d.open[request := (d.row, action)])
    case WriteRow(request, p) =>
      if request !in d.open then d
      else Desk(Saved(d.row, d.open[request].0, d.open[request].1, p), d.open - {request})
    case Abandon(request) => d.(open := d.open - {request})
  }

  function PlayAll(d: Desk, moves: seq<Move>): Desk {
    if |moves| == 0 then d else Play(PlayAll(d, moves[..|moves| - 1]), moves[|moves| - 1])
  }

  /** Requests act only on what they read, and they read a status their action admits. */
  ghost predicate Guarded(d: Desk) {
    forall k :: k in d.open ==> Admits(d.open[k].0.status, d.open[k].1)
  }

  /** A late write takes status, error and, when it sent, the count from what it read; the id only with a success. */
  lemma WriteEffect(d: Desk, request: nat, p: Provider)
    requires request in d.open
    ensures var (read, a) := d.open[request];
            var d' := Play(d, WriteRow(request, p));
            && d'.open == d.open - {request}
            && d'.row == match a
                         case Cancel(reason) => d.row.(status := Cancelled, error := reason)
                         case _ =>
                           if p.Accepted? then Row(Sent, read.attempts + 1, p.messageId, "")
                           else Row(Failed, read.attempts + 1, d.row.messageId, p.text)
  {
  }

  /** An arrived notification loses its status to one move only: a request that read it before it arrived. */
  lemma LoweredIff(d: Desk, m: Move)
    requires Guarded(d) && Arrived(d.row.status)
    ensures Rank(Play(d, m).row.status) < Rank(d.row.status) <==> m.WriteRow? && m.request in d.open
    ensures Guarded(Play(d, m))
  {
  }

  /** An action whose read and write no callback separates keeps an arrived status. */
  lemma WholeActionsNeverLower(d: Desk, request: nat, a: Action, p: Provider)
    requires request !in d.open && Arrived(d.row.status)
    ensures Play(Play(d, ReadRow(request, a)), WriteRow(request, p)) == d
  {
  }

  /** Reports of arrival that come while a request is between its read and its write. */
  ghost predicate Crosses(d: Desk, m: Move) {
    m.Callback? && Target(m.report).Some? && Arrived(Target(m.report).value) && d.open != map[]
  }

  ghost predicate NeverCrossed(d: Desk, moves: seq<Move>) {
    |moves| == 0
        || (NeverCrossed(d, moves[..|moves| - 1]) && !Crosses(PlayAll(d, moves[..|moves| - 1]), moves[|moves| - 1]))
  }

  /** Nobody is about to overwrite an arrived notification. */
  ghost predicate Safe(d: Desk) { Guarded(d) && (Arrived(d.row.status) ==> d.open == map[]) }

  lemma SafeStep(d: Desk, m: Move)
    requires Safe(d) && !Crosses(d, m)
    ensures Safe(Play(d, m))
    ensures Arrived(d.row.status) ==> Rank(Play(d, m).row.status) >= Rank(d.row.status)
  {
  }

  lemma {:induction false} SafeRun(d: Desk, moves: seq<Move>)
    requires Safe(d) && NeverCrossed(d, moves)
    ensures Safe(PlayAll(d, moves))
  {
    if |moves| > 0 {
      SafeRun(d, moves[..|moves| - 1]);
      SafeStep(PlayAll(d, moves[..|moves| - 1]), moves[|moves| - 1]);
    }
  }

  /** Where no report of arrival crosses an open request, no run of any writers lowers DELIVERED or READ. */
  lemma {:induction false} ArrivalIsKept(d: Desk, moves: seq<Move>)
    requires Safe(d) && Arrived(d.row.status) && NeverCrossed(d, moves)
    ensures Rank(PlayAll(d, moves).row.status) >= Rank(d.row.status)
  {
    if |moves| > 0 {
      ArrivalIsKept(d, moves[..|moves| - 1]);
      SafeRun(d, moves[..|moves| - 1]);
      SafeStep(PlayAll(d, moves[..|moves| - 1]), moves[|moves| - 1]);
    }
  }

  /** Where one does, and the request then writes, the arrival is lost. */
  lemma CrossedRetryLosesDelivery(row: Row, p: Provider)
    requires row.status.Failed?
    ensures Arrived(PlayAll(Desk(row, map[]), [ReadRow(0, Retry), Callback(DeliveredReport, [])]).row.status)
    ensures !Arrived(PlayAll(Desk(row, map[]),
                             [ReadRow(0, Retry), Callback(DeliveredReport, []), WriteRow(0, p)]).row.status)
  {
    var d := Desk(row, map[]);
    var one, two := [ReadRow(0, Retry)], [ReadRow(0, Retry), Callback(DeliveredReport, [])];
    var three := two + [WriteRow(0, p)];
    assert one[..0] == [] && two[..1] == one && three[..2] == two;
    assert PlayAll(d, []) == d;
    assert PlayAll(d, one) == Play(d, ReadRow(0, Retry));
    assert PlayAll(d, two) == Play(PlayAll(d, one), two[1]);
    assert three == [ReadRow(0, Retry), Callback(DeliveredReport, []), WriteRow(0, p)];
  }

  // ----- in place -----

  class Notification {
    var status: Status
    var attempts: nat
    var messageId: string
    var error: string

    ghost function Values(): Row
      reads this
    {
      Row(status, attempts, messageId, error)
    }

    constructor ()
      ensures Values() == Row(Queued, 0, "", "")
    {
      status, attempts, messageId, error := Queued, 0, "", "";
    }

    /** `text` is the provider's status, lower-cased. */
    method DeliveryCallback(text: string, providerIds: seq<string>)
      modifies this
      ensures Values() == AfterCallback(old(Values()), ReportOf(text), providerIds)
    {
      var mapped := Target(ReportOf(text));
      if mapped == Some(Failed) {
        if status !in {Delivered, Read} { status := Failed; }
      } else if mapped.Some? && Rank(mapped.value) >= Rank(status) {
        status := mapped.value;
      }
      if |providerIds| > 0 && messageId == "" { messageId := providerIds[0]; }
      error := if status.Failed? then "MSG91 reported delivery failure." else "";
    }

    method SendNotification(p: Provider) returns (raised: bool)
      modifies this
      ensures Values() == AfterSend(old(Values()), p) && raised == p.Raised?
    {
      attempts := attempts + 1;
      if p.Raised? {
        status := Failed;
        error := p.text;
        return true;
      }
      status := Sent;
      messageId := p.messageId;
      error := "";
      raised := false;
    }

    method Act(a: Action, p: Provider) returns (admitted: bool)
      modifies this
      ensures admitted == Admits(old(status), a)
      ensures Values() == if admitted then AfterAction(old(Values()), a, p) else old(Values())
    {
      admitted := true;
      match a
      case Retry =>
        if !status.Failed? { return false; }
        var _ := SendNotification(p);
      case SendNow =>
        if status !in {Queued, Failed} { return false; }
        var _ := SendNotification(p);
      case Cancel(reason) =>
        if !status.Queued? { return false; }
        status := Cancelled;
        error := reason;
    }

    method DeliverNotification(p: Provider) returns (raised: bool)
      modifies this
      ensures Values() == AfterDelivery(old(Values()), p)
      ensures raised <==> p.Raised? && old(status) in {Queued, Failed}
    {
      if status in {Sent, Delivered, Read, Cancelled} { return false; }
      assert status.Queued? || status.Failed?;
      var status0, attempts0, messageId0, error0 := status, attempts, messageId, error;
      raised := SendNotification(p);
      if raised {
        status, attempts, messageId, error := status0, attempts0, messageId0, error0;
      }
    }
  }
}
