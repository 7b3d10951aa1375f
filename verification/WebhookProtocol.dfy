/**
 * process_razorpay_webhook for one payload: claim, dispatch and finish are separate transactions, so
 * workers interleave and may die in between.
 */
module WebhookProtocol {
  import opened Tables
  import opened Model
  import opened Payments
  import opened Machine
  import opened Soundness
  import opened RefundProofs

  // ----- dispatching the same payload again -----

  lemma CapturedTwice(s: State, orderId: string, paymentId: string, amount: int)
    ensures var w := Captured(orderId, paymentId, amount);
            Dispatch(Dispatch(s, w).state, w).state == Dispatch(s, w).state
  {
    var found := OrderRow(s, orderId);
    var s' := Dispatch(s, Captured(orderId, paymentId, amount)).state;
    if found.Some? && s' != s {
      assert WithOrder(orderId)(s'.payments[found.value]);
      assert OrderRow(s', orderId) == found by {
        forall k | found.value < k < |s'.payments| ensures !WithOrder(orderId)(s'.payments[k]) {
          assert !WithOrder(orderId)(s.payments[k]);
        }
      }
    }
  }

  lemma FailedTwice(s: State, orderId: string, paymentId: string)
    ensures var w := FailedPayment(orderId, paymentId);
            Dispatch(Dispatch(s, w).state, w).state == Dispatch(s, w).state
  {
    var found := OrderRow(s, orderId);
    var s' := Dispatch(s, FailedPayment(orderId, paymentId)).state;
    if found.Some? && s' != s {
      var p' := s'.payments[found.value];
      assert OrderRow(s', orderId) == found by {
        assert WithOrder(orderId)(p');
        forall k | found.value < k < |s'.payments| ensures !WithOrder(orderId)(s'.payments[k]) {
          assert !WithOrder(orderId)(s.payments[k]);
        }
      }
      FailedAgain(s', found.value, paymentId);
    }
  }

  /** Failing a row that already failed with this payment id changes nothing. */
  lemma FailedAgain(s: State, payment: nat, paymentId: string)
    requires payment < |s.payments| && s.payments[payment].booking < |s.bookings|
    requires s.payments[payment].status.Failed?
    requires paymentId == "" || s.payments[payment].paymentId == Some(paymentId)
    requires var b := s.bookings[s.payments[payment].booking];
             b.status in {PendingPayment, PaymentFailed} ==> b.status.PaymentFailed? && b.payment.Failed?
    ensures MarkFailed(s, payment, paymentId).state == s
  {
    var p := s.payments[payment];
    assert s.payments[payment := p] == s.payments;
    var b := s.bookings[p.booking];
    assert s.bookings[p.booking := b] == s.bookings;
  }

  lemma NoticesDoNotMatter(s: State, t: State, booking: nat, source: nat)
    requires booking < |s.bookings| && source < |s.payments| && SameLedger(s, t)
    ensures SameLedger(ApplyRefund(s, booking, source), ApplyRefund(t, booking, source))
  {
  }

  /** Once a refund row has its status and its source is settled, doing both again changes nothing. */
  lemma SettledAgain(s0: State, s: State, refund: nat, status: RecordStatus, booking: nat, source: nat)
    requires refund < |s.payments| && s.payments[refund].status == status
    requires booking < |s0.bookings| && source < |s0.payments| && s0.payments[source].parent.None?
    requires booking < |s.bookings| && source < |s.payments| && SameLedger(s, ApplyRefund(s0, booking, source))
    ensures SameLedger(ApplyRefund(SavePayment(s, refund, s.payments[refund].(status := status)), booking, source), s)
  {
    assert SavePayment(s, refund, s.payments[refund]) == s;
    ApplyRefundIdempotent(s0, booking, source);
    NoticesDoNotMatter(s, ApplyRefund(s0, booking, source), booking, source);
  }

  ghost predicate SameLedger(s: State, t: State) { t == s.(notices := t.notices) }

  /** A second delivery of the same status announces nothing: it saves the row and settles its source. */
  lemma RepeatedHook(s: State, refund: nat, source: nat, refundId: string, sourceId: string, status: RecordStatus,
                     amount: nat)
    requires refund < |s.payments| && source < |s.payments| && s.payments[source].booking < |s.bookings|
    requires s.payments[refund].status == status && refundId != "" && sourceId != ""
    requires Latest(s.payments, WithPaymentId(sourceId)) == Some(source)
    requires Latest(s.payments, WithRefundId(refundId)) == Some(refund)
    ensures RefundWebhook(s, refundId, sourceId, status, amount).state
            == ApplyRefund(SavePayment(s, refund, s.payments[refund].(status := status)), s.payments[source].booking,
                           source)
  {
  }

  lemma ApplyRefundKeepsNotices(s: State, booking: nat, source: nat)
    requires booking < |s.bookings| && source < |s.payments|
    ensures ApplyRefund(s, booking, source).notices == s.notices
    ensures |ApplyRefund(s, booking, source).bookings| == |s.bookings|
    ensures forall k :: 0 <= k < |s.payments| && k != source ==>
              ApplyRefund(s, booking, source).payments[k] == s.payments[k]
  {
  }

  /** It meets a refund row that already has its status under a settled source. */
  lemma KnownAgain(s0: State, s': State, refund: nat, source: nat, refundId: string, sourceId: string,
                   status: RecordStatus, amount: nat)
    requires refund < |s0.payments| && source < |s0.payments| && s0.payments[source].booking < |s0.bookings|
    requires SameLedger(s', ApplyRefund(s0, s0.payments[source].booking, source))
    requires source != refund && s0.payments[refund].status == status && s0.payments[source].parent.None?
    requires refundId != "" && sourceId != ""
    requires Latest(s0.payments, WithPaymentId(sourceId)) == Some(source)
    requires Latest(s0.payments, WithRefundId(refundId)) == Some(refund)
    ensures RefundWebhook(s', refundId, sourceId, status, amount).state == s'
  {
    var booking := s0.payments[source].booking;
    ApplyRefundRows(s0, booking, source);
    ApplyRefundKeepsNotices(s0, booking, source);
    assert SameRow(s0.payments[source], s'.payments[source]);
    SameLookups(s0, s', source, refund, sourceId, refundId);
    RepeatedHook(s', refund, source, refundId, sourceId, status, amount);
    SettledAgain(s0, s', refund, status, booking, source);
    ApplyRefundKeepsNotices(SavePayment(s', refund, s'.payments[refund].(status := status)), booking, source);
  }

  lemma RefundTwice(s: State, refundId: string, sourceId: string, status: RecordStatus, amount: nat)
    requires Sound(s) && !status.Created? && !status.Refunded?
    ensures var s' := RefundWebhook(s, refundId, sourceId, status, amount).state;
            RefundWebhook(s', refundId, sourceId, status, amount).state == s'
  {
    if RefundWebhook(s, refundId, sourceId, status, amount).Committed() {
      if Latest(s.payments, WithRefundId(refundId)).Some? {
        KnownRefundTwice(s, refundId, sourceId, status, amount);
      } else {
        NewRefundTwice(s, refundId, sourceId, status, amount);
      }
    }
  }

  lemma KnownRefundTwice(s: State, refundId: string, sourceId: string, status: RecordStatus, amount: nat)
    requires Sound(s) && RefundWebhook(s, refundId, sourceId, status, amount).Committed()
    requires Latest(s.payments, WithRefundId(refundId)).Some?
    ensures var s' := RefundWebhook(s, refundId, sourceId, status, amount).state;
            RefundWebhook(s', refundId, sourceId, status, amount).state == s'
  {
    var source := Latest(s.payments, WithPaymentId(sourceId)).value;
    var refund := Latest(s.payments, WithRefundId(refundId)).value;
    assert source != refund && s.payments[source].parent.None? by {
      assert PaymentSound(s, s.payments[source]) && PaymentSound(s, s.payments[refund]);
    }
    var s0 := SavePayment(s, refund, s.payments[refund].(status := status));
    SameLookups(s, s0, source, refund, sourceId, refundId);
    KnownAgain(s0, RefundWebhook(s, refundId, sourceId, status, amount).state, refund, source, refundId, sourceId,
               status, amount);
  }

  lemma NewRefundTwice(s: State, refundId: string, sourceId: string, status: RecordStatus, amount: nat)
    requires Sound(s) && RefundWebhook(s, refundId, sourceId, status, amount).Committed()
    requires Latest(s.payments, WithRefundId(refundId)).None?
    ensures var s' := RefundWebhook(s, refundId, sourceId, status, amount).state;
            RefundWebhook(s', refundId, sourceId, status, amount).state == s'
  {
    var source := Latest(s.payments, WithPaymentId(sourceId)).value;
    assert PaymentSound(s, s.payments[source]);
    var row := NewRefund(s, source, refundId, amount, status, "webhook-" + refundId);
    var s0 := AddPayment(s, row);
    assert s0.payments[..|s.payments|] == s.payments;
    KnownAgain(s0, RefundWebhook(s, refundId, sourceId, status, amount).state, |s.payments|, source, refundId, sourceId,
               status, amount);
  }

  /** Statuses apart the rows are the same, so both lookups find what they found. */
  lemma SameLookups(s: State, s': State, source: nat, refund: nat, sourceId: string, refundId: string)
    requires |s.payments| == |s'.payments| && RowsKeepIds(s, s') && source < |s.payments| && refund < |s.payments|
    requires WithPaymentId(sourceId)(s.payments[source])
    requires forall k :: source < k < |s.payments| ==> !WithPaymentId(sourceId)(s.payments[k])
    requires WithRefundId(refundId)(s.payments[refund])
    requires forall k :: refund < k < |s.payments| ==> !WithRefundId(refundId)(s.payments[k])
    ensures Latest(s'.payments, WithPaymentId(sourceId)) == Some(source)
    ensures Latest(s'.payments, WithRefundId(refundId)) == Some(refund)
  {
    assert WithPaymentId(sourceId)(s'.payments[source]) && WithRefundId(refundId)(s'.payments[refund]);
    forall k | source < k < |s'.payments| ensures !WithPaymentId(sourceId)(s'.payments[k]) {
      assert !WithPaymentId(sourceId)(s.payments[k]);
    }
    forall k | refund < k < |s'.payments| ensures !WithRefundId(refundId)(s'.payments[k]) {
      assert !WithRefundId(refundId)(s.payments[k]);
    }
  }

  ghost predicate RowsKeepIds(s: State, s': State)
    requires |s.payments| == |s'.payments|
  {
    forall k :: 0 <= k < |s.payments| ==>
      s'.payments[k].paymentId == s.payments[k].paymentId && s'.payments[k].refundId == s.payments[k].refundId
  }

  /** Dispatching the same payload twice in a row leaves the state of dispatching it once, notices included. */
  lemma DispatchTwice(s: State, w: Webhook)
    requires Sound(s)
    ensures Dispatch(Dispatch(s, w).state, w).state == Dispatch(s, w).state
  {
    match w
    case Captured(orderId, paymentId, amount) => CapturedTwice(s, orderId, paymentId, amount);
    case FailedPayment(orderId, paymentId) => FailedTwice(s, orderId, paymentId);
    case RefundChanged(refundId, sourceId, status, amount) =>
      RefundTwice(s, refundId, sourceId, RefundStatus(status), amount);
    case OtherEvent(_) =>
  }

  function DispatchTimes(s: State, w: Webhook, n: nat): State {
    if n == 0 then s else Dispatch(DispatchTimes(s, w, n - 1), w).state
  }

  lemma {:induction false} DispatchManyTimes(s: State, w: Webhook, n: nat)
    requires Sound(s) && n > 0
    ensures DispatchTimes(s, w, n) == Dispatch(s, w).state
  {
    if n > 1 {
      DispatchManyTimes(s, w, n - 1);
      DispatchTwice(s, w);
    } else {
      assert DispatchTimes(s, w, 0) == s;
    }
  }

  // ----- the claim protocol -----

  const FRESH_SECONDS := 300

  datatype RecordState = Processing | Processed | FailedAttempt

  /** One PaymentWebhookEvent row. */
  datatype Record = Record(state: RecordState, attempts: nat, updatedAt: int)

  datatype Stage = Claimed | Returned | Raised

  datatype Worker = Worker(claimedAt: int, stage: Stage)

  /** The row, the workers between claim and finish, and two counters of what has happened. */
  datatype Inbox = Inbox(
    now: int,
    record: Option<Record>,
    workers: map<nat, Worker>,
    claims: nat,
    completions: nat,
    ledger: State
  )

  datatype Move =
    | Wait(seconds: nat)
    | Claim(worker: nat)
    | RunDispatch(worker: nat)
    | Fault(worker: nat)   // the database raises, and the dispatch is rolled back
    | Finish(worker: nat)
    | Crash(worker: nat)
    | Elsewhere(event: Event)

  datatype ClaimReply = Duplicate(done: bool) | Granted

  predicate IsFresh(r: Record, now: int) {
    r.state.Processing? && r.attempts > 0 && r.updatedAt >= now - FRESH_SECONDS
  }

  /** The claim transaction: get_or_create, lock, and either answer or take the record. */
  function ClaimRecord(record: Option<Record>, now: int): (Record, ClaimReply) {
    var r := if record.Some? then record.value else Record(Processing, 0, now);
    if r.state.Processed? then (r, Duplicate(true))
    else if IsFresh(r, now) then (r, Duplicate(false))
    else (Record(Processing, r.attempts + 1, now), Granted)
  }

  /**
   * A claim is granted exactly on a new record, on a failed one, and on one whose claimant has been silent for more
   * than five minutes; the record is then PROCESSING with one attempt more, from now.
   */
  lemma ClaimGrantedIff(record: Option<Record>, now: int)
    requires record.Some? && record.value.state.Processing? ==> record.value.attempts > 0
    ensures var (r, reply) := ClaimRecord(record, now);
            && (reply.Granted? <==>
                  record.None? || record.value.state.FailedAttempt?
                  || (record.value.state.Processing? && now - record.value.updatedAt > 5 * 60))
            && (reply == Duplicate(true) <==> record.Some? && record.value.state.Processed?)
            && (reply.Granted? ==>
                  r == Record(Processing, (if record.Some? then record.value.attempts else 0) + 1, now))
            && (reply.Duplicate? ==> Some(r) == record)
  {
  }

  /** The finishing update touches neither attempts nor updated_at, and asks nothing of the row. */
  function FinishRecord(r: Record, returned: bool): Record {
    r.(state := if returned then Processed else FailedAttempt)
  }

  function Advance(i: Inbox, m: Move, w: Webhook): Inbox {
    match m
    case Wait(seconds) => i.(now := i.now + seconds)
    case Claim(worker) =>
      if worker in i.workers then i else
      var (r, reply) := ClaimRecord(i.record, i.now);
      if reply.Granted? then
        i.(record := Some(r), workers := i.workers[worker := Worker(i.now, Claimed)], claims := i.claims + 1)
      else i
    case RunDispatch(worker) =>
      if worker !in i.workers || !i.workers[worker].stage.Claimed? then i else
      var o := Dispatch(i.ledger, w);
      var stage := if o.reply.Rejected? then Raised else Returned;
      i.(ledger := o.state, workers := i.workers[worker := i.workers[worker].(stage := stage)],
         completions := if stage.Returned? then i.completions + 1 else i.completions)
    case Fault(worker) =>
      if worker !in i.workers || !i.workers[worker].stage.Claimed? then i else
      i.(workers := i.workers[worker := i.workers[worker].(stage := Raised)])
    case Finish(worker) =>
      if worker !in i.workers || i.workers[worker].stage.Claimed? || i.record.None? then i else
      i.(record := Some(FinishRecord(i.record.value, i.workers[worker].stage.Returned?)),
         workers := i.workers - {worker})
    case Crash(worker) => i.(workers := i.workers - {worker})
    case Elsewhere(event) => i.(ledger := Next(i.ledger, event))
  }

  /** Claim, dispatch and finish with nobody else in between. */
  function Uninterrupted(i: Inbox, worker: nat, w: Webhook): Inbox {
    Advance(Advance(Advance(i, Claim(worker), w), RunDispatch(worker), w), Finish(worker), w)
  }

  /**
   * Such a call is refused on a done or fresh record; else the ledger takes one dispatch and the record its outcome.
   */
  lemma UninterruptedCall(i: Inbox, worker: nat, w: Webhook)
    requires worker !in i.workers
    ensures var (r, reply) := ClaimRecord(i.record, i.now);
            var o := Dispatch(i.ledger, w);
            var i' := Uninterrupted(i, worker, w);
            && i'.workers == i.workers
            && (if reply.Duplicate? then i' == i && i.record == Some(r)
                else
                  && i'.ledger == o.state && i'.record == Some(FinishRecord(r, o.Committed()))
                  && i'.claims == i.claims + 1
                  && i'.completions == i.completions + (if o.Committed() then 1 else 0))
  {
    var (r, reply) := ClaimRecord(i.record, i.now);
    if reply.Granted? {
      var claimed := Advance(i, Claim(worker), w);
      var dispatched := Advance(claimed, RunDispatch(worker), w);
      assert dispatched.workers - {worker} == i.workers;
    }
  }

  function Play(i: Inbox, moves: seq<Move>, w: Webhook): Inbox {
    if |moves| == 0 then i else Advance(Play(i, moves[..|moves| - 1], w), moves[|moves| - 1], w)
  }

  function NewInbox(now: int, ledger: State): Inbox { Inbox(now, None, map[], 0, 0, ledger) }

  /** Attempts count the claims; a worker past its dispatch and a PROCESSED row rest on real returns. */
  ghost predicate Counted(i: Inbox) {
    && (if i.record.Some? then i.record.value.attempts == i.claims else i.claims == 0 && i.workers == map[])
    && (i.record.Some? ==> i.claims > 0)
    && (i.record.Some? && i.record.value.state.Processed? ==> i.completions > 0)
    && (forall k :: k in i.workers && i.workers[k].stage.Returned? ==> i.completions > 0)
  }

  lemma {:induction false} ClaimsAreCounted(now: int, ledger: State, moves: seq<Move>, w: Webhook)
    ensures Counted(Play(NewInbox(now, ledger), moves, w))
  {
    if |moves| > 0 {
      ClaimsAreCounted(now, ledger, moves[..|moves| - 1], w);
    }
  }

  /** A dispatch that raises leaves the ledger as it found it. */
  lemma RaisingDispatchChangesNothing(i: Inbox, worker: nat, w: Webhook)
    requires worker in i.workers && i.workers[worker].stage.Claimed?
    ensures var i' := Advance(i, RunDispatch(worker), w);
            worker in i'.workers && (i'.workers[worker].stage.Raised? ==> i'.ledger == i.ledger)
    ensures var i' := Advance(i, Fault(worker), w);
            worker in i'.workers && i'.workers[worker].stage.Raised? && i'.ledger == i.ledger
  {
  }

  /** Everyone who claimed has finished or crashed within five minutes of claiming. */
  ghost predicate Timely(i: Inbox) {
    forall k :: k in i.workers ==> i.now - i.workers[k].claimedAt <= 5 * 60
  }

  ghost predicate TimelyThroughout(i: Inbox, moves: seq<Move>, w: Webhook) {
    Timely(Play(i, moves, w)) && (|moves| > 0 ==> TimelyThroughout(i, moves[..|moves| - 1], w))
  }

  /** At most one worker is out, and it holds the row: PROCESSING since its own claim. */
  ghost predicate Exclusive(i: Inbox) {
    && (forall a, b :: a in i.workers && b in i.workers ==> a == b)
    && (forall a :: a in i.workers ==>
          i.record.Some? && i.record.value.state.Processing? && i.record.value.attempts > 0
          && i.record.value.updatedAt == i.workers[a].claimedAt)
  }

  lemma ExclusiveStep(i: Inbox, m: Move, w: Webhook)
    requires Exclusive(i) && Timely(i)
    ensures Exclusive(Advance(i, m, w))
  {
  }

  lemma {:induction false} OneDispatchInFlight(now: int, ledger: State, moves: seq<Move>, w: Webhook)
    requires TimelyThroughout(NewInbox(now, ledger), moves, w)
    ensures Exclusive(Play(NewInbox(now, ledger), moves, w))
  {
    if |moves| > 0 {
      OneDispatchInFlight(now, ledger, moves[..|moves| - 1], w);
      ExclusiveStep(Play(NewInbox(now, ledger), moves[..|moves| - 1], w), moves[|moves| - 1], w);
    }
  }

  ghost predicate IsProcessed(i: Inbox) { i.record.Some? && i.record.value.state.Processed? }

  /** A PROCESSED row loses its state in one way only: an older claimant comes back with an exception. */
  lemma ProcessedLostIff(i: Inbox, m: Move, w: Webhook)
    requires IsProcessed(i)
    ensures IsProcessed(Advance(i, m, w))
            <==> !(m.Finish? && m.worker in i.workers && i.workers[m.worker].stage.Raised?)
  {
  }

  /** Two workers on one payload: the first raises, the second, past five minutes, gets it done. */
  function Overtaken(e: Event): seq<Move> {
    [Claim(0)] + [RunDispatch(0)] + [Elsewhere(e)] + [Wait(FRESH_SECONDS + 1)] + [Claim(1)] + [RunDispatch(1)]
        + [Finish(1)]
  }

  lemma PlayOneMore(i: Inbox, moves: seq<Move>, m: Move, w: Webhook)
    ensures Play(i, moves + [m], w) == Advance(Play(i, moves, w), m, w)
  {
    assert (moves + [m])[..|moves|] == moves;
  }

  /** The first worker has raised and five minutes have passed. */
  lemma FirstWorkerRaises(now: int, s: State, e: Event, w: Webhook)
    requires !Dispatch(s, w).Committed()
    ensures Play(NewInbox(now, s), [Claim(0)] + [RunDispatch(0)] + [Elsewhere(e)] + [Wait(FRESH_SECONDS + 1)], w)
            == Inbox(now + FRESH_SECONDS + 1, Some(Record(Processing, 1, now)), map[0 := Worker(now, Raised)], 1, 0,
                     Next(s, e))
  {
    var i := NewInbox(now, s);
    var m1, m2 := [Claim(0)], [Claim(0)] + [RunDispatch(0)];
    PlayOneMore(i, [], Claim(0), w);
    assert [] + [Claim(0)] == m1;
    PlayOneMore(i, m1, RunDispatch(0), w);
    PlayOneMore(i, m2, Elsewhere(e), w);
    PlayOneMore(i, m2 + [Elsewhere(e)], Wait(FRESH_SECONDS + 1), w);
  }

  /** The record is PROCESSED until the overtaken worker reports its exception. */
  lemma LateExceptionOverwrites(now: int, s: State, e: Event, w: Webhook)
    requires !Dispatch(s, w).Committed() && Dispatch(Next(s, e), w).Committed()
    ensures IsProcessed(Play(NewInbox(now, s), Overtaken(e), w))
    ensures !IsProcessed(Play(NewInbox(now, s), Overtaken(e) + [Finish(0)], w))
  {
    var i := NewInbox(now, s);
    var m4 := [Claim(0)] + [RunDispatch(0)] + [Elsewhere(e)] + [Wait(FRESH_SECONDS + 1)];
    FirstWorkerRaises(now, s, e, w);
    UninterruptedCall(Play(i, m4, w), 1, w);
    PlayOneMore(i, m4, Claim(1), w);
    PlayOneMore(i, m4 + [Claim(1)], RunDispatch(1), w);
    PlayOneMore(i, m4 + [Claim(1)] + [RunDispatch(1)], Finish(1), w);
    PlayOneMore(i, Overtaken(e), Finish(0), w);
    ProcessedLostIff(Play(i, Overtaken(e), w), Finish(0), w);
  }

  /** When claimants are timely nobody can come back late, so PROCESSED is for good and claims are refused. */
  lemma {:induction false} ProcessedIsAbsorbing(now: int, ledger: State, moves: seq<Move>, more: seq<Move>, w: Webhook)
    requires TimelyThroughout(NewInbox(now, ledger), moves + more, w)
    requires IsProcessed(Play(NewInbox(now, ledger), moves, w))
    ensures IsProcessed(Play(NewInbox(now, ledger), moves + more, w))
    ensures Play(NewInbox(now, ledger), moves + more, w).claims == Play(NewInbox(now, ledger), moves, w).claims
  {
    var all := moves + more;
    if |more| == 0 {
      assert all == moves;
    } else {
      assert all[..|all| - 1] == moves + more[..|more| - 1];
      ProcessedIsAbsorbing(now, ledger, moves, more[..|more| - 1], w);
      OneDispatchInFlight(now, ledger, all[..|all| - 1], w);
      var i := Play(NewInbox(now, ledger), all[..|all| - 1], w);
      assert i.workers == map[] by {
        forall k | k in i.workers ensures false {}
      }
    }
  }
}
