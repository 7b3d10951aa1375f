/** process_razorpay_webhook, in place: three transactions on the webhook record and the ledger. */
module WebhookService {
  import opened Tables
  import opened Model
  import opened Payments
  import opened Database
  import opened PaymentService
  import opened WebhookProtocol
  import opened PaymentEffects

  datatype WebhookReply = Answered(processed: bool, duplicate: bool) | ReRaised(reply: Reply)

  class WebhookEvents {
    var rows: map<string, Record>   // by payload hash

    constructor ()
      ensures rows == map[]
    {
      rows := map[];
    }

    ghost function Row(hash: string): Option<Record>
      reads this
    {
      if hash in rows then Some(rows[hash]) else None
    }

    method ClaimEvent(hash: string, now: int) returns (reply: ClaimReply)
      modifies this
      ensures reply == ClaimRecord(old(Row(hash)), now).1
      ensures rows == old(rows)[hash := ClaimRecord(old(Row(hash)), now).0]
    {
      if hash !in rows {
        rows := rows[hash := Record(Processing, 0, now)];
      }
      var record := rows[hash];
      if record.state.Processed? { return Duplicate(true); }
      if IsFresh(record, now) { return Duplicate(false); }
      record := record.(attempts := record.attempts + 1);
      record := record.(state := Processing);
      record := record.(updatedAt := now);
      rows := rows[hash := record];
      reply := Granted;
    }

    method FinishEvent(hash: string, returned: bool)
      requires hash in rows
      modifies this
      ensures rows == old(rows)[hash := FinishRecord(old(rows)[hash], returned)]
    {
      var record := rows[hash];
      record := record.(state := if returned then Processed else FailedAttempt);
      rows := rows[hash := record];
    }

    /** A call nobody interrupts makes three moves of the protocol and touches no other payload's record. */
    method ProcessRazorpayWebhook(db: Store, hash: string, w: Webhook, now: int) returns (r: WebhookReply)
      modifies this, db`payments, db`bookings, db`notices
      ensures forall h :: h != hash ==> Row(h) == old(Row(h))
      ensures var i := Inbox(now, old(Row(hash)), map[], 0, 0, old(db.Rows()));
              var i' := Uninterrupted(i, 0, w);
              && db.Rows() == i'.ledger && Row(hash) == i'.record
              && (r.Answered? && r.duplicate <==> i'.claims == 0)
              && (r.ReRaised? <==> i'.claims == 1 && i'.completions == 0)
      ensures r.ReRaised? ==> db.Rows() == old(db.Rows())
      ensures r.Answered? ==>
                r.processed == if r.duplicate then old(Row(hash)).Some? && old(Row(hash)).value.state.Processed?
                               else !w.OtherEvent?
    {
      UninterruptedCall(Inbox(now, Row(hash), map[], 0, 0, db.Rows()), 0, w);
      var reply := ClaimEvent(hash, now);
      if reply.Duplicate? { return Answered(reply.done, true); }
      DispatchAnswer(db.Rows(), w);
      var answer := DispatchWebhook(db, w);
      if answer.Rejected? {
        FinishEvent(hash, false);
        return ReRaised(answer);
      }
      FinishEvent(hash, true);
      r := Answered(!answer.Ignored?, false);
    }
  }
}
