/**
  Recipient notification. Scheduling appends a job to a queue and returns at
  once; running a job later re-reads the record, picks the message template
  from the job's status tag, and hands the text to the SMS gateway. Gateway
  failures are swallowed. The amount's text form is a parameter applied to
  the amount's value; a `BigDecimal`'s scale is not kept, so amounts equal in
  value render alike.
 */
module Notifications {
  import opened Optional
  import opened JavaText
  import opened PaymentModel
  import opened TransactionStore
  import opened PaymentState

  /** `notifyRecipient`, scheduling half: enqueue a job; the store and trace are untouched. */
  function Schedule(s: State, transactionId: string, status: PaymentStatus): (r: State)
    ensures r.store == s.store && r.trace == s.trace
    ensures |r.queue| == |s.queue| + 1 && r.queue[..|s.queue|] == s.queue
    ensures r.queue[|s.queue|] == Job(transactionId, status)
  {
    s.(queue := s.queue + [Job(transactionId, status)])
  }

  /** The reason a FAILED message quotes: the stored one, or "Unknown" when there is none. */
  function ReasonText(t: PaymentTransaction): string
  {
    t.failureReason.GetOr("Unknown")
  }

  const MessageHead := "Your payment of "

  /** The fixed wording of each status's template. */
  function Wording(tag: PaymentStatus): string
  {
    match tag
    case Success => " has been successfully processed."
    case Failed => " failed."
    case Pending => " is pending."
    case InProgress => " is being processed."
    case Cancelled => " has been cancelled."
  }

  /** The part of a message after amount and currency; only the FAILED template quotes a reason. */
  function Phrase(tag: PaymentStatus, t: PaymentTransaction): string
  {
    Wording(tag) + " Transaction ID: " + t.id + (if tag == Failed then ". Reason: " + ReasonText(t) else "")
  }

  /** The SMS text for a job with status `tag` about record `t`, whose amount reads `amountText`. */
  function MessageText(tag: PaymentStatus, t: PaymentTransaction, amountText: string): (m: string)
    ensures MessageHead + amountText + " " + Show(t.currency) <= m
    ensures tag == Failed ==> |m| >= |ReasonText(t)| && m[|m| - |ReasonText(t)|..] == ReasonText(t)
  {
    var m := MessageHead + amountText + " " + Show(t.currency) + Phrase(tag, t);
    assert tag == Failed ==> |m| >= |ReasonText(t)| && m[|m| - |ReasonText(t)|..] == ReasonText(t) by {
      if tag == Failed {
        var front := MessageHead + amountText + " " + Show(t.currency) + Wording(tag) + " Transaction ID: " + t.id + ". Reason: ";
        assert m == front + ReasonText(t);
      }
    }
    m
  }

  /** Distinct tags give distinct wordings, told apart by one character near the start. */
  lemma PhrasesDiffer(a: PaymentStatus, b: PaymentStatus, t: PaymentTransaction)
    requires a != b
    ensures Phrase(a, t) != Phrase(b, t)
  {
    var wa, wb := Wording(a), Wording(b);
    var pa, pb := Phrase(a, t), Phrase(b, t);
    assert |wa| > 7 && |wb| > 7;
    assert pa[..8] == wa[..8] && pb[..8] == wb[..8];
    if (a.Success? || a.Cancelled?) && (b.Success? || b.Cancelled?) {
      assert |wa| > 10 && |wb| > 10;
      assert pa[10] == wa[10] && pb[10] == wb[10];
      assert wa[10] != wb[10];
    } else if (a.Pending? || a.InProgress?) && (b.Pending? || b.InProgress?) {
      assert wa[4] != wb[4];
    } else {
      assert wa[1] != wb[1];
    }
  }

  /** For one record, the message determines the status tag it was scheduled with: one template per status. */
  lemma TemplateDeterminesTag(a: PaymentStatus, b: PaymentStatus, t: PaymentTransaction, amountText: string)
    ensures MessageText(a, t, amountText) == MessageText(b, t, amountText) <==> a == b
  {
    if a != b {
      var head := MessageHead + amountText + " " + Show(t.currency);
      PhrasesDiffer(a, b, t);
      assert (head + Phrase(a, t))[|head|..] == Phrase(a, t);
      assert (head + Phrase(b, t))[|head|..] == Phrase(b, t);
    }
  }

  /** The template follows the scheduled tag, never the status of the re-read record. */
  lemma MessageIgnoresRecordStatus(tag: PaymentStatus, t: PaymentTransaction, status: PaymentStatus, amountText: string)
    ensures MessageText(tag, t.(status := status), amountText) == MessageText(tag, t, amountText)
  {
  }

  /** What the SMS gateway does with a message. */
  datatype SendOutcome = Delivered | GatewayExternalError(message: Option<string>) | GatewayFailure(message: Option<string>)

  datatype Sms = Sms(to: Option<string>, text: string)

  /** What running one job amounted to; none of it reaches the operation that scheduled the job. */
  datatype DispatchReport = NoJob | RecordMissing(transactionId: string) | Sent(sms: Sms) | SendFailed(sms: Sms)

  datatype Dispatch = Dispatch(state: State, report: DispatchReport)

  /** `notifyRecipient`, worker half: take the oldest job, re-read its record and attempt the send. */
  function RunNextJob(s: State, formatAmount: real -> string, gateway: SendOutcome): (r: Dispatch)
    ensures r.state.store == s.store && r.state.trace == s.trace
    ensures |s.queue| == 0 <==> r.report.NoJob?
    ensures |s.queue| > 0 ==> r.state.queue == s.queue[1..]
    ensures r.report.RecordMissing? <==> |s.queue| > 0 && s.queue[0].transactionId !in s.store
    ensures r.report.Sent? <==> |s.queue| > 0 && s.queue[0].transactionId in s.store && gateway.Delivered?
    ensures r.report.Sent? || r.report.SendFailed? ==>
      var t := s.store[s.queue[0].transactionId];
      r.report.sms == Sms(t.recipientPhoneNumber, MessageText(s.queue[0].status, t, formatAmount(t.amount)))
  {
    if |s.queue| == 0 then Dispatch(s, NoJob)
    else
      var job := s.queue[0];
      var rest := s.(queue := s.queue[1..]);
      match FindById(s.store, job.transactionId)
      case None => Dispatch(rest, RecordMissing(job.transactionId))
      case Some(t) =>
        var sms := Sms(t.recipientPhoneNumber, MessageText(job.status, t, formatAmount(t.amount)));
        if gateway.Delivered? then Dispatch(rest, Sent(sms)) else Dispatch(rest, SendFailed(sms))
  }

  /** A failed send leaves exactly the state a successful one does. */
  lemma SendErrorsAreSwallowed(s: State, formatAmount: real -> string, g: SendOutcome, g': SendOutcome)
    ensures RunNextJob(s, formatAmount, g).state == RunNextJob(s, formatAmount, g').state
  {
  }
}
