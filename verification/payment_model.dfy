/**
  The entities of the payment core: the status enumeration, the persisted
  transaction record and the inbound business-to-consumer payment request.
  Java's nullable fields are `Option`s; `BigDecimal` amounts are `real`s,
  which keep the value but not the scale; the created/updated timestamps are
  not modelled.
 */
module PaymentModel {
  import opened Optional

  /** The closed set of statuses a transaction can be in. */
  datatype PaymentStatus = Pending | InProgress | Success | Failed | Cancelled

  /** One payment attempt as persisted by the transaction store. */
  datatype PaymentTransaction = PaymentTransaction(
    id: string,
    recipientPhoneNumber: Option<string>,
    amount: real,
    currency: Option<string>,
    provider: Option<string>,
    description: Option<string>,
    status: PaymentStatus,
    providerTransactionId: Option<string>,
    failureReason: Option<string>)

  /** The request body of a payment initiation, before or after validation. */
  datatype PaymentRequest = PaymentRequest(
    recipientPhoneNumber: Option<string>,
    amount: Option<real>,
    currency: Option<string>,
    provider: Option<string>,
    description: Option<string>)

  /** The request attributes a transaction carries, read back as a request. */
  function RequestAttributes(t: PaymentTransaction): PaymentRequest
  {
    PaymentRequest(t.recipientPhoneNumber, Some(t.amount), t.currency, t.provider, t.description)
  }
}
