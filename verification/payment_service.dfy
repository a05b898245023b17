/**
  The payment orchestrator: initiation (validate, select the adapter, persist
  PENDING, call the adapter, persist the outcome, schedule a notification),
  the status lookup, and the provider's status callback. Each operation takes
  the state and returns the new state with its result; a thrown exception is
  a result variant.
 */
module PaymentService {
  import opened Optional
  import opened JavaText
  import opened PaymentModel
  import opened TransactionStore
  import opened Providers
  import opened PaymentState
  import opened Notifications

  /** What `initiatePayment` returns or throws. */
  datatype InitiateResult =
    | Ok(transaction: PaymentTransaction)
    | InvalidRequest(message: string)
    | PaymentError(message: string)
    | Uncaught(exception: string)

  datatype Initiation = Initiation(state: State, result: InitiateResult)

  const AmountNotPositive := "Amount must be positive."
  const UnsupportedProvider := "Unsupported mobile money provider: "
  const ExternalApiPrefix := "External API error: "
  const UnexpectedPrefix := "An unexpected error occurred: "
  const ProviderFailureMessage := "Failed to initiate payment with mobile money provider."
  const UnexpectedFailureMessage := "An unexpected error occurred during payment initiation."

  /** The record saved first: a PENDING copy of the request under the fresh id, with no provider id and no failure reason. */
  function NewPendingTransaction(id: string, req: PaymentRequest): (t: PaymentTransaction)
    requires req.amount.Some?
    ensures t.id == id && t.status == Pending
    ensures t.providerTransactionId.None? && t.failureReason.None?
    ensures RequestAttributes(t) == req
  {
    PaymentTransaction(id, req.recipientPhoneNumber, req.amount.value, req.currency, req.provider,
                       req.description, Pending, None, None)
  }

  /** The record after the adapter answered, and the status tag its notification is scheduled with. */
  function AfterAdapter(pending: PaymentTransaction, outcome: AdapterOutcome): (r: (PaymentTransaction, PaymentStatus))
    ensures r.0.id == pending.id && RequestAttributes(r.0) == RequestAttributes(pending)
    ensures outcome.Initiated? ==> r.0.status == InProgress && r.1 == Success
    ensures outcome.Initiated? ==> r.0.providerTransactionId == Some(outcome.providerTransactionId)
    ensures outcome.Initiated? ==> r.0.failureReason == pending.failureReason
    ensures !outcome.Initiated? ==> r.0.status == Failed && r.1 == Failed
    ensures !outcome.Initiated? ==> r.0.providerTransactionId == pending.providerTransactionId
    ensures outcome.ExternalApiError? ==> r.0.failureReason == Some(ExternalApiPrefix + Show(outcome.message))
    ensures outcome.UnexpectedError? ==> r.0.failureReason == Some(UnexpectedPrefix + Show(outcome.message))
  {
    match outcome
    case Initiated(providerId) =>
      (pending.(providerTransactionId := Some(providerId), status := InProgress), Success)
    case ExternalApiError(message) =>
      (pending.(status := Failed, failureReason := Some(ExternalApiPrefix + Show(message))), Failed)
    case UnexpectedError(message) =>
      (pending.(status := Failed, failureReason := Some(UnexpectedPrefix + Show(message))), Failed)
  }

  /** Whether an initiation gets past validation and provider selection to the adapter call. */
  predicate ReachesAdapter(adapters: seq<Adapter>, req: PaymentRequest)
  {
    req.amount.Some? && req.amount.value > 0.0 && FindMobileMoneyService(adapters, req.provider).Some?
  }

  /** The adapter an initiation that reaches the adapter call uses. */
  function SelectedAdapter(adapters: seq<Adapter>, req: PaymentRequest): Adapter
    requires ReachesAdapter(adapters, req)
  {
    adapters[FindMobileMoneyService(adapters, req.provider).value]
  }

  /**
    The part of `initiatePayment` after validation: save the PENDING record,
    hand it to the adapter, save the record the outcome produced, and queue
    one notification job.
   */
  function Attempt(s: State, adapter: Adapter, req: PaymentRequest, freshId: string): (r: Initiation)
    requires freshId !in s.store && req.amount.Some?
    ensures freshId in r.state.store
    ensures
      var pending := NewPendingTransaction(freshId, req);
      var final := r.state.store[freshId];
      && r.state.trace == s.trace + [Saved(pending), AdapterCalled(adapter.providerType, pending), Saved(final)]
      && r.state.store == s.store[freshId := final]
      && final == AfterAdapter(pending, adapter.outcome).0
      && r.state.queue == s.queue + [Job(freshId, AfterAdapter(pending, adapter.outcome).1)]
    ensures r.result.Ok? <==> adapter.outcome.Initiated?
    ensures r.result.Ok? ==> r.result.transaction == r.state.store[freshId]
    ensures r.result.PaymentError? <==> !adapter.outcome.Initiated?
  {
    var pending := NewPendingTransaction(freshId, req);
    var called := CallAdapter(Persist(s, pending), adapter.providerType, pending);
    var (final, tag) := AfterAdapter(pending, adapter.outcome);
    var done := Schedule(Persist(called, final), freshId, tag);
    match adapter.outcome
    case Initiated(_) => Initiation(done, Ok(final))
    case ExternalApiError(_) => Initiation(done, PaymentError(ProviderFailureMessage))
    case UnexpectedError(_) => Initiation(done, PaymentError(UnexpectedFailureMessage))
  }

  /**
    `initiatePayment`, with `freshId` standing for the generated id. A null
    amount throws before anything happens; a non-positive amount or an
    unserved provider is an invalid request with no effect at all; otherwise
    the PENDING record is saved, then handed to the adapter, then the outcome
    record is saved and one notification job is queued.
   */
  function InitiatePayment(s: State, adapters: seq<Adapter>, req: PaymentRequest, freshId: string): (r: Initiation)
    requires freshId !in s.store
    ensures r.result.Uncaught? <==> req.amount.None?
    ensures r.result.InvalidRequest? <==> req.amount.Some? && !ReachesAdapter(adapters, req)
    ensures r.result.InvalidRequest? || r.result.Uncaught? ==> r.state == s
    ensures req.amount.Some? && req.amount.value <= 0.0 ==> r.result == InvalidRequest(AmountNotPositive)
    ensures freshId in r.state.store <==> ReachesAdapter(adapters, req)
    ensures ReachesAdapter(adapters, req) ==>
      var pending := NewPendingTransaction(freshId, req);
      var final := r.state.store[freshId];
      && r.state.trace == s.trace + [Saved(pending), AdapterCalled(SelectedAdapter(adapters, req).providerType, pending), Saved(final)]
      && r.state.store == s.store[freshId := final]
      && RequestAttributes(final) == req && final.id == freshId
      && final.status != Pending
    ensures r.result.Ok? <==> ReachesAdapter(adapters, req) && SelectedAdapter(adapters, req).outcome.Initiated?
    ensures r.result.Ok? ==>
      && r.result.transaction == r.state.store[freshId]
      && r.result.transaction.status == InProgress
      && r.result.transaction.providerTransactionId == Some(SelectedAdapter(adapters, req).outcome.providerTransactionId)
      && r.result.transaction.failureReason.None?
      && r.state.queue == s.queue + [Job(freshId, Success)]
    ensures r.result.PaymentError? ==>
      && r.state.store[freshId].status == Failed
      && r.state.store[freshId].providerTransactionId.None?
      && r.state.queue == s.queue + [Job(freshId, Failed)]
    ensures r.result.PaymentError? ==>
      var o := SelectedAdapter(adapters, req).outcome;
      && r.state.store[freshId].failureReason == Some((if o.ExternalApiError? then ExternalApiPrefix else UnexpectedPrefix) + Show(o.message))
      && r.result.message == (if o.ExternalApiError? then ProviderFailureMessage else UnexpectedFailureMessage)
  {
    if req.amount.None? then
      Initiation(s, Uncaught("NullPointerException"))
    else if req.amount.value <= 0.0 then
      Initiation(s, InvalidRequest(AmountNotPositive))
    else
      match FindMobileMoneyService(adapters, req.provider)
      case None =>
        Initiation(s, InvalidRequest(UnsupportedProvider + Show(req.provider)))
      case Some(i) =>
        Attempt(s, adapters[i], req, freshId)
  }

  /** `getPaymentStatus`: the record stored under the id, or absent; it has no effect on the state. */
  function GetPaymentStatus(s: State, transactionId: string): (r: Option<PaymentTransaction>)
    ensures r.Some? <==> transactionId in s.store
    ensures r.Some? ==> r.value == s.store[transactionId]
    ensures r.Some? && WellKeyed(s.store) ==> r.value.id == transactionId
  {
    FindById(s.store, transactionId)
  }

  /** What `processProviderStatusUpdate` does: apply the update, ignore an unknown provider id, or throw on a non-unique one. */
  datatype CallbackResult = Applied(record: PaymentTransaction) | UnknownProviderTransaction | DuplicateProviderTransaction

  datatype Callback = Callback(state: State, result: CallbackResult)

  /**
    `processProviderStatusUpdate`: find the record by the provider's id,
    overwrite its status and failure reason, save it once and queue one job
    tagged with the new status. An unknown provider id changes nothing.
    A null provider id is passed on to the lookup, which then matches the
    records that have none.
   */
  function ProcessProviderStatusUpdate(s: State, providerTransactionId: Option<string>, newStatus: PaymentStatus,
                                       failureReason: Option<string>): (r: Callback)
    ensures r.result.UnknownProviderTransaction? <==>
      forall k :: k in s.store ==> s.store[k].providerTransactionId != providerTransactionId
    ensures r.result.DuplicateProviderTransaction? <==>
      exists k, k' :: k in s.store && k' in s.store && k != k' &&
        s.store[k].providerTransactionId == providerTransactionId && s.store[k'].providerTransactionId == providerTransactionId
    ensures r.result.DuplicateProviderTransaction? && providerTransactionId.Some? ==> !ProviderIdsUnique(s.store)
    ensures !r.result.Applied? ==> r.state == s
    ensures r.result.Applied? ==>
      exists k :: k in s.store && s.store[k].providerTransactionId == providerTransactionId &&
        r.result.record == s.store[k].(status := newStatus, failureReason := failureReason)
    ensures r.result.Applied? ==>
      var t := r.result.record;
      && t.status == newStatus && t.failureReason == failureReason
      && t.providerTransactionId == providerTransactionId
      && r.state.store == Save(s.store, t)
      && r.state.trace == s.trace + [Saved(t)]
      && r.state.queue == s.queue + [Job(t.id, newStatus)]
  {
    match FindByProviderTransactionId(s.store, providerTransactionId)
    case NotFound => Callback(s, UnknownProviderTransaction)
    case NonUnique => Callback(s, DuplicateProviderTransaction)
    case Found(found) =>
      var t := found.(status := newStatus, failureReason := failureReason);
      Callback(Schedule(Persist(s, t), t.id, newStatus), Applied(t))
  }
}
