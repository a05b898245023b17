/**
  Properties relating several operations of the payment core: write and call
  counts, round trips through the status lookup, store invariants, the
  notification each path leads to, and the scenarios the service's tests use.
 */
module ServiceProperties {
  import opened Optional
  import opened JavaText
  import opened PaymentModel
  import opened TransactionStore
  import opened Providers
  import opened PaymentState
  import opened Notifications
  import opened RequestValidation
  import opened PaymentService

  /**
    An initiation that reaches the adapter writes exactly twice (the PENDING
    record, then the outcome) and calls the adapter exactly once; any other
    initiation writes nothing and calls nothing.
   */
  lemma InitiateWritesTwiceCallsOnce(s: State, adapters: seq<Adapter>, req: PaymentRequest, freshId: string)
    requires freshId !in s.store
    ensures var r := InitiatePayment(s, adapters, req, freshId);
      if ReachesAdapter(adapters, req) then
        && SavedRecords(r.state.trace) == SavedRecords(s.trace) + [NewPendingTransaction(freshId, req), r.state.store[freshId]]
        && AdapterCallCount(r.state.trace) == AdapterCallCount(s.trace) + 1
        && |r.state.queue| == |s.queue| + 1
      else
        && SavedRecords(r.state.trace) == SavedRecords(s.trace)
        && AdapterCallCount(r.state.trace) == AdapterCallCount(s.trace)
        && r.state.queue == s.queue
  {
    var r := InitiatePayment(s, adapters, req, freshId);
    if ReachesAdapter(adapters, req) {
      var pending := NewPendingTransaction(freshId, req);
      var added := [Saved(pending), AdapterCalled(SelectedAdapter(adapters, req).providerType, pending), Saved(r.state.store[freshId])];
      assert r.state.trace == s.trace + added;
      TraceCountsAppend(s.trace, added);
      InitiationTraceCounts(pending, SelectedAdapter(adapters, req).providerType, r.state.store[freshId]);
    }
  }

  /** The three effects of an initiation that reaches the adapter hold two writes and one call. */
  lemma InitiationTraceCounts(pending: PaymentTransaction, providerType: string, final: PaymentTransaction)
    ensures SavedRecords([Saved(pending), AdapterCalled(providerType, pending), Saved(final)]) == [pending, final]
    ensures AdapterCallCount([Saved(pending), AdapterCalled(providerType, pending), Saved(final)]) == 1
  {
    var added := [Saved(pending), AdapterCalled(providerType, pending), Saved(final)];
    var one, two := added[..1], added[..2];
    assert one[..0] == [] && two[..1] == one && added[..2] == two;
    assert SavedRecords(one) == [pending] && AdapterCallCount(one) == 0;
    assert SavedRecords(two) == [pending] && AdapterCallCount(two) == 1;
  }

  /** After an initiation that created a record, the status lookup returns it: the caller's record on success, the FAILED one after a payment error. */
  lemma StatusAfterInitiate(s: State, adapters: seq<Adapter>, req: PaymentRequest, freshId: string)
    requires freshId !in s.store
    ensures var r := InitiatePayment(s, adapters, req, freshId);
      && (r.result.Ok? ==> GetPaymentStatus(r.state, freshId) == Some(r.result.transaction))
      && (r.result.PaymentError? ==> GetPaymentStatus(r.state, freshId).Some? && GetPaymentStatus(r.state, freshId).value.status == Failed)
      && (r.result.InvalidRequest? || r.result.Uncaught? ==> GetPaymentStatus(r.state, freshId).None?)
      && (forall id :: id != freshId ==> GetPaymentStatus(r.state, id) == GetPaymentStatus(s, id))
  {
  }

  /**
    The record an initiation creates keeps the record invariants: a failure
    reason exactly when FAILED, and a provider id exactly when the adapter
    call returned one.
   */
  lemma InitiatedRecordIsConsistent(s: State, adapters: seq<Adapter>, req: PaymentRequest, freshId: string)
    requires freshId !in s.store
    requires ReachesAdapter(adapters, req)
    ensures var r := InitiatePayment(s, adapters, req, freshId);
      var t := r.state.store[freshId];
      && (t.failureReason.Some? <==> t.status == Failed)
      && (t.providerTransactionId.Some? <==> r.result.Ok?)
      && (t.status == InProgress || t.status == Failed)
  {
  }

  /**
    Initiation keeps every record filed under its own id, and keeps provider
    ids unique as long as the adapter returns an id no stored record has.
   */
  lemma InitiatePreservesStoreInvariants(s: State, adapters: seq<Adapter>, req: PaymentRequest, freshId: string)
    requires freshId !in s.store
    requires WellKeyed(s.store)
    ensures WellKeyed(InitiatePayment(s, adapters, req, freshId).state.store)
    ensures ProviderIdsUnique(s.store)
      && (ReachesAdapter(adapters, req) && SelectedAdapter(adapters, req).outcome.Initiated? ==>
            forall k :: k in s.store ==> s.store[k].providerTransactionId != Some(SelectedAdapter(adapters, req).outcome.providerTransactionId))
      ==> ProviderIdsUnique(InitiatePayment(s, adapters, req, freshId).state.store)
  {
    var r := InitiatePayment(s, adapters, req, freshId);
    if ReachesAdapter(adapters, req) {
      assert r.state.store == Save(s.store, r.state.store[freshId]);
    }
  }

  /**
    A provider callback keeps both store invariants; with unique provider ids
    a non-null provider id never hits the non-unique case.
   */
  lemma CallbackPreservesStoreInvariants(s: State, providerTransactionId: Option<string>, newStatus: PaymentStatus, reason: Option<string>)
    requires WellKeyed(s.store)
    ensures var r := ProcessProviderStatusUpdate(s, providerTransactionId, newStatus, reason);
      && WellKeyed(r.state.store)
      && (ProviderIdsUnique(s.store) ==> ProviderIdsUnique(r.state.store))
      && (ProviderIdsUnique(s.store) && providerTransactionId.Some? ==> !r.result.DuplicateProviderTransaction?)
      && r.state.store.Keys == s.store.Keys
  {
    var r := ProcessProviderStatusUpdate(s, providerTransactionId, newStatus, reason);
    if r.result.Applied? {
      var k :| k in s.store && s.store[k].providerTransactionId == providerTransactionId &&
        r.result.record == s.store[k].(status := newStatus, failureReason := reason);
      assert r.result.record.id == k;
    }
  }

  /**
    After an applied callback both lookups see the updated record: by its id,
    and by the provider id the update named.
   */
  lemma CallbackRoundTrip(s: State, providerTransactionId: Option<string>, newStatus: PaymentStatus, reason: Option<string>)
    requires WellKeyed(s.store)
    ensures var r := ProcessProviderStatusUpdate(s, providerTransactionId, newStatus, reason);
      r.result.Applied? ==>
        && GetPaymentStatus(r.state, r.result.record.id) == Some(r.result.record)
        && FindByProviderTransactionId(r.state.store, providerTransactionId) == Found(r.result.record)
  {
    var r := ProcessProviderStatusUpdate(s, providerTransactionId, newStatus, reason);
    CallbackPreservesStoreInvariants(s, providerTransactionId, newStatus, reason);
    if r.result.Applied? {
      var t := r.result.record;
      var found := FindByProviderTransactionId(r.state.store, providerTransactionId);
      assert t.id in r.state.store && r.state.store[t.id] == t;
      assert !found.NotFound?;
      assert !found.NonUnique?;
    }
  }

  /** Replaying the same callback rewrites the same record: the store does not change again, though the save and the job repeat. */
  lemma CallbackReplayLeavesStore(s: State, providerTransactionId: Option<string>, newStatus: PaymentStatus, reason: Option<string>)
    requires WellKeyed(s.store)
    ensures var r := ProcessProviderStatusUpdate(s, providerTransactionId, newStatus, reason);
      var r' := ProcessProviderStatusUpdate(r.state, providerTransactionId, newStatus, reason);
      && r'.state.store == r.state.store
      && r'.result == r.result
      && |SavedRecords(r'.state.trace)| == |SavedRecords(s.trace)| + (if r.result.Applied? then 2 else 0)
  {
    var r := ProcessProviderStatusUpdate(s, providerTransactionId, newStatus, reason);
    CallbackRoundTrip(s, providerTransactionId, newStatus, reason);
    CallbackPreservesStoreInvariants(s, providerTransactionId, newStatus, reason);
    if r.result.Applied? {
      var r' := ProcessProviderStatusUpdate(r.state, providerTransactionId, newStatus, reason);
      var t := r.result.record;
      assert r'.result.record == t.(status := newStatus, failureReason := reason);
      TraceCountsAppend(s.trace, [Saved(t)]);
      TraceCountsAppend(r.state.trace, [Saved(t)]);
      assert SavedRecords([Saved(t)]) == [t] by {
        assert [Saved(t)][..0] == [];
      }
    }
  }

  /**
    The success path schedules a SUCCESS job while the stored status is
    IN_PROGRESS; running that job sends the SUCCESS wording about the
    IN_PROGRESS record.
   */
  lemma SuccessNotificationDescribesInProgressRecord(s: State, adapters: seq<Adapter>, req: PaymentRequest, freshId: string,
                                                     formatAmount: real -> string)
    requires freshId !in s.store && s.queue == []
    ensures var r := InitiatePayment(s, adapters, req, freshId);
      r.result.Ok? ==>
        var t := r.result.transaction;
        && t.status == InProgress
        && RunNextJob(r.state, formatAmount, Delivered).report
             == Sent(Sms(req.recipientPhoneNumber, MessageText(Success, t, formatAmount(t.amount))))
        && MessageText(Success, t, formatAmount(t.amount)) != MessageText(InProgress, t, formatAmount(t.amount))
  {
    var r := InitiatePayment(s, adapters, req, freshId);
    if r.result.Ok? {
      var t := r.result.transaction;
      TemplateDeterminesTag(Success, InProgress, t, formatAmount(t.amount));
    }
  }

  /** After a payment error, the queued job sends the FAILED wording ending with the stored failure reason. */
  lemma FailureNotificationQuotesReason(s: State, adapters: seq<Adapter>, req: PaymentRequest, freshId: string,
                                        formatAmount: real -> string, gateway: SendOutcome)
    requires freshId !in s.store && s.queue == []
    ensures var r := InitiatePayment(s, adapters, req, freshId);
      r.result.PaymentError? ==>
        var report := RunNextJob(r.state, formatAmount, gateway).report;
        var reason := r.state.store[freshId].failureReason.value;
        && (report.Sent? || report.SendFailed?)
        && |report.sms.text| >= |reason|
        && report.sms.text[|report.sms.text| - |reason|..] == reason
        && RunNextJob(r.state, formatAmount, gateway).state.store == r.state.store
  {
  }

  /** A request that passes validation and names a registered provider always reaches the adapter. */
  lemma ValidRequestReachesAdapter(s: State, adapters: seq<Adapter>, req: PaymentRequest, freshId: string)
    requires freshId !in s.store
    requires ValidRequest(req) && FindMobileMoneyService(adapters, req.provider).Some?
    ensures var r := InitiatePayment(s, adapters, req, freshId);
      (r.result.Ok? || r.result.PaymentError?) && freshId in r.state.store
  {
    ValidAmountIsPositive(req);
  }

  /** The tests' request: a phone, 100.00 KES, provider MOCK. */
  function SampleRequest(amount: real): PaymentRequest
  {
    PaymentRequest(Some("+254712345678"), Some(amount), Some("KES"), Some("MOCK"), Some("Test payment"))
  }

  /** A single registered adapter serves its own tag. */
  lemma SingleAdapterServesItsTag(a: Adapter)
    ensures FindMobileMoneyService([a], Some(a.providerType)) == Some(0)
  {
    EqualsIgnoreCaseIsEquivalence(a.providerType, a.providerType, a.providerType);
    assert Serves([a][0], Some(a.providerType));
  }

  /** With an adapter that throws "Provider API error", the record is saved as FAILED with an external-API reason and the caller gets a payment error. */
  lemma ExternalApiFailureScenario(s: State, freshId: string)
    requires freshId !in s.store
    ensures var adapters := [Adapter("MOCK", ExternalApiError(Some("Provider API error")))];
      var r := InitiatePayment(s, adapters, SampleRequest(100.0), freshId);
      && r.result == PaymentError(ProviderFailureMessage)
      && |SavedRecords(r.state.trace)| == |SavedRecords(s.trace)| + 2
      && r.state.store[freshId].status == Failed
      && r.state.store[freshId].failureReason == Some("External API error: Provider API error")
  {
    var adapters := [Adapter("MOCK", ExternalApiError(Some("Provider API error")))];
    var req := SampleRequest(100.0);
    SingleAdapterServesItsTag(adapters[0]);
    assert ExternalApiPrefix + Show(Some("Provider API error")) == "External API error: Provider API error" by {
      assert Show(Some("Provider API error")) == "Provider API error";
    }
    InitiateWritesTwiceCallsOnce(s, adapters, req, freshId);
  }

  /** With an adapter that succeeds, the returned record is IN_PROGRESS and carries the provider's id; a provider spelled in lower case selects the same adapter. */
  lemma SuccessScenario(s: State, freshId: string)
    requires freshId !in s.store
    ensures var adapters := [Adapter("MOCK", Initiated("provider-tx-id"))];
      var r := InitiatePayment(s, adapters, SampleRequest(100.0), freshId);
      && r.result.Ok?
      && r.result.transaction.status == InProgress
      && r.result.transaction.providerTransactionId == Some("provider-tx-id")
      && InitiatePayment(s, adapters, SampleRequest(100.0).(provider := Some("mock")), freshId).result.Ok?
  {
    var adapters := [Adapter("MOCK", Initiated("provider-tx-id"))];
    assert Serves(adapters[0], Some("MOCK"));
    assert CharsEqualIgnoreCase('M', 'm') && CharsEqualIgnoreCase('O', 'o') && CharsEqualIgnoreCase('C', 'c') && CharsEqualIgnoreCase('K', 'k');
    assert Serves(adapters[0], Some("mock"));
  }

  /** An unregistered provider is refused before anything is written or called. */
  lemma UnsupportedProviderScenario(s: State, freshId: string)
    requires freshId !in s.store
    ensures var adapters := [Adapter("MOCK", Initiated("provider-tx-id"))];
      var r := InitiatePayment(s, adapters, SampleRequest(100.0).(provider := Some("UNSUPPORTED_PROVIDER")), freshId);
      && r.result == InvalidRequest("Unsupported mobile money provider: UNSUPPORTED_PROVIDER")
      && r.state == s
  {
    var adapters := [Adapter("MOCK", Initiated("provider-tx-id"))];
    assert !Serves(adapters[0], Some("UNSUPPORTED_PROVIDER"));
    assert Show(Some("UNSUPPORTED_PROVIDER")) == "UNSUPPORTED_PROVIDER";
    var r := InitiatePayment(s, adapters, SampleRequest(100.0).(provider := Some("UNSUPPORTED_PROVIDER")), freshId);
    assert FindMobileMoneyService(adapters, Some("UNSUPPORTED_PROVIDER")).None?;
    assert r.result.InvalidRequest?;
    assert r.result == InvalidRequest("Unsupported mobile money provider: UNSUPPORTED_PROVIDER");
  }

  /**
    A callback may store FAILED without a reason, or a reason on a
    non-failed record: the reason-iff-FAILED invariant holds for records
    initiation creates, not after callbacks.
   */
  lemma CallbackMayBreakReasonInvariant(t: PaymentTransaction)
    requires t.providerTransactionId == Some("p-1")
    ensures var s := State(map[t.id := t], [], []);
      var r := ProcessProviderStatusUpdate(s, Some("p-1"), Failed, None);
      && r.result.Applied?
      && r.result.record.status == Failed
      && r.result.record.failureReason.None?
  {
    var s := State(map[t.id := t], [], []);
    assert ProviderMatches(s.store, Some("p-1")) == {t.id};
  }

  /**
    A callback with a null provider id looks up the records that have no
    provider id: a record that failed at initiation is one of them, and the
    callback overwrites it.
   */
  lemma NullProviderIdMatchesUnassignedRecord(t: PaymentTransaction, newStatus: PaymentStatus)
    requires t.providerTransactionId.None?
    ensures var s := State(map[t.id := t], [], []);
      var r := ProcessProviderStatusUpdate(s, None, newStatus, None);
      && r.result == Applied(t.(status := newStatus, failureReason := None))
      && r.state.queue == [Job(t.id, newStatus)]
  {
    var s := State(map[t.id := t], [], []);
    assert ProviderMatches(s.store, None) == {t.id};
  }

  /** With two records lacking a provider id, a null-id callback is a non-unique lookup that changes nothing. */
  lemma NullProviderIdWithTwoUnassignedRecords(t: PaymentTransaction, u: PaymentTransaction)
    requires t.providerTransactionId.None? && u.providerTransactionId.None? && t.id != u.id
    ensures var s := State(map[t.id := t, u.id := u], [], []);
      var r := ProcessProviderStatusUpdate(s, None, Success, None);
      && r.result == DuplicateProviderTransaction
      && r.state == s
  {
    var s := State(map[t.id := t, u.id := u], [], []);
    assert ProviderMatches(s.store, None) == {t.id, u.id};
  }
}
