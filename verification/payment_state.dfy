/**
  The state the payment operations act on: the store, the ordered trace of
  store writes and adapter calls, and the queue of scheduled notification jobs.
 */
module PaymentState {
  import opened PaymentModel
  import opened TransactionStore

  /** A scheduled notification: the transaction to re-read and the status tag chosen when scheduling. */
  datatype Job = Job(transactionId: string, status: PaymentStatus)

  /** An externally visible step of an operation, in the order it happened. */
  datatype Effect =
    | Saved(record: PaymentTransaction)
    | AdapterCalled(providerType: string, record: PaymentTransaction)

  datatype State = State(store: Store, trace: seq<Effect>, queue: seq<Job>)

  /** The snapshots written to the store, in order. */
  function SavedRecords(trace: seq<Effect>): seq<PaymentTransaction>
  {
    if |trace| == 0 then []
    else SavedRecords(trace[..|trace| - 1]) + (if trace[|trace| - 1].Saved? then [trace[|trace| - 1].record] else [])
  }

  /** The number of adapter initiation calls. */
  function AdapterCallCount(trace: seq<Effect>): nat
  {
    if |trace| == 0 then 0
    else AdapterCallCount(trace[..|trace| - 1]) + (if trace[|trace| - 1].AdapterCalled? then 1 else 0)
  }

  /** Counting writes and calls distributes over a trace that is extended. */
  lemma {:induction false} TraceCountsAppend(a: seq<Effect>, b: seq<Effect>)
    ensures SavedRecords(a + b) == SavedRecords(a) + SavedRecords(b)
    ensures AdapterCallCount(a + b) == AdapterCallCount(a) + AdapterCallCount(b)
    decreases |b|
  {
    if |b| == 0 {
      assert a + b == a;
    } else {
      var b' := b[..|b| - 1];
      assert (a + b)[..|a + b| - 1] == a + b';
      assert (a + b)[|a + b| - 1] == b[|b| - 1];
      TraceCountsAppend(a, b');
    }
  }

  /** `save`: the store takes the record and the trace records the write. */
  function Persist(s: State, t: PaymentTransaction): (r: State)
    ensures r.store == Save(s.store, t) && r.queue == s.queue
    ensures t.id in r.store && r.store[t.id] == t && r.store.Keys == s.store.Keys + {t.id}
    ensures r.trace == s.trace + [Saved(t)]
  {
    s.(store := Save(s.store, t), trace := s.trace + [Saved(t)])
  }

  /** The adapter is handed a record; only the trace changes. */
  function CallAdapter(s: State, providerType: string, t: PaymentTransaction): (r: State)
    ensures r.store == s.store && r.queue == s.queue
    ensures r.trace == s.trace + [AdapterCalled(providerType, t)]
  {
    s.(trace := s.trace + [AdapterCalled(providerType, t)])
  }
}
