/**
  The transaction repository, abstracted as a map from primary id to record:
  `save` writes under the record's own id, `findById` is a map lookup, and
  `findByProviderTransactionId` searches the records by the provider-assigned id.
 */
module TransactionStore {
  import opened Optional
  import opened PaymentModel

  type Store = map<string, PaymentTransaction>

  /** Every record is filed under its own id. */
  predicate WellKeyed(store: Store)
  {
    forall k :: k in store ==> store[k].id == k
  }

  /** No two records share a provider-assigned id. */
  predicate ProviderIdsUnique(store: Store)
  {
    forall k, k' :: k in store && k' in store && k != k' && store[k].providerTransactionId.Some? ==>
      store[k].providerTransactionId != store[k'].providerTransactionId
  }

  /** `save`: inserts or overwrites the record under its id; nothing else changes. */
  function Save(store: Store, t: PaymentTransaction): (r: Store)
    ensures t.id in r && r[t.id] == t
    ensures r.Keys == store.Keys + {t.id}
    ensures forall k :: k in store && k != t.id ==> r[k] == store[k]
    ensures WellKeyed(store) ==> WellKeyed(r)
  {
    store[t.id := t]
  }

  function FindById(store: Store, id: string): (r: Option<PaymentTransaction>)
    ensures r.Some? <==> id in store
    ensures r.Some? ==> r.value == store[id]
  {
    if id in store then Some(store[id]) else None
  }

  /**
    The keys of the records whose provider-assigned id equals the argument.
    A null argument becomes an `IS NULL` condition, so it matches the records
    that have no provider id.
   */
  function ProviderMatches(store: Store, providerTransactionId: Option<string>): set<string>
  {
    set k | k in store && store[k].providerTransactionId == providerTransactionId
  }

  /** What a single-result query by provider id yields: nothing, the one record, or a non-unique result error. */
  datatype ProviderLookup = NotFound | Found(record: PaymentTransaction) | NonUnique

  lemma SingletonMember<T>(s: set<T>, a: T, b: T)
    requires |s| == 1 && a in s && b in s
    ensures a == b
  {
    if a != b {
      assert {a, b} <= s;
      assert |{a, b}| == 2;
      SubsetCardinality({a, b}, s);
    }
  }

  lemma SubsetCardinality<T>(a: set<T>, b: set<T>)
    requires a <= b
    ensures |a| <= |b|
  {
    if a != {} {
      var x :| x in a;
      SubsetCardinality(a - {x}, b - {x});
    }
  }

  function FindByProviderTransactionId(store: Store, providerTransactionId: Option<string>): (r: ProviderLookup)
    ensures r.NotFound? <==> forall k :: k in store ==> store[k].providerTransactionId != providerTransactionId
    ensures r.Found? ==> exists k :: k in store && store[k] == r.record
    ensures r.Found? ==> r.record.providerTransactionId == providerTransactionId
    ensures r.Found? ==> forall k :: k in store && store[k].providerTransactionId == providerTransactionId ==> store[k] == r.record
    ensures r.NonUnique? <==>
      exists k, k' :: k in store && k' in store && k != k' &&
        store[k].providerTransactionId == providerTransactionId && store[k'].providerTransactionId == providerTransactionId
    ensures r.NonUnique? && providerTransactionId.Some? ==> !ProviderIdsUnique(store)
  {
    var keys := ProviderMatches(store, providerTransactionId);
    if |keys| == 0 then
      assert forall k :: k in store ==> store[k].providerTransactionId == providerTransactionId ==> k in keys;
      NotFound
    else if |keys| == 1 then
      assert forall a, b :: a in keys && b in keys ==> a == b by {
        forall a, b | a in keys && b in keys ensures a == b {
          SingletonMember(keys, a, b);
        }
      }
      var k :| k in keys;
      assert forall k' :: k' in store && store[k'].providerTransactionId == providerTransactionId ==> k' in keys;
      Found(store[k])
    else
      var a :| a in keys;
      assert |keys - {a}| == |keys| - 1;
      var b :| b in keys - {a};
      NonUnique
  }
}
