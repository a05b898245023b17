/**
  The registered mobile-money adapters and the choice among them. An adapter
  is identified by its provider-type tag; its answer to the initiation call is
  an input of the model (the adapters are external services).
 */
module Providers {
  import opened Optional
  import opened JavaText

  /** What an adapter's initiation call does: return the provider's id, or throw. */
  datatype AdapterOutcome =
    | Initiated(providerTransactionId: string)
    | ExternalApiError(message: Option<string>)
    | UnexpectedError(message: Option<string>)

  datatype Adapter = Adapter(providerType: string, outcome: AdapterOutcome)

  /** The selection filter: the adapter's tag equals the requested provider ignoring case. */
  predicate Serves(a: Adapter, provider: Option<string>)
  {
    EqualsIgnoreCase(a.providerType, provider)
  }

  /** The first adapter at or after `from` that serves the provider. */
  function FirstServing(adapters: seq<Adapter>, provider: Option<string>, from: nat): (r: Option<nat>)
    requires from <= |adapters|
    ensures r.Some? ==> from <= r.value < |adapters| && Serves(adapters[r.value], provider)
    ensures r.Some? ==> forall j :: from <= j < r.value ==> !Serves(adapters[j], provider)
    ensures r.None? <==> forall j :: from <= j < |adapters| ==> !Serves(adapters[j], provider)
    decreases |adapters| - from
  {
    if from == |adapters| then None
    else if Serves(adapters[from], provider) then Some(from)
    else FirstServing(adapters, provider, from + 1)
  }

  /** `findMobileMoneyService`: the index of the first registered adapter serving the provider, if any. */
  function FindMobileMoneyService(adapters: seq<Adapter>, provider: Option<string>): (r: Option<nat>)
    ensures r.Some? ==> r.value < |adapters| && Serves(adapters[r.value], provider)
    ensures r.Some? ==> forall j :: 0 <= j < r.value ==> !Serves(adapters[j], provider)
    ensures r.None? <==> forall j :: 0 <= j < |adapters| ==> !Serves(adapters[j], provider)
    ensures provider.None? ==> r.None?
  {
    FirstServing(adapters, provider, 0)
  }

  /** Two providers equal ignoring case select the same adapter. */
  lemma {:induction false} SelectionIgnoresCase(adapters: seq<Adapter>, p: string, q: string, from: nat)
    requires from <= |adapters|
    requires EqualsIgnoreCase(p, Some(q))
    ensures FirstServing(adapters, Some(p), from) == FirstServing(adapters, Some(q), from)
    decreases |adapters| - from
  {
    if from < |adapters| {
      var t := adapters[from].providerType;
      EqualsIgnoreCaseIsEquivalence(t, p, q);
      EqualsIgnoreCaseIsEquivalence(t, q, p);
      EqualsIgnoreCaseIsEquivalence(p, q, t);
      EqualsIgnoreCaseIsEquivalence(q, p, t);
      assert Serves(adapters[from], Some(p)) <==> Serves(adapters[from], Some(q));
      SelectionIgnoresCase(adapters, p, q, from + 1);
    }
  }
}
