/** config/payments.js: the mock provider clients and their lookup.
    Each client's simulated latency is left out; what remains is the fixed
    outcome it reports. */
module PaymentsConfig {
  import opened Js

  /** A provider client: its key in the table, display name and the status
      every charge through it reports. */
  datatype ProviderClient = ProviderClient(key: string, name: string, reports: string)

  /** What `provider.processPayment(payload)` resolves to. */
  datatype Transaction = Transaction(status: string, provider: string, transactionId: string)

  const SUCCEEDED: string := "succeeded"
  const PENDING: string := "pending"

  const STRIPE: ProviderClient := ProviderClient("stripe", "Stripe", SUCCEEDED)
  const PAYPAL: ProviderClient := ProviderClient("paypal", "PayPal", SUCCEEDED)
  /** Apple receipts are validated asynchronously, so every charge is pending. */
  const APPLE: ProviderClient := ProviderClient("apple", "Apple IAP", PENDING)

  const PROVIDER_CLIENTS: map<string, ProviderClient> :=
    map["stripe" := STRIPE, "paypal" := PAYPAL, "apple" := APPLE]

  /** `getPaymentProvider(provider)`, reading only the table's own keys
      (see ProviderLookupAsWritten for what the plain-object read does). */
  function GetPaymentProvider(provider: Value): (r: Option<ProviderClient>)
    ensures r.Some? <==> provider in {Str("stripe"), Str("paypal"), Str("apple")}
    ensures r.Some? ==> provider == Str(r.value.key)
  {
    if provider.Str? && provider.s in PROVIDER_CLIENTS then Some(PROVIDER_CLIENTS[provider.s]) else None
  }

  /** `client.processPayment({subscriptionId, amount})` at time `now`: the
      payload is only logged; the transaction id is the key, `_` and `Date.now()`. */
  function ProcessWith(client: ProviderClient, now: int): (t: Transaction)
    ensures t.status == client.reports
    ensures t.provider == client.key
    ensures StartsWith(t.transactionId, client.key + "_")
  {
    Transaction(client.reports, client.key, client.key + "_" + IntToString(now))
  }

  /** Stripe and PayPal always settle; Apple always reports pending, never succeeded. */
  lemma ProviderOutcomes(now: int)
    ensures ProcessWith(STRIPE, now).status == SUCCEEDED
    ensures ProcessWith(PAYPAL, now).status == SUCCEEDED
    ensures ProcessWith(APPLE, now).status == PENDING
    ensures ProcessWith(APPLE, now).status != SUCCEEDED
  {
  }

  /** Every registered client reports under its own key. */
  lemma ClientsKeyedByName(provider: Value, now: int)
    requires GetPaymentProvider(provider).Some?
    ensures var client := GetPaymentProvider(provider).value;
      Str(ProcessWith(client, now).provider) == provider &&
      StartsWith(ProcessWith(client, now).transactionId, ToDisplay(provider) + "_")
  {
  }

  // ----- The lookup as written -----

  /** The properties every plain object inherits from `Object.prototype`. */
  const OBJECT_PROTOTYPE_MEMBERS: set<string> := {
    "constructor", "hasOwnProperty", "isPrototypeOf", "propertyIsEnumerable",
    "toLocaleString", "toString", "valueOf", "__proto__",
    "__defineGetter__", "__defineSetter__", "__lookupGetter__", "__lookupSetter__"}

  /** What reading a property of a plain object yields. */
  datatype PropertyRead = OwnClient(client: ProviderClient) | Inherited(member: string) | Missing

  /** `providerClients[provider]` as the source writes it: the key is the
      value's string form, and a key naming an inherited member yields that
      member (a function or object, so truthy) instead of `undefined`. */
  function ProviderLookupAsWritten(provider: Value): (r: PropertyRead)
    ensures r.OwnClient? <==> GetPaymentProvider(provider).Some?
    ensures r.Inherited? <==> ToDisplay(provider) in OBJECT_PROTOTYPE_MEMBERS
  {
    var key := ToDisplay(provider);
    if key in PROVIDER_CLIENTS then OwnClient(PROVIDER_CLIENTS[key])
    else if key in OBJECT_PROTOTYPE_MEMBERS then Inherited(key)
    else Missing
  }

  /** A subscription created with `paymentProvider: "toString"` passes the
      `if (!provider)` guard as written, although no client is registered
      under that name; the charge then fails calling a missing
      `processPayment` instead of reporting the provider as not configured. */
  lemma InheritedProviderPassesGuard()
    ensures ProviderLookupAsWritten(Str("toString")) == Inherited("toString")
    ensures GetPaymentProvider(Str("toString")) == None
  {
  }
}
