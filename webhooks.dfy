/** routes/webhooks.js: the provider callbacks. They carry no signature
    check; each one looks the subscription up by the body's
    `subscriptionId` and changes its status fields in place. */
module Webhooks {
  import opened Js
  import opened Models
  import opened DataStore
  import opened SubscriptionService
  import opened Http

  const RECEIVED: Response := Response(OK, Received)

  /** `getById(subscriptionId)` for an id taken from a JSON body: only a
      string can equal a stored id. */
  function Locate(subs: seq<Subscription>, subscriptionId: Value): (r: Option<nat>)
    ensures r.Some? ==> subscriptionId.Str? && r == IndexOf(subs, subscriptionId.s)
    ensures r.None? <==> !(subscriptionId.Str? && GetById(subs, subscriptionId.s).Some?)
  {
    if subscriptionId.Str? then IndexOf(subs, subscriptionId.s) else None
  }

  /** The subscriptions after a handler, and its response. */
  datatype Handled = Handled(subscriptions: seq<Subscription>, response: Response)

  /** `POST /stripe`: sets `lastPaymentStatus` to the reported status and
      marks the subscription past due when that status is "failed". */
  function Stripe(subs: seq<Subscription>, body: map<string, Value>): (r: Handled)
    ensures var at := Locate(subs, Get(body, "subscriptionId"));
      && (at.None? ==> r == Handled(subs, NOT_FOUND_RESPONSE))
      && (at.Some? ==>
            var i, status := at.value, Get(body, "status");
            && r.response == RECEIVED
            && |r.subscriptions| == |subs|
            && r.subscriptions[i].lastPaymentStatus == status
            && r.subscriptions[i].status == (if status == Str("failed") then PastDue else subs[i].status)
            && r.subscriptions[i] == subs[i].(lastPaymentStatus := status, status := r.subscriptions[i].status)
            && forall j :: 0 <= j < |subs| && j != i ==> r.subscriptions[j] == subs[j])
  {
    var subscriptionId, status := Get(body, "subscriptionId"), Get(body, "status");
    match Locate(subs, subscriptionId)
    case None => Handled(subs, NOT_FOUND_RESPONSE)
    case Some(i) =>
      var updated := subs[i := subs[i].(lastPaymentStatus := status)];
      IndexOfSameIds(subs, updated, subscriptionId.s);
      Handled(if status == Str("failed") then MarkedPastDue(updated, subscriptionId.s) else updated, RECEIVED)
  }

  /** `POST /paypal`: a truthy `dispute` marks the subscription past due;
      `lastPaymentStatus` is never touched. */
  function Paypal(subs: seq<Subscription>, body: map<string, Value>): (r: Handled)
    ensures var at := Locate(subs, Get(body, "subscriptionId"));
      && (at.None? ==> r == Handled(subs, NOT_FOUND_RESPONSE))
      && (at.Some? ==>
            var i := at.value;
            && r.response == RECEIVED
            && r.subscriptions == (if Truthy(Get(body, "dispute")) then subs[i := subs[i].(status := PastDue)] else subs))
  {
    var subscriptionId := Get(body, "subscriptionId");
    match Locate(subs, subscriptionId)
    case None => Handled(subs, NOT_FOUND_RESPONSE)
    case Some(i) =>
      Handled(if Truthy(Get(body, "dispute")) then MarkedPastDue(subs, subscriptionId.s) else subs, RECEIVED)
  }

  /** PayPal never changes a payment status. */
  lemma PaypalKeepsLastPaymentStatus(subs: seq<Subscription>, body: map<string, Value>)
    ensures var after := Paypal(subs, body).subscriptions;
      |after| == |subs| && forall j :: 0 <= j < |subs| ==> after[j].lastPaymentStatus == subs[j].lastPaymentStatus
  {
  }

  /** Every answer of the two handlers is 404 or the acknowledgement. */
  lemma WebhookResponses(subs: seq<Subscription>, body: map<string, Value>)
    ensures Stripe(subs, body).response in {NOT_FOUND_RESPONSE, RECEIVED}
    ensures Paypal(subs, body).response in {NOT_FOUND_RESPONSE, RECEIVED}
    ensures Stripe(subs, body).response == NOT_FOUND_RESPONSE ==> Stripe(subs, body).subscriptions == subs
    ensures Paypal(subs, body).response == NOT_FOUND_RESPONSE ==> Paypal(subs, body).subscriptions == subs
  {
  }

  /** A canceled subscription is not final: a "failed" Stripe callback
      turns it into a past-due one. */
  lemma StripeFailureReopensCanceled(subs: seq<Subscription>, id: string)
    requires GetById(subs, id).Some? && GetById(subs, id).value.status == Canceled
    ensures var i := IndexOf(subs, id).value;
      Stripe(subs, map["subscriptionId" := Str(id), "status" := Str("failed")]).subscriptions[i].status == PastDue
  {
    var body := map["subscriptionId" := Str(id), "status" := Str("failed")];
    assert Get(body, "subscriptionId") == Str(id) && Get(body, "status") == Str("failed");
  }

  /** `POST /stripe` on the store. */
  method StripeWebhook(store: Store, body: map<string, Value>) returns (response: Response)
    modifies store
    ensures Handled(store.subscriptions, response) == Stripe(old(store.subscriptions), body)
    ensures store.payments == old(store.payments)
  {
    var subscriptionId, status := Get(body, "subscriptionId"), Get(body, "status");
    var found := Locate(store.subscriptions, subscriptionId);
    if found.None? {
      return NOT_FOUND_RESPONSE;
    }
    var i := found.value;
    store.subscriptions := store.subscriptions[i := store.subscriptions[i].(lastPaymentStatus := status)];
    if status == Str("failed") {
      var _ := MarkPastDue(store, subscriptionId.s);
    }
    response := RECEIVED;
  }

  /** `POST /paypal` on the store. */
  method PaypalWebhook(store: Store, body: map<string, Value>) returns (response: Response)
    modifies store
    ensures Handled(store.subscriptions, response) == Paypal(old(store.subscriptions), body)
    ensures store.payments == old(store.payments)
  {
    var subscriptionId := Get(body, "subscriptionId");
    var found := Locate(store.subscriptions, subscriptionId);
    if found.None? {
      return NOT_FOUND_RESPONSE;
    }
    if Truthy(Get(body, "dispute")) {
      var _ := MarkPastDue(store, subscriptionId.s);
    }
    response := RECEIVED;
  }

  /** `POST /apple`: the body is only logged; the store is not touched. */
  function Apple(body: map<string, Value>): (r: Response)
    ensures r == RECEIVED
  {
    RECEIVED
  }
}
