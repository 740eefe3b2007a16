/** services/PaymentService.js: one charge through the subscription's
    provider, recorded as exactly one payment, and the payment history. */
module PaymentService {
  import opened Js
  import opened Sequences
  import opened Models
  import opened PaymentsConfig
  import opened DataStore

  const CURRENCY: string := "GBP"

  /** The store after a charge, and the payment it recorded. */
  datatype Charged = Charged(db: Db, payment: Payment)

  /** The error thrown for a provider name with no client. */
  function NotConfigured(provider: Value): Error {
    Error("Payment provider " + ToDisplay(provider) + " not configured", None)
  }

  /** `processPayment(subscription, amount)` for the subscription at index
      `i`, under the fresh payment id `paymentId`, at time `now`. */
  function Charge(db: Db, i: nat, amount: Value, paymentId: string, now: int): (r: Result<Charged>)
    requires i < |db.subscriptions|
    ensures var sub := db.subscriptions[i];
      r.Err? <==> GetPaymentProvider(sub.paymentProvider).None?
    ensures r.Err? ==> r.error == NotConfigured(db.subscriptions[i].paymentProvider)
    ensures r.Ok? ==>
      var sub, p := db.subscriptions[i], r.value.payment;
      var client := GetPaymentProvider(sub.paymentProvider).value;
      && r.value.db.users == db.users
      && r.value.db.payments == db.payments + [p]
      && r.value.db.subscriptions == db.subscriptions[i := sub.(lastPaymentStatus := Str(p.status))]
      && p.id == paymentId
      && p.subscriptionId == sub.id
      && p.provider == sub.paymentProvider
      && p.amount == amount
      && p.currency == CURRENCY
      && p.status == client.reports
      && p.processedAt == now
      && StartsWith(p.transactionId, client.key + "_")
  {
    var sub := db.subscriptions[i];
    match GetPaymentProvider(sub.paymentProvider)
    case None => Err(NotConfigured(sub.paymentProvider))
    case Some(client) =>
      var transaction := ProcessWith(client, now);
      var payment := Payment(
        id := paymentId,
        subscriptionId := sub.id,
        provider := sub.paymentProvider,
        amount := amount,
        currency := CURRENCY,
        status := transaction.status,
        processedAt := now,
        transactionId := transaction.transactionId);
      Ok(Charged(
        db.(payments := db.payments + [payment],
            subscriptions := db.subscriptions[i := sub.(lastPaymentStatus := Str(transaction.status))]),
        payment))
  }

  /** A charge never changes a subscription's id or any other subscription. */
  lemma ChargeTouchesOnlyItsSubscription(db: Db, i: nat, amount: Value, paymentId: string, now: int)
    requires i < |db.subscriptions| && Charge(db, i, amount, paymentId, now).Ok?
    ensures var after := Charge(db, i, amount, paymentId, now).value.db.subscriptions;
      && SameIds(db.subscriptions, after)
      && forall j :: 0 <= j < |after| && j != i ==> after[j] == db.subscriptions[j]
  {
  }

  /** `processPayment` on the store: appends exactly one payment and sets
      the subscription's `lastPaymentStatus`, or throws and changes nothing. */
  method ProcessPayment(store: Store, i: nat, amount: Value, paymentId: string, now: int) returns (r: Result<Payment>)
    requires i < |store.subscriptions|
    modifies store
    ensures var c := Charge(old(store.State()), i, amount, paymentId, now);
      && (c.Err? ==> r == Err(c.error) && store.State() == old(store.State()))
      && (c.Ok? ==> r == Ok(c.value.payment) && store.State() == c.value.db)
  {
    var sub := store.subscriptions[i];
    var provider := GetPaymentProvider(sub.paymentProvider);
    if provider.None? {
      return Err(NotConfigured(sub.paymentProvider));
    }
    var transaction := ProcessWith(provider.value, now);
    var payment := Payment(paymentId, sub.id, sub.paymentProvider, amount, CURRENCY,
                           transaction.status, now, transaction.transactionId);
    store.payments := store.payments + [payment];
    store.subscriptions := store.subscriptions[i := sub.(lastPaymentStatus := Str(transaction.status))];
    r := Ok(payment);
  }

  /** `getPaymentHistory(subscriptionId)`: that subscription's payments. */
  function GetPaymentHistory(payments: seq<Payment>, subscriptionId: string): (r: seq<Payment>)
    ensures forall k :: 0 <= k < |r| ==> r[k] in payments && r[k].subscriptionId == subscriptionId
    ensures forall k :: 0 <= k < |payments| && payments[k].subscriptionId == subscriptionId ==> payments[k] in r
  {
    Filter(payments, (p: Payment) => p.subscriptionId == subscriptionId)
  }

  /** The history lists payments in the order they were appended. */
  lemma HistoryInAppendOrder(payments: seq<Payment>, subscriptionId: string)
    ensures IsSubsequence(GetPaymentHistory(payments, subscriptionId), payments)
  {
    FilterIsSubsequence(payments, (p: Payment) => p.subscriptionId == subscriptionId);
  }

  /** A new payment joins the end of its subscription's history and no other. */
  lemma HistoryAfterCharge(payments: seq<Payment>, p: Payment, subscriptionId: string)
    ensures GetPaymentHistory(payments + [p], subscriptionId) ==
      GetPaymentHistory(payments, subscriptionId) + (if p.subscriptionId == subscriptionId then [p] else [])
  {
    FilterAppend(payments, [p], (q: Payment) => q.subscriptionId == subscriptionId);
  }
}
