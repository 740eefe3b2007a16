/** services/PaymentRetryService.js: the retry state machine for past-due
    subscriptions, its backoff table and the selection of due retries. */
module PaymentRetryService {
  import opened Js
  import opened Sequences
  import opened Models
  import opened PaymentsConfig
  import opened DataStore
  import opened NotificationService
  import opened SubscriptionService
  import opened PaymentService

  const MAX_RETRIES: nat := 3
  /** Hours to wait after the 1st, 2nd and 3rd failed retry. */
  const RETRY_DELAYS: seq<nat> := [24, 72, 168]
  const CANCELLATION_REASON: string := "payment_failure"
  const CANCELLATION_TEMPLATE: string := "subscriptionCanceled"
  const CANCELLATION_MESSAGE: string := "Payment failed after multiple attempts"

  /** What `retryFailedPayment` resolves to when it does not throw. */
  datatype RetryResult =
    | Recovered(payment: Payment)   // { success: true, payment }
    | MaxRetriesExceeded            // { success: false, reason: 'max_retries_exceeded' }
    | PaymentFailed(nextRetry: int) // { success: false, reason: 'payment_failed', nextRetry }

  /** `subscription.retryAttempts || 0` */
  function Attempts(s: Subscription): nat {
    s.retryAttempts.GetOr(0)
  }

  /** `RETRY_DELAYS[attemptNumber - 1] || RETRY_DELAYS[RETRY_DELAYS.length - 1]`:
      an index outside the table (after the 3rd attempt, or below the 1st)
      reads undefined and falls back to the last delay. */
  function RetryDelayHours(attemptNumber: int): (hours: nat)
    ensures attemptNumber == 1 ==> hours == 24
    ensures attemptNumber == 2 ==> hours == 72
    ensures attemptNumber !in {1, 2} ==> hours == 168
  {
    if 1 <= attemptNumber <= |RETRY_DELAYS| then RETRY_DELAYS[attemptNumber - 1]
    else RETRY_DELAYS[|RETRY_DELAYS| - 1]
  }

  /** `calculateNextRetryDate(attemptNumber)` at time `now`. */
  function CalculateNextRetryDate(attemptNumber: int, now: int): (t: int)
    ensures now + 24 * MS_PER_HOUR <= t <= now + 168 * MS_PER_HOUR
  {
    now + RetryDelayHours(attemptNumber) * MS_PER_HOUR
  }

  /** From the first attempt on, a later attempt never waits less. */
  lemma BackoffNondecreasing(m: int, n: int, now: int)
    requires 1 <= m <= n
    ensures RetryDelayHours(m) <= RetryDelayHours(n)
    ensures CalculateNextRetryDate(m, now) <= CalculateNextRetryDate(n, now)
  {
  }

  /** The schedule: the 1st, 2nd and 3rd failed retry wait one, three and
      seven days, and any later one seven days. */
  lemma RetrySchedule(attemptNumber: int, now: int)
    ensures attemptNumber == 1 ==> CalculateNextRetryDate(attemptNumber, now) == now + 24 * 60 * 60 * 1000
    ensures attemptNumber == 2 ==> CalculateNextRetryDate(attemptNumber, now) == now + 72 * 60 * 60 * 1000
    ensures attemptNumber >= 3 ==> CalculateNextRetryDate(attemptNumber, now) == now + 168 * 60 * 60 * 1000
  {
  }

  /** The amount a retry charges: `planPrices[plan] || 20`. */
  function PlanPrice(plan: string): (amount: int)
    ensures plan == "basic" ==> amount == 15
    ensures plan == "premium" ==> amount == 25
    ensures plan == "family" ==> amount == 35
    ensures plan !in {"basic", "premium", "family"} ==> amount == 20
  {
    var prices := map["basic" := 15, "premium" := 25, "family" := 35];
    if plan in prices then prices[plan] else 20
  }

  /** A subscription waits for a retry: past due, with a retry date that has come. */
  predicate IsDueForRetry(s: Subscription, now: int)
    ensures IsDueForRetry(s, now) ==> s.status == PastDue
    ensures s.nextRetryDate.Some? && s.status == PastDue ==> (IsDueForRetry(s, now) <==> s.nextRetryDate.value <= now)
    ensures s.nextRetryDate.None? ==> !IsDueForRetry(s, now)
  {
    s.status == PastDue && s.nextRetryDate.Some? && s.nextRetryDate.value <= now
  }

  /** A subscription due for a retry stays due as time goes on. */
  lemma DueStaysDue(s: Subscription, now: int, later: int)
    requires IsDueForRetry(s, now) && now <= later
    ensures IsDueForRetry(s, later)
  {
  }

  /** `getSubscriptionsDueForRetry()` at time `now`, in store order. */
  function GetSubscriptionsDueForRetry(subs: seq<Subscription>, now: int): (r: seq<Subscription>)
    ensures forall k :: 0 <= k < |r| ==> r[k] in subs && IsDueForRetry(r[k], now)
    ensures forall k :: 0 <= k < |subs| && IsDueForRetry(subs[k], now) ==> subs[k] in r
  {
    Filter(subs, (s: Subscription) => IsDueForRetry(s, now))
  }

  lemma DueForRetryKeepsOrder(subs: seq<Subscription>, now: int)
    ensures IsSubsequence(GetSubscriptionsDueForRetry(subs, now), subs)
  {
    FilterIsSubsequence(subs, (s: Subscription) => IsDueForRetry(s, now));
  }

  /** The store, the emails sent and the outcome of one retry. */
  datatype RetryStep = RetryStep(db: Db, sent: seq<Email>, result: Result<RetryResult>)

  /** The cancellation notice: one email if the owning user exists, none otherwise. */
  function CancellationNotice(users: seq<User>, userId: Value): (sent: seq<Email>)
    ensures |sent| <= 1
    ensures |sent| == 1 <==> FindUser(users, userId).Some?
    ensures |sent| == 1 ==> sent[0] == Email(FindUser(users, userId).value.email,
                                             CANCELLATION_TEMPLATE, CancellationData(CANCELLATION_MESSAGE))
  {
    match FindUser(users, userId)
    case None => []
    case Some(u) => [Email(u.email, CANCELLATION_TEMPLATE, CancellationData(CANCELLATION_MESSAGE))]
  }

  /** `retryFailedPayment(id)` at time `now`, charging under the fresh
      payment id `paymentId`. Every outcome other than "succeeded" (Apple's
      "pending" included) counts as a failed retry. */
  function Retry(db: Db, id: string, now: int, paymentId: string): (step: RetryStep)
    ensures step.db.users == db.users
    ensures SameIds(db.subscriptions, step.db.subscriptions)
    ensures forall j :: 0 <= j < |db.subscriptions| && Some(j) != IndexOf(db.subscriptions, id) ==>
      step.db.subscriptions[j] == db.subscriptions[j]
    ensures step.result.Err? ==> step.db == db && step.sent == []
    ensures |db.payments| <= |step.db.payments| <= |db.payments| + 1
    ensures step.db.payments[..|db.payments|] == db.payments
  {
    match IndexOf(db.subscriptions, id)
    case None => RetryStep(db, [], Err(NOT_FOUND))
    case Some(i) =>
      var sub := db.subscriptions[i];
      var attempts := Attempts(sub);
      if attempts >= MAX_RETRIES then
        var canceled := sub.(status := Canceled, cancellationReason := Some(CANCELLATION_REASON));
        RetryStep(db.(subscriptions := db.subscriptions[i := canceled]),
                  CancellationNotice(db.users, sub.userId),
                  Ok(MaxRetriesExceeded))
      else
        match Charge(db, i, Num(PlanPrice(sub.plan)), paymentId, now)
        case Err(e) => RetryStep(db, [], Err(e))
        case Ok(c) =>
          var charged := c.db.subscriptions[i];
          if c.payment.status == SUCCEEDED then
            var recovered := charged.(retryAttempts := Some(0), status := Active, lastPaymentDate := Some(now));
            RetryStep(c.db.(subscriptions := c.db.subscriptions[i := recovered]), [], Ok(Recovered(c.payment)))
          else
            var next := CalculateNextRetryDate(attempts + 1, now);
            var failed := charged.(retryAttempts := Some(attempts + 1), nextRetryDate := Some(next));
            RetryStep(c.db.(subscriptions := c.db.subscriptions[i := failed]), [], Ok(PaymentFailed(next)))
  }

  /** An id not in the store: "Subscription not found", nothing changes. */
  lemma RetryUnknownId(db: Db, id: string, now: int, paymentId: string)
    requires GetById(db.subscriptions, id).None?
    ensures Retry(db, id, now, paymentId) == RetryStep(db, [], Err(NOT_FOUND))
  {
  }

  /** At the retry cap the subscription is cancelled for payment failure,
      no charge is made, and the user, if found, gets exactly one email. */
  lemma RetryAtCapCancels(db: Db, id: string, now: int, paymentId: string)
    requires GetById(db.subscriptions, id).Some?
    requires Attempts(GetById(db.subscriptions, id).value) >= MAX_RETRIES
    ensures var step, i := Retry(db, id, now, paymentId), IndexOf(db.subscriptions, id).value;
      var sub := db.subscriptions[i];
      && step.result == Ok(MaxRetriesExceeded)
      && step.db.payments == db.payments
      && step.db.subscriptions[i] == sub.(status := Canceled, cancellationReason := Some(CANCELLATION_REASON))
      && step.sent == CancellationNotice(db.users, sub.userId)
  {
  }

  /** A retry below the cap whose provider is registered charges the plan
      price and appends exactly one payment. On "succeeded" the subscription
      is active again with its counter reset; otherwise its status stays,
      the counter goes up by one and the next retry is scheduled by the
      backoff for the new count. */
  lemma RetryBelowCap(db: Db, id: string, now: int, paymentId: string)
    requires GetById(db.subscriptions, id).Some?
    requires Attempts(GetById(db.subscriptions, id).value) < MAX_RETRIES
    requires GetPaymentProvider(GetById(db.subscriptions, id).value.paymentProvider).Some?
    ensures var step, i := Retry(db, id, now, paymentId), IndexOf(db.subscriptions, id).value;
      var sub, after := db.subscriptions[i], step.db.subscriptions[i];
      var status := GetPaymentProvider(sub.paymentProvider).value.reports;
      && step.sent == []
      && |step.db.payments| == |db.payments| + 1
      && step.db.payments[..|db.payments|] == db.payments
      && step.db.payments[|db.payments|].amount == Num(PlanPrice(sub.plan))
      && step.db.payments[|db.payments|].status == status
      && after.lastPaymentStatus == Str(status)
      && (status == SUCCEEDED ==>
            && step.result == Ok(Recovered(step.db.payments[|db.payments|]))
            && after == sub.(lastPaymentStatus := Str(status), retryAttempts := Some(0),
                             status := Active, lastPaymentDate := Some(now)))
      && (status != SUCCEEDED ==>
            && step.result == Ok(PaymentFailed(CalculateNextRetryDate(Attempts(sub) + 1, now)))
            && after == sub.(lastPaymentStatus := Str(status), retryAttempts := Some(Attempts(sub) + 1),
                             nextRetryDate := Some(CalculateNextRetryDate(Attempts(sub) + 1, now))))
  {
    var i := IndexOf(db.subscriptions, id).value;
    var c := Charge(db, i, Num(PlanPrice(db.subscriptions[i].plan)), paymentId, now);
    assert c.Ok?;
    assert c.value.db.payments[..|db.payments|] == db.payments;
  }

  /** A retry whose provider is not registered throws and changes nothing. */
  lemma RetryUnregisteredProvider(db: Db, id: string, now: int, paymentId: string)
    requires GetById(db.subscriptions, id).Some?
    requires Attempts(GetById(db.subscriptions, id).value) < MAX_RETRIES
    requires GetPaymentProvider(GetById(db.subscriptions, id).value.paymentProvider).None?
    ensures var step := Retry(db, id, now, paymentId);
      step.db == db && step.sent == [] &&
      step.result == Err(NotConfigured(GetById(db.subscriptions, id).value.paymentProvider))
  {
  }

  /** An Apple-billed subscription is never brought back to active by a retry. */
  lemma AppleRetryNeverRecovers(db: Db, id: string, now: int, paymentId: string)
    requires GetById(db.subscriptions, id).Some?
    requires GetById(db.subscriptions, id).value.paymentProvider == Str("apple")
    ensures !(Retry(db, id, now, paymentId).result.Ok? && Retry(db, id, now, paymentId).result.value.Recovered?)
  {
    var i := IndexOf(db.subscriptions, id).value;
    if Attempts(db.subscriptions[i]) < MAX_RETRIES {
      RetryBelowCap(db, id, now, paymentId);
    }
  }

  /** `retryFailedPayment(id)` on the store. */
  method RetryFailedPayment(store: Store, outbox: Outbox, id: string, now: int, paymentId: string)
    returns (r: Result<RetryResult>)
    modifies store, outbox
    ensures var step := Retry(old(store.State()), id, now, paymentId);
      && store.State() == step.db
      && outbox.sent == old(outbox.sent) + step.sent
      && r == step.result
  {
    var found := IndexOf(store.subscriptions, id);
    if found.None? {
      return Err(NOT_FOUND);
    }
    var i := found.value;
    var sub := store.subscriptions[i];
    var attempts := Attempts(sub);
    if attempts >= MAX_RETRIES {
      store.subscriptions := store.subscriptions[i := sub.(status := Canceled, cancellationReason := Some(CANCELLATION_REASON))];
      var user := FindUser(store.users, sub.userId);
      if user.Some? {
        outbox.SendEmail(user.value.email, CANCELLATION_TEMPLATE, CancellationData(CANCELLATION_MESSAGE));
      }
      return Ok(MaxRetriesExceeded);
    }
    var amount := PlanPrice(sub.plan);
    var payment := ProcessPayment(store, i, Num(amount), paymentId, now);
    if payment.Err? {
      return Err(payment.error);
    }
    var charged := store.subscriptions[i];
    if payment.value.status == SUCCEEDED {
      store.subscriptions := store.subscriptions[i := charged.(retryAttempts := Some(0), status := Active, lastPaymentDate := Some(now))];
      r := Ok(Recovered(payment.value));
    } else {
      var next := CalculateNextRetryDate(attempts + 1, now);
      store.subscriptions := store.subscriptions[i := charged.(retryAttempts := Some(attempts + 1), nextRetryDate := Some(next))];
      r := Ok(PaymentFailed(next));
    }
  }
}
