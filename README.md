# Subscription billing service, modelled in Dafny

This project models the subscription-billing back end of the legacy
Express service, and proves properties of that model. The back end has:

- an in-memory store of users, subscriptions and payments;
- the subscription, payment, payment-retry and entitlement services;
- the provider table and its lookup;
- the request validators and the API-key middleware;
- the subscription REST handlers and the provider webhooks;
- the server's error handler;
- three scheduled jobs: the expiry sweep, the payment-retry run and the renewal reminders.

It also models the search of the bug-hunt article list: `filterArticles`,
the section heading and the "no articles found" choice.

How the model is built:

- **State.** The store (`DataStore.Store`), the outbox of sent emails
  (`NotificationService.Outbox`) and a request (`Auth.Request`) are
  classes with mutable fields. `Outbox.SendEmail` is the only method
  inside a class. The store and the request are updated by module-level
  methods that name them in `modifies`, such as
  `SubscriptionService.Cancel` and `Auth.AuthenticateRequest`.
- **Operations that change the store.** Each one has two parts. A pure
  function on values describes the new state: `MarkedPastDue`,
  `Cancelled`, `Charge`, `Retry`, `RetryAll`, `Sweep`, `Stripe`, and so
  on. The lemmas are proved about that function. A method on the store then
  performs the update, and its `ensures` ties the new state to the
  function.
- **The jobs.** They are methods whose loops are proved against folds:
  `MarkAllPastDue`, `RetryAll` and `Reminders`.
- **JavaScript values.** A value read from a request body or a record is a
  `Js.Value`. Truthiness, nullishness and `new Date(v).getTime()` are
  written out explicitly.
- **Time and ids.** Timestamps are integer milliseconds, and the current
  time is a parameter. Fresh ids, which the source gets from `uuid()`,
  are parameters as well.

Files: `js.dfy`, `sequences.dfy`, `models.dfy`, `data_store.dfy`,
`notifications.dfy`, `validators.dfy`, `payments_config.dfy`,
`entitlements.dfy`, `subscription_service.dfy`, `payment_service.dfy`,
`payment_retry_service.dfy`, `expired_subscriptions_job.dfy`,
`payment_retry_job.dfy`, `renewal_reminder_job.dfy`, `http.dfy`,
`webhooks.dfy`, `subscription_routes.dfy`, `auth.dfy`, `article_search.dfy`.

Behaviour worth knowing:

- Cancelling an unknown id is forwarded to the error handler and answered
  500, not 404 (`SubscriptionRoutes.CancelUnknownIs500`).
- A canceled subscription is not final. A Stripe callback with status
  "failed" makes it past due again
  (`Webhooks.StripeFailureReopensCanceled`).
- The cancellation after exhausted retries sets the status and the
  reason, but leaves `expiresAt` as it was (`PaymentRetryService.RetryAtCapCancels`).
- A charge accepts any truthy amount. Nothing checks that it is positive
  (`SubscriptionRoutes.ChargeAmount`).
- A validation error carries `statusCode` 400, but the installed error
  handler answers 500 (see Findings).

## Model

| member | source | states |
|---|---|---|
| Js.TimeOf | modules/02-codebase-understanding/legacy-code/jobs/expiredSubscriptions.js:6-7 | `new Date(v).getTime()`: a number inside the Date range is kept as is and one outside it is NaN; null is 0, true 1 and false 0; undefined and non-date strings are NaN; every valid time lies inside the range |
| Js.Truthy | modules/02-codebase-understanding/legacy-code/services/SubscriptionService.js:12-18 | a value is falsy iff it is undefined, null, false, 0 or the empty string |
| Models.FindUser | modules/02-codebase-understanding/legacy-code/services/PaymentRetryService.js:29 | a user is found iff some user has that id; the one found is the first user with it |
| Sequences.FilterMultiplicity | modules/02-codebase-understanding/legacy-code/services/SubscriptionService.js:11-22 | a filter keeps each kept element as many times as the input holds it, and drops every copy of the others |
| DataStore.Store.constructor | modules/02-codebase-understanding/legacy-code/services/dataStore.js:16-20 | the store starts with the given users, subscriptions and payments |
| NotificationService.Outbox.constructor | modules/02-codebase-understanding/legacy-code/services/NotificationService.js:3-10 | nothing has been sent yet |
| NotificationService.Outbox.SendEmail | modules/02-codebase-understanding/legacy-code/services/NotificationService.js:4-7 | exactly one email (recipient, template, data) is appended to what was sent |
| Validators.MissingFields | modules/02-codebase-understanding/legacy-code/utils/validators.js:2 | a field is reported iff it is listed and is undefined or null |
| Validators.MissingFieldsInOrder | modules/02-codebase-understanding/legacy-code/utils/validators.js:2 | missing fields are reported in the order they were listed |
| Validators.RequireFields | modules/02-codebase-understanding/legacy-code/utils/validators.js:1-8 | passes iff no listed field is undefined or null, so an empty list always passes; a failure carries 400 and the message "Missing required fields: " followed by the missing fields joined by ", " |
| Validators.AssertEnum | modules/02-codebase-understanding/legacy-code/utils/validators.js:10-16 | passes iff the value is one of the allowed strings; a failure carries 400 and names the field and the allowed values |
| PaymentsConfig.GetPaymentProvider | modules/02-codebase-understanding/legacy-code/config/payments.js:40-42 | a client is found iff the name is stripe, paypal or apple, and its key is that name |
| PaymentsConfig.ProcessWith | modules/02-codebase-understanding/legacy-code/config/payments.js:5-32 | a charge reports the client's fixed status, its key as provider, and a transaction id starting with key + "_" |
| PaymentsConfig.ProviderOutcomes | modules/02-codebase-understanding/legacy-code/config/payments.js:5-32 | Stripe and PayPal always report succeeded; Apple always reports pending, never succeeded |
| PaymentsConfig.ClientsKeyedByName | modules/02-codebase-understanding/legacy-code/config/payments.js:5-32 | every registered client reports under the name it was looked up by |
| PaymentsConfig.ProviderLookupAsWritten | modules/02-codebase-understanding/legacy-code/config/payments.js:40-42 | the plain-object read finds a client for exactly the three names, and also returns an inherited member for every Object.prototype name |
| PaymentsConfig.InheritedProviderPassesGuard | modules/02-codebase-understanding/legacy-code/config/payments.js:40-42 | "toString" yields a truthy inherited member as written, but no client under the corrected lookup |
| EntitlementService.GetEntitlements | modules/02-codebase-understanding/legacy-code/services/EntitlementService.js:1-10 | the listed features for basic, premium and family; the empty list for any other plan |
| EntitlementService.HasEntitlement | modules/02-codebase-understanding/legacy-code/services/EntitlementService.js:12-14 | only basic, premium and family unlock anything; article_preview is in every plan, markets_data in premium and family, shared_accounts in family only |
| EntitlementService.UnknownPlanHasNothing | modules/02-codebase-understanding/legacy-code/services/EntitlementService.js:8-14 | a plan outside the table has no entitlement at all |
| EntitlementService.TiersAreNested | modules/02-codebase-understanding/legacy-code/services/EntitlementService.js:1-5 | basic's features are premium's, and premium's are family's |
| SubscriptionService.GetAll | modules/02-codebase-understanding/legacy-code/services/SubscriptionService.js:10-23 | a record is returned iff it is in the store and matches every truthy filter |
| SubscriptionService.GetAllKeepsOrder | modules/02-codebase-understanding/legacy-code/services/SubscriptionService.js:10-23 | the result is a subsequence of the store, in store order |
| SubscriptionService.GetAllUnfiltered | modules/02-codebase-understanding/legacy-code/services/SubscriptionService.js:10-23 | with no truthy filter the whole list is returned |
| SubscriptionService.IndexOf | modules/02-codebase-understanding/legacy-code/services/SubscriptionService.js:25-27 | the index of the first record with that id, or none when no record has it |
| SubscriptionService.IndexOfSameIds | modules/02-codebase-understanding/legacy-code/services/SubscriptionService.js:25-27 | changing fields other than the ids does not change which record `find` stops at |
| SubscriptionService.IndexOfUnique | modules/02-codebase-understanding/legacy-code/services/SubscriptionService.js:25-27 | with unique ids, `find` stops at the only record with that id |
| SubscriptionService.GetById | modules/02-codebase-understanding/legacy-code/services/SubscriptionService.js:25-27 | none iff no record has the id; otherwise the first record with it |
| SubscriptionService.NewSubscription | modules/02-codebase-understanding/legacy-code/services/SubscriptionService.js:29-42 | succeeds iff userId and paymentProvider are present and the plan is basic, premium or family; every failure carries 400; the record is active, pending, has the given id, userId, plan and provider, starts now, and expires at the payload's truthy expiresAt or 30 days from now |
| SubscriptionService.MissingUserIdNamedFirst | modules/02-codebase-understanding/legacy-code/services/SubscriptionService.js:30 | a missing userId fails, and the message names userId first |
| SubscriptionService.UnknownPlanRejected | modules/02-codebase-understanding/legacy-code/services/SubscriptionService.js:30-31 | a plan other than basic, premium or family is always rejected; when every required field is present the error is 400 "Invalid plan. Expected one of: basic, premium, family" |
| SubscriptionService.InvalidPlanError | modules/02-codebase-understanding/legacy-code/utils/validators.js:10-16 | the plan check of a value outside the list fails with 400 and the message listing the three plans |
| SubscriptionService.CreateKeepsIdsUnique | modules/02-codebase-understanding/legacy-code/services/SubscriptionService.js:33-44 | appending a record with a fresh id keeps the ids unique |
| SubscriptionService.Create | modules/02-codebase-understanding/legacy-code/services/SubscriptionService.js:29-48 | appends exactly the new record on success, and nothing on a validation error; payments unchanged |
| SubscriptionService.MarkedPastDue | modules/02-codebase-understanding/legacy-code/services/SubscriptionService.js:50-59 | only the found record changes, and only its status, to past due; the ids are kept |
| SubscriptionService.MarkPastDueIdempotent | modules/02-codebase-understanding/legacy-code/services/SubscriptionService.js:50-59 | marking twice is the same as marking once |
| SubscriptionService.MarkPastDue | modules/02-codebase-understanding/legacy-code/services/SubscriptionService.js:50-59 | the store becomes MarkedPastDue; "Subscription not found" iff the id is unknown; otherwise it returns the updated record |
| SubscriptionService.Cancelled | modules/02-codebase-understanding/legacy-code/services/SubscriptionService.js:61-71 | only the found record changes: status canceled and expiresAt now |
| SubscriptionService.Cancel | modules/02-codebase-understanding/legacy-code/services/SubscriptionService.js:61-71 | the store becomes Cancelled; "Subscription not found" iff the id is unknown; otherwise it returns the updated record |
| PaymentService.Charge | modules/02-codebase-understanding/legacy-code/services/PaymentService.js:7-36 | fails iff the provider is unregistered, with the "not configured" message; otherwise exactly one payment is appended (given id, subscription id, provider, amount, GBP, the provider's status verbatim, time now, its transaction id) and only the subscription's lastPaymentStatus changes |
| PaymentService.ChargeTouchesOnlyItsSubscription | modules/02-codebase-understanding/legacy-code/services/PaymentService.js:25-26 | a charge keeps every id and every other subscription |
| PaymentService.ProcessPayment | modules/02-codebase-understanding/legacy-code/services/PaymentService.js:7-36 | the store becomes the charged state and the appended record is returned; on an error the store is unchanged |
| PaymentService.GetPaymentHistory | modules/02-codebase-understanding/legacy-code/services/PaymentService.js:38-40 | a payment is listed iff it belongs to that subscription |
| PaymentService.HistoryInAppendOrder | modules/02-codebase-understanding/legacy-code/services/PaymentService.js:38-40 | the history is in append order |
| PaymentService.HistoryAfterCharge | modules/02-codebase-understanding/legacy-code/services/PaymentService.js:25-40 | a new payment joins the end of its own subscription's history and no other |
| PaymentRetryService.RetryDelayHours | modules/02-codebase-understanding/legacy-code/services/PaymentRetryService.js:76-77 | 24 hours for attempt 1 and 72 for attempt 2; 168 for attempt 3 and for any index outside the table |
| PaymentRetryService.CalculateNextRetryDate | modules/02-codebase-understanding/legacy-code/services/PaymentRetryService.js:76-80 | the next retry is between 24 and 168 hours after now |
| PaymentRetryService.RetrySchedule | modules/02-codebase-understanding/legacy-code/services/PaymentRetryService.js:76-80 | the next retry is 24 hours after now for attempt 1, 72 hours for attempt 2 and 168 hours from attempt 3 on, in milliseconds |
| PaymentRetryService.BackoffNondecreasing | modules/02-codebase-understanding/legacy-code/services/PaymentRetryService.js:76-80 | from the first attempt on, a later attempt never waits less |
| PaymentRetryService.PlanPrice | modules/02-codebase-understanding/legacy-code/services/PaymentRetryService.js:42-43 | 15, 25 and 35 for basic, premium and family; 20 for any other plan |
| PaymentRetryService.IsDueForRetry | modules/02-codebase-understanding/legacy-code/services/PaymentRetryService.js:84-90 | only a past-due subscription with a retry date can be due, and then it is due iff the date is at or before now |
| PaymentRetryService.DueStaysDue | modules/02-codebase-understanding/legacy-code/services/PaymentRetryService.js:84-90 | a subscription due for a retry stays due at any later time |
| PaymentRetryService.GetSubscriptionsDueForRetry | modules/02-codebase-understanding/legacy-code/services/PaymentRetryService.js:82-91 | a subscription is returned iff it is past due with a retry date at or before now |
| PaymentRetryService.DueForRetryKeepsOrder | modules/02-codebase-understanding/legacy-code/services/PaymentRetryService.js:82-91 | the due list is in store order |
| PaymentRetryService.CancellationNotice | modules/02-codebase-understanding/legacy-code/services/PaymentRetryService.js:29-35 | at most one email, sent iff the owning user exists, with the cancellation template and reason |
| PaymentRetryService.Retry | modules/02-codebase-understanding/legacy-code/services/PaymentRetryService.js:14-74 | a retry keeps the users and ids, changes only its own subscription, only appends payments (at most one), and changes nothing when it throws |
| PaymentRetryService.RetryUnknownId | modules/02-codebase-understanding/legacy-code/services/PaymentRetryService.js:15-18 | an unknown id gives "Subscription not found" and changes nothing |
| PaymentRetryService.RetryAtCapCancels | modules/02-codebase-understanding/legacy-code/services/PaymentRetryService.js:20-38 | at 3 or more attempts: no payment, status canceled, reason payment_failure, result max_retries_exceeded, and the notice to the owner |
| PaymentRetryService.RetryBelowCap | modules/02-codebase-understanding/legacy-code/services/PaymentRetryService.js:40-69 | below the cap: one payment of the plan price; on succeeded, counter 0, active and paid now; otherwise the counter goes up by one and the next retry date follows the backoff for the new count, with the status unchanged |
| PaymentRetryService.RetryUnregisteredProvider | modules/02-codebase-understanding/legacy-code/services/PaymentRetryService.js:40-73 | an unregistered provider's error is rethrown and nothing changes |
| PaymentRetryService.AppleRetryNeverRecovers | modules/02-codebase-understanding/legacy-code/services/PaymentRetryService.js:46-56 | an Apple-billed subscription is never recovered by a retry |
| PaymentRetryService.RetryFailedPayment | modules/02-codebase-understanding/legacy-code/services/PaymentRetryService.js:14-74 | the store, the emails sent and the result are those of Retry |
| PaymentRetryJob.RetryAll | modules/02-codebase-understanding/legacy-code/jobs/paymentRetry.js:18-31 | one log entry per candidate |
| PaymentRetryJob.RetryAllLogsEachCandidate | modules/02-codebase-understanding/legacy-code/jobs/paymentRetry.js:18-24 | the k-th log entry is for the k-th candidate |
| PaymentRetryJob.RetryAllFrame | modules/02-codebase-understanding/legacy-code/jobs/paymentRetry.js:14-31 | users and ids are kept, no subscription whose id is not a candidate changes, and payments are only appended, at most one per candidate |
| PaymentRetryJob.RetryAllStep | modules/02-codebase-understanding/legacy-code/jobs/paymentRetry.js:18-31 | one more candidate extends the run by exactly that candidate's retry |
| PaymentRetryJob.RetryAllLogPrefix | modules/02-codebase-understanding/legacy-code/jobs/paymentRetry.js:18-31 | the log of a run begins with the log of every prefix of the candidates |
| PaymentRetryJob.RetryAllStepwise | modules/02-codebase-understanding/legacy-code/jobs/paymentRetry.js:18-20 | the k-th candidate is retried once, in list order, on the store the earlier retries left, and its log entry is that retry's outcome |
| PaymentRetryJob.RetryErrorIsIsolated | modules/02-codebase-understanding/legacy-code/jobs/paymentRetry.js:18-31 | a candidate whose retry throws leaves the store as it was, and every later candidate is still retried and logged |
| PaymentRetryJob.Candidates | modules/02-codebase-understanding/legacy-code/jobs/paymentRetry.js:14 | the k-th candidate is the id of the k-th subscription due for a retry, one per due subscription |
| PaymentRetryJob.NotDueUntouched | modules/02-codebase-understanding/legacy-code/jobs/paymentRetry.js:14-20 | with unique ids, a subscription not due when the run starts is left as it was |
| PaymentRetryJob.PaymentRetry | modules/02-codebase-understanding/legacy-code/jobs/paymentRetry.js:11-34 | the store, the emails and the log are RetryAll over the candidates computed once from the starting store |
| ExpiredSubscriptionsJob.IsExpired | modules/02-codebase-understanding/legacy-code/jobs/expiredSubscriptions.js:6-7 | a missing or non-date expiry never expires; a null expiry counts as the epoch, so an active record with it has expired once now is after the epoch; a valid numeric expiry has expired iff it is before now, for active records only |
| ExpiredSubscriptionsJob.ExpiredStaysExpired | modules/02-codebase-understanding/legacy-code/jobs/expiredSubscriptions.js:6-7 | a record that has expired stays expired at any later time |
| ExpiredSubscriptionsJob.ExpiredSelection | modules/02-codebase-understanding/legacy-code/jobs/expiredSubscriptions.js:5-8 | a record is selected iff it is active with a valid expiry strictly before now |
| ExpiredSubscriptionsJob.MarkAllPastDue | modules/02-codebase-understanding/legacy-code/jobs/expiredSubscriptions.js:10-12 | ids are kept, only statuses change, and each status is unchanged or past due |
| ExpiredSubscriptionsJob.MarkAllPastDueUnique | modules/02-codebase-understanding/legacy-code/jobs/expiredSubscriptions.js:10-12 | with unique ids, exactly the records whose id is in the list become past due |
| ExpiredSubscriptionsJob.MarkAllPastDueStep | modules/02-codebase-understanding/legacy-code/jobs/expiredSubscriptions.js:10-12 | marking one more id marks it on top of the earlier ones |
| ExpiredSubscriptionsJob.MarkAllPastDueMarksFirst | modules/02-codebase-understanding/legacy-code/jobs/expiredSubscriptions.js:10-12 | after marking, the first record with each listed id is past due |
| ExpiredSubscriptionsJob.MarkAllPastDueNoop | modules/02-codebase-understanding/legacy-code/jobs/expiredSubscriptions.js:10-12 | marking ids whose first records are already past due changes nothing |
| ExpiredSubscriptionsJob.SweepMarksExactlyExpired | modules/02-codebase-understanding/legacy-code/jobs/expiredSubscriptions.js:5-12 | with unique ids, exactly the expired active records become past due and every other record is unchanged |
| ExpiredSubscriptionsJob.Sweep | modules/02-codebase-understanding/legacy-code/jobs/expiredSubscriptions.js:5-12 | one run keeps every record and id, changes only statuses, and each status is unchanged or past due |
| ExpiredSubscriptionsJob.SweepNeverCancels | modules/02-codebase-understanding/legacy-code/jobs/expiredSubscriptions.js:11 | the sweep never produces a canceled status |
| ExpiredSubscriptionsJob.ActiveAfterSweepWasThere | modules/02-codebase-understanding/legacy-code/jobs/expiredSubscriptions.js:5-12 | a record still active after a run was in the list before it |
| ExpiredSubscriptionsJob.SelectedAgainWasSelected | modules/02-codebase-understanding/legacy-code/jobs/expiredSubscriptions.js:5-12 | every id a second run at the same time selects was selected by the first run |
| ExpiredSubscriptionsJob.SweepIdempotent | modules/02-codebase-understanding/legacy-code/jobs/expiredSubscriptions.js:5-12 | a second run at the same time changes nothing, whatever the ids |
| ExpiredSubscriptionsJob.ExpiredSubscriptions | modules/02-codebase-understanding/legacy-code/jobs/expiredSubscriptions.js:4-15 | the store becomes the sweep of the old list, payments are unchanged, and the logged count is the number selected |
| RenewalReminderJob.IsRenewalDue | modules/02-codebase-understanding/legacy-code/jobs/renewalReminder.js:7-9 | a record due for a reminder is not expired and has a date-like expiry; with a valid numeric expiry it is due iff it is active and expires strictly between now and seven days from now |
| RenewalReminderJob.RenewalSelection | modules/02-codebase-understanding/legacy-code/jobs/renewalReminder.js:6-10 | a record is selected iff it is active and expires strictly between now and seven days from now |
| RenewalReminderJob.RenewalSelectionKeepsOrder | modules/02-codebase-understanding/legacy-code/jobs/renewalReminder.js:6-10 | the selection is in store order |
| RenewalReminderJob.Reminder | modules/02-codebase-understanding/legacy-code/jobs/renewalReminder.js:13-19 | one email iff the owner is a known user, none otherwise |
| RenewalReminderJob.Reminders | modules/02-codebase-understanding/legacy-code/jobs/renewalReminder.js:12-20 | never more emails than selected subscriptions |
| RenewalReminderJob.RemindersAppend | modules/02-codebase-understanding/legacy-code/jobs/renewalReminder.js:12-20 | the emails for two lists in a row are those of the first list followed by those of the second |
| RenewalReminderJob.RemindersStep | modules/02-codebase-understanding/legacy-code/jobs/renewalReminder.js:12-20 | one more iteration appends that subscription's reminder |
| RenewalReminderJob.OneReminderPerOwnedSubscription | modules/02-codebase-understanding/legacy-code/jobs/renewalReminder.js:12-20 | exactly one reminder per selected subscription with a known owner, in selection order, addressed to that owner with the plan and expiry |
| RenewalReminderJob.RenewalReminder | modules/02-codebase-understanding/legacy-code/jobs/renewalReminder.js:5-21 | the outbox receives exactly Reminders of the selection; only the outbox may change |
| Http.ErrorHandler | modules/02-codebase-understanding/legacy-code/server.js:58-70 | every error is answered 500; production hides the message, otherwise the message is sent |
| Http.ErrorHandlerIntended | modules/02-codebase-understanding/legacy-code/server.js:58-70 | an error carrying a status code is answered with it, any other with 500; the body is the one the handler sends |
| Http.HandlersAgreeWithoutStatusCode | modules/02-codebase-understanding/legacy-code/server.js:58-70 | the two handlers agree iff the error has no status code, or its code is 500 |
| Http.Finish | modules/02-codebase-understanding/legacy-code/server.js:58-70 | a direct response is sent as is, and a forwarded error goes through the intended handler |
| Http.FinishAsWritten | modules/02-codebase-understanding/legacy-code/server.js:58-70 | a direct response is sent as is, and every forwarded error becomes 500 |
| Webhooks.Locate | modules/02-codebase-understanding/legacy-code/routes/webhooks.js:10-11 | only a string id that names a stored subscription is found, at its `find` index |
| Webhooks.Stripe | modules/02-codebase-understanding/legacy-code/routes/webhooks.js:9-23 | an unknown id gives 404 and no change; otherwise lastPaymentStatus becomes the reported status, the record is past due iff that status is "failed" and keeps its status otherwise, no other record changes, and the reply is {received: true} |
| Webhooks.Paypal | modules/02-codebase-understanding/legacy-code/routes/webhooks.js:25-36 | an unknown id gives 404 and no change; otherwise a truthy dispute marks the record past due, or nothing changes, and the reply is {received: true} |
| Webhooks.PaypalKeepsLastPaymentStatus | modules/02-codebase-understanding/legacy-code/routes/webhooks.js:25-36 | PayPal never changes a lastPaymentStatus |
| Webhooks.WebhookResponses | modules/02-codebase-understanding/legacy-code/routes/webhooks.js:9-36 | every answer is 404 or {received: true}, and a 404 changes nothing |
| Webhooks.StripeFailureReopensCanceled | modules/02-codebase-understanding/legacy-code/routes/webhooks.js:16-19 | a "failed" callback turns a canceled subscription into a past-due one |
| Webhooks.StripeWebhook | modules/02-codebase-understanding/legacy-code/routes/webhooks.js:9-23 | the store and the response are those of Stripe; payments unchanged |
| Webhooks.PaypalWebhook | modules/02-codebase-understanding/legacy-code/routes/webhooks.js:25-36 | the store and the response are those of Paypal; payments unchanged |
| Webhooks.Apple | modules/02-codebase-understanding/legacy-code/routes/webhooks.js:38-44 | always {received: true}; the store is not an input, so it cannot change |
| SubscriptionRoutes.List | modules/02-codebase-understanding/legacy-code/routes/subscriptions.js:8-12 | 200 with getAll over the status, plan and userId of the query |
| SubscriptionRoutes.ListReadsOnlyThreeParameters | modules/02-codebase-understanding/legacy-code/routes/subscriptions.js:9-10 | queries that agree on status, plan and userId give the same answer |
| SubscriptionRoutes.Detail | modules/02-codebase-understanding/legacy-code/routes/subscriptions.js:14-22 | 404 for an unknown id; otherwise 200 with the record and its plan's entitlements |
| SubscriptionRoutes.History | modules/02-codebase-understanding/legacy-code/routes/subscriptions.js:24-31 | 404 iff the id is unknown; otherwise 200 with exactly that subscription's payments |
| SubscriptionRoutes.CreateReply | modules/02-codebase-understanding/legacy-code/routes/subscriptions.js:33-40 | 201 with the record iff create succeeded; otherwise its error is forwarded |
| SubscriptionRoutes.InvalidPlanStatus | modules/02-codebase-understanding/legacy-code/routes/subscriptions.js:33-40 | a body with userId and paymentProvider and any plan outside the list is answered 400 by the intended handler and 500 as written |
| SubscriptionRoutes.PostSubscription | modules/02-codebase-understanding/legacy-code/routes/subscriptions.js:33-40 | the reply is CreateReply of create; exactly the new record is appended on 201, nothing otherwise |
| SubscriptionRoutes.CancelReply | modules/02-codebase-understanding/legacy-code/routes/subscriptions.js:42-49 | 200 with the record iff cancel succeeded; otherwise its error is forwarded |
| SubscriptionRoutes.CancelUnknownIs500 | modules/02-codebase-understanding/legacy-code/routes/subscriptions.js:42-49 | an unknown id ends in 500 under either handler, never 404 |
| SubscriptionRoutes.PostCancel | modules/02-codebase-understanding/legacy-code/routes/subscriptions.js:42-49 | the store becomes Cancelled; the error is forwarded iff the id is unknown; otherwise 200 with the updated record |
| SubscriptionRoutes.ChargeAmount | modules/02-codebase-understanding/legacy-code/routes/subscriptions.js:58 | the body's amount when it is truthy, otherwise 20; always truthy |
| SubscriptionRoutes.PostPaymentSpec | modules/02-codebase-understanding/legacy-code/routes/subscriptions.js:51-63 | 404 and no change for an unknown id; a charge error is forwarded with no change; otherwise 201 with the payment, and the store is the charged state |
| SubscriptionRoutes.PostPaymentRecordsAtMostOne | modules/02-codebase-understanding/legacy-code/routes/subscriptions.js:51-63 | a 201 records exactly one payment; any other answer leaves the store unchanged |
| SubscriptionRoutes.PostPayment | modules/02-codebase-understanding/legacy-code/routes/subscriptions.js:51-63 | the store and the reply are those of PostPaymentSpec |
| Auth.CheckApiKey | modules/02-codebase-understanding/legacy-code/middleware/auth.js:10-23 | 401 "API key required" iff the key is absent or empty; 401 "Invalid API key" iff it is shorter than 10; `next` iff it has 10 or more characters |
| Auth.RequireAdmin | modules/02-codebase-understanding/legacy-code/middleware/auth.js:30-37 | `next` iff the key exists and starts with "admin_"; otherwise 403 "Admin access required" |
| Auth.Request.constructor | modules/02-codebase-understanding/legacy-code/middleware/auth.js:11 | a request carries its header and no apiKey yet |
| Auth.AuthenticateRequest | modules/02-codebase-understanding/legacy-code/middleware/auth.js:10-28 | the gate is CheckApiKey of the header; on `next`, req.apiKey is the key; on a rejection the request is left alone |
| Auth.AdminKeyShape | modules/02-codebase-understanding/legacy-code/middleware/auth.js:20-32 | a key passing both checks has 10 or more characters and starts with "admin_" |
| Auth.ShortAdminKeyRejected | modules/02-codebase-understanding/legacy-code/middleware/auth.js:20-32 | every key that starts with "admin_" but is shorter than 10 characters passes the prefix check and fails the length check |
| ArticleSearch.ToLower | modules/01-foundations/exercises/bug-hunt/src/components/SearchableArticleList.jsx:18 | same length, each character lower-cased |
| ArticleSearch.ToUpper | modules/01-foundations/exercises/bug-hunt/src/components/SearchableArticleList.jsx:18 | same length, each character upper-cased |
| ArticleSearch.LowerAfterUpper | modules/01-foundations/exercises/bug-hunt/src/components/SearchableArticleList.jsx:18 | upper-casing first does not change the lower-cased string |
| ArticleSearch.TrimStart | modules/01-foundations/exercises/bug-hunt/src/components/SearchableArticleList.jsx:18 | a suffix of the input; everything dropped is white space; the result does not start with white space |
| ArticleSearch.TrimEnd | modules/01-foundations/exercises/bug-hunt/src/components/SearchableArticleList.jsx:18 | a prefix of the input; everything dropped is white space; the result does not end with white space |
| ArticleSearch.TrimIsInfix | modules/01-foundations/exercises/bug-hunt/src/components/SearchableArticleList.jsx:18 | the trimmed string is a contiguous part of the input, and everything before and after it is white space |
| ArticleSearch.TrimEnds | modules/01-foundations/exercises/bug-hunt/src/components/SearchableArticleList.jsx:18 | a non-empty trimmed string neither starts nor ends with white space |
| ArticleSearch.TrimBlank | modules/01-foundations/exercises/bug-hunt/src/components/SearchableArticleList.jsx:18 | the trimmed string is empty iff the input is all white space |
| ArticleSearch.FilterArticles | modules/01-foundations/exercises/bug-hunt/src/components/SearchableArticleList.jsx:17-31 | every article for a blank term; otherwise an article is kept iff its lower-cased title, summary or category contains the term |
| ArticleSearch.FilterKeepsOrder | modules/01-foundations/exercises/bug-hunt/src/components/SearchableArticleList.jsx:26-30 | the result is a subsequence of the articles, in their order |
| ArticleSearch.BlankTermShowsAll | modules/01-foundations/exercises/bug-hunt/src/components/SearchableArticleList.jsx:18-23 | every term made only of white space shows every article |
| ArticleSearch.FilterIgnoresTermCase | modules/01-foundations/exercises/bug-hunt/src/components/SearchableArticleList.jsx:18 | upper-casing the term does not change the result |
| ArticleSearch.Heading | modules/01-foundations/exercises/bug-hunt/src/components/SearchableArticleList.jsx:67-71 | "All Articles" iff every article is shown; otherwise "Search Results (n)" |
| ArticleSearch.BlankTermHeading | modules/01-foundations/exercises/bug-hunt/src/components/SearchableArticleList.jsx:67-71 | a blank term always gives "All Articles" |
| ArticleSearch.NoResultsExactly | modules/01-foundations/exercises/bug-hunt/src/components/SearchableArticleList.jsx:73-77 | the no-results block is shown iff there are no articles, or the term is not blank and no article contains it |

## Left out

- Persistence: loading the JSON fixtures and `persist()` are file I/O and are not modelled. The store keeps only its in-memory sequences. The reload through `models/Subscription.js`, which drops the retry fields, is outside the model.
- Logging (`utils/logger.js`) has no effect on state and is not modelled. The payment-retry job's log lines are returned as the `log` sequence instead.
- `NotificationService.Outbox.SendEmail`: the 20 ms delay and the console output are left out. An email is recorded as sent in call order.
- Timers, `async`/`await`, the provider latencies and cron scheduling are left out. Every call runs to completion before the next one starts.
- Express wiring, the users routes, `server.js` start-up and its final 404 handler are left out. Only the error middleware is modelled.
- Dates: every timestamp is integer milliseconds, and `toISOString()` is not modelled. `Js.TimeOf` reads any string as an invalid date, because a stored ISO string is represented by its millisecond value.
- A single `now` per call: each operation reads the clock once, while the source may call `Date.now()` several times within one call.
- `uuid()` is replaced by id parameters. The retry job takes `payIds`, and candidate k is charged under `payIds(k)`.
- `RenewalReminderJob.IsRenewalDue` compares the millisecond difference with 0 and with seven days instead of computing `diffDays` in floating point. For integer milliseconds the two tests decide the same thing.
- JavaScript arrays and objects are not values of the model (`Js.Value` has no case for them). As written, a `paymentProvider` of `["stripe"]` still resolves to the Stripe client, because `providerClients[provider]` turns the array into the string "stripe". An object-valued `userId` or `dispute` is truthy. Neither is modelled.
- `SubscriptionService.NewSubscription`: a stored ISO date string is represented by its millisecond value, so `Num(0)` stands both for the falsy number 0 and for the truthy string "1970-01-01T00:00:00.000Z". For a payload `expiresAt` equal to that epoch string, the source keeps it and the model takes the 30-day default.
- `PaymentService.Charge` and `PaymentRetryService.Retry` use the corrected provider lookup (see Findings). For a provider named after an `Object.prototype` member, the source gets past the `if (!provider)` guard and throws a TypeError from `provider.processPayment`, with a different message. The model throws "Payment provider … not configured" instead.
- Amounts are JavaScript values with integer numbers. Fractional amounts are not modelled.
- `ArticleSearch.ToLower`: only ASCII letters change case. Full Unicode `toLowerCase` is not modelled.
- `Auth.CheckApiKey`: length is counted in Dafny characters, not in UTF-16 code units. A header given as an array is not modelled.
- `PaymentRetryService.PlanPrice` and `EntitlementService.GetEntitlements` read only the tables' own keys. A plan named after an `Object.prototype` member is not modelled. The same quirk is a Finding for the provider table.
- The `stack` field of the development error body is left out. The body carries the message only.
- The React state, the form submission and the rendering of each article card in SearchableArticleList.jsx are left out. Only the filter, the heading and the no-results choice are modelled.

## Findings

| source | as written | input that shows it | evidently intended | confidence | as-written member | corrected member |
|---|---|---|---|---|---|---|
| modules/02-codebase-understanding/legacy-code/server.js:58-70 | the error middleware answers 500 for every forwarded error and ignores the statusCode 400 the validators attach | POST /api/subscriptions with userId, paymentProvider and plan "gold" | a validation error is answered 400 | not executed | Http.FinishAsWritten | Http.Finish |
| modules/02-codebase-understanding/legacy-code/config/payments.js:40-42 | `providerClients[provider]` on a plain object also returns inherited Object.prototype members | a subscription with paymentProvider "toString" passes the `if (!provider)` guard | only stripe, paypal and apple resolve, and every other name is "not configured" | not executed | PaymentsConfig.ProviderLookupAsWritten | PaymentsConfig.GetPaymentProvider |

The first row is exhibited by `SubscriptionRoutes.InvalidPlanStatus`, and
`Http.HandlersAgreeWithoutStatusCode` shows where the two handlers differ.
The second row is exhibited by `PaymentsConfig.InheritedProviderPassesGuard`.
The rest of the model uses the corrected members.
