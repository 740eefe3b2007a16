/** jobs/paymentRetry.js: the subscriptions due for a retry are selected
    once, then retried one after another; an error on one is logged and
    the loop goes on with the next. */
module PaymentRetryJob {
  import opened Js
  import opened Sequences
  import opened Models
  import opened DataStore
  import opened NotificationService
  import opened PaymentRetryService

  /** The log line for one candidate: its id and what the retry resolved to
      or threw. */
  datatype LogEntry = LogEntry(subscriptionId: string, outcome: Result<RetryResult>)

  /** The store, the emails and the log after retrying a list of ids. */
  datatype Sweep = Sweep(db: Db, sent: seq<Email>, log: seq<LogEntry>)

  /** Retrying `ids` in order; the k-th retry charges under payment id
      `payIds(k)`. A retry that throws leaves the store as it was. */
  function RetryAll(db: Db, ids: seq<string>, now: int, payIds: nat -> string): (r: Sweep)
    decreases |ids|
    ensures |r.log| == |ids|
  {
    if ids == [] then Sweep(db, [], [])
    else
      var last := |ids| - 1;
      var before := RetryAll(db, ids[..last], now, payIds);
      var step := Retry(before.db, ids[last], now, payIds(last));
      Sweep(step.db, before.sent + step.sent, before.log + [LogEntry(ids[last], step.result)])
  }

  /** The k-th log entry names the k-th candidate. */
  lemma {:induction false} RetryAllLogsEachCandidate(db: Db, ids: seq<string>, now: int, payIds: nat -> string)
    ensures var log := RetryAll(db, ids, now, payIds).log;
      forall k :: 0 <= k < |log| ==> log[k].subscriptionId == ids[k]
    decreases |ids|
  {
    if ids != [] {
      var last := |ids| - 1;
      var init := ids[..last];
      RetryAllLogsEachCandidate(db, init, now, payIds);
      var before := RetryAll(db, init, now, payIds);
      var step := Retry(before.db, ids[last], now, payIds(last));
      var log := RetryAll(db, ids, now, payIds).log;
      assert log == before.log + [LogEntry(ids[last], step.result)];
      forall k | 0 <= k < |log|
        ensures log[k].subscriptionId == ids[k]
      {
        if k < last {
          assert log[k] == before.log[k] && init[k] == ids[k];
        }
      }
    }
  }

  /** A sweep keeps the users and the ids, changes no subscription whose id
      is not a candidate, and only appends payments, at most one per
      candidate. */
  lemma {:induction false} RetryAllFrame(db: Db, ids: seq<string>, now: int, payIds: nat -> string)
    ensures var r := RetryAll(db, ids, now, payIds);
      && r.db.users == db.users
      && SameIds(db.subscriptions, r.db.subscriptions)
      && (forall j :: 0 <= j < |db.subscriptions| && db.subscriptions[j].id !in ids ==>
            r.db.subscriptions[j] == db.subscriptions[j])
      && |db.payments| <= |r.db.payments| <= |db.payments| + |ids|
      && r.db.payments[..|db.payments|] == db.payments
    decreases |ids|
  {
    if ids != [] {
      var last := |ids| - 1;
      RetryAllFrame(db, ids[..last], now, payIds);
      var before := RetryAll(db, ids[..last], now, payIds);
      var step := Retry(before.db, ids[last], now, payIds(last));
      assert step.db.payments[..|db.payments|] == before.db.payments[..|db.payments|];
      forall j | 0 <= j < |db.subscriptions| && db.subscriptions[j].id !in ids
        ensures step.db.subscriptions[j] == db.subscriptions[j]
      {
        assert db.subscriptions[j].id !in ids[..last];
        assert before.db.subscriptions[j].id != ids[last];
      }
    }
  }

  /** One more candidate extends the sweep by that candidate's retry. */
  lemma RetryAllStep(db: Db, ids: seq<string>, now: int, payIds: nat -> string, i: nat)
    requires i < |ids|
    ensures var before := RetryAll(db, ids[..i], now, payIds);
      var step := Retry(before.db, ids[i], now, payIds(i));
      RetryAll(db, ids[..i + 1], now, payIds) ==
        Sweep(step.db, before.sent + step.sent, before.log + [LogEntry(ids[i], step.result)])
  {
    assert ids[..i + 1][..i] == ids[..i];
  }

  /** The log of a sweep starts with the log of any prefix of it. */
  lemma {:induction false} RetryAllLogPrefix(db: Db, ids: seq<string>, now: int, payIds: nat -> string, k: nat)
    requires k <= |ids|
    ensures RetryAll(db, ids, now, payIds).log[..k] == RetryAll(db, ids[..k], now, payIds).log
    decreases |ids|
  {
    if k < |ids| {
      var last := |ids| - 1;
      var init := ids[..last];
      RetryAllLogPrefix(db, init, now, payIds, k);
      assert init[..k] == ids[..k];
      var before := RetryAll(db, init, now, payIds).log;
      assert RetryAll(db, ids, now, payIds).log[..k] == before[..k];
    } else {
      assert ids[..k] == ids;
    }
  }

  /** The k-th candidate is retried exactly once, on the store the earlier
      retries left, and its log entry is that retry's outcome. */
  lemma RetryAllStepwise(db: Db, ids: seq<string>, now: int, payIds: nat -> string, k: nat)
    requires k < |ids|
    ensures var before := RetryAll(db, ids[..k], now, payIds);
      var step := Retry(before.db, ids[k], now, payIds(k));
      && RetryAll(db, ids, now, payIds).log[k] == LogEntry(ids[k], step.result)
      && RetryAll(db, ids[..k + 1], now, payIds).db == step.db
  {
    RetryAllLogPrefix(db, ids, now, payIds, k + 1);
    assert ids[..k + 1][..k] == ids[..k];
    assert RetryAll(db, ids, now, payIds).log[k] == RetryAll(db, ids, now, payIds).log[..k + 1][k];
  }

  /** A candidate whose retry throws leaves the store as the earlier retries
      left it, and the sweep still logs every later candidate. */
  lemma RetryErrorIsIsolated(db: Db, ids: seq<string>, now: int, payIds: nat -> string, k: nat)
    requires k < |ids|
    requires RetryAll(db, ids, now, payIds).log[k].outcome.Err?
    ensures RetryAll(db, ids[..k + 1], now, payIds).db == RetryAll(db, ids[..k], now, payIds).db
    ensures forall m :: k < m < |ids| ==> RetryAll(db, ids, now, payIds).log[m].subscriptionId == ids[m]
  {
    RetryAllStepwise(db, ids, now, payIds, k);
    RetryAllLogsEachCandidate(db, ids, now, payIds);
  }

  /** The candidates of one run at time `now`: `getSubscriptionsDueForRetry()`. */
  function Candidates(db: Db, now: int): (ids: seq<string>)
    ensures |ids| == |GetSubscriptionsDueForRetry(db.subscriptions, now)|
    ensures forall k :: 0 <= k < |ids| ==> ids[k] == GetSubscriptionsDueForRetry(db.subscriptions, now)[k].id
  {
    IdsOf(GetSubscriptionsDueForRetry(db.subscriptions, now))
  }

  /** A subscription that was not due for a retry when the run started is
      left as it was (with unique ids). */
  lemma NotDueUntouched(db: Db, now: int, payIds: nat -> string, j: nat)
    requires UniqueIds(db.subscriptions)
    requires j < |db.subscriptions| && !IsDueForRetry(db.subscriptions[j], now)
    ensures var after := RetryAll(db, Candidates(db, now), now, payIds).db.subscriptions;
      |after| == |db.subscriptions| && after[j] == db.subscriptions[j]
  {
    RetryAllFrame(db, Candidates(db, now), now, payIds);
  }

  /** `paymentRetryJob()` at time `now`; the returned log holds what the
      job writes for each candidate. */
  method PaymentRetry(store: Store, outbox: Outbox, now: int, payIds: nat -> string) returns (log: seq<LogEntry>)
    modifies store, outbox
    ensures var sweep := RetryAll(old(store.State()), Candidates(old(store.State()), now), now, payIds);
      && store.State() == sweep.db
      && outbox.sent == old(outbox.sent) + sweep.sent
      && log == sweep.log
  {
    var subscriptionsDue := GetSubscriptionsDueForRetry(store.subscriptions, now);
    var ids := IdsOf(subscriptionsDue);
    ghost var start := store.State();
    log := [];
    var i := 0;
    assert ids[..0] == [];
    while i < |subscriptionsDue|
      invariant 0 <= i <= |subscriptionsDue|
      invariant store.State() == RetryAll(start, ids[..i], now, payIds).db
      invariant outbox.sent == old(outbox.sent) + RetryAll(start, ids[..i], now, payIds).sent
      invariant log == RetryAll(start, ids[..i], now, payIds).log
    {
      ghost var before := RetryAll(start, ids[..i], now, payIds);
      ghost var step := Retry(before.db, ids[i], now, payIds(i));
      RetryAllStep(start, ids, now, payIds, i);
      var result := RetryFailedPayment(store, outbox, subscriptionsDue[i].id, now, payIds(i));
      log := log + [LogEntry(subscriptionsDue[i].id, result)];
      AppendAssoc(old(outbox.sent), before.sent, step.sent);
      i := i + 1;
    }
    assert ids[..|subscriptionsDue|] == ids;
  }
}
