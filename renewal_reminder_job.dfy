/** jobs/renewalReminder.js: one reminder email for each active
    subscription that expires within the next seven days and whose owner
    is a known user. */
module RenewalReminderJob {
  import opened Js
  import opened Sequences
  import opened Models
  import opened DataStore
  import opened NotificationService
  import opened SubscriptionService
  import ExpiredSubscriptionsJob

  const REMINDER_WINDOW: int := 7 * MS_PER_DAY
  const RENEWAL_TEMPLATE: string := "renewalReminder"

  /** `diffDays > 0 && diffDays < 7 && status === 'active'`, with
      `diffDays = (expiresAt - now) / one day`. Comparing the millisecond
      difference with 0 and with seven days decides the same thing. An
      expiry that is not a valid date gives `NaN`, which fails both tests. */
  predicate IsRenewalDue(s: Subscription, now: int)
    ensures IsRenewalDue(s, now) ==> !ExpiredSubscriptionsJob.IsExpired(s, now)
    ensures IsRenewalDue(s, now) ==> s.expiresAt.Num? || s.expiresAt.Null? || s.expiresAt.Bool?
    ensures s.expiresAt.Num? && -MAX_TIME <= s.expiresAt.n <= MAX_TIME ==>
      (IsRenewalDue(s, now) <==> s.status == Active && now < s.expiresAt.n < now + REMINDER_WINDOW)
  {
    && TimeOf(s.expiresAt).Some?
    && 0 < TimeOf(s.expiresAt).value - now < REMINDER_WINDOW
    && s.status == Active
  }

  /** The `expiringSoon` list, in store order. */
  function RenewalSelection(subs: seq<Subscription>, now: int): (r: seq<Subscription>)
    ensures forall k :: 0 <= k < |r| ==> r[k] in subs && IsRenewalDue(r[k], now)
    ensures forall k :: 0 <= k < |subs| && IsRenewalDue(subs[k], now) ==> subs[k] in r
  {
    GetAllUnfiltered(subs, NO_FILTERS);
    Filter(GetAll(subs, NO_FILTERS), (s: Subscription) => IsRenewalDue(s, now))
  }

  lemma RenewalSelectionKeepsOrder(subs: seq<Subscription>, now: int)
    ensures IsSubsequence(RenewalSelection(subs, now), subs)
  {
    GetAllUnfiltered(subs, NO_FILTERS);
    FilterIsSubsequence(subs, (s: Subscription) => IsRenewalDue(s, now));
  }

  /** The reminder for one selected subscription. */
  function ReminderFor(u: User, s: Subscription): Email {
    Email(u.email, RENEWAL_TEMPLATE, RenewalData(s.plan, s.expiresAt))
  }

  predicate HasOwner(users: seq<User>, s: Subscription) {
    FindUser(users, s.userId).Some?
  }

  /** What one loop iteration sends: nothing when the owner is not found. */
  function Reminder(users: seq<User>, s: Subscription): (sent: seq<Email>)
    ensures |sent| == 1 <==> HasOwner(users, s)
    ensures |sent| <= 1
  {
    match FindUser(users, s.userId)
    case None => []
    case Some(u) => [ReminderFor(u, s)]
  }

  /** The emails the loop sends for `sel`, in order. */
  function Reminders(users: seq<User>, sel: seq<Subscription>): (sent: seq<Email>)
    ensures |sent| <= |sel|
  {
    if sel == [] then [] else Reminder(users, sel[0]) + Reminders(users, sel[1..])
  }

  lemma {:induction false} RemindersAppend(users: seq<User>, a: seq<Subscription>, b: seq<Subscription>)
    ensures Reminders(users, a + b) == Reminders(users, a) + Reminders(users, b)
    decreases |a|
  {
    if a == [] {
      assert a + b == b;
    } else {
      assert (a + b)[1..] == a[1..] + b;
      RemindersAppend(users, a[1..], b);
    }
  }

  /** One more loop iteration appends that subscription's reminder. */
  lemma RemindersStep(users: seq<User>, sel: seq<Subscription>, i: nat)
    requires i < |sel|
    ensures Reminders(users, sel[..i + 1]) == Reminders(users, sel[..i]) + Reminder(users, sel[i])
  {
    RemindersAppend(users, sel[..i], [sel[i]]);
    assert sel[..i + 1] == sel[..i] + [sel[i]];
    assert Reminders(users, [sel[i]]) == Reminder(users, sel[i]);
  }

  /** Exactly one reminder per selected subscription with a known owner, in
      selection order, addressed to that owner. */
  lemma {:induction false} OneReminderPerOwnedSubscription(users: seq<User>, sel: seq<Subscription>)
    ensures var owned := Filter(sel, (s: Subscription) => HasOwner(users, s));
      && |Reminders(users, sel)| == |owned|
      && forall k :: 0 <= k < |owned| ==>
           Reminders(users, sel)[k] == ReminderFor(FindUser(users, owned[k].userId).value, owned[k])
    decreases |sel|
  {
    if sel != [] {
      assert sel == [sel[0]] + sel[1..];
      FilterAppend([sel[0]], sel[1..], (s: Subscription) => HasOwner(users, s));
      OneReminderPerOwnedSubscription(users, sel[1..]);
    }
  }

  /** `renewalReminderJob()` at time `now`: it reads the store and only sends mail. */
  method RenewalReminder(store: Store, outbox: Outbox, now: int)
    modifies outbox
    ensures outbox.sent == old(outbox.sent) + Reminders(store.users, RenewalSelection(store.subscriptions, now))
  {
    var expiringSoon := RenewalSelection(store.subscriptions, now);
    var i := 0;
    while i < |expiringSoon|
      invariant 0 <= i <= |expiringSoon|
      invariant outbox.sent == old(outbox.sent) + Reminders(store.users, expiringSoon[..i])
    {
      var subscription := expiringSoon[i];
      var user := FindUser(store.users, subscription.userId);
      RemindersStep(store.users, expiringSoon, i);
      ghost var sent := Reminders(store.users, expiringSoon[..i]);
      AppendAssoc(old(outbox.sent), sent, Reminder(store.users, subscription));
      if user.Some? {
        outbox.SendEmail(user.value.email, RENEWAL_TEMPLATE, RenewalData(subscription.plan, subscription.expiresAt));
      }
      i := i + 1;
    }
    assert expiringSoon[..|expiringSoon|] == expiringSoon;
  }
}
