/** The records the service keeps: users, subscriptions and payments
    (models/User.js, models/Subscription.js, models/Payment.js), with the
    optional fields the services add to subscriptions. */
module Models {
  import opened Js
  import opened Sequences

  /** The values `subscription.status` takes. */
  datatype Status = Active | PastDue | Canceled

  function StatusName(s: Status): string {
    match s
    case Active => "active"
    case PastDue => "past_due"
    case Canceled => "canceled"
  }

  datatype User = User(
    id: string,
    name: string,
    email: string,
    subscriptionTier: string,
    region: string,
    createdAt: int)

  /** A subscription record. `userId`, `expiresAt`, `paymentProvider` and
      `lastPaymentStatus` hold whatever a request body or webhook supplied;
      the last four fields are absent until the retry service sets them. */
  datatype Subscription = Subscription(
    id: string,
    userId: Value,
    plan: string,
    status: Status,
    startedAt: int,
    expiresAt: Value,
    paymentProvider: Value,
    lastPaymentStatus: Value,
    retryAttempts: Option<nat>,
    nextRetryDate: Option<int>,
    cancellationReason: Option<string>,
    lastPaymentDate: Option<int>)

  /** A payment record; appended once per charge and never changed. */
  datatype Payment = Payment(
    id: string,
    subscriptionId: string,
    provider: Value,
    amount: Value,
    currency: string,
    status: string,
    processedAt: int,
    transactionId: string)

  /** `users.find(u => u.id === userId)` */
  function FindUser(users: seq<User>, userId: Value): (r: Option<User>)
    ensures r.Some? <==> exists k :: 0 <= k < |users| && Str(users[k].id) == userId
    ensures r.Some? ==> Str(r.value.id) == userId
    ensures r.Some? ==>
      exists k :: 0 <= k < |users| && r.value == users[k] && (forall j :: 0 <= j < k ==> Str(users[j].id) != userId)
  {
    match FirstIndex(users, (u: User) => Str(u.id) == userId)
    case None => None
    case Some(k) => Some(users[k])
  }

  /** No two subscriptions share an id (what generating ids with uuid() gives). */
  ghost predicate UniqueIds(subs: seq<Subscription>) {
    forall i, j :: 0 <= i < j < |subs| ==> subs[i].id != subs[j].id
  }

  /** `b` has the records of `a`, possibly with fields other than `id` changed. */
  ghost predicate SameIds(a: seq<Subscription>, b: seq<Subscription>) {
    |a| == |b| && forall j :: 0 <= j < |a| ==> a[j].id == b[j].id
  }

  /** The ids of a list of subscriptions, in order. */
  function IdsOf(subs: seq<Subscription>): (ids: seq<string>)
    ensures |ids| == |subs|
    ensures forall k :: 0 <= k < |subs| ==> ids[k] == subs[k].id
  {
    seq(|subs|, k requires 0 <= k < |subs| => subs[k].id)
  }
}
