/** routes/subscriptions.js: the REST handlers, each a map from the
    request to a reply (a response of its own, or an error passed on to
    `next`) and, for the POST handlers, a change of the store. */
module SubscriptionRoutes {
  import opened Js
  import opened Models
  import opened DataStore
  import opened SubscriptionService
  import opened PaymentService
  import opened EntitlementService
  import opened Http

  /** The amount charged when the body gives none (or a falsy one). */
  const DEFAULT_AMOUNT: int := 20

  /** The filters `GET /` passes on: `status`, `plan` and `userId` of the query. */
  function QueryFilters(query: map<string, Value>): Filters {
    Filters(Get(query, "status"), Get(query, "plan"), Get(query, "userId"))
  }

  /** `GET /` */
  function List(subs: seq<Subscription>, query: map<string, Value>): (r: Response)
    ensures r.status == OK && r.body.SubscriptionList?
    ensures r.body.subscriptions == GetAll(subs, QueryFilters(query))
  {
    Response(OK, SubscriptionList(GetAll(subs, QueryFilters(query))))
  }

  /** Query parameters other than the three filters make no difference. */
  lemma ListReadsOnlyThreeParameters(subs: seq<Subscription>, q1: map<string, Value>, q2: map<string, Value>)
    requires forall key :: key in ["status", "plan", "userId"] ==> Get(q1, key) == Get(q2, key)
    ensures List(subs, q1) == List(subs, q2)
  {
    assert Get(q1, "status") == Get(q2, "status");
    assert Get(q1, "plan") == Get(q2, "plan");
    assert Get(q1, "userId") == Get(q2, "userId");
  }

  /** `GET /:id`: the subscription with its plan's entitlements, or 404. */
  function Detail(subs: seq<Subscription>, id: string): (r: Response)
    ensures GetById(subs, id).None? ==> r == NOT_FOUND_RESPONSE
    ensures GetById(subs, id).Some? ==>
      var s := GetById(subs, id).value;
      r == Response(OK, SubscriptionDetail(s, GetEntitlements(s.plan)))
  {
    match GetById(subs, id)
    case None => NOT_FOUND_RESPONSE
    case Some(s) => Response(OK, SubscriptionDetail(s, GetEntitlements(s.plan)))
  }

  /** `GET /:id/payments`: exactly that subscription's payments, or 404. */
  function History(db: Db, id: string): (r: Response)
    ensures GetById(db.subscriptions, id).None? <==> r == NOT_FOUND_RESPONSE
    ensures r != NOT_FOUND_RESPONSE ==>
      && r.status == OK && r.body.PaymentList?
      && (forall k :: 0 <= k < |r.body.payments| ==> r.body.payments[k] in db.payments && r.body.payments[k].subscriptionId == id)
      && (forall k :: 0 <= k < |db.payments| && db.payments[k].subscriptionId == id ==> db.payments[k] in r.body.payments)
  {
    match GetById(db.subscriptions, id)
    case None => NOT_FOUND_RESPONSE
    case Some(s) => Response(OK, PaymentList(GetPaymentHistory(db.payments, s.id)))
  }

  /** What `POST /` replies for what `create` returned or threw. */
  function CreateReply(created: Result<Subscription>): (r: Reply)
    ensures created.Ok? <==> r.Respond?
    ensures created.Ok? ==> r.response == Response(CREATED, SubscriptionData(created.value))
    ensures created.Err? ==> r.error == created.error
  {
    match created
    case Ok(s) => Respond(Response(CREATED, SubscriptionData(s)))
    case Err(e) => Forward(e)
  }

  /** A plan outside the list is answered 400 by the error handler as
      intended, but 500 by the one server.js installs. */
  lemma InvalidPlanStatus(payload: map<string, Value>, id: string, now: int, production: bool)
    requires !Nullish(Get(payload, "userId")) && !Nullish(Get(payload, "paymentProvider"))
    requires !IsPlan(Get(payload, "plan"))
    ensures Finish(CreateReply(NewSubscription(payload, id, now)), production).status == 400
    ensures FinishAsWritten(CreateReply(NewSubscription(payload, id, now)), production).status == 500
  {
  }

  /** `POST /` */
  method PostSubscription(store: Store, body: map<string, Value>, id: string, now: int) returns (reply: Reply)
    modifies store
    ensures reply == CreateReply(NewSubscription(body, id, now))
    ensures store.subscriptions ==
      if reply.Respond? then old(store.subscriptions) + [NewSubscription(body, id, now).value] else old(store.subscriptions)
    ensures store.payments == old(store.payments)
  {
    var created := Create(store, body, id, now);
    reply := CreateReply(created);
  }

  /** What `POST /:id/cancel` replies for what `cancel` returned or threw;
      an unknown id is passed on, not answered 404. */
  function CancelReply(cancelled: Result<Subscription>): (r: Reply)
    ensures cancelled.Ok? <==> r.Respond?
    ensures cancelled.Ok? ==> r.response == Response(OK, SubscriptionData(cancelled.value))
    ensures cancelled.Err? ==> r.error == cancelled.error
  {
    match cancelled
    case Ok(s) => Respond(Response(OK, SubscriptionData(s)))
    case Err(e) => Forward(e)
  }

  /** Cancelling an unknown id ends in a 500, under either error handler. */
  lemma CancelUnknownIs500(production: bool)
    ensures Finish(CancelReply(Err(NOT_FOUND)), production).status == 500
    ensures FinishAsWritten(CancelReply(Err(NOT_FOUND)), production).status == 500
  {
  }

  /** `POST /:id/cancel` at time `now`. */
  method PostCancel(store: Store, id: string, now: int) returns (reply: Reply)
    modifies store
    ensures store.subscriptions == Cancelled(old(store.subscriptions), id, now)
    ensures store.payments == old(store.payments)
    ensures reply.Forward? <==> GetById(old(store.subscriptions), id).None?
    ensures reply.Forward? ==> reply.error == NOT_FOUND
    ensures reply.Respond? ==>
      reply.response == Response(OK, SubscriptionData(store.subscriptions[IndexOf(old(store.subscriptions), id).value]))
  {
    var cancelled := Cancel(store, id, now);
    reply := CancelReply(cancelled);
  }

  /** `req.body.amount || 20` */
  function ChargeAmount(body: map<string, Value>): (amount: Value)
    ensures Truthy(Get(body, "amount")) ==> amount == Get(body, "amount")
    ensures !Truthy(Get(body, "amount")) ==> amount == Num(DEFAULT_AMOUNT)
    ensures Truthy(amount)
  {
    var given := Get(body, "amount");
    if Truthy(given) then given else Num(DEFAULT_AMOUNT)
  }

  /** The store after a handler, and its reply. */
  datatype Routed = Routed(db: Db, reply: Reply)

  /** `POST /:id/payments` at time `now`, recording under payment id `paymentId`. */
  function PostPaymentSpec(db: Db, id: string, body: map<string, Value>, paymentId: string, now: int): (r: Routed)
    ensures GetById(db.subscriptions, id).None? ==> r == Routed(db, Respond(NOT_FOUND_RESPONSE))
    ensures GetById(db.subscriptions, id).Some? ==>
      var c := Charge(db, IndexOf(db.subscriptions, id).value, ChargeAmount(body), paymentId, now);
      && (c.Err? ==> r == Routed(db, Forward(c.error)))
      && (c.Ok? ==> r == Routed(c.value.db, Respond(Response(CREATED, PaymentData(c.value.payment)))))
  {
    match IndexOf(db.subscriptions, id)
    case None => Routed(db, Respond(NOT_FOUND_RESPONSE))
    case Some(i) =>
      match Charge(db, i, ChargeAmount(body), paymentId, now)
      case Err(e) => Routed(db, Forward(e))
      case Ok(c) => Routed(c.db, Respond(Response(CREATED, PaymentData(c.payment))))
  }

  /** A charge through the route records at most one payment, and none
      when the reply is not 201. */
  lemma PostPaymentRecordsAtMostOne(db: Db, id: string, body: map<string, Value>, paymentId: string, now: int)
    ensures var r := PostPaymentSpec(db, id, body, paymentId, now);
      && (r.reply.Respond? && r.reply.response.status == CREATED ==> |r.db.payments| == |db.payments| + 1)
      && (!(r.reply.Respond? && r.reply.response.status == CREATED) ==> r.db == db)
  {
  }

  /** `POST /:id/payments` on the store. */
  method PostPayment(store: Store, id: string, body: map<string, Value>, paymentId: string, now: int) returns (reply: Reply)
    modifies store
    ensures Routed(store.State(), reply) == PostPaymentSpec(old(store.State()), id, body, paymentId, now)
  {
    var found := IndexOf(store.subscriptions, id);
    if found.None? {
      return Respond(NOT_FOUND_RESPONSE);
    }
    var payment := ProcessPayment(store, found.value, ChargeAmount(body), paymentId, now);
    match payment
    case Err(e) => reply := Forward(e);
    case Ok(p) => reply := Respond(Response(CREATED, PaymentData(p)));
  }
}
