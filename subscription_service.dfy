/** services/SubscriptionService.js: querying the subscription list and
    the three operations that change it (create, mark past due, cancel). */
module SubscriptionService {
  import opened Js
  import opened Sequences
  import opened Models
  import opened Validators
  import opened DataStore

  const PLAN_TYPES: seq<string> := ["basic", "premium", "family"]
  const REQUIRED_FIELDS: seq<string> := ["userId", "plan", "paymentProvider"]
  /** Default term of a new subscription: 30 days. */
  const DEFAULT_TERM: int := 30 * MS_PER_DAY
  const NOT_FOUND: Error := Error("Subscription not found", None)

  // ----- Queries -----

  /** The filters `getAll` reads; a falsy filter is ignored. */
  datatype Filters = Filters(status: Value, plan: Value, userId: Value)

  const NO_FILTERS: Filters := Filters(Undefined, Undefined, Undefined)

  predicate Matches(s: Subscription, f: Filters) {
    && !(Truthy(f.status) && Str(StatusName(s.status)) != f.status)
    && !(Truthy(f.plan) && Str(s.plan) != f.plan)
    && !(Truthy(f.userId) && s.userId != f.userId)
  }

  /** `getAll(filters)`: the subscriptions matching every given filter. */
  function GetAll(subs: seq<Subscription>, f: Filters): (r: seq<Subscription>)
    ensures forall i :: 0 <= i < |r| ==> r[i] in subs && Matches(r[i], f)
    ensures forall i :: 0 <= i < |subs| && Matches(subs[i], f) ==> subs[i] in r
  {
    Filter(subs, (s: Subscription) => Matches(s, f))
  }

  /** The result keeps store order. */
  lemma GetAllKeepsOrder(subs: seq<Subscription>, f: Filters)
    ensures IsSubsequence(GetAll(subs, f), subs)
  {
    FilterIsSubsequence(subs, (s: Subscription) => Matches(s, f));
  }

  /** With no truthy filter, everything is returned. */
  lemma GetAllUnfiltered(subs: seq<Subscription>, f: Filters)
    requires !Truthy(f.status) && !Truthy(f.plan) && !Truthy(f.userId)
    ensures GetAll(subs, f) == subs
  {
    FilterAllPass(subs, (s: Subscription) => Matches(s, f));
  }

  /** The index of the first subscription with this id (`find`'s choice). */
  function IndexOf(subs: seq<Subscription>, id: string): (r: Option<nat>)
    ensures r.Some? ==> r.value < |subs| && subs[r.value].id == id
    ensures r.Some? ==> forall j :: 0 <= j < r.value ==> subs[j].id != id
    ensures r.None? ==> forall j :: 0 <= j < |subs| ==> subs[j].id != id
  {
    FirstIndex(subs, (s: Subscription) => s.id == id)
  }

  /** Changing fields other than `id` does not change where `find` stops. */
  lemma IndexOfSameIds(a: seq<Subscription>, b: seq<Subscription>, id: string)
    requires SameIds(a, b)
    ensures IndexOf(a, id) == IndexOf(b, id)
  {
    var ia, ib := IndexOf(a, id), IndexOf(b, id);
    if ia.Some? && ib.Some? {
      assert b[ia.value].id == id;
      assert a[ib.value].id == id;
    }
  }

  /** With unique ids, `find` stops at the only record with that id. */
  lemma IndexOfUnique(subs: seq<Subscription>, k: nat)
    requires UniqueIds(subs) && k < |subs|
    ensures IndexOf(subs, subs[k].id) == Some(k)
  {
  }

  /** `getById(id)`: the first subscription with this id, if any. */
  function GetById(subs: seq<Subscription>, id: string): (r: Option<Subscription>)
    ensures r.None? <==> forall j :: 0 <= j < |subs| ==> subs[j].id != id
    ensures r.Some? ==> r.value.id == id && r.value == subs[IndexOf(subs, id).value]
  {
    match IndexOf(subs, id)
    case None => None
    case Some(i) => Some(subs[i])
  }

  // ----- create -----

  predicate IsPlan(v: Value) {
    v.Str? && v.s in PLAN_TYPES
  }

  /** The record `create(payload)` builds at time `now` under the fresh id
      `id`, or the validation error it throws. */
  function NewSubscription(payload: map<string, Value>, id: string, now: int): (r: Result<Subscription>)
    ensures r.Ok? <==>
      && !Nullish(Get(payload, "userId"))
      && !Nullish(Get(payload, "paymentProvider"))
      && IsPlan(Get(payload, "plan"))
    ensures r.Err? ==> r.error.statusCode == Some(BAD_REQUEST)
    ensures r.Ok? ==>
      var s := r.value;
      && s.id == id
      && s.userId == Get(payload, "userId")
      && Str(s.plan) == Get(payload, "plan")
      && s.paymentProvider == Get(payload, "paymentProvider")
      && s.status == Active
      && s.lastPaymentStatus == Str("pending")
      && s.startedAt == now
      && s.expiresAt == (if Truthy(Get(payload, "expiresAt")) then Get(payload, "expiresAt") else Num(now + DEFAULT_TERM))
      && s.retryAttempts == None && s.nextRetryDate == None
      && s.cancellationReason == None && s.lastPaymentDate == None
  {
    match RequireFields(payload, REQUIRED_FIELDS)
    case Fail(e) => Err(e)
    case Pass =>
      assert REQUIRED_FIELDS[1] == "plan";
      match AssertEnum(Get(payload, "plan"), PLAN_TYPES, "plan")
      case Fail(e) => Err(e)
      case Pass =>
        var expiresAt := Get(payload, "expiresAt");
        Ok(Subscription(
          id := id,
          userId := Get(payload, "userId"),
          plan := Get(payload, "plan").s,
          status := Active,
          startedAt := now,
          expiresAt := if Truthy(expiresAt) then expiresAt else Num(now + DEFAULT_TERM),
          paymentProvider := Get(payload, "paymentProvider"),
          lastPaymentStatus := Str("pending"),
          retryAttempts := None,
          nextRetryDate := None,
          cancellationReason := None,
          lastPaymentDate := None))
  }

  /** A missing `userId` is the first field the error names. */
  lemma MissingUserIdNamedFirst(payload: map<string, Value>, id: string, now: int)
    requires Nullish(Get(payload, "userId"))
    ensures NewSubscription(payload, id, now).Err?
    ensures StartsWith(NewSubscription(payload, id, now).error.message, "Missing required fields: userId")
  {
    var missing := MissingFields(payload, REQUIRED_FIELDS);
    assert REQUIRED_FIELDS[0] == "userId";
    assert missing[0] == "userId";
    var message := "Missing required fields: " + Join(missing, ", ");
    assert message[..|"Missing required fields: userId"|] == "Missing required fields: userId";
  }

  /** A plan outside the list is always rejected; with every field present
      the error is the one `assertEnum` throws for the plan. */
  lemma UnknownPlanRejected(payload: map<string, Value>, id: string, now: int)
    requires !IsPlan(Get(payload, "plan"))
    ensures NewSubscription(payload, id, now).Err?
    ensures !Nullish(Get(payload, "userId")) && !Nullish(Get(payload, "plan")) && !Nullish(Get(payload, "paymentProvider")) ==>
      NewSubscription(payload, id, now).error ==
        Error("Invalid plan. Expected one of: " + Join(PLAN_TYPES, ", "), Some(BAD_REQUEST))
  {
    if !Nullish(Get(payload, "userId")) && !Nullish(Get(payload, "plan")) && !Nullish(Get(payload, "paymentProvider")) {
      assert REQUIRED_FIELDS == ["userId", "plan", "paymentProvider"];
      assert forall i :: 0 <= i < |REQUIRED_FIELDS| ==> !Nullish(Get(payload, REQUIRED_FIELDS[i]));
      assert RequireFields(payload, REQUIRED_FIELDS).Pass?;
      InvalidPlanError(Get(payload, "plan"));
    }
  }

  /** The error `assertEnum` throws for a plan outside the list. */
  lemma InvalidPlanError(plan: Value)
    requires !IsPlan(plan)
    ensures AssertEnum(plan, PLAN_TYPES, "plan") == Fail(Error("Invalid plan. Expected one of: " + Join(PLAN_TYPES, ", "), Some(BAD_REQUEST)))
  {
    assert "Invalid " + "plan" + ". Expected one of: " == "Invalid plan. Expected one of: ";
  }

  /** A fresh id keeps the ids unique. */
  lemma CreateKeepsIdsUnique(subs: seq<Subscription>, s: Subscription)
    requires UniqueIds(subs) && GetById(subs, s.id).None?
    ensures UniqueIds(subs + [s])
  {
  }

  /** `create(payload)`: appends the new record, or throws and changes nothing. */
  method Create(store: Store, payload: map<string, Value>, id: string, now: int) returns (r: Result<Subscription>)
    modifies store
    ensures r == NewSubscription(payload, id, now)
    ensures store.subscriptions == if r.Ok? then old(store.subscriptions) + [r.value] else old(store.subscriptions)
    ensures store.payments == old(store.payments)
  {
    r := NewSubscription(payload, id, now);
    if r.Ok? {
      store.subscriptions := store.subscriptions + [r.value];
    }
  }

  // ----- markPastDue and cancel -----

  /** The list after `markPastDue(id)`: only the found record's status changes. */
  function MarkedPastDue(subs: seq<Subscription>, id: string): (r: seq<Subscription>)
    ensures SameIds(subs, r)
    ensures forall j :: 0 <= j < |subs| && Some(j) != IndexOf(subs, id) ==> r[j] == subs[j]
    ensures IndexOf(subs, id).Some? ==>
      var i := IndexOf(subs, id).value; r[i] == subs[i].(status := PastDue)
  {
    match IndexOf(subs, id)
    case None => subs
    case Some(i) => subs[i := subs[i].(status := PastDue)]
  }

  /** Marking twice is the same as marking once. */
  lemma MarkPastDueIdempotent(subs: seq<Subscription>, id: string)
    ensures MarkedPastDue(MarkedPastDue(subs, id), id) == MarkedPastDue(subs, id)
  {
    var once := MarkedPastDue(subs, id);
    IndexOfSameIds(subs, once, id);
  }

  /** `markPastDue(id)`: throws "Subscription not found" for an unknown id. */
  method MarkPastDue(store: Store, id: string) returns (r: Result<Subscription>)
    modifies store
    ensures store.subscriptions == MarkedPastDue(old(store.subscriptions), id)
    ensures store.payments == old(store.payments)
    ensures r.Err? <==> IndexOf(old(store.subscriptions), id).None?
    ensures r.Err? ==> r.error == NOT_FOUND
    ensures r.Ok? ==> r.value == store.subscriptions[IndexOf(old(store.subscriptions), id).value]
  {
    var found := IndexOf(store.subscriptions, id);
    if found.None? {
      return Err(NOT_FOUND);
    }
    var i := found.value;
    store.subscriptions := store.subscriptions[i := store.subscriptions[i].(status := PastDue)];
    r := Ok(store.subscriptions[i]);
  }

  /** The list after `cancel(id)` at time `now`: the found record becomes
      canceled and expires now; nothing else changes. */
  function Cancelled(subs: seq<Subscription>, id: string, now: int): (r: seq<Subscription>)
    ensures SameIds(subs, r)
    ensures forall j :: 0 <= j < |subs| && Some(j) != IndexOf(subs, id) ==> r[j] == subs[j]
    ensures IndexOf(subs, id).Some? ==>
      var i := IndexOf(subs, id).value; r[i] == subs[i].(status := Canceled, expiresAt := Num(now))
  {
    match IndexOf(subs, id)
    case None => subs
    case Some(i) => subs[i := subs[i].(status := Canceled, expiresAt := Num(now))]
  }

  /** `cancel(id)`: throws "Subscription not found" for an unknown id. */
  method Cancel(store: Store, id: string, now: int) returns (r: Result<Subscription>)
    modifies store
    ensures store.subscriptions == Cancelled(old(store.subscriptions), id, now)
    ensures store.payments == old(store.payments)
    ensures r.Err? <==> IndexOf(old(store.subscriptions), id).None?
    ensures r.Err? ==> r.error == NOT_FOUND
    ensures r.Ok? ==> r.value == store.subscriptions[IndexOf(old(store.subscriptions), id).value]
  {
    var found := IndexOf(store.subscriptions, id);
    if found.None? {
      return Err(NOT_FOUND);
    }
    var i := found.value;
    store.subscriptions := store.subscriptions[i := store.subscriptions[i].(status := Canceled, expiresAt := Num(now))];
    r := Ok(store.subscriptions[i]);
  }
}
