/** jobs/expiredSubscriptions.js: active subscriptions whose expiry has
    passed are marked past due, one `markPastDue(id)` call per selected
    record. */
module ExpiredSubscriptionsJob {
  import opened Js
  import opened Sequences
  import opened Models
  import opened DataStore
  import opened SubscriptionService

  /** `new Date(expiresAt).getTime() < now && status === 'active'`; an
      expiry that is not a valid date never compares as earlier. */
  predicate IsExpired(s: Subscription, now: int)
    ensures s.expiresAt.Str? || s.expiresAt.Undefined? ==> !IsExpired(s, now)
    ensures s.expiresAt.Null? ==> (IsExpired(s, now) <==> s.status == Active && 0 < now)
    ensures s.expiresAt.Num? && -MAX_TIME <= s.expiresAt.n <= MAX_TIME ==>
      (IsExpired(s, now) <==> s.status == Active && s.expiresAt.n < now)
  {
    TimeOf(s.expiresAt).Some? && TimeOf(s.expiresAt).value < now && s.status == Active
  }

  /** A record that has expired stays expired as time goes on. */
  lemma ExpiredStaysExpired(s: Subscription, now: int, later: int)
    requires IsExpired(s, now) && now <= later
    ensures IsExpired(s, later)
  {
  }

  /** The records the job selects, in store order. */
  function ExpiredSelection(subs: seq<Subscription>, now: int): (r: seq<Subscription>)
    ensures forall k :: 0 <= k < |r| ==> r[k] in subs && IsExpired(r[k], now)
    ensures forall k :: 0 <= k < |subs| && IsExpired(subs[k], now) ==> subs[k] in r
  {
    GetAllUnfiltered(subs, NO_FILTERS);
    Filter(GetAll(subs, NO_FILTERS), (s: Subscription) => IsExpired(s, now))
  }

  /** `ids.forEach(id => markPastDue(id))` on a list of subscriptions. */
  function MarkAllPastDue(subs: seq<Subscription>, ids: seq<string>): (r: seq<Subscription>)
    decreases |ids|
    ensures SameIds(subs, r)
    ensures forall j :: 0 <= j < |subs| ==> r[j] == subs[j].(status := r[j].status)
    ensures forall j :: 0 <= j < |subs| ==> r[j].status == subs[j].status || r[j].status == PastDue
  {
    if ids == [] then subs
    else MarkedPastDue(MarkAllPastDue(subs, ids[..|ids| - 1]), ids[|ids| - 1])
  }

  /** With unique ids, marking a list of ids marks exactly the records
      whose id is in the list. */
  lemma {:induction false} MarkAllPastDueUnique(subs: seq<Subscription>, ids: seq<string>)
    requires UniqueIds(subs)
    ensures var r := MarkAllPastDue(subs, ids);
      forall j :: 0 <= j < |subs| ==> r[j] == if subs[j].id in ids then subs[j].(status := PastDue) else subs[j]
    decreases |ids|
  {
    if ids != [] {
      var init, x := ids[..|ids| - 1], ids[|ids| - 1];
      assert ids == init + [x];
      MarkAllPastDueUnique(subs, init);
      var before := MarkAllPastDue(subs, init);
      IndexOfSameIds(subs, before, x);
      forall j | 0 <= j < |subs|
        ensures MarkAllPastDue(subs, ids)[j] == if subs[j].id in ids then subs[j].(status := PastDue) else subs[j]
      {
        if subs[j].id == x {
          IndexOfUnique(subs, j);
        }
      }
    }
  }

  /** After marking, the first record with each listed id is past due. */
  lemma {:induction false} MarkAllPastDueMarksFirst(subs: seq<Subscription>, ids: seq<string>)
    ensures var r := MarkAllPastDue(subs, ids);
      forall x :: x in ids && IndexOf(r, x).Some? ==> r[IndexOf(r, x).value].status == PastDue
    decreases |ids|
  {
    if ids != [] {
      var init, last := ids[..|ids| - 1], ids[|ids| - 1];
      assert ids == init + [last];
      MarkAllPastDueMarksFirst(subs, init);
      var before := MarkAllPastDue(subs, init);
      var r := MarkAllPastDue(subs, ids);
      forall x | x in ids && IndexOf(r, x).Some?
        ensures r[IndexOf(r, x).value].status == PastDue
      {
        IndexOfSameIds(before, r, x);
        if x != last {
          assert x in init;
        }
      }
    }
  }

  /** Marking ids whose first records are already past due changes nothing. */
  lemma {:induction false} MarkAllPastDueNoop(subs: seq<Subscription>, ids: seq<string>)
    requires forall x :: x in ids && IndexOf(subs, x).Some? ==> subs[IndexOf(subs, x).value].status == PastDue
    ensures MarkAllPastDue(subs, ids) == subs
    decreases |ids|
  {
    if ids != [] {
      var init, last := ids[..|ids| - 1], ids[|ids| - 1];
      assert ids == init + [last];
      forall x | x in init
        ensures x in ids
      {
      }
      MarkAllPastDueNoop(subs, init);
      match IndexOf(subs, last)
      case None =>
      case Some(i) =>
        assert subs[i].(status := PastDue) == subs[i];
        assert subs[i := subs[i]] == subs;
    }
  }

  /** What one run of the job at time `now` leaves in the list: the same
      records, each with its status unchanged or past due. */
  function Sweep(subs: seq<Subscription>, now: int): (r: seq<Subscription>)
    ensures SameIds(subs, r)
    ensures forall j :: 0 <= j < |subs| ==> r[j] == subs[j].(status := r[j].status)
    ensures forall j :: 0 <= j < |subs| ==> r[j].status == subs[j].status || r[j].status == PastDue
  {
    MarkAllPastDue(subs, IdsOf(ExpiredSelection(subs, now)))
  }

  /** With unique ids, exactly the expired active subscriptions become past
      due and every other record is unchanged. */
  lemma SweepMarksExactlyExpired(subs: seq<Subscription>, now: int)
    requires UniqueIds(subs)
    ensures |Sweep(subs, now)| == |subs|
    ensures forall j :: 0 <= j < |subs| ==>
      Sweep(subs, now)[j] == if IsExpired(subs[j], now) then subs[j].(status := PastDue) else subs[j]
  {
    var selected := ExpiredSelection(subs, now);
    var ids := IdsOf(selected);
    MarkAllPastDueUnique(subs, ids);
    forall j | 0 <= j < |subs|
      ensures subs[j].id in ids <==> IsExpired(subs[j], now)
    {
      if subs[j].id in ids {
        var k :| 0 <= k < |ids| && ids[k] == subs[j].id;
        var m :| 0 <= m < |subs| && subs[m] == selected[k];
        assert m == j;
      }
      if IsExpired(subs[j], now) {
        var k :| 0 <= k < |selected| && selected[k] == subs[j];
        assert ids[k] == subs[j].id;
      }
    }
  }

  /** The sweep never cancels anything. */
  lemma SweepNeverCancels(subs: seq<Subscription>, now: int)
    ensures forall j :: 0 <= j < |subs| && Sweep(subs, now)[j].status == Canceled ==> subs[j].status == Canceled
  {
  }

  /** A record still active after a run was in the list before it. */
  lemma ActiveAfterSweepWasThere(subs: seq<Subscription>, now: int, s: Subscription)
    requires s in Sweep(subs, now) && s.status == Active
    ensures s in subs
  {
    var once := Sweep(subs, now);
    var m :| 0 <= m < |once| && once[m] == s;
    assert subs[m] == s;
  }

  /** Every id a second run selects was selected by the first run: the
      first run changes only statuses, and only to past due. */
  lemma SelectedAgainWasSelected(subs: seq<Subscription>, now: int)
    ensures var once := Sweep(subs, now);
      forall x :: x in IdsOf(ExpiredSelection(once, now)) ==> x in IdsOf(ExpiredSelection(subs, now))
  {
    var once := Sweep(subs, now);
    var sel1, sel2 := ExpiredSelection(subs, now), ExpiredSelection(once, now);
    var ids1, ids2 := IdsOf(sel1), IdsOf(sel2);
    forall x | x in ids2
      ensures x in ids1
    {
      var k :| 0 <= k < |ids2| && ids2[k] == x;
      var r := sel2[k];
      ActiveAfterSweepWasThere(subs, now, r);
      var k1 :| 0 <= k1 < |sel1| && sel1[k1] == r;
      assert ids1[k1] == x;
    }
  }

  /** A second run at the same time changes nothing: every record it
      selects was selected by the first run, whose markings already made the
      first record with that id past due. */
  lemma SweepIdempotent(subs: seq<Subscription>, now: int)
    ensures Sweep(Sweep(subs, now), now) == Sweep(subs, now)
  {
    var once := Sweep(subs, now);
    var ids1 := IdsOf(ExpiredSelection(subs, now));
    var ids2 := IdsOf(ExpiredSelection(once, now));
    MarkAllPastDueMarksFirst(subs, ids1);
    SelectedAgainWasSelected(subs, now);
    MarkAllPastDueNoop(once, ids2);
  }

  /** Marking one more id of the list marks it on top of the prefix. */
  lemma MarkAllPastDueStep(subs: seq<Subscription>, ids: seq<string>, i: nat)
    requires i < |ids|
    ensures MarkAllPastDue(subs, ids[..i + 1]) == MarkedPastDue(MarkAllPastDue(subs, ids[..i]), ids[i])
  {
    assert ids[..i + 1][..i] == ids[..i];
  }

  /** `expiredSubscriptionsJob()` at time `now`; returns the `updated` count it logs. */
  method ExpiredSubscriptions(store: Store, now: int) returns (updated: nat)
    modifies store
    ensures store.subscriptions == Sweep(old(store.subscriptions), now)
    ensures store.payments == old(store.payments)
    ensures updated == |ExpiredSelection(old(store.subscriptions), now)|
  {
    var expired := ExpiredSelection(store.subscriptions, now);
    var ids := IdsOf(expired);
    ghost var start := store.subscriptions;
    var i := 0;
    while i < |expired|
      invariant 0 <= i <= |expired|
      invariant store.subscriptions == MarkAllPastDue(start, ids[..i])
      invariant store.payments == old(store.payments)
    {
      MarkAllPastDueStep(start, ids, i);
      var _ := MarkPastDue(store, expired[i].id);
      i := i + 1;
    }
    assert ids[..|expired|] == ids;
    updated := |expired|;
  }
}
