/** What the marketing tables keep under each kind of write: frequency caps, single-use
    grants, well-shaped deliveries, and a record of leases and results that agrees. */
module MarketingLaws {
  import opened Sql
  import opened MarketingAuthority

  // ---------------------------------------------------------------------------
  // When a delivery is due

  predicate Daytime(at: int) {
    8 <= LocalHour(at) < 21
  }

  lemma HourBounds(at: int)
    ensures LocalDay(at) * DAY + LocalHour(at) * HOUR <= Local(at) < LocalDay(at) * DAY + (LocalHour(at) + 1) * HOUR
    ensures 0 <= LocalHour(at) < 24
  {
  }

  lemma OnlyDay(at: int, day: int)
    requires day * DAY <= Local(at) < (day + 1) * DAY
    ensures LocalDay(at) == day
  {
  }

  /** The first due time is the earliest moment from now on whose Shanghai hour lies
      between 8 and 21. */
  lemma DueIsEarliestDaytime(now: int)
    ensures now <= DueAt(now) && Daytime(DueAt(now))
    ensures forall at :: now <= at < DueAt(now) ==> !Daytime(at)
  {
    HourBounds(now);
    var due := DueAt(now);
    if LocalHour(now) >= 21 {
      OnlyDay(due, LocalDay(now) + 1);
      HourBounds(due);
      forall at | now <= at < due ensures !Daytime(at) {
        NightAfter(now, at);
      }
    } else if LocalHour(now) < 8 {
      OnlyDay(due, LocalDay(now));
      HourBounds(due);
      forall at | now <= at < due ensures !Daytime(at) {
        OnlyDay(at, LocalDay(now));
        HourBounds(at);
      }
    }
  }

  lemma NightAfter(now: int, at: int)
    requires LocalHour(now) >= 21 && now <= at < DueAt(now)
    ensures !Daytime(at)
  {
    HourBounds(now);
    HourBounds(at);
    if Local(at) < (LocalDay(now) + 1) * DAY {
      OnlyDay(at, LocalDay(now));
    } else {
      OnlyDay(at, LocalDay(now) + 1);
    }
  }

  // ---------------------------------------------------------------------------
  // Sound tables

  const EMPTY := Tables(map[], map[], map[], map[], map[])

  /** What a delivery row says on its own. */
  predicate RowShape(d: Delivery) {
    && DeliveryChecks(d)
    && (d.nextAttempt.Some? <==> Live(d))
    && (d.status == Pending ==> d.attempts == 0)
    && (d.status == Failed ==> 1 <= d.attempts <= 2)
    && (d.status == Delivering ==> d.attempts <= 2)
    && (d.status in {Accepted, Exhausted} ==> d.attempts >= 1)
    && (Counted(d) ==> d.grant.Some?)
  }

  /** The grant was given by the member notified, for this class of notification, and for
      the time the delivery was created at. */
  predicate Entitles(g: Grant, n: Notification, at: int) {
    g.membership == n.membership && g.purpose == n.class_ && at < g.expiresAt
        && (n.class_ == Marketing ==> g.authorizedAt <= at)
  }

  /** The delivery has its notification, and its grant entitles to it and is consumed. */
  predicate Backed(t: Tables, d: Delivery) {
    && d.notification in t.notifications
    && (d.grant.Some? ==>
          && d.grant.value in t.grants && t.grants[d.grant.value].status == Consumed
          && Entitles(t.grants[d.grant.value], t.notifications[d.notification], d.createdAt))
  }

  ghost predicate RowsOk(t: Tables) {
    forall d :: d in t.deliveries ==> RowShape(t.deliveries[d]) && Backed(t, t.deliveries[d])
  }

  /** No two deliveries share a grant. */
  ghost predicate GrantsApart(t: Tables) {
    forall d, e :: d in t.deliveries && e in t.deliveries && ShareGrant(t.deliveries[d], t.deliveries[e]) ==> d == e
  }

  predicate ShareGrant(a: Delivery, b: Delivery) {
    a.grant.Some? && a.grant == b.grant
  }

  /** The unique constraint on the source event. */
  ghost predicate HappeningsApart(t: Tables) {
    forall m, n :: m in t.notifications && n in t.notifications && SameHappening(t, m, n) ==> m == n
  }

  predicate SameHappening(t: Tables, m: Uuid, n: Uuid)
    requires m in t.notifications && n in t.notifications
  {
    t.notifications[m].happening == t.notifications[n].happening
  }

  function Within(t: Tables, m: Uuid, at: int): set<Uuid> {
    set d | d in t.deliveries && MarketingFor(t, d, m) && Counted(t.deliveries[d])
            && at < t.deliveries[d].createdAt <= at + WEEK
  }

  ghost predicate CapsHold(t: Tables) {
    && (forall m, day :: |OnDay(t, m, day)| <= 1)
    && (forall m, at :: |Within(t, m, at)| <= 3)
  }

  ghost predicate Sound(t: Tables) {
    RowsOk(t) && GrantsApart(t) && HappeningsApart(t) && CapsHold(t)
  }

  lemma EmptyIsSound()
    ensures Sound(EMPTY)
  {
    forall m, day ensures |OnDay(EMPTY, m, day)| <= 1 {
      assert OnDay(EMPTY, m, day) == {};
    }
    forall m, at ensures |Within(EMPTY, m, at)| <= 3 {
      assert Within(EMPTY, m, at) == {};
    }
  }

  // ---------------------------------------------------------------------------
  // Writes that add no delivery

  predicate Final(d: Delivery) {
    d.status in {Accepted, Exhausted, Suppressed, AuthorizationMissing}
  }

  /** A delivery's further course: its origin is fixed, it never starts to count or to
      live again, its attempts only get more, and a final one is at most suppressed. */
  predicate Slides(before: Delivery, after: Delivery) {
    && after.notification == before.notification && after.grant == before.grant && after.createdAt == before.createdAt
    && (Counted(after) ==> Counted(before))
    && (Live(after) ==> Live(before))
    && before.attempts <= after.attempts
    && (Final(before) ==> after in {before, Dropped(before)})
  }

  /** At most the status of a grant changes, and a consumed one stays consumed. */
  predicate GrantKept(before: Grant, after: Grant) {
    after == before.(status := after.status) && (before.status == Consumed ==> after.status == Consumed)
  }

  ghost predicate GrantsKept(t: Tables, u: Tables) {
    forall g :: g in t.grants ==> g in u.grants && GrantKept(t.grants[g], u.grants[g])
  }

  lemma KeptConsumed(t: Tables, u: Tables, g: Uuid)
    requires GrantsKept(t, u) && g in t.grants && t.grants[g].status == Consumed
    ensures g in u.grants && u.grants[g] == t.grants[g]
  {
  }

  /** No delivery appears, and each slides along in shape; preferences and consents are free. */
  ghost predicate Eases(t: Tables, u: Tables) {
    && u.notifications == t.notifications && u.deliveries.Keys == t.deliveries.Keys && GrantsKept(t, u)
    && forall d :: d in t.deliveries ==> Slides(t.deliveries[d], u.deliveries[d]) && RowShape(u.deliveries[d])
  }

  lemma EaseKeepsCaps(t: Tables, u: Tables)
    requires CapsHold(t) && Eases(t, u)
    ensures CapsHold(u)
  {
    forall m, day ensures |OnDay(u, m, day)| <= 1 {
      assert OnDay(u, m, day) <= OnDay(t, m, day);
      SubsetSize(OnDay(u, m, day), OnDay(t, m, day));
    }
    forall m, at ensures |Within(u, m, at)| <= 3 {
      assert Within(u, m, at) <= Within(t, m, at);
      SubsetSize(Within(u, m, at), Within(t, m, at));
    }
  }

  lemma EaseKeepsBacked(t: Tables, u: Tables, d: Delivery)
    requires Backed(t, d) && u.notifications == t.notifications && GrantsKept(t, u)
    ensures Backed(u, d)
  {
    if d.grant.Some? {
      KeptConsumed(t, u, d.grant.value);
    }
  }

  lemma EaseKeepsSound(t: Tables, u: Tables)
    requires Sound(t) && Eases(t, u)
    ensures Sound(u)
  {
    forall d | d in u.deliveries ensures RowShape(u.deliveries[d]) && Backed(u, u.deliveries[d]) {
      assert Backed(t, t.deliveries[d]) && Slides(t.deliveries[d], u.deliveries[d]);
      EaseKeepsBacked(t, u, t.deliveries[d]);
    }
    EaseKeepsCaps(t, u);
  }

  /** Which deliveries a cancellation selects does not depend on the grants. */
  lemma GrantsDoNotMatter(v: Tables, grants: map<Uuid, Grant>, m: Uuid, members: set<Uuid>)
    ensures Cancelled(v.(grants := grants), members) == Cancelled(v, members)
    ensures CancelledIdle(v.(grants := grants), m) == CancelledIdle(v, m)
  {
  }

  /** Whom a consent concerns depends on the preferences alone. */
  lemma SameMembers(v: Tables, consents: map<Uuid, Consent>, c: Uuid)
    ensures MembersOn(v.(consents := consents), c) == MembersOn(v, c)
  {
  }

  // ---------------------------------------------------------------------------
  // New deliveries

  /** Adding one notification with its delivery, and consuming its grant if it has one. */
  ghost predicate Adds(t: Tables, u: Tables, n: Uuid, notification: Notification, id: Uuid, row: Delivery) {
    && n !in t.notifications && id !in t.deliveries && !MarketingAuthority.Known(t, notification.happening)
    && u.notifications == t.notifications[n := notification] && u.deliveries == t.deliveries[id := row]
    && u.preferences == t.preferences && u.consents == t.consents && GrantsKept(t, u)
    && row.notification == n && row.attempts == 0 && row.lease.None? && row.leaseUntil.None?
    && row.status in {Pending, AuthorizationMissing, Suppressed}
    && (row.status == Pending <==> row.nextAttempt.Some?) && (row.status == Pending ==> row.grant.Some?)
    && (row.grant.Some? ==>
          Consumes(t, u, row.grant.value) && Entitles(t.grants[row.grant.value], notification, row.createdAt))
  }

  predicate Consumes(t: Tables, u: Tables, g: Uuid) {
    g in t.grants && t.grants[g].status == Available && g in u.grants && u.grants[g].status == Consumed
  }

  lemma OldRow(t: Tables, u: Tables, n: Uuid, notification: Notification, id: Uuid, row: Delivery, d: Uuid)
    requires Sound(t) && Adds(t, u, n, notification, id, row) && d in t.deliveries
    ensures d != id && u.deliveries[d] == t.deliveries[d] && Backed(u, t.deliveries[d])
    ensures row.grant.Some? ==> t.deliveries[d].grant != row.grant
  {
    assert Backed(t, t.deliveries[d]);
    assert t.deliveries[d].notification != n;
    var g := t.deliveries[d].grant;
    if g.Some? {
      KeptConsumed(t, u, g.value);
    }
  }

  lemma AddKeepsGrantsApart(t: Tables, u: Tables, n: Uuid, notification: Notification, id: Uuid, row: Delivery)
    requires Sound(t) && Adds(t, u, n, notification, id, row)
    ensures GrantsApart(u)
  {
    forall d, e | d in u.deliveries && e in u.deliveries && ShareGrant(u.deliveries[d], u.deliveries[e])
        ensures d == e {
      if d in t.deliveries {
        OldRow(t, u, n, notification, id, row, d);
      }
      if e in t.deliveries {
        OldRow(t, u, n, notification, id, row, e);
      }
    }
  }

  lemma AddKeepsSound(t: Tables, u: Tables, n: Uuid, notification: Notification, id: Uuid, row: Delivery)
    requires Sound(t) && Adds(t, u, n, notification, id, row) && CapsHold(u)
    ensures Sound(u)
  {
    AddKeepsGrantsApart(t, u, n, notification, id, row);
    forall d | d in u.deliveries ensures RowShape(u.deliveries[d]) && Backed(u, u.deliveries[d]) {
      if d in t.deliveries {
        OldRow(t, u, n, notification, id, row, d);
      }
    }
  }

  predicate Counts(notification: Notification, row: Delivery, m: Uuid) {
    notification.class_ == Marketing && notification.membership == m && row.status == Pending
  }

  lemma AddedMember(t: Tables, u: Tables, n: Uuid, notification: Notification, id: Uuid, row: Delivery, m: Uuid,
        d: Uuid)
    requires RowsOk(t) && Adds(t, u, n, notification, id, row)
    ensures d in u.deliveries && MarketingFor(u, d, m) && Counted(u.deliveries[d])
            <==> if d == id then Counts(notification, row, m)
                else d in t.deliveries && MarketingFor(t, d, m) && Counted(t.deliveries[d])
    ensures d in u.deliveries ==>
        u.deliveries[d].createdAt == if d == id then row.createdAt else t.deliveries[d].createdAt
  {
    if d in t.deliveries {
      assert Backed(t, t.deliveries[d]);
      assert t.deliveries[d].notification != n;
    }
  }

  /** The counted deliveries of a day or window gain at most the new one. */
  lemma AddedToDay(t: Tables, u: Tables, n: Uuid, notification: Notification, id: Uuid, row: Delivery, m: Uuid,
        day: int)
    requires RowsOk(t) && Adds(t, u, n, notification, id, row)
    ensures OnDay(u, m, day)
            == OnDay(t, m, day) + (if Counts(notification, row, m) && LocalDay(row.createdAt) == day then {id} else {})
  {
    forall d ensures d in OnDay(u, m, day)
      <==> d in OnDay(t, m, day) || (d == id && Counts(notification, row, m) && LocalDay(row.createdAt) == day)
    {
      AddedMember(t, u, n, notification, id, row, m, d);
    }
  }

  lemma AddedToWindow(t: Tables, u: Tables, n: Uuid, notification: Notification, id: Uuid, row: Delivery, m: Uuid,
        at: int)
    requires RowsOk(t) && Adds(t, u, n, notification, id, row)
    ensures Within(u, m, at)
            == Within(t, m, at) + (if Counts(notification, row, m) && at < row.createdAt <= at + WEEK then {id} else {})
  {
    forall d ensures d in Within(u, m, at)
      <==> d in Within(t, m, at) || (d == id && Counts(notification, row, m) && at < row.createdAt <= at + WEEK)
    {
      AddedMember(t, u, n, notification, id, row, m, d);
    }
  }

  lemma UncountedKeepsCaps(t: Tables, u: Tables, n: Uuid, notification: Notification, id: Uuid, row: Delivery)
    requires Sound(t) && Adds(t, u, n, notification, id, row)
    requires notification.class_ == Service || row.status != Pending
    ensures CapsHold(u)
  {
    forall m, day ensures |OnDay(u, m, day)| <= 1 {
      UncountedKeepsCounts(t, u, n, notification, id, row, m, day, 0);
      assert |OnDay(t, m, day)| <= 1;
    }
    forall m, at ensures |Within(u, m, at)| <= 3 {
      UncountedKeepsCounts(t, u, n, notification, id, row, m, 0, at);
      assert |Within(t, m, at)| <= 3;
    }
  }

  lemma UncountedKeepsCounts(t: Tables, u: Tables, n: Uuid, notification: Notification, id: Uuid, row: Delivery,
        m: Uuid, day: int, at: int)
    requires RowsOk(t) && Adds(t, u, n, notification, id, row)
    requires notification.class_ == Service || row.status != Pending
    ensures OnDay(u, m, day) == OnDay(t, m, day) && Within(u, m, at) == Within(t, m, at)
  {
    AddedToDay(t, u, n, notification, id, row, m, day);
    AddedToWindow(t, u, n, notification, id, row, m, at);
  }

  /** The two counts of the function suffice for every day and every window: whatever
      lies in a window with the new delivery lies after its own week's start. */
  lemma CountedKeepsDay(t: Tables, u: Tables, notification: Notification, id: Uuid, row: Delivery, q: CreateRequest,
        m: Uuid, day: int)
    requires Sound(t) && Adds(t, u, q.notification, notification, id, row) && !Capped(t, q)
    requires notification.membership == q.membership && row.createdAt == q.now
    ensures |OnDay(u, m, day)| <= 1
  {
    AddedToDay(t, u, q.notification, notification, id, row, m, day);
    assert |OnDay(t, m, day)| <= 1;
    if m == q.membership && day == LocalDay(q.now) {
      assert |OnDay(t, m, day)| == 0;
    }
  }

  lemma CountedKeepsWindow(
      t: Tables, u: Tables, notification: Notification, id: Uuid, row: Delivery, q: CreateRequest, m: Uuid, at: int)
    requires Sound(t) && Adds(t, u, q.notification, notification, id, row) && !Capped(t, q)
    requires notification.membership == q.membership && row.createdAt == q.now
    ensures |Within(u, m, at)| <= 3
  {
    AddedToWindow(t, u, q.notification, notification, id, row, m, at);
    RoomInWindow(t, q, m, at);
  }

  lemma RoomInWindow(t: Tables, q: CreateRequest, m: Uuid, at: int)
    requires CapsHold(t) && !Capped(t, q)
    ensures |Within(t, m, at)| <= if m == q.membership && at < q.now <= at + WEEK then 2 else 3
  {
    if m == q.membership && at < q.now <= at + WEEK {
      WindowAfterWeekStart(t, m, at, q.now);
    }
  }

  lemma WindowAfterWeekStart(t: Tables, m: Uuid, at: int, now: int)
    requires now <= at + WEEK
    ensures |Within(t, m, at)| <= |After(t, m, now - WEEK)|
  {
    assert Within(t, m, at) <= After(t, m, now - WEEK);
    SubsetSize(Within(t, m, at), After(t, m, now - WEEK));
  }

  lemma CountedKeepsCaps(t: Tables, u: Tables, notification: Notification, id: Uuid, row: Delivery, q: CreateRequest)
    requires Sound(t) && Adds(t, u, q.notification, notification, id, row) && !Capped(t, q)
    requires notification.membership == q.membership && row.createdAt == q.now
    ensures CapsHold(u)
  {
    forall m, day ensures |OnDay(u, m, day)| <= 1 {
      CountedKeepsDay(t, u, notification, id, row, q, m, day);
    }
    forall m, at ensures |Within(u, m, at)| <= 3 {
      CountedKeepsWindow(t, u, notification, id, row, q, m, at);
    }
  }

  // ---------------------------------------------------------------------------
  // The record of leases and results

  /** What is on record: leases granted and results accepted. */
  datatype Entry =
    | Leased(delivery: Uuid, token: Option<Uuid>)
    | Reported(delivery: Uuid, token: Option<Uuid>)

  function Reports(log: seq<Entry>, d: Uuid): nat {
    if log == [] then 0
    else Reports(log[..|log| - 1], d) + (if log[|log| - 1].Reported? && log[|log| - 1].delivery == d then 1 else 0)
  }

  function Leases(log: seq<Entry>, d: Uuid): nat {
    if log == [] then 0
    else Leases(log[..|log| - 1], d) + (if log[|log| - 1].Leased? && log[|log| - 1].delivery == d then 1 else 0)
  }

  /** The token of the latest lease on record. */
  function LatestToken(log: seq<Entry>, d: Uuid): Option<Uuid> {
    if log == [] then None
    else if log[|log| - 1].Leased? && log[|log| - 1].delivery == d then log[|log| - 1].token
    else LatestToken(log[..|log| - 1], d)
  }

  predicate Silent(log: seq<Entry>, d: Uuid) {
    forall i :: 0 <= i < |log| ==> log[i].delivery != d
  }

  lemma {:induction false} SilentCounts(log: seq<Entry>, d: Uuid)
    requires Silent(log, d)
    ensures Reports(log, d) == 0 && Leases(log, d) == 0 && LatestToken(log, d) == None
    decreases |log|
  {
    if log != [] {
      assert log[|log| - 1].delivery != d;
      SilentCounts(log[..|log| - 1], d);
    }
  }

  /** The delivery agrees with the record: as many accepted results as attempts, a lease
      for each of them and one for a delivery under way, whose lease is the latest. */
  predicate DeliveryLogged(row: Delivery, log: seq<Entry>, d: Uuid) {
    && Reports(log, d) == row.attempts
    && Reports(log, d) + (if row.status == Delivering then 1 else 0) <= Leases(log, d)
    && (row.status == Delivering ==> LatestToken(log, d) == row.lease)
  }

  ghost predicate LogAgrees(t: Tables, log: seq<Entry>) {
    && (forall d :: d !in t.deliveries ==> Reports(log, d) == 0)
    && (forall d :: d in t.deliveries ==> DeliveryLogged(t.deliveries[d], log, d))
  }

  lemma LogGrows(log: seq<Entry>, e: Entry, d: Uuid)
    ensures Reports(log + [e], d) == Reports(log, d) + if e.Reported? && e.delivery == d then 1 else 0
    ensures Leases(log + [e], d) == Leases(log, d) + if e.Leased? && e.delivery == d then 1 else 0
    ensures LatestToken(log + [e], d) == if e.Leased? && e.delivery == d then e.token else LatestToken(log, d)
  {
    var longer := log + [e];
    assert longer[..|longer| - 1] == log && longer[|longer| - 1] == e;
  }

  /** Appending entries that are silent about a delivery, or appending to them. */
  lemma {:induction false} SilentAppend(log: seq<Entry>, more: seq<Entry>, d: Uuid)
    requires Silent(more, d)
    ensures Reports(log + more, d) == Reports(log, d) && Leases(log + more, d) == Leases(log, d)
    ensures LatestToken(log + more, d) == LatestToken(log, d)
    decreases |more|
  {
    if more == [] {
      assert log + more == log;
    } else {
      var last := |more| - 1;
      assert log + more == (log + more[..last]) + [more[last]];
      LogGrows(log + more[..last], more[last], d);
      SilentAppend(log, more[..last], d);
    }
  }

  lemma {:induction false} SilentInsert(log: seq<Entry>, quiet: seq<Entry>, more: seq<Entry>, d: Uuid)
    requires Silent(quiet, d)
    ensures Reports(log + quiet + more, d) == Reports(log + more, d)
    ensures Leases(log + quiet + more, d) == Leases(log + more, d)
    ensures LatestToken(log + quiet + more, d) == LatestToken(log + more, d)
    decreases |more|
  {
    if more == [] {
      assert log + quiet + more == log + quiet && log + more == log;
      SilentAppend(log, quiet, d);
    } else {
      var last := |more| - 1;
      assert log + quiet + more == (log + quiet + more[..last]) + [more[last]];
      assert log + more == (log + more[..last]) + [more[last]];
      LogGrows(log + quiet + more[..last], more[last], d);
      LogGrows(log + more[..last], more[last], d);
      SilentInsert(log, quiet, more[..last], d);
    }
  }

  /** A row that agrees with the same record as before. */
  predicate Quiet(before: Delivery, after: Delivery) {
    && after.attempts == before.attempts
    && (after.status == Delivering ==> before.status == Delivering && after.lease == before.lease)
  }

  // ---------------------------------------------------------------------------
  // Results

  /** After a failed attempt no lease is granted for five minutes, after the second for ten. */
  lemma FailureWaits(t: Tables, q: ResultRequest, token: Option<Uuid>, at: int)
    requires RowsOk(t) && ResultStep(t, q).Some? && ResultStep(t, q).value.deliveries[q.delivery].status == Failed
    requires at < q.now + (if t.deliveries[q.delivery].attempts == 0 then 5 else 10) * MINUTE
    ensures LeaseStep(ResultStep(t, q).value, q.delivery, token, at) == Some((ResultStep(t, q).value, false))
  {
    assert RowShape(t.deliveries[q.delivery]);
    assert Doubled(0) == 1 && Doubled(1) == 2 * Doubled(0);
  }

  /** A result the function does not know is refused, except as the third one, where it
      exhausts the delivery. */
  lemma UnknownResultCountsThird(t: Tables, q: ResultRequest)
    requires RowsOk(t) && HoldsLease(t, q) && q.result == Other
    ensures ResultStep(t, q).Some? <==> t.deliveries[q.delivery].attempts == 2
    ensures ResultStep(t, q).Some? ==> ResultStep(t, q).value.deliveries[q.delivery].status == Exhausted
  {
    assert RowShape(t.deliveries[q.delivery]);
  }
}
