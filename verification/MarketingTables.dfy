/** The marketing authority functions and cancellation triggers as they run, against
    the tables they update in place. */
module MarketingTables {
  import opened Sql
  import opened MarketingAuthority
  import opened MarketingLaws

  class Store {
    var notifications: map<Uuid, Notification>
    var deliveries: map<Uuid, Delivery>
    var grants: map<Uuid, Grant>
    var preferences: map<Uuid, Preference>
    var consents: map<Uuid, Consent>

    constructor ()
      ensures Contents() == EMPTY
    {
      notifications, deliveries, grants, preferences, consents := map[], map[], map[], map[], map[];
    }

    function Contents(): (t: MarketingAuthority.Tables)
      reads this
    {
      MarketingAuthority.Tables(notifications, deliveries, grants, preferences, consents)
    }

    /** The notification an event already has. */
    method FindHappening(happening: Happening) returns (found: Option<Uuid>)
      requires HappeningsApart(Contents())
      ensures found == if MarketingAuthority.Known(Contents(), happening)
                       then Some(NotificationOf(Contents(), happening)) else None
    {
      var left := notifications.Keys;
      while left != {}
        invariant left <= notifications.Keys
        invariant forall n :: n in notifications.Keys - left ==> notifications[n].happening != happening
        decreases |left|
      {
        if forall n :: n !in left {
          assert false;
        }
        var n :| n in left;
        if notifications[n].happening == happening {
          return Some(n);
        }
        left := left - {n};
      }
      found := None;
    }

    /** The earliest authorized usable grant, if there is one. */
    method PickGrant(q: CreateRequest) returns (picked: Option<Uuid>)
      ensures Picks(Contents(), q, picked)
    {
      picked := None;
      var left := grants.Keys;
      while left != {}
        invariant left <= grants.Keys
        invariant picked.Some? ==> Usable(Contents(), picked.value, q)
        invariant forall g :: g in grants.Keys - left && Usable(Contents(), g, q) ==>
                    picked.Some? && grants[picked.value].authorizedAt <= grants[g].authorizedAt
        decreases |left|
      {
        if forall g :: g !in left {
          assert false;
        }
        var g :| g in left;
        if Usable(Contents(), g, q) && (picked.None? || grants[g].authorizedAt < grants[picked.value].authorizedAt) {
          picked := Some(g);
        }
        left := left - {g};
      }
    }

    method Create(q: CreateRequest) returns (answer: Answer)
      requires HappeningsApart(Contents())
      modifies this
      ensures exists grant ::
          Picks(old(Contents()), q, grant) && (Contents(), answer) == CreateStep(old(Contents()), q, grant)
    {
      ghost var t := Contents();
      var picked := PickGrant(q);
      assert Picks(t, q, picked);
      if q.membership !in preferences || !preferences[q.membership].enabled {
        return Nothing;
      }
      var consent := preferences[q.membership].consent;
      if consent.None? || consent.value !in consents || !ConsentStands(consents[consent.value]) {
        return Nothing;
      }
      var existing := FindHappening(q.happening);
      if existing.Some? {
        return Id(existing.value);
      }
      if q.notification in notifications || q.delivery in deliveries {
        return Refused;
      }
      var daily, weekly :=
          |OnDay(Contents(), q.membership, LocalDay(q.now))|, |After(Contents(), q.membership, q.now - WEEK)|;
      var outcome, grant, due := Suppressed, None, None;
      if daily < 1 && weekly < 3 {
        grant := picked;
        if grant.None? {
          outcome := AuthorizationMissing;
        } else {
          outcome, due := Pending, Some(DueAt(q.now));
        }
      }
      notifications := notifications[q.notification := Notification(q.membership, Marketing, q.happening)];
      deliveries := deliveries[q.delivery := Delivery(q.notification, grant, outcome, 0, due, None, None, q.now)];
      if outcome == Pending {
        grants := grants[grant.value := grants[grant.value].(status := Consumed)];
      }
      return Id(q.notification);
    }

    /** `ok` is false when the constraint on the token fails. */
    method Lease(d: Uuid, token: Option<Uuid>, now: int) returns (ok: bool, granted: bool)
      modifies this`deliveries
      ensures match LeaseStep(old(Contents()), d, token, now)
              case None => !ok && Contents() == old(Contents())
              case Some(r) => ok && (Contents(), granted) == r
    {
      if d !in deliveries || !Attemptable(deliveries[d], now) {
        return true, false;
      }
      if Unwelcome(Contents(), d) {
        deliveries := deliveries[d :=
            deliveries[d].(status := Suppressed, nextAttempt := None, lease := None, leaseUntil := None)];
        return true, false;
      }
      var row := deliveries[d].(status := Delivering, lease := token, leaseUntil := Some(now + 30 * SECOND));
      if row.lease.None? {
        return false, false;
      }
      deliveries := deliveries[d := row];
      return true, true;
    }

    method Report(q: ResultRequest) returns (ok: bool)
      modifies this`deliveries
      ensures match ResultStep(old(Contents()), q)
              case None => !ok && Contents() == old(Contents())
              case Some(u) => ok && Contents() == u
    {
      if (q.result == AcceptedResult && (!q.messageRef || q.errorCode))
         || (q.result in {TransientFailure, PermanentFailure} && (!q.errorCode || q.messageRef)) {
        return false;
      }
      if !HoldsLease(Contents(), q) {
        return false;
      }
      var row := deliveries[q.delivery];
      var attempt := row.attempts + 1;
      row := row.(attempts := attempt, nextAttempt := None, lease := None, leaseUntil := None);
      if q.result == AcceptedResult {
        row := row.(status := Accepted);
      } else if q.result == PermanentFailure || attempt >= 3 {
        row := row.(status := Exhausted);
      } else if q.result == TransientFailure {
        var pause := 5 * MINUTE * Doubled(if attempt >= 1 then attempt - 1 else 0);
        row := row.(status := Failed, nextAttempt := Some(q.now + pause));
      } else {
        return false;
      }
      if !DeliveryChecks(row) {
        return false;
      }
      deliveries := deliveries[q.delivery := row];
      return true;
    }

    /** The preference update with its trigger, then the function's own updates. */
    method Unsubscribe(m: Uuid)
      modifies this
      ensures Contents() == UnsubscribeStep(old(Contents()), m)
    {
      var before := if m in preferences then preferences[m] else Preference(false, None);
      preferences := preferences[m := before.(enabled := false)];
      if before.enabled {
        deliveries := Cancelled(Contents(), {m});
      }
      SweepMember(m);
    }

    /** The function's own two updates. */
    method SweepMember(m: Uuid)
      modifies this`grants, this`deliveries
      ensures Contents() == old(Contents()).(grants := Withdrawn(old(Contents()), {m}),
                                             deliveries := CancelledIdle(old(Contents()), m))
    {
      GrantsDoNotMatter(Contents(), Withdrawn(Contents(), {m}), m, {m});
      grants := Withdrawn(Contents(), {m});
      deliveries := CancelledIdle(Contents(), m);
    }

    /** The consent update with its trigger. */
    method ChangeConsent(id: Uuid, granted: bool, withdrawn: bool)
      modifies this
      ensures Contents() == ConsentStep(old(Contents()), id, granted, withdrawn)
    {
      if id in consents {
        var before := consents[id];
        consents := consents[id := before.(granted := granted, withdrawn := withdrawn)];
        if before.granted && !before.withdrawn && (!granted || withdrawn) {
          SameMembers(old(Contents()), consents, id);
          CancelFor(MembersOn(Contents(), id));
        }
      }
    }

    /** The two updates of the withdrawal trigger. */
    method CancelFor(members: set<Uuid>)
      modifies this`grants, this`deliveries
      ensures Contents() == old(Contents()).(grants := Withdrawn(old(Contents()), members),
                                             deliveries := Cancelled(old(Contents()), members))
    {
      GrantsDoNotMatter(Contents(), Withdrawn(Contents(), members), 0, members);
      grants := Withdrawn(Contents(), members);
      deliveries := Cancelled(Contents(), members);
    }
  }
}
