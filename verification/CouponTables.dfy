/** The coupon authority functions as they run: statement by statement against the
    three tables, with everything undone when a request is refused. */
module CouponTables {
  import opened Sql
  import opened CouponAuthority

  class Tables {
    var rules: map<Uuid, Rule>
    var coupons: map<Uuid, Coupon>
    var events: seq<Event>

    constructor ()
      ensures Contents() == EMPTY
    {
      rules, coupons, events := map[], map[], [];
    }

    function Contents(): Store
      reads this
    {
      Store(rules, coupons, events)
    }

    /** The idempotency lookup, newest event first. */
    method FindPrior(key: string) returns (prior: Option<Event>)
      ensures prior == Prior(events, key)
    {
      var i := |events|;
      assert events[..i] == events;
      while i > 0
        invariant 0 <= i <= |events|
        invariant Prior(events, key) == Prior(events[..i], key)
      {
        assert events[..i][..i - 1] == events[..i - 1];
        i := i - 1;
        if events[i].key == key { return Some(events[i]); }
      }
      prior := None;
    }

    method MutateRule(q: RuleRequest) returns (outcome: Outcome)
      modifies this
      ensures (Contents(), outcome) == RuleStep(old(Contents()), q)
    {
      if q.action == UnknownRuleAction || !Keyed(q.key, q.digest) { return Refused(InvalidRequest); }
      var prior := FindPrior(q.key.value);
      if prior.Some? {
        var e := prior.value;
        if !e.RuleEvent? || e.ruleAction != q.action || e.digest != q.digest.value {
          return Refused(IdempotencyConflict);
        }
        return Done(e.rule);
      }
      var before: Option<RuleStatus> := None;
      var row: Rule;
      if q.action == Create {
        if q.terms.benefit.Some? && q.terms.benefit.value !in q.around.couponBenefits {
          return Refused(BenefitInvalid);
        }
        row := NewRule(q);
        if q.rule in rules || !RuleFits(q) || !RuleUnique(Contents(), row.terms) { return Refused(ConstraintViolated); }
      } else {
        if q.rule !in rules { return Refused(NotFound); }
        var current := rules[q.rule];
        before := Some(current.status);
        if || (q.action == Publish && current.status != Draft)
           || (q.action == Pause && current.status != Published)
           || (q.action == Resume && current.status != Paused)
           || (q.action == End && current.status !in {Published, Paused}) {
          return Refused(RuleTransitionInvalid);
        }
        row := current.(status := RuleTarget(q.action));
        if q.action == Publish { row := row.(publishedAt := Some(q.now)); }
        if q.action == End { row := row.(endedAt := Some(q.now)); }
        if !RuleTrigger(current, row) { return Refused(ConstraintViolated); }
      }
      if !RuleChecks(row) { return Refused(ConstraintViolated); }
      if !KeyWritable(Contents(), q.key.value, q.event) { return Refused(ConstraintViolated); }
      rules := rules[q.rule := row];
      events := events + [RuleEvent(q.event.value, Stored(q.key.value, KEY_WIDTH).value, q.digest.value, q.action,
                                    q.rule, before, row.status)];
      return Done(q.rule);
    }

    /** The event INSERT; a partial refund names the columns of its own function. */
    method Log(q: CouponRequest, rule: Uuid, coupon: Uuid, before: Option<CouponStatus>, after: CouponStatus,
               discount: Option<int>) returns (ok: bool)
      requires Keyed(q.key, q.digest)
      modifies this`events
      ensures ok == EventWritable(old(Contents()), q)
      ensures events == if ok then Logged(old(Contents()), q, rule, coupon, before, after, discount) else old(events)
    {
      var order, store, actor, reason := NullIfEmpty(q.order), q.store, "service", NullIfEmpty(q.reason);
      if NullIfEmpty(q.actor).Some? { actor := q.actor.value; }
      if q.action == RecordPartialRefund { order, store, actor, reason := q.order, None, "service", None; }
      if !KeyWritable(Contents(), q.key.value, q.event) { return false; }
      if !Fits(order, ORDER_WIDTH) || !Fits(reason, REASON_WIDTH) { return false; }
      if (store.Some? && store.value !in q.around.stores) || actor !in ACTORS { return false; }
      var note := Remark(Kept(order, ORDER_WIDTH), store, actor, Kept(reason, REASON_WIDTH));
      events := events + [CouponEvent(q.event.value, Stored(q.key.value, KEY_WIDTH).value, q.digest.value, q.action,
                                      rule, coupon, before, after, note, discount)];
      return true;
    }

    method IssueCoupon(q: CouponRequest) returns (outcome: Outcome)
      requires Keyed(q.key, q.digest) && q.action == Issue
      modifies this
      ensures (Contents(), outcome) == IssueStep(old(Contents()), q)
    {
      if q.rule !in rules || rules[q.rule].status != Published
         || rules[q.rule].issuedCount >= rules[q.rule].terms.issuanceLimit {
        return Refused(RuleNotIssuable);
      }
      var rule := rules[q.rule];
      if q.membership.None? || q.membership.value !in q.around.activeMembers { return Refused(MembershipRequired); }
      var active := ActiveCoupons(coupons, q.membership.value, q.rule);
      if |active| > 0 {
        var found := Chosen(active);
        var noted := Log(q, q.rule, found, Some(coupons[found].status), coupons[found].status, None);
        return if noted then Done(found) else Refused(ConstraintViolated);
      }
      var from := IssuedFrom(rule.terms, q.now);
      var until := IssuedUntil(rule.terms, q.now);
      if until.None? || until.value <= q.now { return Refused(ValidityExhausted); }
      if from.None? || !CouponInsertable(Contents(), q) { return Refused(ConstraintViolated); }
      var row := NewCouponRow(Contents(), q, from.value, until.value);
      if !CouponChecks(row) { return Refused(ConstraintViolated); }
      var savedCoupons, savedRules := coupons, rules;
      coupons := coupons[q.coupon := row];
      var counted := rule.(issuedCount := rule.issuedCount + 1);
      var ok := RuleTrigger(rule, counted) && RuleChecks(counted);
      if ok {
        rules := rules[q.rule := counted];
        ok := Log(q, q.rule, q.coupon, None, Available, None);
      }
      if !ok {
        coupons, rules := savedCoupons, savedRules;
        return Refused(ConstraintViolated);
      }
      return Done(q.coupon);
    }

    method ReserveCoupon(q: CouponRequest, c: Coupon, t: Terms) returns (decision: Decision)
      requires q.action == Reserve
      ensures decision == Decide(c, t, q)
    {
      if Differs(Some(c.membership), q.membership).Taken() { return Refuse(MembershipMismatch); }
      if t.channelScope != "online" && t.channelScope != "both" { return Refuse(ChannelNotAllowed); }
      if c.authority.External? && !c.authority.synchronized { return Refuse(ExternalPending); }
      if c.status == Reserved && c.reservedOrder.Some? && c.reservedOrder == q.order { return Note; }
      if c.status != Available || c.validFrom > q.now || c.validUntil <= q.now { return Refuse(NotAvailable); }
      if Below(q.goodsMinor, Some(t.minimumSpendMinor)).Taken() || Below(q.eligibleMinor, Some(1)).Taken() {
        return Refuse(OrderNotEligible);
      }
      var discount := t.amountMinor;
      if q.eligibleMinor.Some? && q.eligibleMinor.value < discount { discount := q.eligibleMinor.value; }
      if q.goodsMinor.Some? && q.goodsMinor.value - 1 < discount { discount := q.goodsMinor.value - 1; }
      if discount <= 0 { return Refuse(OrderNotEligible); }
      return Write(c.(status := Reserved, reservedOrder := q.order,
                      reservationExpires := Some(q.now + RESERVATION_SECONDS), reservedDiscount := Some(discount),
                      version := c.version + 1), Some(discount));
    }

    method CommitCoupon(q: CouponRequest, c: Coupon, t: Terms) returns (decision: Decision)
      requires q.action == Commit
      ensures decision == Decide(c, t, q)
    {
      if c.status != Reserved || Differs(c.reservedOrder, q.order).Taken() { return Refuse(ReservationMismatch); }
      if c.reservationExpires.Some? && c.reservationExpires.value <= q.now { return Refuse(ReservationExpired); }
      var row := c.(status := Used, usedOrder := q.order, usedAt := Some(q.now));
      row := row.(reservedOrder := None, reservationExpires := None, reservedDiscount := None);
      return Write(row.(version := row.version + 1), None);
    }

    method ReleaseCoupon(q: CouponRequest, c: Coupon, t: Terms) returns (decision: Decision)
      requires q.action == Release
      ensures decision == Decide(c, t, q)
    {
      if c.status != Reserved || Differs(c.reservedOrder, q.order).Taken() { return Refuse(ReservationMismatch); }
      var next := Expired;
      if c.validUntil > q.now { next := Available; }
      var row := c.(status := next, reservedOrder := None, reservationExpires := None, reservedDiscount := None);
      return Write(row.(version := row.version + 1), None);
    }

    method ReverseCoupon(q: CouponRequest, c: Coupon, t: Terms) returns (decision: Decision)
      requires q.action == Reverse
      ensures decision == Decide(c, t, q)
    {
      if c.status != Used || Differs(c.usedOrder, q.order).Taken() { return Refuse(UseMismatch); }
      var next := Expired;
      if c.validUntil > q.now { next := Available; }
      var row := c.(status := next, usedOrder := None, usedStore := None, usedAt := None);
      return Write(row.(version := row.version + 1), None);
    }

    method RedeemInStore(q: CouponRequest, c: Coupon, t: Terms) returns (decision: Decision)
      requires q.action == StoreRedeem
      ensures decision == Decide(c, t, q)
    {
      if Differs(Some(c.membership), q.membership).Taken() { return Refuse(MembershipMismatch); }
      if t.channelScope != "store" && t.channelScope != "both" { return Refuse(ChannelNotAllowed); }
      if c.authority.External? && !c.authority.synchronized { return Refuse(ExternalPending); }
      if c.status != Available || c.validFrom > q.now || c.validUntil <= q.now { return Refuse(NotAvailable); }
      var open := false;
      if q.store.Some? && q.store.value in q.around.stores { open := q.around.stores[q.store.value]; }
      if !open { return Refuse(StoreNotActive); }
      return Write(c.(status := Used, usedStore := q.store, usedAt := Some(q.now), version := c.version + 1), None);
    }

    method ExpireCoupon(q: CouponRequest, c: Coupon, t: Terms) returns (decision: Decision)
      requires q.action == Expire
      ensures decision == Decide(c, t, q)
    {
      if (c.status != Available && c.status != Reserved) || c.validUntil > q.now { return Refuse(NotExpirable); }
      var row := c.(status := Expired, reservedOrder := None, reservationExpires := None, reservedDiscount := None);
      return Write(row.(version := row.version + 1), None);
    }

    method RevokeCoupon(q: CouponRequest, c: Coupon, t: Terms) returns (decision: Decision)
      requires q.action == Revoke
      ensures decision == Decide(c, t, q)
    {
      if c.status != Available { return Refuse(NotRevocable); }
      var reason := "";
      if q.reason.Some? { reason := Trimmed(q.reason.value); }
      if reason == "" { return Refuse(RevokeReasonRequired); }
      return Write(c.(status := Revoked, revokedAt := Some(q.now), revokeReason := Some(reason),
                      version := c.version + 1), None);
    }

    method RecordRefund(q: CouponRequest, c: Coupon, t: Terms) returns (decision: Decision)
      requires q.action == RecordPartialRefund
      ensures decision == Decide(c, t, q)
    {
      if c.status != Used || Differs(c.usedOrder, q.order).Taken() { return Refuse(UseMismatch); }
      return Note;
    }

    method MutateCoupon(q: CouponRequest) returns (outcome: Outcome)
      modifies this
      ensures (Contents(), outcome) == CouponStep(old(Contents()), q)
    {
      if q.action == UnknownAction || !Keyed(q.key, q.digest) { return Refused(InvalidRequest); }
      var prior := FindPrior(q.key.value);
      if prior.Some? {
        var e := prior.value;
        if !e.CouponEvent? || e.action != q.action || e.digest != q.digest.value {
          return Refused(IdempotencyConflict);
        }
        return Done(e.coupon);
      }
      if q.action == Issue {
        outcome := IssueCoupon(q);
        return;
      }
      outcome := ChangeCoupon(q);
    }

    /** Every action but issuing: the branch, the UPDATE behind its CHECKs and trigger,
        the event. */
    method ChangeCoupon(q: CouponRequest) returns (outcome: Outcome)
      requires Keyed(q.key, q.digest) && q.action != Issue && q.action != UnknownAction
      modifies this
      ensures (Contents(), outcome) == ChangeStep(old(Contents()), q)
    {
      if q.coupon !in coupons || coupons[q.coupon].rule !in rules { return Refused(NotFound); }
      var c := coupons[q.coupon];
      var decision := RunBranch(q, c, rules[c.rule].terms);
      match decision {
        case Refuse(why) =>
          return Refused(why);
        case Note =>
          var noted := Log(q, c.rule, q.coupon, Some(c.status), c.status, None);
          return if noted then Done(q.coupon) else Refused(ConstraintViolated);
        case Write(row, discount) =>
          if !RowFits(row) { return Refused(ConstraintViolated); }
          var stored := StoredRow(row);
          if !CouponTrigger(c, stored) || !CouponChecks(stored) { return Refused(ConstraintViolated); }
          var saved := coupons;
          coupons := coupons[q.coupon := stored];
          var logged := Log(q, c.rule, q.coupon, Some(c.status), row.status, discount);
          if !logged {
            coupons := saved;
            return Refused(ConstraintViolated);
          }
          return Done(q.coupon);
      }
    }

    method RunBranch(q: CouponRequest, c: Coupon, t: Terms) returns (decision: Decision)
      requires q.action != Issue && q.action != UnknownAction
      ensures decision == Decide(c, t, q)
    {
      match q.action {
        case Reserve => decision := ReserveCoupon(q, c, t);
        case Commit => decision := CommitCoupon(q, c, t);
        case Release => decision := ReleaseCoupon(q, c, t);
        case Reverse => decision := ReverseCoupon(q, c, t);
        case StoreRedeem => decision := RedeemInStore(q, c, t);
        case Expire => decision := ExpireCoupon(q, c, t);
        case Revoke => decision := RevokeCoupon(q, c, t);
        case RecordPartialRefund => decision := RecordRefund(q, c, t);
      }
    }
  }
}
