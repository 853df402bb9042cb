/** What each coupon and rule request asks for and what it leaves behind, written out on
    the rows and the log: acceptance in every reachable state, the row it writes, and what
    becomes of a coupon that was given back. Times are seconds. */
module CouponOutcomes {
  import opened Sql
  import opened CouponAuthority
  import opened CouponLaws

  // ---------------------------------------------------------------------------
  // The event row

  /** The text goes into a column of this width, over-long only by spaces. */
  predicate Recordable(text: string, width: nat) {
    forall i :: width <= i < |text| ==> text[i] == ' '
  }

  predicate RecordableIfGiven(text: Option<string>, width: nat) {
    text.Some? && text.value != "" ==> Recordable(text.value, width)
  }

  function Cut(text: string, width: nat): string {
    if |text| <= width then text else text[..width]
  }

  /** An empty text is recorded as NULL. */
  function CutIfGiven(text: Option<string>, width: nat): Option<string> {
    if text.Some? && text.value != "" then Some(Cut(text.value, width)) else None
  }

  /** A key, a digest of 64 characters, an event id nobody has used, and a key that is not on
      record, neither as given nor as it would be recorded. */
  predicate FreshKeyed(s: Store, key: Option<string>, digest: Option<string>, event: Option<Uuid>) {
    && key.Some? && key.value != "" && digest.Some? && |digest.value| == 64 && event.Some?
    && Recordable(key.value, 120)
    && forall i :: 0 <= i < |s.events| ==>
         s.events[i].id != event.value && s.events[i].key != key.value && s.events[i].key != Cut(key.value, 120)
  }

  lemma {:induction false} PriorIff(events: seq<Event>, key: string)
    ensures Prior(events, key).None? <==> forall i :: 0 <= i < |events| ==> events[i].key != key
    decreases |events|
  {
    if events != [] {
      var rest := events[..|events| - 1];
      PriorIff(rest, key);
      assert forall i :: 0 <= i < |rest| ==> rest[i] == events[i];
    }
  }

  lemma StoredIff(text: string, width: nat)
    ensures Stored(text, width).Some? <==> Recordable(text, width)
    ensures Stored(text, width).Some? ==> Stored(text, width).value == Cut(text, width)
  {
    if |text| > width {
      assert forall i :: width <= i < |text| ==> text[i] == text[width..][i - width];
    }
  }

  /** Who acted, on which order, in which store and why, as far as the columns take it. */
  predicate Describable(q: CouponRequest) {
    if q.action == RecordPartialRefund then q.order.Some? ==> Recordable(q.order.value, 160)
    else
      && RecordableIfGiven(q.order, 160) && RecordableIfGiven(q.reason, 500)
      && (q.store.Some? ==> q.store.value in q.around.stores)
      && (q.actor.Some? && q.actor.value != "" ==> q.actor.value in {"consumer", "store", "brand", "service", "system"})
  }

  /** What the log says of it; without an actor it was a service. A partial refund keeps its
      order alone. */
  function Described(q: CouponRequest): Remark {
    if q.action == RecordPartialRefund then
      Remark(if q.order.Some? then Some(Cut(q.order.value, 160)) else None, None, "service", None)
    else
      Remark(CutIfGiven(q.order, 160), q.store,
             if q.actor.Some? && q.actor.value != "" then q.actor.value else "service", CutIfGiven(q.reason, 500))
  }

  predicate Fresh(s: Store, q: CouponRequest) {
    FreshKeyed(s, q.key, q.digest, q.event) && Describable(q)
  }

  lemma FreshIff(s: Store, q: CouponRequest)
    ensures Fresh(s, q) <==> Keyed(q.key, q.digest) && Prior(s.events, q.key.value).None? && EventWritable(s, q)
    ensures Fresh(s, q) ==> RemarkOf(s, q) == Described(q)
                            && Stored(q.key.value, KEY_WIDTH) == Some(Cut(q.key.value, 120))
  {
    if Keyed(q.key, q.digest) {
      PriorIff(s.events, q.key.value);
      StoredIff(q.key.value, 120);
      PriorIff(s.events, Cut(q.key.value, 120));
      if q.order.Some? { StoredIff(q.order.value, 160); }
      if q.reason.Some? { StoredIff(q.reason.value, 500); }
    }
  }

  /** The log gains this one event. */
  predicate Logs(s: Store, u: Store, q: CouponRequest, rule: Uuid, coupon: Uuid, before: Option<CouponStatus>,
                 after: CouponStatus, discount: Option<int>) {
    && q.event.Some? && q.key.Some? && q.digest.Some?
    && u.events == s.events + [CouponEvent(q.event.value, Cut(q.key.value, 120), q.digest.value, q.action, rule, coupon,
                                           before, after, Described(q), discount)]
  }

  /** The coupon has this row afterwards, nothing else has changed, and it is logged. */
  predicate Rewrites(s: Store, u: Store, q: CouponRequest, row: Coupon, discount: Option<int>)
    requires q.coupon in s.coupons
  {
    && u.rules == s.rules && u.coupons == s.coupons[q.coupon := row]
    && Logs(s, u, q, s.coupons[q.coupon].rule, q.coupon, Some(s.coupons[q.coupon].status), row.status, discount)
  }

  predicate OnlyLogs(s: Store, u: Store, q: CouponRequest)
    requires q.coupon in s.coupons
  {
    && u.rules == s.rules && u.coupons == s.coupons
    && Logs(s, u, q, s.coupons[q.coupon].rule, q.coupon, Some(s.coupons[q.coupon].status),
            s.coupons[q.coupon].status, None)
  }

  // ---------------------------------------------------------------------------
  // Reserving

  /** A request that names a membership names the coupon's own. */
  predicate OwnCoupon(c: Coupon, q: CouponRequest) {
    q.membership.Some? ==> q.membership.value == c.membership
  }

  predicate Valid(c: Coupon, now: int) {
    c.validFrom <= now && now < c.validUntil
  }

  /** Each subtotal that is given suffices: the goods for the minimum spend and for paying
      something, the eligible goods for taking something off. */
  predicate Eligible(t: Terms, q: CouponRequest) {
    && (q.goodsMinor.Some? ==> q.goodsMinor.value >= t.minimumSpendMinor && q.goodsMinor.value >= 2)
    && (q.eligibleMinor.Some? ==> q.eligibleMinor.value >= 1)
  }

  /** The coupon is for online orders, and no connector has still to confirm it. */
  predicate Online(c: Coupon, t: Terms) {
    (t.channelScope == "online" || t.channelScope == "both") && (c.authority.External? ==> c.authority.synchronized)
  }

  /** The largest amount off that each given subtotal allows. */
  predicate Discount(t: Terms, q: CouponRequest, d: int) {
    && d <= t.amountMinor && (q.eligibleMinor.Some? ==> d <= q.eligibleMinor.value)
    && (q.goodsMinor.Some? ==> d < q.goodsMinor.value)
    && (d == t.amountMinor || q.eligibleMinor == Some(d) || q.goodsMinor == Some(d + 1))
  }

  /** The row of an accepted reservation: for fifteen minutes, for this order. */
  function ReservedRow(c: Coupon, q: CouponRequest, d: int): Coupon
    requires q.order.Some?
  {
    c.(status := Reserved, reservedOrder := Some(Cut(q.order.value, 160)), reservationExpires := Some(q.now + 900),
       reservedDiscount := Some(d), version := c.version + 1)
  }

  predicate MayReserve(c: Coupon, t: Terms, q: CouponRequest) {
    && OwnCoupon(c, q) && Online(c, t) && q.order.Some?
    && (|| (c.status == Reserved && c.reservedOrder == q.order)
        || (c.status == Available && Valid(c, q.now) && Eligible(t, q) && Recordable(q.order.value, 160)))
  }

  /** A reservation is accepted if and only if the coupon is the member's, for online orders
      and confirmed, an order is named, and either that very order holds it already or it is
      available, valid now and the order eligible. */
  lemma ReserveAcceptedIff(s: Store, q: CouponRequest)
    requires RowsInv(s) && q.action == Reserve && q.coupon in s.coupons && Fresh(s, q)
    ensures s.coupons[q.coupon].rule in s.rules
    ensures var c := s.coupons[q.coupon];
            CouponStep(s, q).1.Done? <==> MayReserve(c, s.rules[c.rule].terms, q)
  {
    FreshIff(s, q);
    var c := s.coupons[q.coupon];
    assert CouponRow(s.rules, c) && RuleChecks(s.rules[c.rule]);
    LateRefusalIff(s, ForCoupon(q));
    if q.order.Some? {
      StoredIff(q.order.value, 160);
    }
  }

  /** The row the decision asks for is this one once it is stored. */
  lemma DecidedReservation(c: Coupon, t: Terms, q: CouponRequest)
    requires q.action == Reserve && q.order.Some? && Decide(c, t, q).Write? && RowFits(Decide(c, t, q).row)
    requires c.usedOrder.None? && c.revokeReason.None?
    ensures var d := Decide(c, t, q);
            && d.discount.Some? && Discount(t, q, d.discount.value) && d.row.status == Reserved && c.status != Reserved
            && StoredRow(d.row) == ReservedRow(c, q, d.discount.value)
  {
    StoredIff(q.order.value, 160);
  }

  lemma ReserveWrites(s: Store, q: CouponRequest)
    requires RowsInv(s) && q.action == Reserve && q.coupon in s.coupons && Fresh(s, q) && CouponStep(s, q).1.Done?
    ensures var c, u := s.coupons[q.coupon], CouponStep(s, q).0;
            && c.rule in s.rules
            && if c.status == Reserved then OnlyLogs(s, u, q)
               else q.order.Some? && exists d :: Discount(s.rules[c.rule].terms, q, d)
                                                 && Rewrites(s, u, q, ReservedRow(c, q, d), Some(d))
  {
    FreshIff(s, q);
    ReserveAcceptedIff(s, q);
    var c := s.coupons[q.coupon];
    assert CouponRow(s.rules, c);
    var decision := Decide(c, s.rules[c.rule].terms, q);
    if decision.Write? {
      DecidedReservation(c, s.rules[c.rule].terms, q);
      assert Rewrites(s, CouponStep(s, q).0, q, ReservedRow(c, q, decision.discount.value), decision.discount);
    }
  }

  // ---------------------------------------------------------------------------
  // The other actions on a coupon

  /** No order is named, or none is known, or it is the one named. */
  predicate OrderAgrees(known: Option<string>, named: Option<string>) {
    known.None? || named.None? || known.value == named.value
  }

  predicate HasReason(q: CouponRequest) {
    q.reason.Some? && exists i :: 0 <= i < |q.reason.value| && q.reason.value[i] != ' '
  }

  predicate InOpenStore(q: CouponRequest) {
    q.store.Some? && q.store.value in q.around.stores && q.around.stores[q.store.value]
  }

  /** The coupon is for stores, and no connector has still to confirm it. */
  predicate ForStores(c: Coupon, t: Terms) {
    (t.channelScope == "store" || t.channelScope == "both") && (c.authority.External? ==> c.authority.synchronized)
  }

  predicate MayChange(c: Coupon, t: Terms, q: CouponRequest) {
    match q.action
    case Reserve => MayReserve(c, t, q)
    case Commit =>
      && c.status == Reserved && q.order.Some? && c.reservedOrder == q.order
      && (c.reservationExpires.Some? ==> q.now < c.reservationExpires.value)
    case Release => c.status == Reserved && OrderAgrees(c.reservedOrder, q.order)
    case Reverse => c.status == Used && OrderAgrees(c.usedOrder, q.order)
    case StoreRedeem =>
      OwnCoupon(c, q) && ForStores(c, t) && c.status == Available && Valid(c, q.now) && InOpenStore(q)
    case Expire => (c.status == Available || c.status == Reserved) && c.validUntil <= q.now
    case Revoke => c.status == Available && HasReason(q)
    case RecordPartialRefund => c.status == Used && OrderAgrees(c.usedOrder, q.order)
    case _ => false
  }

  /** Free of its reservation, in another status. */
  function Freed(c: Coupon, status: CouponStatus): Coupon {
    c.(status := status, reservedOrder := None, reservationExpires := None, reservedDiscount := None,
       version := c.version + 1)
  }

  /** Given back, a coupon is available as long as it is valid, and expired from then on. */
  function Returned(c: Coupon, now: int): CouponStatus {
    if now < c.validUntil then Available else Expired
  }

  /** The row of an accepted change but for reservations. */
  function ChangedRow(c: Coupon, q: CouponRequest): Coupon {
    match q.action
    case Commit =>
      Freed(c, Used).(usedOrder := if q.order.Some? then Some(Cut(q.order.value, 160)) else None, usedAt := Some(q.now))
    case Release => Freed(c, Returned(c, q.now))
    case Reverse => Freed(c, Returned(c, q.now)).(usedOrder := None, usedStore := None, usedAt := None)
    case StoreRedeem => Freed(c, Used).(usedStore := q.store, usedAt := Some(q.now))
    case Expire => Freed(c, Expired)
    case Revoke =>
      Freed(c, Revoked).(revokedAt := Some(q.now),
                         revokeReason := if q.reason.Some? then Some(Cut(Trimmed(q.reason.value), 500)) else None)
    case _ => c
  }

  lemma {:induction false} TrimmedRightBlank(text: string)
    ensures TrimmedRight(text) == "" <==> forall i :: 0 <= i < |text| ==> text[i] == ' '
    decreases |text|
  {
    if text != "" && text[|text| - 1] == ' ' {
      var rest := text[..|text| - 1];
      TrimmedRightBlank(rest);
      assert forall i :: 0 <= i < |rest| ==> rest[i] == text[i];
    }
  }

  lemma TrimmedLeftBlank(text: string)
    ensures TrimmedLeft(text) == "" ==> forall i :: 0 <= i < |text| ==> text[i] == ' '
  {
  }

  lemma {:induction false} TrimmedRightEnds(text: string)
    ensures TrimmedRight(text) != "" ==> TrimmedRight(text)[|TrimmedRight(text)| - 1] != ' '
    decreases |text|
  {
    if text != "" && text[|text| - 1] == ' ' {
      TrimmedRightEnds(text[..|text| - 1]);
    }
  }

  lemma TrimmedBlank(text: string)
    ensures Trimmed(text) == "" <==> forall i :: 0 <= i < |text| ==> text[i] == ' '
  {
    TrimmedRightBlank(text);
    TrimmedRightEnds(text);
    TrimmedLeftBlank(TrimmedRight(text));
  }

  /** In every reachable state a fresh request on a coupon is accepted if and only if the
      coupon, the terms of its rule and the request say so. */
  lemma ChangeAcceptedIff(s: Store, q: CouponRequest)
    requires RowsInv(s) && q.action != Issue && q.coupon in s.coupons && Fresh(s, q)
    ensures s.coupons[q.coupon].rule in s.rules
    ensures var c := s.coupons[q.coupon];
            CouponStep(s, q).1.Done? <==> MayChange(c, s.rules[c.rule].terms, q)
  {
    FreshIff(s, q);
    var c := s.coupons[q.coupon];
    assert CouponRow(s.rules, c);
    if q.action == Reserve {
      ReserveAcceptedIff(s, q);
    } else {
      LateRefusalIff(s, ForCoupon(q));
      if q.reason.Some? {
        TrimmedBlank(q.reason.value);
      }
    }
  }

  /** The row the decision asks for is this one once it is stored. */
  lemma DecidedRow(c: Coupon, t: Terms, q: CouponRequest)
    requires CouponChecks(c) && q.action != Reserve && Decide(c, t, q).Write? && RowFits(Decide(c, t, q).row)
    ensures StoredRow(Decide(c, t, q).row) == ChangedRow(c, q) && Decide(c, t, q).discount == None
    ensures ChangedRow(c, q).status == Decide(c, t, q).row.status
  {
    if q.order.Some? {
      StoredIff(q.order.value, 160);
    }
    if q.action == Revoke {
      StoredIff(Trimmed(q.reason.value), 500);
    }
  }

  /** What it then writes: the row above, or for a partial refund nothing but the event. */
  lemma ChangeWrites(s: Store, q: CouponRequest)
    requires RowsInv(s) && q.action != Issue && q.action != Reserve && q.coupon in s.coupons && Fresh(s, q)
    requires CouponStep(s, q).1.Done?
    ensures var c, u := s.coupons[q.coupon], CouponStep(s, q).0;
            && c.rule in s.rules && CouponStep(s, q).1.id == q.coupon
            && if q.action == RecordPartialRefund then OnlyLogs(s, u, q) else Rewrites(s, u, q, ChangedRow(c, q), None)
  {
    FreshIff(s, q);
    var c := s.coupons[q.coupon];
    assert CouponRow(s.rules, c);
    var t := s.rules[c.rule].terms;
    if Decide(c, t, q).Write? {
      DecidedRow(c, t, q);
    }
  }

  // ---------------------------------------------------------------------------
  // Giving a coupon back

  /** Accepted for the first time under its key. */
  predicate FirstAccepted(s: Store, q: CouponRequest) {
    q.key.Some? && CouponStep(s, q).1.Done? && forall i :: 0 <= i < |s.events| ==> s.events[i].key != q.key.value
  }

  lemma FirstAcceptedIsFresh(s: Store, q: CouponRequest)
    requires FirstAccepted(s, q) && q.action != Issue
    ensures Fresh(s, q) && q.coupon in s.coupons && s.coupons[q.coupon].rule in s.rules
  {
    PriorIff(s.events, q.key.value);
    FreshIff(s, q);
  }

  /** A released or reversed coupon is available again if and only if it is still valid, and
      has expired otherwise; the log says the same. */
  lemma ReturnedByValidity(s: Store, q: CouponRequest)
    requires RowsInv(s) && q.action in {Release, Reverse} && FirstAccepted(s, q)
    ensures q.coupon in s.coupons
    ensures var u := CouponStep(s, q).0;
            && q.coupon in u.coupons && u.coupons[q.coupon].validUntil == s.coupons[q.coupon].validUntil
            && (u.coupons[q.coupon].status == Available <==> q.now < u.coupons[q.coupon].validUntil)
            && (u.coupons[q.coupon].status == Expired <==> q.now >= u.coupons[q.coupon].validUntil)
            && |u.events| == |s.events| + 1 && u.events[|s.events|].CouponEvent?
            && u.events[|s.events|].after == u.coupons[q.coupon].status
  {
    FirstAcceptedIsFresh(s, q);
    ChangeWrites(s, q);
  }

  /** An available coupon that is valid is reserved for any eligible order. */
  lemma AvailableReserves(t: Store, p: CouponRequest)
    requires RowsInv(t) && p.action == Reserve && p.coupon in t.coupons && Fresh(t, p) && p.order.Some?
    requires var c := t.coupons[p.coupon];
             && c.status == Available && Valid(c, p.now) && c.rule in t.rules && OwnCoupon(c, p)
             && Online(c, t.rules[c.rule].terms) && Eligible(t.rules[c.rule].terms, p)
    ensures var u := CouponStep(t, p).0;
            && CouponStep(t, p).1.Done? && p.coupon in u.coupons && u.coupons[p.coupon].status == Reserved
            && u.coupons[p.coupon].reservedOrder == Some(Cut(p.order.value, 160))
  {
    OrderRecordable(p);
    ReserveAcceptedIff(t, p);
    ReserveWrites(t, p);
  }

  /** A coupon released while it is valid can be reserved again at that moment, by whoever
      may reserve it for an eligible order. */
  lemma ReleasedReservesAgain(s: Store, q: CouponRequest, p: CouponRequest)
    requires RowsInv(s) && q.action == Release && FirstAccepted(s, q)
    requires q.coupon in s.coupons && Valid(s.coupons[q.coupon], q.now)
    requires p.action == Reserve && p.coupon == q.coupon && p.now == q.now && Fresh(CouponStep(s, q).0, p)
    requires var c := s.coupons[q.coupon];
             && c.rule in s.rules && OwnCoupon(c, p) && Online(c, s.rules[c.rule].terms)
             && Eligible(s.rules[c.rule].terms, p) && p.order.Some?
    ensures var (u, answer) := CouponStep(CouponStep(s, q).0, p);
            && answer.Done? && q.coupon in u.coupons && u.coupons[q.coupon].status == Reserved
            && u.coupons[q.coupon].reservedOrder == Some(Cut(p.order.value, 160))
  {
    FirstAcceptedIsFresh(s, q);
    ChangeWrites(s, q);
    StepKeepsRows(s, ForCoupon(q));
    AvailableReserves(CouponStep(s, q).0, p);
  }

  lemma OrderRecordable(p: CouponRequest)
    requires p.action == Reserve && Describable(p) && p.order.Some?
    ensures Recordable(p.order.value, 160)
  {
  }

  /** An expired coupon takes no request. */
  lemma ExpiredTakesNothing(t: Store, p: CouponRequest)
    requires RowsInv(t) && p.action != Issue && p.coupon in t.coupons && t.coupons[p.coupon].status == Expired
    ensures !FirstAccepted(t, p)
  {
    if FirstAccepted(t, p) {
      FirstAcceptedIsFresh(t, p);
      ChangeAcceptedIff(t, p);
    }
  }

  lemma ReturnedLateExpires(s: Store, q: CouponRequest)
    requires RowsInv(s) && q.action in {Release, Reverse} && FirstAccepted(s, q)
    requires q.coupon in s.coupons && s.coupons[q.coupon].validUntil <= q.now
    ensures var u := CouponStep(s, q).0;
            RowsInv(u) && q.coupon in u.coupons && u.coupons[q.coupon].status == Expired
  {
    ReturnedByValidity(s, q);
    StepKeepsRows(s, ForCoupon(q));
  }

  /** One released or reversed when it is no longer valid is lost: it stays as it is over
      every run, and no request on it is accepted again but replays. */
  lemma ReturnedLateIsLost(s: Store, q: CouponRequest, later: seq<Request>, p: CouponRequest)
    requires RowsInv(s) && q.action in {Release, Reverse} && FirstAccepted(s, q)
    requires q.coupon in s.coupons && s.coupons[q.coupon].validUntil <= q.now
    ensures var t := Run(CouponStep(s, q).0, later);
            && q.coupon in CouponStep(s, q).0.coupons
            && q.coupon in t.coupons && t.coupons[q.coupon] == CouponStep(s, q).0.coupons[q.coupon]
            && t.coupons[q.coupon].status == Expired
            && (p.action != Issue && p.coupon == q.coupon ==> !FirstAccepted(t, p))
  {
    var u := CouponStep(s, q).0;
    ReturnedLateExpires(s, q);
    RunKeepsRows(u, later);
    TermsAndTerminalCouponsStay(u, later);
    if p.action != Issue && p.coupon == q.coupon {
      ExpiredTakesNothing(Run(u, later), p);
    }
  }

  // ---------------------------------------------------------------------------
  // Issuing

  /** The member has a coupon of this rule that is available or reserved. */
  predicate HasOpen(s: Store, m: Uuid, rule: Uuid, c: Uuid) {
    && c in s.coupons && s.coupons[c].membership == m && s.coupons[c].rule == rule
    && (s.coupons[c].status == Available || s.coupons[c].status == Reserved)
  }

  /** The validity a coupon issued now gets from the terms: so many days from now, or the
      period the terms fix. */
  predicate ValidFor(t: Terms, now: int, from: int, until: int) {
    if t.validityMode == "relative" then t.validDays.Some? && from == now && until == now + t.validDays.value * 86_400
    else t.fixedFrom == Some(from) && t.fixedUntil == Some(until)
  }

  predicate ValidPeriod(t: Terms, now: int) {
    if t.validityMode == "relative" then t.validDays.Some? && t.validDays.value > 0
    else t.fixedFrom.Some? && t.fixedUntil.Some? && t.fixedUntil.value > now
  }

  /** `RCP-` and sixteen upper-case hexadecimal digits. */
  predicate CouponNumber(number: string) {
    && |number| == 20 && number[0] == 'R' && number[1] == 'C' && number[2] == 'P' && number[3] == '-'
    && forall i :: 4 <= i < 20 ==> number[i] in {'0', '1', '2', '3', '4', '5', '6', '7', '8', '9',
                                                 'A', 'B', 'C', 'D', 'E', 'F'}
  }

  /** Id, number and claim are unused, and what it names exists. */
  predicate NewlyNumbered(s: Store, q: CouponRequest) {
    && q.coupon !in s.coupons && q.number.Some? && CouponNumber(q.number.value)
    && (forall c :: c in s.coupons ==> s.coupons[c].number != q.number.value)
    && (q.source.claim.Some? ==>
          && q.source.claim.value in q.around.claims
          && forall c :: c in s.coupons ==> s.coupons[c].source.claim != q.source.claim)
    && (q.source.scanEvent.Some? <==> q.source.scanTime.Some?)
    && (q.source.scanEvent.Some? ==> (q.source.scanEvent.value, q.source.scanTime.value) in q.around.scans)
    && RecordableIfGiven(q.source.publicId, 20)
  }

  /** The rule is published and has coupons left, and the member is an active one. */
  predicate MayIssue(s: Store, q: CouponRequest) {
    && q.rule in s.rules && s.rules[q.rule].status == Published
    && s.rules[q.rule].issuedCount < s.rules[q.rule].terms.issuanceLimit
    && q.membership.Some? && q.membership.value in q.around.activeMembers
  }

  lemma ActiveIff(s: Store, m: Uuid, rule: Uuid)
    ensures |ActiveCoupons(s.coupons, m, rule)| > 0 <==> exists c :: HasOpen(s, m, rule, c)
    ensures forall c :: c in ActiveCoupons(s.coupons, m, rule) <==> HasOpen(s, m, rule, c)
  {
    var active := ActiveCoupons(s.coupons, m, rule);
    if forall c :: !HasOpen(s, m, rule, c) {
      forall c ensures c !in active {
        assert !HasOpen(s, m, rule, c);
      }
      assert active == {};
    } else {
      var c :| HasOpen(s, m, rule, c);
      assert c in active;
    }
  }

  lemma NumberIff(number: string)
    ensures CouponNumber(number) <==> NumberFormat(number)
  {
    if |number| == 20 {
      assert number[..4] == [number[0], number[1], number[2], number[3]];
    }
  }

  lemma InsertableIff(s: Store, q: CouponRequest)
    ensures NewlyNumbered(s, q) <==> CouponInsertable(s, q)
    ensures NewlyNumbered(s, q) ==>
              Kept(NullIfEmpty(q.source.publicId), PUBLIC_ID_WIDTH) == CutIfGiven(q.source.publicId, 20)
  {
    if q.number.Some? {
      NumberIff(q.number.value);
    }
    if q.source.publicId.Some? {
      StoredIff(q.source.publicId.value, 20);
    }
  }

  /** An issue is accepted if and only if the rule and the member allow it, and the member
      has an open coupon of the rule already or a new one can be numbered and is valid for
      some time from now on. */
  lemma IssueAcceptedIff(s: Store, q: CouponRequest)
    requires RowsInv(s) && q.action == Issue && Fresh(s, q)
    ensures CouponStep(s, q).1.Done?
            <==> && MayIssue(s, q)
                 && (|| (exists c :: HasOpen(s, q.membership.value, q.rule, c))
                     || (ValidPeriod(s.rules[q.rule].terms, q.now) && NewlyNumbered(s, q)))
  {
    FreshIff(s, q);
    LateRefusalIff(s, ForCoupon(q));
    InsertableIff(s, q);
    if MayIssue(s, q) {
      ActiveIff(s, q.membership.value, q.rule);
      assert RuleChecks(s.rules[q.rule]);
    }
  }

  /** A member with an open coupon gets that one and only an event. */
  lemma IssueFinds(s: Store, q: CouponRequest)
    requires RowsInv(s) && q.action == Issue && Fresh(s, q) && CouponStep(s, q).1.Done?
    requires q.membership.Some? && exists c :: HasOpen(s, q.membership.value, q.rule, c)
    ensures var (u, answer) := CouponStep(s, q);
            && HasOpen(s, q.membership.value, q.rule, answer.id) && u.rules == s.rules && u.coupons == s.coupons
            && Logs(s, u, q, q.rule, answer.id, Some(s.coupons[answer.id].status), s.coupons[answer.id].status, None)
  {
    FreshIff(s, q);
    ActiveIff(s, q.membership.value, q.rule);
  }

  /** The new coupon: the member's, under this rule and number, available, valid for as long
      as the terms say, and counted against the rule. */
  function NewRow(q: CouponRequest, from: int, until: int): Coupon
    requires q.membership.Some? && q.number.Some?
  {
    Coupon(q.membership.value, q.rule, q.number.value,
           Source(q.source.claim, q.source.scanEvent, q.source.scanTime, CutIfGiven(q.source.publicId, 20)),
           from, until, Platform, Available, 1, None, None, None, None, None, None, None, None)
  }

  lemma IssueWrites(s: Store, q: CouponRequest, from: int, until: int)
    requires RowsInv(s) && q.action == Issue && Fresh(s, q) && CouponStep(s, q).1.Done?
    requires q.membership.Some? && forall c :: !HasOpen(s, q.membership.value, q.rule, c)
    requires q.rule in s.rules && ValidFor(s.rules[q.rule].terms, q.now, from, until)
    ensures var (u, answer) := CouponStep(s, q);
            && answer.id == q.coupon && q.coupon !in s.coupons && q.number.Some?
            && u.coupons == s.coupons[q.coupon := NewRow(q, from, until)]
            && u.rules == s.rules[q.rule := s.rules[q.rule].(issuedCount := s.rules[q.rule].issuedCount + 1)]
            && Logs(s, u, q, q.rule, q.coupon, None, Available, None)
  {
    FreshIff(s, q);
    ActiveIff(s, q.membership.value, q.rule);
    InsertableIff(s, q);
  }

  // ---------------------------------------------------------------------------
  // Rules

  /** What each action makes of which rule: a draft is published, a published rule paused, a
      paused one resumed, and either of these ended. */
  predicate RuleGoes(before: RuleStatus, action: RuleAction, after: RuleStatus) {
    || (before == Draft && action == Publish && after == Published)
    || (before == Published && action == Pause && after == Paused)
    || (before == Paused && action == Resume && after == Published)
    || ((before == Published || before == Paused) && action == End && after == Ended)
  }

  lemma RuleFreshIff(s: Store, q: RuleRequest)
    ensures FreshKeyed(s, q.key, q.digest, q.event)
            <==> Keyed(q.key, q.digest) && Prior(s.events, q.key.value).None? && KeyWritable(s, q.key.value, q.event)
    ensures FreshKeyed(s, q.key, q.digest, q.event) ==> Stored(q.key.value, KEY_WIDTH) == Some(Cut(q.key.value, 120))
  {
    if q.key.Some? {
      PriorIff(s.events, q.key.value);
      StoredIff(q.key.value, 120);
      PriorIff(s.events, Cut(q.key.value, 120));
    }
  }

  /** In every reachable state a fresh request to move a rule on is accepted if and only if
      the rule is in a status this action starts from. It then is in the status the action
      leads to, published or ended now if that is what happened, and otherwise unchanged. */
  lemma RuleMovesIff(s: Store, q: RuleRequest)
    requires RowsInv(s) && q.action in {Publish, Pause, Resume, End} && FreshKeyed(s, q.key, q.digest, q.event)
    ensures RuleStep(s, q).1.Done?
            <==> q.rule in s.rules && exists after :: RuleGoes(s.rules[q.rule].status, q.action, after)
    ensures RuleStep(s, q).1.Done? ==>
              var u, before := RuleStep(s, q).0, s.rules[q.rule];
              && q.rule in u.rules && RuleGoes(before.status, q.action, u.rules[q.rule].status)
              && u.coupons == s.coupons
              && u.rules == s.rules[q.rule := Rule(before.terms, before.issuedCount, u.rules[q.rule].status,
                                                   if q.action == Publish then Some(q.now) else before.publishedAt,
                                                   if q.action == End then Some(q.now) else before.endedAt)]
              && u.events == s.events + [RuleEvent(q.event.value, Cut(q.key.value, 120), q.digest.value, q.action,
                                                   q.rule, Some(before.status), u.rules[q.rule].status)]
  {
    RuleFreshIff(s, q);
    LateRefusalIff(s, ForRule(q));
    if q.rule in s.rules && RuleMoves(q.action, s.rules[q.rule].status) {
      assert RuleGoes(s.rules[q.rule].status, q.action, RuleTarget(q.action));
    }
  }

  lemma {:induction false} TrimmedLeftKeepsEnd(text: string)
    ensures TrimmedLeft(text) != "" ==> text != "" && TrimmedLeft(text)[|TrimmedLeft(text)| - 1] == text[|text| - 1]
    decreases |text|
  {
    if text != "" && text[0] == ' ' {
      TrimmedLeftKeepsEnd(text[1..]);
    }
  }

  /** Trimmed text has nothing to cut off. */
  lemma TrimmedStoredIff(text: string, width: nat)
    ensures Stored(Trimmed(text), width).Some? <==> |Trimmed(text)| <= width
  {
    TrimmedRightEnds(text);
    TrimmedLeftKeepsEnd(TrimmedRight(text));
    StoredIff(Trimmed(text), width);
    if |Trimmed(text)| > width {
      assert Trimmed(text)[|Trimmed(text)| - 1] != ' ';
    }
  }

  /** Terms that can be sold: a positive amount, no minimum spend or one above the amount,
      known scopes, a positive limit and a period that can be told. */
  predicate Sellable(t: Terms) {
    && t.version >= 1 && t.amountMinor >= 1 && (t.minimumSpendMinor == 0 || t.minimumSpendMinor > t.amountMinor)
    && (t.productScope == "all" || t.productScope == "specified")
    && (t.channelScope == "online" || t.channelScope == "store" || t.channelScope == "both") && t.issuanceLimit >= 1
    && (|| (t.validityMode == "relative" && t.fixedFrom.None? && t.fixedUntil.None?
            && (t.validDays.Some? ==> 1 <= t.validDays.value <= 365))
        || (t.validityMode == "fixed" && t.validDays.None? && t.fixedFrom.Some?
            && (t.fixedUntil.Some? ==> t.fixedFrom.value < t.fixedUntil.value)))
  }

  /** The key and version are new, the benefit, if one is named, exists and has no rule yet,
      and the columns take what is given. */
  predicate Creatable(s: Store, q: RuleRequest) {
    && q.complete && q.rule !in s.rules
    && 1 <= |Trimmed(q.terms.ruleKey)| <= 64 && |Trimmed(q.terms.name)| <= 200
    && (q.terms.benefit.Some? ==> q.terms.benefit.value in q.around.couponBenefits)
    && (q.terms.createdBy.Some? ==> q.terms.createdBy.value in q.around.accounts)
    && forall r :: r in s.rules ==>
         && (s.rules[r].terms.ruleKey != Trimmed(q.terms.ruleKey) || s.rules[r].terms.version != q.terms.version)
         && (q.terms.benefit.None? || s.rules[r].terms.benefit != q.terms.benefit)
  }

  /** A rule is created, as a draft that has issued nothing, if and only if its terms can be
      sold and the row is new. */
  lemma RuleCreatedIff(s: Store, q: RuleRequest)
    requires q.action == Create && FreshKeyed(s, q.key, q.digest, q.event)
    ensures RuleStep(s, q).1.Done? <==> Sellable(q.terms) && Creatable(s, q)
    ensures RuleStep(s, q).1.Done? ==>
              var u := RuleStep(s, q).0;
              var terms := q.terms.(ruleKey := Trimmed(q.terms.ruleKey), name := Trimmed(q.terms.name));
              && u.rules == s.rules[q.rule := Rule(terms, 0, Draft, None, None)] && u.coupons == s.coupons
              && u.events == s.events + [RuleEvent(q.event.value, Cut(q.key.value, 120), q.digest.value, Create, q.rule,
                                                   None, Draft)]
  {
    RuleFreshIff(s, q);
    TrimmedStoredIff(q.terms.ruleKey, 64);
    TrimmedStoredIff(q.terms.name, 200);
  }

  // ---------------------------------------------------------------------------
  // What every stored row looks like

  /** After any run every rule can be sold, has issued no more than its limit, and has a time
      of publishing unless it is a draft and a time of ending if it has ended. */
  lemma RulesInOrder(qs: seq<Request>, r: Uuid)
    requires r in Run(EMPTY, qs).rules
    ensures var row := Run(EMPTY, qs).rules[r];
            && Sellable(row.terms) && 1 <= |row.terms.ruleKey| <= 64
            && 0 <= row.issuedCount && row.issuedCount <= row.terms.issuanceLimit
            && (row.publishedAt.Some? <==> row.status != Draft) && (row.endedAt.Some? <==> row.status == Ended)
  {
    EmptyInv();
    RunKeepsInv(EMPTY, qs);
    assert RuleChecks(Run(EMPTY, qs).rules[r]);
  }

  /** After any run every coupon has a number and a period, is held for an order and a time
      exactly while reserved, for an amount off within its rule, spent on an order or in a
      store at a time exactly while used, and revoked for a reason exactly while revoked. */
  lemma CouponsInOrder(qs: seq<Request>, c: Uuid)
    requires c in Run(EMPTY, qs).coupons
    ensures var s := Run(EMPTY, qs);
            var row := s.coupons[c];
            && row.rule in s.rules && CouponNumber(row.number) && row.validFrom < row.validUntil && row.version >= 1
            && (row.source.scanEvent.Some? <==> row.source.scanTime.Some?)
            && (row.reservedOrder.Some? <==> row.status == Reserved)
            && (row.reservationExpires.Some? <==> row.status == Reserved)
            && (row.reservedDiscount.Some? <==> row.status == Reserved)
            && (row.reservedDiscount.Some? ==>
                  0 < row.reservedDiscount.value && row.reservedDiscount.value <= s.rules[row.rule].terms.amountMinor)
            && (row.usedAt.Some? <==> row.status == Used)
            && (row.usedOrder.Some? || row.usedStore.Some? <==> row.status == Used)
            && !(row.usedOrder.Some? && row.usedStore.Some?)
            && (row.revokedAt.Some? <==> row.status == Revoked) && (row.revokeReason.Some? <==> row.status == Revoked)
            && (row.revokeReason.Some? ==>
                  exists i :: 0 <= i < |row.revokeReason.value| && row.revokeReason.value[i] != ' ')
  {
    EmptyInv();
    RunKeepsInv(EMPTY, qs);
    var s := Run(EMPTY, qs);
    assert CouponRow(s.rules, s.coupons[c]) && SpentRow(s.events, c, s.coupons[c]);
    NumberIff(s.coupons[c].number);
  }

  // ---------------------------------------------------------------------------
  // The triggers, which judge every UPDATE whoever makes it

  /** The trigger on rules lets an UPDATE pass if and only if the terms stay once the rule is
      no draft, and the status stays or goes a way a rule may go; an ended rule stays. */
  lemma RuleTriggerPassesIff(before: Rule, after: Rule)
    ensures RuleTrigger(before, after)
            <==> && (before.status == Draft || after.terms == before.terms)
                 && ((before.status == after.status && before.status != Ended)
                     || exists action :: RuleGoes(before.status, action, after.status))
  {
    assert RuleGoes(Draft, Publish, Published) && RuleGoes(Published, Pause, Paused);
    assert RuleGoes(Paused, Resume, Published) && RuleGoes(Published, End, Ended) && RuleGoes(Paused, End, Ended);
  }

  /** The trigger on coupons lets an UPDATE pass if and only if it keeps everything the coupon
      was issued with, counts the version up by one, and goes a way a coupon may go. */
  lemma CouponTriggerPassesIff(before: Coupon, after: Coupon)
    ensures CouponTrigger(before, after)
            <==> && after.membership == before.membership && after.rule == before.rule && after.number == before.number
                 && after.source == before.source && after.authority == before.authority
                 && after.validFrom == before.validFrom && after.validUntil == before.validUntil
                 && after.version == before.version + 1
                 && (after.status == before.status || (before.status, after.status) in {
                       (Available, Reserved), (Available, Used), (Available, Expired), (Available, Revoked),
                       (Reserved, Available), (Reserved, Used), (Reserved, Expired),
                       (Used, Available), (Used, Expired)})
  {
  }
}
