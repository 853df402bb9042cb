/** What the coupon authority keeps over every run of rule and coupon requests. */
module CouponLaws {
  import opened Sql
  import opened CouponAuthority

  // ---------------------------------------------------------------------------
  // Reading the event log

  /** The status the log last recorded for a coupon. */
  function StatusIn(events: seq<Event>, c: Uuid): Option<CouponStatus> {
    if events == [] then None
    else
      var last := events[|events| - 1];
      if last.CouponEvent? && last.coupon == c then Some(last.after) else StatusIn(events[..|events| - 1], c)
  }

  /** Logged events that moved an existing coupon to another status. */
  function ChangesIn(events: seq<Event>, c: Uuid): nat {
    if events == [] then 0
    else
      var last := events[|events| - 1];
      ChangesIn(events[..|events| - 1], c)
      + if last.CouponEvent? && last.coupon == c && last.before.Some? && last.before.value != last.after then 1 else 0
  }

  /** Spends minus reversals. */
  function SpendsIn(events: seq<Event>, c: Uuid): int {
    if events == [] then 0
    else
      var last := events[|events| - 1];
      SpendsIn(events[..|events| - 1], c)
      + if !last.CouponEvent? || last.coupon != c then 0
        else if last.action in {Commit, StoreRedeem} then 1
        else if last.action == Reverse then -1
        else 0
  }

  /** The action that last spent the coupon. */
  function LastSpend(events: seq<Event>, c: Uuid): Option<CouponAction> {
    if events == [] then None
    else
      var last := events[|events| - 1];
      if last.CouponEvent? && last.coupon == c && last.action in {Commit, StoreRedeem} then Some(last.action)
      else LastSpend(events[..|events| - 1], c)
  }

  /** Reversals that made a coupon of this membership and rule available again. */
  function RestoresIn(events: seq<Event>, coupons: map<Uuid, Coupon>, membership: Uuid, rule: Uuid): nat {
    if events == [] then 0
    else
      var last := events[|events| - 1];
      RestoresIn(events[..|events| - 1], coupons, membership, rule)
      + if last.CouponEvent? && last.action == Reverse && last.after == Available && last.coupon in coupons
           && coupons[last.coupon].membership == membership && coupons[last.coupon].rule == rule then 1 else 0
  }

  /** Every event starts from the status the previous event of its coupon ended in. */
  predicate Chained(events: seq<Event>) {
    events == [] ||
    var last := events[|events| - 1];
    && Chained(events[..|events| - 1])
    && (last.CouponEvent? ==> last.before == StatusIn(events[..|events| - 1], last.coupon))
  }

  lemma LogGrows(events: seq<Event>, e: Event)
    ensures (events + [e])[..|events + [e]| - 1] == events
  {
  }

  // ---------------------------------------------------------------------------
  // One accepted request is one of four kinds of step

  ghost predicate RuleAdvance(s: Store, t: Store, e: Event)
    requires e.RuleEvent?
  {
    && e.rule in t.rules && t.rules == s.rules[e.rule := t.rules[e.rule]] && t.coupons == s.coupons
    && RuleChecks(t.rules[e.rule])
    && (e.rule !in s.rules ==> t.rules[e.rule].issuedCount == 0 && t.rules[e.rule].status == Draft)
    && (e.rule in s.rules ==>
          && RuleTrigger(s.rules[e.rule], t.rules[e.rule])
          && t.rules[e.rule].terms == s.rules[e.rule].terms
          && t.rules[e.rule].issuedCount == s.rules[e.rule].issuedCount)
  }

  /** A new coupon, counted against its rule. */
  ghost predicate NewCoupon(s: Store, t: Store, e: Event)
    requires e.CouponEvent?
  {
    && e.before.None? && e.action == Issue && e.after == Available
    && e.coupon !in s.coupons && e.rule in s.rules
    && e.coupon in t.coupons && t.coupons == s.coupons[e.coupon := t.coupons[e.coupon]]
    && (var row := t.coupons[e.coupon];
        && row.status == Available && row.version == 1 && row.rule == e.rule && CouponChecks(row) && RowFits(row)
        && ActiveCoupons(s.coupons, row.membership, row.rule) == {})
    && t.rules == s.rules[e.rule := s.rules[e.rule].(issuedCount := s.rules[e.rule].issuedCount + 1)]
    && RuleChecks(t.rules[e.rule])
  }

  /** An event that documents a coupon without touching it. */
  ghost predicate NotedCoupon(s: Store, t: Store, e: Event)
    requires e.CouponEvent?
  {
    && t.rules == s.rules && t.coupons == s.coupons
    && e.coupon in s.coupons && e.after == s.coupons[e.coupon].status && e.before == Some(e.after)
    && e.action in {Issue, Reserve, RecordPartialRefund}
  }

  /** A new version of a coupon row, in another status. */
  ghost predicate WrittenCoupon(s: Store, t: Store, e: Event)
    requires e.CouponEvent?
  {
    && t.rules == s.rules && e.coupon in s.coupons && e.coupon in t.coupons
    && t.coupons == s.coupons[e.coupon := t.coupons[e.coupon]]
    && (var old_, row := s.coupons[e.coupon], t.coupons[e.coupon];
        && CouponTrigger(old_, row) && CouponChecks(row)
        && e.before == Some(old_.status) && e.after == row.status && row.status != old_.status
        && (e.action in {Commit, StoreRedeem} <==> row.status == Used)
        && (e.action == Reverse <==> old_.status == Used)
        && (e.action == Commit ==> old_.status == Reserved && row.usedStore == old_.usedStore)
        && (e.action == StoreRedeem ==> old_.status == Available && (old_.usedOrder.None? ==> row.usedOrder.None?))
        && RowFits(row)
        && (row.status == Reserved && row.rule in s.rules ==>
              row.reservedDiscount.Some? && 0 < row.reservedDiscount.value <= s.rules[row.rule].terms.amountMinor))
  }

  /** The CHECKs of the event table. */
  predicate EventChecks(e: Event) {
    && 1 <= |e.key| <= KEY_WIDTH && |e.digest| == 64
    && (e.CouponEvent? ==> e.note.actor in ACTORS)
  }

  ghost predicate Advance(s: Store, t: Store, e: Event) {
    && t.events == s.events + [e] && EventChecks(e)
    && if e.RuleEvent? then RuleAdvance(s, t, e)
       else NewCoupon(s, t, e) || NotedCoupon(s, t, e) || WrittenCoupon(s, t, e)
  }

  lemma RuleStepAdvances(s: Store, q: RuleRequest)
    ensures var (t, o) := RuleStep(s, q);
            t == s || (o.Done? && |t.events| == |s.events| + 1 && Advance(s, t, t.events[|s.events|]))
  {
  }

  lemma DecisionMoves(c: Coupon, t: Terms, q: CouponRequest)
    requires Decide(c, t, q).Write?
    ensures var row := Decide(c, t, q).row;
            && row.status != c.status
            && (q.action in {Commit, StoreRedeem} <==> row.status == Used)
            && (q.action == Reverse <==> c.status == Used)
            && (q.action == Commit ==> c.status == Reserved && row.usedStore == c.usedStore)
            && (q.action == StoreRedeem ==> c.status == Available && row.usedOrder == c.usedOrder)
            && (row.status == Reserved ==>
                  row.reservedDiscount.Some? && 0 < row.reservedDiscount.value <= t.amountMinor)
  {
  }

  /** Storing a row leaves everything but over-long text alone, and nothing over-long. */
  lemma StoredFits(row: Coupon)
    requires RowFits(row)
    ensures RowFits(StoredRow(row)) && StoredRow(row).usedStore == row.usedStore
    ensures row.usedOrder.None? ==> StoredRow(row).usedOrder.None?
  {
  }

  lemma ChangeStepAdvances(s: Store, q: CouponRequest)
    requires Keyed(q.key, q.digest) && q.action != Issue && q.action != UnknownAction
    ensures var (t, o) := ChangeStep(s, q);
            t == s || (o.Done? && |t.events| == |s.events| + 1 && Advance(s, t, t.events[|s.events|]))
  {
    var (t, o) := ChangeStep(s, q);
    if o.Done? {
      var c := s.coupons[q.coupon];
      var d := Decide(c, s.rules[c.rule].terms, q);
      if d.Write? {
        WriteAdvances(s, q, c, d.row, d.discount);
      } else {
        assert NotedCoupon(s, t, t.events[|s.events|]);
      }
    }
  }

  lemma WriteAdvances(s: Store, q: CouponRequest, c: Coupon, row: Coupon, discount: Option<int>)
    requires Keyed(q.key, q.digest) && q.action != Issue && q.action != UnknownAction
    requires q.coupon in s.coupons && c == s.coupons[q.coupon] && c.rule in s.rules
    requires Decide(c, s.rules[c.rule].terms, q) == Write(row, discount)
    requires RowFits(row) && CouponTrigger(c, StoredRow(row)) && CouponChecks(StoredRow(row)) && EventWritable(s, q)
    ensures var events := Logged(s, q, c.rule, q.coupon, Some(c.status), row.status, discount);
            var t := s.(coupons := s.coupons[q.coupon := StoredRow(row)], events := events);
            Advance(s, t, events[|s.events|])
  {
    DecisionMoves(c, s.rules[c.rule].terms, q);
    StoredFits(row);
    var events := Logged(s, q, c.rule, q.coupon, Some(c.status), row.status, discount);
    var t := s.(coupons := s.coupons[q.coupon := StoredRow(row)], events := events);
    assert WrittenCoupon(s, t, events[|s.events|]);
  }

  lemma IssueStepAdvances(s: Store, q: CouponRequest)
    requires Keyed(q.key, q.digest) && q.action == Issue
    ensures var (t, o) := IssueStep(s, q);
            t == s || (o.Done? && |t.events| == |s.events| + 1 && Advance(s, t, t.events[|s.events|]))
  {
    var (t, o) := IssueStep(s, q);
    if o.Done? {
      var e := t.events[|s.events|];
      if e.before.Some? {
        assert NotedCoupon(s, t, e);
      } else {
        assert NewCoupon(s, t, e);
      }
    }
  }

  lemma StepAdvances(s: Store, q: Request)
    ensures var (t, o) := Step(s, q);
            t == s || (o.Done? && |t.events| == |s.events| + 1 && Advance(s, t, t.events[|s.events|]))
  {
    match q
    case ForRule(r) => RuleStepAdvances(s, r);
    case ForCoupon(c) =>
      if c.action != UnknownAction && Keyed(c.key, c.digest) {
        if c.action == Issue { IssueStepAdvances(s, c); } else { ChangeStepAdvances(s, c); }
      }
  }

  // ---------------------------------------------------------------------------
  // The invariant

  ghost predicate CouponRow(rules: map<Uuid, Rule>, c: Coupon) {
    && CouponChecks(c) && RowFits(c) && c.rule in rules
    && (c.status == Reserved ==>
          c.reservedDiscount.Some? && c.reservedDiscount.value <= rules[c.rule].terms.amountMinor)
  }

  ghost predicate RowsInv(s: Store) {
    && (forall r :: r in s.rules ==> RuleChecks(s.rules[r]))
    && (forall c :: c in s.coupons ==> CouponRow(s.rules, s.coupons[c]))
    && (forall i :: 0 <= i < |s.events| ==> EventChecks(s.events[i]))
  }

  /** The table is what the log says. */
  ghost predicate LogInv(s: Store) {
    && Chained(s.events)
    && (forall c :: c !in s.coupons ==>
          StatusIn(s.events, c) == None && ChangesIn(s.events, c) == 0 && SpendsIn(s.events, c) == 0)
    && (forall c :: c in s.coupons ==>
          && StatusIn(s.events, c) == Some(s.coupons[c].status)
          && s.coupons[c].version == 1 + ChangesIn(s.events, c)
          && SpendsIn(s.events, c) == if s.coupons[c].status == Used then 1 else 0)
  }

  /** A used coupon has an order or a store, according to how it was last spent. */
  predicate SpentRow(events: seq<Event>, id: Uuid, c: Coupon) {
    c.status == Used ==>
      && LastSpend(events, id) == Some(if c.usedOrder.Some? then Commit else StoreRedeem)
      && (c.usedOrder.Some? <==> c.usedStore.None?)
  }

  ghost predicate SpentInv(s: Store) {
    forall c :: c in s.coupons ==> SpentRow(s.events, c, s.coupons[c])
  }

  function CarriedBy(coupons: map<Uuid, Coupon>, rule: Uuid): set<Uuid> {
    set c | c in coupons && coupons[c].rule == rule
  }

  ghost predicate CountInv(s: Store) {
    forall r :: r in s.rules ==> s.rules[r].issuedCount == |CarriedBy(s.coupons, r)|
  }

  ghost predicate ActiveInv(s: Store) {
    && (forall i :: 0 <= i < |s.events| && s.events[i].CouponEvent? ==> s.events[i].coupon in s.coupons)
    && (forall m, r :: |ActiveCoupons(s.coupons, m, r)| <= 1 + RestoresIn(s.events, s.coupons, m, r))
  }

  ghost predicate Inv(s: Store) {
    RowsInv(s) && LogInv(s) && SpentInv(s) && CountInv(s) && ActiveInv(s)
  }

  lemma AdvanceKeepsRows(s: Store, t: Store, e: Event)
    requires Advance(s, t, e) && RowsInv(s)
    ensures RowsInv(t)
  {
    forall c | c in t.coupons ensures CouponRow(t.rules, t.coupons[c]) {
      AdvanceKeepsCouponRow(s, t, e, c);
    }
  }

  lemma AdvanceKeepsCouponRow(s: Store, t: Store, e: Event, c: Uuid)
    requires Advance(s, t, e) && RowsInv(s) && c in t.coupons
    ensures CouponRow(t.rules, t.coupons[c])
  {
    if c in s.coupons {
      assert CouponRow(s.rules, s.coupons[c]);
    }
  }

  lemma AdvanceKeepsSpent(s: Store, t: Store, e: Event)
    requires Advance(s, t, e) && RowsInv(s) && SpentInv(s)
    ensures SpentInv(t)
  {
    LogGrows(s.events, e);
    forall c | c in t.coupons ensures SpentRow(t.events, c, t.coupons[c]) {
      if c in s.coupons {
        assert SpentRow(s.events, c, s.coupons[c]) && CouponRow(s.rules, s.coupons[c]);
      }
    }
  }

  lemma AdvanceKeepsLog(s: Store, t: Store, e: Event)
    requires Advance(s, t, e) && LogInv(s)
    ensures LogInv(t)
  {
    LogGrows(s.events, e);
  }

  /** Only an issue adds a coupon to those that carry a rule. */
  lemma CarriedAfter(s: Store, t: Store, e: Event, r: Uuid)
    requires Advance(s, t, e)
    ensures CarriedBy(t.coupons, r)
            == CarriedBy(s.coupons, r) + (if e.CouponEvent? && NewCoupon(s, t, e) && r == e.rule then {e.coupon}
                else {})
  {
  }

  lemma NothingCarriesUnknown(s: Store, r: Uuid)
    requires RowsInv(s) && r !in s.rules
    ensures CarriedBy(s.coupons, r) == {}
  {
    forall c | c in s.coupons ensures s.coupons[c].rule != r {
      assert CouponRow(s.rules, s.coupons[c]);
    }
  }

  lemma AdvanceKeepsCounts(s: Store, t: Store, e: Event)
    requires Advance(s, t, e) && CountInv(s) && RowsInv(s)
    ensures CountInv(t)
  {
    forall r | r in t.rules ensures t.rules[r].issuedCount == |CarriedBy(t.coupons, r)| {
      CarriedAfter(s, t, e, r);
      if r !in s.rules {
        NothingCarriesUnknown(s, r);
      }
    }
  }

  lemma RestoresStable(events: seq<Event>, before: map<Uuid, Coupon>, after: map<Uuid, Coupon>, m: Uuid, r: Uuid)
    requires forall i :: 0 <= i < |events| && events[i].CouponEvent? ==> events[i].coupon in before
    requires forall c ::
        c in before ==> c in after && after[c].membership == before[c].membership && after[c].rule == before[c].rule
    ensures RestoresIn(events, before, m, r) == RestoresIn(events, after, m, r)
  {
  }

  /** The active coupons of a membership and rule gain at most the coupon of the event,
      and then either it was used before or there was no other. */
  lemma ActiveAfter(s: Store, t: Store, e: Event, m: Uuid, r: Uuid)
    requires Advance(s, t, e)
    ensures var was, now := ActiveCoupons(s.coupons, m, r), ActiveCoupons(t.coupons, m, r);
            now <= was || (e.CouponEvent? && e.coupon !in was && now == was + {e.coupon}
                           && (was == {} || (WrittenCoupon(s, t, e) && s.coupons[e.coupon].status == Used)))
  {
    var was, now := ActiveCoupons(s.coupons, m, r), ActiveCoupons(t.coupons, m, r);
    if e.CouponEvent? && e.coupon in now && e.coupon !in was {
      assert now == was + {e.coupon};
    } else {
      assert now <= was;
    }
  }

  lemma AdvanceKeepsActive(s: Store, t: Store, e: Event)
    requires Advance(s, t, e) && ActiveInv(s)
    ensures ActiveInv(t)
  {
    LogGrows(s.events, e);
    forall m, r ensures |ActiveCoupons(t.coupons, m, r)| <= 1 + RestoresIn(t.events, t.coupons, m, r) {
      RestoresStable(s.events, s.coupons, t.coupons, m, r);
      ActiveAfter(s, t, e, m, r);
      var was, now := ActiveCoupons(s.coupons, m, r), ActiveCoupons(t.coupons, m, r);
      assert |was| <= 1 + RestoresIn(s.events, s.coupons, m, r);
      if now <= was {
        SubsetSize(now, was);
      }
    }
  }

  lemma StepKeepsInv(s: Store, q: Request)
    requires Inv(s)
    ensures Inv(Step(s, q).0)
  {
    StepAdvances(s, q);
    var t := Step(s, q).0;
    if t != s {
      var e := t.events[|s.events|];
      AdvanceKeepsRows(s, t, e);
      AdvanceKeepsSpent(s, t, e);
      AdvanceKeepsLog(s, t, e);
      AdvanceKeepsCounts(s, t, e);
      AdvanceKeepsActive(s, t, e);
    }
  }

  lemma {:induction false} RunKeepsInv(s: Store, qs: seq<Request>)
    requires Inv(s)
    ensures Inv(Run(s, qs))
    decreases |qs|
  {
    if qs != [] {
      StepKeepsInv(s, qs[0]);
      RunKeepsInv(Step(s, qs[0]).0, qs[1..]);
    }
  }

  // ---------------------------------------------------------------------------
  // Main results

  /** After any run, the log alone says which coupons exist, their status and their
      version, and its events form one chain per coupon. */
  lemma LogDeterminesCoupons(qs: seq<Request>)
    ensures var s := Run(EMPTY, qs);
            && Chained(s.events)
            && forall c ::
                 && (c in s.coupons <==> StatusIn(s.events, c).Some?)
                 && (c in s.coupons ==> StatusIn(s.events, c) == Some(s.coupons[c].status)
                                        && s.coupons[c].version == 1 + ChangesIn(s.events, c))
  {
    EmptyInv();
    RunKeepsInv(EMPTY, qs);
  }

  lemma EmptyInv()
    ensures Inv(EMPTY)
  {
    forall m, r ensures ActiveCoupons(EMPTY.coupons, m, r) == {} {
    }
  }

  /** After any run, a coupon has been spent exactly once more than reversed if it is
      used, and exactly as often otherwise. */
  lemma NoDoubleSpend(qs: seq<Request>, c: Uuid)
    ensures var s := Run(EMPTY, qs);
            SpendsIn(s.events, c) == if c in s.coupons && s.coupons[c].status == Used then 1 else 0
  {
    EmptyInv();
    RunKeepsInv(EMPTY, qs);
  }

  /** After any run, every rule has issued exactly the coupons that carry it, and
      never more than its limit. */
  lemma IssuanceIsCounted(qs: seq<Request>, r: Uuid)
    requires r in Run(EMPTY, qs).rules
    ensures var s := Run(EMPTY, qs);
            s.rules[r].issuedCount == |CarriedBy(s.coupons, r)| <= s.rules[r].terms.issuanceLimit
  {
    EmptyInv();
    RunKeepsInv(EMPTY, qs);
  }

  /** After any run, a membership holds at most one active coupon of a rule, plus one
      for every reversal that restored one. */
  lemma ActiveCouponsBounded(qs: seq<Request>, membership: Uuid, rule: Uuid)
    ensures var s := Run(EMPTY, qs);
            |ActiveCoupons(s.coupons, membership, rule)| <= 1 + RestoresIn(s.events, s.coupons, membership, rule)
  {
    EmptyInv();
    RunKeepsInv(EMPTY, qs);
  }

  /** Terms of rules and origins of coupons stay; expired and revoked coupons altogether. */
  ghost predicate Preserves(s: Store, t: Store) {
    && (forall r :: r in s.rules ==> r in t.rules && t.rules[r].terms == s.rules[r].terms)
    && (forall c :: c in s.coupons ==> c in t.coupons && SameCoupon(s.coupons[c], t.coupons[c]))
    && (forall c :: c in s.coupons && s.coupons[c].status in {Expired, Revoked} ==> t.coupons[c] == s.coupons[c])
  }

  lemma AdvancePreserves(s: Store, t: Store, e: Event)
    requires Advance(s, t, e)
    ensures Preserves(s, t)
  {
  }

  /** From any state on, no run changes the terms of an existing rule, nor anything
      about an expired or revoked coupon. */
  lemma {:induction false} TermsAndTerminalCouponsStay(s: Store, qs: seq<Request>)
    ensures Preserves(s, Run(s, qs))
    decreases |qs|
  {
    if qs != [] {
      StepAdvances(s, qs[0]);
      var t := Step(s, qs[0]).0;
      if t != s {
        AdvancePreserves(s, t, t.events[|s.events|]);
      }
      TermsAndTerminalCouponsStay(t, qs[1..]);
    }
  }

  /** What a reservation may take off an order: always positive and within the rule
      amount, and within each subtotal the request supplies; a supplied goods subtotal
      also meets the minimum spend. A missing subtotal bounds nothing. */
  lemma ReservedDiscountBounds(c: Coupon, t: Terms, q: CouponRequest)
    requires q.action == Reserve && Decide(c, t, q).Write?
    ensures Decide(c, t, q).discount.Some? && Decide(c, t, q).row.reservedDiscount == Decide(c, t, q).discount
    ensures var d := Decide(c, t, q).discount.value;
            && 0 < d <= t.amountMinor
            && (q.goodsMinor.Some? ==> d < q.goodsMinor.value && t.minimumSpendMinor <= q.goodsMinor.value)
            && (q.eligibleMinor.Some? ==> d <= q.eligibleMinor.value)
            && (d == t.amountMinor || q.eligibleMinor == Some(d) || q.goodsMinor == Some(d + 1))
  {
  }

  // ---------------------------------------------------------------------------
  // What the tests on nullable arguments let through

  /** The same store with another minimum spend in the terms of one rule. */
  function Repriced(s: Store, rule: Uuid, minimum: int): Store
    requires rule in s.rules
  {
    s.(rules := s.rules[rule := s.rules[rule].(terms := s.rules[rule].terms.(minimumSpendMinor := minimum))])
  }

  /** An accepted reservation of an available coupon is accepted under just those minimum
      spends the goods subtotal reaches; without a goods subtotal, under all of them. */
  lemma MinimumSpendTestedIffGoodsKnown(s: Store, q: CouponRequest)
    requires q.action == Reserve && q.coupon in s.coupons && s.coupons[q.coupon].status == Available
    requires CouponStep(s, q).1.Done? && Prior(s.events, q.key.value).None?
    ensures forall m :: CouponStep(Repriced(s, s.coupons[q.coupon].rule, m), q).1.Done?
                        <==> q.goodsMinor.None? || m <= q.goodsMinor.value
    ensures (forall m :: CouponStep(Repriced(s, s.coupons[q.coupon].rule, m), q).1.Done?) <==> q.goodsMinor.None?
  {
    var rule := s.coupons[q.coupon].rule;
    forall m ensures CouponStep(Repriced(s, rule, m), q).1.Done? <==> q.goodsMinor.None? || m <= q.goodsMinor.value {
      MinimumSpendTested(s, q, m);
    }
    if q.goodsMinor.Some? {
      assert !CouponStep(Repriced(s, rule, q.goodsMinor.value + 1), q).1.Done?;
    }
  }

  lemma MinimumSpendTested(s: Store, q: CouponRequest, m: int)
    requires q.action == Reserve && q.coupon in s.coupons && s.coupons[q.coupon].status == Available
    requires CouponStep(s, q).1.Done? && Prior(s.events, q.key.value).None?
    ensures CouponStep(Repriced(s, s.coupons[q.coupon].rule, m), q).1.Done?
            <==> q.goodsMinor.None? || m <= q.goodsMinor.value
  {
    var c := s.coupons[q.coupon];
    var t := s.rules[c.rule].terms;
    ReserveUnderMinimum(c, t, q, m);
    assert EventWritable(s, q) == EventWritable(Repriced(s, c.rule, m), q);
  }

  lemma ReserveUnderMinimum(c: Coupon, t: Terms, q: CouponRequest, m: int)
    requires q.action == Reserve && c.status == Available && Decide(c, t, q).Write?
    ensures var d := Decide(c, t.(minimumSpendMinor := m), q);
            if q.goodsMinor.None? || m <= q.goodsMinor.value then d == Decide(c, t, q)
                else d == Refuse(OrderNotEligible)
  {
  }

  /** The coupon is in the status the action starts from. */
  predicate Ready(c: Coupon, action: CouponAction) {
    if action in {Commit, Release} then c.status == Reserved
    else action in {Reverse, RecordPartialRefund} && c.status == Used
  }

  function OrderOf(c: Coupon, action: CouponAction): Option<string> {
    if action in {Commit, Release} then c.reservedOrder else c.usedOrder
  }

  predicate RanOut(c: Coupon, now: int) {
    c.reservationExpires.Some? && c.reservationExpires.value <= now
  }

  /** The order test compares two known references and lets everything else pass. */
  lemma OrderTestPassesIff(c: Coupon, t: Terms, q: CouponRequest)
    requires Ready(c, q.action)
    ensures Decide(c, t, q) in {Refuse(ReservationMismatch), Refuse(UseMismatch)}
            <==> OrderOf(c, q.action).Some? && q.order.Some? && OrderOf(c, q.action) != q.order
    ensures Decide(c, t, q).Refuse?
            <==> (OrderOf(c, q.action).Some? && q.order.Some? && OrderOf(c, q.action) != q.order)
                 || (q.action == Commit && RanOut(c, q.now))
  {
  }

  /** In every reachable state the four actions that take an order reference are accepted
      exactly so: a commit needs the order of the reservation, a release may also name
      none, and a reversal or partial refund may name any order when the coupon was spent
      in a store, and none at all when it was spent on an order. */
  lemma OrderActionsAcceptedIff(qs: seq<Request>, q: CouponRequest)
    requires q.action in {Commit, Release, Reverse, RecordPartialRefund}
    requires var s := Run(EMPTY, qs);
             && Keyed(q.key, q.digest) && Prior(s.events, q.key.value).None? && EventWritable(s, q)
             && q.coupon in s.coupons && Ready(s.coupons[q.coupon], q.action)
    ensures var s := Run(EMPTY, qs);
            var c := s.coupons[q.coupon];
            CouponStep(s, q).1.Done?
            <==> match q.action
                 case Commit => q.order.Some? && q.order == c.reservedOrder && !RanOut(c, q.now)
                 case Release => q.order.None? || q.order == c.reservedOrder
                 case _ => q.order.None? || q.order == c.usedOrder || LastSpend(s.events, q.coupon) == Some(StoreRedeem)
  {
    EmptyInv();
    RunKeepsInv(EMPTY, qs);
    var s := Run(EMPTY, qs);
    var c := s.coupons[q.coupon];
    assert CouponRow(s.rules, c) && SpentRow(s.events, q.coupon, c);
    OrderTestPassesIff(c, s.rules[c.rule].terms, q);
    LateRefusalIff(s, ForCoupon(q));
  }

  /** An accepted request of these names the coupon's own order if and only if both
      references are known. */
  lemma NamesOwnOrderIffBothKnown(s: Store, q: CouponRequest)
    requires q.action in {Commit, Release, Reverse, RecordPartialRefund}
    requires CouponStep(s, q).1.Done? && Prior(s.events, q.key.value).None?
    ensures q.coupon in s.coupons && Ready(s.coupons[q.coupon], q.action)
    ensures var own := OrderOf(s.coupons[q.coupon], q.action);
            own.Some? && q.order == own <==> own.Some? && q.order.Some?
  {
  }

  // ---------------------------------------------------------------------------
  // The authority refines the guards

  /** What the authority itself tests: a fresh, well-formed request it would act on. */
  predicate Passes(s: Store, q: Request) {
    match q
    case ForRule(r) =>
      && r.action != UnknownRuleAction && Keyed(r.key, r.digest) && Prior(s.events, r.key.value).None?
      && if r.action == Create then r.terms.benefit.Some? ==> r.terms.benefit.value in r.around.couponBenefits
         else r.rule in s.rules && RuleMoves(r.action, s.rules[r.rule].status)
    case ForCoupon(c) =>
      && c.action != UnknownAction && Keyed(c.key, c.digest) && Prior(s.events, c.key.value).None?
      && if c.action == Issue then Issuable(s, c)
         else c.coupon in s.coupons && s.coupons[c.coupon].rule in s.rules
              && !Decide(s.coupons[c.coupon], s.rules[s.coupons[c.coupon].rule].terms, c).Refuse?
  }

  predicate Issuable(s: Store, q: CouponRequest) {
    && q.rule in s.rules && s.rules[q.rule].status == Published
    && s.rules[q.rule].issuedCount < s.rules[q.rule].terms.issuanceLimit
    && q.membership.Some? && q.membership.value in q.around.activeMembers
    && (HasActive(s, q) || var until := IssuedUntil(s.rules[q.rule].terms, q.now); until.Some? && q.now < until.value)
  }

  predicate HasActive(s: Store, q: CouponRequest) {
    q.membership.Some? && |ActiveCoupons(s.coupons, q.membership.value, q.rule)| > 0
  }

  /** What the tables demand of the request: columns wide enough, references that exist,
      keys and ids unused, and an order for a reservation and its commit. */
  ghost predicate Storable(s: Store, q: Request) {
    match q
    case ForRule(r) =>
      && r.key.Some? && KeyWritable(s, r.key.value, r.event)
      && (r.action == Create ==>
            r.rule !in s.rules && RuleFits(r) && RuleUnique(s, NewRule(r).terms) && RuleChecks(NewRule(r)))
    case ForCoupon(c) =>
      && Keyed(c.key, c.digest) && EventWritable(s, c)
      && (c.action in {Reserve, Commit} ==> c.order.Some?)
      && (c.action == Issue && !HasActive(s, c) ==> CouponInsertable(s, c))
  }

  /** In every state a run can reach, the tables refuse exactly those requests that pass
      the authority without being storable, and a storable one that passes is done:
      neither the transition triggers nor the status CHECKs ever refuse one of them. */
  lemma LateRefusalIff(s: Store, q: Request)
    requires RowsInv(s)
    ensures Step(s, q).1 == Refused(ConstraintViolated) <==> Passes(s, q) && !Storable(s, q)
    ensures Passes(s, q) && Storable(s, q) ==> Step(s, q).1.Done?
  {
    match q
    case ForRule(r) =>
      if Passes(s, q) && r.action != Create {
        MoveMeetsGuards(s, r);
      }
    case ForCoupon(c) =>
      if Passes(s, q) {
        if c.action == Issue {
          IssueRefusedLateIff(s, c);
        } else {
          ChangeRefusedLateIff(s, c);
        }
      }
  }

  lemma MoveMeetsGuards(s: Store, q: RuleRequest)
    requires RowsInv(s) && q.rule in s.rules && RuleMoves(q.action, s.rules[q.rule].status)
    ensures RuleTrigger(s.rules[q.rule], MovedRule(q, s.rules[q.rule])) && RuleChecks(MovedRule(q, s.rules[q.rule]))
  {
    assert RuleChecks(s.rules[q.rule]);
  }

  lemma IssueRefusedLateIff(s: Store, q: CouponRequest)
    requires RowsInv(s) && q.action == Issue && Passes(s, ForCoupon(q))
    ensures IssueStep(s, q).1 == Refused(ConstraintViolated) <==> !Storable(s, ForCoupon(q))
    ensures Storable(s, ForCoupon(q)) ==> IssueStep(s, q).1.Done?
  {
    var rule := s.rules[q.rule];
    assert RuleChecks(rule);
    if !HasActive(s, q) {
      assert IssuedFrom(rule.terms, q.now).Some?
             && IssuedFrom(rule.terms, q.now).value < IssuedUntil(rule.terms, q.now).value;
    }
  }

  /** A row the authority decides on passes its trigger, and its CHECKs unless it is
      reserved or spent for an order that is NULL. */
  lemma DecidedRowMeetsGuards(rules: map<Uuid, Rule>, c: Coupon, q: CouponRequest, row: Coupon)
    requires CouponRow(rules, c) && Decide(c, rules[c.rule].terms, q).Write?
    requires row == Decide(c, rules[c.rule].terms, q).row && RowFits(row)
    ensures CouponTrigger(c, StoredRow(row))
    ensures CouponChecks(StoredRow(row)) <==> !(q.action in {Reserve, Commit} && q.order.None?)
  {
    if q.action == Revoke {
      RevokedRowStays(c, q, row);
    }
  }

  lemma RevokedRowStays(c: Coupon, q: CouponRequest, row: Coupon)
    requires RowFits(row) && row.revokeReason.Some? && q.reason.Some?
        && row.revokeReason.value == Trimmed(q.reason.value)
    requires Trimmed(q.reason.value) != ""
    ensures StoredRow(row).revokeReason.Some? && !Blank(StoredRow(row).revokeReason.value)
  {
  }

  /** What the event columns take, the coupon columns take. */
  lemma DecidedRowFits(rules: map<Uuid, Rule>, c: Coupon, q: CouponRequest)
    requires CouponRow(rules, c) && Decide(c, rules[c.rule].terms, q).Write?
    requires Fits(NullIfEmpty(q.order), ORDER_WIDTH) && Fits(NullIfEmpty(q.reason), REASON_WIDTH)
    ensures RowFits(Decide(c, rules[c.rule].terms, q).row)
  {
    if q.action == Revoke {
      TrimmedFits(q.reason.value, REASON_WIDTH);
    }
  }

  lemma ChangeRefusedLateIff(s: Store, q: CouponRequest)
    requires RowsInv(s) && q.action != Issue && Passes(s, ForCoupon(q))
    ensures ChangeStep(s, q).1 == Refused(ConstraintViolated) <==> !Storable(s, ForCoupon(q))
    ensures Storable(s, ForCoupon(q)) ==> ChangeStep(s, q).1.Done?
  {
    var c := s.coupons[q.coupon];
    assert CouponRow(s.rules, c);
    var d := Decide(c, s.rules[c.rule].terms, q);
    if d.Write? {
      if EventWritable(s, q) {
        DecidedRowFits(s.rules, c, q);
        DecidedRowMeetsGuards(s.rules, c, q, d.row);
      }
    } else if d.Note? {
      assert q.action == Reserve ==> q.order.Some?;
    }
  }

  // ---------------------------------------------------------------------------
  // Exactly once

  function KeyOf(q: Request): Option<string> {
    if q.ForRule? then q.ruleRequest.key else q.couponRequest.key
  }

  function DigestOf(q: Request): Option<string> {
    if q.ForRule? then q.ruleRequest.digest else q.couponRequest.digest
  }

  predicate SameAction(q: Request, p: Request) {
    if q.ForRule? then p.ForRule? && p.ruleRequest.action == q.ruleRequest.action
    else p.ForCoupon? && p.couponRequest.action == q.couponRequest.action
  }

  /** The log holds this request's key with its action, digest and answer. */
  ghost predicate Answered(s: Store, q: Request, id: Uuid) {
    && KeyOf(q).Some? && DigestOf(q).Some?
    && Prior(s.events, KeyOf(q).value).Some?
    && (var e := Prior(s.events, KeyOf(q).value).value;
        && e.digest == DigestOf(q).value
        && (if q.ForRule? then e.RuleEvent? && e.ruleAction == q.ruleRequest.action && e.rule == id
            else e.CouponEvent? && e.action == q.couponRequest.action && e.coupon == id))
  }

  lemma SuccessIsAnswered(s: Store, q: Request)
    requires Step(s, q).1.Done? && |KeyOf(q).value| <= KEY_WIDTH
    ensures Answered(Step(s, q).0, q, Step(s, q).1.id)
  {
    if Prior(s.events, KeyOf(q).value).None? {
      SuccessIsLogged(s, q);
      var t := Step(s, q).0;
      LogGrows(s.events, t.events[|s.events|]);
    }
  }

  /** The event records the request under its stored key. */
  predicate Records(e: Event, q: Request, id: Uuid) {
    && KeyOf(q).Some? && DigestOf(q).Some?
    && Stored(KeyOf(q).value, KEY_WIDTH) == Some(e.key) && e.digest == DigestOf(q).value
    && (if q.ForRule? then e.RuleEvent? && e.ruleAction == q.ruleRequest.action && e.rule == id
        else e.CouponEvent? && e.action == q.couponRequest.action && e.coupon == id)
  }

  /** The first success under a key is the last event of the new log. */
  lemma SuccessIsLogged(s: Store, q: Request)
    requires Step(s, q).1.Done? && Prior(s.events, KeyOf(q).value).None?
    ensures var (t, o) := Step(s, q);
            && |t.events| == |s.events| + 1 && t.events[..|s.events|] == s.events
            && Records(t.events[|s.events|], q, o.id)
  {
    match q
    case ForRule(r) =>
      assert Step(s, q) == RuleStep(s, r);
    case ForCoupon(c) =>
      if c.action == Issue { IssueIsLogged(s, c); } else { ChangeIsLogged(s, c); }
  }

  lemma IssueIsLogged(s: Store, q: CouponRequest)
    requires Keyed(q.key, q.digest) && q.action == Issue && IssueStep(s, q).1.Done?
    ensures var (t, o) := IssueStep(s, q);
            && |t.events| == |s.events| + 1 && t.events[..|s.events|] == s.events
            && Records(t.events[|s.events|], ForCoupon(q), o.id)
  {
  }

  lemma ChangeIsLogged(s: Store, q: CouponRequest)
    requires Keyed(q.key, q.digest) && q.action != Issue && ChangeStep(s, q).1.Done?
    ensures var (t, o) := ChangeStep(s, q);
            && |t.events| == |s.events| + 1 && t.events[..|s.events|] == s.events
            && Records(t.events[|s.events|], ForCoupon(q), o.id)
  {
  }

  /** An accepted fresh request is logged under a key nothing was logged under. */
  lemma StepKeepsPrior(s: Store, q: Request, key: string)
    requires Prior(s.events, key).Some?
    ensures Prior(Step(s, q).0.events, key) == Prior(s.events, key)
  {
    StepAdvances(s, q);
    var t := Step(s, q).0;
    if t != s {
      LogGrows(s.events, t.events[|s.events|]);
      SuccessIsLogged(s, q);
      FreshKey(s, q);
    }
  }

  lemma FreshKey(s: Store, q: Request)
    requires Step(s, q).1.Done? && Step(s, q).0 != s
    ensures KeyOf(q).Some? && Stored(KeyOf(q).value, KEY_WIDTH).Some?
    ensures Prior(s.events, Stored(KeyOf(q).value, KEY_WIDTH).value).None?
  {
  }

  lemma {:induction false} RunKeepsAnswer(s: Store, qs: seq<Request>, q: Request, id: Uuid)
    requires Answered(s, q, id)
    ensures Answered(Run(s, qs), q, id)
    decreases |qs|
  {
    if qs != [] {
      StepKeepsPrior(s, qs[0], KeyOf(q).value);
      RunKeepsAnswer(Step(s, qs[0]).0, qs[1..], q, id);
    }
  }

  /** Re-sending a request that once succeeded, at any later point of any run, changes
      nothing, and gets the same answer if and only if its key is no longer than the
      column: a longer one is stored cut, not found again, and then refused as a duplicate.
      Reusing its key for another action or with another digest is refused and changes
      nothing. */
  lemma ResendIsExactlyOnce(s: Store, q: Request, later: seq<Request>, other: Request)
    requires RowsInv(s) && Step(s, q).1.Done?
    ensures var t := Run(Step(s, q).0, later);
            && Step(t, q).0 == t
            && (Step(t, q).1 == Step(s, q).1 <==> |KeyOf(q).value| <= KEY_WIDTH)
            && (KeyOf(other) == KeyOf(q) && (!SameAction(q, other) || DigestOf(other) != DigestOf(q)) ==>
                  Step(t, other).0 == t && Step(t, other).1.Refused?)
  {
    var t := Run(Step(s, q).0, later);
    StepKeepsRows(s, q);
    RunKeepsRows(Step(s, q).0, later);
    if |KeyOf(q).value| <= KEY_WIDTH {
      SuccessIsAnswered(s, q);
      RunKeepsAnswer(Step(s, q).0, later, q, Step(s, q).1.id);
    } else {
      LongKeyNotFound(s.events, KeyOf(q).value);
      SuccessIsLogged(s, q);
      var cut := Stored(KeyOf(q).value, KEY_WIDTH).value;
      LogGrows(s.events, Step(s, q).0.events[|s.events|]);
      RunKeepsPrior(Step(s, q).0, later, cut);
      TakenKeyIsRefused(t, q);
      if KeyOf(other) == KeyOf(q) {
        TakenKeyIsRefused(t, other);
      }
    }
  }

  lemma {:induction false} LongKeyNotFound(events: seq<Event>, key: string)
    requires |key| > KEY_WIDTH && forall i :: 0 <= i < |events| ==> EventChecks(events[i])
    ensures Prior(events, key).None?
    decreases |events|
  {
    if events != [] {
      assert EventChecks(events[|events| - 1]);
      LongKeyNotFound(events[..|events| - 1], key);
    }
  }

  lemma {:induction false} RunKeepsPrior(s: Store, qs: seq<Request>, key: string)
    requires Prior(s.events, key).Some?
    ensures Prior(Run(s, qs).events, key) == Prior(s.events, key)
    decreases |qs|
  {
    if qs != [] {
      StepKeepsPrior(s, qs[0], key);
      RunKeepsPrior(Step(s, qs[0]).0, qs[1..], key);
    }
  }

  lemma TakenKeyIsRefused(t: Store, q: Request)
    requires RowsInv(t) && KeyOf(q).Some? && |KeyOf(q).value| > KEY_WIDTH
    requires Stored(KeyOf(q).value, KEY_WIDTH).Some? && Prior(t.events, Stored(KeyOf(q).value, KEY_WIDTH).value).Some?
    ensures Step(t, q).0 == t && Step(t, q).1.Refused?
  {
    LongKeyNotFound(t.events, KeyOf(q).value);
    if Step(t, q).1.Done? {
      SuccessIsLogged(t, q);
      FreshKey(t, q);
      assert false;
    }
    StepAdvances(t, q);
  }

  lemma StepKeepsRows(s: Store, q: Request)
    requires RowsInv(s)
    ensures RowsInv(Step(s, q).0)
  {
    StepAdvances(s, q);
    var t := Step(s, q).0;
    if t != s {
      AdvanceKeepsRows(s, t, t.events[|s.events|]);
    }
  }

  lemma {:induction false} RunKeepsRows(s: Store, qs: seq<Request>)
    requires RowsInv(s)
    ensures RowsInv(Run(s, qs))
    decreases |qs|
  {
    if qs != [] {
      StepKeepsRows(s, qs[0]);
      RunKeepsRows(Step(s, qs[0]).0, qs[1..]);
    }
  }

  /** The request is accepted and not a replay. */
  predicate FirstSuccess(s: Store, q: Request) {
    Step(s, q).1.Done? && KeyOf(q).Some? && Prior(s.events, KeyOf(q).value).None?
  }

  function FirstSuccesses(s: Store, qs: seq<Request>): seq<Request>
    decreases |qs|
  {
    if qs == [] then []
    else (if FirstSuccess(s, qs[0]) then [qs[0]] else []) + FirstSuccesses(Step(s, qs[0]).0, qs[1..])
  }

  /** Refusals and replays leave no trace: a run with any number of duplicates and
      failures ends where the run of its first successes ends, one event for each. */
  lemma {:induction false} DuplicatesLeaveNoTrace(s: Store, qs: seq<Request>)
    ensures Run(s, qs) == Run(s, FirstSuccesses(s, qs))
    ensures |Run(s, qs).events| == |s.events| + |FirstSuccesses(s, qs)|
    decreases |qs|
  {
    if qs != [] {
      StepAdvances(s, qs[0]);
      var t := Step(s, qs[0]).0;
      DuplicatesLeaveNoTrace(t, qs[1..]);
      var kept := FirstSuccesses(t, qs[1..]);
      if FirstSuccess(s, qs[0]) {
        assert ([qs[0]] + kept)[1..] == kept;
        FirstSuccessLogs(s, qs[0]);
      } else {
        assert [] + kept == kept;
      }
    }
  }

  lemma FirstSuccessLogs(s: Store, q: Request)
    requires FirstSuccess(s, q)
    ensures |Step(s, q).0.events| == |s.events| + 1
  {
  }
}
