/** Repurchase coupons of one tenant: rule versions, member coupons, the
    append-only event log, the authority functions that write them, and the
    constraints and transition triggers that watch every write independently. */
module CouponAuthority {
  import opened Sql

  datatype RuleStatus = Draft | Published | Paused | Ended
  datatype CouponStatus = Available | Reserved | Used | Expired | Revoked

  /** The commercial terms of a rule version. */
  datatype Terms = Terms(
    ruleKey: string, version: int, benefit: Option<Uuid>, name: string,
    amountMinor: int, minimumSpendMinor: int, productScope: string, productRefs: seq<string>,
    channelScope: string, validityMode: string, validDays: Option<int>,
    fixedFrom: Option<int>, fixedUntil: Option<int>, issuanceLimit: int, createdBy: Option<Uuid>)

  datatype Rule = Rule(
    terms: Terms, issuedCount: int, status: RuleStatus, publishedAt: Option<int>, endedAt: Option<int>)

  datatype Authority = Platform | External(synchronized: bool)

  /** Where a coupon came from: a benefit claim, a scan event with its time, a public code. */
  datatype Source = Source(claim: Option<Uuid>, scanEvent: Option<Uuid>, scanTime: Option<int>,
      publicId: Option<string>)

  datatype Coupon = Coupon(
    membership: Uuid, rule: Uuid, number: string, source: Source, validFrom: int, validUntil: int,
    authority: Authority, status: CouponStatus, version: int,
    reservedOrder: Option<string>, reservationExpires: Option<int>, reservedDiscount: Option<int>,
    usedOrder: Option<string>, usedStore: Option<Uuid>, usedAt: Option<int>,
    revokedAt: Option<int>, revokeReason: Option<string>)

  datatype RuleAction = Create | Publish | Pause | Resume | End | UnknownRuleAction
  datatype CouponAction =
    Issue | Reserve | Commit | Release | Reverse | StoreRedeem | Expire | Revoke | RecordPartialRefund | UnknownAction

  /** A row of the event log. An issue that found an active coupon and a reserve that
      found its own reservation are logged with equal statuses. */
  datatype Event =
    | RuleEvent(id: Uuid, key: string, digest: string, ruleAction: RuleAction, rule: Uuid,
                ruleBefore: Option<RuleStatus>, ruleAfter: RuleStatus)
    | CouponEvent(id: Uuid, key: string, digest: string, action: CouponAction, rule: Uuid, coupon: Uuid,
                  before: Option<CouponStatus>, after: CouponStatus, note: Remark, discount: Option<int>)

  /** The columns of a coupon event that record who acted, where and why. */
  datatype Remark = Remark(order: Option<string>, store: Option<Uuid>, actor: string, reason: Option<string>)

  datatype Store = Store(rules: map<Uuid, Rule>, coupons: map<Uuid, Coupon>, events: seq<Event>)

  /** What other tables say while the request runs; a store is mapped to whether it is
      active. */
  datatype Surroundings = Surroundings(
    activeMembers: set<Uuid>, stores: map<Uuid, bool>, couponBenefits: set<Uuid>, accounts: set<Uuid>,
    claims: set<Uuid>, scans: set<(Uuid, int)>)

  /** `complete` says whether every column of a new rule that must not be NULL is given. */
  datatype RuleRequest = RuleRequest(
    action: RuleAction, key: Option<string>, digest: Option<string>, event: Option<Uuid>, now: int,
    around: Surroundings, rule: Uuid, terms: Terms, complete: bool)

  datatype CouponRequest = CouponRequest(
    action: CouponAction, key: Option<string>, digest: Option<string>, event: Option<Uuid>, now: int,
    around: Surroundings, coupon: Uuid, rule: Uuid, membership: Option<Uuid>, number: Option<string>, source: Source,
    order: Option<string>, goodsMinor: Option<int>, eligibleMinor: Option<int>,
    store: Option<Uuid>, actor: Option<string>, reason: Option<string>)

  datatype Refusal =
    | InvalidRequest | IdempotencyConflict | NotFound
    | BenefitInvalid | RuleTransitionInvalid | RuleNotIssuable | MembershipRequired | ValidityExhausted
    | MembershipMismatch | ChannelNotAllowed | ExternalPending | NotAvailable | OrderNotEligible
    | ReservationMismatch | ReservationExpired | UseMismatch | StoreNotActive | NotExpirable
    | NotRevocable | RevokeReasonRequired
    | ConstraintViolated

  datatype Outcome = Done(id: Uuid) | Refused(why: Refusal)

  const DAY := 86_400
  const RESERVATION_SECONDS := 15 * 60

  const KEY_WIDTH := 120
  const ORDER_WIDTH := 160
  const REASON_WIDTH := 500
  const PUBLIC_ID_WIDTH := 20

  const ACTORS := {"consumer", "store", "brand", "service", "system"}

  // ---------------------------------------------------------------------------
  // Table constraints and row triggers. A CHECK refuses a row only when it is
  // False; Unknown passes.

  function RuleValidityCheck(t: Terms): Truth {
    Known(t.validityMode == "relative").And(Between(t.validDays, 1, 365))
      .And(Known(t.fixedFrom.None? && t.fixedUntil.None?))
    .Or(Known(t.validityMode == "fixed" && t.validDays.None? && t.fixedFrom.Some?)
      .And(Below(t.fixedFrom, t.fixedUntil)))
  }

  function Between(value: Option<int>, low: int, high: int): Truth {
    if value.None? then Unknown else Known(low <= value.value <= high)
  }

  predicate RuleChecks(r: Rule) {
    && 1 <= |r.terms.ruleKey| <= 64 && r.terms.version > 0 && r.terms.amountMinor > 0
    && (r.terms.minimumSpendMinor == 0 || r.terms.minimumSpendMinor > r.terms.amountMinor)
    && r.terms.productScope in {"all", "specified"} && r.terms.channelScope in {"online", "store", "both"}
    && !RuleValidityCheck(r.terms).False?
    && r.terms.issuanceLimit > 0 && 0 <= r.issuedCount <= r.terms.issuanceLimit
    && (match r.status
        case Draft => r.publishedAt.None? && r.endedAt.None?
        case Published => r.publishedAt.Some? && r.endedAt.None?
        case Paused => r.publishedAt.Some? && r.endedAt.None?
        case Ended => r.publishedAt.Some? && r.endedAt.Some?)
  }

  /** `RCP-` and sixteen upper-case hexadecimal digits. */
  predicate NumberFormat(n: string) {
    |n| == 20 && n[..4] == "RCP-" && forall i :: 4 <= i < 20 ==> '0' <= n[i] <= '9' || 'A' <= n[i] <= 'F'
  }

  predicate CouponChecks(c: Coupon) {
    && c.validUntil > c.validFrom && c.version > 0 && NumberFormat(c.number)
    && (c.source.scanEvent.None? <==> c.source.scanTime.None?)
    && (if c.status == Reserved
        then c.reservedOrder.Some? && c.reservationExpires.Some?
            && (c.reservedDiscount.Some? ==> c.reservedDiscount.value > 0)
        else c.reservedOrder.None? && c.reservationExpires.None? && c.reservedDiscount.None?)
    && (if c.status == Used
        then c.usedAt.Some? && (c.usedOrder.Some? || c.usedStore.Some?)
        else c.usedAt.None? && c.usedOrder.None? && c.usedStore.None?)
    && (if c.status == Revoked
        then c.revokedAt.Some? && c.revokeReason.Some? && !Blank(c.revokeReason.value)
        else c.revokedAt.None? && c.revokeReason.None?)
  }

  /** The rule snapshot trigger. */
  predicate RuleTrigger(before: Rule, after: Rule) {
    && (before.status != Draft ==> after.terms == before.terms)
    && (match before.status
        case Draft => after.status in {Draft, Published}
        case Published => after.status in {Published, Paused, Ended}
        case Paused => after.status in {Paused, Published, Ended}
        case Ended => false)
  }

  /** The coupon transition trigger. */
  predicate CouponTrigger(before: Coupon, after: Coupon) {
    && SameCoupon(before, after)
    && (match before.status
        case Available => true
        case Reserved => after.status != Revoked
        case Used => after.status in {Used, Available, Expired}
        case Expired => after.status == Expired
        case Revoked => after.status == Revoked)
    && after.version == before.version + 1
  }

  predicate SameCoupon(before: Coupon, after: Coupon) {
    && after.membership == before.membership && after.rule == before.rule && after.authority == before.authority
    && after.number == before.number && after.source == before.source
    && after.validFrom == before.validFrom && after.validUntil == before.validUntil
  }

  // ---------------------------------------------------------------------------
  // The rule authority

  /** The logged event that already used this idempotency key, if any. */
  function Prior(events: seq<Event>, key: string): Option<Event> {
    if events == [] then None
    else if events[|events| - 1].key == key then Some(events[|events| - 1])
    else Prior(events[..|events| - 1], key)
  }

  predicate Keyed(key: Option<string>, digest: Option<string>) {
    key.Some? && key.value != "" && digest.Some? && |digest.value| == 64
  }

  predicate RuleUnique(s: Store, t: Terms) {
    forall r :: r in s.rules ==>
      && !(s.rules[r].terms.ruleKey == t.ruleKey && s.rules[r].terms.version == t.version)
      && !(t.benefit.Some? && s.rules[r].terms.benefit == t.benefit)
  }

  function RuleTarget(action: RuleAction): RuleStatus
    requires action in {Publish, Pause, Resume, End}
  {
    match action
    case Pause => Paused
    case End => Ended
    case _ => Published
  }

  predicate RuleMoves(action: RuleAction, before: RuleStatus) {
    match action
    case Publish => before == Draft
    case Pause => before == Published
    case Resume => before == Paused
    case End => before in {Published, Paused}
    case _ => false
  }

  /** The event INSERT finds its key column wide enough, and key and id unused. */
  predicate KeyWritable(s: Store, key: string, event: Option<Uuid>) {
    && Stored(key, KEY_WIDTH).Some? && Prior(s.events, Stored(key, KEY_WIDTH).value).None?
    && event.Some? && forall i :: 0 <= i < |s.events| ==> s.events[i].id != event.value
  }

  predicate RuleFits(q: RuleRequest) {
    && q.complete && Stored(Trimmed(q.terms.ruleKey), 64).Some? && Stored(Trimmed(q.terms.name), 200).Some?
    && (q.terms.createdBy.Some? ==> q.terms.createdBy.value in q.around.accounts)
  }

  function NewRule(q: RuleRequest): Rule {
    Rule(q.terms.(ruleKey := Trimmed(q.terms.ruleKey), name := Trimmed(q.terms.name)), 0, Draft, None, None)
  }

  function MovedRule(q: RuleRequest, before: Rule): Rule
    requires q.action in {Publish, Pause, Resume, End}
  {
    before.(status := RuleTarget(q.action),
            publishedAt := if q.action == Publish then Some(q.now) else before.publishedAt,
            endedAt := if q.action == End then Some(q.now) else before.endedAt)
  }

  function RuleLogged(s: Store, q: RuleRequest, before: Option<RuleStatus>, after: RuleStatus): seq<Event>
    requires Keyed(q.key, q.digest) && KeyWritable(s, q.key.value, q.event)
  {
    s.events + [RuleEvent(q.event.value, Stored(q.key.value, KEY_WIDTH).value, q.digest.value, q.action, q.rule,
                          before, after)]
  }

  function RuleStep(s: Store, q: RuleRequest): (Store, Outcome) {
    if q.action == UnknownRuleAction || !Keyed(q.key, q.digest) then (s, Refused(InvalidRequest))
    else match Prior(s.events, q.key.value)
      case Some(e) =>
        if e.RuleEvent? && e.ruleAction == q.action && e.digest == q.digest.value then (s, Done(e.rule))
        else (s, Refused(IdempotencyConflict))
      case None =>
        if q.action == Create then
          var row := NewRule(q);
          if q.terms.benefit.Some? && q.terms.benefit.value !in q.around.couponBenefits then
            (s, Refused(BenefitInvalid))
          else if q.rule in s.rules || !RuleFits(q) || !RuleUnique(s, row.terms) || !RuleChecks(row)
                  || !KeyWritable(s, q.key.value, q.event) then
            (s, Refused(ConstraintViolated))
          else (Store(s.rules[q.rule := row], s.coupons, RuleLogged(s, q, None, Draft)), Done(q.rule))
        else if q.rule !in s.rules then (s, Refused(NotFound))
        else if !RuleMoves(q.action, s.rules[q.rule].status) then (s, Refused(RuleTransitionInvalid))
        else
          var old_ := s.rules[q.rule];
          var row := MovedRule(q, old_);
          if !RuleTrigger(old_, row) || !RuleChecks(row) || !KeyWritable(s, q.key.value, q.event) then
            (s, Refused(ConstraintViolated))
          else (Store(s.rules[q.rule := row], s.coupons, RuleLogged(s, q, Some(old_.status), row.status)), Done(q.rule))
  }

  // ---------------------------------------------------------------------------
  // The coupon authority

  /** What one action decides about its coupon: refuse, log without writing, or
      write a new version of the row. */
  datatype Decision =
    | Refuse(why: Refusal)
    | Note
    | Write(row: Coupon, discount: Option<int>)

  /** LEAST skips NULL arguments. */
  function Least(amount: int, eligible: Option<int>, goods: Option<int>): int {
    var first := if eligible.Some? && eligible.value < amount then eligible.value else amount;
    if goods.Some? && goods.value - 1 < first then goods.value - 1 else first
  }

  predicate OutsideValidity(c: Coupon, now: int) {
    c.validFrom > now || c.validUntil <= now
  }

  function Unreserved(c: Coupon, status: CouponStatus): Coupon {
    c.(status := status, reservedOrder := None, reservationExpires := None, reservedDiscount := None,
       version := c.version + 1)
  }

  function ReturnStatus(c: Coupon, now: int): CouponStatus {
    if c.validUntil > now then Available else Expired
  }

  function DecideReserve(c: Coupon, t: Terms, q: CouponRequest): Decision {
    if Differs(Some(c.membership), q.membership).Taken() then Refuse(MembershipMismatch)
    else if t.channelScope !in {"online", "both"} then Refuse(ChannelNotAllowed)
    else if c.authority == External(false) then Refuse(ExternalPending)
    else if c.status == Reserved && Differs(c.reservedOrder, q.order).False? then Note
    else if c.status != Available || OutsideValidity(c, q.now) then Refuse(NotAvailable)
    else if Below(q.goodsMinor, Some(t.minimumSpendMinor)).Or(Below(q.eligibleMinor, Some(1))).Taken() then
      Refuse(OrderNotEligible)
    else
      var discount := Least(t.amountMinor, q.eligibleMinor, q.goodsMinor);
      if discount <= 0 then Refuse(OrderNotEligible)
      else Write(c.(status := Reserved, reservedOrder := q.order,
                    reservationExpires := Some(q.now + RESERVATION_SECONDS),
                    reservedDiscount := Some(discount), version := c.version + 1), Some(discount))
  }

  function DecideStoreRedeem(c: Coupon, t: Terms, q: CouponRequest): Decision {
    if Differs(Some(c.membership), q.membership).Taken() then Refuse(MembershipMismatch)
    else if t.channelScope !in {"store", "both"} then Refuse(ChannelNotAllowed)
    else if c.authority == External(false) then Refuse(ExternalPending)
    else if c.status != Available || OutsideValidity(c, q.now) then Refuse(NotAvailable)
    else if q.store.None? || q.store.value !in q.around.stores || !q.around.stores[q.store.value] then
      Refuse(StoreNotActive)
    else Write(c.(status := Used, usedStore := q.store, usedAt := Some(q.now), version := c.version + 1), None)
  }

  /** Every action on an existing coupon. */
  function Decide(c: Coupon, t: Terms, q: CouponRequest): Decision {
    match q.action
    case Reserve => DecideReserve(c, t, q)
    case Commit =>
      if Known(c.status != Reserved).Or(Differs(c.reservedOrder, q.order)).Taken() then Refuse(ReservationMismatch)
      else if c.reservationExpires.Some? && c.reservationExpires.value <= q.now then Refuse(ReservationExpired)
      else Write(Unreserved(c, Used).(usedOrder := q.order, usedAt := Some(q.now)), None)
    case Release =>
      if Known(c.status != Reserved).Or(Differs(c.reservedOrder, q.order)).Taken() then Refuse(ReservationMismatch)
      else Write(Unreserved(c, ReturnStatus(c, q.now)), None)
    case Reverse =>
      if Known(c.status != Used).Or(Differs(c.usedOrder, q.order)).Taken() then Refuse(UseMismatch)
      else Write(c.(status := ReturnStatus(c, q.now), usedOrder := None, usedStore := None, usedAt := None,
                    version := c.version + 1), None)
    case StoreRedeem => DecideStoreRedeem(c, t, q)
    case Expire =>
      if c.status !in {Available, Reserved} || c.validUntil > q.now then Refuse(NotExpirable)
      else Write(Unreserved(c, Expired), None)
    case Revoke =>
      if c.status != Available then Refuse(NotRevocable)
      else if q.reason.None? || Trimmed(q.reason.value) == "" then Refuse(RevokeReasonRequired)
      else Write(c.(status := Revoked, revokedAt := Some(q.now), revokeReason := Some(Trimmed(q.reason.value)),
                    version := c.version + 1), None)
    case RecordPartialRefund =>
      if Known(c.status != Used).Or(Differs(c.usedOrder, q.order)).Taken() then Refuse(UseMismatch) else Note
    case _ => Refuse(InvalidRequest)
  }

  predicate ActiveFor(c: Coupon, membership: Uuid, rule: Uuid) {
    c.membership == membership && c.rule == rule && c.status in {Available, Reserved}
  }

  function ActiveCoupons(coupons: map<Uuid, Coupon>, membership: Uuid, rule: Uuid): set<Uuid> {
    set c | c in coupons && ActiveFor(coupons[c], membership, rule)
  }

  /** The active coupon the issue query lands on; which one it is when a restore has
      left several is the planner's choice, here the smallest id. */
  function Chosen(ids: set<Uuid>): (c: Uuid)
    requires |ids| > 0
    ensures c in ids
  {
    LeastExists(ids);
    var c :| c in ids && forall other :: other in ids ==> c <= other;
    c
  }

  /** The validity window a new coupon gets; the end is NULL when a term it needs is NULL. */
  function IssuedFrom(t: Terms, now: int): Option<int> {
    if t.validityMode == "relative" then Some(now) else t.fixedFrom
  }

  function IssuedUntil(t: Terms, now: int): Option<int> {
    if t.validityMode == "relative" then
      if t.validDays.Some? then Some(now + t.validDays.value * DAY) else None
    else t.fixedUntil
  }

  /** The event INSERT of a coupon action finds every column in order. A partial refund
      records its order as given and nothing else of the request. */
  predicate EventWritable(s: Store, q: CouponRequest)
    requires Keyed(q.key, q.digest)
  {
    && KeyWritable(s, q.key.value, q.event)
    && (if q.action == RecordPartialRefund then Fits(q.order, ORDER_WIDTH)
        else
          && Fits(NullIfEmpty(q.order), ORDER_WIDTH) && Fits(NullIfEmpty(q.reason), REASON_WIDTH)
          && (q.store.Some? ==> q.store.value in q.around.stores) && ActorOf(q) in ACTORS)
  }

  function ActorOf(q: CouponRequest): string {
    if NullIfEmpty(q.actor).Some? then q.actor.value else "service"
  }

  function RemarkOf(s: Store, q: CouponRequest): Remark
    requires Keyed(q.key, q.digest) && EventWritable(s, q)
  {
    if q.action == RecordPartialRefund then Remark(Kept(q.order, ORDER_WIDTH), None, "service", None)
    else Remark(Kept(NullIfEmpty(q.order), ORDER_WIDTH), q.store, ActorOf(q), Kept(NullIfEmpty(q.reason), REASON_WIDTH))
  }

  function Logged(s: Store, q: CouponRequest, rule: Uuid, coupon: Uuid, before: Option<CouponStatus>,
                  after: CouponStatus, discount: Option<int>): seq<Event>
    requires Keyed(q.key, q.digest) && EventWritable(s, q)
  {
    s.events + [CouponEvent(q.event.value, Stored(q.key.value, KEY_WIDTH).value, q.digest.value, q.action, rule, coupon,
                            before, after, RemarkOf(s, q), discount)]
  }

  /** What the coupon INSERT demands beyond the CHECKs: an unused id, number and claim, a
      known claim, and a scan event with its time. */
  predicate CouponInsertable(s: Store, q: CouponRequest) {
    && q.coupon !in s.coupons && q.number.Some? && NumberFormat(q.number.value)
    && (forall c :: c in s.coupons ==>
          && s.coupons[c].number != q.number.value
          && !(q.source.claim.Some? && s.coupons[c].source.claim == q.source.claim))
    && (q.source.claim.Some? ==> q.source.claim.value in q.around.claims)
    && (q.source.scanEvent.Some? ==>
          q.source.scanTime.Some? && (q.source.scanEvent.value, q.source.scanTime.value) in q.around.scans)
    && (q.source.scanEvent.None? ==> q.source.scanTime.None?)
    && Fits(NullIfEmpty(q.source.publicId), PUBLIC_ID_WIDTH)
  }

  function NewCouponRow(s: Store, q: CouponRequest, from: int, until: int): Coupon
    requires CouponInsertable(s, q) && q.membership.Some?
  {
    Coupon(q.membership.value, q.rule, q.number.value,
           q.source.(publicId := Kept(NullIfEmpty(q.source.publicId), PUBLIC_ID_WIDTH)), from, until,
           Platform, Available, 1, None, None, None, None, None, None, None, None)
  }

  function IssueStep(s: Store, q: CouponRequest): (Store, Outcome)
    requires Keyed(q.key, q.digest)
  {
    if q.rule !in s.rules || s.rules[q.rule].status != Published
       || s.rules[q.rule].issuedCount >= s.rules[q.rule].terms.issuanceLimit then (s, Refused(RuleNotIssuable))
    else if q.membership.None? || q.membership.value !in q.around.activeMembers then (s, Refused(MembershipRequired))
    else
      var rule := s.rules[q.rule];
      var active := ActiveCoupons(s.coupons, q.membership.value, q.rule);
      if |active| > 0 then
        var found := Chosen(active);
        var status := s.coupons[found].status;
        if !EventWritable(s, q) then (s, Refused(ConstraintViolated))
        else (s.(events := Logged(s, q, q.rule, found, Some(status), status, None)), Done(found))
      else
        var from, until := IssuedFrom(rule.terms, q.now), IssuedUntil(rule.terms, q.now);
        if until.None? || until.value <= q.now then (s, Refused(ValidityExhausted))
        else if from.None? || !CouponInsertable(s, q) || !EventWritable(s, q) then (s, Refused(ConstraintViolated))
        else
          var row := NewCouponRow(s, q, from.value, until.value);
          var counted := rule.(issuedCount := rule.issuedCount + 1);
          if !CouponChecks(row) || !RuleTrigger(rule, counted) || !RuleChecks(counted) then
            (s, Refused(ConstraintViolated))
          else
            (Store(s.rules[q.rule := counted], s.coupons[q.coupon := row],
                   Logged(s, q, q.rule, q.coupon, None, Available, None)), Done(q.coupon))
  }

  /** The text columns of a coupon UPDATE are wide enough. */
  predicate RowFits(c: Coupon) {
    && Fits(c.reservedOrder, ORDER_WIDTH) && Fits(c.usedOrder, ORDER_WIDTH) && Fits(c.revokeReason, REASON_WIDTH)
  }

  function StoredRow(c: Coupon): Coupon
    requires RowFits(c)
  {
    c.(reservedOrder := Kept(c.reservedOrder, ORDER_WIDTH), usedOrder := Kept(c.usedOrder, ORDER_WIDTH),
       revokeReason := Kept(c.revokeReason, REASON_WIDTH))
  }

  function ChangeStep(s: Store, q: CouponRequest): (Store, Outcome)
    requires Keyed(q.key, q.digest)
  {
    if q.coupon !in s.coupons || s.coupons[q.coupon].rule !in s.rules then (s, Refused(NotFound))
    else
      var c := s.coupons[q.coupon];
      match Decide(c, s.rules[c.rule].terms, q)
      case Refuse(why) => (s, Refused(why))
      case Note =>
        if !EventWritable(s, q) then (s, Refused(ConstraintViolated))
        else (s.(events := Logged(s, q, c.rule, q.coupon, Some(c.status), c.status, None)), Done(q.coupon))
      case Write(row, discount) =>
        if !RowFits(row) || !CouponTrigger(c, StoredRow(row)) || !CouponChecks(StoredRow(row))
           || !EventWritable(s, q) then
          (s, Refused(ConstraintViolated))
        else (s.(coupons := s.coupons[q.coupon := StoredRow(row)],
                 events := Logged(s, q, c.rule, q.coupon, Some(c.status), row.status, discount)), Done(q.coupon))
  }

  function CouponStep(s: Store, q: CouponRequest): (Store, Outcome) {
    if q.action == UnknownAction || !Keyed(q.key, q.digest) then (s, Refused(InvalidRequest))
    else match Prior(s.events, q.key.value)
      case Some(e) =>
        if e.CouponEvent? && e.action == q.action && e.digest == q.digest.value then (s, Done(e.coupon))
        else (s, Refused(IdempotencyConflict))
      case None =>
        if q.action == Issue then IssueStep(s, q) else ChangeStep(s, q)
  }

  // ---------------------------------------------------------------------------
  // Runs

  datatype Request = ForRule(ruleRequest: RuleRequest) | ForCoupon(couponRequest: CouponRequest)

  function Step(s: Store, q: Request): (Store, Outcome) {
    match q
    case ForRule(r) => RuleStep(s, r)
    case ForCoupon(c) => CouponStep(s, c)
  }

  function Run(s: Store, qs: seq<Request>): Store
    decreases |qs|
  {
    if qs == [] then s else Run(Step(s, qs[0]).0, qs[1..])
  }

  const EMPTY := Store(map[], map[], [])
}
