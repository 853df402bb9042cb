/** Marketing notifications of one tenant: the authority functions that create, lease
    and settle deliveries, and the preference and consent triggers that cancel them. */
module MarketingAuthority {
  import opened Sql

  // ---------------------------------------------------------------------------
  // Time, in microseconds

  const SECOND := 1_000_000
  const MINUTE := 60_000_000
  const HOUR := 3_600_000_000
  const DAY := 86_400_000_000
  const WEEK := 604_800_000_000

  /** Asia/Shanghai is eight hours ahead of UTC. */
  function Local(at: int): int { at + 8 * HOUR }

  function LocalDay(at: int): int { Local(at) / DAY }

  function LocalHour(at: int): int { (Local(at) % DAY) / HOUR }

  /** When a delivery created now is first due. */
  function DueAt(now: int): int {
    if LocalHour(now) >= 21 then (LocalDay(now) + 1) * DAY + 8 * HOUR - 8 * HOUR
    else if LocalHour(now) < 8 then LocalDay(now) * DAY + 8 * HOUR - 8 * HOUR
    else now
  }

  // ---------------------------------------------------------------------------
  // Tables

  datatype Class = Service | Marketing
  datatype Happening = Happening(product: string, id: string, version: int, kind: string)
  datatype Notification = Notification(membership: Uuid, class_: Class, happening: Happening)

  datatype DeliveryStatus = AuthorizationMissing | Pending | Delivering | Accepted | Failed | Exhausted | Suppressed
  datatype Delivery = Delivery(
    notification: Uuid, grant: Option<Uuid>, status: DeliveryStatus, attempts: int, nextAttempt: Option<int>,
    lease: Option<Uuid>, leaseUntil: Option<int>, createdAt: int)

  datatype GrantStatus = Available | Consumed | Expired | Revoked
  datatype Grant = Grant(
    membership: Uuid, template: string, purpose: Class, reference: string, status: GrantStatus,
    authorizedAt: int, expiresAt: int)

  datatype Preference = Preference(enabled: bool, consent: Option<Uuid>)

  /** A consent record; `forMarketing` is its type and purpose. */
  datatype Consent = Consent(granted: bool, forMarketing: bool, withdrawn: bool)

  datatype Tables = Tables(
    notifications: map<Uuid, Notification>,
    deliveries: map<Uuid, Delivery>,
    grants: map<Uuid, Grant>,
    preferences: map<Uuid, Preference>,
    consents: map<Uuid, Consent>)

  predicate ConsentStands(c: Consent) {
    c.granted && c.forMarketing && !c.withdrawn
  }

  /** Marketing is enabled for the membership and rests on a standing consent. */
  predicate MayMarket(t: Tables, m: Uuid) {
    && m in t.preferences && t.preferences[m].enabled
    && t.preferences[m].consent.Some? && t.preferences[m].consent.value in t.consents
    && ConsentStands(t.consents[t.preferences[m].consent.value])
  }

  predicate Live(d: Delivery) {
    d.status in {Pending, Failed, Delivering}
  }

  /** A delivery the frequency caps count. */
  predicate Counted(d: Delivery) {
    d.status in {Pending, Delivering, Accepted, Failed, Exhausted}
  }

  predicate MarketingFor(t: Tables, d: Uuid, m: Uuid) {
    && d in t.deliveries && t.deliveries[d].notification in t.notifications
    && t.notifications[t.deliveries[d].notification].membership == m
    && t.notifications[t.deliveries[d].notification].class_ == Marketing
  }

  /** The lease CHECK and the attempts CHECK. */
  predicate DeliveryChecks(d: Delivery) {
    && (d.status == Delivering <==> d.lease.Some? && d.leaseUntil.Some?)
    && (d.status != Delivering ==> d.lease.None? && d.leaseUntil.None?)
    && 0 <= d.attempts <= 3
  }

  // ---------------------------------------------------------------------------
  // Creating

  datatype CreateRequest = CreateRequest(
    membership: Uuid, happening: Happening, notification: Uuid, delivery: Uuid, template: string, now: int)

  datatype Answer = Nothing | Id(id: Uuid) | Refused

  function OnDay(t: Tables, m: Uuid, day: int): set<Uuid> {
    set d | d in t.deliveries && MarketingFor(t, d, m) && Counted(t.deliveries[d])
        && LocalDay(t.deliveries[d].createdAt) == day
  }

  function After(t: Tables, m: Uuid, at: int): set<Uuid> {
    set d | d in t.deliveries && MarketingFor(t, d, m) && Counted(t.deliveries[d]) && t.deliveries[d].createdAt > at
  }

  predicate Usable(t: Tables, g: Uuid, q: CreateRequest) {
    && g in t.grants && t.grants[g].membership == q.membership && t.grants[g].template == q.template
    && t.grants[g].purpose == Marketing && t.grants[g].status == Available
    && t.grants[g].authorizedAt <= q.now < t.grants[g].expiresAt
  }

  /** The grant the query may pick: one of the earliest authorized usable ones. */
  predicate Picks(t: Tables, q: CreateRequest, grant: Option<Uuid>) {
    match grant
    case None => forall g :: g in t.grants ==> !Usable(t, g, q)
    case Some(g) =>
      Usable(t, g, q) && forall h ::
          h in t.grants && Usable(t, h, q) ==> t.grants[g].authorizedAt <= t.grants[h].authorizedAt
  }

  predicate Known(t: Tables, happening: Happening) {
    exists n :: n in t.notifications && t.notifications[n].happening == happening
  }

  predicate Capped(t: Tables, q: CreateRequest) {
    |OnDay(t, q.membership, LocalDay(q.now))| >= 1 || |After(t, q.membership, q.now - WEEK)| >= 3
  }

  /** The function after it found the membership reachable and the event new. */
  function Created(t: Tables, q: CreateRequest, grant: Option<Uuid>): Tables {
    var outcome := if Capped(t, q) then Suppressed else if grant.None? then AuthorizationMissing else Pending;
    var used := if Capped(t, q) then None else grant;
    t.(notifications := t.notifications[q.notification := Notification(q.membership, Marketing, q.happening)],
       deliveries := t.deliveries[q.delivery := Delivery(q.notification, used, outcome, 0,
                                                        if outcome == Pending then Some(DueAt(q.now)) else None,
                                                        None, None, q.now)],
       grants := if outcome == Pending && grant.value in t.grants
                 then t.grants[grant.value := t.grants[grant.value].(status := Consumed)] else t.grants)
  }

  predicate Collides(t: Tables, q: CreateRequest) {
    q.notification in t.notifications || q.delivery in t.deliveries
  }

  /** The whole function, for one possible pick; `NotificationOf` answers a known event. */
  ghost function CreateStep(t: Tables, q: CreateRequest, grant: Option<Uuid>): (Tables, Answer) {
    if !MayMarket(t, q.membership) then (t, Nothing)
    else if Known(t, q.happening) then (t, Id(NotificationOf(t, q.happening)))
    else if Collides(t, q) then (t, Refused)
    else (Created(t, q, grant), Id(q.notification))
  }

  ghost function NotificationOf(t: Tables, happening: Happening): Uuid
    requires Known(t, happening)
  {
    var n :| n in t.notifications && t.notifications[n].happening == happening;
    n
  }

  // ---------------------------------------------------------------------------
  // Leasing

  predicate Attemptable(d: Delivery, now: int) {
    && d.nextAttempt.Some? && d.nextAttempt.value <= now
    && (d.status in {Pending, Failed}
        || (d.status == Delivering && d.leaseUntil.Some? && d.leaseUntil.value <= now))
  }

  function Dropped(d: Delivery): Delivery {
    d.(status := Suppressed, nextAttempt := None, lease := None, leaseUntil := None)
  }

  /** The consent test of the lease: a marketing delivery whose membership may not be
      marketed to. */
  predicate Unwelcome(t: Tables, d: Uuid) {
    && d in t.deliveries && t.deliveries[d].notification in t.notifications
    && var n := t.notifications[t.deliveries[d].notification];
       n.class_ == Marketing && !MayMarket(t, n.membership)
  }

  /** None stands for the constraint violation a NULL token causes. */
  function LeaseStep(t: Tables, d: Uuid, token: Option<Uuid>, now: int): Option<(Tables, bool)> {
    if d !in t.deliveries || !Attemptable(t.deliveries[d], now) then Some((t, false))
    else if Unwelcome(t, d) then
      Some((t.(deliveries := t.deliveries[d := Dropped(t.deliveries[d])]), false))
    else if token.None? then None
    else Some((t.(deliveries := t.deliveries[d := t.deliveries[d].(status := Delivering, lease := token,
                                                                  leaseUntil := Some(now + 30 * SECOND))]), true))
  }

  // ---------------------------------------------------------------------------
  // Settling

  /** The reported result; `Other` is any other value, NULL included. */
  datatype Result = AcceptedResult | TransientFailure | PermanentFailure | Other

  datatype ResultRequest = ResultRequest(
    delivery: Uuid, token: Option<Uuid>, result: Result, messageRef: bool, errorCode: bool, now: int)

  predicate EvidenceFits(q: ResultRequest) {
    match q.result
    case AcceptedResult => q.messageRef && !q.errorCode
    case TransientFailure => q.errorCode && !q.messageRef
    case PermanentFailure => q.errorCode && !q.messageRef
    case Other => true
  }

  predicate HoldsLease(t: Tables, q: ResultRequest) {
    && q.delivery in t.deliveries && t.deliveries[q.delivery].status == Delivering
    && t.deliveries[q.delivery].lease == q.token
    && t.deliveries[q.delivery].leaseUntil.Some? && q.now < t.deliveries[q.delivery].leaseUntil.value
  }

  /** 2 to the power `n`. */
  function Doubled(n: nat): int
    ensures Doubled(n) >= 1
  {
    if n == 0 then 1 else 2 * Doubled(n - 1)
  }

  function Settled(d: Delivery, result: Result, now: int): Option<Delivery> {
    var n := d.attempts + 1;
    if result == AcceptedResult then
      Some(d.(status := Accepted, attempts := n, nextAttempt := None, lease := None, leaseUntil := None))
    else if result == PermanentFailure || n >= 3 then
      Some(d.(status := Exhausted, attempts := n, nextAttempt := None, lease := None, leaseUntil := None))
    else if result == TransientFailure then
      Some(d.(status := Failed, attempts := n,
              nextAttempt := Some(now + 5 * MINUTE * Doubled(if n >= 1 then n - 1 else 0)),
              lease := None, leaseUntil := None))
    else None
  }

  /** None when the report is refused. */
  function ResultStep(t: Tables, q: ResultRequest): Option<Tables> {
    if !EvidenceFits(q) || !HoldsLease(t, q) then None
    else match Settled(t.deliveries[q.delivery], q.result, q.now)
      case None => None
      case Some(d) => if DeliveryChecks(d) then Some(t.(deliveries := t.deliveries[q.delivery := d])) else None
  }

  // ---------------------------------------------------------------------------
  // Preferences and consents

  /** Every live marketing delivery of these memberships is suppressed. */
  function Cancelled(t: Tables, members: set<Uuid>): map<Uuid, Delivery> {
    map d | d in t.deliveries
      :: if Live(t.deliveries[d]) && MarketingAmong(t, d, members) then Dropped(t.deliveries[d]) else t.deliveries[d]
  }

  predicate MarketingAmong(t: Tables, d: Uuid, members: set<Uuid>) {
    && d in t.deliveries && t.deliveries[d].notification in t.notifications
    && t.notifications[t.deliveries[d].notification].class_ == Marketing
    && t.notifications[t.deliveries[d].notification].membership in members
  }

  function Withdrawn(t: Tables, members: set<Uuid>): map<Uuid, Grant> {
    map g | g in t.grants
      :: if t.grants[g].purpose == Marketing && t.grants[g].status == Available && t.grants[g].membership in members
         then t.grants[g].(status := Revoked) else t.grants[g]
  }

  /** A new authorization; its CHECKs come first, then a reference already used is skipped. */
  datatype GrantRequest = GrantRequest(id: Uuid, grant: Grant, now: int)

  predicate GrantFits(q: GrantRequest) {
    && q.grant.status == Available && q.grant.expiresAt > q.grant.authorizedAt
    && q.now - 5 * MINUTE <= q.grant.authorizedAt <= q.now + MINUTE && q.grant.expiresAt <= q.grant.authorizedAt + WEEK
  }

  function AddGrant(t: Tables, q: GrantRequest): Option<Tables> {
    if !GrantFits(q) then None
    else if exists g :: g in t.grants && t.grants[g].reference == q.grant.reference then Some(t)
    else if q.id in t.grants then None
    else Some(t.(grants := t.grants[q.id := q.grant]))
  }

  /** Subscribing needs a standing consent and brings a grant. */
  function SubscribeStep(t: Tables, m: Uuid, consent: Uuid, q: GrantRequest): Option<Tables> {
    if consent !in t.consents || !ConsentStands(t.consents[consent]) || q.grant.membership != m
        || q.grant.purpose != Marketing
    then None
    else AddGrant(t.(preferences := t.preferences[m := Preference(true, Some(consent))]), q)
  }

  /** Unsubscribing: the trigger on the preference cancels what is live, then the
      function itself revokes the open grants and suppresses what is not under way. */
  function UnsubscribeStep(t: Tables, m: Uuid): Tables {
    var was := m in t.preferences && t.preferences[m].enabled;
    var consent := if m in t.preferences then t.preferences[m].consent else None;
    var off := t.(preferences := t.preferences[m := Preference(false, consent)]);
    var triggered := if was then off.(deliveries := Cancelled(off, {m})) else off;
    triggered.(grants := Withdrawn(triggered, {m}), deliveries := CancelledIdle(triggered, m))
  }

  function CancelledIdle(t: Tables, m: Uuid): map<Uuid, Delivery> {
    map d | d in t.deliveries
      :: if t.deliveries[d].status in {Pending, Failed} && MarketingAmong(t, d, {m})
         then t.deliveries[d].(status := Suppressed, nextAttempt := None) else t.deliveries[d]
  }

  function MembersOn(t: Tables, consent: Uuid): set<Uuid> {
    set m | m in t.preferences && t.preferences[m].consent == Some(consent)
  }

  /** A consent record changes status; the trigger fires when a standing grant is given
      up. Its type and purpose are fixed. */
  function ConsentStep(t: Tables, id: Uuid, granted: bool, withdrawn: bool): Tables {
    if id !in t.consents then t
    else
      var before := t.consents[id];
      var changed := t.(consents := t.consents[id := before.(granted := granted, withdrawn := withdrawn)]);
      if before.granted && !before.withdrawn && (!granted || withdrawn) then
        changed.(grants := Withdrawn(changed, MembersOn(t, id)), deliveries := Cancelled(changed, MembersOn(t, id)))
      else changed
  }

  /** A service notification, which needs no consent and uses service grants of its member
      only. */
  datatype ServiceRequest = ServiceRequest(
    membership: Uuid, happening: Happening, notification: Uuid, delivery: Uuid, grant: Option<Uuid>, enabled: bool,
        now: int)

  function ServiceStep(t: Tables, q: ServiceRequest): Option<Tables> {
    if || q.notification in t.notifications || q.delivery in t.deliveries || Known(t, q.happening)
       || (q.grant.Some? && !(q.grant.value in t.grants && t.grants[q.grant.value].purpose == Service
                              && t.grants[q.grant.value].status == Available
                              && t.grants[q.grant.value].membership == q.membership
                              && q.now < t.grants[q.grant.value].expiresAt))
    then None
    else
      var used := if q.enabled then q.grant else None;
      var outcome := if !q.enabled then Suppressed else if used.None? then AuthorizationMissing else Pending;
      Some(t.(notifications := t.notifications[q.notification := Notification(q.membership, Service, q.happening)],
              deliveries := t.deliveries[q.delivery := Delivery(q.notification, used, outcome, 0,
                                                               if outcome == Pending then Some(q.now) else None,
                                                               None, None, q.now)],
              grants := if used.Some? then t.grants[used.value := t.grants[used.value].(status := Consumed)]
                        else t.grants))
  }
}
