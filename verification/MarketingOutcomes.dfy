/** What each marketing call does, read off the tables: which grant a creation may use and
    what it ends in, when a delivery is leased, what a result makes of it, and what opting
    in, opting out and withdrawing leave behind. Times are microseconds. */
module MarketingOutcomes {
  import opened Sql
  import opened MarketingAuthority
  import opened MarketingLaws
  import opened MarketingProtocol
  import opened MarketingMoves
  import opened MarketingRuns

  // ---------------------------------------------------------------------------
  // Whose grant it was

  /** Over every interleaving, whatever grant a delivery carries was given by the member its
      notification is for, for that class of notification and for the time it was created
      at; a marketing delivery that counts carries one. */
  lemma GrantsAreOwn(s: State, steps: seq<Step>, d: Uuid)
    requires Inv(s) && d in Run(s, steps).db.deliveries
    ensures var t := Run(s, steps).db;
            var row := t.deliveries[d];
            && row.notification in t.notifications
            && (row.status in {Pending, Delivering, Accepted, DeliveryStatus.Failed, Exhausted} ==> row.grant.Some?)
            && (row.grant.Some? ==>
                  && row.grant.value in t.grants
                  && var g, n := t.grants[row.grant.value], t.notifications[row.notification];
                     && g.membership == n.membership && g.purpose == n.class_ && g.status == Consumed
                     && row.createdAt < g.expiresAt && (n.class_ == Marketing ==> g.authorizedAt <= row.createdAt))
  {
    RunKeepsInv(s, steps);
    var t := Run(s, steps).db;
    assert RowShape(t.deliveries[d]) && Backed(t, t.deliveries[d]);
  }

  /** The member may use the grant for a marketing notification under this template now. */
  predicate Serves(t: Tables, g: Uuid, q: CreateRequest) {
    && g in t.grants && t.grants[g].membership == q.membership && t.grants[g].purpose == Marketing
    && t.grants[g].template == q.template && t.grants[g].status == Available
    && t.grants[g].authorizedAt <= q.now && q.now < t.grants[g].expiresAt
  }

  /** A creation that finishes beside others, if it consumes a grant at all, consumes one
      that served it, for the delivery it adds, and that delivery is the pending one. */
  lemma CreationConsumesOwn(s: State, id: Uuid, q: CreateRequest, choice: Choice, g: Uuid)
    requires id in s.txs && |s.txs[id].agenda| == 1 && s.txs[id].agenda[0] == FinishCreate(q)
    requires Next(s, Do(id, Finish(choice))) != s
    requires g in ViewOf(s, id).grants
    ensures var v, w := ViewOf(s, id), ViewOf(Next(s, Do(id, Finish(choice))), id);
            && g in w.grants
            && (w.grants[g] != v.grants[g] ==>
                  && Serves(v, g, q) && w.grants[g] == v.grants[g].(status := Consumed)
                  && q.delivery !in v.deliveries && q.delivery in w.deliveries
                  && w.deliveries[q.delivery].grant == Some(g) && w.deliveries[q.delivery].status == Pending)
  {
    DoTakes(s, id, Finish(choice));
    var v := ViewOf(s, id);
    var e := Plan(v, s.txs[id], Finish(choice)).value;
    AdvancedView(s, id, e);
    CreationPlanned(v, s.txs[id], q, choice);
    CreationDelta(v, q, choice, g);
  }

  lemma CreationPlanned(v: Tables, tx: Tx, q: CreateRequest, choice: Choice)
    requires |tx.agenda| == 1 && tx.agenda[0] == FinishCreate(q) && Plan(v, tx, Finish(choice)).Some?
    ensures ClosingCreate(v, q, choice).Some?
    ensures Plan(v, tx, Finish(choice)).value.delta == ClosingCreate(v, q, choice).value.delta
  {
  }

  lemma CreationDelta(v: Tables, q: CreateRequest, choice: Choice, g: Uuid)
    requires ClosingCreate(v, q, choice).Some? && g in v.grants
    ensures var e := ClosingCreate(v, q, choice).value;
            g in e.delta.grants ==>
              && Serves(v, g, q) && e.delta.grants[g] == v.grants[g].(status := Consumed)
              && q.delivery !in v.deliveries && q.delivery in e.delta.deliveries
              && e.delta.deliveries[q.delivery].grant == Some(g) && e.delta.deliveries[q.delivery].status == Pending
  {
  }

  // ---------------------------------------------------------------------------
  // What one creation ends in

  /** Marketing is enabled for the member under a consent that was given for marketing and
      not withdrawn. */
  predicate Reachable(t: Tables, m: Uuid) {
    && m in t.preferences && t.preferences[m].enabled && t.preferences[m].consent.Some?
    && t.preferences[m].consent.value in t.consents
    && var c := t.consents[t.preferences[m].consent.value];
       c.granted && c.forMarketing && !c.withdrawn
  }

  /** A marketing delivery of the member that was not suppressed and had its authorization. */
  predicate Reckoned(t: Tables, d: Uuid, m: Uuid) {
    && d in t.deliveries && t.deliveries[d].notification in t.notifications
    && t.notifications[t.deliveries[d].notification].membership == m
    && t.notifications[t.deliveries[d].notification].class_ == Marketing
    && t.deliveries[d].status != Suppressed && t.deliveries[d].status != AuthorizationMissing
  }

  /** The day in Shanghai, eight hours ahead. */
  function ShanghaiDay(at: int): int {
    (at + 28_800_000_000) / 86_400_000_000
  }

  predicate HadToday(t: Tables, q: CreateRequest, d: Uuid) {
    Reckoned(t, d, q.membership) && ShanghaiDay(t.deliveries[d].createdAt) == ShanghaiDay(q.now)
  }

  predicate HadInWeek(t: Tables, q: CreateRequest, d: Uuid) {
    Reckoned(t, d, q.membership) && t.deliveries[d].createdAt > q.now - 604_800_000_000
  }

  predicate ThreeInWeek(t: Tables, q: CreateRequest, a: Uuid, b: Uuid, c: Uuid) {
    a != b && a != c && b != c && HadInWeek(t, q, a) && HadInWeek(t, q, b) && HadInWeek(t, q, c)
  }

  ghost predicate Limited(t: Tables, q: CreateRequest) {
    (exists d :: HadToday(t, q, d)) || exists a, b, c :: ThreeInWeek(t, q, a, b, c)
  }

  lemma SizeOne(s: set<Uuid>)
    ensures |s| >= 1 <==> exists a :: a in s
  {
    if forall a :: a !in s {
      assert s == {};
    }
  }

  lemma SizeThree(s: set<Uuid>)
    ensures |s| >= 3 <==> exists a, b, c :: a in s && b in s && c in s && a != b && a != c && b != c
  {
    if |s| >= 3 {
      SizeOne(s);
      var a :| a in s;
      SizeOne(s - {a});
      var b :| b in s - {a};
      SizeOne(s - {a} - {b});
      var c :| c in s - {a} - {b};
      assert a in s && b in s && c in s && a != b && a != c && b != c;
    }
    if a, b, c :| a in s && b in s && c in s && a != b && a != c && b != c {
      SubsetSize({a, b, c}, s);
    }
  }

  lemma LimitedIff(t: Tables, q: CreateRequest)
    ensures Limited(t, q) <==> Capped(t, q)
  {
    var today, week := OnDay(t, q.membership, LocalDay(q.now)), After(t, q.membership, q.now - WEEK);
    assert forall d :: d in today <==> HadToday(t, q, d);
    assert forall d :: d in week <==> HadInWeek(t, q, d);
    SizeOne(today);
    SizeThree(week);
    if exists a, b, c :: a in week && b in week && c in week && a != b && a != c && b != c {
      var a, b, c :| a in week && b in week && c in week && a != b && a != c && b != c;
      assert ThreeInWeek(t, q, a, b, c);
    }
  }

  predicate Earliest(t: Tables, g: Uuid, q: CreateRequest) {
    && Serves(t, g, q)
    && forall h :: h in t.grants && Serves(t, h, q) ==> t.grants[g].authorizedAt <= t.grants[h].authorizedAt
  }

  /** The grant query may pick just these: an earliest authorized one of those that serve the
      creation, or none when none does. */
  lemma PicksIff(t: Tables, q: CreateRequest, pick: Option<Uuid>)
    ensures Picks(t, q, pick)
            <==> if pick.Some? then Earliest(t, pick.value, q) else forall g :: !Serves(t, g, q)
  {
    assert forall g :: g in t.grants ==> (Serves(t, g, q) <==> Usable(t, g, q));
  }

  /** The member may be reached, the event is new, and so are the ids. */
  predicate Creatable(t: Tables, q: CreateRequest) {
    && Reachable(t, q.membership) && q.notification !in t.notifications && q.delivery !in t.deliveries
    && forall n :: n in t.notifications ==> t.notifications[n].happening != q.happening
  }

  /** What a creation ends in: suppressed if and only if the member had a marketing delivery
      that day or three in the last seven days; otherwise without authorization if and only
      if no grant serves it; otherwise pending, and then one of the earliest authorized
      grants that serve it, and no other, has been consumed for it. */
  lemma CreationEndsIn(t: Tables, q: CreateRequest, pick: Option<Uuid>)
    requires Creatable(t, q) && Picks(t, q, pick)
    ensures var (u, answer) := CreateStep(t, q, pick);
            && answer == Id(q.notification) && q.delivery in u.deliveries
            && var row := u.deliveries[q.delivery];
               && (row.status == Suppressed <==> Limited(t, q))
               && (row.status == AuthorizationMissing <==> !Limited(t, q) && forall g :: !Serves(t, g, q))
               && (row.status == Pending <==> !Limited(t, q) && exists g :: Serves(t, g, q))
               && (row.status == Pending ==>
                     row.grant.Some? && Earliest(t, row.grant.value, q)
                     && u.grants == t.grants[row.grant.value := t.grants[row.grant.value].(status := Consumed)])
               && (row.status != Pending ==> row.grant.None? && u.grants == t.grants)
  {
    LimitedIff(t, q);
    assert Reachable(t, q.membership) <==> MayMarket(t, q.membership);
    assert forall g :: g in t.grants ==> (Serves(t, g, q) <==> Usable(t, g, q));
  }

  /** The rows it adds, and that it touches no others. */
  lemma CreationAdds(t: Tables, q: CreateRequest, pick: Option<Uuid>)
    requires Creatable(t, q)
    ensures var u := CreateStep(t, q, pick).0;
            && u.notifications
               == t.notifications[q.notification := Notification(q.membership, Marketing, q.happening)]
            && q.delivery in u.deliveries && u.deliveries == t.deliveries[q.delivery := u.deliveries[q.delivery]]
            && u.preferences == t.preferences && u.consents == t.consents
            && var row := u.deliveries[q.delivery];
               && row.notification == q.notification && row.createdAt == q.now && row.attempts == 0
               && row.lease.None? && row.leaseUntil.None?
               && row.nextAttempt == if row.status == Pending then Some(DueAt(q.now)) else None
  {
  }

  /** A creation for somebody who may not be reached answers nothing, one for an event on
      record answers its notification, and neither changes anything. */
  lemma CreationNeedsReach(t: Tables, q: CreateRequest, pick: Option<Uuid>)
    ensures !Reachable(t, q.membership) ==> CreateStep(t, q, pick) == (t, Nothing)
    ensures forall n ::
        Reachable(t, q.membership) && n in t.notifications && t.notifications[n].happening == q.happening ==>
              && CreateStep(t, q, pick).0 == t && CreateStep(t, q, pick).1.Id?
              && CreateStep(t, q, pick).1.id in t.notifications
              && t.notifications[CreateStep(t, q, pick).1.id].happening == q.happening
    ensures CreateStep(t, q, pick).1 == Refused ==> CreateStep(t, q, pick).0 == t && !Creatable(t, q)
  {
  }

  // ---------------------------------------------------------------------------
  // Leases

  /** Waiting for its time, or under a lease that has run out. */
  predicate Due(row: Delivery, now: int) {
    && row.nextAttempt.Some? && row.nextAttempt.value <= now
    && (|| row.status == Pending || row.status == DeliveryStatus.Failed
        || (row.status == Delivering && row.leaseUntil.Some? && row.leaseUntil.value <= now))
  }

  /** Only marketing deliveries need a reachable member. */
  predicate Sendable(t: Tables, d: Uuid) {
    d in t.deliveries && t.deliveries[d].notification in t.notifications ==>
      var n := t.notifications[t.deliveries[d].notification];
      n.class_ == Service || Reachable(t, n.membership)
  }

  /** A lease is granted if and only if the delivery is due, its member may be reached, and
      a token is given; it then lasts thirty seconds. A due delivery whose member may not
      be reached is suppressed, and nothing else is ever written. */
  lemma LeaseGrantedIff(t: Tables, d: Uuid, token: Option<Uuid>, now: int)
    ensures LeaseStep(t, d, token, now).Some? && LeaseStep(t, d, token, now).value.1
            <==> d in t.deliveries && Due(t.deliveries[d], now) && Sendable(t, d) && token.Some?
    ensures LeaseStep(t, d, token, now).None?
            <==> d in t.deliveries && Due(t.deliveries[d], now) && Sendable(t, d) && token.None?
    ensures LeaseStep(t, d, token, now).Some? ==>
              LeaseStep(t, d, token, now).value.0
              == if d !in t.deliveries || !Due(t.deliveries[d], now) then t
                 else if !Sendable(t, d) then
                   t.(deliveries := t.deliveries[d := t.deliveries[d].(status := Suppressed, nextAttempt := None,
                                                                      lease := None, leaseUntil := None)])
                 else
                   t.(deliveries := t.deliveries[d := t.deliveries[d].(status := Delivering, lease := token,
                                                                      leaseUntil := Some(now + 30_000_000))])
  {
  }

  // ---------------------------------------------------------------------------
  // Results

  /** The delivery is under way under this token, and its lease has not run out. */
  predicate UnderToken(t: Tables, q: ResultRequest) {
    && q.delivery in t.deliveries && t.deliveries[q.delivery].status == Delivering
    && t.deliveries[q.delivery].lease == q.token
    && t.deliveries[q.delivery].leaseUntil.Some? && t.deliveries[q.delivery].leaseUntil.value > q.now
  }

  /** A success names its message and no error, a failure an error and no message. */
  predicate Evidenced(q: ResultRequest) {
    && (q.result == AcceptedResult ==> q.messageRef && !q.errorCode)
    && (q.result in {TransientFailure, PermanentFailure} ==> q.errorCode && !q.messageRef)
  }

  /** A result is taken if and only if the delivery is under way under its token, its
      evidence fits, and it is a known one or the third. */
  lemma ResultTakenIff(t: Tables, q: ResultRequest)
    requires RowsOk(t)
    ensures ResultStep(t, q).Some?
            <==> UnderToken(t, q) && Evidenced(q) && (q.result != Other || t.deliveries[q.delivery].attempts == 2)
  {
    if q.delivery in t.deliveries {
      assert RowShape(t.deliveries[q.delivery]);
    }
  }

  /** What it makes of the delivery: accepted by a success, failed by a passing failure
      that is not the third, exhausted otherwise; one attempt more, no lease, and another
      attempt only after a failed one. */
  lemma ResultSettles(t: Tables, q: ResultRequest)
    requires RowsOk(t) && ResultStep(t, q).Some? && q.delivery in t.deliveries
    ensures var u, before := ResultStep(t, q).value, t.deliveries[q.delivery];
            && q.delivery in u.deliveries
            && var row := u.deliveries[q.delivery];
               && u == t.(deliveries := t.deliveries[q.delivery := row])
               && (row.status == Accepted <==> q.result == AcceptedResult)
               && (row.status == DeliveryStatus.Failed <==> q.result == TransientFailure && before.attempts < 2)
               && (row.status == Exhausted <==> !(row.status == Accepted || row.status == DeliveryStatus.Failed))
               && row.attempts == before.attempts + 1 && row.lease.None? && row.leaseUntil.None?
               && row.nextAttempt.Some? == (row.status == DeliveryStatus.Failed)
               && row.notification == before.notification && row.grant == before.grant
               && row.createdAt == before.createdAt
  {
    assert RowShape(t.deliveries[q.delivery]);
  }

  /** After the first failed attempt a lease is granted again from five minutes on, after
      the second from ten, and no sooner. */
  lemma RetriedFromThenOn(t: Tables, q: ResultRequest, token: Uuid, at: int)
    requires RowsOk(t) && ResultStep(t, q).Some? && ResultStep(t, q).value.deliveries[q.delivery].status == Failed
    requires Sendable(ResultStep(t, q).value, q.delivery)
    ensures var u := ResultStep(t, q).value;
            && LeaseStep(u, q.delivery, Some(token), at).Some?
            && (LeaseStep(u, q.delivery, Some(token), at).value.1
                <==> at >= q.now + if t.deliveries[q.delivery].attempts == 0 then 300_000_000 else 600_000_000)
  {
    assert RowShape(t.deliveries[q.delivery]);
    assert Doubled(0) == 1 && Doubled(1) == 2 * Doubled(0);
  }

  // ---------------------------------------------------------------------------
  // Opting in and out

  /** The reference of the authorization is on record already. */
  predicate ReferenceUsed(t: Tables, reference: string) {
    exists g :: g in t.grants && t.grants[g].reference == reference
  }

  /** A new authorization was given at most five minutes ago, by a clock at most one minute
      ahead, and lasts a week at most. */
  predicate Timely(q: GrantRequest) {
    && q.now - 300_000_000 <= q.grant.authorizedAt && q.grant.authorizedAt <= q.now + 60_000_000
    && q.grant.authorizedAt < q.grant.expiresAt && q.grant.expiresAt <= q.grant.authorizedAt + 604_800_000_000
  }

  /** A subscription is accepted if and only if its consent was given for marketing and not
      withdrawn, and it brings a marketing authorization of the same member that is either
      on record under its reference or new, open and timely. The member can be reached
      then, the authorization is on record, and nothing else has changed. */
  lemma SubscribedIff(t: Tables, m: Uuid, c: Uuid, q: GrantRequest)
    ensures SubscribeStep(t, m, c, q).Some?
            <==> && c in t.consents && t.consents[c].granted && t.consents[c].forMarketing && !t.consents[c].withdrawn
                 && q.grant.membership == m && q.grant.purpose == Marketing
                 && q.grant.status == Available && Timely(q)
                 && (ReferenceUsed(t, q.grant.reference) || q.id !in t.grants)
    ensures SubscribeStep(t, m, c, q).Some? ==>
              && Reachable(SubscribeStep(t, m, c, q).value, m)
              && ReferenceUsed(SubscribeStep(t, m, c, q).value, q.grant.reference)
              && SubscribeStep(t, m, c, q).value
                 == t.(preferences := t.preferences[m := Preference(true, Some(c))],
                       grants := if ReferenceUsed(t, q.grant.reference) then t.grants else t.grants[q.id := q.grant])
  {
    if SubscribeStep(t, m, c, q).Some? && !ReferenceUsed(t, q.grant.reference) {
      assert SubscribeStep(t, m, c, q).value.grants[q.id].reference == q.grant.reference;
    }
  }

  /** A marketing delivery of one of these members. */
  predicate Concerned(t: Tables, d: Uuid, members: set<Uuid>) {
    && d in t.deliveries && t.deliveries[d].notification in t.notifications
    && t.notifications[t.deliveries[d].notification].class_ == Marketing
    && t.notifications[t.deliveries[d].notification].membership in members
  }

  predicate Waiting(row: Delivery) {
    row.status == Pending || row.status == DeliveryStatus.Failed
  }

  /** Suppressed, with nothing left to do. */
  function Quieted(row: Delivery): Delivery {
    row.(status := Suppressed, nextAttempt := None, lease := None, leaseUntil := None)
  }

  predicate OpenGrant(g: Grant, members: set<Uuid>) {
    g.membership in members && g.purpose == Marketing && g.status == Available
  }

  /** The open marketing grants of these members, and no others, are revoked. */
  ghost predicate RevokedFor(t: Tables, u: Tables, members: set<Uuid>) {
    && u.grants.Keys == t.grants.Keys
    && forall g :: g in t.grants ==>
         u.grants[g] == if OpenGrant(t.grants[g], members) then t.grants[g].(status := Revoked) else t.grants[g]
  }

  /** Opting out disables marketing and leaves its consent on record, revokes the member's
      open marketing grants and no others, and changes no notification or consent. */
  lemma OptingOutDisables(t: Tables, m: Uuid)
    ensures var u := UnsubscribeStep(t, m);
            && u.preferences
               == t.preferences[m := Preference(false, if m in t.preferences then t.preferences[m].consent else None)]
            && !Reachable(u, m) && RevokedFor(t, u, {m})
            && u.notifications == t.notifications && u.consents == t.consents
            && u.deliveries.Keys == t.deliveries.Keys
  {
  }

  /** It suppresses the member's waiting marketing deliveries, those under way too if
      marketing was enabled, and no others. */
  lemma OptingOutQuiets(t: Tables, m: Uuid, d: Uuid)
    requires RowsOk(t) && d in t.deliveries
    ensures var u := UnsubscribeStep(t, m);
            var enabled := m in t.preferences && t.preferences[m].enabled;
            && d in u.deliveries
            && u.deliveries[d] == if Concerned(t, d, {m}) && (Waiting(t.deliveries[d])
                                       || (enabled && t.deliveries[d].status == Delivering))
                                  then Quieted(t.deliveries[d]) else t.deliveries[d]
  {
    assert RowShape(t.deliveries[d]);
  }

  predicate RestsOn(t: Tables, m: Uuid, c: Uuid) {
    m in t.preferences && t.preferences[m].consent == Some(c)
  }

  /** A change of a consent takes effect on members only when it ends a consent that was
      given: then every marketing delivery, waiting or under way, of every member resting on
      it is suppressed and their open marketing grants are revoked. */
  lemma WithdrawalQuiets(t: Tables, c: Uuid, granted: bool, withdrawn: bool, members: set<Uuid>)
    requires c in t.consents && forall m :: m in members <==> RestsOn(t, m, c)
    ensures var u := ConsentStep(t, c, granted, withdrawn);
            var ends := t.consents[c].granted && !t.consents[c].withdrawn && !(granted && !withdrawn);
            && u.consents == t.consents[c := Consent(granted, t.consents[c].forMarketing, withdrawn)]
            && u.preferences == t.preferences && u.notifications == t.notifications
            && RevokedFor(t, u, if ends then members else {}) && u.deliveries.Keys == t.deliveries.Keys
            && forall d :: d in t.deliveries ==>
                 u.deliveries[d] == if ends && Concerned(t, d, members)
                                       && (Waiting(t.deliveries[d]) || t.deliveries[d].status == Delivering)
                                    then Quieted(t.deliveries[d]) else t.deliveries[d]
  {
    forall m ensures m in members <==> m in MembersOn(t, c) {
      assert m in members <==> RestsOn(t, m, c);
    }
    assert members == MembersOn(t, c);
    var u := ConsentStep(t, c, granted, withdrawn);
    assert forall d :: d in t.deliveries ==> (MarketingAmong(t, d, members) <==> Concerned(t, d, members));
  }

  // ---------------------------------------------------------------------------
  // Service notifications

  /** The grant is an open service grant of the member that has not expired. */
  predicate ServiceGrant(t: Tables, g: Uuid, q: ServiceRequest) {
    && g in t.grants && t.grants[g].membership == q.membership && t.grants[g].purpose == Service
    && t.grants[g].status == Available && t.grants[g].expiresAt > q.now
  }

  /** A service notification needs new ids, a new event and, if it comes with a grant, one
      that serves it; it consumes that grant unless the channel is disabled. */
  lemma ServiceEndsIn(t: Tables, q: ServiceRequest)
    ensures ServiceStep(t, q).Some?
            <==> && q.notification !in t.notifications && q.delivery !in t.deliveries
                 && (forall n :: n in t.notifications ==> t.notifications[n].happening != q.happening)
                 && (q.grant.Some? ==> ServiceGrant(t, q.grant.value, q))
    ensures ServiceStep(t, q).Some? ==>
              var u := ServiceStep(t, q).value;
              && u.notifications == t.notifications[q.notification := Notification(q.membership, Service, q.happening)]
              && u.preferences == t.preferences && u.consents == t.consents
              && q.delivery in u.deliveries && u.deliveries == t.deliveries[q.delivery := u.deliveries[q.delivery]]
              && var row := u.deliveries[q.delivery];
                 && row.notification == q.notification && row.createdAt == q.now && row.attempts == 0
                 && row.lease.None? && row.leaseUntil.None?
                 && (row.status == Suppressed <==> !q.enabled)
                 && (row.status == AuthorizationMissing <==> q.enabled && q.grant.None?)
                 && (row.status == Pending <==> q.enabled && q.grant.Some?)
                 && row.nextAttempt == (if row.status == Pending then Some(q.now) else None)
                 && row.grant == (if q.enabled then q.grant else None)
                 && u.grants == if row.grant.Some?
                                then t.grants[row.grant.value := t.grants[row.grant.value].(status := Consumed)]
                                else t.grants
  {
  }

  // ---------------------------------------------------------------------------
  // Moves of calls that run beside others

  /** Whose rows a sweep is after: a member's, or those of all members resting on a consent. */
  predicate SoughtBy(t: Tables, whose: Whose, m: Uuid) {
    if whose.OfMember? then m == whose.member else RestsOn(t, m, whose.consent)
  }

  predicate ConcernedIn(t: Tables, d: Uuid, whose: Whose) {
    && d in t.deliveries && t.deliveries[d].notification in t.notifications
    && t.notifications[t.deliveries[d].notification].class_ == Marketing
    && SoughtBy(t, whose, t.notifications[t.deliveries[d].notification].membership)
  }

  predicate Running(row: Delivery) {
    Waiting(row) || row.status == Delivering
  }

  /** The sweep that suppresses writes exactly the marketing deliveries it selected as waiting
      or under way that still are, the function's own only those waiting, and locks them. */
  lemma SuppressionSweeps(v: Tables, snap: Tables, whose: Whose, d: Uuid)
    ensures var e := Sweeping(v, SuppressLive(whose), snap);
            && (d in e.delta.deliveries
                <==> && d in v.deliveries && Running(v.deliveries[d])
                     && ConcernedIn(snap, d, whose) && Running(snap.deliveries[d]))
            && (d in e.delta.deliveries ==> e.delta.deliveries[d] == Quieted(v.deliveries[d]))
            && e.delta == EMPTY.(deliveries := e.delta.deliveries)
            && (Delivering_(d) in e.locks <==> d in e.delta.deliveries)
    ensures var e := Sweeping(v, SuppressIdle(whose), snap);
            && (d in e.delta.deliveries
                <==> && d in v.deliveries && Waiting(v.deliveries[d])
                     && ConcernedIn(snap, d, whose) && Waiting(snap.deliveries[d]))
            && (d in e.delta.deliveries ==>
                  e.delta.deliveries[d] == v.deliveries[d].(status := Suppressed, nextAttempt := None))
            && e.delta == EMPTY.(deliveries := e.delta.deliveries)
            && (Delivering_(d) in e.locks <==> d in e.delta.deliveries)
  {
  }

  /** The one that revokes writes exactly the open marketing grants it selected that still are
      available, and locks them. */
  lemma RevocationSweeps(v: Tables, snap: Tables, whose: Whose, g: Uuid)
    ensures var e := Sweeping(v, RevokeGrants(whose), snap);
            && (g in e.delta.grants
                <==> && g in v.grants && v.grants[g].status == Available && g in snap.grants
                     && snap.grants[g].status == Available && snap.grants[g].purpose == Marketing
                     && SoughtBy(snap, whose, snap.grants[g].membership))
            && (g in e.delta.grants ==> e.delta.grants[g] == v.grants[g].(status := Revoked))
            && e.delta == EMPTY.(grants := e.delta.grants)
            && (Granting(g) in e.locks <==> g in e.delta.grants)
  {
  }

  /** What the first statements of the smaller calls write and lock. */
  lemma OpeningsWrite(v: Tables, m: Uuid, c: Uuid, q: GrantRequest, consent: Consent, g: Uuid)
    ensures Opening(v, Subscribe(m, c, q)).Some?
            <==> && c in v.consents && v.consents[c].granted && v.consents[c].forMarketing && !v.consents[c].withdrawn
                 && q.grant.membership == m && q.grant.purpose == Marketing
    ensures Opening(v, Subscribe(m, c, q)).Some? ==>
              var e := Opening(v, Subscribe(m, c, q)).value;
              && e.locks == {Preferring(m)} && e.agenda == [FinishSubscribe(m, c, q)]
              && e.delta.preferences == (if m in v.preferences then map[] else map[m := Preference(false, None)])
              && e.delta == EMPTY.(preferences := e.delta.preferences)
    ensures Opening(v, NewConsent(c, consent))
         == if c in v.consents then None
            else Some(Effect(EMPTY.(consents := map[c := consent]), {Consenting(c)}, [], None, []))
    ensures Opening(v, ExpireGrant(g))
         == if g in v.grants && v.grants[g].status == Available
            then Some(Effect(EMPTY.(grants := map[g := v.grants[g].(status := Expired)]), {Granting(g)}, [], None, []))
            else None
  {
  }

  /** A call starts when the one before has finished, a sweep looks once and then writes what
      it saw, and a move takes place exactly when nobody else holds a row it locks; nothing is
      published before the call has finished. */
  lemma MovesTakeIff(s: State, id: Uuid, move: Move)
    requires id in s.txs
    ensures var v, tx := ViewOf(s, id), s.txs[id];
            && (Plan(v, tx, Look).Some? <==> tx.agenda != [] && Sweep(tx.agenda[0]) && tx.snap.None?)
            && (Plan(v, tx, Look).Some? ==> Plan(v, tx, Look).value == Effect(EMPTY, {}, tx.agenda, Some(v), []))
            && (move.Start? && tx.agenda != [] ==> Plan(v, tx, move).None?)
            && (tx.agenda != [] && Sweep(tx.agenda[0]) && move.Finish? ==>
                  (Plan(v, tx, move).Some? <==> tx.snap.Some?))
            && (tx.agenda != [] ==> Next(s, Commit(id)) == s)
            && (tx.agenda == [] ==> Next(s, Commit(id)).db == v && id !in Next(s, Commit(id)).txs)
    ensures var plan := Plan(ViewOf(s, id), s.txs[id], move);
            if plan.Some? && forall row :: row in plan.value.locks && row in s.locks ==> s.locks[row] == id
            then && id in Next(s, Do(id, move)).txs && Next(s, Do(id, move)).txs[id] == Moved(s.txs[id], plan.value)
                 && forall row :: row in plan.value.locks ==>
                      row in Next(s, Do(id, move)).locks && Next(s, Do(id, move)).locks[row] == id
            else Next(s, Do(id, move)) == s
  {
  }
}
