/** A call that nothing runs beside: its moves, one after the other, add up to the function
    as specified on values. */
module MarketingSerial {
  import opened Sql
  import opened MarketingAuthority
  import opened MarketingLaws
  import opened MarketingProtocol
  import opened MarketingMoves

  /** Finishing what is left of a call, each sweep selecting from the tables it writes. */
  ghost function Rested(v: Tables, agenda: seq<Task>, choice: Choice): Option<Tables>
    decreases |agenda|
  {
    if agenda == [] then Some(v)
    else match Closing(v, Tx(EMPTY, agenda, Some(v), []), choice)
      case None => None
      case Some(e) => Rested(Merge(v, e.delta), agenda[1..], choice)
  }

  ghost function Alone(v: Tables, call: Call, choice: Choice): Option<Tables> {
    match Opening(v, call)
    case None => None
    case Some(e) => Rested(Merge(v, e.delta), e.agenda, choice)
  }

  lemma RestedOne(v: Tables, task: Task, choice: Choice)
    ensures Rested(v, [task], choice)
            == match Closing(v, Tx(EMPTY, [task], Some(v), []), choice)
               case None => None
               case Some(e) => Some(Merge(v, e.delta))
  {
    assert [task][1..] == [];
  }

  lemma SweepFirst(v: Tables, task: Task, rest: seq<Task>, choice: Choice)
    requires Sweep(task)
    ensures Rested(v, [task] + rest, choice) == Rested(Merge(v, Sweeping(v, task, v).delta), rest, choice)
  {
    assert ([task] + rest)[1..] == rest;
  }

  // ---------------------------------------------------------------------------
  // Sweeps

  lemma LiveSwept(v: Tables, whose: Whose)
    ensures Merge(v, Sweeping(v, SuppressLive(whose), v).delta) == v.(deliveries := Cancelled(v, Members(v, whose)))
  {
    OverNothing(v.notifications);
    OverNothing(v.grants);
    OverNothing(v.preferences);
    OverNothing(v.consents);
    var delta := Sweeping(v, SuppressLive(whose), v).delta;
    assert v.deliveries + delta.deliveries == Cancelled(v, Members(v, whose));
  }

  lemma IdleSwept(v: Tables, m: Uuid)
    ensures Merge(v, Sweeping(v, SuppressIdle(OfMember(m)), v).delta) == v.(deliveries := CancelledIdle(v, m))
  {
    OverNothing(v.notifications);
    OverNothing(v.grants);
    OverNothing(v.preferences);
    OverNothing(v.consents);
    var delta := Sweeping(v, SuppressIdle(OfMember(m)), v).delta;
    assert v.deliveries + delta.deliveries == CancelledIdle(v, m);
  }

  lemma GrantsSwept(v: Tables, whose: Whose)
    ensures Merge(v, Sweeping(v, RevokeGrants(whose), v).delta) == v.(grants := Withdrawn(v, Members(v, whose)))
  {
    OverNothing(v.notifications);
    OverNothing(v.deliveries);
    OverNothing(v.preferences);
    OverNothing(v.consents);
    var delta := Sweeping(v, RevokeGrants(whose), v).delta;
    assert v.grants + delta.grants == Withdrawn(v, Members(v, whose));
  }

  lemma OnePut<K, V>(a: map<K, V>, k: K, x: V)
    ensures a + map[k := x] == a[k := x]
  {
  }

  lemma UnsubscribeAlone(v: Tables, m: Uuid, choice: Choice)
    ensures Alone(v, Unsubscribe(m), choice) == Some(UnsubscribeStep(v, m))
  {
    var was := if m in v.preferences then v.preferences[m] else Preference(false, None);
    var off := v.(preferences := v.preferences[m := was.(enabled := false)]);
    PreferencePut(v, m, was.(enabled := false));
    var tail := [RevokeGrants(OfMember(m)), SuppressIdle(OfMember(m))];
    if was.enabled {
      assert Opening(v, Unsubscribe(m)).value.agenda == [SuppressLive(OfMember(m))] + tail;
      SweepFirst(off, SuppressLive(OfMember(m)), tail, choice);
      LiveSwept(off, OfMember(m));
      TailSwept(off.(deliveries := Cancelled(off, {m})), m, choice);
    } else {
      assert Opening(v, Unsubscribe(m)).value.agenda == tail;
      TailSwept(off, m, choice);
    }
  }

  lemma PreferencePut(v: Tables, m: Uuid, row: Preference)
    ensures Merge(v, EMPTY.(preferences := map[m := row])) == v.(preferences := v.preferences[m := row])
  {
    OverNothing(v.notifications);
    OverNothing(v.deliveries);
    OverNothing(v.grants);
    OverNothing(v.consents);
    OnePut(v.preferences, m, row);
  }

  lemma TailSwept(v: Tables, m: Uuid, choice: Choice)
    ensures Rested(v, [RevokeGrants(OfMember(m)), SuppressIdle(OfMember(m))], choice)
            == Some(v.(grants := Withdrawn(v, {m}), deliveries := CancelledIdle(v, m)))
  {
    var first, second := RevokeGrants(OfMember(m)), SuppressIdle(OfMember(m));
    assert [first, second] == [first] + [second];
    SweepFirst(v, first, [second], choice);
    GrantsSwept(v, OfMember(m));
    var u := v.(grants := Withdrawn(v, {m}));
    SweepFirst(u, second, [], choice);
    assert [second] + [] == [second];
    IdleSwept(u, m);
    GrantsDoNotMatter(v, u.grants, m, {});
  }

  lemma ConsentPut(v: Tables, c: Uuid, row: Consent)
    ensures Merge(v, EMPTY.(consents := map[c := row])) == v.(consents := v.consents[c := row])
  {
    OverNothing(v.notifications);
    OverNothing(v.deliveries);
    OverNothing(v.grants);
    OverNothing(v.preferences);
    OnePut(v.consents, c, row);
  }

  lemma ChangeOpens(v: Tables, c: Uuid, granted: bool, withdrawn: bool, choice: Choice)
    requires c in v.consents
    ensures var row := v.consents[c].(granted := granted, withdrawn := withdrawn);
            var given := v.consents[c].granted && !v.consents[c].withdrawn && (!granted || withdrawn);
            Alone(v, ChangeConsent(c, granted, withdrawn), choice)
            == Rested(v.(consents := v.consents[c := row]),
                      if given then [RevokeGrants(OnConsent(c)), SuppressLive(OnConsent(c))] else [], choice)
  {
    ConsentPut(v, c, v.consents[c].(granted := granted, withdrawn := withdrawn));
  }

  lemma ChangeConsentAlone(v: Tables, c: Uuid, granted: bool, withdrawn: bool, choice: Choice)
    ensures Alone(v, ChangeConsent(c, granted, withdrawn), choice) == Some(ConsentStep(v, c, granted, withdrawn))
  {
    if c !in v.consents {
      MergeNothing(v);
    } else {
      ChangeOpens(v, c, granted, withdrawn, choice);
      if v.consents[c].granted && !v.consents[c].withdrawn && (!granted || withdrawn) {
        WithdrawalAlone(v, c, granted, withdrawn, choice);
      }
    }
  }

  lemma WithdrawalAlone(v: Tables, c: Uuid, granted: bool, withdrawn: bool, choice: Choice)
    requires c in v.consents && v.consents[c].granted && !v.consents[c].withdrawn && (!granted || withdrawn)
    ensures var u := v.(consents := v.consents[c := v.consents[c].(granted := granted, withdrawn := withdrawn)]);
            Rested(u, [RevokeGrants(OnConsent(c)), SuppressLive(OnConsent(c))], choice)
            == Some(ConsentStep(v, c, granted, withdrawn))
  {
    var row := v.consents[c].(granted := granted, withdrawn := withdrawn);
    WithdrawalSwept(v.(consents := v.consents[c := row]), c, choice);
    SameMembers(v, v.consents[c := row], c);
  }

  lemma WithdrawalSwept(u: Tables, c: Uuid, choice: Choice)
    ensures Rested(u, [RevokeGrants(OnConsent(c)), SuppressLive(OnConsent(c))], choice)
            == Some(u.(grants := Withdrawn(u, MembersOn(u, c)), deliveries := Cancelled(u, MembersOn(u, c))))
  {
    var first, second := RevokeGrants(OnConsent(c)), SuppressLive(OnConsent(c));
    assert [first, second] == [first] + [second];
    SweepFirst(u, first, [second], choice);
    GrantsSwept(u, OnConsent(c));
    var t := u.(grants := Withdrawn(u, MembersOn(u, c)));
    SweepFirst(t, second, [], choice);
    assert [second] + [] == [second];
    LiveSwept(t, OnConsent(c));
    assert MembersOn(t, c) == MembersOn(u, c);
    GrantsDoNotMatter(u, t.grants, 0, MembersOn(u, c));
  }

  // ---------------------------------------------------------------------------
  // Creating, subscribing, leasing and settling

  /** The ending that goes with what the function counted and found. */
  function Matching(v: Tables, q: CreateRequest, grant: Option<Uuid>): Choice {
    if Capped(v, q) then HoldBack else if grant.None? then FindNone else Use(grant.value)
  }

  lemma CreateAlone(v: Tables, q: CreateRequest, grant: Option<Uuid>)
    requires Picks(v, q, grant)
    ensures Alone(v, Create(q), Matching(v, q, grant))
            == if CreateStep(v, q, grant).1.Refused? then None else Some(CreateStep(v, q, grant).0)
  {
    MergeNothing(v);
    if MayMarket(v, q.membership) {
      RestedOne(v, FinishCreate(q), Matching(v, q, grant));
      CreationAlone(v, q, grant);
    }
  }

  lemma CreationAlone(v: Tables, q: CreateRequest, grant: Option<Uuid>)
    requires Picks(v, q, grant) && MayMarket(v, q.membership)
    ensures var after := if CreateStep(v, q, grant).1.Refused? then None else Some(CreateStep(v, q, grant).0);
            match ClosingCreate(v, q, Matching(v, q, grant))
            case None => after == None
            case Some(e) => after == Some(Merge(v, e.delta))
  {
    MergeNothing(v);
    if !MarketingAuthority.Known(v, q.happening) && !Collides(v, q) {
      EndingIsCreated(v, q, grant);
      CreationMerges(v, q, Matching(v, q, grant));
    }
  }

  lemma EndingIsCreated(v: Tables, q: CreateRequest, grant: Option<Uuid>)
    requires Picks(v, q, grant)
    ensures Ending(v, q, Matching(v, q, grant)) == Some(Created(v, q, grant))
  {
  }

  lemma CreationMerges(v: Tables, q: CreateRequest, choice: Choice)
    requires !MarketingAuthority.Known(v, q.happening) && !Collides(v, q) && Ending(v, q, choice).Some?
    ensures Merge(v, ClosingCreate(v, q, choice).value.delta) == Ending(v, q, choice).value
  {
    EndingInserts(v, q, choice);
    InsertionMerges(v, Ending(v, q, choice).value, q.notification, q.delivery);
  }

  lemma SubscribeAlone(v: Tables, m: Uuid, c: Uuid, q: GrantRequest, choice: Choice)
    ensures Alone(v, Subscribe(m, c, q), choice) == SubscribeStep(v, m, c, q)
  {
    if Opening(v, Subscribe(m, c, q)).Some? {
      var e := Opening(v, Subscribe(m, c, q)).value;
      var u := Merge(v, e.delta);
      SubscribeOpens(v, m, c, q);
      RestedOne(u, FinishSubscribe(m, c, q), choice);
      SubscribeCloses(v, u, m, c, q);
    }
  }

  lemma SubscribeOpens(v: Tables, m: Uuid, c: Uuid, q: GrantRequest)
    requires Opening(v, Subscribe(m, c, q)).Some?
    ensures var u := Merge(v, Opening(v, Subscribe(m, c, q)).value.delta);
            u == v.(preferences := u.preferences)
            && u.preferences[m := Preference(true, Some(c))] == v.preferences[m := Preference(true, Some(c))]
  {
    OverNothing(v.notifications);
    OverNothing(v.deliveries);
    OverNothing(v.grants);
    OverNothing(v.consents);
    OverNothing(v.preferences);
  }

  lemma SubscribeCloses(v: Tables, u: Tables, m: Uuid, c: Uuid, q: GrantRequest)
    requires u == v.(preferences := u.preferences)
    requires u.preferences[m := Preference(true, Some(c))] == v.preferences[m := Preference(true, Some(c))]
    ensures var after := AddGrant(v.(preferences := v.preferences[m := Preference(true, Some(c))]), q);
            match ClosingSubscribe(u, m, c, q)
            case None => after == None
            case Some(e) => after == Some(Merge(u, e.delta))
  {
    OverNothing(u.notifications);
    OverNothing(u.deliveries);
    OverNothing(u.consents);
    OverNothing(u.grants);
    OnePut(u.preferences, m, Preference(true, Some(c)));
    OnePut(u.grants, q.id, q.grant);
    assert q.id !in u.grants ==> u != u.(grants := u.grants[q.id := q.grant]) by {
      assert q.id in u.grants[q.id := q.grant];
    }
  }

  lemma DeliveryPut(v: Tables, d: Uuid, row: Delivery)
    ensures Merge(v, EMPTY.(deliveries := map[d := row])) == v.(deliveries := v.deliveries[d := row])
  {
    OverNothing(v.notifications);
    OverNothing(v.grants);
    OverNothing(v.preferences);
    OverNothing(v.consents);
    OnePut(v.deliveries, d, row);
  }

  lemma LeaseAlone(v: Tables, d: Uuid, token: Option<Uuid>, now: int, choice: Choice)
    ensures Alone(v, Lease(d, token, now), choice)
            == match LeaseStep(v, d, token, now) case None => None case Some(r) => Some(r.0)
  {
    MergeNothing(v);
    var due := d in v.deliveries && Attemptable(v.deliveries[d], now);
    RestedOne(v, FinishLease(d, token, now, due, !Unwelcome(v, d)), choice);
    if d in v.deliveries {
      DeliveryPut(v, d, Dropped(v.deliveries[d]));
      DeliveryPut(v, d, v.deliveries[d].(status := Delivering, lease := token, leaseUntil := Some(now + 30 * SECOND)));
    }
  }

  lemma ReportAlone(v: Tables, q: ResultRequest, choice: Choice)
    ensures Alone(v, Report(q), choice) == ResultStep(v, q)
  {
    if ResultStep(v, q).Some? {
      DeliveryPut(v, q.delivery, ResultStep(v, q).value.deliveries[q.delivery]);
    }
  }

  lemma ServeAlone(v: Tables, q: ServiceRequest, choice: Choice)
    ensures Alone(v, Serve(q), choice) == ServiceStep(v, q)
  {
    if ServiceStep(v, q).Some? {
      ServiceInserts(v, q);
      InsertionMerges(v, ServiceStep(v, q).value, q.notification, q.delivery);
    }
  }
}
