/** Consent beside running transactions. Subscribing and creating read a consent that
    nothing locks, and the sweep of a withdrawal reads preferences and deliveries that
    nothing locks: a live delivery can lose its consent. This module says exactly when. */
module MarketingConsent {
  import opened Sql
  import opened MarketingAuthority
  import opened MarketingLaws
  import opened MarketingProtocol
  import opened MarketingMoves
  import opened MarketingRuns

  /** A live marketing delivery of a membership that may not be marketed to. */
  predicate Unwanted(t: Tables, d: Uuid) {
    d in t.deliveries && Live(t.deliveries[d]) && Unwelcome(t, d)
  }

  // ---------------------------------------------------------------------------
  // What a running transaction still has to sweep

  predicate TaskCovers(v: Tables, tx: Tx, i: nat, d: Uuid)
    requires i < |tx.agenda|
  {
    && tx.agenda[i].SuppressLive?
    && var t := if i == 0 && tx.snap.Some? then tx.snap.value else v;
       MarketingAmong(t, d, Members(t, tx.agenda[i].whose)) && Live(t.deliveries[d])
  }

  /** Some sweep still to be finished selects the delivery. */
  predicate Covered(v: Tables, tx: Tx, d: Uuid) {
    exists i :: 0 <= i < |tx.agenda| && TaskCovers(v, tx, i, d)
  }

  /** What a call found before it paused still holds. */
  predicate Certain(v: Tables, held: set<Row>, task: Task) {
    match task
    case FinishCreate(q) => Preferring(q.membership) in held && MayMarket(v, q.membership)
    case FinishSubscribe(m, c, _) => Preferring(m) in held && Stands(v, c)
    case _ => true
  }

  ghost predicate Guarded(v: Tables, held: set<Row>, tx: Tx) {
    && (forall d :: Unwanted(v, d) ==> Covered(v, tx, d))
    && (forall i :: 0 <= i < |tx.agenda| ==> Certain(v, held, tx.agenda[i]))
  }

  lemma UnwantedBefore(v: Tables, w: Tables, held: set<Row>, d: Uuid)
    requires Evolves(v, w, held) && Unwanted(w, d)
    requires d in v.deliveries && Backed(v, v.deliveries[d])
    requires forall m :: MayMarket(v, m) ==> MayMarket(w, m)
    ensures Unwanted(v, d)
  {
  }

  /** A move that takes nobody's consent away and adds nothing unwelcome. */
  lemma HarmlessKeepsWanted(v: Tables, e: Effect)
    requires RowsOk(v) && Good(v, e) && forall d :: !Unwanted(v, d)
    requires forall m :: MayMarket(v, m) ==> MayMarket(Merge(v, e.delta), m)
    requires forall d :: d in e.delta.deliveries && d !in v.deliveries ==> !Unwelcome(Merge(v, e.delta), d)
    ensures forall d :: !Unwanted(Merge(v, e.delta), d)
  {
    var w := Merge(v, e.delta);
    forall d | d in v.deliveries ensures !Unwanted(w, d) {
      assert Backed(v, v.deliveries[d]);
      if Unwanted(w, d) {
        UnwantedBefore(v, w, e.locks, d);
      }
    }
  }

  lemma SamePeople(v: Tables, e: Effect)
    requires e.delta.preferences == map[] && e.delta.consents == map[]
    ensures forall m :: MayMarket(v, m) <==> MayMarket(Merge(v, e.delta), m)
  {
    OverNothing(v.preferences);
    OverNothing(v.consents);
  }

  // ---------------------------------------------------------------------------
  // Opening a call

  lemma PlainOpeningKeeps(v: Tables, call: Call)
    requires Sound(v) && Opening(v, call).Some? && forall d :: !Unwanted(v, d)
    requires call.Create? || call.Lease? || call.Report? || call.ExpireGrant?
    ensures var e := Opening(v, call).value; forall d :: !Unwanted(Merge(v, e.delta), d)
  {
    var e := Opening(v, call).value;
    PlanIsGood(v, Tx(EMPTY, [], None, []), Start(call));
    SamePeople(v, e);
    HarmlessKeepsWanted(v, e);
  }

  lemma ServeKeeps(v: Tables, q: ServiceRequest)
    requires Sound(v) && Opening(v, Serve(q)).Some? && forall d :: !Unwanted(v, d)
    ensures var e := Opening(v, Serve(q)).value; forall d :: !Unwanted(Merge(v, e.delta), d)
  {
    var e := Opening(v, Serve(q)).value;
    ServiceInserts(v, q);
    InsertionMerges(v, ServiceStep(v, q).value, q.notification, q.delivery);
    ServeIsGood(v, q);
    SamePeople(v, e);
    HarmlessKeepsWanted(v, e);
  }

  lemma NewRowsKeep(v: Tables, call: Call)
    requires Sound(v) && Opening(v, call).Some? && forall d :: !Unwanted(v, d)
    requires call.Subscribe? || call.NewConsent?
    ensures var e := Opening(v, call).value; forall d :: !Unwanted(Merge(v, e.delta), d)
  {
    var e := Opening(v, call).value;
    OpeningSideIsGood(v, call);
    var w := Merge(v, e.delta);
    forall m | MayMarket(v, m) ensures MayMarket(w, m) {
      assert m in v.preferences && v.preferences[m].consent.value in v.consents;
    }
    HarmlessKeepsWanted(v, e);
  }

  /** Opting out takes the welcome of one membership away, and sweeps it. */
  lemma UnsubscribeCovers(v: Tables, m: Uuid, d: Uuid)
    requires RowsOk(v) && forall k :: !Unwanted(v, k)
    requires var e := Opening(v, Unsubscribe(m)).value; Unwanted(Merge(v, e.delta), d)
    ensures var e := Opening(v, Unsubscribe(m)).value; Covered(Merge(v, e.delta), Tx(e.delta, e.agenda, None, []), d)
  {
    var e := Opening(v, Unsubscribe(m)).value;
    var w := Merge(v, e.delta);
    OverNothing(v.deliveries);
    OverNothing(v.notifications);
    OverNothing(v.consents);
    var member := w.notifications[w.deliveries[d].notification].membership;
    assert !Unwanted(v, d) && MayMarket(v, member);
    assert member == m;
    assert TaskCovers(w, Tx(e.delta, e.agenda, None, []), 0, d);
  }

  lemma WithdrawalCovers(v: Tables, c: Uuid, granted: bool, withdrawn: bool, d: Uuid)
    requires RowsOk(v) && forall k :: !Unwanted(v, k)
    requires var e := Opening(v, ChangeConsent(c, granted, withdrawn)).value; Unwanted(Merge(v, e.delta), d)
    ensures var e := Opening(v, ChangeConsent(c, granted, withdrawn)).value;
            Covered(Merge(v, e.delta), Tx(e.delta, e.agenda, None, []), d)
  {
    var e := Opening(v, ChangeConsent(c, granted, withdrawn)).value;
    var w := Merge(v, e.delta);
    OverNothing(v.deliveries);
    OverNothing(v.notifications);
    OverNothing(v.preferences);
    var member := w.notifications[w.deliveries[d].notification].membership;
    assert !Unwanted(v, d) && MayMarket(v, member);
    assert v.preferences[member].consent == Some(c);
    assert TaskCovers(w, Tx(e.delta, e.agenda, None, []), 1, d);
  }

  lemma OpeningKeepsGuard(v: Tables, held: set<Row>, tx: Tx, call: Call)
    requires Sound(v) && Guarded(v, held, tx) && tx.agenda == [] && Opening(v, call).Some?
    ensures var e := Opening(v, call).value; Guarded(Merge(v, e.delta), held + e.locks, Moved(tx, e))
  {
    var e := Opening(v, call).value;
    var w := Merge(v, e.delta);
    forall d ensures !Unwanted(v, d) {
      assert Unwanted(v, d) ==> Covered(v, tx, d);
    }
    forall d | Unwanted(w, d) ensures Covered(w, Moved(tx, e), d) {
      match call
      case Unsubscribe(m) =>
        UnsubscribeCovers(v, m, d);
        SameAgendaCovers(w, Tx(e.delta, e.agenda, None, []), Moved(tx, e), d);
      case ChangeConsent(c, granted, withdrawn) =>
        WithdrawalCovers(v, c, granted, withdrawn, d);
        SameAgendaCovers(w, Tx(e.delta, e.agenda, None, []), Moved(tx, e), d);
      case Serve(q) => ServeKeeps(v, q);
      case Subscribe(_, _, _) => NewRowsKeep(v, call);
      case NewConsent(_, _) => NewRowsKeep(v, call);
      case _ => PlainOpeningKeeps(v, call);
    }
    OpeningIsCertain(v, call, held);
  }

  lemma SameAgendaCovers(w: Tables, a: Tx, b: Tx, d: Uuid)
    requires a.agenda == b.agenda && a.snap == b.snap && Covered(w, a, d)
    ensures Covered(w, b, d)
  {
    var i :| 0 <= i < |a.agenda| && TaskCovers(w, a, i, d);
    assert TaskCovers(w, b, i, d);
  }

  lemma OpeningIsCertain(v: Tables, call: Call, held: set<Row>)
    requires Opening(v, call).Some?
    ensures var e := Opening(v, call).value;
            forall i :: 0 <= i < |e.agenda| ==> Certain(Merge(v, e.delta), held + e.locks, e.agenda[i])
  {
    var e := Opening(v, call).value;
    if call.Create? {
      MergeNothing(v);
    } else if call.Subscribe? {
      OverNothing(v.consents);
    }
  }

  // ---------------------------------------------------------------------------
  // Closing a call

  lemma CreatedIsWanted(v: Tables, held: set<Row>, q: CreateRequest, choice: Choice)
    requires Sound(v) && ClosingCreate(v, q, choice).Some? && MayMarket(v, q.membership)
    requires forall d :: !Unwanted(v, d)
    ensures var e := ClosingCreate(v, q, choice).value; forall d :: !Unwanted(Merge(v, e.delta), d)
  {
    var e := ClosingCreate(v, q, choice).value;
    CreatingIsGood(v, q, choice);
    SamePeople(v, e);
    if !MarketingAuthority.Known(v, q.happening) {
      EndingInserts(v, q, choice);
      InsertionMerges(v, Ending(v, q, choice).value, q.notification, q.delivery);
    }
    HarmlessKeepsWanted(v, e);
  }

  lemma SubscribedIsWanted(v: Tables, m: Uuid, c: Uuid, q: GrantRequest)
    requires Sound(v) && ClosingSubscribe(v, m, c, q).Some? && Stands(v, c) && forall d :: !Unwanted(v, d)
    ensures var e := ClosingSubscribe(v, m, c, q).value; forall d :: !Unwanted(Merge(v, e.delta), d)
  {
    var e := ClosingSubscribe(v, m, c, q).value;
    SubscribingIsGood(v, m, c, q);
    OverNothing(v.consents);
    forall k | MayMarket(v, k) ensures MayMarket(Merge(v, e.delta), k) {
    }
    HarmlessKeepsWanted(v, e);
  }

  lemma LeasedIsWanted(v: Tables, d: Uuid, token: Option<Uuid>, now: int, due: bool, welcome: bool)
    requires Sound(v) && ClosingLease(v, d, token, now, due, welcome).Some? && forall k :: !Unwanted(v, k)
    ensures var e := ClosingLease(v, d, token, now, due, welcome).value; forall k :: !Unwanted(Merge(v, e.delta), k)
  {
    var e := ClosingLease(v, d, token, now, due, welcome).value;
    LeasingIsGood(v, d, token, now, due, welcome);
    SamePeople(v, e);
    HarmlessKeepsWanted(v, e);
  }

  /** A finished sweep has dropped what it covered, and later ones cover what they did. */
  lemma SweepKeepsCover(v: Tables, tx: Tx, d: Uuid)
    requires tx.agenda != [] && Sweep(tx.agenda[0]) && tx.snap.Some?
    requires Unwanted(v, d) ==> Covered(v, tx, d)
    requires var e := Sweeping(v, tx.agenda[0], tx.snap.value); Unwanted(Merge(v, e.delta), d)
    ensures var e := Sweeping(v, tx.agenda[0], tx.snap.value).(agenda := tx.agenda[1..]);
            Covered(Merge(v, e.delta), Moved(tx, e), d)
  {
    var e := Sweeping(v, tx.agenda[0], tx.snap.value).(agenda := tx.agenda[1..]);
    var w := Merge(v, e.delta);
    SweepOnlyDrops(v, tx.agenda[0], tx.snap.value, d);
    SweepKeepsPeople(v, tx.agenda[0], tx.snap.value);
    assert Unwanted(v, d);
    var i :| 0 <= i < |tx.agenda| && TaskCovers(v, tx, i, d);
    LaterTaskCovers(v, w, tx, e, i, d);
  }

  lemma SweepKeepsPeople(v: Tables, task: Task, snap: Tables)
    requires Sweep(task)
    ensures var w := Merge(v, Sweeping(v, task, snap).delta);
            w.notifications == v.notifications && w.preferences == v.preferences && w.consents == v.consents
  {
    OverNothing(v.notifications);
    OverNothing(v.preferences);
    OverNothing(v.consents);
  }

  lemma LaterTaskCovers(v: Tables, w: Tables, tx: Tx, e: Effect, i: nat, d: Uuid)
    requires 0 < i < |tx.agenda| && TaskCovers(v, tx, i, d) && e.agenda == tx.agenda[1..] && e.snap.None?
    requires w.notifications == v.notifications && w.preferences == v.preferences
    requires d in w.deliveries && d in v.deliveries && w.deliveries[d] == v.deliveries[d]
    ensures Covered(w, Moved(tx, e), d)
  {
    assert TaskCovers(w, Moved(tx, e), i - 1, d);
  }

  lemma SweepOnlyDrops(v: Tables, task: Task, snap: Tables, d: Uuid)
    requires Sweep(task)
    ensures var w := Merge(v, Sweeping(v, task, snap).delta);
            d in w.deliveries && Live(w.deliveries[d]) ==>
              && d in v.deliveries && w.deliveries[d] == v.deliveries[d]
              && !(task.SuppressLive? && MarketingAmong(snap, d, Members(snap, task.whose)) && Live(snap.deliveries[d]))
  {
    var w := Merge(v, Sweeping(v, task, snap).delta);
    assert task.SuppressLive? && d in LiveTargets(v, snap, task.whose) ==> w.deliveries[d] == Dropped(v.deliveries[d]);
  }

  lemma ClosingKeepsGuard(v: Tables, held: set<Row>, tx: Tx, choice: Choice)
    requires Sound(v) && Guarded(v, held, tx) && tx.agenda != [] && Closing(v, tx, choice).Some?
    requires forall i :: 0 <= i < |tx.agenda| && !Sweep(tx.agenda[i]) ==> |tx.agenda| == 1
    ensures var e := Closing(v, tx, choice).value.(agenda := tx.agenda[1..]);
            Guarded(Merge(v, e.delta), held + e.locks, Moved(tx, e))
  {
    if Sweep(tx.agenda[0]) {
      SweepKeepsGuard(v, held, tx);
    } else {
      assert !Sweep(tx.agenda[0]) && tx.agenda[1..] == [];
      LastTaskKeeps(v, held, tx, choice);
    }
  }

  lemma SweepKeepsGuard(v: Tables, held: set<Row>, tx: Tx)
    requires Sound(v) && Guarded(v, held, tx) && tx.agenda != [] && Sweep(tx.agenda[0]) && tx.snap.Some?
    requires forall i :: 0 <= i < |tx.agenda| && !Sweep(tx.agenda[i]) ==> |tx.agenda| == 1
    ensures var e := Sweeping(v, tx.agenda[0], tx.snap.value).(agenda := tx.agenda[1..]);
            Guarded(Merge(v, e.delta), held + e.locks, Moved(tx, e))
  {
    var e := Sweeping(v, tx.agenda[0], tx.snap.value).(agenda := tx.agenda[1..]);
    forall d | Unwanted(Merge(v, e.delta), d) ensures Covered(Merge(v, e.delta), Moved(tx, e), d) {
      SweepKeepsCover(v, tx, d);
    }
    forall i | 0 <= i < |e.agenda| ensures Sweep(e.agenda[i]) {
      assert e.agenda[i] == tx.agenda[i + 1];
    }
  }

  lemma LastTaskKeeps(v: Tables, held: set<Row>, tx: Tx, choice: Choice)
    requires Sound(v) && Guarded(v, held, tx) && |tx.agenda| == 1 && !Sweep(tx.agenda[0])
    requires Closing(v, tx, choice).Some?
    ensures var e := Closing(v, tx, choice).value; forall d :: !Unwanted(Merge(v, e.delta), d)
  {
    forall d ensures !Unwanted(v, d) {
      assert Unwanted(v, d) ==> Covered(v, tx, d);
    }
    assert Certain(v, held, tx.agenda[0]);
    match tx.agenda[0]
    case FinishCreate(q) => CreatedIsWanted(v, held, q, choice);
    case FinishSubscribe(m, c, q) => SubscribedIsWanted(v, m, c, q);
    case FinishLease(d, token, now, due, welcome) => LeasedIsWanted(v, d, token, now, due, welcome);
  }

  lemma LookingKeepsGuard(v: Tables, held: set<Row>, tx: Tx)
    requires Guarded(v, held, tx) && tx.snap.None?
    ensures Guarded(v, held, tx.(snap := Some(v)))
  {
    forall d | Unwanted(v, d) ensures Covered(v, tx.(snap := Some(v)), d) {
      var i :| 0 <= i < |tx.agenda| && TaskCovers(v, tx, i, d);
      assert TaskCovers(v, tx.(snap := Some(v)), i, d);
    }
  }

  lemma MoveKeepsGuard(v: Tables, held: set<Row>, tx: Tx, move: Move, e: Effect)
    requires Sound(v) && Guarded(v, held, tx) && Plan(v, tx, move) == Some(e)
    requires forall i :: 0 <= i < |tx.agenda| && !Sweep(tx.agenda[i]) ==> |tx.agenda| == 1
    ensures Guarded(Merge(v, e.delta), held + e.locks, Moved(tx, e))
  {
    match move
    case Start(call) => OpeningKeepsGuard(v, held, tx, call);
    case Look =>
      MergeNothing(v);
      MergeNothing(tx.rows);
      assert tx.log + [] == tx.log && Moved(tx, e) == tx.(snap := Some(v)) && held + {} == held;
      LookingKeepsGuard(v, held, tx);
    case Finish(choice) => ClosingKeepsGuard(v, held, tx, choice);
  }

  // ---------------------------------------------------------------------------
  // Two transactions that disagree about a consent

  /** The transaction holds a membership's preference and has it rest, or is about to have
      it rest, on the consent. */
  predicate DependsOn(v: Tables, held: set<Row>, agenda: seq<Task>, m: Uuid, c: Uuid) {
    && Preferring(m) in held
    && ((m in v.preferences && v.preferences[m].enabled && v.preferences[m].consent == Some(c))
        || exists i :: 0 <= i < |agenda| && Subscribes(agenda[i], m, c))
  }

  predicate Subscribes(task: Task, m: Uuid, c: Uuid) {
    task.FinishSubscribe? && task.member == m && task.consent == c
  }

  /** The rows take a consent away that stands in the committed tables. */
  predicate TakesAway(db: Tables, rows: Tables, c: Uuid) {
    Stands(db, c) && c in rows.consents && !ConsentStands(rows.consents[c])
  }

  predicate ClashOn(db: Tables, x: Tx, y: Tx, hx: set<Row>, hy: set<Row>, m: Uuid, c: Uuid) {
    || (DependsOn(Merge(db, x.rows), hx, x.agenda, m, c) && TakesAway(db, y.rows, c))
    || (DependsOn(Merge(db, y.rows), hy, y.agenda, m, c) && TakesAway(db, x.rows, c))
  }

  /** The delivery of a merged state seen from the side that holds its membership. */
  lemma SeenByHolder(db: Tables, a: Tables, b: Tables, ha: set<Row>, hb: set<Row>, m: Uuid, d: Uuid)
    requires Beside(db, a, b, ha, hb) && Preferring(m) !in hb
    requires var w := Merge(Merge(db, b), a); MarketingFor(w, d, m) && Live(w.deliveries[d])
    ensures var va := Merge(db, a); MarketingFor(va, d, m) && Live(va.deliveries[d])
  {
    CountedOnOneSide(db, a, b, ha, hb, m, d);
    BesideSwaps(db, a, b, ha, hb);
    MergedDelivery(db, a, b, ha, hb, d);
    if d in b.deliveries {
      assert d !in a.deliveries && Slides(db.deliveries[d], b.deliveries[d]);
    }
  }

  predicate SamePreference(t: Tables, u: Tables, m: Uuid) {
    (m in t.preferences <==> m in u.preferences) && (m in t.preferences ==> t.preferences[m] == u.preferences[m])
  }

  /** Where a preference and the standing of a consent in the merged tables come from. */
  lemma MergedPeople(db: Tables, a: Tables, b: Tables, ha: set<Row>, hb: set<Row>, m: Uuid, c: Uuid)
    requires Beside(db, a, b, ha, hb)
    ensures var va, vb, w := Merge(db, a), Merge(db, b), Merge(Merge(db, b), a);
            && (Preferring(m) !in hb ==> SamePreference(va, w, m) && m !in b.preferences)
            && (Preferring(m) !in ha ==> SamePreference(vb, w, m) && m !in a.preferences)
            && (Stands(va, c) && !Stands(w, c) ==> TakesAway(db, b, c) && !Stands(vb, c))
            && (Stands(vb, c) && !Stands(w, c) ==> TakesAway(db, a, c) && !Stands(va, c))
  {
    BesideSwaps(db, a, b, ha, hb);
    MergedRow(db.preferences, a.preferences, b.preferences, m);
    MergedRow(db.consents, a.consents, b.consents, c);
  }

  /** The side that holds the membership's preference saw the delivery welcome. */
  lemma HolderClashes(db: Tables, a: Tables, b: Tables, ha: set<Row>, hb: set<Row>, m: Uuid, d: Uuid)
    requires Beside(db, a, b, ha, hb) && Preferring(m) in hb && !Unwanted(Merge(db, b), d)
    requires var w := Merge(Merge(db, b), a); Unwanted(w, d) && MarketingFor(w, d, m)
    ensures var vb := Merge(db, b);
            && m in vb.preferences && vb.preferences[m].enabled && vb.preferences[m].consent.Some?
            && TakesAway(db, a, vb.preferences[m].consent.value)
  {
    BesideSwaps(db, a, b, ha, hb);
    var vb := Merge(db, b);
    assert Preferring(m) !in ha;
    SeenByHolder(db, b, a, hb, ha, m, d);
    assert MayMarket(vb, m);
    MergedPeople(db, a, b, ha, hb, m, vb.preferences[m].consent.value);
  }

  /** If another transaction commits before a delivery turns unwelcome, either a sweep of
      this one still covers it, or the two disagree about its member's consent. */
  lemma MergedUnwanted(db: Tables, x: Tx, y: Tx, hx: set<Row>, hy: set<Row>, m: Uuid, d: Uuid)
    requires Beside(db, x.rows, y.rows, hx, hy)
    requires (Unwanted(Merge(db, x.rows), d) ==> Covered(Merge(db, x.rows), x, d)) && !Unwanted(Merge(db, y.rows), d)
    requires var w := Merge(Merge(db, y.rows), x.rows); Unwanted(w, d) && MarketingFor(w, d, m)
    ensures Covered(Merge(Merge(db, y.rows), x.rows), x, d) || exists c :: ClashOn(db, x, y, hx, hy, m, c)
  {
    BesideSwaps(db, x.rows, y.rows, hx, hy);
    var vx, vy, w := Merge(db, x.rows), Merge(db, y.rows), Merge(Merge(db, y.rows), x.rows);
    if Preferring(m) in hy {
      HolderClashes(db, x.rows, y.rows, hx, hy, m, d);
      assert ClashOn(db, x, y, hx, hy, m, vy.preferences[m].consent.value);
    } else if Unwanted(vx, d) {
      CoverSurvives(db, x, y, hx, hy, m, d);
    } else {
      SeenByHolder(db, x.rows, y.rows, hx, hy, m, d);
      assert MayMarket(vx, m);
      var c := vx.preferences[m].consent.value;
      MergedPeople(db, x.rows, y.rows, hx, hy, m, c);
      if Preferring(m) in hx {
        assert ClashOn(db, x, y, hx, hy, m, c);
      } else {
        SeenByHolder(db, y.rows, x.rows, hy, hx, m, d);
        assert false;
      }
    }
  }

  /** Sweeps select by preferences and notifications, and these have not changed here. */
  lemma AmongSurvives(v: Tables, w: Tables, whose: Whose, m: Uuid, d: Uuid)
    requires MarketingFor(v, d, m) && MarketingFor(w, d, m) && SamePreference(v, w, m)
    requires MarketingAmong(v, d, Members(v, whose))
    ensures MarketingAmong(w, d, Members(w, whose))
  {
  }

  lemma CoverSurvives(db: Tables, x: Tx, y: Tx, hx: set<Row>, hy: set<Row>, m: Uuid, d: Uuid)
    requires Beside(db, x.rows, y.rows, hx, hy) && Preferring(m) !in hy
    requires var w := Merge(Merge(db, y.rows), x.rows); Unwanted(w, d) && MarketingFor(w, d, m)
    requires Covered(Merge(db, x.rows), x, d)
    ensures Covered(Merge(Merge(db, y.rows), x.rows), x, d)
  {
    SeenByHolder(db, x.rows, y.rows, hx, hy, m, d);
    MergedPeople(db, x.rows, y.rows, hx, hy, m, 0);
    CoverCarries(Merge(db, x.rows), Merge(Merge(db, y.rows), x.rows), x, m, d);
  }

  lemma CoverCarries(v: Tables, w: Tables, x: Tx, m: Uuid, d: Uuid)
    requires MarketingFor(v, d, m) && MarketingFor(w, d, m) && SamePreference(v, w, m)
    requires Live(w.deliveries[d]) && Covered(v, x, d)
    ensures Covered(w, x, d)
  {
    var i :| 0 <= i < |x.agenda| && TaskCovers(v, x, i, d);
    if !(i == 0 && x.snap.Some?) {
      AmongSurvives(v, w, x.agenda[i].whose, m, d);
    }
    assert TaskCovers(w, x, i, d);
  }

  lemma CertainSurvives(db: Tables, x: Tx, y: Tx, hx: set<Row>, hy: set<Row>, i: nat)
    requires Beside(db, x.rows, y.rows, hx, hy) && i < |x.agenda| && Certain(Merge(db, x.rows), hx, x.agenda[i])
    requires forall m, c :: !ClashOn(db, x, y, hx, hy, m, c)
    ensures Certain(Merge(Merge(db, y.rows), x.rows), hx, x.agenda[i])
  {
    BesideSwaps(db, x.rows, y.rows, hx, hy);
    match x.agenda[i]
    case FinishCreate(q) =>
      var c := Merge(db, x.rows).preferences[q.membership].consent.value;
      MergedPeople(db, x.rows, y.rows, hx, hy, q.membership, c);
      assert !ClashOn(db, x, y, hx, hy, q.membership, c);
    case FinishSubscribe(m, c, _) =>
      MergedPeople(db, x.rows, y.rows, hx, hy, m, c);
      assert Subscribes(x.agenda[i], m, c);
      assert !ClashOn(db, x, y, hx, hy, m, c);
    case _ =>
  }

  lemma CommitKeepsGuard(db: Tables, x: Tx, y: Tx, hx: set<Row>, hy: set<Row>)
    requires Beside(db, x.rows, y.rows, hx, hy)
    requires Guarded(Merge(db, x.rows), hx, x) && Guarded(Merge(db, y.rows), hy, y) && y.agenda == []
    requires forall m, c :: !ClashOn(db, x, y, hx, hy, m, c)
    ensures Guarded(Merge(Merge(db, y.rows), x.rows), hx, x)
  {
    var w := Merge(Merge(db, y.rows), x.rows);
    forall d | Unwanted(w, d) ensures Covered(w, x, d) {
      assert Unwanted(Merge(db, y.rows), d) ==> Covered(Merge(db, y.rows), y, d);
      MergedUnwanted(db, x, y, hx, hy, w.notifications[w.deliveries[d].notification].membership, d);
    }
    forall i | 0 <= i < |x.agenda| ensures Certain(w, hx, x.agenda[i]) {
      CertainSurvives(db, x, y, hx, hy, i);
    }
  }

  // ---------------------------------------------------------------------------
  // Every interleaving without a clash

  /** One of the two has taken a consent away that the other depends on. */
  predicate Clash(s: State, x: Uuid, y: Uuid, m: Uuid, c: Uuid) {
    && x in s.txs && y in s.txs && x != y
    && ClashOn(s.db, s.txs[x], s.txs[y], Held(s.locks, x), Held(s.locks, y), m, c)
  }

  ghost predicate Clashes(s: State, x: Uuid) {
    exists y, m, c :: Clash(s, x, y, m, c)
  }

  ghost predicate Cared(s: State) {
    Inv(s) && (forall d :: !Unwanted(s.db, d)) && AllGuarded(s)
  }

  ghost predicate AllGuarded(s: State) {
    forall id :: id in s.txs ==> Guarded(ViewOf(s, id), Held(s.locks, id), s.txs[id])
  }

  lemma InitialCared()
    ensures Cared(INITIAL)
  {
    InitialInv();
  }

  lemma BesideEachOther(s: State, x: Uuid, y: Uuid)
    requires Inv(s) && x in s.txs && y in s.txs && x != y
    ensures Beside(s.db, s.txs[x].rows, s.txs[y].rows, Held(s.locks, x), Held(s.locks, y))
  {
    HeldApart(s.locks, x, y);
    assert TxOk(s.db, s.log, Held(s.locks, x), s.txs[x]);
    assert TxOk(s.db, s.log, Held(s.locks, y), s.txs[y]);
  }

  lemma FreshIsGuarded(db: Tables, held: set<Row>)
    requires forall d :: !Unwanted(db, d)
    ensures Guarded(Merge(db, EMPTY), held, Tx(EMPTY, [], None, []))
  {
    MergeNothing(db);
  }

  function Begun(s: State, id: Uuid): State {
    s.(txs := s.txs[id := Tx(EMPTY, [], None, [])])
  }

  lemma BeginTakes(s: State, id: Uuid)
    requires id !in s.txs
    ensures Next(s, Begin(id)) == Begun(s, id)
  {
  }

  lemma BegunGuarded(s: State, id: Uuid)
    requires (forall d :: !Unwanted(s.db, d)) && AllGuarded(s)
    ensures AllGuarded(Begun(s, id))
  {
    var t := Begun(s, id);
    forall other | other in t.txs ensures Guarded(ViewOf(t, other), Held(t.locks, other), t.txs[other]) {
      FreshIsGuarded(s.db, Held(s.locks, id));
      assert other != id ==> Guarded(ViewOf(s, other), Held(s.locks, other), s.txs[other]);
    }
  }

  lemma BeginKeepsGuards(s: State, id: Uuid)
    requires (forall d :: !Unwanted(s.db, d)) && AllGuarded(s)
    ensures AllGuarded(Next(s, Begin(id)))
  {
    if id !in s.txs {
      BeginTakes(s, id);
      BegunGuarded(s, id);
    }
  }

  lemma BeginKeepsCared(s: State, id: Uuid)
    requires Cared(s)
    ensures Cared(Next(s, Begin(id)))
  {
    BeginKeepsInv(s, id);
    BeginKeepsGuards(s, id);
  }

  lemma DoKeepsCared(s: State, id: Uuid, move: Move)
    requires Cared(s)
    ensures Cared(Next(s, Do(id, move)))
  {
    DoKeepsInv(s, id, move);
    if Next(s, Do(id, move)) != s {
      DoTakes(s, id, move);
      var e := Plan(ViewOf(s, id), s.txs[id], move).value;
      assert TxOk(s.db, s.log, Held(s.locks, id), s.txs[id]);
      MoveKeepsGuard(ViewOf(s, id), Held(s.locks, id), s.txs[id], move, e);
      AdvanceKeepsGuards(s, id, e);
    }
  }

  lemma AdvanceKeepsGuards(s: State, id: Uuid, e: Effect)
    requires Cared(s) && id in s.txs && Lockable(s.locks, e.locks, id)
    requires Guarded(Merge(ViewOf(s, id), e.delta), Held(s.locks, id) + e.locks, Moved(s.txs[id], e))
    ensures var t := Advanced(s, id, e);
            forall other :: other in t.txs ==> Guarded(ViewOf(t, other), Held(t.locks, other), t.txs[other])
  {
    var t := Advanced(s, id, e);
    MergeTwice(s.db, s.txs[id].rows, e.delta);
    forall other | other in t.txs ensures Guarded(ViewOf(t, other), Held(t.locks, other), t.txs[other]) {
      HeldAfterLocking(s.locks, e.locks, id, other);
      assert other != id ==> Guarded(ViewOf(s, other), Held(s.locks, other), s.txs[other]);
    }
  }

  lemma CommitKeepsCared(s: State, id: Uuid)
    requires Cared(s) && !Clashes(s, id)
    ensures Cared(Next(s, Commit(id)))
  {
    CommitKeepsInv(s, id);
    var t := Next(s, Commit(id));
    if t != s {
      var hid := Held(s.locks, id);
      assert Guarded(ViewOf(s, id), hid, s.txs[id]);
      forall d ensures !Unwanted(t.db, d) {
        assert Unwanted(t.db, d) ==> Covered(t.db, s.txs[id], d);
      }
      forall x | x in t.txs ensures Guarded(ViewOf(t, x), Held(t.locks, x), t.txs[x]) {
        BesideEachOther(s, x, id);
        HeldAfterUnlocking(s.locks, id, x);
        assert Guarded(ViewOf(s, x), Held(s.locks, x), s.txs[x]);
        forall m, c ensures !ClashOn(s.db, s.txs[x], s.txs[id], Held(s.locks, x), hid, m, c) {
          assert !Clash(s, id, x, m, c);
        }
        CommitKeepsGuard(s.db, s.txs[x], s.txs[id], Held(s.locks, x), hid);
      }
    }
  }

  lemma AbortKeepsCared(s: State, id: Uuid)
    requires Cared(s)
    ensures Cared(Next(s, Abort(id)))
  {
    AbortKeepsInv(s, id);
    AbortKeepsGuards(s, id);
  }

  lemma AbortKeepsGuards(s: State, id: Uuid)
    requires AllGuarded(s)
    ensures AllGuarded(Next(s, Abort(id)))
  {
    var t := Next(s, Abort(id));
    if t != s {
      forall x | x in t.txs ensures Guarded(ViewOf(t, x), Held(t.locks, x), t.txs[x]) {
        HeldAfterUnlocking(s.locks, id, x);
        assert Guarded(ViewOf(s, x), Held(s.locks, x), s.txs[x]);
      }
    }
  }

  /** No transaction commits while it disagrees with another one about a consent. */
  ghost predicate Calm(s: State, steps: seq<Step>)
    decreases |steps|
  {
    steps == [] || ((steps[0].Commit? ==> !Clashes(s, steps[0].id)) && Calm(Next(s, steps[0]), steps[1..]))
  }

  lemma {:induction false} CalmKeepsCared(s: State, steps: seq<Step>)
    requires Cared(s) && Calm(s, steps)
    ensures Cared(Run(s, steps))
    decreases |steps|
  {
    if steps != [] {
      match steps[0] {
        case Begin(id) => BeginKeepsCared(s, id);
        case Do(id, move) => DoKeepsCared(s, id, move);
        case Commit(id) => CommitKeepsCared(s, id);
        case Abort(id) => AbortKeepsCared(s, id);
      }
      CalmKeepsCared(Next(s, steps[0]), steps[1..]);
    }
  }

  /** As long as nobody commits against another's consent, no committed live delivery is
      unwelcome, so the consent test of a lease has nothing to find there. */
  lemma CalmRunsLeaveNoneUnwanted(s: State, steps: seq<Step>, d: Uuid)
    requires Cared(s) && Calm(s, steps)
    ensures var t := Run(s, steps).db; d in t.deliveries && Live(t.deliveries[d]) ==> !Unwelcome(t, d)
  {
    CalmKeepsCared(s, steps);
    assert !Unwanted(Run(s, steps).db, d);
  }

  // ---------------------------------------------------------------------------
  // The race, exactly

  predicate LiveFor(t: Tables, d: Uuid, m: Uuid) {
    MarketingFor(t, d, m) && Live(t.deliveries[d])
  }

  /** Both transactions disagree about a consent under which a delivery is still live. */
  predicate ClashOver(s: State, x: Uuid, y: Uuid, t: Tables, m: Uuid, c: Uuid, d: Uuid) {
    Clash(s, x, y, m, c) && LiveFor(t, d, m)
  }

  function Committed(s: State, id: Uuid): State
    requires id in s.txs
  {
    State(ViewOf(s, id), Unlocked(s.locks, id), s.txs - {id}, s.log + s.txs[id].log)
  }

  lemma CommitTakes(s: State, id: Uuid)
    requires id in s.txs && s.txs[id].agenda == []
    ensures Next(s, Commit(id)) == Committed(s, id)
  {
  }

  /** The tables after two transactions that have finished their calls committed. */
  lemma BothCommit(s: State, x: Uuid, y: Uuid)
    requires x in s.txs && y in s.txs && x != y && s.txs[x].agenda == [] && s.txs[y].agenda == []
    ensures Next(Next(s, Commit(x)), Commit(y)).db == Merge(Merge(s.db, s.txs[x].rows), s.txs[y].rows)
  {
    CommitTakes(s, x);
    CommitTakes(Committed(s, x), y);
  }

  lemma EitherOrder(s: State, x: Uuid, y: Uuid)
    requires Inv(s) && x in s.txs && y in s.txs && x != y
    ensures Merge(Merge(s.db, s.txs[x].rows), s.txs[y].rows) == Merge(Merge(s.db, s.txs[y].rows), s.txs[x].rows)
  {
    BesideEachOther(s, x, y);
    BesideSwaps(s.db, s.txs[x].rows, s.txs[y].rows, Held(s.locks, x), Held(s.locks, y));
  }

  /** A clash leaves the deliveries of its member unwelcome. */
  lemma ClashIsUnwanted(db: Tables, x: Tx, y: Tx, hx: set<Row>, hy: set<Row>, m: Uuid, c: Uuid, d: Uuid)
    requires Beside(db, x.rows, y.rows, hx, hy) && x.agenda == []
    requires DependsOn(Merge(db, x.rows), hx, x.agenda, m, c) && TakesAway(db, y.rows, c)
    requires LiveFor(Merge(Merge(db, y.rows), x.rows), d, m)
    ensures Unwanted(Merge(Merge(db, y.rows), x.rows), d)
  {
    BesideSwaps(db, x.rows, y.rows, hx, hy);
    MergedPeople(db, x.rows, y.rows, hx, hy, m, c);
    MergedRow(db.consents, x.rows.consents, y.rows.consents, c);
  }

  /** If two transactions that have finished their calls both commit, in either order, a
      live unwelcome delivery exists afterwards if and only if they disagreed about a
      consent under which a marketing delivery is still live. */
  lemma CommitsLeaveUnwantedIff(s: State, x: Uuid, y: Uuid)
    requires Cared(s) && x in s.txs && y in s.txs && x != y && s.txs[x].agenda == [] && s.txs[y].agenda == []
    ensures Next(Next(s, Commit(x)), Commit(y)).db == Next(Next(s, Commit(y)), Commit(x)).db
    ensures var t := Next(Next(s, Commit(x)), Commit(y)).db;
            (exists d :: Unwanted(t, d)) <==> exists m, c, d :: ClashOver(s, x, y, t, m, c, d)
  {
    BothCommit(s, x, y);
    BothCommit(s, y, x);
    EitherOrder(s, x, y);
    var t := Merge(Merge(s.db, s.txs[x].rows), s.txs[y].rows);
    if d :| Unwanted(t, d) {
      UnwantedClashes(s, x, y, d);
    }
    if m, c, d :| ClashOver(s, x, y, t, m, c, d) {
      ClashingIsUnwanted(s, x, y, m, c, d);
    }
  }

  lemma UnwantedClashes(s: State, x: Uuid, y: Uuid, d: Uuid)
    requires Cared(s) && x in s.txs && y in s.txs && x != y && s.txs[x].agenda == [] && s.txs[y].agenda == []
    requires Unwanted(Merge(Merge(s.db, s.txs[x].rows), s.txs[y].rows), d)
    ensures exists m, c :: ClashOver(s, x, y, Merge(Merge(s.db, s.txs[x].rows), s.txs[y].rows), m, c, d)
  {
    var t := Merge(Merge(s.db, s.txs[x].rows), s.txs[y].rows);
    var m := t.notifications[t.deliveries[d].notification].membership;
    var hx, hy := Held(s.locks, x), Held(s.locks, y);
    BesideEachOther(s, y, x);
    assert Guarded(ViewOf(s, x), hx, s.txs[x]) && Guarded(ViewOf(s, y), hy, s.txs[y]);
    assert Unwanted(ViewOf(s, x), d) ==> Covered(ViewOf(s, x), s.txs[x], d);
    assert Unwanted(ViewOf(s, y), d) ==> Covered(ViewOf(s, y), s.txs[y], d);
    MergedUnwanted(s.db, s.txs[y], s.txs[x], hy, hx, m, d);
    var c :| ClashOn(s.db, s.txs[y], s.txs[x], hy, hx, m, c);
    assert ClashOver(s, x, y, t, m, c, d);
  }

  lemma ClashingIsUnwanted(s: State, x: Uuid, y: Uuid, m: Uuid, c: Uuid, d: Uuid)
    requires Inv(s) && x in s.txs && y in s.txs && x != y && s.txs[x].agenda == [] && s.txs[y].agenda == []
    requires ClashOver(s, x, y, Merge(Merge(s.db, s.txs[x].rows), s.txs[y].rows), m, c, d)
    ensures Unwanted(Merge(Merge(s.db, s.txs[x].rows), s.txs[y].rows), d)
  {
    var hx, hy := Held(s.locks, x), Held(s.locks, y);
    BesideEachOther(s, x, y);
    BesideEachOther(s, y, x);
    BesideSwaps(s.db, s.txs[x].rows, s.txs[y].rows, hx, hy);
    if DependsOn(ViewOf(s, x), hx, [], m, c) && TakesAway(s.db, s.txs[y].rows, c) {
      ClashIsUnwanted(s.db, s.txs[x], s.txs[y], hx, hy, m, c, d);
    } else {
      ClashIsUnwanted(s.db, s.txs[y], s.txs[x], hy, hx, m, c, d);
    }
  }
}
