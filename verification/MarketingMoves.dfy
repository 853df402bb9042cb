/** One move of a marketing call keeps the tables it sees sound and on record, and the rows
    of two transactions under disjoint locks stay sound when they are put together. */
module MarketingMoves {
  import opened Sql
  import opened MarketingAuthority
  import opened MarketingLaws
  import opened MarketingProtocol

  // ---------------------------------------------------------------------------
  // What one transaction does to the tables it sees

  /** Every row written is locked, a new notification also under its source event. */
  predicate Covers(held: set<Row>, rows: Tables) {
    && (forall n :: n in rows.notifications ==>
          Notifying(n) in held && Sourcing(rows.notifications[n].happening) in held)
    && (forall d :: d in rows.deliveries ==> Delivering_(d) in held)
    && (forall g :: g in rows.grants ==> Granting(g) in held)
    && (forall m :: m in rows.preferences ==> Preferring(m) in held)
    && (forall c :: c in rows.consents ==> Consenting(c) in held)
  }

  /** A delivery is created under the lock of its membership's preference, if it is a
      marketing one, and of its grant. */
  ghost predicate CreatedUnder(held: set<Row>, w: Tables, d: Uuid)
    requires d in w.deliveries
  {
    && (forall m :: MarketingFor(w, d, m) ==> Preferring(m) in held)
    && (w.deliveries[d].grant.Some? ==> Granting(w.deliveries[d].grant.value) in held)
  }

  /** From the tables `v` to the tables `w`, by someone holding these locks. */
  ghost predicate Evolves(v: Tables, w: Tables, held: set<Row>) {
    && (forall n :: n in v.notifications ==> n in w.notifications && w.notifications[n] == v.notifications[n])
    && GrantsKept(v, w)
    && (forall d :: d in v.deliveries ==> d in w.deliveries && Slides(v.deliveries[d], w.deliveries[d]))
    && (forall d :: d in w.deliveries && d !in v.deliveries ==> CreatedUnder(held, w, d))
  }

  lemma OverNothing<K, V>(a: map<K, V>)
    ensures a + map[] == a
  {
  }

  lemma OverTwice<K, V>(a: map<K, V>, b: map<K, V>, c: map<K, V>)
    ensures (a + b) + c == a + (b + c)
  {
  }

  lemma OverWithin<K, V>(a: map<K, V>, b: map<K, V>)
    requires b.Keys <= a.Keys
    ensures (a + b).Keys == a.Keys
  {
  }

  lemma MergeNothing(v: Tables)
    ensures Merge(v, EMPTY) == v
  {
    OverNothing(v.notifications);
    OverNothing(v.deliveries);
    OverNothing(v.grants);
    OverNothing(v.preferences);
    OverNothing(v.consents);
  }

  lemma MergeTwice(t: Tables, a: Tables, b: Tables)
    ensures Merge(Merge(t, a), b) == Merge(t, Merge(a, b))
  {
    OverTwice(t.notifications, a.notifications, b.notifications);
    OverTwice(t.deliveries, a.deliveries, b.deliveries);
    OverTwice(t.grants, a.grants, b.grants);
    OverTwice(t.preferences, a.preferences, b.preferences);
    OverTwice(t.consents, a.consents, b.consents);
  }

  lemma EvolvesOn(t: Tables, v: Tables, w: Tables, held: set<Row>, more: set<Row>)
    requires RowsOk(v) && Evolves(t, v, held) && Evolves(v, w, more)
    ensures Evolves(t, w, held + more)
  {
    forall d | d in w.deliveries && d !in t.deliveries ensures CreatedUnder(held + more, w, d) {
      if d in v.deliveries {
        assert CreatedUnder(held, v, d) && Backed(v, v.deliveries[d]);
        assert forall m :: MarketingFor(w, d, m) ==> MarketingFor(v, d, m);
      } else {
        assert CreatedUnder(more, w, d);
      }
    }
  }

  /** What a move does: the tables stay sound, rows evolve, everything written is locked,
      and only written deliveries are recorded. */
  ghost predicate Good(v: Tables, e: Effect) {
    && Sound(Merge(v, e.delta)) && Evolves(v, Merge(v, e.delta), e.locks) && Covers(e.locks, e.delta)
    && (forall d :: d !in e.delta.deliveries ==> Silent(e.entries, d))
  }

  // ---------------------------------------------------------------------------
  // Moves that add no delivery

  lemma EaseIsGood(v: Tables, e: Effect)
    requires Sound(v) && Eases(v, Merge(v, e.delta)) && Covers(e.locks, e.delta)
    requires forall d :: d !in e.delta.deliveries ==> Silent(e.entries, d)
    ensures Good(v, e)
  {
    EaseKeepsSound(v, Merge(v, e.delta));
  }

  /** Preferences, consents and grants change, none of these grants having been consumed. */
  lemma SideIsGood(v: Tables, e: Effect)
    requires Sound(v) && Covers(e.locks, e.delta) && e.entries == []
    requires e.delta.notifications == map[] && e.delta.deliveries == map[]
    requires forall g :: g in e.delta.grants && g in v.grants ==>
               v.grants[g].status != Consumed && GrantKept(v.grants[g], e.delta.grants[g])
    ensures Good(v, e)
  {
    OverNothing(v.notifications);
    OverNothing(v.deliveries);
    EaseIsGood(v, e);
  }

  /** Deliveries slide along, nothing else changes. */
  lemma SlideIsGood(v: Tables, e: Effect)
    requires Sound(v) && Covers(e.locks, e.delta)
    requires e.delta == EMPTY.(deliveries := e.delta.deliveries)
    requires e.delta.deliveries.Keys <= v.deliveries.Keys
    requires forall d :: d in e.delta.deliveries ==>
               Slides(v.deliveries[d], e.delta.deliveries[d]) && RowShape(e.delta.deliveries[d])
    requires forall d :: d !in e.delta.deliveries ==> Silent(e.entries, d)
    ensures Good(v, e)
  {
    OverNothing(v.notifications);
    OverNothing(v.grants);
    OverWithin(v.deliveries, e.delta.deliveries);
    EaseIsGood(v, e);
  }

  lemma OpeningSideIsGood(v: Tables, call: Call)
    requires Sound(v) && Opening(v, call).Some? && !call.Report? && !call.Serve?
    ensures Good(v, Opening(v, call).value)
  {
    SideIsGood(v, Opening(v, call).value);
  }

  lemma ReportIsGood(v: Tables, q: ResultRequest)
    requires Sound(v) && Opening(v, Report(q)).Some?
    ensures Good(v, Opening(v, Report(q)).value)
  {
    assert RowShape(v.deliveries[q.delivery]);
    SlideIsGood(v, Opening(v, Report(q)).value);
  }

  lemma SubscribingIsGood(v: Tables, m: Uuid, c: Uuid, q: GrantRequest)
    requires Sound(v) && ClosingSubscribe(v, m, c, q).Some?
    ensures Good(v, ClosingSubscribe(v, m, c, q).value)
  {
    SideIsGood(v, ClosingSubscribe(v, m, c, q).value);
  }

  lemma LeasingIsGood(v: Tables, d: Uuid, token: Option<Uuid>, now: int, due: bool, welcome: bool)
    requires Sound(v) && ClosingLease(v, d, token, now, due, welcome).Some?
    ensures Good(v, ClosingLease(v, d, token, now, due, welcome).value)
  {
    var e := ClosingLease(v, d, token, now, due, welcome).value;
    if d in v.deliveries {
      assert RowShape(v.deliveries[d]);
    }
    SlideIsGood(v, e);
  }

  lemma SweepingIsGood(v: Tables, task: Task, snap: Tables)
    requires Sound(v) && Sweep(task)
    ensures Good(v, Sweeping(v, task, snap))
  {
    var e := Sweeping(v, task, snap);
    if task.RevokeGrants? {
      SideIsGood(v, e);
    } else {
      assert e.delta.deliveries.Keys <= v.deliveries.Keys;
      forall d | d in e.delta.deliveries
        ensures Slides(v.deliveries[d], e.delta.deliveries[d]) && RowShape(e.delta.deliveries[d])
      {
        assert RowShape(v.deliveries[d]);
      }
      SlideIsGood(v, e);
    }
  }

  // ---------------------------------------------------------------------------
  // Moves that add a delivery

  /** The tables with the new rows are the old ones with just these rows over them. */
  ghost predicate Inserted(v: Tables, w: Tables, n: Uuid, d: Uuid) {
    && n in w.notifications && d in w.deliveries
    && Adds(v, w, n, w.notifications[n], d, w.deliveries[d])
    && w.grants.Keys == v.grants.Keys
    && forall g :: g in v.grants && w.deliveries[d].grant != Some(g) ==> w.grants[g] == v.grants[g]
  }

  lemma InsertionMerges(v: Tables, w: Tables, n: Uuid, d: Uuid)
    requires Inserted(v, w, n, d)
    ensures Merge(v, Insertion(w, n, d).delta) == w
  {
    var delta := Insertion(w, n, d).delta;
    OverNothing(v.preferences);
    OverNothing(v.consents);
    OverWithin(v.grants, delta.grants);
    forall g | g in w.grants ensures (v.grants + delta.grants)[g] == w.grants[g] {
    }
    assert v.grants + delta.grants == w.grants;
    assert v.notifications + delta.notifications == w.notifications;
    assert v.deliveries + delta.deliveries == w.deliveries;
  }

  lemma InsertionEvolves(v: Tables, w: Tables, n: Uuid, d: Uuid, held: set<Row>)
    requires RowsOk(v) && Inserted(v, w, n, d)
    requires w.notifications[n].class_ == Marketing ==> Preferring(w.notifications[n].membership) in held
    ensures Evolves(v, w, Insertion(w, n, d).locks + held)
  {
    assert CreatedUnder(Insertion(w, n, d).locks + held, w, d);
    forall e | e in v.deliveries ensures e in w.deliveries && Slides(v.deliveries[e], w.deliveries[e]) {
      assert e != d;
    }
  }

  lemma AddIsGood(v: Tables, w: Tables, n: Uuid, d: Uuid, held: set<Row>)
    requires Sound(v) && Inserted(v, w, n, d) && CapsHold(w)
    requires w.notifications[n].class_ == Marketing ==> Preferring(w.notifications[n].membership) in held
    ensures var e := Insertion(w, n, d);
            && Merge(v, e.delta) == w && Good(v, e.(locks := e.locks + held))
  {
    InsertionMerges(v, w, n, d);
    InsertionEvolves(v, w, n, d, held);
    AddKeepsSound(v, w, n, w.notifications[n], d, w.deliveries[d]);
  }

  lemma ServiceInserts(v: Tables, q: ServiceRequest)
    requires ServiceStep(v, q).Some?
    ensures var w := ServiceStep(v, q).value;
            Inserted(v, w, q.notification, q.delivery) && w.notifications[q.notification].class_ == Service
  {
  }

  lemma UncountedIsGood(v: Tables, w: Tables, n: Uuid, d: Uuid)
    requires Sound(v) && Inserted(v, w, n, d) && w.notifications[n].class_ == Service
    ensures Good(v, Insertion(w, n, d))
  {
    UncountedKeepsCaps(v, w, n, w.notifications[n], d, w.deliveries[d]);
    AddIsGood(v, w, n, d, {});
    var e := Insertion(w, n, d);
    assert e.(locks := e.locks + {}) == e;
  }

  lemma ServeIsGood(v: Tables, q: ServiceRequest)
    requires Sound(v) && Opening(v, Serve(q)).Some?
    ensures Good(v, Opening(v, Serve(q)).value)
  {
    var w := ServiceStep(v, q).value;
    ServiceInserts(v, q);
    assert Opening(v, Serve(q)).value == Insertion(w, q.notification, q.delivery);
    UncountedIsGood(v, w, q.notification, q.delivery);
  }

  lemma EndingInserts(v: Tables, q: CreateRequest, choice: Choice)
    requires !MarketingAuthority.Known(v, q.happening) && !Collides(v, q) && Ending(v, q, choice).Some?
    ensures Inserted(v, Ending(v, q, choice).value, q.notification, q.delivery)
  {
  }

  lemma EndingKeepsCaps(v: Tables, q: CreateRequest, choice: Choice)
    requires Sound(v) && Ending(v, q, choice).Some?
    requires Inserted(v, Ending(v, q, choice).value, q.notification, q.delivery)
    ensures CapsHold(Ending(v, q, choice).value)
  {
    var w := Ending(v, q, choice).value;
    var made := Notification(q.membership, Marketing, q.happening);
    var row := w.deliveries[q.delivery];
    if row.status == Pending {
      CountedKeepsCaps(v, w, made, q.delivery, row, q);
    } else {
      UncountedKeepsCaps(v, w, q.notification, made, q.delivery, row);
    }
  }

  lemma CreatingIsGood(v: Tables, q: CreateRequest, choice: Choice)
    requires Sound(v) && ClosingCreate(v, q, choice).Some?
    ensures Good(v, ClosingCreate(v, q, choice).value)
  {
    if MarketingAuthority.Known(v, q.happening) {
      SideIsGood(v, ClosingCreate(v, q, choice).value);
    } else {
      EndingInserts(v, q, choice);
      EndingKeepsCaps(v, q, choice);
      AddIsGood(v, Ending(v, q, choice).value, q.notification, q.delivery, {Preferring(q.membership)});
    }
  }

  lemma PlanIsGood(v: Tables, tx: Tx, move: Move)
    requires Sound(v) && Plan(v, tx, move).Some?
    ensures Good(v, Plan(v, tx, move).value)
  {
    match move
    case Look => SideIsGood(v, Plan(v, tx, move).value);
    case Start(call) =>
      if call.Report? {
        ReportIsGood(v, call.report);
      } else if call.Serve? {
        ServeIsGood(v, call.service);
      } else {
        OpeningSideIsGood(v, call);
      }
    case Finish(choice) => ClosingIsGood(v, tx, choice);
  }

  lemma ClosingIsGood(v: Tables, tx: Tx, choice: Choice)
    requires Sound(v) && tx.agenda != [] && Closing(v, tx, choice).Some?
    ensures Good(v, Closing(v, tx, choice).value)
    ensures forall agenda :: Good(v, Closing(v, tx, choice).value.(agenda := agenda))
  {
    match tx.agenda[0]
    case FinishCreate(q) => CreatingIsGood(v, q, choice);
    case FinishSubscribe(m, c, q) => SubscribingIsGood(v, m, c, q);
    case FinishLease(d, token, now, due, welcome) => LeasingIsGood(v, d, token, now, due, welcome);
    case _ => SweepingIsGood(v, tx.agenda[0], tx.snap.value);
  }

  // ---------------------------------------------------------------------------
  // What a move puts on record

  predicate RowRecorded(before: Delivery, after: Delivery, entries: seq<Entry>, d: Uuid) {
    if Silent(entries, d) then Quiet(before, after)
    else
      && |entries| == 1 && entries[0].delivery == d
      && match entries[0]
         case Leased(_, token) =>
             after.status == Delivering && after.lease == token && after.attempts == before.attempts
         case Reported(_, _) =>
           before.status == Delivering && after.status != Delivering && after.attempts == before.attempts + 1
  }

  ghost predicate Recorded(v: Tables, w: Tables, entries: seq<Entry>) {
    && |entries| <= 1
    && (forall d ::
          d in v.deliveries ==> d in w.deliveries && RowRecorded(v.deliveries[d], w.deliveries[d], entries, d))
    && (forall d :: d in w.deliveries && d !in v.deliveries ==>
          w.deliveries[d].attempts == 0 && w.deliveries[d].status != Delivering && Silent(entries, d))
    && (forall d :: d !in w.deliveries ==> Silent(entries, d))
  }

  lemma RecordedRow(before: Delivery, after: Delivery, log: seq<Entry>, entries: seq<Entry>, d: Uuid)
    requires DeliveryLogged(before, log, d) && RowRecorded(before, after, entries, d)
    ensures DeliveryLogged(after, log + entries, d)
  {
    if Silent(entries, d) {
      SilentAppend(log, entries, d);
    } else {
      assert entries == [entries[0]];
      LogGrows(log, entries[0], d);
    }
  }

  lemma RecordedKeepsLog(v: Tables, w: Tables, log: seq<Entry>, entries: seq<Entry>)
    requires LogAgrees(v, log) && Recorded(v, w, entries)
    ensures LogAgrees(w, log + entries)
  {
    forall d ensures d in w.deliveries ==> DeliveryLogged(w.deliveries[d], log + entries, d)
             ensures d !in w.deliveries ==> Reports(log + entries, d) == 0
    {
      if d in v.deliveries {
        RecordedRow(v.deliveries[d], w.deliveries[d], log, entries, d);
      } else {
        SilentAppend(log, entries, d);
      }
    }
  }

  lemma QuietIsRecorded(v: Tables, e: Effect)
    requires e.entries == []
    requires forall d :: d in e.delta.deliveries ==>
               if d in v.deliveries then Quiet(v.deliveries[d], e.delta.deliveries[d])
               else e.delta.deliveries[d].attempts == 0 && e.delta.deliveries[d].status != Delivering
    ensures Recorded(v, Merge(v, e.delta), e.entries)
  {
  }

  lemma OpeningRecords(v: Tables, call: Call)
    requires RowsOk(v) && Opening(v, call).Some?
    ensures var e := Opening(v, call).value; Recorded(v, Merge(v, e.delta), e.entries)
  {
    if call.Report? {
      ReportRecords(v, call.report);
    } else if call.Serve? {
      ServiceIsQuiet(v, call.service);
      QuietIsRecorded(v, Opening(v, call).value);
    } else {
      QuietIsRecorded(v, Opening(v, call).value);
    }
  }

  lemma ReportRecords(v: Tables, q: ResultRequest)
    requires RowsOk(v) && Opening(v, Report(q)).Some?
    ensures var e := Opening(v, Report(q)).value; Recorded(v, Merge(v, e.delta), e.entries)
  {
    assert RowShape(v.deliveries[q.delivery]);
    assert Opening(v, Report(q)).value.entries[0].delivery == q.delivery;
  }

  lemma ServiceIsQuiet(v: Tables, q: ServiceRequest)
    requires ServiceStep(v, q).Some?
    ensures var row := ServiceStep(v, q).value.deliveries[q.delivery];
            q.delivery !in v.deliveries && row.attempts == 0 && row.status != Delivering
  {
  }

  lemma ClosingRecords(v: Tables, tx: Tx, choice: Choice)
    requires RowsOk(v) && tx.agenda != [] && Closing(v, tx, choice).Some?
    ensures var e := Closing(v, tx, choice).value; Recorded(v, Merge(v, e.delta), e.entries)
  {
    match tx.agenda[0]
    case FinishLease(d, token, now, due, welcome) => LeaseRecords(v, d, token, now, due, welcome);
    case FinishCreate(q) => CreateRecords(v, q, choice);
    case FinishSubscribe(m, c, q) => QuietIsRecorded(v, ClosingSubscribe(v, m, c, q).value);
    case _ => SweepRecords(v, tx.agenda[0], tx.snap.value);
  }

  lemma SweepRecords(v: Tables, task: Task, snap: Tables)
    requires Sweep(task)
    ensures var e := Sweeping(v, task, snap); Recorded(v, Merge(v, e.delta), e.entries)
  {
    QuietIsRecorded(v, Sweeping(v, task, snap));
  }

  lemma CreateRecords(v: Tables, q: CreateRequest, choice: Choice)
    requires ClosingCreate(v, q, choice).Some?
    ensures var e := ClosingCreate(v, q, choice).value; Recorded(v, Merge(v, e.delta), e.entries)
  {
    QuietIsRecorded(v, ClosingCreate(v, q, choice).value);
  }

  lemma LeaseRecords(v: Tables, d: Uuid, token: Option<Uuid>, now: int, due: bool, welcome: bool)
    requires RowsOk(v) && ClosingLease(v, d, token, now, due, welcome).Some?
    ensures var e := ClosingLease(v, d, token, now, due, welcome).value; Recorded(v, Merge(v, e.delta), e.entries)
  {
    var e := ClosingLease(v, d, token, now, due, welcome).value;
    if e.entries == [] {
      QuietIsRecorded(v, e);
    } else {
      assert e.entries[0].delivery == d;
    }
  }

  lemma PlanRecords(v: Tables, tx: Tx, move: Move)
    requires RowsOk(v) && Plan(v, tx, move).Some?
    ensures var e := Plan(v, tx, move).value; Recorded(v, Merge(v, e.delta), e.entries)
  {
    match move
    case Look => QuietIsRecorded(v, Plan(v, tx, move).value);
    case Start(call) => OpeningRecords(v, call);
    case Finish(choice) => ClosingRecords(v, tx, choice);
  }

  // ---------------------------------------------------------------------------
  // One transaction beside the committed tables

  function Held(locks: map<Row, Uuid>, id: Uuid): set<Row> {
    set row | row in locks && locks[row] == id
  }

  ghost predicate TxOk(db: Tables, log: seq<Entry>, held: set<Row>, tx: Tx) {
    var v := Merge(db, tx.rows);
    && Sound(v) && Evolves(db, v, held) && Covers(held, tx.rows)
    && LogAgrees(v, log + tx.log)
    && (forall d :: d !in tx.rows.deliveries ==> Silent(tx.log, d))
    && (forall i :: 0 <= i < |tx.agenda| && !Sweep(tx.agenda[i]) ==> |tx.agenda| == 1)
  }

  lemma EvolvesSelf(t: Tables)
    ensures Evolves(t, t, {})
  {
  }

  lemma FreshTxOk(db: Tables, log: seq<Entry>)
    requires Sound(db) && LogAgrees(db, log)
    ensures TxOk(db, log, {}, Tx(EMPTY, [], None, []))
  {
    MergeNothing(db);
    EvolvesSelf(db);
    assert log + [] == log;
  }

  lemma MoveKeepsTables(db: Tables, held: set<Row>, tx: Tx, move: Move, e: Effect)
    requires Sound(Merge(db, tx.rows)) && Evolves(db, Merge(db, tx.rows), held) && Covers(held, tx.rows)
    requires Plan(Merge(db, tx.rows), tx, move) == Some(e)
    ensures var w := Merge(db, Moved(tx, e).rows);
            Sound(w) && Evolves(db, w, held + e.locks) && Covers(held + e.locks, Moved(tx, e).rows)
    ensures forall d :: d !in e.delta.deliveries ==> Silent(e.entries, d)
  {
    var v := Merge(db, tx.rows);
    PlanIsGood(v, tx, move);
    MergeTwice(db, tx.rows, e.delta);
    EvolvesOn(db, v, Merge(v, e.delta), held, e.locks);
  }

  lemma MoveKeepsRecord(db: Tables, log: seq<Entry>, tx: Tx, move: Move, e: Effect)
    requires RowsOk(Merge(db, tx.rows)) && LogAgrees(Merge(db, tx.rows), log + tx.log)
    requires Plan(Merge(db, tx.rows), tx, move) == Some(e)
    ensures LogAgrees(Merge(db, Moved(tx, e).rows), log + Moved(tx, e).log)
  {
    var v := Merge(db, tx.rows);
    PlanRecords(v, tx, move);
    MergeTwice(db, tx.rows, e.delta);
    RecordedKeepsLog(v, Merge(v, e.delta), log + tx.log, e.entries);
    assert log + (tx.log + e.entries) == (log + tx.log) + e.entries;
  }

  lemma MoveKeepsTx(db: Tables, log: seq<Entry>, held: set<Row>, tx: Tx, move: Move, e: Effect)
    requires TxOk(db, log, held, tx) && Plan(Merge(db, tx.rows), tx, move) == Some(e)
    ensures TxOk(db, log, held + e.locks, Moved(tx, e))
  {
    MoveKeepsTables(db, held, tx, move, e);
    MoveKeepsRecord(db, log, tx, move, e);
    MoveKeepsAgenda(Merge(db, tx.rows), tx, move, e);
    MoveKeepsSilence(tx, e);
  }

  lemma MoveKeepsSilence(tx: Tx, e: Effect)
    requires forall d :: d !in tx.rows.deliveries ==> Silent(tx.log, d)
    requires forall d :: d !in e.delta.deliveries ==> Silent(e.entries, d)
    ensures forall d :: d !in Moved(tx, e).rows.deliveries ==> Silent(Moved(tx, e).log, d)
  {
  }

  lemma MoveKeepsAgenda(v: Tables, tx: Tx, move: Move, e: Effect)
    requires Plan(v, tx, move) == Some(e)
    requires forall i :: 0 <= i < |tx.agenda| && !Sweep(tx.agenda[i]) ==> |tx.agenda| == 1
    ensures forall i :: 0 <= i < |e.agenda| && !Sweep(e.agenda[i]) ==> |e.agenda| == 1
  {
    if move.Finish? {
      assert forall i :: 0 <= i < |e.agenda| ==> e.agenda[i] == tx.agenda[i + 1];
    }
  }

  // ---------------------------------------------------------------------------
  // Two transactions beside each other

  /** Two sets of rows over the same tables, written under disjoint locks. */
  ghost predicate Beside(db: Tables, a: Tables, b: Tables, ha: set<Row>, hb: set<Row>) {
    && ha !! hb && Covers(ha, a) && Covers(hb, b)
    && Sound(db) && Sound(Merge(db, a)) && Sound(Merge(db, b))
    && Evolves(db, Merge(db, a), ha) && Evolves(db, Merge(db, b), hb)
  }

  ghost predicate Disjoint(a: Tables, b: Tables) {
    && a.notifications.Keys !! b.notifications.Keys && a.deliveries.Keys !! b.deliveries.Keys
    && a.grants.Keys !! b.grants.Keys && a.preferences.Keys !! b.preferences.Keys && a.consents.Keys !! b.consents.Keys
  }

  lemma LocksKeepApart(a: Tables, b: Tables, ha: set<Row>, hb: set<Row>)
    requires ha !! hb && Covers(ha, a) && Covers(hb, b)
    ensures Disjoint(a, b)
  {
    assert forall row :: row in ha ==> row !in hb;
    forall n | n in a.notifications ensures n !in b.notifications { assert Notifying(n) in ha; }
    forall d | d in a.deliveries ensures d !in b.deliveries { assert Delivering_(d) in ha; }
    forall g | g in a.grants ensures g !in b.grants { assert Granting(g) in ha; }
    forall m | m in a.preferences ensures m !in b.preferences { assert Preferring(m) in ha; }
    forall c | c in a.consents ensures c !in b.consents { assert Consenting(c) in ha; }
  }

  lemma OverCommutes<K, V>(t: map<K, V>, a: map<K, V>, b: map<K, V>)
    requires a.Keys !! b.Keys
    ensures (t + b) + a == (t + a) + b
  {
    assert forall k :: k in a ==> k in a.Keys;
    assert forall k :: k in b ==> k in b.Keys;
  }

  lemma MergeCommutes(db: Tables, a: Tables, b: Tables)
    requires Disjoint(a, b)
    ensures Merge(Merge(db, b), a) == Merge(Merge(db, a), b)
  {
    OverCommutes(db.notifications, a.notifications, b.notifications);
    OverCommutes(db.deliveries, a.deliveries, b.deliveries);
    OverCommutes(db.grants, a.grants, b.grants);
    OverCommutes(db.preferences, a.preferences, b.preferences);
    OverCommutes(db.consents, a.consents, b.consents);
  }

  lemma BesideSwaps(db: Tables, a: Tables, b: Tables, ha: set<Row>, hb: set<Row>)
    requires Beside(db, a, b, ha, hb)
    ensures Beside(db, b, a, hb, ha) && Disjoint(a, b) && Disjoint(b, a)
    ensures Merge(Merge(db, b), a) == Merge(Merge(db, a), b)
  {
    LocksKeepApart(a, b, ha, hb);
    MergeCommutes(db, a, b);
  }

  /** Where a row of the merged tables comes from. */
  lemma MergedRow<K, V>(t: map<K, V>, a: map<K, V>, b: map<K, V>, k: K)
    requires a.Keys !! b.Keys
    ensures k in (t + b) + a <==> k in t || k in a || k in b
    ensures k in (t + b) + a && k !in b ==> k in t + a && ((t + b) + a)[k] == (t + a)[k]
    ensures k in (t + b) + a && k !in a ==> k in t + b && ((t + b) + a)[k] == (t + b)[k]
  {
    if k in b {
      assert k in b.Keys && k !in a.Keys;
    }
  }

  lemma MergedNotifications(db: Tables, a: Tables, b: Tables, ha: set<Row>, hb: set<Row>, n: Uuid)
    requires Beside(db, a, b, ha, hb)
    ensures var va, w := Merge(db, a), Merge(Merge(db, b), a);
            n in va.notifications ==> n in w.notifications && w.notifications[n] == va.notifications[n]
  {
    BesideSwaps(db, a, b, ha, hb);
    MergedRow(db.notifications, a.notifications, b.notifications, n);
    if n in Merge(db, a).notifications && n in b.notifications {
      assert n !in a.notifications && n in db.notifications;
    }
  }

  lemma MergedGrantsKept(db: Tables, a: Tables, b: Tables, ha: set<Row>, hb: set<Row>)
    requires Beside(db, a, b, ha, hb)
    ensures GrantsKept(Merge(db, a), Merge(Merge(db, b), a))
  {
    BesideSwaps(db, a, b, ha, hb);
    var va, vb, w := Merge(db, a), Merge(db, b), Merge(Merge(db, b), a);
    forall g | g in va.grants
      ensures g in w.grants && GrantKept(va.grants[g], w.grants[g])
    {
      MergedRow(db.grants, a.grants, b.grants, g);
      if g in b.grants {
        assert g !in a.grants && g in db.grants && va.grants[g] == db.grants[g] && w.grants[g] == vb.grants[g];
      }
    }
  }

  /** A backed delivery of one side is backed in the merged tables. */
  lemma MergedBacked(db: Tables, a: Tables, b: Tables, ha: set<Row>, hb: set<Row>, row: Delivery)
    requires Beside(db, a, b, ha, hb) && Backed(Merge(db, a), row)
    ensures Backed(Merge(Merge(db, b), a), row)
    ensures forall m :: Concerns(Merge(db, a), row, m) <==> Concerns(Merge(Merge(db, b), a), row, m)
  {
    MergedNotifications(db, a, b, ha, hb, row.notification);
    MergedGrantsKept(db, a, b, ha, hb);
    if row.grant.Some? {
      KeptConsumed(Merge(db, a), Merge(Merge(db, b), a), row.grant.value);
    }
  }

  /** The delivery row belongs to a marketing notification of the membership. */
  predicate Concerns(t: Tables, row: Delivery, m: Uuid) {
    && row.notification in t.notifications
    && t.notifications[row.notification].membership == m && t.notifications[row.notification].class_ == Marketing
  }

  /** A delivery of the merged tables comes from one side or the other. */
  lemma MergedDelivery(db: Tables, a: Tables, b: Tables, ha: set<Row>, hb: set<Row>, d: Uuid)
    requires Beside(db, a, b, ha, hb) && d in Merge(Merge(db, b), a).deliveries
    ensures var va, vb, w := Merge(db, a), Merge(db, b), Merge(Merge(db, b), a);
            && (d !in b.deliveries ==> d in va.deliveries && w.deliveries[d] == va.deliveries[d])
            && (d !in a.deliveries ==> d in vb.deliveries && w.deliveries[d] == vb.deliveries[d])
            && RowShape(w.deliveries[d]) && Backed(w, w.deliveries[d])
  {
    BesideSwaps(db, a, b, ha, hb);
    var va, vb, w := Merge(db, a), Merge(db, b), Merge(Merge(db, b), a);
    MergedRow(db.deliveries, a.deliveries, b.deliveries, d);
    if d in b.deliveries {
      assert RowShape(vb.deliveries[d]) && Backed(vb, vb.deliveries[d]);
      MergedBacked(db, b, a, hb, ha, vb.deliveries[d]);
    } else {
      assert RowShape(va.deliveries[d]) && Backed(va, va.deliveries[d]);
      MergedBacked(db, a, b, ha, hb, va.deliveries[d]);
    }
  }

  /** What both sides wrote or created beside each other shares no grant. */
  lemma MergedGrantsApart(db: Tables, a: Tables, b: Tables, ha: set<Row>, hb: set<Row>, d: Uuid, e: Uuid)
    requires Beside(db, a, b, ha, hb)
    requires var w := Merge(Merge(db, b), a);
             d in w.deliveries && e in w.deliveries && ShareGrant(w.deliveries[d], w.deliveries[e])
    ensures d == e
  {
    BesideSwaps(db, a, b, ha, hb);
    MergedDelivery(db, a, b, ha, hb, d);
    MergedDelivery(db, a, b, ha, hb, e);
    var va, vb := Merge(db, a), Merge(db, b);
    if d !in b.deliveries && e !in b.deliveries {
      assert ShareGrant(va.deliveries[d], va.deliveries[e]);
    } else if d !in a.deliveries && e !in a.deliveries {
      assert ShareGrant(vb.deliveries[d], vb.deliveries[e]);
    } else if d in a.deliveries {
      AcrossShareNothing(db, a, b, ha, hb, d, e);
    } else {
      AcrossShareNothing(db, a, b, ha, hb, e, d);
    }
  }

  lemma AcrossShareNothing(db: Tables, a: Tables, b: Tables, ha: set<Row>, hb: set<Row>, d: Uuid, e: Uuid)
    requires Beside(db, a, b, ha, hb) && d in a.deliveries && e in b.deliveries
    ensures !ShareGrant(a.deliveries[d], b.deliveries[e])
  {
    BesideSwaps(db, a, b, ha, hb);
    var va, vb := Merge(db, a), Merge(db, b);
    assert d !in b.deliveries && e !in a.deliveries;
    assert va.deliveries[d] == a.deliveries[d] && vb.deliveries[e] == b.deliveries[e];
    if d in db.deliveries {
      assert vb.deliveries[d] == db.deliveries[d] && Slides(db.deliveries[d], va.deliveries[d]);
      assert ShareGrant(vb.deliveries[d], vb.deliveries[e]) ==> d == e;
    } else if e in db.deliveries {
      assert va.deliveries[e] == db.deliveries[e] && Slides(db.deliveries[e], vb.deliveries[e]);
      assert ShareGrant(va.deliveries[d], va.deliveries[e]) ==> d == e;
    } else {
      assert CreatedUnder(ha, va, d) && CreatedUnder(hb, vb, e);
      assert forall row :: row in ha ==> row !in hb;
    }
  }

  lemma MergedHappenings(db: Tables, a: Tables, b: Tables, ha: set<Row>, hb: set<Row>, m: Uuid, n: Uuid)
    requires Beside(db, a, b, ha, hb)
    requires var w := Merge(Merge(db, b), a); m in w.notifications && n in w.notifications && SameHappening(w, m, n)
    ensures m == n
  {
    BesideSwaps(db, a, b, ha, hb);
    MergedRow(db.notifications, a.notifications, b.notifications, m);
    MergedRow(db.notifications, a.notifications, b.notifications, n);
    assert forall row :: row in ha ==> row !in hb;
    var va, vb, w := Merge(db, a), Merge(db, b), Merge(Merge(db, b), a);
    if m !in b.notifications && n !in b.notifications {
      assert SameHappening(va, m, n);
    } else if m !in a.notifications && n !in a.notifications {
      assert SameHappening(vb, m, n);
    }
  }

  /** Only the side that holds the lock of a membership's preference adds to its
      marketing deliveries. */
  lemma CountedOnOneSide(db: Tables, a: Tables, b: Tables, ha: set<Row>, hb: set<Row>, m: Uuid, d: Uuid)
    requires Beside(db, a, b, ha, hb) && Preferring(m) !in hb
    requires var w := Merge(Merge(db, b), a); MarketingFor(w, d, m) && Counted(w.deliveries[d])
    ensures var va, w := Merge(db, a), Merge(Merge(db, b), a);
            MarketingFor(va, d, m) && Counted(va.deliveries[d])
                && va.deliveries[d].createdAt == w.deliveries[d].createdAt
  {
    BesideSwaps(db, a, b, ha, hb);
    MergedDelivery(db, a, b, ha, hb, d);
    var va, vb, w := Merge(db, a), Merge(db, b), Merge(Merge(db, b), a);
    if d in b.deliveries {
      var row := vb.deliveries[d];
      assert Backed(vb, row);
      MergedBacked(db, b, a, hb, ha, row);
      assert Concerns(w, row, m) && Concerns(vb, row, m) && MarketingFor(vb, d, m);
      assert d !in db.deliveries ==> CreatedUnder(hb, vb, d);
      assert Slides(db.deliveries[d], row) && va.deliveries[d] == db.deliveries[d];
      assert Backed(va, va.deliveries[d]);
      MergedBacked(db, a, b, ha, hb, va.deliveries[d]);
      assert Concerns(va, va.deliveries[d], m);
    } else {
      assert Backed(va, va.deliveries[d]);
      MergedBacked(db, a, b, ha, hb, va.deliveries[d]);
      assert Concerns(va, va.deliveries[d], m);
    }
  }

  lemma MergedCapsOfOne(db: Tables, a: Tables, b: Tables, ha: set<Row>, hb: set<Row>, m: Uuid, day: int, at: int)
    requires Beside(db, a, b, ha, hb) && Preferring(m) !in hb
    ensures var w := Merge(Merge(db, b), a); |OnDay(w, m, day)| <= 1 && |Within(w, m, at)| <= 3
  {
    var va, w := Merge(db, a), Merge(Merge(db, b), a);
    forall d | d in OnDay(w, m, day) ensures d in OnDay(va, m, day) {
      CountedOnOneSide(db, a, b, ha, hb, m, d);
    }
    forall d | d in Within(w, m, at) ensures d in Within(va, m, at) {
      CountedOnOneSide(db, a, b, ha, hb, m, d);
    }
    SubsetSize(OnDay(w, m, day), OnDay(va, m, day));
    SubsetSize(Within(w, m, at), Within(va, m, at));
    assert |OnDay(va, m, day)| <= 1 && |Within(va, m, at)| <= 3;
  }

  lemma MergedCaps(db: Tables, a: Tables, b: Tables, ha: set<Row>, hb: set<Row>)
    requires Beside(db, a, b, ha, hb)
    ensures CapsHold(Merge(Merge(db, b), a))
  {
    BesideSwaps(db, a, b, ha, hb);
    var w := Merge(Merge(db, b), a);
    forall m, day ensures |OnDay(w, m, day)| <= 1 {
      if Preferring(m) in hb {
        MergedCapsOfOne(db, b, a, hb, ha, m, day, 0);
      } else {
        MergedCapsOfOne(db, a, b, ha, hb, m, day, 0);
      }
    }
    forall m, at ensures |Within(w, m, at)| <= 3 {
      if Preferring(m) in hb {
        MergedCapsOfOne(db, b, a, hb, ha, m, 0, at);
      } else {
        MergedCapsOfOne(db, a, b, ha, hb, m, 0, at);
      }
    }
  }

  lemma MergedSound(db: Tables, a: Tables, b: Tables, ha: set<Row>, hb: set<Row>)
    requires Beside(db, a, b, ha, hb)
    ensures Sound(Merge(Merge(db, b), a))
  {
    var w := Merge(Merge(db, b), a);
    forall d | d in w.deliveries ensures RowShape(w.deliveries[d]) && Backed(w, w.deliveries[d]) {
      MergedDelivery(db, a, b, ha, hb, d);
    }
    forall d, e | d in w.deliveries && e in w.deliveries && ShareGrant(w.deliveries[d], w.deliveries[e])
        ensures d == e {
      MergedGrantsApart(db, a, b, ha, hb, d, e);
    }
    forall m, n | m in w.notifications && n in w.notifications && SameHappening(w, m, n) ensures m == n {
      MergedHappenings(db, a, b, ha, hb, m, n);
    }
    MergedCaps(db, a, b, ha, hb);
  }

  /** Seen from one side, the other one's rows do not matter for how its own evolve. */
  lemma MergedEvolves(db: Tables, a: Tables, b: Tables, ha: set<Row>, hb: set<Row>)
    requires Beside(db, a, b, ha, hb)
    ensures Evolves(Merge(db, b), Merge(Merge(db, b), a), ha)
  {
    BesideSwaps(db, a, b, ha, hb);
    MergedGrantsKept(db, b, a, hb, ha);
    var va, vb, w := Merge(db, a), Merge(db, b), Merge(Merge(db, b), a);
    forall n | n in vb.notifications ensures n in w.notifications && w.notifications[n] == vb.notifications[n] {
      MergedNotifications(db, b, a, hb, ha, n);
    }
    forall d | d in vb.deliveries ensures d in w.deliveries && Slides(vb.deliveries[d], w.deliveries[d]) {
      MergedRow(db.deliveries, a.deliveries, b.deliveries, d);
    }
    forall d | d in w.deliveries && d !in vb.deliveries ensures CreatedUnder(ha, w, d) {
      MergedDelivery(db, a, b, ha, hb, d);
      assert CreatedUnder(ha, va, d) && Backed(va, va.deliveries[d]);
      MergedBacked(db, a, b, ha, hb, va.deliveries[d]);
      assert forall m :: MarketingFor(w, d, m) ==> Concerns(va, va.deliveries[d], m) && MarketingFor(va, d, m);
    }
  }

  lemma MergedLog(db: Tables, log: seq<Entry>, x: Tx, y: Tx, hx: set<Row>, hy: set<Row>)
    requires TxOk(db, log, hx, x) && TxOk(db, log, hy, y) && Beside(db, x.rows, y.rows, hx, hy)
    ensures LogAgrees(Merge(Merge(db, y.rows), x.rows), (log + y.log) + x.log)
  {
    BesideSwaps(db, x.rows, y.rows, hx, hy);
    var vx, vy, w := Merge(db, x.rows), Merge(db, y.rows), Merge(Merge(db, y.rows), x.rows);
    var all := log + y.log + x.log;
    forall d ensures d in w.deliveries ==> DeliveryLogged(w.deliveries[d], all, d)
             ensures d !in w.deliveries ==> Reports(all, d) == 0
    {
      if d in w.deliveries {
        MergedDelivery(db, x.rows, y.rows, hx, hy, d);
      } else {
        MergedRow(db.deliveries, x.rows.deliveries, y.rows.deliveries, d);
      }
      if d in x.rows.deliveries {
        assert d !in y.rows.deliveries && DeliveryLogged(vx.deliveries[d], log + x.log, d);
        SilentInsert(log, y.log, x.log, d);
      } else {
        assert d in vy.deliveries ==> DeliveryLogged(vy.deliveries[d], log + y.log, d);
        SilentAppend(log + y.log, x.log, d);
      }
    }
  }

  lemma CommitKeepsTx(db: Tables, log: seq<Entry>, x: Tx, y: Tx, hx: set<Row>, hy: set<Row>)
    requires Sound(db) && hx !! hy && TxOk(db, log, hx, x) && TxOk(db, log, hy, y)
    ensures TxOk(Merge(db, y.rows), log + y.log, hx, x)
  {
    MergedSound(db, x.rows, y.rows, hx, hy);
    MergedEvolves(db, x.rows, y.rows, hx, hy);
    MergedLog(db, log, x, y, hx, hy);
  }
}
