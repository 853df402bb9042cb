/** Laws of marketing deliveries over every interleaving of calls: frequency caps,
    single-use grants, leases and attempts, and what becomes of final deliveries. */
module MarketingRuns {
  import opened Sql
  import opened MarketingAuthority
  import opened MarketingLaws
  import opened MarketingProtocol
  import opened MarketingMoves

  // ---------------------------------------------------------------------------
  // The invariant of all transactions

  ghost predicate Inv(s: State) {
    && Sound(s.db) && LogAgrees(s.db, s.log)
    && (forall row :: row in s.locks ==> s.locks[row] in s.txs)
    && (forall id :: id in s.txs ==> TxOk(s.db, s.log, Held(s.locks, id), s.txs[id]))
  }

  lemma InitialInv()
    ensures Inv(INITIAL)
  {
    EmptyIsSound();
  }

  lemma HeldApart(locks: map<Row, Uuid>, x: Uuid, y: Uuid)
    requires x != y
    ensures Held(locks, x) !! Held(locks, y)
  {
  }

  lemma HeldAfterLocking(locks: map<Row, Uuid>, rows: set<Row>, id: Uuid, other: Uuid)
    requires Lockable(locks, rows, id)
    ensures Held(Locked(locks, rows, id), id) == Held(locks, id) + rows
    ensures other != id ==> Held(Locked(locks, rows, id), other) == Held(locks, other)
  {
  }

  lemma HeldAfterUnlocking(locks: map<Row, Uuid>, id: Uuid, other: Uuid)
    requires other != id
    ensures Held(Unlocked(locks, id), other) == Held(locks, other)
  {
  }

  lemma BeginKeepsInv(s: State, id: Uuid)
    requires Inv(s)
    ensures Inv(Next(s, Begin(id)))
  {
    if id !in s.txs {
      FreshTxOk(s.db, s.log);
      assert Held(s.locks, id) == {};
    }
  }

  /** A move that is not refused. */
  lemma DoTakes(s: State, id: Uuid, move: Move)
    requires Next(s, Do(id, move)) != s
    ensures id in s.txs && Plan(ViewOf(s, id), s.txs[id], move).Some?
    ensures var e := Plan(ViewOf(s, id), s.txs[id], move).value;
            Lockable(s.locks, e.locks, id) && Next(s, Do(id, move)) == Advanced(s, id, e)
  {
  }

  ghost function Advanced(s: State, id: Uuid, e: Effect): State
    requires id in s.txs
  {
    s.(locks := Locked(s.locks, e.locks, id), txs := s.txs[id := Moved(s.txs[id], e)])
  }

  lemma AdvanceKeepsInv(s: State, id: Uuid, e: Effect)
    requires Inv(s) && id in s.txs && Lockable(s.locks, e.locks, id)
    requires TxOk(s.db, s.log, Held(s.locks, id) + e.locks, Moved(s.txs[id], e))
    ensures Inv(Advanced(s, id, e))
  {
    var t := Advanced(s, id, e);
    forall other | other in t.txs ensures TxOk(t.db, t.log, Held(t.locks, other), t.txs[other]) {
      HeldAfterLocking(s.locks, e.locks, id, other);
      assert other != id ==> TxOk(s.db, s.log, Held(s.locks, other), s.txs[other]);
    }
  }

  lemma DoKeepsInv(s: State, id: Uuid, move: Move)
    requires Inv(s)
    ensures Inv(Next(s, Do(id, move)))
  {
    if Next(s, Do(id, move)) != s {
      DoTakes(s, id, move);
      var e := Plan(ViewOf(s, id), s.txs[id], move).value;
      MoveKeepsTx(s.db, s.log, Held(s.locks, id), s.txs[id], move, e);
      AdvanceKeepsInv(s, id, e);
    }
  }

  lemma CommitKeepsInv(s: State, id: Uuid)
    requires Inv(s)
    ensures Inv(Next(s, Commit(id)))
  {
    var t := Next(s, Commit(id));
    if t != s {
      assert TxOk(s.db, s.log, Held(s.locks, id), s.txs[id]);
      forall other | other in t.txs ensures TxOk(t.db, t.log, Held(t.locks, other), t.txs[other]) {
        HeldApart(s.locks, other, id);
        HeldAfterUnlocking(s.locks, id, other);
        assert TxOk(s.db, s.log, Held(s.locks, other), s.txs[other]);
        CommitKeepsTx(s.db, s.log, s.txs[other], s.txs[id], Held(s.locks, other), Held(s.locks, id));
      }
    }
  }

  lemma AbortKeepsInv(s: State, id: Uuid)
    requires Inv(s)
    ensures Inv(Next(s, Abort(id)))
  {
    if id in s.txs {
      AbortTakes(s, id);
      DroppedKeepsInv(s, id);
    }
  }

  function Aborted(s: State, id: Uuid): State {
    s.(locks := Unlocked(s.locks, id), txs := s.txs - {id})
  }

  lemma AbortTakes(s: State, id: Uuid)
    requires id in s.txs
    ensures Next(s, Abort(id)) == Aborted(s, id)
  {
  }

  lemma DroppedKeepsInv(s: State, id: Uuid)
    requires Inv(s) && id in s.txs
    ensures Inv(Aborted(s, id))
  {
    var t := Aborted(s, id);
    forall other | other in t.txs ensures TxOk(t.db, t.log, Held(t.locks, other), t.txs[other]) {
      HeldAfterUnlocking(s.locks, id, other);
      assert TxOk(s.db, s.log, Held(s.locks, other), s.txs[other]);
    }
  }

  /** Every move of every call, every commit and every abort keeps the invariant of the
      committed tables and of all running transactions. */
  lemma StepKeepsInv(s: State, step: Step)
    requires Inv(s)
    ensures Inv(Next(s, step))
  {
    match step
    case Begin(id) => BeginKeepsInv(s, id);
    case Do(id, move) => DoKeepsInv(s, id, move);
    case Commit(id) => CommitKeepsInv(s, id);
    case Abort(id) => AbortKeepsInv(s, id);
  }

  lemma {:induction false} RunKeepsInv(s: State, steps: seq<Step>)
    requires Inv(s)
    ensures Inv(Run(s, steps))
    decreases |steps|
  {
    if steps != [] {
      StepKeepsInv(s, steps[0]);
      RunKeepsInv(Next(s, steps[0]), steps[1..]);
    }
  }

  // ---------------------------------------------------------------------------
  // Main results

  /** The rate limit: at every moment of every interleaving each membership has at most
      one counted delivery created on a Shanghai day and three created in a half-open
      window of seven days. */
  lemma RateLimit(s: State, steps: seq<Step>, m: Uuid, day: int, at: int)
    requires Inv(s)
    ensures var t := Run(s, steps).db;
            |OnDay(t, m, day)| <= 1 && |Within(t, m, at)| <= 3
  {
    RunKeepsInv(s, steps);
  }

  /** Every counted delivery consumed a grant, and no grant served twice. */
  lemma GrantsAreSingleUse(s: State, steps: seq<Step>, d: Uuid, e: Uuid)
    requires Inv(s) && d in Run(s, steps).db.deliveries && e in Run(s, steps).db.deliveries
    ensures var t := Run(s, steps).db;
            && (Counted(t.deliveries[d]) ==> t.deliveries[d].grant.Some?)
            && (t.deliveries[d].grant.Some? ==>
                  t.deliveries[d].grant.value in t.grants && t.grants[t.deliveries[d].grant.value].status == Consumed)
            && (t.deliveries[d].grant.Some? && t.deliveries[d].grant == t.deliveries[e].grant ==> d == e)
  {
    RunKeepsInv(s, steps);
    var t := Run(s, steps).db;
    assert RowShape(t.deliveries[d]) && Backed(t, t.deliveries[d]);
    assert ShareGrant(t.deliveries[d], t.deliveries[e]) ==> d == e;
  }

  /** Leases and attempts: under way exactly while a lease is present, and then under
      the latest token granted; as many accepted results as attempts, each paid for by
      a lease of its own; never more than three, one or two while failed. */
  lemma LeaseDiscipline(s: State, steps: seq<Step>, d: Uuid)
    requires Inv(s) && d in Run(s, steps).db.deliveries
    ensures var t := Run(s, steps);
            var row := t.db.deliveries[d];
            && (row.status == Delivering <==> row.lease.Some? && row.leaseUntil.Some?)
            && (row.status == Delivering ==> row.lease == LatestToken(t.log, d))
            && Reports(t.log, d) == row.attempts <= 3
            && Reports(t.log, d) + (if row.status == Delivering then 1 else 0) <= Leases(t.log, d)
            && (row.status == Failed ==> 1 <= row.attempts <= 2)
            && (row.status == Pending ==> row.attempts == 0)
  {
    RunKeepsInv(s, steps);
    var t := Run(s, steps);
    assert RowShape(t.db.deliveries[d]) && DeliveryLogged(t.db.deliveries[d], t.log, d);
  }

  predicate ByOthers(steps: seq<Step>, id: Uuid) {
    forall i :: 0 <= i < |steps| ==> steps[i].id != id
  }

  lemma StepKeepsDelivery(s: State, step: Step, d: Uuid)
    requires d in s.db.deliveries
    ensures d in Next(s, step).db.deliveries
  {
  }

  lemma {:induction false} RunKeepsDelivery(s: State, steps: seq<Step>, d: Uuid)
    requires d in s.db.deliveries
    ensures d in Run(s, steps).db.deliveries
    decreases |steps|
  {
    if steps != [] {
      StepKeepsDelivery(s, steps[0], d);
      RunKeepsDelivery(Next(s, steps[0]), steps[1..], d);
    }
  }

  lemma {:induction false} OthersLeaveTx(s: State, steps: seq<Step>, id: Uuid)
    requires id in s.txs && ByOthers(steps, id)
    ensures id in Run(s, steps).txs && Run(s, steps).txs[id] == s.txs[id]
    decreases |steps|
  {
    if steps != [] {
      assert steps[0].id != id;
      OthersLeaveTx(Next(s, steps[0]), steps[1..], id);
    }
  }

  /** What the UPDATE of a lease makes of the delivery. */
  function AfterLease(row: Delivery, token: Option<Uuid>, now: int, found: bool): Delivery {
    if found then Dropped(row)
    else if Attemptable(row, now) then row.(status := Delivering, lease := token, leaseUntil := Some(now + 30 * SECOND))
    else row
  }

  lemma LeaseOpens(s: State, id: Uuid, d: Uuid, token: Option<Uuid>, now: int) returns (opening: Step)
    requires id in s.txs && s.txs[id].agenda == [] && d in ViewOf(s, id).deliveries
    ensures opening == Do(id, Start(Lease(d, token, now)))
    ensures var v, t := ViewOf(s, id), Next(s, opening);
            id in t.txs && |t.txs[id].agenda| == 1
            && t.txs[id].agenda[0] == FinishLease(d, token, now, Attemptable(v.deliveries[d], now), !Unwelcome(v, d))
  {
    opening := Do(id, Start(Lease(d, token, now)));
  }

  lemma LeaseWrites(v: Tables, tx: Tx, d: Uuid, token: Option<Uuid>, now: int, due: bool, welcome: bool, choice: Choice)
    requires tx.agenda == [FinishLease(d, token, now, due, welcome)] && d in v.deliveries
    requires Plan(v, tx, Finish(choice)).Some?
    ensures var w := Merge(v, Plan(v, tx, Finish(choice)).value.delta);
            d in w.deliveries && w.deliveries[d] == AfterLease(v.deliveries[d], token, now, due && !welcome)
  {
  }

  lemma AdvancedView(s: State, id: Uuid, e: Effect)
    requires id in s.txs
    ensures id in Advanced(s, id, e).txs && ViewOf(Advanced(s, id, e), id) == Merge(ViewOf(s, id), e.delta)
  {
    MergeTwice(s.db, s.txs[id].rows, e.delta);
  }

  lemma LeaseCloses(
      s: State, id: Uuid, d: Uuid, token: Option<Uuid>, now: int, due: bool, welcome: bool, choice: Choice)
    requires id in s.txs && s.txs[id].agenda == [FinishLease(d, token, now, due, welcome)]
    requires d in ViewOf(s, id).deliveries && Next(s, Do(id, Finish(choice))) != s
    ensures var t := Next(s, Do(id, Finish(choice)));
            id in t.txs && d in ViewOf(t, id).deliveries
            && ViewOf(t, id).deliveries[d] == AfterLease(ViewOf(s, id).deliveries[d], token, now, due && !welcome)
  {
    DoTakes(s, id, Finish(choice));
    LeaseWrites(ViewOf(s, id), s.txs[id], d, token, now, due, welcome, choice);
    AdvancedView(s, id, Plan(ViewOf(s, id), s.txs[id], Finish(choice)).value);
  }

  /** A lease call decides by the test it began with, whatever others do before it writes:
      it suppresses the delivery exactly when that test found it due and its membership not
      to be marketed to, and otherwise grants the lease if the delivery is due by then. */
  lemma LeaseDecidesByItsTest(s: State, id: Uuid, d: Uuid, token: Option<Uuid>, now: int, steps: seq<Step>,
        choice: Choice)
    requires id in s.txs && s.txs[id].agenda == [] && d in ViewOf(s, id).deliveries && ByOthers(steps, id)
    requires var u := Run(Next(s, Do(id, Start(Lease(d, token, now)))), steps); Next(u, Do(id, Finish(choice))) != u
    ensures var v := ViewOf(s, id);
            var u := Run(Next(s, Do(id, Start(Lease(d, token, now)))), steps);
            var t := Next(u, Do(id, Finish(choice)));
            && id in u.txs && id in t.txs && d in ViewOf(u, id).deliveries && d in ViewOf(t, id).deliveries
            && ViewOf(t, id).deliveries[d]
               == AfterLease(ViewOf(u, id).deliveries[d], token, now,
                             Attemptable(v.deliveries[d], now) && Unwelcome(v, d))
  {
    var v := ViewOf(s, id);
    var opening := LeaseOpens(s, id, d, token, now);
    var s1 := Next(s, opening);
    OthersLeaveTx(s1, steps, id);
    var u := Run(s1, steps);
    if d in s1.db.deliveries {
      RunKeepsDelivery(s1, steps, d);
    }
    LeaseCloses(u, id, d, token, now, Attemptable(v.deliveries[d], now), !Unwelcome(v, d), choice);
  }

  /** A result is accepted only under the latest token granted, committed or not, before
      its lease ran out, and the lease is then over. */
  lemma OnlyCurrentTokenReports(s: State, id: Uuid, q: ResultRequest)
    requires Inv(s) && id in s.txs && Next(s, Do(id, Start(Report(q)))) != s
    ensures HoldsLease(ViewOf(s, id), q)
    ensures q.token.Some? && q.token == LatestToken(s.log + s.txs[id].log, q.delivery)
    ensures forall other :: other in s.txs && other != id ==> Silent(s.txs[other].log, q.delivery)
    ensures forall again: ResultRequest :: again.delivery == q.delivery ==>
              !HoldsLease(ViewOf(Next(s, Do(id, Start(Report(q)))), id), again)
  {
    DoTakes(s, id, Start(Report(q)));
    var v := ViewOf(s, id);
    var e := Plan(v, s.txs[id], Start(Report(q))).value;
    assert TxOk(s.db, s.log, Held(s.locks, id), s.txs[id]);
    ReportTakes(v, s.txs[id], q);
    assert RowShape(v.deliveries[q.delivery]);
    assert DeliveryLogged(v.deliveries[q.delivery], s.log + s.txs[id].log, q.delivery);
    forall other | other in s.txs && other != id ensures Silent(s.txs[other].log, q.delivery) {
      UnlockedIsSilent(s, other, q.delivery);
    }
    assert ViewOf(Advanced(s, id, e), id).deliveries[q.delivery] == e.delta.deliveries[q.delivery];
  }

  lemma ReportTakes(v: Tables, tx: Tx, q: ResultRequest)
    requires Plan(v, tx, Start(Report(q))).Some?
    ensures HoldsLease(v, q)
    ensures var e := Plan(v, tx, Start(Report(q))).value;
            && Delivering_(q.delivery) in e.locks
            && q.delivery in e.delta.deliveries && e.delta.deliveries[q.delivery].status != Delivering
  {
  }

  lemma UnlockedIsSilent(s: State, id: Uuid, d: Uuid)
    requires Inv(s) && id in s.txs && !Holds(s.locks, Delivering_(d), id)
    ensures Silent(s.txs[id].log, d)
  {
    assert TxOk(s.db, s.log, Held(s.locks, id), s.txs[id]);
  }

  /** A committed notification stays, and its event gets no other one: whoever creates for
      that event again, at any later time, finds this notification and changes nothing. */
  lemma EventIsTakenOnce(s: State, steps: seq<Step>, n: Uuid, q: CreateRequest, choice: Choice, id: Uuid)
    requires Inv(s) && n in s.db.notifications && s.db.notifications[n].happening == q.happening
    ensures var t := Run(s, steps);
            && n in t.db.notifications && t.db.notifications[n] == s.db.notifications[n]
            && (forall k :: k in t.db.notifications && t.db.notifications[k].happening == q.happening ==> k == n)
            && (id in t.txs ==>
                  && ClosingCreate(ViewOf(t, id), q, choice) == Some(Rest([]))
                  && NotificationOf(ViewOf(t, id), q.happening) == n)
  {
    RunKeepsNotification(s, steps, n);
    RunKeepsInv(s, steps);
    var t := Run(s, steps);
    assert forall k ::
        k in t.db.notifications && t.db.notifications[k].happening == q.happening ==> SameHappening(t.db, k, n);
    if id in t.txs {
      assert TxOk(t.db, t.log, Held(t.locks, id), t.txs[id]);
      var k := NotificationOf(ViewOf(t, id), q.happening);
      assert SameHappening(ViewOf(t, id), k, n);
    }
  }

  lemma {:induction false} RunKeepsNotification(s: State, steps: seq<Step>, n: Uuid)
    requires Inv(s) && n in s.db.notifications
    ensures n in Run(s, steps).db.notifications && Run(s, steps).db.notifications[n] == s.db.notifications[n]
    decreases |steps|
  {
    if steps != [] {
      StepKeepsInv(s, steps[0]);
      if steps[0].Commit? && steps[0].id in s.txs {
        assert TxOk(s.db, s.log, Held(s.locks, steps[0].id), s.txs[steps[0].id]);
      }
      RunKeepsNotification(Next(s, steps[0]), steps[1..], n);
    }
  }

  // ---------------------------------------------------------------------------
  // Final deliveries

  /** A lease call is about to suppress the delivery, having found it due and unwelcome. */
  predicate Drops(task: Task, d: Uuid) {
    task.FinishLease? && task.delivery == d && task.due && !task.welcome
  }

  predicate DropPending(s: State, d: Uuid) {
    exists id :: id in s.txs && s.txs[id].agenda != [] && Drops(s.txs[id].agenda[0], d)
  }

  predicate NoDrop(agenda: seq<Task>, d: Uuid) {
    forall i :: 0 <= i < |agenda| ==> !Drops(agenda[i], d)
  }

  /** The delivery is final, and nobody is about to touch it. */
  ghost predicate Settled(s: State, d: Uuid, row: Delivery) {
    && d in s.db.deliveries && s.db.deliveries[d] == row && Final(row) && Delivering_(d) !in s.locks
    && forall id :: id in s.txs ==> NoDrop(s.txs[id].agenda, d)
  }

  lemma OpeningLeavesFinal(v: Tables, call: Call, d: Uuid)
    requires RowsOk(v) && d in v.deliveries && Final(v.deliveries[d]) && Opening(v, call).Some?
    ensures var e := Opening(v, call).value;
            d !in e.delta.deliveries && Delivering_(d) !in e.locks && NoDrop(e.agenda, d)
  {
    assert RowShape(v.deliveries[d]);
  }

  lemma ClosingLeavesFinal(v: Tables, tx: Tx, choice: Choice, d: Uuid)
    requires RowsOk(v) && d in v.deliveries && Final(v.deliveries[d])
    requires tx.agenda != [] && Closing(v, tx, choice).Some? && NoDrop(tx.agenda, d)
    ensures var e := Closing(v, tx, choice).value; d !in e.delta.deliveries && Delivering_(d) !in e.locks
  {
    assert RowShape(v.deliveries[d]);
    assert !Drops(tx.agenda[0], d);
  }

  lemma PlanLeavesFinal(v: Tables, tx: Tx, move: Move, d: Uuid)
    requires RowsOk(v) && d in v.deliveries && Final(v.deliveries[d])
    requires NoDrop(tx.agenda, d) && Plan(v, tx, move).Some?
    ensures var e := Plan(v, tx, move).value;
            d !in e.delta.deliveries && Delivering_(d) !in e.locks && NoDrop(e.agenda, d)
  {
    match move
    case Start(call) => OpeningLeavesFinal(v, call, d);
    case Look =>
    case Finish(choice) => ClosingLeavesFinal(v, tx, choice, d);
  }

  /** A transaction without the lock of a delivery sees the committed row. */
  lemma SeesCommitted(s: State, id: Uuid, d: Uuid)
    requires Inv(s) && id in s.txs && d in s.db.deliveries && !Holds(s.locks, Delivering_(d), id)
    ensures d !in s.txs[id].rows.deliveries
    ensures d in ViewOf(s, id).deliveries && ViewOf(s, id).deliveries[d] == s.db.deliveries[d] && RowsOk(ViewOf(s, id))
  {
    assert TxOk(s.db, s.log, Held(s.locks, id), s.txs[id]);
  }

  lemma StepKeepsSettled(s: State, step: Step, d: Uuid, row: Delivery)
    requires Inv(s) && Settled(s, d, row)
    ensures Settled(Next(s, step), d, row)
  {
    if step.id in s.txs {
      SeesCommitted(s, step.id, d);
      assert NoDrop(s.txs[step.id].agenda, d);
      if step.Do? && Next(s, step) != s {
        DoTakes(s, step.id, step.move);
        PlanLeavesFinal(ViewOf(s, step.id), s.txs[step.id], step.move, d);
      }
    }
  }

  lemma {:induction false} RunKeepsSettled(s: State, steps: seq<Step>, d: Uuid, row: Delivery)
    requires Inv(s) && Settled(s, d, row)
    ensures Settled(Run(s, steps), d, row)
    decreases |steps|
  {
    if steps != [] {
      StepKeepsSettled(s, steps[0], d, row);
      StepKeepsInv(s, steps[0]);
      RunKeepsSettled(Next(s, steps[0]), steps[1..], d, row);
    }
  }

  lemma {:induction false} RunAppends(s: State, a: seq<Step>, b: seq<Step>)
    ensures Run(s, a + b) == Run(Run(s, a), b)
    decreases |a|
  {
    if a == [] {
      assert a + b == b;
    } else {
      assert (a + b)[0] == a[0] && (a + b)[1..] == a[1..] + b;
      RunAppends(Next(s, a[0]), a[1..], b);
    }
  }

  lemma RunOne(s: State, step: Step)
    ensures Run(s, [step]) == Next(s, step)
  {
    assert [step][1..] == [];
    assert Run(s, [step]) == Run(Next(s, step), []);
  }

  lemma RunTwo(s: State, first: Step, second: Step)
    ensures Run(s, [first, second]) == Next(Next(s, first), second)
  {
    assert [first, second][1..] == [second] && [second][1..] == [];
    assert Run(Next(s, first), [second]) == Run(Next(Next(s, first), second), []);
  }

  lemma OnlySweepsQueue(s: State, id: Uuid)
    requires Inv(s) && id in s.txs
    ensures forall i :: 0 <= i < |s.txs[id].agenda| && !Sweep(s.txs[id].agenda[i]) ==> |s.txs[id].agenda| == 1
  {
    assert TxOk(s.db, s.log, Held(s.locks, id), s.txs[id]);
  }

  lemma DropIsPlanned(v: Tables, tx: Tx, d: Uuid)
    requires d in v.deliveries && |tx.agenda| == 1 && Drops(tx.agenda[0], d)
    ensures Plan(v, tx, Finish(HoldBack)) == Some(OneDelivery(d, Dropped(v.deliveries[d]), []))
  {
    assert tx.agenda[1..] == [];
  }

  lemma DropTakes(s: State, id: Uuid, d: Uuid) returns (u: State, steps: seq<Step>)
    requires id in s.txs && d in ViewOf(s, id).deliveries && Delivering_(d) !in s.locks
    requires |s.txs[id].agenda| == 1 && Drops(s.txs[id].agenda[0], d)
    ensures u == Run(s, steps)
            && u == Advanced(s, id, OneDelivery(d, Dropped(ViewOf(s, id).deliveries[d]), []))
  {
    DropIsPlanned(ViewOf(s, id), s.txs[id], d);
    steps := [Do(id, Finish(HoldBack))];
    RunOne(s, steps[0]);
    u := Next(s, steps[0]);
  }

  lemma DropLands(s: State, id: Uuid, d: Uuid, row: Delivery) returns (steps: seq<Step>)
    requires id in s.txs
    ensures var u := Run(Advanced(s, id, OneDelivery(d, row, [])), steps);
            d in u.db.deliveries && u.db.deliveries[d] == row
  {
    steps := [Commit(id)];
    RunOne(Advanced(s, id, OneDelivery(d, row, [])), Commit(id));
  }

  /** Finishing and committing such a lease call suppresses the delivery. */
  lemma PendingDropOverwrites(s: State, d: Uuid, id: Uuid) returns (steps: seq<Step>)
    requires Inv(s) && d in s.db.deliveries && Delivering_(d) !in s.locks
    requires id in s.txs && s.txs[id].agenda != [] && Drops(s.txs[id].agenda[0], d)
    ensures var t := Run(s, steps);
            d in t.db.deliveries && t.db.deliveries[d] == Dropped(s.db.deliveries[d])
  {
    SeesCommitted(s, id, d);
    OnlySweepsQueue(s, id);
    var u, finish := DropTakes(s, id, d);
    var commit := DropLands(s, id, d, Dropped(s.db.deliveries[d]));
    RunAppends(s, finish, commit);
    steps := finish + commit;
  }

  lemma NobodyDrops(s: State, d: Uuid)
    requires Inv(s) && !DropPending(s, d)
    ensures forall id :: id in s.txs ==> NoDrop(s.txs[id].agenda, d)
  {
    forall id | id in s.txs ensures NoDrop(s.txs[id].agenda, d) {
      OnlySweepsQueue(s, id);
    }
  }

  ghost predicate Unchanged(s: State, steps: seq<Step>, d: Uuid)
    requires d in s.db.deliveries
  {
    d in Run(s, steps).db.deliveries && Run(s, steps).db.deliveries[d] == s.db.deliveries[d]
  }

  ghost predicate StaysForGood(s: State, d: Uuid)
    requires d in s.db.deliveries
  {
    forall steps :: Unchanged(s, steps, d)
  }

  lemma PendingDropChanges(s: State, d: Uuid)
    requires Inv(s) && d in s.db.deliveries && Delivering_(d) !in s.locks && DropPending(s, d)
    requires s.db.deliveries[d].status != Suppressed
    ensures !StaysForGood(s, d)
  {
    var id :| id in s.txs && s.txs[id].agenda != [] && Drops(s.txs[id].agenda[0], d);
    var steps := PendingDropOverwrites(s, d, id);
    assert !Unchanged(s, steps, d);
  }

  lemma UntouchedStays(s: State, d: Uuid)
    requires Inv(s) && d in s.db.deliveries && Delivering_(d) !in s.locks && !DropPending(s, d)
    requires Final(s.db.deliveries[d])
    ensures StaysForGood(s, d)
  {
    NobodyDrops(s, d);
    forall steps ensures Unchanged(s, steps, d) {
      RunKeepsSettled(s, steps, d, s.db.deliveries[d]);
    }
  }

  /** A committed row is final for whoever sees it: kept, or suppressed. */
  lemma SeenFinal(s: State, id: Uuid, d: Uuid)
    requires Inv(s) && id in s.txs && d in s.db.deliveries && Final(s.db.deliveries[d])
    ensures d in ViewOf(s, id).deliveries
    ensures ViewOf(s, id).deliveries[d] in {s.db.deliveries[d], Dropped(s.db.deliveries[d])}
  {
    assert TxOk(s.db, s.log, Held(s.locks, id), s.txs[id]);
  }

  lemma StepKeepsSuppressed(s: State, step: Step, d: Uuid)
    requires Inv(s) && d in s.db.deliveries && s.db.deliveries[d].status == Suppressed
    ensures d in Next(s, step).db.deliveries && Next(s, step).db.deliveries[d] == s.db.deliveries[d]
  {
    SuppressedIsDropped(s.db, d);
    if step.Commit? && step.id in s.txs {
      SeenFinal(s, step.id, d);
    } else {
      OnlyCommitsPublish(s, step);
    }
  }

  lemma SuppressedIsDropped(t: Tables, d: Uuid)
    requires RowsOk(t) && d in t.deliveries && t.deliveries[d].status == Suppressed
    ensures Dropped(t.deliveries[d]) == t.deliveries[d]
  {
    assert RowShape(t.deliveries[d]);
  }

  lemma OnlyCommitsPublish(s: State, step: Step)
    requires !step.Commit? || step.id !in s.txs
    ensures Next(s, step).db == s.db
  {
  }

  lemma {:induction false} RunKeepsSuppressed(s: State, steps: seq<Step>, d: Uuid)
    requires Inv(s) && d in s.db.deliveries && s.db.deliveries[d].status == Suppressed
    ensures Unchanged(s, steps, d)
    decreases |steps|
  {
    if steps != [] {
      StepKeepsSuppressed(s, steps[0], d);
      StepKeepsInv(s, steps[0]);
      RunKeepsSuppressed(Next(s, steps[0]), steps[1..], d);
    }
  }

  /** A suppressed delivery stays as it is over every run, whoever has it locked and
      whatever is still to write. */
  lemma SuppressedStays(s: State, d: Uuid)
    requires Inv(s) && d in s.db.deliveries && s.db.deliveries[d].status == Suppressed
    ensures StaysForGood(s, d)
  {
    forall steps ensures Unchanged(s, steps, d) {
      RunKeepsSuppressed(s, steps, d);
    }
  }

  /** A final delivery nobody has locked stays as it is over every run if and only if it is
      suppressed or no lease call that found it due and unwelcome before is still to write:
      that UPDATE names the row by its id alone. */
  lemma FinalStaysIff(s: State, d: Uuid)
    requires Inv(s) && d in s.db.deliveries && Delivering_(d) !in s.locks && Final(s.db.deliveries[d])
    ensures StaysForGood(s, d) <==> s.db.deliveries[d].status == Suppressed || !DropPending(s, d)
  {
    if s.db.deliveries[d].status == Suppressed {
      SuppressedStays(s, d);
    } else if DropPending(s, d) {
      PendingDropChanges(s, d);
    } else {
      UntouchedStays(s, d);
    }
  }
}
