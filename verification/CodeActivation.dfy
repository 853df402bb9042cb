/** What the delivery protocol makes possible and what it needs: exactly which delivered
    batches a run can activate, and why the production batch is locked. */
module CodeActivation {
  import opened Sql
  import opened CodeDelivery
  import opened CodeLaws
  import opened CodeProtocol
  import opened CodeRuns

  // ---------------------------------------------------------------------------
  // When the batch guard lets a delivered batch be activated

  /** With its evidence in order and its production batch active, a delivered batch may be
      activated if and only if every one of its items is. */
  lemma ActivationAcceptedIff(v: Tables, today: int, id: Uuid)
    requires id in v.batches && v.batches[id].contract == 1 && v.batches[id].status == Delivered
    requires MetadataFits(v.batches[id]) && v.batches[id].expected.Some? && ManifestValid(v, id, v.batches[id])
    requires ProductionActive(v, today, v.batches[id].production)
    ensures var row := v.batches[id].(status := Activated);
            BatchGuard(v, RUNTIME, today, id, Some(v.batches[id]), row) == Some(row)
            <==> forall i :: i in ItemsOf(v, id) ==> v.items[i].status == ActivatedItem
  {
  }

  /** A delivered batch with a revoked item stays delivered over every run, and the item
      stays revoked. */
  lemma RevokedItemBlocksActivation(s: State, steps: seq<Step>, b: Uuid, i: Uuid)
    requires Inv(s) && b in s.db.batches && s.db.batches[b].status == Delivered
    requires i in s.db.items && s.db.items[i].batch == b && s.db.items[i].status == RevokedItem
    ensures var db := Runs(s, steps).db;
            && b in db.batches && db.batches[b].status == Delivered
            && i in db.items && db.items[i].batch == b && db.items[i].status == RevokedItem
  {
    RunsKeepInv(s, steps);
    assert Stuck(s.db, b);
    assert BatchEvolves(s.db, Runs(s, steps).db, b) && ItemEvolves(s.db, Runs(s, steps).db, i);
  }

  // ---------------------------------------------------------------------------
  // A run that activates

  /** No lock of any other transaction is in the way of `tx`. */
  ghost predicate Free(locks: Locks, tx: Uuid) {
    forall row :: row in locks ==>
      if locks[row].Exclusive? then locks[row].holder == tx else locks[row].holders <= {tx}
  }

  lemma FreeGrants(locks: Locks, tx: Uuid, request: Option<(Uuid, bool)>)
    requires Free(locks, tx)
    ensures request.Some? ==> Grantable(locks, request.value.0, tx, request.value.1)
    ensures Free(Locked(locks, tx, request), tx)
  {
  }

  lemma {:induction false} RunsAppend(s: State, first: seq<Step>, second: seq<Step>)
    ensures Runs(s, first + second) == Runs(Runs(s, first), second)
    decreases |first|
  {
    if first == [] {
      assert first + second == second;
    } else {
      assert (first + second)[1..] == first[1..] + second;
      RunsAppend(if Next(s, first[0]).Some? then Next(s, first[0]).value else s, first[1..], second);
    }
  }

  /** A statement of the only running transaction goes through once it is accepted. */
  lemma RunsAlone(s: State, x: Tx, today: int, statement: Statement, e: Effect)
    requires s.txs == map[0 := x] && Free(s.productionLocks, 0) && Free(s.batchLocks, 0)
    requires Execute(View(s.db, x), x, today, statement) == Some(e)
    ensures var pl, bl := Locked(s.productionLocks, 0, e.production), Locked(s.batchLocks, 0, e.batch);
            && Next(s, Run(0, today, statement)) == Some(State(s.db, pl, bl, map[0 := e.tx]))
            && Free(pl, 0) && Free(bl, 0)
  {
    FreeGrants(s.productionLocks, 0, e.production);
    FreeGrants(s.batchLocks, 0, e.batch);
    assert s.txs[0 := e.tx] == map[0 := e.tx];
  }

  /** Aborting everything leaves the committed tables alone. */
  lemma {:induction false} AbortAll(s: State) returns (steps: seq<Step>)
    requires Inv(s)
    ensures var t := Runs(s, steps); Inv(t) && t.db == s.db && t.txs == map[]
    decreases |s.txs|
  {
    if forall tx :: tx !in s.txs {
      assert s.txs == map[];
      steps := [];
    } else {
      var tx :| tx in s.txs;
      var next := Next(s, Abort(tx)).value;
      StepKeepsInv(s, Abort(tx));
      assert next.txs.Keys == s.txs.Keys - {tx};
      var rest := AbortAll(next);
      steps := [Abort(tx)] + rest;
      assert steps[1..] == rest;
    }
  }

  /** The transaction once it has activated the items of `done`. */
  function Activating(db: Tables, done: set<Uuid>): Tx {
    FRESH_TX.(items := map i | i in done && i in db.items :: db.items[i].(status := ActivatedItem), pending := done)
  }

  predicate Activatable(db: Tables, today: int, b: Uuid) {
    && b in db.batches && db.batches[b].contract == 1 && db.batches[b].status == Delivered
    && ProductionActive(db, today, db.batches[b].production)
    && forall i :: i in ItemsOf(db, b) ==> db.items[i].status == CreatedItem
  }

  lemma OneMoreItem(db: Tables, today: int, b: Uuid, done: set<Uuid>, i: Uuid)
    requires Activatable(db, today, b) && done <= ItemsOf(db, b) && i in ItemsOf(db, b) && i !in done
    ensures PutItemRow(View(db, Activating(db, done)), Activating(db, done), today, i,
        db.items[i].(status := ActivatedItem))
            == Some(Effect(Activating(db, done + {i}), Some((db.batches[b].production, false)), Some((b, true))))
  {
    var x := Activating(db, done);
    var v := View(db, x);
    assert v.items[i] == db.items[i] && v.batches == db.batches && v.productions == db.productions;
    assert x.items[i := db.items[i].(status := ActivatedItem)] == Activating(db, done + {i}).items;
  }

  /** `s` is the committed tables beside the one transaction that has activated `done`. */
  ghost predicate Underway(s: State, db: Tables, done: set<Uuid>) {
    s.db == db && s.txs == map[0 := Activating(db, done)] && Free(s.productionLocks, 0) && Free(s.batchLocks, 0)
  }

  lemma OneItemStep(s: State, db: Tables, today: int, b: Uuid, done: set<Uuid>, i: Uuid)
        returns (step: Step, next: State)
    requires Activatable(db, today, b) && done <= ItemsOf(db, b) && i in ItemsOf(db, b) && i !in done
    requires Underway(s, db, done)
    ensures Next(s, step) == Some(next) && Underway(next, db, done + {i})
  {
    var row := db.items[i].(status := ActivatedItem);
    var e := Effect(Activating(db, done + {i}), Some((db.batches[b].production, false)), Some((b, true)));
    OneMoreItem(db, today, b, done, i);
    RunsAlone(s, Activating(db, done), today, PutItem(i, row), e);
    step := Run(0, today, PutItem(i, row));
    next := Next(s, step).value;
  }

  lemma RunsFirst(s: State, step: Step, next: State, rest: seq<Step>)
    requires Next(s, step) == Some(next)
    ensures Runs(s, [step] + rest) == Runs(next, rest)
  {
    assert ([step] + rest)[1..] == rest;
  }

  lemma {:induction false} ActivateItems(s: State, db: Tables, today: int, b: Uuid, done: set<Uuid>, todo: set<Uuid>)
    returns (steps: seq<Step>)
    requires Activatable(db, today, b) && done !! todo && done + todo == ItemsOf(db, b) && Underway(s, db, done)
    ensures Underway(Runs(s, steps), db, ItemsOf(db, b))
    decreases |todo|
  {
    if forall i :: i !in todo {
      assert done == ItemsOf(db, b);
      steps := [];
    } else {
      var i :| i in todo;
      var step, next := OneItemStep(s, db, today, b, done, i);
      var rest := ActivateItems(next, db, today, b, done + {i}, todo - {i});
      RunsFirst(s, step, next, rest);
      steps := [step] + rest;
    }
  }

  /** The one transaction writes the batch row and commits. */
  lemma ActivateBatch(s: State, today: int, b: Uuid) returns (steps: seq<Step>)
    requires Activatable(s.db, today, b) && Good(s.db, {}, {}) && b !in s.db.legacy
    requires Underway(s, s.db, ItemsOf(s.db, b))
    ensures var t := Runs(s, steps); b in t.db.batches && t.db.batches[b].status == Activated
  {
    var row := s.db.batches[b].(status := Activated);
    var e := WholeBatch(s.db, today, b);
    var next := WriteAlone(s, today, PutBatch(b, row), e);
    ReadyToCommit(s.db, b, e.tx);
    var last := CommitAlone(next, e.tx);
    RunsFirst(s, Run(0, today, PutBatch(b, row)), next, [Commit(0)]);
    RunsFirst(next, Commit(0), last, []);
    assert [Commit(0)] + [] == [Commit(0)];
    steps := [Run(0, today, PutBatch(b, row))] + [Commit(0)];
  }

  lemma WriteAlone(s: State, today: int, statement: Statement, e: Effect) returns (next: State)
    requires 0 in s.txs && s.txs == map[0 := s.txs[0]] && Free(s.productionLocks, 0) && Free(s.batchLocks, 0)
    requires Execute(View(s.db, s.txs[0]), s.txs[0], today, statement) == Some(e)
    ensures Next(s, Run(0, today, statement)) == Some(next) && next.db == s.db && next.txs == map[0 := e.tx]
  {
    RunsAlone(s, s.txs[0], today, statement, e);
    next := Next(s, Run(0, today, statement)).value;
  }

  lemma CommitAlone(s: State, x: Tx) returns (next: State)
    requires s.txs == map[0 := x] && x.freezing == {} && FinalStatesHold(View(s.db, x), x.pending)
    ensures Next(s, Commit(0)) == Some(next) && next.db == View(s.db, x)
  {
    next := Next(s, Commit(0)).value;
  }

  lemma WholeBatch(db: Tables, today: int, b: Uuid) returns (e: Effect)
    requires Activatable(db, today, b) && Good(db, {}, {}) && b !in db.legacy
    ensures var x := Activating(db, ItemsOf(db, b));
            var row := db.batches[b].(status := Activated);
            && Execute(View(db, x), x, today, PutBatch(b, row)) == Some(e)
            && e.tx == x.(batches := map[b := row])
  {
    var x := Activating(db, ItemsOf(db, b));
    var v := View(db, x);
    var row := db.batches[b].(status := Activated);
    assert v.batches == db.batches && v.productions == db.productions && v.manifests == db.manifests;
    assert BatchOk(db, b, {}, {});
    assert ItemsOf(v, b) == ItemsOf(db, b);
    ActivationAcceptedIff(v, today, b);
    e := Execute(v, x, today, PutBatch(b, row)).value;
    assert x.batches[b := row] == map[b := row];
  }

  lemma ReadyToCommit(db: Tables, b: Uuid, x: Tx)
    requires b in db.batches
    requires x == Activating(db, ItemsOf(db, b)).(batches := map[b := db.batches[b].(status := Activated)])
    ensures FinalStatesHold(View(db, x), x.pending) && View(db, x).batches[b].status == Activated
  {
    var v := View(db, x);
    forall i | i in x.pending && i in v.items
      ensures v.items[i].batch in v.batches && v.batches[v.items[i].batch].status == Activated
    {
      assert v.items[i].batch == b;
    }
  }

  /** Exactly the delivered batches without a revoked item, made for a production batch
      still in production, can be activated: some run from here ends with the batch
      activated. */
  lemma ActivatingRunExistsIff(s: State, b: Uuid)
    requires Inv(s) && b in s.db.batches && b !in s.db.legacy && s.db.batches[b].status == Delivered
    ensures (exists steps :: ActivatedBy(s, steps, b))
            <==> && !SomeRevoked(s.db, b)
                 && s.db.productions[s.db.batches[b].production].status == InProduction
  {
    if steps :| ActivatedBy(s, steps, b) {
      RunsKeepInv(s, steps);
      assert BatchEvolves(s.db, Runs(s, steps).db, b);
    }
    if !SomeRevoked(s.db, b) && s.db.productions[s.db.batches[b].production].status == InProduction {
      var steps := ActivatingRun(s, b);
    }
  }

  ghost predicate ActivatedBy(s: State, steps: seq<Step>, b: Uuid) {
    b in Runs(s, steps).db.batches && Runs(s, steps).db.batches[b].status == Activated
  }

  lemma ActivatingRun(s: State, b: Uuid) returns (steps: seq<Step>)
    requires Inv(s) && b in s.db.batches && b !in s.db.legacy && s.db.batches[b].status == Delivered
    requires !SomeRevoked(s.db, b) && s.db.productions[s.db.batches[b].production].status == InProduction
    ensures ActivatedBy(s, steps, b)
  {
    var today := s.db.productions[s.db.batches[b].production].expiryDate;
    assert BatchOk(s.db, b, {}, {});
    assert Activatable(s.db, today, b);
    var aborts := AbortAll(s);
    var quiet := Runs(s, aborts);
    var begun := Next(quiet, Begin(0)).value;
    assert Activating(s.db, {}) == FRESH_TX;
    var items := ActivateItems(begun, s.db, today, b, {}, ItemsOf(s.db, b));
    var filled := Runs(begun, items);
    var last := ActivateBatch(filled, today, b);
    RunsAppend(begun, items, last);
    assert ([Begin(0)] + (items + last))[1..] == items + last;
    RunsAppend(s, aborts, [Begin(0)] + (items + last));
    steps := aborts + ([Begin(0)] + (items + last));
  }

  // ---------------------------------------------------------------------------
  // Why the production batch is locked

  const SHIPPED_BATCH := CodeBatch(1, 7, "B", Generated, BatchLevel, SingleCodes, 1, Some(1), 0, Activated,
                                   Some(5), Some(1), Some(2), Some(3), Some("shop"))
  const FROZEN_ITEM := CodeItem(1, "code", SingleItem, None, FrozenItem)

  /** One activated batch of one frozen item, its product in production until day 10. */
  const ONE_FROZEN := Tables({}, map[7 := ProductionBatch(InProduction, 10, None)], map[1 := SHIPPED_BATCH],
                             map[3 := FROZEN_ITEM],
                             map[5 := Manifest(true, Some(1), Some(1), Some(1), Some(1), true, true)], map[])

  const THAWED_ITEM := FROZEN_ITEM.(status := ActivatedItem)
  const RECALLED := ProductionBatch(Recalled, 10, Some(Recall("defect", 4, "owner")))

  function Thawing(): Tx { FRESH_TX.(items := map[3 := THAWED_ITEM]) }

  function Recalling(): Tx { FRESH_TX.(productions := map[7 := RECALLED]) }

  lemma ThawRuns()
    ensures PutItemRow(ONE_FROZEN, FRESH_TX, 4, 3, THAWED_ITEM)
        == Some(Effect(Thawing(), Some((7, false)), Some((1, true))))
  {
  }

  lemma RecallRuns()
    ensures PutProductionRow(ONE_FROZEN, FRESH_TX, 7, RECALLED)
            == Some(Effect(Recalling().(freezing := {1}), Some((7, true)), None))
    ensures FreezeRows(View(ONE_FROZEN, Recalling()), Recalling().(freezing := {1}), 1)
            == Some(Effect(Recalling(), None, Some((1, true))))
  {
    assert RECALLED.recall.value.reason[0] == 'd';
    assert BatchesOf(ONE_FROZEN, 7) == {1};
    var v := View(ONE_FROZEN, Recalling());
    assert v.items == map[3 := FROZEN_ITEM];
    assert Frozen(v, 1) == map[];
    assert CanFreeze(v, RUNTIME, 1);
    assert Recalling().items + Frozen(v, 1) == map[];
    assert {1} - {1} == {};
  }

  /** The row guards alone would not make the recall safe: one transaction thaws an item
      while another recalls its production batch, finds nothing to freeze, and writes
      different rows; together they leave an active item under a recalled batch. With
      the locks the item writer fails while the recall is under way. */
  lemma RecallNeedsTheLock()
    ensures var x, y := Thawing(), Recalling();
            && PutItemRow(ONE_FROZEN, FRESH_TX, 4, 3, THAWED_ITEM).Some?
            && PutItemRow(ONE_FROZEN, FRESH_TX, 4, 3, THAWED_ITEM).value.tx == x
            && PutProductionRow(ONE_FROZEN, FRESH_TX, 7, RECALLED).Some?
            && FreezeRows(View(ONE_FROZEN, y), y.(freezing := {1}), 1).Some?
            && FreezeRows(View(ONE_FROZEN, y), y.(freezing := {1}), 1).value.tx == y
            && RowsApart(x, y) && 1 in Merged(ONE_FROZEN, x, y).batches
            && RecalledIn(Merged(ONE_FROZEN, x, y), 7) && ActiveItem(Merged(ONE_FROZEN, x, y).items[3])
            && Next(State(ONE_FROZEN, map[7 := Exclusive(2)], map[], map[1 := FRESH_TX, 2 := y]),
                    Run(1, 4, PutItem(3, THAWED_ITEM))) == None
  {
    ThawRuns();
    RecallRuns();
    FreshView(ONE_FROZEN);
  }
}
