/** What every reachable state of the code-delivery protocol keeps, whatever the
    interleaving of item writers, batch writers, exporters and recallers. */
module CodeRuns {
  import opened Sql
  import opened CodeDelivery
  import opened CodeLaws
  import opened CodeProtocol

  type Locks = map<Uuid, Lock>

  predicate RecalledIn(v: Tables, production: Uuid) {
    production in v.productions && v.productions[production].status == Recalled
  }

  /** Recalled or past expiry: the production batch never changes again. */
  predicate Closed(v: Tables, production: Uuid) {
    production in v.productions && v.productions[production].status in {Recalled, PastExpiry}
  }

  predicate SomeRevoked(v: Tables, b: Uuid) {
    exists i :: i in v.items && v.items[i].batch == b && v.items[i].status == RevokedItem
  }

  /** A delivered batch with a revoked item. */
  predicate Stuck(v: Tables, b: Uuid) {
    b in v.batches && v.batches[b].status == Delivered && SomeRevoked(v, b)
  }

  /** What a code batch keeps for good: its identity, its contract, being finished,
      being shipped, and its export manifest. */
  predicate Later(before: CodeBatch, after: CodeBatch) {
    && SameIdentity(before, after)
    && (before.contract == 1 ==> after.contract == 1)
    && (Finished(before.status) ==> Finished(after.status))
    && (Shipped(before.status) ==> Shipped(after.status))
    && (before.status == Activated ==> after.status == Activated)
    && (before.manifest.Some? ==> after.manifest == before.manifest)
  }

  // ---------------------------------------------------------------------------
  // The locks behind each uncommitted row, and what it keeps of the committed one

  function ProductionOf(v: Tables, batch: Uuid): Option<Uuid> {
    if batch in v.batches then Some(v.batches[batch].production) else None
  }

  predicate HoldsProduction(pl: Locks, v: Tables, batch: Uuid, tx: Uuid) {
    ProductionOf(v, batch).Some? && Holds(pl, ProductionOf(v, batch).value, tx)
  }

  predicate BatchRow(db: Tables, pl: Locks, bl: Locks, tx: Uuid, x: Tx, b: Uuid)
    requires b in x.batches
  {
    && HoldsAlone(bl, b, tx)
    && (b in db.batches ==>
          && Later(db.batches[b], x.batches[b])
          && (x.batches[b].status != db.batches[b].status ==>
                Holds(pl, x.batches[b].production, tx) && !Closed(db, x.batches[b].production))
          && (Stuck(db, b) ==> x.batches[b].status == Delivered))
  }

  predicate Thawed(db: Tables, x: Tx, i: Uuid)
    requires i in x.items
  {
    i in db.items && db.items[i].status in {FrozenItem, RevokedItem} && x.items[i].status !in {FrozenItem, RevokedItem}
  }

  predicate ItemRow(db: Tables, pl: Locks, bl: Locks, tx: Uuid, x: Tx, i: Uuid)
    requires i in x.items
  {
    && HoldsAlone(bl, x.items[i].batch, tx)
    && (ActiveItem(x.items[i]) ==> HoldsProduction(pl, View(db, x), x.items[i].batch, tx))
    && (i in db.items ==> x.items[i].batch == db.items[i].batch)
    && (i in db.items && db.items[i].status == RevokedItem ==> x.items[i].status == RevokedItem)
    && (Thawed(db, x, i) ==>
          && HoldsProduction(pl, View(db, x), x.items[i].batch, tx)
          && !Closed(db, ProductionOf(View(db, x), x.items[i].batch).value))
  }

  ghost predicate Rows(db: Tables, pl: Locks, bl: Locks, tx: Uuid, x: Tx) {
    && (forall p ::
          p in x.productions ==> HoldsAlone(pl, p, tx) && (Closed(db, p) ==> x.productions[p] == db.productions[p]))
    && (forall b :: b in x.batches ==> BatchRow(db, pl, bl, tx, x, b))
    && (forall i :: i in x.items ==> ItemRow(db, pl, bl, tx, x, i))
    && (forall m ::
          m in x.manifests && m in db.manifests && db.manifests[m].version.Some? ==> x.manifests[m] == db.manifests[m])
  }

  ghost predicate TxInv(db: Tables, pl: Locks, bl: Locks, tx: Uuid, x: Tx) {
    && Rows(db, pl, bl, tx, x)
    && Good(View(db, x), x.pending, x.freezing)
  }

  /** Only running transactions hold locks. */
  ghost predicate Owned(locks: Locks, txs: set<Uuid>) {
    forall row :: row in locks ==>
      if locks[row].Exclusive? then locks[row].holder in txs else locks[row].holders <= txs
  }

  ghost predicate Inv(s: State) {
    && Good(s.db, {}, {}) && Owned(s.productionLocks, s.txs.Keys) && Owned(s.batchLocks, s.txs.Keys)
    && (forall a, b :: a in s.txs && b in s.txs && a != b ==> RowsApart(s.txs[a], s.txs[b]))
    && (forall a :: a in s.txs ==> TxInv(s.db, s.productionLocks, s.batchLocks, a, s.txs[a]))
  }

  // ---------------------------------------------------------------------------
  // Statements keep the view good

  lemma PutView<V>(base: map<Uuid, V>, writes: map<Uuid, V>, id: Uuid, row: V)
    ensures base + writes[id := row] == (base + writes)[id := row]
  {
  }

  lemma PutBatchKeepsGood(db: Tables, x: Tx, today: int, id: Uuid, given: CodeBatch, e: Effect)
    requires PutBatchRow(View(db, x), x, today, id, given) == Some(e) && Good(View(db, x), x.pending, x.freezing)
    ensures Good(View(db, e.tx), e.tx.pending, e.tx.freezing)
  {
    var row := e.tx.batches[id];
    PutView(db.batches, x.batches, id, row);
    BatchWriteKeepsGood(View(db, x), today, id, given, row, x.pending, x.freezing);
  }

  lemma PutItemKeepsGood(db: Tables, x: Tx, today: int, id: Uuid, row: CodeItem, e: Effect)
    requires PutItemRow(View(db, x), x, today, id, row) == Some(e) && Good(View(db, x), x.pending, x.freezing)
    ensures Good(View(db, e.tx), e.tx.pending, e.tx.freezing)
  {
    PutView(db.items, x.items, id, row);
    ItemWriteKeepsGood(View(db, x), today, id, row, x.pending, e.tx.pending, x.freezing);
  }

  lemma PutManifestKeepsGood(db: Tables, x: Tx, id: Uuid, row: Manifest, e: Effect)
    requires PutManifestRow(View(db, x), x, id, row) == Some(e) && Good(View(db, x), x.pending, x.freezing)
    ensures Good(View(db, e.tx), e.tx.pending, e.tx.freezing)
  {
    PutView(db.manifests, x.manifests, id, row);
    ManifestsStayPut(View(db, x), id, row);
    EvidenceWriteKeepsGood(View(db, x), View(db, e.tx), x.pending, x.freezing);
  }

  lemma ManifestsStayPut(v: Tables, id: Uuid, row: Manifest)
    requires ManifestGuard(v, RUNTIME, Lookup(v.manifests, id), row)
    ensures ManifestsKept(v, v.(manifests := v.manifests[id := row]))
  {
  }

  lemma PutReceiptKeepsGood(db: Tables, x: Tx, id: Uuid, row: Receipt, y: Tx)
    requires y == x.(receipts := x.receipts[id := row]) && Good(View(db, x), x.pending, x.freezing)
    ensures Good(View(db, y), y.pending, y.freezing)
  {
    PutView(db.receipts, x.receipts, id, row);
    var w := View(db, x).(receipts := View(db, x).receipts[id := row]);
    assert ManifestsKept(View(db, x), w);
    EvidenceWriteKeepsGood(View(db, x), w, x.pending, x.freezing);
  }

  lemma PutProductionKeepsGood(db: Tables, x: Tx, id: Uuid, row: ProductionBatch, e: Effect)
    requires PutProductionRow(View(db, x), x, id, row) == Some(e) && Good(View(db, x), x.pending, {})
        && x.freezing == {}
    ensures Good(View(db, e.tx), e.tx.pending, e.tx.freezing)
  {
    var v := View(db, x);
    PutView(db.productions, x.productions, id, row);
    if Recalls(v, id, row) {
      RecallKeepsGood(v, id, row, x.pending, {});
      assert {} + BatchesOf(v, id) == e.tx.freezing;
    } else {
      ProductionWriteKeepsGood(v, id, row, x.pending, {});
    }
  }

  lemma FrozenView(db: Tables, x: Tx, y: Tx, frozen: map<Uuid, CodeItem>)
    requires y == x.(items := x.items + frozen, freezing := y.freezing)
    ensures View(db, y) == View(db, x).(items := View(db, x).items + frozen)
  {
    assert db.items + (x.items + frozen) == (db.items + x.items) + frozen;
  }

  lemma FreezeRowsKeepGood(db: Tables, x: Tx, id: Uuid, e: Effect)
    requires FreezeRows(View(db, x), x, id) == Some(e) && Good(View(db, x), x.pending, x.freezing)
    ensures Good(View(db, e.tx), e.tx.pending, e.tx.freezing)
  {
    FrozenView(db, x, e.tx, Frozen(View(db, x), id));
    FreezeKeepsGood(View(db, x), id, x.pending, x.freezing);
  }

  lemma StatementKeepsGood(db: Tables, x: Tx, today: int, s: Statement, e: Effect)
    requires Execute(View(db, x), x, today, s) == Some(e) && Good(View(db, x), x.pending, x.freezing)
    ensures Good(View(db, e.tx), e.tx.pending, e.tx.freezing)
  {
    match s
    case PutBatch(id, given) => PutBatchKeepsGood(db, x, today, id, given, e);
    case PutItem(id, row) => PutItemKeepsGood(db, x, today, id, row, e);
    case PutManifest(id, row) => PutManifestKeepsGood(db, x, id, row, e);
    case PutReceipt(id, row) => PutReceiptKeepsGood(db, x, id, row, e.tx);
    case PutProduction(id, row) => PutProductionKeepsGood(db, x, id, row, e);
    case FreezeNext(id) => FreezeRowsKeepGood(db, x, id, e);
  }

  // ---------------------------------------------------------------------------
  // Locks only grow while a transaction runs

  ghost predicate MoreLocks(a: Locks, b: Locks) {
    && (forall row, tx :: Holds(a, row, tx) ==> Holds(b, row, tx))
    && (forall row, tx :: HoldsAlone(a, row, tx) ==> HoldsAlone(b, row, tx))
  }

  predicate Served(locks: Locks, tx: Uuid, request: Option<(Uuid, bool)>) {
    request.Some? ==>
      Holds(locks, request.value.0, tx) && (request.value.1 ==> HoldsAlone(locks, request.value.0, tx))
  }

  lemma GrantServes(locks: Locks, tx: Uuid, request: Option<(Uuid, bool)>)
    requires request.Some? ==> Grantable(locks, request.value.0, tx, request.value.1)
    ensures MoreLocks(locks, Locked(locks, tx, request)) && Served(Locked(locks, tx, request), tx, request)
  {
  }

  /** Releasing the locks of one transaction leaves those of the others. */
  lemma ReleaseKeepsOthers(locks: Locks, tx: Uuid, other: Uuid)
    requires other != tx
    ensures forall row :: Holds(locks, row, other) ==> Holds(Release(locks, tx), row, other)
    ensures forall row :: HoldsAlone(locks, row, other) ==> HoldsAlone(Release(locks, tx), row, other)
  {
  }

  lemma ReleaseKeepsOwned(locks: Locks, txs: set<Uuid>, tx: Uuid)
    requires Owned(locks, txs)
    ensures Owned(Release(locks, tx), txs - {tx})
  {
  }

  lemma GrantKeepsOwned(locks: Locks, txs: set<Uuid>, tx: Uuid, request: Option<(Uuid, bool)>)
    requires Owned(locks, txs) && tx in txs
    ensures Owned(Locked(locks, tx, request), txs)
  {
  }

  lemma RowsUnderMoreLocks(db: Tables, pl: Locks, bl: Locks, pl': Locks, bl': Locks, tx: Uuid, x: Tx)
    requires Rows(db, pl, bl, tx, x)
    requires forall row :: Holds(pl, row, tx) ==> Holds(pl', row, tx)
    requires forall row :: HoldsAlone(pl, row, tx) ==> HoldsAlone(pl', row, tx)
    requires forall row :: HoldsAlone(bl, row, tx) ==> HoldsAlone(bl', row, tx)
    ensures Rows(db, pl', bl', tx, x)
  {
    forall b | b in x.batches ensures BatchRow(db, pl', bl', tx, x, b) {
      assert BatchRow(db, pl, bl, tx, x, b);
    }
    forall i | i in x.items ensures ItemRow(db, pl', bl', tx, x, i) {
      assert ItemRow(db, pl, bl, tx, x, i);
    }
  }

  // ---------------------------------------------------------------------------
  // Statements keep the rows locked and faithful to the committed ones

  /** Rows a statement leaves alone stay as they were, as long as the production
      behind each batch does. */
  lemma OtherItemRow(db: Tables, pl: Locks, bl: Locks, tx: Uuid, x: Tx, y: Tx, i: Uuid)
    requires i in x.items && ItemRow(db, pl, bl, tx, x, i) && i in y.items && y.items[i] == x.items[i]
    requires ProductionOf(View(db, y), x.items[i].batch) == ProductionOf(View(db, x), x.items[i].batch)
             || ProductionOf(View(db, x), x.items[i].batch).None?
    ensures ItemRow(db, pl, bl, tx, y, i)
  {
  }

  lemma OtherBatchRow(db: Tables, pl: Locks, bl: Locks, tx: Uuid, x: Tx, y: Tx, b: Uuid)
    requires b in x.batches && BatchRow(db, pl, bl, tx, x, b) && b in y.batches && y.batches[b] == x.batches[b]
    ensures BatchRow(db, pl, bl, tx, y, b)
  {
  }

  lemma PutBatchKeepsRows(db: Tables, pl: Locks, bl: Locks, tx: Uuid, x: Tx, today: int, id: Uuid, given: CodeBatch,
        e: Effect)
    requires Rows(db, pl, bl, tx, x) && PutBatchRow(View(db, x), x, today, id, given) == Some(e)
    requires Served(pl, tx, e.production) && Served(bl, tx, e.batch)
    ensures Rows(db, pl, bl, tx, e.tx)
  {
    PutBatchKeepsRow(db, pl, bl, tx, x, today, id, given, e);
    OneBatchKeepsRows(db, pl, bl, tx, x, id, e.tx.batches[id]);
  }

  lemma OneBatchKeepsProductions(db: Tables, x: Tx, id: Uuid, row: CodeBatch, b: Uuid)
    requires id in View(db, x).batches ==> View(db, x).batches[id].production == row.production
    ensures var y := x.(batches := x.batches[id := row]);
            || ProductionOf(View(db, y), b) == ProductionOf(View(db, x), b)
            || ProductionOf(View(db, x), b).None?
  {
  }

  lemma OneBatchKeepsItemRows(db: Tables, pl: Locks, bl: Locks, tx: Uuid, x: Tx, id: Uuid, row: CodeBatch, y: Tx)
    requires forall i :: i in x.items ==> ItemRow(db, pl, bl, tx, x, i)
    requires id in View(db, x).batches ==> View(db, x).batches[id].production == row.production
    requires y == x.(batches := x.batches[id := row])
    ensures forall i :: i in y.items ==> ItemRow(db, pl, bl, tx, y, i)
  {
    forall i | i in y.items ensures ItemRow(db, pl, bl, tx, y, i) {
      assert ItemRow(db, pl, bl, tx, x, i);
      OneBatchKeepsProductions(db, x, id, row, x.items[i].batch);
      OtherItemRow(db, pl, bl, tx, x, y, i);
    }
  }

  lemma OneBatchKeepsRows(db: Tables, pl: Locks, bl: Locks, tx: Uuid, x: Tx, id: Uuid, row: CodeBatch)
    requires Rows(db, pl, bl, tx, x)
    requires id in View(db, x).batches ==> View(db, x).batches[id].production == row.production
    requires BatchRow(db, pl, bl, tx, x.(batches := x.batches[id := row]), id)
    ensures Rows(db, pl, bl, tx, x.(batches := x.batches[id := row]))
  {
    var y := x.(batches := x.batches[id := row]);
    OneBatchKeepsItemRows(db, pl, bl, tx, x, id, row, y);
    forall b | b in y.batches ensures BatchRow(db, pl, bl, tx, y, b) {
      if b != id {
        OtherBatchRow(db, pl, bl, tx, x, y, b);
      }
    }
  }

  lemma PutBatchKeepsRow(db: Tables, pl: Locks, bl: Locks, tx: Uuid, x: Tx, today: int, id: Uuid, given: CodeBatch,
        e: Effect)
    requires Rows(db, pl, bl, tx, x) && PutBatchRow(View(db, x), x, today, id, given) == Some(e)
    requires Served(pl, tx, e.production) && Served(bl, tx, e.batch)
    ensures e.tx == x.(batches := x.batches[id := e.tx.batches[id]])
    ensures BatchRow(db, pl, bl, tx, e.tx, id)
    ensures id in View(db, x).batches ==> View(db, x).batches[id].production == e.tx.batches[id].production
  {
    var v := View(db, x);
    var row := e.tx.batches[id];
    if id in db.batches {
      var before := v.batches[id];
      assert id in x.batches ==> BatchRow(db, pl, bl, tx, x, id);
      assert Later(db.batches[id], before);
      BatchGuardMovesOn(v, today, id, given, row);
      if row.status != before.status {
        assert ProductionActive(v, today, row.production);
        assert !Closed(db, row.production);
      }
      if Stuck(db, id) {
        RevokedStaysInView(db, pl, bl, tx, x, id);
      }
    }
  }

  lemma RevokedStaysInView(db: Tables, pl: Locks, bl: Locks, tx: Uuid, x: Tx, b: Uuid)
    requires Rows(db, pl, bl, tx, x) && SomeRevoked(db, b)
    ensures SomeRevoked(View(db, x), b)
  {
    var i :| i in db.items && db.items[i].batch == b && db.items[i].status == RevokedItem;
    assert i in x.items ==> ItemRow(db, pl, bl, tx, x, i);
    assert View(db, x).items[i].status == RevokedItem;
  }

  lemma BatchGuardMovesOn(v: Tables, today: int, id: Uuid, given: CodeBatch, row: CodeBatch)
    requires id in v.batches && BatchGuard(v, RUNTIME, today, id, Some(v.batches[id]), given) == Some(row)
    ensures Later(v.batches[id], row)
    ensures row.status != v.batches[id].status ==> ProductionActive(v, today, row.production)
    ensures Stuck(v, id) ==> row.status == Delivered
  {
    if Stuck(v, id) {
      var i :| i in v.items && v.items[i].batch == id && v.items[i].status == RevokedItem;
      assert i in ItemsOf(v, id);
    }
  }

  /** Rows stay in order when one item row is written, in order itself. */
  lemma OneItemKeepsRows(db: Tables, pl: Locks, bl: Locks, tx: Uuid, x: Tx, id: Uuid, row: CodeItem, y: Tx)
    requires Rows(db, pl, bl, tx, x) && y == x.(items := x.items[id := row], pending := y.pending)
    requires ItemRow(db, pl, bl, tx, y, id)
    ensures Rows(db, pl, bl, tx, y)
  {
    assert View(db, y).batches == View(db, x).batches;
    forall i | i in y.items ensures ItemRow(db, pl, bl, tx, y, i) {
      if i != id {
        OtherItemRow(db, pl, bl, tx, x, y, i);
      }
    }
    forall b | b in y.batches ensures BatchRow(db, pl, bl, tx, y, b) {
      OtherBatchRow(db, pl, bl, tx, x, y, b);
    }
  }

  lemma PutItemKeepsRows(db: Tables, pl: Locks, bl: Locks, tx: Uuid, x: Tx, today: int, id: Uuid, row: CodeItem,
        e: Effect)
    requires Rows(db, pl, bl, tx, x) && PutItemRow(View(db, x), x, today, id, row) == Some(e)
    requires Served(pl, tx, e.production) && Served(bl, tx, e.batch)
    ensures Rows(db, pl, bl, tx, e.tx)
  {
    PutItemKeepsRow(db, pl, bl, tx, x, today, id, row, e);
    OneItemKeepsRows(db, pl, bl, tx, x, id, row, e.tx);
  }

  lemma PutItemKeepsRow(db: Tables, pl: Locks, bl: Locks, tx: Uuid, x: Tx, today: int, id: Uuid, row: CodeItem,
        e: Effect)
    requires Rows(db, pl, bl, tx, x) && PutItemRow(View(db, x), x, today, id, row) == Some(e)
    requires Served(pl, tx, e.production) && Served(bl, tx, e.batch)
    ensures ItemRow(db, pl, bl, tx, e.tx, id)
  {
    var v := View(db, x);
    var y := e.tx;
    assert View(db, y).batches == v.batches;
    assert id in x.items ==> ItemRow(db, pl, bl, tx, x, id);
    if Thawed(db, y, id) {
      var before := v.items[id];
      if before.status in {FrozenItem, RevokedItem} {
        assert ActiveItem(row);
        assert ProductionActive(v, today, v.batches[row.batch].production);
        assert !Closed(db, v.batches[row.batch].production);
      } else {
        assert Thawed(db, x, id);
      }
    }
  }

  lemma FreezeKeepsItemRow(db: Tables, pl: Locks, bl: Locks, tx: Uuid, x: Tx, id: Uuid, y: Tx, i: Uuid)
    requires HoldsAlone(bl, id, tx) && i in y.items && y.items[i].batch == id && y.items[i].status == FrozenItem
    requires i in View(db, x).items && View(db, x).items[i].batch == id && ActiveItem(View(db, x).items[i])
    requires i in x.items ==> ItemRow(db, pl, bl, tx, x, i)
    ensures ItemRow(db, pl, bl, tx, y, i)
  {
  }

  lemma FreezeKeepsRows(db: Tables, pl: Locks, bl: Locks, tx: Uuid, x: Tx, id: Uuid, frozen: map<Uuid, CodeItem>, y: Tx)
    requires Rows(db, pl, bl, tx, x) && HoldsAlone(bl, id, tx)
    requires y == x.(items := x.items + frozen, freezing := y.freezing)
    requires forall i :: i in frozen ==>
               && frozen[i].batch == id && frozen[i].status == FrozenItem
               && i in View(db, x).items && View(db, x).items[i].batch == id && ActiveItem(View(db, x).items[i])
    ensures Rows(db, pl, bl, tx, y)
  {
    assert View(db, y).batches == View(db, x).batches;
    forall i | i in y.items ensures ItemRow(db, pl, bl, tx, y, i) {
      if i in frozen {
        FreezeKeepsItemRow(db, pl, bl, tx, x, id, y, i);
      } else {
        OtherItemRow(db, pl, bl, tx, x, y, i);
      }
    }
    forall b | b in y.batches ensures BatchRow(db, pl, bl, tx, y, b) {
      OtherBatchRow(db, pl, bl, tx, x, y, b);
    }
  }

  /** Statements that touch neither batches nor items. */
  lemma OtherTablesKeepRows(db: Tables, pl: Locks, bl: Locks, tx: Uuid, x: Tx, y: Tx)
    requires Rows(db, pl, bl, tx, x) && y.batches == x.batches && y.items == x.items
    requires forall p ::
        p in y.productions ==> HoldsAlone(pl, p, tx) && (Closed(db, p) ==> y.productions[p] == db.productions[p])
    requires forall m ::
        m in y.manifests && m in db.manifests && db.manifests[m].version.Some? ==> y.manifests[m] == db.manifests[m]
    ensures Rows(db, pl, bl, tx, y)
  {
    assert View(db, y).batches == View(db, x).batches;
    forall i | i in y.items ensures ItemRow(db, pl, bl, tx, y, i) {
      OtherItemRow(db, pl, bl, tx, x, y, i);
    }
    forall b | b in y.batches ensures BatchRow(db, pl, bl, tx, y, b) {
      assert BatchRow(db, pl, bl, tx, x, b);
    }
  }

  lemma StatementKeepsRows(db: Tables, pl: Locks, bl: Locks, tx: Uuid, x: Tx, today: int, s: Statement, e: Effect)
    requires Rows(db, pl, bl, tx, x) && Execute(View(db, x), x, today, s) == Some(e)
    requires Served(pl, tx, e.production) && Served(bl, tx, e.batch)
    ensures Rows(db, pl, bl, tx, e.tx)
  {
    match s
    case PutBatch(id, given) => PutBatchKeepsRows(db, pl, bl, tx, x, today, id, given, e);
    case PutItem(id, row) => PutItemKeepsRows(db, pl, bl, tx, x, today, id, row, e);
    case PutManifest(id, row) => OtherTablesKeepRows(db, pl, bl, tx, x, e.tx);
    case PutReceipt(id, row) => OtherTablesKeepRows(db, pl, bl, tx, x, e.tx);
    case PutProduction(id, row) => OtherTablesKeepRows(db, pl, bl, tx, x, e.tx);
    case FreezeNext(id) => FreezeKeepsRows(db, pl, bl, tx, x, id, Frozen(View(db, x), id), e.tx);
  }

  // ---------------------------------------------------------------------------
  // A commit leaves every other transaction in order

  /** `y` of transaction `c` is about to commit while `x` of transaction `a` runs. */
  ghost predicate Beside(db: Tables, pl: Locks, bl: Locks, a: Uuid, x: Tx, c: Uuid, y: Tx) {
    && a != c && RowsApart(x, y) && Rows(db, pl, bl, a, x) && Rows(db, pl, bl, c, y)
    && Linked(db) && Linked(View(db, x)) && Linked(View(db, y))
  }

  function Merged(db: Tables, x: Tx, y: Tx): Tables {
    View(View(db, y), x)
  }

  /** Nothing of `y` touches a batch that `a` holds. */
  lemma HeldByAnother(db: Tables, pl: Locks, bl: Locks, a: Uuid, x: Tx, c: Uuid, y: Tx, b: Uuid)
    requires Beside(db, pl, bl, a, x, c, y) && HoldsAlone(bl, b, a)
    ensures b !in y.batches
    ensures forall i :: i in y.items ==> y.items[i].batch != b && (i in db.items ==> db.items[i].batch != b)
    ensures Stuck(View(db, y), b) ==> Stuck(db, b)
  {
    assert b in y.batches ==> BatchRow(db, pl, bl, c, y, b);
    forall i | i in y.items ensures y.items[i].batch != b && (i in db.items ==> db.items[i].batch != b) {
      assert ItemRow(db, pl, bl, c, y, i);
    }
  }

  /** A batch that `a` holds looks to it as before. */
  lemma HeldSliceStays(db: Tables, pl: Locks, bl: Locks, a: Uuid, x: Tx, c: Uuid, y: Tx, b: Uuid)
    requires Beside(db, pl, bl, a, x, c, y) && HoldsAlone(bl, b, a) && b in View(db, x).batches
    ensures SameSlice(View(db, x), Merged(db, x, y), b)
  {
    HeldByAnother(db, pl, bl, a, x, c, y, b);
    UntouchedSlice(db, x, y, b);
  }

  lemma UntouchedSlice(db: Tables, x: Tx, y: Tx, b: Uuid)
    requires b in View(db, x).batches && b !in y.batches && RowsApart(x, y)
    requires forall i :: i in y.items ==> y.items[i].batch != b && (i in db.items ==> db.items[i].batch != b)
    ensures SameSlice(View(db, x), Merged(db, x, y), b)
  {
    var v := View(db, x);
    var w := Merged(db, x, y);
    forall i ensures i in v.items && v.items[i].batch == b ==> i in w.items && w.items[i] == v.items[i]
             ensures i in w.items && w.items[i].batch == b ==> i in v.items && v.items[i].batch == b {
      UntouchedItem(db, x, y, b, i);
    }
  }

  lemma UntouchedItem(db: Tables, x: Tx, y: Tx, b: Uuid, i: Uuid)
    requires RowsApart(x, y) && (i in y.items ==> y.items[i].batch != b && (i in db.items ==> db.items[i].batch != b))
    ensures var v, w := View(db, x), Merged(db, x, y);
            && (i in v.items && v.items[i].batch == b ==> i in w.items && w.items[i] == v.items[i])
            && (i in w.items && w.items[i].batch == b ==> i in v.items && v.items[i].batch == b)
  {
    assert i in x.items ==> i !in y.items;
  }

  /** A batch that `a` does not hold looks to it as committed. */
  lemma OtherSliceIsCommitted(db: Tables, pl: Locks, bl: Locks, a: Uuid, x: Tx, c: Uuid, y: Tx, b: Uuid)
    requires Beside(db, pl, bl, a, x, c, y) && !HoldsAlone(bl, b, a) && b in Merged(db, x, y).batches
    ensures SameSlice(View(db, y), Merged(db, x, y), b)
  {
    assert b in x.batches ==> BatchRow(db, pl, bl, a, x, b);
    forall i | i in x.items
        ensures x.items[i].batch != b && (i in View(db, y).items ==> View(db, y).items[i].batch != b) {
      assert ItemRow(db, pl, bl, a, x, i);
      assert i !in y.items;
    }
    OverlaidSlice(View(db, y), x, b);
  }

  lemma OverlaidSlice(u: Tables, x: Tx, b: Uuid)
    requires b in View(u, x).batches && b !in x.batches
    requires forall i :: i in x.items ==> x.items[i].batch != b && (i in u.items ==> u.items[i].batch != b)
    ensures SameSlice(u, View(u, x), b)
  {
  }

  /** Each of the two sees the same production behind a committed batch. */
  lemma SameProduction(db: Tables, pl: Locks, bl: Locks, tx: Uuid, x: Tx, b: Uuid)
    requires Rows(db, pl, bl, tx, x) && b in db.batches
    ensures View(db, x).batches[b].production == db.batches[b].production
  {
    assert b in x.batches ==> BatchRow(db, pl, bl, tx, x, b);
  }

  lemma MergedBatch(db: Tables, pl: Locks, bl: Locks, a: Uuid, x: Tx, c: Uuid, y: Tx, b: Uuid)
    requires Beside(db, pl, bl, a, x, c, y)
    ensures b in View(db, x).batches ==>
              b in Merged(db, x, y).batches
                  && Merged(db, x, y).batches[b].production == View(db, x).batches[b].production
    ensures b in View(db, y).batches ==>
              b in Merged(db, x, y).batches
                  && Merged(db, x, y).batches[b].production == View(db, y).batches[b].production
    ensures b in Merged(db, x, y).batches ==> b in View(db, x).batches || b in View(db, y).batches
  {
    if b in db.batches {
      SameProduction(db, pl, bl, a, x, b);
      SameProduction(db, pl, bl, c, y, b);
    }
  }

  lemma MergedLinked(db: Tables, pl: Locks, bl: Locks, a: Uuid, x: Tx, c: Uuid, y: Tx)
    requires Beside(db, pl, bl, a, x, c, y)
    ensures Linked(Merged(db, x, y))
  {
    var w := Merged(db, x, y);
    forall i | i in w.items ensures w.items[i].batch in w.batches {
      var b := w.items[i].batch;
      MergedBatch(db, pl, bl, a, x, c, y, b);
      assert (i in View(db, x).items && View(db, x).items[i].batch == b)
          || (i in View(db, y).items && View(db, y).items[i].batch == b);
    }
    forall b | b in w.batches ensures w.batches[b].production in w.productions {
      MergedBatch(db, pl, bl, a, x, c, y, b);
      assert b in View(db, x).batches || b in View(db, y).batches;
    }
  }

  lemma MergedContracted(db: Tables, x: Tx, y: Tx)
    requires Contracted(View(db, x)) && Contracted(View(db, y))
    ensures Contracted(Merged(db, x, y))
  {
    var w := Merged(db, x, y);
    forall b | b in w.batches && b !in w.legacy
        ensures w.batches[b].contract == 1 && BatchChecks(w.batches[b]) && MetadataFits(w.batches[b]) {
      if b in x.batches {
        assert w.batches[b] == View(db, x).batches[b];
      } else {
        assert w.batches[b] == View(db, y).batches[b];
      }
    }
  }

  lemma ManifestsStay(db: Tables, pl: Locks, bl: Locks, a: Uuid, x: Tx, c: Uuid, y: Tx)
    requires Beside(db, pl, bl, a, x, c, y)
    ensures ManifestsKept(View(db, x), Merged(db, x, y)) && ManifestsKept(View(db, y), Merged(db, x, y))
  {
  }

  /** An item either of the two has made active stands under a production batch it
      has locked. */
  lemma ActiveUnderLock(db: Tables, pl: Locks, bl: Locks, a: Uuid, x: Tx, c: Uuid, y: Tx, i: Uuid)
    requires Beside(db, pl, bl, a, x, c, y)
    requires i in Merged(db, x, y).items && ActiveItem(Merged(db, x, y).items[i])
    ensures i in x.items ==> HoldsProduction(pl, Merged(db, x, y), x.items[i].batch, a)
    ensures i !in x.items && i in y.items ==> HoldsProduction(pl, Merged(db, x, y), y.items[i].batch, c)
  {
    if i in x.items {
      assert ItemRow(db, pl, bl, a, x, i);
      MergedBatch(db, pl, bl, a, x, c, y, x.items[i].batch);
    } else if i in y.items {
      assert ItemRow(db, pl, bl, c, y, i);
      MergedBatch(db, pl, bl, a, x, c, y, y.items[i].batch);
    }
  }

  /** No active item under a recalled production batch, after the commit either. */
  lemma MergedRecallOk(db: Tables, pl: Locks, bl: Locks, a: Uuid, x: Tx, c: Uuid, y: Tx, b: Uuid)
    requires Beside(db, pl, bl, a, x, c, y) && b in Merged(db, x, y).batches
    requires Good(View(db, x), x.pending, x.freezing) && Good(View(db, y), {}, {}) && Linked(Merged(db, x, y))
    ensures RecallOk(Merged(db, x, y), b, x.freezing)
  {
    var w := Merged(db, x, y);
    var p := w.batches[b].production;
    if RecalledIn(w, p) && b !in x.freezing {
      forall i | i in w.items && w.items[i].batch == b ensures !ActiveItem(w.items[i]) {
        if ActiveItem(w.items[i]) {
          ActiveUnderLock(db, pl, bl, a, x, c, y, i);
          RecalledElsewhere(db, pl, bl, a, x, c, y, b, i);
        }
      }
    }
  }

  lemma RecalledElsewhere(db: Tables, pl: Locks, bl: Locks, a: Uuid, x: Tx, c: Uuid, y: Tx, b: Uuid, i: Uuid)
    requires Beside(db, pl, bl, a, x, c, y) && b in Merged(db, x, y).batches && i in Merged(db, x, y).items
    requires Good(View(db, x), x.pending, x.freezing) && Good(View(db, y), {}, {})
    requires Merged(db, x, y).items[i].batch == b && b !in x.freezing
    requires i in x.items ==> HoldsProduction(pl, Merged(db, x, y), x.items[i].batch, a)
    requires i !in x.items && i in y.items ==> HoldsProduction(pl, Merged(db, x, y), y.items[i].batch, c)
    requires RecalledIn(Merged(db, x, y), Merged(db, x, y).batches[b].production)
    ensures !ActiveItem(Merged(db, x, y).items[i])
  {
    var w := Merged(db, x, y);
    var p := w.batches[b].production;
    MergedBatch(db, pl, bl, a, x, c, y, b);
    if i in x.items {
      assert p !in y.productions;
      assert BatchOk(View(db, x), b, x.pending, x.freezing);
    } else if p in x.productions {
      assert i !in y.items;
      assert View(db, x).items[i] == w.items[i];
      assert BatchOk(View(db, x), b, x.pending, x.freezing);
    } else {
      assert View(db, y).items[i] == w.items[i];
      assert BatchOk(View(db, y), b, {}, {});
    }
  }

  lemma MergedGood(db: Tables, pl: Locks, bl: Locks, a: Uuid, x: Tx, c: Uuid, y: Tx)
    requires Beside(db, pl, bl, a, x, c, y)
    requires Good(View(db, x), x.pending, x.freezing) && Good(View(db, y), {}, {})
    ensures Good(Merged(db, x, y), x.pending, x.freezing)
  {
    var w := Merged(db, x, y);
    MergedLinked(db, pl, bl, a, x, c, y);
    MergedContracted(db, x, y);
    ManifestsStay(db, pl, bl, a, x, c, y);
    forall b | b in w.batches ensures BatchOk(w, b, x.pending, x.freezing) {
      MergedRecallOk(db, pl, bl, a, x, c, y, b);
      MergedBatchOk(db, pl, bl, a, x, c, y, b);
    }
  }

  lemma MergedBatchOk(db: Tables, pl: Locks, bl: Locks, a: Uuid, x: Tx, c: Uuid, y: Tx, b: Uuid)
    requires Beside(db, pl, bl, a, x, c, y) && b in Merged(db, x, y).batches && Linked(Merged(db, x, y))
    requires ManifestsKept(View(db, x), Merged(db, x, y)) && ManifestsKept(View(db, y), Merged(db, x, y))
    requires Good(View(db, x), x.pending, x.freezing) && Good(View(db, y), {}, {})
    requires RecallOk(Merged(db, x, y), b, x.freezing)
    ensures BatchOk(Merged(db, x, y), b, x.pending, x.freezing)
  {
    var w := Merged(db, x, y);
    if HoldsAlone(bl, b, a) && b in View(db, x).batches {
      HeldSliceStays(db, pl, bl, a, x, c, y, b);
      assert BatchOk(View(db, x), b, x.pending, x.freezing);
      SliceKeepsBatch(View(db, x), w, b, x.pending, x.freezing);
    } else {
      if HoldsAlone(bl, b, a) {
        assert false;
      }
      OtherSliceIsCommitted(db, pl, bl, a, x, c, y, b);
      assert BatchOk(View(db, y), b, {}, {});
      SliceKeepsBatch(View(db, y), w, b, x.pending, x.freezing);
    }
  }

  /** The rows of `x` stay locked and faithful to what is committed now. */
  lemma MergedRows(db: Tables, pl: Locks, bl: Locks, a: Uuid, x: Tx, c: Uuid, y: Tx)
    requires Beside(db, pl, bl, a, x, c, y)
    ensures Rows(View(db, y), pl, bl, a, x)
  {
    forall b | b in x.batches ensures BatchRow(View(db, y), pl, bl, a, x, b) {
      MergedBatchRow(db, pl, bl, a, x, c, y, b);
    }
    forall i | i in x.items ensures ItemRow(View(db, y), pl, bl, a, x, i) {
      MergedItemRow(db, pl, bl, a, x, c, y, i);
    }
  }

  lemma NotClosedByAnother(db: Tables, pl: Locks, bl: Locks, a: Uuid, x: Tx, c: Uuid, y: Tx, p: Uuid)
    requires Beside(db, pl, bl, a, x, c, y) && Holds(pl, p, a) && !Closed(db, p)
    ensures !Closed(View(db, y), p)
  {
  }

  lemma MergedBatchRow(db: Tables, pl: Locks, bl: Locks, a: Uuid, x: Tx, c: Uuid, y: Tx, b: Uuid)
    requires Beside(db, pl, bl, a, x, c, y) && b in x.batches
    ensures BatchRow(View(db, y), pl, bl, a, x, b)
  {
    assert BatchRow(db, pl, bl, a, x, b);
    assert b !in y.batches;
    HeldByAnother(db, pl, bl, a, x, c, y, b);
    if Holds(pl, x.batches[b].production, a) && !Closed(db, x.batches[b].production) {
      NotClosedByAnother(db, pl, bl, a, x, c, y, x.batches[b].production);
    }
  }

  lemma MergedHold(db: Tables, pl: Locks, bl: Locks, a: Uuid, x: Tx, c: Uuid, y: Tx, b: Uuid)
    requires Beside(db, pl, bl, a, x, c, y) && HoldsProduction(pl, View(db, x), b, a)
    ensures HoldsProduction(pl, Merged(db, x, y), b, a)
    ensures ProductionOf(Merged(db, x, y), b) == ProductionOf(View(db, x), b)
    ensures !Closed(db, ProductionOf(View(db, x), b).value) ==> !Closed(View(db, y), ProductionOf(View(db, x), b).value)
  {
    MergedBatch(db, pl, bl, a, x, c, y, b);
    var p := View(db, x).batches[b].production;
    if !Closed(db, p) {
      NotClosedByAnother(db, pl, bl, a, x, c, y, p);
    }
  }

  lemma MergedItemRow(db: Tables, pl: Locks, bl: Locks, a: Uuid, x: Tx, c: Uuid, y: Tx, i: Uuid)
    requires Beside(db, pl, bl, a, x, c, y) && i in x.items
    ensures ItemRow(View(db, y), pl, bl, a, x, i)
  {
    assert ItemRow(db, pl, bl, a, x, i);
    assert i !in y.items;
    if HoldsProduction(pl, View(db, x), x.items[i].batch, a) {
      MergedHold(db, pl, bl, a, x, c, y, x.items[i].batch);
    }
  }

  // ---------------------------------------------------------------------------
  // Every step keeps the invariant

  function Published(s: State, c: Uuid): State
    requires c in s.txs
  {
    State(View(s.db, s.txs[c]), Release(s.productionLocks, c), Release(s.batchLocks, c), s.txs - {c})
  }

  lemma CommitPublishes(s: State, c: Uuid)
    requires Next(s, Commit(c)).Some?
    ensures c in s.txs && s.txs[c].freezing == {} && FinalStatesHold(View(s.db, s.txs[c]), s.txs[c].pending)
    ensures Next(s, Commit(c)).value == Published(s, c)
  {
  }

  lemma OnlyCommitPublishes(s: State, step: Step)
    requires Next(s, step).Some? && !step.Commit?
    ensures Next(s, step).value.db == s.db
  {
  }

  lemma CommitLeavesOthers(s: State, c: Uuid, a: Uuid)
    requires Inv(s) && c in s.txs && a in s.txs && a != c
    requires s.txs[c].freezing == {} && FinalStatesHold(View(s.db, s.txs[c]), s.txs[c].pending)
    ensures var t := Published(s, c); TxInv(t.db, t.productionLocks, t.batchLocks, a, s.txs[a])
  {
    CommitSettles(View(s.db, s.txs[c]), s.txs[c].pending);
    MergedTxInv(s.db, s.productionLocks, s.batchLocks, a, s.txs[a], c, s.txs[c]);
  }

  lemma MergedTxInv(db: Tables, pl: Locks, bl: Locks, a: Uuid, x: Tx, c: Uuid, y: Tx)
    requires Beside(db, pl, bl, a, x, c, y)
    requires Good(View(db, x), x.pending, x.freezing) && Good(View(db, y), {}, {})
    ensures TxInv(View(db, y), Release(pl, c), Release(bl, c), a, x)
  {
    MergedGood(db, pl, bl, a, x, c, y);
    MergedRows(db, pl, bl, a, x, c, y);
    ReleasedRows(View(db, y), pl, bl, a, x, c);
  }

  lemma ReleasedRows(db: Tables, pl: Locks, bl: Locks, a: Uuid, x: Tx, c: Uuid)
    requires Rows(db, pl, bl, a, x) && a != c
    ensures Rows(db, Release(pl, c), Release(bl, c), a, x)
  {
    ReleaseKeepsOthers(pl, c, a);
    ReleaseKeepsOthers(bl, c, a);
    RowsUnderMoreLocks(db, pl, bl, Release(pl, c), Release(bl, c), a, x);
  }

  lemma CommitKeepsInv(s: State, c: Uuid)
    requires Inv(s) && Next(s, Commit(c)).Some?
    ensures Inv(Next(s, Commit(c)).value)
  {
    CommitPublishes(s, c);
    PublishedInv(s, c);
  }

  lemma PublishedInv(s: State, c: Uuid)
    requires Inv(s) && c in s.txs
    requires s.txs[c].freezing == {} && FinalStatesHold(View(s.db, s.txs[c]), s.txs[c].pending)
    ensures Inv(Published(s, c))
  {
    var t := Published(s, c);
    ReleaseKeepsOwned(s.productionLocks, s.txs.Keys, c);
    ReleaseKeepsOwned(s.batchLocks, s.txs.Keys, c);
    assert t.txs.Keys == s.txs.Keys - {c};
    CommitSettles(View(s.db, s.txs[c]), s.txs[c].pending);
    forall a | a in t.txs ensures TxInv(t.db, t.productionLocks, t.batchLocks, a, t.txs[a]) {
      CommitLeavesOthers(s, c, a);
    }
  }

  lemma AbortKeepsInv(s: State, c: Uuid)
    requires Inv(s) && Next(s, Abort(c)).Some?
    ensures Inv(Next(s, Abort(c)).value)
  {
    var t := Next(s, Abort(c)).value;
    ReleaseKeepsOwned(s.productionLocks, s.txs.Keys, c);
    ReleaseKeepsOwned(s.batchLocks, s.txs.Keys, c);
    assert t.txs.Keys == s.txs.Keys - {c};
    forall a | a in t.txs ensures TxInv(t.db, t.productionLocks, t.batchLocks, a, t.txs[a]) {
      assert TxInv(s.db, s.productionLocks, s.batchLocks, a, s.txs[a]);
      ReleasedRows(s.db, s.productionLocks, s.batchLocks, a, t.txs[a], c);
    }
  }

  lemma FreshView(db: Tables)
    ensures View(db, FRESH_TX) == db
  {
  }

  lemma FreshTxInv(db: Tables, pl: Locks, bl: Locks, c: Uuid)
    requires Good(db, {}, {})
    ensures TxInv(db, pl, bl, c, FRESH_TX)
  {
    FreshView(db);
  }

  lemma FreshApart(x: Tx)
    ensures RowsApart(FRESH_TX, x) && RowsApart(x, FRESH_TX)
  {
  }

  lemma BeginKeepsInv(s: State, c: Uuid)
    requires Inv(s) && c !in s.txs
    ensures Inv(s.(txs := s.txs[c := FRESH_TX]))
  {
    var t := s.(txs := s.txs[c := FRESH_TX]);
    FreshTxInv(s.db, s.productionLocks, s.batchLocks, c);
    assert t.txs.Keys == s.txs.Keys + {c};
    forall a | a in s.txs ensures RowsApart(FRESH_TX, s.txs[a]) && RowsApart(s.txs[a], FRESH_TX) {
      FreshApart(s.txs[a]);
    }
  }

  lemma RunLeavesOthers(s: State, c: Uuid, e: Effect, a: Uuid)
    requires Inv(s) && c in s.txs && CanLock(s, c, e) && a in s.txs
    ensures Rows(s.db, Locked(s.productionLocks, c, e.production), Locked(s.batchLocks, c, e.batch), a, s.txs[a])
  {
    assert TxInv(s.db, s.productionLocks, s.batchLocks, a, s.txs[a]);
    GrantServes(s.productionLocks, c, e.production);
    GrantServes(s.batchLocks, c, e.batch);
    RowsUnderMoreLocks(s.db, s.productionLocks, s.batchLocks, Locked(s.productionLocks, c, e.production),
                       Locked(s.batchLocks, c, e.batch), a, s.txs[a]);
  }

  lemma RunKeepsTx(s: State, c: Uuid, today: int, statement: Statement, e: Effect)
    requires Inv(s) && c in s.txs && CanLock(s, c, e)
    requires Execute(View(s.db, s.txs[c]), s.txs[c], today, statement) == Some(e)
    ensures TxInv(s.db, Locked(s.productionLocks, c, e.production), Locked(s.batchLocks, c, e.batch), c, e.tx)
  {
    assert TxInv(s.db, s.productionLocks, s.batchLocks, c, s.txs[c]);
    StatementKeepsGood(s.db, s.txs[c], today, statement, e);
    GrantServes(s.productionLocks, c, e.production);
    GrantServes(s.batchLocks, c, e.batch);
    RunLeavesOthers(s, c, e, c);
    StatementKeepsRows(s.db, Locked(s.productionLocks, c, e.production), Locked(s.batchLocks, c, e.batch), c, s.txs[c],
                       today, statement, e);
  }

  /** A statement that runs touches its own transaction and the locks it was granted. */
  lemma RunTouchesOwn(s: State, c: Uuid, today: int, statement: Statement) returns (e: Effect)
    requires Next(s, Run(c, today, statement)).Some?
    ensures c in s.txs && Execute(View(s.db, s.txs[c]), s.txs[c], today, statement) == Some(e) && CanLock(s, c, e)
    ensures forall other :: other in s.txs && other != c ==> RowsApart(e.tx, s.txs[other])
    ensures Next(s, Run(c, today, statement)).value
            == State(s.db, Locked(s.productionLocks, c, e.production), Locked(s.batchLocks, c, e.batch),
                s.txs[c := e.tx])
  {
    e := Execute(View(s.db, s.txs[c]), s.txs[c], today, statement).value;
  }

  lemma RunKeepsInv(s: State, c: Uuid, today: int, statement: Statement)
    requires Inv(s) && Next(s, Run(c, today, statement)).Some?
    ensures Inv(Next(s, Run(c, today, statement)).value)
  {
    var e := RunTouchesOwn(s, c, today, statement);
    RunKeepsTx(s, c, today, statement, e);
    ReplacedInv(s, c, e);
  }

  lemma ReplacedApart(s: State, c: Uuid, x: Tx)
    requires forall a, b :: a in s.txs && b in s.txs && a != b ==> RowsApart(s.txs[a], s.txs[b])
    requires forall other :: other in s.txs && other != c ==> RowsApart(x, s.txs[other])
    ensures var txs := s.txs[c := x]; forall a, b :: a in txs && b in txs && a != b ==> RowsApart(txs[a], txs[b])
  {
    var txs := s.txs[c := x];
    forall a, b | a in txs && b in txs && a != b ensures RowsApart(txs[a], txs[b]) {
      if a != c && b != c {
        assert RowsApart(s.txs[a], s.txs[b]);
      } else if b == c {
        assert RowsApart(x, s.txs[a]);
      }
    }
  }

  lemma ReplacedInv(s: State, c: Uuid, e: Effect)
    requires Inv(s) && c in s.txs && CanLock(s, c, e)
    requires forall other :: other in s.txs && other != c ==> RowsApart(e.tx, s.txs[other])
    requires TxInv(s.db, Locked(s.productionLocks, c, e.production), Locked(s.batchLocks, c, e.batch), c, e.tx)
    ensures Inv(State(s.db, Locked(s.productionLocks, c, e.production), Locked(s.batchLocks, c, e.batch),
        s.txs[c := e.tx]))
  {
    var t :=
        State(s.db, Locked(s.productionLocks, c, e.production), Locked(s.batchLocks, c, e.batch), s.txs[c := e.tx]);
    GrantKeepsOwned(s.productionLocks, s.txs.Keys, c, e.production);
    GrantKeepsOwned(s.batchLocks, s.txs.Keys, c, e.batch);
    assert t.txs.Keys == s.txs.Keys;
    ReplacedApart(s, c, e.tx);
    forall a | a in t.txs ensures TxInv(t.db, t.productionLocks, t.batchLocks, a, t.txs[a]) {
      if a != c {
        RunLeavesOthers(s, c, e, a);
        assert TxInv(s.db, s.productionLocks, s.batchLocks, a, s.txs[a]);
      }
    }
  }

  lemma StepKeepsInv(s: State, step: Step)
    requires Inv(s) && Next(s, step).Some?
    ensures Inv(Next(s, step).value)
  {
    match step
    case Begin(c) => BeginKeepsInv(s, c);
    case Run(c, today, statement) => RunKeepsInv(s, c, today, statement);
    case Commit(c) => CommitKeepsInv(s, c);
    case Abort(c) => AbortKeepsInv(s, c);
  }

  // ---------------------------------------------------------------------------
  // How the committed tables evolve

  ghost predicate Evolves(v: Tables, w: Tables) {
    && w.legacy == v.legacy
    && (forall p :: p in v.productions && Closed(v, p) ==> p in w.productions && w.productions[p] == v.productions[p])
    && (forall b :: b in v.batches ==> BatchEvolves(v, w, b))
    && (forall i :: i in v.items ==> ItemEvolves(v, w, i))
  }

  ghost predicate BatchEvolves(v: Tables, w: Tables, b: Uuid)
    requires b in v.batches
  {
    && b in w.batches && Later(v.batches[b], w.batches[b])
    && (Closed(v, v.batches[b].production) || Stuck(v, b) ==> w.batches[b].status == v.batches[b].status)
  }

  ghost predicate ItemEvolves(v: Tables, w: Tables, i: Uuid)
    requires i in v.items
  {
    && i in w.items && w.items[i].batch == v.items[i].batch
    && (v.items[i].status == RevokedItem ==> w.items[i].status == RevokedItem)
    && (OutOfUse(v, i) ==> w.items[i].status in {FrozenItem, RevokedItem})
  }

  /** A frozen or revoked item under a closed production batch. */
  predicate OutOfUse(v: Tables, i: Uuid)
    requires i in v.items
  {
    && v.items[i].status in {FrozenItem, RevokedItem} && v.items[i].batch in v.batches
    && Closed(v, v.batches[v.items[i].batch].production)
  }

  lemma CommittedBatchEvolves(db: Tables, pl: Locks, bl: Locks, tx: Uuid, x: Tx, b: Uuid)
    requires Rows(db, pl, bl, tx, x) && b in db.batches
    ensures BatchEvolves(db, View(db, x), b)
  {
    assert b in x.batches ==> BatchRow(db, pl, bl, tx, x, b);
  }

  lemma CommittedItemEvolves(db: Tables, pl: Locks, bl: Locks, tx: Uuid, x: Tx, i: Uuid)
    requires Rows(db, pl, bl, tx, x) && i in db.items
    ensures ItemEvolves(db, View(db, x), i)
  {
    assert i in x.items ==> ItemRow(db, pl, bl, tx, x, i);
    if db.items[i].batch in db.batches {
      SameProduction(db, pl, bl, tx, x, db.items[i].batch);
    }
  }

  lemma CommitEvolves(db: Tables, pl: Locks, bl: Locks, tx: Uuid, x: Tx)
    requires Rows(db, pl, bl, tx, x)
    ensures Evolves(db, View(db, x))
  {
    forall b | b in db.batches ensures BatchEvolves(db, View(db, x), b) {
      CommittedBatchEvolves(db, pl, bl, tx, x, b);
    }
    forall i | i in db.items ensures ItemEvolves(db, View(db, x), i) {
      CommittedItemEvolves(db, pl, bl, tx, x, i);
    }
  }

  lemma StuckStays(v: Tables, w: Tables, b: Uuid)
    requires Evolves(v, w) && Stuck(v, b)
    ensures Stuck(w, b)
  {
    var i :| i in v.items && v.items[i].batch == b && v.items[i].status == RevokedItem;
    assert ItemEvolves(v, w, i) && BatchEvolves(v, w, b);
  }

  lemma BatchEvolvesOn(u: Tables, v: Tables, w: Tables, b: Uuid)
    requires Evolves(u, v) && Evolves(v, w) && b in u.batches
    ensures BatchEvolves(u, w, b)
  {
    assert BatchEvolves(u, v, b) && BatchEvolves(v, w, b);
    if Stuck(u, b) {
      StuckStays(u, v, b);
    }
  }

  lemma EvolvesTransitive(u: Tables, v: Tables, w: Tables)
    requires Evolves(u, v) && Evolves(v, w)
    ensures Evolves(u, w)
  {
    forall b | b in u.batches ensures BatchEvolves(u, w, b) {
      BatchEvolvesOn(u, v, w, b);
    }
    forall i | i in u.items ensures ItemEvolves(u, w, i) {
      ItemEvolvesOn(u, v, w, i);
    }
  }

  lemma ItemEvolvesOn(u: Tables, v: Tables, w: Tables, i: Uuid)
    requires Evolves(u, v) && Evolves(v, w) && i in u.items
    ensures ItemEvolves(u, w, i)
  {
    assert ItemEvolves(u, v, i) && ItemEvolves(v, w, i);
    if OutOfUse(u, i) {
      assert BatchEvolves(u, v, u.items[i].batch);
      assert OutOfUse(v, i);
    }
  }

  lemma {:induction false} RunsKeepInv(s: State, steps: seq<Step>)
    requires Inv(s)
    ensures Inv(Runs(s, steps)) && Evolves(s.db, Runs(s, steps).db)
    decreases |steps|
  {
    if steps != [] {
      var t := Next(s, steps[0]);
      if t.Some? {
        StepKeepsInv(s, steps[0]);
        StepEvolves(s, steps[0]);
        RunsKeepInv(t.value, steps[1..]);
        EvolvesTransitive(s.db, t.value.db, Runs(s, steps).db);
      } else {
        RunsKeepInv(s, steps[1..]);
      }
    }
  }

  lemma SameDbEvolves(db: Tables)
    ensures Evolves(db, db)
  {
  }

  lemma StepEvolves(s: State, step: Step)
    requires Inv(s) && Next(s, step).Some?
    ensures Evolves(s.db, Next(s, step).value.db)
  {
    if step.Commit? {
      CommitPublishes(s, step.tx);
      CommitEvolves(s.db, s.productionLocks, s.batchLocks, step.tx, s.txs[step.tx]);
    } else {
      OnlyCommitPublishes(s, step);
      SameDbEvolves(s.db);
    }
  }

  // ---------------------------------------------------------------------------
  // Over every run

  /** A finished code batch born under contract 1 has its expected number of items,
      and both numbers stay what they were. */
  lemma FinishedCountNeverChanges(s: State, steps: seq<Step>, b: Uuid)
    requires Inv(s) && b in s.db.batches && b !in s.db.legacy && Finished(s.db.batches[b].status)
    ensures var db := Runs(s, steps).db;
            && b in db.batches && Finished(db.batches[b].status)
            && db.batches[b].expected == s.db.batches[b].expected == Some(|ItemsOf(s.db, b)|)
            && |ItemsOf(db, b)| == |ItemsOf(s.db, b)|
  {
    RunsKeepInv(s, steps);
    assert BatchEvolves(s.db, Runs(s, steps).db, b);
    assert BatchOk(s.db, b, {}, {});
    assert BatchOk(Runs(s, steps).db, b, {}, {});
  }

  /** Once exported, a batch keeps its manifest, whose row count is the number of its
      items. */
  lemma ExportedCountIsManifested(s: State, steps: seq<Step>, b: Uuid)
    requires Inv(s) && b in s.db.batches && b !in s.db.legacy && Shipped(s.db.batches[b].status)
    ensures var db := Runs(s, steps).db;
            && b in db.batches && Shipped(db.batches[b].status)
            && db.batches[b].manifest.Some? && db.batches[b].manifest == s.db.batches[b].manifest
            && db.batches[b].manifest.value in db.manifests
            && db.manifests[db.batches[b].manifest.value].rowCount == Some(|ItemsOf(db, b)|)
            && |ItemsOf(db, b)| == |ItemsOf(s.db, b)|
  {
    RunsKeepInv(s, steps);
    assert BatchEvolves(s.db, Runs(s, steps).db, b);
    FinishedCountNeverChanges(s, steps, b);
    assert BatchOk(s.db, b, {}, {});
    assert BatchOk(Runs(s, steps).db, b, {}, {});
  }

  /** A finished paired batch is made of `quantity` pairs, one outer and one inner
      item each, in every committed state. */
  lemma PairsHoldInEveryRun(s: State, steps: seq<Step>, b: Uuid)
    requires Inv(s) && b in s.db.batches && b !in s.db.legacy && Finished(s.db.batches[b].status)
    requires s.db.batches[b].kind == PairedCodes
    ensures var db := Runs(s, steps).db;
            && b in db.batches && |PairIds(db, ItemsOf(db, b))| == s.db.batches[b].quantity
            && forall p :: p in PairIds(db, ItemsOf(db, b)) ==>
                 |GroupOf(db, b, p)| == 2 && |KindIn(db, b, p, OuterItem)| == 1 && |KindIn(db, b, p, InnerItem)| == 1
  {
    RunsKeepInv(s, steps);
    assert BatchEvolves(s.db, Runs(s, steps).db, b);
    var db := Runs(s, steps).db;
    assert BatchOk(db, b, {}, {});
    PairsSplitExactly(db, b);
  }

  /** All or nothing: before its batch is activated an item is created or revoked;
      in an activated batch no item is still waiting. */
  lemma ActivationIsAllOrNothing(s: State, steps: seq<Step>, i: Uuid)
    requires Inv(s) && i in Runs(s, steps).db.items && Runs(s, steps).db.items[i].batch !in s.db.legacy
    ensures var db := Runs(s, steps).db;
            && db.items[i].batch in db.batches
            && if db.batches[db.items[i].batch].status == Activated then db.items[i].status != CreatedItem
               else db.items[i].status in {CreatedItem, RevokedItem}
  {
    RunsKeepInv(s, steps);
    var db := Runs(s, steps).db;
    assert BatchOk(db, db.items[i].batch, {}, {});
  }

  /** Recall safety: no committed state has an active item under a recalled production
      batch, and what a recall found stays: the production batch is recalled, its code
      batches keep their status, its frozen items are frozen or revoked. */
  lemma RecallIsSafeAndFinal(s: State, steps: seq<Step>, b: Uuid)
    requires Inv(s) && b in s.db.batches && RecalledIn(s.db, s.db.batches[b].production)
    ensures var db := Runs(s, steps).db;
            && b in db.batches && db.batches[b].production == s.db.batches[b].production
            && RecalledIn(db, db.batches[b].production)
            && db.batches[b].status == s.db.batches[b].status
            && (forall i :: i in db.items && db.items[i].batch == b ==> !ActiveItem(db.items[i]))
            && (forall i :: i in s.db.items && s.db.items[i].batch == b && s.db.items[i].status == FrozenItem ==>
                  i in db.items && db.items[i].batch == b && db.items[i].status in {FrozenItem, RevokedItem})
  {
    RunsKeepInv(s, steps);
    assert BatchEvolves(s.db, Runs(s, steps).db, b);
    var db := Runs(s, steps).db;
    assert BatchOk(db, b, {}, {});
    forall i | i in s.db.items && s.db.items[i].batch == b && s.db.items[i].status == FrozenItem
      ensures i in db.items && db.items[i].batch == b && db.items[i].status in {FrozenItem, RevokedItem}
    {
      assert OutOfUse(s.db, i) && ItemEvolves(s.db, db, i);
    }
  }
}
