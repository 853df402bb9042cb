/** Code delivery under concurrency: transactions that hold row locks while item
    writers, batch writers, exporters and the recaller interleave. The rollout is
    finalized and no session is privileged; deletions are then always refused. */
module CodeProtocol {
  import opened Sql
  import opened CodeDelivery
  import opened CodeLaws

  /** Uncommitted rows, items whose deferred check is pending, and the code batches
      a running recall has still to freeze. */
  datatype Tx = Tx(
    productions: map<Uuid, ProductionBatch>,
    batches: map<Uuid, CodeBatch>,
    items: map<Uuid, CodeItem>,
    manifests: map<Uuid, Manifest>,
    receipts: map<Uuid, Receipt>,
    pending: set<Uuid>,
    freezing: set<Uuid>)

  const FRESH_TX := Tx(map[], map[], map[], map[], map[], {}, {})

  function View(db: Tables, x: Tx): Tables {
    Tables(db.legacy, db.productions + x.productions, db.batches + x.batches, db.items + x.items,
           db.manifests + x.manifests, db.receipts + x.receipts)
  }

  predicate RowsApart(x: Tx, y: Tx) {
    && x.productions.Keys !! y.productions.Keys && x.batches.Keys !! y.batches.Keys && x.items.Keys !! y.items.Keys
    && x.manifests.Keys !! y.manifests.Keys && x.receipts.Keys !! y.receipts.Keys
  }

  /** A locked row: FOR SHARE by several, or FOR UPDATE (or an UPDATE) by one. */
  datatype Lock = Shared(holders: set<Uuid>) | Exclusive(holder: Uuid)

  predicate Holds(locks: map<Uuid, Lock>, row: Uuid, tx: Uuid) {
    row in locks && if locks[row].Exclusive? then locks[row].holder == tx else tx in locks[row].holders
  }

  predicate HoldsAlone(locks: map<Uuid, Lock>, row: Uuid, tx: Uuid) {
    row in locks && locks[row] == Exclusive(tx)
  }

  predicate Grantable(locks: map<Uuid, Lock>, row: Uuid, tx: Uuid, alone: bool) {
    row !in locks
    || (match locks[row]
        case Shared(holders) => !alone || holders <= {tx}
        case Exclusive(holder) => holder == tx)
  }

  function Granted(locks: map<Uuid, Lock>, row: Uuid, tx: Uuid, alone: bool): map<Uuid, Lock> {
    if alone then locks[row := Exclusive(tx)]
    else if row !in locks then locks[row := Shared({tx})]
    else if locks[row].Exclusive? then locks
    else locks[row := Shared(locks[row].holders + {tx})]
  }

  function Release(locks: map<Uuid, Lock>, tx: Uuid): map<Uuid, Lock> {
    map row | row in locks && locks[row] != Exclusive(tx)
      :: if locks[row].Shared? then Shared(locks[row].holders - {tx}) else locks[row]
  }

  datatype Statement =
    | PutBatch(id: Uuid, batch: CodeBatch)
    | PutItem(id: Uuid, item: CodeItem)
    | PutManifest(id: Uuid, manifest: Manifest)
    | PutReceipt(id: Uuid, receipt: Receipt)
    | PutProduction(id: Uuid, production: ProductionBatch)
    | FreezeNext(id: Uuid)

  /** A statement that is not refused: the transaction after it and the rows it locks. */
  datatype Effect = Effect(tx: Tx, production: Option<(Uuid, bool)>, batch: Option<(Uuid, bool)>)

  function PutBatchRow(v: Tables, x: Tx, today: int, id: Uuid, given: CodeBatch): Option<Effect> {
    var before := Lookup(v.batches, id);
    match BatchGuard(v, RUNTIME, today, id, before, given)
    case None => None
    case Some(row) =>
      if !LinkGuard(v, today, before, row) || !BatchChecks(row) || row.production !in v.productions then None
      else Some(Effect(x.(batches := x.batches[id := row]),
                       if before.None? || row.status != before.value.status || row.contract != before.value.contract
                       then Some((row.production, false)) else None,
                       Some((id, true))))
  }

  function PutItemRow(v: Tables, x: Tx, today: int, id: Uuid, row: CodeItem): Option<Effect> {
    var before := Lookup(v.items, id);
    if !ItemGuard(v, RUNTIME, before, row) || !ItemActiveGuard(v, today, row) then None
    else
      var activates := before.Some? && before.value.status == CreatedItem && row.status == ActivatedItem;
      Some(Effect(x.(items := x.items[id := row], pending := if activates then x.pending + {id} else x.pending),
                  if ActiveItem(row) then Some((v.batches[row.batch].production, false)) else None,
                  Some((row.batch, true))))
  }

  function PutManifestRow(v: Tables, x: Tx, id: Uuid, row: Manifest): Option<Effect> {
    if !ManifestGuard(v, RUNTIME, Lookup(v.manifests, id), row) then None
    else Some(Effect(x.(manifests := x.manifests[id := row]), None,
                     if row.codeCsv && row.codeBatch.Some? then Some((row.codeBatch.value, false)) else None))
  }

  /** The update that fires the freeze loop. */
  predicate Recalls(v: Tables, id: Uuid, row: ProductionBatch) {
    id in v.productions && v.productions[id].status == InProduction && row.status == Recalled
  }

  function PutProductionRow(v: Tables, x: Tx, id: Uuid, row: ProductionBatch): Option<Effect> {
    if !RecallCheck(row) || (id in v.productions && !ProductionGuard(v.productions[id], row)) then None
    else Some(Effect(x.(productions := x.productions[id := row],
                        freezing := if Recalls(v, id, row) then BatchesOf(v, id) else {}),
                     Some((id, true)), None))
  }

  function FreezeRows(v: Tables, x: Tx, id: Uuid): Option<Effect> {
    if id !in x.freezing || id !in v.batches || !CanFreeze(v, RUNTIME, id) then None
    else Some(Effect(x.(items := x.items + Frozen(v, id), freezing := x.freezing - {id}), None, Some((id, true))))
  }

  /** One statement of the runtime session on a business date, against the view of its
      transaction. A recall first marks the production batch and collects its code
      batches; the freeze loop then visits them one at a time, and until it is through
      the UPDATE has not finished and no other statement runs. */
  function Execute(v: Tables, x: Tx, today: int, s: Statement): Option<Effect> {
    if x.freezing != {} && !s.FreezeNext? then None
    else match s
      case PutBatch(id, given) => PutBatchRow(v, x, today, id, given)
      case PutItem(id, row) => PutItemRow(v, x, today, id, row)
      case PutManifest(id, row) => PutManifestRow(v, x, id, row)
      case PutReceipt(id, row) =>
        if !ReceiptGuard(v, Lookup(v.receipts, id), row) then None
        else Some(Effect(x.(receipts := x.receipts[id := row]), None, None))
      case PutProduction(id, row) => PutProductionRow(v, x, id, row)
      case FreezeNext(id) => FreezeRows(v, x, id)
  }

  datatype State = State(db: Tables, productionLocks: map<Uuid, Lock>, batchLocks: map<Uuid, Lock>, txs: map<Uuid, Tx>)

  datatype Step =
    | Begin(tx: Uuid)
    | Run(tx: Uuid, today: int, statement: Statement)
    | Commit(tx: Uuid)
    | Abort(tx: Uuid)

  /** The deferred check of every first activation: its code batch finishes activated. */
  predicate FinalStatesHold(v: Tables, pending: set<Uuid>) {
    forall i :: i in pending && i in v.items ==>
      v.items[i].batch in v.batches && v.batches[v.items[i].batch].status == Activated
  }

  predicate CanLock(s: State, tx: Uuid, e: Effect) {
    && (e.production.Some? ==> Grantable(s.productionLocks, e.production.value.0, tx, e.production.value.1))
    && (e.batch.Some? ==> Grantable(s.batchLocks, e.batch.value.0, tx, e.batch.value.1))
  }

  function Locked(locks: map<Uuid, Lock>, tx: Uuid, request: Option<(Uuid, bool)>): map<Uuid, Lock> {
    if request.Some? then Granted(locks, request.value.0, tx, request.value.1) else locks
  }

  /** One step of one transaction; None when it waits, fails a NOWAIT lock or is refused.
      A deferred check reads a code batch its transaction has locked, so evaluating the
      checks and publishing form one step. */
  function Next(s: State, step: Step): Option<State> {
    match step
    case Begin(tx) =>
      if tx in s.txs then None else Some(s.(txs := s.txs[tx := FRESH_TX]))
    case Run(tx, today, statement) =>
      if tx !in s.txs then None
      else (match Execute(View(s.db, s.txs[tx]), s.txs[tx], today, statement)
        case None => None
        case Some(e) =>
          if !CanLock(s, tx, e)
             || exists other :: other in s.txs && other != tx && !RowsApart(e.tx, s.txs[other]) then None
          else Some(State(s.db, Locked(s.productionLocks, tx, e.production), Locked(s.batchLocks, tx, e.batch),
                          s.txs[tx := e.tx])))
    case Commit(tx) =>
      if tx !in s.txs || s.txs[tx].freezing != {}
         || !FinalStatesHold(View(s.db, s.txs[tx]), s.txs[tx].pending) then None
      else Some(State(View(s.db, s.txs[tx]), Release(s.productionLocks, tx), Release(s.batchLocks, tx), s.txs - {tx}))
    case Abort(tx) =>
      if tx !in s.txs then None
      else Some(State(s.db, Release(s.productionLocks, tx), Release(s.batchLocks, tx), s.txs - {tx}))
  }

  function Runs(s: State, steps: seq<Step>): State
    decreases |steps|
  {
    if steps == [] then s
    else Runs(if Next(s, steps[0]).Some? then Next(s, steps[0]).value else s, steps[1..])
  }
}
