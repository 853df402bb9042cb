/** Code batches, their items, the production batches they are made for, and the
    evidence of generation and export: the row guards in front of each table. */
module CodeDelivery {
  import opened Sql

  datatype ProductionStatus = InProduction | Recalled | PastExpiry
  datatype Recall = Recall(reason: string, at: int, actor: string)

  /** A production batch. Tenant, product and SKU travel with its id through a
      composite foreign key, so the id alone stands for the whole link. */
  datatype ProductionBatch = ProductionBatch(status: ProductionStatus, expiryDate: int, recall: Option<Recall>)

  datatype BatchStatus = Pending | Generating | Completed | Failed | Exported | Printing | Delivered | Activated
  datatype Source = Generated | Imported
  datatype Mode = BatchLevel | ItemLevel
  datatype BatchKind = SingleCodes | PairedCodes

  datatype CodeBatch = CodeBatch(
    contract: int, production: Uuid, batchCode: string, source: Source, mode: Mode, kind: BatchKind,
    quantity: int, expected: Option<int>, createdBy: Uuid, status: BatchStatus,
    manifest: Option<Uuid>, exportedAt: Option<int>, printingAt: Option<int>, deliveredAt: Option<int>,
    recipient: Option<string>)

  datatype ItemKind = SingleItem | OuterItem | InnerItem
  datatype ItemStatus = CreatedItem | ActivatedItem | BoundItem | FrozenItem | ExpiredItem | RevokedItem

  datatype CodeItem = CodeItem(batch: Uuid, publicId: string, kind: ItemKind, pair: Option<Uuid>, status: ItemStatus)

  /** An export log row. `sealedArtifact` stands for the checksum, size, cipher and key
      columns all being well formed. */
  datatype Manifest = Manifest(
    codeCsv: bool, resource: Option<Uuid>, codeBatch: Option<Uuid>, version: Option<int>,
    rowCount: Option<int>, completed: bool, sealedArtifact: bool)

  datatype Receipt = Receipt(createdBy: Uuid, codeBatch: Option<Uuid>)

  /** The tables, and the ids of the batches born under contract version 0. */
  datatype Tables = Tables(
    legacy: set<Uuid>,
    productions: map<Uuid, ProductionBatch>,
    batches: map<Uuid, CodeBatch>,
    items: map<Uuid, CodeItem>,
    manifests: map<Uuid, Manifest>,
    receipts: map<Uuid, Receipt>)

  /** Who writes: whether the rollout is finalized, and whether the session may bypass. */
  datatype Session = Session(finalized: bool, privileged: bool) {
    predicate LegacyOpen() { privileged || !finalized }
  }

  const RUNTIME := Session(true, false)

  predicate ActiveItem(i: CodeItem) {
    i.status in {ActivatedItem, BoundItem}
  }

  /** The join every guard makes to the production batch, on a given business date. */
  predicate ProductionActive(v: Tables, today: int, production: Uuid) {
    && production in v.productions && v.productions[production].status == InProduction
    && v.productions[production].expiryDate >= today
  }

  function ItemsOf(v: Tables, batch: Uuid): set<Uuid> {
    set i | i in v.items && v.items[i].batch == batch
  }

  function GroupOf(v: Tables, batch: Uuid, pair: Option<Uuid>): set<Uuid> {
    set i | i in v.items && v.items[i].batch == batch && v.items[i].pair == pair
  }

  function KindIn(v: Tables, batch: Uuid, pair: Option<Uuid>, kind: ItemKind): set<Uuid> {
    set i | i in v.items && v.items[i].batch == batch && v.items[i].pair == pair && v.items[i].kind == kind
  }

  // ---------------------------------------------------------------------------
  // Production batches

  predicate RecallCheck(p: ProductionBatch) {
    if p.status == Recalled then p.recall.Some? && !Blank(p.recall.value.reason) else p.recall.None?
  }

  /** The production-batch guard. */
  predicate ProductionGuard(before: ProductionBatch, after: ProductionBatch) {
    if before.status in {Recalled, PastExpiry} then after == before
    else if after.status != before.status then after.status == Recalled
    else after.recall == before.recall
  }

  // ---------------------------------------------------------------------------
  // Code batches

  /** The guard fills a missing expected count from the generation columns. */
  function FillExpected(row: CodeBatch): CodeBatch {
    if row.expected.Some? then row
    else row.(expected := Some(if row.mode == BatchLevel then 1
                               else if row.kind == PairedCodes then row.quantity * 2
                               else row.quantity))
  }

  predicate SameIdentity(a: CodeBatch, b: CodeBatch) {
    && a.production == b.production && a.batchCode == b.batchCode && a.quantity == b.quantity && a.kind == b.kind
    && a.mode == b.mode && a.source == b.source && a.expected == b.expected && a.createdBy == b.createdBy
  }

  predicate BatchMoves(before: BatchStatus, after: BatchStatus) {
    match before
    case Pending => after == Generating
    case Generating => after in {Completed, Failed}
    case Completed => after == Exported
    case Exported => after == Printing
    case Printing => after == Delivered
    case Delivered => after == Activated
    case _ => false
  }

  predicate MetadataFits(row: CodeBatch) {
    match row.status
    case Exported => row.manifest.Some? && row.exportedAt.Some? && row.printingAt.None? && Undelivered(row)
    case Printing => row.manifest.Some? && row.exportedAt.Some? && row.printingAt.Some? && Undelivered(row)
    case Delivered => Delivery(row)
    case Activated => Delivery(row)
    case _ => row.manifest.None? && row.exportedAt.None? && row.printingAt.None? && Undelivered(row)
  }

  predicate Undelivered(row: CodeBatch) {
    row.deliveredAt.None? && row.recipient.None?
  }

  predicate Delivery(row: CodeBatch) {
    && row.manifest.Some? && row.exportedAt.Some? && row.printingAt.Some? && row.deliveredAt.Some?
    && row.recipient.Some? && !Blank(row.recipient.value)
  }

  /** Evidence once written: manifest and export time stay, times never go back. */
  predicate EvidenceKept(before: CodeBatch, after: CodeBatch) {
    before.manifest.Some? ==>
      && after.manifest == before.manifest && after.exportedAt == before.exportedAt
      && !Below(after.printingAt, before.printingAt).Taken() && !Below(after.deliveredAt, before.deliveredAt).Taken()
      && (before.recipient.Some? ==> after.recipient == before.recipient)
  }

  /** The sources and modes a contract-1 batch may combine, and the count each expects. */
  predicate GenerationShape(row: CodeBatch, expected: int) {
    match (row.source, row.mode, row.kind)
    case (Generated, BatchLevel, SingleCodes) => row.quantity == 1 && expected == 1
    case (Generated, ItemLevel, SingleCodes) => row.quantity > 0 && expected == row.quantity
    case (Generated, ItemLevel, PairedCodes) => row.quantity > 0 && expected == row.quantity * 2
    case (Imported, ItemLevel, SingleCodes) => row.quantity > 0 && expected == row.quantity
    case _ => false
  }

  /** The generation-shape and timestamp CHECKs of contract version 1. */
  predicate BatchChecks(row: CodeBatch) {
    && row.contract in {0, 1}
    && (row.contract == 1 ==>
          row.expected.Some? && 1 <= row.expected.value <= 10_000 && GenerationShape(row, row.expected.value))
    && (row.printingAt.Some? ==> row.exportedAt.Some? && row.printingAt.value >= row.exportedAt.value)
    && (row.deliveredAt.Some? ==> row.printingAt.Some? && row.deliveredAt.value >= row.printingAt.value)
    && (row.deliveredAt.Some? <==> row.recipient.Some? && !Blank(row.recipient.value))
    && (row.deliveredAt.None? ==> row.recipient.None?)
  }

  predicate HasReceipt(v: Tables, batch: Uuid, createdBy: Uuid) {
    exists r :: r in v.receipts && v.receipts[r] == Receipt(createdBy, Some(batch))
  }

  /** No group the pairing query would report. */
  predicate PairsComplete(v: Tables, batch: Uuid) {
    forall i :: i in v.items && v.items[i].batch == batch ==>
      var p := v.items[i].pair;
      && p.Some? && |GroupOf(v, batch, p)| == 2
      && |KindIn(v, batch, p, OuterItem)| == 1 && |KindIn(v, batch, p, InnerItem)| == 1
  }

  /** What completing a batch demands of its items and receipt. */
  predicate GenerationComplete(v: Tables, batch: Uuid, row: CodeBatch) {
    && HasReceipt(v, batch, row.createdBy)
    && Some(|ItemsOf(v, batch)|) == row.expected
    && (forall i :: i in ItemsOf(v, batch) ==> v.items[i].status == CreatedItem)
    && (if row.kind == PairedCodes then PairsComplete(v, batch)
        else forall i :: i in ItemsOf(v, batch) ==> v.items[i].kind == SingleItem && v.items[i].pair.None?)
  }

  predicate Shipped(status: BatchStatus) {
    status in {Exported, Printing, Delivered, Activated}
  }

  predicate ManifestValid(v: Tables, batch: Uuid, row: CodeBatch) {
    && row.manifest.Some? && row.manifest.value in v.manifests
    && var m := v.manifests[row.manifest.value];
       && m.codeBatch == Some(batch) && m.resource == Some(batch) && m.codeCsv && m.completed
       && m.version.Some? && m.version.value > 0 && m.rowCount == row.expected && m.sealedArtifact
  }

  /** The contract-1 part of the batch guard. */
  predicate DeliveryGuard(v: Tables, today: int, id: Uuid, before: Option<CodeBatch>, row: CodeBatch) {
    && row.contract == 1
    && (before.None? ==> row.status in {Pending, Generating})
    && (before.Some? && row.status != before.value.status ==> BatchMoves(before.value.status, row.status))
    && MetadataFits(row)
    && (before.Some? ==> EvidenceKept(before.value, row))
    && ((before.None? || row.status != before.value.status || row.contract != before.value.contract) ==>
          ProductionActive(v, today, row.production))
    && (before.Some? && before.value.status == Generating && row.status == Completed ==> GenerationComplete(v, id, row))
    && (Shipped(row.status) ==> ManifestValid(v, id, row))
    && (before.Some? && before.value.status == Delivered && row.status == Activated ==>
          forall i :: i in ItemsOf(v, id) ==> v.items[i].status == ActivatedItem)
  }

  /** The batch guard: the row it lets through, or None when it raises. */
  function BatchGuard(v: Tables, session: Session, today: int, id: Uuid, before: Option<CodeBatch>, given: CodeBatch)
    : Option<CodeBatch>
  {
    var row := FillExpected(given);
    if before.None? && row.contract == 0 then
      if session.LegacyOpen() then Some(row) else None
    else if before.Some? && before.value.contract == 0 && row.contract == 0 then
      if session.LegacyOpen() then Some(row) else None
    else if before.Some? && !SameIdentity(before.value, row) then None
    else if before.Some? && before.value.contract == 1 && row.contract != 1 then None
    else if before.Some? && before.value.contract == 0 && row.contract == 1
            && !(before.value.status == Completed && row.status == Exported) then None
    else if DeliveryGuard(v, today, id, before, row) then Some(row)
    else None
  }

  /** The production-link guard. */
  predicate LinkGuard(v: Tables, today: int, before: Option<CodeBatch>, row: CodeBatch) {
    || (before.Some? && row.production == before.value.production
        && (row.status == before.value.status || row.status in {Pending, Failed}))
    || ProductionActive(v, today, row.production)
  }

  // ---------------------------------------------------------------------------
  // Code items

  predicate ItemMoves(before: ItemStatus, after: ItemStatus) {
    match before
    case CreatedItem => after in {ActivatedItem, RevokedItem}
    case ActivatedItem => after in {BoundItem, RevokedItem, FrozenItem}
    case BoundItem => after in {ExpiredItem, RevokedItem, FrozenItem}
    case FrozenItem => after in {ActivatedItem, RevokedItem}
    case _ => false
  }

  predicate SameItem(a: CodeItem, b: CodeItem) {
    a.batch == b.batch && a.publicId == b.publicId && a.kind == b.kind && a.pair == b.pair
  }

  /** The item guard of a contract-1 batch. */
  predicate ContractItemGuard(batch: CodeBatch, before: Option<CodeItem>, row: CodeItem) {
    match before
    case None =>
      && batch.status == Generating && row.status == CreatedItem
      && (if batch.kind == PairedCodes then row.kind != SingleItem && row.pair.Some?
          else row.kind == SingleItem && row.pair.None?)
    case Some(old_) =>
      && SameItem(old_, row)
      && (row.status != old_.status ==> ItemMoves(old_.status, row.status))
      && (old_.status == CreatedItem && row.status == ActivatedItem ==> batch.status == Delivered)
      && (old_.status == ActivatedItem && row.status == BoundItem ==> batch.status == Activated)
      && (old_.status == FrozenItem && row.status == ActivatedItem ==> batch.status == Activated)
  }

  predicate ItemGuard(v: Tables, session: Session, before: Option<CodeItem>, row: CodeItem) {
    && row.batch in v.batches
    && (if v.batches[row.batch].contract == 0 then session.LegacyOpen()
        else ContractItemGuard(v.batches[row.batch], before, row))
  }

  /** The active-item guard. */
  predicate ItemActiveGuard(v: Tables, today: int, row: CodeItem) {
    ActiveItem(row) ==> row.batch in v.batches && ProductionActive(v, today, v.batches[row.batch].production)
  }

  // ---------------------------------------------------------------------------
  // Receipts and manifests

  predicate ReceiptGuard(v: Tables, before: Option<Receipt>, row: Receipt) {
    && (before.None? ==> row.codeBatch.None?)
    && (before.Some? ==> row.createdBy == before.value.createdBy && before.value.codeBatch.None? && row.codeBatch.Some?)
    && (row.codeBatch.Some? ==>
          row.codeBatch.value in v.batches && v.batches[row.codeBatch.value].createdBy == row.createdBy)
  }

  predicate ManifestGuard(v: Tables, session: Session, before: Option<Manifest>, row: Manifest) {
    if before.Some? && before.value.version.Some? then row == before.value
    else if !row.codeCsv then true
    else if row.version.None? then session.LegacyOpen()
    else
      && row.codeBatch.Some? && row.codeBatch.value in v.batches && v.batches[row.codeBatch.value].status == Completed
      && v.batches[row.codeBatch.value].expected.Some? && row.resource == row.codeBatch
      && row.rowCount == v.batches[row.codeBatch.value].expected && row.completed
      && row.version.value > 0 && row.sealedArtifact
  }

  // ---------------------------------------------------------------------------
  // The legacy gate

  /** Exactly when the item guard lets an item of one batch turn up under another:
      the destination is a contract-0 batch and the legacy gate is open. */
  lemma ItemMovesBatchIffLegacyOpen(v: Tables, session: Session, before: CodeItem, row: CodeItem)
    requires row.batch != before.batch
    ensures ItemGuard(v, session, Some(before), row)
            <==> row.batch in v.batches && v.batches[row.batch].contract == 0 && session.LegacyOpen()
  {
  }
}
