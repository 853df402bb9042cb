/** Which rows the guards of code batches, items, receipts, manifests and production batches
    let through, written out on the rows, with the stages of a batch as numbers. */
module CodeOutcomes {
  import opened Sql
  import opened CodeDelivery
  import opened CodeLaws
  import opened CodeProtocol
  import opened CodeStages
  import CodeRuns

  // ---------------------------------------------------------------------------
  // New code batches

  /** How many items such a batch is to have, if it may be generated at all. */
  function CountFor(row: CodeBatch): Option<int> {
    if row.quantity < 1 then None
    else if row.mode == BatchLevel then
      if row.source == Generated && row.kind == SingleCodes && row.quantity == 1 then Some(1) else None
    else if row.kind == SingleCodes then Some(row.quantity)
    else if row.source == Generated then Some(row.quantity + row.quantity)
    else None
  }

  /** A production batch in production whose expiry has not passed. */
  predicate MadeNow(v: Tables, today: int, production: Uuid) {
    && production in v.productions && v.productions[production].status == InProduction
    && today <= v.productions[production].expiryDate
  }

  /** No evidence of an export or a delivery yet. */
  predicate Bare(row: CodeBatch) {
    row.manifest.None? && row.exportedAt.None? && row.printingAt.None? && row.deliveredAt.None? && row.recipient.None?
  }

  /** A new batch is accepted if and only if it is under contract 1, pending or generating
      and without evidence, made for a batch in production, and expects the right number of
      items, at most ten thousand; a number left open is filled in. */
  lemma NewBatchAcceptedIff(v: Tables, x: Tx, today: int, id: Uuid, given: CodeBatch)
    requires id !in v.batches
    ensures PutBatchRow(v, x, today, id, given).Some?
            <==> && given.contract == 1 && Rank(given.status) in {0, 1} && Bare(given)
                 && MadeNow(v, today, given.production)
                 && CountFor(given).Some? && CountFor(given).value <= 10_000
                 && (given.expected.Some? ==> given.expected == CountFor(given))
    ensures PutBatchRow(v, x, today, id, given).Some? ==>
              PutBatchRow(v, x, today, id, given).value.tx
              == x.(batches := x.batches[id := given.(expected := CountFor(given))])
  {
  }

  // ---------------------------------------------------------------------------
  // Code batches that go on

  /** What a batch was generated from never changes. */
  predicate SameOrigin(before: CodeBatch, given: CodeBatch) {
    && given.production == before.production && given.batchCode == before.batchCode
    && given.quantity == before.quantity && given.kind == before.kind && given.mode == before.mode
    && given.source == before.source && given.createdBy == before.createdBy
    && (given.expected.Some? ==> given.expected == before.expected)
  }

  /** A manifest and a time of export from the fourth stage on, a time of printing from the
      fifth, a time and a recipient of the delivery from the sixth; none before. */
  predicate Evidenced(row: CodeBatch) {
    && (row.manifest.Some? <==> Rank(row.status) >= 3) && (row.exportedAt.Some? <==> Rank(row.status) >= 3)
    && (row.printingAt.Some? <==> Rank(row.status) >= 4)
    && (row.deliveredAt.Some? <==> Rank(row.status) >= 5) && (row.recipient.Some? <==> Rank(row.status) >= 5)
    && (row.recipient.Some? ==> exists i :: 0 <= i < |row.recipient.value| && row.recipient.value[i] != ' ')
  }

  /** In the order of the stages. */
  predicate Timed(row: CodeBatch) {
    && (row.exportedAt.Some? && row.printingAt.Some? ==> row.exportedAt.value <= row.printingAt.value)
    && (row.printingAt.Some? && row.deliveredAt.Some? ==> row.printingAt.value <= row.deliveredAt.value)
  }

  predicate NotEarlier(before: Option<int>, after: Option<int>) {
    before.Some? && after.Some? ==> before.value <= after.value
  }

  /** Once there is a manifest, it and its time stay, so does a recipient, and no other time
      goes back. */
  predicate Upheld(before: CodeBatch, row: CodeBatch) {
    before.manifest.Some? ==>
      && row.manifest == before.manifest && row.exportedAt == before.exportedAt
      && NotEarlier(before.printingAt, row.printingAt) && NotEarlier(before.deliveredAt, row.deliveredAt)
      && (before.recipient.Some? ==> row.recipient == before.recipient)
  }

  predicate InBatch(v: Tables, i: Uuid, id: Uuid) {
    i in v.items && v.items[i].batch == id
  }

  /** The item has exactly one partner under its pair id, of the other kind. */
  ghost predicate Partnered(v: Tables, id: Uuid, i: Uuid)
    requires i in v.items
  {
    && v.items[i].pair.Some? && v.items[i].kind != SingleItem
    && exists j :: InBatch(v, j, id) && v.items[j].pair == v.items[i].pair
                   && v.items[j].kind != SingleItem && v.items[j].kind != v.items[i].kind
                   && forall k :: InBatch(v, k, id) && v.items[k].pair == v.items[i].pair ==> k == i || k == j
  }

  /** Every item of the batch has been made and is in order, and a receipt is filed. */
  ghost predicate AllMade(v: Tables, id: Uuid, row: CodeBatch) {
    && (exists r :: r in v.receipts && v.receipts[r].codeBatch == Some(id) && v.receipts[r].createdBy == row.createdBy)
    && row.expected == Some(|set i | i in v.items && InBatch(v, i, id)|)
    && forall i :: InBatch(v, i, id) ==>
         && v.items[i].status == CreatedItem
         && if row.kind == PairedCodes then Partnered(v, id, i)
            else v.items[i].kind == SingleItem && v.items[i].pair.None?
  }

  /** The manifest is the finished, sealed export of this batch with all its items. */
  predicate Manifested(v: Tables, id: Uuid, row: CodeBatch) {
    && row.manifest.Some? && row.manifest.value in v.manifests
    && var m := v.manifests[row.manifest.value];
       && m.codeBatch == Some(id) && m.resource == Some(id) && m.codeCsv && m.completed && m.sealedArtifact
       && m.version.Some? && m.version.value >= 1 && m.rowCount.Some? && m.rowCount == row.expected
  }

  lemma TwoOfAPair(s: set<Uuid>, a: Uuid, b: Uuid)
    requires a in s && b in s && a != b && forall k :: k in s ==> k == a || k == b
    ensures |s| == 2
  {
    forall k ensures k in s <==> k in {a, b} {
    }
    assert s == {a, b};
  }

  lemma OnlyOne(s: set<Uuid>, a: Uuid)
    requires a in s && forall k :: k in s ==> k == a
    ensures |s| == 1
  {
    forall k ensures k in s <==> k in {a} {
    }
    assert s == {a};
  }

  lemma SomeOther(s: set<Uuid>, a: Uuid) returns (b: Uuid)
    requires |s| == 2 && a in s
    ensures b in s && b != a && forall k :: k in s ==> k == a || k == b
  {
    var rest := s - {a};
    assert |rest| == 1;
    if forall k :: k !in rest {
      assert false;
    }
    b :| b in rest;
    assert |rest - {b}| == 0;
    forall k | k in s ensures k == a || k == b {
      assert k !in rest - {b};
    }
  }

  /** The grouping query finds nothing wrong exactly when everybody has one partner. */
  lemma PairsIff(v: Tables, id: Uuid)
    ensures PairsComplete(v, id) <==> forall i :: InBatch(v, i, id) ==> Partnered(v, id, i)
  {
    if PairsComplete(v, id) {
      forall i | InBatch(v, i, id) ensures Partnered(v, id, i) {
        CompleteIsPartnered(v, id, i);
      }
    }
    if forall i :: InBatch(v, i, id) ==> Partnered(v, id, i) {
      forall i | i in v.items && v.items[i].batch == id
        ensures var p := v.items[i].pair;
                p.Some? && |GroupOf(v, id, p)| == 2 && |KindIn(v, id, p, OuterItem)| == 1
                && |KindIn(v, id, p, InnerItem)| == 1
      {
        assert InBatch(v, i, id);
        PartneredIsComplete(v, id, i);
      }
    }
  }

  lemma CompleteIsPartnered(v: Tables, id: Uuid, i: Uuid)
    requires InBatch(v, i, id) && PairsComplete(v, id)
    ensures Partnered(v, id, i)
  {
    var p := v.items[i].pair;
    var group, outer, inner := GroupOf(v, id, p), KindIn(v, id, p, OuterItem), KindIn(v, id, p, InnerItem);
    var o := One(outer);
    var n := One(inner);
    assert o in group && n in group && o != n;
    var j := SomeOther(group, i);
    assert InBatch(v, j, id);
    assert {o, n} == {i, j};
    forall k | InBatch(v, k, id) && v.items[k].pair == p ensures k == i || k == j {
      assert k in group;
    }
  }

  lemma One(s: set<Uuid>) returns (a: Uuid)
    requires |s| == 1
    ensures a in s
  {
    if forall k :: k !in s {
      assert false;
    }
    a :| a in s;
  }

  lemma PartneredIsComplete(v: Tables, id: Uuid, i: Uuid)
    requires InBatch(v, i, id) && Partnered(v, id, i)
    ensures var p := v.items[i].pair;
            && |GroupOf(v, id, p)| == 2
            && |KindIn(v, id, p, OuterItem)| == 1 && |KindIn(v, id, p, InnerItem)| == 1
  {
    var p := v.items[i].pair;
    var j :| InBatch(v, j, id) && v.items[j].pair == p && v.items[j].kind != SingleItem
             && v.items[j].kind != v.items[i].kind
             && forall k :: InBatch(v, k, id) && v.items[k].pair == p ==> k == i || k == j;
    forall k | k in GroupOf(v, id, p) ensures k == i || k == j {
      assert InBatch(v, k, id);
    }
    TwoOfAPair(GroupOf(v, id, p), i, j);
    var o, n := if v.items[i].kind == OuterItem then i else j, if v.items[i].kind == OuterItem then j else i;
    forall k | k in KindIn(v, id, p, OuterItem) ensures k == o {
      assert k in GroupOf(v, id, p);
    }
    forall k | k in KindIn(v, id, p, InnerItem) ensures k == n {
      assert k in GroupOf(v, id, p);
    }
    OnlyOne(KindIn(v, id, p, OuterItem), o);
    OnlyOne(KindIn(v, id, p, InnerItem), n);
  }

  lemma AllMadeIff(v: Tables, id: Uuid, row: CodeBatch)
    ensures AllMade(v, id, row) <==> GenerationComplete(v, id, row)
  {
    PairsIff(v, id);
    assert (set i | i in v.items && InBatch(v, i, id)) == ItemsOf(v, id);
    assert forall i :: i in ItemsOf(v, id) <==> InBatch(v, i, id);
  }

  /** What the stage a batch enters or is in asks of the rows around it. */
  ghost predicate StageReady(v: Tables, today: int, id: Uuid, before: CodeBatch, row: CodeBatch) {
    && (row.status != before.status ==> MadeNow(v, today, row.production))
    && (Rank(before.status) == 1 && Rank(row.status) == 2 ==> AllMade(v, id, row))
    && (Rank(row.status) >= 3 ==> Manifested(v, id, row))
    && (Rank(before.status) == 5 && Rank(row.status) == 6 ==>
          forall i :: InBatch(v, i, id) ==> v.items[i].status == ActivatedItem)
  }

  /** The number of items it expects is settled when the batch is made. */
  lemma OriginIff(before: CodeBatch, given: CodeBatch)
    requires before.contract == 1 && BatchChecks(before)
    ensures SameOrigin(before, given) <==> SameIdentity(before, FillExpected(given))
    ensures SameOrigin(before, given) ==> FillExpected(given) == given.(expected := before.expected)
  {
  }

  /** The guard alone asks for just the evidence of the stage. */
  lemma GuardWantsEvidence(row: CodeBatch)
    ensures MetadataFits(row) <==> Evidenced(row)
  {
  }

  /** The CHECKs alone ask of a contract-1 row for the right number of items, at most ten
      thousand, and of every row for times in order: none of printing without one of export,
      none of delivery without one of printing, and a recipient exactly with a delivery. */
  lemma ChecksWantOrder(row: CodeBatch)
    ensures BatchChecks(row)
            <==> && (row.contract == 0 || row.contract == 1)
                 && (row.contract == 1 ==>
                       row.expected.Some? && row.expected == CountFor(row) && row.expected.value <= 10_000)
                 && Timed(row)
                 && (row.printingAt.Some? ==> row.exportedAt.Some?) && (row.deliveredAt.Some? ==> row.printingAt.Some?)
                 && (row.deliveredAt.Some? <==> row.recipient.Some?)
                 && (row.recipient.Some? ==>
                       exists i :: 0 <= i < |row.recipient.value| && row.recipient.value[i] != ' ')
  {
  }

  lemma EvidencedIff(before: CodeBatch, given: CodeBatch, row: CodeBatch)
    requires before.contract == 1 && BatchChecks(before) && SameOrigin(before, given) && given.contract == 1
    requires row == given.(expected := before.expected)
    ensures MetadataFits(row) && BatchChecks(row) <==> Evidenced(row) && Timed(row)
  {
  }

  lemma UpheldIff(before: CodeBatch, row: CodeBatch)
    ensures EvidenceKept(before, row) <==> Upheld(before, row)
  {
  }

  lemma StageReadyIff(v: Tables, today: int, id: Uuid, before: CodeBatch, row: CodeBatch)
    requires before.contract == 1 && row.contract == 1 && row.expected.Some?
    ensures DeliveryGuard(v, today, id, Some(before), row)
            <==> && (row.status == before.status || NextStage(before.status, row.status))
                 && MetadataFits(row) && EvidenceKept(before, row) && StageReady(v, today, id, before, row)
  {
    AllMadeIff(v, id, row);
    assert forall i :: i in ItemsOf(v, id) <==> InBatch(v, i, id);
  }

  /** An update of a contract-1 batch is accepted if and only if it keeps contract and origin,
      stays in its stage or goes to the next one, carries the evidence of that stage in order
      and upholds what there was, and the rows around it are ready for the stage. */
  lemma BatchUpdateAcceptedIff(v: Tables, x: Tx, today: int, id: Uuid, given: CodeBatch)
    requires id in v.batches && v.batches[id].contract == 1 && BatchChecks(v.batches[id])
    requires v.batches[id].production in v.productions
    ensures var before := v.batches[id];
            var row := given.(expected := before.expected);
            && (PutBatchRow(v, x, today, id, given).Some?
                <==> && given.contract == 1 && SameOrigin(before, given)
                     && (given.status == before.status || NextStage(before.status, given.status))
                     && Evidenced(row) && Timed(row) && Upheld(before, row) && StageReady(v, today, id, before, row))
            && (PutBatchRow(v, x, today, id, given).Some? ==>
                  PutBatchRow(v, x, today, id, given).value.tx == x.(batches := x.batches[id := row]))
  {
    var before := v.batches[id];
    var row := given.(expected := before.expected);
    OriginIff(before, given);
    if SameOrigin(before, given) && given.contract == 1 {
      EvidencedIff(before, given, row);
      UpheldIff(before, row);
      StageReadyIff(v, today, id, before, row);
    }
  }

  /** A contract-0 batch is only ever written to take it under contract 1, on the way from
      completed to exported, with all that an exported batch needs. */
  lemma LegacyUpdateAcceptedIff(v: Tables, x: Tx, today: int, id: Uuid, given: CodeBatch)
    requires id in v.batches && v.batches[id].contract == 0 && given.production in v.productions
    ensures PutBatchRow(v, x, today, id, given).Some?
            <==> var before, row := v.batches[id], FillExpected(given);
                 && given.contract == 1 && before.status == Completed && given.status == Exported
                 && SameIdentity(before, row) && BatchChecks(row) && Evidenced(row) && Upheld(before, row)
                 && MadeNow(v, today, given.production) && Manifested(v, id, row)
  {
    var before, row := v.batches[id], FillExpected(given);
    UpheldIff(before, row);
  }

  /** The batch guard asks who writes only for rows that are and stay under contract 0, and
      lets those pass as they are while the rollout is not finalized, or for a privileged
      session; every other write it judges as it does the runtime's. */
  lemma LegacyGate(v: Tables, session: Session, today: int, id: Uuid, before: Option<CodeBatch>, given: CodeBatch)
    ensures given.contract == 0 && (before.None? || before.value.contract == 0) ==>
              BatchGuard(v, session, today, id, before, given)
              == if session.privileged || !session.finalized then Some(FillExpected(given)) else None
    ensures !(given.contract == 0 && (before.None? || before.value.contract == 0)) ==>
              BatchGuard(v, session, today, id, before, given) == BatchGuard(v, RUNTIME, today, id, before, given)
  {
  }

  /** The link guard lets a row pass if and only if its production batch is in production, or
      it stays with the one it had and is neither generated nor moved on. */
  lemma LinkPassesIff(v: Tables, today: int, before: Option<CodeBatch>, row: CodeBatch)
    ensures LinkGuard(v, today, before, row)
            <==> || MadeNow(v, today, row.production)
                 || (before.Some? && before.value.production == row.production
                     && (row.status == before.value.status || Rank(row.status) == 0 || Rank(row.status) == -1))
  {
  }

  // ---------------------------------------------------------------------------
  // Items

  /** The ways an item goes: made, activated, bound, expired; frozen out of use and thawed
      again; revoked from any of these but the last. */
  predicate ItemGoes(before: ItemStatus, after: ItemStatus) {
    (before, after) in {
      (CreatedItem, ActivatedItem), (ActivatedItem, BoundItem), (BoundItem, ExpiredItem),
      (ActivatedItem, FrozenItem), (BoundItem, FrozenItem), (FrozenItem, ActivatedItem),
      (CreatedItem, RevokedItem), (ActivatedItem, RevokedItem), (BoundItem, RevokedItem), (FrozenItem, RevokedItem)}
  }

  /** A single item has no pair id; an item of a pair has one and is its outer or inner. */
  predicate KindFits(batch: CodeBatch, row: CodeItem) {
    if batch.kind == PairedCodes then row.pair.Some? && (row.kind == OuterItem || row.kind == InnerItem)
    else row.pair.None? && row.kind == SingleItem
  }

  /** An item is added to a contract-1 batch if and only if the batch is generating, and the
      item is untouched and of the right kind. */
  lemma NewItemAcceptedIff(v: Tables, x: Tx, today: int, id: Uuid, row: CodeItem)
    requires id !in v.items
    ensures PutItemRow(v, x, today, id, row).Some?
            <==> && row.batch in v.batches && v.batches[row.batch].contract != 0
                 && v.batches[row.batch].status == Generating && row.status == CreatedItem
                 && KindFits(v.batches[row.batch], row)
    ensures PutItemRow(v, x, today, id, row).Some? ==>
              PutItemRow(v, x, today, id, row).value.tx == x.(items := x.items[id := row])
  {
  }

  /** An item goes on if and only if it stays what and where it is, takes one of these ways,
      its batch is delivered for a first activation and activated for binding and thawing,
      and its production batch is in production if it is to be in use. A first activation
      leaves a check for the end of the transaction. */
  lemma ItemUpdateAcceptedIff(v: Tables, x: Tx, today: int, id: Uuid, row: CodeItem)
    requires id in v.items
    ensures PutItemRow(v, x, today, id, row).Some?
            <==> && row.batch in v.batches && v.batches[row.batch].contract != 0
                 && var before, batch := v.items[id], v.batches[row.batch];
                    && row == before.(status := row.status)
                    && (row.status == before.status || ItemGoes(before.status, row.status))
                    && (before.status == CreatedItem && row.status == ActivatedItem ==> batch.status == Delivered)
                    && (before.status == ActivatedItem && row.status == BoundItem ==> batch.status == Activated)
                    && (before.status == FrozenItem && row.status == ActivatedItem ==> batch.status == Activated)
                    && (row.status == ActivatedItem || row.status == BoundItem ==> MadeNow(v, today, batch.production))
    ensures PutItemRow(v, x, today, id, row).Some? ==>
              PutItemRow(v, x, today, id, row).value.tx
              == x.(items := x.items[id := row],
                    pending := if v.items[id].status == CreatedItem && row.status == ActivatedItem
                               then x.pending + {id} else x.pending)
  {
  }

  // ---------------------------------------------------------------------------
  // Receipts, manifests and production batches

  /** A receipt is filed open, once, and then attached to a batch of the same maker, once. */
  lemma ReceiptAcceptedIff(v: Tables, x: Tx, today: int, id: Uuid, row: Receipt)
    requires x.freezing == {}
    ensures Execute(v, x, today, PutReceipt(id, row)).Some?
            <==> if id !in v.receipts then row.codeBatch.None?
                 else && v.receipts[id].codeBatch.None? && row.createdBy == v.receipts[id].createdBy
                      && row.codeBatch.Some? && row.codeBatch.value in v.batches
                      && v.batches[row.codeBatch.value].createdBy == row.createdBy
  {
  }

  /** A versioned code export is written once, for a completed batch, with the number of its
      items, finished and sealed, and never changed; other exports are free. */
  lemma ManifestAcceptedIff(v: Tables, x: Tx, id: Uuid, row: Manifest)
    ensures PutManifestRow(v, x, id, row).Some?
            <==> if id in v.manifests && v.manifests[id].version.Some? then row == v.manifests[id]
                 else row.codeCsv ==>
                   && row.version.Some? && row.version.value >= 1
                   && row.codeBatch.Some? && row.resource == row.codeBatch && row.completed && row.sealedArtifact
                   && row.codeBatch.value in v.batches && v.batches[row.codeBatch.value].status == Completed
                   && row.rowCount.Some? && row.rowCount == v.batches[row.codeBatch.value].expected
    ensures PutManifestRow(v, x, id, row).Some? ==>
              PutManifestRow(v, x, id, row).value.tx == x.(manifests := x.manifests[id := row])
  {
  }

  /** Some character of the text is not a space. */
  predicate Says(text: string) {
    exists i :: 0 <= i < |text| && text[i] != ' '
  }

  /** A production batch is recalled with a reason, once, from production, and its recall is
      never changed; a recalled or expired one stays as it is. A recall puts the code
      batches made for it before the loop that freezes their items. */
  lemma ProductionAcceptedIff(v: Tables, x: Tx, id: Uuid, row: ProductionBatch)
    ensures PutProductionRow(v, x, id, row).Some?
            <==> && (row.status == Recalled ==> row.recall.Some? && Says(row.recall.value.reason))
                 && (row.status != Recalled ==> row.recall.None?)
                 && (id in v.productions ==>
                       var before := v.productions[id];
                       if before.status == InProduction
                       then row.status == Recalled || (row.status == InProduction && row.recall == before.recall)
                       else row == before)
    ensures PutProductionRow(v, x, id, row).Some? ==>
              var recalled := id in v.productions && v.productions[id].status == InProduction && row.status == Recalled;
              PutProductionRow(v, x, id, row).value.tx
              == x.(productions := x.productions[id := row],
                    freezing := if recalled then set b | b in v.batches && v.batches[b].production == id else {})
  {
  }

  // ---------------------------------------------------------------------------
  // Locks and the recall under way

  /** What an accepted statement locks: a batch write its batch alone, and its production
      batch shared when the batch is new or changes status or contract; an item write the
      batch alone, and the production batch shared for an item in use; a manifest its batch
      shared; a production write the production batch alone. */
  lemma StatementLocks(v: Tables, x: Tx, today: int, s: Statement)
    requires Execute(v, x, today, s).Some?
    ensures var e := Execute(v, x, today, s).value;
            match s
            case PutBatch(id, given) =>
              && e.batch == Some((id, true))
              && e.production == if id in v.batches && given.status == v.batches[id].status
                                    && given.contract == v.batches[id].contract
                                 then None else Some((given.production, false))
            case PutItem(id, row) =>
              && e.batch == Some((row.batch, true)) && row.batch in v.batches
              && e.production == if row.status == ActivatedItem || row.status == BoundItem
                                 then Some((v.batches[row.batch].production, false)) else None
            case PutManifest(id, row) =>
              && e.production == None
              && e.batch == if row.codeCsv && row.codeBatch.Some? then Some((row.codeBatch.value, false)) else None
            case PutReceipt(_, _) => e.batch == None && e.production == None
            case PutProduction(id, _) => e.batch == None && e.production == Some((id, true))
            case FreezeNext(id) => e.batch == Some((id, true)) && e.production == None
  {
  }

  /** While a recall has batches to freeze its transaction does nothing else. It freezes the
      items in use of one of them at a time, all of them and no others, unless the batch is
      under contract 0 and has such an item. */
  lemma FreezingGoesFirst(v: Tables, x: Tx, today: int, s: Statement)
    requires x.freezing != {} && forall b :: b in v.batches ==> v.batches[b].contract in {0, 1}
    ensures !s.FreezeNext? ==> Execute(v, x, today, s) == None
    ensures s.FreezeNext? ==>
              (Execute(v, x, today, s).Some?
               <==> && s.id in x.freezing && s.id in v.batches
                    && (v.batches[s.id].contract == 1 || forall i :: InBatch(v, i, s.id) ==> !InUse(v.items[i])))
    ensures s.FreezeNext? && Execute(v, x, today, s).Some? ==>
              var u := Execute(v, x, today, s).value.tx;
              && u.freezing == x.freezing - {s.id} && u.pending == x.pending
              && u.batches == x.batches && u.productions == x.productions
              && forall i ::
                   && (i in u.items <==> i in x.items || (InBatch(v, i, s.id) && InUse(v.items[i])))
                   && (i in u.items ==>
                         u.items[i] == if InBatch(v, i, s.id) && InUse(v.items[i])
                                       then v.items[i].(status := FrozenItem) else x.items[i])
  {
    if s.FreezeNext? && s.id in v.batches {
      RecallBlockedByLegacyItems(v, s.id);
      forall i ensures i in Frozen(v, s.id) <==> InBatch(v, i, s.id) && InUse(v.items[i]) {
      }
    }
  }

  predicate InUse(row: CodeItem) {
    row.status == ActivatedItem || row.status == BoundItem
  }

  /** A row can be locked if nobody has, for sharing also if others only share it, and alone
      if nobody else does. */
  predicate MayLock(locks: map<Uuid, Lock>, row: Uuid, tx: Uuid, alone: bool) {
    row in locks ==>
      if locks[row].Exclusive? then locks[row].holder == tx
      else !alone || forall other :: other in locks[row].holders ==> other == tx
  }

  /** Some row is written by both. */
  ghost predicate Collide(x: Tx, y: Tx) {
    || (exists k :: k in x.productions && k in y.productions) || (exists k :: k in x.batches && k in y.batches)
    || (exists k :: k in x.items && k in y.items) || (exists k :: k in x.manifests && k in y.manifests)
    || (exists k :: k in x.receipts && k in y.receipts)
  }

  lemma KeysApartIff<V>(a: map<Uuid, V>, b: map<Uuid, V>)
    ensures a.Keys !! b.Keys <==> forall k :: k in a ==> k !in b
  {
    if forall k :: k in a ==> k !in b {
      forall k | k in a.Keys ensures k !in b.Keys {
      }
    }
    if a.Keys !! b.Keys {
      forall k | k in a ensures k !in b {
        assert k in a.Keys;
      }
    }
  }

  lemma CollideIff(x: Tx, y: Tx)
    ensures Collide(x, y) <==> !RowsApart(x, y)
  {
    KeysApartIff(x.productions, y.productions);
    KeysApartIff(x.batches, y.batches);
    KeysApartIff(x.items, y.items);
    KeysApartIff(x.manifests, y.manifests);
    KeysApartIff(x.receipts, y.receipts);
  }

  lemma MayLockIff(locks: map<Uuid, Lock>, row: Uuid, tx: Uuid, alone: bool)
    ensures Grantable(locks, row, tx, alone) <==> MayLock(locks, row, tx, alone)
  {
    if row in locks && locks[row].Shared? {
      var holders := locks[row].holders;
      if forall other :: other in holders ==> other == tx {
        assert forall other :: other in holders ==> other in {tx};
      }
      if holders <= {tx} {
        assert forall other :: other in holders ==> other in {tx};
      }
    }
  }

  /** In every reachable state no row is written by two running transactions. */
  lemma RowsHaveOneWriter(s: State, x: Uuid, y: Uuid)
    requires CodeRuns.Inv(s) && x in s.txs && y in s.txs && x != y
    ensures !Collide(s.txs[x], s.txs[y])
  {
    CollideIff(s.txs[x], s.txs[y]);
  }

  /** A statement runs if and only if its guards let it, the rows it locks may be locked, and
      it writes no row another running transaction has written. */
  lemma StatementTakesIff(s: State, tx: Uuid, today: int, statement: Statement)
    requires tx in s.txs
    ensures Next(s, Run(tx, today, statement)).Some?
            <==> var e := Execute(View(s.db, s.txs[tx]), s.txs[tx], today, statement);
                 && e.Some?
                 && (e.value.production.Some? ==>
                       MayLock(s.productionLocks, e.value.production.value.0, tx, e.value.production.value.1))
                 && (e.value.batch.Some? ==> MayLock(s.batchLocks, e.value.batch.value.0, tx, e.value.batch.value.1))
                 && forall other :: other in s.txs && other != tx ==> !Collide(e.value.tx, s.txs[other])
  {
    forall x, y ensures Collide(x, y) <==> !RowsApart(x, y) {
      CollideIff(x, y);
    }
    forall locks, row, alone ensures Grantable(locks, row, tx, alone) <==> MayLock(locks, row, tx, alone) {
      MayLockIff(locks, row, tx, alone);
    }
  }

  /** A commit goes through if and only if no batch is left to freeze and every first
      activation's batch, seen from it, is activated. */
  lemma CommitTakesIff(s: State, tx: Uuid)
    requires tx in s.txs
    ensures Next(s, Commit(tx)).Some?
            <==> && s.txs[tx].freezing == {}
                 && var v := View(s.db, s.txs[tx]);
                    forall i :: i in s.txs[tx].pending && i in v.items ==>
                      v.items[i].batch in v.batches && v.batches[v.items[i].batch].status == Activated
    ensures Next(s, Commit(tx)).Some? ==>
              Next(s, Commit(tx)).value.db == View(s.db, s.txs[tx]) && Next(s, Commit(tx)).value.txs == s.txs - {tx}
    ensures Next(s, Abort(tx)).Some?
    ensures Next(s, Abort(tx)).value.db == s.db && Next(s, Abort(tx)).value.txs == s.txs - {tx}
  {
  }
}
