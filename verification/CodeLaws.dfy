/** What each accepted write keeps true of one consistent view of the code tables:
    item counts and pairing, export evidence, all-or-nothing activation, recall. */
module CodeLaws {
  import opened Sql
  import opened CodeDelivery

  predicate Finished(status: BatchStatus) {
    status == Completed || Shipped(status)
  }

  /** Foreign keys. */
  ghost predicate Linked(v: Tables) {
    && v.legacy <= v.batches.Keys
    && (forall i :: i in v.items ==> v.items[i].batch in v.batches)
    && (forall b :: b in v.batches ==> v.batches[b].production in v.productions)
  }

  /** Batches outside the legacy set were born under contract 1 and stay under it. */
  ghost predicate Contracted(v: Tables) {
    forall b :: b in v.batches && b !in v.legacy ==>
      v.batches[b].contract == 1 && BatchChecks(v.batches[b]) && MetadataFits(v.batches[b])
  }

  ghost predicate CountOk(v: Tables, b: Uuid)
    requires b in v.batches
  {
    Finished(v.batches[b].status) ==>
      && Some(|ItemsOf(v, b)|) == v.batches[b].expected
      && (v.batches[b].kind == PairedCodes ==> PairsComplete(v, b))
  }

  ghost predicate EvidenceOk(v: Tables, b: Uuid)
    requires b in v.batches
  {
    v.batches[b].contract == 1 && Shipped(v.batches[b].status) ==> ManifestValid(v, b, v.batches[b])
  }

  /** Before activation only created and revoked items, apart from those whose
      deferred check is still pending; after it, no created item. */
  ghost predicate ActivationOk(v: Tables, b: Uuid, pending: set<Uuid>)
    requires b in v.batches
  {
    forall i :: i in v.items && v.items[i].batch == b ==>
      if v.batches[b].status == Activated then v.items[i].status != CreatedItem
      else v.items[i].status in {CreatedItem, RevokedItem} || i in pending
  }

  /** No active item under a recalled production batch, apart from code batches the
      running freeze loop has still to visit. */
  ghost predicate RecallOk(v: Tables, b: Uuid, freezing: set<Uuid>)
    requires b in v.batches && v.batches[b].production in v.productions
  {
    v.productions[v.batches[b].production].status == Recalled && b !in freezing ==>
      forall i :: i in v.items && v.items[i].batch == b ==> !ActiveItem(v.items[i])
  }

  ghost predicate BatchOk(v: Tables, b: Uuid, pending: set<Uuid>, freezing: set<Uuid>)
    requires Linked(v) && b in v.batches
  {
    && EvidenceOk(v, b) && RecallOk(v, b, freezing)
    && (b !in v.legacy ==> CountOk(v, b) && ActivationOk(v, b, pending))
  }

  ghost predicate Good(v: Tables, pending: set<Uuid>, freezing: set<Uuid>) {
    && Linked(v) && Contracted(v)
    && forall b :: b in v.batches ==> BatchOk(v, b, pending, freezing)
  }

  // ---------------------------------------------------------------------------
  // A batch is fine as long as its own slice of the tables is

  /** The batch row and its items are the same in both views. */
  ghost predicate SameSlice(v: Tables, w: Tables, b: Uuid) {
    && b in v.batches && b in w.batches && w.batches[b] == v.batches[b]
    && (forall i :: i in v.items && v.items[i].batch == b ==> i in w.items && w.items[i] == v.items[i])
    && (forall i :: i in w.items && w.items[i].batch == b ==> i in v.items && v.items[i].batch == b)
  }

  /** Versioned manifests are never changed or removed. */
  ghost predicate ManifestsKept(v: Tables, w: Tables) {
    forall m ::
        m in v.manifests && v.manifests[m].version.Some? ==> m in w.manifests && w.manifests[m] == v.manifests[m]
  }

  /** Items may have moved on, but their number, kinds and pairs have not. */
  ghost predicate SameShape(v: Tables, w: Tables, b: Uuid) {
    && (forall i :: i in v.items && v.items[i].batch == b ==>
          i in w.items && w.items[i].batch == b && w.items[i].kind == v.items[i].kind
              && w.items[i].pair == v.items[i].pair)
    && (forall i :: i in w.items && w.items[i].batch == b ==> i in v.items && v.items[i].batch == b)
  }

  lemma ShapeKeepsCounts(v: Tables, w: Tables, b: Uuid)
    requires SameShape(v, w, b)
    ensures ItemsOf(w, b) == ItemsOf(v, b)
    ensures PairsComplete(v, b) ==> PairsComplete(w, b)
  {
    forall i ensures i in ItemsOf(w, b) <==> i in ItemsOf(v, b) {}
    forall p ensures GroupOf(w, b, p) == GroupOf(v, b, p) {
      forall i ensures i in GroupOf(w, b, p) <==> i in GroupOf(v, b, p) {}
    }
    forall p, k ensures KindIn(w, b, p, k) == KindIn(v, b, p, k) {
      forall i ensures i in KindIn(w, b, p, k) <==> i in KindIn(v, b, p, k) {}
    }
  }

  lemma SliceKeepsBatch(v: Tables, w: Tables, b: Uuid, pending: set<Uuid>, freezing: set<Uuid>)
    requires Linked(v) && Linked(w) && w.legacy == v.legacy
    requires SameSlice(v, w, b) && ManifestsKept(v, w)
    requires EvidenceOk(v, b) && (b !in v.legacy ==> CountOk(v, b) && ActivationOk(v, b, pending))
    requires RecallOk(w, b, freezing)
    ensures BatchOk(w, b, pending, freezing)
  {
    ShapeKeepsCounts(v, w, b);
    if v.batches[b].contract == 1 && Shipped(v.batches[b].status) {
      assert ManifestValid(v, b, v.batches[b]);
      var m := v.batches[b].manifest.value;
      assert m in v.manifests;
      assert v.manifests[m].version.Some?;
      assert m in w.manifests;
    }
  }

  // ---------------------------------------------------------------------------
  // Accepted writes

  /** Writing one code batch. */
  lemma BatchWriteKeepsGood(v: Tables, today: int, id: Uuid, given: CodeBatch, row: CodeBatch,
                            pending: set<Uuid>, freezing: set<Uuid>)
    requires Good(v, pending, freezing)
    requires BatchGuard(v, RUNTIME, today, id, Lookup(v.batches, id), given) == Some(row)
    requires LinkGuard(v, today, Lookup(v.batches, id), row) && BatchChecks(row) && row.production in v.productions
    ensures Good(v.(batches := v.batches[id := row]), pending, freezing)
  {
    var w := v.(batches := v.batches[id := row]);
    assert row.contract == 1;
    forall b | b in w.batches ensures BatchOk(w, b, pending, freezing) {
      if b != id {
        assert BatchOk(v, b, pending, freezing);
        SliceKeepsBatch(v, w, b, pending, freezing);
      } else {
        BatchRowStaysOk(v, w, today, id, row, pending, freezing);
      }
    }
  }

  lemma BatchRowStaysOk(v: Tables, w: Tables, today: int, id: Uuid, row: CodeBatch, pending: set<Uuid>,
        freezing: set<Uuid>)
    requires Good(v, pending, freezing) && w == v.(batches := v.batches[id := row]) && Linked(w)
    requires DeliveryGuard(v, today, id, Lookup(v.batches, id), row)
    requires id in v.batches ==> SameIdentity(v.batches[id], row)
    ensures BatchOk(w, id, pending, freezing)
  {
    assert SameShape(v, w, id);
    ShapeKeepsCounts(v, w, id);
    if id in v.batches {
      assert BatchOk(v, id, pending, freezing);
    } else {
      assert forall i :: i in v.items ==> v.items[i].batch != id;
    }
  }

  /** Writing one code item. A first activation leaves a deferred check pending. */
  lemma ItemWriteKeepsGood(v: Tables, today: int, id: Uuid, row: CodeItem, pending: set<Uuid>, pending': set<Uuid>,
                           freezing: set<Uuid>)
    requires Good(v, pending, freezing)
    requires ItemGuard(v, RUNTIME, Lookup(v.items, id), row) && ItemActiveGuard(v, today, row)
    requires pending' == if id in v.items && v.items[id].status == CreatedItem && row.status == ActivatedItem
                         then pending + {id} else pending
    ensures Good(v.(items := v.items[id := row]), pending', freezing)
  {
    var w := v.(items := v.items[id := row]);
    forall b | b in w.batches ensures BatchOk(w, b, pending', freezing) {
      assert BatchOk(v, b, pending, freezing);
      if b != row.batch {
        assert SameSlice(v, w, b);
        SliceKeepsBatch(v, w, b, pending, freezing);
      } else {
        ItemWriteKeepsItsBatch(v, today, id, row, pending, pending', freezing);
      }
    }
  }

  lemma ItemWriteKeepsItsBatch(v: Tables, today: int, id: Uuid, row: CodeItem, pending: set<Uuid>, pending': set<Uuid>,
                               freezing: set<Uuid>)
    requires Good(v, pending, freezing)
    requires ItemGuard(v, RUNTIME, Lookup(v.items, id), row) && ItemActiveGuard(v, today, row)
    requires pending' == if id in v.items && v.items[id].status == CreatedItem && row.status == ActivatedItem
                         then pending + {id} else pending
    requires Linked(v.(items := v.items[id := row]))
    ensures BatchOk(v.(items := v.items[id := row]), row.batch, pending', freezing)
  {
    var w := v.(items := v.items[id := row]);
    assert BatchOk(v, row.batch, pending, freezing);
    if id in v.items {
      assert SameShape(v, w, row.batch);
      ShapeKeepsCounts(v, w, row.batch);
    }
  }

  /** Writing a manifest or a receipt. */
  lemma EvidenceWriteKeepsGood(v: Tables, w: Tables, pending: set<Uuid>, freezing: set<Uuid>)
    requires Good(v, pending, freezing) && w == v.(manifests := w.manifests, receipts := w.receipts)
        && ManifestsKept(v, w)
    ensures Good(w, pending, freezing)
  {
    forall b | b in w.batches ensures BatchOk(w, b, pending, freezing) {
      assert BatchOk(v, b, pending, freezing);
      SliceKeepsBatch(v, w, b, pending, freezing);
    }
  }

  function BatchesOf(v: Tables, production: Uuid): set<Uuid> {
    set b | b in v.batches && v.batches[b].production == production
  }

  /** Marking a production batch recalled puts all its code batches before the loop. */
  lemma RecallKeepsGood(v: Tables, production: Uuid, row: ProductionBatch, pending: set<Uuid>, freezing: set<Uuid>)
    requires Good(v, pending, freezing) && production in v.productions
    ensures Good(v.(productions := v.productions[production := row]), pending, freezing + BatchesOf(v, production))
  {
    var w := v.(productions := v.productions[production := row]);
    forall b | b in w.batches ensures BatchOk(w, b, pending, freezing + BatchesOf(v, production)) {
      assert BatchOk(v, b, pending, freezing);
      SliceKeepsBatch(v, w, b, pending, freezing + BatchesOf(v, production));
    }
  }

  /** Any other accepted production write leaves recall safety as it is. */
  lemma ProductionWriteKeepsGood(v: Tables, production: Uuid, row: ProductionBatch, pending: set<Uuid>,
        freezing: set<Uuid>)
    requires Good(v, pending, freezing)
    requires production in v.productions ==> v.productions[production].status == row.status
    ensures Good(v.(productions := v.productions[production := row]), pending, freezing)
  {
    var w := v.(productions := v.productions[production := row]);
    forall b | b in w.batches ensures BatchOk(w, b, pending, freezing) {
      assert BatchOk(v, b, pending, freezing);
      SliceKeepsBatch(v, w, b, pending, freezing);
    }
  }

  /** The items the freeze loop updates in one code batch. */
  function Frozen(v: Tables, batch: Uuid): map<Uuid, CodeItem> {
    map i | i in v.items && v.items[i].batch == batch && ActiveItem(v.items[i]) :: v.items[i].(status := FrozenItem)
  }

  /** The inner loop runs through its item updates unless the item guard stops one. */
  predicate CanFreeze(v: Tables, session: Session, batch: Uuid) {
    forall i :: i in Frozen(v, batch) ==> ItemGuard(v, session, Some(v.items[i]), Frozen(v, batch)[i])
  }

  lemma FreezeKeepsGood(v: Tables, batch: Uuid, pending: set<Uuid>, freezing: set<Uuid>)
    requires Good(v, pending, freezing) && CanFreeze(v, RUNTIME, batch)
    ensures Good(v.(items := v.items + Frozen(v, batch)), pending, freezing - {batch})
  {
    var w := v.(items := v.items + Frozen(v, batch));
    forall b | b in w.batches ensures BatchOk(w, b, pending, freezing - {batch}) {
      assert BatchOk(v, b, pending, freezing);
      if b != batch {
        assert SameSlice(v, w, b);
        SliceKeepsBatch(v, w, b, pending, freezing - {batch});
      } else {
        assert SameShape(v, w, b);
        ShapeKeepsCounts(v, w, b);
        if b !in v.legacy {
          FrozenStaysActivationOk(v, w, batch, pending);
        }
      }
    }
  }

  lemma FrozenStaysActivationOk(v: Tables, w: Tables, batch: Uuid, pending: set<Uuid>)
    requires batch in v.batches && w == v.(items := v.items + Frozen(v, batch)) && ActivationOk(v, batch, pending)
    ensures ActivationOk(w, batch, pending)
  {
    forall i | i in w.items && w.items[i].batch == batch
      ensures if w.batches[batch].status == Activated then w.items[i].status != CreatedItem
              else w.items[i].status in {CreatedItem, RevokedItem} || i in pending
    {
      assert i in v.items && v.items[i].batch == batch;
    }
  }

  /** For the runtime session the loop gets through a code batch exactly when it is
      under contract 1 or has no active item: an active item of a contract-0 batch
      makes the whole recall fail. */
  lemma RecallBlockedByLegacyItems(v: Tables, batch: Uuid)
    requires batch in v.batches && v.batches[batch].contract in {0, 1}
    ensures CanFreeze(v, RUNTIME, batch) <==> v.batches[batch].contract == 1 || Frozen(v, batch) == map[]
  {
    if forall i :: i !in Frozen(v, batch) {
      assert Frozen(v, batch) == map[];
    }
  }

  /** Committing evaluates the deferred checks and ends the loop: the view is good
      with nothing pending. */
  lemma CommitSettles(v: Tables, pending: set<Uuid>)
    requires Good(v, pending, {})
    requires forall i :: i in pending && i in v.items ==>
               v.items[i].batch in v.batches && v.batches[v.items[i].batch].status == Activated
    ensures Good(v, {}, {})
  {
    forall b | b in v.batches ensures BatchOk(v, b, {}, {}) {
      assert BatchOk(v, b, pending, {});
    }
  }

  // ---------------------------------------------------------------------------
  // Pairing

  function PairIds(v: Tables, items: set<Uuid>): set<Option<Uuid>> {
    set i | i in items && i in v.items :: v.items[i].pair
  }

  /** A finished paired batch splits into exactly `quantity` pairs, each of one outer
      and one inner item. */
  lemma PairsSplitExactly(v: Tables, b: Uuid)
    requires b in v.batches && v.batches[b].contract == 1 && BatchChecks(v.batches[b]) && CountOk(v, b)
    requires Finished(v.batches[b].status) && v.batches[b].kind == PairedCodes
    ensures |PairIds(v, ItemsOf(v, b))| == v.batches[b].quantity
    ensures forall p :: p in PairIds(v, ItemsOf(v, b)) ==>
              |GroupOf(v, b, p)| == 2 && |KindIn(v, b, p, OuterItem)| == 1 && |KindIn(v, b, p, InnerItem)| == 1
  {
    TwoPerPair(v, b, ItemsOf(v, b));
  }

  lemma {:induction false} TwoPerPair(v: Tables, b: Uuid, items: set<Uuid>)
    requires PairsComplete(v, b) && items <= ItemsOf(v, b)
    requires forall i :: i in items ==> GroupOf(v, b, v.items[i].pair) <= items
    ensures |items| == 2 * |PairIds(v, items)|
    decreases |items|
  {
    if forall i :: i !in items {
      assert items == {};
    } else {
      var i :| i in items;
      var p := v.items[i].pair;
      var group := GroupOf(v, b, p);
      var rest := items - group;
      assert i in group;
      assert items == rest + group && rest !! group;
      forall j | j in rest ensures GroupOf(v, b, v.items[j].pair) <= rest {
        assert v.items[j].pair != p;
      }
      assert |group| == 2;
      TwoPerPair(v, b, rest);
      assert PairIds(v, items) == PairIds(v, rest) + {p};
      assert p !in PairIds(v, rest);
    }
  }
}
