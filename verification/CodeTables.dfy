/** The code tables updated in place: the batch guard, which completes the row it is
    given before judging it, and the recall, whose nested loops freeze item rows one by
    one inside a single statement. */
module CodeTables {
  import opened Sql
  import opened CodeDelivery
  import opened CodeLaws

  /** Every item a recall of the production batch has to freeze. */
  function FrozenUnder(v: Tables, production: Uuid): map<Uuid, CodeItem> {
    map i | i in v.items && v.items[i].batch in BatchesOf(v, production) && ActiveItem(v.items[i])
      :: v.items[i].(status := FrozenItem)
  }

  predicate CanRecall(v: Tables, session: Session, production: Uuid, recall: Recall) {
    && production in v.productions && v.productions[production].status == InProduction && !Blank(recall.reason)
    && forall b :: b in BatchesOf(v, production) ==> CanFreeze(v, session, b)
  }

  class Store {
    const legacy: set<Uuid>
    var productions: map<Uuid, ProductionBatch>
    var batches: map<Uuid, CodeBatch>
    var items: map<Uuid, CodeItem>
    var manifests: map<Uuid, Manifest>
    var receipts: map<Uuid, Receipt>

    constructor (v: Tables)
      ensures Contents() == v
    {
      legacy, productions, batches, items := v.legacy, v.productions, v.batches, v.items;
      manifests, receipts := v.manifests, v.receipts;
    }

    function Contents(): (v: Tables)
      reads this
    {
      Tables(legacy, productions, batches, items, manifests, receipts)
    }

    /** A missing expected count is completed from the generation columns. */
    method CompleteCount(given: CodeBatch) returns (row: CodeBatch)
      ensures row == FillExpected(given)
    {
      row := given;
      if row.expected.None? {
        if row.mode == BatchLevel {
          row := row.(expected := Some(1));
        } else if row.kind == PairedCodes {
          row := row.(expected := Some(row.quantity * 2));
        } else {
          row := row.(expected := Some(row.quantity));
        }
      }
    }

    /** The tests of the batch guard on a completed row, in their order. */
    method JudgeBatch(session: Session, today: int, id: Uuid, before: Option<CodeBatch>, row: CodeBatch)
          returns (ok: bool)
      requires row.expected.Some?
      ensures ok <==> BatchGuard(Contents(), session, today, id, before, row) == Some(row)
      ensures !ok ==> BatchGuard(Contents(), session, today, id, before, row) == None
    {
      if row.contract == 0 && (before.None? || before.value.contract == 0) {
        return session.LegacyOpen();
      }
      if before.Some? {
        if !SameIdentity(before.value, row) || (before.value.contract == 1 && row.contract != 1) {
          return false;
        }
        if before.value.contract == 0 && row.contract == 1
           && !(before.value.status == Completed && row.status == Exported) {
          return false;
        }
      }
      ok := DeliveryGuard(Contents(), today, id, before, row);
    }

    /** INSERT or UPDATE of a code batch under the batch guard and the CHECKs. */
    method PutBatch(session: Session, today: int, id: Uuid, given: CodeBatch) returns (ok: bool)
      modifies this`batches
      ensures var v := old(Contents());
              var row := BatchGuard(v, session, today, id, Lookup(v.batches, id), given);
              && ok == (row.Some? && BatchChecks(row.value) && LinkGuard(v, today, Lookup(v.batches, id), row.value)
                        && row.value.production in v.productions)
              && Contents() == if ok then v.(batches := v.batches[id := row.value]) else v
    {
      var row := CompleteCount(given);
      var before := Lookup(batches, id);
      ok := JudgeBatch(session, today, id, before, row);
      if !ok || !BatchChecks(row) || !LinkGuard(Contents(), today, before, row) || row.production !in productions {
        return false;
      }
      batches := batches[id := row];
    }

    /** The recall of a production batch. Marking it recalled runs the freeze loop over
        its code batches; a refused item update undoes the whole statement. */
    method RecallProduction(session: Session, id: Uuid, recall: Recall) returns (ok: bool)
      modifies this`productions, this`items
      ensures var v := old(Contents());
              && ok == CanRecall(v, session, id, recall)
              && Contents() == if !ok then v
                 else v.(productions :=
                           v.productions[id := v.productions[id].(status := Recalled, recall := Some(recall))],
                         items := v.items + FrozenUnder(v, id))
    {
      if id !in productions || productions[id].status != InProduction || Blank(recall.reason) {
        return false;
      }
      ghost var v := Contents();
      var wasProductions, wasItems := productions, items;
      productions := productions[id := productions[id].(status := Recalled, recall := Some(recall))];
      var left := BatchesOf(Contents(), id);
      assert left == BatchesOf(v, id);
      while left != {}
        invariant left <= BatchesOf(v, id)
        invariant Contents() == v.(productions := productions, items := items)
        invariant productions == v.productions[id := v.productions[id].(status := Recalled, recall := Some(recall))]
        invariant FrozenBeyond(v, id, left, items)
        invariant forall b :: b in BatchesOf(v, id) - left ==> CanFreeze(v, session, b)
        decreases |left|
      {
        if forall b :: b !in left {
          assert false;
        }
        var b :| b in left;
        ok := FreezeBatch(session, v, id, left, b);
        if !ok {
          productions, items := wasProductions, wasItems;
          return false;
        }
        left := left - {b};
      }
      AllFrozen(v, id, items);
      return true;
    }

    /** One update of the loop, behind the item guard. */
    method FreezeItem(session: Session, ghost v: Tables, i: Uuid) returns (ok: bool)
      requires i in items && Contents() == v.(productions := productions, items := items)
      modifies this`items
      ensures Contents() == v.(productions := productions, items := items)
      ensures ok == ItemGuard(v, session, Some(old(items)[i]), old(items)[i].(status := FrozenItem))
      ensures items == if ok then old(items)[i := old(items)[i].(status := FrozenItem)] else old(items)
    {
      var row := items[i].(status := FrozenItem);
      GuardIgnoresFreezing(v, productions, items, session, Some(items[i]), row);
      ok := ItemGuard(Contents(), session, Some(items[i]), row);
      if ok { items := items[i := row]; }
    }

    /** The inner loop, over the active items of one code batch. */
    method FreezeBatch(session: Session, ghost v: Tables, ghost production: Uuid, ghost left: set<Uuid>, b: Uuid)
      returns (ok: bool)
      requires b in left && left <= BatchesOf(v, production)
      requires Contents() == v.(productions := productions, items := items) && FrozenBeyond(v, production, left, items)
      modifies this`items
      ensures ok == CanFreeze(v, session, b)
      ensures Contents() == v.(productions := productions, items := items)
      ensures ok ==> FrozenBeyond(v, production, left - {b}, items)
    {
      var todo := set i | i in items && items[i].batch == b && ActiveItem(items[i]);
      UntouchedBatch(v, production, left, items, b);
      while todo != {}
        invariant todo <= Frozen(v, b).Keys
        invariant Contents() == v.(productions := productions, items := items)
        invariant FrozenExcept(v, production, left - {b}, todo, items)
        invariant forall i :: i in Frozen(v, b).Keys - todo ==> ItemGuard(v, session, Some(v.items[i]), Frozen(v, b)[i])
        decreases |todo|
      {
        if forall i :: i !in todo {
          assert false;
        }
        var i :| i in todo;
        FreezeOne(v, production, left, b, todo, items, i);
        ok := FreezeItem(session, v, i);
        if !ok { return; }
        todo := todo - {i};
      }
      return true;
    }
  }

  /** The items once the freeze loop has every code batch but those of `left` behind it. */
  ghost predicate FrozenBeyond(v: Tables, production: Uuid, left: set<Uuid>, items: map<Uuid, CodeItem>) {
    FrozenExcept(v, production, left, {}, items)
  }

  /** The same in the middle of a code batch, with the items of `todo` still to do. */
  ghost predicate FrozenExcept(
      v: Tables, production: Uuid, left: set<Uuid>, todo: set<Uuid>, items: map<Uuid, CodeItem>)
  {
    && items.Keys == v.items.Keys
    && forall i :: i in items ==>
         items[i] == if i in FrozenUnder(v, production) && v.items[i].batch !in left && i !in todo
                     then FrozenUnder(v, production)[i] else v.items[i]
  }

  /** The item guard reads the code batch only, which the recall does not touch. */
  lemma GuardIgnoresFreezing(v: Tables, productions: map<Uuid, ProductionBatch>, items: map<Uuid, CodeItem>,
                             session: Session, before: Option<CodeItem>, row: CodeItem)
    ensures ItemGuard(v.(productions := productions, items := items), session, before, row)
            == ItemGuard(v, session, before, row)
  {
  }

  /** One turn of the inner loop. */
  lemma FreezeOne(v: Tables, production: Uuid, left: set<Uuid>, b: Uuid, todo: set<Uuid>, items: map<Uuid, CodeItem>,
        i: Uuid)
    requires b in left && left <= BatchesOf(v, production) && i in todo && todo <= Frozen(v, b).Keys
    requires FrozenExcept(v, production, left - {b}, todo, items)
    ensures i in items && items[i] == v.items[i] && Frozen(v, b)[i] == items[i].(status := FrozenItem)
    ensures FrozenExcept(v, production, left - {b}, todo - {i}, items[i := items[i].(status := FrozenItem)])
  {
  }

  lemma UntouchedBatch(v: Tables, production: Uuid, left: set<Uuid>, items: map<Uuid, CodeItem>, b: Uuid)
    requires b in left && FrozenBeyond(v, production, left, items)
    ensures (set i | i in items && items[i].batch == b && ActiveItem(items[i])) == Frozen(v, b).Keys
  {
    forall i ensures i in items && items[i].batch == b && ActiveItem(items[i]) <==> i in Frozen(v, b) {
      assert i in items <==> i in v.items;
    }
  }

  lemma AllFrozen(v: Tables, production: Uuid, items: map<Uuid, CodeItem>)
    requires FrozenBeyond(v, production, {}, items)
    ensures items == v.items + FrozenUnder(v, production)
  {
    var w := v.items + FrozenUnder(v, production);
    assert items.Keys == w.Keys;
    forall i | i in items ensures items[i] == w[i] {
      assert i in v.items;
    }
  }

  // ---------------------------------------------------------------------------
  // What a recall achieves, and when it fails

  function AfterRecall(v: Tables, production: Uuid, recall: Recall): Tables
    requires production in v.productions
  {
    v.(productions :=
        v.productions[production := v.productions[production].(status := Recalled, recall := Some(recall))],
       items := v.items + FrozenUnder(v, production))
  }

  function Marked(v: Tables, production: Uuid, recall: Recall): Tables
    requires production in v.productions
  {
    v.(productions := AfterRecall(v, production, recall).productions)
  }

  /** A recall that goes through leaves good tables good, with no active item under the
      production batch. */
  lemma RecallLeavesGood(v: Tables, production: Uuid, recall: Recall)
    requires Good(v, {}, {}) && CanRecall(v, RUNTIME, production, recall)
    ensures Good(AfterRecall(v, production, recall), {}, {})
  {
    var marked := Marked(v, production, recall);
    var w := AfterRecall(v, production, recall);
    RecallKeepsGood(v, production, marked.productions[production], {}, {});
    assert {} + BatchesOf(v, production) == BatchesOf(v, production);
    forall b | b in w.batches ensures BatchOk(w, b, {}, {}) {
      if b in BatchesOf(v, production) {
        assert CanFreeze(v, RUNTIME, b);
        RecalledBatchOk(v, production, recall, b);
      } else {
        assert BatchOk(marked, b, {}, BatchesOf(v, production));
        assert SameSlice(marked, w, b);
        SliceKeepsBatch(marked, w, b, {}, {});
      }
    }
  }

  lemma RecalledBatchOk(v: Tables, production: Uuid, recall: Recall, b: Uuid)
    requires production in v.productions && b in BatchesOf(v, production) && CanFreeze(v, RUNTIME, b)
    requires Good(Marked(v, production, recall), {}, BatchesOf(v, production))
        && Linked(AfterRecall(v, production, recall))
    ensures BatchOk(AfterRecall(v, production, recall), b, {}, {})
  {
    var marked := Marked(v, production, recall);
    var w := AfterRecall(v, production, recall);
    assert Frozen(marked, b) == Frozen(v, b);
    assert CanFreeze(marked, RUNTIME, b);
    FreezeKeepsGood(marked, b, {}, BatchesOf(v, production));
    var frozen := marked.(items := marked.items + Frozen(v, b));
    assert BatchOk(frozen, b, {}, BatchesOf(v, production) - {b});
    FrozenSlice(v, production, recall, b);
    SliceKeepsBatch(frozen, w, b, {}, {});
  }

  lemma FrozenSlice(v: Tables, production: Uuid, recall: Recall, b: Uuid)
    requires production in v.productions && b in BatchesOf(v, production)
    ensures var marked := Marked(v, production, recall);
            SameSlice(marked.(items := marked.items + Frozen(v, b)), AfterRecall(v, production, recall), b)
  {
  }

  /** The recall of an active production batch fails exactly when a code batch still
      under contract 0 has an active item: the item guard then refuses the freeze, and
      the production batch stays in production. */
  lemma RecallFailsIffLegacyItemActive(v: Tables, production: Uuid, recall: Recall)
    requires production in v.productions && v.productions[production].status == InProduction && !Blank(recall.reason)
    requires Linked(v) && forall b :: b in v.batches ==> v.batches[b].contract in {0, 1}
    ensures !CanRecall(v, RUNTIME, production, recall)
            <==> exists i ::
                i in v.items && ActiveItem(v.items[i]) && v.batches[v.items[i].batch].production == production
                             && v.batches[v.items[i].batch].contract == 0
  {
    if i :| i in v.items && ActiveItem(v.items[i]) && v.batches[v.items[i].batch].production == production
            && v.batches[v.items[i].batch].contract == 0 {
      var b := v.items[i].batch;
      assert b in BatchesOf(v, production) && i in Frozen(v, b);
      assert !ItemGuard(v, RUNTIME, Some(v.items[i]), Frozen(v, b)[i]);
      assert !CanFreeze(v, RUNTIME, b);
    }
    if !CanRecall(v, RUNTIME, production, recall) {
      var b :| b in BatchesOf(v, production) && !CanFreeze(v, RUNTIME, b);
      RecallBlockedByLegacyItems(v, b);
      var i :| i in Frozen(v, b) && !ItemGuard(v, RUNTIME, Some(v.items[i]), Frozen(v, b)[i]);
      assert i in v.items && ActiveItem(v.items[i]) && v.items[i].batch == b;
    }
  }
}
