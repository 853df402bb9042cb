/** The upgrade converges: from whatever an interrupted run left, running it again ends
    in the catalog an undisturbed run would have reached, and objects of another shape
    are neither dropped nor reused. */
module CatalogLaws {
  import opened Sql
  import opened OnlineCatalog

  // ---------------------------------------------------------------------------
  // Compatible objects and the goal

  /** Absent, or of the wanted shape. */
  predicate IndexShaped(c: Catalog, index: string, shape: Shape) {
    index in c.indexes ==> c.indexes[index].shape == shape
  }

  /** The named objects of an item are absent or of the wanted shape. */
  predicate Shaped(c: Catalog, item: Item) {
    match item
    case UniqueItem(table, index, columns, name) =>
      if (table, name) in c.constraints then ExactUnique(c, table, name, columns)
      else IndexShaped(c, index, Shape(table, columns, true, true)) && name !in c.indexes
    case IndexItem(table, index, columns) => IndexShaped(c, index, Shape(table, columns, false, true))
    case _ =>
      (item.table, item.name) in c.constraints ==> ExactBut(c, (item.table, item.name), Unvalidated(item))
  }

  predicate Dying(c: Catalog, index: string) {
    index in c.indexes && !c.indexes[index].live
  }

  /** The index an item has still to build or use is a dead shell. */
  predicate DeadIndex(c: Catalog, item: Item) {
    match item
    case UniqueItem(table, index, columns, name) => (table, name) !in c.constraints && Dying(c, index)
    case IndexItem(table, index, columns) => Dying(c, index)
    case _ => false
  }

  predicate Fits(c: Catalog, item: Item) {
    Shaped(c, item) && !DeadIndex(c, item)
  }

  /** The catalog with the item complete. */
  function Finished(c: Catalog, item: Item): Catalog {
    match item
    case UniqueItem(table, index, columns, name) =>
      if (table, name) in c.constraints then c
      else Catalog((c.indexes - {index})[name := Fine(Shape(table, columns, true, true))],
                   c.constraints[(table, name) := UniqueKey(columns, true, true, name)])
    case IndexItem(table, index, columns) => c.(indexes := c.indexes[index := Fine(Shape(table, columns, false, true))])
    case _ => c.(constraints := c.constraints[(item.table, item.name) := Validated(Unvalidated(item))])
  }

  predicate Done(c: Catalog, item: Item) {
    match item
    case UniqueItem(table, index, columns, name) =>
        (table, name) in c.constraints && ExactUnique(c, table, name, columns)
    case IndexItem(table, index, columns) =>
      index in c.indexes && c.indexes[index] == Fine(Shape(table, columns, false, true))
    case _ =>
      (item.table, item.name) in c.constraints && c.constraints[(item.table, item.name)] == Validated(Unvalidated(item))
  }

  predicate AllFit(c: Catalog, plan: seq<Item>) {
    forall i :: 0 <= i < |plan| ==> Fits(c, plan[i])
  }

  predicate AllShaped(c: Catalog, plan: seq<Item>) {
    forall i :: 0 <= i < |plan| ==> Shaped(c, plan[i])
  }

  predicate SomeDead(c: Catalog, plan: seq<Item>) {
    exists i :: 0 <= i < |plan| && DeadIndex(c, plan[i])
  }

  predicate AllDone(c: Catalog, plan: seq<Item>) {
    forall i :: 0 <= i < |plan| ==> Done(c, plan[i])
  }

  /** The catalog an undisturbed run ends in. */
  function Goal(c: Catalog, plan: seq<Item>): Catalog
    decreases |plan|
  {
    if plan == [] then c else Goal(Finished(c, plan[0]), plan[1..])
  }

  // ---------------------------------------------------------------------------
  // One item

  predicate Proper(item: Item) {
    item.UniqueItem? ==> item.index != item.name
  }

  /** An undisturbed item gets through exactly when its objects fit, and completes. */
  lemma SmoothItem(c: Catalog, item: Item)
    requires Proper(item)
    ensures RunItem(c, item, NO_TROUBLE).1 <==> Fits(c, item)
    ensures Fits(c, item) ==> RunItem(c, item, NO_TROUBLE).0 == Finished(c, item)
  {
    match item
    case UniqueItem(table, index, columns, name) =>
      if (table, name) !in c.constraints {
        var shape := Shape(table, columns, true, true);
        SmoothIndex(c, index, shape);
        var d := EnsureIndex(c, index, shape, NO_TROUBLE).0;
        assert name in d.indexes <==> name in c.indexes;
        if Fits(c, item) {
          assert c.indexes[index := Fine(shape)] - {index} == c.indexes - {index};
        }
      }
    case IndexItem(table, index, columns) => SmoothIndex(c, index, Shape(table, columns, false, true));
    case _ =>
  }

  lemma SmoothIndex(c: Catalog, index: string, shape: Shape)
    ensures var (d, ok) := EnsureIndex(c, index, shape, NO_TROUBLE);
            && (ok <==> IndexShaped(c, index, shape) && !Dying(c, index))
            && d == if ok then c.(indexes := c.indexes[index := Fine(shape)]) else c
  {
    if index in c.indexes {
      assert (c.indexes - {index})[index := Fine(shape)] == c.indexes[index := Fine(shape)];
      if c.indexes[index] == Fine(shape) {
        assert c.indexes[index := Fine(shape)] == c.indexes;
      }
    }
  }

  lemma TroubledIndex(c: Catalog, index: string, shape: Shape, t: Trouble)
    requires IndexShaped(c, index, shape)
    ensures var (d, ok) := EnsureIndex(c, index, shape, t);
            && IndexShaped(d, index, shape) && d.constraints == c.constraints
            && d.indexes - {index} == c.indexes - {index}
            && (ok ==> index in d.indexes && d.indexes[index] == Fine(shape))
            && (Dying(d, index) ==> Dying(c, index) || t.drop == Dead)
  {
  }

  /** Whatever happens to an item, its objects keep the wanted shape and lead to the same
      goal; if it gets through, it has completed. Only an interrupted drop kills an index. */
  ghost predicate Progress(c: Catalog, item: Item, t: Trouble, d: Catalog, ok: bool) {
    && Shaped(d, item) && Finished(d, item) == Finished(c, item)
    && (ok ==> d == Finished(c, item) && Done(d, item))
    && (DeadIndex(d, item) ==> DeadIndex(c, item) || t.drop == Dead)
  }

  lemma TroubledItem(c: Catalog, item: Item, t: Trouble)
    requires Proper(item) && Shaped(c, item)
    ensures Progress(c, item, t, RunItem(c, item, t).0, RunItem(c, item, t).1)
  {
    match item
    case UniqueItem(table, index, columns, name) =>
      if (table, name) !in c.constraints {
        TroubledUnique(c, table, index, columns, name, t);
      }
    case IndexItem(table, index, columns) =>
      var shape := Shape(table, columns, false, true);
      TroubledIndex(c, index, shape, t);
      SameButIndex(c, EnsureIndex(c, index, shape, t).0, index, shape);
    case _ =>
      TroubledConstraint(c, (item.table, item.name), Unvalidated(item), t);
  }

  lemma TroubledConstraint(c: Catalog, key: ConstraintName, row: Constraint, t: Trouble)
    requires (row.ForeignKey? || row.NotNullCheck?) && (key in c.constraints ==> ExactBut(c, key, row))
        && !row.validated
    ensures var (d, ok) := EnsureValidated(c, key, row, t);
            && (key in d.constraints ==> ExactBut(d, key, row)) && d.indexes == c.indexes
            && d.constraints[key := Validated(row)] == c.constraints[key := Validated(row)]
            && (ok ==> d.constraints == c.constraints[key := Validated(row)])
  {
  }

  lemma SameButIndex(c: Catalog, d: Catalog, index: string, shape: Shape)
    requires d.constraints == c.constraints && d.indexes - {index} == c.indexes - {index}
    ensures c.(indexes := c.indexes[index := Fine(shape)]) == d.(indexes := d.indexes[index := Fine(shape)])
    ensures index in d.indexes && d.indexes[index] == Fine(shape) ==>
        d == d.(indexes := d.indexes[index := Fine(shape)])
  {
    SameButKey(c.indexes, d.indexes, index, Fine(shape));
  }

  lemma SameButKey<V>(a: map<string, V>, b: map<string, V>, key: string, v: V)
    requires a - {key} == b - {key}
    ensures a[key := v] == b[key := v]
    ensures key in b && b[key] == v ==> b == b[key := v]
  {
    forall k | k != key ensures k in a <==> k in b
    ensures k in a ==> a[k] == b[k] {
      assert k in a - {key} <==> k in a;
      assert k in b - {key} <==> k in b;
      if k in a {
        assert (a - {key})[k] == a[k];
        assert (b - {key})[k] == b[k];
      }
    }
  }

  lemma TroubledUnique(c: Catalog, table: string, index: string, columns: seq<string>, name: string, t: Trouble)
    requires index != name && Shaped(c, UniqueItem(table, index, columns, name)) && (table, name) !in c.constraints
    ensures var item := UniqueItem(table, index, columns, name);
            Progress(c, item, t, RunItem(c, item, t).0, RunItem(c, item, t).1)
  {
    var shape := Shape(table, columns, true, true);
    TroubledIndex(c, index, shape, t);
    var (d, ok) := EnsureIndex(c, index, shape, t);
    assert name in d.indexes <==> name in d.indexes - {index};
    assert name in c.indexes <==> name in c.indexes - {index};
  }

  // ---------------------------------------------------------------------------
  // Items leave each other's objects alone

  /** The two catalogs agree on the objects an item names. */
  predicate SameFor(c: Catalog, d: Catalog, item: Item) {
    && (forall n :: n in IndexNames(item) ==> Lookup(c.indexes, n) == Lookup(d.indexes, n))
    && (forall k :: k in ConstraintNames(item) ==> Lookup(c.constraints, k) == Lookup(d.constraints, k))
  }

  lemma IndexFrame(c: Catalog, index: string, shape: Shape, t: Trouble)
    ensures var d := EnsureIndex(c, index, shape, t).0;
            && d.constraints == c.constraints && forall n :: n != index ==> Lookup(d.indexes, n) == Lookup(c.indexes, n)
  {
  }

  lemma ItemFrame(c: Catalog, item: Item, t: Trouble, other: Item)
    requires Apart(item, other)
    ensures SameFor(c, RunItem(c, item, t).0, other)
  {
    match item
    case UniqueItem(table, index, columns, name) => IndexFrame(c, index, Shape(table, columns, true, true), t);
    case IndexItem(table, index, columns) => IndexFrame(c, index, Shape(table, columns, false, true), t);
    case _ =>
  }

  lemma SameForItem(c: Catalog, d: Catalog, item: Item)
    requires SameFor(c, d, item)
    ensures Shaped(c, item) <==> Shaped(d, item)
    ensures DeadIndex(c, item) <==> DeadIndex(d, item)
    ensures Done(c, item) <==> Done(d, item)
  {
    match item
    case UniqueItem(table, index, columns, name) =>
      assert index in IndexNames(item) && name in IndexNames(item) && (table, name) in ConstraintNames(item);
    case IndexItem(table, index, columns) => assert index in IndexNames(item);
    case _ => assert (item.table, item.name) in ConstraintNames(item);
  }

  lemma {:induction false} PlanFrame(c: Catalog, plan: seq<Item>, troubles: seq<Trouble>, other: Item)
    requires |troubles| == |plan| && forall i :: 0 <= i < |plan| ==> Apart(plan[i], other)
    ensures SameFor(c, RunPlan(c, plan, troubles).0, other)
    decreases |plan|
  {
    if plan != [] {
      ItemFrame(c, plan[0], troubles[0], other);
      PlanFrame(RunItem(c, plan[0], troubles[0]).0, plan[1..], troubles[1..], other);
    }
  }

  /** What the first item does leaves the objects of the others as they were. */
  lemma RestUntouched(c: Catalog, plan: seq<Item>, t: Trouble)
    requires plan != [] && DistinctNames(plan)
    ensures var d := RunItem(c, plan[0], t).0;
            forall i :: 0 < i < |plan| ==>
              && (Shaped(c, plan[i]) <==> Shaped(d, plan[i]))
              && (DeadIndex(c, plan[i]) <==> DeadIndex(d, plan[i]))
  {
    var d := RunItem(c, plan[0], t).0;
    forall i | 0 < i < |plan|
      ensures (Shaped(c, plan[i]) <==> Shaped(d, plan[i])) && (DeadIndex(c, plan[i]) <==> DeadIndex(d, plan[i]))
    {
      assert Apart(plan[0], plan[i]);
      ItemFrame(c, plan[0], t, plan[i]);
      SameForItem(c, d, plan[i]);
    }
  }

  lemma RestDistinct(plan: seq<Item>)
    requires plan != [] && DistinctNames(plan)
    ensures DistinctNames(plan[1..]) && Proper(plan[0])
    ensures forall i :: 0 <= i < |plan[1..]| ==> Apart(plan[1..][i], plan[0])
  {
    forall i, j | 0 <= i < j < |plan[1..]| ensures Apart(plan[1..][i], plan[1..][j]) {
      assert Apart(plan[i + 1], plan[j + 1]);
    }
    forall i | 0 <= i < |plan[1..]| ensures Apart(plan[1..][i], plan[0]) {
      assert Apart(plan[0], plan[i + 1]);
    }
    assert plan[0].UniqueItem? ==> plan[0].index != plan[0].name;
  }

  lemma DoneIsFinished(c: Catalog, item: Item)
    requires Done(c, item)
    ensures Fits(c, item) && Finished(c, item) == c
  {
    match item
    case UniqueItem(table, index, columns, name) =>
    case IndexItem(table, index, columns) => assert c.indexes[index := c.indexes[index]] == c.indexes;
    case _ =>
      var key := (item.table, item.name);
      assert c.constraints[key := c.constraints[key]] == c.constraints;
  }

  // ---------------------------------------------------------------------------
  // Convergence

  predicate NoDrops(troubles: seq<Trouble>) {
    forall i :: 0 <= i < |troubles| ==> troubles[i].drop != Dead
  }

  /** However a run from objects of the wanted shape is disturbed, it leaves objects of
      the wanted shape and the same goal; a run that gets through has reached it. No
      index dies unless a drop is interrupted. */
  lemma {:induction false} TroubledRun(c: Catalog, plan: seq<Item>, troubles: seq<Trouble>)
    requires |troubles| == |plan| && DistinctNames(plan) && AllShaped(c, plan)
    ensures var (d, ok) := RunPlan(c, plan, troubles);
            && AllShaped(d, plan) && Goal(d, plan) == Goal(c, plan) && (ok ==> d == Goal(c, plan) && AllDone(d, plan))
            && (NoDrops(troubles) && !SomeDead(c, plan) ==> !SomeDead(d, plan))
    decreases |plan|
  {
    if plan != [] {
      var (d, ok) := RunItem(c, plan[0], troubles[0]);
      RestDistinct(plan);
      TroubledItem(c, plan[0], troubles[0]);
      RestUntouched(c, plan, troubles[0]);
      forall i | 0 <= i < |plan[1..]| ensures Shaped(d, plan[1..][i]) {
        assert plan[1..][i] == plan[i + 1];
      }
      if ok {
        TroubledRun(d, plan[1..], troubles[1..]);
        FirstStaysDone(d, plan, troubles[1..]);
        if NoDrops(troubles) && !SomeDead(c, plan) {
          RestAlive(c, d, plan);
        }
      } else {
        forall i | 0 <= i < |plan| ensures Shaped(d, plan[i]) {
          assert i > 0 ==> plan[i] == plan[1..][i - 1];
        }
      }
    }
  }

  lemma RestAlive(c: Catalog, d: Catalog, plan: seq<Item>)
    requires plan != [] && !SomeDead(c, plan)
    requires forall i :: 0 < i < |plan| ==> (DeadIndex(c, plan[i]) <==> DeadIndex(d, plan[i]))
    ensures !SomeDead(d, plan[1..])
  {
    forall i | 0 <= i < |plan[1..]| ensures !DeadIndex(d, plan[1..][i]) {
      assert plan[1..][i] == plan[i + 1] && !DeadIndex(c, plan[i + 1]);
    }
  }

  lemma FirstStaysDone(d: Catalog, plan: seq<Item>, troubles: seq<Trouble>)
    requires plan != [] && DistinctNames(plan) && |troubles| == |plan[1..]| && Done(d, plan[0])
    requires AllShaped(RunPlan(d, plan[1..], troubles).0, plan[1..])
    ensures var (e, ok) := RunPlan(d, plan[1..], troubles);
            && AllShaped(e, plan) && Goal(e, plan) == Goal(e, plan[1..])
            && (AllDone(e, plan[1..]) ==> AllDone(e, plan))
            && (!SomeDead(e, plan[1..]) ==> !SomeDead(e, plan))
  {
    var e := RunPlan(d, plan[1..], troubles).0;
    RestDistinct(plan);
    PlanFrame(d, plan[1..], troubles, plan[0]);
    SameForItem(d, e, plan[0]);
    DoneIsFinished(e, plan[0]);
    forall i | 0 <= i < |plan|
      ensures Shaped(e, plan[i]) && (AllDone(e, plan[1..]) ==> Done(e, plan[i]))
      ensures !SomeDead(e, plan[1..]) ==> !DeadIndex(e, plan[i])
    {
      assert i > 0 ==> plan[i] == plan[1..][i - 1];
    }
  }

  /** An undisturbed run gets through exactly when every named object fits: it refuses
      exactly when one of them has another shape or is a dead shell. */
  lemma {:induction false} SmoothRunIffAllFit(c: Catalog, plan: seq<Item>)
    requires DistinctNames(plan)
    ensures RunPlan(c, plan, NoTroubles(|plan|)).1 <==> AllFit(c, plan)
    decreases |plan|
  {
    if plan != [] {
      var rest := plan[1..];
      assert NoTroubles(|plan|)[1..] == NoTroubles(|rest|);
      RestDistinct(plan);
      SmoothItem(c, plan[0]);
      RestUntouched(c, plan, NO_TROUBLE);
      var d := RunItem(c, plan[0], NO_TROUBLE).0;
      SmoothRunIffAllFit(d, rest);
      if AllFit(d, rest) && Fits(c, plan[0]) {
        forall i | 0 <= i < |plan| ensures Fits(c, plan[i]) {
          assert i > 0 ==> plan[i] == rest[i - 1];
        }
      }
      if AllFit(c, plan) {
        forall i | 0 <= i < |rest| ensures Fits(d, rest[i]) {
          assert rest[i] == plan[i + 1];
        }
      }
    }
  }

  /** Any number of disturbed runs, one after the other. */
  function Retried(c: Catalog, plan: seq<Item>, tries: seq<seq<Trouble>>): Catalog
    requires forall i :: 0 <= i < |tries| ==> |tries[i]| == |plan|
    decreases |tries|
  {
    if tries == [] then c else Retried(RunPlan(c, plan, tries[0]).0, plan, tries[1..])
  }

  /** Convergence: after any number of runs interrupted in any way, one undisturbed run
      gets through if and only if no index it has still to use was left a dead shell, and
      then ends in the very catalog an undisturbed run from the beginning would have ended
      in, with every object in place. Only an interrupted drop leaves such a shell. */
  lemma {:induction false} RerunConverges(c: Catalog, plan: seq<Item>, tries: seq<seq<Trouble>>)
    requires DistinctNames(plan) && AllShaped(c, plan) && !SomeDead(c, plan)
    requires forall i :: 0 <= i < |tries| ==> |tries[i]| == |plan|
    ensures RunPlan(c, plan, NoTroubles(|plan|)) == (Goal(c, plan), true) && AllDone(Goal(c, plan), plan)
    ensures var d := Retried(c, plan, tries);
            && (RunPlan(d, plan, NoTroubles(|plan|)).1 <==> !SomeDead(d, plan))
            && (!SomeDead(d, plan) ==> RunPlan(d, plan, NoTroubles(|plan|)) == RunPlan(c, plan, NoTroubles(|plan|)))
            && ((forall i :: 0 <= i < |tries| ==> NoDrops(tries[i])) ==> !SomeDead(d, plan))
  {
    TroubledRun(c, plan, NoTroubles(|plan|));
    SmoothRunIffAllFit(c, plan);
    var d := Retried(c, plan, tries);
    RetriesKeepGoal(c, plan, tries);
    TroubledRun(d, plan, NoTroubles(|plan|));
    SmoothRunIffAllFit(d, plan);
  }

  lemma {:induction false} RetriesKeepGoal(c: Catalog, plan: seq<Item>, tries: seq<seq<Trouble>>)
    requires DistinctNames(plan) && AllShaped(c, plan)
    requires forall i :: 0 <= i < |tries| ==> |tries[i]| == |plan|
    ensures var d := Retried(c, plan, tries);
            && AllShaped(d, plan) && Goal(d, plan) == Goal(c, plan)
            && ((forall i :: 0 <= i < |tries| ==> NoDrops(tries[i])) && !SomeDead(c, plan) ==> !SomeDead(d, plan))
    decreases |tries|
  {
    if tries != [] {
      TroubledRun(c, plan, tries[0]);
      RetriesKeepGoal(RunPlan(c, plan, tries[0]).0, plan, tries[1..]);
    }
  }

  lemma PlanIndexesDistinct()
    ensures forall i, j :: 0 <= i < j < |PLAN| ==> IndexNames(PLAN[i]) !! IndexNames(PLAN[j])
    ensures forall i :: 0 <= i < |PLAN| ==> Proper(PLAN[i])
  {
  }

  lemma PlanConstraintsDistinct()
    ensures forall i, j :: 0 <= i < j < |PLAN| ==> ConstraintNames(PLAN[i]) !! ConstraintNames(PLAN[j])
  {
  }

  /** The upgrade's own lists name distinct objects, so all of this holds of them. */
  lemma UpgradePlanIsDistinct()
    ensures DistinctNames(PLAN)
  {
    PlanIndexesDistinct();
    PlanConstraintsDistinct();
    forall i, j | 0 <= i < j < |PLAN| ensures Apart(PLAN[i], PLAN[j]) {
    }
    forall i | 0 <= i < |PLAN| && PLAN[i].UniqueItem? ensures PLAN[i].index != PLAN[i].name {
      assert Proper(PLAN[i]);
    }
  }

  // ---------------------------------------------------------------------------
  // Objects of another shape

  /** An item that builds an index of this name and shape. */
  predicate Builds(item: Item, index: string, shape: Shape) {
    match item
    case UniqueItem(table, i, columns, name) => i == index && shape == Shape(table, columns, true, true)
    case IndexItem(table, i, columns) => i == index && shape == Shape(table, columns, false, true)
    case _ => false
  }

  /** An index the plan has no business with: not its name, not its shape, or dead. */
  predicate ForeignIndex(c: Catalog, plan: seq<Item>, index: string) {
    index in c.indexes &&
    forall i :: 0 <= i < |plan| ==> !Builds(plan[i], index, c.indexes[index].shape) || !c.indexes[index].live
  }

  /** What a run may do to a constraint that is already there: validate its own. */
  predicate ConstraintKept(before: Constraint, after: Constraint) {
    after == before || ((before.ForeignKey? || before.NotNullCheck?) && after == Validated(before))
  }

  lemma ItemKeepsForeign(c: Catalog, item: Item, t: Trouble, index: string)
    requires index in c.indexes && (!Builds(item, index, c.indexes[index].shape) || !c.indexes[index].live)
    ensures var d := RunItem(c, item, t).0; index in d.indexes && d.indexes[index] == c.indexes[index]
  {
    match item
    case UniqueItem(table, i, columns, name) => IndexFrame(c, i, Shape(table, columns, true, true), t);
    case IndexItem(table, i, columns) => IndexFrame(c, i, Shape(table, columns, false, true), t);
    case _ =>
  }

  lemma ItemKeepsConstraint(c: Catalog, item: Item, t: Trouble, k: ConstraintName)
    requires k in c.constraints
    ensures var d := RunItem(c, item, t).0; k in d.constraints && ConstraintKept(c.constraints[k], d.constraints[k])
  {
    match item
    case UniqueItem(table, i, columns, name) => IndexFrame(c, i, Shape(table, columns, true, true), t);
    case IndexItem(table, i, columns) => IndexFrame(c, i, Shape(table, columns, false, true), t);
    case _ =>
  }

  /** No run, however disturbed and from whatever catalog, drops, rebuilds or renames an
      index of another shape or a dead shell, or drops or redefines a constraint. */
  lemma {:induction false} ForeignObjectsStay(c: Catalog, plan: seq<Item>, troubles: seq<Trouble>)
    requires |troubles| == |plan|
    ensures var d := RunPlan(c, plan, troubles).0;
            && (forall n :: ForeignIndex(c, plan, n) ==> n in d.indexes && d.indexes[n] == c.indexes[n])
            && (forall k ::
                  k in c.constraints ==> k in d.constraints && ConstraintKept(c.constraints[k], d.constraints[k]))
    decreases |plan|
  {
    if plan != [] {
      var (d, ok) := RunItem(c, plan[0], troubles[0]);
      forall n | ForeignIndex(c, plan, n)
        ensures n in d.indexes && d.indexes[n] == c.indexes[n] && ForeignIndex(d, plan[1..], n)
      {
        ItemKeepsForeign(c, plan[0], troubles[0], n);
        forall i | 0 <= i < |plan[1..]| ensures !Builds(plan[1..][i], n, d.indexes[n].shape) || !d.indexes[n].live {
          assert plan[1..][i] == plan[i + 1];
        }
      }
      forall k | k in c.constraints ensures k in d.constraints && ConstraintKept(c.constraints[k], d.constraints[k]) {
        ItemKeepsConstraint(c, plan[0], troubles[0], k);
      }
      if ok {
        ForeignObjectsStay(d, plan[1..], troubles[1..]);
      }
    }
  }

  lemma UnfitItemFails(c: Catalog, item: Item, t: Trouble)
    requires Proper(item) && !Fits(c, item)
    ensures var (d, ok) := RunItem(c, item, t); !ok && !Fits(d, item)
  {
    match item
    case UniqueItem(table, i, columns, name) => IndexFrame(c, i, Shape(table, columns, true, true), t);
    case IndexItem(table, i, columns) =>
    case _ =>
  }

  /** Once a named object does not fit, no run gets through and it still does not fit:
      the upgrade needs somebody to clear it away. */
  lemma {:induction false} UnfitIsRefusedForever(c: Catalog, plan: seq<Item>, troubles: seq<Trouble>)
    requires |troubles| == |plan| && DistinctNames(plan) && !AllFit(c, plan)
    ensures var (d, ok) := RunPlan(c, plan, troubles); !ok && !AllFit(d, plan)
    decreases |plan|
  {
    var rest := plan[1..];
    var (d, ok) := RunItem(c, plan[0], troubles[0]);
    RestDistinct(plan);
    RestUntouched(c, plan, troubles[0]);
    if !Fits(c, plan[0]) {
      UnfitItemFails(c, plan[0], troubles[0]);
    } else {
      var i :| 0 <= i < |plan| && !Fits(c, plan[i]);
      assert rest[i - 1] == plan[i] && !Fits(d, rest[i - 1]);
      if ok {
        UnfitIsRefusedForever(d, rest, troubles[1..]);
      }
      var e := RunPlan(c, plan, troubles).0;
      var j :| 0 <= j < |rest| && !Fits(e, rest[j]);
      assert plan[j + 1] == rest[j];
    }
  }

  /** The shell an interrupted build leaves is what the next run drops, and a drop stopped
      halfway turns it into a dead one, for a unique item as for a plain one. */
  lemma InterruptedDropKills(c: Catalog, item: Item, ready: bool)
    requires Proper(item) && Fits(c, item)
    requires (item.IndexItem? || (item.UniqueItem? && (item.table, item.name) !in c.constraints))
    requires item.index !in c.indexes
    ensures var d := RunItem(c, item, NO_TROUBLE.(create := Shell(ready))).0;
            && Fits(d, item) && DeadIndex(RunItem(d, item, NO_TROUBLE.(drop := Dead)).0, item)
  {
  }
}
