/** What one step of the upgrade asks of the catalog and what it leaves there, row by row,
    whichever of its statements goes wrong. */
module CatalogOutcomes {
  import opened Sql
  import opened OnlineCatalog
  import opened CatalogLaws

  // ---------------------------------------------------------------------------
  // Getting through

  /** A step that gets through, whatever was there before and whatever went wrong, has left
      its object complete: a valid, ready and live plain index over its columns, a validated
      unique constraint on such an index under its own name, a validated foreign key to its
      columns, a validated check. */
  lemma ThroughMeansComplete(c: Catalog, item: Item, t: Trouble)
    requires RunItem(c, item, t).1
    ensures var d := RunItem(c, item, t).0;
            match item
            case UniqueItem(table, index, columns, name) =>
              && (table, name) in d.constraints && d.constraints[(table, name)] == UniqueKey(columns, true, true, name)
              && name in d.indexes && d.indexes[name] == Index(Shape(table, columns, true, true), true, true, true)
            case IndexItem(table, index, columns) =>
              index in d.indexes && d.indexes[index] == Index(Shape(table, columns, false, true), true, true, true)
            case ForeignItem(table, name, columns, refTable, refColumns) =>
              && (table, name) in d.constraints
              && d.constraints[(table, name)] == ForeignKey(columns, refTable, refColumns, true, true)
            case NotNullItem(table, name) =>
              (table, name) in d.constraints && d.constraints[(table, name)] == NotNullCheck(true, true)
  {
  }

  /** The index is there, valid, ready and live, over these columns. */
  predicate IndexStands(c: Catalog, index: string, shape: Shape) {
    && index in c.indexes && c.indexes[index].shape == shape
    && c.indexes[index].valid && c.indexes[index].ready && c.indexes[index].live
  }

  /** What an interrupted build left: over these columns and live, but not valid or ready. */
  predicate IndexShell(c: Catalog, index: string, shape: Shape) {
    && index in c.indexes && c.indexes[index].shape == shape && c.indexes[index].live
    && !(c.indexes[index].valid && c.indexes[index].ready)
  }

  /** Ensuring an index gets through exactly when it stands, or it is absent and the build goes
      through, or it is a live shell and both its drop and the build go through. */
  predicate IndexThrough(c: Catalog, index: string, shape: Shape, t: Trouble) {
    || IndexStands(c, index, shape)
    || (index !in c.indexes && t.create.Smooth?)
    || (IndexShell(c, index, shape) && t.drop.Smooth? && t.create.Smooth?)
  }

  /** The constraint is there as it is to be, validated or not. */
  predicate ForeignStands(c: Catalog, item: Item, validated: bool)
    requires item.ForeignItem?
  {
    && (item.table, item.name) in c.constraints
    && c.constraints[(item.table, item.name)]
       == ForeignKey(item.columns, item.refTable, item.refColumns, true, validated)
  }

  predicate CheckStands(c: Catalog, item: Item, validated: bool)
    requires item.NotNullItem?
  {
    (item.table, item.name) in c.constraints && c.constraints[(item.table, item.name)] == NotNullCheck(true, validated)
  }

  predicate UniqueStands(c: Catalog, item: Item)
    requires item.UniqueItem?
  {
    && (item.table, item.name) in c.constraints
    && c.constraints[(item.table, item.name)] == UniqueKey(item.columns, true, true, item.name)
    && IndexStands(c, item.name, Shape(item.table, item.columns, true, true))
  }

  /** Exactly when a step gets through: what is there is as it is to be, and every statement
      still needed goes through. */
  lemma ItemThroughIff(c: Catalog, item: Item, t: Trouble)
    requires Proper(item)
    ensures RunItem(c, item, t).1
            <==> match item
                 case UniqueItem(table, index, columns, name) =>
                   if (table, name) in c.constraints then UniqueStands(c, item)
                   else && IndexThrough(c, index, Shape(table, columns, true, true), t)
                        && name !in c.indexes && t.alter.Smooth?
                 case IndexItem(table, index, columns) => IndexThrough(c, index, Shape(table, columns, false, true), t)
                 case ForeignItem(table, name, _, _, _) =>
                   if (table, name) in c.constraints
                   then ForeignStands(c, item, true) || (ForeignStands(c, item, false) && t.validate.Smooth?)
                   else t.alter.Smooth? && t.validate.Smooth?
                 case NotNullItem(table, name) =>
                   if (table, name) in c.constraints
                   then CheckStands(c, item, true) || (CheckStands(c, item, false) && t.validate.Smooth?)
                   else t.alter.Smooth? && t.validate.Smooth?
  {
  }

  // ---------------------------------------------------------------------------
  // Not getting through

  /** What ensuring an index leaves when it does not get through: a live shell of a build
      that broke off, after the drop of an earlier one if there was one; nothing in place of
      a shell whose build did not start; a dead index of a drop that broke off; and the
      catalog as it was otherwise. */
  lemma IndexLeftBehind(c: Catalog, index: string, shape: Shape, t: Trouble)
    requires !EnsureIndex(c, index, shape, t).1
    ensures var d := EnsureIndex(c, index, shape, t).0;
            && d.constraints == c.constraints
            && d.indexes
               == if index !in c.indexes && t.create.Shell? then
                    c.indexes[index := Index(shape, false, t.create.ready, true)]
                  else if IndexShell(c, index, shape) && t.drop.Smooth? then
                    if t.create.Shell? then c.indexes[index := Index(shape, false, t.create.ready, true)]
                    else c.indexes - {index}
                  else if IndexShell(c, index, shape) && t.drop.Dead? then
                    c.indexes[index := Index(shape, false, false, false)]
                  else c.indexes
  {
    if index in c.indexes && t.create.Shell? {
      assert (c.indexes - {index})[index := Index(shape, false, t.create.ready, true)]
          == c.indexes[index := Index(shape, false, t.create.ready, true)];
    }
  }

  /** Making a constraint from an index takes a usable plain unique one of the table whose new
      name is free, and renames it; otherwise nothing happens. */
  lemma IndexTaken(c: Catalog, table: string, name: string, index: string, f: Fault)
    ensures UseIndex(c, table, name, index, f)
         == if && f.Smooth? && index in c.indexes && name !in c.indexes
               && c.indexes[index].valid && c.indexes[index].ready && c.indexes[index].live
               && c.indexes[index].shape.table == table && c.indexes[index].shape.unique && c.indexes[index].shape.plain
            then (Catalog((c.indexes - {index})[name := c.indexes[index]],
                          c.constraints[(table, name) := UniqueKey(c.indexes[index].shape.columns, true, true, name)]),
                  true)
            else (c, false)
  {
  }

  /** Ensuring the constraint alone gets through if and only if it stands, or it is absent and
      the index it is made from stands over the wanted columns while its new name is free. */
  lemma UniqueThroughIff(c: Catalog, item: Item, t: Trouble)
    requires item.UniqueItem?
    ensures EnsureUnique(c, item.table, item.name, item.columns, item.index, t).1
            <==> if (item.table, item.name) in c.constraints then UniqueStands(c, item)
                 else && t.alter.Smooth? && item.name !in c.indexes
                      && IndexStands(c, item.index, Shape(item.table, item.columns, true, true))
  {
  }

  /** A foreign key or check that does not get through is left unvalidated if it could be
      added, and as it was otherwise. */
  lemma ConstraintLeftBehind(c: Catalog, item: Item, t: Trouble)
    requires (item.ForeignItem? || item.NotNullItem?) && !RunItem(c, item, t).1
    ensures var d := RunItem(c, item, t).0;
            && d.indexes == c.indexes
            && d.constraints
               == if (item.table, item.name) in c.constraints || !t.alter.Smooth? then c.constraints
                  else c.constraints[(item.table, item.name) :=
                         if item.ForeignItem? then ForeignKey(item.columns, item.refTable, item.refColumns, true, false)
                         else NotNullCheck(true, false)]
  {
  }
}
