/** The catalog steps of the upgrade as they run: each statement changes the catalog and
    commits, and the first refusal or failure ends the run. */
module CatalogUpgrade {
  import opened Sql
  import opened OnlineCatalog

  class Database {
    var indexes: map<string, Index>
    var constraints: map<ConstraintName, Constraint>

    constructor (c: Catalog)
      ensures Contents() == c
    {
      indexes, constraints := c.indexes, c.constraints;
    }

    function Contents(): (c: Catalog)
      reads this
    {
      Catalog(indexes, constraints)
    }

    /** Reuse a complete index of the wanted shape, drop and rebuild its live invalid
        shell, build it where it is missing, refuse anything else. */
    method EnsureIndex(index: string, shape: Shape, t: Trouble) returns (ok: bool)
      modifies this`indexes
      ensures (Contents(), ok) == OnlineCatalog.EnsureIndex(old(Contents()), index, shape, t)
    {
      var missing := index !in indexes;
      if !missing && !Usable(indexes[index]) {
        if indexes[index].shape != shape || !indexes[index].live {
          return false;
        }
        match t.drop
        case Smooth =>
          indexes := indexes - {index};
          missing := true;
        case Dead =>
          indexes := indexes[index := indexes[index].(valid := false, ready := false, live := false)];
          return false;
        case _ =>
          return false;
      }
      if !missing {
        return indexes[index].shape == shape;
      }
      match t.create
      case Smooth =>
        indexes := indexes[index := Fine(shape)];
        return true;
      case Shell(ready) =>
        indexes := indexes[index := Index(shape, false, ready, true)];
        return false;
      case _ =>
        return false;
    }

    method EnsureUnique(table: string, name: string, columns: seq<string>, index: string, t: Trouble) returns (ok: bool)
      modifies this
      ensures (Contents(), ok) == OnlineCatalog.EnsureUnique(old(Contents()), table, name, columns, index, t)
    {
      if (table, name) in constraints {
        return ExactUnique(Contents(), table, name, columns);
      }
      if !t.alter.Smooth? || index !in indexes || name in indexes || !Usable(indexes[index])
         || indexes[index].shape.table != table || !indexes[index].shape.unique || !indexes[index].shape.plain {
        return false;
      }
      var backing := indexes[index];
      indexes := (indexes - {index})[name := backing];
      constraints := constraints[(table, name) := UniqueKey(backing.shape.columns, true, true, name)];
      return ExactUnique(Contents(), table, name, columns);
    }

    /** The ensure and validate steps of a foreign key or NOT NULL check. */
    method EnsureValidated(key: ConstraintName, row: Constraint, t: Trouble) returns (ok: bool)
      requires (row.ForeignKey? || row.NotNullCheck?) && !row.validated
      modifies this`constraints
      ensures (Contents(), ok) == OnlineCatalog.EnsureValidated(old(Contents()), key, row, t)
    {
      if key !in constraints {
        if !t.alter.Smooth? {
          return false;
        }
        constraints := constraints[key := row];
      }
      if !ExactBut(Contents(), key, row) {
        return false;
      }
      if !constraints[key].validated {
        if !t.validate.Smooth? {
          return false;
        }
        constraints := constraints[key := Validated(row)];
      }
      return true;
    }

    /** The four loops of the upgrade body, over its lists in order. */
    method Upgrade(plan: seq<Item>, troubles: seq<Trouble>) returns (ok: bool)
      requires |troubles| == |plan|
      modifies this
      ensures (Contents(), ok) == RunPlan(old(Contents()), plan, troubles)
    {
      var i := 0;
      assert plan[0..] == plan && troubles[0..] == troubles;
      while i < |plan|
        invariant i <= |plan|
        invariant RunPlan(old(Contents()), plan, troubles) == RunPlan(Contents(), plan[i..], troubles[i..])
      {
        assert plan[i..][0] == plan[i] && plan[i..][1..] == plan[i + 1..];
        assert troubles[i..][0] == troubles[i] && troubles[i..][1..] == troubles[i + 1..];
        ok := DoItem(plan[i], troubles[i]);
        if !ok {
          return false;
        }
        i := i + 1;
      }
      return true;
    }

    method DoItem(item: Item, t: Trouble) returns (ok: bool)
      modifies this
      ensures (Contents(), ok) == RunItem(old(Contents()), item, t)
    {
      match item
      case UniqueItem(table, index, columns, name) =>
        if (table, name) !in constraints {
          ok := EnsureIndex(index, Shape(table, columns, true, true), t);
          if !ok {
            return false;
          }
        }
        ok := EnsureUnique(table, name, columns, index, t);
      case IndexItem(table, index, columns) =>
        ok := EnsureIndex(index, Shape(table, columns, false, true), t);
      case _ =>
        ok := EnsureValidated((item.table, item.name), Unvalidated(item), t);
    }
  }
}
