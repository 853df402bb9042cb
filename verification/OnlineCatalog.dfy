/** The restartable catalog part of the tenant-governance upgrade: indexes built
    concurrently, unique constraints made from them, foreign keys and NOT NULL checks
    added unvalidated and then validated, every statement committing on its own. */
module OnlineCatalog {
  import opened Sql

  /** The logical fingerprint of an index. `plain` stands for the fields that must have
      their default: not primary, no exclusion, immediate, btree, no predicate,
      expression or include, default operator classes, options and collations. */
  datatype Shape = Shape(table: string, columns: seq<string>, unique: bool, plain: bool)
  datatype Index = Index(shape: Shape, valid: bool, ready: bool, live: bool)

  /** A constraint row. `plain` stands for the flags that must be off, and for a foreign
      key the default match and actions. A unique constraint is backed by an index. */
  datatype Constraint =
    | UniqueKey(columns: seq<string>, plain: bool, validated: bool, backing: string)
    | ForeignKey(columns: seq<string>, refTable: string, refColumns: seq<string>, plain: bool, validated: bool)
    | NotNullCheck(plain: bool, validated: bool)
    | OtherConstraint

  type ConstraintName = (string, string)

  datatype Catalog = Catalog(indexes: map<string, Index>, constraints: map<ConstraintName, Constraint>)

  /** One entry of the upgrade's lists. */
  datatype Item =
    | UniqueItem(table: string, index: string, columns: seq<string>, name: string)
    | IndexItem(table: string, index: string, columns: seq<string>)
    | ForeignItem(table: string, name: string, columns: seq<string>, refTable: string, refColumns: seq<string>)
    | NotNullItem(table: string, name: string)

  /** How a statement goes: through; not at all; a concurrent build that leaves its live
      invalid shell; a concurrent drop that leaves a dead one. */
  datatype Fault = Smooth | Stopped | Shell(ready: bool) | Dead

  /** The faults of the statements an item may issue. */
  datatype Trouble = Trouble(drop: Fault, create: Fault, alter: Fault, validate: Fault)

  const NO_TROUBLE := Trouble(Smooth, Smooth, Smooth, Smooth)

  // ---------------------------------------------------------------------------
  // Indexes

  function Fine(shape: Shape): Index { Index(shape, true, true, true) }

  predicate Usable(i: Index) { i.valid && i.ready && i.live }

  function DropIndex(c: Catalog, index: string, f: Fault): (Catalog, bool)
    requires index in c.indexes
  {
    match f
    case Smooth => (c.(indexes := c.indexes - {index}), true)
    case Dead =>
        (c.(indexes := c.indexes[index := c.indexes[index].(valid := false, ready := false, live := false)]), false)
    case _ => (c, false)
  }

  function CreateIndex(c: Catalog, index: string, shape: Shape, f: Fault): (Catalog, bool) {
    match f
    case Smooth => (c.(indexes := c.indexes[index := Fine(shape)]), true)
    case Shell(ready) => (c.(indexes := c.indexes[index := Index(shape, false, ready, true)]), false)
    case _ => (c, false)
  }

  function EnsureIndex(c: Catalog, index: string, shape: Shape, t: Trouble): (Catalog, bool) {
    if index !in c.indexes then CreateIndex(c, index, shape, t.create)
    else
      var row := c.indexes[index];
      if !Usable(row) then
        if row.shape != shape || !row.live then (c, false)
        else
          var (dropped, ok) := DropIndex(c, index, t.drop);
          if !ok then (dropped, false) else CreateIndex(dropped, index, shape, t.create)
      else (c, row.shape == shape)
  }

  // ---------------------------------------------------------------------------
  // Constraints

  predicate ExactUnique(c: Catalog, table: string, name: string, columns: seq<string>) {
    && (table, name) in c.constraints && c.constraints[(table, name)] == UniqueKey(columns, true, true, name)
    && name in c.indexes && c.indexes[name] == Fine(Shape(table, columns, true, true))
  }

  /** ADD CONSTRAINT ... UNIQUE USING INDEX: takes the index's columns and renames it. */
  function UseIndex(c: Catalog, table: string, name: string, index: string, f: Fault): (Catalog, bool) {
    if !f.Smooth? || index !in c.indexes || name in c.indexes || !Usable(c.indexes[index])
       || c.indexes[index].shape.table != table || !c.indexes[index].shape.unique || !c.indexes[index].shape.plain then
           (c, false)
    else
      (Catalog((c.indexes - {index})[name := c.indexes[index]],
               c.constraints[(table, name) := UniqueKey(c.indexes[index].shape.columns, true, true, name)]), true)
  }

  function EnsureUnique(c: Catalog, table: string, name: string, columns: seq<string>, index: string,
        t: Trouble): (Catalog, bool) {
    if (table, name) in c.constraints then (c, ExactUnique(c, table, name, columns))
    else
      var (d, ok) := UseIndex(c, table, name, index, t.alter);
      (d, ok && ExactUnique(d, table, name, columns))
  }

  /** Adding a constraint unvalidated, unless one of that name is there. */
  function AddUnvalidated(c: Catalog, key: ConstraintName, row: Constraint, t: Trouble): (Catalog, bool) {
    if key in c.constraints then (c, true)
    else if t.alter.Smooth? then (c.(constraints := c.constraints[key := row]), true)
    else (c, false)
  }

  function Validated(row: Constraint): Constraint
    requires row.ForeignKey? || row.NotNullCheck?
  {
    if row.ForeignKey? then ForeignKey(row.columns, row.refTable, row.refColumns, row.plain, true)
    else NotNullCheck(row.plain, true)
  }

  predicate ExactBut(c: Catalog, key: ConstraintName, row: Constraint)
    requires row.ForeignKey? || row.NotNullCheck?
  {
    key in c.constraints && (c.constraints[key] == row || c.constraints[key] == Validated(row))
  }

  /** The ensure step and the validate step of a foreign key or check: `row` is the
      constraint as it is added, unvalidated. */
  function EnsureValidated(c: Catalog, key: ConstraintName, row: Constraint, t: Trouble): (Catalog, bool)
    requires row.ForeignKey? || row.NotNullCheck?
  {
    var (added, ok) := AddUnvalidated(c, key, row, t);
    if !ok || !ExactBut(added, key, row) then (added, false)
    else if added.constraints[key].validated then (added, true)
    else if t.validate.Smooth? then (added.(constraints := added.constraints[key := Validated(row)]), true)
    else (added, false)
  }

  // ---------------------------------------------------------------------------
  // Items and plans

  function Unvalidated(item: Item): Constraint
    requires item.ForeignItem? || item.NotNullItem?
    ensures Unvalidated(item).ForeignKey? || Unvalidated(item).NotNullCheck?
  {
    match item
    case ForeignItem(table, name, columns, refTable, refColumns) =>
        ForeignKey(columns, refTable, refColumns, true, false)
    case NotNullItem(table, name) => NotNullCheck(true, false)
  }

  function RunItem(c: Catalog, item: Item, t: Trouble): (Catalog, bool) {
    match item
    case UniqueItem(table, index, columns, name) =>
      if (table, name) in c.constraints then EnsureUnique(c, table, name, columns, index, t)
      else
        var (d, ok) := EnsureIndex(c, index, Shape(table, columns, true, true), t);
        if ok then EnsureUnique(d, table, name, columns, index, t) else (d, false)
    case IndexItem(table, index, columns) => EnsureIndex(c, index, Shape(table, columns, false, true), t)
    case _ => EnsureValidated(c, (item.table, item.name), Unvalidated(item), t)
  }

  /** The upgrade from one catalog: the catalog it leaves and whether it got through. */
  function RunPlan(c: Catalog, plan: seq<Item>, troubles: seq<Trouble>): (Catalog, bool)
    requires |troubles| == |plan|
    decreases |plan|
  {
    if plan == [] then (c, true)
    else
      var (d, ok) := RunItem(c, plan[0], troubles[0]);
      if ok then RunPlan(d, plan[1..], troubles[1..]) else (d, false)
  }

  function NoTroubles(n: nat): seq<Trouble> { seq(n, i => NO_TROUBLE) }

  function IndexNames(item: Item): set<string> {
    match item
    case UniqueItem(table, index, columns, name) => {index, name}
    case IndexItem(table, index, columns) => {index}
    case _ => {}
  }

  function ConstraintNames(item: Item): set<ConstraintName> {
    if item.IndexItem? then {} else {(item.table, item.name)}
  }

  /** No two items name the same object, and no item the same index twice. */
  predicate DistinctNames(plan: seq<Item>) {
    && (forall i, j :: 0 <= i < j < |plan| ==> Apart(plan[i], plan[j]))
    && (forall i :: 0 <= i < |plan| ==> plan[i].UniqueItem? ==> plan[i].index != plan[i].name)
  }

  predicate Apart(a: Item, b: Item) {
    IndexNames(a) !! IndexNames(b) && ConstraintNames(a) !! ConstraintNames(b)
  }

  /** The lists of the upgrade. */
  const PLAN: seq<Item> := [
    UniqueItem("roles", "ux_roles_tenant_id_id_online", ["tenant_id", "id"], "uq_roles_tenant_id_id"),
    UniqueItem("roles", "ux_roles_tenant_name_online", ["tenant_id", "name"], "uq_roles_tenant_name"),
    UniqueItem("permissions", "ux_permissions_tenant_id_id_online", ["tenant_id", "id"], "uq_permissions_tenant_id_id"),
    UniqueItem("permissions", "ux_permissions_tenant_code_online", ["tenant_id", "code"], "uq_permissions_tenant_code"),
    IndexItem("account_roles", "ix_account_roles_tenant_id", ["tenant_id"]),
    IndexItem("role_permissions", "ix_role_permissions_tenant_id", ["tenant_id"]),
    ForeignItem("accounts", "fk_accounts_tenant_organization", ["tenant_id", "organization_id"], "organizations",
        ["tenant_id", "id"]),
    ForeignItem("account_roles", "fk_account_roles_tenant_account", ["tenant_id", "account_id"], "accounts",
        ["tenant_id", "id"]),
    ForeignItem("account_roles", "fk_account_roles_tenant_role", ["tenant_id", "role_id"], "roles",
        ["tenant_id", "id"]),
    ForeignItem("role_permissions", "fk_role_permissions_tenant_role", ["tenant_id", "role_id"], "roles",
        ["tenant_id", "id"]),
    ForeignItem("role_permissions", "fk_role_permissions_tenant_permission", ["tenant_id", "permission_id"],
        "permissions", ["tenant_id", "id"]),
    NotNullItem("account_roles", "ck_account_roles_tenant_id_nn"),
    NotNullItem("role_permissions", "ck_role_permissions_tenant_id_nn")]
}
