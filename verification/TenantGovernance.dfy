/** Tenant governance: accounts, roles, role grants and the organization tree of
    every tenant, the row guards in front of them, and the constraint triggers
    deferred to the end of the transaction. */
module TenantGovernance {
  import opened Sql
  import Forest

  datatype Account = Account(tenant: Uuid, organization: Uuid, active: bool)
  datatype Role = Role(tenant: Uuid, name: string)
  datatype Organization = Organization(tenant: Uuid, parent: Option<Uuid>)
  datatype Opening = Opening(initialAdmin: Uuid, pendingActivation: bool)

  /** Primary key of `account_roles`: account and role. */
  type Grant = (Uuid, Uuid)

  /** The committed tables, or a transaction's view of them. A grant carries its
      `tenant_id` column. */
  datatype Tables = Tables(
    tenants: set<Uuid>,
    accounts: map<Uuid, Account>,
    roles: map<Uuid, Role>,
    grants: map<Grant, Uuid>,
    openings: map<Uuid, Opening>,
    organizations: map<Uuid, Organization>)

  const ADMIN := "admin"

  ghost predicate Witness(v: Tables, tenant: Uuid, account: Uuid, role: Uuid) {
    && account in v.accounts && v.accounts[account].tenant == tenant && v.accounts[account].active
    && role in v.roles && v.roles[role].tenant == tenant && v.roles[role].name == ADMIN
    && (account, role) in v.grants
  }

  /** The join of the last-administrator check returns a row. */
  ghost predicate HasActiveAdmin(v: Tables, tenant: Uuid) {
    exists account, role :: Witness(v, tenant, account, role)
  }

  /** The organization rows of one tenant as parent links. */
  function Tree(v: Tables, tenant: Uuid): Forest.Forest {
    map id | id in v.organizations && v.organizations[id].tenant == tenant :: v.organizations[id].parent
  }

  // ---------------------------------------------------------------------------
  // Deferred constraint triggers

  /** A queued trigger call with the row versions it was queued for. */
  datatype Event =
    | GrantChanged(account: Uuid, role: Uuid)
    | AccountInserted(id: Uuid, row: Account)
    | AccountUpdated(before: Account, after: Account)
    | AccountDeleted(before: Account)
    | RoleUpdated(wasRole: Role, isRole: Role)
    | RoleDeleted(wasRole: Role)
    | OrganizationPlaced(id: Uuid, place: Organization)

  /** The window in which a platform-opened tenant waits for its first administrator. */
  ghost predicate PendingInitialAdmin(v: Tables, id: Uuid, row: Account) {
    && !row.active
    && row.tenant in v.openings
    && v.openings[row.tenant] == Opening(id, true)
    && exists role :: (id, role) in v.grants && v.grants[(id, role)] == row.tenant
                      && role in v.roles && v.roles[role] == Role(row.tenant, ADMIN)
  }

  /** What a queued call accepts when it is finally evaluated on `v`. A grant whose
      account is gone looks up no tenant, so its check is not required. */
  ghost predicate Accepts(v: Tables, e: Event) {
    match e
    case GrantChanged(account, role) =>
      account in v.accounts && role in v.roles && v.roles[role].name == ADMIN
      ==> HasActiveAdmin(v, v.accounts[account].tenant)
    case AccountInserted(id, row) => HasActiveAdmin(v, row.tenant) || PendingInitialAdmin(v, id, row)
    case AccountUpdated(before, after) => before.active && !after.active ==> HasActiveAdmin(v, before.tenant)
    case AccountDeleted(before) => HasActiveAdmin(v, before.tenant)
    case RoleUpdated(was, now) => was.name == ADMIN && now.name != ADMIN ==> HasActiveAdmin(v, was.tenant)
    case RoleDeleted(was) => was.name == ADMIN ==> HasActiveAdmin(v, was.tenant)
    case OrganizationPlaced(id, place) => Forest.ParentCheck(Tree(v, place.tenant), id, place.parent)
  }

  // ---------------------------------------------------------------------------
  // Transactions: uncommitted writes laid over the committed tables

  /** Uncommitted row versions (None for a deleted row), the queued events, and,
      once the commit has begun, how many of them have been evaluated. */
  datatype Tx = Tx(
    accounts: map<Uuid, Option<Account>>,
    roles: map<Uuid, Option<Role>>,
    grants: map<Grant, Option<Uuid>>,
    openings: map<Uuid, Option<Opening>>,
    organizations: map<Uuid, Option<Organization>>,
    events: seq<Event>,
    checked: Option<nat>)

  const FRESH_TX := Tx(map[], map[], map[], map[], map[], [], None)

  function Overlay<K(!new), V>(base: map<K, V>, writes: map<K, Option<V>>): (r: map<K, V>)
    ensures forall k :: k in r <==> if k in writes then writes[k].Some? else k in base
    ensures forall k :: k in r ==> r[k] == if k in writes then writes[k].value else base[k]
  {
    map k | k in base.Keys + writes.Keys && (k in writes ==> writes[k].Some?)
      :: if k in writes then writes[k].value else base[k]
  }

  /** What a statement of the transaction sees: everything committed, and its own writes. */
  function View(db: Tables, x: Tx): Tables {
    db.(accounts := Overlay(db.accounts, x.accounts),
        roles := Overlay(db.roles, x.roles),
        grants := Overlay(db.grants, x.grants),
        openings := Overlay(db.openings, x.openings),
        organizations := Overlay(db.organizations, x.organizations))
  }

  /** No row is written by both transactions. */
  predicate RowsApart(x: Tx, y: Tx) {
    && (forall k :: k in x.accounts ==> k !in y.accounts)
    && (forall k :: k in x.roles ==> k !in y.roles)
    && (forall k :: k in x.grants ==> k !in y.grants)
    && (forall k :: k in x.openings ==> k !in y.openings)
    && (forall k :: k in x.organizations ==> k !in y.organizations)
  }

  datatype Statement =
    | InsertAccount(id: Uuid, account: Account)
    | UpdateAccount(id: Uuid, account: Account)
    | DeleteAccount(id: Uuid)
    | InsertRole(id: Uuid, role: Role)
    | UpdateRole(id: Uuid, role: Role)
    | DeleteRole(id: Uuid)
    | InsertGrant(grant: Grant, tenantColumn: Option<Uuid>)
    | MoveGrant(grant: Grant, to: Grant, tenantColumn: Option<Uuid>)
    | DeleteGrant(grant: Grant)
    | PutOpening(id: Uuid, opening: Option<Opening>)
    | PlaceOrganization(id: Uuid, organization: Organization)
    | DeleteOrganization(id: Uuid)

  /** A statement that is not refused: the transaction after it, and the tenant row
      its BEFORE trigger locked FOR UPDATE. */
  datatype Effect = Effect(tx: Tx, lock: Option<Uuid>)

  /** The association trigger: endpoints exist, agree on the tenant, and a supplied
      `tenant_id` matches; it then assigns the tenant of the endpoints. */
  function GrantTenant(v: Tables, grant: Grant, supplied: Option<Uuid>): Option<Uuid> {
    if grant.0 !in v.accounts || grant.1 !in v.roles then None
    else if v.accounts[grant.0].tenant != v.roles[grant.1].tenant then None
    else if supplied.Some? && supplied.value != v.accounts[grant.0].tenant then None
    else Some(v.accounts[grant.0].tenant)
  }

  predicate OrganizationOf(v: Tables, id: Uuid, tenant: Uuid) {
    id in v.organizations && v.organizations[id].tenant == tenant
  }

  predicate RoleNameFree(v: Tables, id: Uuid, role: Role) {
    forall other :: other in v.roles && v.roles[other] == role ==> other == id
  }

  /** One statement against the view, with the guards of its BEFORE triggers; None
      when a guard raises. Foreign keys are not modelled: they only refuse more. */
  function Execute(db: Tables, x: Tx, s: Statement): Option<Effect> {
    var v := View(db, x);
    match s
    case InsertAccount(id, row) =>
      if id in v.accounts || row.tenant !in v.tenants || !OrganizationOf(v, row.organization, row.tenant) then None
      else Some(Effect(x.(accounts := x.accounts[id := Some(row)],
                          events := x.events + [AccountInserted(id, row)]), Some(row.tenant)))
    case UpdateAccount(id, row) =>
      if id !in v.accounts || row.tenant != v.accounts[id].tenant || row.tenant !in v.tenants
         || !OrganizationOf(v, row.organization, row.tenant) then None
      else Some(Effect(x.(accounts := x.accounts[id := Some(row)],
                          events := x.events + [AccountUpdated(v.accounts[id], row)]), Some(row.tenant)))
    case DeleteAccount(id) =>
      if id !in v.accounts || v.accounts[id].tenant !in v.tenants then None
      else Some(Effect(x.(accounts := x.accounts[id := None],
                          events := x.events + [AccountDeleted(v.accounts[id])]), Some(v.accounts[id].tenant)))
    case InsertRole(id, row) =>
      if id in v.roles || row.tenant !in v.tenants || !RoleNameFree(v, id, row) then None
      else Some(Effect(x.(roles := x.roles[id := Some(row)]), Some(row.tenant)))
    case UpdateRole(id, row) =>
      if id !in v.roles || row.tenant != v.roles[id].tenant || row.tenant !in v.tenants
         || !RoleNameFree(v, id, row) then None
      else Some(Effect(x.(roles := x.roles[id := Some(row)],
                          events := x.events + [RoleUpdated(v.roles[id], row)]), Some(row.tenant)))
    case DeleteRole(id) =>
      if id !in v.roles || v.roles[id].tenant !in v.tenants then None
      else Some(Effect(x.(roles := x.roles[id := None],
                          events := x.events + [RoleDeleted(v.roles[id])]), Some(v.roles[id].tenant)))
    case InsertGrant(grant, supplied) =>
      if grant in v.grants || GrantTenant(v, grant, supplied).None? then None
      else Some(Effect(x.(grants := x.grants[grant := GrantTenant(v, grant, supplied)]), None))
    case MoveGrant(grant, to, supplied) =>
      if grant !in v.grants || grant.0 !in v.accounts || to.0 !in v.accounts
         || v.accounts[to.0].tenant != v.accounts[grant.0].tenant
         || (to != grant && to in v.grants) || GrantTenant(v, to, supplied).None? then None
      else Some(Effect(x.(grants := x.grants[grant := None][to := GrantTenant(v, to, supplied)],
                          events := x.events + [GrantChanged(grant.0, grant.1)]),
                       Some(v.accounts[grant.0].tenant)))
    case DeleteGrant(grant) =>
      if grant !in v.grants || grant.0 !in v.accounts then None
      else Some(Effect(x.(grants := x.grants[grant := None],
                          events := x.events + [GrantChanged(grant.0, grant.1)]),
                       Some(v.accounts[grant.0].tenant)))
    case PutOpening(id, opening) =>
      Some(Effect(x.(openings := x.openings[id := opening]), None))
    case PlaceOrganization(id, row) =>
      if (id in v.organizations && v.organizations[id].tenant != row.tenant) || row.tenant !in v.tenants
         || (row.parent.Some? && !OrganizationOf(v, row.parent.value, row.tenant)) then None
      else Some(Effect(x.(organizations := x.organizations[id := Some(row)],
                          events := x.events + [OrganizationPlaced(id, row)]), Some(row.tenant)))
    case DeleteOrganization(id) =>
      if id !in v.organizations then None
      else Some(Effect(x.(organizations := x.organizations[id := None]), None))
  }

  // ---------------------------------------------------------------------------
  // Interleaved runs

  /** Committed tables, the holder of each locked tenant row, and the open transactions. */
  datatype State = State(db: Tables, locks: map<Uuid, Uuid>, txs: map<Uuid, Tx>)

  datatype Step =
    | Begin(tx: Uuid)
    | Run(tx: Uuid, statement: Statement)
    | StartCommit(tx: Uuid)
    | CheckNext(tx: Uuid)
    | Publish(tx: Uuid)
    | Abort(tx: Uuid)

  function Held(s: State, tx: Uuid): set<Uuid> {
    set tenant | tenant in s.locks && s.locks[tenant] == tx
  }

  function Release(locks: map<Uuid, Uuid>, tx: Uuid): map<Uuid, Uuid> {
    map tenant | tenant in locks && locks[tenant] != tx :: locks[tenant]
  }

  /** One step of one transaction. A commit evaluates its queued events one at a
      time, each against whatever is committed at that moment, and only then
      publishes; other transactions may step in between. None: the step waits or
      is refused. */
  ghost function Next(s: State, step: Step): Option<State> {
    match step
    case Begin(tx) =>
      if tx in s.txs || tx in s.locks.Values then None else Some(s.(txs := s.txs[tx := FRESH_TX]))
    case Run(tx, statement) =>
      if tx !in s.txs || s.txs[tx].checked.Some? then None
      else (match Execute(s.db, s.txs[tx], statement)
        case None => None
        case Some(effect) =>
          if effect.lock.Some? && effect.lock.value in s.locks && s.locks[effect.lock.value] != tx then None
          else if exists other :: other in s.txs && other != tx && !RowsApart(effect.tx, s.txs[other]) then None
          else Some(State(s.db,
                          if effect.lock.Some? then s.locks[effect.lock.value := tx] else s.locks,
                          s.txs[tx := effect.tx])))
    case StartCommit(tx) =>
      if tx !in s.txs || s.txs[tx].checked.Some? then None
      else Some(s.(txs := s.txs[tx := s.txs[tx].(checked := Some(0))]))
    case CheckNext(tx) =>
      if tx !in s.txs || s.txs[tx].checked.None? || s.txs[tx].checked.value >= |s.txs[tx].events|
         || !Accepts(View(s.db, s.txs[tx]), s.txs[tx].events[s.txs[tx].checked.value]) then None
      else Some(s.(txs := s.txs[tx := s.txs[tx].(checked := Some(s.txs[tx].checked.value + 1))]))
    case Publish(tx) =>
      if tx !in s.txs || s.txs[tx].checked != Some(|s.txs[tx].events|) then None
      else Some(State(View(s.db, s.txs[tx]), Release(s.locks, tx), s.txs - {tx}))
    case Abort(tx) =>
      if tx !in s.txs then None else Some(s.(locks := Release(s.locks, tx), txs := s.txs - {tx}))
  }

  /** Steps that are not possible leave the state alone. */
  ghost function Runs(s: State, steps: seq<Step>): State
    decreases |steps|
  {
    if steps == [] then s
    else match Next(s, steps[0])
      case None => Runs(s, steps[1..])
      case Some(after) => Runs(after, steps[1..])
  }

  // ---------------------------------------------------------------------------
  // What every reachable state keeps

  ghost predicate AccountLoss(e: Event, tenant: Uuid) {
    || (e.AccountUpdated? && e.before.active && !e.after.active && e.before.tenant == tenant)
    || (e.AccountDeleted? && e.before.tenant == tenant)
  }

  ghost predicate RoleLoss(e: Event, tenant: Uuid) {
    || (e.RoleUpdated? && e.wasRole == Role(tenant, ADMIN) && e.isRole.name != ADMIN)
    || (e.RoleDeleted? && e.wasRole == Role(tenant, ADMIN))
  }

  /** Every write that can cost a tenant its administrator holds that tenant's row. */
  ghost predicate AccountsLocked(db: Tables, held: set<Uuid>, x: Tx) {
    && (forall a :: a in x.accounts && a in db.accounts ==> db.accounts[a].tenant in held)
    && (forall a :: a in x.accounts && x.accounts[a].Some? ==> x.accounts[a].value.tenant in held)
  }

  ghost predicate RolesLocked(db: Tables, held: set<Uuid>, x: Tx) {
    && (forall r :: r in x.roles && r in db.roles ==> db.roles[r].tenant in held)
    && (forall r :: r in x.roles && x.roles[r].Some? ==> x.roles[r].value.tenant in held)
  }

  ghost predicate AccountPinned(db: Tables, held: set<Uuid>, x: Tx, account: Uuid) {
    account in x.accounts || (account in db.accounts && db.accounts[account].tenant in held)
  }

  ghost predicate GrantsLocked(db: Tables, held: set<Uuid>, x: Tx) {
    forall g :: g in x.grants && x.grants[g].None? ==> AccountPinned(db, held, x, g.0)
  }

  ghost predicate PlacesLocked(held: set<Uuid>, x: Tx) {
    forall o :: o in x.organizations && x.organizations[o].Some? ==> x.organizations[o].value.tenant in held
  }

  ghost predicate EventLocked(db: Tables, held: set<Uuid>, x: Tx, e: Event) {
    match e
    case GrantChanged(account, role) => AccountPinned(db, held, x, account)
    case AccountInserted(id, row) => row.tenant in held
    case AccountUpdated(before, after) => before.tenant in held
    case AccountDeleted(before) => before.tenant in held
    case RoleUpdated(was, now) => was.tenant in held
    case RoleDeleted(was) => was.tenant in held
    case OrganizationPlaced(id, place) => place.tenant in held
  }

  ghost predicate EventsLocked(db: Tables, held: set<Uuid>, x: Tx) {
    forall e :: e in x.events ==> EventLocked(db, held, x, e)
  }

  /** Every witness row the transaction takes away has queued a check for its tenant,
      and every organization row it leaves behind has queued one for its final parent. */
  ghost predicate AccountLossesQueued(db: Tables, x: Tx) {
    forall a :: a in x.accounts && a in db.accounts && db.accounts[a].active ==>
      || (x.accounts[a].Some? && x.accounts[a].value.active && x.accounts[a].value.tenant == db.accounts[a].tenant)
      || exists e :: e in x.events && AccountLoss(e, db.accounts[a].tenant)
  }

  ghost predicate RoleLossesQueued(db: Tables, x: Tx) {
    forall r :: r in x.roles && r in db.roles && db.roles[r].name == ADMIN ==>
      || (x.roles[r].Some? && x.roles[r].value == db.roles[r])
      || exists e :: e in x.events && RoleLoss(e, db.roles[r].tenant)
  }

  ghost predicate GrantLossesQueued(x: Tx) {
    forall g :: g in x.grants && x.grants[g].None? ==> GrantChanged(g.0, g.1) in x.events
  }

  ghost predicate PlacesQueued(x: Tx) {
    forall o :: o in x.organizations && x.organizations[o].Some? ==>
      OrganizationPlaced(o, x.organizations[o].value) in x.events
  }

  /** The part of an accepted check that later commits cannot undo. An insertion
      may have been accepted through the pending-administrator window only. */
  ghost predicate Settled(v: Tables, e: Event) {
    match e
    case GrantChanged(account, role) =>
      (account in v.accounts && role in v.roles && v.roles[role] == Role(v.accounts[account].tenant, ADMIN))
      ==> HasActiveAdmin(v, v.accounts[account].tenant)
    case AccountInserted(_, _) => true
    case _ => Accepts(v, e)
  }

  ghost predicate ChecksSettled(db: Tables, x: Tx) {
    x.checked.Some? ==>
      && x.checked.value <= |x.events|
      && forall i :: 0 <= i < x.checked.value ==> Settled(View(db, x), x.events[i])
  }

  ghost predicate TxInv(db: Tables, held: set<Uuid>, x: Tx) {
    && AccountsLocked(db, held, x) && RolesLocked(db, held, x) && GrantsLocked(db, held, x)
    && PlacesLocked(held, x) && EventsLocked(db, held, x)
    && AccountLossesQueued(db, x) && RoleLossesQueued(db, x) && GrantLossesQueued(x) && PlacesQueued(x)
    && ChecksSettled(db, x)
  }

  ghost predicate Inv(s: State) {
    && (forall tenant :: tenant in s.locks ==> s.locks[tenant] in s.txs)
    && (forall x, y :: x in s.txs && y in s.txs && x != y ==> RowsApart(s.txs[x], s.txs[y]))
    && (forall x :: x in s.txs ==> TxInv(s.db, Held(s, x), s.txs[x]))
  }

  // ---------------------------------------------------------------------------
  // Statements keep the transaction's own invariant

  function Locking(held: set<Uuid>, lock: Option<Uuid>): set<Uuid> {
    if lock.Some? then held + {lock.value} else held
  }

  lemma StatementKeepsAccountLocks(db: Tables, held: set<Uuid>, x: Tx, s: Statement, e: Effect)
    requires Execute(db, x, s) == Some(e) && AccountsLocked(db, held, x)
    ensures AccountsLocked(db, Locking(held, e.lock), e.tx)
  {
  }

  lemma StatementKeepsRoleLocks(db: Tables, held: set<Uuid>, x: Tx, s: Statement, e: Effect)
    requires Execute(db, x, s) == Some(e) && RolesLocked(db, held, x)
    ensures RolesLocked(db, Locking(held, e.lock), e.tx)
  {
  }

  lemma StatementKeepsPlaceLocks(db: Tables, held: set<Uuid>, x: Tx, s: Statement, e: Effect)
    requires Execute(db, x, s) == Some(e) && PlacesLocked(held, x)
    ensures PlacesLocked(Locking(held, e.lock), e.tx)
  {
  }

  lemma StatementKeepsPins(db: Tables, held: set<Uuid>, x: Tx, s: Statement, e: Effect, a: Uuid)
    requires Execute(db, x, s) == Some(e) && AccountPinned(db, held, x, a)
    ensures AccountPinned(db, Locking(held, e.lock), e.tx, a)
  {
  }

  lemma StatementKeepsGrantLocks(db: Tables, held: set<Uuid>, x: Tx, s: Statement, e: Effect)
    requires Execute(db, x, s) == Some(e) && GrantsLocked(db, held, x)
    ensures GrantsLocked(db, Locking(held, e.lock), e.tx)
  {
    forall g | g in e.tx.grants && e.tx.grants[g].None? ensures AccountPinned(db, Locking(held, e.lock), e.tx, g.0) {
      if g in x.grants && x.grants[g].None? {
        StatementKeepsPins(db, held, x, s, e, g.0);
      }
    }
  }

  lemma StatementKeepsEventLocks(db: Tables, held: set<Uuid>, x: Tx, s: Statement, e: Effect)
    requires Execute(db, x, s) == Some(e) && EventsLocked(db, held, x)
    ensures EventsLocked(db, Locking(held, e.lock), e.tx)
  {
    forall event | event in e.tx.events ensures EventLocked(db, Locking(held, e.lock), e.tx, event) {
      if event in x.events {
        assert EventLocked(db, held, x, event);
        if event.GrantChanged? {
          StatementKeepsPins(db, held, x, s, e, event.account);
        }
      }
    }
  }

  lemma StatementQueuesAccountLosses(db: Tables, x: Tx, s: Statement, e: Effect)
    requires Execute(db, x, s) == Some(e) && AccountLossesQueued(db, x)
    ensures AccountLossesQueued(db, e.tx)
  {
    forall a | a in e.tx.accounts && a in db.accounts && db.accounts[a].active
      ensures || (e.tx.accounts[a].Some? && e.tx.accounts[a].value.active
                  && e.tx.accounts[a].value.tenant == db.accounts[a].tenant)
              || exists event :: event in e.tx.events && AccountLoss(event, db.accounts[a].tenant)
    {
      if a in x.accounts && (exists event :: event in x.events && AccountLoss(event, db.accounts[a].tenant)) {
        var event :| event in x.events && AccountLoss(event, db.accounts[a].tenant);
        assert event in e.tx.events;
      } else if s.UpdateAccount? && s.id == a && !s.account.active {
        assert AccountLoss(AccountUpdated(View(db, x).accounts[a], s.account), db.accounts[a].tenant);
        assert AccountUpdated(View(db, x).accounts[a], s.account) in e.tx.events;
      } else if s.DeleteAccount? && s.id == a {
        assert AccountLoss(AccountDeleted(View(db, x).accounts[a]), db.accounts[a].tenant);
        assert AccountDeleted(View(db, x).accounts[a]) in e.tx.events;
      }
    }
  }

  lemma StatementQueuesRoleLosses(db: Tables, x: Tx, s: Statement, e: Effect)
    requires Execute(db, x, s) == Some(e) && RoleLossesQueued(db, x)
    ensures RoleLossesQueued(db, e.tx)
  {
    forall r | r in e.tx.roles && r in db.roles && db.roles[r].name == ADMIN
      ensures || (e.tx.roles[r].Some? && e.tx.roles[r].value == db.roles[r])
              || exists event :: event in e.tx.events && RoleLoss(event, db.roles[r].tenant)
    {
      if r in x.roles && (exists event :: event in x.events && RoleLoss(event, db.roles[r].tenant)) {
        var event :| event in x.events && RoleLoss(event, db.roles[r].tenant);
        assert event in e.tx.events;
      } else if s.UpdateRole? && s.id == r && s.role.name != ADMIN {
        assert RoleLoss(RoleUpdated(View(db, x).roles[r], s.role), db.roles[r].tenant);
        assert RoleUpdated(View(db, x).roles[r], s.role) in e.tx.events;
      } else if s.DeleteRole? && s.id == r {
        assert RoleLoss(RoleDeleted(View(db, x).roles[r]), db.roles[r].tenant);
        assert RoleDeleted(View(db, x).roles[r]) in e.tx.events;
      }
    }
  }

  lemma StatementQueuesGrantLosses(db: Tables, x: Tx, s: Statement, e: Effect)
    requires Execute(db, x, s) == Some(e) && GrantLossesQueued(x)
    ensures GrantLossesQueued(e.tx)
  {
    forall g | g in e.tx.grants && e.tx.grants[g].None? ensures GrantChanged(g.0, g.1) in e.tx.events {
      assert (g.0, g.1) == g;
      if g in x.grants && x.grants[g].None? {
        assert GrantChanged(g.0, g.1) in x.events;
      } else {
        assert e.tx.events[|x.events|] == GrantChanged(g.0, g.1);
      }
    }
  }

  lemma StatementQueuesPlaces(db: Tables, x: Tx, s: Statement, e: Effect)
    requires Execute(db, x, s) == Some(e) && PlacesQueued(x)
    ensures PlacesQueued(e.tx)
  {
    forall o | o in e.tx.organizations && e.tx.organizations[o].Some?
      ensures OrganizationPlaced(o, e.tx.organizations[o].value) in e.tx.events
    {
      if s.PlaceOrganization? && s.id == o {
        assert e.tx.events[|x.events|] == OrganizationPlaced(o, s.organization);
      } else {
        assert OrganizationPlaced(o, x.organizations[o].value) in x.events;
      }
    }
  }

  // ---------------------------------------------------------------------------
  // Another transaction's commit cannot undo an accepted check

  /** `x` keeps running while `y` publishes: their rows and locked tenants are disjoint. */
  ghost predicate Apart(db: Tables, hx: set<Uuid>, hy: set<Uuid>, x: Tx, y: Tx) {
    && hx !! hy && RowsApart(x, y)
    && AccountsLocked(db, hx, x) && AccountsLocked(db, hy, y)
    && RolesLocked(db, hx, x) && RolesLocked(db, hy, y)
    && GrantsLocked(db, hy, y) && PlacesLocked(hy, y)
  }

  lemma ViewedAccount(db: Tables, x: Tx, a: Uuid)
    ensures Lookup(View(db, x).accounts, a) == if a in x.accounts then x.accounts[a] else Lookup(db.accounts, a)
  {
  }

  lemma ViewedRole(db: Tables, x: Tx, r: Uuid)
    ensures Lookup(View(db, x).roles, r) == if r in x.roles then x.roles[r] else Lookup(db.roles, r)
  {
  }

  ghost predicate OfTenants(row: Option<Account>, tenants: set<Uuid>) {
    row.Some? && row.value.tenant in tenants
  }

  ghost predicate RoleOfTenants(row: Option<Role>, tenants: set<Uuid>) {
    row.Some? && row.value.tenant in tenants
  }

  lemma AccountsOfLockedTenantStay(db: Tables, hx: set<Uuid>, hy: set<Uuid>, x: Tx, y: Tx, a: Uuid)
    requires Apart(db, hx, hy, x, y)
    requires || a in x.accounts
             || OfTenants(Lookup(View(db, x).accounts, a), hx)
             || OfTenants(Lookup(View(View(db, y), x).accounts, a), hx)
    ensures Lookup(View(View(db, y), x).accounts, a) == Lookup(View(db, x).accounts, a)
  {
    ViewedAccount(db, x, a);
    ViewedAccount(db, y, a);
    ViewedAccount(View(db, y), x, a);
  }

  lemma RolesOfLockedTenantStay(db: Tables, hx: set<Uuid>, hy: set<Uuid>, x: Tx, y: Tx, r: Uuid)
    requires Apart(db, hx, hy, x, y)
    requires || RoleOfTenants(Lookup(View(db, x).roles, r), hx)
             || RoleOfTenants(Lookup(View(View(db, y), x).roles, r), hx)
    ensures Lookup(View(View(db, y), x).roles, r) == Lookup(View(db, x).roles, r)
  {
    ViewedRole(db, x, r);
    ViewedRole(db, y, r);
    ViewedRole(View(db, y), x, r);
  }

  lemma GrantsOfLockedTenantStay(db: Tables, hx: set<Uuid>, hy: set<Uuid>, x: Tx, y: Tx, g: Grant)
    requires Apart(db, hx, hy, x, y)
    requires g in View(db, x).grants && g.0 in View(db, x).accounts && View(db, x).accounts[g.0].tenant in hx
    ensures g in View(View(db, y), x).grants
  {
    ViewedAccount(db, x, g.0);
    assert g in y.grants && y.grants[g].None? ==> AccountPinned(db, hy, y, g.0);
  }

  lemma AdminOfLockedTenantStays(db: Tables, hx: set<Uuid>, hy: set<Uuid>, x: Tx, y: Tx, tenant: Uuid)
    requires Apart(db, hx, hy, x, y) && tenant in hx
    requires HasActiveAdmin(View(db, x), tenant)
    ensures HasActiveAdmin(View(View(db, y), x), tenant)
  {
    var account, role :| Witness(View(db, x), tenant, account, role);
    AccountsOfLockedTenantStay(db, hx, hy, x, y, account);
    RolesOfLockedTenantStay(db, hx, hy, x, y, role);
    GrantsOfLockedTenantStay(db, hx, hy, x, y, (account, role));
    assert Witness(View(View(db, y), x), tenant, account, role);
  }

  lemma TreeOfLockedTenantShrinks(db: Tables, hx: set<Uuid>, hy: set<Uuid>, x: Tx, y: Tx, tenant: Uuid)
    requires Apart(db, hx, hy, x, y) && tenant in hx
    ensures var now := Tree(View(View(db, y), x), tenant);
            var earlier := Tree(View(db, x), tenant);
            forall o :: o in now ==> o in earlier && now[o] == earlier[o]
  {
    var now, earlier := Tree(View(View(db, y), x), tenant), Tree(View(db, x), tenant);
    forall o | o in now ensures o in earlier && now[o] == earlier[o] {
      RowOfLockedTenantStays(db, hx, hy, x, y, tenant, o);
    }
  }

  lemma RowOfLockedTenantStays(db: Tables, hx: set<Uuid>, hy: set<Uuid>, x: Tx, y: Tx, tenant: Uuid, o: Uuid)
    requires Apart(db, hx, hy, x, y) && tenant in hx && o in Tree(View(View(db, y), x), tenant)
    ensures o in Tree(View(db, x), tenant) && Tree(View(View(db, y), x), tenant)[o] == Tree(View(db, x), tenant)[o]
  {
    assert o in y.organizations ==> o !in x.organizations;
  }

  /** The role a grant names is an administrator role of the account's tenant. */
  predicate AdminGrant(v: Tables, account: Uuid, role: Uuid) {
    account in v.accounts && role in v.roles && v.roles[role] == Role(v.accounts[account].tenant, ADMIN)
  }

  /** An administrator grant seen now was one, of the same tenant, before. */
  lemma AdminGrantWas(db: Tables, hx: set<Uuid>, hy: set<Uuid>, x: Tx, y: Tx, account: Uuid, role: Uuid)
    requires Apart(db, hx, hy, x, y) && AccountPinned(db, hx, x, account)
    requires AdminGrant(View(View(db, y), x), account, role)
    ensures var earlier, now := View(db, x), View(View(db, y), x);
            && AdminGrant(earlier, account, role) && earlier.accounts[account] == now.accounts[account]
            && earlier.accounts[account].tenant in hx
  {
    ViewedAccount(db, x, account);
    AccountsOfLockedTenantStay(db, hx, hy, x, y, account);
    RolesOfLockedTenantStay(db, hx, hy, x, y, role);
  }

  lemma GrantCheckStays(db: Tables, hx: set<Uuid>, hy: set<Uuid>, x: Tx, y: Tx, account: Uuid, role: Uuid)
    requires Apart(db, hx, hy, x, y) && AccountPinned(db, hx, x, account)
    requires Settled(View(db, x), GrantChanged(account, role))
    ensures Settled(View(View(db, y), x), GrantChanged(account, role))
  {
    if AdminGrant(View(View(db, y), x), account, role) {
      AdminGrantWas(db, hx, hy, x, y, account, role);
      AdminOfLockedTenantStays(db, hx, hy, x, y, View(db, x).accounts[account].tenant);
    }
  }

  lemma PlaceCheckStays(db: Tables, hx: set<Uuid>, hy: set<Uuid>, x: Tx, y: Tx, id: Uuid, place: Organization)
    requires Apart(db, hx, hy, x, y) && place.tenant in hx
    requires Forest.ParentCheck(Tree(View(db, x), place.tenant), id, place.parent)
    ensures Forest.ParentCheck(Tree(View(View(db, y), x), place.tenant), id, place.parent)
  {
    var now := Tree(View(View(db, y), x), place.tenant);
    if place.parent.Some? && Forest.Reaches(now, place.parent.value, id) {
      var k: nat :| Forest.Hop(now, place.parent.value, k) == Some(id);
      TreeOfLockedTenantShrinks(db, hx, hy, x, y, place.tenant);
      Forest.FewerRowsFewerHops(now, Tree(View(db, x), place.tenant), place.parent.value, k);
    }
  }

  /** An accepted check stays accepted whatever another transaction publishes. */
  lemma SettledStays(db: Tables, hx: set<Uuid>, hy: set<Uuid>, x: Tx, y: Tx, e: Event)
    requires Apart(db, hx, hy, x, y)
    requires EventLocked(db, hx, x, e) && Settled(View(db, x), e)
    ensures Settled(View(View(db, y), x), e)
  {
    match e
    case GrantChanged(a, r) => GrantCheckStays(db, hx, hy, x, y, a, r);
    case AccountInserted(_, _) =>
    case AccountUpdated(before, after) =>
      if before.active && !after.active { AdminOfLockedTenantStays(db, hx, hy, x, y, before.tenant); }
    case AccountDeleted(before) => AdminOfLockedTenantStays(db, hx, hy, x, y, before.tenant);
    case RoleUpdated(was, becomes) =>
      if was.name == ADMIN && becomes.name != ADMIN { AdminOfLockedTenantStays(db, hx, hy, x, y, was.tenant); }
    case RoleDeleted(was) =>
      if was.name == ADMIN { AdminOfLockedTenantStays(db, hx, hy, x, y, was.tenant); }
    case OrganizationPlaced(id, place) => PlaceCheckStays(db, hx, hy, x, y, id, place);
  }

  lemma PublishKeepsOther(db: Tables, hx: set<Uuid>, hy: set<Uuid>, x: Tx, y: Tx)
    requires hx !! hy && RowsApart(x, y) && TxInv(db, hx, x) && TxInv(db, hy, y)
    ensures TxInv(View(db, y), hx, x)
  {
    var db' := View(db, y);
    forall a | AccountPinned(db, hx, x, a) ensures AccountPinned(db', hx, x, a) {
    }
    forall e | e in x.events ensures EventLocked(db', hx, x, e) {
      assert EventLocked(db, hx, x, e);
    }
    if x.checked.Some? {
      forall i | 0 <= i < x.checked.value ensures Settled(View(db', x), x.events[i]) {
        assert x.events[i] in x.events;
        SettledStays(db, hx, hy, x, y, x.events[i]);
      }
    }
  }

  // ---------------------------------------------------------------------------
  // Every step keeps the invariant

  lemma AcceptedIsSettled(v: Tables, e: Event)
    requires Accepts(v, e)
    ensures Settled(v, e)
  {
  }

  lemma StatementKeepsTxInv(db: Tables, held: set<Uuid>, x: Tx, s: Statement, e: Effect)
    requires TxInv(db, held, x) && x.checked.None? && Execute(db, x, s) == Some(e)
    ensures TxInv(db, Locking(held, e.lock), e.tx)
  {
    StatementKeepsAccountLocks(db, held, x, s, e);
    StatementKeepsRoleLocks(db, held, x, s, e);
    StatementKeepsPlaceLocks(db, held, x, s, e);
    StatementKeepsGrantLocks(db, held, x, s, e);
    StatementKeepsEventLocks(db, held, x, s, e);
    StatementQueuesAccountLosses(db, x, s, e);
    StatementQueuesRoleLosses(db, x, s, e);
    StatementQueuesGrantLosses(db, x, s, e);
    StatementQueuesPlaces(db, x, s, e);
    ExecuteStaysOpen(db, x, s, e);
  }

  lemma ExecuteStaysOpen(db: Tables, x: Tx, s: Statement, e: Effect)
    requires Execute(db, x, s) == Some(e)
    ensures e.tx.checked == x.checked
  {
  }

  /** Replacing one transaction keeps the invariant when it keeps its own part and
      nobody else's locks change. */
  lemma ReplaceTx(s: State, after: State, tx: Uuid, x: Tx)
    requires Inv(s) && after.db == s.db && after.txs == s.txs[tx := x]
    requires forall tenant :: tenant in after.locks ==>
        after.locks[tenant] == tx || (tenant in s.locks && s.locks[tenant] == after.locks[tenant])
    requires forall other :: other in s.txs && other != tx ==> Held(after, other) == Held(s, other)
    requires forall other :: other in s.txs && other != tx ==> RowsApart(x, s.txs[other])
    requires TxInv(s.db, Held(after, tx), x)
    ensures Inv(after)
  {
    forall a, b | a in after.txs && b in after.txs && a != b ensures RowsApart(after.txs[a], after.txs[b]) {
      if a != tx && b != tx {
        assert RowsApart(s.txs[a], s.txs[b]);
      } else if b == tx {
        assert RowsApart(x, s.txs[a]);
      }
    }
    forall other | other in after.txs ensures TxInv(after.db, Held(after, other), after.txs[other]) {
      if other != tx {
        assert TxInv(s.db, Held(s, other), s.txs[other]);
      }
    }
  }

  /** A statement that runs touches its own transaction and at most one free lock. */
  lemma RunTouchesOwn(s: State, tx: Uuid, statement: Statement) returns (e: Effect)
    requires Next(s, Run(tx, statement)).Some?
    ensures tx in s.txs && s.txs[tx].checked.None? && Execute(s.db, s.txs[tx], statement) == Some(e)
    ensures forall other :: other in s.txs && other != tx ==> RowsApart(e.tx, s.txs[other])
    ensures e.lock.Some? && e.lock.value in s.locks ==> s.locks[e.lock.value] == tx
    ensures Next(s, Run(tx, statement)).value
            == State(s.db, if e.lock.Some? then s.locks[e.lock.value := tx] else s.locks, s.txs[tx := e.tx])
  {
    e := Execute(s.db, s.txs[tx], statement).value;
  }

  lemma RunKeepsInv(s: State, tx: Uuid, statement: Statement)
    requires Inv(s) && Next(s, Run(tx, statement)).Some?
    ensures Inv(Next(s, Run(tx, statement)).value)
  {
    var e := RunTouchesOwn(s, tx, statement);
    StatementKeepsTxInv(s.db, Held(s, tx), s.txs[tx], statement, e);
    LockThenReplace(s, tx, e);
  }

  lemma LockThenReplace(s: State, tx: Uuid, e: Effect)
    requires Inv(s) && tx in s.txs && TxInv(s.db, Locking(Held(s, tx), e.lock), e.tx)
    requires forall other :: other in s.txs && other != tx ==> RowsApart(e.tx, s.txs[other])
    requires e.lock.Some? && e.lock.value in s.locks ==> s.locks[e.lock.value] == tx
    ensures Inv(State(s.db, if e.lock.Some? then s.locks[e.lock.value := tx] else s.locks, s.txs[tx := e.tx]))
  {
    var after := State(s.db, if e.lock.Some? then s.locks[e.lock.value := tx] else s.locks, s.txs[tx := e.tx]);
    assert Held(after, tx) == Locking(Held(s, tx), e.lock);
    forall other | other in s.txs && other != tx ensures Held(after, other) == Held(s, other) {
    }
    ReplaceTx(s, after, tx, e.tx);
  }

  /** Dropping one transaction and its locks, with the remaining ones intact. */
  lemma DropTx(s: State, after: State, tx: Uuid)
    requires Inv(s) && tx in s.txs && after.txs == s.txs - {tx} && after.locks == Release(s.locks, tx)
    requires forall other :: other in after.txs ==> TxInv(after.db, Held(s, other), s.txs[other])
    ensures Inv(after)
  {
    forall a, b | a in after.txs && b in after.txs && a != b ensures RowsApart(after.txs[a], after.txs[b]) {
      assert RowsApart(s.txs[a], s.txs[b]);
    }
    forall other | other in after.txs ensures TxInv(after.db, Held(after, other), after.txs[other]) {
      assert Held(after, other) == Held(s, other);
    }
  }

  lemma PublishKeepsInv(s: State, tx: Uuid)
    requires Inv(s) && Next(s, Publish(tx)).Some?
    ensures Inv(Next(s, Publish(tx)).value)
  {
    var after := Next(s, Publish(tx)).value;
    forall other | other in after.txs ensures TxInv(after.db, Held(s, other), s.txs[other]) {
      assert RowsApart(s.txs[other], s.txs[tx]);
      PublishKeepsOther(s.db, Held(s, other), Held(s, tx), s.txs[other], s.txs[tx]);
    }
    DropTx(s, after, tx);
  }

  /** Opening, starting to commit and evaluating one check change no row. */
  lemma MarkKeepsTxInv(db: Tables, held: set<Uuid>, x: Tx, checked: Option<nat>)
    requires TxInv(db, held, x)
    requires checked.Some? ==> checked.value <= |x.events|
                               && forall i :: 0 <= i < checked.value ==> Settled(View(db, x), x.events[i])
    ensures TxInv(db, held, x.(checked := checked))
  {
    var y := x.(checked := checked);
    assert View(db, y) == View(db, x);
    forall e | e in x.events ensures EventLocked(db, held, y, e) {
      assert EventLocked(db, held, x, e);
    }
    forall g | g in y.grants && y.grants[g].None? ensures AccountPinned(db, held, y, g.0) {
      assert AccountPinned(db, held, x, g.0);
    }
  }

  lemma CheckKeepsInv(s: State, tx: Uuid)
    requires Inv(s) && Next(s, CheckNext(tx)).Some?
    ensures Inv(Next(s, CheckNext(tx)).value)
  {
    var after := Next(s, CheckNext(tx)).value;
    var x := s.txs[tx];
    AcceptedIsSettled(View(s.db, x), x.events[x.checked.value]);
    MarkKeepsTxInv(s.db, Held(s, tx), x, Some(x.checked.value + 1));
    forall other | other in s.txs ensures Held(after, other) == Held(s, other) {}
    forall other | other in s.txs && other != tx ensures RowsApart(after.txs[tx], s.txs[other]) {
      assert RowsApart(x, s.txs[other]);
    }
    ReplaceTx(s, after, tx, after.txs[tx]);
  }

  lemma StartKeepsInv(s: State, tx: Uuid)
    requires Inv(s) && Next(s, StartCommit(tx)).Some?
    ensures Inv(Next(s, StartCommit(tx)).value)
  {
    var after := Next(s, StartCommit(tx)).value;
    MarkKeepsTxInv(s.db, Held(s, tx), s.txs[tx], Some(0));
    forall other | other in s.txs ensures Held(after, other) == Held(s, other) {}
    forall other | other in s.txs && other != tx ensures RowsApart(after.txs[tx], s.txs[other]) {
      assert RowsApart(s.txs[tx], s.txs[other]);
    }
    ReplaceTx(s, after, tx, after.txs[tx]);
  }

  lemma BeginKeepsInv(s: State, tx: Uuid)
    requires Inv(s) && Next(s, Begin(tx)).Some?
    ensures Inv(Next(s, Begin(tx)).value)
  {
    var after := Next(s, Begin(tx)).value;
    forall other | other in s.txs ensures Held(after, other) == Held(s, other) {}
    assert TxInv(s.db, Held(after, tx), FRESH_TX);
    ReplaceTx(s, after, tx, FRESH_TX);
  }

  lemma StepKeepsInv(s: State, step: Step)
    requires Inv(s) && Next(s, step).Some?
    ensures Inv(Next(s, step).value)
  {
    match step
    case Run(tx, statement) => RunKeepsInv(s, tx, statement);
    case Publish(tx) => PublishKeepsInv(s, tx);
    case Begin(tx) => BeginKeepsInv(s, tx);
    case StartCommit(tx) => StartKeepsInv(s, tx);
    case CheckNext(tx) => CheckKeepsInv(s, tx);
    case Abort(tx) => DropTx(s, Next(s, step).value, tx);
  }

  // ---------------------------------------------------------------------------
  // Main results

  lemma EventSettled(db: Tables, x: Tx, e: Event)
    requires ChecksSettled(db, x) && x.checked == Some(|x.events|) && e in x.events
    ensures Settled(View(db, x), e)
  {
    var i :| 0 <= i < |x.events| && x.events[i] == e;
  }

  lemma LossMeansAdmin(v: Tables, e: Event, tenant: Uuid)
    requires AccountLoss(e, tenant) || RoleLoss(e, tenant)
    requires Settled(v, e)
    ensures HasActiveAdmin(v, tenant)
  {
  }

  /** A transaction whose queued checks were all accepted has not taken the last
      administrator of any tenant, however it lost the previous one. */
  lemma CheckedCommitKeepsAdmin(db: Tables, held: set<Uuid>, x: Tx, tenant: Uuid)
    requires TxInv(db, held, x) && x.checked == Some(|x.events|)
    requires HasActiveAdmin(db, tenant)
    ensures HasActiveAdmin(View(db, x), tenant)
  {
    var account, role :| Witness(db, tenant, account, role);
    if e :| e in x.events && (AccountLoss(e, tenant) || RoleLoss(e, tenant)) {
      EventSettled(db, x, e);
      LossMeansAdmin(View(db, x), e, tenant);
    } else {
      WitnessRowsKept(db, x, tenant, account, role);
      if (account, role) in x.grants && x.grants[(account, role)].None? {
        EventSettled(db, x, GrantChanged(account, role));
      } else {
        assert Witness(View(db, x), tenant, account, role);
      }
    }
  }

  lemma WitnessRowsKept(db: Tables, x: Tx, tenant: Uuid, account: Uuid, role: Uuid)
    requires AccountLossesQueued(db, x) && RoleLossesQueued(db, x)
    requires forall e :: e in x.events ==> !AccountLoss(e, tenant) && !RoleLoss(e, tenant)
    requires Witness(db, tenant, account, role)
    ensures var v := View(db, x);
            && account in v.accounts && v.accounts[account].tenant == tenant && v.accounts[account].active
            && role in v.roles && v.roles[role] == Role(tenant, ADMIN)
  {
  }

  /** The hierarchy checks are sound for the transaction's final tree. */
  lemma CheckedCommitKeepsTree(db: Tables, held: set<Uuid>, x: Tx, tenant: Uuid)
    requires TxInv(db, held, x) && x.checked == Some(|x.events|)
    requires Forest.Acyclic(Tree(db, tenant))
    ensures Forest.Acyclic(Tree(View(db, x), tenant))
  {
    var v := View(db, x);
    var tree := Tree(v, tenant);
    forall o | o in x.organizations.Keys && o in tree ensures Forest.ParentCheck(tree, o, tree[o]) {
      var placed := OrganizationPlaced(o, x.organizations[o].value);
      assert placed in x.events;
      EventSettled(db, x, placed);
    }
    Forest.LocalCheckGivesGlobal(Tree(db, tenant), tree, x.organizations.Keys);
  }

  /** Over every interleaving of every set of transactions, a tenant that once had
      an active administrator keeps one in every later committed state. */
  lemma {:induction false} AdministratorSurvives(s: State, steps: seq<Step>, tenant: Uuid)
    requires Inv(s) && HasActiveAdmin(s.db, tenant)
    ensures Inv(Runs(s, steps)) && HasActiveAdmin(Runs(s, steps).db, tenant)
    decreases |steps|
  {
    if steps != [] {
      match Next(s, steps[0])
      case None => AdministratorSurvives(s, steps[1..], tenant);
      case Some(after) =>
        StepKeepsInv(s, steps[0]);
        if steps[0].Publish? {
          CheckedCommitKeepsAdmin(s.db, Held(s, steps[0].tx), s.txs[steps[0].tx], tenant);
        }
        AdministratorSurvives(after, steps[1..], tenant);
    }
  }

  /** Over every interleaving, the organization tree of every tenant stays acyclic. */
  lemma {:induction false} TreesStayAcyclic(s: State, steps: seq<Step>)
    requires Inv(s) && forall tenant :: Forest.Acyclic(Tree(s.db, tenant))
    ensures forall tenant :: Forest.Acyclic(Tree(Runs(s, steps).db, tenant))
    decreases |steps|
  {
    if steps != [] {
      match Next(s, steps[0])
      case None => TreesStayAcyclic(s, steps[1..]);
      case Some(after) =>
        StepKeepsInv(s, steps[0]);
        forall tenant ensures Forest.Acyclic(Tree(after.db, tenant)) {
          assert Forest.Acyclic(Tree(s.db, tenant));
          if steps[0].Publish? {
            CheckedCommitKeepsTree(s.db, Held(s, steps[0].tx), s.txs[steps[0].tx], tenant);
          }
        }
        TreesStayAcyclic(after, steps[1..]);
    }
  }

  // ---------------------------------------------------------------------------
  // How tight the guards are

  const TWO_ADMINS: Tables := Tables(
    {0}, map[1 := Account(0, 5, true), 2 := Account(0, 5, true)], map[9 := Role(0, ADMIN)],
    map[(1, 9) := 0, (2, 9) := 0], map[], map[5 := Organization(0, None)])

  /** A transaction that has revoked one grant and done nothing else. */
  function Revoking(grant: Grant): Tx {
    FRESH_TX.(grants := map[grant := None], events := [GrantChanged(grant.0, grant.1)])
  }

  lemma RevokingRuns(grant: Grant)
    requires grant in TWO_ADMINS.grants
    ensures Execute(TWO_ADMINS, FRESH_TX, DeleteGrant(grant)) == Some(Effect(Revoking(grant), Some(0)))
  {
    var v := View(TWO_ADMINS, FRESH_TX);
    assert grant in v.grants && grant.0 in v.accounts;
    assert v.accounts[grant.0].tenant == 0;
    assert FRESH_TX.grants[grant := None] == map[grant := None];
    assert FRESH_TX.events + [GrantChanged(grant.0, grant.1)] == [GrantChanged(grant.0, grant.1)];
  }

  lemma RevokingIsAccepted(grant: Grant, remaining: Uuid)
    requires remaining in {1, 2} && grant == (3 - remaining, 9)
    ensures forall e :: e in Revoking(grant).events ==> Accepts(View(TWO_ADMINS, Revoking(grant)), e)
  {
    var v := View(TWO_ADMINS, Revoking(grant));
    assert v.accounts == TWO_ADMINS.accounts && v.roles == TWO_ADMINS.roles;
    assert (remaining, 9) in v.grants;
    assert Witness(v, 0, remaining, 9);
  }

  lemma BothRevokedLeavesNone()
    ensures !HasActiveAdmin(View(View(TWO_ADMINS, Revoking((1, 9))), Revoking((2, 9))), 0)
  {
    var v := View(View(TWO_ADMINS, Revoking((1, 9))), Revoking((2, 9)));
    forall g ensures g !in v.grants {
    }
  }

  lemma SecondRevocationWaits()
    ensures Next(State(TWO_ADMINS, map[0 := 1], map[1 := Revoking((1, 9)), 2 := FRESH_TX]), Run(2, DeleteGrant((2, 9))))
        == None
  {
    RevokingRuns((2, 9));
    ViewOfNothing();
  }

  lemma ViewOfNothing()
    ensures View(TWO_ADMINS, FRESH_TX).accounts == TWO_ADMINS.accounts
  {
  }

  /** Without the tenant row lock the deferred checks alone would admit write skew:
      two transactions each revoke one of two administrators, write different rows,
      and each passes every check on its own view, yet together they leave none.
      With the lock the second revocation cannot run beside the first. */
  lemma WriteSkewNeedsTheLock()
    ensures var x, y := Revoking((1, 9)), Revoking((2, 9));
            && RowsApart(x, y)
            && (forall e :: e in x.events ==> Accepts(View(TWO_ADMINS, x), e))
            && (forall e :: e in y.events ==> Accepts(View(TWO_ADMINS, y), e))
            && HasActiveAdmin(TWO_ADMINS, 0) && !HasActiveAdmin(View(View(TWO_ADMINS, x), y), 0)
            && Next(State(TWO_ADMINS, map[0 := 1], map[1 := x, 2 := FRESH_TX]), Run(2, DeleteGrant((2, 9)))) == None
  {
    assert Witness(TWO_ADMINS, 0, 1, 9);
    RevokingIsAccepted((1, 9), 2);
    RevokingIsAccepted((2, 9), 1);
    BothRevokedLeavesNone();
    SecondRevocationWaits();
  }

  /** A queued placement that is no longer the row's version in the final view. */
  ghost predicate Superseded(v: Tables, e: Event)
    requires e.OrganizationPlaced?
  {
    Lookup(v.organizations, e.id) != Some(e.place)
  }

  ghost predicate PlacedIn(e: Event, tenant: Uuid) {
    e.OrganizationPlaced? && e.place.tenant == tenant
  }

  /** Exactly which commits the hierarchy checks accept: the final tree is acyclic,
      and no superseded placement recorded a parent that now lies at or below its row. */
  lemma HierarchyChecksExact(db: Tables, x: Tx, tenant: Uuid)
    requires PlacesQueued(x) && Forest.Acyclic(Tree(db, tenant))
    ensures var v := View(db, x);
            (forall e :: e in x.events && PlacedIn(e, tenant) ==> Accepts(v, e))
            <==>
            && Forest.Acyclic(Tree(v, tenant))
            && forall e :: e in x.events && PlacedIn(e, tenant) && Superseded(v, e) && e.place.parent.Some? ==>
                 !Forest.Reaches(Tree(v, tenant), e.place.parent.value, e.id)
  {
    var v := View(db, x);
    var tree := Tree(v, tenant);
    Forest.LocalCheckGivesGlobal(Tree(db, tenant), tree, x.organizations.Keys);
    if forall e :: e in x.events && PlacedIn(e, tenant) ==> Accepts(v, e) {
      forall o | o in x.organizations.Keys && o in tree ensures Forest.ParentCheck(tree, o, tree[o]) {
        assert Accepts(v, OrganizationPlaced(o, x.organizations[o].value));
      }
      forall e | e in x.events && PlacedIn(e, tenant) && Superseded(v, e) && e.place.parent.Some?
        ensures !Forest.Reaches(tree, e.place.parent.value, e.id)
      {
        assert Accepts(v, e);
      }
    }
    if Forest.Acyclic(tree) {
      forall e | e in x.events && PlacedIn(e, tenant) && !Superseded(v, e) ensures Accepts(v, e) {
        Forest.AcyclicPassesCheck(tree, e.id);
      }
    }
  }

  /** When each organization is placed once, and not removed again, the checks accept
      exactly the acyclic trees. */
  lemma PlacedOnceChecksExact(db: Tables, x: Tx, tenant: Uuid)
    requires PlacesQueued(x) && Forest.Acyclic(Tree(db, tenant))
    requires forall e :: e in x.events && e.OrganizationPlaced? ==> !Superseded(View(db, x), e)
    ensures (forall e :: e in x.events && PlacedIn(e, tenant) ==> Accepts(View(db, x), e))
            <==> Forest.Acyclic(Tree(View(db, x), tenant))
  {
    HierarchyChecksExact(db, x, tenant);
  }

  const TWO_ROOTS: Tables := Tables(
    {0}, map[], map[], map[], map[], map[1 := Organization(0, None), 2 := Organization(0, None)])

  lemma PlacingRuns(x: Tx, id: Uuid, row: Organization)
    requires id in {1, 2} && row.tenant == 0 && row.parent in {None, Some(1), Some(2)}
    requires forall o :: o in x.organizations ==> x.organizations[o].Some? && x.organizations[o].value.tenant == 0
    ensures Execute(TWO_ROOTS, x, PlaceOrganization(id, row))
            == Some(Effect(x.(organizations := x.organizations[id := Some(row)],
                              events := x.events + [OrganizationPlaced(id, row)]), Some(0)))
  {
    var v := View(TWO_ROOTS, x);
    assert 1 in v.organizations && v.organizations[1].tenant == 0;
    assert 2 in v.organizations && v.organizations[2].tenant == 0;
  }

  /** The checks are sound but not complete: moving 1 under 2, moving it back, and
      then moving 2 under 1 ends in a tree, yet the first placement is still evaluated
      with the parent it was queued with and refuses the commit. */
  lemma SupersededPlacementRefusesTree()
    ensures var under2, root, under1 := Organization(0, Some(2)), Organization(0, None), Organization(0, Some(1));
            var first := Execute(TWO_ROOTS, FRESH_TX, PlaceOrganization(1, under2));
            first.Some? &&
            var second := Execute(TWO_ROOTS, first.value.tx, PlaceOrganization(1, root));
            second.Some? &&
            var third := Execute(TWO_ROOTS, second.value.tx, PlaceOrganization(2, under1));
            third.Some? &&
            var v := View(TWO_ROOTS, third.value.tx);
            && Forest.Acyclic(Tree(v, 0))
            && OrganizationPlaced(1, under2) in third.value.tx.events
            && !Accepts(v, OrganizationPlaced(1, under2))
  {
    var under2, root, under1 := Organization(0, Some(2)), Organization(0, None), Organization(0, Some(1));
    PlacingRuns(FRESH_TX, 1, under2);
    var first := Execute(TWO_ROOTS, FRESH_TX, PlaceOrganization(1, under2)).value.tx;
    PlacingRuns(first, 1, root);
    var second := Execute(TWO_ROOTS, first, PlaceOrganization(1, root)).value.tx;
    PlacingRuns(second, 2, under1);
    var third := Execute(TWO_ROOTS, second, PlaceOrganization(2, under1)).value.tx;
    assert third.events[0] == OrganizationPlaced(1, under2);
    ChainOfTwo(View(TWO_ROOTS, third));
  }

  lemma ChainOfTwo(v: Tables)
    requires v.organizations == map[1 := Organization(0, None), 2 := Organization(0, Some(1))]
    ensures Forest.Acyclic(Tree(v, 0)) && Forest.Reaches(Tree(v, 0), 2, 1)
  {
    var tree := Tree(v, 0);
    assert tree == map[1 := None, 2 := Some(1)];
    assert Forest.Hop(tree, 2, 1) == Forest.Hop(tree, 1, 0) == Some(1);
    forall n: Uuid, k: nat ensures !Forest.CycleAt(tree, n, k) {
      if k >= 2 && n == 2 {
        assert Forest.Hop(tree, 2, k) == Forest.Hop(tree, 1, k - 1) == None;
      }
    }
  }
}
