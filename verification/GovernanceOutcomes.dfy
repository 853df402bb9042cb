/** The deferred last-administrator check read off the tables, call by call, and the
    opening of a tenant that its exemption is there for. */
module GovernanceOutcomes {
  import opened Sql
  import Forest
  import opened TenantGovernance

  /** An active account of the tenant with a grant on a role of the tenant named `admin`. */
  ghost predicate Administers(v: Tables, tenant: Uuid, account: Uuid) {
    && account in v.accounts && v.accounts[account].tenant == tenant && v.accounts[account].active
    && exists role :: HoldsAdmin(v, tenant, account, role)
  }

  predicate HoldsAdmin(v: Tables, tenant: Uuid, account: Uuid, role: Uuid) {
    (account, role) in v.grants && role in v.roles && v.roles[role].tenant == tenant && v.roles[role].name == "admin"
  }

  ghost predicate Administered(v: Tables, tenant: Uuid) {
    exists account :: Administers(v, tenant, account)
  }

  lemma AdministeredIff(v: Tables, tenant: Uuid)
    ensures Administered(v, tenant) <==> HasActiveAdmin(v, tenant)
  {
    if account, role :| Witness(v, tenant, account, role) {
      assert HoldsAdmin(v, tenant, account, role) && Administers(v, tenant, account);
    }
    if account :| Administers(v, tenant, account) {
      var role :| HoldsAdmin(v, tenant, account, role);
      assert Witness(v, tenant, account, role);
    }
  }

  /** Over every interleaving, a tenant that has an active account with a grant on its
      admin role at some commit has one at every later commit. */
  lemma AdministratorsRemain(s: State, steps: seq<Step>, tenant: Uuid)
    requires Inv(s) && Administered(s.db, tenant)
    ensures Administered(Runs(s, steps).db, tenant)
  {
    AdministeredIff(s.db, tenant);
    AdministratorSurvives(s, steps, tenant);
    AdministeredIff(Runs(s, steps).db, tenant);
  }

  // ---------------------------------------------------------------------------
  // The check

  /** The transaction has begun to commit and this call is its next one. */
  predicate Faces(s: State, tx: Uuid, e: Event) {
    && tx in s.txs && s.txs[tx].checked.Some? && s.txs[tx].checked.value < |s.txs[tx].events|
    && s.txs[tx].events[s.txs[tx].checked.value] == e
  }

  /** Which tenant a queued call is about, if it demands an administrator at all: a lost or
      moved grant on an admin role of an account that is still there, a deactivated or
      deleted account, a renamed or deleted admin role, an inserted account. */
  function Governed(v: Tables, e: Event): Option<Uuid> {
    match e
    case GrantChanged(account, role) =>
      if account in v.accounts && role in v.roles && v.roles[role].name == "admin"
      then Some(v.accounts[account].tenant) else None
    case AccountInserted(_, row) => Some(row.tenant)
    case AccountUpdated(before, after) => if before.active && !after.active then Some(before.tenant) else None
    case AccountDeleted(before) => Some(before.tenant)
    case RoleUpdated(was, now) => if was.name == "admin" && now.name != "admin" then Some(was.tenant) else None
    case RoleDeleted(was) => if was.name == "admin" then Some(was.tenant) else None
    case OrganizationPlaced(_, _) => None
  }

  /** In a tenant without an active administrator every call that demands one is refused,
      but for an inserted account; in a tenant with one none is. */
  lemma CheckPassesIff(s: State, tx: Uuid, e: Event)
    requires Faces(s, tx, e) && !e.OrganizationPlaced? && !e.AccountInserted?
    ensures var v := View(s.db, s.txs[tx]);
            Next(s, CheckNext(tx)).Some? <==> Governed(v, e).None? || Administered(v, Governed(v, e).value)
  {
    var v := View(s.db, s.txs[tx]);
    if Governed(v, e).Some? {
      AdministeredIff(v, Governed(v, e).value);
    }
  }

  /** The account waits to be activated as the tenant's first administrator. */
  predicate NamedByOpening(v: Tables, tenant: Uuid, id: Uuid) {
    tenant in v.openings && v.openings[tenant].initialAdmin == id && v.openings[tenant].pendingActivation
  }

  /** In a tenant without an active administrator the check on an inserted account raises
      if and only if the account was inserted active, or no opening of its tenant names it
      as still pending, or it holds no grant of the tenant on a role of the tenant named
      `admin`. */
  lemma InsertedAccountRaisesIff(s: State, tx: Uuid, id: Uuid, row: Account)
    requires Faces(s, tx, AccountInserted(id, row)) && !Administered(View(s.db, s.txs[tx]), row.tenant)
    ensures var v := View(s.db, s.txs[tx]);
            Next(s, CheckNext(tx)).None?
            <==> || row.active || !NamedByOpening(v, row.tenant, id)
                 || forall role :: HoldsAdmin(v, row.tenant, id, role) ==> v.grants[(id, role)] != row.tenant
  {
    var v := View(s.db, s.txs[tx]);
    AdministeredIff(v, row.tenant);
    if PendingInitialAdmin(v, id, row) {
      var role :| (id, role) in v.grants && v.grants[(id, role)] == row.tenant
                  && role in v.roles && v.roles[role] == Role(row.tenant, ADMIN);
      assert HoldsAdmin(v, row.tenant, id, role);
    }
  }

  /** With an active administrator it never raises. */
  lemma InsertedAccountPasses(s: State, tx: Uuid, id: Uuid, row: Account)
    requires Faces(s, tx, AccountInserted(id, row)) && Administered(View(s.db, s.txs[tx]), row.tenant)
    ensures Next(s, CheckNext(tx)).Some?
  {
    AdministeredIff(View(s.db, s.txs[tx]), row.tenant);
  }

  /** Following parents from an organization leads to another, or it is that one. */
  ghost predicate LeadsUpTo(tree: Forest.Forest, from: Uuid, id: Uuid) {
    exists k: nat :: Forest.Hop(tree, from, k) == Some(id)
  }

  /** The check of a placed organization raises if and only if the parent it was queued with
      leads up to the organization itself. */
  lemma PlacementRaisesIff(s: State, tx: Uuid, id: Uuid, row: Organization)
    requires Faces(s, tx, OrganizationPlaced(id, row))
    ensures Next(s, CheckNext(tx)).None?
            <==> row.parent.Some? && LeadsUpTo(Tree(View(s.db, s.txs[tx]), row.tenant), row.parent.value, id)
  {
    var tree := Tree(View(s.db, s.txs[tx]), row.tenant);
    if row.parent.Some? && LeadsUpTo(tree, row.parent.value, id) {
      var k: nat :| Forest.Hop(tree, row.parent.value, k) == Some(id);
      assert Forest.Reaches(tree, row.parent.value, id);
    }
  }

  /** Some row is written by both. */
  ghost predicate Collide(x: Tx, y: Tx) {
    || (exists k :: k in x.accounts && k in y.accounts) || (exists k :: k in x.roles && k in y.roles)
    || (exists k :: k in x.grants && k in y.grants) || (exists k :: k in x.openings && k in y.openings)
    || (exists k :: k in x.organizations && k in y.organizations)
  }

  /** In every reachable state no row is written by two running transactions. */
  lemma RowsHaveOneWriter(s: State, x: Uuid, y: Uuid)
    requires Inv(s) && x in s.txs && y in s.txs && x != y
    ensures !Collide(s.txs[x], s.txs[y])
  {
    assert RowsApart(s.txs[x], s.txs[y]);
  }

  /** A statement of a transaction that has not begun to commit runs if and only if its guards
      let it, nobody else holds the tenant row it locks, and it writes no row that another
      running transaction has written; it then holds that tenant. */
  lemma StatementTakesIff(s: State, tx: Uuid, statement: Statement)
    requires tx in s.txs
    ensures Next(s, Run(tx, statement)).Some?
            <==> && s.txs[tx].checked.None? && Execute(s.db, s.txs[tx], statement).Some?
                 && var e := Execute(s.db, s.txs[tx], statement).value;
                    && (e.lock.Some? ==> e.lock.value !in s.locks || s.locks[e.lock.value] == tx)
                    && forall other :: other in s.txs && other != tx ==> !Collide(e.tx, s.txs[other])
    ensures Next(s, Run(tx, statement)).Some? ==>
              var e := Execute(s.db, s.txs[tx], statement).value;
              Next(s, Run(tx, statement)).value
              == State(s.db, if e.lock.Some? then s.locks[e.lock.value := tx] else s.locks, s.txs[tx := e.tx])
  {
    forall x, y ensures Collide(x, y) <==> !RowsApart(x, y) {
      CollideIff(x, y);
    }
  }

  lemma CollideIff(x: Tx, y: Tx)
    ensures Collide(x, y) <==> !RowsApart(x, y)
  {
  }

  ghost predicate GivesUp(s: State, u: State, tx: Uuid) {
    forall t ::
      && (t in u.locks <==> t in s.locks && s.locks[t] != tx)
      && (t in u.locks ==> u.locks[t] == s.locks[t])
  }

  /** A commit is begun once, published after its last check and never before, and gives up
      the tenants it locked; so does an abort. */
  lemma CommitTakesIff(s: State, tx: Uuid)
    requires tx in s.txs
    ensures Next(s, StartCommit(tx))
         == if s.txs[tx].checked.None? then Some(s.(txs := s.txs[tx := s.txs[tx].(checked := Some(0))])) else None
    ensures Next(s, Publish(tx)).Some? <==> s.txs[tx].checked == Some(|s.txs[tx].events|)
    ensures Next(s, Publish(tx)).Some? ==>
              var u := Next(s, Publish(tx)).value;
              && u.db == View(s.db, s.txs[tx]) && u.txs == s.txs - {tx}
              && GivesUp(s, u, tx)
    ensures Next(s, Abort(tx)).Some?
    ensures var u := Next(s, Abort(tx)).value;
            && u.db == s.db && u.txs == s.txs - {tx}
            && GivesUp(s, u, tx)
  {
  }

  // ---------------------------------------------------------------------------
  // The statements

  /** An account names an organization of its own tenant, and that tenant exists. */
  predicate PlacedAccount(v: Tables, row: Account) {
    && row.tenant in v.tenants && row.organization in v.organizations
    && v.organizations[row.organization].tenant == row.tenant
  }

  /** An account is inserted under a new id and updated without leaving its tenant; either
      queues a check and locks the tenant. Deleting one does too. */
  lemma AccountStatementsRunIff(db: Tables, x: Tx, id: Uuid, row: Account)
    ensures var v := View(db, x);
            && Execute(db, x, InsertAccount(id, row))
               == (if id !in v.accounts && PlacedAccount(v, row)
                   then Some(Effect(x.(accounts := x.accounts[id := Some(row)],
                                       events := x.events + [AccountInserted(id, row)]), Some(row.tenant))) else None)
            && Execute(db, x, UpdateAccount(id, row))
               == (if id in v.accounts && v.accounts[id].tenant == row.tenant && PlacedAccount(v, row)
                   then Some(Effect(x.(accounts := x.accounts[id := Some(row)],
                                       events := x.events + [AccountUpdated(v.accounts[id], row)]), Some(row.tenant)))
                   else None)
            && Execute(db, x, DeleteAccount(id))
               == (if id in v.accounts && v.accounts[id].tenant in v.tenants
                   then Some(Effect(x.(accounts := x.accounts[id := None],
                                       events := x.events + [AccountDeleted(v.accounts[id])]),
                                    Some(v.accounts[id].tenant))) else None)
  {
  }

  /** The tenant exists and has no other role of this name. */
  predicate NamedApart(v: Tables, id: Uuid, row: Role) {
    && row.tenant in v.tenants
    && forall r :: r in v.roles && r != id ==> !(v.roles[r].tenant == row.tenant && v.roles[r].name == row.name)
  }

  lemma RoleStatementsRunIff(db: Tables, x: Tx, id: Uuid, row: Role)
    ensures var v := View(db, x);
            && Execute(db, x, InsertRole(id, row))
               == (if id !in v.roles && NamedApart(v, id, row)
                   then Some(Effect(x.(roles := x.roles[id := Some(row)]), Some(row.tenant))) else None)
            && Execute(db, x, UpdateRole(id, row))
               == (if id in v.roles && v.roles[id].tenant == row.tenant && NamedApart(v, id, row)
                   then Some(Effect(x.(roles := x.roles[id := Some(row)],
                                       events := x.events + [RoleUpdated(v.roles[id], row)]), Some(row.tenant)))
                   else None)
            && Execute(db, x, DeleteRole(id))
               == (if id in v.roles && v.roles[id].tenant in v.tenants
                   then Some(Effect(x.(roles := x.roles[id := None], events := x.events + [RoleDeleted(v.roles[id])]),
                                    Some(v.roles[id].tenant))) else None)
  {
    var v := View(db, x);
    assert NamedApart(v, id, row) <==> row.tenant in v.tenants && RoleNameFree(v, id, row);
  }

  /** Account and role exist in one tenant, which a tenant column that is given names. */
  predicate WithinOneTenant(v: Tables, grant: Grant, tenantColumn: Option<Uuid>) {
    && grant.0 in v.accounts && grant.1 in v.roles && v.accounts[grant.0].tenant == v.roles[grant.1].tenant
    && (tenantColumn.Some? ==> tenantColumn.value == v.roles[grant.1].tenant)
  }

  /** A grant is inserted or moved within one tenant, and its tenant column is set to that
      tenant whatever was given; a move or a deletion queues a check and locks the tenant. */
  lemma GrantStatementsRunIff(db: Tables, x: Tx, grant: Grant, to: Grant, given: Option<Uuid>)
    ensures var v := View(db, x);
            && Execute(db, x, InsertGrant(grant, given))
               == (if grant !in v.grants && WithinOneTenant(v, grant, given)
                   then Some(Effect(x.(grants := x.grants[grant := Some(v.roles[grant.1].tenant)]), None)) else None)
            && Execute(db, x, MoveGrant(grant, to, given))
               == (if grant in v.grants && (to == grant || to !in v.grants) && WithinOneTenant(v, to, given)
                      && grant.0 in v.accounts && v.accounts[grant.0].tenant == v.accounts[to.0].tenant
                   then Some(Effect(x.(grants := x.grants[grant := None][to := Some(v.roles[to.1].tenant)],
                                       events := x.events + [GrantChanged(grant.0, grant.1)]),
                                    Some(v.accounts[grant.0].tenant))) else None)
            && Execute(db, x, DeleteGrant(grant))
               == (if grant in v.grants && grant.0 in v.accounts
                   then Some(Effect(x.(grants := x.grants[grant := None],
                                       events := x.events + [GrantChanged(grant.0, grant.1)]),
                                    Some(v.accounts[grant.0].tenant))) else None)
  {
  }

  /** An organization stays in its tenant and its parent, if any, is one of that tenant;
      placing it queues the check of its place and locks the tenant. */
  lemma OrganizationStatementsRunIff(db: Tables, x: Tx, id: Uuid, row: Organization)
    ensures var v := View(db, x);
            && Execute(db, x, PlaceOrganization(id, row))
               == (if && row.tenant in v.tenants && (id in v.organizations ==> v.organizations[id].tenant == row.tenant)
                      && (row.parent.Some? ==>
                            row.parent.value in v.organizations
                                && v.organizations[row.parent.value].tenant == row.tenant)
                   then Some(Effect(x.(organizations := x.organizations[id := Some(row)],
                                       events := x.events + [OrganizationPlaced(id, row)]), Some(row.tenant)))
                   else None)
            && Execute(db, x, DeleteOrganization(id))
               == (if id in v.organizations
                   then Some(Effect(x.(organizations := x.organizations[id := None]), None)) else None)
  {
  }

  // ---------------------------------------------------------------------------
  // Opening a tenant

  /** The platform opens a tenant in one transaction: its admin role, the account of its
      first administrator, not active yet, the grant, and the record of the opening. */
  function OpeningSteps(tx: Uuid, o: NewTenant, pending: bool): seq<Step> {
    [Begin(tx), Run(tx, InsertRole(o.role, Role(o.tenant, "admin"))),
     Run(tx, InsertAccount(o.account, Account(o.tenant, o.organization, false))),
     Run(tx, InsertGrant((o.account, o.role), None)),
     Run(tx, PutOpening(o.tenant, Some(Opening(o.account, pending)))),
     StartCommit(tx), CheckNext(tx), Publish(tx)]
  }

  datatype NewTenant = NewTenant(tenant: Uuid, organization: Uuid, role: Uuid, account: Uuid)

  /** The tenant is there with its organization and has no administrator, and the ids and
      the name of the role are free. */
  ghost predicate Unopened(db: Tables, o: NewTenant) {
    && o.tenant in db.tenants
    && o.organization in db.organizations && db.organizations[o.organization].tenant == o.tenant
    && o.account !in db.accounts && o.role !in db.roles && (forall g :: g in db.grants ==> g.1 != o.role)
    && (forall r :: r in db.roles ==> db.roles[r] != Role(o.tenant, "admin"))
    && !Administered(db, o.tenant)
  }

  function WithRole(o: NewTenant): Tx {
    FRESH_TX.(roles := map[o.role := Some(Role(o.tenant, "admin"))])
  }

  function WithAccount(o: NewTenant): Tx {
    var row := Account(o.tenant, o.organization, false);
    WithRole(o).(accounts := map[o.account := Some(row)], events := [AccountInserted(o.account, row)])
  }

  function WithGrant(o: NewTenant): Tx {
    WithAccount(o).(grants := map[(o.account, o.role) := Some(o.tenant)])
  }

  function WithOpening(o: NewTenant, pending: bool): Tx {
    WithGrant(o).(openings := map[o.tenant := Some(Opening(o.account, pending))])
  }

  lemma RoleRuns(db: Tables, o: NewTenant)
    requires Unopened(db, o)
    ensures Execute(db, FRESH_TX, InsertRole(o.role, Role(o.tenant, "admin")))
         == Some(Effect(WithRole(o), Some(o.tenant)))
  {
    var v := View(db, FRESH_TX);
    assert v.roles == db.roles;
    assert FRESH_TX.roles[o.role := Some(Role(o.tenant, "admin"))] == map[o.role := Some(Role(o.tenant, "admin"))];
  }

  lemma AccountRuns(db: Tables, o: NewTenant)
    requires Unopened(db, o)
    ensures var row := Account(o.tenant, o.organization, false);
            Execute(db, WithRole(o), InsertAccount(o.account, row)) == Some(Effect(WithAccount(o), Some(o.tenant)))
  {
    var row := Account(o.tenant, o.organization, false);
    var x := WithRole(o);
    assert x.accounts[o.account := Some(row)] == map[o.account := Some(row)];
    assert x.events + [AccountInserted(o.account, row)] == [AccountInserted(o.account, row)];
  }

  lemma GrantRuns(db: Tables, o: NewTenant)
    requires Unopened(db, o)
    ensures Execute(db, WithAccount(o), InsertGrant((o.account, o.role), None)) == Some(Effect(WithGrant(o), None))
  {
    var x := WithAccount(o);
    var v := View(db, x);
    assert v.accounts[o.account].tenant == o.tenant && v.roles[o.role].tenant == o.tenant;
    assert x.grants[(o.account, o.role) := Some(o.tenant)] == map[(o.account, o.role) := Some(o.tenant)];
  }

  lemma RecordRuns(db: Tables, o: NewTenant, pending: bool)
    ensures Execute(db, WithGrant(o), PutOpening(o.tenant, Some(Opening(o.account, pending))))
         == Some(Effect(WithOpening(o, pending), None))
  {
    var x := WithGrant(o);
    assert x.openings[o.tenant := Some(Opening(o.account, pending))]
        == map[o.tenant := Some(Opening(o.account, pending))];
  }

  /** The open transaction alone, with the tenant row locked. */
  function OpeningState(db: Tables, tx: Uuid, tenant: Uuid, x: Tx): State {
    State(db, map[tenant := tx], map[tx := x])
  }

  lemma RunTakes(s: State, tx: Uuid, statement: Statement, e: Effect, after: State)
    requires s.txs.Keys == {tx} && s.txs[tx].checked.None? && Execute(s.db, s.txs[tx], statement) == Some(e)
    requires e.lock.Some? && e.lock.value in s.locks ==> s.locks[e.lock.value] == tx
    requires after == State(s.db, if e.lock.Some? then s.locks[e.lock.value := tx] else s.locks, s.txs[tx := e.tx])
    ensures Next(s, Run(tx, statement)) == Some(after)
  {
    assert forall other :: other in s.txs ==> other == tx;
  }

  lemma {:induction false} NextTakes(s: State, steps: seq<Step>, k: nat, t: State, u: State)
    requires k < |steps| && Runs(s, steps[..k]) == t && Next(t, steps[k]) == Some(u)
    ensures Runs(s, steps[..k + 1]) == u
    decreases k
  {
    var longer, shorter := steps[..k + 1], steps[..k];
    if k == 0 {
      assert longer[1..] == [] && shorter == [];
      assert Runs(u, []) == u;
    } else {
      var next := match Next(s, steps[0]) case None => s case Some(after) => after;
      assert longer[1..] == steps[1..][..k] && shorter[1..] == steps[1..][..k - 1];
      NextTakes(next, steps[1..], k - 1, t, u);
    }
  }

  lemma OpeningGoesOn(db: Tables, tx: Uuid, tenant: Uuid, x: Tx, y: Tx, lock: Option<Uuid>)
    requires lock in {None, Some(tenant)}
    ensures var s := OpeningState(db, tx, tenant, x);
            OpeningState(db, tx, tenant, y)
            == State(db, if lock.Some? then s.locks[lock.value := tx] else s.locks, s.txs[tx := y])
  {
    assert map[tx := x][tx := y] == map[tx := y] && map[tenant := tx][tenant := tx] == map[tenant := tx];
  }

  lemma BeginTakes(db: Tables, tx: Uuid)
    ensures Next(State(db, map[], map[]), Begin(tx)) == Some(State(db, map[], map[tx := FRESH_TX]))
  {
    var s := State(db, map[], map[]);
    assert s.txs[tx := FRESH_TX] == map[tx := FRESH_TX];
    assert tx !in s.locks.Values;
  }

  lemma RoleTakes(db: Tables, tx: Uuid, o: NewTenant)
    requires Unopened(db, o)
    ensures Next(State(db, map[], map[tx := FRESH_TX]), Run(tx, InsertRole(o.role, Role(o.tenant, "admin"))))
         == Some(OpeningState(db, tx, o.tenant, WithRole(o)))
  {
    var s := State(db, map[], map[tx := FRESH_TX]);
    var after := OpeningState(db, tx, o.tenant, WithRole(o));
    RoleRuns(db, o);
    assert s.txs[tx := WithRole(o)] == after.txs && s.locks[o.tenant := tx] == after.locks;
    RunTakes(s, tx, InsertRole(o.role, Role(o.tenant, "admin")), Effect(WithRole(o), Some(o.tenant)), after);
  }

  /** A transaction that is alone runs its next statement. */
  lemma StatementFollows(s0: State, steps: seq<Step>, k: nat, s: State, e: Effect, after: State)
    requires k < |steps| && Runs(s0, steps[..k]) == s && steps[k].Run? && s.txs.Keys == {steps[k].tx}
    requires var tx := steps[k].tx;
             && s.txs[tx].checked.None? && Execute(s.db, s.txs[tx], steps[k].statement) == Some(e)
             && (e.lock.Some? && e.lock.value in s.locks ==> s.locks[e.lock.value] == tx)
             && after == State(s.db, if e.lock.Some? then s.locks[e.lock.value := tx] else s.locks, s.txs[tx := e.tx])
    ensures Runs(s0, steps[..k + 1]) == after
  {
    RunTakes(s, steps[k].tx, steps[k].statement, e, after);
    NextTakes(s0, steps, k, s, after);
  }

  lemma OpeningStarts(db: Tables, tx: Uuid, o: NewTenant, pending: bool)
    requires Unopened(db, o)
    ensures Runs(State(db, map[], map[]), OpeningSteps(tx, o, pending)[..2])
         == OpeningState(db, tx, o.tenant, WithRole(o))
  {
    var steps := OpeningSteps(tx, o, pending);
    var s0, s1 := State(db, map[], map[]), State(db, map[], map[tx := FRESH_TX]);
    assert Runs(s0, steps[..0]) == s0;
    BeginTakes(db, tx);
    NextTakes(s0, steps, 0, s0, s1);
    RoleTakes(db, tx, o);
    NextTakes(s0, steps, 1, s1, OpeningState(db, tx, o.tenant, WithRole(o)));
  }

  lemma AccountFollows(db: Tables, tx: Uuid, o: NewTenant, pending: bool)
    requires Unopened(db, o)
    ensures Runs(State(db, map[], map[]), OpeningSteps(tx, o, pending)[..3])
         == OpeningState(db, tx, o.tenant, WithAccount(o))
  {
    OpeningStarts(db, tx, o, pending);
    AccountRuns(db, o);
    OpeningGoesOn(db, tx, o.tenant, WithRole(o), WithAccount(o), Some(o.tenant));
    StatementFollows(State(db, map[], map[]), OpeningSteps(tx, o, pending), 2,
                     OpeningState(db, tx, o.tenant, WithRole(o)), Effect(WithAccount(o), Some(o.tenant)),
                     OpeningState(db, tx, o.tenant, WithAccount(o)));
  }

  lemma GrantFollows(db: Tables, tx: Uuid, o: NewTenant, pending: bool)
    requires Unopened(db, o)
    ensures Runs(State(db, map[], map[]), OpeningSteps(tx, o, pending)[..4])
         == OpeningState(db, tx, o.tenant, WithGrant(o))
  {
    AccountFollows(db, tx, o, pending);
    GrantRuns(db, o);
    OpeningGoesOn(db, tx, o.tenant, WithAccount(o), WithGrant(o), None);
    StatementFollows(State(db, map[], map[]), OpeningSteps(tx, o, pending), 3,
                     OpeningState(db, tx, o.tenant, WithAccount(o)), Effect(WithGrant(o), None),
                     OpeningState(db, tx, o.tenant, WithGrant(o)));
  }

  /** Up to the last statement. */
  lemma OpeningRuns(db: Tables, tx: Uuid, o: NewTenant, pending: bool)
    requires Unopened(db, o)
    ensures Runs(State(db, map[], map[]), OpeningSteps(tx, o, pending)[..5])
         == OpeningState(db, tx, o.tenant, WithOpening(o, pending))
  {
    GrantFollows(db, tx, o, pending);
    RecordRuns(db, o, pending);
    OpeningGoesOn(db, tx, o.tenant, WithGrant(o), WithOpening(o, pending), None);
    StatementFollows(State(db, map[], map[]), OpeningSteps(tx, o, pending), 4,
                     OpeningState(db, tx, o.tenant, WithGrant(o)), Effect(WithOpening(o, pending), None),
                     OpeningState(db, tx, o.tenant, WithOpening(o, pending)));
  }

  /** The tables with the opening committed. */
  function Opened(db: Tables, o: NewTenant): Tables {
    db.(accounts := db.accounts[o.account := Account(o.tenant, o.organization, false)],
        roles := db.roles[o.role := Role(o.tenant, "admin")],
        grants := db.grants[(o.account, o.role) := o.tenant],
        openings := db.openings[o.tenant := Opening(o.account, true)])
  }

  lemma OpenedView(db: Tables, o: NewTenant, pending: bool)
    requires Unopened(db, o)
    ensures var v := View(db, WithOpening(o, pending));
            && v.accounts == db.accounts[o.account := Account(o.tenant, o.organization, false)]
            && v.roles == db.roles[o.role := Role(o.tenant, "admin")]
            && v.grants == db.grants[(o.account, o.role) := o.tenant]
            && v.openings == db.openings[o.tenant := Opening(o.account, pending)]
            && v.organizations == db.organizations && v.tenants == db.tenants
  {
    OverlaidRow(db.accounts, o.account, Account(o.tenant, o.organization, false));
    OverlaidRow(db.roles, o.role, Role(o.tenant, "admin"));
    OverlaidRow(db.grants, (o.account, o.role), o.tenant);
    OverlaidRow(db.openings, o.tenant, Opening(o.account, pending));
    OverlaidNothing(db.organizations);
  }

  lemma OverlaidRow<K(!new), V>(base: map<K, V>, k: K, row: V)
    ensures Overlay(base, map[k := Some(row)]) == base[k := row]
  {
  }

  lemma OverlaidNothing<K(!new), V>(base: map<K, V>)
    ensures Overlay(base, map[]) == base
  {
  }

  lemma StillUnadministered(db: Tables, o: NewTenant, pending: bool)
    requires Unopened(db, o)
    ensures !Administered(View(db, WithOpening(o, pending)), o.tenant)
  {
    OpenedView(db, o, pending);
    var v := View(db, WithOpening(o, pending));
    forall account ensures !Administers(v, o.tenant, account) {
      assert !Administers(db, o.tenant, account);
      if account != o.account {
        forall role ensures HoldsAdmin(v, o.tenant, account, role) ==> HoldsAdmin(db, o.tenant, account, role) {
        }
      }
    }
  }

  function Committing(o: NewTenant, pending: bool, checked: nat): Tx {
    WithOpening(o, pending).(checked := Some(checked))
  }

  lemma StartTakes(db: Tables, tx: Uuid, o: NewTenant, pending: bool)
    ensures Next(OpeningState(db, tx, o.tenant, WithOpening(o, pending)), StartCommit(tx))
         == Some(OpeningState(db, tx, o.tenant, Committing(o, pending, 0)))
  {
    var x := WithOpening(o, pending);
    assert map[tx := x][tx := Committing(o, pending, 0)] == map[tx := Committing(o, pending, 0)];
  }

  /** One more check has passed. */
  function Counted(s: State, tx: Uuid): State
    requires tx in s.txs && s.txs[tx].checked.Some?
  {
    s.(txs := s.txs[tx := s.txs[tx].(checked := Some(s.txs[tx].checked.value + 1))])
  }

  lemma CheckFollows(s0: State, steps: seq<Step>, k: nat, s: State, tx: Uuid)
    requires k < |steps| && Runs(s0, steps[..k]) == s && steps[k] == CheckNext(tx) && Next(s, steps[k]).Some?
    ensures tx in s.txs && s.txs[tx].checked.Some? && Runs(s0, steps[..k + 1]) == Counted(s, tx)
  {
    NextTakes(s0, steps, k, s, Counted(s, tx));
  }

  lemma OpeningCounted(db: Tables, tx: Uuid, o: NewTenant)
    ensures Counted(OpeningState(db, tx, o.tenant, Committing(o, true, 0)), tx)
         == OpeningState(db, tx, o.tenant, Committing(o, true, 1))
  {
    assert map[tx := Committing(o, true, 0)][tx := Committing(o, true, 1)] == map[tx := Committing(o, true, 1)];
  }

  lemma CheckRaisesUnlessPending(db: Tables, tx: Uuid, o: NewTenant, pending: bool)
    requires Unopened(db, o)
    ensures Next(OpeningState(db, tx, o.tenant, Committing(o, pending, 0)), CheckNext(tx)).None? <==> !pending
  {
    var x := Committing(o, pending, 0);
    var s := OpeningState(db, tx, o.tenant, x);
    var row := Account(o.tenant, o.organization, false);
    var v := View(db, WithOpening(o, pending));
    OpenedView(db, o, pending);
    StillUnadministered(db, o, pending);
    assert View(db, x) == v;
    assert Faces(s, tx, AccountInserted(o.account, row));
    InsertedAccountRaisesIff(s, tx, o.account, row);
    assert HoldsAdmin(v, o.tenant, o.account, o.role);
  }

  lemma PublishTakes(db: Tables, tx: Uuid, o: NewTenant)
    requires Unopened(db, o)
    ensures Next(OpeningState(db, tx, o.tenant, Committing(o, true, 1)), Publish(tx))
         == Some(State(Opened(db, o), map[], map[]))
  {
    var s := OpeningState(db, tx, o.tenant, Committing(o, true, 1));
    OpenedView(db, o, true);
    CommittingView(db, o);
    LastCheckPublishes(s, tx);
    assert Release(s.locks, tx) == map[];
    assert s.txs - {tx} == map[];
  }

  lemma CommittingView(db: Tables, o: NewTenant)
    ensures View(db, Committing(o, true, 1)) == View(db, WithOpening(o, true))
  {
  }

  lemma LastCheckPublishes(s: State, tx: Uuid)
    requires tx in s.txs && s.txs[tx].checked == Some(|s.txs[tx].events|)
    ensures Next(s, Publish(tx)) == Some(State(View(s.db, s.txs[tx]), Release(s.locks, tx), s.txs - {tx}))
  {
  }

  lemma UncheckedWaits(db: Tables, tx: Uuid, o: NewTenant)
    ensures Next(OpeningState(db, tx, o.tenant, Committing(o, false, 0)), Publish(tx)) == None
  {
  }

  lemma PendingEnds(db: Tables, tx: Uuid, o: NewTenant)
    requires Unopened(db, o)
    requires Runs(State(db, map[], map[]), OpeningSteps(tx, o, true)[..6])
          == OpeningState(db, tx, o.tenant, Committing(o, true, 0))
    ensures Runs(State(db, map[], map[]), OpeningSteps(tx, o, true)[..8]) == State(Opened(db, o), map[], map[])
  {
    var steps := OpeningSteps(tx, o, true);
    var s0, s7 := State(db, map[], map[]), OpeningState(db, tx, o.tenant, Committing(o, true, 1));
    CheckRaisesUnlessPending(db, tx, o, true);
    CheckFollows(s0, steps, 6, OpeningState(db, tx, o.tenant, Committing(o, true, 0)), tx);
    OpeningCounted(db, tx, o);
    PublishTakes(db, tx, o);
    NextTakes(s0, steps, 7, s7, State(Opened(db, o), map[], map[]));
  }

  lemma UnrecordedEnds(db: Tables, tx: Uuid, o: NewTenant)
    requires Unopened(db, o)
    requires Runs(State(db, map[], map[]), OpeningSteps(tx, o, false)[..6])
          == OpeningState(db, tx, o.tenant, Committing(o, false, 0))
    ensures Runs(State(db, map[], map[]), OpeningSteps(tx, o, false)[..8]).db == db
  {
    var steps := OpeningSteps(tx, o, false);
    var s0, s6 := State(db, map[], map[]), OpeningState(db, tx, o.tenant, Committing(o, false, 0));
    CheckRaisesUnlessPending(db, tx, o, false);
    NextWaits(s0, steps, 6, s6);
    UncheckedWaits(db, tx, o);
    NextWaits(s0, steps, 7, s6);
  }

  /** From every quiet state in which the tenant has no administrator, that transaction
      publishes when the opening is recorded as pending; otherwise it is not published. */
  lemma OpeningPublishesIffPending(db: Tables, tx: Uuid, o: NewTenant, pending: bool)
    requires Unopened(db, o)
    ensures var t := Runs(State(db, map[], map[]), OpeningSteps(tx, o, pending));
            t.db == if pending then Opened(db, o) else db
  {
    var steps := OpeningSteps(tx, o, pending);
    OpeningRuns(db, tx, o, pending);
    StartTakes(db, tx, o, pending);
    NextTakes(State(db, map[], map[]), steps, 5, OpeningState(db, tx, o.tenant, WithOpening(o, pending)),
              OpeningState(db, tx, o.tenant, Committing(o, pending, 0)));
    assert steps[..8] == steps;
    if pending {
      PendingEnds(db, tx, o);
    } else {
      UnrecordedEnds(db, tx, o);
    }
  }

  lemma {:induction false} NextWaits(s: State, steps: seq<Step>, k: nat, t: State)
    requires k < |steps| && Runs(s, steps[..k]) == t && Next(t, steps[k]) == None
    ensures Runs(s, steps[..k + 1]) == t
    decreases k
  {
    var longer, shorter := steps[..k + 1], steps[..k];
    if k == 0 {
      assert longer[1..] == [] && shorter == [];
      assert Runs(s, []) == s;
    } else {
      var next := match Next(s, steps[0]) case None => s case Some(after) => after;
      assert longer[1..] == steps[1..][..k] && shorter[1..] == steps[1..][..k - 1];
      NextWaits(next, steps[1..], k - 1, t);
    }
  }
}
