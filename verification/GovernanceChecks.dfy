/** The deferred constraint triggers as they run on the final state: which tenant is
    governed and whether its check is required, decided by branch, then the queries. */
module GovernanceChecks {
  import opened Sql
  import Forest
  import opened TenantGovernance

  predicate IsWitness(v: Tables, tenant: Uuid, g: Grant) {
    && g.0 in v.accounts && v.accounts[g.0].tenant == tenant && v.accounts[g.0].active
    && g.1 in v.roles && v.roles[g.1].tenant == tenant && v.roles[g.1].name == ADMIN
  }

  /** The join of accounts, grants and roles for one tenant. */
  method FindActiveAdmin(v: Tables, tenant: Uuid) returns (found: bool)
    ensures found == HasActiveAdmin(v, tenant)
  {
    var left := v.grants.Keys;
    while left != {}
      invariant left <= v.grants.Keys
      invariant forall g :: g in v.grants.Keys - left ==> !IsWitness(v, tenant, g)
      decreases |left|
    {
      if forall g :: g !in left {
        assert false;
      }
      var g :| g in left;
      if IsWitness(v, tenant, g) {
        assert (g.0, g.1) == g && Witness(v, tenant, g.0, g.1);
        return true;
      }
      left := left - {g};
    }
    forall account, role ensures !Witness(v, tenant, account, role) {
      assert (account, role) in v.grants ==> !IsWitness(v, tenant, (account, role));
    }
    found := false;
  }

  predicate IsPendingGrant(v: Tables, id: Uuid, tenant: Uuid, g: Grant)
    requires g in v.grants
  {
    g.0 == id && v.grants[g] == tenant && g.1 in v.roles && v.roles[g.1] == Role(tenant, ADMIN)
  }

  /** The exemption of a recorded initial administrator still awaiting activation. */
  method FindPendingAdmin(v: Tables, id: Uuid, row: Account) returns (found: bool)
    ensures found == PendingInitialAdmin(v, id, row)
  {
    if row.active || row.tenant !in v.openings || v.openings[row.tenant] != Opening(id, true) {
      return false;
    }
    var left := v.grants.Keys;
    while left != {}
      invariant left <= v.grants.Keys
      invariant forall g :: g in v.grants.Keys - left ==> !IsPendingGrant(v, id, row.tenant, g)
      decreases |left|
    {
      if forall g :: g !in left {
        assert false;
      }
      var g :| g in left;
      if IsPendingGrant(v, id, row.tenant, g) {
        var role := g.1;
        assert (id, role) == g && v.grants[(id, role)] == row.tenant;
        return true;
      }
      left := left - {g};
    }
    assert forall role :: (id, role) in v.grants ==> !IsPendingGrant(v, id, row.tenant, (id, role));
    found := false;
  }

  /** The last-administrator check: it raises exactly on the calls the protocol does not
      accept. */
  method AssertTenantHasActiveAdmin(v: Tables, e: Event) returns (raises: bool)
    requires !e.OrganizationPlaced?
    ensures raises <==> !Accepts(v, e)
  {
    var governedTenant: Option<Uuid> := None;
    var requiresCheck := false;
    match e {
      case GrantChanged(account, role) =>
        if account in v.accounts {
          governedTenant := Some(v.accounts[account].tenant);
          requiresCheck := role in v.roles && v.roles[role].name == ADMIN;
        }
      case AccountInserted(id, row) =>
        governedTenant, requiresCheck := Some(row.tenant), true;
        var pending := FindPendingAdmin(v, id, row);
        if pending {
          return false;
        }
      case AccountUpdated(before, after) =>
        governedTenant, requiresCheck := Some(before.tenant), before.active && !after.active;
      case AccountDeleted(before) =>
        governedTenant, requiresCheck := Some(before.tenant), true;
      case RoleUpdated(was, now) =>
        governedTenant, requiresCheck := Some(was.tenant), was.name == ADMIN && now.name != ADMIN;
      case RoleDeleted(was) =>
        governedTenant, requiresCheck := Some(was.tenant), was.name == ADMIN;
    }
    if !requiresCheck {
      return false;
    }
    var found := FindActiveAdmin(v, governedTenant.value);
    raises := !found;
  }

  /** The hierarchy check: it raises exactly when the row is among the rows above the
      parent it was queued with. */
  method AssertOrganizationHierarchyAcyclic(v: Tables, e: Event) returns (raises: bool)
    requires e.OrganizationPlaced?
    ensures raises <==> !Accepts(v, e)
  {
    if e.place.parent.None? {
      return false;
    }
    var ancestors := Forest.AncestorClosure(Tree(v, e.place.tenant), e.place.parent.value);
    raises := e.id in ancestors;
  }
}
