/** The rows of the backfill written out: what the tenant-setting trigger takes, which rows a
    batch may fill, and what a sound and a complete association table is. */
module BackfillOutcomes {
  import opened Sql
  import opened AssociationBackfill

  /** Both endpoints exist, and this is the tenant of both. */
  predicate TenantOfBoth(t: Tables, p: Pair, tenant: Uuid) {
    p.0 in t.lefts && p.1 in t.rights && t.lefts[p.0] == tenant && t.rights[p.1] == tenant
  }

  /** A mapping written through the trigger gets the tenant of both its endpoints, whatever
      was given, and is refused if there is no such tenant or another one was given. */
  lemma TriggerSetsIff(t: Tables, p: Pair, given: Option<Uuid>)
    ensures forall tenant :: SetTenant(t, p, given) == Some(tenant)
                             <==> TenantOfBoth(t, p, tenant) && (given.Some? ==> given.value == tenant)
  {
  }

  lemma SoundIff(t: Tables)
    ensures Sound(t) <==> forall p :: p in t.mappings && t.mappings[p].Some? ==> TenantOfBoth(t, p, t.mappings[p].value)
  {
  }

  lemma CompleteIff(t: Tables)
    ensures Complete(t) <==> forall p :: p in t.mappings ==>
                               t.mappings[p].Some? && TenantOfBoth(t, p, t.mappings[p].value)
  {
  }

  /** A row may be filled if and only if it is there, its column is NULL and its endpoints
      have one tenant. */
  lemma FillableIff(t: Tables, p: Pair)
    ensures p in Fillable(t) <==> && p in t.mappings && t.mappings[p].None?
                                  && exists tenant :: TenantOfBoth(t, p, tenant)
  {
    if p in Fillable(t) {
      assert TenantOfBoth(t, p, t.lefts[p.0]);
    }
  }

  /** A batch looks at no more than a thousand tenants, each with a row to fill, and fills no
      more than a thousand of their rows, none of which others have locked; it fills none
      only if all of them are locked. */
  lemma BatchIsBounded(t: Tables, tenants: set<Uuid>, locked: set<Pair>, batch: set<Pair>)
    ensures IsCandidates(t, tenants) && IsBatch(t, tenants, locked, batch)
            <==> && |tenants| <= 1000 && |batch| <= 1000
                 && (tenants == {} ==> forall p :: p !in Fillable(t))
                 && (forall id :: id in tenants ==> exists p :: p in Fillable(t) && TenantOfBoth(t, p, id))
                 && (forall p :: p in batch ==> p in Fillable(t) && p !in locked && t.lefts[p.0] in tenants)
                 && (batch == {} ==> forall p :: p in Fillable(t) && t.lefts[p.0] in tenants ==> p in locked)
  {
    forall id ensures HasFillable(t, id) <==> exists p :: p in Fillable(t) && TenantOfBoth(t, p, id) {
      if p :| p in Fillable(t) && t.lefts[p.0] == id {
        assert TenantOfBoth(t, p, id);
      }
    }
    if forall p :: p !in Fillable(t) {
      assert Fillable(t) == {};
    }
  }

  /** It gives exactly the rows it picked the tenant of both their endpoints. */
  lemma BatchFills(t: Tables, batch: set<Pair>)
    requires batch <= Fillable(t)
    ensures var u := Filled(t, batch);
            && u.lefts == t.lefts && u.rights == t.rights && u.mappings.Keys == t.mappings.Keys
            && forall p :: p in t.mappings ==>
                 if p in batch then u.mappings[p].Some? && TenantOfBoth(t, p, u.mappings[p].value)
                 else u.mappings[p] == t.mappings[p]
  {
    forall p | p in batch ensures p in t.mappings && TenantOfBoth(t, p, t.lefts[p.0]) {
      assert p in Fillable(t);
    }
  }
}
