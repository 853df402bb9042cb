/** The online backfill of the tenant column of an association table: batches that skip
    locked rows, while other transactions go on writing through the tenant-setting
    trigger. */
module AssociationBackfill {
  import opened Sql

  /** A mapping row is identified by its two endpoints. */
  type Pair = (Uuid, Uuid)

  const BATCH_SIZE := 1_000

  /** The tenant of every left and right endpoint, and the mappings with their nullable
      tenant column. Endpoint tenants are immutable. */
  datatype Tables = Tables(lefts: map<Uuid, Uuid>, rights: map<Uuid, Uuid>, mappings: map<Pair, Option<Uuid>>)

  /** Both endpoints exist and belong to one tenant. */
  predicate Agrees(t: Tables, p: Pair) {
    p.0 in t.lefts && p.1 in t.rights && t.lefts[p.0] == t.rights[p.1]
  }

  /** A filled row carries the tenant of both its endpoints. */
  ghost predicate Sound(t: Tables) {
    forall p :: p in t.mappings && t.mappings[p].Some? ==> Agrees(t, p) && t.mappings[p].value == t.lefts[p.0]
  }

  ghost predicate Complete(t: Tables) {
    forall p :: p in t.mappings ==> Agrees(t, p) && t.mappings[p] == Some(t.lefts[p.0])
  }

  function Nulls(t: Tables): set<Pair> {
    set p | p in t.mappings && t.mappings[p].None?
  }

  /** Rows the batch query can fill. */
  function Fillable(t: Tables): set<Pair> {
    set p | p in t.mappings && t.mappings[p].None? && Agrees(t, p)
  }

  // ---------------------------------------------------------------------------
  // The trigger on the mapping table

  /** The tenant-setting trigger: the value it writes, or None when it raises. */
  function SetTenant(t: Tables, p: Pair, given: Option<Uuid>): Option<Uuid> {
    if !Agrees(t, p) then None
    else if given.Some? && given.value != t.lefts[p.0] then None
    else Some(t.lefts[p.0])
  }

  /** What other transactions do: new endpoints, mappings written through the trigger,
      mappings deleted. */
  datatype Write = AddLeft(id: Uuid, tenant: Uuid) | AddRight(id: Uuid, tenant: Uuid)
                 | PutMapping(row: Pair, given: Option<Uuid>) | DeleteMapping(row: Pair)

  function Applied(t: Tables, w: Write): Tables {
    match w
    case AddLeft(id, tenant) => if id in t.lefts then t else t.(lefts := t.lefts[id := tenant])
    case AddRight(id, tenant) => if id in t.rights then t else t.(rights := t.rights[id := tenant])
    case PutMapping(p, given) =>
      (match SetTenant(t, p, given)
       case None => t
       case Some(tenant) => t.(mappings := t.mappings[p := Some(tenant)]))
    case DeleteMapping(p) => t.(mappings := t.mappings - {p})
  }

  function AppliedAll(t: Tables, writes: seq<Write>): Tables
    decreases |writes|
  {
    if writes == [] then t else AppliedAll(Applied(t, writes[0]), writes[1..])
  }

  /** What happens around one batch: writes committed before it, and the rows others
      hold locked while it runs. */
  datatype Round = Round(writes: seq<Write>, locked: set<Pair>)

  ghost predicate Quiet(world: nat -> Round) {
    forall k: nat :: world(k) == Round([], {})
  }

  // ---------------------------------------------------------------------------
  // Other transactions do no harm

  lemma {:induction false} WritesKeepSound(t: Tables, writes: seq<Write>)
    requires Sound(t)
    ensures Sound(AppliedAll(t, writes)) && Nulls(AppliedAll(t, writes)) <= Nulls(t)
    decreases |writes|
  {
    if writes != [] {
      WriteKeepsSound(t, writes[0]);
      WritesKeepSound(Applied(t, writes[0]), writes[1..]);
    }
  }

  lemma WriteKeepsSound(t: Tables, w: Write)
    requires Sound(t)
    ensures Sound(Applied(t, w)) && Nulls(Applied(t, w)) <= Nulls(t)
  {
    var u := Applied(t, w);
    forall p | p in u.mappings && u.mappings[p].Some? ensures Agrees(u, p) && u.mappings[p].value == u.lefts[p.0] {
      if w.PutMapping? && w.row == p {
      } else {
        assert p in t.mappings && u.mappings[p] == t.mappings[p];
      }
    }
  }

  // ---------------------------------------------------------------------------
  // The loop

  /** The tenants a batch considers: at most a batch size of those with fillable rows,
      and none only when there are none. */
  predicate IsCandidates(t: Tables, tenants: set<Uuid>) {
    && |tenants| <= BATCH_SIZE
    && (tenants == {} ==> Fillable(t) == {})
    && forall id :: id in tenants ==> HasFillable(t, id)
  }

  predicate HasFillable(t: Tables, tenant: Uuid) {
    exists p :: p in Fillable(t) && t.lefts[p.0] == tenant
  }

  /** The rows a batch picks: fillable, unlocked, of a considered tenant, at most a batch
      size, and none only when there are none. */
  predicate IsBatch(t: Tables, tenants: set<Uuid>, locked: set<Pair>, batch: set<Pair>) {
    && |batch| <= BATCH_SIZE && batch <= Fillable(t)
    && (forall p :: p in batch ==> p !in locked && t.lefts[p.0] in tenants)
    && (batch == {} ==> forall p :: p in Fillable(t) && t.lefts[p.0] in tenants ==> p in locked)
  }

  function Filled(t: Tables, batch: set<Pair>): Tables
    requires batch <= Fillable(t)
  {
    t.(mappings := map p | p in t.mappings :: if p in batch then Some(t.lefts[p.0]) else t.mappings[p])
  }

  lemma CandidatesExist(t: Tables)
    ensures exists tenants :: IsCandidates(t, tenants)
  {
    if forall p :: p !in Fillable(t) {
      assert Fillable(t) == {};
      assert IsCandidates(t, {});
    } else {
      var p :| p in Fillable(t);
      assert HasFillable(t, t.lefts[p.0]);
      assert IsCandidates(t, {t.lefts[p.0]});
    }
  }

  lemma BatchExists(t: Tables, tenants: set<Uuid>, locked: set<Pair>)
    ensures exists batch :: IsBatch(t, tenants, locked, batch)
  {
    if forall p :: p in Fillable(t) && t.lefts[p.0] in tenants ==> p in locked {
      assert IsBatch(t, tenants, locked, {});
    } else {
      var p :| p in Fillable(t) && t.lefts[p.0] in tenants && p !in locked;
      assert IsBatch(t, tenants, locked, {p});
    }
  }

  lemma FillingKeepsSound(t: Tables, batch: set<Pair>)
    requires Sound(t) && batch <= Fillable(t)
    ensures Sound(Filled(t, batch)) && Nulls(Filled(t, batch)) == Nulls(t) - batch
  {
    var u := Filled(t, batch);
    forall p | p in u.mappings && u.mappings[p].Some? ensures Agrees(u, p) && u.mappings[p].value == u.lefts[p.0] {
      assert p in batch || u.mappings[p] == t.mappings[p];
    }
  }

  class Association {
    var lefts: map<Uuid, Uuid>
    var rights: map<Uuid, Uuid>
    var mappings: map<Pair, Option<Uuid>>

    constructor (t: Tables)
      ensures Contents() == t
    {
      lefts, rights, mappings := t.lefts, t.rights, t.mappings;
    }

    function Contents(): (t: Tables)
      reads this
    {
      Tables(lefts, rights, mappings)
    }

    /** What other transactions commit meanwhile. */
    method Interfere(ghost t: Tables, writes: seq<Write>)
      requires t == Contents()
      modifies this
      ensures Contents() == AppliedAll(t, writes)
    {
      var i := 0;
      assert writes[0..] == writes;
      while i < |writes|
        invariant i <= |writes|
        invariant AppliedAll(Contents(), writes[i..]) == AppliedAll(t, writes)
      {
        assert writes[i..][0] == writes[i] && writes[i..][1..] == writes[i + 1..];
        var u := Applied(Contents(), writes[i]);
        lefts, rights, mappings := u.lefts, u.rights, u.mappings;
        i := i + 1;
      }
    }

    /** One batch, in a transaction of its own; the number of rows it filled. */
    method Batch(locked: set<Pair>) returns (updated: nat, ghost batch: set<Pair>)
      modifies this`mappings
      ensures batch <= Fillable(old(Contents()))
      ensures batch !! locked && updated == |batch| <= BATCH_SIZE
      ensures Contents() == Filled(old(Contents()), batch)
      ensures locked == {} && batch == {} ==> Fillable(old(Contents())) == {}
    {
      CandidatesExist(Contents());
      var tenants :| IsCandidates(Contents(), tenants);
      BatchExists(Contents(), tenants, locked);
      var picked :| IsBatch(Contents(), tenants, locked, picked);
      if locked == {} && picked == {} {
        NothingSkipped(Contents(), tenants);
      }
      batch := picked;
      updated := |picked|;
      mappings := Filled(Contents(), picked).mappings;
    }

    /** The backfill. It ends whatever other transactions do between its batches and
        whatever rows they keep locked, because the NULL rows get fewer with every batch
        but the last. It succeeds exactly when no NULL row is left, and then every row
        carries the tenant of both its endpoints. With nobody else around, it succeeds
        exactly when no NULL row has endpoints of different tenants. */
    method Backfill(world: nat -> Round) returns (ok: bool)
      requires Sound(Contents())
      modifies this
      ensures Sound(Contents()) && Nulls(Contents()) <= old(Nulls(Contents()))
      ensures ok <==> Nulls(Contents()) == {}
      ensures ok ==> Complete(Contents())
      ensures Quiet(world) ==> (ok <==> old(Nulls(Contents()) == Fillable(Contents())))
    {
      ghost var start := Contents();
      assert Filled(start, {}) == start;
      var round: nat := 0;
      var updated := 1;
      while updated != 0
        invariant Sound(Contents()) && Nulls(Contents()) <= Nulls(start)
        invariant Quiet(world) ==> OnlyFilled(start, Contents())
        invariant Quiet(world) && updated == 0 ==> Fillable(Contents()) == {}
        decreases |Nulls(Contents())|, updated
      {
        ghost var t := Contents();
        var now := world(round);
        Interfere(Contents(), now.writes);
        WritesKeepSound(t, now.writes);
        SubsetSize(Nulls(Contents()), Nulls(t));
        ghost var u := Contents();
        ghost var batch;
        updated, batch := Batch(now.locked);
        FillingKeepsSound(u, batch);
        SubsetSize(Nulls(Contents()), Nulls(u));
        if updated != 0 {
          FewerNulls(u, batch);
        }
        if Quiet(world) {
          assert now == Round([], {});
          OnlyFilledAgain(start, t, batch);
        }
        round := round + 1;
      }
      ghost var t := Contents();
      Interfere(Contents(), world(round).writes);
      WritesKeepSound(t, world(round).writes);
      if Quiet(world) {
        assert world(round) == Round([], {});
        QuietEnd(start, t);
      }
      var remaining := |Nulls(Contents())|;
      ok := remaining == 0;
      if ok {
        NoNullsIsComplete(Contents());
      }
    }
  }

  lemma NoNullsIsComplete(t: Tables)
    requires Sound(t) && |Nulls(t)| == 0
    ensures Complete(t)
  {
    forall p | p in t.mappings ensures Agrees(t, p) && t.mappings[p] == Some(t.lefts[p.0]) {
      assert p !in Nulls(t);
    }
  }

  lemma NothingSkipped(t: Tables, tenants: set<Uuid>)
    requires IsCandidates(t, tenants) && IsBatch(t, tenants, {}, {})
    ensures Fillable(t) == {}
  {
    assert forall p :: p in Fillable(t) ==> t.lefts[p.0] !in tenants;
    forall id ensures id !in tenants {
      assert id in tenants ==> HasFillable(t, id);
    }
  }

  lemma FewerNulls(t: Tables, batch: set<Pair>)
    requires batch <= Fillable(t) && batch != {} && Nulls(Filled(t, batch)) == Nulls(t) - batch
    ensures |Nulls(Filled(t, batch))| < |Nulls(t)|
  {
    assert batch <= Nulls(t);
    assert |Nulls(t) - batch| == |Nulls(t)| - |batch|;
  }

  /** Only fillable rows of the start have been filled, nothing else has changed. */
  ghost predicate OnlyFilled(start: Tables, t: Tables) {
    exists filled :: filled <= Fillable(start) && t == Filled(start, filled)
  }

  lemma OnlyFilledAgain(start: Tables, t: Tables, batch: set<Pair>)
    requires OnlyFilled(start, t) && batch <= Fillable(t)
    ensures OnlyFilled(start, Filled(t, batch))
  {
    var filled :| filled <= Fillable(start) && t == Filled(start, filled);
    forall p | p in batch ensures p in Fillable(start) {
      assert p in t.mappings;
    }
    assert Filled(t, batch) == Filled(start, filled + batch);
  }

  lemma QuietEnd(start: Tables, t: Tables)
    requires OnlyFilled(start, t) && Fillable(t) == {}
    ensures Nulls(t) == {} <==> Nulls(start) == Fillable(start)
  {
    var filled :| filled <= Fillable(start) && t == Filled(start, filled);
    assert forall p :: p in Fillable(start) && p !in filled ==> p in Fillable(t);
    forall p ensures p in Nulls(t) <==> p in Nulls(start) && p !in Fillable(start) {
      assert p in t.mappings <==> p in start.mappings;
    }
  }
}
