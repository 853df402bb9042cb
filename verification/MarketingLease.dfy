/** Consent at the moment a lease is granted. The call tests the consent in one statement
    and writes in the next; between the two others may commit. */
module MarketingLease {
  import opened Sql
  import opened MarketingAuthority
  import opened MarketingLaws
  import opened MarketingProtocol
  import opened MarketingMoves
  import opened MarketingRuns
  import opened MarketingConsent
  import opened MarketingRace

  /** The step puts a lease of the delivery on the record of the transaction. */
  ghost predicate Grants(s: State, id: Uuid, d: Uuid, step: Step) {
    && id in s.txs && id in Next(s, step).txs
    && var before, after := s.txs[id].log, Next(s, step).txs[id].log;
       |after| == |before| + 1 && after[|before|].Leased? && after[|before|].delivery == d
  }

  lemma OnlyFinishGrants(s: State, id: Uuid, d: Uuid, step: Step)
    requires Grants(s, id, d, step)
    ensures s.txs[id].agenda != [] && s.txs[id].agenda[0].FinishLease? && s.txs[id].agenda[0].delivery == d
    ensures d in ViewOf(s, id).deliveries && Live(ViewOf(s, id).deliveries[d])
  {
    assert step.Do? && step.id == id;
    DoTakes(s, id, step.move);
    EntryNeedsLease(ViewOf(s, id), s.txs[id], step.move, d);
  }

  lemma EntryNeedsLease(v: Tables, tx: Tx, move: Move, d: Uuid)
    requires Plan(v, tx, move).Some? && |Plan(v, tx, move).value.entries| == 1
    requires Plan(v, tx, move).value.entries[0].Leased? && Plan(v, tx, move).value.entries[0].delivery == d
    ensures tx.agenda != [] && tx.agenda[0].FinishLease? && tx.agenda[0].delivery == d
    ensures d in v.deliveries && Live(v.deliveries[d])
  {
  }

  /** No lease is granted while marketing is disabled or its consent withdrawn, over every
      interleaving in which nobody commits against another's consent. */
  lemma CalmLeaseIsWelcome(s: State, steps: seq<Step>, id: Uuid, d: Uuid, step: Step)
    requires Cared(s) && Calm(s, steps) && Grants(Run(s, steps), id, d, step)
    ensures !Unwelcome(ViewOf(Run(s, steps), id), d)
  {
    CalmKeepsCared(s, steps);
    var t := Run(s, steps);
    OnlyFinishGrants(t, id, d, step);
    GrantingFacts(t, id, d, step);
    UncoveredIsWanted(ViewOf(t, id), Held(t.locks, id), t.txs[id], d);
  }

  lemma UncoveredIsWanted(v: Tables, held: set<Row>, tx: Tx, d: Uuid)
    requires Guarded(v, held, tx) && !Covered(v, tx, d)
    ensures !Unwanted(v, d)
  {
  }

  // ---------------------------------------------------------------------------
  // Two commits before the lease is written

  /** Two of the three disagree about the consent of the membership. */
  predicate ClashAmong(s: State, x: Uuid, y: Uuid, id: Uuid, m: Uuid, c: Uuid) {
    Clash(s, x, y, m, c) || Clash(s, x, id, m, c) || Clash(s, y, id, m, c)
  }

  function ThirdView(s: State, x: Uuid, y: Uuid, id: Uuid): Tables
    requires x in s.txs && y in s.txs && id in s.txs
  {
    Merge(Merge(Merge(s.db, s.txs[x].rows), s.txs[y].rows), s.txs[id].rows)
  }

  lemma OverThree<K, V>(t: map<K, V>, a: map<K, V>, b: map<K, V>, c: map<K, V>, k: K)
    ensures Lookup(((t + a) + b) + c, k)
            == if k in c then Some(c[k]) else if k in b then Some(b[k]) else if k in a then Some(a[k]) else Lookup(t, k)
  {
  }

  lemma OverOne<K, V>(t: map<K, V>, a: map<K, V>, k: K)
    ensures Lookup(t + a, k) == if k in a then Some(a[k]) else Lookup(t, k)
  {
  }

  /** Locks tell who of three may have written a preference or a consent. */
  lemma OnlyOneWrites(s: State, p: Uuid, q: Uuid, m: Uuid, c: Uuid)
    requires Inv(s) && p in s.txs && q in s.txs && p != q
    ensures Preferring(m) in Held(s.locks, p) ==> m !in s.txs[q].rows.preferences
    ensures c in s.txs[p].rows.consents ==> c !in s.txs[q].rows.consents
  {
    BesideEachOther(s, p, q);
    BesideSwaps(s.db, s.txs[p].rows, s.txs[q].rows, Held(s.locks, p), Held(s.locks, q));
  }

  /** Whoever holds a preference sees what all three together show. */
  lemma HolderSeesAll(s: State, x: Uuid, y: Uuid, id: Uuid, p: Uuid, m: Uuid)
    requires Inv(s) && x in s.txs && y in s.txs && id in s.txs && x != y && x != id && y != id
    requires p in {x, y, id} && Preferring(m) in Held(s.locks, p)
    ensures SamePreference(ViewOf(s, p), ThirdView(s, x, y, id), m)
  {
    forall q | q in {x, y, id} && q != p ensures m !in s.txs[q].rows.preferences {
      OnlyOneWrites(s, p, q, m, 0);
    }
    var a, b, c := s.txs[x].rows.preferences, s.txs[y].rows.preferences, s.txs[id].rows.preferences;
    OverThree(s.db.preferences, a, b, c, m);
    OverOne(s.db.preferences, s.txs[p].rows.preferences, m);
  }

  lemma TakerDecides(s: State, x: Uuid, y: Uuid, id: Uuid, p: Uuid, c: Uuid)
    requires Inv(s) && x in s.txs && y in s.txs && id in s.txs && x != y && x != id && y != id
    requires p in {x, y, id} && TakesAway(s.db, s.txs[p].rows, c)
    ensures !Stands(ThirdView(s, x, y, id), c)
  {
    forall q | q in {x, y, id} && q != p ensures c !in s.txs[q].rows.consents {
      OnlyOneWrites(s, p, q, 0, c);
    }
    OverThree(s.db.consents, s.txs[x].rows.consents, s.txs[y].rows.consents, s.txs[id].rows.consents, c);
  }

  lemma PairLeavesUnwelcome(s: State, x: Uuid, y: Uuid, id: Uuid, p: Uuid, q: Uuid, m: Uuid, c: Uuid, d: Uuid)
    requires Inv(s) && x in s.txs && y in s.txs && id in s.txs && x != y && x != id && y != id
    requires p in {x, y, id} && q in {x, y, id} && MarketingFor(ThirdView(s, x, y, id), d, m)
    requires DependsOn(ViewOf(s, p), Held(s.locks, p), [], m, c) && TakesAway(s.db, s.txs[q].rows, c)
    ensures Unwelcome(ThirdView(s, x, y, id), d)
  {
    HolderSeesAll(s, x, y, id, p, m);
    TakerDecides(s, x, y, id, q, c);
  }

  /** A delivery of one view belongs to the same membership once others have committed. */
  lemma SameMember(db: Tables, a: Tables, b: Tables, ha: set<Row>, hb: set<Row>, m: Uuid, d: Uuid)
    requires Beside(db, a, b, ha, hb)
    requires d in Merge(db, a).deliveries && MarketingFor(Merge(Merge(db, b), a), d, m)
    ensures MarketingFor(Merge(db, a), d, m)
  {
    BesideSwaps(db, a, b, ha, hb);
    var va := Merge(db, a);
    assert Backed(va, va.deliveries[d]);
    MergedDelivery(db, a, b, ha, hb, d);
    MergedNotifications(db, a, b, ha, hb, va.deliveries[d].notification);
    if d in b.deliveries {
      assert d !in a.deliveries && Slides(db.deliveries[d], b.deliveries[d]);
    }
  }

  /** One commit makes a delivery unwelcome for a transaction without sweeps only if the
      two disagree. */
  lemma OneCommitClashes(s: State, x: Uuid, p: Uuid, m: Uuid, d: Uuid)
    requires Cared(s) && x in s.txs && p in s.txs && x != p && s.txs[x].agenda == []
    requires forall v :: !Covered(v, s.txs[p], d)
    requires Unwanted(Merge(ViewOf(s, x), s.txs[p].rows), d) && MarketingFor(Merge(ViewOf(s, x), s.txs[p].rows), d, m)
    ensures exists c :: Clash(s, x, p, m, c)
  {
    var hx, hp := Held(s.locks, x), Held(s.locks, p);
    BesideEachOther(s, p, x);
    UncoveredIsWanted(ViewOf(s, p), hp, s.txs[p], d);
    UncoveredIsWanted(ViewOf(s, x), hx, s.txs[x], d);
    MergedUnwanted(s.db, s.txs[p], s.txs[x], hp, hx, m, d);
    var c :| ClashOn(s.db, s.txs[p], s.txs[x], hp, hx, m, c);
    assert Clash(s, x, p, m, c);
  }

  /** A disagreement after one commit was one before. */
  lemma ClashWasBefore(s: State, x: Uuid, p: Uuid, q: Uuid, m: Uuid, c: Uuid)
    requires Inv(s) && x in s.txs && p in s.txs && q in s.txs && x != p && x != q && p != q
    requires DependsOn(Merge(ViewOf(s, x), s.txs[p].rows), Held(s.locks, p), s.txs[p].agenda, m, c)
    requires TakesAway(ViewOf(s, x), s.txs[q].rows, c)
    ensures DependsOn(ViewOf(s, p), Held(s.locks, p), s.txs[p].agenda, m, c) && TakesAway(s.db, s.txs[q].rows, c)
  {
    BesideEachOther(s, p, x);
    HeldApart(s.locks, p, x);
    MergedPeople(s.db, s.txs[p].rows, s.txs[x].rows, Held(s.locks, p), Held(s.locks, x), m, c);
    OnlyOneWrites(s, q, x, m, c);
  }

  lemma CommittedInv(s: State, x: Uuid)
    requires Inv(s) && x in s.txs && s.txs[x].agenda == []
    ensures Inv(Committed(s, x))
  {
    CommitTakes(s, x);
    CommitKeepsInv(s, x);
  }

  lemma StaysAfterCommit(s: State, x: Uuid, p: Uuid)
    requires x in s.txs && p in s.txs && x != p
    ensures var u := Committed(s, x);
            && u.db == ViewOf(s, x) && p in u.txs && u.txs[p] == s.txs[p]
            && Held(u.locks, p) == Held(s.locks, p)
  {
    HeldAfterUnlocking(s.locks, x, p);
  }

  lemma BesideAfterCommit(s: State, x: Uuid, p: Uuid, q: Uuid)
    requires Inv(s) && x in s.txs && p in s.txs && q in s.txs && x != p && x != q && p != q && s.txs[x].agenda == []
    ensures Beside(ViewOf(s, x), s.txs[p].rows, s.txs[q].rows, Held(s.locks, p), Held(s.locks, q))
  {
    CommittedInv(s, x);
    StaysAfterCommit(s, x, p);
    StaysAfterCommit(s, x, q);
    BesideEachOther(Committed(s, x), p, q);
  }

  lemma ClashOnWasBefore(s: State, x: Uuid, p: Uuid, q: Uuid, m: Uuid, c: Uuid)
    requires Inv(s) && x in s.txs && p in s.txs && q in s.txs && x != p && x != q && p != q
    requires ClashOn(ViewOf(s, x), s.txs[p], s.txs[q], Held(s.locks, p), Held(s.locks, q), m, c)
    ensures Clash(s, q, p, m, c)
  {
    if DependsOn(Merge(ViewOf(s, x), s.txs[p].rows), Held(s.locks, p), s.txs[p].agenda, m, c)
       && TakesAway(ViewOf(s, x), s.txs[q].rows, c) {
      ClashWasBefore(s, x, p, q, m, c);
    } else {
      ClashWasBefore(s, x, q, p, m, c);
    }
  }

  lemma SecondCommitClashes(s: State, x: Uuid, y: Uuid, id: Uuid, m: Uuid, d: Uuid)
    requires Inv(s) && x in s.txs && y in s.txs && id in s.txs && x != y && x != id && y != id
    requires s.txs[x].agenda == []
    requires !Unwanted(Merge(ViewOf(s, x), s.txs[y].rows), d) && !Unwanted(Merge(ViewOf(s, x), s.txs[id].rows), d)
    requires forall v :: !Covered(v, s.txs[id], d)
    requires Unwanted(ThirdView(s, x, y, id), d) && MarketingFor(ThirdView(s, x, y, id), d, m)
    ensures exists c :: Clash(s, y, id, m, c)
  {
    var hy, hid := Held(s.locks, y), Held(s.locks, id);
    BesideAfterCommit(s, x, id, y);
    MergedUnwanted(ViewOf(s, x), s.txs[id], s.txs[y], hid, hy, m, d);
    var c :| ClashOn(ViewOf(s, x), s.txs[id], s.txs[y], hid, hy, m, c);
    ClashOnWasBefore(s, x, id, y, m, c);
  }

  /** The membership of a delivery seen after both commits, seen after the first already. */
  lemma SeenEarlier(s: State, x: Uuid, y: Uuid, id: Uuid, m: Uuid, d: Uuid)
    requires Inv(s) && x in s.txs && y in s.txs && id in s.txs && x != y && x != id && y != id
    requires s.txs[x].agenda == [] && MarketingFor(ThirdView(s, x, y, id), d, m)
    ensures d in Merge(ViewOf(s, x), s.txs[id].rows).deliveries
            ==> MarketingFor(Merge(ViewOf(s, x), s.txs[id].rows), d, m)
    ensures d in Merge(ViewOf(s, x), s.txs[y].rows).deliveries
            ==> MarketingFor(Merge(ViewOf(s, x), s.txs[y].rows), d, m)
  {
    var hy, hid := Held(s.locks, y), Held(s.locks, id);
    BesideAfterCommit(s, x, id, y);
    BesideSwaps(ViewOf(s, x), s.txs[id].rows, s.txs[y].rows, hid, hy);
    if d in Merge(ViewOf(s, x), s.txs[id].rows).deliveries {
      SameMember(ViewOf(s, x), s.txs[id].rows, s.txs[y].rows, hid, hy, m, d);
    }
    if d in Merge(ViewOf(s, x), s.txs[y].rows).deliveries {
      SameMember(ViewOf(s, x), s.txs[y].rows, s.txs[id].rows, hy, hid, m, d);
    }
  }

  lemma UnwelcomeLeaseClashes(s: State, x: Uuid, y: Uuid, id: Uuid, m: Uuid, d: Uuid)
    requires Cared(s) && x in s.txs && y in s.txs && id in s.txs && x != y && x != id && y != id
    requires s.txs[x].agenda == [] && s.txs[y].agenda == [] && forall v :: !Covered(v, s.txs[id], d)
    requires Unwanted(ThirdView(s, x, y, id), d) && MarketingFor(ThirdView(s, x, y, id), d, m)
    ensures exists c :: ClashAmong(s, x, y, id, m, c)
  {
    SeenEarlier(s, x, y, id, m, d);
    if Unwanted(Merge(ViewOf(s, x), s.txs[y].rows), d) {
      OneCommitClashes(s, x, y, m, d);
      var c :| Clash(s, x, y, m, c);
      assert ClashAmong(s, x, y, id, m, c);
    } else if Unwanted(Merge(ViewOf(s, x), s.txs[id].rows), d) {
      OneCommitClashes(s, x, id, m, d);
      var c :| Clash(s, x, id, m, c);
      assert ClashAmong(s, x, y, id, m, c);
    } else {
      SecondCommitClashes(s, x, y, id, m, d);
      var c :| Clash(s, y, id, m, c);
      assert ClashAmong(s, x, y, id, m, c);
    }
  }

  /** An agenda without a pending subscription depends on preferences alone. */
  predicate NoSubscription(agenda: seq<Task>) {
    forall i :: 0 <= i < |agenda| ==> !agenda[i].FinishSubscribe?
  }

  lemma WithoutSubscription(s: State, p: Uuid, m: Uuid, c: Uuid)
    requires p in s.txs && NoSubscription(s.txs[p].agenda)
    requires DependsOn(ViewOf(s, p), Held(s.locks, p), s.txs[p].agenda, m, c)
    ensures DependsOn(ViewOf(s, p), Held(s.locks, p), [], m, c)
  {
  }

  lemma PairClashLeavesUnwelcome(s: State, x: Uuid, y: Uuid, id: Uuid, p: Uuid, q: Uuid, m: Uuid, c: Uuid, d: Uuid)
    requires Inv(s) && x in s.txs && y in s.txs && id in s.txs && x != y && x != id && y != id
    requires p in {x, y, id} && q in {x, y, id} && MarketingFor(ThirdView(s, x, y, id), d, m)
    requires NoSubscription(s.txs[p].agenda) && NoSubscription(s.txs[q].agenda) && Clash(s, p, q, m, c)
    ensures Unwelcome(ThirdView(s, x, y, id), d)
  {
    if DependsOn(ViewOf(s, p), Held(s.locks, p), s.txs[p].agenda, m, c) && TakesAway(s.db, s.txs[q].rows, c) {
      WithoutSubscription(s, p, m, c);
      PairLeavesUnwelcome(s, x, y, id, p, q, m, c, d);
    } else {
      WithoutSubscription(s, q, m, c);
      PairLeavesUnwelcome(s, x, y, id, q, p, m, c, d);
    }
  }

  lemma ClashAmongLeavesUnwelcome(s: State, x: Uuid, y: Uuid, id: Uuid, m: Uuid, c: Uuid, d: Uuid)
    requires Inv(s) && x in s.txs && y in s.txs && id in s.txs && x != y && x != id && y != id
    requires s.txs[x].agenda == [] && s.txs[y].agenda == [] && NoSubscription(s.txs[id].agenda)
    requires MarketingFor(ThirdView(s, x, y, id), d, m) && ClashAmong(s, x, y, id, m, c)
    ensures Unwelcome(ThirdView(s, x, y, id), d)
  {
    if Clash(s, x, y, m, c) {
      PairClashLeavesUnwelcome(s, x, y, id, x, y, m, c, d);
    } else if Clash(s, x, id, m, c) {
      PairClashLeavesUnwelcome(s, x, y, id, x, id, m, c, d);
    } else {
      PairClashLeavesUnwelcome(s, x, y, id, y, id, m, c, d);
    }
  }

  /** A disagreement with the transaction of the lease or between the two that commit
      before it writes, over a membership the delivery belongs to. */
  predicate LeaseClash(s: State, x: Uuid, y: Uuid, id: Uuid, t: Tables, m: Uuid, c: Uuid, d: Uuid) {
    ClashAmong(s, x, y, id, m, c) && MarketingFor(t, d, m)
  }

  lemma ViewAfterBoth(s: State, x: Uuid, y: Uuid, id: Uuid)
    requires x in s.txs && y in s.txs && id in s.txs && x != y && x != id && y != id
    ensures var u := Committed(Committed(s, x), y);
            id in u.txs && u.txs[id] == s.txs[id] && ViewOf(u, id) == ThirdView(s, x, y, id)
  {
  }

  lemma BothCommitted(s: State, x: Uuid, y: Uuid, id: Uuid)
    requires Inv(s) && x in s.txs && y in s.txs && id in s.txs && x != y && x != id && y != id
    requires s.txs[x].agenda == [] && s.txs[y].agenda == []
    ensures var u := Next(Next(s, Commit(x)), Commit(y));
            Inv(u) && id in u.txs && u.txs[id] == s.txs[id] && ViewOf(u, id) == ThirdView(s, x, y, id)
  {
    CommittedInv(s, x);
    CommittedInv(Committed(s, x), y);
    CommitTakes(s, x);
    CommitTakes(Committed(s, x), y);
    ViewAfterBoth(s, x, y, id);
  }

  lemma LeaseAlonePending(tx: Tx)
    requires |tx.agenda| == 1 && tx.agenda[0].FinishLease?
    ensures NoSubscription(tx.agenda) && forall v, e :: !Covered(v, tx, e)
  {
  }

  /** A transaction about to grant a lease has nothing else to finish. */
  lemma GrantingFacts(u: State, id: Uuid, d: Uuid, step: Step)
    requires Inv(u) && Grants(u, id, d, step)
    ensures NoSubscription(u.txs[id].agenda) && forall v, e :: !Covered(v, u.txs[id], e)
    ensures d in ViewOf(u, id).deliveries && Live(ViewOf(u, id).deliveries[d])
  {
    OnlyFinishGrants(u, id, d, step);
    OnlySweepsQueue(u, id);
    LeaseAlonePending(u.txs[id]);
  }

  /** When two transactions commit between the consent test of a lease and its UPDATE, and
      the lease is granted, the delivery is unwelcome at that moment if and only if two of
      the three transactions disagreed about the consent of its membership. */
  lemma GrantedUnwelcomeIff(s: State, x: Uuid, y: Uuid, id: Uuid, d: Uuid, step: Step)
    requires Cared(s) && x in s.txs && y in s.txs && id in s.txs && x != y && x != id && y != id
    requires s.txs[x].agenda == [] && s.txs[y].agenda == []
    requires Grants(Next(Next(s, Commit(x)), Commit(y)), id, d, step)
    ensures var v := ViewOf(Next(Next(s, Commit(x)), Commit(y)), id);
            Unwelcome(v, d) <==> exists m, c :: LeaseClash(s, x, y, id, v, m, c, d)
  {
    var u := Next(Next(s, Commit(x)), Commit(y));
    BothCommitted(s, x, y, id);
    GrantingFacts(u, id, d, step);
    UnwelcomeIffClash(s, x, y, id, d);
  }

  lemma UnwelcomeIffClash(s: State, x: Uuid, y: Uuid, id: Uuid, d: Uuid)
    requires Cared(s) && x in s.txs && y in s.txs && id in s.txs && x != y && x != id && y != id
    requires s.txs[x].agenda == [] && s.txs[y].agenda == [] && NoSubscription(s.txs[id].agenda)
    requires forall v :: !Covered(v, s.txs[id], d)
    requires d in ThirdView(s, x, y, id).deliveries && Live(ThirdView(s, x, y, id).deliveries[d])
    ensures var v := ThirdView(s, x, y, id);
            Unwelcome(v, d) <==> exists m, c :: LeaseClash(s, x, y, id, v, m, c, d)
  {
    var v := ThirdView(s, x, y, id);
    if Unwelcome(v, d) {
      var m := v.notifications[v.deliveries[d].notification].membership;
      UnwelcomeLeaseClashes(s, x, y, id, m, d);
      var c :| ClashAmong(s, x, y, id, m, c);
      assert LeaseClash(s, x, y, id, v, m, c, d);
    }
    if m, c :| LeaseClash(s, x, y, id, v, m, c, d) {
      ClashAmongLeavesUnwelcome(s, x, y, id, m, c, d);
    }
  }

  /** The transaction of the lease holds no preference and has written no consent. */
  ghost predicate Bare(s: State, id: Uuid) {
    id in s.txs && s.txs[id].rows.consents == map[] && forall m :: Preferring(m) !in Held(s.locks, id)
  }

  lemma BareNeverClashes(s: State, x: Uuid, id: Uuid, m: Uuid, c: Uuid)
    requires Bare(s, id)
    ensures !Clash(s, x, id, m, c)
  {
  }

  lemma BareLeavesTheOthers(s: State, x: Uuid, y: Uuid, id: Uuid, m: Uuid, c: Uuid)
    requires Bare(s, id)
    ensures ClashAmong(s, x, y, id, m, c) <==> Clash(s, x, y, m, c)
  {
    BareNeverClashes(s, x, id, m, c);
    BareNeverClashes(s, y, id, m, c);
  }

  lemma BareClashes(s: State, x: Uuid, y: Uuid, id: Uuid, v: Tables, d: Uuid)
    requires Bare(s, id) && d in v.deliveries && Live(v.deliveries[d])
    ensures (exists m, c :: LeaseClash(s, x, y, id, v, m, c, d)) <==> exists m, c :: ClashOver(s, x, y, v, m, c, d)
  {
    forall m, c ensures LeaseClash(s, x, y, id, v, m, c, d) <==> ClashOver(s, x, y, v, m, c, d) {
      BareLeavesTheOthers(s, x, y, id, m, c);
    }
  }

  lemma GrantedIsLive(s: State, x: Uuid, y: Uuid, id: Uuid, d: Uuid, step: Step)
    requires Inv(s) && x in s.txs && y in s.txs && id in s.txs && x != y && x != id && y != id
    requires s.txs[x].agenda == [] && s.txs[y].agenda == []
    requires Grants(Next(Next(s, Commit(x)), Commit(y)), id, d, step)
    ensures var v := ViewOf(Next(Next(s, Commit(x)), Commit(y)), id); d in v.deliveries && Live(v.deliveries[d])
  {
    BothCommitted(s, x, y, id);
    GrantingFacts(Next(Next(s, Commit(x)), Commit(y)), id, d, step);
  }

  /** For a lease in a transaction of its own: unwelcome when it is granted if and only if
      the two that committed disagreed about the consent of the live delivery. */
  lemma BareGrantedUnwelcomeIff(s: State, x: Uuid, y: Uuid, id: Uuid, d: Uuid, step: Step)
    requires Cared(s) && x in s.txs && y in s.txs && Bare(s, id) && x != y && x != id && y != id
    requires s.txs[x].agenda == [] && s.txs[y].agenda == []
    requires Grants(Next(Next(s, Commit(x)), Commit(y)), id, d, step)
    ensures var v := ViewOf(Next(Next(s, Commit(x)), Commit(y)), id);
            Unwelcome(v, d) <==> exists m, c :: ClashOver(s, x, y, v, m, c, d)
  {
    GrantedIsLive(s, x, y, id, d, step);
    GrantedUnwelcomeIff(s, x, y, id, d, step);
    BareClashes(s, x, y, id, ViewOf(Next(Next(s, Commit(x)), Commit(y)), id), d);
  }
}
