/** The membership tables over every run: union-find with links and credentials kept
    at the roots, and what sending a request again does at any later point. */
module MembershipRuns {
  import opened Sql
  import opened Forest
  import opened MembershipAuthority
  import opened MembershipLaws

  /** Steps of the authority functions, and of the rest of the system: a consumer or a
      consent changes, a credential is revoked. */
  datatype Step =
    | JoinWith(join: JoinRequest)
    | BindWith(bind: BindRequest)
    | RecoverWith(recover: RecoverRequest)
    | MergeWith(merge: MergeRequest)
    | RevokeCredential(credential: Uuid)
    | AddConsumer(consumer: Uuid)
    | SetConsent(id: Uuid, consent: Consent)

  ghost function After(t: Tables, step: Step): Tables {
    match step
    case JoinWith(q) => JoinStep(t, q).0
    case BindWith(q) => BindStep(t, q).0
    case RecoverWith(q) => RecoverStep(t, q).0
    case MergeWith(q) => MergeStep(t, q).0
    case RevokeCredential(k) => Revoked(t, k)
    case AddConsumer(c) => t.(consumers := t.consumers + {c})
    case SetConsent(id, consent) => t.(consents := t.consents[id := consent])
  }

  /** The membership each link and credential was first attached to. */
  datatype Homes = Homes(links: map<Uuid, Uuid>, credentials: map<Uuid, Uuid>)

  function NewHomes(before: Tables, h: Homes, after: Tables): Homes {
    Homes(h.links + (map c | c in after.links && c !in before.links :: after.links[c].membership),
          h.credentials + (map k | k in after.credentials && k !in before.credentials ::
              after.credentials[k].membership))
  }

  ghost function Runs(t: Tables, h: Homes, steps: seq<Step>): (Tables, Homes)
    decreases |steps|
  {
    if steps == [] then (t, h)
    else
      var next := After(t, steps[0]);
      Runs(next, NewHomes(t, h, next), steps[1..])
  }

  const EMPTY := Tables(map[], map[], map[], map[], {}, map[])
  const NO_HOMES := Homes(map[], map[])

  // ---------------------------------------------------------------------------
  // The invariant

  /** `r` is the end of the merge chain of `m`. */
  ghost predicate RootOf(f: Forest, m: Uuid, r: Uuid) {
    Reaches(f, m, r) && Parent(f, r).None?
  }

  /** CHECK constraints and foreign keys of the membership table. */
  ghost predicate EdgesOk(t: Tables) {
    forall m :: m in t.memberships ==>
      && (t.memberships[m].status == Active <==> t.memberships[m].mergedInto.None?)
      && (t.memberships[m].mergedInto.Some? ==> t.memberships[m].mergedInto.value in t.memberships)
  }

  predicate BothPrimary(a: Link, b: Link) {
    a.membership == b.membership && a.primary && b.primary
  }

  predicate BothLive(a: Credential, b: Credential) {
    a.subject == b.subject && !a.revoked && !b.revoked
  }

  ghost predicate LinksOk(t: Tables, h: Homes) {
    && h.links.Keys == t.links.Keys
    && (forall c :: c in t.links ==> RootOf(MergeEdges(t), h.links[c], t.links[c].membership))
    && (forall c :: c in t.links && t.links[c].primary ==> h.links[c] == t.links[c].membership)
    && (forall c, d :: c in t.links && d in t.links && BothPrimary(t.links[c], t.links[d]) ==> c == d)
  }

  ghost predicate PrimariesOk(t: Tables) {
    forall m :: m in t.memberships && t.memberships[m].status == Active ==> HasPrimary(t, m)
  }

  ghost predicate HasPrimary(t: Tables, m: Uuid) {
    exists c :: c in t.links && t.links[c].membership == m && t.links[c].primary
  }

  ghost predicate CredentialsOk(t: Tables, h: Homes) {
    && h.credentials.Keys == t.credentials.Keys
    && (forall k :: k in t.credentials && !t.credentials[k].revoked ==>
          RootOf(MergeEdges(t), h.credentials[k], t.credentials[k].membership))
    && (forall j, k ::
          j in t.credentials && k in t.credentials && BothLive(t.credentials[j], t.credentials[k]) ==> j == k)
  }

  ghost predicate Inv(t: Tables, h: Homes) {
    && EdgesOk(t) && Acyclic(MergeEdges(t)) && LinksOk(t, h) && PrimariesOk(t) && CredentialsOk(t, h)
    && (forall key :: key in t.events ==> t.events[key].membership in t.memberships)
    && (forall k :: k in t.credentials ==> t.credentials[k].membership in t.memberships)
  }

  // ---------------------------------------------------------------------------
  // Merge chains

  lemma RootIsActive(t: Tables, m: Uuid, r: Uuid)
    requires EdgesOk(t) && RootOf(MergeEdges(t), m, r)
    ensures r in t.memberships && t.memberships[r].status == Active
  {
    var k: nat :| Hop(MergeEdges(t), m, k) == Some(r);
    HopPrefix(MergeEdges(t), m, k, k);
  }

  /** A chain has one end. */
  lemma {:induction false} RootIsUnique(f: Forest, m: Uuid, r: Uuid, s: Uuid)
    requires RootOf(f, m, r) && RootOf(f, m, s)
    ensures r == s
  {
    var a: nat :| Hop(f, m, a) == Some(r);
    var b: nat :| Hop(f, m, b) == Some(s);
    if a < b {
      HopAdd(f, m, a, b - a);
    } else if b < a {
      HopAdd(f, m, b, a - b);
    }
  }

  lemma ActiveIsItsOwnRoot(t: Tables, m: Uuid)
    requires EdgesOk(t) && IsActive(t, m)
    ensures RootOf(MergeEdges(t), m, m)
  {
    assert Hop(MergeEdges(t), m, 0) == Some(m);
  }

  /** From an active membership the merge chain goes nowhere, so the recursive cycle
      check of a merge sees the target alone and never fires. */
  lemma CycleCheckNeverFires(t: Tables, target: Uuid, source: Uuid)
    requires EdgesOk(t) && IsActive(t, target) && source != target
    ensures !Reaches(MergeEdges(t), target, source)
  {
    var f := MergeEdges(t);
    forall k: nat ensures Hop(f, target, k) != Some(source) {
      assert Parent(f, target).None?;
    }
  }

  /** Rows that point as before keep their walk up to a root that gains a parent. */
  lemma {:induction false} HopsUpToRootStay(f: Forest, g: Forest, root: Uuid, n: Uuid, k: nat)
    requires f.Keys <= g.Keys && forall m :: m in f && m != root ==> g[m] == f[m]
    requires Parent(f, root).None? && Hop(f, n, k).Some?
    requires forall m :: m in f && f[m].Some? ==> f[m].value in f
    ensures Hop(g, n, k) == Hop(f, n, k)
    decreases k
  {
    if k > 0 {
      HopsUpToRootStay(f, g, root, Parent(f, n).value, k - 1);
    }
  }

  /** A new row without a parent changes no root. */
  lemma RootsAfterJoin(t: Tables, u: Tables, added: Uuid, m: Uuid, r: Uuid)
    requires EdgesOk(t) && added !in t.memberships && RootOf(MergeEdges(t), m, r)
    requires MergeEdges(u) == MergeEdges(t)[added := None]
    ensures RootOf(MergeEdges(u), m, r)
  {
    var f, g := MergeEdges(t), MergeEdges(u);
    var k: nat :| Hop(f, m, k) == Some(r);
    HopsUpToRootStay(f, g, added, m, k);
    HopPrefix(f, m, k, k);
  }

  /** Merging one root into another moves exactly the chains that ended there. */
  lemma RootsAfterMerge(t: Tables, u: Tables, source: Uuid, target: Uuid, m: Uuid, r: Uuid)
    requires EdgesOk(t) && IsActive(t, source) && IsActive(t, target) && source != target
    requires RootOf(MergeEdges(t), m, r) && MergeEdges(u) == MergeEdges(t)[source := Some(target)]
    ensures RootOf(MergeEdges(u), m, if r == source then target else r)
  {
    var f, g := MergeEdges(t), MergeEdges(u);
    var k: nat :| Hop(f, m, k) == Some(r);
    HopsUpToRootStay(f, g, source, m, k);
    HopPrefix(f, m, k, k);
    if r == source {
      HopAdd(g, m, k, 1);
      assert Hop(g, source, 1) == Hop(g, target, 0) == Some(target);
      assert Hop(g, m, k + 1) == Some(target);
    }
  }

  lemma MergeStaysAcyclic(t: Tables, u: Tables, source: Uuid, target: Uuid)
    requires EdgesOk(t) && Acyclic(MergeEdges(t)) && IsActive(t, source) && IsActive(t, target) && source != target
    requires MergeEdges(u) == MergeEdges(t)[source := Some(target)]
    ensures Acyclic(MergeEdges(u))
  {
    var g := MergeEdges(u);
    assert Parent(g, target).None?;
    forall k: nat ensures Hop(g, target, k) != Some(source) {}
    LocalCheckGivesGlobal(MergeEdges(t), g, {source});
  }

  lemma JoinStaysAcyclic(t: Tables, u: Tables, added: Uuid)
    requires EdgesOk(t) && Acyclic(MergeEdges(t)) && MergeEdges(u) == MergeEdges(t)[added := None]
    ensures Acyclic(MergeEdges(u))
  {
    LocalCheckGivesGlobal(MergeEdges(t), MergeEdges(u), {added});
  }

  // ---------------------------------------------------------------------------
  // Every step keeps the invariant

  lemma PrimariesFrame(t: Tables, u: Tables)
    requires PrimariesOk(t) && u.memberships == t.memberships && u.links == t.links
    ensures PrimariesOk(u)
  {
    forall m | m in u.memberships && u.memberships[m].status == Active ensures HasPrimary(u, m) {
      assert HasPrimary(t, m);
    }
  }

  /** A step that leaves memberships, links and credentials alone. */
  lemma SameTablesKeepInv(t: Tables, h: Homes, u: Tables)
    requires Inv(t, h) && u.memberships == t.memberships && u.links == t.links && u.credentials == t.credentials
    requires u.events == t.events
    ensures Inv(u, NewHomes(t, h, u))
  {
    assert MergeEdges(u) == MergeEdges(t);
    assert NewHomes(t, h, u).links == h.links && NewHomes(t, h, u).credentials == h.credentials;
    PrimariesFrame(t, u);
  }

  ghost predicate Joins(t: Tables, u: Tables, q: JoinRequest) {
    && q.membership !in t.memberships && q.consumer !in t.links
    && u.memberships == t.memberships[q.membership := Membership(q.number, Active, None)]
    && u.links == t.links[q.consumer := Link(q.link, q.membership, true)]
    && u.credentials == t.credentials
    && u.events == t.events[q.key := Event(q.event, q.membership, Joined, q.hash)]
  }

  lemma JoinKeepsInv(t: Tables, h: Homes, q: JoinRequest)
    requires Inv(t, h)
    ensures Inv(JoinStep(t, q).0, NewHomes(t, h, JoinStep(t, q).0))
  {
    var u := JoinStep(t, q).0;
    if Joins(t, u, q) {
      JoinedInv(t, h, u, q);
    } else {
      SameTablesKeepInv(t, h, u);
    }
  }

  lemma JoinedInv(t: Tables, h: Homes, u: Tables, q: JoinRequest)
    requires Inv(t, h) && Joins(t, u, q)
    ensures Inv(u, NewHomes(t, h, u))
  {
    JoinEdges(t, h, u, q);
    JoinStaysAcyclic(t, u, q.membership);
    JoinHomes(t, h, u, q);
    JoinKeepsLinks(t, h, u, q);
    JoinKeepsCredentials(t, h, u, q);
    JoinKeepsPrimaries(t, u, q);
  }

  lemma JoinKeepsPrimaries(t: Tables, u: Tables, q: JoinRequest)
    requires PrimariesOk(t) && Joins(t, u, q)
    ensures PrimariesOk(u)
  {
    forall m | m in u.memberships && u.memberships[m].status == Active ensures HasPrimary(u, m) {
      JoinKeepsPrimary(t, u, q, m);
    }
  }

  lemma JoinHomes(t: Tables, h: Homes, u: Tables, q: JoinRequest)
    requires h.links.Keys == t.links.Keys && h.credentials.Keys == t.credentials.Keys && Joins(t, u, q)
    ensures NewHomes(t, h, u) == Homes(h.links[q.consumer := q.membership], h.credentials)
  {
  }

  lemma JoinEdges(t: Tables, h: Homes, u: Tables, q: JoinRequest)
    requires Inv(t, h) && Joins(t, u, q)
    ensures MergeEdges(u) == MergeEdges(t)[q.membership := None] && EdgesOk(u)
    ensures forall key :: key in u.events ==> u.events[key].membership in u.memberships
    ensures forall k :: k in u.credentials ==> u.credentials[k].membership in u.memberships
  {
  }

  lemma JoinKeepsCredentials(t: Tables, h: Homes, u: Tables, q: JoinRequest)
    requires EdgesOk(t) && CredentialsOk(t, h) && Joins(t, u, q) && MergeEdges(u) == MergeEdges(t)[q.membership := None]
    ensures CredentialsOk(u, Homes(h.links[q.consumer := q.membership], h.credentials))
  {
    forall k | k in u.credentials && !u.credentials[k].revoked
      ensures RootOf(MergeEdges(u), h.credentials[k], u.credentials[k].membership)
    {
      RootsAfterJoin(t, u, q.membership, h.credentials[k], t.credentials[k].membership);
    }
  }

  lemma JoinKeepsPrimary(t: Tables, u: Tables, q: JoinRequest, m: Uuid)
    requires PrimariesOk(t) && Joins(t, u, q) && IsActive(u, m)
    ensures HasPrimary(u, m)
  {
    if m == q.membership {
      assert u.links[q.consumer].primary;
    } else {
      assert HasPrimary(t, m);
      var c :| c in t.links && t.links[c].membership == m && t.links[c].primary;
      assert u.links[c] == t.links[c];
    }
  }

  lemma JoinKeepsLinks(t: Tables, h: Homes, u: Tables, q: JoinRequest)
    requires EdgesOk(t) && LinksOk(t, h) && Joins(t, u, q)
    ensures LinksOk(u, Homes(h.links[q.consumer := q.membership], h.credentials))
  {
    forall c | c in u.links
      ensures RootOf(MergeEdges(u), h.links[q.consumer := q.membership][c], u.links[c].membership)
    {
      JoinKeepsRoot(t, h, u, q, c);
    }
    JoinKeepsPrimariesApart(t, h, u, q);
  }

  /** No link names the new membership yet, so its first one is its only primary. */
  lemma JoinKeepsPrimariesApart(t: Tables, h: Homes, u: Tables, q: JoinRequest)
    requires EdgesOk(t) && LinksOk(t, h) && Joins(t, u, q)
    ensures forall c, d :: c in u.links && d in u.links && BothPrimary(u.links[c], u.links[d]) ==> c == d
  {
    forall c | c in t.links ensures t.links[c].membership in t.memberships {
      RootIsActive(t, h.links[c], t.links[c].membership);
    }
  }

  lemma JoinKeepsRoot(t: Tables, h: Homes, u: Tables, q: JoinRequest, c: Uuid)
    requires EdgesOk(t) && LinksOk(t, h) && Joins(t, u, q) && c in u.links
    ensures RootOf(MergeEdges(u), h.links[q.consumer := q.membership][c], u.links[c].membership)
  {
    assert MergeEdges(u) == MergeEdges(t)[q.membership := None];
    if c == q.consumer {
      assert Hop(MergeEdges(u), q.membership, 0) == Some(q.membership);
    } else {
      RootsAfterJoin(t, u, q.membership, h.links[c], t.links[c].membership);
    }
  }

  lemma BindKeepsInv(t: Tables, h: Homes, q: BindRequest)
    requires Inv(t, h)
    ensures Inv(BindStep(t, q).0, NewHomes(t, h, BindStep(t, q).0))
  {
    var u := BindStep(t, q).0;
    if u == t {
      SameTablesKeepInv(t, h, u);
    } else {
      var g := NewHomes(t, h, u);
      assert MergeEdges(u) == MergeEdges(t) && g.links == h.links;
      assert g.credentials == h.credentials[q.credential := q.membership];
      ActiveIsItsOwnRoot(t, q.membership);
      PrimariesFrame(t, u);
      BindKeepsCredentials(t, h, u, q);
    }
  }

  lemma BindKeepsCredentials(t: Tables, h: Homes, u: Tables, q: BindRequest)
    requires CredentialsOk(t, h) && RootOf(MergeEdges(t), q.membership, q.membership) && MergeEdges(u) == MergeEdges(t)
    requires ActiveSubject(t, q.subject).None? && q.credential !in t.credentials
    requires u.credentials == t.credentials[q.credential := Credential(q.membership, q.subject, q.envelope, false)]
    ensures CredentialsOk(u, Homes(h.links, h.credentials[q.credential := q.membership]))
  {
  }

  ghost predicate Recovers(t: Tables, u: Tables, q: RecoverRequest) {
    && IsActive(t, q.membership) && u.memberships == t.memberships && u.credentials == t.credentials
    && (u.links == t.links
          || (q.consumer !in t.links && u.links == t.links[q.consumer := Link(q.link, q.membership, false)]))
    && u.events == t.events[q.key := Event(q.event, q.membership, Recovered, q.hash)]
  }

  lemma RecoverKeepsInv(t: Tables, h: Homes, q: RecoverRequest)
    requires Inv(t, h)
    ensures Inv(RecoverStep(t, q).0, NewHomes(t, h, RecoverStep(t, q).0))
  {
    var u := RecoverStep(t, q).0;
    if u == t {
      SameTablesKeepInv(t, h, u);
    } else {
      RecoveredInv(t, h, u, q);
    }
  }

  lemma RecoveredInv(t: Tables, h: Homes, u: Tables, q: RecoverRequest)
    requires Inv(t, h) && Recovers(t, u, q)
    ensures Inv(u, NewHomes(t, h, u))
  {
    var g := NewHomes(t, h, u);
    assert MergeEdges(u) == MergeEdges(t) && g.credentials == h.credentials;
    assert g.links == if u.links == t.links then h.links else h.links[q.consumer := q.membership];
    RecoverKeepsLinks(t, h, u, q);
    RecoverKeepsPrimaries(t, u, q);
  }

  lemma RecoverKeepsLinks(t: Tables, h: Homes, u: Tables, q: RecoverRequest)
    requires EdgesOk(t) && LinksOk(t, h) && Recovers(t, u, q)
    ensures LinksOk(u,
        Homes(if u.links == t.links then h.links else h.links[q.consumer := q.membership], h.credentials))
  {
    assert MergeEdges(u) == MergeEdges(t);
    ActiveIsItsOwnRoot(t, q.membership);
  }

  lemma RecoverKeepsPrimaries(t: Tables, u: Tables, q: RecoverRequest)
    requires PrimariesOk(t) && Recovers(t, u, q)
    ensures PrimariesOk(u)
  {
    forall m | m in u.memberships && u.memberships[m].status == Active ensures HasPrimary(u, m) {
      assert HasPrimary(t, m);
      var c :| c in t.links && t.links[c].membership == m && t.links[c].primary;
      assert u.links[c] == t.links[c];
    }
  }

  ghost predicate Merges(t: Tables, u: Tables, q: MergeRequest) {
    && ValidMerge(q) && TwoProofs(t, q)
    && q.sourceKey !in t.events && q.targetKey !in t.events
    && |q.entries| == |LiveCredentials(t.credentials, q.source)|
    && Reencrypt(t.credentials, q.source, q.target, q.entries) == Some(u.credentials)
    && u == AfterMerge(t, q, u.credentials)
  }

  lemma MergeKeepsInv(t: Tables, h: Homes, q: MergeRequest)
    requires Inv(t, h)
    ensures Inv(MergeStep(t, q).0, NewHomes(t, h, MergeStep(t, q).0))
  {
    var u := MergeStep(t, q).0;
    if u == t {
      SameTablesKeepInv(t, h, u);
    } else {
      MergedInv(t, h, u, q);
    }
  }

  lemma MergedInv(t: Tables, h: Homes, u: Tables, q: MergeRequest)
    requires Inv(t, h) && Merges(t, u, q)
    ensures Inv(u, NewHomes(t, h, u))
  {
    ReencryptedEach(t.credentials, q.source, q.target, q.entries, u.credentials);
    MergeKeepsHomes(t, h, u, q);
    MergedEdges(t, u, q);
    MergeStaysAcyclic(t, u, q.source, q.target);
    forall k | k in u.credentials ensures u.credentials[k].membership in u.memberships {
      MergedCredential(t, u, q, k);
    }
    MergeKeepsLinks(t, h, u, q);
    MergeKeepsCredentials(t, h, u, q);
    MergeKeepsPrimaries(t, u, q);
  }

  lemma MergedEdges(t: Tables, u: Tables, q: MergeRequest)
    requires EdgesOk(t) && Merges(t, u, q)
    requires forall key :: key in t.events ==> t.events[key].membership in t.memberships
    ensures MergeEdges(u) == MergeEdges(t)[q.source := Some(q.target)] && EdgesOk(u)
    ensures forall key :: key in u.events ==> u.events[key].membership in u.memberships
  {
  }

  lemma MergeKeepsHomes(t: Tables, h: Homes, u: Tables, q: MergeRequest)
    requires Merges(t, u, q) && u.credentials.Keys == t.credentials.Keys
    ensures NewHomes(t, h, u) == h
  {
    SameHomes(t, h, u);
  }

  lemma MergeKeepsLinks(t: Tables, h: Homes, u: Tables, q: MergeRequest)
    requires EdgesOk(t) && LinksOk(t, h) && Merges(t, u, q)
        && MergeEdges(u) == MergeEdges(t)[q.source := Some(q.target)]
    ensures LinksOk(u, h)
  {
    forall c | c in u.links ensures RootOf(MergeEdges(u), h.links[c], u.links[c].membership) {
      RootsAfterMerge(t, u, q.source, q.target, h.links[c], t.links[c].membership);
    }
    MergePrimariesStay(t, u, q);
  }

  lemma MergePrimariesStay(t: Tables, u: Tables, q: MergeRequest)
    requires Merges(t, u, q)
    ensures u.links.Keys == t.links.Keys
    ensures forall c :: c in u.links && u.links[c].primary ==> u.links[c] == t.links[c]
  {
  }

  lemma MergeKeepsCredentials(t: Tables, h: Homes, u: Tables, q: MergeRequest)
    requires EdgesOk(t) && CredentialsOk(t, h) && Merges(t, u, q)
    requires MergeEdges(u) == MergeEdges(t)[q.source := Some(q.target)]
    requires u.credentials.Keys == t.credentials.Keys
    ensures CredentialsOk(u, h)
  {
    forall k | k in t.credentials
      ensures u.credentials[k].subject == t.credentials[k].subject
          && u.credentials[k].revoked == t.credentials[k].revoked
      ensures !t.credentials[k].revoked ==>
                u.credentials[k].membership == if t.credentials[k].membership == q.source then q.target
                    else t.credentials[k].membership
    {
      MergedCredential(t, u, q, k);
    }
    forall k | k in u.credentials && !u.credentials[k].revoked
      ensures RootOf(MergeEdges(u), h.credentials[k], u.credentials[k].membership)
    {
      RootsAfterMerge(t, u, q.source, q.target, h.credentials[k], t.credentials[k].membership);
    }
  }

  lemma MergedCredential(t: Tables, u: Tables, q: MergeRequest, k: Uuid)
    requires Merges(t, u, q) && k in t.credentials
    ensures k in u.credentials
    ensures u.credentials[k].subject == t.credentials[k].subject && u.credentials[k].revoked == t.credentials[k].revoked
    ensures u.credentials[k].membership
            == if LiveAt(t.credentials, k, q.source) then q.target else t.credentials[k].membership
  {
    LoopIsBijection(t.credentials, q.source, q.target, q.entries, u.credentials);
    if k in LiveCredentials(t.credentials, q.source) {
      NamedMovedOnce(t.credentials, q.source, q.target, q.entries, u.credentials, k);
    }
  }

  lemma MergeKeepsPrimaries(t: Tables, u: Tables, q: MergeRequest)
    requires PrimariesOk(t) && Merges(t, u, q)
    ensures PrimariesOk(u)
  {
    forall m | m in u.memberships && u.memberships[m].status == Active ensures HasPrimary(u, m) {
      assert m != q.source && IsActive(t, m) && HasPrimary(t, m);
      var c :| c in t.links && t.links[c].membership == m && t.links[c].primary;
      assert u.links[c] == t.links[c];
    }
  }

  lemma RevokeKeepsInv(t: Tables, h: Homes, k: Uuid)
    requires Inv(t, h)
    ensures Inv(Revoked(t, k), NewHomes(t, h, Revoked(t, k)))
  {
    var u := Revoked(t, k);
    SameHomes(t, h, u);
    LinksFrame(t, h, u);
    PrimariesFrame(t, u);
    RevokeKeepsCredentials(t, h, k);
  }

  lemma SameHomes(t: Tables, h: Homes, u: Tables)
    requires u.links.Keys == t.links.Keys && u.credentials.Keys == t.credentials.Keys
    ensures NewHomes(t, h, u) == h
  {
  }

  lemma LinksFrame(t: Tables, h: Homes, u: Tables)
    requires LinksOk(t, h) && u.memberships == t.memberships && u.links == t.links
    ensures LinksOk(u, h) && MergeEdges(u) == MergeEdges(t)
  {
  }

  lemma RevokeKeepsCredentials(t: Tables, h: Homes, k: Uuid)
    requires CredentialsOk(t, h)
    ensures CredentialsOk(Revoked(t, k), h)
  {
    assert MergeEdges(Revoked(t, k)) == MergeEdges(t);
  }

  lemma StepKeepsInv(t: Tables, h: Homes, step: Step)
    requires Inv(t, h)
    ensures Inv(After(t, step), NewHomes(t, h, After(t, step)))
  {
    match step
    case JoinWith(q) => JoinKeepsInv(t, h, q);
    case BindWith(q) => BindKeepsInv(t, h, q);
    case RecoverWith(q) => RecoverKeepsInv(t, h, q);
    case MergeWith(q) => MergeKeepsInv(t, h, q);
    case RevokeCredential(k) => RevokeKeepsInv(t, h, k);
    case AddConsumer(c) => SameTablesKeepInv(t, h, After(t, step));
    case SetConsent(id, consent) => SameTablesKeepInv(t, h, After(t, step));
  }

  lemma {:induction false} RunsKeepInv(t: Tables, h: Homes, steps: seq<Step>)
    requires Inv(t, h)
    ensures Inv(Runs(t, h, steps).0, Runs(t, h, steps).1)
    ensures Evolves(t, Runs(t, h, steps).0)
    decreases |steps|
  {
    if steps != [] {
      var u := After(t, steps[0]);
      var g := NewHomes(t, h, u);
      StepKeepsInv(t, h, steps[0]);
      StepEvolves(t, h, steps[0]);
      RunsKeepInv(u, g, steps[1..]);
      EvolvesTransitive(t, h, u, Runs(u, g, steps[1..]).0);
    }
  }

  // ---------------------------------------------------------------------------
  // What never goes back

  ghost predicate Evolves(t: Tables, u: Tables) {
    && (forall key :: key in t.events ==> key in u.events && u.events[key] == t.events[key])
    && (forall m :: m in t.memberships ==>
          m in u.memberships && (t.memberships[m].status == Merged ==> u.memberships[m] == t.memberships[m]))
    && (forall c :: c in t.links ==>
          c in u.links && (IsActive(u, t.links[c].membership) ==> u.links[c] == t.links[c]))
    && (forall k ::
          k in t.credentials ==> k in u.credentials && CredentialEvolves(u, t.credentials[k], u.credentials[k]))
  }

  /** A credential keeps its subject, stays revoked, and stays with its membership while
      that is active. */
  predicate CredentialEvolves(u: Tables, before: Credential, after: Credential) {
    && after.subject == before.subject && (before.revoked ==> after.revoked)
    && (IsActive(u, before.membership) ==> after.membership == before.membership)
  }

  lemma EvolvesTransitive(t: Tables, h: Homes, u: Tables, v: Tables)
    requires Inv(t, h) && Evolves(t, u) && Evolves(u, v)
    ensures Evolves(t, v)
  {
    forall m | m in t.memberships && IsActive(v, m) ensures IsActive(u, m) {}
    forall c | c in t.links ensures c in v.links && (IsActive(v, t.links[c].membership) ==> v.links[c] == t.links[c]) {
      RootIsActive(t, h.links[c], t.links[c].membership);
    }
    forall k | k in t.credentials
      ensures k in v.credentials && CredentialEvolves(v, t.credentials[k], v.credentials[k])
    {
      assert k in u.credentials && CredentialEvolves(u, t.credentials[k], u.credentials[k]);
      assert CredentialEvolves(v, u.credentials[k], v.credentials[k]);
    }
  }

  lemma StepEvolves(t: Tables, h: Homes, step: Step)
    requires Inv(t, h)
    ensures Evolves(t, After(t, step))
  {
    match step
    case JoinWith(q) => JoinEvolves(t, h, q);
    case BindWith(q) => BindEvolves(t, q);
    case RecoverWith(q) => RecoverEvolves(t, q);
    case MergeWith(q) => MergeEvolves(t, h, q);
    case RevokeCredential(k) => RevokeEvolves(t, k);
    case AddConsumer(c) => SameEvolves(t, After(t, step));
    case SetConsent(id, consent) => SameEvolves(t, After(t, step));
  }

  lemma SameEvolves(t: Tables, u: Tables)
    requires u.memberships == t.memberships && u.links == t.links && u.credentials == t.credentials
        && u.events == t.events
    ensures Evolves(t, u)
  {
  }

  lemma RevokeEvolves(t: Tables, k: Uuid)
    ensures Evolves(t, Revoked(t, k))
  {
  }

  lemma JoinEvolves(t: Tables, h: Homes, q: JoinRequest)
    requires Inv(t, h)
    ensures Evolves(t, JoinStep(t, q).0)
  {
    var u := JoinStep(t, q).0;
    if JoinStep(t, q).1 == Done(q.membership, Some(q.consumer), false) {
      JoinedEvolves(t, u, q);
    } else {
      SameEvolves(t, u);
    }
  }

  lemma JoinedEvolves(t: Tables, u: Tables, q: JoinRequest)
    requires Joins(t, u, q) && q.key !in t.events
    ensures Evolves(t, u)
  {
  }

  lemma BindEvolves(t: Tables, q: BindRequest)
    ensures Evolves(t, BindStep(t, q).0)
  {
  }

  lemma RecoverEvolves(t: Tables, q: RecoverRequest)
    ensures Evolves(t, RecoverStep(t, q).0)
  {
  }

  lemma MergeEvolves(t: Tables, h: Homes, q: MergeRequest)
    requires Inv(t, h)
    ensures Evolves(t, MergeStep(t, q).0)
  {
    var u := MergeStep(t, q).0;
    if u != t {
      ReencryptedEach(t.credentials, q.source, q.target, q.entries, u.credentials);
      forall k | k in t.credentials
        ensures k in u.credentials && CredentialEvolves(u, t.credentials[k], u.credentials[k])
      {
        MergedCredential(t, u, q, k);
      }
    }
  }

  // ---------------------------------------------------------------------------
  // Union-find, over every run from empty tables

  lemma EmptyKeepsInv()
    ensures Inv(EMPTY, NO_HOMES)
  {
    forall n: Uuid, k: nat ensures !CycleAt(MergeEdges(EMPTY), n, k) {}
  }

  /** The merge edges form a forest, and every chain in it ends in one membership,
      an active one. */
  lemma ChainsEndActive(steps: seq<Step>, m: Uuid)
    requires m in Runs(EMPTY, NO_HOMES, steps).0.memberships
    ensures var t := Runs(EMPTY, NO_HOMES, steps).0;
            && Acyclic(MergeEdges(t))
            && exists r :: RootOf(MergeEdges(t), m, r) && IsActive(t, r)
                           && forall s :: RootOf(MergeEdges(t), m, s) ==> s == r
  {
    EmptyKeepsInv();
    RunsKeepInv(EMPTY, NO_HOMES, steps);
    var t := Runs(EMPTY, NO_HOMES, steps).0;
    var r := ChainEnd(MergeEdges(t), m);
    RootIsActive(t, m, r);
    forall s | RootOf(MergeEdges(t), m, s) ensures s == r {
      RootIsUnique(MergeEdges(t), m, r, s);
    }
  }

  lemma ChainEnd(f: Forest, m: Uuid) returns (r: Uuid)
    requires Acyclic(f) && m in f
    ensures RootOf(f, m, r)
  {
    var k := AcyclicHasRoot(f, m);
    r := Hop(f, m, k).value;
    HopAdd(f, m, k, 1);
    HopPrefix(f, m, k, k);
    assert Hop(f, r, 1).None?;
  }

  /** Each profile link and each live credential sits at the root of the membership it
      was first attached to. */
  lemma AttachedAtRoot(steps: seq<Step>)
    ensures var (t, h) := Runs(EMPTY, NO_HOMES, steps);
            && h.links.Keys == t.links.Keys && h.credentials.Keys == t.credentials.Keys
            && (forall c :: c in t.links ==> RootOf(MergeEdges(t), h.links[c], t.links[c].membership))
            && (forall k :: k in t.credentials && !t.credentials[k].revoked ==>
                  RootOf(MergeEdges(t), h.credentials[k], t.credentials[k].membership))
  {
    EmptyKeepsInv();
    RunsKeepInv(EMPTY, NO_HOMES, steps);
  }

  /** A merged membership holds no link and no live credential; an active one has
      exactly one primary link; a subject has at most one live credential. */
  lemma OnlyActiveMembershipsHold(steps: seq<Step>, m: Uuid)
    requires m in Runs(EMPTY, NO_HOMES, steps).0.memberships
    ensures var t := Runs(EMPTY, NO_HOMES, steps).0;
            && (t.memberships[m].status == Merged ==>
                  (forall c :: c in t.links ==> t.links[c].membership != m) && LiveCredentials(t.credentials, m) == {})
            && (t.memberships[m].status == Active ==>
                  exists c :: c in t.links && t.links[c].membership == m && t.links[c].primary
                              && forall d ::
                                  d in t.links && t.links[d].membership == m && t.links[d].primary ==> d == c)
            && (forall j, k ::
                  j in t.credentials && k in t.credentials && BothLive(t.credentials[j], t.credentials[k]) ==> j == k)
  {
    EmptyKeepsInv();
    RunsKeepInv(EMPTY, NO_HOMES, steps);
    var (t, h) := Runs(EMPTY, NO_HOMES, steps);
    forall c | c in t.links ensures IsActive(t, t.links[c].membership) {
      RootIsActive(t, h.links[c], t.links[c].membership);
    }
    forall k | k in t.credentials && !t.credentials[k].revoked ensures IsActive(t, t.credentials[k].membership) {
      RootIsActive(t, h.credentials[k], t.credentials[k].membership);
    }
    if t.memberships[m].status == Merged {
      forall k ensures k !in LiveCredentials(t.credentials, m) {}
    } else {
      assert HasPrimary(t, m);
      var c :| c in t.links && t.links[c].membership == m && t.links[c].primary;
      forall d | d in t.links && t.links[d].membership == m && t.links[d].primary ensures d == c {
        assert BothPrimary(t.links[c], t.links[d]);
      }
    }
  }

  // ---------------------------------------------------------------------------
  // When a merge goes through, and what it moves

  /** For unused keys and events, a merge between two proofs is accepted exactly when
      its entries name each live credential of the source once with an acceptable
      envelope; the cycle check has no part in it. */
  lemma MergeAcceptedIff(t: Tables, h: Homes, q: MergeRequest)
    requires Inv(t, h) && ValidMerge(q) && q.sourceKey !in t.events && q.targetKey !in t.events
    requires FreshEvent(t, q.sourceEvent) && FreshEvent(t, q.targetEvent) && q.sourceEvent != q.targetEvent
    ensures MergeStep(t, q).1 == Done(q.target, Some(q.consumer), false)
            <==> && TwoProofs(t, q) && |q.entries| == |LiveCredentials(t.credentials, q.source)|
                 && NamesEach(t.credentials, q.source, q.entries)
    ensures MergeStep(t, q).1 != Refused(CycleDenied)
  {
    if TwoProofs(t, q) {
      CycleCheckNeverFires(t, q.target, q.source);
      ReencryptsIffNamesEach(t.credentials, q.source, q.target, q.entries);
      assert q.sourceCredential in LiveCredentials(t.credentials, q.source);
    }
  }

  /** An accepted merge hands over everything: all links, none of them primary any more,
      and all live credentials, each under the envelope of the one entry naming it. */
  lemma MergeHandsOverEverything(t: Tables, h: Homes, q: MergeRequest)
    requires Inv(t, h) && MergeStep(t, q).1 == Done(q.target, Some(q.consumer), false)
    ensures var u := MergeStep(t, q).0;
            && u.memberships[q.source].status == Merged && u.memberships[q.source].mergedInto == Some(q.target)
            && (forall c :: c in t.links && t.links[c].membership == q.source ==>
                  c in u.links && u.links[c] == Link(t.links[c].id, q.target, false))
            && (forall c ::
                  c in t.links && t.links[c].membership != q.source ==> c in u.links && u.links[c] == t.links[c])
            && LiveCredentials(u.credentials, q.source) == {}
            && LiveCredentials(u.credentials, q.target)
               == LiveCredentials(t.credentials, q.target) + LiveCredentials(t.credentials, q.source)
            && (forall k :: k in LiveCredentials(t.credentials, q.source) ==> MovedOnce(u.credentials, q.entries, k))
  {
    LoopIsBijection(t.credentials, q.source, q.target, q.entries, MergeStep(t, q).0.credentials);
  }

  // ---------------------------------------------------------------------------
  // Sending a request again

  /** A merge that once succeeded answers the same at any later point. */
  lemma MergeReplays(t: Tables, h: Homes, q: MergeRequest, steps: seq<Step>)
    requires Inv(t, h) && MergeStep(t, q).1.Done?
    ensures var u := MergeStep(t, q).0;
            var v := Runs(u, NewHomes(t, h, u), steps).0;
            MergeStep(v, q) == (v, Done(q.target, Some(q.consumer), true))
  {
    var u := MergeStep(t, q).0;
    MergeKeepsInv(t, h, q);
    RunsKeepInv(u, NewHomes(t, h, u), steps);
    MergeLeavesReceipt(t, q);
    ReceiptAnswers(u, Runs(u, NewHomes(t, h, u), steps).0, q);
  }

  lemma MergeLeavesReceipt(t: Tables, q: MergeRequest)
    requires MergeStep(t, q).1.Done?
    ensures ValidMerge(q) && MergeReceipt(MergeStep(t, q).0, q)
  {
  }

  lemma ReceiptAnswers(u: Tables, v: Tables, q: MergeRequest)
    requires ValidMerge(q) && MergeReceipt(u, q) && Evolves(u, v)
    ensures MergeStep(v, q) == (v, Done(q.target, Some(q.consumer), true))
  {
    assert MergeReceipt(v, q);
  }

  /** So does a recovery. */
  lemma RecoverReplays(t: Tables, h: Homes, q: RecoverRequest, steps: seq<Step>)
    requires Inv(t, h) && RecoverStep(t, q).1.Done?
    ensures var u := RecoverStep(t, q).0;
            var v := Runs(u, NewHomes(t, h, u), steps).0;
            RecoverStep(v, q) == (v, Done(q.membership, Some(q.consumer), true))
  {
    var u := RecoverStep(t, q).0;
    RecoverKeepsInv(t, h, q);
    RecoveryLeavesRecord(t, q);
    RunsKeepInv(u, NewHomes(t, h, u), steps);
    RecordedRecoveryAnswers(Runs(u, NewHomes(t, h, u), steps).0, q);
  }

  predicate RecoveryRecorded(t: Tables, q: RecoverRequest) {
    && q.wellFormed && q.key in t.events
    && t.events[q.key].kind == Recovered && t.events[q.key].membership == q.membership && t.events[q.key].hash == q.hash
  }

  lemma RecoveryLeavesRecord(t: Tables, q: RecoverRequest)
    requires RecoverStep(t, q).1.Done?
    ensures RecoveryRecorded(RecoverStep(t, q).0, q)
  {
  }

  lemma RecordedRecoveryAnswers(v: Tables, q: RecoverRequest)
    requires RecoveryRecorded(v, q)
    ensures RecoverStep(v, q) == (v, Done(q.membership, Some(q.consumer), true))
  {
  }

  /** What a join that created a membership leaves on record. */
  lemma JoinLeavesRecord(t: Tables, q: JoinRequest)
    requires JoinStep(t, q).1 == Done(q.membership, Some(q.consumer), false)
    ensures var u := JoinStep(t, q).0;
            && q.wellFormed && q.membership in u.memberships
            && q.key in u.events && u.events[q.key] == Event(q.event, q.membership, Joined, q.hash)
            && q.consumer in u.links && u.links[q.consumer] == Link(q.link, q.membership, true)
  {
  }

  /** The answer while that record is there. */
  lemma RecordedJoinAnswers(v: Tables, k: Homes, q: JoinRequest)
    requires Inv(v, k) && q.wellFormed && q.membership in v.memberships && q.consumer in v.links
    requires q.key in v.events && v.events[q.key] == Event(q.event, q.membership, Joined, q.hash)
    requires IsActive(v, q.membership) ==> v.links[q.consumer] == Link(q.link, q.membership, true)
    ensures JoinStep(v, q) == (v, if IsActive(v, q.membership) then Done(q.membership, Some(q.consumer), true)
                                  else Refused(ReceiptIncomplete))
  {
    PrimaryAfter(v, k, q.membership, q.consumer);
  }

  /** A join that created a membership can be sent again for as long as that membership
      is active, with the same answer. Once it has been merged its primary link is
      gone, and the request that succeeded is refused. */
  lemma JoinReplaysIffActive(t: Tables, h: Homes, q: JoinRequest, steps: seq<Step>)
    requires Inv(t, h) && JoinStep(t, q).1 == Done(q.membership, Some(q.consumer), false)
    ensures var u := JoinStep(t, q).0;
            var v := Runs(u, NewHomes(t, h, u), steps).0;
            && q.membership in v.memberships
            && JoinStep(v, q) == (v, if IsActive(v, q.membership) then Done(q.membership, Some(q.consumer), true)
                                     else Refused(ReceiptIncomplete))
  {
    var u := JoinStep(t, q).0;
    var g := NewHomes(t, h, u);
    JoinKeepsInv(t, h, q);
    JoinLeavesRecord(t, q);
    RunsKeepInv(u, g, steps);
    var (v, k) := Runs(u, g, steps);
    RecordedJoinAnswers(v, k, q);
  }

  /** The primary consumer of a membership: the one linked as such while it is active,
      nobody once it is merged. */
  lemma PrimaryAfter(v: Tables, k: Homes, m: Uuid, c: Uuid)
    requires Inv(v, k) && m in v.memberships
    requires c in v.links && (IsActive(v, m) ==> v.links[c].membership == m && v.links[c].primary)
    ensures PrimaryConsumer(v, m) == if IsActive(v, m) then Some(c) else None
  {
    if IsActive(v, m) {
      var d := PrimaryConsumer(v, m).value;
      assert BothPrimary(v.links[c], v.links[d]);
    } else {
      forall d | d in v.links ensures v.links[d].membership != m {
        RootIsActive(v, k.links[d], v.links[d].membership);
      }
    }
  }

  /** A bound identity can be sent again as long as the credential is live and its
      membership active; after a merge the request that succeeded is refused. */
  lemma BindReplaysIffActive(t: Tables, h: Homes, q: BindRequest, steps: seq<Step>)
    requires Inv(t, h) && BindStep(t, q).1 == Done(q.credential, None, false)
    ensures var u := BindStep(t, q).0;
            var v := Runs(u, NewHomes(t, h, u), steps).0;
            && q.credential in v.credentials
            && (!v.credentials[q.credential].revoked ==>
                  BindStep(v, q) == (v, if IsActive(v, q.membership) then Done(q.credential, None, true)
                                        else Refused(ReceiptIncomplete)))
  {
    var u := BindStep(t, q).0;
    var g := NewHomes(t, h, u);
    BindLeavesCredential(t, q);
    BindKeepsInv(t, h, q);
    RunsKeepInv(u, g, steps);
    BoundLater(u, Runs(u, g, steps).0, Runs(u, g, steps).1, q);
  }

  lemma BindLeavesCredential(t: Tables, q: BindRequest)
    requires BindStep(t, q).1 == Done(q.credential, None, false)
    ensures var u := BindStep(t, q).0;
            && q.wellFormed && q.key in u.events
                && u.events[q.key] == Event(q.event, q.membership, IdentityBound, q.hash)
            && q.credential in u.credentials
            && u.credentials[q.credential] == Credential(q.membership, q.subject, q.envelope, false)
  {
  }

  lemma BoundLater(u: Tables, v: Tables, k: Homes, q: BindRequest)
    requires Evolves(u, v) && Inv(v, k) && q.wellFormed
    requires q.key in u.events && u.events[q.key] == Event(q.event, q.membership, IdentityBound, q.hash)
    requires q.credential in u.credentials
        && u.credentials[q.credential] == Credential(q.membership, q.subject, q.envelope, false)
    ensures q.credential in v.credentials
    ensures !v.credentials[q.credential].revoked ==>
              BindStep(v, q) == (v, if IsActive(v, q.membership) then Done(q.credential, None, true)
                  else Refused(ReceiptIncomplete))
  {
    assert CredentialEvolves(v, u.credentials[q.credential], v.credentials[q.credential]);
    BoundSubject(v, k, q, q.credential);
  }

  lemma BoundSubject(v: Tables, k: Homes, q: BindRequest, c: Uuid)
    requires Inv(v, k) && q.wellFormed && q.key in v.events
    requires v.events[q.key] == Event(q.event, q.membership, IdentityBound, q.hash)
    requires c in v.credentials && v.credentials[c].subject == q.subject
    requires IsActive(v, q.membership) ==> v.credentials[c].membership == q.membership
    ensures !v.credentials[c].revoked ==>
              BindStep(v, q)
                  == (v, if IsActive(v, q.membership) then Done(c, None, true) else Refused(ReceiptIncomplete))
  {
    if !v.credentials[c].revoked {
      var d := ActiveSubject(v, q.subject).value;
      assert BothLive(v.credentials[c], v.credentials[d]);
      RootIsActive(v, k.credentials[c], v.credentials[c].membership);
    }
  }
}
