/** The membership authority functions as they run: statement by statement against the
    tables, the merge with its checked credential loop, and everything undone when a
    request is refused. */
module MembershipTables {
  import opened Sql
  import opened Forest
  import opened MembershipAuthority
  import opened MembershipRuns

  /** The partial unique indexes: one primary link a membership, one live credential a
      subject. */
  ghost predicate UniqueIndexes(t: Tables) {
    && (forall c, d :: c in t.links && d in t.links && BothPrimary(t.links[c], t.links[d]) ==> c == d)
    && (forall j, k ::
          j in t.credentials && k in t.credentials && BothLive(t.credentials[j], t.credentials[k]) ==> j == k)
  }

  class Store {
    var memberships: map<Uuid, Membership>
    var links: map<Uuid, Link>
    var credentials: map<Uuid, Credential>
    var events: map<string, Event>
    var consumers: set<Uuid>
    var consents: map<Uuid, Consent>

    constructor ()
      ensures Contents() == EMPTY
    {
      memberships, links, credentials, events, consumers, consents := map[], map[], map[], map[], {}, map[];
    }

    function Contents(): (t: MembershipAuthority.Tables)
      reads this
    {
      MembershipAuthority.Tables(memberships, links, credentials, events, consumers, consents)
    }

    method FindPrimary(m: Uuid) returns (consumer: Option<Uuid>)
      requires UniqueIndexes(Contents())
      ensures consumer == PrimaryConsumer(Contents(), m)
    {
      var left := links.Keys;
      while left != {}
        invariant left <= links.Keys
        invariant forall c :: c in links.Keys - left ==> !(links[c].membership == m && links[c].primary)
        decreases |left|
      {
        if forall c :: c !in left {
          assert false;
        }
        var c :| c in left;
        if links[c].membership == m && links[c].primary {
          assert BothPrimary(links[c], links[PrimaryConsumer(Contents(), m).value]);
          return Some(c);
        }
        left := left - {c};
      }
      consumer := None;
    }

    method FindSubject(subject: Subject) returns (credential: Option<Uuid>)
      requires UniqueIndexes(Contents())
      ensures credential == ActiveSubject(Contents(), subject)
    {
      var left := credentials.Keys;
      while left != {}
        invariant left <= credentials.Keys
        invariant forall k ::
            k in credentials.Keys - left ==> credentials[k].revoked || credentials[k].subject != subject
        decreases |left|
      {
        if forall k :: k !in left {
          assert false;
        }
        var k :| k in left;
        if !credentials[k].revoked && credentials[k].subject == subject {
          assert BothLive(credentials[k], credentials[ActiveSubject(Contents(), subject).value]);
          return Some(k);
        }
        left := left - {k};
      }
      credential := None;
    }

    method Join(q: JoinRequest) returns (outcome: Outcome)
      requires UniqueIndexes(Contents())
      modifies this
      ensures (Contents(), outcome) == JoinStep(old(Contents()), q)
    {
      if !q.wellFormed { return Refused(InvalidRequest); }
      if q.key in events {
        var e := events[q.key];
        if e.kind != Joined || e.hash != q.hash { return Refused(IdempotencyConflict); }
        var consumer := FindPrimary(e.membership);
        if e.membership !in memberships || consumer.None? { return Refused(ReceiptIncomplete); }
        return Done(e.membership, consumer, true);
      }
      if q.consent !in consents || !consents[q.consent].granted
         || (consents[q.consent].consumer.Some? && consents[q.consent].consumer != Some(q.consumer)) {
        return Refused(ConsentDenied);
      }
      var wasConsumers := consumers;
      if q.consumer !in consumers {
        if q.existingConsumer || consents[q.consent].consumer.Some? { return Refused(ConsumerMissing); }
      }
      consumers := consumers + {q.consumer};
      if q.consumer in links && IsActive(Contents(), links[q.consumer].membership) {
        return Done(links[q.consumer].membership, Some(q.consumer), true);
      }
      if q.membership in memberships || !FreshNumber(Contents(), q.number) || q.consumer in links
         || !FreshLink(Contents(), q.link) || !FreshEvent(Contents(), q.event) {
        consumers := wasConsumers;
        return Refused(ConstraintViolated);
      }
      memberships := memberships[q.membership := Membership(q.number, Active, None)];
      links := links[q.consumer := Link(q.link, q.membership, true)];
      events := events[q.key := Event(q.event, q.membership, Joined, q.hash)];
      if consents[q.consent].consumer.None? {
        consents := consents[q.consent := consents[q.consent].(consumer := Some(q.consumer))];
      }
      assert consents == old(consents)[q.consent := old(consents)[q.consent].(consumer := Some(q.consumer))];
      return Done(q.membership, Some(q.consumer), false);
    }

    method Bind(q: BindRequest) returns (outcome: Outcome)
      requires UniqueIndexes(Contents())
      modifies this`credentials, this`events
      ensures (Contents(), outcome) == BindStep(old(Contents()), q)
    {
      if !q.wellFormed { return Refused(InvalidRequest); }
      if q.key in events {
        var e := events[q.key];
        if e.kind != IdentityBound || e.membership != q.membership || e.hash != q.hash {
          return Refused(IdempotencyConflict);
        }
        var bound := FindSubject(q.subject);
        if bound.None? || credentials[bound.value].membership != q.membership { return Refused(ReceiptIncomplete); }
        return Done(bound.value, None, true);
      }
      if !IsActive(Contents(), q.membership) { return Refused(MembershipMissing); }
      var existing := FindSubject(q.subject);
      if existing.Some? {
        if credentials[existing.value].membership != q.membership { return Refused(IdentityTaken); }
        return Done(existing.value, None, true);
      }
      if q.credential in credentials || !FreshEvent(Contents(), q.event) { return Refused(ConstraintViolated); }
      credentials := credentials[q.credential := Credential(q.membership, q.subject, q.envelope, false)];
      events := events[q.key := Event(q.event, q.membership, IdentityBound, q.hash)];
      return Done(q.credential, None, false);
    }

    method Recover(q: RecoverRequest) returns (outcome: Outcome)
      modifies this`links, this`events
      ensures (Contents(), outcome) == RecoverStep(old(Contents()), q)
    {
      if !q.wellFormed { return Refused(InvalidRequest); }
      if q.key in events {
        var e := events[q.key];
        if e.kind != Recovered || e.membership != q.membership || e.hash != q.hash { return Refused(TokenUsed); }
        return Done(q.membership, Some(q.consumer), true);
      }
      if !IsActive(Contents(), q.membership) || !LiveAt(credentials, q.credential, q.membership)
          || q.consumer !in consumers {
        return Refused(EvidenceMissing);
      }
      var linked: Option<Uuid> := None;
      if q.consumer in links && IsActive(Contents(), links[q.consumer].membership) {
        linked := Some(links[q.consumer].membership);
      }
      if linked.Some? && linked.value != q.membership { return Refused(TwoProofsRequired); }
      if (linked.None? && (q.consumer in links || !FreshLink(Contents(), q.link))) || !FreshEvent(Contents(), q.event) {
        return Refused(ConstraintViolated);
      }
      if linked.None? {
        links := links[q.consumer := Link(q.link, q.membership, false)];
      }
      events := events[q.key := Event(q.event, q.membership, Recovered, q.hash)];
      return Done(q.membership, Some(q.consumer), false);
    }

    /** The recursive merge-chain query from `start`, looking for `wanted`. It joins rows
        without remembering which it has seen, and ends because the edges are acyclic. */
    method ChainContains(start: Uuid, wanted: Uuid) returns (found: bool)
      requires Acyclic(MergeEdges(Contents()))
      ensures found == Reaches(MergeEdges(Contents()), start, wanted)
    {
      ghost var f := MergeEdges(Contents());
      ghost var n: nat, seen: set<Uuid> := 0, {};
      var row: Option<Uuid> := if start in memberships then Some(start) else None;
      found := false;
      while row.Some?
        invariant row == Hop(f, start, n)
        invariant seen <= f.Keys
        invariant forall m :: m in seen ==> SeenWithin(f, start, m, n)
        invariant found <==> SeenWithin(f, start, wanted, n)
        decreases f.Keys - seen
      {
        HopPrefix(f, start, n, n);
        assert row.value !in seen by { AcyclicNeverRevisits(f, start, n); }
        found := found || row.value == wanted;
        seen := seen + {row.value};
        SeenGrows(f, start, n);
        HopAdd(f, start, n, 1);
        var next := memberships[row.value].mergedInto;
        row := if next.Some? && next.value in memberships then next else None;
        n := n + 1;
      }
      NothingBeyond(f, start, wanted, n);
    }

    method Merge(q: MergeRequest) returns (outcome: Outcome)
      requires Acyclic(MergeEdges(Contents()))
      modifies this
      ensures (Contents(), outcome) == MergeStep(old(Contents()), q)
    {
      if !ValidMerge(q) { return Refused(InvalidRequest); }
      var prior := 0;
      if q.sourceKey in events { prior := prior + 1; }
      if q.targetKey in events { prior := prior + 1; }
      if prior > 0 {
        if prior != 2
           || events[q.sourceKey].membership != q.source || events[q.sourceKey].kind != MergedSource
           || events[q.sourceKey].hash != q.hash
           || events[q.targetKey].membership != q.target || events[q.targetKey].kind != MergedTarget
           || events[q.targetKey].hash != q.hash {
          return Refused(TokenUsed);
        }
        return Done(q.target, Some(q.consumer), true);
      }
      if !TwoProofs(Contents(), q) { return Refused(TwoProofsRequired); }
      var cycle := ChainContains(q.target, q.source);
      if cycle { return Refused(CycleDenied); }
      if |LiveCredentials(credentials, q.source)| != |q.entries| || |q.entries| == 0 {
        return Refused(IncompleteReencryption);
      }
      var wasCredentials := credentials;
      var moved := ReencryptLoop(q.source, q.target, q.entries);
      if !moved {
        credentials := wasCredentials;
        return Refused(ReencryptionInvalid);
      }
      if !FreshEvent(Contents(), q.sourceEvent) || !FreshEvent(Contents(), q.targetEvent)
          || q.sourceEvent == q.targetEvent {
        credentials := wasCredentials;
        return Refused(ConstraintViolated);
      }
      links := Relinked(links, q.source, q.target);
      memberships := memberships[q.source := memberships[q.source].(status := Merged, mergedInto := Some(q.target))];
      events := events[q.sourceKey := Event(q.sourceEvent, q.source, MergedSource, q.hash)];
      events := events[q.targetKey := Event(q.targetEvent, q.target, MergedTarget, q.hash)];
      return Done(q.target, Some(q.consumer), false);
    }

    /** The credential loop: one update an entry, which must hit a live credential still
        at the source. */
    method ReencryptLoop(source: Uuid, target: Uuid, entries: seq<Entry>) returns (moved: bool)
      modifies this`credentials
      ensures var after := Reencrypt(old(credentials), source, target, entries);
              moved == after.Some? && (moved ==> credentials == after.value)
    {
      var i := 0;
      while i < |entries|
        invariant i <= |entries|
        invariant Reencrypt(old(credentials), source, target, entries)
            == Reencrypt(credentials, source, target, entries[i..])
      {
        var e := entries[i];
        assert entries[i..][0] == e && entries[i..][1..] == entries[i + 1..];
        if e.envelope.None? || e.names.None? || !LiveAt(credentials, e.names.value, source) { return false; }
        var k := e.names.value;
        credentials := credentials[k := credentials[k].(membership := target, envelope := e.envelope.value)];
        i := i + 1;
      }
      return true;
    }
  }

  /** `m` is among the first `n` rows of the chain. */
  ghost predicate SeenWithin(f: Forest, start: Uuid, m: Uuid, n: nat) {
    exists j: nat :: j < n && Hop(f, start, j) == Some(m)
  }

  lemma AcyclicNeverRevisits(f: Forest, start: Uuid, n: nat)
    requires Acyclic(f) && Hop(f, start, n).Some?
    ensures !SeenWithin(f, start, Hop(f, start, n).value, n)
  {
    if j: nat :| j < n && Hop(f, start, j) == Hop(f, start, n) {
      HopAdd(f, start, j, n - j);
      assert CycleAt(f, Hop(f, start, n).value, n - j);
      assert false;
    }
  }

  lemma SeenGrows(f: Forest, start: Uuid, n: nat)
    requires Hop(f, start, n).Some?
    ensures forall m :: SeenWithin(f, start, m, n + 1) <==> SeenWithin(f, start, m, n) || Hop(f, start, n) == Some(m)
  {
  }

  lemma NothingBeyond(f: Forest, start: Uuid, m: Uuid, n: nat)
    requires Hop(f, start, n).None?
    ensures Reaches(f, start, m) <==> SeenWithin(f, start, m, n)
  {
    if Reaches(f, start, m) {
      var k: nat :| Hop(f, start, k) == Some(m);
      if k >= n {
        HopPrefix(f, start, n, k);
        assert false;
      }
    }
  }
}
