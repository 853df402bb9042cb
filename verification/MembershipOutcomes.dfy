/** What each membership request asks of the tables and what it adds to them, written out
    on the rows: who may join, bind and recover, and what a used key answers. */
module MembershipOutcomes {
  import opened Sql
  import opened MembershipAuthority
  import opened MembershipLaws
  import opened MembershipRuns

  predicate EventUnused(t: Tables, event: Uuid) {
    forall k :: k in t.events ==> t.events[k].id != event
  }

  predicate LinkUnused(t: Tables, link: Uuid) {
    forall c :: c in t.links ==> t.links[c].id != link
  }

  // ---------------------------------------------------------------------------
  // Recovering

  /** The three proofs a recovery rests on: an active membership, a live credential of that
      very membership, and a known consumer. */
  predicate Proven(t: Tables, q: RecoverRequest) {
    && q.membership in t.memberships && t.memberships[q.membership].status == Active
    && q.credential in t.credentials && !t.credentials[q.credential].revoked
    && t.credentials[q.credential].membership == q.membership
    && q.consumer in t.consumers
  }

  predicate LinkedElsewhere(t: Tables, consumer: Uuid, m: Uuid) {
    && consumer in t.links && t.links[consumer].membership != m
    && t.links[consumer].membership in t.memberships
    && t.memberships[t.links[consumer].membership].status == Active
  }

  /** A recovery with an unused key is accepted if and only if it is proven, its consumer
      has no link or one to this very membership, and a consumer without a link brings an
      unused link id; a link to another active membership is what two proofs are for. */
  lemma RecoverAcceptedIff(t: Tables, q: RecoverRequest)
    requires q.wellFormed && q.key !in t.events
    ensures RecoverStep(t, q).1 == Done(q.membership, Some(q.consumer), false)
            <==> && Proven(t, q) && !LinkedElsewhere(t, q.consumer, q.membership)
                 && (q.consumer in t.links ==> t.links[q.consumer].membership == q.membership)
                 && (q.consumer !in t.links ==> LinkUnused(t, q.link)) && EventUnused(t, q.event)
    ensures RecoverStep(t, q).1 == Refused(EvidenceMissing) <==> !Proven(t, q)
    ensures RecoverStep(t, q).1 == Refused(TwoProofsRequired)
            <==> Proven(t, q) && LinkedElsewhere(t, q.consumer, q.membership)
    ensures RecoverStep(t, q).1.Refused? ==> RecoverStep(t, q).0 == t
  {
  }

  /** An accepted recovery links a consumer that had no link, not as the primary one, takes
      note of itself, and touches nothing else. */
  lemma RecoverAddsOneLink(t: Tables, q: RecoverRequest)
    requires q.key !in t.events && RecoverStep(t, q).1 == Done(q.membership, Some(q.consumer), false)
    ensures var u := RecoverStep(t, q).0;
            && u.memberships == t.memberships && u.credentials == t.credentials
            && u.consumers == t.consumers && u.consents == t.consents
            && u.events == t.events[q.key := Event(q.event, q.membership, Recovered, q.hash)]
            && q.consumer in u.links && u.links[q.consumer].membership == q.membership
            && (q.consumer in t.links ==> u.links == t.links)
            && (q.consumer !in t.links ==> u.links == t.links[q.consumer := Link(q.link, q.membership, false)])
  {
  }

  // ---------------------------------------------------------------------------
  // Joining

  /** The consent was granted and is not attached to another consumer. */
  predicate Consented(t: Tables, q: JoinRequest) {
    && q.consent in t.consents && t.consents[q.consent].granted
    && (t.consents[q.consent].consumer.Some? ==> t.consents[q.consent].consumer.value == q.consumer)
  }

  /** A consumer that is not known yet may be created, unless it is claimed to exist. */
  predicate ConsumerStated(t: Tables, q: JoinRequest) {
    || q.consumer in t.consumers
    || (!q.existingConsumer && q.consent in t.consents && t.consents[q.consent].consumer.None?)
  }

  predicate BelongsTo(t: Tables, consumer: Uuid, m: Uuid) {
    && consumer in t.links && t.links[consumer].membership == m
    && m in t.memberships && t.memberships[m].status == Active
  }

  predicate JoinIdsUnused(t: Tables, q: JoinRequest) {
    && q.membership !in t.memberships && LinkUnused(t, q.link) && EventUnused(t, q.event)
    && forall m :: m in t.memberships ==> t.memberships[m].number != q.number
  }

  /** A join with an unused key creates a membership if and only if its consent stands for
      the consumer, the consumer may be taken as given and has no link, and all ids are
      unused. A consumer that belongs to a membership gets that one, whatever the ids. */
  lemma JoinAcceptedIff(t: Tables, q: JoinRequest)
    requires q.wellFormed && q.key !in t.events
    ensures JoinStep(t, q).1 == Done(q.membership, Some(q.consumer), false)
            <==> Consented(t, q) && ConsumerStated(t, q) && q.consumer !in t.links && JoinIdsUnused(t, q)
    ensures forall m :: JoinStep(t, q).1 == Done(m, Some(q.consumer), true)
                        <==> Consented(t, q) && ConsumerStated(t, q) && BelongsTo(t, q.consumer, m)
    ensures JoinStep(t, q).1 == Refused(ConsentDenied) <==> !Consented(t, q)
    ensures JoinStep(t, q).1 == Refused(ConsumerMissing) <==> Consented(t, q) && !ConsumerStated(t, q)
    ensures JoinStep(t, q).1.Refused? ==> JoinStep(t, q).0 == t
  {
  }

  /** A join that creates a membership makes it active and unmerged, with the consumer as
      its primary one, and attaches the consent to that consumer. */
  lemma JoinAddsOneMembership(t: Tables, q: JoinRequest)
    requires q.key !in t.events && JoinStep(t, q).1 == Done(q.membership, Some(q.consumer), false)
    ensures var u := JoinStep(t, q).0;
            && q.membership !in t.memberships && q.consumer !in t.links
            && u.memberships == t.memberships[q.membership := Membership(q.number, Active, None)]
            && u.links == t.links[q.consumer := Link(q.link, q.membership, true)]
            && u.credentials == t.credentials && u.consumers == t.consumers + {q.consumer}
            && u.events == t.events[q.key := Event(q.event, q.membership, Joined, q.hash)]
            && u.consents == t.consents[q.consent := Consent(true, Some(q.consumer))]
  {
  }

  /** A join that finds the consumer linked adds at most the consumer. */
  lemma JoinFindsMembership(t: Tables, q: JoinRequest, m: Uuid)
    requires q.key !in t.events && JoinStep(t, q).1 == Done(m, Some(q.consumer), true)
    ensures q.consumer in t.links && t.links[q.consumer].membership == m
    ensures JoinStep(t, q).0 == t.(consumers := t.consumers + {q.consumer})
  {
  }

  // ---------------------------------------------------------------------------
  // Binding

  predicate LiveFor(t: Tables, k: Uuid, subject: Subject) {
    k in t.credentials && !t.credentials[k].revoked && t.credentials[k].subject == subject
  }

  /** A fresh bind adds a credential if and only if its membership is active, nobody holds
      the identity, and the credential id is unused; an identity the membership already
      holds is answered with its credential, one of another membership is refused. */
  lemma BindAcceptedIff(t: Tables, h: Homes, q: BindRequest)
    requires Inv(t, h) && q.wellFormed && q.key !in t.events
    ensures BindStep(t, q).1 == Done(q.credential, None, false)
            <==> && q.membership in t.memberships && t.memberships[q.membership].status == Active
                 && (forall k :: !LiveFor(t, k, q.subject)) && q.credential !in t.credentials
                 && EventUnused(t, q.event)
    ensures forall k :: BindStep(t, q).1 == Done(k, None, true)
                        <==> && q.membership in t.memberships && t.memberships[q.membership].status == Active
                             && LiveFor(t, k, q.subject) && t.credentials[k].membership == q.membership
    ensures BindStep(t, q).1 == Refused(IdentityTaken)
            <==> && q.membership in t.memberships && t.memberships[q.membership].status == Active
                 && exists k :: LiveFor(t, k, q.subject) && t.credentials[k].membership != q.membership
    ensures BindStep(t, q).1 == Refused(MembershipMissing)
            <==> !(q.membership in t.memberships && t.memberships[q.membership].status == Active)
    ensures BindStep(t, q).1.Refused? ==> BindStep(t, q).0 == t
  {
    forall k, l | LiveFor(t, k, q.subject) && LiveFor(t, l, q.subject) ensures k == l {
      assert BothLive(t.credentials[k], t.credentials[l]);
    }
    if ActiveSubject(t, q.subject).Some? {
      assert LiveFor(t, ActiveSubject(t, q.subject).value, q.subject);
    } else {
      forall k ensures !LiveFor(t, k, q.subject) {
        assert k in t.credentials ==> t.credentials[k].revoked || t.credentials[k].subject != q.subject;
      }
    }
  }

  lemma BindAddsOneCredential(t: Tables, q: BindRequest)
    requires q.key !in t.events && BindStep(t, q).1.Done?
    ensures var u := BindStep(t, q).0;
            if BindStep(t, q).1.replayed then u == t
            else && q.credential !in t.credentials
                 && u == t.(credentials := t.credentials[q.credential := Credential(q.membership, q.subject, q.envelope,
                                                                                    false)],
                            events := t.events[q.key := Event(q.event, q.membership, IdentityBound, q.hash)])
  {
  }

  // ---------------------------------------------------------------------------
  // Merging

  /** The two proofs a merge rests on: both memberships active, the consumer linked to the
      source, and a live credential of each. */
  predicate BothProven(t: Tables, q: MergeRequest) {
    && q.source in t.memberships && t.memberships[q.source].status == Active
    && q.target in t.memberships && t.memberships[q.target].status == Active
    && q.consumer in t.links && t.links[q.consumer].membership == q.source
    && q.sourceCredential in t.credentials && !t.credentials[q.sourceCredential].revoked
    && t.credentials[q.sourceCredential].membership == q.source
    && q.targetCredential in t.credentials && !t.credentials[q.targetCredential].revoked
    && t.credentials[q.targetCredential].membership == q.target
  }

  predicate TwoOfEach(q: MergeRequest) {
    && q.wellFormed && q.source != q.target && q.sourceCredential != q.targetCredential && q.sourceKey != q.targetKey
  }

  /** A request that does not name two of everything is invalid, and a merge of unused keys
      that lacks one of its proofs is refused for that. */
  lemma MergeNeedsBothProofs(t: Tables, q: MergeRequest)
    ensures MergeStep(t, q).1 == Refused(InvalidRequest) <==> !TwoOfEach(q)
    ensures q.sourceKey !in t.events && q.targetKey !in t.events ==>
              (MergeStep(t, q).1 == Refused(TwoProofsRequired) <==> TwoOfEach(q) && !BothProven(t, q))
    ensures MergeStep(t, q).1.Refused? ==> MergeStep(t, q).0 == t
  {
  }

  /** An accepted merge closes the source into the target, leaves a receipt under each key,
      and changes no other membership, event, consumer or consent. */
  lemma MergeClosesTheSource(t: Tables, q: MergeRequest)
    requires MergeStep(t, q).1 == Done(q.target, Some(q.consumer), false)
    ensures q.source in t.memberships && q.target in t.memberships
    ensures var u := MergeStep(t, q).0;
            && u.memberships
               == t.memberships[q.source := Membership(t.memberships[q.source].number, Merged, Some(q.target))]
            && u.events == t.events[q.sourceKey := Event(q.sourceEvent, q.source, MergedSource, q.hash)]
                                   [q.targetKey := Event(q.targetEvent, q.target, MergedTarget, q.hash)]
            && u.consumers == t.consumers && u.consents == t.consents
    ensures EventUnused(t, q.sourceEvent) && EventUnused(t, q.targetEvent) && q.sourceEvent != q.targetEvent
  {
  }

  /** Once one of its keys is used, a merge changes nothing, and is answered if and only if
      both were used for this very merge. */
  lemma UsedMergeKeysAnswerTheirOwn(t: Tables, q: MergeRequest)
    requires TwoOfEach(q) && (q.sourceKey in t.events || q.targetKey in t.events)
    ensures MergeStep(t, q).0 == t
    ensures MergeStep(t, q).1.Done?
            <==> && q.sourceKey in t.events && t.events[q.sourceKey].membership == q.source
                 && t.events[q.sourceKey].kind == MergedSource && t.events[q.sourceKey].hash == q.hash
                 && q.targetKey in t.events && t.events[q.targetKey].membership == q.target
                 && t.events[q.targetKey].kind == MergedTarget && t.events[q.targetKey].hash == q.hash
  {
  }

  // ---------------------------------------------------------------------------
  // Used keys

  /** A used key never changes anything, and it answers only the kind of request, the
      payload and, but for joins, the membership it was used for. */
  lemma UsedKeyAnswersItsOwn(t: Tables, join: JoinRequest, bind: BindRequest, recover: RecoverRequest)
    requires join.wellFormed && bind.wellFormed && recover.wellFormed
    ensures join.key in t.events ==>
              && JoinStep(t, join).0 == t
              && (JoinStep(t, join).1.Done? ==>
                    && t.events[join.key].kind == Joined && t.events[join.key].hash == join.hash
                    && JoinStep(t, join).1.id == t.events[join.key].membership && JoinStep(t, join).1.replayed)
              && (JoinStep(t, join).1 == Refused(IdempotencyConflict)
                  <==> t.events[join.key].kind != Joined || t.events[join.key].hash != join.hash)
    ensures bind.key in t.events ==>
              && BindStep(t, bind).0 == t
              && (BindStep(t, bind).1 == Refused(IdempotencyConflict)
                  <==> || t.events[bind.key].kind != IdentityBound || t.events[bind.key].hash != bind.hash
                       || t.events[bind.key].membership != bind.membership)
    ensures recover.key in t.events ==>
              && RecoverStep(t, recover).0 == t
              && (RecoverStep(t, recover).1.Done?
                  <==> && t.events[recover.key].kind == Recovered && t.events[recover.key].hash == recover.hash
                       && t.events[recover.key].membership == recover.membership)
  {
  }
}
