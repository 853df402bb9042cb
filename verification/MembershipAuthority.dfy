/** Brand memberships of one tenant: joining, binding identities, recovering, and
    merging one membership into another. Each authority function maps the tables and
    a request to the tables after it and an outcome; a refusal changes nothing. */
module MembershipAuthority {
  import opened Sql
  import opened Forest

  datatype Status = Active | Merged
  datatype Membership = Membership(number: string, status: Status, mergedInto: Option<Uuid>)

  /** A profile link. A consumer profile has at most one, so links are keyed by it. */
  datatype Link = Link(id: Uuid, membership: Uuid, primary: bool)

  datatype CredentialKind = VerifiedPhone | WechatOpenId | WechatUnionId
  datatype Subject = Subject(kind: CredentialKind, issuer: string, hash: string)
  datatype Envelope = Envelope(ciphertext: string, nonce: string, keyId: string)
  datatype Credential = Credential(membership: Uuid, subject: Subject, envelope: Envelope, revoked: bool)

  datatype EventKind = Joined | IdentityBound | Recovered | MergedSource | MergedTarget
  datatype Event = Event(id: Uuid, membership: Uuid, kind: EventKind, hash: string)

  /** A consent record: whether it is a granted, current brand-membership consent with
      its receipt, and the consumer it is attached to. */
  datatype Consent = Consent(granted: bool, consumer: Option<Uuid>)

  datatype Tables = Tables(
    memberships: map<Uuid, Membership>,
    links: map<Uuid, Link>,
    credentials: map<Uuid, Credential>,
    events: map<string, Event>,
    consumers: set<Uuid>,
    consents: map<Uuid, Consent>)

  datatype Refusal =
    | InvalidRequest | IdempotencyConflict | ReceiptIncomplete | ConsentDenied | ConsumerMissing
    | MembershipMissing | IdentityTaken | EvidenceMissing | TwoProofsRequired | TokenUsed
    | CycleDenied | IncompleteReencryption | ReencryptionInvalid | ConstraintViolated

  /** The membership (or credential) answered, the consumer where one is, and whether
      the answer repeats an earlier one. */
  datatype Outcome = Done(id: Uuid, consumer: Option<Uuid>, replayed: bool) | Refused(why: Refusal)

  // ---------------------------------------------------------------------------
  // Lookups

  predicate IsActive(t: Tables, m: Uuid) {
    m in t.memberships && t.memberships[m].status == Active
  }

  ghost function PrimaryConsumer(t: Tables, m: Uuid): Option<Uuid> {
    if exists c :: c in t.links && t.links[c].membership == m && t.links[c].primary then
      var c :| c in t.links && t.links[c].membership == m && t.links[c].primary;
      Some(c)
    else None
  }

  /** The live credential of a subject. */
  ghost function ActiveSubject(t: Tables, subject: Subject): Option<Uuid> {
    if exists k :: k in t.credentials && !t.credentials[k].revoked && t.credentials[k].subject == subject then
      var k :| k in t.credentials && !t.credentials[k].revoked && t.credentials[k].subject == subject;
      Some(k)
    else None
  }

  predicate LiveAt(credentials: map<Uuid, Credential>, k: Uuid, m: Uuid) {
    k in credentials && credentials[k].membership == m && !credentials[k].revoked
  }

  function LiveCredentials(credentials: map<Uuid, Credential>, m: Uuid): set<Uuid> {
    set k | k in credentials && credentials[k].membership == m && !credentials[k].revoked
  }

  predicate FreshEvent(t: Tables, id: Uuid) {
    forall key :: key in t.events ==> t.events[key].id != id
  }

  predicate FreshLink(t: Tables, id: Uuid) {
    forall c :: c in t.links ==> t.links[c].id != id
  }

  predicate FreshNumber(t: Tables, number: string) {
    forall m :: m in t.memberships ==> t.memberships[m].number != number
  }

  /** The merge edges. */
  function MergeEdges(t: Tables): Forest {
    map m | m in t.memberships :: t.memberships[m].mergedInto
  }

  // ---------------------------------------------------------------------------
  // Joining

  /** `wellFormed` stands for the format and NOT NULL tests at the head of a function. */
  datatype JoinRequest = JoinRequest(
    wellFormed: bool, consent: Uuid, consumer: Uuid, existingConsumer: bool, membership: Uuid, number: string,
    link: Uuid, event: Uuid, key: string, hash: string)

  ghost function JoinStep(t: Tables, q: JoinRequest): (Tables, Outcome) {
    if !q.wellFormed then (t, Refused(InvalidRequest))
    else if q.key in t.events then
      (t, JoinReceipt(t, q))
    else if q.consent !in t.consents || !t.consents[q.consent].granted
            || (t.consents[q.consent].consumer.Some? && t.consents[q.consent].consumer != Some(q.consumer)) then
      (t, Refused(ConsentDenied))
    else if q.consumer !in t.consumers && (q.existingConsumer || t.consents[q.consent].consumer.Some?) then
      (t, Refused(ConsumerMissing))
    else if q.consumer in t.links && IsActive(t, t.links[q.consumer].membership) then
      (t.(consumers := t.consumers + {q.consumer}), Done(t.links[q.consumer].membership, Some(q.consumer), true))
    else if q.membership in t.memberships || !FreshNumber(t, q.number) || q.consumer in t.links || !FreshLink(t, q.link)
            || !FreshEvent(t, q.event) then
      (t, Refused(ConstraintViolated))
    else
      (t.(memberships := t.memberships[q.membership := Membership(q.number, Active, None)],
          links := t.links[q.consumer := Link(q.link, q.membership, true)],
          events := t.events[q.key := Event(q.event, q.membership, Joined, q.hash)],
          consumers := t.consumers + {q.consumer},
          consents := t.consents[q.consent := t.consents[q.consent].(consumer := Some(q.consumer))]),
       Done(q.membership, Some(q.consumer), false))
  }

  ghost function JoinReceipt(t: Tables, q: JoinRequest): Outcome
    requires q.key in t.events
  {
    var e := t.events[q.key];
    if e.kind != Joined || e.hash != q.hash then Refused(IdempotencyConflict)
    else if e.membership !in t.memberships || PrimaryConsumer(t, e.membership).None? then Refused(ReceiptIncomplete)
    else Done(e.membership, PrimaryConsumer(t, e.membership), true)
  }

  // ---------------------------------------------------------------------------
  // Binding an identity

  datatype BindRequest = BindRequest(
    wellFormed: bool, membership: Uuid, credential: Uuid, subject: Subject, envelope: Envelope, event: Uuid,
    key: string, hash: string)

  ghost function BindStep(t: Tables, q: BindRequest): (Tables, Outcome) {
    if !q.wellFormed then (t, Refused(InvalidRequest))
    else if q.key in t.events then
      (t, BindReceipt(t, q))
    else if !IsActive(t, q.membership) then (t, Refused(MembershipMissing))
    else match ActiveSubject(t, q.subject)
      case Some(k) =>
        if t.credentials[k].membership != q.membership then (t, Refused(IdentityTaken)) else (t, Done(k, None, true))
      case None =>
        if q.credential in t.credentials || !FreshEvent(t, q.event) then (t, Refused(ConstraintViolated))
        else
          (t.(credentials := t.credentials[q.credential := Credential(q.membership, q.subject, q.envelope, false)],
              events := t.events[q.key := Event(q.event, q.membership, IdentityBound, q.hash)]),
           Done(q.credential, None, false))
  }

  ghost function BindReceipt(t: Tables, q: BindRequest): Outcome
    requires q.key in t.events
  {
    var e := t.events[q.key];
    if e.kind != IdentityBound || e.membership != q.membership || e.hash != q.hash then Refused(IdempotencyConflict)
    else match ActiveSubject(t, q.subject)
      case Some(k) => if t.credentials[k].membership == q.membership then Done(k, None, true)
          else Refused(ReceiptIncomplete)
      case None => Refused(ReceiptIncomplete)
  }

  // ---------------------------------------------------------------------------
  // Recovering

  datatype RecoverRequest = RecoverRequest(
    wellFormed: bool, membership: Uuid, credential: Uuid, consumer: Uuid, link: Uuid, event: Uuid,
    key: string, hash: string)

  function RecoverStep(t: Tables, q: RecoverRequest): (Tables, Outcome) {
    if !q.wellFormed then (t, Refused(InvalidRequest))
    else if q.key in t.events then
      var e := t.events[q.key];
      (t, if e.kind != Recovered || e.membership != q.membership || e.hash != q.hash then Refused(TokenUsed)
          else Done(q.membership, Some(q.consumer), true))
    else if !IsActive(t, q.membership) || !LiveAt(t.credentials, q.credential, q.membership)
        || q.consumer !in t.consumers then
      (t, Refused(EvidenceMissing))
    else
      var linked := q.consumer in t.links && IsActive(t, t.links[q.consumer].membership);
      if linked && t.links[q.consumer].membership != q.membership then (t, Refused(TwoProofsRequired))
      else if (!linked && (q.consumer in t.links || !FreshLink(t, q.link))) || !FreshEvent(t, q.event) then
        (t, Refused(ConstraintViolated))
      else
        (t.(links := if linked then t.links else t.links[q.consumer := Link(q.link, q.membership, false)],
            events := t.events[q.key := Event(q.event, q.membership, Recovered, q.hash)]),
         Done(q.membership, Some(q.consumer), false))
  }

  // ---------------------------------------------------------------------------
  // Merging

  /** One entry of the re-encryption object: the credential its key names once cast to
      a uuid (None when the cast fails), and its envelope (None when a check of the
      loop or of the table rejects it). Different keys may name one credential. */
  datatype Entry = Entry(names: Option<Uuid>, envelope: Option<Envelope>)

  datatype MergeRequest = MergeRequest(
    wellFormed: bool, source: Uuid, target: Uuid, consumer: Uuid, sourceCredential: Uuid, targetCredential: Uuid,
    sourceKey: string, targetKey: string, sourceEvent: Uuid, targetEvent: Uuid, hash: string, entries: seq<Entry>)

  /** The credential loop. */
  function Reencrypt(credentials: map<Uuid, Credential>, source: Uuid, target: Uuid, entries: seq<Entry>)
    : Option<map<Uuid, Credential>>
    decreases |entries|
  {
    if entries == [] then Some(credentials)
    else
      var e := entries[0];
      if e.envelope.None? || e.names.None? || !LiveAt(credentials, e.names.value, source) then None
      else
        var k := e.names.value;
        Reencrypt(credentials[k := credentials[k].(membership := target, envelope := e.envelope.value)],
                  source, target, entries[1..])
  }

  function Relinked(links: map<Uuid, Link>, source: Uuid, target: Uuid): map<Uuid, Link> {
    map c | c in links
      :: if links[c].membership == source then links[c].(membership := target, primary := false) else links[c]
  }

  predicate TwoProofs(t: Tables, q: MergeRequest) {
    && IsActive(t, q.source) && IsActive(t, q.target)
    && q.consumer in t.links && t.links[q.consumer].membership == q.source
    && LiveAt(t.credentials, q.sourceCredential, q.source) && LiveAt(t.credentials, q.targetCredential, q.target)
  }

  predicate ValidMerge(q: MergeRequest) {
    && q.wellFormed && q.source != q.target && q.sourceCredential != q.targetCredential && q.sourceKey != q.targetKey
  }

  predicate MergeReceipt(t: Tables, q: MergeRequest) {
    && q.sourceKey in t.events && q.targetKey in t.events
    && t.events[q.sourceKey].membership == q.source && t.events[q.sourceKey].kind == MergedSource
    && t.events[q.targetKey].membership == q.target && t.events[q.targetKey].kind == MergedTarget
    && t.events[q.sourceKey].hash == q.hash && t.events[q.targetKey].hash == q.hash
  }

  ghost function MergeStep(t: Tables, q: MergeRequest): (Tables, Outcome) {
    if !ValidMerge(q) then (t, Refused(InvalidRequest))
    else if q.sourceKey in t.events || q.targetKey in t.events then
      (t, if MergeReceipt(t, q) then Done(q.target, Some(q.consumer), true) else Refused(TokenUsed))
    else if !TwoProofs(t, q) then (t, Refused(TwoProofsRequired))
    else if Reaches(MergeEdges(t), q.target, q.source) then (t, Refused(CycleDenied))
    else if |LiveCredentials(t.credentials, q.source)| != |q.entries| || q.entries == [] then
      (t, Refused(IncompleteReencryption))
    else match Reencrypt(t.credentials, q.source, q.target, q.entries)
      case None => (t, Refused(ReencryptionInvalid))
      case Some(credentials) =>
        if !FreshEvent(t, q.sourceEvent) || !FreshEvent(t, q.targetEvent) || q.sourceEvent == q.targetEvent then
          (t, Refused(ConstraintViolated))
        else (AfterMerge(t, q, credentials), Done(q.target, Some(q.consumer), false))
  }

  function AfterMerge(t: Tables, q: MergeRequest, credentials: map<Uuid, Credential>): Tables
    requires q.source in t.memberships
  {
    t.(credentials := credentials,
       links := Relinked(t.links, q.source, q.target),
       memberships :=
           t.memberships[q.source := t.memberships[q.source].(status := Merged, mergedInto := Some(q.target))],
       events := t.events[q.sourceKey := Event(q.sourceEvent, q.source, MergedSource, q.hash)]
                         [q.targetKey := Event(q.targetEvent, q.target, MergedTarget, q.hash)])
  }

  // ---------------------------------------------------------------------------
  // What other parts of the system do to these tables

  /** A credential is revoked. */
  function Revoked(t: Tables, k: Uuid): Tables {
    if k in t.credentials then t.(credentials := t.credentials[k := t.credentials[k].(revoked := true)]) else t
  }
}
