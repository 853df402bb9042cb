/** Marketing calls as transactions that run beside each other. A transaction sees the
    committed tables under its own rows, holds the locks of the rows it wrote or read FOR
    UPDATE, and pauses inside a call wherever the function reads something that nothing
    locks: after a consent test, and between finding the rows of a set-based UPDATE and
    writing them. */
module MarketingProtocol {
  import opened Sql
  import opened MarketingAuthority
  import opened MarketingLaws

  /** The rows under the rows of another table state. */
  function Merge(t: Tables, rows: Tables): Tables {
    Tables(t.notifications + rows.notifications, t.deliveries + rows.deliveries, t.grants + rows.grants,
           t.preferences + rows.preferences, t.consents + rows.consents)
  }

  /** What a lock protects: a row, or a key of a unique constraint that is being inserted. */
  datatype Row =
    | Preferring(membership: Uuid)
    | Granting(grant: Uuid)
    | Delivering_(delivery: Uuid)
    | Consenting(consent: Uuid)
    | Notifying(notification: Uuid)
    | Sourcing(happening: Happening)
    | Referring(reference: string)

  // ---------------------------------------------------------------------------
  // Calls and what is left to do of them

  datatype Call =
    | Create(create: CreateRequest)
    | Lease(delivery: Uuid, token: Option<Uuid>, now: int)
    | Report(report: ResultRequest)
    | Subscribe(member: Uuid, consent: Uuid, authorization: GrantRequest)
    | Unsubscribe(member: Uuid)
    | ChangeConsent(id: Uuid, granted: bool, withdrawn: bool)
    | NewConsent(id: Uuid, consented: Consent)
    | Serve(service: ServiceRequest)
    | ExpireGrant(expired: Uuid)

  /** Whose deliveries and grants a set-based UPDATE selects. */
  datatype Whose = OfMember(member: Uuid) | OnConsent(consent: Uuid)

  /** The rest of a call. The sweeps are the set-based updates of the two cancellation
      triggers and of unsubscribing; a lease remembers what its consent test found. */
  datatype Task =
    | FinishCreate(create: CreateRequest)
    | FinishSubscribe(member: Uuid, consent: Uuid, authorization: GrantRequest)
    | FinishLease(delivery: Uuid, token: Option<Uuid>, now: int, due: bool, welcome: bool)
    | SuppressLive(whose: Whose)
    | RevokeGrants(whose: Whose)
    | SuppressIdle(whose: Whose)

  predicate Sweep(task: Task) {
    task.SuppressLive? || task.RevokeGrants? || task.SuppressIdle?
  }

  /** `snap` is what the sweep under way selects from. */
  datatype Tx = Tx(rows: Tables, agenda: seq<Task>, snap: Option<Tables>, log: seq<Entry>)

  /** What creating ends in. Rows of other transactions may have counted when the function
      counted, or been usable grants locked by them when it looked for one; holding back
      and finding no grant are therefore always possible here. */
  datatype Choice = HoldBack | FindNone | Use(grant: Uuid)

  datatype Move = Start(call: Call) | Look | Finish(choice: Choice)

  /** What one move writes, locks and leaves to do. */
  datatype Effect = Effect(delta: Tables, locks: set<Row>, agenda: seq<Task>, snap: Option<Tables>, entries: seq<Entry>)

  function Rest(agenda: seq<Task>): Effect {
    Effect(EMPTY, {}, agenda, None, [])
  }

  predicate Stands(t: Tables, c: Uuid) {
    c in t.consents && ConsentStands(t.consents[c])
  }

  // ---------------------------------------------------------------------------
  // The first statements of a call

  ghost function Opening(v: Tables, call: Call): Option<Effect> {
    match call
    case Create(q) =>
      var held := if q.membership in v.preferences then {Preferring(q.membership)} else {};
      Some(Rest(if MayMarket(v, q.membership) then [FinishCreate(q)] else []).(locks := held))
    case Subscribe(m, c, q) =>
      if !Stands(v, c) || q.grant.membership != m || q.grant.purpose != Marketing then None
      else
        var inserted := if m in v.preferences then map[] else map[m := Preference(false, None)];
        Some(Effect(EMPTY.(preferences := inserted), {Preferring(m)}, [FinishSubscribe(m, c, q)], None, []))
    case Unsubscribe(m) =>
      var was := if m in v.preferences then v.preferences[m] else Preference(false, None);
      var triggered := if was.enabled then [SuppressLive(OfMember(m))] else [];
      Some(Effect(EMPTY.(preferences := map[m := was.(enabled := false)]), {Preferring(m)},
                  triggered + [RevokeGrants(OfMember(m)), SuppressIdle(OfMember(m))], None, []))
    case ChangeConsent(id, granted, withdrawn) =>
      if id !in v.consents then Some(Rest([]))
      else
        var before := v.consents[id];
        var given := before.granted && !before.withdrawn && (!granted || withdrawn);
        Some(Effect(EMPTY.(consents := map[id := before.(granted := granted, withdrawn := withdrawn)]),
                    {Consenting(id)},
                    if given then [RevokeGrants(OnConsent(id)), SuppressLive(OnConsent(id))] else [], None, []))
    case NewConsent(id, c) =>
      if id in v.consents then None
      else Some(Rest([]).(delta := EMPTY.(consents := map[id := c]), locks := {Consenting(id)}))
    case Lease(d, token, now) =>
      var due := d in v.deliveries && Attemptable(v.deliveries[d], now);
      Some(Rest([FinishLease(d, token, now, due, !Unwelcome(v, d))]))
    case Report(q) =>
      (match ResultStep(v, q)
       case None => None
       case Some(u) =>
         Some(OneDelivery(q.delivery, u.deliveries[q.delivery], [Reported(q.delivery, q.token)])))
    case Serve(q) =>
      (match ServiceStep(v, q)
       case None => None
       case Some(u) => Some(Insertion(u, q.notification, q.delivery)))
    case ExpireGrant(g) =>
      if g !in v.grants || v.grants[g].status != Available then None
      else Some(Rest([]).(delta := EMPTY.(grants := map[g := v.grants[g].(status := Expired)]), locks := {Granting(g)}))
  }

  /** The rows of a new notification, its delivery and the grant that one uses. */
  ghost function Insertion(u: Tables, n: Uuid, d: Uuid): Effect
    requires n in u.notifications && d in u.deliveries
  {
    var used := u.deliveries[d].grant;
    var held := {Notifying(n), Delivering_(d), Sourcing(u.notifications[n].happening)};
    Effect(Tables(map[n := u.notifications[n]], map[d := u.deliveries[d]],
                  if used.Some? && used.value in u.grants then map[used.value := u.grants[used.value]] else map[],
                  map[], map[]),
           held + (if used.Some? then {Granting(used.value)} else {}), [], None, [])
  }

  // ---------------------------------------------------------------------------
  // Finishing a call

  /** The tables with the delivery the chosen ending creates; None when it is not open. */
  ghost function Ending(v: Tables, q: CreateRequest, choice: Choice): Option<Tables> {
    var made := Notification(q.membership, Marketing, q.happening);
    var named := v.(notifications := v.notifications[q.notification := made]);
    var row := Delivery(q.notification, None, Suppressed, 0, None, None, None, q.now);
    match choice
    case HoldBack => Some(named.(deliveries := v.deliveries[q.delivery := row]))
    case FindNone => Some(named.(deliveries := v.deliveries[q.delivery := row.(status := AuthorizationMissing)]))
    case Use(g) =>
      if Capped(v, q) || !Usable(v, g, q) then None
      else
        Some(named.(deliveries := v.deliveries[q.delivery :=
                      row.(grant := Some(g), status := Pending, nextAttempt := Some(DueAt(q.now)))],
                    grants := v.grants[g := v.grants[g].(status := Consumed)]))
  }

  ghost function ClosingCreate(v: Tables, q: CreateRequest, choice: Choice): Option<Effect> {
    if MarketingAuthority.Known(v, q.happening) then Some(Rest([]))
    else if Collides(v, q) then None
    else match Ending(v, q, choice)
      case None => None
      case Some(u) =>
        var e := Insertion(u, q.notification, q.delivery);
        Some(e.(locks := e.locks + {Preferring(q.membership)}))
  }

  ghost function ClosingSubscribe(v: Tables, m: Uuid, c: Uuid, q: GrantRequest): Option<Effect> {
    match AddGrant(v, q)
    case None => None
    case Some(u) =>
      var added := if u != v then map[q.id := q.grant] else map[];
      Some(Rest([]).(delta := EMPTY.(preferences := map[m := Preference(true, Some(c))], grants := added),
                     locks := {Preferring(m), Granting(q.id), Referring(q.grant.reference)}))
  }

  /** The UPDATE of a consent found wanting names the delivery by id alone; the one that
      leases tests again whether it is due. */
  function ClosingLease(v: Tables, d: Uuid, token: Option<Uuid>, now: int, due: bool, welcome: bool): Option<Effect> {
    if d !in v.deliveries then Some(Rest([]))
    else if due && !welcome then Some(OneDelivery(d, Dropped(v.deliveries[d]), []))
    else if !Attemptable(v.deliveries[d], now) then Some(Rest([]))
    else if token.None? then None
    else
      Some(OneDelivery(d, v.deliveries[d].(status := Delivering, lease := token, leaseUntil := Some(now + 30 * SECOND)),
                       [Leased(d, token)]))
  }

  function OneDelivery(d: Uuid, row: Delivery, entries: seq<Entry>): Effect {
    Effect(EMPTY.(deliveries := map[d := row]), {Delivering_(d)}, [], None, entries)
  }

  function Members(t: Tables, whose: Whose): set<Uuid> {
    match whose
    case OfMember(m) => {m}
    case OnConsent(c) => MembersOn(t, c)
  }

  predicate Idle(d: Delivery) {
    d.status in {Pending, Failed}
  }

  /** What a sweep selected and, looking at the current row again, still updates. */
  function LiveTargets(v: Tables, snap: Tables, whose: Whose): set<Uuid> {
    set d | d in v.deliveries && Live(v.deliveries[d])
            && MarketingAmong(snap, d, Members(snap, whose)) && Live(snap.deliveries[d])
  }

  function IdleTargets(v: Tables, snap: Tables, whose: Whose): set<Uuid> {
    set d | d in v.deliveries && Idle(v.deliveries[d])
            && MarketingAmong(snap, d, Members(snap, whose)) && Idle(snap.deliveries[d])
  }

  predicate Open(t: Tables, g: Uuid, members: set<Uuid>) {
    g in t.grants && t.grants[g].purpose == Marketing && t.grants[g].status == Available
        && t.grants[g].membership in members
  }

  function OpenTargets(v: Tables, snap: Tables, whose: Whose): set<Uuid> {
    set g | g in v.grants && v.grants[g].status == Available && Open(snap, g, Members(snap, whose))
  }

  function Sweeping(v: Tables, task: Task, snap: Tables): Effect
    requires Sweep(task)
  {
    match task
    case SuppressLive(whose) =>
      var hit := LiveTargets(v, snap, whose);
      Rest([]).(delta := EMPTY.(deliveries := map d | d in hit :: Dropped(v.deliveries[d])),
                locks := set d | d in hit :: Delivering_(d))
    case SuppressIdle(whose) =>
      var hit := IdleTargets(v, snap, whose);
      Rest([]).(delta := EMPTY.(deliveries :=
                  map d | d in hit :: v.deliveries[d].(status := Suppressed, nextAttempt := None)),
                locks := set d | d in hit :: Delivering_(d))
    case RevokeGrants(whose) =>
      var hit := OpenTargets(v, snap, whose);
      Rest([]).(delta := EMPTY.(grants := map g | g in hit :: v.grants[g].(status := Revoked)),
                locks := set g | g in hit :: Granting(g))
  }

  ghost function Closing(v: Tables, tx: Tx, choice: Choice): Option<Effect>
    requires tx.agenda != []
  {
    match tx.agenda[0]
    case FinishCreate(q) => ClosingCreate(v, q, choice)
    case FinishSubscribe(m, c, q) => ClosingSubscribe(v, m, c, q)
    case FinishLease(d, token, now, due, welcome) => ClosingLease(v, d, token, now, due, welcome)
    case _ => if tx.snap.None? then None else Some(Sweeping(v, tx.agenda[0], tx.snap.value))
  }

  ghost function Plan(v: Tables, tx: Tx, move: Move): Option<Effect> {
    match move
    case Start(call) => if tx.agenda != [] then None else Opening(v, call)
    case Look =>
      if tx.agenda == [] || !Sweep(tx.agenda[0]) || tx.snap.Some? then None
      else Some(Rest(tx.agenda).(snap := Some(v)))
    case Finish(choice) =>
      if tx.agenda == [] then None
      else match Closing(v, tx, choice)
        case None => None
        case Some(e) => Some(e.(agenda := tx.agenda[1..]))
  }

  // ---------------------------------------------------------------------------
  // Interleavings

  datatype State = State(db: Tables, locks: map<Row, Uuid>, txs: map<Uuid, Tx>, log: seq<Entry>)

  datatype Step = Begin(id: Uuid) | Do(id: Uuid, move: Move) | Commit(id: Uuid) | Abort(id: Uuid)

  function ViewOf(s: State, id: Uuid): Tables
    requires id in s.txs
  {
    Merge(s.db, s.txs[id].rows)
  }

  predicate Holds(locks: map<Row, Uuid>, row: Row, id: Uuid) {
    row in locks && locks[row] == id
  }

  /** Every row is free or already held by this transaction. */
  predicate Lockable(locks: map<Row, Uuid>, rows: set<Row>, id: Uuid) {
    forall row :: row in rows && row in locks ==> locks[row] == id
  }

  function Locked(locks: map<Row, Uuid>, rows: set<Row>, id: Uuid): map<Row, Uuid> {
    locks + map row | row in rows :: id
  }

  function Unlocked(locks: map<Row, Uuid>, id: Uuid): map<Row, Uuid> {
    map row | row in locks && locks[row] != id :: locks[row]
  }

  function Moved(tx: Tx, e: Effect): Tx {
    Tx(Merge(tx.rows, e.delta), e.agenda, e.snap, tx.log + e.entries)
  }

  ghost function Next(s: State, step: Step): State {
    match step
    case Begin(id) => if id in s.txs then s else s.(txs := s.txs[id := Tx(EMPTY, [], None, [])])
    case Do(id, move) =>
      if id !in s.txs then s
      else (match Plan(ViewOf(s, id), s.txs[id], move)
            case None => s
            case Some(e) =>
              if !Lockable(s.locks, e.locks, id) then s
              else s.(locks := Locked(s.locks, e.locks, id), txs := s.txs[id := Moved(s.txs[id], e)]))
    case Commit(id) =>
      if id !in s.txs || s.txs[id].agenda != [] then s
      else State(ViewOf(s, id), Unlocked(s.locks, id), s.txs - {id}, s.log + s.txs[id].log)
    case Abort(id) => if id !in s.txs then s else s.(locks := Unlocked(s.locks, id), txs := s.txs - {id})
  }

  ghost function Run(s: State, steps: seq<Step>): State
    decreases |steps|
  {
    if steps == [] then s else Run(Next(s, steps[0]), steps[1..])
  }

  const INITIAL := State(EMPTY, map[], map[], [])
}
