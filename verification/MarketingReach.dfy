/** Two runs from empty tables: a lease granted on a delivery that has become unwelcome since
    the consent test, and an accepted result that a lease call overwrites. */
module MarketingReach {
  import opened Sql
  import opened MarketingAuthority
  import opened MarketingLaws
  import opened MarketingProtocol
  import opened MarketingMoves
  import opened MarketingRuns
  import opened MarketingConsent
  import opened MarketingRace
  import opened MarketingLease

  /** A transaction whose lease call has made its consent test on these tables. */
  function Testing(db: Tables, d: Uuid, token: Uuid, now: int): Tx {
    var due := d in db.deliveries && Attemptable(db.deliveries[d], now);
    IDLE.(agenda := [FinishLease(d, Some(token), now, due, !Unwelcome(db, d))])
  }

  function UnderLease(row: Delivery, token: Uuid, now: int): Delivery {
    row.(status := Delivering, lease := Some(token), leaseUntil := Some(now + 30 * SECOND))
  }

  function WithRow(db: Tables, d: Uuid, row: Delivery): Tables {
    db.(deliveries := db.deliveries[d := row])
  }

  lemma LeaseBegins(s: State, l: Uuid, d: Uuid, token: Uuid, now: int) returns (steps: seq<Step>)
    requires l !in s.txs
    ensures NoCommits(steps) && Run(s, steps) == s.(txs := s.txs[l := Testing(s.db, d, token, now)])
  {
    var tx := Testing(s.db, d, token, now);
    var u := s.(txs := s.txs[l := IDLE]);
    BeginTakes(s, l);
    MergeNothing(s.db);
    Takes(u, l, Start(Lease(d, Some(token), now)), Rest(tx.agenda));
    NothingMoved(u, l, tx.agenda, None);
    steps := [Begin(l), Do(l, Start(Lease(d, Some(token), now)))];
    RunTwo(s, steps[0], steps[1]);
    assert u.txs[l := tx] == s.txs[l := tx];
  }

  // ---------------------------------------------------------------------------
  // A transaction that writes one delivery

  function Wrote(s: State, id: Uuid, d: Uuid, row: Delivery, entry: Entry): State {
    s.(locks := map[Delivering_(d) := id],
       txs := s.txs[id := Tx(EMPTY.(deliveries := map[d := row]), [], None, [entry])])
  }

  lemma WriteTakes(s: State, id: Uuid, move: Move, d: Uuid, row: Delivery, entry: Entry)
    requires id in s.txs && s.txs[id] == IDLE.(agenda := s.txs[id].agenda) && s.locks == map[]
    requires Plan(s.db, s.txs[id], move) == Some(OneDelivery(d, row, [entry]))
    ensures Next(s, Do(id, move)) == Wrote(s, id, d, row, entry)
  {
    MergeNothing(s.db);
    var e := OneDelivery(d, row, [entry]);
    Takes(s, id, move, e);
    MergeOntoNothing(e.delta);
    assert s.txs[id].log + [entry] == [entry];
    assert Locked(s.locks, e.locks, id) == map[Delivering_(d) := id];
  }

  lemma WriteLands(s: State, id: Uuid, d: Uuid, row: Delivery, entry: Entry)
    ensures Next(Wrote(s, id, d, row, entry), Commit(id))
         == State(WithRow(s.db, d, row), map[], s.txs - {id}, s.log + [entry])
  {
    var u := Wrote(s, id, d, row, entry);
    CommitTakes(u, id);
    DeliveryOver(s.db, d, row);
    assert Unlocked(u.locks, id) == map[];
    assert u.txs - {id} == s.txs - {id};
  }

  lemma DeliveryOver(db: Tables, d: Uuid, row: Delivery)
    ensures Merge(db, EMPTY.(deliveries := map[d := row])) == WithRow(db, d, row)
  {
    MergeNothing(db);
    assert db.deliveries + map[d := row] == db.deliveries[d := row];
  }

  // ---------------------------------------------------------------------------
  // A lease that is granted

  lemma LeaseIsPlanned(db: Tables, d: Uuid, token: Uuid, now: int, tx: Tx)
    requires |tx.agenda| == 1 && tx.agenda[0].FinishLease? && tx.agenda[0].welcome
    requires tx.agenda[0].delivery == d && tx.agenda[0].token == Some(token) && tx.agenda[0].now == now
    requires d in db.deliveries && Attemptable(db.deliveries[d], now)
    ensures Plan(db, tx, Finish(HoldBack))
         == Some(OneDelivery(d, UnderLease(db.deliveries[d], token, now), [Leased(d, Some(token))]))
  {
    assert tx.agenda[1..] == [];
  }

  /** The test was made on some tables `db`, the lease is written over others. */
  lemma LeaseEnds(s: State, l: Uuid, db: Tables, d: Uuid, token: Uuid, now: int)
    requires l in s.txs && s.txs[l] == Testing(db, d, token, now) && s.locks == map[] && !Unwelcome(db, d)
    requires d in s.db.deliveries && Attemptable(s.db.deliveries[d], now)
    ensures var row := UnderLease(s.db.deliveries[d], token, now);
            Next(s, Do(l, Finish(HoldBack))) == Wrote(s, l, d, row, Leased(d, Some(token)))
    ensures Grants(s, l, d, Do(l, Finish(HoldBack)))
  {
    LeaseIsPlanned(s.db, d, token, now, s.txs[l]);
    WriteTakes(s, l, Finish(HoldBack), d, UnderLease(s.db.deliveries[d], token, now), Leased(d, Some(token)));
  }

  // ---------------------------------------------------------------------------
  // Consent lost between the test and the UPDATE

  lemma HoldersRun(s: State)
    requires Inv(s)
    ensures forall row :: row in s.locks ==> s.locks[row] in s.txs
  {
  }

  lemma HoldersRunAfter(s: State, steps: seq<Step>)
    requires Inv(s)
    ensures var t := Run(s, steps); forall row :: row in t.locks ==> t.locks[row] in t.txs.Keys
  {
    RunKeepsInv(s, steps);
    HoldersRun(Run(s, steps));
  }

  lemma NobodyHolds(s: State)
    requires Inv(s) && s.txs == map[]
    ensures s.locks == map[]
  {
    HoldersRun(s);
  }

  lemma OnlyTwoHold(locks: map<Row, Uuid>, w: Uuid, r: Uuid)
    requires forall row :: row in locks ==> locks[row] in {w, r}
    ensures Unlocked(Unlocked(locks, w), r) == map[]
  {
  }

  /** The withdrawal and the subscription have finished and nobody else holds a lock. */
  ghost predicate Poised(u: State, w: Uuid, r: Uuid, m: Uuid, c: Uuid, q: GrantRequest) {
    && w in u.txs && r in u.txs && w != r
    && Stands(u.db, c) && Holds(u.locks, Preferring(m), r) && Unlocked(Unlocked(u.locks, w), r) == map[]
    && u.txs[w] == Tx(WithdrawnRows(u.db, c), [], None, [])
    && u.txs[r] == Tx(SubscribedRows(m, c, q), [], None, [])
  }

  lemma RaceIsPoised(s: State, w: Uuid, r: Uuid, m: Uuid, c: Uuid, q: GrantRequest) returns (steps: seq<Step>)
    requires Inv(s) && s.txs == map[] && w != r
    requires Stands(s.db, c) && MembersOn(s.db, c) == {} && MaySubscribe(s.db, m, q)
    ensures NoCommits(steps)
    ensures var u := Run(s, steps); u.db == s.db && Poised(u, w, r, m, c, q) && u.txs.Keys == {w, r}
  {
    NobodyHolds(s);
    steps := BothBeginAndFinish(s, w, r, m, c, q);
    HoldersRunAfter(s, steps);
    OnlyTwoHold(Run(s, steps).locks, w, r);
  }

  lemma LeaseIsPoised(s: State, l: Uuid, w: Uuid, r: Uuid, m: Uuid, c: Uuid, d: Uuid, q: GrantRequest,
                      token: Uuid, now: int)
      returns (steps: seq<Step>)
    requires Inv(s) && s.txs == map[] && l != w && l != r && w != r
    requires Stands(s.db, c) && MembersOn(s.db, c) == {} && MaySubscribe(s.db, m, q)
    ensures NoCommits(steps)
    ensures var u := Run(s, steps);
            u.db == s.db && Poised(u, w, r, m, c, q) && l in u.txs && u.txs[l] == Testing(s.db, d, token, now)
  {
    var race := RaceIsPoised(s, w, r, m, c, q);
    var test := LeaseBegins(Run(s, race), l, d, token, now);
    steps := race + test;
    RunAppends(s, race, test);
  }

  /** The transaction grants the lease of a delivery that is unwelcome to it, and when it
      commits the delivery is under way, under that token and unwelcome. */
  ghost predicate UnwelcomeLease(t: State, l: Uuid, d: Uuid, token: Uuid) {
    var write := Do(l, Finish(HoldBack));
    var u := Next(Next(t, write), Commit(l));
    && l in t.txs && Grants(t, l, d, write) && Unwelcome(ViewOf(t, l), d)
    && Unwanted(u.db, d) && u.db.deliveries[d].status == Delivering && u.db.deliveries[d].lease == Some(token)
  }

  lemma AfterBothCommit(u: State, l: Uuid, w: Uuid, r: Uuid, m: Uuid, c: Uuid, q: GrantRequest)
    requires Poised(u, w, r, m, c, q) && l in u.txs && l != w && l != r
    ensures var t := Committed(Committed(u, w), r); t.locks == map[] && l in t.txs && t.txs[l] == u.txs[l]
  {
  }

  lemma PoisedRaces(u: State, w: Uuid, r: Uuid, m: Uuid, c: Uuid, d: Uuid, q: GrantRequest) returns (steps: seq<Step>)
    requires Cared(u) && Poised(u, w, r, m, c, q) && LiveFor(u.db, d, m)
    ensures var t := Run(u, steps);
            Unwanted(t.db, d) && t == Committed(Committed(u, w), r) && t.db.deliveries == u.db.deliveries
  {
    steps := RaceClashes(u, w, r, m, c, d, q);
  }

  lemma PoisedCommits(u: State, l: Uuid, w: Uuid, r: Uuid, m: Uuid, c: Uuid, d: Uuid, q: GrantRequest)
      returns (t: State, steps: seq<Step>)
    requires Cared(u) && Poised(u, w, r, m, c, q) && LiveFor(u.db, d, m) && l in u.txs && l != w && l != r
    ensures t == Run(u, steps)
    ensures Unwanted(t.db, d) && t.db.deliveries == u.db.deliveries && t.locks == map[]
    ensures l in t.txs && t.txs[l] == u.txs[l] && !Unwelcome(u.db, d)
  {
    NoneUnwanted(u, d);
    AfterBothCommit(u, l, w, r, m, c, q);
    steps := PoisedRaces(u, w, r, m, c, d, q);
    t := Run(u, steps);
  }

  lemma NoneUnwanted(u: State, d: Uuid)
    requires Cared(u)
    ensures !Unwanted(u.db, d)
  {
  }

  /** The lease tested on `db` is written where the delivery has become unwelcome. */
  lemma LeaseTakes(t: State, l: Uuid, db: Tables, d: Uuid, token: Uuid, now: int)
    requires l in t.txs && t.txs[l] == Testing(db, d, token, now) && t.locks == map[] && !Unwelcome(db, d)
    requires Unwanted(t.db, d) && Attemptable(t.db.deliveries[d], now)
    ensures UnwelcomeLease(t, l, d, token)
  {
    MergeNothing(t.db);
    LeaseEnds(t, l, db, d, token, now);
    WriteLands(t, l, d, UnderLease(t.db.deliveries[d], token, now), Leased(d, Some(token)));
  }

  lemma UnwelcomeLeaseTakes(u: State, l: Uuid, w: Uuid, r: Uuid, m: Uuid, c: Uuid, d: Uuid, q: GrantRequest,
                            token: Uuid, now: int)
      returns (steps: seq<Step>)
    requires Cared(u) && Poised(u, w, r, m, c, q) && LiveFor(u.db, d, m) && Attemptable(u.db.deliveries[d], now)
    requires l in u.txs && l != w && l != r && u.txs[l] == Testing(u.db, d, token, now)
    ensures UnwelcomeLease(Run(u, steps), l, d, token)
  {
    var t;
    t, steps := PoisedCommits(u, l, w, r, m, c, d, q);
    LeaseTakes(t, l, u.db, d, token, now);
  }

  /** From every quiet state that allows the race, for a delivery that is due. */
  lemma RaceGrantsLease(s: State, l: Uuid, w: Uuid, r: Uuid, m: Uuid, c: Uuid, d: Uuid, q: GrantRequest,
                        token: Uuid, now: int)
      returns (steps: seq<Step>)
    requires Cared(s) && s.txs == map[] && l != w && l != r && w != r
    requires LiveFor(s.db, d, m) && Attemptable(s.db.deliveries[d], now)
    requires Stands(s.db, c) && MembersOn(s.db, c) == {} && MaySubscribe(s.db, m, q)
    ensures UnwelcomeLease(Run(s, steps), l, d, token)
  {
    var poise := LeaseIsPoised(s, l, w, r, m, c, d, q, token, now);
    NoCommitsIsCalm(s, poise);
    CalmKeepsCared(s, poise);
    var commits := UnwelcomeLeaseTakes(Run(s, poise), l, w, r, m, c, d, q, token, now);
    steps := poise + commits;
    RunAppends(s, poise, commits);
  }

  const AGAIN := GrantRequest(10, SECOND_GRANT, 0)

  lemma InvitedMayRace()
    ensures var t := Invited();
            && LiveFor(t, 8, 5) && Stands(t, 2) && MembersOn(t, 2) == {} && MaySubscribe(t, 5, AGAIN)
            && Attemptable(t.deliveries[8], 0)
  {
    assert DueAt(0) == 0;
  }

  /** Such a lease is granted in a run from empty tables. */
  lemma UnwelcomeLeaseIsReached()
    ensures exists steps, l, d, token :: UnwelcomeLease(Run(INITIAL, steps), l, d, token)
  {
    var s, before := InvitedIsReached();
    InvitedMayRace();
    var race := RaceGrantsLease(s, 3, 1, 2, 5, 2, 8, AGAIN, 77, 0);
    RunAppends(INITIAL, before, race);
    assert UnwelcomeLease(Run(INITIAL, before + race), 3, 8, 77);
  }

  // ---------------------------------------------------------------------------
  // An accepted result that is overwritten

  lemma AloneClashesNot(s: State, id: Uuid)
    requires s.txs.Keys == {id}
    ensures !Clashes(s, id)
  {
  }

  lemma WriteKeepsCared(s: State, id: Uuid, move: Move, d: Uuid, row: Delivery, entry: Entry)
    requires Cared(s) && s.txs.Keys == {id} && Next(s, Do(id, move)) == Wrote(s, id, d, row, entry)
    ensures Cared(Next(Wrote(s, id, d, row, entry), Commit(id)))
  {
    DoKeepsCared(s, id, move);
    AloneClashesNot(Wrote(s, id, d, row, entry), id);
    CommitKeepsCared(Wrote(s, id, d, row, entry), id);
  }

  lemma LeaseBeginsCared(s: State, l: Uuid, d: Uuid, token: Uuid, now: int) returns (steps: seq<Step>)
    requires Cared(s) && l !in s.txs
    ensures Run(s, steps) == s.(txs := s.txs[l := Testing(s.db, d, token, now)]) && Cared(Run(s, steps))
  {
    steps := LeaseBegins(s, l, d, token, now);
    NoCommitsIsCalm(s, steps);
    CalmKeepsCared(s, steps);
  }

  lemma TestedLeaseRuns(u: State, l: Uuid, d: Uuid, token: Uuid, now: int) returns (t: State, steps: seq<Step>)
    requires Cared(u) && u.txs == map[l := Testing(u.db, d, token, now)] && u.locks == map[]
    requires d in u.db.deliveries && !Unwelcome(u.db, d) && Attemptable(u.db.deliveries[d], now)
    ensures t == Run(u, steps) && Cared(t) && t.txs == map[]
    ensures t.db == WithRow(u.db, d, UnderLease(u.db.deliveries[d], token, now))
  {
    var row, entry := UnderLease(u.db.deliveries[d], token, now), Leased(d, Some(token));
    LeaseEnds(u, l, u.db, d, token, now);
    WriteKeepsCared(u, l, Finish(HoldBack), d, row, entry);
    WriteLands(u, l, d, row, entry);
    steps := [Do(l, Finish(HoldBack)), Commit(l)];
    RunTwo(u, steps[0], steps[1]);
    t := Next(Wrote(u, l, d, row, entry), Commit(l));
  }

  /** A lease that nothing disturbs. */
  lemma LeaseRuns(s: State, l: Uuid, d: Uuid, token: Uuid, now: int) returns (t: State, steps: seq<Step>)
    requires Cared(s) && s.txs == map[] && d in s.db.deliveries && !Unwelcome(s.db, d)
    requires Attemptable(s.db.deliveries[d], now)
    ensures t == Run(s, steps) && Cared(t) && t.txs == map[]
    ensures t.db == WithRow(s.db, d, UnderLease(s.db.deliveries[d], token, now))
  {
    NobodyHolds(s);
    var begin := LeaseBeginsCared(s, l, d, token, now);
    var rest;
    t, rest := TestedLeaseRuns(Run(s, begin), l, d, token, now);
    RunAppends(s, begin, rest);
    steps := begin + rest;
  }

  function AcceptedRow(row: Delivery): Delivery {
    row.(status := Accepted, attempts := row.attempts + 1, nextAttempt := None, lease := None, leaseUntil := None)
  }

  lemma ReportIsPlanned(db: Tables, q: ResultRequest)
    requires HoldsLease(db, q) && q.result == AcceptedResult && q.messageRef && !q.errorCode
    requires 0 <= db.deliveries[q.delivery].attempts <= 2
    ensures Plan(db, IDLE, Start(Report(q)))
         == Some(OneDelivery(q.delivery, AcceptedRow(db.deliveries[q.delivery]), [Reported(q.delivery, q.token)]))
  {
  }

  /** A result reported and committed while nobody holds a lock. */
  lemma ReportRuns(s: State, p: Uuid, q: ResultRequest) returns (steps: seq<Step>)
    requires s.locks == map[] && p !in s.txs
    requires HoldsLease(s.db, q) && q.result == AcceptedResult && q.messageRef && !q.errorCode
    requires 0 <= s.db.deliveries[q.delivery].attempts <= 2
    ensures var row := AcceptedRow(s.db.deliveries[q.delivery]);
            Run(s, steps)
              == State(WithRow(s.db, q.delivery, row), map[], s.txs, s.log + [Reported(q.delivery, q.token)])
  {
    var u := s.(txs := s.txs[p := IDLE]);
    var d, row := q.delivery, AcceptedRow(s.db.deliveries[q.delivery]);
    BeginTakes(s, p);
    ReportIsPlanned(s.db, q);
    WriteTakes(u, p, Start(Report(q)), d, row, Reported(d, q.token));
    WriteLands(u, p, d, row, Reported(d, q.token));
    assert u.txs - {p} == s.txs;
    var write := Do(p, Start(Report(q)));
    RunTwo(u, write, Commit(p));
    RunOneThen(s, Begin(p), [write, Commit(p)]);
    steps := [Begin(p)] + [write, Commit(p)];
  }

  /** The delivery has an accepted result, nobody holds it, and yet further steps suppress it. */
  ghost predicate Overwritten(t: State, d: Uuid, more: seq<Step>) {
    && d in t.db.deliveries && t.db.deliveries[d].status == Accepted && Delivering_(d) !in t.locks
    && d in Run(t, more).db.deliveries && Run(t, more).db.deliveries[d].status == Suppressed
  }

  /** The first lease ran out before `now` plus 31 seconds. */
  predicate UnderFirstLease(row: Delivery, token: Uuid, now: int) {
    && row.status == Delivering && row.lease == Some(token) && row.leaseUntil == Some(now + 30 * SECOND)
    && row.nextAttempt.Some? && row.nextAttempt.value <= now && 0 <= row.attempts <= 2
  }

  lemma ResultLands(u: State, p: Uuid, d: Uuid, token: Uuid, now: int) returns (t: State, steps: seq<Step>)
    requires u.locks == map[] && p !in u.txs && d in u.db.deliveries && UnderFirstLease(u.db.deliveries[d], token, now)
    ensures t == Run(u, steps) && t.txs == u.txs && t.locks == map[]
    ensures d in t.db.deliveries && t.db.deliveries[d].status == Accepted
  {
    var q := ResultRequest(d, Some(token), AcceptedResult, true, false, now + 29 * SECOND);
    steps := ReportRuns(u, p, q);
    t := Run(u, steps);
  }

  lemma DropWillOverwrite(t: State, l: Uuid, db: Tables, d: Uuid, next: Uuid, now: int) returns (more: seq<Step>)
    requires Inv(t) && l in t.txs && t.txs[l] == Testing(db, d, next, now) && t.locks == map[]
    requires d in db.deliveries && Attemptable(db.deliveries[d], now) && Unwelcome(db, d)
    requires d in t.db.deliveries && t.db.deliveries[d].status == Accepted
    ensures Overwritten(t, d, more)
  {
    more := PendingDropOverwrites(t, d, l);
  }

  /** A second lease call found an expired lease and no consent; then the result of the
      first arrives, its statement having begun before that lease ran out. */
  lemma ResultUnderDrop(s: State, l: Uuid, p: Uuid, d: Uuid, token: Uuid, next: Uuid, now: int)
      returns (steps: seq<Step>, more: seq<Step>)
    requires Inv(s) && s.txs == map[] && l != p && Unwanted(s.db, d) && UnderFirstLease(s.db.deliveries[d], token, now)
    ensures Overwritten(Run(s, steps), d, more)
  {
    NobodyHolds(s);
    var test := LeaseBegins(s, l, d, next, now + 31 * SECOND);
    var t, result := ResultLands(Run(s, test), p, d, token, now);
    steps := test + result;
    RunAppends(s, test, result);
    RunKeepsInv(s, steps);
    more := DropWillOverwrite(t, l, s.db, d, next, now + 31 * SECOND);
  }

  lemma LeasedMayRace(db: Tables, m: Uuid, c: Uuid, d: Uuid, q: GrantRequest, row: Delivery)
    requires LiveFor(db, d, m) && Stands(db, c) && MembersOn(db, c) == {} && MaySubscribe(db, m, q)
    requires Live(row) && row.notification == db.deliveries[d].notification
    ensures var t := WithRow(db, d, row);
            LiveFor(t, d, m) && Stands(t, c) && MembersOn(t, c) == {} && MaySubscribe(t, m, q)
  {
  }

  /** From every quiet state that allows the race, for a delivery that is due and has been
      tried less than three times: leased, its consent lost in the race, a second lease
      call testing it, the result accepted, and the second call writing. */
  lemma RaceOverwritesResult(s: State, l: Uuid, w: Uuid, r: Uuid, m: Uuid, c: Uuid, d: Uuid, q: GrantRequest,
                             token: Uuid, next: Uuid, now: int)
      returns (steps: seq<Step>, more: seq<Step>)
    requires Cared(s) && s.txs == map[] && w != r
    requires LiveFor(s.db, d, m) && Attemptable(s.db.deliveries[d], now) && s.db.deliveries[d].attempts <= 2
    requires Stands(s.db, c) && MembersOn(s.db, c) == {} && MaySubscribe(s.db, m, q)
    ensures Overwritten(Run(s, steps), d, more)
  {
    var row := UnderLease(s.db.deliveries[d], token, now);
    assert !Unwanted(s.db, d) && RowShape(s.db.deliveries[d]);
    var t, lease := LeaseRuns(s, l, d, token, now);
    LeasedMayRace(s.db, m, c, d, q, row);
    var race := RaceLeavesUnwanted(t, w, r, m, c, d, q);
    var u := Run(t, race);
    RunKeepsInv(t, race);
    var result, drop := ResultUnderDrop(u, w, r, d, token, next, now);
    steps, more := lease + race + result, drop;
    RunAppends(s, lease, race);
    RunAppends(s, lease + race, result);
  }

  /** An accepted result is overwritten in a run from empty tables. */
  lemma AcceptedIsOverwritten()
    ensures exists steps, more, d :: Overwritten(Run(INITIAL, steps), d, more)
  {
    var s, before := InvitedIsReached();
    InvitedMayRace();
    var steps, more := RaceOverwritesResult(s, 3, 1, 2, 5, 2, 8, AGAIN, 77, 78, 0);
    RunAppends(INITIAL, before, steps);
    assert Overwritten(Run(INITIAL, before + steps), 8, more);
  }
}
