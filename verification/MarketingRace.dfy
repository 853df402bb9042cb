/** The race between a withdrawal and a subscription, run: from every quiet state in which
    a member with a live delivery could subscribe under another standing consent. */
module MarketingRace {
  import opened Sql
  import opened MarketingAuthority
  import opened MarketingLaws
  import opened MarketingProtocol
  import opened MarketingMoves
  import opened MarketingRuns
  import opened MarketingConsent

  const IDLE := Tx(EMPTY, [], None, [])

  lemma MovedFromIdle(e: Effect)
    requires e.entries == []
    ensures Moved(IDLE, e) == Tx(e.delta, e.agenda, e.snap, [])
  {
    MergeOntoNothing(e.delta);
    assert IDLE.log + e.entries == [];
  }

  predicate NoCommits(steps: seq<Step>) {
    forall i :: 0 <= i < |steps| ==> !steps[i].Commit?
  }

  lemma Takes(s: State, id: Uuid, move: Move, e: Effect)
    requires id in s.txs && Plan(ViewOf(s, id), s.txs[id], move) == Some(e) && Lockable(s.locks, e.locks, id)
    ensures Next(s, Do(id, move)) == Advanced(s, id, e)
  {
  }

  /** A sweep over nobody writes nothing. */
  lemma NobodySwept(v: Tables, task: Task)
    requires Sweep(task) && Members(v, task.whose) == {}
    ensures Sweeping(v, task, v) == Rest([])
  {
    match task
    case SuppressLive(whose) => assert LiveTargets(v, v, whose) == {};
    case SuppressIdle(whose) => assert IdleTargets(v, v, whose) == {};
    case RevokeGrants(whose) => assert OpenTargets(v, v, whose) == {};
  }

  function Popped(tx: Tx): Tx
    requires tx.agenda != []
  {
    tx.(agenda := tx.agenda[1..], snap := None)
  }

  lemma NothingMoved(s: State, id: Uuid, agenda: seq<Task>, snap: Option<Tables>)
    requires id in s.txs
    ensures Advanced(s, id, Rest(agenda).(snap := snap))
        == s.(txs := s.txs[id := s.txs[id].(agenda := agenda, snap := snap)])
  {
    MergeNothing(s.txs[id].rows);
    assert s.txs[id].log + [] == s.txs[id].log;
    assert Locked(s.locks, {}, id) == s.locks;
  }

  lemma LookTakes(s: State, id: Uuid) returns (step: Step)
    requires id in s.txs && s.txs[id].agenda != [] && s.txs[id].snap.None? && Sweep(s.txs[id].agenda[0])
    ensures !step.Commit? && Next(s, step) == s.(txs := s.txs[id := s.txs[id].(snap := Some(ViewOf(s, id)))])
  {
    step := Do(id, Look);
    NothingMoved(s, id, s.txs[id].agenda, Some(ViewOf(s, id)));
  }

  lemma EmptyFinishTakes(s: State, id: Uuid) returns (step: Step)
    requires id in s.txs && s.txs[id].agenda != [] && s.txs[id].snap == Some(ViewOf(s, id))
    requires Sweep(s.txs[id].agenda[0]) && Members(ViewOf(s, id), s.txs[id].agenda[0].whose) == {}
    ensures !step.Commit? && Next(s, step) == s.(txs := s.txs[id := Popped(s.txs[id])])
  {
    NobodySwept(ViewOf(s, id), s.txs[id].agenda[0]);
    step := Do(id, Finish(HoldBack));
    Takes(s, id, step.move, Rest(s.txs[id].agenda[1..]));
    NothingMoved(s, id, s.txs[id].agenda[1..], None);
  }

  lemma SweepOverNobody(s: State, id: Uuid) returns (steps: seq<Step>)
    requires id in s.txs && s.txs[id].agenda != [] && s.txs[id].snap.None?
    requires Sweep(s.txs[id].agenda[0]) && Members(ViewOf(s, id), s.txs[id].agenda[0].whose) == {}
    ensures Run(s, steps) == s.(txs := s.txs[id := Popped(s.txs[id])])
    ensures NoCommits(steps)
  {
    var look := LookTakes(s, id);
    var u := s.(txs := s.txs[id := s.txs[id].(snap := Some(ViewOf(s, id)))]);
    assert ViewOf(u, id) == ViewOf(s, id);
    var finish := EmptyFinishTakes(u, id);
    RunTwo(s, look, finish);
    steps := [look, finish];
    assert u.txs[id := Popped(u.txs[id])] == s.txs[id := Popped(s.txs[id])];
  }

  lemma {:induction false} NoCommitsIsCalm(s: State, steps: seq<Step>)
    requires NoCommits(steps)
    ensures Calm(s, steps)
    decreases |steps|
  {
    if steps != [] {
      NoCommitsIsCalm(Next(s, steps[0]), steps[1..]);
    }
  }

  // ---------------------------------------------------------------------------
  // Withdrawing a consent nobody rests on

  function Off(c: Consent): Consent {
    c.(granted := false, withdrawn := true)
  }

  function WithdrawnRows(db: Tables, c: Uuid): Tables
    requires c in db.consents
  {
    EMPTY.(consents := map[c := Off(db.consents[c])])
  }

  lemma WithdrawalOpens(s: State, w: Uuid, c: Uuid) returns (u: State, step: Step)
    requires w in s.txs && s.txs[w] == IDLE && Stands(s.db, c) && Consenting(c) !in s.locks
    ensures u == Next(s, step) && !step.Commit?
    ensures var agenda := [RevokeGrants(OnConsent(c)), SuppressLive(OnConsent(c))];
            u == s.(locks := Locked(s.locks, {Consenting(c)}, w),
                    txs := s.txs[w := Tx(WithdrawnRows(s.db, c), agenda, None, [])])
  {
    MergeNothing(s.db);
    var agenda := [RevokeGrants(OnConsent(c)), SuppressLive(OnConsent(c))];
    var e := Effect(WithdrawnRows(s.db, c), {Consenting(c)}, agenda, None, []);
    step := Do(w, Start(ChangeConsent(c, false, true)));
    Takes(s, w, step.move, e);
    MovedFromIdle(e);
    u := Advanced(s, w, e);
  }

  lemma OntoNothing<K, V>(a: map<K, V>)
    ensures map[] + a == a
  {
  }

  lemma MergeOntoNothing(rows: Tables)
    ensures Merge(EMPTY, rows) == rows
  {
    OntoNothing(rows.notifications);
    OntoNothing(rows.deliveries);
    OntoNothing(rows.grants);
    OntoNothing(rows.preferences);
    OntoNothing(rows.consents);
  }

  lemma SweepTwice(s: State, id: Uuid, rows: Tables, first: Task, second: Task) returns (steps: seq<Step>)
    requires id in s.txs && s.txs[id] == Tx(rows, [first, second], None, [])
    requires Sweep(first) && Sweep(second)
    requires Members(ViewOf(s, id), first.whose) == {} && Members(ViewOf(s, id), second.whose) == {}
    ensures NoCommits(steps) && Run(s, steps) == s.(txs := s.txs[id := Tx(rows, [], None, [])])
  {
    var front := SweepOverNobody(s, id);
    assert [first, second][1..] == [second];
    var u := s.(txs := s.txs[id := Tx(rows, [second], None, [])]);
    assert Run(s, front) == u && ViewOf(u, id) == ViewOf(s, id);
    var back := SweepOverNobody(u, id);
    assert [second][1..] == [];
    assert u.txs[id := Tx(rows, [], None, [])] == s.txs[id := Tx(rows, [], None, [])];
    RunAppends(s, front, back);
    steps := front + back;
  }

  lemma WithdrawalRuns(s: State, w: Uuid, c: Uuid) returns (steps: seq<Step>)
    requires w in s.txs && s.txs[w] == IDLE && Stands(s.db, c) && Consenting(c) !in s.locks && MembersOn(s.db, c) == {}
    ensures NoCommits(steps)
    ensures Run(s, steps) == s.(locks := Locked(s.locks, {Consenting(c)}, w),
                                txs := s.txs[w := Tx(WithdrawnRows(s.db, c), [], None, [])])
  {
    var rows := WithdrawnRows(s.db, c);
    var u, open := WithdrawalOpens(s, w, c);
    NobodyRests(s.db, rows, c);
    var sweeps := SweepTwice(u, w, rows, RevokeGrants(OnConsent(c)), SuppressLive(OnConsent(c)));
    steps := [open] + sweeps;
    RunOneThen(s, open, sweeps);
    assert u.txs[w := Tx(rows, [], None, [])] == s.txs[w := Tx(rows, [], None, [])];
  }

  lemma RunOneThen(s: State, step: Step, rest: seq<Step>)
    ensures Run(s, [step] + rest) == Run(Next(s, step), rest)
  {
    assert ([step] + rest)[1..] == rest;
  }

  lemma NobodyRests(db: Tables, rows: Tables, c: Uuid)
    requires MembersOn(db, c) == {} && rows.preferences == map[]
    ensures MembersOn(Merge(db, rows), c) == {}
  {
    OverNothing(db.preferences);
  }

  // ---------------------------------------------------------------------------
  // Subscribing under that consent

  function SubscribedRows(m: Uuid, c: Uuid, q: GrantRequest): Tables {
    EMPTY.(preferences := map[m := Preference(true, Some(c))], grants := map[q.id := q.grant])
  }

  predicate MaySubscribe(db: Tables, m: Uuid, q: GrantRequest) {
    && m in db.preferences && q.grant.membership == m && q.grant.purpose == Marketing && GrantFits(q)
        && q.id !in db.grants
    && forall g :: g in db.grants ==> db.grants[g].reference != q.grant.reference
  }

  lemma SubscriptionOpens(s: State, r: Uuid, m: Uuid, c: Uuid, q: GrantRequest)
      returns (u: State, steps: seq<Step>)
    requires r in s.txs && s.txs[r] == IDLE && Stands(s.db, c) && MaySubscribe(s.db, m, q) && Preferring(m) !in s.locks
    ensures u == Run(s, steps) && NoCommits(steps)
    ensures u == s.(locks := Locked(s.locks, {Preferring(m)}, r),
                    txs := s.txs[r := IDLE.(agenda := [FinishSubscribe(m, c, q)])])
  {
    MergeNothing(s.db);
    var e := Effect(EMPTY, {Preferring(m)}, [FinishSubscribe(m, c, q)], None, []);
    Takes(s, r, Start(Subscribe(m, c, q)), e);
    MovedFromIdle(e);
    u, steps := Advanced(s, r, e), [Do(r, Start(Subscribe(m, c, q)))];
    RunOne(s, steps[0]);
  }

  lemma SubscriptionCloses(s: State, r: Uuid, m: Uuid, c: Uuid, q: GrantRequest)
      returns (u: State, steps: seq<Step>)
    requires r in s.txs && s.txs[r] == IDLE.(agenda := [FinishSubscribe(m, c, q)]) && MaySubscribe(s.db, m, q)
    requires Lockable(s.locks, SubscriptionLocks(m, q), r)
    ensures u == Run(s, steps) && NoCommits(steps)
    ensures u == s.(locks := Locked(s.locks, SubscriptionLocks(m, q), r),
                    txs := s.txs[r := Tx(SubscribedRows(m, c, q), [], None, [])])
  {
    MergeNothing(s.db);
    var e := Effect(SubscribedRows(m, c, q), SubscriptionLocks(m, q), [], None, []);
    assert AddGrant(s.db, q) == Some(s.db.(grants := s.db.grants[q.id := q.grant]));
    assert q.id in s.db.(grants := s.db.grants[q.id := q.grant]).grants;
    assert s.txs[r].agenda[1..] == [];
    Takes(s, r, Finish(HoldBack), e);
    MergeOntoNothing(e.delta);
    assert IDLE.log + e.entries == [];
    u, steps := Advanced(s, r, e), [Do(r, Finish(HoldBack))];
    RunOne(s, steps[0]);
  }

  function SubscriptionLocks(m: Uuid, q: GrantRequest): set<Row> {
    {Preferring(m), Granting(q.id), Referring(q.grant.reference)}
  }

  lemma SubscriptionRuns(s: State, r: Uuid, m: Uuid, c: Uuid, q: GrantRequest) returns (steps: seq<Step>)
    requires r in s.txs && s.txs[r] == IDLE && Stands(s.db, c) && MaySubscribe(s.db, m, q)
    requires forall row :: row in SubscriptionLocks(m, q) ==> row !in s.locks
    ensures NoCommits(steps)
    ensures var t := Run(s, steps);
            && t.db == s.db && t.txs == s.txs[r := Tx(SubscribedRows(m, c, q), [], None, [])]
            && Holds(t.locks, Preferring(m), r)
  {
    var u, open := SubscriptionOpens(s, r, m, c, q);
    StillLockable(s.locks, m, q, r);
    var t, close := SubscriptionCloses(u, r, m, c, q);
    RunAppends(s, open, close);
    steps := open + close;
  }

  lemma StillLockable(locks: map<Row, Uuid>, m: Uuid, q: GrantRequest, r: Uuid)
    requires forall row :: row in SubscriptionLocks(m, q) ==> row !in locks
    ensures var once := Locked(locks, {Preferring(m)}, r);
            Lockable(once, SubscriptionLocks(m, q), r)
                && Holds(Locked(once, SubscriptionLocks(m, q), r), Preferring(m), r)
  {
  }

  // ---------------------------------------------------------------------------
  // Both, and what a lease then finds

  lemma BothBegin(s: State, w: Uuid, r: Uuid) returns (steps: seq<Step>)
    requires s.txs == map[] && w != r
    ensures NoCommits(steps) && Run(s, steps) == s.(txs := map[w := IDLE, r := IDLE])
  {
    steps := [Begin(w), Begin(r)];
    RunTwo(s, Begin(w), Begin(r));
  }

  lemma BeginAndWithdraw(s: State, w: Uuid, r: Uuid, c: Uuid) returns (steps: seq<Step>)
    requires s.txs == map[] && s.locks == map[] && w != r && Stands(s.db, c) && MembersOn(s.db, c) == {}
    ensures NoCommits(steps)
    ensures Run(s, steps) == s.(locks := Locked(map[], {Consenting(c)}, w),
                                txs := map[w := Tx(WithdrawnRows(s.db, c), [], None, []), r := IDLE])
  {
    var begin := BothBegin(s, w, r);
    var s1 := s.(txs := map[w := IDLE, r := IDLE]);
    var withdraw := WithdrawalRuns(s1, w, c);
    RunAppends(s, begin, withdraw);
    steps := begin + withdraw;
  }

  lemma BothBeginAndFinish(s: State, w: Uuid, r: Uuid, m: Uuid, c: Uuid, q: GrantRequest) returns (steps: seq<Step>)
    requires s.txs == map[] && s.locks == map[] && w != r
    requires Stands(s.db, c) && MembersOn(s.db, c) == {} && MaySubscribe(s.db, m, q)
    ensures NoCommits(steps)
    ensures var u := Run(s, steps);
            && u.db == s.db && u.txs.Keys == {w, r} && Holds(u.locks, Preferring(m), r)
            && u.txs[w] == Tx(WithdrawnRows(u.db, c), [], None, [])
            && u.txs[r] == Tx(SubscribedRows(m, c, q), [], None, [])
  {
    var withdraw := BeginAndWithdraw(s, w, r, c);
    var subscribe := SubscriptionRuns(Run(s, withdraw), r, m, c, q);
    RunAppends(s, withdraw, subscribe);
    steps := withdraw + subscribe;
  }

  lemma RowsClash(u: State, w: Uuid, r: Uuid, m: Uuid, c: Uuid, d: Uuid, q: GrantRequest)
    requires Cared(u) && w in u.txs && r in u.txs && w != r && Stands(u.db, c) && LiveFor(u.db, d, m)
    requires u.txs[w] == Tx(WithdrawnRows(u.db, c), [], None, [])
        && u.txs[r] == Tx(SubscribedRows(m, c, q), [], None, [])
    requires Holds(u.locks, Preferring(m), r)
    ensures var t := Merge(Merge(u.db, u.txs[w].rows), u.txs[r].rows);
            Unwanted(t, d) && t.deliveries == u.db.deliveries
  {
    var t := Merge(Merge(u.db, u.txs[w].rows), u.txs[r].rows);
    OverNothing(u.db.notifications);
    OverNothing(u.db.deliveries);
    assert LiveFor(t, d, m);
    assert DependsOn(ViewOf(u, r), Held(u.locks, r), [], m, c) && TakesAway(u.db, u.txs[w].rows, c);
    assert ClashOver(u, w, r, t, m, c, d);
    ClashingIsUnwanted(u, w, r, m, c, d);
  }

  lemma CommitBoth(u: State, w: Uuid, r: Uuid) returns (t: State, steps: seq<Step>)
    requires w in u.txs && r in u.txs && w != r && u.txs[w].agenda == [] && u.txs[r].agenda == []
    ensures t == Run(u, steps) && t == Committed(Committed(u, w), r)
    ensures t.db == Merge(Merge(u.db, u.txs[w].rows), u.txs[r].rows)
  {
    CommitTakes(u, w);
    CommitTakes(Committed(u, w), r);
    t, steps := Committed(Committed(u, w), r), [Commit(w), Commit(r)];
    RunTwo(u, Commit(w), Commit(r));
  }

  lemma RaceClashes(u: State, w: Uuid, r: Uuid, m: Uuid, c: Uuid, d: Uuid, q: GrantRequest) returns (steps: seq<Step>)
    requires Cared(u) && w in u.txs && r in u.txs && w != r && Stands(u.db, c) && LiveFor(u.db, d, m)
    requires u.txs[w] == Tx(WithdrawnRows(u.db, c), [], None, [])
        && u.txs[r] == Tx(SubscribedRows(m, c, q), [], None, [])
    requires Holds(u.locks, Preferring(m), r)
    ensures Unwanted(Run(u, steps).db, d) && Run(u, steps) == Committed(Committed(u, w), r)
    ensures Run(u, steps).db.deliveries == u.db.deliveries
  {
    RowsClash(u, w, r, m, c, d, q);
    var t;
    t, steps := CommitBoth(u, w, r);
  }

  /** From any committed state without a live unwelcome delivery and without running
      transactions: a member with a live delivery who may subscribe under another standing
      consent that nobody rests on, and a withdrawal of that consent meanwhile, end in
      that delivery being live and unwelcome. */
  lemma RaceLeavesUnwanted(s: State, w: Uuid, r: Uuid, m: Uuid, c: Uuid, d: Uuid, q: GrantRequest)
      returns (steps: seq<Step>)
    requires Cared(s) && s.txs == map[] && w != r
    requires LiveFor(s.db, d, m) && Stands(s.db, c) && MembersOn(s.db, c) == {} && MaySubscribe(s.db, m, q)
    ensures Unwanted(Run(s, steps).db, d)
    ensures Run(s, steps).txs == map[] && Run(s, steps).db.deliveries == s.db.deliveries
  {
    assert s.locks == map[];
    var before := BothBeginAndFinish(s, w, r, m, c, q);
    NoCommitsIsCalm(s, before);
    CalmKeepsCared(s, before);
    var commits := RaceClashes(Run(s, before), w, r, m, c, d, q);
    steps := before + commits;
    RunAppends(s, before, commits);
  }

  // ---------------------------------------------------------------------------
  // From empty tables

  const GIVEN := Consent(true, true, false)
  const FIRST_GRANT := Grant(5, "invite", Marketing, "first", GrantStatus.Available, 0, HOUR)
  const SECOND_GRANT := Grant(5, "invite", Marketing, "second", GrantStatus.Available, 0, HOUR)
  const INVITE := CreateRequest(5, Happening("shop", "order", 1, "repurchase_invite"), 7, 8, "invite", 0)

  /** One transaction over empty tables, with its rows and what is left of its call. */
  ghost predicate Alone(s: State, rows: Tables, agenda: seq<Task>) {
    && s.db == EMPTY && s.txs == map[0 := Tx(rows, agenda, None, [])]
    && forall row :: row in s.locks ==> s.locks[row] == 0
  }

  lemma MoveAlone(s: State, rows: Tables, agenda: seq<Task>, move: Move, e: Effect, after: Tables)
      returns (t: State, steps: seq<Step>)
    requires Alone(s, rows, agenda) && Plan(rows, Tx(rows, agenda, None, []), move) == Some(e)
    requires e.entries == [] && e.snap.None? && after == Merge(rows, e.delta)
    ensures t == Run(s, steps) && NoCommits(steps) && Alone(t, after, e.agenda)
  {
    MergeOntoNothing(rows);
    Takes(s, 0, move, e);
    t, steps := Advanced(s, 0, e), [Do(0, move)];
    RunOne(s, steps[0]);
    assert s.txs[0].log + e.entries == [];
    assert t.txs == map[0 := Tx(after, e.agenda, None, [])];
  }

  function Consented(ids: set<Uuid>): Tables {
    EMPTY.(consents := map c | c in ids :: GIVEN)
  }

  lemma ConsentAlone(s: State, ids: set<Uuid>, c: Uuid) returns (t: State, steps: seq<Step>)
    requires Alone(s, Consented(ids), []) && c !in ids
    ensures t == Run(s, steps) && NoCommits(steps) && Alone(t, Consented(ids + {c}), [])
  {
    var e := Rest([]).(delta := EMPTY.(consents := map[c := GIVEN]), locks := {Consenting(c)});
    var v, w := Consented(ids), Consented(ids + {c});
    assert v.consents + map[c := GIVEN] == w.consents;
    MergeNothing(v);
    assert Merge(v, e.delta) == w;
    t, steps := MoveAlone(s, v, [], Start(NewConsent(c, GIVEN)), e, w);
  }

  /** Two standing consents, and the member subscribed under the first. */
  function Subscribed(): Tables {
    Consented({1, 2}).(preferences := map[5 := Preference(true, Some(1))], grants := map[9 := FIRST_GRANT])
  }

  lemma SubscribeFirst(s: State) returns (t: State, steps: seq<Step>)
    requires Alone(s, Consented({1, 2}), [])
    ensures t == Run(s, steps) && NoCommits(steps) && Alone(t, Subscribed(), [])
  {
    var q := GrantRequest(9, FIRST_GRANT, 0);
    var v := Consented({1, 2});
    var task := FinishSubscribe(5, 1, q);
    var off := v.(preferences := map[5 := Preference(false, None)]);
    var e := Effect(EMPTY.(preferences := map[5 := Preference(false, None)]), {Preferring(5)}, [task], None, []);
    PreferenceOver(v, map[], 5, Preference(false, None));
    var u, first := MoveAlone(s, v, [], Start(Subscribe(5, 1, q)), e, off);
    var rows := EMPTY.(preferences := map[5 := Preference(true, Some(1))], grants := map[9 := FIRST_GRANT]);
    var f := Rest([]).(delta := rows, locks := {Preferring(5), Granting(9), Referring("first")});
    FirstGrantFits(off, q);
    assert [task][1..] == [];
    MergeNothing(off);
    assert off.preferences + f.delta.preferences == Subscribed().preferences;
    assert off.grants + f.delta.grants == Subscribed().grants;
    var w, second := MoveAlone(u, off, [task], Finish(HoldBack), f, Subscribed());
    RunAppends(s, first, second);
    t, steps := w, first + second;
  }

  lemma FirstGrantFits(v: Tables, q: GrantRequest)
    requires v.grants == map[] && q == GrantRequest(9, FIRST_GRANT, 0)
    ensures AddGrant(v, q) == Some(v.(grants := map[9 := FIRST_GRANT])) && v.(grants := map[9 := FIRST_GRANT]) != v
  {
    assert v.grants[9 := FIRST_GRANT] == map[9 := FIRST_GRANT];
    assert 9 in v.(grants := map[9 := FIRST_GRANT]).grants;
  }

  lemma PreferenceOver(v: Tables, preferences: map<Uuid, Preference>, m: Uuid, row: Preference)
    requires v.preferences == preferences && preferences == map[]
    ensures Merge(v, EMPTY.(preferences := map[m := row])) == v.(preferences := map[m := row])
  {
    MergeNothing(v);
    OntoNothing(map[m := row]);
  }

  /** The invitation pending under the first consent. */
  function Invited(): Tables {
    Subscribed().(notifications := map[7 := Notification(5, Marketing, INVITE.happening)],
                  deliveries := map[8 := Delivery(7, Some(9), Pending, 0, Some(DueAt(0)), None, None, 0)],
                  grants := map[9 := FIRST_GRANT.(status := Consumed)])
  }

  lemma InviteFirst(s: State) returns (t: State, steps: seq<Step>)
    requires Alone(s, Subscribed(), [])
    ensures t == Run(s, steps) && NoCommits(steps) && Alone(t, Invited(), [])
  {
    var v := Subscribed();
    var task := FinishCreate(INVITE);
    var e := Rest([task]).(locks := {Preferring(5)});
    MergeNothing(v);
    assert MayMarket(v, 5);
    var u, first := MoveAlone(s, v, [], Start(Create(INVITE)), e, v);
    InviteEnds(v);
    var f := ClosingCreate(v, INVITE, Use(9)).value;
    assert [task][1..] == [];
    EndingInserts(v, INVITE, Use(9));
    InsertionMerges(v, Invited(), 7, 8);
    var w, second := MoveAlone(u, v, [task], Finish(Use(9)), f, Invited());
    RunAppends(s, first, second);
    t, steps := w, first + second;
  }

  lemma InviteEnds(v: Tables)
    requires v == Subscribed()
    ensures !MarketingAuthority.Known(v, INVITE.happening) && !Collides(v, INVITE)
    ensures Ending(v, INVITE, Use(9)) == Some(Invited())
  {
    assert OnDay(v, 5, LocalDay(0)) == {} && After(v, 5, 0 - WEEK) == {};
    assert v.notifications[7 := Invited().notifications[7]] == Invited().notifications;
    assert v.deliveries[8 := Invited().deliveries[8]] == Invited().deliveries;
    assert v.grants[9 := FIRST_GRANT.(status := Consumed)] == Invited().grants;
  }

  /** Nobody is there to disagree with the only transaction. */
  lemma AloneCommits(s: State, rows: Tables) returns (t: State, steps: seq<Step>)
    requires Alone(s, rows, [])
    ensures t == Run(s, steps) && Calm(s, steps) && t.db == rows && t.txs == map[]
  {
    MergeOntoNothing(rows);
    CommitTakes(s, 0);
    steps := [Commit(0)];
    RunOne(s, Commit(0));
    t := Committed(s, 0);
    assert steps[1..] == [] && Calm(Next(s, Commit(0)), []);
    assert !Clashes(s, 0);
  }

  lemma BeginAlone() returns (t: State, steps: seq<Step>)
    ensures t == Run(INITIAL, steps) && NoCommits(steps) && Alone(t, Consented({}), [])
  {
    steps := [Begin(0)];
    RunOne(INITIAL, Begin(0));
    t := Next(INITIAL, Begin(0));
    assert Consented({}).consents == map[];
  }

  lemma InvitationRuns() returns (t: State, steps: seq<Step>)
    ensures t == Run(INITIAL, steps) && NoCommits(steps) && Alone(t, Invited(), [])
  {
    var s0, begin := BeginAlone();
    var none: set<Uuid> := {};
    assert none + {1} == {1} && {1} + {2} == {1, 2};
    var s1, first := ConsentAlone(s0, none, 1);
    var s2, second := ConsentAlone(s1, {1}, 2);
    var s3, subscribe := SubscribeFirst(s2);
    var s4, invite := InviteFirst(s3);
    RunAppends(INITIAL, begin, first);
    RunAppends(INITIAL, begin + first, second);
    RunAppends(INITIAL, begin + first + second, subscribe);
    RunAppends(INITIAL, begin + first + second + subscribe, invite);
    t, steps := s4, begin + first + second + subscribe + invite;
  }

  lemma InvitedIsReached() returns (t: State, steps: seq<Step>)
    ensures t == Run(INITIAL, steps) && Cared(t) && t.db == Invited() && t.txs == map[]
  {
    var s, before := InvitationRuns();
    InitialCared();
    NoCommitsIsCalm(INITIAL, before);
    CalmKeepsCared(INITIAL, before);
    var u, commit := AloneCommits(s, Invited());
    CalmKeepsCared(s, commit);
    RunAppends(INITIAL, before, commit);
    t, steps := u, before + commit;
  }

  /** The race is reached from empty tables: two consents are given, the member subscribes
      under the first and is invited, and then subscribes under the second while that one
      is withdrawn. */
  lemma RaceIsReached()
    ensures exists steps :: Unwanted(Run(INITIAL, steps).db, 8)
  {
    var s, before := InvitedIsReached();
    assert LiveFor(s.db, 8, 5) && Stands(s.db, 2);
    assert MembersOn(s.db, 2) == {};
    var q := GrantRequest(10, SECOND_GRANT, 0);
    assert MaySubscribe(s.db, 5, q);
    var race := RaceLeavesUnwanted(s, 1, 2, 5, 2, 8, q);
    RunAppends(INITIAL, before, race);
    var steps := before + race;
    assert Unwanted(Run(INITIAL, steps).db, 8);
  }
}
