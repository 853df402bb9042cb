# Verified model of the tenant authority functions

This project models the PL/pgSQL logic that the database migrations of the
repository install (trigger guards, deferred constraint triggers and the
`*_authority` functions) and proves properties of it over every state, every run and
every interleaving. `dafny verify dfyconfig.toml` checks all of it.

Tables are finite maps keyed by primary key (a unique column is sometimes the key),
nullable columns are `Option`, and an SQL condition over nullable columns has three
truth values, of which only "true" takes an `IF` branch (`Sql.dfy`). Each component
has a specification on values, laws about it, a module of outcomes (what each
request is accepted on and what it leaves, written out on the rows), and a class that runs
the same function statement by statement against mutable tables and is proved equal to
the specification.

| Component | Files | What it covers |
|---|---|---|
| Tenant governance | `Forest`, `TenantGovernance`, `GovernanceOutcomes`, `GovernanceChecks` | Transactions with uncommitted rows, tenant row locks and deferred checks evaluated one at a time at commit, while other transactions run |
| Coupon authority | `CouponAuthority`, `CouponLaws`, `CouponOutcomes`, `CouponTables` | Rules, coupons, event log and idempotency keys, the authority functions and the independent CHECKs and transition triggers |
| Code delivery and recall | `CodeDelivery`, `CodeLaws`, `CodeProtocol`, `CodeRuns`, `CodeActivation`, `CodeStages`, `CodeOutcomes`, `CodeTables` | The guards of batches, items, receipts and manifests; transactions holding shared and exclusive row locks while recalls freeze items |
| Membership identity and merge | `MembershipAuthority`, `MembershipLaws`, `MembershipRuns`, `MembershipOutcomes`, `MembershipTables` | Join, bind, recover and merge; merge edges as union-find |
| Marketing delivery | `MarketingAuthority`, `MarketingLaws`, `MarketingTables`, `MarketingProtocol`, `MarketingMoves`, `MarketingRuns`, `MarketingConsent`, `MarketingRace`, `MarketingLease`, `MarketingReach`, `MarketingSerial`, `MarketingOutcomes` | Frequency caps, single-use grants, leases, retries, opt-out and withdrawal; calls as transactions that pause between their statements while others run |
| Governance migration | `AssociationBackfill`, `BackfillOutcomes`, `OnlineCatalog`, `CatalogLaws`, `CatalogOutcomes`, `CatalogUpgrade` | Batched backfill beside running writers; restartable catalog changes under crashes |

## Findings

Behaviour of the code that differs from what its constraints or comments suggest, each
stated as a lemma:

- The deferred hierarchy check uses the parent a row had when the check was queued, so it
  refuses some commits whose final organization tree is acyclic
  (`TenantGovernance.SupersededPlacementRefusesTree`, exact condition in
  `TenantGovernance.HierarchyChecksExact`).
- The order reference protects a coupon only when both references are known: a release,
  reversal or partial refund naming no order is accepted, and so is a reversal or refund
  of a store redemption naming any order (`CouponLaws.OrderActionsAcceptedIff`). The
  minimum spend is tested if and only if the goods subtotal is given
  (`CouponLaws.MinimumSpendTestedIffGoodsKnown`).
- The tables refuse some requests that pass the authority: a reserve or commit naming no
  order, keys, orders and reasons longer than their columns, an unknown actor type and
  the like, exactly as listed in `CouponLaws.Storable` (`CouponLaws.LateRefusalIff`). A key of more
  than 120 characters whose excess is spaces is stored cut, so re-sending it is refused
  (`CouponLaws.ResendIsExactlyOnce`).
- A recall fails as a whole when a contract-0 batch of the product still has an active
  item (`CodeTables.RecallFailsIffLegacyItemActive`). A delivered batch with one revoked
  item is never activated (`CodeActivation.RevokedItemBlocksActivation`, exact condition
  in `CodeActivation.ActivatingRunExistsIff`).
- Re-sending a join or a bind that succeeded is refused once the membership has been
  merged (`MembershipRuns.JoinReplaysIffActive`, `MembershipRuns.BindReplaysIffActive`).
- The merge's cycle check can never fire (`MembershipRuns.CycleCheckNeverFires`).
- A live marketing delivery can lose its consent: subscribing and creating read the
  consent without a lock, and the sweep of a withdrawal reads preferences and deliveries
  without one (`MarketingRace.RaceIsReached`, `MarketingRace.RaceLeavesUnwanted`; exact
  condition in `MarketingConsent.CommitsLeaveUnwantedIff`).
- The consent test of a lease and the UPDATE after it are two statements. The test keeps
  what it finds unwelcome from being sent (`MarketingRuns.LeaseDecidesByItsTest`); consent
  that is lost between the two goes unnoticed and the lease is granted
  (`MarketingReach.UnwelcomeLeaseIsReached`, `MarketingReach.RaceGrantsLease`; exact
  condition in `MarketingLease.GrantedUnwelcomeIff` and
  `MarketingLease.BareGrantedUnwelcomeIff`; without such commits
  `MarketingLease.CalmLeaseIsWelcome`).
- The UPDATE that suppresses after that test names the delivery by its id alone: it
  overwrites a result accepted in between (`MarketingReach.AcceptedIsOverwritten`,
  `MarketingReach.RaceOverwritesResult`; exact condition in `MarketingRuns.FinalStaysIff`).
- The marketing caps hold without any assumption about clocks, because the counting
  queries have no upper time bound; the weekly cap is about half-open windows
  (`MarketingRuns.RateLimit`). A third result with an unknown value exhausts a delivery
  (`MarketingLaws.UnknownResultCountsThird`).
- An index left dead by an interrupted concurrent drop makes the upgrade refuse for good;
  nothing else keeps a re-run from converging (`CatalogLaws.InterruptedDropKills`,
  `CatalogLaws.UnfitIsRefusedForever`, exact condition in `CatalogLaws.RerunConverges`).

## Reading the theorems

- Statements see the committed tables plus the writes of their own transaction, as under
  READ COMMITTED; a statement that cannot get a lock, and a refused one, leaves the state
  alone. In code delivery and governance one step is one statement, one deferred check
  or one commit, so all interleavings of these are covered. A marketing call is broken
  off wherever it reads what nothing locks: after its consent test, and between the
  moment a set-based UPDATE selects its rows and the moment it writes them, when it looks
  at each row again. In between, what it counts, finds and inserts is protected by the
  lock of the preference, so these statements are one move.
- Coupon and membership calls are one step each: a coupon call begins with an advisory
  lock of its membership and locks the coupon or rule row it decides on, and a membership
  call begins with advisory locks of its idempotency keys and locks the rows it decides on.
  These locks are named after the kind of call, join, bind, recovery and merge each having
  its own, so they keep calls of one kind apart; a key that calls of two kinds use at the
  same moment is settled by the unique index (see below).
- `CodeRuns.Inv` starts runs in any state whose committed tables satisfy `CodeLaws.Good`,
  with any admissible transactions already running; the batches in `legacy` are those
  born under contract 0. Rollout is finalized and the session unprivileged.
- Coupon and membership theorems start from empty tables or from any state satisfying
  the invariant. `MarketingRuns.Inv` and `MarketingConsent.Cared` also admit running
  transactions; the state without rows and transactions satisfies both.
- Where a query may return several rows without fixing an order (a coupon among several
  active ones), the model takes the smallest id; among grants authorized at the same
  time, and among the rows and tenants of a backfill batch, any choice is allowed.

## Model

| member | source | states |
|---|---|---|
| `Forest.AncestorClosure` | backend/alembic/versions/647cdfd9457f_enforce_tenant_identity_and_governance_.py:704-714 | The deduplicating recursive ancestor query ends on every finite table, cyclic ones included, and finds exactly the rows reachable by parent links from its start. |
| `Forest.LocalCheckGivesGlobal` | backend/alembic/versions/647cdfd9457f_enforce_tenant_identity_and_governance_.py:697-738 | If the organization forest was acyclic, the new forest is acyclic if and only if no inserted or updated row is among the rows above its own new parent. |
| `Forest.CycleMeetsTouched` | backend/alembic/versions/647cdfd9457f_enforce_tenant_identity_and_governance_.py:704-718 | Any cycle of the new forest contains a touched row, and that row fails its own local check. |
| `Forest.WalkReportsIffEndless` | backend/alembic/versions/648cdfd94580_backfill_and_validate_tenant_governance.py:208-225 | The path-carrying walk from a start reports a cycle exactly when following parents from that start never ends. |
| `Forest.ScanSilentIffAcyclic` | backend/alembic/versions/648cdfd94580_backfill_and_validate_tenant_governance.py:208-225 | The whole drift scan reports nothing exactly when the forest has no cycle. |
| `Forest.AcyclicHasRoot` | backend/alembic/versions/648cdfd94580_backfill_and_validate_tenant_governance.py:210-225 | In an acyclic forest the walk from any row stops at a root. |
| `GovernanceChecks.FindActiveAdmin` | backend/alembic/versions/647cdfd9457f_enforce_tenant_identity_and_governance_.py:634-643 | The join of accounts, grants and roles finds a row exactly when the tenant has an active account holding its `admin` role. |
| `GovernanceChecks.FindPendingAdmin` | backend/alembic/versions/929f1ea7db75_allow_pending_platform_initial_.py:71-88 | The exemption applies exactly to an inactive, recorded initial administrator still pending activation who already holds the tenant's `admin` role. |
| `GovernanceChecks.AssertTenantHasActiveAdmin` | backend/alembic/versions/929f1ea7db75_allow_pending_platform_initial_.py:65-91 | The deferred last-administrator check, branch by branch, raises exactly on the queued calls the transaction protocol does not accept. |
| `GovernanceChecks.AssertOrganizationHierarchyAcyclic` | backend/alembic/versions/647cdfd9457f_enforce_tenant_identity_and_governance_.py:697-722 | The deferred hierarchy check raises exactly when the queued row lies at or above the parent it was queued with. |
| `TenantGovernance.SettledStays` | backend/alembic/versions/647cdfd9457f_enforce_tenant_identity_and_governance_.py:516-525 | A check accepted on a transaction's view stays accepted whatever another transaction publishes afterwards: the tenant row lock of every statement keeps the two apart. |
| `TenantGovernance.CheckedCommitKeepsAdmin` | backend/alembic/versions/647cdfd9457f_enforce_tenant_identity_and_governance_.py:609-661 | A transaction all of whose queued checks were accepted leaves every tenant that had an active administrator with one, whether it lost the witness through the account, the grant or the role. |
| `TenantGovernance.CheckedCommitKeepsTree` | backend/alembic/versions/647cdfd9457f_enforce_tenant_identity_and_governance_.py:724-738 | A transaction all of whose placements were accepted leaves every tenant's organization tree acyclic. |
| `TenantGovernance.StepKeepsInv` | backend/alembic/versions/647cdfd9457f_enforce_tenant_identity_and_governance_.py:503-661 | Every step of every transaction (begin, statement, start of commit, one deferred check, publish, abort) keeps the lock, queue and settled-check invariant of all running transactions. |
| `TenantGovernance.AdministratorSurvives` | backend/alembic/versions/929f1ea7db75_allow_pending_platform_initial_.py:65-91 | Over every interleaving of multi-statement transactions, a tenant with an active administrator at some commit has one at every later commit, the pending-administrator exemption included. |
| `TenantGovernance.TreesStayAcyclic` | backend/alembic/versions/647cdfd9457f_enforce_tenant_identity_and_governance_.py:664-738 | Over every interleaving of multi-statement transactions, the organization tree of every tenant stays acyclic. |
| `TenantGovernance.WriteSkewNeedsTheLock` | backend/alembic/versions/647cdfd9457f_enforce_tenant_identity_and_governance_.py:521-525 | Without the tenant row lock two transactions that each revoke one of two administrators both pass their deferred checks and together leave none; with it the second revocation does not run. |
| `TenantGovernance.HierarchyChecksExact` | backend/alembic/versions/647cdfd9457f_enforce_tenant_identity_and_governance_.py:731-738 | A commit passes its hierarchy checks if and only if its final tree is acyclic and no superseded placement recorded a parent that now lies at or below its row. |
| `TenantGovernance.PlacedOnceChecksExact` | backend/alembic/versions/647cdfd9457f_enforce_tenant_identity_and_governance_.py:731-738 | When each organization is placed once in the transaction, the checks accept exactly the acyclic final trees. |
| `TenantGovernance.SupersededPlacementRefusesTree` | backend/alembic/versions/647cdfd9457f_enforce_tenant_identity_and_governance_.py:704-718 | The checks are not complete: a transaction that moves A under B, back to the top, and then B under A ends in a tree and is still refused, because the first placement is evaluated with the parent it was queued with. |
| `GovernanceOutcomes.AdministratorsRemain` | backend/alembic/versions/647cdfd9457f_enforce_tenant_identity_and_governance_.py:609-661 | Over every interleaving, a tenant that has an active account with a grant on its own role named `admin` at some commit has one at every later commit. |
| `GovernanceOutcomes.CheckPassesIff` | backend/alembic/versions/647cdfd9457f_enforce_tenant_identity_and_governance_.py:609-661 | Every queued check but that of an inserted account passes if and only if the call demands no administrator (grant on no admin role of an account still there, account not deactivated, role not renamed from `admin`) or the tenant it is about has one. |
| `GovernanceOutcomes.InsertedAccountRaisesIff` | backend/alembic/versions/929f1ea7db75_allow_pending_platform_initial_.py:65-91 | In a tenant without an active administrator, the check on an inserted account raises if and only if the account is active, or no opening of its tenant names it as still pending, or it holds no grant of that tenant on a role of that tenant named `admin`. |
| `GovernanceOutcomes.InsertedAccountPasses` | backend/alembic/versions/929f1ea7db75_allow_pending_platform_initial_.py:65-91 | In a tenant with an active administrator that check never raises. |
| `GovernanceOutcomes.OpeningPublishesIffPending` | backend/alembic/versions/929f1ea7db75_allow_pending_platform_initial_.py:71-88 | From every quiet state with a tenant without an administrator, the transaction that inserts the admin role, an inactive account, its grant and the opening publishes exactly these rows if the opening is pending, and nothing otherwise. |
| `GovernanceOutcomes.PlacementRaisesIff` | backend/alembic/versions/647cdfd9457f_enforce_tenant_identity_and_governance_.py:697-722 | The check of a placed organization raises if and only if following parents from the parent it was queued with leads to the organization itself. |
| `GovernanceOutcomes.AccountStatementsRunIff` | backend/alembic/versions/647cdfd9457f_enforce_tenant_identity_and_governance_.py:503-568 | Inserting, updating and deleting an account run exactly for accounts of one existing tenant with an organization of that tenant, queue their check and lock the tenant. |
| `GovernanceOutcomes.RoleStatementsRunIff` | backend/alembic/versions/647cdfd9457f_enforce_tenant_identity_and_governance_.py:503-568 | Inserting, updating and deleting a role run exactly for roles that stay in an existing tenant under a name of their own, and lock the tenant; renames and deletions queue a check. |
| `GovernanceOutcomes.GrantStatementsRunIff` | backend/alembic/versions/647cdfd9457f_enforce_tenant_identity_and_governance_.py:422-607 | A grant is inserted or moved exactly within one tenant, which a given tenant column must name, and its column is set to that tenant; moves and deletions queue a check and lock the tenant. |
| `GovernanceOutcomes.OrganizationStatementsRunIff` | backend/alembic/versions/647cdfd9457f_enforce_tenant_identity_and_governance_.py:664-695 | An organization is placed exactly within its own existing tenant under a parent of that tenant, which queues the check of its place and locks the tenant. |
| `GovernanceOutcomes.StatementTakesIff` | backend/alembic/versions/647cdfd9457f_enforce_tenant_identity_and_governance_.py:503-607 | A statement of a transaction that has not begun to commit runs if and only if its guards let it, nobody else holds the tenant row it locks, and no other running transaction has written a row it writes. |
| `GovernanceOutcomes.CommitTakesIff` | backend/alembic/versions/647cdfd9457f_enforce_tenant_identity_and_governance_.py:609-661 | A commit is begun once, publishes exactly after its last queued check, and gives up the tenants it locked; an abort gives them up without publishing. |
| `GovernanceOutcomes.RowsHaveOneWriter` | backend/alembic/versions/647cdfd9457f_enforce_tenant_identity_and_governance_.py:503-568 | In every reachable state no account, role, grant, opening or organization row is written by two running transactions. |
| `CouponTables.Tables.FindPrior` | backend/alembic/versions/992308d73df7_add_authoritative_repurchase_coupon_.py:168-176 | The idempotency lookup returns the event recorded under the key, if any. |
| `CouponTables.Tables.MutateRule` | backend/alembic/versions/992308d73df7_add_authoritative_repurchase_coupon_.py:48-132 | Rule create, publish, pause, resume and end, run statement by statement, refuse, replay or write exactly as the rule specification says, and change nothing when refused. |
| `CouponTables.Tables.MutateCoupon` | backend/alembic/versions/992308d73df7_add_authoritative_repurchase_coupon_.py:138-335 | Issue, reserve, commit, release, reverse, store redemption, expire, revoke and partial refund, each branch written out, with the UPDATE behind its CHECKs and trigger, the event INSERT and the roll-back, agree with the coupon specification on every state and request. |
| `CouponTables.Tables.IssueCoupon` | backend/alembic/versions/992308d73df7_add_authoritative_repurchase_coupon_.py:178-216 | Issuing answers with an active coupon if there is one, otherwise inserts one under an unused number and claim and raises the issued count; a row, count or event the tables refuse undoes all of it. |
| `CouponTables.Tables.ReserveCoupon` | backend/alembic/versions/992308d73df7_add_authoritative_repurchase_coupon_.py:224-254 | Reserving checks membership, channel, synchronization, availability, minimum spend and discount in the order of the function and decides the reservation row. |
| `CouponTables.Tables.Log` | backend/alembic/versions/992308d73df7_add_authoritative_repurchase_coupon_.py:323-334 | The event INSERT goes through exactly when its key, id, order, store, actor and reason fit their columns and constraints, and then records them as stored. |
| `CouponTables.Tables.ReverseCoupon` | backend/alembic/versions/992308d73df7_add_authoritative_repurchase_coupon_.py:274-280 | Reversing tests the status and the order of the use and frees the coupon, or expires it when its validity is over. |
| `CouponTables.Tables.RedeemInStore` | backend/alembic/versions/992308d73df7_add_authoritative_repurchase_coupon_.py:281-301 | A store redemption tests membership, channel, synchronization, availability and the store in the order of the function and spends the coupon without an order. |
| `CouponLaws.StepAdvances` | backend/alembic/versions/992308d73df7_add_authoritative_repurchase_coupon_.py:323-334 | Every accepted request appends exactly one event and changes the tables in one of four ways (rule change, issue, coupon change, no change); a refused or replayed one changes nothing. |
| `CouponLaws.LogDeterminesCoupons` | backend/alembic/versions/992308d73df7_add_authoritative_repurchase_coupon_.py:323-334 | After any run the event log alone determines which coupons exist, their status and version (one plus the events that changed the status), and each event's `from_status` is the previous one's `to_status`. |
| `CouponLaws.NoDoubleSpend` | backend/alembic/versions/992308d73df7_add_authoritative_repurchase_coupon_.py:255-301 | After any run, commits plus store redemptions minus reversals of a coupon is one if it is used and zero otherwise. |
| `CouponLaws.IssuanceIsCounted` | backend/alembic/versions/992308d73df7_add_authoritative_repurchase_coupon_.py:178-216 | After any run, the issued count of every rule is the number of coupons carrying it and never exceeds the issuance limit. |
| `CouponLaws.ActiveCouponsBounded` | backend/alembic/versions/0b91acfedc87_harden_member_repurchase_review_.py:20-21 | After any run (without the dropped active-rule index), a membership holds at most one active coupon of a rule plus one for each reversal that restored one. |
| `CouponLaws.TermsAndTerminalCouponsStay` | backend/alembic/versions/992308d73df7_add_authoritative_repurchase_coupon_.py:620-647 | No run changes the terms of an existing rule or anything about an expired or revoked coupon. |
| `CouponLaws.ReservedDiscountBounds` | backend/alembic/versions/992308d73df7_add_authoritative_repurchase_coupon_.py:241-253 | A reserved discount is positive, at most the rule amount, at most a supplied eligible subtotal and below a supplied goods subtotal, and it attains one of these bounds; a supplied goods subtotal meets the minimum spend. |
| `CouponLaws.MinimumSpendTestedIffGoodsKnown` | backend/alembic/versions/992308d73df7_add_authoritative_repurchase_coupon_.py:241-246 | In every state, an accepted reservation of an available coupon would be accepted under exactly those minimum spends its goods subtotal reaches; it is accepted under every minimum spend if and only if the goods subtotal is missing. |
| `CouponLaws.OrderTestPassesIff` | backend/alembic/versions/992308d73df7_add_authoritative_repurchase_coupon_.py:256-278 | For a coupon in the status the action starts from, commit, release, reverse and partial refund fail the order test if and only if both order references are known and differ. |
| `CouponLaws.OrderActionsAcceptedIff` | backend/alembic/versions/992308d73df7_add_authoritative_repurchase_coupon_.py:255-280 | In every reachable state a commit is accepted iff it names the order of a reservation that has not run out, a release iff it names that order or none, a reversal or partial refund iff it names the order of the use or none or the coupon was last spent in a store. |
| `CouponLaws.NamesOwnOrderIffBothKnown` | backend/alembic/versions/992308d73df7_add_authoritative_repurchase_coupon_.py:255-280 | In every state an accepted request of these names the coupon's own order if and only if both references are known. |
| `CouponLaws.LateRefusalIff` | backend/alembic/versions/992308d73df7_add_authoritative_repurchase_coupon_.py:456-598 | From rows that satisfy the constraints, the tables refuse a request if and only if it passes the authority and is not storable (a column too narrow, a key, id, number or claim taken, a reference missing, an unknown actor, no order for a reservation or commit); a storable request that passes is done, so no trigger and no status CHECK ever refuses one. |
| `CouponLaws.ResendIsExactlyOnce` | backend/alembic/versions/992308d73df7_add_authoritative_repurchase_coupon_.py:72-80 | A request that once succeeded, sent again at any later point of any run, changes nothing, and gets the same id if and only if its key is at most 120 characters long; its key with another action or digest is refused. |
| `CouponLaws.DuplicatesLeaveNoTrace` | backend/alembic/versions/0b91acfedc87_harden_member_repurchase_review_.py:79-89 | A run with any duplicates and failures ends in the same state as the run of its first successes, with one event for each. |
| `CouponOutcomes.ChangeAcceptedIff` | backend/alembic/versions/992308d73df7_add_authoritative_repurchase_coupon_.py:217-322 | In every reachable state a fresh request on a coupon is accepted if and only if coupon, terms and request say so, condition by condition for each of the eight actions (own coupon, channel, confirmation, status, validity, order agreement, reservation time, open store, reason). |
| `CouponOutcomes.ChangeWrites` | backend/alembic/versions/992308d73df7_add_authoritative_repurchase_coupon_.py:255-335 | The row and the one event an accepted commit, release, reversal, store redemption, expiry, revocation or partial refund leaves, column by column, and that nothing else changes. |
| `CouponOutcomes.ReserveAcceptedIff` | backend/alembic/versions/992308d73df7_add_authoritative_repurchase_coupon_.py:224-254 | In every reachable state a fresh reservation is accepted if and only if the coupon is the one of the member named if any, for online orders and confirmed, an order is named, and it is either held for that order or available, valid now and each given subtotal suffices. |
| `CouponOutcomes.ReserveWrites` | backend/alembic/versions/992308d73df7_add_authoritative_repurchase_coupon_.py:241-254 | An accepted reservation of an available coupon holds it for this order for fifteen minutes at the largest discount every given subtotal allows; one that finds its own order leaves only an event. |
| `CouponOutcomes.ReturnedByValidity` | backend/alembic/versions/992308d73df7_add_authoritative_repurchase_coupon_.py:267-280 | After a first accepted release or reversal in any reachable state the coupon is available if and only if the request came before the end of its validity, and expired otherwise, and the event says the same. |
| `CouponOutcomes.ReleasedReservesAgain` | backend/alembic/versions/992308d73df7_add_authoritative_repurchase_coupon_.py:224-273 | A coupon released while valid is reserved again at the same moment by any eligible order of a member who may reserve it. |
| `CouponOutcomes.ReturnedLateIsLost` | backend/alembic/versions/992308d73df7_add_authoritative_repurchase_coupon_.py:267-280 | A coupon released or reversed at or after the end of its validity stays expired as it is over every run, and no request on it is accepted again. |
| `CouponOutcomes.IssueAcceptedIff` | backend/alembic/versions/992308d73df7_add_authoritative_repurchase_coupon_.py:178-216 | An issue is accepted if and only if the rule is published with coupons left, the member is active, and either has an open coupon of the rule or a new one is numbered, sourced and valid for some time yet. |
| `CouponOutcomes.IssueFinds` | backend/alembic/versions/992308d73df7_add_authoritative_repurchase_coupon_.py:185-194 | A member with an open coupon of the rule is answered with it, and only an event is written. |
| `CouponOutcomes.IssueWrites` | backend/alembic/versions/992308d73df7_add_authoritative_repurchase_coupon_.py:195-216 | A new coupon belongs to the member and rule, is available under the given number, lasts the days of the terms from now or the period they fix, and is counted once against the rule. |
| `CouponOutcomes.RuleMovesIff` | backend/alembic/versions/992308d73df7_add_authoritative_repurchase_coupon_.py:100-132 | In every reachable state a rule is published from draft, paused from published, resumed from paused and ended from either, and from no other status; it lands in the status the action leads to, with the time of publishing or ending, and is otherwise unchanged. |
| `CouponOutcomes.RuleCreatedIff` | backend/alembic/versions/992308d73df7_add_authoritative_repurchase_coupon_.py:82-132 | A rule is created, as a draft that has issued nothing, if and only if its terms can be sold (amount, minimum spend, scopes, limit, period) and key, version, id and benefit are new. |
| `CouponOutcomes.RulesInOrder` | backend/alembic/versions/992308d73df7_add_authoritative_repurchase_coupon_.py:342-400 | After any run every rule has terms that can be sold, has issued no more than its limit, and has a time of publishing exactly when it is no draft and a time of ending exactly when it has ended. |
| `CouponOutcomes.CouponsInOrder` | backend/alembic/versions/992308d73df7_add_authoritative_repurchase_coupon_.py:422-490 | After any run every coupon has a well-formed number and a period, and its reservation, use and revocation columns are filled exactly in the status they belong to, the amount off within its rule. |
| `CouponOutcomes.RuleTriggerPassesIff` | backend/alembic/versions/992308d73df7_add_authoritative_repurchase_coupon_.py:620-656 | The trigger on rules lets an UPDATE pass if and only if the terms stay once the rule is no draft and the status stays, but for an ended rule, or goes a way a rule may go. |
| `CouponOutcomes.CouponTriggerPassesIff` | backend/alembic/versions/992308d73df7_add_authoritative_repurchase_coupon_.py:679-720 | The trigger on coupons lets an UPDATE pass if and only if everything the coupon was issued with stays, the version counts up by one, and the status stays or goes one of nine ways. |
| `CodeDelivery.ItemMovesBatchIffLegacyOpen` | backend/alembic/versions/3f91c0d2e4a6_enforce_atomic_code_batch_delivery.py:548-582 | The item guard lets an item turn up under another batch if and only if that batch is under contract 0 and the legacy gate is open. |
| `CodeStages.StagesInOrder` | backend/alembic/versions/3f91c0d2e4a6_enforce_atomic_code_batch_delivery.py:331-387 | An accepted write that changes the status of a contract-1 batch raises its stage, counted in numbers, by exactly one or fails a generating one; nothing leaves a failure or the last stage, and a new batch is pending or generating. |
| `CodeStages.StagesAreVisited` | backend/alembic/versions/3f91c0d2e4a6_enforce_atomic_code_batch_delivery.py:378-387 | Over every interleaving in which no transaction writes a contract-1 batch twice, the batch is committed at every stage between two stages it is committed at. |
| `CodeStages.DeliveredWasPrinted` | backend/alembic/versions/3f91c0d2e4a6_enforce_atomic_code_batch_delivery.py:378-387 | A batch committed as exported and later as delivered was committed as printing in between. |
| `CodeOutcomes.NewBatchAcceptedIff` | backend/alembic/versions/3f91c0d2e4a6_enforce_atomic_code_batch_delivery.py:331-377 | A new batch is accepted if and only if it is under contract 1, pending or generating, without evidence, made for a production batch in production, and expects the number of items its mode, kind and quantity give, at most ten thousand; a missing number is filled in. |
| `CodeOutcomes.BatchUpdateAcceptedIff` | backend/alembic/versions/3f91c0d2e4a6_enforce_atomic_code_batch_delivery.py:331-514 | An update of a contract-1 batch is accepted if and only if contract and origin stay, the stage stays or is the next one, manifest, times and recipient are those of the stage, in order and upheld, and items, receipt, manifest and production batch are ready for it. |
| `CodeOutcomes.GuardWantsEvidence` | backend/alembic/versions/3f91c0d2e4a6_enforce_atomic_code_batch_delivery.py:388-425 | The guard alone asks a batch row for manifest, times and recipient exactly from the stages on that they belong to. |
| `CodeOutcomes.ChecksWantOrder` | backend/alembic/versions/3f91c0d2e4a6_enforce_atomic_code_batch_delivery.py:200-246 | The CHECKs alone ask for the right number of items under contract 1 and for times in order, a recipient exactly with a delivery. |
| `CodeOutcomes.LegacyUpdateAcceptedIff` | backend/alembic/versions/3f91c0d2e4a6_enforce_atomic_code_batch_delivery.py:340-372 | A contract-0 batch is only written to take it under contract 1 from completed to exported, with everything an exported batch needs. |
| `CodeOutcomes.LegacyGate` | backend/alembic/versions/3f91c0d2e4a6_enforce_atomic_code_batch_delivery.py:331-345 | The batch guard lets rows that are and stay under contract 0 pass exactly while the rollout is not finalized or for a privileged session, and judges every other write as it does the runtime. |
| `CodeOutcomes.LinkPassesIff` | backend/alembic/versions/2ed1cb06d0ca_enforce_authoritative_production_batch_.py:316-360 | The production-link guard lets a batch row pass if and only if its production batch is in production, or it stays with the one it had and keeps its status or is pending or failed. |
| `CodeOutcomes.NewItemAcceptedIff` | backend/alembic/versions/3f91c0d2e4a6_enforce_atomic_code_batch_delivery.py:567-590 | An item is added if and only if its contract-1 batch is generating and the item is untouched and single or one half of a pair as the batch demands. |
| `CodeOutcomes.ItemUpdateAcceptedIff` | backend/alembic/versions/3f91c0d2e4a6_enforce_atomic_code_batch_delivery.py:590-624 | An item goes on if and only if it stays what and where it is, takes one of ten ways, its batch is delivered for a first activation and activated for binding and thawing, and an item in use has its production batch in production. |
| `CodeOutcomes.ReceiptAcceptedIff` | backend/alembic/versions/3f91c0d2e4a6_enforce_atomic_code_batch_delivery.py:662-712 | A receipt is filed open and then attached once, to a batch of the same maker. |
| `CodeOutcomes.ManifestAcceptedIff` | backend/alembic/versions/3f91c0d2e4a6_enforce_atomic_code_batch_delivery.py:715-792 | A versioned code export is written for a completed batch with the number of its items, finished and sealed, and never changed afterwards. |
| `CodeOutcomes.ProductionAcceptedIff` | backend/alembic/versions/2ed1cb06d0ca_enforce_authoritative_production_batch_.py:258-310 | A production batch is recalled with a reason that is not blank, once and from production; a recalled or expired one stays as it is; a recall puts exactly its code batches before the freezing loop. |
| `CodeOutcomes.StatementLocks` | backend/alembic/versions/2ed1cb06d0ca_enforce_authoritative_production_batch_.py:314-457 | What each accepted statement locks: a batch write its batch, and its production batch shared when new or changing status or contract; an item write its batch, and the production batch shared for an item in use; a manifest its batch shared; a production write the production batch alone. |
| `CodeOutcomes.FreezingGoesFirst` | backend/alembic/versions/2ed1cb06d0ca_enforce_authoritative_production_batch_.py:418-459 | While a recall has batches to freeze its transaction does nothing else, and it freezes exactly the items in use of one of them at a time, unless a contract-0 batch has one. |
| `CodeOutcomes.StatementTakesIff` | backend/alembic/versions/2ed1cb06d0ca_enforce_authoritative_production_batch_.py:314-457 | A statement runs if and only if its guards let it, the rows it locks are free, shared alike or its own, and no other running transaction has written a row it writes. |
| `CodeOutcomes.CommitTakesIff` | backend/alembic/versions/3f91c0d2e4a6_enforce_atomic_code_batch_delivery.py:627-654 | A commit goes through if and only if nothing is left to freeze and the batch of every first activation is activated. |
| `CodeOutcomes.RowsHaveOneWriter` | backend/alembic/versions/3f91c0d2e4a6_enforce_atomic_code_batch_delivery.py:296-656 | In every reachable state no row is written by two running transactions. |
| `CodeTables.Store.PutBatch` | backend/alembic/versions/3f91c0d2e4a6_enforce_atomic_code_batch_delivery.py:323-514 | A code batch write completes a missing expected count from the generation columns and is accepted exactly when the batch guard, the production-link guard, the CHECKs and the production batch accept it. |
| `CodeTables.Store.RecallProduction` | backend/alembic/versions/2ed1cb06d0ca_enforce_authoritative_production_batch_.py:418-459 | The recall marks the production batch and freezes exactly the activated and bound items of all its code batches, or changes nothing at all when any of those updates is refused. |
| `CodeTables.Store.FreezeBatch` | backend/alembic/versions/2ed1cb06d0ca_enforce_authoritative_production_batch_.py:442-454 | The inner loop freezes the active items of one code batch and gets through exactly when the item guard lets every one of them be frozen. |
| `CodeTables.RecallLeavesGood` | backend/alembic/versions/2ed1cb06d0ca_enforce_authoritative_production_batch_.py:418-459 | From tables that satisfy all delivery invariants, a recall that goes through leaves tables that satisfy them, with no active item under the recalled production batch. |
| `CodeTables.RecallFailsIffLegacyItemActive` | backend/alembic/versions/3f91c0d2e4a6_enforce_atomic_code_batch_delivery.py:556-566 | The recall of an active production batch fails if and only if one of its code batches is still under contract 0 and has an active item. |
| `CodeLaws.RecallBlockedByLegacyItems` | backend/alembic/versions/3f91c0d2e4a6_enforce_atomic_code_batch_delivery.py:556-566 | The runtime's freeze loop gets through a code batch exactly when it is under contract 1 or has no active item. |
| `CodeLaws.BatchWriteKeepsGood` | backend/alembic/versions/3f91c0d2e4a6_enforce_atomic_code_batch_delivery.py:331-515 | Any batch write the guards accept keeps counts, pairing, export evidence, activation and recall safety of every batch. |
| `CodeLaws.ItemWriteKeepsGood` | backend/alembic/versions/3f91c0d2e4a6_enforce_atomic_code_batch_delivery.py:567-611 | Any item write the guards accept keeps them too, a first activation leaving one deferred check pending. |
| `CodeLaws.ProductionWriteKeepsGood` | backend/alembic/versions/2ed1cb06d0ca_enforce_authoritative_production_batch_.py:265-298 | An insert of a production batch, and an update of one that leaves its status alone (its dates included), keeps them without any check left to do. |
| `CodeLaws.RecallKeepsGood` | backend/alembic/versions/2ed1cb06d0ca_enforce_authoritative_production_batch_.py:418-459 | A change of the status of a production batch, a recall above all, keeps them up to recall safety of its own code batches, which go on the list still to be frozen. |
| `CodeLaws.FreezeKeepsGood` | backend/alembic/versions/2ed1cb06d0ca_enforce_authoritative_production_batch_.py:432-455 | Freezing the items of one code batch keeps them and takes that batch off the list still to be frozen. |
| `CodeLaws.CommitSettles` | backend/alembic/versions/3f91c0d2e4a6_enforce_atomic_code_batch_delivery.py:627-654 | When the deferred item checks hold at commit, nothing is pending any more: unactivated batches have only created or revoked items. |
| `CodeLaws.PairsSplitExactly` | backend/alembic/versions/3f91c0d2e4a6_enforce_atomic_code_batch_delivery.py:458-471 | A finished paired batch splits into exactly `quantity` pair ids, each with one outer and one inner item. |
| `CodeRuns.MergedGood` | backend/alembic/versions/2ed1cb06d0ca_enforce_authoritative_production_batch_.py:314-415 | When one transaction commits, every other transaction's view still satisfies all delivery invariants, thanks to the batch and production-batch row locks behind each uncommitted row. |
| `CodeRuns.StepKeepsInv` | backend/alembic/versions/2ed1cb06d0ca_enforce_authoritative_production_batch_.py:326-457 | Begin, any statement (production batch inserts, updates and recalls included), commit and abort of any transaction keep the invariant of the committed tables and of every running transaction. |
| `CodeRuns.RunsKeepInv` | backend/alembic/versions/3f91c0d2e4a6_enforce_atomic_code_batch_delivery.py:296-656 | Over every interleaving the committed tables satisfy all delivery invariants and only evolve: identities, contract, finished and shipped state and manifests of batches stay. |
| `CodeRuns.FinishedCountNeverChanges` | backend/alembic/versions/3f91c0d2e4a6_enforce_atomic_code_batch_delivery.py:441-482 | A batch born under contract 1 and at `completed` or later has as many items as its expected count, and both numbers stay for ever. |
| `CodeRuns.ExportedCountIsManifested` | backend/alembic/versions/3f91c0d2e4a6_enforce_atomic_code_batch_delivery.py:731-780 | Once exported, such a batch keeps its manifest, whose row count is the number of its items, for ever. |
| `CodeRuns.PairsHoldInEveryRun` | backend/alembic/versions/3f91c0d2e4a6_enforce_atomic_code_batch_delivery.py:458-471 | In every committed state a finished paired batch consists of `quantity` pairs of one outer and one inner item. |
| `CodeRuns.ActivationIsAllOrNothing` | backend/alembic/versions/3f91c0d2e4a6_enforce_atomic_code_batch_delivery.py:505-513 | In every committed state a batch born under contract 1 and not activated has only created or revoked items, and an activated one has no created item. |
| `CodeRuns.RecallIsSafeAndFinal` | backend/alembic/versions/2ed1cb06d0ca_enforce_authoritative_production_batch_.py:258-459 | In every committed state no activated or bound item stands under a recalled production batch; after the recall its code batches never change status and frozen items stay frozen or are revoked. |
| `CodeActivation.ActivationAcceptedIff` | backend/alembic/versions/3f91c0d2e4a6_enforce_atomic_code_batch_delivery.py:505-513 | With its evidence in order and an active production batch, the batch guard accepts the activation of a delivered batch if and only if every one of its items is activated. |
| `CodeActivation.RevokedItemBlocksActivation` | backend/alembic/versions/3f91c0d2e4a6_enforce_atomic_code_batch_delivery.py:505-513 | Over every interleaving a delivered batch with a revoked item stays delivered and the item stays revoked: the batch is never activated. |
| `CodeActivation.ActivatingRunExistsIff` | backend/alembic/versions/3f91c0d2e4a6_enforce_atomic_code_batch_delivery.py:505-513 | From every state of every interleaving, a run that ends with the delivered batch activated exists if and only if none of its items is revoked and its production batch is in production. |
| `CodeActivation.RecallNeedsTheLock` | backend/alembic/versions/2ed1cb06d0ca_enforce_authoritative_production_batch_.py:383-412 | Without the production-batch lock an item writer and a recaller, each accepted by every guard on its own view and writing different rows, together leave an active item under a recalled batch; with it the item write fails while the recall is under way. |
| `MembershipLaws.ReencryptsIffNamesEach` | backend/alembic/versions/36e723af82b6_converge_brand_membership_authority.py:344-363 | The credential loop gets through if and only if the entries name live credentials of the source, no two the same, each with an acceptable envelope. |
| `MembershipLaws.ReencryptedEach` | backend/alembic/versions/36e723af82b6_converge_brand_membership_authority.py:351-360 | After the loop each named credential belongs to the target under the envelope of its own entry, and every other credential is untouched. |
| `MembershipLaws.LoopIsBijection` | backend/alembic/versions/36e723af82b6_converge_brand_membership_authority.py:338-363 | With as many entries as live credentials of the source, a finished loop moved every one of them exactly once, even if different keys denote one uuid. |
| `MembershipRuns.CycleCheckNeverFires` | backend/alembic/versions/36e723af82b6_converge_brand_membership_authority.py:328-337 | From an active target the merge chain contains no other membership, so the cycle check never fires. |
| `MembershipRuns.RootsAfterMerge` | backend/alembic/versions/36e723af82b6_converge_brand_membership_authority.py:367-369 | Merging one active membership into another redirects exactly the chains that ended in the source. |
| `MembershipRuns.StepKeepsInv` | backend/alembic/versions/36e723af82b6_converge_brand_membership_authority.py:18-377 | Joining, binding, recovering, merging and revoking keep the whole membership invariant. |
| `MembershipRuns.ChainsEndActive` | backend/alembic/versions/a20b21c22d23_add_brand_membership_identity.py:464-469 | In every reachable state the merge edges are acyclic and each membership's chain ends in exactly one membership, an active one. |
| `MembershipRuns.AttachedAtRoot` | backend/alembic/versions/36e723af82b6_converge_brand_membership_authority.py:351-369 | In every reachable state each profile link and each live credential is attached to the root of the membership it was first attached to. |
| `MembershipRuns.OnlyActiveMembershipsHold` | backend/alembic/versions/a20b21c22d23_add_brand_membership_identity.py:526-590 | In every reachable state a merged membership holds no link and no live credential, an active one has exactly one primary link, and a subject has at most one live credential. |
| `MembershipRuns.MergeAcceptedIff` | backend/alembic/versions/36e723af82b6_converge_brand_membership_authority.py:258-377 | With unused keys and events, a merge is accepted if and only if there are two live proofs and the entries name each live credential of the source once; it is never refused as a cycle. |
| `MembershipRuns.MergeHandsOverEverything` | backend/alembic/versions/36e723af82b6_converge_brand_membership_authority.py:344-369 | An accepted merge hands over all links, none of them primary any more, and all live credentials, and marks the source merged into the target. |
| `MembershipRuns.MergeReplays` | backend/alembic/versions/36e723af82b6_converge_brand_membership_authority.py:290-305 | A merge that once succeeded gets the same answer at any later point and changes nothing. |
| `MembershipRuns.RecoverReplays` | backend/alembic/versions/36e723af82b6_converge_brand_membership_authority.py:214-226 | A recovery that once succeeded gets the same answer at any later point and changes nothing. |
| `MembershipRuns.JoinReplaysIffActive` | backend/alembic/versions/36e723af82b6_converge_brand_membership_authority.py:47-65 | A join that created a membership, sent again later, gets the same answer if and only if the membership is still active; once merged it is refused as an incomplete receipt. |
| `MembershipRuns.BindReplaysIffActive` | backend/alembic/versions/36e723af82b6_converge_brand_membership_authority.py:152-166 | A bind, sent again while its credential is live, gets the same answer if and only if the membership is still active, and is refused once it has been merged. |
| `MembershipOutcomes.RecoverAcceptedIff` | backend/alembic/versions/36e723af82b6_converge_brand_membership_authority.py:227-253 | With an unused key, a recovery is accepted if and only if the membership is active, the credential is there, unrevoked and its own, the consumer exists, is linked to this membership or has no link and brings an unused link id, and the event id is unused; missing evidence and a link elsewhere are refused as such. |
| `MembershipOutcomes.RecoverAddsOneLink` | backend/alembic/versions/36e723af82b6_converge_brand_membership_authority.py:245-253 | An accepted recovery adds a link, not a primary one, exactly for a consumer without one, and its event, and changes nothing else. |
| `MembershipOutcomes.JoinAcceptedIff` | backend/alembic/versions/36e723af82b6_converge_brand_membership_authority.py:67-118 | With an unused key, a join creates a membership if and only if the consent was granted and is attached to nobody else, the consumer exists or may be created and has no link, and all ids are unused; a linked consumer is answered with its membership. |
| `MembershipOutcomes.JoinAddsOneMembership` | backend/alembic/versions/36e723af82b6_converge_brand_membership_authority.py:84-122 | A join that creates a membership makes it active, with the consumer as its primary one, and attaches the consent. |
| `MembershipOutcomes.JoinFindsMembership` | backend/alembic/versions/36e723af82b6_converge_brand_membership_authority.py:84-104 | A join that finds the consumer linked to an active membership answers that one and adds at most the consumer. |
| `MembershipOutcomes.BindAcceptedIff` | backend/alembic/versions/36e723af82b6_converge_brand_membership_authority.py:167-188 | In every reachable state, with an unused key, a bind adds a credential if and only if the membership is active, nobody holds the identity and the ids are unused; an identity it holds is answered, one of another membership is refused. |
| `MembershipOutcomes.BindAddsOneCredential` | backend/alembic/versions/36e723af82b6_converge_brand_membership_authority.py:179-188 | A bind that adds a credential adds a live one of this membership with the given envelope and its event, and nothing else. |
| `MembershipOutcomes.MergeNeedsBothProofs` | backend/alembic/versions/36e723af82b6_converge_brand_membership_authority.py:275-327 | A merge that does not name two of everything is invalid, and with unused keys one is refused for its proofs if and only if a membership is not active, the consumer is not linked to the source, or a credential is not a live one of its membership. |
| `MembershipOutcomes.MergeClosesTheSource` | backend/alembic/versions/36e723af82b6_converge_brand_membership_authority.py:364-377 | An accepted merge marks the source merged into the target, writes the two events under new ids, and changes no other membership, event, consumer or consent. |
| `MembershipOutcomes.UsedMergeKeysAnswerTheirOwn` | backend/alembic/versions/36e723af82b6_converge_brand_membership_authority.py:290-305 | Once a key is used a merge changes nothing, and is answered if and only if both keys were used for this very merge. |
| `MembershipOutcomes.UsedKeyAnswersItsOwn` | backend/alembic/versions/36e723af82b6_converge_brand_membership_authority.py:47-63 | A used key changes nothing and answers only the kind of request and payload, and for binds and recoveries the membership, it was used for. |
| `MembershipTables.Store.FindPrimary` | backend/alembic/versions/36e723af82b6_converge_brand_membership_authority.py:55-59 | The lookup of a membership's primary link returns it, if there is one. |
| `MembershipTables.Store.FindSubject` | backend/alembic/versions/36e723af82b6_converge_brand_membership_authority.py:170-178 | The lookup of a subject's live credential returns it, if there is one. |
| `MembershipTables.Store.Join` | backend/alembic/versions/36e723af82b6_converge_brand_membership_authority.py:19-122 | Joining, run statement by statement, agrees with the join specification and changes nothing when refused. |
| `MembershipTables.Store.Bind` | backend/alembic/versions/36e723af82b6_converge_brand_membership_authority.py:124-189 | Binding an identity, run statement by statement, agrees with the bind specification. |
| `MembershipTables.Store.Recover` | backend/alembic/versions/36e723af82b6_converge_brand_membership_authority.py:191-256 | Recovering, run statement by statement, agrees with the recovery specification. |
| `MembershipTables.Store.ChainContains` | backend/alembic/versions/36e723af82b6_converge_brand_membership_authority.py:328-335 | The recursive chain query, which does not remember the rows it has seen, ends on acyclic edges and finds exactly the memberships up the chain. |
| `MembershipTables.Store.ReencryptLoop` | backend/alembic/versions/36e723af82b6_converge_brand_membership_authority.py:344-363 | The loop over the entries computes exactly the specified re-encryption, or stops at the first entry whose update hits nothing. |
| `MembershipTables.Store.Merge` | backend/alembic/versions/36e723af82b6_converge_brand_membership_authority.py:258-377 | Merging, run statement by statement with its loop and roll-back, agrees with the merge specification. |
| `MarketingLaws.DueIsEarliestDaytime` | backend/alembic/versions/0b91acfedc87_harden_member_repurchase_review_.py:237-242 | The first due time is the earliest moment from now on whose Shanghai hour lies from 8 up to 21. |
| `MarketingLaws.CountedKeepsWindow` | backend/alembic/versions/0b91acfedc87_harden_member_repurchase_review_.py:213-229 | The two counts taken before an insert suffice for every seven-day window the new delivery lies in. |
| `MarketingLaws.FailureWaits` | backend/alembic/versions/0b91acfedc87_harden_member_repurchase_review_.py:326-329 | After the first transient failure no lease is granted for five minutes, after the second for ten. |
| `MarketingLaws.UnknownResultCountsThird` | backend/alembic/versions/0b91acfedc87_harden_member_repurchase_review_.py:322-330 | An unknown or missing result is refused, except as the third result, where it exhausts the delivery. |
| `MarketingOutcomes.LeaseGrantedIff` | backend/alembic/versions/0b91acfedc87_harden_member_repurchase_review_.py:265-293 | A lease is granted, for thirty seconds, if and only if the delivery is due, its member may be reached or it is a service one, and a token is given; a due one whose member may not be reached is suppressed, and nothing else is written. |
| `MarketingOutcomes.ResultTakenIff` | backend/alembic/versions/0b91acfedc87_harden_member_repurchase_review_.py:303-330 | A result is taken if and only if the delivery is under way under its token and unexpired lease, the evidence fits it, and it is a known result or the third. |
| `MarketingOutcomes.ResultSettles` | backend/alembic/versions/0b91acfedc87_harden_member_repurchase_review_.py:316-330 | A taken result makes the delivery accepted, failed or exhausted as it says and as it is the third or not, with one attempt more and no lease. |
| `MarketingOutcomes.RetriedFromThenOn` | backend/alembic/versions/0b91acfedc87_harden_member_repurchase_review_.py:326-329 | After the first failed attempt a lease is granted again from five minutes on and no sooner, after the second from ten. |
| `MarketingOutcomes.SubscribedIff` | backend/alembic/versions/c36405c62488_add_member_notification_center_and_.py:138-155 | A subscription is accepted if and only if its consent was given for marketing and stands and it brings a timely open marketing authorization of the member, on record by reference or under a new id; the member can then be reached. |
| `MarketingOutcomes.OptingOutDisables` | backend/alembic/versions/c36405c62488_add_member_notification_center_and_.py:156-160 | Opting out disables marketing and revokes exactly the open marketing grants of the member. |
| `MarketingOutcomes.OptingOutQuiets` | backend/alembic/versions/0b91acfedc87_harden_member_repurchase_review_.py:337-352 | Opting out suppresses exactly the waiting marketing deliveries of the member, and those under way if marketing was enabled. |
| `MarketingOutcomes.WithdrawalQuiets` | backend/alembic/versions/0b91acfedc87_harden_member_repurchase_review_.py:360-388 | A consent change that ends a given consent suppresses exactly the waiting and running marketing deliveries of the members resting on it and revokes their open marketing grants; any other change touches only the consent. |
| `MarketingOutcomes.ServiceEndsIn` | backend/alembic/versions/c36405c62488_add_member_notification_center_and_.py:208-248 | A service notification needs new ids, a new event and, if given, an open unexpired service grant of the member, which it consumes unless the channel is disabled. |
| `MarketingOutcomes.SuppressionSweeps` | backend/alembic/versions/0b91acfedc87_harden_member_repurchase_review_.py:337-388 | A suppressing sweep beside other transactions writes and locks exactly the marketing deliveries it selected as waiting or under way that still are, the sweep of opting out itself only waiting ones. |
| `MarketingOutcomes.RevocationSweeps` | backend/alembic/versions/0b91acfedc87_harden_member_repurchase_review_.py:366-371 | A revoking sweep writes and locks exactly the open marketing grants it selected that are still available. |
| `MarketingOutcomes.OpeningsWrite` | backend/alembic/versions/c36405c62488_add_member_notification_center_and_.py:131-147 | What the first statements of subscribing, of adding a consent and of expiring a grant ask for, write and lock. |
| `MarketingOutcomes.MovesTakeIff` | backend/alembic/versions/0b91acfedc87_harden_member_repurchase_review_.py:190-388 | A call starts when the one before has finished, a sweep looks once and then writes, a move takes place exactly when nobody else holds a row it locks, and nothing is published before the call has finished. |
| `MarketingMoves.PlanIsGood` | backend/alembic/versions/0b91acfedc87_harden_member_repurchase_review_.py:190-388 | Every move of every call leaves the tables its transaction sees with caps, single-use grants, unique events and well-shaped deliveries, writes only locked rows, and creates a marketing delivery only under the lock of its membership's preference. |
| `MarketingMoves.MergedSound` | backend/alembic/versions/0b91acfedc87_harden_member_repurchase_review_.py:202-229 | The rows of two transactions under disjoint locks, each sound on its own view, are sound together: only the holder of a preference adds to its membership's counts, and no grant is consumed twice. |
| `MarketingRuns.StepKeepsInv` | backend/alembic/versions/0b91acfedc87_harden_member_repurchase_review_.py:190-388 | Begin, every move of every call, commit and abort of any transaction keep the committed tables and every running view sound and the record of leases and results in agreement with them. |
| `MarketingRuns.RateLimit` | backend/alembic/versions/0b91acfedc87_harden_member_repurchase_review_.py:213-229 | Over every interleaving each membership has at most one counted delivery created on a Shanghai day and at most three created in any half-open window of seven days, whatever the clocks of the requests. |
| `MarketingRuns.GrantsAreSingleUse` | backend/alembic/versions/0b91acfedc87_harden_member_repurchase_review_.py:229-252 | Over every interleaving every counted delivery consumed a grant, and no two deliveries share one. |
| `MarketingOutcomes.GrantsAreOwn` | backend/alembic/versions/0b91acfedc87_harden_member_repurchase_review_.py:232-236 | Over every interleaving, the grant a delivery carries was given by the member its notification is for and for that class of notification, had not expired and, for marketing, had been authorized when the delivery was created; every counted marketing delivery carries one. |
| `MarketingOutcomes.CreationConsumesOwn` | backend/alembic/versions/0b91acfedc87_harden_member_repurchase_review_.py:232-252 | A creation that finishes beside others consumes no grant but one of its member and template, available, for marketing and valid now, and only for the pending delivery it adds. |
| `MarketingOutcomes.CreationEndsIn` | backend/alembic/versions/0b91acfedc87_harden_member_repurchase_review_.py:213-252 | A creation ends suppressed if and only if the member had a marketing delivery that day or three in seven days, otherwise without authorization if and only if no grant meets the written-out conditions, otherwise pending on one of the earliest authorized grants that do, which alone is consumed. |
| `MarketingOutcomes.PicksIff` | backend/alembic/versions/0b91acfedc87_harden_member_repurchase_review_.py:232-235 | The grant query may pick exactly one of the earliest authorized grants that meet the written-out conditions, or none when there is none. |
| `MarketingOutcomes.CreationAdds` | backend/alembic/versions/0b91acfedc87_harden_member_repurchase_review_.py:222-249 | The notification and delivery a creation adds, due at the first daytime moment when pending, and that no other row changes. |
| `MarketingOutcomes.CreationNeedsReach` | backend/alembic/versions/0b91acfedc87_harden_member_repurchase_review_.py:202-212 | A creation for a member who is not opted in under a standing consent, and one for an event on record, change nothing. |
| `MarketingRuns.LeaseDiscipline` | backend/alembic/versions/0b91acfedc87_harden_member_repurchase_review_.py:46-52 | Over every interleaving a delivery is under way exactly while it has a lease, namely the latest granted; accepted results equal attempts, each is covered by a lease of its own, and there are never more than three. |
| `MarketingLease.CalmLeaseIsWelcome` | backend/alembic/versions/0b91acfedc87_harden_member_repurchase_review_.py:265-293 | Over every interleaving in which nobody commits against a consent another running transaction depends on, no lease is granted on a marketing delivery whose membership has marketing disabled or its consent withdrawn at the moment the lease is written. |
| `MarketingLease.GrantedUnwelcomeIff` | backend/alembic/versions/0b91acfedc87_harden_member_repurchase_review_.py:265-293 | When two transactions commit between the consent test of a lease and its UPDATE and the lease is granted, the delivery is unwelcome at that moment if and only if two of the three transactions disagree about the consent of its membership. |
| `MarketingLease.BareGrantedUnwelcomeIff` | backend/alembic/versions/0b91acfedc87_harden_member_repurchase_review_.py:265-293 | When the transaction of the lease has touched no preference and no consent before, that is the case if and only if the two that committed disagree, one depending on a consent the other withdrew, over the membership of that live delivery. |
| `MarketingReach.RaceGrantsLease` | backend/alembic/versions/0b91acfedc87_harden_member_repurchase_review_.py:265-293 | From every quiet state that allows the race of a subscription with a withdrawal, for a due delivery of that member: a lease tested before the two commit and written afterwards is granted although the delivery is unwelcome by then, and commits so. |
| `MarketingReach.UnwelcomeLeaseIsReached` | backend/alembic/versions/0b91acfedc87_harden_member_repurchase_review_.py:265-293 | Such a lease is granted in a run from empty tables. |
| `MarketingRuns.LeaseDecidesByItsTest` | backend/alembic/versions/0b91acfedc87_harden_member_repurchase_review_.py:265-293 | Whatever other transactions do between the consent test of a lease and its UPDATE, the call suppresses the delivery exactly when that test found it due and unwelcome, and otherwise grants the lease exactly when the delivery is due by then. |
| `MarketingRuns.OnlyCurrentTokenReports` | backend/alembic/versions/0b91acfedc87_harden_member_repurchase_review_.py:311-315 | A result is accepted only under the latest token granted, which no other running transaction has replaced, and before its lease runs out; the lease is over afterwards. |
| `MarketingRuns.EventIsTakenOnce` | backend/alembic/versions/0b91acfedc87_harden_member_repurchase_review_.py:208-212 | A committed notification stays over every interleaving and is the only one of its event; a call that creates for the event again finds it and changes nothing. |
| `MarketingRuns.FinalStaysIff` | backend/alembic/versions/0b91acfedc87_harden_member_repurchase_review_.py:279-287 | A final delivery (accepted, exhausted, unauthorized or suppressed) that nobody has locked stays as it is over every interleaving if and only if it is suppressed or no lease call that found it due and unwelcome earlier has still to write. |
| `MarketingRuns.SuppressedStays` | backend/alembic/versions/0b91acfedc87_harden_member_repurchase_review_.py:265-293 | A suppressed delivery stays as it is over every interleaving, whoever has it locked and whatever is still to be written. |
| `MarketingReach.RaceOverwritesResult` | backend/alembic/versions/0b91acfedc87_harden_member_repurchase_review_.py:279-287 | From every quiet state that allows the race, for a due delivery of that member tried less than three times: a result accepted under the first lease, after a second lease call has made its test, is overwritten by that call. |
| `MarketingReach.AcceptedIsOverwritten` | backend/alembic/versions/0b91acfedc87_harden_member_repurchase_review_.py:279-320 | A run from empty tables reaches a delivery with an accepted result that nobody has locked and that a lease call still suppresses. |
| `MarketingConsent.MergedUnwanted` | backend/alembic/versions/0b91acfedc87_harden_member_repurchase_review_.py:360-388 | When one of two transactions commits and a delivery then is live and unwelcome for the other, either a sweep the other has still to finish selects it, or the two disagree about its member's consent. |
| `MarketingConsent.CalmRunsLeaveNoneUnwanted` | backend/alembic/versions/0b91acfedc87_harden_member_repurchase_review_.py:337-388 | Over every interleaving in which nobody commits while another running transaction has withdrawn a consent it depends on, or depends on one it has withdrawn, no committed live marketing delivery lacks a standing consent. |
| `MarketingConsent.CommitsLeaveUnwantedIff` | backend/alembic/versions/c36405c62488_add_member_notification_center_and_.py:138-147 | If two transactions with finished calls both commit, in either order, a live delivery without standing consent exists afterwards if and only if one of them depends on a consent the other withdrew and a marketing delivery of that membership is still live. |
| `MarketingRace.RaceLeavesUnwanted` | backend/alembic/versions/c36405c62488_add_member_notification_center_and_.py:138-155 | From every quiet state with a member who has a live delivery and may subscribe under another standing consent nobody rests on, there is an interleaving of that subscription and a withdrawal of that consent after which the delivery is live without consent. |
| `MarketingRace.RaceIsReached` | backend/alembic/versions/0b91acfedc87_harden_member_repurchase_review_.py:360-388 | The race is reached from empty tables: two consents are given, the member subscribes under the first and is invited, then subscribes under the second while that one is withdrawn. |
| `MarketingSerial.CreateAlone` | backend/alembic/versions/0b91acfedc87_harden_member_repurchase_review_.py:202-252 | Creating with nothing beside it, move by move, is the creation function of the specification, for each grant the query may pick. |
| `MarketingSerial.SubscribeAlone` | backend/alembic/versions/c36405c62488_add_member_notification_center_and_.py:131-155 | Subscribing with nothing beside it, move by move, is the specified function, refusals included. |
| `MarketingSerial.UnsubscribeAlone` | backend/alembic/versions/c36405c62488_add_member_notification_center_and_.py:131-166 | Unsubscribing with nothing beside it, its trigger and its own sweeps one after the other, is the specified function. |
| `MarketingSerial.ChangeConsentAlone` | backend/alembic/versions/0b91acfedc87_harden_member_repurchase_review_.py:360-388 | A consent change with nothing beside it, the two sweeps of its trigger included, is the specified function. |
| `MarketingSerial.LeaseAlone` | backend/alembic/versions/0b91acfedc87_harden_member_repurchase_review_.py:265-293 | A lease with nothing beside it suppresses, grants, declines or violates the token constraint as specified. |
| `MarketingSerial.ReportAlone` | backend/alembic/versions/0b91acfedc87_harden_member_repurchase_review_.py:298-332 | Reporting a result with nothing beside it takes or refuses it as specified. |
| `MarketingSerial.ServeAlone` | backend/alembic/versions/c36405c62488_add_member_notification_center_and_.py:217-248 | A service notification with nothing beside it inserts notification and delivery and consumes its grant, or is refused, as specified. |
| `MarketingTables.Store.FindHappening` | backend/alembic/versions/0b91acfedc87_harden_member_repurchase_review_.py:208-212 | The lookup of a source event returns its notification, if it has one. |
| `MarketingTables.Store.PickGrant` | backend/alembic/versions/0b91acfedc87_harden_member_repurchase_review_.py:232-235 | The grant query picks a usable grant authorized no later than any other usable one, or none when there is none. |
| `MarketingTables.Store.Create` | backend/alembic/versions/0b91acfedc87_harden_member_repurchase_review_.py:192-253 | Creating a notification, run statement by statement, agrees with the creation specification for a grant the query may pick. |
| `MarketingTables.Store.Lease` | backend/alembic/versions/0b91acfedc87_harden_member_repurchase_review_.py:259-293 | Leasing suppresses, grants or declines exactly as specified; a missing token violates the lease constraint. |
| `MarketingTables.Store.Report` | backend/alembic/versions/0b91acfedc87_harden_member_repurchase_review_.py:298-332 | Recording a result checks evidence and lease, counts the attempt and settles the delivery exactly as specified, or changes nothing. |
| `MarketingTables.Store.Unsubscribe` | backend/alembic/versions/c36405c62488_add_member_notification_center_and_.py:156-166 | Unsubscribing, with the preference trigger, disables marketing, revokes the open grants and suppresses the live deliveries as specified. |
| `MarketingTables.Store.ChangeConsent` | backend/alembic/versions/0b91acfedc87_harden_member_repurchase_review_.py:360-388 | Withdrawing a consent, with its trigger, revokes the open grants and suppresses the live deliveries of every membership resting on it. |
| `AssociationBackfill.WritesKeepSound` | backend/alembic/versions/647cdfd9457f_enforce_tenant_identity_and_governance_.py:422-500 | Writes of other transactions through the tenant-setting triggers never create a NULL or wrong tenant column. |
| `AssociationBackfill.FillingKeepsSound` | backend/alembic/versions/648cdfd94580_backfill_and_validate_tenant_governance.py:273-283 | A batch fills exactly its rows, each with the tenant of both endpoints. |
| `BackfillOutcomes.TriggerSetsIff` | backend/alembic/versions/647cdfd9457f_enforce_tenant_identity_and_governance_.py:422-500 | A mapping written through the trigger gets the tenant of both its endpoints, and is refused if they have no common tenant or another one was given. |
| `BackfillOutcomes.FillableIff` | backend/alembic/versions/648cdfd94580_backfill_and_validate_tenant_governance.py:254-262 | A batch may fill a row if and only if its column is NULL and its endpoints exist in one tenant. |
| `BackfillOutcomes.BatchIsBounded` | backend/alembic/versions/648cdfd94580_backfill_and_validate_tenant_governance.py:254-280 | A batch looks at no more than a thousand tenants with rows to fill and fills no more than a thousand of their unlocked rows, none only if all of them are locked. |
| `BackfillOutcomes.BatchFills` | backend/alembic/versions/648cdfd94580_backfill_and_validate_tenant_governance.py:281-288 | A batch gives exactly the rows it picked the tenant of both their endpoints. |
| `BackfillOutcomes.SoundIff` | backend/alembic/versions/648cdfd94580_backfill_and_validate_tenant_governance.py:235-302 | The soundness the backfill keeps is that every filled row carries the tenant of both its endpoints. |
| `BackfillOutcomes.CompleteIff` | backend/alembic/versions/648cdfd94580_backfill_and_validate_tenant_governance.py:235-302 | Completeness is that every row is filled and carries the tenant of both its endpoints. |
| `AssociationBackfill.Association.Batch` | backend/alembic/versions/648cdfd94580_backfill_and_validate_tenant_governance.py:247-290 | One batch fills only fillable, unlocked rows, at most a batch size of them, and with no lock held by others fills none only when none is left. |
| `AssociationBackfill.Association.Backfill` | backend/alembic/versions/648cdfd94580_backfill_and_validate_tenant_governance.py:235-302 | The backfill ends whatever others write and lock; it returns without raising exactly when no NULL row is left, and then every mapping carries the tenant of both endpoints; with nobody else around it returns exactly when no NULL row has disagreeing endpoints. |
| `CatalogLaws.SmoothItem` | backend/alembic/versions/648cdfd94580_backfill_and_validate_tenant_governance.py:580-680 | An undisturbed ensure step gets through exactly when the named objects are absent or of the wanted shape and not dead, and then completes the object. |
| `CatalogLaws.TroubledItem` | backend/alembic/versions/648cdfd94580_backfill_and_validate_tenant_governance.py:580-680 | Under any faults an ensure step leaves its objects in the wanted shape and the result to be reached unchanged; it gets through only complete, and an index dies only in an interrupted drop. |
| `CatalogLaws.TroubledRun` | backend/alembic/versions/648cdfd94580_backfill_and_validate_tenant_governance.py:720-748 | However a run from objects of the wanted shape is disturbed, it leaves objects of the wanted shape and the same goal; a run that gets through has reached it, and no index dies unless a drop was interrupted. |
| `CatalogLaws.RerunConverges` | backend/alembic/versions/648cdfd94580_backfill_and_validate_tenant_governance.py:720-757 | After any number of runs interrupted in any way, one undisturbed run gets through if and only if no planned index was left a dead shell, and then ends in the very catalog an undisturbed run from the beginning ends in; only an interrupted drop leaves such a shell. |
| `CatalogLaws.UpgradePlanIsDistinct` | backend/alembic/versions/648cdfd94580_backfill_and_validate_tenant_governance.py:31-88 | The index and constraint lists of the upgrade name distinct objects, so the convergence results apply to them. |
| `CatalogLaws.SmoothRunIffAllFit` | backend/alembic/versions/648cdfd94580_backfill_and_validate_tenant_governance.py:580-680 | An undisturbed run gets through if and only if every named object is absent or of the wanted shape and not dead. |
| `CatalogLaws.ForeignObjectsStay` | backend/alembic/versions/648cdfd94580_backfill_and_validate_tenant_governance.py:580-653 | No run, however disturbed, drops, rebuilds or renames an index of another shape or a dead shell, or drops or redefines a constraint. |
| `CatalogLaws.UnfitIsRefusedForever` | backend/alembic/versions/648cdfd94580_backfill_and_validate_tenant_governance.py:583-592 | Once a named object does not fit, no run gets through and it still does not fit afterwards. |
| `CatalogLaws.InterruptedDropKills` | backend/alembic/versions/648cdfd94580_backfill_and_validate_tenant_governance.py:584-594 | A build interrupted once and its clean-up drop interrupted in the next run leave a dead index, for a plain index and for that of a unique constraint alike. |
| `CatalogOutcomes.ThroughMeansComplete` | backend/alembic/versions/648cdfd94580_backfill_and_validate_tenant_governance.py:580-680 | A step that gets through, whatever was there and whatever went wrong, has left its object complete column by column: index valid, ready and live, unique constraint on its renamed index, foreign key and check validated. |
| `CatalogOutcomes.ItemThroughIff` | backend/alembic/versions/648cdfd94580_backfill_and_validate_tenant_governance.py:580-680 | A step gets through if and only if what is there is as it is to be and every statement still needed (drop, build, add, validate) goes through. |
| `CatalogOutcomes.IndexLeftBehind` | backend/alembic/versions/648cdfd94580_backfill_and_validate_tenant_governance.py:580-594 | What ensuring an index leaves when it does not get through: a live shell, nothing, a dead index, or the catalog as it was, according to which statement broke off. |
| `CatalogOutcomes.IndexTaken` | backend/alembic/versions/648cdfd94580_backfill_and_validate_tenant_governance.py:621-622 | Making a unique constraint from an index takes a usable plain unique one of the table whose new name is free, and renames it; otherwise nothing happens. |
| `CatalogOutcomes.UniqueThroughIff` | backend/alembic/versions/648cdfd94580_backfill_and_validate_tenant_governance.py:615-624 | Ensuring a unique constraint alone gets through if and only if it stands on its index, or is absent while its index stands and the new name is free. |
| `CatalogOutcomes.ConstraintLeftBehind` | backend/alembic/versions/648cdfd94580_backfill_and_validate_tenant_governance.py:627-680 | A foreign key or check that does not get through is left unvalidated if it could be added, and as it was otherwise. |
| `CatalogUpgrade.Database.EnsureIndex` | backend/alembic/versions/648cdfd94580_backfill_and_validate_tenant_governance.py:580-594 | Ensuring an index, statement by statement, agrees with the index specification under every fault. |
| `CatalogUpgrade.Database.EnsureUnique` | backend/alembic/versions/648cdfd94580_backfill_and_validate_tenant_governance.py:615-624 | Ensuring a unique constraint from its index agrees with the specification under every fault. |
| `CatalogUpgrade.Database.EnsureValidated` | backend/alembic/versions/648cdfd94580_backfill_and_validate_tenant_governance.py:627-680 | Ensuring and validating a foreign key or NOT NULL check agrees with the specification under every fault. |
| `CatalogUpgrade.Database.Upgrade` | backend/alembic/versions/648cdfd94580_backfill_and_validate_tenant_governance.py:726-737 | The loops over the lists, stopping at the first refusal, agree with the plan specification. |

## Left out

- Row level security, grants, `session_user` and tenant-context checks: the caller is assumed to pass them; each component is modelled for one tenant except governance, where tenants matter.
- Formats of keys, digests, ciphertexts, nonces and evidence hashes outside the coupon tables: a request says whether it is well formed, and stored values are compared for equality only.
- Foreign keys of the governance tables, and the permission tables, which take no part in the administrator and hierarchy checks.
- A rule or coupon request names its rule or coupon; parsing of payload values, integer widths, the rule currency (a constant) and the memory of `occurred_at` are not modelled. Benefit, membership, store, account, claim and scan rows are parameters of each request.
- Two coupon requests of different memberships, or two rule requests, under one idempotency key at the same moment: the second is refused by the unique index where the model, one call after the other, answers it from the log.
- Two membership calls of different kinds under one idempotency key at the same moment: both pass the lookup of the key, and the unique index on tenant and key refuses the later event, so that call leaves no trace; the model, one call after the other, answers it from the event of the first.
- Coupons of external connectors beyond the branches that test their synchronization state; no function modelled here creates one.
- Tenant, product and SKU of a code batch: they travel with the production batch id through a composite foreign key, and the id stands for all of them.
- Columns without influence on any decision (titles, facts, template versions, suppression reasons, message references, `updated_at`).
- The session before rollout is finalized and the privileged session, except in CodeDelivery.ItemMovesBatchIffLegacyOpen; deletions of batches, items, receipts and versioned manifests are always refused outside them.
- Later replacements of these functions in other revisions, and the artifact download function.
- Re-homing of coupons, orders, grants, notifications and preferences by the merge wrapper of `0b91acfedc87`: the coupon trigger shown refuses a changed membership, and the revisions between them are not part of this model. Membership merges are therefore not steps of the coupon and marketing runs.
- Expired grants: nothing shown sets that status, so the marketing runs have a call that does.
- MarketingRuns.FinalStaysIff: says nothing about an accepted, exhausted or unauthorized delivery some transaction has locked at that moment; what it becomes is decided by whether that transaction commits. Suppressed ones stay whoever has them locked.
- In the marketing interleavings creating may always end in a suppressed or unauthorized delivery, since what it counted may be gone, and a grant it looked for locked, by the time it inserts; `MarketingSerial.CreateAlone` says when it does with nothing beside it.
- Commerce and coupon service notifications are one move that adds a service delivery with or without a service grant.
- Coupon events carry every column but the actor id, the time and the details other than the discount.
- The drift scans of the upgrade other than the organization walk, its advisory lock, timeouts and the downgrade; a statement that times out is a fault that leaves the catalog alone.
- The unique key a foreign key refers to: the model does not make adding a foreign key depend on it.
- The order of backfill rows and tenants within a batch: the model allows every choice of at most a batch size.
- Lock waiting and deadlocks: a step that would wait is not taken, and nothing is claimed about progress.
- Outbound message delivery, the web application and everything else outside the database functions.
