/** The stages of a code batch in order: what one write may do to its status, and which
    stages are committed on the way from one to another. */
module CodeStages {
  import opened Sql
  import opened CodeDelivery
  import opened CodeLaws
  import opened CodeProtocol

  /** How far a batch has come; a failed one is off the way. */
  function Rank(status: BatchStatus): int {
    match status
    case Failed => -1
    case Pending => 0
    case Generating => 1
    case Completed => 2
    case Exported => 3
    case Printing => 4
    case Delivered => 5
    case Activated => 6
  }

  predicate NextStage(before: BatchStatus, after: BatchStatus) {
    || (Rank(before) >= 0 && Rank(after) == Rank(before) + 1)
    || (Rank(before) == 1 && Rank(after) == -1)
  }

  // ---------------------------------------------------------------------------
  // One write

  /** An accepted write that changes the status of a contract-1 batch takes it exactly one
      stage further, or from generating to failed; nothing leaves the last stage or a
      failure; a new batch is pending or generating. */
  lemma StagesInOrder(v: Tables, x: Tx, today: int, id: Uuid, given: CodeBatch, e: Effect)
    requires PutBatchRow(v, x, today, id, given) == Some(e)
    ensures id in e.tx.batches && e.tx.batches[id].status == given.status && e.tx.batches[id].contract == 1
    ensures id !in v.batches ==> Rank(given.status) in {0, 1}
    ensures id in v.batches && v.batches[id].contract == 1 ==>
              given.status == v.batches[id].status || NextStage(v.batches[id].status, given.status)
    ensures id in v.batches && v.batches[id].contract == 1 && Rank(v.batches[id].status) in {-1, 6} ==>
              given.status == v.batches[id].status
  {
  }

  // ---------------------------------------------------------------------------
  // Over runs

  /** The batch a transaction has written is one stage beyond the committed one at most. */
  ghost predicate Staged(s: State, b: Uuid) {
    && b in s.db.batches && s.db.batches[b].contract == 1
    && (forall tx :: tx in s.txs && b in s.txs[tx].batches ==> Ahead(s.db.batches[b], s.txs[tx].batches[b]))
    && forall x, y :: x in s.txs && y in s.txs && b in s.txs[x].batches && b in s.txs[y].batches ==> x == y
  }

  predicate Ahead(before: CodeBatch, after: CodeBatch) {
    after.contract == 1 && (after.status == before.status || NextStage(before.status, after.status))
  }

  predicate Writes(s: State, step: Step, b: Uuid) {
    step.Run? && step.tx in s.txs && step.statement.PutBatch? && step.statement.id == b
  }

  function Then(s: State, step: Step): State {
    if Next(s, step).Some? then Next(s, step).value else s
  }

  /** No transaction writes the batch after it has written it. */
  predicate WritesOnce(s: State, steps: seq<Step>, b: Uuid)
    decreases |steps|
  {
    steps == [] ||
    ((Writes(s, steps[0], b) ==> b !in s.txs[steps[0].tx].batches) && WritesOnce(Then(s, steps[0]), steps[1..], b))
  }

  lemma OtherStatementsLeaveBatch(v: Tables, x: Tx, today: int, statement: Statement, e: Effect, b: Uuid)
    requires Execute(v, x, today, statement) == Some(e) && !(statement.PutBatch? && statement.id == b)
    ensures b in e.tx.batches <==> b in x.batches
    ensures b in x.batches ==> e.tx.batches[b] == x.batches[b]
  {
  }

  lemma RunKeepsStaged(s: State, tx: Uuid, today: int, statement: Statement, b: Uuid)
    requires Staged(s, b) && Next(s, Run(tx, today, statement)).Some?
    requires Writes(s, Run(tx, today, statement), b) ==> b !in s.txs[tx].batches
    ensures Staged(Next(s, Run(tx, today, statement)).value, b)
    ensures Next(s, Run(tx, today, statement)).value.db == s.db
  {
    var v := View(s.db, s.txs[tx]);
    var e := Execute(v, s.txs[tx], today, statement).value;
    if statement.PutBatch? && statement.id == b {
      assert v.batches[b] == s.db.batches[b];
      StagesInOrder(v, s.txs[tx], today, b, statement.batch, e);
      forall other | other in s.txs && other != tx ensures b !in s.txs[other].batches {
        assert RowsApart(e.tx, s.txs[other]);
        assert b in e.tx.batches.Keys;
      }
    } else {
      OtherStatementsLeaveBatch(v, s.txs[tx], today, statement, e, b);
    }
  }

  /** One step commits at most the next stage. */
  lemma StepStages(s: State, step: Step, b: Uuid)
    requires Staged(s, b) && (Writes(s, step, b) ==> b !in s.txs[step.tx].batches)
    ensures Staged(Then(s, step), b) && Ahead(s.db.batches[b], Then(s, step).db.batches[b])
  {
    if step.Run? && Next(s, step).Some? {
      RunKeepsStaged(s, step.tx, step.today, step.statement, b);
    }
  }

  lemma RunsThen(s: State, steps: seq<Step>)
    requires steps != []
    ensures Runs(s, steps) == Runs(Then(s, steps[0]), steps[1..])
  {
  }

  /** Within the first steps the batch was committed at this rank. */
  ghost predicate Visits(s: State, steps: seq<Step>, b: Uuid, rank: int) {
    exists k :: 0 <= k <= |steps| && CommittedAt(Runs(s, steps[..k]), b, rank)
  }

  predicate CommittedAt(s: State, b: Uuid, rank: int) {
    b in s.db.batches && Rank(s.db.batches[b].status) == rank
  }

  lemma VisitsLater(s: State, steps: seq<Step>, b: Uuid, rank: int)
    requires steps != [] && Visits(Then(s, steps[0]), steps[1..], b, rank)
    ensures Visits(s, steps, b, rank)
  {
    var k :| 0 <= k <= |steps[1..]| && CommittedAt(Runs(Then(s, steps[0]), steps[1..][..k]), b, rank);
    var front := steps[..k + 1];
    assert front[0] == steps[0] && front[1..] == steps[1..][..k];
    RunsThen(s, front);
    assert CommittedAt(Runs(s, steps[..k + 1]), b, rank);
  }

  lemma {:induction false} FailureStays(s: State, steps: seq<Step>, b: Uuid)
    requires Staged(s, b) && WritesOnce(s, steps, b) && s.db.batches[b].status == Failed
    ensures CommittedAt(Runs(s, steps), b, -1)
    decreases |steps|
  {
    if steps != [] {
      StepStages(s, steps[0], b);
      FailureStays(Then(s, steps[0]), steps[1..], b);
      RunsThen(s, steps);
    }
  }

  /** Over every interleaving in which no transaction writes a contract-1 batch twice, the
      batch is committed at every stage between two it is committed at: none is skipped
      and none is gone back to. */
  lemma {:induction false} StagesAreVisited(s: State, steps: seq<Step>, b: Uuid, rank: int)
    requires Staged(s, b) && WritesOnce(s, steps, b)
    requires b in Runs(s, steps).db.batches && 0 <= Rank(Runs(s, steps).db.batches[b].status)
    requires Rank(s.db.batches[b].status) <= rank <= Rank(Runs(s, steps).db.batches[b].status)
    ensures Visits(s, steps, b, rank)
    decreases |steps|
  {
    if Rank(s.db.batches[b].status) == rank {
      assert steps[..0] == [] && Runs(s, []) == s;
      assert CommittedAt(Runs(s, steps[..0]), b, rank);
    } else {
      if s.db.batches[b].status == Failed {
        FailureStays(s, steps, b);
        assert false;
      }
      StepStages(s, steps[0], b);
      RunsThen(s, steps);
      var t := Then(s, steps[0]);
      if t.db.batches[b].status == Failed {
        FailureStays(t, steps[1..], b);
        assert false;
      }
      StagesAreVisited(t, steps[1..], b, rank);
      VisitsLater(s, steps, b, rank);
    }
  }

  /** So a batch committed as exported and later as delivered was committed as printing
      in between. */
  lemma DeliveredWasPrinted(s: State, steps: seq<Step>, b: Uuid)
    requires Staged(s, b) && WritesOnce(s, steps, b) && s.db.batches[b].status == Exported
    requires b in Runs(s, steps).db.batches && Runs(s, steps).db.batches[b].status == Delivered
    ensures exists k :: 0 <= k <= |steps| && b in Runs(s, steps[..k]).db.batches
                        && Runs(s, steps[..k]).db.batches[b].status == Printing
  {
    StagesAreVisited(s, steps, b, 4);
    var k :| 0 <= k <= |steps| && CommittedAt(Runs(s, steps[..k]), b, 4);
    assert Runs(s, steps[..k]).db.batches[b].status == Printing;
  }
}
