/**
  The migration transactions that touch several rows, statement by statement. Statements work on the
  transaction's copy of the rows; only a commit stores it.
 */
module MigrationDatabase {
  import opened Migrations
  import opened MigrationSafety
  import opened MigrationTheorems

  /** A fenced caller finalizes only while its verification lease matches; expiry is nondeterministic. */
  datatype Fence = Unfenced | Verifier(leaseHeld: bool)

  class MigrationRows {
    var rows: State

    /** The task_stats query: one pass over the task rows. */
    method Aggregate() returns (st: Stats)
      ensures st == Tally(rows.tasks)
    {
      st := Stats(0, 0, 0, 0, 0, 0, 0, 0);
      var i := 0;
      while i < |rows.tasks|
        invariant i <= |rows.tasks| && st == Tally(rows.tasks[..i])
      {
        assert rows.tasks[..i + 1][..i] == rows.tasks[..i];
        st := AddRow(st, rows.tasks[i]);
        i := i + 1;
      }
      assert rows.tasks[..i] == rows.tasks;
    }

    /** reconcileMigrationProgress. */
    method Reconcile(fence: Fence) returns (applied: bool)
      requires rows.m.status != Scheduled
      modifies this
      ensures applied <==> fence.Unfenced? || (fence.leaseHeld && old(rows).m.status == Verifying)
      ensures applied ==> Next(old(rows), Step.Reconcile, rows)
      ensures !applied ==> rows == old(rows)
      ensures applied ==> rows.m.counts.processed + Queued(rows.tasks) == |rows.tasks|
      ensures applied && Finished(rows.m.status) && !Finished(old(rows).m.status) ==> AllSettled(rows.tasks)
    {
      if fence.Verifier? && !(fence.leaseHeld && rows.m.status == Verifying) {
        return false;
      }
      ReconcileAccountsForEveryTask(rows);
      ReconcileFinishesSettled(rows);
      var st := Aggregate();
      var tx := rows.(m := ReconciledRow(rows.m, st, rows.indexErrors));
      if Terminal(tx.m.status) {
        tx := Notify(tx);
      }
      rows := tx;
      return true;
    }

    /** UpdateMigrationStatus, at its call sites' target states. */
    method UpdateStatus(target: Status)
      requires target == Paused || target == Cancelled || target == Failed
      modifies this
      ensures Next(old(rows), Step.UpdateStatus(target), rows)
      ensures Outbox(old(rows).m, old(rows).events) ==> Outbox(rows.m, rows.events) && NotifiesOnce(old(rows), rows)
      ensures Outbox(old(rows).m, old(rows).events) && EventReportsStatus(old(rows)) ==>
        (EventReportsStatus(rows) <==> !(target == Failed && Finished(old(rows).m.status)))
    {
      ghost var before := rows;
      var leaves := Terminal(rows.m.status) && !Terminal(target);
      var tx := rows.(m := rows.m.(status := target,
                                   notificationGeneration := rows.m.notificationGeneration + if leaves then 1 else 0));
      if Terminal(target) {
        tx := Notify(tx);
      }
      rows := tx;
      if Outbox(before.m, before.events) {
        StepNotifies(before, Step.UpdateStatus(target), rows);
        if EventReportsStatus(before) {
          ReportKept(before, Step.UpdateStatus(target), rows);
        }
      }
    }

    /** ResetFailedTasksForRetry: requeues the rows first and rolls back when the migration is not terminal. */
    method RetryFailed() returns (count: nat)
      modifies this
      ensures count > 0 ==> Next(old(rows), Step.RetryFailed, rows)
      ensures count == 0 ==> rows == old(rows)
      ensures count > 0 <==> Terminal(old(rows).m.status) && old(rows).tasks != MapRows(old(rows).tasks, RequeueEnded)
    {
      var st := Aggregate();
      var tx := rows;
      EndedRows(tx.tasks);
      count := st.broken + st.withdrawn;
      if count == 0 {
        return;
      }
      tx := tx.(tasks := MapRows(tx.tasks, RequeueEnded));
      if !Terminal(tx.m.status) {
        return 0;
      }
      tx := tx.(m := tx.m.(status := Running, notificationGeneration := tx.m.notificationGeneration + 1,
                           retryDone := false, counts := RetriedCounts(tx.m.counts, rows.tasks)));
      rows := tx;
    }

    /** The row and its event at the end of FailMigrationForAuthentication. */
    method FailEnded(before: State, counts: Counts) returns (tx: State)
      ensures tx == Finish(before.(m := before.m.(counts := counts)), Failed)
    {
      tx := before.(m := before.m.(counts := counts));
      tx := tx.(m := tx.m.(status := Failed, notificationGeneration := tx.m.notificationGeneration + 1));
      tx := Notify(tx);
    }

    /** FailMigrationForAuthentication: task changes are rolled back when the migration is not active. */
    method FailAuthentication(task: nat) returns (failed: bool)
      modifies this
      ensures failed ==> Next(old(rows), Step.FailAuthentication(task), rows)
      ensures !failed ==> rows == old(rows)
      ensures failed <==> task < |old(rows).tasks| && old(rows).tasks[task].status == InProgress
                          && (old(rows).m.status == Running || old(rows).m.status == Indexing)
      ensures failed ==> Queued(rows.tasks) == 0
    {
      var tx := rows;
      if task >= |tx.tasks| || tx.tasks[task].status != InProgress {
        return false;
      }
      tx := tx.(tasks := tx.tasks[task := tx.tasks[task].(status := Broken, retry := false)]);
      tx := tx.(tasks := MapRows(tx.tasks, WithdrawOpen));
      if tx.m.status != Running && tx.m.status != Indexing {
        return false;
      }
      tx := FailEnded(tx, EndedCounts(tx.m.counts, Tally(tx.tasks)));
      NoneQueued(tx.tasks);
      rows := tx;
      return true;
    }
  }

  /** The count is positive exactly when some row has ended badly, which is when requeueing changes something. */
  lemma {:induction false} EndedRows(tasks: seq<Task>)
    ensures Tally(tasks).broken + Tally(tasks).withdrawn > 0 <==>
              exists i :: 0 <= i < |tasks| && (tasks[i].status == Broken || tasks[i].status == Withdrawn)
    ensures tasks != MapRows(tasks, RequeueEnded) <==>
              exists i :: 0 <= i < |tasks| && (tasks[i].status == Broken || tasks[i].status == Withdrawn)
  {
    EndedCounted(tasks);
    var mapped := MapRows(tasks, RequeueEnded);
    if i :| 0 <= i < |tasks| && (tasks[i].status == Broken || tasks[i].status == Withdrawn) {
      assert mapped[i] != tasks[i];
    } else {
      assert mapped == tasks;
    }
  }

  lemma {:induction false} EndedCounted(tasks: seq<Task>)
    ensures Tally(tasks).broken + Tally(tasks).withdrawn > 0 <==>
              exists i :: 0 <= i < |tasks| && (tasks[i].status == Broken || tasks[i].status == Withdrawn)
  {
    if tasks != [] {
      var last := |tasks| - 1;
      var before := tasks[..last];
      EndedCounted(before);
      if i :| 0 <= i < |tasks| && (tasks[i].status == Broken || tasks[i].status == Withdrawn) {
        assert i < last ==> before[i] == tasks[i];
      } else {
        assert forall i :: 0 <= i < |before| ==> before[i] == tasks[i];
      }
    }
  }

  lemma {:induction false} NoneQueued(tasks: seq<Task>)
    requires forall i :: 0 <= i < |tasks| ==> tasks[i].status != Pending && tasks[i].status != InProgress
    ensures Queued(tasks) == 0
  {
    if tasks != [] {
      NoneQueued(tasks[..|tasks| - 1]);
    }
  }
}
