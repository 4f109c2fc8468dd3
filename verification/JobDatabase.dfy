/**
  The transactions on the rows of one backup job, statement by statement. Every statement works on the
  transaction's own copy of the rows; only a commit stores it, so an early return rolls back.
 */
module JobDatabase {
  import opened RunProtocol

  datatype Claim = Overlap | Blocked | Duplicate | Rejected | Claimed(run: RunId)

  datatype Outcome = Committed | NotMatched | Inconsistent | Invalid

  /** The run found by the queued-run query, if any. */
  datatype Found = None | Some(run: RunId)

  class JobRows {
    var rows: State

    /** ClaimBackupJobPassContext; `run` is the generated ID. */
    method ClaimPass(run: RunId, key: Key) returns (claim: Claim)
      modifies this
      ensures claim.Claimed? ==> claim.run == run && Next(old(rows), Step.ClaimPass(run, key), rows)
      ensures !claim.Claimed? ==> rows == old(rows)
      ensures claim == Overlap <==> ActiveStatus(old(rows).job.status)
      ensures claim == Blocked <==> old(rows).job.status == Paused || old(rows).job.status == Deleting
      ensures claim == Duplicate <==>
        (old(rows).job.status == Idle || old(rows).job.status == Failed) && !KeyFree(old(rows), key)
      ensures Inv(old(rows)) ==>
        (claim == Rejected <==>
           && (old(rows).job.status == Idle || old(rows).job.status == Failed)
           && KeyFree(old(rows), key) && run in old(rows).runs)
    {
      var tx := rows;
      var status, generation := tx.job.status, tx.job.generation;
      if status == Queued || status == Scanning || status == Running || status == Verifying {
        return Overlap;
      }
      if status != Idle && status != Failed {
        return Blocked;
      }
      if !KeyFree(tx, key) {
        return Duplicate;
      }
      if run in tx.runs || exists r :: r in tx.runs && tx.runs[r].generation == generation + 1 {
        return Rejected;
      }
      tx := tx.(runs := tx.runs[run := Run(generation + 1, At(Queued), key)]);
      tx := tx.(job := tx.job.(status := Queued, generation := generation + 1));
      rows := tx;
      return Claimed(run);
    }

    /** ClaimNextQueuedBackupRunContext, for the queue of one job. */
    method ClaimNextQueued() returns (found: Found)
      modifies this
      ensures found.Some? ==> Next(old(rows), Step.ClaimQueued(found.run), rows)
      ensures found.None? ==> rows == old(rows)
      ensures Inv(old(rows)) ==> (found.Some? <==> old(rows).job.status == Queued)
    {
      var tx := rows;
      var candidates := set r | r in tx.runs && tx.runs[r].state == At(Queued) && tx.job.status == Queued
                                && tx.job.generation == tx.runs[r].generation && !tx.job.deletionRequested;
      if candidates == {} {
        QueuedIsClaimable(tx, candidates);
        return None;
      }
      var run :| run in candidates;
      tx := SetRun(tx, run, At(Scanning));
      tx := SetStatus(tx, Scanning);
      rows := tx;
      return Some(run);
    }

    /** TransitionBackupRunContext. */
    method Transition(run: RunId, generation: nat, from: Status, to: Status) returns (outcome: Outcome)
      modifies this
      ensures outcome == Committed ==> Next(old(rows), Step.Transition(run, generation, from, to), rows)
      ensures outcome != Committed ==> rows == old(rows)
      ensures outcome == Invalid <==> !ValidTransition(from, to)
      ensures Inv(old(rows)) ==> outcome != Inconsistent
      ensures Inv(old(rows)) && ValidTransition(from, to) ==>
        (outcome == Committed <==> RunMatches(old(rows), run, generation, from))
    {
      if !ValidTransition(from, to) {
        return Invalid;
      }
      var tx := rows;
      if !RunMatches(tx, run, generation, from) {
        return NotMatched;
      }
      tx := SetRun(tx, run, At(to));
      if !JobMatches(tx, generation, from) {
        return Inconsistent;
      }
      tx := SetStatus(tx, to);
      rows := tx;
      return Committed;
    }

    /** FinalizeBackupRunContext and FailBackupRunContext: both complete the run. */
    method Complete(run: RunId, generation: nat, from: Status, terminal: RunState) returns (outcome: Outcome)
      modifies this
      ensures outcome == Committed ==> Next(old(rows), Step.Complete(run, generation, from, terminal), rows)
      ensures outcome != Committed ==> rows == old(rows)
      ensures outcome == Invalid <==> !ValidOutcome(from, terminal)
      ensures Inv(old(rows)) ==> outcome != Inconsistent
      ensures Inv(old(rows)) && ValidOutcome(from, terminal) ==>
        (outcome == Committed <==> RunMatches(old(rows), run, generation, from))
    {
      if !ValidOutcome(from, terminal) {
        return Invalid;
      }
      var tx := rows;
      if !RunMatches(tx, run, generation, from) {
        return NotMatched;
      }
      tx := SetRun(tx, run, terminal);
      if !JobMatches(tx, generation, from) {
        return Inconsistent;
      }
      tx := SetStatus(tx, if terminal == RunFailed then Failed else Idle);
      tx := Notify(tx, run);
      rows := tx;
      return Committed;
    }

    /** PublishBackupSnapshotAndFinalizeContext. */
    method Publish(run: RunId, generation: nat, snap: SnapId, whole: bool) returns (published: bool)
      modifies this
      ensures published ==> Next(old(rows), Step.Publish(run, generation, snap, whole), rows)
      ensures !published ==> rows == old(rows)
      ensures Inv(old(rows)) ==>
        (published <==> snap in old(rows).snaps && old(rows).snaps[snap] == Snap(run, Publishing)
                        && RunMatches(old(rows), run, generation, Verifying))
    {
      var tx := rows;
      if !(snap in tx.snaps && tx.snaps[snap].run == run && tx.snaps[snap].state == Publishing) {
        return false;
      }
      tx := tx.(snaps := tx.snaps[snap := tx.snaps[snap].(state := if whole then Available else Partial)]);
      if !RunMatches(tx, run, generation, Verifying) {
        return false;
      }
      tx := SetRun(tx, run, if whole then Completed else Incomplete);
      if !JobMatches(tx, generation, Verifying) {
        return false;
      }
      tx := SetStatus(tx, Idle);
      tx := Notify(tx, run);
      rows := tx;
      return true;
    }

    /**
      RecoverStaleBackupRunsContext: one statement fails every silent run that still owns its job, then a loop
      fails the jobs and removes the drafts. On one job at most one run qualifies.
     */
    method RecoverStale(silent: set<RunId>) returns (recovered: set<RunId>)
      requires Inv(rows)
      modifies this
      ensures recovered == (set r | r in old(rows).runs && r in silent && StaleRun(old(rows), r))
      ensures recovered == {} ==> rows == old(rows)
      ensures recovered != {} ==> exists r :: recovered == {r} && Next(old(rows), Step.RecoverStale(r), rows)
    {
      var tx := rows;
      recovered := set r | r in tx.runs && r in silent && StaleRun(tx, r);
      AtMostOneStale(tx, recovered);
      tx := tx.(runs := map r | r in tx.runs :: if r in recovered then tx.runs[r].(state := RunFailed) else tx.runs[r]);
      if recovered == {} {
        assert tx.runs == rows.runs;
        return;
      }
      ghost var only :| recovered == {only};
      var left := recovered;
      while left != {}
        invariant left <= recovered && tx.runs.Keys == rows.runs.Keys && rows == old(rows)
        invariant tx.runs == SetRun(rows, only, RunFailed).runs
        invariant left == {} ==> tx == DropDrafts(SetStatus(SetRun(rows, only, RunFailed), Failed), only)
        invariant left != {} ==> tx == SetRun(rows, only, RunFailed)
      {
        var run :| run in left;
        if tx.job.generation == tx.runs[run].generation && Owned(tx.job.status) {
          tx := SetStatus(tx, Failed);
        }
        tx := DropDrafts(tx, run);
        left := left - {run};
      }
      rows := tx;
      assert RecoverStaleStep(old(rows), only, rows);
    }

    /** The pause branch of handleBackupStateChange. */
    method Pause() returns (done: bool)
      modifies this
      ensures done ==> Next(old(rows), Step.Pause, rows)
      ensures !done ==> rows == old(rows)
      ensures done <==> old(rows).job.status != Paused && old(rows).job.status != Deleting
      ensures done && Inv(old(rows)) ==> Inv(rows) && Halted(rows) && rows.snaps == old(rows).snaps
      ensures done && Inv(old(rows)) ==> EndedKept(old(rows), rows)
    {
      ghost var before := rows;
      var tx := rows;
      if !(tx.job.status == Idle || tx.job.status == Failed || ActiveStatus(tx.job.status)) {
        return false;
      }
      tx := SetStatus(tx, Paused);
      tx := CancelActive(tx);
      rows := tx;
      if Inv(before) {
        PauseHalts(before, rows);
      }
      return true;
    }

    /** The resume branch of handleBackupStateChange; nothing is running that could be resumed. */
    method Resume() returns (done: bool)
      modifies this
      ensures done ==> Next(old(rows), Step.Resume, rows)
      ensures !done ==> rows == old(rows)
      ensures done <==> old(rows).job.status == Paused
      ensures done && Inv(old(rows)) ==> forall r :: r in rows.runs ==> Terminal(rows.runs[r])
    {
      if rows.job.status != Paused {
        return false;
      }
      rows := SetStatus(rows, Idle);
      return true;
    }

    /** RequestBackupRepositoryDeletionContext. */
    method RequestDeletion() returns (done: bool)
      modifies this
      ensures done ==> Next(old(rows), Step.RequestDeletion, rows)
      ensures !done ==> rows == old(rows)
      ensures done <==> !old(rows).job.deletionRequested
      ensures done && Inv(old(rows)) ==> Inv(rows) && Halted(rows) && EndedKept(old(rows), rows)
      ensures done && Inv(old(rows)) ==> forall n :: n in rows.snaps ==>
        !Visible(rows.snaps[n]) && rows.snaps[n].state != Publishing
    {
      ghost var before := rows;
      var tx := rows;
      if tx.job.deletionRequested {
        return false;
      }
      tx := tx.(job := tx.job.(status := Deleting, deletionRequested := true));
      tx := CancelActive(tx);
      tx := tx.(snaps := ExpireAll(tx.snaps));
      rows := tx;
      if Inv(before) {
        DeletionHalts(before, rows);
      }
      return true;
    }
  }

  /** What a worker, or the sweep that replaces one, does to the rows. */
  predicate WorkerStep(step: Step) {
    step.ClaimQueued? || step.Transition? || step.Complete? || step.Publish? || step.RecoverStale?
  }

  /** Whatever a worker that has not noticed yet tries next is refused. */
  ghost predicate Halted(s: State) {
    forall step, t :: WorkerStep(step) ==> !Next(s, step, t)
  }

  /** Runs that had ended are as they were, and those that had not are CANCELLED. */
  ghost predicate EndedKept(s: State, t: State) {
    && t.runs.Keys == s.runs.Keys && t.events == s.events
    && forall r :: r in s.runs ==>
         t.runs[r] == if Terminal(s.runs[r]) then s.runs[r] else s.runs[r].(state := Cancelled)
  }

  lemma CancelHalts(s: State, t: State)
    requires Inv(s) && t.runs == CancelActive(s).runs && t.events == s.events
    ensures Halted(t) && EndedKept(s, t)
  {
    assert forall r :: r in t.runs ==> Terminal(t.runs[r]);
  }

  lemma PauseHalts(s: State, t: State)
    requires Inv(s) && PauseStep(s, t)
    ensures Inv(t) && Halted(t) && EndedKept(s, t)
  {
    StepKeepsInv(s, Step.Pause, t);
    CancelHalts(s, t);
  }

  lemma DeletionHalts(s: State, t: State)
    requires Inv(s) && RequestDeletionStep(s, t)
    ensures Inv(t) && Halted(t) && EndedKept(s, t)
    ensures forall n :: n in t.snaps ==> !Visible(t.snaps[n]) && t.snaps[n].state != Publishing
  {
    StepKeepsInv(s, Step.RequestDeletion, t);
    CancelHalts(s, t);
  }

  lemma QueuedIsClaimable(s: State, candidates: set<RunId>)
    requires candidates == (set r | r in s.runs && s.runs[r].state == At(Queued) && s.job.status == Queued
                                    && s.job.generation == s.runs[r].generation && !s.job.deletionRequested)
    ensures Inv(s) && s.job.status == Queued ==> candidates != {}
  {
    if Inv(s) && s.job.status == Queued {
      var r :| r in s.runs && s.runs[r].generation == s.job.generation && s.runs[r].state == At(s.job.status);
      assert r in candidates;
    }
  }

  /** Two runs of the job's generation are one run. */
  lemma AtMostOneStale(s: State, stale: set<RunId>)
    requires Inv(s) && forall r :: r in stale ==> StaleRun(s, r)
    ensures stale != {} ==> exists r :: stale == {r}
  {
    if stale != {} {
      var r :| r in stale;
      assert forall q :: q in stale ==> q == r;
      assert stale == {r};
    }
  }
}
