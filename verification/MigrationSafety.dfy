/** When COMPLETED means completed: reconciliation and safe finalization. */
module MigrationSafety {
  import opened Migrations

  // ---- Reconciliation --------------------------------------------------------------------------

  function Queued(tasks: seq<Task>): nat {
    if tasks == [] then 0
    else
      var last := tasks[|tasks| - 1];
      Queued(tasks[..|tasks| - 1]) + One(last.status == Pending || last.status == InProgress)
  }

  function AwaitingRetry(tasks: seq<Task>): nat {
    if tasks == [] then 0
    else AwaitingRetry(tasks[..|tasks| - 1]) + One(tasks[|tasks| - 1].status == Broken && tasks[|tasks| - 1].retry)
  }

  lemma {:induction false} TallyPartitions(tasks: seq<Task>)
    ensures var st := Tally(tasks);
            && st.done + st.skipped + st.broken + st.withdrawn + Queued(tasks) == |tasks|
            && st.active == Queued(tasks) + AwaitingRetry(tasks)
            && st.done == st.verified + st.unverified
  {
    if tasks != [] {
      TallyPartitions(tasks[..|tasks| - 1]);
    }
  }

  lemma {:induction false} TallySettled(tasks: seq<Task>)
    ensures Tally(tasks).active == 0 && Tally(tasks).unverified == 0 <==> AllSettled(tasks)
  {
    if tasks != [] {
      var before := tasks[..|tasks| - 1];
      TallySettled(before);
      assert tasks == before + [tasks[|tasks| - 1]];
      assert AllSettled(tasks) <==> AllSettled(before) && Settled(tasks[|tasks| - 1]);
    }
  }

  /** After reconciling, processed plus pending plus running is every task; retries in waiting are counted twice. */
  lemma ReconcileAccountsForEveryTask(s: State)
    ensures var t := Reconciled(s);
            && t.tasks == s.tasks
            && t.m.counts.processed + Queued(t.tasks) == |t.tasks|
            && t.m.counts.processed + Tally(t.tasks).active == |t.tasks| + AwaitingRetry(t.tasks)
            && t.m.counts.processed - t.m.counts.skipped - t.m.counts.failed
               == t.m.counts.verified + Tally(t.tasks).unverified
  {
    TallyPartitions(s.tasks);
  }

  /** Reconciling finishes a migration only over settled tasks. */
  lemma ReconcileFinishesSettled(s: State)
    ensures Finished(Reconciled(s).m.status) && !Finished(s.m.status) ==> AllSettled(s.tasks)
  {
    TallySettled(s.tasks);
  }

  /** The row settles at once: its new status asks for no further change. */
  lemma RowSettles(m: Migration, st: Stats, indexErrors: nat)
    ensures var n := ReconciledRow(m, st, indexErrors); ReconciledRow(n, st, indexErrors) == n
  {
  }

  lemma NotifySettles(s: State)
    ensures Notify(Notify(s)) == Notify(s) && Notify(s).m == s.m && Notify(s).tasks == s.tasks
    ensures Notify(s).indexErrors == s.indexErrors
  {
  }

  /** Reconciling again with unchanged tasks changes nothing: no status, counter, generation or event. */
  lemma ReconcileIsIdempotent(s: State)
    ensures Reconciled(Reconciled(s)) == Reconciled(s)
  {
    var st := Tally(s.tasks);
    var u := s.(m := ReconciledRow(s.m, st, s.indexErrors));
    RowSettles(s.m, st, s.indexErrors);
    NotifySettles(u);
    var t := Notify(u);
    assert t.(m := ReconciledRow(t.m, st, t.indexErrors)) == t;
  }

  // ---- Safe finalization -----------------------------------------------------------------------

  predicate Transferring(s: Status) {
    s == Running || s == Verifying || Finished(s)
  }

  ghost predicate Discovery(m: Migration) {
    (m.status == Indexing ==> !m.discoveryComplete) && (Transferring(m.status) ==> m.discoveryComplete)
  }

  predicate CountedNone(indexer: Indexer) {
    indexer.counted.CountedTasks? && indexer.counted.files == 0
  }

  predicate Holds(m: Migration, indexer: Indexer) {
    m.status == Indexing && m.discoveryGeneration == indexer.generation
  }

  predicate AllPending(rows: seq<Task>) {
    forall i :: 0 <= i < |rows| ==> rows[i].status == Pending
  }

  /** No indexer has rows in an open transaction. */
  ghost predicate NoneStaged(indexers: map<IndexerId, Indexer>) {
    forall id :: id in indexers ==> indexers[id].rows == []
  }

  /** An indexer that counted no task and still holds its claim is right about it. */
  ghost predicate Indexers(m: Migration, tasks: seq<Task>, indexers: map<IndexerId, Indexer>) {
    && (forall id :: id in indexers ==> indexers[id].generation <= m.discoveryGeneration)
    && (forall id :: id in indexers ==> AllPending(indexers[id].rows))
    && (forall id :: id in indexers && indexers[id].counted.CountedTasks? ==> indexers[id].rows == [])
    && (forall id :: id in indexers && CountedNone(indexers[id]) && Holds(m, indexers[id]) ==> tasks == [])
  }

  /** At most one indexer is or will be at work on the current generation, and only that one has rows staged. */
  ghost predicate Solo(generation: nat, indexers: map<IndexerId, Indexer>, launches: nat) {
    && launches <= 1
    && (forall id :: id in indexers && indexers[id].generation == generation ==> launches == 0)
    && (forall a, b :: a in indexers && b in indexers ==>
          indexers[a].generation == indexers[b].generation == generation ==> a == b)
    && (forall id :: id in indexers && indexers[id].rows != [] ==> indexers[id].generation == generation)
  }

  /** What COMPLETED and COMPLETED_WITH_ERRORS promise. */
  ghost predicate Promise(s: State) {
    Finished(s.m.status) ==> s.m.discoveryComplete && AllSettled(s.tasks)
  }

  ghost predicate Safe(s: State) {
    && Promise(s) && Discovery(s.m) && Indexers(s.m, s.tasks, s.indexers)
    && (s.tasks == [] ==> Solo(s.m.discoveryGeneration, s.indexers, s.launches))
    && (Finished(s.m.status) ==> NoneStaged(s.indexers))
  }

  // ---- The three conditions --------------------------------------------------------------------

  /** Failed tasks are retried only once discovery is complete. */
  predicate RetriesComplete(s: State, step: Step) {
    step.RetryFailed? ==> s.m.discoveryComplete
  }

  predicate Opening(s: State, step: Step) {
    step.ClaimScheduled? || step.Reindex? || (step.Resume? && !s.m.discoveryComplete)
  }

  /** A discovery without tasks is opened only when no goroutine is on its way and no rows are staged. */
  ghost predicate OpensClean(s: State, step: Step, t: State) {
    Opening(s, step) && t.tasks == [] ==> s.launches == 0 && NoneStaged(s.indexers)
  }

  predicate Finishing(s: State, t: State) {
    !Finished(s.m.status) && Finished(t.m.status)
  }

  /** A migration is finished only when no rows are staged. */
  ghost predicate FinishesClean(s: State, t: State) {
    Finishing(s, t) ==> NoneStaged(s.indexers)
  }

  /** Which of the three conditions a run observes. */
  datatype Discipline = Discipline(retries: bool, opens: bool, finishes: bool)

  const ORDERLY := Discipline(true, true, true)

  ghost predicate Obeys(d: Discipline, s: State, step: Step, t: State) {
    && (d.retries ==> RetriesComplete(s, step))
    && (d.opens ==> OpensClean(s, step, t))
    && (d.finishes ==> FinishesClean(s, t))
  }

  ghost predicate Orderly(s: State, step: Step, t: State) {
    Obeys(ORDERLY, s, step, t)
  }

  // ---- Every orderly step keeps the promise ----------------------------------------------------

  /** Changing rows outside INDEXING, where no count is trusted any more. */
  lemma IndexersIgnoreTasks(m: Migration, n: Migration, tasks: seq<Task>, rows: seq<Task>,
                            indexers: map<IndexerId, Indexer>)
    requires Indexers(m, tasks, indexers) && m.discoveryGeneration <= n.discoveryGeneration
    requires n.status == Indexing ==>
               m.discoveryGeneration < n.discoveryGeneration || (m.status == Indexing && (tasks == [] ==> rows == []))
    ensures Indexers(n, rows, indexers)
  {
  }

  lemma RowEffect(m: Migration, st: Stats, indexErrors: nat)
    requires Discovery(m) && m.status != Scheduled
    ensures var n := ReconciledRow(m, st, indexErrors);
            && Discovery(n) && n.discoveryGeneration == m.discoveryGeneration
            && (n.status == Indexing ==> m.status == Indexing)
            && (Finished(n.status) && !Finished(m.status) ==> st.active == 0 && st.unverified == 0)
  {
  }

  lemma RowKeeps(s: State, st: Stats, t: State)
    requires Discovery(s.m) && s.m.status != Scheduled && t == Notify(s.(m := ReconciledRow(s.m, st, s.indexErrors)))
    ensures t.tasks == s.tasks && t.indexers == s.indexers && t.launches == s.launches && Discovery(t.m)
    ensures t.m.discoveryGeneration == s.m.discoveryGeneration && (t.m.status == Indexing ==> s.m.status == Indexing)
    ensures Finishing(s, t) ==> st.active == 0 && st.unverified == 0
  {
    RowEffect(s.m, st, s.indexErrors);
  }

  /** Reconciling touches the row and the outbox only. */
  lemma ReconcileEffect(s: State, t: State)
    requires Discovery(s.m) && ReconcileStep(s, t)
    ensures t.tasks == s.tasks && t.indexers == s.indexers && t.launches == s.launches && Discovery(t.m)
    ensures t.m.discoveryGeneration == s.m.discoveryGeneration && (t.m.status == Indexing ==> s.m.status == Indexing)
    ensures Finishing(s, t) ==> AllSettled(s.tasks)
  {
    RowKeeps(s, Tally(s.tasks), t);
    TallySettled(s.tasks);
  }

  lemma ReconcileKeepsSafe(s: State, t: State)
    requires Safe(s) && ReconcileStep(s, t) && FinishesClean(s, t)
    ensures Safe(t)
  {
    ReconcileEffect(s, t);
    KeepsSafe(s, t);
  }

  /** Moving the row within or out of INDEXING, with tasks, indexers and launches unchanged. */
  lemma KeepsSafe(s: State, t: State)
    requires Safe(s) && t.tasks == s.tasks && t.indexers == s.indexers && t.launches == s.launches && Discovery(t.m)
    requires t.m.discoveryGeneration == s.m.discoveryGeneration && (t.m.status == Indexing ==> s.m.status == Indexing)
    requires Finishing(s, t) ==> AllSettled(s.tasks) && NoneStaged(s.indexers)
    ensures Safe(t)
  {
    IndexersIgnoreTasks(s.m, t.m, s.tasks, t.tasks, s.indexers);
  }

  predicate ChangesStatus(step: Step) {
    || step.UpdateStatus? || step.LoseConnection? || step.RecoverScheduled? || step.FailStale? || step.FailIndexing?
    || step.FinishIndexing? || step.Progress? || step.RecordError? || step.UpdateTotals?
  }

  /** These steps leave tasks, indexers and launches alone. */
  lemma StatusEffect(s: State, step: Step, t: State)
    requires Safe(s) && Next(s, step, t) && ChangesStatus(step)
    ensures t.tasks == s.tasks && t.indexers == s.indexers && t.launches == s.launches && Discovery(t.m)
    ensures t.m.discoveryGeneration == s.m.discoveryGeneration
    ensures Finished(t.m.status) ==> t.m.status == s.m.status
    ensures t.m.status == Indexing ==> s.m.status == Indexing
  {
    match step
    case UpdateStatus(_) =>
    case _ =>
  }

  lemma StatusKeepsSafe(s: State, step: Step, t: State)
    requires Safe(s) && Next(s, step, t) && ChangesStatus(step)
    ensures Safe(t)
  {
    StatusEffect(s, step, t);
    KeepsSafe(s, t);
  }

  lemma ResumeKeepsSafe(s: State, t: State)
    requires Safe(s) && s.m.discoveryComplete && ResumeStep(s, t)
    ensures Safe(t)
  {
  }

  /** Nobody works for a generation that was just opened. */
  lemma OpeningKeepsSafe(s: State, step: Step, t: State)
    requires Safe(s) && Next(s, step, t) && Opening(s, step) && OpensClean(s, step, t)
    ensures Safe(t)
  {
    OpeningEffect(s, step, t);
    IndexersIgnoreTasks(s.m, t.m, s.tasks, t.tasks, s.indexers);
  }

  lemma OpeningEffect(s: State, step: Step, t: State)
    requires Next(s, step, t) && Opening(s, step)
    ensures t.indexers == s.indexers && t.launches == s.launches + 1 && t.m.status == Indexing && !t.m.discoveryComplete
    ensures t.m.discoveryGeneration == s.m.discoveryGeneration + 1 && (step.Reindex? || t.tasks == s.tasks)
  {
  }

  predicate ChangesTasks(step: Step) {
    step.RetryFailed? || step.FailAuthentication? || step.FinalRetry? || step.TaskWork? || step.Mismatch?
  }

  lemma TaskEffect(s: State, step: Step, t: State)
    requires Safe(s) && RetriesComplete(s, step) && Next(s, step, t) && ChangesTasks(step)
    ensures t.indexers == s.indexers && t.launches == s.launches && Discovery(t.m) && |t.tasks| == |s.tasks|
    ensures t.m.discoveryGeneration == s.m.discoveryGeneration
    ensures Finished(t.m.status) ==> step.TaskWork? && t.m.status == s.m.status
    ensures t.m.status == Indexing ==> s.m.status == Indexing
  {
  }

  lemma TasksKeepSafe(s: State, step: Step, t: State)
    requires Safe(s) && RetriesComplete(s, step) && Next(s, step, t) && ChangesTasks(step)
    ensures Safe(t)
  {
    TaskEffect(s, step, t);
    IndexersIgnoreTasks(s.m, t.m, s.tasks, t.tasks, s.indexers);
  }

  lemma CompleteEmptyKeepsSafe(s: State, id: IndexerId, t: State)
    requires Safe(s) && CompleteEmptyStep(s, id, t) && FinishesClean(s, t)
    ensures Safe(t)
  {
    IndexersIgnoreTasks(s.m, t.m, s.tasks, t.tasks, s.indexers);
  }

  lemma StartKeepsSafe(s: State, id: IndexerId, t: State)
    requires Safe(s) && StartIndexerStep(s, id, t)
    ensures Safe(t)
  {
  }

  /** The first rows of a discovery come from the one indexer that works on it. */
  lemma CommitKeepsSafe(s: State, id: IndexerId, t: State)
    requires Safe(s) && CommitRowsStep(s, id, t)
    ensures Safe(t)
  {
    assert t.tasks != [];
    forall a | a in t.indexers && CountedNone(t.indexers[a])
      ensures !Holds(t.m, t.indexers[a])
    {
      assert s.indexers[a].counted == t.indexers[a].counted && s.indexers[a].generation == t.indexers[a].generation;
    }
  }

  lemma InsertKeepsSafe(s: State, id: IndexerId, rows: seq<Task>, t: State)
    requires Safe(s) && InsertRowsStep(s, id, rows, t)
    ensures Safe(t)
  {
  }

  lemma RollbackKeepsSafe(s: State, id: IndexerId, t: State)
    requires Safe(s) && RollbackRowsStep(s, id, t)
    ensures Safe(t)
  {
  }

  lemma CountKeepsSafe(s: State, id: IndexerId, t: State)
    requires Safe(s) && CountTasksStep(s, id, t)
    ensures Safe(t)
  {
  }

  lemma StepKeepsSafe(s: State, step: Step, t: State)
    requires Safe(s) && Orderly(s, step, t) && Next(s, step, t)
    ensures Safe(t)
  {
    if ChangesStatus(step) {
      StatusKeepsSafe(s, step, t);
    } else if Opening(s, step) {
      OpeningKeepsSafe(s, step, t);
    } else if ChangesTasks(step) {
      TasksKeepSafe(s, step, t);
    } else {
      match step
      case Resume => ResumeKeepsSafe(s, t);
      case Reconcile => ReconcileKeepsSafe(s, t);
      case CompleteEmpty(id) => CompleteEmptyKeepsSafe(s, id, t);
      case StartIndexer(id) => StartKeepsSafe(s, id, t);
      case CommitRows(id) => CommitKeepsSafe(s, id, t);
      case Abandon =>
      case InsertRows(id, rows) => InsertKeepsSafe(s, id, rows, t);
      case RollbackRows(id) => RollbackKeepsSafe(s, id, t);
      case CountTasks(id) => CountKeepsSafe(s, id, t);
      case _ => assert false;
    }
  }

  ghost predicate DisciplinedRun(d: Discipline, states: seq<State>, steps: seq<Step>) {
    IsRun(states, steps) && forall i :: 0 <= i < |steps| ==> Obeys(d, states[i], steps[i], states[i + 1])
  }

  /**
    In orderly runs COMPLETED and COMPLETED_WITH_ERRORS are reached only with discovery complete and no pending,
    running, retry-scheduled or unverified task, and this stays so as long as the status does.
   */
  lemma {:induction false} SafeFinalization(states: seq<State>, steps: seq<Step>, i: nat)
    requires DisciplinedRun(ORDERLY, states, steps) && i < |states|
    ensures Safe(states[i])
    ensures Finished(states[i].m.status) ==> states[i].m.discoveryComplete && AllSettled(states[i].tasks)
  {
    if i > 0 {
      SafeFinalization(states, steps, i - 1);
      StepKeepsSafe(states[i - 1], steps[i - 1], states[i]);
    }
  }
}
