/**
  The lifecycle of one migration: its row, its tasks, its notification events and the indexers working on it.
  Every SQL statement or transaction is one step; leases and retry times expire nondeterministically.
 */
module Migrations {

  type IndexerId = nat

  datatype Status =
    | Scheduled | Indexing | Running | Verifying | Paused | ConnectionLost
    | Cancelled | Completed | CompletedWithErrors | Failed

  /** isTerminalMigrationStatus. */
  predicate Terminal(s: Status) {
    s == Completed || s == CompletedWithErrors || s == Failed
  }

  /** The terminal states that promise finished work. */
  predicate Finished(s: Status) {
    s == Completed || s == CompletedWithErrors
  }

  datatype TaskStatus = Pending | InProgress | Done | Skipped | Broken | Withdrawn

  /** `retry` says whether next_retry_at is set, `verified` is checksum_verified. */
  datatype Task = Task(status: TaskStatus, retry: bool, verified: bool, size: nat)

  /** Work the transfer workers still have to do: queued, claimed, or failed with a retry time. */
  predicate ActiveTask(t: Task) {
    t.status == Pending || t.status == InProgress || (t.status == Broken && t.retry)
  }

  predicate Unverified(t: Task) {
    t.status == Done && !t.verified
  }

  predicate Settled(t: Task) {
    !ActiveTask(t) && !Unverified(t)
  }

  predicate AllSettled(tasks: seq<Task>) {
    forall i :: 0 <= i < |tasks| ==> Settled(tasks[i])
  }

  datatype Counts = Counts(processed: int, bytes: int, verified: int, skipped: int, failed: int)
  datatype Totals = Totals(files: nat, bytes: nat)

  datatype Migration = Migration(
    status: Status, discoveryComplete: bool, discoveryGeneration: nat, notificationGeneration: nat,
    retryDone: bool, totals: Totals, counts: Counts)

  datatype Counted = NotCounted | CountedTasks(files: nat, bytes: nat)

  /** An indexer: the generation it read when it started, its uncommitted rows, its final count. */
  datatype Indexer = Indexer(generation: nat, rows: seq<Task>, counted: Counted)

  /**
    `events` is the outbox: per notification generation, the status its payload reports. `launches` counts the
    indexer goroutines that were started and have not loaded the row yet.
   */
  datatype State = State(
    m: Migration, tasks: seq<Task>, indexErrors: nat, events: map<nat, Status>, indexers: map<IndexerId, Indexer>,
    launches: nat)

  // ---- Aggregates over the task rows -----------------------------------------------------------

  datatype Stats = Stats(done: nat, bytes: nat, skipped: nat, broken: nat, withdrawn: nat,
                         active: nat, verified: nat, unverified: nat)

  function One(b: bool): nat {
    if b then 1 else 0
  }

  /** The eight aggregates of the task_stats query, one row added. */
  function AddRow(st: Stats, t: Task): Stats {
    Stats(st.done + One(t.status == Done),
          st.bytes + (if t.status == Done then t.size else 0),
          st.skipped + One(t.status == Skipped),
          st.broken + One(t.status == Broken),
          st.withdrawn + One(t.status == Withdrawn),
          st.active + One(ActiveTask(t)),
          st.verified + One(t.status == Done && t.verified),
          st.unverified + One(Unverified(t)))
  }

  function Tally(tasks: seq<Task>): Stats {
    if tasks == [] then Stats(0, 0, 0, 0, 0, 0, 0, 0)
    else AddRow(Tally(tasks[..|tasks| - 1]), tasks[|tasks| - 1])
  }

  function TotalSize(tasks: seq<Task>): nat {
    if tasks == [] then 0 else TotalSize(tasks[..|tasks| - 1]) + tasks[|tasks| - 1].size
  }

  /** Bytes of the failed and cancelled rows. */
  function EndedSize(tasks: seq<Task>): nat {
    if tasks == [] then 0
    else
      var last := tasks[|tasks| - 1];
      EndedSize(tasks[..|tasks| - 1]) + if last.status == Broken || last.status == Withdrawn then last.size else 0
  }

  // ---- Notifications ---------------------------------------------------------------------------

  /** createMigrationNotificationEventTx: one event per notification generation, in a terminal status only. */
  function Notify(s: State): State {
    if Terminal(s.m.status) && s.m.notificationGeneration !in s.events
    then s.(events := s.events[s.m.notificationGeneration := s.m.status])
    else s
  }

  /** Entering a terminal status on the paths that bump the generation on entry. */
  function Finish(s: State, status: Status): State {
    Notify(s.(m := s.m.(status := status, notificationGeneration := s.m.notificationGeneration + 1)))
  }

  // ---- Row updates -----------------------------------------------------------------------------

  /** UpdateMigrationStatus: bumps the generation when it leaves a terminal status. */
  function SetStatus(s: State, status: Status): State {
    var bump := if Terminal(s.m.status) && !Terminal(status) then 1 else 0;
    var t := s.(m := s.m.(status := status, notificationGeneration := s.m.notificationGeneration + bump));
    if Terminal(status) then Notify(t) else t
  }

  /** RecoverConnectionLostMigration and ResumeMigration: run on, or open a new discovery attempt. */
  function Reopen(m: Migration): Migration {
    if m.discoveryComplete then m.(status := Running)
    else m.(status := Indexing, discoveryGeneration := m.discoveryGeneration + 1)
  }

  function ReconciledStatus(m: Migration, st: Stats, indexErrors: nat): Status {
    if m.status == Cancelled || m.status == Paused || m.status == ConnectionLost || Terminal(m.status) then m.status
    else if m.status == Indexing && !m.discoveryComplete then Indexing
    else if st.active > 0 then Running
    else if st.unverified > 0 then Verifying
    else if st.broken + st.withdrawn + indexErrors > 0 then CompletedWithErrors
    else Completed
  }

  /** GREATEST(0, x - y). */
  function Monus(x: int, y: int): int {
    if x - y < 0 then 0 else x - y
  }

  /** ResetFailedTasksForRetry takes the requeued rows out of the counters. */
  function RetriedCounts(counts: Counts, tasks: seq<Task>): Counts {
    var ended := Tally(tasks).broken + Tally(tasks).withdrawn;
    counts.(failed := Monus(counts.failed, ended), processed := Monus(counts.processed, ended),
            bytes := Monus(counts.bytes, EndedSize(tasks)))
  }

  /** The tasks that are no longer queued or claimed. */
  function Ended(st: Stats): nat {
    st.done + st.skipped + st.broken + st.withdrawn
  }

  /** The counters FailMigrationForAuthentication recomputes. */
  function EndedCounts(counts: Counts, st: Stats): Counts {
    Counts(Ended(st), st.bytes, counts.verified, st.skipped, st.broken + st.withdrawn)
  }

  function ReconciledRow(m: Migration, st: Stats, indexErrors: nat): Migration {
    var bump := if (m.status == Running || m.status == Verifying) && st.active == 0 && st.unverified == 0 then 1 else 0;
    m.(counts := Counts(Ended(st), st.bytes, st.verified, st.skipped, st.broken + st.withdrawn),
       notificationGeneration := m.notificationGeneration + bump,
       status := ReconciledStatus(m, st, indexErrors))
  }

  /** reconcileMigrationProgress. */
  function Reconciled(s: State): State {
    Notify(s.(m := ReconciledRow(s.m, Tally(s.tasks), s.indexErrors)))
  }

  /** Every row through a function, as an UPDATE without a filter on single rows. */
  function MapRows(tasks: seq<Task>, f: Task -> Task): (r: seq<Task>)
    ensures |r| == |tasks| && forall i :: 0 <= i < |tasks| ==> r[i] == f(tasks[i])
  {
    seq(|tasks|, i requires 0 <= i < |tasks| => f(tasks[i]))
  }

  /** MaybeRetryFailedMigrationTasks requeues the terminally failed rows. */
  function RequeueBroken(t: Task): Task {
    if t.status == Broken && !t.retry then Task(Pending, false, false, t.size) else t
  }

  /** ResetFailedTasksForRetry requeues failed and cancelled rows. */
  function RequeueEnded(t: Task): Task {
    if t.status == Broken || t.status == Withdrawn then t.(status := Pending, retry := false) else t
  }

  /** FailMigrationForAuthentication withdraws what is still queued or claimed. */
  function WithdrawOpen(t: Task): Task {
    if t.status == Pending || t.status == InProgress then t.(status := Withdrawn, retry := false) else t
  }

  // ---- The steps -------------------------------------------------------------------------------

  datatype Step =
    // API, schedulers and recovery
    | ClaimScheduled | UpdateStatus(target: Status) | LoseConnection | Resume | RecoverScheduled | FailStale
    | RetryFailed | Reindex | FailAuthentication(task: nat)
    // workers and the verifier
    | Reconcile | FinalRetry | TaskWork(task: nat, row: Task) | Mismatch(task: nat, again: bool)
    | Progress(counts: Counts)
    // indexers
    | StartIndexer(id: IndexerId) | Abandon | InsertRows(id: IndexerId, rows: seq<Task>) | CommitRows(id: IndexerId)
    | RollbackRows(id: IndexerId) | RecordError | CountTasks(id: IndexerId) | UpdateTotals(id: IndexerId)
    | FinishIndexing(id: IndexerId) | CompleteEmpty(id: IndexerId) | FailIndexing(id: IndexerId)

  /** The guard of every fenced statement: the row is INDEXING under the caller's discovery generation. */
  predicate ClaimValid(s: State, g: nat) {
    s.m.status == Indexing && s.m.discoveryGeneration == g
  }

  predicate ClaimScheduledStep(s: State, t: State) {
    && s.m.status == Scheduled
    && t == s.(m := s.m.(status := Indexing, discoveryComplete := false,
                         discoveryGeneration := s.m.discoveryGeneration + 1),
               launches := s.launches + 1)
  }

  predicate UpdateStatusStep(s: State, target: Status, t: State) {
    (target == Paused || target == Cancelled || target == Failed) && t == SetStatus(s, target)
  }

  predicate LoseConnectionStep(s: State, t: State) {
    (s.m.status == Running || s.m.status == Indexing) && t == s.(m := s.m.(status := ConnectionLost))
  }

  predicate ResumeStep(s: State, t: State) {
    && (s.m.status == Paused || s.m.status == ConnectionLost)
    && t == s.(m := Reopen(s.m), launches := s.launches + One(!s.m.discoveryComplete))
  }

  predicate RecoverScheduledStep(s: State, t: State) {
    s.m.status == Indexing && t == s.(m := s.m.(status := Scheduled))
  }

  predicate FailStaleStep(s: State, t: State) {
    s.m.status == Indexing && t == Finish(s, Failed)
  }

  predicate RetryFailedStep(s: State, t: State) {
    && Terminal(s.m.status)
    && (exists i :: 0 <= i < |s.tasks| && (s.tasks[i].status == Broken || s.tasks[i].status == Withdrawn))
    && t == s.(tasks := MapRows(s.tasks, RequeueEnded),
               m := s.m.(status := Running, notificationGeneration := s.m.notificationGeneration + 1,
                         retryDone := false, counts := RetriedCounts(s.m.counts, s.tasks)))
  }

  predicate ReindexStep(s: State, t: State) {
    && t == s.(tasks := [], indexErrors := 0, launches := s.launches + 1,
               m := s.m.(status := Indexing, discoveryComplete := false,
                         discoveryGeneration := s.m.discoveryGeneration + 1,
                         notificationGeneration := s.m.notificationGeneration + 1, totals := Totals(0, 0),
                         counts := s.m.counts.(processed := 0, bytes := 0, skipped := 0, failed := 0)))
  }

  predicate FailAuthenticationStep(s: State, i: nat, t: State) {
    && i < |s.tasks| && s.tasks[i].status == InProgress && (s.m.status == Running || s.m.status == Indexing)
    && var tasks := MapRows(s.tasks[i := s.tasks[i].(status := Broken, retry := false)], WithdrawOpen);
       t == Finish(s.(tasks := tasks, m := s.m.(counts := EndedCounts(s.m.counts, Tally(tasks)))), Failed)
  }

  /** Reconciliation runs on RUNNING and VERIFYING migrations, or just after another transaction moved one on. */
  predicate ReconcileStep(s: State, t: State) {
    s.m.status != Scheduled && t == Reconciled(s)
  }

  predicate FinalRetryStep(s: State, t: State) {
    && s.m.status == Running && !s.m.retryDone
    && (exists i :: 0 <= i < |s.tasks| && s.tasks[i].status == Broken && !s.tasks[i].retry)
    && (forall i :: 0 <= i < |s.tasks| ==> !ActiveTask(s.tasks[i]))
    && t == s.(tasks := MapRows(s.tasks, RequeueBroken), m := s.m.(retryDone := true))
  }

  /** Workers and the verifier change a row only while it has work left. */
  predicate TaskWorkStep(s: State, i: nat, row: Task, t: State) {
    && i < |s.tasks| && (Settled(s.tasks[i]) ==> Settled(row))
    && t == s.(tasks := s.tasks[i := row])
  }

  predicate MismatchStep(s: State, i: nat, again: bool, t: State) {
    && s.m.status == Verifying && i < |s.tasks| && Unverified(s.tasks[i])
    && t == s.(tasks := s.tasks[i := s.tasks[i].(status := Broken, retry := again, verified := false)],
               m := s.m.(status := if again then Running else Verifying))
  }

  /** A launched goroutine loads the row: only now it learns the generation it works for. */
  predicate StartIndexerStep(s: State, id: IndexerId, t: State) {
    && s.launches > 0 && id !in s.indexers && s.m.status == Indexing && !s.m.discoveryComplete
    && t == s.(indexers := s.indexers[id := Indexer(s.m.discoveryGeneration, [], NotCounted)],
               launches := s.launches - 1)
  }

  /** A goroutine finds the migration in another status and ends, or never runs because its process died. */
  predicate AbandonStep(s: State, t: State) {
    s.launches > 0 && t == s.(launches := s.launches - 1)
  }

  /** A batch is inserted into the open transaction if the claim holds at that moment. */
  predicate InsertRowsStep(s: State, id: IndexerId, rows: seq<Task>, t: State) {
    && id in s.indexers && s.indexers[id].counted.NotCounted? && ClaimValid(s, s.indexers[id].generation)
    && (forall i :: 0 <= i < |rows| ==> rows[i].status == Pending)
    && t == s.(indexers := s.indexers[id := s.indexers[id].(rows := s.indexers[id].rows + rows)])
  }

  /** The commit does not look at the claim again. */
  predicate CommitRowsStep(s: State, id: IndexerId, t: State) {
    && id in s.indexers && s.indexers[id].rows != []
    && t == s.(tasks := s.tasks + s.indexers[id].rows, indexers := s.indexers[id := s.indexers[id].(rows := [])])
  }

  predicate RollbackRowsStep(s: State, id: IndexerId, t: State) {
    id in s.indexers && t == s.(indexers := s.indexers[id := s.indexers[id].(rows := [])])
  }

  /** MigrationTaskTotals, read after the traversal's last transaction. */
  predicate CountTasksStep(s: State, id: IndexerId, t: State) {
    && id in s.indexers && s.indexers[id].rows == []
    && t == s.(indexers := s.indexers[id := s.indexers[id].(counted := CountedTasks(|s.tasks|, TotalSize(s.tasks)))])
  }

  predicate UpdateTotalsStep(s: State, id: IndexerId, t: State) {
    && id in s.indexers && s.indexers[id].counted.CountedTasks? && ClaimValid(s, s.indexers[id].generation)
    && t == s.(m := s.m.(totals := Totals(s.indexers[id].counted.files, s.indexers[id].counted.bytes)))
  }

  predicate FinishIndexingStep(s: State, id: IndexerId, t: State) {
    && id in s.indexers && s.indexers[id].counted.CountedTasks? && s.indexers[id].counted.files > 0
    && ClaimValid(s, s.indexers[id].generation)
    && t == s.(m := s.m.(status := Running, discoveryComplete := true, retryDone := false))
  }

  /** TransitionMigrationIndexingToCompletedClaim trusts the indexer's count; it does not look at the tasks. */
  predicate CompleteEmptyStep(s: State, id: IndexerId, t: State) {
    && id in s.indexers && s.indexers[id].counted.CountedTasks? && s.indexers[id].counted.files == 0
    && ClaimValid(s, s.indexers[id].generation)
    && t == Finish(s.(m := s.m.(discoveryComplete := true)), Completed)
  }

  predicate FailIndexingStep(s: State, id: IndexerId, t: State) {
    && id in s.indexers && ClaimValid(s, s.indexers[id].generation)
    && t == Finish(s, Failed)
  }

  predicate Next(s: State, step: Step, t: State) {
    match step
    case ClaimScheduled => ClaimScheduledStep(s, t)
    case UpdateStatus(target) => UpdateStatusStep(s, target, t)
    case LoseConnection => LoseConnectionStep(s, t)
    case Resume => ResumeStep(s, t)
    case RecoverScheduled => RecoverScheduledStep(s, t)
    case FailStale => FailStaleStep(s, t)
    case RetryFailed => RetryFailedStep(s, t)
    case Reindex => ReindexStep(s, t)
    case FailAuthentication(i) => FailAuthenticationStep(s, i, t)
    case Reconcile => ReconcileStep(s, t)
    case FinalRetry => FinalRetryStep(s, t)
    case TaskWork(i, row) => TaskWorkStep(s, i, row, t)
    case Mismatch(i, again) => MismatchStep(s, i, again, t)
    case Progress(counts) => t == s.(m := s.m.(counts := counts))
    case StartIndexer(id) => StartIndexerStep(s, id, t)
    case Abandon => AbandonStep(s, t)
    case InsertRows(id, rows) => InsertRowsStep(s, id, rows, t)
    case CommitRows(id) => CommitRowsStep(s, id, t)
    case RollbackRows(id) => RollbackRowsStep(s, id, t)
    case RecordError => t == s.(indexErrors := s.indexErrors + 1)
    case CountTasks(id) => CountTasksStep(s, id, t)
    case UpdateTotals(id) => UpdateTotalsStep(s, id, t)
    case FinishIndexing(id) => FinishIndexingStep(s, id, t)
    case CompleteEmpty(id) => CompleteEmptyStep(s, id, t)
    case FailIndexing(id) => FailIndexingStep(s, id, t)
  }

  /** A migration is created INDEXING with its indexer launched, or SCHEDULED, with generation 1 and nothing else. */
  predicate Init(s: State) {
    && (s.m.status == Indexing || s.m.status == Scheduled) && !s.m.discoveryComplete
    && s.m.discoveryGeneration == 1 && s.m.notificationGeneration == 0
    && s.tasks == [] && s.events == map[] && s.indexers == map[] && s.launches == One(s.m.status == Indexing)
  }

  ghost predicate IsRun(states: seq<State>, steps: seq<Step>) {
    && |states| == |steps| + 1 && Init(states[0])
    && forall i :: 0 <= i < |steps| ==> Next(states[i], steps[i], states[i + 1])
  }
}
