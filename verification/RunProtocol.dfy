/**
  The rows of one backup job: the job, its runs and their snapshots. Live workers, workers that lost their run,
  the API and the recovery sweep act on them by SQL transactions; each transaction is one step.
 */
module RunProtocol {

  type RunId = nat
  type SnapId = nat

  datatype Status = Idle | Queued | Scanning | Running | Verifying | Paused | Failed | Deleting

  /** States of a run; those a run shares with its job are written with the job's status. */
  datatype RunState = At(status: Status) | Completed | Incomplete | RunFailed | Cancelled

  /** scheduled_local_key: the local time slot a scheduled run was started for. */
  datatype Key = NoKey | LocalKey(slot: string)

  datatype Run = Run(generation: nat, state: RunState, key: Key)

  datatype SnapState = Publishing | Available | Partial | Expired | Corrupt
  datatype Snap = Snap(run: RunId, state: SnapState)

  datatype Job = Job(status: Status, generation: nat, deletionRequested: bool)

  /** `events` is the notification outbox: per run, the terminal state it reports. */
  datatype State = State(job: Job, runs: map<RunId, Run>, snaps: map<SnapId, Snap>, events: map<RunId, RunState>)

  predicate ActiveStatus(s: Status) {
    s == Queued || s == Scanning || s == Running || s == Verifying
  }

  /** SCANNING, RUNNING and VERIFYING: a worker owns the run. */
  predicate Owned(s: Status) {
    s == Scanning || s == Running || s == Verifying
  }

  predicate Active(run: Run) {
    run.state.At? && ActiveStatus(run.state.status)
  }

  predicate Terminal(run: Run) {
    !run.state.At?
  }

  predicate Visible(snap: Snap) {
    snap.state == Available || snap.state == Partial
  }

  /** validBackupTransition. */
  predicate ValidTransition(from: Status, to: Status) {
    || (from == Queued && to == Scanning)
    || (from == Scanning && to == Running)
    || (from == Running && to == Verifying)
  }

  // ---- Row updates -----------------------------------------------------------------------------

  /** UPDATE backup_runs ... WHERE id = r AND generation = g AND state = from. */
  predicate RunMatches(s: State, r: RunId, g: nat, from: Status) {
    r in s.runs && s.runs[r].generation == g && s.runs[r].state == At(from)
  }

  /** UPDATE backup_jobs ... WHERE run_generation = g AND status = from. */
  predicate JobMatches(s: State, g: nat, from: Status) {
    s.job.generation == g && s.job.status == from
  }

  function SetRun(s: State, r: RunId, state: RunState): State
    requires r in s.runs
  {
    s.(runs := s.runs[r := s.runs[r].(state := state)])
  }

  function SetStatus(s: State, status: Status): State {
    s.(job := s.job.(status := status))
  }

  /** UPDATE backup_runs SET state = 'CANCELLED' WHERE state IN (the active states). */
  function CancelActive(s: State): State {
    s.(runs := map r | r in s.runs :: if Active(s.runs[r]) then s.runs[r].(state := Cancelled) else s.runs[r])
  }

  /** createBackupNotificationEventTx: cancelled runs report nothing; an existing event is kept. */
  function Notify(s: State, r: RunId): State
    requires r in s.runs
  {
    if (s.runs[r].state == Completed || s.runs[r].state == Incomplete || s.runs[r].state == RunFailed) && r !in s.events
    then s.(events := s.events[r := s.runs[r].state])
    else s
  }

  // ---- The steps -------------------------------------------------------------------------------

  datatype Step =
    | ClaimPass(run: RunId, key: Key)
    | ClaimQueued(run: RunId)
    | Transition(run: RunId, generation: nat, from: Status, to: Status)
    | Complete(run: RunId, generation: nat, from: Status, outcome: RunState)
    | Publish(run: RunId, generation: nat, snap: SnapId, whole: bool)
    | RecoverStale(run: RunId)
    | Pause
    | Resume
    | RequestDeletion
    | CreateDraft(snap: SnapId, run: RunId)
    | DiscardDraft(snap: SnapId, run: RunId)
    | HideSnapshot(snap: SnapId, state: SnapState)

  /** The partial unique index on (backup_job_id, scheduled_local_key). */
  predicate KeyFree(s: State, key: Key) {
    key.LocalKey? ==> forall r :: r in s.runs ==> s.runs[r].key != key
  }

  predicate ClaimPassStep(s: State, r: RunId, key: Key, t: State) {
    && (s.job.status == Idle || s.job.status == Failed)
    && r !in s.runs && KeyFree(s, key)
    && t == s.(runs := s.runs[r := Run(s.job.generation + 1, At(Queued), key)],
               job := s.job.(status := Queued, generation := s.job.generation + 1))
  }

  predicate ClaimQueuedStep(s: State, r: RunId, t: State) {
    && r in s.runs && s.runs[r].state == At(Queued) && s.job.status == Queued
    && s.job.generation == s.runs[r].generation && !s.job.deletionRequested
    && t == SetStatus(SetRun(s, r, At(Scanning)), Scanning)
  }

  predicate TransitionStep(s: State, r: RunId, g: nat, from: Status, to: Status, t: State) {
    && ValidTransition(from, to) && RunMatches(s, r, g, from) && JobMatches(s, g, from)
    && t == SetStatus(SetRun(s, r, At(to)), to)
  }

  /** The combinations FinalizeBackupRunContext and FailBackupRunContext admit. */
  predicate ValidOutcome(from: Status, outcome: RunState) {
    || (ActiveStatus(from) && outcome == RunFailed)
    || (Owned(from) && (outcome == Completed || outcome == Incomplete || outcome == Cancelled))
  }

  predicate CompleteStep(s: State, r: RunId, g: nat, from: Status, outcome: RunState, t: State) {
    && ValidOutcome(from, outcome) && RunMatches(s, r, g, from) && JobMatches(s, g, from)
    && t == Notify(SetStatus(SetRun(s, r, outcome), if outcome == RunFailed then Failed else Idle), r)
  }

  /** PublishBackupSnapshotAndFinalizeContext: snapshot, run and job move together or not at all. */
  predicate PublishStep(s: State, r: RunId, g: nat, n: SnapId, whole: bool, t: State) {
    && n in s.snaps && s.snaps[n].run == r && s.snaps[n].state == Publishing
    && RunMatches(s, r, g, Verifying) && JobMatches(s, g, Verifying)
    && t == Notify(SetStatus(SetRun(s, r, if whole then Completed else Incomplete), Idle), r)
             .(snaps := s.snaps[n := Snap(r, if whole then Available else Partial)])
  }

  /** The run's draft disappears together with its run's claim. */
  function DropDrafts(s: State, r: RunId): State {
    s.(snaps := map n | n in s.snaps && !(s.snaps[n].run == r && s.snaps[n].state == Publishing) :: s.snaps[n])
  }

  /** A run silent for ten minutes that still owns the job generation; expiry itself is nondeterministic. */
  predicate StaleRun(s: State, r: RunId) {
    && r in s.runs && s.runs[r].state.At? && Owned(s.runs[r].state.status)
    && s.job.generation == s.runs[r].generation && Owned(s.job.status)
  }

  predicate RecoverStaleStep(s: State, r: RunId, t: State) {
    StaleRun(s, r) && t == DropDrafts(SetStatus(SetRun(s, r, RunFailed), Failed), r)
  }

  predicate PauseStep(s: State, t: State) {
    && (s.job.status == Idle || s.job.status == Failed || ActiveStatus(s.job.status))
    && t == CancelActive(SetStatus(s, Paused))
  }

  predicate ResumeStep(s: State, t: State) {
    s.job.status == Paused && t == SetStatus(s, Idle)
  }

  function ExpireAll(snaps: map<SnapId, Snap>): map<SnapId, Snap> {
    map n | n in snaps ::
      if Visible(snaps[n]) || snaps[n].state == Publishing then snaps[n].(state := Expired) else snaps[n]
  }

  predicate RequestDeletionStep(s: State, t: State) {
    && !s.job.deletionRequested
    && t == CancelActive(s.(job := s.job.(status := Deleting, deletionRequested := true), snaps := ExpireAll(s.snaps)))
  }

  /** A worker creates its draft without looking at the run's state; one snapshot per run. */
  predicate CreateDraftStep(s: State, n: SnapId, r: RunId, t: State) {
    && n !in s.snaps && r in s.runs && (forall m :: m in s.snaps ==> s.snaps[m].run != r)
    && t == s.(snaps := s.snaps[n := Snap(r, Publishing)])
  }

  predicate DiscardDraftStep(s: State, n: SnapId, r: RunId, t: State) {
    && n in s.snaps && s.snaps[n].run == r && s.snaps[n].state == Publishing
    && t == s.(snaps := s.snaps - {n})
  }

  /** Retention expires visible snapshots; a damaged pack takes its snapshots with it. */
  predicate HideSnapshotStep(s: State, n: SnapId, state: SnapState, t: State) {
    && n in s.snaps
    && ((state == Expired && Visible(s.snaps[n]))
        || (state == Corrupt && (Visible(s.snaps[n]) || s.snaps[n].state == Publishing)))
    && t == s.(snaps := s.snaps[n := s.snaps[n].(state := state)])
  }

  predicate Next(s: State, step: Step, t: State) {
    match step
    case ClaimPass(r, key) => ClaimPassStep(s, r, key, t)
    case ClaimQueued(r) => ClaimQueuedStep(s, r, t)
    case Transition(r, g, from, to) => TransitionStep(s, r, g, from, to, t)
    case Complete(r, g, from, outcome) => CompleteStep(s, r, g, from, outcome, t)
    case Publish(r, g, n, whole) => PublishStep(s, r, g, n, whole, t)
    case RecoverStale(r) => RecoverStaleStep(s, r, t)
    case Pause => PauseStep(s, t)
    case Resume => ResumeStep(s, t)
    case RequestDeletion => RequestDeletionStep(s, t)
    case CreateDraft(n, r) => CreateDraftStep(s, n, r, t)
    case DiscardDraft(n, r) => DiscardDraftStep(s, n, r, t)
    case HideSnapshot(n, state) => HideSnapshotStep(s, n, state, t)
  }

  predicate Init(s: State) {
    s == State(Job(Idle, 0, false), map[], map[], map[])
  }

  // ---- Run and job agree -----------------------------------------------------------------------

  ghost predicate Generations(job: Job, runs: map<RunId, Run>) {
    && (forall r :: r in runs ==> 0 < runs[r].generation <= job.generation)
    && (forall q, r :: q in runs && r in runs && runs[q].generation == runs[r].generation ==> q == r)
    && (forall r :: r in runs && runs[r].state.At? ==> ActiveStatus(runs[r].state.status))
  }

  /** Active runs carry the job's generation and state. */
  ghost predicate Agrees(job: Job, runs: map<RunId, Run>) {
    forall r :: r in runs && Active(runs[r]) ==>
      runs[r].generation == job.generation && runs[r].state == At(job.status)
  }

  ghost predicate HasRun(job: Job, runs: map<RunId, Run>) {
    ActiveStatus(job.status) ==>
      exists r :: r in runs && runs[r].generation == job.generation && runs[r].state == At(job.status)
  }

  /** A visible snapshot belongs to a run that finished accordingly; a run owns at most one snapshot. */
  ghost predicate Owners(snaps: map<SnapId, Snap>, runs: map<RunId, Run>) {
    && (forall n :: n in snaps ==> snaps[n].run in runs)
    && (forall n :: n in snaps && snaps[n].state == Available ==> runs[snaps[n].run].state == Completed)
    && (forall n :: n in snaps && snaps[n].state == Partial ==> runs[snaps[n].run].state == Incomplete)
    && (forall m, n :: m in snaps && n in snaps && snaps[m].run == snaps[n].run ==> m == n)
  }

  ghost predicate Outbox(events: map<RunId, RunState>, runs: map<RunId, Run>) {
    forall r :: r in events ==> r in runs && runs[r].state == events[r] && !events[r].At? && events[r] != Cancelled
  }

  ghost predicate Inv(s: State) {
    && Generations(s.job, s.runs) && Agrees(s.job, s.runs) && HasRun(s.job, s.runs)
    && Owners(s.snaps, s.runs) && Outbox(s.events, s.runs)
    && (s.job.deletionRequested <==> s.job.status == Deleting)
    && (s.job.deletionRequested ==> forall n :: n in s.snaps ==> !Visible(s.snaps[n]))
  }

  /** Moving one active run, and with it the job, to another active state. */
  lemma MoveKeeps(s: State, r: RunId, to: Status)
    requires Inv(s) && r in s.runs && s.runs[r].state.At? && s.runs[r].generation == s.job.generation
    requires ActiveStatus(to) && !s.job.deletionRequested
    ensures Inv(SetStatus(SetRun(s, r, At(to)), to))
  {
    assert Active(s.runs[r]);
  }

  /** Ending the one active run. */
  lemma EndKeeps(s: State, r: RunId, outcome: RunState, status: Status)
    requires Inv(s) && r in s.runs && s.runs[r].state.At? && s.runs[r].generation == s.job.generation
    requires !outcome.At? && !ActiveStatus(status) && status != Deleting && !s.job.deletionRequested
    ensures Inv(SetStatus(SetRun(s, r, outcome), status))
  {
    assert Active(s.runs[r]);
  }

  lemma NotifyKeeps(s: State, r: RunId)
    requires Inv(s) && r in s.runs
    ensures Inv(Notify(s, r))
  {
  }

  /** Without active runs, job and runs agree on every status that claims none. */
  lemma CancelledRuns(s: State, job: Job)
    requires Generations(s.job, s.runs) && job.generation == s.job.generation && !ActiveStatus(job.status)
    ensures Generations(job, CancelActive(s).runs) && Agrees(job, CancelActive(s).runs)
  {
    var runs := CancelActive(s).runs;
    assert forall r :: r in runs ==> r in s.runs && runs[r].generation == s.runs[r].generation;
  }

  /** Ended runs are left alone, so their snapshots and events stay theirs. */
  lemma CancelledOwners(s: State, snaps: map<SnapId, Snap>)
    requires Owners(snaps, s.runs) && Outbox(s.events, s.runs)
    ensures Owners(snaps, CancelActive(s).runs) && Outbox(s.events, CancelActive(s).runs)
  {
    var runs := CancelActive(s).runs;
    assert forall r :: r in s.runs && !s.runs[r].state.At? ==> r in runs && runs[r] == s.runs[r];
  }

  lemma CancelKeeps(s: State, status: Status, deletion: bool, snaps: map<SnapId, Snap>)
    requires Inv(s) && Owners(snaps, s.runs) && (status == Paused || status == Deleting)
    requires deletion <==> status == Deleting
    requires deletion ==> forall n :: n in snaps ==> !Visible(snaps[n])
    ensures Inv(CancelActive(State(s.job.(status := status, deletionRequested := deletion), s.runs, snaps, s.events)))
  {
    var job := s.job.(status := status, deletionRequested := deletion);
    CancelledRuns(s, job);
    CancelledOwners(s, snaps);
    assert CancelActive(State(job, s.runs, snaps, s.events)).runs == CancelActive(s).runs;
  }

  /** A claim opens a generation no earlier run has used. */
  lemma ClaimedRun(s: State, r: RunId, key: Key)
    requires Generations(s.job, s.runs) && Agrees(s.job, s.runs) && !ActiveStatus(s.job.status) && r !in s.runs
    ensures var job := s.job.(status := Queued, generation := s.job.generation + 1);
            var runs := s.runs[r := Run(job.generation, At(Queued), key)];
            Generations(job, runs) && Agrees(job, runs) && HasRun(job, runs)
  {
    var runs := s.runs[r := Run(s.job.generation + 1, At(Queued), key)];
    assert r in runs && runs[r].generation == s.job.generation + 1 && runs[r].state == At(Queued);
    assert forall q :: q in runs && q != r ==> q in s.runs && runs[q] == s.runs[q];
  }

  lemma NewRunOwners(s: State, r: RunId, run: Run)
    requires Owners(s.snaps, s.runs) && Outbox(s.events, s.runs) && r !in s.runs
    ensures Owners(s.snaps, s.runs[r := run]) && Outbox(s.events, s.runs[r := run])
  {
  }

  lemma ClaimPassKeeps(s: State, r: RunId, key: Key, t: State)
    requires Inv(s) && ClaimPassStep(s, r, key, t)
    ensures Inv(t)
  {
    ClaimedRun(s, r, key);
    NewRunOwners(s, r, t.runs[r]);
  }

  lemma CompleteKeeps(s: State, r: RunId, g: nat, from: Status, outcome: RunState, t: State)
    requires Inv(s) && CompleteStep(s, r, g, from, outcome, t)
    ensures Inv(t)
  {
    var status := if outcome == RunFailed then Failed else Idle;
    EndKeeps(s, r, outcome, status);
    NotifyKeeps(SetStatus(SetRun(s, r, outcome), status), r);
  }

  /** Publishing the draft of a run that has just ended accordingly. */
  lemma PublishedOwner(s: State, n: SnapId, state: SnapState)
    requires Inv(s) && n in s.snaps
    requires state == Available ==> s.runs[s.snaps[n].run].state == Completed
    requires state == Partial ==> s.runs[s.snaps[n].run].state == Incomplete
    ensures Owners(s.snaps[n := s.snaps[n].(state := state)], s.runs)
  {
  }

  lemma SnapKeeps(s: State, snaps: map<SnapId, Snap>)
    requires Inv(s) && Owners(snaps, s.runs)
    requires s.job.deletionRequested ==> forall n :: n in snaps ==> !Visible(snaps[n])
    ensures Inv(s.(snaps := snaps))
  {
  }

  lemma PublishKeeps(s: State, r: RunId, g: nat, n: SnapId, whole: bool, t: State)
    requires Inv(s) && PublishStep(s, r, g, n, whole, t)
    ensures Inv(t)
  {
    var outcome := if whole then Completed else Incomplete;
    EndKeeps(s, r, outcome, Idle);
    var u := SetStatus(SetRun(s, r, outcome), Idle);
    NotifyKeeps(u, r);
    var v := Notify(u, r);
    var state := if whole then Available else Partial;
    PublishedOwner(v, n, state);
    SnapKeeps(v, t.snaps);
  }

  lemma RecoverKeeps(s: State, r: RunId, t: State)
    requires Inv(s) && RecoverStaleStep(s, r, t)
    ensures Inv(t)
  {
    EndKeeps(s, r, RunFailed, Failed);
  }

  lemma ClaimQueuedKeeps(s: State, r: RunId, t: State)
    requires Inv(s) && ClaimQueuedStep(s, r, t)
    ensures Inv(t)
  {
    MoveKeeps(s, r, Scanning);
  }

  lemma TransitionKeeps(s: State, r: RunId, g: nat, from: Status, to: Status, t: State)
    requires Inv(s) && TransitionStep(s, r, g, from, to, t)
    ensures Inv(t)
  {
    MoveKeeps(s, r, to);
  }

  lemma PauseKeeps(s: State, t: State)
    requires Inv(s) && PauseStep(s, t)
    ensures Inv(t)
  {
    CancelKeeps(s, Paused, s.job.deletionRequested, s.snaps);
  }

  lemma ResumeKeeps(s: State, t: State)
    requires Inv(s) && ResumeStep(s, t)
    ensures Inv(t)
  {
  }

  lemma RequestDeletionKeeps(s: State, t: State)
    requires Inv(s) && RequestDeletionStep(s, t)
    ensures Inv(t)
  {
    CancelKeeps(s, Deleting, true, ExpireAll(s.snaps));
  }

  lemma CreateDraftKeeps(s: State, n: SnapId, r: RunId, t: State)
    requires Inv(s) && CreateDraftStep(s, n, r, t)
    ensures Inv(t)
  {
    SnapKeeps(s, t.snaps);
  }

  lemma DiscardDraftKeeps(s: State, n: SnapId, r: RunId, t: State)
    requires Inv(s) && DiscardDraftStep(s, n, r, t)
    ensures Inv(t)
  {
    SnapKeeps(s, t.snaps);
  }

  lemma HideSnapshotKeeps(s: State, n: SnapId, state: SnapState, t: State)
    requires Inv(s) && HideSnapshotStep(s, n, state, t)
    ensures Inv(t)
  {
    PublishedOwner(s, n, state);
    SnapKeeps(s, t.snaps);
  }

  /** Every transaction keeps run and job in agreement. */
  lemma StepKeepsInv(s: State, step: Step, t: State)
    requires Inv(s) && Next(s, step, t)
    ensures Inv(t)
  {
    match step
    case ClaimPass(r, key) => ClaimPassKeeps(s, r, key, t);
    case ClaimQueued(r) => ClaimQueuedKeeps(s, r, t);
    case Transition(r, g, from, to) => TransitionKeeps(s, r, g, from, to, t);
    case Complete(r, g, from, outcome) => CompleteKeeps(s, r, g, from, outcome, t);
    case Publish(r, g, n, whole) => PublishKeeps(s, r, g, n, whole, t);
    case RecoverStale(r) => RecoverKeeps(s, r, t);
    case Pause => PauseKeeps(s, t);
    case Resume => ResumeKeeps(s, t);
    case RequestDeletion => RequestDeletionKeeps(s, t);
    case CreateDraft(n, r) => CreateDraftKeeps(s, n, r, t);
    case DiscardDraft(n, r) => DiscardDraftKeeps(s, n, r, t);
    case HideSnapshot(n, state) => HideSnapshotKeeps(s, n, state, t);
  }
}
