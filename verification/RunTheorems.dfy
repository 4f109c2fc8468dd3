/** What holds over every run of the backup job protocol, whatever the workers, the API and recovery interleave. */
module RunTheorems {
  import opened RunProtocol

  ghost predicate IsRun(states: seq<State>, steps: seq<Step>) {
    && |states| == |steps| + 1 && Init(states[0])
    && forall i :: 0 <= i < |steps| ==> Next(states[i], steps[i], states[i + 1])
  }

  lemma {:induction false} RunInv(states: seq<State>, steps: seq<Step>, i: nat)
    requires IsRun(states, steps) && i < |states|
    ensures Inv(states[i])
  {
    if i > 0 {
      RunInv(states, steps, i - 1);
      StepKeepsInv(states[i - 1], steps[i - 1], states[i]);
    }
  }

  // ---- Run and job agree -----------------------------------------------------------------------

  ghost predicate ActiveRun(s: State, r: RunId) {
    r in s.runs && Active(s.runs[r])
  }

  /**
    In every reachable state a job in an active status has exactly one active run, with the job's state and
    generation; a job in any other status has none.
   */
  lemma JobRunAgreement(states: seq<State>, steps: seq<Step>, i: nat)
    requires IsRun(states, steps) && i < |states|
    ensures var s := states[i];
            && (ActiveStatus(s.job.status) <==> exists r :: ActiveRun(s, r))
            && (forall q, r :: ActiveRun(s, q) && ActiveRun(s, r) ==> q == r)
            && (forall r :: ActiveRun(s, r) ==>
                  s.runs[r].state == At(s.job.status) && s.runs[r].generation == s.job.generation)
  {
    RunInv(states, steps, i);
    var s := states[i];
    if ActiveStatus(s.job.status) {
      var r :| r in s.runs && s.runs[r].generation == s.job.generation && s.runs[r].state == At(s.job.status);
      assert ActiveRun(s, r);
    }
  }

  /** BackupRunActiveContext joins run and job before each catalog write. */
  predicate RunActiveCheck(s: State, r: RunId, g: nat) {
    && r in s.runs && s.runs[r].generation == g && s.runs[r].state.At? && Owned(s.runs[r].state.status)
    && s.job.generation == g && At(s.job.status) == s.runs[r].state
  }

  /** In reachable states the join decides exactly whether the worker still owns the job's current run. */
  lemma ActiveCheckExact(states: seq<State>, steps: seq<Step>, i: nat, r: RunId, g: nat)
    requires IsRun(states, steps) && i < |states|
    ensures RunActiveCheck(states[i], r, g) <==>
      ActiveRun(states[i], r) && states[i].runs[r].generation == g && states[i].runs[r].state != At(Queued)
  {
    RunInv(states, steps, i);
  }

  // ---- What no step undoes ---------------------------------------------------------------------

  ghost predicate RunsGrow(s: State, t: State) {
    && s.job.generation <= t.job.generation
    && (forall r :: r in s.runs ==> r in t.runs && t.runs[r].generation == s.runs[r].generation)
    && (forall r :: r in s.runs && Terminal(s.runs[r]) ==> t.runs[r] == s.runs[r])
    && (forall r :: r in t.runs && r !in s.runs ==> s.job.generation < t.runs[r].generation)
  }

  ghost predicate EventsGrow(s: State, t: State) {
    forall r :: r in s.events ==> r in t.events && t.events[r] == s.events[r]
  }

  /** A snapshot visible in t was visible in s, or its run had not ended in s. */
  ghost predicate Fenced(s: State, t: State) {
    forall n :: n in t.snaps && Visible(t.snaps[n]) ==>
      || (n in s.snaps && t.snaps[n] == s.snaps[n])
      || (t.snaps[n].run in s.runs ==> !Terminal(s.runs[t.snaps[n].run]))
  }

  ghost predicate Grows(s: State, t: State) {
    RunsGrow(s, t) && EventsGrow(s, t) && Fenced(s, t)
  }

  lemma GrowsRefl(s: State)
    ensures Grows(s, s)
  {
  }

  lemma GrowsTrans(s: State, t: State, u: State)
    requires Grows(s, t) && Grows(t, u)
    ensures Grows(s, u)
  {
  }

  lemma SetRunGrows(s: State, r: RunId, state: RunState, status: Status)
    requires r in s.runs && !Terminal(s.runs[r])
    ensures RunsGrow(s, SetStatus(SetRun(s, r, state), status))
  {
  }

  lemma CompleteGrows(s: State, r: RunId, g: nat, from: Status, outcome: RunState, t: State)
    requires Inv(s) && CompleteStep(s, r, g, from, outcome, t)
    ensures Grows(s, t)
  {
    SetRunGrows(s, r, outcome, if outcome == RunFailed then Failed else Idle);
    assert t.snaps == s.snaps;
  }

  lemma RecoverGrows(s: State, r: RunId, t: State)
    requires Inv(s) && RecoverStaleStep(s, r, t)
    ensures Grows(s, t)
  {
    SetRunGrows(s, r, RunFailed, Failed);
  }

  /** A notification and a change of snapshots leave the runs as they are. */
  lemma NotifyGrows(s: State, u: State, r: RunId, t: State)
    requires RunsGrow(s, u) && u.events == s.events && r in u.runs && t == Notify(u, r).(snaps := t.snaps)
    ensures RunsGrow(s, t) && EventsGrow(s, t)
  {
  }

  lemma PublishGrows(s: State, r: RunId, g: nat, n: SnapId, whole: bool, t: State)
    requires Inv(s) && PublishStep(s, r, g, n, whole, t)
    ensures Grows(s, t)
  {
    var state := if whole then Completed else Incomplete;
    SetRunGrows(s, r, state, Idle);
    NotifyGrows(s, SetStatus(SetRun(s, r, state), Idle), r, t);
    PublishFenced(s, r, g, n, whole, t);
  }

  lemma PublishFenced(s: State, r: RunId, g: nat, n: SnapId, whole: bool, t: State)
    requires PublishStep(s, r, g, n, whole, t)
    ensures Fenced(s, t)
  {
    assert t.snaps == s.snaps[n := t.snaps[n]] && t.snaps[n].run == r;
  }

  lemma MoveGrows(s: State, step: Step, t: State)
    requires Inv(s) && Next(s, step, t) && (step.ClaimPass? || step.ClaimQueued? || step.Transition?)
    ensures Grows(s, t)
  {
    match step
    case ClaimPass(r, key) =>
    case ClaimQueued(r) => SetRunGrows(s, r, At(Scanning), Scanning);
    case Transition(r, g, from, to) => SetRunGrows(s, r, At(to), to);
  }

  lemma PauseGrows(s: State, t: State)
    requires Inv(s) && PauseStep(s, t)
    ensures Grows(s, t)
  {
  }

  lemma ResumeGrows(s: State, t: State)
    requires ResumeStep(s, t)
    ensures Grows(s, t)
  {
  }

  lemma RequestDeletionGrows(s: State, t: State)
    requires Inv(s) && RequestDeletionStep(s, t)
    ensures Grows(s, t)
  {
  }

  /** Steps that touch snapshots only, and show none. */
  lemma SnapshotsOnlyGrow(s: State, t: State)
    requires t == s.(snaps := t.snaps)
    requires forall n :: n in t.snaps && Visible(t.snaps[n]) ==> n in s.snaps && t.snaps[n] == s.snaps[n]
    ensures Grows(s, t)
  {
  }

  lemma CreateDraftGrows(s: State, n: SnapId, r: RunId, t: State)
    requires CreateDraftStep(s, n, r, t)
    ensures Grows(s, t)
  {
    SnapshotsOnlyGrow(s, t);
  }

  lemma DiscardDraftGrows(s: State, n: SnapId, r: RunId, t: State)
    requires DiscardDraftStep(s, n, r, t)
    ensures Grows(s, t)
  {
    SnapshotsOnlyGrow(s, t);
  }

  lemma HideSnapshotGrows(s: State, n: SnapId, state: SnapState, t: State)
    requires HideSnapshotStep(s, n, state, t)
    ensures Grows(s, t)
  {
    SnapshotsOnlyGrow(s, t);
  }

  lemma StepGrows(s: State, step: Step, t: State)
    requires Inv(s) && Next(s, step, t)
    ensures Grows(s, t)
  {
    match step
    case Publish(r, g, n, whole) => PublishGrows(s, r, g, n, whole, t);
    case Complete(r, g, from, outcome) => CompleteGrows(s, r, g, from, outcome, t);
    case RecoverStale(r) => RecoverGrows(s, r, t);
    case ClaimPass(_, _) => MoveGrows(s, step, t);
    case ClaimQueued(_) => MoveGrows(s, step, t);
    case Transition(_, _, _, _) => MoveGrows(s, step, t);
    case Pause => PauseGrows(s, t);
    case Resume => ResumeGrows(s, t);
    case RequestDeletion => RequestDeletionGrows(s, t);
    case CreateDraft(n, r) => CreateDraftGrows(s, n, r, t);
    case DiscardDraft(n, r) => DiscardDraftGrows(s, n, r, t);
    case HideSnapshot(n, state) => HideSnapshotGrows(s, n, state, t);
  }

  lemma {:induction false} RunGrows(states: seq<State>, steps: seq<Step>, i: nat, j: nat)
    requires IsRun(states, steps) && i <= j < |states|
    ensures Grows(states[i], states[j])
    decreases j - i
  {
    if i < j {
      RunGrows(states, steps, i, j - 1);
      RunInv(states, steps, j - 1);
      StepGrows(states[j - 1], steps[j - 1], states[j]);
      GrowsTrans(states[i], states[j - 1], states[j]);
    } else {
      GrowsRefl(states[i]);
    }
  }

  /** A run that appears later has a larger generation than every run that existed before. */
  lemma GenerationsIncrease(states: seq<State>, steps: seq<Step>, i: nat, j: nat, q: RunId, r: RunId)
    requires IsRun(states, steps) && i <= j < |states|
    requires q in states[i].runs && r !in states[i].runs && r in states[j].runs
    ensures q in states[j].runs && states[j].runs[q].generation < states[j].runs[r].generation
  {
    RunInv(states, steps, i);
    RunGrows(states, steps, i, j);
  }

  // ---- The publication fence -------------------------------------------------------------------

  ghost predicate VisibleIn(s: State, n: SnapId) {
    n in s.snaps && Visible(s.snaps[n])
  }

  /** The snapshot becomes visible in the step that moves its own current run from VERIFYING to its outcome. */
  ghost predicate PublishedBy(s: State, step: Step, n: SnapId, t: State) {
    && step.Publish? && step.snap == n && n in s.snaps && s.snaps[n] == Snap(step.run, Publishing)
    && step.run in s.runs && s.runs[step.run].state == At(Verifying)
    && s.runs[step.run].generation == s.job.generation && s.job.status == Verifying
    && step.run in t.runs && t.job.status == Idle
    && t.runs[step.run].state == (if step.whole then Completed else Incomplete)
    && t.snaps == s.snaps[n := Snap(step.run, if step.whole then Available else Partial)]
  }

  lemma OnlyPublishReveals(s: State, step: Step, n: SnapId, t: State)
    requires Next(s, step, t) && !step.Publish? && VisibleIn(t, n)
    ensures VisibleIn(s, n)
  {
    match step
    case RequestDeletion =>
    case HideSnapshot(m, state) =>
    case _ =>
  }

  lemma PublicationStep(states: seq<State>, steps: seq<Step>, i: nat, n: SnapId)
    requires IsRun(states, steps) && i < |steps|
    ensures !VisibleIn(states[i], n) && VisibleIn(states[i + 1], n) <==>
      PublishedBy(states[i], steps[i], n, states[i + 1])
  {
    var s, step, t := states[i], steps[i], states[i + 1];
    if !VisibleIn(s, n) && VisibleIn(t, n) && !step.Publish? {
      OnlyPublishReveals(s, step, n, t);
    }
  }

  /** A run that has ended, however it ended, never gains a visible snapshot afterwards. */
  lemma EndedRunNeverPublishes(states: seq<State>, steps: seq<Step>, i: nat, j: nat, r: RunId, n: SnapId)
    requires IsRun(states, steps) && i <= j < |states| && r in states[i].runs && Terminal(states[i].runs[r])
    requires VisibleIn(states[j], n) && states[j].snaps[n].run == r
    ensures VisibleIn(states[i], n) && states[i].snaps[n] == states[j].snaps[n]
  {
    RunGrows(states, steps, i, j);
  }

  /** The steps that take a run away from its worker. */
  predicate Interrupts(step: Step, r: RunId) {
    step.Pause? || step.RequestDeletion? || (step.RecoverStale? && step.run == r)
  }

  lemma InterruptEnds(s: State, step: Step, r: RunId, t: State)
    requires Inv(s) && Next(s, step, t) && Interrupts(step, r) && ActiveRun(s, r)
    ensures r in t.runs && (t.runs[r].state == Cancelled || t.runs[r].state == RunFailed)
  {
    match step
    case Pause =>
    case RequestDeletion =>
    case RecoverStale(q) =>
  }

  /** After a pause, a deletion request or recovery, nothing the superseded worker does publishes its snapshot. */
  lemma SupersededWorkerNeverPublishes(states: seq<State>, steps: seq<Step>, i: nat, j: nat, r: RunId, n: SnapId)
    requires IsRun(states, steps) && i < j < |states| && ActiveRun(states[i], r) && Interrupts(steps[i], r)
    requires n in states[j].snaps && states[j].snaps[n].run == r
    ensures !VisibleIn(states[j], n)
  {
    RunInv(states, steps, i);
    InterruptEnds(states[i], steps[i], r, states[i + 1]);
    RunGrows(states, steps, i + 1, j);
    RunInv(states, steps, j);
  }

  /** READY snapshots belong to COMPLETED runs and PARTIAL ones to PARTIAL runs, one per run. */
  lemma VisibleSnapshotOwner(states: seq<State>, steps: seq<Step>, i: nat, n: SnapId)
    requires IsRun(states, steps) && i < |states| && VisibleIn(states[i], n)
    ensures var s := states[i]; var r := s.snaps[n].run;
            && r in s.runs && s.runs[r].state == (if s.snaps[n].state == Available then Completed else Incomplete)
            && (forall m :: m in s.snaps && s.snaps[m].run == r ==> m == n)
  {
    RunInv(states, steps, i);
  }

  /** A job whose deletion was requested stays in deletion and shows no snapshot again. */
  lemma {:induction false} DeletionIsFinal(states: seq<State>, steps: seq<Step>, i: nat, j: nat, n: SnapId)
    requires IsRun(states, steps) && i <= j < |states| && states[i].job.deletionRequested
    ensures states[j].job.status == Deleting && !VisibleIn(states[j], n)
    decreases j - i
  {
    if i < j {
      DeletionIsFinal(states, steps, i, j - 1, n);
      DeletionStays(states[j - 1], steps[j - 1], states[j]);
    } else {
      RunInv(states, steps, i);
    }
    RunInv(states, steps, j);
  }

  lemma DeletionStays(s: State, step: Step, t: State)
    requires Next(s, step, t) && s.job.status == Deleting
    ensures t.job.status == Deleting
  {
    match step
    case RequestDeletion =>
    case _ =>
  }

  // ---- Notifications ---------------------------------------------------------------------------

  ghost predicate Notifies(s: State, t: State, r: RunId) {
    r !in s.events && r in t.events
  }

  /** At most one step of a run of the protocol notifies about a backup run, and what it reports stays true. */
  lemma AtMostOneNotification(states: seq<State>, steps: seq<Step>, i: nat, j: nat, r: RunId)
    requires IsRun(states, steps) && i < |steps| && j < |steps|
    requires Notifies(states[i], states[i + 1], r)
    ensures Notifies(states[j], states[j + 1], r) ==> i == j
    ensures i < j ==> r in states[j].runs && states[j].runs[r].state == states[i + 1].events[r]
  {
    if i < j {
      RunGrows(states, steps, i + 1, j);
      RunInv(states, steps, j);
    } else if j < i {
      RunGrows(states, steps, j + 1, i);
    }
  }

  lemma OnlyEndsNotify(s: State, step: Step, t: State)
    requires Next(s, step, t) && !step.Complete? && !step.Publish?
    ensures t.events == s.events
  {
    match step
    case Pause =>
    case RecoverStale(_) =>
    case _ =>
  }

  lemma NotifyingEnd(s: State, step: Step, r: RunId, t: State)
    requires Inv(s) && Next(s, step, t) && (step.Complete? || step.Publish?)
    ensures Notifies(s, t, r) <==> step.run == r && !(step.Complete? && step.outcome == Cancelled)
  {
  }

  /** The worker ends its run, other than by cancelling it. */
  predicate EndedByWorker(step: Step, r: RunId) {
    (step.Complete? && step.run == r && step.outcome != Cancelled) || (step.Publish? && step.run == r)
  }

  /** A run is notified about exactly when its worker ends it with an outcome other than cancellation. */
  lemma NotifiedWhenEnded(states: seq<State>, steps: seq<Step>, i: nat, r: RunId)
    requires IsRun(states, steps) && i < |steps|
    ensures Notifies(states[i], states[i + 1], r) <==> EndedByWorker(steps[i], r)
  {
    RunInv(states, steps, i);
    if steps[i].Complete? || steps[i].Publish? {
      NotifyingEnd(states[i], steps[i], r, states[i + 1]);
    } else {
      OnlyEndsNotify(states[i], steps[i], states[i + 1]);
    }
  }

  /** Some step among the first i ended the run by its worker. */
  ghost predicate WorkerEnded(steps: seq<Step>, i: nat, r: RunId)
    requires i <= |steps|
  {
    exists j :: 0 <= j < i && EndedByWorker(steps[j], r)
  }

  ghost predicate RecoveryEnded(steps: seq<Step>, i: nat, r: RunId)
    requires i <= |steps|
  {
    exists j :: 0 <= j < i && steps[j] == RecoverStale(r)
  }

  /** The run gets its event exactly at the steps by which its worker ends it. */
  ghost predicate EventsFollow(states: seq<State>, steps: seq<Step>, r: RunId)
    requires |states| == |steps| + 1
  {
    forall i :: 0 <= i < |steps| ==>
      (r in states[i + 1].events <==> r in states[i].events || EndedByWorker(steps[i], r))
  }

  lemma {:induction false} EventsAlong(states: seq<State>, steps: seq<Step>, i: nat, r: RunId)
    requires |states| == |steps| + 1 && EventsFollow(states, steps, r) && r !in states[0].events && i < |states|
    ensures r in states[i].events <==> WorkerEnded(steps, i, r)
  {
    if i > 0 {
      EventsAlong(states, steps, i - 1, r);
      WorkerEndedStep(steps, i - 1, r);
    }
  }

  /** A run has an event exactly when its worker has ended it. */
  lemma EventIffWorkerEnded(states: seq<State>, steps: seq<Step>, i: nat, r: RunId)
    requires IsRun(states, steps) && i < |states|
    ensures r in states[i].events <==> WorkerEnded(steps, i, r)
  {
    forall k | 0 <= k < |steps|
      ensures r in states[k + 1].events <==> r in states[k].events || EndedByWorker(steps[k], r)
    {
      EventStep(states, steps, k, r);
    }
    EventsAlong(states, steps, i, r);
  }

  lemma EventStep(states: seq<State>, steps: seq<Step>, i: nat, r: RunId)
    requires IsRun(states, steps) && i < |steps|
    ensures r in states[i + 1].events <==> r in states[i].events || EndedByWorker(steps[i], r)
  {
    NotifiedWhenEnded(states, steps, i, r);
    RunGrows(states, steps, i, i + 1);
  }

  lemma WorkerEndedStep(steps: seq<Step>, i: nat, r: RunId)
    requires i < |steps|
    ensures WorkerEnded(steps, i + 1, r) <==> WorkerEnded(steps, i, r) || EndedByWorker(steps[i], r)
  {
  }

  /** Ending steps find the run active and leave it ended. */
  lemma EndingStep(s: State, step: Step, r: RunId, t: State)
    requires Next(s, step, t) && (EndedByWorker(step, r) || step == RecoverStale(r))
    ensures r in s.runs && !Terminal(s.runs[r]) && r in t.runs && Terminal(t.runs[r])
  {
  }

  /** Two ending steps of one run are the same step. */
  lemma EndsOnce(states: seq<State>, steps: seq<Step>, j: nat, k: nat, r: RunId)
    requires IsRun(states, steps) && j < k < |steps|
    requires EndedByWorker(steps[j], r) || steps[j] == RecoverStale(r)
    ensures !EndedByWorker(steps[k], r) && steps[k] != RecoverStale(r)
  {
    EndingStep(states[j], steps[j], r, states[j + 1]);
    RunGrows(states, steps, j + 1, k);
    if EndedByWorker(steps[k], r) || steps[k] == RecoverStale(r) {
      EndingStep(states[k], steps[k], r, states[k + 1]);
    }
  }

  /** A step that fails a run is recovery or its worker's. */
  lemma FailingStep(s: State, step: Step, r: RunId, t: State)
    requires Next(s, step, t) && r in t.runs && t.runs[r].state == RunFailed
    requires !(r in s.runs && s.runs[r].state == RunFailed)
    ensures EndedByWorker(step, r) || step == RecoverStale(r)
  {
    match step
    case Pause =>
    case RequestDeletion =>
    case _ =>
  }

  lemma {:induction false} FailedWasEnded(states: seq<State>, steps: seq<Step>, i: nat, r: RunId)
    requires IsRun(states, steps) && i < |states| && r in states[i].runs && states[i].runs[r].state == RunFailed
    ensures WorkerEnded(steps, i, r) || RecoveryEnded(steps, i, r)
  {
    if i > 0 {
      if r in states[i - 1].runs && states[i - 1].runs[r].state == RunFailed {
        FailedWasEnded(states, steps, i - 1, r);
      } else {
        FailingStep(states[i - 1], steps[i - 1], r, states[i]);
      }
    }
  }

  lemma NotBoth(states: seq<State>, steps: seq<Step>, i: nat, r: RunId)
    requires IsRun(states, steps) && i < |states|
    ensures !(WorkerEnded(steps, i, r) && RecoveryEnded(steps, i, r))
  {
    forall j, k | 0 <= j < i && 0 <= k < i && EndedByWorker(steps[j], r)
      ensures steps[k] != RecoverStale(r)
    {
      if j < k {
        EndsOnce(states, steps, j, k, r);
      } else if k < j && steps[k] == RecoverStale(r) {
        EndsOnce(states, steps, k, j, r);
      }
    }
  }

  lemma SucceedingStep(s: State, step: Step, r: RunId, t: State)
    requires Next(s, step, t) && r in t.runs && (t.runs[r].state == Completed || t.runs[r].state == Incomplete)
    requires !(r in s.runs && s.runs[r] == t.runs[r])
    ensures EndedByWorker(step, r)
  {
    match step
    case Pause =>
    case RequestDeletion =>
    case _ =>
  }

  lemma {:induction false} SucceededWasEnded(states: seq<State>, steps: seq<Step>, i: nat, r: RunId)
    requires IsRun(states, steps) && i < |states| && r in states[i].runs
    requires states[i].runs[r].state == Completed || states[i].runs[r].state == Incomplete
    ensures WorkerEnded(steps, i, r)
  {
    if i > 0 {
      if r in states[i - 1].runs && states[i - 1].runs[r] == states[i].runs[r] {
        SucceededWasEnded(states, steps, i - 1, r);
      } else {
        SucceedingStep(states[i - 1], steps[i - 1], r, states[i]);
      }
    }
  }

  /**
    Which ended runs have a notification, in every reachable state: a COMPLETED or PARTIAL one always, a CANCELLED one
    never, and a FAILED one if and only if recovery did not end it.
   */
  lemma NotifiedUnlessRecovered(states: seq<State>, steps: seq<Step>, i: nat, r: RunId)
    requires IsRun(states, steps) && i < |states| && r in states[i].runs
    ensures var state := states[i].runs[r].state;
            && (state == Completed || state == Incomplete ==> r in states[i].events)
            && (state == Cancelled || state.At? ==> r !in states[i].events)
            && (state == RunFailed ==> (r in states[i].events <==> !RecoveryEnded(steps, i, r)))
  {
    var state := states[i].runs[r].state;
    RunInv(states, steps, i);
    EventIffWorkerEnded(states, steps, i, r);
    if state == Completed || state == Incomplete {
      SucceededWasEnded(states, steps, i, r);
    } else if state == RunFailed {
      FailedWasEnded(states, steps, i, r);
      NotBoth(states, steps, i, r);
    }
  }

  /** A claimed run whose worker falls silent is failed by recovery, and nothing reports it. */
  lemma RecoveredRunIsSilent(r: RunId, key: Key) returns (states: seq<State>, steps: seq<Step>)
    ensures IsRun(states, steps) && |steps| == 3 && steps[2] == RecoverStale(r)
    ensures r in states[3].runs && states[3].runs[r].state == RunFailed && r !in states[3].events
  {
    var s := State(Job(Idle, 0, false), map[], map[], map[]);
    var a := State(Job(Queued, 1, false), map[r := Run(1, At(Queued), key)], map[], map[]);
    var b := State(Job(Scanning, 1, false), map[r := Run(1, At(Scanning), key)], map[], map[]);
    var c := State(Job(Failed, 1, false), map[r := Run(1, RunFailed, key)], map[], map[]);
    states, steps := [s, a, b, c], [ClaimPass(r, key), ClaimQueued(r), RecoverStale(r)];
    assert a.runs == s.runs[r := Run(1, At(Queued), key)];
    assert ClaimPassStep(s, r, key, a);
    assert b.runs == SetRun(a, r, At(Scanning)).runs;
    assert ClaimQueuedStep(a, r, b);
    assert c.runs == SetRun(b, r, RunFailed).runs && c.snaps == DropDrafts(b, r).snaps;
    assert RecoverStaleStep(b, r, c);
    assert Next(states[0], steps[0], states[1]) && Next(states[1], steps[1], states[2]);
    assert Next(states[2], steps[2], states[3]);
  }
}
