/** What holds over every run of a migration: notifications, discovery fencing and finalization. */
module MigrationTheorems {
  import opened Migrations

  // ---- Exactly-once notification ---------------------------------------------------------------

  /** The current notification generation has an event exactly in a terminal status; no event is ahead of it. */
  ghost predicate Outbox(m: Migration, events: map<nat, Status>) {
    && (m.notificationGeneration in events <==> Terminal(m.status))
    && (forall g :: g in events ==> g <= m.notificationGeneration)
  }

  /** The step neither enters a terminal status nor touches the outbox, or it enters one and adds its event. */
  ghost predicate NotifiesOnce(s: State, t: State) {
    && s.m.notificationGeneration <= t.m.notificationGeneration
    && t.events == if !Terminal(s.m.status) && Terminal(t.m.status)
                   then s.events[t.m.notificationGeneration := t.m.status] else s.events
  }

  lemma FinishNotifies(s: State, u: State, status: Status)
    requires Outbox(s.m, s.events) && !Terminal(s.m.status) && Terminal(status)
    requires u.m.notificationGeneration == s.m.notificationGeneration && u.events == s.events
    ensures Outbox(Finish(u, status).m, Finish(u, status).events) && NotifiesOnce(s, Finish(u, status))
  {
  }

  lemma SetStatusNotifies(s: State, status: Status)
    requires Outbox(s.m, s.events)
    ensures Outbox(SetStatus(s, status).m, SetStatus(s, status).events) && NotifiesOnce(s, SetStatus(s, status))
  {
  }

  lemma RowNotifies(s: State, st: Stats)
    requires Outbox(s.m, s.events)
    ensures var t := Notify(s.(m := ReconciledRow(s.m, st, s.indexErrors)));
            Outbox(t.m, t.events) && NotifiesOnce(s, t)
  {
  }

  lemma ReconcileNotifies(s: State)
    requires Outbox(s.m, s.events)
    ensures Outbox(Reconciled(s).m, Reconciled(s).events) && NotifiesOnce(s, Reconciled(s))
  {
    RowNotifies(s, Tally(s.tasks));
  }

  /** The steps that can enter a terminal status. */
  predicate Ends(step: Step) {
    || step.UpdateStatus? || step.FailStale? || step.FailAuthentication? || step.Reconcile?
    || step.CompleteEmpty? || step.FailIndexing?
  }

  lemma EndNotifies(s: State, step: Step, t: State)
    requires Outbox(s.m, s.events) && Next(s, step, t) && Ends(step)
    ensures Outbox(t.m, t.events) && NotifiesOnce(s, t)
  {
    match step
    case UpdateStatus(target) => SetStatusNotifies(s, target);
    case FailStale => FinishNotifies(s, s, Failed);
    case FailAuthentication(i) =>
      var tasks := MapRows(s.tasks[i := s.tasks[i].(status := Broken, retry := false)], WithdrawOpen);
      FinishNotifies(s, s.(tasks := tasks, m := s.m.(counts := EndedCounts(s.m.counts, Tally(tasks)))), Failed);
    case Reconcile => ReconcileNotifies(s);
    case CompleteEmpty(id) => FinishNotifies(s, s.(m := s.m.(discoveryComplete := true)), Completed);
    case FailIndexing(id) => FinishNotifies(s, s, Failed);
  }

  lemma OtherNotifies(s: State, step: Step, t: State)
    requires Outbox(s.m, s.events) && Next(s, step, t) && !Ends(step)
    ensures Outbox(t.m, t.events) && NotifiesOnce(s, t) && !(Terminal(t.m.status) && !Terminal(s.m.status))
  {
    match step
    case RetryFailed =>
    case Reindex =>
    case Mismatch(_, _) =>
    case _ =>
  }

  lemma StepNotifies(s: State, step: Step, t: State)
    requires Outbox(s.m, s.events) && Next(s, step, t)
    ensures Outbox(t.m, t.events) && NotifiesOnce(s, t)
  {
    if Ends(step) {
      EndNotifies(s, step, t);
    } else {
      OtherNotifies(s, step, t);
    }
  }

  /** In every reachable state the current generation has an event if and only if the status is terminal. */
  lemma {:induction false} EventIffTerminal(states: seq<State>, steps: seq<Step>, i: nat)
    requires IsRun(states, steps) && i < |states|
    ensures Outbox(states[i].m, states[i].events)
  {
    if i > 0 {
      EventIffTerminal(states, steps, i - 1);
      StepNotifies(states[i - 1], steps[i - 1], states[i]);
    }
  }

  /** Entries into a terminal status within the first i steps. */
  ghost function Entries(states: seq<State>, i: nat): nat
    requires i < |states|
  {
    if i == 0 then 0
    else Entries(states, i - 1) + One(!Terminal(states[i - 1].m.status) && Terminal(states[i].m.status))
  }

  /** Each entry into a terminal status yields exactly one event: the outbox holds as many events as entries. */
  lemma {:induction false} EventsCountEntries(states: seq<State>, steps: seq<Step>, i: nat)
    requires IsRun(states, steps) && i < |states|
    ensures |states[i].events| == Entries(states, i)
  {
    if i > 0 {
      EventsCountEntries(states, steps, i - 1);
      EventIffTerminal(states, steps, i - 1);
      StepNotifies(states[i - 1], steps[i - 1], states[i]);
      NewEvent(states[i - 1], states[i]);
    }
  }

  lemma NewEvent(s: State, t: State)
    requires Outbox(s.m, s.events) && Outbox(t.m, t.events) && NotifiesOnce(s, t)
    ensures |t.events| == |s.events| + One(!Terminal(s.m.status) && Terminal(t.m.status))
    ensures !Terminal(s.m.status) && Terminal(t.m.status) ==> t.m.notificationGeneration !in s.events
  {
  }

  ghost predicate EventsKept(s: State, t: State) {
    forall g :: g in s.events ==> g in t.events && t.events[g] == s.events[g]
  }

  lemma StepKeepsEvents(s: State, step: Step, t: State)
    requires Outbox(s.m, s.events) && Next(s, step, t)
    ensures EventsKept(s, t)
  {
    StepNotifies(s, step, t);
    NewEvent(s, t);
  }

  lemma RunStepKeepsEvents(states: seq<State>, steps: seq<Step>, i: nat)
    requires IsRun(states, steps) && i < |steps|
    ensures EventsKept(states[i], states[i + 1])
  {
    EventIffTerminal(states, steps, i);
    StepKeepsEvents(states[i], steps[i], states[i + 1]);
  }

  lemma EventsKeptRefl(s: State)
    ensures EventsKept(s, s)
  {
  }

  lemma EventsKeptTrans(s: State, t: State, u: State)
    requires EventsKept(s, t) && EventsKept(t, u)
    ensures EventsKept(s, u)
  {
  }

  lemma {:induction false} EventsKeptAlong(states: seq<State>, i: nat, j: nat)
    requires i <= j < |states| && forall k :: i <= k < j ==> EventsKept(states[k], states[k + 1])
    ensures EventsKept(states[i], states[j])
    decreases j
  {
    if i < j {
      EventsKeptAlong(states, i, j - 1);
      assert EventsKept(states[j - 1], states[(j - 1) + 1]);
      EventsKeptTrans(states[i], states[j - 1], states[j]);
    } else {
      EventsKeptRefl(states[i]);
    }
  }

  /** Events are never rewritten or withdrawn. */
  lemma EventsStay(states: seq<State>, steps: seq<Step>, i: nat, j: nat)
    requires IsRun(states, steps) && i <= j < |states|
    ensures EventsKept(states[i], states[j])
  {
    forall k | i <= k < j ensures EventsKept(states[k], states[k + 1]) {
      RunStepKeepsEvents(states, steps, k);
    }
    EventsKeptAlong(states, i, j);
  }

  /** The current event reports the current status. */
  ghost predicate EventReportsStatus(s: State) {
    Terminal(s.m.status) && s.m.notificationGeneration in s.events ==>
      s.events[s.m.notificationGeneration] == s.m.status
  }

  /**
    A step keeps the event in line with the status unless UpdateMigrationStatus writes FAILED over another terminal
    status: that changes the status under an event that was already sent.
   */
  lemma ReportKept(s: State, step: Step, t: State)
    requires Outbox(s.m, s.events) && EventReportsStatus(s) && Next(s, step, t)
    ensures EventReportsStatus(t) <==> !(step == UpdateStatus(Failed) && Finished(s.m.status))
  {
    StepNotifies(s, step, t);
    if Terminal(s.m.status) && Terminal(t.m.status) {
      TerminalChange(s, step, t);
    }
  }

  lemma TerminalChange(s: State, step: Step, t: State)
    requires Next(s, step, t) && Terminal(s.m.status) && Terminal(t.m.status)
    ensures t.m.notificationGeneration == s.m.notificationGeneration
    ensures t.m.status == (if step == UpdateStatus(Failed) then Failed else s.m.status)
  {
    match step
    case UpdateStatus(_) =>
    case Reconcile =>
    case _ =>
  }

  // ---- Discovery fencing -----------------------------------------------------------------------

  /** Re-entering INDEXING opens a generation above every earlier one. */
  ghost predicate Reenters(s: State, t: State) {
    && s.m.discoveryGeneration <= t.m.discoveryGeneration
    && (t.m.status == Indexing && s.m.status != Indexing ==> s.m.discoveryGeneration < t.m.discoveryGeneration)
  }

  lemma StepReenters(s: State, step: Step, t: State)
    requires Next(s, step, t)
    ensures Reenters(s, t)
  {
    match step
    case UpdateStatus(_) =>
    case Reconcile =>
    case Resume =>
    case _ =>
  }

  ghost predicate ReentersAlong(states: seq<State>) {
    forall i :: 0 <= i < |states| - 1 ==> Reenters(states[i], states[i + 1])
  }

  lemma RunReenters(states: seq<State>, steps: seq<Step>)
    requires IsRun(states, steps)
    ensures ReentersAlong(states)
  {
    forall i | 0 <= i < |states| - 1
      ensures Reenters(states[i], states[i + 1])
    {
      StepReenters(states[i], steps[i], states[i + 1]);
    }
  }

  lemma {:induction false} GenerationGrows(states: seq<State>, i: nat, j: nat)
    requires ReentersAlong(states) && i <= j < |states|
    ensures states[i].m.discoveryGeneration <= states[j].m.discoveryGeneration
    decreases j
  {
    if i < j {
      GenerationGrows(states, i, j - 1);
      assert Reenters(states[j - 1], states[j]);
    }
  }

  lemma {:induction false} LostStaysLost(states: seq<State>, i: nat, j: nat, k: nat, g: nat)
    requires ReentersAlong(states) && i <= j <= k < |states|
    requires ClaimValid(states[i], g) && !ClaimValid(states[j], g)
    ensures !ClaimValid(states[k], g)
    decreases k
  {
    if j < k {
      LostStaysLost(states, i, j, k - 1, g);
      GenerationGrows(states, i, k - 1);
      assert Reenters(states[k - 1], states[k]);
    }
  }

  /** A discovery claim is valid during one contiguous interval: once lost it never becomes valid again. */
  lemma ClaimIsContiguous(states: seq<State>, steps: seq<Step>, i: nat, j: nat, k: nat, g: nat)
    requires IsRun(states, steps) && i <= j <= k < |states|
    requires ClaimValid(states[i], g) && !ClaimValid(states[j], g)
    ensures !ClaimValid(states[k], g)
  {
    RunReenters(states, steps);
    LostStaysLost(states, i, j, k, g);
  }

  /** The statements that carry the indexer's generation. */
  predicate Fenced(step: Step) {
    step.InsertRows? || step.UpdateTotals? || step.FinishIndexing? || step.CompleteEmpty? || step.FailIndexing?
  }

  lemma FencedNeedsClaim(s: State, step: Step, t: State)
    requires Next(s, step, t) && Fenced(step)
    ensures step.id in s.indexers && ClaimValid(s, s.indexers[step.id].generation)
  {
  }

  ghost predicate IndexersStay(s: State, t: State) {
    forall id :: id in s.indexers ==> id in t.indexers && t.indexers[id].generation == s.indexers[id].generation
  }

  lemma StepIndexersStay(s: State, step: Step, t: State)
    requires Next(s, step, t)
    ensures IndexersStay(s, t)
  {
    match step
    case UpdateStatus(_) =>
    case Reconcile =>
    case _ =>
  }

  lemma {:induction false} IndexerKeepsGeneration(states: seq<State>, steps: seq<Step>, i: nat, j: nat, id: IndexerId)
    requires IsRun(states, steps) && i <= j < |states| && id in states[i].indexers
    ensures id in states[j].indexers && states[j].indexers[id].generation == states[i].indexers[id].generation
    decreases j
  {
    if i < j {
      IndexerKeepsGeneration(states, steps, i, j - 1, id);
      StepIndexersStay(states[j - 1], steps[j - 1], states[j]);
    }
  }

  /**
    Once its claim is lost, an indexer can no longer stage tasks, write totals, complete or fail the migration:
    none of its fenced statements takes effect in any later state.
   */
  lemma SupersededIndexerIsFenced(states: seq<State>, steps: seq<Step>, i: nat, j: nat, k: nat, id: IndexerId)
    requires IsRun(states, steps) && i <= j <= k < |steps| && id in states[i].indexers
    requires ClaimValid(states[i], states[i].indexers[id].generation)
    requires !ClaimValid(states[j], states[i].indexers[id].generation)
    ensures !(Fenced(steps[k]) && steps[k].id == id)
  {
    var g := states[i].indexers[id].generation;
    ClaimIsContiguous(states, steps, i, j, k, g);
    IndexerKeepsGeneration(states, steps, i, k, id);
    if Fenced(steps[k]) && steps[k].id == id {
      FencedNeedsClaim(states[k], steps[k], states[k + 1]);
    }
  }
}
