/**
  The three conditions of safe finalization are exact: a step that violates one of them can be continued, by steps
  that violate none, to a finished migration whose promise is broken. And such steps are within reach.
 */
module MigrationRuns {
  import opened Bytes
  import opened Migrations
  import opened MigrationTheorems
  import opened MigrationSafety

  // ---- Continuations ---------------------------------------------------------------------------

  ghost predicate Path(d: Discipline, s: State, steps: seq<Step>, t: State)
    decreases |steps|
  {
    if steps == [] then s == t
    else
      var before, step := steps[..|steps| - 1], steps[|steps| - 1];
      exists m :: Path(d, s, before, m) && Next(m, step, t) && Obeys(d, m, step, t)
  }

  ghost predicate Leads(d: Discipline, s: State, t: State) {
    exists steps :: Path(d, s, steps, t)
  }

  lemma LeadsRefl(d: Discipline, s: State)
    ensures Leads(d, s, s)
  {
    assert Path(d, s, [], s);
  }

  lemma LeadsNext(d: Discipline, s: State, m: State, step: Step, t: State)
    requires Leads(d, s, m) && Next(m, step, t) && Obeys(d, m, step, t)
    ensures Leads(d, s, t)
  {
    var steps :| Path(d, s, steps, m);
    var more := steps + [step];
    assert more[..|more| - 1] == steps;
    assert Path(d, s, more, t);
  }

  /** Whatever orderly steps follow, a finished migration keeps its promise. */
  ghost predicate PromiseKept(s: State) {
    forall t :: Leads(ORDERLY, s, t) ==> Promise(t)
  }

  lemma {:induction false} PathSafe(s: State, steps: seq<Step>, t: State)
    requires Safe(s) && Path(ORDERLY, s, steps, t)
    ensures Safe(t)
    decreases |steps|
  {
    if steps != [] {
      var last := |steps| - 1;
      var m :| Path(ORDERLY, s, steps[..last], m) && Next(m, steps[last], t) && Obeys(ORDERLY, m, steps[last], t);
      PathSafe(s, steps[..last], m);
      StepKeepsSafe(m, steps[last], t);
    }
  }

  lemma SafeIsKept(s: State)
    requires Safe(s)
    ensures PromiseKept(s)
  {
    forall t | Leads(ORDERLY, s, t)
      ensures Promise(t)
    {
      var steps :| Path(ORDERLY, s, steps, t);
      PathSafe(s, steps, t);
    }
  }

  lemma NotKept(s: State, t: State)
    requires Leads(ORDERLY, s, t) && !Promise(t)
    ensures !PromiseKept(s)
  {
  }

  // ---- Single steps of a continuation ----------------------------------------------------------

  function WithIndexer(s: State, id: IndexerId, indexer: Indexer): State {
    s.(indexers := s.indexers[id := indexer])
  }

  function Started(s: State, id: IndexerId): State
    requires s.launches > 0
  {
    WithIndexer(s, id, Indexer(s.m.discoveryGeneration, [], NotCounted)).(launches := s.launches - 1)
  }

  lemma LeadsStart(d: Discipline, from: State, s: State, id: IndexerId)
    requires Leads(d, from, s) && s.launches > 0 && id !in s.indexers && s.m.status == Indexing
    requires !s.m.discoveryComplete
    ensures Leads(d, from, Started(s, id))
  {
    LeadsNext(d, from, s, StartIndexer(id), Started(s, id));
  }

  lemma LeadsStage(d: Discipline, from: State, s: State, id: IndexerId, row: Task)
    requires Leads(d, from, s) && id in s.indexers && s.indexers[id] == Indexer(s.m.discoveryGeneration, [], NotCounted)
    requires s.m.status == Indexing && row.status == Pending
    ensures Leads(d, from, WithIndexer(s, id, Indexer(s.m.discoveryGeneration, [row], NotCounted)))
  {
    assert [] + [row] == [row];
    var t := WithIndexer(s, id, Indexer(s.m.discoveryGeneration, [row], NotCounted));
    LeadsNext(d, from, s, InsertRows(id, [row]), t);
  }

  function Committed(s: State, id: IndexerId): State
    requires id in s.indexers
  {
    WithIndexer(s, id, s.indexers[id].(rows := [])).(tasks := s.tasks + s.indexers[id].rows)
  }

  lemma LeadsCommit(d: Discipline, from: State, s: State, id: IndexerId)
    requires Leads(d, from, s) && id in s.indexers && s.indexers[id].rows != []
    ensures Leads(d, from, Committed(s, id))
  {
    LeadsNext(d, from, s, CommitRows(id), Committed(s, id));
  }

  lemma LeadsCountNone(d: Discipline, from: State, s: State, id: IndexerId)
    requires Leads(d, from, s) && id in s.indexers && s.indexers[id].rows == [] && s.tasks == []
    ensures Leads(d, from, WithIndexer(s, id, s.indexers[id].(counted := CountedTasks(0, 0))))
  {
    LeadsNext(d, from, s, CountTasks(id), WithIndexer(s, id, s.indexers[id].(counted := CountedTasks(0, 0))));
  }

  function EmptyCompletion(s: State): State {
    Finish(s.(m := s.m.(discoveryComplete := true)), Completed)
  }

  lemma LeadsDeclareEmpty(d: Discipline, from: State, s: State, id: IndexerId)
    requires Leads(d, from, s) && id in s.indexers && s.indexers[id].counted == CountedTasks(0, 0)
    requires ClaimValid(s, s.indexers[id].generation) && (d.finishes ==> NoneStaged(s.indexers))
    ensures Leads(d, from, EmptyCompletion(s))
  {
    LeadsNext(d, from, s, CompleteEmpty(id), EmptyCompletion(s));
  }

  // ---- Settling and clearing -------------------------------------------------------------------

  ghost function Staged(indexers: map<IndexerId, Indexer>): set<IndexerId> {
    set id | id in indexers && indexers[id].rows != []
  }

  ghost function Cleared(indexers: map<IndexerId, Indexer>): map<IndexerId, Indexer> {
    map id | id in indexers :: indexers[id].(rows := [])
  }

  /** Open transactions can always be rolled back. */
  lemma {:induction false} LeadsClear(d: Discipline, from: State, s: State)
    requires Leads(d, from, s)
    ensures Leads(d, from, s.(indexers := Cleared(s.indexers)))
    decreases |Staged(s.indexers)|
  {
    if Staged(s.indexers) == {} {
      assert forall id :: id in s.indexers ==> id !in Staged(s.indexers);
      assert Cleared(s.indexers) == s.indexers;
    } else {
      var id :| id in Staged(s.indexers);
      var t := WithIndexer(s, id, s.indexers[id].(rows := []));
      LeadsNext(d, from, s, RollbackRows(id), t);
      assert Staged(t.indexers) == Staged(s.indexers) - {id};
      LeadsClear(d, from, t);
      assert Cleared(t.indexers) == Cleared(s.indexers);
    }
  }

  const DONE := Task(Done, false, true, 0)

  /** Workers can settle every task. */
  lemma {:induction false} LeadsSettle(d: Discipline, from: State, s: State, n: nat)
    requires Leads(d, from, s) && n <= |s.tasks| && forall i :: n <= i < |s.tasks| ==> Settled(s.tasks[i])
    ensures exists tasks :: AllSettled(tasks) && Leads(d, from, s.(tasks := tasks))
    decreases n
  {
    if n == 0 {
      assert s.(tasks := s.tasks) == s;
    } else {
      var t := s.(tasks := s.tasks[n - 1 := DONE]);
      LeadsNext(d, from, s, TaskWork(n - 1, DONE), t);
      LeadsSettle(d, from, t, n - 1);
      var tasks :| AllSettled(tasks) && Leads(d, from, t.(tasks := tasks));
      assert t.(tasks := tasks) == s.(tasks := tasks);
    }
  }

  lemma RowFinishes(m: Migration, st: Stats, indexErrors: nat)
    requires m.status == Running && st.active == 0 && st.unverified == 0
    ensures var n := ReconciledRow(m, st, indexErrors);
            Finished(n.status) && n.discoveryComplete == m.discoveryComplete
  {
  }

  lemma ReconcileFinishes(s: State)
    requires s.m.status == Running && AllSettled(s.tasks)
    ensures var t := Reconciled(s);
            Finished(t.m.status) && t.m.discoveryComplete == s.m.discoveryComplete && t.indexers == s.indexers
  {
    TallySettled(s.tasks);
    RowFinishes(s.m, Tally(s.tasks), s.indexErrors);
  }

  /** A running migration can be worked off and finished, whether or not discovery is complete. */
  lemma LeadsFinish(d: Discipline, from: State, s: State) returns (t: State)
    requires Leads(d, from, s) && s.m.status == Running
    ensures Leads(d, from, t) && Finished(t.m.status) && t.m.discoveryComplete == s.m.discoveryComplete
  {
    LeadsSettle(d, from, s, |s.tasks|);
    var tasks :| AllSettled(tasks) && Leads(d, from, s.(tasks := tasks));
    var u := s.(tasks := tasks);
    LeadsClear(d, from, u);
    var v := u.(indexers := Cleared(u.indexers));
    ReconcileFinishes(v);
    t := Reconciled(v);
    LeadsNext(d, from, v, Reconcile, t);
  }

  // ---- The conditions are exact ----------------------------------------------------------------

  /** Retrying failed tasks is harmless if and only if discovery was complete. */
  lemma RetryIsSafeIff(s: State, t: State)
    requires Safe(s) && RetryFailedStep(s, t)
    ensures PromiseKept(t) <==> s.m.discoveryComplete
  {
    if s.m.discoveryComplete {
      TasksKeepSafe(s, RetryFailed, t);
      SafeIsKept(t);
    } else {
      LeadsRefl(ORDERLY, t);
      var u := LeadsFinish(ORDERLY, t, t);
      NotKept(t, u);
    }
  }

  /** An indexer that counted nothing completes over rows committed since. */
  lemma CompletesOver(d: Discipline, from: State, s: State, id: IndexerId) returns (t: State)
    requires Leads(d, from, s) && id in s.indexers && s.indexers[id].counted == CountedTasks(0, 0)
    requires ClaimValid(s, s.indexers[id].generation) && s.tasks != [] && s.tasks[0].status == Pending
    ensures Leads(d, from, t) && t.m.status == Completed && !AllSettled(t.tasks)
  {
    LeadsClear(d, from, s);
    var u := s.(indexers := Cleared(s.indexers));
    LeadsDeclareEmpty(d, from, u, id);
    t := EmptyCompletion(u);
    assert !Settled(t.tasks[0]);
  }

  /** Of two indexers of one generation, one counts before the other finds its first task. */
  lemma CountsTooEarly(d: Discipline, from: State, s: State, a: IndexerId, b: IndexerId) returns (t: State)
    requires Leads(d, from, s) && s.m.status == Indexing && s.tasks == [] && a in s.indexers && b in s.indexers
    requires a != b
    requires s.indexers[a] == s.indexers[b] == Indexer(s.m.discoveryGeneration, [], NotCounted)
    ensures Leads(d, from, t) && t.m.status == Completed && !AllSettled(t.tasks)
  {
    var row := Task(Pending, false, false, 0);
    LeadsCountNone(d, from, s, a);
    var u := WithIndexer(s, a, Indexer(s.m.discoveryGeneration, [], CountedTasks(0, 0)));
    LeadsStage(d, from, u, b, row);
    var v := WithIndexer(u, b, Indexer(s.m.discoveryGeneration, [row], NotCounted));
    LeadsCommit(d, from, v, b);
    t := CompletesOver(d, from, Committed(v, b), a);
  }

  /** Two goroutines load the same generation. */
  lemma TwoLaunches(d: Discipline, from: State, s: State) returns (t: State)
    requires Leads(d, from, s) && s.m.status == Indexing && !s.m.discoveryComplete && s.tasks == [] && s.launches > 1
    ensures Leads(d, from, t) && t.m.status == Completed && !AllSettled(t.tasks)
  {
    var a := Above(s.indexers.Keys);
    LeadsStart(d, from, s, a);
    var u := Started(s, a);
    LeadsStart(d, from, u, a + 1);
    var v := Started(u, a + 1);
    assert v.indexers[a] == v.indexers[a + 1] == Indexer(v.m.discoveryGeneration, [], NotCounted);
    t := CountsTooEarly(d, from, v, a, a + 1);
  }

  /** A goroutine counts before rows staged under an earlier generation are committed. */
  lemma LateRows(d: Discipline, from: State, s: State, id: IndexerId) returns (t: State)
    requires Leads(d, from, s) && s.m.status == Indexing && !s.m.discoveryComplete && s.tasks == [] && s.launches > 0
    requires id in s.indexers && s.indexers[id].rows != [] && AllPending(s.indexers[id].rows)
    ensures Leads(d, from, t) && t.m.status == Completed && !AllSettled(t.tasks)
  {
    var a := Above(s.indexers.Keys);
    var starter := Indexer(s.m.discoveryGeneration, [], NotCounted);
    LeadsStart(d, from, s, a);
    var s1 := WithIndexer(s, a, starter).(launches := s.launches - 1);
    LeadsCountNone(d, from, s1, a);
    var s2 := WithIndexer(s1, a, starter.(counted := CountedTasks(0, 0)));
    LeadsCommit(d, from, s2, id);
    t := CompletesOver(d, from, Committed(s2, id), a);
  }

  /**
    Opening a discovery is harmless if and only if it starts with tasks, or no goroutine was on its way and no rows
    were staged.
   */
  lemma OpeningIsSafeIff(s: State, step: Step, t: State)
    requires Safe(s) && Next(s, step, t) && Opening(s, step)
    ensures PromiseKept(t) <==> t.tasks != [] || (s.launches == 0 && NoneStaged(s.indexers))
  {
    OpeningEffect(s, step, t);
    LeadsRefl(ORDERLY, t);
    if t.tasks != [] || (s.launches == 0 && NoneStaged(s.indexers)) {
      OpeningKeepsSafe(s, step, t);
      SafeIsKept(t);
    } else if s.launches > 0 {
      var u := TwoLaunches(ORDERLY, t, t);
      NotKept(t, u);
    } else {
      var id :| id in s.indexers && s.indexers[id].rows != [];
      var u := LateRows(ORDERLY, t, t, id);
      NotKept(t, u);
    }
  }

  /** Finishing a migration is harmless if and only if no rows are staged at that moment. */
  lemma FinishingIsSafeIff(s: State, step: Step, t: State)
    requires Safe(s) && Next(s, step, t) && Finishing(s, t)
    ensures PromiseKept(t) <==> NoneStaged(s.indexers)
  {
    FinishingEffect(s, step, t);
    if NoneStaged(s.indexers) {
      StepKeepsSafe(s, step, t);
      SafeIsKept(t);
    } else {
      var id :| id in s.indexers && s.indexers[id].rows != [];
      LeadsRefl(ORDERLY, t);
      LeadsCommit(ORDERLY, t, t, id);
      var u := Committed(t, id);
      assert u.tasks[|t.tasks|] == s.indexers[id].rows[0];
      assert !Settled(u.tasks[|t.tasks|]);
      NotKept(t, u);
    }
  }

  lemma FinishingEffect(s: State, step: Step, t: State)
    requires Next(s, step, t) && Finishing(s, t)
    ensures t.indexers == s.indexers && (step.Reconcile? || step.CompleteEmpty?)
  {
    match step
    case UpdateStatus(_) =>
    case Resume =>
    case Mismatch(_, _) =>
    case _ =>
  }

  // ---- A finished migration gains a task -------------------------------------------------------

  /** The steps lead from s to t and the migration stays finished. */
  ghost predicate StaysFinished(s: State, steps: seq<Step>, t: State)
    decreases |steps|
  {
    if steps == [] then s == t
    else
      var before, step := steps[..|steps| - 1], steps[|steps| - 1];
      Finished(t.m.status) && exists m :: StaysFinished(s, before, m) && Next(m, step, t)
  }

  lemma FinishedStep(s: State, step: Step, t: State)
    requires Finished(s.m.status) && Finished(t.m.status) && NoneStaged(s.indexers) && Next(s, step, t)
    ensures NoneStaged(t.indexers) && |t.tasks| == |s.tasks|
  {
    match step
    case UpdateStatus(_) =>
    case Reconcile =>
    case _ =>
  }

  lemma {:induction false} FinishedGainsNone(s: State, steps: seq<Step>, t: State)
    requires Finished(s.m.status) && NoneStaged(s.indexers) && StaysFinished(s, steps, t)
    ensures NoneStaged(t.indexers) && |t.tasks| == |s.tasks| && Finished(t.m.status)
    decreases |steps|
  {
    if steps != [] {
      var last := |steps| - 1;
      var m :| StaysFinished(s, steps[..last], m) && Next(m, steps[last], t);
      FinishedGainsNone(s, steps[..last], m);
      FinishedStep(m, steps[last], t);
    }
  }

  /** A finished migration can gain a task before it leaves that status if and only if some indexer has rows staged. */
  lemma FinishedGainsTaskIff(s: State)
    requires Finished(s.m.status)
    ensures (exists steps, t :: StaysFinished(s, steps, t) && |t.tasks| > |s.tasks|) <==> !NoneStaged(s.indexers)
  {
    if NoneStaged(s.indexers) {
      forall steps, t | StaysFinished(s, steps, t)
        ensures |t.tasks| == |s.tasks|
      {
        FinishedGainsNone(s, steps, t);
      }
    } else {
      var id :| id in s.indexers && s.indexers[id].rows != [];
      var t, steps := Committed(s, id), [CommitRows(id)];
      assert steps[..0] == [] && StaysFinished(s, [], s) && Next(s, CommitRows(id), t);
      assert StaysFinished(s, steps, t);
    }
  }

  // ---- Runs that break one condition each ------------------------------------------------------

  const FRESH := Migration(Indexing, false, 1, 0, false, Totals(0, 0), Counts(0, 0, 0, 0, 0))

  /** Just created, with its indexer launched. */
  const START := State(FRESH, [], 0, map[], map[], 1)

  const WAITING := Task(Pending, false, false, 0)

  ghost predicate Reachable(d: Discipline, s: State) {
    exists from :: Init(from) && Leads(d, from, s)
  }

  lemma Reached(d: Discipline, s: State)
    requires Leads(d, START, s)
    ensures Reachable(d, s)
  {
    assert Init(START);
  }

  lemma LeadsResumed(d: Discipline, from: State, s: State) returns (t: State)
    requires Leads(d, from, s) && s.m.status == Indexing && !s.m.discoveryComplete
    requires d.opens ==> s.tasks != [] || (s.launches == 0 && NoneStaged(s.indexers))
    ensures t == s.(m := s.m.(discoveryGeneration := s.m.discoveryGeneration + 1), launches := s.launches + 1)
    ensures Leads(d, from, t)
  {
    var paused := s.(m := s.m.(status := Paused));
    LeadsNext(d, from, s, UpdateStatus(Paused), paused);
    t := s.(m := s.m.(discoveryGeneration := s.m.discoveryGeneration + 1), launches := s.launches + 1);
    LeadsNext(d, from, paused, Resume, t);
  }

  /** A migration paused and resumed before its goroutine loads the row gets two indexers of one generation. */
  lemma SharedGenerationCompletesWithWork()
    ensures exists s :: Reachable(Discipline(true, false, true), s) && s.m.status == Completed && !AllSettled(s.tasks)
  {
    var d := Discipline(true, false, true);
    LeadsRefl(d, START);
    var resumed := LeadsResumed(d, START, START);
    var t := TwoLaunches(d, START, resumed);
    Reached(d, t);
  }

  /** An indexer has found one task. */
  lemma OneTask(d: Discipline) returns (t: State)
    ensures Leads(d, START, t)
    ensures t == START.(tasks := [WAITING], indexers := map[0 := Indexer(1, [], NotCounted)], launches := 0)
  {
    LeadsRefl(d, START);
    LeadsStart(d, START, START, 0);
    var a := START.(indexers := map[0 := Indexer(1, [], NotCounted)], launches := 0);
    assert a.indexers == START.indexers[0 := Indexer(1, [], NotCounted)];
    LeadsStage(d, START, a, 0, WAITING);
    var b := WithIndexer(a, 0, Indexer(1, [WAITING], NotCounted));
    LeadsCommit(d, START, b, 0);
    t := START.(tasks := [WAITING], indexers := map[0 := Indexer(1, [], NotCounted)], launches := 0);
    assert Committed(b, 0).tasks == [WAITING] && Committed(b, 0).indexers == t.indexers;
  }

  /** Losing the login while the only task is claimed. */
  lemma LeadsLoginLost(d: Discipline, from: State, s: State) returns (t: State)
    requires Leads(d, from, s) && |s.tasks| == 1 && s.tasks[0].status == InProgress && s.m.status == Indexing
    ensures Leads(d, from, t) && t.m.status == Failed && t.m.discoveryComplete == s.m.discoveryComplete
    ensures |t.tasks| == 1 && t.tasks[0].status == Broken
  {
    var tasks := MapRows(s.tasks[0 := s.tasks[0].(status := Broken, retry := false)], WithdrawOpen);
    t := Finish(s.(tasks := tasks, m := s.m.(counts := EndedCounts(s.m.counts, Tally(tasks)))), Failed);
    assert FailAuthenticationStep(s, 0, t);
    LeadsNext(d, from, s, FailAuthentication(0), t);
  }

  lemma LeadsRetried(d: Discipline, from: State, s: State) returns (t: State)
    requires Leads(d, from, s) && |s.tasks| == 1 && s.tasks[0].status == Broken && s.m.status == Failed && !d.retries
    ensures Leads(d, from, t) && t.m.status == Running && t.m.discoveryComplete == s.m.discoveryComplete
  {
    t := s.(tasks := MapRows(s.tasks, RequeueEnded),
            m := s.m.(status := Running, notificationGeneration := s.m.notificationGeneration + 1, retryDone := false,
                      counts := RetriedCounts(s.m.counts, s.tasks)));
    assert RetryFailedStep(s, t);
    LeadsNext(d, from, s, RetryFailed, t);
  }

  /** Failing during discovery and retrying the failed task completes a migration whose discovery never finished. */
  lemma RetryDuringDiscoveryCompletesEarly()
    ensures exists s :: Reachable(Discipline(false, true, true), s) && Finished(s.m.status) && !s.m.discoveryComplete
  {
    var d := Discipline(false, true, true);
    var found := OneTask(d);
    var claimed := found.(tasks := [WAITING.(status := InProgress)]);
    assert found.tasks[0 := WAITING.(status := InProgress)] == claimed.tasks;
    LeadsNext(d, START, found, TaskWork(0, WAITING.(status := InProgress)), claimed);
    var failed := LeadsLoginLost(d, START, claimed);
    var retried := LeadsRetried(d, START, failed);
    var t := LeadsFinish(d, START, retried);
    Reached(d, t);
  }

  /** The current indexer ends discovery, whatever others have staged. */
  lemma LeadsDiscovered(d: Discipline, from: State, s: State, id: IndexerId) returns (t: State)
    requires Leads(d, from, s) && s.tasks != [] && s.m.status == Indexing && id in s.indexers
    requires s.indexers[id] == Indexer(s.m.discoveryGeneration, [], NotCounted)
    ensures Leads(d, from, t) && t.m.status == Running && t.tasks == s.tasks
    ensures forall a :: a in s.indexers && a != id ==> a in t.indexers && t.indexers[a] == s.indexers[a]
  {
    var counted := CountedTasks(|s.tasks|, TotalSize(s.tasks));
    var u := WithIndexer(s, id, s.indexers[id].(counted := counted));
    LeadsNext(d, from, s, CountTasks(id), u);
    t := u.(m := u.m.(status := Running, discoveryComplete := true, retryDone := false));
    LeadsNext(d, from, u, FinishIndexing(id), t);
  }

  /** All tasks are worked off and the migration is finished, whatever is staged. */
  lemma LeadsFinishOver(d: Discipline, from: State, s: State) returns (t: State)
    requires Leads(d, from, s) && s.m.status == Running && !d.finishes
    ensures Leads(d, from, t) && Finished(t.m.status) && t.indexers == s.indexers
  {
    LeadsSettle(d, from, s, |s.tasks|);
    var tasks :| AllSettled(tasks) && Leads(d, from, s.(tasks := tasks));
    var u := s.(tasks := tasks);
    ReconcileFinishes(u);
    t := Reconciled(u);
    LeadsNext(d, from, u, Reconcile, t);
  }

  /** A superseded indexer whose transaction is still open commits its rows into a completed migration. */
  lemma LateCommitAddsWork()
    ensures exists s :: Reachable(Discipline(true, true, false), s) && Finished(s.m.status) && !AllSettled(s.tasks)
  {
    var d := Discipline(true, true, false);
    var found := OneTask(d);
    LeadsStage(d, START, found, 0, WAITING);
    var staged := WithIndexer(found, 0, Indexer(1, [WAITING], NotCounted));
    var resumed := LeadsResumed(d, START, staged);
    LeadsStart(d, START, resumed, 1);
    var restarted := WithIndexer(resumed, 1, Indexer(2, [], NotCounted)).(launches := 0);
    var running := LeadsDiscovered(d, START, restarted, 1);
    var finished := LeadsFinishOver(d, START, running);
    LeadsCommit(d, START, finished, 0);
    var t := Committed(finished, 0);
    assert t.tasks[|finished.tasks|] == WAITING && !Settled(t.tasks[|finished.tasks|]);
    Reached(d, t);
  }

  /** FAILED written over COMPLETED: the event still reports completion. */
  lemma FailedOverCompleted()
    ensures exists s :: Reachable(ORDERLY, s) && s.m.status == Failed && !EventReportsStatus(s)
  {
    LeadsRefl(ORDERLY, START);
    LeadsStart(ORDERLY, START, START, 0);
    var a := WithIndexer(START, 0, Indexer(1, [], NotCounted)).(launches := 0);
    LeadsCountNone(ORDERLY, START, a, 0);
    var b := WithIndexer(a, 0, Indexer(1, [], CountedTasks(0, 0)));
    LeadsDeclareEmpty(ORDERLY, START, b, 0);
    var c := EmptyCompletion(b);
    var t := SetStatus(c, Failed);
    LeadsNext(ORDERLY, START, c, UpdateStatus(Failed), t);
    Reached(ORDERLY, t);
  }
}
