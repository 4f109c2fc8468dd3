/** Budgeted repository checks: how far the bytes read can exceed the budget, over claims, retries and takeovers. */
module VerifyBudget {
  import opened Bytes
  import opened PackFormat

  const CLAIM_MAX := 512 * 1024 * 1024

  /** Budgets are constrained to 64 MiB .. 1 TiB. */
  const MIN_BUDGET := 67108864
  const MAX_BUDGET := 1099511627776

  type WorkerId = nat

  /** A worker that has claimed the check: the total it started from plus what it has read, and what it has read. */
  datatype Worker = Worker(totalRead: nat, claimRead: nat)

  /** The maintenance row and the holder of the job's advisory lock. */
  datatype State = State(budget: nat, processed: nat, running: bool, workers: map<WorkerId, Worker>, locked: bool,
                         holder: WorkerId)

  datatype Step =
    | Claim(w: WorkerId)
    | Recover
    | Acquire(w: WorkerId)
    | ReadPack(w: WorkerId, size: nat)
    | Leave(w: WorkerId)
    | Cancel

  /** The row is pending: the worker reads processed_bytes and leases the row, before it waits for the lock. */
  predicate ClaimStep(s: State, w: WorkerId, t: State) {
    && !s.running && w !in s.workers
    && t == s.(running := true, workers := s.workers[w := Worker(s.processed, 0)])
  }

  /** A missed heartbeat or a retry makes the row claimable again, whether or not its worker still runs. */
  predicate RecoverStep(s: State, t: State) {
    t == s.(running := false)
  }

  predicate AcquireStep(s: State, w: WorkerId, t: State) {
    w in s.workers && !s.locked && t == s.(locked := true, holder := w)
  }

  predicate Holds(s: State, w: WorkerId) {
    s.locked && s.holder == w && w in s.workers
  }

  /** The two tests before a pack is read: the budget, and the limit of one claim. */
  predicate MayRead(worker: Worker, budget: nat, size: nat) {
    worker.totalRead < budget && !(worker.claimRead > 0 && worker.claimRead + size > CLAIM_MAX)
  }

  /** A pack validates; the row's counter only moves while the row is RUNNING. */
  predicate ReadPackStep(s: State, w: WorkerId, size: nat, t: State) {
    && Holds(s, w) && 0 < size <= MAX_PACK_SIZE && MayRead(s.workers[w], s.budget, size)
    && t == s.(processed := s.processed + (if s.running then size else 0),
               workers := s.workers[w := Worker(s.workers[w].totalRead + size, s.workers[w].claimRead + size)])
  }

  /** The worker ends, fails or crashes; its lock goes with its connection. */
  predicate LeaveStep(s: State, w: WorkerId, t: State) {
    && w in s.workers
    && t == s.(workers := s.workers - {w}, locked := s.locked && s.holder != w)
  }

  predicate Next(s: State, step: Step, t: State) {
    match step
    case Claim(w) => ClaimStep(s, w, t)
    case Recover => RecoverStep(s, t)
    case Acquire(w) => AcquireStep(s, w, t)
    case ReadPack(w, size) => ReadPackStep(s, w, size, t)
    case Leave(w) => LeaveStep(s, w, t)
    case Cancel => t == s.(running := false)
  }

  predicate Init(s: State) {
    MIN_BUDGET <= s.budget <= MAX_BUDGET && s.processed == 0 && !s.running && s.workers == map[] && !s.locked
  }

  ghost predicate IsRun(states: seq<State>, steps: seq<Step>) {
    && |states| == |steps| + 1 && Init(states[0])
    && forall i :: 0 <= i < |steps| ==> Next(states[i], steps[i], states[i + 1])
  }

  // ---- The bounds ------------------------------------------------------------------------------

  predicate Bounded(s: State) {
    s.processed < s.budget + MAX_PACK_SIZE
  }

  /** No claim reads more than 512 MiB of validated packs, whatever else happens. */
  predicate ClaimsBounded(s: State) {
    forall w :: w in s.workers ==> s.workers[w].claimRead <= CLAIM_MAX
  }

  /** Only the holder has read anything, and none has read more than a claim allows. */
  predicate WellHeld(s: State) {
    && ClaimsBounded(s) && (s.locked ==> s.holder in s.workers)
    && forall w :: w in s.workers && s.workers[w].claimRead > 0 ==> Holds(s, w)
  }

  /**
    A worker whose total is behind the row's, with budget left by its own count, and enough of its claim left to read
    past the bound.
   */
  predicate Breakable(s: State, w: WorkerId) {
    && w in s.workers && s.workers[w].totalRead < s.budget && s.workers[w].totalRead < s.processed
    && s.processed + CLAIM_MAX >= s.budget + MAX_PACK_SIZE
  }

  /** The holder counts the row's bytes as well, or has no budget left, or not enough of its claim. */
  predicate HolderSafe(s: State, w: WorkerId)
    requires w in s.workers
  {
    var worker := s.workers[w];
    || s.processed <= worker.totalRead || worker.totalRead >= s.budget
    || s.processed + CLAIM_MAX < s.budget + MAX_PACK_SIZE + worker.claimRead
  }

  predicate Guarded(s: State) {
    WellHeld(s) && Bounded(s) && (s.locked ==> HolderSafe(s, s.holder))
  }

  lemma ReadKeepsHeld(s: State, w: WorkerId, size: nat, t: State)
    requires WellHeld(s) && ReadPackStep(s, w, size, t)
    ensures WellHeld(t)
  {
    assert forall v :: v in t.workers && v != w ==> v in s.workers && t.workers[v] == s.workers[v];
  }

  lemma LeaveKeepsHeld(s: State, w: WorkerId, t: State)
    requires WellHeld(s) && LeaveStep(s, w, t)
    ensures WellHeld(t)
  {
    assert forall v :: v in t.workers ==> v in s.workers && t.workers[v] == s.workers[v];
  }

  lemma StepKeepsHeld(s: State, step: Step, t: State)
    requires WellHeld(s) && Next(s, step, t)
    ensures WellHeld(t) && t.budget == s.budget
  {
    match step
    case ReadPack(w, size) => ReadKeepsHeld(s, w, size, t);
    case Leave(w) => LeaveKeepsHeld(s, w, t);
    case _ =>
  }

  lemma StepKeepsGuarded(s: State, step: Step, t: State)
    requires Guarded(s) && Next(s, step, t)
    requires step.Acquire? ==> !Breakable(s, step.w)
    ensures Guarded(t) && t.budget == s.budget
  {
    StepKeepsHeld(s, step, t);
    if step.Acquire? {
      assert s.workers[step.w].claimRead == 0;
    }
  }

  /** No worker gets the lock in a state in which its claim can break the bound. */
  ghost predicate HarmlessRun(states: seq<State>, steps: seq<Step>) {
    && IsRun(states, steps)
    && forall i :: 0 <= i < |steps| && steps[i].Acquire? ==> !Breakable(states[i], steps[i].w)
  }

  /** processed_bytes stays below the budget plus one pack, over any number of claims and retries. */
  lemma {:induction false} BudgetHolds(states: seq<State>, steps: seq<Step>, i: nat)
    requires HarmlessRun(states, steps) && i < |states|
    ensures Guarded(states[i]) && states[i].budget == states[0].budget
  {
    if i > 0 {
      BudgetHolds(states, steps, i - 1);
      StepKeepsGuarded(states[i - 1], steps[i - 1], states[i]);
    }
  }

  // ---- What one claim can do -------------------------------------------------------------------

  /** The steps lead from s to t while w keeps the lock. */
  ghost predicate HeldTo(s: State, w: WorkerId, steps: seq<Step>, t: State)
    decreases |steps|
  {
    if steps == [] then s == t
    else
      var before, step := steps[..|steps| - 1], steps[|steps| - 1];
      Holds(t, w) && exists m :: HeldTo(s, w, before, m) && Next(m, step, t)
  }

  ghost predicate CanReach(s: State, w: WorkerId, t: State) {
    exists steps :: HeldTo(s, w, steps, t)
  }

  lemma CanReachNext(s: State, w: WorkerId, m: State, step: Step, t: State)
    requires CanReach(s, w, m) && Next(m, step, t) && Holds(t, w)
    ensures CanReach(s, w, t)
  {
    var steps :| HeldTo(s, w, steps, m);
    var more := steps + [step];
    assert more[..|more| - 1] == steps;
    assert HeldTo(s, w, more, t);
  }

  lemma {:induction false} HeldStays(s: State, w: WorkerId, steps: seq<Step>, t: State)
    requires Guarded(s) && Holds(s, w) && HeldTo(s, w, steps, t)
    ensures Guarded(t) && Holds(t, w)
    decreases |steps|
  {
    if steps != [] {
      var last := |steps| - 1;
      var m :| HeldTo(s, w, steps[..last], m) && Next(m, steps[last], t);
      HeldStays(s, w, steps[..last], m);
      StepKeepsGuarded(m, steps[last], t);
    }
  }

  /** The row can be claimed again while w holds the lock, so it is RUNNING. */
  lemma GetRunning(s: State, w: WorkerId) returns (t: State)
    requires Holds(s, w)
    ensures CanReach(s, w, t) && Holds(t, w) && t.running && t.budget == s.budget && t.processed == s.processed
    ensures t.workers[w] == s.workers[w]
  {
    assert HeldTo(s, w, [], s);
    if s.running {
      t := s;
    } else {
      var v := Above(s.workers.Keys);
      t := s.(running := true, workers := s.workers[v := Worker(s.processed, 0)]);
      CanReachNext(s, w, s, Claim(v), t);
    }
  }

  function AfterRead(s: State, w: WorkerId, amount: nat): State
    requires w in s.workers
  {
    var worker := s.workers[w];
    s.(processed := s.processed + amount,
       workers := s.workers[w := Worker(worker.totalRead + amount, worker.claimRead + amount)])
  }

  /** Any amount below budget and claim can be read, in packs. */
  lemma {:induction false} ReadMany(start: State, s: State, w: WorkerId, amount: nat)
    requires CanReach(start, w, s) && Holds(s, w) && s.running
    requires s.workers[w].totalRead + amount < s.budget && s.workers[w].claimRead + amount <= CLAIM_MAX
    ensures CanReach(start, w, AfterRead(s, w, amount))
    decreases amount
  {
    if amount == 0 {
      assert AfterRead(s, w, 0) == s;
    } else {
      var size := if amount <= MAX_PACK_SIZE then amount else MAX_PACK_SIZE;
      var t := AfterRead(s, w, size);
      CanReachNext(start, w, s, ReadPack(w, size), t);
      ReadMany(start, t, w, amount - size);
      assert AfterRead(t, w, amount - size) == AfterRead(s, w, amount);
    }
  }

  /** The reads that break the bound. */
  lemma ReadPast(start: State, s: State, w: WorkerId) returns (t: State)
    requires CanReach(start, w, s) && Holds(s, w) && s.running && s.workers[w].claimRead == 0
    requires Bounded(s) && Breakable(s, w)
    ensures CanReach(start, w, t) && !Bounded(t)
  {
    var first := if s.processed <= s.budget then s.budget - s.processed else 0;
    ReadMany(start, s, w, first);
    var u := AfterRead(s, w, first);
    var size := u.budget + MAX_PACK_SIZE - u.processed;
    t := AfterRead(u, w, size);
    CanReachNext(start, w, u, ReadPack(w, size), t);
  }

  /**
    A worker that gets the lock can carry the row past the bound before it gives the lock up if and only if its total
    is behind, it has budget left by its own count, and the row is within one claim of the bound.
   */
  lemma AcquireBreaksIff(s: State, w: WorkerId, t: State)
    requires WellHeld(s) && Bounded(s) && AcquireStep(s, w, t)
    ensures (exists u :: CanReach(t, w, u) && !Bounded(u)) <==> Breakable(s, w)
  {
    assert s.workers[w].claimRead == 0;
    if Breakable(s, w) {
      var m := GetRunning(t, w);
      var u := ReadPast(t, m, w);
    } else {
      forall u | CanReach(t, w, u)
        ensures Bounded(u)
      {
        var steps :| HeldTo(t, w, steps, u);
        StepKeepsGuardedAcquire(s, w, t);
        HeldStays(t, w, steps, u);
      }
    }
  }

  lemma StepKeepsGuardedAcquire(s: State, w: WorkerId, t: State)
    requires WellHeld(s) && Bounded(s) && AcquireStep(s, w, t) && !Breakable(s, w)
    ensures Guarded(t) && Holds(t, w)
  {
    StepKeepsHeld(s, Acquire(w), t);
    assert s.workers[w].claimRead == 0;
  }

  /** One claim never reads more than 512 MiB, and only the holder of the lock reads, in every run. */
  lemma {:induction false} ClaimHolds(states: seq<State>, steps: seq<Step>, i: nat)
    requires IsRun(states, steps) && i < |states|
    ensures WellHeld(states[i])
  {
    if i > 0 {
      ClaimHolds(states, steps, i - 1);
      StepKeepsHeld(states[i - 1], steps[i - 1], states[i]);
    }
  }

  ghost predicate Reachable(s: State) {
    exists states, steps :: IsRun(states, steps) && states[|steps|] == s
  }

  lemma ReachNext(s: State, step: Step, t: State)
    requires Reachable(s) && Next(s, step, t)
    ensures Reachable(t)
  {
    var states, steps :| IsRun(states, steps) && states[|steps|] == s;
    assert IsRun(states + [t], steps + [step]);
  }

  /** One worker holds the lock; the check is taken over by a second one, which reads the total and waits. */
  lemma TakenOver(s: State) returns (t: State)
    requires Init(s)
    ensures Reachable(t) && t == State(s.budget, 0, true, map[1 := Worker(0, 0), 2 := Worker(0, 0)], true, 1)
  {
    assert IsRun([s], []);
    var one := map[1 := Worker(0, 0)];
    var a := State(s.budget, 0, true, one, false, s.holder);
    ReachNext(s, Claim(1), a);
    var b := State(s.budget, 0, true, one, true, 1);
    ReachNext(a, Acquire(1), b);
    var c := State(s.budget, 0, false, one, true, 1);
    ReachNext(b, Recover, c);
    t := State(s.budget, 0, true, map[1 := Worker(0, 0), 2 := Worker(0, 0)], true, 1);
    assert t.workers == one[2 := Worker(0, 0)];
    ReachNext(c, Claim(2), t);
  }

  /** Each of the two reads one pack. */
  lemma BothRead(s: State, size: nat) returns (t: State)
    requires Reachable(s) && s == State(s.budget, 0, true, map[1 := Worker(0, 0), 2 := Worker(0, 0)], true, 1)
    requires s.budget > 0 && 0 < size <= MAX_PACK_SIZE
    ensures Reachable(t) && t.budget == s.budget && t.processed == size + size
  {
    var a := s.(processed := size, workers := s.workers[1 := Worker(size, size)]);
    ReachNext(s, ReadPack(1, size), a);
    var b := a.(workers := a.workers - {1}, locked := false);
    ReachNext(a, Leave(1), b);
    var c := b.(locked := true, holder := 2);
    ReachNext(b, Acquire(2), c);
    t := c.(processed := size + size, workers := c.workers[2 := Worker(size, size)]);
    ReachNext(c, ReadPack(2, size), t);
  }

  /**
    A worker that took the check over while the first one was still reading starts from a stale total and exceeds
    the bound: two full packs under a budget of one.
   */
  lemma StaleTotalExceedsBudget()
    ensures exists s :: Reachable(s) && !Bounded(s)
  {
    var waiting := TakenOver(State(MIN_BUDGET, 0, false, map[], false, 0));
    var t := BothRead(waiting, MAX_PACK_SIZE);
  }

  // ---- One claim -------------------------------------------------------------------------------

  datatype Mode = Metadata | Full | Budgeted(budget: nat)

  /** What reading the pack would give. */
  datatype Content = Valid | Invalid | Unreadable

  /** A pack to check: its recorded size, what the store says about it, and its content. */
  datatype Target = Target(size: nat, present: bool, storedSize: nat, content: Content)

  datatype Verdict = Sound | Missing | DamagedPack

  datatype Outcome = AllChecked | MoreWork | Interrupted

  /** Whether the packs before have left room to read this one; the mode decides whether packs are read at all. */
  predicate Reads(mode: Mode, totalRead: nat) {
    mode == Full || (mode.Budgeted? && totalRead < mode.budget)
  }

  /** A verdict from the listing alone, or with the content as well. */
  predicate Judged(t: Target, v: Verdict, read: bool) {
    if !t.present then v == Missing
    else if t.storedSize != t.size then v == DamagedPack
    else if read && t.content == Invalid then v == DamagedPack
    else v == Sound && (read ==> t.content == Valid)
  }

  predicate Intact(t: Target) {
    t.present && t.storedSize == t.size
  }

  /** The total after the first n targets: packs that match the listing are read while the mode allows it. */
  function TotalAfter(mode: Mode, start: nat, targets: seq<Target>, n: nat): nat
    requires n <= |targets|
  {
    if n == 0 then start
    else
      var before, t := TotalAfter(mode, start, targets, n - 1), targets[n - 1];
      if Intact(t) && Reads(mode, before) && t.content == Valid then before + t.size else before
  }

  /** Every verdict rests on the content exactly if the total before it left room to read. */
  ghost predicate AllJudged(mode: Mode, start: nat, targets: seq<Target>, verdicts: seq<Verdict>)
    requires |verdicts| <= |targets|
  {
    forall i :: 0 <= i < |verdicts| ==> JudgedAt(mode, start, targets, i, verdicts[i])
  }

  predicate JudgedAt(mode: Mode, start: nat, targets: seq<Target>, i: nat, v: Verdict)
    requires i < |targets|
  {
    Judged(targets[i], v, Reads(mode, TotalAfter(mode, start, targets, i)))
  }

  lemma JudgeNext(mode: Mode, start: nat, targets: seq<Target>, verdicts: seq<Verdict>, v: Verdict)
    requires |verdicts| < |targets| && AllJudged(mode, start, targets, verdicts)
    requires JudgedAt(mode, start, targets, |verdicts|, v)
    ensures AllJudged(mode, start, targets, verdicts + [v])
  {
    var more := verdicts + [v];
    assert forall i :: 0 <= i < |verdicts| ==> more[i] == verdicts[i];
  }

  datatype Checked = Done(verdict: Verdict, bytes: nat) | Stopped(outcome: Outcome)

  /** One target, after `read` bytes of this claim; the deadline and cancellation may end the claim here. */
  method CheckTarget(mode: Mode, totalRead: nat, read: nat, t: Target) returns (c: Checked)
    requires 0 < t.size <= MAX_PACK_SIZE && read <= CLAIM_MAX
    ensures c.Done? ==> Judged(t, c.verdict, Reads(mode, totalRead)) && read + c.bytes <= CLAIM_MAX
    ensures c.Done? ==> c.bytes == if Intact(t) && Reads(mode, totalRead) && t.content == Valid then t.size else 0
    ensures c.Stopped? ==> c.outcome != AllChecked
    ensures c == Stopped(Interrupted) ==> t.content == Unreadable && Reads(mode, totalRead)
  {
    if * {
      return Stopped(MoreWork);
    }
    if !t.present || t.storedSize != t.size {
      return Done(if t.present then DamagedPack else Missing, 0);
    }
    if !Reads(mode, totalRead) {
      return Done(Sound, 0);
    }
    if read > 0 && read + t.size > CLAIM_MAX {
      return Stopped(MoreWork);
    }
    match t.content
    case Unreadable => c := Stopped(Interrupted);
    case Invalid => c := Done(DamagedPack, 0);
    case Valid => c := Done(Sound, t.size);
  }

  /**
    verifyRepositoryMetadata over the targets one claim gets. `start` is the total read under earlier claims.
   */
  method CheckTargets(mode: Mode, start: nat, targets: seq<Target>)
    returns (outcome: Outcome, read: nat, verdicts: seq<Verdict>)
    requires forall i :: 0 <= i < |targets| ==> 0 < targets[i].size <= MAX_PACK_SIZE
    ensures |verdicts| <= |targets| && (outcome == AllChecked <==> |verdicts| == |targets|)
    ensures AllJudged(mode, start, targets, verdicts)
    ensures start + read == TotalAfter(mode, start, targets, |verdicts|)
    ensures read <= CLAIM_MAX && (mode == Metadata ==> read == 0)
    ensures mode.Budgeted? && read > 0 ==> start + read < mode.budget + MAX_PACK_SIZE
    ensures outcome == Interrupted ==>
      |verdicts| < |targets| && targets[|verdicts|].content == Unreadable && Reads(mode, start + read)
  {
    read, verdicts := 0, [];
    var i := 0;
    while i < |targets|
      invariant i == |verdicts| <= |targets| && read <= CLAIM_MAX
      invariant start + read == TotalAfter(mode, start, targets, i) && AllJudged(mode, start, targets, verdicts)
      invariant mode == Metadata ==> read == 0
      invariant mode.Budgeted? && read > 0 ==> start + read < mode.budget + MAX_PACK_SIZE
    {
      var c := CheckTarget(mode, start + read, read, targets[i]);
      if c.Stopped? {
        return c.outcome, read, verdicts;
      }
      JudgeNext(mode, start, targets, verdicts, c.verdict);
      read, verdicts := read + c.bytes, verdicts + [c.verdict];
      i := i + 1;
    }
    outcome := AllChecked;
  }
}
