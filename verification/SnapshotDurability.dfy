/**
  When the packs behind a visible snapshot stay in the store: whenever every backup starts with all READY packs in
  the store. Only a maintenance pass that dies between deleting a READY pack's object and marking its row leaves a
  state in which a start is not safe.
 */
module SnapshotDurability {
  import opened Bytes
  import opened PackFormat
  import opened Repository
  import opened RepositorySafety
  import opened SnapshotTheorems

  /** Every READY pack has its object. */
  ghost predicate Intact(packs: Packs, objects: map<Digest, Bytes>) {
    forall p :: p in packs && packs[p].state == Ready ==> packs[p].sha in objects
  }

  /** The packs of every visible snapshot are in the store. */
  ghost predicate Present(links: Links, snaps: Snaps, blocks: Blocks, packs: Packs, objects: map<Digest, Bytes>) {
    forall k :: k in links && Visible(snaps, k.item.snap) && links[k] in blocks && blocks[links[k]].pack in packs
                ==> packs[blocks[links[k]].pack].sha in objects
  }

  ghost predicate Safe(s: State) {
    && Present(s.links, s.snaps, s.blocks, s.packs, s.objects)
    && (s.actor.Worker? ==> Intact(s.packs, s.objects))
  }

  lemma MovePresent(s: State, p: PackId, row: PackRow, blocks': Blocks)
    requires Inv(s) && Present(s.links, s.snaps, s.blocks, s.packs, s.objects)
    requires Moved(s.blocks, s.packs, p, blocks') && p !in s.packs && row.sha in s.objects
    ensures Present(s.links, s.snaps, blocks', s.packs[p := row], s.objects)
  {
  }

  /** Present and Intact only look at digests, so changing a pack's state to something else than READY keeps both. */
  lemma RetirePresent(s: State, p: PackId, state: PackState)
    requires p in s.packs && state != Ready
    ensures var packs := s.packs[p := s.packs[p].(state := state)];
            && (Present(s.links, s.snaps, s.blocks, s.packs, s.objects) ==>
                  Present(s.links, s.snaps, s.blocks, packs, s.objects))
            && (Intact(s.packs, s.objects) ==> Intact(packs, s.objects))
  {
  }

  lemma PurgePresent(s: State, p: PackId)
    requires Present(s.links, s.snaps, s.blocks, s.packs, s.objects)
    ensures Present(Purge(s, p).links, s.snaps, Purge(s, p).blocks, s.packs, s.objects)
  {
  }

  lemma HidePresent(s: State, snaps: Snaps)
    requires Present(s.links, s.snaps, s.blocks, s.packs, s.objects) && Hidden(s.snaps, snaps)
    ensures Present(s.links, snaps, s.blocks, s.packs, s.objects)
  {
    HideFewer(s.snaps, snaps);
  }

  lemma RecordSafe(s: State, p: PackId, sha: Digest, entries: seq<Entry>, ids: seq<BlockId>, t: State)
    requires Inv(s) && Safe(s) && RecordStep(s, p, sha, entries, ids, t)
    ensures Safe(t)
  {
    InsertRows(s, p, sha, entries, ids);
    MovePresent(s, p, t.packs[p], t.blocks);
  }

  lemma PublishSafe(s: State, partial: bool, order: seq<PackId>, start: nat, t: State)
    requires Inv(s) && Safe(s) && PublishStep(s, partial, order, start, t)
    ensures Safe(t)
  {
  }

  lemma DeleteObjectSafe(s: State, p: PackId, t: State)
    requires Inv(s) && Safe(s) && DeleteObjectStep(s, p, t)
    ensures Safe(t)
  {
  }

  lemma MarkDeletedSafe(s: State, p: PackId, t: State)
    requires Inv(s) && Safe(s) && MarkDeletedStep(s, p, t)
    ensures Safe(t)
  {
    PurgePresent(s, p);
    RetirePresent(Purge(s, p), p, Deleted);
  }

  lemma SwitchSafe(s: State, source: PackId, p: PackId, sha: Digest, entries: seq<Entry>, ids: seq<BlockId>, t: State)
    requires Inv(s) && Safe(s) && SwitchStep(s, source, p, sha, entries, ids, t)
    ensures Safe(t)
  {
    MoveRows(s, p, sha, entries, ids);
    var u := RecordPack(s, p, sha, entries, ids);
    MovePresent(s, p, u.packs[p], u.blocks);
    PurgePresent(u, source);
    RetirePresent(Purge(u, source), source, DeletePending);
  }

  lemma MarkDamagedSafe(s: State, p: PackId, t: State)
    requires Inv(s) && Safe(s) && MarkDamagedStep(s, p, t)
    ensures Safe(t)
  {
    DamageHides(s.(actor := t.actor), p);
    HidePresent(s, t.snaps);
    RetirePresent(s.(snaps := t.snaps), p, Damaged);
  }

  lemma WriteItemSafe(s: State, path: Path, refs: seq<BlockId>, sha: Digest, size: nat, t: State)
    requires Inv(s) && Safe(s) && WriteItemStep(s, path, refs, sha, size, t)
    ensures Safe(t)
  {
  }

  lemma CreateDraftSafe(s: State, n: SnapId, created: nat, t: State)
    requires Inv(s) && Safe(s) && CreateDraftStep(s, n, created, t)
    ensures Safe(t)
  {
  }

  lemma DropDraftSafe(s: State, n: SnapId, t: State)
    requires Inv(s) && Safe(s) && DropDraftStep(s, n, t)
    ensures Safe(t)
  {
  }

  lemma ExpireSafe(s: State, keep: nat, t: State)
    requires Inv(s) && Safe(s) && ExpireStep(s, keep, t)
    ensures Safe(t)
  {
    HidePresent(s, t.snaps);
  }

  lemma RequestDeletionSafe(s: State)
    requires Inv(s) && Safe(s)
    ensures Safe(RequestRepositoryDeletion(s))
  {
    HidePresent(s, RequestRepositoryDeletion(s).snaps);
  }

  lemma ObjectAdded(s: State, id: Digest, bytes: Bytes)
    requires Safe(s)
    ensures Safe(s.(objects := s.objects[id := bytes]))
  {
  }

  lemma WorkerStepSafe(s: State, step: Step, t: State)
    requires Inv(s) && Safe(s) && Next(s, step, t) && WorkerStep(step)
    ensures Safe(t)
  {
    if step.Record? {
      RecordSafe(s, step.pack, step.sha, step.entries, step.ids, t);
    } else if step.CreateDraft? {
      CreateDraftSafe(s, step.snap, step.created, t);
    } else if step.WriteItem? {
      WriteItemSafe(s, step.path, step.refs, step.sha, step.size, t);
    } else if step.Publish? {
      PublishSafe(s, step.partial, step.order, step.start, t);
    }
  }

  lemma MaintenanceStepSafe(s: State, step: Step, t: State)
    requires Inv(s) && Safe(s) && Next(s, step, t) && MaintenanceStep(step)
    ensures Safe(t)
  {
    if step.Expire? {
      ExpireSafe(s, step.keep, t);
    } else if step.DeleteObject? {
      DeleteObjectSafe(s, step.pack, t);
    } else if step.MarkDeleted? {
      MarkDeletedSafe(s, step.pack, t);
    } else if step.SwitchLocators? {
      SwitchSafe(s, step.source, step.pack, step.sha, step.entries, step.ids, t);
    }
  }

  /** Starting a backup is the only step that needs care: it must find no READY row without its object. */
  lemma StepKeepsSafe(s: State, step: Step, t: State)
    requires Inv(s) && Safe(s) && Next(s, step, t)
    requires step.StartWorker? ==> Intact(s.packs, s.objects)
    ensures Safe(t)
  {
    if WorkerStep(step) {
      WorkerStepSafe(s, step, t);
    } else if MaintenanceStep(step) {
      MaintenanceStepSafe(s, step, t);
    } else if step.Upload? {
      ObjectAdded(s, Sha256(step.bytes), step.bytes);
    } else if step.PartialUpload? {
      ObjectAdded(s, step.id, step.bytes);
    } else if step.DropDraft? {
      DropDraftSafe(s, step.snap, t);
    } else if step.MarkDamaged? {
      MarkDamagedSafe(s, step.pack, t);
    } else if step.RequestDeletion? {
      RequestDeletionSafe(s);
    }
  }

  // ---- The condition on runs -------------------------------------------------------------------

  /** Every backup starts with all READY packs in the store. */
  ghost predicate IntactStarts(states: seq<State>, steps: seq<Step>)
    requires |states| == |steps| + 1
  {
    forall i :: 0 <= i < |steps| && steps[i].StartWorker? ==> Intact(states[i].packs, states[i].objects)
  }

  lemma {:induction false} RunSafe(states: seq<State>, steps: seq<Step>, i: nat)
    requires CollisionFree() && IsRun(states, steps) && IntactStarts(states, steps) && i < |states|
    ensures Inv(states[i]) && Safe(states[i])
  {
    if i == 0 {
      InitInv(states[0]);
    } else {
      RunSafe(states, steps, i - 1);
      SafeStep(states[i - 1], steps[i - 1], states[i]);
    }
  }

  lemma SafeStep(s: State, step: Step, t: State)
    requires CollisionFree() && Inv(s) && Safe(s) && Next(s, step, t)
    requires step.StartWorker? ==> Intact(s.packs, s.objects)
    ensures Inv(t) && Safe(t)
  {
    StepKeepsInv(s, step, t);
    StepKeepsSafe(s, step, t);
  }

  // ---- The crash window ------------------------------------------------------------------------

  /** Outside maintenance no READY row lacks its object. */
  ghost predicate Settled(s: State) {
    s.actor.Maintenance? || Intact(s.packs, s.objects)
  }

  lemma RecordSettled(s: State, p: PackId, sha: Digest, entries: seq<Entry>, ids: seq<BlockId>, t: State)
    requires Settled(s) && RecordStep(s, p, sha, entries, ids, t)
    ensures Settled(t)
  {
  }

  lemma MarkDamagedSettled(s: State, p: PackId, t: State)
    requires Settled(s) && MarkDamagedStep(s, p, t)
    ensures Settled(t)
  {
    RetirePresent(s, p, Damaged);
  }

  /** Only a maintenance pass that stops between the two halves of a deletion unsettles the repository. */
  lemma StepKeepsSettled(s: State, step: Step, t: State)
    requires Settled(s) && Next(s, step, t)
    requires step.Stop? ==> Intact(s.packs, s.objects)
    ensures Settled(t)
  {
    if step.Record? {
      RecordSettled(s, step.pack, step.sha, step.entries, step.ids, t);
    } else if step.MarkDamaged? {
      MarkDamagedSettled(s, step.pack, t);
    }
  }

  /** No holder of the lock stops while a READY pack lacks its object: the window between delete and mark. */
  ghost predicate NoCrashInWindow(states: seq<State>, steps: seq<Step>)
    requires |states| == |steps| + 1
  {
    forall i :: 0 <= i < |steps| && steps[i].Stop? ==> Intact(states[i].packs, states[i].objects)
  }

  ghost predicate StaysSettled(states: seq<State>) {
    forall i :: 0 <= i < |states| - 1 && Settled(states[i]) ==> Settled(states[i + 1])
  }

  lemma RunStaysSettled(states: seq<State>, steps: seq<Step>)
    requires IsRun(states, steps) && NoCrashInWindow(states, steps)
    ensures StaysSettled(states)
  {
    forall i | 0 <= i < |states| - 1 && Settled(states[i])
      ensures Settled(states[i + 1])
    {
      StepKeepsSettled(states[i], steps[i], states[i + 1]);
    }
  }

  lemma {:induction false} SettledAlong(states: seq<State>, i: nat)
    requires StaysSettled(states) && i < |states| && Settled(states[0])
    ensures Settled(states[i])
  {
    if i > 0 {
      SettledAlong(states, i - 1);
    }
  }

  lemma StartsSettled(s: State, step: Step, t: State)
    requires Settled(s) && Next(s, step, t)
    ensures step.StartWorker? ==> Intact(s.packs, s.objects)
  {
  }

  /** A crash in the window is the only way to a start that is not intact. */
  lemma NoCrashIntactStarts(states: seq<State>, steps: seq<Step>)
    requires IsRun(states, steps) && NoCrashInWindow(states, steps)
    ensures IntactStarts(states, steps)
  {
    RunStaysSettled(states, steps);
    forall i | 0 <= i < |steps| && steps[i].StartWorker?
      ensures Intact(states[i].packs, states[i].objects)
    {
      SettledAlong(states, i);
      StartsSettled(states[i], steps[i], states[i + 1]);
    }
  }

  // ---- What the sample catches -----------------------------------------------------------------

  function TotalSize(packs: Packs, order: seq<PackId>): nat
    requires forall p :: p in order ==> p in packs
  {
    if order == [] then 0 else packs[order[0]].size + TotalSize(packs, order[1..])
  }

  lemma {:induction false} TotalSizeAppend(packs: Packs, a: seq<PackId>, b: seq<PackId>)
    requires forall p :: p in a + b ==> p in packs
    ensures (forall p :: p in a ==> p in packs) && (forall p :: p in b ==> p in packs)
    ensures TotalSize(packs, a + b) == TotalSize(packs, a) + TotalSize(packs, b)
  {
    assert forall p :: p in a ==> p in a + b;
    assert forall p :: p in b ==> p in a + b;
    if a == [] {
      assert a + b == b;
    } else {
      assert (a + b)[1..] == a[1..] + b;
      assert forall p :: p in (a + b)[1..] ==> p in a + b;
      TotalSizeAppend(packs, a[1..], b);
    }
  }

  /** If everything fits the budget, nothing is skipped. */
  lemma {:induction false} SampleAll(packs: Packs, objects: map<Digest, Bytes>, order: seq<PackId>, remaining: nat,
                                     p: PackId)
    requires (forall q :: q in order ==> q in packs) && TotalSize(packs, order) <= remaining
    requires SamplePasses(packs, objects, order, remaining) && p in order
    ensures SoundPack(packs, objects, p)
    decreases |order|
  {
    var first := order[0];
    if p != first {
      assert p in order[1..];
      assert order[1..] != [];
      assert TotalSize(packs, order[1..]) > 0;
      SampleAll(packs, objects, order[1..], remaining - packs[first].size, p);
    }
  }

  /**
    A draft whose packs fit the sample budget together is published only with all its packs in the store and
    valid, whatever crashed before. One pack always fits.
   */
  lemma SmallDraftIsSound(s: State, partial: bool, order: seq<PackId>, start: nat, t: State, k: Link)
    requires PublishStep(s, partial, order, start, t) && BlocksHavePacks(s.blocks, s.packs)
    requires k in s.links && k.item.snap == s.actor.draft.snap && s.links[k] in s.blocks
    requires (forall p :: p in order ==> p in s.packs) && TotalSize(s.packs, order) <= SAMPLE_BUDGET
    ensures SoundPack(s.packs, s.objects, s.blocks[s.links[k]].pack)
  {
    var p := s.blocks[s.links[k]].pack;
    assert p in UsedPacks(s.links, s.blocks, s.actor.draft.snap);
    assert order == order[..start] + order[start..];
    var rotated := Rotated(order, start);
    TotalSizeAppend(s.packs, order[..start], order[start..]);
    assert forall q :: q in rotated ==> q in order;
    TotalSizeAppend(s.packs, order[start..], order[..start]);
    assert p in order;
    assert p in rotated by {
      if p in order[start..] {
        assert p in rotated;
      } else {
        assert p in order[..start];
      }
    }
    SampleAll(s.packs, s.objects, rotated, SAMPLE_BUDGET, p);
  }

  lemma SafeItemPresent(s: State, item: ItemKey)
    requires Safe(s) && Visible(s.snaps, item.snap)
    ensures PacksPresent(s, item)
  {
  }

  /**
    The central guarantee. In every state of every run in which backups start with all READY packs in the store,
    whatever backups, publications, expiries, reclamations, compactions, damage reports and deletion requests came
    before: each item of a READY or PARTIAL snapshot can be restored, block for block, to what was streamed.
   */
  lemma VisibleSnapshotsRestore(states: seq<State>, steps: seq<Step>, i: nat, item: ItemKey, recipes: seq<Recipe>)
    requires CollisionFree() && IsRun(states, steps) && IntactStarts(states, steps) && i < |states|
    requires item in states[i].items && Visible(states[i].snaps, item.snap) && PlannedFrom(states[i], item, recipes)
    ensures |recipes| == |states[i].items[item].parts|
    ensures forall j :: 0 <= j < |recipes| ==> Delivers(states[i].objects, recipes[j], states[i].items[item].parts[j])
    ensures states[i].items[item].sha == Sha256(Concat(states[i].items[item].parts))
  {
    RunSafe(states, steps, i);
    SafeItemPresent(states[i], item);
    VisibleItemDelivers(states[i], item, recipes);
    assert Hashed(states[i].items);
  }

  /**
    Restoring an item of a visible snapshot returns its backed-up bytes exactly when the stream had the length
    that was listed for the file; a stream of another length was published all the same and is refused.
   */
  method RestoreItem(s: State, item: ItemKey, recipes: seq<Recipe>) returns (r: RestoreResult)
    requires Inv(s) && Safe(s) && CollisionFree()
    requires item in s.items && Visible(s.snaps, item.snap) && PlannedFrom(s, item, recipes)
    ensures var row := s.items[item];
            r == if |Concat(row.parts)| == row.size then Restored(Concat(row.parts)) else SizeMismatch
  {
    SafeItemPresent(s, item);
    VisibleItemDelivers(s, item, recipes);
    assert Hashed(s.items);
    r := Reconstruct(s.objects, recipes, s.items[item].size, s.items[item].sha, s.items[item].parts);
  }

  // ---- Finishing what was interrupted ----------------------------------------------------------

  /** The source pack of an interrupted compaction stays reclaimable, in every state. */
  lemma DeletePendingReclaimable(s: State, p: PackId)
    requires Inv(s) && HasState(s.packs, p, DeletePending)
    ensures Reclaimable(s, p)
  {
    assert Unreferenced(s.links, s.snaps, s.blocks, p);
  }

  /** So does a READY pack whose object is gone, as long as no visible snapshot needed it. */
  lemma HalfDeletedReclaimable(s: State, p: PackId)
    requires Inv(s) && Safe(s) && HasState(s.packs, p, Ready) && s.packs[p].sha !in s.objects
    ensures Reclaimable(s, p)
  {
    assert Unreferenced(s.links, s.snaps, s.blocks, p);
  }

  ghost function HalfDeleted(s: State): set<PackId> {
    set p | p in s.packs && s.packs[p].state == Ready && s.packs[p].sha !in s.objects
  }

  /** A retention pass that reclaims a half-deleted pack closes its window and opens no other. */
  lemma ReclaimCloses(s: State, p: PackId, a: State, b: State, t: State)
    requires Inv(s) && Safe(s) && p in HalfDeleted(s)
    requires CondemnStep(s, p, a) && DeleteObjectStep(a, p, b) && MarkDeletedStep(b, p, t)
    ensures HalfDeleted(t) == HalfDeleted(s) - {p}
  {
    assert b.objects == s.objects;
  }
}
