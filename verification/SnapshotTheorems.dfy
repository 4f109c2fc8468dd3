/** Theorems over whole runs of the repository: what a visible snapshot restores to. */
module SnapshotTheorems {
  import opened Bytes
  import opened Repository
  import opened RepositorySafety

  // ---- The invariant holds in every run --------------------------------------------------------

  lemma ExpireKeeps(s: State, keep: nat, t: State)
    requires Inv(s) && ExpireStep(s, keep, t)
    ensures Inv(t)
  {
    HideKeeps(s, t.snaps, s.deleting);
  }

  lemma RequestDeletionKeeps(s: State)
    requires Inv(s)
    ensures Inv(RequestRepositoryDeletion(s))
  {
    HideKeeps(s, RequestRepositoryDeletion(s).snaps, true);
  }

  lemma CondemnKeeps(s: State, p: PackId, t: State)
    requires Inv(s) && CondemnStep(s, p, t)
    ensures Inv(t)
  {
    ActorOnly(s, t.actor);
  }

  lemma MarkDamagedStepKeeps(s: State, p: PackId, t: State)
    requires Inv(s) && MarkDamagedStep(s, p, t)
    ensures Inv(t)
  {
    var actor := if s.actor.Worker? then Idle else s.actor;
    ActorOnly(s, actor);
    DamageKeeps(s.(actor := actor), p);
  }

  lemma MarkDeletedStepKeeps(s: State, p: PackId, t: State)
    requires Inv(s) && MarkDeletedStep(s, p, t)
    ensures Inv(t)
  {
    CondemnedUnreferenced(s, p);
    MarkDeletedKeeps(s, p);
    SameInv(MarkPackDeleted(s, p), t);
  }

  lemma CondemnedUnreferenced(s: State, p: PackId)
    requires Inv(s) && s.actor.Maintenance? && p in s.actor.condemned
    ensures Unreferenced(s.links, s.snaps, s.blocks, p)
  {
  }

  lemma SameInv(s: State, t: State)
    requires Inv(s) && t == s
    ensures Inv(t)
  {
  }

  lemma LookupInv(s: State, step: Step, t: State)
    requires Inv(s) && Next(s, step, t) && step.Lookup?
    ensures Inv(t)
  {
    LookupKeeps(s, step.block, step.data);
  }

  lemma ReuseInv(s: State, step: Step, t: State)
    requires Inv(s) && Next(s, step, t) && step.Reuse?
    ensures Inv(t)
  {
    LookupKeeps(s, s.links[step.link], s.items[step.link.item].parts[step.link.ordinal]);
  }

  lemma RecordInv(s: State, step: Step, t: State)
    requires Inv(s) && Next(s, step, t) && step.Record? && CollisionFree()
    ensures Inv(t)
  {
    RecordKeeps(s, step.pack, step.sha, step.entries, step.ids);
  }

  lemma CreateDraftInv(s: State, step: Step, t: State)
    requires Inv(s) && Next(s, step, t) && step.CreateDraft?
    ensures Inv(t)
  {
    CreateDraftKeeps(s, step.snap, step.created);
  }

  lemma WriteItemInv(s: State, step: Step, t: State)
    requires Inv(s) && Next(s, step, t) && step.WriteItem?
    ensures Inv(t)
  {
    WriteItemKeeps(s, ItemKey(s.actor.draft.snap, step.path), step.refs, PartsOf(s.actor.known, step.refs),
                   step.sha, step.size);
  }

  lemma PublishInv(s: State, step: Step, t: State)
    requires Inv(s) && Next(s, step, t) && step.Publish?
    ensures Inv(t)
  {
    PublishKeeps(s, s.actor.draft.snap, if step.partial then Partial else Available);
  }

  lemma ExpireInv(s: State, step: Step, t: State)
    requires Inv(s) && Next(s, step, t) && step.Expire?
    ensures Inv(t)
  {
    ExpireKeeps(s, step.keep, t);
  }

  lemma CondemnInv(s: State, step: Step, t: State)
    requires Inv(s) && Next(s, step, t) && step.Condemn?
    ensures Inv(t)
  {
    CondemnKeeps(s, step.pack, t);
  }

  lemma DeleteObjectInv(s: State, step: Step, t: State)
    requires Inv(s) && Next(s, step, t) && step.DeleteObject?
    ensures Inv(t)
  {
    DeleteObjectKeeps(s, s.packs[step.pack].sha);
  }

  lemma MarkDeletedInv(s: State, step: Step, t: State)
    requires Inv(s) && Next(s, step, t) && step.MarkDeleted?
    ensures Inv(t)
  {
    MarkDeletedStepKeeps(s, step.pack, t);
  }

  lemma SwitchInv(s: State, step: Step, t: State)
    requires Inv(s) && Next(s, step, t) && step.SwitchLocators? && CollisionFree()
    ensures Inv(t)
  {
    SwitchKeeps(s, step.source, step.pack, step.sha, step.entries, step.ids);
  }

  lemma MarkDamagedInv(s: State, step: Step, t: State)
    requires Inv(s) && Next(s, step, t) && step.MarkDamaged?
    ensures Inv(t)
  {
    MarkDamagedStepKeeps(s, step.pack, t);
  }

  lemma RequestDeletionInv(s: State, step: Step, t: State)
    requires Inv(s) && Next(s, step, t) && step.RequestDeletion?
    ensures Inv(t)
  {
    RequestDeletionKeeps(s);
  }

  lemma DropDraftInv(s: State, step: Step, t: State)
    requires Inv(s) && Next(s, step, t) && step.DropDraft?
    ensures Inv(t)
  {
    DropDraftKeeps(s, step.snap);
  }

  lemma UploadInv(s: State, step: Step, t: State)
    requires Inv(s) && Next(s, step, t) && step.Upload?
    ensures Inv(t)
  {
    UploadKeeps(s, step.bytes);
  }

  lemma PartialUploadInv(s: State, step: Step, t: State)
    requires Inv(s) && Next(s, step, t) && step.PartialUpload?
    ensures Inv(t)
  {
    PartialUploadKeeps(s, step.id, step.bytes);
  }

  lemma LockInv(s: State, step: Step, t: State)
    requires Inv(s) && Next(s, step, t) && (step.StartWorker? || step.StartMaintenance? || step.Stop?)
    ensures Inv(t)
  {
    ActorOnly(s, t.actor);
  }

  predicate WorkerStep(step: Step) {
    step.Lookup? || step.Reuse? || step.Record? || step.CreateDraft? || step.WriteItem? || step.Publish?
  }

  predicate MaintenanceStep(step: Step) {
    step.Expire? || step.Condemn? || step.DeleteObject? || step.MarkDeleted? || step.SwitchLocators?
  }

  lemma WorkerStepKeeps(s: State, step: Step, t: State)
    requires Inv(s) && CollisionFree() && Next(s, step, t) && WorkerStep(step)
    ensures Inv(t)
  {
    if step.Lookup? { LookupInv(s, step, t); }
    else if step.Reuse? { ReuseInv(s, step, t); }
    else if step.Record? { RecordInv(s, step, t); }
    else if step.CreateDraft? { CreateDraftInv(s, step, t); }
    else if step.WriteItem? { WriteItemInv(s, step, t); }
    else { PublishInv(s, step, t); }
  }

  lemma MaintenanceStepKeeps(s: State, step: Step, t: State)
    requires Inv(s) && CollisionFree() && Next(s, step, t) && MaintenanceStep(step)
    ensures Inv(t)
  {
    if step.Expire? { ExpireInv(s, step, t); }
    else if step.Condemn? { CondemnInv(s, step, t); }
    else if step.DeleteObject? { DeleteObjectInv(s, step, t); }
    else if step.MarkDeleted? { MarkDeletedInv(s, step, t); }
    else { SwitchInv(s, step, t); }
  }

  /** Every step, from whatever actor, keeps the repository invariant. */
  lemma StepKeepsInv(s: State, step: Step, t: State)
    requires Inv(s) && CollisionFree() && Next(s, step, t)
    ensures Inv(t)
  {
    if WorkerStep(step) { WorkerStepKeeps(s, step, t); }
    else if MaintenanceStep(step) { MaintenanceStepKeeps(s, step, t); }
    else if step.Upload? { UploadInv(s, step, t); }
    else if step.PartialUpload? { PartialUploadInv(s, step, t); }
    else if step.DropDraft? { DropDraftInv(s, step, t); }
    else if step.MarkDamaged? { MarkDamagedInv(s, step, t); }
    else if step.RequestDeletion? { RequestDeletionInv(s, step, t); }
    else { LockInv(s, step, t); }
  }

  /** A run: a state for every prefix of the steps taken, starting from the empty repository. */
  ghost predicate IsRun(states: seq<State>, steps: seq<Step>) {
    && |states| == |steps| + 1 && Init(states[0])
    && forall i :: 0 <= i < |steps| ==> Next(states[i], steps[i], states[i + 1])
  }

  lemma InitInv(s: State)
    requires Init(s)
    ensures Inv(s)
  {
  }

  lemma {:induction false} RunInv(states: seq<State>, steps: seq<Step>, i: nat)
    requires CollisionFree() && IsRun(states, steps) && i < |states|
    ensures Inv(states[i])
  {
    if i == 0 {
      InitInv(states[0]);
    } else {
      RunInv(states, steps, i - 1);
      StepKeepsInv(states[i - 1], steps[i - 1], states[i]);
    }
  }

  // ---- Restoring a file ------------------------------------------------------------------------

  datatype Recipe = Recipe(pack: Digest, offset: nat, length: nat, sha: Digest)

  datatype RestoreResult = Restored(bytes: Bytes) | PackMissing | BlockCorrupt | SizeMismatch | FileHashMismatch

  /** Reading the recipe's range from the store yields `data`, and `data` passes the block's hash check. */
  predicate Delivers(objects: map<Digest, Bytes>, recipe: Recipe, data: Bytes) {
    && recipe.pack in objects && 0 < recipe.length
    && recipe.offset + recipe.length <= |objects[recipe.pack]|
    && objects[recipe.pack][recipe.offset..recipe.offset + recipe.length] == data
    && Sha256(data) == recipe.sha
  }

  /** The locator of block b as a restore freezes it: only blocks in READY packs have one. */
  predicate Locator(blocks: Blocks, packs: Packs, b: BlockId, recipe: Recipe) {
    && b in blocks && HasState(packs, blocks[b].pack, Ready)
    && recipe == Recipe(packs[blocks[b].pack].sha, blocks[b].offset, blocks[b].length, blocks[b].sha)
  }

  predicate PlannedAt(s: State, item: ItemKey, i: nat, recipe: Recipe) {
    Link(item, i) in s.links && Locator(s.blocks, s.packs, s.links[Link(item, i)], recipe)
  }

  /** The recipes frozen when a restore of `item` is planned: one per link, in ordinal order, READY packs only. */
  ghost predicate PlannedFrom(s: State, item: ItemKey, recipes: seq<Recipe>) {
    && (forall k :: k in s.links && k.item == item ==> k.ordinal < |recipes|)
    && (forall i :: 0 <= i < |recipes| ==> PlannedAt(s, item, i, recipes[i]))
  }

  /**
    ReconstructFileWithRanges. Whatever is restored has the recorded size and hash; and if every recipe
    delivers its part, the outcome depends on nothing but the recorded size and hash.
   */
  method Reconstruct(objects: map<Digest, Bytes>, recipes: seq<Recipe>, size: nat, sha: Digest, ghost parts: seq<Bytes>)
    returns (r: RestoreResult)
    ensures r.Restored? ==> |r.bytes| == size && Sha256(r.bytes) == sha
    ensures (|parts| == |recipes| && forall i :: 0 <= i < |recipes| ==> Delivers(objects, recipes[i], parts[i])) ==>
              r == (if |Concat(parts)| != size then SizeMismatch
                    else if Sha256(Concat(parts)) != sha then FileHashMismatch
                    else Restored(Concat(parts)))
  {
    var written: Bytes := [];
    for i := 0 to |recipes|
      invariant (|parts| == |recipes| && forall j :: 0 <= j < |recipes| ==> Delivers(objects, recipes[j], parts[j])) ==>
                  written == Concat(parts[..i])
    {
      var recipe := recipes[i];
      if recipe.length == 0 {
        return BlockCorrupt;
      }
      if recipe.pack !in objects {
        return PackMissing;
      }
      if recipe.offset + recipe.length > |objects[recipe.pack]| {
        return BlockCorrupt;
      }
      var payload := objects[recipe.pack][recipe.offset..recipe.offset + recipe.length];
      if Sha256(payload) != recipe.sha {
        return BlockCorrupt;
      }
      written := written + payload;
      if |parts| == |recipes| {
        assert parts[..i + 1][..i] == parts[..i];
      }
    }
    if |parts| == |recipes| {
      assert parts[..|recipes|] == parts;
    }
    if |written| != size {
      return SizeMismatch;
    }
    if Sha256(written) != sha {
      return FileHashMismatch;
    }
    r := Restored(written);
  }

  /** The object of every pack that item needs is in the store. */
  ghost predicate PacksPresent(s: State, item: ItemKey) {
    forall k :: k in s.links && k.item == item && s.links[k] in s.blocks && s.blocks[s.links[k]].pack in s.packs
                ==> s.packs[s.blocks[s.links[k]].pack].sha in s.objects
  }

  predicate Plannable(s: State, item: ItemKey, i: nat) {
    && Link(item, i) in s.links && s.links[Link(item, i)] in s.blocks
    && HasState(s.packs, s.blocks[s.links[Link(item, i)]].pack, Ready)
  }

  function RecipeAt(s: State, item: ItemKey, i: nat): Recipe
    requires Plannable(s, item, i)
  {
    var row := s.blocks[s.links[Link(item, i)]];
    Recipe(s.packs[row.pack].sha, row.offset, row.length, row.sha)
  }

  lemma VisiblePlannable(s: State, item: ItemKey, i: nat)
    requires Inv(s) && item in s.items && Visible(s.snaps, item.snap) && i < |s.items[item].parts|
    ensures Plannable(s, item, i)
  {
    assert Kept(s.snaps, item.snap);
    assert Link(item, i) in s.links;
  }

  /** A restore of an item of a visible snapshot can always be planned. */
  lemma PlanExists(s: State, item: ItemKey) returns (recipes: seq<Recipe>)
    requires Inv(s) && item in s.items && Visible(s.snaps, item.snap)
    ensures PlannedFrom(s, item, recipes)
  {
    var n := |s.items[item].parts|;
    forall i: nat | i < n
      ensures Plannable(s, item, i)
    {
      VisiblePlannable(s, item, i);
    }
    AllOrdinals(s, item);
    recipes := seq(n, i requires 0 <= i < n => RecipeAt(s, item, i));
  }

  lemma AllOrdinals(s: State, item: ItemKey)
    requires Inv(s) && item in s.items && Visible(s.snaps, item.snap)
    ensures forall k :: k in s.links && k.item == item ==> k.ordinal < |s.items[item].parts|
    ensures forall i: nat :: i < |s.items[item].parts| ==> Link(item, i) in s.links
  {
    assert Kept(s.snaps, item.snap);
  }

  /**
    In every state with the invariant, the recipes of an item of a visible snapshot deliver exactly the blocks
    that were streamed if and only if the packs they point to are in the store.
   */
  lemma VisibleItemDelivers(s: State, item: ItemKey, recipes: seq<Recipe>)
    requires Inv(s) && CollisionFree() && item in s.items && Visible(s.snaps, item.snap)
    requires PlannedFrom(s, item, recipes)
    ensures |recipes| == |s.items[item].parts|
    ensures PacksPresent(s, item) <==>
            forall i :: 0 <= i < |recipes| ==> Delivers(s.objects, recipes[i], s.items[item].parts[i])
  {
    PlanLength(s, item, recipes);
    forall i | 0 <= i < |recipes|
      ensures recipes[i].pack in s.objects <==> Delivers(s.objects, recipes[i], s.items[item].parts[i])
    {
      assert PlannedAt(s, item, i, recipes[i]);
      BlockDelivers(s, s.links[Link(item, i)], s.items[item].parts[i]);
    }
    PresentIffFound(s, item, recipes);
  }

  lemma PlanLength(s: State, item: ItemKey, recipes: seq<Recipe>)
    requires Inv(s) && item in s.items && Visible(s.snaps, item.snap) && PlannedFrom(s, item, recipes)
    ensures |recipes| == |s.items[item].parts|
  {
    AllOrdinals(s, item);
    var n := |s.items[item].parts|;
    assert n > 0 ==> Link(item, n - 1) in s.links;
    assert |recipes| > 0 ==> PlannedAt(s, item, |recipes| - 1, recipes[|recipes| - 1]);
  }

  lemma PresentIffFound(s: State, item: ItemKey, recipes: seq<Recipe>)
    requires PlannedFrom(s, item, recipes)
    ensures PacksPresent(s, item) <==> forall i :: 0 <= i < |recipes| ==> recipes[i].pack in s.objects
  {
    forall i | 0 <= i < |recipes|
      ensures PlannedAt(s, item, i, recipes[i])
    {
    }
    forall k | k in s.links && k.item == item
      ensures k == Link(item, k.ordinal) && PlannedAt(s, item, k.ordinal, recipes[k.ordinal])
    {
    }
  }

  lemma BlockDelivers(s: State, b: BlockId, data: Bytes)
    requires Inv(s) && CollisionFree() && StandsFor(s.blocks, b, data) && HasState(s.packs, s.blocks[b].pack, Ready)
    ensures var row := s.blocks[b];
            var recipe := Recipe(s.packs[row.pack].sha, row.offset, row.length, row.sha);
            recipe.pack in s.objects <==> Delivers(s.objects, recipe, data)
  {
    var row := s.blocks[b];
    if s.packs[row.pack].sha in s.objects {
      assert HasObject(s.packs, s.objects, row.pack);
      assert Holds(s.packs[row.pack].sha, row);
      assert Locates(s.objects[s.packs[row.pack].sha], row);
    }
  }
}
