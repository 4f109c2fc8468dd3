/** Planning a restore: which selections the planning transaction refuses, and the recipes it freezes for the others. */
module RestorePlanning {
  import opened Bytes
  import opened PackFormat
  import opened Repository
  import opened RepositorySafety
  import opened SnapshotTheorems
  import opened SnapshotDurability
  import opened Sessions

  // ---- Locators stay within their packs --------------------------------------------------------

  predicate Fits(row: BlockRow, pack: PackRow) {
    row.offset + row.length <= pack.size
  }

  /** Every locator of a READY pack lies within the size recorded for the pack. */
  ghost predicate InBounds(blocks: Blocks, packs: Packs) {
    forall b :: b in blocks && HasState(packs, blocks[b].pack, Ready) ==> Fits(blocks[b], packs[blocks[b].pack])
  }

  lemma LocatorFits(p: PackId, sha: Digest, entries: seq<Entry>, i: nat)
    requires i < |entries|
    ensures Fits(LocatorOf(p, entries, i), PackRow(sha, Ready, EncodedSize(entries)))
  {
    PayloadSlice(entries, i);
  }

  lemma RecordBounds(s: State, p: PackId, sha: Digest, entries: seq<Entry>, ids: seq<BlockId>)
    requires InBounds(s.blocks, s.packs) && BlocksHavePacks(s.blocks, s.packs) && p !in s.packs
    requires |ids| == |entries| && Distinct(ids)
    ensures var t := RecordPack(s, p, sha, entries, ids); InBounds(t.blocks, t.packs)
  {
    var t := RecordPack(s, p, sha, entries, ids);
    PlaceIsPlaced(s.blocks, p, entries, ids);
    forall b | b in t.blocks && HasState(t.packs, t.blocks[b].pack, Ready)
      ensures Fits(t.blocks[b], t.packs[t.blocks[b].pack])
    {
      if b in ids {
        var i :| 0 <= i < |ids| && ids[i] == b && t.blocks[b] == LocatorOf(p, entries, i);
        LocatorFits(p, sha, entries, i);
      }
    }
  }

  /** Fewer rows, and fewer READY packs. */
  ghost predicate Narrows(s: State, t: State) {
    forall b :: b in t.blocks && HasState(t.packs, t.blocks[b].pack, Ready) ==>
      && b in s.blocks && s.blocks[b] == t.blocks[b] && HasState(s.packs, s.blocks[b].pack, Ready)
      && s.packs[s.blocks[b].pack].size == t.packs[t.blocks[b].pack].size
  }

  lemma NarrowsBounds(s: State, t: State)
    requires InBounds(s.blocks, s.packs) && Narrows(s, t)
    ensures InBounds(t.blocks, t.packs)
  {
  }

  lemma SwitchBounds(s: State, step: Step, t: State)
    requires Inv(s) && InBounds(s.blocks, s.packs) && Next(s, step, t) && step.SwitchLocators?
    ensures InBounds(t.blocks, t.packs)
  {
    RecordBounds(s, step.pack, step.sha, step.entries, step.ids);
    var recorded := RecordPack(s, step.pack, step.sha, step.entries, step.ids);
    NarrowsBounds(recorded, t);
  }

  lemma MarksNarrow(s: State, step: Step, t: State)
    requires Next(s, step, t) && (step.MarkDeleted? || step.MarkDamaged?)
    ensures Narrows(s, t)
  {
  }

  lemma TablesAlone(s: State, step: Step, t: State)
    requires Next(s, step, t)
    requires !step.Record? && !step.SwitchLocators? && !step.MarkDeleted? && !step.MarkDamaged?
    ensures t.blocks == s.blocks && t.packs == s.packs
  {
  }

  /** Every step keeps the locators within their packs. */
  lemma StepKeepsBounds(s: State, step: Step, t: State)
    requires Inv(s) && InBounds(s.blocks, s.packs) && Next(s, step, t)
    ensures InBounds(t.blocks, t.packs)
  {
    if step.Record? {
      RecordBounds(s, step.pack, step.sha, step.entries, step.ids);
    } else if step.SwitchLocators? {
      SwitchBounds(s, step, t);
    } else if step.MarkDeleted? || step.MarkDamaged? {
      MarksNarrow(s, step, t);
      NarrowsBounds(s, t);
    } else {
      TablesAlone(s, step, t);
    }
  }

  lemma {:induction false} RunBounds(states: seq<State>, steps: seq<Step>, i: nat)
    requires CollisionFree() && IsRun(states, steps) && i < |states|
    ensures InBounds(states[i].blocks, states[i].packs)
  {
    if i > 0 {
      RunInv(states, steps, i - 1);
      RunBounds(states, steps, i - 1);
      StepKeepsBounds(states[i - 1], steps[i - 1], states[i]);
    }
  }

  lemma {:induction false} ReachesBounds(s: State, steps: seq<Step>, t: State)
    requires CollisionFree() && Inv(s) && Safe(s) && InBounds(s.blocks, s.packs) && Reaches(s, steps, t)
    ensures InBounds(t.blocks, t.packs)
    decreases |steps|
  {
    if steps != [] {
      var before, step := steps[..|steps| - 1], steps[|steps| - 1];
      var m :| Reaches(s, before, m) && Next(m, step, t);
      ReachesKeeps(s, before, m);
      ReachesBounds(s, before, m);
      StepKeepsBounds(m, step, t);
    }
  }

  lemma EvolvesBounds(s: State, t: State)
    requires CollisionFree() && Inv(s) && Safe(s) && InBounds(s.blocks, s.packs) && Evolves(s, t)
    ensures InBounds(t.blocks, t.packs)
  {
    var steps :| Reaches(s, steps, t);
    ReachesBounds(s, steps, t);
  }

  // ---- The planning transaction ----------------------------------------------------------------

  lemma {:induction false} CountLinks(item: ItemKey, n: nat)
    ensures |(set i: nat | i < n :: Link(item, i))| == n
  {
    if n == 0 {
      assert (set i: nat | i < n :: Link(item, i)) == {};
    } else {
      CountLinks(item, n - 1);
      assert (set i: nat | i < n :: Link(item, i)) == (set i: nat | i < n - 1 :: Link(item, i)) + {Link(item, n - 1)};
    }
  }

  function LinksOf(links: Links, item: ItemKey): set<Link> {
    set k | k in links && k.item == item
  }

  lemma LinksCounted(s: State, item: ItemKey)
    requires Inv(s) && item in s.items && Visible(s.snaps, item.snap)
    ensures |LinksOf(s.links, item)| == |s.items[item].parts|
  {
    var n := |s.items[item].parts|;
    AllOrdinals(s, item);
    CountLinks(item, n);
    var all := set i: nat | i < n :: Link(item, i);
    forall k | k in LinksOf(s.links, item)
      ensures k in all
    {
      assert k == Link(item, k.ordinal);
    }
    assert LinksOf(s.links, item) == all;
  }

  /** A visible item in a repository whose invariants hold. */
  ghost predicate Sure(s: State, item: ItemKey) {
    Inv(s) && InBounds(s.blocks, s.packs) && item in s.items && Visible(s.snaps, item.snap)
  }

  /** The link leads to a locator that lies within a READY pack. */
  predicate RecipeValid(s: State, item: ItemKey, i: nat) {
    Plannable(s, item, i) &&
      var row := s.blocks[s.links[Link(item, i)]]; Fits(row, s.packs[row.pack])
  }

  predicate AllValid(s: State, item: ItemKey, n: nat) {
    forall i :: 0 <= i < n ==> RecipeValid(s, item, i)
  }

  lemma SureValid(s: State, item: ItemKey)
    requires Sure(s, item)
    ensures AllValid(s, item, |s.items[item].parts|)
  {
    forall i: nat | i < |s.items[item].parts|
      ensures RecipeValid(s, item, i)
    {
      VisiblePlannable(s, item, i);
    }
  }

  lemma SurePlanned(s: State, item: ItemKey, recipes: seq<Recipe>)
    requires Sure(s, item) && |recipes| == |s.items[item].parts|
    requires forall i :: 0 <= i < |recipes| ==> PlannedAt(s, item, i, recipes[i])
    ensures PlannedFrom(s, item, recipes)
  {
    AllOrdinals(s, item);
  }

  /** No part was streamed, yet the file was listed with a size. */
  predicate Hollow(row: ItemRow) {
    row.size > 0 && row.parts == []
  }

  /** The first n links in order: strictly all of them, or those that lead to READY packs. */
  method FollowLinks(s: State, item: ItemKey, n: nat, strict: bool) returns (ok: bool, recipes: seq<Recipe>)
    ensures ok <==> !strict || AllValid(s, item, n)
    ensures forall r :: r in recipes ==> exists i :: PlannedAt(s, item, i, r)
    ensures AllValid(s, item, n) ==>
      |recipes| == n && forall i :: 0 <= i < n ==> PlannedAt(s, item, i, recipes[i])
  {
    recipes := [];
    for i := 0 to n
      invariant strict ==> AllValid(s, item, i)
      invariant forall r :: r in recipes ==> exists k :: PlannedAt(s, item, k, r)
      invariant AllValid(s, item, i) ==>
        |recipes| == i && forall k :: 0 <= k < i ==> PlannedAt(s, item, k, recipes[k])
    {
      assert AllValid(s, item, i + 1) ==> AllValid(s, item, i) && RecipeValid(s, item, i);
      if strict && !RecipeValid(s, item, i) {
        return false, recipes;
      }
      if Plannable(s, item, i) {
        assert PlannedAt(s, item, i, RecipeAt(s, item, i));
        recipes := recipes + [RecipeAt(s, item, i)];
      }
    }
    ok := true;
  }

  /**
    The recipes of one item, in the order of its links. An item with a size is refused if it has no link, or one that
    does not lead into a READY pack; for an empty one the join just leaves such a link out.
   */
  method PlanBlocks(s: State, item: ItemKey) returns (ok: bool, recipes: seq<Recipe>)
    requires item in s.items
    ensures forall r :: r in recipes ==> exists i :: PlannedAt(s, item, i, r)
    ensures Sure(s, item) ==> (ok <==> !Hollow(s.items[item])) && (ok ==> PlannedFrom(s, item, recipes))
  {
    var n, size := |LinksOf(s.links, item)|, s.items[item].size;
    ok, recipes := FollowLinks(s, item, n, size > 0);
    ok := ok && (size == 0 || n > 0);
    if Sure(s, item) {
      LinksCounted(s, item);
      SureValid(s, item);
      SurePlanned(s, item, recipes);
    }
  }

  /** The selected items of the snapshot that stand in the way. */
  ghost predicate Obstructed(items: Items, n: SnapId, selected: seq<Path>) {
    exists path :: path in selected && ItemKey(n, path) in items && Hollow(items[ItemKey(n, path)])
  }

  /** Every selected item has its recipes. */
  ghost predicate Frozen(s: State, n: SnapId, selected: seq<Path>, plan: map<Path, seq<Recipe>>) {
    forall path :: path in selected && ItemKey(n, path) in s.items ==>
      path in plan && PlannedFrom(s, ItemKey(n, path), plan[path])
  }

  /**
    PlanRestoreRunContext over the paths a selection matches. A visible snapshot is planned if and only if no selected
    file was listed with a size and streamed nothing; a single such file refuses the whole selection.
   */
  method PlanRestore(s: State, n: SnapId, selected: seq<Path>) returns (ok: bool, plan: map<Path, seq<Recipe>>)
    requires Inv(s) && InBounds(s.blocks, s.packs)
    ensures ok <==> Visible(s.snaps, n) && !Obstructed(s.items, n, selected)
    ensures ok ==> Frozen(s, n, selected, plan)
  {
    ok, plan := Visible(s.snaps, n) && !s.deleting, map[];
    if !ok {
      return;
    }
    for k := 0 to |selected|
      invariant !Obstructed(s.items, n, selected[..k]) && Frozen(s, n, selected[..k], plan)
    {
      var key := ItemKey(n, selected[k]);
      if key in s.items {
        var recipes;
        ok, recipes := PlanBlocks(s, key);
        if !ok {
          assert Hollow(s.items[key]) && selected[k] in selected;
          return;
        }
        plan := plan[selected[k] := recipes];
      }
      assert selected[..k + 1] == selected[..k] + [selected[k]];
    }
    assert selected[..|selected|] == selected;
  }
}
