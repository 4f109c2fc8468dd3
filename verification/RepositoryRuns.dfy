/**
  Runs that show what the guarantees need. Retention deletes an unreferenced READY pack's object and dies before
  marking the row; a later backup finds a block "already stored" there, and the sample before publication checks
  another pack. And a stream of another length than listed is published.
 */
module RepositoryRuns {
  import opened Bytes
  import opened PackFormat
  import opened Repository
  import opened RepositorySafety
  import opened SnapshotTheorems
  import opened SnapshotDurability
  import opened Sessions
  import opened RestorePlanning

  lemma Extend(states: seq<State>, steps: seq<Step>, step: Step, t: State)
    requires IsRun(states, steps) && Next(states[|steps|], step, t)
    ensures IsRun(states + [t], steps + [step])
  {
    var longer, more := states + [t], steps + [step];
    forall i | 0 <= i < |more|
      ensures Next(longer[i], more[i], longer[i + 1])
    {
      if i < |steps| {
        assert Next(states[i], steps[i], states[i + 1]);
      }
    }
  }

  /** Some run from the empty repository ends in s. */
  ghost predicate Reachable(s: State) {
    exists states, steps :: IsRun(states, steps) && states[|steps|] == s
  }

  lemma ReachNext(s: State, step: Step, t: State)
    requires Reachable(s) && Next(s, step, t)
    ensures Reachable(t)
  {
    var states, steps :| IsRun(states, steps) && states[|steps|] == s;
    Extend(states, steps, step, t);
    assert (states + [t])[|steps + [step]|] == t;
  }

  lemma {:induction false} ReachOn(s: State, steps: seq<Step>, t: State)
    requires Reachable(s) && Reaches(s, steps, t)
    ensures Reachable(t)
    decreases |steps|
  {
    if steps != [] {
      var last := |steps| - 1;
      var m :| Reaches(s, steps[..last], m) && Next(m, steps[last], t);
      ReachOn(s, steps[..last], m);
      ReachNext(m, steps[last], t);
    }
  }

  lemma ReachEvolved(s: State, t: State)
    requires Reachable(s) && Evolves(s, t)
    ensures Reachable(t)
  {
    var steps :| Reaches(s, steps, t);
    ReachOn(s, steps, t);
  }

  // ---- The steps of a backup -------------------------------------------------------------------

  /** A new pack the worker can store: fresh hashes and IDs, all in play. */
  ghost predicate Storable(s: State, q: PackId, entries: seq<Entry>, ids: seq<BlockId>) {
    && IsPackOf(PackBytes(entries), entries) && PackBytes(entries) in InPlay
    && (forall e :: e in entries ==> e.data in InPlay)
    && NewPackRow(s, q, Sha256(PackBytes(entries))) && NewBlockRows(s, entries, ids)
  }

  /** The repository once the worker has stored and recorded the pack. */
  function WithPack(s: State, q: PackId, entries: seq<Entry>, ids: seq<BlockId>): State
    requires |ids| == |entries| && Distinct(ids)
  {
    var bytes := PackBytes(entries);
    RecordPack(s.(objects := s.objects[Sha256(bytes) := bytes]), q, Sha256(bytes), entries, ids)
      .(actor := Worker(NoDraft, Learned(map[], entries, ids)))
  }

  lemma StoreNew(s: State, q: PackId, entries: seq<Entry>, ids: seq<BlockId>)
    requires s.actor == Worker(NoDraft, map[]) && Storable(s, q, entries, ids)
    ensures Evolves(s, WithPack(s, q, entries, ids))
  {
    var bytes := PackBytes(entries);
    var u := s.(objects := s.objects[Sha256(bytes) := bytes]);
    EvolvesRefl(s);
    EvolvesStep(s, s, Upload(bytes), u);
    assert ValidatedObject(u, Sha256(bytes), entries);
    EvolvesStep(s, u, Record(q, Sha256(bytes), entries, ids), WithPack(s, q, entries, ids));
  }

  /** The new pack is sound, its first block is known, and the other rows are as before. */
  lemma PackStored(s: State, q: PackId, entries: seq<Entry>, ids: seq<BlockId>)
    requires Storable(s, q, entries, ids)
    ensures var t := WithPack(s, q, entries, ids);
            && SoundPack(t.packs, t.objects, q) && t.packs[q].size == EncodedSize(entries)
            && InPack(t.blocks, ids[0], q)
            && ids[0] in t.actor.known && t.actor.known[ids[0]] == entries[0].data
  {
    assert |PackBytes(entries)| == EncodedSize(entries);
    PlaceListed(s.blocks, q, entries, ids, |ids|, 0);
  }

  lemma StoredBeside(s: State, q: PackId, entries: seq<Entry>, ids: seq<BlockId>, p: PackId, b: BlockId)
    requires Storable(s, q, entries, ids) && p in s.packs && s.packs[p].sha !in s.objects && InPack(s.blocks, b, p)
    ensures var t := WithPack(s, q, entries, ids);
            && p != q && p in t.packs && t.packs[p] == s.packs[p] && t.packs[p].sha !in t.objects
            && b in t.blocks && t.blocks[b] == s.blocks[b] && ids[0] != b
  {
    PlaceOther(s.blocks, q, entries, ids, |ids|, b);
  }

  /** The draft n, and one file of the given blocks in it. */
  function WithDraft(s: State, n: SnapId, created: nat): State
    requires s.actor.Worker?
  {
    s.(snaps := s.snaps[n := SnapRow(Publishing, created)], actor := s.actor.(draft := HasDraft(n)))
  }

  function WithItem(s: State, item: ItemKey, refs: seq<BlockId>, size: nat): State
    requires s.actor.Worker? && AllKnown(s.actor.known, refs)
  {
    var parts := PartsOf(s.actor.known, refs);
    WriteItemRows(s, item, refs, parts, Sha256(Concat(parts)), size)
  }

  lemma EvolveDraft(start: State, s: State, n: SnapId, created: nat, path: Path, refs: seq<BlockId>, size: nat)
    requires Evolves(start, s) && s.actor.Worker? && AllKnown(s.actor.known, refs)
    requires n !in s.snaps && (forall m :: m in s.snaps ==> s.snaps[m].created < created)
    requires ItemKey(n, path) !in s.items
    ensures Evolves(start, WithItem(WithDraft(s, n, created), ItemKey(n, path), refs, size))
  {
    EvolvesStep(start, s, CreateDraft(n, created), WithDraft(s, n, created));
    AddItem(start, WithDraft(s, n, created), n, path, refs, size);
  }

  lemma AddItem(start: State, s: State, n: SnapId, path: Path, refs: seq<BlockId>, size: nat)
    requires Evolves(start, s) && s.actor.Worker? && AllKnown(s.actor.known, refs)
    requires s.actor.draft == HasDraft(n) && n in s.snaps && ItemKey(n, path) !in s.items
    ensures Evolves(start, WithItem(s, ItemKey(n, path), refs, size))
  {
    var sha := Sha256(Concat(PartsOf(s.actor.known, refs)));
    EvolvesStep(start, s, WriteItem(path, refs, sha, size), WithItem(s, ItemKey(n, path), refs, size));
  }

  function Published(s: State, n: SnapId): State
    requires n in s.snaps && s.actor.Worker?
  {
    s.(snaps := s.snaps[n := s.snaps[n].(state := Available)], actor := s.actor.(draft := NoDraft))
  }

  lemma PublishSampled(start: State, s: State, n: SnapId, order: seq<PackId>, from: nat)
    requires Evolves(start, s) && s.actor.Worker? && s.actor.draft == HasDraft(n) && !s.deleting
    requires n in s.snaps && s.snaps[n].state == Publishing && Sampled(s, n, order, from)
    ensures Evolves(start, Published(s, n))
  {
    EvolvesStep(start, s, Publish(false, order, from), Published(s, n));
  }

  /** A snapshot that does not exist has no rows. */
  lemma NoTrace(s: State, n: SnapId, path: Path)
    requires Inv(s) && n !in s.snaps
    ensures ItemKey(n, path) !in s.items && forall k :: k in s.links ==> k.item.snap != n
  {
  }

  /** The links are those of one file of snapshot n, and of other snapshots. */
  predicate OnlyFile(links: Links, item: ItemKey, refs: seq<BlockId>) {
    && (forall i :: 0 <= i < |refs| ==> Link(item, i) in links && links[Link(item, i)] == refs[i])
    && (forall k :: k in links && k.item.snap == item.snap ==>
          k.item == item && k.ordinal < |refs| && links[k] == refs[k.ordinal])
  }

  lemma ItemIsOnlyFile(s: State, item: ItemKey, refs: seq<BlockId>, size: nat)
    requires s.actor.Worker? && AllKnown(s.actor.known, refs) && forall k :: k in s.links ==> k.item.snap != item.snap
    ensures OnlyFile(WithItem(s, item, refs, size).links, item, refs)
  {
  }

  /** The packs of a one-file draft are those of its blocks. */
  lemma DraftPacks(links: Links, blocks: Blocks, item: ItemKey, refs: seq<BlockId>, packs: set<PackId>)
    requires OnlyFile(links, item, refs)
    requires forall i :: 0 <= i < |refs| ==> refs[i] in blocks && blocks[refs[i]].pack in packs
    requires forall p :: p in packs ==> exists i :: 0 <= i < |refs| && InPack(blocks, refs[i], p)
    ensures UsedPacks(links, blocks, item.snap) == packs
  {
    var used := UsedPacks(links, blocks, item.snap);
    forall p | p in packs
      ensures p in used
    {
      var i :| 0 <= i < |refs| && InPack(blocks, refs[i], p);
      assert links[Link(item, i)] == refs[i];
    }
  }

  // ---- A backup over a half-deleted pack -------------------------------------------------------

  /** The sample starts at the new pack, which leaves no room for the missing one. */
  lemma SampleMisses(s: State, n: SnapId, q: PackId, p: PackId) returns (order: seq<PackId>, start: nat)
    requires UsedPacks(s.links, s.blocks, n) == {q, p} && q != p && p in s.packs && SoundPack(s.packs, s.objects, q)
    requires s.packs[q].size <= SAMPLE_BUDGET < s.packs[q].size + s.packs[p].size
    ensures Sampled(s, n, order, start)
  {
    if q < p {
      order, start := [q, p], 0;
    } else {
      order, start := [p, q], 1;
    }
    assert Rotated(order, start) == [q, p];
    assert [q, p][1..] == [p] && [p][1..] == [];
    assert SamplePasses(s.packs, s.objects, [p], SAMPLE_BUDGET - s.packs[q].size);
  }

  /** The block of a half-deleted pack is found by its hash, and takes part in a draft of two blocks. */
  lemma DraftOver(start: State, s: State, a: BlockId, b: BlockId, data: Bytes, n: SnapId, created: nat, path: Path)
    returns (t: State)
    requires Evolves(start, s) && s.actor.Worker? && a in s.actor.known && a != b
    requires b in s.blocks && s.blocks[b].sha == Sha256(data) && data in InPlay
    requires HasState(s.packs, s.blocks[b].pack, Ready)
    requires n !in s.snaps && (forall m :: m in s.snaps ==> s.snaps[m].created < created)
    requires ItemKey(n, path) !in s.items && forall k :: k in s.links ==> k.item.snap != n
    ensures Evolves(start, t) && t.packs == s.packs && t.blocks == s.blocks && t.objects == s.objects
    ensures t.deleting == s.deleting && t.actor.Worker? && t.actor.draft == HasDraft(n)
    ensures n in t.snaps && t.snaps[n].state == Publishing
    ensures var parts := [s.actor.known[a], data];
            ItemKey(n, path) in t.items
            && t.items[ItemKey(n, path)] == ItemRow(parts, Sha256(Concat(parts)), |Concat(parts)|)
    ensures OnlyFile(t.links, ItemKey(n, path), [a, b])
  {
    var u := s.(actor := s.actor.(known := s.actor.known[b := data]));
    EvolvesStep(start, s, Lookup(b, data), u);
    var parts := [s.actor.known[a], data];
    assert PartsOf(u.actor.known, [a, b]) == parts;
    EvolveDraft(start, u, n, created, path, [a, b], |Concat(parts)|);
    ItemIsOnlyFile(WithDraft(u, n, created), ItemKey(n, path), [a, b], |Concat(parts)|);
    t := WithItem(WithDraft(u, n, created), ItemKey(n, path), [a, b], |Concat(parts)|);
  }

  lemma PublishOver(start: State, s: State, n: SnapId, path: Path, a: BlockId, b: BlockId, q: PackId, p: PackId)
    requires Evolves(start, s) && !s.deleting && s.actor.Worker? && s.actor.draft == HasDraft(n)
    requires n in s.snaps && s.snaps[n].state == Publishing && OnlyFile(s.links, ItemKey(n, path), [a, b])
    requires InPack(s.blocks, a, q) && InPack(s.blocks, b, p) && q != p && p in s.packs && s.packs[p].sha !in s.objects
    requires SoundPack(s.packs, s.objects, q) && s.packs[q].size <= SAMPLE_BUDGET < s.packs[q].size + s.packs[p].size
    ensures Evolves(start, Published(s, n)) && !PacksPresent(Published(s, n), ItemKey(n, path))
  {
    var item, refs := ItemKey(n, path), [a, b];
    assert InPack(s.blocks, refs[0], q) && InPack(s.blocks, refs[1], p);
    DraftPacks(s.links, s.blocks, item, refs, {q, p});
    var order, from := SampleMisses(s, n, q, p);
    PublishSampled(start, s, n, order, from);
    assert refs[1] == b && Link(item, 1) in s.links;
  }

  /**
    The converse of the guarantee. From every idle state with a READY pack whose object is gone and a catalogued
    block in it, a backup that also stores a pack too large to be sampled together with it publishes a snapshot
    that cannot be restored.
   */
  lemma HalfDeletedStartLoses(s: State, p: PackId, b: BlockId, data: Bytes, q: PackId, entries: seq<Entry>,
                              ids: seq<BlockId>, n: SnapId, created: nat, path: Path) returns (t: State)
    requires Inv(s) && s.actor == Idle && !s.deleting && HasState(s.packs, p, Ready) && s.packs[p].sha !in s.objects
    requires InPack(s.blocks, b, p) && s.blocks[b].sha == Sha256(data) && data in InPlay
    requires Storable(s, q, entries, ids) && EncodedSize(entries) + s.packs[p].size > SAMPLE_BUDGET
    requires n !in s.snaps && forall m :: m in s.snaps ==> s.snaps[m].created < created
    ensures var started := s.(actor := Worker(NoDraft, map[]));
            Next(s, StartWorker, started) && Evolves(started, t)
    ensures var parts, item := [entries[0].data, data], ItemKey(n, path);
            && Visible(t.snaps, n) && item in t.items
            && t.items[item] == ItemRow(parts, Sha256(Concat(parts)), |Concat(parts)|)
            && !PacksPresent(t, item)
  {
    var started := s.(actor := Worker(NoDraft, map[]));
    StoreNew(started, q, entries, ids);
    PackStored(started, q, entries, ids);
    StoredBeside(started, q, entries, ids, p, b);
    NoTrace(s, n, path);
    var stored := WithPack(started, q, entries, ids);
    var drafted := DraftOver(started, stored, ids[0], b, data, n, created, path);
    PublishOver(started, drafted, n, path, ids[0], b, q, p);
    t := Published(drafted, n);
  }

  // ---- The same from the empty repository ------------------------------------------------------

  const EMPTY := State(map[], map[], map[], map[], map[], map[], false, Idle)

  lemma ReachEmpty()
    ensures Reachable(EMPTY)
  {
    var steps: seq<Step> := [];
    assert IsRun([EMPTY], steps) && [EMPTY][|steps|] == EMPTY;
  }

  lemma ReachWorker(s: State)
    requires Reachable(s) && s.actor == Idle && !s.deleting
    ensures Reachable(s.(actor := Worker(NoDraft, map[])))
  {
    ReachNext(s, StartWorker, s.(actor := Worker(NoDraft, map[])));
  }

  /** A backup uploads and records a pack, then its process dies before writing any item. */
  lemma ReachStored(s: State, p: PackId, entries: seq<Entry>, ids: seq<BlockId>)
    requires Reachable(s) && s.actor == Idle && !s.deleting && Storable(s, p, entries, ids)
    ensures Reachable(WithPack(s, p, entries, ids).(actor := Idle))
  {
    var started := s.(actor := Worker(NoDraft, map[]));
    ReachWorker(s);
    StoreNew(started, p, entries, ids);
    ReachEvolved(started, WithPack(started, p, entries, ids));
    assert WithPack(started, p, entries, ids) == WithPack(s, p, entries, ids);
    ReachNext(WithPack(s, p, entries, ids), Stop, WithPack(s, p, entries, ids).(actor := Idle));
  }

  /** Retention deletes the object and dies before the row is marked. */
  lemma ReachHalfDeleted(s: State, p: PackId)
    requires Reachable(s) && s.actor == Idle && HasState(s.packs, p, Ready) && Reclaimable(s, p)
    ensures Reachable(s.(objects := s.objects - {s.packs[p].sha}))
  {
    var m := s.(actor := Maintenance({}));
    ReachNext(s, StartMaintenance, m);
    var c := s.(actor := Maintenance({} + {p}));
    ReachNext(m, Condemn(p), c);
    var d := c.(objects := s.objects - {s.packs[p].sha});
    ReachNext(c, DeleteObject(p), d);
    ReachNext(d, Stop, d.(actor := Idle));
  }

  /** What a crashed backup and an interrupted retention pass leave: one READY pack without its object. */
  lemma HalfDeletedFromEmpty(p: PackId, entries: seq<Entry>, ids: seq<BlockId>) returns (s: State)
    requires Storable(EMPTY, p, entries, ids)
    ensures Reachable(s) && s.actor == Idle && !s.deleting && s.snaps == map[]
    ensures s.packs == map[p := PackRow(Sha256(PackBytes(entries)), Ready, EncodedSize(entries))] && s.objects == map[]
    ensures s.blocks == Place(map[], p, entries, ids, |ids|)
  {
    ReachEmpty();
    ReachStored(EMPTY, p, entries, ids);
    var stored := WithPack(EMPTY, p, entries, ids).(actor := Idle);
    ReachHalfDeleted(stored, p);
    s := stored.(objects := stored.objects - {stored.packs[p].sha});
    assert s.objects == map[];
  }

  /** Two packs no sample takes together, with different content. */
  ghost predicate TwoPacks(p: PackId, entries: seq<Entry>, ids: seq<BlockId>,
                           q: PackId, others: seq<Entry>, otherIds: seq<BlockId>) {
    && Storable(EMPTY, p, entries, ids) && Storable(EMPTY, q, others, otherIds)
    && p != q && Sha256(PackBytes(entries)) != Sha256(PackBytes(others))
    && (forall i, j :: 0 <= i < |ids| && 0 <= j < |otherIds| ==> ids[i] != otherIds[j])
    && (forall i, j :: 0 <= i < |entries| && 0 <= j < |others| ==> entries[i].hash != others[j].hash)
    && EncodedSize(entries) + EncodedSize(others) > SAMPLE_BUDGET
  }

  lemma {:induction false} PlacedFromNothing(p: PackId, entries: seq<Entry>, ids: seq<BlockId>, n: nat, b: BlockId)
    requires n <= |ids| == |entries| && b in Place(map[], p, entries, ids, n)
    ensures exists i :: 0 <= i < n && ids[i] == b && Place(map[], p, entries, ids, n)[b].sha == entries[i].hash
  {
    if n > 0 {
      if b == ids[n - 1] {
        assert Place(map[], p, entries, ids, n)[b].sha == entries[n - 1].hash;
      } else {
        PlacedFromNothing(p, entries, ids, n - 1, b);
      }
    }
  }

  lemma StillStorable(s: State, p: PackId, entries: seq<Entry>, ids: seq<BlockId>,
                      q: PackId, others: seq<Entry>, otherIds: seq<BlockId>)
    requires TwoPacks(p, entries, ids, q, others, otherIds)
    requires s.packs == map[p := PackRow(Sha256(PackBytes(entries)), Ready, EncodedSize(entries))]
    requires s.blocks == Place(map[], p, entries, ids, |ids|)
    ensures Storable(s, q, others, otherIds)
  {
    forall b | b in s.blocks
      ensures exists i :: 0 <= i < |ids| && ids[i] == b && s.blocks[b].sha == entries[i].hash
    {
      PlacedFromNothing(p, entries, ids, |ids|, b);
    }
  }

  /**
    For any two packs that do not fit one sample there is a run from the empty repository that publishes a snapshot
    whose first pack is not in the store: the guarantee of VisibleSnapshotsRestore needs its condition.
   */
  lemma CrashInWindowLosesSnapshot(p: PackId, entries: seq<Entry>, ids: seq<BlockId>,
                                   q: PackId, others: seq<Entry>, otherIds: seq<BlockId>, path: Path) returns (t: State)
    requires CollisionFree() && TwoPacks(p, entries, ids, q, others, otherIds)
    ensures Reachable(t)
    ensures var parts, item := [others[0].data, entries[0].data], ItemKey(0, path);
            && Visible(t.snaps, 0) && item in t.items
            && t.items[item] == ItemRow(parts, Sha256(Concat(parts)), |Concat(parts)|)
            && !PacksPresent(t, item)
  {
    var s := HalfDeletedFromEmpty(p, entries, ids);
    ReachableInv(s);
    StillStorable(s, p, entries, ids, q, others, otherIds);
    FirstBlock(p, entries, ids);
    t := HalfDeletedStartLoses(s, p, ids[0], entries[0].data, q, others, otherIds, 0, 1, path);
    ReachRestarted(s, t);
  }

  lemma FirstBlock(p: PackId, entries: seq<Entry>, ids: seq<BlockId>)
    requires Storable(EMPTY, p, entries, ids)
    ensures var blocks := Place(map[], p, entries, ids, |ids|);
            InPack(blocks, ids[0], p) && blocks[ids[0]].sha == Sha256(entries[0].data) && entries[0].data in InPlay
  {
    PlaceListed(map[], p, entries, ids, |ids|, 0);
    assert entries[0] in entries;
  }

  lemma ReachRestarted(s: State, t: State)
    requires Reachable(s) && s.actor == Idle && !s.deleting && Evolves(s.(actor := Worker(NoDraft, map[])), t)
    ensures Reachable(t)
  {
    ReachWorker(s);
    ReachEvolved(s.(actor := Worker(NoDraft, map[])), t);
  }

  lemma ReachableInv(s: State)
    requires CollisionFree() && Reachable(s)
    ensures Inv(s)
  {
    var states, steps :| IsRun(states, steps) && states[|steps|] == s;
    RunInv(states, steps, |steps|);
  }

  // ---- A stream of another length than listed --------------------------------------------------

  /** Every draft whose packs are sound can be sampled. */
  lemma SampleOne(s: State, n: SnapId, q: PackId)
    requires UsedPacks(s.links, s.blocks, n) == {q} && SoundPack(s.packs, s.objects, q)
    requires s.packs[q].size <= SAMPLE_BUDGET
    ensures Sampled(s, n, [q], 0)
  {
    assert Rotated([q], 0) == [q] && [q][1..] == [];
  }

  /**
    The backup never compares the bytes it streamed with the size it was given: for any pack and any listed size,
    a run publishes an item with that size and the first block as its content. SnapshotDurability.RestoreItem
    refuses it, unless the size happens to be right.
   */
  lemma ListedSizePublished(q: PackId, entries: seq<Entry>, ids: seq<BlockId>, path: Path, size: nat) returns (t: State)
    requires CollisionFree() && Storable(EMPTY, q, entries, ids)
    ensures Reachable(t) && Inv(t) && Safe(t) && Visible(t.snaps, 0) && ItemKey(0, path) in t.items
    ensures t.items[ItemKey(0, path)].parts == [entries[0].data] && t.items[ItemKey(0, path)].size == size
  {
    var started := EMPTY.(actor := Worker(NoDraft, map[]));
    StoreNew(started, q, entries, ids);
    PackStored(started, q, entries, ids);
    var stored := WithPack(started, q, entries, ids);
    t := PublishBlock(started, stored, ids[0], q, path, size);
    EvolvesKeeps(started, t);
    ReachEmpty();
    ReachRestarted(EMPTY, t);
  }

  /** A file listed with a size of which nothing was read is published, and no selection with it can be planned. */
  lemma EmptyStreamPublished(path: Path, size: nat) returns (t: State)
    requires CollisionFree() && size > 0
    ensures Reachable(t) && Inv(t) && Safe(t) && Visible(t.snaps, 0)
    ensures forall selected :: path in selected ==> Obstructed(t.items, 0, selected)
  {
    var started := EMPTY.(actor := Worker(NoDraft, map[]));
    EvolvesRefl(started);
    t := PublishNothing(started, path, size);
    EvolvesKeeps(started, t);
    ReachEmpty();
    ReachRestarted(EMPTY, t);
    StandsInTheWay(t.items, path);
  }

  lemma StandsInTheWay(items: Items, path: Path)
    requires ItemKey(0, path) in items && Hollow(items[ItemKey(0, path)])
    ensures forall selected :: path in selected ==> Obstructed(items, 0, selected)
  {
  }

  lemma PublishNothing(s: State, path: Path, size: nat) returns (t: State)
    requires s.actor.Worker? && !s.deleting && Evolves(s, s)
    requires s.snaps == map[] && s.items == map[] && s.links == map[]
    ensures Evolves(s, t) && Visible(t.snaps, 0) && ItemKey(0, path) in t.items
    ensures t.items[ItemKey(0, path)].parts == [] && t.items[ItemKey(0, path)].size == size
  {
    var item, refs: seq<BlockId> := ItemKey(0, path), [];
    EvolveDraft(s, s, 0, 1, path, refs, size);
    ItemIsOnlyFile(WithDraft(s, 0, 1), item, refs, size);
    var drafted := WithItem(WithDraft(s, 0, 1), item, refs, size);
    DraftPacks(drafted.links, s.blocks, item, refs, {});
    assert Sampled(drafted, 0, [], 0);
    PublishSampled(s, drafted, 0, [], 0);
    t := Published(drafted, 0);
  }

  lemma PublishBlock(start: State, s: State, a: BlockId, q: PackId, path: Path, size: nat) returns (t: State)
    requires Evolves(start, s) && s.actor.Worker? && !s.deleting && a in s.actor.known && InPack(s.blocks, a, q)
    requires s.snaps == map[] && s.items == map[] && s.links == map[]
    requires SoundPack(s.packs, s.objects, q) && s.packs[q].size <= SAMPLE_BUDGET
    ensures Evolves(start, t) && Visible(t.snaps, 0) && ItemKey(0, path) in t.items
    ensures t.items[ItemKey(0, path)].parts == [s.actor.known[a]] && t.items[ItemKey(0, path)].size == size
  {
    var item, refs := ItemKey(0, path), [a];
    EvolveDraft(start, s, 0, 1, path, refs, size);
    ItemIsOnlyFile(WithDraft(s, 0, 1), item, refs, size);
    var drafted := WithItem(WithDraft(s, 0, 1), item, refs, size);
    assert InPack(s.blocks, refs[0], q);
    DraftPacks(drafted.links, s.blocks, item, refs, {q});
    SampleOne(drafted, 0, q);
    PublishSampled(start, drafted, 0, [q], 0);
    t := Published(drafted, 0);
  }
}
