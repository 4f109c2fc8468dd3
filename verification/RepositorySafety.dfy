/** The invariant of the repository transition system, and what it means for restoring a snapshot. */
module RepositorySafety {
  import opened Bytes
  import opened PackFormat
  import opened Repository

  // ---- The invariant ---------------------------------------------------------------------------

  // Each clause names just the tables it depends on, so a step keeps the clauses of the tables it leaves alone.

  ghost predicate UniquePacks(packs: Packs) {
    forall p, q :: p in packs && q in packs && packs[p].sha == packs[q].sha ==> p == q
  }

  ghost predicate UniqueBlocks(blocks: Blocks) {
    forall b, c :: b in blocks && c in blocks && blocks[b].sha == blocks[c].sha ==> b == c
  }

  ghost predicate UniqueSnaps(snaps: Snaps) {
    forall m, n :: m in snaps && n in snaps && snaps[m].created == snaps[n].created ==> m == n
  }

  ghost predicate BlocksHavePacks(blocks: Blocks, packs: Packs) {
    forall b :: b in blocks ==> blocks[b].pack in packs
  }

  ghost predicate ItemsHaveSnaps(items: Items, snaps: Snaps) {
    forall i :: i in items ==> i.snap in snaps
  }

  ghost predicate StandsFor(blocks: Blocks, b: BlockId, data: Bytes) {
    b in blocks && blocks[b].sha == Sha256(data) && data in InPlay
  }

  /** Every link stands for the block that was streamed at its ordinal. */
  ghost predicate Recorded(links: Links, items: Items, blocks: Blocks) {
    forall k :: k in links ==>
      && k.item in items && k.ordinal < |items[k.item].parts|
      && StandsFor(blocks, links[k], items[k.item].parts[k.ordinal])
  }

  ghost predicate Hashed(items: Items) {
    forall i :: i in items ==> items[i].sha == Sha256(Concat(items[i].parts))
  }

  predicate Kept(snaps: Snaps, n: SnapId) {
    n in snaps && snaps[n].state != Expired
  }

  /** A snapshot that has not expired still has all its links. */
  ghost predicate Complete(items: Items, snaps: Snaps, links: Links) {
    forall i, n: nat | i in items && n < |items[i].parts| && Kept(snaps, i.snap) :: Link(i, n) in links
  }

  /** Visible snapshots only use READY packs. */
  ghost predicate Rooted(links: Links, snaps: Snaps, blocks: Blocks, packs: Packs) {
    forall k :: k in links && Visible(snaps, k.item.snap) ==>
                  links[k] in blocks && HasState(packs, blocks[links[k]].pack, Ready)
  }

  predicate HasObject(packs: Packs, objects: map<Digest, Bytes>, p: PackId) {
    HasState(packs, p, Ready) && packs[p].sha in objects
  }

  /** As far as the object of a READY pack is in the store, it is the one that was recorded. */
  ghost predicate Addressed(packs: Packs, objects: map<Digest, Bytes>) {
    forall p :: HasObject(packs, objects, p) ==>
                  objects[packs[p].sha] in InPlay && Sha256(objects[packs[p].sha]) == packs[p].sha
  }

  /** Whatever has the digest `sha` holds the block that `row` locates. */
  ghost predicate Holds(sha: Digest, row: BlockRow) {
    forall x :: x in InPlay && Sha256(x) == sha ==> Locates(x, row)
  }

  /** The locators of a READY pack are right, whether or not its object is in the store. */
  ghost predicate Faithful(packs: Packs, blocks: Blocks) {
    forall b :: b in blocks && HasState(packs, blocks[b].pack, Ready) ==> Holds(packs[blocks[b].pack].sha, blocks[b])
  }

  ghost predicate Usable(blocks: Blocks, packs: Packs, known: map<BlockId, Bytes>) {
    forall b :: b in known ==> StandsFor(blocks, b, known[b]) && HasState(packs, blocks[b].pack, Ready)
  }

  ghost predicate DraftUses(draft: Draft, known: map<BlockId, Bytes>, links: Links, snaps: Snaps) {
    draft.HasDraft? ==>
      && !Visible(snaps, draft.snap)
      && forall k :: k in links && k.item.snap == draft.snap ==> links[k] in known
  }

  /** What the holder of the lock may rely on. */
  ghost predicate Held(actor: Actor, links: Links, snaps: Snaps, blocks: Blocks, packs: Packs) {
    match actor
    case Idle => true
    case Worker(draft, known) => Usable(blocks, packs, known) && DraftUses(draft, known, links, snaps)
    case Maintenance(condemned) => forall p :: p in condemned ==> p in packs && Unreferenced(links, snaps, blocks, p)
  }

  ghost predicate Closing(deleting: bool, snaps: Snaps) {
    deleting ==> forall n :: n in snaps ==> !Visible(snaps, n)
  }

  ghost predicate Inv(s: State) {
    && UniquePacks(s.packs) && UniqueBlocks(s.blocks) && UniqueSnaps(s.snaps)
    && BlocksHavePacks(s.blocks, s.packs) && ItemsHaveSnaps(s.items, s.snaps)
    && Recorded(s.links, s.items, s.blocks) && Hashed(s.items)
    && Complete(s.items, s.snaps, s.links)
    && Rooted(s.links, s.snaps, s.blocks, s.packs)
    && Addressed(s.packs, s.objects) && Faithful(s.packs, s.blocks)
    && Held(s.actor, s.links, s.snaps, s.blocks, s.packs)
    && Closing(s.deleting, s.snaps)
  }

  ghost predicate Init(s: State) {
    s == State(map[], map[], map[], map[], map[], map[], false, Idle)
  }

  // ---- Every step keeps it ---------------------------------------------------------------------

  lemma ActorOnly(s: State, actor: Actor)
    requires Inv(s) && Held(actor, s.links, s.snaps, s.blocks, s.packs)
    ensures Inv(s.(actor := actor))
  {
  }

  lemma UploadKeeps(s: State, bytes: Bytes)
    requires Inv(s) && bytes in InPlay
    ensures Inv(s.(objects := s.objects[Sha256(bytes) := bytes]))
  {
  }

  lemma PartialUploadKeeps(s: State, id: Digest, bytes: Bytes)
    requires Inv(s) && NotReady(s.packs, id)
    ensures Inv(s.(objects := s.objects[id := bytes]))
  {
  }

  lemma LookupKeeps(s: State, b: BlockId, data: Bytes)
    requires Inv(s) && s.actor.Worker? && StandsFor(s.blocks, b, data) && HasState(s.packs, s.blocks[b].pack, Ready)
    ensures Inv(s.(actor := s.actor.(known := s.actor.known[b := data])))
  {
    ActorOnly(s, s.actor.(known := s.actor.known[b := data]));
  }

  lemma DraftSnaps(snaps: Snaps, n: SnapId, created: nat)
    requires UniqueSnaps(snaps) && n !in snaps && forall m :: m in snaps ==> snaps[m].created < created
    ensures UniqueSnaps(snaps[n := SnapRow(Publishing, created)])
    ensures forall m :: Visible(snaps[n := SnapRow(Publishing, created)], m) <==> Visible(snaps, m)
  {
  }

  lemma CreateDraftKeeps(s: State, n: SnapId, created: nat)
    requires Inv(s) && s.actor.Worker? && n !in s.snaps
    requires forall m :: m in s.snaps ==> s.snaps[m].created < created
    ensures Inv(s.(snaps := s.snaps[n := SnapRow(Publishing, created)], actor := s.actor.(draft := HasDraft(n))))
  {
    DraftSnaps(s.snaps, n, created);
    AddDraftKeeps(s, n, s.snaps[n := SnapRow(Publishing, created)]);
  }

  lemma AddDraftKeeps(s: State, n: SnapId, snaps: Snaps)
    requires Inv(s) && s.actor.Worker? && n !in s.snaps && snaps.Keys == s.snaps.Keys + {n} && UniqueSnaps(snaps)
    requires forall m :: m in s.snaps ==> snaps[m] == s.snaps[m]
    requires forall m :: Visible(snaps, m) <==> Visible(s.snaps, m)
    ensures Inv(s.(snaps := snaps, actor := s.actor.(draft := HasDraft(n))))
  {
  }

  lemma PublishKeeps(s: State, n: SnapId, state: SnapState)
    requires Inv(s) && s.actor.Worker? && s.actor.draft == HasDraft(n) && !s.deleting
    requires n in s.snaps && s.snaps[n].state == Publishing && (state == Available || state == Partial)
    ensures Inv(s.(snaps := s.snaps[n := s.snaps[n].(state := state)], actor := s.actor.(draft := NoDraft)))
  {
  }

  lemma DropDraftKeeps(s: State, n: SnapId)
    requires Inv(s) && n in s.snaps && s.snaps[n].state == Publishing
    ensures Inv(RemoveSnapshot(s, n))
  {
  }

  /** Some snapshots that had not expired became EXPIRED or DAMAGED; nothing else changed. */
  ghost predicate Hidden(snaps: Snaps, snaps': Snaps) {
    && snaps'.Keys == snaps.Keys
    && forall n :: n in snaps' ==>
         && snaps'[n].created == snaps[n].created
         && (snaps'[n].state != snaps[n].state ==>
               Kept(snaps, n) && (snaps'[n].state == Expired || snaps'[n].state == Corrupt))
  }

  lemma HideFewer(snaps: Snaps, snaps': Snaps)
    requires Hidden(snaps, snaps')
    ensures forall n :: Visible(snaps', n) ==> Visible(snaps, n)
    ensures forall n :: Kept(snaps', n) ==> Kept(snaps, n)
    ensures UniqueSnaps(snaps) ==> UniqueSnaps(snaps')
  {
  }

  lemma HideRooted(links: Links, snaps: Snaps, snaps': Snaps, blocks: Blocks, packs: Packs, actor: Actor)
    requires Hidden(snaps, snaps')
    requires Rooted(links, snaps, blocks, packs) && Held(actor, links, snaps, blocks, packs)
    ensures Rooted(links, snaps', blocks, packs) && Held(actor, links, snaps', blocks, packs)
  {
    HideFewer(snaps, snaps');
  }

  lemma HideComplete(items: Items, snaps: Snaps, snaps': Snaps, links: Links)
    requires Hidden(snaps, snaps') && Complete(items, snaps, links)
    ensures Complete(items, snaps', links)
  {
    HideFewer(snaps, snaps');
  }

  /** Hiding snapshots keeps the invariant. */
  lemma HideKeeps(s: State, snaps: Snaps, deleting: bool)
    requires Inv(s) && Hidden(s.snaps, snaps) && Closing(deleting, snaps)
    ensures Inv(s.(snaps := snaps, deleting := deleting))
  {
    HideFewer(s.snaps, snaps);
    HideRooted(s.links, s.snaps, snaps, s.blocks, s.packs, s.actor);
    HideComplete(s.items, s.snaps, snaps, s.links);
  }

  lemma DeleteObjectKeeps(s: State, sha: Digest)
    requires Inv(s)
    ensures Inv(s.(objects := s.objects - {sha}))
  {
  }

  /** `links'` is `links` with the ordinals 0..|refs|-1 of a new item added. */
  ghost predicate LinkedItem(links: Links, item: ItemKey, refs: seq<BlockId>, links': Links) {
    && (forall k :: k in links' && k.item != item ==> k in links && links'[k] == links[k])
    && (forall k :: k in links ==> k in links')
    && (forall i :: 0 <= i < |refs| ==> Link(item, i) in links')
    && (forall k :: k in links' && k.item == item ==> k.ordinal < |refs| && links'[k] == refs[k.ordinal])
  }

  lemma WriteLinks(s: State, item: ItemKey, refs: seq<BlockId>, parts: seq<Bytes>, sha: Digest, size: nat)
    requires forall k :: k in s.links ==> k.item != item
    ensures LinkedItem(s.links, item, refs, WriteItemRows(s, item, refs, parts, sha, size).links)
  {
  }

  lemma WriteRecorded(links: Links, item: ItemKey, refs: seq<BlockId>, parts: seq<Bytes>, links': Links,
                      items: Items, blocks: Blocks, row: ItemRow)
    requires LinkedItem(links, item, refs, links') && Recorded(links, items, blocks)
    requires row.parts == parts && |parts| == |refs|
    requires forall i :: 0 <= i < |refs| ==> StandsFor(blocks, refs[i], parts[i])
    ensures Recorded(links', items[item := row], blocks)
  {
  }

  lemma WriteComplete(links: Links, item: ItemKey, refs: seq<BlockId>, links': Links,
                      items: Items, snaps: Snaps, row: ItemRow)
    requires LinkedItem(links, item, refs, links') && Complete(items, snaps, links) && |row.parts| == |refs|
    ensures Complete(items[item := row], snaps, links')
  {
  }

  lemma WriteRooted(links: Links, item: ItemKey, refs: seq<BlockId>, links': Links,
                    snaps: Snaps, blocks: Blocks, packs: Packs)
    requires LinkedItem(links, item, refs, links') && Rooted(links, snaps, blocks, packs) && !Visible(snaps, item.snap)
    ensures Rooted(links', snaps, blocks, packs)
  {
  }

  lemma WriteDraft(links: Links, item: ItemKey, refs: seq<BlockId>, links': Links, snaps: Snaps,
                   known: map<BlockId, Bytes>)
    requires LinkedItem(links, item, refs, links') && DraftUses(HasDraft(item.snap), known, links, snaps)
    requires forall i :: 0 <= i < |refs| ==> refs[i] in known
    ensures DraftUses(HasDraft(item.snap), known, links', snaps)
  {
  }

  lemma WriteRow(items: Items, snaps: Snaps, item: ItemKey, row: ItemRow)
    requires Hashed(items) && ItemsHaveSnaps(items, snaps) && item.snap in snaps && row.sha == Sha256(Concat(row.parts))
    ensures Hashed(items[item := row]) && ItemsHaveSnaps(items[item := row], snaps)
  {
  }

  lemma WriteItemKeeps(s: State, item: ItemKey, refs: seq<BlockId>, parts: seq<Bytes>, sha: Digest, size: nat)
    requires Inv(s) && s.actor.Worker? && s.actor.draft == HasDraft(item.snap) && item.snap in s.snaps
    requires item !in s.items
    requires |parts| == |refs| && sha == Sha256(Concat(parts))
    requires forall i :: 0 <= i < |refs| ==> refs[i] in s.actor.known && s.actor.known[refs[i]] == parts[i]
    ensures Inv(WriteItemRows(s, item, refs, parts, sha, size))
  {
    var t := WriteItemRows(s, item, refs, parts, sha, size);
    WriteLinks(s, item, refs, parts, sha, size);
    WriteRecorded(s.links, item, refs, parts, t.links, s.items, s.blocks, t.items[item]);
    WriteComplete(s.links, item, refs, t.links, s.items, s.snaps, t.items[item]);
    WriteRooted(s.links, item, refs, t.links, s.snaps, s.blocks, s.packs);
    WriteDraft(s.links, item, refs, t.links, s.snaps, s.actor.known);
    WriteRow(s.items, s.snaps, item, t.items[item]);
  }

  /** A validated pack holds each of its entries at the locator that is recorded for it. */
  lemma PackHolds(bytes: Bytes, entries: seq<Entry>, p: PackId, i: nat)
    requires CollisionFree() && bytes in InPlay && IsPackOf(bytes, entries) && i < |entries|
    requires entries[i].data in InPlay
    ensures Holds(Sha256(bytes), LocatorOf(p, entries, i))
  {
    PayloadSlice(entries, i);
    assert entries[i] in entries;
    assert Locates(bytes, LocatorOf(p, entries, i));
  }

  /** Block row b after the entries were placed as pack p: either untouched, or the locator of its entry. */
  ghost predicate PlacedRow(blocks: Blocks, p: PackId, entries: seq<Entry>, ids: seq<BlockId>, b: BlockId,
                            row: BlockRow) {
    || (b !in ids && b in blocks && row == blocks[b])
    || (exists i :: 0 <= i < |ids| == |entries| && ids[i] == b && row == LocatorOf(p, entries, i))
  }

  ghost predicate Placed(blocks: Blocks, p: PackId, entries: seq<Entry>, ids: seq<BlockId>, blocks': Blocks) {
    && (forall b :: b in blocks ==> b in blocks')
    && (forall b :: b in blocks' ==> PlacedRow(blocks, p, entries, ids, b, blocks'[b]))
  }

  predicate NoRepeat(ids: seq<BlockId>, n: nat)
    requires n <= |ids|
  {
    forall i, j :: 0 <= i < j < n ==> ids[i] != ids[j]
  }

  predicate Among(ids: seq<BlockId>, n: nat, b: BlockId)
    requires n <= |ids|
  {
    exists i :: 0 <= i < n && ids[i] == b
  }

  lemma {:induction false} PlaceListed(blocks: Blocks, p: PackId, entries: seq<Entry>, ids: seq<BlockId>, n: nat,
                                       i: nat)
    requires i < n <= |ids| == |entries| && NoRepeat(ids, n)
    ensures var r := Place(blocks, p, entries, ids, n); ids[i] in r && r[ids[i]] == LocatorOf(p, entries, i)
    decreases n
  {
    if i < n - 1 {
      PlaceListed(blocks, p, entries, ids, n - 1, i);
    }
  }

  lemma {:induction false} PlaceOther(blocks: Blocks, p: PackId, entries: seq<Entry>, ids: seq<BlockId>, n: nat,
                                      b: BlockId)
    requires n <= |ids| == |entries| && !Among(ids, n, b)
    ensures var r := Place(blocks, p, entries, ids, n); (b in r <==> b in blocks) && (b in blocks ==> r[b] == blocks[b])
  {
    if n > 0 {
      assert ids[n - 1] != b;
      PlaceOther(blocks, p, entries, ids, n - 1, b);
    }
  }

  lemma PlaceContents(blocks: Blocks, p: PackId, entries: seq<Entry>, ids: seq<BlockId>, n: nat)
    requires n <= |ids| == |entries| && NoRepeat(ids, n)
    ensures var r := Place(blocks, p, entries, ids, n);
            && (forall i :: 0 <= i < n ==> ids[i] in r && r[ids[i]] == LocatorOf(p, entries, i))
            && (forall b :: !Among(ids, n, b) ==> (b in r <==> b in blocks) && (b in blocks ==> r[b] == blocks[b]))
  {
    var r := Place(blocks, p, entries, ids, n);
    forall i | 0 <= i < n ensures ids[i] in r && r[ids[i]] == LocatorOf(p, entries, i) {
      PlaceListed(blocks, p, entries, ids, n, i);
    }
    forall b | !Among(ids, n, b) ensures (b in r <==> b in blocks) && (b in blocks ==> r[b] == blocks[b]) {
      PlaceOther(blocks, p, entries, ids, n, b);
    }
  }

  lemma PlaceIsPlaced(blocks: Blocks, p: PackId, entries: seq<Entry>, ids: seq<BlockId>)
    requires |ids| == |entries| && Distinct(ids)
    ensures Placed(blocks, p, entries, ids, Place(blocks, p, entries, ids, |ids|))
  {
    PlaceContents(blocks, p, entries, ids, |ids|);
  }

  /** Storing entries as a new READY pack by moving existing rows keeps every row's hash. */
  lemma MoveKeepsBlocks(blocks: Blocks, p: PackId, entries: seq<Entry>, ids: seq<BlockId>, blocks': Blocks)
    requires Placed(blocks, p, entries, ids, blocks') && UniqueBlocks(blocks)
    requires forall i :: 0 <= i < |ids| == |entries| ==> ids[i] in blocks && blocks[ids[i]].sha == entries[i].hash
    ensures UniqueBlocks(blocks') && forall b :: b in blocks' ==> b in blocks && blocks'[b].sha == blocks[b].sha
  {
  }

  lemma MovedRows(blocks: Blocks, p: PackId, entries: seq<Entry>, ids: seq<BlockId>, blocks': Blocks,
                  packs: Packs, row: PackRow)
    requires Placed(blocks, p, entries, ids, blocks') && BlocksHavePacks(blocks, packs) && p !in packs
    ensures BlocksHavePacks(blocks', packs[p := row])
    ensures forall b :: b in blocks' ==> blocks'[b].pack == p || (b in blocks && blocks'[b] == blocks[b])
  {
  }

  lemma MoveRecorded(links: Links, items: Items, blocks: Blocks, blocks': Blocks)
    requires Recorded(links, items, blocks)
    requires forall b :: b in blocks ==> b in blocks' && blocks'[b].sha == blocks[b].sha
    ensures Recorded(links, items, blocks')
  {
  }

  lemma MoveRooted(links: Links, snaps: Snaps, blocks: Blocks, blocks': Blocks, packs: Packs, p: PackId, row: PackRow,
                   actor: Actor)
    requires Rooted(links, snaps, blocks, packs) && Held(actor, links, snaps, blocks, packs) && p !in packs
    requires row.state == Ready
    requires BlocksHavePacks(blocks, packs) && Moved(blocks, packs, p, blocks')
    ensures Rooted(links, snaps, blocks', packs[p := row])
    ensures Held(actor, links, snaps, blocks', packs[p := row])
  {
  }

  predicate SameHashes(blocks: Blocks, entries: seq<Entry>, ids: seq<BlockId>) {
    |ids| == |entries| && forall i :: 0 <= i < |ids| ==> ids[i] in blocks && blocks[ids[i]].sha == entries[i].hash
  }

  /** All that moving rows to a new pack does to the block table. */
  ghost predicate Moved(blocks: Blocks, packs: Packs, p: PackId, blocks': Blocks) {
    && (forall b :: b in blocks ==> b in blocks' && blocks'[b].sha == blocks[b].sha)
    && (forall b :: b in blocks' ==> blocks'[b].pack == p || (b in blocks && blocks'[b] == blocks[b]))
  }

  lemma MoveRows(s: State, p: PackId, sha: Digest, entries: seq<Entry>, ids: seq<BlockId>)
    requires SameHashes(s.blocks, entries, ids) && Distinct(ids)
    requires UniqueBlocks(s.blocks) && BlocksHavePacks(s.blocks, s.packs) && p !in s.packs
    ensures var t := RecordPack(s, p, sha, entries, ids);
            && Moved(s.blocks, s.packs, p, t.blocks)
            && UniqueBlocks(t.blocks) && BlocksHavePacks(t.blocks, t.packs)
  {
    var t := RecordPack(s, p, sha, entries, ids);
    PlaceIsPlaced(s.blocks, p, entries, ids);
    MovedRows(s.blocks, p, entries, ids, t.blocks, s.packs, t.packs[p]);
    MoveKeepsBlocks(s.blocks, p, entries, ids, t.blocks);
  }

  /** New rows have new hashes, so hashes stay unique. */
  lemma InsertedUnique(s: State, p: PackId, entries: seq<Entry>, ids: seq<BlockId>, blocks': Blocks)
    requires NewBlockRows(s, entries, ids) && UniqueBlocks(s.blocks) && Placed(s.blocks, p, entries, ids, blocks')
    ensures UniqueBlocks(blocks') && forall b :: b in s.blocks ==> b in blocks' && blocks'[b].sha == s.blocks[b].sha
  {
    forall b, c | b in blocks' && c in blocks' && blocks'[b].sha == blocks'[c].sha
      ensures b == c
    {
      assert PlacedRow(s.blocks, p, entries, ids, b, blocks'[b]);
      assert PlacedRow(s.blocks, p, entries, ids, c, blocks'[c]);
    }
  }

  lemma InsertRows(s: State, p: PackId, sha: Digest, entries: seq<Entry>, ids: seq<BlockId>)
    requires NewBlockRows(s, entries, ids)
    requires UniqueBlocks(s.blocks) && BlocksHavePacks(s.blocks, s.packs) && p !in s.packs
    ensures var t := RecordPack(s, p, sha, entries, ids);
            && Moved(s.blocks, s.packs, p, t.blocks)
            && UniqueBlocks(t.blocks) && BlocksHavePacks(t.blocks, t.packs)
  {
    var t := RecordPack(s, p, sha, entries, ids);
    PlaceIsPlaced(s.blocks, p, entries, ids);
    MovedRows(s.blocks, p, entries, ids, t.blocks, s.packs, t.packs[p]);
    InsertedUnique(s, p, entries, ids, t.blocks);
  }

  lemma PlacedKeeps(s: State, p: PackId, sha: Digest, entries: seq<Entry>, ids: seq<BlockId>)
    requires Inv(s) && CollisionFree() && ValidatedObject(s, sha, entries)
    requires NewPackRow(s, p, sha) && |ids| == |entries| && Distinct(ids)
    requires var t := RecordPack(s, p, sha, entries, ids);
             Moved(s.blocks, s.packs, p, t.blocks) && UniqueBlocks(t.blocks) && BlocksHavePacks(t.blocks, t.packs)
    ensures Inv(RecordPack(s, p, sha, entries, ids))
  {
    var t := RecordPack(s, p, sha, entries, ids);
    MoveRecorded(s.links, s.items, s.blocks, t.blocks);
    MoveRooted(s.links, s.snaps, s.blocks, t.blocks, s.packs, p, t.packs[p], s.actor);
    PlacedFaithful(s, p, sha, entries, ids);
  }

  lemma LearnedUsable(blocks: Blocks, packs: Packs, known: map<BlockId, Bytes>, entries: seq<Entry>, ids: seq<BlockId>)
    requires |ids| == |entries| && Distinct(ids) && Usable(blocks, packs, known)
    requires forall i :: 0 <= i < |ids| ==>
               StandsFor(blocks, ids[i], entries[i].data) && HasState(packs, blocks[ids[i]].pack, Ready)
    ensures Usable(blocks, packs, Learned(known, entries, ids))
  {
  }

  lemma RecordKeeps(s: State, p: PackId, sha: Digest, entries: seq<Entry>, ids: seq<BlockId>)
    requires Inv(s) && CollisionFree() && s.actor.Worker? && ValidatedObject(s, sha, entries)
    requires NewPackRow(s, p, sha) && NewBlockRows(s, entries, ids)
    ensures Inv(RecordPack(s, p, sha, entries, ids).(actor := s.actor.(known := Learned(s.actor.known, entries, ids))))
  {
    var t := RecordPack(s, p, sha, entries, ids);
    InsertRows(s, p, sha, entries, ids);
    PlacedKeeps(s, p, sha, entries, ids);
    PlaceContents(s.blocks, p, entries, ids, |ids|);
    forall i | 0 <= i < |ids|
      ensures StandsFor(t.blocks, ids[i], entries[i].data) && HasState(t.packs, t.blocks[ids[i]].pack, Ready)
    {
      assert entries[i] in entries;
    }
    LearnedUsable(t.blocks, t.packs, s.actor.known, entries, ids);
    ActorOnly(t, s.actor.(known := Learned(s.actor.known, entries, ids)));
  }

  /** After the locator switch no visible snapshot needs the old pack. */
  lemma SwitchFrees(s: State, source: PackId, p: PackId, sha: Digest, entries: seq<Entry>, ids: seq<BlockId>)
    requires source != p && |ids| == |entries| && Distinct(ids)
    requires MovesLive(s, source, ids)
    ensures Unreferenced(s.links, s.snaps, RecordPack(s, p, sha, entries, ids).blocks, source)
  {
    PlaceIsPlaced(s.blocks, p, entries, ids);
    var blocks' := RecordPack(s, p, sha, entries, ids).blocks;
    forall k | k in s.links && Visible(s.snaps, k.item.snap)
      ensures !InPack(blocks', s.links[k], source)
    {
      var b := s.links[k];
      assert Live(s.links, s.snaps, b);
      assert b in blocks' ==> PlacedRow(s.blocks, p, entries, ids, b, blocks'[b]);
    }
  }

  /** Purging keeps a pack unreferenced: it only removes links and rows. */
  lemma PurgeFrees(s: State, p: PackId, q: PackId)
    requires Unreferenced(s.links, s.snaps, s.blocks, q)
    ensures Unreferenced(Purge(s, p).links, s.snaps, Purge(s, p).blocks, q)
  {
  }

  lemma MarkDeletedKeeps(s: State, p: PackId)
    requires Inv(s) && s.actor.Maintenance? && p in s.packs && Unreferenced(s.links, s.snaps, s.blocks, p)
    ensures Inv(MarkPackDeleted(s, p))
  {
    PurgeKeeps(s, p);
    PurgeFrees(s, p, p);
    RetireKeeps(Purge(s, p), p, Deleted);
  }

  lemma SwitchKeeps(s: State, source: PackId, p: PackId, sha: Digest, entries: seq<Entry>, ids: seq<BlockId>)
    requires Inv(s) && CollisionFree() && s.actor.Maintenance? && ValidatedObject(s, sha, entries)
    requires HasState(s.packs, source, Ready) && NewPackRow(s, p, sha) && LocatorsMatch(s, source, entries, ids)
    requires MovesLive(s, source, ids)
    ensures Inv(ReplaceLocators(s, source, p, sha, entries, ids).(actor := Maintenance(s.actor.condemned + {source})))
  {
    MoveRows(s, p, sha, entries, ids);
    PlacedKeeps(s, p, sha, entries, ids);
    SwitchFrees(s, source, p, sha, entries, ids);
    RetireSource(RecordPack(s, p, sha, entries, ids), source);
  }

  lemma RetireSource(t: State, source: PackId)
    requires Inv(t) && t.actor.Maintenance? && HasState(t.packs, source, Ready)
    requires Unreferenced(t.links, t.snaps, t.blocks, source)
    ensures var u := Purge(t, source);
            Inv(u.(packs := u.packs[source := u.packs[source].(state := DeletePending)],
                   actor := Maintenance(u.actor.condemned + {source})))
  {
    PurgeKeeps(t, source);
    PurgeFrees(t, source, source);
    var u := Purge(t, source);
    RetireKeeps(u, source, DeletePending);
    var v := u.(packs := u.packs[source := u.packs[source].(state := DeletePending)]);
    ActorOnly(v, Maintenance(u.actor.condemned + {source}));
  }

  lemma PlacedFaithful(s: State, p: PackId, sha: Digest, entries: seq<Entry>, ids: seq<BlockId>)
    requires CollisionFree() && ValidatedObject(s, sha, entries) && Faithful(s.packs, s.blocks)
    requires BlocksHavePacks(s.blocks, s.packs)
    requires NewPackRow(s, p, sha) && |ids| == |entries| && Distinct(ids)
    ensures Faithful(RecordPack(s, p, sha, entries, ids).packs, RecordPack(s, p, sha, entries, ids).blocks)
  {
    var t := RecordPack(s, p, sha, entries, ids);
    PlaceIsPlaced(s.blocks, p, entries, ids);
    forall b | b in t.blocks && HasState(t.packs, t.blocks[b].pack, Ready)
      ensures Holds(t.packs[t.blocks[b].pack].sha, t.blocks[b])
    {
      assert PlacedRow(s.blocks, p, entries, ids, b, t.blocks[b]);
      if b in ids {
        var i :| 0 <= i < |ids| && ids[i] == b && t.blocks[b] == LocatorOf(p, entries, i);
        assert entries[i] in entries;
        PackHolds(s.objects[sha], entries, p, i);
      }
    }
  }

  lemma PurgeKeeps(s: State, p: PackId)
    requires Inv(s) && !s.actor.Worker?
    ensures Inv(Purge(s, p))
  {
  }

  /** A pack no visible snapshot needs may leave the READY state. */
  lemma RetireKeeps(s: State, p: PackId, state: PackState)
    requires Inv(s) && !s.actor.Worker? && p in s.packs && state != Ready && Unreferenced(s.links, s.snaps, s.blocks, p)
    ensures Inv(s.(packs := s.packs[p := s.packs[p].(state := state)]))
  {
  }

  lemma DamageHides(s: State, p: PackId)
    ensures Hidden(s.snaps, DamageSnapshots(s, p))
    ensures Unreferenced(s.links, DamageSnapshots(s, p), s.blocks, p)
  {
  }

  lemma DamageKeeps(s: State, p: PackId)
    requires Inv(s) && !s.actor.Worker? && p in s.packs
    ensures Inv(MarkPackDamaged(s, p))
  {
    DamageHides(s, p);
    HideAndRetire(s, DamageSnapshots(s, p), p);
  }

  lemma HideAndRetire(s: State, snaps: Snaps, p: PackId)
    requires Inv(s) && !s.actor.Worker? && p in s.packs
    requires Hidden(s.snaps, snaps) && Unreferenced(s.links, snaps, s.blocks, p)
    ensures Inv(s.(packs := s.packs[p := s.packs[p].(state := Damaged)], snaps := snaps))
  {
    HideFewer(s.snaps, snaps);
    HideKeeps(s, snaps, s.deleting);
    RetireKeeps(s.(snaps := snaps), p, Damaged);
  }
}
