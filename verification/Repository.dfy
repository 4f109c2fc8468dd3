/**
  The backup repository of one job as a transition system: the remote pack objects, the catalog tables and
  the holder of the job's advisory lock. Every SQL transaction and every remote call is one step, so a crash
  between any two of them is a behaviour.
 */
module Repository {
  import opened Bytes
  import opened PackFormat

  /** Catalog IDs are 36-character UUIDs, so they never equal a 32-byte hash key. */
  type BlockId = s: Bytes | |s| == 36 witness seq(36, _ => 0)
  type PackId = nat
  type SnapId = nat
  type Path = string

  datatype PackState = Ready | DeletePending | Deleted | Damaged
  /** size_bytes is constrained to be positive. */
  type PackSize = n: nat | n > 0 witness 1

  datatype PackRow = PackRow(sha: Digest, state: PackState, size: PackSize)

  datatype BlockRow = BlockRow(sha: Digest, pack: PackId, offset: nat, length: nat)

  datatype SnapState = Publishing | Available | Partial | Expired | Corrupt
  datatype SnapRow = SnapRow(state: SnapState, created: nat)

  datatype ItemKey = ItemKey(snap: SnapId, path: Path)

  /** `parts` is a history variable: the blocks of the file as they were streamed when it was backed up. */
  datatype ItemRow = ItemRow(parts: seq<Bytes>, sha: Digest, size: nat)

  datatype Link = Link(item: ItemKey, ordinal: nat)

  /**
    The holder of the advisory lock. A worker remembers, for every block ID it obtained, the payload it stands
    for; a maintenance pass remembers the packs it has decided to delete.
   */
  datatype Actor =
    | Idle
    | Worker(draft: Draft, known: map<BlockId, Bytes>)
    | Maintenance(condemned: set<PackId>)

  datatype Draft = NoDraft | HasDraft(snap: SnapId)

  datatype State = State(
    objects: map<Digest, Bytes>,
    packs: Packs,
    blocks: Blocks,
    snaps: Snaps,
    items: Items,
    links: Links,
    deleting: bool,
    actor: Actor)

  // ---- Reading the tables ----------------------------------------------------------------------

  type Packs = map<PackId, PackRow>
  type Blocks = map<BlockId, BlockRow>
  type Snaps = map<SnapId, SnapRow>
  type Items = map<ItemKey, ItemRow>
  type Links = map<Link, BlockId>

  predicate Visible(snaps: Snaps, n: SnapId) {
    n in snaps && (snaps[n].state == Available || snaps[n].state == Partial)
  }

  predicate HasState(packs: Packs, p: PackId, state: PackState) {
    p in packs && packs[p].state == state
  }

  predicate InPack(blocks: Blocks, b: BlockId, p: PackId) {
    b in blocks && blocks[b].pack == p
  }

  /** No READY pack is stored under this name; workers only upload what they did not find in a READY pack. */
  predicate NotReady(packs: Packs, id: Digest) {
    forall p :: p in packs && packs[p].state == Ready ==> packs[p].sha != id
  }

  /** No READY or PARTIAL snapshot needs pack p. */
  predicate Unreferenced(links: Links, snaps: Snaps, blocks: Blocks, p: PackId) {
    forall k :: k in links && Visible(snaps, k.item.snap) ==> !InPack(blocks, links[k], p)
  }

  predicate Live(links: Links, snaps: Snaps, b: BlockId) {
    exists k :: k in links && links[k] == b && Visible(snaps, k.item.snap)
  }

  // ---- The tables' transactions ----------------------------------------------------------------

  /** The locator of entries[i] once the entries are stored as pack p. */
  function LocatorOf(p: PackId, entries: seq<Entry>, i: nat): BlockRow
    requires i < |entries|
  {
    BlockRow(entries[i].hash, p, PayloadOffset(entries, i), |entries[i].data|)
  }

  predicate Distinct<T(==)>(xs: seq<T>) {
    forall i, j :: 0 <= i < j < |xs| ==> xs[i] != xs[j]
  }

  /** The block table after the first n rows ids[..n] were written, one INSERT or UPDATE each. */
  function Place(blocks: Blocks, p: PackId, entries: seq<Entry>, ids: seq<BlockId>, n: nat)
    : Blocks
    requires n <= |ids| == |entries|
  {
    if n == 0 then blocks
    else Place(blocks, p, entries, ids, n - 1)[ids[n - 1] := LocatorOf(p, entries, n - 1)]
  }

  /** Drops the links of EXPIRED snapshots into p, then every block row of p that no link needs. */
  function Purge(s: State, p: PackId): (r: State)
    ensures r.snaps == s.snaps && r.items == s.items && r.packs == s.packs && r.objects == s.objects
    ensures r.actor == s.actor && r.deleting == s.deleting
    ensures forall k :: k in r.links ==> k in s.links && r.links[k] == s.links[k]
    ensures forall k :: k in s.links && (k.item.snap !in s.snaps || s.snaps[k.item.snap].state != Expired) ==>
      k in r.links
    ensures forall b :: b in r.blocks ==> b in s.blocks && r.blocks[b] == s.blocks[b]
    ensures forall b :: b in s.blocks && s.blocks[b].pack != p ==> b in r.blocks
    ensures forall k :: k in r.links && r.links[k] in s.blocks ==> r.links[k] in r.blocks
    ensures forall b :: b in r.blocks && r.blocks[b].pack == p ==> b in r.links.Values
  {
    var links := map k | k in s.links && !(k.item.snap in s.snaps && s.snaps[k.item.snap].state == Expired
                                           && InPack(s.blocks, s.links[k], p)) :: s.links[k];
    s.(links := links,
       blocks := map b | b in s.blocks && (s.blocks[b].pack != p || b in links.Values) :: s.blocks[b])
  }

  /** The bytes of an object that a block row locates. */
  ghost predicate Locates(stored: Bytes, row: BlockRow) {
    && 0 < row.length && row.offset + row.length <= |stored|
    && var slice := stored[row.offset..row.offset + row.length];
       Sha256(slice) == row.sha && slice in InPlay
  }

  // ---- The transition system -------------------------------------------------------------------

  datatype Step =
    | StartWorker
    | StartMaintenance
    | Stop
    | Upload(bytes: Bytes)
    | PartialUpload(id: Digest, bytes: Bytes)
    | Lookup(block: BlockId, data: Bytes)
    | Reuse(link: Link)
    | Record(pack: PackId, sha: Digest, entries: seq<Entry>, ids: seq<BlockId>)
    | CreateDraft(snap: SnapId, created: nat)
    | WriteItem(path: Path, refs: seq<BlockId>, sha: Digest, size: nat)
    | Publish(partial: bool, order: seq<PackId>, start: nat)
    | DropDraft(snap: SnapId)
    | Expire(keep: nat)
    | Condemn(pack: PackId)
    | DeleteObject(pack: PackId)
    | MarkDeleted(pack: PackId)
    | SwitchLocators(source: PackId, pack: PackId, sha: Digest, entries: seq<Entry>, ids: seq<BlockId>)
    | MarkDamaged(pack: PackId)
    | RequestDeletion

  /** Whether `object`, found in the store under `id`, passed ValidatePack with these entries. */
  ghost predicate ValidatedObject(s: State, id: Digest, entries: seq<Entry>) {
    && id in s.objects && Sha256(s.objects[id]) == id && IsPackOf(s.objects[id], entries)
    && s.objects[id] in InPlay
    && forall e :: e in entries ==> e.data in InPlay
  }

  /** The UNIQUE constraints on packs, over rows in every state. */
  predicate NewPackRow(s: State, p: PackId, sha: Digest) {
    p !in s.packs && forall q :: q in s.packs ==> s.packs[q].sha != sha
  }

  predicate NewBlockRows(s: State, entries: seq<Entry>, ids: seq<BlockId>) {
    && |ids| == |entries| > 0 && Distinct(ids)
    && (forall i :: 0 <= i < |ids| ==> ids[i] !in s.blocks)
    && (forall i, j :: 0 <= i < j < |entries| ==> entries[i].hash != entries[j].hash)
    && (forall i, b :: 0 <= i < |entries| && b in s.blocks ==> s.blocks[b].sha != entries[i].hash)
  }

  /** The size recorded for a pack of these entries. */
  function EncodedSize(entries: seq<Entry>): PackSize {
    PREFIX_SIZE + |Frames(entries)| + FOOTER_SIZE
  }

  function RecordPack(s: State, p: PackId, sha: Digest, entries: seq<Entry>, ids: seq<BlockId>): State
    requires |ids| == |entries|
  {
    s.(packs := s.packs[p := PackRow(sha, Ready, EncodedSize(entries))],
       blocks := Place(s.blocks, p, entries, ids, |ids|))
  }

  /** Each UPDATE of ReplaceBackupPackLocatorsContext hits exactly one row: id, old pack and hash all match. */
  predicate LocatorsMatch(s: State, source: PackId, entries: seq<Entry>, ids: seq<BlockId>) {
    && |ids| == |entries| > 0 && Distinct(ids)
    && forall i :: 0 <= i < |ids| ==> InPack(s.blocks, ids[i], source) && s.blocks[ids[i]].sha == entries[i].hash
  }

  function ReplaceLocators(s: State, source: PackId, p: PackId, sha: Digest, entries: seq<Entry>,
                           ids: seq<BlockId>): State
    requires source in s.packs && p != source && LocatorsMatch(s, source, entries, ids)
  {
    var t := Purge(RecordPack(s, p, sha, entries, ids), source);
    if t.packs[source].state == Ready
    then t.(packs := t.packs[source := t.packs[source].(state := DeletePending)])
    else t
  }

  function MarkPackDeleted(s: State, p: PackId): State
    requires p in s.packs
  {
    var t := Purge(s, p);
    t.(packs := t.packs[p := t.packs[p].(state := Deleted)])
  }

  /** The snapshots MarkBackupPackDamagedContext turns DAMAGED. */
  function DamageSnapshots(s: State, p: PackId): Snaps {
    map n | n in s.snaps ::
      if (Visible(s.snaps, n) || s.snaps[n].state == Publishing)
         && exists k :: k in s.links && k.item.snap == n && InPack(s.blocks, s.links[k], p)
      then s.snaps[n].(state := Corrupt)
      else s.snaps[n]
  }

  function MarkPackDamaged(s: State, p: PackId): State
    requires p in s.packs
  {
    s.(packs := s.packs[p := s.packs[p].(state := Damaged)], snaps := DamageSnapshots(s, p))
  }

  /** The visible snapshots created after n: row_number() OVER (ORDER BY created_at DESC) is their count + 1. */
  function Newer(s: State, n: SnapId): set<SnapId>
    requires n in s.snaps
  {
    set m | m in s.snaps && Visible(s.snaps, m) && s.snaps[m].created > s.snaps[n].created
  }

  function ExpireSnapshots(s: State, keep: nat): State {
    s.(snaps := map n | n in s.snaps ::
         if Visible(s.snaps, n) && |Newer(s, n)| >= keep then s.snaps[n].(state := Expired) else s.snaps[n])
  }

  function RequestRepositoryDeletion(s: State): State {
    s.(deleting := true,
       snaps := map n | n in s.snaps ::
         if Visible(s.snaps, n) || s.snaps[n].state == Publishing then s.snaps[n].(state := Expired) else s.snaps[n])
  }

  /** Deleting a PUBLISHING snapshot cascades to its items and links. */
  function RemoveSnapshot(s: State, n: SnapId): State {
    s.(snaps := s.snaps - {n},
       items := map i | i in s.items && i.snap != n :: s.items[i],
       links := map k | k in s.links && k.item.snap != n :: s.links[k])
  }

  function WriteItemRows(s: State, item: ItemKey, refs: seq<BlockId>, parts: seq<Bytes>, sha: Digest,
                         size: nat): State {
    s.(items := s.items[item := ItemRow(parts, sha, size)],
       links := s.links + map i | 0 <= i < |refs| :: Link(item, i) := refs[i])
  }

  ghost predicate StartWorkerStep(s: State, t: State) {
    s.actor == Idle && !s.deleting && t == s.(actor := Worker(NoDraft, map[]))
  }

  ghost predicate StartMaintenanceStep(s: State, t: State) {
    s.actor == Idle && t == s.(actor := Maintenance({}))
  }

  /** The holder finishes, or its process crashes; either way the session lock is released. */
  ghost predicate StopStep(s: State, t: State) {
    s.actor != Idle && t == s.(actor := Idle)
  }

  ghost predicate UploadStep(s: State, bytes: Bytes, t: State) {
    s.actor != Idle && bytes in InPlay && t == s.(objects := s.objects[Sha256(bytes) := bytes])
  }

  /** An upload that broke off leaves arbitrary bytes under a name no READY pack uses. */
  ghost predicate PartialUploadStep(s: State, id: Digest, bytes: Bytes, t: State) {
    s.actor != Idle && NotReady(s.packs, id) && t == s.(objects := s.objects[id := bytes])
  }

  /** FindBackupBlockContext. */
  ghost predicate LookupStep(s: State, b: BlockId, data: Bytes, t: State) {
    && s.actor.Worker? && data in InPlay
    && b in s.blocks && s.blocks[b].sha == Sha256(data) && HasState(s.packs, s.blocks[b].pack, Ready)
    && t == s.(actor := s.actor.(known := s.actor.known[b := data]))
  }

  /** One block reference of an unchanged file, taken over from the latest visible snapshot. */
  ghost predicate ReuseStep(s: State, k: Link, t: State) {
    && s.actor.Worker? && k in s.links && Visible(s.snaps, k.item.snap)
    && k.item in s.items && k.ordinal < |s.items[k.item].parts|
    && t == s.(actor := s.actor.(known := s.actor.known[s.links[k] := s.items[k.item].parts[k.ordinal]]))
  }

  /** What the worker knows after it recorded a pack. */
  function Learned(known: map<BlockId, Bytes>, entries: seq<Entry>, ids: seq<BlockId>): map<BlockId, Bytes>
    requires |ids| == |entries| && Distinct(ids)
  {
    known + map i | 0 <= i < |ids| :: ids[i] := entries[i].data
  }

  ghost predicate RecordStep(s: State, p: PackId, sha: Digest, entries: seq<Entry>, ids: seq<BlockId>, t: State) {
    && s.actor.Worker? && ValidatedObject(s, sha, entries)
    && NewPackRow(s, p, sha) && NewBlockRows(s, entries, ids)
    && t == RecordPack(s, p, sha, entries, ids).(actor := s.actor.(known := Learned(s.actor.known, entries, ids)))
  }

  ghost predicate CreateDraftStep(s: State, n: SnapId, created: nat, t: State) {
    && s.actor.Worker? && n !in s.snaps
    && (forall m :: m in s.snaps ==> s.snaps[m].created < created)
    && t == s.(snaps := s.snaps[n := SnapRow(Publishing, created)], actor := s.actor.(draft := HasDraft(n)))
  }

  predicate AllKnown(known: map<BlockId, Bytes>, refs: seq<BlockId>) {
    forall i :: 0 <= i < |refs| ==> refs[i] in known
  }

  function PartsOf(known: map<BlockId, Bytes>, refs: seq<BlockId>): seq<Bytes>
    requires AllKnown(known, refs)
  {
    seq(|refs|, i requires 0 <= i < |refs| => known[refs[i]])
  }

  /**
    One item of BatchCreateBackupSnapshotItemsAndBlocksContext. The hash is the one the worker computed over the
    stream; that it is the hash of the referenced blocks is what the backup code has to establish.
   */
  ghost predicate WriteItemStep(s: State, path: Path, refs: seq<BlockId>, sha: Digest, size: nat, t: State) {
    && s.actor.Worker? && s.actor.draft.HasDraft? && s.actor.draft.snap in s.snaps
    && ItemKey(s.actor.draft.snap, path) !in s.items && AllKnown(s.actor.known, refs)
    && sha == Sha256(Concat(PartsOf(s.actor.known, refs)))
    && t == WriteItemRows(s, ItemKey(s.actor.draft.snap, path), refs, PartsOf(s.actor.known, refs), sha, size)
  }

  // ---- The sample before publication -----------------------------------------------------------

  const SAMPLE_BUDGET := 64 * 1024 * 1024

  /** ListBackupSnapshotPacksContext: the packs the snapshot's links lead to. */
  function UsedPacks(links: Links, blocks: Blocks, n: SnapId): set<PackId> {
    set k | k in links && k.item.snap == n && links[k] in blocks :: blocks[links[k]].pack
  }

  /** ORDER BY p.id. */
  predicate InOrder(order: seq<PackId>, packs: set<PackId>) {
    && (forall i, j :: 0 <= i < j < |order| ==> order[i] < order[j])
    && (forall p :: p in order ==> p in packs) && (forall p :: p in packs ==> p in order)
  }

  /** From a random start, cyclically. */
  function Rotated(order: seq<PackId>, start: nat): seq<PackId>
    requires start <= |order|
  {
    order[start..] + order[..start]
  }

  /** The pack is READY, in the store with its size, and validates. */
  ghost predicate SoundPack(packs: Packs, objects: map<Digest, Bytes>, p: PackId) {
    && HasState(packs, p, Ready) && packs[p].sha in objects
    && var stored := objects[packs[p].sha];
       |stored| == packs[p].size && Sha256(stored) == packs[p].sha && IsPack(stored)
  }

  /** verifySnapshotSample: packs that do not fit the remaining budget are skipped, the others must be sound. */
  ghost predicate SamplePasses(packs: Packs, objects: map<Digest, Bytes>, order: seq<PackId>, remaining: nat) {
    order != [] ==>
      var p := order[0];
      && p in packs
      && if packs[p].size > remaining then SamplePasses(packs, objects, order[1..], remaining)
         else
           && SoundPack(packs, objects, p)
           && (packs[p].size < remaining ==> SamplePasses(packs, objects, order[1..], remaining - packs[p].size))
  }

  ghost predicate Sampled(s: State, n: SnapId, order: seq<PackId>, start: nat) {
    && InOrder(order, UsedPacks(s.links, s.blocks, n)) && start <= |order|
    && SamplePasses(s.packs, s.objects, Rotated(order, start), SAMPLE_BUDGET)
  }

  /**
    PublishBackupSnapshotAndFinalizeContext, after the sample has passed. A deletion request has already moved the
    job out of VERIFYING.
   */
  ghost predicate PublishStep(s: State, partial: bool, order: seq<PackId>, start: nat, t: State) {
    && s.actor.Worker? && s.actor.draft.HasDraft? && !s.deleting
    && s.actor.draft.snap in s.snaps && s.snaps[s.actor.draft.snap].state == Publishing
    && Sampled(s, s.actor.draft.snap, order, start)
    && t == s.(snaps := s.snaps[s.actor.draft.snap :=
                 s.snaps[s.actor.draft.snap].(state := if partial then Partial else Available)],
               actor := s.actor.(draft := NoDraft))
  }

  /** Discarding a draft, by its worker or by the recovery sweep, needs no lock. */
  ghost predicate DropDraftStep(s: State, n: SnapId, t: State) {
    n in s.snaps && s.snaps[n].state == Publishing && t == RemoveSnapshot(s, n)
  }

  ghost predicate ExpireStep(s: State, keep: nat, t: State) {
    s.actor.Maintenance? && t == ExpireSnapshots(s, keep)
  }

  /** A row of ListBackupReclaimablePacksContext, or of ListBackupPacksForDeletionContext once deletion is requested. */
  predicate Reclaimable(s: State, p: PackId) {
    && p in s.packs
    && (((s.packs[p].state == Ready || s.packs[p].state == DeletePending)
         && Unreferenced(s.links, s.snaps, s.blocks, p))
        || (s.deleting && s.packs[p].state != Deleted))
  }

  ghost predicate CondemnStep(s: State, p: PackId, t: State) {
    s.actor.Maintenance? && Reclaimable(s, p) && t == s.(actor := Maintenance(s.actor.condemned + {p}))
  }

  ghost predicate DeleteObjectStep(s: State, p: PackId, t: State) {
    && s.actor.Maintenance? && p in s.actor.condemned && p in s.packs
    && t == s.(objects := s.objects - {s.packs[p].sha})
  }

  ghost predicate MarkDeletedStep(s: State, p: PackId, t: State) {
    s.actor.Maintenance? && p in s.actor.condemned && p in s.packs && t == MarkPackDeleted(s, p)
  }

  /** The blocks moved are the live blocks of the source pack: len(entries) == len(liveBlocks) in compactOnePack. */
  ghost predicate MovesLive(s: State, source: PackId, ids: seq<BlockId>) {
    forall b :: b in ids <==> InPack(s.blocks, b, source) && Live(s.links, s.snaps, b)
  }

  ghost predicate SwitchStep(s: State, source: PackId, p: PackId, sha: Digest, entries: seq<Entry>, ids: seq<BlockId>,
                             t: State) {
    && s.actor.Maintenance? && ValidatedObject(s, sha, entries)
    && HasState(s.packs, source, Ready) && NewPackRow(s, p, sha) && LocatorsMatch(s, source, entries, ids)
    && MovesLive(s, source, ids)
    && t == ReplaceLocators(s, source, p, sha, entries, ids).(actor := Maintenance(s.actor.condemned + {source}))
  }

  /** A worker that finds damage fails its run. */
  ghost predicate MarkDamagedStep(s: State, p: PackId, t: State) {
    && p in s.packs && s.actor != Idle
    && t == MarkPackDamaged(s.(actor := if s.actor.Worker? then Idle else s.actor), p)
  }

  ghost predicate Next(s: State, step: Step, t: State) {
    match step
    case StartWorker => StartWorkerStep(s, t)
    case StartMaintenance => StartMaintenanceStep(s, t)
    case Stop => StopStep(s, t)
    case Upload(bytes) => UploadStep(s, bytes, t)
    case PartialUpload(id, bytes) => PartialUploadStep(s, id, bytes, t)
    case Lookup(b, data) => LookupStep(s, b, data, t)
    case Reuse(k) => ReuseStep(s, k, t)
    case Record(p, sha, entries, ids) => RecordStep(s, p, sha, entries, ids, t)
    case CreateDraft(n, created) => CreateDraftStep(s, n, created, t)
    case WriteItem(path, refs, sha, size) => WriteItemStep(s, path, refs, sha, size, t)
    case Publish(partial, order, start) => PublishStep(s, partial, order, start, t)
    case DropDraft(n) => DropDraftStep(s, n, t)
    case Expire(keep) => ExpireStep(s, keep, t)
    case Condemn(p) => CondemnStep(s, p, t)
    case DeleteObject(p) => DeleteObjectStep(s, p, t)
    case MarkDeleted(p) => MarkDeletedStep(s, p, t)
    case SwitchLocators(source, p, sha, entries, ids) => SwitchStep(s, source, p, sha, entries, ids, t)
    case MarkDamaged(p) => MarkDamagedStep(s, p, t)
    case RequestDeletion => t == RequestRepositoryDeletion(s)
  }
}
